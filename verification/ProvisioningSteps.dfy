// What one reconcile of a HetznerRobotMachine means, without the functions that compute it:
// which disk is written, when the host is released, when each stage is left, and what a failure
// does.
module ProvisioningSteps {
  import opened Common
  import opened Api
  import opened Policy
  import opened Provisioning
  import Hardware
  import ProviderIds

  // ---- The disk ----

  predicate Safe(hw: Hardware.HardwareInfo, disk: string) { disk in hw.disks && disk !in hw.ceph }

  // The configured disk if it holds no Ceph data, else the first one that does not; the
  // configured one is trusted when there is none.
  predicate Chosen(hw: Hardware.HardwareInfo, installDisk: string, disk: string) {
    var configured := if installDisk == "" then "/dev/nvme0n1" else installDisk;
    if Safe(hw, configured) || (forall d :: d in hw.disks ==> !Safe(hw, d)) then disk == configured
    else
      && Safe(hw, disk)
      && exists i | 0 <= i < |hw.disks| :: hw.disks[i] == disk && forall j | 0 <= j < i :: hw.disks[j] in hw.ceph
  }

  // What the status keeps of the detection and the choice.
  datatype Record = Record(primaryMAC: string, gatewayIP: string, resolvedDisk: string)

  function RecordOf(s: State): Record { Record(s.primaryMAC, s.gatewayIP, s.resolvedDisk) }

  predicate Recorded(hw: Hardware.HardwareInfo, disk: string, r: Record) {
    && r.primaryMAC == hw.primaryMAC && r.gatewayIP == hw.gatewayIP
    && r.resolvedDisk == if disk in hw.byID then hw.byID[disk] else disk
  }

  // The report parses, and the effects wipe all its disks and then write the chosen one.
  predicate WrittenFrom(report: string, spec: Spec, wipe: Effect, image: Effect, r: Record) {
    var parsed := Hardware.Parse(report);
    && parsed.Ok? && wipe.DisksWiped? && image.ImageWritten?
    && wipe.disks == parsed.value.disks && wipe.disks != [] && wipe.ok && wipe.server == image.server
    && Chosen(parsed.value, spec.installDisk, image.disk)
    && Recorded(parsed.value, image.disk, r)
  }

  lemma ChosenResolves(hw: Hardware.HardwareInfo, spec: Spec)
    ensures var r := Hardware.Resolve(hw, ConfiguredDisk(spec)); r.Ok? ==> Chosen(hw, spec.installDisk, r.value)
  {
    var safes := Hardware.Free(hw.disks, hw.ceph);
    Hardware.FreeMembers(hw.disks, hw.ceph);
    hide Hardware.Free;
    forall d | d in hw.disks ensures Safe(hw, d) <==> d in safes {
    }
    assert safes != [] ==> safes[0] in safes;
    assert ConfiguredDisk(spec) in safes ==> ConfiguredDisk(spec) in hw.disks;
  }

  lemma WipeAndWriteShape(
    s: State, env: Env, spec: Spec, server: int, disks: seq<string>, confirmed: bool, disk: string)
    ensures var o := WipeAndWrite(s, env, spec, server, disks, confirmed, disk);
            && 2 <= |o.effects| <= 3 && o.effects[0] == RescueVerified(server)
            && o.effects[1] == DisksWiped(server, disks, confirmed)
            && (|o.effects| == 3 ==> confirmed && o.effects[2] == ImageWritten(server, disk, env.image.None?))
            && RecordOf(o.s) == RecordOf(s)
  {
    hide ProviderIds.Print;
  }

  lemma InstallWrites(s: State, env: Env, spec: Spec, server: int)
    ensures var o := Install(s, env, spec, server);
            && 1 <= |o.effects| <= 3 && o.effects[0] == RescueVerified(server) && !o.effects[|o.effects| - 1].Released?
            && (|o.effects| >= 2 ==> o.effects[1].DisksWiped?)
            && (|o.effects| == 3 ==> WrittenFrom(env.hardware, spec, o.effects[1], o.effects[2], RecordOf(o.s)))
  {
    hide Hardware.Parse, Hardware.Resolve, Chosen, WipeConfirmed, WipeAndWrite, StableDisk;
    var parsed := Hardware.Parse(env.hardware);
    if parsed.Ok? && Hardware.Resolve(parsed.value, ConfiguredDisk(spec)).Ok? {
      var hw, disk := parsed.value, Hardware.Resolve(parsed.value, ConfiguredDisk(spec)).value;
      ChosenResolves(hw, spec);
      var s1 := s.(primaryMAC := hw.primaryMAC, gatewayIP := hw.gatewayIP, resolvedDisk := StableDisk(hw, disk));
      WipeAndWriteShape(s1, env, spec, server, hw.disks, WipeConfirmed(env, hw), disk);
      assert Recorded(hw, disk, RecordOf(s1)) by { StablePath(hw, disk); }
    }
  }

  lemma StablePath(hw: Hardware.HardwareInfo, disk: string)
    ensures StableDisk(hw, disk) == if disk in hw.byID then hw.byID[disk] else disk
  {
  }

  // Every image among the effects is preceded by the wipe it belongs to.
  predicate ImagesFrom(report: string, spec: Spec, es: seq<Effect>, r: Record) {
    forall i | 0 <= i < |es| && es[i].ImageWritten? ::
      i >= 2 && es[i - 2] == RescueVerified(es[i].server) && WrittenFrom(report, spec, es[i - 1], es[i], r)
  }

  predicate NoImage(es: seq<Effect>) { forall e | e in es :: !e.ImageWritten? }

  lemma InstallImages(s: State, env: Env, spec: Spec, server: int)
    ensures var o := InstallOS(s, env, spec, server); ImagesFrom(env.hardware, spec, o.effects, RecordOf(o.s))
  {
    hide Install, WrittenFrom;
    InstallWrites(s, env, spec, server);
    var o := Install(s, env, spec, server);
    ActsOnServer(s, env, spec, server);
    assert |o.effects| == 3 ==> o.effects[2].server == server;
  }

  lemma ActsOnServer(s: State, env: Env, spec: Spec, server: int)
    ensures var o := Install(s, env, spec, server); forall e | e in o.effects :: e.server == server
  {
    hide Hardware.Parse, Hardware.Resolve, WipeConfirmed, StableDisk, ProviderIds.Print;
  }

  lemma OthersWriteNone(s: State, env: Env, spec: Spec, server: int)
    requires s.stage != InRescue
    ensures NoImage(Handle(s, env, spec, server).effects)
  {
    hide ProviderIds.Print, NotDetected, InstallOS;
  }

  // In every reconcile: an image is written after the wipe of all disks of the very report that
  // was parsed, to the disk to choose from that report, and that disk's path is recorded.
  lemma ImagesChosen(s: State, env: Env, spec: Spec)
    ensures var r := Reconciled(s, env, spec); ImagesFrom(env.hardware, spec, r.1, RecordOf(r.0))
  {
    hide Handle, Delete, ImagesFrom, WrittenFrom, GateOpen;
    var s1 := Started(s, env.now);
    NoneFrom(env.hardware, spec, [], RecordOf(s));
    NoneFrom(env.hardware, spec, Delete(s, env).effects, RecordOf(Delete(s, env).s)) by { DeleteWritesNone(s, env); }
    if env.host.Found? {
      var server := env.host.host.serverID;
      var o := Handle(s1, env, spec, server);
      if s1.stage == InRescue {
        assert o == InstallOS(s1, env, spec, server) by { HandleInRescue(s1, env, spec, server); }
        InstallImages(s1, env, spec, server);
      } else {
        OthersWriteNone(s1, env, spec, server);
        NoneFrom(env.hardware, spec, o.effects, RecordOf(o.s));
      }
    }
  }

  lemma HandleInRescue(s: State, env: Env, spec: Spec, server: int)
    requires s.stage == InRescue
    ensures Handle(s, env, spec, server) == InstallOS(s, env, spec, server)
  {
  }

  lemma NoneFrom(report: string, spec: Spec, es: seq<Effect>, r: Record)
    requires NoImage(es)
    ensures ImagesFrom(report, spec, es, r)
  {
  }

  lemma DeleteWritesNone(s: State, env: Env)
    ensures NoImage(Delete(s, env).effects)
  {
    hide GateOpen;
  }

  // ---- The release in a delete ----

  // The host is known, the drain is over, the client can be built, and the gate is open (a host
  // without a server has nothing to protect).
  predicate MayRelease(env: Env) {
    && !env.drainPending && env.robotClient.None? && env.deleteHost.Some?
    && (env.deleteHost.value.serverID != 0 ==> GateOpen(env, env.deleteHost.value))
  }

  // A host is released only in a delete that may, after the activation and the reset of its server.
  predicate ReleasedRightly(s: State, env: Env, es: seq<Effect>, i: nat)
    requires i < |es|
  {
    && s.deleting && MayRelease(env)
    && es[i] == Released(env.deleteHost.value.serverID, env.releaseHost.None?)
    && (es[i].server != 0 ==>
          && i >= 2
          && es[i - 2] == Activate(es[i].server, env.activate.None?)
          && es[i - 1] == Reset(es[i].server, env.now, env.reset.None?))
  }

  lemma NormalReleasesNone(s: State, env: Env, spec: Spec)
    ensures forall e | e in Normal(s, env, spec).effects :: !e.Released?
  {
    hide InstallOS, ProviderIds.Print, NotDetected, GateOpen;
    if env.host.Found? && s.stage == InRescue {
      InstallReleasesNone(s, env, spec, env.host.host.serverID);
    }
  }

  lemma InstallReleasesNone(s: State, env: Env, spec: Spec, server: int)
    ensures forall e | e in InstallOS(s, env, spec, server).effects :: !e.Released?
  {
    InstallWrites(s, env, spec, server);
    hide Install;
  }

  lemma ReleasesRightly(s: State, env: Env, spec: Spec)
    ensures var es := Reconciled(s, env, spec).1;
            forall i | 0 <= i < |es| && es[i].Released? :: ReleasedRightly(s, env, es, i)
  {
    NormalReleasesNone(Started(s, env.now), env, spec);
    hide Normal, GateOpen;
  }

  // ... and such a delete does exactly that, and lets the machine go. With a drain pending
  // nothing happens; with no client, no host, or a closed gate the machine goes and the host
  // stays claimed.
  lemma DeletesExactly(s: State, env: Env, spec: Spec)
    requires s.deleting
    ensures var r := Reconciled(s, env, spec);
            && r.0 == s.(stage := Deleting, finalizer := s.finalizer && env.drainPending)
            && (!MayRelease(env) ==> r.1 == [])
            && (MayRelease(env) ==>
                  var server := env.deleteHost.value.serverID;
                  var reset := [Activate(server, env.activate.None?), Reset(server, env.now, env.reset.None?)];
                  r.1 == (if server == 0 then [] else reset) + [Released(server, env.releaseHost.None?)])
  {
    hide GateOpen;
  }

  // ---- When a stage is left ----

  // Half an hour has passed since the machine started, and it is not there yet.
  predicate OutOfTime(s: State, now: int) {
    s.stage !in {Provisioned, StateError, Deleting} && s.started.Some? && now - s.started.value > 1800
  }

  // The reconcile gets as far as the handler of its stage.
  predicate Reaches(s: State, env: Env) {
    && !s.deleting && s.finalizer && !OutOfTime(s, env.now) && !BackingOff(Started(s, env.now), env.now)
    && env.host.Found? && env.robotClient.None?
    && (s.stage in {StateNone, ActivatingRescue, InRescue, Installing} ==> GateOpen(env, env.host.host))
  }

  // The stage tries to reset the server into the rescue system.
  predicate WantsRescue(s: State, env: Env, spec: Spec) {
    match s.stage
    case StateNone => true
    case ActivatingRescue =>
      if env.sshOpen && env.privateKey.None? && env.connect.None? then !env.rescueShell
      else env.rescueStatusKnown && env.talosUp
    case InRescue =>
      && (spec.flatcar ==> env.bootstrapReady && env.publicKey.None?)
      && env.sshOpen && env.privateKey.None? && env.rescueMode == Some(false)
    case Installing => !spec.flatcar && !env.maintenanceMode && env.talosUp
    case _ => false
  }

  predicate CooledDown(s: State, now: int) { s.lastReset.None? || now - s.lastReset.value >= 120 }

  // The rescue system is verified, the report has disks, every one of them is confirmed wiped, and
  // the image is written; a Flatcar machine has its bootstrap data, key and Ignition config.
  predicate Installable(env: Env, spec: Spec) {
    var parsed := Hardware.Parse(env.hardware);
    && (spec.flatcar ==> env.bootstrapReady && env.publicKey.None? && env.ignition.None?)
    && env.sshOpen && env.privateKey.None? && env.rescueMode == Some(true) && env.connect.None? && env.detect.None?
    && parsed.Ok? && parsed.value.disks != []
    && env.wipeOutput.Ok? && (forall d | d in parsed.value.disks :: Hardware.Confirmed(env.wipeOutput.value, d))
    && env.image.None?
  }

  // What has to be observed for the machine to go from its stage to another one.
  predicate Awaited(s: State, env: Env, spec: Spec, next: ProvisioningState) {
    match next
    case ActivatingRescue =>
      && WantsRescue(s, env, spec) && CooledDown(s, env.now)
      && env.fingerprint.None? && env.activate.None? && env.reset.None?
    case InRescue =>
      s.stage == ActivatingRescue && env.sshOpen && env.privateKey.None? && env.connect.None? && env.rescueShell
    case StateNone =>
      s.stage == InRescue && !env.sshOpen && (spec.flatcar ==> env.bootstrapReady && env.publicKey.None?)
    case Installing => s.stage == InRescue && Installable(env, spec)
    case BootingTalos => s.stage == Installing && !spec.flatcar && env.maintenanceMode
    case ApplyingConfig => s.stage == BootingTalos && env.maintenanceMode && env.endpoint.None?
    case WaitingForBoot =>
      && s.stage == ApplyingConfig && env.bootstrapReady && env.diskInjection.None?
      && s.primaryMAC != "" && (env.vlan ==> env.internalIP != "" && s.gatewayIP != "")
      && env.injections.None? && env.applyConfig.None?
    case BootingFlatcar => s.stage == Installing && spec.flatcar && env.privateKey.None? && env.flatcarUp
    case Provisioned =>
      || (s.stage == WaitingForBoot && env.talosUp)
      || (s.stage == BootingFlatcar && env.privateKey.None? && env.bootstrapDone == Some(true))
    case _ => false
  }

  // The error state has its own rules, and a delete too.
  predicate Waits(stage: ProvisioningState) { stage != StateError && stage != Deleting }

  lemma RescueStep(s: State, env: Env, server: int, spec: Spec)
    ensures var o := ActivateRescue(s, env, server);
            && (CooledDown(s, env.now) && env.fingerprint.None? && env.activate.None? && env.reset.None? ==>
                  o.s.stage == ActivatingRescue && o.fault.None?
                  && o.effects == [Activate(server, true), Reset(server, env.now, true)])
            && (!(CooledDown(s, env.now) && env.fingerprint.None? && env.activate.None? && env.reset.None?) ==> o.s == s)
  {
  }

  lemma ResolvesAlways(hw: Hardware.HardwareInfo, spec: Spec)
    ensures Hardware.Resolve(hw, ConfiguredDisk(spec)).Ok?
  {
    Hardware.ResolveMeaning(hw, ConfiguredDisk(spec));
  }

  lemma InstallStage(s: State, env: Env, spec: Spec, server: int)
    requires s.stage == InRescue
    ensures var o := Install(s, env, spec, server);
            && o.s.stage in {s.stage, Installing}
            && (env.sshOpen && env.privateKey.None? && env.rescueMode == Some(true)
                && (spec.flatcar ==> env.bootstrapReady && env.publicKey.None?) ==>
                  (o.s.stage == Installing <==> Installable(env, spec)))
  {
    var parsed := Hardware.Parse(env.hardware);
    if parsed.Ok? {
      ResolvesAlways(parsed.value, spec);
    }
    hide Hardware.Parse, Hardware.Resolve, Hardware.Confirmed, StableDisk, ProviderIds.Print, ConfiguredDisk;
  }

  lemma InstallMoves(s: State, env: Env, spec: Spec, server: int, next: ProvisioningState)
    requires next != s.stage && Waits(next) && s.stage == InRescue
    ensures InstallOS(s, env, spec, server).s.stage == next <==> Awaited(s, env, spec, next)
  {
    hide ActivateRescue, Install, Hardware.Parse, Hardware.Confirmed;
    RescueStep(s, env, server, spec);
    InstallStage(s, env, spec, server);
  }

  // A handler leaves its stage exactly for what was observed.
  lemma HandlerMoves(s: State, env: Env, spec: Spec, server: int, next: ProvisioningState)
    requires next != s.stage && Waits(next)
    ensures Handle(s, env, spec, server).s.stage == next <==> Awaited(s, env, spec, next)
  {
    if s.stage == InRescue {
      InstallMoves(s, env, spec, server, next);
      hide InstallOS, Awaited;
    } else {
      hide ActivateRescue, InstallOS, ProviderIds.Print;
      RescueStep(s, env, server, spec);
    }
  }

  lemma HandlerMovesWell(s: State, env: Env, spec: Spec, server: int)
    ensures var o := Handle(s, env, spec, server); o.s.stage != s.stage ==> o.fault.None?
  {
    HandleKeeps(s, env, spec, server);
    hide Handle;
  }

  lemma NormalMoves(s: State, env: Env, spec: Spec, next: ProvisioningState)
    requires next != s.stage && Waits(next)
    ensures var o := Normal(s, env, spec);
            && (o.s.stage == next <==>
                  && env.host.Found? && env.robotClient.None? && (MayBecomeDestructive(s.stage) ==> GateOpen(env, env.host.host))
                  && Awaited(s, env, spec, next))
            && (o.s.stage == next ==> o.fault.None?)
  {
    if env.host.Found? {
      HandlerMoves(s, env, spec, env.host.host.serverID, next);
      HandlerMovesWell(s, env, spec, env.host.host.serverID);
    }
    ProvisionedStays(s, env, spec, next);
    hide Handle, GateOpen, Awaited;
  }

  lemma ProvisionedStays(s: State, env: Env, spec: Spec, next: ProvisioningState)
    ensures s.stage == Provisioned ==> !Awaited(s, env, spec, next)
  {
  }

  lemma ConcludedStage(o: Outcome, now: int)
    ensures Concluded(o, now).stage in {o.s.stage, StateError}
    ensures o.fault.None? ==> Concluded(o, now).stage == o.s.stage
  {
  }

  lemma StartedAwaits(s: State, env: Env, spec: Spec, next: ProvisioningState)
    ensures Awaited(Started(s, env.now), env, spec, next) <==> Awaited(s, env, spec, next)
  {
  }

  predicate Attempts(s: State, env: Env) {
    !s.deleting && s.finalizer && !TimedOut(s, env.now) && !BackingOff(Started(s, env.now), env.now)
  }

  lemma AttemptMoves(s: State, env: Env, spec: Spec, next: ProvisioningState)
    requires next != s.stage && Waits(next) && Attempts(s, env)
    ensures Reconciled(s, env, spec).0.stage == next <==>
            && env.host.Found? && env.robotClient.None? && (MayBecomeDestructive(s.stage) ==> GateOpen(env, env.host.host))
            && Awaited(s, env, spec, next)
  {
    var s1 := Started(s, env.now);
    assert s1.stage == s.stage;
    assert Reconciled(s, env, spec).0 == Concluded(Normal(s1, env, spec), env.now) by { hide Normal, Concluded; }
    NormalMoves(s1, env, spec, next);
    StartedAwaits(s, env, spec, next);
    ConcludedStage(Normal(s1, env, spec), env.now);
    hide Reconciled, Normal, GateOpen, Awaited, Concluded, Started, Attempts;
  }

  lemma OthersMoveNowhere(s: State, env: Env, spec: Spec, next: ProvisioningState)
    requires next != s.stage && Waits(next) && !Attempts(s, env)
    ensures Reconciled(s, env, spec).0.stage != next
  {
    hide Normal, BackingOff;
  }

  // One reconcile goes from a stage to another one if and only if it gets to the handler and
  // observes what that step waits for.
  lemma MovesExactly(s: State, env: Env, spec: Spec, next: ProvisioningState)
    requires next != s.stage && Waits(next)
    ensures Reconciled(s, env, spec).0.stage == next <==> Reaches(s, env) && Awaited(s, env, spec, next)
  {
    hide Reconciled, GateOpen, BackingOff, Awaited, Started;
    if Attempts(s, env) {
      AttemptMoves(s, env, spec, next);
    } else {
      OthersMoveNowhere(s, env, spec, next);
    }
  }

  // Where Talos is found running on the way to the rescue system, its system disk is wiped
  // before the reset.
  lemma TalosWipedFirst(s: State, env: Env, spec: Spec)
    requires Reaches(s, env) && s.stage == ActivatingRescue && Awaited(s, env, spec, ActivatingRescue)
    requires !(env.sshOpen && env.privateKey.None? && env.connect.None?)
    ensures var server := env.host.host.serverID;
            Reconciled(s, env, spec).1
              == [SystemDiskWipe(server, env.systemWipe), Activate(server, true), Reset(server, env.now, true)]
  {
    RescueStep(Started(s, env.now), env, env.host.host.serverID, spec);
    hide ActivateRescue, GateOpen, BackingOff;
  }

  // ---- What a failure does ----

  // A call of the reconcile failed for good.
  predicate FailedForGood(env: Env) {
    || (env.host.Missing? && env.host.fault.permanent)
    || exists c | c in Calls(env) :: c.Some? && c.value.permanent
  }

  function Calls(env: Env): set<Call> {
    {env.robotClient, env.fingerprint, env.activate, env.reset, env.privateKey, env.publicKey, env.connect,
     env.detect, env.image, env.endpoint, env.diskInjection, env.injections, env.applyConfig, env.ignition,
     Some(env.wipeFault)}
  }

  lemma FaultsAreCalls(s: State, env: Env, spec: Spec)
    ensures var o := Normal(s, env, spec);
            o.fault.Some? && o.fault.value.permanent ==>
              (env.host.Missing? && o.fault == Some(env.host.fault)) || o.fault in Calls(env)
  {
    hide Hardware.Parse, Hardware.Resolve, WipeConfirmed, StableDisk, ProviderIds.Print, GateOpen, NotDetected;
  }

  // A reconcile ends in the error state, not ready and with a reason, if the timeout has passed
  // or its handler failed for good. Any other failure is counted and keeps the stage.
  lemma FailsExactly(s: State, env: Env, spec: Spec)
    requires !s.deleting && s.finalizer && s.stage != StateError
    ensures var r := Reconciled(s, env, spec).0; var s1 := Started(s, env.now); var o := Normal(s1, env, spec);
            && (r.stage == StateError <==>
                  || OutOfTime(s, env.now)
                  || (!BackingOff(s1, env.now) && o.fault.Some? && o.fault.value.permanent))
            && (r.stage == StateError ==> !r.ready && r.failureReason.Some? && (OutOfTime(s, env.now) || FailedForGood(env)))
            && (!OutOfTime(s, env.now) && !BackingOff(s1, env.now) && o.fault.Some? && !o.fault.value.permanent ==>
                  && r.stage == o.s.stage == s.stage
                  && r.retryCount == s.retryCount + 1 && r.lastRetry == Some(env.now)
                  && r.failureReason == s.failureReason && r.ready == s.ready)
            && (!OutOfTime(s, env.now) && !BackingOff(s1, env.now) && o.fault.None? ==>
                  r.stage == o.s.stage && r.retryCount == 0 && r.failureReason.None? && r.lastRetry.None?)
  {
    var s1 := Started(s, env.now);
    FaultsAreCalls(s1, env, spec);
    NormalKeeps(s1, env, spec);
    hide Normal, BackingOff, Calls;
  }

  predicate KeepsWhatFailed(s: State, o: Outcome) {
    && (o.s.stage == StateError <==> s.stage == StateError)
    && (o.fault.Some? ==>
          o.s.stage == s.stage && o.s.ready == s.ready && o.s.failureReason == s.failureReason
          && o.s.retryCount == s.retryCount)
  }

  lemma InstallKeeps(s: State, env: Env, spec: Spec, server: int)
    requires s.stage != StateError
    ensures KeepsWhatFailed(s, Install(s, env, spec, server))
  {
    hide Hardware.Parse, Hardware.Resolve, WipeConfirmed, StableDisk, ProviderIds.Print;
  }

  lemma RescueKeeps(s: State, env: Env, server: int)
    requires s.stage != StateError
    ensures KeepsWhatFailed(s, ActivateRescue(s, env, server))
  {
  }

  lemma InstallOSKeeps(s: State, env: Env, spec: Spec, server: int)
    requires s.stage != StateError
    ensures KeepsWhatFailed(s, InstallOS(s, env, spec, server))
  {
    InstallKeeps(s, env, spec, server);
    RescueKeeps(s, env, server);
    hide Install, ActivateRescue;
  }

  lemma HandleKeeps(s: State, env: Env, spec: Spec, server: int)
    ensures KeepsWhatFailed(s, Handle(s, env, spec, server))
  {
    if s.stage != StateError {
      InstallOSKeeps(s, env, spec, server);
      RescueKeeps(s, env, server);
    }
    hide InstallOS, ActivateRescue, ProviderIds.Print, NotDetected;
  }

  lemma NormalKeeps(s: State, env: Env, spec: Spec)
    ensures KeepsWhatFailed(s, Normal(s, env, spec))
  {
    if env.host.Found? {
      HandleKeeps(s, env, spec, env.host.host.serverID);
    }
    hide Handle, GateOpen;
  }
}
