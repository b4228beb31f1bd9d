// Whole runs of the provisioning state machine, with machine patches that may be lost and
// reconciles that may stop between two effects.
module ProvisioningRuns {
  import opened Common
  import opened Api
  import opened Policy
  import opened Provisioning
  import opened ProvisioningSteps
  import Hardware
  import ProviderIds

  // Unsaved(n): the reconcile got through n effects, and its deferred patch was not stored.
  datatype Fate = Saved | Unsaved(done: nat)

  datatype Event = RequestDelete | Attempt(env: Env, fate: Fate)

  datatype World = World(s: State, log: seq<Effect>, clock: int)

  const FRESH := State(StateNone, 0, None, None, None, None, false, "", "", "", None, false, false)

  function Next(spec: Spec, w: World, e: Event): World {
    match e
    case RequestDelete => w.(s := w.s.(deleting := true))
    case Attempt(env, fate) =>
      var r := Reconciled(w.s, env, spec);
      if fate.Saved? then World(r.0, w.log + r.1, env.now)
      else World(w.s, w.log + r.1[..Min(fate.done, |r.1|)], env.now)
  }

  // The object is gone once it is deleted and has no finalizer. Its reconciles see one server:
  // that is OwnershipRuns.OneServer.
  predicate Enabled(server: int, w: World, e: Event) {
    e.Attempt? ==>
      && e.env.now >= w.clock
      && !(w.s.deleting && !w.s.finalizer)
      && (e.env.host.Found? ==> e.env.host.host.serverID == server)
      && (e.env.deleteHost.Some? ==> e.env.deleteHost.value.serverID == server)
  }

  predicate Run(spec: Spec, server: int, trace: seq<World>, events: seq<Event>) {
    && |trace| == |events| + 1
    && trace[0].s == FRESH && trace[0].log == []
    && forall i | 0 <= i < |events| ::
         Enabled(server, trace[i], events[i]) && trace[i + 1] == Next(spec, trace[i], events[i])
  }

  predicate AllSaved(events: seq<Event>) {
    forall i | 0 <= i < |events| :: events[i].Attempt? ==> events[i].fate.Saved?
  }

  // ---- Authorisation ----

  predicate Physical(e: Effect) {
    e.Activate? || e.Reset? || e.SystemDiskWipe? || e.DisksWiped? || e.ImageWritten?
  }

  predicate DiskEffect(e: Effect) { e.SystemDiskWipe? || e.DisksWiped? || e.ImageWritten? }

  // The gate stood open, in this very reconcile, for the host whose server is acted on.
  predicate Authorised(s: State, env: Env, e: Effect) {
    if s.deleting then
      && env.deleteHost.Some? && GateOpen(env, env.deleteHost.value)
      && e.server == env.deleteHost.value.serverID && !DiskEffect(e)
    else
      && env.host.Found? && GateOpen(env, env.host.host)
      && e.server == env.host.host.serverID && MayBecomeDestructive(s.stage)
  }

  // What a handler does to the server, by the stage it runs in.
  predicate Fits(stage: ProvisioningState, server: int, effects: seq<Effect>) {
    && (forall e | e in effects :: e.server == server && !e.Released?)
    && (forall e | e in effects && Physical(e) :: MayBecomeDestructive(stage))
    && (forall e | e in effects && DiskEffect(e) :: stage == ActivatingRescue || stage == InRescue)
  }

  lemma ActivateFits(stage: ProvisioningState, s: State, env: Env, server: int)
    requires MayBecomeDestructive(stage)
    ensures Fits(stage, server, ActivateRescue(s, env, server).effects)
  {
  }

  // A verified rescue system, a confirmed wipe of all disks, and the image on one of them.
  predicate FullInstall(effects: seq<Effect>, server: int) {
    && |effects| == 3
    && effects[0] == RescueVerified(server)
    && effects[1].DisksWiped? && effects[1].server == server && effects[1].disks != [] && effects[1].ok
    && effects[2].ImageWritten? && effects[2].server == server && effects[2].ok
  }

  // Installing is reached only by a complete installation; nothing follows a failure in it.
  lemma InstallShape(s: State, env: Env, spec: Spec, server: int)
    ensures var o := Install(s, env, spec, server); var es := o.effects;
            && 1 <= |es| <= 3 && es[0] == RescueVerified(server)
            && (|es| >= 2 ==> es[1].DisksWiped? && es[1].server == server && es[1].disks != [])
            && (|es| == 3 ==> es[1].ok && es[2].ImageWritten? && es[2].server == server)
            && (o.fault.None? <==> FullInstall(es, server))
            && o.s == s.(stage := o.s.stage, primaryMAC := o.s.primaryMAC, gatewayIP := o.s.gatewayIP,
                         resolvedDisk := o.s.resolvedDisk, providerID := o.s.providerID)
            && (o.fault.Some? ==> o.s.stage == s.stage && o.s.providerID == s.providerID)
            && (o.fault.None? ==>
                  && o.s.stage == Installing && o.s.primaryMAC != "" && o.s.gatewayIP != ""
                  && o.s.providerID == if spec.flatcar then Some(ProviderIds.Print(server)) else s.providerID)
  {
    hide WipeConfirmed, StableDisk, ConfiguredDisk;
    hide Hardware.Resolve, Hardware.NoteAll;
    hide ProviderIds.Print;
  }

  lemma InstallFits(s: State, env: Env, spec: Spec, server: int)
    requires s.stage == InRescue
    ensures Fits(s.stage, server, InstallOS(s, env, spec, server).effects)
  {
    hide ActivateRescue, Install, Fits;
    ActivateFits(s.stage, s, env, server);
    InstallShape(s, env, spec, server);
    ShapeFits(Install(s, env, spec, server).effects, server);
    ShapeFits([], server);
  }

  lemma ShapeFits(es: seq<Effect>, server: int)
    requires |es| <= 3 && (es != [] ==> es[0] == RescueVerified(server))
    requires |es| >= 2 ==> es[1].DisksWiped? && es[1].server == server
    requires |es| == 3 ==> es[2].ImageWritten? && es[2].server == server
    ensures Fits(InRescue, server, es)
  {
  }

  lemma HandleFits(s: State, env: Env, spec: Spec, server: int)
    ensures Fits(s.stage, server, Handle(s, env, spec, server).effects)
  {
    if MayBecomeDestructive(s.stage) {
      ActivateFits(s.stage, s, env, server);
    }
    if s.stage == InRescue {
      InstallFits(s, env, spec, server);
    }
    hide ActivateRescue;
    hide InstallOS;
  }

  lemma NormalFits(s: State, env: Env, spec: Spec)
    ensures env.host.Found? ==> Fits(s.stage, env.host.host.serverID, Normal(s, env, spec).effects)
    ensures forall e | e in Normal(s, env, spec).effects ::
              && env.host.Found? && s.stage != Provisioned
              && (MayBecomeDestructive(s.stage) ==> GateOpen(env, env.host.host))
  {
    if env.host.Found? {
      HandleFits(s, env, spec, env.host.host.serverID);
    }
    hide Handle;
  }

  // No reconcile, in any state, acts on a server without the gate.
  lemma ReconcileAuthorised(s: State, env: Env, spec: Spec)
    ensures forall e | e in Reconciled(s, env, spec).1 && Physical(e) :: Authorised(s, env, e)
  {
    NormalFits(Started(s, env.now), env, spec);
    hide Normal;
  }

  // ---- Where a provisioned machine comes from ----

  // A successful reset, directly after the rescue system was activated.
  predicate RebootedAt(log: seq<Effect>, server: int, r: nat)
    requires r < |log|
  {
    log[r].Reset? && log[r].server == server && log[r].ok && r > 0 && log[r - 1] == Activate(server, true)
  }

  predicate RebootedBefore(log: seq<Effect>, server: int, n: nat)
    requires n <= |log|
  {
    exists r | 0 <= r < n :: RebootedAt(log, server, r)
  }

  // What a run is about: the machine's spec, its server, and the hardware reports seen so far.
  datatype Setting = Setting(spec: Spec, server: int, reports: set<string>)

  // At i: rescue verified, every disk of the report wiped, the image written to the disk to choose
  // from that report, after a reset into the rescue system that had just been activated; no disk
  // of the server has been touched since, and the record is that of the report and the disk.
  predicate InstalledAt(c: Setting, r: Record, log: seq<Effect>, report: string, i: nat) {
    && i + 3 <= |log|
    && FullInstall(log[i..i + 3], c.server)
    && report in c.reports && WrittenFrom(report, c.spec, log[i + 1], log[i + 2], r)
    && RebootedBefore(log, c.server, i)
    && forall j | i + 3 <= j < |log| :: !DiskEffect(log[j])
  }

  predicate ConfiguredAt(log: seq<Effect>, server: int, j: nat) {
    j < |log| && log[j] == ConfigApplied(server, ProviderIds.Print(server), true)
  }

  ghost predicate Installed(c: Setting, r: Record, log: seq<Effect>) {
    exists report: string, i: nat :: InstalledAt(c, r, log, report, i)
  }

  // Installed, and after that a configuration with the server's provider ID was accepted.
  ghost predicate Configured(c: Setting, r: Record, log: seq<Effect>) {
    exists report: string, i: nat, j: nat ::
      InstalledAt(c, r, log, report, i) && i + 3 <= j && ConfiguredAt(log, c.server, j)
  }

  // What the log holds, by the stage that is stored.
  ghost predicate Grounded(c: Setting, stage: ProvisioningState, r: Record, log: seq<Effect>) {
    match stage
    case ActivatingRescue => RebootedBefore(log, c.server, |log|)
    case InRescue => RebootedBefore(log, c.server, |log|)
    case Installing => Installed(c, r, log)
    case BootingTalos => !c.spec.flatcar && Installed(c, r, log)
    case ApplyingConfig => !c.spec.flatcar && Installed(c, r, log)
    case WaitingForBoot => !c.spec.flatcar && Configured(c, r, log)
    case BootingFlatcar => c.spec.flatcar && Installed(c, r, log)
    case Provisioned => if c.spec.flatcar then Installed(c, r, log) else Configured(c, r, log)
    case _ => true
  }

  // From Installing on, the network identity is known.
  predicate PastInstall(stage: ProvisioningState) {
    stage in {Installing, BootingTalos, ApplyingConfig, WaitingForBoot, BootingFlatcar, Provisioned}
  }

  predicate Identified(spec: Spec, stage: ProvisioningState) {
    || stage == WaitingForBoot || stage == Provisioned
    || (spec.flatcar && (stage == Installing || stage == BootingFlatcar))
  }

  predicate StatusOk(spec: Spec, server: int, s: State) {
    && (PastInstall(s.stage) ==> s.primaryMAC != "" && s.gatewayIP != "")
    && (Identified(spec, s.stage) ==> s.providerID == Some(ProviderIds.Print(server)))
    && (s.ready ==> s.stage == Provisioned || s.stage == Deleting)
    && (s.stage == Provisioned ==> s.ready)
    && (s.stage == Deleting ==> s.deleting)
  }

  ghost predicate Inv(c: Setting, s: State, log: seq<Effect>) {
    StatusOk(c.spec, c.server, s) && Grounded(c, s.stage, RecordOf(s), log)
  }

  lemma RebootedStays(log: seq<Effect>, more: seq<Effect>, server: int)
    ensures RebootedBefore(log, server, |log|) ==> RebootedBefore(log + more, server, |log + more|)
  {
    if RebootedBefore(log, server, |log|) {
      var r :| 0 <= r < |log| && RebootedAt(log, server, r);
      assert RebootedAt(log + more, server, r);
    }
  }

  predicate NoDiskEffect(effects: seq<Effect>) { forall e | e in effects :: !DiskEffect(e) }

  lemma InstalledAtStays(c: Setting, r: Record, log: seq<Effect>, more: seq<Effect>, report: string, i: nat)
    requires NoDiskEffect(more) && InstalledAt(c, r, log, report, i)
    ensures InstalledAt(c, r, log + more, report, i)
  {
    hide FullInstall, WrittenFrom;
    var now := log + more;
    assert now[i..i + 3] == log[i..i + 3];
    assert RebootedBefore(now, c.server, i) by {
      var b :| 0 <= b < i && RebootedAt(log, c.server, b);
      assert RebootedAt(now, c.server, b);
    }
    forall j | i + 3 <= j < |now| ensures !DiskEffect(now[j]) {
      assert j >= |log| ==> now[j] in more;
    }
  }

  lemma InstalledStays(c: Setting, r: Record, log: seq<Effect>, more: seq<Effect>)
    requires NoDiskEffect(more)
    ensures Installed(c, r, log) ==> Installed(c, r, log + more)
    ensures Configured(c, r, log) ==> Configured(c, r, log + more)
  {
    hide InstalledAt;
    if Installed(c, r, log) {
      var report: string, i: nat :| InstalledAt(c, r, log, report, i);
      InstalledAtStays(c, r, log, more, report, i);
    }
    if Configured(c, r, log) {
      var report: string, i: nat, j: nat :|
        InstalledAt(c, r, log, report, i) && i + 3 <= j && ConfiguredAt(log, c.server, j);
      InstalledAtStays(c, r, log, more, report, i);
      assert ConfiguredAt(log + more, c.server, j);
    }
  }

  // More reports do no harm.
  lemma ReportsMore(c: Setting, more: set<string>, s: State, log: seq<Effect>)
    requires Inv(c, s, log) && c.reports <= more
    ensures Inv(c.(reports := more), s, log)
  {
    hide InstalledAt, RebootedBefore, StatusOk;
    var r, c' := RecordOf(s), c.(reports := more);
    if Installed(c, r, log) {
      var report: string, i: nat :| InstalledAt(c, r, log, report, i);
      InstalledAtMore(c, more, r, log, report, i);
    }
    if Configured(c, r, log) {
      var report: string, i: nat, j: nat :|
        InstalledAt(c, r, log, report, i) && i + 3 <= j && ConfiguredAt(log, c.server, j);
      InstalledAtMore(c, more, r, log, report, i);
    }
  }

  lemma InstalledAtMore(c: Setting, more: set<string>, r: Record, log: seq<Effect>, report: string, i: nat)
    requires InstalledAt(c, r, log, report, i) && c.reports <= more
    ensures InstalledAt(c.(reports := more), r, log, report, i)
  {
    hide FullInstall, WrittenFrom, RebootedBefore;
  }

  // Effects that fit the stage leave it grounded, however far the reconcile got.
  lemma GroundedStays(c: Setting, stage: ProvisioningState, r: Record, log: seq<Effect>, more: seq<Effect>)
    requires Grounded(c, stage, r, log)
    requires NoDiskEffect(more) || stage == ActivatingRescue || stage == InRescue
    ensures Grounded(c, stage, r, log + more)
  {
    hide Installed, Configured, RebootedBefore;
    RebootedStays(log, more, c.server);
    if NoDiskEffect(more) {
      InstalledStays(c, r, log, more);
    }
  }

  lemma ActivateInv(c: Setting, s: State, env: Env, log: seq<Effect>)
    requires Inv(c, s, log) && MayBecomeDestructive(s.stage) && !s.deleting
    ensures var o := ActivateRescue(s, env, c.server); Inv(c, o.s, log + o.effects)
  {
    hide Installed, Configured;
    var o := ActivateRescue(s, env, c.server);
    GroundedStays(c, s.stage, RecordOf(s), log, o.effects);
    if o.s != s {
      var now := log + o.effects;
      assert now[|log|] == Activate(c.server, true) && now[|log| + 1] == Reset(c.server, env.now, true);
      assert RebootedAt(now, c.server, |log| + 1);
    }
    hide Grounded;
  }

  lemma InstalledByShape(c: Setting, r: Record, log: seq<Effect>, effects: seq<Effect>, report: string)
    requires RebootedBefore(log, c.server, |log|) && FullInstall(effects, c.server)
    requires report in c.reports && WrittenFrom(report, c.spec, effects[1], effects[2], r)
    ensures Installed(c, r, log + effects)
  {
    hide FullInstall, WrittenFrom;
    var now := log + effects;
    assert |effects| == 3 by { FullIsThree(effects, c.server); }
    assert now[|log|..|log| + 3] == effects && now[|log| + 1] == effects[1] && now[|log| + 2] == effects[2];
    var b :| 0 <= b < |log| && RebootedAt(log, c.server, b);
    assert RebootedAt(now, c.server, b);
    assert InstalledAt(c, r, now, report, |log|);
  }

  lemma FullIsThree(effects: seq<Effect>, server: int)
    requires FullInstall(effects, server)
    ensures |effects| == 3
  {
  }

  lemma InstallInv(c: Setting, s: State, env: Env, log: seq<Effect>)
    requires Inv(c, s, log) && s.stage == InRescue && !s.deleting && env.hardware in c.reports
    ensures var o := InstallOS(s, env, c.spec, c.server); Inv(c, o.s, log + o.effects)
  {
    hide Install, ActivateRescue, Installed, Configured, RebootedBefore, FullInstall, WrittenFrom;
    ActivateInv(c, s, env, log);
    InstallShape(s, env, c.spec, c.server);
    var o := Install(s, env, c.spec, c.server);
    GroundedStays(c, s.stage, RecordOf(s), log, o.effects);
    if o.fault.None? {
      FullIsThree(o.effects, c.server);
      InstallWrites(s, env, c.spec, c.server);
      InstalledByShape(c, RecordOf(o.s), log, o.effects, env.hardware);
    }
    assert log + [] == log;
  }

  lemma CheckInv(c: Setting, s: State, env: Env, log: seq<Effect>)
    requires Inv(c, s, log) && s.stage == ActivatingRescue && !s.deleting
    ensures var o := CheckRescueActive(s, env, c.server); Inv(c, o.s, log + o.effects)
  {
    hide ActivateRescue, Installed, Configured, RebootedBefore;
    var wipe := [SystemDiskWipe(c.server, env.systemWipe)];
    ActivateInv(c, s, env, log);
    GroundedStays(c, s.stage, RecordOf(s), log, wipe);
    ActivateInv(c, s, env, log + wipe);
    GroundedStays(c, s.stage, RecordOf(s), log, [RescueVerified(c.server)]);
    assert log + [] == log;
    assert log + (wipe + ActivateRescue(s, env, c.server).effects) == log + wipe + ActivateRescue(s, env, c.server).effects;
  }

  lemma ApplyInv(c: Setting, s: State, env: Env, log: seq<Effect>)
    requires Inv(c, s, log) && s.stage == ApplyingConfig && !s.deleting
    ensures var o := ApplyConfig(s, env, c.server); Inv(c, o.s, log + o.effects)
  {
    hide FullInstall, WrittenFrom, RebootedBefore, NotDetected;
    var o := ApplyConfig(s, env, c.server);
    assert NoDiskEffect(o.effects);
    GroundedStays(c, s.stage, RecordOf(s), log, o.effects);
    if o.s != s {
      var now := log + o.effects;
      var r := RecordOf(s);
      var report: string, i: nat :| InstalledAt(c, r, log, report, i);
      InstalledAtStays(c, r, log, o.effects, report, i);
      assert ConfiguredAt(now, c.server, |log|);
    }
    assert log + [] == log;
  }

  lemma HandleInv(c: Setting, s: State, env: Env, log: seq<Effect>)
    requires Inv(c, s, log) && !s.deleting && env.hardware in c.reports
    ensures var o := Handle(s, env, c.spec, c.server); Inv(c, o.s, log + o.effects)
  {
    hide ActivateRescue, CheckRescueActive, InstallOS, ApplyConfig, Installed, Configured, RebootedBefore;
    match s.stage {
      case StateNone => ActivateInv(c, s, env, log);
      case ActivatingRescue => CheckInv(c, s, env, log);
      case InRescue => InstallInv(c, s, env, log);
      case Installing => ActivateInv(c, s, env, log);
      case ApplyingConfig => ApplyInv(c, s, env, log);
      case _ =>
    }
    assert log + [] == log;
  }

  lemma NormalInv(c: Setting, s: State, env: Env, log: seq<Effect>)
    requires Inv(c, s, log) && !s.deleting && env.hardware in c.reports
    requires env.host.Found? ==> env.host.host.serverID == c.server
    ensures var o := Normal(s, env, c.spec); Inv(c, o.s, log + o.effects)
  {
    hide Handle, Grounded;
    HandleInv(c, s, env, log);
    assert log + [] == log;
  }

  lemma ConcludedInv(c: Setting, o: Outcome, now: int, log: seq<Effect>)
    requires Inv(c, o.s, log)
    ensures Inv(c, Concluded(o, now), log)
  {
    hide Installed, Configured, RebootedBefore;
  }

  lemma DeleteInv(c: Setting, s: State, env: Env, log: seq<Effect>)
    requires StatusOk(c.spec, c.server, s) && s.deleting
    ensures var o := Delete(s, env); Inv(c, o.s, log + o.effects)
  {
    hide GateOpen;
  }

  lemma ReconciledInv(c: Setting, s: State, env: Env, log: seq<Effect>)
    requires Inv(c, s, log) && env.hardware in c.reports
    requires env.host.Found? ==> env.host.host.serverID == c.server
    ensures var r := Reconciled(s, env, c.spec); Inv(c, r.0, log + r.1)
  {
    hide Delete, Normal, Concluded, Installed, Configured, RebootedBefore;
    assert log + [] == log;
    if s.deleting {
      DeleteInv(c, s, env, log);
    } else {
      var s1 := Started(s, env.now);
      NormalInv(c, s1, env, log);
      var o := Normal(s1, env, c.spec);
      ConcludedInv(c, o, env.now, log + o.effects);
    }
  }

  lemma UnsavedInv(c: Setting, s: State, env: Env, log: seq<Effect>, done: nat)
    requires Inv(c, s, log)
    ensures var es := Reconciled(s, env, c.spec).1; Inv(c, s, log + es[..Min(done, |es|)])
  {
    var es := Reconciled(s, env, c.spec).1;
    var part := es[..Min(done, |es|)];
    NormalFits(Started(s, env.now), env, c.spec);
    assert (forall e | e in es :: !DiskEffect(e)) || s.stage == ActivatingRescue || s.stage == InRescue by {
      hide Normal, Inv;
    }
    hide Reconciled;
    GroundedStays(c, s.stage, RecordOf(s), log, part);
  }

  // The hardware reports of the first n events.
  function Reports(events: seq<Event>, n: nat): set<string>
    requires n <= |events|
  {
    set t | 0 <= t < n && events[t].Attempt? :: events[t].env.hardware
  }

  lemma {:induction false} RunInv(spec: Spec, server: int, trace: seq<World>, events: seq<Event>, n: nat)
    requires Run(spec, server, trace, events) && n < |trace|
    ensures Inv(Setting(spec, server, Reports(events, n)), trace[n].s, trace[n].log)
  {
    if n > 0 {
      RunInv(spec, server, trace, events, n - 1);
      var w, e := trace[n - 1], events[n - 1];
      assert Enabled(server, w, e) && trace[n] == Next(spec, w, e);
      var c := Setting(spec, server, Reports(events, n));
      hide Reconciled, Grounded;
      ReportsMore(Setting(spec, server, Reports(events, n - 1)), c.reports, w.s, w.log);
      match e {
        case RequestDelete =>
        case Attempt(env, fate) =>
          assert env.hardware in c.reports;
          ReconciledInv(c, w.s, env, w.log);
          if fate.Unsaved? {
            UnsavedInv(c, w.s, env, w.log, fate.done);
          }
      }
    }
  }

  // Whatever a run went through, a machine stored as provisioned was taken through the rescue
  // system, wiped and written on one server, in this order and with nothing on the disks since,
  // then (Talos) given its configuration. The disks wiped, the disk written, and the disk, MAC and
  // gateway in its status are those of a report one reconcile of the run got; and its provider ID
  // names that server.
  lemma ProvenanceOfProvisioned(spec: Spec, server: int, trace: seq<World>, events: seq<Event>, n: nat)
    requires Run(spec, server, trace, events) && n < |trace| && trace[n].s.stage == Provisioned
    ensures var log, c := trace[n].log, Setting(spec, server, Reports(events, n));
            exists report: string, i: nat ::
              && InstalledAt(c, RecordOf(trace[n].s), log, report, i)
              && (!spec.flatcar ==>
                    exists j: nat | i + 3 <= j < |log| :: log[j] == ConfigApplied(server, ProviderIds.Print(server), true))
    ensures trace[n].s.providerID == Some(ProviderIds.Print(server))
    ensures 1 <= server <= ProviderIds.MAX_INT ==> ProviderIds.ServerID(trace[n].s.providerID) == Some(server)
  {
    RunInv(spec, server, trace, events, n);
    ProviderIds.RoundTrip(server);
    var log, c, r := trace[n].log, Setting(spec, server, Reports(events, n)), RecordOf(trace[n].s);
    hide InstalledAt, Run, Reports;
    if spec.flatcar {
      assert Installed(c, r, log);
    } else {
      var report: string, i: nat, j: nat :|
        InstalledAt(c, r, log, report, i) && i + 3 <= j && ConfiguredAt(log, server, j);
    }
  }

  // The "not detected" exits of stateApplyConfig are never taken.
  lemma AlwaysDetected(spec: Spec, server: int, trace: seq<World>, events: seq<Event>, n: nat, env: Env)
    requires Run(spec, server, trace, events) && n < |trace| && trace[n].s.stage == ApplyingConfig
    ensures !NotDetected(trace[n].s, env)
  {
    RunInv(spec, server, trace, events, n);
    hide Grounded, Run;
  }

  // Until it is deleted, a machine is ready exactly in the stage Provisioned.
  lemma ReadyExactly(spec: Spec, server: int, trace: seq<World>, events: seq<Event>, n: nat)
    requires Run(spec, server, trace, events) && n < |trace|
    ensures trace[n].s.stage != Deleting ==> (trace[n].s.ready <==> trace[n].s.stage == Provisioned)
    ensures trace[n].s.stage == Deleting ==> trace[n].s.deleting
  {
    RunInv(spec, server, trace, events, n);
    hide Grounded, Run;
  }

  // ---- Runs, step by step ----

  // In every run a stage is entered only from a stored reconcile that got to its handler and
  // observed what the step waits for.
  lemma EnteredWhenAwaited(spec: Spec, server: int, trace: seq<World>, events: seq<Event>, i: nat)
    requires Run(spec, server, trace, events) && i < |events|
    requires trace[i + 1].s.stage != trace[i].s.stage && Waits(trace[i + 1].s.stage)
    ensures events[i].Attempt? && events[i].fate.Saved?
    ensures Reaches(trace[i].s, events[i].env) && Awaited(trace[i].s, events[i].env, spec, trace[i + 1].s.stage)
  {
    var w, e := trace[i], events[i];
    assert trace[i + 1] == Next(spec, w, e);
    hide Run, Reconciled, Reaches, Awaited;
    if e.Attempt? && e.fate.Saved? {
      MovesExactly(w.s, e.env, spec, trace[i + 1].s.stage);
    }
  }

  // At i the log holds a release of a host with a server, right after the activation and the
  // reset of that server, by a delete of the run that was allowed to.
  predicate ReleasedAt(trace: seq<World>, events: seq<Event>, log: seq<Effect>, i: nat, t: nat)
    requires |trace| == |events| + 1 && i < |log|
  {
    && t < |events| && events[t].Attempt? && trace[t].s.deleting && MayRelease(events[t].env)
    && log[i].server == events[t].env.deleteHost.value.serverID
    && (log[i].server != 0 ==>
          i >= 2 && log[i - 2].Activate? && log[i - 1].Reset? && log[i - 2].server == log[i - 1].server == log[i].server)
  }

  // In every run each release of a host is such a one.
  lemma {:induction false} ReleasesInRuns(
    spec: Spec, server: int, trace: seq<World>, events: seq<Event>, n: nat, i: nat)
    returns (t: nat)
    requires Run(spec, server, trace, events) && n < |trace| && i < |trace[n].log| && trace[n].log[i].Released?
    ensures |trace| == |events| + 1 && t < n && ReleasedAt(trace, events, trace[n].log, i, t)
  {
    var w, e := trace[n - 1], events[n - 1];
    assert trace[n] == Next(spec, w, e);
    if i < |w.log| {
      LogKept(spec, w, e, i);
      hide Next, Run, Enabled, MayRelease;
      t := ReleasesInRuns(spec, server, trace, events, n - 1, i);
    } else {
      hide Run, Enabled;
      ReleaseAdded(spec, w, e, i);
      hide Next, MayRelease;
      t := n - 1;
    }
  }

  lemma LogKept(spec: Spec, w: World, e: Event, i: nat)
    requires i < |w.log|
    ensures |w.log| <= |Next(spec, w, e).log| && forall j | 0 <= j <= i :: Next(spec, w, e).log[j] == w.log[j]
  {
    hide Reconciled;
  }

  lemma ReleaseAdded(spec: Spec, w: World, e: Event, i: nat)
    requires |w.log| <= i < |Next(spec, w, e).log| && Next(spec, w, e).log[i].Released?
    ensures e.Attempt? && w.s.deleting && MayRelease(e.env)
    ensures var log := Next(spec, w, e).log;
            && log[i].server == e.env.deleteHost.value.serverID
            && (log[i].server != 0 ==>
                  i >= 2 && log[i - 2].Activate? && log[i - 1].Reset? && log[i - 2].server == log[i - 1].server == log[i].server)
  {
    ReleasesRightly(w.s, e.env, spec);
    hide Reconciled, MayRelease;
    var es, k := Reconciled(w.s, e.env, spec).1, i - |w.log|;
    assert Next(spec, w, e).log[i] == es[k] && ReleasedRightly(w.s, e.env, es, k);
  }
}
