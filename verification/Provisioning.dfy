// One reconcile of a HetznerRobotMachine: controllers/hetznerrobotmachine_controller.go,
// hetznerrobotmachine_states.go and hetznerrobotmachine_flatcar.go.
//
// What a reconcile finds out about the world is one Env; what it does to the server is a list
// of effects. The functions say what one reconcile does; the class does it step by step.
module Provisioning {
  import opened Common
  import opened Api
  import opened Policy
  import Backoff
  import Hardware
  import ProviderIds

  const COOLDOWN := 120
  const TIMEOUT := 1800

  // An error; isPermanentError decides the flag from the message.
  datatype Fault = Fault(permanent: bool)

  // None: the call succeeded.
  type Call = Option<Fault>

  // Time is in seconds.
  datatype State = State(
    stage: ProvisioningState,
    retryCount: int,
    lastRetry: Option<int>,
    started: Option<int>,
    lastReset: Option<int>,
    failureReason: Option<string>,
    ready: bool,
    primaryMAC: string,
    gatewayIP: string,
    resolvedDisk: string,
    providerID: Option<string>,
    finalizer: bool,
    deleting: bool)

  // What of the spec matters here. It does not change.
  datatype Spec = Spec(flatcar: bool, installDisk: string)

  datatype Effect =
    | RescueVerified(server: int)
    | Activate(server: int, ok: bool)
    | Reset(server: int, at: int, ok: bool)
    | SystemDiskWipe(server: int, ok: bool)
    | DisksWiped(server: int, disks: seq<string>, ok: bool)
    | ImageWritten(server: int, disk: string, ok: bool)
    | ConfigApplied(server: int, providerID: string, ok: bool)
    | Released(server: int, ok: bool)

  datatype Resolved = Found(host: Host) | Missing(fault: Fault)

  datatype Env = Env(
    now: int,
    // resolveHost, resolveHostForDelete, and the inputs of the destructive-action gate
    host: Resolved,
    deleteHost: Option<Host>,
    capi: CapiMachine,
    releases: Option<seq<HostRelease>>,
    drainPending: bool,
    // the Robot API
    robotClient: Call,
    fingerprint: Call,
    activate: Call,
    reset: Call,
    rescueStatusKnown: bool,
    // SSH
    sshOpen: bool,
    privateKey: Call,
    publicKey: Call,
    connect: Call,
    rescueShell: bool,
    rescueMode: Option<bool>,
    detect: Call,
    hardware: string,
    wipeOutput: Result<string>,
    wipeFault: Fault,
    image: Call,
    // Talos
    talosUp: bool,
    maintenanceMode: bool,
    systemWipe: bool,
    endpoint: Call,
    // bootstrap data and configuration
    bootstrapReady: bool,
    diskInjection: Call,
    vlan: bool,
    internalIP: string,
    injections: Call,
    applyConfig: Call,
    ignition: Call,
    // Flatcar
    flatcarUp: bool,
    bootstrapDone: Option<bool>,
    releaseHost: Call)

  datatype Outcome = Outcome(s: State, effects: seq<Effect>, fault: Call)

  function Quiet(s: State): Outcome { Outcome(s, [], None) }

  const TRANSIENT := Fault(false)

  // ---- The handlers ----

  // Without the list of releases only the compute rule can succeed.
  predicate GateOpen(env: Env, h: Host) {
    MayDestroy(h, env.capi, if env.releases.Some? then env.releases.value else [], env.now)
  }

  function ActivateRescue(s: State, env: Env, server: int): Outcome {
    if s.lastReset.Some? && env.now - s.lastReset.value < COOLDOWN then Quiet(s)
    else if env.fingerprint.Some? then Outcome(s, [], env.fingerprint)
    else if env.activate.Some? then Outcome(s, [Activate(server, false)], env.activate)
    else if env.reset.Some? then
      Outcome(s, [Activate(server, true), Reset(server, env.now, false)], env.reset)
    else
      Outcome(s.(lastReset := Some(env.now), stage := ActivatingRescue),
              [Activate(server, true), Reset(server, env.now, true)], None)
  }

  function CheckRescueActive(s: State, env: Env, server: int): Outcome {
    if env.sshOpen && env.privateKey.None? && env.connect.None? then
      if env.rescueShell then Outcome(s.(stage := InRescue), [RescueVerified(server)], None)
      else ActivateRescue(s, env, server)
    else if env.rescueStatusKnown && env.talosUp then
      var next := ActivateRescue(s, env, server);
      next.(effects := [SystemDiskWipe(server, env.systemWipe)] + next.effects)
    else Quiet(s)
  }

  function WipeConfirmed(env: Env, hw: Hardware.HardwareInfo): bool {
    env.wipeOutput.Ok? && forall d | d in hw.disks :: Hardware.Confirmed(env.wipeOutput.value, d)
  }

  function StableDisk(hw: Hardware.HardwareInfo, disk: string): string {
    if disk in hw.byID then hw.byID[disk] else disk
  }

  function ConfiguredDisk(spec: Spec): string {
    if spec.installDisk == "" then "/dev/nvme0n1" else spec.installDisk
  }

  // From the verified rescue system on: detect, choose, wipe, write.
  function Install(s: State, env: Env, spec: Spec, server: int): Outcome {
    var verified := [RescueVerified(server)];
    var parsed := Hardware.Parse(env.hardware);
    if env.connect.Some? then Outcome(s, verified, env.connect)
    else if env.detect.Some? then Outcome(s, verified, env.detect)
    else if parsed.Err? then Outcome(s, verified, Some(TRANSIENT))
    else
      var hw := parsed.value;
      var s1 := s.(primaryMAC := hw.primaryMAC, gatewayIP := hw.gatewayIP);
      var disk := Hardware.Resolve(hw, ConfiguredDisk(spec));
      if disk.Err? then Outcome(s1, verified, Some(TRANSIENT))
      else
        var s2 := s1.(resolvedDisk := StableDisk(hw, disk.value));
        if hw.disks == [] then Outcome(s2, verified, Some(TRANSIENT))
        else WipeAndWrite(s2, env, spec, server, hw.disks, WipeConfirmed(env, hw), disk.value)
  }

  function WipeAndWrite(
    s: State, env: Env, spec: Spec, server: int, disks: seq<string>, confirmed: bool, disk: string): Outcome
  {
    var verified := [RescueVerified(server)];
    if !confirmed then Outcome(s, verified + [DisksWiped(server, disks, false)], Some(env.wipeFault))
    else
      var wiped := verified + [DisksWiped(server, disks, true)];
      if spec.flatcar && env.ignition.Some? then Outcome(s, wiped, env.ignition)
      else if env.image.Some? then
        Outcome(s, wiped + [ImageWritten(server, disk, false)], env.image)
      else
        var s1 := if spec.flatcar then s.(providerID := Some(ProviderIds.Print(server))) else s;
        Outcome(s1.(stage := Installing), wiped + [ImageWritten(server, disk, true)], None)
  }

  function VerifyAndInstall(s: State, env: Env, spec: Spec, server: int): Outcome {
    if !env.sshOpen then Quiet(s.(stage := StateNone))
    else if env.privateKey.Some? then Outcome(s, [], env.privateKey)
    else match env.rescueMode
      case None => Quiet(s)
      case Some(false) => ActivateRescue(s, env, server)
      case Some(true) => Install(s, env, spec, server)
  }

  function InstallOS(s: State, env: Env, spec: Spec, server: int): Outcome {
    if spec.flatcar && !env.bootstrapReady then Quiet(s)
    else if spec.flatcar && env.publicKey.Some? then Outcome(s, [], env.publicKey)
    else VerifyAndInstall(s, env, spec, server)
  }

  function WaitInstall(s: State, env: Env, server: int): Outcome {
    if env.maintenanceMode then Quiet(s.(stage := BootingTalos))
    else if env.talosUp then ActivateRescue(s, env, server)
    else Quiet(s)
  }

  function WaitTalosMaintenanceMode(s: State, env: Env): Outcome {
    if !env.maintenanceMode then Quiet(s)
    else if env.endpoint.Some? then Outcome(s, [], env.endpoint)
    else Quiet(s.(stage := ApplyingConfig))
  }

  // The two "not detected" exits of stateApplyConfig.
  predicate NotDetected(s: State, env: Env) {
    s.primaryMAC == "" || (env.vlan && env.internalIP != "" && s.gatewayIP == "")
  }

  function ApplyConfig(s: State, env: Env, server: int): Outcome {
    if !env.bootstrapReady then Quiet(s)
    else if env.diskInjection.Some? then Outcome(s, [], env.diskInjection)
    else if NotDetected(s, env) || (env.vlan && env.internalIP == "") then Outcome(s, [], Some(TRANSIENT))
    else if env.injections.Some? then Outcome(s, [], env.injections)
    else
      var pid := ProviderIds.Print(server);
      if env.applyConfig.Some? then Outcome(s, [ConfigApplied(server, pid, false)], env.applyConfig)
      else
        Outcome(s.(providerID := Some(pid), stage := WaitingForBoot), [ConfigApplied(server, pid, true)], None)
  }

  function WaitForBoot(s: State, env: Env): Outcome {
    if env.talosUp then Quiet(s.(stage := Provisioned, ready := true)) else Quiet(s)
  }

  function WaitFlatcarInstall(s: State, env: Env): Outcome {
    if env.privateKey.Some? then Outcome(s, [], env.privateKey)
    else if env.flatcarUp then Quiet(s.(stage := BootingFlatcar))
    else Quiet(s)
  }

  function WaitFlatcarBoot(s: State, env: Env): Outcome {
    if env.privateKey.Some? then Outcome(s, [], env.privateKey)
    else if env.bootstrapDone == Some(true) then Quiet(s.(stage := Provisioned, ready := true))
    else Quiet(s)
  }

  function Handle(s: State, env: Env, spec: Spec, server: int): Outcome {
    match s.stage
    case StateNone => ActivateRescue(s, env, server)
    case ActivatingRescue => CheckRescueActive(s, env, server)
    case InRescue => InstallOS(s, env, spec, server)
    case Installing => if spec.flatcar then WaitFlatcarInstall(s, env) else WaitInstall(s, env, server)
    case BootingTalos => WaitTalosMaintenanceMode(s, env)
    case ApplyingConfig => ApplyConfig(s, env, server)
    case WaitingForBoot => WaitForBoot(s, env)
    case BootingFlatcar => WaitFlatcarBoot(s, env)
    case _ => Quiet(s)
  }

  // ---- reconcileNormal, reconcileDelete and Reconcile ----

  function Normal(s: State, env: Env, spec: Spec): Outcome {
    if s.stage == Provisioned then Quiet(s.(ready := true))
    else match env.host
      case Missing(f) => Outcome(s, [], Some(f))
      case Found(h) =>
        if MayBecomeDestructive(s.stage) && !GateOpen(env, h) then Quiet(s)
        else if env.robotClient.Some? then Outcome(s, [], env.robotClient)
        else Handle(s, env, spec, h.serverID)
  }

  function Delete(s: State, env: Env): Outcome {
    var s1 := s.(stage := Deleting);
    var gone := s1.(finalizer := false);
    if env.drainPending then Quiet(s1)
    else if env.robotClient.Some? || env.deleteHost.None? then Quiet(gone)
    else
      var h := env.deleteHost.value;
      var released := [Released(h.serverID, env.releaseHost.None?)];
      if h.serverID == 0 then Outcome(gone, released, None)
      else if !GateOpen(env, h) then Quiet(gone)
      else
        Outcome(gone,
                [Activate(h.serverID, env.activate.None?), Reset(h.serverID, env.now, env.reset.None?)] + released,
                None)
  }

  predicate Active(stage: ProvisioningState) {
    stage != Provisioned && stage != StateError && stage != Deleting
  }

  predicate TimedOut(s: State, now: int) {
    Active(s.stage) && s.started.Some? && now - s.started.value > TIMEOUT
  }

  predicate BackingOff(s: State, now: int) {
    s.retryCount > 0 && s.lastRetry.Some? && now - s.lastRetry.value < Backoff.Delay(s.retryCount)
  }

  function Failed(s: State, reason: string): State {
    s.(failureReason := Some(reason), stage := StateError, ready := false)
  }

  function Started(s: State, now: int): State {
    if Active(s.stage) && s.started.None? then s.(started := Some(now)) else s
  }

  // What becomes of the outcome of reconcileNormal.
  function Concluded(o: Outcome, now: int): State {
    match o.fault
    case None => o.s.(retryCount := 0, failureReason := None, lastRetry := None)
    case Some(f) =>
      if f.permanent then Failed(o.s, "PermanentError")
      else o.s.(retryCount := o.s.retryCount + 1, lastRetry := Some(now))
  }

  // The new state and the effects of one reconcile.
  function Reconciled(s: State, env: Env, spec: Spec): (State, seq<Effect>) {
    if s.deleting then
      var o := Delete(s, env);
      (o.s, o.effects)
    else if !s.finalizer then (s.(finalizer := true), [])
    else if TimedOut(s, env.now) then (Failed(s, "ProvisionTimeout"), [])
    else
      var s1 := Started(s, env.now);
      if BackingOff(s1, env.now) then (s1, [])
      else
        var o := Normal(s1, env, spec);
        (Concluded(o, env.now), o.effects)
  }

  // ---- The controller ----

  class RobotMachine {
    const flatcar: bool
    const installDisk: string
    var stage: ProvisioningState
    var retryCount: int
    var lastRetry: Option<int>
    var started: Option<int>
    var lastReset: Option<int>
    var failureReason: Option<string>
    var ready: bool
    var primaryMAC: string
    var gatewayIP: string
    var resolvedDisk: string
    var providerID: Option<string>
    var finalizer: bool
    var deleting: bool
    // what has been done to the server so far
    ghost var log: seq<Effect>

    constructor (flatcar: bool, installDisk: string)
      ensures Value() == State(StateNone, 0, None, None, None, None, false, "", "", "", None, false, false)
      ensures TheSpec() == Spec(flatcar, installDisk) && log == []
    {
      this.flatcar, this.installDisk := flatcar, installDisk;
      stage, retryCount, lastRetry, started, lastReset := StateNone, 0, None, None, None;
      failureReason, ready, primaryMAC, gatewayIP, resolvedDisk := None, false, "", "", "";
      providerID, finalizer, deleting, log := None, false, false, [];
    }

    function Value(): State
      reads this
    {
      State(stage, retryCount, lastRetry, started, lastReset, failureReason, ready, primaryMAC,
            gatewayIP, resolvedDisk, providerID, finalizer, deleting)
    }

    function TheSpec(): Spec { Spec(flatcar, installDisk) }

    // The outcome of a handler, relative to where it began.
    twostate predicate Did(o: Outcome, new fault: Call)
      reads this
    {
      Value() == o.s && log == old(log) + o.effects && fault == o.fault
    }

    method StateActivateRescue(env: Env, server: int) returns (fault: Call)
      modifies this
      ensures Did(ActivateRescue(old(Value()), env, server), fault)
    {
      if lastReset.Some? {
        var elapsed := env.now - lastReset.value;
        if elapsed < COOLDOWN {
          return None;
        }
      }
      if env.fingerprint.Some? {
        return env.fingerprint;
      }
      log := log + [Activate(server, env.activate.None?)];
      if env.activate.Some? {
        return env.activate;
      }
      log := log + [Reset(server, env.now, env.reset.None?)];
      if env.reset.Some? {
        return env.reset;
      }
      lastReset := Some(env.now);
      stage := ActivatingRescue;
      return None;
    }

    method StateCheckRescueActive(env: Env, server: int) returns (fault: Call)
      modifies this
      ensures Did(CheckRescueActive(old(Value()), env, server), fault)
    {
      if env.sshOpen {
        if env.privateKey.None? {
          if env.connect.None? {
            if env.rescueShell {
              log := log + [RescueVerified(server)];
              stage := InRescue;
              return None;
            }
            fault := StateActivateRescue(env, server);
            return;
          }
        }
      }
      if !env.rescueStatusKnown {
        return None;
      }
      // Rescue armed or consumed: either way Talos on the disk has to go first.
      if env.talosUp {
        log := log + [SystemDiskWipe(server, env.systemWipe)];
        fault := StateActivateRescue(env, server);
        return;
      }
      return None;
    }

    // Logging in to the rescue system and reading the hardware report.
    method ReadReport(env: Env, server: int) returns (fault: Call, hw: Hardware.HardwareInfo)
      modifies this`log
      ensures log == old(log) + [RescueVerified(server)]
      ensures fault.Some? ==> Did(Install(old(Value()), env, TheSpec(), server), fault)
      ensures fault.None? ==> env.connect.None? && env.detect.None? && Hardware.Parse(env.hardware) == Ok(hw)
    {
      hide Hardware.Parse, Hardware.Resolve, WipeConfirmed, WipeAndWrite, StableDisk, ConfiguredDisk;
      hw := Hardware.NOTHING;
      log := log + [RescueVerified(server)];
      if env.connect.Some? {
        return env.connect, hw;
      }
      if env.detect.Some? {
        return env.detect, hw;
      }
      var parsed := Hardware.ParseHardwareOutput(env.hardware);
      if parsed.Err? {
        return Some(TRANSIENT), hw;
      }
      return None, parsed.value;
    }

    // The common part of stateInstallTalos and stateInstallFlatcar, in two halves.
    method DetectHardware(env: Env, server: int) returns (fault: Call, hw: Hardware.HardwareInfo, installDisk: string)
      modifies this
      ensures fault.Some? ==> Did(Install(old(Value()), env, TheSpec(), server), fault)
      ensures fault.None? ==>
                && env.connect.None? && env.detect.None? && Hardware.Parse(env.hardware) == Ok(hw)
                && Hardware.Resolve(hw, ConfiguredDisk(TheSpec())) == Ok(installDisk)
                && hw.disks != []
                && Value() == old(Value()).(primaryMAC := hw.primaryMAC, gatewayIP := hw.gatewayIP,
                                            resolvedDisk := StableDisk(hw, installDisk))
                && log == old(log) + [RescueVerified(server)]
    {
      hide Hardware.Parse, Hardware.Resolve, WipeConfirmed, WipeAndWrite;
      installDisk := "";
      fault, hw := ReadReport(env, server);
      if fault.Some? {
        return;
      }
      primaryMAC := hw.primaryMAC;
      gatewayIP := hw.gatewayIP;
      var configured := this.installDisk;
      if configured == "" {
        configured := "/dev/nvme0n1";
      }
      var resolved := Hardware.ResolveInstallDisk(hw, configured);
      if resolved.Err? {
        fault := Some(TRANSIENT);
        return;
      }
      installDisk := resolved.value;
      var stable := installDisk;
      if installDisk in hw.byID {
        stable := hw.byID[installDisk];
      }
      resolvedDisk := stable;
      assert resolvedDisk == StableDisk(hw, installDisk);
      hide StableDisk, ConfiguredDisk;
      if |hw.disks| == 0 {
        fault := Some(TRANSIENT);
        return;
      }
      fault := None;
    }

    method PrepareDisks(env: Env, server: int) returns (fault: Call, hw: Hardware.HardwareInfo, installDisk: string)
      modifies this
      ensures fault.Some? ==> Did(Install(old(Value()), env, TheSpec(), server), fault)
      ensures fault.None? ==>
                && env.connect.None? && env.detect.None? && Hardware.Parse(env.hardware) == Ok(hw)
                && Hardware.Resolve(hw, ConfiguredDisk(TheSpec())) == Ok(installDisk)
                && hw.disks != [] && WipeConfirmed(env, hw)
                && Value() == old(Value()).(primaryMAC := hw.primaryMAC, gatewayIP := hw.gatewayIP,
                                            resolvedDisk := StableDisk(hw, installDisk))
                && log == old(log) + [RescueVerified(server), DisksWiped(server, hw.disks, true)]
    {
      hide Hardware.Parse, Hardware.Resolve, Hardware.Confirmed;
      fault, hw, installDisk := DetectHardware(env, server);
      if fault.Some? {
        return;
      }
      var wiped := Hardware.WipeAllDisks(hw.disks, env.wipeOutput);
      log := log + [DisksWiped(server, hw.disks, wiped.Ok?)];
      if wiped.Err? {
        fault := Some(env.wipeFault);
      }
    }

    method StateInstallTalos(env: Env, server: int) returns (fault: Call)
      requires !flatcar
      modifies this
      ensures Did(InstallOS(old(Value()), env, TheSpec(), server), fault)
    {
      hide Hardware.Parse, Hardware.Resolve;
      if !env.sshOpen {
        stage := StateNone;
        return None;
      }
      if env.privateKey.Some? {
        return env.privateKey;
      }
      if env.rescueMode.None? {
        return None;
      }
      if !env.rescueMode.value {
        fault := StateActivateRescue(env, server);
        return;
      }
      var hw, disk;
      fault, hw, disk := PrepareDisks(env, server);
      if fault.Some? {
        return;
      }
      log := log + [ImageWritten(server, disk, env.image.None?)];
      if env.image.Some? {
        return env.image;
      }
      stage := Installing;
      return None;
    }

    method StateInstallFlatcar(env: Env, server: int) returns (fault: Call)
      requires flatcar
      modifies this
      ensures Did(InstallOS(old(Value()), env, TheSpec(), server), fault)
    {
      hide Hardware.Parse, Hardware.Resolve;
      if !env.bootstrapReady {
        return None;
      }
      if env.publicKey.Some? {
        return env.publicKey;
      }
      if !env.sshOpen {
        stage := StateNone;
        return None;
      }
      if env.privateKey.Some? {
        return env.privateKey;
      }
      if env.rescueMode.None? {
        return None;
      }
      if !env.rescueMode.value {
        fault := StateActivateRescue(env, server);
        return;
      }
      var hw, disk;
      fault, hw, disk := PrepareDisks(env, server);
      if fault.Some? {
        return;
      }
      if env.ignition.Some? {
        return env.ignition;
      }
      log := log + [ImageWritten(server, disk, env.image.None?)];
      if env.image.Some? {
        return env.image;
      }
      providerID := Some(ProviderIds.Print(server));
      stage := Installing;
      return None;
    }

    method StateWaitInstall(env: Env, server: int) returns (fault: Call)
      modifies this
      ensures Did(WaitInstall(old(Value()), env, server), fault)
    {
      if env.maintenanceMode {
        stage := BootingTalos;
        return None;
      }
      if env.talosUp {
        fault := StateActivateRescue(env, server);
        return;
      }
      return None;
    }

    method StateWaitTalosMaintenanceMode(env: Env) returns (fault: Call)
      modifies this
      ensures Did(WaitTalosMaintenanceMode(old(Value()), env), fault)
    {
      if !env.maintenanceMode {
        return None;
      }
      if env.endpoint.Some? {
        return env.endpoint;
      }
      stage := ApplyingConfig;
      return None;
    }

    method StateApplyConfig(env: Env, server: int) returns (fault: Call)
      modifies this
      ensures Did(ApplyConfig(old(Value()), env, server), fault)
    {
      if !env.bootstrapReady {
        return None;
      }
      if env.diskInjection.Some? {
        return env.diskInjection;
      }
      if primaryMAC == "" {
        return Some(TRANSIENT);
      }
      if env.vlan {
        if env.internalIP == "" {
          return Some(TRANSIENT);
        }
        if gatewayIP == "" {
          return Some(TRANSIENT);
        }
      }
      if env.injections.Some? {
        return env.injections;
      }
      var pid := ProviderIds.Print(server);
      log := log + [ConfigApplied(server, pid, env.applyConfig.None?)];
      if env.applyConfig.Some? {
        return env.applyConfig;
      }
      providerID := Some(pid);
      stage := WaitingForBoot;
      return None;
    }

    method StateWaitForBoot(env: Env) returns (fault: Call)
      modifies this
      ensures Did(WaitForBoot(old(Value()), env), fault)
    {
      if !env.talosUp {
        return None;
      }
      stage := Provisioned;
      ready := true;
      return None;
    }

    method StateWaitFlatcarInstall(env: Env) returns (fault: Call)
      modifies this
      ensures Did(WaitFlatcarInstall(old(Value()), env), fault)
    {
      if env.privateKey.Some? {
        return env.privateKey;
      }
      if env.flatcarUp {
        stage := BootingFlatcar;
      }
      return None;
    }

    method StateWaitFlatcarBoot(env: Env) returns (fault: Call)
      modifies this
      ensures Did(WaitFlatcarBoot(old(Value()), env), fault)
    {
      if env.privateKey.Some? {
        return env.privateKey;
      }
      if env.bootstrapDone.None? || !env.bootstrapDone.value {
        return None;
      }
      stage := Provisioned;
      ready := true;
      return None;
    }

    method ReconcileNormal(env: Env) returns (fault: Call)
      modifies this
      ensures Did(Normal(old(Value()), env, TheSpec()), fault)
    {
      if stage == Provisioned {
        ready := true;
        return None;
      }
      if env.host.Missing? {
        return Some(env.host.fault);
      }
      var h := env.host.host;
      if MayBecomeDestructive(stage) {
        var gate := AuthorizeDestructiveProvisioning(Some(h), Some(env.capi), env.releases, env.now);
        if gate.Err? {
          return None;
        }
      }
      if env.robotClient.Some? {
        return env.robotClient;
      }
      match stage {
        case StateNone => fault := StateActivateRescue(env, h.serverID);
        case ActivatingRescue => fault := StateCheckRescueActive(env, h.serverID);
        case InRescue =>
          if flatcar {
            fault := StateInstallFlatcar(env, h.serverID);
          } else {
            fault := StateInstallTalos(env, h.serverID);
          }
        case Installing =>
          if flatcar {
            fault := StateWaitFlatcarInstall(env);
          } else {
            fault := StateWaitInstall(env, h.serverID);
          }
        case BootingTalos => fault := StateWaitTalosMaintenanceMode(env);
        case ApplyingConfig => fault := StateApplyConfig(env, h.serverID);
        case WaitingForBoot => fault := StateWaitForBoot(env);
        case BootingFlatcar => fault := StateWaitFlatcarBoot(env);
        case _ => return None;
      }
    }

    method ReconcileDelete(env: Env)
      modifies this
      ensures Did(Delete(old(Value()), env), None)
    {
      stage := Deleting;
      var serverID := 0;
      if env.deleteHost.Some? {
        serverID := env.deleteHost.value.serverID;
      }
      if env.drainPending {
        return;
      }
      if env.robotClient.Some? {
        finalizer := false;
        return;
      }
      if serverID != 0 {
        var gate := AuthorizeDestructiveProvisioning(env.deleteHost, Some(env.capi), env.releases, env.now);
        if gate.Err? {
          finalizer := false;
          return;
        }
        log := log + [Activate(serverID, env.activate.None?)];
        log := log + [Reset(serverID, env.now, env.reset.None?)];
      }
      if env.deleteHost.Some? {
        log := log + [Released(env.deleteHost.value.serverID, env.releaseHost.None?)];
      }
      finalizer := false;
    }

    // What Reconcile does with the result of reconcileNormal.
    method Attempt(env: Env)
      modifies this
      ensures Value() == Concluded(Normal(old(Value()), env, TheSpec()), env.now)
      ensures log == old(log) + Normal(old(Value()), env, TheSpec()).effects
    {
      hide Normal;
      var fault := ReconcileNormal(env);
      if fault.Some? {
        if fault.value.permanent {
          failureReason := Some("PermanentError");
          stage := StateError;
          ready := false;
          return;
        }
        retryCount := retryCount + 1;
        lastRetry := Some(env.now);
        return;
      }
      retryCount := 0;
      failureReason := None;
      lastRetry := None;
    }

    method Reconcile(env: Env)
      modifies this
      ensures Value() == Reconciled(old(Value()), env, TheSpec()).0
      ensures log == old(log) + Reconciled(old(Value()), env, TheSpec()).1
    {
      hide Normal, Delete, Concluded, Backoff.Delay;
      if deleting {
        ReconcileDelete(env);
        return;
      }
      if !finalizer {
        finalizer := true;
        return;
      }
      if stage != Provisioned && stage != StateError && stage != Deleting {
        if started.None? {
          started := Some(env.now);
        } else if env.now - started.value > TIMEOUT {
          failureReason := Some("ProvisionTimeout");
          stage := StateError;
          ready := false;
          return;
        }
      }
      if retryCount > 0 && lastRetry.Some? {
        var expected := Backoff.ComputeBackoff(retryCount);
        if env.now - lastRetry.value < expected {
          return;
        }
      }
      Attempt(env);
    }
  }
}
