// controllers/hetznerrobotmachine_policy.go: who may wipe or reset a host.
module Policy {
  import opened Common
  import opened Api

  // A release authorises one action on one host for one CAPI Machine identity.
  predicate Authorises(r: HostRelease, host: Host, capi: CapiMachine, now: int) {
    && r.ns == host.key.ns
    && r.hostName == host.key.name
    && r.wipeAndReinstall
    && r.expiresAt > now
    && r.machine == capi
  }

  predicate Released(releases: seq<HostRelease>, host: Host, capi: CapiMachine, now: int) {
    exists r | r in releases :: Authorises(r, host, capi, now)
  }

  // The destructive-action gate in one formula.
  predicate MayDestroy(host: Host, capi: CapiMachine, releases: seq<HostRelease>, now: int) {
    && !host.maintenance
    && (|| (host.lifecycle == Compute && host.policy == AlwaysCleanSlate)
        || (host.lifecycle == Storage && host.policy == RequiresExternalRelease
            && Released(releases, host, capi, now)))
  }

  predicate MayAutoReset(host: Host) {
    !host.maintenance && host.lifecycle == Compute && host.policy == AlwaysCleanSlate
  }

  predicate MayBecomeDestructive(stage: ProvisioningState) {
    stage in {StateNone, ActivatingRescue, InRescue, Installing}
  }

  // The package-level authorizeDestructiveProvisioning, which has no access to releases.
  method AuthorizeByClass(host: Option<Host>) returns (r: Result<()>)
    ensures r.Ok? <==>
            host.Some? && !host.value.maintenance
            && host.value.lifecycle == Compute && host.value.policy == AlwaysCleanSlate
  {
    if host.None? {
      return Err("host is nil");
    }
    var h := host.value;
    if h.maintenance {
      return Err("maintenanceMode=true");
    }
    match h.lifecycle {
      case Compute =>
        if h.policy == AlwaysCleanSlate {
          return Ok(());
        }
        return Err("compute host needs policy AlwaysCleanSlate");
      case ControlPlane =>
        return Err("control-plane host");
      case Storage =>
        return Err("active storage host release is required");
      case NoClass =>
        return Err("lifecycleClass is required");
      case OtherClass =>
        return Err("unsupported lifecycleClass");
    }
  }

  // `listed` is None when listing the releases fails.
  method FindActiveHostRelease(host: Host, capi: Option<CapiMachine>, listed: Option<seq<HostRelease>>, now: int)
    returns (r: Result<Option<HostRelease>>)
    ensures r.Err? <==> capi.None? || listed.None?
    ensures r.Ok? ==> (r.value.Some? <==> Released(listed.value, host, capi.value, now))
    ensures r.Ok? && r.value.Some? ==>
              r.value.value in listed.value && Authorises(r.value.value, host, capi.value, now)
  {
    if capi.None? {
      return Err("CAPI Machine is nil");
    }
    if listed.None? {
      return Err("list HetznerRobotHostReleases");
    }
    var items := listed.value;
    for i := 0 to |items|
      invariant forall j | 0 <= j < i :: !Authorises(items[j], host, capi.value, now)
    {
      var release := items[i];
      // The list call is restricted to the host's namespace.
      if release.ns != host.key.ns { continue; }
      if release.hostName != host.key.name { continue; }
      if !release.wipeAndReinstall { continue; }
      if !(release.expiresAt > now) { continue; }
      if release.machine != capi.value { continue; }
      assert release in items;
      return Ok(Some(release));
    }
    return Ok(None);
  }

  method AuthorizeDestructiveProvisioning(
    host: Option<Host>, capi: Option<CapiMachine>, listed: Option<seq<HostRelease>>, now: int)
    returns (r: Result<()>)
    ensures r.Ok? ==> host.Some?
    ensures host.Some? && capi.Some? && listed.Some? ==>
              (r.Ok? <==> MayDestroy(host.value, capi.value, listed.value, now))
    // Without the releases only the compute rule can succeed.
    ensures host.Some? && (capi.None? || listed.None?) ==>
              (r.Ok? <==> MayAutoReset(host.value))
  {
    if host.None? {
      return Err("host is nil");
    }
    var h := host.value;
    if h.lifecycle != Storage {
      r := AuthorizeByClass(host);
      return;
    }
    if h.maintenance {
      return Err("maintenanceMode=true");
    }
    if h.policy != RequiresExternalRelease {
      return Err("storage host needs policy RequiresExternalRelease");
    }
    var found := FindActiveHostRelease(h, capi, listed, now);
    if found.Err? {
      return Err(found.reason);
    }
    if found.value.None? {
      return Err("active HetznerRobotHostRelease is required");
    }
    return Ok(());
  }

  method AuthorizeAutomatedHardwareReset(host: Option<Host>) returns (r: Result<()>)
    ensures r.Ok? <==>
            host.Some? && !host.value.maintenance
            && host.value.lifecycle == Compute && host.value.policy == AlwaysCleanSlate
  {
    if host.None? {
      return Err("host is nil");
    }
    var h := host.value;
    if h.maintenance {
      return Err("maintenanceMode=true");
    }
    match h.lifecycle {
      case Compute =>
        if h.policy == AlwaysCleanSlate {
          return Ok(());
        }
        return Err("compute host needs policy AlwaysCleanSlate");
      case ControlPlane =>
        return Err("platform quorum gate required");
      case Storage =>
        return Err("external storage health/release gate required");
      case NoClass =>
        return Err("lifecycleClass is required");
      case OtherClass =>
        return Err("unsupported lifecycleClass");
    }
  }
}
