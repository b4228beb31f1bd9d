// The host-ownership protocol as one interleaving system: any number of machine reconciles,
// the host controller, and the operators, over a shared store of versioned hosts.
//
// A reconcile in flight holds the machine copy it mutates (saved only at the end, and
// possibly lost) and the host copy it read. Host patches are compare-and-swap on the version.
module Ownership {
  import opened Common
  import opened Api
  import opened ProviderIds
  import opened Policy
  import opened Claims
  import opened HostReconcile

  // What an authorisation was based on.
  datatype Evidence = Evidence(copy: Host, releases: seq<HostRelease>, now: int)

  predicate Permits(ev: Evidence, capi: CapiMachine) {
    MayDestroy(ev.copy, capi, ev.releases, ev.now)
  }

  datatype Physical = RescueActivation | HardwareReset | DiskWipe | ImageWrite

  // One physical action, with the owner of the host object at that moment, and whether that
  // owner existed.
  datatype Entry = Entry(
    machine: Key, capi: CapiMachine, host: Key, present: bool, ownerThen: Option<Key>, ownedThen: bool,
    del: bool, kind: Physical, ev: Evidence)

  datatype Purpose = Claim | Repair | Adopt | Confirm | Release(ev: Evidence)

  // Where a reconcile stands between two API calls.
  datatype Flight =
    | Chosen(local: Machine, name: string)                        // resolveHost: candidate not fetched yet
    | Vetting(local: Machine, adopting: bool, copy: Host)         // blockingHostOwnerRef still to run
    | Pending(local: Machine, purpose: Purpose, copy: Host)       // host patch about to be sent
    | Confirmable(local: Machine)                                 // before ensureProvisionedHostStatus
    | Working(local: Machine, copy: Host)                         // resolveHost returned
    | Gated(local: Machine, copy: Host, ev: Evidence, del: bool)  // destructive provisioning authorised
    | DelFound(local: Machine, copy: Host)                        // resolveHostForDelete returned a host
    | Removing(local: Machine, released: bool)                    // finalizer removal not saved yet
    | Done(local: Machine)                                        // deferred machine patch not sent yet

  // catalog and legacy never change: the labels a host name is created with, and the machine
  // whose status named a host in use that no machine owned when the run began.
  datatype World = World(
    hosts: map<Key, Host>,
    catalog: map<Key, Labels>,
    legacy: map<Key, Key>,
    next: nat,
    machines: map<Key, Machine>,
    flights: map<Key, Flight>,
    hostFlights: map<Key, Host>,
    releases: seq<HostRelease>,
    now: int,
    log: seq<Entry>)

  datatype Step =
    // operators and other controllers
    | CreateHost(host: Host)
    | EditHost(k: Key, lifecycle: LifecycleClass, policy: DestructivePolicy, maintenance: bool)
    | DeleteHost(k: Key)
    | CreateMachine(machine: Machine)
    | DeleteMachine(m: Key)
    | SetReleases(releases: seq<HostRelease>)
    | Tick(now: int)
    // the host controller
    | HostRead(k: Key)
    | HostPatch(k: Key)
    | HostDrop(k: Key)
    // the machine controller
    | Begin(m: Key, list: seq<Host>)
    | Fetch(m: Key)
    | Patch(m: Key)
    | Vet(m: Key, lookupFails: bool)
    | ReadConfirm(m: Key)
    | Gate(m: Key)
    | Emit(m: Key, kind: Physical)
    | Finish(m: Key, stage: ProvisioningState, providerID: Option<string>)
    | GiveUp(m: Key)
    | ReadRelease(m: Key)
    | DropFinalizer(m: Key)
    | Remove(m: Key)
    | Save(m: Key)
    | Crash(m: Key)

  // ---- What names are in use ----

  predicate Refers(h: Host, m: Key) {
    || h.consumerRef == Some(m)
    || (h.machineRef.Some? && (h.machineRef == Some(m) || LegacyKey(h) == m))
  }

  // No existing machine owns the host: it refers to nobody, or only in the legacy way to a
  // machine that is gone.
  predicate Ownerless(h: Host, machines: set<Key>) {
    h.consumerRef.None? && (h.machineRef.Some? ==> LegacyKey(h) !in machines)
  }

  predicate HasCopy(f: Flight) { f.Vetting? || f.Pending? || f.Working? || f.Gated? || f.DelFound? }

  predicate StateInUse(state: HostState) { state == Claimed || state == HostProvisioned }

  predicate FlightMentions(f: Flight, k: Key) {
    || (f.local.hostRef != "" && HostKey(f.local.key, f.local.hostRef) == k)
    || (f.Chosen? && HostKey(f.local.key, f.name) == k)
    || ((f.Vetting? || f.Pending? || f.Working? || f.Gated? || f.DelFound?) && f.copy.key == k)
  }

  predicate MachineMentions(w: World, m: Key, k: Key)
    requires m in w.machines
  {
    || (w.machines[m].hostRef != "" && HostKey(m, w.machines[m].hostRef) == k)
    || (m in w.flights && FlightMentions(w.flights[m], k))
  }

  // ---- The host controller's Reconcile, on the copy it read ----

  function HostNext(h: Host): Host {
    if !h.finalizer then h.(finalizer := true)
    else
      var h1 := if h.state == Unset then h.(state := Available) else h;
      if h.deleting && h.consumerRef.None? && h.machineRef.None? then h1.(finalizer := false) else h1
  }

  // ---- The machine controller, one API call at a time ----

  function AfterEnsure(local: Machine, h: Host): Flight {
    match Ensure(h, local.key)
    case Refuse(_) => Done(local)
    case AlreadyBoth => Working(local, h)
    case Backfill => Pending(local, Repair, h)
  }

  function BeginResolve(w: World, local: Machine, list: seq<Host>): Flight {
    if local.hostRef != "" then
      var k := HostKey(local.key, local.hostRef);
      if k !in w.hosts then Done(local) else AfterEnsure(local, w.hosts[k])
    else if local.directHost != "" then
      var k := HostKey(local.key, local.directHost);
      if k !in w.hosts then Done(local)
      else if ClaimedBy(w.hosts[k], local.key) then AfterEnsure(local.(hostRef := k.name), w.hosts[k])
      else if w.hosts[k].maintenance then Done(local)
      else Chosen(local, local.directHost)
    else if local.selector.Some? then
      var mine := FirstClaimed(list, local.key);
      var free := FirstClaimable(list);
      if mine.Some? then AfterEnsure(local.(hostRef := mine.value.key.name), mine.value)
      else if free.Some? then Chosen(local, free.value.key.name)
      else Done(local)
    else Done(local)
  }

  function AdoptChecks(local: Machine, h: Host): Flight {
    if h.maintenance || ServerID(local.providerID) != Some(h.serverID) then Done(local)
    else Vetting(local, true, h)
  }

  function BeginProvisioned(w: World, local: Machine, list: seq<Host>): Flight {
    if local.hostRef != "" then Confirmable(local)
    else
      var id := ServerID(local.providerID);
      if id.None? then Done(local)
      else if local.directHost != "" then
        var k := HostKey(local.key, local.directHost);
        if k !in w.hosts then Done(local) else AdoptChecks(local, w.hosts[k])
      else if local.selector.None? then Done(local)
      else
        var matches := WithServerID(list, id.value);
        if |matches| != 1 then Done(local) else AdoptChecks(local, matches[0])
  }

  function BeginDelete(w: World, local: Machine, list: seq<Host>): Flight {
    if local.hostRef != "" then
      var k := HostKey(local.key, local.hostRef);
      if k !in w.hosts then Removing(local, false) else DelFound(local, w.hosts[k])
    else if local.directHost != "" then
      var k := HostKey(local.key, local.directHost);
      if k in w.hosts && ClaimedBy(w.hosts[k], local.key) then DelFound(local, w.hosts[k])
      else Removing(local, false)
    else if local.selector.Some? && FirstClaimed(list, local.key).Some? then
      DelFound(local, FirstClaimed(list, local.key).value)
    else Removing(local, false)
  }

  function BeginFlight(w: World, local: Machine, list: seq<Host>): Flight {
    if local.deleting then BeginDelete(w, local.(stage := Deleting), list)
    else if local.stage == Provisioned then BeginProvisioned(w, local, list)
    else BeginResolve(w, local, list)
  }

  function FetchFlight(w: World, f: Flight): Flight
    requires f.Chosen?
  {
    var k := HostKey(f.local.key, f.name);
    if k !in w.hosts || !Claimable(w.hosts[k]) then Done(f.local)
    else Pending(f.local, Claim, w.hosts[k])
  }

  function VetFlight(w: World, f: Flight, lookupFails: bool): Flight
    requires f.Vetting?
  {
    var m := f.local.key;
    var lookup :=
      if lookupFails then LookupFailed
      else if f.copy.machineRef.Some? && LegacyKey(f.copy) in w.machines then Found else NotFound;
    if BlockingOwner(f.copy, m, f.local.providerID, lookup) != Ok(None) then Done(f.local)
    else if f.adopting then
      if f.copy.state == Claimed then Done(f.local) else Pending(f.local, Adopt, f.copy)
    else
      if Confirmed(f.copy, m) then Done(f.local) else Pending(f.local, Confirm, f.copy)
  }

  function Patched(f: Flight): Host
    requires f.Pending?
  {
    var m := f.local.key;
    match f.purpose
    case Claim => ClaimWrite(f.copy, m)
    case Repair => WithOwner(f.copy, m)
    case Adopt => AdoptWrite(f.copy, m)
    case Confirm => ConfirmWrite(f.copy, m)
    case Release(_) => ReleaseWrite(f.copy)
  }

  function AfterPatch(f: Flight, stored: Host): Flight
    requires f.Pending?
  {
    match f.purpose
    case Claim => Working(f.local.(hostRef := stored.key.name), stored)
    case Repair => Working(f.local, stored)
    case Adopt => Confirmable(f.local.(hostRef := stored.key.name))
    case Confirm => Done(f.local)
    case Release(_) => Removing(f.local, true)
  }

  function AfterConflict(f: Flight): Flight
    requires f.Pending?
  {
    if f.purpose.Release? then Removing(f.local, false) else Done(f.local)
  }

  predicate Current(w: World, copy: Host) {
    copy.key in w.hosts && w.hosts[copy.key].version == copy.version
  }

  // ---- Steps ----

  ghost predicate Enabled(w: World, s: Step) {
    match s
    case CreateHost(h) =>
      && h.key !in w.hosts && h.key in w.catalog && h.key.name != "" && h.labels == w.catalog[h.key]
      && h.state == Unset && h.consumerRef.None? && h.machineRef.None?
      && h.serverID >= 1 && !h.finalizer && !h.deleting && h.version == w.next
      && (forall m | m in w.machines :: !MachineMentions(w, m, h.key))
    case EditHost(k, _, _, _) => k in w.hosts
    case DeleteHost(k) => k in w.hosts
    case CreateMachine(mc) =>
      && mc.key !in w.machines && mc.key.ns != "" && mc.hostRef == "" && !mc.deleting
      && (forall k | k in w.hosts :: !Refers(w.hosts[k], mc.key))
    case DeleteMachine(m) => m in w.machines
    case SetReleases(_) => true
    case Tick(t) => t >= w.now
    case HostRead(k) => k in w.hosts && k !in w.hostFlights
    case HostPatch(k) => k in w.hostFlights
    case HostDrop(k) => k in w.hostFlights
    case Begin(m, list) =>
      && m in w.machines && m !in w.flights
      && (w.machines[m].selector.Some? ==> IsListing(w.hosts, m.ns, w.machines[m].selector.value, list))
    case Fetch(m) => m in w.flights && w.flights[m].Chosen?
    case Patch(m) => m in w.flights && w.flights[m].Pending?
    case Vet(m, _) => m in w.flights && w.flights[m].Vetting?
    case ReadConfirm(m) => m in w.flights && w.flights[m].Confirmable?
    case Gate(m) =>
      && m in w.flights && (w.flights[m].Working? || w.flights[m].DelFound?)
      && Permits(Evidence(w.flights[m].copy, w.releases, w.now), w.flights[m].local.capi)
    case Emit(m, _) => m in w.flights && w.flights[m].Gated?
    case Finish(m, _, providerID) =>
      && m in w.flights && (w.flights[m].Working? || (w.flights[m].Gated? && !w.flights[m].del))
      && (w.flights[m].local.providerID.Some? ==> providerID == w.flights[m].local.providerID)
    case GiveUp(m) =>
      && m in w.flights
      && (var f := w.flights[m];
          f.Chosen? || f.Vetting? || f.Confirmable? || f.Working? || f.DelFound?
          || (f.Gated? && !f.del) || (f.Pending? && !f.purpose.Release?))
    case ReadRelease(m) => m in w.flights && w.flights[m].Gated? && w.flights[m].del
    case DropFinalizer(m) =>
      m in w.flights && (w.flights[m].DelFound? || (w.flights[m].Gated? && w.flights[m].del))
    case Remove(m) => m in w.flights && w.flights[m].Removing?
    case Save(m) => m in w.flights && w.flights[m].Done? && m in w.machines
    case Crash(m) => m in w.flights
  }

  function WithFlight(w: World, m: Key, f: Flight): World { w.(flights := w.flights[m := f]) }

  function PutHost(w: World, h: Host): World {
    w.(hosts := w.hosts[h.key := h.(version := w.next)], next := w.next + 1)
  }

  function DropHost(w: World, k: Key): World { w.(hosts := w.hosts - {k}, next := w.next + 1) }

  function PatchHostStep(w: World, k: Key): World
    requires k in w.hostFlights
  {
    var copy := w.hostFlights[k];
    var h := HostNext(copy);
    var w1 := w.(hostFlights := w.hostFlights - {k});
    if h == copy || !Current(w, copy) then w1
    else if h.deleting && !h.finalizer then DropHost(w1, copy.key)
    else PutHost(w1, h)
  }

  function PatchStep(w: World, m: Key): World
    requires m in w.flights && w.flights[m].Pending?
  {
    var f := w.flights[m];
    if !Current(w, f.copy) then WithFlight(w, m, AfterConflict(f))
    else WithFlight(PutHost(w, Patched(f)), m, AfterPatch(f, Patched(f).(version := w.next)))
  }

  // The deferred patch writes what this reconcile changed.
  function Saved(stored: Machine, local: Machine): Machine {
    stored.(hostRef := local.hostRef, stage := local.stage, providerID := local.providerID)
  }

  function EntryFor(w: World, f: Flight, kind: Physical): Entry
    requires f.Gated?
  {
    var k := f.copy.key;
    Entry(f.local.key, f.local.capi, k, k in w.hosts, if k in w.hosts then Owner(w.hosts[k]) else None,
          k in w.hosts && !Ownerless(w.hosts[k], w.machines.Keys), f.del, kind, f.ev)
  }

  ghost function Apply(w: World, s: Step): World
    requires Enabled(w, s)
  {
    match s
    case CreateHost(h) => PutHost(w, h)
    case EditHost(k, c, p, x) => PutHost(w, w.hosts[k].(lifecycle := c, policy := p, maintenance := x))
    case DeleteHost(k) =>
      if w.hosts[k].finalizer then PutHost(w, w.hosts[k].(deleting := true)) else DropHost(w, k)
    case CreateMachine(mc) => w.(machines := w.machines[mc.key := mc])
    case DeleteMachine(m) => w.(machines := w.machines[m := w.machines[m].(deleting := true)])
    case SetReleases(rs) => w.(releases := rs)
    case Tick(t) => w.(now := t)
    case HostRead(k) => w.(hostFlights := w.hostFlights[k := w.hosts[k]])
    case HostPatch(k) => PatchHostStep(w, k)
    case HostDrop(k) => w.(hostFlights := w.hostFlights - {k})
    case Begin(m, list) => WithFlight(w, m, BeginFlight(w, w.machines[m], list))
    case Fetch(m) => WithFlight(w, m, FetchFlight(w, w.flights[m]))
    case Patch(m) => PatchStep(w, m)
    case Vet(m, fails) => WithFlight(w, m, VetFlight(w, w.flights[m], fails))
    case ReadConfirm(m) =>
      var l := w.flights[m].local;
      var k := HostKey(l.key, l.hostRef);
      WithFlight(w, m, if k in w.hosts then Vetting(l, false, w.hosts[k]) else Done(l))
    case Gate(m) =>
      var f := w.flights[m];
      WithFlight(w, m, Gated(f.local, f.copy, Evidence(f.copy, w.releases, w.now), f.DelFound?))
    case Emit(m, kind) => w.(log := w.log + [EntryFor(w, w.flights[m], kind)])
    case Finish(m, stage, providerID) =>
      WithFlight(w, m, Done(w.flights[m].local.(stage := stage, providerID := providerID)))
    case GiveUp(m) => WithFlight(w, m, Done(w.flights[m].local))
    case ReadRelease(m) =>
      var f := w.flights[m];
      var k := f.copy.key;
      WithFlight(w, m, if k in w.hosts then Pending(f.local, Release(f.ev), w.hosts[k]) else Removing(f.local, false))
    case DropFinalizer(m) => WithFlight(w, m, Removing(w.flights[m].local, false))
    case Remove(m) => w.(machines := w.machines - {m}, flights := w.flights - {m})
    case Save(m) =>
      w.(machines := w.machines[m := Saved(w.machines[m], w.flights[m].local)], flights := w.flights - {m})
    case Crash(m) => w.(flights := w.flights - {m})
  }

  // ---- The invariant ----

  ghost predicate CopyOk(w: World, copy: Host) {
    && HostOk(copy, copy.key, w.next, w.catalog)
    && (Current(w, copy) ==> w.hosts[copy.key] == copy)
  }

  // A legacy record: host k is in use, no existing machine owns it, and it is m's to repair.
  ghost predicate Reserved(w: World, m: Key, k: Key) {
    && k in w.hosts && m in w.machines
    && k in w.legacy && w.legacy[k] == m
    && StateInUse(w.hosts[k].state) && Ownerless(w.hosts[k], w.machines.Keys)
    && k in w.catalog && Fits(m, w.machines[m].directHost, w.machines[m].selector, k, w.catalog[k])
    && OwnsNothingBut(w, m, k)
  }

  ghost predicate Entitled(w: World, m: Key, k: Key) { OwnedBy(w.hosts, k, m) || Reserved(w, m, k) }

  ghost predicate RecordOk(w: World, m: Key, name: string) {
    name != "" && HostKey(m, name) in w.hosts ==> Entitled(w, m, HostKey(m, name))
  }

  // Machine m names k in its stored status, or in the copy a reconcile works on.
  ghost predicate Records(w: World, m: Key, k: Key) {
    && m in w.machines
    && (|| (w.machines[m].hostRef != "" && HostKey(m, w.machines[m].hostRef) == k)
        || (m in w.flights && w.flights[m].local.hostRef != "" && HostKey(m, w.flights[m].local.hostRef) == k))
  }

  ghost predicate OwnsFitting(w: World, m: Key, mc: Machine) {
    forall k | OwnedBy(w.hosts, k, m) && k in w.catalog :: Fits(m, mc.directHost, mc.selector, k, w.catalog[k])
  }

  ghost predicate OwnsOne(w: World, m: Key) {
    forall k, l | OwnedBy(w.hosts, k, m) && OwnedBy(w.hosts, l, m) :: k == l
  }

  ghost predicate OwnsNothingBut(w: World, m: Key, k: Key) {
    forall l | OwnedBy(w.hosts, l, m) :: l == k
  }

  ghost predicate OwnsServer(w: World, m: Key, providerID: Option<string>) {
    forall k | OwnedBy(w.hosts, k, m) :: ServerID(providerID) == Some(w.hosts[k].serverID)
  }

  predicate LeavingFlight(f: Flight) { f.Removing? && f.released }

  ghost predicate Leaving(w: World, m: Key) { m in w.flights && LeavingFlight(w.flights[m]) }

  // A reconcile that has released its host is lost before the finalizer removal is saved, and
  // the machine's status still records that host.
  ghost predicate LosesRelease(w: World, s: Step) {
    s.Crash? && Leaving(w, s.m) && s.m in w.machines && !RecordOk(w, s.m, w.machines[s.m].hostRef)
  }

  // An adoption is accepted on a host that another machine's legacy record is waiting for.
  ghost predicate TakesOver(w: World, s: Step) {
    && s.Patch? && s.m in w.flights && w.flights[s.m].Pending? && w.flights[s.m].purpose.Adopt?
    && Current(w, w.flights[s.m].copy)
    && (var k := w.flights[s.m].copy.key;
        exists x | x in w.machines :: x != s.m && Reserved(w, x, k) && Records(w, x, k) && !Leaving(w, x))
  }

  ghost predicate MachineOk(w: World, m: Key)
    requires m in w.machines
  {
    var mc := w.machines[m];
    && mc.key == m && m.ns != ""
    && OwnsFitting(w, m, mc) && OwnsOne(w, m)
    && (!Leaving(w, m) ==> RecordOk(w, m, mc.hostRef))
    && (mc.stage == Provisioned && mc.hostRef == "" ==> OwnsServer(w, m, mc.providerID))
  }

  // The copy's owner, as long as the copy is current, is nobody, `m`, or a machine that is gone.
  ghost predicate Unblocked(w: World, m: Key, copy: Host) {
    Current(w, copy) ==>
      && (copy.consumerRef.Some? ==> copy.consumerRef == Some(m))
      && (copy.consumerRef.None? && copy.machineRef.Some? && copy.machineRef != Some(m) ==> LegacyKey(copy) !in w.machines)
  }

  ghost predicate LocalOk(w: World, m: Key, l: Machine)
    requires m in w.machines
  {
    var mc := w.machines[m];
    && l.key == m && l.capi == mc.capi && l.directHost == mc.directHost && l.selector == mc.selector
    && (mc.providerID.Some? ==> l.providerID == mc.providerID)
    && (l.deleting ==> mc.deleting)
    && (mc.hostRef != "" ==> l.hostRef == mc.hostRef)
    && (l.hostRef == "" ==> l.providerID == mc.providerID)
    && (l.hostRef == "" && l.stage == Provisioned ==> mc.stage == Provisioned)
  }

  ghost predicate AtRecorded(m: Key, l: Machine, copy: Host) {
    l.hostRef != "" && copy.key == HostKey(m, l.hostRef)
  }

  ghost predicate Adoptable(w: World, m: Key, l: Machine, copy: Host) {
    && l.hostRef == ""
    && ServerID(l.providerID) == Some(copy.serverID)
    && Fits(m, l.directHost, l.selector, copy.key, copy.labels)
    && OwnsNothingBut(w, m, copy.key)
  }

  ghost predicate Targeted(w: World, m: Key, k: Key) {
    k in w.hosts ==> OwnedBy(w.hosts, k, m)
  }

  // What a delete may go for: a host the machine owns, or the one its status records.
  ghost predicate MayRelease(w: World, m: Key, l: Machine, copy: Host) {
    l.deleting && (Targeted(w, m, copy.key) || AtRecorded(m, l, copy))
  }

  // The owner a confirmed host is taken from is m, nobody, or on m's own server.
  predicate SameServer(m: Key, l: Machine, copy: Host) {
    Owner(copy).None? || Owner(copy) == Some(m) || ServerID(l.providerID) == Some(copy.serverID)
  }

  ghost predicate PendingOk(w: World, m: Key, l: Machine, p: Purpose, copy: Host)
    requires m in w.machines
  {
    && CopyOk(w, copy)
    && match p
       case Claim =>
         && l.hostRef == "" && w.machines[m].stage != Provisioned && Claimable(copy) && OwnsNothingBut(w, m, copy.key)
         && Fits(m, l.directHost, l.selector, copy.key, copy.labels)
       case Repair =>
         AtRecorded(m, l, copy) && (Owner(copy) == Some(m) || (Owner(copy).None? && StateInUse(copy.state)))
       case Adopt => Adoptable(w, m, l, copy) && Unblocked(w, m, copy)
       case Confirm => AtRecorded(m, l, copy) && Unblocked(w, m, copy) && SameServer(m, l, copy)
       case Release(ev) =>
         Permits(ev, l.capi) && ev.copy.key == copy.key && MayRelease(w, m, l, copy)
  }

  // The host the local copy records; one found in this reconcile is owned.
  ghost predicate LocalRecordOk(w: World, m: Key, l: Machine)
    requires m in w.machines
  {
    && RecordOk(w, m, l.hostRef)
    && (w.machines[m].hostRef == "" && l.hostRef != "" ==> Targeted(w, m, HostKey(m, l.hostRef)))
  }

  // What is known about a reconcile of machine m that stands at f.
  ghost predicate GoodFlight(w: World, m: Key, f: Flight)
    requires m in w.machines
  {
    var l := f.local;
    && LocalOk(w, m, l)
    && (!f.Done? ==> l.providerID == w.machines[m].providerID)
    && (!LeavingFlight(f) ==> LocalRecordOk(w, m, l))
    && match f
       case Chosen(_, name) =>
         && l.hostRef == "" && w.machines[m].stage != Provisioned && name != "" && OwnsNothingBut(w, m, HostKey(m, name))
         && (HostKey(m, name) in w.catalog ==>
               Fits(m, l.directHost, l.selector, HostKey(m, name), w.catalog[HostKey(m, name)]))
       case Vetting(_, adopting, copy) =>
         CopyOk(w, copy) && if adopting then Adoptable(w, m, l, copy) else AtRecorded(m, l, copy)
       case Pending(_, p, copy) => PendingOk(w, m, l, p, copy)
       case Confirmable(_) => l.hostRef != ""
       case Working(_, copy) => AtRecorded(m, l, copy) && Targeted(w, m, copy.key)
       case Gated(_, copy, ev, del) =>
         && Permits(ev, l.capi) && ev.copy.key == copy.key
         && if del then MayRelease(w, m, l, copy) else AtRecorded(m, l, copy) && Targeted(w, m, copy.key)
       case DelFound(_, copy) => MayRelease(w, m, l, copy)
       case Removing(_, _) => true
       case Done(_) => true
  }

  ghost predicate FlightOk(w: World, m: Key)
    requires m in w.machines && m in w.flights
  {
    GoodFlight(w, m, w.flights[m])
  }

  // Every logged action was authorised for the host it hit, and, as long as the host object
  // existed, was done by its owner, or by the delete of a machine with a legacy record of a
  // host that no existing machine owned.
  ghost predicate EntryOk(e: Entry) {
    && Permits(e.ev, e.capi) && e.ev.copy.key == e.host
    && (e.present ==> e.ownerThen == Some(e.machine) || (e.del && !e.ownedThen))
  }

  ghost predicate Inv(w: World) {
    && HostsOk(w.hosts, w.next, w.catalog)
    && w.flights.Keys <= w.machines.Keys
    && (forall m | m in w.machines :: MachineOk(w, m))
    && (forall m | m in w.flights :: FlightOk(w, m))
    && (forall k | k in w.hostFlights :: w.hostFlights[k].key == k && CopyOk(w, w.hostFlights[k]))
    && (forall e | e in w.log :: EntryOk(e))
  }

  // Where runs start: nothing in flight, nothing logged, and a store that records who owns
  // what without contradiction. That includes legacy hosts that only carry machineRef, and
  // machines that record a host in use which refers to nobody or to a machine that is gone.
  ghost predicate Start(w: World) {
    && HostsOk(w.hosts, w.next, w.catalog)
    && w.flights == map[] && w.hostFlights == map[] && w.log == []
    && (forall m | m in w.machines :: MachineOk(w, m))
  }

  lemma StartInv(w: World)
    requires Start(w)
    ensures Inv(w)
  {
  }
}
