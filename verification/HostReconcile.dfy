// controllers/hetznerrobotmachine_host.go as imperative code against a shared API server.
//
// Other controllers act between any two API calls. Cluster.Interfere stands for all of it:
// its contract (Rely) is all a caller knows about the hosts afterwards, and
// OwnershipRuns.OthersMeetRely proves that every step of every other controller meets it.
module HostReconcile {
  import opened Common
  import opened Api
  import opened ProviderIds
  import opened Claims

  // What the stored hosts always satisfy.
  // The catalog fixes the labels a host name is ever created with.
  ghost predicate HostOk(h: Host, k: Key, next: nat, catalog: map<Key, Labels>) {
    && h.key == k && k.name != ""
    && k in catalog && h.labels == catalog[k]
    && h.serverID >= 1
    && h.version < next
    && (h.consumerRef.Some? ==> h.machineRef == h.consumerRef)
    && (h.state in {Unset, Available} ==> h.consumerRef.None? && h.machineRef.None?)
  }

  ghost predicate HostsOk(hosts: map<Key, Host>, next: nat, catalog: map<Key, Labels>) {
    forall k | k in hosts :: HostOk(hosts[k], k, next, catalog)
  }

  ghost predicate OwnedBy(hosts: map<Key, Host>, k: Key, m: Key) {
    k in hosts && Owner(hosts[k]) == Some(m)
  }

  ghost predicate SameIdentity(a: Host, b: Host) {
    a.key == b.key && a.serverID == b.serverID
  }

  // What the other controllers may do to the hosts while machine `me`, whose status records
  // host `recorded`, is between two API calls.
  ghost predicate Rely(me: Key, recorded: string, hosts: map<Key, Host>, next: nat, hosts': map<Key, Host>, next': nat) {
    && next <= next'
    // versions are never reused
    && (forall k | k in hosts' && hosts'[k].version < next :: k in hosts && hosts'[k] == hosts[k])
    // nobody else gives a host to `me`
    && (forall k | OwnedBy(hosts', k, me) :: OwnedBy(hosts, k, me) && SameIdentity(hosts[k], hosts'[k]))
    // a protected host of `me` stays, and stays protected
    && (forall k | OwnedBy(hosts, k, me) && hosts[k].finalizer :: OwnedBy(hosts', k, me) && hosts'[k].finalizer)
    // the recorded host is not recreated under the same name, nor taken over
    && (recorded != "" ==>
          var r := HostKey(me, recorded);
          r in hosts' ==> r in hosts && (OwnedBy(hosts, r, me) ==> OwnedBy(hosts', r, me)))
  }

  class MachineObject {
    const key: Key
    const directHost: string
    const selector: Option<Labels>
    const providerID: Option<string>
    var hostRef: string

    constructor (m: Machine)
      ensures key == m.key && directHost == m.directHost && selector == m.selector
      ensures providerID == m.providerID && hostRef == m.hostRef
    {
      key, directHost, selector, providerID, hostRef := m.key, m.directHost, m.selector, m.providerID, m.hostRef;
    }
  }

  // Every matching host of the namespace once, in some order.
  method Listing(hosts: map<Key, Host>, ns: string, selector: Labels) returns (list: seq<Host>)
    requires forall k | k in hosts :: hosts[k].key == k
    ensures IsListing(hosts, ns, selector, list)
  {
    hide Matches;
    list := [];
    var todo := hosts.Keys;
    while todo != {}
      invariant todo <= hosts.Keys
      invariant forall h | h in list :: h.key in hosts && h.key !in todo && hosts[h.key] == h
                                        && h.key.ns == ns && Matches(selector, h.labels)
      invariant forall k | k in hosts && k !in todo && k.ns == ns && Matches(selector, hosts[k].labels) :: hosts[k] in list
      invariant forall i, j | 0 <= i < j < |list| :: list[i].key != list[j].key
      decreases |todo|
    {
      var k :| k in todo;
      todo := todo - {k};
      if k.ns == ns && Matches(selector, hosts[k].labels) {
        list := list + [hosts[k]];
      }
    }
  }

  class Cluster {
    var hosts: map<Key, Host>
    var machines: set<Key>
    var next: nat
    // The host patches this reconcile has had accepted: (stored host, patched host).
    ghost var writes: seq<(Host, Host)>
    ghost const catalog: map<Key, Labels>
    // An API call of this reconcile has failed, or a patch met a conflict.
    ghost var failed: bool

    ghost predicate Valid()
      reads this
    {
      HostsOk(hosts, next, catalog)
    }

    // Do nothing: the callers only see the contract.
    method Interfere(hrm: MachineObject)
      requires Valid()
      modifies this`hosts, this`machines, this`next
      ensures Valid() && Rely(hrm.key, hrm.hostRef, old(hosts), old(next), hosts, next)
    {
    }

    // Get; None is "not found" or any other API error.
    method GetHost(hrm: MachineObject, k: Key) returns (r: Option<Host>)
      requires Valid()
      modifies this`hosts, this`machines, this`next, this`failed
      ensures Valid() && Rely(hrm.key, hrm.hostRef, old(hosts), old(next), hosts, next)
      ensures r.Some? ==> k in hosts && hosts[k] == r.value
      ensures r.None? ==> failed || k !in hosts
      ensures old(failed) ==> failed
    {
      Interfere(hrm);
      if * {
        failed := true;
        return None;
      }
      r := if k in hosts then Some(hosts[k]) else None;
    }

    method GetMachine(hrm: MachineObject, k: Key) returns (r: Lookup)
      requires Valid()
      modifies this`hosts, this`machines, this`next, this`failed
      ensures Valid() && Rely(hrm.key, hrm.hostRef, old(hosts), old(next), hosts, next)
      ensures r == Found ==> k in machines
      ensures r == LookupFailed ==> failed
      ensures old(failed) ==> failed
      ensures r == NotFound ==> k !in machines
    {
      Interfere(hrm);
      if * {
        failed := true;
        return LookupFailed;
      }
      r := if k in machines then Found else NotFound;
    }

    method ListHosts(hrm: MachineObject, ns: string, selector: Labels) returns (r: Option<seq<Host>>)
      requires Valid()
      modifies this`hosts, this`machines, this`next, this`failed
      ensures Valid() && Rely(hrm.key, hrm.hostRef, old(hosts), old(next), hosts, next)
      ensures r.Some? ==> IsListing(hosts, ns, selector, r.value)
      ensures r.None? ==> failed
      ensures old(failed) ==> failed
    {
      Interfere(hrm);
      if * {
        failed := true;
        return None;
      }
      var list := Listing(hosts, ns, selector);
      r := Some(list);
    }

    // Patch: compare-and-swap on the version the copy was read at. `before` is the store at
    // the moment the patch arrives.
    method PatchHost(hrm: MachineObject, copy: Host, patched: Host)
      returns (ok: bool, ghost before: map<Key, Host>)
      requires Valid() && patched.key == copy.key
      modifies this
      ensures next >= old(next)
      ensures old(failed) ==> failed
      ensures !ok ==> failed && Valid() && writes == old(writes)
                      && Rely(hrm.key, hrm.hostRef, old(hosts), old(next), hosts, next)
      ensures ok ==> next > 0
                      && HostsOk(before, next - 1, catalog)
                      && Rely(hrm.key, hrm.hostRef, old(hosts), old(next), before, next - 1)
                      && copy.key in before && before[copy.key].version == copy.version
                      && hosts == before[copy.key := patched.(version := next - 1)]
                      && writes == old(writes) + [(before[copy.key], hosts[copy.key])]
                      && (Valid() <==> HostOk(hosts[copy.key], copy.key, next, catalog))
    {
      Interfere(hrm);
      before := hosts;
      if * {
        failed := true;
        return false, before;
      }
      if copy.key !in hosts || hosts[copy.key].version != copy.version {
        failed := true;
        return false, before;
      }
      writes := writes + [(hosts[copy.key], patched.(version := next))];
      hosts := hosts[copy.key := patched.(version := next)];
      next := next + 1;
      ok := true;
    }
  }

  // ---- Loops over listings ----

  method FindClaimed(list: seq<Host>, m: Key) returns (r: Option<Host>)
    ensures r == FirstClaimed(list, m)
  {
    for i := 0 to |list|
      invariant FirstClaimed(list, m) == FirstClaimed(list[i..], m)
    {
      if ClaimedBy(list[i], m) {
        return Some(list[i]);
      }
      assert list[i..][1..] == list[i + 1..];
    }
    r := None;
  }

  method FindClaimable(list: seq<Host>) returns (r: Option<Host>)
    ensures r == FirstClaimable(list)
  {
    for i := 0 to |list|
      invariant FirstClaimable(list) == FirstClaimable(list[i..])
    {
      if list[i].state == Available && !list[i].maintenance {
        return Some(list[i]);
      }
      assert list[i..][1..] == list[i + 1..];
    }
    r := None;
  }

  // ---- What a reconcile may assume about its own machine when it starts ----

  // The host is one this machine's spec can lead to.
  ghost predicate Fits(m: Key, directHost: string, selector: Option<Labels>, k: Key, labels: Labels) {
    && k.ns == m.ns
    && (directHost != "" ==> k.name == directHost)
    && (directHost == "" && selector.Some? ==> Matches(selector.value, labels))
  }

  ghost predicate OwnsOnlyFitting(c: Cluster, hrm: MachineObject)
    reads c, hrm
    requires c.Valid()
  {
    forall k | OwnedBy(c.hosts, k, hrm.key) :: Fits(hrm.key, hrm.directHost, hrm.selector, k, c.catalog[k])
  }

  ghost predicate OwnsAtMostOne(c: Cluster, hrm: MachineObject)
    reads c, hrm
  {
    forall k, l | OwnedBy(c.hosts, k, hrm.key) && OwnedBy(c.hosts, l, hrm.key) :: k == l
  }

  ghost predicate RecordedIsOwned(c: Cluster, hrm: MachineObject)
    reads c, hrm
  {
    hrm.hostRef != "" && HostKey(hrm.key, hrm.hostRef) in c.hosts ==>
      OwnedBy(c.hosts, HostKey(hrm.key, hrm.hostRef), hrm.key)
  }

  // The recorded host is one the spec can lead to, and the machine owns no other.
  ghost predicate RecordedFits(c: Cluster, hrm: MachineObject)
    reads c, hrm
    requires c.Valid()
  {
    var k := HostKey(hrm.key, hrm.hostRef);
    hrm.hostRef != "" && k in c.hosts ==>
      && Fits(hrm.key, hrm.directHost, hrm.selector, k, c.catalog[k])
      && forall l | OwnedBy(c.hosts, l, hrm.key) :: l == k
  }

  ghost predicate Consistent(c: Cluster, hrm: MachineObject)
    reads c, hrm
  {
    c.Valid() && OwnsOnlyFitting(c, hrm) && OwnsAtMostOne(c, hrm) && RecordedFits(c, hrm)
  }

  // Every host the machine owns is the physical server its provider ID names. Holds for
  // machines that are Provisioned without a recorded host.
  ghost predicate OwnsOnlyServer(c: Cluster, hrm: MachineObject)
    reads c, hrm
  {
    forall k | OwnedBy(c.hosts, k, hrm.key) :: ServerID(hrm.providerID) == Some(c.hosts[k].serverID)
  }

  // Reading keeps the record consistent, whatever others do in between.
  method FetchHost(c: Cluster, hrm: MachineObject, name: string) returns (r: Option<Host>)
    requires c.Valid()
    modifies c`hosts, c`machines, c`next, c`failed
    ensures c.Valid() && (old(Consistent(c, hrm)) ==> Consistent(c, hrm))
    ensures Rely(hrm.key, hrm.hostRef, old(c.hosts), old(c.next), c.hosts, c.next)
    ensures old(OwnsOnlyServer(c, hrm)) ==> OwnsOnlyServer(c, hrm)
    ensures var k := HostKey(hrm.key, name); r.Some? ==> k in c.hosts && c.hosts[k] == r.value
    ensures r.None? ==> c.failed || HostKey(hrm.key, name) !in c.hosts
    ensures old(c.failed) ==> c.failed
  {
    hide ServerID, Fits;
    r := c.GetHost(hrm, HostKey(hrm.key, name));
  }

  method FetchList(c: Cluster, hrm: MachineObject, selector: Labels) returns (r: Option<seq<Host>>)
    requires c.Valid()
    modifies c`hosts, c`machines, c`next, c`failed
    ensures c.Valid() && (old(Consistent(c, hrm)) ==> Consistent(c, hrm))
    ensures Rely(hrm.key, hrm.hostRef, old(c.hosts), old(c.next), c.hosts, c.next)
    ensures old(OwnsOnlyServer(c, hrm)) ==> OwnsOnlyServer(c, hrm)
    ensures r.Some? ==> IsListing(c.hosts, hrm.key.ns, selector, r.value)
    ensures r.None? ==> c.failed
    ensures old(c.failed) ==> c.failed
  {
    hide ServerID, Fits;
    r := c.ListHosts(hrm, hrm.key.ns, selector);
  }

  // What the patches store, field by field; everything not named stays as it was read.
  predicate OwnerWritten(m: Key, b: Host, a: Host) {
    a == b.(consumerRef := Some(m), machineRef := Some(m), version := a.version)
  }

  predicate ClaimWritten(m: Key, b: Host, a: Host) {
    a == b.(state := Claimed, consumerRef := Some(m), machineRef := Some(m), dirtyReason := "", version := a.version)
  }

  predicate AdoptionWritten(m: Key, b: Host, a: Host) {
    a == b.(state := HostProvisioned, consumerRef := Some(m), machineRef := Some(m), dirtyReason := "", errorMessage := "",
            version := a.version)
  }

  predicate ConfirmationWritten(m: Key, b: Host, a: Host) {
    a == b.(state := HostProvisioned, consumerRef := Some(m), machineRef := Some(m), errorMessage := "",
            version := a.version)
  }

  predicate ReleaseWritten(b: Host, a: Host) {
    a == b.(state := Available, consumerRef := None, machineRef := None,
            lastConsumerRef := if b.consumerRef.Some? then b.consumerRef else b.machineRef,
            dirtyReason := "ReleasedAfterMachineDelete", errorMessage := "", version := a.version)
  }

  // Exactly one more patch was accepted, and the store still holds what it wrote.
  ghost predicate OneMoreWrite(before: seq<(Host, Host)>, after: seq<(Host, Host)>, hosts: map<Key, Host>) {
    && |after| == |before| + 1
    && after[..|before|] == before
    && (var (b, a) := after[|before|]; a.key == b.key && b.key in hosts && hosts[b.key] == a)
  }

  // A patch resolveHost may send: repairing the references of its own host, or of the recorded
  // host when that names nobody, or claiming a host that is Available, not in maintenance and
  // unowned at the version patched.
  ghost predicate LegalClaimWrite(m: Key, recorded: string, w: (Host, Host)) {
    || ((Owner(w.0) == Some(m) || (Owner(w.0).None? && recorded != "" && w.0.key == HostKey(m, recorded)))
        && OwnerWritten(m, w.0, w.1))
    || (recorded == "" && w.0.state == Available && !w.0.maintenance && Owner(w.0).None? && ClaimWritten(m, w.0, w.1))
  }

  // Why resolveHost may fail although every call succeeded: the recorded host is gone or names
  // another machine, the spec names no hosts, no matching host is claimable, or the one that
  // was chosen is not.
  ghost predicate NothingToResolve(c: Cluster, hrm: MachineObject)
    reads c, hrm
  {
    || (hrm.hostRef != "" && HostKey(hrm.key, hrm.hostRef) !in c.hosts)
    || (hrm.hostRef != "" && Foreign(c.hosts[HostKey(hrm.key, hrm.hostRef)], hrm.key))
    || (hrm.directHost == "" && hrm.selector.None?)
    || (hrm.directHost == "" && hrm.selector.Some?
        && forall k | k in c.hosts && k.ns == hrm.key.ns && Matches(hrm.selector.value, c.hosts[k].labels) :: !Claimable(c.hosts[k]))
    || (hrm.directHost != "" && Unclaimable(c, HostKey(hrm.key, hrm.directHost)))
    || (hrm.directHost == "" && exists k | k in c.catalog ::
          Fits(hrm.key, hrm.directHost, hrm.selector, k, c.catalog[k]) && Unclaimable(c, k))
  }

  predicate Foreign(h: Host, m: Key) { Owner(h).Some? && Owner(h) != Some(m) }

  ghost predicate Unclaimable(c: Cluster, k: Key)
    reads c
  {
    k !in c.hosts || !Claimable(c.hosts[k])
  }

  ghost predicate OnlyLegalWrites(m: Key, recorded: string, before: seq<(Host, Host)>, after: seq<(Host, Host)>) {
    || after == before
    || (|after| == |before| + 1 && after[..|before|] == before && LegalClaimWrite(m, recorded, after[|before|]))
  }

  // ---- ensureHostConsumerRef ----

  // The backfill gives an owner to a host that stays claimable.
  predicate BackfillsFree(h: Host) { Owner(h).None? && h.state in {Unset, Available} }

  // A host that names nobody is backfilled as well. The store keeps its rule that free hosts
  // have no owner exactly if that host was in use.
  method EnsureHostConsumerRef(c: Cluster, hrm: MachineObject, h: Host) returns (r: Result<Host>)
    requires c.Valid() && h.key in c.hosts && c.hosts[h.key] == h
    modifies c
    ensures c.Valid() <==> !(r.Ok? && BackfillsFree(h))
    ensures Foreign(h, hrm.key) ==> r.Err? && c.hosts == old(c.hosts) && c.writes == old(c.writes)
    ensures old(c.failed) ==> c.failed
    ensures r.Err? ==> c.failed || Foreign(h, hrm.key)
    ensures r.Ok? ==> h.key in c.hosts && c.hosts[h.key] == r.value && r.value.key == h.key
                      && r.value.consumerRef == r.value.machineRef == Some(hrm.key)
    ensures r.Err? || Owner(h) == Some(hrm.key) ==>
              Rely(hrm.key, hrm.hostRef, old(c.hosts), old(c.next), c.hosts, c.next)
    ensures forall k | OwnedBy(c.hosts, k, hrm.key) :: OwnedBy(old(c.hosts), k, hrm.key) || (r.Ok? && k == h.key)
    ensures r.Ok? ==> OwnerWritten(hrm.key, h, r.value)
    ensures c.writes == old(c.writes) || (r.Ok? && c.writes == old(c.writes) + [(h, r.value)])
  {
    match Ensure(h, hrm.key) {
      case Refuse(_) =>
        return Err("host is claimed by another machine");
      case AlreadyBoth =>
        return Ok(h);
      case Backfill =>
        hide HostsOk;
        var ok := PatchOwner(c, hrm, h);
        if !ok {
          return Err("backfill host consumerRef");
        }
        return Ok(c.hosts[h.key]);
    }
  }

  // The patch at the end of ensureHostConsumerRef.
  method PatchOwner(c: Cluster, hrm: MachineObject, h: Host) returns (ok: bool)
    requires c.Valid() && h.key in c.hosts && c.hosts[h.key] == h && !Foreign(h, hrm.key)
    modifies c
    ensures old(c.failed) ==> c.failed
    ensures c.Valid() <==> !(ok && BackfillsFree(h))
    ensures !ok ==> c.failed && c.writes == old(c.writes)
    ensures !ok || Owner(h) == Some(hrm.key) ==>
              Rely(hrm.key, hrm.hostRef, old(c.hosts), old(c.next), c.hosts, c.next)
    ensures ok ==> h.key in c.hosts && c.hosts[h.key] == WithOwner(h, hrm.key).(version := c.hosts[h.key].version)
                   && c.writes == old(c.writes) + [(h, c.hosts[h.key])]
    ensures forall k | OwnedBy(c.hosts, k, hrm.key) :: OwnedBy(old(c.hosts), k, hrm.key) || (ok && k == h.key)
  {
    hide HostOk, HostsOk;
    ghost var before;
    ok, before := c.PatchHost(hrm, h, WithOwner(h, hrm.key));
    hide Rely;
    if ok {
      ReadVersion(old(c.hosts), old(c.next), c.catalog, h, before, c.next - 1, hrm.key, hrm.hostRef);
      Backfilled(before, c.hosts, c.next, c.catalog, h, hrm.key);
      PatchedByMe(hrm.key, hrm.hostRef, old(c.hosts), old(c.next), before, c.next - 1, c.hosts, h.key);
    } else {
      RelyOwns(hrm.key, hrm.hostRef, old(c.hosts), old(c.next), c.hosts, c.next);
    }
  }

  // The stored host at the version that was read is the host that was read.
  lemma ReadVersion(hosts: map<Key, Host>, next: nat, catalog: map<Key, Labels>, h: Host,
                    before: map<Key, Host>, next': nat, m: Key, recorded: string)
    requires HostsOk(hosts, next, catalog) && h.key in hosts && hosts[h.key] == h
    requires Rely(m, recorded, hosts, next, before, next')
    requires h.key in before && before[h.key].version == h.version
    ensures before[h.key] == h
  {
    assert HostOk(h, h.key, next, catalog);
  }

  lemma RelyOwns(m: Key, recorded: string, hosts: map<Key, Host>, next: nat, hosts': map<Key, Host>, next': nat)
    requires Rely(m, recorded, hosts, next, hosts', next')
    ensures forall k | OwnedBy(hosts', k, m) :: OwnedBy(hosts, k, m)
  {
  }

  // A write that gives m a host; if m owned it already, nobody could tell the difference.
  lemma PatchedByMe(m: Key, recorded: string, hosts: map<Key, Host>, next: nat, before: map<Key, Host>, next': nat,
                    after: map<Key, Host>, k: Key)
    requires Rely(m, recorded, hosts, next, before, next') && k in hosts && k in before && before[k] == hosts[k]
    requires k in after && after == before[k := after[k]] && after[k].version == next' && Owner(after[k]) == Some(m)
    requires SameIdentity(after[k], before[k]) && after[k].finalizer == before[k].finalizer
    ensures Owner(before[k]) == Some(m) ==> Rely(m, recorded, hosts, next, after, next' + 1)
    ensures forall l | OwnedBy(after, l, m) :: OwnedBy(hosts, l, m) || l == k
  {
  }

  lemma Backfilled(before: map<Key, Host>, after: map<Key, Host>, next: nat, catalog: map<Key, Labels>, h: Host, m: Key)
    requires next > 0 && HostsOk(before, next - 1, catalog) && h.key in before && before[h.key] == h
    requires after == before[h.key := WithOwner(h, m).(version := next - 1)]
    requires !Foreign(h, m)
    ensures HostOk(after[h.key], h.key, next, catalog) <==> !BackfillsFree(h)
  {
    assert HostOk(h, h.key, next - 1, catalog);
    hide HostsOk;
  }

  // ---- resolveHost ----

  datatype Pick = Mine(host: Host) | Candidate(name: string) | NoPick(reason: string)

  lemma NotListedNotOwned(c: Cluster, hrm: MachineObject, list: seq<Host>)
    requires Consistent(c, hrm) && hrm.directHost == "" && hrm.selector.Some?
    requires IsListing(c.hosts, hrm.key.ns, hrm.selector.value, list) && FirstClaimed(list, hrm.key).None?
    ensures forall k :: !OwnedBy(c.hosts, k, hrm.key)
  {
    hide Matches;
    forall k | k in c.hosts && Fits(hrm.key, hrm.directHost, hrm.selector, k, c.catalog[k])
      ensures !OwnedBy(c.hosts, k, hrm.key)
    {
      assert HostOk(c.hosts[k], k, c.next, c.catalog);
      assert c.hosts[k] in list;
    }
  }

  method PickDirect(c: Cluster, hrm: MachineObject) returns (r: Pick)
    requires c.Valid() && hrm.hostRef == "" && hrm.directHost != ""
    modifies c`hosts, c`machines, c`next, c`failed
    ensures old(c.failed) ==> c.failed
    ensures r.NoPick? ==> c.failed || NothingToResolve(c, hrm)
    ensures c.Valid() && (old(Consistent(c, hrm)) ==> Consistent(c, hrm))
    ensures Rely(hrm.key, "", old(c.hosts), old(c.next), c.hosts, c.next)
    ensures r.Mine? ==> OwnedBy(c.hosts, r.host.key, hrm.key) && c.hosts[r.host.key] == r.host && r.host.key.ns == hrm.key.ns
    ensures r.Candidate? && Consistent(c, hrm) ==> forall k :: !OwnedBy(c.hosts, k, hrm.key)
    ensures r.Candidate? ==>
              var k := HostKey(hrm.key, r.name);
              k in c.catalog ==> Fits(hrm.key, hrm.directHost, hrm.selector, k, c.catalog[k])
    ensures r.Candidate? && hrm.directHost != "" ==> r.name == hrm.directHost
  {
    var got := FetchHost(c, hrm, hrm.directHost);
    if got.None? {
      return NoPick("get host");
    }
    if ClaimedBy(got.value, hrm.key) {
      return Mine(got.value);
    }
    if got.value.maintenance {
      return NoPick("host is in maintenanceMode and cannot be claimed");
    }
    return Candidate(hrm.directHost);
  }

  method PickSelected(c: Cluster, hrm: MachineObject) returns (r: Pick)
    requires c.Valid() && hrm.hostRef == "" && hrm.directHost == "" && hrm.selector.Some?
    modifies c`hosts, c`machines, c`next, c`failed
    ensures old(c.failed) ==> c.failed
    ensures r.NoPick? ==> c.failed || NothingToResolve(c, hrm)
    ensures c.Valid() && (old(Consistent(c, hrm)) ==> Consistent(c, hrm))
    ensures Rely(hrm.key, "", old(c.hosts), old(c.next), c.hosts, c.next)
    ensures r.Mine? ==> OwnedBy(c.hosts, r.host.key, hrm.key) && c.hosts[r.host.key] == r.host && r.host.key.ns == hrm.key.ns
    ensures r.Candidate? && Consistent(c, hrm) ==> forall k :: !OwnedBy(c.hosts, k, hrm.key)
    ensures r.Candidate? ==>
              var k := HostKey(hrm.key, r.name);
              k in c.catalog ==> Fits(hrm.key, hrm.directHost, hrm.selector, k, c.catalog[k])
    ensures r.Candidate? ==> HostKey(hrm.key, r.name) in c.catalog
  {
    hide Fits, Matches, IsListing, NothingToResolve, ClaimedBy, Claimable, Consistent, Rely, HostsOk;
    var listed := FetchList(c, hrm, hrm.selector.value);
    if listed.None? {
      return NoPick("list hosts by selector");
    }
    var mine := FindClaimed(listed.value, hrm.key);
    if mine.Some? {
      ListedFits(c, hrm, listed.value, mine.value);
      ClaimedIsMine(c, hrm, mine.value);
      return Mine(mine.value);
    }
    if Consistent(c, hrm) {
      NotListedNotOwned(c, hrm, listed.value);
    }
    var free := FindClaimable(listed.value);
    if free.None? {
      NoneClaimable(c, hrm, listed.value);
      return NoPick("no non-maintenance Available HetznerRobotHost found matching selector");
    }
    ListedFits(c, hrm, listed.value, free.value);
    return Candidate(free.value.key.name);
  }

  lemma ListedFits(c: Cluster, hrm: MachineObject, list: seq<Host>, h: Host)
    requires c.Valid() && hrm.directHost == "" && hrm.selector.Some? && h in list
    requires IsListing(c.hosts, hrm.key.ns, hrm.selector.value, list)
    ensures h.key in c.hosts && c.hosts[h.key] == h && h.key == HostKey(hrm.key, h.key.name) && h.key in c.catalog
    ensures Fits(hrm.key, hrm.directHost, hrm.selector, h.key, c.catalog[h.key])
  {
    assert HostOk(c.hosts[h.key], h.key, c.next, c.catalog);
    hide Matches;
  }

  lemma ClaimedIsMine(c: Cluster, hrm: MachineObject, h: Host)
    requires c.Valid() && h.key in c.hosts && c.hosts[h.key] == h && ClaimedBy(h, hrm.key)
    ensures OwnedBy(c.hosts, h.key, hrm.key)
  {
    assert HostOk(h, h.key, c.next, c.catalog);
  }

  lemma NoneClaimable(c: Cluster, hrm: MachineObject, list: seq<Host>)
    requires hrm.directHost == "" && hrm.selector.Some? && FirstClaimable(list).None?
    requires IsListing(c.hosts, hrm.key.ns, hrm.selector.value, list)
    ensures NothingToResolve(c, hrm)
  {
    hide Matches, Claimable, Fits;
  }

  // The first half of resolveHost for a machine without a recorded host: look for a claim of
  // our own that was never recorded, otherwise choose whom to ask.
  method PickHost(c: Cluster, hrm: MachineObject) returns (r: Pick)
    requires c.Valid() && hrm.hostRef == ""
    modifies c`hosts, c`machines, c`next, c`failed
    ensures old(c.failed) ==> c.failed
    ensures r.NoPick? ==> c.failed || NothingToResolve(c, hrm)
    ensures c.Valid() && (old(Consistent(c, hrm)) ==> Consistent(c, hrm))
    ensures Rely(hrm.key, "", old(c.hosts), old(c.next), c.hosts, c.next)
    ensures r.Mine? ==> OwnedBy(c.hosts, r.host.key, hrm.key) && c.hosts[r.host.key] == r.host && r.host.key.ns == hrm.key.ns
    ensures r.Candidate? && Consistent(c, hrm) ==> forall k :: !OwnedBy(c.hosts, k, hrm.key)
    ensures r.Candidate? ==>
              var k := HostKey(hrm.key, r.name);
              k in c.catalog ==> Fits(hrm.key, hrm.directHost, hrm.selector, k, c.catalog[k])
    ensures r.Candidate? && hrm.directHost != "" ==> r.name == hrm.directHost
    ensures r.Candidate? && hrm.directHost == "" ==> HostKey(hrm.key, r.name) in c.catalog
  {
    if hrm.directHost != "" {
      r := PickDirect(c, hrm);
    } else if hrm.selector.Some? {
      r := PickSelected(c, hrm);
    } else {
      r := NoPick("HetznerRobotMachine must specify either spec.hostRef or spec.hostSelector");
    }
  }

  // The second half: fetch the candidate again and claim it.
  method ClaimCandidate(c: Cluster, hrm: MachineObject, candidate: string) returns (r: Result<Host>)
    requires c.Valid() && hrm.hostRef == ""
    modifies c, hrm
    ensures c.Valid()
    ensures old(c.failed) ==> c.failed
    ensures forall k | OwnedBy(c.hosts, k, hrm.key) ::
              OwnedBy(old(c.hosts), k, hrm.key) || (r.Ok? && k == HostKey(hrm.key, candidate))
    ensures r.Err? ==> hrm.hostRef == ""
    ensures r.Err? ==> c.failed || HostKey(hrm.key, candidate) !in c.hosts || !Claimable(c.hosts[HostKey(hrm.key, candidate)])
    ensures r.Ok? ==> hrm.hostRef == candidate && r.value.key == HostKey(hrm.key, candidate)
                      && OwnedBy(c.hosts, r.value.key, hrm.key) && c.hosts[r.value.key] == r.value
    ensures r.Err? ==> c.writes == old(c.writes)
    // the host as it was read, and what is stored now
    ensures r.Ok? ==> OneMoreWrite(old(c.writes), c.writes, c.hosts)
                      && (var (b, a) := c.writes[|old(c.writes)|];
                          && b.state == Available && !b.maintenance && Owner(b).None?
                          && a == r.value && ClaimWritten(hrm.key, b, a))
  {
    var me := hrm.key;
    var got := c.GetHost(hrm, HostKey(me, candidate));
    if got.None? {
      return Err("get candidate host");
    }
    var h := got.value;
    if h.state != Available {
      return Err("host is not Available");
    }
    if h.maintenance {
      return Err("host is in maintenanceMode and cannot be claimed");
    }
    var ok, before := c.PatchHost(hrm, h, ClaimWrite(h, me));
    if !ok {
      return Err("claim host");
    }
    assert before[h.key] == h;
    assert HostOk(h, h.key, c.next - 1, c.catalog);
    hrm.hostRef := candidate;
    return Ok(c.hosts[h.key]);
  }

  // Success means: the status records a host this machine owns. If the claims were consistent
  // and the machine already owned a protected host, that is the host returned (claim
  // recovery), and it owns no other.
  method ResolveHost(c: Cluster, hrm: MachineObject) returns (r: Result<Host>)
    requires c.Valid()
    modifies c, hrm
    ensures c.Valid() || (r.Ok? && old(hrm.hostRef) != "" && r.value.state in {Unset, Available})
    ensures old(Consistent(c, hrm)) && c.Valid() ==> Consistent(c, hrm)
    ensures r.Ok? ==> hrm.hostRef == r.value.key.name && r.value.key.ns == hrm.key.ns
                      && OwnedBy(c.hosts, r.value.key, hrm.key) && c.hosts[r.value.key] == r.value
    ensures r.Ok? && old(Consistent(c, hrm)) ==>
              forall k | OwnedBy(old(c.hosts), k, hrm.key) && old(c.hosts)[k].finalizer :: k == r.value.key
    ensures forall k | OwnedBy(c.hosts, k, hrm.key) :: OwnedBy(old(c.hosts), k, hrm.key) || (r.Ok? && k == r.value.key)
    ensures r.Err? ==> c.failed || NothingToResolve(c, hrm)
    ensures old(hrm.hostRef) != "" ==> hrm.hostRef == old(hrm.hostRef)
    ensures OnlyLegalWrites(hrm.key, old(hrm.hostRef), old(c.writes), c.writes)
  {
    if hrm.hostRef != "" {
      r := ResolveRecorded(c, hrm);
    } else {
      r := ResolveNew(c, hrm);
    }
  }

  method ResolveRecorded(c: Cluster, hrm: MachineObject) returns (r: Result<Host>)
    requires c.Valid() && hrm.hostRef != ""
    modifies c
    ensures c.Valid() || (r.Ok? && r.value.state in {Unset, Available})
    ensures old(Consistent(c, hrm)) && c.Valid() ==> Consistent(c, hrm)
    ensures r.Ok? ==> r.value.key == HostKey(hrm.key, hrm.hostRef)
                      && OwnedBy(c.hosts, r.value.key, hrm.key) && c.hosts[r.value.key] == r.value
    ensures r.Ok? && old(Consistent(c, hrm)) ==> forall k | OwnedBy(old(c.hosts), k, hrm.key) :: k == r.value.key
    ensures forall k | OwnedBy(c.hosts, k, hrm.key) :: OwnedBy(old(c.hosts), k, hrm.key) || (r.Ok? && k == r.value.key)
    ensures r.Err? ==> c.failed || NothingToResolve(c, hrm)
    ensures OnlyLegalWrites(hrm.key, old(hrm.hostRef), old(c.writes), c.writes)
  {
    hide Fits;
    var got := FetchHost(c, hrm, hrm.hostRef);
    if got.None? {
      return Err("get claimed host");
    }
    r := EnsureHostConsumerRef(c, hrm, got.value);
  }

  method ResolveNew(c: Cluster, hrm: MachineObject) returns (r: Result<Host>)
    requires c.Valid() && hrm.hostRef == ""
    modifies c, hrm
    ensures c.Valid()
    ensures old(Consistent(c, hrm)) ==> Consistent(c, hrm)
    ensures r.Ok? ==> hrm.hostRef == r.value.key.name && r.value.key.ns == hrm.key.ns
                      && OwnedBy(c.hosts, r.value.key, hrm.key) && c.hosts[r.value.key] == r.value
    ensures r.Ok? && old(Consistent(c, hrm)) ==>
              forall k | OwnedBy(old(c.hosts), k, hrm.key) && old(c.hosts)[k].finalizer :: k == r.value.key
    ensures forall k | OwnedBy(c.hosts, k, hrm.key) :: OwnedBy(old(c.hosts), k, hrm.key) || (r.Ok? && k == r.value.key)
    ensures r.Err? ==> c.failed || NothingToResolve(c, hrm)
    ensures OnlyLegalWrites(hrm.key, old(hrm.hostRef), old(c.writes), c.writes)
  {
    var pick := PickHost(c, hrm);
    match pick {
      case NoPick(reason) =>
        return Err(reason);
      case Mine(h) =>
        hrm.hostRef := h.key.name;
        assert h.key == HostKey(hrm.key, hrm.hostRef);
        r := EnsureHostConsumerRef(c, hrm, h);
      case Candidate(name) =>
        r := ClaimCandidate(c, hrm, name);
    }
  }

  // ---- Adoption of provisioned machines ----

  // A patch that adopts or confirms: the previous owner is nobody, this machine, or a legacy
  // reference to a machine some Get reported missing, on the server the provider ID names.
  ghost predicate LegalOwnerRewrite(m: Key, providerID: Option<string>, missing: set<Key>, b: Host) {
    || Owner(b).None?
    || Owner(b) == Some(m)
    || (b.consumerRef.None? && LegacyKey(b) in missing && ServerID(providerID) == Some(b.serverID))
  }

  // Another machine owns the host, and nothing allows to take it from there.
  predicate HeldByOther(m: Key, providerID: Option<string>, machines: set<Key>, h: Host) {
    && Foreign(h, m)
    && (h.consumerRef.Some? || ServerID(providerID) != Some(h.serverID) || LegacyKey(h) in machines)
  }

  method BlockingHostOwnerRef(c: Cluster, hrm: MachineObject, h: Host)
    returns (r: Result<Option<Key>>, ghost missing: set<Key>)
    requires c.Valid()
    modifies c`hosts, c`machines, c`next, c`failed
    ensures c.Valid() && Rely(hrm.key, hrm.hostRef, old(c.hosts), old(c.next), c.hosts, c.next)
    ensures r.Ok? ==> (r.value.None? <==> LegalOwnerRewrite(hrm.key, hrm.providerID, missing, h))
    ensures r.Ok? && r.value.Some? ==> r.value == Owner(h) && HeldByOther(hrm.key, hrm.providerID, c.machines, h)
    ensures r.Err? ==> c.failed
    ensures Owner(h).None? || Owner(h) == Some(hrm.key) ==> r == Ok(None) && c.hosts == old(c.hosts)
    ensures old(c.failed) ==> c.failed
    ensures missing == {} || (h.machineRef.Some? && missing == {LegacyKey(h)} && LegacyKey(h) !in c.machines)
  {
    missing := {};
    if h.consumerRef.Some? {
      if h.consumerRef == Some(hrm.key) {
        return Ok(None), missing;
      }
      return Ok(h.consumerRef), missing;
    }
    if h.machineRef.None? || h.machineRef == Some(hrm.key) {
      return Ok(None), missing;
    }
    if ServerID(hrm.providerID) != Some(h.serverID) {
      return Ok(h.machineRef), missing;
    }
    var lookup := c.GetMachine(hrm, LegacyKey(h));
    match lookup {
      case NotFound =>
        missing := {LegacyKey(h)};
        return Ok(None), missing;
      case LookupFailed =>
        return Err("get legacy host owner"), missing;
      case Found =>
        return Ok(h.machineRef), missing;
    }
  }

  lemma WithServerIDFrom(list: seq<Host>, id: int, i: nat)
    requires i < |list|
    ensures WithServerID(list[i..], id) ==
            (if list[i].serverID == id then [list[i]] else []) + WithServerID(list[i + 1..], id)
  {
    assert list[i..][1..] == list[i + 1..];
  }

  method FilterByServerID(list: seq<Host>, id: int) returns (matches: seq<Host>)
    ensures matches == WithServerID(list, id)
  {
    hide WithServerID;
    matches := [];
    assert list[0..] == list;
    for i := 0 to |list|
      invariant WithServerID(list, id) == matches + WithServerID(list[i..], id)
    {
      WithServerIDFrom(list, id, i);
      if list[i].serverID == id {
        assert matches + ([list[i]] + WithServerID(list[i + 1..], id)) == matches + [list[i]] + WithServerID(list[i + 1..], id);
        matches := matches + [list[i]];
      }
    }
    NoneWithServerID(list[|list|..], id);
  }

  lemma NoneWithServerID(list: seq<Host>, id: int)
    ensures list == [] ==> WithServerID(list, id) == []
  {
  }

  ghost predicate OnServer(c: Cluster, hrm: MachineObject, k: Key, id: int)
    reads c, hrm
  {
    && k in c.hosts && k.ns == hrm.key.ns && hrm.selector.Some? && Matches(hrm.selector.value, c.hosts[k].labels)
    && c.hosts[k].serverID == id
  }

  // The spec leads to no host for an adoption, or to no definite one.
  ghost predicate NothingToAdopt(c: Cluster, hrm: MachineObject, id: int)
    reads c, hrm
  {
    if hrm.directHost != "" then HostKey(hrm.key, hrm.directHost) !in c.hosts
    else
      || hrm.selector.None?
      || (forall k :: !OnServer(c, hrm, k, id))
      || (exists k, l :: k != l && OnServer(c, hrm, k, id) && OnServer(c, hrm, l, id))
  }

  lemma {:induction false} TwoWithServerID(list: seq<Host>, id: int) returns (i: nat, j: nat)
    requires |WithServerID(list, id)| >= 2
    ensures i < j < |list| && list[i].serverID == list[j].serverID == id
  {
    if |WithServerID(list[1..], id)| >= 2 {
      hide WithServerID;
      var n, l := TwoWithServerID(list[1..], id);
      i, j := n + 1, l + 1;
    } else {
      j := OneWithServerID(list[1..], id);
      i, j := 0, j + 1;
    }
  }

  lemma OneWithServerID(list: seq<Host>, id: int) returns (j: nat)
    requires WithServerID(list, id) != []
    ensures j < |list| && list[j].serverID == id
  {
    var h := WithServerID(list, id)[0];
    assert h in WithServerID(list, id);
    hide WithServerID;
    j :| 0 <= j < |list| && list[j] == h;
  }

  // The host found is the only one this machine can already own.
  method ResolveProvisionedAdoptionHost(c: Cluster, hrm: MachineObject, id: int) returns (r: Result<Host>)
    requires Consistent(c, hrm) && OwnsOnlyServer(c, hrm) && hrm.hostRef == ""
    requires ServerID(hrm.providerID) == Some(id)
    modifies c`hosts, c`machines, c`next, c`failed
    ensures Consistent(c, hrm) && OwnsOnlyServer(c, hrm) && (old(c.failed) ==> c.failed)
    ensures r.Err? ==> c.failed || NothingToAdopt(c, hrm, id)
    ensures r.Ok? ==> r.value.key in c.hosts && c.hosts[r.value.key] == r.value && r.value.key.ns == hrm.key.ns
                      && Fits(hrm.key, hrm.directHost, hrm.selector, r.value.key, r.value.labels)
                      && forall k | OwnedBy(c.hosts, k, hrm.key) :: k == r.value.key
    // through a selector, no other matching host is on the same server
    ensures r.Ok? && hrm.directHost == "" ==> forall k :: OnServer(c, hrm, k, id) <==> k == r.value.key
  {
    hide ServerID, Matches;
    if hrm.directHost != "" {
      var got := FetchHost(c, hrm, hrm.directHost);
      if got.None? {
        return Err("get hostRef for provisioned adoption");
      }
      return Ok(got.value);
    }
    if hrm.selector.None? {
      return Err("spec.hostRef or spec.hostSelector is required to backfill provisioned host ownership");
    }
    r := AdoptListed(c, hrm, id);
    if r.Ok? {
      OnServerFits(c, hrm, r.value.key, id);
    }
  }

  lemma OnServerFits(c: Cluster, hrm: MachineObject, k: Key, id: int)
    requires Consistent(c, hrm) && OwnsOnlyServer(c, hrm) && ServerID(hrm.providerID) == Some(id)
    requires hrm.directHost == "" && forall l :: OnServer(c, hrm, l, id) <==> l == k
    ensures k in c.hosts && Fits(hrm.key, hrm.directHost, hrm.selector, k, c.hosts[k].labels)
    ensures forall l | OwnedBy(c.hosts, l, hrm.key) :: l == k
  {
    hide ServerID, Matches, RecordedFits;
    assert OnServer(c, hrm, k, id);
    forall l | OwnedBy(c.hosts, l, hrm.key) ensures l == k {
      assert HostOk(c.hosts[l], l, c.next, c.catalog);
      assert OnServer(c, hrm, l, id);
    }
  }

  method AdoptListed(c: Cluster, hrm: MachineObject, id: int) returns (r: Result<Host>)
    requires Consistent(c, hrm) && OwnsOnlyServer(c, hrm) && hrm.hostRef == "" && hrm.directHost == ""
    requires ServerID(hrm.providerID) == Some(id) && hrm.selector.Some?
    modifies c`hosts, c`machines, c`next, c`failed
    ensures Consistent(c, hrm) && OwnsOnlyServer(c, hrm) && (old(c.failed) ==> c.failed)
    ensures r.Err? ==> c.failed || NothingToAdopt(c, hrm, id)
    ensures r.Ok? ==> r.value.key in c.hosts && c.hosts[r.value.key] == r.value
                      && forall k :: OnServer(c, hrm, k, id) <==> k == r.value.key
  {
    hide ServerID, Fits, Matches, IsListing, OnServer, WithServerID;
    var listed := FetchList(c, hrm, hrm.selector.value);
    if listed.None? {
      return Err("list hosts by selector for provisioned adoption");
    }
    var matches := FilterByServerID(listed.value, id);
    if |matches| == 0 {
      NoneOnServer(c, hrm, listed.value, id);
      return Err("no HetznerRobotHost matches providerID serverID");
    }
    if |matches| > 1 {
      TwoOnServer(c, hrm, listed.value, id);
      return Err("multiple HetznerRobotHosts match providerID serverID");
    }
    OneOnServer(c, hrm, listed.value, id);
    return Ok(matches[0]);
  }

  lemma NoneOnServer(c: Cluster, hrm: MachineObject, list: seq<Host>, id: int)
    requires hrm.selector.Some? && IsListing(c.hosts, hrm.key.ns, hrm.selector.value, list)
    requires WithServerID(list, id) == []
    ensures forall k :: !OnServer(c, hrm, k, id)
  {
    hide Matches;
    forall k | k in c.hosts && c.hosts[k] in list ensures c.hosts[k].serverID != id {
      assert c.hosts[k] !in WithServerID(list, id);
    }
  }

  lemma TwoOnServer(c: Cluster, hrm: MachineObject, list: seq<Host>, id: int)
    requires hrm.selector.Some? && IsListing(c.hosts, hrm.key.ns, hrm.selector.value, list)
    requires |WithServerID(list, id)| > 1
    ensures exists k, l :: k != l && OnServer(c, hrm, k, id) && OnServer(c, hrm, l, id)
  {
    var i, j := TwoWithServerID(list, id);
    assert list[i] in list && list[j] in list;
    assert OnServer(c, hrm, list[i].key, id) && OnServer(c, hrm, list[j].key, id);
  }

  lemma OneOnServer(c: Cluster, hrm: MachineObject, list: seq<Host>, id: int)
    requires c.Valid() && hrm.selector.Some? && IsListing(c.hosts, hrm.key.ns, hrm.selector.value, list)
    requires |WithServerID(list, id)| == 1
    ensures var h := WithServerID(list, id)[0];
            h.key in c.hosts && c.hosts[h.key] == h && forall k :: OnServer(c, hrm, k, id) <==> k == h.key
  {
    hide Matches;
    var h := WithServerID(list, id)[0];
    assert h in WithServerID(list, id);
    forall k | OnServer(c, hrm, k, id) ensures k == h.key {
      AdoptionIsUnambiguous(c.hosts, hrm.key.ns, hrm.selector.value, list, id, k);
      assert HostOk(c.hosts[k], k, c.next, c.catalog);
    }
  }

  ghost predicate LegalAdoption(m: Key, providerID: Option<string>, missing: set<Key>, w: (Host, Host)) {
    && AdoptionWritten(m, w.0, w.1)
    && !w.0.maintenance && w.0.state != Claimed
    && ServerID(providerID) == Some(w.0.serverID)
    && LegalOwnerRewrite(m, providerID, missing, w.0)
  }

  predicate NotAdoptable(m: Key, providerID: Option<string>, machines: set<Key>, h: Host) {
    h.maintenance || ServerID(providerID) != Some(h.serverID) || HeldByOther(m, providerID, machines, h) || h.state == Claimed
  }

  lemma OwnsOnlyThis(c: Cluster, hrm: MachineObject, k: Key)
    requires c.Valid() && (hrm.hostRef == "" || k == HostKey(hrm.key, hrm.hostRef))
    requires forall l | OwnedBy(c.hosts, l, hrm.key) :: l == k
    requires k in c.catalog && Fits(hrm.key, hrm.directHost, hrm.selector, k, c.catalog[k])
    ensures Consistent(c, hrm)
  {
    hide Fits;
  }

  // The patch at the end of backfillProvisionedHostClaim.
  method AdoptHost(c: Cluster, hrm: MachineObject, host: Host) returns (ok: bool)
    requires c.Valid() && hrm.hostRef == "" && OwnsOnlyFitting(c, hrm)
    requires HostOk(host, host.key, c.next, c.catalog)
    requires host.key in c.hosts && c.hosts[host.key].version == host.version ==> c.hosts[host.key] == host
    requires Fits(hrm.key, hrm.directHost, hrm.selector, host.key, host.labels)
    requires forall k | OwnedBy(c.hosts, k, hrm.key) :: k == host.key
    modifies c, hrm
    ensures Consistent(c, hrm) && (old(c.failed) ==> c.failed)
    ensures !ok ==> c.failed && hrm.hostRef == "" && c.writes == old(c.writes)
    ensures ok ==> hrm.hostRef == host.key.name && OneMoreWrite(old(c.writes), c.writes, c.hosts)
                   && c.writes[|old(c.writes)|].0 == host
                   && AdoptionWritten(hrm.key, host, c.hosts[host.key])
  {
    assert host.labels == c.catalog[host.key] && host.key.ns == hrm.key.ns;
    hide Fits, Consistent;
    ghost var before;
    ok, before := c.PatchHost(hrm, host, AdoptWrite(host, hrm.key));
    if ok {
      assert before[host.key] == host;
      assert forall k | OwnedBy(before, k, hrm.key) :: k == host.key;
      hrm.hostRef := host.key.name;
      OwnsOnlyThis(c, hrm, host.key);
    } else {
      assert forall k | OwnedBy(c.hosts, k, hrm.key) :: k == host.key;
      OwnsOnlyThis(c, hrm, host.key);
    }
  }

  // Err also stands for "pending": the caller logs it and tries again later. `seen` is the copy
  // of the host the spec led to.
  method BackfillProvisionedHostClaim(c: Cluster, hrm: MachineObject)
    returns (r: Result<bool>, ghost missing: set<Key>, ghost seen: Option<Host>)
    requires Consistent(c, hrm) && OwnsOnlyServer(c, hrm)
    modifies c, hrm
    ensures Consistent(c, hrm)
    ensures old(hrm.hostRef) != "" ==> r == Ok(false)
    ensures r != Ok(true) ==> hrm.hostRef == old(hrm.hostRef) && c.writes == old(c.writes)
    ensures r == Ok(true) ==> OneMoreWrite(old(c.writes), c.writes, c.hosts)
                              && c.writes[|old(c.writes)|].0.key == HostKey(hrm.key, hrm.hostRef)
                              && LegalAdoption(hrm.key, hrm.providerID, missing, c.writes[|old(c.writes)|])
    ensures r.Err? ==>
              || c.failed || ServerID(hrm.providerID).None? || NothingToAdopt(c, hrm, ServerID(hrm.providerID).value)
              || (seen.Some? && NotAdoptable(hrm.key, hrm.providerID, c.machines, seen.value))
  {
    hide ServerID, Fits, LegalOwnerRewrite, HeldByOther, NothingToAdopt;
    missing, seen := {}, None;
    if hrm.hostRef != "" {
      return Ok(false), missing, seen;
    }
    var id := ServerID(hrm.providerID);
    if id.None? {
      return Err("providerID is required to backfill provisioned host ownership"), missing, seen;
    }
    var resolved := ResolveProvisionedAdoptionHost(c, hrm, id.value);
    if resolved.Err? {
      return Err(resolved.reason), missing, seen;
    }
    var host := resolved.value;
    seen := Some(host);
    if host.maintenance {
      return Err("host is in maintenanceMode and cannot be adopted"), missing, seen;
    }
    if host.serverID != id.value {
      return Err("host serverID does not match HRM providerID"), missing, seen;
    }
    var ref;
    ref, missing := CheckOwner(c, hrm, host);
    if ref.Err? {
      return Err(ref.reason), missing, seen;
    }
    if ref.value.Some? {
      return Err("host is claimed by another machine"), missing, seen;
    }
    if host.state == Claimed {
      return Err("host is Claimed without consumerRef"), missing, seen;
    }
    var ok := AdoptHost(c, hrm, host);
    if !ok {
      return Err("backfill host provisioned ownership"), missing, seen;
    }
    return Ok(true), missing, seen;
  }

  // The patch at the end of ensureProvisionedHostStatus.
  method ConfirmHost(c: Cluster, hrm: MachineObject, host: Host) returns (ok: bool)
    requires c.Valid() && hrm.hostRef != "" && host.key == HostKey(hrm.key, hrm.hostRef)
    requires HostOk(host, host.key, c.next, c.catalog)
    requires host.key in c.hosts && c.hosts[host.key].version == host.version ==> c.hosts[host.key] == host
    modifies c
    ensures c.Valid() && (old(Consistent(c, hrm)) ==> Consistent(c, hrm))
    ensures old(c.failed) ==> c.failed
    ensures !ok ==> c.failed && c.writes == old(c.writes)
    ensures ok ==> OneMoreWrite(old(c.writes), c.writes, c.hosts)
                   && c.writes[|old(c.writes)|].0 == host
                   && ConfirmationWritten(hrm.key, host, c.hosts[host.key])
  {
    hide Fits;
    ghost var before;
    ok, before := c.PatchHost(hrm, host, ConfirmWrite(host, hrm.key));
    if ok {
      assert before[host.key] == host;
    }
  }

  // A legacy owner that is gone is replaced, any other foreign owner is refused. `seen` is the
  // copy of the recorded host that was read.
  method EnsureProvisionedHostStatus(c: Cluster, hrm: MachineObject)
    returns (r: Result<()>, ghost missing: set<Key>, ghost seen: Option<Host>)
    requires c.Valid()
    modifies c
    ensures c.Valid() && (old(Consistent(c, hrm)) ==> Consistent(c, hrm))
    ensures hrm.hostRef == "" ==> r.Ok?
    ensures r.Ok? && hrm.hostRef != "" ==>
              HostKey(hrm.key, hrm.hostRef) in c.hosts && Confirmed(c.hosts[HostKey(hrm.key, hrm.hostRef)], hrm.key)
    ensures r.Err? ==>
              || c.failed || HostKey(hrm.key, hrm.hostRef) !in c.hosts
              || (seen.Some? && HeldByOther(hrm.key, hrm.providerID, c.machines, seen.value))
    ensures seen.Some? ==> seen.value.key == HostKey(hrm.key, hrm.hostRef)
    ensures r.Ok? && seen.Some? ==> LegalOwnerRewrite(hrm.key, hrm.providerID, missing, seen.value)
    ensures c.writes == old(c.writes)
            || (r.Ok? && OneMoreWrite(old(c.writes), c.writes, c.hosts)
                && (var (b, a) := c.writes[|old(c.writes)|];
                    && seen == Some(b)
                    && ConfirmationWritten(hrm.key, b, a)))
  {
    hide ServerID, Fits;
    missing, seen := {}, None;
    if hrm.hostRef == "" {
      return Ok(()), missing, seen;
    }
    var got := FetchHost(c, hrm, hrm.hostRef);
    if got.None? {
      return Err("get provisioned host"), missing, seen;
    }
    var host := got.value;
    seen := Some(host);
    var ref;
    ref, missing := CheckOwner(c, hrm, host);
    if ref.Err? {
      return Err("get legacy host owner"), missing, seen;
    }
    if ref.value.Some? {
      return Err("host is claimed by another machine"), missing, seen;
    }
    if Confirmed(host, hrm.key) {
      return Ok(()), missing, seen;
    }
    var ok := ConfirmHost(c, hrm, host);
    if !ok {
      return Err("patch host provisioned status"), missing, seen;
    }
    return Ok(()), missing, seen;
  }

  // blockingHostOwnerRef on a copy that was just read.
  method CheckOwner(c: Cluster, hrm: MachineObject, h: Host)
    returns (r: Result<Option<Key>>, ghost missing: set<Key>)
    requires c.Valid() && h.key in c.hosts && c.hosts[h.key] == h
    modifies c`hosts, c`machines, c`next, c`failed
    ensures c.Valid() && (old(Consistent(c, hrm)) ==> Consistent(c, hrm))
    ensures old(OwnsOnlyServer(c, hrm)) ==> OwnsOnlyServer(c, hrm)
    ensures r.Ok? ==> (r.value.None? <==> LegalOwnerRewrite(hrm.key, hrm.providerID, missing, h))
    ensures r.Ok? && r.value.Some? ==> HeldByOther(hrm.key, hrm.providerID, c.machines, h)
    ensures r.Err? ==> c.failed
    ensures Owner(h).None? || Owner(h) == Some(hrm.key) ==> r == Ok(None) && c.hosts == old(c.hosts)
    ensures old(c.failed) ==> c.failed
    ensures HostOk(h, h.key, c.next, c.catalog)
    ensures h.key in c.hosts && c.hosts[h.key].version == h.version ==> c.hosts[h.key] == h
    ensures hrm.hostRef == "" ==> forall k | OwnedBy(c.hosts, k, hrm.key) :: OwnedBy(old(c.hosts), k, hrm.key)
  {
    hide ServerID, Fits, LegalOwnerRewrite, HeldByOther;
    assert HostOk(h, h.key, c.next, c.catalog);
    r, missing := BlockingHostOwnerRef(c, hrm, h);
  }

  // ---- Deletion ----

  datatype DeleteTarget = NoTarget | Target(host: Host) | TargetFailed(reason: string)

  // Never writes a host, hence never claims one. A host found through the spec is one this
  // machine has claimed; the recorded host is returned as it is, so it is this machine's
  // exactly when the record is right.
  method ResolveHostForDelete(c: Cluster, hrm: MachineObject) returns (r: DeleteTarget)
    requires c.Valid()
    modifies c`hosts, c`machines, c`next, c`failed
    ensures c.Valid() && Rely(hrm.key, hrm.hostRef, old(c.hosts), old(c.next), c.hosts, c.next)
    ensures r.Target? ==> r.host.key in c.hosts && c.hosts[r.host.key] == r.host && r.host.key.ns == hrm.key.ns
    ensures r.Target? ==> if hrm.hostRef != "" then r.host.key == HostKey(hrm.key, hrm.hostRef)
                          else ClaimedBy(r.host, hrm.key)
    ensures r.Target? && RecordedIsOwned(c, hrm) ==> OwnedBy(c.hosts, r.host.key, hrm.key)
    ensures r.NoTarget? && hrm.hostRef == "" && (hrm.directHost != "" || hrm.selector.Some?) && Consistent(c, hrm) ==>
              forall k :: !OwnedBy(c.hosts, k, hrm.key)
  {
    if hrm.hostRef != "" {
      var got := c.GetHost(hrm, HostKey(hrm.key, hrm.hostRef));
      if got.None? {
        return TargetFailed("get claimed host");
      }
      return Target(got.value);
    }
    if hrm.directHost != "" {
      var got := c.GetHost(hrm, HostKey(hrm.key, hrm.directHost));
      if got.None? {
        return TargetFailed("get directly referenced host");
      }
      if ClaimedBy(got.value, hrm.key) {
        return Target(got.value);
      }
      return NoTarget;
    }
    if hrm.selector.Some? {
      var listed := c.ListHosts(hrm, hrm.key.ns, hrm.selector.value);
      if listed.None? {
        return TargetFailed("list hosts by selector");
      }
      var mine := FindClaimed(listed.value, hrm.key);
      if mine.Some? {
        return Target(mine.value);
      }
    }
    return NoTarget;
  }

  method ReleaseHost(c: Cluster, hrm: MachineObject, k: Key) returns (ok: bool)
    requires c.Valid()
    modifies c
    ensures c.Valid()
    ensures !ok ==> (c.failed || k !in c.hosts) && c.writes == old(c.writes)
                    && Rely(hrm.key, hrm.hostRef, old(c.hosts), old(c.next), c.hosts, c.next)
    ensures ok ==> OneMoreWrite(old(c.writes), c.writes, c.hosts)
                   && (var (b, a) := c.writes[|old(c.writes)|];
                       && b.key == k && ReleaseWritten(b, a))
  {
    var got := c.GetHost(hrm, k);
    if got.None? {
      return false;
    }
    var h := got.value;
    ghost var before;
    ok, before := c.PatchHost(hrm, h, ReleaseWrite(h));
    if ok {
      assert before[h.key] == h;
    }
  }
}
