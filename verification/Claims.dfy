// The ownership rules of controllers/hetznerrobotmachine_host.go as functions on host
// copies: what a reconcile decides from the copy it read, and what it writes back.
module Claims {
  import opened Common
  import opened Api
  import opened ProviderIds

  function HostKey(m: Key, name: string): Key { Key(m.ns, name) }

  // currentHostConsumerRef: consumerRef, with the legacy machineRef as fallback.
  function Owner(h: Host): Option<Key> {
    if h.consumerRef.Some? then h.consumerRef else h.machineRef
  }

  // hostIsClaimedBy
  predicate ClaimedBy(h: Host, m: Key) { h.consumerRef == Some(m) || h.machineRef == Some(m) }

  // setHostConsumerRef
  function WithOwner(h: Host, m: Key): Host { h.(consumerRef := Some(m), machineRef := Some(m)) }

  // The writes of resolveHost, backfillProvisionedHostClaim, ensureProvisionedHostStatus
  // and releaseHost.
  function ClaimWrite(h: Host, m: Key): Host {
    WithOwner(h, m).(state := Claimed, dirtyReason := "")
  }

  function AdoptWrite(h: Host, m: Key): Host {
    WithOwner(h, m).(state := HostProvisioned, dirtyReason := "", errorMessage := "")
  }

  function ConfirmWrite(h: Host, m: Key): Host {
    WithOwner(h, m).(state := HostProvisioned, errorMessage := "")
  }

  function ReleaseWrite(h: Host): Host {
    h.(state := Available, lastConsumerRef := Owner(h), consumerRef := None, machineRef := None,
       dirtyReason := "ReleasedAfterMachineDelete", errorMessage := "")
  }

  // ensureHostConsumerRef
  datatype EnsureCheck = Refuse(owner: Key) | AlreadyBoth | Backfill

  function Ensure(h: Host, m: Key): EnsureCheck {
    if Owner(h).Some? && Owner(h) != Some(m) then Refuse(Owner(h).value)
    else if h.consumerRef == Some(m) && h.machineRef == Some(m) then AlreadyBoth
    else Backfill
  }

  // The two passes of resolveHost over one listing.
  function FirstClaimed(list: seq<Host>, m: Key): (r: Option<Host>)
    ensures r.Some? ==> r.value in list && ClaimedBy(r.value, m)
    ensures r.None? <==> forall h | h in list :: !ClaimedBy(h, m)
  {
    if list == [] then None
    else if ClaimedBy(list[0], m) then Some(list[0])
    else FirstClaimed(list[1..], m)
  }

  predicate Claimable(h: Host) { h.state == Available && !h.maintenance }

  function FirstClaimable(list: seq<Host>): (r: Option<Host>)
    ensures r.Some? ==> r.value in list && Claimable(r.value)
    ensures r.None? <==> forall h | h in list :: !Claimable(h)
  {
    if list == [] then None
    else if Claimable(list[0]) then Some(list[0])
    else FirstClaimable(list[1..])
  }

  // The hosts resolveProvisionedAdoptionHost keeps.
  function WithServerID(list: seq<Host>, serverID: int): (r: seq<Host>)
    ensures forall h :: h in r <==> h in list && h.serverID == serverID
  {
    if list == [] then []
    else (if list[0].serverID == serverID then [list[0]] else []) + WithServerID(list[1..], serverID)
  }

  // blockingHostOwnerRef. The lookup is the Get of the legacy owner, which happens only on
  // the last branch.
  datatype Lookup = Found | NotFound | LookupFailed

  function LegacyKey(h: Host): Key
    requires h.machineRef.Some?
  {
    var ref := h.machineRef.value;
    if ref.ns == "" then Key(h.key.ns, ref.name) else ref
  }

  function BlockingOwner(h: Host, m: Key, providerID: Option<string>, legacy: Lookup): Result<Option<Key>> {
    if h.consumerRef.Some? then Ok(if h.consumerRef == Some(m) then None else h.consumerRef)
    else if h.machineRef.None? || h.machineRef == Some(m) then Ok(None)
    else if ServerID(providerID) != Some(h.serverID) then Ok(h.machineRef)
    else match legacy
      case NotFound => Ok(None)
      case Found => Ok(h.machineRef)
      case LookupFailed => Err("get legacy host owner")
  }

  // backfillProvisionedHostClaim's checks on the host it resolved.
  predicate MayAdopt(h: Host, m: Key, providerID: Option<string>, legacy: Lookup) {
    && !h.maintenance
    && ServerID(providerID) == Some(h.serverID)
    && BlockingOwner(h, m, providerID, legacy) == Ok(None)
    && h.state != Claimed
  }

  // ensureProvisionedHostStatus: nothing blocks, and whether a patch is needed at all.
  predicate MayConfirm(h: Host, m: Key, providerID: Option<string>, legacy: Lookup) {
    BlockingOwner(h, m, providerID, legacy) == Ok(None)
  }

  predicate Confirmed(h: Host, m: Key) {
    h.state == HostProvisioned && h.consumerRef == Some(m) && h.machineRef == Some(m)
  }

  // A listing returns every matching host of the namespace once, in any order.
  ghost predicate IsListing(hosts: map<Key, Host>, ns: string, selector: Labels, list: seq<Host>) {
    && (forall h | h in list :: h.key in hosts && hosts[h.key] == h
                                && h.key.ns == ns && Matches(selector, h.labels))
    && (forall k | k in hosts && k.ns == ns && Matches(selector, hosts[k].labels) :: hosts[k] in list)
    && (forall i, j | 0 <= i < j < |list| :: list[i].key != list[j].key)
  }

  // ---- Non-stealing, as facts about single decisions ----

  // Adoption and confirmation take a host away from another owner in exactly one case: the
  // host only has the legacy reference, the machine it names is gone, and the provider ID
  // proves that both sides mean the same physical server.
  lemma RewritesForeignOwnerExactly(h: Host, m: Key, providerID: Option<string>, legacy: Lookup)
    requires Owner(h).Some? && Owner(h) != Some(m)
    ensures MayConfirm(h, m, providerID, legacy) <==>
            h.consumerRef.None? && legacy == NotFound && ServerID(providerID) == Some(h.serverID)
    ensures MayAdopt(h, m, providerID, legacy) ==> MayConfirm(h, m, providerID, legacy)
  {
  }

  lemma {:induction false} WithServerIDOnce(list: seq<Host>, id: int, i: nat, j: nat)
    requires i < j < |list| && list[i].serverID == list[j].serverID == id
    ensures |WithServerID(list, id)| >= 2
  {
    if i > 0 {
      WithServerIDOnce(list[1..], id, i - 1, j - 1);
    } else {
      assert list[1..][j - 1] == list[j];
      assert list[j] in WithServerID(list[1..], id);
    }
  }

  // A selector adoption accepts a host only if no other host of the listing is on that server.
  lemma AdoptionIsUnambiguous(hosts: map<Key, Host>, ns: string, selector: Labels, list: seq<Host>, id: int, k: Key)
    requires IsListing(hosts, ns, selector, list)
    requires |WithServerID(list, id)| == 1
    requires k in hosts && k.ns == ns && Matches(selector, hosts[k].labels) && hosts[k].serverID == id
    ensures WithServerID(list, id) == [hosts[k]]
  {
    assert hosts[k] in WithServerID(list, id);
  }
}
