// The ownership invariant is kept by every step.
module OwnershipSteps {
  import opened Common
  import opened Api
  import opened ProviderIds
  import opened Policy
  import opened Claims
  import opened HostReconcile
  import opened Ownership

  // ---- What a step means for a machine that did not take it ----

  ghost predicate StoreMoves(w: World, w': World) {
    && w'.catalog == w.catalog && w'.legacy == w.legacy && w.next <= w'.next
    && HostsOk(w'.hosts, w'.next, w'.catalog)
    && (forall k | k in w'.hosts && w'.hosts[k].version < w.next :: k in w.hosts && w'.hosts[k] == w.hosts[k])
    && (forall x, k | x in w'.machines && x !in w.machines && k in w.hosts :: !Refers(w.hosts[k], x))
  }

  ghost predicate OwnershipKept(w: World, w': World, m: Key) {
    && (forall k | k in w'.hosts && k in w.hosts :: OwnedBy(w'.hosts, k, m) <==> OwnedBy(w.hosts, k, m))
    && (forall k | OwnedBy(w'.hosts, k, m) :: k in w.hosts && w'.hosts[k].serverID == w.hosts[k].serverID)
  }

  ghost predicate MachineKept(w: World, w': World, m: Key) {
    && m in w.machines && m in w'.machines
    && (w'.machines[m] == w.machines[m] || w'.machines[m] == w.machines[m].(deleting := true))
    && (m in w'.flights <==> m in w.flights)
    && (m in w.flights ==> w'.flights[m] == w.flights[m])
  }

  ghost predicate Bystander(w: World, w': World, m: Key) {
    && StoreMoves(w, w') && OwnershipKept(w, w', m) && MachineKept(w, w', m)
    && (forall k | k in w'.hosts && k !in w.hosts :: !MachineMentions(w, m, k))
  }

  // The hosts reserved for a machine stay so, as far as it records them.
  ghost predicate ReservedKept(w: World, w': World, m: Key) {
    forall k | k in w'.hosts && Reserved(w, m, k) && Records(w, m, k) && !Leaving(w, m) :: Reserved(w', m, k)
  }

  // Nobody's claim on the host changes.
  predicate SameClaimant(a: Host, b: Host) {
    && a.key == b.key && a.consumerRef == b.consumerRef && a.machineRef == b.machineRef
    && (StateInUse(a.state) ==> b.state == a.state)
  }

  lemma ReservedStays(w: World, w': World, m: Key, k: Key)
    requires Bystander(w, w', m) && Reserved(w, m, k)
    requires k in w'.hosts && SameClaimant(w.hosts[k], w'.hosts[k])
    ensures Reserved(w', m, k)
  {
    hide HostsOk, Fits;
    if w.hosts[k].machineRef.Some? {
      assert Refers(w.hosts[k], LegacyKey(w.hosts[k]));
    }
  }

  lemma ClaimsReserve(w: World, w': World, m: Key)
    requires Bystander(w, w', m)
    requires forall k | k in w.hosts && k in w'.hosts :: SameClaimant(w.hosts[k], w'.hosts[k])
    ensures ReservedKept(w, w', m)
  {
    hide Bystander, SameClaimant;
    forall k | k in w'.hosts && Reserved(w, m, k) && Records(w, m, k) && !Leaving(w, m) ensures Reserved(w', m, k) {
      assert k in w.hosts;
      ReservedStays(w, w', m, k);
    }
  }

  lemma CopyStays(w: World, w': World, copy: Host)
    requires StoreMoves(w, w') && CopyOk(w, copy)
    ensures CopyOk(w', copy)
    ensures Current(w', copy) ==> Current(w, copy)
  {
  }

  lemma UnblockedStays(w: World, w': World, m: Key, copy: Host)
    requires StoreMoves(w, w') && CopyOk(w, copy) && Unblocked(w, m, copy)
    ensures Unblocked(w', m, copy)
  {
    CopyStays(w, w', copy);
    if Current(w', copy) {
      assert w.hosts[copy.key] == copy;
    }
  }

  lemma RecordStays(w: World, w': World, m: Key, name: string)
    requires OwnershipKept(w, w', m) && RecordOk(w, m, name)
    requires name != "" && HostKey(m, name) in w'.hosts ==>
               HostKey(m, name) in w.hosts && (Reserved(w, m, HostKey(m, name)) ==> Reserved(w', m, HostKey(m, name)))
    ensures RecordOk(w', m, name)
  {
    hide Reserved;
  }

  lemma OwnsStays(w: World, w': World, m: Key)
    requires OwnershipKept(w, w', m)
    ensures forall k | OwnedBy(w'.hosts, k, m) :: OwnedBy(w.hosts, k, m)
  {
  }

  lemma MachineStays(w: World, w': World, m: Key)
    requires m in w.machines && MachineOk(w, m) && Bystander(w, w', m) && ReservedKept(w, w', m)
    ensures MachineOk(w', m)
  {
    assert w'.catalog == w.catalog;
    hide StoreMoves, Reserved, ServerID;
    OwnsStays(w, w', m);
    if !Leaving(w, m) {
      RecordStays(w, w', m, w.machines[m].hostRef);
    }
  }

  lemma TargetStays(w: World, w': World, m: Key, k: Key)
    requires OwnershipKept(w, w', m) && Targeted(w, m, k) && (k in w'.hosts ==> k in w.hosts)
    ensures Targeted(w', m, k)
  {
  }

  lemma LocalRecordStays(w: World, w': World, m: Key, f: Flight)
    requires Bystander(w, w', m) && ReservedKept(w, w', m) && m in w.flights && w.flights[m] == f
    requires !LeavingFlight(f) && f.local.key == m && LocalRecordOk(w, m, f.local)
    ensures LocalRecordOk(w', m, f.local)
  {
    hide StoreMoves, Reserved;
    RecordStays(w, w', m, f.local.hostRef);
    var k := HostKey(m, f.local.hostRef);
    if f.local.hostRef != "" && Targeted(w, m, k) {
      TargetStays(w, w', m, k);
    }
  }

  // What a reconcile that has a host copy knows about it.
  lemma CopyFactsStay(w: World, w': World, m: Key, f: Flight)
    requires m in w.machines && m in w.flights && f == w.flights[m] && GoodFlight(w, m, f) && Bystander(w, w', m)
    ensures HasCopy(f) && Targeted(w, m, f.copy.key) ==> Targeted(w', m, f.copy.key)
    ensures HasCopy(f) && MayRelease(w, m, f.local, f.copy) ==> MayRelease(w', m, f.local, f.copy)
    ensures f.Vetting? || f.Pending? ==> CopyOk(w', f.copy)
    ensures f.Pending? && Unblocked(w, m, f.copy) ==> Unblocked(w', m, f.copy)
  {
    hide LocalOk, LocalRecordOk, ServerID, MayDestroy, Fits;
    if f.Vetting? || f.Pending? {
      CopyStays(w, w', f.copy);
    }
    if f.Pending? && Unblocked(w, m, f.copy) {
      UnblockedStays(w, w', m, f.copy);
    }
    hide CopyOk, Unblocked, StoreMoves;
  }

  lemma FlightStays(w: World, w': World, m: Key)
    requires m in w.machines && m in w.flights && FlightOk(w, m) && Bystander(w, w', m) && ReservedKept(w, w', m)
    ensures FlightOk(w', m)
  {
    var f := w.flights[m];
    OwnsStays(w, w', m);
    CopyFactsStay(w, w', m, f);
    assert w'.flights[m] == f && w'.catalog == w.catalog && m in w'.machines;
    assert w'.machines[m] == w.machines[m] || w'.machines[m] == w.machines[m].(deleting := true);
    if !LeavingFlight(f) {
      LocalRecordStays(w, w', m, f);
    }
    hide Bystander, ReservedKept, LocalRecordOk, CopyOk, Unblocked, Targeted, MayRelease, ServerID, MayDestroy, Fits, HostKey;
  }

  lemma BystanderOk(w: World, w': World, m: Key)
    requires Inv(w) && Bystander(w, w', m) && ReservedKept(w, w', m)
    ensures MachineOk(w', m) && (m in w'.flights ==> FlightOk(w', m))
  {
    InvAt(w, m);
    assert m in w.machines && m in w'.machines && (m in w'.flights <==> m in w.flights);
    hide Inv, Bystander, ReservedKept, MachineOk, FlightOk;
    MachineStays(w, w', m);
    if m in w.flights {
      FlightStays(w, w', m);
    }
  }

  lemma InvAt(w: World, m: Key)
    requires Inv(w)
    ensures m in w.machines ==> MachineOk(w, m)
    ensures m in w.flights ==> m in w.machines && FlightOk(w, m)
  {
    hide MachineOk, FlightOk, CopyOk, HostsOk;
  }

  // The invariant, machine by machine.
  lemma InvFrom(w: World, w': World)
    requires Inv(w) && StoreMoves(w, w')
    requires w'.flights.Keys <= w'.machines.Keys
    requires forall m | m in w'.machines :: MachineOk(w', m) && (m in w'.flights ==> FlightOk(w', m))
    requires forall k | k in w'.hostFlights :: w'.hostFlights[k].key == k
               && ((k in w.hostFlights && w'.hostFlights[k] == w.hostFlights[k]) || CopyOk(w', w'.hostFlights[k]))
    requires forall e | e in w'.log :: e in w.log || EntryOk(e)
    ensures Inv(w')
  {
    hide MachineOk, FlightOk, EntryOk;
    forall k | k in w'.hostFlights ensures CopyOk(w', w'.hostFlights[k]) {
      if k in w.hostFlights && w'.hostFlights[k] == w.hostFlights[k] {
        CopyStays(w, w', w.hostFlights[k]);
      }
    }
  }

  // ---- Steps that only move one machine's reconcile ----

  lemma MoveBystander(w: World, w': World, m: Key, x: Key)
    requires Inv(w) && m in w.machines && w' == w.(flights := w'.flights)
    requires forall y | y != m :: (y in w'.flights <==> y in w.flights) && (y in w.flights ==> w'.flights[y] == w.flights[y])
    requires x in w.machines && x != m
    ensures Bystander(w, w', x) && ReservedKept(w, w', x)
  {
    assert HostsOk(w.hosts, w.next, w.catalog);
    hide Inv, HostsOk;
    assert Bystander(w, w', x);
    hide Bystander, ReservedKept, Reserved;
    ClaimsReserve(w, w', x);
  }

  // What is known of a reconcile depends on the stored objects alone.
  ghost predicate SameStore(w: World, w': World) {
    && w'.hosts == w.hosts && w'.next == w.next && w'.catalog == w.catalog && w'.legacy == w.legacy
    && w'.machines == w.machines
  }

  lemma SameRecord(w: World, w': World, m: Key, name: string)
    requires SameStore(w, w')
    ensures RecordOk(w', m, name) <==> RecordOk(w, m, name)
  {
    hide Fits;
  }

  lemma SameGood(w: World, w': World, m: Key, f: Flight)
    requires SameStore(w, w') && m in w.machines && GoodFlight(w, m, f)
    ensures GoodFlight(w', m, f)
  {
    SameRecord(w, w', m, f.local.hostRef);
    hide RecordOk, Fits, ServerID, MayDestroy;
  }

  lemma SameMachineOk(w: World, w': World, m: Key)
    requires SameStore(w, w') && m in w.machines && MachineOk(w, m)
    requires Leaving(w, m) ==> Leaving(w', m)
    ensures MachineOk(w', m)
  {
    SameRecord(w, w', m, w.machines[m].hostRef);
    hide RecordOk, Fits, ServerID;
  }

  lemma StoreMovesSame(w: World, w': World)
    requires Inv(w) && w'.hosts == w.hosts && w'.next == w.next && w'.catalog == w.catalog && w'.legacy == w.legacy
    requires w'.machines.Keys <= w.machines.Keys
    ensures StoreMoves(w, w')
  {
    assert HostsOk(w.hosts, w.next, w.catalog);
    hide Inv;
  }

  lemma MoveInv(w: World, w': World, m: Key, g: Flight)
    requires Inv(w) && m in w.machines && w' == WithFlight(w, m, g)
    requires GoodFlight(w, m, g)
    requires Leaving(w, m) ==> LeavingFlight(g)
    ensures Inv(w')
    ensures forall x | x in w.machines && x != m :: Bystander(w, w', x)
  {
    InvParts(w);
    StoreMovesSame(w, w');
    SameGood(w, w', m, g);
    SameMachineOk(w, w', m);
    assert FlightOk(w', m);
    hide Inv, Bystander, MachineOk, FlightOk, GoodFlight, StoreMoves, ReservedKept, Leaving;
    forall x | x in w.machines && x != m
      ensures Bystander(w, w', x) && MachineOk(w', x) && (x in w'.flights ==> FlightOk(w', x))
    {
      MoveBystander(w, w', m, x);
      BystanderOk(w, w', x);
    }
    InvFrom(w, w');
  }

  lemma InvParts(w: World)
    requires Inv(w)
    ensures HostsOk(w.hosts, w.next, w.catalog)
    ensures w.flights.Keys <= w.machines.Keys
    ensures forall m | m in w.machines :: MachineOk(w, m)
    ensures forall k | k in w.hostFlights :: w.hostFlights[k].key == k && CopyOk(w, w.hostFlights[k])
  {
    hide MachineOk, FlightOk, CopyOk, HostsOk;
  }

  lemma StoredCopyOk(w: World, k: Key)
    requires HostsOk(w.hosts, w.next, w.catalog) && k in w.hosts
    ensures CopyOk(w, w.hosts[k]) && w.hosts[k].key == k
  {
  }

  // Owning is being claimed by: the two references never disagree.
  lemma ClaimedIsOwned(w: World, k: Key, m: Key)
    requires HostsOk(w.hosts, w.next, w.catalog) && k in w.hosts
    ensures ClaimedBy(w.hosts[k], m) <==> OwnedBy(w.hosts, k, m)
  {
    assert HostOk(w.hosts[k], k, w.next, w.catalog);
  }

  lemma AfterEnsureGood(w: World, m: Key, l: Machine, k: Key)
    requires HostsOk(w.hosts, w.next, w.catalog) && m in w.machines
    requires LocalOk(w, m, l) && l.hostRef != "" && k == HostKey(m, l.hostRef)
    requires l.providerID == w.machines[m].providerID && LocalRecordOk(w, m, l) && k in w.hosts
    ensures GoodFlight(w, m, AfterEnsure(l, w.hosts[k]))
  {
    StoredCopyOk(w, k);
    hide HostsOk, CopyOk, LocalOk;
  }

  lemma OwnedRecord(w: World, m: Key, name: string)
    requires m in w.machines && OwnedBy(w.hosts, HostKey(m, name), m)
    requires w.machines[m].hostRef == ""
    ensures LocalRecordOk(w, m, w.machines[m].(hostRef := name))
  {
    hide Reserved;
  }

  lemma StoredLocal(w: World, m: Key)
    requires m in w.machines && MachineOk(w, m) && !Leaving(w, m)
    ensures LocalOk(w, m, w.machines[m]) && LocalRecordOk(w, m, w.machines[m])
  {
    hide Reserved;
  }

  ghost predicate Listed(w: World, m: Key, list: seq<Host>)
    requires m in w.machines
  {
    w.machines[m].selector.Some? ==> IsListing(w.hosts, m.ns, w.machines[m].selector.value, list)
  }

  lemma OwnedIsListed(w: World, m: Key, list: seq<Host>, k: Key)
    requires HostsOk(w.hosts, w.next, w.catalog) && m in w.machines && MachineOk(w, m)
    requires w.machines[m].selector.Some? && w.machines[m].directHost == "" && Listed(w, m, list)
    requires OwnedBy(w.hosts, k, m)
    ensures w.hosts[k] in list && ClaimedBy(w.hosts[k], m)
  {
    assert HostOk(w.hosts[k], k, w.next, w.catalog);
    ClaimedIsOwned(w, k, m);
    hide RecordOk;
  }

  lemma SelectGood(w: World, m: Key, list: seq<Host>)
    requires HostsOk(w.hosts, w.next, w.catalog) && m in w.machines && MachineOk(w, m) && !Leaving(w, m)
    requires Listed(w, m, list)
    requires var l := w.machines[m];
             !l.deleting && l.stage != Provisioned && l.hostRef == "" && l.directHost == "" && l.selector.Some?
    ensures GoodFlight(w, m, BeginResolve(w, w.machines[m], list))
  {
    var l := w.machines[m];
    StoredLocal(w, m);
    var mine := FirstClaimed(list, m);
    if mine.Some? {
      var k := mine.value.key;
      assert w.hosts[k] == mine.value;
      ClaimedIsOwned(w, k, m);
      OwnedRecord(w, m, k.name);
      AfterEnsureGood(w, m, l.(hostRef := k.name), k);
      hide GoodFlight;
    } else {
      forall k ensures !OwnedBy(w.hosts, k, m) {
        if OwnedBy(w.hosts, k, m) {
          OwnedIsListed(w, m, list, k);
        }
      }
      hide MachineOk, LocalOk, LocalRecordOk, FirstClaimed;
      if FirstClaimable(list).Some? {
        var h := FirstClaimable(list).value;
        assert w.hosts[h.key] == h && HostOk(h, h.key, w.next, w.catalog);
        assert HostKey(m, h.key.name) == h.key;
      }
    }
  }

  lemma DirectGood(w: World, m: Key, list: seq<Host>)
    requires HostsOk(w.hosts, w.next, w.catalog) && m in w.machines && MachineOk(w, m) && !Leaving(w, m)
    requires var l := w.machines[m]; !l.deleting && l.stage != Provisioned && l.hostRef == "" && l.directHost != ""
    ensures GoodFlight(w, m, BeginResolve(w, w.machines[m], list))
  {
    var l := w.machines[m];
    StoredLocal(w, m);
    var k := HostKey(m, l.directHost);
    if k in w.hosts {
      ClaimedIsOwned(w, k, m);
      if ClaimedBy(w.hosts[k], m) {
        OwnedRecord(w, m, k.name);
        AfterEnsureGood(w, m, l.(hostRef := k.name), k);
        hide GoodFlight;
      } else {
        NothingButDirect(w, m);
        hide MachineOk, LocalOk, LocalRecordOk;
      }
    }
  }

  lemma NothingButDirect(w: World, m: Key)
    requires HostsOk(w.hosts, w.next, w.catalog) && m in w.machines && MachineOk(w, m)
    requires w.machines[m].directHost != ""
    ensures OwnsNothingBut(w, m, HostKey(m, w.machines[m].directHost))
  {
    hide RecordOk, ServerID;
    forall k | OwnedBy(w.hosts, k, m) ensures k == HostKey(m, w.machines[m].directHost) {
      assert HostOk(w.hosts[k], k, w.next, w.catalog);
    }
  }

  lemma ResolveGood(w: World, m: Key, list: seq<Host>)
    requires HostsOk(w.hosts, w.next, w.catalog) && m in w.machines && MachineOk(w, m) && !Leaving(w, m)
    requires Listed(w, m, list)
    requires !w.machines[m].deleting && w.machines[m].stage != Provisioned
    ensures GoodFlight(w, m, BeginResolve(w, w.machines[m], list))
  {
    var l := w.machines[m];
    StoredLocal(w, m);
    if l.hostRef != "" {
      var k := HostKey(m, l.hostRef);
      if k in w.hosts {
        AfterEnsureGood(w, m, l, k);
        hide GoodFlight;
      } else {
        hide LocalOk, LocalRecordOk, MachineOk;
      }
    } else if l.directHost != "" {
      DirectGood(w, m, list);
    } else if l.selector.Some? {
      SelectGood(w, m, list);
    } else {
      hide LocalOk, LocalRecordOk, MachineOk;
    }
  }

  lemma OnlyMatchOwned(w: World, m: Key, list: seq<Host>, id: int, h: Host)
    requires HostsOk(w.hosts, w.next, w.catalog) && m in w.machines && MachineOk(w, m)
    requires w.machines[m].selector.Some? && w.machines[m].directHost == "" && Listed(w, m, list)
    requires w.machines[m].stage == Provisioned && w.machines[m].hostRef == ""
    requires ServerID(w.machines[m].providerID) == Some(id) && WithServerID(list, id) == [h]
    ensures OwnsNothingBut(w, m, h.key)
    ensures h.key in w.hosts && w.hosts[h.key] == h && h.serverID == id
            && h.key.ns == m.ns && Matches(w.machines[m].selector.value, h.labels)
  {
    hide RecordOk, ServerID;
    assert h in WithServerID(list, id);
    forall k | OwnedBy(w.hosts, k, m) ensures k == h.key {
      OwnedIsListed(w, m, list, k);
      AdoptionIsUnambiguous(w.hosts, m.ns, w.machines[m].selector.value, list, id, k);
    }
  }

  lemma AdoptGood(w: World, m: Key, h: Host)
    requires HostsOk(w.hosts, w.next, w.catalog) && m in w.machines && MachineOk(w, m) && !Leaving(w, m)
    requires w.machines[m].hostRef == "" && h.key in w.hosts && w.hosts[h.key] == h
    requires Fits(m, w.machines[m].directHost, w.machines[m].selector, h.key, h.labels) && OwnsNothingBut(w, m, h.key)
    ensures GoodFlight(w, m, AdoptChecks(w.machines[m], h))
  {
    StoredLocal(w, m);
    StoredCopyOk(w, h.key);
    hide MachineOk, LocalOk, LocalRecordOk, CopyOk, ServerID, Fits, OwnsNothingBut;
  }

  lemma ProvisionedGood(w: World, m: Key, list: seq<Host>)
    requires HostsOk(w.hosts, w.next, w.catalog) && m in w.machines && MachineOk(w, m) && !Leaving(w, m)
    requires Listed(w, m, list)
    requires w.machines[m].stage == Provisioned
    ensures GoodFlight(w, m, BeginProvisioned(w, w.machines[m], list))
  {
    var l := w.machines[m];
    StoredLocal(w, m);
    var id := ServerID(l.providerID);
    if l.hostRef == "" && id.Some? && l.directHost != "" && HostKey(m, l.directHost) in w.hosts {
      var k := HostKey(m, l.directHost);
      NothingButDirect(w, m);
      assert HostOk(w.hosts[k], k, w.next, w.catalog);
      AdoptGood(w, m, w.hosts[k]);
      hide GoodFlight, AdoptChecks;
    } else if l.hostRef == "" && id.Some? && l.directHost == "" && l.selector.Some? && |WithServerID(list, id.value)| == 1 {
      var h := WithServerID(list, id.value)[0];
      assert WithServerID(list, id.value) == [h];
      OnlyMatchOwned(w, m, list, id.value, h);
      AdoptGood(w, m, h);
      hide GoodFlight, AdoptChecks;
    } else {
      hide LocalOk, LocalRecordOk, MachineOk, AdoptChecks;
    }
  }

  lemma DeleteGood(w: World, m: Key, list: seq<Host>)
    requires HostsOk(w.hosts, w.next, w.catalog) && m in w.machines && MachineOk(w, m) && !Leaving(w, m)
    requires Listed(w, m, list)
    requires w.machines[m].deleting
    ensures GoodFlight(w, m, BeginDelete(w, w.machines[m].(stage := Deleting), list))
  {
    var l := w.machines[m];
    StoredLocal(w, m);
    assert LocalOk(w, m, l.(stage := Deleting)) && LocalRecordOk(w, m, l.(stage := Deleting));
    var mine := FirstClaimed(list, m);
    if l.hostRef == "" && l.directHost == "" && l.selector.Some? && mine.Some? {
      assert w.hosts[mine.value.key] == mine.value;
      ClaimedIsOwned(w, mine.value.key, m);
    } else if l.hostRef != "" && HostKey(m, l.hostRef) in w.hosts {
      StoredCopyOk(w, HostKey(m, l.hostRef));
    } else if l.hostRef == "" && l.directHost != "" && HostKey(m, l.directHost) in w.hosts {
      StoredCopyOk(w, HostKey(m, l.directHost));
      ClaimedIsOwned(w, HostKey(m, l.directHost), m);
    }
    hide MachineOk, LocalOk, LocalRecordOk, HostsOk, CopyOk;
  }

  lemma BeginInv(w: World, w': World, m: Key, list: seq<Host>)
    requires Inv(w) && Enabled(w, Begin(m, list)) && w' == Apply(w, Begin(m, list))
    ensures Inv(w')
  {
    InvParts(w);
    var mc := w.machines[m];
    assert MachineOk(w, m) && mc.key == m;
    var g := BeginFlight(w, mc, list);
    assert w' == WithFlight(w, m, g) && !Leaving(w, m) && Listed(w, m, list);
    hide Inv, Apply, Enabled, MachineOk, GoodFlight, HostsOk, BeginResolve, BeginProvisioned, BeginDelete, Leaving, Listed;
    if mc.deleting {
      DeleteGood(w, m, list);
    } else if mc.stage == Provisioned {
      ProvisionedGood(w, m, list);
    } else {
      ResolveGood(w, m, list);
    }
    MoveInv(w, w', m, g);
  }

  lemma FetchGood(w: World, m: Key, f: Flight)
    requires HostsOk(w.hosts, w.next, w.catalog) && m in w.machines && GoodFlight(w, m, f) && f.Chosen?
    ensures GoodFlight(w, m, FetchFlight(w, f))
  {
    var k := HostKey(f.local.key, f.name);
    if k in w.hosts {
      StoredCopyOk(w, k);
      assert HostOk(w.hosts[k], k, w.next, w.catalog);
    }
    hide HostsOk, CopyOk, LocalRecordOk, Fits;
  }

  lemma VetUnblocked(w: World, m: Key, f: Flight, fails: bool)
    requires f.Vetting? && f.local.key == m && CopyOk(w, f.copy)
    requires VetFlight(w, f, fails).Pending?
    ensures Unblocked(w, m, f.copy) && SameServer(m, f.local, f.copy)
  {
    hide HostOk, ServerID;
  }

  lemma VetGood(w: World, m: Key, f: Flight, fails: bool)
    requires m in w.machines && GoodFlight(w, m, f) && f.Vetting?
    ensures GoodFlight(w, m, VetFlight(w, f, fails))
  {
    var g := VetFlight(w, f, fails);
    assert g == Done(f.local) || g == Pending(f.local, if f.adopting then Adopt else Confirm, f.copy);
    if g.Pending? {
      VetUnblocked(w, m, f, fails);
    }
    hide VetFlight, CopyOk, LocalRecordOk, Unblocked, SameServer, Adoptable;
  }

  lemma ConfirmGood(w: World, m: Key, f: Flight)
    requires HostsOk(w.hosts, w.next, w.catalog) && m in w.machines && GoodFlight(w, m, f) && f.Confirmable?
    ensures var k := HostKey(m, f.local.hostRef);
            GoodFlight(w, m, if k in w.hosts then Vetting(f.local, false, w.hosts[k]) else Done(f.local))
  {
    var k := HostKey(m, f.local.hostRef);
    if k in w.hosts {
      StoredCopyOk(w, k);
    }
    hide HostsOk, CopyOk, LocalRecordOk;
  }

  lemma ReleaseGood(w: World, m: Key, f: Flight)
    requires HostsOk(w.hosts, w.next, w.catalog) && m in w.machines && GoodFlight(w, m, f) && f.Gated? && f.del
    ensures var k := f.copy.key;
            GoodFlight(w, m, if k in w.hosts then Pending(f.local, Release(f.ev), w.hosts[k]) else Removing(f.local, false))
  {
    if f.copy.key in w.hosts {
      StoredCopyOk(w, f.copy.key);
    }
    hide HostsOk, CopyOk, LocalRecordOk, Permits;
  }

  lemma GateGood(w: World, m: Key, f: Flight)
    requires m in w.machines && GoodFlight(w, m, f) && (f.Working? || f.DelFound?)
    requires Permits(Evidence(f.copy, w.releases, w.now), f.local.capi)
    ensures GoodFlight(w, m, Gated(f.local, f.copy, Evidence(f.copy, w.releases, w.now), f.DelFound?))
  {
    hide LocalRecordOk, LocalOk, MayDestroy, Targeted, MayRelease;
  }

  lemma FinishGood(w: World, m: Key, f: Flight, stage: ProvisioningState, providerID: Option<string>)
    requires m in w.machines && GoodFlight(w, m, f) && (f.Working? || (f.Gated? && !f.del))
    requires f.local.providerID.Some? ==> providerID == f.local.providerID
    ensures GoodFlight(w, m, Done(f.local.(stage := stage, providerID := providerID)))
  {
    assert LocalRecordOk(w, m, f.local.(stage := stage, providerID := providerID));
    hide LocalRecordOk, MayDestroy, Targeted;
  }

  lemma DropGood(w: World, m: Key, f: Flight)
    requires m in w.machines && GoodFlight(w, m, f) && !LeavingFlight(f)
    ensures GoodFlight(w, m, Done(f.local))
    ensures !f.Done? ==> GoodFlight(w, m, Removing(f.local, false))
  {
    hide LocalRecordOk, LocalOk, MayDestroy, Targeted, MayRelease, CopyOk;
  }

  // What a step of one reconcile knows before it is taken.
  ghost predicate Stands(w: World, m: Key, f: Flight) {
    && m in w.machines && m in w.flights && f == w.flights[m] && !LeavingFlight(f)
    && GoodFlight(w, m, f) && f.local.key == m && HostsOk(w.hosts, w.next, w.catalog)
  }

  lemma StandsIn(w: World, m: Key)
    requires Inv(w) && m in w.flights && !w.flights[m].Removing?
    ensures Stands(w, m, w.flights[m])
  {
    InvParts(w);
    InvAt(w, m);
    assert w.flights[m].local.key == m by { hide LocalRecordOk, Inv; }
    hide Inv, MachineOk, HostsOk, GoodFlight;
  }

  lemma MoveOn(w: World, m: Key, g: Flight)
    requires Inv(w) && m in w.flights && !w.flights[m].Removing? && m in w.machines && GoodFlight(w, m, g)
    ensures Inv(WithFlight(w, m, g))
  {
    hide Inv, GoodFlight;
    MoveInv(w, WithFlight(w, m, g), m, g);
  }

  lemma FetchInv(w: World, m: Key)
    requires Inv(w) && Enabled(w, Fetch(m))
    ensures Inv(Apply(w, Fetch(m)))
  {
    StandsIn(w, m);
    hide Inv, GoodFlight, FetchFlight, HostsOk;
    FetchGood(w, m, w.flights[m]);
    MoveOn(w, m, FetchFlight(w, w.flights[m]));
  }

  lemma VetInv(w: World, m: Key, fails: bool)
    requires Inv(w) && Enabled(w, Vet(m, fails))
    ensures Inv(Apply(w, Vet(m, fails)))
  {
    StandsIn(w, m);
    hide Inv, GoodFlight, VetFlight, HostsOk;
    VetGood(w, m, w.flights[m], fails);
    MoveOn(w, m, VetFlight(w, w.flights[m], fails));
  }

  lemma ReadConfirmInv(w: World, m: Key)
    requires Inv(w) && Enabled(w, ReadConfirm(m))
    ensures Inv(Apply(w, ReadConfirm(m)))
  {
    StandsIn(w, m);
    hide Inv, GoodFlight, HostsOk;
    var f := w.flights[m];
    var k := HostKey(m, f.local.hostRef);
    ConfirmGood(w, m, f);
    MoveOn(w, m, if k in w.hosts then Vetting(f.local, false, w.hosts[k]) else Done(f.local));
  }

  lemma ApplyReadRelease(w: World, m: Key)
    requires Enabled(w, ReadRelease(m))
    ensures m in w.flights && w.flights[m].Gated? && w.flights[m].del
    ensures var f := w.flights[m]; var k := f.copy.key;
            Apply(w, ReadRelease(m)) ==
            WithFlight(w, m, if k in w.hosts then Pending(f.local, Release(f.ev), w.hosts[k]) else Removing(f.local, false))
  {
  }

  lemma ReadReleaseInv(w: World, m: Key)
    requires Inv(w) && Enabled(w, ReadRelease(m))
    ensures Inv(Apply(w, ReadRelease(m)))
  {
    hide Inv, GoodFlight, HostsOk, Apply, Enabled;
    ApplyReadRelease(w, m);
    StandsIn(w, m);
    var f := w.flights[m];
    var k := f.copy.key;
    ReleaseGood(w, m, f);
    MoveOn(w, m, if k in w.hosts then Pending(f.local, Release(f.ev), w.hosts[k]) else Removing(f.local, false));
  }

  lemma GateInv(w: World, m: Key)
    requires Inv(w) && Enabled(w, Gate(m))
    ensures Inv(Apply(w, Gate(m)))
  {
    StandsIn(w, m);
    hide Inv, GoodFlight, HostsOk, Permits;
    var f := w.flights[m];
    GateGood(w, m, f);
    MoveOn(w, m, Gated(f.local, f.copy, Evidence(f.copy, w.releases, w.now), f.DelFound?));
  }

  lemma ApplyEndWork(w: World, s: Step)
    requires Enabled(w, s) && (s.Finish? || s.GiveUp? || s.DropFinalizer?)
    ensures s.m in w.flights && !w.flights[s.m].Removing? && !w.flights[s.m].Done?
    ensures var f := w.flights[s.m];
            if s.Finish? then
              && (f.Working? || (f.Gated? && !f.del)) && (f.local.providerID.Some? ==> s.providerID == f.local.providerID)
              && Apply(w, s) == WithFlight(w, s.m, Done(f.local.(stage := s.stage, providerID := s.providerID)))
            else Apply(w, s) == WithFlight(w, s.m, if s.GiveUp? then Done(f.local) else Removing(f.local, false))
  {
  }

  // Finish, GiveUp and DropFinalizer end the work of a reconcile.
  lemma EndWorkInv(w: World, s: Step)
    requires Inv(w) && Enabled(w, s) && (s.Finish? || s.GiveUp? || s.DropFinalizer?)
    ensures Inv(Apply(w, s))
  {
    hide Inv, GoodFlight, HostsOk, Apply, Enabled;
    ApplyEndWork(w, s);
    StandsIn(w, s.m);
    var f := w.flights[s.m];
    if s.Finish? {
      FinishGood(w, s.m, f, s.stage, s.providerID);
      MoveOn(w, s.m, Done(f.local.(stage := s.stage, providerID := s.providerID)));
    } else {
      DropGood(w, s.m, f);
      MoveOn(w, s.m, if s.GiveUp? then Done(f.local) else Removing(f.local, false));
    }
  }

  // ---- Steps that log, save, remove or lose a reconcile ----

  lemma EmitEntry(w: World, m: Key, kind: Physical)
    requires m in w.machines && m in w.flights && GoodFlight(w, m, w.flights[m]) && w.flights[m].Gated?
    ensures EntryOk(EntryFor(w, w.flights[m], kind))
  {
    hide MayDestroy, Fits, OwnsNothingBut;
  }

  lemma ApplyEmit(w: World, m: Key, kind: Physical)
    requires Enabled(w, Emit(m, kind))
    ensures m in w.flights && w.flights[m].Gated?
    ensures Apply(w, Emit(m, kind)) == w.(log := w.log + [EntryFor(w, w.flights[m], kind)])
  {
  }

  lemma EmitInv(w: World, w': World, m: Key, kind: Physical)
    requires Inv(w) && Enabled(w, Emit(m, kind)) && w' == Apply(w, Emit(m, kind))
    ensures Inv(w')
  {
    hide Inv, Apply, Enabled, GoodFlight, MachineOk, EntryOk, EntryFor;
    ApplyEmit(w, m, kind);
    InvAt(w, m);
    EmitEntry(w, m, kind);
    LogInv(w, w');
  }

  // Only the log grew, by entries that are fine.
  lemma LogInv(w: World, w': World)
    requires Inv(w) && w' == w.(log := w'.log)
    requires forall e | e in w'.log :: e in w.log || EntryOk(e)
    ensures Inv(w')
  {
    InvParts(w);
    StoreMovesSame(w, w');
    hide Inv, MachineOk, FlightOk, CopyOk, HostsOk, StoreMoves, EntryOk;
    forall x | x in w'.machines ensures MachineOk(w', x) && (x in w'.flights ==> FlightOk(w', x)) {
      InvAt(w, x);
      SameMachineOk(w, w', x) by { assert Leaving(w, x) ==> Leaving(w', x); }
      if x in w.flights {
        assert FlightOk(w', x) by { SameFlightOk(w, w', x); }
      }
    }
    InvFrom(w, w');
  }

  lemma SameFlightOk(w: World, w': World, m: Key)
    requires SameStore(w, w') && m in w.machines && m in w.flights && FlightOk(w, m)
    requires m in w'.flights && w'.flights[m] == w.flights[m]
    ensures FlightOk(w', m)
  {
    SameGood(w, w', m, w.flights[m]);
    hide GoodFlight;
  }

  // Machine m's own record changed or went away; its reconcile is over.
  lemma EndInv(w: World, w': World, m: Key)
    requires Inv(w) && m in w.flights
    requires w'.flights == w.flights - {m}
    requires w' == w.(flights := w'.flights, machines := w'.machines)
    requires w'.machines.Keys <= w.machines.Keys
    requires forall x | x in w.machines && x != m :: x in w'.machines && w'.machines[x] == w.machines[x]
    requires m in w'.machines ==> MachineOk(w', m)
    ensures Inv(w')
  {
    InvParts(w);
    StoreMovesSame(w, w');
    hide Inv, MachineOk, FlightOk, CopyOk, HostsOk, StoreMoves;
    forall x | x in w'.machines && x != m ensures MachineOk(w', x) && (x in w'.flights ==> FlightOk(w', x)) {
      assert Bystander(w, w', x);
      assert ReservedKept(w, w', x) by {
        hide Bystander, ReservedKept;
        ClaimsReserve(w, w', x);
      }
      hide Bystander, ReservedKept;
      BystanderOk(w, w', x);
    }
    InvFrom(w, w');
  }

  lemma SavedMachineOk(w: World, w': World, m: Key)
    requires m in w.machines && m in w.flights && MachineOk(w, m) && GoodFlight(w, m, w.flights[m]) && w.flights[m].Done?
    requires w' == w.(machines := w.machines[m := Saved(w.machines[m], w.flights[m].local)], flights := w.flights - {m})
    ensures MachineOk(w', m)
  {
    var mc, l := w.machines[m], w.flights[m].local;
    assert RecordOk(w', m, l.hostRef) by {
      hide Fits, ServerID;
    }
    hide RecordOk, ServerID, Fits;
  }

  lemma ApplySave(w: World, m: Key)
    requires Enabled(w, Save(m))
    ensures m in w.flights && w.flights[m].Done? && m in w.machines
    ensures Apply(w, Save(m)) ==
            w.(machines := w.machines[m := Saved(w.machines[m], w.flights[m].local)], flights := w.flights - {m})
  {
  }

  lemma ApplyCrash(w: World, m: Key)
    requires Enabled(w, Crash(m))
    ensures m in w.flights && Apply(w, Crash(m)) == w.(flights := w.flights - {m})
  {
  }

  lemma SaveInv(w: World, w': World, m: Key)
    requires Inv(w) && Enabled(w, Save(m)) && w' == Apply(w, Save(m))
    ensures Inv(w')
  {
    hide Inv, Apply, Enabled, MachineOk, GoodFlight, Saved;
    ApplySave(w, m);
    InvAt(w, m);
    SavedMachineOk(w, w', m);
    EndInv(w, w', m);
  }

  lemma LostMachineOk(w: World, w': World, m: Key)
    requires m in w.machines && m in w.flights && MachineOk(w, m)
    requires w' == w.(flights := w.flights - {m})
    requires Leaving(w, m) ==> RecordOk(w, m, w.machines[m].hostRef)
    ensures MachineOk(w', m)
  {
    SameRecord(w, w', m, w.machines[m].hostRef);
    hide RecordOk, ServerID, Fits;
  }

  lemma CrashInv(w: World, w': World, m: Key)
    requires Inv(w) && Enabled(w, Crash(m)) && w' == Apply(w, Crash(m))
    requires !LosesRelease(w, Crash(m))
    ensures Inv(w')
  {
    hide Inv, Apply, Enabled, MachineOk, GoodFlight, RecordOk;
    ApplyCrash(w, m);
    InvAt(w, m);
    LostMachineOk(w, w', m);
    EndInv(w, w', m);
  }

  // ---- Writing one stored host ----

  ghost predicate OneHost(w: World, w': World, h: Host) {
    && h.key in w.hosts && h.version == w.next
    && w'.hosts == w.hosts[h.key := h] && w'.next == w.next + 1 && w'.catalog == w.catalog && w'.legacy == w.legacy
    && w'.machines == w.machines
    && h.serverID == w.hosts[h.key].serverID
  }

  lemma OneHostMoves(w: World, w': World, h: Host)
    requires HostsOk(w.hosts, w.next, w.catalog) && OneHost(w, w', h)
    requires HostOk(h, h.key, w.next + 1, w.catalog)
    ensures StoreMoves(w, w')
  {
    forall k | k in w'.hosts ensures HostOk(w'.hosts[k], k, w'.next, w'.catalog) {
      if k != h.key {
        assert HostOk(w.hosts[k], k, w.next, w.catalog);
      }
    }
  }

  lemma OneHostBystander(w: World, w': World, h: Host, x: Key)
    requires OneHost(w, w', h) && StoreMoves(w, w') && MachineKept(w, w', x)
    requires Owner(h) == Some(x) <==> Owner(w.hosts[h.key]) == Some(x)
    ensures Bystander(w, w', x)
  {
    hide StoreMoves, MachineKept;
  }

  // ---- The host patches of the machine controller ----

  ghost predicate Patching(w: World, m: Key, f: Flight) {
    && m in w.machines && MachineOk(w, m) && GoodFlight(w, m, f) && f.Pending?
    && f.copy.key in w.hosts && w.hosts[f.copy.key] == f.copy
  }

  // The owner a current copy names is m, or no existing machine.
  lemma CopyOwner(w: World, m: Key, f: Flight)
    requires Patching(w, m, f)
    ensures Owner(f.copy) == Some(m) || Ownerless(f.copy, w.machines.Keys)
    ensures f.local.key == m && HostOk(f.copy, f.copy.key, w.next, w.catalog)
    ensures f.purpose.Claim? ==> Owner(f.copy).None?
    ensures f.purpose.Repair? ==> StateInUse(f.copy.state)
  {
    hide Fits, ServerID, MayDestroy, OwnsNothingBut, OwnsFitting, OwnsOne, OwnsServer;
  }

  lemma PreviousOwner(w: World, m: Key, f: Flight, x: Key)
    requires Patching(w, m, f) && x in w.machines && x != m && x.ns != ""
    ensures Owner(f.copy) != Some(x)
  {
    CopyOwner(w, m, f);
    hide Patching, HostOk;
  }

  // The host patched is the one host m may own.
  lemma PatchTarget(w: World, m: Key, f: Flight)
    requires Patching(w, m, f)
    ensures OwnsNothingBut(w, m, f.copy.key)
    ensures f.copy.key in w.catalog
            && Fits(m, w.machines[m].directHost, w.machines[m].selector, f.copy.key, w.catalog[f.copy.key])
  {
    CopyOwner(w, m, f);
    var k := f.copy.key;
    if OwnedBy(w.hosts, k, m) {
      hide GoodFlight, Fits, ServerID, RecordOk;
    } else if f.purpose.Claim? || f.purpose.Adopt? {
      hide MachineOk, LocalRecordOk, Fits, ServerID;
    } else {
      assert Reserved(w, m, k) by { hide MachineOk, Fits, ServerID, MayDestroy, OwnsNothingBut; }
      hide MachineOk, GoodFlight;
    }
  }

  // ... and, for a provisioned machine without a record, on the server of its provider ID.
  lemma PatchServer(w: World, m: Key, f: Flight)
    requires Patching(w, m, f)
    requires w.machines[m].stage == Provisioned && w.machines[m].hostRef == ""
    ensures ServerID(w.machines[m].providerID) == Some(f.copy.serverID)
  {
    CopyOwner(w, m, f);
    hide ServerID, Fits, MayDestroy;
  }

  lemma PatchedOk(w: World, m: Key, f: Flight)
    requires Patching(w, m, f)
    ensures Patched(f).key == f.copy.key
    ensures Owner(Patched(f)) == if f.purpose.Release? then None else Some(m)
    ensures Patched(f).serverID == f.copy.serverID
    ensures HostOk(Patched(f).(version := w.next), f.copy.key, w.next + 1, w.catalog)
  {
    CopyOwner(w, m, f);
    PatchedFields(f);
    hide Patching, Patched, Ownerless;
  }

  lemma PatchedFields(f: Flight)
    requires f.Pending?
    ensures var h, c := Patched(f), f.copy;
            && h.key == c.key && h.serverID == c.serverID && h.labels == c.labels
            && Owner(h) == (if f.purpose.Release? then None else Some(f.local.key))
            && h.consumerRef == h.machineRef
            && (f.purpose.Repair? ==> h.state == c.state)
            && (!f.purpose.Repair? && !f.purpose.Release? ==> StateInUse(h.state))
            && (f.purpose.Release? ==> h.state == Available)
  {
  }

  // What PatchStep does when the copy is current, with the written host named.
  ghost predicate Accepted(w: World, w': World, m: Key, f: Flight, h: Host) {
    && m in w.flights && w.flights[m] == f
    && Patching(w, m, f)
    && h == Patched(f).(version := w.next)
    && w' == WithFlight(w.(hosts := w.hosts[h.key := h], next := w.next + 1), m, AfterPatch(f, h))
  }

  lemma AcceptedWrites(w: World, w': World, m: Key, f: Flight, h: Host)
    requires HostsOk(w.hosts, w.next, w.catalog) && Accepted(w, w', m, f, h)
    ensures OneHost(w, w', h) && h.key == f.copy.key
    ensures Owner(h) == if f.purpose.Release? then None else Some(m)
    ensures StoreMoves(w, w')
  {
    PatchedOk(w, m, f);
    hide Patching, AfterPatch, Patched;
    OneHostMoves(w, w', h);
  }

  lemma PatchKeepsOthers(w: World, w': World, m: Key, f: Flight, h: Host, x: Key)
    requires HostsOk(w.hosts, w.next, w.catalog) && Accepted(w, w', m, f, h) && x in w.machines && x != m && x.ns != ""
    ensures Bystander(w, w', x)
  {
    AcceptedWrites(w, w', m, f, h);
    PreviousOwner(w, m, f, x);
    assert MachineKept(w, w', x) && f.copy == w.hosts[h.key];
    hide Accepted, HostsOk, StoreMoves, MachineKept, Bystander, OneHost;
    OneHostBystander(w, w', h, x);
  }

  // The patched host was not another machine's reservation, unless it is adopted.
  lemma PatchSpares(w: World, m: Key, f: Flight, x: Key)
    requires Patching(w, m, f) && x in w.machines && x != m && m.ns != ""
    requires Reserved(w, x, f.copy.key)
    ensures f.purpose.Adopt?
  {
    CopyOwner(w, m, f);
    hide Fits, ServerID, MayDestroy, OwnsNothingBut, HostOk;
  }

  lemma PatchTakes(w: World, m: Key, f: Flight, x: Key)
    requires m in w.flights && w.flights[m] == f && Patching(w, m, f) && x in w.machines && x != m && m.ns != ""
    requires Reserved(w, x, f.copy.key) && Records(w, x, f.copy.key) && !Leaving(w, x)
    ensures TakesOver(w, Patch(m))
  {
    PatchSpares(w, m, f, x);
    hide MachineOk, GoodFlight, Reserved, Records, Leaving;
  }

  lemma PatchReserves(w: World, w': World, m: Key, f: Flight, h: Host, x: Key)
    requires HostsOk(w.hosts, w.next, w.catalog) && Accepted(w, w', m, f, h) && x in w.machines && x != m && m.ns != ""
    requires Bystander(w, w', x) && !TakesOver(w, Patch(m))
    ensures ReservedKept(w, w', x)
  {
    AcceptedWrites(w, w', m, f, h);
    hide HostsOk, StoreMoves, Patching, Bystander, TakesOver, Records, Leaving, Reserved;
    forall k | k in w'.hosts && Reserved(w, x, k) && Records(w, x, k) && !Leaving(w, x) ensures Reserved(w', x, k) {
      if k == f.copy.key {
        PatchTakes(w, m, f, x);
      } else {
        OthersUntouched(w, w', h, x, k);
        ReservedStays(w, w', x, k);
      }
    }
  }

  lemma OthersUntouched(w: World, w': World, h: Host, x: Key, k: Key)
    requires OneHost(w, w', h) && k in w'.hosts && k != h.key
    ensures k in w.hosts && w'.hosts[k] == w.hosts[k]
  {
  }

  // After the patch m owns the patched host only, or, after a release, nothing.
  lemma PatchOwns(w: World, w': World, m: Key, f: Flight, h: Host)
    requires HostsOk(w.hosts, w.next, w.catalog) && Accepted(w, w', m, f, h)
    ensures OwnsNothingBut(w', m, h.key)
    ensures f.purpose.Release? <==> !OwnedBy(w'.hosts, h.key, m)
  {
    AcceptedWrites(w, w', m, f, h);
    PatchTarget(w, m, f);
    assert w'.hosts == w.hosts[h.key := h] && h.key == f.copy.key;
    hide Accepted, HostsOk, StoreMoves, Patching, OneHost;
    forall l | OwnedBy(w'.hosts, l, m) ensures l == h.key {
      assert l != h.key ==> OwnedBy(w.hosts, l, m);
    }
  }

  lemma PatchMachineOk(w: World, w': World, m: Key, f: Flight, h: Host)
    requires HostsOk(w.hosts, w.next, w.catalog) && Accepted(w, w', m, f, h)
    ensures MachineOk(w', m)
  {
    AcceptedWrites(w, w', m, f, h);
    PatchOwns(w, w', m, f, h);
    PatchTarget(w, m, f);
    var mc := w.machines[m];
    assert OwnsFitting(w', m, mc) && OwnsOne(w', m) by { hide Accepted, HostsOk, StoreMoves; }
    if mc.stage == Provisioned && mc.hostRef == "" {
      PatchServer(w, m, f);
    }
    assert mc.key == m && m.ns != "" && w'.machines[m] == mc;
    assert !Leaving(w', m) ==> RecordOk(w', m, mc.hostRef) by {
      PatchRecord(w, w', m, f, h);
    }
    hide Accepted, HostsOk, StoreMoves, OwnsFitting, OwnsOne, RecordOk, Leaving, ServerID;
  }

  lemma PatchRecord(w: World, w': World, m: Key, f: Flight, h: Host)
    requires Accepted(w, w', m, f, h) && h.key == f.copy.key && w'.machines == w.machines
    requires f.purpose.Release? <==> !OwnedBy(w'.hosts, h.key, m)
    ensures !Leaving(w', m) ==> RecordOk(w', m, w.machines[m].hostRef)
    ensures f.purpose.Release? <==> LeavingFlight(w'.flights[m])
    ensures !f.purpose.Release? && w.machines[m].hostRef != "" ==> HostKey(m, w.machines[m].hostRef) == h.key
    ensures (f.purpose.Claim? || f.purpose.Adopt?) ==> w.machines[m].hostRef == ""
    ensures (f.purpose.Repair? || f.purpose.Confirm?) ==> f.local.hostRef != "" && HostKey(m, f.local.hostRef) == h.key
  {
    hide Reserved, ServerID, Fits, MayDestroy, MachineOk, CopyOk, LocalRecordOk, Patched, Unblocked, OwnsNothingBut;
  }

  // Where the reconcile of a machine that now owns host h stands.
  lemma OwnerGood(w': World, m: Key, f: Flight, h: Host)
    requires m in w'.machines && f.Pending? && !f.purpose.Release?
    requires LocalOk(w', m, f.local) && f.local.providerID == w'.machines[m].providerID
    requires h.key.ns == m.ns && h.key.name != "" && OwnedBy(w'.hosts, h.key, m)
    requires f.purpose.Claim? || f.purpose.Adopt? ==> f.local.hostRef == ""
    requires f.purpose.Repair? || f.purpose.Confirm? ==> f.local.hostRef != "" && HostKey(m, f.local.hostRef) == h.key
    ensures GoodFlight(w', m, AfterPatch(f, h))
  {
    assert RecordOk(w', m, h.key.name) by { OwnedIsRecordOk(w', m, h.key.name); }
    hide RecordOk;
  }

  lemma PatchFlightOk(w: World, w': World, m: Key, f: Flight, h: Host)
    requires HostsOk(w.hosts, w.next, w.catalog) && Accepted(w, w', m, f, h)
    ensures FlightOk(w', m)
  {
    AcceptedWrites(w, w', m, f, h);
    PatchOwns(w, w', m, f, h);
    PatchRecord(w, w', m, f, h);
    PatchPlace(w, m, f);
    assert LocalOk(w, m, f.local) && f.local.providerID == w.machines[m].providerID by {
      hide CopyOk, LocalRecordOk, MachineOk;
    }
    assert f.purpose.Claim? || f.purpose.Adopt? ==> f.local.hostRef == "" by { hide MachineOk, CopyOk, LocalRecordOk, LocalOk; }
    assert w'.machines == w.machines && w'.flights[m] == AfterPatch(f, h);
    hide Accepted, HostsOk, StoreMoves, Patching, OneHost, RecordOk;
    assert LocalOk(w', m, f.local);
    if f.purpose.Release? {
      hide LocalOk;
    } else {
      hide LocalOk, GoodFlight, AfterPatch;
      OwnerGood(w', m, f, h);
    }
  }

  lemma OwnedIsRecordOk(w: World, m: Key, name: string)
    requires OwnedBy(w.hosts, HostKey(m, name), m)
    ensures RecordOk(w, m, name)
  {
    hide Reserved;
  }

  lemma PatchPlace(w: World, m: Key, f: Flight)
    requires Patching(w, m, f)
    ensures f.copy.key.ns == m.ns && f.copy.key.name != ""
  {
    CopyOwner(w, m, f);
    PatchTarget(w, m, f);
    hide Patching, OwnsNothingBut;
  }

  lemma PatchAcceptedInv(w: World, w': World, m: Key, f: Flight, h: Host)
    requires Inv(w) && Accepted(w, w', m, f, h) && !TakesOver(w, Patch(m))
    ensures Inv(w')
  {
    InvParts(w);
    AcceptedWrites(w, w', m, f, h);
    PatchMachineOk(w, w', m, f, h);
    PatchFlightOk(w, w', m, f, h);
    AcceptedFrame(w, w', m, f, h);
    forall x | x in w.machines ensures x.ns != "" { assert MachineOk(w, x); }
    hide Inv, Accepted, MachineOk, FlightOk, CopyOk, HostsOk, StoreMoves, OneHost, Bystander, ReservedKept, TakesOver;
    forall x | x in w'.machines && x != m ensures MachineOk(w', x) && (x in w'.flights ==> FlightOk(w', x)) {
      PatchKeepsOthers(w, w', m, f, h, x);
      PatchReserves(w, w', m, f, h, x);
      BystanderOk(w, w', x);
    }
    InvFrom(w, w');
  }

  lemma AcceptedFrame(w: World, w': World, m: Key, f: Flight, h: Host)
    requires Accepted(w, w', m, f, h)
    ensures w'.machines == w.machines && w'.flights.Keys == w.flights.Keys && m in w.machines && m in w.flights
    ensures w'.hostFlights == w.hostFlights && w'.log == w.log
  {
    assert m in w.machines;
    hide Patching, AfterPatch, Patched;
    assert w'.flights.Keys == w.flights.Keys + {m};
  }

  lemma PatchAccepted(w: World, m: Key)
    requires Inv(w) && m in w.flights && w.flights[m].Pending? && Current(w, w.flights[m].copy)
    ensures Accepted(w, PatchStep(w, m), m, w.flights[m], Patched(w.flights[m]).(version := w.next))
  {
    InvAt(w, m);
    assert CopyOk(w, w.flights[m].copy) by { hide Inv, LocalOk, LocalRecordOk; }
    hide Inv, AfterPatch, GoodFlight, MachineOk;
  }

  lemma ConflictGood(w: World, m: Key, f: Flight)
    requires m in w.machines && GoodFlight(w, m, f) && f.Pending?
    ensures GoodFlight(w, m, AfterConflict(f))
  {
    hide LocalRecordOk, CopyOk;
  }

  lemma PatchInv(w: World, w': World, m: Key)
    requires Inv(w) && m in w.flights && w.flights[m].Pending?
    requires w' == PatchStep(w, m)
    ensures !TakesOver(w, Patch(m)) ==> Inv(w')
    ensures forall x | x in w.machines && x != m :: Bystander(w, w', x)
  {
    InvParts(w);
    InvAt(w, m);
    var f := w.flights[m];
    if !Current(w, f.copy) {
      ConflictGood(w, m, f);
      hide Inv, GoodFlight, MachineOk, HostsOk, Bystander;
      MoveInv(w, w', m, AfterConflict(f));
    } else {
      var h := Patched(f).(version := w.next);
      PatchAccepted(w, m);
      forall x | x in w.machines ensures x.ns != "" { assert MachineOk(w, x); }
      hide Inv, Accepted, PatchStep, GoodFlight, MachineOk, HostsOk, Bystander, TakesOver;
      forall x | x in w.machines && x != m ensures Bystander(w, w', x) {
        PatchKeepsOthers(w, w', m, f, h, x);
      }
      if !TakesOver(w, Patch(m)) {
        PatchAcceptedInv(w, w', m, f, h);
      }
    }
  }

  // ---- Operators and the host controller ----

  // A step that takes no machine reconcile further and changes nobody's claim.
  lemma OutsideInv(w: World, w': World)
    requires Inv(w) && StoreMoves(w, w')
    requires w'.flights == w.flights && w'.log == w.log && w.machines.Keys <= w'.machines.Keys
    requires forall x | x in w.machines :: Bystander(w, w', x)
    requires forall k | k in w.hosts && k in w'.hosts :: SameClaimant(w.hosts[k], w'.hosts[k])
    requires forall x | x in w'.machines && x !in w.machines :: MachineOk(w', x)
    requires forall k | k in w'.hostFlights :: w'.hostFlights[k].key == k
                && ((k in w.hostFlights && w'.hostFlights[k] == w.hostFlights[k]) || CopyOk(w', w'.hostFlights[k]))
    ensures Inv(w')
  {
    InvParts(w);
    hide Inv, Bystander, SameClaimant, MachineOk, FlightOk, CopyOk, HostsOk, StoreMoves, ReservedKept;
    forall x | x in w'.machines ensures MachineOk(w', x) && (x in w'.flights ==> FlightOk(w', x)) {
      if x in w.machines {
        ClaimsReserve(w, w', x);
        BystanderOk(w, w', x);
      }
    }
    InvFrom(w, w');
  }

  predicate OwnerAndIdentityKept(g: Host, h: Host) {
    && h.serverID == g.serverID && h.labels == g.labels
    && h.consumerRef == g.consumerRef && h.machineRef == g.machineRef
    && (h.state == g.state || (g.state == Unset && h.state == Available))
  }

  lemma RewriteStore(w: World, w': World, h: Host)
    requires HostsOk(w.hosts, w.next, w.catalog) && h.key in w.hosts && w' == PutHost(w, h)
    requires OwnerAndIdentityKept(w.hosts[h.key], h)
    ensures StoreMoves(w, w') && OneHost(w, w', h.(version := w.next))
    ensures forall k | k in w.hosts && k in w'.hosts :: SameClaimant(w.hosts[k], w'.hosts[k])
    ensures w'.flights == w.flights && w'.log == w.log && w'.machines == w.machines && w'.hostFlights == w.hostFlights
    ensures Owner(h.(version := w.next)) == Owner(w.hosts[h.key])
  {
    assert HostOk(w.hosts[h.key], h.key, w.next, w.catalog);
    OneHostMoves(w, w', h.(version := w.next));
    hide HostsOk, StoreMoves;
  }

  // Writing a host without touching its owner or identity.
  lemma RewriteInv(w: World, w': World, h: Host)
    requires Inv(w) && h.key in w.hosts
    requires w' == PutHost(w, h)
    requires OwnerAndIdentityKept(w.hosts[h.key], h)
    ensures Inv(w')
    ensures forall x | x in w.machines :: Bystander(w, w', x)
  {
    var h1 := h.(version := w.next);
    hide Inv, HostsOk, HostOk, StoreMoves, MachineOk, OneHost, CopyOk, FlightOk, Bystander, PutHost, SameClaimant;
    InvParts(w);
    RewriteStore(w, w', h);
    forall x | x in w.machines ensures Bystander(w, w', x) {
      OneHostBystander(w, w', h1, x);
    }
    OutsideInv(w, w');
  }

  // The store as a whole moved, and no machine was touched.
  lemma StoreBystander(w: World, w': World, x: Key)
    requires StoreMoves(w, w') && MachineKept(w, w', x)
    requires forall k | k in w'.hosts && k in w.hosts :: w'.hosts[k] == w.hosts[k]
    requires forall k | k in w'.hosts && k !in w.hosts :: !MachineMentions(w, x, k) && Owner(w'.hosts[k]).None?
    ensures Bystander(w, w', x)
  {
    hide HostsOk, MachineKept;
  }

  lemma DropInv(w: World, w': World, k: Key)
    requires Inv(w) && k in w.hosts
    requires w' == DropHost(w, k)
    ensures Inv(w')
    ensures forall x | x in w.machines :: Bystander(w, w', x)
  {
    InvParts(w);
    assert StoreMoves(w, w');
    hide Inv, HostsOk, StoreMoves, MachineOk, Bystander;
    forall x | x in w.machines ensures Bystander(w, w', x) {
      StoreBystander(w, w', x);
    }
    OutsideInv(w, w');
  }

  lemma ApplyCreateHost(w: World, h: Host)
    requires Enabled(w, CreateHost(h))
    ensures Apply(w, CreateHost(h)) == PutHost(w, h)
    ensures h.key !in w.hosts && Owner(h).None? && forall m | m in w.machines :: !MachineMentions(w, m, h.key)
  {
    hide MachineMentions;
  }

  lemma CreateHostInv(w: World, w': World, h: Host)
    requires Inv(w) && Enabled(w, CreateHost(h)) && w' == Apply(w, CreateHost(h))
    ensures Inv(w')
    ensures forall x | x in w.machines :: Bystander(w, w', x)
  {
    hide Inv, Apply, Enabled, HostsOk, StoreMoves, MachineOk, Bystander, MachineMentions, CopyOk;
    InvParts(w);
    ApplyCreateHost(w, h);
    CreateHostMoves(w, h);
    forall x | x in w.machines ensures Bystander(w, w', x) {
      StoreBystander(w, w', x);
    }
    OutsideInv(w, w');
  }

  lemma CreateHostMoves(w: World, h: Host)
    requires HostsOk(w.hosts, w.next, w.catalog) && Enabled(w, CreateHost(h))
    ensures StoreMoves(w, PutHost(w, h))
  {
    var w' := PutHost(w, h);
    forall k | k in w'.hosts ensures HostOk(w'.hosts[k], k, w'.next, w'.catalog) {
      if k != h.key {
        assert HostOk(w.hosts[k], k, w.next, w.catalog);
      }
    }
  }

  lemma ApplyCreateMachine(w: World, mc: Machine)
    requires Enabled(w, CreateMachine(mc))
    ensures Apply(w, CreateMachine(mc)) == w.(machines := w.machines[mc.key := mc])
    ensures mc.key !in w.machines && mc.key.ns != "" && mc.hostRef == ""
    ensures forall k | k in w.hosts :: !Refers(w.hosts[k], mc.key)
  {
  }

  lemma NewMachine(w: World, mc: Machine)
    requires HostsOk(w.hosts, w.next, w.catalog) && w.flights.Keys <= w.machines.Keys
    requires mc.key !in w.machines && mc.key.ns != "" && mc.hostRef == ""
    requires forall k | k in w.hosts :: !Refers(w.hosts[k], mc.key)
    ensures var w' := w.(machines := w.machines[mc.key := mc]);
            StoreMoves(w, w') && MachineOk(w', mc.key) && mc.key !in w.flights
  {
    hide HostsOk, Fits, ServerID;
    assert forall k :: !OwnedBy(w.hosts, k, mc.key);
  }

  lemma CreateMachineInv(w: World, w': World, mc: Machine)
    requires Inv(w) && Enabled(w, CreateMachine(mc)) && w' == Apply(w, CreateMachine(mc))
    ensures Inv(w')
    ensures forall x | x in w.machines :: Bystander(w, w', x)
  {
    hide Inv, Apply, Enabled, HostsOk, StoreMoves, MachineOk, Bystander, CopyOk;
    InvParts(w);
    ApplyCreateMachine(w, mc);
    NewMachine(w, mc);
    forall x | x in w.machines ensures Bystander(w, w', x) {
      StoreBystander(w, w', x);
    }
    OutsideInv(w, w');
  }

  lemma QuietInv(w: World, w': World, s: Step)
    requires Inv(w) && Enabled(w, s) && w' == Apply(w, s)
    requires s.DeleteMachine? || s.SetReleases? || s.Tick? || s.HostRead? || s.HostDrop?
    ensures Inv(w')
    ensures forall x | x in w.machines :: Bystander(w, w', x)
  {
    InvParts(w);
    QuietFrame(w, w', s);
    StoreMovesSame(w, w');
    hide Inv, Apply, Enabled, HostsOk, StoreMoves, MachineOk, Bystander, CopyOk;
    forall x | x in w.machines ensures Bystander(w, w', x) {
      StoreBystander(w, w', x);
    }
    OutsideInv(w, w');
  }

  lemma QuietFrame(w: World, w': World, s: Step)
    requires HostsOk(w.hosts, w.next, w.catalog) && Enabled(w, s) && w' == Apply(w, s)
    requires s.DeleteMachine? || s.SetReleases? || s.Tick? || s.HostRead? || s.HostDrop?
    requires forall k | k in w.hostFlights :: w.hostFlights[k].key == k
    ensures w'.hosts == w.hosts && w'.next == w.next && w'.catalog == w.catalog && w'.legacy == w.legacy
    ensures w'.flights == w.flights && w'.log == w.log && w'.machines.Keys == w.machines.Keys
    ensures forall x | x in w.machines :: MachineKept(w, w', x)
    ensures forall k | k in w'.hostFlights :: w'.hostFlights[k].key == k
              && ((k in w.hostFlights && w'.hostFlights[k] == w.hostFlights[k]) || CopyOk(w', w'.hostFlights[k]))
  {
    if s.HostRead? {
      StoredCopyOk(w, s.k);
    }
    hide HostsOk;
  }

  lemma BystanderOfHostFlights(w: World, w1: World, w': World, x: Key)
    requires w1 == w.(hostFlights := w1.hostFlights) && Bystander(w1, w', x)
    ensures Bystander(w, w', x)
  {
    hide HostsOk;
  }

  lemma HostPatchInv(w: World, w': World, k: Key)
    requires Inv(w) && k in w.hostFlights && w' == PatchHostStep(w, k)
    ensures Inv(w')
    ensures forall x | x in w.machines :: Bystander(w, w', x)
  {
    InvParts(w);
    var copy := w.hostFlights[k];
    assert copy.key == k;
    var h := HostNext(copy);
    var w1 := w.(hostFlights := w.hostFlights - {k});
    assert w1 == Apply(w, HostDrop(k)) && Enabled(w, HostDrop(k));
    QuietInv(w, w1, HostDrop(k));
    assert CopyOk(w, copy);
    hide Inv, Bystander, MachineOk, HostsOk, Apply, Enabled;
    if h != copy && Current(w, copy) {
      assert w.hosts[k] == copy;
      if h.deleting && !h.finalizer {
        DropInv(w1, w', k);
      } else {
        RewriteInv(w1, w', h);
      }
      forall x | x in w.machines ensures Bystander(w, w', x) {
        BystanderOfHostFlights(w, w1, w', x);
      }
    }
  }

  lemma OperatorInv(w: World, s: Step)
    requires Inv(w) && Enabled(w, s)
    requires s.EditHost? || s.DeleteHost?
    ensures Inv(Apply(w, s))
    ensures forall x | x in w.machines :: Bystander(w, Apply(w, s), x)
  {
    var w' := Apply(w, s);
    InvParts(w);
    assert HostOk(w.hosts[s.k], s.k, w.next, w.catalog);
    hide Inv, Bystander, HostsOk, MachineOk;
    if s.EditHost? {
      RewriteInv(w, w', w.hosts[s.k].(lifecycle := s.lifecycle, policy := s.policy, maintenance := s.maintenance));
    } else if w.hosts[s.k].finalizer {
      RewriteInv(w, w', w.hosts[s.k].(deleting := true));
    } else {
      DropInv(w, w', s.k);
    }
  }

  lemma RemoveInv(w: World, m: Key)
    requires Inv(w) && Enabled(w, Remove(m))
    ensures Inv(Apply(w, Remove(m)))
  {
    hide Inv;
    EndInv(w, Apply(w, Remove(m)), m);
  }

  // ---- All steps ----

  lemma StepInv(w: World, s: Step)
    requires Inv(w) && Enabled(w, s) && !LosesRelease(w, s) && !TakesOver(w, s)
    ensures Inv(Apply(w, s))
  {
    hide Inv, LosesRelease, TakesOver;
    var w' := Apply(w, s);
    match s {
      case CreateHost(h) => CreateHostInv(w, w', h);
      case EditHost(_, _, _, _) => OperatorInv(w, s);
      case DeleteHost(_) => OperatorInv(w, s);
      case CreateMachine(mc) => CreateMachineInv(w, w', mc);
      case DeleteMachine(_) => QuietInv(w, w', s);
      case SetReleases(_) => QuietInv(w, w', s);
      case Tick(_) => QuietInv(w, w', s);
      case HostRead(_) => QuietInv(w, w', s);
      case HostPatch(k) => HostPatchInv(w, w', k);
      case HostDrop(_) => QuietInv(w, w', s);
      case Begin(m, list) => BeginInv(w, w', m, list);
      case Patch(m) => PatchInv(w, w', m);
      case Emit(m, kind) => EmitInv(w, w', m, kind);
      case Remove(m) => RemoveInv(w, m);
      case Save(m) => SaveInv(w, w', m);
      case Crash(m) => CrashInv(w, w', m);
      case Fetch(m) => FetchInv(w, m);
      case Vet(m, fails) => VetInv(w, m, fails);
      case ReadConfirm(m) => ReadConfirmInv(w, m);
      case ReadRelease(m) => ReadReleaseInv(w, m);
      case Gate(m) => GateInv(w, m);
      case _ => EndWorkInv(w, s);
    }
  }

  // A release that is lost leaves a record of a host the machine is not entitled to.
  lemma LostReleaseBreaks(w: World, m: Key)
    requires Enabled(w, Crash(m)) && LosesRelease(w, Crash(m))
    ensures !Inv(Apply(w, Crash(m)))
  {
    var w' := Apply(w, Crash(m));
    assert !MachineOk(w', m) by {
      SameRecord(w, w', m, w.machines[m].hostRef);
      hide RecordOk;
    }
    hide MachineOk;
  }

  // A takeover leaves the other machine with such a record.
  lemma TakeoverBreaks(w: World, m: Key)
    requires Inv(w) && Enabled(w, Patch(m)) && TakesOver(w, Patch(m))
    ensures !Inv(Apply(w, Patch(m)))
  {
    var k := w.flights[m].copy.key;
    var w' := Apply(w, Patch(m));
    var x :| x in w.machines && x != m && Reserved(w, x, k) && Records(w, x, k) && !Leaving(w, x);
    TakenHost(w, m);
    PatchFrame(w, m, x);
    hide Inv, Apply, Enabled, TakesOver, Reserved, Leaving;
    assert !Entitled(w', x, k) by { TakenIsNotReserved(w', m, x, k); }
    if Inv(w') {
      RecordsEntitled(w', x, k);
    }
  }

  lemma TakenIsNotReserved(w: World, m: Key, x: Key, k: Key)
    requires k in w.hosts && w.hosts[k].consumerRef == Some(m) && x != m
    ensures !Entitled(w, x, k)
  {
    hide Fits, OwnsNothingBut;
  }

  lemma RecordsEntitled(w: World, x: Key, k: Key)
    requires Inv(w) && Records(w, x, k) && !Leaving(w, x) && k in w.hosts
    ensures Entitled(w, x, k)
  {
    InvAt(w, x);
    hide Inv, Reserved, LocalOk, CopyOk, ServerID, Fits, MayDestroy;
  }

  lemma PatchFrame(w: World, m: Key, x: Key)
    requires Enabled(w, Patch(m)) && x != m
    ensures var w' := Apply(w, Patch(m));
            && w'.machines == w.machines && w'.flights.Keys == w.flights.Keys
            && (x in w.flights ==> w'.flights[x] == w.flights[x])
  {
    ApplyPatch(w, m);
    hide Apply, Enabled, Patched, AfterPatch, AfterConflict;
  }

  lemma TakenHost(w: World, m: Key)
    requires Inv(w) && Enabled(w, Patch(m)) && TakesOver(w, Patch(m))
    ensures var k := w.flights[m].copy.key; var w' := Apply(w, Patch(m));
            m in w.machines && m.ns != "" && k in w'.hosts && w'.hosts[k].consumerRef == Some(m)
  {
    hide Inv, Apply, Enabled, Patched, AfterPatch;
    ApplyPatch(w, m);
    assert w.flights[m].purpose.Adopt? && Current(w, w.flights[m].copy);
    hide TakesOver;
    InvAt(w, m);
    assert w.flights[m].local.key == m && m.ns != "" by { hide LocalRecordOk, CopyOk; }
    hide MachineOk, GoodFlight;
    AdoptOwner(w.flights[m]);
  }

  lemma ApplyPatch(w: World, m: Key)
    requires Enabled(w, Patch(m))
    ensures m in w.flights && w.flights[m].Pending? && Apply(w, Patch(m)) == PatchStep(w, m)
  {
  }

  lemma AdoptOwner(f: Flight)
    requires f.Pending? && f.purpose.Adopt?
    ensures Patched(f).key == f.copy.key && Patched(f).consumerRef == Some(f.local.key)
  {
  }

  // The invariant is lost at exactly these two kinds of steps.
  lemma StepInvExactly(w: World, s: Step)
    requires Inv(w) && Enabled(w, s)
    ensures Inv(Apply(w, s)) <==> !LosesRelease(w, s) && !TakesOver(w, s)
  {
    if LosesRelease(w, s) {
      LostReleaseBreaks(w, s.m);
    } else if TakesOver(w, s) {
      TakeoverBreaks(w, s.m);
    } else {
      StepInv(w, s);
    }
  }
}
