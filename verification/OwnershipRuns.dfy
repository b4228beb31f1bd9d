// What the ownership protocol guarantees over whole runs.
module OwnershipRuns {
  import opened Common
  import opened Api
  import opened ProviderIds
  import opened Policy
  import opened Claims
  import opened HostReconcile
  import opened Ownership
  import opened OwnershipSteps

  ghost predicate Run(trace: seq<World>, steps: seq<Step>) {
    && |trace| == |steps| + 1
    && Start(trace[0])
    && (forall i | 0 <= i < |steps| :: Enabled(trace[i], steps[i]) && trace[i + 1] == Apply(trace[i], steps[i]))
  }

  // No reconcile is lost between a release and the removal of its finalizer.
  ghost predicate KeepsReleases(trace: seq<World>, steps: seq<Step>)
    requires |trace| == |steps| + 1
  {
    forall i | 0 <= i < |steps| :: !LosesRelease(trace[i], steps[i])
  }

  // No machine adopts a host that another machine has a legacy record of.
  ghost predicate NoTakeovers(trace: seq<World>, steps: seq<Step>)
    requires |trace| == |steps| + 1
  {
    forall i | 0 <= i < |steps| :: !TakesOver(trace[i], steps[i])
  }

  ghost predicate Orderly(trace: seq<World>, steps: seq<Step>)
    requires |trace| == |steps| + 1
  {
    KeepsReleases(trace, steps) && NoTakeovers(trace, steps)
  }

  lemma NoFlightsAtStart(trace: seq<World>, steps: seq<Step>)
    requires Run(trace, steps)
    ensures |trace| == |steps| + 1 && trace[0].flights == map[] && trace[0].log == []
  {
    hide HostsOk, MachineOk;
  }

  lemma RunLength(trace: seq<World>, steps: seq<Step>)
    requires Run(trace, steps)
    ensures |trace| == |steps| + 1
  {
  }

  lemma RunStep(trace: seq<World>, steps: seq<Step>, i: nat)
    requires Run(trace, steps) && i < |steps|
    ensures |trace| == |steps| + 1 && Enabled(trace[i], steps[i]) && trace[i + 1] == Apply(trace[i], steps[i])
  {
    hide Apply, Start, Enabled;
  }

  lemma {:induction false} RunInv(trace: seq<World>, steps: seq<Step>, i: nat)
    requires Run(trace, steps) && Orderly(trace, steps) && i < |trace|
    ensures Inv(trace[i])
  {
    hide Inv, Apply, Enabled, LosesRelease, TakesOver;
    if i == 0 {
      StartInv(trace[0]);
    } else {
      RunInv(trace, steps, i - 1);
      RunStep(trace, steps, i - 1);
      assert !LosesRelease(trace[i - 1], steps[i - 1]) && !TakesOver(trace[i - 1], steps[i - 1]);
      StepInv(trace[i - 1], steps[i - 1]);
    }
  }

  // ---- Exclusive ownership, exactly-once claiming, authorised actions ----

  // Machine m records host k in its stored status, or in the copy a reconcile works on, or
  // is the owner k names. A machine between its release and its removal holds nothing.
  ghost predicate Holds(w: World, m: Key, k: Key) {
    m in w.machines && k in w.hosts && (OwnedBy(w.hosts, k, m) || (!Leaving(w, m) && Records(w, m, k)))
  }

  lemma HoldsEntitled(w: World, m: Key, k: Key)
    requires Inv(w) && Holds(w, m, k)
    ensures m.ns != "" && Entitled(w, m, k)
  {
    InvAt(w, m);
    assert m.ns != "";
    hide Inv, Reserved, Records, Leaving, MachineOk, FlightOk;
    if !OwnedBy(w.hosts, k, m) {
      RecordsEntitled(w, m, k);
    }
  }

  lemma EntitledOnce(w: World, m1: Key, m2: Key, k: Key)
    requires m1 in w.machines && m2 in w.machines && m1.ns != "" && m2.ns != ""
    requires Entitled(w, m1, k) && Entitled(w, m2, k)
    ensures m1 == m2
  {
    hide Fits, OwnsNothingBut;
  }

  lemma RecordsOnce(w: World, m: Key, k: Key, l: Key)
    requires Inv(w) && Records(w, m, k) && Records(w, m, l)
    ensures k == l
  {
    InvAt(w, m);
    hide Inv, MachineOk, LocalRecordOk, CopyOk;
  }

  lemma HoldsOnce(w: World, m: Key, k: Key, l: Key)
    requires Inv(w) && Holds(w, m, k) && Holds(w, m, l)
    ensures k == l
  {
    InvAt(w, m);
    HoldsEntitled(w, m, k);
    HoldsEntitled(w, m, l);
    if OwnedBy(w.hosts, k, m) && OwnedBy(w.hosts, l, m) {
      hide Inv, FlightOk, RecordOk, Holds;
    } else if !OwnedBy(w.hosts, k, m) && !OwnedBy(w.hosts, l, m) {
      hide MachineOk, FlightOk, Inv, Records;
      RecordsOnce(w, m, k, l);
    } else {
      hide Inv, MachineOk, FlightOk, Holds, Fits;
    }
  }

  // At no point of any run do two machines hold the same host.
  lemma Exclusive(trace: seq<World>, steps: seq<Step>, i: nat, m1: Key, m2: Key, k: Key)
    requires Run(trace, steps) && Orderly(trace, steps) && i < |trace|
    requires Holds(trace[i], m1, k) && Holds(trace[i], m2, k)
    ensures m1 == m2
  {
    hide Run, Orderly, Inv, Entitled;
    RunInv(trace, steps, i);
    HoldsEntitled(trace[i], m1, k);
    HoldsEntitled(trace[i], m2, k);
    EntitledOnce(trace[i], m1, m2, k);
  }

  // At no point of any run does one machine hold two hosts.
  lemma ExactlyOnce(trace: seq<World>, steps: seq<Step>, i: nat, m: Key, k1: Key, k2: Key)
    requires Run(trace, steps) && Orderly(trace, steps) && i < |trace|
    requires Holds(trace[i], m, k1) && Holds(trace[i], m, k2)
    ensures k1 == k2
  {
    hide Run, Orderly, Inv, Holds;
    RunInv(trace, steps, i);
    HoldsOnce(trace[i], m, k1, k2);
  }

  // ---- When takeovers cannot happen ----

  // No two machines name the same physical server.
  ghost predicate DistinctServers(w: World) {
    forall x, y | x in w.machines && y in w.machines && x != y ::
      ServerID(w.machines[x].providerID).Some? ==> ServerID(w.machines[x].providerID) != ServerID(w.machines[y].providerID)
  }

  // A machine that waits to repair a legacy record names the server it is on.
  ghost predicate ReservedNamed(w: World) {
    forall x, k | Reserved(w, x, k) :: ServerID(w.machines[x].providerID) == Some(w.hosts[k].serverID)
  }

  lemma AdopterNamesServer(w: World, m: Key)
    requires Inv(w) && m in w.flights && w.flights[m].Pending? && w.flights[m].purpose.Adopt?
    ensures m in w.machines && ServerID(w.machines[m].providerID) == Some(w.flights[m].copy.serverID)
  {
    InvAt(w, m);
    hide Inv, MachineOk, LocalRecordOk, CopyOk, ServerID, Fits, Unblocked;
  }

  lemma TakeoverSharesServer(w: World, m: Key) returns (x: Key)
    requires Inv(w) && Enabled(w, Patch(m)) && ReservedNamed(w) && TakesOver(w, Patch(m))
    ensures m in w.machines && x in w.machines && x != m
    ensures ServerID(w.machines[x].providerID) == ServerID(w.machines[m].providerID) && ServerID(w.machines[x].providerID).Some?
  {
    hide Enabled, Reserved, Records, Leaving, ServerID;
    AdopterNamesServer(w, m);
    var f := w.flights[m];
    var k := f.copy.key;
    x :| x in w.machines && x != m && Reserved(w, x, k) && Records(w, x, k) && !Leaving(w, x);
    StoredCopy(w, m);
    hide Inv;
    assert ServerID(w.machines[x].providerID) == Some(w.hosts[k].serverID);
  }

  lemma DistinctNoTakeover(w: World, s: Step)
    requires Inv(w) && Enabled(w, s) && DistinctServers(w) && ReservedNamed(w)
    ensures !TakesOver(w, s)
  {
    hide Inv, Enabled, ReservedNamed;
    if TakesOver(w, s) {
      hide TakesOver;
      var x := TakeoverSharesServer(w, s.m);
    }
  }

  lemma StoredCopy(w: World, m: Key)
    requires Inv(w) && m in w.flights && w.flights[m].Pending? && Current(w, w.flights[m].copy)
    ensures CopyOk(w, w.flights[m].copy) && w.hosts[w.flights[m].copy.key] == w.flights[m].copy
  {
    InvAt(w, m);
    hide Inv, MachineOk, LocalOk, LocalRecordOk, HostOk;
  }

  // As long as the provider IDs of existing machines name different servers, runs are orderly
  // up to lost releases.
  lemma {:induction false} DistinctServersSuffice(trace: seq<World>, steps: seq<Step>, n: nat)
    requires Run(trace, steps) && KeepsReleases(trace, steps) && n <= |steps|
    requires forall i | 0 <= i < |steps| :: DistinctServers(trace[i]) && ReservedNamed(trace[i])
    ensures Inv(trace[n])
    ensures forall i | 0 <= i < n :: !TakesOver(trace[i], steps[i])
  {
    hide Inv, Apply, Enabled, LosesRelease, TakesOver, DistinctServers, ReservedNamed;
    if n == 0 {
      StartInv(trace[0]);
    } else {
      DistinctServersSuffice(trace, steps, n - 1);
      RunStep(trace, steps, n - 1);
      DistinctNoTakeover(trace[n - 1], steps[n - 1]);
      StepInv(trace[n - 1], steps[n - 1]);
    }
  }

  // ---- Authorised actions ----

  // At g, machine m's reconcile passed the gate with this evidence, and it has not ended by j.
  ghost predicate PassedGate(trace: seq<World>, steps: seq<Step>, g: nat, j: nat, m: Key, ev: Evidence)
    requires |trace| == |steps| + 1
  {
    && g < j <= |steps| && steps[g] == Gate(m) && m in trace[g].flights && HasCopy(trace[g].flights[m])
    && ev == Evidence(trace[g].flights[m].copy, trace[g].releases, trace[g].now)
    && forall t | g < t < j :: !(steps[t].Begin? && steps[t].m == m)
  }

  lemma GateApplied(w: World, m: Key)
    requires Enabled(w, Gate(m))
    ensures m in w.flights && HasCopy(w.flights[m])
    ensures var g := Apply(w, Gate(m)).flights[m]; g.Gated? && g.ev == Evidence(w.flights[m].copy, w.releases, w.now)
  {
  }

  lemma ApplyMove(w: World, s: Step)
    requires Enabled(w, s)
    ensures s.Begin? ==> s.m in w.machines && Apply(w, s).flights[s.m] == BeginFlight(w, w.machines[s.m], s.list)
    ensures s.Vet? ==> s.m in w.flights && w.flights[s.m].Vetting?
                       && Apply(w, s).flights[s.m] == VetFlight(w, w.flights[s.m], s.lookupFails)
    ensures s.Fetch? ==> s.m in w.flights && w.flights[s.m].Chosen?
                         && Apply(w, s).flights[s.m] == FetchFlight(w, w.flights[s.m])
    ensures s.ReadConfirm? ==>
              && s.m in w.flights && w.flights[s.m].Confirmable?
              && (Apply(w, s).flights[s.m].Vetting? || Apply(w, s).flights[s.m].Done?)
              && Apply(w, s).flights[s.m].local == w.flights[s.m].local
  {
    hide BeginFlight, VetFlight, FetchFlight;
  }

  lemma OnlyGateGates(w: World, s: Step)
    requires Enabled(w, s) && MovesFlight(s) && Apply(w, s).flights[s.m].Gated?
    ensures s.Gate?
  {
    hide Apply, Enabled, VetFlight, FetchFlight, BeginFlight, PatchStep;
    if s.Begin? || s.Vet? || s.Fetch? || s.ReadConfirm? {
      ApplyMove(w, s);
      if s.Begin? {
        NoneGated(w, w.machines[s.m], s.list);
      } else if s.Vet? {
        VetNotGated(w, w.flights[s.m], s.lookupFails);
      } else if s.Fetch? {
        FetchNotGated(w, w.flights[s.m]);
      }
    } else if s.Patch? {
      ApplyPatch(w, s.m);
      PatchNotGated(w, s.m);
    } else if s.ReadRelease? {
      ApplyReadRelease(w, s.m);
    } else if !s.Gate? {
      ApplyEndWork(w, s);
    }
  }

  lemma PatchNotGated(w: World, m: Key)
    requires m in w.flights && w.flights[m].Pending?
    ensures !PatchStep(w, m).flights[m].Gated?
  {
    hide Patched, Current;
  }

  lemma NoneGated(w: World, l: Machine, list: seq<Host>)
    ensures !BeginFlight(w, l, list).Gated?
  {
    hide FirstClaimed, FirstClaimable, WithServerID, ServerID, ClaimedBy, Ensure;
  }

  lemma VetNotGated(w: World, f: Flight, fails: bool)
    requires f.Vetting?
    ensures !VetFlight(w, f, fails).Gated?
  {
    hide BlockingOwner;
  }

  lemma FetchNotGated(w: World, f: Flight)
    requires f.Chosen?
    ensures !FetchFlight(w, f).Gated?
  {
  }

  lemma {:induction false} GatedSince(trace: seq<World>, steps: seq<Step>, j: nat, m: Key)
    returns (g: nat)
    requires Run(trace, steps) && j < |trace| && m in trace[j].flights && trace[j].flights[m].Gated?
    ensures PassedGate(trace, steps, g, j, m, trace[j].flights[m].ev)
  {
    hide Run, Apply, Enabled;
    NoFlightsAtStart(trace, steps);
    var w, s := trace[j - 1], steps[j - 1];
    RunStep(trace, steps, j - 1);
    if MovesFlight(s) && s.m == m {
      OnlyGateGates(w, s);
      GateApplied(w, m);
      g := j - 1;
    } else {
      OtherFlightsStay(w, s, m);
      g := GatedSince(trace, steps, j - 1, m);
    }
  }

  lemma LocalKey(w: World, m: Key)
    requires Inv(w) && m in w.flights
    ensures m in w.machines && m.ns != "" && w.flights[m].local.key == m
  {
    InvAt(w, m);
    hide Inv, LocalRecordOk, CopyOk;
  }

  lemma {:induction false} LoggedAt(trace: seq<World>, steps: seq<Step>, i: nat, e: Entry)
    returns (j: nat)
    requires Run(trace, steps) && Orderly(trace, steps) && i < |trace| && e in trace[i].log
    ensures j < i && steps[j] == Emit(e.machine, e.kind)
    ensures e.machine in trace[j].flights && trace[j].flights[e.machine].Gated? && trace[j].flights[e.machine].ev == e.ev
    decreases i
  {
    hide Run, Orderly, Inv, Apply, Enabled;
    NoFlightsAtStart(trace, steps);
    var w, s := trace[i - 1], steps[i - 1];
    RunStep(trace, steps, i - 1);
    if e in w.log {
      j := LoggedAt(trace, steps, i - 1, e);
    } else if s.Emit? {
      ApplyEmit(w, s.m, s.kind);
      RunInv(trace, steps, i - 1);
      LocalKey(w, s.m);
      j := i - 1;
    } else {
      LogUntouched(w, s);
    }
  }

  // Every physical action of every run was permitted by the destructive-action gate, which
  // the same reconcile passed for the host it hit, with the releases and the clock of that
  // moment; and it was done by the machine owning that host, or, in a delete, on a recorded
  // legacy host that no existing machine owned.
  lemma ActionsAuthorised(trace: seq<World>, steps: seq<Step>, i: nat, e: Entry)
    returns (g: nat, j: nat)
    requires Run(trace, steps) && Orderly(trace, steps) && i < |trace|
    requires e in trace[i].log
    ensures j < i && steps[j] == Emit(e.machine, e.kind) && PassedGate(trace, steps, g, j, e.machine, e.ev)
    ensures e.ev.copy.key == e.host && !e.ev.copy.maintenance
    ensures var h := e.ev.copy;
            || (h.lifecycle == Compute && h.policy == AlwaysCleanSlate)
            || (h.lifecycle == Storage && h.policy == RequiresExternalRelease
                && exists r :: r in e.ev.releases && r.ns == h.key.ns && r.hostName == h.key.name && r.wipeAndReinstall
                               && r.expiresAt > e.ev.now && r.machine == e.capi)
    ensures e.present ==> e.ownerThen == Some(e.machine) || (e.del && !e.ownedThen)
  {
    j := LoggedAt(trace, steps, i, e);
    g := GatedSince(trace, steps, j, e.machine);
    RunInv(trace, steps, i);
    hide Run, Orderly, PassedGate;
    assert EntryOk(e) by { hide EntryOk, HostsOk, MachineOk, FlightOk, CopyOk; }
    hide Inv;
  }

  // A claim whose machine patch was lost is found again: a new reconcile starts working on
  // the very host the machine already owns, whatever else is available.
  lemma ClaimRecovered(w: World, m: Key, list: seq<Host>, k: Key)
    requires Inv(w) && Enabled(w, Begin(m, list)) && OwnedBy(w.hosts, k, m)
    requires var mc := w.machines[m];
             !mc.deleting && mc.stage != Provisioned && (mc.hostRef != "" || mc.directHost != "" || mc.selector.Some?)
             && (mc.hostRef != "" ==> HostKey(m, mc.hostRef) in w.hosts)
    ensures var f := Apply(w, Begin(m, list)).flights[m];
            && f.local.hostRef == k.name
            && (f.Working? || (f.Pending? && f.purpose == Repair)) && f.copy == w.hosts[k]
  {
    hide Inv, Apply, Enabled, Listed, HostsOk, MachineOk, OwnedBy, Leaving, BeginResolve;
    BeginStarts(w, m, list);
    OwnedHost(w, m, k);
    ResolveFinds(w, m, list, k);
  }

  lemma ResolveFinds(w: World, m: Key, list: seq<Host>, k: Key)
    requires HostsOk(w.hosts, w.next, w.catalog) && m in w.machines && MachineOk(w, m) && !Leaving(w, m)
    requires Listed(w, m, list) && OwnedBy(w.hosts, k, m)
    requires var mc := w.machines[m];
             && (mc.hostRef != "" || mc.directHost != "" || mc.selector.Some?)
             && (mc.hostRef != "" ==> HostKey(m, mc.hostRef) in w.hosts)
    ensures BeginResolve(w, w.machines[m], list) == AfterEnsure(w.machines[m].(hostRef := k.name), w.hosts[k])
  {
    var mc := w.machines[m];
    assert mc.key == m;
    hide Listed, HostsOk, MachineOk, OwnedBy, Leaving, AfterEnsure;
    OwnedHost(w, m, k);
    if mc.hostRef != "" {
      RecordedIsClaimed(w, m, k);
    } else if mc.directHost == "" {
      OwnedIsListed(w, m, list, k);
      var mine := FirstClaimed(list, m).value;
      ListedIsStored(w, m, list, mine);
      ClaimedIsOwned(w, mine.key, m);
      OwnedOnce(w, m, mine.key, k);
    } else {
      NothingButDirect(w, m);
    }
  }

  lemma BeginStarts(w: World, m: Key, list: seq<Host>)
    requires Inv(w) && Enabled(w, Begin(m, list))
    ensures m in w.machines && MachineOk(w, m) && !Leaving(w, m) && w.machines[m].key == m && Listed(w, m, list)
    ensures HostsOk(w.hosts, w.next, w.catalog)
    ensures var mc := w.machines[m];
            !mc.deleting && mc.stage != Provisioned ==>
              Apply(w, Begin(m, list)).flights[m] == BeginResolve(w, mc, list)
  {
    InvAt(w, m);
    InvParts(w);
    hide Inv, BeginResolve, BeginProvisioned, BeginDelete;
  }

  lemma OwnedHost(w: World, m: Key, k: Key)
    requires HostsOk(w.hosts, w.next, w.catalog) && m in w.machines && MachineOk(w, m) && OwnedBy(w.hosts, k, m)
    ensures k in w.hosts && w.hosts[k].key == k && ClaimedBy(w.hosts[k], m) && k.name != "" && HostKey(m, k.name) == k
    ensures Owner(w.hosts[k]) == Some(m)
  {
    assert HostOk(w.hosts[k], k, w.next, w.catalog);
    hide HostsOk, RecordOk;
  }

  lemma OwnedOnce(w: World, m: Key, k: Key, l: Key)
    requires m in w.machines && MachineOk(w, m) && OwnedBy(w.hosts, k, m) && OwnedBy(w.hosts, l, m)
    ensures k == l
  {
    hide RecordOk, OwnsFitting, OwnsServer;
  }

  lemma RecordedIsClaimed(w: World, m: Key, k: Key)
    requires m in w.machines && MachineOk(w, m) && !Leaving(w, m) && OwnedBy(w.hosts, k, m)
    requires w.machines[m].hostRef != "" && HostKey(m, w.machines[m].hostRef) in w.hosts
    ensures HostKey(m, w.machines[m].hostRef) == k
  {
    hide Fits;
  }

  lemma ListedIsStored(w: World, m: Key, list: seq<Host>, h: Host)
    requires m in w.machines && Listed(w, m, list) && w.machines[m].selector.Some? && h in list
    ensures h.key in w.hosts && w.hosts[h.key] == h
  {
  }

  // ---- Back to Available ----

  ghost predicate InUse(w: World, k: Key) {
    k in w.hosts && w.hosts[k].state in {Claimed, HostProvisioned}
  }

  lemma PatchSteps(w: World, s: Step)
    requires Enabled(w, s)
    ensures s.HostPatch? ==> s.k in w.hostFlights && Apply(w, s) == PatchHostStep(w, s.k)
    ensures s.Patch? ==> s.m in w.flights && w.flights[s.m].Pending? && Apply(w, s) == PatchStep(w, s.m)
  {
    hide PatchHostStep, PatchStep;
  }

  // What the protocol looks at in a host.
  predicate SameClaim(a: Host, b: Host) {
    && a.state == b.state && a.consumerRef == b.consumerRef && a.machineRef == b.machineRef && a.finalizer == b.finalizer
    && a.serverID == b.serverID
  }

  predicate OperatorOnHosts(s: Step) { s.CreateHost? || s.EditHost? || s.DeleteHost? }

  lemma HostsUntouched(w: World, s: Step)
    requires Enabled(w, s) && !OperatorOnHosts(s) && !s.Patch? && !s.HostPatch?
    ensures Apply(w, s).hosts == w.hosts
  {
    hide BeginFlight, VetFlight, FetchFlight, Saved, EntryFor;
  }

  lemma OperatorStep(w: World, s: Step, k: Key)
    requires HostsOk(w.hosts, w.next, w.catalog) && Enabled(w, s) && OperatorOnHosts(s)
    ensures k in w.hosts && k in Apply(w, s).hosts ==> SameClaim(Apply(w, s).hosts[k], w.hosts[k])
    ensures k in w.hosts && w.hosts[k].finalizer ==> k in Apply(w, s).hosts
    ensures k !in w.hosts && k in Apply(w, s).hosts ==> Apply(w, s).hosts[k].state == Unset
  {
    hide Apply, Enabled, HostsOk;
    if s.CreateHost? {
      ApplyCreateHost(w, s.host);
      assert s.host.state == Unset by { Unregistered(w, s.host); }
    } else {
      ApplyOperator(w, s);
    }
  }

  lemma Unregistered(w: World, h: Host)
    requires Enabled(w, CreateHost(h))
    ensures h.state == Unset && !h.finalizer && !h.deleting && h.version == w.next
  {
    hide MachineMentions;
  }

  lemma ApplyOperator(w: World, s: Step)
    requires HostsOk(w.hosts, w.next, w.catalog) && Enabled(w, s) && (s.EditHost? || s.DeleteHost?)
    ensures s.k in w.hosts && w.hosts[s.k].key == s.k
    ensures Apply(w, s) ==
            if s.EditHost? then
              PutHost(w, w.hosts[s.k].(lifecycle := s.lifecycle, policy := s.policy, maintenance := s.maintenance))
            else if w.hosts[s.k].finalizer then PutHost(w, w.hosts[s.k].(deleting := true))
            else DropHost(w, s.k)
  {
    assert HostOk(w.hosts[s.k], s.k, w.next, w.catalog);
    hide HostsOk;
  }

  // Outside the two patches nothing but a new, unset host appears, and no claim changes.
  lemma OutsidePatches(w: World, s: Step, k: Key)
    requires HostsOk(w.hosts, w.next, w.catalog) && Enabled(w, s) && !s.Patch? && !s.HostPatch?
    ensures k in w.hosts && k in Apply(w, s).hosts ==> SameClaim(Apply(w, s).hosts[k], w.hosts[k])
    ensures k in w.hosts && w.hosts[k].finalizer ==> k in Apply(w, s).hosts
    ensures k !in w.hosts && k in Apply(w, s).hosts ==> Apply(w, s).hosts[k].state == Unset
  {
    hide Apply, Enabled, HostsOk;
    if OperatorOnHosts(s) {
      OperatorStep(w, s, k);
    } else {
      HostsUntouched(w, s);
    }
  }

  lemma OnlyPatchesChangeState(w: World, s: Step, k: Key)
    requires Inv(w) && Enabled(w, s) && !s.Patch? && !s.HostPatch?
    requires k in w.hosts && k in Apply(w, s).hosts
    ensures Apply(w, s).hosts[k].state == w.hosts[k].state
  {
    hide Apply, Enabled;
    OutsidePatches(w, s, k);
  }

  // The host controller leaves the owner alone, changes the state only of an unset host, and
  // does not touch an owned host's finalizer.
  lemma HostPatchStepKeeps(w: World, l: Key, k: Key)
    requires l in w.hostFlights && CopyOk(w, w.hostFlights[l]) && k in w.hosts && w.hosts[k].key == k
    ensures k in PatchHostStep(w, l).hosts ==>
              && Owner(PatchHostStep(w, l).hosts[k]) == Owner(w.hosts[k])
              && PatchHostStep(w, l).hosts[k].serverID == w.hosts[k].serverID
              && (w.hosts[k].state != Unset ==> PatchHostStep(w, l).hosts[k].state == w.hosts[k].state)
    ensures w.hosts[k].finalizer && Owner(w.hosts[k]).Some? ==>
              k in PatchHostStep(w, l).hosts && PatchHostStep(w, l).hosts[k].finalizer
  {
    HostNextKeeps(w.hostFlights[l]);
    hide HostOk, HostNext;
  }

  lemma HostNextKeeps(h: Host)
    ensures HostNext(h).key == h.key && Owner(HostNext(h)) == Owner(h) && HostNext(h).serverID == h.serverID
    ensures h.state != Unset ==> HostNext(h).state == h.state
    ensures h.finalizer && Owner(h).Some? ==> HostNext(h).finalizer
  {
  }

  lemma HostPatchKeepsInUse(w: World, k: Key, l: Key)
    requires Inv(w) && l in w.hostFlights && InUse(w, k) && k in PatchHostStep(w, l).hosts
    ensures PatchHostStep(w, l).hosts[k].state == w.hosts[k].state
  {
    StoreOk(w);
    StoredKey(w, k);
    hide Inv, HostsOk, PatchHostStep, CopyOk;
    HostPatchStepKeeps(w, l, k);
  }

  lemma PatchedFinalizer(f: Flight)
    requires f.Pending?
    ensures Patched(f).key == f.copy.key && Patched(f).finalizer == f.copy.finalizer
    ensures Patched(f).serverID == f.copy.serverID
    ensures f.purpose.Repair? ==> Patched(f).state == f.copy.state
    ensures !f.purpose.Repair? ==> Patched(f).state != Unset
  {
  }

  // A host changes in a patch step only by an accepted write to the very copy that is stored.
  lemma PatchTouches(w: World, m: Key, k: Key)
    requires m in w.flights && w.flights[m].Pending?
    requires CopyOk(w, w.flights[m].copy)
    requires k in w.hosts && PatchStep(w, m).hosts[k] != w.hosts[k]
    ensures w.flights[m].copy == w.hosts[k]
    ensures PatchStep(w, m).hosts[k] == Patched(w.flights[m]).(version := w.next)
  {
    PatchedFinalizer(w.flights[m]);
    hide AfterPatch, AfterConflict, Patched, HostOk;
  }

  lemma PatchedOwner(f: Flight)
    requires f.Pending?
    ensures Owner(Patched(f)) == if f.purpose.Release? then None else Some(f.local.key)
  {
  }

  lemma PatchingAt(w: World, m: Key)
    requires Inv(w) && m in w.flights && w.flights[m].Pending? && Current(w, w.flights[m].copy)
    ensures Patching(w, m, w.flights[m])
  {
    InvAt(w, m);
    StoredCopy(w, m);
    hide Inv, MachineOk, GoodFlight;
  }

  // The owner named by a copy that is still stored, by the purpose of the patch.
  lemma PendingOwner(w: World, m: Key)
    requires Inv(w) && m in w.flights && w.flights[m].Pending? && Current(w, w.flights[m].copy)
    ensures w.flights[m].local.key == m && CopyOk(w, w.flights[m].copy) && m in w.machines
    ensures var f := w.flights[m]; var h := f.copy;
            match f.purpose
            case Claim => Owner(h).None?
            case Repair => Owner(h).None? || Owner(h) == Some(m)
            case Release(_) => Owner(h) == Some(m) || Ownerless(h, w.machines.Keys)
            case _ =>
              && (h.consumerRef.Some? ==> h.consumerRef == Some(m))
              && (h.consumerRef.None? && h.machineRef.Some? && h.machineRef != Some(m) ==> LegacyKey(h) !in w.machines)
              && (Owner(h).None? || Owner(h) == Some(m) || ServerID(w.machines[m].providerID) == Some(h.serverID))
  {
    PatchingAt(w, m);
    StoredCopy(w, m);
    CopyOwner(w, m, w.flights[m]);
    hide Inv, ServerID, Permits, CopyOk, MachineOk, LocalRecordOk, LocalOk, Fits, OwnsNothingBut;
  }

  lemma PendingCopy(w: World, m: Key)
    requires Inv(w) && m in w.flights && w.flights[m].Pending?
    ensures CopyOk(w, w.flights[m].copy)
  {
    InvAt(w, m);
    hide Inv, MachineOk, LocalOk, LocalRecordOk, CopyOk;
  }

  lemma StoreOk(w: World)
    requires Inv(w)
    ensures HostsOk(w.hosts, w.next, w.catalog)
    ensures forall k | k in w.hostFlights :: CopyOk(w, w.hostFlights[k])
  {
    hide HostsOk, CopyOk, MachineOk, FlightOk;
  }

  lemma StoredKey(w: World, k: Key)
    requires Inv(w) && k in w.hosts
    ensures w.hosts[k].key == k
  {
    InvParts(w);
    hide Inv;
  }

  // A patch step never removes a host. It makes a host Available only by a release, never
  // unset, and leaves the finalizers alone.
  lemma PatchStepKeeps(w: World, m: Key, k: Key)
    requires Inv(w) && m in w.flights && w.flights[m].Pending? && k in w.hosts
    ensures k in PatchStep(w, m).hosts && PatchStep(w, m).hosts[k].finalizer == w.hosts[k].finalizer
    ensures w.hosts[k].state != Unset ==> PatchStep(w, m).hosts[k].state != Unset
    ensures InUse(w, k) && PatchStep(w, m).hosts[k].state == Available ==>
              w.flights[m].purpose.Release? && w.flights[m].copy == w.hosts[k]
  {
    var f := w.flights[m];
    PendingCopy(w, m);
    StoredKey(w, k);
    PatchKeepsHosts(w, m, k);
    hide Inv, PatchStep, Patched, CopyOk;
    if PatchStep(w, m).hosts[k] != w.hosts[k] {
      PatchTouches(w, m, k);
      PatchedFinalizer(f);
      PatchedAvailable(f);
    }
  }

  lemma PatchKeepsHosts(w: World, m: Key, k: Key)
    requires m in w.flights && w.flights[m].Pending? && k in w.hosts
    ensures k in PatchStep(w, m).hosts
  {
    hide Patched, AfterPatch, AfterConflict;
  }

  lemma PatchedAvailable(f: Flight)
    requires f.Pending?
    ensures Patched(f).state == Available && f.copy.state != Available ==> f.purpose.Release?
  {
  }

  lemma ReleaseFacts(w: World, m: Key)
    requires Inv(w) && m in w.flights && w.flights[m].Pending? && w.flights[m].purpose.Release?
    ensures m in w.machines && w.machines[m].deleting
    ensures w.flights[m].copy.key in w.hosts ==> Entitled(w, m, w.flights[m].copy.key)
    ensures var ev := w.flights[m].purpose.ev; Permits(ev, w.machines[m].capi) && ev.copy.key == w.flights[m].copy.key
  {
    InvAt(w, m);
    hide Inv, MachineOk, Permits, CopyOk, Reserved;
  }

  // Only a machine that is being deleted, that owns the host or has the legacy record of it,
  // and that passed the gate in the same reconcile makes a host in use Available again.
  lemma AvailableAgain(w: World, s: Step, k: Key)
    requires Inv(w) && Enabled(w, s)
    requires InUse(w, k) && k in Apply(w, s).hosts && Apply(w, s).hosts[k].state == Available
    ensures s.Patch? && s.m in w.flights && s.m in w.machines && w.machines[s.m].deleting && Entitled(w, s.m, k)
    ensures w.flights[s.m].Pending? && w.flights[s.m].purpose.Release? && w.flights[s.m].copy == w.hosts[k]
    ensures Permits(w.flights[s.m].purpose.ev, w.machines[s.m].capi) && w.flights[s.m].purpose.ev.copy.key == k
  {
    hide Inv, Apply, Enabled, PatchHostStep, PatchStep, Permits, Entitled;
    StoredKey(w, k);
    PatchSteps(w, s);
    if s.HostPatch? {
      HostPatchKeepsInUse(w, k, s.k);
    } else if !s.Patch? {
      OnlyPatchesChangeState(w, s, k);
    } else {
      PatchStepKeeps(w, s.m, k);
      ReleaseFacts(w, s.m);
    }
  }

  // The same over runs: whenever a host in use turns Available, the machine it belonged to had
  // been deleted and its reconcile had passed the gate for that host.
  lemma ReturnToAvailable(trace: seq<World>, steps: seq<Step>, i: nat, k: Key)
    requires Run(trace, steps) && Orderly(trace, steps) && i < |steps|
    requires InUse(trace[i], k) && k in trace[i + 1].hosts && trace[i + 1].hosts[k].state == Available
    ensures exists m | m in trace[i].machines :: trace[i].machines[m].deleting && Entitled(trace[i], m, k)
              && steps[i] == Patch(m) && trace[i].flights[m].Pending? && trace[i].flights[m].purpose.Release?
              && Permits(trace[i].flights[m].purpose.ev, trace[i].machines[m].capi)
              && trace[i].flights[m].purpose.ev.copy.key == k
  {
    RunInv(trace, steps, i);
    var w, s := trace[i], steps[i];
    RunStep(trace, steps, i);
    hide Run, Orderly, Inv, Apply, Enabled, Entitled, Permits;
    AvailableAgain(w, s, k);
  }

  // ---- What a host patch stores ----

  // Field by field, what an accepted patch makes of the stored host, by its purpose.
  predicate Written(m: Key, p: Purpose, b: Host, a: Host) {
    match p
    case Claim => ClaimWritten(m, b, a)
    case Repair => OwnerWritten(m, b, a)
    case Adopt => AdoptionWritten(m, b, a)
    case Confirm => ConfirmationWritten(m, b, a)
    case Release(_) => ReleaseWritten(b, a)
  }

  lemma PatchedWritten(f: Flight, version: nat)
    requires f.Pending?
    ensures Written(f.local.key, f.purpose, f.copy, Patched(f).(version := version))
  {
  }

  // In every run a host changes in a patch step of machine m only as the purpose of the patch
  // says, from the very host that was stored.
  lemma PatchWrites(trace: seq<World>, steps: seq<Step>, i: nat, m: Key, k: Key)
    requires Run(trace, steps) && Orderly(trace, steps) && i < |steps| && steps[i] == Patch(m)
    requires k in trace[i].hosts && trace[i + 1].hosts[k] != trace[i].hosts[k]
    ensures m in trace[i].flights && trace[i].flights[m].Pending? && trace[i].flights[m].copy == trace[i].hosts[k]
    ensures Written(m, trace[i].flights[m].purpose, trace[i].hosts[k], trace[i + 1].hosts[k])
  {
    RunInv(trace, steps, i);
    RunStep(trace, steps, i);
    hide Run, Orderly, Inv, Apply, Enabled, PatchStep, Patched, Written, CopyOk;
    var w := trace[i];
    ApplyPatch(w, m);
    PatchKeepsHosts(w, m, k);
    PendingCopy(w, m);
    LocalKey(w, m);
    PatchTouches(w, m, k);
    PatchedWritten(w.flights[m], w.next);
  }

  // ---- Non-stealing ----

  lemma PatchTakesOver(w: World, m: Key, k: Key, x: Key)
    requires Inv(w) && m in w.flights && w.flights[m].Pending?
    requires k in w.hosts && Owner(w.hosts[k]) == Some(x)
    requires Owner(PatchStep(w, m).hosts[k]).Some? && Owner(PatchStep(w, m).hosts[k]) != Some(x)
    ensures m in w.machines && Owner(PatchStep(w, m).hosts[k]) == Some(m)
    ensures w.flights[m].purpose.Adopt? || w.flights[m].purpose.Confirm?
    ensures w.hosts[k].consumerRef.None? && LegacyKey(w.hosts[k]) !in w.machines
    ensures ServerID(w.machines[m].providerID) == Some(w.hosts[k].serverID)
  {
    PendingCopy(w, m);
    LocalKey(w, m);
    hide Inv, ServerID, PatchStep, Patched, CopyOk;
    PatchTouches(w, m, k);
    PatchedOwner(w.flights[m]);
    assert Current(w, w.flights[m].copy) by {
      StoredKey(w, k);
    }
    PendingOwner(w, m);
  }

  lemma HostPatchKeepsOwner(w: World, l: Key, k: Key)
    requires Inv(w) && l in w.hostFlights && k in w.hosts && k in PatchHostStep(w, l).hosts
    ensures Owner(PatchHostStep(w, l).hosts[k]) == Owner(w.hosts[k])
  {
    StoredKey(w, k);
    StoreOk(w);
    hide Inv, HostsOk, PatchHostStep, CopyOk;
    HostPatchStepKeeps(w, l, k);
  }

  lemma OwnerChangesByPatch(w: World, s: Step, k: Key)
    requires Inv(w) && Enabled(w, s) && !s.Patch?
    requires k in w.hosts && k in Apply(w, s).hosts
    ensures Owner(Apply(w, s).hosts[k]) == Owner(w.hosts[k])
  {
    hide Inv, HostsOk, Apply, Enabled, PatchHostStep;
    StoreOk(w);
    PatchSteps(w, s);
    if s.HostPatch? {
      HostPatchKeepsOwner(w, s.k, k);
    } else {
      OutsidePatches(w, s, k);
    }
  }

  // In every run a host passes from one machine to another without being released in between
  // only when the new owner adopts it or repairs its own record of it: the old reference is a
  // legacy one, its machine is gone, and the new owner's provider ID names the host's own server.
  lemma NeverStolen(trace: seq<World>, steps: seq<Step>, i: nat, k: Key, x: Key, y: Key)
    requires Run(trace, steps) && Orderly(trace, steps) && i < |steps| && x != y
    requires k in trace[i].hosts && Owner(trace[i].hosts[k]) == Some(x)
    requires k in trace[i + 1].hosts && Owner(trace[i + 1].hosts[k]) == Some(y)
    ensures steps[i] == Patch(y) && y in trace[i].flights && trace[i].flights[y].Pending?
    ensures trace[i].flights[y].purpose.Adopt? || trace[i].flights[y].purpose.Confirm?
    ensures trace[i].hosts[k].consumerRef.None? && LegacyKey(trace[i].hosts[k]) !in trace[i].machines
    ensures y in trace[i].machines && ServerID(trace[i].machines[y].providerID) == Some(trace[i].hosts[k].serverID)
  {
    RunInv(trace, steps, i);
    var w, s := trace[i], steps[i];
    RunStep(trace, steps, i);
    hide Run, Orderly, Inv, Apply, Enabled, PatchStep, PatchHostStep;
    PatchSteps(w, s);
    if s.Patch? {
      PatchTakesOver(w, s.m, k, x);
    } else {
      OwnerChangesByPatch(w, s, k);
    }
  }

  ghost predicate ControlPlaneHost(w: World, k: Key) {
    k in w.hosts && w.hosts[k].lifecycle == ControlPlane
  }

  // The reconcile has not got past the gate for control-plane host k.
  predicate FlightHarmless(f: Flight, k: Key) {
    HasCopy(f) && f.copy.key == k ==>
      f.copy.lifecycle == ControlPlane && !f.Gated? && !(f.Pending? && f.purpose.Release?)
  }

  ghost predicate AllHarmless(w: World, k: Key) {
    forall m | m in w.flights :: FlightHarmless(w.flights[m], k)
  }

  // Nothing physical was done to host k since the log had n entries.
  ghost predicate NoneLogged(w: World, k: Key, n: nat) {
    n <= |w.log| && forall i | n <= i < |w.log| :: w.log[i].host != k
  }

  // A reconcile starts from copies of what is stored.
  predicate FreshFlight(w: World, f: Flight) {
    HasCopy(f) ==> f.copy.key in w.hosts && w.hosts[f.copy.key] == f.copy
                   && !f.Gated? && !(f.Pending? && f.purpose.Release?)
  }

  lemma ResolveFresh(w: World, l: Machine, list: seq<Host>)
    requires HostsOk(w.hosts, w.next, w.catalog)
    requires l.selector.Some? ==> IsListing(w.hosts, l.key.ns, l.selector.value, list)
    ensures FreshFlight(w, BeginResolve(w, l, list))
  {
    hide HostOk, Matches, Ensure, ClaimedBy, FirstClaimable;
    var mine := FirstClaimed(list, l.key);
    if l.selector.Some? && mine.Some? {
      assert w.hosts[mine.value.key] == mine.value;
    }
    StoredKeys(w);
    hide HostsOk, FirstClaimed, IsListing;
  }

  lemma StoredKeys(w: World)
    requires HostsOk(w.hosts, w.next, w.catalog)
    ensures forall k | k in w.hosts :: w.hosts[k].key == k
  {
  }

  lemma ProvisionedFresh(w: World, l: Machine, list: seq<Host>)
    requires HostsOk(w.hosts, w.next, w.catalog)
    requires l.selector.Some? ==> IsListing(w.hosts, l.key.ns, l.selector.value, list)
    ensures FreshFlight(w, BeginProvisioned(w, l, list))
  {
    var f := BeginProvisioned(w, l, list);
    if f.Vetting? && l.directHost == "" {
      assert f.copy in WithServerID(list, ServerID(l.providerID).value);
    }
  }

  lemma DeleteFresh(w: World, l: Machine, list: seq<Host>)
    requires HostsOk(w.hosts, w.next, w.catalog)
    requires l.selector.Some? ==> IsListing(w.hosts, l.key.ns, l.selector.value, list)
    ensures FreshFlight(w, BeginDelete(w, l, list))
  {
    var mine := FirstClaimed(list, l.key);
    if l.selector.Some? && mine.Some? {
      assert w.hosts[mine.value.key] == mine.value;
    }
  }

  lemma BeginFresh(w: World, m: Key, list: seq<Host>)
    requires Inv(w) && Enabled(w, Begin(m, list))
    ensures FreshFlight(w, BeginFlight(w, w.machines[m], list))
    ensures Apply(w, Begin(m, list)).flights[m] == BeginFlight(w, w.machines[m], list)
  {
    var l := w.machines[m];
    InvAt(w, m);
    InvParts(w);
    assert l.key == m;
    hide Inv, MachineOk, HostsOk;
    ResolveFresh(w, l, list);
    ProvisionedFresh(w, l, list);
    DeleteFresh(w, l.(stage := Deleting), list);
    hide BeginResolve, BeginProvisioned, BeginDelete;
  }

  // A later step of the same reconcile either keeps its host copy, up to the fields a patch
  // writes, or takes a new one from the store. Only Gate and ReadRelease get past the gate.
  predicate Continues(w: World, f: Flight, g: Flight) {
    && (HasCopy(g) ==>
          || (HasCopy(f) && g.copy.key == f.copy.key && g.copy.lifecycle == f.copy.lifecycle)
          || (g.copy.key in w.hosts && w.hosts[g.copy.key] == g.copy))
    && (g.Gated? ==> HasCopy(f) && f.copy == g.copy && (f.Gated? || g.copy.lifecycle != ControlPlane))
    && (g.Pending? && g.purpose.Release? ==> f.Gated? && f.copy.key == g.copy.key)
  }

  lemma PatchContinues(w: World, f: Flight, stored: Host)
    requires f.Pending? && stored.key == f.copy.key && stored.lifecycle == f.copy.lifecycle
    ensures Continues(w, f, AfterPatch(f, stored)) && Continues(w, f, AfterConflict(f))
  {
  }

  lemma VetContinues(w: World, f: Flight, fails: bool)
    requires f.Vetting?
    ensures Continues(w, f, VetFlight(w, f, fails))
  {
  }

  lemma ReadContinues(w: World, s: Step)
    requires HostsOk(w.hosts, w.next, w.catalog) && Enabled(w, s)
    requires s.Fetch? || s.ReadConfirm? || s.ReadRelease?
    ensures Continues(w, w.flights[s.m], Apply(w, s).flights[s.m])
  {
  }

  lemma GateContinues(w: World, s: Step)
    requires Enabled(w, s)
    requires s.Gate? || s.Finish? || s.GiveUp? || s.DropFinalizer?
    ensures Continues(w, w.flights[s.m], Apply(w, s).flights[s.m])
  {
  }

  predicate MovesFlight(s: Step) {
    || s.Begin? || s.Patch? || s.Vet? || s.Fetch? || s.ReadConfirm? || s.ReadRelease?
    || s.Gate? || s.Finish? || s.GiveUp? || s.DropFinalizer?
  }

  lemma MoveOnly(w: World, s: Step)
    requires Enabled(w, s) && MovesFlight(s) && !s.Patch?
    ensures s.m in Apply(w, s).flights && Apply(w, s) == WithFlight(w, s.m, Apply(w, s).flights[s.m])
  {
    hide BeginFlight, VetFlight, FetchFlight, MayDestroy;
    if s.ReadRelease? {
      hide Apply, Enabled;
      ApplyReadRelease(w, s.m);
    } else if s.Finish? || s.GiveUp? || s.DropFinalizer? {
      hide Apply, Enabled;
      ApplyEndWork(w, s);
    }
  }

  lemma ApplyRemove(w: World, m: Key)
    requires Enabled(w, Remove(m))
    ensures Apply(w, Remove(m)) == w.(machines := w.machines - {m}, flights := w.flights - {m})
  {
  }

  predicate EndsFlight(s: Step) { s.Remove? || s.Save? || s.Crash? }

  lemma EndOnly(w: World, s: Step)
    requires Enabled(w, s) && EndsFlight(s)
    ensures OnlyReconcile(w, Apply(w, s), s.m) && Apply(w, s).flights == w.flights - {s.m}
  {
    hide Apply, Enabled, Saved;
    if s.Remove? {
      ApplyRemove(w, s.m);
    } else if s.Save? {
      ApplySave(w, s.m);
    } else {
      ApplyCrash(w, s.m);
    }
  }

  lemma HostPatchFlights(w: World, k: Key)
    requires k in w.hostFlights
    ensures PatchHostStep(w, k).flights == w.flights
  {
    hide HostNext;
  }

  lemma OutsideKeepsFlights(w: World, s: Step)
    requires Enabled(w, s) && !MovesFlight(s) && !s.Emit? && !EndsFlight(s) && !s.HostPatch?
    ensures Apply(w, s).flights == w.flights
  {
  }

  lemma OtherFlightsStay(w: World, s: Step, m: Key)
    requires Enabled(w, s) && m in Apply(w, s).flights
    requires !(MovesFlight(s) && s.m == m)
    ensures m in w.flights && Apply(w, s).flights[m] == w.flights[m]
  {
    hide Apply, Enabled, PatchStep, PatchHostStep, OnlyReconcile;
    if s.Patch? {
      PatchFrame(w, s.m, m);
    } else if s.HostPatch? {
      PatchSteps(w, s);
      HostPatchFlights(w, s.k);
    } else if MovesFlight(s) {
      MoveOnly(w, s);
    } else if s.Emit? {
      ApplyEmit(w, s.m, s.kind);
    } else if EndsFlight(s) {
      EndOnly(w, s);
    } else {
      OutsideKeepsFlights(w, s);
    }
  }

  lemma StepContinues(w: World, s: Step)
    requires HostsOk(w.hosts, w.next, w.catalog) && Enabled(w, s) && MovesFlight(s) && !s.Begin?
    requires s.m in w.flights && s.m in Apply(w, s).flights
    ensures Continues(w, w.flights[s.m], Apply(w, s).flights[s.m])
  {
    var f := w.flights[s.m];
    hide Continues, Apply, Enabled, HostsOk, VetFlight, FetchFlight;
    if s.Patch? {
      ApplyPatch(w, s.m);
      PatchContinues(w, f, Patched(f).(version := w.next));
    } else if s.Vet? {
      ApplyMove(w, s);
      VetContinues(w, f, s.lookupFails);
    } else if s.Fetch? || s.ReadConfirm? || s.ReadRelease? {
      ReadContinues(w, s);
    } else {
      GateContinues(w, s);
    }
  }

  lemma ContinuesHarmless(w: World, k: Key, f: Flight, g: Flight)
    requires ControlPlaneHost(w, k) && HostsOk(w.hosts, w.next, w.catalog)
    requires FlightHarmless(f, k) && Continues(w, f, g)
    ensures FlightHarmless(g, k)
  {
  }

  lemma FreshHarmless(w: World, k: Key, f: Flight)
    requires ControlPlaneHost(w, k) && HostsOk(w.hosts, w.next, w.catalog) && FreshFlight(w, f)
    ensures FlightHarmless(f, k)
  {
  }

  lemma HarmlessFlight(w: World, w': World, s: Step, k: Key, m: Key)
    requires Inv(w) && HostsOk(w.hosts, w.next, w.catalog)
    requires Enabled(w, s) && w' == Apply(w, s) && ControlPlaneHost(w, k)
    requires m in w.flights ==> FlightHarmless(w.flights[m], k)
    requires m in w'.flights
    ensures FlightHarmless(w'.flights[m], k)
  {
    hide Inv, Apply, HostsOk, Continues, FreshFlight, FlightHarmless;
    assert MovesFlight(s) && !s.Begin? ==> s.m in w.flights;
    hide Enabled;
    if !(MovesFlight(s) && s.m == m) {
      OtherFlightsStay(w, s, m);
    } else if s.Begin? {
      BeginFresh(w, m, s.list);
      FreshHarmless(w, k, w'.flights[m]);
    } else {
      StepContinues(w, s);
      ContinuesHarmless(w, k, w.flights[m], w'.flights[m]);
    }
  }

  lemma HarmlessStep(w: World, s: Step, k: Key, n: nat)
    requires Inv(w) && Enabled(w, s) && ControlPlaneHost(w, k) && AllHarmless(w, k) && NoneLogged(w, k, n)
    ensures AllHarmless(Apply(w, s), k) && NoneLogged(Apply(w, s), k, n)
  {
    var w' := Apply(w, s);
    InvParts(w);
    HarmlessLog(w, s, k, n);
    hide Inv, HostsOk, MachineOk, Apply, Enabled, FlightHarmless, NoneLogged;
    forall m | m in w'.flights ensures FlightHarmless(w'.flights[m], k) {
      HarmlessFlight(w, w', s, k, m);
    }
  }

  lemma HarmlessLog(w: World, s: Step, k: Key, n: nat)
    requires Enabled(w, s) && AllHarmless(w, k) && NoneLogged(w, k, n)
    ensures NoneLogged(Apply(w, s), k, n)
  {
    hide Apply, Enabled;
    if s.Emit? {
      ApplyEmit(w, s.m, s.kind);
      assert FlightHarmless(w.flights[s.m], k);
    } else {
      LogUntouched(w, s);
    }
  }

  lemma LogUntouched(w: World, s: Step)
    requires Enabled(w, s) && !s.Emit?
    ensures Apply(w, s).log == w.log
  {
    hide BeginFlight, VetFlight, FetchFlight, Saved, PatchHostStep, PatchStep;
    if s.HostPatch? {
      HostPatchLog(w, s.k);
    } else if s.Patch? {
      PatchLog(w, s.m);
    }
  }

  lemma HostPatchLog(w: World, k: Key)
    requires k in w.hostFlights
    ensures PatchHostStep(w, k).log == w.log
  {
    hide HostNext;
  }

  lemma PatchLog(w: World, m: Key)
    requires m in w.flights && w.flights[m].Pending?
    ensures PatchStep(w, m).log == w.log
  {
    hide Patched, AfterPatch, AfterConflict;
  }

  // From a moment at which no reconcile is past the gate for control-plane host k, nor holds an
  // older copy of it with another class, and as long as k exists as a control-plane host: no
  // machine acts on it physically, and once in use it never becomes claimable again.
  lemma {:induction false} ControlPlaneUntouched(trace: seq<World>, steps: seq<Step>, k: Key, i: nat, n: nat)
    requires Run(trace, steps) && Orderly(trace, steps) && i <= n < |trace|
    requires forall t | i <= t <= n :: ControlPlaneHost(trace[t], k)
    requires AllHarmless(trace[i], k)
    ensures NoneLogged(trace[n], k, |trace[i].log|) && AllHarmless(trace[n], k)
    ensures forall t | i <= t <= n && InUse(trace[t], k) :: InUse(trace[n], k)
  {
    hide Run, Orderly, Inv, Apply, Enabled, AllHarmless, NoneLogged, ControlPlaneHost;
    RunLength(trace, steps);
    if n == i {
      NoneYet(trace[i], k);
    }
    if n > i {
      ControlPlaneUntouched(trace, steps, k, i, n - 1);
      RunInv(trace, steps, n - 1);
      var w, s := trace[n - 1], steps[n - 1];
      RunStep(trace, steps, n - 1);
      HarmlessStep(w, s, k, |trace[i].log|);
      if InUse(w, k) {
        assert k in trace[n].hosts by { StillThere(trace[n], k); }
        StaysInUse(w, s, k);
      }
    }
  }

  lemma StillThere(w: World, k: Key)
    requires ControlPlaneHost(w, k)
    ensures k in w.hosts
  {
  }

  lemma NoneYet(w: World, k: Key)
    ensures NoneLogged(w, k, |w.log|)
  {
  }

  // Such a moment is the registration of a host: no reconcile knows it yet.
  lemma RegisteredHarmless(w: World, h: Host)
    requires Inv(w) && Enabled(w, CreateHost(h))
    ensures AllHarmless(Apply(w, CreateHost(h)), h.key)
  {
    hide Inv, Apply, Enabled, MachineMentions, FlightHarmless;
    ApplyCreateHost(w, h);
    forall m | m in w.flights ensures FlightHarmless(w.flights[m], h.key) {
      LocalKey(w, m);
      UnmentionedHarmless(w, m, h.key);
    }
  }

  lemma UnmentionedHarmless(w: World, m: Key, k: Key)
    requires m in w.machines && m in w.flights && !MachineMentions(w, m, k)
    ensures FlightHarmless(w.flights[m], k)
  {
  }

  lemma StaysInUse(w: World, s: Step, k: Key)
    requires Inv(w) && Enabled(w, s) && InUse(w, k) && ControlPlaneHost(w, k) && AllHarmless(w, k)
    requires k in Apply(w, s).hosts
    ensures InUse(Apply(w, s), k)
  {
    hide Inv, Apply, Enabled, Entitled, Permits;
    StoredKey(w, k);
    if Apply(w, s).hosts[k].state == Available {
      AvailableAgain(w, s, k);
    } else {
      NeverUnset(w, s, k);
    }
  }

  lemma NeverUnset(w: World, s: Step, k: Key)
    requires Inv(w) && Enabled(w, s) && InUse(w, k) && k in Apply(w, s).hosts
    ensures Apply(w, s).hosts[k].state != Unset
  {
    hide Inv, Apply, Enabled, PatchHostStep, PatchStep;
    PatchSteps(w, s);
    if s.HostPatch? {
      HostPatchKeepsInUse(w, k, s.k);
    } else if !s.Patch? {
      OnlyPatchesChangeState(w, s, k);
    } else {
      PatchStepKeeps(w, s.m, k);
    }
  }

  // ---- A registered host becomes claimable ----

  // The host controller reads host k and patches it, with nothing in between.
  lemma ControllerRound(w: World, k: Key)
    requires Inv(w) && k in w.hosts && k !in w.hostFlights && !w.hosts[k].deleting
    ensures Enabled(w, HostRead(k)) && Enabled(Apply(w, HostRead(k)), HostPatch(k))
    ensures var w' := Apply(Apply(w, HostRead(k)), HostPatch(k));
            var h := HostNext(w.hosts[k]);
            && Inv(w') && k in w'.hosts && k !in w'.hostFlights
            && w'.hosts[k] == if h == w.hosts[k] then h else h.(version := w.next)
  {
    hide Inv, HostNext, Apply, Enabled, PatchHostStep, CopyOk;
    StoredKey(w, k);
    HostReadSteps(w, k);
    var w1 := Apply(w, HostRead(k));
    QuietInv(w, w1, HostRead(k));
    PatchSteps(w1, HostPatch(k));
    HostPatchInv(w1, PatchHostStep(w1, k), k);
    PatchesCurrent(w1, k);
  }

  lemma HostReadSteps(w: World, k: Key)
    requires k in w.hosts && k !in w.hostFlights
    ensures Enabled(w, HostRead(k))
    ensures Apply(w, HostRead(k)) == w.(hostFlights := w.hostFlights[k := w.hosts[k]])
    ensures Enabled(Apply(w, HostRead(k)), HostPatch(k))
  {
  }

  lemma PatchesCurrent(w: World, k: Key)
    requires k in w.hosts && w.hosts[k].key == k && k in w.hostFlights && w.hostFlights[k] == w.hosts[k]
    requires !w.hosts[k].deleting
    ensures var w' := PatchHostStep(w, k); var h := HostNext(w.hosts[k]);
            && k in w'.hosts && k !in w'.hostFlights
            && w'.hosts[k] == if h == w.hosts[k] then h else h.(version := w.next)
  {
    HostNextDeletes(w.hosts[k]);
    hide HostNext;
  }

  lemma HostNextDeletes(h: Host)
    ensures HostNext(h).key == h.key && HostNext(h).deleting == h.deleting
  {
  }

  // After its registration two undisturbed rounds of the host controller make a host Available,
  // with the finalizer, for nobody in particular, and otherwise as it was registered.
  lemma BecomesAvailable(w: World, h: Host)
    requires Inv(w) && Enabled(w, CreateHost(h)) && h.key !in w.hostFlights
    ensures var k := h.key; var w0 := Apply(w, CreateHost(h));
            && Enabled(w0, HostRead(k)) && Enabled(Apply(w0, HostRead(k)), HostPatch(k))
            && (var w1 := Apply(Apply(w0, HostRead(k)), HostPatch(k));
                && Enabled(w1, HostRead(k)) && Enabled(Apply(w1, HostRead(k)), HostPatch(k))
                && (var w2 := Apply(Apply(w1, HostRead(k)), HostPatch(k));
                    && k in w2.hosts
                    && w2.hosts[k] == h.(finalizer := true, state := Available, version := w2.hosts[k].version)))
  {
    hide Inv, Apply, Enabled;
    var k, w0 := h.key, Apply(w, CreateHost(h));
    ApplyCreateHost(w, h);
    CreateHostInv(w, w0, h);
    Unregistered(w, h);
    ControllerRound(w0, k);
    var w1 := Apply(Apply(w0, HostRead(k)), HostPatch(k));
    ControllerRound(w1, k);
  }

  // ---- Deletion claims nothing ----

  // Where a reconcile that found its machine being deleted can stand.
  predicate DeleteFlight(f: Flight) {
    f.DelFound? || (f.Gated? && f.del) || (f.Pending? && f.purpose.Release?) || f.Removing? || f.Done?
  }

  lemma BeginDeletes(w: World, l: Machine, list: seq<Host>)
    ensures BeginFlight(w, l, list).local.deleting ==> DeleteFlight(BeginFlight(w, l, list))
  {
    hide HostKey, FirstClaimed, FirstClaimable, WithServerID, ServerID, ClaimedBy, Ensure;
  }

  lemma DeleteMoves(w: World, s: Step)
    requires Enabled(w, s) && MovesFlight(s) && !s.Begin?
    requires w.flights[s.m].local.deleting ==> DeleteFlight(w.flights[s.m])
    ensures var g := Apply(w, s).flights[s.m]; g.local.deleting ==> DeleteFlight(g)
  {
    hide VetFlight, FetchFlight, Patched, Apply, Enabled;
    if s.Vet? || s.Fetch? || s.ReadConfirm? {
      ApplyMove(w, s);
      if s.Vet? {
        VetKeepsLocal(w, w.flights[s.m], s.lookupFails);
      } else if s.Fetch? {
        FetchKeepsLocal(w, w.flights[s.m]);
      }
    } else if s.Patch? {
      ApplyPatch(w, s.m);
    } else if s.ReadRelease? {
      ApplyReadRelease(w, s.m);
    } else if s.Gate? {
      ApplyGate(w, s.m);
    } else {
      ApplyEndWork(w, s);
    }
  }

  lemma ApplyGate(w: World, m: Key)
    requires Enabled(w, Gate(m))
    ensures m in w.flights && (w.flights[m].Working? || w.flights[m].DelFound?)
    ensures Apply(w, Gate(m)) == WithFlight(w, m, Gated(w.flights[m].local, w.flights[m].copy,
              Evidence(w.flights[m].copy, w.releases, w.now), w.flights[m].DelFound?))
  {
    hide MayDestroy;
  }

  lemma VetKeepsLocal(w: World, f: Flight, fails: bool)
    requires f.Vetting?
    ensures VetFlight(w, f, fails).local == f.local
  {
  }

  lemma FetchKeepsLocal(w: World, f: Flight)
    requires f.Chosen?
    ensures FetchFlight(w, f).local == f.local
  {
  }

  lemma DeleteStep(w: World, s: Step, m: Key)
    requires Enabled(w, s) && m in Apply(w, s).flights
    requires m in w.flights && w.flights[m].local.deleting ==> DeleteFlight(w.flights[m])
    ensures Apply(w, s).flights[m].local.deleting ==> DeleteFlight(Apply(w, s).flights[m])
  {
    hide DeleteFlight, BeginFlight;
    if !(MovesFlight(s) && s.m == m) {
      hide Apply, Enabled;
      OtherFlightsStay(w, s, m);
    } else if s.Begin? {
      BeginDeletes(w, w.machines[m], s.list);
    } else {
      hide Apply;
      DeleteMoves(w, s);
    }
  }

  lemma {:induction false} DeletingFlights(trace: seq<World>, steps: seq<Step>, i: nat, m: Key)
    requires Run(trace, steps) && i < |trace| && m in trace[i].flights && trace[i].flights[m].local.deleting
    ensures DeleteFlight(trace[i].flights[m])
  {
    hide Run, Apply, Enabled, DeleteFlight;
    NoFlightsAtStart(trace, steps);
    if i > 0 {
      var w, s := trace[i - 1], steps[i - 1];
      RunStep(trace, steps, i - 1);
      if m in w.flights && w.flights[m].local.deleting {
        DeletingFlights(trace, steps, i - 1, m);
      }
      DeleteStep(w, s, m);
    }
  }

  // In every run, whatever a reconcile that deletes its machine writes to a host is a release.
  lemma DeleteNeverClaims(trace: seq<World>, steps: seq<Step>, i: nat)
    requires Run(trace, steps) && i < |steps| && steps[i].Patch?
    requires trace[i].flights[steps[i].m].local.deleting
    ensures trace[i].flights[steps[i].m].purpose.Release?
  {
    RunStep(trace, steps, i);
    hide Run, Apply;
    DeletingFlights(trace, steps, i, steps[i].m);
  }

  // ---- Hosts that stay ----

  // A host with the finalizer that somebody owns cannot leave the store, and keeps it.
  lemma ProtectedStays(w: World, s: Step, k: Key)
    requires Inv(w) && Enabled(w, s)
    requires k in w.hosts && w.hosts[k].finalizer && Owner(w.hosts[k]).Some?
    ensures k in Apply(w, s).hosts && Apply(w, s).hosts[k].finalizer
  {
    hide Inv, HostsOk, CopyOk, Apply, Enabled, PatchHostStep, PatchStep;
    StoredKey(w, k);
    StoreOk(w);
    PatchSteps(w, s);
    if s.HostPatch? {
      HostPatchStepKeeps(w, s.k, k);
    } else if s.Patch? {
      PatchStepKeeps(w, s.m, k);
    } else {
      OutsidePatches(w, s, k);
    }
  }

  // Machine m's own patch sets the host free.
  ghost predicate Releases(w: World, s: Step, m: Key) {
    s == Patch(m) && m in w.flights && w.flights[m].Pending? && w.flights[m].purpose.Release?
  }

  ghost predicate Keeps(w: World, m: Key, k: Key, serverID: int) {
    OwnedBy(w.hosts, k, m) && w.hosts[k].finalizer && w.hosts[k].serverID == serverID
  }

  lemma ServerIDFixed(w: World, s: Step, k: Key)
    requires Inv(w) && Enabled(w, s) && k in w.hosts && k in Apply(w, s).hosts
    ensures Apply(w, s).hosts[k].serverID == w.hosts[k].serverID
  {
    hide Inv, HostsOk, CopyOk, Apply, Enabled, PatchHostStep, PatchStep, Patched;
    StoredKey(w, k);
    StoreOk(w);
    PatchSteps(w, s);
    if s.HostPatch? {
      HostPatchStepKeeps(w, s.k, k);
    } else if s.Patch? {
      PendingCopy(w, s.m);
      if PatchStep(w, s.m).hosts[k] != w.hosts[k] {
        PatchTouches(w, s.m, k);
        PatchedFinalizer(w.flights[s.m]);
      }
    } else {
      OutsidePatches(w, s, k);
    }
  }

  // Nobody releases or takes a host that another existing machine owns.
  lemma OthersLeaveOwner(w: World, y: Key, m: Key, k: Key)
    requires Inv(w) && y in w.flights && w.flights[y].Pending? && m in w.machines && OwnedBy(w.hosts, k, m)
    requires w.flights[y].purpose.Release? ==> y != m
    ensures k in PatchStep(w, y).hosts && Owner(PatchStep(w, y).hosts[k]) == Some(m)
  {
    hide Inv, PatchStep, Patched, CopyOk, Patching, Current;
    PatchKeepsHosts(w, y, k);
    PendingCopy(w, y);
    LocalKey(w, y);
    Named(w, m);
    if PatchStep(w, y).hosts[k] != w.hosts[k] {
      PatchTouches(w, y, k);
      PatchedOwner(w.flights[y]);
      CurrentCopy(w, y, k);
      PatchingAt(w, y);
      if y != m {
        PreviousOwner(w, y, w.flights[y], m);
      }
    }
  }

  lemma Named(w: World, m: Key)
    requires Inv(w) && m in w.machines
    ensures m.ns != ""
  {
    InvAt(w, m);
    hide Inv;
  }

  lemma CurrentCopy(w: World, m: Key, k: Key)
    requires Inv(w) && m in w.flights && HasCopy(w.flights[m]) && k in w.hosts && w.flights[m].copy == w.hosts[k]
    ensures Current(w, w.flights[m].copy)
  {
    StoredKey(w, k);
  }

  lemma KeepsStep(w: World, s: Step, m: Key, k: Key, serverID: int)
    requires Inv(w) && Enabled(w, s) && m in w.machines && Keeps(w, m, k, serverID)
    requires !Releases(w, s, m)
    ensures Keeps(Apply(w, s), m, k, serverID)
  {
    hide Inv, Apply, Enabled, PatchStep, PatchHostStep;
    ProtectedStays(w, s, k);
    ServerIDFixed(w, s, k);
    PatchSteps(w, s);
    if s.Patch? {
      OthersLeaveOwner(w, s.m, m, k);
    } else {
      OwnerChangesByPatch(w, s, k);
    }
  }

  lemma Kept(w: World, m: Key, k: Key)
    requires OwnedBy(w.hosts, k, m) && w.hosts[k].finalizer
    ensures Keeps(w, m, k, w.hosts[k].serverID)
  {
  }

  // A host that machine m owns and that carries the finalizer stays in the store, with the
  // finalizer, the same owner and the same server, whatever anybody does, until m releases it
  // or is itself removed.
  lemma {:induction false} ClaimStays(trace: seq<World>, steps: seq<Step>, i: nat, j: nat, m: Key, k: Key)
    requires Run(trace, steps) && Orderly(trace, steps) && i <= j < |trace|
    requires OwnedBy(trace[i].hosts, k, m) && trace[i].hosts[k].finalizer
    requires forall t | i <= t < j :: m in trace[t].machines && !Releases(trace[t], steps[t], m)
    ensures Keeps(trace[j], m, k, trace[i].hosts[k].serverID)
  {
    hide Run, Orderly, Apply, Enabled, Inv, Keeps, Releases;
    RunLength(trace, steps);
    if i == j {
      Kept(trace[i], m, k);
    } else {
      ClaimStays(trace, steps, i, j - 1, m, k);
      RunInv(trace, steps, j - 1);
      RunStep(trace, steps, j - 1);
      KeepsStep(trace[j - 1], steps[j - 1], m, k, trace[i].hosts[k].serverID);
    }
  }

  // So all that a machine holds in that time is this one host on this one server.
  lemma OneServer(trace: seq<World>, steps: seq<Step>, i: nat, j: nat, m: Key, k: Key, l: Key)
    requires Run(trace, steps) && Orderly(trace, steps) && i <= j < |trace|
    requires OwnedBy(trace[i].hosts, k, m) && trace[i].hosts[k].finalizer
    requires forall t | i <= t <= j :: m in trace[t].machines && (t < j ==> !Releases(trace[t], steps[t], m))
    requires Holds(trace[j], m, l)
    ensures l == k && trace[j].hosts[l].serverID == trace[i].hosts[k].serverID
  {
    hide Run, Orderly, Inv, Leaving, Records, Releases;
    ClaimStays(trace, steps, i, j, m, k);
    ExactlyOnce(trace, steps, j, m, l, k);
  }

  // Every host that got past registration carries the finalizer.
  ghost predicate Guarded(w: World) {
    forall k | k in w.hosts && w.hosts[k].state != Unset :: w.hosts[k].finalizer
  }

  // An adoption is accepted on a host the host controller has not put its finalizer on yet.
  ghost predicate AdoptsUnguarded(w: World, s: Step) {
    && s.Patch? && s.m in w.flights && w.flights[s.m].Pending? && w.flights[s.m].purpose.Adopt?
    && Current(w, w.flights[s.m].copy) && !w.flights[s.m].copy.finalizer
  }

  lemma GuardedPatch(w: World, m: Key)
    requires Inv(w) && Guarded(w) && m in w.flights && w.flights[m].Pending?
    ensures Guarded(PatchStep(w, m)) <==> !AdoptsUnguarded(w, Patch(m))
  {
    var f := w.flights[m];
    hide Inv, PatchStep, Patched, CopyOk;
    PatchedFinalizer(f);
    PatchStepHosts(w, m);
    if Current(w, f.copy) {
      StoredCopy(w, m);
      if !f.purpose.Adopt? {
        PendingSet(w, m);
      }
      assert PatchStep(w, m).hosts[f.copy.key].finalizer == f.copy.finalizer;
    }
  }

  lemma PatchStepHosts(w: World, m: Key)
    requires m in w.flights && w.flights[m].Pending?
    ensures var f := w.flights[m];
            PatchStep(w, m).hosts ==
            if Current(w, f.copy) then w.hosts[Patched(f).key := Patched(f).(version := w.next)] else w.hosts
  {
    hide Patched, AfterPatch, AfterConflict, Current;
  }

  // Apart from an adoption, nobody patches a host that is not registered yet.
  lemma PendingSet(w: World, m: Key)
    requires Inv(w) && m in w.flights && w.flights[m].Pending? && Current(w, w.flights[m].copy)
    requires !w.flights[m].purpose.Adopt?
    ensures w.flights[m].copy.state != Unset
  {
    var f := w.flights[m];
    PatchingAt(w, m);
    CopyOwner(w, m, f);
    if !f.purpose.Claim? && Owner(f.copy) != Some(m) {
      assert Entitled(w, m, f.copy.key) by { PendingEntitled(w, m, f); }
    }
    hide Inv, Patching, Fits, OwnsNothingBut;
  }

  lemma PendingEntitled(w: World, m: Key, f: Flight)
    requires Patching(w, m, f) && !f.purpose.Claim? && !f.purpose.Adopt?
    ensures Entitled(w, m, f.copy.key)
  {
    hide MachineOk, LocalOk, CopyOk, Reserved, Unblocked, SameServer, MayDestroy;
  }

  lemma GuardedHostPatch(w: World, k: Key)
    requires Inv(w) && Guarded(w) && k in w.hostFlights
    ensures Guarded(PatchHostStep(w, k))
  {
    InvParts(w);
    hide Inv, MachineOk, HostsOk;
  }

  // So a claimed host never disappears, except through that one door.
  lemma GuardedExactly(w: World, s: Step)
    requires Inv(w) && Guarded(w) && Enabled(w, s)
    ensures Guarded(Apply(w, s)) <==> !AdoptsUnguarded(w, s)
  {
    hide Inv, Apply, Enabled, PatchHostStep, PatchStep;
    PatchSteps(w, s);
    if s.Patch? {
      GuardedPatch(w, s.m);
    } else if s.HostPatch? {
      GuardedHostPatch(w, s.k);
    } else {
      var w' := Apply(w, s);
      forall k | k in w'.hosts && w'.hosts[k].state != Unset ensures w'.hosts[k].finalizer {
        assert k in w.hosts && w'.hosts[k].finalizer == w.hosts[k].finalizer by {
          OnlyPatchesTouchFinalizers(w, s, k);
        }
        OnlyPatchesChangeState(w, s, k);
      }
    }
  }

  lemma OnlyPatchesTouchFinalizers(w: World, s: Step, k: Key)
    requires Inv(w) && Enabled(w, s) && !s.Patch? && !s.HostPatch?
    requires k in Apply(w, s).hosts && Apply(w, s).hosts[k].state != Unset
    ensures k in w.hosts && w.hosts[k].key == k && Apply(w, s).hosts[k].finalizer == w.hosts[k].finalizer
  {
    hide Apply, Enabled;
    OutsidePatches(w, s, k);
    if k in w.hosts {
      StoredKey(w, k);
    }
  }

  // ---- The assumption HostReconcile makes about everybody else ----

  predicate TakenBy(s: Step, m: Key) {
    (MovesFlight(s) || s.Emit? || EndsFlight(s)) && s.m == m
  }

  // What the steps of one reconcile, other than its host patch, leave alone.
  ghost predicate OnlyReconcile(w: World, w': World, x: Key) {
    && w'.hosts == w.hosts && w'.next == w.next && w'.catalog == w.catalog && w'.legacy == w.legacy
    && w'.machines.Keys <= w.machines.Keys
    && (forall m | m in w.machines && m != x :: m in w'.machines && w'.machines[m] == w.machines[m])
    && (forall m | m != x :: (m in w'.flights <==> m in w.flights) && (m in w.flights ==> w'.flights[m] == w.flights[m]))
  }

  lemma ReconcileStep(w: World, s: Step)
    requires Enabled(w, s)
    requires (MovesFlight(s) && !s.Patch?) || s.Emit? || EndsFlight(s)
    ensures OnlyReconcile(w, Apply(w, s), s.m)
  {
    hide Apply, Enabled, EntryFor;
    if s.Emit? {
      ApplyEmit(w, s.m, s.kind);
    } else if MovesFlight(s) {
      MoveOnly(w, s);
    } else {
      EndOnly(w, s);
    }
  }

  lemma ReconcileBystander(w: World, w': World, x: Key, m: Key)
    requires HostsOk(w.hosts, w.next, w.catalog) && OnlyReconcile(w, w', x) && m in w.machines && m != x
    ensures Bystander(w, w', m)
  {
  }

  lemma FlightStepBystander(w: World, w': World, s: Step, m: Key)
    requires HostsOk(w.hosts, w.next, w.catalog) && Enabled(w, s) && w' == Apply(w, s) && m in w.machines && !TakenBy(s, m)
    requires (MovesFlight(s) && !s.Patch?) || s.Emit? || EndsFlight(s)
    ensures Bystander(w, w', m)
  {
    hide Apply, Enabled, HostsOk, Bystander, OnlyReconcile;
    ReconcileStep(w, s);
    ReconcileBystander(w, w', s.m, m);
  }

  lemma StepBystander(w: World, w': World, s: Step, m: Key)
    requires Inv(w) && Enabled(w, s) && w' == Apply(w, s) && m in w.machines && !TakenBy(s, m)
    ensures Bystander(w, w', m)
  {
    hide Inv, Bystander, HostsOk, CopyOk, Apply, Enabled, PatchStep, PatchHostStep, TakenBy;
    NotTaken(s, m);
    if s.HostPatch? {
      PatchSteps(w, s);
      HostPatchInv(w, w', s.k);
    } else if s.Patch? {
      PatchSteps(w, s);
      PatchInv(w, w', s.m);
    } else if MovesFlight(s) || s.Emit? || EndsFlight(s) {
      StoreOk(w);
      FlightStepBystander(w, w', s, m);
    } else {
      OutsideBystander(w, w', s, m);
    }
  }

  lemma OutsideBystander(w: World, w': World, s: Step, m: Key)
    requires Inv(w) && Enabled(w, s) && w' == Apply(w, s) && m in w.machines
    requires s.CreateHost? || s.EditHost? || s.DeleteHost? || s.CreateMachine?
             || s.DeleteMachine? || s.SetReleases? || s.Tick? || s.HostRead? || s.HostDrop?
    ensures Bystander(w, w', m)
  {
    hide Inv, Bystander, Apply, Enabled;
    if s.CreateHost? {
      CreateHostInv(w, w', s.host);
    } else if s.EditHost? || s.DeleteHost? {
      OperatorInv(w, s);
    } else if s.CreateMachine? {
      CreateMachineInv(w, w', s.machine);
    } else {
      QuietInv(w, w', s);
    }
  }

  lemma NotTaken(s: Step, m: Key)
    requires !TakenBy(s, m)
    ensures s.Patch? ==> s.m != m
    ensures MovesFlight(s) || s.Emit? || EndsFlight(s) || s.DeleteMachine? || s.SetReleases? || s.Tick?
            || s.HostRead? || s.HostPatch? || s.HostDrop? || s.CreateHost? || s.EditHost? || s.DeleteHost? || s.CreateMachine?
  {
  }

  lemma BystanderMeetsRely(w: World, w': World, m: Key, name: string)
    requires Inv(w) && Bystander(w, w', m)
    requires name == w.machines[m].hostRef || (m in w.flights && name == w.flights[m].local.hostRef)
    requires forall k | k in w.hosts && w.hosts[k].finalizer && OwnedBy(w.hosts, k, m) :: k in w'.hosts && w'.hosts[k].finalizer
    ensures Rely(m, name, w.hosts, w.next, w'.hosts, w'.next)
  {
    hide Inv, Fits, MachineMentions;
    StoreOk(w);
    if name != "" {
      RecordMentioned(w, m, name);
    }
  }

  lemma RecordMentioned(w: World, m: Key, name: string)
    requires Inv(w) && m in w.machines && name != ""
    requires name == w.machines[m].hostRef || (m in w.flights && name == w.flights[m].local.hostRef)
    ensures MachineMentions(w, m, HostKey(m, name))
  {
    hide Inv;
    if name == w.machines[m].hostRef {
      assert MachineMentions(w, m, HostKey(m, name));
    } else {
      LocalKey(w, m);
    }
  }

  // Whatever step anybody else takes, machine m sees no more than Rely allows. This is what
  // Cluster.Interfere promises to the imperative reconcile code.
  lemma OthersMeetRely(w: World, s: Step, m: Key, name: string)
    requires Inv(w) && Enabled(w, s) && m in w.machines && !TakenBy(s, m)
    requires name == w.machines[m].hostRef || (m in w.flights && name == w.flights[m].local.hostRef)
    ensures Rely(m, name, w.hosts, w.next, Apply(w, s).hosts, Apply(w, s).next)
  {
    var w' := Apply(w, s);
    hide Inv, Apply, Enabled, Bystander, Rely;
    StepBystander(w, w', s, m);
    forall k | k in w.hosts && w.hosts[k].finalizer && OwnedBy(w.hosts, k, m)
      ensures k in w'.hosts && w'.hosts[k].finalizer
    {
      ProtectedStays(w, s, k);
    }
    BystanderMeetsRely(w, w', m, name);
  }
}
