// The assumptions the ownership results rest on are needed: without any one of them there is a
// concrete run that breaks exclusive ownership. And a run that repairs a stale legacy record.
module OwnershipLimits {
  import opened Common
  import opened Api
  import opened ProviderIds
  import opened HostReconcile
  import opened Ownership
  import opened OwnershipRuns

  const A := Key("ns", "a")
  const B := Key("ns", "b")
  const H := Key("ns", "h")

  function HostAt(state: HostState, owner: Option<Key>, last: Option<Key>, dirty: string, version: nat): Host {
    Host(H, 7, map[], Compute, AlwaysCleanSlate, false, state, owner, owner, last, dirty, "", true, false, version)
  }

  function MachineAt(k: Key, hostRef: string, deleting: bool): Machine {
    Machine(k, CapiMachine(k.name, k.ns, k.name), "h", None, None, hostRef, StateNone, deleting)
  }

  function WorldWith(h: Host, a: Machine, b: Machine, flights: map<Key, Flight>, log: seq<Entry>): World {
    World(map[H := h], map[H := map[]], map[], h.version + 1, map[A := a, B := b], flights, map[], [], 0, log)
  }

  // Machine a is being deleted and owns host h; machine b wants the same host.
  const HOST_0 := HostAt(Claimed, Some(A), None, "", 0)
  const HOST_1 := HostAt(Available, None, Some(A), "ReleasedAfterMachineDelete", 1)
  const HOST_2 := HostAt(Claimed, Some(B), Some(A), "", 2)
  const MA := MachineAt(A, "h", true)
  const MB := MachineAt(B, "", false)
  const LOCAL_A := MA.(stage := Deleting)

  const EV_0 := Evidence(HOST_0, [], 0)
  const EV_2 := Evidence(HOST_2, [], 0)
  const WORKING_B := Working(MB.(hostRef := "h"), HOST_2)
  const GATED_A := Gated(LOCAL_A, HOST_2, EV_2, true)

  function At(h: Host, flights: map<Key, Flight>): World { WorldWith(h, MA, MB, flights, []) }

  ghost const W0 := At(HOST_0, map[])
  ghost const W1 := At(HOST_0, map[A := DelFound(LOCAL_A, HOST_0)])
  ghost const W2 := At(HOST_0, map[A := Gated(LOCAL_A, HOST_0, EV_0, true)])
  ghost const W3 := At(HOST_0, map[A := Pending(LOCAL_A, Release(EV_0), HOST_0)])
  ghost const W4 := At(HOST_1, map[A := Removing(LOCAL_A, true)])
  ghost const W5 := At(HOST_1, map[])
  ghost const W6 := At(HOST_1, map[B := Chosen(MB, "h")])
  ghost const W7 := At(HOST_1, map[B := Pending(MB, Claim, HOST_1)])
  ghost const W8 := At(HOST_2, map[B := WORKING_B])
  ghost const W9 := At(HOST_2, map[B := WORKING_B, A := DelFound(LOCAL_A, HOST_2)])
  ghost const W10 := At(HOST_2, map[B := WORKING_B, A := GATED_A])
  ghost const W11 := W10.(log := [Entry(A, MA.capi, H, true, Some(B), true, true, HardwareReset, EV_2)])

  ghost predicate Goes(w: World, s: Step, w': World) {
    Enabled(w, s) && w' == Apply(w, s)
  }

  lemma FindForDelete()
    ensures Goes(W0, Begin(A, []), W1) && Goes(W8, Begin(A, []), W9)
  {
    assert Apply(W0, Begin(A, [])).flights == W1.flights;
    assert Apply(W8, Begin(A, [])).flights == W9.flights;
  }

  lemma PassGate()
    ensures Goes(W1, Gate(A), W2) && Goes(W9, Gate(A), W10)
  {
    assert Apply(W1, Gate(A)).flights == W2.flights;
    assert Apply(W9, Gate(A)).flights == W10.flights;
  }

  lemma ReleaseIt()
    ensures Goes(W2, ReadRelease(A), W3) && Goes(W3, Patch(A), W4)
  {
    assert Apply(W2, ReadRelease(A)).flights == W3.flights;
    assert Apply(W3, Patch(A)).hosts == W4.hosts;
    assert Apply(W3, Patch(A)).flights == W4.flights;
  }

  lemma LoseIt()
    ensures Goes(W4, Crash(A), W5) && LosesRelease(W4, Crash(A))
  {
    assert Apply(W4, Crash(A)).flights == W5.flights;
  }

  lemma ChooseIt()
    ensures Goes(W5, Begin(B, []), W6) && Goes(W6, Fetch(B), W7)
  {
    assert Apply(W5, Begin(B, [])).flights == W6.flights;
    assert Apply(W6, Fetch(B)).flights == W7.flights;
  }

  lemma ClaimIt()
    ensures Goes(W7, Patch(B), W8)
  {
    assert Apply(W7, Patch(B)).hosts == W8.hosts;
    assert Apply(W7, Patch(B)).flights == W8.flights;
  }

  lemma ResetIt()
    ensures Goes(W10, Emit(A, HardwareReset), W11)
  {
  }

  lemma StartsWell()
    ensures Start(W0)
  {
    assert MachineOk(W0, A) && MachineOk(W0, B);
  }

  // A delete that released its host and was lost before its finalizer removal was saved runs
  // again, trusts status.hostRef, and resets a server that meanwhile belongs to machine b.
  lemma LostReleaseHitsForeignHost() returns (trace: seq<World>, steps: seq<Step>)
    ensures Run(trace, steps) && !KeepsReleases(trace, steps)
    ensures exists e: Entry :: e in trace[|steps|].log
              && e.machine == A && e.host == H && e.present && e.ownerThen == Some(B)
  {
    trace := [W0, W1, W2, W3, W4, W5, W6, W7, W8, W9, W10, W11];
    steps := [Begin(A, []), Gate(A), ReadRelease(A), Patch(A), Crash(A),
              Begin(B, []), Fetch(B), Patch(B), Begin(A, []), Gate(A), Emit(A, HardwareReset)];
    StartsWell();
    FindForDelete();
    PassGate();
    ReleaseIt();
    LoseIt();
    ChooseIt();
    ClaimIt();
    ResetIt();
    hide Apply;
    hide Enabled;
    hide Start;
    hide LosesRelease;
    hide At;
    forall i | 0 <= i < |steps| ensures Goes(trace[i], steps[i], trace[i + 1]) {
    }
    assert LosesRelease(trace[4], steps[4]);
    assert trace[11].log[0] in trace[11].log;
  }

  // ---- A legacy record ----

  const GONE := Key("ns", "gone")

  // Host h is in use and only carries a reference to a machine that is gone.
  const STALE := HostAt(HostProvisioned, None, None, "", 0).(machineRef := Some(GONE))
  const REPAIRED := STALE.(consumerRef := Some(A), machineRef := Some(A), version := 1)
  const ADOPTED := STALE.(consumerRef := Some(B), machineRef := Some(B), version := 1)

  function ProvisionedAt(k: Key, hostRef: string): Machine {
    MachineAt(k, hostRef, false).(stage := Provisioned, providerID := Some(Print(7)))
  }

  // Machine a is provisioned and its status records the host; b names the same server.
  const PA := ProvisionedAt(A, "h")
  const PB := ProvisionedAt(B, "")

  function Legacy(h: Host, flights: map<Key, Flight>): World {
    WorldWith(h, PA, PB, flights, []).(legacy := map[H := A])
  }

  ghost const L0 := Legacy(STALE, map[])
  ghost const L1 := Legacy(STALE, map[A := Confirmable(PA)])
  ghost const L2 := Legacy(STALE, map[A := Vetting(PA, false, STALE)])
  ghost const L3 := Legacy(STALE, map[A := Pending(PA, Confirm, STALE)])
  ghost const L4 := Legacy(REPAIRED, map[A := Done(PA)])
  ghost const T1 := Legacy(STALE, map[B := Vetting(PB, true, STALE)])
  ghost const T2 := Legacy(STALE, map[B := Pending(PB, Adopt, STALE)])
  ghost const T3 := Legacy(ADOPTED, map[B := Confirmable(PB.(hostRef := "h"))])

  lemma LegacyStarts()
    ensures Start(L0)
  {
    RoundTrip(7);
    assert Reserved(L0, A, H);
    assert MachineOk(L0, A) && MachineOk(L0, B);
  }

  lemma ReadRecord()
    ensures Goes(L0, Begin(A, []), L1) && Goes(L1, ReadConfirm(A), L2)
  {
    assert Apply(L0, Begin(A, [])).flights == L1.flights;
    assert Apply(L1, ReadConfirm(A)).flights == L2.flights;
  }

  lemma VetRecord()
    ensures Goes(L2, Vet(A, false), L3)
  {
    RoundTrip(7);
    assert Apply(L2, Vet(A, false)).flights == L3.flights;
  }

  lemma RepairRecord()
    ensures Goes(L3, Patch(A), L4)
  {
    assert Apply(L3, Patch(A)).hosts == L4.hosts;
    assert Apply(L3, Patch(A)).flights == L4.flights;
  }

  lemma FindStale()
    ensures Goes(L0, Begin(B, []), T1) && Goes(T1, Vet(B, false), T2)
  {
    RoundTrip(7);
    assert Apply(L0, Begin(B, [])).flights == T1.flights;
    assert Apply(T1, Vet(B, false)).flights == T2.flights;
  }

  lemma AdoptStale()
    ensures Goes(T2, Patch(B), T3)
  {
    assert Apply(T2, Patch(B)).hosts == T3.hosts;
    assert Apply(T2, Patch(B)).flights == T3.flights;
  }

  // A provisioned machine whose status records host h takes it back from a machine that is
  // gone: an orderly run in which the owner changes without a release or an adoption.
  lemma LegacyHostRepaired() returns (trace: seq<World>, steps: seq<Step>)
    ensures Run(trace, steps) && Orderly(trace, steps) && |steps| == 4
    ensures OwnedBy(trace[0].hosts, H, GONE) && OwnedBy(trace[4].hosts, H, A)
    ensures steps[3] == Patch(A) && trace[3].flights == map[A := Pending(PA, Confirm, STALE)]
  {
    trace := [L0, L1, L2, L3, L4];
    steps := [Begin(A, []), ReadConfirm(A), Vet(A, false), Patch(A)];
    LegacyStarts();
    ReadRecord();
    VetRecord();
    RepairRecord();
    hide Apply, Enabled, Start;
    assert forall i | 0 <= i < 4 :: !steps[i].Crash?;
    assert !TakesOver(L3, Patch(A));
    forall i | 0 <= i < |steps| ensures Goes(trace[i], steps[i], trace[i + 1]) {
    }
  }

  lemma BothHold()
    ensures TakesOver(T2, Patch(B)) && Holds(T3, A, H) && Holds(T3, B, H)
  {
    assert Reserved(T2, A, H) && Records(T2, A, H) && !Leaving(T2, A);
    assert Records(T3, A, H);
  }

  // Two machines that name the same server, one of them with a legacy record of its host: the
  // other one adopts the host, and both hold it.
  lemma SharedServerTakesOver() returns (trace: seq<World>, steps: seq<Step>)
    ensures Run(trace, steps) && KeepsReleases(trace, steps) && !NoTakeovers(trace, steps)
    ensures Holds(trace[|steps|], A, H) && Holds(trace[|steps|], B, H)
  {
    trace := [L0, T1, T2, T3];
    steps := [Begin(B, []), Vet(B, false), Patch(B)];
    LegacyStarts();
    FindStale();
    AdoptStale();
    BothHold();
    hide Apply, Enabled, Start, TakesOver, Holds;
    assert TakesOver(trace[2], steps[2]);
    forall i | 0 <= i < |steps| ensures Goes(trace[i], steps[i], trace[i + 1]) {
    }
  }

  // ---- Without compare-and-swap ----

  // The same patch, accepted whatever the version of the stored host is.
  function BlindPatchStep(w: World, m: Key): World
    requires m in w.flights && w.flights[m].Pending?
  {
    var f := w.flights[m];
    WithFlight(PutHost(w, Patched(f)), m, AfterPatch(f, Patched(f).(version := w.next)))
  }

  const FREE := HostAt(Available, None, None, "", 0)

  const FA := MachineAt(A, "", false)
  ghost const C0 := WorldWith(FREE, FA, MB, map[A := Pending(FA, Claim, FREE), B := Pending(MB, Claim, FREE)], [])

  lemma BothFetched()
    ensures Inv(C0)
  {
    assert MachineOk(C0, A) && MachineOk(C0, B);
    assert FlightOk(C0, A) && FlightOk(C0, B);
    hide MachineOk, FlightOk;
  }

  // Two machines that both fetched the free host h would both end up working on it.
  lemma BlindPatchClaimsTwice() returns (w: World)
    ensures Inv(w) && A in w.flights && B in w.flights && w.flights[A].Pending? && w.flights[B].Pending?
    ensures var w1 := BlindPatchStep(w, A);
            var w2 := BlindPatchStep(w1, B);
            && w2.flights[A].Working? && w2.flights[B].Working?
            && Holds(w2, A, H) && Holds(w2, B, H)
  {
    w := C0;
    BothFetched();
    hide Inv;
  }
}
