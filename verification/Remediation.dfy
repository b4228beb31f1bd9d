// controllers/hetznerrobotremediation_controller.go: resetting an unhealthy machine's server a
// limited number of times.
module Remediation {
  import opened Common
  import opened Api
  import opened Policy

  datatype Phase = Initial | Running | Waiting | Exhausted | OtherPhase

  // Exhausted is the phase the API calls Deleting. Times are in seconds.
  datatype Status = Status(phase: Phase, retryCount: int, lastRemediated: Option<int>)

  // A successful hardware reset, with the host object that was looked at.
  datatype ResetDone = ResetDone(host: Host, at: int)

  // What one reconcile finds: the host behind the machine, if the chain of references leads to
  // one, and whether the Robot client and the reset call work.
  datatype Env = Env(now: int, host: Option<Host>, robotClient: bool, reset: bool)

  // ---- One reconcile ----

  predicate CanReset(env: Env)
    requires env.host.Some?
  {
    MayAutoReset(env.host.value) && env.robotClient && env.reset
  }

  function Remediated(env: Env, count: int): Status { Status(Running, count, Some(env.now)) }

  function Reconciled(s: Status, env: Env, limit: int): (Status, seq<ResetDone>) {
    if s.phase == Exhausted || env.host.None? then (s, [])
    else
      var done := [ResetDone(env.host.value, env.now)];
      match s.phase
      case Initial => if CanReset(env) then (Remediated(env, 1), done) else (s, [])
      case Running => (s.(phase := Waiting), [])
      case Waiting =>
        if s.retryCount >= limit then (s.(phase := Exhausted), [])
        else if CanReset(env) then (Remediated(env, s.retryCount + 1), done)
        else (s, [])
      case _ => (s, [])
  }

  class RemediationObject {
    const retryLimit: int
    var phase: Phase
    var retryCount: int
    var lastRemediated: Option<int>
    ghost var log: seq<ResetDone>

    constructor (retryLimit: int)
      ensures Value() == Status(Initial, 0, None) && log == [] && this.retryLimit == retryLimit
    {
      this.retryLimit := retryLimit;
      phase, retryCount, lastRemediated, log := Initial, 0, None, [];
    }

    function Value(): Status
      reads this
    {
      Status(phase, retryCount, lastRemediated)
    }

    method ReconcileInitial(env: Env)
      requires env.host.Some? && phase == Initial
      modifies this
      ensures Value() == Reconciled(old(Value()), env, retryLimit).0
      ensures log == old(log) + Reconciled(old(Value()), env, retryLimit).1
    {
      var gate := AuthorizeAutomatedHardwareReset(env.host);
      if gate.Err? {
        return;
      }
      if !env.robotClient {
        return;
      }
      if !env.reset {
        return;
      }
      log := log + [ResetDone(env.host.value, env.now)];
      phase := Running;
      lastRemediated := Some(env.now);
      retryCount := 1;
    }

    method ReconcileRunning(env: Env)
      requires env.host.Some? && phase == Running
      modifies this
      ensures Value() == Reconciled(old(Value()), env, retryLimit).0
      ensures log == old(log) + Reconciled(old(Value()), env, retryLimit).1
    {
      phase := Waiting;
    }

    method ReconcileWaiting(env: Env)
      requires env.host.Some? && phase == Waiting
      modifies this
      ensures Value() == Reconciled(old(Value()), env, retryLimit).0
      ensures log == old(log) + Reconciled(old(Value()), env, retryLimit).1
    {
      if retryCount >= retryLimit {
        phase := Exhausted;
        return;
      }
      var gate := AuthorizeAutomatedHardwareReset(env.host);
      if gate.Err? {
        return;
      }
      if !env.robotClient {
        return;
      }
      if !env.reset {
        return;
      }
      log := log + [ResetDone(env.host.value, env.now)];
      phase := Running;
      lastRemediated := Some(env.now);
      retryCount := retryCount + 1;
    }

    method Reconcile(env: Env)
      modifies this
      ensures Value() == Reconciled(old(Value()), env, retryLimit).0
      ensures log == old(log) + Reconciled(old(Value()), env, retryLimit).1
    {
      if phase == Exhausted {
        return;
      }
      if env.host.None? {
        return;
      }
      match phase {
        case Initial => ReconcileInitial(env);
        case Running => ReconcileRunning(env);
        case Waiting => ReconcileWaiting(env);
        case _ =>
      }
    }
  }

  // The reconcile resets the server: the host is found, a reset is due and within the limit, the
  // host is clean-slate compute and not in maintenance, and client and call work.
  predicate ResetsNow(s: Status, env: Env, limit: int) {
    && env.host.Some? && (s.phase == Initial || (s.phase == Waiting && s.retryCount < limit))
    && !env.host.value.maintenance
    && env.host.value.lifecycle == Compute && env.host.value.policy == AlwaysCleanSlate
    && env.robotClient && env.reset
  }

  // A reconcile does one reset, of the host it found, exactly then, and counts and dates it.
  // Otherwise it only moves on from Running, or gives up at the limit.
  lemma ReconcileExactly(s: Status, env: Env, limit: int)
    ensures var r := Reconciled(s, env, limit);
            if ResetsNow(s, env, limit) then
              && r.1 == [ResetDone(env.host.value, env.now)]
              && r.0 == Status(Running, if s.phase == Initial then 1 else s.retryCount + 1, Some(env.now))
            else
              && r.1 == []
              && r.0 == s.(phase :=
                   if env.host.Some? && s.phase == Running then Waiting
                   else if env.host.Some? && s.phase == Waiting && s.retryCount >= limit then Exhausted
                   else s.phase)
  {
  }

  // ---- Runs: any number of reconciles, whose status patch may be lost ----

  datatype Event = Event(env: Env, saved: bool)

  // lost counts the resets whose status patch was lost, moves the changes of phase.
  datatype World = World(s: Status, log: seq<ResetDone>, lost: nat, moves: nat)

  const START := World(Status(Initial, 0, None), [], 0, 0)

  function Next(w: World, e: Event, limit: int): World {
    var r := Reconciled(w.s, e.env, limit);
    World(
      if e.saved then r.0 else w.s,
      w.log + r.1,
      if e.saved then w.lost else w.lost + |r.1|,
      if e.saved && r.0.phase != w.s.phase then w.moves + 1 else w.moves)
  }

  function After(events: seq<Event>, limit: int): World {
    if events == [] then START
    else Next(After(events[..|events| - 1], limit), events[|events| - 1], limit)
  }

  // The number of moves still ahead.
  function Ahead(s: Status, limit: int): int {
    match s.phase
    case Initial => 2 * Max(limit, 1) + 1
    case Running => 2 * (Max(limit, 1) - s.retryCount) + 2
    case Waiting => 2 * (Max(limit, 1) - s.retryCount) + 1
    case _ => 0
  }

  predicate CountOk(s: Status, limit: int) {
    match s.phase
    case Initial => s.retryCount == 0
    case Running => 1 <= s.retryCount <= Max(limit, 1)
    case Waiting => 1 <= s.retryCount <= Max(limit, 1)
    case Exhausted => s.retryCount == Max(limit, 1)
    case OtherPhase => false
  }

  // The accounts of a run: every reset is counted, or its patch was lost; and every move used up
  // one of the moves that were ahead at the start.
  lemma {:induction false} Accounts(events: seq<Event>, limit: int)
    ensures var w := After(events, limit);
            && CountOk(w.s, limit)
            && |w.log| == w.s.retryCount + w.lost
            && w.moves + Ahead(w.s, limit) == 2 * Max(limit, 1) + 1
            && forall d | d in w.log ::
                 !d.host.maintenance && d.host.lifecycle == Compute && d.host.policy == AlwaysCleanSlate
  {
    if events != [] {
      Accounts(events[..|events| - 1], limit);
    }
  }

  lemma {:induction false} NothingLost(events: seq<Event>, limit: int)
    requires forall e | e in events :: e.saved
    ensures After(events, limit).lost == 0
  {
    if events != [] {
      NothingLost(events[..|events| - 1], limit);
    }
  }

  // With every status patch stored, the resets are exactly the counted ones and never more than
  // the budget; the terminal phase means that the budget is used up.
  lemma Budget(events: seq<Event>, limit: int)
    requires limit >= 1
    requires forall e | e in events :: e.saved
    ensures var w := After(events, limit);
            && |w.log| == w.s.retryCount <= limit
            && w.moves <= 2 * limit + 1
            && (w.s.phase == Exhausted <==> w.moves == 2 * limit + 1)
            && (w.s.phase == Exhausted ==> |w.log| == limit)
  {
    Accounts(events, limit);
    NothingLost(events, limit);
  }

  // The terminal phase is final, whatever is found and whatever is lost.
  lemma {:induction false} ExhaustedStays(events: seq<Event>, more: seq<Event>, limit: int)
    requires After(events, limit).s.phase == Exhausted
    ensures After(events + more, limit).s == After(events, limit).s
    ensures After(events + more, limit).log == After(events, limit).log
  {
    if more == [] {
      assert events + more == events;
    } else {
      var front := more[..|more| - 1];
      assert (events + more)[..|events + more| - 1] == events + front;
      ExhaustedStays(events, front, limit);
    }
  }

  // A reconcile that is not blocked uses up exactly one move, so it takes 2 * limit + 1 of them.
  lemma Progress(s: Status, env: Env, limit: int)
    requires CountOk(s, limit) && env.host.Some? && s.phase != Exhausted
    requires s.phase == Running || (s.phase == Waiting && s.retryCount >= limit) || CanReset(env)
    ensures Ahead(Reconciled(s, env, limit).0, limit) == Ahead(s, limit) - 1
  {
  }

  // A stored reconcile that finds the host and may and can reset it.
  predicate Unblocked(e: Event) { e.saved && e.env.host.Some? && CanReset(e.env) }

  function CountUnblocked(events: seq<Event>): nat {
    if events == [] then 0
    else CountUnblocked(events[..|events| - 1]) + (if Unblocked(events[|events| - 1]) then 1 else 0)
  }

  lemma NeverBack(w: World, e: Event, limit: int)
    requires CountOk(w.s, limit)
    ensures Ahead(Next(w, e, limit).s, limit) <= Ahead(w.s, limit)
  {
  }

  // In any run 2 * limit + 1 unblocked reconciles reach the terminal phase, whatever happens in
  // between and in whatever order.
  lemma {:induction false} Completes(events: seq<Event>, limit: int)
    requires limit >= 1
    ensures Ahead(After(events, limit).s, limit) <= Max(2 * limit + 1 - CountUnblocked(events), 0)
    ensures CountUnblocked(events) >= 2 * limit + 1 ==> After(events, limit).s.phase == Exhausted
  {
    Accounts(events, limit);
    if events != [] {
      var front, e := events[..|events| - 1], events[|events| - 1];
      Completes(front, limit);
      Accounts(front, limit);
      NeverBack(After(front, limit), e, limit);
      if Unblocked(e) && After(front, limit).s.phase != Exhausted {
        Progress(After(front, limit).s, e.env, limit);
      }
    }
  }

  // ---- The timeout between resets ----

  // Any two resets are at least t apart.
  predicate Spaced(log: seq<ResetDone>, t: int) {
    forall i, j | 0 <= i < j < |log| :: log[j].at - log[i].at >= t
  }

  predicate ResetsAgain(s: Status, env: Env, limit: int) {
    s.phase == Waiting && Reconciled(s, env, limit).1 != []
  }

  // A reconcile that resets again does so once the timeout has passed.
  predicate Waited(s: Status, env: Env, limit: int, t: int) {
    ResetsAgain(s, env, limit) ==> s.lastRemediated.Some? && env.now - s.lastRemediated.value >= t
  }

  predicate AllWaited(events: seq<Event>, limit: int, t: int) {
    forall n | 0 <= n < |events| :: Waited(After(events[..n], limit).s, events[n].env, limit, t)
  }

  // While patches are stored, the status remembers the last reset.
  lemma {:induction false} Remembers(events: seq<Event>, limit: int)
    requires forall e | e in events :: e.saved
    ensures var w := After(events, limit);
            && (w.log == [] <==> w.s.phase == Initial)
            && (w.log != [] ==> w.s.lastRemediated == Some(w.log[|w.log| - 1].at))
  {
    Accounts(events, limit);
    if events != [] {
      Remembers(events[..|events| - 1], limit);
      Accounts(events[..|events| - 1], limit);
    }
  }

  lemma SpacedMore(log: seq<ResetDone>, d: ResetDone, t: int)
    requires t >= 0 && log != []
    ensures Spaced(log + [d], t) <==> Spaced(log, t) && d.at - log[|log| - 1].at >= t
  {
    var more := log + [d];
    assert forall i | 0 <= i < |log| :: more[i] == log[i];
    assert more[|log|] == d;
    if Spaced(more, t) {
      assert more[|log|].at - more[|log| - 1].at >= t;
      forall i, j | 0 <= i < j < |log| ensures log[j].at - log[i].at >= t {
        assert more[j].at - more[i].at >= t;
      }
    } else if Spaced(log, t) {
      assert forall i | 0 <= i < |log| - 1 :: log[|log| - 1].at - log[i].at >= t;
    }
  }

  lemma AllWaitedMore(front: seq<Event>, e: Event, limit: int, t: int)
    ensures AllWaited(front + [e], limit, t) <==> AllWaited(front, limit, t) && Waited(After(front, limit).s, e.env, limit, t)
  {
    var events := front + [e];
    assert forall n | 0 <= n < |front| :: events[..n] == front[..n] && events[n] == front[n];
    assert events[..|front|] == front && events[|front|] == e;
  }

  lemma SpacedStep(w: World, e: Event, limit: int, t: int)
    requires t >= 0 && e.saved && (w.log == [] <==> w.s.phase == Initial)
    requires w.log != [] ==> w.s.lastRemediated == Some(w.log[|w.log| - 1].at)
    ensures Spaced(Next(w, e, limit).log, t) <==> Spaced(w.log, t) && Waited(w.s, e.env, limit, t)
  {
    var r := Reconciled(w.s, e.env, limit).1;
    hide Spaced;
    if r == [] {
      assert w.log + r == w.log;
    } else {
      assert r == [r[0]];
      if w.log == [] {
        OneIsSpaced(r[0], t);
        assert w.log + r == [r[0]];
      } else {
        SpacedMore(w.log, r[0], t);
      }
    }
  }

  lemma OneIsSpaced(d: ResetDone, t: int)
    ensures Spaced([], t) && Spaced([d], t)
  {
  }

  // With stored patches the configured timeout is kept between resets if and only if every
  // reconcile that resets out of the waiting phase runs that long after the last one. The
  // controller never checks this.
  lemma {:induction false} TimeoutKeptExactly(events: seq<Event>, limit: int, t: int)
    requires t >= 0 && forall e | e in events :: e.saved
    ensures Spaced(After(events, limit).log, t) <==> AllWaited(events, limit, t)
  {
    hide Next, Spaced, Waited, AllWaited;
    if events == [] {
      NothingYet(limit, t);
    } else {
      var front, e := events[..|events| - 1], events[|events| - 1];
      assert events == front + [e];
      assert After(events, limit) == Next(After(front, limit), e, limit);
      hide After;
      TimeoutKeptExactly(front, limit, t);
      AllWaitedMore(front, e, limit, t);
      Remembers(front, limit);
      SpacedStep(After(front, limit), e, limit, t);
    }
  }

  lemma NothingYet(limit: int, t: int)
    ensures Spaced(After([], limit).log, t) && AllWaited([], limit, t)
  {
  }

  // Nothing keeps two resets the configured timeout apart: the running phase does not look at
  // the clock, and three reconciles in the same second reset the server twice.
  lemma TimeoutNotKept(env: Env, limit: int)
    requires limit >= 2 && env.host.Some? && CanReset(env)
    ensures After([Event(env, true), Event(env, true), Event(env, true)], limit).log
            == [ResetDone(env.host.value, env.now), ResetDone(env.host.value, env.now)]
  {
    var e := Event(env, true);
    assert [e, e, e][..2] == [e, e] && [e, e][..1] == [e] && [e][..0] == [];
    assert After([e], limit) == Next(START, e, limit);
    assert After([e, e], limit) == Next(After([e], limit), e, limit);
  }
}
