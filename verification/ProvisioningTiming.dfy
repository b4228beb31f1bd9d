// The numbers behind the provisioning timeout, the back-off and the reset cooldown, which
// states are final, and that provisioning gets there.
module ProvisioningTiming {
  import opened Common
  import opened Api
  import opened Provisioning
  import opened ProvisioningRuns
  import Backoff
  import Hardware

  // ---- Resets and retries while the patches are stored ----

  predicate Succeeded(e: Effect) { e.Reset? && e.ok }

  function Resets(log: seq<Effect>): nat {
    if log == [] then 0
    else Resets(log[..|log| - 1]) + (if Succeeded(log[|log| - 1]) then 1 else 0)
  }

  lemma {:induction false} ResetsConcat(a: seq<Effect>, b: seq<Effect>)
    ensures Resets(a + b) == Resets(a) + Resets(b)
  {
    if b == [] {
      assert a + b == a;
    } else {
      assert (a + b)[..|a + b| - 1] == a + b[..|b| - 1];
      ResetsConcat(a, b[..|b| - 1]);
    }
  }

  lemma {:induction false} NoResets(es: seq<Effect>)
    requires forall e | e in es :: !Succeeded(e)
    ensures Resets(es) == 0
  {
    if es != [] {
      NoResets(es[..|es| - 1]);
    }
  }

  // Any two successful resets are at least the cooldown apart.
  predicate Spaced(log: seq<Effect>) {
    forall i, j | 0 <= i < j < |log| && Succeeded(log[i]) && Succeeded(log[j]) ::
      log[j].at - log[i].at >= 120
  }

  // The least time between the start and the k-th failure in a row.
  function Spent(k: nat): int {
    if k <= 1 then 0 else Spent(k - 1) + Backoff.Delay(k - 1)
  }

  lemma SpentTen()
    ensures Spent(10) == 1950
  {
    Backoff.DelayTable(1);
    Backoff.DelayTable(2);
    Backoff.DelayTable(3);
    Backoff.DelayTable(4);
    Backoff.DelayTable(5);
    Backoff.DelayTable(6);
    Backoff.DelayTable(7);
    Backoff.DelayTable(8);
    Backoff.DelayTable(9);
    assert Spent(5) == 450;
    assert Spent(8) == 1350;
  }

  lemma {:induction false} SpentMonotone(j: nat, k: nat)
    requires j <= k
    ensures Spent(j) <= Spent(k)
    decreases k
  {
    if j < k {
      SpentMonotone(j, k - 1);
      if k >= 2 {
        Backoff.DelayTable(k - 1);
      }
    }
  }

  predicate RetriesOk(s: State, clock: int) {
    && s.retryCount >= 0
    && (s.retryCount > 0 ==>
          && s.started.Some? && s.lastRetry.Some?
          && s.started.value + Spent(s.retryCount) <= s.lastRetry.value
          && s.lastRetry.value <= s.started.value + TIMEOUT)
  }

  predicate ResetsOk(s: State, log: seq<Effect>) {
    && Spaced(log)
    && (Resets(log) > 0 ==>
          && s.started.Some? && s.lastReset.Some?
          && s.started.value + COOLDOWN * (Resets(log) - 1) <= s.lastReset.value
          && s.lastReset.value <= s.started.value + TIMEOUT)
    && (forall e | e in log && Succeeded(e) :: s.lastReset.Some? && e.at <= s.lastReset.value)
  }

  predicate Timely(w: World) {
    && (w.s.started.Some? ==> w.s.started.value <= w.clock)
    && (Active(w.s.stage) ==> RetriesOk(w.s, w.clock))
    && ResetsOk(w.s, w.log)
  }

  // A handler resets at most once, and only when the cooldown has passed; it leaves the start
  // and the retry bookkeeping alone.
  predicate ResetsOnce(s: State, env: Env, o: Outcome) {
    && o.s.started == s.started && o.s.retryCount == s.retryCount && o.s.lastRetry == s.lastRetry
    && (|| (o.s.lastReset == s.lastReset && forall e | e in o.effects :: !Succeeded(e))
        || (&& o.s.lastReset == Some(env.now)
            && (s.lastReset.Some? ==> env.now - s.lastReset.value >= COOLDOWN)
            && o.effects != []
            && o.effects[|o.effects| - 1].Reset?
            && o.effects[|o.effects| - 1].at == env.now
            && o.effects[|o.effects| - 1].ok
            && forall e | e in o.effects[..|o.effects| - 1] :: !Succeeded(e)))
  }

  lemma ActivateOnce(s: State, env: Env, server: int)
    ensures ResetsOnce(s, env, ActivateRescue(s, env, server))
  {
  }

  lemma CheckOnce(s: State, env: Env, server: int)
    ensures ResetsOnce(s, env, CheckRescueActive(s, env, server))
  {
    ActivateOnce(s, env, server);
    var a := ActivateRescue(s, env, server);
    var wipe := [SystemDiskWipe(server, env.systemWipe)];
    hide ActivateRescue;
    if a.effects != [] {
      assert (wipe + a.effects)[..|a.effects|] == wipe + a.effects[..|a.effects| - 1];
    }
  }

  lemma InstallOnce(s: State, env: Env, spec: Spec, server: int)
    ensures ResetsOnce(s, env, InstallOS(s, env, spec, server))
  {
    ActivateOnce(s, env, server);
    InstallShape(s, env, spec, server);
    hide ActivateRescue, Install;
  }

  lemma QuietOnce(s: State, env: Env, o: Outcome)
    requires o.s.started == s.started && o.s.retryCount == s.retryCount && o.s.lastRetry == s.lastRetry
    requires o.s.lastReset == s.lastReset && forall e | e in o.effects :: !Succeeded(e)
    ensures ResetsOnce(s, env, o)
  {
  }

  lemma HandleOnce(s: State, env: Env, spec: Spec, server: int)
    ensures ResetsOnce(s, env, Handle(s, env, spec, server))
  {
    hide ResetsOnce, ActivateRescue, CheckRescueActive, InstallOS;
    match s.stage {
      case StateNone => ActivateOnce(s, env, server);
      case ActivatingRescue => CheckOnce(s, env, server);
      case InRescue => InstallOnce(s, env, spec, server);
      case Installing =>
        if !spec.flatcar && !env.maintenanceMode && env.talosUp {
          ActivateOnce(s, env, server);
        } else {
          QuietOnce(s, env, Handle(s, env, spec, server));
        }
      case _ => QuietOnce(s, env, Handle(s, env, spec, server));
    }
  }

  lemma NormalOnce(s: State, env: Env, spec: Spec)
    ensures ResetsOnce(s, env, Normal(s, env, spec))
  {
    if env.host.Found? {
      HandleOnce(s, env, spec, env.host.host.serverID);
    }
    hide Handle, GateOpen;
  }

  // The final states stay, and while a machine is in one it does nothing to the server.
  lemma NormalFinal(s: State, env: Env, spec: Spec)
    ensures !Active(s.stage) ==> Normal(s, env, spec).s.stage == s.stage && Normal(s, env, spec).effects == []
  {
  }

  lemma ResetsGrow(s: State, env: Env, o: Outcome, log: seq<Effect>)
    requires ResetsOk(s, log) && ResetsOnce(s, env, o)
    requires o.effects != [] ==> s.started.Some? && s.started.value <= env.now <= s.started.value + TIMEOUT
    ensures ResetsOk(o.s, log + o.effects)
  {
    var now := log + o.effects;
    ResetsConcat(log, o.effects);
    if forall e | e in o.effects :: !Succeeded(e) {
      NoResets(o.effects);
      forall j | |log| <= j < |now| ensures !Succeeded(now[j]) {
        assert now[j] == o.effects[j - |log|];
      }
      forall i, j | 0 <= i < j < |now| && Succeeded(now[i]) && Succeeded(now[j])
        ensures now[j].at - now[i].at >= COOLDOWN
      {
        assert now[i] == log[i] && now[j] == log[j];
      }
    } else {
      var last := |o.effects| - 1;
      NoResets(o.effects[..last]);
      forall i | |log| <= i < |now| - 1 ensures !Succeeded(now[i]) {
        assert now[i] == o.effects[..last][i - |log|];
      }
      forall i | 0 <= i < |now| - 1 && Succeeded(now[i])
        ensures i < |log| && now[i] in log && env.now - now[i].at >= COOLDOWN
      {
        assert now[i] == log[i];
      }
    }
  }

  // One more failure costs one more back-off.
  lemma RetriesGrow(s: State, env: Env)
    requires RetriesOk(s, env.now) && !BackingOff(s, env.now) && s.started.Some?
    requires s.started.value <= env.now <= s.started.value + TIMEOUT
    ensures RetriesOk(s.(retryCount := s.retryCount + 1, lastRetry := Some(env.now)), env.now)
  {
  }

  lemma StartedResets(s: State, now: int, log: seq<Effect>)
    requires ResetsOk(s, log)
    ensures ResetsOk(Started(s, now), log)
  {
    hide Resets, Spaced;
  }

  lemma OnceKeeps(s: State, env: Env, o: Outcome, log: seq<Effect>)
    requires ResetsOnce(s, env, o) && ResetsOk(o.s, log)
    ensures o.s.started == s.started && o.s.retryCount == s.retryCount && o.s.lastRetry == s.lastRetry
    ensures ResetsOk(Concluded(o, env.now), log)
  {
    hide Resets, Spaced;
  }

  lemma TimelyAttempt(spec: Spec, w: World, env: Env)
    requires Timely(w) && !w.s.deleting && env.now >= w.clock
    requires !TimedOut(w.s, env.now) && !BackingOff(Started(w.s, env.now), env.now)
    ensures var o := Normal(Started(w.s, env.now), env, spec);
            Timely(World(Concluded(o, env.now), w.log + o.effects, env.now))
  {
    hide Normal, Resets, Spaced, ResetsOk, ResetsOnce;
    var s1 := Started(w.s, env.now);
    var o := Normal(s1, env, spec);
    NormalOnce(s1, env, spec);
    NormalFinal(s1, env, spec);
    if Active(s1.stage) {
      RetriesGrow(s1, env);
    }
    StartedResets(w.s, env.now, w.log);
    ResetsGrow(s1, env, o, w.log);
    OnceKeeps(s1, env, o, w.log + o.effects);
  }

  lemma TimelyStep(spec: Spec, server: int, w: World, e: Event)
    requires Timely(w) && Enabled(server, w, e)
    requires e.Attempt? ==> e.fate.Saved? && !w.s.deleting
    ensures Timely(Next(spec, w, e))
  {
    if e.Attempt? {
      var s1 := Started(w.s, e.env.now);
      if w.s.finalizer && !TimedOut(w.s, e.env.now) && !BackingOff(s1, e.env.now) {
        TimelyAttempt(spec, w, e.env);
      }
      hide Normal, Resets, Spaced;
      assert w.log + [] == w.log;
    }
  }

  lemma {:induction false} RunTimely(spec: Spec, server: int, trace: seq<World>, events: seq<Event>, n: nat)
    requires Run(spec, server, trace, events) && AllSaved(events)
    requires n < |trace| && !trace[n].s.deleting
    ensures Timely(trace[n])
  {
    if n > 0 {
      var w, e := trace[n - 1], events[n - 1];
      assert Enabled(server, w, e) && trace[n] == Next(spec, w, e);
      assert !w.s.deleting by { DeletingStays(spec, w, e); }
      RunTimely(spec, server, trace, events, n - 1);
      TimelyStep(spec, server, w, e);
    }
  }

  lemma DeletingStays(spec: Spec, w: World, e: Event)
    ensures w.s.deleting ==> Next(spec, w, e).s.deleting
  {
    if e.Attempt? && w.s.deleting {
      assert Reconciled(w.s, e.env, spec).0 == Delete(w.s, e.env).s;
      hide Normal;
    }
  }

  // Before the timeout forces the error state there are at most nine failures in a row, and at
  // most sixteen successful resets, all at least two minutes apart.
  lemma ProvisioningBounds(spec: Spec, server: int, trace: seq<World>, events: seq<Event>, n: nat)
    requires Run(spec, server, trace, events) && AllSaved(events)
    requires n < |trace| && !trace[n].s.deleting
    ensures Active(trace[n].s.stage) ==> trace[n].s.retryCount <= 9
    ensures Resets(trace[n].log) <= 16 && Spaced(trace[n].log)
  {
    RunTimely(spec, server, trace, events, n);
    var s := trace[n].s;
    SpentTen();
    if Active(s.stage) && s.retryCount >= 10 {
      SpentMonotone(10, s.retryCount);
    }
  }

  // ---- The cooldown, whatever patches are lost ----

  // The time of the last successful reset.
  function LastReset(log: seq<Effect>): Option<int> {
    if log == [] then None
    else if Succeeded(log[|log| - 1]) then Some(log[|log| - 1].at)
    else LastReset(log[..|log| - 1])
  }

  predicate ResetsNow(spec: Spec, w: World, e: Event) {
    Resets(Next(spec, w, e).log) > Resets(w.log)
  }

  // The cooldown since the last reset has not passed, and nothing holds the next one back: the
  // stored status remembers another reset, or the machine is being deleted.
  predicate Forgotten(w: World, now: int) {
    var last := LastReset(w.log);
    last.Some? && (w.s.deleting || w.s.lastReset != last) && now - last.value < COOLDOWN
  }

  predicate Hasty(spec: Spec, w: World, e: Event) {
    e.Attempt? && Forgotten(w, e.env.now) && ResetsNow(spec, w, e)
  }

  // Successful resets are logged in the order of their times.
  predicate Ordered(log: seq<Effect>, clock: int) {
    match LastReset(log)
    case None => forall i | 0 <= i < |log| :: !Succeeded(log[i])
    case Some(t) => t <= clock && forall i | 0 <= i < |log| && Succeeded(log[i]) :: log[i].at <= t
  }

  // No successful reset, or one at the end that the stored time allows.
  predicate FinalReset(es: seq<Effect>, now: int, stored: Option<int>) {
    || (forall e | e in es :: !Succeeded(e))
    || (&& es != [] && Succeeded(es[|es| - 1]) && es[|es| - 1].at == now
        && (stored.Some? ==> now - stored.value >= COOLDOWN)
        && forall e | e in es[..|es| - 1] :: !Succeeded(e))
  }

  lemma AttemptResets(s: State, env: Env, spec: Spec)
    requires !s.deleting
    ensures FinalReset(Reconciled(s, env, spec).1, env.now, s.lastReset)
  {
    NormalOnce(Started(s, env.now), env, spec);
    hide Normal;
  }

  lemma PrefixResets(es: seq<Effect>, now: int, stored: Option<int>, n: nat)
    requires FinalReset(es, now, stored) && n <= |es|
    ensures FinalReset(es[..n], now, stored)
  {
    if n < |es| {
      forall e | e in es[..n] && exists f :: f in es && Succeeded(f) ensures !Succeeded(e) {
        assert e in es[..|es| - 1];
      }
    } else {
      assert es[..n] == es;
    }
  }

  lemma {:induction false} QuietMore(log: seq<Effect>, es: seq<Effect>)
    requires forall e | e in es :: !Succeeded(e)
    ensures Resets(log + es) == Resets(log) && LastReset(log + es) == LastReset(log)
    ensures Spaced(log + es) <==> Spaced(log)
  {
    if es == [] {
      assert log + es == log;
    } else {
      var front := es[..|es| - 1];
      assert (log + es)[..|log + es| - 1] == log + front;
      QuietMore(log, front);
      QuietSpaced(log + front, es[|es| - 1]);
      assert log + es == log + front + [es[|es| - 1]];
    }
  }

  lemma QuietSpaced(log: seq<Effect>, e: Effect)
    requires !Succeeded(e)
    ensures Spaced(log + [e]) <==> Spaced(log)
  {
    var more := log + [e];
    assert forall i | 0 <= i < |log| :: more[i] == log[i];
    if Spaced(more) {
      forall i, j | 0 <= i < j < |log| && Succeeded(log[i]) && Succeeded(log[j])
        ensures log[j].at - log[i].at >= COOLDOWN
      {
        assert more[j].at - more[i].at >= COOLDOWN;
      }
    }
  }

  lemma {:induction false} LastIsLogged(log: seq<Effect>) returns (i: nat)
    requires LastReset(log).Some?
    ensures i < |log| && Succeeded(log[i]) && log[i].at == LastReset(log).value
  {
    i := |log| - 1;
    if !Succeeded(log[i]) {
      i := LastIsLogged(log[..i]);
    }
  }

  // One more reset keeps the spacing if and only if it is late enough after the last one.
  lemma ResetSpaced(log: seq<Effect>, clock: int, e: Effect)
    requires Ordered(log, clock) && Succeeded(e) && clock <= e.at
    ensures Resets(log + [e]) == Resets(log) + 1 && LastReset(log + [e]) == Some(e.at) && Ordered(log + [e], e.at)
    ensures Spaced(log + [e]) <==> Spaced(log) && (LastReset(log).Some? ==> e.at - LastReset(log).value >= COOLDOWN)
  {
    var more := log + [e];
    assert more[..|more| - 1] == log && forall i | 0 <= i < |log| :: more[i] == log[i];
    if Spaced(more) {
      forall i, j | 0 <= i < j < |log| && Succeeded(log[i]) && Succeeded(log[j])
        ensures log[j].at - log[i].at >= COOLDOWN
      {
        assert more[j].at - more[i].at >= COOLDOWN;
      }
      if LastReset(log).Some? {
        var i := LastIsLogged(log);
        assert more[|log|].at - more[i].at >= COOLDOWN;
      }
    }
  }

  lemma NoneAdded(log: seq<Effect>, es: seq<Effect>)
    requires forall e | e in es :: !Succeeded(e)
    ensures forall i | 0 <= i < |log + es| && Succeeded((log + es)[i]) :: i < |log| && log[i] == (log + es)[i]
  {
    forall i | |log| <= i < |log + es| ensures !Succeeded((log + es)[i]) {
      assert (log + es)[i] in es;
    }
  }

  lemma MoreResets(log: seq<Effect>, clock: int, es: seq<Effect>, now: int, stored: Option<int>)
    requires Ordered(log, clock) && clock <= now && FinalReset(es, now, stored)
    ensures Ordered(log + es, now)
    ensures Spaced(log + es) <==>
            && Spaced(log)
            && !(Resets(log + es) > Resets(log) && LastReset(log).Some? && stored != LastReset(log)
                 && now - LastReset(log).value < COOLDOWN)
  {
    if forall e | e in es :: !Succeeded(e) {
      QuietMore(log, es);
      NoneAdded(log, es);
    } else {
      var front, e := es[..|es| - 1], es[|es| - 1];
      QuietMore(log, front);
      NoneAdded(log, front);
      assert log + es == log + front + [e];
      ResetSpaced(log + front, clock, e);
    }
  }

  // A delete resets whatever the status remembers.
  lemma DeleteResets(s: State, env: Env, log: seq<Effect>, clock: int, n: nat)
    requires Ordered(log, clock) && clock <= env.now && n <= |Delete(s, env).effects|
    ensures var more := log + Delete(s, env).effects[..n];
            && Ordered(more, env.now)
            && (Spaced(more) <==>
                && Spaced(log)
                && !(Resets(more) > Resets(log) && LastReset(log).Some? && env.now - LastReset(log).value < COOLDOWN))
  {
    DeleteShape(s, env);
    hide Delete, FinalReset, Spaced, Resets, LastReset;
    var all := Delete(s, env).effects;
    var es := all[..n];
    var half := Min(|all|, 2);
    if n <= half {
      PrefixResets(all[..half], env.now, None, n);
      assert all[..half][..n] == es;
      MoreResets(log, clock, es, env.now, None);
    } else {
      var front, tail := all[..half], all[half..n];
      assert log + es == log + front + tail;
      MoreResets(log, clock, front, env.now, None);
      assert forall e | e in tail :: e in all[half..];
      QuietMore(log + front, tail);
      NoneAdded(log + front, tail);
    }
  }

  lemma DeleteShape(s: State, env: Env)
    ensures var es := Delete(s, env).effects; var half := Min(|es|, 2);
            FinalReset(es[..half], env.now, None) && forall e | e in es[half..] :: !Succeeded(e)
  {
    hide GateOpen;
  }

  lemma SpacingStep(spec: Spec, server: int, w: World, e: Event)
    requires Ordered(w.log, w.clock) && Enabled(server, w, e)
    ensures Ordered(Next(spec, w, e).log, Next(spec, w, e).clock)
    ensures Spaced(Next(spec, w, e).log) <==> Spaced(w.log) && !Hasty(spec, w, e)
  {
    if e.Attempt? {
      var es := Reconciled(w.s, e.env, spec).1;
      var n := if e.fate.Saved? then |es| else Min(e.fate.done, |es|);
      assert es[..|es|] == es;
      assert Next(spec, w, e).log == w.log + es[..n];
      if w.s.deleting {
        assert es == Delete(w.s, e.env).effects;
        hide Reconciled, Spaced, Ordered, Delete;
        DeleteResets(w.s, e.env, w.log, w.clock, n);
      } else {
        hide Reconciled, Spaced, FinalReset, Ordered;
        AttemptResets(w.s, e.env, spec);
        PrefixResets(es, e.env.now, w.s.lastReset, n);
        MoreResets(w.log, w.clock, es[..n], e.env.now, w.s.lastReset);
      }
    }
  }

  lemma NothingReset(clock: int)
    ensures Ordered([], clock) && Spaced([])
  {
  }

  // In every run, whatever patches are lost, the resets are the cooldown apart if and only if no
  // reconcile resets within the cooldown of a reset that the stored status does not remember,
  // or in a delete.
  lemma {:induction false} SpacingKeptExactly(
    spec: Spec, server: int, trace: seq<World>, events: seq<Event>, n: nat)
    requires Run(spec, server, trace, events) && n < |trace|
    ensures Ordered(trace[n].log, trace[n].clock)
    ensures Spaced(trace[n].log) <==> forall i | 0 <= i < n :: !Hasty(spec, trace[i], events[i])
  {
    hide Next, Enabled, Spaced, Hasty, Ordered;
    if n == 0 {
      NothingReset(trace[0].clock);
    } else {
      var w, e := trace[n - 1], events[n - 1];
      assert Enabled(server, w, e) && trace[n] == Next(spec, w, e);
      hide Run;
      SpacingKeptExactly(spec, server, trace, events, n - 1);
      SpacingStep(spec, server, w, e);
    }
  }

  // Lost patches void the spacing: the cooldown is read from the stored status.
  lemma UnsavedResets(spec: Spec, env: Env, w: World)
    requires w.s == FRESH.(finalizer := true) && w.log == []
    requires env.host.Found? && GateOpen(env, env.host.host) && env.robotClient.None?
    requires env.fingerprint.None? && env.activate.None? && env.reset.None?
    ensures var once := Next(spec, w, Attempt(env, Unsaved(2)));
            var twice := Next(spec, once, Attempt(env, Unsaved(2)));
            Resets(twice.log) == 2 && !Spaced(twice.log)
  {
    hide Next, Spaced, GateOpen;
    var server := env.host.host.serverID;
    var es := [Activate(server, true), Reset(server, env.now, true)];
    ResetOnce(spec, env, w);
    var once := Next(spec, w, Attempt(env, Unsaved(2)));
    assert [] + es == es;
    ResetOnce(spec, env, once);
    var twice := Next(spec, once, Attempt(env, Unsaved(2)));
    assert twice.log == es + es;
    ResetsConcat(es, es);
    assert es[..1] == [Activate(server, true)];
    assert Resets([Activate(server, true)]) == Resets([Activate(server, true)][..0]) + 0;
    TwoAtOnce(twice.log, env.now);
  }

  lemma TwoAtOnce(log: seq<Effect>, now: int)
    requires |log| == 4 && Succeeded(log[1]) && Succeeded(log[3]) && log[1].at == log[3].at
    ensures !Spaced(log)
  {
  }

  lemma ResetOnce(spec: Spec, env: Env, w: World)
    requires w.s == FRESH.(finalizer := true)
    requires env.host.Found? && GateOpen(env, env.host.host) && env.robotClient.None?
    requires env.fingerprint.None? && env.activate.None? && env.reset.None?
    ensures var server := env.host.host.serverID;
            Next(spec, w, Attempt(env, Unsaved(2)))
            == World(w.s, w.log + [Activate(server, true), Reset(server, env.now, true)], env.now)
  {
    hide CheckRescueActive, InstallOS, GateOpen;
    var server := env.host.host.serverID;
    var es := [Activate(server, true), Reset(server, env.now, true)];
    assert Reconciled(w.s, env, spec).1 == es && es[..2] == es;
  }

  // ---- Final states ----

  lemma FinalStep(spec: Spec, s: State, env: Env)
    requires s.stage == Provisioned || s.stage == StateError
    ensures var r := Reconciled(s, env, spec);
            if s.deleting then r.0.stage == Deleting else r.0.stage == s.stage && r.1 == []
  {
    NormalFinal(s, env, spec);
    if env.host.Missing? && s.stage == StateError {
      assert Normal(s, env, spec).s == s;
    }
    assert s.stage == Provisioned ==> Normal(s, env, spec).fault.None?;
    hide Normal;
  }

  lemma FinalNext(spec: Spec, server: int, w: World, e: Event)
    requires Enabled(server, w, e)
    requires w.s.stage == Provisioned || w.s.stage == StateError || (w.s.stage == Deleting && w.s.deleting)
    ensures var w' := Next(spec, w, e);
            && (w'.s.stage == w.s.stage || (w'.s.stage == Deleting && w'.s.deleting))
            && (!w'.s.deleting ==> w'.log == w.log)
  {
    DeletingStays(spec, w, e);
    if e.Attempt? {
      if w.s.stage != Deleting {
        FinalStep(spec, w.s, e.env);
      } else {
        assert Reconciled(w.s, e.env, spec).0 == Delete(w.s, e.env).s;
      }
    }
    hide Reconciled, Delete;
    assert w.log + [] == w.log;
  }

  // Provisioned and the error state are left only for the deletion.
  lemma {:induction false} FinalStates(
    spec: Spec, server: int, trace: seq<World>, events: seq<Event>, i: nat, n: nat)
    requires Run(spec, server, trace, events) && i <= n < |trace|
    requires trace[i].s.stage == Provisioned || trace[i].s.stage == StateError
    ensures trace[n].s.stage == trace[i].s.stage || (trace[n].s.stage == Deleting && trace[n].s.deleting)
    ensures !trace[n].s.deleting ==> trace[n].log == trace[i].log
    decreases n
  {
    if i < n {
      FinalStates(spec, server, trace, events, i, n - 1);
      var w, e := trace[n - 1], events[n - 1];
      assert Enabled(server, w, e) && trace[n] == Next(spec, w, e);
      FinalNext(spec, server, w, e);
      DeletingStays(spec, w, e);
      hide Next, Enabled;
    }
  }

  // In the error state the failure reason is dropped as soon as a reconcile finds the host and
  // the Robot client again.
  lemma ReasonDroppedExactly(s: State, env: Env, spec: Spec)
    requires s.stage == StateError && s.finalizer && !s.deleting && s.failureReason.Some?
    ensures Reconciled(s, env, spec).0.failureReason.None?
            <==> !BackingOff(s, env.now) && env.host.Found? && env.robotClient.None?
  {
    hide GateOpen, BackingOff;
  }

  // ---- Provisioning gets there ----

  function Follows(spec: Spec, stage: ProvisioningState): ProvisioningState {
    match stage
    case StateNone => ActivatingRescue
    case ActivatingRescue => InRescue
    case InRescue => Installing
    case Installing => if spec.flatcar then BootingFlatcar else BootingTalos
    case BootingTalos => ApplyingConfig
    case ApplyingConfig => WaitingForBoot
    case WaitingForBoot => Provisioned
    case BootingFlatcar => Provisioned
    case other => other
  }

  // Everything answers, and the rescue system reports disks and confirms their wipe.
  predicate Favourable(env: Env) {
    && env.host.Found? && GateOpen(env, env.host.host) && env.robotClient.None?
    && env.fingerprint.None? && env.activate.None? && env.reset.None?
    && env.sshOpen && env.privateKey.None? && env.publicKey.None? && env.connect.None?
    && env.rescueShell && env.rescueMode == Some(true) && env.detect.None?
    && Hardware.Parse(env.hardware).Ok? && Hardware.Parse(env.hardware).value.disks != []
    && WipeConfirmed(env, Hardware.Parse(env.hardware).value) && env.image.None?
    && env.talosUp && env.maintenanceMode && env.endpoint.None?
    && env.bootstrapReady && env.diskInjection.None? && env.injections.None? && env.applyConfig.None?
    && (env.vlan ==> env.internalIP != "") && env.ignition.None?
    && env.flatcarUp && env.bootstrapDone == Some(true)
  }

  lemma InstallSucceeds(s: State, env: Env, spec: Spec, server: int)
    requires Favourable(env)
    ensures InstallOS(s, env, spec, server).fault.None? && InstallOS(s, env, spec, server).s.stage == Installing
  {
    hide WipeConfirmed, Hardware.Parse;
    Hardware.ResolveMeaning(Hardware.Parse(env.hardware).value, ConfiguredDisk(spec));
  }

  // A machine that is not held up moves on to the next stage.
  lemma Advances(s: State, env: Env, spec: Spec)
    requires Favourable(env) && s.finalizer && !s.deleting && Active(s.stage)
    requires !TimedOut(s, env.now) && !BackingOff(s, env.now)
    requires s.stage == StateNone && s.lastReset.Some? ==> env.now - s.lastReset.value >= COOLDOWN
    requires s.stage == ApplyingConfig ==> s.primaryMAC != "" && s.gatewayIP != ""
    ensures Reconciled(s, env, spec).0.stage == Follows(spec, s.stage)
    ensures Reconciled(s, env, spec).0.retryCount == 0
  {
    var s1 := Started(s, env.now);
    InstallSucceeds(s1, env, spec, env.host.host.serverID);
    hide InstallOS, GateOpen, WipeConfirmed;
    hide Hardware.Parse;
  }

  // The state after stored reconciles that find these environments, one after the other.
  function After(s: State, envs: seq<Env>, spec: Spec): State {
    if envs == [] then s else Reconciled(After(s, envs[..|envs| - 1], spec), envs[|envs| - 1], spec).0
  }

  // The stage after k stored reconciles.
  function StageAfter(spec: Spec, k: nat): ProvisioningState {
    if k <= 1 then StateNone else Follows(spec, StageAfter(spec, k - 1))
  }

  lemma Stages(spec: Spec)
    ensures forall k | 1 <= k < (if spec.flatcar then 6 else 8) :: Active(StageAfter(spec, k))
    ensures StageAfter(spec, if spec.flatcar then 6 else 8) == Provisioned
  {
    assert StageAfter(spec, 2) == ActivatingRescue;
    assert StageAfter(spec, 4) == Installing;
    assert StageAfter(spec, 6) == if spec.flatcar then Provisioned else ApplyingConfig;
    if !spec.flatcar {
      assert StageAfter(spec, 7) == WaitingForBoot;
    }
  }

  predicate OnTrack(s: State, spec: Spec, from: int, k: nat) {
    && s.stage == StageAfter(spec, k)
    && s.finalizer && !s.deleting && s.retryCount == 0
    && (s.started.Some? ==> s.started.value >= from)
    && (s.stage == StateNone ==> s.lastReset.None?)
    && (PastInstall(s.stage) ==> s.primaryMAC != "" && s.gatewayIP != "")
  }

  function Needed(spec: Spec): nat { if spec.flatcar then 6 else 8 }

  lemma Unhindered(s: State, env: Env, from: int)
    requires s.retryCount == 0 && (s.started.Some? ==> s.started.value >= from) && env.now <= from + TIMEOUT
    ensures !TimedOut(s, env.now) && !BackingOff(s, env.now)
  {
  }

  predicate Books(s: State, o: Outcome) {
    && o.s.finalizer == s.finalizer && o.s.deleting == s.deleting && o.s.started == s.started
    && (PastInstall(o.s.stage) ==> o.s.primaryMAC != "" && o.s.gatewayIP != "")
  }

  lemma InstallBooks(s: State, env: Env, spec: Spec, server: int)
    requires Favourable(env)
    ensures Books(s, InstallOS(s, env, spec, server))
  {
    InstallSucceeds(s, env, spec, server);
    InstallShape(s, env, spec, server);
    hide Install, GateOpen, WipeConfirmed, Hardware.Parse;
  }

  lemma KeepsBooks(s: State, env: Env, spec: Spec, server: int)
    requires Favourable(env) && (PastInstall(s.stage) ==> s.primaryMAC != "" && s.gatewayIP != "")
    ensures Books(s, Handle(s, env, spec, server))
  {
    hide GateOpen, WipeConfirmed, Hardware.Parse;
    if s.stage == InRescue {
      InstallBooks(s, env, spec, server);
    }
    hide InstallOS;
  }

  lemma StaysOnTrack(s: State, env: Env, spec: Spec, from: int, k: nat)
    requires Favourable(env) && OnTrack(s, spec, from, k) && 1 <= k < Needed(spec)
    requires from <= env.now <= from + TIMEOUT
    ensures OnTrack(Reconciled(s, env, spec).0, spec, from, k + 1)
  {
    Stages(spec);
    Unhindered(s, env, from);
    Advances(s, env, spec);
    KeepsBooks(Started(s, env.now), env, spec, env.host.host.serverID);
    hide Handle, GateOpen, Hardware.Parse, WipeConfirmed;
  }

  lemma FirstReconcile(env: Env, spec: Spec, from: int)
    ensures OnTrack(Reconciled(FRESH, env, spec).0, spec, from, 1)
  {
    assert Reconciled(FRESH, env, spec).0 == FRESH.(finalizer := true);
    hide Reconciled;
  }

  // The clock never goes back, and after the first reconcile the timeout does not run out.
  predicate InTime(envs: seq<Env>) {
    && (forall i, j | 0 <= i < j < |envs| :: envs[i].now <= envs[j].now)
    && (|envs| >= 2 ==> envs[|envs| - 1].now <= envs[1].now + TIMEOUT)
  }

  lemma {:induction false} Track(envs: seq<Env>, spec: Spec, from: int)
    requires 1 <= |envs| <= Needed(spec) && forall i | 0 <= i < |envs| :: Favourable(envs[i])
    requires forall i | 1 <= i < |envs| :: from <= envs[i].now <= from + TIMEOUT
    ensures OnTrack(After(FRESH, envs, spec), spec, from, |envs|)
  {
    hide OnTrack, Reconciled, Favourable;
    var front, env := envs[..|envs| - 1], envs[|envs| - 1];
    assert After(FRESH, envs, spec) == Reconciled(After(FRESH, front, spec), env, spec).0;
    if |envs| == 1 {
      FirstReconcile(env, spec, from);
      assert After(FRESH, front, spec) == FRESH;
    } else {
      Track(front, spec, from);
      StaysOnTrack(After(FRESH, front, spec), env, spec, from, |envs| - 1);
    }
  }

  // A fresh machine is provisioned after eight favourable reconciles (Talos), or six (Flatcar),
  // whatever else each of them finds, as long as they come within the provisioning timeout.
  lemma ReachesProvisioned(envs: seq<Env>, spec: Spec)
    requires |envs| == Needed(spec) && InTime(envs)
    requires forall i | 0 <= i < |envs| :: Favourable(envs[i])
    ensures After(FRESH, envs, spec).stage == Provisioned
  {
    hide After, Favourable;
    Track(envs, spec, envs[1].now);
    Stages(spec);
  }
}
