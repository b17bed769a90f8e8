/**
 Does the vector have a timer of its own, and does a vector that no timer was started for stay?
 After a restart of the daemon a timer can be pending at a level whose rung starts none; when the
 vector comes back to that level, the timer takes it for its own.  Here: what holds of every unit
 as long as no restart has armed such a level, and exactly which units it holds of in all runs.
 */
module Relaxability {
  import opened Ladder
  import opened ServiceMachine
  import opened Relaxation

  /** A timer stamped with the current vector is pending. */
  ghost predicate Relaxable(s: State) {
    exists t :: t in s.timers && t.level == s.rvector
  }

  /** Step c is a crash, and neither a crash nor a daemon restart follows before step n. */
  ghost predicate Calm(ls: seq<Step>, c: nat, n: nat) {
    c < n <= |ls| && ls[c].Crash? && forall i :: c < i < n ==> !ls[i].Crash? && !ls[i].Restart?
  }

  predicate Arms(u: Unit, s: State) {
    u.relaxtime > 0 && Relaxes(Selected(u, s))
  }

  /** No timer is waiting for the level the next crash reaches, unless its rung starts timers. */
  ghost predicate Clear(u: Unit, s: State) {
    forall t :: t in s.timers && t.level == s.rvector + 1 ==> u.relaxtime > 0 && !Leaves(Selected(u, s))
  }

  /** After the crash at step c the vector has a timer exactly if its action starts one. */
  ghost predicate TimerTold(u: Unit, ss: seq<State>, c: nat, n: nat)
    requires c < |ss| && n < |ss|
  {
    ss[n].rvector > 0 ==> ss[n].rvector == ss[c].rvector + 1 && (Relaxable(ss[n]) <==> Arms(u, ss[c]))
  }

  /** A vector left by an action that starts no timer stays. */
  ghost predicate LeftStays(u: Unit, ss: seq<State>, c: nat, n: nat)
    requires c < |ss| && n < |ss|
  {
    Leaves(Selected(u, ss[c])) ==> ss[n].rvector == ss[c].rvector + 1
  }

  // ---- After a crash ----

  lemma CrashTold(u: Unit, s: State)
    requires Clear(u, s)
    ensures var s', level := Next(u, s, Crash), s.rvector + 1;
            && s'.rvector == (if Zeroes(Selected(u, s)) then 0 else level)
            && (s'.rvector > 0 ==> (Relaxable(s') <==> Arms(u, s)))
  {
    var s' := Next(u, s, Crash);
    if Arms(u, s) {
      assert s'.timers[|s'.timers| - 1] in s'.timers;
    } else {
      assert s'.timers == s.timers;
    }
  }

  /** Until the next crash or restart timers only go, and the vector goes exactly with its own timer. */
  lemma CalmStep(u: Unit, s: State, l: Step)
    requires Enabled(s, l) && !l.Crash? && !l.Restart?
    ensures var s' := Next(u, s, l);
            && (s'.rvector == s.rvector || (s'.rvector == 0 && Relaxable(s)))
            && (s'.rvector > 0 ==> (Relaxable(s') <==> Relaxable(s)))
  {
    if l.Fire? { WithoutIsSubset(s.timers, l.timer); }
  }

  lemma {:induction false} AfterClearCrash(u: Unit, ss: seq<State>, ls: seq<Step>, c: nat, n: nat)
    requires IsRun(u, ss, ls) && Calm(ls, c, n) && Clear(u, ss[c])
    ensures TimerTold(u, ss, c, n) && LeftStays(u, ss, c, n)
    decreases n
  {
    assert StepAt(u, ss, ls, n - 1);
    if n == c + 1 {
      CrashTold(u, ss[c]);
    } else {
      AfterClearCrash(u, ss, ls, c, n - 1);
      CalmStep(u, ss[n - 1], ls[n - 1]);
    }
  }

  // ---- One daemon lifetime ----

  /** Every pending timer is at a level whose rung starts timers. */
  ghost predicate CrashArmed(u: Unit, s: State) {
    forall t :: t in s.timers ==> u.relaxtime > 0 && Relaxes(Rung(u.ladder, t.level))
  }

  /** A restart finds the vector at 0 or at a level whose rung starts timers. */
  predicate RestartsArmed(u: Unit, s: State, l: Step) {
    l.Restart? && s.rvector > 0 ==> Relaxes(Rung(u.ladder, s.rvector))
  }

  lemma {:induction false} CrashArmedAlways(u: Unit, ss: seq<State>, ls: seq<Step>, n: nat)
    requires IsRun(u, ss, ls) && CrashArmed(u, ss[0]) && n <= |ls|
    requires forall i :: 0 <= i < n ==> RestartsArmed(u, ss[i], ls[i])
    ensures CrashArmed(u, ss[n])
    decreases n
  {
    if n > 0 {
      CrashArmedAlways(u, ss, ls, n - 1);
      assert StepAt(u, ss, ls, n - 1) && RestartsArmed(u, ss[n - 1], ls[n - 1]);
      if ls[n - 1].Fire? { WithoutIsSubset(ss[n - 1].timers, ls[n - 1].timer); }
    }
  }

  /**
   Relaxability, for every unit and whatever resets the vector: in one daemon lifetime, and over
   restarts at levels that start timers, a vector above 0 has a timer of its own exactly if the
   last action started one, and a vector that was left without a timer stays.
   */
  lemma RelaxableIff(u: Unit, ss: seq<State>, ls: seq<Step>, c: nat, n: nat)
    requires IsRun(u, ss, ls) && CrashArmed(u, ss[0]) && Calm(ls, c, n)
    requires forall i :: 0 <= i < c ==> RestartsArmed(u, ss[i], ls[i])
    ensures TimerTold(u, ss, c, n) && LeftStays(u, ss, c, n)
  {
    CrashArmedAlways(u, ss, ls, c);
    AfterClearCrash(u, ss, ls, c, n);
  }

  // ---- All runs: exactly which units ----

  ghost predicate AlwaysTold(u: Unit) {
    forall ss: seq<State>, ls: seq<Step>, c: nat, n: nat ::
      IsRun(u, ss, ls) && Fresh(ss[0]) && Calm(ls, c, n) ==> TimerTold(u, ss, c, n)
  }

  ghost predicate AlwaysStays(u: Unit) {
    forall ss: seq<State>, ls: seq<Step>, c: nat, n: nat ::
      IsRun(u, ss, ls) && Fresh(ss[0]) && Calm(ls, c, n) ==> LeftStays(u, ss, c, n)
  }

  /** No timer of a higher level can be due before one that a restart arms at this level. */
  ghost predicate Outlasted(u: Unit, level: nat) {
    forall high: nat :: level < high && Relaxes(Rung(u.ladder, high)) ==>
      Duration(level, u.relaxtime) <= Duration(high, u.relaxtime)
  }

  /**
   What a unit author can check: there is no relax time; or every rung below the first resetting
   one starts timers; or no rung resets the vector, and a level that starts no timer would, armed
   by a restart, wait no longer than any higher level that does.
   */
  ghost predicate StaleFree(u: Unit) {
    u.relaxtime == 0
    || forall level: nat :: level >= 1 && Leaves(Rung(u.ladder, level)) ==>
         if ResetLevel(u.ladder) > 0 then level >= ResetLevel(u.ladder) else Outlasted(u, level)
  }

  lemma {:induction false} NoRelaxtimeNoTimer(u: Unit, ss: seq<State>, ls: seq<Step>, n: nat)
    requires IsRun(u, ss, ls) && ss[0].timers == [] && u.relaxtime == 0 && n <= |ls|
    ensures ss[n].timers == []
    decreases n
  {
    if n > 0 {
      NoRelaxtimeNoTimer(u, ss, ls, n - 1);
      assert StepAt(u, ss, ls, n - 1);
    }
  }

  lemma BelowResetLevelArmed(u: Unit, ss: seq<State>, ls: seq<Step>, n: nat)
    requires IsRun(u, ss, ls) && Fresh(ss[0]) && n <= |ls|
    requires u.relaxtime > 0 && ResetLevel(u.ladder) > 0 && StaleFree(u)
    ensures CrashArmed(u, ss[n])
  {
    ResetLevelIsFirst(u.ladder);
    forall i | 0 <= i < n ensures RestartsArmed(u, ss[i], ls[i]) {
      VectorStaysBelowResetLevel(u, ss, ls, i);
    }
    CrashArmedAlways(u, ss, ls, n);
  }

  /** A timer of a level that starts none was armed by the restart, is the first to fire and was not overtaken. */
  ghost predicate First(u: Unit, s: State, t: Timer) {
    && t.level <= s.rvector && t.deadline <= s.now + Duration(t.level, u.relaxtime)
    && forall x :: x in s.timers && x != t ==> x.level > t.level && Before(t, x)
  }

  ghost predicate Warded(u: Unit, s: State) {
    Timed(s) && forall t :: t in s.timers && Leaves(Rung(u.ladder, t.level)) ==> First(u, s, t)
  }

  lemma WardedFire(u: Unit, s: State, x: Timer)
    requires Warded(u, s) && Enabled(s, Fire(x))
    ensures Warded(u, Next(u, s, Fire(x)))
  {
    TimedStep(u, s, Fire(x));
    WithoutIsSubset(s.timers, x);
    forall t | t in Without(s.timers, x) && Leaves(Rung(u.ladder, t.level)) ensures false {
      assert First(u, s, t);
      Same(s, t, x);
    }
  }

  lemma WardedCrash(u: Unit, s: State)
    requires Warded(u, s) && u.relaxtime > 0 && ResetLevel(u.ladder) == 0 && StaleFree(u)
    ensures Warded(u, Next(u, s, Crash))
  {
    TimedStep(u, s, Crash);
    ResetLevelIsFirst(u.ladder);
    var s' := Next(u, s, Crash);
    forall t | t in s'.timers && Leaves(Rung(u.ladder, t.level)) ensures First(u, s', t) {
      assert t in s.timers;
      assert First(u, s, t) && Outlasted(u, t.level);
    }
  }

  lemma WardedElse(u: Unit, s: State, l: Step)
    requires Warded(u, s) && Enabled(s, l) && (l.Tick? || l.Skip? || l.Restart?)
    ensures Warded(u, Next(u, s, l))
  {
    TimedStep(u, s, l);
    forall t | t in Next(u, s, l).timers && Leaves(Rung(u.ladder, t.level))
      ensures First(u, Next(u, s, l), t)
    {
      assert !l.Restart? ==> First(u, s, t);
    }
  }

  lemma {:induction false} WardedAlways(u: Unit, ss: seq<State>, ls: seq<Step>, n: nat)
    requires IsRun(u, ss, ls) && Fresh(ss[0]) && n <= |ls|
    requires u.relaxtime > 0 && ResetLevel(u.ladder) == 0 && StaleFree(u)
    ensures Warded(u, ss[n])
    decreases n
  {
    if n > 0 {
      WardedAlways(u, ss, ls, n - 1);
      assert StepAt(u, ss, ls, n - 1);
      match ls[n - 1] {
        case Crash => WardedCrash(u, ss[n - 1]);
        case Fire(x) => WardedFire(u, ss[n - 1], x);
        case Tick(_) => WardedElse(u, ss[n - 1], ls[n - 1]);
        case Skip(_) => WardedElse(u, ss[n - 1], ls[n - 1]);
        case Restart(_, _) => WardedElse(u, ss[n - 1], ls[n - 1]);
      }
    }
  }

  lemma StaleFreeIsClear(u: Unit, ss: seq<State>, ls: seq<Step>, c: nat)
    requires IsRun(u, ss, ls) && Fresh(ss[0]) && c <= |ls| && StaleFree(u)
    ensures Clear(u, ss[c])
  {
    if u.relaxtime == 0 {
      NoRelaxtimeNoTimer(u, ss, ls, c);
    } else if ResetLevel(u.ladder) > 0 {
      BelowResetLevelArmed(u, ss, ls, c);
    } else {
      WardedAlways(u, ss, ls, c);
    }
  }

  /**
   For every other unit, a run in which a crash reaches a level whose action starts no timer, and a
   timer of that level, armed by an earlier restart, is pending.
   */
  lemma StaleTimer(u: Unit) returns (ss: seq<State>, ls: seq<Step>, t: Timer, c: nat)
    requires !StaleFree(u)
    ensures IsRun(u, ss, ls) && Fresh(ss[0]) && |ls| == c + 1 && ls[c] == Crash
    ensures Leaves(Selected(u, ss[c]))
    ensures Leads(u, ss[c + 1], t) && ss[c + 1].rvector == ss[c].rvector + 1 == t.level
  {
    hide Wait, Duration, Rung, ResetLevel;
    var r := ResetLevel(u.ladder);
    var level: nat :| level >= 1 && Leaves(Rung(u.ladder, level))
                      && if r > 0 then level < r else !Outlasted(u, level);
    var ss1, ls1, ss2, ls2, a, c0;
    if r > 0 {
      ss1, ls1, t, a, c0 := OvertakenByRung(u, level);
    } else {
      var high: nat :| level < high && Relaxes(Rung(u.ladder, high))
                       && Duration(level, u.relaxtime) > Duration(high, u.relaxtime);
      ss1, ls1, t, a, c0 := OvertakenByTimer(u, level, high);
    }
    ss2, ls2 := Climb(u, ss1, ls1, level - 1);
    LeadsStep(u, ss2[|ls2|], Crash, t);
    ss, ls := JoinRuns(u, ss2, ls2, Crash);
    c := |ls2|;
    assert ss[c] == ss[..|ss2|][c] && ss[0] == ss[..|ss2|][0] && ss2[0] == ss2[..|ss1|][0];
  }

  /** Over all runs, the last action tells whether a vector above 0 has a timer for exactly these units. */
  lemma AlwaysToldIff(u: Unit)
    ensures AlwaysTold(u) <==> StaleFree(u)
  {
    if StaleFree(u) {
      forall ss: seq<State>, ls: seq<Step>, c: nat, n: nat | IsRun(u, ss, ls) && Fresh(ss[0]) && Calm(ls, c, n)
        ensures TimerTold(u, ss, c, n)
      {
        StaleFreeIsClear(u, ss, ls, c);
        AfterClearCrash(u, ss, ls, c, n);
      }
    } else {
      var ss, ls, t, c := StaleTimer(u);
      assert Calm(ls, c, c + 1) && Relaxable(ss[c + 1]);
      assert !TimerTold(u, ss, c, c + 1);
    }
  }

  /** And for exactly these units, a vector left without a timer stays until the next crash or restart. */
  lemma AlwaysStaysIff(u: Unit)
    ensures AlwaysStays(u) <==> StaleFree(u)
  {
    if StaleFree(u) {
      forall ss: seq<State>, ls: seq<Step>, c: nat, n: nat | IsRun(u, ss, ls) && Fresh(ss[0]) && Calm(ls, c, n)
        ensures LeftStays(u, ss, c, n)
      {
        StaleFreeIsClear(u, ss, ls, c);
        AfterClearCrash(u, ss, ls, c, n);
      }
    } else {
      var ss1, ls1, t, c := StaleTimer(u);
      var ss, ls := FireLeading(u, ss1, ls1, t);
      assert ls[c] == ls[..|ls1|][c];
      assert ss[0] == ss[..|ss1|][0] && ss[c] == ss[..|ss1|][c];
      assert Calm(ls, c, |ls|) && !LeftStays(u, ss, c, |ls|);
    }
  }

  /** A context restart, once, and then a service reset that resets the vector. */
  function TwoActions(): Unit {
    Unit([Action(ContextRestart, false), Action(ResetService, true)], 1)
  }

  const T1 := Timer(0, 1, 1)

  lemma TwoActionsNext(ts: seq<Timer>, id: nat)
    ensures Leaves(Selected(TwoActions(), State(0, ts, 0, id)))
    ensures Next(TwoActions(), State(0, ts, 0, id), Crash) == State(1, ts, 0, id)
    ensures Next(TwoActions(), State(1, ts, 0, id), Crash) == State(0, ts, 0, id)
  {
  }

  lemma TwoActionsTimer()
    ensures Next(TwoActions(), State(1, [], 0, 0), Restart(0, 0)) == State(1, [T1], 0, 1)
    ensures Next(TwoActions(), State(1, [T1], 0, 1), Tick(1)) == State(1, [T1], 1, 1)
    ensures Enabled(State(1, [T1], 1, 1), Fire(T1))
    ensures Next(TwoActions(), State(1, [T1], 1, 1), Fire(T1)) == State(0, [], 1, 1)
  {
    assert Wait(1, 1) == Wait(0, 1) + 1;
    assert Without([T1], T1) == [];
  }

  /** The timer of a restart relaxes this unit although the last action started none. */
  lemma ContextRestartRelaxed() returns (ss: seq<State>)
    ensures IsRun(TwoActions(), ss, [Crash, Restart(0, 0), Crash, Crash, Tick(1), Fire(T1)])
    ensures Fresh(ss[0]) && Leaves(Selected(TwoActions(), ss[3])) && ss[4].rvector == 1 && ss[6].rvector == 0
  {
    hide Next, TwoActions, Selected, Relaxes, Zeroes;
    TwoActionsNext([], 0);
    TwoActionsNext([T1], 1);
    TwoActionsTimer();
    ss := [State(0, [], 0, 0), State(1, [], 0, 0), State(1, [T1], 0, 1), State(0, [T1], 0, 1), State(1, [T1], 0, 1),
           State(1, [T1], 1, 1), State(0, [], 1, 1)];
  }
}
