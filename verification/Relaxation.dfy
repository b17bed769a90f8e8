/**
 Which units relax soundly.  A stale timer is never cancelled: when it fires it only compares the
 vector with the level it captured.  Here: exactly which units make that comparison sound, and
 what is true of timers, ladders and exhaustion in every run.
 */
module Relaxation {
  import opened Common
  import opened Ladder
  import opened ServiceMachine

  // ---- Resetting rungs ----

  predicate Resets(a: Action) {
    Zeroes(Some(a))
  }

  /** The first rung, counting from 1, whose action resets the vector; 0 when there is none. */
  function ResetLevel(ladder: seq<Action>): nat {
    if ladder == [] then 0
    else if Resets(ladder[0]) then 1
    else if ResetLevel(ladder[1..]) == 0 then 0
    else ResetLevel(ladder[1..]) + 1
  }

  lemma {:induction false} ResetLevelIsFirst(ladder: seq<Action>)
    ensures ResetLevel(ladder) == 0 ==> forall k :: !Zeroes(Rung(ladder, k))
    ensures ResetLevel(ladder) > 0 ==>
              && Zeroes(Rung(ladder, ResetLevel(ladder)))
              && ResetLevel(ladder) <= |ladder|
              && forall k :: k < ResetLevel(ladder) ==> !Zeroes(Rung(ladder, k))
  {
    if ladder != [] {
      ResetLevelIsFirst(ladder[1..]);
      assert forall k :: k >= 2 ==> Rung(ladder, k) == Rung(ladder[1..], k - 1);
    }
  }

  /** In unit terms: the reset level is where the first resetting element of the unit starts. */
  lemma {:induction false} ResetLevelOfUnit(es: seq<ActionElement>, i: nat)
    requires i < |es| && Accepted(es[i]) && Resets(Action(es[i].kind, es[i].reset))
    requires forall j :: 0 <= j < i && Accepted(es[j]) ==> !Resets(Action(es[j].kind, es[j].reset))
    ensures ResetLevel(Expand(es)) == TotalRetry(es[..i]) + 1
  {
    if i == 0 {
    } else {
      assert es[..i] == [es[0]] + es[1..i] && es[1..][..i - 1] == es[1..i];
      assert es[1..][i - 1] == es[i] && es[i] in es[1..];
      assert forall j :: 0 <= j < i - 1 ==> es[1..][j] == es[j + 1];
      ResetLevelOfUnit(es[1..], i - 1);
      ExpandLength(es[1..]);
      if Accepted(es[0]) {
        SkipQuiet(Action(es[0].kind, es[0].reset), es[0].retry, Expand(es[1..]));
      }
    }
  }

  lemma {:induction false} SkipQuiet(a: Action, times: nat, rest: seq<Action>)
    requires !Resets(a) && ResetLevel(rest) > 0
    ensures ResetLevel(seq(times, _ => a) + rest) == times + ResetLevel(rest)
  {
    var all := seq(times, _ => a) + rest;
    if times == 0 {
      assert all == rest;
    } else {
      assert all[1..] == seq(times - 1, _ => a) + rest;
      SkipQuiet(a, times - 1, rest);
    }
  }

  /**
   Truncation: from a freshly added service the vector stays below the reset level in every run,
   whatever the retry of the resetting action, so no crash ever selects a rung beyond it.
   */
  lemma {:induction false} VectorStaysBelowResetLevel(u: Unit, ss: seq<State>, ls: seq<Step>, n: nat)
    requires IsRun(u, ss, ls) && Fresh(ss[0]) && n <= |ls|
    requires ResetLevel(u.ladder) > 0
    ensures ss[n].rvector < ResetLevel(u.ladder)
    ensures n < |ls| && ls[n].Crash? ==>
              && ss[n].rvector + 1 <= ResetLevel(u.ladder)
              && (ResetAt(u, ss, ls, n) <==> ss[n].rvector + 1 == ResetLevel(u.ladder))
    decreases n
  {
    ResetLevelIsFirst(u.ladder);
    if n > 0 {
      VectorStaysBelowResetLevel(u, ss, ls, n - 1);
      assert StepAt(u, ss, ls, n - 1);
    }
  }

  // ---- Escalation ----

  /** The actions selected by the crashes among the first n steps. */
  function Selections(u: Unit, ss: seq<State>, ls: seq<Step>, n: nat): seq<Option<Action>>
    requires |ss| == |ls| + 1 && n <= |ls|
  {
    if n == 0 then []
    else Selections(u, ss, ls, n - 1) + (if ls[n - 1].Crash? then [Selected(u, ss[n - 1])] else [])
  }

  /**
   Escalation: in any run without a reset, whatever ticks, stale timers and daemon restarts are
   interleaved, the crashes select consecutive rungs; from vector 0 that is the ladder itself, and
   nothing from then on.
   */
  lemma {:induction false} EscalationFollowsLadder(u: Unit, ss: seq<State>, ls: seq<Step>, n: nat)
    requires IsRun(u, ss, ls) && n <= |ls| && NoReset(u, ss, ls, 0, n)
    ensures Selections(u, ss, ls, n)
         == seq(Crashes(ls[..n]), i requires i >= 0 => Rung(u.ladder, ss[0].rvector + 1 + i))
    decreases n
  {
    if n > 0 {
      EscalationFollowsLadder(u, ss, ls, n - 1);
      CountLaw(u, ss, ls, 0, n - 1);
      assert ls[..n][..n - 1] == ls[..n - 1] == ls[0..n - 1];
    }
  }

  // ---- Exhaustion ----

  ghost predicate TimersWithinLadder(u: Unit, s: State) {
    forall t :: t in s.timers ==> t.level <= |u.ladder|
  }

  /**
   Exhaustion is absorbing within one daemon lifetime: past the last rung no crash selects an
   action and no timer resets the vector.
   */
  lemma {:induction false} ExhaustionAbsorbs(u: Unit, ss: seq<State>, ls: seq<Step>, n: nat)
    requires IsRun(u, ss, ls) && n <= |ls|
    requires forall i :: 0 <= i < n ==> !ls[i].Restart?
    requires TimersWithinLadder(u, ss[0]) && ss[0].rvector > |u.ladder|
    ensures TimersWithinLadder(u, ss[n]) && NoReset(u, ss, ls, 0, n)
    ensures ss[n].rvector == ss[0].rvector + Crashes(ls[..n])
    ensures n < |ls| && ls[n].Crash? ==> Selected(u, ss[n]) == None
    decreases n
  {
    if n > 0 {
      ExhaustionAbsorbs(u, ss, ls, n - 1);
      assert StepAt(u, ss, ls, n - 1);
      if ls[n - 1].Fire? { WithoutIsSubset(ss[n - 1].timers, ls[n - 1].timer); }
      CountLaw(u, ss, ls, 0, n);
      assert ls[..n] == ls[0..n];
    }
  }

  /** No timer is stamped above the ladder unless a daemon restart finds the vector there. */
  lemma {:induction false} TimersStayWithinLadder(u: Unit, ss: seq<State>, ls: seq<Step>, n: nat)
    requires IsRun(u, ss, ls) && n <= |ls| && TimersWithinLadder(u, ss[0])
    requires forall i :: 0 <= i < n && ls[i].Restart? ==> ss[i].rvector <= |u.ladder|
    ensures TimersWithinLadder(u, ss[n])
    decreases n
  {
    if n > 0 {
      TimersStayWithinLadder(u, ss, ls, n - 1);
      assert StepAt(u, ss, ls, n - 1);
      if ls[n - 1].Fire? { WithoutIsSubset(ss[n - 1].timers, ls[n - 1].timer); }
    }
  }

  // ---- Progress ----

  /** The clock does not pass a pending deadline: the main loop is not blocked. */
  ghost predicate Prompt(ss: seq<State>, ls: seq<Step>, n: nat)
    requires |ss| == |ls| + 1 && n <= |ls|
  {
    forall i, t :: 0 <= i < n && ls[i].Tick? && t in ss[i].timers ==> ss[i].now + ls[i].seconds <= t.deadline
  }

  /**
   Progress: while a timer stamped with the current vector is pending and no crash and no daemon
   restart follows, the vector is 0 once the clock has moved past that timer's deadline.
   */
  lemma {:induction false} RelaxesByDeadline(u: Unit, ss: seq<State>, ls: seq<Step>, t: Timer, n: nat)
    requires IsRun(u, ss, ls) && n <= |ls| && Prompt(ss, ls, n)
    requires forall i :: 0 <= i < n ==> !ls[i].Crash? && !ls[i].Restart?
    requires t in ss[0].timers && t.level == ss[0].rvector && ss[0].now <= t.deadline
    ensures ss[n].rvector == 0 || (ss[n].rvector == t.level && t in ss[n].timers && ss[n].now <= t.deadline)
    ensures ss[n].now > t.deadline ==> ss[n].rvector == 0
    decreases n
  {
    if n > 0 {
      RelaxesByDeadline(u, ss, ls, t, n - 1);
      assert StepAt(u, ss, ls, n - 1);
      if ls[n - 1].Fire? { WithoutIsSubset(ss[n - 1].timers, ls[n - 1].timer); }
    }
  }

  // ---- Sound relaxation ----

  /** Timers in the order of arming have rising levels and deadlines; no level is above the vector. */
  ghost predicate Ordered(u: Unit, s: State) {
    && (forall i, j :: 0 <= i < j < |s.timers| ==>
          s.timers[i].level < s.timers[j].level && s.timers[i].deadline <= s.timers[j].deadline)
    && (forall t :: t in s.timers ==> 1 <= t.level <= s.rvector && t.deadline <= s.now + Duration(t.level, u.relaxtime))
  }

  /** A timer armed at this level lasts as long as one armed at any lower level. */
  ghost predicate RisesTo(u: Unit, level: nat) {
    forall k: nat :: 1 <= k < level ==> Duration(k, u.relaxtime) <= Duration(level, u.relaxtime)
  }

  /** No crash of the run arms a timer that is shorter than an older one could be. */
  ghost predicate RisingRun(u: Unit, ss: seq<State>, ls: seq<Step>)
    requires |ss| == |ls| + 1
  {
    forall i :: 0 <= i < |ls| && ls[i].Crash? && Relaxes(Selected(u, ss[i])) ==> RisesTo(u, ss[i].rvector + 1)
  }

  /** As long as vector * relaxtime fits 32 bits, durations rise. */
  lemma FittingWaitsRise(u: Unit, ss: seq<State>, ls: seq<Step>)
    requires IsRun(u, ss, ls) && forall s :: s in ss ==> (s.rvector + 1) * u.relaxtime < GUINT_RANGE
    ensures RisingRun(u, ss, ls)
  {
    forall i | 0 <= i < |ls| ensures RisesTo(u, ss[i].rvector + 1) {
      assert ss[i] in ss;
      ShortWaitsRise(u, ss[i].rvector + 1);
    }
  }

  lemma ShortWaitsRise(u: Unit, level: nat)
    requires level * u.relaxtime < GUINT_RANGE
    ensures RisesTo(u, level)
  {
    WaitIsProduct(level, u.relaxtime);
    forall k: nat | 1 <= k < level ensures Duration(k, u.relaxtime) <= Duration(level, u.relaxtime) {
      WaitGrows(k, level, u.relaxtime);
    }
  }

  lemma {:induction false} WithoutKeepsOrder(ts: seq<Timer>, t: Timer)
    requires forall i, j :: 0 <= i < j < |ts| ==> ts[i].level < ts[j].level && ts[i].deadline <= ts[j].deadline
    ensures forall i, j :: 0 <= i < j < |Without(ts, t)| ==>
              && Without(ts, t)[i].level < Without(ts, t)[j].level
              && Without(ts, t)[i].deadline <= Without(ts, t)[j].deadline
  {
    if ts != [] {
      WithoutKeepsOrder(ts[1..], t);
      WithoutIsSubset(ts[1..], t);
      var rest := Without(ts[1..], t);
      forall j | 0 <= j < |rest| ensures ts[0].level < rest[j].level && ts[0].deadline <= rest[j].deadline {
        assert rest[j] in rest;
        assert rest[j] in ts[1..];
      }
    }
  }

  /** The timer that fires first has the lowest level; if it resets, no timer is left. */
  lemma EarliestIsFirst(u: Unit, s: State, t: Timer)
    requires Timed(s) && Ordered(u, s) && Enabled(s, Fire(t))
    ensures s.timers[0] == t
    ensures forall x :: x in s.timers && x != t ==> x.level > t.level
    ensures t.level == s.rvector ==> Without(s.timers, t) == []
  {
    assert s.timers[0] in s.timers;
    assert Before(t, s.timers[0]);
    WithoutIsSubset(s.timers, t);
    if Without(s.timers, t) != [] {
      var x := Without(s.timers, t)[0];
      assert x in Without(s.timers, t);
      assert t.level < x.level <= s.rvector;
    }
  }

  lemma OrderedTrigger(u: Unit, s: State)
    requires Ordered(u, s) && u.relaxtime > 0 && RisesTo(u, s.rvector + 1)
    ensures Ordered(u, Trigger(u, s.(rvector := s.rvector + 1)))
  {
    hide Wait, Duration;
    var s' := Trigger(u, s.(rvector := s.rvector + 1));
    var t' := Timer(s.nextId, s.rvector + 1, s.now + Duration(s.rvector + 1, u.relaxtime));
    assert s'.timers == s.timers + [t'];
    forall t | t in s.timers ensures t.level < t'.level && t.deadline <= t'.deadline {
    }
    forall t | t in s'.timers
      ensures 1 <= t.level <= s'.rvector && t.deadline <= s'.now + Duration(t.level, u.relaxtime)
    {
      assert t in s.timers || t == t';
    }
  }

  lemma OrderedStep(u: Unit, s: State, l: Step)
    requires Timed(s) && Ordered(u, s) && Enabled(s, l)
    requires l.Crash? ==> !Zeroes(Selected(u, s))
    requires l.Crash? && Relaxes(Selected(u, s)) ==> RisesTo(u, s.rvector + 1)
    ensures Ordered(u, Next(u, s, l))
  {
    hide Wait, Duration, Rung;
    match l
    case Crash =>
      if Relaxes(Selected(u, s)) && u.relaxtime > 0 { OrderedTrigger(u, s); }
    case Fire(t) => OrderedFire(u, s, t);
    case Tick(_) =>
    case Skip(_) =>
    case Restart(_, _) =>
  }

  lemma OrderedFire(u: Unit, s: State, t: Timer)
    requires Timed(s) && Ordered(u, s) && Enabled(s, Fire(t))
    ensures Ordered(u, Next(u, s, Fire(t)))
  {
    WithoutKeepsOrder(s.timers, t);
    WithoutIsSubset(s.timers, t);
    EarliestIsFirst(u, s, t);
  }

  /** The vector is only ever reset by timers in this run. */
  ghost predicate OnlyTimersReset(u: Unit, ss: seq<State>, ls: seq<Step>)
    requires |ss| == |ls| + 1
  {
    forall i :: 0 <= i < |ls| && ls[i].Crash? ==> !Zeroes(Selected(u, ss[i]))
  }

  /** A run whose timers keep their order. */
  ghost predicate OrderlyRun(u: Unit, ss: seq<State>, ls: seq<Step>) {
    && IsRun(u, ss, ls) && Timed(ss[0]) && Ordered(u, ss[0])
    && OnlyTimersReset(u, ss, ls) && RisingRun(u, ss, ls)
  }

  lemma {:induction false} OrderedAlways(u: Unit, ss: seq<State>, ls: seq<Step>, n: nat)
    requires OrderlyRun(u, ss, ls) && n <= |ls|
    ensures Timed(ss[n]) && Ordered(u, ss[n])
    decreases n
  {
    if n > 0 {
      OrderedAlways(u, ss, ls, n - 1);
      assert StepAt(u, ss, ls, n - 1);
      TimedStep(u, ss[n - 1], ls[n - 1]);
      OrderedStep(u, ss[n - 1], ls[n - 1]);
    }
  }

  /** An older timer does not reset the vector while a younger one is pending. */
  lemma NoResetWhilePending(u: Unit, s: State, l: Step, t: Timer)
    requires Timed(s) && Ordered(u, s) && Enabled(s, l) && t in s.timers && l != Fire(t)
    requires l.Crash? ==> !Zeroes(Selected(u, s))
    ensures !ResetStep(u, s, l)
  {
    if l.Fire? { EarliestIsFirst(u, s, l.timer); }
  }

  /** Nothing resets the vector between the arming of a timer and its own expiry. */
  lemma QuietWhilePending(u: Unit, ss: seq<State>, ls: seq<Step>, t: Timer, a: nat, n: nat)
    requires OrderlyRun(u, ss, ls)
    requires a < n < |ls| && t in ss[a + 1].timers && t in ss[n].timers
    ensures NoReset(u, ss, ls, a + 1, n)
  {
    forall i | a + 1 <= i < n ensures !ResetAt(u, ss, ls, i) {
      assert StepAt(u, ss, ls, i);
      PendingInBetween(u, ss, ls, t, a, i, n);
      OrderedAlways(u, ss, ls, i);
      NoResetWhilePending(u, ss[i], ls[i], t);
    }
  }

  /**
   Sound relaxation.  In an orderly run a timer that resets the vector was armed at the current
   level, saw no crash since, waited for its whole duration, and leaves no other timer of the
   service pending.
   */
  lemma SoundRelaxation(u: Unit, ss: seq<State>, ls: seq<Step>, t: Timer, a: nat, n: nat)
    requires OrderlyRun(u, ss, ls) && a < n < |ls|
    requires t !in ss[a].timers && t in ss[a + 1].timers
    requires ls[n] == Fire(t) && ss[n].rvector == t.level
    ensures NoReset(u, ss, ls, a + 1, n) && Crashes(ls[a + 1..n]) == 0
    ensures ss[n].now >= ss[a].now + Duration(t.level, u.relaxtime)
    ensures ss[n + 1].rvector == 0 && ss[n + 1].timers == []
  {
    assert StepAt(u, ss, ls, n);
    QuietWhilePending(u, ss, ls, t, a, n);
    CountLaw(u, ss, ls, a + 1, n);
    assert ss[a + 1].rvector == t.level && t.deadline == ss[a].now + Duration(t.level, u.relaxtime) by {
      assert StepAt(u, ss, ls, a);
      ArmedAtLevel(u, ss[a], ls[a], t);
    }
    assert Without(ss[n].timers, t) == [] by {
      OrderedAlways(u, ss, ls, n);
      EarliestIsFirst(u, ss[n], t);
    }
  }

  // ---- Exactly which units relax soundly ----

  /** Every timer that resets the vector of a freshly added service saw no crash since it was armed. */
  ghost predicate RelaxesSoundly(u: Unit) {
    forall ss: seq<State>, ls: seq<Step>, t: Timer, a: nat, n: nat ::
      Relaxed(u, ss, ls, t, a, n) ==> Crashes(ls[a + 1..n]) == 0
  }

  /** In this run of a fresh service the timer armed at step a resets the vector at step n. */
  ghost predicate Relaxed(u: Unit, ss: seq<State>, ls: seq<Step>, t: Timer, a: nat, n: nat) {
    && IsRun(u, ss, ls) && Fresh(ss[0]) && a < n < |ls|
    && t !in ss[a].timers && t in ss[a + 1].timers
    && ls[n] == Fire(t) && ss[n].rvector == t.level
  }

  /** Every rung that arms a timer arms one that lasts as long as those of the levels below. */
  ghost predicate Rises(u: Unit) {
    forall level: nat :: 1 <= level <= |u.ladder| && Relaxes(Rung(u.ladder, level)) ==> RisesTo(u, level)
  }

  /**
   What a unit author can check: there is no relax time; or the very first rung resets the vector;
   or no rung does, and the durations rise, as they do while they fit 32 bits.
   */
  ghost predicate SafeUnit(u: Unit) {
    u.relaxtime == 0 || ResetLevel(u.ladder) == 1 || (ResetLevel(u.ladder) == 0 && Rises(u))
  }

  /** A unit without resetting actions is safe if the longest wait of its ladder fits 32 bits. */
  lemma PlainUnitsAreSafe(u: Unit)
    requires ResetLevel(u.ladder) == 0 && |u.ladder| * u.relaxtime < GUINT_RANGE
    ensures SafeUnit(u)
  {
    forall level: nat | 1 <= level <= |u.ladder| ensures RisesTo(u, level) {
      assert level * u.relaxtime <= |u.ladder| * u.relaxtime;
      ShortWaitsRise(u, level);
    }
  }

  lemma RisingUnitsRunOrderly(u: Unit, ss: seq<State>, ls: seq<Step>)
    requires ResetLevel(u.ladder) == 0 && Rises(u) && IsRun(u, ss, ls) && Fresh(ss[0])
    ensures OrderlyRun(u, ss, ls)
  {
    ResetLevelIsFirst(u.ladder);
  }

  lemma SafeUnitsRelaxSoundly(u: Unit, ss: seq<State>, ls: seq<Step>, t: Timer, a: nat, n: nat)
    requires SafeUnit(u) && Relaxed(u, ss, ls, t, a, n)
    ensures Crashes(ls[a + 1..n]) == 0
  {
    assert StepAt(u, ss, ls, a);
    ArmedAtLevel(u, ss[a], ls[a], t);
    if ResetLevel(u.ladder) == 1 {
      TimedAlways(u, ss, ls, 0, n);
      VectorStaysBelowResetLevel(u, ss, ls, n);
      assert false;
    } else {
      RisingUnitsRunOrderly(u, ss, ls);
      SoundRelaxation(u, ss, ls, t, a, n);
    }
  }

  // ---- Runs that fool a timer ----

  /** A run of a service that is alone: nobody else takes source ids. */
  ghost predicate Plain(ls: seq<Step>) {
    forall l :: l in ls ==> l.Crash? || l.Fire? || l.Tick? || l == Restart(0, 0)
  }

  ghost predicate Extends(ss: seq<State>, ls: seq<Step>, ss': seq<State>, ls': seq<Step>) {
    |ls| <= |ls'| && |ss| <= |ss'| && ls == ls'[..|ls|] && ss == ss'[..|ss|]
  }

  lemma ExtendsChain(ss: seq<State>, ls: seq<Step>, ss': seq<State>, ls': seq<Step>, ss'': seq<State>, ls'': seq<Step>)
    requires Extends(ss, ls, ss', ls') && Extends(ss', ls', ss'', ls'')
    ensures Extends(ss, ls, ss'', ls'')
  {
    assert ls'[..|ls|] == ls''[..|ls'|][..|ls|] == ls''[..|ls|];
    assert ss'[..|ss|] == ss''[..|ss'|][..|ss|] == ss''[..|ss|];
  }

  lemma JoinRuns(u: Unit, ss: seq<State>, ls: seq<Step>, l: Step) returns (ss': seq<State>, ls': seq<Step>)
    requires IsRun(u, ss, ls) && Enabled(ss[|ls|], l)
    ensures ls' == ls + [l] && Extends(ss, ls, ss', ls')
    ensures IsRun(u, ss', ls') && ss'[|ls'|] == Next(u, ss[|ls|], l)
  {
    ss' := ss + [Next(u, ss[|ls|], l)];
    ls' := ls + [l];
    forall i | 0 <= i < |ls'| ensures StepAt(u, ss', ls', i) {
      assert i < |ls| ==> StepAt(u, ss, ls, i);
    }
  }

  /** A pending timer that, among those of its own level, is the first to fire. */
  ghost predicate Leads(u: Unit, s: State, t: Timer) {
    && Timed(s) && t in s.timers && t.deadline <= s.now + Duration(t.level, u.relaxtime)
    && forall x :: x in s.timers && x.level == t.level && x != t ==> Before(t, x)
  }

  lemma LeadsStep(u: Unit, s: State, l: Step, t: Timer)
    requires Leads(u, s, t) && Enabled(s, l) && l != Fire(t) && !l.Restart?
    ensures Leads(u, Next(u, s, l), t)
  {
    TimedStep(u, s, l);
    if l.Fire? { WithoutIsSubset(s.timers, l.timer); }
  }

  ghost predicate LevelsReached(s: State) {
    forall t :: t in s.timers ==> t.level <= s.rvector
  }

  /** Crashes below the reset level climb the ladder; leading timers go on leading. */
  lemma {:induction false} Climb(u: Unit, ss: seq<State>, ls: seq<Step>, top: nat)
    returns (ss': seq<State>, ls': seq<Step>)
    requires IsRun(u, ss, ls) && ss[|ls|].rvector <= top && (ResetLevel(u.ladder) == 0 || top < ResetLevel(u.ladder))
    ensures IsRun(u, ss', ls') && Extends(ss, ls, ss', ls')
    ensures ss'[|ls'|].rvector == top && ss'[|ls'|].now == ss[|ls|].now
    ensures LevelsReached(ss[|ls|]) ==> LevelsReached(ss'[|ls'|])
    ensures Plain(ls) ==> Plain(ls')
    ensures Timed(ss[|ls|]) ==> Timed(ss'[|ls'|])
    ensures forall t :: Leads(u, ss[|ls|], t) ==> Leads(u, ss'[|ls'|], t)
    decreases top - ss[|ls|].rvector
  {
    ss', ls' := ss, ls;
    if ss[|ls|].rvector < top {
      ResetLevelIsFirst(u.ladder);
      var s := ss[|ls|];
      var ss1, ls1 := JoinRuns(u, ss, ls, Crash);
      if Timed(s) { TimedStep(u, s, Crash); }
      forall t | Leads(u, s, t) ensures Leads(u, ss1[|ls1|], t) {
        LeadsStep(u, s, Crash, t);
      }
      ss', ls' := Climb(u, ss1, ls1, top);
      ExtendsChain(ss, ls, ss1, ls1, ss', ls');
    }
  }

  lemma {:induction false} Earliest(ts: seq<Timer>) returns (x: Timer)
    requires ts != []
    ensures x in ts && forall t :: t in ts ==> Before(x, t)
  {
    if |ts| == 1 {
      x := ts[0];
    } else {
      x := Earliest(ts[1..]);
      if Before(ts[0], x) { x := ts[0]; }
      assert forall t :: t in ts ==> t == ts[0] || t in ts[1..];
    }
  }

  lemma {:induction ts} WithoutShrinks(ts: seq<Timer>, t: Timer)
    ensures |Without(ts, t)| <= |ts| && (t in ts ==> |Without(ts, t)| < |ts|)
  {
  }

  lemma Same(s: State, t: Timer, x: Timer)
    requires Timed(s) && t in s.timers && x in s.timers && Before(t, x) && Before(x, t)
    ensures t == x
  {
  }

  /** Let time pass until the first timer to fire is due, and fire it. */
  lemma FireFirst(u: Unit, ss: seq<State>, ls: seq<Step>, x: Timer) returns (ss': seq<State>, ls': seq<Step>)
    requires IsRun(u, ss, ls) && x in ss[|ls|].timers && forall y :: y in ss[|ls|].timers ==> Before(x, y)
    ensures IsRun(u, ss', ls') && Extends(ss, ls, ss', ls') && |ls'| == |ls| + 2
    ensures ls'[|ls| + 1] == Fire(x) && ss'[|ls| + 1].rvector == ss[|ls|].rvector
    ensures var s, s' := ss[|ls|], ss'[|ls'|];
            && s'.timers == Without(s.timers, x) && s'.now >= s.now
            && s'.rvector == (if x.level == s.rvector then 0 else s.rvector)
    ensures ls'[|ls|].Tick? && (Plain(ls) ==> Plain(ls'))
    ensures forall t :: t != x && Leads(u, ss[|ls|], t) ==> Leads(u, ss'[|ls'|], t)
  {
    var s := ss[|ls|];
    var wait := if s.now < x.deadline then x.deadline - s.now else 0;
    var ss1, ls1 := JoinRuns(u, ss, ls, Tick(wait));
    ss', ls' := JoinRuns(u, ss1, ls1, Fire(x));
    ExtendsChain(ss, ls, ss1, ls1, ss', ls');
    assert ss'[|ls| + 1] == ss1[|ls| + 1];
    forall t | t != x && Leads(u, s, t) ensures Leads(u, ss'[|ls'|], t) {
      LeadsStep(u, s, Tick(wait), t);
      LeadsStep(u, ss1[|ls1|], Fire(x), t);
    }
  }

  /** Without crashes a leading timer of the current level is fired in the end, and those after it stay. */
  lemma {:induction false} FireLeading(u: Unit, ss: seq<State>, ls: seq<Step>, t: Timer)
    returns (ss': seq<State>, ls': seq<Step>)
    requires IsRun(u, ss, ls) && Leads(u, ss[|ls|], t) && ss[|ls|].rvector == t.level
    ensures IsRun(u, ss', ls') && Extends(ss, ls, ss', ls') && |ls| < |ls'|
    ensures ls'[|ls'| - 1] == Fire(t) && ss'[|ls'| - 1].rvector == t.level && ss'[|ls'|].rvector == 0
    ensures forall i :: |ls| <= i < |ls'| ==> !ls'[i].Crash? && !ls'[i].Restart?
    ensures Plain(ls) ==> Plain(ls')
    ensures forall y :: y != t && Before(t, y) && Leads(u, ss[|ls|], y) ==> Leads(u, ss'[|ls'|], y)
    decreases |ss[|ls|].timers|
  {
    var s := ss[|ls|];
    var x := Earliest(s.timers);
    var ss1, ls1 := FireFirst(u, ss, ls, x);
    if x == t {
      ss', ls' := ss1, ls1;
    } else {
      if x.level == t.level { Same(s, t, x); }
      WithoutShrinks(s.timers, x);
      forall y | y != t && Before(t, y) && Leads(u, s, y) ensures Leads(u, ss1[|ls1|], y) {
        if y == x { Same(s, t, x); }
      }
      ss', ls' := FireLeading(u, ss1, ls1, t);
      ExtendsChain(ss, ls, ss1, ls1, ss', ls');
      assert forall i :: |ls| <= i < |ls1| ==> ls'[i] == ls'[..|ls1|][i];
    }
  }

  /** Crashes and a daemon restart leave one timer, at the level reached. */
  lemma ArmedByRestart(u: Unit, level: nat) returns (ss: seq<State>, ls: seq<Step>, t: Timer)
    requires level >= 1 && u.relaxtime > 0 && (ResetLevel(u.ladder) == 0 || level < ResetLevel(u.ladder))
    ensures IsRun(u, ss, ls) && ss[0] == State(0, [], 0, 0) && |ls| >= 1 && t !in ss[|ls| - 1].timers
    ensures Plain(ls) && ls[|ls| - 1].Restart?
    ensures ss[|ls|].timers == [t] && ss[|ls|].rvector == t.level == level
    ensures t.deadline == ss[|ls|].now + Duration(level, u.relaxtime) && Leads(u, ss[|ls|], t)
  {
    var ss1, ls1 := Climb(u, [State(0, [], 0, 0)], [], level);
    var s := ss1[|ls1|];
    ss, ls := JoinRuns(u, ss1, ls1, Restart(0, 0));
    t := Timer(s.nextId, level, s.now + Duration(level, u.relaxtime));
    assert ss[|ls|].timers == [t];
    assert ss[|ls| - 1] == ss1[|ls1|];
    assert ss[0] == ss1[0];
    TimedStep(u, s, Restart(0, 0));
  }

  lemma CrashAt(ls: seq<Step>, i: nat, from: nat, til: nat)
    requires from <= i < til <= |ls| && ls[i] == Crash
    ensures Crashes(ls[from..til]) > 0
  {
    assert ls[i] in ls[from..til];
    NoCrashes(ls[from..til]);
  }

  /** Step a armed t, a crash followed, the vector was reset, and now it is 0 with t still pending. */
  ghost predicate Overtaken(u: Unit, ss: seq<State>, ls: seq<Step>, t: Timer, a: nat, c: nat) {
    && IsRun(u, ss, ls) && ss[0] == State(0, [], 0, 0) && a < c < |ls| && ls[c] == Crash
    && Plain(ls) && ls[a].Restart?
    && t !in ss[a].timers && t in ss[a + 1].timers
    && Leads(u, ss[|ls|], t) && ss[|ls|].rvector == 0
    && (ResetLevel(u.ladder) == 0 || t.level < ResetLevel(u.ladder))
  }

  /** Reset by a resetting rung: climb to it and let it act. */
  lemma OvertakenByRung(u: Unit, low: nat) returns (ss: seq<State>, ls: seq<Step>, t: Timer, a: nat, c: nat)
    requires u.relaxtime > 0 && 1 <= low < ResetLevel(u.ladder)
    ensures Overtaken(u, ss, ls, t, a, c) && t.level == low
  {
    var ss1, ls1, ss2, ls2;
    ss1, ls1, t := ArmedByRestart(u, low);
    a := |ls1| - 1;
    ss2, ls2 := Climb(u, ss1, ls1, ResetLevel(u.ladder) - 1);
    ResetLevelIsFirst(u.ladder);
    LeadsStep(u, ss2[|ls2|], Crash, t);
    ss, ls := JoinRuns(u, ss2, ls2, Crash);
    c := |ls2|;
    ExtendsChain(ss1, ls1, ss2, ls2, ss, ls);
    assert ls[a] == ls[..|ls1|][a];
    assert forall i :: 0 <= i < |ss1| ==> ss[i] == ss[..|ss1|][i];
  }

  /** Reset by a shorter timer of a higher level. */
  lemma OvertakenByTimer(u: Unit, low: nat, high: nat)
    returns (ss: seq<State>, ls: seq<Step>, t: Timer, a: nat, c: nat)
    requires u.relaxtime > 0 && ResetLevel(u.ladder) == 0 && 1 <= low < high
    requires Relaxes(Rung(u.ladder, high)) && Duration(high, u.relaxtime) < Duration(low, u.relaxtime)
    ensures Overtaken(u, ss, ls, t, a, c) && t.level == low
  {
    hide Wait, Duration, Crashes, Rung;
    var ss1, ls1, ss2, ls2, ss3, ls3;
    ss1, ls1, t := ArmedByRestart(u, low);
    a := |ls1| - 1;
    ss2, ls2 := Climb(u, ss1, ls1, high - 1);
    var s := ss2[|ls2|];
    LeadsStep(u, s, Crash, t);
    ss3, ls3 := JoinRuns(u, ss2, ls2, Crash);
    c := |ls2|;
    var t' := Timer(s.nextId, high, s.now + Duration(high, u.relaxtime));
    assert ss3[|ls3|].timers == s.timers + [t'];
    assert Leads(u, ss3[|ls3|], t') && t' != t && Before(t', t);
    ss, ls := FireLeading(u, ss3, ls3, t');
    ExtendsChain(ss1, ls1, ss2, ls2, ss3, ls3);
    ExtendsChain(ss1, ls1, ss3, ls3, ss, ls);
    assert ls[c] == ls[..|ls3|][c] == ls3[c] && ls[a] == ls[..|ls1|][a];
    assert forall i :: 0 <= i < |ss1| ==> ss[i] == ss[..|ss1|][i];
  }

  /** As many crashes again, and the old timer relaxes the service. */
  lemma FooledAfterAll(u: Unit, ss: seq<State>, ls: seq<Step>, t: Timer, a: nat, c: nat)
    returns (ss': seq<State>, ls': seq<Step>, n: nat)
    requires Overtaken(u, ss, ls, t, a, c)
    ensures Relaxed(u, ss', ls', t, a, n) && Crashes(ls'[a + 1..n]) > 0
    ensures ss'[0] == State(0, [], 0, 0) && Plain(ls') && ls'[a].Restart?
  {
    var ss1, ls1 := Climb(u, ss, ls, t.level);
    ss', ls' := FireLeading(u, ss1, ls1, t);
    n := |ls'| - 1;
    ExtendsChain(ss, ls, ss1, ls1, ss', ls');
    assert forall i :: 0 <= i < |ss| ==> ss'[i] == ss'[..|ss|][i];
    assert ls'[c] == ls'[..|ls|][c] && ls'[a] == ls'[..|ls|][a];
    CrashAt(ls', c, a + 1, n);
  }

  /**
   The run that fools a timer, for every unit that is not safe: a restart arms a timer, the vector
   climbs on and is reset by a rung or by a shorter timer, as many crashes as before follow, and
   the old timer relaxes the service although all these crashes came after its arming.
   */
  lemma FooledTimer(u: Unit) returns (ss: seq<State>, ls: seq<Step>, t: Timer, a: nat, n: nat)
    requires !SafeUnit(u)
    ensures Relaxed(u, ss, ls, t, a, n) && Crashes(ls[a + 1..n]) > 0
    ensures ss[0] == State(0, [], 0, 0) && Plain(ls) && ls[a].Restart?
  {
    var ss1, ls1, c;
    if ResetLevel(u.ladder) >= 2 {
      ss1, ls1, t, a, c := OvertakenByRung(u, 1);
    } else {
      var high: nat :| 1 <= high <= |u.ladder| && Relaxes(Rung(u.ladder, high)) && !RisesTo(u, high);
      var low: nat :| 1 <= low < high && Duration(high, u.relaxtime) < Duration(low, u.relaxtime);
      ss1, ls1, t, a, c := OvertakenByTimer(u, low, high);
    }
    ss, ls, n := FooledAfterAll(u, ss1, ls1, t, a, c);
  }

  /** Over all runs, relaxation is sound for exactly the safe units. */
  lemma RelaxesSoundlyIff(u: Unit)
    ensures RelaxesSoundly(u) <==> SafeUnit(u)
  {
    if SafeUnit(u) {
      forall ss: seq<State>, ls: seq<Step>, t: Timer, a: nat, n: nat | Relaxed(u, ss, ls, t, a, n)
        ensures Crashes(ls[a + 1..n]) == 0
      {
        SafeUnitsRelaxSoundly(u, ss, ls, t, a, n);
      }
    } else {
      var ss, ls, t, a, n := FooledTimer(u);
    }
  }
}
