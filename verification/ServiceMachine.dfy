/**
 One service as the recovery daemon sees it: the recovery vector, the pending relax timers and the
 clock.  Steps of the environment that do not concern the service (`Tick`, `Skip`) are included,
 so that an interleaved run of many services is, seen from one service, a run of this machine.
 */
module ServiceMachine {
  import opened Common
  import opened Ladder

  /** A relax timer is armed for (guint)(rvector * relaxtime) seconds. */
  const GUINT_RANGE := 0x1_0000_0000

  datatype Unit = Unit(ladder: seq<Action>, relaxtime: nat)

  /** `id` is the source id handed out by the main loop; `level` the vector captured when armed. */
  datatype Timer = Timer(id: nat, level: nat, deadline: nat)

  /** `timers` is in the order of arming. */
  datatype State = State(rvector: nat, timers: seq<Timer>, now: nat, nextId: nat)

  datatype Step =
    | Crash
    | Fire(timer: Timer)
    | Tick(seconds: nat)
    | Skip(ids: nat)                      // other services take source ids
    | Restart(before: nat, after: nat)    // a new daemon; other services take ids before and after

  datatype Reaction = ResetVector | ArmTimer | Leave

  /** What the crash handler does with the vector once the action is known. */
  function React(a: Option<Action>): (r: Reaction)
    ensures r == ResetVector <==> Zeroes(a)
    ensures r == ArmTimer <==> Relaxes(a)
  {
    match a
    case None => Leave
    case Some(Action(kind, reset)) =>
      match kind
      case IgnoreService => ResetVector
      case ResetService | ResetPublicData | ResetPrivateData | DisableService =>
        if reset then ResetVector else ArmTimer
      case ContextRestart | PlatformRestart => if reset then ResetVector else Leave
      case FactoryReset | Invalid => Leave
  }

  /** level * relaxtime, as a repeated sum so that no product of variables enters the proofs. */
  function Wait(level: nat, relaxtime: nat): nat {
    if level == 0 then 0 else Wait(level - 1, relaxtime) + relaxtime
  }

  lemma {:induction false} WaitIsProduct(level: nat, relaxtime: nat)
    ensures Wait(level, relaxtime) == level * relaxtime
  {
    if level > 0 {
      WaitIsProduct(level - 1, relaxtime);
      assert (level - 1) * relaxtime + relaxtime == level * relaxtime;
    }
  }

  lemma {:induction false} WaitGrows(a: nat, b: nat, relaxtime: nat)
    requires a <= b
    ensures Wait(a, relaxtime) <= Wait(b, relaxtime)
    ensures a < b ==> Wait(a, relaxtime) + relaxtime <= Wait(b, relaxtime)
    decreases b
  {
    if a < b { WaitGrows(a, b - 1, relaxtime); }
  }

  function Duration(level: nat, relaxtime: nat): nat {
    Wait(level, relaxtime) % GUINT_RANGE
  }

  /** The product is computed in a guint: a timer waits in full exactly if it fits, and is early otherwise. */
  lemma FullWaitIff(level: nat, relaxtime: nat)
    ensures Duration(level, relaxtime) == level * relaxtime <==> level * relaxtime < GUINT_RANGE
    ensures level * relaxtime >= GUINT_RANGE ==> Duration(level, relaxtime) < level * relaxtime
  {
    WaitIsProduct(level, relaxtime);
  }

  /** Arm a timer stamped with the current vector, unless there is nothing to relax. */
  function Trigger(u: Unit, s: State): State {
    if s.rvector == 0 || u.relaxtime == 0 then s
    else s.(timers := s.timers + [Timer(s.nextId, s.rvector, s.now + Duration(s.rvector, u.relaxtime))],
            nextId := s.nextId + 1)
  }

  function Without(ts: seq<Timer>, t: Timer): seq<Timer> {
    if ts == [] then []
    else (if ts[0] == t then [] else [ts[0]]) + Without(ts[1..], t)
  }

  /** Timers fire in the order of their deadlines, and of arming when these are equal. */
  predicate Before(t: Timer, t': Timer) {
    t.deadline < t'.deadline || (t.deadline == t'.deadline && t.id <= t'.id)
  }

  predicate Enabled(s: State, l: Step) {
    l.Fire? ==>
      && l.timer in s.timers
      && l.timer.deadline <= s.now
      && forall t :: t in s.timers ==> Before(l.timer, t)
  }

  function Selected(u: Unit, s: State): Option<Action> {
    Rung(u.ladder, s.rvector + 1)
  }

  function Next(u: Unit, s: State, l: Step): State {
    match l
    case Crash =>
      var up := s.(rvector := s.rvector + 1);
      (match React(Selected(u, s))
       case ResetVector => s.(rvector := 0)
       case ArmTimer => Trigger(u, up)
       case Leave => up)
    case Fire(t) =>
      s.(timers := Without(s.timers, t), rvector := if t.level == s.rvector then 0 else s.rvector)
    case Tick(d) => s.(now := s.now + d)
    case Skip(n) => s.(nextId := s.nextId + n)
    case Restart(before, after) =>
      var s' := Trigger(u, s.(timers := [], nextId := s.nextId + before));
      s'.(nextId := s'.nextId + after)
  }

  ghost predicate StepAt(u: Unit, ss: seq<State>, ls: seq<Step>, i: nat)
    requires |ss| == |ls| + 1 && i < |ls|
  {
    Enabled(ss[i], ls[i]) && ss[i + 1] == Next(u, ss[i], ls[i])
  }

  ghost predicate IsRun(u: Unit, ss: seq<State>, ls: seq<Step>) {
    && |ss| == |ls| + 1
    && forall i :: 0 <= i < |ls| ==> StepAt(u, ss, ls, i)
  }

  /** A service whose unit has just been added to the journal. */
  ghost predicate Fresh(s: State) {
    s.rvector == 0 && s.timers == []
  }

  /** The steps that send the vector back to 0. */
  predicate ResetStep(u: Unit, s: State, l: Step) {
    || (l.Crash? && Zeroes(Selected(u, s)))
    || (l.Fire? && l.timer.level == s.rvector)
  }

  ghost predicate ResetAt(u: Unit, ss: seq<State>, ls: seq<Step>, i: nat)
    requires |ss| == |ls| + 1 && i < |ls|
  {
    ResetStep(u, ss[i], ls[i])
  }

  function Crashes(ls: seq<Step>): nat {
    if ls == [] then 0 else Crashes(ls[..|ls| - 1]) + (if ls[|ls| - 1].Crash? then 1 else 0)
  }

  lemma {:induction false} NoCrashes(ls: seq<Step>)
    ensures Crashes(ls) == 0 <==> forall l :: l in ls ==> !l.Crash?
  {
    if ls != [] {
      var front := ls[..|ls| - 1];
      NoCrashes(front);
      assert ls == front + [ls[|ls| - 1]];
    }
  }

  // ---- Facts about Without ----

  lemma {:induction ts} WithoutIsSubset(ts: seq<Timer>, t: Timer)
    ensures forall x :: x in Without(ts, t) <==> x in ts && x != t
  {
  }

  // ---- Invariants of every unit ----

  ghost predicate IdOrder(ts: seq<Timer>) {
    forall i, j :: 0 <= i < j < |ts| ==> ts[i].id < ts[j].id
  }

  /** Timers are listed in the order of their ids, and carry levels a crash has reached. */
  ghost predicate Timed(s: State) {
    && IdOrder(s.timers)
    && (forall t :: t in s.timers ==> t.id < s.nextId && t.level >= 1)
  }

  lemma {:induction false} WithoutKeepsIdOrder(ts: seq<Timer>, t: Timer)
    requires IdOrder(ts)
    ensures IdOrder(Without(ts, t))
  {
    if ts != [] {
      WithoutKeepsIdOrder(ts[1..], t);
      WithoutIsSubset(ts[1..], t);
      var rest := Without(ts[1..], t);
      forall j | 0 <= j < |rest| ensures ts[0].id < rest[j].id {
        assert rest[j] in rest;
        assert rest[j] in ts[1..];
      }
    }
  }

  lemma TimedStep(u: Unit, s: State, l: Step)
    requires Timed(s) && Enabled(s, l)
    ensures Timed(Next(u, s, l))
    ensures Next(u, s, l).nextId >= s.nextId && Next(u, s, l).now >= s.now
    ensures forall t :: t in Next(u, s, l).timers && t.id < s.nextId ==> t in s.timers
    ensures l.Restart? ==> forall t :: t in Next(u, s, l).timers ==> t.id >= s.nextId
  {
    if l.Fire? {
      WithoutIsSubset(s.timers, l.timer);
      WithoutKeepsIdOrder(s.timers, l.timer);
    }
  }

  lemma {:induction false} TimedAlways(u: Unit, ss: seq<State>, ls: seq<Step>, i: nat, j: nat)
    requires IsRun(u, ss, ls) && Timed(ss[0]) && i <= j <= |ls|
    ensures Timed(ss[j])
    ensures ss[i].nextId <= ss[j].nextId && ss[i].now <= ss[j].now
    decreases j
  {
    if j > 0 {
      TimedAlways(u, ss, ls, if i < j then i else j - 1, j - 1);
      assert StepAt(u, ss, ls, j - 1);
      TimedStep(u, ss[j - 1], ls[j - 1]);
    }
  }

  /** A timer is pending from the step that armed it up to the step that fires it. */
  lemma {:induction false} PendingInBetween(u: Unit, ss: seq<State>, ls: seq<Step>, t: Timer, a: nat, i: nat, n: nat)
    requires IsRun(u, ss, ls) && Timed(ss[0])
    requires a < i <= n <= |ls| && t in ss[a + 1].timers && t in ss[n].timers
    ensures t in ss[i].timers
    ensures i < n ==> !ls[i].Restart? && ls[i] != Fire(t)
    decreases n - i
  {
    TimedAlways(u, ss, ls, a + 1, i);
    TimedAlways(u, ss, ls, 0, a + 1);
    if i < n {
      PendingInBetween(u, ss, ls, t, a, i + 1, n);
      assert StepAt(u, ss, ls, i);
      TimedStep(u, ss[i], ls[i]);
      if ls[i].Fire? { WithoutIsSubset(ss[i].timers, ls[i].timer); }
    }
  }

  // ---- Counting: the vector is the number of crashes since the last reset ----

  ghost predicate NoReset(u: Unit, ss: seq<State>, ls: seq<Step>, from: nat, til: nat)
    requires |ss| == |ls| + 1 && til <= |ls|
  {
    forall i :: from <= i < til ==> !ResetAt(u, ss, ls, i)
  }

  lemma ResetStepResets(u: Unit, s: State, l: Step)
    ensures ResetStep(u, s, l) ==> Next(u, s, l).rvector == 0
    ensures !ResetStep(u, s, l) ==> Next(u, s, l).rvector == s.rvector + (if l.Crash? then 1 else 0)
  {
  }

  lemma {:induction false} CountLaw(u: Unit, ss: seq<State>, ls: seq<Step>, i: nat, j: nat)
    requires IsRun(u, ss, ls) && i <= j <= |ls| && NoReset(u, ss, ls, i, j)
    ensures ss[j].rvector == ss[i].rvector + Crashes(ls[i..j])
    decreases j
  {
    if i < j {
      CountLaw(u, ss, ls, i, j - 1);
      assert StepAt(u, ss, ls, j - 1) && !ResetAt(u, ss, ls, j - 1);
      ResetStepResets(u, ss[j - 1], ls[j - 1]);
      assert ls[i..j][..j - 1 - i] == ls[i..j - 1];
    }
  }

  /** The latest reset in [from, til), if there is one. */
  lemma {:induction false} LatestReset(u: Unit, ss: seq<State>, ls: seq<Step>, from: nat, til: nat) returns (r: nat)
    requires |ss| == |ls| + 1 && from <= til <= |ls| && !NoReset(u, ss, ls, from, til)
    ensures from <= r < til && ResetAt(u, ss, ls, r) && NoReset(u, ss, ls, r + 1, til)
    decreases til
  {
    r := til - 1;
    if !ResetAt(u, ss, ls, r) {
      r := LatestReset(u, ss, ls, from, til - 1);
    }
  }

  /** In every run, the vector counts the crashes handled since the latest reset. */
  lemma VectorCountsCrashesSinceReset(u: Unit, ss: seq<State>, ls: seq<Step>, n: nat) returns (from: nat)
    requires IsRun(u, ss, ls) && n <= |ls|
    ensures from <= n && NoReset(u, ss, ls, from, n)
    ensures from > 0 ==> ResetAt(u, ss, ls, from - 1)
    ensures ss[n].rvector == (if from == 0 then ss[0].rvector else 0) + Crashes(ls[from..n])
  {
    if NoReset(u, ss, ls, 0, n) {
      from := 0;
    } else {
      var r := LatestReset(u, ss, ls, 0, n);
      assert StepAt(u, ss, ls, r);
      ResetStepResets(u, ss[r], ls[r]);
      from := r + 1;
    }
    CountLaw(u, ss, ls, from, n);
  }

  /**
   The general reset law.  When a timer armed by step `a` at level t.level resets the vector at
   step `n`, then either nothing happened to the vector in between (r == a), or the vector was
   reset in between, by step r at the latest, and exactly t.level crashes followed: the value
   comparison of the timer cannot tell the two apart.
   */
  lemma GeneralResetLaw(u: Unit, ss: seq<State>, ls: seq<Step>, t: Timer, a: nat, n: nat) returns (r: nat)
    requires IsRun(u, ss, ls) && Timed(ss[0]) && a < n < |ls|
    requires t !in ss[a].timers && t in ss[a + 1].timers
    requires ls[n] == Fire(t) && ss[n].rvector == t.level
    ensures ss[a + 1].rvector == t.level && ss[n + 1].rvector == 0
    ensures a <= r < n && NoReset(u, ss, ls, r + 1, n)
    ensures r == a ==> Crashes(ls[a + 1..n]) == 0
    ensures r > a ==> ResetAt(u, ss, ls, r) && Crashes(ls[r + 1..n]) == t.level
  {
    assert StepAt(u, ss, ls, a) && StepAt(u, ss, ls, n);
    ArmedAtLevel(u, ss[a], ls[a], t);
    if NoReset(u, ss, ls, a + 1, n) {
      r := a;
    } else {
      r := LatestReset(u, ss, ls, a + 1, n);
      assert StepAt(u, ss, ls, r);
      ResetStepResets(u, ss[r], ls[r]);
    }
    CountLaw(u, ss, ls, r + 1, n);
    ResetStepResets(u, ss[n], ls[n]);
  }

  lemma ArmedAtLevel(u: Unit, s: State, l: Step, t: Timer)
    requires Enabled(s, l) && t !in s.timers && t in Next(u, s, l).timers
    ensures (l.Crash? && Relaxes(Selected(u, s))) || l.Restart?
    ensures t.level == Next(u, s, l).rvector
    ensures t.deadline == s.now + Duration(t.level, u.relaxtime) && u.relaxtime > 0
  {
    if l.Fire? { WithoutIsSubset(s.timers, l.timer); }
  }
}
