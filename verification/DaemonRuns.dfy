/** The main results about runs of the daemon over any number of interleaved services. */
module DaemonRuns {
  import opened Common
  import opened Ladder
  import opened Journal
  import opened Units
  import opened Reload
  import opened Daemon
  import opened Projection
  import M = ServiceMachine
  import R = Relaxation

  ghost predicate StepAt(ws: seq<World>, ls: seq<Step>, i: nat)
    requires |ws| == |ls| + 1 && i < |ls|
  {
    Enabled(ws[i], ls[i]) && ws[i + 1] == Next(ws[i], ls[i])
  }

  ghost predicate IsRun(ws: seq<World>, ls: seq<Step>) {
    && |ws| == |ls| + 1
    && forall i :: 0 <= i < |ls| ==> StepAt(ws, ls, i)
  }

  /** A run in which the service keeps its unit. */
  ghost predicate IsRunOf(ws: seq<World>, ls: seq<Step>, service: string, es: seq<ActionElement>, relaxtime: nat) {
    && IsRun(ws, ls)
    && Managed(ws[0], service, es, relaxtime)
    && forall i :: 0 <= i < |ls| ==> KeepsUnit(ws[i], ls[i], service)
  }

  function Projs(ws: seq<World>, service: string): seq<M.State> {
    seq(|ws|, i requires 0 <= i < |ws| => Proj(ws[i], service))
  }

  ghost predicate ViewAt(ws: seq<World>, ls: seq<Step>, service: string, es: seq<ActionElement>, relaxtime: nat,
                         ks: seq<M.Step>, i: nat)
    requires |ws| == |ls| + 1 && |ks| == |ls| && i < |ls|
  {
    && SeenAs(ws[i], ls[i], service, ks[i])
    && Follows(ws[i], ws[i + 1], service, es, relaxtime, ks[i])
  }

  /** The run as one service sees it, label by label. */
  ghost predicate ViewedAs(ws: seq<World>, ls: seq<Step>, service: string, es: seq<ActionElement>, relaxtime: nat,
        ks: seq<M.Step>)
  {
    && |ws| == |ls| + 1 && |ks| == |ls|
    && forall i :: 0 <= i < |ls| ==> ViewAt(ws, ls, service, es, relaxtime, ks, i)
  }

  /** Refinement: a run of the daemon is, for each managed service, a run of its own machine. */
  lemma {:induction false} RunProjects(ws: seq<World>, ls: seq<Step>, service: string, es: seq<ActionElement>,
        relaxtime: nat)
    returns (ks: seq<M.Step>)
    requires IsRunOf(ws, ls, service, es, relaxtime)
    ensures ViewedAs(ws, ls, service, es, relaxtime, ks)
    ensures M.IsRun(UnitOf(es, relaxtime), Projs(ws, service), ks)
  {
    ks := PrefixProjects(ws, ls, service, es, relaxtime, |ls|);
    forall i | 0 <= i < |ls| ensures ViewAt(ws, ls, service, es, relaxtime, ks, i) {
    }
    var u, ss := UnitOf(es, relaxtime), Projs(ws, service);
    forall i | 0 <= i < |ks| ensures M.StepAt(u, ss, ks, i) {
      assert Follows(ws[i], ws[i + 1], service, es, relaxtime, ks[i]);
    }
  }

  lemma {:induction false} PrefixProjects(ws: seq<World>, ls: seq<Step>, service: string, es: seq<ActionElement>,
                                          relaxtime: nat, n: nat) returns (ks: seq<M.Step>)
    requires IsRunOf(ws, ls, service, es, relaxtime) && n <= |ls|
    ensures |ks| == n && Managed(ws[n], service, es, relaxtime)
    ensures forall i :: 0 <= i < n ==>
              SeenAs(ws[i], ls[i], service, ks[i]) && Follows(ws[i], ws[i + 1], service, es, relaxtime, ks[i])
    decreases n
  {
    hide Managed, Follows, SeenAs, Next, Enabled;
    if n == 0 {
      ks := [];
    } else {
      var ks' := PrefixProjects(ws, ls, service, es, relaxtime, n - 1);
      assert StepAt(ws, ls, n - 1) && KeepsUnit(ws[n - 1], ls[n - 1], service);
      var k := StepProjects(ws[n - 1], ls[n - 1], service, es, relaxtime);
      ks := ks' + [k];
    }
  }

  lemma Seen(ws: seq<World>, ls: seq<Step>, service: string, es: seq<ActionElement>, relaxtime: nat,
        ks: seq<M.Step>, i: nat)
    requires ViewedAs(ws, ls, service, es, relaxtime, ks) && i < |ls|
    ensures SeenAs(ws[i], ls[i], service, ks[i])
  {
    assert ViewAt(ws, ls, service, es, relaxtime, ks, i);
  }

  // ---- Relaxation ----

  lemma SameTimer(w: World, t: RelaxTimer)
    ensures t in w.timers <==> Bare(t) in TimersOf(w.timers, t.service)
  {
    TimersOfMember(w.timers, t.service);
  }

  /**
   Sound relaxation of the daemon: in any interleaved run, a relax timer that resets the vector of
   a service with a safe unit was not overtaken by a crash of that service.
   */
  lemma DaemonRelaxesSoundly(ws: seq<World>, ls: seq<Step>, t: RelaxTimer, es: seq<ActionElement>, relaxtime: nat,
        a: nat, n: nat)
    requires IsRunOf(ws, ls, t.service, es, relaxtime) && R.SafeUnit(UnitOf(es, relaxtime))
    requires M.Fresh(Proj(ws[0], t.service))
    requires a < n < |ls| && t !in ws[a].timers && t in ws[a + 1].timers
    requires ls[n] == Expire(t) && RvectorOf(ws[n].tables.services, t.service) == t.level
    ensures forall i :: a < i < n ==> !CrashEventFor(ws[i], ls[i], t.service)
  {
    hide M.IsRun, R.SafeUnit, IsRunOf;
    var ks := RunProjects(ws, ls, t.service, es, relaxtime);
    SameTimer(ws[a], t);
    SameTimer(ws[a + 1], t);
    Seen(ws, ls, t.service, es, relaxtime, ks, n);
    MachineRelaxesSoundly(UnitOf(es, relaxtime), Projs(ws, t.service), ks, Bare(t), a, n);
    forall i | a < i < n ensures !CrashEventFor(ws[i], ls[i], t.service) {
      Seen(ws, ls, t.service, es, relaxtime, ks, i);
    }
  }

  lemma MachineRelaxesSoundly(u: M.Unit, ss: seq<M.State>, ks: seq<M.Step>, t: M.Timer, a: nat, n: nat)
    requires R.SafeUnit(u) && M.IsRun(u, ss, ks) && M.Fresh(ss[0]) && a < n < |ks|
    requires t !in ss[a].timers && t in ss[a + 1].timers
    requires ks[n] == M.Fire(t) && ss[n].rvector == t.level
    ensures forall i :: a < i < n ==> !ks[i].Crash?
  {
    R.SafeUnitsRelaxSoundly(u, ss, ks, t, a, n);
    M.NoCrashes(ks[a + 1..n]);
    forall i | a < i < n ensures !ks[i].Crash? {
      assert ks[i] in ks[a + 1..n];
    }
  }

  // ---- Escalation as the executor sees it ----

  function EventsFor(rungs: seq<Option<Action>>): seq<ExecutorEvent> {
    if rungs == [] then []
    else EventsFor(rungs[..|rungs| - 1]) + EventFor(rungs[|rungs| - 1])
  }

  lemma PostsGrow(ws: seq<World>, ls: seq<Step>, service: string, es: seq<ActionElement>, relaxtime: nat,
        ks: seq<M.Step>, i: nat)
    requires ViewedAs(ws, ls, service, es, relaxtime, ks) && i < |ls|
    ensures PostsOf(ws[i + 1].posts, service)
         == PostsOf(ws[i].posts, service)
            + if ks[i].Crash? then EventFor(M.Selected(UnitOf(es, relaxtime), Projs(ws, service)[i])) else []
  {
    assert ViewAt(ws, ls, service, es, relaxtime, ks, i);
  }

  /** After n steps the executor holds the events of the rungs selected so far, in order. */
  ghost predicate PostedAt(ws: seq<World>, service: string, es: seq<ActionElement>, relaxtime: nat,
        ks: seq<M.Step>, n: nat)
    requires |ws| == |ks| + 1 && n <= |ks|
  {
    PostsOf(ws[n].posts, service)
    == PostsOf(ws[0].posts, service) + EventsFor(R.Selections(UnitOf(es, relaxtime), Projs(ws, service), ks, n))
  }

  lemma {:induction false} PostsFollowSelections(ws: seq<World>, ls: seq<Step>, service: string, es: seq<ActionElement>,
                                                 relaxtime: nat, ks: seq<M.Step>, n: nat)
    requires ViewedAs(ws, ls, service, es, relaxtime, ks) && n <= |ls|
    ensures PostedAt(ws, service, es, relaxtime, ks, n)
    decreases n
  {
    if n > 0 {
      PostsFollowSelections(ws, ls, service, es, relaxtime, ks, n - 1);
      PostsGrow(ws, ls, service, es, relaxtime, ks, n - 1);
      PostedStep(ws, service, es, relaxtime, ks, n);
    }
  }

  lemma PostedStep(ws: seq<World>, service: string, es: seq<ActionElement>, relaxtime: nat, ks: seq<M.Step>, n: nat)
    requires |ws| == |ks| + 1 && 0 < n <= |ks| && PostedAt(ws, service, es, relaxtime, ks, n - 1)
    requires PostsOf(ws[n].posts, service)
          == PostsOf(ws[n - 1].posts, service)
             + if ks[n - 1].Crash? then EventFor(M.Selected(UnitOf(es, relaxtime), Projs(ws, service)[n - 1])) else []
    ensures PostedAt(ws, service, es, relaxtime, ks, n)
  {
    var u, ss := UnitOf(es, relaxtime), Projs(ws, service);
    EventsForExtend(PostsOf(ws[0].posts, service), PostsOf(ws[n - 1].posts, service), PostsOf(ws[n].posts, service),
                    R.Selections(u, ss, ks, n - 1), R.Selections(u, ss, ks, n), ks[n - 1].Crash?, M.Selected(u,
                          ss[n - 1]));
  }

  lemma EventsForExtend(p0: seq<ExecutorEvent>, p1: seq<ExecutorEvent>, p2: seq<ExecutorEvent>,
                        rungs: seq<Option<Action>>, rungs': seq<Option<Action>>, crash: bool, a: Option<Action>)
    requires p1 == p0 + EventsFor(rungs)
    requires p2 == p1 + (if crash then EventFor(a) else [])
    requires rungs' == rungs + (if crash then [a] else [])
    ensures p2 == p0 + EventsFor(rungs')
  {
    hide EventFor;
    if crash {
      assert rungs'[..|rungs'| - 1] == rungs;
      assert rungs'[|rungs'| - 1] == a;
      Associative(p0, EventsFor(rungs), EventFor(a));
    } else {
      assert rungs' == rungs && p2 == p1;
    }
  }

  /**
   Escalation of the daemon: with no reset, and whatever the other services, the clock, stale
   timers and reboots do, the crashes of a service make the executor run its ladder rung by rung.
   */
  lemma DaemonEscalates(ws: seq<World>, ls: seq<Step>, service: string, es: seq<ActionElement>, relaxtime: nat)
    returns (ks: seq<M.Step>)
    requires IsRunOf(ws, ls, service, es, relaxtime)
    ensures ViewedAs(ws, ls, service, es, relaxtime, ks)
    ensures M.NoReset(UnitOf(es, relaxtime), Projs(ws, service), ks, 0, |ks|) ==>
              var base := RvectorOf(ws[0].tables.services, service);
              PostsOf(ws[|ls|].posts, service)
              == PostsOf(ws[0].posts, service)
                 + EventsFor(seq(M.Crashes(ks), i requires i >= 0 => Rung(Expand(es), base + 1 + i)))
  {
    ks := RunProjects(ws, ls, service, es, relaxtime);
    var u, ss := UnitOf(es, relaxtime), Projs(ws, service);
    PostsFollowSelections(ws, ls, service, es, relaxtime, ks, |ls|);
    if M.NoReset(u, ss, ks, 0, |ks|) {
      R.EscalationFollowsLadder(u, ss, ks, |ks|);
      assert ks[..|ks|] == ks;
      var base := RvectorOf(ws[0].tables.services, service);
      assert seq(M.Crashes(ks), i requires i >= 0 => Rung(u.ladder, ss[0].rvector + 1 + i))
          == seq(M.Crashes(ks), i requires i >= 0 => Rung(Expand(es), base + 1 + i));
    }
  }

  // ---- Restarting the daemon ----

  /** The clock never passes a pending deadline. */
  ghost predicate Prompt(ws: seq<World>, ls: seq<Step>) {
    forall i, t :: 0 <= i < |ls| && i < |ws| && ls[i].Elapse? && t in ws[i].timers ==>
      ws[i].now + ls[i].seconds <= t.deadline
  }

  /** After a reboot a service holds one timer, for its current vector, exactly if it has something to relax. */
  lemma RebootArms(w: World, l: Step, service: string, es: seq<ActionElement>, relaxtime: nat)
    requires Managed(w, service, es, relaxtime) && l.Reboot? && KeepsUnit(w, l, service)
    ensures var level, ts := RvectorOf(w.tables.services, service), TimersOf(Next(w, l).timers, service);
            && RvectorOf(Next(w, l).tables.services, service) == level
            && (if level == 0 || relaxtime == 0 then ts == []
                else |ts| == 1 && ts[0].level == level && ts[0].deadline == w.now + M.Duration(level, relaxtime))
  {
    var k := RebootProjects(w, l, service, es, relaxtime);
  }

  /**
   Restart recovery: whatever happened before, after a reboot and without further crashes every
   service with a relax time is back at 0 once its own wait has passed, also an exhausted one.
   */
  lemma RebootRecovers(ws: seq<World>, ls: seq<Step>, service: string, es: seq<ActionElement>, relaxtime: nat)
    requires IsRunOf(ws, ls, service, es, relaxtime) && relaxtime > 0 && Prompt(ws, ls)
    requires |ls| > 0 && ls[0].Reboot?
    requires forall i :: 0 < i < |ls| ==> !ls[i].Reboot? && !CrashEventFor(ws[i], ls[i], service)
    requires ws[|ls|].now > ws[0].now + M.Duration(RvectorOf(ws[0].tables.services, service), relaxtime)
    ensures RvectorOf(ws[|ls|].tables.services, service) == 0
  {
    var ks := RunProjects(ws, ls, service, es, relaxtime);
    var u, ss := UnitOf(es, relaxtime), Projs(ws, service);
    AfterReboot(ws, ls, service, es, relaxtime);
    forall i | 0 <= i < |ks| - 1 ensures !ks[1..][i].Crash? && !ks[1..][i].Restart? {
      Seen(ws, ls, service, es, relaxtime, ks, i + 1);
    }
    PromptSeen(ws, ls, service, es, relaxtime, ks);
    TailRun(u, ss, ks);
    if ss[1].rvector == 0 {
      StaysAtZero(u, ss[1..], ks[1..], |ks| - 1);
    } else {
      R.RelaxesByDeadline(u, ss[1..], ks[1..], ss[1].timers[0], |ks| - 1);
    }
  }

  lemma AfterReboot(ws: seq<World>, ls: seq<Step>, service: string, es: seq<ActionElement>, relaxtime: nat)
    requires IsRunOf(ws, ls, service, es, relaxtime) && |ls| > 0 && ls[0].Reboot?
    ensures var level, s := RvectorOf(ws[0].tables.services, service), Proj(ws[1], service);
            && s.rvector == level && s.now == ws[0].now
            && (level > 0 && relaxtime > 0 ==>
                  |s.timers| == 1 && s.timers[0].level == level
                  && s.timers[0].deadline == ws[0].now + M.Duration(level, relaxtime))
  {
    assert StepAt(ws, ls, 0) && KeepsUnit(ws[0], ls[0], service);
    RebootArms(ws[0], ls[0], service, es, relaxtime);
    var k := RebootProjects(ws[0], ls[0], service, es, relaxtime);
  }

  lemma TailRun(u: M.Unit, ss: seq<M.State>, ks: seq<M.Step>)
    requires M.IsRun(u, ss, ks) && |ks| > 0
    ensures M.IsRun(u, ss[1..], ks[1..])
  {
    forall i | 0 <= i < |ks| - 1 ensures M.StepAt(u, ss[1..], ks[1..], i) {
      assert M.StepAt(u, ss, ks, i + 1);
    }
  }

  lemma PromptSeen(ws: seq<World>, ls: seq<Step>, service: string, es: seq<ActionElement>, relaxtime: nat,
        ks: seq<M.Step>)
    requires ViewedAs(ws, ls, service, es, relaxtime, ks) && Prompt(ws, ls) && |ks| > 0
    ensures R.Prompt(Projs(ws, service)[1..], ks[1..], |ks| - 1)
  {
    var ss, ks' := Projs(ws, service)[1..], ks[1..];
    forall i, m | 0 <= i < |ks'| && ks'[i].Tick? && m in ss[i].timers
      ensures ss[i].now + ks'[i].seconds <= m.deadline
    {
      Seen(ws, ls, service, es, relaxtime, ks, i + 1);
      TimersOfMember(ws[i + 1].timers, service);
    }
  }

  lemma {:induction false} StaysAtZero(u: M.Unit, ss: seq<M.State>, ks: seq<M.Step>, n: nat)
    requires M.IsRun(u, ss, ks) && n <= |ks| && ss[0].rvector == 0
    requires forall i :: 0 <= i < n ==> !ks[i].Crash?
    ensures ss[n].rvector == 0
    decreases n
  {
    if n > 0 {
      StaysAtZero(u, ss, ks, n - 1);
      assert M.StepAt(u, ss, ks, n - 1);
    }
  }

  // ---- From a unit file to a managed service ----

  /** A unit installed by a reload is managed with the ladder of its own action elements. */
  lemma InstalledIsManaged(w: World, hash: Hash, elements: seq<Element>, host: string)
    requires Complete(Parse(NewEntry(hash), elements, host)) && hash != 0
    requires Installed(w.tables, Parse(NewEntry(hash), elements, host))
    ensures var e := Parse(NewEntry(hash), elements, host);
            Managed(w, e.name.value, ActionElements(elements), e.timeout)
  {
    ParseCompiles(hash, elements, host);
  }
}
