/**
 The run that fools a timer, played by the daemon: the monitor sees the service fail, the dispatcher
 handles it, the daemon restarts, time passes and timers expire.  With it the condition on units is
 exact for the daemon, and not only for the machine of one service.
 */
module FooledDaemon {
  import opened Common
  import opened Ladder
  import opened Journal
  import opened Reload
  import opened Daemon
  import opened Projection
  import opened DaemonRuns
  import M = ServiceMachine
  import R = Relaxation

  /** A daemon that watches one service, between two events. */
  ghost predicate Lone(w: World, service: string, es: seq<ActionElement>, relaxtime: nat) {
    && Managed(w, service, es, relaxtime) && |w.tables.services| == 1 && w.queue == [] && service in w.monitor
    && forall t :: t in w.timers ==> t.service == service
  }

  function Started(service: string, es: seq<ActionElement>, relaxtime: nat): World {
    World(Tables([ServiceRow(1, service, "", "", 0, false, relaxtime)], RowsFor(service, Compile(1, es)), []),
          [], 0, 0, [], map[service := MEntry(Active, Running)], [])
  }

  lemma StartedIsLone(service: string, es: seq<ActionElement>, relaxtime: nat)
    ensures Lone(Started(service, es, relaxtime), service, es, relaxtime)
    ensures Proj(Started(service, es, relaxtime), service) == M.State(0, [], 0, 0)
  {
    RowsForOf(service, Compile(1, es), service);
    assert Named(Started(service, es, relaxtime).tables.services, service)
        == [ServiceRow(1, service, "", "", 0, false, relaxtime)];
  }

  // ---- Each step of the machine, played ----

  ghost predicate Grown(ws: seq<World>, ds: seq<Step>, ws': seq<World>, ds': seq<Step>) {
    |ds| <= |ds'| && |ws| <= |ws'| && ws == ws'[..|ws|] && ds == ds'[..|ds|]
  }

  lemma GrownChain(ws: seq<World>, ds: seq<Step>, ws': seq<World>, ds': seq<Step>, ws'': seq<World>, ds'': seq<Step>)
    requires Grown(ws, ds, ws', ds') && Grown(ws', ds', ws'', ds'')
    ensures Grown(ws, ds, ws'', ds'')
  {
    assert ds'[..|ds|] == ds''[..|ds'|][..|ds|] == ds''[..|ds|];
    assert ws'[..|ws|] == ws''[..|ws'|][..|ws|] == ws''[..|ws|];
  }

  lemma Play(ws: seq<World>, ds: seq<Step>, l: Step, service: string, es: seq<ActionElement>, relaxtime: nat)
    returns (ws': seq<World>, ds': seq<Step>)
    requires IsRunOf(ws, ds, service, es, relaxtime) && Enabled(ws[|ds|], l) && (l.Reboot? ==> l.units == [])
    ensures IsRunOf(ws', ds', service, es, relaxtime) && ds' == ds + [l] && Grown(ws, ds, ws', ds')
    ensures |ws| == |ds| + 1 && |ws'| == |ds'| + 1 && ws'[|ds'|] == Next(ws[|ds|], l)
  {
    ws', ds' := ws + [Next(ws[|ds|], l)], ds + [l];
    forall i | 0 <= i < |ds'| ensures StepAt(ws', ds', i) && KeepsUnit(ws'[i], ds'[i], service) {
      assert i < |ds| ==> StepAt(ws, ds, i) && KeepsUnit(ws[i], ds[i], service);
    }
  }

  /** The monitor sees the service recover, if it had failed, and nothing else changes. */
  lemma RecoveredAgain(w: World, service: string, es: seq<ActionElement>, relaxtime: nat)
    requires Lone(w, service, es, relaxtime)
    ensures var w' := Dispatched(Observed(w, service, Some(Active), Some(Running)));
            w' == w.(monitor := w.monitor[service := MEntry(Active, Running)])
  {
    assert w.monitor[service] == MEntry(Active, Running) ==>
      w.monitor == w.monitor[service := MEntry(Active, Running)];
  }

  /** What a handler leaves alone besides the vector, the timers of its service and the posts. */
  ghost predicate Beside(w: World, w': World, service: string) {
    && |w'.tables.services| == |w.tables.services| && w'.queue == w.queue && w'.monitor == w.monitor
    && forall t :: t in w'.timers ==> t in w.timers || t.service == service
  }

  lemma RecoveredBeside(w: World, service: string, event: ExecutorEvent, reset: bool)
    ensures Beside(w, Recovered(w, service, event, reset), service)
    ensures Beside(w, Escalated(w, service, event, reset), service)
  {
  }

  lemma AnsweredBeside(w: World, service: string, selected: Option<AEntry>)
    ensures Beside(w, Answered(w, service, selected), service)
  {
    hide Recovered, Escalated;
    match selected {
      case None =>
      case Some(e) =>
        match e.kind
        case IgnoreService =>
        case ResetService => RecoveredBeside(w, service, RestartService, e.reset);
        case ResetPublicData => RecoveredBeside(w, service, ResetPublic, e.reset);
        case ResetPrivateData => RecoveredBeside(w, service, ResetPrivate, e.reset);
        case DisableService => RecoveredBeside(w, service, DisableService', e.reset);
        case ContextRestart => RecoveredBeside(w, service, RestartContext, e.reset);
        case PlatformRestart => RecoveredBeside(w, service, RestartPlatform, e.reset);
        case FactoryReset =>
        case Invalid =>
    }
  }

  lemma CrashKeepsLone(w: World, service: string, es: seq<ActionElement>, relaxtime: nat)
    requires Lone(w, service, es, relaxtime)
    ensures Lone(CrashHandled(w, service), service, es, relaxtime)
  {
    hide Answered, Managed, SelectedEntry;
    CrashOfOwn(w, service, es, relaxtime);
    var up := WithVector(w, service, RvectorOf(w.tables.services, service) + 1);
    AnsweredBeside(up, service, SelectedEntry(up.tables, service));
  }

  /** What a recovery and a failure, each dispatched, make of a daemon between two events. */
  lemma FailureHandled(w: World, service: string, es: seq<ActionElement>, relaxtime: nat)
    requires Lone(w, service, es, relaxtime)
    ensures var w2 := Dispatched(Observed(w, service, Some(Active), Some(Running)));
            var w3 := Observed(w2, service, Some(Failed), Some(Dead));
            && w3.queue == [ServiceCrashed(service)]
            && Lone(Dispatched(w3), service, es, relaxtime)
            && Proj(Dispatched(w3), service) == M.Next(UnitOf(es, relaxtime), Proj(w, service), M.Crash)
  {
    hide CrashHandled, Observed, Dispatched, M.Next;
    RecoveredAgain(w, service, es, relaxtime);
    FailsNext(w, service);
    var w3 := w.(monitor := w.monitor[service := MEntry(Failed, Dead)]);
    assert Lone(w3, service, es, relaxtime) && Proj(w3, service) == Proj(w, service);
    CrashOfOwn(w3, service, es, relaxtime);
    CrashKeepsLone(w3, service, es, relaxtime);
  }

  lemma FailsNext(w: World, service: string)
    requires w.queue == []
    ensures var w2 := w.(monitor := w.monitor[service := MEntry(Active, Running)]);
            var w3 := Observed(w2, service, Some(Failed), Some(Dead));
            && w3 == w.(monitor := w.monitor[service := MEntry(Failed, Dead)], queue := [ServiceCrashed(service)])
            && Dispatched(w3) == CrashHandled(w.(monitor := w.monitor[service := MEntry(Failed, Dead)]), service)
  {
    hide CrashHandled;
    assert w.monitor[service := MEntry(Active, Running)][service := MEntry(Failed, Dead)]
        == w.monitor[service := MEntry(Failed, Dead)];
    assert [ServiceCrashed(service)][1..] == [];
  }

  /** The service fails, and the dispatcher handles its crash. */
  lemma PlayCrash(ws: seq<World>, ds: seq<Step>, service: string, es: seq<ActionElement>, relaxtime: nat)
    returns (ws': seq<World>, ds': seq<Step>)
    requires IsRunOf(ws, ds, service, es, relaxtime) && Lone(ws[|ds|], service, es, relaxtime)
    ensures IsRunOf(ws', ds', service, es, relaxtime) && Grown(ws, ds, ws', ds') && |ds'| == |ds| + 4
    ensures Lone(ws'[|ds'|], service, es, relaxtime)
    ensures Proj(ws'[|ds'|], service) == M.Next(UnitOf(es, relaxtime), Proj(ws[|ds|], service), M.Crash)
    ensures CrashEventFor(ws'[|ds| + 3], ds'[|ds| + 3], service)
  {
    hide Lone, Proj, Managed, Observed, Dispatched, M.Next;
    FailureHandled(ws[|ds|], service, es, relaxtime);
    var ws1, ds1 := Play(ws, ds, Observe(service, Some(Active), Some(Running)), service, es, relaxtime);
    var ws2, ds2 := Play(ws1, ds1, Dispatch, service, es, relaxtime);
    var ws3, ds3 := Play(ws2, ds2, Observe(service, Some(Failed), Some(Dead)), service, es, relaxtime);
    ws', ds' := Play(ws3, ds3, Dispatch, service, es, relaxtime);
    GrownChain(ws, ds, ws1, ds1, ws2, ds2);
    GrownChain(ws, ds, ws2, ds2, ws3, ds3);
    GrownChain(ws, ds, ws3, ds3, ws', ds');
    assert ws'[|ds3|] == ws'[..|ws3|][|ds3|];
  }

  lemma {:induction ts} WithoutTimerIsSubset(ts: seq<RelaxTimer>, t: RelaxTimer)
    ensures forall x :: x in WithoutTimer(ts, t) ==> x in ts
  {
  }

  lemma ExpiryPlays(w: World, t: RelaxTimer, service: string, es: seq<ActionElement>, relaxtime: nat)
    requires Lone(w, service, es, relaxtime) && t.service == service && M.Enabled(Proj(w, service), M.Fire(Bare(t)))
    ensures Enabled(w, Expire(t)) && Lone(Expired(w, t), service, es, relaxtime)
    ensures Proj(Expired(w, t), service) == M.Next(UnitOf(es, relaxtime), Proj(w, service), M.Fire(Bare(t)))
  {
    TimersOfMember(w.timers, service);
    var x :| x in w.timers && x.service == service && Bare(x) == Bare(t);
    assert x == t;
    forall y | y in w.timers ensures Earlier(t, y) {
      assert Bare(y) in TimersOf(w.timers, service);
    }
    ExpiredProj(w, t, service, es, relaxtime);
    WithoutTimerIsSubset(w.timers, t);
  }

  lemma RestartPlays(w: World, service: string, es: seq<ActionElement>, relaxtime: nat)
    requires Lone(w, service, es, relaxtime)
    ensures var w' := Rebooted(w, [], w.monitor);
            && Lone(w', service, es, relaxtime)
            && Proj(w', service) == M.Next(UnitOf(es, relaxtime), Proj(w, service), M.Restart(0, 0))
  {
    var rows, w1 := w.tables.services, w.(timers := [], queue := []);
    var row := rows[0];
    assert Named(rows, service) == (if row.name == service then [row] else []) + Named(rows[1..], service);
    assert rows[1..] == [] && row.name == service && Named(rows, service) == [row];
    assert Managed(w1, service, es, relaxtime);
    TriggeredProj(w1, service, service, es, relaxtime);
    assert ArmedAll(w1, rows) == ArmedAll(if row.rvector > 0 then Triggered(w1, service) else w1, []);
  }

  /** Where and how a step of the machine is played in a run of the daemon. */
  ghost predicate Played(ws: seq<World>, ds: seq<Step>, from: nat, til: nat, k: M.Step, service: string) {
    && |ws| == |ds| + 1 && from < til <= |ds|
    && (k.Fire? ==>
          til == from + 1 && ds[from].Expire? && ds[from].timer.service == service && Bare(ds[from].timer) == k.timer)
    && (k.Restart? ==> til == from + 1)
    && (k.Crash? ==> til == from + 4 && CrashEventFor(ws[from + 3], ds[from + 3], service))
  }

  lemma PlayedGrown(ws: seq<World>, ds: seq<Step>, ws': seq<World>, ds': seq<Step>, from: nat, til: nat, k: M.Step,
                    service: string)
    requires Played(ws, ds, from, til, k, service) && Grown(ws, ds, ws', ds') && |ws'| == |ds'| + 1
    ensures Played(ws', ds', from, til, k, service)
  {
    assert forall i :: 0 <= i < |ds| ==> ds[i] == ds'[..|ds|][i];
    assert forall i :: 0 <= i < |ws| ==> ws[i] == ws'[..|ws|][i];
  }

  lemma PlayStep(ws: seq<World>, ds: seq<Step>, k: M.Step, service: string, es: seq<ActionElement>, relaxtime: nat)
    returns (ws': seq<World>, ds': seq<Step>)
    requires IsRunOf(ws, ds, service, es, relaxtime) && Lone(ws[|ds|], service, es, relaxtime)
    requires M.Enabled(Proj(ws[|ds|], service), k) && R.Plain([k])
    ensures IsRunOf(ws', ds', service, es, relaxtime) && Grown(ws, ds, ws', ds')
    ensures Lone(ws'[|ds'|], service, es, relaxtime) && Played(ws', ds', |ds|, |ds'|, k, service)
    ensures Proj(ws'[|ds'|], service) == M.Next(UnitOf(es, relaxtime), Proj(ws[|ds|], service), k)
  {
    hide CrashEventFor, Rebooted, Expired;
    var w := ws[|ds|];
    assert k in [k];
    match k
    case Crash => ws', ds' := PlayCrash(ws, ds, service, es, relaxtime);
    case Fire(m) =>
      var t := RelaxTimer(m.id, service, m.level, m.deadline);
      ExpiryPlays(w, t, service, es, relaxtime);
      ws', ds' := Play(ws, ds, Expire(t), service, es, relaxtime);
    case Tick(seconds) => ws', ds' := Play(ws, ds, Elapse(seconds), service, es, relaxtime);
    case Restart(_, _) =>
      RestartPlays(w, service, es, relaxtime);
      ws', ds' := Play(ws, ds, Reboot([], w.monitor), service, es, relaxtime);
  }

  // ---- A whole run, played ----

  /** The run ws, ds plays the first n steps of ss, ls; step i is played from at[i] to at[i + 1]. */
  ghost predicate Plays(ws: seq<World>, ds: seq<Step>, at: seq<nat>, ss: seq<M.State>, ls: seq<M.Step>, n: nat,
                        service: string)
  {
    && |ws| == |ds| + 1 && |at| == n + 1 && n <= |ls| && |ss| == |ls| + 1 && at[n] == |ds|
    && (forall i :: 0 <= i <= n ==> at[i] <= |ds| && Proj(ws[at[i]], service) == ss[i])
    && (forall i :: 0 <= i < n ==> Played(ws, ds, at[i], at[i + 1], ls[i], service))
  }

  lemma PlaysOneMore(ws: seq<World>, ds: seq<Step>, at: seq<nat>, ws': seq<World>, ds': seq<Step>,
                     ss: seq<M.State>, ls: seq<M.Step>, n: nat, service: string)
    requires Plays(ws, ds, at, ss, ls, n, service) && n < |ls| && Grown(ws, ds, ws', ds') && |ws'| == |ds'| + 1
    requires Played(ws', ds', |ds|, |ds'|, ls[n], service) && Proj(ws'[|ds'|], service) == ss[n + 1]
    ensures Plays(ws', ds', at + [|ds'|], ss, ls, n + 1, service)
  {
    var at' := at + [|ds'|];
    forall i | 0 <= i <= n + 1 ensures at'[i] <= |ds'| && Proj(ws'[at'[i]], service) == ss[i] {
      assert i <= n ==> ws'[at[i]] == ws'[..|ws|][at[i]];
    }
    forall i | 0 <= i < n + 1 ensures Played(ws', ds', at'[i], at'[i + 1], ls[i], service) {
      if i < n { PlayedGrown(ws, ds, ws', ds', at[i], at[i + 1], ls[i], service); }
    }
  }

  lemma {:induction false} Simulate(ss: seq<M.State>, ls: seq<M.Step>, n: nat,
                                    service: string, es: seq<ActionElement>, relaxtime: nat)
    returns (ws: seq<World>, ds: seq<Step>, at: seq<nat>)
    requires M.IsRun(UnitOf(es, relaxtime), ss, ls) && R.Plain(ls) && ss[0] == M.State(0, [], 0, 0) && n <= |ls|
    ensures IsRunOf(ws, ds, service, es, relaxtime) && Lone(ws[|ds|], service, es, relaxtime)
    ensures M.Fresh(Proj(ws[0], service)) && Plays(ws, ds, at, ss, ls, n, service)
    decreases n
  {
    if n == 0 {
      StartedIsLone(service, es, relaxtime);
      ws, ds, at := [Started(service, es, relaxtime)], [], [0];
    } else {
      var ws1, ds1, at1 := Simulate(ss, ls, n - 1, service, es, relaxtime);
      assert M.StepAt(UnitOf(es, relaxtime), ss, ls, n - 1);
      assert ls[n - 1] in ls;
      ws, ds := PlayStep(ws1, ds1, ls[n - 1], service, es, relaxtime);
      PlaysOneMore(ws1, ds1, at1, ws, ds, ss, ls, n - 1, service);
      at := at1 + [|ds|];
      assert ws[0] == ws[..|ws1|][0];
    }
  }

  lemma {:induction false} Later(ws: seq<World>, ds: seq<Step>, at: seq<nat>, ss: seq<M.State>, ls: seq<M.Step>, n: nat,
                                 service: string, i: nat, j: nat)
    requires Plays(ws, ds, at, ss, ls, n, service) && i <= j <= n
    ensures at[i] <= at[j]
    decreases j
  {
    if i < j {
      Later(ws, ds, at, ss, ls, n, service, i, j - 1);
      assert Played(ws, ds, at[j - 1], at[j], ls[j - 1], service);
    }
  }

  // ---- The daemon ----

  /** In this run of the daemon the timer armed at step a resets the vector of its service at step n. */
  ghost predicate Resets(ws: seq<World>, ds: seq<Step>, t: RelaxTimer, es: seq<ActionElement>, relaxtime: nat,
                         a: nat, n: nat)
  {
    && IsRunOf(ws, ds, t.service, es, relaxtime) && M.Fresh(Proj(ws[0], t.service))
    && a < n < |ds| && t !in ws[a].timers && t in ws[a + 1].timers
    && ds[n] == Expire(t) && RvectorOf(ws[n].tables.services, t.service) == t.level
  }

  ghost predicate NoCrashBetween(ws: seq<World>, ds: seq<Step>, service: string, a: nat, n: nat)
    requires |ws| == |ds| + 1 && n <= |ds|
  {
    forall i :: a < i < n ==> !CrashEventFor(ws[i], ds[i], service)
  }

  /** No timer of a service with this unit is ever fooled, in any run of the daemon. */
  ghost predicate DaemonSound(es: seq<ActionElement>, relaxtime: nat) {
    forall ws, ds, t: RelaxTimer, a: nat, n: nat ::
      Resets(ws, ds, t, es, relaxtime, a, n) ==> NoCrashBetween(ws, ds, t.service, a, n)
  }

  /** A crash of the machine between two steps is a crash event handled between them. */
  lemma CrashPlayed(ws: seq<World>, ds: seq<Step>, at: seq<nat>, ss: seq<M.State>, ls: seq<M.Step>, service: string,
                    a: nat, c: nat, n: nat)
    requires Plays(ws, ds, at, ss, ls, |ls|, service) && a < c < n < |ls| && ls[c].Crash?
    ensures at[n] <= |ds| && !NoCrashBetween(ws, ds, service, at[a], at[n])
  {
    hide CrashEventFor;
    assert Played(ws, ds, at[c], at[c + 1], ls[c], service) && Played(ws, ds, at[a], at[a + 1], ls[a], service);
    Later(ws, ds, at, ss, ls, |ls|, service, a + 1, c);
    Later(ws, ds, at, ss, ls, |ls|, service, c + 1, n);
    assert CrashEventFor(ws[at[c] + 3], ds[at[c] + 3], service) && at[a] < at[c] + 3 < at[n];
  }

  /** The timer of the machine, played. */
  lemma ResetPlayed(ws: seq<World>, ds: seq<Step>, at: seq<nat>, ss: seq<M.State>, ls: seq<M.Step>, service: string,
                    m: M.Timer, a: nat, n: nat)
    returns (t: RelaxTimer)
    requires Plays(ws, ds, at, ss, ls, |ls|, service) && a < n < |ls| && ls[a].Restart? && ls[n] == M.Fire(m)
    requires m !in ss[a].timers && m in ss[a + 1].timers && ss[n].rvector == m.level
    ensures t.service == service && at[a] < at[n] < |ds| && ds[at[n]] == Expire(t)
    ensures t !in ws[at[a]].timers && t in ws[at[a] + 1].timers
    ensures RvectorOf(ws[at[n]].tables.services, service) == t.level
  {
    hide CrashEventFor;
    assert Played(ws, ds, at[n], at[n + 1], ls[n], service) && Played(ws, ds, at[a], at[a + 1], ls[a], service);
    Later(ws, ds, at, ss, ls, |ls|, service, a + 1, n);
    t := ds[at[n]].timer;
    SameTimer(ws[at[a]], t);
    SameTimer(ws[at[a + 1]], t);
    assert Proj(ws[at[a]], service) == ss[a] && Proj(ws[at[a + 1]], service) == ss[a + 1];
    assert Proj(ws[at[n]], service) == ss[n];
  }

  lemma DaemonIsFooled(service: string, es: seq<ActionElement>, relaxtime: nat)
    returns (ws: seq<World>, ds: seq<Step>, t: RelaxTimer, a: nat, n: nat)
    requires !R.SafeUnit(UnitOf(es, relaxtime))
    ensures t.service == service && Resets(ws, ds, t, es, relaxtime, a, n) && !NoCrashBetween(ws, ds, service, a, n)
  {
    hide Lone, Plays, IsRunOf, NoCrashBetween, M.IsRun, R.SafeUnit;
    var ss, ls, m, a0, n0 := R.FooledTimer(UnitOf(es, relaxtime));
    var at;
    ws, ds, at := Simulate(ss, ls, |ls|, service, es, relaxtime);
    PlaysSizes(ws, ds, at, ss, ls, service, es, relaxtime);
    t := ResetPlayed(ws, ds, at, ss, ls, service, m, a0, n0);
    a, n := at[a0], at[n0];
    M.NoCrashes(ls[a0 + 1..n0]);
    var l :| l in ls[a0 + 1..n0] && l.Crash?;
    var c :| a0 < c < n0 && ls[c] == l;
    CrashPlayed(ws, ds, at, ss, ls, service, a0, c, n0);
  }

  lemma PlaysSizes(ws: seq<World>, ds: seq<Step>, at: seq<nat>, ss: seq<M.State>, ls: seq<M.Step>, service: string,
                   es: seq<ActionElement>, relaxtime: nat)
    requires Plays(ws, ds, at, ss, ls, |ls|, service) && IsRunOf(ws, ds, service, es, relaxtime)
    ensures |ws| == |ds| + 1 && |at| == |ls| + 1 && forall i :: 0 <= i < |at| ==> at[i] <= |ds|
  {
  }

  /** The daemon relaxes a service soundly, over all its runs, for exactly the safe units. */
  lemma DaemonSoundIff(es: seq<ActionElement>, relaxtime: nat)
    ensures DaemonSound(es, relaxtime) <==> R.SafeUnit(UnitOf(es, relaxtime))
  {
    if R.SafeUnit(UnitOf(es, relaxtime)) {
      forall ws, ds, t: RelaxTimer, a: nat, n: nat | Resets(ws, ds, t, es, relaxtime, a, n)
        ensures NoCrashBetween(ws, ds, t.service, a, n)
      {
        DaemonRelaxesSoundly(ws, ds, t, es, relaxtime, a, n);
      }
    } else {
      var ws, ds, t, a, n := DaemonIsFooled("service", es, relaxtime);
    }
  }
}
