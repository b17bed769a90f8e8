/**
 Seen from one service, a run of the daemon over all its services is a run of the single-service
 machine: what is proved there holds for every service of every interleaved run.
 */
module Projection {
  import opened Common
  import opened Ladder
  import opened Journal
  import opened Reload
  import opened Daemon
  import M = ServiceMachine

  /** The service has one row, and its action rows are the compiled intervals of `es`. */
  ghost predicate Managed(w: World, service: string, es: seq<ActionElement>, relaxtime: nat) {
    && |Named(w.tables.services, service)| == 1
    && HashOf(w.tables.services, service) != 0
    && TimeoutOf(w.tables.services, service) == relaxtime
    && Of(w.tables.actions, service) == Compile(1, es)
  }

  function UnitOf(es: seq<ActionElement>, relaxtime: nat): M.Unit {
    M.Unit(Expand(es), relaxtime)
  }

  function TimersOf(ts: seq<RelaxTimer>, service: string): seq<M.Timer> {
    if ts == [] then []
    else (if ts[0].service == service then [Bare(ts[0])] else []) + TimersOf(ts[1..], service)
  }

  function Bare(t: RelaxTimer): M.Timer {
    M.Timer(t.id, t.level, t.deadline)
  }

  function Proj(w: World, service: string): M.State {
    M.State(RvectorOf(w.tables.services, service), TimersOf(w.timers, service), w.now, w.nextId)
  }

  function PostsOf(posts: seq<Post>, service: string): seq<ExecutorEvent> {
    if posts == [] then []
    else PostsOf(posts[..|posts| - 1], service)
         + (if posts[|posts| - 1].service == service then [posts[|posts| - 1].event] else [])
  }

  /** The executor event of a selected action. */
  function EventFor(a: Option<Action>): seq<ExecutorEvent> {
    match a
    case None => []
    case Some(Action(kind, _)) =>
      match kind
      case ResetService => [RestartService]
      case ResetPublicData => [ResetPublic]
      case ResetPrivateData => [ResetPrivate]
      case DisableService => [DisableService']
      case ContextRestart => [RestartContext]
      case PlatformRestart => [RestartPlatform]
      case FactoryReset => [ResetFactory]
      case IgnoreService | Invalid => []
  }

  // ---- Timers of one service ----

  lemma {:induction false} TimersOfAppend(ts: seq<RelaxTimer>, t: RelaxTimer, service: string)
    ensures TimersOf(ts + [t], service) == TimersOf(ts, service) + if t.service == service then [Bare(t)] else []
  {
    var all := ts + [t];
    if ts == [] {
      assert all == [t] && all[1..] == [];
    } else {
      assert all[0] == ts[0] && all[1..] == ts[1..] + [t];
      TimersOfAppend(ts[1..], t, service);
      var head := if ts[0].service == service then [Bare(ts[0])] else [];
      assert TimersOf(all, service) == head + TimersOf(all[1..], service);
    }
  }

  lemma {:induction false} TimersOfMember(ts: seq<RelaxTimer>, service: string)
    ensures forall t :: t in ts && t.service == service ==> Bare(t) in TimersOf(ts, service)
    ensures forall m :: m in TimersOf(ts, service) ==> exists t :: t in ts && t.service == service && Bare(t) == m
  {
    if ts != [] {
      TimersOfMember(ts[1..], service);
      assert forall t :: t in ts <==> t == ts[0] || t in ts[1..];
    }
  }

  lemma {:induction false} TimersOfWithout(ts: seq<RelaxTimer>, t: RelaxTimer, service: string)
    ensures TimersOf(WithoutTimer(ts, t), service)
         == if t.service == service then M.Without(TimersOf(ts, service), Bare(t)) else TimersOf(ts, service)
  {
    if ts != [] {
      TimersOfWithout(ts[1..], t, service);
      var rest := WithoutTimer(ts[1..], t);
      if ts[0] == t {
        assert WithoutTimer(ts, t) == rest;
      } else {
        assert WithoutTimer(ts, t)[1..] == rest;
      }
      if ts[0].service == service {
        assert TimersOf(ts, service)[1..] == TimersOf(ts[1..], service);
      } else {
        assert TimersOf(ts, service) == TimersOf(ts[1..], service);
      }
    }
  }

  // ---- Each handler, seen from one service ----

  lemma WithVectorProj(w: World, name: string, v: nat, service: string, es: seq<ActionElement>, relaxtime: nat)
    requires Managed(w, service, es, relaxtime)
    ensures Managed(WithVector(w, name, v), service, es, relaxtime)
    ensures Proj(WithVector(w, name, v), service)
         == if name == service then Proj(w, service).(rvector := v) else Proj(w, service)
  {
    RvectorAfterUpdate(w.tables.services, name, v, service);
  }

  lemma TriggeredProj(w: World, name: string, service: string, es: seq<ActionElement>, relaxtime: nat)
    requires Managed(w, service, es, relaxtime)
    ensures Managed(Triggered(w, name), service, es, relaxtime)
    ensures Triggered(w, name).nextId >= w.nextId
    ensures Proj(Triggered(w, name), service)
         == if name == service then M.Trigger(UnitOf(es, relaxtime), Proj(w, service))
            else Proj(w, service).(nextId := Triggered(w, name).nextId)
  {
    var level, timeout := RvectorOf(w.tables.services, name), TimeoutOf(w.tables.services, name);
    TimersOfAppend(w.timers, RelaxTimer(w.nextId, name, level, w.now + M.Duration(level, timeout)), service);
  }

  /** The executor events a handler posts for one service. */
  lemma PostedProj(w: World, event: ExecutorEvent, name: string, service: string)
    ensures PostsOf(Posted(w, event, name).posts, service)
         == PostsOf(w.posts, service) + if name == service then [event] else []
  {
    var posts := w.posts + [Post(event, name)];
    assert posts[..|posts| - 1] == w.posts;
  }

  /** What another service's recovery leaves unchanged. */
  ghost predicate Untouched(w: World, w': World, service: string, es: seq<ActionElement>, relaxtime: nat) {
    && Managed(w', service, es, relaxtime) && w'.nextId >= w.nextId
    && Proj(w', service) == Proj(w, service).(nextId := w'.nextId)
    && PostsOf(w'.posts, service) == PostsOf(w.posts, service)
  }

  lemma RecoveredAnother(w: World, name: string, event: ExecutorEvent, reset: bool,
                         service: string, es: seq<ActionElement>, relaxtime: nat)
    requires Managed(w, service, es, relaxtime) && name != service
    ensures Untouched(w, Recovered(w, name, event, reset), service, es, relaxtime)
    ensures Untouched(w, Escalated(w, name, event, reset), service, es, relaxtime)
  {
    var p := Posted(w, event, name);
    PostedProj(w, event, name, service);
    WithVectorProj(w, name, 0, service, es, relaxtime);
    PostedProj(WithVector(w, name, 0), event, name, service);
    WithVectorProj(p, name, 0, service, es, relaxtime);
    TriggeredProj(p, name, service, es, relaxtime);
  }

  lemma AnsweredAnother(w: World, name: string, selected: Option<AEntry>,
                        service: string, es: seq<ActionElement>, relaxtime: nat)
    requires Managed(w, service, es, relaxtime) && name != service
    ensures Untouched(w, Answered(w, name, selected), service, es, relaxtime)
  {
    hide Managed, Recovered, PostsOf;
    match selected {
      case None =>
      case Some(e) =>
        match e.kind
        case IgnoreService => WithVectorProj(w, name, 0, service, es, relaxtime);
        case ResetService => RecoveredAnother(w, name, RestartService, e.reset, service, es, relaxtime);
        case ResetPublicData => RecoveredAnother(w, name, ResetPublic, e.reset, service, es, relaxtime);
        case ResetPrivateData => RecoveredAnother(w, name, ResetPrivate, e.reset, service, es, relaxtime);
        case DisableService => RecoveredAnother(w, name, DisableService', e.reset, service, es, relaxtime);
        case ContextRestart => RecoveredAnother(w, name, RestartContext, e.reset, service, es, relaxtime);
        case PlatformRestart => RecoveredAnother(w, name, RestartPlatform, e.reset, service, es, relaxtime);
        case FactoryReset => RecoveredAnother(w, name, ResetFactory, false, service, es, relaxtime);
        case Invalid =>
    }
  }

  lemma CrashOfAnother(w: World, name: string, service: string, es: seq<ActionElement>, relaxtime: nat)
    requires Managed(w, service, es, relaxtime) && name != service
    ensures Untouched(w, CrashHandled(w, name), service, es, relaxtime)
  {
    var level := RvectorOf(w.tables.services, name) + 1;
    var up := WithVector(w, name, level);
    WithVectorProj(w, name, level, service, es, relaxtime);
    AnsweredAnother(up, name, SelectedEntry(up.tables, name), service, es, relaxtime);
  }

  lemma RecoveredOwn(w: World, event: ExecutorEvent, reset: bool, service: string, es: seq<ActionElement>,
        relaxtime: nat)
    requires Managed(w, service, es, relaxtime)
    ensures var w' := Recovered(w, service, event, reset);
            && Managed(w', service, es, relaxtime)
            && Proj(w', service) == (if reset then Proj(w, service).(rvector := 0)
                                     else M.Trigger(UnitOf(es, relaxtime), Proj(w, service)))
            && PostsOf(w'.posts, service) == PostsOf(w.posts, service) + [event]
    ensures var w' := Escalated(w, service, event, reset);
            && Managed(w', service, es, relaxtime)
            && Proj(w', service) == (if reset then Proj(w, service).(rvector := 0) else Proj(w, service))
            && PostsOf(w'.posts, service) == PostsOf(w.posts, service) + [event]
  {
    var p := Posted(w, event, service);
    PostedProj(w, event, service, service);
    WithVectorProj(w, service, 0, service, es, relaxtime);
    PostedProj(WithVector(w, service, 0), event, service, service);
    WithVectorProj(p, service, 0, service, es, relaxtime);
    TriggeredProj(p, service, service, es, relaxtime);
  }

  /** The state of the single-service machine once the action is known. */
  function Reacted(u: M.Unit, s: M.State, a: Option<Action>): M.State {
    match M.React(a)
    case ResetVector => s.(rvector := 0)
    case ArmTimer => M.Trigger(u, s)
    case Leave => s
  }

  lemma AnsweredOwn(w: World, selected: Option<AEntry>, service: string, es: seq<ActionElement>, relaxtime: nat)
    requires Managed(w, service, es, relaxtime)
    ensures var w' := Answered(w, service, selected);
            && Managed(w', service, es, relaxtime)
            && Proj(w', service) == Reacted(UnitOf(es, relaxtime), Proj(w, service), ActionOf(selected))
            && PostsOf(w'.posts, service) == PostsOf(w.posts, service) + EventFor(ActionOf(selected))
  {
    hide Managed, Recovered, PostsOf, M.Trigger;
    match selected {
      case None =>
      case Some(e) =>
        match e.kind
        case IgnoreService => WithVectorProj(w, service, 0, service, es, relaxtime);
        case ResetService => RecoveredOwn(w, RestartService, e.reset, service, es, relaxtime);
        case ResetPublicData => RecoveredOwn(w, ResetPublic, e.reset, service, es, relaxtime);
        case ResetPrivateData => RecoveredOwn(w, ResetPrivate, e.reset, service, es, relaxtime);
        case DisableService => RecoveredOwn(w, DisableService', e.reset, service, es, relaxtime);
        case ContextRestart => RecoveredOwn(w, RestartContext, e.reset, service, es, relaxtime);
        case PlatformRestart => RecoveredOwn(w, RestartPlatform, e.reset, service, es, relaxtime);
        case FactoryReset => RecoveredOwn(w, ResetFactory, false, service, es, relaxtime);
        case Invalid =>
    }
  }

  /** The scans of the journal find the rung of the current level. */
  lemma SelectedIsRung(w: World, service: string, es: seq<ActionElement>, relaxtime: nat)
    requires Managed(w, service, es, relaxtime)
    ensures ActionOf(SelectedEntry(w.tables, service)) == Rung(Expand(es), RvectorOf(w.tables.services, service))
  {
    SelectionRefinesLadder(es, RvectorOf(w.tables.services, service));
  }

  lemma CrashOfOwn(w: World, service: string, es: seq<ActionElement>, relaxtime: nat)
    requires Managed(w, service, es, relaxtime)
    ensures var w', u := CrashHandled(w, service), UnitOf(es, relaxtime);
            && Managed(w', service, es, relaxtime)
            && Proj(w', service) == M.Next(u, Proj(w, service), M.Crash)
            && PostsOf(w'.posts, service) == PostsOf(w.posts, service) + EventFor(M.Selected(u, Proj(w, service)))
  {
    hide Answered, SelectedEntry, Expand, Rung;
    assert HashOf(w.tables.services, service) != 0;
    var level := RvectorOf(w.tables.services, service) + 1;
    var up := WithVector(w, service, level);
    WithVectorProj(w, service, level, service, es, relaxtime);
    SelectedIsRung(up, service, es, relaxtime);
    AnsweredOwn(up, SelectedEntry(up.tables, service), service, es, relaxtime);
  }

  /**
   A crash by the kind of the rung it selects.  Exactly four kinds start a relax timer: one more, for
   the new vector, when the service has a relax time and the rung does not reset.  The vector is 0
   exactly after an ignored crash and after a resetting rung that is not a factory reset.
   */
  lemma CrashByKind(w: World, service: string, es: seq<ActionElement>, relaxtime: nat)
    requires Managed(w, service, es, relaxtime)
    ensures var w', level := CrashHandled(w, service), RvectorOf(w.tables.services, service) + 1;
            var a := Rung(Expand(es), level);
            && RvectorOf(w'.tables.services, service)
               == (if a.Some? && (a.value.kind == IgnoreService || (a.value.reset && a.value.kind != FactoryReset))
                   then 0 else level)
            && TimersOf(w'.timers, service)
               == TimersOf(w.timers, service)
                  + (if relaxtime > 0 && a.Some? && !a.value.reset
                        && a.value.kind in {ResetService, ResetPublicData, ResetPrivateData, DisableService}
                     then [M.Timer(w.nextId, level, w.now + (level * relaxtime) % M.GUINT_RANGE)] else [])
  {
    hide CrashHandled, Managed, Expand, Rung, TimersOf;
    var level := RvectorOf(w.tables.services, service) + 1;
    CrashOfOwn(w, service, es, relaxtime);
    RungsAreAccepted(es, level);
    M.WaitIsProduct(level, relaxtime);
  }

  /** A failure of a service without a unit, or with version 0, changes nothing. */
  lemma CrashWithoutUnit(w: World, service: string)
    requires HashOf(w.tables.services, service) == 0
    ensures CrashHandled(w, service) == w
  {
  }

  lemma ManagedByTables(w: World, w': World, service: string, es: seq<ActionElement>, relaxtime: nat)
    requires Managed(w, service, es, relaxtime) && w'.tables == w.tables
    ensures Managed(w', service, es, relaxtime)
  {
  }

  lemma ExpiredProj(w: World, t: RelaxTimer, service: string, es: seq<ActionElement>, relaxtime: nat)
    requires Managed(w, service, es, relaxtime) && Enabled(w, Expire(t))
    ensures var w' := Expired(w, t);
            && Managed(w', service, es, relaxtime)
            && (t.service == service ==>
                  && M.Enabled(Proj(w, service), M.Fire(Bare(t)))
                  && Proj(w', service) == M.Next(UnitOf(es, relaxtime), Proj(w, service), M.Fire(Bare(t))))
            && (t.service != service ==> Proj(w', service) == Proj(w, service))
  {
    hide Managed, RvectorOf, M.Without, WithoutTimer;
    var w1 := w.(timers := WithoutTimer(w.timers, t));
    ManagedByTables(w, w1, service, es, relaxtime);
    TimersOfWithout(w.timers, t, service);
    TimersOfMember(w.timers, service);
    WithVectorProj(w1, t.service, 0, service, es, relaxtime);
  }

  /** Starting the relax timers, rows of other services only. */
  lemma {:induction false} ArmedAllOthers(w: World, rows: seq<ServiceRow>, service: string, es: seq<ActionElement>,
        relaxtime: nat)
    requires Managed(w, service, es, relaxtime) && Named(rows, service) == []
    ensures var w' := ArmedAll(w, rows);
            && w'.tables == w.tables && w'.posts == w.posts && w'.queue == w.queue && w'.monitor == w.monitor
            && w'.nextId >= w.nextId && Proj(w', service) == Proj(w, service).(nextId := w'.nextId)
    decreases |rows|
  {
    if rows != [] {
      TriggeredProj(w, rows[0].name, service, es, relaxtime);
      ArmedAllOthers(if rows[0].rvector > 0 then Triggered(w, rows[0].name) else w, rows[1..], service, es, relaxtime);
    }
  }

  /** The timers after starting all of them, from one service's point of view. */
  ghost predicate ArmedFrom(w: World, w': World, service: string, u: M.Unit, before: nat, after: nat) {
    var s := M.Trigger(u, Proj(w, service).(nextId := w.nextId + before));
    && w'.tables == w.tables && w'.posts == w.posts && w'.queue == w.queue && w'.monitor == w.monitor
    && Proj(w', service) == s.(nextId := s.nextId + after)
  }

  /** The row of the service comes first. */
  lemma ArmedOwnRow(w: World, rows: seq<ServiceRow>, service: string, es: seq<ActionElement>, relaxtime: nat)
    returns (after: nat)
    requires Managed(w, service, es, relaxtime) && rows != [] && rows[0].name == service
    requires Named(rows[1..], service) == [] && rows[0].rvector == RvectorOf(w.tables.services, service)
    ensures ArmedFrom(w, ArmedAll(w, rows), service, UnitOf(es, relaxtime), 0, after)
  {
    var w1 := if rows[0].rvector > 0 then Triggered(w, service) else w;
    TriggeredProj(w, service, service, es, relaxtime);
    ArmedAllOthers(w1, rows[1..], service, es, relaxtime);
    after := ArmedAll(w, rows).nextId - w1.nextId;
  }

  /** The row of another service comes first. */
  lemma ArmedOtherRow(w: World, w1: World, w': World, row: ServiceRow, service: string, es: seq<ActionElement>,
                      relaxtime: nat, before: nat, after: nat)
    requires Managed(w, service, es, relaxtime) && row.name != service
    requires w1 == if row.rvector > 0 then Triggered(w, row.name) else w
    requires ArmedFrom(w1, w', service, UnitOf(es, relaxtime), before, after)
    ensures w1.nextId >= w.nextId
    ensures ArmedFrom(w, w', service, UnitOf(es, relaxtime), before + (w1.nextId - w.nextId), after)
  {
    TriggeredProj(w, row.name, service, es, relaxtime);
  }

  /** Starting the relax timers arms at most one timer for the service, at its current level. */
  lemma {:induction false} ArmedAllProj(w: World, rows: seq<ServiceRow>, service: string, es: seq<ActionElement>,
                                        relaxtime: nat) returns (before: nat, after: nat)
    requires Managed(w, service, es, relaxtime)
    requires |Named(rows, service)| == 1 && Named(rows, service)[0].rvector == RvectorOf(w.tables.services, service)
    ensures ArmedFrom(w, ArmedAll(w, rows), service, UnitOf(es, relaxtime), before, after)
    decreases |rows|
  {
    hide ArmedFrom;
    var row := rows[0];
    if row.name == service {
      assert Named(rows, service) == [row] + Named(rows[1..], service);
      before := 0;
      after := ArmedOwnRow(w, rows, service, es, relaxtime);
    } else {
      assert Named(rows, service) == Named(rows[1..], service);
      var w1 := if row.rvector > 0 then Triggered(w, row.name) else w;
      TriggeredProj(w, row.name, service, es, relaxtime);
      before, after := ArmedAllProj(w1, rows[1..], service, es, relaxtime);
      ArmedOtherRow(w, w1, ArmedAll(w1, rows[1..]), row, service, es, relaxtime, before, after);
      before := before + (w1.nextId - w.nextId);
    }
  }

  /** A reboot that does not bring another version of the service's unit. */
  ghost predicate KeepsUnit(w: World, l: Step, service: string) {
    l.Reboot? ==> ContentsOf(StoreAll(w.tables, l.units), service) == ContentsOf(w.tables, service)
  }

  ghost predicate CrashEventFor(w: World, l: Step, service: string) {
    l.Dispatch? && w.queue != [] && w.queue[0] == ServiceCrashed(service)
  }

  /** How one step of the daemon is labelled from the service's point of view. */
  ghost predicate SeenAs(w: World, l: Step, service: string, k: M.Step) {
    && (k.Crash? <==> CrashEventFor(w, l, service))
    && (k.Restart? <==> l.Reboot?)
    && (k.Fire? <==> l.Expire? && l.timer.service == service)
    && (k.Fire? ==> k.timer == Bare(l.timer))
    && (k.Tick? <==> l.Elapse?)
    && (k.Tick? ==> k.seconds == l.seconds)
  }

  /** What projecting a step means: the machine takes step k and the posts follow its selection. */
  ghost predicate Follows(w: World, w': World, service: string, es: seq<ActionElement>, relaxtime: nat, k: M.Step) {
    var u, s := UnitOf(es, relaxtime), Proj(w, service);
    && Managed(w', service, es, relaxtime)
    && M.Enabled(s, k) && Proj(w', service) == M.Next(u, s, k)
    && PostsOf(w'.posts, service) == PostsOf(w.posts, service) + if k.Crash? then EventFor(M.Selected(u, s)) else []
  }

  lemma DispatchProjects(w: World, service: string, es: seq<ActionElement>, relaxtime: nat) returns (k: M.Step)
    requires Managed(w, service, es, relaxtime)
    ensures SeenAs(w, Dispatch, service, k) && Follows(w, Dispatched(w), service, es, relaxtime, k)
  {
    k := M.Skip(0);
    if w.queue != [] && w.queue[0].ServiceCrashed? {
      var w1 := w.(queue := w.queue[1..]);
      assert Managed(w1, service, es, relaxtime) && Proj(w1, service) == Proj(w, service);
      if w.queue[0].service == service {
        k := M.Crash;
        CrashOfOwn(w1, service, es, relaxtime);
      } else {
        CrashOfAnother(w1, w.queue[0].service, service, es, relaxtime);
        k := M.Skip(Dispatched(w).nextId - w.nextId);
      }
    }
  }

  lemma RebootProjects(w: World, l: Step, service: string, es: seq<ActionElement>, relaxtime: nat) returns (k: M.Step)
    requires Managed(w, service, es, relaxtime) && l.Reboot? && KeepsUnit(w, l, service)
    ensures SeenAs(w, l, service, k) && Follows(w, Next(w, l), service, es, relaxtime, k)
  {
    hide Managed, StoreAll, ContentsOf, M.Trigger;
    var w1 := w.(tables := StoreAll(w.tables, l.units), timers := [], queue := [], monitor := l.listed);
    ManagedByContents(w, w1, service, es, relaxtime);
    var before, after := ArmedAllProj(w1, w1.tables.services, service, es, relaxtime);
    ManagedByTables(w1, Next(w, l), service, es, relaxtime);
    k := M.Restart(before, after);
  }

  lemma ManagedByContents(w: World, w1: World, service: string, es: seq<ActionElement>, relaxtime: nat)
    requires Managed(w, service, es, relaxtime) && ContentsOf(w1.tables, service) == ContentsOf(w.tables, service)
    ensures Managed(w1, service, es, relaxtime)
    ensures RvectorOf(w1.tables.services, service) == RvectorOf(w.tables.services, service)
    ensures var rows := Named(w1.tables.services, service);
            |rows| == 1 && rows[0].rvector == RvectorOf(w1.tables.services, service)
  {
  }

  /** Every step of the daemon is exactly one step of each managed service. */
  lemma StepProjects(w: World, l: Step, service: string, es: seq<ActionElement>, relaxtime: nat) returns (k: M.Step)
    requires Managed(w, service, es, relaxtime) && Enabled(w, l) && KeepsUnit(w, l, service)
    ensures SeenAs(w, l, service, k) && Follows(w, Next(w, l), service, es, relaxtime, k)
  {
    match l
    case Observe(_, _, _) => k := M.Skip(0);
    case Appear(_) => k := M.Skip(0);
    case Dispatch => k := DispatchProjects(w, service, es, relaxtime);
    case Expire(t) =>
      ExpiredProj(w, t, service, es, relaxtime);
      k := if t.service == service then M.Fire(Bare(t)) else M.Skip(0);
    case Elapse(d) => k := M.Tick(d);
    case Reboot(_, _) => k := RebootProjects(w, l, service, es, relaxtime);
  }
}
