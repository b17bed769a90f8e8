/**
 The recovery daemon over all its services: monitor entries that turn state changes into events,
 the dispatcher's queue, the crash handler, and the relax timers, all working on one journal.

 `World` and `Next` say what each handler does; the class `RecoveryDaemon` does it in place.
 Seen from one service, every run of the daemon is a run of `ServiceMachine`.
 */
module Daemon {
  import opened Common
  import opened Ladder
  import opened Journal
  import opened Reload
  import M = ServiceMachine

  datatype ActiveState = StateUnknown | Active | Reloading | Inactive | Failed | Activating | Deactivating

  datatype Substate = SubstateUnknown | Running | Dead | StopSigterm

  datatype MEntry = MEntry(active: ActiveState, sub: Substate)

  datatype DEvent = ServiceCrashed(service: string) | ServiceRestarted(service: string)

  datatype ExecutorEvent =
    | RestartService | ResetPublic | ResetPrivate | DisableService'
    | RestartContext | RestartPlatform | ResetFactory

  /** An event handed to the executor. */
  datatype Post = Post(event: ExecutorEvent, service: string)

  datatype RelaxTimer = RelaxTimer(id: nat, service: string, level: nat, deadline: nat)

  datatype World = World(
    tables: Tables,
    timers: seq<RelaxTimer>,
    now: nat,
    nextId: nat,
    queue: seq<DEvent>,
    monitor: map<string, MEntry>,
    posts: seq<Post>)        // everything handed to the executor so far

  datatype Step =
    | Observe(service: string, active: Option<ActiveState>, sub: Option<Substate>)
    | Appear(service: string)
    | Dispatch
    | Expire(timer: RelaxTimer)
    | Elapse(seconds: nat)
    | Reboot(units: seq<UnitEntry>, listed: map<string, MEntry>)

  // ---- The handlers ----

  /** The event a state change of a monitored service gives rise to. */
  function EdgeEvent(service: string, entry: MEntry, active: ActiveState): seq<DEvent> {
    if entry.active != Failed && active == Failed then [ServiceCrashed(service)]
    else if entry.active != Active && active == Active then [ServiceRestarted(service)]
    else []
  }

  /** A change is ignored unless both properties are reported and one of them differs. */
  function Observed(w: World, service: string, active: Option<ActiveState>, sub: Option<Substate>): World {
    if active.None? || sub.None? || service !in w.monitor then w
    else
      var entry := w.monitor[service];
      if entry == MEntry(active.value, sub.value) then w
      else w.(monitor := w.monitor[service := MEntry(active.value, sub.value)],
              queue := w.queue + EdgeEvent(service, entry, active.value))
  }

  predicate HasSuffix(s: string, suffix: string) {
    |s| >= |suffix| && s[|s| - |suffix|..] == suffix
  }

  /** A new unit is monitored from then on if it is a service and not monitored yet. */
  function Appeared(w: World, service: string): World {
    if !HasSuffix(service, ".service") || service in w.monitor then w
    else w.(monitor := w.monitor[service := MEntry(Inactive, Dead)])
  }

  function Triggered(w: World, service: string): World {
    var level, timeout := RvectorOf(w.tables.services, service), TimeoutOf(w.tables.services, service);
    if level == 0 || timeout == 0 then w
    else w.(timers := w.timers + [RelaxTimer(w.nextId, service, level, w.now + M.Duration(level, timeout))],
            nextId := w.nextId + 1)
  }

  function WithVector(w: World, service: string, v: nat): World {
    w.(tables := w.tables.(services := WithRvector(w.tables.services, service, v)))
  }

  function Posted(w: World, event: ExecutorEvent, service: string): World {
    w.(posts := w.posts + [Post(event, service)])
  }

  /** A recovery action that is followed by a reset of the vector or by a relax timer. */
  function Recovered(w: World, service: string, event: ExecutorEvent, reset: bool): World {
    var w' := Posted(w, event, service);
    if reset then WithVector(w', service, 0) else Triggered(w', service)
  }

  /** A recovery action beyond the service: only the reset flag touches the vector. */
  function Escalated(w: World, service: string, event: ExecutorEvent, reset: bool): World {
    Posted(if reset then WithVector(w, service, 0) else w, event, service)
  }

  /** What follows once the action of a crash is known. */
  function Answered(w: World, service: string, selected: Option<AEntry>): World {
    match selected
    case None => w
    case Some(e) =>
      match e.kind
      case IgnoreService => WithVector(w, service, 0)
      case ResetService => Recovered(w, service, RestartService, e.reset)
      case ResetPublicData => Recovered(w, service, ResetPublic, e.reset)
      case ResetPrivateData => Recovered(w, service, ResetPrivate, e.reset)
      case DisableService => Recovered(w, service, DisableService', e.reset)
      case ContextRestart => Escalated(w, service, RestartContext, e.reset)
      case PlatformRestart => Escalated(w, service, RestartPlatform, e.reset)
      case FactoryReset => Posted(w, ResetFactory, service)
      case Invalid => w
  }

  function CrashHandled(w: World, service: string): World {
    if HashOf(w.tables.services, service) == 0 then w
    else
      var w' := WithVector(w, service, RvectorOf(w.tables.services, service) + 1);
      Answered(w', service, SelectedEntry(w'.tables, service))
  }

  function Dispatched(w: World): World {
    if w.queue == [] then w
    else
      var w' := w.(queue := w.queue[1..]);
      match w.queue[0]
      case ServiceCrashed(service) => CrashHandled(w', service)
      case ServiceRestarted(_) => w'
  }

  function WithoutTimer(ts: seq<RelaxTimer>, t: RelaxTimer): seq<RelaxTimer> {
    if ts == [] then []
    else (if ts[0] == t then [] else [ts[0]]) + WithoutTimer(ts[1..], t)
  }

  function Expired(w: World, t: RelaxTimer): World {
    var w' := w.(timers := WithoutTimer(w.timers, t));
    if RvectorOf(w.tables.services, t.service) == t.level then WithVector(w', t.service, 0) else w'
  }

  /** A timer for every row that is still above 0. */
  function ArmedAll(w: World, rows: seq<ServiceRow>): World
    decreases |rows|
  {
    if rows == [] then w
    else ArmedAll(if rows[0].rvector > 0 then Triggered(w, rows[0].name) else w, rows[1..])
  }

  /** A new daemon process: queues and timers are gone, the journal is not. */
  function Rebooted(w: World, units: seq<UnitEntry>, listed: map<string, MEntry>): World {
    var w' := w.(tables := StoreAll(w.tables, units), timers := [], queue := [], monitor := listed);
    ArmedAll(w', w'.tables.services)
  }

  predicate Earlier(t: RelaxTimer, t': RelaxTimer) {
    t.deadline < t'.deadline || (t.deadline == t'.deadline && t.id <= t'.id)
  }

  predicate Enabled(w: World, l: Step) {
    l.Expire? ==>
      && l.timer in w.timers && l.timer.deadline <= w.now
      && forall t :: t in w.timers ==> Earlier(l.timer, t)
  }

  function Next(w: World, l: Step): World {
    match l
    case Observe(service, active, sub) => Observed(w, service, active, sub)
    case Appear(service) => Appeared(w, service)
    case Dispatch => Dispatched(w)
    case Expire(t) => Expired(w, t)
    case Elapse(d) => w.(now := w.now + d)
    case Reboot(units, listed) => Rebooted(w, units, listed)
  }

  // ---- The daemon ----

  class RecoveryDaemon {
    const journal: Journal
    var timers: seq<RelaxTimer>
    var now: nat
    var nextId: nat
    var queue: seq<DEvent>
    var monitor: map<string, MEntry>
    var posts: seq<Post>

    function View(): World
      reads this, journal
    {
      World(journal.View(), timers, now, nextId, queue, monitor, posts)
    }

    constructor (journal: Journal)
      ensures this.journal == journal
      ensures View() == World(journal.View(), [], 0, 0, [], map[], [])
    {
      this.journal := journal;
      timers, now, nextId, queue, monitor, posts := [], 0, 0, [], map[], [];
    }

    method OnPropertiesChanged(service: string, activeProperty: Option<ActiveState>, subProperty: Option<Substate>)
      requires service in monitor
      modifies this`monitor, this`queue
      ensures View() == Observed(old(View()), service, activeProperty, subProperty)
    {
      if activeProperty.None? || subProperty.None? { return; }
      var active, sub := activeProperty.value, subProperty.value;
      var entry := monitor[service];
      if entry.active != active || entry.sub != sub {
        var event: Option<DEvent> := None;
        if entry.active != Failed && active == Failed {
          event := Some(ServiceCrashed(service));
        } else {
          if entry.active != Active && active == Active {
            event := Some(ServiceRestarted(service));
          }
        }
        monitor := monitor[service := MEntry(active, sub)];
        match event {
          case Some(e) => queue := queue + [e];
          case None =>
        }
      }
    }

    method OnUnitNew(service: string)
      modifies this`monitor
      ensures View() == Appeared(old(View()), service)
    {
      if !HasSuffix(service, ".service") { return; }
      if service !in monitor {
        monitor := monitor[service := MEntry(Inactive, Dead)];
      }
    }

    method TriggerRelaxTimer(service: string)
      modifies this`timers, this`nextId
      ensures View() == Triggered(old(View()), service)
    {
      var level := journal.GetRvector(service);
      if level <= 0 { return; }
      var timeout := journal.GetRelaxingTimeout(service);
      if timeout <= 0 { return; }
      M.WaitIsProduct(level, timeout);
      var duration := (level * timeout) % M.GUINT_RANGE;
      timers := timers + [RelaxTimer(nextId, service, level, now + duration)];
      nextId := nextId + 1;
    }

    method RelaxTimerCallback(t: RelaxTimer)
      requires t in timers
      modifies this`timers, journal
      ensures View() == Expired(old(View()), t)
    {
      timers := WithoutTimer(timers, t);
      var current := journal.GetRvector(t.service);
      if current == t.level {
        journal.SetRvector(t.service, 0);
      }
    }

    method PushExecutorEvent(event: ExecutorEvent, service: string)
      modifies this`posts
      ensures posts == old(posts) + [Post(event, service)]
    {
      posts := posts + [Post(event, service)];
    }

    /** Service-level actions: run, then reset the vector or start relaxing. */
    method Recover(service: string, event: ExecutorEvent, reset: bool)
      modifies this`posts, this`timers, this`nextId, journal
      ensures View() == Recovered(old(View()), service, event, reset)
    {
      PushExecutorEvent(event, service);
      if reset {
        journal.SetRvector(service, 0);
      } else {
        TriggerRelaxTimer(service);
      }
    }

    method Escalate(service: string, event: ExecutorEvent, reset: bool)
      modifies this`posts, journal
      ensures View() == Escalated(old(View()), service, event, reset)
    {
      if reset {
        journal.SetRvector(service, 0);
      }
      PushExecutorEvent(event, service);
    }

    method ProcessServiceCrash(service: string)
      modifies this`posts, this`timers, this`nextId, journal
      ensures View() == CrashHandled(old(View()), service)
    {
      var hash := journal.GetHash(service);
      if hash == 0 { return; }
      var rvector := journal.GetRvector(service);
      journal.SetRvector(service, rvector + 1);
      ghost var w' := View();
      assert w' == WithVector(old(View()), service, rvector + 1);
      var kind := journal.GetServiceAction(service);
      var reset := journal.GetServiceActionResetAfter(service);
      match kind
      case IgnoreService => journal.SetRvector(service, 0);
      case ResetService => Recover(service, RestartService, reset);
      case ResetPublicData => Recover(service, ResetPublic, reset);
      case ResetPrivateData => Recover(service, ResetPrivate, reset);
      case DisableService => Recover(service, DisableService', reset);
      case ContextRestart => Escalate(service, RestartContext, reset);
      case PlatformRestart => Escalate(service, RestartPlatform, reset);
      case FactoryReset => PushExecutorEvent(ResetFactory, service);
      case Invalid =>
    }

    method DispatchOne()
      modifies this, journal
      ensures View() == Dispatched(old(View()))
    {
      if queue == [] { return; }
      var event := queue[0];
      queue := queue[1..];
      match event
      case ServiceCrashed(service) => ProcessServiceCrash(service);
      case ServiceRestarted(_) =>
    }

    method StartRelaxTimers()
      modifies this`timers, this`nextId
      ensures View() == ArmedAll(old(View()), journal.services)
    {
      for i := 0 to |journal.services|
        invariant ArmedAll(View(), journal.services[i..]) == ArmedAll(old(View()), journal.services)
      {
        assert journal.services[i..][1..] == journal.services[i + 1..];
        if journal.services[i].rvector > 0 {
          TriggerRelaxTimer(journal.services[i].name);
        }
      }
    }

    /** What a new process does before its main loop runs. */
    method Boot(files: seq<UnitFile>, host: string, listed: map<string, MEntry>)
      requires forall i :: 0 <= i < |files| ==> Readable(files[i], host)
      modifies this, journal
      ensures View() == Rebooted(old(View()), Entries(files, host), listed)
    {
      timers, queue := [], [];
      ReloadUnits(journal, files, host);
      monitor := listed;
      StartRelaxTimers();
    }
  }
}
