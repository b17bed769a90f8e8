/**
 From a state report to the vector.  What a service was last reported to be is read off the steps of
 a run, without the handlers: the monitor remembers exactly that, its events are the edges between
 reports, and the vector counts those edges.
 */
module Failures {
  import opened Common
  import opened Ladder
  import opened Journal
  import opened Reload
  import opened Daemon
  import opened Projection
  import opened DaemonRuns
  import M = ServiceMachine

  // ---- What was reported ----

  /**
   The last complete state of a monitored service after one more step: a report of both properties, a
   new unit, which counts as inactive and dead, or what a new process lists.
   */
  ghost function Reported(before: Option<MEntry>, l: Step, service: string): Option<MEntry> {
    match l
    case Observe(name, Some(active), Some(sub)) =>
      if name == service && before.Some? then Some(MEntry(active, sub)) else before
    case Appear(name) =>
      if name == service && before.None? && exists stem :: service == stem + ".service"
      then Some(MEntry(Inactive, Dead)) else before
    case Reboot(_, listed) => EntryIn(listed, service)
    case _ => before
  }

  function EntryIn(monitor: map<string, MEntry>, service: string): Option<MEntry> {
    if service in monitor then Some(monitor[service]) else None
  }

  /** After n steps of a run that starts with the entries `first`; None while the service is not monitored. */
  ghost function LastReport(first: map<string, MEntry>, ls: seq<Step>, service: string, n: nat): Option<MEntry>
    requires n <= |ls|
  {
    if n == 0 then EntryIn(first, service) else Reported(LastReport(first, ls, service, n - 1), ls[n - 1], service)
  }

  lemma SuffixIs(s: string, suffix: string)
    ensures HasSuffix(s, suffix) <==> exists stem :: s == stem + suffix
  {
    if HasSuffix(s, suffix) {
      assert s == s[..|s| - |suffix|] + suffix;
    }
  }

  lemma {:induction false} ArmingKeepsMonitor(w: World, rows: seq<ServiceRow>)
    ensures ArmedAll(w, rows).queue == w.queue && ArmedAll(w, rows).monitor == w.monitor
    decreases |rows|
  {
    if rows != [] { ArmingKeepsMonitor(if rows[0].rvector > 0 then Triggered(w, rows[0].name) else w, rows[1..]); }
  }

  lemma RebootMonitors(w: World, l: Step)
    requires l.Reboot?
    ensures Next(w, l).monitor == l.listed && Next(w, l).queue == []
  {
    var w' := w.(tables := StoreAll(w.tables, l.units), timers := [], queue := [], monitor := l.listed);
    ArmingKeepsMonitor(w', w'.tables.services);
  }

  lemma AnsweredKeepsMonitor(w: World, service: string, selected: Option<AEntry>)
    ensures Answered(w, service, selected).monitor == w.monitor && Answered(w, service, selected).queue == w.queue
  {
    hide RvectorOf, TimeoutOf, M.Duration, WithRvector;
  }

  lemma DispatchKeepsMonitor(w: World)
    ensures Dispatched(w).monitor == w.monitor
    ensures Dispatched(w).queue == if w.queue == [] then [] else w.queue[1..]
  {
    hide Answered, SelectedEntry;
    if w.queue != [] && w.queue[0].ServiceCrashed? {
      var service := w.queue[0].service;
      var up := WithVector(w.(queue := w.queue[1..]), service, RvectorOf(w.tables.services, service) + 1);
      AnsweredKeepsMonitor(up, service, SelectedEntry(up.tables, service));
    }
  }

  lemma MonitorStep(w: World, l: Step, service: string)
    ensures EntryIn(Next(w, l).monitor, service) == Reported(EntryIn(w.monitor, service), l, service)
  {
    match l
    case Observe(_, _, _) =>
    case Appear(_) => SuffixIs(service, ".service");
    case Dispatch => DispatchKeepsMonitor(w);
    case Expire(_) =>
    case Elapse(_) =>
    case Reboot(_, _) => RebootMonitors(w, l);
  }

  /** In every run the monitor's entry of a service is the last complete state it was reported in. */
  lemma {:induction false} MonitorIsLastReport(ws: seq<World>, ls: seq<Step>, service: string, n: nat)
    requires IsRun(ws, ls) && n <= |ls|
    ensures EntryIn(ws[n].monitor, service) == LastReport(ws[0].monitor, ls, service, n)
    decreases n
  {
    hide Next, Enabled;
    if n > 0 {
      MonitorIsLastReport(ws, ls, service, n - 1);
      assert StepAt(ws, ls, n - 1);
      MonitorStep(ws[n - 1], ls[n - 1], service);
    }
  }

  // ---- The events of the reports ----

  /** A crash is a change into failed, a restart one into active. */
  function StateOf(event: DEvent): ActiveState {
    match event case ServiceCrashed(_) => Failed case ServiceRestarted(_) => Active
  }

  /** The report in this step, after the one before it, is what the event is about. */
  predicate Edge(before: Option<MEntry>, l: Step, event: DEvent) {
    && l.Observe? && l.service == event.service && l.active == Some(StateOf(event)) && l.sub.Some?
    && before.Some? && before.value.active != StateOf(event)
  }

  /** How many of the steps i .. n - 1 report such a change, by the steps alone. */
  ghost function Edges(first: map<string, MEntry>, ls: seq<Step>, event: DEvent, i: nat, n: nat): nat
    requires i <= n <= |ls|
    decreases n
  {
    if i == n then 0
    else Edges(first, ls, event, i, n - 1)
         + if Edge(LastReport(first, ls, event.service, n - 1), ls[n - 1], event) then 1 else 0
  }

  function Pending(queue: seq<DEvent>, event: DEvent): nat {
    multiset(queue)[event]
  }

  predicate Takes(w: World, l: Step, event: DEvent) {
    l.Dispatch? && w.queue != [] && w.queue[0] == event
  }

  /** The events dispatched in steps i .. n - 1. */
  function Taken(ws: seq<World>, ls: seq<Step>, event: DEvent, i: nat, n: nat): nat
    requires i <= n <= |ls| && |ws| == |ls| + 1
    decreases n
  {
    if i == n then 0 else Taken(ws, ls, event, i, n - 1) + if Takes(ws[n - 1], ls[n - 1], event) then 1 else 0
  }

  /** The queued events that die with a process in steps i .. n - 1. */
  function Dropped(ws: seq<World>, ls: seq<Step>, event: DEvent, i: nat, n: nat): nat
    requires i <= n <= |ls| && |ws| == |ls| + 1
    decreases n
  {
    if i == n then 0
    else Dropped(ws, ls, event, i, n - 1) + if ls[n - 1].Reboot? then Pending(ws[n - 1].queue, event) else 0
  }

  /** The event of a report, if it is one of the two changes. */
  lemma EdgeEventIs(service: string, entry: MEntry, l: Step, event: DEvent)
    requires l.Observe? && l.active.Some? && l.sub.Some? && l.service == service
    ensures EdgeEvent(service, entry, l.active.value)
         == if Edge(Some(entry), l, ServiceCrashed(service)) then [ServiceCrashed(service)]
            else if Edge(Some(entry), l, ServiceRestarted(service)) then [ServiceRestarted(service)] else []
    ensures Pending(EdgeEvent(service, entry, l.active.value), event) == if Edge(Some(entry), l, event) then 1 else 0
  {
  }

  lemma PendingPops(queue: seq<DEvent>, event: DEvent)
    requires queue != []
    ensures Pending(queue, event) == (if queue[0] == event then 1 else 0) + Pending(queue[1..], event)
  {
    assert queue == [queue[0]] + queue[1..];
  }

  lemma ObservedCounts(w: World, l: Step, event: DEvent)
    requires l.Observe?
    ensures Pending(Next(w, l).queue, event)
         == Pending(w.queue, event) + if Edge(EntryIn(w.monitor, event.service), l, event) then 1 else 0
  {
    if l.active.Some? && l.sub.Some? && l.service in w.monitor {
      EdgeEventIs(l.service, w.monitor[l.service], l, event);
    }
  }

  /** One step keeps: reported = dispatched, dropped with the process, or still queued. */
  lemma StepKeepsEvents(w: World, l: Step, event: DEvent)
    ensures Pending(Next(w, l).queue, event)
            + (if Takes(w, l, event) then 1 else 0) + (if l.Reboot? then Pending(w.queue, event) else 0)
         == Pending(w.queue, event) + if Edge(EntryIn(w.monitor, event.service), l, event) then 1 else 0
  {
    match l
    case Observe(_, _, _) => ObservedCounts(w, l, event);
    case Appear(_) =>
    case Dispatch =>
      DispatchKeepsMonitor(w);
      if w.queue != [] { PendingPops(w.queue, event); }
    case Expire(_) =>
    case Elapse(_) =>
    case Reboot(_, _) => RebootMonitors(w, l);
  }

  /**
   Conservation over any part of any run, restarts of the daemon included: the changes reported, and
   what was queued before, are the events dispatched, still queued, or dropped with a process.
   */
  lemma {:induction false} ReportsAreHandled(ws: seq<World>, ls: seq<Step>, event: DEvent, i: nat, n: nat)
    requires IsRun(ws, ls) && i <= n <= |ls|
    ensures Taken(ws, ls, event, i, n) + Pending(ws[n].queue, event) + Dropped(ws, ls, event, i, n)
         == Edges(ws[0].monitor, ls, event, i, n) + Pending(ws[i].queue, event)
    decreases n
  {
    hide Next, Enabled, Pending, Takes, Edge;
    if i < n {
      ReportsAreHandled(ws, ls, event, i, n - 1);
      assert StepAt(ws, ls, n - 1);
      MonitorIsLastReport(ws, ls, event.service, n - 1);
      StepKeepsEvents(ws[n - 1], ls[n - 1], event);
    }
  }

  // ---- In order ----

  /** The event that a step reports, if any. */
  function EventOf(before: Option<MEntry>, l: Step): seq<DEvent>
    requires l.Observe?
  {
    if Edge(before, l, ServiceCrashed(l.service)) then [ServiceCrashed(l.service)]
    else if Edge(before, l, ServiceRestarted(l.service)) then [ServiceRestarted(l.service)]
    else []
  }

  /** All events reported in steps i .. n - 1, in the order of the reports. */
  ghost function Stream(first: map<string, MEntry>, ls: seq<Step>, i: nat, n: nat): seq<DEvent>
    requires i <= n <= |ls|
    decreases n
  {
    if i == n then []
    else
      var l := ls[n - 1];
      Stream(first, ls, i, n - 1) + if l.Observe? then EventOf(LastReport(first, ls, l.service, n - 1), l) else []
  }

  /** The events dispatched in steps i .. n - 1, in order. */
  function Dispatches(ws: seq<World>, ls: seq<Step>, i: nat, n: nat): seq<DEvent>
    requires i <= n <= |ls| && |ws| == |ls| + 1
    decreases n
  {
    if i == n then []
    else Dispatches(ws, ls, i, n - 1)
         + if ls[n - 1].Dispatch? && ws[n - 1].queue != [] then [ws[n - 1].queue[0]] else []
  }

  /** One step of one process: what it takes from the front and what it adds at the end. */
  lemma QueueStep(w: World, l: Step)
    requires !l.Reboot?
    ensures (if l.Dispatch? && w.queue != [] then [w.queue[0]] else []) + Next(w, l).queue
         == w.queue + if l.Observe? then EventOf(EntryIn(w.monitor, l.service), l) else []
  {
    match l
    case Observe(service, active, sub) =>
      if active.Some? && sub.Some? && service in w.monitor {
        EdgeEventIs(service, w.monitor[service], l, ServiceCrashed(service));
      }
    case Dispatch => DispatchKeepsMonitor(w);
    case _ =>
  }

  /** In one process events of all services are dispatched in the order in which they were reported. */
  lemma {:induction false} EventsInOrder(ws: seq<World>, ls: seq<Step>, i: nat, n: nat)
    requires IsRun(ws, ls) && i <= n <= |ls| && forall k :: i <= k < n ==> !ls[k].Reboot?
    ensures Dispatches(ws, ls, i, n) + ws[n].queue == ws[i].queue + Stream(ws[0].monitor, ls, i, n)
    decreases n
  {
    hide Next, Enabled, EventOf;
    if i < n {
      EventsInOrder(ws, ls, i, n - 1);
      var l := ls[n - 1];
      assert StepAt(ws, ls, n - 1);
      if l.Observe? { MonitorIsLastReport(ws, ls, l.service, n - 1); }
      QueueStep(ws[n - 1], l);
      var taken := if l.Dispatch? && ws[n - 1].queue != [] then [ws[n - 1].queue[0]] else [];
      var front := Stream(ws[0].monitor, ls, i, n - 1);
      var added := if l.Observe? then EventOf(LastReport(ws[0].monitor, ls, l.service, n - 1), l) else [];
      Associative(Dispatches(ws, ls, i, n - 1), taken, ws[n].queue);
      Associative(Dispatches(ws, ls, i, n - 1), ws[n - 1].queue, added);
      Associative(ws[i].queue, front, added);
    }
  }

  // ---- The vector ----

  /** The crashes that the machine of the service sees are the crash events dispatched for it. */
  lemma {:induction false} CrashesAreTaken(ws: seq<World>, ls: seq<Step>, service: string, es: seq<ActionElement>,
                                           relaxtime: nat, ks: seq<M.Step>, i: nat, n: nat)
    requires ViewedAs(ws, ls, service, es, relaxtime, ks) && i <= n <= |ls|
    ensures M.Crashes(ks[i..n]) == Taken(ws, ls, ServiceCrashed(service), i, n)
    decreases n
  {
    if i < n {
      CrashesAreTaken(ws, ls, service, es, relaxtime, ks, i, n - 1);
      Seen(ws, ls, service, es, relaxtime, ks, n - 1);
      assert ks[i..n][..n - 1 - i] == ks[i..n - 1];
    }
  }

  /** Every failure that is reported is handled as one crash, unless a process ends before. */
  lemma FailuresAreHandled(ws: seq<World>, ls: seq<Step>, service: string, es: seq<ActionElement>,
                           relaxtime: nat, ks: seq<M.Step>, i: nat, n: nat)
    requires IsRun(ws, ls) && ViewedAs(ws, ls, service, es, relaxtime, ks) && i <= n <= |ls|
    ensures var crash := ServiceCrashed(service);
            (M.Crashes(ks[i..n]) + Pending(ws[n].queue, crash) + Dropped(ws, ls, crash, i, n)
             == Edges(ws[0].monitor, ls, crash, i, n) + Pending(ws[i].queue, crash))
  {
    CrashesAreTaken(ws, ls, service, es, relaxtime, ks, i, n);
    ReportsAreHandled(ws, ls, ServiceCrashed(service), i, n);
  }

  /**
   End-to-end counting, over any number of daemon lifetimes.  The vector of a service, its queued
   crash events and those dropped with a process are the failures reported since the vector was
   last reset, plus what was queued then, plus the vector itself if it never was.
   */
  lemma VectorCountsFailures(ws: seq<World>, ls: seq<Step>, service: string, es: seq<ActionElement>, relaxtime: nat)
    returns (ks: seq<M.Step>, from: nat)
    requires IsRunOf(ws, ls, service, es, relaxtime)
    ensures ViewedAs(ws, ls, service, es, relaxtime, ks) && from <= |ls|
    ensures from > 0 ==> M.ResetAt(UnitOf(es, relaxtime), Projs(ws, service), ks, from - 1)
    ensures M.NoReset(UnitOf(es, relaxtime), Projs(ws, service), ks, from, |ls|)
    ensures var crash := ServiceCrashed(service);
            (RvectorOf(ws[|ls|].tables.services, service) + Pending(ws[|ls|].queue, crash)
             + Dropped(ws, ls, crash, from, |ls|)
             == (if from == 0 then RvectorOf(ws[0].tables.services, service) else 0)
                + Pending(ws[from].queue, crash) + Edges(ws[0].monitor, ls, crash, from, |ls|))
  {
    ks := RunProjects(ws, ls, service, es, relaxtime);
    from := M.VectorCountsCrashesSinceReset(UnitOf(es, relaxtime), Projs(ws, service), ks, |ls|);
    FailuresAreHandled(ws, ls, service, es, relaxtime, ks, from, |ls|);
  }

  /** One daemon lifetime loses no event. */
  lemma {:induction false} NothingDropped(ws: seq<World>, ls: seq<Step>, event: DEvent, i: nat, n: nat)
    requires i <= n <= |ls| && |ws| == |ls| + 1 && forall j :: i <= j < n ==> !ls[j].Reboot?
    ensures Dropped(ws, ls, event, i, n) == 0
    decreases n
  {
    if i < n { NothingDropped(ws, ls, event, i, n - 1); }
  }

  /** In one daemon lifetime, when the queue has drained, the vector is the failures reported since its reset. */
  lemma VectorCountsLifetime(ws: seq<World>, ls: seq<Step>, service: string, es: seq<ActionElement>, relaxtime: nat)
    returns (ks: seq<M.Step>, from: nat)
    requires IsRunOf(ws, ls, service, es, relaxtime) && forall i :: 0 <= i < |ls| ==> !ls[i].Reboot?
    ensures ViewedAs(ws, ls, service, es, relaxtime, ks) && from <= |ls|
    ensures from > 0 ==> M.ResetAt(UnitOf(es, relaxtime), Projs(ws, service), ks, from - 1)
    ensures var crash := ServiceCrashed(service);
            Pending(ws[|ls|].queue, crash) == 0 ==>
              RvectorOf(ws[|ls|].tables.services, service)
              == (if from == 0 then RvectorOf(ws[0].tables.services, service) else 0)
                 + Pending(ws[from].queue, crash) + Edges(ws[0].monitor, ls, crash, from, |ls|)
  {
    ks, from := VectorCountsFailures(ws, ls, service, es, relaxtime);
    NothingDropped(ws, ls, ServiceCrashed(service), from, |ls|);
  }
}
