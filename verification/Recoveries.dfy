/**
 What the executors do, effect by effect: everything an instance does is called for by one event it
 dispatched, and everything that is called for is queued or done.  The laws are read from the
 effects back to the events, for the primary and for every replica that is still connected.
 */
module Recoveries {
  import opened Common
  import opened Ladder
  import opened Protocol
  import opened Traffic
  import opened Delivery
  import D = Daemon
  import J = Journal
  import P = Projection

  // ---- From an effect back to its job and its event ----

  predicate Recovers(j: Job, s: Name, actions: set<D.ExecutorEvent>) {
    j.name == s && j.kind.Recovery? && j.kind.event in actions
  }

  /** The jobs that have this effect when an instance carries them out. */
  predicate Yields(primary: bool, j: Job, x: Effect) {
    match x
    case UnitRestarted(s) => Recovers(j, s, {D.RestartService, D.ResetPublic, D.ResetPrivate})
    case PublicDataReset(s) => Recovers(j, s, {D.ResetPublic})
    case PrivateDataReset(s) => Recovers(j, s, {D.ResetPrivate})
    case FriendsLookedUp(kind, name, c) =>
      && j.name == name && j.context == c
      && ((kind == J.FriendService && j.kind == FriendServiceFailed)
          || (kind == J.FriendProcess && j.kind == FriendProcessCrash))
    case ContainerShutdown(c, s) => primary && Recovers(j, s, {D.RestartContext}) && j.context == Some(c)
    case PlatformRestarted(s) =>
      primary && (Recovers(j, s, {D.RestartPlatform}) || (Recovers(j, s, {D.RestartContext}) && j.context == None))
    case FactoryResetDone(s, asker) => primary && Recovers(j, s, {D.ResetFactory}) && j.context == asker
    case Meditation =>
      Recovers(j, j.name, if primary then {D.RestartPlatform, D.ResetFactory}
                          else {D.RestartContext, D.RestartPlatform, D.ResetFactory})
  }

  /** A crash of this service, answered by one of these actions. */
  predicate Crashed(e: Event, answer: Answer, s: Name, actions: set<D.ExecutorEvent>) {
    && e.kind == ServiceCrashed && e.name == s
    && answer.Unit? && answer.action.Some? && answer.action.value in actions
  }

  /** The events that call for this effect when an instance dispatches them. */
  predicate Calls(primary: bool, host: Name, e: Event, answer: Answer, x: Effect) {
    match x
    case UnitRestarted(s) => Crashed(e, answer, s, {D.RestartService, D.ResetPublic, D.ResetPrivate})
    case PublicDataReset(s) => Crashed(e, answer, s, {D.ResetPublic})
    case PrivateDataReset(s) => Crashed(e, answer, s, {D.ResetPrivate})
    case FriendsLookedUp(kind, name, c) =>
      || (kind == J.FriendService && c.Some? && c != Some(host) && e == Event(InformServiceFailed, name, c))
      || (kind == J.FriendProcess && e == Event(InformProcessCrash, name, c))
    case ContainerShutdown(c, s) =>
      primary && (e == Event(RemoteContextRestart, s, Some(c))
                  || (c == host && Crashed(e, answer, s, {D.RestartContext})))
    case PlatformRestarted(s) =>
      primary && (Crashed(e, answer, s, {D.RestartPlatform})
                  || (e.kind == RemotePlatformRestart && e.name == s) || e == Event(RemoteContextRestart, s, None))
    case FactoryResetDone(s, asker) =>
      primary && (e == Event(RemoteFactoryReset, s, asker)
                  || (asker == Some(host) && Crashed(e, answer, s, {D.ResetFactory})))
    case Meditation =>
      || Crashed(e, answer, e.name, {D.RestartPlatform, D.ResetFactory})
      || e.kind == RemotePlatformRestart || e.kind == RemoteFactoryReset
      || (!primary && (Crashed(e, answer, e.name, {D.RestartContext}) || e.kind == RemoteContextRestart))
  }

  /** The queued jobs that have this effect. */
  function Jobs(primary: bool, jobs: seq<Job>, x: Effect): nat {
    if jobs == [] then 0 else (if Yields(primary, jobs[0], x) then 1 else 0) + Jobs(primary, jobs[1..], x)
  }

  lemma {:induction false} JobsConcat(primary: bool, a: seq<Job>, b: seq<Job>, x: Effect)
    ensures Jobs(primary, a + b, x) == Jobs(primary, a, x) + Jobs(primary, b, x)
  {
    hide Yields;
    if a == [] {
      assert a + b == b;
    } else {
      assert (a + b)[1..] == a[1..] + b;
      JobsConcat(primary, a[1..], b, x);
    }
  }

  lemma CountShort(xs: seq<Effect>, x: Effect)
    requires |xs| <= 2
    ensures Count(xs, x) == (if |xs| > 0 && xs[0] == x then 1 else 0) + (if |xs| > 1 && xs[1] == x then 1 else 0)
  {
    if |xs| > 0 { CountPop(xs, x); }
    if |xs| > 1 { CountPop(xs[1..], x); }
  }

  lemma ExecuteYields(primary: bool, host: Name, j: Job, x: Effect)
    ensures Count(Execute(primary, host, j).effects, x) == if Yields(primary, j, x) then 1 else 0
  {
    hide Count;
    CountShort(Execute(primary, host, j).effects, x);
  }

  /** What a replica cannot do itself it asks for, in the packet of that request. */
  lemma ExecuteAsks(primary: bool, host: Name, j: Job, p: Packet)
    ensures Execute(primary, host, j).request == Some(p)
       <==> && !primary && p.name == j.name && p.context == host
            && ((j.kind == Recovery(D.RestartContext) && p.kind == RequestContextRestart)
                || (j.kind == Recovery(D.RestartPlatform) && p.kind == RequestPlatformRestart)
                || (j.kind == Recovery(D.ResetFactory) && p.kind == RequestFactoryReset))
  {
  }

  lemma HandleCalls(primary: bool, host: Name, e: Event, answer: Answer, x: Effect)
    ensures Jobs(primary, Handle(primary, host, e, answer).jobs, x)
         == if Calls(primary, host, e, answer, x) then 1 else 0
  {
  }

  // ---- One instance ----

  /** An effect of an instance, done or still queued. */
  function Bound(n: Node, primary: bool, x: Effect): nat {
    Jobs(primary, n.eq, x) + Count(n.effects, x)
  }

  lemma BoundAfterDispatch(n: Node, primary: bool, answer: Answer, x: Effect)
    requires n.dq != []
    ensures Bound(Dispatched(n, HandleAt(n, primary, answer)), primary, x)
         == Bound(n, primary, x) + if Calls(primary, n.host, n.dq[0], answer, x) then 1 else 0
  {
    hide Handle, Calls, Jobs;
    HandleCalls(primary, n.host, n.dq[0], answer, x);
    JobsConcat(primary, n.eq, HandleAt(n, primary, answer).jobs, x);
  }

  lemma BoundAfterExecute(n: Node, primary: bool, x: Effect)
    requires n.eq != []
    ensures Bound(Executed(n, ExecuteAt(n, primary)), primary, x) == Bound(n, primary, x)
  {
    hide Execute, Yields;
    ExecuteYields(primary, n.host, n.eq[0], x);
    CountConcat(n.effects, ExecuteAt(n, primary).effects, x);
  }

  // ---- The instances of a network ----

  /** The primary, or the replica that stands at this index. */
  datatype Seat = Primary | ReplicaAt(index: nat)

  predicate HasSeat(net: Net, seat: Seat) {
    seat.ReplicaAt? ==> seat.index < |net.replicas|
  }

  function NodeAt(net: Net, seat: Seat): Node
    requires HasSeat(net, seat)
  {
    match seat case Primary => net.primary case ReplicaAt(i) => net.replicas[i].node
  }

  /** Where the instance is after n steps; None once it has disconnected. */
  function SeatAfter(ls: seq<Step>, seat: Seat, n: nat): Option<Seat>
    requires n <= |ls|
  {
    match seat
    case Primary => Some(Primary)
    case ReplicaAt(i) => match Place(ls, i, n) case Some(k) => Some(ReplicaAt(k)) case None => None
  }

  predicate DispatchedAt(l: Step, seat: Seat) {
    match seat case Primary => l.PrimaryDispatch? case ReplicaAt(i) => l.ReplicaDispatch? && l.at == i
  }

  /** In this step the instance dispatches an event that calls for the effect. */
  predicate CalledFor(net: Net, l: Step, seat: Seat, x: Effect)
    requires Enabled(net, l)
  {
    && DispatchedAt(l, seat)
    && Calls(seat.Primary?, NodeAt(net, seat).host, NodeAt(net, seat).dq[0], l.answer, x)
  }

  predicate ExecutedAt(l: Step, seat: Seat) {
    match seat case Primary => l.PrimaryExecute? case ReplicaAt(i) => l.ReplicaExecute? && l.at == i
  }

  /** Any other step leaves the jobs and the effects of the instance alone. */
  lemma JobsStay(net: Net, l: Step, seat: Seat)
    requires Enabled(net, l) && HasSeat(net, seat) && !l.Disconnect? && !DispatchedAt(l, seat) && !ExecutedAt(l, seat)
    ensures HasSeat(Next(net, l), seat)
    ensures NodeAt(Next(net, l), seat).eq == NodeAt(net, seat).eq
    ensures NodeAt(Next(net, l), seat).effects == NodeAt(net, seat).effects
  {
    hide Handle, Execute, Informed, FromReplica, FromPrimary;
  }

  lemma DispatchedIs(net: Net, l: Step, seat: Seat)
    requires Enabled(net, l) && DispatchedAt(l, seat)
    ensures HasSeat(net, seat) && HasSeat(Next(net, l), seat) && NodeAt(net, seat).dq != []
    ensures NodeAt(Next(net, l), seat)
         == Dispatched(NodeAt(net, seat), HandleAt(NodeAt(net, seat), seat.Primary?, l.answer))
  {
    hide Handle, Informed;
  }

  lemma ExecutedIs(net: Net, l: Step, seat: Seat)
    requires Enabled(net, l) && ExecutedAt(l, seat)
    ensures HasSeat(net, seat) && HasSeat(Next(net, l), seat) && NodeAt(net, seat).eq != []
    ensures NodeAt(Next(net, l), seat) == Executed(NodeAt(net, seat), ExecuteAt(NodeAt(net, seat), seat.Primary?))
  {
    hide Execute;
  }

  lemma BoundAfterStep(net: Net, l: Step, seat: Seat, x: Effect)
    requires Enabled(net, l) && HasSeat(net, seat) && !l.Disconnect?
    ensures HasSeat(Next(net, l), seat)
    ensures Bound(NodeAt(Next(net, l), seat), seat.Primary?, x)
         == Bound(NodeAt(net, seat), seat.Primary?, x) + if CalledFor(net, l, seat, x) then 1 else 0
  {
    hide Calls, HandleAt, ExecuteAt, Next, Jobs;
    if DispatchedAt(l, seat) {
      DispatchedIs(net, l, seat);
      BoundAfterDispatch(NodeAt(net, seat), seat.Primary?, l.answer, x);
    } else if ExecutedAt(l, seat) {
      ExecutedIs(net, l, seat);
      BoundAfterExecute(NodeAt(net, seat), seat.Primary?, x);
    } else {
      JobsStay(net, l, seat);
    }
  }

  /** A replica that leaves takes nothing of the others with it. */
  lemma SeatAfterDisconnect(net: Net, d: nat, seat: Seat)
    requires Enabled(net, Disconnect(d)) && HasSeat(net, seat) && seat != ReplicaAt(d)
    ensures var seat' := if seat.ReplicaAt? && d < seat.index then ReplicaAt(seat.index - 1) else seat;
            HasSeat(Next(net, Disconnect(d)), seat') && NodeAt(Next(net, Disconnect(d)), seat') == NodeAt(net, seat)
  {
  }

  /** How often the effect has been called for at this instance in the first n steps. */
  function Called(nets: seq<Net>, ls: seq<Step>, seat: Seat, x: Effect, n: nat): nat
    requires IsRun(nets, ls) && n <= |ls|
  {
    if n == 0 then 0
    else
      assert StepAt(nets, ls, n - 1);
      Called(nets, ls, seat, x, n - 1)
      + match SeatAfter(ls, seat, n - 1)
        case None => 0
        case Some(now) => if CalledFor(nets[n - 1], ls[n - 1], now, x) then 1 else 0
  }

  /**
   Conservation over every run, at the primary and at every replica that is still connected: an effect
   is, once, a job or done for each event dispatched there that calls for it, and for nothing else.
   */
  lemma {:induction false} EffectsAreConserved(nets: seq<Net>, ls: seq<Step>, seat: Seat, x: Effect, n: nat)
    requires IsRun(nets, ls) && n <= |ls| && HasSeat(nets[0], seat)
    ensures match SeatAfter(ls, seat, n)
            case None => true
            case Some(now) =>
              && HasSeat(nets[n], now)
              && Bound(NodeAt(nets[n], now), seat.Primary?, x)
                 == Bound(NodeAt(nets[0], seat), seat.Primary?, x) + Called(nets, ls, seat, x, n)
    decreases n
  {
    hide Next, Bound, CalledFor;
    if n > 0 {
      EffectsAreConserved(nets, ls, seat, x, n - 1);
      assert StepAt(nets, ls, n - 1);
      match SeatAfter(ls, seat, n - 1)
      case None =>
      case Some(before) =>
        if !ls[n - 1].Disconnect? {
          BoundAfterStep(nets[n - 1], ls[n - 1], before, x);
        } else if before != ReplicaAt(ls[n - 1].at) {
          SeatAfterDisconnect(nets[n - 1], ls[n - 1].at, before);
          NotCalledByDisconnect(nets[n - 1], ls[n - 1], before, x);
        }
    }
  }

  lemma NotCalledByDisconnect(net: Net, l: Step, seat: Seat, x: Effect)
    requires Enabled(net, l) && l.Disconnect?
    ensures !CalledFor(net, l, seat, x)
  {
  }

  /** What has been done when the queue of jobs is empty again: exactly what was called for. */
  lemma EffectsAreAsCalled(nets: seq<Net>, ls: seq<Step>, seat: Seat, x: Effect)
    requires IsRun(nets, ls) && HasSeat(nets[0], seat) && NodeAt(nets[0], seat).eq == []
    ensures match SeatAfter(ls, seat, |ls|)
            case None => true
            case Some(now) =>
              && HasSeat(nets[|ls|], now)
              && (NodeAt(nets[|ls|], now).eq == [] ==>
                    Count(NodeAt(nets[|ls|], now).effects, x)
                    == Count(NodeAt(nets[0], seat).effects, x) + Called(nets, ls, seat, x, |ls|))
  {
    EffectsAreConserved(nets, ls, seat, x, |ls|);
  }

  // ---- From the action in a unit to what is done ----

  /**
   The name of an action in a unit, its rung selected by a crash, and what the executor then does at
   the primary and at a replica.  At most one event is posted for a crash.
   */
  lemma ActionIsCarriedOut(w: D.World, service: Name, es: seq<ActionElement>, relaxtime: nat, primary: bool, host: Name)
    requires P.Managed(w, service, es, relaxtime)
    ensures var before, after := P.PostsOf(w.posts, service), P.PostsOf(D.CrashHandled(w, service).posts, service);
            var rung := Rung(Expand(es), J.RvectorOf(w.tables.services, service) + 1);
            if rung.None? || rung.value.kind == IgnoreService then after == before
            else
              && |after| == |before| + 1 && after[..|before|] == before
              && var x := Execute(primary, host, Job(Recovery(after[|before|]), service, Some(host)));
                 match rung.value.kind
                 case ResetService => x == Execution([UnitRestarted(service)], None)
                 case ResetPublicData => x == Execution([PublicDataReset(service), UnitRestarted(service)], None)
                 case ResetPrivateData => x == Execution([PrivateDataReset(service), UnitRestarted(service)], None)
                 case DisableService => x == Execution([], None)
                 case ContextRestart =>
                   if primary then x == Execution([ContainerShutdown(host, service)], None)
                   else x == Execution([Meditation], Some(Packet(RequestContextRestart, service, host)))
                 case PlatformRestart =>
                   if primary then x == Execution([PlatformRestarted(service), Meditation], None)
                   else x == Execution([Meditation], Some(Packet(RequestPlatformRestart, service, host)))
                 case FactoryReset =>
                   if primary then x == Execution([FactoryResetDone(service, Some(host)), Meditation], None)
                   else x == Execution([Meditation], Some(Packet(RequestFactoryReset, service, host)))
                 case IgnoreService | Invalid => false
  {
    hide P.Managed, Expand, Rung, P.PostsOf, D.CrashHandled;
    P.CrashOfOwn(w, service, es, relaxtime);
    RungsAreAccepted(es, J.RvectorOf(w.tables.services, service) + 1);
  }
}
