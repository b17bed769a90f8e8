/**
 Where requests for more than a service's own recovery end up: each one is carried out exactly once
 at the primary unless its connection is lost first, and the platform is restarted only on the
 primary's own account.
 */
module Escalations {
  import opened Common
  import opened Protocol
  import opened Traffic
  import D = Daemon

  function GoalEvent(goal: Goal, s: Name, c: Name): Event {
    Event(match goal case Container => RemoteContextRestart case Factory => RemoteFactoryReset, s, Some(c))
  }

  function GoalJob(goal: Goal, s: Name, c: Name): Job {
    Job(Recovery(OwnAction(goal)), s, Some(c))
  }

  function GoalEffect(goal: Goal, s: Name, c: Name): Effect {
    match goal case Container => ContainerShutdown(c, s) case Factory => FactoryResetDone(s, Some(c))
  }

  /** Requests that have reached the primary: received, queued or carried out. */
  function Arrived(n: Node, goal: Goal, s: Name, c: Name): nat {
    Count(n.dq, GoalEvent(goal, s, c)) + Count(n.eq, GoalJob(goal, s, c)) + Count(n.effects, GoalEffect(goal, s, c))
  }

  /** The requests of context c on behalf of its service s, wherever they are. */
  function Requested(net: Net, goal: Goal, s: Name, c: Name): nat {
    Total(net.replicas, Requests(goal, s, c)) + Arrived(net.primary, goal, s, c)
  }

  // ---- At the primary ----

  /** A job is made of a request, or of a crash of the primary's own. */
  lemma HandleRequest(host: Name, e: Event, answer: Answer, goal: Goal, s: Name, c: Name)
    ensures Count(Handle(true, host, e, answer).jobs, GoalJob(goal, s, c))
         == if e == GoalEvent(goal, s, c)
               || (e.kind == ServiceCrashed && e.name == s && host == c && answer == Unit(Some(OwnAction(goal))))
            then 1 else 0
  {
  }

  lemma ExecuteGoal(host: Name, j: Job, goal: Goal, s: Name, c: Name)
    ensures Count(Execute(true, host, j).effects, GoalEffect(goal, s, c)) == if j == GoalJob(goal, s, c) then 1 else 0
  {
  }

  lemma ArrivedAfterDispatch(n: Node, answer: Answer, goal: Goal, s: Name, c: Name)
    requires n.dq != []
    ensures Arrived(Dispatched(n, HandleAt(n, true, answer)), goal, s, c)
         == Arrived(n, goal, s, c)
            + if CrashHandled(n, answer, s, c) && answer.action == Some(OwnAction(goal)) then 1 else 0
  {
    HandleRequest(n.host, n.dq[0], answer, goal, s, c);
    CountPop(n.dq, GoalEvent(goal, s, c));
    CountConcat(n.eq, HandleAt(n, true, answer).jobs, GoalJob(goal, s, c));
  }

  lemma ArrivedAfterExecute(n: Node, goal: Goal, s: Name, c: Name)
    requires n.eq != []
    ensures Arrived(Executed(n, ExecuteAt(n, true)), goal, s, c) == Arrived(n, goal, s, c)
  {
    ExecuteGoal(n.host, n.eq[0], goal, s, c);
    CountPop(n.eq, GoalJob(goal, s, c));
    CountConcat(n.effects, ExecuteAt(n, true).effects, GoalEffect(goal, s, c));
  }

  lemma ArrivedAfterPush(n: Node, events: seq<Event>, goal: Goal, s: Name, c: Name)
    ensures Arrived(Pushed(n, events), goal, s, c) == Arrived(n, goal, s, c) + Count(events, GoalEvent(goal, s, c))
  {
    CountConcat(n.dq, events, GoalEvent(goal, s, c));
  }

  lemma RequestsOfPrimaryDispatch(net: Net, answer: Answer, goal: Goal, s: Name, c: Name)
    requires Enabled(net, PrimaryDispatch(answer))
    ensures Requested(Next(net, PrimaryDispatch(answer)), goal, s, c)
         == Requested(net, goal, s, c) + Once(net, PrimaryDispatch(answer), Escalated(goal, s, c))
  {
    hide Arrived, Dispatched;
    ArrivedAfterDispatch(net.primary, answer, goal, s, c);
    TotalNotified(net.replicas, HandleAt(net.primary, true, answer).notice, Requests(goal, s, c));
  }

  lemma RequestsOfPrimaryExecute(net: Net, goal: Goal, s: Name, c: Name)
    requires Enabled(net, PrimaryExecute)
    ensures Requested(Next(net, PrimaryExecute), goal, s, c) == Requested(net, goal, s, c)
  {
    hide Arrived, Executed;
    ArrivedAfterExecute(net.primary, goal, s, c);
  }

  lemma RequestsOfPrimaryEvent(net: Net, e: Event, goal: Goal, s: Name, c: Name)
    requires Enabled(net, PrimaryEvent(e))
    ensures Requested(Next(net, PrimaryEvent(e)), goal, s, c) == Requested(net, goal, s, c)
  {
    hide Arrived;
    ArrivedAfterPush(net.primary, [e], goal, s, c);
  }

  // ---- At the replicas ----

  /** The packets in which a replica asks. */
  function GoalPackets(up: seq<Packet>, goal: Goal, s: Name, c: Name): nat {
    match goal
    case Container => Count(up, Packet(RequestContextRestart, s, c)) + Count(up, Packet(RequestPlatformRestart, s, c))
    case Factory => Count(up, Packet(RequestFactoryReset, s, c))
  }

  lemma GoalPacketsConcat(up: seq<Packet>, ps: seq<Packet>, goal: Goal, s: Name, c: Name)
    ensures GoalPackets(up + ps, goal, s, c) == GoalPackets(up, goal, s, c) + GoalPackets(ps, goal, s, c)
  {
  }

  lemma GoalPacketsPop(up: seq<Packet>, goal: Goal, s: Name, c: Name)
    requires up != []
    ensures GoalPackets(up, goal, s, c)
         == Count(List(FromReplica(up[0])), GoalEvent(goal, s, c)) + GoalPackets(up[1..], goal, s, c)
  {
    CountPop(up, Packet(RequestContextRestart, s, c));
    CountPop(up, Packet(RequestPlatformRestart, s, c));
    CountPop(up, Packet(RequestFactoryReset, s, c));
  }

  lemma ExecuteRequest(host: Name, j: Job, goal: Goal, s: Name, c: Name)
    ensures GoalPackets(List(Execute(false, host, j).request), goal, s, c)
         == if host == c && j.name == s && AsksFor(j.kind, goal) then 1 else 0
  {
  }

  lemma RequestsReplaced(net: Net, i: nat, r: Replica, goal: Goal, s: Name, c: Name)
    requires i < |net.replicas|
    ensures Total(net.replicas[i := r], Requests(goal, s, c)) + GoalPackets(net.replicas[i].up, goal, s, c)
         == Total(net.replicas, Requests(goal, s, c)) + GoalPackets(r.up, goal, s, c)
  {
    TotalUpdate(net.replicas, i, r, Requests(goal, s, c));
  }

  lemma RequestsOfReceiveUp(net: Net, i: nat, goal: Goal, s: Name, c: Name)
    requires Enabled(net, ReceiveUp(i))
    ensures Requested(Next(net, ReceiveUp(i)), goal, s, c) == Requested(net, goal, s, c)
  {
    hide Arrived, GoalPackets, Total;
    var r := net.replicas[i];
    GoalPacketsPop(r.up, goal, s, c);
    ArrivedAfterPush(net.primary, List(FromReplica(r.up[0])), goal, s, c);
    RequestsReplaced(net, i, ReplicaNext(r, ReceiveUp(i)), goal, s, c);
  }

  lemma RequestsOfReplicaExecute(net: Net, i: nat, goal: Goal, s: Name, c: Name)
    requires Enabled(net, ReplicaExecute(i))
    ensures Requested(Next(net, ReplicaExecute(i)), goal, s, c)
         == Requested(net, goal, s, c) + Once(net, ReplicaExecute(i), Escalated(goal, s, c))
  {
    hide Arrived, GoalPackets, Total, Execute;
    var r := net.replicas[i];
    GoalPacketsConcat(r.up, List(ExecuteAt(r.node, false).request), goal, s, c);
    ExecuteRequest(r.node.host, r.node.eq[0], goal, s, c);
    RequestsReplaced(net, i, ReplicaNext(r, ReplicaExecute(i)), goal, s, c);
  }

  /** The notices a replica sends when it dispatches are no requests. */
  lemma DispatchAsksNothing(host: Name, e: Event, answer: Answer, goal: Goal, s: Name, c: Name)
    ensures GoalPackets(List(Handle(false, host, e, answer).notice), goal, s, c) == 0
  {
  }

  lemma RequestsOfReplicaDispatch(net: Net, i: nat, answer: Answer, goal: Goal, s: Name, c: Name)
    requires Enabled(net, ReplicaDispatch(i, answer))
    ensures Requested(Next(net, ReplicaDispatch(i, answer)), goal, s, c) == Requested(net, goal, s, c)
  {
    hide Arrived, GoalPackets, Total, Handle;
    var r := net.replicas[i];
    DispatchAsksNothing(r.node.host, r.node.dq[0], answer, goal, s, c);
    GoalPacketsConcat(r.up, List(HandleAt(r.node, false, answer).notice), goal, s, c);
    RequestsReplaced(net, i, ReplicaNext(r, ReplicaDispatch(i, answer)), goal, s, c);
  }

  /** Nothing is requested by a replica that only takes in an event. */
  lemma RequestsOfIntake(net: Net, l: Step, goal: Goal, s: Name, c: Name)
    requires Enabled(net, l) && (l.ReplicaEvent? || l.ReceiveDown?)
    ensures Requested(Next(net, l), goal, s, c) == Requested(net, goal, s, c)
  {
    hide Arrived, GoalPackets, Total;
    RequestsReplaced(net, l.at, ReplicaNext(net.replicas[l.at], l), goal, s, c);
  }

  // ---- Connections ----

  lemma {:induction false} TotalAppend(rs: seq<Replica>, r: Replica, k: Measure)
    ensures Total(rs + [r], k) == Total(rs, k) + Weight(r, k)
  {
    if rs == [] {
      assert rs + [r] == [r] && [r][1..] == [];
    } else {
      assert (rs + [r])[1..] == rs[1..] + [r];
      TotalAppend(rs[1..], r, k);
    }
  }

  lemma {:induction false} TotalRemove(rs: seq<Replica>, d: nat, k: Measure)
    requires d < |rs|
    ensures Total(rs[..d] + rs[d + 1..], k) + Weight(rs[d], k) == Total(rs, k)
  {
    if d == 0 {
      assert rs[..d] + rs[d + 1..] == rs[1..];
    } else {
      assert (rs[..d] + rs[d + 1..])[1..] == rs[1..][..d - 1] + rs[1..][d..];
      TotalRemove(rs[1..], d - 1, k);
    }
  }

  lemma RequestsOfConnect(net: Net, host: Name, goal: Goal, s: Name, c: Name)
    ensures Requested(Next(net, Connect(host)), goal, s, c) == Requested(net, goal, s, c)
  {
    TotalAppend(net.replicas, Next(net, Connect(host)).replicas[|net.replicas|], Requests(goal, s, c));
  }

  /** What a step loses: the requests on the connection that it closes. */
  function LostAt(net: Net, l: Step, goal: Goal, s: Name, c: Name): nat
    requires Enabled(net, l)
  {
    if l.Disconnect? then Weight(net.replicas[l.at], Requests(goal, s, c)) else 0
  }

  lemma RequestsStep(net: Net, l: Step, goal: Goal, s: Name, c: Name)
    requires Enabled(net, l)
    ensures Requested(Next(net, l), goal, s, c) + LostAt(net, l, goal, s, c)
         == Requested(net, goal, s, c) + Once(net, l, Escalated(goal, s, c))
  {
    hide Arrived, Weight;
    match l
    case Connect(host) => RequestsOfConnect(net, host, goal, s, c);
    case Disconnect(d) => TotalRemove(net.replicas, d, Requests(goal, s, c));
    case PrimaryEvent(e) => RequestsOfPrimaryEvent(net, e, goal, s, c);
    case PrimaryDispatch(answer) => RequestsOfPrimaryDispatch(net, answer, goal, s, c);
    case PrimaryExecute => RequestsOfPrimaryExecute(net, goal, s, c);
    case ReceiveUp(i) => RequestsOfReceiveUp(net, i, goal, s, c);
    case ReplicaEvent(_, _) => RequestsOfIntake(net, l, goal, s, c);
    case ReceiveDown(_) => RequestsOfIntake(net, l, goal, s, c);
    case ReplicaDispatch(i, answer) => RequestsOfReplicaDispatch(net, i, answer, goal, s, c);
    case ReplicaExecute(i) => RequestsOfReplicaExecute(net, i, goal, s, c);
  }

  /** The requests that the disconnects among the first n steps lose. */
  function Lost(nets: seq<Net>, ls: seq<Step>, goal: Goal, s: Name, c: Name, n: nat): nat
    requires IsRun(nets, ls) && n <= |ls|
  {
    if n == 0 then 0
    else
      assert StepAt(nets, ls, n - 1);
      Lost(nets, ls, goal, s, c, n - 1) + LostAt(nets[n - 1], ls[n - 1], goal, s, c)
  }

  /**
   Conservation over every run.  What a context asks for is, once, a packet on its connection, an
   event or a job at the primary, or done (its container shut down, the factory reset), or lost
   with its connection; and nothing else is ever done.
   */
  lemma {:induction false} RequestsAreConserved(nets: seq<Net>, ls: seq<Step>, goal: Goal, s: Name, c: Name, n: nat)
    requires IsRun(nets, ls) && n <= |ls|
    ensures Requested(nets[n], goal, s, c) + Lost(nets, ls, goal, s, c, n)
         == Requested(nets[0], goal, s, c) + Times(nets, ls, Escalated(goal, s, c), n)
    decreases n
  {
    if n > 0 {
      RequestsAreConserved(nets, ls, goal, s, c, n - 1);
      assert StepAt(nets, ls, n - 1);
      RequestsStep(nets[n - 1], ls[n - 1], goal, s, c);
      TimesStep(nets, ls, Escalated(goal, s, c), n);
    }
  }

  /** Every connection that is closed has been read to its end. */
  ghost predicate ClosedDrained(nets: seq<Net>, ls: seq<Step>)
    requires |nets| == |ls| + 1
  {
    forall i :: 0 <= i < |ls| && ls[i].Disconnect? && ls[i].at < |nets[i].replicas| ==>
      nets[i].replicas[ls[i].at].up == []
  }

  /** If connections are read to their end before they are closed, no request is lost. */
  lemma {:induction false} DrainedLosesNothing(nets: seq<Net>, ls: seq<Step>, goal: Goal, s: Name, c: Name, n: nat)
    requires IsRun(nets, ls) && n <= |ls| && ClosedDrained(nets, ls)
    ensures Lost(nets, ls, goal, s, c, n) == 0
    decreases n
  {
    if n > 0 {
      DrainedLosesNothing(nets, ls, goal, s, c, n - 1);
      assert StepAt(nets, ls, n - 1);
    }
  }

  // ---- The platform ----

  /** Platform restarts on behalf of service s, queued or carried out. */
  function PlatformBound(net: Net, s: Name): nat {
    Count(net.primary.eq, PlatformJob(s, net.primary.host))
    + Count(net.primary.effects, PlatformRestarted(s))
  }

  function PlatformJob(s: Name, host: Name): Job { Job(Recovery(D.RestartPlatform), s, Some(host)) }

  lemma HandlePlatform(host: Name, e: Event, answer: Answer, s: Name)
    requires EventSafe(true, e)
    ensures Count(Handle(true, host, e, answer).jobs, PlatformJob(s, host))
         == if e.kind == ServiceCrashed && e.name == s && answer == Unit(Some(D.RestartPlatform)) then 1 else 0
  {
  }

  lemma ExecutePlatform(host: Name, j: Job, s: Name)
    requires JobSafe(host, j)
    ensures Count(Execute(true, host, j).effects, PlatformRestarted(s)) == if j == PlatformJob(s, host) then 1 else 0
  {
  }

  lemma PlatformStep(net: Net, l: Step, s: Name)
    requires Enabled(net, l) && Safe(net)
    ensures PlatformBound(Next(net, l), s) == PlatformBound(net, s) + Once(net, l, PlatformChosen(s))
    ensures Next(net, l).primary.host == net.primary.host
  {
    match l
    case PrimaryDispatch(answer) => PlatformAfterDispatch(net, answer, s);
    case PrimaryExecute => PlatformAfterExecute(net, s);
    case _ =>
  }

  lemma PlatformAfterDispatch(net: Net, answer: Answer, s: Name)
    requires Enabled(net, PrimaryDispatch(answer)) && Safe(net)
    ensures PlatformBound(Next(net, PrimaryDispatch(answer)), s)
         == PlatformBound(net, s) + Once(net, PrimaryDispatch(answer), PlatformChosen(s))
  {
    var n := net.primary;
    assert n.dq[0] in n.dq;
    HandlePlatform(n.host, n.dq[0], answer, s);
    CountConcat(n.eq, HandleAt(n, true, answer).jobs, PlatformJob(s, n.host));
  }

  lemma PlatformAfterExecute(net: Net, s: Name)
    requires Enabled(net, PrimaryExecute) && Safe(net)
    ensures PlatformBound(Next(net, PrimaryExecute), s) == PlatformBound(net, s)
  {
    var n := net.primary;
    assert n.eq[0] in n.eq;
    ExecutePlatform(n.host, n.eq[0], s);
    CountPop(n.eq, PlatformJob(s, n.host));
    CountConcat(n.effects, ExecuteAt(n, true).effects, PlatformRestarted(s));
  }

  /** The platform is restarted once for each time the primary's own journal asks for it, and never for a replica. */
  lemma {:induction false} PlatformRestartsAreOwn(nets: seq<Net>, ls: seq<Step>, s: Name, n: nat)
    requires IsRun(nets, ls) && n <= |ls| && nets[0] == Start(nets[0].primary.host)
    ensures nets[n].primary.host == nets[0].primary.host
    ensures PlatformBound(nets[n], s) == Times(nets, ls, PlatformChosen(s), n)
    decreases n
  {
    if n > 0 {
      PlatformRestartsAreOwn(nets, ls, s, n - 1);
      RolesAreKept(nets, ls, n - 1);
      assert StepAt(nets, ls, n - 1);
      PlatformStep(nets[n - 1], ls[n - 1], s);
      TimesStep(nets, ls, PlatformChosen(s), n);
    }
  }
}
