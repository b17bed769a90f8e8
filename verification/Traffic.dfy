/**
 What the network does to its traffic: which packets multiply, which are conserved, and where a
 request ends up.  Quantities are counted in queues and on connections together.
 */
module Traffic {
  import opened Common
  import opened Protocol
  import D = Daemon

  function Count<T(==)>(q: seq<T>, x: T): nat {
    multiset(q)[x]
  }

  lemma CountConcat<T>(q: seq<T>, r: seq<T>, x: T)
    ensures Count(q + r, x) == Count(q, x) + Count(r, x)
  {
  }

  lemma CountPop<T>(q: seq<T>, x: T)
    requires q != []
    ensures Count(q, x) == (if q[0] == x then 1 else 0) + Count(q[1..], x)
  {
    assert q == [q[0]] + q[1..];
  }

  lemma CountList<T>(o: Option<T>, x: T)
    ensures Count(List(o), x) == if o == Some(x) then 1 else 0
  {
  }

  // ---- What is counted ----

  /** What a context can ask of the primary; a replica's platform restart is asked for as a container's. */
  datatype Goal = Container | Factory

  predicate AsksFor(kind: JobKind, goal: Goal) {
    match goal
    case Container => kind == Recovery(D.RestartContext) || kind == Recovery(D.RestartPlatform)
    case Factory => kind == Recovery(D.ResetFactory)
  }

  function OwnAction(goal: Goal): D.ExecutorEvent {
    match goal case Container => D.RestartContext case Factory => D.ResetFactory
  }

  datatype Measure =
    | Outsiders(context: Name)                           // clients that are not known by this context
    | TowardClients(service: Name, context: Name)        // its failures on the way to a replica's handler
    | TowardPrimary(service: Name, context: Name)        // its failures on connections to the primary
    | Requests(goal: Goal, service: Name, context: Name) // what its context asks of the primary for it

  function FailedEvent(service: Name, context: Name): Event {
    Event(InformServiceFailed, service, Some(context))
  }

  function Weight(r: Replica, k: Measure): nat {
    match k
    case Outsiders(c) => if r.client.context != Some(c) then 1 else 0
    case TowardClients(s, c) =>
      Count(r.client.down, Packet(InformClientServiceFailed, s, c)) + Count(r.node.dq, FailedEvent(s, c))
    case TowardPrimary(s, c) => Count(r.up, Packet(InformPrimaryServiceFailed, s, c))
    case Requests(Container, s, c) =>
      Count(r.up, Packet(RequestContextRestart, s, c)) + Count(r.up, Packet(RequestPlatformRestart, s, c))
    case Requests(Factory, s, c) => Count(r.up, Packet(RequestFactoryReset, s, c))
  }

  function Total(rs: seq<Replica>, k: Measure): nat {
    if rs == [] then 0 else Weight(rs[0], k) + Total(rs[1..], k)
  }

  lemma {:induction false} TotalUpdate(rs: seq<Replica>, i: nat, r: Replica, k: Measure)
    requires i < |rs|
    ensures Total(rs[i := r], k) + Weight(rs[i], k) == Total(rs, k) + Weight(r, k)
  {
    if i == 0 {
      assert rs[i := r][1..] == rs[1..];
    } else {
      assert rs[i := r][1..] == rs[1..][i - 1 := r];
      TotalUpdate(rs[1..], i - 1, r, k);
    }
  }

  /** A notice weighs once for every client it is sent to. */
  lemma {:induction false} TotalNotified(rs: seq<Replica>, notice: Option<Packet>, k: Measure)
    ensures Total(Notified(rs, notice), k)
         == Total(rs, k) + if k.TowardClients? && notice == Some(Packet(InformClientServiceFailed, k.service,
               k.context))
                           then Total(rs, Outsiders(k.context)) else 0
  {
    if rs != [] {
      assert Notified(rs, notice)[1..] == Notified(rs[1..], notice);
      TotalNotified(rs[1..], notice, k);
      if notice.Some? && k.TowardClients? {
        CountConcat(rs[0].client.down, [notice.value], Packet(InformClientServiceFailed, k.service, k.context));
      }
    }
  }

  /** What a step of a run can be counted as. */
  datatype Occasion =
    | FailureAtPrimary(service: Name, context: Name)      // a failure reported to the primary is handled there
    | FailureAtReplica(service: Name, context: Name)      // a failure sent to a replica is handled there
    | CrashAtPrimary(service: Name, context: Name)        // a crash of a service with a unit is handled
    | CrashAtReplica(service: Name, context: Name)
    | ProcessCrashReported(process: Name, context: Name)
    | Escalated(goal: Goal, service: Name, context: Name) // a context asks for more than its services
    | PlatformChosen(service: Name)                       // the primary's own journal asks for a platform restart

  predicate CrashHandled(n: Node, answer: Answer, service: Name, context: Name) {
    n.dq != [] && n.dq[0].kind == ServiceCrashed && n.dq[0].name == service && n.host == context && answer.Unit?
  }

  predicate Happens(net: Net, l: Step, o: Occasion)
    requires Enabled(net, l)
  {
    match o
    case FailureAtPrimary(s, c) => l.PrimaryDispatch? && net.primary.dq[0] == FailedEvent(s, c)
    case FailureAtReplica(s, c) => l.ReplicaDispatch? && net.replicas[l.at].node.dq[0] == FailedEvent(s, c)
    case CrashAtPrimary(s, c) => l.PrimaryDispatch? && CrashHandled(net.primary, l.answer, s, c)
    case CrashAtReplica(s, c) => l.ReplicaDispatch? && CrashHandled(net.replicas[l.at].node, l.answer, s, c)
    case ProcessCrashReported(p, c) => l.PrimaryEvent? && l.event == Event(InformProcessCrash, p, Some(c))
    case Escalated(goal, s, c) =>
      || (l.PrimaryDispatch? && CrashHandled(net.primary, l.answer, s, c) && l.answer.action == Some(OwnAction(goal)))
      || (l.ReplicaExecute? && var n := net.replicas[l.at].node;
          n.host == c && n.eq[0].name == s && AsksFor(n.eq[0].kind, goal))
    case PlatformChosen(s) =>
      l.PrimaryDispatch? && CrashHandled(net.primary, l.answer, s, net.primary.host)
      && l.answer.action == Some(D.RestartPlatform)
  }

  function Times(nets: seq<Net>, ls: seq<Step>, o: Occasion, n: nat): nat
    requires IsRun(nets, ls) && n <= |ls|
  {
    if n == 0 then 0
    else
      assert StepAt(nets, ls, n - 1);
      Times(nets, ls, o, n - 1) + if Happens(nets[n - 1], ls[n - 1], o) then 1 else 0
  }

  lemma TimesStep(nets: seq<Net>, ls: seq<Step>, o: Occasion, n: nat)
    requires IsRun(nets, ls) && 0 < n <= |ls|
    ensures Enabled(nets[n - 1], ls[n - 1])
    ensures Times(nets, ls, o, n) == Times(nets, ls, o, n - 1) + Once(nets[n - 1], ls[n - 1], o)
  {
    assert StepAt(nets, ls, n - 1);
  }

  function Once(net: Net, l: Step, o: Occasion): nat
    requires Enabled(net, l)
  {
    if Happens(net, l, o) then 1 else 0
  }

  // ---- The echo of service failures ----

  /** Failures of the service on their way to the primary's handler. */
  function PrimaryBound(net: Net, s: Name, c: Name): nat {
    Count(net.primary.dq, FailedEvent(s, c)) + Total(net.replicas, TowardPrimary(s, c))
  }

  /** Failures of the service on their way to a replica's handler. */
  function ClientBound(net: Net, s: Name, c: Name): nat {
    Total(net.replicas, TowardClients(s, c))
  }

  function Others(net: Net, c: Name): nat {
    Total(net.replicas, Outsiders(c))
  }

  /** All replicas have introduced themselves. */
  ghost predicate AllIntroduced(net: Net) {
    forall i, p :: 0 <= i < |net.replicas| && p in net.replicas[i].up ==> p.kind != ReplicaDescriptor
  }

  predicate Membership(l: Step) {
    l.Connect? || l.Disconnect?
  }

  /**
   What one step does to the failures of a service: handled at the primary, one goes to every
   client of another context; handled at a replica, it comes back.
   */
  ghost predicate EchoStepLaw(net: Net, l: Step, net': Net, s: Name, c: Name)
    requires Enabled(net, l)
  {
    && ClientBound(net', s, c) + Once(net, l, FailureAtReplica(s, c))
       == ClientBound(net, s, c)
          + (if Happens(net, l, FailureAtPrimary(s, c)) || Happens(net, l, CrashAtPrimary(s, c))
                then Others(net, c) else 0)
    && PrimaryBound(net', s, c) + Once(net, l, FailureAtPrimary(s, c))
       == PrimaryBound(net, s, c) + Once(net, l, FailureAtReplica(s, c)) + Once(net, l, CrashAtReplica(s, c))
  }

  /** A failure is announced exactly when one is handled, or a crash of this context's own service. */
  lemma NoticeOfFailure(primary: bool, host: Name, e: Event, answer: Answer, s: Name, c: Name)
    ensures var kind := if primary then InformClientServiceFailed else InformPrimaryServiceFailed;
            Handle(primary, host, e, answer).notice == Some(Packet(kind, s, c))
            <==> e == FailedEvent(s, c) || (e.kind == ServiceCrashed && e.name == s && host == c && answer.Unit?)
    ensures Handle(primary, host, e, answer).notice.Some? && !primary ==>
              Handle(primary, host, e, answer).notice.value.kind == InformPrimaryServiceFailed
  {
  }

  lemma ReplicaReplaced(net: Net, i: nat, r: Replica, s: Name, c: Name)
    requires i < |net.replicas| && r.client.context == net.replicas[i].client.context
    ensures var net' := net.(replicas := net.replicas[i := r]);
            && ClientBound(net', s, c) + Weight(net.replicas[i], TowardClients(s, c))
               == ClientBound(net, s, c) + Weight(r, TowardClients(s, c))
            && PrimaryBound(net', s, c) + Weight(net.replicas[i], TowardPrimary(s, c))
               == PrimaryBound(net, s, c) + Weight(r, TowardPrimary(s, c))
            && Others(net', c) == Others(net, c)
  {
    TotalUpdate(net.replicas, i, r, TowardClients(s, c));
    TotalUpdate(net.replicas, i, r, TowardPrimary(s, c));
    TotalUpdate(net.replicas, i, r, Outsiders(c));
  }

  lemma EchoOfReplicaEvent(net: Net, i: nat, e: Event, s: Name, c: Name)
    requires Enabled(net, ReplicaEvent(i, e))
    ensures EchoStepLaw(net, ReplicaEvent(i, e), Next(net, ReplicaEvent(i, e)), s, c)
    ensures Others(Next(net, ReplicaEvent(i, e)), c) == Others(net, c)
  {
    hide Total, ClientBound, PrimaryBound, Others;
    CountConcat(net.replicas[i].node.dq, [e], FailedEvent(s, c));
    ReplicaReplaced(net, i, ReplicaNext(net.replicas[i], ReplicaEvent(i, e)), s, c);
  }

  lemma EchoOfReceiveDown(net: Net, i: nat, s: Name, c: Name)
    requires Enabled(net, ReceiveDown(i))
    ensures EchoStepLaw(net, ReceiveDown(i), Next(net, ReceiveDown(i)), s, c)
    ensures Others(Next(net, ReceiveDown(i)), c) == Others(net, c)
  {
    hide Total, ClientBound, PrimaryBound, Others;
    var r := net.replicas[i];
    CountPop(r.client.down, Packet(InformClientServiceFailed, s, c));
    CountConcat(r.node.dq, List(FromPrimary(r.client.down[0])), FailedEvent(s, c));
    ReplicaReplaced(net, i, ReplicaNext(r, ReceiveDown(i)), s, c);
  }

  /** What a replica's dispatch does to its failures. */
  lemma DispatchWeighs(r: Replica, i: nat, answer: Answer, s: Name, c: Name)
    requires r.node.dq != []
    ensures var r' := ReplicaNext(r, ReplicaDispatch(i, answer));
            && r'.client == r.client
            && Weight(r', TowardClients(s, c)) + (if r.node.dq[0] == FailedEvent(s, c) then 1 else 0)
               == Weight(r, TowardClients(s, c))
            && Weight(r', TowardPrimary(s, c))
               == Weight(r, TowardPrimary(s, c))
                  + if r.node.dq[0] == FailedEvent(s, c) || CrashHandled(r.node, answer, s, c) then 1 else 0
  {
    var notice := HandleAt(r.node, false, answer).notice;
    NoticeOfFailure(false, r.node.host, r.node.dq[0], answer, s, c);
    CountPop(r.node.dq, FailedEvent(s, c));
    CountConcat(r.up, List(notice), Packet(InformPrimaryServiceFailed, s, c));
    CountList(notice, Packet(InformPrimaryServiceFailed, s, c));
  }

  lemma EchoOfReplicaDispatch(net: Net, i: nat, answer: Answer, s: Name, c: Name)
    requires Enabled(net, ReplicaDispatch(i, answer))
    ensures EchoStepLaw(net, ReplicaDispatch(i, answer), Next(net, ReplicaDispatch(i, answer)), s, c)
    ensures Others(Next(net, ReplicaDispatch(i, answer)), c) == Others(net, c)
  {
    hide Weight, Total, ClientBound, PrimaryBound, Others, ReplicaNext;
    var r := net.replicas[i];
    DispatchWeighs(r, i, answer, s, c);
    ReplicaReplaced(net, i, ReplicaNext(r, ReplicaDispatch(i, answer)), s, c);
  }

  lemma EchoOfReplicaExecute(net: Net, i: nat, s: Name, c: Name)
    requires Enabled(net, ReplicaExecute(i))
    ensures EchoStepLaw(net, ReplicaExecute(i), Next(net, ReplicaExecute(i)), s, c)
    ensures Others(Next(net, ReplicaExecute(i)), c) == Others(net, c)
  {
    hide Total, ClientBound, PrimaryBound, Others;
    var r := net.replicas[i];
    CountConcat(r.up, List(ExecuteAt(r.node, false).request), Packet(InformPrimaryServiceFailed, s, c));
    ReplicaReplaced(net, i, ReplicaNext(r, ReplicaExecute(i)), s, c);
  }

  /** A packet taken from the connection is an event in the primary's queue if it is a failure. */
  lemma ReceivedFailure(up: seq<Packet>, dq: seq<Event>, s: Name, c: Name)
    requires up != []
    ensures Count(dq + List(FromReplica(up[0])), FailedEvent(s, c))
            + Count(up[1..], Packet(InformPrimaryServiceFailed, s, c))
         == Count(dq, FailedEvent(s, c)) + Count(up, Packet(InformPrimaryServiceFailed, s, c))
  {
    CountPop(up, Packet(InformPrimaryServiceFailed, s, c));
    CountConcat(dq, List(FromReplica(up[0])), FailedEvent(s, c));
  }

  lemma EchoOfReceiveUp(net: Net, i: nat, s: Name, c: Name)
    requires Enabled(net, ReceiveUp(i))
    ensures EchoStepLaw(net, ReceiveUp(i), Next(net, ReceiveUp(i)), s, c)
    ensures net.replicas[i].up[0].kind != ReplicaDescriptor ==> Others(Next(net, ReceiveUp(i)), c) == Others(net, c)
  {
    hide Total, FromReplica, Count;
    var r, r' := net.replicas[i], ReplicaNext(net.replicas[i], ReceiveUp(i));
    ReceivedFailure(r.up, net.primary.dq, s, c);
    TotalUpdate(net.replicas, i, r', TowardClients(s, c));
    TotalUpdate(net.replicas, i, r', TowardPrimary(s, c));
    TotalUpdate(net.replicas, i, r', Outsiders(c));
  }

  /** What a dispatch at the primary does to the failures in its queue, and to those of the clients. */
  lemma DispatchSpreads(net: Net, answer: Answer, s: Name, c: Name)
    requires net.primary.dq != []
    ensures var n, rs := net.primary, Notified(net.replicas, HandleAt(net.primary, true, answer).notice);
            && Count(n.dq, FailedEvent(s, c))
               == (if n.dq[0] == FailedEvent(s, c) then 1 else 0) + Count(n.dq[1..], FailedEvent(s, c))
            && Total(rs, TowardClients(s, c))
               == Total(net.replicas, TowardClients(s, c))
                  + (if n.dq[0] == FailedEvent(s, c) || CrashHandled(n, answer, s, c)
                     then Total(net.replicas, Outsiders(c)) else 0)
            && Total(rs, TowardPrimary(s, c)) == Total(net.replicas, TowardPrimary(s, c))
            && Total(rs, Outsiders(c)) == Total(net.replicas, Outsiders(c))
  {
    hide Total, Count, Notified;
    var notice := HandleAt(net.primary, true, answer).notice;
    NoticeOfFailure(true, net.primary.host, net.primary.dq[0], answer, s, c);
    CountPop(net.primary.dq, FailedEvent(s, c));
    TotalNotified(net.replicas, notice, TowardClients(s, c));
    TotalNotified(net.replicas, notice, TowardPrimary(s, c));
    TotalNotified(net.replicas, notice, Outsiders(c));
  }

  lemma EchoOfPrimaryDispatch(net: Net, answer: Answer, s: Name, c: Name)
    requires Enabled(net, PrimaryDispatch(answer))
    ensures EchoStepLaw(net, PrimaryDispatch(answer), Next(net, PrimaryDispatch(answer)), s, c)
    ensures Others(Next(net, PrimaryDispatch(answer)), c) == Others(net, c)
  {
    hide Total, Count, Notified, Handle;
    DispatchSpreads(net, answer, s, c);
  }

  lemma StaysIntroduced(net: Net, l: Step)
    requires Enabled(net, l) && !Membership(l) && AllIntroduced(net)
    ensures AllIntroduced(Next(net, l))
  {
    if l.ReplicaExecute? {
      var x := ExecuteAt(net.replicas[l.at].node, false);
      assert x.request.Some? ==> x.request.value.kind != ReplicaDescriptor;
    } else if l.ReplicaDispatch? {
      var n := net.replicas[l.at].node;
      NoticeOfFailure(false, n.host, n.dq[0], l.answer, n.host, n.host);
    }
  }

  lemma EchoStep(net: Net, l: Step, s: Name, c: Name)
    requires Enabled(net, l) && !Membership(l)
    ensures EchoStepLaw(net, l, Next(net, l), s, c)
    ensures AllIntroduced(net) ==> Others(Next(net, l), c) == Others(net, c)
  {
    match l
    case PrimaryEvent(e) => CountConcat(net.primary.dq, [e], FailedEvent(s, c));
    case PrimaryDispatch(answer) => EchoOfPrimaryDispatch(net, answer, s, c);
    case PrimaryExecute =>
    case ReceiveUp(i) => EchoOfReceiveUp(net, i, s, c);
    case ReplicaEvent(i, e) => EchoOfReplicaEvent(net, i, e, s, c);
    case ReceiveDown(i) => EchoOfReceiveDown(net, i, s, c);
    case ReplicaDispatch(i, answer) => EchoOfReplicaDispatch(net, i, answer, s, c);
    case ReplicaExecute(i) => EchoOfReplicaExecute(net, i, s, c);
  }

  lemma EchoStepAt(nets: seq<Net>, ls: seq<Step>, i: nat, s: Name, c: Name)
    requires IsRun(nets, ls) && i < |ls| && !Membership(ls[i]) && AllIntroduced(nets[i])
    ensures Enabled(nets[i], ls[i]) && EchoStepLaw(nets[i], ls[i], nets[i + 1], s, c)
    ensures AllIntroduced(nets[i + 1]) && Others(nets[i + 1], c) == Others(nets[i], c)
  {
    assert StepAt(nets, ls, i);
    EchoStep(nets[i], ls[i], s, c);
    StaysIntroduced(nets[i], ls[i]);
  }
}
