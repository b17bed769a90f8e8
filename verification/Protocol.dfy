/**
 The primary and its replicas.

 Every instance has two queues: the dispatcher's events and the executor's jobs.  A replica sends
 packets up to the primary, the primary sends packets down to its clients.  `Handle` and `Execute`
 are the two handlers of an instance; `Next` is one step of the whole network.

 Connections carry packets in order, and a send succeeds.
 */
module Protocol {
  import opened Common
  import D = Daemon
  import J = Journal

  /** Names that a packet carries unchanged (`Message.DataSurvivesIff`). */
  type Name = s: string | 0 < |s| <= 129 witness "host"

  datatype EventKind =
    | InformProcessCrash | InformServiceFailed
    | ServiceCrashed | ServiceRestarted
    | RemoteContextRestart | RemotePlatformRestart | RemoteFactoryReset

  /** `name` is the process of a process crash and the service of anything else. */
  datatype Event = Event(kind: EventKind, name: Name, context: Option<Name>)

  datatype JobKind = FriendProcessCrash | FriendServiceFailed | Recovery(event: D.ExecutorEvent)

  datatype Job = Job(kind: JobKind, name: Name, context: Option<Name>)

  datatype PacketKind =
    | ReplicaDescriptor | RequestContextRestart | RequestPlatformRestart | RequestFactoryReset
    | InformPrimaryServiceFailed
    | CrashOfProcess | InformClientServiceFailed

  datatype Packet = Packet(kind: PacketKind, name: Name, context: Name)

  /** `cause` is the service on whose behalf something larger is restarted. */
  datatype Effect =
    | UnitRestarted(service: Name) | PublicDataReset(service: Name) | PrivateDataReset(service: Name)
    | FriendsLookedUp(kind: J.FriendType, name: Name, context: Option<Name>)
    | ContainerShutdown(container: Name, cause: Name) | PlatformRestarted(cause: Name)
    | FactoryResetDone(cause: Name, asker: Option<Name>)
    | Meditation                                 // SIGTERM to itself: the instance stops

  /** The journal's answer to a crash: no unit, or a unit and perhaps an action to run. */
  datatype Answer = NoUnit | Unit(action: Option<D.ExecutorEvent>)

  // ---- The dispatcher ----

  datatype Handling = Handling(jobs: seq<Job>, notice: Option<Packet>)

  /** A failed service is announced to the others, and handled here when it is somebody else's. */
  function Failed(primary: bool, host: Name, service: Name, context: Option<Name>): Handling {
    match context
    case None => Handling([], None)              // refused by the setter's assertion
    case Some(c) =>
      Handling(if c == host then [] else [Job(FriendServiceFailed, service, context)],
               Some(Packet(if primary then InformClientServiceFailed else InformPrimaryServiceFailed, service, c)))
  }

  function Handle(primary: bool, host: Name, e: Event, answer: Answer): Handling {
    match e.kind
    case InformProcessCrash =>
      Handling([Job(FriendProcessCrash, e.name, e.context)],
               if primary && e.context.Some? then Some(Packet(CrashOfProcess, e.name, e.context.value)) else None)
    case InformServiceFailed => Failed(primary, host, e.name, e.context)
    case ServiceCrashed =>
      (match answer
       case NoUnit => Handling([], None)
       case Unit(action) =>
         // the event is queued first and given its context afterwards, before the executor runs
         var failed := Failed(primary, host, e.name, Some(host));
         var jobs := match action case Some(a) => [Job(Recovery(a), e.name, Some(host))] case None => [];
         failed.(jobs := jobs + failed.jobs))
    case ServiceRestarted => Handling([], None)
    case RemoteContextRestart => Handling([Job(Recovery(D.RestartContext), e.name, e.context)], None)
    case RemotePlatformRestart => Handling([Job(Recovery(D.RestartPlatform), e.name, e.context)], None)
    case RemoteFactoryReset => Handling([Job(Recovery(D.ResetFactory), e.name, e.context)], None)
  }

  // ---- The executor ----

  datatype Execution = Execution(effects: seq<Effect>, request: Option<Packet>)

  function Execute(primary: bool, host: Name, j: Job): Execution {
    match j.kind
    case FriendProcessCrash => Execution([FriendsLookedUp(J.FriendProcess, j.name, j.context)], None)
    case FriendServiceFailed => Execution([FriendsLookedUp(J.FriendService, j.name, j.context)], None)
    case Recovery(event) =>
      match event
      case RestartService => Execution([UnitRestarted(j.name)], None)
      case ResetPublic => Execution([PublicDataReset(j.name), UnitRestarted(j.name)], None)
      case ResetPrivate => Execution([PrivateDataReset(j.name), UnitRestarted(j.name)], None)
      case DisableService' => Execution([], None)
      case RestartContext =>
        if !primary then Execution([Meditation], Some(Packet(RequestContextRestart, j.name, host)))
        else if j.context.None? then Execution([PlatformRestarted(j.name)], None)
        else Execution([ContainerShutdown(j.context.value, j.name)], None)
      case RestartPlatform =>
        if primary then Execution([PlatformRestarted(j.name), Meditation], None)
        else Execution([Meditation], Some(Packet(RequestPlatformRestart, j.name, host)))
      case ResetFactory =>
        if primary then Execution([FactoryResetDone(j.name, j.context), Meditation], None)
        else Execution([Meditation], Some(Packet(RequestFactoryReset, j.name, host)))
  }

  // ---- Packets that arrive ----

  /** At the primary.  A request to restart the platform becomes a context restart. */
  function FromReplica(p: Packet): Option<Event> {
    match p.kind
    case RequestContextRestart | RequestPlatformRestart => Some(Event(RemoteContextRestart, p.name, Some(p.context)))
    case RequestFactoryReset => Some(Event(RemoteFactoryReset, p.name, Some(p.context)))
    case InformPrimaryServiceFailed => Some(Event(InformServiceFailed, p.name, Some(p.context)))
    case ReplicaDescriptor | CrashOfProcess | InformClientServiceFailed => None
  }

  /** At a replica. */
  function FromPrimary(p: Packet): Option<Event> {
    match p.kind
    case CrashOfProcess => Some(Event(InformProcessCrash, p.name, Some(p.context)))
    case InformClientServiceFailed => Some(Event(InformServiceFailed, p.name, Some(p.context)))
    case _ => None
  }

  // ---- The network ----

  datatype Node = Node(host: Name, dq: seq<Event>, eq: seq<Job>, effects: seq<Effect>)

  /** The primary's end of a connection: the context name it was told, and what it has sent. */
  datatype Client = Client(context: Option<Name>, down: seq<Packet>)

  /** A connected replica. */
  datatype Replica = Replica(node: Node, client: Client, up: seq<Packet>)

  datatype Net = Net(primary: Node, replicas: seq<Replica>)

  datatype Step =
    | Connect(host: Name)
    | Disconnect(at: nat)
    | PrimaryEvent(event: Event)
    | ReplicaEvent(at: nat, event: Event)
    | ReceiveUp(at: nat)
    | ReceiveDown(at: nat)
    | PrimaryDispatch(answer: Answer)
    | ReplicaDispatch(at: nat, answer: Answer)
    | PrimaryExecute
    | ReplicaExecute(at: nat)

  function List<T>(o: Option<T>): seq<T> {
    match o case Some(x) => [x] case None => []
  }

  /** A service failure is not sent to the client of its own context. */
  predicate Wants(client: Client, p: Packet) {
    p.kind == InformClientServiceFailed ==> client.context != Some(p.context)
  }

  function Informed(client: Client, notice: Option<Packet>): Client {
    match notice
    case Some(p) => if Wants(client, p) then client.(down := client.down + [p]) else client
    case None => client
  }

  function Notified(rs: seq<Replica>, notice: Option<Packet>): seq<Replica> {
    seq(|rs|, i requires 0 <= i < |rs| => rs[i].(client := Informed(rs[i].client, notice)))
  }

  /** Crashes and restarts come from the monitor; process crashes from the crash manager, at the primary only. */
  predicate Local(e: Event, primary: bool) {
    || (e.kind == ServiceCrashed && e.context == None) || (e.kind == ServiceRestarted && e.context == None)
    || (primary && e.kind == InformProcessCrash && e.context.Some?)
  }

  predicate Enabled(net: Net, l: Step) {
    match l
    case Connect(_) => true
    case Disconnect(i) => i < |net.replicas|
    case PrimaryEvent(e) => Local(e, true)
    case ReplicaEvent(i, e) => i < |net.replicas| && Local(e, false)
    case ReceiveUp(i) => i < |net.replicas| && net.replicas[i].up != []
    case ReceiveDown(i) => i < |net.replicas| && net.replicas[i].client.down != []
    case PrimaryDispatch(_) => net.primary.dq != []
    case ReplicaDispatch(i, _) => i < |net.replicas| && net.replicas[i].node.dq != []
    case PrimaryExecute => net.primary.eq != []
    case ReplicaExecute(i) => i < |net.replicas| && net.replicas[i].node.eq != []
  }

  function Pushed(n: Node, events: seq<Event>): Node {
    n.(dq := n.dq + events)
  }

  function Dispatched(n: Node, h: Handling): Node
    requires n.dq != []
  {
    n.(dq := n.dq[1..], eq := n.eq + h.jobs)
  }

  function Executed(n: Node, x: Execution): Node
    requires n.eq != []
  {
    n.(eq := n.eq[1..], effects := n.effects + x.effects)
  }

  function HandleAt(n: Node, primary: bool, answer: Answer): Handling
    requires n.dq != []
  {
    Handle(primary, n.host, n.dq[0], answer)
  }

  function ExecuteAt(n: Node, primary: bool): Execution
    requires n.eq != []
  {
    Execute(primary, n.host, n.eq[0])
  }

  function Introduced(client: Client, p: Packet): Client {
    if p.kind == ReplicaDescriptor then client.(context := Some(p.context)) else client
  }

  /** One step that concerns a replica and its connection. */
  function ReplicaNext(r: Replica, l: Step): Replica
    requires l.ReplicaEvent? || l.ReceiveUp? || l.ReceiveDown? || l.ReplicaDispatch? || l.ReplicaExecute?
    requires l.ReceiveUp? ==> r.up != []
    requires l.ReceiveDown? ==> r.client.down != []
    requires l.ReplicaDispatch? ==> r.node.dq != []
    requires l.ReplicaExecute? ==> r.node.eq != []
  {
    match l
    case ReplicaEvent(_, e) => r.(node := Pushed(r.node, [e]))
    case ReceiveUp(_) =>
      r.(up := r.up[1..], client := Introduced(r.client, r.up[0]))
    case ReceiveDown(_) =>
      r.(client := r.client.(down := r.client.down[1..]), node := Pushed(r.node, List(FromPrimary(r.client.down[0]))))
    case ReplicaDispatch(_, answer) =>
      var h := HandleAt(r.node, false, answer);
      r.(node := Dispatched(r.node, h), up := r.up + List(h.notice))
    case ReplicaExecute(_) =>
      var x := ExecuteAt(r.node, false);
      r.(node := Executed(r.node, x), up := r.up + List(x.request))
  }

  /** A replica introduces itself as soon as it has connected. */
  function NewReplica(host: Name): Replica {
    Replica(Node(host, [], [], []), Client(None, []), [Packet(ReplicaDescriptor, host, host)])
  }

  function Next(net: Net, l: Step): Net
    requires Enabled(net, l)
  {
    match l
    case Connect(host) => net.(replicas := net.replicas + [NewReplica(host)])
    case Disconnect(i) => net.(replicas := net.replicas[..i] + net.replicas[i + 1..])
    case PrimaryEvent(e) => net.(primary := Pushed(net.primary, [e]))
    case PrimaryDispatch(answer) =>
      var h := HandleAt(net.primary, true, answer);
      Net(Dispatched(net.primary, h), Notified(net.replicas, h.notice))
    case PrimaryExecute => net.(primary := Executed(net.primary, ExecuteAt(net.primary, true)))
    case ReceiveUp(i) =>
      Net(Pushed(net.primary, List(FromReplica(net.replicas[i].up[0]))),
          net.replicas[i := ReplicaNext(net.replicas[i], l)])
    case ReplicaEvent(i, _) => net.(replicas := net.replicas[i := ReplicaNext(net.replicas[i], l)])
    case ReceiveDown(i) => net.(replicas := net.replicas[i := ReplicaNext(net.replicas[i], l)])
    case ReplicaDispatch(i, _) => net.(replicas := net.replicas[i := ReplicaNext(net.replicas[i], l)])
    case ReplicaExecute(i) => net.(replicas := net.replicas[i := ReplicaNext(net.replicas[i], l)])
  }

  ghost predicate StepAt(nets: seq<Net>, ls: seq<Step>, i: nat)
    requires |nets| == |ls| + 1 && i < |ls|
  {
    Enabled(nets[i], ls[i]) && nets[i + 1] == Next(nets[i], ls[i])
  }

  ghost predicate IsRun(nets: seq<Net>, ls: seq<Step>) {
    && |nets| == |ls| + 1
    && forall i :: 0 <= i < |ls| ==> StepAt(nets, ls, i)
  }

  function Start(host: Name): Net {
    Net(Node(host, [], [], []), [])
  }

  // ---- Roles ----

  predicate EventSafe(primary: bool, e: Event) {
    && e.kind != RemotePlatformRestart
    && (!primary ==> e.kind != RemoteContextRestart && e.kind != RemoteFactoryReset)
    && (e.context.None? ==> e.kind == ServiceCrashed || e.kind == ServiceRestarted)
  }

  /** A platform restart is only ever asked for by the instance itself. */
  predicate JobSafe(host: Name, j: Job) {
    && j.context.Some?
    && (j.kind == FriendServiceFailed ==> j.context != Some(host))
    && (j.kind == Recovery(D.RestartPlatform) ==> j.context == Some(host))
  }

  predicate EffectSafe(primary: bool, host: Name, x: Effect) {
    && (x.ContainerShutdown? || x.PlatformRestarted? || x.FactoryResetDone? ==> primary)
    && (x.FriendsLookedUp? && x.kind == J.FriendService ==> x.context != Some(host))
  }

  ghost predicate NodeSafe(primary: bool, n: Node) {
    && (forall e :: e in n.dq ==> EventSafe(primary, e))
    && (forall j :: j in n.eq ==> JobSafe(n.host, j))
    && (forall x :: x in n.effects ==> EffectSafe(primary, n.host, x))
  }

  predicate FlowsUp(p: Packet) {
    p.kind != CrashOfProcess && p.kind != InformClientServiceFailed
  }

  predicate FlowsDown(p: Packet) {
    p.kind == CrashOfProcess || p.kind == InformClientServiceFailed
  }

  ghost predicate ReplicaSafe(r: Replica) {
    && NodeSafe(false, r.node)
    && (forall p :: p in r.up ==> FlowsUp(p))
    && (forall p :: p in r.client.down ==> FlowsDown(p))
  }

  ghost predicate Safe(net: Net) {
    NodeSafe(true, net.primary) && forall i :: 0 <= i < |net.replicas| ==> ReplicaSafe(net.replicas[i])
  }

  lemma HandleSafe(primary: bool, host: Name, e: Event, answer: Answer)
    requires EventSafe(primary, e)
    ensures var h := Handle(primary, host, e, answer);
            && (forall j :: j in h.jobs ==> JobSafe(host, j))
            && (h.notice.Some? ==> if primary then FlowsDown(h.notice.value) else FlowsUp(h.notice.value))
  {
  }

  lemma ExecuteSafe(primary: bool, host: Name, j: Job)
    requires JobSafe(host, j)
    ensures var x := Execute(primary, host, j);
            && (forall y :: y in x.effects ==> EffectSafe(primary, host, y))
            && (x.request.Some? ==> !primary && FlowsUp(x.request.value) && x.request.value.context == host)
  {
  }

  lemma DispatchedSafe(primary: bool, n: Node, answer: Answer)
    requires NodeSafe(primary, n) && n.dq != []
    ensures NodeSafe(primary, Dispatched(n, HandleAt(n, primary, answer)))
  {
    HandleSafe(primary, n.host, n.dq[0], answer);
  }

  lemma ExecutedSafe(primary: bool, n: Node)
    requires NodeSafe(primary, n) && n.eq != []
    ensures NodeSafe(primary, Executed(n, ExecuteAt(n, primary)))
  {
    ExecuteSafe(primary, n.host, n.eq[0]);
  }

  lemma ReplicaStepSafe(net: Net, i: nat, l: Step)
    requires i < |net.replicas| && ReplicaSafe(net.replicas[i]) && Enabled(net, l)
    requires l == ReceiveUp(i) || l == ReceiveDown(i) || l == ReplicaExecute(i)
          || (l.ReplicaEvent? && l.at == i) || (l.ReplicaDispatch? && l.at == i)
    ensures ReplicaSafe(ReplicaNext(net.replicas[i], l))
  {
    var r := net.replicas[i];
    match l
    case ReplicaEvent(_, _) =>
    case ReceiveUp(_) =>
    case ReceiveDown(_) =>
    case ReplicaDispatch(_, answer) =>
      DispatchedSafe(false, r.node, answer);
      HandleSafe(false, r.node.host, r.node.dq[0], answer);
    case ReplicaExecute(_) =>
      ExecutedSafe(false, r.node);
      ExecuteSafe(false, r.node.host, r.node.eq[0]);
  }

  lemma PrimaryStepSafe(net: Net, l: Step)
    requires Safe(net) && Enabled(net, l) && (l.PrimaryEvent? || l.PrimaryDispatch? || l.PrimaryExecute?)
    ensures Safe(Next(net, l))
  {
    match l
    case PrimaryEvent(_) =>
    case PrimaryDispatch(answer) =>
      DispatchedSafe(true, net.primary, answer);
      HandleSafe(true, net.primary.host, net.primary.dq[0], answer);
    case PrimaryExecute => ExecutedSafe(true, net.primary);
  }

  lemma StepSafe(net: Net, l: Step)
    requires Safe(net) && Enabled(net, l)
    ensures Safe(Next(net, l))
  {
    match l
    case Connect(_) =>
    case Disconnect(_) =>
    case PrimaryEvent(_) => PrimaryStepSafe(net, l);
    case PrimaryDispatch(_) => PrimaryStepSafe(net, l);
    case PrimaryExecute => PrimaryStepSafe(net, l);
    case ReplicaEvent(i, _) => ReplicaStepSafe(net, i, l);
    case ReceiveUp(i) => ReplicaStepSafe(net, i, l);
    case ReceiveDown(i) => ReplicaStepSafe(net, i, l);
    case ReplicaDispatch(i, _) => ReplicaStepSafe(net, i, l);
    case ReplicaExecute(i) => ReplicaStepSafe(net, i, l);
  }

  /**
   Role safety.  In every run from the start: containers, the platform and factory data are touched
   by the primary alone, no event asks for a remote platform restart, and no executor looks up
   friends of a service of its own context.
   */
  lemma {:induction false} RolesAreKept(nets: seq<Net>, ls: seq<Step>, n: nat)
    requires IsRun(nets, ls) && n <= |ls| && nets[0] == Start(nets[0].primary.host)
    ensures Safe(nets[n])
    decreases n
  {
    if n > 0 {
      RolesAreKept(nets, ls, n - 1);
      assert StepAt(nets, ls, n - 1);
      StepSafe(nets[n - 1], ls[n - 1]);
    }
  }

  /**
   A context restart taken from the primary's queue has its context, so it always shuts down a
   container and the branch that restarts the platform instead is never taken.
   */
  lemma ContextRestartHasContext(nets: seq<Net>, ls: seq<Step>, n: nat)
    requires IsRun(nets, ls) && n < |ls| && nets[0] == Start(nets[0].primary.host)
    requires ls[n] == PrimaryExecute && nets[n].primary.eq != []
    requires nets[n].primary.eq[0].kind == Recovery(D.RestartContext)
    ensures var j := nets[n].primary.eq[0];
            && j.context.Some?
            && nets[n + 1].primary.effects == nets[n].primary.effects + [ContainerShutdown(j.context.value, j.name)]
  {
    RolesAreKept(nets, ls, n);
    assert StepAt(nets, ls, n);
    assert nets[n].primary.eq[0] in nets[n].primary.eq;
  }

  // ---- Names ----

  predicate Introduces(ps: seq<Packet>) {
    exists p :: p in ps && p.kind == ReplicaDescriptor
  }

  /** The primary knows a replica by its own host, or will as soon as it reads the connection. */
  ghost predicate Known(r: Replica) {
    || (r.client.context == Some(r.node.host) && !Introduces(r.up))
    || (r.client.context == None && r.up != [] && r.up[0] == Packet(ReplicaDescriptor, r.node.host, r.node.host)
        && !Introduces(r.up[1..]))
  }

  lemma SentIsNoIntroduction(host: Name, e: Event, j: Job, answer: Answer)
    ensures !Introduces(List(Handle(false, host, e, answer).notice))
    ensures !Introduces(List(Execute(false, host, j).request))
  {
  }

  lemma KnownAfterSending(r: Replica, n: Node, ps: seq<Packet>)
    requires Known(r) && n.host == r.node.host && !Introduces(ps)
    ensures Known(r.(node := n, up := r.up + ps))
  {
    assert r.up != [] ==> (r.up + ps)[1..] == r.up[1..] + ps;
  }

  lemma KnownStep(r: Replica, l: Step)
    requires Known(r) && (l.ReplicaEvent? || l.ReceiveUp? || l.ReceiveDown? || l.ReplicaDispatch? || l.ReplicaExecute?)
    requires (l.ReceiveUp? ==> r.up != []) && (l.ReceiveDown? ==> r.client.down != [])
    requires (l.ReplicaDispatch? ==> r.node.dq != []) && (l.ReplicaExecute? ==> r.node.eq != [])
    ensures Known(ReplicaNext(r, l)) && ReplicaNext(r, l).node.host == r.node.host
  {
    hide Handle, Execute, FromPrimary;
    match l
    case ReplicaEvent(_, _) =>
    case ReceiveUp(_) => assert r.up[0] in r.up;
    case ReceiveDown(_) =>
    case ReplicaDispatch(_, answer) =>
      SentIsNoIntroduction(r.node.host, r.node.dq[0], Job(FriendServiceFailed, r.node.host, None), answer);
      var h := HandleAt(r.node, false, answer);
      KnownAfterSending(r, Dispatched(r.node, h), List(h.notice));
    case ReplicaExecute(_) =>
      SentIsNoIntroduction(r.node.host, Event(ServiceRestarted, r.node.host, None), r.node.eq[0], NoUnit);
      var x := ExecuteAt(r.node, false);
      KnownAfterSending(r, Executed(r.node, x), List(x.request));
  }

  ghost predicate AllKnown(net: Net) {
    forall i :: 0 <= i < |net.replicas| ==> Known(net.replicas[i])
  }

  lemma NewIsKnown(host: Name)
    ensures Known(NewReplica(host))
  {
  }

  lemma NotifiedKnown(rs: seq<Replica>, notice: Option<Packet>)
    requires forall i :: 0 <= i < |rs| ==> Known(rs[i])
    ensures forall i :: 0 <= i < |rs| ==> Known(Notified(rs, notice)[i])
  {
  }

  lemma AllKnownStep(net: Net, l: Step)
    requires AllKnown(net) && Enabled(net, l)
    ensures AllKnown(Next(net, l))
  {
    hide Known, ReplicaNext, Handle, Execute;
    match l
    case Connect(host) => NewIsKnown(host);
    case Disconnect(_) =>
    case PrimaryEvent(_) =>
    case PrimaryDispatch(answer) => NotifiedKnown(net.replicas, HandleAt(net.primary, true, answer).notice);
    case PrimaryExecute =>
    case _ => KnownStep(net.replicas[l.at], l);
  }

  /**
   In every run from the start the primary knows each client by the name of its own context, or by
   none while its introduction is the next packet on the connection.
   */
  lemma {:induction false} ContextsAreTrue(nets: seq<Net>, ls: seq<Step>, n: nat)
    requires IsRun(nets, ls) && n <= |ls| && nets[0] == Start(nets[0].primary.host)
    ensures AllKnown(nets[n])
    decreases n
  {
    hide Known, Next;
    if n > 0 {
      ContextsAreTrue(nets, ls, n - 1);
      assert StepAt(nets, ls, n - 1);
      AllKnownStep(nets[n - 1], ls[n - 1]);
    }
  }
}
