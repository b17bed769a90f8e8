/**
 One instance in memory.  The dispatcher's queue and the executor's queue hold references to the
 same reference-counted event objects; a handler may write to an event that it has queued already.

 Every access requires a live object (rc > 0), so that verification excludes any use after the
 free.  `Owned` is the ownership law: the count of an event is the number of places that hold it.
 Read as values, the queues do what `Protocol` says.
 */
module Instance {
  import opened Common
  import opened Protocol
  import D = Daemon
  import J = Journal

  class DEvent {
    const kind: EventKind
    var service: Option<Name>
    var process: Option<Name>
    var context: Option<Name>
    var rc: nat

    constructor (kind: EventKind)
      ensures this.kind == kind && rc == 1
      ensures service == None && process == None && context == None
    {
      this.kind := kind;
      service, process, context := None, None, None;
      rc := 1;
    }

    method Ref()
      requires rc > 0
      modifies this`rc
      ensures rc == old(rc) + 1
    {
      rc := rc + 1;
    }

    /** The last reference frees the object. */
    method Unref() returns (freed: bool)
      requires rc > 0
      modifies this`rc
      ensures rc == old(rc) - 1 && (freed <==> rc == 0)
    {
      rc := rc - 1;
      freed := rc == 0;
    }

    method SetServiceName(name: Name)
      requires rc > 0
      modifies this`service
      ensures service == Some(name)
    {
      service := Some(name);
    }

    method SetProcessName(name: Name)
      requires rc > 0
      modifies this`process
      ensures process == Some(name)
    {
      process := Some(name);
    }

    method SetContextName(name: Name)
      requires rc > 0
      modifies this`context
      ensures context == Some(name)
    {
      context := Some(name);
    }

    predicate Named()
      reads this`service, this`process
    {
      if kind == InformProcessCrash then process.Some? else service.Some?
    }

    function Name(): Name
      requires Named() && rc > 0
      reads this
    {
      if kind == InformProcessCrash then process.value else service.value
    }

    function Context(): Option<Name>
      requires rc > 0
      reads this
    {
      context
    }

    /** The event as a value. */
    ghost function View(): Event
      requires Named()
      reads this`service, this`process, this`context
    {
      Event(kind, if kind == InformProcessCrash then process.value else service.value, context)
    }
  }

  /** An entry of the executor's queue; it holds a reference to the event. */
  datatype Entry = Entry(kind: JobKind, event: DEvent)

  function Holders(eq: seq<Entry>): seq<DEvent> {
    seq(|eq|, i requires 0 <= i < |eq| => eq[i].event)
  }

  ghost predicate AllNamed(es: seq<DEvent>)
    reads es`service, es`process
  {
    forall i :: 0 <= i < |es| ==> es[i].Named()
  }

  ghost function EventsOf(es: seq<DEvent>): (r: seq<Event>)
    requires AllNamed(es)
    reads es`service, es`process, es`context
    ensures |r| == |es|
  {
    if es == [] then [] else [es[0].View()] + EventsOf(es[1..])
  }

  function WithKinds(eq: seq<Entry>, es: seq<Event>): seq<Job>
    requires |eq| == |es|
  {
    seq(|eq|, i requires 0 <= i < |eq| => Job(eq[i].kind, es[i].name, es[i].context))
  }

  ghost function JobsOf(eq: seq<Entry>): seq<Job>
    requires AllNamed(Holders(eq))
    reads Holders(eq)`service, Holders(eq)`process, Holders(eq)`context
  {
    WithKinds(eq, EventsOf(Holders(eq)))
  }

  lemma {:induction false} EventsOfAppend(es: seq<DEvent>, e: DEvent)
    requires AllNamed(es) && e.Named()
    ensures AllNamed(es + [e]) && EventsOf(es + [e]) == EventsOf(es) + [e.View()]
  {
    if es == [] {
      assert es + [e] == [e] && [e][1..] == [];
    } else {
      assert (es + [e])[1..] == es[1..] + [e];
      EventsOfAppend(es[1..], e);
    }
  }

  function JobWith(kind: JobKind, e: Event): Job {
    Job(kind, e.name, e.context)
  }

  lemma JobsOfAppend(eq: seq<Entry>, x: Entry)
    requires AllNamed(Holders(eq)) && x.event.Named()
    ensures Holders(eq + [x]) == Holders(eq) + [x.event] && AllNamed(Holders(eq + [x]))
    ensures JobsOf(eq + [x]) == JobsOf(eq) + [JobWith(x.kind, x.event.View())]
  {
    assert Holders(eq + [x]) == Holders(eq) + [x.event];
    EventsOfAppend(Holders(eq), x.event);
  }

  lemma JobsOfTail(eq: seq<Entry>)
    requires AllNamed(Holders(eq)) && eq != []
    ensures Holders(eq[1..]) == Holders(eq)[1..] && AllNamed(Holders(eq[1..]))
    ensures |JobsOf(eq)| == |eq| && JobsOf(eq[1..]) == JobsOf(eq)[1..]
    ensures JobsOf(eq)[0] == JobWith(eq[0].kind, eq[0].event.View())
  {
    assert Holders(eq[1..]) == Holders(eq)[1..];
  }

  /** Events whose names and context nobody has touched. */
  twostate lemma {:induction false} SameEvents(es: seq<DEvent>)
    requires old(AllNamed(es))
    requires forall e :: e in es ==>
               (e.service == old(e.service) && e.process == old(e.process) && e.context == old(e.context))
    ensures AllNamed(es) && EventsOf(es) == old(EventsOf(es))
  {
    if es != [] {
      assert forall e :: e in es[1..] ==> e in es;
      assert es[0] in es && old(es[0].Named());
      SameEvents(es[1..]);
    }
  }

  /** The last entry's event is given its context after it was queued: the queue sees it, the others do not change. */
  twostate lemma ContextSeen(eq: seq<Entry>)
    requires eq != [] && eq[|eq| - 1].event !in Holders(eq[..|eq| - 1])
    requires old(AllNamed(Holders(eq[..|eq| - 1]))) && eq[|eq| - 1].event.Named()
    requires forall e :: e in Holders(eq[..|eq| - 1]) ==>
               (e.service == old(e.service) && e.process == old(e.process) && e.context == old(e.context))
    ensures AllNamed(Holders(eq[..|eq| - 1])) && AllNamed(Holders(eq))
    ensures JobsOf(eq[..|eq| - 1]) == old(JobsOf(eq[..|eq| - 1]))
    ensures JobsOf(eq) == JobsOf(eq[..|eq| - 1]) + [JobWith(eq[|eq| - 1].kind, eq[|eq| - 1].event.View())]
  {
    var front, x := eq[..|eq| - 1], eq[|eq| - 1];
    SameEvents(Holders(front));
    JobsOfAppend(front, x);
    assert eq == front + [x];
  }

  // ---- Ownership ----

  /** How many places hold the event: the queues, and the handlers in `held`. */
  ghost function HoldersOf(e: DEvent, dq: seq<DEvent>, eq: seq<Entry>, held: multiset<DEvent>): nat {
    multiset(dq)[e] + multiset(Holders(eq))[e] + held[e]
  }

  /** The ownership law: the count of every event ever made is the number of its holders. */
  ghost predicate Owned(events: set<DEvent>, dq: seq<DEvent>, eq: seq<Entry>, held: multiset<DEvent>)
    reads events
  {
    && (forall i :: 0 <= i < |dq| ==> dq[i] in events && dq[i].rc == 1)
    && (forall i :: 0 <= i < |eq| ==> eq[i].event in events)
    && (forall e :: e in held ==> e in events)
    && (forall e :: e in events ==> e.Named() && e.rc == HoldersOf(e, dq, eq, held))
  }

  lemma OwnedAreAlive(events: set<DEvent>, dq: seq<DEvent>, eq: seq<Entry>, held: multiset<DEvent>)
    requires Owned(events, dq, eq, held)
    ensures AllNamed(dq) && AllNamed(Holders(eq))
    ensures forall e :: e in held ==> e.rc > 0 && e.Named() && e !in dq
    ensures forall i :: 0 <= i < |eq| ==> eq[i].event.rc > 0
    ensures forall e :: e in dq || e in Holders(eq) ==> e in events
  {
    forall i | 0 <= i < |eq| ensures eq[i].event.rc > 0 {
      assert Holders(eq)[i] in Holders(eq);
    }
  }

  lemma OwnedPush(events: set<DEvent>, dq: seq<DEvent>, eq: seq<Entry>, e: DEvent)
    requires Owned(events, dq, eq, multiset{}) && e !in events && e.rc == 1 && e.Named()
    ensures Owned(events + {e}, dq + [e], eq, multiset{})
  {
    assert e !in dq && e !in Holders(eq);
    forall x | x in events + {e} ensures x.Named() && x.rc == HoldersOf(x, dq + [e], eq, multiset{}) {
      assert x in events ==> x.rc == HoldersOf(x, dq, eq, multiset{});
    }
  }

  /** The handler takes over the reference of the queue. */
  lemma OwnedPop(events: set<DEvent>, dq: seq<DEvent>, eq: seq<Entry>)
    requires Owned(events, dq, eq, multiset{}) && dq != []
    ensures Owned(events, dq[1..], eq, multiset{dq[0]}) && dq[0] !in Holders(eq)
  {
    assert dq == [dq[0]] + dq[1..];
    forall x | x in events ensures HoldersOf(x, dq[1..], eq, multiset{dq[0]}) == HoldersOf(x, dq, eq, multiset{}) {
    }
    assert HoldersOf(dq[0], dq, eq, multiset{}) == 1;
  }

  lemma OwnedPopJob(events: set<DEvent>, dq: seq<DEvent>, eq: seq<Entry>)
    requires Owned(events, dq, eq, multiset{}) && eq != []
    ensures Owned(events, dq, eq[1..], multiset{eq[0].event})
  {
    assert Holders(eq) == [eq[0].event] + Holders(eq[1..]);
    forall x | x in events ensures HoldersOf(x, dq, eq[1..], multiset{eq[0].event}) == HoldersOf(x, dq, eq,
          multiset{}) {
    }
  }

  /** Everything that can hold a reference. */
  datatype Holdings = Holdings(events: set<DEvent>, dq: seq<DEvent>, eq: seq<Entry>, held: multiset<DEvent>) {
    ghost predicate Balanced()
      reads events
    {
      Owned(events, dq, eq, held)
    }

    function BeforePost(): Holdings
      requires eq != []
    {
      this.(eq := eq[..|eq| - 1])
    }
  }

  /** A handler has added the last job, and a reference for it. */
  twostate lemma OwnedPost(h: Holdings)
    requires h.eq != [] && h.eq[|h.eq| - 1].event in h.held && old(h.BeforePost().Balanced())
    requires forall e :: e in h.events ==> e.service == old(e.service) && e.process == old(e.process)
    requires forall e :: e in h.events ==> e.rc == old(e.rc) + if e == h.eq[|h.eq| - 1].event then 1 else 0
    ensures h.Balanced()
  {
    var eq, x := h.BeforePost().eq, h.eq[|h.eq| - 1];
    assert x.event !in h.dq by {
      assert old(x.event.rc) == HoldersOf(x.event, h.dq, eq, h.held);
    }
    assert Holders(h.eq) == Holders(eq) + [x.event];
    forall e | e in h.events ensures e.Named() && e.rc == HoldersOf(e, h.dq, h.eq, h.held) {
      assert old(e.Named()) && old(e.rc) == HoldersOf(e, h.dq, eq, h.held);
    }
    forall i | 0 <= i < |h.eq| ensures h.eq[i].event in h.events {
      assert i < |eq| ==> h.eq[i] == eq[i];
    }
  }

  /** Writing a name or a context changes no count. */
  twostate lemma OwnedWrite(h: Holdings)
    requires old(h.Balanced())
    requires forall e :: e in h.events ==> e.service == old(e.service) && e.process == old(e.process)
    requires forall e :: e in h.events ==> e.rc == old(e.rc)
    ensures h.Balanced()
  {
    forall e | e in h.events ensures e.Named() && e.rc == HoldersOf(e, h.dq, h.eq, h.held) {
      assert old(e.Named()) && old(e.rc) == HoldersOf(e, h.dq, h.eq, h.held);
    }
  }

  /** The handlers have given up their references. */
  twostate lemma OwnedRelease(h: Holdings)
    requires old(h.Balanced())
    requires forall e :: e in h.events ==> e.service == old(e.service) && e.process == old(e.process)
    requires forall e :: e in h.events ==> e.rc == old(e.rc) - h.held[e]
    ensures h.(held := multiset{}).Balanced()
  {
    forall e | e in h.events ensures e.Named() && e.rc == HoldersOf(e, h.dq, h.eq, multiset{}) {
      assert old(e.Named()) && old(e.rc) == HoldersOf(e, h.dq, h.eq, h.held);
    }
    forall i | 0 <= i < |h.dq| ensures h.dq[i].rc == 1 {
      assert h.held[h.dq[i]] == 0;
    }
  }

  lemma FirstEvent(es: seq<DEvent>)
    requires AllNamed(es) && es != []
    ensures AllNamed(es[1..]) && EventsOf(es[1..]) == EventsOf(es)[1..] && EventsOf(es)[0] == es[0].View()
  {
  }

  /** A message needs a context: the setter asserts it. */
  predicate Announceable(primary: bool, e: Event) {
    (e.kind == InformServiceFailed || (primary && e.kind == InformProcessCrash)) ==> e.context.Some?
  }

  /** In every run of the network the assertions of the message setters hold. */
  lemma AssertionsNeverFail(nets: seq<Net>, ls: seq<Step>, n: nat)
    requires IsRun(nets, ls) && n <= |ls| && nets[0] == Start(nets[0].primary.host)
    ensures forall e :: e in nets[n].primary.dq ==> Announceable(true, e)
    ensures forall i, e :: 0 <= i < |nets[n].replicas| && e in nets[n].replicas[i].node.dq ==> Announceable(false, e)
  {
    RolesAreKept(nets, ls, n);
    forall i, e | 0 <= i < |nets[n].replicas| && e in nets[n].replicas[i].node.dq ensures Announceable(false, e) {
      assert ReplicaSafe(nets[n].replicas[i]);
    }
  }

  /** What a handler of the dispatcher has done, in values. */
  ghost predicate Handled(h: Handling, n: Node, n': Node, clients: seq<Client>, clients': seq<Client>,
                          outbox: seq<Packet>, outbox': seq<Packet>, primary: bool)
  {
    && n' == n.(eq := n.eq + h.jobs)
    && clients' == (if primary then Told(clients, h.notice) else clients)
    && outbox' == (if primary then outbox else outbox + List(h.notice))
  }

  function Popped(n: Node): Node
    requires n.dq != []
  {
    n.(dq := n.dq[1..])
  }

  /** The clients after a notice: those that want it have been sent it. */
  function Told(clients: seq<Client>, notice: Option<Packet>): seq<Client> {
    seq(|clients|, i requires 0 <= i < |clients| => Informed(clients[i], notice))
  }

  // ---- The instance as a part of the network ----

  /** The primary's ends of the connections, in order. */
  function ClientsOf(rs: seq<Replica>): seq<Client> {
    seq(|rs|, i requires 0 <= i < |rs| => rs[i].client)
  }

  /** The memory of the primary of this network. */
  predicate AtPrimary(net: Net, n: Node, clients: seq<Client>) {
    net.primary == n && ClientsOf(net.replicas) == clients
  }

  /** The memory of its replica i, with what it has sent and the primary has not read. */
  predicate AtReplica(net: Net, i: nat, n: Node, up: seq<Packet>) {
    i < |net.replicas| && net.replicas[i].node == n && net.replicas[i].up == up
  }

  /** What the primary's memory has become is step l of every network whose primary it is. */
  ghost predicate PlaysPrimary(l: Step, n: Node, clients: seq<Client>, n': Node, clients': seq<Client>) {
    forall net: Net :: Enabled(net, l) && AtPrimary(net, n, clients) ==> AtPrimary(Next(net, l), n', clients')
  }

  /** What a replica's memory has become is step l of every network in which it stands at l.at. */
  ghost predicate PlaysReplica(l: Step, n: Node, up: seq<Packet>, n': Node, up': seq<Packet>)
    requires l.ReplicaDispatch? || l.ReplicaExecute? || l.ReplicaEvent?
  {
    forall net: Net :: Enabled(net, l) && AtReplica(net, l.at, n, up) ==> AtReplica(Next(net, l), l.at, n', up')
  }

  /** Packet p from client i, in every network in which it is the next one on that connection. */
  ghost predicate PlaysReceiveUp(i: nat, p: Packet, n: Node, clients: seq<Client>, n': Node, clients': seq<Client>) {
    forall net: Net :: Enabled(net, ReceiveUp(i)) && AtPrimary(net, n, clients) && net.replicas[i].up[0] == p ==>
      AtPrimary(Next(net, ReceiveUp(i)), n', clients')
  }

  ghost predicate PlaysReceiveDown(p: Packet, n: Node, up: seq<Packet>, n': Node, up': seq<Packet>) {
    forall net: Net, i: nat ::
      Enabled(net, ReceiveDown(i)) && AtReplica(net, i, n, up) && net.replicas[i].client.down[0] == p ==>
        AtReplica(Next(net, ReceiveDown(i)), i, n', up')
  }

  /** The clients in memory are told what the network tells its replicas, whatever their number. */
  lemma ToldIsNotified(rs: seq<Replica>, notice: Option<Packet>)
    ensures Told(ClientsOf(rs), notice) == ClientsOf(Notified(rs, notice))
  {
  }

  lemma DispatchPlays(answer: Answer, primary: bool, n: Node, n': Node, clients: seq<Client>, clients': seq<Client>,
                      outbox: seq<Packet>, outbox': seq<Packet>)
    requires n.dq != []
    requires Handled(HandleAt(n, primary, answer), Popped(n), n', clients, clients', outbox, outbox', primary)
    ensures primary ==> PlaysPrimary(PrimaryDispatch(answer), n, clients, n', clients')
    ensures !primary ==> forall i: nat :: PlaysReplica(ReplicaDispatch(i, answer), n, outbox, n', outbox')
  {
    hide Handle, Told, Notified;
    forall net: Net | Enabled(net, PrimaryDispatch(answer)) && AtPrimary(net, n, clients) && primary
      ensures AtPrimary(Next(net, PrimaryDispatch(answer)), n', clients')
    {
      ToldIsNotified(net.replicas, HandleAt(n, true, answer).notice);
    }
  }

  lemma ExecutePlays(primary: bool, n: Node, n': Node, clients: seq<Client>, outbox: seq<Packet>, outbox': seq<Packet>)
    requires n.eq != [] && n' == Executed(n, ExecuteAt(n, primary))
    requires outbox' == outbox + List(ExecuteAt(n, primary).request)
    ensures primary ==> PlaysPrimary(PrimaryExecute, n, clients, n', clients)
    ensures !primary ==> forall i: nat :: PlaysReplica(ReplicaExecute(i), n, outbox, n', outbox')
  {
    hide Execute;
  }

  lemma EventPlays(e: Event, n: Node, clients: seq<Client>, outbox: seq<Packet>)
    ensures PlaysPrimary(PrimaryEvent(e), n, clients, Pushed(n, [e]), clients)
    ensures forall i: nat :: PlaysReplica(ReplicaEvent(i, e), n, outbox, Pushed(n, [e]), outbox)
  {
  }

  lemma ReceiptPlays(i: nat, p: Packet, n: Node, clients: seq<Client>)
    requires i < |clients|
    ensures PlaysReceiveUp(i, p, n, clients, Pushed(n, List(FromReplica(p))),
                           clients[i := Introduced(clients[i], p)])
  {
    hide FromReplica, Introduced;
    forall net: Net | Enabled(net, ReceiveUp(i)) && AtPrimary(net, n, clients) && net.replicas[i].up[0] == p
      ensures ClientsOf(Next(net, ReceiveUp(i)).replicas) == clients[i := Introduced(clients[i], p)]
    {
      assert clients[i] == net.replicas[i].client;
    }
  }

  lemma ReceiptDownPlays(p: Packet, n: Node, outbox: seq<Packet>)
    ensures PlaysReceiveDown(p, n, outbox, Pushed(n, List(FromPrimary(p))), outbox)
  {
    hide FromPrimary;
  }

  class RecoveryInstance {
    const primary: bool
    const host: Name
    var dq: seq<DEvent>
    var eq: seq<Entry>
    var effects: seq<Effect>
    var clients: seq<Client>       // of the primary
    var outbox: seq<Packet>        // of a replica
    ghost var events: set<DEvent>  // every event this instance has made

    constructor (primary: bool, host: Name)
      ensures this.primary == primary && this.host == host
      ensures Valid(multiset{}) && fresh(events) && View() == Node(host, [], [], [])
      ensures clients == [] && outbox == []
    {
      this.primary, this.host := primary, host;
      dq, eq, effects, clients, outbox, events := [], [], [], [], [], {};
    }

    ghost predicate Valid(held: multiset<DEvent>)
      reads this, events
    {
      Owned(events, dq, eq, held)
    }

    /** The instance as a value. */
    ghost function View(): Node
      requires Valid(multiset{})
      reads this, events
    {
      ViewWith(multiset{})
    }

    ghost function ViewWith(held: multiset<DEvent>): Node
      requires Valid(held)
      reads this, events
    {
      OwnedAreAlive(events, dq, eq, held);
      Node(host, EventsOf(dq), JobsOf(eq), effects)
    }

    // ---- Queues ----

    method PushServiceEvent(e: DEvent)
      requires Valid(multiset{}) && e !in events && e.rc == 1 && e.Named()
      modifies this`dq, this`events
      ensures Valid(multiset{}) && events == old(events) + {e}
      ensures View() == Pushed(old(View()), [e.View()])
    {
      hide Owned, HoldersOf, AllNamed, EventsOf, JobsOf;
      OwnedAreAlive(events, dq, eq, multiset{});
      OwnedPush(events, dq, eq, e);
      EventsOfAppend(dq, e);
      dq := dq + [e];
      events := events + {e};
    }

    method PostExecutorEvent(kind: JobKind, e: DEvent, ghost held: multiset<DEvent>)
      requires Valid(held) && e in held
      modifies this`eq, e`rc
      ensures Valid(held)
      ensures eq == old(eq) + [Entry(kind, e)]
      ensures ViewWith(held)
           == old(ViewWith(held)).(eq := old(ViewWith(held)).eq + [JobWith(kind, e.View())])
    {
      hide Owned, HoldersOf, AllNamed, EventsOf, JobsOf;
      OwnedAreAlive(events, dq, eq, held);
      e.Ref();
      ghost var eq' := eq + [Entry(kind, e)];
      assert eq'[..|eq|] == eq;
      OwnedPost(Holdings(events, dq, eq', held));
      JobsOfAppend(eq, Entry(kind, e));
      eq := eq + [Entry(kind, e)];
    }

    // ---- The dispatcher ----

    method InformClients(notice: Packet)
      modifies this`clients
      ensures clients == Told(old(clients), Some(notice))
    {
      for i := 0 to |clients|
        invariant |clients| == |old(clients)|
        invariant forall k :: 0 <= k < i ==> clients[k] == Informed(old(clients)[k], Some(notice))
        invariant forall k :: i <= k < |clients| ==> clients[k] == old(clients)[k]
      {
        var client := clients[i];
        if notice.kind != InformClientServiceFailed || client.context != Some(notice.context) {
          clients := clients[i := client.(down := client.down + [notice])];
        }
      }
    }

    method FriendServiceFailed(e: DEvent, ghost held: multiset<DEvent>)
      requires Valid(held) && e in held && e.kind != InformProcessCrash && e.context.Some?
      modifies this`eq, this`clients, this`outbox, e`rc
      ensures Valid(held) && e.View() == old(e.View())
      ensures var h := Failed(primary, host, e.View().name, e.View().context);
              && ViewWith(held) == old(ViewWith(held)).(eq := old(ViewWith(held)).eq + h.jobs)
              && clients == (if primary then Told(old(clients), h.notice) else old(clients))
              && outbox == (if primary then old(outbox) else old(outbox) + List(h.notice))
    {
      hide Owned, HoldersOf, AllNamed, EventsOf, JobsOf;
      OwnedAreAlive(events, dq, eq, held);
      if primary {
        InformClients(Packet(InformClientServiceFailed, e.Name(), e.Context().value));
      } else {
        outbox := outbox + [Packet(InformPrimaryServiceFailed, e.Name(), e.Context().value)];
      }
      if e.Context() != Some(host) {
        PostExecutorEvent(JobKind.FriendServiceFailed, e, held);
      }
    }

    method FriendProcessCrash(e: DEvent, ghost held: multiset<DEvent>)
      requires Valid(held) && e in held && e.kind == InformProcessCrash && (primary ==> e.context.Some?)
      modifies this`eq, this`clients, e`rc
      ensures Valid(held) && e.View() == old(e.View())
      ensures var h := Handle(primary, host, e.View(), NoUnit);
              && ViewWith(held) == old(ViewWith(held)).(eq := old(ViewWith(held)).eq + h.jobs)
              && clients == (if primary then Told(old(clients), h.notice) else old(clients))
    {
      hide Owned, HoldersOf, AllNamed, EventsOf, JobsOf;
      OwnedAreAlive(events, dq, eq, held);
      if primary {
        InformClients(Packet(CrashOfProcess, e.Name(), e.Context().value));
      }
      PostExecutorEvent(JobKind.FriendProcessCrash, e, held);
    }

    /** The job is queued without a context; the event gets its context afterwards. */
    method PostRecovery(action: D.ExecutorEvent, e: DEvent)
      requires Valid(multiset{e}) && e !in Holders(eq) && e.kind == ServiceCrashed
      modifies this`eq, e`rc, e`context
      ensures Valid(multiset{e}) && e.View() == old(e.View()).(context := Some(host))
      ensures ViewWith(multiset{e})
           == old(ViewWith(multiset{e})).(eq := old(ViewWith(multiset{e})).eq + [Job(Recovery(action),
                 e.View().name, Some(host))])
    {
      hide Owned, HoldersOf, AllNamed, EventsOf, JobsOf;
      OwnedAreAlive(events, dq, eq, multiset{e});
      PostExecutorEvent(Recovery(action), e, multiset{e});
      OwnedAreAlive(events, dq, eq, multiset{e});
      label Queued:
      e.SetContextName(host);
      OwnedWrite@Queued(Holdings(events, dq, eq, multiset{e}));
      SameEvents@Queued(dq);
      assert eq[..|eq| - 1] == old(eq);
      ContextSeen(eq);
    }

    method ProcessServiceCrash(e: DEvent, answer: Answer)
      requires Valid(multiset{e}) && e !in Holders(eq) && e.kind == ServiceCrashed
      modifies this`eq, this`clients, this`outbox, e`rc, e`context
      ensures Valid(multiset{e})
      ensures Handled(Handle(primary, host, old(e.View()), answer), old(ViewWith(multiset{e})), ViewWith(multiset{e}),
                      old(clients), clients, old(outbox), outbox, primary)
    {
      hide Owned, HoldersOf, AllNamed, EventsOf, JobsOf;
      OwnedAreAlive(events, dq, eq, multiset{e});
      match answer
      case NoUnit => return;
      case Unit(action) =>
        match action {
          case Some(a) => PostRecovery(a, e);
          case None => GiveContext(e);
        }
        FriendServiceFailed(e, multiset{e});
    }

    method GiveContext(e: DEvent)
      requires Valid(multiset{e}) && e !in Holders(eq)
      modifies e`context
      ensures Valid(multiset{e}) && e.View() == old(e.View()).(context := Some(host))
      ensures ViewWith(multiset{e}) == old(ViewWith(multiset{e}))
    {
      hide Owned, HoldersOf, AllNamed, EventsOf, JobsOf;
      OwnedAreAlive(events, dq, eq, multiset{e});
      e.SetContextName(host);
      OwnedWrite(Holdings(events, dq, eq, multiset{e}));
      SameEvents(dq);
      SameEvents(Holders(eq));
    }

    method DispatcherCallback(e: DEvent, answer: Answer)
      requires Valid(multiset{e}) && e !in Holders(eq) && Announceable(primary, e.View())
      modifies this`eq, this`clients, this`outbox, e`rc, e`context
      ensures Valid(multiset{e})
      ensures Handled(Handle(primary, host, old(e.View()), answer), old(ViewWith(multiset{e})), ViewWith(multiset{e}),
                      old(clients), clients, old(outbox), outbox, primary)
    {
      hide Owned, HoldersOf, AllNamed, EventsOf, JobsOf;
      OwnedAreAlive(events, dq, eq, multiset{e});
      match e.kind
      case InformProcessCrash => FriendProcessCrash(e, multiset{e});
      case InformServiceFailed => FriendServiceFailed(e, multiset{e});
      case ServiceCrashed => ProcessServiceCrash(e, answer);
      case ServiceRestarted =>
      case RemoteContextRestart => PostExecutorEvent(Recovery(D.RestartContext), e, multiset{e});
      case RemotePlatformRestart => PostExecutorEvent(Recovery(D.RestartPlatform), e, multiset{e});
      case RemoteFactoryReset => PostExecutorEvent(Recovery(D.ResetFactory), e, multiset{e});
    }

    /** One event of the dispatcher's queue, from the pop to the release. */
    method DispatchOne(answer: Answer) returns (freed: bool)
      requires Valid(multiset{}) && dq != [] && Announceable(primary, dq[0].View())
      modifies this`dq, this`eq, this`clients, this`outbox, dq[0]
      ensures Valid(multiset{})
      ensures Handled(HandleAt(old(View()), primary, answer), Popped(old(View())), View(), old(clients), clients,
            old(outbox), outbox, primary)
      ensures primary ==> PlaysPrimary(PrimaryDispatch(answer), old(View()), old(clients), View(), clients)
      ensures !primary ==> forall i: nat :: PlaysReplica(ReplicaDispatch(i, answer), old(View()), old(outbox), View(),
                                                         outbox)
      ensures freed <==> old(dq[0]).rc == 0
    {
      hide Owned, HoldersOf, AllNamed, EventsOf, JobsOf, Handle, Handled, PlaysPrimary, PlaysReplica;
      OwnedAreAlive(events, dq, eq, multiset{});
      ghost var n := View();
      var e := dq[0];
      FirstEvent(dq);
      OwnedPop(events, dq, eq);
      dq := dq[1..];
      label Popped:
      OwnedAreAlive(events, dq, eq, multiset{e});
      DispatcherCallback(e, answer);
      label Done:
      OwnedAreAlive(events, dq, eq, multiset{e});
      freed := e.Unref();
      OwnedRelease@Done(Holdings(events, dq, eq, multiset{e}));
      DispatchPlays(answer, primary, n, View(), old(clients), clients, old(outbox), outbox);
    }

    // ---- The executor ----

    /** Carry out a job; the replica asks the primary for what is not its own. */
    method ExecuteEntry(kind: JobKind, e: DEvent)
      requires e.rc > 0 && e.Named()
      modifies this`effects, this`outbox
      ensures var x := Execute(primary, host, JobWith(kind, e.View()));
              effects == old(effects) + x.effects && outbox == old(outbox) + List(x.request)
    {
      match kind
      case FriendProcessCrash => effects := effects + [FriendsLookedUp(J.FriendProcess, e.Name(), e.Context())];
      case FriendServiceFailed => effects := effects + [FriendsLookedUp(J.FriendService, e.Name(), e.Context())];
      case Recovery(event) =>
        match event
        case RestartService => effects := effects + [UnitRestarted(e.Name())];
        case ResetPublic => effects := effects + [PublicDataReset(e.Name()), UnitRestarted(e.Name())];
        case ResetPrivate => effects := effects + [PrivateDataReset(e.Name()), UnitRestarted(e.Name())];
        case DisableService' =>
        case RestartContext =>
          if primary {
            if e.Context() == None {
              effects := effects + [PlatformRestarted(e.Name())];
            } else {
              effects := effects + [ContainerShutdown(e.Context().value, e.Name())];
            }
          } else {
            outbox := outbox + [Packet(RequestContextRestart, e.Name(), host)];
            effects := effects + [Meditation];
          }
        case RestartPlatform =>
          if primary {
            effects := effects + [PlatformRestarted(e.Name())];
          } else {
            outbox := outbox + [Packet(RequestPlatformRestart, e.Name(), host)];
          }
          effects := effects + [Meditation];
        case ResetFactory =>
          if primary {
            effects := effects + [FactoryResetDone(e.Name(), e.Context())];
          } else {
            outbox := outbox + [Packet(RequestFactoryReset, e.Name(), host)];
          }
          effects := effects + [Meditation];
    }

    /** One entry of the executor's queue, from the pop to the release. */
    method ExecuteOne() returns (freed: bool)
      requires Valid(multiset{}) && eq != []
      modifies this`eq, this`effects, this`outbox, eq[0].event`rc
      ensures Valid(multiset{})
      ensures View() == Executed(old(View()), ExecuteAt(old(View()), primary))
      ensures outbox == old(outbox) + List(ExecuteAt(old(View()), primary).request)
      ensures primary ==> PlaysPrimary(PrimaryExecute, old(View()), clients, View(), clients)
      ensures !primary ==> forall i: nat :: PlaysReplica(ReplicaExecute(i), old(View()), old(outbox), View(), outbox)
      ensures freed <==> old(eq[0].event).rc == 0
    {
      hide Owned, HoldersOf, AllNamed, EventsOf, JobsOf, Execute, PlaysPrimary, PlaysReplica;
      OwnedAreAlive(events, dq, eq, multiset{});
      ghost var n := View();
      var kind, e := eq[0].kind, eq[0].event;
      JobsOfTail(eq);
      OwnedPopJob(events, dq, eq);
      eq := eq[1..];
      OwnedAreAlive(events, dq, eq, multiset{e});
      ExecuteEntry(kind, e);
      label Done:
      freed := e.Unref();
      OwnedRelease@Done(Holdings(events, dq, eq, multiset{e}));
      ExecutePlays(primary, n, View(), clients, old(outbox), outbox);
    }

    // ---- Events from outside ----

    method PushNew(e: DEvent, name: Name, context: Option<Name>)
      requires Valid(multiset{}) && e !in events && e.rc == 1 && e.context == None
      modifies this`dq, this`events, e
      ensures Valid(multiset{}) && events == old(events) + {e}
      ensures View() == Pushed(old(View()), [Event(e.kind, name, context)])
    {
      hide Owned, HoldersOf, AllNamed, EventsOf, JobsOf;
      OwnedAreAlive(events, dq, eq, multiset{});
      if e.kind == InformProcessCrash {
        e.SetProcessName(name);
      } else {
        e.SetServiceName(name);
      }
      match context {
        case Some(c) => e.SetContextName(c);
        case None =>
      }
      OwnedWrite(Holdings(events, dq, eq, multiset{}));
      SameEvents(dq);
      SameEvents(Holders(eq));
      PushServiceEvent(e);
    }

    /** A state change reported by the monitor, or a crash reported by the crash manager. */
    method OnLocalEvent(kind: EventKind, name: Name, context: Option<Name>)
      requires Valid(multiset{}) && Local(Event(kind, name, context), primary)
      modifies this`dq, this`events
      ensures Valid(multiset{}) && View() == Pushed(old(View()), [Event(kind, name, context)])
      ensures PlaysPrimary(PrimaryEvent(Event(kind, name, context)), old(View()), clients, View(), clients)
      ensures forall i: nat ::
                PlaysReplica(ReplicaEvent(i, Event(kind, name, context)), old(View()), outbox, View(), outbox)
    {
      hide Owned, PlaysPrimary, PlaysReplica;
      var e := new DEvent(kind);
      PushNew(e, name, context);
      EventPlays(Event(kind, name, context), old(View()), clients, outbox);
    }

    /** A message read from client i. */
    method ProcessClientMessage(i: nat, p: Packet)
      requires Valid(multiset{}) && i < |clients|
      modifies this`dq, this`events, this`clients
      ensures Valid(multiset{}) && View() == Pushed(old(View()), List(FromReplica(p)))
      ensures clients == old(clients)[i := Introduced(old(clients)[i], p)]
      ensures PlaysReceiveUp(i, p, old(View()), old(clients), View(), clients)
    {
      hide Owned, PlaysReceiveUp;
      ReceiptPlays(i, p, View(), clients);
      match p.kind
      case ReplicaDescriptor => clients := clients[i := clients[i].(context := Some(p.context))];
      case RequestContextRestart => PushReceived(RemoteContextRestart, p);
      case RequestPlatformRestart => PushReceived(RemoteContextRestart, p);
      case RequestFactoryReset => PushReceived(RemoteFactoryReset, p);
      case InformPrimaryServiceFailed => PushReceived(InformServiceFailed, p);
      case CrashOfProcess =>
      case InformClientServiceFailed =>
    }

    /** A message read from the primary. */
    method ProcessPrimaryMessage(p: Packet)
      requires Valid(multiset{})
      modifies this`dq, this`events
      ensures Valid(multiset{}) && View() == Pushed(old(View()), List(FromPrimary(p)))
      ensures PlaysReceiveDown(p, old(View()), outbox, View(), outbox)
    {
      hide Owned, PlaysReceiveDown;
      ReceiptDownPlays(p, View(), outbox);
      match p.kind
      case CrashOfProcess => PushReceived(InformProcessCrash, p);
      case InformClientServiceFailed => PushReceived(InformServiceFailed, p);
      case _ =>
    }

    method PushReceived(kind: EventKind, p: Packet)
      requires Valid(multiset{})
      modifies this`dq, this`events
      ensures Valid(multiset{}) && View() == Pushed(old(View()), [Event(kind, p.name, Some(p.context))])
    {
      var e := new DEvent(kind);
      PushNew(e, p.name, Some(p.context));
    }

    /** Between two handlers an event is alive exactly if a queue holds it: each is freed, and freed once. */
    lemma LiveIffQueued(e: DEvent)
      requires Valid(multiset{}) && e in events
      ensures e.rc > 0 <==> e in dq || exists i :: 0 <= i < |eq| && eq[i].event == e
      ensures e in dq ==> e.rc == 1 && forall i :: 0 <= i < |eq| ==> eq[i].event != e
    {
      forall i | 0 <= i < |eq| && eq[i].event == e ensures e in Holders(eq) {
        assert Holders(eq)[i] == e;
      }
      assert e.rc == HoldersOf(e, dq, eq, multiset{});
      if e in Holders(eq) {
        var i :| 0 <= i < |eq| && Holders(eq)[i] == e;
        assert eq[i].event == e;
      }
    }
  }
}
