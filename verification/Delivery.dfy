/**
 Where the notice of a process crash ends up: it is looked up exactly once at the primary and once
 at every replica, whatever else happens in the network.
 */
module Delivery {
  import opened Common
  import opened Protocol
  import opened Traffic
  import J = Journal

  // ---- Crashes of processes ----

  function CrashEvent(p: Name, c: Name): Event { Event(InformProcessCrash, p, Some(c)) }

  function CrashJob(p: Name, c: Name): Job { Job(FriendProcessCrash, p, Some(c)) }

  function CrashLookup(p: Name, c: Name): Effect { FriendsLookedUp(J.FriendProcess, p, Some(c)) }

  /** A process crash in the queues of an instance and among what it has done. */
  function AtNode(n: Node, p: Name, c: Name): nat {
    Count(n.dq, CrashEvent(p, c)) + Count(n.eq, CrashJob(p, c)) + Count(n.effects, CrashLookup(p, c))
  }

  function AtReplica(r: Replica, p: Name, c: Name): nat {
    Count(r.client.down, Packet(CrashOfProcess, p, c)) + AtNode(r.node, p, c)
  }

  lemma NodePushes(n: Node, events: seq<Event>, p: Name, c: Name)
    ensures AtNode(Pushed(n, events), p, c) == AtNode(n, p, c) + Count(events, CrashEvent(p, c))
  {
    CountConcat(n.dq, events, CrashEvent(p, c));
  }

  /** Handling a crash event makes exactly one job of it, and a notice at the primary. */
  lemma HandleCrash(primary: bool, host: Name, e: Event, answer: Answer, p: Name, c: Name)
    ensures var h := Handle(primary, host, e, answer);
            && Count(h.jobs, CrashJob(p, c)) == (if e == CrashEvent(p, c) then 1 else 0)
            && (h.notice == Some(Packet(CrashOfProcess, p, c)) <==> primary && e == CrashEvent(p, c))
  {
  }

  lemma NodeDispatches(n: Node, primary: bool, answer: Answer, p: Name, c: Name)
    requires n.dq != []
    ensures AtNode(Dispatched(n, HandleAt(n, primary, answer)), p, c) == AtNode(n, p, c)
  {
    var h := HandleAt(n, primary, answer);
    HandleCrash(primary, n.host, n.dq[0], answer, p, c);
    CountPop(n.dq, CrashEvent(p, c));
    CountConcat(n.eq, h.jobs, CrashJob(p, c));
  }

  lemma ExecuteCrash(primary: bool, host: Name, j: Job, p: Name, c: Name)
    ensures Count(Execute(primary, host, j).effects, CrashLookup(p, c)) == if j == CrashJob(p, c) then 1 else 0
  {
  }

  lemma NodeExecutes(n: Node, primary: bool, p: Name, c: Name)
    requires n.eq != []
    ensures AtNode(Executed(n, ExecuteAt(n, primary)), p, c) == AtNode(n, p, c)
  {
    var x := ExecuteAt(n, primary);
    ExecuteCrash(primary, n.host, n.eq[0], p, c);
    CountPop(n.eq, CrashJob(p, c));
    CountConcat(n.effects, x.effects, CrashLookup(p, c));
  }

  /** A crash notice is told of once: no packet from a replica brings one back. */
  lemma PrimaryKeepsCrashes(net: Net, l: Step, p: Name, c: Name)
    requires Enabled(net, l)
    ensures AtNode(Next(net, l).primary, p, c) == AtNode(net.primary, p, c) + Once(net, l, ProcessCrashReported(p, c))
  {
    hide AtNode;
    match l
    case PrimaryEvent(e) => NodePushes(net.primary, [e], p, c);
    case PrimaryDispatch(answer) => NodeDispatches(net.primary, true, answer, p, c);
    case PrimaryExecute => NodeExecutes(net.primary, true, p, c);
    case ReceiveUp(i) => NodePushes(net.primary, List(FromReplica(net.replicas[i].up[0])), p, c);
    case _ =>
  }

  /** What a step of its own does to the crash notices of a replica: it moves them. */
  lemma ReplicaKeepsCrashes(net: Net, l: Step, p: Name, c: Name)
    requires Enabled(net, l)
    requires l.ReplicaEvent? || l.ReceiveUp? || l.ReceiveDown? || l.ReplicaDispatch? || l.ReplicaExecute?
    ensures AtReplica(ReplicaNext(net.replicas[l.at], l), p, c) == AtReplica(net.replicas[l.at], p, c)
  {
    var r := net.replicas[l.at];
    match l
    case ReplicaEvent(_, e) => NodePushes(r.node, [e], p, c);
    case ReceiveUp(_) =>
    case ReceiveDown(_) =>
      CountPop(r.client.down, Packet(CrashOfProcess, p, c));
      NodePushes(r.node, List(FromPrimary(r.client.down[0])), p, c);
    case ReplicaDispatch(_, answer) => NodeDispatches(r.node, false, answer, p, c);
    case ReplicaExecute(_) => NodeExecutes(r.node, false, p, c);
  }

  /** Crash notices of a replica, counting those the primary has not handled yet. */
  function Owed(net: Net, i: nat, p: Name, c: Name): nat
    requires i < |net.replicas|
  {
    AtReplica(net.replicas[i], p, c) + Count(net.primary.dq, CrashEvent(p, c))
  }

  lemma OwedAfterDispatch(net: Net, answer: Answer, i: nat, p: Name, c: Name)
    requires Enabled(net, PrimaryDispatch(answer)) && i < |net.replicas|
    ensures i < |Next(net, PrimaryDispatch(answer)).replicas|
    ensures Owed(Next(net, PrimaryDispatch(answer)), i, p, c) == Owed(net, i, p, c)
  {
    var r, notice := net.replicas[i], HandleAt(net.primary, true, answer).notice;
    HandleCrash(true, net.primary.host, net.primary.dq[0], answer, p, c);
    CountPop(net.primary.dq, CrashEvent(p, c));
    if notice.Some? { CountConcat(r.client.down, [notice.value], Packet(CrashOfProcess, p, c)); }
    assert Count(Informed(r.client, notice).down, Packet(CrashOfProcess, p, c))
        == Count(r.client.down, Packet(CrashOfProcess, p, c)) + if notice == Some(Packet(CrashOfProcess, p, c))
              then 1 else 0;
  }

  lemma OwedAfterPrimaryStep(net: Net, l: Step, i: nat, p: Name, c: Name)
    requires Enabled(net, l) && i < |net.replicas| && (l.PrimaryEvent? || l.PrimaryDispatch? || l.PrimaryExecute?)
    ensures i < |Next(net, l).replicas|
    ensures Owed(Next(net, l), i, p, c) == Owed(net, i, p, c) + Once(net, l, ProcessCrashReported(p, c))
  {
    hide AtReplica, Handle;
    match l
    case PrimaryEvent(e) => CountConcat(net.primary.dq, [e], CrashEvent(p, c));
    case PrimaryDispatch(answer) => OwedAfterDispatch(net, answer, i, p, c);
    case PrimaryExecute =>
  }

  /** Another replica in the list, or the same one with what it is owed unchanged. */
  lemma OwedAfterReplacement(net: Net, k: nat, r: Replica, i: nat, p: Name, c: Name)
    requires i < |net.replicas| && k < |net.replicas| && AtReplica(r, p, c) == AtReplica(net.replicas[k], p, c)
    ensures Owed(net.(replicas := net.replicas[k := r]), i, p, c) == Owed(net, i, p, c)
  {
  }

  lemma OwedAfterReplicaStep(net: Net, l: Step, i: nat, p: Name, c: Name)
    requires Enabled(net, l) && i < |net.replicas|
    requires l.ReplicaEvent? || l.ReceiveDown? || l.ReplicaDispatch? || l.ReplicaExecute?
    ensures i < |Next(net, l).replicas| && Owed(Next(net, l), i, p, c) == Owed(net, i, p, c)
  {
    hide Owed, AtReplica, ReplicaNext;
    ReplicaKeepsCrashes(net, l, p, c);
    OwedAfterReplacement(net, l.at, ReplicaNext(net.replicas[l.at], l), i, p, c);
  }

  lemma OwedAfterReceiveUp(net: Net, k: nat, i: nat, p: Name, c: Name)
    requires Enabled(net, ReceiveUp(k)) && i < |net.replicas|
    ensures i < |Next(net, ReceiveUp(k)).replicas|
    ensures Owed(Next(net, ReceiveUp(k)), i, p, c) == Owed(net, i, p, c)
  {
    CountConcat(net.primary.dq, List(FromReplica(net.replicas[k].up[0])), CrashEvent(p, c));
    ReplicaKeepsCrashes(net, ReceiveUp(k), p, c);
  }

  lemma OwedAfterConnect(net: Net, host: Name, i: nat, p: Name, c: Name)
    requires i < |net.replicas|
    ensures i < |Next(net, Connect(host)).replicas| && Owed(Next(net, Connect(host)), i, p, c) == Owed(net, i, p, c)
  {
  }

  lemma OwedAfterStep(net: Net, l: Step, i: nat, p: Name, c: Name)
    requires Enabled(net, l) && i < |net.replicas| && !l.Disconnect?
    ensures i < |Next(net, l).replicas|
    ensures Owed(Next(net, l), i, p, c) == Owed(net, i, p, c) + Once(net, l, ProcessCrashReported(p, c))
  {
    hide Next, Owed;
    match l
    case Connect(host) => OwedAfterConnect(net, host, i, p, c);
    case PrimaryEvent(_) => OwedAfterPrimaryStep(net, l, i, p, c);
    case PrimaryDispatch(_) => OwedAfterPrimaryStep(net, l, i, p, c);
    case PrimaryExecute => OwedAfterPrimaryStep(net, l, i, p, c);
    case ReceiveUp(k) => OwedAfterReceiveUp(net, k, i, p, c);
    case ReplicaEvent(_, _) => OwedAfterReplicaStep(net, l, i, p, c);
    case ReceiveDown(_) => OwedAfterReplicaStep(net, l, i, p, c);
    case ReplicaDispatch(_, _) => OwedAfterReplicaStep(net, l, i, p, c);
    case ReplicaExecute(_) => OwedAfterReplicaStep(net, l, i, p, c);
  }

  /** A client that leaves takes nothing of the others with it. */
  lemma OwedAfterDisconnect(net: Net, d: nat, i: nat, p: Name, c: Name)
    requires Enabled(net, Disconnect(d)) && i < |net.replicas| && i != d
    ensures var i' := if d < i then i - 1 else i;
            i' < |Next(net, Disconnect(d)).replicas| && Owed(Next(net, Disconnect(d)), i', p, c) == Owed(net, i, p, c)
  {
  }

  /** Where the replica that was at index i stands after n steps; None once it has disconnected. */
  function Place(ls: seq<Step>, i: nat, n: nat): Option<nat>
    requires n <= |ls|
  {
    if n == 0 then Some(i)
    else
      match Place(ls, i, n - 1)
      case None => None
      case Some(k) =>
        if !ls[n - 1].Disconnect? || k < ls[n - 1].at then Some(k)
        else if k == ls[n - 1].at then None
        else Some(k - 1)
  }

  lemma {:induction false} PrimaryCrashesAreConserved(nets: seq<Net>, ls: seq<Step>, p: Name, c: Name, n: nat)
    requires IsRun(nets, ls) && n <= |ls|
    ensures AtNode(nets[n].primary, p, c)
         == AtNode(nets[0].primary, p, c) + Times(nets, ls, ProcessCrashReported(p, c), n)
    decreases n
  {
    if n > 0 {
      PrimaryCrashesAreConserved(nets, ls, p, c, n - 1);
      assert StepAt(nets, ls, n - 1);
      PrimaryKeepsCrashes(nets[n - 1], ls[n - 1], p, c);
      TimesStep(nets, ls, ProcessCrashReported(p, c), n);
    }
  }

  /** The crash notices of a replica are conserved wherever it stands, whoever else comes and goes. */
  lemma {:induction false} ReplicaCrashesAreConserved(nets: seq<Net>, ls: seq<Step>, i: nat, p: Name, c: Name, n: nat)
    requires IsRun(nets, ls) && n <= |ls| && i < |nets[0].replicas|
    ensures match Place(ls, i, n)
            case None => true
            case Some(k) =>
              && k < |nets[n].replicas|
              && Owed(nets[n], k, p, c) == Owed(nets[0], i, p, c) + Times(nets, ls, ProcessCrashReported(p, c), n)
    decreases n
  {
    hide Owed, Next;
    if n > 0 {
      ReplicaCrashesAreConserved(nets, ls, i, p, c, n - 1);
      assert StepAt(nets, ls, n - 1);
      TimesStep(nets, ls, ProcessCrashReported(p, c), n);
      match Place(ls, i, n - 1)
      case None =>
      case Some(k) =>
        if !ls[n - 1].Disconnect? {
          OwedAfterStep(nets[n - 1], ls[n - 1], k, p, c);
        } else if k != ls[n - 1].at {
          OwedAfterDisconnect(nets[n - 1], ls[n - 1].at, k, p, c);
        }
    }
  }

  function Lookups(n: Node, p: Name, c: Name): nat {
    Count(n.effects, CrashLookup(p, c))
  }

  predicate Settled(net: Net, i: nat)
    requires i < |net.replicas|
  {
    net.primary.dq == [] && net.primary.eq == []
    && net.replicas[i].client.down == [] && net.replicas[i].node.dq == [] && net.replicas[i].node.eq == []
  }

  /**
   Delivery.  Between two points where the queues are empty, whatever happens in between and
   whichever other clients come and go, each reported process crash has made exactly one lookup at
   the primary and one at each replica that is still connected.
   */
  lemma ProcessCrashDelivered(nets: seq<Net>, ls: seq<Step>, i: nat, p: Name, c: Name)
    requires IsRun(nets, ls) && i < |nets[0].replicas| && Settled(nets[0], i)
    ensures match Place(ls, i, |ls|)
            case None => true
            case Some(k) =>
              && k < |nets[|ls|].replicas|
              && (Settled(nets[|ls|], k) ==>
                    && Lookups(nets[|ls|].primary, p, c)
                       == Lookups(nets[0].primary, p, c) + Times(nets, ls, ProcessCrashReported(p, c), |ls|)
                    && Lookups(nets[|ls|].replicas[k].node, p, c)
                       == Lookups(nets[0].replicas[i].node, p, c) + Times(nets, ls, ProcessCrashReported(p, c), |ls|))
  {
    PrimaryCrashesAreConserved(nets, ls, p, c, |ls|);
    ReplicaCrashesAreConserved(nets, ls, i, p, c, |ls|);
  }
}
