/**
 The echo of a service failure over whole runs.  A replica sends every failure it is told of back
 to the primary, which tells all clients of other contexts again: what becomes of the traffic
 depends only on how many of those there are.
 */
module Echo {
  import opened Protocol
  import opened Traffic

  /** A run without connections or disconnections, after every replica has introduced itself. */
  ghost predicate EchoRun(nets: seq<Net>, ls: seq<Step>) {
    && IsRun(nets, ls) && AllIntroduced(nets[0])
    && forall i :: 0 <= i < |ls| ==> !Membership(ls[i])
  }

  /**
   The books after some steps: c client-bound and p primary-bound failures of the service are left;
   fp and fr were handled at the primary and at replicas, cp and cr crashes were new there.
   */
  datatype Books = Books(c: nat, p: nat, fp: nat, fr: nat, cp: nat, cr: nat) {
    function Delivered(): nat { fp + fr }

    function Announced(): nat { cp + cr }
  }

  function BooksAt(nets: seq<Net>, ls: seq<Step>, s: Name, c: Name, n: nat): Books
    requires IsRun(nets, ls) && n <= |ls|
  {
    Books(ClientBound(nets[n], s, c), PrimaryBound(nets[n], s, c),
          Times(nets, ls, FailureAtPrimary(s, c), n), Times(nets, ls, FailureAtReplica(s, c), n),
          Times(nets, ls, CrashAtPrimary(s, c), n), Times(nets, ls, CrashAtReplica(s, c), n))
  }

  /** m * x, as a repeated sum. */
  function Copies(m: nat, x: nat): nat {
    if x == 0 then 0 else Copies(m, x - 1) + m
  }

  lemma {:induction false} CopiesIsProduct(m: nat, x: nat)
    ensures Copies(m, x) == m * x
  {
    if x > 0 {
      CopiesIsProduct(m, x - 1);
      assert m * (x - 1) + m == m * x;
    }
  }

  /** Each failure handled at the primary is announced m times, each one at a replica comes back. */
  predicate Balanced(m: nat, b0: Books, b: Books) {
    b.c + b.fr == b0.c + Copies(m, b.fp + b.cp) && b.p + b.fp == b0.p + b.fr + b.cr
  }

  /** One step in the books. */
  predicate Moves(m: nat, b: Books, b': Books) {
    && b.fp <= b'.fp && b.fr <= b'.fr && b.cp <= b'.cp && b.cr <= b'.cr
    && b'.fp + b'.cp <= b.fp + b.cp + 1 && b'.Delivered() <= b.Delivered() + 1
    && b'.c + b'.fr == b.c + b.fr + (if b'.fp + b'.cp > b.fp + b.cp then m else 0)
    && b'.p + b'.fp + b.fr + b.cr == b.p + b.fp + b'.fr + b'.cr
  }

  lemma BooksMove(nets: seq<Net>, ls: seq<Step>, s: Name, c: Name, i: nat)
    requires IsRun(nets, ls) && i < |ls| && !Membership(ls[i]) && AllIntroduced(nets[i])
    ensures Moves(Others(nets[i], c), BooksAt(nets, ls, s, c, i), BooksAt(nets, ls, s, c, i + 1))
    ensures AllIntroduced(nets[i + 1]) && Others(nets[i + 1], c) == Others(nets[i], c)
  {
    EchoStepAt(nets, ls, i, s, c);
    TimesStep(nets, ls, FailureAtPrimary(s, c), i + 1);
    TimesStep(nets, ls, FailureAtReplica(s, c), i + 1);
    TimesStep(nets, ls, CrashAtPrimary(s, c), i + 1);
    TimesStep(nets, ls, CrashAtReplica(s, c), i + 1);
  }

  lemma MoveKeepsBalance(m: nat, b0: Books, b: Books, b': Books)
    requires Balanced(m, b0, b) && Moves(m, b, b')
    ensures Balanced(m, b0, b')
  {
  }

  lemma {:induction false} EchoBalance(nets: seq<Net>, ls: seq<Step>, s: Name, c: Name, n: nat)
    requires EchoRun(nets, ls) && n <= |ls|
    ensures AllIntroduced(nets[n]) && Others(nets[n], c) == Others(nets[0], c)
    ensures Balanced(Others(nets[0], c), BooksAt(nets, ls, s, c, 0), BooksAt(nets, ls, s, c, n))
    decreases n
  {
    if n == 0 {
      assert BooksAt(nets, ls, s, c, 0).fp == BooksAt(nets, ls, s, c, 0).fr == 0;
    } else {
      EchoBalance(nets, ls, s, c, n - 1);
      BooksMove(nets, ls, s, c, n - 1);
      MoveKeepsBalance(Others(nets[0], c), BooksAt(nets, ls, s, c, 0), BooksAt(nets, ls, s, c, n - 1),
            BooksAt(nets, ls, s, c, n));
    }
  }

  /** Client-bound failures, and m for each primary-bound one. */
  function Weighed(m: nat, b: Books): nat {
    b.c + m * b.p
  }

  /** The weight law, in the books: a failure handled at the primary changes nothing. */
  predicate WeightLaw(m: nat, b0: Books, b: Books) {
    Weighed(m, b) == Weighed(m, b0) + (m - 1) * b.fr + m * b.Announced()
  }

  lemma BalanceWeighs(m: nat, b0: Books, b: Books)
    requires Balanced(m, b0, b)
    ensures WeightLaw(m, b0, b)
  {
    CopiesIsProduct(m, b.fp + b.cp);
    Distribute(m, b.fp, b.cp);
    Distribute(m, b.p, b.fp);
    Distribute(m, b0.p + b.fr, b.cr);
    Distribute(m, b0.p, b.fr);
    Distribute(m, b.cp, b.cr);
    assert (m - 1) * b.fr == m * b.fr - b.fr;
  }

  lemma Distribute(m: nat, x: nat, y: nat)
    ensures m * (x + y) == m * x + m * y
  {
  }

  /**
   The weight law.  A failure handled at the primary leaves the weight as it is, one handled at a
   replica changes it by m - 1, and a new crash of the service adds m.
   */
  lemma EchoWeightLaw(nets: seq<Net>, ls: seq<Step>, s: Name, c: Name, n: nat)
    requires EchoRun(nets, ls) && n <= |ls|
    ensures Others(nets[n], c) == Others(nets[0], c)
    ensures WeightLaw(Others(nets[0], c), BooksAt(nets, ls, s, c, 0), BooksAt(nets, ls, s, c, n))
  {
    EchoBalance(nets, ls, s, c, n);
    BalanceWeighs(Others(nets[0], c), BooksAt(nets, ls, s, c, 0), BooksAt(nets, ls, s, c, n));
  }

  /**
   What m other clients make of the failures.  None: every failure is handled at most once more at
   a replica and once at the primary.  One: their number is conserved, however often they are
   handled.  Two or more: their weight grows with every second delivery.
   */
  predicate Fate(m: nat, b0: Books, b: Books) {
    && (m == 0 ==> b.Delivered() + 2 * b.c + b.p == 2 * b0.c + b0.p + b.cr)
    && (m == 1 ==> b.c + b.p == b0.c + b0.p + b.Announced())
    && (m >= 1 ==> Weighed(m, b) >= Weighed(m, b0))
    && (m >= 1 ==> 2 * (Weighed(m, b) - Weighed(m, b0)) >= (m - 1) * (b.Delivered() - b0.p))
  }

  lemma BalanceDecidesFate(m: nat, b0: Books, b: Books)
    requires Balanced(m, b0, b)
    ensures Fate(m, b0, b)
  {
    if m <= 1 { CopiesIsProduct(m, b.fp + b.cp); }
    BalanceWeighs(m, b0, b);
    if m >= 1 { GrowthArithmetic(m, b.fr, b.Delivered() - b0.p, b.Announced()); }
  }

  lemma EchoFate(nets: seq<Net>, ls: seq<Step>, s: Name, c: Name, n: nat)
    requires EchoRun(nets, ls) && n <= |ls|
    ensures Fate(Others(nets[0], c), BooksAt(nets, ls, s, c, 0), BooksAt(nets, ls, s, c, n))
  {
    EchoBalance(nets, ls, s, c, n);
    BalanceDecidesFate(Others(nets[0], c), BooksAt(nets, ls, s, c, 0), BooksAt(nets, ls, s, c, n));
  }

  lemma GrowthArithmetic(m: nat, fr: nat, x: int, a: nat)
    requires m >= 1 && x <= 2 * fr + a
    ensures (m - 1) * fr >= 0 && m * a >= 0
    ensures 2 * ((m - 1) * fr + m * a) >= (m - 1) * x
  {
    calc {
      (m - 1) * x;
    <= { MulMonotone(m - 1, x, 2 * fr + a); }
      (m - 1) * (2 * fr + a);
      2 * ((m - 1) * fr) + (m - 1) * a;
    <=
      2 * ((m - 1) * fr) + 2 * (m * a);
    }
  }

  lemma MulMonotone(m: nat, x: int, y: int)
    requires x <= y
    ensures m * x <= m * y
  {
  }

  // ---- Runs that deliver ever more ----

  lemma {:induction false} TimesOfPrefix(nets: seq<Net>, ls: seq<Step>, nets': seq<Net>, ls': seq<Step>,
        o: Occasion, n: nat)
    requires IsRun(nets, ls) && IsRun(nets', ls') && n <= |ls| <= |ls'|
    requires nets == nets'[..|nets|] && ls == ls'[..|ls|]
    ensures Times(nets', ls', o, n) == Times(nets, ls, o, n)
    decreases n
  {
    if n > 0 {
      TimesOfPrefix(nets, ls, nets', ls', o, n - 1);
      assert StepAt(nets, ls, n - 1) && StepAt(nets', ls', n - 1);
    }
  }

  /** The run goes on from the same start, without new crashes of the service. */
  ghost predicate Extends(nets: seq<Net>, ls: seq<Step>, nets': seq<Net>, ls': seq<Step>, s: Name, c: Name)
    requires IsRun(nets, ls) && IsRun(nets', ls')
  {
    && nets'[0] == nets[0] && EchoRun(nets', ls')
    && BooksAt(nets', ls', s, c, |ls'|).Announced() == BooksAt(nets, ls, s, c, |ls|).Announced()
    && BooksAt(nets', ls', s, c, |ls'|).Delivered() >= BooksAt(nets, ls, s, c, |ls|).Delivered()
  }

  /** A step that handles no crash. */
  predicate Quiet(l: Step) {
    || l.ReceiveUp? || l.ReceiveDown?
    || (l.PrimaryDispatch? && l.answer == NoUnit) || (l.ReplicaDispatch? && l.answer == NoUnit)
  }

  lemma GoCounts(nets: seq<Net>, ls: seq<Step>, nets': seq<Net>, l: Step, o: Occasion)
    requires IsRun(nets, ls) && IsRun(nets', ls + [l]) && nets'[..|nets|] == nets
    ensures Enabled(nets[|ls|], l)
    ensures Times(nets', ls + [l], o, |ls| + 1) == Times(nets, ls, o, |ls|) + Once(nets[|ls|], l, o)
  {
    TimesOfPrefix(nets, ls, nets', ls + [l], o, |ls|);
    TimesStep(nets', ls + [l], o, |ls| + 1);
    assert nets'[|ls|] == nets'[..|nets|][|ls|];
  }

  lemma GoRun(nets: seq<Net>, ls: seq<Step>, l: Step) returns (nets': seq<Net>)
    requires EchoRun(nets, ls) && Enabled(nets[|ls|], l) && !Membership(l)
    ensures EchoRun(nets', ls + [l]) && nets'[..|nets|] == nets && nets'[|ls| + 1] == Next(nets[|ls|], l)
  {
    nets' := nets + [Next(nets[|ls|], l)];
    forall i | 0 <= i < |ls| + 1 ensures StepAt(nets', ls + [l], i) {
      assert i < |ls| ==> StepAt(nets, ls, i);
    }
  }

  lemma Go(nets: seq<Net>, ls: seq<Step>, l: Step, s: Name, c: Name) returns (nets': seq<Net>, ls': seq<Step>)
    requires EchoRun(nets, ls) && Enabled(nets[|ls|], l) && Quiet(l)
    ensures IsRun(nets', ls') && Extends(nets, ls, nets', ls', s, c)
    ensures nets'[|ls'|] == Next(nets[|ls|], l)
    ensures Happens(nets[|ls|], l, FailureAtPrimary(s, c)) || Happens(nets[|ls|], l, FailureAtReplica(s, c)) ==>
              BooksAt(nets', ls', s, c, |ls'|).Delivered() > BooksAt(nets, ls, s, c, |ls|).Delivered()
  {
    ls' := ls + [l];
    nets' := GoRun(nets, ls, l);
    GoCounts(nets, ls, nets', l, FailureAtPrimary(s, c));
    GoCounts(nets, ls, nets', l, FailureAtReplica(s, c));
    GoCounts(nets, ls, nets', l, CrashAtPrimary(s, c));
    GoCounts(nets, ls, nets', l, CrashAtReplica(s, c));
    assert nets'[0] == nets'[..|nets|][0];
  }

  // ---- From anywhere in the network to a handler ----

  lemma {:induction false} DeliverAtPrimary(nets: seq<Net>, ls: seq<Step>, s: Name, c: Name)
    returns (nets': seq<Net>, ls': seq<Step>)
    requires EchoRun(nets, ls) && FailedEvent(s, c) in nets[|ls|].primary.dq
    ensures IsRun(nets', ls') && Extends(nets, ls, nets', ls', s, c)
    ensures BooksAt(nets', ls', s, c, |ls'|).Delivered() > BooksAt(nets, ls, s, c, |ls|).Delivered()
    decreases |nets[|ls|].primary.dq|
  {
    var net := nets[|ls|];
    nets', ls' := Go(nets, ls, PrimaryDispatch(NoUnit), s, c);
    if net.primary.dq[0] != FailedEvent(s, c) {
      nets', ls' := DeliverAtPrimary(nets', ls', s, c);
    }
  }

  lemma {:induction false} DeliverAtReplica(nets: seq<Net>, ls: seq<Step>, i: nat, s: Name, c: Name)
    returns (nets': seq<Net>, ls': seq<Step>)
    requires EchoRun(nets, ls) && i < |nets[|ls|].replicas| && FailedEvent(s, c) in nets[|ls|].replicas[i].node.dq
    ensures IsRun(nets', ls') && Extends(nets, ls, nets', ls', s, c)
    ensures BooksAt(nets', ls', s, c, |ls'|).Delivered() > BooksAt(nets, ls, s, c, |ls|).Delivered()
    decreases |nets[|ls|].replicas[i].node.dq|
  {
    var net := nets[|ls|];
    nets', ls' := Go(nets, ls, ReplicaDispatch(i, NoUnit), s, c);
    if net.replicas[i].node.dq[0] != FailedEvent(s, c) {
      nets', ls' := DeliverAtReplica(nets', ls', i, s, c);
    }
  }

  lemma {:induction false} DeliverDown(nets: seq<Net>, ls: seq<Step>, i: nat, s: Name, c: Name)
    returns (nets': seq<Net>, ls': seq<Step>)
    requires EchoRun(nets, ls) && i < |nets[|ls|].replicas|
    requires Packet(InformClientServiceFailed, s, c) in nets[|ls|].replicas[i].client.down
    ensures IsRun(nets', ls') && Extends(nets, ls, nets', ls', s, c)
    ensures BooksAt(nets', ls', s, c, |ls'|).Delivered() > BooksAt(nets, ls, s, c, |ls|).Delivered()
    decreases |nets[|ls|].replicas[i].client.down|
  {
    var r := nets[|ls|].replicas[i];
    nets', ls' := Go(nets, ls, ReceiveDown(i), s, c);
    if r.client.down[0] != Packet(InformClientServiceFailed, s, c) {
      nets', ls' := DeliverDown(nets', ls', i, s, c);
    } else {
      assert nets'[|ls'|].replicas[i].node.dq == r.node.dq + [FailedEvent(s, c)];
      nets', ls' := DeliverAtReplica(nets', ls', i, s, c);
    }
  }

  lemma {:induction false} DeliverUp(nets: seq<Net>, ls: seq<Step>, i: nat, s: Name, c: Name)
    returns (nets': seq<Net>, ls': seq<Step>)
    requires EchoRun(nets, ls) && i < |nets[|ls|].replicas|
    requires Packet(InformPrimaryServiceFailed, s, c) in nets[|ls|].replicas[i].up
    ensures IsRun(nets', ls') && Extends(nets, ls, nets', ls', s, c)
    ensures BooksAt(nets', ls', s, c, |ls'|).Delivered() > BooksAt(nets, ls, s, c, |ls|).Delivered()
    decreases |nets[|ls|].replicas[i].up|
  {
    var net := nets[|ls|];
    nets', ls' := Go(nets, ls, ReceiveUp(i), s, c);
    if net.replicas[i].up[0] != Packet(InformPrimaryServiceFailed, s, c) {
      nets', ls' := DeliverUp(nets', ls', i, s, c);
    } else {
      assert nets'[|ls'|].primary.dq == net.primary.dq + [FailedEvent(s, c)];
      nets', ls' := DeliverAtPrimary(nets', ls', s, c);
    }
  }

  lemma {:induction false} TotalHasSource(rs: seq<Replica>, k: Measure) returns (i: nat)
    requires Total(rs, k) > 0
    ensures i < |rs| && Weight(rs[i], k) > 0
  {
    if Weight(rs[0], k) > 0 {
      i := 0;
    } else {
      i := TotalHasSource(rs[1..], k);
      i := i + 1;
    }
  }

  /** As long as a failure is somewhere in the network, the run can go on to handle one. */
  lemma Deliver(nets: seq<Net>, ls: seq<Step>, s: Name, c: Name) returns (nets': seq<Net>, ls': seq<Step>)
    requires EchoRun(nets, ls) && ClientBound(nets[|ls|], s, c) + PrimaryBound(nets[|ls|], s, c) > 0
    ensures IsRun(nets', ls') && Extends(nets, ls, nets', ls', s, c)
    ensures BooksAt(nets', ls', s, c, |ls'|).Delivered() > BooksAt(nets, ls, s, c, |ls|).Delivered()
  {
    var net := nets[|ls|];
    if FailedEvent(s, c) in net.primary.dq {
      nets', ls' := DeliverAtPrimary(nets, ls, s, c);
    } else if Total(net.replicas, TowardPrimary(s, c)) > 0 {
      var i := TotalHasSource(net.replicas, TowardPrimary(s, c));
      nets', ls' := DeliverUp(nets, ls, i, s, c);
    } else {
      var i := TotalHasSource(net.replicas, TowardClients(s, c));
      if FailedEvent(s, c) in net.replicas[i].node.dq {
        nets', ls' := DeliverAtReplica(nets, ls, i, s, c);
      } else {
        nets', ls' := DeliverDown(nets, ls, i, s, c);
      }
    }
  }

  /** No run without new crashes handles more than `bound` failures of the service. */
  ghost predicate Bounded(net: Net, s: Name, c: Name, bound: nat) {
    forall nets, ls :: EchoRun(nets, ls) && nets[0] == net && BooksAt(nets, ls, s, c, |ls|).Announced() == 0 ==>
      BooksAt(nets, ls, s, c, |ls|).Delivered() <= bound
  }

  ghost predicate Drains(net: Net, s: Name, c: Name) {
    exists bound :: Bounded(net, s, c, bound)
  }

  /** With another client around, failures never die out, and can be handled as often as one likes. */
  lemma {:induction false} DeliverMany(net: Net, s: Name, c: Name, times: nat) returns (nets: seq<Net>, ls: seq<Step>)
    requires AllIntroduced(net) && Others(net, c) >= 1 && ClientBound(net, s, c) + PrimaryBound(net, s, c) > 0
    ensures EchoRun(nets, ls) && nets[0] == net && BooksAt(nets, ls, s, c, |ls|).Announced() == 0
    ensures BooksAt(nets, ls, s, c, |ls|).Delivered() >= times
    decreases times
  {
    if times == 0 {
      nets, ls := [net], [];
    } else {
      nets, ls := DeliverMany(net, s, c, times - 1);
      StaysAlive(nets, ls, s, c);
      nets, ls := Deliver(nets, ls, s, c);
    }
  }

  lemma StaysAlive(nets: seq<Net>, ls: seq<Step>, s: Name, c: Name)
    requires EchoRun(nets, ls) && Others(nets[0], c) >= 1
    requires ClientBound(nets[0], s, c) + PrimaryBound(nets[0], s, c) > 0
    ensures ClientBound(nets[|ls|], s, c) + PrimaryBound(nets[|ls|], s, c) > 0
  {
    EchoFate(nets, ls, s, c, |ls|);
    WeightIsAlive(Others(nets[0], c), BooksAt(nets, ls, s, c, 0));
    WeightIsAlive(Others(nets[0], c), BooksAt(nets, ls, s, c, |ls|));
  }

  lemma WeightIsAlive(m: nat, b: Books)
    requires m >= 1
    ensures Weighed(m, b) > 0 <==> b.c + b.p > 0
  {
    if b.p > 0 { MulMonotone(b.p, 1, m); }
  }

  /** Announced failures die out exactly if nobody else is connected, or there are none. */
  lemma EchoDrainsIff(net: Net, s: Name, c: Name)
    requires AllIntroduced(net)
    ensures Drains(net, s, c) <==> Others(net, c) == 0 || ClientBound(net, s, c) + PrimaryBound(net, s, c) == 0
  {
    var b0 := ClientBound(net, s, c) + PrimaryBound(net, s, c);
    if Others(net, c) == 0 {
      FewDrain(net, s, c);
    } else if b0 == 0 {
      NothingDrains(net, s, c);
    } else if bound: nat :| Bounded(net, s, c, bound) {
      var nets, ls := DeliverMany(net, s, c, bound + 1);
      assert false;
    }
  }

  lemma FewDrain(net: Net, s: Name, c: Name)
    requires AllIntroduced(net) && Others(net, c) == 0
    ensures Bounded(net, s, c, 2 * ClientBound(net, s, c) + PrimaryBound(net, s, c))
  {
    forall nets, ls | EchoRun(nets, ls) && nets[0] == net && BooksAt(nets, ls, s, c, |ls|).Announced() == 0
      ensures BooksAt(nets, ls, s, c, |ls|).Delivered() <= 2 * ClientBound(net, s, c) + PrimaryBound(net, s, c)
    {
      EchoFate(nets, ls, s, c, |ls|);
    }
  }

  lemma NothingDrains(net: Net, s: Name, c: Name)
    requires AllIntroduced(net) && ClientBound(net, s, c) + PrimaryBound(net, s, c) == 0
    ensures Bounded(net, s, c, 0)
  {
    forall nets, ls | EchoRun(nets, ls) && nets[0] == net && BooksAt(nets, ls, s, c, |ls|).Announced() == 0
      ensures BooksAt(nets, ls, s, c, |ls|).Delivered() <= 0
    {
      NothingMoves(nets, ls, s, c, |ls|);
    }
  }

  lemma NothingToMove(m: nat, b: Books, b': Books)
    requires Moves(m, b, b') && b.c == b.p == 0 && b'.Announced() == b.Announced()
    ensures b' == b
  {
  }

  /** Nothing on its way and nothing handled so far. */
  predicate Idle(b: Books) {
    b.c == b.p == b.fp == b.fr == 0
  }

  lemma {:induction false} NothingMoves(nets: seq<Net>, ls: seq<Step>, s: Name, c: Name, n: nat)
    requires EchoRun(nets, ls) && n <= |ls| && BooksAt(nets, ls, s, c, n).Announced() == 0
    requires ClientBound(nets[0], s, c) + PrimaryBound(nets[0], s, c) == 0
    ensures AllIntroduced(nets[n]) && Idle(BooksAt(nets, ls, s, c, n))
    decreases n
  {
    if n > 0 {
      AnnouncedGrows(nets, ls, s, c, n);
      NothingMoves(nets, ls, s, c, n - 1);
      StaysIdle(nets, ls, s, c, n);
    }
  }

  lemma StaysIdle(nets: seq<Net>, ls: seq<Step>, s: Name, c: Name, n: nat)
    requires EchoRun(nets, ls) && 0 < n <= |ls| && AllIntroduced(nets[n - 1])
    requires BooksAt(nets, ls, s, c, n - 1).Announced() == BooksAt(nets, ls, s, c, n).Announced()
    requires Idle(BooksAt(nets, ls, s, c, n - 1))
    ensures AllIntroduced(nets[n]) && Idle(BooksAt(nets, ls, s, c, n))
  {
    BooksMove(nets, ls, s, c, n - 1);
    NothingToMove(Others(nets[n - 1], c), BooksAt(nets, ls, s, c, n - 1), BooksAt(nets, ls, s, c, n));
  }

  lemma AnnouncedGrows(nets: seq<Net>, ls: seq<Step>, s: Name, c: Name, n: nat)
    requires IsRun(nets, ls) && 0 < n <= |ls|
    ensures BooksAt(nets, ls, s, c, n - 1).Announced() <= BooksAt(nets, ls, s, c, n).Announced()
  {
    TimesStep(nets, ls, CrashAtPrimary(s, c), n);
    TimesStep(nets, ls, CrashAtReplica(s, c), n);
  }

  // ---- Multiplication ----

  /** For every bound there is a run without new crashes after which more failures are under way. */
  ghost predicate Multiplies(net: Net, s: Name, c: Name) {
    forall bound: nat :: Reaches(net, s, c, bound)
  }

  ghost predicate Reaches(net: Net, s: Name, c: Name, bound: nat) {
    exists nets, ls :: ReachesBy(nets, ls, net, s, c, bound)
  }

  ghost predicate ReachesBy(nets: seq<Net>, ls: seq<Step>, net: Net, s: Name, c: Name, bound: nat) {
    && EchoRun(nets, ls) && nets[0] == net && BooksAt(nets, ls, s, c, |ls|).Announced() == 0
    && BooksAt(nets, ls, s, c, |ls|).c + BooksAt(nets, ls, s, c, |ls|).p >= bound
  }

  lemma AtLeast(k: nat, x: nat)
    requires k >= 1
    ensures k * x >= x
  {
    MulMonotone(x, 1, k);
  }

  /** A weight of m * bound takes `bound` failures. */
  lemma WeightTakesFailures(m: nat, c: nat, p: nat, bound: nat)
    requires m >= 1 && c + m * p >= m * bound
    ensures c + p >= bound
  {
    if c + p < bound {
      MulMonotone(m, c + p + 1, bound);
      Distribute(m, c + p, 1);
      Distribute(m, c, p);
      AtLeast(m, c);
    }
  }

  /** Enough deliveries make any number of failures, when two other clients are told of each. */
  lemma FateMultiplies(m: nat, b0: Books, b: Books, goal: nat)
    requires m >= 2 && Fate(m, b0, b) && b.Delivered() >= 2 * goal + b0.p
    ensures Weighed(m, b) >= goal
  {
    AtLeast(m - 1, b.Delivered() - b0.p);
    MulMonotone(m, 0, b0.p);
  }

  lemma EchoMultiplies(net: Net, s: Name, c: Name, bound: nat) returns (nets: seq<Net>, ls: seq<Step>)
    requires AllIntroduced(net) && Others(net, c) >= 2 && ClientBound(net, s, c) + PrimaryBound(net, s, c) > 0
    ensures ReachesBy(nets, ls, net, s, c, bound)
  {
    var m := Others(net, c);
    MulMonotone(m, 0, bound);
    nets, ls := DeliverMany(net, s, c, 2 * (m * bound) + PrimaryBound(net, s, c));
    EchoFate(nets, ls, s, c, |ls|);
    var b := BooksAt(nets, ls, s, c, |ls|);
    FateMultiplies(m, BooksAt(nets, ls, s, c, 0), b, m * bound);
    WeightTakesFailures(m, b.c, b.p, bound);
  }

  /** Failures multiply without bound exactly if two clients of other contexts are connected and there is one. */
  lemma EchoMultipliesIff(net: Net, s: Name, c: Name)
    requires AllIntroduced(net)
    ensures Multiplies(net, s, c) <==> Others(net, c) >= 2 && ClientBound(net, s, c) + PrimaryBound(net, s, c) > 0
  {
    var c0, p0 := ClientBound(net, s, c), PrimaryBound(net, s, c);
    if Others(net, c) >= 2 && c0 + p0 > 0 {
      forall bound: nat ensures Reaches(net, s, c, bound) {
        var nets, ls := EchoMultiplies(net, s, c, bound);
      }
    } else if Multiplies(net, s, c) {
      assert Reaches(net, s, c, 2 * c0 + p0 + 1);
      var nets, ls :| ReachesBy(nets, ls, net, s, c, 2 * c0 + p0 + 1);
      FewStayFew(nets, ls, s, c);
    }
  }

  lemma FewStayFew(nets: seq<Net>, ls: seq<Step>, s: Name, c: Name)
    requires EchoRun(nets, ls) && BooksAt(nets, ls, s, c, |ls|).Announced() == 0
    requires Others(nets[0], c) < 2 || ClientBound(nets[0], s, c) + PrimaryBound(nets[0], s, c) == 0
    ensures BooksAt(nets, ls, s, c, |ls|).c + BooksAt(nets, ls, s, c, |ls|).p
         <= 2 * ClientBound(nets[0], s, c) + PrimaryBound(nets[0], s, c)
  {
    if ClientBound(nets[0], s, c) + PrimaryBound(nets[0], s, c) == 0 {
      NothingMoves(nets, ls, s, c, |ls|);
    } else {
      EchoFate(nets, ls, s, c, |ls|);
    }
  }
}
