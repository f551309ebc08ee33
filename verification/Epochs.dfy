/** The recovery epoch: issued by the master as an absolute number, carried by
    global failure notices that may be lost, repeated and reordered, adopted by
    each daemon as it comes. */
module Epochs {
  import opened Words

  /** The next 32-bit number. */
  function Succ32(n: nat): nat { (n + 1) % WIDTH }

  function Max(a: nat, b: nat): nat { if a <= b then b else a }

  /** The master's counter of epochs handed out. */
  class Issuer {
    var issued: nat

    predicate Valid()
      reads this
    {
      issued < WIDTH
    }

    constructor ()
      ensures Valid() && issued == 0
    {
      issued := 0;
    }

    /** prte_grpcomm_issue_epoch. */
    method Issue() returns (e: nat)
      requires Valid()
      modifies this
      ensures Valid() && e == issued
      ensures e != old(issued) && (e < old(issued) <==> old(issued) == WIDTH - 1)
      ensures e == Succ32(old(issued))
    {
      issued := (issued + 1) % WIDTH;
      e := issued;
    }
  }

  /** A daemon's epoch, and how often it has restarted its collectives. */
  class Recovery {
    var epoch: nat
    var restarts: nat

    constructor ()
      ensures epoch == 0 && restarts == 0
    {
      epoch, restarts := 0, 0;
    }

    /** prte_grpcomm_advance_epoch. */
    method Advance(to: nat)
      modifies this
      ensures epoch == Max(old(epoch), to)
      ensures restarts == old(restarts) + if to > old(epoch) then 1 else 0
    {
      if to <= epoch { return; }
      epoch := to;
      restarts := restarts + 1;
    }
  }

  // ---- one daemon ----

  /** `got` is what the daemon has processed so far. */
  datatype Node = Node(epoch: nat, restarts: nat, got: seq<nat>)

  const FRESH := Node(0, 0, [])

  function Took(n: Node, to: nat): Node {
    Node(Max(n.epoch, to), n.restarts + if to > n.epoch then 1 else 0, n.got + [to])
  }

  function TookAll(p: seq<nat>): (n: Node)
    ensures n.got == p
  {
    if p == [] then FRESH else Took(TookAll(p[..|p| - 1]), p[|p| - 1])
  }

  /** `top` is the largest of these, or 0. */
  ghost predicate Largest(p: seq<nat>, top: nat) {
    (forall e :: e in p ==> e <= top) && (top == 0 || top in p)
  }

  lemma LargestNext(q: seq<nat>, e: nat, top: nat)
    requires Largest(q, top)
    ensures Largest(q + [e], Max(top, e))
  {
  }

  /** The epoch is the largest one processed, whatever the order, the losses and
      the repeats; it never goes back. */
  lemma {:induction false} EpochIsLargest(p: seq<nat>)
    ensures Largest(p, TookAll(p).epoch)
    ensures p != [] ==> TookAll(p[..|p| - 1]).epoch <= TookAll(p).epoch
  {
    if p != [] {
      var q, e := p[..|p| - 1], p[|p| - 1];
      EpochIsLargest(q);
      assert p == q + [e];
      LargestNext(q, e, TookAll(q).epoch);
    }
  }

  /** So it depends only on which notices a daemon processed. */
  lemma SameNoticesSameEpoch(p: seq<nat>, q: seq<nat>)
    requires forall e :: e in p <==> e in q
    ensures TookAll(p).epoch == TookAll(q).epoch
  {
    EpochIsLargest(p);
    EpochIsLargest(q);
  }

  ghost predicate Rising(p: seq<nat>) {
    (p != [] ==> p[0] > 0) && forall i, j :: 0 <= i < j < |p| ==> p[i] < p[j]
  }

  /** One more notice keeps them rising exactly when it is news. */
  lemma RisingNext(q: seq<nat>, e: nat, top: nat)
    requires Rising(q) && Largest(q, top)
    ensures Rising(q + [e]) <==> e > top
  {
    var p := q + [e];
    if e > top {
      forall i, j | 0 <= i < j < |p| ensures p[i] < p[j] { assert j == |q| ==> p[i] in q; }
    } else if top != 0 {
      var i :| 0 <= i < |q| && q[i] == top;
      assert p[i] >= p[|q|];
    } else {
      assert p[|q|] == 0;
      assert q != [] ==> p[0] > 0;
    }
  }

  /** Every notice causes a restart exactly when they come in order, once each. */
  lemma {:induction false} RestartPerNotice(p: seq<nat>)
    ensures TookAll(p).restarts <= |p|
    ensures TookAll(p).restarts == |p| <==> Rising(p)
  {
    if p != [] {
      var q, e := p[..|p| - 1], p[|p| - 1];
      RestartPerNotice(q);
      assert p == q + [e];
      EpochIsLargest(q);
      if Rising(q) { RisingNext(q, e, TookAll(q).epoch); } else { NotRising(q, e); }
    }
  }

  lemma NotRising(q: seq<nat>, e: nat)
    requires !Rising(q)
    ensures !Rising(q + [e])
  {
    var p := q + [e];
    assert forall i :: 0 <= i < |q| ==> p[i] == q[i];
  }

  // ---- the DVM ----

  /** `sent` are the notices the master has originated, oldest first. */
  datatype Dvm = Dvm(issued: nat, sent: seq<nat>, nodes: map<nat, Node>)

  /** A failure is noticed at the master; or a copy of some notice sent so far
      reaches a daemon (the master's own relayed-back copy included). */
  datatype Step = Fail | Reach(d: nat, i: nat)

  function Start(ranks: set<nat>): Dvm { Dvm(0, [], map d | d in ranks :: FRESH) }

  function Do(s: Dvm, step: Step): Dvm {
    match step
    case Fail => s.(issued := Succ32(s.issued), sent := s.sent + [Succ32(s.issued)])
    case Reach(d, i) =>
      if d in s.nodes && i < |s.sent| then s.(nodes := s.nodes[d := Took(s.nodes[d], s.sent[i])]) else s
  }

  function Exec(ranks: set<nat>, steps: seq<Step>): Dvm {
    if steps == [] then Start(ranks) else Do(Exec(ranks, steps[..|steps| - 1]), steps[|steps| - 1])
  }

  ghost predicate Inv(s: Dvm) {
    && s.issued == |s.sent| % WIDTH
    && (forall i :: 0 <= i < |s.sent| ==> s.sent[i] == (i + 1) % WIDTH)
    && (forall d :: d in s.nodes ==> NodeOk(s.sent, s.nodes[d]))
  }

  /** A daemon is what the notices it has processed made of it. */
  ghost predicate NodeOk(sent: seq<nat>, n: Node) {
    n == TookAll(n.got) && forall e :: e in n.got ==> e in sent
  }

  lemma DoKeeps(s: Dvm, step: Step)
    requires Inv(s)
    ensures Inv(Do(s, step))
  {
    match step
    case Fail =>
      Succ32Of(|s.sent|);
      forall d | d in s.nodes ensures NodeOk(Do(s, Fail).sent, s.nodes[d]) { assert NodeOk(s.sent, s.nodes[d]); }
    case Reach(d, i) =>
      if d in s.nodes && i < |s.sent| { TookOk(s.sent, s.nodes[d], i); }
  }

  lemma TookOk(sent: seq<nat>, n: Node, i: nat)
    requires NodeOk(sent, n) && i < |sent|
    ensures NodeOk(sent, Took(n, sent[i]))
  {
    var got := n.got + [sent[i]];
    assert got[..|got| - 1] == n.got;
  }

  lemma Succ32Of(n: nat)
    ensures Succ32(n % WIDTH) == (n + 1) % WIDTH
  {
  }

  lemma {:induction false} ExecKeeps(ranks: set<nat>, steps: seq<Step>)
    ensures Inv(Exec(ranks, steps))
  {
    if steps != [] {
      ExecKeeps(ranks, steps[..|steps| - 1]);
      DoKeeps(Exec(ranks, steps[..|steps| - 1]), steps[|steps| - 1]);
    }
  }

  /** Any 2^32 notices in a row carry distinct epochs, however issuing and the
      relayed-back copies interleave. */
  lemma IssuedDistinct(ranks: set<nat>, steps: seq<Step>, i: nat, j: nat)
    requires i < j < |Exec(ranks, steps).sent| && j - i < WIDTH
    ensures Exec(ranks, steps).sent[i] != Exec(ranks, steps).sent[j]
  {
    ExecKeeps(ranks, steps);
    Distinct32(i + 1, j + 1);
  }

  lemma Distinct32(i: nat, j: nat)
    requires i < j && j - i < WIDTH
    ensures i % WIDTH != j % WIDTH
  {
  }

  /** Below 2^32 notices, whatever was lost, repeated or reordered: a daemon is
      at the largest epoch it processed and never past what was issued, and the
      daemons that have processed the newest notice agree. */
  lemma EpochsAgree(ranks: set<nat>, steps: seq<Step>, c: nat, d: nat)
    requires var s := Exec(ranks, steps); c in s.nodes && d in s.nodes && 0 < |s.sent| < WIDTH
    ensures var s := Exec(ranks, steps);
            && s.nodes[d].epoch == TookAll(s.nodes[d].got).epoch
            && s.nodes[d].epoch <= s.issued == |s.sent|
            && (s.issued in s.nodes[c].got && s.issued in s.nodes[d].got ==>
                  s.nodes[c].epoch == s.nodes[d].epoch == s.issued)
  {
    ExecKeeps(ranks, steps);
    NodeBounded(Exec(ranks, steps), c);
    NodeBounded(Exec(ranks, steps), d);
  }

  lemma NodeBounded(s: Dvm, d: nat)
    requires Inv(s) && d in s.nodes && |s.sent| < WIDTH
    ensures s.nodes[d].epoch <= s.issued == |s.sent|
    ensures s.issued in s.nodes[d].got ==> s.nodes[d].epoch == s.issued
  {
    EpochIsLargest(s.nodes[d].got);
    assert forall e :: e in s.sent ==> e <= |s.sent|;
  }

  /** The first `n` notices, as issued. */
  function Issued(n: nat): (p: seq<nat>)
    ensures |p| == n && forall i :: 0 <= i < n ==> p[i] == (i + 1) % WIDTH
  {
    seq(n, i => (i + 1) % WIDTH)
  }

  /** Delivered in order and without loss, each notice causes one restart if and
      only if there are fewer than 2^32 of them. */
  lemma OneRestartEach(n: nat)
    ensures TookAll(Issued(n)).restarts == n <==> n < WIDTH
  {
    RestartPerNotice(Issued(n));
    IssuedRise(n);
  }

  lemma IssuedRise(n: nat)
    ensures Rising(Issued(n)) <==> n < WIDTH
  {
    if n >= WIDTH {
      assert Issued(n)[WIDTH - 1] == 0 && Issued(n)[0] == 1;
    }
  }

  // ---- why the issuer counts for itself ----

  /** The same DVM, were the number the master's own epoch plus one. */
  function NaiveDo(s: Dvm, step: Step): Dvm {
    if step.Fail? && 0 in s.nodes then s.(sent := s.sent + [Succ32(s.nodes[0].epoch)]) else Do(s, step)
  }

  function NaiveExec(ranks: set<nat>, steps: seq<Step>): Dvm {
    if steps == [] then Start(ranks) else NaiveDo(NaiveExec(ranks, steps[..|steps| - 1]), steps[|steps| - 1])
  }

  /** Two failures noticed before the first notice is relayed back would then
      carry one number, and a daemon that processes both restarts once. */
  lemma NaiveCollapses() returns (steps: seq<Step>)
    ensures 1 in Exec({0, 1}, steps).nodes && Exec({0, 1}, steps).nodes[1].restarts == 2
    ensures 1 in NaiveExec({0, 1}, steps).nodes && NaiveExec({0, 1}, steps).nodes[1].restarts == 1
  {
    steps := [Fail, Fail, Reach(1, 0), Reach(1, 1)];
    assert steps[..3] == [Fail, Fail, Reach(1, 0)] && steps[..3][..2] == [Fail, Fail]
        && steps[..3][..2][..1] == [Fail] && steps[..3][..2][..1][..0] == [];
    assert Exec({0, 1}, [Fail, Fail]).sent == [1, 2] by { assert Exec({0, 1}, [Fail]).sent == [1]; }
    assert NaiveExec({0, 1}, [Fail, Fail]).sent == [1, 1] by { assert NaiveExec({0, 1}, [Fail]).sent == [1]; }
  }
}
