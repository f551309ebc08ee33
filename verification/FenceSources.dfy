/** Where a count comes from: what each participant itself sent in this round at
    this epoch, passed on by messages of this round and epoch, hop after hop. */
module FenceSources {
  import opened RoutingTree
  import opened Fence
  import opened FenceContent
  import opened FenceSteps
  import opened FenceSystem

  /** A contribution delivered to `d` for round `k` of epoch `e`. */
  predicate Feeds(m: Msg, d: nat, e: nat, k: Key) {
    m.dst == d && m.epoch == e && m.key == k
  }

  ghost predicate Fed(net: set<Msg>, d: nat, e: nat, k: Key, x: nat) {
    exists m :: m in net && Feeds(m, d, e, k) && x in m.arrived
  }

  /** `x` itself sent its contribution to round `k` at epoch `e`. */
  ghost predicate SelfAt(net: set<Msg>, x: nat, e: nat, k: Key) {
    exists m :: m in net && Feeds(m, x, e, k) && m.src == x && m.arrived == {x}
  }

  /** `x` sent it at this epoch, and a message of this epoch brought it to `d`. */
  ghost predicate Traced(net: set<Msg>, d: nat, e: nat, k: Key, x: nat) {
    Fed(net, d, e, k, x) && SelfAt(net, x, e, k)
  }

  ghost predicate Heard(net: set<Msg>, d: nat, e: nat, k: Key, c: nat) {
    exists m :: m in net && Feeds(m, d, e, k) && m.src == c
  }

  /** Everything a live tracker has counted was sent at the epoch it counts in. */
  ghost predicate Sourced(net: set<Msg>, d: nat, e: nat, k: Key, t: Tracker) {
    Settled(d, t) ||
    ( && (forall x :: x in t.arrived ==> Traced(net, d, e, k, x))
      && (forall c :: c in t.slots ==> Heard(net, d, e, k, c))
      && (t.self ==> Heard(net, d, e, k, d)))
  }

  ghost predicate DaemonSourced(net: set<Msg>, me: nat, d: Daemon) {
    forall k :: k in d.ops ==> Sourced(net, me, d.epoch, k, d.ops[k])
  }

  ghost predicate ReleaseSourced(net: set<Msg>, r: Release) {
    r.status == Success ==> forall x :: x in r.arrived ==> Traced(net, 0, r.epoch, r.key, x)
  }

  /** What a message stands for was sent, and reached its sender, at the message's own epoch. */
  ghost predicate MsgSourced(net: set<Msg>, m: Msg) {
    forall x :: x in m.arrived ==> Traced(net, m.src, m.epoch, m.key, x)
  }

  ghost predicate OutcomeSourced(net: set<Msg>, me: nat, o: Outcome) {
    && DaemonSourced(net, me, o.d)
    && (forall m :: m in o.out ==> MsgSourced(net + o.out, m))
    && (forall r :: r in o.rel ==> ReleaseSourced(net, r))
  }

  ghost predicate Sources(s: State) {
    && (forall d :: d in s.ds ==> DaemonSourced(s.net, d, s.ds[d]))
    && (forall m :: m in s.net ==> MsgSourced(s.net, m))
    && (forall r :: r in s.log ==> ReleaseSourced(s.net, r))
  }

  lemma SourcedMono(a: set<Msg>, b: set<Msg>, me: nat, d: Daemon)
    requires a <= b && DaemonSourced(a, me, d)
    ensures DaemonSourced(b, me, d)
  {
    forall k | k in d.ops ensures Sourced(b, me, d.epoch, k, d.ops[k]) {
      assert Sourced(a, me, d.epoch, k, d.ops[k]);
    }
  }

  lemma MsgSourcedMono(a: set<Msg>, b: set<Msg>, m: Msg)
    requires a <= b && MsgSourced(a, m)
    ensures MsgSourced(b, m)
  {
    forall x | x in m.arrived ensures Traced(b, m.src, m.epoch, m.key, x) {
      assert Traced(a, m.src, m.epoch, m.key, x);
    }
  }

  lemma SelfSourced(net: set<Msg>, me: nat, e: nat, k: Key, offer: Offer)
    requires SelfMsg(me, e, k, offer) in net
    ensures MsgSourced(net, SelfMsg(me, e, k, offer))
  {
    var m := SelfMsg(me, e, k, offer);
    assert Feeds(m, me, e, k) && m.arrived == {me};
  }

  lemma PutSources(s: State, me: nat, o: Outcome)
    requires Sources(s) && me in s.ds && OutcomeSourced(s.net, me, o)
    ensures Sources(Put(s, me, o))
  {
    var s' := Put(s, me, o);
    forall d | d in s'.ds ensures DaemonSourced(s'.net, d, s'.ds[d]) {
      SourcedMono(s.net, s'.net, d, s'.ds[d]);
    }
    forall m | m in s'.net ensures MsgSourced(s'.net, m) {
      if m in s.net { MsgSourcedMono(s.net, s'.net, m); }
    }
    forall r | r in s'.log ensures ReleaseSourced(s'.net, r) {
      assert ReleaseSourced(s.net, r);
    }
  }

  lemma OneTracker(net: set<Msg>, me: nat, d: Daemon, k: Key, t: Tracker)
    requires DaemonSourced(net, me, d) && Sourced(net, me, d.epoch, k, t)
    ensures DaemonSourced(net, me, d.(ops := d.ops[k := t]))
  {
  }

  lemma CheckSourced(cfg: Config, net: set<Msg>, me: nat, d: Daemon, k: Key, t: Tracker)
    requires cfg.Valid() && (me == 0 || me in cfg.tree(d.epoch).parent)
    requires DaemonSourced(net, me, d) && Sourced(net, me, d.epoch, k, t)
    ensures var o := Check(cfg, me, d, k, t);
            OutcomeSourced(net, me, o)
  {
    OneTracker(net, me, d, k, t);
    OneTracker(net, me, d, k, t.(converged := true));
  }

  lemma AbsorbSourced(cfg: Config, net: set<Msg>, me: nat, e: nat, t: Tracker, m: Msg, slot: Option<nat>)
    requires cfg.Valid() && Sourced(net, me, e, m.key, t) && m in net && Feeds(m, me, e, m.key) && MsgSourced(net, m)
    requires slot == if m.src == me then None else Some(m.src)
    ensures Sourced(net, me, e, m.key, Absorb(cfg, me, e, t, m, slot))
  {
    var t' := Absorb(cfg, me, e, t, m, slot);
    forall x | x in t'.arrived && !Settled(me, t) ensures Traced(net, me, e, m.key, x) {
      if x in t.arrived { assert Traced(net, me, e, m.key, x); } else { assert Traced(net, m.src, m.epoch, m.key, x); }
    }
    assert Heard(net, me, e, m.key, m.src);
  }

  /** What counts for sources: not the operation, the status or what we saved. */
  predicate SameCount(me: nat, t: Tracker, t': Tracker) {
    t.arrived == t'.arrived && t.slots == t'.slots && t.self == t'.self && (Settled(me, t) ==> Settled(me, t'))
  }

  lemma JoinSourced(cfg: Config, net: set<Msg>, me: nat, d: Daemon, k: Key, op: Op)
    requires cfg.Valid() && DaemonSourced(net, me, d)
    ensures Sourced(net, me, d.epoch, k, MergeOp(TrackerFor(cfg, me, d, k), op))
  {
    assert SameCount(me, TrackerFor(cfg, me, d, k), MergeOp(TrackerFor(cfg, me, d, k), op));
    if k in d.ops { assert Sourced(net, me, d.epoch, k, d.ops[k]); }
  }

  lemma RecvSourced(cfg: Config, calls: Calls, net: set<Msg>, me: nat, d: Daemon, m: Msg)
    requires cfg.Valid() && (me == 0 || me in cfg.tree(d.epoch).parent)
    requires DaemonSourced(net, me, d) && MsgSourced(net, m)
    requires m in net && m.dst == me && m.epoch == d.epoch && MsgOk(cfg, calls, m)
    ensures var o := RecvNow(cfg, me, d, m);
            OutcomeSourced(net, me, o)
  {
    RecvShape(cfg, calls, me, d, m);
    var slot := if m.src == me then None else Some(m.src);
    var t := MergeOp(TrackerFor(cfg, me, d, m.key), m.op);
    var t' := Absorb(cfg, me, d.epoch, t, m, slot);
    JoinSourced(cfg, net, me, d, m.key, m.op);
    assert OutcomeSourced(net, me, Outcome(d.(ops := d.ops[m.key := t]), {}, [])) by {
      OneTracker(net, me, d, m.key, t);
    }
    assert OutcomeSourced(net, me, Check(cfg, me, d, m.key, t')) by {
      AbsorbSourced(cfg, net, me, d.epoch, t, m, slot);
      CheckSourced(cfg, net, me, d, m.key, t');
    }
  }

  lemma FenceSourced(cfg: Config, net: set<Msg>, me: nat, d: Daemon, sig: Sig, op: Op, status: Status, data: Blob)
    requires cfg.Valid() && DaemonSourced(net, me, d)
    ensures OutcomeSourced(net, me, FenceCall(cfg, me, d, sig, op, status, data))
  {
    var k := Key(sig, GenNext(d, sig));
    var t := MergeOp(TrackerFor(cfg, me, d, k), op);
    JoinSourced(cfg, net, me, d, k, op);
    var offer := Offer(t.op, status, if t.op == Allgather then [Item(me, data)] else []);
    MineSourced(net, me, d.epoch, k, t, Some(offer));
    OneTracker(net, me, d, k, t.(mine := Some(offer)));
    SelfSourced(net + {SelfMsg(me, d.epoch, k, offer)}, me, d.epoch, k, offer);
  }

  lemma MineSourced(net: set<Msg>, me: nat, e: nat, k: Key, t: Tracker, mine: Option<Offer>)
    requires Sourced(net, me, e, k, t)
    ensures Sourced(net, me, e, k, t.(mine := mine))
  {
    assert SameCount(me, t, t.(mine := mine));
  }

  /** A restart counts from nothing. */
  lemma EnterSourced(cfg: Config, net: set<Msg>, me: nat, d: Daemon, e: nat)
    requires cfg.Valid() && DaemonSourced(net, me, d)
    ensures OutcomeSourced(net, me, Enter(cfg, me, d, e))
  {
    var o := Enter(cfg, me, d, e);
    forall m | m in o.out ensures MsgSourced(net + o.out, m) {
      var k :| k in d.ops && !Settled(me, d.ops[k]) && d.ops[k].mine.Some?
               && m == SelfMsg(me, e, k, d.ops[k].mine.value);
      SelfSourced(net + o.out, me, e, k, d.ops[k].mine.value);
    }
  }

  lemma CallSources(cfg: Config, s: State, d: nat, sig: Sig, op: Op, status: Status, data: Blob)
    requires cfg.Valid() && Sources(s) && d in s.ds
    ensures Sources(DoFence(cfg, s, d, sig, op, status, data))
  {
    var o := FenceCall(cfg, d, s.ds[d], sig, op, status, data);
    FenceSourced(cfg, s.net, d, s.ds[d], sig, op, status, data);
    PutSources(s, d, o);
    CallsAside(Put(s, d, o), DoFence(cfg, s, d, sig, op, status, data));
  }

  lemma CallsAside(s: State, s': State)
    requires Sources(s) && s'.ds == s.ds && s'.net == s.net && s'.log == s.log
    ensures Sources(s')
  {
  }

  lemma RecvSources(cfg: Config, s: State, m: Msg)
    requires cfg.Valid() && Placed(cfg, s) && Content(cfg, s) && Sources(s)
    requires m in s.net && m.dst in s.ds && m.epoch == s.ds[m.dst].epoch
    ensures Sources(DoRecv(cfg, s, m))
  {
    RecvSourced(cfg, s.calls, s.net, m.dst, s.ds[m.dst], m);
    PutSources(s, m.dst, RecvNow(cfg, m.dst, s.ds[m.dst], m));
  }

  lemma CheckSources(cfg: Config, s: State, d: nat, k: Key)
    requires cfg.Valid() && Placed(cfg, s) && Sources(s) && d in s.ds && k in s.ds[d].ops
    ensures Sources(DoCheck(cfg, s, d, k))
  {
    CheckSourced(cfg, s.net, d, s.ds[d], k, s.ds[d].ops[k]);
    PutSources(s, d, Check(cfg, d, s.ds[d], k, s.ds[d].ops[k]));
  }

  lemma EnterSources(cfg: Config, s: State, d: nat, e: nat)
    requires cfg.Valid() && Sources(s) && d in s.ds
    ensures Sources(DoEnter(cfg, s, d, e))
  {
    EnterSourced(cfg, s.net, d, s.ds[d], e);
    PutSources(s, d, Enter(cfg, d, s.ds[d], e));
  }

  lemma AbortSources(s: State, k: Key, code: int)
    requires Sources(s) && 0 in s.ds && k in s.ds[0].ops
    ensures Sources(DoAbort(s, k, code))
  {
    OneTracker(s.net, 0, s.ds[0], k, s.ds[0].ops[k].(aborting := true));
    PutSources(s, 0, Abort(s.ds[0], k, code));
  }

  lemma ReleaseSources(s: State, d: nat)
    requires Sources(s) && d in s.ds && s.ds[d].seen < |s.log|
    ensures Sources(DoRelease(s, d))
  {
    var r := s.log[s.ds[d].seen];
    assert DaemonSourced(s.net, d, Retire(s.ds[d], r));
    PutSources(s, d, Outcome(Retire(s.ds[d], r), {}, []));
    assert s.net + {} == s.net && s.log + [] == s.log;
  }

  /** No step counts, sends or releases anything that was not sent by each
      participant itself, and passed on, in this round at this epoch. */
  lemma StepSources(cfg: Config, s: State, step: Step)
    requires cfg.Valid() && Placed(cfg, s) && Content(cfg, s) && Sources(s) && Enabled(cfg, s, step)
    ensures Sources(Do(cfg, s, step))
  {
    if step.FenceStep? {
      CallSources(cfg, s, step.d, step.sig, step.op, step.status, step.data);
    } else if step.RecvStep? {
      RecvSources(cfg, s, step.m);
    } else if step.EnterStep? {
      EnterSources(cfg, s, step.d, step.e);
    } else if step.CheckStep? {
      CheckSources(cfg, s, step.d, step.k);
    } else if step.AbortStep? {
      AbortSources(s, step.k, step.code);
    } else {
      ReleaseSources(s, step.d);
    }
  }
}
