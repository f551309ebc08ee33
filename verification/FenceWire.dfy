/** What is on the wire: whatever a daemon has given or answered at its current
    epoch can still be delivered, and whatever the master is done with is in the
    broadcast log. */
module FenceWire {
  import opened RoutingTree
  import opened Fence
  import opened FenceContent
  import opened FenceSteps
  import opened FenceSystem

  /** A rollup that says no worse than the tracker that sent it does now. */
  predicate Speaks(cfg: Config, me: nat, e: nat, k: Key, t: Tracker, m: Msg) {
    && me in cfg.tree(e).parent
    && m.src == me && m.dst == cfg.tree(e).parent[me] && m.epoch == e && m.key == k && m.op == t.op
    && (t.status == Success ==> m.status == Success) && (!t.short ==> !m.short)
  }

  /** An unanswered count has our own contribution on the wire, an answered one
      its answer; the master's answers are releases. */
  ghost predicate Wired(cfg: Config, net: set<Msg>, log: seq<Release>, me: nat, e: nat, k: Key, t: Tracker) {
    if Settled(me, t) then exists r :: r in log && r.key == k
    else
      && (t.mine.Some? ==> SelfMsg(me, e, k, t.mine.value) in net)
      && (t.converged ==> t.nreported >= t.nexpected && exists m :: m in net && Speaks(cfg, me, e, k, t, m))
  }

  ghost predicate DaemonWired(cfg: Config, net: set<Msg>, log: seq<Release>, me: nat, d: Daemon) {
    forall k :: k in d.ops ==> Wired(cfg, net, log, me, d.epoch, k, d.ops[k])
  }

  ghost predicate AllWired(cfg: Config, s: State) {
    forall d :: d in s.ds ==> DaemonWired(cfg, s.net, s.log, d, s.ds[d])
  }

  lemma WiredMono(cfg: Config, a: State, b: State, me: nat, d: Daemon)
    requires a.net <= b.net && a.log <= b.log && DaemonWired(cfg, a.net, a.log, me, d)
    ensures DaemonWired(cfg, b.net, b.log, me, d)
  {
    forall k | k in d.ops ensures Wired(cfg, b.net, b.log, me, d.epoch, k, d.ops[k]) {
      assert Wired(cfg, a.net, a.log, me, d.epoch, k, d.ops[k]);
    }
  }

  lemma PutWired(cfg: Config, s: State, me: nat, o: Outcome)
    requires AllWired(cfg, s) && me in s.ds && DaemonWired(cfg, s.net + o.out, s.log + o.rel, me, o.d)
    ensures AllWired(cfg, Put(s, me, o))
  {
    var s' := Put(s, me, o);
    forall d | d in s'.ds ensures DaemonWired(cfg, s'.net, s'.log, d, s'.ds[d]) {
      if d != me { WiredMono(cfg, s, s', d, s.ds[d]); }
    }
  }

  /** One tracker replaced, the others as they were. */
  lemma OneWired(cfg: Config, net: set<Msg>, log: seq<Release>, me: nat, d: Daemon, k: Key, t: Tracker, o: Outcome)
    requires DaemonWired(cfg, net, log, me, d) && o.d == d.(ops := d.ops[k := t])
    requires Wired(cfg, net + o.out, log + o.rel, me, d.epoch, k, t)
    ensures DaemonWired(cfg, net + o.out, log + o.rel, me, o.d)
  {
    forall j | j in o.d.ops ensures Wired(cfg, net + o.out, log + o.rel, me, d.epoch, j, o.d.ops[j]) {
      if j != k { assert Wired(cfg, net, log, me, d.epoch, j, d.ops[j]); }
    }
  }

  lemma CheckWired(cfg: Config, net: set<Msg>, log: seq<Release>, me: nat, d: Daemon, k: Key, t: Tracker)
    requires cfg.Valid() && (me == 0 || me in cfg.tree(d.epoch).parent)
    requires DaemonWired(cfg, net, log, me, d) && Wired(cfg, net, log, me, d.epoch, k, t)
    ensures var o := Check(cfg, me, d, k, t); DaemonWired(cfg, net + o.out, log + o.rel, me, o.d)
  {
    var o := Check(cfg, me, d, k, t);
    var t' := o.d.ops[k];
    assert Wired(cfg, net + o.out, log + o.rel, me, d.epoch, k, t') by {
      if t' != t {
        if me == 0 {
          assert o.rel[0] in log + o.rel && o.rel[0].key == k;
        } else {
          var m := RollUp(me, cfg.tree(d.epoch).parent[me], d.epoch, k, t);
          assert m in net + o.out && Speaks(cfg, me, d.epoch, k, t', m);
        }
      }
    }
    OneWired(cfg, net, log, me, d, k, t', o);
  }

  /** `t'` goes on where `t` is: nothing of ours added, nothing made good again. */
  predicate GoesOn(t: Tracker, t': Tracker) {
    && t'.mine == t.mine && t'.converged == t.converged && t'.aborting == t.aborting
    && t'.nexpected == t.nexpected && t'.nreported >= t.nreported && (t.op != Unknown ==> t'.op == t.op)
    && (t'.status == Success ==> t.status == Success) && (!t'.short ==> !t.short)
  }

  lemma GoesOnWired(cfg: Config, net: set<Msg>, log: seq<Release>, me: nat, e: nat, k: Key, t: Tracker, t': Tracker)
    requires Wired(cfg, net, log, me, e, k, t) && GoesOn(t, t') && (t.converged ==> t.op != Unknown)
    ensures Wired(cfg, net, log, me, e, k, t')
  {
    if !Settled(me, t) && t.converged {
      var m :| m in net && Speaks(cfg, me, e, k, t, m);
      assert Speaks(cfg, me, e, k, t', m);
    }
  }

  lemma MergeGoesOn(t: Tracker, op: Op)
    ensures GoesOn(t, MergeOp(t, op))
  {
  }

  lemma AbsorbGoesOn(cfg: Config, me: nat, e: nat, t: Tracker, m: Msg, slot: Option<nat>)
    requires cfg.Valid()
    ensures GoesOn(t, Absorb(cfg, me, e, t, m, slot))
  {
  }

  lemma JoinWired(cfg: Config, calls: Calls, net: set<Msg>, log: seq<Release>, me: nat, d: Daemon, k: Key, op: Op)
    requires cfg.Valid() && DaemonWired(cfg, net, log, me, d) && OpsOk(cfg, calls, me, d) && op != Unknown
    ensures var t := MergeOp(TrackerFor(cfg, me, d, k), op);
            Wired(cfg, net, log, me, d.epoch, k, t) && t.op != Unknown
  {
    var t := TrackerFor(cfg, me, d, k);
    if k in d.ops {
      assert KeyOk(cfg, calls, me, d.epoch, k, d.ops[k]) && Wired(cfg, net, log, me, d.epoch, k, d.ops[k]);
    }
    MergeGoesOn(t, op);
    GoesOnWired(cfg, net, log, me, d.epoch, k, t, MergeOp(t, op));
  }

  lemma RecvWired(cfg: Config, calls: Calls, net: set<Msg>, log: seq<Release>, me: nat, d: Daemon, m: Msg)
    requires cfg.Valid() && (me == 0 || me in cfg.tree(d.epoch).parent) && OpsOk(cfg, calls, me, d)
    requires DaemonWired(cfg, net, log, me, d) && MsgOk(cfg, calls, m) && m.dst == me && m.epoch == d.epoch
    ensures var o := RecvNow(cfg, me, d, m); DaemonWired(cfg, net + o.out, log + o.rel, me, o.d)
  {
    RecvShape(cfg, calls, me, d, m);
    var slot := if m.src == me then None else Some(m.src);
    var t := MergeOp(TrackerFor(cfg, me, d, m.key), m.op);
    var t' := Absorb(cfg, me, d.epoch, t, m, slot);
    JoinWired(cfg, calls, net, log, me, d, m.key, m.op);
    assert net + {} == net && log + [] == log;
    OneWired(cfg, net, log, me, d, m.key, t, Outcome(d.(ops := d.ops[m.key := t]), {}, []));
    AbsorbGoesOn(cfg, me, d.epoch, t, m, slot);
    GoesOnWired(cfg, net, log, me, d.epoch, m.key, t, t');
    CheckWired(cfg, net, log, me, d, m.key, t');
  }

  lemma FenceWired(cfg: Config, calls: Calls, net: set<Msg>, log: seq<Release>, me: nat, d: Daemon,
                   sig: Sig, op: Op, status: Status, data: Blob)
    requires cfg.Valid() && DaemonWired(cfg, net, log, me, d) && OpsOk(cfg, calls, me, d) && op != Unknown
    ensures var o := FenceCall(cfg, me, d, sig, op, status, data);
            DaemonWired(cfg, net + o.out, log + o.rel, me, o.d)
  {
    var o := FenceCall(cfg, me, d, sig, op, status, data);
    var k := Key(sig, GenNext(d, sig));
    var t := MergeOp(TrackerFor(cfg, me, d, k), op);
    JoinWired(cfg, calls, net, log, me, d, k, op);
    OfferWired(cfg, net, log, me, d.epoch, k, t, o.d.ops[k].mine.value);
    assert log + [] == log;
    OneWired(cfg, net, log, me, d, k, o.d.ops[k], o);
  }

  lemma OfferWired(cfg: Config, net: set<Msg>, log: seq<Release>, me: nat, e: nat, k: Key, t: Tracker, offer: Offer)
    requires Wired(cfg, net, log, me, e, k, t)
    ensures Wired(cfg, net + {SelfMsg(me, e, k, offer)}, log, me, e, k, t.(mine := Some(offer)))
  {
    var t' := t.(mine := Some(offer));
    if !Settled(me, t) && t.converged {
      var m :| m in net && Speaks(cfg, me, e, k, t, m);
      assert m in net + {SelfMsg(me, e, k, offer)} && Speaks(cfg, me, e, k, t', m);
    }
  }

  lemma EnterWired(cfg: Config, net: set<Msg>, log: seq<Release>, me: nat, d: Daemon, e: nat)
    requires cfg.Valid() && DaemonWired(cfg, net, log, me, d)
    ensures var o := Enter(cfg, me, d, e); DaemonWired(cfg, net + o.out, log, me, o.d)
  {
    var o := Enter(cfg, me, d, e);
    forall k | k in o.d.ops ensures Wired(cfg, net + o.out, log, me, e, k, o.d.ops[k]) {
      assert Wired(cfg, net, log, me, d.epoch, k, d.ops[k]);
      if !Settled(me, d.ops[k]) && d.ops[k].mine.Some? {
        assert SelfMsg(me, e, k, d.ops[k].mine.value) in o.out;
      }
    }
  }

  lemma CallStepWired(cfg: Config, s: State, d: nat, sig: Sig, op: Op, status: Status, data: Blob)
    requires cfg.Valid() && Content(cfg, s) && AllWired(cfg, s) && d in s.ds && op != Unknown
    ensures AllWired(cfg, DoFence(cfg, s, d, sig, op, status, data))
  {
    FenceWired(cfg, s.calls, s.net, s.log, d, s.ds[d], sig, op, status, data);
    PutWired(cfg, s, d, FenceCall(cfg, d, s.ds[d], sig, op, status, data));
  }

  lemma RecvStepWired(cfg: Config, s: State, m: Msg)
    requires cfg.Valid() && Placed(cfg, s) && Content(cfg, s) && AllWired(cfg, s)
    requires m in s.net && m.dst in s.ds && m.epoch == s.ds[m.dst].epoch
    ensures AllWired(cfg, DoRecv(cfg, s, m))
  {
    RecvWired(cfg, s.calls, s.net, s.log, m.dst, s.ds[m.dst], m);
    PutWired(cfg, s, m.dst, RecvNow(cfg, m.dst, s.ds[m.dst], m));
  }

  lemma CheckStepWired(cfg: Config, s: State, d: nat, k: Key)
    requires cfg.Valid() && Placed(cfg, s) && AllWired(cfg, s) && d in s.ds && k in s.ds[d].ops
    ensures AllWired(cfg, DoCheck(cfg, s, d, k))
  {
    CheckWired(cfg, s.net, s.log, d, s.ds[d], k, s.ds[d].ops[k]);
    PutWired(cfg, s, d, Check(cfg, d, s.ds[d], k, s.ds[d].ops[k]));
  }

  lemma EnterStepWired(cfg: Config, s: State, d: nat, e: nat)
    requires cfg.Valid() && AllWired(cfg, s) && d in s.ds
    ensures AllWired(cfg, DoEnter(cfg, s, d, e))
  {
    EnterWired(cfg, s.net, s.log, d, s.ds[d], e);
    assert s.log + [] == s.log;
    PutWired(cfg, s, d, Enter(cfg, d, s.ds[d], e));
  }

  lemma AbortStepWired(cfg: Config, s: State, k: Key, code: int)
    requires AllWired(cfg, s) && 0 in s.ds && k in s.ds[0].ops
    ensures AllWired(cfg, DoAbort(s, k, code))
  {
    var o := Abort(s.ds[0], k, code);
    assert o.rel[0] in s.log + o.rel;
    OneWired(cfg, s.net, s.log, 0, s.ds[0], k, o.d.ops[k], o);
    PutWired(cfg, s, 0, o);
  }

  lemma ReleaseStepWired(cfg: Config, s: State, d: nat)
    requires AllWired(cfg, s) && d in s.ds && s.ds[d].seen < |s.log|
    ensures AllWired(cfg, DoRelease(s, d))
  {
    var o := Outcome(Retire(s.ds[d], s.log[s.ds[d].seen]), {}, []);
    assert s.net + {} == s.net && s.log + [] == s.log;
    assert DaemonWired(cfg, s.net, s.log, d, o.d);
    PutWired(cfg, s, d, o);
  }

  /** No step takes back what it has given or answered at its epoch. */
  lemma StepWired(cfg: Config, s: State, step: Step)
    requires cfg.Valid() && Placed(cfg, s) && Content(cfg, s) && AllWired(cfg, s) && Enabled(cfg, s, step)
    ensures AllWired(cfg, Do(cfg, s, step))
  {
    if step.FenceStep? {
      CallStepWired(cfg, s, step.d, step.sig, step.op, step.status, step.data);
    } else if step.RecvStep? {
      RecvStepWired(cfg, s, step.m);
    } else if step.EnterStep? {
      EnterStepWired(cfg, s, step.d, step.e);
    } else if step.CheckStep? {
      CheckStepWired(cfg, s, step.d, step.k);
    } else if step.AbortStep? {
      AbortStepWired(cfg, s, step.k, step.code);
    } else {
      ReleaseStepWired(cfg, s, step.d);
    }
  }
}
