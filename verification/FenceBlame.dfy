/** Why a fence fails: every failure goes back to a status some participant gave,
    to two participants that named different operations, or to an abort; and the
    first failure a tracker learns of is the one it keeps. */
module FenceBlame {
  import opened RoutingTree
  import opened Fence
  import opened FenceContent
  import opened FenceSteps
  import opened FenceSystem

  /** Somebody entered the round naming this operation. */
  ghost predicate Asked(calls: Calls, k: Key, op: Op) { exists x :: (x, k) in calls && calls[(x, k)].op == op }

  ghost predicate Reported(calls: Calls, k: Key, st: Status) {
    exists x :: (x, k) in calls && calls[(x, k)].status == st
  }

  ghost predicate Disagree(calls: Calls, k: Key) {
    exists op, op' :: op != op' && Asked(calls, k, op) && Asked(calls, k, op')
  }

  /** A failure has somebody to answer for it. */
  ghost predicate Blamed(calls: Calls, k: Key, st: Status) {
    st != Success ==> Reported(calls, k, st) || (st == InvalidArg && Disagree(calls, k))
  }

  ghost predicate TrackerBlamed(calls: Calls, k: Key, t: Tracker) {
    && (t.op != Unknown ==> Asked(calls, k, t.op)) && Blamed(calls, k, t.status)
    && (t.mine.Some? ==> Asked(calls, k, t.mine.value.op) && Blamed(calls, k, t.mine.value.status))
  }

  ghost predicate MsgBlamed(calls: Calls, m: Msg) { Asked(calls, m.key, m.op) && Blamed(calls, m.key, m.status) }

  /** An aborted round carries nothing and nobody, and its own code. */
  ghost predicate ReleaseBlamed(calls: Calls, r: Release) {
    if r.aborted then r.status.Error? && r.data == [] && r.arrived == {} else Blamed(calls, r.key, r.status)
  }

  ghost predicate DaemonBlamed(calls: Calls, d: Daemon) { forall k :: k in d.ops ==> TrackerBlamed(calls, k, d.ops[k]) }

  ghost predicate OutcomeBlamed(calls: Calls, o: Outcome) {
    && DaemonBlamed(calls, o.d)
    && (forall m :: m in o.out ==> MsgBlamed(calls, m))
    && (forall r :: r in o.rel ==> ReleaseBlamed(calls, r))
  }

  ghost predicate AllBlamed(s: State) {
    && (forall d :: d in s.ds ==> DaemonBlamed(s.calls, s.ds[d]))
    && (forall m :: m in s.net ==> MsgBlamed(s.calls, m))
    && (forall r :: r in s.log ==> ReleaseBlamed(s.calls, r))
  }

  lemma BlamedMono(a: Calls, b: Calls, k: Key, st: Status)
    requires Extends(a, b) && Blamed(a, k, st)
    ensures Blamed(b, k, st)
  {
    if st != Success && !Reported(a, k, st) {
      var op, op' :| op != op' && Asked(a, k, op) && Asked(a, k, op');
      assert Asked(b, k, op) && Asked(b, k, op');
    }
  }

  lemma DaemonMono(a: Calls, b: Calls, d: Daemon)
    requires Extends(a, b) && DaemonBlamed(a, d)
    ensures DaemonBlamed(b, d)
  {
    forall k | k in d.ops ensures TrackerBlamed(b, k, d.ops[k]) {
      assert TrackerBlamed(a, k, d.ops[k]);
      BlamedMono(a, b, k, d.ops[k].status);
      if d.ops[k].mine.Some? { BlamedMono(a, b, k, d.ops[k].mine.value.status); }
    }
  }

  lemma PutBlamed(s: State, me: nat, o: Outcome, calls: Calls)
    requires AllBlamed(s) && Extends(s.calls, calls) && OutcomeBlamed(calls, o)
    ensures AllBlamed(Put(s, me, o).(calls := calls))
  {
    var s' := Put(s, me, o);
    forall d | d in s'.ds ensures DaemonBlamed(calls, s'.ds[d]) {
      if d != me { DaemonMono(s.calls, calls, s.ds[d]); }
    }
    forall m | m in s'.net ensures MsgBlamed(calls, m) {
      if m in s.net { assert MsgBlamed(s.calls, m); BlamedMono(s.calls, calls, m.key, m.status); }
    }
    forall r | r in s'.log ensures ReleaseBlamed(calls, r) {
      if r in s.log {
        assert ReleaseBlamed(s.calls, r);
        if !r.aborted { BlamedMono(s.calls, calls, r.key, r.status); }
      }
    }
  }

  lemma OneBlamed(calls: Calls, d: Daemon, k: Key, t: Tracker)
    requires DaemonBlamed(calls, d) && TrackerBlamed(calls, k, t)
    ensures DaemonBlamed(calls, d.(ops := d.ops[k := t]))
  {
  }

  lemma CheckBlamed(cfg: Config, calls: Calls, me: nat, d: Daemon, k: Key, t: Tracker)
    requires cfg.Valid() && (me == 0 || me in cfg.tree(d.epoch).parent)
    requires DaemonBlamed(calls, d) && TrackerBlamed(calls, k, t) && t.op != Unknown
    ensures OutcomeBlamed(calls, Check(cfg, me, d, k, t))
  {
    OneBlamed(calls, d, k, t);
    OneBlamed(calls, d, k, t.(converged := true));
  }

  /** Two operations in one tracker are two participants' doing. */
  lemma MergeBlamed(calls: Calls, k: Key, t: Tracker, op: Op)
    requires TrackerBlamed(calls, k, t) && Asked(calls, k, op)
    ensures TrackerBlamed(calls, k, MergeOp(t, op))
  {
  }

  /** A contribution that names no operation says nothing, and one that names the
      same again says nothing new. */
  lemma MergeAgain(t: Tracker, op: Op)
    ensures MergeOp(t, Unknown) == t && MergeOp(MergeOp(t, op), op) == MergeOp(t, op)
  {
  }

  lemma JoinBlamed(cfg: Config, calls: Calls, me: nat, d: Daemon, k: Key, op: Op)
    requires cfg.Valid() && DaemonBlamed(calls, d) && Asked(calls, k, op) && op != Unknown
    ensures var t := MergeOp(TrackerFor(cfg, me, d, k), op); TrackerBlamed(calls, k, t) && t.op != Unknown
  {
    if k in d.ops { assert TrackerBlamed(calls, k, d.ops[k]); }
    MergeBlamed(calls, k, TrackerFor(cfg, me, d, k), op);
  }

  lemma AbsorbBlamed(cfg: Config, calls: Calls, me: nat, e: nat, t: Tracker, m: Msg, slot: Option<nat>)
    requires cfg.Valid() && TrackerBlamed(calls, m.key, t) && MsgBlamed(calls, m)
    ensures TrackerBlamed(calls, m.key, Absorb(cfg, me, e, t, m, slot))
  {
  }

  lemma RecvBlamed(cfg: Config, calls: Calls, me: nat, d: Daemon, m: Msg)
    requires cfg.Valid() && (me == 0 || me in cfg.tree(d.epoch).parent)
    requires DaemonBlamed(calls, d) && MsgBlamed(calls, m) && m.op != Unknown
    ensures OutcomeBlamed(calls, RecvNow(cfg, me, d, m))
  {
    var from := if m.src == me then None else cfg.tree(d.epoch).SlotOf(m.src, me);
    var t := MergeOp(TrackerFor(cfg, me, d, m.key), m.op);
    JoinBlamed(cfg, calls, me, d, m.key, m.op);
    OneBlamed(calls, d, m.key, t);
    AbsorbBlamed(cfg, calls, me, d.epoch, t, m, from);
    CheckBlamed(cfg, calls, me, d, m.key, Absorb(cfg, me, d.epoch, t, m, from));
  }

  lemma FenceBlamed(cfg: Config, calls: Calls, me: nat, d: Daemon, sig: Sig, op: Op, status: Status, data: Blob)
    requires cfg.Valid() && DaemonBlamed(calls, d) && op != Unknown
    requires (me, Key(sig, GenNext(d, sig))) in calls
    requires calls[(me, Key(sig, GenNext(d, sig)))] == Call(op, data, status)
    ensures OutcomeBlamed(calls, FenceCall(cfg, me, d, sig, op, status, data))
  {
    var k := Key(sig, GenNext(d, sig));
    var t := MergeOp(TrackerFor(cfg, me, d, k), op);
    assert Asked(calls, k, op) && Reported(calls, k, status);
    JoinBlamed(cfg, calls, me, d, k, op);
    var offer := Offer(t.op, status, if t.op == Allgather then [Item(me, data)] else []);
    OneBlamed(calls, d, k, t.(mine := Some(offer)));
  }

  lemma EnterBlamed(cfg: Config, calls: Calls, me: nat, d: Daemon, e: nat)
    requires cfg.Valid() && DaemonBlamed(calls, d)
    ensures OutcomeBlamed(calls, Enter(cfg, me, d, e))
  {
    var o := Enter(cfg, me, d, e);
    forall k | k in o.d.ops ensures TrackerBlamed(calls, k, o.d.ops[k]) { assert TrackerBlamed(calls, k, d.ops[k]); }
    forall m | m in o.out ensures MsgBlamed(calls, m) {
      var k :| k in d.ops && !Settled(me, d.ops[k]) && d.ops[k].mine.Some?
               && m == SelfMsg(me, e, k, d.ops[k].mine.value);
      assert TrackerBlamed(calls, k, d.ops[k]);
    }
  }

  lemma CallStepBlamed(cfg: Config, s: State, d: nat, sig: Sig, op: Op, status: Status, data: Blob)
    requires cfg.Valid() && AllBlamed(s) && d in s.ds && op != Unknown
    requires (d, Key(sig, GenNext(s.ds[d], sig))) !in s.calls
    ensures AllBlamed(DoFence(cfg, s, d, sig, op, status, data))
  {
    var calls := s.calls[(d, Key(sig, GenNext(s.ds[d], sig))) := Call(op, data, status)];
    assert Extends(s.calls, calls);
    DaemonMono(s.calls, calls, s.ds[d]);
    FenceBlamed(cfg, calls, d, s.ds[d], sig, op, status, data);
    PutBlamed(s, d, FenceCall(cfg, d, s.ds[d], sig, op, status, data), calls);
  }

  lemma RecvStepBlamed(cfg: Config, s: State, m: Msg)
    requires cfg.Valid() && Placed(cfg, s) && Content(cfg, s) && AllBlamed(s) && Enabled(cfg, s, RecvStep(m))
    ensures AllBlamed(DoRecv(cfg, s, m))
  {
    assert MsgOk(cfg, s.calls, m);
    RecvBlamed(cfg, s.calls, m.dst, s.ds[m.dst], m);
    PutBlamed(s, m.dst, RecvNow(cfg, m.dst, s.ds[m.dst], m), s.calls);
  }

  lemma CheckStepBlamed(cfg: Config, s: State, d: nat, k: Key)
    requires cfg.Valid() && Placed(cfg, s) && Content(cfg, s) && AllBlamed(s) && d in s.ds && k in s.ds[d].ops
    ensures AllBlamed(DoCheck(cfg, s, d, k))
  {
    assert OpsOk(cfg, s.calls, d, s.ds[d]) && KeyOk(cfg, s.calls, d, s.ds[d].epoch, k, s.ds[d].ops[k]);
    CheckBlamed(cfg, s.calls, d, s.ds[d], k, s.ds[d].ops[k]);
    PutBlamed(s, d, Check(cfg, d, s.ds[d], k, s.ds[d].ops[k]), s.calls);
  }

  lemma EnterStepBlamed(cfg: Config, s: State, d: nat, e: nat)
    requires cfg.Valid() && AllBlamed(s) && d in s.ds
    ensures AllBlamed(DoEnter(cfg, s, d, e))
  {
    EnterBlamed(cfg, s.calls, d, s.ds[d], e);
    PutBlamed(s, d, Enter(cfg, d, s.ds[d], e), s.calls);
  }

  lemma AbortStepBlamed(s: State, k: Key, code: int)
    requires AllBlamed(s) && 0 in s.ds && k in s.ds[0].ops
    ensures AllBlamed(DoAbort(s, k, code))
  {
    assert TrackerBlamed(s.calls, k, s.ds[0].ops[k]);
    OneBlamed(s.calls, s.ds[0], k, s.ds[0].ops[k].(aborting := true));
    PutBlamed(s, 0, Abort(s.ds[0], k, code), s.calls);
  }

  lemma ReleaseStepBlamed(s: State, d: nat)
    requires AllBlamed(s) && d in s.ds && s.ds[d].seen < |s.log|
    ensures AllBlamed(DoRelease(s, d))
  {
    var o := Outcome(Retire(s.ds[d], s.log[s.ds[d].seen]), {}, []);
    assert s.net + {} == s.net && s.log + [] == s.log;
    PutBlamed(s, d, o, s.calls);
  }

  /** No step makes anything fail without somebody to answer for it. */
  lemma StepBlamed(cfg: Config, s: State, step: Step)
    requires cfg.Valid() && Placed(cfg, s) && Content(cfg, s) && AllBlamed(s) && Enabled(cfg, s, step)
    requires step.FenceStep? ==> (step.d, Key(step.sig, GenNext(s.ds[step.d], step.sig))) !in s.calls
    ensures AllBlamed(Do(cfg, s, step))
  {
    if step.FenceStep? {
      CallStepBlamed(cfg, s, step.d, step.sig, step.op, step.status, step.data);
    } else if step.RecvStep? {
      RecvStepBlamed(cfg, s, step.m);
    } else if step.EnterStep? {
      EnterStepBlamed(cfg, s, step.d, step.e);
    } else if step.CheckStep? {
      CheckStepBlamed(cfg, s, step.d, step.k);
    } else if step.AbortStep? {
      AbortStepBlamed(s, step.k, step.code);
    } else {
      ReleaseStepBlamed(s, step.d);
    }
  }

  // ---- the first one counts ----

  /** A tracker keeps the operation it settled on, the first failure it learned
      of and the contribution it saved. */
  predicate Steadfast(t: Tracker, t': Tracker) {
    && (t.op != Unknown ==> t'.op == t.op) && (t.status != Success ==> t'.status == t.status)
    && (t.mine.Some? ==> t'.mine == t.mine)
  }

  predicate SteadfastIn(d: Daemon, d': Daemon, k: Key) {
    k in d.ops && k in d'.ops ==> Steadfast(d.ops[k], d'.ops[k])
  }

  lemma RecvSteadfast(cfg: Config, me: nat, d: Daemon, m: Msg, k: Key)
    requires cfg.Valid() && (me == 0 || me in cfg.tree(d.epoch).parent)
    ensures SteadfastIn(d, RecvNow(cfg, me, d, m).d, k)
  {
    var from := if m.src == me then None else cfg.tree(d.epoch).SlotOf(m.src, me);
    var t := MergeOp(TrackerFor(cfg, me, d, m.key), m.op);
    CheckSteadfast(cfg, me, d, m.key, Absorb(cfg, me, d.epoch, t, m, from), k);
  }

  lemma CheckSteadfast(cfg: Config, me: nat, d: Daemon, j: Key, t: Tracker, k: Key)
    requires cfg.Valid() && (me == 0 || me in cfg.tree(d.epoch).parent)
    requires j in d.ops ==> Steadfast(d.ops[j], t)
    ensures SteadfastIn(d, Check(cfg, me, d, j, t).d, k)
  {
  }

  ghost predicate AllSteadfast(s: State, s': State) {
    s'.ds.Keys == s.ds.Keys && forall d, k :: d in s.ds ==> SteadfastIn(s.ds[d], s'.ds[d], k)
  }

  lemma PutSteadfast(s: State, me: nat, o: Outcome)
    requires me in s.ds && forall k :: SteadfastIn(s.ds[me], o.d, k)
    ensures AllSteadfast(s, Put(s, me, o))
  {
  }

  lemma CallStepSteadfast(cfg: Config, s: State, d: nat, sig: Sig, op: Op, status: Status, data: Blob)
    requires cfg.Valid() && d in s.ds && !Called(s.ds[d], sig)
    ensures AllSteadfast(s, DoFence(cfg, s, d, sig, op, status, data))
  {
    PutSteadfast(s, d, FenceCall(cfg, d, s.ds[d], sig, op, status, data));
  }

  lemma RecvStepSteadfast(cfg: Config, s: State, m: Msg)
    requires cfg.Valid() && Placed(cfg, s) && m.dst in s.ds
    ensures AllSteadfast(s, DoRecv(cfg, s, m))
  {
    var o := RecvNow(cfg, m.dst, s.ds[m.dst], m);
    forall k ensures SteadfastIn(s.ds[m.dst], o.d, k) { RecvSteadfast(cfg, m.dst, s.ds[m.dst], m, k); }
    PutSteadfast(s, m.dst, o);
  }

  lemma CheckStepSteadfast(cfg: Config, s: State, d: nat, j: Key)
    requires cfg.Valid() && Placed(cfg, s) && d in s.ds && j in s.ds[d].ops
    ensures AllSteadfast(s, DoCheck(cfg, s, d, j))
  {
    var o := Check(cfg, d, s.ds[d], j, s.ds[d].ops[j]);
    forall k ensures SteadfastIn(s.ds[d], o.d, k) { CheckSteadfast(cfg, d, s.ds[d], j, s.ds[d].ops[j], k); }
    PutSteadfast(s, d, o);
  }

  lemma OtherStepSteadfast(cfg: Config, s: State, d: nat, e: nat)
    requires cfg.Valid() && d in s.ds
    ensures AllSteadfast(s, DoEnter(cfg, s, d, e))
    ensures s.ds[d].seen < |s.log| ==> AllSteadfast(s, DoRelease(s, d))
  {
    PutSteadfast(s, d, Enter(cfg, d, s.ds[d], e));
  }

  lemma AbortStepSteadfast(s: State, j: Key, code: int)
    requires 0 in s.ds && j in s.ds[0].ops
    ensures AllSteadfast(s, DoAbort(s, j, code))
  {
    PutSteadfast(s, 0, Abort(s.ds[0], j, code));
  }

  /** Whatever happens, and to whichever daemon. */
  lemma StepSteadfast(cfg: Config, s: State, step: Step)
    requires cfg.Valid() && Placed(cfg, s) && Enabled(cfg, s, step)
    ensures AllSteadfast(s, Do(cfg, s, step))
  {
    if step.FenceStep? {
      CallStepSteadfast(cfg, s, step.d, step.sig, step.op, step.status, step.data);
    } else if step.RecvStep? {
      RecvStepSteadfast(cfg, s, step.m);
    } else if step.CheckStep? {
      CheckStepSteadfast(cfg, s, step.d, step.k);
    } else if step.EnterStep? {
      OtherStepSteadfast(cfg, s, step.d, step.e);
    } else if step.ReleaseStep? {
      OtherStepSteadfast(cfg, s, step.d, 0);
    } else {
      AbortStepSteadfast(s, step.k, step.code);
    }
  }
}
