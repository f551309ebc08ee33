/** A round in which everybody who enters names the same operation and gives a
    good status cannot get stuck: wherever a run has got to, it can complete. */
module FenceAgreed {
  import opened RoutingTree
  import opened Fence
  import opened FenceSystem
  import opened FenceRelays
  import opened FenceTheorems
  import opened FenceRuns
  import opened FenceProgress
  import opened FenceCompletes

  predicate OfferAgreed(o: Offer, op: Op) { o.op == op && o.status == Success }

  predicate TrackerAgreed(t: Tracker, op: Op) {
    t.op == op && t.status == Success && (t.mine.Some? ==> OfferAgreed(t.mine.value, op))
  }

  predicate MsgAgreed(m: Msg, k: Key, op: Op) { m.key == k ==> m.op == op && m.status == Success }

  predicate DaemonAgreed(d: Daemon, k: Key, op: Op) { k in d.ops ==> TrackerAgreed(d.ops[k], op) }

  /** Nobody disagrees about round `k`, in a tracker or on the wire. */
  ghost predicate Agreed(s: State, k: Key, op: Op) {
    && (forall d :: d in s.ds ==> DaemonAgreed(s.ds[d], k, op))
    && (forall m :: m in s.net ==> MsgAgreed(m, k, op))
  }

  ghost predicate OutcomeAgreed(o: Outcome, k: Key, op: Op) {
    DaemonAgreed(o.d, k, op) && forall m :: m in o.out ==> MsgAgreed(m, k, op)
  }

  lemma PutAgreed(s: State, me: nat, o: Outcome, k: Key, op: Op)
    requires Agreed(s, k, op) && OutcomeAgreed(o, k, op)
    ensures Agreed(Put(s, me, o), k, op)
  {
  }

  lemma CheckAgreed(cfg: Config, me: nat, d: Daemon, j: Key, t: Tracker, k: Key, op: Op)
    requires cfg.Valid() && (me == 0 || me in cfg.tree(d.epoch).parent)
    requires DaemonAgreed(d, k, op) && (j == k ==> TrackerAgreed(t, op))
    ensures OutcomeAgreed(Check(cfg, me, d, j, t), k, op)
  {
  }

  lemma JoinAgreed(cfg: Config, me: nat, d: Daemon, k: Key, op: Op)
    requires cfg.Valid() && DaemonAgreed(d, k, op) && op != Unknown
    ensures TrackerAgreed(MergeOp(TrackerFor(cfg, me, d, k), op), op)
  {
  }

  lemma RecvAgreed(cfg: Config, me: nat, d: Daemon, m: Msg, k: Key, op: Op)
    requires cfg.Valid() && (me == 0 || me in cfg.tree(d.epoch).parent)
    requires DaemonAgreed(d, k, op) && MsgAgreed(m, k, op) && op != Unknown
    ensures OutcomeAgreed(RecvNow(cfg, me, d, m), k, op)
  {
    var from := if m.src == me then None else cfg.tree(d.epoch).SlotOf(m.src, me);
    var t := MergeOp(TrackerFor(cfg, me, d, m.key), m.op);
    var t' := Absorb(cfg, me, d.epoch, t, m, from);
    if m.key == k {
      JoinAgreed(cfg, me, d, k, op);
      AbsorbAgreed(cfg, me, d.epoch, t, m, from, op);
    }
    CheckAgreed(cfg, me, d, m.key, t', k, op);
  }

  lemma AbsorbAgreed(cfg: Config, me: nat, e: nat, t: Tracker, m: Msg, slot: Option<nat>, op: Op)
    requires cfg.Valid() && TrackerAgreed(t, op) && m.status == Success
    ensures TrackerAgreed(Absorb(cfg, me, e, t, m, slot), op)
  {
  }

  lemma FenceAgrees(cfg: Config, me: nat, d: Daemon, sig: Sig, op: Op, status: Status, data: Blob, k: Key, all: Op)
    requires cfg.Valid() && DaemonAgreed(d, k, all) && all != Unknown
    requires Key(sig, GenNext(d, sig)) == k ==> op == all && status == Success
    ensures OutcomeAgreed(FenceCall(cfg, me, d, sig, op, status, data), k, all)
  {
    if Key(sig, GenNext(d, sig)) == k { JoinAgreed(cfg, me, d, k, all); }
  }

  lemma EnterAgreed(cfg: Config, me: nat, d: Daemon, e: nat, k: Key, op: Op)
    requires cfg.Valid() && DaemonAgreed(d, k, op)
    ensures OutcomeAgreed(Enter(cfg, me, d, e), k, op)
  {
    var o := Enter(cfg, me, d, e);
    forall m | m in o.out ensures MsgAgreed(m, k, op) {
      var j :| j in d.ops && !Settled(me, d.ops[j]) && d.ops[j].mine.Some?
               && m == SelfMsg(me, e, j, d.ops[j].mine.value);
    }
  }

  /** Whoever enters round `k` by this step names `op` and gives a good status. */
  predicate Suits(s: State, step: Step, k: Key, op: Op) {
    step.FenceStep? && step.d in s.ds && Key(step.sig, GenNext(s.ds[step.d], step.sig)) == k ==>
      step.op == op && step.status == Success
  }

  lemma CallStepAgreed(cfg: Config, s: State, step: Step, k: Key, op: Op)
    requires cfg.Valid() && step.FenceStep? && Enabled(cfg, s, step) && Agreed(s, k, op) && op != Unknown
    requires Suits(s, step, k, op)
    ensures Agreed(DoFence(cfg, s, step.d, step.sig, step.op, step.status, step.data), k, op)
  {
    var d := s.ds[step.d];
    FenceAgrees(cfg, step.d, d, step.sig, step.op, step.status, step.data, k, op);
    PutAgreed(s, step.d, FenceCall(cfg, step.d, d, step.sig, step.op, step.status, step.data), k, op);
  }

  lemma RecvStepAgreed(cfg: Config, s: State, m: Msg, k: Key, op: Op)
    requires cfg.Valid() && Placed(cfg, s) && Enabled(cfg, s, RecvStep(m)) && Agreed(s, k, op) && op != Unknown
    ensures Agreed(DoRecv(cfg, s, m), k, op)
  {
    RecvAgreed(cfg, m.dst, s.ds[m.dst], m, k, op);
    PutAgreed(s, m.dst, RecvNow(cfg, m.dst, s.ds[m.dst], m), k, op);
  }

  lemma CheckStepAgreed(cfg: Config, s: State, d: nat, j: Key, k: Key, op: Op)
    requires cfg.Valid() && Placed(cfg, s) && d in s.ds && j in s.ds[d].ops && Agreed(s, k, op)
    ensures Agreed(DoCheck(cfg, s, d, j), k, op)
  {
    CheckAgreed(cfg, d, s.ds[d], j, s.ds[d].ops[j], k, op);
    PutAgreed(s, d, Check(cfg, d, s.ds[d], j, s.ds[d].ops[j]), k, op);
  }

  lemma EnterStepAgreed(cfg: Config, s: State, d: nat, e: nat, k: Key, op: Op)
    requires cfg.Valid() && d in s.ds && Agreed(s, k, op)
    ensures Agreed(DoEnter(cfg, s, d, e), k, op)
  {
    EnterAgreed(cfg, d, s.ds[d], e, k, op);
    PutAgreed(s, d, Enter(cfg, d, s.ds[d], e), k, op);
  }

  lemma AbortStepAgreed(s: State, j: Key, code: int, k: Key, op: Op)
    requires 0 in s.ds && j in s.ds[0].ops && Agreed(s, k, op)
    ensures Agreed(DoAbort(s, j, code), k, op)
  {
    PutAgreed(s, 0, Abort(s.ds[0], j, code), k, op);
  }

  lemma ReleaseStepAgreed(s: State, d: nat, k: Key, op: Op)
    requires d in s.ds && s.ds[d].seen < |s.log| && Agreed(s, k, op)
    ensures Agreed(DoRelease(s, d), k, op)
  {
    assert DaemonAgreed(s.ds[d], k, op);
  }

  lemma StepAgreed(cfg: Config, s: State, step: Step, k: Key, op: Op)
    requires cfg.Valid() && Placed(cfg, s) && Enabled(cfg, s, step) && Agreed(s, k, op) && op != Unknown
    requires Suits(s, step, k, op)
    ensures Agreed(Do(cfg, s, step), k, op)
  {
    if step.FenceStep? {
      CallStepAgreed(cfg, s, step, k, op);
    } else if step.RecvStep? {
      RecvStepAgreed(cfg, s, step.m, k, op);
    } else if step.EnterStep? {
      EnterStepAgreed(cfg, s, step.d, step.e, k, op);
    } else if step.CheckStep? {
      CheckStepAgreed(cfg, s, step.d, step.k, k, op);
    } else if step.AbortStep? {
      AbortStepAgreed(s, step.k, step.code, k, op);
    } else {
      ReleaseStepAgreed(s, step.d, k, op);
    }
  }

  /** A run from an idle DVM in which everybody agrees about round `k`; anything
      may happen in the other rounds. */
  ghost predicate AgreedRun(cfg: Config, steps: seq<Step>, s: State, k: Key, op: Op)
    requires cfg.Valid()
  {
    if steps == [] then s == Init(cfg)
    else exists p ::
      AgreedRun(cfg, Before(steps), p, k, op) && Next(cfg, p, Last(steps), s) && Suits(p, Last(steps), k, op)
  }

  lemma {:induction false} RunAgreed(cfg: Config, steps: seq<Step>, s: State, k: Key, op: Op)
    requires cfg.Valid() && AgreedRun(cfg, steps, s, k, op) && op != Unknown
    ensures Run(cfg, Init(cfg), steps, s) && Placed(cfg, s) && Agreed(s, k, op)
  {
    if steps == [] {
      InitInv(cfg);
    } else {
      var p :| AgreedRun(cfg, Before(steps), p, k, op) && Next(cfg, p, Last(steps), s) && Suits(p, Last(steps), k, op);
      RunAgreed(cfg, Before(steps), p, k, op);
      StepAgreed(cfg, p, Last(steps), k, op);
      StaysPlaced(cfg, p, Last(steps));
    }
  }

  /** Still at an earlier epoch, or at this one with no relay ever emptied. */
  ghost predicate CanStill(cfg: Config, s: State, y: nat, e: nat, sig: Sig)
    requires cfg.Valid()
  {
    y in s.ds && (s.ds[y].epoch < e || (s.ds[y].epoch == e && Shrinks(cfg) && KeepsRelays(cfg, sig)))
  }

  /** After any run in which everybody agrees about the round now open, whatever
      was lost, delayed, repeated, reordered, restarted or aborted on the way, it
      can complete with every living participant: at any later epoch, and, as long
      as daemons only fail and no relay is emptied, at the present one. */
  lemma AgreedRoundCompletes(cfg: Config, steps: seq<Step>, s: State, e: nat, k: Round) returns (s': State, r: Release)
    requires cfg.Valid() && k.op != Unknown && AgreedRun(cfg, steps, s, k.key, k.op)
    requires k.key == NowOpen(s, k.key.sig) && cfg.Part(e, k.key.sig) != {}
    requires forall y :: y in cfg.tree(e).living ==> CanStill(cfg, s, y, e, k.key.sig)
    ensures Completes(cfg, s, s', r, e, k)
  {
    RunAgreed(cfg, steps, s, k.key, k.op);
    assert Reachable(cfg, s);
    forall y | y in cfg.tree(e).living ensures Intact(s, y, e, k) {
      assert CanStill(cfg, s, y, e, k.key.sig) && DaemonAgreed(s.ds[y], k.key, k.op);
      if s.ds[y].epoch == e && k.key in s.ds[y].ops { NotShort(cfg, steps, s, y, k.key); }
    }
    s', r := FenceCanSucceed(cfg, s, e, k);
  }

  lemma NotShort(cfg: Config, steps: seq<Step>, s: State, y: nat, k: Key)
    requires cfg.Valid() && Run(cfg, Init(cfg), steps, s) && Shrinks(cfg) && KeepsRelays(cfg, k.sig)
    requires y in s.ds && k in s.ds[y].ops && k == NowOpen(s, k.sig)
    ensures !s.ds[y].ops[k].short
  {
    RunWhole(cfg, k.sig, steps, s);
    assert DaemonWhole(cfg, k.sig, y, s.ds[y]) && TrackerWhole(cfg, k.sig, y, s.ds[y].epoch, k, s.ds[y].ops[k]);
    assert Reachable(cfg, s);
    OpenIsUnsettled(cfg, s, y, k);
  }
}
