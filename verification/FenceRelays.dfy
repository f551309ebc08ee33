/** When a successful release is complete: as long as no daemon that relays for
    a fence outlives the last participant below it while others go on. */
module FenceRelays {
  import opened RoutingTree
  import opened Fence
  import opened FenceContent
  import opened FenceSteps
  import opened FenceSystem

  /** Daemons only fail: none joins or returns while fences are in flight. */
  ghost predicate Shrinks(cfg: Config) {
    forall e: nat, f: nat :: e <= f ==> cfg.tree(f).living <= cfg.tree(e).living
  }

  ghost predicate Relays(cfg: Config, e: nat, d: nat, sig: Sig)
    requires cfg.Valid()
  {
    Due(cfg, e, d, sig) != {}
  }

  /** A daemon with a living participant below it keeps one in every later tree
      it lives in, as long as there is any. */
  ghost predicate KeepsRelays(cfg: Config, sig: Sig)
    requires cfg.Valid()
  {
    forall d: nat, e: nat, f: nat ::
      e < f && d != 0 && Relays(cfg, e, d, sig) && d in cfg.tree(f).living && cfg.Part(f, sig) != {}
      ==> Relays(cfg, f, d, sig)
  }

  /** Has a participant below it, or there is none left anywhere. */
  ghost predicate InUse(cfg: Config, e: nat, d: nat, sig: Sig)
    requires cfg.Valid()
  {
    cfg.Part(e, sig) == {} || Relays(cfg, e, d, sig)
  }

  ghost predicate MsgWhole(cfg: Config, sig: Sig, m: Msg)
    requires cfg.Valid()
  {
    m.key.sig == sig && m.src != m.dst ==> InUse(cfg, m.epoch, m.src, sig) && !m.short
  }

  ghost predicate TrackerWhole(cfg: Config, sig: Sig, me: nat, e: nat, k: Key, t: Tracker)
    requires cfg.Valid()
  {
    && (k.sig == sig ==>
          (me == 0 || InUse(cfg, e, me, sig)) && (!Settled(me, t) ==> !t.short) && (t.aborting ==> me == 0))
    && (k.sig == sig && !Settled(me, t) ==> t.nexpected == cfg.NumExpected(e, me, sig))
  }

  predicate ReleaseWhole(sig: Sig, r: Release) {
    r.key.sig == sig && r.status == Success ==> !r.short
  }

  ghost predicate DaemonWhole(cfg: Config, sig: Sig, me: nat, d: Daemon)
    requires cfg.Valid()
  {
    forall k :: k in d.ops ==> TrackerWhole(cfg, sig, me, d.epoch, k, d.ops[k])
  }

  ghost predicate OutcomeWhole(cfg: Config, sig: Sig, me: nat, o: Outcome)
    requires cfg.Valid()
  {
    && DaemonWhole(cfg, sig, me, o.d)
    && (forall m :: m in o.out ==> MsgWhole(cfg, sig, m))
    && (forall r :: r in o.rel ==> ReleaseWhole(sig, r))
  }

  ghost predicate Whole(cfg: Config, sig: Sig, s: State)
    requires cfg.Valid()
  {
    && (forall d :: d in s.ds ==> DaemonWhole(cfg, sig, d, s.ds[d]))
    && (forall m :: m in s.net ==> MsgWhole(cfg, sig, m))
    && (forall r :: r in s.log ==> ReleaseWhole(sig, r))
  }

  lemma PutWhole(cfg: Config, sig: Sig, s: State, me: nat, o: Outcome)
    requires cfg.Valid() && Whole(cfg, sig, s) && me in s.ds && OutcomeWhole(cfg, sig, me, o)
    ensures Whole(cfg, sig, Put(s, me, o))
  {
  }

  lemma OneWhole(cfg: Config, sig: Sig, me: nat, d: Daemon, k: Key, t: Tracker)
    requires cfg.Valid() && DaemonWhole(cfg, sig, me, d) && TrackerWhole(cfg, sig, me, d.epoch, k, t)
    ensures DaemonWhole(cfg, sig, me, d.(ops := d.ops[k := t]))
  {
  }

  lemma CheckWhole(cfg: Config, sig: Sig, me: nat, d: Daemon, k: Key, t: Tracker)
    requires cfg.Valid() && (me == 0 || me in cfg.tree(d.epoch).parent)
    requires DaemonWhole(cfg, sig, me, d) && TrackerWhole(cfg, sig, me, d.epoch, k, t)
    ensures OutcomeWhole(cfg, sig, me, Check(cfg, me, d, k, t))
  {
    OneWhole(cfg, sig, me, d, k, t);
    OneWhole(cfg, sig, me, d, k, t.(converged := true));
  }

  lemma NothingAwaited(cfg: Config, e: nat, d: nat, sig: Sig)
    requires cfg.Valid() && d in cfg.tree(e).living && cfg.Part(e, sig) == {}
    ensures cfg.NumExpected(e, d, sig) == 0
  {
    forall c | c in cfg.tree(e).Children(d) ensures cfg.tree(e).Sub(c) * cfg.dmns(sig) == {} {
      assert cfg.tree(e).Sub(c) * cfg.dmns(sig) <= cfg.Part(e, sig);
    }
    assert cfg.Expected(e, d, sig) == {};
    assert d in cfg.dmns(sig) ==> d in cfg.Part(e, sig);
  }

  /** Whoever hears a contribution for a fence has its sender's participants below it. */
  lemma HearerRelays(cfg: Config, calls: Calls, sig: Sig, m: Msg)
    requires cfg.Valid() && MsgOk(cfg, calls, m) && MsgWhole(cfg, sig, m) && m.key.sig == sig
    requires cfg.Part(m.epoch, sig) != {}
    ensures Relays(cfg, m.epoch, m.dst, sig)
    ensures m.src != m.dst ==> m.src in cfg.Expected(m.epoch, m.dst, sig)
  {
    if m.src != m.dst {
      ChildSlot(cfg, m.dst, m.epoch, m, calls);
      DueOfSlot(cfg, m.dst, m.epoch, sig, m.src);
    } else {
      assert m.src in Due(cfg, m.epoch, m.src, sig);
    }
  }

  lemma JoinWhole(cfg: Config, sig: Sig, me: nat, d: Daemon, k: Key, op: Op)
    requires cfg.Valid() && DaemonWhole(cfg, sig, me, d)
    requires k.sig == sig ==> InUse(cfg, d.epoch, me, sig)
    ensures TrackerWhole(cfg, sig, me, d.epoch, k, MergeOp(TrackerFor(cfg, me, d, k), op))
  {
    if k in d.ops { assert TrackerWhole(cfg, sig, me, d.epoch, k, d.ops[k]); }
  }

  lemma AbsorbWhole(cfg: Config, calls: Calls, sig: Sig, me: nat, e: nat, t: Tracker, m: Msg)
    requires cfg.Valid() && TrackerWhole(cfg, sig, me, e, m.key, t) && MsgWhole(cfg, sig, m)
    requires MsgOk(cfg, calls, m) && m.dst == me && m.epoch == e && me in cfg.tree(e).living
    ensures var slot := if m.src == me then None else Some(m.src);
            TrackerWhole(cfg, sig, me, e, m.key, Absorb(cfg, me, e, t, m, slot))
  {
    if m.key.sig == sig {
      if cfg.Part(e, sig) == {} { NothingAwaited(cfg, e, me, sig); } else { HearerRelays(cfg, calls, sig, m); }
    }
  }

  lemma RecvWhole(cfg: Config, calls: Calls, sig: Sig, me: nat, d: Daemon, m: Msg)
    requires cfg.Valid() && PlacedAt(cfg, me, d.epoch)
    requires DaemonWhole(cfg, sig, me, d) && MsgWhole(cfg, sig, m)
    requires MsgOk(cfg, calls, m) && m.dst == me && m.epoch == d.epoch
    ensures OutcomeWhole(cfg, sig, me, RecvNow(cfg, me, d, m))
  {
    RecvShape(cfg, calls, me, d, m);
    var t := MergeOp(TrackerFor(cfg, me, d, m.key), m.op);
    JoinedWhole(cfg, calls, sig, me, d, m);
    AbsorbWhole(cfg, calls, sig, me, d.epoch, t, m);
    MovedWhole(cfg, sig, me, d, m.key, t, Absorb(cfg, me, d.epoch, t, m, if m.src == me then None else Some(m.src)));
  }

  lemma JoinedWhole(cfg: Config, calls: Calls, sig: Sig, me: nat, d: Daemon, m: Msg)
    requires cfg.Valid() && DaemonWhole(cfg, sig, me, d) && MsgWhole(cfg, sig, m)
    requires MsgOk(cfg, calls, m) && m.dst == me && m.epoch == d.epoch
    ensures TrackerWhole(cfg, sig, me, d.epoch, m.key, MergeOp(TrackerFor(cfg, me, d, m.key), m.op))
  {
    if m.key.sig == sig && cfg.Part(m.epoch, sig) != {} { HearerRelays(cfg, calls, sig, m); }
    JoinWhole(cfg, sig, me, d, m.key, m.op);
  }

  lemma MovedWhole(cfg: Config, sig: Sig, me: nat, d: Daemon, k: Key, t: Tracker, t': Tracker)
    requires cfg.Valid() && (me == 0 || me in cfg.tree(d.epoch).parent) && DaemonWhole(cfg, sig, me, d)
    requires TrackerWhole(cfg, sig, me, d.epoch, k, t) && TrackerWhole(cfg, sig, me, d.epoch, k, t')
    ensures OutcomeWhole(cfg, sig, me, Outcome(d, {}, []))
    ensures OutcomeWhole(cfg, sig, me, Outcome(d.(ops := d.ops[k := t]), {}, []))
    ensures OutcomeWhole(cfg, sig, me, Check(cfg, me, d, k, t'))
  {
    OneWhole(cfg, sig, me, d, k, t);
    CheckWhole(cfg, sig, me, d, k, t');
  }

  lemma CallWhole(cfg: Config, sig: Sig, me: nat, d: Daemon, sg: Sig, op: Op, status: Status, data: Blob)
    requires cfg.Valid() && me in cfg.tree(d.epoch).living && me in cfg.dmns(sg) && DaemonWhole(cfg, sig, me, d)
    ensures OutcomeWhole(cfg, sig, me, FenceCall(cfg, me, d, sg, op, status, data))
  {
    var k := Key(sg, GenNext(d, sg));
    var t := MergeOp(TrackerFor(cfg, me, d, k), op);
    assert me in Due(cfg, d.epoch, me, sg);
    JoinWhole(cfg, sig, me, d, k, op);
    var offer := Offer(t.op, status, if t.op == Allgather then [Item(me, data)] else []);
    OneWhole(cfg, sig, me, d, k, t.(mine := Some(offer)));
  }

  /** The restart is where a relay could find itself with nothing below it. */
  lemma EnterWhole(cfg: Config, sig: Sig, me: nat, d: Daemon, e: nat)
    requires cfg.Valid() && Shrinks(cfg) && KeepsRelays(cfg, sig) && DaemonWhole(cfg, sig, me, d)
    requires d.epoch < e && me in cfg.tree(e).living
    ensures OutcomeWhole(cfg, sig, me, Enter(cfg, me, d, e))
  {
    var o := Enter(cfg, me, d, e);
    forall k | k in o.d.ops ensures TrackerWhole(cfg, sig, me, e, k, o.d.ops[k]) {
      assert TrackerWhole(cfg, sig, me, d.epoch, k, d.ops[k]);
      if k.sig == sig && me != 0 { StaysInUse(cfg, d.epoch, e, me, sig); }
    }
  }

  lemma StaysInUse(cfg: Config, e: nat, f: nat, d: nat, sig: Sig)
    requires cfg.Valid() && Shrinks(cfg) && KeepsRelays(cfg, sig)
    requires e < f && d != 0 && InUse(cfg, e, d, sig) && d in cfg.tree(f).living
    ensures InUse(cfg, f, d, sig)
  {
    assert cfg.Part(f, sig) <= cfg.Part(e, sig);
  }

  lemma StepWhole(cfg: Config, sig: Sig, s: State, step: Step)
    requires cfg.Valid() && Shrinks(cfg) && KeepsRelays(cfg, sig) && Enabled(cfg, s, step)
    requires Placed(cfg, s) && Content(cfg, s) && Whole(cfg, sig, s)
    ensures Whole(cfg, sig, Do(cfg, s, step))
  {
    if step.RecvStep? {
      DeliverWhole(cfg, sig, s, step.m);
    } else {
      QuietWhole(cfg, sig, s, step);
    }
  }

  lemma DeliverWhole(cfg: Config, sig: Sig, s: State, m: Msg)
    requires cfg.Valid() && Placed(cfg, s) && Content(cfg, s) && Whole(cfg, sig, s)
    requires m in s.net && m.dst in s.ds && m.epoch == s.ds[m.dst].epoch
    ensures Whole(cfg, sig, DoRecv(cfg, s, m))
  {
    RecvWhole(cfg, s.calls, sig, m.dst, s.ds[m.dst], m);
    PutWhole(cfg, sig, s, m.dst, RecvNow(cfg, m.dst, s.ds[m.dst], m));
  }

  lemma QuietWhole(cfg: Config, sig: Sig, s: State, step: Step)
    requires cfg.Valid() && Shrinks(cfg) && KeepsRelays(cfg, sig) && Enabled(cfg, s, step) && !step.RecvStep?
    requires Placed(cfg, s) && Whole(cfg, sig, s)
    ensures Whole(cfg, sig, Do(cfg, s, step))
  {
    if step.FenceStep? {
      FenceWhole(cfg, sig, s, step);
    } else if step.EnterStep? {
      EnterWhole(cfg, sig, step.d, s.ds[step.d], step.e);
      PutWhole(cfg, sig, s, step.d, Enter(cfg, step.d, s.ds[step.d], step.e));
    } else if step.CheckStep? {
      RecheckWhole(cfg, sig, s, step.d, step.k);
    } else if step.AbortStep? {
      AbortWhole(cfg, sig, s, step.k, step.code);
    } else {
      RetireWhole(cfg, sig, s, step.d);
    }
  }

  lemma FenceWhole(cfg: Config, sig: Sig, s: State, step: Step)
    requires cfg.Valid() && Enabled(cfg, s, step) && step.FenceStep? && Placed(cfg, s) && Whole(cfg, sig, s)
    ensures Whole(cfg, sig, Do(cfg, s, step))
  {
    CallWhole(cfg, sig, step.d, s.ds[step.d], step.sig, step.op, step.status, step.data);
    PutWhole(cfg, sig, s, step.d, FenceCall(cfg, step.d, s.ds[step.d], step.sig, step.op, step.status, step.data));
  }

  lemma RecheckWhole(cfg: Config, sig: Sig, s: State, d: nat, k: Key)
    requires cfg.Valid() && Placed(cfg, s) && Whole(cfg, sig, s) && d in s.ds && k in s.ds[d].ops
    ensures Whole(cfg, sig, DoCheck(cfg, s, d, k))
  {
    CheckWhole(cfg, sig, d, s.ds[d], k, s.ds[d].ops[k]);
    PutWhole(cfg, sig, s, d, Check(cfg, d, s.ds[d], k, s.ds[d].ops[k]));
  }

  lemma AbortWhole(cfg: Config, sig: Sig, s: State, k: Key, code: int)
    requires cfg.Valid() && Whole(cfg, sig, s) && 0 in s.ds && k in s.ds[0].ops
    ensures Whole(cfg, sig, DoAbort(s, k, code))
  {
    OneWhole(cfg, sig, 0, s.ds[0], k, s.ds[0].ops[k].(aborting := true));
    PutWhole(cfg, sig, s, 0, Abort(s.ds[0], k, code));
  }

  lemma RetireWhole(cfg: Config, sig: Sig, s: State, d: nat)
    requires cfg.Valid() && Whole(cfg, sig, s) && d in s.ds && s.ds[d].seen < |s.log|
    ensures Whole(cfg, sig, DoRelease(s, d))
  {
    PutWhole(cfg, sig, s, d, Outcome(Retire(s.ds[d], s.log[s.ds[d].seen]), {}, []));
    assert s.net + {} == s.net && s.log + [] == s.log;
  }
}
