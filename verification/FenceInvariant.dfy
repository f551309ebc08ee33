/** Every step of the DVM keeps the invariant. */
module FenceInvariant {
  import opened RoutingTree
  import opened Fence
  import opened FenceContent
  import opened FenceSteps
  import opened FenceSystem

  // ---- what things stand for ----

  ghost predicate OutcomeOk(cfg: Config, calls: Calls, me: nat, o: Outcome)
    requires cfg.Valid()
  {
    && OpsOk(cfg, calls, me, o.d)
    && (forall m :: m in o.out ==> MsgOk(cfg, calls, m))
    && (forall r :: r in o.rel ==> RelOk(cfg, calls, r))
  }

  lemma OpsMono(cfg: Config, a: Calls, b: Calls, me: nat, d: Daemon)
    requires cfg.Valid() && Extends(a, b) && OpsOk(cfg, a, me, d)
    ensures OpsOk(cfg, b, me, d)
  {
    OkMono(cfg, a, b);
    forall k | k in d.ops ensures KeyOk(cfg, b, me, d.epoch, k, d.ops[k]) {
      assert KeyOk(cfg, a, me, d.epoch, k, d.ops[k]);
    }
  }

  lemma PutContent(cfg: Config, s: State, me: nat, o: Outcome, calls: Calls)
    requires cfg.Valid() && Content(cfg, s) && me in s.ds
    requires Extends(s.calls, calls) && OutcomeOk(cfg, calls, me, o)
    ensures Content(cfg, Put(s, me, o).(calls := calls))
  {
    OkMono(cfg, s.calls, calls);
    var s' := Put(s, me, o).(calls := calls);
    forall d | d in s'.ds ensures OpsOk(cfg, calls, d, s'.ds[d]) {
      if d != me { OpsMono(cfg, s.calls, calls, d, s.ds[d]); }
    }
  }

  /** Replacing one tracker leaves the others as they were. */
  lemma OneKey(cfg: Config, calls: Calls, me: nat, d: Daemon, k: Key, t: Tracker)
    requires cfg.Valid() && OpsOk(cfg, calls, me, d)
    requires KeyOk(cfg, calls, me, d.epoch, k, t)
    ensures OpsOk(cfg, calls, me, d.(ops := d.ops[k := t]))
  {
    var d' := d.(ops := d.ops[k := t]);
    forall j | j in d'.ops ensures KeyOk(cfg, calls, me, d'.epoch, j, d'.ops[j]) {
      if j != k { assert KeyOk(cfg, calls, me, d.epoch, j, d.ops[j]); }
    }
  }

  /** What the daemon must know to count a message it sent itself. */
  ghost predicate SelfKnown(me: nat, d: Daemon, m: Msg) {
    m.src == me ==>
      Past(d, m.key)
      || (m.key in d.ops && d.ops[m.key].mine.Some? && d.ops[m.key].mine.value.op == m.op)
  }

  /** A tracker that is settled stays settled whatever arrives. */
  lemma SettledMerge(cfg: Config, calls: Calls, me: nat, e: nat, k: Key, t: Tracker, op: Op)
    requires cfg.Valid() && KeyOk(cfg, calls, me, e, k, t) && Settled(me, t) && op != Unknown
    ensures KeyOk(cfg, calls, me, e, k, MergeOp(t, op)) && Settled(me, MergeOp(t, op))
  {
  }

  lemma SettledRecv(cfg: Config, calls: Calls, me: nat, d: Daemon, m: Msg, slot: Option<nat>)
    requires cfg.Valid() && me in cfg.tree(d.epoch).living && OpsOk(cfg, calls, me, d)
    requires m.op != Unknown && m.key in d.ops && Settled(me, d.ops[m.key])
    ensures var t := MergeOp(d.ops[m.key], m.op);
            OpsOk(cfg, calls, me, d.(ops := d.ops[m.key := t]))
            && OutcomeOk(cfg, calls, me, Check(cfg, me, d, m.key, Absorb(cfg, me, d.epoch, t, m, slot)))
  {
    var t := MergeOp(d.ops[m.key], m.op);
    assert KeyOk(cfg, calls, me, d.epoch, m.key, d.ops[m.key]);
    SettledMerge(cfg, calls, me, d.epoch, m.key, d.ops[m.key], m.op);
    OneKey(cfg, calls, me, d, m.key, t);
    var t' := Absorb(cfg, me, d.epoch, t, m, slot);
    assert KeyOk(cfg, calls, me, d.epoch, m.key, t');
    OneKey(cfg, calls, me, d, m.key, t');
  }

  /** The tracker a contribution joins, before it is counted. */
  lemma JoinTracker(cfg: Config, calls: Calls, me: nat, d: Daemon, m: Msg)
    requires cfg.Valid() && me in cfg.tree(d.epoch).living && OpsOk(cfg, calls, me, d)
    requires MsgOk(cfg, calls, m) && m.dst == me && m.epoch == d.epoch && SelfKnown(me, d, m)
    requires !Past(d, m.key) && (m.key in d.ops ==> !Settled(me, d.ops[m.key]))
    ensures var t := MergeOp(TrackerFor(cfg, me, d, m.key), m.op);
            && Counting(cfg, calls, me, d.epoch, m.key, t)
            && Arriving(cfg, calls, me, d.epoch, t, m)
            && !t.aborting
            && (!t.converged ==> t.nreported < t.nexpected || t.nreported == 0)
  {
    if m.key in d.ops {
      assert KeyOk(cfg, calls, me, d.epoch, m.key, d.ops[m.key]);
      MergeKeeps(cfg, calls, me, d.epoch, m.key, d.ops[m.key], m.op);
    } else {
      NewCounting(cfg, calls, me, d.epoch, m.key, m.op);
    }
  }

  lemma LiveRecv(cfg: Config, calls: Calls, me: nat, d: Daemon, m: Msg, slot: Option<nat>)
    requires cfg.Valid() && me in cfg.tree(d.epoch).living && OpsOk(cfg, calls, me, d)
    requires MsgOk(cfg, calls, m) && m.dst == me && m.epoch == d.epoch && SelfKnown(me, d, m)
    requires !Past(d, m.key) && (m.key in d.ops ==> !Settled(me, d.ops[m.key]))
    requires slot == if m.src == me then None else Some(m.src)
    ensures var t := MergeOp(TrackerFor(cfg, me, d, m.key), m.op);
            && (Counted(t, slot) ==> OpsOk(cfg, calls, me, d.(ops := d.ops[m.key := t])))
            && (!Counted(t, slot) ==>
                  OutcomeOk(cfg, calls, me, Check(cfg, me, d, m.key, Absorb(cfg, me, d.epoch, t, m, slot))))
  {
    var t := MergeOp(TrackerFor(cfg, me, d, m.key), m.op);
    JoinTracker(cfg, calls, me, d, m);
    if Counted(t, slot) {
      OneKey(cfg, calls, me, d, m.key, t);
    } else {
      var t' := Absorb(cfg, me, d.epoch, t, m, slot);
      AbsorbKeeps(cfg, calls, me, d.epoch, t, m, slot);
      CheckOutcome(cfg, calls, me, d, m.key, t');
    }
  }

  lemma CheckOutcome(cfg: Config, calls: Calls, me: nat, d: Daemon, k: Key, t: Tracker)
    requires cfg.Valid() && me in cfg.tree(d.epoch).living && OpsOk(cfg, calls, me, d)
    requires Counting(cfg, calls, me, d.epoch, k, t) && !t.aborting
    requires !t.converged ==> t.nreported <= t.nexpected || t.nexpected == 0
    ensures OutcomeOk(cfg, calls, me, Check(cfg, me, d, k, t))
  {
    CheckKeeps(cfg, calls, me, d, k, t);
    var t' :| Check(cfg, me, d, k, t).d == d.(ops := d.ops[k := t']) && !t'.aborting
              && TrackOk(cfg, calls, me, d.epoch, k, t');
    OneKey(cfg, calls, me, d, k, t');
  }

  lemma RecvOutcome(cfg: Config, calls: Calls, me: nat, d: Daemon, m: Msg)
    requires cfg.Valid() && me in cfg.tree(d.epoch).living && OpsOk(cfg, calls, me, d)
    requires MsgOk(cfg, calls, m) && m.dst == me && m.epoch == d.epoch && SelfKnown(me, d, m)
    ensures OutcomeOk(cfg, calls, me, RecvNow(cfg, me, d, m))
  {
    if m.src != me { ChildSlot(cfg, me, d.epoch, m, calls); }
    var slot := if m.src == me then None else Some(m.src);
    if !Past(d, m.key) {
      if m.key in d.ops && Settled(me, d.ops[m.key]) {
        SettledRecv(cfg, calls, me, d, m, slot);
      } else {
        LiveRecv(cfg, calls, me, d, m, slot);
      }
    }
  }

  lemma EnterOutcome(cfg: Config, calls: Calls, me: nat, d: Daemon, e: nat)
    requires cfg.Valid() && me in cfg.tree(e).living && OpsOk(cfg, calls, me, d)
    ensures OutcomeOk(cfg, calls, me, Enter(cfg, me, d, e))
  {
    var o := Enter(cfg, me, d, e);
    forall k | k in o.d.ops ensures KeyOk(cfg, calls, me, e, k, o.d.ops[k]) {
      assert KeyOk(cfg, calls, me, d.epoch, k, d.ops[k]);
      if !Settled(me, d.ops[k]) { ResetKeeps(cfg, calls, me, e, k, d.ops[k]); }
    }
    forall m | m in o.out ensures MsgOk(cfg, calls, m) {
      var k :| k in d.ops && !Settled(me, d.ops[k]) && d.ops[k].mine.Some?
               && m == SelfMsg(me, e, k, d.ops[k].mine.value);
      assert KeyOk(cfg, calls, me, d.epoch, k, d.ops[k]);
    }
  }

  /** Filing our own contribution on a tracker that has none of ours yet. */
  lemma FileMine(cfg: Config, calls: Calls, me: nat, e: nat, k: Key, t: Tracker, op: Op, status: Status)
    requires cfg.Valid() && op != Unknown && me in cfg.dmns(k.sig)
    requires t.op != Unknown && (t.status == Success ==> t.op == op)
    requires (me, k) in calls && calls[(me, k)].op == op && calls[(me, k)].status == status
    requires t.aborting ==> me == 0
    requires !Settled(me, t) ==> TrackOk(cfg, calls, me, e, k, t)
    ensures var payload := if t.op == Allgather then [Item(me, calls[(me, k)].data)] else [];
            KeyOk(cfg, calls, me, e, k, t.(mine := Some(Offer(t.op, status, payload))))
  {
    var payload := if t.op == Allgather then [Item(me, calls[(me, k)].data)] else [];
    var t' := t.(mine := Some(Offer(t.op, status, payload)));
    if !Settled(me, t') { SameAccount(cfg, me, e, k, t, t'); }
  }

  lemma FenceTracker(cfg: Config, calls: Calls, me: nat, d: Daemon, k: Key, op: Op)
    requires cfg.Valid() && op != Unknown && OpsOk(cfg, calls, me, d)
    requires me in cfg.dmns(k.sig)
    requires k in d.ops ==> d.ops[k].mine.None?
    ensures var t := MergeOp(TrackerFor(cfg, me, d, k), op);
            && t.op != Unknown && (t.status == Success ==> t.op == op)
            && (t.aborting ==> me == 0)
            && (!Settled(me, t) ==> TrackOk(cfg, calls, me, d.epoch, k, t))
  {
    if k in d.ops {
      assert KeyOk(cfg, calls, me, d.epoch, k, d.ops[k]);
      if !Settled(me, d.ops[k]) { MergeKeeps(cfg, calls, me, d.epoch, k, d.ops[k], op); }
    } else {
      NewCounting(cfg, calls, me, d.epoch, k, op);
    }
  }

  lemma FenceOps(cfg: Config, calls: Calls, me: nat, d: Daemon, k: Key, op: Op, status: Status,
                 t: Tracker, offer: Offer)
    requires cfg.Valid() && OpsOk(cfg, calls, me, d) && me in cfg.dmns(k.sig) && op != Unknown
    requires k in d.ops ==> d.ops[k].mine.None?
    requires (me, k) in calls && calls[(me, k)].op == op && calls[(me, k)].status == status
    requires t == MergeOp(TrackerFor(cfg, me, d, k), op)
    requires offer == Offer(t.op, status, if t.op == Allgather then [Item(me, calls[(me, k)].data)] else [])
    ensures t.op != Unknown
    ensures OpsOk(cfg, calls, me, d.(ops := d.ops[k := t.(mine := Some(offer))]))
  {
    FenceTracker(cfg, calls, me, d, k, op);
    FileMine(cfg, calls, me, d.epoch, k, t, op, status);
    OneKey(cfg, calls, me, d, k, t.(mine := Some(offer)));
  }

  lemma FenceOutcome(cfg: Config, calls: Calls, me: nat, d: Daemon, sig: Sig, op: Op, status: Status, data: Blob)
    requires cfg.Valid() && me in cfg.tree(d.epoch).living && OpsOk(cfg, calls, me, d)
    requires me in cfg.dmns(sig) && op != Unknown && !Called(d, sig)
    requires var k := Key(sig, GenNext(d, sig)); (me, k) in calls && calls[(me, k)] == Call(op, data, status)
    ensures OutcomeOk(cfg, calls, me, FenceCall(cfg, me, d, sig, op, status, data))
  {
    var k := Key(sig, GenNext(d, sig));
    var t := MergeOp(TrackerFor(cfg, me, d, k), op);
    var offer := Offer(t.op, status, if t.op == Allgather then [Item(me, data)] else []);
    FenceOps(cfg, calls, me, d, k, op, status, t, offer);
    assert MsgOk(cfg, calls, SelfMsg(me, d.epoch, k, offer));
  }
}
