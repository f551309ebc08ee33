/** What every run of the fence keeps, and what its releases promise. */
module FenceTheorems {
  import opened RoutingTree
  import opened Fence
  import opened FenceContent
  import opened FenceSteps
  import opened FenceSystem
  import opened FenceInvariant
  import opened FenceLinks
  import opened FenceRounds

  // ---- each step keeps the invariant ----

  lemma RecvContent(cfg: Config, s: State, m: Msg)
    requires cfg.Valid() && Placed(cfg, s) && Content(cfg, s)
    requires m in s.net && m.dst in s.ds && m.epoch == s.ds[m.dst].epoch && SelfKnown(m.dst, s.ds[m.dst], m)
    ensures Content(cfg, DoRecv(cfg, s, m))
  {
    var me, d := m.dst, s.ds[m.dst];
    var o := RecvNow(cfg, me, d, m);
    RecvOutcome(cfg, s.calls, me, d, m);
    PutContent(cfg, s, me, o, s.calls);
    assert DoRecv(cfg, s, m) == Put(s, me, o).(calls := s.calls);
  }

  lemma RecvLinks(cfg: Config, s: State, m: Msg)
    requires cfg.Valid() && Placed(cfg, s) && Links(s) && m in s.net && m.dst in s.ds
    ensures Links(DoRecv(cfg, s, m))
    ensures SelfKnown(m.dst, s.ds[m.dst], m)
  {
    OnwardRecv(cfg, m.dst, s.ds[m.dst], m);
    SendsRecv(cfg, m.dst, s.ds[m.dst], m);
    PutLinks(s, m.dst, RecvNow(cfg, m.dst, s.ds[m.dst], m));
    if m.src == m.dst { assert SelfHeld(s, m); }
  }

  /** A step about round `k`: what it sends and what it broadcasts is about
      `k`, and only the master broadcasts, answering a round it had not. */
  ghost predicate About(me: nat, d: Daemon, o: Outcome, k: Key) {
    && o.d.epoch == d.epoch
    && (forall m :: m in o.out ==> m.key == k)
    && (o.rel == [] || (me == 0 && |o.rel| == 1 && o.rel[0].key == k
                        && (k in d.ops ==> !Settled(0, d.ops[k]))
                        && k in o.d.ops && Settled(0, o.d.ops[k])))
  }

  lemma CheckAbout(cfg: Config, me: nat, d: Daemon, k: Key, t: Tracker)
    requires cfg.Valid() && (me == 0 || me in cfg.tree(d.epoch).parent)
    requires k in d.ops && Settled(me, d.ops[k]) ==> Settled(me, t)
    ensures About(me, d, Check(cfg, me, d, k, t), k)
  {
  }

  lemma RecvAbout(cfg: Config, me: nat, d: Daemon, m: Msg)
    requires cfg.Valid() && (me == 0 || me in cfg.tree(d.epoch).parent)
    ensures About(me, d, RecvNow(cfg, me, d, m), m.key)
  {
    var slot := cfg.tree(d.epoch).SlotOf(m.src, me);
    var from := if m.src == me then None else slot;
    var t := MergeOp(TrackerFor(cfg, me, d, m.key), m.op);
    CheckAbout(cfg, me, d, m.key, Absorb(cfg, me, d.epoch, t, m, from));
  }

  lemma RecvRounds(cfg: Config, s: State, m: Msg)
    requires cfg.Valid() && Placed(cfg, s) && Rounds(s) && m in s.net && m.dst in s.ds
    ensures Rounds(DoRecv(cfg, s, m))
  {
    TracksRecv(cfg, m.dst, s.ds[m.dst], m);
    RecvAbout(cfg, m.dst, s.ds[m.dst], m);
    RoundsMaybe(s, m.dst, RecvNow(cfg, m.dst, s.ds[m.dst], m), m.key);
  }

  /** As RoundsKept, for a step that may have done nothing at all. */
  lemma RoundsMaybe(s: State, me: nat, o: Outcome, k: Key)
    requires Rounds(s) && me in s.ds && k.gen <= Count(s.log, |s.log|, k.sig)
    requires About(me, s.ds[me], o, k)
    requires o == Outcome(s.ds[me], {}, []) || (!Past(s.ds[me], k) && Tracks(me, s.ds[me], o.d, k))
    ensures Rounds(Put(s, me, o))
  {
    if o == Outcome(s.ds[me], {}, []) {
      assert s.log + [] == s.log;
    } else {
      RoundsKept(s, me, o, k);
    }
  }

  lemma CheckContent(cfg: Config, s: State, d: nat, k: Key)
    requires cfg.Valid() && Placed(cfg, s) && Content(cfg, s) && d in s.ds && k in s.ds[d].ops
    ensures Content(cfg, DoCheck(cfg, s, d, k))
  {
    var dm, t := s.ds[d], s.ds[d].ops[k];
    var o := Check(cfg, d, dm, k, t);
    assert KeyOk(cfg, s.calls, d, dm.epoch, k, t);
    if Settled(d, t) { OneKey(cfg, s.calls, d, dm, k, t); }
    else { CheckOutcome(cfg, s.calls, d, dm, k, t); }
    PutContent(cfg, s, d, o, s.calls);
    assert DoCheck(cfg, s, d, k) == Put(s, d, o).(calls := s.calls);
  }

  lemma CheckLinks(cfg: Config, s: State, d: nat, k: Key)
    requires cfg.Valid() && Placed(cfg, s) && Links(s) && d in s.ds && k in s.ds[d].ops && !Past(s.ds[d], k)
    ensures Links(DoCheck(cfg, s, d, k))
  {
    var dm, t := s.ds[d], s.ds[d].ops[k];
    OnwardCheck(cfg, d, dm, k, t);
    SendsCheck(cfg, d, dm, k, t);
    PutLinks(s, d, Check(cfg, d, dm, k, t));
  }

  lemma CheckRounds(cfg: Config, s: State, d: nat, k: Key)
    requires cfg.Valid() && Placed(cfg, s) && Rounds(s) && d in s.ds && k in s.ds[d].ops
    ensures Rounds(DoCheck(cfg, s, d, k)) && !Past(s.ds[d], k)
  {
    var dm, t := s.ds[d], s.ds[d].ops[k];
    assert InStep(s.log, dm);
    TracksCheck(cfg, d, dm, k, t);
    CheckAbout(cfg, d, dm, k, t);
    RoundsKept(s, d, Check(cfg, d, dm, k, t), k);
  }

  lemma EnterContent(cfg: Config, s: State, d: nat, e: nat)
    requires cfg.Valid() && Content(cfg, s) && d in s.ds && d in cfg.tree(e).living
    ensures Content(cfg, DoEnter(cfg, s, d, e))
  {
    var o := Enter(cfg, d, s.ds[d], e);
    EnterOutcome(cfg, s.calls, d, s.ds[d], e);
    PutContent(cfg, s, d, o, s.calls);
    assert DoEnter(cfg, s, d, e) == Put(s, d, o).(calls := s.calls);
  }

  lemma EnterLinks(cfg: Config, s: State, d: nat, e: nat)
    requires cfg.Valid() && Links(s) && d in s.ds && s.ds[d].epoch < e
    ensures Links(DoEnter(cfg, s, d, e))
  {
    OnwardEnter(cfg, d, s.ds[d], e);
    PutLinks(s, d, Enter(cfg, d, s.ds[d], e));
  }

  lemma EnterRounds(cfg: Config, s: State, d: nat, e: nat)
    requires cfg.Valid() && Rounds(s) && d in s.ds
    ensures Rounds(DoEnter(cfg, s, d, e))
  {
    var dm := s.ds[d];
    var o := Enter(cfg, d, dm, e);
    assert InStep(s.log, dm);
    assert forall sig :: GenNext(o.d, sig) == GenNext(dm, sig);
    assert InStep(s.log, o.d);
    assert s.log + [] == s.log;
    forall m | m in o.out ensures m.key.gen <= Count(s.log, |s.log|, m.key.sig) {
      assert m.key in dm.ops;
    }
  }

  lemma AbortContent(cfg: Config, s: State, k: Key, code: int)
    requires cfg.Valid() && Content(cfg, s) && 0 in s.ds && k in s.ds[0].ops
    ensures Content(cfg, DoAbort(s, k, code))
  {
    var d := s.ds[0];
    var o := Abort(d, k, code);
    assert KeyOk(cfg, s.calls, 0, d.epoch, k, d.ops[k]);
    OneKey(cfg, s.calls, 0, d, k, d.ops[k].(aborting := true));
    PutContent(cfg, s, 0, o, s.calls);
    assert DoAbort(s, k, code) == Put(s, 0, o).(calls := s.calls);
  }

  lemma AbortLinks(s: State, k: Key, code: int)
    requires Links(s) && 0 in s.ds && k in s.ds[0].ops
    ensures Links(DoAbort(s, k, code))
  {
    OnwardAbort(s.ds[0], k, code);
    PutLinks(s, 0, Abort(s.ds[0], k, code));
  }

  lemma AbortRounds(s: State, k: Key, code: int)
    requires Rounds(s) && k in s.ds[0].ops && !Settled(0, s.ds[0].ops[k])
    ensures Rounds(DoAbort(s, k, code))
  {
    assert InStep(s.log, s.ds[0]);
    TracksKey(0, s.ds[0], k, s.ds[0].ops[k].(aborting := true));
    RoundsKept(s, 0, Abort(s.ds[0], k, code), k);
  }

  lemma ReleaseContent(cfg: Config, s: State, d: nat)
    requires cfg.Valid() && Content(cfg, s) && d in s.ds && s.ds[d].seen < |s.log|
    ensures Content(cfg, DoRelease(s, d))
  {
    var dm' := Retire(s.ds[d], s.log[s.ds[d].seen]);
    forall k | k in dm'.ops ensures KeyOk(cfg, s.calls, d, dm'.epoch, k, dm'.ops[k]) {
      assert KeyOk(cfg, s.calls, d, s.ds[d].epoch, k, s.ds[d].ops[k]);
    }
    PutContent(cfg, s, d, Outcome(dm', {}, []), s.calls);
    assert s.log + [] == s.log;
    assert DoRelease(s, d) == Put(s, d, Outcome(dm', {}, [])).(calls := s.calls);
  }

  lemma ReleaseLinks(s: State, d: nat)
    requires Links(s) && d in s.ds && s.ds[d].seen < |s.log|
    ensures Links(DoRelease(s, d))
  {
    var dm' := Retire(s.ds[d], s.log[s.ds[d].seen]);
    OnwardRetire(s.ds[d], s.log[s.ds[d].seen]);
    PutLinks(s, d, Outcome(dm', {}, []));
    assert s.log + [] == s.log;
    assert DoRelease(s, d) == Put(s, d, Outcome(dm', {}, []));
  }

  lemma ReleaseRounds(s: State, d: nat)
    requires Rounds(s) && d in s.ds && s.ds[d].seen < |s.log|
    ensures Rounds(DoRelease(s, d))
  {
    RetireInStep(s.log, s.ds[d]);
    if d == 0 { RetireAtHelm(s.log, s.ds[0]); }
  }

  /** The up-call is the daemon's first for the round now open there. */
  lemma FirstCall(s: State, d: nat, sig: Sig)
    requires Links(s) && d in s.ds && !Called(s.ds[d], sig)
    ensures (d, Key(sig, GenNext(s.ds[d], sig))) !in s.calls
  {
    var k := Key(sig, GenNext(s.ds[d], sig));
    assert (d, k) in s.calls ==> CallHeld(s, d, k);
  }

  lemma FenceCallContent(cfg: Config, s: State, d: nat, sig: Sig, op: Op, status: Status, data: Blob)
    requires cfg.Valid() && Content(cfg, s) && d in s.ds && PlacedAt(cfg, d, s.ds[d].epoch)
    requires d in cfg.dmns(sig) && op != Unknown && !Called(s.ds[d], sig)
    requires (d, Key(sig, GenNext(s.ds[d], sig))) !in s.calls
    ensures Content(cfg, DoFence(cfg, s, d, sig, op, status, data))
  {
    var dm := s.ds[d];
    var calls := s.calls[(d, Key(sig, GenNext(dm, sig))) := Call(op, data, status)];
    var o := FenceCall(cfg, d, dm, sig, op, status, data);
    assert OpsOk(cfg, s.calls, d, dm);
    NewCall(cfg, s.calls, d, dm, sig, op, status, data);
    assert Extends(s.calls, calls);
    PutContent(cfg, s, d, o, calls);
    assert DoFence(cfg, s, d, sig, op, status, data) == Put(s, d, o).(calls := calls);
  }

  lemma NewCall(cfg: Config, calls: Calls, me: nat, d: Daemon, sig: Sig, op: Op, status: Status, data: Blob)
    requires cfg.Valid() && me in cfg.tree(d.epoch).living && OpsOk(cfg, calls, me, d)
    requires me in cfg.dmns(sig) && op != Unknown && !Called(d, sig)
    requires (me, Key(sig, GenNext(d, sig))) !in calls
    ensures OutcomeOk(cfg, calls[(me, Key(sig, GenNext(d, sig))) := Call(op, data, status)], me,
                      FenceCall(cfg, me, d, sig, op, status, data))
  {
    var calls' := calls[(me, Key(sig, GenNext(d, sig))) := Call(op, data, status)];
    OpsMono(cfg, calls, calls', me, d);
    FenceOutcome(cfg, calls', me, d, sig, op, status, data);
  }

  lemma FenceCallLinks(cfg: Config, s: State, d: nat, sig: Sig, op: Op, status: Status, data: Blob)
    requires cfg.Valid() && Links(s) && d in s.ds && op != Unknown && !Called(s.ds[d], sig)
    ensures Links(DoFence(cfg, s, d, sig, op, status, data))
  {
    var dm := s.ds[d];
    var k := Key(sig, GenNext(dm, sig));
    var o := FenceCall(cfg, d, dm, sig, op, status, data);
    OnwardFence(cfg, d, dm, sig, op, status, data);
    PutLinks(s, d, o);
    var s1 := Put(s, d, o);
    var s' := DoFence(cfg, s, d, sig, op, status, data);
    forall x, j | (x, j) in s'.calls ensures CallHeld(s', x, j) {
      if (x, j) != (d, k) { assert CallHeld(s1, x, j); }
    }
    forall m | m in s'.net && m.src == m.dst ensures SelfHeld(s', m) { assert SelfHeld(s1, m); }
    forall m | m in s'.net && m.src != m.dst ensures SentHeld(s', m) { assert SentHeld(s1, m); }
  }

  lemma FenceCallRounds(cfg: Config, s: State, d: nat, sig: Sig, op: Op, status: Status, data: Blob)
    requires cfg.Valid() && Rounds(s) && d in s.ds
    ensures Rounds(DoFence(cfg, s, d, sig, op, status, data))
  {
    var dm := s.ds[d];
    TracksFence(cfg, d, dm, sig, op, status, data);
    assert InStep(s.log, dm);
    CountMono(s.log, dm.seen, |s.log|, sig);
    RoundsKept(s, d, FenceCall(cfg, d, dm, sig, op, status, data), Key(sig, GenNext(dm, sig)));
  }

  /** One tracker moved on, with at most one answer: the numbering holds. */
  lemma RoundsKept(s: State, me: nat, o: Outcome, k: Key)
    requires Rounds(s) && me in s.ds
    requires Tracks(me, s.ds[me], o.d, k) && !Past(s.ds[me], k) && k.gen <= Count(s.log, |s.log|, k.sig)
    requires About(me, s.ds[me], o, k)
    ensures Rounds(Put(s, me, o))
  {
    TrackerMoved(s, me, o, k);
    if o.rel == [] {
      assert s.log + [] == s.log;
    } else {
      assert k.gen == Count(s.log, |s.log|, k.sig) by {
        if k !in s.ds[0].ops { OpenRound(s.log, s.ds[0], k); }
      }
      assert o.rel == [o.rel[0]];
      AppendKeeps(s.(ds := s.ds[me := o.d], net := s.net + o.out), s.ds[0], o.rel[0]);
    }
  }

  lemma TrackerMoved(s: State, me: nat, o: Outcome, k: Key)
    requires Rounds(s) && me in s.ds
    requires Tracks(me, s.ds[me], o.d, k) && !Past(s.ds[me], k) && k.gen <= Count(s.log, |s.log|, k.sig)
    requires forall m :: m in o.out ==> m.key == k
    ensures Rounds(s.(ds := s.ds[me := o.d], net := s.net + o.out))
  {
    TracksInStep(s.log, me, s.ds[me], o.d, k);
    if me == 0 { TracksAtHelm(s.log, s.ds[0], o.d, k); }
  }

  lemma AppendKeeps(s: State, d: Daemon, r: Release)
    requires Rounds(s) && AtHelm(s.log, d) && Tracks(0, d, s.ds[0], r.key)
    requires r.key.gen == Count(s.log, |s.log|, r.key.sig)
    requires r.key in s.ds[0].ops && Settled(0, s.ds[0].ops[r.key])
    ensures Rounds(s.(log := s.log + [r]))
  {
    OrderedAppend(s.log, r);
    HelmAppend(s.log, d, s.ds[0], r);
    forall d | d in s.ds ensures InStep(s.log + [r], s.ds[d]) { InStepAppend(s.log, r, s.ds[d]); }
    forall m | m in s.net ensures m.key.gen <= Count(s.log + [r], |s.log| + 1, m.key.sig) {
      CountAppend(s.log, r, m.key.sig);
    }
  }

  lemma PutPlaced(cfg: Config, s: State, me: nat, o: Outcome)
    requires Placed(cfg, s) && me in s.ds && PlacedAt(cfg, me, o.d.epoch)
    ensures Placed(cfg, Put(s, me, o))
  {
    assert Put(s, me, o).ds.Keys == s.ds.Keys;
  }

  lemma StaysPlaced(cfg: Config, s: State, step: Step)
    requires cfg.Valid() && Placed(cfg, s) && Enabled(cfg, s, step)
    ensures Placed(cfg, Do(cfg, s, step))
  {
    if step.FenceStep? {
      PutPlaced(cfg, s, step.d, FenceCall(cfg, step.d, s.ds[step.d], step.sig, step.op, step.status, step.data));
    } else if step.RecvStep? {
      RecvAbout(cfg, step.m.dst, s.ds[step.m.dst], step.m);
      PutPlaced(cfg, s, step.m.dst, RecvNow(cfg, step.m.dst, s.ds[step.m.dst], step.m));
    } else if step.EnterStep? {
      PutPlaced(cfg, s, step.d, Enter(cfg, step.d, s.ds[step.d], step.e));
    } else if step.CheckStep? {
      CheckAbout(cfg, step.d, s.ds[step.d], step.k, s.ds[step.d].ops[step.k]);
      PutPlaced(cfg, s, step.d, Check(cfg, step.d, s.ds[step.d], step.k, s.ds[step.d].ops[step.k]));
    } else if step.AbortStep? {
      PutPlaced(cfg, s, 0, Abort(s.ds[0], step.k, step.code));
    } else {
      PutPlaced(cfg, s, step.d, Outcome(Retire(s.ds[step.d], s.log[s.ds[step.d].seen]), {}, []));
    }
  }

  /** Every step of every daemon keeps the invariant. */
  lemma StepKeeps(cfg: Config, s: State, step: Step)
    requires cfg.Valid() && Inv(cfg, s) && Enabled(cfg, s, step)
    ensures Inv(cfg, Do(cfg, s, step))
  {
    StaysPlaced(cfg, s, step);
    if step.FenceStep? {
      FirstCall(s, step.d, step.sig);
      FenceCallContent(cfg, s, step.d, step.sig, step.op, step.status, step.data);
      FenceCallLinks(cfg, s, step.d, step.sig, step.op, step.status, step.data);
      FenceCallRounds(cfg, s, step.d, step.sig, step.op, step.status, step.data);
    } else if step.RecvStep? {
      RecvLinks(cfg, s, step.m);
      RecvContent(cfg, s, step.m);
      RecvRounds(cfg, s, step.m);
    } else if step.EnterStep? {
      EnterContent(cfg, s, step.d, step.e);
      EnterLinks(cfg, s, step.d, step.e);
      EnterRounds(cfg, s, step.d, step.e);
    } else if step.CheckStep? {
      CheckRounds(cfg, s, step.d, step.k);
      CheckContent(cfg, s, step.d, step.k);
      CheckLinks(cfg, s, step.d, step.k);
    } else if step.AbortStep? {
      AbortContent(cfg, s, step.k, step.code);
      AbortLinks(s, step.k, step.code);
      AbortRounds(s, step.k, step.code);
    } else {
      ReleaseContent(cfg, s, step.d);
      ReleaseLinks(s, step.d);
      ReleaseRounds(s, step.d);
    }
  }
}
