/** A daemon never forgets a call before its round ends, and never answers one
    round twice at one epoch. */
module FenceLinks {
  import opened RoutingTree
  import opened Fence
  import opened FenceSystem

  /** The daemon still holds our contribution `offer` to round `k`, or the round is over. */
  predicate Held(d: Daemon, k: Key, offer: Offer) {
    Past(d, k) || (k in d.ops && d.ops[k].mine == Some(offer))
  }

  predicate Answered(d: Daemon, k: Key) {
    Past(d, k) || (k in d.ops && d.ops[k].converged)
  }

  /** How a daemon moves: rounds only end, epochs only advance, contributions
      are kept, and an answer is forgotten only by a new epoch. */
  ghost predicate Onward(d: Daemon, d': Daemon) {
    && (forall k :: Past(d, k) ==> Past(d', k))
    && (forall k :: k in d.ops && d.ops[k].mine.Some? ==> Held(d', k, d.ops[k].mine.value))
    && d.epoch <= d'.epoch
    && (d'.epoch == d.epoch ==> forall k :: Answered(d, k) ==> Answered(d', k))
  }

  /** `t` may take the place of the daemon's tracker for `k`. */
  predicate Succeeds(d: Daemon, k: Key, t: Tracker) {
    k in d.ops ==> (d.ops[k].mine.Some? ==> t.mine == d.ops[k].mine)
                   && (d.ops[k].converged ==> t.converged)
  }

  lemma OnwardKey(d: Daemon, k: Key, t: Tracker)
    requires Succeeds(d, k, t)
    ensures Onward(d, d.(ops := d.ops[k := t]))
  {
  }

  lemma OnwardCheck(cfg: Config, me: nat, d: Daemon, k: Key, t: Tracker)
    requires cfg.Valid() && (me == 0 || me in cfg.tree(d.epoch).parent)
    requires Succeeds(d, k, t)
    ensures Onward(d, Check(cfg, me, d, k, t).d)
  {
    OnwardKey(d, k, t);
    OnwardKey(d, k, t.(converged := true));
  }

  lemma OnwardRecv(cfg: Config, me: nat, d: Daemon, m: Msg)
    requires cfg.Valid() && (me == 0 || me in cfg.tree(d.epoch).parent)
    ensures Onward(d, RecvNow(cfg, me, d, m).d)
  {
    var slot := cfg.tree(d.epoch).SlotOf(m.src, me);
    var from := if m.src == me then None else slot;
    var t := MergeOp(TrackerFor(cfg, me, d, m.key), m.op);
    if !(Past(d, m.key) || (m.src != me && slot.None?)) {
      OnwardKey(d, m.key, t);
      OnwardCheck(cfg, me, d, m.key, Absorb(cfg, me, d.epoch, t, m, from));
    }
  }

  lemma OnwardFence(cfg: Config, me: nat, d: Daemon, sig: Sig, op: Op, status: Status, data: Blob)
    requires cfg.Valid() && !Called(d, sig)
    ensures Onward(d, FenceCall(cfg, me, d, sig, op, status, data).d)
  {
  }

  lemma OnwardEnter(cfg: Config, me: nat, d: Daemon, e: nat)
    requires cfg.Valid() && d.epoch < e
    ensures Onward(d, Enter(cfg, me, d, e).d)
  {
  }

  lemma OnwardAbort(d: Daemon, k: Key, code: int)
    requires k in d.ops
    ensures Onward(d, Abort(d, k, code).d)
  {
  }

  lemma OnwardRetire(d: Daemon, r: Release)
    ensures Onward(d, Retire(d, r))
  {
    var d' := Retire(d, r);
    assert Past(d', r.key);
  }

  /** Links survive a daemon moving onward, for what was already there. */
  lemma MoveLinks(s: State, me: nat, d': Daemon, net: set<Msg>)
    requires Links(s) && me in s.ds && Onward(s.ds[me], d') && net <= s.net
    ensures var ds := s.ds[me := d'];
            && (forall x, k :: (x, k) in s.calls ==> CallHeld(s.(ds := ds), x, k))
            && (forall m :: m in net && m.src == m.dst ==> SelfHeld(s.(ds := ds), m))
            && (forall m :: m in net && m.src != m.dst ==> SentHeld(s.(ds := ds), m))
  {
    var s' := s.(ds := s.ds[me := d']);
    var d := s.ds[me];
    forall x, k | (x, k) in s.calls ensures CallHeld(s', x, k) {
      assert CallHeld(s, x, k);
      if x == me && !Past(d, k) { assert Held(d', k, d.ops[k].mine.value); }
    }
    forall m | m in net && m.src == m.dst ensures SelfHeld(s', m) {
      assert SelfHeld(s, m);
      if m.src == me && !Past(d, m.key) { assert Held(d', m.key, d.ops[m.key].mine.value); }
    }
    forall m | m in net && m.src != m.dst ensures SentHeld(s', m) {
      assert SentHeld(s, m);
      if m.src == me && m.epoch == d.epoch { assert Answered(d, m.key); }
    }
  }

  /** What a step may put on the wire. */
  ghost predicate Sends(me: nat, d: Daemon, d': Daemon, out: set<Msg>) {
    && (forall m :: m in out ==> m.src == me)
    && (forall m :: m in out && m.src == m.dst ==>
          m.key in d'.ops && d'.ops[m.key].mine.Some? && d'.ops[m.key].mine.value.op == m.op)
    && (forall m :: m in out && m.src != m.dst ==>
          m.epoch == d.epoch == d'.epoch && !Answered(d, m.key) && Answered(d', m.key))
    && (forall m, n :: m in out && n in out && m.src != m.dst && n.src != n.dst ==> m == n)
  }

  lemma PutLinks(s: State, me: nat, o: Outcome)
    requires Links(s) && me in s.ds && Onward(s.ds[me], o.d) && Sends(me, s.ds[me], o.d, o.out)
    ensures Links(Put(s, me, o))
  {
    MoveLinks(s, me, o.d, s.net);
    var s' := Put(s, me, o);
    var s1 := s.(ds := s'.ds);
    forall x, k | (x, k) in s'.calls ensures CallHeld(s', x, k) { assert CallHeld(s1, x, k); }
    forall m | m in s'.net && m.src == m.dst ensures SelfHeld(s', m) {
      if m in s.net { assert SelfHeld(s1, m); }
    }
    forall m | m in s'.net && m.src != m.dst ensures SentHeld(s', m) {
      if m in s.net { assert SentHeld(s1, m); }
    }
    forall m, n | m in s'.net && n in s'.net && SameAnswer(m, n) ensures m == n {
      assert m in s.net ==> SentHeld(s, m);
      assert n in s.net ==> SentHeld(s, n);
    }
  }

  lemma SendsCheck(cfg: Config, me: nat, d: Daemon, k: Key, t: Tracker)
    requires cfg.Valid() && me in cfg.tree(d.epoch).living && !Past(d, k)
    requires k in d.ops ==> t.converged == d.ops[k].converged
    requires k !in d.ops ==> !t.converged
    ensures var o := Check(cfg, me, d, k, t); Sends(me, d, o.d, o.out)
  {
  }

  lemma SendsRecv(cfg: Config, me: nat, d: Daemon, m: Msg)
    requires cfg.Valid() && me in cfg.tree(d.epoch).living
    ensures var o := RecvNow(cfg, me, d, m); Sends(me, d, o.d, o.out)
  {
    var slot := cfg.tree(d.epoch).SlotOf(m.src, me);
    var from := if m.src == me then None else slot;
    var t := MergeOp(TrackerFor(cfg, me, d, m.key), m.op);
    if !Past(d, m.key) {
      SendsCheck(cfg, me, d, m.key, Absorb(cfg, me, d.epoch, t, m, from));
    }
  }
}
