/** Each daemon step keeps what trackers, messages and releases stand for. */
module FenceSteps {
  import opened RoutingTree
  import opened Fence
  import opened FenceContent

  ghost predicate Extends(a: Calls, b: Calls) {
    forall x :: x in a ==> x in b && b[x] == a[x]
  }

  lemma GatheredMono(a: Calls, b: Calls, k: Key, op: Op, status: Status, items: seq<Item>, who: set<nat>)
    requires Extends(a, b) && Gathered(a, k, op, status, items, who)
    ensures Gathered(b, k, op, status, items, who)
  {
  }

  /** Calls are only ever added, so what was gathered stays gathered. */
  lemma OkMono(cfg: Config, a: Calls, b: Calls)
    requires cfg.Valid() && Extends(a, b)
    ensures forall m :: MsgOk(cfg, a, m) ==> MsgOk(cfg, b, m)
    ensures forall r :: RelOk(cfg, a, r) ==> RelOk(cfg, b, r)
    ensures forall me, k, t :: MineOk(cfg, a, me, k, t) ==> MineOk(cfg, b, me, k, t)
    ensures forall me, e, k, t :: TrackOk(cfg, a, me, e, k, t) ==> TrackOk(cfg, b, me, e, k, t)
  {
    forall m | MsgOk(cfg, a, m) ensures MsgOk(cfg, b, m) {
      if m.src != m.dst { GatheredMono(a, b, m.key, m.op, m.status, m.payload, m.arrived); }
    }
    forall r | RelOk(cfg, a, r) ensures RelOk(cfg, b, r) {
      if r.status == Success { GatheredMono(a, b, r.key, r.op, r.status, r.data, r.arrived); }
    }
    forall me, e, k, t | TrackOk(cfg, a, me, e, k, t) ensures TrackOk(cfg, b, me, e, k, t) {
      GatheredMono(a, b, k, t.op, t.status, t.bucket, t.arrived);
    }
  }

  lemma OwnersConcat(a: seq<Item>, b: seq<Item>)
    ensures Owners(a + b) == Owners(a) + Owners(b)
  {
    forall x | x in Owners(a) + Owners(b) ensures x in Owners(a + b) {
      if x in Owners(a) {
        var i :| 0 <= i < |a| && a[i].owner == x;
        assert (a + b)[i].owner == x;
      } else {
        var i :| 0 <= i < |b| && b[i].owner == x;
        assert (a + b)[|a| + i].owner == x;
      }
    }
  }

  /** Appending two rollups over disjoint daemons takes no block twice. */
  lemma AppendFrom(calls: Calls, k: Key, a: seq<Item>, b: seq<Item>, p: set<nat>, q: set<nat>)
    requires FromCalls(calls, k, a, p) && FromCalls(calls, k, b, q) && p !! q
    ensures FromCalls(calls, k, a + b, p + q)
    ensures Owners(a + b) == Owners(a) + Owners(b)
  {
    OwnersConcat(a, b);
  }

  /** The accounting does not look at the operation, the status or the latch. */
  lemma SameAccount(cfg: Config, me: nat, e: nat, k: Key, t: Tracker, t': Tracker)
    requires cfg.Valid() && Accounted(cfg, me, e, k, t)
    requires t' == t.(op := t'.op, status := t'.status, converged := t'.converged, mine := t'.mine)
    ensures Accounted(cfg, me, e, k, t')
  {
    assert forall c, x :: Missed(cfg, e, k.sig, t', c, x) <==> Missed(cfg, e, k.sig, t, c, x);
    assert forall c :: Uninvited(cfg, me, e, k.sig, t', c) <==> Uninvited(cfg, me, e, k.sig, t, c);
  }

  /** What a tracker holds once the operation of an arriving message is folded in. */
  lemma MergeKeeps(cfg: Config, calls: Calls, me: nat, e: nat, k: Key, t: Tracker, op: Op)
    requires cfg.Valid() && op != Unknown
    requires Counting(cfg, calls, me, e, k, t)
    ensures Counting(cfg, calls, me, e, k, MergeOp(t, op))
    ensures MergeOp(t, op).status == Success ==> MergeOp(t, op).op == op
  {
    SameAccount(cfg, me, e, k, t, MergeOp(t, op));
  }

  lemma NewCounting(cfg: Config, calls: Calls, me: nat, e: nat, k: Key, op: Op)
    requires cfg.Valid() && op != Unknown
    ensures Counting(cfg, calls, me, e, k, MergeOp(NewTracker(cfg, me, e, k.sig), op))
  {
    var t := MergeOp(NewTracker(cfg, me, e, k.sig), op);
    assert t.slots == {};
  }

  /** A message the daemon's own tree routes to it, ready to be counted. */
  ghost predicate Arriving(cfg: Config, calls: Calls, me: nat, e: nat, t: Tracker, m: Msg)
    requires cfg.Valid()
  {
    && MsgOk(cfg, calls, m) && m.dst == me && m.epoch == e
    && (t.status == Success ==> t.op == m.op)
    && (m.src == me ==> t.mine.Some? && t.op == m.op)
  }

  lemma AbsorbGathered(cfg: Config, calls: Calls, me: nat, e: nat, t: Tracker, m: Msg, slot: Option<nat>)
    requires cfg.Valid() && Arriving(cfg, calls, me, e, t, m)
    requires Counting(cfg, calls, me, e, m.key, t)
    requires slot == if m.src == me then None else Some(m.src)
    requires t.arrived !! m.arrived
    ensures var t' := Absorb(cfg, me, e, t, m, slot);
            Gathered(calls, m.key, t'.op, t'.status, t'.bucket, t'.arrived)
  {
    SelfGathered(cfg, calls, me, t, m);
    AppendFrom(calls, m.key, t.bucket, m.payload, t.arrived, m.arrived);
  }

  /** Our own contribution is a rollup of one call. */
  lemma SelfGathered(cfg: Config, calls: Calls, me: nat, t: Tracker, m: Msg)
    requires cfg.Valid() && MsgOk(cfg, calls, m) && m.dst == me
    requires m.src == me ==> t.mine.Some? && t.op == m.op && MineOk(cfg, calls, me, m.key, t)
    ensures FromCalls(calls, m.key, m.payload, m.arrived)
    ensures m.src == me && m.op == Allgather ==> Owners(m.payload) == m.arrived
  {
    if m.src == me && m.op == Allgather {
      assert m.payload == [Item(me, calls[(me, m.key)].data)];
      assert m.payload[0].owner in Owners(m.payload);
    }
  }

  lemma ChildSlot(cfg: Config, me: nat, e: nat, m: Msg, calls: Calls)
    requires cfg.Valid() && MsgOk(cfg, calls, m) && m.dst == me && m.epoch == e && m.src != me
    ensures m.src in cfg.tree(e).Children(me)
    ensures cfg.tree(e).SlotOf(m.src, me) == Some(m.src)
  {
  }

  /** A delivered contribution is dropped as stale, ignored as a repeat, or counted. */
  lemma RecvShape(cfg: Config, calls: Calls, me: nat, d: Daemon, m: Msg)
    requires cfg.Valid() && (me == 0 || me in cfg.tree(d.epoch).parent)
    requires MsgOk(cfg, calls, m) && m.dst == me && m.epoch == d.epoch
    ensures var slot := if m.src == me then None else Some(m.src);
            var t := MergeOp(TrackerFor(cfg, me, d, m.key), m.op);
            RecvNow(cfg, me, d, m)
              == if m.key.gen < GenNext(d, m.key.sig) then Outcome(d, {}, [])
                 else if Counted(t, slot) then Outcome(d.(ops := d.ops[m.key := t]), {}, [])
                 else Check(cfg, me, d, m.key, Absorb(cfg, me, d.epoch, t, m, slot))
  {
    if m.src != me { ChildSlot(cfg, me, d.epoch, m, calls); }
  }

  /** Whatever arrives: it gets a tracker if and only if it is from our own
      subtree and its round is not over, and otherwise changes nothing. */
  lemma TakenIffBelow(cfg: Config, me: nat, d: Daemon, m: Msg)
    requires cfg.Valid() && (me == 0 || me in cfg.tree(d.epoch).parent) && me in cfg.tree(d.epoch).living
    ensures var o := RecvNow(cfg, me, d, m);
            var taken := m.src in cfg.tree(d.epoch).Sub(me) && m.key.gen >= GenNext(d, m.key.sig);
            && (m.key in o.d.ops <==> m.key in d.ops || taken)
            && (!taken ==> o == Outcome(d, {}, []))
  {
    var t := cfg.tree(d.epoch);
    if m.src != me {
      var slot := t.SlotOf(m.src, me);
      if slot.Some? { t.ChildBelow(me, slot.value, m.src); }
      else if m.src in t.Sub(me) { var _ := t.SubSplit(me, m.src); }
    }
  }

  /** What arrives from an uncounted slot has not been counted before. */
  lemma FreshArrival(cfg: Config, calls: Calls, me: nat, e: nat, t: Tracker, m: Msg)
    requires cfg.Valid() && Arriving(cfg, calls, me, e, t, m) && me in cfg.tree(e).living
    requires Accounted(cfg, me, e, m.key, t)
    requires if m.src == me then !t.self else m.src !in t.slots
    ensures t.arrived !! m.arrived
  {
    ArrivedIsDue(cfg, me, e, m.key, t);
    if m.src != me {
      ChildSlot(cfg, me, e, m, calls);
      var tr := cfg.tree(e);
      forall x | x in m.arrived ensures x !in t.arrived {
        tr.ChildBelow(me, m.src, x);
        if x in t.arrived {
          var c :| c in t.slots && tr.Below(x, c);
          tr.SiblingsDisjoint(me, c, m.src, x);
        }
      }
    }
  }

  lemma AbsorbAccounted(cfg: Config, calls: Calls, me: nat, e: nat, t: Tracker, m: Msg, slot: Option<nat>)
    requires cfg.Valid() && Arriving(cfg, calls, me, e, t, m) && me in cfg.tree(e).living
    requires Counting(cfg, calls, me, e, m.key, t)
    requires slot == if m.src == me then None else Some(m.src)
    requires !Counted(t, slot)
    ensures Accounted(cfg, me, e, m.key, Absorb(cfg, me, e, t, m, slot))
  {
    var sig := m.key.sig;
    var t' := Absorb(cfg, me, e, t, m, slot);
    FreshArrival(cfg, calls, me, e, t, m);
    if m.src != me { ChildSlot(cfg, me, e, m, calls); }
    forall x | x in t'.arrived
      ensures x in cfg.dmns(sig) && x in cfg.tree(e).living
      ensures (x == me && t'.self) || exists c :: c in t'.slots && cfg.tree(e).Below(x, c)
    {
      if x in t.arrived && !(x == me && t.self) {
        var c :| c in t.slots && cfg.tree(e).Below(x, c);
        assert c in t'.slots;
      } else if x in m.arrived && m.src != me {
        assert m.src in t'.slots;
      }
    }
    AbsorbShort(cfg, calls, me, e, t, m, slot);
  }

  lemma AbsorbShort(cfg: Config, calls: Calls, me: nat, e: nat, t: Tracker, m: Msg, slot: Option<nat>)
    requires cfg.Valid() && Arriving(cfg, calls, me, e, t, m) && me in cfg.tree(e).living
    requires Accounted(cfg, me, e, m.key, t)
    requires slot == if m.src == me then None else Some(m.src)
    requires !Counted(t, slot)
    ensures var t' := Absorb(cfg, me, e, t, m, slot);
            && (!t'.short ==>
                  && (t'.nexpected > 0 ==> t'.slots <= cfg.Expected(e, me, m.key.sig))
                  && forall c, x :: !Missed(cfg, e, m.key.sig, t', c, x))
            && (t'.short ==>
                  || (t'.nexpected > 0 && exists c :: Uninvited(cfg, me, e, m.key.sig, t', c))
                  || (exists c, x :: Missed(cfg, e, m.key.sig, t', c, x)))
  {
    var sig := m.key.sig;
    var t' := Absorb(cfg, me, e, t, m, slot);
    if !t'.short {
      forall c, x | Missed(cfg, e, sig, t', c, x) ensures false {
        if c in t.slots { assert Missed(cfg, e, sig, t, c, x); }
      }
    } else if m.short {
      var x :| x in Due(cfg, e, m.src, sig) && x !in m.arrived;
      NotCounted(cfg, calls, me, e, t, m, x);
      assert Missed(cfg, e, sig, t', m.src, x);
    } else if t.short {
      if c :| Uninvited(cfg, me, e, sig, t, c) && t.nexpected > 0 {
        assert Uninvited(cfg, me, e, sig, t', c);
      } else {
        var c, x :| Missed(cfg, e, sig, t, c, x);
        StillMissed(cfg, calls, me, e, t, m, c, x);
        assert Missed(cfg, e, sig, t', c, x);
      }
    } else {
      assert Uninvited(cfg, me, e, sig, t', slot.value);
    }
  }

  lemma NotCounted(cfg: Config, calls: Calls, me: nat, e: nat, t: Tracker, m: Msg, x: nat)
    requires cfg.Valid() && Arriving(cfg, calls, me, e, t, m) && me in cfg.tree(e).living
    requires Accounted(cfg, me, e, m.key, t)
    requires m.src != me && m.src !in t.slots
    requires x in Due(cfg, e, m.src, m.key.sig)
    ensures x !in t.arrived
  {
    ChildSlot(cfg, me, e, m, calls);
    ArrivedIsDue(cfg, me, e, m.key, t);
    cfg.tree(e).ChildBelow(me, m.src, x);
    if x in t.arrived {
      var c :| c in t.slots && cfg.tree(e).Below(x, c);
      cfg.tree(e).SiblingsDisjoint(me, c, m.src, x);
    }
  }

  lemma StillMissed(cfg: Config, calls: Calls, me: nat, e: nat, t: Tracker, m: Msg, c: nat, x: nat)
    requires cfg.Valid() && Arriving(cfg, calls, me, e, t, m) && me in cfg.tree(e).living
    requires Accounted(cfg, me, e, m.key, t)
    requires if m.src == me then !t.self else m.src !in t.slots
    requires Missed(cfg, e, m.key.sig, t, c, x)
    ensures x !in m.arrived
  {
    cfg.tree(e).ChildBelow(me, c, x);
    if x in m.arrived {
      ChildSlot(cfg, me, e, m, calls);
      cfg.tree(e).SiblingsDisjoint(me, c, m.src, x);
    }
  }

  /** Counting a contribution keeps what the tracker stands for. */
  lemma AbsorbKeeps(cfg: Config, calls: Calls, me: nat, e: nat, t: Tracker, m: Msg, slot: Option<nat>)
    requires cfg.Valid() && Arriving(cfg, calls, me, e, t, m) && me in cfg.tree(e).living
    requires Counting(cfg, calls, me, e, m.key, t)
    requires slot == if m.src == me then None else Some(m.src)
    requires !Counted(t, slot)
    ensures Counting(cfg, calls, me, e, m.key, Absorb(cfg, me, e, t, m, slot))
  {
    FreshArrival(cfg, calls, me, e, t, m);
    AbsorbGathered(cfg, calls, me, e, t, m, slot);
    AbsorbAccounted(cfg, calls, me, e, t, m, slot);
  }

  /** A rollup stands for what was due below the daemon that sends it. */
  lemma RollUpOk(cfg: Config, calls: Calls, me: nat, e: nat, k: Key, t: Tracker)
    requires cfg.Valid() && me in cfg.tree(e).parent
    requires Counting(cfg, calls, me, e, k, t)
    requires t.nreported == t.nexpected || t.nexpected == 0
    ensures MsgOk(cfg, calls, RollUp(me, cfg.tree(e).parent[me], e, k, t))
  {
    CompleteUnlessShort(cfg, me, e, k, t);
  }

  /** The master's answer stands for the living participants of the whole DVM. */
  lemma AnswerOk(cfg: Config, calls: Calls, e: nat, k: Key, t: Tracker)
    requires cfg.Valid()
    requires Counting(cfg, calls, 0, e, k, t)
    requires t.nreported == t.nexpected || t.nexpected == 0
    ensures RelOk(cfg, calls, Answer(e, k, t))
  {
    CompleteUnlessShort(cfg, 0, e, k, t);
    cfg.tree(e).SubRoot();
  }

  lemma CheckKeeps(cfg: Config, calls: Calls, me: nat, d: Daemon, k: Key, t: Tracker)
    requires cfg.Valid() && me in cfg.tree(d.epoch).living
    requires Counting(cfg, calls, me, d.epoch, k, t) && !t.aborting
    requires !t.converged ==> t.nreported <= t.nexpected || t.nexpected == 0
    ensures var o := Check(cfg, me, d, k, t);
            && (exists t' :: o.d == d.(ops := d.ops[k := t']) && !t'.aborting
                             && TrackOk(cfg, calls, me, d.epoch, k, t'))
            && (forall m :: m in o.out ==> MsgOk(cfg, calls, m))
            && (forall r :: r in o.rel ==> RelOk(cfg, calls, r))
  {
    var t' := if t.converged || t.nreported < t.nexpected then t else t.(converged := true);
    assert TrackOk(cfg, calls, me, d.epoch, k, t') by { SameAccount(cfg, me, d.epoch, k, t, t'); }
    assert Check(cfg, me, d, k, t).d == d.(ops := d.ops[k := t']);
    if !t.converged && t.nreported >= t.nexpected {
      if me == 0 { AnswerOk(cfg, calls, d.epoch, k, t); }
      else { RollUpOk(cfg, calls, me, d.epoch, k, t); }
    }
  }

  /** After a restart a tracker counts from nothing under the new tree. */
  lemma ResetKeeps(cfg: Config, calls: Calls, me: nat, e: nat, k: Key, t: Tracker)
    requires cfg.Valid() && !Settled(me, t)
    requires MineOk(cfg, calls, me, k, t)
    ensures TrackOk(cfg, calls, me, e, k, Reset(cfg, me, e, k.sig, t))
  {
    var t' := Reset(cfg, me, e, k.sig, t);
    assert t'.slots == {};
  }
}
