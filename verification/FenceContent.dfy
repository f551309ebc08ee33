/** What a contribution, a tracker and a release stand for, and the local
    argument that a counted rollup stands for exactly the calls below it. */
module FenceContent {
  import opened Fence

  /** What a client passed to the fence, and how its own part in it had gone. */
  datatype Call = Call(op: Op, data: Blob, status: Status)

  /** Every call made so far, by daemon and round. */
  type Calls = map<(nat, Key), Call>

  function Owners(items: seq<Item>): set<nat> {
    set i | 0 <= i < |items| :: items[i].owner
  }

  /** `items` are blocks of the calls of `who` in round `k`: no two from one
      daemon, each with that daemon's own data. */
  ghost predicate FromCalls(calls: Calls, k: Key, items: seq<Item>, who: set<nat>) {
    && (forall i, j :: 0 <= i < j < |items| ==> items[i].owner != items[j].owner)
    && (forall i :: 0 <= i < |items| ==>
          items[i].owner in who
          && (items[i].owner, k) in calls && items[i].data == calls[(items[i].owner, k)].data)
  }

  /** ... and every daemon of `who` has one: its data is there exactly once. */
  ghost predicate ExactlyOnce(calls: Calls, k: Key, items: seq<Item>, who: set<nat>) {
    FromCalls(calls, k, items, who) && Owners(items) == who
  }

  /** The rollup of the calls of `who`: each of them made, no block from another
      round; and, unless an error says otherwise, all naming the one operation and
      all with a good status, with an allgather's data exactly once. */
  ghost predicate Gathered(calls: Calls, k: Key, op: Op, status: Status, items: seq<Item>, who: set<nat>) {
    && (forall x :: x in who ==> (x, k) in calls)
    && FromCalls(calls, k, items, who)
    && (op == Barrier ==> items == [])
    && (status == Success ==>
          && (forall x :: x in who ==> (x, k) in calls && calls[(x, k)].op == op && calls[(x, k)].status == Success)
          && (op == Allgather ==> Owners(items) == who))
  }

  /** A daemon's saved contribution is the call it made, under the tracker's operation. */
  ghost predicate OfferOk(calls: Calls, me: nat, k: Key, op: Op, status: Status, payload: seq<Item>) {
    && (me, k) in calls && status == calls[(me, k)].status
    && op != Unknown
    && payload == if op == Allgather then [Item(me, calls[(me, k)].data)] else []
  }

  /** The living participants below `d`: what its rollup is to stand for. */
  function Due(cfg: Config, e: nat, d: nat, sig: Sig): set<nat>
    requires cfg.Valid()
  {
    cfg.tree(e).Sub(d) * cfg.dmns(sig)
  }

  ghost predicate MsgOk(cfg: Config, calls: Calls, m: Msg)
    requires cfg.Valid()
  {
    && m.op != Unknown
    && m.src in cfg.tree(m.epoch).living
    && if m.src == m.dst then
         && m.arrived == {m.src} && !m.short
         && m.src in cfg.dmns(m.key.sig)
         && OfferOk(calls, m.src, m.key, m.op, m.status, m.payload)
       else
         && m.src != 0 && m.dst == cfg.tree(m.epoch).parent[m.src]
         && m.arrived <= Due(cfg, m.epoch, m.src, m.key.sig)
         && Gathered(calls, m.key, m.op, m.status, m.payload, m.arrived)
         && (m.short <==> m.arrived != Due(cfg, m.epoch, m.src, m.key.sig))
  }

  ghost predicate MineOk(cfg: Config, calls: Calls, me: nat, k: Key, t: Tracker) {
    && t.op != Unknown
    && (t.mine.Some? ==>
          && me in cfg.dmns(k.sig)
          && t.mine.value.op == t.op
          && OfferOk(calls, me, k, t.op, t.mine.value.status, t.mine.value.payload)
          && (t.status == Success ==> calls[(me, k)].op == t.op))
  }

  /** `x` was due from the counted slot `c` and its call is not in the count. */
  ghost predicate Missed(cfg: Config, e: nat, sig: Sig, t: Tracker, c: nat, x: nat)
    requires cfg.Valid()
  {
    c in t.slots && x in Due(cfg, e, c, sig) && x !in t.arrived
  }

  /** A slot nothing was awaited from. */
  ghost predicate Uninvited(cfg: Config, me: nat, e: nat, sig: Sig, t: Tracker, c: nat)
    requires cfg.Valid()
  {
    c in t.slots && c !in cfg.Expected(e, me, sig)
  }

  ghost predicate Accounted(cfg: Config, me: nat, e: nat, k: Key, t: Tracker)
    requires cfg.Valid()
  {
    && t.slots <= cfg.tree(e).Children(me)
    && (t.self ==> me in cfg.dmns(k.sig) && me in t.arrived)
    && t.nreported == |t.slots| + (if t.self then 1 else 0)
    && t.nexpected == cfg.NumExpected(e, me, k.sig)
    && (forall x :: x in t.arrived ==>
          x in cfg.dmns(k.sig) && x in cfg.tree(e).living
          && ((x == me && t.self) || exists c :: c in t.slots && cfg.tree(e).Below(x, c)))
    && (!t.short ==>
          && (t.nexpected > 0 ==> t.slots <= cfg.Expected(e, me, k.sig))
          && forall c, x :: !Missed(cfg, e, k.sig, t, c, x))
    && (t.short ==>
          || (t.nexpected > 0 && exists c :: Uninvited(cfg, me, e, k.sig, t, c))
          || (exists c, x :: Missed(cfg, e, k.sig, t, c, x)))
  }

  /** Everything a live tracker holds, before it is tested for completion. */
  ghost predicate Counting(cfg: Config, calls: Calls, me: nat, e: nat, k: Key, t: Tracker)
    requires cfg.Valid()
  {
    && MineOk(cfg, calls, me, k, t)
    && Accounted(cfg, me, e, k, t)
    && Gathered(calls, k, t.op, t.status, t.bucket, t.arrived)
  }

  /** ... and an unanswered one is still waiting, unless it awaits nothing. */
  ghost predicate TrackOk(cfg: Config, calls: Calls, me: nat, e: nat, k: Key, t: Tracker)
    requires cfg.Valid()
  {
    && Counting(cfg, calls, me, e, k, t)
    && (!t.converged ==> t.nreported < t.nexpected || t.nreported == 0)
  }

  /** A release that is no abort stands for living participants only, at most
      once each, and for all of them unless it is short; an abort is a failure. */
  ghost predicate RelOk(cfg: Config, calls: Calls, r: Release) {
    if r.aborted then r.status != Success
    else
      && r.arrived <= cfg.Part(r.epoch, r.key.sig)
      && r.op != Unknown
      && Gathered(calls, r.key, r.op, r.status, r.data, r.arrived)
      && (r.short <==> r.arrived != cfg.Part(r.epoch, r.key.sig))
  }

  // ---- the local argument ----

  lemma DueOfSlot(cfg: Config, me: nat, e: nat, sig: Sig, c: nat)
    requires cfg.Valid() && c in cfg.tree(e).Children(me)
    ensures Due(cfg, e, c, sig) <= Due(cfg, e, me, sig) - {me}
    ensures c in cfg.Expected(e, me, sig) <==> Due(cfg, e, c, sig) != {}
  {
    var t := cfg.tree(e);
    forall x | x in Due(cfg, e, c, sig) ensures x in Due(cfg, e, me, sig) - {me} {
      t.ChildBelow(me, c, x);
    }
  }

  lemma ArrivedIsDue(cfg: Config, me: nat, e: nat, k: Key, t: Tracker)
    requires cfg.Valid() && Accounted(cfg, me, e, k, t) && me in cfg.tree(e).living
    ensures t.arrived <= Due(cfg, e, me, k.sig)
    ensures me in t.arrived ==> t.self
  {
    forall x | x in t.arrived ensures x in Due(cfg, e, me, k.sig) && (x == me ==> t.self) {
      if !(x == me && t.self) {
        var c :| c in t.slots && cfg.tree(e).Below(x, c);
        DueOfSlot(cfg, me, e, k.sig, c);
        assert x in Due(cfg, e, c, k.sig);
      }
    }
  }

  lemma CardLess<T>(a: set<T>, b: set<T>)
    requires a <= b
    ensures |a| <= |b|
    ensures |a| == |b| ==> a == b
  {
    if a != b {
      assert |b - a| > 0;
      assert b == a + (b - a);
    }
  }

  /** A full count with no uninvited slot has every awaited branch in. */
  lemma CountFull(cfg: Config, me: nat, e: nat, k: Key, t: Tracker)
    requires cfg.Valid() && Accounted(cfg, me, e, k, t)
    requires t.slots <= cfg.Expected(e, me, k.sig)
    requires t.nreported == t.nexpected
    ensures t.slots == cfg.Expected(e, me, k.sig)
    ensures me in cfg.dmns(k.sig) ==> t.self
  {
    CardLess(t.slots, cfg.Expected(e, me, k.sig));
  }

  /** A full count with an uninvited slot leaves an awaited branch out. */
  lemma CountShort(cfg: Config, me: nat, e: nat, k: Key, t: Tracker, c: nat)
    requires cfg.Valid() && Accounted(cfg, me, e, k, t)
    requires Uninvited(cfg, me, e, k.sig, t, c)
    requires t.nreported == t.nexpected
    ensures (me in cfg.dmns(k.sig) && !t.self) || cfg.Expected(e, me, k.sig) - t.slots != {}
  {
    var ex := cfg.Expected(e, me, k.sig);
    if ex <= t.slots {
      CardLess(ex, t.slots);
    }
  }

  /** Where the due of a node comes from: itself and its awaited slots. */
  lemma DueSplit(cfg: Config, me: nat, e: nat, sig: Sig, x: nat) returns (c: nat)
    requires cfg.Valid() && x in Due(cfg, e, me, sig) && x != me
    ensures c in cfg.Expected(e, me, sig) && x in Due(cfg, e, c, sig)
  {
    c := cfg.tree(e).SubSplit(me, x);
    assert x in Due(cfg, e, c, sig);
  }

  /** The rollup answers with everything due below it if and only if no branch
      was counted that nothing was awaited from. */
  lemma CompleteUnlessShort(cfg: Config, me: nat, e: nat, k: Key, t: Tracker)
    requires cfg.Valid() && Accounted(cfg, me, e, k, t) && me in cfg.tree(e).living
    requires t.nreported == t.nexpected || t.nexpected == 0
    ensures t.arrived <= Due(cfg, e, me, k.sig)
    ensures t.short <==> t.arrived != Due(cfg, e, me, k.sig)
  {
    ArrivedIsDue(cfg, me, e, k, t);
    if t.nexpected == 0 {
      NothingDue(cfg, me, e, k.sig);
      forall c | c in t.slots { DueOfSlot(cfg, me, e, k.sig, c); }
    } else if t.short {
      ShortIsIncomplete(cfg, me, e, k, t);
    } else {
      CountFull(cfg, me, e, k, t);
      forall x | x in Due(cfg, e, me, k.sig) ensures x in t.arrived {
        if x != me {
          var c := DueSplit(cfg, me, e, k.sig, x);
          assert !Missed(cfg, e, k.sig, t, c, x);
        }
      }
    }
  }

  lemma NothingDue(cfg: Config, me: nat, e: nat, sig: Sig)
    requires cfg.Valid() && cfg.NumExpected(e, me, sig) == 0
    ensures Due(cfg, e, me, sig) == {}
  {
    if x :| x in Due(cfg, e, me, sig) {
      var c := DueSplit(cfg, me, e, sig, x);
    }
  }

  lemma ShortIsIncomplete(cfg: Config, me: nat, e: nat, k: Key, t: Tracker)
    requires cfg.Valid() && Accounted(cfg, me, e, k, t) && me in cfg.tree(e).living
    requires t.short && t.nexpected > 0 && t.nreported == t.nexpected
    ensures t.arrived != Due(cfg, e, me, k.sig)
  {
    ArrivedIsDue(cfg, me, e, k, t);
    if c, x :| Missed(cfg, e, k.sig, t, c, x) {
      DueOfSlot(cfg, me, e, k.sig, c);
    } else {
      var c :| Uninvited(cfg, me, e, k.sig, t, c);
      CountShort(cfg, me, e, k, t, c);
      if !(me in cfg.dmns(k.sig) && !t.self) {
        var c' :| c' in cfg.Expected(e, me, k.sig) - t.slots;
        DueOfSlot(cfg, me, e, k.sig, c');
        var x :| x in Due(cfg, e, c', k.sig);
        if x in t.arrived {
          var c2 :| c2 in t.slots && cfg.tree(e).Below(x, c2);
          cfg.tree(e).SiblingsDisjoint(me, c', c2, x);
        }
      } else {
        assert me in Due(cfg, e, me, k.sig);
      }
    }
  }
}
