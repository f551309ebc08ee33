/** The other half of completeness: wherever a relay can outlive the last
    participant below it while others go on, some run releases a fence without
    one of them. */
module FenceEmptied {
  import opened Fence
  import opened FenceContent
  import opened FenceSystem
  import opened FenceRelays
  import opened FenceRuns
  import opened FenceProgress

  ghost predicate AllFresh(cfg: Config, s: State, who: set<nat>, e: nat, k: Round) {
    forall y :: y in who ==> Fresh(cfg, s, y, e, k)
  }

  lemma FreshMoves(cfg: Config, s: State, s': State, moved: set<nat>, who: set<nat>, e: nat, k: Round)
    requires cfg.Valid() && AllFresh(cfg, s, who, e, k) && Moves(cfg, s, s', moved, k) && who !! moved
    ensures AllFresh(cfg, s', who, e, k) && AllReady(cfg, s', who, e, k)
  {
    forall y | y in who ensures Fresh(cfg, s', y, e, k) {
      assert Fresh(cfg, s, y, e, k) && s'.ds[y] == s.ds[y];
    }
  }

  /** Everybody outside `y`'s subtree has counted nothing yet; `y` has answered. */
  ghost predicate Climbing(cfg: Config, s: State, y: nat, f: nat, k: Round, short: bool)
    requires cfg.Valid()
  {
    && Reachable(cfg, s) && y in cfg.tree(f).parent && Sent(cfg, s.net, y, f, k, short)
    && (short || Due(cfg, f, y, k.key.sig) == {})
    && AllFresh(cfg, s, cfg.tree(f).living - cfg.tree(f).Sub(y), f, k)
    && AllCalm(s, cfg.tree(f).Sub(y), f, k)
  }

  lemma ClimbStart(cfg: Config, s: State, y: nat, f: nat, k: Round, short: bool) returns (b: nat, s': State)
    requires cfg.Valid() && Climbing(cfg, s, y, f, k, short)
    ensures b == cfg.tree(f).parent[y] && b in cfg.tree(f).living && y in cfg.tree(f).Children(b)
    ensures Moves(cfg, s, s', {b}, k) && At(cfg, s', b, f, k, {}, false, false)
    ensures Sent(cfg, s'.net, y, f, k, short) && s'.log == s.log
    ensures AllCalm(s', cfg.tree(f).Sub(b), f, k)
    ensures forall c :: c in cfg.tree(f).Children(b) && c != y ==> AllReady(cfg, s', cfg.tree(f).Sub(c), f, k)
  {
    b := cfg.tree(f).parent[y];
    SubChild(cfg, f, b, y);
    s' := Raise(cfg, s, b, f, k);
    var m :| m in s.net && Part(m, y, cfg.tree(f).parent[y], f, k) && m.short == short;
    assert m in s'.net;
    forall c | c in cfg.tree(f).Children(b) && c != y ensures AllReady(cfg, s', cfg.tree(f).Sub(c), f, k) {
      SubSiblings(cfg, f, b, c, y);
      SubChild(cfg, f, b, c);
      FreshMoves(cfg, s, s', {b}, cfg.tree(f).Sub(c), f, k);
    }
    ClimbCalm(cfg, s, s', y, b, f, k);
  }

  lemma ClimbCalm(cfg: Config, s: State, s': State, y: nat, b: nat, f: nat, k: Round)
    requires cfg.Valid() && y in cfg.tree(f).Children(b)
    requires AllFresh(cfg, s, cfg.tree(f).living - cfg.tree(f).Sub(y), f, k) && AllCalm(s, cfg.tree(f).Sub(y), f, k)
    requires Moves(cfg, s, s', {b}, k) && Calm(s', b, f, k)
    ensures AllCalm(s', cfg.tree(f).Sub(b), f, k)
  {
    var sub := cfg.tree(f).Sub(b);
    forall x | x in sub ensures Calm(s, x, f, k) {
      if x !in cfg.tree(f).Sub(y) { assert Fresh(cfg, s, x, f, k); }
    }
    CalmMoves(cfg, s, s', {b}, sub, f, k);
  }

  /** A relay that awaits nobody answers with nothing: at its restart if it holds
      a tracker, and otherwise when the empty answer from below opens one. */
  lemma ClimbEmpty(cfg: Config, s: State, b: nat, y: nat, f: nat, k: Round, short: bool)
    returns (s': State, short': bool)
    requires cfg.Valid() && Reachable(cfg, s) && At(cfg, s, b, f, k, {}, false, false) && y in cfg.tree(f).Children(b)
    requires Sent(cfg, s.net, y, f, k, short) && cfg.NumExpected(f, b, k.key.sig) == 0 && b != 0
    requires AllCalm(s, cfg.tree(f).Sub(b), f, k)
    ensures Moves(cfg, s, s', cfg.tree(f).Sub(b), k) && Sent(cfg, s'.net, b, f, k, short')
    ensures AllCalm(s', cfg.tree(f).Sub(b), f, k)
  {
    SubChild(cfg, f, b, y);
    if k.key in s.ds[b].ops {
      s' := Rechecked(cfg, s, b, f, k);
      short' := false;
    } else {
      s' := Hears(cfg, s, b, f, k, y, short, {}, false, false);
      short' := short;
    }
    CalmMoves(cfg, s, s', {b}, cfg.tree(f).Sub(b), f, k);
    MovesWider(cfg, s, s', {b}, cfg.tree(f).Sub(b), k);
  }

  lemma MovesWider(cfg: Config, s: State, s': State, who: set<nat>, all: set<nat>, k: Round)
    requires cfg.Valid() && Moves(cfg, s, s', who, k) && who <= all
    ensures Moves(cfg, s, s', all, k)
  {
  }

  /** A relay's own tracker, tested at the restart: nobody is awaited, so it is answered. */
  lemma Rechecked(cfg: Config, s: State, b: nat, f: nat, k: Round) returns (s': State)
    requires cfg.Valid() && Reachable(cfg, s) && At(cfg, s, b, f, k, {}, false, false)
    requires k.key in s.ds[b].ops && cfg.NumExpected(f, b, k.key.sig) == 0 && b != 0
    ensures s.ds[b].ops[k.key].mine.None?
    ensures Moves(cfg, s, s', {b}, k) && Sent(cfg, s'.net, b, f, k, false) && Calm(s', b, f, k)
  {
    NoneOfOurs(cfg, s, b, k.key);
    var t := s.ds[b].ops[k.key];
    var o := Check(cfg, b, s.ds[b], k.key, t);
    TallyCheck(cfg, b, s.ds[b], f, k, t);
    CheckMine(cfg, b, s.ds[b], k.key, t);
    Retests(cfg, s, b, k.key, o);
    s' := Put(s, b, o);
    PutMoves(cfg, s, b, o, k);
    var m :| o.out == {m} && Part(m, b, cfg.tree(f).parent[b], f, k) && m.short == false;
    assert m in s'.net;
  }

  lemma NoneOfOurs(cfg: Config, s: State, b: nat, k: Key)
    requires cfg.Valid() && Reachable(cfg, s) && b in s.ds && k in s.ds[b].ops && b !in cfg.dmns(k.sig)
    ensures s.ds[b].ops[k].mine.None?
  {
    ReachableKeeps(cfg, s);
    assert OpsOk(cfg, s.calls, b, s.ds[b]);
    assert KeyOk(cfg, s.calls, b, s.ds[b].epoch, k, s.ds[b].ops[k]);
  }

  /** What is left to count at `b` besides `y`: everything awaited, or, when `y`
      was not, all of it but one. */
  ghost predicate Enough(cfg: Config, b: nat, y: nat, f: nat, k: Round, self: bool, todo: set<nat>)
    requires cfg.Valid()
  {
    && todo <= cfg.Expected(f, b, k.key.sig) && y !in todo && (self ==> b in cfg.dmns(k.key.sig))
    && cfg.NumExpected(f, b, k.key.sig) == 1 + |todo| + (if self then 1 else 0)
  }

  lemma Leftover(cfg: Config, b: nat, y: nat, f: nat, k: Round) returns (self: bool, todo: set<nat>)
    requires cfg.Valid() && cfg.NumExpected(f, b, k.key.sig) > 0
    ensures Enough(cfg, b, y, f, k, self, todo)
  {
    var ex := cfg.Expected(f, b, k.key.sig);
    if y in ex {
      self, todo := b in cfg.dmns(k.key.sig), ex - {y};
    } else if b in cfg.dmns(k.key.sig) {
      self, todo := false, ex;
    } else {
      assert ex != {};
      var u :| u in ex;
      self, todo := false, ex - {u};
    }
  }

  /** Counting `y` and the rest fills the count, with a branch missing from it. */
  lemma ClimbFull(cfg: Config, s: State, b: nat, y: nat, f: nat, k: Round, short: bool) returns (s': State)
    requires cfg.Valid() && Reachable(cfg, s) && At(cfg, s, b, f, k, {}, false, false) && y in cfg.tree(f).Children(b)
    requires Sent(cfg, s.net, y, f, k, short) && cfg.NumExpected(f, b, k.key.sig) > 0
    requires short || y !in cfg.Expected(f, b, k.key.sig)
    requires AllCalm(s, cfg.tree(f).Sub(b), f, k)
    requires forall c :: c in cfg.tree(f).Children(b) && c != y ==> AllReady(cfg, s, cfg.tree(f).Sub(c), f, k)
    ensures Moves(cfg, s, s', cfg.tree(f).Sub(b), k) && Answered(cfg, s', b, f, k, true)
    ensures AllCalm(s', cfg.tree(f).Sub(b), f, k)
  {
    var self, todo := Leftover(cfg, b, y, f, k);
    var s2 := ClimbHears(cfg, s, b, y, f, k, short, self, todo);
    ClimbPending(cfg, s, s2, b, y, f, k, self, todo);
    s' := Collect(cfg, s2, b, f, k, {y}, self, todo, true);
    ClimbFrame(cfg, s, s2, s', b, y, f, k);
    FullNow(cfg, b, y, f, k, self, todo);
  }

  lemma ClimbFrame(cfg: Config, s: State, s1: State, s2: State, b: nat, y: nat, f: nat, k: Round)
    requires cfg.Valid() && y in cfg.tree(f).Children(b)
    requires Moves(cfg, s, s1, {b}, k) && Moves(cfg, s1, s2, cfg.tree(f).Sub(b), k)
    ensures Moves(cfg, s, s2, cfg.tree(f).Sub(b), k)
  {
    SubChild(cfg, f, b, y);
    MovesThen(cfg, s, s1, s2, {b}, cfg.tree(f).Sub(b), cfg.tree(f).Sub(b), k);
  }

  /** Our own contribution, if it is to count, and then `y`'s answer. */
  lemma ClimbHears(cfg: Config, s: State, b: nat, y: nat, f: nat, k: Round, short: bool, self: bool, todo: set<nat>)
    returns (s': State)
    requires cfg.Valid() && Reachable(cfg, s) && At(cfg, s, b, f, k, {}, false, false) && y in cfg.tree(f).Children(b)
    requires Sent(cfg, s.net, y, f, k, short) && Enough(cfg, b, y, f, k, self, todo)
    requires short || y !in cfg.Expected(f, b, k.key.sig)
    requires AllCalm(s, cfg.tree(f).Sub(b), f, k)
    ensures Poised(cfg, s', b, f, k, {y}, self, true) && Moves(cfg, s, s', {b}, k)
  {
    s' := ClimbCounts(cfg, s, b, y, f, k, short, self, todo);
    CalmMoves(cfg, s, s', {b}, cfg.tree(f).Sub(b), f, k);
    StaysReachable(cfg, s, s', {b}, k);
  }

  lemma ClimbCounts(cfg: Config, s: State, b: nat, y: nat, f: nat, k: Round, short: bool, self: bool, todo: set<nat>)
    returns (s': State)
    requires cfg.Valid() && Reachable(cfg, s) && At(cfg, s, b, f, k, {}, false, false) && y in cfg.tree(f).Children(b)
    requires Sent(cfg, s.net, y, f, k, short) && Enough(cfg, b, y, f, k, self, todo)
    requires short || y !in cfg.Expected(f, b, k.key.sig)
    ensures Moves(cfg, s, s', {b}, k) && At(cfg, s', b, f, k, {y}, self, true)
    ensures Awaits(cfg, b, f, k, {y}, self) <= 0 ==> Answered(cfg, s', b, f, k, true)
  {
    var s1 := ClimbSelf(cfg, s, b, f, k, self);
    SentMore(cfg, s, s1, {b}, y, f, k, short);
    s' := Hears(cfg, s1, b, f, k, y, short, {}, self, false);
    assert {} + {y} == {y};
    MovesThen(cfg, s, s1, s', {b}, {b}, {b}, k);
  }

  lemma ClimbSelf(cfg: Config, s: State, b: nat, f: nat, k: Round, self: bool) returns (s': State)
    requires cfg.Valid() && Reachable(cfg, s) && At(cfg, s, b, f, k, {}, false, false)
    requires self ==> b in cfg.dmns(k.key.sig)
    ensures Moves(cfg, s, s', {b}, k) && At(cfg, s', b, f, k, {}, self, false)
  {
    if self {
      s' := TakesPart(cfg, s, b, f, k, {});
    } else {
      s' := s;
      MovesSelf(cfg, s, {b}, k);
    }
  }

  lemma FullNow(cfg: Config, b: nat, y: nat, f: nat, k: Round, self: bool, todo: set<nat>)
    requires cfg.Valid() && Enough(cfg, b, y, f, k, self, todo)
    ensures Awaits(cfg, b, f, k, {y} + todo, self) == 0
  {
  }

  lemma SentMore(cfg: Config, s: State, s': State, who: set<nat>, y: nat, f: nat, k: Round, short: bool)
    requires cfg.Valid() && Sent(cfg, s.net, y, f, k, short) && Moves(cfg, s, s', who, k)
    ensures Sent(cfg, s'.net, y, f, k, short)
  {
    var m :| m in s.net && Part(m, y, cfg.tree(f).parent[y], f, k) && m.short == short;
    assert m in s'.net;
  }

  lemma ClimbPending(cfg: Config, s: State, s': State, b: nat, y: nat, f: nat, k: Round, self: bool, todo: set<nat>)
    requires cfg.Valid() && Enough(cfg, b, y, f, k, self, todo) && Moves(cfg, s, s', {b}, k)
    requires forall c :: c in cfg.tree(f).Children(b) && c != y ==> AllReady(cfg, s, cfg.tree(f).Sub(c), f, k)
    ensures Pending(cfg, s', b, f, k, {y}, self, todo)
  {
    forall c | c in todo ensures AllReady(cfg, s', cfg.tree(f).Sub(c), f, k) {
      SubChild(cfg, f, b, c);
      ReadyMoves(cfg, s, s', {b}, cfg.tree(f).Sub(c), f, k);
    }
  }

  /** One level up: `y`'s parent answers too, short unless nobody is below it. */
  lemma ClimbOne(cfg: Config, s: State, y: nat, f: nat, k: Round, short: bool) returns (b: nat, s': State, short': bool)
    requires cfg.Valid() && Climbing(cfg, s, y, f, k, short) && cfg.Part(f, k.key.sig) != {}
    ensures b == cfg.tree(f).parent[y] && Reachable(cfg, s') && Moves(cfg, s, s', cfg.tree(f).Sub(b), k)
    ensures Answered(cfg, s', b, f, k, short') && AllCalm(s', cfg.tree(f).Sub(b), f, k)
    ensures (short' || Due(cfg, f, b, k.key.sig) == {}) && (b == 0 ==> short')
  {
    var s1;
    b, s1 := ClimbStart(cfg, s, y, f, k, short);
    StaysReachable(cfg, s, s1, {b}, k);
    SubChild(cfg, f, b, y);
    if cfg.NumExpected(f, b, k.key.sig) == 0 {
      NothingDue(cfg, b, f, k.key.sig);
      NotTheRoot(cfg, b, f, k.key.sig);
      s', short' := ClimbEmpty(cfg, s1, b, y, f, k, short);
    } else {
      DueOfSlot(cfg, b, f, k.key.sig, y);
      s' := ClimbFull(cfg, s1, b, y, f, k, short);
      short' := true;
    }
    ClimbFrame(cfg, s, s1, s', b, y, f, k);
    StaysReachable(cfg, s, s', cfg.tree(f).Sub(b), k);
  }

  lemma NotTheRoot(cfg: Config, b: nat, f: nat, sig: Sig)
    requires cfg.Valid() && Due(cfg, f, b, sig) == {} && cfg.Part(f, sig) != {}
    ensures b != 0
  {
    cfg.tree(f).SubRoot();
  }

  /** ... and so on to the master. */
  lemma {:induction false} Climb(cfg: Config, s: State, y: nat, f: nat, k: Round, short: bool) returns (s': State)
    requires cfg.Valid() && Climbing(cfg, s, y, f, k, short) && cfg.Part(f, k.key.sig) != {}
    ensures Reachable(cfg, s') && Answered(cfg, s', 0, f, k, true)
    decreases cfg.tree(f).depth[y]
  {
    var b, s1, short1 := ClimbOne(cfg, s, y, f, k, short);
    if b == 0 {
      s' := s1;
    } else {
      ClimbNext(cfg, s, s1, y, b, f, k);
      s' := Climb(cfg, s1, b, f, k, short1);
    }
  }

  lemma ClimbNext(cfg: Config, s: State, s': State, y: nat, b: nat, f: nat, k: Round)
    requires cfg.Valid() && y in cfg.tree(f).Children(b) && Moves(cfg, s, s', cfg.tree(f).Sub(b), k)
    requires AllFresh(cfg, s, cfg.tree(f).living - cfg.tree(f).Sub(y), f, k)
    ensures AllFresh(cfg, s', cfg.tree(f).living - cfg.tree(f).Sub(b), f, k)
  {
    SubChild(cfg, f, b, y);
    var who := cfg.tree(f).living - cfg.tree(f).Sub(b);
    assert AllFresh(cfg, s, who, f, k);
    FreshMoves(cfg, s, s', cfg.tree(f).Sub(b), who, f, k);
  }

  // ---- the relay that outlives its participants ----

  /** While it has a participant below it, daemon `d` can come to relay. */
  lemma ComesToRelay(cfg: Config, d: nat, e: nat, k: Round) returns (s: State)
    requires cfg.Valid() && k.key.gen == 0 && k.op != Unknown
    requires d != 0 && Due(cfg, e, d, k.key.sig) != {} && d !in cfg.dmns(k.key.sig)
    ensures Reachable(cfg, s) && AllCalm(s, cfg.ranks, e, k)
    ensures d in s.ds && k.key in s.ds[d].ops && 0 in s.ds && k.key !in s.ds[0].ops
  {
    var x :| x in Due(cfg, e, d, k.key.sig);
    var c := DueSplit(cfg, d, e, k.key.sig, x);
    var s1 := BranchRolls(cfg, d, c, e, k);
    s := RelayHears(cfg, s1, d, c, e, k);
  }

  lemma StartReady(cfg: Config, e: nat, k: Round)
    requires cfg.Valid() && k.key.gen == 0 && k.op != Unknown
    ensures AllFresh(cfg, Init(cfg), cfg.tree(e).living, e, k) && AllCalm(Init(cfg), cfg.ranks, e, k)
    ensures Reachable(cfg, Init(cfg))
  {
    LeadsSelf(cfg, Init(cfg));
    forall y | y in cfg.tree(e).living ensures Fresh(cfg, Init(cfg), y, e, k) {
      assert cfg.tree(e).Valid() && PlacedAt(cfg, y, e);
    }
  }

  /** One branch below `d` has rolled up and nobody else has moved. */
  lemma BranchRolls(cfg: Config, d: nat, c: nat, e: nat, k: Round) returns (s: State)
    requires cfg.Valid() && k.key.gen == 0 && k.op != Unknown
    requires c in cfg.tree(e).Children(d) && Due(cfg, e, c, k.key.sig) != {}
    ensures Reachable(cfg, s) && Sent(cfg, s.net, c, e, k, false) && AllCalm(s, cfg.ranks, e, k)
    ensures Fresh(cfg, s, d, e, k) && 0 in s.ds && k.key !in s.ds[0].ops
  {
    var s0, sub := Init(cfg), cfg.tree(e).Sub(c);
    SubChild(cfg, e, d, c);
    StartReady(cfg, e, k);
    assert AllReady(cfg, s0, sub, e, k);
    s := RollsUp(cfg, s0, c, e, k);
    StaysReachable(cfg, s0, s, sub, k);
    CalmMoves(cfg, s0, s, sub, cfg.ranks, e, k);
    FreshMoves(cfg, s0, s, sub, {d}, e, k);
    assert d in {d};
    RootElsewhere(cfg, e, c);
  }

  lemma RootElsewhere(cfg: Config, e: nat, c: nat)
    requires cfg.Valid() && c in cfg.tree(e).parent
    ensures 0 !in cfg.tree(e).Sub(c) && 0 in cfg.ranks
  {
    assert cfg.tree(e).Valid() && cfg.tree(0).Valid();
  }

  lemma RelayHears(cfg: Config, s: State, d: nat, c: nat, e: nat, k: Round) returns (s': State)
    requires cfg.Valid() && Reachable(cfg, s) && c in cfg.tree(e).Children(d)
    requires Fresh(cfg, s, d, e, k) && AllCalm(s, cfg.ranks, e, k) && Sent(cfg, s.net, c, e, k, false)
    ensures Reachable(cfg, s') && Moves(cfg, s, s', {d}, k) && AllCalm(s', cfg.ranks, e, k)
    ensures d in s'.ds && k.key in s'.ds[d].ops
  {
    s' := RaisedHears(cfg, s, d, c, e, k);
    StaysReachable(cfg, s, s', {d}, k);
    CalmMoves(cfg, s, s', {d}, cfg.ranks, e, k);
  }

  lemma RaisedHears(cfg: Config, s: State, d: nat, c: nat, e: nat, k: Round) returns (s': State)
    requires cfg.Valid() && Fresh(cfg, s, d, e, k) && c in cfg.tree(e).Children(d) && Sent(cfg, s.net, c, e, k, false)
    ensures Moves(cfg, s, s', {d}, k) && Calm(s', d, e, k) && k.key in s'.ds[d].ops
  {
    var s1 := Raise(cfg, s, d, e, k);
    SentMore(cfg, s, s1, {d}, c, e, k, false);
    s' := Hears(cfg, s1, d, e, k, c, false, {}, false, false);
    assert c in {} + {c};
    MovesThen(cfg, s, s1, s', {d}, {d}, {d}, k);
  }

  /** Its last participant gone, it answers its restart with nothing. */
  lemma AnswersEmpty(cfg: Config, s: State, d: nat, e: nat, f: nat, k: Round) returns (s': State)
    requires cfg.Valid() && Reachable(cfg, s) && AllCalm(s, cfg.ranks, e, k) && e < f
    requires d != 0 && d in s.ds && k.key in s.ds[d].ops && 0 in s.ds && k.key !in s.ds[0].ops
    requires d in cfg.tree(f).living && Due(cfg, f, d, k.key.sig) == {}
    ensures Climbing(cfg, s', d, f, k, false)
  {
    LaterReady(cfg, s, e, f, k);
    NothingExpected(cfg, d, f, k.key.sig);
    var s1 := Raise(cfg, s, d, f, k);
    StaysReachable(cfg, s, s1, {d}, k);
    s' := Rechecked(cfg, s1, d, f, k);
    MovesThen(cfg, s, s1, s', {d}, {d}, {d}, k);
    StaysReachable(cfg, s, s', {d}, k);
    OthersReady(cfg, s, s', d, f, k);
  }

  lemma OthersReady(cfg: Config, s: State, s': State, d: nat, f: nat, k: Round)
    requires cfg.Valid() && AllFresh(cfg, s, cfg.tree(f).living, f, k) && d in cfg.tree(f).living
    requires Moves(cfg, s, s', {d}, k) && Calm(s', d, f, k)
    ensures AllFresh(cfg, s', cfg.tree(f).living - cfg.tree(f).Sub(d), f, k) && AllCalm(s', cfg.tree(f).Sub(d), f, k)
  {
    var sub := cfg.tree(f).Sub(d);
    assert d in sub;
    FreshMoves(cfg, s, s', {d}, cfg.tree(f).living - sub, f, k);
    assert AllReady(cfg, s, sub, f, k) by { assert AllFresh(cfg, s, sub, f, k); }
    ReadyCalm(cfg, s, sub, f, k);
    CalmMoves(cfg, s, s', {d}, sub, f, k);
  }

  lemma LaterReady(cfg: Config, s: State, e: nat, f: nat, k: Round)
    requires cfg.Valid() && AllCalm(s, cfg.ranks, e, k) && e < f && 0 in s.ds && k.key !in s.ds[0].ops
    ensures AllFresh(cfg, s, cfg.tree(f).living, f, k)
  {
    forall y | y in cfg.tree(f).living ensures Fresh(cfg, s, y, f, k) {
      assert cfg.tree(f).Valid() && Calm(s, y, e, k);
    }
  }

  lemma NothingExpected(cfg: Config, d: nat, f: nat, sig: Sig)
    requires cfg.Valid() && d in cfg.tree(f).living && Due(cfg, f, d, sig) == {}
    ensures cfg.NumExpected(f, d, sig) == 0 && d !in cfg.dmns(sig)
  {
    forall c | c in cfg.tree(f).Children(d) ensures c !in cfg.Expected(f, d, sig) { DueOfSlot(cfg, d, f, sig, c); }
    assert cfg.Expected(f, d, sig) == {};
    assert cfg.tree(f).Below(d, d);
  }

  /** So some run releases the fence without a living participant. */
  lemma EmptiedRelayFails(cfg: Config, d: nat, e: nat, f: nat, sig: Sig) returns (s: State, r: Release)
    requires cfg.Valid() && e < f && d != 0 && Relays(cfg, e, d, sig) && d in cfg.tree(f).living
    requires cfg.Part(f, sig) != {} && !Relays(cfg, f, d, sig)
    ensures Reachable(cfg, s) && r in s.log && r.status == Success && r.key.sig == sig && r.epoch == f
    ensures r.arrived < cfg.Part(f, sig)
  {
    var k := Round(Key(sig, 0), Barrier, x => []);
    NothingExpected(cfg, d, f, sig);
    var s1 := ComesToRelay(cfg, d, e, k);
    var s2 := AnswersEmpty(cfg, s1, d, e, f, k);
    s := Climb(cfg, s2, d, f, k, false);
    r :| r in s.log && Ends(r, f, k, true);
    ReleaseExact(cfg, s, r);
  }

  // ---- exactly when every success is complete ----

  ghost predicate AlwaysComplete(cfg: Config, sig: Sig)
    requires cfg.Valid()
  {
    forall s, r :: Reachable(cfg, s) && r in s.log && r.status == Success && r.key.sig == sig
      ==> r.arrived == cfg.Part(r.epoch, sig)
  }

  /** As long as daemons only fail: every successful release of every run holds
      every living participant if and only if no relay outlives the last
      participant below it while participants remain elsewhere. */
  lemma CompleteIffRelaysKept(cfg: Config, sig: Sig)
    requires cfg.Valid() && Shrinks(cfg)
    ensures AlwaysComplete(cfg, sig) <==> KeepsRelays(cfg, sig)
  {
    if KeepsRelays(cfg, sig) {
      forall s, r | Reachable(cfg, s) && r in s.log && r.status == Success && r.key.sig == sig
        ensures r.arrived == cfg.Part(r.epoch, sig)
      {
        ReleaseComplete(cfg, s, r);
      }
    } else {
      var d: nat, e: nat, f: nat :| e < f && d != 0 && Relays(cfg, e, d, sig) && d in cfg.tree(f).living
                                    && cfg.Part(f, sig) != {} && !Relays(cfg, f, d, sig);
      var s, r := EmptiedRelayFails(cfg, d, e, f, sig);
    }
  }
}
