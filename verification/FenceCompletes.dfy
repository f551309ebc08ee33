/** From every reachable state the round open over a signature can still
    complete, unless something has already gone wrong in it; so rounds can
    follow one another without end. */
module FenceCompletes {
  import opened Fence
  import opened FenceContent
  import opened FenceSteps
  import opened FenceSystem
  import opened FenceRuns
  import opened FenceProgress

  /** The round now open over a signature. */
  function NowOpen(s: State, sig: Sig): Key { Key(sig, Count(s.log, |s.log|, sig)) }

  // ---- processing the releases that are waiting ----

  /** `d'` is `d` after some more releases: no new tracker, none changed, and
      those of `k` kept. */
  ghost predicate Trails(d: Daemon, d': Daemon, k: Key) {
    && d'.epoch == d.epoch && (forall j :: j in d'.ops ==> j in d.ops && d'.ops[j] == d.ops[j])
    && (k in d.ops ==> k in d'.ops)
  }

  /** The same state but for releases these daemons have processed. */
  ghost predicate Drained(cfg: Config, s: State, s': State, who: set<nat>, k: Key)
    requires cfg.Valid()
  {
    && Leads(cfg, s, s') && s' == s.(ds := s'.ds) && s'.ds.Keys == s.ds.Keys
    && (forall y :: y in s.ds ==> Trails(s.ds[y], s'.ds[y], k))
    && (forall y :: y in who && y in s.ds ==> s'.ds[y].seen == |s.log|)
  }

  /** One daemon processes all that waits for it. */
  lemma {:induction false} Drains(cfg: Config, s: State, b: nat, sig: Sig) returns (s': State)
    requires cfg.Valid() && Reachable(cfg, s) && b in s.ds
    ensures Drained(cfg, s, s', {b}, NowOpen(s, sig))
    ensures forall y :: y in s.ds && y != b ==> s'.ds[y] == s.ds[y]
    decreases |s.log| - s.ds[b].seen
  {
    SeenWithin(cfg, s, b);
    if s.ds[b].seen == |s.log| {
      s' := s;
      LeadsSelf(cfg, s);
    } else {
      var s1 := DrainsOne(cfg, s, b, sig);
      s' := Drains(cfg, s1, b, sig);
      LeadsThen(cfg, s, s1, s');
    }
  }

  lemma SeenWithin(cfg: Config, s: State, b: nat)
    requires cfg.Valid() && Reachable(cfg, s) && b in s.ds
    ensures s.ds[b].seen <= |s.log|
  {
    ReachableKeeps(cfg, s);
    assert InStep(s.log, s.ds[b]);
  }

  lemma DrainsOne(cfg: Config, s: State, b: nat, sig: Sig) returns (s': State)
    requires cfg.Valid() && Reachable(cfg, s) && b in s.ds && s.ds[b].seen < |s.log|
    ensures Reachable(cfg, s') && Drained(cfg, s, s', {}, NowOpen(s, sig))
    ensures s'.ds == s.ds[b := s'.ds[b]] && s'.ds[b].seen == s.ds[b].seen + 1
  {
    s' := DoRelease(s, b);
    Retires(cfg, s, b);
    LeadsThen(cfg, Init(cfg), s, s');
    NotOpen(cfg, s, s.ds[b].seen, sig);
  }

  /** A round already released is not the one now open. */
  lemma NotOpen(cfg: Config, s: State, i: nat, sig: Sig)
    requires cfg.Valid() && Reachable(cfg, s) && i < |s.log|
    ensures s.log[i].key != NowOpen(s, sig)
  {
    InLogOrder(cfg, s);
    assert OrderedAt(s.log, i);
    CountMono(s.log, i + 1, |s.log|, s.log[i].key.sig);
  }

  /** Everybody in `who` processes all that waits for them. */
  lemma {:induction false} AllDrain(cfg: Config, s: State, who: set<nat>, sig: Sig) returns (s': State)
    requires cfg.Valid() && Reachable(cfg, s) && who <= s.ds.Keys
    ensures Drained(cfg, s, s', who, NowOpen(s, sig))
    decreases |who|
  {
    if who == {} {
      s' := s;
      LeadsSelf(cfg, s);
    } else {
      var b :| b in who;
      var s1 := AllDrain(cfg, s, who - {b}, sig);
      LeadsThen(cfg, Init(cfg), s, s1);
      s' := Drains(cfg, s1, b, sig);
      DrainedThen(cfg, s, s1, s', who, b, NowOpen(s, sig));
    }
  }

  lemma DrainedThen(cfg: Config, s: State, s1: State, s2: State, who: set<nat>, b: nat, k: Key)
    requires cfg.Valid() && Drained(cfg, s, s1, who - {b}, k) && Drained(cfg, s1, s2, {b}, k)
    requires forall y :: y in s1.ds && y != b ==> s2.ds[y] == s1.ds[y]
    ensures Drained(cfg, s, s2, who, k)
  {
    LeadsThen(cfg, s, s1, s2);
    forall y | y in s.ds ensures Trails(s.ds[y], s2.ds[y], k) {
      assert Trails(s.ds[y], s1.ds[y], k) && Trails(s1.ds[y], s2.ds[y], k);
    }
  }

  // ---- nothing has gone wrong ----

  /** Not past epoch `e`, and what the daemon holds of the round, if anything, is
      of this operation, without a failure and, at `e` itself, without a branch
      counted that nothing was awaited from. */
  predicate Intact(s: State, y: nat, e: nat, k: Round) {
    y in s.ds && s.ds[y].epoch <= e
    && (k.key in s.ds[y].ops ==> IntactTracker(s.ds[y].ops[k.key], k.op, s.ds[y].epoch == e))
  }

  predicate IntactTracker(t: Tracker, op: Op, now: bool) {
    && t.op == op && t.status == Success && (t.mine.Some? ==> t.mine.value.status == Success)
    && (now ==> !t.short)
  }

  ghost predicate AllIntact(cfg: Config, s: State, e: nat, k: Round) {
    forall y :: y in cfg.tree(e).living ==> Intact(s, y, e, k)
  }

  /** Nobody is done with the round now open. */
  lemma OpenIsUnsettled(cfg: Config, s: State, y: nat, k: Key)
    requires cfg.Valid() && Reachable(cfg, s) && y in s.ds && k in s.ds[y].ops && k == NowOpen(s, k.sig)
    ensures !Settled(y, s.ds[y].ops[k]) && KeyOk(cfg, s.calls, y, s.ds[y].epoch, k, s.ds[y].ops[k])
  {
    TrackerKept(cfg, s, y, k);
    if r :| r in s.log && r.key == k {
      var i :| 0 <= i < |s.log| && s.log[i] == r;
      NotOpen(cfg, s, i, k.sig);
    }
  }

  /** Having processed everything, every daemon in which nothing has gone wrong is ready. */
  lemma DrainedReady(cfg: Config, s: State, s': State, e: nat, k: Round)
    requires cfg.Valid() && Reachable(cfg, s') && Drained(cfg, s, s', cfg.tree(e).living, k.key)
    requires k.key == NowOpen(s, k.key.sig) && k.op != Unknown && AllIntact(cfg, s, e, k)
    ensures AllReady(cfg, s', cfg.tree(e).living, e, k)
  {
    forall y | y in cfg.tree(e).living ensures Ready(cfg, s', y, e, k) {
      assert Intact(s, y, e, k) && Trails(s.ds[y], s'.ds[y], k.key);
      CaughtUp(cfg, s', y, k.key.sig);
      assert cfg.tree(e).Valid();
      if k.key in s'.ds[y].ops { OpenIsUnsettled(cfg, s', y, k.key); }
    }
  }

  lemma CaughtUp(cfg: Config, s: State, y: nat, sig: Sig)
    requires cfg.Valid() && Reachable(cfg, s) && y in s.ds && s.ds[y].seen == |s.log|
    ensures GenNext(s.ds[y], sig) == NowOpen(s, sig).gen
  {
    ReachableKeeps(cfg, s);
    assert InStep(s.log, s.ds[y]);
  }

  // ---- the round completes ----

  /** Everybody's contribution is in, from those who had entered and those who
      entered since. */
  ghost predicate Completes(cfg: Config, s: State, s': State, r: Release, e: nat, k: Round)
    requires cfg.Valid()
  {
    && Leads(cfg, s, s') && r in s'.log && Ends(r, e, k, false)
    && r.arrived == cfg.Part(e, k.key.sig) && Entered(s.calls, s'.calls, k)
    && (forall x :: x in r.arrived ==> (x, k.key) in s'.calls && s'.calls[(x, k.key)].op == k.op)
    && (k.op == Allgather ==> ExactlyOnce(s'.calls, k.key, r.data, r.arrived))
    && (k.op == Barrier ==> r.data == [])
  }

  /** From every reachable state, in every tree: the round now open can complete
      at epoch `e` with every living participant in it, from wherever each daemon
      stands, if nothing has gone wrong in it. */
  lemma FenceCanSucceed(cfg: Config, s: State, e: nat, k: Round) returns (s': State, r: Release)
    requires cfg.Valid() && Reachable(cfg, s) && k.key == NowOpen(s, k.key.sig) && k.op != Unknown
    requires AllIntact(cfg, s, e, k) && cfg.Part(e, k.key.sig) != {}
    ensures Completes(cfg, s, s', r, e, k)
  {
    assert cfg.tree(e).living <= s.ds.Keys by { assert forall y :: y in cfg.tree(e).living ==> Intact(s, y, e, k); }
    var s1 := AllDrain(cfg, s, cfg.tree(e).living, k.key.sig);
    LeadsThen(cfg, Init(cfg), s, s1);
    DrainedReady(cfg, s, s1, e, k);
    s', r := ReadySucceeds(cfg, s1, e, k);
    LeadsThen(cfg, s, s1, s');
  }

  lemma ReadySucceeds(cfg: Config, s: State, e: nat, k: Round) returns (s': State, r: Release)
    requires cfg.Valid() && Reachable(cfg, s) && AllReady(cfg, s, cfg.tree(e).living, e, k)
    requires cfg.Part(e, k.key.sig) != {}
    ensures Moves(cfg, s, s', cfg.tree(e).living, k) && Completes(cfg, s, s', r, e, k)
    ensures AllCalm(s', cfg.tree(e).living, e, k)
  {
    cfg.tree(e).SubRoot();
    s' := RollsUp(cfg, s, 0, e, k);
    r :| r in s'.log && Ends(r, e, k, false);
    StaysReachable(cfg, s, s', cfg.tree(e).living, k);
    ReleaseExact(cfg, s', r);
  }

  // ---- rounds without end ----

  /** Nobody living has heard of the round now open, or of an epoch past `e`. */
  ghost predicate Idle(cfg: Config, s: State, e: nat, sig: Sig)
    requires cfg.Valid()
  {
    forall y :: y in cfg.tree(e).living ==> Unheard(s, y, e, NowOpen(s, sig))
  }

  predicate Unheard(s: State, y: nat, e: nat, k: Key) { y in s.ds && s.ds[y].epoch <= e && k !in s.ds[y].ops }

  /** Round `g` succeeded at epoch `e` with all its living participants, each
      giving what it was to give. */
  ghost predicate Done(cfg: Config, s: State, e: nat, k: Round)
    requires cfg.Valid()
  {
    && (exists r :: r in s.log && Ends(r, e, k, false) && r.arrived == cfg.Part(e, k.key.sig))
    && forall x :: x in cfg.Part(e, k.key.sig) ==>
         (x, k.key) in s.calls && s.calls[(x, k.key)] == Call(k.op, k.data(x), Success)
  }

  /** The round completes, and is the only release. */
  lemma LogGrowsOne(cfg: Config, s: State, s': State, r: Release, k: Round)
    requires cfg.Valid() && Reachable(cfg, s) && Reachable(cfg, s') && Logged(s.log, s'.log, k)
    requires k.key == NowOpen(s, k.key.sig) && r in s'.log && r.key == k.key
    ensures NowOpen(s', k.key.sig) == Key(k.key.sig, k.key.gen + 1)
  {
    forall i | 0 <= i < |s.log| ensures s.log[i].key != k.key { NotOpen(cfg, s, i, k.key.sig); }
    assert |s'.log| > |s.log|;
    InLogOrder(cfg, s');
    OneMore(s.log, s'.log, k.key);
  }

  lemma InLogOrder(cfg: Config, s: State)
    requires cfg.Valid() && Reachable(cfg, s)
    ensures LogOrdered(s.log)
  {
    ReachableKeeps(cfg, s);
  }

  lemma OneMore(a: seq<Release>, b: seq<Release>, k: Key)
    requires LogOrdered(b) && a < b && k.gen == Count(a, |a|, k.sig)
    requires forall i :: |a| <= i < |b| ==> b[i].key == k
    ensures Count(b, |b|, k.sig) == k.gen + 1
  {
    var n := |a|;
    CountPrefix(a, b, n, k.sig);
    OneCounted(b, n, k);
    assert |b| > n + 1 ==> OrderedAt(b, n + 1);
  }

  lemma OneCounted(log: seq<Release>, n: nat, k: Key)
    requires n < |log| && log[n].key == k
    ensures Count(log, n + 1, k.sig) == Count(log, n, k.sig) + 1
  {
  }

  /** Nobody has entered a round nobody has heard of. */
  lemma NoCallsYet(cfg: Config, s: State, e: nat, sig: Sig)
    requires cfg.Valid() && Reachable(cfg, s) && Idle(cfg, s, e, sig)
    ensures forall x :: x in cfg.tree(e).living ==> (x, NowOpen(s, sig)) !in s.calls
  {
    ReachableKeeps(cfg, s);
    var k := NowOpen(s, sig);
    forall x | x in cfg.tree(e).living ensures (x, k) !in s.calls {
      assert Unheard(s, x, e, k) && InStep(s.log, s.ds[x]);
      CountMono(s.log, s.ds[x].seen, |s.log|, sig);
      assert (x, k) in s.calls ==> CallHeld(s, x, k);
    }
  }

  /** Everybody living ends up idle again, one round further. */
  lemma IdleAgain(cfg: Config, s: State, s': State, e: nat, k: Round)
    requires cfg.Valid() && Reachable(cfg, s) && k.key == NowOpen(s, k.key.sig)
    requires Moves(cfg, s, s', cfg.tree(e).living, k) && AllCalm(s', cfg.tree(e).living, e, k)
    requires NowOpen(s', k.key.sig) == Key(k.key.sig, k.key.gen + 1)
    ensures Idle(cfg, s', e, k.key.sig)
  {
    ReachableKeeps(cfg, s);
    var k' := NowOpen(s', k.key.sig);
    forall y | y in cfg.tree(e).living ensures Unheard(s', y, e, k') {
      assert Calm(s', y, e, k) && Besides(s.ds[y], s'.ds[y], k.key) && InStep(s.log, s.ds[y]);
    }
  }

  lemma NextRound(cfg: Config, s: State, e: nat, k: Round) returns (s': State)
    requires cfg.Valid() && Reachable(cfg, s) && Idle(cfg, s, e, k.key.sig) && k.key == NowOpen(s, k.key.sig)
    requires k.op != Unknown && cfg.Part(e, k.key.sig) != {}
    ensures Leads(cfg, s, s') && Extends(s.calls, s'.calls) && s.log <= s'.log && Done(cfg, s', e, k)
    ensures Idle(cfg, s', e, k.key.sig) && NowOpen(s', k.key.sig) == Key(k.key.sig, k.key.gen + 1)
  {
    IdleIntact(cfg, s, e, k);
    var s1 := AllDrain(cfg, s, cfg.tree(e).living, k.key.sig);
    LeadsThen(cfg, Init(cfg), s, s1);
    DrainedReady(cfg, s, s1, e, k);
    var r;
    s', r := ReadySucceeds(cfg, s1, e, k);
    LeadsThen(cfg, s, s1, s');
    StaysReachable(cfg, s1, s', cfg.tree(e).living, k);
    LogGrowsOne(cfg, s1, s', r, k);
    IdleAgain(cfg, s1, s', e, k);
    NoCallsYet(cfg, s, e, k.key.sig);
  }

  lemma IdleIntact(cfg: Config, s: State, e: nat, k: Round)
    requires cfg.Valid() && Idle(cfg, s, e, k.key.sig) && k.key == NowOpen(s, k.key.sig)
    ensures AllIntact(cfg, s, e, k) && cfg.tree(e).living <= s.ds.Keys
  {
    forall y | y in cfg.tree(e).living ensures Intact(s, y, e, k) { assert Unheard(s, y, e, k.key); }
  }

  /** Round `g` of a script that says what everybody gives in every round. */
  function RoundOf(sig: Sig, op: Op, script: (nat, nat) -> Blob, g: nat): Round {
    Round(Key(sig, g), op, x => script(g, x))
  }

  ghost predicate AllDone(cfg: Config, s: State, e: nat, sig: Sig, op: Op, script: (nat, nat) -> Blob, lo: nat, hi: nat)
    requires cfg.Valid()
  {
    forall g :: lo <= g < hi ==> Done(cfg, s, e, RoundOf(sig, op, script, g))
  }

  /** Any number of rounds over one signature can complete, one after another,
      each with everybody in it and each with its own data. */
  lemma {:induction false} RoundsCanFollow(cfg: Config, s: State, e: nat, sig: Sig, op: Op,
                                           script: (nat, nat) -> Blob, n: nat)
    returns (s': State)
    requires cfg.Valid() && Reachable(cfg, s) && Idle(cfg, s, e, sig) && op != Unknown && cfg.Part(e, sig) != {}
    ensures Leads(cfg, s, s') && Extends(s.calls, s'.calls) && s.log <= s'.log
    ensures AllDone(cfg, s', e, sig, op, script, NowOpen(s, sig).gen, NowOpen(s, sig).gen + n)
    ensures Idle(cfg, s', e, sig) && NowOpen(s', sig).gen == NowOpen(s, sig).gen + n
    decreases n
  {
    if n == 0 {
      s' := s;
      LeadsSelf(cfg, s);
    } else {
      var s1 := RoundsCanFollow(cfg, s, e, sig, op, script, n - 1);
      LeadsThen(cfg, Init(cfg), s, s1);
      s' := NextRound(cfg, s1, e, RoundOf(sig, op, script, NowOpen(s1, sig).gen));
      LeadsThen(cfg, s, s1, s');
      OneMoreDone(cfg, s1, s', e, sig, op, script, NowOpen(s, sig).gen, NowOpen(s1, sig).gen);
    }
  }

  lemma OneMoreDone(cfg: Config, s: State, s': State, e: nat, sig: Sig, op: Op,
                    script: (nat, nat) -> Blob, lo: nat, hi: nat)
    requires cfg.Valid() && AllDone(cfg, s, e, sig, op, script, lo, hi)
    requires Done(cfg, s', e, RoundOf(sig, op, script, hi)) && Extends(s.calls, s'.calls) && s.log <= s'.log
    ensures AllDone(cfg, s', e, sig, op, script, lo, hi + 1)
  {
    forall g | lo <= g < hi + 1 ensures Done(cfg, s', e, RoundOf(sig, op, script, g)) {
      if g < hi { StaysDone(cfg, s, s', e, RoundOf(sig, op, script, g)); }
    }
  }

  lemma StaysDone(cfg: Config, s: State, s': State, e: nat, k: Round)
    requires cfg.Valid() && Done(cfg, s, e, k) && Extends(s.calls, s'.calls) && s.log <= s'.log
    ensures Done(cfg, s', e, k)
  {
    var r :| r in s.log && Ends(r, e, k, false) && r.arrived == cfg.Part(e, k.key.sig);
    assert r in s'.log;
  }

  /** In particular from the start, whatever the tree and the epoch. */
  lemma RoundsFromStart(cfg: Config, e: nat, sig: Sig, op: Op, script: (nat, nat) -> Blob, n: nat) returns (s: State)
    requires cfg.Valid() && op != Unknown && cfg.Part(e, sig) != {}
    ensures Reachable(cfg, s) && AllDone(cfg, s, e, sig, op, script, 0, n)
  {
    LeadsSelf(cfg, Init(cfg));
    assert cfg.tree(e).Valid();
    s := RoundsCanFollow(cfg, Init(cfg), e, sig, op, script, n);
  }
}
