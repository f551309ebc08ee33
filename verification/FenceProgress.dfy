/** Runs that get somewhere: wherever a round is open and nothing in it has gone
    wrong, it can complete, whatever other rounds and fences are in flight. */
module FenceProgress {
  import opened RoutingTree
  import opened Fence
  import opened FenceContent
  import opened FenceSteps
  import opened FenceSystem
  import opened FenceWire
  import opened FenceRuns

  /** A round to be completed: which one, with which operation, and what each
      daemon that has not entered yet is to give. */
  datatype Round = Round(key: Key, op: Op, data: nat -> Blob)

  /** A daemon for which this is the round now open, with nothing wrong in it. */
  predicate Sane(d: Daemon, k: Round) {
    && k.op != Unknown && GenNext(d, k.key.sig) == k.key.gen
    && (k.key in d.ops ==> SaneTracker(d.ops[k.key], k.op))
  }

  predicate SaneTracker(t: Tracker, op: Op) {
    && t.op == op && t.status == Success && !t.aborting
    && (t.mine.Some? ==> t.mine.value.op == op && t.mine.value.status == Success)
  }

  /** The count so far: these child slots, ourselves or not, and whether a
      branch is missing from it. */
  predicate Tally(cfg: Config, b: nat, e: nat, k: Round, t: Tracker, done: set<nat>, self: bool, bad: bool)
    requires cfg.Valid()
  {
    && SaneTracker(t, k.op)
    && t.slots == done && t.self == self && t.short == bad
    && t.nreported == |done| + (if self then 1 else 0)
    && t.nexpected == cfg.NumExpected(e, b, k.key.sig)
    && (t.converged <==> t.nreported > 0 && t.nreported >= t.nexpected)
  }

  function Awaits(cfg: Config, b: nat, e: nat, k: Round, done: set<nat>, self: bool): int
    requires cfg.Valid()
  {
    cfg.NumExpected(e, b, k.key.sig) - |done| - if self then 1 else 0
  }

  predicate Counts(cfg: Config, b: nat, e: nat, k: Round, d: Daemon, done: set<nat>, self: bool, bad: bool)
    requires cfg.Valid()
  {
    && d.epoch == e && Sane(d, k)
    && (if k.key in d.ops then Tally(cfg, b, e, k, d.ops[k.key], done, self, bad) else done == {} && !self && !bad)
  }

  /** A contribution to the round, sent at epoch `e`. */
  predicate Part(m: Msg, b: nat, p: nat, e: nat, k: Round) {
    m.src == b && m.dst == p && m.epoch == e && m.key == k.key && m.op == k.op && m.status == Success
  }

  /** Where a contribution counts: its child slot, or ourselves. */
  predicate Countable(cfg: Config, b: nat, e: nat, m: Msg, done: set<nat>, self: bool)
    requires cfg.Valid()
  {
    if m.src == b then !self
    else m.src !in done && m.src in cfg.tree(e).Children(b) && cfg.tree(e).SlotOf(m.src, b) == Some(m.src)
  }

  function Worse(cfg: Config, b: nat, e: nat, k: Round, m: Msg, bad: bool): bool
    requires cfg.Valid()
  {
    bad || m.short || (m.src != b && m.src !in cfg.Expected(e, b, k.key.sig) && cfg.NumExpected(e, b, k.key.sig) > 0)
  }

  // ---- one daemon ----

  /** The tracker after one more contribution, before it is tested. */
  lemma TallyAbsorb(cfg: Config, b: nat, d: Daemon, e: nat, k: Round, m: Msg, done: set<nat>, self: bool, bad: bool)
    requires cfg.Valid() && Counts(cfg, b, e, k, d, done, self, bad)
    requires Awaits(cfg, b, e, k, done, self) > 0 || (done == {} && !self)
    requires m.key == k.key && m.op == k.op && m.status == Success && Countable(cfg, b, e, m, done, self)
    ensures var slot := if m.src == b then None else Some(m.src);
            var t := MergeOp(TrackerFor(cfg, b, d, k.key), k.op);
            var t' := Absorb(cfg, b, e, t, m, slot);
            && !Counted(t, slot) && SaneTracker(t', k.op) && !t'.converged
            && t'.slots == (if m.src == b then done else done + {m.src})
            && t'.self == (self || m.src == b)
            && t'.nreported == |done| + (if self then 1 else 0) + 1
            && t'.nexpected == cfg.NumExpected(e, b, k.key.sig)
            && t'.short == Worse(cfg, b, e, k, m, bad)
  {
  }

  /** What a completed count sends: up, or from the master to everybody. */
  ghost predicate Answers(cfg: Config, b: nat, e: nat, k: Round, o: Outcome, bad: bool) {
    if b == 0 then o.out == {} && |o.rel| == 1 && Ends(o.rel[0], e, k, bad)
    else
      && b in cfg.tree(e).parent && o.rel == []
      && exists m :: o.out == {m} && Part(m, b, cfg.tree(e).parent[b], e, k) && m.short == bad
  }

  predicate Ends(r: Release, e: nat, k: Round, bad: bool) {
    r.key == k.key && r.op == k.op && r.status == Success && r.short == bad && r.epoch == e
  }

  lemma TallyCheck(cfg: Config, b: nat, d: Daemon, e: nat, k: Round, t: Tracker)
    requires cfg.Valid() && PlacedAt(cfg, b, e) && d.epoch == e && Sane(d, k)
    requires SaneTracker(t, k.op) && !t.converged
    ensures var o := Check(cfg, b, d, k.key, t);
            var t' := t.(converged := t.nreported >= t.nexpected);
            && o.d == d.(ops := d.ops[k.key := t'])
            && Sane(o.d, k)
            && if t.nreported < t.nexpected then o.out == {} && o.rel == [] else Answers(cfg, b, e, k, o, t.short)
  {
    var o := Check(cfg, b, d, k.key, t);
    if t.nreported >= t.nexpected && b != 0 {
      var m := RollUp(b, cfg.tree(e).parent[b], e, k.key, t);
      assert o.out == {m} && Part(m, b, cfg.tree(e).parent[b], e, k) && m.short == t.short;
    }
  }

  /** One more contribution delivered. */
  lemma TallyRecv(cfg: Config, b: nat, d: Daemon, e: nat, k: Round, m: Msg, done: set<nat>, self: bool, bad: bool)
    requires cfg.Valid() && PlacedAt(cfg, b, e) && Counts(cfg, b, e, k, d, done, self, bad)
    requires Awaits(cfg, b, e, k, done, self) > 0 || (done == {} && !self)
    requires m.key == k.key && m.op == k.op && m.status == Success && Countable(cfg, b, e, m, done, self)
    ensures var o := RecvNow(cfg, b, d, m);
            var done', self' := if m.src == b then done else done + {m.src}, self || m.src == b;
            var bad' := Worse(cfg, b, e, k, m, bad);
            && Counts(cfg, b, e, k, o.d, done', self', bad')
            && if Awaits(cfg, b, e, k, done', self') > 0 then o.out == {} && o.rel == []
               else Answers(cfg, b, e, k, o, bad')
  {
    var slot := if m.src == b then None else Some(m.src);
    var t := MergeOp(TrackerFor(cfg, b, d, k.key), k.op);
    var t' := Absorb(cfg, b, e, t, m, slot);
    TallyAbsorb(cfg, b, d, e, k, m, done, self, bad);
    RecvIs(cfg, b, d, m, t, slot);
    TallyCheck(cfg, b, d, e, k, t');
  }

  lemma RecvIs(cfg: Config, b: nat, d: Daemon, m: Msg, t: Tracker, slot: Option<nat>)
    requires cfg.Valid() && PlacedAt(cfg, b, d.epoch) && GenNext(d, m.key.sig) == m.key.gen
    requires t == MergeOp(TrackerFor(cfg, b, d, m.key), m.op) && !Counted(t, slot)
    requires slot == if m.src == b then None else Some(m.src)
    requires m.src != b ==> cfg.tree(d.epoch).SlotOf(m.src, b) == Some(m.src)
    ensures RecvNow(cfg, b, d, m) == Check(cfg, b, d, m.key, Absorb(cfg, b, d.epoch, t, m, slot))
  {
  }

  /** A delivery files nothing of our own and touches no other tracker. */
  lemma KeepsMine(cfg: Config, b: nat, d: Daemon, m: Msg)
    requires cfg.Valid() && PlacedAt(cfg, b, d.epoch)
    ensures var o := RecvNow(cfg, b, d, m);
            m.key in o.d.ops && o.d.ops[m.key].mine.Some? ==>
              m.key in d.ops && d.ops[m.key].mine == o.d.ops[m.key].mine
    ensures Besides(d, RecvNow(cfg, b, d, m).d, m.key)
  {
    var t := MergeOp(TrackerFor(cfg, b, d, m.key), m.op);
    var from := if m.src == b then None else cfg.tree(d.epoch).SlotOf(m.src, b);
    MergeMine(cfg, b, d, m.key, m.op);
    CheckMine(cfg, b, d, m.key, Absorb(cfg, b, d.epoch, t, m, from));
  }

  lemma MergeMine(cfg: Config, b: nat, d: Daemon, k: Key, op: Op)
    requires cfg.Valid()
    ensures var t := MergeOp(TrackerFor(cfg, b, d, k), op); t.mine.Some? ==> k in d.ops && d.ops[k].mine == t.mine
  {
  }

  lemma CheckMine(cfg: Config, b: nat, d: Daemon, k: Key, t: Tracker)
    requires cfg.Valid() && PlacedAt(cfg, b, d.epoch)
    ensures k in Check(cfg, b, d, k, t).d.ops && Check(cfg, b, d, k, t).d.ops[k].mine == t.mine
    ensures Besides(d, Check(cfg, b, d, k, t).d, k)
  {
  }

  // ---- steps of the whole DVM ----

  /** No tracker was opened but this round's, and no release processed. */
  ghost predicate Besides(d: Daemon, d': Daemon, k: Key) {
    && d'.gens == d.gens && d'.seen == d.seen
    && forall j :: j in d'.ops && j != k ==> j in d.ops
  }

  /** `s` leads to `s'`, moving only these daemons and only in this round; who
      entered it on the way gave what it was to give. */
  ghost predicate Moves(cfg: Config, s: State, s': State, who: set<nat>, k: Round)
    requires cfg.Valid()
  {
    && Leads(cfg, s, s')
    && s'.ds.Keys == s.ds.Keys && s.net <= s'.net && Logged(s.log, s'.log, k)
    && (forall y :: y in s.ds && y !in who ==> s'.ds[y] == s.ds[y])
    && (forall y :: y in s.ds ==> Besides(s.ds[y], s'.ds[y], k.key))
    && Entered(s.calls, s'.calls, k)
  }

  /** Only this round is released. */
  ghost predicate Logged(a: seq<Release>, b: seq<Release>, k: Round) {
    a <= b && forall i :: |a| <= i < |b| ==> b[i].key == k.key
  }

  ghost predicate Entered(a: Calls, b: Calls, k: Round) {
    && Extends(a, b)
    && forall c :: c in b && c !in a ==> c.1 == k.key && b[c] == Call(k.op, k.data(c.0), Success)
  }

  lemma MovesThen(cfg: Config, a: State, b: State, c: State, who: set<nat>, more: set<nat>, all: set<nat>, k: Round)
    requires cfg.Valid() && Moves(cfg, a, b, who, k) && Moves(cfg, b, c, more, k) && who <= all && more <= all
    ensures Moves(cfg, a, c, all, k)
  {
    LeadsThen(cfg, a, b, c);
    forall y | y in a.ds ensures Besides(a.ds[y], c.ds[y], k.key) {
      assert Besides(a.ds[y], b.ds[y], k.key) && Besides(b.ds[y], c.ds[y], k.key);
    }
  }

  lemma MovesSelf(cfg: Config, s: State, who: set<nat>, k: Round)
    requires cfg.Valid()
    ensures Moves(cfg, s, s, who, k)
  {
    LeadsSelf(cfg, s);
  }

  lemma PutMoves(cfg: Config, s: State, b: nat, o: Outcome, k: Round)
    requires cfg.Valid() && b in s.ds && Leads(cfg, s, Put(s, b, o)) && Besides(s.ds[b], o.d, k.key)
    requires forall r :: r in o.rel ==> r.key == k.key
    ensures Moves(cfg, s, Put(s, b, o), {b}, k)
  {
  }

  lemma StaysReachable(cfg: Config, s: State, s': State, who: set<nat>, k: Round)
    requires cfg.Valid() && Reachable(cfg, s) && Moves(cfg, s, s', who, k)
    ensures Reachable(cfg, s')
  {
    LeadsThen(cfg, Init(cfg), s, s');
  }

  /** A daemon counting the round at epoch `e`, its own contribution on the wire if it gave one. */
  ghost predicate At(cfg: Config, s: State, b: nat, e: nat, k: Round, done: set<nat>, self: bool, bad: bool)
    requires cfg.Valid()
  {
    && b in s.ds && PlacedAt(cfg, b, e) && Counts(cfg, b, e, k, s.ds[b], done, self, bad)
    && OnWire(s, b, e, k)
  }

  predicate OnWire(s: State, b: nat, e: nat, k: Round)
    requires b in s.ds
  {
    k.key in s.ds[b].ops && s.ds[b].ops[k.key].mine.Some? ==>
      SelfMsg(b, e, k.key, s.ds[b].ops[k.key].mine.value) in s.net
  }

  /** A daemon in which the round, whatever it has counted of it, can go on to
      completion at epoch `e`. */
  ghost predicate Ready(cfg: Config, s: State, b: nat, e: nat, k: Round) {
    && b in s.ds && PlacedAt(cfg, b, e) && s.ds[b].epoch <= e && Sane(s.ds[b], k)
    && (k.key in s.ds[b].ops ==>
          && (b == 0 ==> !s.ds[b].ops[k.key].converged)
          && (s.ds[b].epoch == e ==> !s.ds[b].ops[k.key].short))
  }

  /** ... with nothing counted at that epoch yet. */
  ghost predicate Fresh(cfg: Config, s: State, b: nat, e: nat, k: Round) {
    Ready(cfg, s, b, e, k) && (s.ds[b].epoch < e || k.key !in s.ds[b].ops)
  }

  ghost predicate Sent(cfg: Config, net: set<Msg>, b: nat, e: nat, k: Round, bad: bool) {
    b in cfg.tree(e).parent && exists m :: m in net && Part(m, b, cfg.tree(e).parent[b], e, k) && m.short == bad
  }

  ghost predicate Answered(cfg: Config, s: State, b: nat, e: nat, k: Round, bad: bool) {
    if b == 0 then exists r :: r in s.log && Ends(r, e, k, bad) else Sent(cfg, s.net, b, e, k, bad)
  }

  /** The daemon takes epoch `e`, if it has not. */
  lemma Raise(cfg: Config, s: State, b: nat, e: nat, k: Round) returns (s': State)
    requires cfg.Valid() && Fresh(cfg, s, b, e, k)
    ensures Moves(cfg, s, s', {b}, k) && s'.log == s.log && At(cfg, s', b, e, k, {}, false, false)
    ensures k.key in s.ds[b].ops ==> k.key in s'.ds[b].ops
  {
    if s.ds[b].epoch == e {
      s' := s;
      MovesSelf(cfg, s, {b}, k);
    } else {
      var o := Enter(cfg, b, s.ds[b], e);
      Recovers(cfg, s, b, e, o);
      s' := Put(s, b, o);
      assert s.log + [] == s.log;
      RaiseCounts(cfg, s.ds[b], b, e, k);
      PutMoves(cfg, s, b, o, k);
    }
  }

  /** How a count stands: only awaited slots are in it, and it is answered if it is full. */
  ghost predicate Stands(cfg: Config, s: State, b: nat, e: nat, k: Round, done: set<nat>, self: bool)
    requires cfg.Valid()
  {
    && At(cfg, s, b, e, k, done, self, false)
    && done <= cfg.Expected(e, b, k.key.sig) && (self ==> b in cfg.dmns(k.key.sig))
    && (Awaits(cfg, b, e, k, done, self) <= 0 ==> Answered(cfg, s, b, e, k, false))
  }

  lemma SomethingAwaited(cfg: Config, b: nat, e: nat, k: Round)
    requires cfg.Valid() && Due(cfg, e, b, k.key.sig) != {}
    ensures cfg.NumExpected(e, b, k.key.sig) > 0
  {
    if cfg.NumExpected(e, b, k.key.sig) == 0 { NothingDue(cfg, b, e, k.key.sig); }
  }

  /** A count under way at epoch `e`, in any reachable state. */
  lemma UnderWay(cfg: Config, s: State, b: nat, e: nat, k: Round)
    requires cfg.Valid() && Reachable(cfg, s) && Ready(cfg, s, b, e, k) && Due(cfg, e, b, k.key.sig) != {}
    requires s.ds[b].epoch == e && k.key in s.ds[b].ops
    ensures Stands(cfg, s, b, e, k, s.ds[b].ops[k.key].slots, s.ds[b].ops[k.key].self)
  {
    var t := s.ds[b].ops[k.key];
    TrackerKept(cfg, s, b, k.key);
    SomethingAwaited(cfg, b, e, k);
    TallyNow(cfg, s, b, e, k, t);
    if t.converged { AnswerOut(cfg, s, b, e, k, t); }
  }

  lemma TallyNow(cfg: Config, s: State, b: nat, e: nat, k: Round, t: Tracker)
    requires cfg.Valid() && SaneTracker(t, k.op) && !t.short && cfg.NumExpected(e, b, k.key.sig) > 0
    requires TrackOk(cfg, s.calls, b, e, k.key, t) && !Settled(b, t) && Wired(cfg, s.net, s.log, b, e, k.key, t)
    ensures Tally(cfg, b, e, k, t, t.slots, t.self, false)
    ensures t.slots <= cfg.Expected(e, b, k.key.sig) && (t.self ==> b in cfg.dmns(k.key.sig))
  {
  }

  lemma AnswerOut(cfg: Config, s: State, b: nat, e: nat, k: Round, t: Tracker)
    requires b != 0 && t.converged && SaneTracker(t, k.op) && !t.short && Wired(cfg, s.net, s.log, b, e, k.key, t)
    ensures Sent(cfg, s.net, b, e, k, false)
  {
    var m :| m in s.net && Speaks(cfg, b, e, k.key, t, m);
    assert Part(m, b, cfg.tree(e).parent[b], e, k) && m.short == false;
  }

  /** The daemon takes epoch `e`, and goes on from what it has counted there. */
  lemma Resumes(cfg: Config, s: State, b: nat, e: nat, k: Round) returns (s': State, done: set<nat>, self: bool)
    requires cfg.Valid() && Reachable(cfg, s) && Ready(cfg, s, b, e, k) && Due(cfg, e, b, k.key.sig) != {}
    ensures Moves(cfg, s, s', {b}, k) && s'.log == s.log && Stands(cfg, s', b, e, k, done, self)
  {
    if s.ds[b].epoch == e && k.key in s.ds[b].ops {
      s', done, self := s, s.ds[b].ops[k.key].slots, s.ds[b].ops[k.key].self;
      MovesSelf(cfg, s, {b}, k);
      UnderWay(cfg, s, b, e, k);
    } else {
      done, self := {}, false;
      s' := Raise(cfg, s, b, e, k);
      SomethingAwaited(cfg, b, e, k);
    }
  }

  lemma RaiseCounts(cfg: Config, d: Daemon, b: nat, e: nat, k: Round)
    requires cfg.Valid() && Sane(d, k) && (b == 0 && k.key in d.ops ==> !d.ops[k.key].converged)
    ensures var o := Enter(cfg, b, d, e);
            && Counts(cfg, b, e, k, o.d, {}, false, false) && Besides(d, o.d, k.key)
            && (k.key in o.d.ops && o.d.ops[k.key].mine.Some? ==>
                  SelfMsg(b, e, k.key, o.d.ops[k.key].mine.value) in o.out)
  {
    var o := Enter(cfg, b, d, e);
    if k.key in d.ops {
      assert o.d.ops[k.key] == Reset(cfg, b, e, k.key.sig, d.ops[k.key]);
      if d.ops[k.key].mine.Some? { assert SelfMsg(b, e, k.key, d.ops[k.key].mine.value) in o.out; }
    }
  }

  /** Something delivered to `b`: one more counted, and an answer when that was the last. */
  lemma Take(cfg: Config, s: State, b: nat, e: nat, k: Round, m: Msg, done: set<nat>, self: bool, bad: bool)
    returns (s': State)
    requires cfg.Valid() && At(cfg, s, b, e, k, done, self, bad)
    requires m in s.net && Part(m, m.src, b, e, k) && Countable(cfg, b, e, m, done, self)
    requires Awaits(cfg, b, e, k, done, self) > 0 || (done == {} && !self)
    ensures Moves(cfg, s, s', {b}, k)
    ensures var done', self' := if m.src == b then done else done + {m.src}, self || m.src == b;
            var bad' := Worse(cfg, b, e, k, m, bad);
            && At(cfg, s', b, e, k, done', self', bad')
            && (Awaits(cfg, b, e, k, done', self') <= 0 ==> Answered(cfg, s', b, e, k, bad'))
            && (b != 0 || Awaits(cfg, b, e, k, done', self') > 0 ==> s'.log == s.log)
  {
    var o := RecvNow(cfg, b, s.ds[b], m);
    TallyRecv(cfg, b, s.ds[b], e, k, m, done, self, bad);
    KeepsMine(cfg, b, s.ds[b], m);
    Delivers(cfg, s, m, o);
    s' := Put(s, b, o);
    AnswersOnly(cfg, b, e, k, o, Worse(cfg, b, e, k, m, bad));
    PutMoves(cfg, s, b, o, k);
    var done', self' := if m.src == b then done else done + {m.src}, self || m.src == b;
    PutCounts(cfg, s, b, e, k, o, done', self', Worse(cfg, b, e, k, m, bad));
  }

  lemma AnswersOnly(cfg: Config, b: nat, e: nat, k: Round, o: Outcome, bad: bool)
    requires o.rel == [] || Answers(cfg, b, e, k, o, bad)
    ensures forall r :: r in o.rel ==> r.key == k.key
  {
    if o.rel != [] { assert forall r :: r in o.rel ==> r == o.rel[0]; }
  }

  lemma PutCounts(cfg: Config, s: State, b: nat, e: nat, k: Round, o: Outcome, done: set<nat>, self: bool, bad: bool)
    requires cfg.Valid() && b in s.ds && PlacedAt(cfg, b, e) && Counts(cfg, b, e, k, o.d, done, self, bad)
    requires k.key in o.d.ops && o.d.ops[k.key].mine.Some? ==> SelfMsg(b, e, k.key, o.d.ops[k.key].mine.value) in s.net
    requires if Awaits(cfg, b, e, k, done, self) > 0 then o.out == {} && o.rel == [] else Answers(cfg, b, e, k, o, bad)
    ensures var s' := Put(s, b, o);
            && At(cfg, s', b, e, k, done, self, bad)
            && (Awaits(cfg, b, e, k, done, self) <= 0 ==> Answered(cfg, s', b, e, k, bad))
            && (b != 0 || Awaits(cfg, b, e, k, done, self) > 0 ==> s'.log == s.log)
  {
    var s' := Put(s, b, o);
    if o.rel == [] { assert s.log + [] == s.log; } else { assert o.rel[0] in s'.log; }
    if Awaits(cfg, b, e, k, done, self) <= 0 && b != 0 {
      var m :| o.out == {m} && Part(m, b, cfg.tree(e).parent[b], e, k) && m.short == bad;
      assert m in s'.net;
    }
  }

  /** A local client enters, if none has: our contribution is on the wire. */
  lemma Calls(cfg: Config, s: State, b: nat, e: nat, k: Round, done: set<nat>) returns (s': State)
    requires cfg.Valid() && Reachable(cfg, s) && At(cfg, s, b, e, k, done, false, false) && b in cfg.dmns(k.key.sig)
    ensures Moves(cfg, s, s', {b}, k) && s'.log == s.log && At(cfg, s', b, e, k, done, false, false)
    ensures k.key in s'.ds[b].ops && s'.ds[b].ops[k.key].mine.Some?
  {
    var d := s.ds[b];
    if k.key in d.ops && d.ops[k.key].mine.Some? {
      s' := s;
      MovesSelf(cfg, s, {b}, k);
    } else {
      NotCalledYet(cfg, s, b, k);
      CallCounts(cfg, d, b, e, k, done);
      Fences(cfg, s, b, k.key.sig, k.op, Success, k.data(b));
      s' := DoFence(cfg, s, b, k.key.sig, k.op, Success, k.data(b));
      assert s.log + [] == s.log;
      CallMoves(cfg, s, b, k);
    }
  }

  lemma NotCalledYet(cfg: Config, s: State, b: nat, k: Round)
    requires cfg.Valid() && Reachable(cfg, s) && b in s.ds && GenNext(s.ds[b], k.key.sig) == k.key.gen
    requires k.key in s.ds[b].ops ==> s.ds[b].ops[k.key].mine.None?
    ensures !Called(s.ds[b], k.key.sig) && (b, k.key) !in s.calls
  {
    ReachableKeeps(cfg, s);
    assert Key(k.key.sig, GenNext(s.ds[b], k.key.sig)) == k.key;
    assert (b, k.key) in s.calls ==> CallHeld(s, b, k.key);
  }

  lemma CallCounts(cfg: Config, d: Daemon, b: nat, e: nat, k: Round, done: set<nat>)
    requires cfg.Valid() && Counts(cfg, b, e, k, d, done, false, false)
    requires k.key in d.ops ==> d.ops[k.key].mine.None?
    ensures var o := FenceCall(cfg, b, d, k.key.sig, k.op, Success, k.data(b));
            && Counts(cfg, b, e, k, o.d, done, false, false) && o.rel == []
            && k.key in o.d.ops && o.d.ops[k.key].mine.Some?
            && o.out == {SelfMsg(b, e, k.key, o.d.ops[k.key].mine.value)}
  {
    assert Key(k.key.sig, GenNext(d, k.key.sig)) == k.key;
  }

  lemma CallMoves(cfg: Config, s: State, b: nat, k: Round)
    requires cfg.Valid() && b in s.ds && GenNext(s.ds[b], k.key.sig) == k.key.gen && (b, k.key) !in s.calls
    requires Leads(cfg, s, DoFence(cfg, s, b, k.key.sig, k.op, Success, k.data(b)))
    ensures Moves(cfg, s, DoFence(cfg, s, b, k.key.sig, k.op, Success, k.data(b)), {b}, k)
  {
    assert Key(k.key.sig, GenNext(s.ds[b], k.key.sig)) == k.key;
    assert s.log <= s.log + [];
  }

  /** Our own contribution entered and counted. */
  lemma TakesPart(cfg: Config, s: State, b: nat, e: nat, k: Round, done: set<nat>) returns (s': State)
    requires cfg.Valid() && Reachable(cfg, s) && At(cfg, s, b, e, k, done, false, false) && b in cfg.dmns(k.key.sig)
    requires Awaits(cfg, b, e, k, done, false) > 0
    ensures Moves(cfg, s, s', {b}, k) && At(cfg, s', b, e, k, done, true, false)
    ensures Awaits(cfg, b, e, k, done, true) <= 0 ==> Answered(cfg, s', b, e, k, false)
    ensures b != 0 || Awaits(cfg, b, e, k, done, true) > 0 ==> s'.log == s.log
  {
    var s1 := Calls(cfg, s, b, e, k, done);
    var m := SelfMsg(b, e, k.key, s1.ds[b].ops[k.key].mine.value);
    s' := Take(cfg, s1, b, e, k, m, done, false, false);
    MovesThen(cfg, s, s1, s', {b}, {b}, {b}, k);
  }

  /** One child's rollup counted. */
  lemma Hears(cfg: Config, s: State, b: nat, e: nat, k: Round, c: nat, short: bool,
              done: set<nat>, self: bool, bad: bool)
    returns (s': State)
    requires cfg.Valid() && At(cfg, s, b, e, k, done, self, bad)
    requires c in cfg.tree(e).Children(b) && c !in done && Sent(cfg, s.net, c, e, k, short)
    requires Awaits(cfg, b, e, k, done, self) > 0 || (done == {} && !self)
    ensures var bad' := bad || short || (c !in cfg.Expected(e, b, k.key.sig) && cfg.NumExpected(e, b, k.key.sig) > 0);
            && Moves(cfg, s, s', {b}, k) && At(cfg, s', b, e, k, done + {c}, self, bad')
            && (Awaits(cfg, b, e, k, done + {c}, self) <= 0 ==> Answered(cfg, s', b, e, k, bad'))
            && (b != 0 || Awaits(cfg, b, e, k, done + {c}, self) > 0 ==> s'.log == s.log)
  {
    var m :| m in s.net && Part(m, c, cfg.tree(e).parent[c], e, k) && m.short == short;
    assert cfg.tree(e).parent[c] == b && c != b by { NotOwnChild(cfg, b, e, c); }
    assert cfg.tree(e).SlotOf(c, b) == Some(c);
    s' := Take(cfg, s, b, e, k, m, done, self, bad);
  }

  lemma NotOwnChild(cfg: Config, b: nat, e: nat, c: nat)
    requires cfg.Valid() && c in cfg.tree(e).Children(b)
    ensures c != b && cfg.tree(e).parent[c] == b
  {
  }

  // ---- whole subtrees ----

  ghost predicate AllReady(cfg: Config, s: State, who: set<nat>, e: nat, k: Round)
    requires cfg.Valid()
  {
    forall y :: y in who ==> Ready(cfg, s, y, e, k)
  }

  /** Nothing wrong, and not past epoch `e`. */
  predicate Calm(s: State, y: nat, e: nat, k: Round) { y in s.ds && Sane(s.ds[y], k) && s.ds[y].epoch <= e }

  predicate AllCalm(s: State, who: set<nat>, e: nat, k: Round) { forall y :: y in who ==> Calm(s, y, e, k) }

  lemma ReadyMoves(cfg: Config, s: State, s': State, moved: set<nat>, who: set<nat>, e: nat, k: Round)
    requires cfg.Valid() && AllReady(cfg, s, who, e, k) && Moves(cfg, s, s', moved, k) && who !! moved
    ensures AllReady(cfg, s', who, e, k)
  {
    forall y | y in who ensures Ready(cfg, s', y, e, k) {
      assert Ready(cfg, s, y, e, k) && s'.ds[y] == s.ds[y];
    }
  }

  lemma CalmMoves(cfg: Config, s: State, s': State, moved: set<nat>, who: set<nat>, e: nat, k: Round)
    requires cfg.Valid() && AllCalm(s, who, e, k) && Moves(cfg, s, s', moved, k) && AllCalm(s', moved, e, k)
    ensures AllCalm(s', who, e, k)
  {
    forall y | y in who ensures Calm(s', y, e, k) {
      assert Calm(s, y, e, k);
      if y in moved { assert Calm(s', y, e, k); }
    }
  }

  lemma ReadyCalm(cfg: Config, s: State, who: set<nat>, e: nat, k: Round)
    requires cfg.Valid() && AllReady(cfg, s, who, e, k)
    ensures AllCalm(s, who, e, k)
  {
    forall y | y in who ensures Calm(s, y, e, k) { assert Ready(cfg, s, y, e, k); }
  }

  lemma SubChild(cfg: Config, e: nat, b: nat, c: nat)
    requires cfg.Valid() && c in cfg.tree(e).Children(b)
    ensures cfg.tree(e).Sub(c) <= cfg.tree(e).Sub(b) - {b}
    ensures b in cfg.tree(e).Sub(b) && |cfg.tree(e).Sub(c)| < |cfg.tree(e).Sub(b)|
  {
    var t := cfg.tree(e);
    forall x | x in t.Sub(c) ensures x in t.Sub(b) - {b} { t.ChildBelow(b, c, x); }
    CardLess(t.Sub(c), t.Sub(b) - {b});
  }

  lemma SubSiblings(cfg: Config, e: nat, b: nat, c: nat, c': nat)
    requires cfg.Valid() && c in cfg.tree(e).Children(b) && c' in cfg.tree(e).Children(b) && c != c'
    ensures cfg.tree(e).Sub(c) !! cfg.tree(e).Sub(c')
  {
    forall x | x in cfg.tree(e).Sub(c) && x in cfg.tree(e).Sub(c') ensures false {
      cfg.tree(e).SiblingsDisjoint(b, c, c', x);
    }
  }

  /** In the subtrees of these children nothing stands in the way. */
  ghost predicate BranchesReady(cfg: Config, s: State, todo: set<nat>, e: nat, k: Round)
    requires cfg.Valid()
  {
    forall c :: c in todo ==> AllReady(cfg, s, cfg.tree(e).Sub(c), e, k)
  }

  lemma BranchesMove(cfg: Config, s: State, s': State, b: nat, c: nat, todo: set<nat>, e: nat, k: Round)
    requires cfg.Valid() && todo <= cfg.tree(e).Children(b) && c in cfg.tree(e).Children(b) && c !in todo
    requires BranchesReady(cfg, s, todo, e, k) && Moves(cfg, s, s', cfg.tree(e).Sub(c) + {b}, k)
    ensures BranchesReady(cfg, s', todo, e, k)
  {
    forall c' | c' in todo ensures AllReady(cfg, s', cfg.tree(e).Sub(c'), e, k) {
      SubSiblings(cfg, e, b, c, c');
      SubChild(cfg, e, b, c');
      ReadyMoves(cfg, s, s', cfg.tree(e).Sub(c) + {b}, cfg.tree(e).Sub(c'), e, k);
    }
  }

  /** A branch with a living participant rolls up, all of it, from wherever it stands. */
  lemma {:induction false} RollsUp(cfg: Config, s: State, c: nat, e: nat, k: Round) returns (s': State)
    requires cfg.Valid() && Reachable(cfg, s) && c in cfg.tree(e).living && Due(cfg, e, c, k.key.sig) != {}
    requires AllReady(cfg, s, cfg.tree(e).Sub(c), e, k)
    ensures Moves(cfg, s, s', cfg.tree(e).Sub(c), k) && (c != 0 ==> s'.log == s.log)
    ensures Answered(cfg, s', c, e, k, false) && AllCalm(s', cfg.tree(e).Sub(c), e, k)
    decreases |cfg.tree(e).Sub(c)|, 1, 0
  {
    var self, ex := c in cfg.dmns(k.key.sig), cfg.Expected(e, c, k.key.sig);
    var s1, done := Begins(cfg, s, c, e, k);
    s' := Collect(cfg, s1, c, e, k, done, self, ex - done, false);
    RollFrame(cfg, s, s1, s', c, e, k);
    AllAwaited(cfg, c, e, k, done);
  }

  lemma RollFrame(cfg: Config, s: State, s1: State, s2: State, c: nat, e: nat, k: Round)
    requires cfg.Valid() && c in cfg.tree(e).living
    requires Moves(cfg, s, s1, {c}, k) && Moves(cfg, s1, s2, cfg.tree(e).Sub(c), k)
    ensures Moves(cfg, s, s2, cfg.tree(e).Sub(c), k)
  {
    assert c in cfg.tree(e).Sub(c);
    MovesThen(cfg, s, s1, s2, {c}, cfg.tree(e).Sub(c), cfg.tree(e).Sub(c), k);
  }

  lemma AllAwaited(cfg: Config, c: nat, e: nat, k: Round, done: set<nat>)
    requires cfg.Valid() && done <= cfg.Expected(e, c, k.key.sig)
    ensures var ex, self := cfg.Expected(e, c, k.key.sig), c in cfg.dmns(k.key.sig);
            && Awaits(cfg, c, e, k, done + (ex - done), self) == 0
            && |ex - done| == Awaits(cfg, c, e, k, done, self)
  {
    var ex := cfg.Expected(e, c, k.key.sig);
    assert done + (ex - done) == ex;
  }

  /** The head of a branch takes the epoch and, if it takes part, counts itself. */
  lemma Begins(cfg: Config, s: State, c: nat, e: nat, k: Round) returns (s': State, done: set<nat>)
    requires cfg.Valid() && Reachable(cfg, s) && c in cfg.tree(e).living && Due(cfg, e, c, k.key.sig) != {}
    requires AllReady(cfg, s, cfg.tree(e).Sub(c), e, k)
    ensures done <= cfg.Expected(e, c, k.key.sig)
    ensures Poised(cfg, s', c, e, k, done, c in cfg.dmns(k.key.sig), false)
    ensures Moves(cfg, s, s', {c}, k) && (c != 0 ==> s'.log == s.log)
    ensures Pending(cfg, s', c, e, k, done, c in cfg.dmns(k.key.sig), cfg.Expected(e, c, k.key.sig) - done)
  {
    var sub := cfg.tree(e).Sub(c);
    assert c in sub;
    ReadyCalm(cfg, s, sub, e, k);
    s', done := BeginsSelf(cfg, s, c, e, k);
    CalmMoves(cfg, s, s', {c}, sub, e, k);
    BranchesStart(cfg, s, s', c, e, k);
    StaysReachable(cfg, s, s', {c}, k);
    AllAwaited(cfg, c, e, k, done);
    SomethingAwaited(cfg, c, e, k);
  }

  lemma BeginsSelf(cfg: Config, s: State, c: nat, e: nat, k: Round) returns (s': State, done: set<nat>)
    requires cfg.Valid() && Reachable(cfg, s) && Ready(cfg, s, c, e, k) && Due(cfg, e, c, k.key.sig) != {}
    ensures Moves(cfg, s, s', {c}, k) && Stands(cfg, s', c, e, k, done, c in cfg.dmns(k.key.sig))
    ensures c != 0 ==> s'.log == s.log
  {
    var self;
    s', done, self := Resumes(cfg, s, c, e, k);
    if c in cfg.dmns(k.key.sig) && !self {
      var s1 := s';
      StaysReachable(cfg, s, s1, {c}, k);
      CardLess(done, cfg.Expected(e, c, k.key.sig));
      s' := TakesPart(cfg, s1, c, e, k, done);
      MovesThen(cfg, s, s1, s', {c}, {c}, {c}, k);
    }
  }

  lemma BranchesStart(cfg: Config, s: State, s': State, b: nat, e: nat, k: Round)
    requires cfg.Valid() && AllReady(cfg, s, cfg.tree(e).Sub(b), e, k) && Moves(cfg, s, s', {b}, k)
    ensures BranchesReady(cfg, s', cfg.Expected(e, b, k.key.sig), e, k)
  {
    forall c | c in cfg.Expected(e, b, k.key.sig) ensures AllReady(cfg, s', cfg.tree(e).Sub(c), e, k) {
      SubChild(cfg, e, b, c);
      assert AllReady(cfg, s, cfg.tree(e).Sub(c), e, k);
      ReadyMoves(cfg, s, s', {b}, cfg.tree(e).Sub(c), e, k);
    }
  }

  /** Counting, with everybody below in order, and answered once the count is full. */
  ghost predicate Poised(cfg: Config, s: State, b: nat, e: nat, k: Round, done: set<nat>, self: bool, bad: bool)
    requires cfg.Valid()
  {
    && Reachable(cfg, s) && At(cfg, s, b, e, k, done, self, bad) && AllCalm(s, cfg.tree(e).Sub(b), e, k)
    && (Awaits(cfg, b, e, k, done, self) <= 0 && (done != {} || self) ==> Answered(cfg, s, b, e, k, bad))
  }

  /** Branches still to be heard from, no more than are awaited. */
  ghost predicate Pending(cfg: Config, s: State, b: nat, e: nat, k: Round, done: set<nat>, self: bool, todo: set<nat>)
    requires cfg.Valid()
  {
    && todo <= cfg.Expected(e, b, k.key.sig) && todo !! done && |todo| <= Awaits(cfg, b, e, k, done, self)
    && (done == {} && !self ==> todo != {})
    && BranchesReady(cfg, s, todo, e, k)
  }

  /** ... and what counting the branches `todo` as well amounts to. */
  ghost predicate Collected(cfg: Config, s: State, s': State, b: nat, e: nat, k: Round,
                            done: set<nat>, self: bool, todo: set<nat>, bad: bool)
    requires cfg.Valid()
  {
    && Poised(cfg, s', b, e, k, done + todo, self, bad) && (done + todo != {} || self)
    && Moves(cfg, s, s', cfg.tree(e).Sub(b), k) && (b != 0 ==> s'.log == s.log)
  }

  /** The awaited branches `todo` roll up and are counted, one after another. */
  lemma {:induction false} Collect(cfg: Config, s: State, b: nat, e: nat, k: Round,
                                   done: set<nat>, self: bool, todo: set<nat>, bad: bool)
    returns (s': State)
    requires cfg.Valid() && Poised(cfg, s, b, e, k, done, self, bad) && Pending(cfg, s, b, e, k, done, self, todo)
    ensures Collected(cfg, s, s', b, e, k, done, self, todo, bad)
    decreases |cfg.tree(e).Sub(b)|, 0, |todo|, 1
  {
    if todo == {} {
      s' := s;
      CollectNone(cfg, s, b, e, k, done, self, bad);
    } else {
      var c, s2 := CollectNext(cfg, s, b, e, k, done, self, todo, bad);
      s' := Collect(cfg, s2, b, e, k, done + {c}, self, todo - {c}, bad);
      CollectJoin(cfg, s, s2, s', b, e, k, done, self, todo, bad, c);
    }
  }

  lemma {:induction false} CollectNext(cfg: Config, s: State, b: nat, e: nat, k: Round,
                                       done: set<nat>, self: bool, todo: set<nat>, bad: bool)
    returns (c: nat, s': State)
    requires cfg.Valid() && Poised(cfg, s, b, e, k, done, self, bad) && Pending(cfg, s, b, e, k, done, self, todo)
    requires todo != {}
    ensures c in todo && c in cfg.tree(e).Children(b)
    ensures Poised(cfg, s', b, e, k, done + {c}, self, bad) && Pending(cfg, s', b, e, k, done + {c}, self, todo - {c})
    ensures Moves(cfg, s, s', cfg.tree(e).Sub(c) + {b}, k) && (b != 0 ==> s'.log == s.log)
    decreases |cfg.tree(e).Sub(b)|, 0, |todo|, 0
  {
    c :| c in todo;
    s' := CollectOne(cfg, s, b, e, k, done, self, c, bad);
    PendingNext(cfg, s, s', b, e, k, done, self, todo, c);
  }

  lemma CollectNone(cfg: Config, s: State, b: nat, e: nat, k: Round, done: set<nat>, self: bool, bad: bool)
    requires cfg.Valid() && Poised(cfg, s, b, e, k, done, self, bad) && (done != {} || self)
    ensures Collected(cfg, s, s, b, e, k, done, self, {}, bad)
  {
    MovesSelf(cfg, s, cfg.tree(e).Sub(b), k);
    assert done + {} == done;
  }

  lemma CollectJoin(cfg: Config, s: State, s1: State, s2: State, b: nat, e: nat, k: Round,
                    done: set<nat>, self: bool, todo: set<nat>, bad: bool, c: nat)
    requires cfg.Valid() && c in todo && c in cfg.tree(e).Children(b)
    requires Moves(cfg, s, s1, cfg.tree(e).Sub(c) + {b}, k) && (b != 0 ==> s1.log == s.log)
    requires Collected(cfg, s1, s2, b, e, k, done + {c}, self, todo - {c}, bad)
    ensures Collected(cfg, s, s2, b, e, k, done, self, todo, bad)
  {
    CollectFrame(cfg, s, s1, s2, b, c, e, k);
    JoinSets(done, todo, c);
  }

  lemma CollectFrame(cfg: Config, s: State, s1: State, s2: State, b: nat, c: nat, e: nat, k: Round)
    requires cfg.Valid() && c in cfg.tree(e).Children(b)
    requires Moves(cfg, s, s1, cfg.tree(e).Sub(c) + {b}, k) && Moves(cfg, s1, s2, cfg.tree(e).Sub(b), k)
    ensures Moves(cfg, s, s2, cfg.tree(e).Sub(b), k)
  {
    SubChild(cfg, e, b, c);
    MovesThen(cfg, s, s1, s2, cfg.tree(e).Sub(c) + {b}, cfg.tree(e).Sub(b), cfg.tree(e).Sub(b), k);
  }

  lemma JoinSets(done: set<nat>, todo: set<nat>, c: nat)
    requires c in todo
    ensures done + {c} + (todo - {c}) == done + todo
  {
  }

  lemma PendingNext(cfg: Config, s: State, s': State, b: nat, e: nat, k: Round,
                    done: set<nat>, self: bool, todo: set<nat>, c: nat)
    requires cfg.Valid() && Pending(cfg, s, b, e, k, done, self, todo) && c in todo
    requires Moves(cfg, s, s', cfg.tree(e).Sub(c) + {b}, k)
    ensures Pending(cfg, s', b, e, k, done + {c}, self, todo - {c})
  {
    BranchesMove(cfg, s, s', b, c, todo - {c}, e, k);
  }

  lemma {:induction false} CollectOne(cfg: Config, s: State, b: nat, e: nat, k: Round,
                                      done: set<nat>, self: bool, c: nat, bad: bool)
    returns (s': State)
    requires cfg.Valid() && Poised(cfg, s, b, e, k, done, self, bad)
    requires c in cfg.Expected(e, b, k.key.sig) && c !in done && Awaits(cfg, b, e, k, done, self) > 0
    requires AllReady(cfg, s, cfg.tree(e).Sub(c), e, k)
    ensures Poised(cfg, s', b, e, k, done + {c}, self, bad)
    ensures Moves(cfg, s, s', cfg.tree(e).Sub(c) + {b}, k) && (b != 0 ==> s'.log == s.log)
    decreases |cfg.tree(e).Sub(b)|, 0, 0
  {
    SubChild(cfg, e, b, c);
    DueOfSlot(cfg, b, e, k.key.sig, c);
    var s1 := RollsUp(cfg, s, c, e, k);
    assert At(cfg, s1, b, e, k, done, self, bad);
    s' := Hears(cfg, s1, b, e, k, c, false, done, self, bad);
    MovesThen(cfg, s, s1, s', cfg.tree(e).Sub(c), {b}, cfg.tree(e).Sub(c) + {b}, k);
    StaysReachable(cfg, s, s', cfg.tree(e).Sub(c) + {b}, k);
    CollectCalm(cfg, s, s1, s', b, c, e, k);
  }

  lemma CollectCalm(cfg: Config, s: State, s1: State, s2: State, b: nat, c: nat, e: nat, k: Round)
    requires cfg.Valid() && c in cfg.tree(e).Children(b) && AllCalm(s, cfg.tree(e).Sub(b), e, k)
    requires Moves(cfg, s, s1, cfg.tree(e).Sub(c), k) && AllCalm(s1, cfg.tree(e).Sub(c), e, k)
    requires Moves(cfg, s1, s2, {b}, k) && Calm(s2, b, e, k)
    ensures AllCalm(s2, cfg.tree(e).Sub(b), e, k)
  {
    CalmMoves(cfg, s, s1, cfg.tree(e).Sub(c), cfg.tree(e).Sub(b), e, k);
    CalmMoves(cfg, s1, s2, {b}, cfg.tree(e).Sub(b), e, k);
  }
}
