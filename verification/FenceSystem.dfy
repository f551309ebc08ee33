/** The DVM running fences: every daemon, everything on the wire, the broadcast
    log of releases. Contributions may be lost, delayed, duplicated and
    reordered; each daemon learns of each recovery epoch in its own time. */
module FenceSystem {
  import opened Fence
  import opened FenceContent

  /** `net` only grows: a message in it may be delivered any number of times, or never. */
  datatype State = State(ds: map<nat, Daemon>, net: set<Msg>, log: seq<Release>, calls: Calls)

  datatype Step =
    | FenceStep(d: nat, sig: Sig, op: Op, status: Status, data: Blob)
    | RecvStep(m: Msg)
    | EnterStep(d: nat, e: nat)
    | CheckStep(d: nat, k: Key)
    | AbortStep(k: Key, code: int)
    | ReleaseStep(d: nat)

  function Init(cfg: Config): State {
    State(map d | d in cfg.ranks :: Daemon(0, 0, map[], map[]), {}, [], map[])
  }

  /** Has a local client entered the round now open over `sig`? */
  predicate Called(d: Daemon, sig: Sig) {
    var k := Key(sig, GenNext(d, sig));
    k in d.ops && d.ops[k].mine.Some?
  }

  /** The PMIx server makes one up-call per daemon and round, and only on a
      daemon that hosts a participant. A daemon only takes an epoch it is
      living in; the master alone aborts, and only a round it has not answered. */
  predicate Enabled(cfg: Config, s: State, step: Step) {
    match step
    case FenceStep(d, sig, op, _, _) =>
      d in s.ds && d in cfg.dmns(sig) && op != Unknown && !Called(s.ds[d], sig)
    case RecvStep(m) => m in s.net && m.dst in s.ds && m.epoch == s.ds[m.dst].epoch
    case EnterStep(d, e) => d in s.ds && s.ds[d].epoch < e && d in cfg.tree(e).living
    case CheckStep(d, k) => d in s.ds && k in s.ds[d].ops
    case AbortStep(k, _) =>
      0 in s.ds && k in s.ds[0].ops && !s.ds[0].ops[k].converged && !s.ds[0].ops[k].aborting
    case ReleaseStep(d) => d in s.ds && s.ds[d].seen < |s.log|
  }

  /** Each daemon is living in the tree of the epoch it is at. */
  ghost predicate Placed(cfg: Config, s: State) {
    && s.ds.Keys == cfg.ranks
    && forall d :: d in s.ds ==> PlacedAt(cfg, d, s.ds[d].epoch)
  }

  predicate PlacedAt(cfg: Config, d: nat, e: nat) {
    d in cfg.tree(e).living && (d == 0 || d in cfg.tree(e).parent)
  }

  function Put(s: State, me: nat, o: Outcome): State {
    s.(ds := s.ds[me := o.d], net := s.net + o.out, log := s.log + o.rel)
  }

  function DoFence(cfg: Config, s: State, d: nat, sig: Sig, op: Op, status: Status, data: Blob): State
    requires cfg.Valid() && d in s.ds
  {
    Put(s, d, FenceCall(cfg, d, s.ds[d], sig, op, status, data))
      .(calls := s.calls[(d, Key(sig, GenNext(s.ds[d], sig))) := Call(op, data, status)])
  }

  function DoRecv(cfg: Config, s: State, m: Msg): State
    requires cfg.Valid() && Placed(cfg, s) && m.dst in s.ds
  {
    Put(s, m.dst, RecvNow(cfg, m.dst, s.ds[m.dst], m))
  }

  function DoCheck(cfg: Config, s: State, d: nat, k: Key): State
    requires cfg.Valid() && Placed(cfg, s) && d in s.ds && k in s.ds[d].ops
  {
    Put(s, d, Check(cfg, d, s.ds[d], k, s.ds[d].ops[k]))
  }

  function DoEnter(cfg: Config, s: State, d: nat, e: nat): State
    requires cfg.Valid() && d in s.ds
  {
    Put(s, d, Enter(cfg, d, s.ds[d], e))
  }

  function DoAbort(s: State, k: Key, code: int): State
    requires 0 in s.ds && k in s.ds[0].ops
  {
    Put(s, 0, Abort(s.ds[0], k, code))
  }

  function DoRelease(s: State, d: nat): State
    requires d in s.ds && s.ds[d].seen < |s.log|
  {
    s.(ds := s.ds[d := Retire(s.ds[d], s.log[s.ds[d].seen])])
  }

  function Do(cfg: Config, s: State, step: Step): State
    requires cfg.Valid() && Placed(cfg, s) && Enabled(cfg, s, step)
  {
    if step.FenceStep? then DoFence(cfg, s, step.d, step.sig, step.op, step.status, step.data)
    else if step.RecvStep? then DoRecv(cfg, s, step.m)
    else if step.EnterStep? then DoEnter(cfg, s, step.d, step.e)
    else if step.CheckStep? then DoCheck(cfg, s, step.d, step.k)
    else if step.AbortStep? then DoAbort(s, step.k, step.code)
    else DoRelease(s, step.d)
  }

  // ---- invariants ----

  /** What a tracker holds; one being torn down, or already answered by the
      master, only keeps the daemon's own contribution in order. */
  ghost predicate KeyOk(cfg: Config, calls: Calls, me: nat, e: nat, k: Key, t: Tracker)
    requires cfg.Valid()
  {
    && MineOk(cfg, calls, me, k, t)
    && (!Settled(me, t) ==> TrackOk(cfg, calls, me, e, k, t))
    && (t.aborting ==> me == 0)
  }

  ghost predicate OpsOk(cfg: Config, calls: Calls, me: nat, d: Daemon)
    requires cfg.Valid()
  {
    forall k :: k in d.ops ==> KeyOk(cfg, calls, me, d.epoch, k, d.ops[k])
  }

  /** Everything in the system stands for what it claims to. */
  ghost predicate Content(cfg: Config, s: State)
    requires cfg.Valid()
  {
    && (forall m :: m in s.net ==> MsgOk(cfg, s.calls, m))
    && (forall r :: r in s.log ==> RelOk(cfg, s.calls, r))
    && (forall d :: d in s.ds ==> OpsOk(cfg, s.calls, d, s.ds[d]))
  }

  /** The round is over for this daemon: it has processed the release. */
  predicate Past(d: Daemon, k: Key) { k.gen < GenNext(d, k.sig) }

  /** A call is remembered by its daemon until the round's release retires it. */
  ghost predicate CallHeld(s: State, x: nat, k: Key) {
    x in s.ds && (Past(s.ds[x], k) || (k in s.ds[x].ops && s.ds[x].ops[k].mine.Some?))
  }

  /** A message sent to oneself carries the operation the tracker settled on. */
  ghost predicate SelfHeld(s: State, m: Msg) {
    m.src in s.ds
    && (Past(s.ds[m.src], m.key)
        || (m.key in s.ds[m.src].ops && s.ds[m.src].ops[m.key].mine.Some?
            && s.ds[m.src].ops[m.key].mine.value.op == m.op))
  }

  /** A daemon that rolled a round up at its current epoch is not about to do it again. */
  ghost predicate SentHeld(s: State, m: Msg) {
    m.src in s.ds && m.epoch <= s.ds[m.src].epoch
    && (m.epoch == s.ds[m.src].epoch ==>
          Past(s.ds[m.src], m.key) || (m.key in s.ds[m.src].ops && s.ds[m.src].ops[m.key].converged))
  }

  /** The same daemon answering the same round at the same epoch. */
  predicate SameAnswer(m: Msg, n: Msg) {
    m.src == n.src && m.epoch == n.epoch && m.key == n.key && m.src != m.dst && n.src != n.dst
  }

  ghost predicate Links(s: State) {
    && (forall x, k :: (x, k) in s.calls ==> CallHeld(s, x, k))
    && (forall m :: m in s.net && m.src == m.dst ==> SelfHeld(s, m))
    && (forall m :: m in s.net && m.src != m.dst ==> SentHeld(s, m))
    && (forall m, n :: m in s.net && n in s.net && SameAnswer(m, n) ==> m == n)
  }

  /** How many rounds over `sig` the first `n` releases of a log have ended. */
  function Count(log: seq<Release>, n: nat, sig: Sig): nat
    requires n <= |log|
  {
    if n == 0 then 0
    else Count(log, n - 1, sig) + if log[n - 1].key.sig == sig then 1 else 0
  }

  /** Rounds over one signature are released in order, once each. */
  ghost predicate LogOrdered(log: seq<Release>) {
    forall i :: 0 <= i < |log| ==> OrderedAt(log, i)
  }

  predicate OrderedAt(log: seq<Release>, i: nat)
    requires i < |log|
  {
    log[i].key.gen == Count(log, i, log[i].key.sig)
  }

  /** A daemon's counter is the number of rounds it has seen released, its
      trackers are for rounds it has not, and none is past the round now open. */
  ghost predicate InStep(log: seq<Release>, d: Daemon) {
    && d.seen <= |log|
    && (forall sig :: GenNext(d, sig) == Count(log, d.seen, sig))
    && (forall k :: k in d.ops ==> !Past(d, k) && k.gen <= Count(log, |log|, k.sig))
  }

  /** The master's unanswered trackers are for the round now open, and it keeps
      the answered ones until their release comes back around. */
  ghost predicate AtHelm(log: seq<Release>, d: Daemon) {
    && d.seen <= |log|
    && (forall k :: k in d.ops && !Settled(0, d.ops[k]) ==> k.gen == Count(log, |log|, k.sig))
    && (forall i :: d.seen <= i < |log| ==> log[i].key in d.ops && Settled(0, d.ops[log[i].key]))
  }

  ghost predicate Rounds(s: State) {
    && 0 in s.ds
    && LogOrdered(s.log)
    && (forall d :: d in s.ds ==> InStep(s.log, s.ds[d]))
    && (forall m :: m in s.net ==> m.key.gen <= Count(s.log, |s.log|, m.key.sig))
    && AtHelm(s.log, s.ds[0])
  }

  ghost predicate Inv(cfg: Config, s: State)
    requires cfg.Valid()
  {
    Placed(cfg, s) && Content(cfg, s) && Links(s) && Rounds(s)
  }

  lemma InitInv(cfg: Config)
    requires cfg.Valid()
    ensures Inv(cfg, Init(cfg))
  {
    assert 0 in cfg.tree(0).living;
  }

  // ---- counting rounds ----

  lemma {:induction false} CountMono(log: seq<Release>, i: nat, j: nat, sig: Sig)
    requires i <= j <= |log|
    ensures Count(log, i, sig) <= Count(log, j, sig)
    decreases j
  {
    if i < j { CountMono(log, i, j - 1, sig); }
  }

  lemma {:induction false} CountPrefix(a: seq<Release>, b: seq<Release>, n: nat, sig: Sig)
    requires n <= |a| <= |b| && a == b[..|a|]
    ensures Count(a, n, sig) == Count(b, n, sig)
  {
    if n > 0 { CountPrefix(a, b, n - 1, sig); }
  }

  lemma CountAppend(log: seq<Release>, r: Release, sig: Sig)
    ensures Count(log + [r], |log| + 1, sig)
         == Count(log, |log|, sig) + if r.key.sig == sig then 1 else 0
    ensures forall n :: 0 <= n <= |log| ==> Count(log + [r], n, sig) == Count(log, n, sig)
  {
    forall n | 0 <= n <= |log| ensures Count(log + [r], n, sig) == Count(log, n, sig) {
      CountPrefix(log, log + [r], n, sig);
    }
  }
}
