/** What one daemon does to a fence: the tracker, the contribution that arrives,
    the restart at a new recovery epoch, the abort and the release.

    Every function here is one event-loop callback of the daemon, on values. */
module Fence {
  import opened RoutingTree

  datatype Rank = Wildcard | Invalid | Rank(r: nat)
  datatype Proc = Proc(nspace: string, rank: Rank)

  /** A fence is named by its participant list and nothing else. */
  type Sig = seq<Proc>

  /** A tracker's identity: the participants and the round over them. */
  datatype Key = Key(sig: Sig, gen: nat)

  /** UNKNOWN is "no contribution has said yet", not a third operation. */
  datatype Op = Unknown | Barrier | Allgather

  datatype Status = Success | InvalidArg | Error(code: int)

  const TIMED_OUT: Status := Error(-24)
  const NOT_FOUND: Status := Error(-46)

  type Blob = seq<nat>

  /** One daemon's block of the gathered result. */
  datatype Item = Item(owner: nat, data: Blob)

  /** The contribution a daemon saves so that a restart can replay it. */
  datatype Offer = Offer(op: Op, status: Status, payload: seq<Item>)

  /** `arrived` and `short` are history: whose calls a count stands for, and
      whether a branch was counted that nothing was awaited from. */
  datatype Tracker = Tracker(
    op: Op, status: Status,
    slots: set<nat>, self: bool, nreported: nat, nexpected: nat,
    converged: bool, aborting: bool,
    bucket: seq<Item>, mine: Option<Offer>,
    arrived: set<nat>, short: bool)

  datatype Msg = Msg(src: nat, dst: nat, epoch: nat, key: Key,
                     op: Op, status: Status, payload: seq<Item>,
                     arrived: set<nat>, short: bool)

  /** `aborted` is history too: the round was ended without its data. */
  datatype Release = Release(key: Key, status: Status, data: seq<Item>,
                             epoch: nat, op: Op, arrived: set<nat>, short: bool, aborted: bool)

  /** `seen` counts the releases this daemon has processed, in broadcast order. */
  datatype Daemon = Daemon(epoch: nat, seen: nat, gens: map<Sig, nat>, ops: map<Key, Tracker>)

  /** The routing tree each recovery epoch stands for, and the daemons hosting
      each signature's participants. */
  datatype Config = Config(ranks: set<nat>, tree: nat -> Tree, dmns: Sig -> set<nat>)
  {
    ghost predicate Valid() {
      && tree(0).living == ranks
      && forall e: nat :: tree(e).Valid() && tree(e).living <= ranks
    }

    /** The child slots of `d` that still hold a living participant. */
    function Expected(e: nat, d: nat, sig: Sig): set<nat>
      requires Valid()
    {
      set c | c in tree(e).Children(d) && tree(e).Sub(c) * dmns(sig) != {}
    }

    /** set_nexpected: one per such slot, plus our own if we take part. */
    function NumExpected(e: nat, d: nat, sig: Sig): nat
      requires Valid()
    {
      |Expected(e, d, sig)| + if d in dmns(sig) then 1 else 0
    }

    /** The participants an epoch's tree still holds. */
    function Part(e: nat, sig: Sig): set<nat> { tree(e).living * dmns(sig) }
  }

  /** What a callback leaves behind: the daemon, what it sent, what it broadcast. */
  datatype Outcome = Outcome(d: Daemon, out: set<Msg>, rel: seq<Release>)

  /** The round a daemon present from the start takes to be current. */
  function GenNext(d: Daemon, sig: Sig): nat {
    if sig in d.gens then d.gens[sig] else 0
  }

  function NewTracker(cfg: Config, me: nat, e: nat, sig: Sig): Tracker
    requires cfg.Valid()
  {
    Tracker(Unknown, Success, {}, false, 0, cfg.NumExpected(e, me, sig), false, false, [], None, {}, false)
  }

  /** get_tracker with `create`: the live tracker of that identity, or a fresh one. */
  function TrackerFor(cfg: Config, me: nat, d: Daemon, k: Key): Tracker
    requires cfg.Valid()
  {
    if k in d.ops then d.ops[k] else NewTracker(cfg, me, d.epoch, k.sig)
  }

  /** Fold an operation in: adopt the first one named, flag a disagreement. */
  function MergeOp(t: Tracker, op: Op): Tracker {
    if op == Unknown then t
    else if t.op == Unknown then t.(op := op)
    else if t.op == op || t.status != Success then t
    else t.(status := InvalidArg)
  }

  /** A local client entered the fence: file the contribution and send it to ourselves. */
  function FenceCall(cfg: Config, me: nat, d: Daemon, sig: Sig, op: Op, status: Status, data: Blob): Outcome
    requires cfg.Valid()
  {
    var k := Key(sig, GenNext(d, sig));
    var t := MergeOp(TrackerFor(cfg, me, d, k), op);
    var offer := Offer(t.op, status, if t.op == Allgather then [Item(me, data)] else []);
    Outcome(d.(ops := d.ops[k := t.(mine := Some(offer))]), {SelfMsg(me, d.epoch, k, offer)}, [])
  }

  function SelfMsg(me: nat, e: nat, k: Key, offer: Offer): Msg {
    Msg(me, me, e, k, offer.op, offer.status, offer.payload, {me}, false)
  }

  /** Has this slot (None: our own) been heard from already? */
  predicate Counted(t: Tracker, slot: Option<nat>) {
    match slot
    case None => t.self
    case Some(c) => c in t.slots
  }

  /** Merge a contribution and commit the accounting for its slot. */
  function Absorb(cfg: Config, me: nat, e: nat, t: Tracker, m: Msg, slot: Option<nat>): Tracker
    requires cfg.Valid()
  {
    t.(status := if t.status == Success then m.status else t.status,
       bucket := if t.op == Allgather then t.bucket + m.payload else t.bucket,
       slots := if slot.Some? then t.slots + {slot.value} else t.slots,
       self := t.self || slot.None?,
       nreported := t.nreported + 1,
       arrived := t.arrived + m.arrived,
       short := t.short || m.short
                || (slot.Some? && slot.value !in cfg.Expected(e, me, m.key.sig) && t.nexpected > 0))
  }

  /** The gathered bucket; a barrier has none. */
  function Gathering(t: Tracker): seq<Item> { if t.op != Barrier then t.bucket else [] }

  /** The aggregate of our subtree, for our parent. */
  function RollUp(me: nat, parent: nat, e: nat, k: Key, t: Tracker): Msg {
    Msg(me, parent, e, k, t.op, t.status, Gathering(t), t.arrived, t.short)
  }

  /** The master's answer to the whole DVM. */
  function Answer(e: nat, k: Key, t: Tracker): Release {
    Release(k, t.status, Gathering(t), e, t.op, t.arrived, t.short, false)
  }

  /** check_complete: answer a tracker whose count is in, once. The master
      broadcasts the release; everyone else rolls its bucket up to its parent. */
  function Check(cfg: Config, me: nat, d: Daemon, k: Key, t: Tracker): Outcome
    requires cfg.Valid()
    requires me == 0 || me in cfg.tree(d.epoch).parent
  {
    if t.converged || t.aborting || t.nreported < t.nexpected then
      Outcome(d.(ops := d.ops[k := t]), {}, [])
    else
      var d' := d.(ops := d.ops[k := t.(converged := true)]);
      if me == 0 then Outcome(d', {}, [Answer(d.epoch, k, t)])
      else Outcome(d', {RollUp(me, cfg.tree(d.epoch).parent[me], d.epoch, k, t)}, [])
  }

  /** fence_recv for a message of our own epoch. */
  function RecvNow(cfg: Config, me: nat, d: Daemon, m: Msg): Outcome
    requires cfg.Valid()
    requires me == 0 || me in cfg.tree(d.epoch).parent
  {
    var slot := cfg.tree(d.epoch).SlotOf(m.src, me);
    if m.key.gen < GenNext(d, m.key.sig) then Outcome(d, {}, [])
    else if m.src != me && slot.None? then Outcome(d, {}, [])
    else
      var from := if m.src == me then None else slot;
      var t := MergeOp(TrackerFor(cfg, me, d, m.key), m.op);
      if Counted(t, from) then Outcome(d.(ops := d.ops[m.key := t]), {}, [])
      else Check(cfg, me, d, m.key, Absorb(cfg, me, d.epoch, t, m, from))
  }

  /** A tracker the restart leaves alone: being torn down, or already answered
      by the master, whose release is on the wire. */
  predicate Settled(me: nat, t: Tracker) {
    t.aborting || (me == 0 && t.converged)
  }

  /** Throw away everything gathered under the old tree and size the new one.
      The operation and the status are kept. */
  function Reset(cfg: Config, me: nat, e: nat, sig: Sig, t: Tracker): Tracker
    requires cfg.Valid()
  {
    if Settled(me, t) then t
    else t.(slots := {}, self := false, nreported := 0, converged := false, bucket := [],
            nexpected := cfg.NumExpected(e, me, sig), arrived := {}, short := false)
  }

  /** fence_restart: reset every tracker and replay our own saved contributions. */
  function Enter(cfg: Config, me: nat, d: Daemon, e: nat): Outcome
    requires cfg.Valid()
  {
    Outcome(d.(epoch := e, ops := map k | k in d.ops :: Reset(cfg, me, e, k.sig, d.ops[k])),
            set k | k in d.ops && !Settled(me, d.ops[k]) && d.ops[k].mine.Some?
              :: SelfMsg(me, e, k, d.ops[k].mine.value),
            [])
  }

  /** abort_fence_op, on the master: end a round without its data. */
  function Abort(d: Daemon, k: Key, code: int): Outcome
    requires k in d.ops
  {
    var t := d.ops[k];
    Outcome(d.(ops := d.ops[k := t.(aborting := true)]), {},
            [Release(k, Error(code), [], d.epoch, t.op, {}, true, true)])
  }

  /** fence_release_process: remember the round and retire its tracker. */
  function Retire(d: Daemon, r: Release): Daemon {
    var next := if GenNext(d, r.key.sig) < r.key.gen + 1 then r.key.gen + 1 else GenNext(d, r.key.sig);
    d.(seen := d.seen + 1, gens := d.gens[r.key.sig := next], ops := d.ops - {r.key})
  }
}
