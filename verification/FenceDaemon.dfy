/** The daemon as it is written: a list of trackers searched, extended and
    updated in place, and the loops over it. Every method is proved against the
    step functions of module Fence, so what holds of all runs holds of it. */
module FenceDaemon {
  import opened RoutingTree
  import opened Fence
  import ProcsLost

  datatype Entry = Entry(key: Key, t: Tracker)

  /** The list holds each identity once, and the map says what it holds. */
  ghost predicate Lists(es: seq<Entry>, ops: map<Key, Tracker>) {
    && (forall i, j :: 0 <= i < j < |es| ==> es[i].key != es[j].key)
    && (forall i :: 0 <= i < |es| ==> es[i].key in ops && ops[es[i].key] == es[i].t)
    && (forall k {:trigger Listed(es, k)} :: k in ops ==> Listed(es, k))
  }

  ghost predicate Listed(es: seq<Entry>, k: Key) { exists i :: 0 <= i < |es| && es[i].key == k }

  lemma ListsSet(es: seq<Entry>, ops: map<Key, Tracker>, i: nat, t: Tracker)
    requires Lists(es, ops) && i < |es|
    ensures Lists(es[i := es[i].(t := t)], ops[es[i].key := t])
  {
    var es' := es[i := es[i].(t := t)];
    forall k | k in ops ensures Listed(es', k) {
      assert Listed(es, k);
      var j :| 0 <= j < |es| && es[j].key == k;
      assert es'[j].key == k;
    }
  }

  lemma ListsAdd(es: seq<Entry>, ops: map<Key, Tracker>, k: Key, t: Tracker)
    requires Lists(es, ops) && k !in ops
    ensures Lists(es + [Entry(k, t)], ops[k := t])
  {
    var es' := es + [Entry(k, t)];
    assert es'[|es|].key == k;
    forall j | j in ops ensures Listed(es', j) {
      assert Listed(es, j);
      var i :| 0 <= i < |es| && es[i].key == j;
      assert es'[i].key == j;
    }
  }

  lemma ListsDrop(es: seq<Entry>, ops: map<Key, Tracker>, i: nat)
    requires Lists(es, ops) && i < |es|
    ensures Lists(es[..i] + es[i + 1..], ops - {es[i].key})
  {
    var es' := es[..i] + es[i + 1..];
    forall k | k in ops - {es[i].key} ensures Listed(es', k) {
      assert Listed(es, k);
      var j :| 0 <= j < |es| && es[j].key == k;
      assert es'[if j < i then j else j - 1].key == k;
    }
  }

  function Wire(out: seq<Msg>): set<Msg> { set m | m in out }

  lemma WireOne(m: Msg)
    ensures Wire([m]) == {m} && Wire([]) == {}
  {
  }

  lemma WireAdd(a: seq<Msg>, b: seq<Msg>)
    ensures Wire(a + b) == Wire(a) + Wire(b)
  {
  }

  lemma Overwrite(ops: map<Key, Tracker>, k: Key, t: Tracker, t': Tracker)
    ensures ops[k := t][k := t'] == ops[k := t']
  {
  }

  /** Testing a tracker does not depend on what its entry held before. */
  lemma CheckOver(cfg: Config, me: nat, d: Daemon, k: Key, t: Tracker)
    requires cfg.Valid() && (me == 0 || me in cfg.tree(d.epoch).parent)
    ensures Check(cfg, me, d.(ops := d.ops[k := t]), k, t) == Check(cfg, me, d, k, t)
  {
    Overwrite(d.ops, k, t, t);
    Overwrite(d.ops, k, t, t.(converged := true));
  }

  /** What a participant list resolves to: the daemons by name, or, for the
      daemons' own job, all of them without a list. */
  datatype Hosts = Whole | Named(list: seq<nat>)

  ghost predicate HostsOf(cfg: Config, hosts: Sig -> Hosts) {
    forall sig :: cfg.dmns(sig) == if hosts(sig).Whole? then cfg.ranks else set x | x in hosts(sig).list
  }

  /** The slot a living participant reports through is awaited, and only those are. */
  lemma AwaitedSlots(cfg: Config, e: nat, me: nat, sig: Sig, slots: set<nat>)
    requires cfg.Valid()
    requires forall x :: x in cfg.dmns(sig) && cfg.tree(e).SlotOf(x, me).Some?
               ==> cfg.tree(e).SlotOf(x, me).value in slots
    requires forall c :: c in slots ==> exists x :: x in cfg.dmns(sig) && cfg.tree(e).SlotOf(x, me) == Some(c)
    ensures slots == cfg.Expected(e, me, sig)
  {
    var tr := cfg.tree(e);
    forall c | c in slots ensures c in cfg.Expected(e, me, sig) {
      var x :| x in cfg.dmns(sig) && tr.SlotOf(x, me) == Some(c);
      assert x in tr.Sub(c) * cfg.dmns(sig);
    }
    forall c | c in cfg.Expected(e, me, sig) ensures c in slots {
      var x :| x in tr.Sub(c) * cfg.dmns(sig);
      tr.SiblingsDisjoint(me, c, tr.SlotOf(x, me).value, x);
    }
  }

  /** What a contribution does once it is known to be current and ours. */
  function Join(cfg: Config, me: nat, d: Daemon, m: Msg, from: Option<nat>): Outcome
    requires cfg.Valid() && (me == 0 || me in cfg.tree(d.epoch).parent)
  {
    var t := MergeOp(TrackerFor(cfg, me, d, m.key), m.op);
    if Counted(t, from) then Outcome(d.(ops := d.ops[m.key := t]), {}, [])
    else Check(cfg, me, d, m.key, Absorb(cfg, me, d.epoch, t, m, from))
  }

  // ---- the restart, one tracker after another ----

  /** A relay's tracker is tested again with no message in hand. */
  function Recheck(cfg: Config, me: nat, d: Daemon, k: Key): Outcome
    requires cfg.Valid() && (me == 0 || me in cfg.tree(d.epoch).parent)
  {
    if k in d.ops && d.ops[k].mine.None? then Check(cfg, me, d, k, d.ops[k]) else Outcome(d, {}, [])
  }

  function Rechecks(cfg: Config, me: nat, d: Daemon, ks: seq<Key>): (o: Outcome)
    requires cfg.Valid() && (me == 0 || me in cfg.tree(d.epoch).parent)
    ensures o.d.epoch == d.epoch
  {
    if ks == [] then Outcome(d, {}, [])
    else
      var o := Rechecks(cfg, me, d, ks[..|ks| - 1]);
      var c := Recheck(cfg, me, o.d, ks[|ks| - 1]);
      Outcome(c.d, o.out + c.out, o.rel + c.rel)
  }

  /** fence_restart: every tracker is reset or left, our own contributions are
      replayed, and those with none of ours are tested in list order. */
  function Restart(cfg: Config, me: nat, d: Daemon, e: nat, ks: seq<Key>): Outcome
    requires cfg.Valid() && (me == 0 || me in cfg.tree(e).parent)
  {
    var o := Enter(cfg, me, d, e);
    var c := Rechecks(cfg, me, o.d, ks);
    Outcome(c.d, o.out + c.out, c.rel)
  }

  function KeysOf(es: seq<Entry>): (ks: seq<Key>)
    ensures |ks| == |es| && forall i :: 0 <= i < |es| ==> ks[i] == es[i].key
  {
    seq(|es|, i requires 0 <= i < |es| => es[i].key)
  }

  /** What testing leaves of a tracker. */
  function Tested(t: Tracker): Tracker {
    if t.mine.None? && !t.converged && !t.aborting && t.nreported >= t.nexpected then t.(converged := true) else t
  }

  /** ... and what it sends and broadcasts. */
  function TestSends(cfg: Config, me: nat, e: nat, k: Key, t: Tracker): (set<Msg>, seq<Release>)
    requires cfg.Valid() && (me == 0 || me in cfg.tree(e).parent)
  {
    if Tested(t) == t then ({}, [])
    else if me == 0 then ({}, [Answer(e, k, t)])
    else ({RollUp(me, cfg.tree(e).parent[me], e, k, t)}, [])
  }

  lemma RecheckOne(cfg: Config, me: nat, d: Daemon, k: Key)
    requires cfg.Valid() && (me == 0 || me in cfg.tree(d.epoch).parent) && k in d.ops
    ensures Recheck(cfg, me, d, k).d == d.(ops := d.ops[k := Tested(d.ops[k])])
  {
    assert d.ops[k := d.ops[k]] == d.ops;
  }

  lemma RecheckSends(cfg: Config, me: nat, d: Daemon, k: Key)
    requires cfg.Valid() && (me == 0 || me in cfg.tree(d.epoch).parent) && k in d.ops
    ensures (Recheck(cfg, me, d, k).out, Recheck(cfg, me, d, k).rel) == TestSends(cfg, me, d.epoch, k, d.ops[k])
  {
  }

  /** Testing some trackers leaves the others as they were. */
  lemma {:induction false} RechecksElsewhere(cfg: Config, me: nat, d: Daemon, ks: seq<Key>, k: Key)
    requires cfg.Valid() && (me == 0 || me in cfg.tree(d.epoch).parent)
    requires k !in ks && k in d.ops
    ensures var o := Rechecks(cfg, me, d, ks); k in o.d.ops && o.d.ops[k] == d.ops[k]
  {
    if ks != [] { RechecksElsewhere(cfg, me, d, ks[..|ks| - 1], k); }
  }

  /** One more tracker of the list tested. */
  lemma RechecksNext(cfg: Config, me: nat, d: Daemon, ks: seq<Key>, n: nat)
    requires cfg.Valid() && (me == 0 || me in cfg.tree(d.epoch).parent) && n < |ks|
    requires ks[n] !in ks[..n] && ks[n] in d.ops
    ensures var o, o', w := Rechecks(cfg, me, d, ks[..n]), Rechecks(cfg, me, d, ks[..n + 1]),
                            TestSends(cfg, me, d.epoch, ks[n], d.ops[ks[n]]);
            o'.out == o.out + w.0 && o'.rel == o.rel + w.1
  {
    assert ks[..n + 1][..n] == ks[..n];
    RechecksElsewhere(cfg, me, d, ks[..n], ks[n]);
    RecheckSends(cfg, me, Rechecks(cfg, me, d, ks[..n]).d, ks[n]);
  }

  function Replay(me: nat, e: nat, k: Key, t: Tracker): set<Msg> {
    if !Settled(me, t) && t.mine.Some? then {SelfMsg(me, e, k, t.mine.value)} else {}
  }

  /** One entry's turn in the restart: what becomes of it, and what it sends. */
  ghost predicate Turn(cfg: Config, me: nat, e: nat, x: Entry, t: Tracker, out: set<Msg>, rel: seq<Release>)
    requires cfg.Valid() && (me == 0 || me in cfg.tree(e).parent)
  {
    var r := Reset(cfg, me, e, x.key.sig, x.t);
    && t == Tested(r)
    && out == Replay(me, e, x.key, x.t) + TestSends(cfg, me, e, x.key, r).0
    && rel == TestSends(cfg, me, e, x.key, r).1
  }

  function Replays(me: nat, e: nat, es: seq<Entry>): set<Msg> {
    if es == [] then {} else Replays(me, e, es[..|es| - 1]) + Replay(me, e, es[|es| - 1].key, es[|es| - 1].t)
  }

  lemma {:induction false} ReplaysAll(me: nat, e: nat, es: seq<Entry>, m: Msg)
    ensures m in Replays(me, e, es) <==> exists i :: 0 <= i < |es| && m in Replay(me, e, es[i].key, es[i].t)
  {
    if es != [] {
      ReplaysAll(me, e, es[..|es| - 1], m);
      if i :| 0 <= i < |es| && m in Replay(me, e, es[i].key, es[i].t) {
        assert i < |es| - 1 ==> es[..|es| - 1][i] == es[i];
      }
    }
  }

  lemma EnterReplays(cfg: Config, me: nat, d: Daemon, e: nat, es: seq<Entry>)
    requires cfg.Valid() && Lists(es, d.ops)
    ensures Enter(cfg, me, d, e).out == Replays(me, e, es)
  {
    var out := Enter(cfg, me, d, e).out;
    forall m ensures m in out <==> m in Replays(me, e, es) {
      ReplaysAll(me, e, es, m);
      if m in out {
        var k :| k in d.ops && !Settled(me, d.ops[k]) && d.ops[k].mine.Some?
                 && m == SelfMsg(me, e, k, d.ops[k].mine.value);
        assert Listed(es, k);
        var i :| 0 <= i < |es| && es[i].key == k;
        assert m in Replay(me, e, es[i].key, es[i].t);
      }
    }
  }

  /** Testing each tracker of the list once tests them all. */
  lemma {:induction false} RechecksTest(cfg: Config, me: nat, d: Daemon, ks: seq<Key>)
    requires cfg.Valid() && (me == 0 || me in cfg.tree(d.epoch).parent)
    requires (forall i, j :: 0 <= i < j < |ks| ==> ks[i] != ks[j]) && (forall k :: k in ks ==> k in d.ops)
    ensures Rechecks(cfg, me, d, ks).d
         == d.(ops := map k | k in d.ops :: if k in ks then Tested(d.ops[k]) else d.ops[k])
  {
    if ks == [] {
      assert d.ops == map k | k in d.ops :: d.ops[k];
    } else {
      var ks', k := ks[..|ks| - 1], ks[|ks| - 1];
      RechecksTest(cfg, me, d, ks');
      RecheckOne(cfg, me, Rechecks(cfg, me, d, ks').d, k);
    }
  }

  /** What the first `n` turns have sent. */
  ghost predicate TurnsSent(cfg: Config, me: nat, d: Daemon, e: nat, es: seq<Entry>, n: nat,
                            out: set<Msg>, rel: seq<Release>)
    requires cfg.Valid() && (me == 0 || me in cfg.tree(e).parent) && n <= |es|
  {
    var c := Rechecks(cfg, me, Enter(cfg, me, d, e).d, KeysOf(es)[..n]);
    out == Replays(me, e, es[..n]) + c.out && rel == c.rel
  }

  lemma TurnsNext(cfg: Config, me: nat, d: Daemon, e: nat, es: seq<Entry>, n: nat, t: Tracker,
                  out: set<Msg>, rel: seq<Release>, out1: set<Msg>, rel1: seq<Release>)
    requires cfg.Valid() && (me == 0 || me in cfg.tree(e).parent) && Lists(es, d.ops) && n < |es|
    requires TurnsSent(cfg, me, d, e, es, n, out, rel) && Turn(cfg, me, e, es[n], t, out1, rel1)
    ensures TurnsSent(cfg, me, d, e, es, n + 1, out + out1, rel + rel1)
  {
    assert es[..n + 1][..n] == es[..n];
    RechecksNext(cfg, me, Enter(cfg, me, d, e).d, KeysOf(es), n);
  }

  /** What the restart makes of every tracker. */
  function Targets(cfg: Config, me: nat, d: Daemon, e: nat): map<Key, Tracker>
    requires cfg.Valid()
  {
    map k | k in d.ops :: Tested(Reset(cfg, me, e, k.sig, d.ops[k]))
  }

  /** The list after the first `n` turns. */
  ghost predicate Progress(d: Daemon, es: seq<Entry>, n: nat, targets: map<Key, Tracker>,
                           d': Daemon, es': seq<Entry>)
  {
    && n <= |es| == |es'|
    && d'.epoch == d.epoch && d'.seen == d.seen && d'.gens == d.gens
    && Lists(es', d'.ops)
    && (forall j :: 0 <= j < |es| ==> es'[j].key == es[j].key && es[j].key in targets)
    && (forall j :: n <= j < |es| ==> es'[j] == es[j])
    && (forall j :: 0 <= j < n ==> es'[j].t == targets[es[j].key])
  }

  lemma ProgressNext(d: Daemon, es: seq<Entry>, n: nat, targets: map<Key, Tracker>,
                     d1: Daemon, es1: seq<Entry>, t: Tracker, d2: Daemon, es2: seq<Entry>)
    requires Progress(d, es, n, targets, d1, es1) && n < |es| && t == targets[es[n].key]
    requires d2 == d1.(ops := d2.ops) && Lists(es2, d2.ops) && es2 == es1[n := Entry(es1[n].key, t)]
    ensures Progress(d, es, n + 1, targets, d2, es2)
  {
  }

  lemma ProgressAll(d: Daemon, es: seq<Entry>, targets: map<Key, Tracker>, d': Daemon, es': seq<Entry>)
    requires Progress(d, es, |es|, targets, d', es') && Lists(es, d.ops) && targets.Keys == d.ops.Keys
    ensures d' == d.(ops := targets)
  {
    forall k ensures k in d'.ops <==> k in targets {
      if k in d'.ops { assert Listed(es', k); }
      if k in targets { assert Listed(es, k); }
    }
    forall k | k in targets ensures d'.ops[k] == targets[k] {
      assert Listed(es, k);
      var i :| 0 <= i < |es| && es[i].key == k;
      assert es'[i].key == k;
    }
  }

  /** Every turn taken is the whole restart. */
  lemma TurnsAll(cfg: Config, me: nat, d: Daemon, e: nat, es: seq<Entry>, out: set<Msg>, rel: seq<Release>)
    requires cfg.Valid() && (me == 0 || me in cfg.tree(e).parent) && Lists(es, d.ops)
    requires TurnsSent(cfg, me, d, e, es, |es|, out, rel)
    ensures Outcome(d.(epoch := e, ops := Targets(cfg, me, d, e)), out, rel) == Restart(cfg, me, d, e, KeysOf(es))
  {
    assert es[..|es|] == es && KeysOf(es)[..|es|] == KeysOf(es);
    EnterReplays(cfg, me, d, e, es);
    KeysAll(es, d.ops);
    TurnsTarget(cfg, me, d, e, KeysOf(es));
  }

  lemma KeysAll(es: seq<Entry>, ops: map<Key, Tracker>)
    requires Lists(es, ops)
    ensures forall k :: k in KeysOf(es) <==> k in ops
    ensures forall i, j :: 0 <= i < j < |es| ==> KeysOf(es)[i] != KeysOf(es)[j]
  {
    forall k | k in ops ensures k in KeysOf(es) {
      assert Listed(es, k);
      var i :| 0 <= i < |es| && es[i].key == k;
      assert KeysOf(es)[i] == k;
    }
  }

  lemma TurnsTarget(cfg: Config, me: nat, d: Daemon, e: nat, ks: seq<Key>)
    requires cfg.Valid() && (me == 0 || me in cfg.tree(e).parent)
    requires (forall k :: k in ks <==> k in d.ops) && (forall i, j :: 0 <= i < j < |ks| ==> ks[i] != ks[j])
    ensures Rechecks(cfg, me, Enter(cfg, me, d, e).d, ks).d == d.(epoch := e, ops := Targets(cfg, me, d, e))
  {
    var d0 := Enter(cfg, me, d, e).d;
    RechecksTest(cfg, me, d0, ks);
    assert (map k | k in d0.ops :: if k in ks then Tested(d0.ops[k]) else d0.ops[k]) == Targets(cfg, me, d, e);
  }

  /** The restart from `d0` at epoch `e`, after `n` turns. */
  ghost predicate Underway(cfg: Config, me: nat, d0: Daemon, e: nat, es: seq<Entry>, n: nat,
                           d: Daemon, ops: seq<Entry>, out: seq<Msg>, rel: seq<Release>)
    requires cfg.Valid() && (me == 0 || me in cfg.tree(e).parent)
  {
    && Lists(es, d0.ops)
    && Progress(d0.(epoch := e), es, n, Targets(cfg, me, d0, e), d, ops)
    && TurnsSent(cfg, me, d0, e, es, n, Wire(out), rel)
  }

  lemma UnderwayStart(cfg: Config, me: nat, d: Daemon, e: nat, es: seq<Entry>)
    requires cfg.Valid() && (me == 0 || me in cfg.tree(e).parent) && Lists(es, d.ops)
    ensures Underway(cfg, me, d, e, es, 0, d.(epoch := e), es, [], [])
  {
    assert KeysOf(es)[..0] == [];
  }

  lemma UnderwayNext(cfg: Config, me: nat, d0: Daemon, e: nat, es: seq<Entry>, n: nat,
                     d: Daemon, ops: seq<Entry>, out: seq<Msg>, rel: seq<Release>,
                     d': Daemon, t: Tracker, o: seq<Msg>, r: seq<Release>)
    requires cfg.Valid() && (me == 0 || me in cfg.tree(e).parent)
    requires Underway(cfg, me, d0, e, es, n, d, ops, out, rel) && n < |es|
    requires d' == d.(ops := d'.ops) && Lists(ops[n := Entry(ops[n].key, t)], d'.ops)
    requires Turn(cfg, me, e, ops[n], t, Wire(o), r)
    ensures Underway(cfg, me, d0, e, es, n + 1, d', ops[n := Entry(ops[n].key, t)], out + o, rel + r)
  {
    TurnsNext(cfg, me, d0, e, es, n, t, Wire(out), rel, Wire(o), r);
    ProgressNext(d0.(epoch := e), es, n, Targets(cfg, me, d0, e), d, ops, t, d', ops[n := Entry(ops[n].key, t)]);
    WireAdd(out, o);
  }

  lemma UnderwayAll(cfg: Config, me: nat, d0: Daemon, e: nat, es: seq<Entry>,
                    d: Daemon, ops: seq<Entry>, out: seq<Msg>, rel: seq<Release>)
    requires cfg.Valid() && (me == 0 || me in cfg.tree(e).parent)
    requires Underway(cfg, me, d0, e, es, |es|, d, ops, out, rel)
    ensures Outcome(d, Wire(out), rel) == Restart(cfg, me, d0, e, KeysOf(es))
  {
    ProgressAll(d0.(epoch := e), es, Targets(cfg, me, d0, e), d, ops);
    TurnsAll(cfg, me, d0, e, es, Wire(out), rel);
  }

  // ---- what a fault ends outright ----

  /** A fence in flight that lost a participant cannot be produced any more. */
  predicate Doomed(d: Daemon, k: Key, lost: Sig -> bool) {
    k in d.ops && !d.ops[k].aborting && !d.ops[k].converged && lost(k.sig)
  }

  function Aborts(d: Daemon, ks: seq<Key>, lost: Sig -> bool, code: int): Outcome {
    if ks == [] then Outcome(d, {}, [])
    else
      var o := Aborts(d, ks[..|ks| - 1], lost, code);
      var k := ks[|ks| - 1];
      if Doomed(o.d, k, lost) then
        var a := Abort(o.d, k, code);
        Outcome(a.d, {}, o.rel + a.rel)
      else o
  }

  lemma AbortsNext(d: Daemon, ks: seq<Key>, n: nat, lost: Sig -> bool, code: int)
    requires n < |ks|
    ensures var o := Aborts(d, ks[..n], lost, code);
            Aborts(d, ks[..n + 1], lost, code)
              == if Doomed(o.d, ks[n], lost) then
                   Outcome(Abort(o.d, ks[n], code).d, {}, o.rel + Abort(o.d, ks[n], code).rel)
                 else o
  {
    assert ks[..n + 1][..n] == ks[..n];
  }

  // ---- whether there is a tracker to be had ----

  /** A contribution of our own epoch: without a tracker on the list, and without
      daemons to make a new one for, it is dropped. */
  function Delivery(cfg: Config, me: nat, d: Daemon, m: Msg, resolves: bool): Outcome
    requires cfg.Valid()
    requires me == 0 || me in cfg.tree(d.epoch).parent
  {
    if m.key in d.ops || resolves then RecvNow(cfg, me, d, m) else Outcome(d, {}, [])
  }

  lemma EverybodyAwaited(cfg: Config, e: nat, me: nat, sig: Sig)
    requires cfg.Valid() && me in cfg.tree(e).living && cfg.dmns(sig) == cfg.ranks
    ensures cfg.NumExpected(e, me, sig) == |cfg.tree(e).Children(me)| + 1
  {
    forall c | c in cfg.tree(e).Children(me) ensures c in cfg.Expected(e, me, sig) {
      assert cfg.tree(e).Valid() && c in cfg.tree(e).Sub(c) * cfg.dmns(sig);
    }
    assert cfg.Expected(e, me, sig) == cfg.tree(e).Children(me);
  }

  class Prted {
    const cfg: Config
    const me: nat
    const hosts: Sig -> Hosts
    var epoch: nat
    var gens: map<Sig, nat>
    var ops: seq<Entry>
    ghost var d: Daemon

    ghost predicate Valid()
      reads this
    {
      && cfg.Valid() && HostsOf(cfg, hosts)
      && me in cfg.tree(epoch).living && (me == 0 || me in cfg.tree(epoch).parent)
      && epoch == d.epoch && gens == d.gens && Lists(ops, d.ops)
    }

    constructor (cfg: Config, me: nat, hosts: Sig -> Hosts)
      requires cfg.Valid() && HostsOf(cfg, hosts) && me in cfg.ranks
      ensures Valid() && d == Daemon(0, 0, map[], map[])
      ensures this.cfg == cfg && this.me == me && this.hosts == hosts
    {
      this.cfg, this.me, this.hosts := cfg, me, hosts;
      epoch, gens, ops := 0, map[], [];
      d := Daemon(0, 0, map[], map[]);
    }

    /** The list is searched front to back for the identity. */
    method Find(k: Key) returns (i: nat)
      requires Valid()
      ensures i <= |ops|
      ensures i < |ops| <==> k in d.ops
      ensures i < |ops| ==> ops[i].key == k
    {
      i := 0;
      while i < |ops|
        invariant i <= |ops|
        invariant forall j :: 0 <= j < i ==> ops[j].key != k
      {
        if ops[i].key == k { return; }
        i := i + 1;
      }
      assert k in d.ops ==> Listed(ops, k);
    }

    /** prte_rml_get_num_contributors: the bitmap of the child slots that our
        living participants report through. */
    method Contributors(sig: Sig) returns (slots: set<nat>)
      requires Valid() && hosts(sig).Named?
      ensures slots == cfg.Expected(epoch, me, sig)
    {
      var tr, list := cfg.tree(epoch), hosts(sig).list;
      slots := {};
      for i := 0 to |list|
        invariant forall j :: 0 <= j < i && tr.SlotOf(list[j], me).Some? ==> tr.SlotOf(list[j], me).value in slots
        invariant forall c :: c in slots ==> exists x :: x in list && tr.SlotOf(x, me) == Some(c)
      {
        if list[i] in tr.living {
          var slot := tr.SlotOf(list[i], me);
          if slot.Some? { slots := slots + {slot.value}; }
        }
      }
      assert forall x :: x in cfg.dmns(sig) <==> x in (set y | y in list);
      AwaitedSlots(cfg, epoch, me, sig, slots);
    }

    /** set_nexpected: one for each such slot, and one more if we are in the
        list ourselves; where everybody takes part, one for each child and one
        more, without looking. */
    method NumExpected(sig: Sig) returns (n: nat)
      requires Valid()
      ensures n == cfg.NumExpected(epoch, me, sig)
    {
      if hosts(sig).Whole? {
        EverybodyAwaited(cfg, epoch, me, sig);
        return |cfg.tree(epoch).Children(me)| + 1;
      }
      var slots := Contributors(sig);
      n := |slots|;
      var list := hosts(sig).list;
      assert forall x :: x in cfg.dmns(sig) <==> x in (set y | y in list);
      var i := 0;
      while i < |list|
        invariant i <= |list|
        invariant forall j :: 0 <= j < i ==> list[j] != me
      {
        if list[i] == me { n := n + 1; return; }
        i := i + 1;
      }
    }

    /** get_tracker with `create`; a new tracker that does not resolve its
        daemons is taken off the list again. */
    method GetTracker(k: Key, resolves: bool) returns (i: nat)
      requires Valid()
      modifies this`ops, this`d
      ensures Valid() && i <= |ops|
      ensures i < |ops| <==> k in old(d).ops || resolves
      ensures i < |ops| ==> ops[i].key == k
                            && d == old(d).(ops := old(d).ops[k := TrackerFor(cfg, me, old(d), k)])
      ensures i == |ops| ==> ops == old(ops) && d == old(d)
    {
      i := Find(k);
      if i == |ops| {
        if !resolves { return; }
        var n := NumExpected(k.sig);
        var t := Tracker(Unknown, Success, {}, false, 0, n, false, false, [], None, {}, false);
        ListsAdd(ops, d.ops, k, t);
        ops := ops + [Entry(k, t)];
        d := d.(ops := d.ops[k := t]);
      } else {
        assert d.ops == d.ops[k := d.ops[k]];
      }
    }

    method SetTracker(i: nat, t: Tracker)
      requires Valid() && i < |ops|
      modifies this`ops, this`d
      ensures Valid() && ops == old(ops)[i := Entry(old(ops[i].key), t)]
      ensures d == old(d).(ops := old(d).ops[old(ops[i].key) := t])
    {
      ListsSet(ops, d.ops, i, t);
      d := d.(ops := d.ops[ops[i].key := t]);
      ops := ops[i := ops[i].(t := t)];
    }

    /** check_complete. */
    method CheckComplete(i: nat) returns (out: seq<Msg>, rel: seq<Release>)
      requires Valid() && i < |ops|
      modifies this`ops, this`d
      ensures Valid() && |ops| == old(|ops|)
      ensures Outcome(d, Wire(out), rel) == Check(cfg, me, old(d), old(ops[i].key), old(ops[i].t))
      ensures ops == old(ops)[i := Entry(old(ops[i].key), d.ops[old(ops[i].key)])]
    {
      out, rel := [], [];
      var k, t := ops[i].key, ops[i].t;
      if t.converged || t.aborting || t.nreported < t.nexpected {
        assert d.ops == d.ops[k := t];
        return;
      }
      SetTracker(i, t.(converged := true));
      if me == 0 {
        rel := [Answer(epoch, k, t)];
      } else {
        out := [RollUp(me, cfg.tree(epoch).parent[me], epoch, k, t)];
      }
    }

    /** fence: a local client entered. Without a tracker it is told so at once,
        and nothing of it remains. */
    method Enter(sig: Sig, op: Op, status: Status, data: Blob, resolves: bool) returns (out: seq<Msg>, told: Status)
      requires Valid()
      modifies this`ops, this`d
      ensures Valid()
      ensures told == Success <==> Key(sig, GenNext(old(d), sig)) in old(d).ops || resolves
      ensures told == Success ==> Outcome(d, Wire(out), []) == FenceCall(cfg, me, old(d), sig, op, status, data)
      ensures told != Success ==> told == NOT_FOUND && d == old(d) && ops == old(ops) && out == []
    {
      var k := Key(sig, if sig in gens then gens[sig] else 0);
      out, told := [], Success;
      var i := GetTracker(k, resolves);
      if i == |ops| { return [], NOT_FOUND; }
      var t := MergeOp(ops[i].t, op);
      var offer := Offer(t.op, status, if t.op == Allgather then [Item(me, data)] else []);
      SetTracker(i, t.(mine := Some(offer)));
      out := [SelfMsg(me, epoch, k, offer)];
      Overwrite(old(d).ops, k, TrackerFor(cfg, me, old(d), k), t.(mine := Some(offer)));
      WireOne(SelfMsg(me, epoch, k, offer));
    }

    /** abort_fence_op. */
    method AbortOp(i: nat, code: int) returns (rel: seq<Release>)
      requires Valid() && i < |ops|
      modifies this`ops, this`d
      ensures Valid() && |ops| == old(|ops|) && (forall j :: 0 <= j < |ops| ==> ops[j].key == old(ops[j].key))
      ensures Outcome(d, {}, rel) == Abort(old(d), old(ops[i].key), code)
    {
      rel := [Release(ops[i].key, Error(code), [], epoch, ops[i].t.op, {}, true, true)];
      SetTracker(i, ops[i].t.(aborting := true));
    }

    /** A contribution that is neither stale nor foreign, for slot `from`. */
    method Take(m: Msg, from: Option<nat>, resolves: bool) returns (out: seq<Msg>, rel: seq<Release>)
      requires Valid() && m.epoch == epoch
      modifies this`ops, this`d
      ensures Valid()
      ensures Outcome(d, Wire(out), rel)
           == if m.key in old(d).ops || resolves then Join(cfg, me, old(d), m, from) else Outcome(old(d), {}, [])
    {
      out, rel := [], [];
      var i := GetTracker(m.key, resolves);
      if i == |ops| { return; }
      var t := MergeOp(ops[i].t, m.op);
      SetTracker(i, t);
      Overwrite(old(d).ops, m.key, TrackerFor(cfg, me, old(d), m.key), t);
      if Counted(t, from) { return; }
      var t' := Absorb(cfg, me, epoch, t, m, from);
      SetTracker(i, t');
      Overwrite(old(d).ops, m.key, t, t');
      CheckOver(cfg, me, old(d), m.key, t');
      out, rel := CheckComplete(i);
    }

    /** fence_recv, for a contribution of our own epoch. */
    method Deliver(m: Msg, resolves: bool) returns (out: seq<Msg>, rel: seq<Release>)
      requires Valid() && m.epoch == epoch
      modifies this`ops, this`d
      ensures Valid()
      ensures Outcome(d, Wire(out), rel) == Delivery(cfg, me, old(d), m, resolves)
    {
      out, rel := [], [];
      if m.key.gen < (if m.key.sig in gens then gens[m.key.sig] else 0) { return; }
      var slot := None;
      if m.src != me {
        slot := cfg.tree(epoch).SlotOf(m.src, me);
        if slot.None? { return; }
      }
      out, rel := Take(m, slot, resolves);
    }

    /** Throw away what was gathered and ask the new tree what it owes us. */
    method ResetTracker(i: nat)
      requires Valid() && i < |ops| && !Settled(me, ops[i].t)
      modifies this`ops, this`d
      ensures var x := old(ops[i]);
              Valid() && ops == old(ops)[i := Entry(x.key, Reset(cfg, me, epoch, x.key.sig, x.t))]
      ensures d == old(d).(ops := old(d).ops[old(ops[i].key) := ops[i].t])
    {
      var n := NumExpected(ops[i].key.sig);
      SetTracker(i, ops[i].t.(slots := {}, self := false, nreported := 0, converged := false, bucket := [],
                              nexpected := n, arrived := {}, short := false));
    }

    /** A relay that now awaits nobody completes on the spot. */
    method TestRelay(i: nat) returns (out: seq<Msg>, rel: seq<Release>)
      requires Valid() && i < |ops| && ops[i].t.mine.None?
      modifies this`ops, this`d
      ensures Valid() && ops == old(ops)[i := Entry(old(ops[i].key), Tested(old(ops[i].t)))]
      ensures d == old(d).(ops := old(d).ops[old(ops[i].key) := Tested(old(ops[i].t))])
      ensures (Wire(out), rel) == TestSends(cfg, me, epoch, old(ops[i].key), old(ops[i].t))
    {
      RecheckOne(cfg, me, d, ops[i].key);
      RecheckSends(cfg, me, d, ops[i].key);
      out, rel := CheckComplete(i);
    }

    method RestartLive(i: nat) returns (out: seq<Msg>, rel: seq<Release>)
      requires Valid() && i < |ops| && !Settled(me, ops[i].t)
      modifies this`ops, this`d
      ensures Valid() && |ops| == old(|ops|)
      ensures ops == old(ops)[i := Entry(old(ops[i].key), ops[i].t)]
      ensures d == old(d).(ops := old(d).ops[old(ops[i].key) := ops[i].t])
      ensures Turn(cfg, me, epoch, old(ops[i]), ops[i].t, Wire(out), rel)
    {
      var k, t := ops[i].key, ops[i].t;
      ResetTracker(i);
      Overwrite(old(d).ops, k, ops[i].t, Tested(ops[i].t));
      if t.mine.None? {
        out, rel := TestRelay(i);
      } else {
        out, rel := [SelfMsg(me, epoch, k, t.mine.value)], [];
        WireOne(out[0]);
      }
    }

    /** One tracker's turn in the restart, at the new epoch. */
    method RestartOne(i: nat) returns (out: seq<Msg>, rel: seq<Release>)
      requires Valid() && i < |ops|
      modifies this`ops, this`d
      ensures Valid() && |ops| == old(|ops|)
      ensures ops == old(ops)[i := Entry(old(ops[i].key), ops[i].t)]
      ensures d == old(d).(ops := old(d).ops[old(ops[i].key) := ops[i].t])
      ensures Turn(cfg, me, epoch, old(ops[i]), ops[i].t, Wire(out), rel)
    {
      if ops[i].t.aborting || (me == 0 && ops[i].t.converged) {
        out, rel := [], [];
        assert d.ops[ops[i].key := ops[i].t] == d.ops;
      } else {
        out, rel := RestartLive(i);
      }
    }

    /** fence_restart, at the epoch just taken; `d0` is the daemon before it. */
    method RestartAll(ghost d0: Daemon) returns (out: seq<Msg>, rel: seq<Release>)
      requires Valid() && d == d0.(epoch := epoch)
      modifies this`ops, this`d
      ensures Valid()
      ensures Outcome(d, Wire(out), rel) == Restart(cfg, me, d0, epoch, KeysOf(old(ops)))
    {
      ghost var es := ops;
      out, rel := [], [];
      UnderwayStart(cfg, me, d0, epoch, es);
      var i := 0;
      while i < |ops|
        invariant Valid() && i <= |ops| == |es|
        invariant Underway(cfg, me, d0, epoch, es, i, d, ops, out, rel)
      {
        ghost var d1, es1 := d, ops;
        var o, r := RestartOne(i);
        UnderwayNext(cfg, me, d0, epoch, es, i, d1, es1, out, rel, d, ops[i].t, o, r);
        out, rel := out + o, rel + r;
        i := i + 1;
      }
      UnderwayAll(cfg, me, d0, epoch, es, d, ops, out, rel);
    }

    /** prte_grpcomm_advance_epoch: only ever forward, with one restart. */
    method AdvanceTo(e: nat) returns (out: seq<Msg>, rel: seq<Release>)
      requires Valid() && me in cfg.tree(e).living
      modifies this`epoch, this`ops, this`d
      ensures Valid() && epoch == if old(epoch) < e then e else old(epoch)
      ensures Outcome(d, Wire(out), rel)
           == if old(epoch) < e then Restart(cfg, me, old(d), e, KeysOf(old(ops))) else Outcome(old(d), {}, [])
    {
      if e <= epoch { return [], []; }
      epoch, d := e, d.(epoch := e);
      assert cfg.tree(e).Valid();
      out, rel := RestartAll(old(d));
    }

    /** fence_recv: an old epoch is dropped, a newer one is adopted first. */
    method Recv(m: Msg, resolves: bool) returns (out: seq<Msg>, rel: seq<Release>)
      requires Valid() && me in cfg.tree(m.epoch).living
      modifies this`epoch, this`ops, this`d
      ensures Valid()
      ensures m.epoch < old(epoch) ==> Outcome(d, Wire(out), rel) == Outcome(old(d), {}, [])
      ensures m.epoch == old(epoch) ==> Outcome(d, Wire(out), rel) == Delivery(cfg, me, old(d), m, resolves)
      ensures m.epoch > old(epoch) ==>
                var a := Restart(cfg, me, old(d), m.epoch, KeysOf(old(ops)));
                var b := Delivery(cfg, me, a.d, m, resolves);
                Outcome(d, Wire(out), rel) == Outcome(b.d, a.out + b.out, a.rel + b.rel)
    {
      if m.epoch < epoch { return [], []; }
      out, rel := AdvanceTo(m.epoch);
      var o, r := Deliver(m, resolves);
      WireAdd(out, o);
      out, rel := out + o, rel + r;
    }

    /** fence_fault_handler, on the master. */
    method AbortLost(w: ProcsLost.World, code: int) returns (rel: seq<Release>)
      requires Valid()
      modifies this`ops, this`d
      ensures Valid() && KeysOf(ops) == KeysOf(old(ops)) && epoch == old(epoch)
      ensures Outcome(d, {}, rel) == Aborts(old(d), KeysOf(old(ops)), ProcsLost.Losing(w), code)
    {
      ghost var d0, ks, lost := d, KeysOf(ops), ProcsLost.Losing(w);
      rel := [];
      var i := 0;
      while i < |ops|
        invariant Valid() && i <= |ops| && KeysOf(ops) == ks
        invariant Outcome(d, {}, rel) == Aborts(d0, ks[..i], lost, code)
      {
        AbortsNext(d0, ks, i, lost, code);
        var gone := false;
        if !ops[i].t.aborting && !ops[i].t.converged { gone := ProcsLost.Search(w, ops[i].key.sig); }
        if gone {
          ghost var ops0 := ops;
          var r := AbortOp(i, code);
          rel := rel + r;
          assert KeysOf(ops) == KeysOf(ops0);
        }
        i := i + 1;
      }
      assert ks[..|ops|] == ks;
    }

    /** prte_grpcomm_fault_handler, for a notice of global scope: first what
        cannot be recovered is ended, then everything still in flight restarts. */
    method FaultNotice(e: nat, w: ProcsLost.World, code: int) returns (out: seq<Msg>, rel: seq<Release>)
      requires Valid() && me in cfg.tree(e).living
      modifies this`epoch, this`ops, this`d
      ensures Valid()
      ensures var a := if me == 0 then Aborts(old(d), KeysOf(old(ops)), ProcsLost.Losing(w), code)
                       else Outcome(old(d), {}, []);
              var b := if old(epoch) < e then Restart(cfg, me, a.d, e, KeysOf(old(ops))) else Outcome(a.d, {}, []);
              Outcome(d, Wire(out), rel) == Outcome(b.d, b.out, a.rel + b.rel)
    {
      var r := [];
      if me == 0 { r := AbortLost(w, code); }
      out, rel := AdvanceTo(e);
      rel := r + rel;
    }

    /** fence_gen_record: adopt the released round, never going back. */
    method Record(sig: Sig, gen: nat)
      requires Valid()
      modifies this`gens, this`d
      ensures Valid()
      ensures var next := if GenNext(old(d), sig) < gen + 1 then gen + 1 else GenNext(old(d), sig);
              d == old(d).(gens := old(d).gens[sig := next])
    {
      if sig in gens && gen + 1 <= gens[sig] {
        assert gens == gens[sig := gens[sig]];
        return;
      }
      gens := gens[sig := gen + 1];
      d := d.(gens := gens);
    }

    /** fence_release_process: the counter is adopted whether or not there is a
        tracker, and the tracker leaves the list before anyone is told. */
    method ReleaseProcess(r: Release)
      requires Valid()
      modifies this`ops, this`gens, this`d
      ensures Valid() && d == Retire(old(d), r)
    {
      Record(r.key.sig, r.key.gen);
      var i := Find(r.key);
      if i < |ops| {
        ListsDrop(ops, d.ops, i);
        ops := ops[..i] + ops[i + 1..];
      } else {
        assert d.ops - {r.key} == d.ops;
      }
      d := d.(seen := d.seen + 1, ops := d.ops - {r.key});
    }
  }
}
