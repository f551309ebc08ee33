/** Rounds over one set of participants are numbered alike everywhere, and each
    is released once. */
module FenceRounds {
  import opened RoutingTree
  import opened Fence
  import opened FenceSystem

  /** A round already counted has its release in the log, at the right place. */
  lemma {:induction false} FindRelease(log: seq<Release>, i: nat, j: nat, sig: Sig, g: nat) returns (n: nat)
    requires LogOrdered(log) && i <= j <= |log|
    requires Count(log, i, sig) <= g < Count(log, j, sig)
    ensures i <= n < j && log[n].key == Key(sig, g)
    decreases j
  {
    if g < Count(log, j - 1, sig) {
      n := FindRelease(log, i, j - 1, sig, g);
    } else {
      n := j - 1;
      assert OrderedAt(log, n);
    }
  }

  /** Distinct releases end distinct rounds. */
  lemma OncePerRound(log: seq<Release>, i: nat, j: nat)
    requires LogOrdered(log) && i < j < |log|
    ensures log[i].key != log[j].key
  {
    CountMono(log, i + 1, j, log[i].key.sig);
    assert OrderedAt(log, i) && OrderedAt(log, j);
  }

  lemma InStepAppend(log: seq<Release>, r: Release, d: Daemon)
    requires InStep(log, d)
    ensures InStep(log + [r], d)
  {
    forall sig
      ensures Count(log + [r], d.seen, sig) == Count(log, d.seen, sig)
      ensures Count(log, |log|, sig) <= Count(log + [r], |log| + 1, sig)
    {
      CountAppend(log, r, sig);
    }
  }

  /** A tracker the master opens is for the round now open. */
  lemma OpenRound(log: seq<Release>, d: Daemon, k: Key)
    requires LogOrdered(log) && InStep(log, d) && AtHelm(log, d)
    requires k !in d.ops && !Past(d, k) && k.gen <= Count(log, |log|, k.sig)
    ensures k.gen == Count(log, |log|, k.sig)
  {
    if k.gen < Count(log, |log|, k.sig) {
      var n := FindRelease(log, d.seen, |log|, k.sig, k.gen);
    }
  }

  /** `d'` differs from `d` in trackers only; `k` is the one key that may be new. */
  ghost predicate Tracks(me: nat, d: Daemon, d': Daemon, k: Key) {
    && d'.seen == d.seen && d'.gens == d.gens
    && d'.ops.Keys == d.ops.Keys + {k}
    && (forall j :: j in d.ops && Settled(me, d.ops[j]) ==> Settled(me, d'.ops[j]))
    && (forall j :: j in d.ops && j != k && !Settled(me, d.ops[j]) ==> !Settled(me, d'.ops[j]))
  }

  lemma TracksInStep(log: seq<Release>, me: nat, d: Daemon, d': Daemon, k: Key)
    requires InStep(log, d) && Tracks(me, d, d', k)
    requires !Past(d, k) && k.gen <= Count(log, |log|, k.sig)
    ensures InStep(log, d')
  {
    assert forall sig :: GenNext(d', sig) == GenNext(d, sig);
  }

  lemma TracksAtHelm(log: seq<Release>, d: Daemon, d': Daemon, k: Key)
    requires LogOrdered(log) && InStep(log, d) && AtHelm(log, d) && Tracks(0, d, d', k)
    requires !Past(d, k) && k.gen <= Count(log, |log|, k.sig)
    ensures AtHelm(log, d')
  {
    if k !in d.ops { OpenRound(log, d, k); }
    forall j | j in d'.ops && !Settled(0, d'.ops[j]) ensures j.gen == Count(log, |log|, j.sig) {
    }
  }

  lemma OrderedAppend(log: seq<Release>, r: Release)
    requires LogOrdered(log) && r.key.gen == Count(log, |log|, r.key.sig)
    ensures LogOrdered(log + [r])
  {
    var log' := log + [r];
    forall i | 0 <= i < |log'| ensures OrderedAt(log', i) {
      CountPrefix(log, log', i, log'[i].key.sig);
      if i < |log| {
        assert OrderedAt(log, i) && log'[i] == log[i];
      } else {
        assert log'[i] == r;
      }
    }
  }

  /** Answering (or aborting) the open round keeps the numbering. */
  lemma HelmAppend(log: seq<Release>, d: Daemon, d': Daemon, r: Release)
    requires AtHelm(log, d) && Tracks(0, d, d', r.key)
    requires r.key.gen == Count(log, |log|, r.key.sig)
    requires r.key in d'.ops && Settled(0, d'.ops[r.key])
    ensures AtHelm(log + [r], d')
  {
    var log' := log + [r];
    forall k | k in d'.ops && !Settled(0, d'.ops[k]) ensures k.gen == Count(log', |log'|, k.sig) {
      CountAppend(log, r, k.sig);
      assert k in d.ops && !Settled(0, d.ops[k]);
      assert k.sig != r.key.sig;
    }
    forall i | d'.seen <= i < |log'| ensures log'[i].key in d'.ops && Settled(0, d'.ops[log'[i].key]) {
      if i < |log| { assert log[i].key in d.ops; }
    }
  }

  /** The counter after a release is processed. */
  lemma RetireInStep(log: seq<Release>, d: Daemon)
    requires LogOrdered(log) && InStep(log, d) && d.seen < |log|
    ensures InStep(log, Retire(d, log[d.seen]))
  {
    var r := log[d.seen];
    var d' := Retire(d, r);
    assert OrderedAt(log, d.seen);
    assert r.key.gen == GenNext(d, r.key.sig);
    forall sig ensures GenNext(d', sig) == Count(log, d'.seen, sig) {
    }
    forall k | k in d'.ops ensures !Past(d', k) && k.gen <= Count(log, |log|, k.sig) {
      assert !Past(d, k) && k != r.key;
    }
  }

  lemma RetireAtHelm(log: seq<Release>, d: Daemon)
    requires LogOrdered(log) && AtHelm(log, d) && d.seen < |log|
    ensures AtHelm(log, Retire(d, log[d.seen]))
  {
    var d' := Retire(d, log[d.seen]);
    forall i | d'.seen <= i < |log| ensures log[i].key in d'.ops && Settled(0, d'.ops[log[i].key]) {
      OncePerRound(log, d.seen, i);
    }
  }

  lemma TracksKey(me: nat, d: Daemon, k: Key, t: Tracker)
    requires k in d.ops && Settled(me, d.ops[k]) ==> Settled(me, t)
    ensures Tracks(me, d, d.(ops := d.ops[k := t]), k)
  {
  }

  lemma TracksCheck(cfg: Config, me: nat, d: Daemon, k: Key, t: Tracker)
    requires cfg.Valid() && (me == 0 || me in cfg.tree(d.epoch).parent)
    requires k in d.ops && Settled(me, d.ops[k]) ==> Settled(me, t)
    ensures Tracks(me, d, Check(cfg, me, d, k, t).d, k)
  {
    TracksKey(me, d, k, t);
    TracksKey(me, d, k, t.(converged := true));
  }

  /** What a contribution leaves behind: nothing, or one tracker moved on. */
  lemma TracksRecv(cfg: Config, me: nat, d: Daemon, m: Msg)
    requires cfg.Valid() && (me == 0 || me in cfg.tree(d.epoch).parent)
    ensures var o := RecvNow(cfg, me, d, m);
            o == Outcome(d, {}, []) || (!Past(d, m.key) && Tracks(me, d, o.d, m.key))
  {
    var slot := cfg.tree(d.epoch).SlotOf(m.src, me);
    var from := if m.src == me then None else slot;
    var t := MergeOp(TrackerFor(cfg, me, d, m.key), m.op);
    if Past(d, m.key) || (m.src != me && slot.None?) {
    } else if Counted(t, from) {
      TracksKey(me, d, m.key, t);
    } else {
      TracksCheck(cfg, me, d, m.key, Absorb(cfg, me, d.epoch, t, m, from));
    }
  }

  lemma TracksFence(cfg: Config, me: nat, d: Daemon, sig: Sig, op: Op, status: Status, data: Blob)
    requires cfg.Valid()
    ensures var k := Key(sig, GenNext(d, sig));
            !Past(d, k) && Tracks(me, d, FenceCall(cfg, me, d, sig, op, status, data).d, k)
  {
  }
}
