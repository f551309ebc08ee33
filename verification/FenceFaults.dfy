/** What one global fault notice makes of every tracker a daemon holds. */
module FenceFaults {
  import opened Fence
  import ProcsLost
  import D = FenceDaemon

  /** Every identity of the daemon's list, once. */
  ghost predicate AllKeys(d: Daemon, ks: seq<Key>) {
    && (forall k :: k in ks <==> k in d.ops)
    && (forall i, j :: 0 <= i < j < |ks| ==> ks[i] != ks[j])
  }

  function Ended(d: Daemon, ks: seq<Key>, lost: Sig -> bool): map<Key, Tracker> {
    map k | k in d.ops ::
      if k in ks && D.Doomed(d, k, lost) then d.ops[k].(aborting := true) else d.ops[k]
  }

  lemma {:induction false} AbortsEnd(d: Daemon, ks: seq<Key>, lost: Sig -> bool, code: int)
    requires (forall k :: k in ks ==> k in d.ops) && (forall i, j :: 0 <= i < j < |ks| ==> ks[i] != ks[j])
    ensures D.Aborts(d, ks, lost, code).d == d.(ops := Ended(d, ks, lost))
  {
    if ks == [] {
      assert Ended(d, ks, lost) == d.ops;
    } else {
      var rest, k := ks[..|ks| - 1], ks[|ks| - 1];
      AbortsEnd(d, rest, lost, code);
      AbortsEndOne(d, rest, k, lost);
      assert ks == rest + [k];
    }
  }

  lemma AbortsEndOne(d: Daemon, rest: seq<Key>, k: Key, lost: Sig -> bool)
    requires k in d.ops && k !in rest
    ensures Ended(d, rest + [k], lost)
         == if D.Doomed(d, k, lost) then Ended(d, rest, lost)[k := d.ops[k].(aborting := true)]
            else Ended(d, rest, lost)
  {
  }

  /** Reset to epoch `e`: nothing counted, the new tree's expectation, what the
      daemon itself gave kept. */
  ghost predicate Restarted(cfg: Config, me: nat, e: nat, k: Key, t: Tracker, t': Tracker)
    requires cfg.Valid()
  {
    && t'.slots == {} && !t'.self && t'.nreported == 0 && t'.bucket == [] && t'.arrived == {}
    && !t'.converged && !t'.aborting
    && t'.nexpected == cfg.NumExpected(e, me, k.sig)
    && t'.op == t.op && t'.status == t.status && t'.mine == t.mine
  }

  /** After the notice, each tracker is in exactly one of three states: ended
      just now for a lost participant and otherwise untouched; untouched because
      it was already being torn down or answered by the master; or restarted
      under the new tree, and answered at once exactly if the daemon gave nothing
      to it and nobody is awaited. */
  ghost predicate Handled(cfg: Config, me: nat, e: nat, k: Key, t: Tracker, doomed: bool, t': Tracker)
    requires cfg.Valid()
  {
    if doomed then !Settled(me, t) && t' == t.(aborting := true)
    else if Settled(me, t) then t' == t
    else
      && Restarted(cfg, me, e, k, t, t'.(converged := false))
      && (t'.converged <==> t.mine.None? && cfg.NumExpected(e, me, k.sig) == 0)
  }

  /** ... and what that takes is sent: the end of a fence that lost a participant,
      what the daemon gave, or an answer with nothing in it. */
  ghost predicate Spoken(cfg: Config, me: nat, e: nat, k: Key, t: Tracker, doomed: bool, code: int, o: Outcome)
    requires cfg.Valid()
  {
    if doomed then exists r :: r in o.rel && r.key == k && r.status == Error(code) && r.aborted
    else if Settled(me, t) then true
    else if t.mine.Some? then SelfMsg(me, e, k, t.mine.value) in o.out
    else if cfg.NumExpected(e, me, k.sig) > 0 then true
    else if me == 0 then exists r :: r in o.rel && r.key == k && r.status == t.status && r.epoch == e && !r.aborted
    else me in cfg.tree(e).parent && Msg(me, cfg.tree(e).parent[me], e, k, t.op, t.status, [], {}, false) in o.out
  }

  /** The master ends exactly the unanswered fences that lost a participant. */
  ghost predicate Ends(me: nat, k: Key, t: Tracker, w: ProcsLost.World) {
    me == 0 && !t.aborting && !t.converged && ProcsLost.Lost(w, k.sig)
  }

  /** A message the notice makes a daemon send: what it gave to a restarted fence,
      again, or, from a relay that awaits nobody, an answer with nothing in it. */
  ghost predicate Said(cfg: Config, me: nat, d: Daemon, e: nat, w: ProcsLost.World, m: Msg)
    requires cfg.Valid()
  {
    && m.key in d.ops && !Settled(me, d.ops[m.key]) && !Ends(me, m.key, d.ops[m.key], w)
    && var t := d.ops[m.key];
       if t.mine.Some? then m == SelfMsg(me, e, m.key, t.mine.value)
       else
         && me in cfg.tree(e).parent && cfg.NumExpected(e, me, m.key.sig) == 0
         && m == Msg(me, cfg.tree(e).parent[me], e, m.key, t.op, t.status, [], {}, false)
  }

  /** A release it makes the master broadcast: the end of a fence that lost a
      participant, or the answer to one in which nobody is left. */
  ghost predicate Told(cfg: Config, me: nat, d: Daemon, e: nat, w: ProcsLost.World, code: int, r: Release)
    requires cfg.Valid()
  {
    && me == 0 && r.key in d.ops && !Settled(me, d.ops[r.key]) && r.data == [] && r.arrived == {}
    && var t := d.ops[r.key];
       if Ends(me, r.key, t, w) then r.status == Error(code)
       else t.mine.None? && cfg.NumExpected(e, me, r.key.sig) == 0 && r.status == t.status && r.epoch == e
  }

  lemma {:induction false} AbortsTell(d: Daemon, ks: seq<Key>, lost: Sig -> bool, code: int, r: Release)
    requires (forall k :: k in ks ==> k in d.ops) && (forall i, j :: 0 <= i < j < |ks| ==> ks[i] != ks[j])
    requires r in D.Aborts(d, ks, lost, code).rel
    ensures r.key in ks && D.Doomed(d, r.key, lost) && r.status == Error(code) && r.data == [] && r.arrived == {}
  {
    var rest, k := ks[..|ks| - 1], ks[|ks| - 1];
    AbortsEnd(d, rest, lost, code);
    if r in D.Aborts(d, rest, lost, code).rel { AbortsTell(d, rest, lost, code, r); }
  }

  lemma {:induction false} RechecksSend(cfg: Config, me: nat, d: Daemon, ks: seq<Key>, m: Msg)
    requires cfg.Valid() && (me == 0 || me in cfg.tree(d.epoch).parent)
    requires (forall k :: k in ks ==> k in d.ops) && (forall i, j :: 0 <= i < j < |ks| ==> ks[i] != ks[j])
    requires m in D.Rechecks(cfg, me, d, ks).out
    ensures m.key in ks && m in D.TestSends(cfg, me, d.epoch, m.key, d.ops[m.key]).0
  {
    var n := |ks| - 1;
    D.RechecksNext(cfg, me, d, ks, n);
    assert ks[..n + 1] == ks;
    if m in D.Rechecks(cfg, me, d, ks[..n]).out { RechecksSend(cfg, me, d, ks[..n], m); }
  }

  lemma {:induction false} RechecksTell(cfg: Config, me: nat, d: Daemon, ks: seq<Key>, r: Release)
    requires cfg.Valid() && (me == 0 || me in cfg.tree(d.epoch).parent)
    requires (forall k :: k in ks ==> k in d.ops) && (forall i, j :: 0 <= i < j < |ks| ==> ks[i] != ks[j])
    requires r in D.Rechecks(cfg, me, d, ks).rel
    ensures r.key in ks && r in D.TestSends(cfg, me, d.epoch, r.key, d.ops[r.key]).1
  {
    var n := |ks| - 1;
    D.RechecksNext(cfg, me, d, ks, n);
    assert ks[..n + 1] == ks;
    if r in D.Rechecks(cfg, me, d, ks[..n]).rel { RechecksTell(cfg, me, d, ks[..n], r); }
  }

  /** The trackers between the abort and the restart. */
  ghost predicate Between(me: nat, d: Daemon, w: ProcsLost.World, a: Daemon) {
    && a.ops.Keys == d.ops.Keys
    && forall k :: k in d.ops ==>
         a.ops[k] == if Ends(me, k, d.ops[k], w) then d.ops[k].(aborting := true) else d.ops[k]
  }

  function Aborted(me: nat, d: Daemon, ks: seq<Key>, lost: Sig -> bool, code: int): Outcome {
    if me == 0 then D.Aborts(d, ks, lost, code) else Outcome(d, {}, [])
  }

  lemma AbortedBetween(me: nat, d: Daemon, ks: seq<Key>, w: ProcsLost.World, code: int)
    requires AllKeys(d, ks)
    ensures Between(me, d, w, Aborted(me, d, ks, ProcsLost.Losing(w), code).d)
  {
    if me == 0 { AbortsEnd(d, ks, ProcsLost.Losing(w), code); }
  }

  /** What the restart sends. */
  lemma RestartSays(cfg: Config, me: nat, d: Daemon, e: nat, ks: seq<Key>, w: ProcsLost.World, a: Daemon, m: Msg)
    requires cfg.Valid() && (me == 0 || me in cfg.tree(e).parent) && AllKeys(d, ks) && Between(me, d, w, a)
    requires m in D.Restart(cfg, me, a, e, ks).out
    ensures Said(cfg, me, d, e, w, m)
  {
    var o := Enter(cfg, me, a, e);
    if m in o.out {
      var k :| k in a.ops && !Settled(me, a.ops[k]) && a.ops[k].mine.Some?
               && m == SelfMsg(me, e, k, a.ops[k].mine.value);
    } else {
      RechecksSend(cfg, me, o.d, ks, m);
      assert o.d.ops[m.key] == Reset(cfg, me, e, m.key.sig, a.ops[m.key]);
    }
  }

  lemma RestartTells(cfg: Config, me: nat, d: Daemon, e: nat, ks: seq<Key>, w: ProcsLost.World, code: int,
                     a: Daemon, r: Release)
    requires cfg.Valid() && (me == 0 || me in cfg.tree(e).parent) && AllKeys(d, ks) && Between(me, d, w, a)
    requires r in D.Restart(cfg, me, a, e, ks).rel
    ensures Told(cfg, me, d, e, w, code, r)
  {
    var o := Enter(cfg, me, a, e);
    RechecksTell(cfg, me, o.d, ks, r);
    assert o.d.ops[r.key] == Reset(cfg, me, e, r.key.sig, a.ops[r.key]);
  }

  /** What the handler leaves, for a daemon of any rank at an older epoch. */
  function Noticed(cfg: Config, me: nat, d: Daemon, e: nat, ks: seq<Key>, lost: Sig -> bool, code: int): Outcome
    requires cfg.Valid() && (me == 0 || me in cfg.tree(e).parent)
  {
    var a := Aborted(me, d, ks, lost, code);
    var b := D.Restart(cfg, me, a.d, e, ks);
    Outcome(b.d, b.out, a.rel + b.rel)
  }

  /** Every tracker a daemon holds is handled, and nothing else is sent or
      broadcast than that takes. */
  lemma NoticeHandles(cfg: Config, me: nat, d: Daemon, e: nat, ks: seq<Key>, w: ProcsLost.World, code: int)
    requires cfg.Valid() && (me == 0 || me in cfg.tree(e).parent) && AllKeys(d, ks)
    ensures var o := Noticed(cfg, me, d, e, ks, ProcsLost.Losing(w), code);
            && o.d.epoch == e && o.d.ops.Keys == d.ops.Keys
            && (forall k :: k in d.ops ==>
                  && Handled(cfg, me, e, k, d.ops[k], Ends(me, k, d.ops[k], w), o.d.ops[k])
                  && Spoken(cfg, me, e, k, d.ops[k], Ends(me, k, d.ops[k], w), code, o))
            && (forall m :: m in o.out ==> Said(cfg, me, d, e, w, m))
            && (forall r :: r in o.rel ==> Told(cfg, me, d, e, w, code, r))
  {
    NoticeTurns(cfg, me, d, e, ks, w, code);
    forall k | k in d.ops
      ensures Spoken(cfg, me, e, k, d.ops[k], Ends(me, k, d.ops[k], w), code,
                     Noticed(cfg, me, d, e, ks, ProcsLost.Losing(w), code))
    {
      NoticeSpeaks(cfg, me, d, e, ks, w, code, k);
    }
    NoticeSends(cfg, me, d, e, ks, w, code);
  }

  lemma NoticeTurns(cfg: Config, me: nat, d: Daemon, e: nat, ks: seq<Key>, w: ProcsLost.World, code: int)
    requires cfg.Valid() && (me == 0 || me in cfg.tree(e).parent) && AllKeys(d, ks)
    ensures var o := Noticed(cfg, me, d, e, ks, ProcsLost.Losing(w), code);
            && o.d.epoch == e && o.d.ops.Keys == d.ops.Keys
            && forall k :: k in d.ops ==>
                 Handled(cfg, me, e, k, d.ops[k], Ends(me, k, d.ops[k], w), o.d.ops[k])
  {
    var o := Noticed(cfg, me, d, e, ks, ProcsLost.Losing(w), code);
    var a := Aborted(me, d, ks, ProcsLost.Losing(w), code);
    AbortedBetween(me, d, ks, w, code);
    D.TurnsTarget(cfg, me, a.d, e, ks);
    forall k | k in d.ops
      ensures Handled(cfg, me, e, k, d.ops[k], Ends(me, k, d.ops[k], w), o.d.ops[k])
    {
      HandledOne(cfg, me, a.d, d, e, k, w);
    }
  }

  lemma NoticeSends(cfg: Config, me: nat, d: Daemon, e: nat, ks: seq<Key>, w: ProcsLost.World, code: int)
    requires cfg.Valid() && (me == 0 || me in cfg.tree(e).parent) && AllKeys(d, ks)
    ensures var o := Noticed(cfg, me, d, e, ks, ProcsLost.Losing(w), code);
            && (forall m :: m in o.out ==> Said(cfg, me, d, e, w, m))
            && (forall r :: r in o.rel ==> Told(cfg, me, d, e, w, code, r))
  {
    var lost := ProcsLost.Losing(w);
    var o := Noticed(cfg, me, d, e, ks, lost, code);
    var a := Aborted(me, d, ks, lost, code);
    AbortedBetween(me, d, ks, w, code);
    forall m | m in o.out ensures Said(cfg, me, d, e, w, m) { RestartSays(cfg, me, d, e, ks, w, a.d, m); }
    forall r | r in o.rel ensures Told(cfg, me, d, e, w, code, r) {
      if r in a.rel { AbortsTell(d, ks, lost, code, r); } else { RestartTells(cfg, me, d, e, ks, w, code, a.d, r); }
    }
  }

  lemma HandledOne(cfg: Config, me: nat, a: Daemon, d: Daemon, e: nat, k: Key, w: ProcsLost.World)
    requires cfg.Valid() && k in d.ops && Between(me, d, w, a)
    ensures Handled(cfg, me, e, k, d.ops[k], Ends(me, k, d.ops[k], w), D.Targets(cfg, me, a, e)[k])
  {
  }

  // ---- what is sent for each tracker ----

  lemma {:induction false} AbortsSpeak(d: Daemon, ks: seq<Key>, lost: Sig -> bool, code: int, k: Key)
    requires (forall j :: j in ks ==> j in d.ops) && (forall i, j :: 0 <= i < j < |ks| ==> ks[i] != ks[j])
    requires k in ks && D.Doomed(d, k, lost)
    ensures exists r :: r in D.Aborts(d, ks, lost, code).rel && r.key == k && r.status == Error(code) && r.aborted
  {
    var rest, last := ks[..|ks| - 1], ks[|ks| - 1];
    AbortsEnd(d, rest, lost, code);
    var o, o' := D.Aborts(d, rest, lost, code), D.Aborts(d, ks, lost, code);
    if last == k {
      assert o'.rel[|o.rel|] in o'.rel;
    } else {
      AbortsSpeak(d, rest, lost, code, k);
      var r :| r in o.rel && r.key == k && r.status == Error(code) && r.aborted;
      assert r in o'.rel;
    }
  }

  lemma {:induction false} RechecksSpeak(cfg: Config, me: nat, d: Daemon, ks: seq<Key>, k: Key)
    requires cfg.Valid() && (me == 0 || me in cfg.tree(d.epoch).parent)
    requires (forall j :: j in ks ==> j in d.ops) && (forall i, j :: 0 <= i < j < |ks| ==> ks[i] != ks[j]) && k in ks
    ensures var o, w := D.Rechecks(cfg, me, d, ks), D.TestSends(cfg, me, d.epoch, k, d.ops[k]);
            w.0 <= o.out && forall r :: r in w.1 ==> r in o.rel
  {
    var n := |ks| - 1;
    D.RechecksNext(cfg, me, d, ks, n);
    assert ks[..n + 1] == ks;
    if ks[n] != k { RechecksSpeak(cfg, me, d, ks[..n], k); }
  }

  lemma NoticeSpeaks(cfg: Config, me: nat, d: Daemon, e: nat, ks: seq<Key>, w: ProcsLost.World, code: int, k: Key)
    requires cfg.Valid() && (me == 0 || me in cfg.tree(e).parent) && AllKeys(d, ks) && k in d.ops
    ensures Spoken(cfg, me, e, k, d.ops[k], Ends(me, k, d.ops[k], w), code,
                   Noticed(cfg, me, d, e, ks, ProcsLost.Losing(w), code))
  {
    var a := Aborted(me, d, ks, ProcsLost.Losing(w), code);
    AbortedBetween(me, d, ks, w, code);
    if Ends(me, k, d.ops[k], w) {
      AbortsSpeak(d, ks, ProcsLost.Losing(w), code, k);
      var r :| r in a.rel && r.key == k && r.status == Error(code) && r.aborted;
      assert r in Noticed(cfg, me, d, e, ks, ProcsLost.Losing(w), code).rel;
    } else if !Settled(me, d.ops[k]) {
      RestartSpeaks(cfg, me, a, e, ks, k);
      assert a.d.ops[k] == d.ops[k];
    }
  }

  lemma RestartSpeaks(cfg: Config, me: nat, a: Outcome, e: nat, ks: seq<Key>, k: Key)
    requires cfg.Valid() && (me == 0 || me in cfg.tree(e).parent) && AllKeys(a.d, ks)
    requires k in a.d.ops && !Settled(me, a.d.ops[k])
    ensures var b := D.Restart(cfg, me, a.d, e, ks);
            Spoken(cfg, me, e, k, a.d.ops[k], false, 0, Outcome(b.d, b.out, a.rel + b.rel))
  {
    var o, t := Enter(cfg, me, a.d, e), a.d.ops[k];
    var r := Reset(cfg, me, e, k.sig, t);
    assert o.d.ops[k] == r;
    if t.mine.Some? {
      assert SelfMsg(me, e, k, t.mine.value) in o.out;
    } else if cfg.NumExpected(e, me, k.sig) == 0 {
      RechecksSpeak(cfg, me, o.d, ks, k);
      var sends := D.TestSends(cfg, me, e, k, r);
      if me == 0 {
        assert sends.1[0] in sends.1;
        assert sends.1[0] in a.rel + D.Restart(cfg, me, a.d, e, ks).rel;
      } else {
        assert RollUp(me, cfg.tree(e).parent[me], e, k, r) in sends.0;
      }
    }
  }
}
