/** Every callback of the daemon as written is a run of the step system, from
    any placed state: so every run of such daemons is one of its
    runs. */
module FenceRefines {
  import opened Fence
  import opened FenceContent
  import opened FenceSystem
  import opened FenceRuns
  import D = FenceDaemon

  /** One outcome after another is one outcome. */
  function Then(a: Outcome, b: Outcome): Outcome { Outcome(b.d, a.out + b.out, a.rel + b.rel) }

  lemma PutThen(s: State, me: nat, a: Outcome, b: Outcome)
    requires me in s.ds
    ensures Put(Put(s, me, a), me, b) == Put(s, me, Then(a, b))
  {
    assert s.ds[me := a.d][me := b.d] == s.ds[me := b.d];
    assert s.net + a.out + b.out == s.net + (a.out + b.out);
    assert s.log + a.rel + b.rel == s.log + (a.rel + b.rel);
  }

  lemma PutNothing(s: State, me: nat)
    requires me in s.ds
    ensures Put(s, me, Outcome(s.ds[me], {}, [])) == s
  {
    PutQuiet(s, me, s.ds[me]);
    assert s.ds[me := s.ds[me]] == s.ds;
  }

  /** Nothing done is a run too. */
  lemma StaysPut(cfg: Config, s: State, me: nat)
    requires cfg.Valid() && me in s.ds
    ensures Leads(cfg, s, Put(s, me, Outcome(s.ds[me], {}, [])))
  {
    PutNothing(s, me);
    LeadsSelf(cfg, s);
  }

  /** One callback after another. */
  lemma PutLeads(cfg: Config, s: State, me: nat, a: Outcome, b: Outcome)
    requires cfg.Valid() && me in s.ds
    requires Leads(cfg, s, Put(s, me, a)) && Leads(cfg, Put(s, me, a), Put(Put(s, me, a), me, b))
    ensures Leads(cfg, s, Put(s, me, Then(a, b)))
  {
    PutThen(s, me, a, b);
    LeadsThen(cfg, s, Put(s, me, a), Put(s, me, Then(a, b)));
  }

  lemma {:induction false} RechecksRun(cfg: Config, s: State, d: nat, ks: seq<Key>)
    requires cfg.Valid() && d in s.ds && PlacedAt(cfg, d, s.ds[d].epoch)
    ensures Leads(cfg, s, Put(s, d, D.Rechecks(cfg, d, s.ds[d], ks)))
  {
    if ks == [] {
      StaysPut(cfg, s, d);
    } else {
      var ks', k := ks[..|ks| - 1], ks[|ks| - 1];
      var o := D.Rechecks(cfg, d, s.ds[d], ks');
      RechecksRun(cfg, s, d, ks');
      RecheckRun(cfg, Put(s, d, o), d, k);
      PutLeads(cfg, s, d, o, D.Recheck(cfg, d, o.d, k));
    }
  }

  lemma RecheckRun(cfg: Config, s: State, d: nat, k: Key)
    requires cfg.Valid() && d in s.ds && PlacedAt(cfg, d, s.ds[d].epoch)
    ensures Leads(cfg, s, Put(s, d, D.Recheck(cfg, d, s.ds[d], k)))
  {
    if k in s.ds[d].ops && s.ds[d].ops[k].mine.None? {
      Retests(cfg, s, d, k, D.Recheck(cfg, d, s.ds[d], k));
    } else {
      StaysPut(cfg, s, d);
    }
  }

  /** The restart at a new epoch, with its replays and its answers. */
  lemma RestartRun(cfg: Config, s: State, d: nat, e: nat, ks: seq<Key>)
    requires cfg.Valid() && d in s.ds && s.ds[d].epoch < e && PlacedAt(cfg, d, e)
    ensures Leads(cfg, s, Put(s, d, D.Restart(cfg, d, s.ds[d], e, ks)))
  {
    var o := Enter(cfg, d, s.ds[d], e);
    Recovers(cfg, s, d, e, o);
    RechecksRun(cfg, Put(s, d, o), d, ks);
    PutLeads(cfg, s, d, o, D.Rechecks(cfg, d, o.d, ks));
    assert o.rel + D.Rechecks(cfg, d, o.d, ks).rel == D.Rechecks(cfg, d, o.d, ks).rel;
  }

  lemma AbortRun(cfg: Config, s: State, k: Key, code: int)
    requires cfg.Valid() && 0 in s.ds && k in s.ds[0].ops
    requires !s.ds[0].ops[k].converged && !s.ds[0].ops[k].aborting
    ensures Leads(cfg, s, Put(s, 0, Abort(s.ds[0], k, code)))
  {
    Extend(cfg, s, AbortStep(k, code), Put(s, 0, Abort(s.ds[0], k, code)));
  }

  lemma {:induction false} AbortsRun(cfg: Config, s: State, ks: seq<Key>, lost: Sig -> bool, code: int)
    requires cfg.Valid() && 0 in s.ds
    ensures Leads(cfg, s, Put(s, 0, D.Aborts(s.ds[0], ks, lost, code)))
    ensures D.Aborts(s.ds[0], ks, lost, code).d.epoch == s.ds[0].epoch
  {
    if ks == [] {
      StaysPut(cfg, s, 0);
    } else {
      var ks', k := ks[..|ks| - 1], ks[|ks| - 1];
      var o := D.Aborts(s.ds[0], ks', lost, code);
      AbortsRun(cfg, s, ks', lost, code);
      if D.Doomed(o.d, k, lost) {
        AbortRun(cfg, Put(s, 0, o), k, code);
        PutLeads(cfg, s, 0, o, Abort(o.d, k, code));
        assert o.out + {} == {} by { AbortsQuiet(s.ds[0], ks', lost, code); }
      }
    }
  }

  lemma {:induction false} AbortsQuiet(d: Daemon, ks: seq<Key>, lost: Sig -> bool, code: int)
    ensures D.Aborts(d, ks, lost, code).out == {}
  {
    if ks != [] { AbortsQuiet(d, ks[..|ks| - 1], lost, code); }
  }

  /** A global fault notice, whatever epoch it carries, at any daemon. */
  lemma FaultNoticeRun(cfg: Config, s: State, d: nat, e: nat, ks: seq<Key>, lost: Sig -> bool, code: int)
    requires cfg.Valid() && d in s.ds && PlacedAt(cfg, d, e)
    ensures var a := if d == 0 then D.Aborts(s.ds[d], ks, lost, code) else Outcome(s.ds[d], {}, []);
            var b := if s.ds[d].epoch < e then D.Restart(cfg, d, a.d, e, ks) else Outcome(a.d, {}, []);
            Leads(cfg, s, Put(s, d, Outcome(b.d, b.out, a.rel + b.rel)))
  {
    var a := if d == 0 then D.Aborts(s.ds[d], ks, lost, code) else Outcome(s.ds[d], {}, []);
    var b := if s.ds[d].epoch < e then D.Restart(cfg, d, a.d, e, ks) else Outcome(a.d, {}, []);
    if d == 0 {
      AbortsRun(cfg, s, ks, lost, code);
      AbortsQuiet(s.ds[d], ks, lost, code);
    } else {
      StaysPut(cfg, s, d);
    }
    var s1 := Put(s, d, a);
    if s.ds[d].epoch < e { RestartRun(cfg, s1, d, e, ks); } else { StaysPut(cfg, s1, d); }
    PutLeads(cfg, s, d, a, b);
    assert a.out + b.out == b.out;
  }

  /** A contribution of any epoch: dropped, counted, or counted after catching up. */
  lemma RecvRun(cfg: Config, s: State, m: Msg, ks: seq<Key>, resolves: bool)
    requires cfg.Valid() && m in s.net && m.dst in s.ds
    requires PlacedAt(cfg, m.dst, m.epoch) && s.ds[m.dst].epoch <= m.epoch
    ensures var a := if s.ds[m.dst].epoch < m.epoch then D.Restart(cfg, m.dst, s.ds[m.dst], m.epoch, ks)
                     else Outcome(s.ds[m.dst], {}, []);
            a.d.epoch == m.epoch && Leads(cfg, s, Put(s, m.dst, Then(a, D.Delivery(cfg, m.dst, a.d, m, resolves))))
  {
    var d := m.dst;
    var a := if s.ds[d].epoch < m.epoch then D.Restart(cfg, d, s.ds[d], m.epoch, ks) else Outcome(s.ds[d], {}, []);
    if s.ds[d].epoch < m.epoch { RestartRun(cfg, s, d, m.epoch, ks); } else { StaysPut(cfg, s, d); }
    var b := D.Delivery(cfg, d, a.d, m, resolves);
    if m.key in a.d.ops || resolves { Delivers(cfg, Put(s, d, a), m, b); } else { StaysPut(cfg, Put(s, d, a), d); }
    PutLeads(cfg, s, d, a, b);
  }

  /** A local client entering, on a daemon that hosts a participant, once a round. */
  lemma CallRun(cfg: Config, s: State, d: nat, sig: Sig, op: Op, status: Status, data: Blob)
    requires cfg.Valid() && d in s.ds && d in cfg.dmns(sig) && op != Unknown && !Called(s.ds[d], sig)
    ensures var k := Key(sig, GenNext(s.ds[d], sig));
            var s' := Put(s, d, FenceCall(cfg, d, s.ds[d], sig, op, status, data));
            Leads(cfg, s, s'.(calls := s.calls[(d, k) := Call(op, data, status)]))
  {
    Fences(cfg, s, d, sig, op, status, data);
  }

  /** The next release of the log, at any daemon. */
  lemma ReleaseRun(cfg: Config, s: State, d: nat)
    requires cfg.Valid() && d in s.ds && s.ds[d].seen < |s.log|
    ensures Leads(cfg, s, s.(ds := s.ds[d := Retire(s.ds[d], s.log[s.ds[d].seen])]))
  {
    Retires(cfg, s, d);
  }
}
