/** Whole runs of the DVM, and what every one of them promises. */
module FenceRuns {
  import opened RoutingTree
  import opened Fence
  import opened FenceContent
  import opened FenceSteps
  import opened FenceSystem
  import opened FenceRounds
  import opened FenceSources
  import opened FenceWire
  import opened FenceBlame
  import opened FenceRelays
  import opened FenceTheorems

  /** One enabled step. (Every state of a run from a placed one is placed: RunPlaced.) */
  ghost predicate Next(cfg: Config, s: State, step: Step, s': State)
    requires cfg.Valid()
  {
    Enabled(cfg, s, step) && (Placed(cfg, s) ==> s' == Do(cfg, s, step))
  }

  /** From `a`, one step after another, in any order, to `s`. */
  ghost predicate Run(cfg: Config, a: State, steps: seq<Step>, s: State)
    requires cfg.Valid()
  {
    if steps == [] then s == a
    else exists p :: Run(cfg, a, Before(steps), p) && Next(cfg, p, Last(steps), s)
  }

  function Before(steps: seq<Step>): (r: seq<Step>)
    requires steps != []
    ensures |r| == |steps| - 1
  {
    steps[..|steps| - 1]
  }

  function Last(steps: seq<Step>): Step
    requires steps != []
  {
    steps[|steps| - 1]
  }

  ghost predicate Leads(cfg: Config, a: State, s: State)
    requires cfg.Valid()
  {
    exists steps :: Run(cfg, a, steps, s)
  }

  /** From an idle DVM. */
  ghost predicate Reachable(cfg: Config, s: State)
    requires cfg.Valid()
  {
    Leads(cfg, Init(cfg), s)
  }

  // ---- one step, and one run, further ----

  lemma LeadsSelf(cfg: Config, s: State)
    requires cfg.Valid()
    ensures Leads(cfg, s, s)
  {
    assert Run(cfg, s, [], s);
  }

  lemma {:induction false} RunThen(cfg: Config, a: State, steps: seq<Step>, b: State, more: seq<Step>, c: State)
    requires cfg.Valid() && Run(cfg, a, steps, b) && Run(cfg, b, more, c)
    ensures Run(cfg, a, steps + more, c)
  {
    if more == [] {
      assert steps + more == steps;
    } else {
      var p :| Run(cfg, b, Before(more), p) && Next(cfg, p, Last(more), c);
      RunThen(cfg, a, steps, b, Before(more), p);
      assert Before(steps + more) == steps + Before(more) && Last(steps + more) == Last(more);
    }
  }

  lemma {:induction false} RunPlaced(cfg: Config, a: State, steps: seq<Step>, s: State)
    requires cfg.Valid() && Placed(cfg, a) && Run(cfg, a, steps, s)
    ensures Placed(cfg, s)
  {
    if steps != [] {
      var p :| Run(cfg, a, Before(steps), p) && Next(cfg, p, Last(steps), s);
      RunPlaced(cfg, a, Before(steps), p);
      StaysPlaced(cfg, p, Last(steps));
    }
  }

  lemma LeadsThen(cfg: Config, a: State, b: State, c: State)
    requires cfg.Valid() && Leads(cfg, a, b) && Leads(cfg, b, c)
    ensures Leads(cfg, a, c)
  {
    var steps :| Run(cfg, a, steps, b);
    var more :| Run(cfg, b, more, c);
    RunThen(cfg, a, steps, b, more, c);
  }

  lemma Extend(cfg: Config, p: State, step: Step, s: State)
    requires cfg.Valid() && Next(cfg, p, step, s)
    ensures Leads(cfg, p, s)
  {
    assert Run(cfg, p, [], p);
    assert Before([step]) == [] && Last([step]) == step;
    assert Run(cfg, p, [step], s);
  }

  lemma Delivers(cfg: Config, p: State, m: Msg, o: Outcome)
    requires cfg.Valid() && m in p.net && m.dst in p.ds && m.epoch == p.ds[m.dst].epoch
    requires (m.dst == 0 || m.dst in cfg.tree(m.epoch).parent) && RecvNow(cfg, m.dst, p.ds[m.dst], m) == o
    ensures Leads(cfg, p, Put(p, m.dst, o))
  {
    assert Next(cfg, p, RecvStep(m), Put(p, m.dst, o));
    Extend(cfg, p, RecvStep(m), Put(p, m.dst, o));
  }

  lemma Recovers(cfg: Config, p: State, d: nat, e: nat, o: Outcome)
    requires cfg.Valid()
    requires d in p.ds && p.ds[d].epoch < e && d in cfg.tree(e).living && Enter(cfg, d, p.ds[d], e) == o
    ensures Leads(cfg, p, Put(p, d, o))
  {
    assert Next(cfg, p, EnterStep(d, e), Put(p, d, o));
    Extend(cfg, p, EnterStep(d, e), Put(p, d, o));
  }

  lemma Retests(cfg: Config, p: State, d: nat, k: Key, o: Outcome)
    requires cfg.Valid() && d in p.ds && k in p.ds[d].ops
    requires (d == 0 || d in cfg.tree(p.ds[d].epoch).parent) && Check(cfg, d, p.ds[d], k, p.ds[d].ops[k]) == o
    ensures Leads(cfg, p, Put(p, d, o))
  {
    assert Next(cfg, p, CheckStep(d, k), Put(p, d, o));
    Extend(cfg, p, CheckStep(d, k), Put(p, d, o));
  }

  lemma Fences(cfg: Config, p: State, d: nat, sig: Sig, op: Op, status: Status, data: Blob)
    requires cfg.Valid() && d in p.ds && d in cfg.dmns(sig) && op != Unknown && !Called(p.ds[d], sig)
    ensures Leads(cfg, p, DoFence(cfg, p, d, sig, op, status, data))
  {
    Extend(cfg, p, FenceStep(d, sig, op, status, data), DoFence(cfg, p, d, sig, op, status, data));
  }

  lemma Retires(cfg: Config, p: State, d: nat)
    requires cfg.Valid() && d in p.ds && p.ds[d].seen < |p.log|
    ensures Leads(cfg, p, DoRelease(p, d))
  {
    assert Next(cfg, p, ReleaseStep(d), DoRelease(p, d));
    Extend(cfg, p, ReleaseStep(d), DoRelease(p, d));
  }

  /** What every reachable state satisfies. */
  ghost predicate Good(cfg: Config, s: State)
    requires cfg.Valid()
  {
    Inv(cfg, s) && Sources(s) && AllWired(cfg, s) && AllBlamed(s)
  }

  lemma InitKeeps(cfg: Config)
    requires cfg.Valid()
    ensures Good(cfg, Init(cfg))
  {
    InitInv(cfg);
  }

  lemma NextKeeps(cfg: Config, s: State, step: Step, s': State)
    requires cfg.Valid() && Good(cfg, s) && Next(cfg, s, step, s')
    ensures Good(cfg, s')
  {
    StepKeeps(cfg, s, step);
    StepSources(cfg, s, step);
    StepWired(cfg, s, step);
    if step.FenceStep? { FirstCall(s, step.d, step.sig); }
    StepBlamed(cfg, s, step);
  }

  lemma {:induction false} RunKeeps(cfg: Config, a: State, steps: seq<Step>, s: State)
    requires cfg.Valid() && Good(cfg, a) && Run(cfg, a, steps, s)
    ensures Good(cfg, s)
  {
    if steps != [] {
      var p :| Run(cfg, a, Before(steps), p) && Next(cfg, p, Last(steps), s);
      RunKeeps(cfg, a, Before(steps), p);
      NextKeeps(cfg, p, Last(steps), s);
    }
  }

  lemma ReachableKeeps(cfg: Config, s: State)
    requires cfg.Valid() && Reachable(cfg, s)
    ensures Good(cfg, s)
  {
    var steps :| Run(cfg, Init(cfg), steps, s);
    InitKeeps(cfg);
    RunKeeps(cfg, Init(cfg), steps, s);
  }

  /** ... of one tracker. */
  lemma TrackerKept(cfg: Config, s: State, d: nat, k: Key)
    requires cfg.Valid() && Reachable(cfg, s) && d in s.ds && k in s.ds[d].ops
    ensures KeyOk(cfg, s.calls, d, s.ds[d].epoch, k, s.ds[d].ops[k])
    ensures Wired(cfg, s.net, s.log, d, s.ds[d].epoch, k, s.ds[d].ops[k])
  {
    ReachableKeeps(cfg, s);
    assert OpsOk(cfg, s.calls, d, s.ds[d]) && DaemonWired(cfg, s.net, s.log, d, s.ds[d]);
  }

  lemma NextWhole(cfg: Config, sig: Sig, s: State, step: Step, s': State)
    requires cfg.Valid() && Shrinks(cfg) && KeepsRelays(cfg, sig) && Placed(cfg, s) && Content(cfg, s)
    requires Whole(cfg, sig, s) && Next(cfg, s, step, s')
    ensures Whole(cfg, sig, s')
  {
    StepWhole(cfg, sig, s, step);
  }

  lemma {:induction false} RunWhole(cfg: Config, sig: Sig, steps: seq<Step>, s: State)
    requires cfg.Valid() && Shrinks(cfg) && KeepsRelays(cfg, sig) && Run(cfg, Init(cfg), steps, s)
    ensures Whole(cfg, sig, s)
  {
    if steps != [] {
      var p :| Run(cfg, Init(cfg), Before(steps), p) && Next(cfg, p, Last(steps), s);
      RunWhole(cfg, sig, Before(steps), p);
      assert Reachable(cfg, p);
      ReachableKeeps(cfg, p);
      NextWhole(cfg, sig, p, Last(steps), s);
    }
  }

  // ---- what a release promises ----

  /** A successful release stands for calls made in its own round, under one
      operation, by participants living in its epoch; an allgather carries each
      of their blocks exactly once and a barrier carries nothing; each of them
      sent its contribution, and had it passed on, at the release's own epoch;
      and nobody living is missing if and only if no branch was counted that
      nothing was awaited from. */
  lemma ReleaseExact(cfg: Config, s: State, r: Release)
    requires cfg.Valid() && Reachable(cfg, s) && r in s.log && r.status == Success
    ensures r.op == Barrier || r.op == Allgather
    ensures r.arrived <= cfg.Part(r.epoch, r.key.sig)
    ensures forall x :: x in r.arrived ==>
              (x, r.key) in s.calls && s.calls[(x, r.key)].op == r.op && s.calls[(x, r.key)].status == Success
    ensures !r.aborted
    ensures r.op == Allgather ==> ExactlyOnce(s.calls, r.key, r.data, r.arrived)
    ensures r.op == Barrier ==> r.data == []
    ensures forall x :: x in r.arrived ==> Traced(s.net, 0, r.epoch, r.key, x)
    ensures r.arrived == cfg.Part(r.epoch, r.key.sig) <==> !r.short
  {
    ReachableKeeps(cfg, s);
    assert RelOk(cfg, s.calls, r) && ReleaseSourced(s.net, r);
  }

  /** Everybody who has entered the round lives in its release's epoch. */
  ghost predicate AllLive(cfg: Config, calls: Calls, r: Release) {
    forall x :: (x, r.key) in calls ==> x in cfg.Part(r.epoch, r.key.sig)
  }

  /** A failed release of any run is an abort, which carries nothing, or has the
      status some participant gave to the round, or says that two of them named
      different operations. It stands for whom it counted all the same; so the
      participant to blame is one of them, unless the release is short or that
      participant is gone, for a tracker keeps its status over a restart. */
  lemma FailureExplained(cfg: Config, s: State, r: Release)
    requires cfg.Valid() && Reachable(cfg, s) && r in s.log && r.status != Success
    ensures r.aborted ==> r.status.Error? && r.data == [] && r.arrived == {}
    ensures !r.aborted ==>
              && (Reported(s.calls, r.key, r.status) || (r.status == InvalidArg && Disagree(s.calls, r.key)))
              && FromCalls(s.calls, r.key, r.data, r.arrived)
              && r.arrived <= cfg.Part(r.epoch, r.key.sig)
              && (r.arrived == cfg.Part(r.epoch, r.key.sig) <==> !r.short)
    ensures !r.aborted && !r.short && AllLive(cfg, s.calls, r) ==>
              || (exists x :: x in r.arrived && (x, r.key) in s.calls && s.calls[(x, r.key)].status == r.status)
              || (r.status == InvalidArg && Disagree(s.calls, r.key))
  {
    ReachableKeeps(cfg, s);
    assert ReleaseBlamed(s.calls, r) && RelOk(cfg, s.calls, r);
    if !r.aborted && !r.short && AllLive(cfg, s.calls, r) && Reported(s.calls, r.key, r.status) {
      var x :| (x, r.key) in s.calls && s.calls[(x, r.key)].status == r.status;
      assert x in r.arrived;
    }
  }

  /** Where daemons only fail and every relay keeps a participant below it, a
      successful release is complete: every participant living in its epoch is
      in it, once. */
  lemma ReleaseComplete(cfg: Config, s: State, r: Release)
    requires cfg.Valid() && Reachable(cfg, s) && r in s.log && r.status == Success
    requires Shrinks(cfg) && KeepsRelays(cfg, r.key.sig)
    ensures r.arrived == cfg.Part(r.epoch, r.key.sig)
    ensures r.op == Allgather ==> ExactlyOnce(s.calls, r.key, r.data, cfg.Part(r.epoch, r.key.sig))
  {
    var steps :| Run(cfg, Init(cfg), steps, s);
    RunWhole(cfg, r.key.sig, steps, s);
    assert ReleaseWhole(r.key.sig, r);
    ReleaseExact(cfg, s, r);
  }

  /** Every hop of the way up: whatever a message stands for was sent by each
      participant itself, and brought to the message's sender, at the message's
      own epoch and for its own round. */
  lemma HopsTraced(cfg: Config, s: State, m: Msg, x: nat)
    requires cfg.Valid() && Reachable(cfg, s) && m in s.net && x in m.arrived
    ensures Traced(s.net, m.src, m.epoch, m.key, x)
  {
    ReachableKeeps(cfg, s);
    assert MsgSourced(s.net, m);
  }

  // ---- rounds ----

  /** No bucket ever holds a block of another round, one daemon's block twice, or
      anything its owner did not send at the bucket's own epoch. */
  lemma BucketsSeparate(cfg: Config, s: State, d: nat, k: Key)
    requires cfg.Valid() && Reachable(cfg, s) && d in s.ds && k in s.ds[d].ops && !Settled(d, s.ds[d].ops[k])
    ensures FromCalls(s.calls, k, s.ds[d].ops[k].bucket, s.ds[d].ops[k].arrived)
    ensures forall x :: x in s.ds[d].ops[k].arrived ==> Traced(s.net, d, s.ds[d].epoch, k, x)
  {
    ReachableKeeps(cfg, s);
    assert OpsOk(cfg, s.calls, d, s.ds[d]) && DaemonSourced(s.net, d, s.ds[d]);
    assert KeyOk(cfg, s.calls, d, s.ds[d].epoch, k, s.ds[d].ops[k]);
    assert Sourced(s.net, d, s.ds[d].epoch, k, s.ds[d].ops[k]);
  }

  ghost predicate Released(log: seq<Release>, n: nat, k: Key)
    requires n <= |log|
  {
    exists i :: 0 <= i < n && log[i].key == k
  }

  /** A daemon takes a contribution for stale exactly when it has itself
      processed that round's release: no current or future round is dropped. */
  lemma StaleIffReleased(cfg: Config, s: State, d: nat, k: Key)
    requires cfg.Valid() && Reachable(cfg, s) && d in s.ds
    ensures s.ds[d].seen <= |s.log|
    ensures Past(s.ds[d], k) <==> Released(s.log, s.ds[d].seen, k)
  {
    ReachableKeeps(cfg, s);
    PastIffReleased(s.log, s.ds[d], k);
  }

  lemma PastIffReleased(log: seq<Release>, d: Daemon, k: Key)
    requires LogOrdered(log) && InStep(log, d)
    ensures Past(d, k) <==> Released(log, d.seen, k)
  {
    if Past(d, k) {
      var n := FindRelease(log, 0, d.seen, k.sig, k.gen);
    }
    if i :| 0 <= i < d.seen && log[i].key == k {
      assert OrderedAt(log, i);
      CountMono(log, i + 1, d.seen, k.sig);
    }
  }

  /** Daemons that have processed the same releases stamp the same round, for
      every signature; the log names each round once and in order. */
  lemma SameRounds(cfg: Config, s: State, c: nat, d: nat, sig: Sig)
    requires cfg.Valid() && Reachable(cfg, s) && c in s.ds && d in s.ds && s.ds[c].seen == s.ds[d].seen
    ensures GenNext(s.ds[c], sig) == GenNext(s.ds[d], sig)
    ensures forall i, j :: 0 <= i < j < |s.log| ==> s.log[i].key != s.log[j].key
  {
    ReachableKeeps(cfg, s);
    assert InStep(s.log, s.ds[c]) && InStep(s.log, s.ds[d]);
    forall i, j | 0 <= i < j < |s.log| ensures s.log[i].key != s.log[j].key { OncePerRound(s.log, i, j); }
  }

  /** A daemon answers a round at most once in an epoch: two rollups of one
      round at one epoch are the same message. */
  lemma AnsweredOnce(cfg: Config, s: State, m: Msg, n: Msg)
    requires cfg.Valid() && Reachable(cfg, s) && m in s.net && n in s.net && SameAnswer(m, n)
    ensures m == n
  {
    ReachableKeeps(cfg, s);
  }

  // ---- accounting ----

  /** The count of a live tracker is its set slots and its own report, and an
      unanswered one has not reached it unless it awaits nothing. */
  lemma CountIsSlots(cfg: Config, s: State, d: nat, k: Key)
    requires cfg.Valid() && Reachable(cfg, s) && d in s.ds && k in s.ds[d].ops && !Settled(d, s.ds[d].ops[k])
    ensures var t := s.ds[d].ops[k];
            && t.nreported == |t.slots| + (if t.self then 1 else 0)
            && t.nexpected == cfg.NumExpected(s.ds[d].epoch, d, k.sig)
            && (!t.converged ==> t.nreported < t.nexpected || t.nreported == 0)
  {
    ReachableKeeps(cfg, s);
    assert OpsOk(cfg, s.calls, d, s.ds[d]);
    assert KeyOk(cfg, s.calls, d, s.ds[d].epoch, k, s.ds[d].ops[k]);
  }

  /** The slot of a delivered contribution: None is the daemon itself. */
  function SlotFor(m: Msg): Option<nat> { if m.src == m.dst then None else Some(m.src) }

  /** A repeat from a slot already counted moves no count, no data and no
      answer; at most the operations are found to disagree. */
  lemma ReplayIgnored(cfg: Config, s: State, m: Msg)
    requires cfg.Valid() && Reachable(cfg, s)
    requires m in s.net && m.dst in s.ds && m.epoch == s.ds[m.dst].epoch
    requires m.key in s.ds[m.dst].ops && Counted(s.ds[m.dst].ops[m.key], SlotFor(m))
    ensures Placed(cfg, s)
    ensures exists st :: DoRecv(cfg, s, m) == s.(ds := s.ds[m.dst := WithStatus(s.ds[m.dst], m.key, st)])
  {
    Delivered(cfg, s, m);
    RepeatIgnored(cfg, s.calls, m.dst, s.ds[m.dst], m);
    var st :| RecvNow(cfg, m.dst, s.ds[m.dst], m) == Outcome(WithStatus(s.ds[m.dst], m.key, st), {}, []);
    PutQuiet(s, m.dst, WithStatus(s.ds[m.dst], m.key, st));
  }

  lemma PutQuiet(s: State, me: nat, d: Daemon)
    requires me in s.ds
    ensures Put(s, me, Outcome(d, {}, [])) == s.(ds := s.ds[me := d])
  {
    assert s.net + {} == s.net && s.log + [] == s.log;
  }

  function WithStatus(d: Daemon, k: Key, st: Status): Daemon
    requires k in d.ops
  {
    d.(ops := d.ops[k := d.ops[k].(status := st)])
  }

  lemma Delivered(cfg: Config, s: State, m: Msg)
    requires cfg.Valid() && Reachable(cfg, s) && m in s.net && m.dst in s.ds && m.epoch == s.ds[m.dst].epoch
    ensures Placed(cfg, s) && OpsOk(cfg, s.calls, m.dst, s.ds[m.dst]) && MsgOk(cfg, s.calls, m)
    ensures m.key in s.ds[m.dst].ops ==> !Past(s.ds[m.dst], m.key)
  {
    ReachableKeeps(cfg, s);
    assert InStep(s.log, s.ds[m.dst]);
  }

  lemma RepeatIgnored(cfg: Config, calls: Calls, me: nat, d: Daemon, m: Msg)
    requires cfg.Valid() && (me == 0 || me in cfg.tree(d.epoch).parent) && OpsOk(cfg, calls, me, d)
    requires MsgOk(cfg, calls, m) && m.dst == me && m.epoch == d.epoch
    requires m.key in d.ops && !Past(d, m.key) && Counted(d.ops[m.key], SlotFor(m))
    ensures exists st :: RecvNow(cfg, me, d, m) == Outcome(WithStatus(d, m.key, st), {}, [])
  {
    RecvShape(cfg, calls, me, d, m);
    assert KeyOk(cfg, calls, me, d.epoch, m.key, d.ops[m.key]);
    var t := MergeOp(d.ops[m.key], m.op);
    assert t == d.ops[m.key].(status := t.status);
    assert RecvNow(cfg, me, d, m) == Outcome(WithStatus(d, m.key, t.status), {}, []);
  }
}
