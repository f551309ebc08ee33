/** Every completion handed to the group code is still queued, was invoked, or
    went down with a tracker its release disagreed with. */
module GroupCompletions {
  import opened RoutingTree
  import opened Fence
  import Generations
  import opened GroupPending

  datatype Step =
    | Enter(g: Group, cb: Option<Token>, fate: Fate)
    | Cancel(cb: Option<Token>, st: Status)
    | Receive(g: Group, resolves: bool)
    | Finish(g: Group, st: Status)

  function Do(s: Server, step: Step): Server {
    match step
    case Enter(g, cb, fate) => UpCall(s, g, cb, fate)
    case Cancel(cb, st) => Tell(s, cb, st)
    case Receive(g, resolves) => Contribute(s, g, resolves)
    case Finish(g, st) => Released(s, g, st)
  }

  function Exec(steps: seq<Step>): Server {
    if steps == [] then Server([], [], [], []) else Do(Exec(steps[..|steps| - 1]), steps[|steps| - 1])
  }

  // ---- how often a completion is where ----

  function Occurs(p: seq<Token>, t: Token): nat {
    if p == [] then 0 else Occurs(p[..|p| - 1], t) + if p[|p| - 1] == t then 1 else 0
  }

  function HandedBy(step: Step, t: Token): nat {
    if (step.Enter? || step.Cancel?) && step.cb == Some(t) then 1 else 0
  }

  function Handed(steps: seq<Step>, t: Token): nat {
    if steps == [] then 0 else Handed(steps[..|steps| - 1], t) + HandedBy(steps[|steps| - 1], t)
  }

  function Queued(colls: seq<Coll>, t: Token): nat {
    if colls == [] then 0 else Queued(colls[..|colls| - 1], t) + Occurs(colls[|colls| - 1].pending, t)
  }

  function Told(invoked: seq<Done>, t: Token): nat {
    if invoked == [] then 0 else Told(invoked[..|invoked| - 1], t) + if invoked[|invoked| - 1].token == t then 1 else 0
  }

  function Held(s: Server, t: Token): nat { Queued(s.colls, t) + Told(s.invoked, t) + Occurs(s.lost, t) }

  lemma {:induction false} OccursConcat(a: seq<Token>, b: seq<Token>, t: Token)
    ensures Occurs(a + b, t) == Occurs(a, t) + Occurs(b, t)
  {
    if b == [] {
      assert a + b == a;
    } else {
      OccursConcat(a, b[..|b| - 1], t);
      assert (a + b)[..|a + b| - 1] == a + b[..|b| - 1];
    }
  }

  lemma {:induction false} QueuedConcat(a: seq<Coll>, b: seq<Coll>, t: Token)
    ensures Queued(a + b, t) == Queued(a, t) + Queued(b, t)
  {
    if b == [] {
      assert a + b == a;
    } else {
      QueuedConcat(a, b[..|b| - 1], t);
      assert (a + b)[..|a + b| - 1] == a + b[..|b| - 1];
    }
  }

  lemma QueuedOne(c: Coll, t: Token)
    ensures Queued([c], t) == Occurs(c.pending, t)
  {
    assert [c][..0] == [];
  }

  lemma QueuedSplit(colls: seq<Coll>, i: nat, t: Token)
    requires i < |colls|
    ensures Queued(colls, t) == Queued(colls[..i], t) + Occurs(colls[i].pending, t) + Queued(colls[i + 1..], t)
  {
    assert colls == colls[..i] + ([colls[i]] + colls[i + 1..]);
    QueuedConcat(colls[..i], [colls[i]] + colls[i + 1..], t);
    QueuedConcat([colls[i]], colls[i + 1..], t);
    QueuedOne(colls[i], t);
  }

  lemma QueuedSet(colls: seq<Coll>, i: nat, c: Coll, t: Token)
    requires i < |colls|
    ensures Queued(colls[i := c], t) + Occurs(colls[i].pending, t) == Queued(colls, t) + Occurs(c.pending, t)
  {
    var colls' := colls[i := c];
    QueuedSplit(colls, i, t);
    QueuedSplit(colls', i, t);
    assert colls'[..i] == colls[..i] && colls'[i + 1..] == colls[i + 1..];
  }

  lemma QueuedDrop(colls: seq<Coll>, i: nat, t: Token)
    requires i < |colls|
    ensures Queued(colls[..i] + colls[i + 1..], t) + Occurs(colls[i].pending, t) == Queued(colls, t)
  {
    QueuedSplit(colls, i, t);
    QueuedConcat(colls[..i], colls[i + 1..], t);
  }

  lemma ToldOne(invoked: seq<Done>, d: Done, t: Token)
    ensures Told(invoked + [d], t) == Told(invoked, t) + if d.token == t then 1 else 0
  {
    assert (invoked + [d])[..|invoked|] == invoked;
  }

  lemma {:induction false} ToldAll(invoked: seq<Done>, p: seq<Token>, st: Status, t: Token)
    ensures Told(invoked + Answered(p, st), t) == Told(invoked, t) + Occurs(p, t)
  {
    if p == [] {
      assert invoked + Answered(p, st) == invoked;
    } else {
      var q, last := p[..|p| - 1], Done(p[|p| - 1], st);
      ToldAll(invoked, q, st, t);
      assert invoked + Answered(p, st) == (invoked + Answered(q, st)) + [last];
      ToldOne(invoked + Answered(q, st), last, t);
    }
  }

  /** Getting a tracker moves no completion. */
  lemma GotQueues(colls: seq<Coll>, g: Group, ask: Ask, t: Token)
    ensures Queued(Got(colls, g, ask).0, t) == Queued(colls, t)
  {
    var i := Index(colls, g);
    if i < |colls| {
      QueuedSet(colls, i, Fold(colls[i], g), t);
    } else {
      QueuedConcat(colls, [NewColl(g)], t);
      QueuedOne(NewColl(g), t);
    }
  }

  lemma TellHolds(s: Server, cb: Option<Token>, st: Status, t: Token)
    ensures Held(Tell(s, cb, st), t) == Held(s, t) + if cb == Some(t) then 1 else 0
  {
    if cb.Some? { ToldOne(s.invoked, Done(cb.value, st), t); }
  }

  lemma QueueHolds(s: Server, i: nat, cb: Token, t: Token)
    requires i < |s.colls|
    ensures Held(s.(colls := s.colls[i := s.colls[i].(pending := s.colls[i].pending + [cb])]), t)
         == Held(s, t) + if cb == t then 1 else 0
  {
    var p := s.colls[i].pending;
    QueuedSet(s.colls, i, s.colls[i].(pending := p + [cb]), t);
    assert (p + [cb])[..|p|] == p;
  }

  lemma UpCallHolds(s: Server, g: Group, cb: Option<Token>, fate: Fate, t: Token)
    ensures Held(UpCall(s, g, cb, fate), t) == Held(s, t) + HandedBy(Enter(g, cb, fate), t)
  {
    var ask := Open(!fate.Unresolved?);
    var r := Got(s.colls, g, ask);
    var s' := s.(colls := r.0, memo := Without(s.memo, NameOf(g)));
    GotQueues(s.colls, g, ask, t);
    if fate.BadDirectives? {
      TellHolds(s, cb, Error(fate.e), t);
    } else if r.1.None? {
      TellHolds(s', cb, NOT_FOUND, t);
    } else if fate.Unsent? {
      TellHolds(s', cb, Error(fate.e), t);
    } else if cb.Some? {
      QueueHolds(s', r.1.value, cb.value, t);
    }
  }

  /** A release answers what is queued on a tracker it agrees with, and loses
      what is queued on one it does not. */
  lemma ReleasedIs(s: Server, g: Group, st: Status)
    ensures var i, s' := Index(s.colls, g), Released(s, g, st);
            && s'.memo == Remembered(s.memo, NameOf(g))
            && if i == |s.colls| then s'.colls == s.colls && s'.invoked == s.invoked && s'.lost == s.lost
            else
              && s'.colls == s.colls[..i] + s.colls[i + 1..]
              && s'.invoked == s.invoked + (if Agrees(s.colls[i], g) then Answered(s.colls[i].pending, st) else [])
              && s'.lost == s.lost + (if Agrees(s.colls[i], g) then [] else s.colls[i].pending)
  {
    var i, m := Index(s.colls, g), Served(s, g, st);
    SameIndex(s.colls, m.colls, g);
    if i < |s.colls| { assert m.colls[..i] == s.colls[..i] && m.colls[i + 1..] == s.colls[i + 1..]; }
  }

  lemma ReleaseHolds(s: Server, g: Group, st: Status, t: Token)
    ensures Held(Released(s, g, st), t) == Held(s, t)
  {
    var i := Index(s.colls, g);
    ReleasedIs(s, g, st);
    if i < |s.colls| {
      QueuedDrop(s.colls, i, t);
      ToldAll(s.invoked, s.colls[i].pending, st, t);
      OccursConcat(s.lost, s.colls[i].pending, t);
      assert s.invoked + [] == s.invoked && s.lost + [] == s.lost;
    }
  }

  /** Every completion handed in, over any run of up-calls, contributions,
      releases and failures, is queued, invoked or lost, as often as it was
      handed in. */
  lemma {:induction false} Conserved(steps: seq<Step>, t: Token)
    ensures Handed(steps, t)
         == Queued(Exec(steps).colls, t) + Told(Exec(steps).invoked, t) + Occurs(Exec(steps).lost, t)
  {
    if steps != [] {
      var rest, step := steps[..|steps| - 1], steps[|steps| - 1];
      Conserved(rest, t);
      DoHolds(Exec(rest), step, t);
    }
  }

  lemma DoHolds(s: Server, step: Step, t: Token)
    ensures Held(Do(s, step), t) == Held(s, t) + HandedBy(step, t)
  {
    match step
    case Enter(g, cb, fate) => UpCallHolds(s, g, cb, fate, t);
    case Cancel(cb, st) => TellHolds(s, cb, st, t);
    case Receive(g, resolves) => GotQueues(s.colls, g, Open(resolves), t);
    case Finish(g, st) => ReleaseHolds(s, g, st, t);
  }

  // ---- one tracker per name ----

  ghost predicate OnePerName(colls: seq<Coll>) {
    forall i, j :: 0 <= i < j < |colls| ==> colls[i].id != colls[j].id || colls[i].op != colls[j].op
  }

  lemma GotKeepsNames(colls: seq<Coll>, g: Group, ask: Ask)
    requires OnePerName(colls)
    ensures OnePerName(Got(colls, g, ask).0)
  {
  }

  lemma UpCallKeepsNames(s: Server, g: Group, cb: Option<Token>, fate: Fate)
    requires OnePerName(s.colls)
    ensures OnePerName(UpCall(s, g, cb, fate).colls)
  {
    GotKeepsNames(s.colls, g, Open(!fate.Unresolved?));
  }

  lemma DoKeepsNames(s: Server, step: Step)
    requires OnePerName(s.colls)
    ensures OnePerName(Do(s, step).colls)
  {
    match step
    case Enter(g, cb, fate) => UpCallKeepsNames(s, g, cb, fate);
    case Cancel(_, _) =>
    case Receive(g, resolves) => GotKeepsNames(s.colls, g, Open(resolves));
    case Finish(g, st) => ReleasedIs(s, g, st);
  }

  lemma {:induction false} ExecNames(steps: seq<Step>)
    ensures OnePerName(Exec(steps).colls)
  {
    if steps != [] {
      ExecNames(steps[..|steps| - 1]);
      DoKeepsNames(Exec(steps[..|steps| - 1]), steps[|steps| - 1]);
    }
  }

  /** A released operation leaves no tracker, and so nothing queued, behind. */
  lemma ReleaseLeavesNone(steps: seq<Step>, g: Group, st: Status)
    ensures forall c :: c in Exec(steps + [Finish(g, st)]).colls ==> !Named(c, g)
  {
    ExecNames(steps);
    assert (steps + [Finish(g, st)])[..|steps|] == steps;
    ReleasedIs(Exec(steps), g, st);
  }

  // ---- when nothing is lost ----

  /** A release its own tracker disagrees with, while somebody is waiting on it. */
  predicate Clash(s: Server, step: Step) {
    && step.Finish?
    && var i := Index(s.colls, step.g);
       i < |s.colls| && !Agrees(s.colls[i], step.g) && s.colls[i].pending != []
  }

  predicate ClashAt(steps: seq<Step>, n: nat)
    requires n < |steps|
  {
    Clash(Exec(steps[..n]), steps[n])
  }

  lemma DoLoses(s: Server, step: Step)
    ensures |Do(s, step).lost| >= |s.lost|
    ensures |Do(s, step).lost| > |s.lost| <==> Clash(s, step)
  {
    if step.Finish? { ReleasedIs(s, step.g, step.st); }
  }

  /** Nothing is lost if and only if no release clashes with the leader count or
      the final order of a tracker somebody is waiting on. */
  lemma {:induction false} LostIffClash(steps: seq<Step>)
    ensures Exec(steps).lost == [] <==> forall n :: 0 <= n < |steps| ==> !ClashAt(steps, n)
  {
    if steps != [] {
      var rest, last := steps[..|steps| - 1], |steps| - 1;
      LostIffClash(rest);
      DoLoses(Exec(rest), steps[last]);
      assert ClashAt(steps, last) <==> Clash(Exec(rest), steps[last]);
      forall n | 0 <= n < last ensures ClashAt(rest, n) <==> ClashAt(steps, n) {
        assert rest[..n] == steps[..n];
      }
    }
  }

  /** Without a clash, a completion handed in once is queued or invoked, once. */
  lemma QueuedOrInvokedOnce(steps: seq<Step>, t: Token)
    requires Handed(steps, t) == 1
    requires forall n :: 0 <= n < |steps| ==> !ClashAt(steps, n)
    ensures Queued(Exec(steps).colls, t) + Told(Exec(steps).invoked, t) == 1
  {
    Conserved(steps, t);
    LostIffClash(steps);
  }

  // ---- what the controller really sends ----

  /** A successful construct has used its final order up before it is released;
      only an aborted or failed one still carries it. */
  predicate Issued(step: Step) {
    step.Finish? && step.g.op == Construct && step.st == Success ==> step.g.order == None
  }

  /** So a successful construct's release loses a completion if and only if it
      claims another number of leaders than the tracker somebody is waiting on. */
  lemma SuccessLosesIffLeadersDiffer(steps: seq<Step>, g: Group)
    requires g.op == Construct && Issued(Finish(g, Success))
    ensures var s, s' := Exec(steps), Exec(steps + [Finish(g, Success)]);
            var i := Index(s.colls, g);
            var differ := i < |s.colls| && s.colls[i].pending != []
                          && 0 < g.bootstrap && 0 < s.colls[i].nleaders && g.bootstrap != s.colls[i].nleaders;
            s'.lost != s.lost <==> differ
  {
    assert (steps + [Finish(g, Success)])[..|steps|] == steps;
    ReleasedIs(Exec(steps), g, Success);
  }

  /** Two participants ask for different final orders on different daemons and
      the construct times out; its release carries the other order, and this
      daemon's completion is dropped. */
  lemma OrderClashLoses() returns (steps: seq<Step>)
    ensures forall n :: 0 <= n < |steps| ==> Issued(steps[n])
    ensures Handed(steps, 7) == 1 && Exec(steps) == Server([], [Name("g", Construct)], [], [7])
  {
    var ours, theirs := [Proc("job", Rank(0)), Proc("job", Rank(1))], [Proc("job", Rank(1)), Proc("job", Rank(0))];
    assert ours[0] != theirs[0];
    var g := Group("g", Construct, 0, Some(ours));
    var enter, finish := Enter(g, Some(7), Sent), Finish(Group("g", Construct, 0, Some(theirs)), TIMED_OUT);
    steps := [enter, finish];
    assert steps[..1] == [enter];
    OneWaits(ours);
    ReleasedIs(Exec([enter]), finish.g, TIMED_OUT);
    assert Handed([enter], 7) == 1 && Handed(steps, 7) == Handed([enter], 7) + HandedBy(finish, 7);
  }

  lemma OneWaits(order: seq<Proc>)
    ensures var g := Group("g", Construct, 0, Some(order));
            && Exec([Enter(g, Some(7), Sent)]) == Server([Coll("g", Construct, 0, Some(order), [7])], [], [], [])
            && Handed([Enter(g, Some(7), Sent)], 7) == 1
  {
    var g := Group("g", Construct, 0, Some(order));
    var none: seq<Coll> := [];
    assert none + [NewColl(g)] == [NewColl(g)] && NewColl(g).pending + [7] == [7];
    assert [Enter(g, Some(7), Sent)][..0] == [];
    assert Exec([Enter(g, Some(7), Sent)]) == UpCall(Server([], [], [], []), g, Some(7), Sent);
  }

  // ---- stragglers ----

  /** How long ago this name was remembered, counted in later ones. */
  predicate Recalled(memo: seq<Name>, x: Name, age: nat) {
    exists p :: 0 <= p < |memo| && memo[p] == x && |memo| - 1 - p <= age
  }

  lemma RecallNext(memo: seq<Name>, x: Name, y: Name, age: nat)
    requires Recalled(memo, x, age) && age + 1 < GROUP_MEMO_MAX
    ensures Recalled(Remembered(memo, y), x, age + 1)
  {
    var p :| 0 <= p < |memo| && memo[p] == x && |memo| - 1 - p <= age;
    if y !in memo {
      var memo' := Remembered(memo, y);
      var p' := p - (|memo| - |Generations.Evicted(memo, GROUP_MEMO_MAX)|);
      assert memo'[p'] == x;
    }
  }

  lemma {:induction false} RecallWithout(memo: seq<Name>, x: Name, y: Name, age: nat)
    requires Recalled(memo, x, age) && x != y
    ensures Recalled(Without(memo, y), x, age)
  {
    var p :| 0 <= p < |memo| && memo[p] == x && |memo| - 1 - p <= age;
    var rest, last := memo[..|memo| - 1], memo[|memo| - 1];
    var r := Without(memo, y);
    if p == |rest| {
      assert r[|r| - 1] == x;
    } else {
      assert rest[p] == x;
      if last == y {
        RecallWithout(rest, x, y, if age == 0 then 0 else age - 1);
      } else {
        RecallWithout(rest, x, y, age - 1);
        var q :| 0 <= q < |Without(rest, y)| && Without(rest, y)[q] == x && |Without(rest, y)| - 1 - q <= age - 1;
        assert r[q] == x;
      }
    }
  }

  /** Releases since, and no local client that starts the operation again. */
  function Releases(steps: seq<Step>): nat {
    if steps == [] then 0 else Releases(steps[..|steps| - 1]) + if steps[|steps| - 1].Finish? then 1 else 0
  }

  predicate Restarts(step: Step, x: Name) { step.Enter? && !step.fate.BadDirectives? && NameOf(step.g) == x }

  /** Over: remembered, and nobody holds a tracker for it. */
  ghost predicate Over(s: Server, g: Group, age: nat) {
    Recalled(s.memo, NameOf(g), age) && Clear(s.colls, g)
  }

  ghost predicate Clear(colls: seq<Coll>, g: Group) { forall c :: c in colls ==> !Named(c, g) }

  lemma GotStaysClear(colls: seq<Coll>, g: Group, h: Group, ask: Ask)
    requires Clear(colls, g) && NameOf(h) != NameOf(g)
    ensures Clear(Got(colls, h, ask).0, g)
  {
  }

  lemma UpCallStaysOver(s: Server, g: Group, h: Group, cb: Option<Token>, fate: Fate, age: nat)
    requires Over(s, g, age) && NameOf(h) != NameOf(g)
    ensures Over(UpCall(s, h, cb, fate), g, age)
  {
    RecallWithout(s.memo, NameOf(g), NameOf(h), age);
    GotStaysClear(s.colls, g, h, Open(!fate.Unresolved?));
  }

  lemma FinishStaysOver(s: Server, g: Group, h: Group, st: Status, age: nat)
    requires Over(s, g, age) && age + 1 < GROUP_MEMO_MAX
    ensures Over(Released(s, h, st), g, age + 1)
  {
    RecallNext(s.memo, NameOf(g), NameOf(h), age);
    ReleasedIs(s, h, st);
  }

  lemma StepStaysOver(s: Server, g: Group, step: Step, age: nat)
    requires Over(s, g, age) && !Restarts(step, NameOf(g)) && (step.Finish? ==> age + 1 < GROUP_MEMO_MAX)
    ensures Over(Do(s, step), g, if step.Finish? then age + 1 else age)
  {
    match step
    case Enter(h, cb, fate) =>
      if !fate.BadDirectives? { UpCallStaysOver(s, g, h, cb, fate, age); }
    case Cancel(_, _) =>
    case Receive(h, resolves) =>
      if NameOf(h) != NameOf(g) {
        GotStaysClear(s.colls, g, h, Open(resolves));
      } else {
        StragglerIgnored(s, h, age, resolves);
      }
    case Finish(h, st) => FinishStaysOver(s, g, h, st, age);
  }

  /** An operation released here, for the first time since a local client last
      started it, stays over: until one starts it again, or 64 more releases
      push it out of memory, no contribution opens a tracker for it, whatever
      else happens. */
  lemma {:induction false} StaysOver(steps: seq<Step>, g: Group, st: Status, more: seq<Step>)
    requires NameOf(g) !in Exec(steps).memo && Releases(more) < GROUP_MEMO_MAX
    requires forall n :: 0 <= n < |more| ==> !Restarts(more[n], NameOf(g))
    ensures Over(Exec(steps + [Finish(g, st)] + more), g, Releases(more))
  {
    var start := steps + [Finish(g, st)];
    if more == [] {
      assert start + more == start && start[..|steps|] == steps;
      ReleaseLeavesNone(steps, g, st);
      ReleasedIs(Exec(steps), g, st);
      var memo := Exec(start).memo;
      assert memo[|memo| - 1] == NameOf(g);
    } else {
      var rest, step := more[..|more| - 1], more[|more| - 1];
      StaysOver(steps, g, st, rest);
      assert (start + more)[..|start + more| - 1] == start + rest;
      StepStaysOver(Exec(start + rest), g, step, Releases(rest));
    }
  }

  /** While it is over, a straggler's contribution changes nothing. */
  lemma StragglerIgnored(s: Server, g: Group, age: nat, resolves: bool)
    requires Over(s, g, age)
    ensures Do(s, Receive(g, resolves)) == s
  {
    var p :| 0 <= p < |s.memo| && s.memo[p] == NameOf(g) && |s.memo| - 1 - p <= age;
  }
}
