/** One tracker at a time: the list of trackers holds, for every operation,
    exactly what a single automaton for that operation would. */
module GroupTrackers {
  import opened RoutingTree
  import opened Fence
  import opened GroupPending
  import opened GroupCompletions

  /** What there is to an operation in flight: the number of leaders and the final
      order once somebody has named one, and who waits for it, oldest first. */
  datatype Flight = Closed | Flying(leaders: Option<nat>, order: Option<seq<Proc>>, waiting: seq<Token>)

  /** Two answers to one question: the same, or one of them missing. */
  predicate Compatible<T(==)>(a: Option<T>, b: Option<T>) { a.Some? && b.Some? ==> a == b }

  function Either<T>(a: Option<T>, b: Option<T>): Option<T> { if a.Some? then a else b }

  function Claim(g: Group): Option<nat> { if g.bootstrap > 0 then Some(g.bootstrap) else None }

  /** A signature is presented: an operation in flight learns what it did not know,
      the number of leaders first, and nothing once they disagree about one. */
  function Presented(f: Flight, g: Group, opens: bool): Flight {
    match f
    case Closed => if opens then Flying(Claim(g), g.order, []) else Closed
    case Flying(leaders, order, waiting) =>
      if Compatible(leaders, Claim(g)) then Flying(Either(leaders, Claim(g)), Either(order, g.order), waiting) else f
  }

  /** It is taken if it disagrees about neither. */
  predicate Taken(f: Flight, g: Group, opens: bool) {
    match f
    case Closed => opens
    case Flying(leaders, order, _) => Compatible(leaders, Claim(g)) && Compatible(order, g.order)
  }

  function Joined(f: Flight, cb: Option<Token>): Flight
    requires f.Flying?
  {
    if cb.Some? then f.(waiting := f.waiting + [cb.value]) else f
  }

  predicate Opens(g: Group, resolves: bool) { resolves || g.bootstrap > 0 }

  /** One step, as operation `x` sees it; `over`: is it remembered as released? */
  function Next(f: Flight, step: Step, x: Name, over: bool): Flight {
    match step
    case Enter(g, cb, fate) =>
      if NameOf(g) != x || fate.BadDirectives? then f
      else
        var opens := Opens(g, !fate.Unresolved?);
        var f' := Presented(f, g, opens);
        if fate.Unsent? || !Taken(f, g, opens) then f' else Joined(f', cb)
    case Cancel(_, _) => f
    case Receive(g, resolves) => if NameOf(g) != x || over then f else Presented(f, g, Opens(g, resolves))
    case Finish(g, _) => if NameOf(g) != x then f else Closed
  }

  function Flights(steps: seq<Step>, x: Name): Flight {
    if steps == [] then Closed
    else
      var before := steps[..|steps| - 1];
      Next(Flights(before, x), steps[|steps| - 1], x, x in Exec(before).memo)
  }

  // ---- the list, seen from one operation ----

  function ViewOf(c: Coll): Flight { Flying(if c.nleaders > 0 then Some(c.nleaders) else None, c.order, c.pending) }

  function View(colls: seq<Coll>, x: Name): Flight {
    var i := Index(colls, Group(x.id, x.op, 0, None));
    if i < |colls| then ViewOf(colls[i]) else Closed
  }

  lemma ViewByName(colls: seq<Coll>, g: Group)
    ensures Index(colls, Group(g.id, g.op, 0, None)) == Index(colls, g)
  {
  }

  lemma {:induction false} ViewSet(colls: seq<Coll>, i: nat, c: Coll, x: Name)
    requires i < |colls| && c.id == colls[i].id && c.op == colls[i].op
    ensures var y := Name(c.id, c.op);
            View(colls[i := c], x) ==
              if x == y && i == Index(colls, Group(x.id, x.op, 0, None)) then ViewOf(c) else View(colls, x)
  {
    SameIndex(colls, colls[i := c], Group(x.id, x.op, 0, None));
  }

  lemma {:induction false} IndexAppend(colls: seq<Coll>, c: Coll, g: Group)
    ensures Index(colls + [c], g)
         == if Index(colls, g) < |colls| then Index(colls, g) else if Named(c, g) then |colls| else |colls| + 1
  {
    if colls != [] && !Named(colls[0], g) {
      IndexAppend(colls[1..], c, g);
      assert (colls + [c])[1..] == colls[1..] + [c];
    }
  }

  /** A signature presented to the list is presented to its own operation, and
      handed the tracker exactly if it is taken. */
  lemma GotPresents(colls: seq<Coll>, g: Group, resolves: bool, x: Name)
    ensures var r := Got(colls, g, Open(resolves));
            var f := View(colls, NameOf(g));
            && View(r.0, x) == (if x == NameOf(g) then Presented(f, g, Opens(g, resolves)) else View(colls, x))
            && (r.1.Some? <==> Taken(f, g, Opens(g, resolves)))
            && (r.1.Some? ==> r.1.value == Index(r.0, g))
  {
    var i := Index(colls, g);
    ViewByName(colls, g);
    if i < |colls| {
      ViewSet(colls, i, Fold(colls[i], g), x);
      SameIndex(colls, colls[i := Fold(colls[i], g)], g);
    } else if Opens(g, resolves) {
      IndexAppend(colls, NewColl(g), Group(x.id, x.op, 0, None));
      IndexAppend(colls, NewColl(g), g);
    }
  }

  lemma UpCallFlies(s: Server, g: Group, cb: Option<Token>, fate: Fate, x: Name)
    ensures View(UpCall(s, g, cb, fate).colls, x) == Next(View(s.colls, x), Enter(g, cb, fate), x, x in s.memo)
  {
    if !fate.BadDirectives? {
      var r := Got(s.colls, g, Open(!fate.Unresolved?));
      GotPresents(s.colls, g, !fate.Unresolved?, x);
      if r.1.Some? && cb.Some? {
        var c := r.0[r.1.value];
        ViewByName(r.0, g);
        ViewSet(r.0, r.1.value, c.(pending := c.pending + [cb.value]), x);
      }
    }
  }

  lemma ReleaseFlies(s: Server, g: Group, st: Status, x: Name)
    requires forall i, j :: 0 <= i < j < |s.colls| ==> (s.colls[i].id, s.colls[i].op) != (s.colls[j].id, s.colls[j].op)
    ensures View(Released(s, g, st).colls, x) == if x == NameOf(g) then Closed else View(s.colls, x)
  {
    ReleasedIs(s, g, st);
    var i := Index(s.colls, g);
    var h := Group(x.id, x.op, 0, None);
    if i < |s.colls| { IndexDrop(s.colls, i, h); }
    ViewByName(s.colls, g);
  }

  lemma {:induction false} IndexDrop(colls: seq<Coll>, i: nat, g: Group)
    requires i < |colls|
    requires forall a, b :: 0 <= a < b < |colls| ==> (colls[a].id, colls[a].op) != (colls[b].id, colls[b].op)
    ensures var rest := colls[..i] + colls[i + 1..];
            var k := Index(colls, g);
            Index(rest, g) == if k < i then k else if k == i then |rest| else k - 1
  {
    var rest, k := colls[..i] + colls[i + 1..], Index(colls, g);
    var r := Index(rest, g);
    if k < i { assert rest[k] == colls[k]; }
    else if i < k < |colls| { assert rest[k - 1] == colls[k]; }
    if r < |rest| { assert rest[r] == colls[if r < i then r else r + 1]; }
  }

  /** Over every run, for every operation: the list of trackers, searched and
      updated in place, holds exactly what the operation's own automaton does. */
  lemma {:induction false} ListIsFlights(steps: seq<Step>, x: Name)
    ensures View(Exec(steps).colls, x) == Flights(steps, x)
  {
    if steps != [] {
      var before, step := steps[..|steps| - 1], steps[|steps| - 1];
      var s := Exec(before);
      ListIsFlights(before, x);
      match step
      case Enter(g, cb, fate) => UpCallFlies(s, g, cb, fate, x);
      case Cancel(_, _) =>
      case Receive(g, resolves) => GotPresents(s.colls, g, resolves, x);
      case Finish(g, st) =>
        ExecNames(before);
        ReleaseFlies(s, g, st, x);
    }
  }
}
