/** A daemon added to a running DVM: the list of trackers it keeps while it does
    not know the number of a round, and what each release does to it. */
module Newcomers {
  import opened RoutingTree
  import opened Fence
  import opened Generations
  import opened RoundNumbers

  /** A tracker's identity on the list; UNKNOWN is a number like any other. */
  datatype Ident = Ident(sig: Sig, gen: nat)

  datatype Receiver = Receiver(memos: seq<Memo>, ops: seq<Ident>)

  function Index(ops: seq<Ident>, x: Ident): (i: nat)
    ensures i <= |ops|
    ensures i < |ops| <==> x in ops
    ensures i < |ops| ==> ops[i] == x
    ensures forall j :: 0 <= j < i ==> ops[j] != x
  {
    if ops == [] || ops[0] == x then 0
    else
      var i := 1 + Index(ops[1..], x);
      assert forall j :: 1 <= j < |ops| ==> ops[j] == ops[1..][j - 1];
      i
  }

  function Minus(ops: seq<Ident>, x: Ident): seq<Ident> {
    var i := Index(ops, x);
    if i < |ops| then ops[..i] + ops[i + 1..] else ops
  }

  /** A contribution, or a client of our own entering: a stale one is dropped, one
      that names no round is for the round we take to be current. */
  function Filed(r: Receiver, sig: Sig, stamp: nat): Receiver {
    if Stale(true, r.memos, sig, stamp) then r
    else
      var x := Ident(sig, if stamp == UNKNOWN then NextGen(true, r.memos, sig) else stamp);
      if x in r.ops then r else r.(ops := r.ops + [x])
  }

  /** The tracker a release answers: the one of its number, or failing that the
      one that has none. */
  function Served(r: Receiver, sig: Sig, gen: nat): (x: Option<Ident>)
    ensures x.Some? ==> x.value in r.ops && x.value.sig == sig && x.value.gen in {gen, UNKNOWN}
  {
    if Ident(sig, gen) in r.ops then Some(Ident(sig, gen))
    else if Ident(sig, UNKNOWN) in r.ops then Some(Ident(sig, UNKNOWN))
    else None
  }

  function Retired(r: Receiver, sig: Sig, gen: nat): Receiver {
    var x := Served(r, sig, gen);
    Receiver(Recorded(r.memos, sig, gen), if x.Some? then Minus(r.ops, x.value) else r.ops)
  }

  // ---- the code ----

  class Newcomer {
    const numbers: Numbering
    var ops: seq<Ident>

    ghost predicate Valid()
      reads this, numbers
    {
      numbers.late
    }

    ghost function State(): Receiver
      reads this, numbers
    {
      Receiver(numbers.memos, ops)
    }

    constructor ()
      ensures Valid() && fresh(numbers) && State() == Receiver([], [])
    {
      numbers := new Numbering(true);
      ops := [];
    }

    /** get_tracker without `create`. */
    method Find(x: Ident) returns (i: nat)
      ensures i == Index(ops, x)
    {
      i := 0;
      while i < |ops|
        invariant i <= |ops| && Index(ops, x) == i + Index(ops[i..], x)
      {
        if ops[i] == x { return; }
        assert ops[i..][1..] == ops[i + 1..];
        i := i + 1;
      }
    }

    /** fence_recv as far as the lookup, and the same for the up-call. */
    method File(sig: Sig, stamp: nat)
      requires Valid()
      modifies this`ops
      ensures Valid() && State() == Filed(old(State()), sig, stamp)
    {
      var stale := numbers.IsStale(sig, stamp);
      if stale { return; }
      var gen := stamp;
      if gen == UNKNOWN { gen := numbers.Next(sig); }
      var i := Find(Ident(sig, gen));
      if i == |ops| { ops := ops + [Ident(sig, gen)]; }
    }

    /** fence_release_process: the round is recorded, its tracker looked up, then
        one without a number, which adopts this one; what is found is retired. */
    method ReleaseProcess(sig: Sig, gen: nat) returns (served: Option<Ident>)
      requires Valid()
      modifies this`ops, numbers
      ensures Valid() && State() == Retired(old(State()), sig, gen)
      ensures served == Served(old(State()), sig, gen)
    {
      numbers.Record(sig, gen);
      served := Some(Ident(sig, gen));
      var i := Find(Ident(sig, gen));
      if i == |ops| {
        served := Some(Ident(sig, UNKNOWN));
        i := Find(Ident(sig, UNKNOWN));
      }
      if i == |ops| { return None; }
      ops := ops[..i] + ops[i + 1..];
    }
  }

  // ---- whole runs ----

  /** What reaches the newcomer: contributions stamped with what their sender
      knew, its own clients', and the releases of the log in order. */
  datatype Event = Comes(sig: Sig, stamp: nat) | Released

  function Seen(events: seq<Event>): nat {
    if events == [] then 0 else Seen(events[..|events| - 1]) + if events[|events| - 1].Released? then 1 else 0
  }

  /** A daemon that came in after `q` releases. */
  function Exec(log: seq<Ended>, q: nat, events: seq<Event>): Receiver
    requires q + Seen(events) <= |log|
  {
    if events == [] then Receiver([], [])
    else
      var before, last := events[..|events| - 1], events[|events| - 1];
      var r := Exec(log, q, before);
      match last
      case Comes(sig, stamp) => Filed(r, sig, stamp)
      case Released => Retired(r, log[q + Seen(before)].sig, log[q + Seen(before)].gen)
  }

  ghost predicate DistinctIds(ops: seq<Ident>) { forall i, j :: 0 <= i < j < |ops| ==> ops[i] != ops[j] }

  lemma MinusIs(ops: seq<Ident>, x: Ident)
    requires DistinctIds(ops)
    ensures DistinctIds(Minus(ops, x)) && forall y :: y in Minus(ops, x) <==> y in ops && y != x
  {
    var i, r := Index(ops, x), Minus(ops, x);
    if i < |ops| {
      forall y | y in ops && y != x ensures y in r {
        var j :| 0 <= j < |ops| && ops[j] == y;
        assert r[if j < i then j else j - 1] == y;
      }
    }
  }

  /** A release takes the tracker it answers off the list, and nothing else. */
  lemma RetiredIs(r: Receiver, sig: Sig, gen: nat)
    requires DistinctIds(r.ops)
    ensures DistinctIds(Retired(r, sig, gen).ops)
    ensures forall x :: x in Retired(r, sig, gen).ops <==> x in r.ops && Served(r, sig, gen) != Some(x)
  {
    var x := Served(r, sig, gen);
    if x.Some? { MinusIs(r.ops, x.value); }
  }

  /** The numbers it knows are those of the releases since it came, and its list
      holds each identity once. */
  lemma {:induction false} ExecKeeps(log: seq<Ended>, q: nat, events: seq<Event>)
    requires q + Seen(events) <= |log|
    ensures Exec(log, q, events).memos == ProcessFrom(log[..q + Seen(events)], q)
    ensures DistinctIds(Exec(log, q, events).ops)
  {
    if events == [] {
      assert log[..q][q..] == [];
    } else {
      var before, last := events[..|events| - 1], events[|events| - 1];
      ExecKeeps(log, q, before);
      if last.Released? {
        ReleaseKeeps(log, q, before);
      } else {
        FiledKeeps(Exec(log, q, before), last.sig, last.stamp);
      }
    }
  }

  lemma FiledKeeps(r: Receiver, sig: Sig, stamp: nat)
    requires DistinctIds(r.ops)
    ensures DistinctIds(Filed(r, sig, stamp).ops) && Filed(r, sig, stamp).memos == r.memos
  {
  }

  lemma ReleaseKeeps(log: seq<Ended>, q: nat, before: seq<Event>)
    requires q + Seen(before) < |log| && DistinctIds(Exec(log, q, before).ops)
    requires Exec(log, q, before).memos == ProcessFrom(log[..q + Seen(before)], q)
    ensures var n := q + Seen(before);
            var r := Retired(Exec(log, q, before), log[n].sig, log[n].gen);
            r.memos == ProcessFrom(log[..n + 1], q) && DistinctIds(r.ops)
  {
    var n, r := q + Seen(before), Exec(log, q, before);
    ProcessNext(log, q, n);
    RetiredIs(r, log[n].sig, log[n].gen);
  }

  lemma ProcessNext(log: seq<Ended>, q: nat, n: nat)
    requires q <= n < |log|
    ensures ProcessFrom(log[..n + 1], q) == Recorded(ProcessFrom(log[..n], q), log[n].sig, log[n].gen)
  {
    var since := log[..n + 1][q..];
    assert since[..|since| - 1] == log[..n][q..] && since[|since| - 1] == log[n];
  }

  /** Until its first release over some participants, it holds a tracker of
      exactly the numbers, UNKNOWN among them, that contributions have named. */
  lemma {:induction false} HoldsWhatCame(log: seq<Ended>, q: nat, events: seq<Event>, sigs: set<Sig>, sig: Sig, g: nat)
    requires InOrder(log) && Over(log, sigs) && |sigs| <= MEMO_MAX
    requires q + Seen(events) <= |log| && Quiet(log, q, q + Seen(events), sig)
    ensures Ident(sig, g) in Exec(log, q, events).ops <==> Comes(sig, g) in events
  {
    if events != [] {
      var before, last := events[..|events| - 1], events[|events| - 1];
      assert events == before + [last];
      HoldsWhatCame(log, q, before, sigs, sig, g);
      ExecKeeps(log, q, before);
      match last
      case Comes(other, stamp) =>
        if other == sig { FiledAsStamped(log, q, before, sigs, sig, stamp); }
      case Released =>
        var r, x := Exec(log, q, before), log[q + Seen(before)];
        assert x.sig != sig;
        RetiredIs(r, x.sig, x.gen);
    }
  }

  lemma FiledAsStamped(log: seq<Ended>, q: nat, events: seq<Event>, sigs: set<Sig>, sig: Sig, stamp: nat)
    requires InOrder(log) && Over(log, sigs) && |sigs| <= MEMO_MAX
    requires q + Seen(events) <= |log| && Quiet(log, q, q + Seen(events), sig)
    ensures var r := Exec(log, q, events);
            var x := Ident(sig, stamp);
            Filed(r, sig, stamp) == if x in r.ops then r else r.(ops := r.ops + [x])
  {
    var n := q + Seen(events);
    ExecKeeps(log, q, events);
    InOrderPrefix(log, n);
    JoinerNumber(log[..n], q, sigs, sig);
    NoRounds(log[..n][q..], sig);
    assert forall i :: q <= i < n ==> log[..n][q..][i - q] == log[i];
  }

  /** The number a contribution is filed under, if it is not dropped: before the
      first release over its participants whatever it says, after that not a round
      already released, and the round now open if it says none. */
  ghost function FiledUnder(log: seq<Ended>, q: nat, n: nat, sig: Sig, g: nat): Option<nat>
    requires q <= n <= |log|
  {
    if Quiet(log, q, n, sig) then Some(g)
    else if g == UNKNOWN then Some(Rounds(log[..n], sig))
    else if g < Rounds(log[..n], sig) then None
    else Some(g)
  }

  /** After any run: it leaves a tracker of that number on the list, or nothing if
      it is a straggler; everything else on the list stays as it was. */
  lemma ComesFiled(log: seq<Ended>, q: nat, events: seq<Event>, sigs: set<Sig>, sig: Sig, g: nat)
    requires InOrder(log) && Over(log, sigs) && |sigs| <= MEMO_MAX && q + Seen(events) <= |log|
    ensures Seen(events + [Comes(sig, g)]) == Seen(events)
    ensures var r, r' := Exec(log, q, events), Exec(log, q, events + [Comes(sig, g)]);
            var under := FiledUnder(log, q, q + Seen(events), sig, g);
            && r'.memos == r.memos && (under.None? ==> r' == r)
            && (under.Some? ==>
                  r'.ops == if Ident(sig, under.value) in r.ops then r.ops else r.ops + [Ident(sig, under.value)])
  {
    var n := q + Seen(events);
    assert (events + [Comes(sig, g)])[..|events|] == events;
    if Quiet(log, q, n, sig) {
      FiledAsStamped(log, q, events, sigs, sig, g);
    } else {
      KnownLater(log, q, n, sigs, sig);
      ExecKeeps(log, q, events);
    }
  }

  lemma KnownLater(log: seq<Ended>, q: nat, n: nat, sigs: set<Sig>, sig: Sig)
    requires InOrder(log) && Over(log, sigs) && |sigs| <= MEMO_MAX && q <= n <= |log| && !Quiet(log, q, n, sig)
    ensures NextGen(true, ProcessFrom(log[..n], q), sig) == Rounds(log[..n], sig) < UNKNOWN
  {
    InOrderPrefix(log, n);
    JoinerNumber(log[..n], q, sigs, sig);
    FounderNumber(log[..n], sigs, sig, 0);
    RoundsBelow(log[..n], sig);
    NoRounds(log[..n][q..], sig);
    var i :| q <= i < n && log[i].sig == sig;
    assert log[..n][q..][i - q] == log[i];
  }

  /** Event `i` is a contribution to round `g`, before anything was released here. */
  ghost predicate EarlyAt(log: seq<Ended>, q: nat, events: seq<Event>, sig: Sig, g: nat, i: nat) {
    && i < |events| && events[i] == Comes(sig, g)
    && q + Seen(events[..i]) <= |log| && Quiet(log, q, q + Seen(events[..i]), sig)
  }

  lemma EarlyStays(log: seq<Ended>, q: nat, events: seq<Event>, last: Event, sig: Sig, g: nat, i: nat)
    requires EarlyAt(log, q, events, sig, g, i)
    ensures EarlyAt(log, q, events + [last], sig, g, i)
  {
    assert (events + [last])[..i] == events[..i];
  }

  /** So a tracker of a round already released is only ever of one released before
      the newcomer came, opened before it knew any number. */
  lemma {:induction false} StragglersEarly(log: seq<Ended>, q: nat, events: seq<Event>, sigs: set<Sig>, sig: Sig,
                                           g: nat)
    returns (i: nat)
    requires InOrder(log) && Over(log, sigs) && |sigs| <= MEMO_MAX && q + Seen(events) <= |log|
    requires Ident(sig, g) in Exec(log, q, events).ops && g < Rounds(log[..q + Seen(events)], sig)
    ensures EarlyAt(log, q, events, sig, g, i) && g < Rounds(log[..q], sig)
  {
    var before, last := events[..|events| - 1], events[|events| - 1];
    assert events == before + [last];
    if last.Comes? && Ident(sig, g) !in Exec(log, q, before).ops {
      i := |before|;
      OpenedNow(log, q, before, sigs, last.sig, last.stamp, sig, g);
      assert events[..i] == before;
    } else {
      if last.Released? { StillOpen(log, q, before, sig, g); }
      i := StragglersEarly(log, q, before, sigs, sig, g);
      EarlyStays(log, q, before, last, sig, g, i);
    }
  }

  lemma OpenedNow(log: seq<Ended>, q: nat, before: seq<Event>, sigs: set<Sig>, other: Sig, stamp: nat, sig: Sig, g: nat)
    requires InOrder(log) && Over(log, sigs) && |sigs| <= MEMO_MAX && q + Seen(before) <= |log|
    requires Seen(before + [Comes(other, stamp)]) == Seen(before)
    requires Ident(sig, g) !in Exec(log, q, before).ops && g < Rounds(log[..q + Seen(before)], sig)
    requires Ident(sig, g) in Exec(log, q, before + [Comes(other, stamp)]).ops
    ensures other == sig && stamp == g && Quiet(log, q, q + Seen(before), sig) && g < Rounds(log[..q], sig)
  {
    ComesFiled(log, q, before, sigs, other, stamp);
    if Quiet(log, q, q + Seen(before), sig) { QuietBetween(log, q, q + Seen(before), sig); }
  }

  lemma StillOpen(log: seq<Ended>, q: nat, before: seq<Event>, sig: Sig, g: nat)
    requires InOrder(log) && q + Seen(before) < |log|
    requires var x := log[q + Seen(before)]; Ident(sig, g) in Retired(Exec(log, q, before), x.sig, x.gen).ops
    requires g < Rounds(log[..q + Seen(before) + 1], sig)
    ensures Ident(sig, g) in Exec(log, q, before).ops && g < Rounds(log[..q + Seen(before)], sig)
  {
    ExecKeeps(log, q, before);
    OneRelease(log, q + Seen(before), Exec(log, q, before), sig, g);
  }

  lemma OneRelease(log: seq<Ended>, n: nat, r: Receiver, sig: Sig, g: nat)
    requires InOrder(log) && n < |log| && DistinctIds(r.ops)
    requires Ident(sig, g) in Retired(r, log[n].sig, log[n].gen).ops && g < Rounds(log[..n + 1], sig)
    ensures Ident(sig, g) in r.ops && g < Rounds(log[..n], sig)
  {
    RetiredIs(r, log[n].sig, log[n].gen);
    assert InOrderAt(log, n) && log[..n + 1][..n] == log[..n];
  }

  /** The first release over some participants answers the unnumbered tracker if
      and only if no contribution stamped with that number has come. So it is
      answered by its own round's release if and only if that holds and no release
      over these participants lies between what its sender had processed and this
      one; and otherwise it outlives the release. */
  lemma UnnumberedAnswered(log: seq<Ended>, q: nat, events: seq<Event>, a: nat, sigs: set<Sig>, sig: Sig)
    requires InOrder(log) && Over(log, sigs) && |sigs| <= MEMO_MAX && a <= |log|
    requires q + Seen(events) < |log| && Quiet(log, q, q + Seen(events), sig)
    requires log[q + Seen(events)].sig == sig && Comes(sig, UNKNOWN) in events
    ensures FirstRelease(log, q + Seen(events), a, Exec(log, q, events), sig,
                         Comes(sig, log[q + Seen(events)].gen) in events)
  {
    var n := q + Seen(events);
    ServedFirst(log, q, events, sigs, sig);
    OwnNumber(log, a, n, sig);
    NumberAfter(log, q, events, sigs);
    FirstReleaseIs(log, n, a, Exec(log, q, events), sig, Comes(sig, log[n].gen) in events);
  }

  /** What release `n` over its participants does to an unnumbered tracker, beside
      a tracker of its number or not. */
  ghost predicate FirstRelease(log: seq<Ended>, n: nat, a: nat, r: Receiver, sig: Sig, numbered: bool)
    requires n < |log| && a <= |log|
  {
    var g := log[n].gen;
    var answered := Served(r, sig, g) == Some(Ident(sig, UNKNOWN));
    && (answered <==> !numbered)
    && (answered && g == Rounds(log[..a], sig) <==> Undisturbed(log, a, n, sig) && !numbered)
    && (Ident(sig, UNKNOWN) in Retired(r, sig, g).ops <==> numbered)
    && NextGen(true, Retired(r, sig, g).memos, sig) == g + 1
  }

  lemma FirstReleaseIs(log: seq<Ended>, n: nat, a: nat, r: Receiver, sig: Sig, numbered: bool)
    requires n < |log| && a <= |log| && log[n].gen != UNKNOWN
    requires Served(r, sig, log[n].gen) == Some(Ident(sig, if numbered then log[n].gen else UNKNOWN))
    requires Ident(sig, UNKNOWN) in Retired(r, sig, log[n].gen).ops <==> numbered
    requires log[n].gen == Rounds(log[..a], sig) <==> Undisturbed(log, a, n, sig)
    requires NextGen(true, Retired(r, sig, log[n].gen).memos, sig) == log[n].gen + 1
    ensures FirstRelease(log, n, a, r, sig, numbered)
  {
  }

  lemma NumberAfter(log: seq<Ended>, q: nat, before: seq<Event>, sigs: set<Sig>)
    requires InOrder(log) && Over(log, sigs) && |sigs| <= MEMO_MAX && q + Seen(before) < |log|
    ensures var x := log[q + Seen(before)];
            NextGen(true, Retired(Exec(log, q, before), x.sig, x.gen).memos, x.sig) == x.gen + 1
  {
    ReleaseMemos(log, q, before);
    KnownAfter(log, q, q + Seen(before), sigs, log[q + Seen(before)].sig);
  }

  lemma ServedFirst(log: seq<Ended>, q: nat, events: seq<Event>, sigs: set<Sig>, sig: Sig)
    requires InOrder(log) && Over(log, sigs) && |sigs| <= MEMO_MAX
    requires q + Seen(events) < |log| && Quiet(log, q, q + Seen(events), sig)
    requires log[q + Seen(events)].sig == sig && Comes(sig, UNKNOWN) in events
    ensures var g, r := log[q + Seen(events)].gen, Exec(log, q, events);
            && Served(r, sig, g) == Some(Ident(sig, if Comes(sig, g) in events then g else UNKNOWN))
            && g != UNKNOWN && (Ident(sig, UNKNOWN) in Retired(r, sig, g).ops <==> Comes(sig, g) in events)
  {
    var g, r := log[q + Seen(events)].gen, Exec(log, q, events);
    assert InOrderAt(log, q + Seen(events));
    HoldsWhatCame(log, q, events, sigs, sig, g);
    HoldsWhatCame(log, q, events, sigs, sig, UNKNOWN);
    ExecKeeps(log, q, events);
    ServedOf(r, sig, g);
  }

  lemma ServedOf(r: Receiver, sig: Sig, g: nat)
    requires DistinctIds(r.ops) && Ident(sig, UNKNOWN) in r.ops && g != UNKNOWN
    ensures Served(r, sig, g) == Some(Ident(sig, if Ident(sig, g) in r.ops then g else UNKNOWN))
    ensures Ident(sig, UNKNOWN) in Retired(r, sig, g).ops <==> Ident(sig, g) in r.ops
  {
    RetiredIs(r, sig, g);
  }

  lemma OwnNumber(log: seq<Ended>, a: nat, n: nat, sig: Sig)
    requires InOrder(log) && a <= |log| && n < |log| && log[n].sig == sig
    ensures log[n].gen == Rounds(log[..a], sig) <==> Undisturbed(log, a, n, sig)
  {
    assert InOrderAt(log, n);
    if a <= n { QuietBetween(log, a, n, sig); } else { QuietBetween(log, n, a, sig); }
  }

  lemma ReleaseMemos(log: seq<Ended>, q: nat, before: seq<Event>)
    requires q + Seen(before) < |log|
    ensures var n := q + Seen(before);
            Retired(Exec(log, q, before), log[n].sig, log[n].gen).memos == ProcessFrom(log[..n + 1], q)
  {
    ExecKeeps(log, q, before);
    ReleaseKeeps(log, q, before);
  }

  lemma KnownAfter(log: seq<Ended>, q: nat, n: nat, sigs: set<Sig>, sig: Sig)
    requires InOrder(log) && Over(log, sigs) && |sigs| <= MEMO_MAX && q <= n < |log| && log[n].sig == sig
    ensures NextGen(true, ProcessFrom(log[..n + 1], q), sig) == log[n].gen + 1
  {
    var upto := log[..n + 1];
    InOrderPrefix(log, n + 1);
    JoinerNumber(upto, q, sigs, sig);
    FounderNumber(upto, sigs, sig, 0);
    RoundsUpTo(log, q, n);
  }

  lemma RoundsUpTo(log: seq<Ended>, q: nat, n: nat)
    requires InOrder(log) && q <= n < |log|
    ensures Rounds(log[..n + 1], log[n].sig) == log[n].gen + 1 && Rounds(log[..n + 1][q..], log[n].sig) != 0
  {
    assert InOrderAt(log, n) && log[..n + 1][..n] == log[..n];
    assert log[..n + 1][q..][n - q] == log[n];
    NoRounds(log[..n + 1][q..], log[n].sig);
  }

  /** One that outlived a release is left for a later round's: every later release
      over these participants has a larger number. */
  lemma LaterNumber(log: seq<Ended>, n: nat, m: nat, sig: Sig)
    requires InOrder(log) && n < m < |log| && log[n].sig == log[m].sig == sig
    ensures log[n].gen < log[m].gen
  {
    assert InOrderAt(log, n) && InOrderAt(log, m);
    assert log[..m] == log[..n + 1] + log[n + 1..m];
    RoundsConcat(log[..n + 1], log[n + 1..m], sig);
    assert log[..n + 1][..n] == log[..n];
  }

  /** A founder below a newcomer and a client of the newcomer's own enter round 0.
      Its release answers the founder's tracker; the client's is still on the
      list, and is answered by the release of round 1. */
  lemma UnnumberedOutlives() returns (log: seq<Ended>, sig: Sig, events: seq<Event>)
    ensures InOrder(log) && log == [Ended(sig, 0), Ended(sig, 1)]
    ensures events == [Comes(sig, UNKNOWN), Comes(sig, 0)] && Seen(events) == 0 && Seen(events + [Released]) == 1
    ensures var r := Exec(log, 0, events);
            var r1 := Exec(log, 0, events + [Released]);
            && r.ops == [Ident(sig, UNKNOWN), Ident(sig, 0)] && Served(r, sig, 0) == Some(Ident(sig, 0))
            && r1.ops == [Ident(sig, UNKNOWN)] && Served(r1, sig, 1) == Some(Ident(sig, UNKNOWN))
  {
    sig := [Proc("job", Rank(0))];
    log := [Ended(sig, 0), Ended(sig, 1)];
    events := [Comes(sig, UNKNOWN), Comes(sig, 0)];
    assert log[..0] == [] && log[..1] == [Ended(sig, 0)] && log[..1][..0] == [];
    assert InOrderAt(log, 0) && InOrderAt(log, 1);
    assert events[..1] == [Comes(sig, UNKNOWN)] && events[..1][..0] == [];
    assert (events + [Released])[..2] == events;
    assert Seen(events[..1]) == 0;
    assert Exec(log, 0, events[..1]) == Receiver([], [Ident(sig, UNKNOWN)]);
    var r := Exec(log, 0, events);
    assert r.ops == [Ident(sig, UNKNOWN), Ident(sig, 0)];
    assert Index(r.ops, Ident(sig, 0)) == 1;
    assert Minus(r.ops, Ident(sig, 0)) == [Ident(sig, UNKNOWN)];
  }
}
