/** What the round numbers are worth: who agrees with whom, for how many
    signatures, and where a newcomer's unnumbered contribution ends up. */
module RoundNumbers {
  import opened RoutingTree
  import opened Fence
  import opened Generations

  // ---- counting ----

  lemma {:induction false} RoundsConcat(a: seq<Ended>, b: seq<Ended>, sig: Sig)
    ensures Rounds(a + b, sig) == Rounds(a, sig) + Rounds(b, sig)
  {
    if b == [] {
      assert a + b == a;
    } else {
      RoundsConcat(a, b[..|b| - 1], sig);
      assert (a + b)[..|a + b| - 1] == a + b[..|b| - 1];
    }
  }

  lemma {:induction false} NoRounds(log: seq<Ended>, sig: Sig)
    ensures Rounds(log, sig) == 0 <==> forall i :: 0 <= i < |log| ==> log[i].sig != sig
  {
    if log != [] {
      var rest := log[..|log| - 1];
      NoRounds(rest, sig);
      assert forall i :: 0 <= i < |rest| ==> rest[i] == log[i];
    }
  }

  lemma InOrderPrefix(log: seq<Ended>, n: nat)
    requires InOrder(log) && n <= |log|
    ensures InOrder(log[..n])
  {
    forall i | 0 <= i < n ensures InOrderAt(log[..n], i) {
      assert InOrderAt(log, i) && log[..n][..i] == log[..i];
    }
  }

  // ---- a list that forgets nothing ----

  ghost predicate DistinctSigs(ms: seq<Memo>) { forall i, j :: 0 <= i < j < |ms| ==> ms[i].sig != ms[j].sig }

  /** The list of a daemon present since release `p`: each signature released
      since then once, with the number of rounds the whole log has ended. */
  ghost predicate Numbers(ms: seq<Memo>, log: seq<Ended>, p: nat, sigs: set<Sig>)
    requires p <= |log|
  {
    && DistinctSigs(ms)
    && (forall i :: 0 <= i < |ms| ==> ms[i].sig in sigs && ms[i].next == Rounds(log, ms[i].sig))
    && (forall sig :: Lookup(ms, sig).None? <==> Rounds(log[p..], sig) == 0)
  }

  lemma {:induction false} Pigeonhole(ms: seq<Memo>, sigs: set<Sig>)
    requires DistinctSigs(ms) && forall i :: 0 <= i < |ms| ==> ms[i].sig in sigs
    ensures |ms| <= |sigs|
  {
    if ms != [] {
      var last := ms[|ms| - 1];
      Pigeonhole(ms[..|ms| - 1], sigs - {last.sig});
    }
  }

  /** With room to spare, recording changes one entry or adds one. */
  lemma RecordShape(ms: seq<Memo>, log: seq<Ended>, p: nat, sigs: set<Sig>, r: Ended)
    requires p <= |log| && |sigs| <= MEMO_MAX && Numbers(ms, log, p, sigs)
    requires r.sig in sigs && r.gen == Rounds(log, r.sig) && r.gen + 1 < UNKNOWN
    ensures Recorded(ms, r.sig, r.gen)
         == if IndexOf(ms, r.sig) < |ms| then ms[IndexOf(ms, r.sig) := Memo(r.sig, r.gen + 1)]
            else ms + [Memo(r.sig, r.gen + 1)]
  {
    if IndexOf(ms, r.sig) == |ms| { Pigeonhole(ms + [Memo(r.sig, 0)], sigs); }
  }

  lemma RoundsAfter(log: seq<Ended>, p: nat, r: Ended, sig: Sig)
    requires p <= |log|
    ensures Rounds(log + [r], sig) == Rounds(log, sig) + if r.sig == sig then 1 else 0
    ensures Rounds((log + [r])[p..], sig) == Rounds(log[p..], sig) + if r.sig == sig then 1 else 0
  {
    assert (log + [r])[..|log|] == log;
    assert (log + [r])[p..] == log[p..] + [r];
    assert (log[p..] + [r])[..|log[p..]|] == log[p..];
  }

  lemma RecordEntries(ms: seq<Memo>, ms': seq<Memo>, log: seq<Ended>, p: nat, sigs: set<Sig>, r: Ended)
    requires p <= |log| && Numbers(ms, log, p, sigs) && r.sig in sigs && r.gen == Rounds(log, r.sig)
    requires ms' == if IndexOf(ms, r.sig) < |ms| then ms[IndexOf(ms, r.sig) := Memo(r.sig, r.gen + 1)]
                    else ms + [Memo(r.sig, r.gen + 1)]
    ensures DistinctSigs(ms')
    ensures forall j :: 0 <= j < |ms'| ==> ms'[j].sig in sigs && ms'[j].next == Rounds(log + [r], ms'[j].sig)
  {
    forall j | 0 <= j < |ms'| ensures ms'[j].sig in sigs && ms'[j].next == Rounds(log + [r], ms'[j].sig) {
      RoundsAfter(log, p, r, ms'[j].sig);
    }
  }

  lemma RecordKeeps(ms: seq<Memo>, log: seq<Ended>, p: nat, sigs: set<Sig>, r: Ended)
    requires p <= |log| && |sigs| <= MEMO_MAX && Numbers(ms, log, p, sigs)
    requires r.sig in sigs && r.gen == Rounds(log, r.sig) && r.gen + 1 < UNKNOWN
    ensures Numbers(Recorded(ms, r.sig, r.gen), log + [r], p, sigs)
  {
    var i, ms', log' := IndexOf(ms, r.sig), Recorded(ms, r.sig, r.gen), log + [r];
    RecordShape(ms, log, p, sigs, r);
    RecordEntries(ms, ms', log, p, sigs, r);
    forall sig ensures Lookup(ms', sig).None? <==> Rounds(log'[p..], sig) == 0 {
      LookupAfter(ms, ms', i, r, sig);
      RoundsAfter(log, p, r, sig);
    }
  }

  lemma LookupAfter(ms: seq<Memo>, ms': seq<Memo>, i: nat, r: Ended, sig: Sig)
    requires i == IndexOf(ms, r.sig)
    requires ms' == if i < |ms| then ms[i := Memo(r.sig, r.gen + 1)] else ms + [Memo(r.sig, r.gen + 1)]
    ensures Lookup(ms', sig).None? <==> Lookup(ms, sig).None? && sig != r.sig
  {
    assert i < |ms'| && ms'[i].sig == r.sig;
    assert forall j :: 0 <= j < |ms| ==> ms'[j].sig == ms[j].sig;
  }

  lemma {:induction false} ProcessKeeps(log: seq<Ended>, p: nat, sigs: set<Sig>)
    requires InOrder(log) && Over(log, sigs) && |sigs| <= MEMO_MAX && p <= |log|
    ensures Numbers(ProcessFrom(log, p), log, p, sigs)
  {
    if p < |log| {
      var rest := log[..|log| - 1];
      assert InOrderAt(log, |log| - 1);
      InOrderPrefix(log, |log| - 1);
      ProcessKeeps(rest, p, sigs);
      assert log[p..][..|log[p..]| - 1] == rest[p..];
      RecordKeeps(ProcessFrom(rest, p), rest, p, sigs, log[|log| - 1]);
      assert log == rest + [log[|log| - 1]];
    }
  }

  // ---- who agrees with whom ----

  /** A founder's number is the number of rounds released, so founders that have
      processed the same releases agree; what it calls stale is exactly what is. */
  lemma FounderNumber(log: seq<Ended>, sigs: set<Sig>, sig: Sig, gen: nat)
    requires InOrder(log) && Over(log, sigs) && |sigs| <= MEMO_MAX
    ensures NextGen(false, Process(log), sig) == Rounds(log, sig)
    ensures Stale(false, Process(log), sig, gen) <==> gen < Rounds(log, sig)
  {
    ProcessKeeps(log, 0, sigs);
    assert log[0..] == log;
    RoundsBelow(log, sig);
  }

  lemma {:induction false} RoundsBelow(log: seq<Ended>, sig: Sig)
    requires InOrder(log)
    ensures Rounds(log, sig) < UNKNOWN
  {
    if log != [] {
      InOrderPrefix(log, |log| - 1);
      RoundsBelow(log[..|log| - 1], sig);
      assert InOrderAt(log, |log| - 1);
    }
  }

  /** A daemon that came in after `p` releases says UNKNOWN of a signature until
      it has processed a release over it, and the founders' number ever after. */
  lemma JoinerNumber(log: seq<Ended>, p: nat, sigs: set<Sig>, sig: Sig)
    requires InOrder(log) && Over(log, sigs) && |sigs| <= MEMO_MAX && p <= |log|
    ensures NextGen(true, ProcessFrom(log, p), sig)
         == if Rounds(log[p..], sig) == 0 then UNKNOWN else NextGen(false, Process(log), sig)
  {
    ProcessKeeps(log, p, sigs);
    FounderNumber(log, sigs, sig, 0);
  }

  // ---- how many signatures that holds for ----

  ghost predicate Right(log: seq<Ended>) {
    forall sig :: NextGen(false, Process(log), sig) == Rounds(log, sig)
  }

  ghost predicate AlwaysRight(sigs: set<Sig>) {
    forall log :: InOrder(log) && Over(log, sigs) ==> Right(log)
  }

  /** The numbers are right on every log over a set of signatures if and only if
      the set has at most 64. */
  lemma SixtyFour(sigs: set<Sig>)
    ensures AlwaysRight(sigs) <==> |sigs| <= MEMO_MAX
  {
    if |sigs| <= MEMO_MAX {
      forall log | InOrder(log) && Over(log, sigs) ensures Right(log) {
        forall sig ensures NextGen(false, Process(log), sig) == Rounds(log, sig) {
          FounderNumber(log, sigs, sig, 0);
        }
      }
    } else {
      var q := Pick(sigs, MEMO_MAX + 1);
      OnceEach(q);
      Forgets(q);
      assert !Right(FirstRounds(q));
    }
  }

  ghost predicate DistinctSeq(q: seq<Sig>) { forall i, j :: 0 <= i < j < |q| ==> q[i] != q[j] }

  lemma {:induction false} Pick(sigs: set<Sig>, n: nat) returns (q: seq<Sig>)
    requires n <= |sigs|
    ensures |q| == n && DistinctSeq(q) && forall i :: 0 <= i < n ==> q[i] in sigs
  {
    if n == 0 {
      q := [];
    } else {
      var x :| x in sigs;
      q := Pick(sigs - {x}, n - 1);
      q := q + [x];
    }
  }

  /** The log in which each of these signatures has one round. */
  function FirstRounds(q: seq<Sig>): (log: seq<Ended>)
    ensures |log| == |q| && forall i :: 0 <= i < |q| ==> log[i] == Ended(q[i], 0)
  {
    seq(|q|, i requires 0 <= i < |q| => Ended(q[i], 0))
  }

  function FirstMemos(q: seq<Sig>): (ms: seq<Memo>)
    ensures |ms| == |q| && forall i :: 0 <= i < |q| ==> ms[i] == Memo(q[i], 1)
  {
    seq(|q|, i requires 0 <= i < |q| => Memo(q[i], 1))
  }

  lemma OnceEach(q: seq<Sig>)
    requires DistinctSeq(q)
    ensures InOrder(FirstRounds(q))
    ensures forall i :: 0 <= i < |q| ==> Rounds(FirstRounds(q), q[i]) == 1
  {
    var log := FirstRounds(q);
    forall i | 0 <= i < |q| ensures InOrderAt(log, i) && Rounds(log, q[i]) == 1 {
      OnceAt(log, i);
    }
  }

  lemma OnceAt(log: seq<Ended>, i: nat)
    requires i < |log| && forall j :: 0 <= j < |log| && j != i ==> log[j].sig != log[i].sig
    ensures Rounds(log[..i], log[i].sig) == 0 && Rounds(log, log[i].sig) == 1
  {
    NoRounds(log[..i], log[i].sig);
    NoRounds(log[i + 1..], log[i].sig);
    RoundsSplit(log, i, log[i].sig);
  }

  lemma RoundsSplit(log: seq<Ended>, i: nat, sig: Sig)
    requires i < |log|
    ensures Rounds(log, sig) == Rounds(log[..i], sig) + (if log[i].sig == sig then 1 else 0) + Rounds(log[i + 1..], sig)
  {
    assert log == log[..i + 1] + log[i + 1..];
    RoundsConcat(log[..i + 1], log[i + 1..], sig);
    assert log[..i + 1][..i] == log[..i];
  }

  lemma NewSig(q: seq<Sig>)
    requires DistinctSeq(q) && q != []
    ensures Recorded(FirstMemos(q[..|q| - 1]), q[|q| - 1], 0)
         == Evicted(FirstMemos(q[..|q| - 1]), MEMO_MAX) + [Memo(q[|q| - 1], 1)]
    ensures FirstRounds(q)[..|q| - 1] == FirstRounds(q[..|q| - 1])
  {
    assert IndexOf(FirstMemos(q[..|q| - 1]), q[|q| - 1]) == |q| - 1;
  }

  lemma {:induction false} Remembers(q: seq<Sig>)
    requires DistinctSeq(q) && |q| <= MEMO_MAX
    ensures Process(FirstRounds(q)) == FirstMemos(q)
  {
    if q != [] {
      Remembers(q[..|q| - 1]);
      RemembersOneMore(q);
    }
  }

  lemma RemembersOneMore(q: seq<Sig>)
    requires DistinctSeq(q) && 0 < |q| <= MEMO_MAX
    requires Process(FirstRounds(q[..|q| - 1])) == FirstMemos(q[..|q| - 1])
    ensures Process(FirstRounds(q)) == FirstMemos(q)
  {
    NewSig(q);
    FirstMemosOneMore(q);
  }

  lemma FirstMemosOneMore(q: seq<Sig>)
    requires q != []
    ensures FirstMemos(q) == FirstMemos(q[..|q| - 1]) + [Memo(q[|q| - 1], 1)]
  {
  }

  /** One signature too many, and the first one's number is lost. */
  lemma Forgets(q: seq<Sig>)
    requires DistinctSeq(q) && |q| == MEMO_MAX + 1
    ensures NextGen(false, Process(FirstRounds(q)), q[0]) == 0
  {
    var rest := q[..MEMO_MAX];
    Remembers(rest);
    NewSig(q);
    var ms := Process(FirstRounds(q));
    assert ms == FirstMemos(rest)[1..] + [Memo(q[MEMO_MAX], 1)];
    assert forall i :: 0 <= i < |ms| ==> ms[i].sig == q[i + 1];
    assert Lookup(ms, q[0]).None?;
  }

  // ---- an unnumbered contribution ----

  /** The round a founder that has processed `b` releases files an unnumbered
      contribution under. */
  function Resolved(log: seq<Ended>, b: nat, sig: Sig): nat
    requires b <= |log|
  {
    NextGen(false, Process(log[..b]), sig)
  }

  ghost predicate Quiet(log: seq<Ended>, i: nat, j: nat, sig: Sig)
    requires i <= j <= |log|
  {
    forall n :: i <= n < j ==> log[n].sig != sig
  }

  /** A newcomer that entered the fence after `a` releases is filed under its
      own round if and only if no release over these participants lies between
      what it had processed and what the receiver has. */
  lemma UnknownLandsRight(log: seq<Ended>, a: nat, b: nat, sigs: set<Sig>, sig: Sig)
    requires InOrder(log) && Over(log, sigs) && |sigs| <= MEMO_MAX && a <= |log| && b <= |log|
    ensures Resolved(log, b, sig) == Rounds(log[..a], sig)
       <==> Undisturbed(log, a, b, sig)
  {
    InOrderPrefix(log, b);
    FounderNumber(log[..b], sigs, sig, 0);
    if a <= b { QuietBetween(log, a, b, sig); } else { QuietBetween(log, b, a, sig); }
  }

  lemma QuietBetween(log: seq<Ended>, i: nat, j: nat, sig: Sig)
    requires i <= j <= |log|
    ensures Rounds(log[..i], sig) == Rounds(log[..j], sig) <==> Quiet(log, i, j, sig)
  {
    assert log[..j] == log[..i] + log[i..j];
    RoundsConcat(log[..i], log[i..j], sig);
    NoRounds(log[i..j], sig);
    assert forall n :: i <= n < j ==> log[n] == log[i..j][n - i];
  }

  ghost predicate Undisturbed(log: seq<Ended>, a: nat, b: nat, sig: Sig)
    requires a <= |log| && b <= |log|
  {
    if a <= b then Quiet(log, a, b, sig) else Quiet(log, b, a, sig)
  }

  /** What a receiver that came in itself after `q` releases files it under. */
  function ResolvedLate(log: seq<Ended>, q: nat, b: nat, sig: Sig): nat
    requires q <= b <= |log|
  {
    NextGen(true, ProcessFrom(log[..b], q), sig)
  }

  /** The round that ends up being. A tracker without a number takes the number
      of the next release over its participants, here release `n`, unless the
      receiver also holds a tracker of that number: then that one is retired and
      the other stays without. */
  function Learned(log: seq<Ended>, q: nat, b: nat, n: nat, numbered: bool, sig: Sig): Option<nat>
    requires q <= b <= n < |log|
  {
    var g := ResolvedLate(log, q, b, sig);
    if g != UNKNOWN then Some(g) else if numbered then None else Some(log[n].gen)
  }

  /** A late receiver files it without a number exactly while it has processed
      no release over these participants, and like a founder after that. It ends
      up in its own round if and only if no release over these participants
      separates sender and receiver and it is not filed without a number beside a
      tracker that has it. */
  lemma UnknownLandsRightLate(log: seq<Ended>, a: nat, q: nat, b: nat, n: nat, numbered: bool, sigs: set<Sig>, sig: Sig)
    requires InOrder(log) && Over(log, sigs) && |sigs| <= MEMO_MAX && a <= |log|
    requires q <= b <= n < |log| && Quiet(log, b, n, sig) && log[n].sig == sig
    ensures ResolvedLate(log, q, b, sig) == UNKNOWN <==> Quiet(log, q, b, sig)
    ensures !Quiet(log, q, b, sig) ==> Learned(log, q, b, n, numbered, sig) == Some(Resolved(log, b, sig))
    ensures Learned(log, q, b, n, numbered, sig) == Some(Rounds(log[..a], sig))
       <==> Undisturbed(log, a, b, sig) && !(Quiet(log, q, b, sig) && numbered)
  {
    InOrderPrefix(log, b);
    JoinerNumber(log[..b], q, sigs, sig);
    FounderNumber(log[..b], sigs, sig, 0);
    RoundsBelow(log[..b], sig);
    NoRounds(log[..b][q..], sig);
    assert forall i :: q <= i < b ==> log[..b][q..][i - q] == log[i];
    assert InOrderAt(log, n);
    QuietBetween(log, b, n, sig);
    UnknownLandsRight(log, a, b, sigs, sig);
  }

  /** ... but until then it keeps it apart from the numbered contributions of
      the same round, which it takes for no older than any other. */
  lemma LateKeepsApart(log: seq<Ended>, q: nat, b: nat, sigs: set<Sig>, sig: Sig, gen: nat)
    requires InOrder(log) && Over(log, sigs) && |sigs| <= MEMO_MAX && q <= b <= |log|
    requires Quiet(log, q, b, sig) && gen < UNKNOWN
    ensures !Stale(true, ProcessFrom(log[..b], q), sig, gen) && ResolvedLate(log, q, b, sig) != gen
  {
    InOrderPrefix(log, b);
    JoinerNumber(log[..b], q, sigs, sig);
    NoRounds(log[..b][q..], sig);
    assert forall i :: q <= i < b ==> log[..b][q..][i - q] == log[i];
  }

  /** So it can be a straggler: its round is aborted while it climbs the tree,
      and the receiver takes it for the next. */
  lemma UnknownStraggles() returns (log: seq<Ended>, sig: Sig)
    ensures InOrder(log) && |log| == 1
    ensures NextGen(true, ProcessFrom(log[..0], 0), sig) == UNKNOWN
    ensures Rounds(log[..0], sig) == 0 && Resolved(log, 1, sig) == 1
  {
    sig := [Proc("job", Rank(0))];
    log := [Ended(sig, 0)];
    assert log[..0] == [] && log[..1] == log && log[..1][..0] == [];
    assert InOrderAt(log, 0);
    assert Process(log) == [Memo(sig, 1)];
  }

  // ---- releases in any order ----

  /** A release over `sig` that says which round it ends. */
  predicate Names(r: Ended, sig: Sig) { r.sig == sig && r.gen != UNKNOWN }

  /** One more than the largest round released, or nothing if none was. */
  ghost predicate AfterLargest(log: seq<Ended>, sig: Sig, next: Option<nat>) {
    && (next.None? <==> forall r :: r in log ==> !Names(r, sig))
    && (next.Some? ==>
          && (forall r :: r in log && Names(r, sig) ==> r.gen < next.value)
          && exists r :: r in log && Names(r, sig) && r.gen + 1 == next.value)
  }

  /** A release over `sig` moves its number up, or not at all. */
  function Raised(was: Option<nat>, r: Ended, sig: Sig): Option<nat> {
    if Names(r, sig) && (was.None? || was.value <= r.gen) then Some(r.gen + 1) else was
  }

  ghost predicate Tidy(ms: seq<Memo>, sigs: set<Sig>) {
    DistinctSigs(ms) && forall i :: 0 <= i < |ms| ==> ms[i].sig in sigs
  }

  lemma RecordOne(ms: seq<Memo>, sigs: set<Sig>, r: Ended, sig: Sig)
    requires Tidy(ms, sigs) && |sigs| <= MEMO_MAX && r.sig in sigs
    ensures var ms' := Recorded(ms, r.sig, r.gen);
            Tidy(ms', sigs) && Lookup(ms', sig) == Raised(Lookup(ms, sig), r, sig)
  {
    if r.gen != UNKNOWN {
      if Lookup(ms, r.sig).None? { NewEntry(ms, sigs, r, sig); } else { OldEntry(ms, sigs, r, sig); }
    }
  }

  lemma NewEntry(ms: seq<Memo>, sigs: set<Sig>, r: Ended, sig: Sig)
    requires Tidy(ms, sigs) && |sigs| <= MEMO_MAX && r.sig in sigs && r.gen != UNKNOWN && Lookup(ms, r.sig).None?
    ensures var ms' := Recorded(ms, r.sig, r.gen);
            Tidy(ms', sigs) && Lookup(ms', sig) == Raised(Lookup(ms, sig), r, sig)
  {
    var x := Memo(r.sig, r.gen + 1);
    Pigeonhole(ms + [x], sigs);
    assert Recorded(ms, r.sig, r.gen) == ms + [x];
    OneEntry(ms, ms + [x], |ms|, sig);
  }

  lemma OldEntry(ms: seq<Memo>, sigs: set<Sig>, r: Ended, sig: Sig)
    requires Tidy(ms, sigs) && r.gen != UNKNOWN && Lookup(ms, r.sig).Some?
    ensures var ms' := Recorded(ms, r.sig, r.gen);
            Tidy(ms', sigs) && Lookup(ms', sig) == Raised(Lookup(ms, sig), r, sig)
  {
    var i := IndexOf(ms, r.sig);
    var x := if ms[i].next <= r.gen then Memo(r.sig, r.gen + 1) else ms[i];
    assert Recorded(ms, r.sig, r.gen) == ms[i := x];
    OneEntry(ms, ms[i := x], i, sig);
  }

  /** Lists of distinct signatures that differ in one entry. */
  lemma OneEntry(ms: seq<Memo>, ms': seq<Memo>, i: nat, sig: Sig)
    requires DistinctSigs(ms') && i < |ms'| && (|ms'| == |ms| || (i == |ms| && |ms'| == |ms| + 1))
    requires forall j :: 0 <= j < |ms'| && j != i ==> ms'[j] == ms[j]
    requires i < |ms| ==> ms'[i].sig == ms[i].sig
    ensures Lookup(ms', sig) == if ms'[i].sig == sig then Some(ms'[i].next) else Lookup(ms, sig)
  {
  }

  /** Whatever order the releases come in, however often, and however many say
      nothing: a daemon's number for a signature is one past the largest round
      released, and it never goes back. */
  lemma {:induction false} NumberIsLargest(log: seq<Ended>, sigs: set<Sig>, sig: Sig)
    requires Over(log, sigs) && |sigs| <= MEMO_MAX
    ensures Tidy(Process(log), sigs) && AfterLargest(log, sig, Lookup(Process(log), sig))
    ensures log != [] ==>
              var was, now := Lookup(Process(log[..|log| - 1]), sig), Lookup(Process(log), sig);
              was.Some? ==> now.Some? && was.value <= now.value
  {
    if log != [] {
      var rest, r := log[..|log| - 1], log[|log| - 1];
      NumberIsLargest(rest, sigs, sig);
      RecordOne(Process(rest), sigs, r, sig);
      assert log == rest + [r];
      LargestAfter(rest, r, sig, Lookup(Process(rest), sig));
    }
  }

  lemma LargestAfter(log: seq<Ended>, r: Ended, sig: Sig, was: Option<nat>)
    requires AfterLargest(log, sig, was)
    ensures AfterLargest(log + [r], sig, Raised(was, r, sig))
  {
    assert r in log + [r];
    if x :| x in log && Names(x, sig) { assert x in log + [r]; }
  }

  /** So it depends only on which releases a daemon has processed. */
  lemma SameReleasesSameNumber(a: seq<Ended>, b: seq<Ended>, sigs: set<Sig>, sig: Sig)
    requires Over(a, sigs) && Over(b, sigs) && |sigs| <= MEMO_MAX && forall r :: r in a <==> r in b
    ensures Lookup(Process(a), sig) == Lookup(Process(b), sig)
  {
    NumberIsLargest(a, sigs, sig);
    NumberIsLargest(b, sigs, sig);
    OneLargest(a, b, sig, Lookup(Process(a), sig), Lookup(Process(b), sig));
  }

  lemma OneLargest(a: seq<Ended>, b: seq<Ended>, sig: Sig, x: Option<nat>, y: Option<nat>)
    requires AfterLargest(a, sig, x) && AfterLargest(b, sig, y) && forall r :: r in a <==> r in b
    ensures x == y
  {
    if x.Some? && y.Some? {
      var r :| r in a && Names(r, sig) && r.gen + 1 == x.value;
      var t :| t in b && Names(t, sig) && t.gen + 1 == y.value;
    }
  }
}
