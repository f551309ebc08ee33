/** Numbering the rounds over one participant list: each daemon counts the
    releases it has processed, on a list of at most 64 remembered signatures. */
module Generations {
  import opened RoutingTree
  import opened Fence

  /** 32-bit round numbers; the largest one says "I do not know". */
  const UNKNOWN: nat := 0xFFFF_FFFF
  const MEMO_MAX: nat := 64

  datatype Memo = Memo(sig: Sig, next: nat)

  // ---- the list, as the code keeps it ----

  function Lookup(ms: seq<Memo>, sig: Sig): (r: Option<nat>)
    ensures r.Some? ==> exists i :: 0 <= i < |ms| && ms[i] == Memo(sig, r.value)
    ensures r.None? <==> forall i :: 0 <= i < |ms| ==> ms[i].sig != sig
  {
    if ms == [] then None
    else if ms[0].sig == sig then (assert ms[0] == Memo(sig, ms[0].next); Some(ms[0].next))
    else
      var r := Lookup(ms[1..], sig);
      (assert forall i :: 1 <= i < |ms| ==> ms[i] == ms[1..][i - 1];
       assert forall i :: 0 <= i < |ms| - 1 ==> ms[1..][i] == ms[i + 1];
       r)
  }

  /** What a daemon says of a signature it remembers nothing about. */
  function Baseline(late: bool): nat { if late then UNKNOWN else 0 }

  function NextGen(late: bool, ms: seq<Memo>, sig: Sig): nat {
    match Lookup(ms, sig)
    case None => Baseline(late)
    case Some(g) => g
  }

  predicate Stale(late: bool, ms: seq<Memo>, sig: Sig, gen: nat) {
    gen != UNKNOWN && NextGen(late, ms, sig) != UNKNOWN && gen < NextGen(late, ms, sig)
  }

  function IndexOf(ms: seq<Memo>, sig: Sig): (i: nat)
    ensures i <= |ms|
    ensures i < |ms| ==> ms[i].sig == sig && Lookup(ms, sig) == Some(ms[i].next)
    ensures i == |ms| <==> Lookup(ms, sig) == None
    ensures forall j :: 0 <= j < i ==> ms[j].sig != sig
  {
    if ms == [] || ms[0].sig == sig then 0 else 1 + IndexOf(ms[1..], sig)
  }

  /** The newest entries, leaving room for one more. */
  function Evicted<T>(ms: seq<T>, max: nat): (r: seq<T>)
    requires max > 0
    ensures |r| < max
  {
    if |ms| < max then ms else ms[|ms| - max + 1..]
  }

  /** Adopt a released round: never backwards, evicting the oldest memo for a new one. */
  function Recorded(ms: seq<Memo>, sig: Sig, gen: nat): seq<Memo> {
    if gen == UNKNOWN then ms
    else
      var i := IndexOf(ms, sig);
      if i < |ms| then (if ms[i].next < gen + 1 then ms[i := Memo(sig, gen + 1)] else ms)
      else Evicted(ms, MEMO_MAX) + [Memo(sig, gen + 1)]
  }

  class Numbering {
    const late: bool
    var memos: seq<Memo>

    constructor (late: bool)
      ensures this.late == late && memos == []
    {
      this.late := late;
      memos := [];
    }

    /** fence_gen_find: the first entry with this signature. */
    method Find(sig: Sig) returns (i: nat)
      ensures i == IndexOf(memos, sig)
    {
      i := 0;
      while i < |memos|
        invariant i <= |memos|
        invariant IndexOf(memos, sig) == i + IndexOf(memos[i..], sig)
      {
        if memos[i].sig == sig { return; }
        assert memos[i..][1..] == memos[i + 1..];
        i := i + 1;
      }
    }

    /** fence_gen_next. */
    method Next(sig: Sig) returns (g: nat)
      ensures g == NextGen(late, memos, sig)
    {
      var i := Find(sig);
      if i == |memos| { return if late then UNKNOWN else 0; }
      g := memos[i].next;
    }

    /** fence_gen_is_stale. */
    method IsStale(sig: Sig, gen: nat) returns (r: bool)
      ensures r <==> Stale(late, memos, sig, gen)
    {
      if gen == UNKNOWN { return false; }
      var next := Next(sig);
      if next == UNKNOWN { return false; }
      r := gen < next;
    }

    /** fence_gen_record. */
    method Record(sig: Sig, gen: nat)
      modifies this
      ensures memos == Recorded(old(memos), sig, gen)
    {
      if gen == UNKNOWN { return; }
      var i := Find(sig);
      if i < |memos| {
        if memos[i].next < gen + 1 { memos := memos[i := Memo(sig, gen + 1)]; }
        return;
      }
      ghost var ms := memos;
      while MEMO_MAX <= |memos|
        invariant |memos| <= |ms| && memos == ms[|ms| - |memos|..]
        invariant |memos| < |ms| ==> MEMO_MAX - 1 <= |memos|
        decreases |memos|
      {
        memos := memos[1..];
      }
      memos := memos + [Memo(sig, gen + 1)];
    }
  }

  // ---- what it is for ----

  /** A release names the round it ends. */
  datatype Ended = Ended(sig: Sig, gen: nat)

  /** How many rounds over `sig` the log has ended. */
  function Rounds(log: seq<Ended>, sig: Sig): (n: nat)
    ensures n <= |log|
  {
    if log == [] then 0
    else Rounds(log[..|log| - 1], sig) + if log[|log| - 1].sig == sig then 1 else 0
  }

  /** Rounds over one signature are released in order, below the sentinel. */
  ghost predicate InOrder(log: seq<Ended>) {
    forall i :: 0 <= i < |log| ==> InOrderAt(log, i)
  }

  predicate InOrderAt(log: seq<Ended>, i: nat)
    requires i < |log|
  {
    log[i].gen == Rounds(log[..i], log[i].sig) && log[i].gen + 1 < UNKNOWN
  }

  ghost predicate Over(log: seq<Ended>, sigs: set<Sig>) {
    forall i :: 0 <= i < |log| ==> log[i].sig in sigs
  }

  /** The list after a daemon has processed these releases. */
  function Process(log: seq<Ended>): seq<Memo> {
    if log == [] then []
    else Recorded(Process(log[..|log| - 1]), log[|log| - 1].sig, log[|log| - 1].gen)
  }

  /** The list of a daemon that came in after the first `p` releases. */
  function ProcessFrom(log: seq<Ended>, p: nat): seq<Memo>
    requires p <= |log|
  {
    Process(log[p..])
  }
}
