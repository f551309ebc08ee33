/** Context ids: the master counts one 32-bit pool down from the top; every
    other daemon is refused. */
module ContextIds {
  import opened Words

  const TOP: nat := 0xFFFF_FFFF

  datatype Reply = Assigned(id: nat) | BadParam | NotSupported

  /** A call: does it give somewhere to put the id, and is it made on the master? */
  datatype Ask = Ask(place: bool, master: bool)

  predicate Served(a: Ask) { a.place && a.master }

  function Down32(n: nat): (r: nat)
    ensures n < WIDTH ==> r < WIDTH
  {
    (n + WIDTH - 1) % WIDTH
  }

  class Pool {
    var next: nat

    constructor ()
      ensures next == TOP
    {
      next := TOP;
    }

    /** prte_grpcomm_assign_context_id. */
    method Assign(a: Ask) returns (r: Reply)
      requires next < WIDTH
      modifies this
      ensures next < WIDTH
      ensures Served(a) <==> r.Assigned?
      ensures r.BadParam? <==> !a.place
      ensures r.Assigned? ==> r.id == old(next) && next == Down32(old(next))
      ensures !r.Assigned? ==> next == old(next)
    {
      if !a.place { return BadParam; }
      if !a.master { return NotSupported; }
      r := Assigned(next);
      next := if next == 0 then TOP else next - 1;
    }

    /** A whole run of calls against the one pool. */
    method AssignAll(asks: seq<Ask>) returns (ids: seq<nat>)
      requires next == TOP
      modifies this
      ensures ids == Ids(asks)
    {
      ids := [];
      for i := 0 to |asks|
        invariant next < WIDTH && next == Nth(|ids|)
        invariant ids == Ids(asks[..i])
      {
        var r := Assign(asks[i]);
        assert asks[..i + 1][..i] == asks[..i];
        if r.Assigned? {
          NthNext(|ids|);
          ids := ids + [r.id];
        }
      }
      assert asks[..|asks|] == asks;
    }
  }

  /** The id the `n`th served call gets. */
  function Nth(n: nat): (r: nat)
    ensures r < WIDTH
  {
    TOP - n % WIDTH
  }

  lemma NthNext(n: nat)
    ensures Nth(n + 1) == Down32(Nth(n))
  {
  }

  /** Which ids a run of calls is served: refusals take none. */
  function Ids(asks: seq<Ask>): seq<nat> {
    if asks == [] then []
    else
      var ids := Ids(asks[..|asks| - 1]);
      if Served(asks[|asks| - 1]) then ids + [Nth(|ids|)] else ids
  }

  lemma {:induction false} IdsAre(asks: seq<Ask>, i: nat)
    requires i < |Ids(asks)|
    ensures Ids(asks)[i] == Nth(i)
  {
    var ids := Ids(asks[..|asks| - 1]);
    if i < |ids| { IdsAre(asks[..|asks| - 1], i); }
  }

  /** As many ids as calls on the master that give a place for one. */
  lemma {:induction false} OneEach(asks: seq<Ask>)
    ensures |Ids(asks)| == |set i | 0 <= i < |asks| && asks[i].place && asks[i].master|
  {
    var all := set i | 0 <= i < |asks| && asks[i].place && asks[i].master;
    if asks == [] {
      assert all == {};
    } else {
      var rest, n := asks[..|asks| - 1], |asks| - 1;
      var some := set i | 0 <= i < |rest| && rest[i].place && rest[i].master;
      OneEach(rest);
      assert all == if asks[n].place && asks[n].master then some + {n} else some;
    }
  }

  /** Two calls of one run get the same id exactly when a multiple of 2^32
      assignments lies between them: any 2^32 in a row are distinct. */
  lemma IdsDistinct(asks: seq<Ask>, i: nat, j: nat)
    requires i < j < |Ids(asks)|
    ensures Ids(asks)[i] == Ids(asks)[j] <==> (j - i) % WIDTH == 0
  {
    IdsAre(asks, i);
    IdsAre(asks, j);
  }

  /** The first `n` ids keep clear of the bottom `k` numbers exactly as long as
      `n` does not exceed 2^32 - `k`. */
  lemma IdsAbove(asks: seq<Ask>, n: nat, k: nat)
    requires n <= |Ids(asks)| && 0 < k <= WIDTH
    ensures (forall i :: 0 <= i < n ==> Ids(asks)[i] >= k) <==> n <= WIDTH - k
  {
    forall i | 0 <= i < n ensures Ids(asks)[i] == Nth(i) { IdsAre(asks, i); }
    if n > WIDTH - k {
      assert Ids(asks)[WIDTH - k] == k - 1;
    }
  }

  /** A refused call leaves every later id as it would have been. */
  lemma {:induction false} RefusalsTakeNothing(asks: seq<Ask>, a: Ask, more: seq<Ask>)
    requires !Served(a)
    ensures Ids(asks + [a] + more) == Ids(asks + more)
  {
    if more == [] {
      assert (asks + [a] + more)[..|asks|] == asks && asks + more == asks;
    } else {
      var m := more[..|more| - 1];
      RefusalsTakeNothing(asks, a, m);
      assert (asks + [a] + more)[..|asks + [a] + more| - 1] == asks + [a] + m;
      assert (asks + more)[..|asks + more| - 1] == asks + m;
    }
  }
}
