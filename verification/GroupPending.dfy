/** Group operations on one daemon: several up-calls may land on one tracker,
    and each is owed its own completion. */
module GroupPending {
  import opened RoutingTree
  import opened Fence
  import Generations

  datatype GroupOp = Construct | Destruct

  /** What a signature says that decides which tracker it joins: `bootstrap` is
      the number of leaders claimed (zero: none), `order` a requested final order. */
  datatype Group = Group(id: string, op: GroupOp, bootstrap: nat, order: Option<seq<Proc>>)

  /** One callback and its data, handed in by the PMIx server. */
  type Token = nat

  datatype Coll = Coll(id: string, op: GroupOp, nleaders: nat, order: Option<seq<Proc>>, pending: seq<Token>)

  datatype Done = Done(token: Token, status: Status)

  /** An operation as stragglers name it. */
  datatype Name = Name(id: string, op: GroupOp)

  const GROUP_MEMO_MAX: nat := 64

  /** `memo` are the operations released here, oldest first; `lost` is history:
      completions that went down with their tracker. */
  datatype Server = Server(colls: seq<Coll>, memo: seq<Name>, invoked: seq<Done>, lost: seq<Token>)

  function NameOf(g: Group): Name { Name(g.id, g.op) }

  // ---- finding and joining a tracker ----

  predicate Named(c: Coll, g: Group) { c.id == g.id && c.op == g.op }

  function Index(colls: seq<Coll>, g: Group): (i: nat)
    ensures i <= |colls|
    ensures i < |colls| ==> Named(colls[i], g)
    ensures forall j :: 0 <= j < i ==> !Named(colls[j], g)
  {
    if colls == [] || Named(colls[0], g) then 0
    else
      var i := 1 + Index(colls[1..], g);
      assert forall j :: 1 <= j < |colls| ==> colls[j] == colls[1..][j - 1];
      i
  }

  /** The number of leaders agrees, or is only now learned. */
  predicate LeadersAgree(c: Coll, g: Group) { g.bootstrap > 0 && c.nleaders > 0 ==> c.nleaders == g.bootstrap }

  predicate OrderAgrees(c: Coll, g: Group) { g.order.Some? && c.order.Some? ==> c.order == g.order }

  /** get_tracker hands an existing tracker out only to a signature that agrees with it. */
  predicate Agrees(c: Coll, g: Group) { LeadersAgree(c, g) && OrderAgrees(c, g) }

  /** ... and folds what the signature says into it, up to the first disagreement. */
  function Fold(c: Coll, g: Group): Coll {
    if !LeadersAgree(c, g) then c
    else
      c.(nleaders := if g.bootstrap > 0 then g.bootstrap else c.nleaders,
         order := if OrderAgrees(c, g) && g.order.Some? then g.order else c.order)
  }

  function NewColl(g: Group): Coll { Coll(g.id, g.op, g.bootstrap, g.order, []) }

  // ---- what is remembered of finished operations ----

  function Without(memo: seq<Name>, x: Name): (r: seq<Name>)
    ensures x !in r && |r| <= |memo|
    ensures forall y :: y in r <==> y in memo && y != x
  {
    if memo == [] then []
    else
      var rest, last := Without(memo[..|memo| - 1], x), memo[|memo| - 1];
      assert memo == memo[..|memo| - 1] + [last];
      if last == x then rest else rest + [last]
  }

  function Remembered(memo: seq<Name>, x: Name): (r: seq<Name>)
    ensures x in r
  {
    if x in memo then memo else Generations.Evicted(memo, GROUP_MEMO_MAX) + [x]
  }

  // ---- the callbacks, on values ----

  /** Asked to open a tracker; `Open(false)` when the members cannot be resolved
      to daemons, which a leader of a bootstrap does not need. (Nor does a
      follower, whose asking is always `Open(true)`.) */
  datatype Ask = Look | Open(resolves: bool)

  /** get_tracker: the list afterwards, and the tracker if one was handed out. */
  function Got(colls: seq<Coll>, g: Group, ask: Ask): (r: (seq<Coll>, Option<nat>))
    ensures r.1.Some? ==> r.1.value < |r.0| && Named(r.0[r.1.value], g)
  {
    var i := Index(colls, g);
    if i < |colls| then (colls[i := Fold(colls[i], g)], if Agrees(colls[i], g) then Some(i) else None)
    else if ask.Open? && (ask.resolves || g.bootstrap > 0) then (colls + [NewColl(g)], Some(|colls|))
    else (colls, None)
  }

  /** Where an up-call fails, if it does: reading its directives, resolving its
      members for a new tracker, or packing and sending what it gives. */
  datatype Fate = BadDirectives(e: int) | Unresolved | Unsent(e: int) | Sent

  function Tell(s: Server, cb: Option<Token>, st: Status): Server {
    if cb.Some? then s.(invoked := s.invoked + [Done(cb.value, st)]) else s
  }

  /** group: whatever was released under this name is forgotten, and the
      completion queued; on any failure, take off only our own and answer it. */
  function UpCall(s: Server, g: Group, cb: Option<Token>, fate: Fate): Server {
    if fate.BadDirectives? then Tell(s, cb, Error(fate.e))
    else
      var r := Got(s.colls, g, Open(!fate.Unresolved?));
      var s1 := s.(colls := r.0, memo := Without(s.memo, NameOf(g)));
      if r.1.None? then Tell(s1, cb, NOT_FOUND)
      else if fate.Unsent? then Tell(s1, cb, Error(fate.e))
      else if cb.None? then s1
      else
        var c := r.0[r.1.value];
        s1.(colls := r.0[r.1.value := c.(pending := c.pending + [cb.value])])
  }

  /** grp_recv: a contribution from below opens or joins a tracker, with nobody
      to answer, unless its operation is over. */
  function Contribute(s: Server, g: Group, resolves: bool): Server {
    if NameOf(g) in s.memo then s else s.(colls := Got(s.colls, g, Open(resolves)).0)
  }

  function Answered(pending: seq<Token>, st: Status): seq<Done> {
    seq(|pending|, i requires 0 <= i < |pending| => Done(pending[i], st))
  }

  function Served(s: Server, g: Group, st: Status): Server {
    var i := Index(s.colls, g);
    if i == |s.colls| then s
    else
      var c := Fold(s.colls[i], g);
      if Agrees(s.colls[i], g) then
        s.(colls := s.colls[i := c.(pending := [])], invoked := s.invoked + Answered(c.pending, st))
      else s.(colls := s.colls[i := c])
  }

  function Deleted(s: Server, g: Group): Server {
    var i, s1 := Index(s.colls, g), s.(memo := Remembered(s.memo, NameOf(g)));
    if i == |s.colls| then s1
    else s1.(colls := s.colls[..i] + s.colls[i + 1..], lost := s.lost + s.colls[i].pending)
  }

  /** grp_release: answer everything queued on the tracker get_tracker hands
      out, then delete the tracker of that name whatever it still holds. */
  function Released(s: Server, g: Group, st: Status): Server { Deleted(Served(s, g, st), g) }

  // ---- as written: a list searched and updated in place ----

  class GroupServer {
    var colls: seq<Coll>
    var memo: seq<Name>
    var invoked: seq<Done>
    ghost var lost: seq<Token>

    ghost function State(): Server
      reads this
    {
      Server(colls, memo, invoked, lost)
    }

    constructor ()
      ensures State() == Server([], [], [], [])
    {
      colls, memo, invoked, lost := [], [], [], [];
    }

    method Find(g: Group) returns (i: nat)
      ensures i == Index(colls, g)
    {
      i := 0;
      while i < |colls|
        invariant i <= |colls|
        invariant Index(colls, g) == i + Index(colls[i..], g)
      {
        if colls[i].id == g.id && colls[i].op == g.op { return; }
        assert colls[i..][1..] == colls[i + 1..];
        i := i + 1;
      }
    }

    method GetTracker(g: Group, ask: Ask) returns (r: Option<nat>)
      modifies this`colls
      ensures (colls, r) == Got(old(colls), g, ask)
    {
      var i := Find(g);
      if i == |colls| {
        if ask.Look? { return None; }
        colls := colls + [Coll(g.id, g.op, g.bootstrap, g.order, [])];
        if g.bootstrap > 0 { return Some(i); }
        if !ask.resolves {
          colls := colls[..i];
          assert colls == old(colls);
          return None;
        }
        return Some(i);
      }
      var c := colls[i];
      if g.bootstrap > 0 {
        if c.nleaders > 0 {
          if c.nleaders != g.bootstrap {
            assert colls == colls[i := c];
            return None;
          }
        } else {
          c := c.(nleaders := g.bootstrap);
        }
      }
      if g.order.Some? {
        if c.order.None? {
          c := c.(order := g.order);
        } else if c.order != g.order {
          colls := colls[i := c];
          return None;
        }
      }
      colls := colls[i := c];
      r := Some(i);
    }

    method Invoke(cb: Option<Token>, st: Status)
      modifies this`invoked
      ensures State() == Tell(old(State()), cb, st)
    {
      if cb.Some? { invoked := invoked + [Done(cb.value, st)]; }
    }

    /** group_op_forget: every entry of that name. */
    method ForgetOp(x: Name)
      modifies this`memo
      ensures memo == Without(old(memo), x)
    {
      var kept := [];
      for i := 0 to |memo|
        invariant memo == old(memo) && kept == Without(memo[..i], x)
      {
        assert memo[..i + 1][..i] == memo[..i];
        if memo[i] != x { kept := kept + [memo[i]]; }
      }
      assert memo[..|memo|] == memo;
      memo := kept;
    }

    /** group_op_completed. */
    method IsCompleted(x: Name) returns (r: bool)
      ensures r <==> x in memo
    {
      for i := 0 to |memo|
        invariant x !in memo[..i]
      {
        if memo[i] == x { return true; }
      }
      r := false;
    }

    /** group_op_remember: once, evicting the oldest. */
    method Remember(x: Name)
      modifies this`memo
      ensures memo == Remembered(old(memo), x)
    {
      var known := IsCompleted(x);
      if known { return; }
      ghost var all := memo;
      while GROUP_MEMO_MAX <= |memo|
        invariant |memo| <= |all| && memo == all[|all| - |memo|..]
        invariant |memo| < |all| ==> GROUP_MEMO_MAX - 1 <= |memo|
        decreases |memo|
      {
        memo := memo[1..];
      }
      memo := memo + [x];
    }

    method Enter(g: Group, cb: Option<Token>, fate: Fate)
      modifies this`colls, this`memo, this`invoked
      ensures State() == UpCall(old(State()), g, cb, fate)
    {
      if fate.BadDirectives? { Invoke(cb, Error(fate.e)); return; }
      ForgetOp(NameOf(g));
      var r := GetTracker(g, Open(!fate.Unresolved?));
      if r.None? { Invoke(cb, NOT_FOUND); return; }
      var i := r.value;
      if cb.Some? { colls := colls[i := colls[i].(pending := colls[i].pending + [cb.value])]; }
      if fate.Unsent? {
        if cb.Some? {
          var p := colls[i].pending;
          colls := colls[i := colls[i].(pending := p[..|p| - 1])];
          assert colls == Got(old(colls), g, Open(true)).0;
        }
        Invoke(cb, Error(fate.e));
      }
    }

    method Receive(g: Group, resolves: bool)
      modifies this`colls
      ensures State() == Contribute(old(State()), g, resolves)
    {
      var over := IsCompleted(NameOf(g));
      if over { return; }
      var r := GetTracker(g, Open(resolves));
    }

    /** request_group_cancel: the cancel itself is only acknowledged; the abort
        it asks for comes back as a release. */
    method Cancel(cb: Option<Token>, st: Status)
      modifies this`invoked
      ensures State() == Tell(old(State()), cb, st)
    {
      Invoke(cb, st);
    }

    /** Every up-call the tracker absorbed is owed its own completion. */
    method Drain(i: nat, st: Status)
      requires i < |colls|
      modifies this`colls, this`invoked
      ensures invoked == old(invoked) + Answered(old(colls[i].pending), st)
      ensures colls == old(colls)[i := old(colls[i]).(pending := [])]
    {
      ghost var p := colls[i].pending;
      while colls[i].pending != []
        invariant i < |colls| && |colls[i].pending| <= |p|
        invariant colls == old(colls)[i := old(colls[i]).(pending := colls[i].pending)]
        invariant colls[i].pending == p[|p| - |colls[i].pending|..]
        invariant invoked == old(invoked) + Answered(p[..|p| - |colls[i].pending|], st)
        decreases |colls[i].pending|
      {
        var c := colls[i];
        colls := colls[i := c.(pending := c.pending[1..])];
        invoked := invoked + [Done(c.pending[0], st)];
        assert p[..|p| - |c.pending| + 1] == p[..|p| - |c.pending|] + [c.pending[0]];
      }
      assert p[..|p|] == p;
    }

    method Finish(g: Group, st: Status)
      modifies this
      ensures State() == Released(old(State()), g, st)
    {
      Serve(g, st);
      Delete(g);
    }

    /** Answer everything queued on the tracker get_tracker hands out. */
    method Serve(g: Group, st: Status)
      modifies this`colls, this`invoked
      ensures State() == Served(old(State()), g, st)
    {
      var r := GetTracker(g, Look);
      if r.Some? { Drain(r.value, st); }
    }

    /** find_delete_tracker: the operation is remembered, and whatever the
        tracker still holds goes with it. */
    method Delete(g: Group)
      modifies this`colls, this`memo, this`lost
      ensures State() == Deleted(old(State()), g)
    {
      Remember(NameOf(g));
      var i := Find(g);
      if i < |colls| {
        lost := lost + colls[i].pending;
        colls := colls[..i] + colls[i + 1..];
      }
    }
  }

  /** Folding and draining change no names. */
  lemma {:induction false} SameIndex(a: seq<Coll>, b: seq<Coll>, g: Group)
    requires |a| == |b| && forall i :: 0 <= i < |a| ==> a[i].id == b[i].id && a[i].op == b[i].op
    ensures Index(a, g) == Index(b, g)
  {
    if a != [] && !Named(a[0], g) { SameIndex(a[1..], b[1..], g); }
  }
}
