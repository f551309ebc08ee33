/** A snapshot of the allocations PRRTE knows: an array that grows as they are
    read in, where one that vanishes before it answers is taken off again. */
module Snapshot {

  datatype Alloc = Alloc(id: string, nodes: seq<string>)

  const EMPTY := Alloc("", [])

  /** One entry of a query's answer: not an allocation id, or an id whose own
      query answers, finds the allocation gone, or fails. */
  datatype Entry = Other | Answers(id: string, nodes: seq<string>) | Vanished(id: string) | Fails(id: string)

  // ---- what it should hold ----

  function Answered(es: seq<Entry>): seq<Alloc> {
    if es == [] then []
    else
      var rest, last := Answered(es[..|es| - 1]), es[|es| - 1];
      if last.Answers? then rest + [Alloc(last.id, last.nodes)] else rest
  }

  lemma AnsweredNext(es: seq<Entry>, i: nat)
    requires i < |es|
    ensures Answered(es[..i + 1]) ==
            Answered(es[..i]) + if es[i].Answers? then [Alloc(es[i].id, es[i].nodes)] else []
  {
    assert es[..i + 1][..i] == es[..i];
  }

  /** Which entries the allocations listed came from. */
  function Sources(es: seq<Entry>): seq<nat> {
    if es == [] then []
    else Sources(es[..|es| - 1]) + if es[|es| - 1].Answers? then [|es| - 1] else []
  }

  /** The list is the entries that answered, all of them, in order. */
  lemma {:induction false} AnsweredFrom(es: seq<Entry>)
    ensures |Sources(es)| == |Answered(es)|
    ensures forall k :: 0 <= k < |Sources(es)| ==>
              Sources(es)[k] < |es| && es[Sources(es)[k]] == Answers(Answered(es)[k].id, Answered(es)[k].nodes)
    ensures forall j, k :: 0 <= j < k < |Sources(es)| ==> Sources(es)[j] < Sources(es)[k]
  {
    if es != [] { AnsweredFrom(es[..|es| - 1]); }
  }

  lemma {:induction false} AnsweredAll(es: seq<Entry>, i: nat)
    requires i < |es| && es[i].Answers?
    ensures i in Sources(es)
  {
    var rest := es[..|es| - 1];
    if i < |rest| {
      assert rest[i] == es[i];
      AnsweredAll(rest, i);
    }
  }

  function Nodes(allocs: seq<Alloc>): seq<string> {
    if allocs == [] then [] else Nodes(allocs[..|allocs| - 1]) + allocs[|allocs| - 1].nodes
  }

  /** One allocation's nodes after another's. */
  lemma {:induction false} NodesInOrder(a: seq<Alloc>, b: seq<Alloc>)
    ensures Nodes(a + b) == Nodes(a) + Nodes(b)
    ensures forall x :: Nodes([x]) == x.nodes
  {
    forall x ensures Nodes([x]) == x.nodes { assert [x][..0] == []; }
    if b == [] {
      assert a + b == a;
    } else {
      NodesInOrder(a, b[..|b| - 1]);
      assert (a + b)[..|a + b| - 1] == a + b[..|b| - 1];
    }
  }

  /** A list without its repeats, in order of first appearance. */
  function Firsts(s: seq<string>): seq<string> {
    if s == [] then []
    else
      var rest, last := Firsts(s[..|s| - 1]), s[|s| - 1];
      if last in rest then rest else rest + [last]
  }

  lemma {:induction false} FirstsAre(s: seq<string>)
    ensures forall i, j :: 0 <= i < j < |Firsts(s)| ==> Firsts(s)[i] != Firsts(s)[j]
    ensures forall x :: x in Firsts(s) <==> x in s
    ensures |Firsts(s)| <= |s|
  {
    if s != [] {
      FirstsAre(s[..|s| - 1]);
      assert s == s[..|s| - 1] + [s[|s| - 1]];
    }
  }

  /** Where `x` first appears. */
  function First(s: seq<string>, x: string): (i: nat)
    requires x in s
    ensures i < |s| && s[i] == x && forall j :: 0 <= j < i ==> s[j] != x
  {
    if s[0] == x then 0
    else
      assert forall j :: 1 <= j < |s| ==> s[j] == s[1..][j - 1];
      1 + First(s[1..], x)
  }

  lemma {:induction false} FirstsInOrder(s: seq<string>, i: nat, j: nat)
    requires i < j < |Firsts(s)|
    ensures Firsts(s)[i] in s && Firsts(s)[j] in s && First(s, Firsts(s)[i]) < First(s, Firsts(s)[j])
  {
    var rest, u := s[..|s| - 1], Firsts(s[..|s| - 1]);
    FirstsAre(s);
    FirstsAre(rest);
    assert Firsts(s)[i] == u[i];
    if j < |u| { FirstsInOrder(rest, i, j); }
  }

  lemma {:induction false} NodesMember(allocs: seq<Alloc>, x: string)
    ensures x in Nodes(allocs) <==> exists i :: 0 <= i < |allocs| && x in allocs[i].nodes
  {
    if allocs != [] {
      var rest := allocs[..|allocs| - 1];
      NodesMember(rest, x);
      assert forall i :: 0 <= i < |rest| ==> rest[i] == allocs[i];
    }
  }

  class Snap {
    var allocs: array<Alloc>
    var nallocs: nat

    ghost predicate Valid()
      reads this
    {
      nallocs <= allocs.Length
    }

    ghost function Contents(): seq<Alloc>
      requires Valid()
      reads this, allocs
    {
      allocs[..nallocs]
    }

    constructor ()
      ensures Valid() && fresh(allocs) && Contents() == []
    {
      allocs := new Alloc[0];
      nallocs := 0;
    }

    /** snapshot_add_alloc: four slots first, then twice as many each time. */
    method Add(a: Alloc)
      requires Valid()
      modifies this, allocs
      ensures Valid() && (allocs == old(allocs) || fresh(allocs))
      ensures Contents() == old(Contents()) + [a]
    {
      if nallocs == allocs.Length {
        var bigger := new Alloc[if nallocs == 0 then 4 else 2 * nallocs](i => EMPTY);
        for i := 0 to nallocs
          modifies bigger
          invariant bigger[..i] == allocs[..i]
        {
          bigger[i] := allocs[i];
        }
        allocs := bigger;
      }
      allocs[nallocs] := a;
      nallocs := nallocs + 1;
    }

    /** snapshot_remove_last_alloc. */
    method RemoveLast()
      requires Valid()
      modifies this`nallocs
      ensures Valid() && Contents() == if old(Contents()) == [] then [] else old(Contents())[..|old(Contents())| - 1]
    {
      if nallocs == 0 { return; }
      nallocs := nallocs - 1;
      assert allocs[..nallocs] == allocs[..nallocs + 1][..nallocs];
    }

    /** query_snapshot: every id is added, then filled in, taken off again or
        the whole query given up. */
    method Query(es: seq<Entry>) returns (ok: bool)
      requires Valid() && nallocs == 0
      modifies this, allocs
      ensures Valid()
      ensures ok <==> forall i :: 0 <= i < |es| ==> !es[i].Fails?
      ensures Contents() == if ok then Answered(es) else []
    {
      for i := 0 to |es|
        invariant Valid() && (allocs == old(allocs) || fresh(allocs))
        invariant Contents() == Answered(es[..i])
        invariant forall j :: 0 <= j < i ==> !es[j].Fails?
      {
        AnsweredNext(es, i);
        ghost var before := Contents();
        if !es[i].Other? {
          Add(Alloc(es[i].id, if es[i].Answers? then es[i].nodes else []));
          if es[i].Vanished? {
            RemoveLast();
            assert Contents() == (before + [Alloc(es[i].id, [])])[..|before|] == before;
          } else if es[i].Fails? {
            nallocs := 0;
            return false;
          }
        }
      }
      assert es[..|es|] == es;
      ok := true;
    }

    /** snapshot_has_node. */
    method HasNode(x: string) returns (r: bool)
      requires Valid()
      ensures r <==> x in Nodes(Contents())
    {
      NodesMember(Contents(), x);
      for i := 0 to nallocs
        invariant forall k :: 0 <= k < i ==> x !in allocs[k].nodes
      {
        for j := 0 to |allocs[i].nodes|
          invariant forall k :: 0 <= k < j ==> allocs[i].nodes[k] != x
        {
          if allocs[i].nodes[j] == x {
            assert x in Contents()[i].nodes;
            return true;
          }
        }
      }
      r := false;
    }

    /** snapshot_unique_nodes. */
    method UniqueNodes() returns (nodes: seq<string>)
      requires Valid()
      ensures nodes == Firsts(Nodes(Contents()))
    {
      nodes := [];
      ghost var c := Contents();
      for i := 0 to nallocs
        invariant nodes == Firsts(Nodes(c[..i]))
      {
        assert c[..i + 1][..i] == c[..i];
        nodes := AddNew(Nodes(c[..i]), nodes, allocs[i].nodes);
      }
      assert c[..nallocs] == c;
    }

    /** One allocation's nodes, those not seen before. */
    method AddNew(ghost before: seq<string>, seen: seq<string>, more: seq<string>) returns (nodes: seq<string>)
      requires seen == Firsts(before)
      ensures nodes == Firsts(before + more)
    {
      nodes := seen;
      assert before + more[..0] == before;
      for j := 0 to |more|
        invariant nodes == Firsts(before + more[..j])
      {
        ghost var next := before + more[..j + 1];
        assert next[..|next| - 1] == before + more[..j];
        if more[j] !in nodes { nodes := nodes + [more[j]]; }
      }
      assert more[..|more|] == more;
    }
  }

  /** The list of unique nodes repeats nobody, names exactly the nodes of the
      allocations that answered, and lists them in order of first appearance. */
  lemma UniqueNodesAre(es: seq<Entry>)
    ensures var u := Firsts(Nodes(Answered(es)));
            && (forall i, j :: 0 <= i < j < |u| ==> u[i] != u[j])
            && (forall x :: x in u <==> exists i :: 0 <= i < |es| && es[i].Answers? && x in es[i].nodes)
            && (forall i, j :: 0 <= i < j < |u| ==>
                  u[i] in Nodes(Answered(es)) && u[j] in Nodes(Answered(es))
                  && First(Nodes(Answered(es)), u[i]) < First(Nodes(Answered(es)), u[j]))
  {
    var all := Answered(es);
    var src := Sources(es);
    AnsweredFrom(es);
    FirstsAre(Nodes(all));
    forall i, j | 0 <= i < j < |Firsts(Nodes(all))|
      ensures var u := Firsts(Nodes(all));
              u[i] in Nodes(all) && u[j] in Nodes(all) && First(Nodes(all), u[i]) < First(Nodes(all), u[j])
    {
      FirstsInOrder(Nodes(all), i, j);
    }
    forall x ensures x in Nodes(all) <==> exists i :: 0 <= i < |es| && es[i].Answers? && x in es[i].nodes {
      NodesMember(all, x);
      if k :| 0 <= k < |all| && x in all[k].nodes { assert es[src[k]].Answers? && x in es[src[k]].nodes; }
      if i :| 0 <= i < |es| && es[i].Answers? && x in es[i].nodes {
        AnsweredAll(es, i);
        var k :| 0 <= k < |src| && src[k] == i;
        assert x in all[k].nodes;
      }
    }
  }
}
