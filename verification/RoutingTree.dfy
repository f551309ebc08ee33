/** The daemons' routing tree, as the collectives see it: who is living, who
    each living daemon's parent is, and which daemons sit below which. */
module RoutingTree {

  /** `depth` is each node's level; it strictly grows away from the root. */
  datatype Tree = Tree(living: set<nat>, parent: map<nat, nat>, depth: map<nat, nat>)
  {
    /** Every living daemon but the master (rank 0) has one living parent above it. */
    ghost predicate Valid() {
      && 0 in living
      && parent.Keys == living - {0}
      && depth.Keys == living
      && forall x {:trigger parent[x]} :: x in parent ==> parent[x] in living && depth[parent[x]] < depth[x]
    }

    /** `d` is `x` itself or one of its ancestors. */
    predicate Below(x: nat, d: nat)
      requires Valid()
      requires x in living
      decreases depth[x]
    {
      x == d || (x != 0 && Below(parent[x], d))
    }

    /** The living daemons of the subtree headed by `d`. */
    function Sub(d: nat): set<nat>
      requires Valid()
    {
      set x | x in living && Below(x, d)
    }

    function Children(d: nat): set<nat>
      requires Valid()
    {
      set c | c in parent && parent[c] == d
    }

    /** Which child subtree of `d` holds `x`, if any: the child that heads it. */
    function SlotOf(x: nat, d: nat): (r: Option<nat>)
      requires Valid()
      decreases if x in living then depth[x] else 0
      ensures r.Some? ==> r.value in Children(d) && x in living && Below(x, r.value)
      ensures r.None? ==> forall c :: c in Children(d) ==> !(x in living && Below(x, c))
    {
      if x !in parent then None
      else if parent[x] == d then
        (forall c | c in Children(d) && Below(x, c) ensures c == x {
           BelowDepth(x, c);
           if c != x { BelowDepth(d, c); }
         }
         Some(x))
      else
        SlotOf(parent[x], d)
    }

    lemma {:induction false} BelowDepth(x: nat, d: nat)
      requires Valid() && x in living && Below(x, d)
      ensures d in living && depth[d] <= depth[x]
      ensures depth[d] == depth[x] ==> d == x
      decreases depth[x]
    {
      if x != d { BelowDepth(parent[x], d); }
    }

    lemma {:induction false} BelowRoot(x: nat)
      requires Valid() && x in living
      ensures Below(x, 0)
      decreases depth[x]
    {
      if x != 0 { BelowRoot(parent[x]); }
    }

    /** The whole tree is the master's subtree. */
    lemma SubRoot()
      requires Valid()
      ensures Sub(0) == living
    {
      forall x | x in living ensures Below(x, 0) { BelowRoot(x); }
    }

    lemma {:induction false} BelowTrans(x: nat, y: nat, z: nat)
      requires Valid() && x in living && y in living && Below(x, y) && Below(y, z)
      ensures Below(x, z)
      decreases depth[x]
    {
      if x != y { BelowTrans(parent[x], y, z); }
    }

    /** Two siblings' subtrees share no daemon: a contribution has one slot. */
    lemma {:induction false} SiblingsDisjoint(d: nat, c1: nat, c2: nat, x: nat)
      requires Valid() && c1 in Children(d) && c2 in Children(d)
      requires x in living && Below(x, c1) && Below(x, c2)
      ensures c1 == c2
      decreases depth[x]
    {
      if x == c1 {
        if c1 != c2 { BelowDepth(d, c2); }
      } else if x == c2 {
        BelowDepth(d, c1);
      } else {
        SiblingsDisjoint(d, c1, c2, parent[x]);
      }
    }

    /** A subtree is its head plus the child subtrees. */
    lemma {:induction false} SubSplit(d: nat, x: nat) returns (c: nat)
      requires Valid() && x in living && Below(x, d) && x != d
      ensures c in Children(d) && Below(x, c)
      decreases depth[x]
    {
      if parent[x] == d {
        c := x;
      } else {
        c := SubSplit(d, parent[x]);
      }
    }

    lemma ChildBelow(d: nat, c: nat, x: nat)
      requires Valid() && c in Children(d) && x in living && Below(x, c)
      ensures Below(x, d) && x != d
    {
      BelowTrans(x, c, d);
      BelowDepth(x, c);
    }
  }

  datatype Option<+T> = None | Some(value: T)
}
