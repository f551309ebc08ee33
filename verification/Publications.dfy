/** Published data: one flat list, appended to, searched and unlinked, that must
    behave as a queue for each key. */
module Publications {
  import opened Fence

  /** Keys are stored, and compared, in their first 511 characters. */
  const KEY_MAX: nat := 511

  function Trunc(key: string): string { if |key| <= KEY_MAX then key else key[..KEY_MAX] }

  datatype Info = Info(key: string, value: Blob)
  datatype Pub = Pub(proc: Proc, key: string, value: Blob)

  datatype Op =
    | Publish(proc: Proc, infos: seq<Info>)
    | Lookup(keys: seq<string>)
    | Unpublish(keys: seq<string>)

  /** A stored key is already short; the one asked for is compared as if it were. */
  predicate Matches(key: string, p: Pub) { p.key == Trunc(key) }

  // ---- the list ----

  function Entered(proc: Proc, infos: seq<Info>): (ps: seq<Pub>)
    ensures |ps| == |infos| && forall i :: 0 <= i < |ps| ==> ps[i] == Pub(proc, Trunc(infos[i].key), infos[i].value)
  {
    seq(|infos|, i requires 0 <= i < |infos| => Pub(proc, Trunc(infos[i].key), infos[i].value))
  }

  function First(pubs: seq<Pub>, key: string): (i: nat)
    ensures i <= |pubs|
    ensures i < |pubs| ==> Matches(key, pubs[i])
    ensures forall j :: 0 <= j < i ==> !Matches(key, pubs[j])
  {
    if pubs == [] || Matches(key, pubs[0]) then 0
    else
      var i := 1 + First(pubs[1..], key);
      assert forall j :: 1 <= j < |pubs| ==> pubs[j] == pubs[1..][j - 1];
      i
  }

  function Unlinked(pubs: seq<Pub>, key: string): seq<Pub> {
    var i := First(pubs, key);
    if i < |pubs| then pubs[..i] + pubs[i + 1..] else pubs
  }

  function UnlinkedAll(pubs: seq<Pub>, keys: seq<string>): seq<Pub> {
    if keys == [] then pubs else Unlinked(UnlinkedAll(pubs, keys[..|keys| - 1]), keys[|keys| - 1])
  }

  function Found(pubs: seq<Pub>, keys: seq<string>): seq<Pub> {
    if keys == [] then []
    else
      var rest, i := Found(pubs, keys[..|keys| - 1]), First(pubs, keys[|keys| - 1]);
      if i < |pubs| then rest + [pubs[i]] else rest
  }

  class Store {
    var pubdata: seq<Pub>

    constructor ()
      ensures pubdata == []
    {
      pubdata := [];
    }

    method Find(key: string) returns (i: nat)
      ensures i == First(pubdata, key)
    {
      i := 0;
      while i < |pubdata|
        invariant i <= |pubdata|
        invariant First(pubdata, key) == i + First(pubdata[i..], key)
      {
        if pubdata[i].key == Trunc(key) { return; }
        assert pubdata[i..][1..] == pubdata[i + 1..];
        i := i + 1;
      }
    }

    /** publish_fn. */
    method PublishAll(proc: Proc, infos: seq<Info>)
      modifies this
      ensures pubdata == old(pubdata) + Entered(proc, infos)
    {
      for n := 0 to |infos|
        invariant pubdata == old(pubdata) + Entered(proc, infos[..n])
      {
        pubdata := pubdata + [Pub(proc, Trunc(infos[n].key), infos[n].value)];
        assert Entered(proc, infos[..n + 1])
            == Entered(proc, infos[..n]) + [Pub(proc, Trunc(infos[n].key), infos[n].value)];
      }
      assert infos[..|infos|] == infos;
    }

    /** lookup_fn. */
    method LookupAll(keys: seq<string>) returns (found: bool, results: seq<Pub>)
      ensures results == Found(pubdata, keys)
      ensures found <==> results != []
    {
      results := [];
      for n := 0 to |keys|
        invariant results == Found(pubdata, keys[..n])
      {
        var i := Find(keys[n]);
        assert keys[..n + 1][..n] == keys[..n];
        if i < |pubdata| { results := results + [pubdata[i]]; }
      }
      assert keys[..|keys|] == keys;
      found := |results| > 0;
    }

    /** unpublish_fn. */
    method UnpublishAll(keys: seq<string>)
      modifies this
      ensures pubdata == UnlinkedAll(old(pubdata), keys)
    {
      for n := 0 to |keys|
        invariant pubdata == UnlinkedAll(old(pubdata), keys[..n])
      {
        var i := Find(keys[n]);
        assert keys[..n + 1][..n] == keys[..n];
        if i < |pubdata| { pubdata := pubdata[..i] + pubdata[i + 1..]; }
      }
      assert keys[..|keys|] == keys;
    }
  }

  // ---- the queue of one key ----

  function Queue(pubs: seq<Pub>, key: string): seq<Pub> {
    if pubs == [] then []
    else Alone(pubs[0], key) + Queue(pubs[1..], key)
  }

  function Alone(p: Pub, key: string): seq<Pub> { if Matches(key, p) then [p] else [] }

  /** How often `key` is asked for. */
  function Asked(keys: seq<string>, key: string): nat {
    if keys == [] then 0 else Asked(keys[..|keys| - 1], key) + if Trunc(keys[|keys| - 1]) == Trunc(key) then 1 else 0
  }

  function Popped(q: seq<Pub>, n: nat): seq<Pub> { if n <= |q| then q[n..] else [] }

  /** The reference: one key's queue on its own, operation by operation. */
  function QueueAfter(ops: seq<Op>, key: string): seq<Pub> {
    if ops == [] then []
    else
      var q := QueueAfter(ops[..|ops| - 1], key);
      match ops[|ops| - 1]
      case Publish(proc, infos) => q + Queue(Entered(proc, infos), key)
      case Lookup(_) => q
      case Unpublish(keys) => Popped(q, Asked(keys, key))
  }

  function ListAfter(ops: seq<Op>): seq<Pub> {
    if ops == [] then []
    else
      var pubs := ListAfter(ops[..|ops| - 1]);
      match ops[|ops| - 1]
      case Publish(proc, infos) => pubs + Entered(proc, infos)
      case Lookup(_) => pubs
      case Unpublish(keys) => UnlinkedAll(pubs, keys)
  }

  /** What a lookup should answer: the oldest entry of each key, in request order. */
  function Oldest(ops: seq<Op>, keys: seq<string>): seq<Pub> {
    if keys == [] then []
    else
      var q := QueueAfter(ops, keys[|keys| - 1]);
      Oldest(ops, keys[..|keys| - 1]) + if q == [] then [] else q[..1]
  }

  lemma {:induction false} QueueConcat(a: seq<Pub>, b: seq<Pub>, key: string)
    ensures Queue(a + b, key) == Queue(a, key) + Queue(b, key)
  {
    if a == [] {
      assert a + b == b;
    } else {
      QueueConcat(a[1..], b, key);
      assert (a + b)[1..] == a[1..] + b;
      Regroup(Alone(a[0], key), Queue(a[1..], key), Queue(b, key));
    }
  }

  lemma Regroup(a: seq<Pub>, b: seq<Pub>, c: seq<Pub>)
    ensures a + b + c == a + (b + c)
  {
  }

  /** The first match in the list is the head of the key's queue. */
  lemma {:induction false} FirstIsHead(pubs: seq<Pub>, key: string)
    ensures First(pubs, key) == |pubs| <==> Queue(pubs, key) == []
    ensures First(pubs, key) < |pubs| ==> Queue(pubs, key)[..1] == [pubs[First(pubs, key)]]
  {
    if pubs != [] && !Matches(key, pubs[0]) {
      FirstIsHead(pubs[1..], key);
      assert Queue(pubs, key) == Queue(pubs[1..], key);
    }
  }

  /** Unlinking past an entry that does not match leaves it in front. */
  lemma UnlinkLater(pubs: seq<Pub>, k: string)
    requires pubs != [] && !Matches(k, pubs[0])
    ensures Unlinked(pubs, k) == [pubs[0]] + Unlinked(pubs[1..], k)
  {
  }

  /** Unlinking pops one key's queue and leaves the others. */
  lemma {:induction false} UnlinkPops(pubs: seq<Pub>, k: string, key: string)
    ensures Queue(Unlinked(pubs, k), key) == Popped(Queue(pubs, key), if Trunc(k) == Trunc(key) then 1 else 0)
  {
    if pubs != [] {
      if Matches(k, pubs[0]) {
        assert Unlinked(pubs, k) == pubs[1..];
      } else {
        UnlinkLater(pubs, k);
        UnlinkPops(pubs[1..], k, key);
        var rest := Unlinked(pubs[1..], k);
        assert ([pubs[0]] + rest)[1..] == rest;
      }
    }
  }

  lemma {:induction false} UnlinkAllPops(pubs: seq<Pub>, keys: seq<string>, key: string)
    ensures Queue(UnlinkedAll(pubs, keys), key) == Popped(Queue(pubs, key), Asked(keys, key))
  {
    if keys != [] {
      UnlinkAllPops(pubs, keys[..|keys| - 1], key);
      UnlinkPops(UnlinkedAll(pubs, keys[..|keys| - 1]), keys[|keys| - 1], key);
    }
  }

  /** Over every run of operations the flat list holds, for every key, exactly
      the queue the reference holds. */
  lemma {:induction false} ListIsQueues(ops: seq<Op>, key: string)
    ensures Queue(ListAfter(ops), key) == QueueAfter(ops, key)
  {
    if ops != [] {
      var rest := ops[..|ops| - 1];
      ListIsQueues(rest, key);
      match ops[|ops| - 1]
      case Publish(proc, infos) => QueueConcat(ListAfter(rest), Entered(proc, infos), key);
      case Lookup(_) =>
      case Unpublish(keys) => UnlinkAllPops(ListAfter(rest), keys, key);
    }
  }

  /** A lookup answers the oldest live entry of each requested key, in request order. */
  lemma {:induction false} LookupIsOldest(ops: seq<Op>, keys: seq<string>)
    ensures Found(ListAfter(ops), keys) == Oldest(ops, keys)
  {
    if keys != [] {
      LookupIsOldest(ops, keys[..|keys| - 1]);
      HeadIsFirst(ops, keys[|keys| - 1]);
    }
  }

  /** ... and "not found" exactly when every one of those queues is empty. */
  lemma {:induction false} NotFoundIffEmpty(ops: seq<Op>, keys: seq<string>)
    ensures Found(ListAfter(ops), keys) == [] <==> forall i :: 0 <= i < |keys| ==> QueueAfter(ops, keys[i]) == []
  {
    if keys != [] {
      var rest := keys[..|keys| - 1];
      NotFoundIffEmpty(ops, rest);
      HeadIsFirst(ops, keys[|keys| - 1]);
      assert forall i :: 0 <= i < |rest| ==> rest[i] == keys[i];
    }
  }

  lemma HeadIsFirst(ops: seq<Op>, key: string)
    ensures First(ListAfter(ops), key) == |ListAfter(ops)| <==> QueueAfter(ops, key) == []
    ensures QueueAfter(ops, key) != [] ==> QueueAfter(ops, key)[..1] == [ListAfter(ops)[First(ListAfter(ops), key)]]
  {
    ListIsQueues(ops, key);
    FirstIsHead(ListAfter(ops), key);
  }

  /** Two keys name the same entries if and only if they are the same or agree in
      their first 511 characters. */
  lemma KeysMeet(a: string, b: string)
    ensures (forall p :: Matches(a, p) <==> Matches(b, p))
       <==> a == b || (|a| >= KEY_MAX && |b| >= KEY_MAX && a[..KEY_MAX] == b[..KEY_MAX])
  {
    var p := Pub(Proc("", Invalid), Trunc(a), []);
    assert Matches(a, p);
    if |a| == KEY_MAX { assert a[..KEY_MAX] == a; }
    if |b| == KEY_MAX { assert b[..KEY_MAX] == b; }
  }
}
