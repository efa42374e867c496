/**
 * Python's insertion-ordered `dict` with string keys: assigning to a key
 * that is already present replaces its value and keeps its position;
 * assigning to a new key appends it.
 */
module Dicts {

  datatype Dict<V> = Dict(keys: seq<string>, entries: map<string, V>) {

    /** The keys are distinct and are exactly the keys of `entries`. */
    ghost predicate Valid()
    {
      && (forall i, j :: 0 <= i < j < |keys| ==> keys[i] != keys[j])
      && (forall k :: k in entries <==> k in keys)
    }

    /** `d[k] = v`. */
    function Put(k: string, v: V): (d: Dict<V>)
      ensures Valid() ==> d.Valid()
      ensures d.entries == entries[k := v]
      ensures k in entries ==> d.keys == keys
      ensures k !in entries ==> d.keys == keys + [k]
    {
      Dict(if k in entries then keys else keys + [k], entries[k := v])
    }

    /** `list(d.values())`, in insertion order. */
    function Values(): (vs: seq<V>)
      requires Valid()
      ensures |vs| == |keys|
      ensures forall i :: 0 <= i < |keys| ==> vs[i] == entries[keys[i]]
    {
      seq(|keys|, i requires 0 <= i < |keys| => entries[keys[i]])
    }
  }

  function Empty<V>(): (d: Dict<V>)
    ensures d.Valid() && d.keys == [] && d.entries == map[]
  {
    Dict([], map[])
  }

  /** Assigning the same key twice is assigning it once, with the second value. */
  lemma PutTwice<V>(d: Dict<V>, k: string, a: V, b: V)
    ensures d.Put(k, a).Put(k, b) == d.Put(k, b)
  {
  }

  /** The dictionary after assigning the pairs of `es` in order. */
  function PutAll<V>(d: Dict<V>, es: seq<(string, V)>): (r: Dict<V>)
    ensures d.Valid() ==> r.Valid()
  {
    if es == [] then d else PutAll(d, es[..|es| - 1]).Put(es[|es| - 1].0, es[|es| - 1].1)
  }

  /** Assigning one more pair is one more `Put`. */
  lemma PutAllSnoc<V>(d: Dict<V>, es: seq<(string, V)>, e: (string, V))
    ensures PutAll(d, es + [e]) == PutAll(d, es).Put(e.0, e.1)
  {
    assert (es + [e])[..|es|] == es;
  }

  /** Index of the first pair whose key is `k` (|es| when there is none). */
  function FirstWithKey<V>(es: seq<(string, V)>, k: string): (i: nat)
    ensures i <= |es|
    ensures i < |es| ==> es[i].0 == k
    ensures forall j :: 0 <= j < i ==> es[j].0 != k
  {
    if es == [] then 0
    else if es[0].0 == k then 0
    else 1 + FirstWithKey(es[1..], k)
  }

  lemma FirstWithKeyInit<V>(es: seq<(string, V)>, k: string)
    requires es != [] && exists i :: 0 <= i < |es| - 1 && es[i].0 == k
    ensures FirstWithKey(es, k) == FirstWithKey(es[..|es| - 1], k)
  {
    var init := es[..|es| - 1];
    var a := FirstWithKey(es, k);
    var b := FirstWithKey(init, k);
    assert es[b].0 == k by { assert init[b] == es[b]; }
    assert a <= b;
    assert init[a] == es[a];
  }

  /** The keys after assigning pairs into an empty dictionary are those of the pairs. */
  lemma {:induction false} PutAllKeys<V>(es: seq<(string, V)>)
    ensures PutAll(Empty(), es).Valid()
    ensures forall k :: k in PutAll(Empty(), es).entries <==> exists i :: 0 <= i < |es| && es[i].0 == k
  {
    if es != [] {
      var init := es[..|es| - 1];
      PutAllKeys(init);
      forall k ensures k in PutAll(Empty(), es).entries <==> exists i :: 0 <= i < |es| && es[i].0 == k {
        if exists i :: 0 <= i < |es| && es[i].0 == k {
          var i :| 0 <= i < |es| && es[i].0 == k;
          if i < |init| { assert init[i].0 == k; }
        }
      }
    }
  }

  /** Each key holds the value of its LAST pair: a later assignment overwrites an earlier one. */
  lemma {:induction false} PutAllLastWins<V>(d: Dict<V>, es: seq<(string, V)>, i: nat)
    requires i < |es| && forall j :: i < j < |es| ==> es[j].0 != es[i].0
    ensures es[i].0 in PutAll(d, es).entries && PutAll(d, es).entries[es[i].0] == es[i].1
  {
    if i < |es| - 1 {
      PutAllLastWins(d, es[..|es| - 1], i);
    }
  }

  /** Keys stand in the order in which their first pair appears. */
  lemma {:induction false} PutAllOrder<V>(es: seq<(string, V)>)
    ensures var r := PutAll(Empty(), es);
      forall a, b :: 0 <= a < b < |r.keys| ==> FirstWithKey(es, r.keys[a]) < FirstWithKey(es, r.keys[b])
  {
    if es != [] {
      var init := es[..|es| - 1];
      var last := es[|es| - 1];
      assert es == init + [last];
      PutAllOrder(init);
      PutAllKeys(init);
      var prev := PutAll(Empty(), init);
      var r := PutAll(Empty(), es);
      assert r == prev.Put(last.0, last.1);
      forall a, b | 0 <= a < b < |r.keys|
        ensures FirstWithKey(es, r.keys[a]) < FirstWithKey(es, r.keys[b])
      {
        assert r.keys[a] == prev.keys[a];
        FirstBefore(es, r.keys[a]);
        if b < |prev.keys| {
          assert r.keys[b] == prev.keys[b];
          FirstBefore(es, r.keys[b]);
        } else {
          assert r.keys[b] == last.0 && last.0 !in prev.entries;
          assert forall i :: 0 <= i < |init| ==> init[i].0 != last.0;
          FirstAtLast(init, last);
        }
      }
    }
  }

  /** The first pair with key `k` after one more pair is appended. */
  lemma {:induction false} FirstWithKeySnoc<V>(es: seq<(string, V)>, e: (string, V), k: string)
    ensures FirstWithKey(es + [e], k) ==
      if FirstWithKey(es, k) < |es| then FirstWithKey(es, k) else if e.0 == k then |es| else |es| + 1
  {
    if es != [] {
      assert (es + [e])[1..] == es[1..] + [e];
      FirstWithKeySnoc(es[1..], e, k);
    }
  }

  /** A key whose only pair is the last one is first found there. */
  lemma FirstAtLast<V>(init: seq<(string, V)>, e: (string, V))
    requires forall i :: 0 <= i < |init| ==> init[i].0 != e.0
    ensures FirstWithKey(init + [e], e.0) == |init|
  {
    FirstWithKeySnoc(init, e, e.0);
  }

  /** A key with a pair before the last one keeps the first position it had without the last pair. */
  lemma FirstBefore<V>(es: seq<(string, V)>, k: string)
    requires es != [] && k in PutAll(Empty(), es[..|es| - 1]).entries
    ensures FirstWithKey(es, k) == FirstWithKey(es[..|es| - 1], k) < |es| - 1
  {
    PutAllKeys(es[..|es| - 1]);
    FirstWithKeyInit(es, k);
  }
}
