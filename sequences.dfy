/**
 * Order-preserving de-duplication, the `if x not in lst: lst.append(x)`
 * idiom the parser uses for worksheet data sources and dashboard sheets.
 */
module Sequences {

  predicate Distinct(s: seq<string>)
  {
    forall i, j :: 0 <= i < j < |s| ==> s[i] != s[j]
  }

  /** Index of the first occurrence of `x` in `s` (|s| when absent). */
  function FirstIndex(s: seq<string>, x: string): (i: nat)
    ensures i <= |s|
    ensures i < |s| <==> x in s
    ensures i < |s| ==> s[i] == x
    ensures forall j :: 0 <= j < i ==> s[j] != x
  {
    if s == [] then 0
    else if s[0] == x then 0
    else 1 + FirstIndex(s[1..], x)
  }

  /** Dropping a last element after `x`'s first occurrence leaves that occurrence where it was. */
  lemma FirstIndexInit(s: seq<string>, x: string)
    requires s != [] && x in s[..|s| - 1]
    ensures FirstIndex(s, x) == FirstIndex(s[..|s| - 1], x)
  {
    var init := s[..|s| - 1];
    var a := FirstIndex(s, x);
    var b := FirstIndex(init, x);
    assert s[b] == x by {
      assert init[b] == s[b];
    }
    assert a <= b;
    assert init[a] == s[a];
  }

  /** Extending a sequence leaves the first occurrence of a value it already holds where it was. */
  lemma {:induction false} FirstIndexPrefix(p: seq<string>, s: seq<string>, x: string)
    requires p <= s && x in p
    ensures FirstIndex(s, x) == FirstIndex(p, x)
  {
    if p[0] != x {
      assert p[1..] <= s[1..] && x in p[1..];
      FirstIndexPrefix(p[1..], s[1..], x);
    }
  }

  /** `s` with every repeat dropped, keeping each value at its first appearance. */
  function Dedup(s: seq<string>): (r: seq<string>)
    ensures |r| <= |s|
    ensures Distinct(r)
    ensures forall x :: x in r <==> x in s
  {
    if s == [] then []
    else
      var init := s[..|s| - 1];
      var d := Dedup(init);
      assert forall x :: x in s <==> x in init || x == s[|s| - 1];
      if s[|s| - 1] in d then d else d + [s[|s| - 1]]
  }

  /** Appending a value keeps it only when it is new. */
  lemma DedupSnoc(s: seq<string>, x: string)
    ensures Dedup(s + [x]) == if x in Dedup(s) then Dedup(s) else Dedup(s) + [x]
  {
    assert (s + [x])[..|s|] == s;
  }

  /** The kept values stand in the order of their first appearance in `s`. */
  lemma {:induction false} DedupOrder(s: seq<string>)
    ensures forall a, b :: 0 <= a < b < |Dedup(s)| ==> FirstIndex(s, Dedup(s)[a]) < FirstIndex(s, Dedup(s)[b])
  {
    if s != [] {
      var init := s[..|s| - 1];
      var last := s[|s| - 1];
      DedupOrder(init);
      var prev := Dedup(init);
      var r := Dedup(s);
      forall a, b | 0 <= a < b < |r|
        ensures FirstIndex(s, r[a]) < FirstIndex(s, r[b])
      {
        assert r[a] == prev[a];
        FirstIndexInit(s, r[a]);
        if b < |prev| {
          assert r[b] == prev[b];
          FirstIndexInit(s, r[b]);
        } else {
          assert r[b] == last && last !in init;
          assert FirstIndex(init, r[a]) < |init|;
        }
      }
    }
  }
}
