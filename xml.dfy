/**
 * An already-parsed XML element tree and the ElementPath queries the
 * converter issues against it. `e.findall(".//t")` selects the elements
 * tagged `t` strictly beneath `e`, in document (preorder) order.
 */
module Xml {
  import opened Wrappers

  datatype Element = Element(tag: string, attrs: map<string, string>, children: seq<Element>)

  /** `e.get(name, default)`: the attribute's value, or `default` when absent. */
  function Get(e: Element, name: string, default: string): (r: string)
    ensures name in e.attrs ==> r == e.attrs[name]
    ensures name !in e.attrs ==> r == default
  {
    if name in e.attrs then e.attrs[name] else default
  }

  /** The attribute test of an `[@name='value']` predicate. */
  predicate HasAttr(e: Element, name: string, value: string)
  {
    name in e.attrs && e.attrs[name] == value
  }

  /** `e` followed by everything beneath it, in document order. */
  function Subtree(e: Element): (r: seq<Element>)
    decreases e, 1
    ensures |r| >= 1 && r[0] == e
  {
    [e] + Forest(e.children)
  }

  /** The subtrees of a sequence of siblings, one after the other. */
  function Forest(cs: seq<Element>): (r: seq<Element>)
    decreases cs, 0
    ensures cs == [] ==> r == []
  {
    if cs == [] then [] else Subtree(cs[0]) + Forest(cs[1..])
  }

  /** Every element strictly beneath `e`, in document order (the range of a descendant wildcard search). */
  function Descendants(e: Element): seq<Element>
  {
    Forest(e.children)
  }

  /** The elements of `es` tagged `tag`, in order. */
  function WithTag(es: seq<Element>, tag: string): (r: seq<Element>)
    ensures |r| <= |es|
    ensures forall x :: x in r <==> x in es && x.tag == tag
  {
    if es == [] then []
    else if es[0].tag == tag then [es[0]] + WithTag(es[1..], tag)
    else WithTag(es[1..], tag)
  }

  /** `e.findall(".//tag")`. */
  function FindAll(e: Element, tag: string): (r: seq<Element>)
    ensures forall x :: x in r <==> x in Descendants(e) && x.tag == tag
  {
    WithTag(Descendants(e), tag)
  }

  /** `e.find(".//tag")`: the first element `FindAll` would list. */
  function Find(e: Element, tag: string): (r: Option<Element>)
    ensures r.None? <==> FindAll(e, tag) == []
    ensures r.Some? ==> r.value == FindAll(e, tag)[0] && r.value.tag == tag
  {
    var all := FindAll(e, tag);
    if all == [] then None else Some(all[0])
  }

  /** The elements of `es` that carry attribute `name` with value `value`. */
  function WithAttr(es: seq<Element>, name: string, value: string): (r: seq<Element>)
    ensures |r| <= |es|
    ensures forall x :: x in r <==> x in es && HasAttr(x, name, value)
  {
    if es == [] then []
    else if HasAttr(es[0], name, value) then [es[0]] + WithAttr(es[1..], name, value)
    else WithAttr(es[1..], name, value)
  }

  /** `e.findall(".//tag[@name='value']")`. */
  function FindAllWhere(e: Element, tag: string, name: string, value: string): (r: seq<Element>)
    ensures forall x :: x in r <==> x in FindAll(e, tag) && HasAttr(x, name, value)
  {
    WithAttr(FindAll(e, tag), name, value)
  }

  /** For each element of `outer`, in order, its `.//inner` matches (ElementPath does not deduplicate). */
  function FindAllBeneath(outer: seq<Element>, inner: string): (r: seq<Element>)
    ensures forall x :: x in r ==> x.tag == inner
    ensures outer == [] ==> r == []
  {
    if outer == [] then [] else FindAll(outer[0], inner) + FindAllBeneath(outer[1..], inner)
  }

  /** An element is found beneath `outer` exactly when it is found beneath one of its elements. */
  lemma {:induction false} FindAllBeneathMembers(outer: seq<Element>, inner: string)
    ensures forall x :: x in FindAllBeneath(outer, inner) <==> exists p :: p in outer && x in FindAll(p, inner)
    decreases |outer|
  {
    if outer != [] {
      FindAllBeneathMembers(outer[1..], inner);
      assert forall p :: p in outer <==> p == outer[0] || p in outer[1..];
    }
  }

  /** The matches beneath two runs of outer elements are those of the first run, then those of the second. */
  lemma {:induction false} FindAllBeneathAppend(a: seq<Element>, b: seq<Element>, inner: string)
    ensures FindAllBeneath(a + b, inner) == FindAllBeneath(a, inner) + FindAllBeneath(b, inner)
    decreases |a|
  {
    if a == [] {
      assert a + b == b;
    } else {
      assert (a + b)[1..] == a[1..] + b;
      FindAllBeneathAppend(a[1..], b, inner);
    }
  }

  /** The matches beneath one outer element stand between those beneath the elements before and after it. */
  lemma FindAllBeneathSplit(before: seq<Element>, p: Element, after: seq<Element>, inner: string)
    ensures FindAllBeneath(before + [p] + after, inner) ==
      FindAllBeneath(before, inner) + FindAll(p, inner) + FindAllBeneath(after, inner)
  {
    FindAllBeneathAppend(before + [p], after, inner);
    FindAllBeneathAppend(before, [p], inner);
    assert FindAllBeneath([p], inner) == FindAll(p, inner) + FindAllBeneath([], inner);
  }

  /** `e.findall(".//outer//inner")`. */
  function FindAllPath(e: Element, outer: string, inner: string): (r: seq<Element>)
    ensures forall x :: x in r ==> x.tag == inner
    ensures forall x :: x in r <==> exists p :: p in FindAll(e, outer) && x in FindAll(p, inner)
  {
    FindAllBeneathMembers(FindAll(e, outer), inner);
    FindAllBeneath(FindAll(e, outer), inner)
  }

  /**
   * `.//outer//inner` keeps document order outer match by outer match: the
   * `inner` elements beneath an `outer` match come after those beneath
   * every earlier match and before those beneath every later one.
   */
  lemma FindAllPathOrder(e: Element, outer: string, inner: string, before: seq<Element>, p: Element, after: seq<Element>)
    requires FindAll(e, outer) == before + [p] + after
    ensures FindAllPath(e, outer, inner) ==
      FindAllBeneath(before, inner) + FindAll(p, inner) + FindAllBeneath(after, inner)
  {
    FindAllBeneathSplit(before, p, after, inner);
  }

  /** `e.findall(".//outer[@name='value']//inner")`. */
  function FindAllPathWhere(e: Element, outer: string, name: string, value: string, inner: string): (r: seq<Element>)
    ensures forall x :: x in r ==> x.tag == inner
    ensures forall x :: x in r <==> exists p :: p in FindAllWhere(e, outer, name, value) && x in FindAll(p, inner)
  {
    FindAllBeneathMembers(FindAllWhere(e, outer, name, value), inner);
    FindAllBeneath(FindAllWhere(e, outer, name, value), inner)
  }

  /** The same order for a filtered outer step. */
  lemma FindAllPathWhereOrder(e: Element, outer: string, name: string, value: string, inner: string,
                              before: seq<Element>, p: Element, after: seq<Element>)
    requires FindAllWhere(e, outer, name, value) == before + [p] + after
    ensures FindAllPathWhere(e, outer, name, value, inner) ==
      FindAllBeneath(before, inner) + FindAll(p, inner) + FindAllBeneath(after, inner)
  {
    FindAllBeneathSplit(before, p, after, inner);
  }

  /** A wildcard-tag search with the test `[@name='value']` finds some element beneath `e`. */
  predicate AnyDescendantWithAttr(e: Element, name: string, value: string)
  {
    WithAttr(Descendants(e), name, value) != []
  }
}
