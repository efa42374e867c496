/**
 * Page layout of the generated report: the fixed grid a dashboard's
 * worksheets are placed in, the page identifiers and names, and the
 * previous/next navigation buttons.
 */
module Layout {
  import opened Text
  import opened Directives

  /** The 2x2 grid used for three or four worksheets, in reading order. */
  const Quadrants: seq<Rect> := [Rect(50, 150, 300, 200), Rect(370, 150, 300, 200),
                                 Rect(50, 370, 300, 200), Rect(370, 370, 300, 200)]

  /** The slot of the `i`-th of `count` worksheets, for one to four of them. */
  function Slot(count: nat, i: nat): Rect
    requires i < count <= 4
  {
    if count == 1 then Rect(50, 150, 600, 400)
    else if count == 2 then (if i == 0 then Rect(50, 150, 300, 400) else Rect(370, 150, 300, 400))
    else Quadrants[i]
  }

  /** The worksheets `_add_worksheets_to_page` places, each with its slot; beyond four only the first four. */
  function Placements(names: seq<string>): (ps: seq<(string, Rect)>)
    decreases |names|
  {
    if |names| > 4 then Placements(names[..4])
    else seq(|names|, i requires 0 <= i < |names| => (names[i], Slot(|names|, i)))
  }

  /** The placement table, case by case. */
  lemma PlacementsTable(names: seq<string>)
    ensures var ps := Placements(names);
      && |ps| == (if |names| < 4 then |names| else 4)
      && (forall i :: 0 <= i < |ps| ==> ps[i].0 == names[i])
      && (|names| == 1 ==> ps[0].1 == Rect(50, 150, 600, 400))
      && (|names| == 2 ==> ps[0].1 == Rect(50, 150, 300, 400) && ps[1].1 == Rect(370, 150, 300, 400))
      && (3 <= |names| ==> forall i :: 0 <= i < |ps| ==> ps[i].1 == Quadrants[i])
  {
  }

  /** Two rectangles share no interior point. */
  predicate Disjoint(a: Rect, b: Rect)
  {
    a.x + a.width <= b.x || b.x + b.width <= a.x || a.y + a.height <= b.y || b.y + b.height <= a.y
  }

  /** The strip at the bottom of the page where the navigation buttons go. */
  const NavigationBand: Rect := Rect(50, 580, 320, 40)

  /** No two placed worksheets overlap, and none reaches down into the navigation band. */
  lemma PlacementsDoNotOverlap(names: seq<string>)
    ensures var ps := Placements(names);
      && (forall i, j :: 0 <= i < j < |ps| ==> Disjoint(ps[i].1, ps[j].1))
      && (forall i :: 0 <= i < |ps| ==> Disjoint(ps[i].1, NavigationBand))
  {
    PlacementsTable(names);
  }

  /** `int('9')`-style value of a string of decimal digits. */
  function ParseNat(s: string): nat
  {
    if s == [] then 0
    else
      var d := s[|s| - 1] as int - '0' as int;
      10 * ParseNat(s[..|s| - 1]) + (if 0 <= d then d else 0)
  }

  lemma DigitValue(d: nat)
    requires d < 10
    ensures DigitChar(d) as int - '0' as int == d
  {
  }

  /** Reading back the decimal text of `n` gives `n`. */
  lemma {:induction false} ParseNatToString(n: nat)
    ensures ParseNat(NatToString(n)) == n
  {
    var s := NatToString(n);
    if n < 10 {
      DigitValue(n);
      assert s[..0] == [];
    } else {
      ParseNatToString(n / 10);
      DigitValue(n % 10);
      assert s[..|s| - 1] == NatToString(n / 10);
    }
  }

  /** `f"page{n}"`. */
  function PageId(n: nat): string
  {
    "page" + NatToString(n)
  }

  /** Different page numbers give different page ids. */
  lemma PageIdInjective(m: nat, n: nat)
    ensures PageId(m) == PageId(n) <==> m == n
  {
    if PageId(m) == PageId(n) {
      assert NatToString(m) == PageId(m)[4..];
      ParseNatToString(m);
      ParseNatToString(n);
    }
  }

  /** `re.sub(r'[^a-zA-Z0-9]', '', title)[:20]`. */
  function PageName(title: string): string
  {
    Take(KeepAlnum(title), 20)
  }

  /** A page name has at most 20 characters, all ASCII letters or digits, and a title already of that form is kept. */
  lemma PageNameSanitised(title: string)
    ensures |PageName(title)| <= 20
    ensures forall i :: 0 <= i < |PageName(title)| ==> IsAsciiAlnum(PageName(title)[i])
    ensures (|title| <= 20 && forall i :: 0 <= i < |title| ==> IsAsciiAlnum(title[i])) ==> PageName(title) == title
  {
  }

  /** The button on page `n` leading back to page `n - 1`. */
  function PreviousButton(n: nat): Directive
    requires n > 1
  {
    AddButton(PageId(n), "nav_prev_" + NatToString(n), "Previous Page", PageId(n - 1), Rect(50, 580, 150, 40))
  }

  /** The button on page `n` leading on to page `n + 1`. */
  function NextButton(n: nat): Directive
  {
    AddButton(PageId(n), "nav_next_" + NatToString(n), "Next Page", PageId(n + 1), Rect(220, 580, 150, 40))
  }

  /** The navigation buttons of page `n` of `total`, previous first. */
  function NavButtons(n: nat, total: nat): seq<Directive>
  {
    (if n > 1 then [PreviousButton(n)] else []) + (if n < total then [NextButton(n)] else [])
  }

  /**
   * Page `n` of `total` links to exactly its neighbours: to `page{n-1}`
   * when it is not the first and to `page{n+1}` when it is not the last.
   * Every button sits on the page itself and inside the navigation band.
   */
  lemma NavigationLinks(n: nat, total: nat, m: nat)
    requires 1 <= n
    ensures var bs := NavButtons(n, total);
      (exists i :: 0 <= i < |bs| && bs[i].link == PageId(m)) <==> (m == n - 1 && n > 1) || (m == n + 1 && n < total)
    ensures var bs := NavButtons(n, total);
      forall i :: 0 <= i < |bs| ==>
        bs[i].AddButton? && bs[i].pageId == PageId(n) && bs[i].rect.y == 580 && bs[i].rect.x + bs[i].rect.width <= 370
  {
    var bs := NavButtons(n, total);
    PageIdInjective(m, n + 1);
    if n > 1 {
      PageIdInjective(m, n - 1);
    }
    if m == n + 1 && n < total {
      assert bs[|bs| - 1] == NextButton(n);
    }
    if m == n - 1 && n > 1 {
      assert bs[0] == PreviousButton(n);
    }
  }
}
