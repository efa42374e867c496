/**
 * `TableauWorkbookParser._determine_chart_type`: the visual kind of a
 * worksheet from the elements beneath it, first signal wins in the order
 * map, pie, line, bar, text table, with a column chart as the default.
 */
module Classifier {
  import opened Wrappers
  import opened Text
  import opened Xml
  import opened Entities

  /** An explicit map element: `map`, `map-layer`, `geocoding`, or any element of class `map`. */
  predicate HasMapElement(ws: Element)
  {
    || Find(ws, "map").Some?
    || Find(ws, "map-layer").Some?
    || Find(ws, "geocoding").Some?
    || AnyDescendantWithAttr(ws, "class", "map")
  }

  predicate IsLocationName(lowered: string)
  {
    ContainsAny(lowered, LocationTerms)
  }

  /** The lowered names of the `column` elements that look geographic, in order. */
  function LocationNames(cols: seq<Element>): (r: seq<string>)
    ensures forall n :: n in r ==> IsLocationName(n)
  {
    if cols == [] then []
    else
      var n := Lower(Get(cols[0], "name", ""));
      (if IsLocationName(n) then [n] else []) + LocationNames(cols[1..])
  }

  /** `col.get('name', '') or col.get('column', '')`. */
  function ReferencedName(c: Element): string
  {
    var n := Get(c, "name", "");
    if n != "" then n else Get(c, "column", "")
  }

  /** The lowered non-empty names referenced by `cols`, in order. */
  function UsedNames(cols: seq<Element>): (r: seq<string>)
    ensures forall n :: n in r ==> n != ""
  {
    if cols == [] then []
    else
      var n := ReferencedName(cols[0]);
      (if n != "" then [Lower(n)] else []) + UsedNames(cols[1..])
  }

  /** The location-column signal as the source computes it: a geographic name that is also used. */
  predicate LocationColumnUsed(ws: Element)
  {
    var locations := LocationNames(FindAll(ws, "column"));
    var used := UsedNames(FindAll(ws, "column") + FindAll(ws, "column-instance"));
    locations != [] && exists l :: l in locations && l in used
  }

  predicate HasEncoding(ws: Element, kind: string)
  {
    FindAllWhere(ws, "encoding", "class", kind) != []
  }

  /** `_determine_chart_type`. */
  function DetermineChartType(ws: Element): ChartType
  {
    if HasMapElement(ws) then Map
    else if LocationColumnUsed(ws) then Map
    else if Find(ws, "piechart").Some? then PieChart
    else if HasEncoding(ws, "line") then LineChart
    else if HasEncoding(ws, "bar") then BarChart
    else if FindAllWhere(ws, "style", "class", "text") != [] then Table
    else ColumnChart
  }

  /** Some `column` beneath the worksheet has a name whose lowered form contains a location term. */
  predicate HasLocationColumn(ws: Element)
  {
    exists c :: c in FindAll(ws, "column") && IsLocationName(Lower(Get(c, "name", "")))
  }

  /** A string containing a non-empty fragment is not empty. */
  lemma LocationNameNonEmpty(n: string)
    requires IsLocationName(n)
    ensures n != ""
  {
    var i :| 0 <= i < |LocationTerms| && IsInfix(LocationTerms[i], n);
    assert |LocationTerms[i]| > 0;
  }

  lemma {:induction false} UsedNamesAppend(a: seq<Element>, b: seq<Element>)
    ensures UsedNames(a + b) == UsedNames(a) + UsedNames(b)
  {
    if a != [] {
      assert (a + b)[1..] == a[1..] + b;
      UsedNamesAppend(a[1..], b);
    } else {
      assert a + b == b;
    }
  }

  /** Every geographic `column` name is among the used names: the second test of the location signal never fails. */
  lemma {:induction false} LocationNamesAreUsed(cols: seq<Element>)
    ensures forall n :: n in LocationNames(cols) ==> n in UsedNames(cols)
  {
    if cols != [] {
      LocationNamesAreUsed(cols[1..]);
      var n := Lower(Get(cols[0], "name", ""));
      if IsLocationName(n) {
        LocationNameNonEmpty(n);
        assert Get(cols[0], "name", "") != "";
        assert UsedNames(cols) == [n] + UsedNames(cols[1..]);
      }
    }
  }

  lemma {:induction false} LocationNamesIff(cols: seq<Element>)
    ensures LocationNames(cols) != [] <==> exists c :: c in cols && IsLocationName(Lower(Get(c, "name", "")))
  {
    if cols != [] {
      LocationNamesIff(cols[1..]);
    }
  }

  /** The source's two-part location test amounts to a geographic `column` name being present. */
  lemma LocationSignalIff(ws: Element)
    ensures LocationColumnUsed(ws) <==> HasLocationColumn(ws)
  {
    var cols := FindAll(ws, "column");
    var instances := FindAll(ws, "column-instance");
    LocationNamesIff(cols);
    LocationNamesAreUsed(cols);
    UsedNamesAppend(cols, instances);
    if HasLocationColumn(ws) {
      var l := LocationNames(cols)[0];
      assert l in LocationNames(cols);
      assert l in UsedNames(cols + instances);
    }
  }

  /**
   * A worksheet is classified as a map exactly when it holds an explicit map
   * element or any `column` whose lowered name contains a location term.
   */
  lemma MapIff(ws: Element)
    ensures DetermineChartType(ws) == Map <==> HasMapElement(ws) || HasLocationColumn(ws)
  {
    LocationSignalIff(ws);
  }

  /** The map signal outranks every other: a worksheet with map and pie elements is a map. */
  lemma MapOutranksPie(ws: Element)
    requires HasMapElement(ws) && Find(ws, "piechart").Some?
    ensures DetermineChartType(ws) == Map
  {
  }

  /**
   * Each kind below map is chosen exactly when its own signal is present and
   * no signal of higher priority is; a column chart when none is present.
   */
  lemma PriorityOrder(ws: Element)
    ensures var mapSignal := HasMapElement(ws) || HasLocationColumn(ws);
      && (DetermineChartType(ws) == PieChart <==> !mapSignal && Find(ws, "piechart").Some?)
      && (DetermineChartType(ws) == LineChart <==>
            !mapSignal && Find(ws, "piechart").None? && HasEncoding(ws, "line"))
      && (DetermineChartType(ws) == BarChart <==>
            !mapSignal && Find(ws, "piechart").None? && !HasEncoding(ws, "line") && HasEncoding(ws, "bar"))
      && (DetermineChartType(ws) == Table <==>
            !mapSignal && Find(ws, "piechart").None? && !HasEncoding(ws, "line") && !HasEncoding(ws, "bar")
            && FindAllWhere(ws, "style", "class", "text") != [])
      && (DetermineChartType(ws) == ColumnChart <==>
            !mapSignal && Find(ws, "piechart").None? && !HasEncoding(ws, "line") && !HasEncoding(ws, "bar")
            && FindAllWhere(ws, "style", "class", "text") == [])
  {
    MapIff(ws);
  }
}
