/**
 * `TableauWorkbookParser._extract_column_roles` as functions: the roles a
 * worksheet's shelves and encodings give its columns, then the keyword
 * enrichment over every data-source column.
 */
module RoleExtraction {
  import opened Wrappers
  import opened Text
  import opened Xml
  import opened Entities

  /** `[c.get(attr, '') for c in cols]` without the empty names, in order. */
  function NamesOf(cols: seq<Element>, attr: string): (r: seq<string>)
    ensures |r| <= |cols|
    ensures forall n :: n in r ==> n != ""
    ensures forall n :: n in r <==> exists c :: c in cols && Get(c, attr, "") == n && n != ""
  {
    if cols == [] then []
    else
      var n := Get(cols[|cols| - 1], attr, "");
      assert forall c :: c in cols <==> c in cols[..|cols| - 1] || c == cols[|cols| - 1];
      NamesOf(cols[..|cols| - 1], attr) + (if n != "" then [n] else [])
  }

  /** One element contributes its name when it has one, and nothing otherwise. */
  lemma NamesOfOne(c: Element, attr: string)
    ensures NamesOf([c], attr) == if Get(c, attr, "") != "" then [Get(c, attr, "")] else []
  {
    assert [c][..0] == [];
  }

  /**
   * Names keep the order of their elements: the names of two runs of
   * elements are those of the first run followed by those of the second.
   */
  lemma {:induction false} NamesOfAppend(a: seq<Element>, b: seq<Element>, attr: string)
    ensures NamesOf(a + b, attr) == NamesOf(a, attr) + NamesOf(b, attr)
    decreases |b|
  {
    if b == [] {
      assert a + b == a;
    } else {
      var last := b[|b| - 1];
      assert (a + b)[..|a + b| - 1] == a + b[..|b| - 1];
      assert (a + b)[|a + b| - 1] == last;
      NamesOfAppend(a, b[..|b| - 1], attr);
    }
  }

  /** `NamesOf` grows by the next element's name, when it has one. */
  lemma NamesOfNext(cols: seq<Element>, i: nat, attr: string)
    requires i < |cols|
    ensures NamesOf(cols[..i + 1], attr) ==
      NamesOf(cols[..i], attr) + (if Get(cols[i], attr, "") != "" then [Get(cols[i], attr, "")] else [])
  {
    assert cols[..i + 1][..i] == cols[..i];
  }

  /** The roles the shelves and encodings give, before enrichment. */
  function ShelfRoles(ws: Element): Roles
  {
    Roles(
      xAxis := NamesOf(FindAllPath(ws, "columns", "column"), "name"),
      yAxis := NamesOf(FindAllPath(ws, "rows", "column"), "name"),
      color := NamesOf(FindAllPathWhere(ws, "encoding", "class", "color", "column"), "name"),
      size := NamesOf(FindAllPathWhere(ws, "encoding", "class", "size", "column"), "name"),
      labels := NamesOf(FindAllPathWhere(ws, "encoding", "class", "text", "column"), "name"),
      filter := NamesOf(FindAllPath(ws, "filter", "column"), "name"))
  }

  /** Every column of every data source, sources in order and columns in order within each. */
  function AllColumns(sources: seq<DataSource>): seq<Column>
  {
    if sources == [] then []
    else AllColumns(sources[..|sources| - 1]) + sources[|sources| - 1].columns
  }

  predicate IsLocationCaption(c: Column)
  {
    ContainsAny(Lower(c.caption), LocationTerms)
  }

  predicate IsMeasureCaption(c: Column)
  {
    ContainsAny(Lower(c.caption), MeasurePatterns)
  }

  /** What the enrichment pass does with one data-source column. */
  function EnrichStep(r: Roles, c: Column): Roles
  {
    var r1 := if IsLocationCaption(c) && c.name !in r.color then r.(color := r.color + [c.name]) else r;
    if IsMeasureCaption(c) && r1.yAxis == [] && c.name !in r1.yAxis then r1.(yAxis := r1.yAxis + [c.name]) else r1
  }

  /** The enrichment pass over `cols`, in order. */
  function Enrich(r: Roles, cols: seq<Column>): Roles
  {
    if cols == [] then r else EnrichStep(Enrich(r, cols[..|cols| - 1]), cols[|cols| - 1])
  }

  /** The roles `_extract_column_roles` leaves on a worksheet, given the parsed data sources. */
  function ColumnRoles(ws: Element, sources: seq<DataSource>): Roles
  {
    Enrich(ShelfRoles(ws), AllColumns(sources))
  }

  /**
   * Enrichment only appends: the axis, size, label and filter lists are
   * untouched and the shelf-derived colour and y-axis lists stay prefixes.
   */
  lemma {:induction false} EnrichOnlyAppends(r: Roles, cols: seq<Column>)
    ensures var e := Enrich(r, cols);
      && e.xAxis == r.xAxis && e.size == r.size && e.labels == r.labels && e.filter == r.filter
      && r.color <= e.color && r.yAxis <= e.yAxis
  {
    if cols != [] {
      EnrichOnlyAppends(r, cols[..|cols| - 1]);
    }
  }

  /**
   * The colour list gains exactly the names of the location-captioned columns
   * it did not already hold, each once.
   */
  lemma {:induction false} EnrichColor(r: Roles, cols: seq<Column>)
    ensures var e := Enrich(r, cols);
      && r.color <= e.color
      && (forall i :: |r.color| <= i < |e.color| ==> e.color[i] !in r.color)
      && (forall i, j :: |r.color| <= i < j < |e.color| ==> e.color[i] != e.color[j])
      && (forall n :: n in e.color <==> n in r.color || exists c :: c in cols && IsLocationCaption(c) && c.name == n)
  {
    if cols != [] {
      var init := cols[..|cols| - 1];
      var c := cols[|cols| - 1];
      EnrichColor(r, init);
      assert forall x :: x in cols <==> x in init || x == c;
    }
  }

  /** Index of the first measure-captioned column, if any. */
  function FirstMeasure(cols: seq<Column>): (k: Option<nat>)
    ensures k.None? ==> forall j :: 0 <= j < |cols| ==> !IsMeasureCaption(cols[j])
    ensures k.Some? ==> k.value < |cols| && IsMeasureCaption(cols[k.value])
    ensures k.Some? ==> forall j :: 0 <= j < k.value ==> !IsMeasureCaption(cols[j])
  {
    if cols == [] then None
    else
      var init := cols[..|cols| - 1];
      match FirstMeasure(init)
      case Some(k) => Some(k)
      case None => if IsMeasureCaption(cols[|cols| - 1]) then Some(|cols| - 1) else None
  }

  /**
   * The y-axis list gains at most one name, and only when it was empty: the
   * name of the first measure-captioned column, if there is one.
   */
  lemma {:induction false} EnrichYAxis(r: Roles, cols: seq<Column>)
    ensures Enrich(r, cols).yAxis ==
      if r.yAxis != [] then r.yAxis
      else match FirstMeasure(cols)
        case None => []
        case Some(k) => [cols[k].name]
  {
    if cols != [] {
      var init := cols[..|cols| - 1];
      EnrichYAxis(r, init);
      match FirstMeasure(init)
      case Some(k) => assert cols[k] == init[k];
      case None =>
    }
  }

  /** Enrichment over one more column is one more step. */
  lemma EnrichNext(r: Roles, done: seq<Column>, cols: seq<Column>, j: nat)
    requires j < |cols|
    ensures Enrich(r, done + cols[..j + 1]) == EnrichStep(Enrich(r, done + cols[..j]), cols[j])
  {
    assert (done + cols[..j + 1])[..|done + cols[..j]|] == done + cols[..j];
  }

  /** `AllColumns` grows by the columns of the next source. */
  lemma AllColumnsNext(sources: seq<DataSource>, i: nat)
    requires i < |sources|
    ensures AllColumns(sources[..i + 1]) == AllColumns(sources[..i]) + sources[i].columns
  {
    assert sources[..i + 1][..i] == sources[..i];
  }
}
