/**
 * What `TableauWorkbookParser.parse_workbook` builds from a workbook
 * document, as functions: the data sources with their columns, the
 * worksheets with their classification, roles and title, the dashboards
 * with the worksheets their zones place, and the zone positions copied
 * onto those worksheets.
 */
module WorkbookModel {
  import opened Wrappers
  import opened Xml
  import opened Dicts
  import opened Sequences
  import opened Entities
  import opened Classifier
  import opened RoleExtraction

  // ---------------------------------------------------------------------------
  // Data sources

  /** A `column` element of a data source, with the caption defaulting to the name and the type to "string". */
  function ParsedColumn(c: Element): (r: Column)
    ensures r.name == Get(c, "name", "")
    ensures "caption" !in c.attrs ==> r.caption == r.name
    ensures "datatype" !in c.attrs ==> r.dataType == "string"
  {
    var name := Get(c, "name", "");
    Column(name, Get(c, "caption", name), Get(c, "datatype", "string"))
  }

  /** The columns recorded for a data source: its named `column` descendants, in order. */
  function ParsedColumns(cols: seq<Element>): (r: seq<Column>)
    ensures |r| <= |cols|
    ensures forall c :: c in r ==> c.name != ""
  {
    if cols == [] then []
    else
      var c := cols[|cols| - 1];
      ParsedColumns(cols[..|cols| - 1]) + (if Get(c, "name", "") != "" then [ParsedColumn(c)] else [])
  }

  /** A `datasource` element, with the caption defaulting to the name. */
  function ParsedDataSource(d: Element): (r: DataSource)
    ensures r.name == Get(d, "name", "")
    ensures "caption" !in d.attrs ==> r.caption == r.name
  {
    var name := Get(d, "name", "");
    DataSource(name, Get(d, "caption", name), ParsedColumns(FindAll(d, "column")))
  }

  /** The `datasources[name] = ...` assignments, in document order; unnamed elements are skipped. */
  function DataSourceEntries(ds: seq<Element>): (es: seq<(string, DataSource)>)
    ensures |es| <= |ds|
    ensures forall e :: e in es ==> e.0 != "" && e.1.name == e.0
  {
    if ds == [] then []
    else
      var d := ds[|ds| - 1];
      DataSourceEntries(ds[..|ds| - 1]) + (if Get(d, "name", "") != "" then [(Get(d, "name", ""), ParsedDataSource(d))] else [])
  }

  // ---------------------------------------------------------------------------
  // Worksheets

  /** `_extract_title`: the caption of the first `title` element when non-empty, else the given name. */
  function ExtractTitle(ws: Element, defaultName: string): (r: string)
    ensures defaultName != "" ==> r != ""
    ensures Find(ws, "title").None? ==> r == defaultName
    ensures Find(ws, "title").Some? && Get(Find(ws, "title").value, "caption", "") != "" ==>
              r == Find(ws, "title").value.attrs["caption"]
    ensures r == defaultName || r == Get(Find(ws, "title").value, "caption", "")
  {
    match Find(ws, "title")
    case None => defaultName
    case Some(t) => if Get(t, "caption", "") != "" then Get(t, "caption", "") else defaultName
  }

  /** The data sources a worksheet depends on, each once, in first-seen order. */
  function UsedDataSources(ws: Element): (r: seq<string>)
    ensures Distinct(r)
    ensures forall n :: n in r <==> n in NamesOf(FindAll(ws, "datasource-dependencies"), "datasource")
  {
    Dedup(NamesOf(FindAll(ws, "datasource-dependencies"), "datasource"))
  }

  /** The entry parsing records for a worksheet, before any zone gives it a position. */
  function ParsedWorksheet(ws: Element, sources: seq<DataSource>): (r: Worksheet)
    ensures r.name == Get(ws, "name", "") && r.position.None?
    ensures r.chartType == DetermineChartType(ws)
    ensures r.columns == ColumnRoles(ws, sources)
  {
    var name := Get(ws, "name", "");
    Worksheet(name, UsedDataSources(ws), DetermineChartType(ws), ColumnRoles(ws, sources), ExtractTitle(ws, name), None)
  }

  /** The `worksheets[name] = ...` assignments, in document order; unnamed elements are skipped. */
  function WorksheetEntries(sheets: seq<Element>, sources: seq<DataSource>): (es: seq<(string, Worksheet)>)
    ensures |es| <= |sheets|
    ensures forall e :: e in es ==> e.0 != "" && e.1.name == e.0 && e.1.position.None?
  {
    if sheets == [] then []
    else
      var w := sheets[|sheets| - 1];
      WorksheetEntries(sheets[..|sheets| - 1], sources)
        + (if Get(w, "name", "") != "" then [(Get(w, "name", ""), ParsedWorksheet(w, sources))] else [])
  }

  // ---------------------------------------------------------------------------
  // Dashboards and zones

  /** The names of `s` that are in `known`, in order. */
  function KnownOnly(s: seq<string>, known: set<string>): (r: seq<string>)
    ensures forall n :: n in r <==> n in s && n in known
  {
    if s == [] then []
    else
      assert forall n :: n in s <==> n in s[..|s| - 1] || n == s[|s| - 1];
      KnownOnly(s[..|s| - 1], known) + (if s[|s| - 1] in known then [s[|s| - 1]] else [])
  }

  /**
   * The worksheets a dashboard's zones place, zone by zone: a named zone
   * naming a known worksheet not yet listed appends it.
   */
  function PlacedSheets(zones: seq<Element>, known: set<string>): (r: seq<string>)
    ensures Distinct(r)
    ensures forall i :: 0 <= i < |r| ==> r[i] != "" && r[i] in known
  {
    if zones == [] then []
    else
      var p := PlacedSheets(zones[..|zones| - 1], known);
      var n := Get(zones[|zones| - 1], "name", "");
      if n != "" && n in known && n !in p then p + [n] else p
  }

  lemma KnownOnlySnoc(s: seq<string>, x: string, known: set<string>)
    ensures KnownOnly(s + [x], known) == KnownOnly(s, known) + (if x in known then [x] else [])
  {
    assert (s + [x])[..|s|] == s;
  }

  /** One more zone adds its worksheet name when it is named, known and not yet listed. */
  lemma PlacedSheetsNext(zones: seq<Element>, i: nat, known: set<string>)
    requires i < |zones|
    ensures var p := PlacedSheets(zones[..i], known);
      var n := Get(zones[i], "name", "");
      PlacedSheets(zones[..i + 1], known) == if n != "" && n in known && n !in p then p + [n] else p
  {
    assert zones[..i + 1][..i] == zones[..i];
  }

  /** The listed worksheets are the zone names, restricted to known worksheets, without repeats. */
  lemma {:induction false} PlacedSheetsIsDedup(zones: seq<Element>, known: set<string>)
    ensures PlacedSheets(zones, known) == Dedup(KnownOnly(NamesOf(zones, "name"), known))
  {
    if zones != [] {
      var i := |zones| - 1;
      var init := zones[..i];
      PlacedSheetsIsDedup(init, known);
      var n := Get(zones[i], "name", "");
      NamesOfNext(zones, i, "name");
      assert zones[..i + 1] == zones;
      var names := NamesOf(init, "name");
      var kept := KnownOnly(names, known);
      if n != "" {
        KnownOnlySnoc(names, n, known);
        if n in known {
          DedupSnoc(kept, n);
        } else {
          assert kept + [] == kept;
        }
      } else {
        assert names + [] == names;
      }
    }
  }

  /** A dashboard lists exactly the known worksheets some zone names. */
  lemma PlacedSheetsMembers(zones: seq<Element>, known: set<string>)
    ensures forall n :: n in PlacedSheets(zones, known) <==>
      n != "" && n in known && exists z :: z in zones && Get(z, "name", "") == n
  {
    PlacedSheetsIsDedup(zones, known);
  }

  /** A zone's rectangle; every coordinate that is missing reads "0". */
  function ZonePosition(z: Element): (p: Position)
    ensures "x" !in z.attrs ==> p.x == "0"
    ensures "y" !in z.attrs ==> p.y == "0"
    ensures "w" !in z.attrs ==> p.width == "0"
    ensures "h" !in z.attrs ==> p.height == "0"
  {
    Position(Get(z, "x", "0"), Get(z, "y", "0"), Get(z, "w", "0"), Get(z, "h", "0"))
  }

  /** The dashboard width and height: those of its first `size` element, "800" by "600" by default. */
  function DashboardSize(db: Element): (r: (string, string))
    ensures Find(db, "size").None? ==> r == ("800", "600")
    ensures Find(db, "size").Some? ==> r == (Get(Find(db, "size").value, "width", "800"), Get(Find(db, "size").value, "height", "600"))
  {
    match Find(db, "size")
    case None => ("800", "600")
    case Some(size) => (Get(size, "width", "800"), Get(size, "height", "600"))
  }

  function ParsedDashboard(db: Element, known: set<string>): (r: Dashboard)
    ensures r.name == Get(db, "name", "")
    ensures "title" !in db.attrs ==> r.title == r.name
  {
    var name := Get(db, "name", "");
    var size := DashboardSize(db);
    Dashboard(name, Get(db, "title", name), size.0, size.1, PlacedSheets(FindAll(db, "zone"), known))
  }

  /** The `dashboards[name] = ...` assignments, in document order; unnamed elements are skipped. */
  function DashboardEntries(dbs: seq<Element>, known: set<string>): (es: seq<(string, Dashboard)>)
    ensures |es| <= |dbs|
    ensures forall e :: e in es ==> e.0 != "" && e.1.name == e.0
    ensures forall e :: e in es ==> Distinct(e.1.worksheets) && forall n :: n in e.1.worksheets ==> n in known
  {
    if dbs == [] then []
    else
      var db := dbs[|dbs| - 1];
      DashboardEntries(dbs[..|dbs| - 1], known)
        + (if Get(db, "name", "") != "" then [(Get(db, "name", ""), ParsedDashboard(db, known))] else [])
  }

  /** The worksheets after one dashboard's zones have recorded their positions. */
  function PlaceZones(w: Dict<Worksheet>, zones: seq<Element>, known: set<string>): (r: Dict<Worksheet>)
    requires known <= w.entries.Keys
    ensures r.keys == w.keys && r.entries.Keys == w.entries.Keys
  {
    if zones == [] then w
    else
      var z := zones[|zones| - 1];
      var prev := PlaceZones(w, zones[..|zones| - 1], known);
      var n := Get(z, "name", "");
      if n != "" && n in known && n !in PlacedSheets(zones[..|zones| - 1], known) then
        prev.Put(n, prev.entries[n].(position := Some(ZonePosition(z))))
      else prev
  }

  /** The worksheets after the zones of every named dashboard, in order, have recorded their positions. */
  function PlaceAll(w: Dict<Worksheet>, dbs: seq<Element>): (r: Dict<Worksheet>)
    ensures r.keys == w.keys && r.entries.Keys == w.entries.Keys
  {
    if dbs == [] then w
    else
      var prev := PlaceAll(w, dbs[..|dbs| - 1]);
      var db := dbs[|dbs| - 1];
      if Get(db, "name", "") != "" then PlaceZones(prev, FindAll(db, "zone"), w.entries.Keys) else prev
  }

  // ---------------------------------------------------------------------------
  // One element at a time

  lemma ParsedColumnsNext(cols: seq<Element>, i: nat)
    requires i < |cols|
    ensures ParsedColumns(cols[..i + 1]) ==
      ParsedColumns(cols[..i]) + (if Get(cols[i], "name", "") != "" then [ParsedColumn(cols[i])] else [])
  {
    assert cols[..i + 1][..i] == cols[..i];
  }

  lemma DataSourceEntriesNext(ds: seq<Element>, i: nat)
    requires i < |ds|
    ensures DataSourceEntries(ds[..i + 1]) ==
      DataSourceEntries(ds[..i]) + (if Get(ds[i], "name", "") != "" then [(Get(ds[i], "name", ""), ParsedDataSource(ds[i]))] else [])
  {
    assert ds[..i + 1][..i] == ds[..i];
  }

  lemma WorksheetEntriesNext(sheets: seq<Element>, i: nat, sources: seq<DataSource>)
    requires i < |sheets|
    ensures WorksheetEntries(sheets[..i + 1], sources) ==
      WorksheetEntries(sheets[..i], sources)
        + (if Get(sheets[i], "name", "") != "" then [(Get(sheets[i], "name", ""), ParsedWorksheet(sheets[i], sources))] else [])
  {
    assert sheets[..i + 1][..i] == sheets[..i];
  }

  lemma DashboardEntriesNext(dbs: seq<Element>, i: nat, known: set<string>)
    requires i < |dbs|
    ensures DashboardEntries(dbs[..i + 1], known) ==
      DashboardEntries(dbs[..i], known)
        + (if Get(dbs[i], "name", "") != "" then [(Get(dbs[i], "name", ""), ParsedDashboard(dbs[i], known))] else [])
  {
    assert dbs[..i + 1][..i] == dbs[..i];
  }

  lemma PlaceAllNext(w: Dict<Worksheet>, dbs: seq<Element>, i: nat)
    requires i < |dbs|
    ensures PlaceAll(w, dbs[..i + 1]) ==
      if Get(dbs[i], "name", "") != "" then PlaceZones(PlaceAll(w, dbs[..i]), FindAll(dbs[i], "zone"), w.entries.Keys)
      else PlaceAll(w, dbs[..i])
  {
    assert dbs[..i + 1][..i] == dbs[..i];
  }

  lemma PlaceZonesNext(w: Dict<Worksheet>, zones: seq<Element>, i: nat, known: set<string>)
    requires i < |zones| && known <= w.entries.Keys
    ensures var prev := PlaceZones(w, zones[..i], known);
      var n := Get(zones[i], "name", "");
      PlaceZones(w, zones[..i + 1], known) ==
        if n != "" && n in known && n !in PlacedSheets(zones[..i], known)
        then prev.Put(n, prev.entries[n].(position := Some(ZonePosition(zones[i]))))
        else prev
  {
    assert zones[..i + 1][..i] == zones[..i];
  }

  // ---------------------------------------------------------------------------
  // Properties

  /** Index of the first zone named `n` (|zones| when there is none). */
  function FirstZoneNamed(zones: seq<Element>, n: string): (i: nat)
    ensures i <= |zones|
    ensures i < |zones| ==> Get(zones[i], "name", "") == n
    ensures forall j :: 0 <= j < i ==> Get(zones[j], "name", "") != n
  {
    if zones == [] then 0
    else
      var init := zones[..|zones| - 1];
      var i := FirstZoneNamed(init, n);
      if i < |init| then i
      else if Get(zones[|zones| - 1], "name", "") == n then |init|
      else |zones|
  }

  /**
   * After a dashboard's zones are read, a worksheet the dashboard lists holds
   * the rectangle of the FIRST zone naming it, everything else about it kept;
   * a worksheet the dashboard does not list is untouched.
   */
  lemma {:induction false} PlaceZonesAt(w: Dict<Worksheet>, zones: seq<Element>, known: set<string>, n: string)
    requires known <= w.entries.Keys && n in w.entries
    ensures n in PlacedSheets(zones, known) ==>
      && FirstZoneNamed(zones, n) < |zones|
      && PlaceZones(w, zones, known).entries[n] == w.entries[n].(position := Some(ZonePosition(zones[FirstZoneNamed(zones, n)])))
    ensures n !in PlacedSheets(zones, known) ==> PlaceZones(w, zones, known).entries[n] == w.entries[n]
  {
    if zones != [] {
      var init := zones[..|zones| - 1];
      var m := Get(zones[|zones| - 1], "name", "");
      PlaceZonesAt(w, init, known, n);
      PlacedSheetsStep(zones, known, n);
      if n != "" && n in known && n !in PlacedSheets(init, known) {
        UnlistedUnnamed(init, known, n);
      }
    }
  }

  /** A known name the zones do not list is the name of none of them. */
  lemma {:induction false} UnlistedUnnamed(zones: seq<Element>, known: set<string>, n: string)
    requires n != "" && n in known && n !in PlacedSheets(zones, known)
    ensures FirstZoneNamed(zones, n) == |zones|
  {
    if zones != [] {
      UnlistedUnnamed(zones[..|zones| - 1], known, n);
    }
  }

  /** How one more zone changes the listed worksheets. */
  lemma PlacedSheetsStep(zones: seq<Element>, known: set<string>, n: string)
    requires zones != []
    ensures var m := Get(zones[|zones| - 1], "name", "");
      n in PlacedSheets(zones, known) <==>
        n in PlacedSheets(zones[..|zones| - 1], known) || (n == m && m != "" && m in known)
  {
  }

  /** A dashboard lists its worksheets in the order their first zone appears. */
  lemma PlacedSheetsOrder(zones: seq<Element>, known: set<string>)
    ensures var r := PlacedSheets(zones, known);
      forall a, b :: 0 <= a < b < |r| ==>
        FirstIndex(NamesOf(zones, "name"), r[a]) < FirstIndex(NamesOf(zones, "name"), r[b])
  {
    var names := NamesOf(zones, "name");
    var kept := KnownOnly(names, known);
    PlacedSheetsIsDedup(zones, known);
    DedupOrder(kept);
    KnownOnlyOrder(names, known);
  }

  /** Filtering keeps the relative order of first appearances. */
  lemma {:induction false} KnownOnlyOrder(s: seq<string>, known: set<string>)
    ensures var k := KnownOnly(s, known);
      forall x, y :: x in k && y in k && FirstIndex(k, x) < FirstIndex(k, y) ==> FirstIndex(s, x) < FirstIndex(s, y)
  {
    if s != [] {
      var init := s[..|s| - 1];
      KnownOnlyOrder(init, known);
      var k := KnownOnly(s, known);
      var ki := KnownOnly(init, known);
      forall x, y | x in k && y in k && FirstIndex(k, x) < FirstIndex(k, y)
        ensures FirstIndex(s, x) < FirstIndex(s, y)
      {
        if y in ki {
          FirstIndexPrefix(ki, k, y);
          assert k[FirstIndex(k, x)] == ki[FirstIndex(k, x)];
          FirstIndexPrefix(ki, k, x);
          FirstIndexInit(s, x);
          FirstIndexInit(s, y);
        } else {
          assert y == s[|s| - 1] && y !in init && k == ki + [y];
          assert FirstIndex(k, x) < |ki|;
          assert k[FirstIndex(k, x)] == ki[FirstIndex(k, x)];
          FirstIndexInit(s, x);
        }
      }
    }
  }
}
