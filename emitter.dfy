/**
 * What `PowerBIConverter` asks the Power BI library to build, as functions
 * of the parsed workbook, the data files and the oracles: the data source a
 * worksheet is drawn from, the visual tried for it and its fallbacks, and
 * the pages of the report with their navigation.
 */
module Emitter {
  import opened Wrappers
  import opened Text
  import opened Dicts
  import opened Entities
  import opened ColumnNames
  import Classifier
  import DataFiles
  import opened Directives
  import opened Layout
  import opened Axes

  /** Everything a conversion run depends on. */
  datatype Env = Env(
    outputDir: string,
    reportName: string,
    dataFiles: Dict<string>,
    worksheets: Dict<Worksheet>,
    dashboards: Dict<Dashboard>,
    mapping: map<string, string>,
    tables: map<string, Frame>,
    shapeFileAvailable: bool,
    failing: set<Directive>)
  {
    ghost predicate Valid()
    {
      dataFiles.Valid() && worksheets.Valid() && dashboards.Valid()
    }
  }

  // ---------------------------------------------------------------------
  // The data source of a worksheet

  /** The data-file key a worksheet draws from, or the lack of any data file. */
  datatype Resolution = Resolved(source: string) | NoDataFiles

  function LowerAll(keys: seq<string>): (r: seq<string>)
    ensures |r| == |keys|
    ensures forall i :: 0 <= i < |keys| ==> r[i] == Lower(keys[i])
  {
    seq(|keys|, i requires 0 <= i < |keys| => Lower(keys[i]))
  }

  /** `datasource.split('.')[-1].lower()`. */
  function ShortName(declared: string): string
  {
    Lower(LastSegment(declared, '.'))
  }

  /**
   * The source of a worksheet whose first declared data source is
   * `declared`: the mapped key; else the first lowered key that contains
   * the short name or is contained in it; else the first key.
   */
  function ResolveSource(declared: string, mapping: map<string, string>, keys: seq<string>): Resolution
  {
    if declared in mapping then Resolved(mapping[declared])
    else match DataFiles.FirstOverlapping(LowerAll(keys), ShortName(declared))
      case Some(k) => Resolved(k)
      case None => if keys != [] then Resolved(keys[0]) else NoDataFiles
  }

  /** The overlap search returns the first overlapping key. */
  lemma {:induction false} FirstOverlappingIsFirst(keys: seq<string>, stem: string)
    ensures var r := DataFiles.FirstOverlapping(keys, stem);
      r.Some? ==>
        exists i :: 0 <= i < |keys| && keys[i] == r.value && forall j :: 0 <= j < i ==> !DataFiles.Overlaps(keys[j], stem)
  {
    if keys != [] && !DataFiles.Overlaps(keys[0], stem) {
      FirstOverlappingIsFirst(keys[1..], stem);
      var r := DataFiles.FirstOverlapping(keys, stem);
      if r.Some? {
        var i :| 0 <= i < |keys[1..]| && keys[1..][i] == r.value
          && forall j :: 0 <= j < i ==> !DataFiles.Overlaps(keys[1..][j], stem);
        assert keys[i + 1] == r.value;
        assert forall j :: 1 <= j < i + 1 ==> keys[j] == keys[1..][j - 1];
      }
    } else if keys != [] {
      assert keys[0] == DataFiles.FirstOverlapping(keys, stem).value;
    }
  }

  /**
   * The resolution order: the mapping; then the first key whose lowered
   * form overlaps the short name (either containing it or contained in
   * it); then the first key; and no source at all exactly when the
   * declared source is unmapped and there is no data file.
   */
  lemma ResolutionOrder(declared: string, mapping: map<string, string>, keys: seq<string>)
    ensures var r := ResolveSource(declared, mapping, keys);
      var short := ShortName(declared);
      && (declared in mapping ==> r == Resolved(mapping[declared]))
      && (declared !in mapping && (exists i :: 0 <= i < |keys| && DataFiles.Overlaps(Lower(keys[i]), short)) ==>
            exists i :: 0 <= i < |keys| && r == Resolved(Lower(keys[i])) && DataFiles.Overlaps(Lower(keys[i]), short)
              && forall j :: 0 <= j < i ==> !DataFiles.Overlaps(Lower(keys[j]), short))
      && (declared !in mapping && keys != [] && (forall i :: 0 <= i < |keys| ==> !DataFiles.Overlaps(Lower(keys[i]), short)) ==>
            r == Resolved(keys[0]))
      && (r == NoDataFiles <==> declared !in mapping && keys == [])
  {
    var short := ShortName(declared);
    var lowered := LowerAll(keys);
    FirstOverlappingIsFirst(lowered, short);
    if declared !in mapping && exists i :: 0 <= i < |keys| && DataFiles.Overlaps(Lower(keys[i]), short) {
      var i :| 0 <= i < |keys| && DataFiles.Overlaps(Lower(keys[i]), short);
      assert lowered[i] in lowered;
    }
  }

  // ---------------------------------------------------------------------
  // The location column of a map

  /** `[_clean_column_name(c) for c in cols]`. */
  function CleanAll(cols: seq<string>): (r: seq<string>)
    ensures |r| == |cols|
    ensures forall i :: 0 <= i < |cols| ==> r[i] == CleanColumnName(cols[i])
  {
    seq(|cols|, i requires 0 <= i < |cols| => CleanColumnName(cols[i]))
  }

  /** A cleaned column name whose lowered form contains a location term. */
  predicate IsPlace(name: string)
  {
    Classifier.IsLocationName(Lower(name))
  }

  /** The first name of `names` that names a place. */
  function FirstPlace(names: seq<string>): Option<string>
  {
    if names == [] then None
    else if IsPlace(names[0]) then Some(names[0])
    else FirstPlace(names[1..])
  }

  /**
   * The location column of a map: the first cleaned colour column naming a
   * place, else the first such among the x, y and label columns.
   */
  function LocationColumn(roles: Roles): Option<string>
  {
    OrElse(FirstPlace(CleanAll(roles.color)), FirstPlace(CleanAll(roles.xAxis + roles.yAxis + roles.labels)))
  }

  lemma {:induction false} FirstPlaceMeaning(names: seq<string>)
    ensures FirstPlace(names).None? <==> forall i :: 0 <= i < |names| ==> !IsPlace(names[i])
    ensures FirstPlace(names).Some? ==>
      exists i :: 0 <= i < |names| && FirstPlace(names).value == names[i] && IsPlace(names[i]) &&
        forall j :: 0 <= j < i ==> !IsPlace(names[j])
  {
    if names != [] && !IsPlace(names[0]) {
      var rest := names[1..];
      FirstPlaceMeaning(rest);
      assert forall i :: 1 <= i < |names| ==> names[i] == rest[i - 1];
      if FirstPlace(rest).Some? {
        var i :| 0 <= i < |rest| && FirstPlace(rest).value == rest[i] && IsPlace(rest[i]) &&
          forall j :: 0 <= j < i ==> !IsPlace(rest[j]);
        assert names[i + 1] == rest[i];
      }
    }
  }

  lemma CleanAllAppend(a: seq<string>, b: seq<string>)
    ensures CleanAll(a + b) == CleanAll(a) + CleanAll(b)
  {
    var l := CleanAll(a + b);
    var r := CleanAll(a) + CleanAll(b);
    forall i | 0 <= i < |l| ensures l[i] == r[i] {
      if i < |a| {
        assert (a + b)[i] == a[i];
      } else {
        assert (a + b)[i] == b[i - |a|];
      }
    }
  }

  /** The first place of `x`, else the first place of `y`, is the first place of `x + y`. */
  lemma FirstPlaceOfEither(x: seq<string>, y: seq<string>)
    ensures var r := OrElse(FirstPlace(x), FirstPlace(y));
      && (r.Some? ==> IsPlace(r.value) && r.value in x + y)
      && ((exists i :: 0 <= i < |x| && IsPlace(x[i])) ==> r == FirstPlace(x))
      && (r.None? <==> forall i :: 0 <= i < |x + y| ==> !IsPlace((x + y)[i]))
  {
    FirstPlaceMeaning(x);
    FirstPlaceMeaning(y);
    var r := OrElse(FirstPlace(x), FirstPlace(y));
    if r.Some? {
      var z := if FirstPlace(x).Some? then x else y;
      var i :| 0 <= i < |z| && r.value == z[i];
      assert z[i] in z;
    } else {
      forall i | 0 <= i < |x + y| ensures !IsPlace((x + y)[i]) {
        if i >= |x| {
          assert (x + y)[i] == y[i - |x|];
        }
      }
    }
  }

  /**
   * The location column is the cleaned name of a colour, x, y or label
   * column and names a place; it comes from the colour list whenever some
   * colour column names one; and there is none exactly when no colour, x,
   * y or label column does.
   */
  lemma LocationColumnMeaning(roles: Roles)
    ensures var all := CleanAll(roles.color + roles.xAxis + roles.yAxis + roles.labels);
      var loc := LocationColumn(roles);
      && (loc.Some? ==> IsPlace(loc.value) && loc.value in all)
      && ((exists i :: 0 <= i < |roles.color| && IsPlace(CleanAll(roles.color)[i])) ==>
            loc == FirstPlace(CleanAll(roles.color)))
      && (loc.None? <==> forall i :: 0 <= i < |all| ==> !IsPlace(all[i]))
  {
    var rest := roles.xAxis + roles.yAxis + roles.labels;
    assert roles.color + roles.xAxis + roles.yAxis + roles.labels == roles.color + rest;
    CleanAllAppend(roles.color, rest);
    FirstPlaceOfEither(CleanAll(roles.color), CleanAll(rest));
  }

  // ---------------------------------------------------------------------
  // The visual of a worksheet

  /** `ws_name.replace(' ', '_')[:10]`. */
  function ChartId(wsName: string): string
  {
    Take(ReplaceChar(wsName, ' ', '_'), 10)
  }

  function TextBoxId(wsName: string): string
  {
    TextPrefix + ReplaceChar(wsName, ' ', '_')
  }

  const TextPrefix: string := "text_"
  const VisualLabel: string := "Visualization: "
  const TypeLabel: string := "\nType: "
  const NoSourceNote: string := "\nNo matching data source found"
  const ManualNote: string := "\n\nThis visualization could not be automatically converted. Please create it manually."

  /** The placeholder text box `_add_fallback_viz` adds when a visual cannot be built. */
  function Fallback(wsName: string, kind: string, pageId: string, rect: Rect): Directive
  {
    AddTextBox(pageId, TextBoxId(wsName),
      VisualLabel + wsName + TypeLabel + kind
        + ManualNote,
      rect, 14)
  }

  /** The text box added instead of a visual when there is no data file at all. */
  function NoSourceBox(wsName: string, ws: Worksheet, pageId: string, rect: Rect): Directive
  {
    AddTextBox(pageId, TextBoxId(wsName),
      VisualLabel + ws.title + TypeLabel + ws.chartType.Name() + NoSourceNote,
      rect, 14)
  }

  /** `_add_column_chart`: the column chart, then its placeholder. */
  function ColumnChartCandidates(wsName: string, pageId: string, source: string, title: string,
                                 x: string, y: string, rect: Rect): seq<Directive>
  {
    [AddChart(pageId, ChartId(wsName), ColumnChart, source, title, Some(x), Some(y), x, y, rect),
     Fallback(wsName, "columnChart", pageId, rect)]
  }

  /**
   * The calls tried for a worksheet's visual, in order, each after the
   * previous one raised; `location` is what the map's location search
   * found.
   */
  function VisualCandidates(wsName: string, ws: Worksheet, pageId: string, source: string,
                            x: string, y: string, location: Option<string>, rect: Rect,
                            shapeFileAvailable: bool): seq<Directive>
  {
    var id := ChartId(wsName);
    var fallback := Fallback(wsName, ws.chartType.Name(), pageId, rect);
    match ws.chartType
    case Map =>
      (match location
       case Some(loc) => [AddMap(pageId, id, source, ws.title, loc, y, rect), fallback]
       case None =>
         (if shapeFileAvailable then [AddShapeMap(pageId, id, source, ws.title, x, y, rect)] else [])
           + ColumnChartCandidates(wsName, pageId, source, ws.title, x, y, rect))
    case PieChart => [AddChart(pageId, id, PieChart, source, ws.title, None, None, x, y, rect), fallback]
    case LineChart => [AddChart(pageId, id, LineChart, source, ws.title, Some(x), Some(y), x, y, rect), fallback]
    case BarChart => [AddChart(pageId, id, BarChart, source, ws.title, Some(y), Some(x), x, y, rect), fallback]
    case Table => [AddTable(pageId, id, source, ws.title, rect), fallback]
    case ColumnChart => ColumnChartCandidates(wsName, pageId, source, ws.title, x, y, rect)
  }

  /** The placeholder text box of worksheet `wsName`. */
  predicate IsPlaceholder(d: Directive, wsName: string)
  {
    d.AddTextBox? && d.textBoxId == TextBoxId(wsName)
  }

  /** A directive that draws on page `pageId` at `rect`. */
  predicate PlacedAt(d: Directive, pageId: string, rect: Rect)
  {
    match d
    case AddChart(p, _, _, _, _, _, _, _, _, r) => p == pageId && r == rect
    case AddTable(p, _, _, _, r) => p == pageId && r == rect
    case AddMap(p, _, _, _, _, _, r) => p == pageId && r == rect
    case AddShapeMap(p, _, _, _, _, _, r) => p == pageId && r == rect
    case AddTextBox(p, _, _, r, _) => p == pageId && r == rect
    case _ => false
  }

  /**
   * Every candidate is drawn in the worksheet's slot, the last one is the
   * placeholder text box and only the last, and every chart plots x
   * against y from the worksheet's source.
   */
  lemma VisualCandidatesPlaced(wsName: string, ws: Worksheet, pageId: string, source: string,
                               x: string, y: string, location: Option<string>, rect: Rect, shape: bool)
    ensures var cs := VisualCandidates(wsName, ws, pageId, source, x, y, location, rect, shape);
      && 2 <= |cs| <= 3
      && (forall i :: 0 <= i < |cs| ==> PlacedAt(cs[i], pageId, rect))
      && IsPlaceholder(cs[|cs| - 1], wsName)
      && (forall i :: 0 <= i < |cs| - 1 ==> !cs[i].AddTextBox?)
      && (forall i :: 0 <= i < |cs| && cs[i].AddChart? ==> cs[i].xVar == x && cs[i].yVar == y && cs[i].dataSource == source)
  {
    var fallback := Fallback(wsName, ws.chartType.Name(), pageId, rect);
    var column := ColumnChartCandidates(wsName, pageId, source, ws.title, x, y, rect);
    assert PlacedAt(fallback, pageId, rect);
    assert PlacedAt(column[0], pageId, rect) && PlacedAt(column[1], pageId, rect);
    if ws.chartType == Map && location.None? && shape {
      var cs := VisualCandidates(wsName, ws, pageId, source, x, y, location, rect, shape);
      assert cs == [AddShapeMap(pageId, ChartId(wsName), source, ws.title, x, y, rect)] + column;
    }
  }

  /**
   * A map with a location column is a filled map of it coloured by y; one
   * without is a shape map on x when the shape file exists, then a column
   * chart.
   */
  lemma MapChoice(wsName: string, ws: Worksheet, pageId: string, source: string,
                  x: string, y: string, location: Option<string>, rect: Rect, shape: bool)
    requires ws.chartType == Map
    ensures var cs := VisualCandidates(wsName, ws, pageId, source, x, y, location, rect, shape);
      var id := ChartId(wsName);
      && (location.Some? ==> cs[0] == AddMap(pageId, id, source, ws.title, location.value, y, rect))
      && (location.None? && shape ==>
            cs[0] == AddShapeMap(pageId, id, source, ws.title, x, y, rect) && cs[1].AddChart? && cs[1].kind == ColumnChart)
      && (location.None? && !shape ==> cs[0].AddChart? && cs[0].kind == ColumnChart)
  {
  }

  /**
   * Every other kind is tried as itself first: a pie has no axis titles, a
   * bar chart swaps them, line and column charts title x and y, and a table
   * is a table.
   */
  lemma ChartChoice(wsName: string, ws: Worksheet, pageId: string, source: string,
                    x: string, y: string, location: Option<string>, rect: Rect, shape: bool)
    requires ws.chartType != Map
    ensures var cs := VisualCandidates(wsName, ws, pageId, source, x, y, location, rect, shape);
      && (ws.chartType == PieChart ==>
            cs[0].AddChart? && cs[0].kind == PieChart && cs[0].xAxisTitle.None? && cs[0].yAxisTitle.None?)
      && (ws.chartType == BarChart ==>
            cs[0].AddChart? && cs[0].kind == BarChart && cs[0].xAxisTitle == Some(y) && cs[0].yAxisTitle == Some(x))
      && (ws.chartType == LineChart || ws.chartType == ColumnChart ==>
            cs[0].AddChart? && cs[0].kind == ws.chartType && cs[0].xAxisTitle == Some(x) && cs[0].yAxisTitle == Some(y))
      && (ws.chartType == Table ==> cs[0] == AddTable(pageId, ChartId(wsName), source, ws.title, rect))
  {
  }

  /** The data-file path of a resolved source, when the source is a data-file key. */
  function SourcePath(dataFiles: Dict<string>, source: string): Option<string>
  {
    if source in dataFiles.entries then Some(dataFiles.entries[source]) else None
  }

  /** The data-file path the axis analysis reads, if any. */
  function ResolvedPath(dataFiles: Dict<string>, r: Resolution): Option<string>
  {
    match r
    case Resolved(source) => SourcePath(dataFiles, source)
    case NoDataFiles => None
  }

  /**
   * The directives tried for a worksheet that declares a data source, once
   * the source is resolved to `r` and the axes `x`, `y` and the map location
   * are chosen.
   */
  function PlanFor(wsName: string, ws: Worksheet, pageId: string, rect: Rect, r: Resolution,
                   x: string, y: string, location: Option<string>, shape: bool): seq<Directive>
  {
    match r
    case NoDataFiles => [NoSourceBox(wsName, ws, pageId, rect)]
    case Resolved(source) => VisualCandidates(wsName, ws, pageId, source, x, y, location, rect, shape)
  }

  /**
   * A resolved worksheet always tries something, all of it in its slot, and
   * only its last directive is a text box: its placeholder. Without a data
   * file that is the text box saying so, and every chart draws from the
   * resolved source and plots x against y.
   */
  lemma PlanForMeaning(wsName: string, ws: Worksheet, pageId: string, rect: Rect, r: Resolution,
                       x: string, y: string, location: Option<string>, shape: bool)
    ensures var plan := PlanFor(wsName, ws, pageId, rect, r, x, y, location, shape);
      && plan != []
      && (forall i :: 0 <= i < |plan| ==> PlacedAt(plan[i], pageId, rect))
      && (forall i :: 0 <= i < |plan| ==> (plan[i].AddTextBox? <==> i == |plan| - 1))
      && (forall i :: 0 <= i < |plan| && plan[i].AddTextBox? ==> IsPlaceholder(plan[i], wsName))
      && (r == NoDataFiles ==> plan == [NoSourceBox(wsName, ws, pageId, rect)])
      && (forall i :: 0 <= i < |plan| && plan[i].AddChart? ==>
            r == Resolved(plan[i].dataSource) && plan[i].xVar == x && plan[i].yVar == y)
  {
    match r
    case NoDataFiles =>
    case Resolved(source) =>
      VisualCandidatesPlaced(wsName, ws, pageId, source, x, y, location, rect, shape);
  }

  /**
   * `_add_worksheet_to_page` for the worksheet `wsName` in slot `rect` of
   * page `pageId`: the directives it tries, in order, each after the
   * previous one raised.
   */
  function WorksheetPlan(env: Env, wsName: string, pageId: string, rect: Rect): seq<Directive>
  {
    if wsName !in env.worksheets.entries then []
    else
      var ws := env.worksheets.entries[wsName];
      if ws.datasources == [] then []
      else
        var r := ResolveSource(ws.datasources[0], env.mapping, env.dataFiles.keys);
        var axes := ChosenAxes(ws.columns, ResolvedPath(env.dataFiles, r), env.tables);
        PlanFor(wsName, ws, pageId, rect, r, axes.0, axes.1, LocationColumn(ws.columns), env.shapeFileAvailable)
  }

  /**
   * A worksheet gets nothing exactly when it is unknown or declares no data
   * source. Whatever is tried is drawn in the slot, and only the last
   * directive tried is a text box: the worksheet's placeholder.
   */
  lemma WorksheetPlanMeaning(env: Env, wsName: string, pageId: string, rect: Rect)
    ensures var plan := WorksheetPlan(env, wsName, pageId, rect);
      && (plan == [] <==> wsName !in env.worksheets.entries || env.worksheets.entries[wsName].datasources == [])
      && (forall i :: 0 <= i < |plan| ==> PlacedAt(plan[i], pageId, rect))
      && (forall i :: 0 <= i < |plan| ==> (plan[i].AddTextBox? <==> i == |plan| - 1))
      && (forall i :: 0 <= i < |plan| && plan[i].AddTextBox? ==> IsPlaceholder(plan[i], wsName))
  {
    if wsName in env.worksheets.entries {
      var ws := env.worksheets.entries[wsName];
      if ws.datasources != [] {
        var r := ResolveSource(ws.datasources[0], env.mapping, env.dataFiles.keys);
        var axes := ChosenAxes(ws.columns, ResolvedPath(env.dataFiles, r), env.tables);
        PlanForMeaning(wsName, ws, pageId, rect, r, axes.0, axes.1, LocationColumn(ws.columns), env.shapeFileAvailable);
      }
    }
  }

  /**
   * Without any data file a worksheet gets only the text box saying so;
   * otherwise every chart tried for it draws from its resolved source and
   * plots the axes chosen from that source's data file.
   */
  lemma WorksheetPlanSource(env: Env, wsName: string, pageId: string, rect: Rect)
    requires wsName in env.worksheets.entries && env.worksheets.entries[wsName].datasources != []
    ensures var plan := WorksheetPlan(env, wsName, pageId, rect);
      var ws := env.worksheets.entries[wsName];
      var r := ResolveSource(ws.datasources[0], env.mapping, env.dataFiles.keys);
      && (r == NoDataFiles ==> plan == [NoSourceBox(wsName, ws, pageId, rect)])
      && (forall i :: 0 <= i < |plan| && plan[i].AddChart? ==>
            && r == Resolved(plan[i].dataSource)
            && (plan[i].xVar, plan[i].yVar) == ChosenAxes(ws.columns, SourcePath(env.dataFiles, plan[i].dataSource), env.tables))
  {
    var ws := env.worksheets.entries[wsName];
    var r := ResolveSource(ws.datasources[0], env.mapping, env.dataFiles.keys);
    var axes := ChosenAxes(ws.columns, ResolvedPath(env.dataFiles, r), env.tables);
    PlanForMeaning(wsName, ws, pageId, rect, r, axes.0, axes.1, LocationColumn(ws.columns), env.shapeFileAvailable);
  }

  /**
   * A worksheet that is tried at all ends either with a call that
   * succeeded or with an attempt at its placeholder text box.
   */
  lemma WorksheetCallsEnd(env: Env, wsName: string, pageId: string, rect: Rect)
    ensures var plan := WorksheetPlan(env, wsName, pageId, rect);
      var calls := Chain(plan, env.failing);
      plan != [] ==>
        calls != [] && (calls[|calls| - 1].ok || IsPlaceholder(calls[|calls| - 1].directive, wsName))
  {
    var plan := WorksheetPlan(env, wsName, pageId, rect);
    if plan != [] {
      WorksheetPlanMeaning(env, wsName, pageId, rect);
      PlaceholderChainEnds(plan, env.failing, wsName);
    }
  }

  /** A chain whose only text box is its last candidate, the placeholder, ends in success or at the placeholder. */
  lemma PlaceholderChainEnds(plan: seq<Directive>, failing: set<Directive>, wsName: string)
    requires plan != []
    requires forall i :: 0 <= i < |plan| ==> (plan[i].AddTextBox? <==> i == |plan| - 1)
    requires forall i :: 0 <= i < |plan| && plan[i].AddTextBox? ==> IsPlaceholder(plan[i], wsName)
    ensures var calls := Chain(plan, failing);
      calls != [] && (calls[|calls| - 1].ok || IsPlaceholder(calls[|calls| - 1].directive, wsName))
  {
    ChainEnds(plan, failing);
    assert plan[|plan| - 1].AddTextBox?;
  }

  // ---------------------------------------------------------------------
  // Pages

  /** A directive that draws on page `pageId`, wherever on it. */
  predicate DrawnOn(d: Directive, pageId: string)
  {
    match d
    case AddChart(p, _, _, _, _, _, _, _, _, _) => p == pageId
    case AddTable(p, _, _, _, _) => p == pageId
    case AddMap(p, _, _, _, _, _, _) => p == pageId
    case AddShapeMap(p, _, _, _, _, _, _) => p == pageId
    case AddTextBox(p, _, _, _, _) => p == pageId
    case _ => false
  }

  /** Every directive of a worksheet's plan draws on page `pageId`. */
  predicate PlanOnPage(plan: seq<Directive>, pageId: string)
  {
    forall i :: 0 <= i < |plan| ==> DrawnOn(plan[i], pageId)
  }

  /** Every plan of a page's worksheets draws on page `pageId`. */
  predicate PlansOnPage(plans: seq<seq<Directive>>, pageId: string)
  {
    forall i :: 0 <= i < |plans| ==> PlanOnPage(plans[i], pageId)
  }

  /** Every call of the log draws on page `pageId`. */
  predicate DrawsOn(calls: seq<Call>, pageId: string)
  {
    forall i :: 0 <= i < |calls| ==> DrawnOn(calls[i].directive, pageId)
  }

  lemma WorksheetPlanOnPage(env: Env, wsName: string, pageId: string, rect: Rect)
    ensures PlanOnPage(WorksheetPlan(env, wsName, pageId, rect), pageId)
  {
    var plan := WorksheetPlan(env, wsName, pageId, rect);
    WorksheetPlanMeaning(env, wsName, pageId, rect);
    forall i | 0 <= i < |plan| ensures DrawnOn(plan[i], pageId) {
      assert PlacedAt(plan[i], pageId, rect);
    }
  }

  /** The plans of the worksheets placed on page `pageId`, slot by slot. */
  function GridPlans(env: Env, ps: seq<(string, Rect)>, pageId: string): seq<seq<Directive>>
  {
    seq(|ps|, i requires 0 <= i < |ps| => WorksheetPlan(env, ps[i].0, pageId, ps[i].1))
  }

  /** The plans of a page's worksheets all draw on that page. */
  lemma GridPlansOnPage(env: Env, ps: seq<(string, Rect)>, pageId: string)
    ensures |GridPlans(env, ps, pageId)| == |ps|
    ensures PlansOnPage(GridPlans(env, ps, pageId), pageId)
  {
    var plans := GridPlans(env, ps, pageId);
    forall i | 0 <= i < |plans| ensures PlanOnPage(plans[i], pageId) {
      WorksheetPlanOnPage(env, ps[i].0, pageId, ps[i].1);
    }
  }

  /** `_add_worksheets_to_page`: the calls of the first `k` worksheet plans, one after another. */
  function GridCalls(plans: seq<seq<Directive>>, k: nat, failing: set<Directive>): seq<Call>
    requires k <= |plans|
  {
    if k == 0 then []
    else
      var prev := GridCalls(plans, k - 1, failing);
      prev + Chain(plans[k - 1], failing)
  }

  lemma GridCallsStep(plans: seq<seq<Directive>>, i: nat, failing: set<Directive>)
    requires i < |plans|
    ensures GridCalls(plans, i + 1, failing) ==
      GridCalls(plans, i, failing) + Chain(plans[i], failing)
  {
  }

  lemma DrawsOnAppend(a: seq<Call>, b: seq<Call>, pageId: string)
    requires DrawsOn(a, pageId) && DrawsOn(b, pageId)
    ensures DrawsOn(a + b, pageId)
  {
    forall i | 0 <= i < |a + b| ensures DrawnOn((a + b)[i].directive, pageId) {
      if i >= |a| {
        assert (a + b)[i] == b[i - |a|];
      }
    }
  }

  /** Calls that all draw on a page add no page. */
  lemma DrawsOnAddsNoPage(calls: seq<Call>, pageId: string)
    requires DrawsOn(calls, pageId)
    ensures AddsNoPage(calls)
  {
  }

  /** The calls of a plan drawing on a page draw on it. */
  lemma ChainOnPage(plan: seq<Directive>, failing: set<Directive>, pageId: string)
    requires PlanOnPage(plan, pageId)
    ensures DrawsOn(Chain(plan, failing), pageId)
  {
    var calls := Chain(plan, failing);
    ChainMeaning(plan, failing);
    forall i | 0 <= i < |calls| ensures DrawnOn(calls[i].directive, pageId) {
      assert calls[i].directive == plan[i];
    }
  }

  /** Every call of the worksheets of a page draws on that page. */
  lemma {:induction false} GridCallsOnPage(plans: seq<seq<Directive>>, k: nat, failing: set<Directive>, pageId: string)
    requires k <= |plans| && PlansOnPage(plans, pageId)
    ensures DrawsOn(GridCalls(plans, k, failing), pageId)
  {
    if k > 0 {
      var prev := GridCalls(plans, k - 1, failing);
      GridCallsStep(plans, k - 1, failing);
      GridCallsOnPage(plans, k - 1, failing, pageId);
      ChainOnPage(plans[k - 1], failing, pageId);
      DrawsOnAppend(prev, Chain(plans[k - 1], failing), pageId);
    }
  }

  /** How a run of page-adding steps ends: `completed` is false once a page could not be added. */
  datatype Outcome = Outcome(calls: seq<Call>, completed: bool)

  /** `add_new_page` for a page titled `title`. */
  function PageFor(title: string): Directive
  {
    AddPage(PageName(title), title, "")
  }

  /**
   * Page `k` of `total`, titled `title`: the page, the worksheets of
   * `plans` in their slots, then the navigation buttons. A page that could
   * not be added ends the run.
   */
  function Page(title: string, k: nat, total: nat, plans: seq<seq<Directive>>, failing: set<Directive>): Outcome
  {
    var page := Attempt(PageFor(title), failing);
    if !page.ok then Outcome([page], false)
    else
      var grid := GridCalls(plans, |plans|, failing);
      Outcome([page] + grid + Each(NavButtons(k, total), failing), true)
  }

  /** The first `k` pages, numbered from 1, stopping at a page that cannot be added. */
  function PageRun(titles: seq<string>, plans: seq<seq<seq<Directive>>>, k: nat, failing: set<Directive>): Outcome
    requires k <= |titles| == |plans|
  {
    if k == 0 then Outcome([], true)
    else
      var prev := PageRun(titles, plans, k - 1, failing);
      if !prev.completed then prev
      else
        var page := Page(titles[k - 1], k, |titles|, plans[k - 1], failing);
        Outcome(prev.calls + page.calls, page.completed)
  }

  lemma PageRunStep(titles: seq<string>, plans: seq<seq<seq<Directive>>>, i: nat, failing: set<Directive>)
    requires i < |titles| == |plans|
    ensures var prev := PageRun(titles, plans, i, failing);
      var o := PageRun(titles, plans, i + 1, failing);
      && (!prev.completed ==> o == prev)
      && (prev.completed ==>
            var page := Page(titles[i], i + 1, |titles|, plans[i], failing);
            o == Outcome(prev.calls + page.calls, page.completed))
  {
  }

  /** The titles of the dashboards of `keys`, in order. */
  function DashboardTitles(env: Env, keys: seq<string>): seq<string>
    requires forall key :: key in keys ==> key in env.dashboards.entries
  {
    seq(|keys|, i requires 0 <= i < |keys| => env.dashboards.entries[keys[i]].title)
  }

  /** For each dashboard of `keys`, the plans of its worksheets on its page. */
  function DashboardPlans(env: Env, keys: seq<string>): seq<seq<seq<Directive>>>
    requires forall key :: key in keys ==> key in env.dashboards.entries
  {
    seq(|keys|, i requires 0 <= i < |keys| =>
      GridPlans(env, Placements(env.dashboards.entries[keys[i]].worksheets), PageId(i + 1)))
  }

  /** The titles of the worksheets of `keys`, in order. */
  function WorksheetTitles(env: Env, keys: seq<string>): seq<string>
    requires forall key :: key in keys ==> key in env.worksheets.entries
  {
    seq(|keys|, i requires 0 <= i < |keys| => env.worksheets.entries[keys[i]].title)
  }

  /** The slot of a worksheet that has a page of its own. */
  const FullSlot: Rect := Rect(50, 150, 600, 400)

  /** For each worksheet of `keys`, its plan alone on its own page. */
  function WorksheetPlans(env: Env, keys: seq<string>): seq<seq<seq<Directive>>>
  {
    seq(|keys|, i requires 0 <= i < |keys| => AlonePlans(env, keys[i], i + 1))
  }

  /** The plans of page `n`, given over to worksheet `name` alone. */
  function AlonePlans(env: Env, name: string, n: nat): seq<seq<Directive>>
  {
    [WorksheetPlan(env, name, PageId(n), FullSlot)]
  }

  /** Page `k` of the plans draws only on page `k`. */
  predicate PagesDrawOnOwnPage(plans: seq<seq<seq<Directive>>>)
  {
    forall i :: 0 <= i < |plans| ==> PlansOnPage(plans[i], PageId(i + 1))
  }

  lemma DashboardPlansOnPage(env: Env, keys: seq<string>)
    requires forall key :: key in keys ==> key in env.dashboards.entries
    ensures PagesDrawOnOwnPage(DashboardPlans(env, keys))
  {
    var plans := DashboardPlans(env, keys);
    forall i | 0 <= i < |plans| ensures PlansOnPage(plans[i], PageId(i + 1)) {
      GridPlansOnPage(env, Placements(env.dashboards.entries[keys[i]].worksheets), PageId(i + 1));
    }
  }

  lemma WorksheetPlansOnPage(env: Env, keys: seq<string>)
    ensures PagesDrawOnOwnPage(WorksheetPlans(env, keys))
  {
    var plans := WorksheetPlans(env, keys);
    forall i | 0 <= i < |plans| ensures PlansOnPage(plans[i], PageId(i + 1)) {
      WorksheetPlanOnPage(env, keys[i], PageId(i + 1), FullSlot);
    }
  }

  const GenericPageDirective: Directive :=
    AddPage("MainPage", "Converted Dashboard", "No visualizations found in source file")

  const InfoTextBox: Directive :=
    AddTextBox("page1", "info_text",
      "No visualizations were found in the source Tableau file.\n\n"
        + "You may need to add visualizations manually using the imported data sources.",
      Rect(200, 200, 400, 200), 14)

  /** The page made when the workbook has neither dashboards nor worksheets. */
  function GenericPage(failing: set<Directive>): Outcome
  {
    var page := Attempt(GenericPageDirective, failing);
    if !page.ok then Outcome([page], false) else Outcome([page, Attempt(InfoTextBox, failing)], true)
  }

  /** The pages added for the first `k` titles, in order. */
  function PagesFor(titles: seq<string>, k: nat): (ps: seq<Directive>)
    requires k <= |titles|
    ensures |ps| == k
    ensures forall i :: 0 <= i < k ==> ps[i] == PageFor(titles[i])
  {
    if k == 0 then [] else PagesFor(titles, k - 1) + [PageFor(titles[k - 1])]
  }

  /** A step that stopped did so at a failed `add_new_page`, the last call it made. */
  predicate StoppedAtPage(o: Outcome)
  {
    !o.completed ==> o.calls != [] && o.calls[|o.calls| - 1].directive.AddPage? && !o.calls[|o.calls| - 1].ok
  }

  /** Every `add_new_page` call of the log succeeded. */
  predicate PagesSucceeded(calls: seq<Call>)
  {
    forall i :: 0 <= i < |calls| && calls[i].directive.AddPage? ==> calls[i].ok
  }

  /** The pages added by a page followed by calls that add none. */
  lemma PageStep(page: Call, rest: seq<Call>)
    requires AddsNoPage(rest)
    ensures AddedPages([page] + rest) == (if page.directive.AddPage? then [page.directive] else [])
  {
    NoPagesAdded(rest);
    AddedPagesAppend([page], rest);
    assert [page][..0] == [];
  }

  lemma PagesSucceededAppend(a: seq<Call>, b: seq<Call>)
    ensures PagesSucceeded(a + b) <==> PagesSucceeded(a) && PagesSucceeded(b)
  {
    if PagesSucceeded(a) && PagesSucceeded(b) {
      forall i | 0 <= i < |a + b| && (a + b)[i].directive.AddPage? ensures (a + b)[i].ok {
        if i >= |a| {
          assert (a + b)[i] == b[i - |a|];
        }
      }
    }
    if PagesSucceeded(a + b) {
      forall i | 0 <= i < |a| && a[i].directive.AddPage? ensures a[i].ok {
        assert (a + b)[i] == a[i];
      }
      forall i | 0 <= i < |b| && b[i].directive.AddPage? ensures b[i].ok {
        assert (a + b)[|a| + i] == b[i];
      }
    }
  }

  /** Independent calls of directives none of which adds a page add none. */
  lemma EachAddsNoPage(ds: seq<Directive>, failing: set<Directive>)
    requires forall i :: 0 <= i < |ds| ==> !ds[i].AddPage?
    ensures AddsNoPage(Each(ds, failing))
  {
  }

  /** The navigation buttons add no page. */
  lemma NavCallsAddNoPage(k: nat, total: nat, failing: set<Directive>)
    ensures AddsNoPage(Each(NavButtons(k, total), failing))
  {
    assert forall i :: 0 <= i < |NavButtons(k, total)| ==> NavButtons(k, total)[i].AddButton?;
    EachAddsNoPage(NavButtons(k, total), failing);
  }

  /** A page call followed by calls that add no page. */
  lemma PageBody(page: Call, body: seq<Call>, nav: seq<Call>)
    requires AddsNoPage(body) && AddsNoPage(nav)
    ensures var calls := [page] + body + nav;
      calls != [] && calls[0] == page && AddsNoPage(calls[1..])
  {
    AddsNoPageAppend(body, nav);
    assert ([page] + body + nav)[1..] == body + nav;
  }

  /**
   * A page begins with its `add_new_page`; it completes exactly when that
   * succeeds, makes no other call when it does not, and adds no other
   * page.
   */
  lemma PageMeaning(title: string, k: nat, total: nat, plans: seq<seq<Directive>>, failing: set<Directive>)
    requires PlansOnPage(plans, PageId(k))
    ensures var o := Page(title, k, total, plans, failing);
      && o.calls != [] && o.calls[0] == Attempt(PageFor(title), failing)
      && (o.completed <==> o.calls[0].ok)
      && (!o.completed ==> o.calls == [o.calls[0]])
      && AddsNoPage(o.calls[1..])
  {
    var page := Attempt(PageFor(title), failing);
    if page.ok {
      var grid := GridCalls(plans, |plans|, failing);
      GridCallsOnPage(plans, |plans|, failing, PageId(k));
      DrawsOnAddsNoPage(grid, PageId(k));
      NavCallsAddNoPage(k, total, failing);
      PageBody(page, grid, Each(NavButtons(k, total), failing));
    } else {
      assert [page][1..] == [];
    }
  }

  /** Appending one page step to a log of steps that all completed. */
  lemma PagesNext(prev: Outcome, page: Outcome, planned: seq<Directive>, title: Directive)
    requires StoppedAtPage(prev) && (prev.completed <==> PagesSucceeded(prev.calls))
    requires prev.completed ==> AddedPages(prev.calls) == planned
    requires prev.completed
    requires page.calls != [] && page.calls[0].directive == title && title.AddPage?
    requires page.completed <==> page.calls[0].ok
    requires !page.completed ==> page.calls == [page.calls[0]]
    requires AddsNoPage(page.calls[1..])
    ensures var o := Outcome(prev.calls + page.calls, page.completed);
      && StoppedAtPage(o)
      && (o.completed <==> PagesSucceeded(o.calls))
      && (o.completed ==> AddedPages(o.calls) == planned + [title])
  {
    var first := page.calls[0];
    var rest := page.calls[1..];
    assert page.calls == [first] + rest;
    PageStep(first, rest);
    AddedPagesAppend(prev.calls, page.calls);
    PagesSucceededAppend(prev.calls, page.calls);
    PagesSucceededAppend([first], rest);
    assert PagesSucceeded(rest);
  }

  /** What a run of page steps ensures: where it stops, and the pages it added. */
  predicate PagesInvariant(o: Outcome, planned: seq<Directive>)
  {
    && StoppedAtPage(o)
    && (o.completed <==> PagesSucceeded(o.calls))
    && (o.completed ==> AddedPages(o.calls) == planned)
  }

  /** One more page step keeps the invariant, its page joining the planned pages. */
  lemma PageRunNext(prev: Outcome, page: Outcome, o: Outcome, planned: seq<Directive>, title: Directive)
    requires PagesInvariant(prev, planned)
    requires page.calls != [] && page.calls[0].directive == title && title.AddPage?
    requires page.completed <==> page.calls[0].ok
    requires !page.completed ==> page.calls == [page.calls[0]]
    requires AddsNoPage(page.calls[1..])
    requires !prev.completed ==> o == prev
    requires prev.completed ==> o == Outcome(prev.calls + page.calls, page.completed)
    ensures PagesInvariant(o, planned + [title])
  {
    if prev.completed {
      PagesNext(prev, page, planned, title);
    }
  }

  /**
   * The pages stop exactly at the first page that could not be added;
   * when all were added they are the titles' pages, in order.
   */
  lemma {:induction false} PageRunMeaning(titles: seq<string>, plans: seq<seq<seq<Directive>>>, k: nat,
                                          failing: set<Directive>)
    requires k <= |titles| == |plans| && PagesDrawOnOwnPage(plans)
    ensures PagesInvariant(PageRun(titles, plans, k, failing), PagesFor(titles, k))
  {
    if k > 0 {
      var i := k - 1;
      PageRunMeaning(titles, plans, i, failing);
      PageRunStep(titles, plans, i, failing);
      var prev := PageRun(titles, plans, i, failing);
      PageMeaning(titles[i], i + 1, |titles|, plans[i], failing);
      PageRunNext(prev, Page(titles[i], i + 1, |titles|, plans[i], failing), PageRun(titles, plans, i + 1, failing),
                  PagesFor(titles, i), PageFor(titles[i]));
    }
  }

  /** The generic page: it adds its page and, when that succeeds, the information text box. */
  lemma GenericPageMeaning(failing: set<Directive>)
    ensures var o := GenericPage(failing);
      && StoppedAtPage(o)
      && (o.completed <==> PagesSucceeded(o.calls))
      && (o.completed ==> AddedPages(o.calls) == [GenericPageDirective])
  {
    var o := GenericPage(failing);
    PageStep(o.calls[0], o.calls[1..]);
    assert o.calls == [o.calls[0]] + o.calls[1..];
    assert o.completed ==> o.calls[1].directive == InfoTextBox;
  }

  // ---------------------------------------------------------------------
  // The whole run

  /** `<output>/<report>/Data`, where the data files are copied. */
  function DataDir(env: Env): string
  {
    DataFiles.JoinPath(DataFiles.JoinPath(env.outputDir, env.reportName), "Data")
  }

  /** A directive that adds a data source. */
  predicate IsSource(d: Directive)
  {
    d.AddCsv? || d.AddExcel?
  }

  /** `_add_data_sources` for one file: a CSV or an Excel source by its extension, nothing otherwise. */
  function SourceDirective(dataDir: string, path: string): (ds: seq<Directive>)
    ensures |ds| <= 1 && forall i :: 0 <= i < |ds| ==> IsSource(ds[i])
  {
    var name := Basename(path);
    var file := DataFiles.JoinPath(dataDir, name);
    if EndsWith(Lower(name), ".csv") then [AddCsv(file)]
    else if EndsWith(Lower(name), ".xlsx") || EndsWith(Lower(name), ".xls") then [AddExcel(file)]
    else []
  }

  /** The source directives for the first `k` copied data files, in dictionary order. */
  function SourceDirectives(dataDir: string, paths: seq<string>, k: nat): (ds: seq<Directive>)
    requires k <= |paths|
    ensures |ds| <= k
  {
    if k == 0 then [] else SourceDirectives(dataDir, paths, k - 1) + SourceDirective(dataDir, paths[k - 1])
  }

  /** Directives all of which add a data source. */
  predicate AllSources(ds: seq<Directive>)
  {
    forall i :: 0 <= i < |ds| ==> IsSource(ds[i])
  }

  lemma AllSourcesAppend(a: seq<Directive>, b: seq<Directive>)
    requires AllSources(a) && AllSources(b)
    ensures AllSources(a + b)
  {
    forall i | 0 <= i < |a + b| ensures IsSource((a + b)[i]) {
      if i >= |a| {
        assert (a + b)[i] == b[i - |a|];
      }
    }
  }

  /** Each source directive adds a CSV or an Excel source. */
  lemma {:induction false} SourceDirectivesAreSources(dataDir: string, paths: seq<string>, k: nat)
    requires k <= |paths|
    ensures AllSources(SourceDirectives(dataDir, paths, k))
  {
    if k > 0 {
      SourceDirectivesAreSources(dataDir, paths, k - 1);
      AllSourcesAppend(SourceDirectives(dataDir, paths, k - 1), SourceDirective(dataDir, paths[k - 1]));
    }
  }

  /** Every copied file of a CSV or Excel extension becomes a source, and only those. */
  lemma SourceDirectiveKinds(dataDir: string, path: string)
    ensures var name := Basename(path);
      var csv := EndsWith(Lower(name), ".csv");
      var excel := EndsWith(Lower(name), ".xlsx") || EndsWith(Lower(name), ".xls");
      && (SourceDirective(dataDir, path) != [] <==> csv || excel)
      && (csv ==> SourceDirective(dataDir, path) == [AddCsv(DataFiles.JoinPath(dataDir, name))])
      && (!csv && excel ==> SourceDirective(dataDir, path) == [AddExcel(DataFiles.JoinPath(dataDir, name))])
  {
  }

  /** `_add_data_sources`: one independent call per supported data file, in dictionary order. */
  function SourceCalls(env: Env): seq<Call>
    requires env.Valid()
  {
    var paths := env.dataFiles.Values();
    Each(SourceDirectives(DataDir(env), paths, |paths|), env.failing)
  }

  /** The pages the run makes after the data sources: one per dashboard, else one per worksheet, else the generic page. */
  function Pages(env: Env): Outcome
    requires env.Valid()
  {
    var dbs := env.dashboards.keys;
    var wss := env.worksheets.keys;
    if dbs != [] then PageRun(DashboardTitles(env, dbs), DashboardPlans(env, dbs), |dbs|, env.failing)
    else if wss != [] then PageRun(WorksheetTitles(env, wss), WorksheetPlans(env, wss), |wss|, env.failing)
    else GenericPage(env.failing)
  }

  /** The pages a completed run adds: one per dashboard, else one per worksheet, else the generic page. */
  function PlannedPages(env: Env): seq<Directive>
    requires env.Valid()
  {
    var dbs := env.dashboards.keys;
    var wss := env.worksheets.keys;
    if dbs != [] then PagesFor(DashboardTitles(env, dbs), |dbs|)
    else if wss != [] then PagesFor(WorksheetTitles(env, wss), |wss|)
    else [GenericPageDirective]
  }

  /** The pages step of a run: it ends at a failed page or adds the planned pages. */
  lemma PagesMeaning(env: Env)
    requires env.Valid()
    ensures PagesInvariant(Pages(env), PlannedPages(env))
  {
    var dbs := env.dashboards.keys;
    var wss := env.worksheets.keys;
    if dbs != [] {
      DashboardPlansOnPage(env, dbs);
      PageRunMeaning(DashboardTitles(env, dbs), DashboardPlans(env, dbs), |dbs|, env.failing);
    } else if wss != [] {
      WorksheetPlansOnPage(env, wss);
      PageRunMeaning(WorksheetTitles(env, wss), WorksheetPlans(env, wss), |wss|, env.failing);
    } else {
      GenericPageMeaning(env.failing);
    }
  }

  /** The log of a run whose report was created: the creation, the set-up calls, then the pages. */
  function Assemble(create: Call, sources: seq<Call>, dates: Call, pages: Outcome): Outcome
  {
    if !create.ok then Outcome([create], false)
    else Outcome([create] + sources + [dates] + pages.calls, pages.completed)
  }

  /** `create_dashboard`: the calls it makes, and whether it returns the report path. */
  function Run(env: Env): Outcome
    requires env.Valid()
  {
    var create := Attempt(CreateReport(env.outputDir, env.reportName), env.failing);
    var sources := SourceCalls(env);
    var dates := Attempt(AddDateTable, env.failing);
    Assemble(create, sources, dates, Pages(env))
  }

  /** What a run ensures: it starts with the report, stops at a failed report or page, and adds the planned pages. */
  predicate RunInvariant(o: Outcome, create: Directive, planned: seq<Directive>)
  {
    && o.calls != [] && o.calls[0].directive == create
    && (o.completed <==> o.calls[0].ok && PagesSucceeded(o.calls))
    && (!o.completed ==> var last := o.calls[|o.calls| - 1];
          !last.ok && (last.directive.CreateReport? || last.directive.AddPage?))
    && (o.completed ==> AddedPages(o.calls) == planned)
  }

  /** Page-free set-up calls between the report and its pages keep the pages' invariant. */
  lemma AssembleMeaning(create: Call, sources: seq<Call>, dates: Call, pages: Outcome, planned: seq<Directive>)
    requires create.directive.CreateReport? && AddsNoPage(sources) && !dates.directive.AddPage?
    requires PagesInvariant(pages, planned)
    ensures RunInvariant(Assemble(create, sources, dates, pages), create.directive, planned)
  {
    if create.ok {
      var pre := [create] + sources + [dates];
      AddsNoPageAppend([create] + sources, [dates]);
      AddsNoPageAppend([create], sources);
      NoPagesAdded(pre);
      AddedPagesAppend(pre, pages.calls);
      PagesSucceededAppend(pre, pages.calls);
      assert PagesSucceeded(pre);
    }
  }

  /** The data-source calls add no page. */
  lemma SourcesAddNoPage(env: Env)
    requires env.Valid()
    ensures AddsNoPage(SourceCalls(env))
  {
    var paths := env.dataFiles.Values();
    var ds := SourceDirectives(DataDir(env), paths, |paths|);
    SourceDirectivesAreSources(DataDir(env), paths, |paths|);
    EachAddsNoPage(ds, env.failing);
  }

  /** Page-free set-up calls followed by the pages of the workbook. */
  lemma AssemblePagesMeaning(env: Env, create: Call, sources: seq<Call>, dates: Call)
    requires env.Valid()
    requires create.directive.CreateReport? && AddsNoPage(sources) && !dates.directive.AddPage?
    ensures RunInvariant(Assemble(create, sources, dates, Pages(env)), create.directive, PlannedPages(env))
  {
    PagesMeaning(env);
    AssembleMeaning(create, sources, dates, Pages(env), PlannedPages(env));
  }

  /**
   * A run completes exactly when creating the report and adding every
   * page succeeded; one that does not complete stops at the failed call.
   * A completed run adds the planned pages, in order: one per dashboard
   * titled by it, else one per worksheet, else the generic page.
   */
  lemma RunMeaning(env: Env)
    requires env.Valid()
    ensures RunInvariant(Run(env), CreateReport(env.outputDir, env.reportName), PlannedPages(env))
  {
    var create := Attempt(CreateReport(env.outputDir, env.reportName), env.failing);
    var sources := SourceCalls(env);
    var dates := Attempt(AddDateTable, env.failing);
    SourcesAddNoPage(env);
    AssemblePagesMeaning(env, create, sources, dates);
  }
}
