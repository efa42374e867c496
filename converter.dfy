/**
 * `PowerBIConverter`: the object that builds a Power BI report from the
 * parser's dictionaries. Every library call it makes is appended to `log`
 * with its outcome; each method is proved to make exactly the calls the
 * functions of `Emitter` describe, so the properties proved there (pages
 * in order, navigation links, worksheets in their slots, a placeholder at
 * the end of every failed visual) hold of the calls the object makes.
 */
module Converter {
  import opened Wrappers
  import opened Dicts
  import opened Entities
  import opened ColumnNames
  import opened Directives
  import opened Layout
  import opened Axes
  import opened Emitter
  import DataFiles
  import Parser

  class PowerBIConverter {
    const outputDir: string
    /** `PBI_<yymmddHHMM>`; the clock reading is an input. */
    const reportName: string
    const dataFiles: Dict<string>
    const worksheets: Dict<Worksheet>
    const dashboards: Dict<Dashboard>
    const mapping: map<string, string>
    /** The contents `read_csv` finds at each path; a path missing here raises. */
    const tables: map<string, Frame>
    /** Whether the Washington counties shape file exists. */
    const shapeFileAvailable: bool
    /** The calls the Power BI library raises on. */
    const failing: set<Directive>
    /** Every library call made so far, with whether it returned normally. */
    var log: seq<Call>

    /** Everything a run depends on, as one value. */
    function RunEnv(): Emitter.Env
    {
      Emitter.Env(outputDir, reportName, dataFiles, worksheets, dashboards, mapping, tables, shapeFileAvailable, failing)
    }

    ghost predicate Valid()
    {
      RunEnv().Valid()
    }

    /** `os.path.join(output_dir, report_name)`, the path a successful run returns. */
    function DashboardPath(): string
    {
      DataFiles.JoinPath(outputDir, reportName)
    }

    constructor(outputDir: string, dataFiles: Dict<string>, parser: Parser.WorkbookParser, reportName: string,
                tables: map<string, Frame>, shapeFileAvailable: bool, failing: set<Directive>)
      requires dataFiles.Valid() && parser.Valid()
      ensures Valid() && log == []
      ensures RunEnv() == Emitter.Env(outputDir, reportName, dataFiles, parser.worksheets, parser.dashboards,
                                      parser.dataSourceMapping, tables, shapeFileAvailable, failing)
    {
      this.outputDir := outputDir;
      this.reportName := reportName;
      this.dataFiles := dataFiles;
      this.worksheets := parser.worksheets;
      this.dashboards := parser.dashboards;
      this.mapping := parser.dataSourceMapping;
      this.tables := tables;
      this.shapeFileAvailable := shapeFileAvailable;
      this.failing := failing;
      log := [];
    }

    /** One call into the Power BI library; it raises exactly when the oracle says so. */
    method Invoke(d: Directive) returns (ok: bool)
      modifies this`log
      ensures ok <==> d !in failing
      ensures log == old(log) + [Attempt(d, failing)]
    {
      ok := d !in failing;
      log := log + [Call(d, ok)];
    }

    // -----------------------------------------------------------------------
    // create_dashboard

    /**
     * Creates the report, adds the data sources and the date table, then
     * one page per dashboard, else one per worksheet, else a generic page.
     * A failure to create the report or to add a page ends the run without
     * a path.
     */
    method CreateDashboard() returns (path: Option<string>)
      requires Valid()
      modifies this`log
      ensures log == old(log) + Run(RunEnv()).calls
      ensures path.Some? <==> Run(RunEnv()).completed
      ensures path.Some? ==> path.value == DashboardPath()
    {
      var created := Invoke(CreateReport(outputDir, reportName));
      if !created {
        RunRefused(RunEnv());
        return None;
      }
      ghost var afterCreate := log;
      AddDataSources();
      ghost var afterSources := log;
      var _ := Invoke(AddDateTable);
      ghost var beforePages := log;
      var added := AddPages();
      AssembleLog(Attempt(CreateReport(outputDir, reportName), failing), SourceCalls(RunEnv()),
        Attempt(AddDateTable, failing), Pages(RunEnv()), old(log), afterCreate, afterSources, beforePages, log);
      if !added {
        return None;
      }
      return Some(DashboardPath());
    }

    /** One page per dashboard, else one per worksheet, else the generic page. */
    method AddPages() returns (ok: bool)
      requires Valid()
      modifies this`log
      ensures log == old(log) + Pages(RunEnv()).calls
      ensures ok == Pages(RunEnv()).completed
    {
      if dashboards.keys != [] {
        ok := AddDashboardPages();
      } else if worksheets.keys != [] {
        ok := AddWorksheetPages();
      } else {
        ok := AddGenericPage();
      }
    }

    /** The pages of the dashboards, in dictionary order, each with its worksheets and navigation. */
    method AddDashboardPages() returns (ok: bool)
      requires Valid() && dashboards.keys != []
      modifies this`log
      ensures log == old(log) + Pages(RunEnv()).calls
      ensures ok == Pages(RunEnv()).completed
    {
      ok := AddDashboardPagesOf(dashboards.keys);
    }

    /** The dashboard loop: page `count` for the `count`-th dashboard, counting from 1. */
    method AddDashboardPagesOf(keys: seq<string>) returns (ok: bool)
      requires forall key :: key in keys ==> key in dashboards.entries
      modifies this`log
      ensures var o := PageRun(DashboardTitles(RunEnv(), keys), DashboardPlans(RunEnv(), keys), |keys|, failing);
        log == old(log) + o.calls && ok == o.completed
    {
      ghost var titles := DashboardTitles(RunEnv(), keys);
      ghost var plans := DashboardPlans(RunEnv(), keys);
      var count := 0;
      while count < |keys|
        invariant count <= |keys|
        invariant PageRun(titles, plans, count, failing).completed
        invariant log == old(log) + PageRun(titles, plans, count, failing).calls
      {
        var dashboard := dashboards.entries[keys[count]];
        ghost var prev := log;
        var added := AddDashboardPage(count + 1, |keys|, dashboard);
        PageLogNext(titles, plans, count, failing, old(log), prev, log);
        count := count + 1;
        if !added {
          PageRunStays(titles, plans, count, |keys|, failing);
          return false;
        }
      }
      return true;
    }

    /** Page `n` of `total` for a dashboard: the page, its worksheets in the grid, its navigation. */
    method AddDashboardPage(n: nat, total: nat, dashboard: Dashboard) returns (added: bool)
      modifies this`log
      ensures var o := Page(dashboard.title, n, total, GridPlans(RunEnv(), Placements(dashboard.worksheets), PageId(n)), failing);
        log == old(log) + o.calls && added == o.completed
    {
      var pageId := PageId(n);
      added := Invoke(AddPage(PageName(dashboard.title), dashboard.title, ""));
      if !added {
        return;
      }
      AddWorksheetsToPage(dashboard.worksheets, pageId);
      AddNavigation(n, total);
      PageLog(old(log), dashboard.title, n, total, GridPlans(RunEnv(), Placements(dashboard.worksheets), pageId), failing, log);
    }

    /** Without dashboards: one page per worksheet, the worksheet filling the page. */
    method AddWorksheetPages() returns (ok: bool)
      requires Valid() && dashboards.keys == [] && worksheets.keys != []
      modifies this`log
      ensures log == old(log) + Pages(RunEnv()).calls
      ensures ok == Pages(RunEnv()).completed
    {
      ok := AddWorksheetPagesOf(worksheets.keys);
    }

    /** The worksheet loop: page `count` for the `count`-th worksheet, counting from 1. */
    method AddWorksheetPagesOf(keys: seq<string>) returns (ok: bool)
      requires forall key :: key in keys ==> key in worksheets.entries
      modifies this`log
      ensures var o := PageRun(WorksheetTitles(RunEnv(), keys), WorksheetPlans(RunEnv(), keys), |keys|, failing);
        log == old(log) + o.calls && ok == o.completed
    {
      ghost var titles := WorksheetTitles(RunEnv(), keys);
      ghost var plans := WorksheetPlans(RunEnv(), keys);
      var count := 0;
      while count < |keys|
        invariant count <= |keys|
        invariant PageRun(titles, plans, count, failing).completed
        invariant log == old(log) + PageRun(titles, plans, count, failing).calls
      {
        ghost var prev := log;
        var added := AddWorksheetPage(keys, count);
        PageLogNext(titles, plans, count, failing, old(log), prev, log);
        count := count + 1;
        if !added {
          PageRunStays(titles, plans, count, |keys|, failing);
          return false;
        }
      }
      return true;
    }

    /** The page of the `i`-th worksheet: the page, the worksheet filling it, its navigation. */
    method AddWorksheetPage(keys: seq<string>, i: nat) returns (added: bool)
      requires i < |keys| && forall key :: key in keys ==> key in worksheets.entries
      modifies this`log
      ensures var o := Page(WorksheetTitles(RunEnv(), keys)[i], i + 1, |keys|, WorksheetPlans(RunEnv(), keys)[i], failing);
        log == old(log) + o.calls && added == o.completed
    {
      var wsName := keys[i];
      var title := worksheets.entries[wsName].title;
      var pageId := PageId(i + 1);
      WorksheetPageAt(RunEnv(), keys, i);
      added := Invoke(AddPage(PageName(title), title, ""));
      if !added {
        return;
      }
      AddWorksheetToPage(wsName, pageId, FullSlot);
      SinglePlanCalls(WorksheetPlan(RunEnv(), wsName, pageId, FullSlot), failing);
      AddNavigation(i + 1, |keys|);
      PageLog(old(log), title, i + 1, |keys|, [WorksheetPlan(RunEnv(), wsName, pageId, FullSlot)], failing, log);
    }

    /** Without dashboards or worksheets: the generic page and its explanation. */
    method AddGenericPage() returns (ok: bool)
      modifies this`log
      ensures log == old(log) + GenericPage(failing).calls
      ensures ok == GenericPage(failing).completed
    {
      ok := Invoke(GenericPageDirective);
      if ok {
        var _ := Invoke(InfoTextBox);
      }
    }

    /** The previous-page and next-page buttons of page `n` of `total`; each failure is caught. */
    method AddNavigation(n: nat, total: nat)
      modifies this`log
      ensures log == old(log) + Each(NavButtons(n, total), failing)
    {
      ghost var before := log;
      var back: seq<Directive> := [];
      if n > 1 {
        var _ := Invoke(PreviousButton(n));
        back := [PreviousButton(n)];
      }
      ghost var middle := log;
      var next: seq<Directive> := [];
      if n < total {
        var _ := Invoke(NextButton(n));
        next := [NextButton(n)];
      }
      EachAppend(back, next, failing);
      assert middle == before + Each(back, failing);
      assert log == middle + Each(next, failing);
    }

    // -----------------------------------------------------------------------
    // _add_data_sources

    /** One `add_csv` or `add_excel` per copied data file of either kind, in dictionary order; failures are caught. */
    method AddDataSources()
      requires Valid()
      modifies this`log
      ensures log == old(log) + SourceCalls(RunEnv())
    {
      if dataFiles.keys == [] {
        return;
      }
      AddSourceFiles(DataDir(RunEnv()), dataFiles.Values());
    }

    /** The loop over the data files: each one's source directive, in order. */
    method AddSourceFiles(dataDir: string, paths: seq<string>)
      modifies this`log
      ensures log == old(log) + Each(SourceDirectives(dataDir, paths, |paths|), failing)
    {
      for i := 0 to |paths|
        invariant log == old(log) + Each(SourceDirectives(dataDir, paths, i), failing)
      {
        ghost var before := log;
        AddDataSource(dataDir, paths[i]);
        SourcesStep(dataDir, paths, i, failing, old(log), before, log);
      }
    }

    /** One copied data file: `add_csv` or `add_excel` by its extension, nothing for another kind. */
    method AddDataSource(dataDir: string, path: string)
      modifies this`log
      ensures log == old(log) + Each(SourceDirective(dataDir, path), failing)
    {
      var source := SourceDirective(dataDir, path);
      if source != [] {
        var _ := Invoke(source[0]);
        assert Each(source, failing) == [Attempt(source[0], failing)];
      } else {
        assert Each(source, failing) == [];
      }
    }

    // -----------------------------------------------------------------------
    // _add_worksheets_to_page

    /**
     * Places up to four worksheets on page `pageId` in the fixed grid; of
     * more than four, only the first four.
     */
    method AddWorksheetsToPage(names: seq<string>, pageId: string)
      modifies this`log
      ensures var plans := GridPlans(RunEnv(), Placements(names), pageId);
        log == old(log) + GridCalls(plans, |plans|, failing)
      decreases |names|
    {
      if names == [] {
        return;
      }
      if |names| <= 4 {
        AddToGrid(names, pageId);
      } else {
        AddWorksheetsToPage(names[..4], pageId);
      }
    }

    /** One to four worksheets: the whole page, side by side, or the 2x2 grid. */
    method AddToGrid(names: seq<string>, pageId: string)
      requires 1 <= |names| <= 4
      modifies this`log
      ensures log == old(log) + GridCalls(GridPlans(RunEnv(), Placements(names), pageId), |names|, failing)
    {
      ghost var log0 := log;
      if |names| == 1 {
        AddSlot(names, pageId, 0, Rect(50, 150, 600, 400), log0);
      } else if |names| == 2 {
        AddSlot(names, pageId, 0, Rect(50, 150, 300, 400), log0);
        AddSlot(names, pageId, 1, Rect(370, 150, 300, 400), log0);
      } else {
        for i := 0 to |names|
          invariant log == log0 + GridCalls(GridPlans(RunEnv(), Placements(names), pageId), i, failing)
        {
          AddSlot(names, pageId, i, Quadrants[i], log0);
        }
      }
    }

    /** The `i`-th worksheet of the grid, in its slot `rect`, after the first `i`. */
    method AddSlot(names: seq<string>, pageId: string, i: nat, rect: Rect, ghost log0: seq<Call>)
      requires i < |names| <= 4 && rect == Slot(|names|, i)
      requires log == log0 + GridCalls(GridPlans(RunEnv(), Placements(names), pageId), i, failing)
      modifies this`log
      ensures log == log0 + GridCalls(GridPlans(RunEnv(), Placements(names), pageId), i + 1, failing)
    {
      ghost var prev := log;
      AddWorksheetToPage(names[i], pageId, rect);
      GridPlanAt(RunEnv(), names, pageId, i);
      GridLogNext(GridPlans(RunEnv(), Placements(names), pageId), i, failing, log0, prev, log);
    }

    // -----------------------------------------------------------------------
    // _add_worksheet_to_page

    /**
     * The visual of worksheet `wsName` in slot `rect` of page `pageId`:
     * nothing for an unknown worksheet or one without a data source, a
     * text box when there is no data file, otherwise the visual of its
     * chart type on its resolved source and chosen axes, each failure
     * caught by the next fallback.
     */
    method AddWorksheetToPage(wsName: string, pageId: string, rect: Rect)
      modifies this`log
      ensures log == old(log) + Chain(WorksheetPlan(RunEnv(), wsName, pageId, rect), failing)
    {
      if wsName !in worksheets.entries {
        return;
      }
      var worksheet := worksheets.entries[wsName];
      if worksheet.datasources == [] {
        return;
      }
      var source := ResolveSource(worksheet.datasources[0], mapping, dataFiles.keys);
      if source.NoDataFiles? {
        var _ := Invoke(NoSourceBox(wsName, worksheet, pageId, rect));
        SinglePlanCalls([NoSourceBox(wsName, worksheet, pageId, rect)], failing);
        return;
      }
      var x, y := ChooseAxes(worksheet.columns, ResolvedPath(dataFiles, source));
      AddVisual(wsName, worksheet, pageId, source.source, x, y, rect);
    }

    /** The axis variables: the shelves' first columns, the data-file analysis, then the placeholders. */
    method ChooseAxes(roles: Roles, path: Option<string>) returns (x: string, y: string)
      ensures (x, y) == ChosenAxes(roles, path, tables)
      ensures x != "" && y != "" && (x != y || x == "Value")
    {
      var xVar: Option<string> := None;
      var yVar: Option<string> := None;
      if roles.xAxis != [] {
        xVar := Some(CleanColumnName(roles.xAxis[0]));
      }
      if roles.yAxis != [] {
        yVar := Some(CleanColumnName(roles.yAxis[0]));
      }
      xVar, yVar := AnalyseAxes(xVar, yVar, path, tables);
      x := if Present(xVar) then xVar.value else "Category";
      y := if Present(yVar) then yVar.value else if x != "Value" then "Value" else "Count";
      if x == y {
        y := "Value";
      }
    }

    /** The chart-type dispatch: the visual, and the fallbacks tried when it raises. */
    method AddVisual(wsName: string, ws: Worksheet, pageId: string, source: string, x: string, y: string, rect: Rect)
      modifies this`log
      ensures log == old(log) +
        Chain(VisualCandidates(wsName, ws, pageId, source, x, y, LocationColumn(ws.columns), rect, shapeFileAvailable), failing)
    {
      var chartId := ChartId(wsName);
      match ws.chartType {
        case Map =>
          AddMapVisual(wsName, ws, pageId, source, x, y, rect);
        case PieChart =>
          var chart := AddChart(pageId, chartId, PieChart, source, ws.title, None, None, x, y, rect);
          AddChartOrFallback(chart, wsName, ws.chartType.Name(), pageId, rect);
        case LineChart =>
          var chart := AddChart(pageId, chartId, LineChart, source, ws.title, Some(x), Some(y), x, y, rect);
          AddChartOrFallback(chart, wsName, ws.chartType.Name(), pageId, rect);
        case BarChart =>
          // A horizontal bar chart swaps the axis titles.
          var chart := AddChart(pageId, chartId, BarChart, source, ws.title, Some(y), Some(x), x, y, rect);
          AddChartOrFallback(chart, wsName, ws.chartType.Name(), pageId, rect);
        case Table =>
          var table := AddTable(pageId, chartId, source, ws.title, rect);
          AddChartOrFallback(table, wsName, ws.chartType.Name(), pageId, rect);
        case ColumnChart =>
          AddColumnChart(wsName, pageId, source, ws.title, x, y, rect);
      }
    }

    /**
     * A map: on the location column when one is found, else a shape map
     * when the shape file exists, else a column chart; a map that raises
     * gets the placeholder, a shape map that raises the column chart.
     */
    method AddMapVisual(wsName: string, ws: Worksheet, pageId: string, source: string, x: string, y: string, rect: Rect)
      requires ws.chartType == Map
      modifies this`log
      ensures log == old(log) +
        Chain(VisualCandidates(wsName, ws, pageId, source, x, y, LocationColumn(ws.columns), rect, shapeFileAvailable), failing)
    {
      var location := FindLocation(ws.columns);
      AddMapAt(wsName, ws, pageId, source, x, y, rect, location);
    }

    /** A map once its location column, if any, is known. */
    method AddMapAt(wsName: string, ws: Worksheet, pageId: string, source: string, x: string, y: string, rect: Rect,
                    location: Option<string>)
      requires ws.chartType == Map
      modifies this`log
      ensures log == old(log) +
        Chain(VisualCandidates(wsName, ws, pageId, source, x, y, location, rect, shapeFileAvailable), failing)
    {
      var chartId := ChartId(wsName);
      var columnChart := ColumnChartCandidates(wsName, pageId, source, ws.title, x, y, rect);
      if location.Some? {
        AddChartOrFallback(AddMap(pageId, chartId, source, ws.title, location.value, y, rect),
          wsName, ws.chartType.Name(), pageId, rect);
      } else if shapeFileAvailable {
        var shapeMap := AddShapeMap(pageId, chartId, source, ws.title, x, y, rect);
        var ok := Invoke(shapeMap);
        if !ok {
          AddColumnChart(wsName, pageId, source, ws.title, x, y, rect);
        }
        ChainCons(shapeMap, columnChart, failing);
      } else {
        AddColumnChart(wsName, pageId, source, ws.title, x, y, rect);
        assert [] + columnChart == columnChart;
      }
    }

    /** A `try` around one visual whose `except` adds the placeholder. */
    method AddChartOrFallback(visual: Directive, wsName: string, kind: string, pageId: string, rect: Rect)
      modifies this`log
      ensures log == old(log) + Chain([visual, Fallback(wsName, kind, pageId, rect)], failing)
    {
      var ok := Invoke(visual);
      if !ok {
        AddFallbackViz(wsName, kind, pageId, rect);
      }
      ChainPair(visual, Fallback(wsName, kind, pageId, rect), failing);
    }

    /**
     * The location column of a map: the first cleaned colour column whose
     * lowered name contains a location term, else the first such x, y or
     * label column.
     */
    method FindLocation(roles: Roles) returns (location: Option<string>)
      ensures location == LocationColumn(roles)
    {
      location := FirstPlaceOf(CleanAll(roles.color));
      if location.None? {
        location := FirstPlaceOf(CleanAll(roles.xAxis + roles.yAxis + roles.labels));
      }
    }

    /** `_add_column_chart`: a column chart, and the placeholder when it raises. */
    method AddColumnChart(wsName: string, pageId: string, source: string, title: string, x: string, y: string, rect: Rect)
      modifies this`log
      ensures log == old(log) + Chain(ColumnChartCandidates(wsName, pageId, source, title, x, y, rect), failing)
    {
      AddChartOrFallback(AddChart(pageId, ChartId(wsName), ColumnChart, source, title, Some(x), Some(y), x, y, rect),
        wsName, "columnChart", pageId, rect);
    }

    /** `_add_fallback_viz`: the placeholder text box; its own failure is caught. */
    method AddFallbackViz(wsName: string, kind: string, pageId: string, rect: Rect)
      modifies this`log
      ensures log == old(log) + [Attempt(Fallback(wsName, kind, pageId, rect), failing)]
    {
      var _ := Invoke(Fallback(wsName, kind, pageId, rect));
    }
  }

  /** The loop over cleaned column names that stops at the first naming a place. */
  method FirstPlaceOf(names: seq<string>) returns (location: Option<string>)
    ensures location == FirstPlace(names)
  {
    for i := 0 to |names|
      invariant forall j :: 0 <= j < i ==> !IsPlace(names[j])
    {
      if IsPlace(names[i]) {
        FirstPlaceAt(names, i);
        return Some(names[i]);
      }
    }
    NoFirstPlace(names);
    return None;
  }

  /** Names none of which is a place have no first place. */
  lemma NoFirstPlace(names: seq<string>)
    requires forall j :: 0 <= j < |names| ==> !IsPlace(names[j])
    ensures FirstPlace(names) == None
  {
    FirstPlaceMeaning(names);
  }

  /** A place preceded by none is the first place. */
  lemma FirstPlaceAt(names: seq<string>, i: nat)
    requires i < |names| && IsPlace(names[i])
    requires forall j :: 0 <= j < i ==> !IsPlace(names[j])
    ensures FirstPlace(names) == Some(names[i])
  {
    FirstPlaceMeaning(names);
    var k :| 0 <= k < |names| && FirstPlace(names).value == names[k] && IsPlace(names[k]) &&
      forall j :: 0 <= j < k ==> !IsPlace(names[j]);
    assert k == i;
  }

  /** Independent calls of two lists are the calls of each, one after the other. */
  lemma EachAppend(a: seq<Directive>, b: seq<Directive>, failing: set<Directive>)
    ensures Each(a + b, failing) == Each(a, failing) + Each(b, failing)
  {
    var l := Each(a + b, failing);
    var r := Each(a, failing) + Each(b, failing);
    forall i | 0 <= i < |l| ensures l[i] == r[i] {
      if i >= |a| {
        assert (a + b)[i] == b[i - |a|];
      }
    }
  }

  /** One more data file: its source directive, if any, is attempted after the earlier ones. */
  lemma SourcesStep(dataDir: string, paths: seq<string>, i: nat, failing: set<Directive>,
                    log0: seq<Call>, before: seq<Call>, after: seq<Call>)
    requires i < |paths|
    requires before == log0 + Each(SourceDirectives(dataDir, paths, i), failing)
    requires after == before + Each(SourceDirective(dataDir, paths[i]), failing)
    ensures after == log0 + Each(SourceDirectives(dataDir, paths, i + 1), failing)
  {
    var source := SourceDirective(dataDir, paths[i]);
    var earlier := SourceDirectives(dataDir, paths, i);
    EachAppend(earlier, source, failing);
    Regroup3(log0, Each(earlier, failing), Each(source, failing));
  }

  /** A chain of one directive, then another when the first raises. */
  lemma ChainPair(first: Directive, second: Directive, failing: set<Directive>)
    ensures Chain([first, second], failing) ==
      if first !in failing then [Attempt(first, failing)] else [Attempt(first, failing), Attempt(second, failing)]
  {
    assert [first, second][1..] == [second];
    assert Chain([second], failing) == [Attempt(second, failing)] by {
      assert [second][1..] == [];
    }
  }

  /** A chain tries its first candidate, and the rest only when that raises. */
  lemma ChainCons(first: Directive, rest: seq<Directive>, failing: set<Directive>)
    ensures Chain([first] + rest, failing) ==
      if first !in failing then [Attempt(first, failing)] else [Attempt(first, failing)] + Chain(rest, failing)
  {
    assert ([first] + rest)[1..] == rest;
  }

  /** A page of a single plan makes that plan's calls. */
  lemma SinglePlanCalls(plan: seq<Directive>, failing: set<Directive>)
    ensures GridCalls([plan], 1, failing) == Chain(plan, failing)
    ensures |plan| == 1 ==> Chain(plan, failing) == [Attempt(plan[0], failing)]
  {
    assert GridCalls([plan], 0, failing) == [];
    if |plan| == 1 {
      assert plan[1..] == [];
    }
  }

  /** A run whose report cannot be created makes that one call. */
  lemma RunRefused(env: Env)
    requires env.Valid() && CreateReport(env.outputDir, env.reportName) in env.failing
    ensures Run(env) == Outcome([Attempt(CreateReport(env.outputDir, env.reportName), env.failing)], false)
  {
  }

  /** The calls of a run whose report was created: the report, the set-up calls, then the pages. */
  lemma AssembleLog(create: Call, sources: seq<Call>, dates: Call, pages: Outcome,
                    log0: seq<Call>, afterCreate: seq<Call>, afterSources: seq<Call>, beforePages: seq<Call>,
                    log: seq<Call>)
    requires create.ok
    requires afterCreate == log0 + [create]
    requires afterSources == afterCreate + sources
    requires beforePages == afterSources + [dates]
    requires log == beforePages + pages.calls
    ensures log == log0 + Assemble(create, sources, dates, pages).calls
    ensures Assemble(create, sources, dates, pages).completed == pages.completed
  {
    Regroup([create], sources, [dates], pages.calls);
  }

  /** The plan of the `i`-th of one to four worksheets is its plan in its slot. */
  lemma GridPlanAt(env: Env, names: seq<string>, pageId: string, i: nat)
    requires i < |names| <= 4
    ensures |GridPlans(env, Placements(names), pageId)| == |names|
    ensures GridPlans(env, Placements(names), pageId)[i] == WorksheetPlan(env, names[i], pageId, Slot(|names|, i))
  {
  }

  /** One more worksheet of a page after the earlier ones. */
  lemma GridLogNext(plans: seq<seq<Directive>>, i: nat, failing: set<Directive>,
                    log0: seq<Call>, prev: seq<Call>, log: seq<Call>)
    requires i < |plans|
    requires prev == log0 + GridCalls(plans, i, failing)
    requires log == prev + Chain(plans[i], failing)
    ensures log == log0 + GridCalls(plans, i + 1, failing)
  {
    GridCallsStep(plans, i, failing);
    Regroup3(log0, GridCalls(plans, i, failing), Chain(plans[i], failing));
  }

  /** The title and the plans of the page of the `i`-th worksheet. */
  lemma WorksheetPageAt(env: Env, keys: seq<string>, i: nat)
    requires i < |keys| && forall key :: key in keys ==> key in env.worksheets.entries
    ensures |WorksheetTitles(env, keys)| == |WorksheetPlans(env, keys)| == |keys|
    ensures WorksheetTitles(env, keys)[i] == env.worksheets.entries[keys[i]].title
    ensures WorksheetPlans(env, keys)[i] == AlonePlans(env, keys[i], i + 1)
  {
  }

  /** One more page after a run of completed pages. */
  lemma PageLogNext(titles: seq<string>, plans: seq<seq<seq<Directive>>>, i: nat, failing: set<Directive>,
                    log0: seq<Call>, prev: seq<Call>, log: seq<Call>)
    requires i < |titles| == |plans|
    requires PageRun(titles, plans, i, failing).completed
    requires prev == log0 + PageRun(titles, plans, i, failing).calls
    requires log == prev + Page(titles[i], i + 1, |titles|, plans[i], failing).calls
    ensures log == log0 + PageRun(titles, plans, i + 1, failing).calls
    ensures PageRun(titles, plans, i + 1, failing).completed == Page(titles[i], i + 1, |titles|, plans[i], failing).completed
  {
    var before := PageRun(titles, plans, i, failing);
    var page := Page(titles[i], i + 1, |titles|, plans[i], failing);
    assert PageRun(titles, plans, i + 1, failing) == Outcome(before.calls + page.calls, page.completed) by {
      PageRunStep(titles, plans, i, failing);
    }
    Regroup3(log0, before.calls, page.calls);
  }

  /** Once a page could not be added, later pages add nothing. */
  lemma {:induction false} PageRunStays(titles: seq<string>, plans: seq<seq<seq<Directive>>>, k: nat, n: nat,
                                        failing: set<Directive>)
    requires k <= n <= |titles| == |plans|
    requires !PageRun(titles, plans, k, failing).completed
    ensures PageRun(titles, plans, n, failing) == PageRun(titles, plans, k, failing)
    decreases n - k
  {
    if k < n {
      PageRunStep(titles, plans, k, failing);
      PageRunStays(titles, plans, k + 1, n, failing);
    }
  }

  /** The calls of one added page: the page, its worksheets, then its navigation. */
  lemma PageLog(prev: seq<Call>, title: string, k: nat, total: nat, plans: seq<seq<Directive>>,
                failing: set<Directive>, log: seq<Call>)
    requires PageFor(title) !in failing
    requires log == prev + [Attempt(PageFor(title), failing)] + GridCalls(plans, |plans|, failing)
      + Each(NavButtons(k, total), failing)
    ensures log == prev + Page(title, k, total, plans, failing).calls
    ensures Page(title, k, total, plans, failing).completed
  {
    PageAdded(title, k, total, plans, failing);
    Regroup(prev, [Attempt(PageFor(title), failing)], GridCalls(plans, |plans|, failing),
      Each(NavButtons(k, total), failing));
  }

  lemma PageAdded(title: string, k: nat, total: nat, plans: seq<seq<Directive>>, failing: set<Directive>)
    requires PageFor(title) !in failing
    ensures Page(title, k, total, plans, failing) ==
      Outcome([Attempt(PageFor(title), failing)] + GridCalls(plans, |plans|, failing)
        + Each(NavButtons(k, total), failing), true)
  {
  }

  lemma Regroup(a: seq<Call>, b: seq<Call>, c: seq<Call>, d: seq<Call>)
    ensures a + b + c + d == a + (b + c + d)
  {
  }

  lemma Regroup3(a: seq<Call>, b: seq<Call>, c: seq<Call>)
    ensures a + b + c == a + (b + c)
  {
  }
}
