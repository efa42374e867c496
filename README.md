# Tableau to Power BI converter — a Dafny model of its core

The converter takes a packaged Tableau workbook (`.twbx`) and builds a Power BI
report from it. Its core is in `app.py`. It has two classes and two free
functions:

* `TableauWorkbookParser` reads the workbook document. It fills four
  dictionaries: data sources with their columns, worksheets, dashboards, and a
  mapping from workbook data-source names to the data files embedded in the
  package. Each worksheet gets a chart type (map, pie, line, bar, table or
  column chart) and its columns sorted into visual roles (x axis, y axis,
  colour, size, label, filter).
* `PowerBIConverter` turns those dictionaries into calls on the Power BI
  library:
  * the report;
  * its data sources;
  * a date table;
  * one page per dashboard, else one per worksheet, else a generic page;
  * on every page, up to four visuals in a fixed grid, plus previous/next
    navigation buttons.

  Every visual resolves its data file and chooses its two axis variables. It
  then tries the chart its type calls for, falling back through a shape map
  and a column chart to a placeholder text box.
* `_clean_column_name` reduces a qualified Tableau column identifier such as
  `[Datasource].[Sum:Sales]` to `Sales`.
* `allowed_file` accepts only `.twbx` uploads.

The model keeps the shape of the code.

* **What becomes functions.** Expression-level logic becomes Dafny functions,
  with lemmas stating what they guarantee. That covers the chart-type
  classifier, the column-role rules, the regular expression of
  `_clean_column_name` (leftmost match, backtracking), data-file resolution,
  axis selection, the grid and the navigation links.
* **What becomes classes.** The two stateful classes become Dafny classes,
  whose loops carry invariants:
  * `Parser.WorkbookParser` fills its dictionaries field by field. Each method
    is proved to leave exactly the state that the functions of
    `WorkbookModel` and `DataFiles` describe.
  * `Converter.PowerBIConverter` appends every library call to a `log`. Each
    method is proved to make exactly the calls that the functions of `Emitter`
    describe.

  Through those methods, the properties proved in `WorkbookModel`,
  `DataFiles` and `Emitter` hold of what the objects actually do.
* **Dictionaries.** Python dictionaries keep insertion order, and that order
  decides which page comes first and which data file is the fallback. They are
  modelled as `Dicts.Dict`: a key sequence plus a map.
* **Library calls.** A call into the Power BI library is a `Directives.Directive`
  record of the arguments the converter chooses. Whether the library raises on
  a call is an input: the set `failing`. Each `try`/`except` of the source
  becomes one of two combinators:
  * `Each`: independent calls whose failures are ignored;
  * `Chain`: a sequence of fallbacks, tried in order until one succeeds.

## Model

| member | source | states |
|---|---|---|
| `Xml.Get` | app.py:175 | `e.get(name, default)` is the attribute's value when present, else the default |
| `Xml.FindAll` | app.py:174 | `findall(".//t")` lists exactly the descendants tagged `t` |
| `Xml.Find` | app.py:303 | `find(".//t")` is absent exactly when `findall` is empty, and otherwise is its first element |
| `Xml.FindAllWhere` | app.py:322 | `.//t[@a='v']` keeps exactly the `t` descendants whose attribute `a` is `v` |
| `Xml.FindAllBeneathAppend` | app.py:337 | the matches beneath two runs of outer elements are those of the first run followed by those of the second |
| `Xml.FindAllPath` | app.py:337 | `.//outer//inner` yields only `inner` elements, and exactly the `inner` elements beneath some `outer` match |
| `Xml.FindAllPathOrder` | app.py:337 | `.//outer//inner` lists the matches outer element by outer element in document order: those beneath an `outer` match come after those beneath every earlier one and before those beneath every later one |
| `Xml.FindAllPathWhere` | app.py:357 | `.//outer[@a='v']//inner` yields only `inner` elements, and exactly the `inner` elements beneath some filtered `outer` match |
| `Xml.FindAllPathWhereOrder` | app.py:357 | the same document order for a filtered outer step |
| `Dicts.Dict.Put` | app.py:177-181 | assigning a key keeps the key order, appending the key only if it is new, and maps it to the new value |
| `Dicts.Dict.Values` | app.py:385 | `values()` lists one value per key, in key order |
| `Dicts.PutTwice` | app.py:215-216 | updating an entry twice is one assignment of the final value |
| `Dicts.PutAllKeys` | app.py:174-181 | after a series of assignments, the keys are exactly the assigned keys, each once |
| `Dicts.PutAllLastWins` | app.py:74-75 | a key holds the value of its last assignment |
| `Dicts.PutAllOrder` | app.py:174-181 | keys stand in the order of their first assignment |
| `Sequences.Dedup` | app.py:213-216 | the `if x not in lst: append` idiom yields distinct values, exactly those of the input |
| `Sequences.DedupOrder` | app.py:213-216 | the kept values stand in the order of their first appearance |
| `DataFiles.FileKey` | app.py:74 | a data file's key is its lowered stem, never longer than its name |
| `DataFiles.KeyFiles` | app.py:68-86 | the copied files keyed by lowered stem; its contract is stated by `DataFiles.KeyFilesKeys` and `DataFiles.KeyFilesLastWins` |
| `DataFiles.KeyFilesKeys` | app.py:68-86 | the extracted keys are exactly the lowered stems of the copied files |
| `DataFiles.KeyFilesLastWins` | app.py:74-75 | a key holds the copied path of the last file with that stem |
| `DataFiles.ArchiveSearchedOnlyWhenDataDirEmpty` | app.py:88-100 | the whole archive is searched only when the `Data` directory gave no file |
| `DataFiles.FirstOverlapping` | app.py:123-127 | the connection heuristic picks a key that contains the connection's file stem or is contained in it, and is absent only when no key does |
| `DataFiles.FirstContainedIn` | app.py:146-150 | the column heuristic picks a key contained in the table part, and is absent only when no key is |
| `DataFiles.ConnectionWrite` | app.py:109-127 | one connection assigns at most once, always to a named data source and an extracted key |
| `DataFiles.ConnectionWrites` | app.py:109-127 | every assignment of the connection pass targets an extracted key |
| `DataFiles.FirstSegment` | app.py:143-145 | `split('.')[0]` is the dot-free prefix that ends at the first dot |
| `DataFiles.ColumnWrite` | app.py:138-150 | one column reference assigns at most once, for its own data source, to an extracted key |
| `DataFiles.ColumnWrites` | app.py:138-150 | every assignment of a dependency's columns is for that data source and targets an extracted key |
| `DataFiles.DependencyWrites` | app.py:134-150 | a dependency's assignments target extracted keys for named data sources |
| `DataFiles.DependenciesWrites` | app.py:134-150 | the same for all of a worksheet's dependencies |
| `DataFiles.WorksheetWrites` | app.py:130-150 | a worksheet's assignments target extracted keys for named data sources |
| `DataFiles.WorksheetsWrites` | app.py:130-150 | the same for every worksheet |
| `DataFiles.MappingWrites` | app.py:104-150 | every assignment of the whole mapping pass targets an extracted key |
| `DataFiles.LastWrite` | app.py:125 | the last assignment to a name, when there is one, is among the assignments made |
| `DataFiles.ApplyWrites` | app.py:104-150 | the mapping after a series of assignments; its contract is stated by `DataFiles.ApplyWritesAt` and `DataFiles.LaterWritesWin` |
| `DataFiles.ApplyWritesAt` | app.py:104-150 | after the pass, a name maps to its last assigned key, or keeps its old entry if never assigned |
| `DataFiles.MappingIdempotent` | app.py:104-150 | running the mapping pass twice gives the same mapping as running it once |
| `DataFiles.MappingTargetsAreFileKeys` | app.py:104-150 | every entry the pass writes names an extracted key, and unwritten entries are kept |
| `DataFiles.ColumnHeuristicOverrides` | app.py:109-150 | the column-reference pass runs after the connection pass and assigns unconditionally, so its assignment replaces whatever the connection pass chose |
| `DataFiles.LaterWritesWin` | app.py:125-148 | an assignment made later wins over any made earlier |
| `WorkbookModel.ParsedColumn` | app.py:184-191 | a column's caption defaults to its name and its type to "string" |
| `WorkbookModel.ParsedColumns` | app.py:184-191 | only named columns are recorded |
| `WorkbookModel.ParsedDataSource` | app.py:177-181 | a data source's caption defaults to its name |
| `WorkbookModel.DataSourceEntries` | app.py:174-181 | unnamed data sources are skipped, and each entry is keyed by its own name |
| `WorkbookModel.ExtractTitle` | app.py:301-308 | the title is the first `title` element's caption when non-empty, else the worksheet name |
| `WorkbookModel.UsedDataSources` | app.py:212-216 | a worksheet's data sources are distinct and are exactly its dependencies' names |
| `WorkbookModel.ParsedWorksheet` | app.py:194-219 | a new worksheet entry has the classifier's chart type, the extracted roles and no position |
| `WorkbookModel.WorksheetEntries` | app.py:194-219 | unnamed worksheets are skipped, and each entry is keyed by its own name |
| `WorkbookModel.PlacedSheets` | app.py:235-239 | a dashboard lists distinct, named, known worksheets |
| `WorkbookModel.PlacedSheetsIsDedup` | app.py:235-239 | a dashboard's list is the zone names, restricted to known worksheets, with repeats dropped |
| `WorkbookModel.PlacedSheetsMembers` | app.py:235-239 | a dashboard lists exactly the known worksheets that some zone names |
| `WorkbookModel.PlacedSheetsOrder` | app.py:235-239 | worksheets are listed in the order their first zone appears |
| `WorkbookModel.ZonePosition` | app.py:241-247 | a missing zone coordinate reads "0" |
| `WorkbookModel.DashboardSize` | app.py:228-231 | the size comes from the first `size` element, "800" by "600" by default |
| `WorkbookModel.ParsedDashboard` | app.py:225-233 | a dashboard's title defaults to its name |
| `WorkbookModel.DashboardEntries` | app.py:222-233 | unnamed dashboards are skipped, and each entry lists distinct known worksheets |
| `WorkbookModel.PlaceZones` | app.py:235-248 | recording positions keeps the worksheet keys and their order |
| `WorkbookModel.PlaceAll` | app.py:222-248 | the same across all dashboards |
| `WorkbookModel.PlaceZonesAt` | app.py:235-248 | a listed worksheet gets the rectangle of the first zone naming it, with everything else kept; an unlisted one is untouched |
| `Classifier.DetermineChartType` | app.py:257-299 | `_determine_chart_type`: the first signal in priority order decides the kind; its contract is stated by `Classifier.PriorityOrder` and `Classifier.MapIff` |
| `Classifier.LocationNames` | app.py:269-272 | only names containing a location term are collected |
| `Classifier.UsedNames` | app.py:275-280 | only non-empty names are collected |
| `Classifier.LocationNamesAreUsed` | app.py:267-283 | every geographic column name is also among the used names |
| `Classifier.LocationNamesIff` | app.py:267-272 | location names exist exactly when some `column` has a name containing a location term |
| `Classifier.LocationSignalIff` | app.py:267-283 | the two-part location test amounts to a geographic `column` name being present |
| `Classifier.MapIff` | app.py:257-283 | a worksheet is a map exactly when it has a map element or a geographic column name |
| `Classifier.MapOutranksPie` | app.py:259-287 | the map signal outranks the pie signal |
| `Classifier.PriorityOrder` | app.py:257-299 | each other kind is chosen exactly when its own signal is present and no higher one is; a column chart when none is present |
| `RoleExtraction.NamesOf` | app.py:336-378 | a shelf collects exactly the non-empty names of its columns, never more names than columns |
| `RoleExtraction.NamesOfOne` | app.py:336-344 | one column contributes its name when it has one, and nothing otherwise |
| `RoleExtraction.NamesOfAppend` | app.py:336-378 | names keep the order of their columns: the names of two runs of columns are those of the first followed by those of the second |
| `RoleExtraction.ShelfRoles` | app.py:320-378 | each role lists the names of its shelf's or encoding's columns in document order; stated by `RoleExtraction.NamesOf`, `RoleExtraction.NamesOfAppend` and `Xml.FindAllPathOrder` |
| `RoleExtraction.Enrich` | app.py:385-400 | the keyword enrichment; its contract is stated by `RoleExtraction.EnrichOnlyAppends`, `RoleExtraction.EnrichColor` and `RoleExtraction.EnrichYAxis` |
| `RoleExtraction.ColumnRoles` | app.py:310-400 | the shelf roles, enriched over every data-source column; stated through `RoleExtraction.ShelfRoles` and `RoleExtraction.Enrich` |
| `RoleExtraction.EnrichOnlyAppends` | app.py:385-400 | enrichment leaves the x, size, label and filter lists alone and only extends colour and y |
| `RoleExtraction.EnrichColor` | app.py:390-394 | colour gains exactly the location-captioned columns it lacked, each once |
| `RoleExtraction.FirstMeasure` | app.py:396-399 | the first measure-captioned column, if any |
| `RoleExtraction.EnrichYAxis` | app.py:396-399 | y gains only the first measure-captioned column, and only when it was empty |
| `ColumnNames.RunEnd` | app.py:1030 | the greedy run `[^\[\]]+` stops at a bracket or at the end |
| `ColumnNames.LineEnd` | app.py:1030 | the greedy run `.*` stops at a newline or at the end |
| `ColumnNames.TailMatch` | app.py:1030 | the tail `\[?([^\[\]]+)\]?$` succeeds only when the group is non-empty and bracket-free |
| `ColumnNames.StarMatch` | app.py:1030 | the whole pattern tried from one position, with the repetition first as the engine tries it |
| `ColumnNames.TryRepetition` | app.py:1030 | a `\[.*\]\.` repetition, with `.*` backtracking from the longest run |
| `ColumnNames.Search` | app.py:1030 | `re.search` returns the first start position at which the pattern matches |
| `ColumnNames.StripAggregation` | app.py:1034 | one leading `Sum:`/`Avg:`/`Min:`/`Max:`/`Count:` token is removed |
| `ColumnNames.CleanColumnName` | app.py:1026-1036 | the result is the group of the first match, with the aggregation removed, or the input when nothing matches |
| `ColumnNames.PlainName` | app.py:1026-1036 | a bracket-free name is its own group: `Sum:Sales` cleans to `Sales` |
| `ColumnNames.BracketedName` | app.py:1026-1036 | `[c]` cleans to `c` without its aggregation |
| `ColumnNames.QualifiedName` | app.py:1026-1036 | `[d].[c]` cleans to `c` without its aggregation |
| `ColumnNames.CleanNameDocExample` | app.py:1029 | the source's own example `[Datasource].[Sum:Sales]` cleans to `Sales` |
| `ColumnNames.CleanNameBracketExample` | app.py:1026-1036 | a single bracketed segment loses its brackets |
| `ColumnNames.CleanNameUnbracketedTail` | app.py:1026-1036 | in `[a].b` the repetition consumes `[a].`, leaving `b` |
| `ColumnNames.StripAggregationOnce` | app.py:1034 | only one aggregation token is removed, never a second |
| `ColumnNames.MatchesIffTailMatches` | app.py:1030-1036 | the pattern matches exactly when the tail matches at some position, and the group is one the tail found |
| `Axes.ChooseX` | app.py:728-755 | the x search; its contract is stated by `Axes.ChooseXFromFile` and `Axes.DimensionNamesFirst` |
| `Axes.ChooseY` | app.py:757-782 | the y search; its contract is stated by `Axes.ChooseYFromFile` and `Axes.MeasureNamesFirst` |
| `Axes.Analyse` | app.py:720-797 | the data-file analysis; its contract is stated by `Axes.AnalyseKeepsPresent`, `Axes.AnalyseDrawsFromFile` and `Axes.AnalyseAvoidsSameColumn` |
| `Axes.DefaultAxesAsWritten` | app.py:799-806 | the placeholder step as written; its contract is stated by `Axes.DefaultAxesAsWrittenGuard` |
| `Axes.FirstMeetingIndex` | app.py:742-747 | the `for … break` loops find the first qualifying column |
| `Axes.AllMeetingHead` | app.py:729-737 | a candidate list has a head exactly when some column qualifies, and that head is the first such column |
| `Axes.DefaultAxes` | app.py:799-806 | corrected placeholders: the two axes are non-empty and differ, a present x is kept, and a present y differing from x is kept |
| `Axes.DefaultAxesAsWrittenGuard` | app.py:799-806 | as written, the axes are non-empty and differ unless x is "Value" |
| `Axes.CorrectionOnlyWhereSame` | app.py:804-806 | the correction changes the result only where the written guard leaves ("Value", "Value") |
| `Axes.SameAxesAsWritten` | app.py:705-806 | a worksheet with `[Bees].[Sum:Value]` on its columns shelf and `[Bees].[Value]` on its rows shelf is drawn with ("Value", "Value"), whatever its data file; the intended guard would give ("Value", "Count") |
| `Axes.SameCleanName` | app.py:1026-1036 | both identifiers of that example clean to "Value" |
| `Axes.CleanPlainValue` | app.py:1026-1036 | `[Bees].[Value]` cleans to "Value" |
| `Axes.CleanSumValue` | app.py:1026-1036 | `[Bees].[Sum:Value]` cleans to "Value" |
| `Axes.ChosenAxes` | app.py:705-806 | the variables `_add_worksheet_to_page` draws with, guard as written; its contract is stated by `Axes.ChosenAxesDiffer` and `Axes.SameAxesAsWritten` |
| `Axes.ChosenAxesDiffer` | app.py:705-806 | every visual gets two non-empty axis variables, and they are equal only when both are "Value" |
| `Axes.ChosenAxesIntended` | app.py:804-806 | the same choice with the guard as evidently intended (the corrected half of the finding below); stated by `Axes.ChosenAxesIntendedDiffer` |
| `Axes.ChosenAxesIntendedDiffer` | app.py:804-806 | with the intended guard the two variables always differ, and the result departs from the code only where the code gives ("Value", "Value") |
| `Axes.AnalyseKeepsPresent` | app.py:720-797 | the analysis never replaces a present x, and replaces a present y only by the same-column rule |
| `Axes.ChooseXFromFile` | app.py:728-755 | the x search keeps x or picks a header of the file |
| `Axes.ChooseYFromFile` | app.py:757-782 | the y search keeps y or picks a header of the file |
| `Axes.AnalyseDrawsFromFile` | app.py:720-797 | every variable the analysis supplies is a header of the data file it read |
| `Axes.AnalyseAvoidsSameColumn` | app.py:784-793 | equal variables survive the re-read only when no other numeric column exists |
| `Axes.DimensionNamesFirst` | app.py:728-738 | a missing x is taken from the first header naming a dimension |
| `Axes.MeasureNamesFirst` | app.py:757-767 | a missing y is taken from the first header naming a measure, unless it equals x and another numeric column exists |
| `Axes.FindFirst` | app.py:742-747 | the loop returns the first column meeting the criterion |
| `Axes.CollectMeeting` | app.py:729-734 | the loop collects every qualifying header, in order |
| `Axes.SearchX` | app.py:728-755 | the x search loops compute the x-axis choice |
| `Axes.SearchY` | app.py:757-782 | the y search loops compute the y-axis choice |
| `Axes.AnalyseAxes` | app.py:720-797 | the analysis block, including the re-read and the `except`, computes the analysis |
| `Layout.Placements` | app.py:613-650 | the grid slots of a page's worksheets; its contract is stated by `Layout.PlacementsTable` and `Layout.PlacementsDoNotOverlap` |
| `Layout.PlacementsTable` | app.py:613-650 | slots: one worksheet takes the full slot, two sit side by side, three or four fill the 2x2 grid, and only the first four are placed |
| `Layout.PlacementsDoNotOverlap` | app.py:634-641 | no two placed worksheets overlap, and none reaches the navigation band |
| `Layout.ParseNatToString` | app.py:447 | reading back the decimal text of `n` gives `n` |
| `Layout.PageIdInjective` | app.py:447 | `page{m}` equals `page{n}` exactly when `m == n` |
| `Layout.PageName` | app.py:448 | the page name made from a title; its contract is stated by `Layout.PageNameSanitised` |
| `Layout.PageNameSanitised` | app.py:448 | a page name has at most 20 ASCII letters or digits, and a title already of that form is kept |
| `Layout.NavButtons` | app.py:463-497 | the previous and next buttons of page `n`; its contract is stated by `Layout.NavigationLinks` |
| `Layout.NavigationLinks` | app.py:464-497 | page `n` links exactly to its neighbours, and every button sits on page `n` inside the navigation band |
| `Directives.Attempt` | app.py:466-479 | a call fails exactly when the library raises on it |
| `Directives.Each` | app.py:595-611 | independent calls attempt every directive, in order |
| `Directives.ChainMeaning` | app.py:881-883 | a fallback chain attempts a prefix of its candidates in order, and stops early only at a success |
| `Directives.AtMostOneSuccess` | app.py:851-880 | a chain makes at most one successful call, and it is the last |
| `Directives.ChainFrom` | app.py:851-880 | a chain issues only its candidates |
| `Directives.ChainEnds` | app.py:881-883 | a chain ends in a success or at its last candidate |
| `Emitter.ResolveSource` | app.py:668-703 | the data file a worksheet draws from; its contract is stated by `Emitter.ResolutionOrder` |
| `Emitter.ResolutionOrder` | app.py:668-703 | the source is the mapped key, else the first key overlapping the short name, else the first key; there is no source exactly when the name is unmapped and there are no files |
| `Emitter.FirstOverlappingIsFirst` | app.py:677-682 | the overlap search returns the first overlapping key |
| `Emitter.CleanAll` | app.py:819-820 | every column is cleaned, position by position |
| `Emitter.FirstPlaceMeaning` | app.py:819-824 | the location search finds the first cleaned name containing a location term, or none when no name does |
| `Emitter.FirstPlaceOfEither` | app.py:817-832 | searching colour first and then x, y and labels is the same as searching their concatenation |
| `Emitter.LocationColumn` | app.py:817-832 | the location column of a map; its contract is stated by `Emitter.LocationColumnMeaning` |
| `Emitter.LocationColumnMeaning` | app.py:817-832 | the location column is a place drawn from colour, x, y or labels; it comes from colour whenever colour has one; it is absent exactly when none does |
| `Emitter.VisualCandidates` | app.py:812-980 | the fallback chain of a visual; its contract is stated by `Emitter.VisualCandidatesPlaced`, `Emitter.MapChoice` and `Emitter.ChartChoice` |
| `Emitter.VisualCandidatesPlaced` | app.py:814-980 | every candidate is drawn in the slot, only the last is the placeholder, and charts plot x against y from the source |
| `Emitter.MapChoice` | app.py:814-883 | a map uses a filled map when a location exists, else a shape map on x when the file exists, then a column chart |
| `Emitter.ChartChoice` | app.py:885-980 | a pie has no axis titles, a bar swaps them, line and column title x and y, and a table is a table |
| `Emitter.PlanForMeaning` | app.py:668-980 | a resolved worksheet always tries something, all in its slot, ending with its placeholder |
| `Emitter.WorksheetPlan` | app.py:652-980 | what `_add_worksheet_to_page` tries; its contract is stated by `Emitter.WorksheetPlanMeaning`, `Emitter.WorksheetPlanSource` and `Emitter.WorksheetCallsEnd` |
| `Emitter.WorksheetPlanMeaning` | app.py:652-666 | a worksheet gets nothing exactly when it is unknown or has no data source |
| `Emitter.WorksheetPlanSource` | app.py:687-703 | with no data file, only the text box saying so is tried; otherwise every chart draws from the resolved source |
| `Emitter.WorksheetCallsEnd` | app.py:652-1024 | a tried worksheet ends with a successful call or an attempt at its placeholder |
| `Emitter.PlaceholderChainEnds` | app.py:1008-1024 | a chain whose only text box is its last candidate ends in success or at the placeholder |
| `Emitter.WorksheetPlanOnPage` | app.py:652-980 | everything a worksheet tries is drawn on its page |
| `Emitter.GridPlansOnPage` | app.py:613-650 | a page's worksheets all draw on that page |
| `Emitter.GridCallsOnPage` | app.py:613-650 | every call of a page's worksheets draws on that page |
| `Emitter.DashboardPlansOnPage` | app.py:443-461 | dashboard `k` draws only on page `k` |
| `Emitter.WorksheetPlansOnPage` | app.py:499-517 | worksheet page `k` draws only on page `k` |
| `Emitter.PagesFor` | app.py:452-457 | the pages added for the titles, one per title, in order |
| `Emitter.Page` | app.py:447-497 | one page with its worksheets and navigation; its contract is stated by `Emitter.PageMeaning` |
| `Emitter.PageMeaning` | app.py:452-497 | a page starts with `add_new_page`, completes exactly when that succeeds, then makes no other call, and adds no other page |
| `Emitter.PageRun` | app.py:446-552 | the page loop; its contract is stated by `Emitter.PageRunMeaning` |
| `Emitter.PageRunMeaning` | app.py:446-497 | pages stop exactly at the first page that cannot be added; when all are added, they are the titles' pages in order |
| `Emitter.GenericPageMeaning` | app.py:554-578 | the generic page adds its page and, when that succeeds, the information text box |
| `Emitter.SourceDirective` | app.py:598-609 | a copied file becomes a CSV source, an Excel source, or nothing |
| `Emitter.SourceDirectivesAreSources` | app.py:595-611 | every source directive adds a CSV or Excel source |
| `Emitter.SourceDirectiveKinds` | app.py:604-609 | `.csv` files become CSV sources, `.xlsx`/`.xls` files become Excel sources, and other files become nothing |
| `Emitter.PagesMeaning` | app.py:443-578 | the pages step ends at a failed page or adds the planned pages |
| `Emitter.SourcesAddNoPage` | app.py:587-611 | the data-source calls add no page |
| `Emitter.AssembleMeaning` | app.py:425-441 | page-free set-up calls between the report and its pages keep the pages' invariant |
| `Emitter.Run` | app.py:421-585 | `create_dashboard`; its contract is stated by `Emitter.RunMeaning` |
| `Emitter.RunMeaning` | app.py:421-585 | a run completes exactly when the report and every page were added; a completed run adds the planned pages in order |
| `Parser.WorkbookParser.constructor` | app.py:25-32 | a new parser has empty dictionaries and an empty mapping |
| `Parser.WorkbookParser.ExtractDataSources` | app.py:56-158 | returns the keyed files; with a document, the mapping is the result of the mapping pass, and without one it is unchanged |
| `Parser.WorkbookParser.CopyFiles` | app.py:68-86 | the copy loop computes the keyed files |
| `Parser.WorkbookParser.MapByConnections` | app.py:109-127 | the connection loop makes exactly the connection assignments |
| `Parser.WorkbookParser.MapByColumnReferences` | app.py:130-150 | the worksheet loop makes exactly the column-reference assignments |
| `Parser.WorkbookParser.MapDependencies` | app.py:134-150 | the dependency loop makes exactly its assignments |
| `Parser.WorkbookParser.MapDependencyColumns` | app.py:138-150 | the column loop makes exactly its assignments |
| `Parser.WorkbookParser.ParseWorkbook` | app.py:160-255 | fails exactly without a document; otherwise it fills data sources, worksheets and dashboards as the model says |
| `Parser.WorkbookParser.ParseDataSources` | app.py:174-191 | the data-source loop assigns each named data source |
| `Parser.WorkbookParser.ParseColumns` | app.py:184-191 | the column loop collects the named columns |
| `Parser.WorkbookParser.ParseWorksheets` | app.py:194-219 | the worksheet loop assigns each named worksheet |
| `Parser.WorkbookParser.ParseWorksheet` | app.py:197-219 | one worksheet entry with its title, chart type, data sources and roles |
| `Parser.WorkbookParser.RecordDependencies` | app.py:213-216 | the dependency loop sets the de-duplicated data-source names |
| `Parser.WorkbookParser.ExtractColumnRoles` | app.py:310-400 | the worksheet's roles become the shelf roles, enriched |
| `Parser.WorkbookParser.ReadShelves` | app.py:320-378 | the shelf and encoding loops compute the shelf roles |
| `Parser.WorkbookParser.EnrichRoles` | app.py:385-400 | the enrichment loops compute the enriched roles |
| `Parser.WorkbookParser.CollectNames` | app.py:321-326 | the loop collects the non-empty names |
| `Parser.WorkbookParser.ParseDashboards` | app.py:222-248 | the dashboard loop assigns each named dashboard and records its zones' positions |
| `Parser.WorkbookParser.ParseDashboard` | app.py:223-248 | one dashboard entry with its size defaults and its listed worksheets |
| `Parser.WorkbookParser.RecordZones` | app.py:235-248 | the zone loop lists each known worksheet once and records its position |
| `Converter.PowerBIConverter.constructor` | app.py:413-419 | the converter holds the parser's dictionaries and an empty log |
| `Converter.PowerBIConverter.Invoke` | app.py:427 | one library call, which fails exactly when the library raises |
| `Converter.PowerBIConverter.CreateDashboard` | app.py:421-585 | makes exactly the calls of `Run`, and returns the report path exactly when the run completes |
| `Converter.PowerBIConverter.AddPages` | app.py:443-578 | makes the pages of dashboards, else worksheets, else the generic page |
| `Converter.PowerBIConverter.AddDashboardPages` | app.py:443-497 | makes one page per dashboard |
| `Converter.PowerBIConverter.AddDashboardPagesOf` | app.py:446-497 | the dashboard loop makes the page run and stops at a failed page |
| `Converter.PowerBIConverter.AddDashboardPage` | app.py:447-497 | one dashboard page: the page, its grid, then its navigation |
| `Converter.PowerBIConverter.AddWorksheetPages` | app.py:499-552 | makes one page per worksheet |
| `Converter.PowerBIConverter.AddWorksheetPagesOf` | app.py:502-552 | the worksheet loop makes the page run and stops at a failed page |
| `Converter.PowerBIConverter.AddWorksheetPage` | app.py:503-552 | one worksheet page: the page, the worksheet in the full slot, then its navigation |
| `Converter.PowerBIConverter.AddGenericPage` | app.py:554-578 | the generic page and its text box |
| `Converter.PowerBIConverter.AddNavigation` | app.py:463-497 | attempts the page's navigation buttons independently |
| `Converter.PowerBIConverter.AddDataSources` | app.py:587-611 | makes the data-source calls, and none without data files |
| `Converter.PowerBIConverter.AddSourceFiles` | app.py:595-611 | the file loop attempts each file's source directive |
| `Converter.PowerBIConverter.AddDataSource` | app.py:596-611 | one file's source directive |
| `Converter.PowerBIConverter.AddWorksheetsToPage` | app.py:613-650 | makes the calls of the grid's worksheet plans, in slot order |
| `Converter.PowerBIConverter.AddToGrid` | app.py:621-645 | the one-, two- and four-slot cases |
| `Converter.PowerBIConverter.AddSlot` | app.py:643-645 | one more worksheet of the grid |
| `Converter.PowerBIConverter.AddWorksheetToPage` | app.py:652-980 | makes exactly the worksheet plan's fallback chain |
| `Converter.PowerBIConverter.ChooseAxes` | app.py:705-806 | computes `Axes.ChosenAxes`, with the guard as written: both variables are non-empty, and they differ unless x is "Value" |
| `Converter.PowerBIConverter.AddVisual` | app.py:812-980 | the dispatch on chart type makes the candidates' chain |
| `Converter.PowerBIConverter.AddMapVisual` | app.py:814-883 | the map branch |
| `Converter.PowerBIConverter.AddMapAt` | app.py:834-883 | the map, shape-map and column-chart fallbacks, given the location found |
| `Converter.PowerBIConverter.AddChartOrFallback` | app.py:885-975 | a chart, with the placeholder when it raises |
| `Converter.PowerBIConverter.FindLocation` | app.py:817-832 | finds the model's location column |
| `Converter.PowerBIConverter.AddColumnChart` | app.py:982-1006 | a column chart, with the placeholder when it raises |
| `Converter.PowerBIConverter.AddFallbackViz` | app.py:1008-1024 | attempts the placeholder text box once |
| `Converter.FirstPlaceOf` | app.py:819-824 | the loop returns the first cleaned name naming a place |
| `Uploads.AllowedFile` | app.py:1057-1058 | `allowed_file`; its contract is stated by `Uploads.AllowedFileMeaning` and `Uploads.AllowedFileIgnoresCase` |
| `Uploads.AllowedFileMeaning` | app.py:1057-1058 | a name is accepted exactly when it ends with ".twbx", in any letter case |
| `Uploads.AllowedFileIgnoresCase` | app.py:1057-1058 | a name and its lower-cased form are accepted alike |
| `Uploads.AllowedFileExamples` | app.py:1044 | "Sales.TWBX" is accepted; "Sales.twb" and "twbx" are not |

## Left out

- Unzipping the package and locating the `.twb` file (`extract_twbx`), parsing
  the XML, and `cleanup` are file-system and library work. The model takes the
  workbook document as an `Xml.Element` value, or `None` when there is none or
  it cannot be read. It also takes the lists of data files found by the globs
  as inputs, ordered CSV files, then `.xlsx`, then `.xls`.
- Copying files (`shutil.copy2`) and creating directories (`os.makedirs`) are
  not modelled. A copy that raises is not modelled either: it would skip that
  file's source in `_add_data_sources` and end the extraction early in
  `extract_data_sources`.
- Logging is left out. The Flask routes, the background thread of
  `process_file`, the task table, the HTML page and the upload and download
  handlers are web plumbing, not part of the conversion core.
- `pandas.read_csv` is the `tables` input. A path absent from it raises, which
  abandons the axis analysis. Column dtypes, `nunique` and `df.empty` are
  taken as given in each `Axes.Frame` and not computed from file contents.
- The Power BI library (`PBI_dashboard_creator`) is not visible. Each call is
  a `Directive` record, and whether it raises is the `failing` set. Two
  identical calls therefore fail alike.
- Several call arguments are left off the directives, because they are
  constants or the same throughout a run:
  - the report path;
  - the shape-map file name, colour palette and bin breaks;
  - the button height and width (they are kept in the button's rectangle).
- The report name's clock reading (`PBI_<yymmddHHMM>`) is a constructor
  parameter. The existence of the Washington counties shape file is the
  `shapeFileAvailable` input.
- `str.lower()` is ASCII lower-casing. Unicode case mapping is not modelled.
- Paths follow Windows rules: `os.path.join` inserts `\` and
  `os.path.basename` treats both `/` and `\` as separators. On a POSIX system
  `os.path.join` inserts `/`, so the paths given to `add_csv` and `add_excel`
  would differ there. Windows drive prefixes are not modelled.
- `Directives.ChainMeaning` says nothing about the exception text logged at
  each fallback.

## Findings

The converter model draws with the guard as written (`Axes.ChosenAxes`). The
corrected guard is `Axes.DefaultAxes`, and `Axes.ChosenAxesIntended` applies it
to a worksheet.

| source | as written | input that shows it | evidently intended | confidence | as-written member | corrected member |
|---|---|---|---|---|---|---|
| app.py:804-806 | when the two axis variables are equal, y is set to "Value", even when x already is "Value" | a worksheet whose columns shelf holds `[Bees].[Sum:Value]` and rows shelf holds `[Bees].[Value]`: both clean to "Value", no analysis runs, and the chart plots "Value" against "Value" | y replaced by a name different from x ("Count" when x is "Value", as the placeholder rule two lines above does) | not executed | `Axes.SameAxesAsWritten` | `Axes.DefaultAxes` |
