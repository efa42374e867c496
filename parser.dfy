/**
 * `TableauWorkbookParser`: the object that fills its data-source, worksheet,
 * dashboard and data-source-to-file dictionaries from a workbook document,
 * step by step. Each method is proved to leave exactly the state the
 * functions of `WorkbookModel` and `DataFiles` describe.
 */
module Parser {
  import opened Wrappers
  import opened Text
  import opened Xml
  import opened Dicts
  import opened Sequences
  import opened Entities
  import opened Classifier
  import opened RoleExtraction
  import opened DataFiles
  import opened WorkbookModel

  class WorkbookParser {
    var datasources: Dict<DataSource>
    var worksheets: Dict<Worksheet>
    var dashboards: Dict<Dashboard>
    /** Workbook data-source name to data-file key. */
    var dataSourceMapping: map<string, string>

    ghost predicate Valid()
      reads this
    {
      datasources.Valid() && worksheets.Valid() && dashboards.Valid()
    }

    constructor()
      ensures Valid()
      ensures datasources == Empty() && worksheets == Empty() && dashboards == Empty()
      ensures dataSourceMapping == map[]
    {
      datasources := Empty();
      worksheets := Empty();
      dashboards := Empty();
      dataSourceMapping := map[];
    }

    // -------------------------------------------------------------------------
    // extract_data_sources

    /**
     * Copies the data files and keys them by lowered stem (the `Data` directory's
     * files, or the whole archive's when that yields none), then, when the
     * workbook document is available, links data-source names to those keys.
     */
    method ExtractDataSources(dataDirFiles: seq<string>, archiveFiles: seq<string>, outDir: string, doc: Option<Element>)
      returns (files: Dict<string>)
      modifies this`dataSourceMapping
      ensures files == ExtractedFiles(dataDirFiles, archiveFiles, outDir)
      ensures doc.None? ==> dataSourceMapping == old(dataSourceMapping)
      ensures doc.Some? ==> dataSourceMapping == ApplyWrites(old(dataSourceMapping), MappingWrites(doc.value, files.keys))
    {
      files := CopyFiles(dataDirFiles, outDir);
      if files.keys == [] {
        files := CopyFiles(archiveFiles, outDir);
      }
      if doc.Some? {
        var root := doc.value;
        ghost var m0 := dataSourceMapping;
        MapByConnections(FindAll(root, "connection"), files.keys);
        MapByColumnReferences(FindAll(root, "worksheet"), files.keys);
        ApplyWritesAppend(m0, ConnectionWrites(FindAll(root, "connection"), files.keys),
          WorksheetsWrites(FindAll(root, "worksheet"), files.keys));
      }
    }

    /** The copy loop: `extracted_files[stem.lower()] = output_file` for each file in turn. */
    static method CopyFiles(names: seq<string>, outDir: string) returns (files: Dict<string>)
      ensures files == KeyFiles(outDir, names)
    {
      files := Empty();
      for i := 0 to |names|
        invariant files == PutAll(Empty(), Keyed(outDir, names[..i]))
      {
        var name := names[i];
        KeyedNext(outDir, names, i);
        PutAllSnoc(Empty(), Keyed(outDir, names[..i]), (FileKey(name), JoinPath(outDir, name)));
        files := files.Put(FileKey(name), JoinPath(outDir, name));
      }
      assert names[..|names|] == names;
    }

    /** The first heuristic: a connection's file stem and a key that contain one another. */
    method MapByConnections(conns: seq<Element>, keys: seq<string>)
      modifies this`dataSourceMapping
      ensures dataSourceMapping == ApplyWrites(old(dataSourceMapping), ConnectionWrites(conns, keys))
    {
      ghost var m0 := dataSourceMapping;
      for i := 0 to |conns|
        invariant dataSourceMapping == ApplyWrites(m0, ConnectionWrites(conns[..i], keys))
      {
        var conn := conns[i];
        ghost var before := dataSourceMapping;
        var dsName := Get(conn, "datasource", "");
        if dsName != "" {
          var dbname := Get(conn, "dbname", "");
          var filename := Get(conn, "filename", "");
          if dbname != "" || filename != "" {
            var fileRef := if dbname != "" then dbname else filename;
            var stem := Lower(SplitExtRoot(Basename(fileRef)));
            assert stem == ConnectionFileName(conn);
            var j := 0;
            while j < |keys|
              invariant j <= |keys|
              invariant FirstOverlapping(keys[j..], stem) == FirstOverlapping(keys, stem)
              invariant dataSourceMapping == before
            {
              assert keys[j..][1..] == keys[j + 1..];
              if IsInfix(keys[j], stem) || IsInfix(stem, keys[j]) {
                dataSourceMapping := dataSourceMapping[dsName := keys[j]];
                break;
              }
              j := j + 1;
            }
          }
        }
        ConnectionsStep(m0, conns, i, keys);
      }
      assert conns[..|conns|] == conns;
    }

    /** The second heuristic, over every named worksheet's data-source dependencies. */
    method MapByColumnReferences(sheets: seq<Element>, keys: seq<string>)
      modifies this`dataSourceMapping
      ensures dataSourceMapping == ApplyWrites(old(dataSourceMapping), WorksheetsWrites(sheets, keys))
    {
      ghost var m0 := dataSourceMapping;
      for i := 0 to |sheets|
        invariant dataSourceMapping == ApplyWrites(m0, WorksheetsWrites(sheets[..i], keys))
      {
        var ws := sheets[i];
        if Get(ws, "name", "") != "" {
          MapDependencies(FindAll(ws, "datasource-dependencies"), keys);
        }
        WorksheetsStep(m0, sheets, i, keys);
      }
      assert sheets[..|sheets|] == sheets;
    }

    /** The dependencies of one worksheet, in order. */
    method MapDependencies(deps: seq<Element>, keys: seq<string>)
      modifies this`dataSourceMapping
      ensures dataSourceMapping == ApplyWrites(old(dataSourceMapping), DependenciesWrites(deps, keys))
    {
      ghost var m0 := dataSourceMapping;
      for j := 0 to |deps|
        invariant dataSourceMapping == ApplyWrites(m0, DependenciesWrites(deps[..j], keys))
      {
        var dsName := Get(deps[j], "datasource", "");
        if dsName != "" {
          MapDependencyColumns(FindAll(deps[j], "column"), dsName, keys);
        }
        DependenciesStep(m0, deps, j, keys);
      }
      assert deps[..|deps|] == deps;
    }

    /** Each column reference naming a table: the first key the table part contains wins, unconditionally. */
    method MapDependencyColumns(cols: seq<Element>, dsName: string, keys: seq<string>)
      modifies this`dataSourceMapping
      ensures dataSourceMapping == ApplyWrites(old(dataSourceMapping), ColumnWrites(cols, dsName, keys))
    {
      ghost var m0 := dataSourceMapping;
      for i := 0 to |cols|
        invariant dataSourceMapping == ApplyWrites(m0, ColumnWrites(cols[..i], dsName, keys))
      {
        var colName := Get(cols[i], "name", "");
        ghost var before := dataSourceMapping;
        if '[' in colName && ']' in colName && '.' in colName {
          var table := Lower(Strip(FirstSegment(colName), {'[', ']'}));
          var j := 0;
          while j < |keys|
            invariant j <= |keys|
            invariant FirstContainedIn(keys[j..], table) == FirstContainedIn(keys, table)
            invariant dataSourceMapping == before
          {
            assert keys[j..][1..] == keys[j + 1..];
            if IsInfix(keys[j], table) {
              dataSourceMapping := dataSourceMapping[dsName := keys[j]];
              break;
            }
            j := j + 1;
          }
        }
        ColumnsStep(m0, cols, i, dsName, keys);
      }
      assert cols[..|cols|] == cols;
    }

    // -------------------------------------------------------------------------
    // parse_workbook

    /**
     * Parses the workbook document (`None` when there is no `.twb` file or it
     * cannot be read, which makes the parse fail): data sources first, then
     * worksheets, whose roles draw on every data source, then dashboards, whose
     * zones record positions on the worksheets they name.
     */
    method ParseWorkbook(doc: Option<Element>) returns (ok: bool)
      requires Valid()
      modifies this`datasources, this`worksheets, this`dashboards
      ensures Valid()
      ensures ok <==> doc.Some?
      ensures doc.None? ==> datasources == old(datasources) && worksheets == old(worksheets) && dashboards == old(dashboards)
      ensures doc.Some? ==>
        var root := doc.value;
        var ds := PutAll(old(datasources), DataSourceEntries(FindAll(root, "datasource")));
        var ws := PutAll(old(worksheets), WorksheetEntries(FindAll(root, "worksheet"), ds.Values()));
        && datasources == ds
        && dashboards == PutAll(old(dashboards), DashboardEntries(FindAll(root, "dashboard"), ws.entries.Keys))
        && worksheets == PlaceAll(ws, FindAll(root, "dashboard"))
    {
      if doc.None? {
        return false;
      }
      var root := doc.value;
      ParseDataSources(FindAll(root, "datasource"));
      ParseWorksheets(FindAll(root, "worksheet"));
      ParseDashboards(FindAll(root, "dashboard"));
      return true;
    }

    method ParseDataSources(elems: seq<Element>)
      requires Valid()
      modifies this`datasources
      ensures Valid()
      ensures datasources == PutAll(old(datasources), DataSourceEntries(elems))
    {
      ghost var d0 := datasources;
      for i := 0 to |elems|
        invariant datasources.Valid()
        invariant datasources == PutAll(d0, DataSourceEntries(elems[..i]))
      {
        var d := elems[i];
        var dsName := Get(d, "name", "");
        DataSourceEntriesNext(elems, i);
        if dsName != "" {
          var cols := ParseColumns(FindAll(d, "column"));
          PutAllSnoc(d0, DataSourceEntries(elems[..i]), (dsName, ParsedDataSource(d)));
          datasources := datasources.Put(dsName, DataSource(dsName, Get(d, "caption", dsName), cols));
        } else {
          assert DataSourceEntries(elems[..i]) + [] == DataSourceEntries(elems[..i]);
        }
      }
      assert elems[..|elems|] == elems;
    }

    /** The column loop of one data source. */
    static method ParseColumns(colElems: seq<Element>) returns (cols: seq<Column>)
      ensures cols == ParsedColumns(colElems)
    {
      cols := [];
      for j := 0 to |colElems|
        invariant cols == ParsedColumns(colElems[..j])
      {
        var c := colElems[j];
        var colName := Get(c, "name", "");
        ParsedColumnsNext(colElems, j);
        if colName != "" {
          cols := cols + [Column(colName, Get(c, "caption", colName), Get(c, "datatype", "string"))];
        }
      }
      assert colElems[..|colElems|] == colElems;
    }

    method ParseWorksheets(elems: seq<Element>)
      requires Valid()
      modifies this`worksheets
      ensures Valid()
      ensures worksheets == PutAll(old(worksheets), WorksheetEntries(elems, datasources.Values()))
    {
      ghost var w0 := worksheets;
      for i := 0 to |elems|
        invariant Valid()
        invariant worksheets == PutAll(w0, WorksheetEntries(elems[..i], datasources.Values()))
      {
        var ws := elems[i];
        var wsName := Get(ws, "name", "");
        WorksheetEntriesNext(elems, i, datasources.Values());
        if wsName != "" {
          ParseWorksheet(ws, wsName);
          PutAllSnoc(w0, WorksheetEntries(elems[..i], datasources.Values()), (wsName, ParsedWorksheet(ws, datasources.Values())));
        } else {
          assert WorksheetEntries(elems[..i], datasources.Values()) + [] == WorksheetEntries(elems[..i], datasources.Values());
        }
      }
      assert elems[..|elems|] == elems;
    }

    /**
     * One named worksheet: its entry is created with empty roles, gains each
     * named dependency's data source once, in order, and then gets its roles.
     */
    method ParseWorksheet(ws: Element, wsName: string)
      requires Valid() && wsName == Get(ws, "name", "") && wsName != ""
      modifies this`worksheets
      ensures Valid()
      ensures worksheets == old(worksheets).Put(wsName, ParsedWorksheet(ws, datasources.Values()))
    {
      ghost var before := worksheets;
      var title := ExtractTitle(ws, wsName);
      var chartType := DetermineChartType(ws);
      worksheets := worksheets.Put(wsName, Worksheet(wsName, [], chartType, NoRoles, title, None));
      ghost var created := worksheets;
      RecordDependencies(FindAll(ws, "datasource-dependencies"), wsName);
      PutTwice(before, wsName, created.entries[wsName], worksheets.entries[wsName]);
      ghost var parsed := worksheets.entries[wsName];
      ExtractColumnRoles(ws, wsName);
      PutTwice(before, wsName, parsed, worksheets.entries[wsName]);
    }

    /** The dependency loop: each named data source joins the worksheet's list unless already there. */
    method RecordDependencies(deps: seq<Element>, wsName: string)
      requires Valid() && wsName in worksheets.entries && worksheets.entries[wsName].datasources == []
      modifies this`worksheets
      ensures Valid()
      ensures worksheets == old(worksheets).Put(wsName,
        old(worksheets).entries[wsName].(datasources := Dedup(NamesOf(deps, "datasource"))))
    {
      ghost var w0 := worksheets;
      ghost var e0 := worksheets.entries[wsName];
      for j := 0 to |deps|
        invariant worksheets == w0.Put(wsName, e0.(datasources := Dedup(NamesOf(deps[..j], "datasource"))))
      {
        var dsName := Get(deps[j], "datasource", "");
        NamesOfNext(deps, j, "datasource");
        if dsName != "" {
          DedupSnoc(NamesOf(deps[..j], "datasource"), dsName);
          var entry := worksheets.entries[wsName];
          if dsName !in entry.datasources {
            worksheets := worksheets.Put(wsName, entry.(datasources := entry.datasources + [dsName]));
            PutTwice(w0, wsName, entry, worksheets.entries[wsName]);
          }
        } else {
          assert NamesOf(deps[..j + 1], "datasource") == NamesOf(deps[..j], "datasource");
        }
      }
      assert deps[..|deps|] == deps;
    }

    /**
     * `_extract_column_roles`: starts from six empty role lists, fills them from
     * the shelves and encodings in document order, then runs the keyword
     * enrichment over every column of every data source.
     */
    method ExtractColumnRoles(ws: Element, wsName: string)
      requires Valid() && wsName in worksheets.entries
      modifies this`worksheets
      ensures Valid()
      ensures worksheets == old(worksheets).Put(wsName, old(worksheets).entries[wsName].(columns := ColumnRoles(ws, datasources.Values())))
    {
      var shelf := ReadShelves(ws);
      var roles := EnrichRoles(shelf, datasources.Values());
      worksheets := worksheets.Put(wsName, worksheets.entries[wsName].(columns := roles));
    }

    /**
     * The shelf and encoding loops. The measure and dimension annotations are
     * collected and consulted, but both branches of each test append the same
     * name to the same list.
     */
    static method ReadShelves(ws: Element) returns (roles: Roles)
      ensures roles == ShelfRoles(ws)
    {
      var measureColumns := CollectNames(FindAllWhere(ws, "column-instance", "type", "measure"), "column");
      var dimensionColumns := CollectNames(FindAllWhere(ws, "column-instance", "type", "dimension"), "column");

      var rowCols := FindAllPath(ws, "rows", "column");
      var yAxis: seq<string> := [];
      for i := 0 to |rowCols|
        invariant yAxis == NamesOf(rowCols[..i], "name")
      {
        var colName := Get(rowCols[i], "name", "");
        NamesOfNext(rowCols, i, "name");
        if colName != "" {
          if colName in measureColumns {
            yAxis := yAxis + [colName];
          } else {
            yAxis := yAxis + [colName];
          }
        }
      }
      assert rowCols[..|rowCols|] == rowCols;

      var shelfCols := FindAllPath(ws, "columns", "column");
      var xAxis: seq<string> := [];
      for i := 0 to |shelfCols|
        invariant xAxis == NamesOf(shelfCols[..i], "name")
      {
        var colName := Get(shelfCols[i], "name", "");
        NamesOfNext(shelfCols, i, "name");
        if colName != "" {
          if colName in dimensionColumns {
            xAxis := xAxis + [colName];
          } else {
            xAxis := xAxis + [colName];
          }
        }
      }
      assert shelfCols[..|shelfCols|] == shelfCols;

      var color := CollectNames(FindAllPathWhere(ws, "encoding", "class", "color", "column"), "name");
      var size := CollectNames(FindAllPathWhere(ws, "encoding", "class", "size", "column"), "name");
      var labels := CollectNames(FindAllPathWhere(ws, "encoding", "class", "text", "column"), "name");
      var filter := CollectNames(FindAllPath(ws, "filter", "column"), "name");
      roles := Roles(xAxis, yAxis, color, size, labels, filter);
    }

    /** The enrichment loops over every column of every data source, in dictionary order. */
    static method EnrichRoles(shelf: Roles, sources: seq<DataSource>) returns (roles: Roles)
      ensures roles == Enrich(shelf, AllColumns(sources))
    {
      roles := shelf;
      for i := 0 to |sources|
        invariant roles == Enrich(shelf, AllColumns(sources[..i]))
      {
        var cols := sources[i].columns;
        ghost var done := AllColumns(sources[..i]);
        assert done + cols[..0] == done;
        for j := 0 to |cols|
          invariant roles == Enrich(shelf, done + cols[..j])
        {
          var c := cols[j];
          EnrichNext(shelf, done, cols, j);
          if IsLocationCaption(c) && c.name !in roles.color {
            roles := roles.(color := roles.color + [c.name]);
          }
          if IsMeasureCaption(c) && roles.yAxis == [] && c.name !in roles.yAxis {
            roles := roles.(yAxis := roles.yAxis + [c.name]);
          }
        }
        assert cols[..|cols|] == cols;
        AllColumnsNext(sources, i);
      }
      assert sources[..|sources|] == sources;
    }

    /** `[c.get(attr, '') for c in elems]`, keeping only the non-empty names. */
    static method CollectNames(elems: seq<Element>, attr: string) returns (names: seq<string>)
      ensures names == NamesOf(elems, attr)
    {
      names := [];
      for i := 0 to |elems|
        invariant names == NamesOf(elems[..i], attr)
      {
        var n := Get(elems[i], attr, "");
        NamesOfNext(elems, i, attr);
        if n != "" {
          names := names + [n];
        }
      }
      assert elems[..|elems|] == elems;
    }

    method ParseDashboards(elems: seq<Element>)
      requires Valid()
      modifies this`dashboards, this`worksheets
      ensures Valid()
      ensures dashboards == PutAll(old(dashboards), DashboardEntries(elems, old(worksheets).entries.Keys))
      ensures worksheets == PlaceAll(old(worksheets), elems)
    {
      ghost var d0 := dashboards;
      ghost var w0 := worksheets;
      ghost var known := worksheets.entries.Keys;
      for i := 0 to |elems|
        invariant Valid()
        invariant dashboards == PutAll(d0, DashboardEntries(elems[..i], known))
        invariant worksheets == PlaceAll(w0, elems[..i])
      {
        var db := elems[i];
        var dbName := Get(db, "name", "");
        DashboardEntriesNext(elems, i, known);
        PlaceAllNext(w0, elems, i);
        if dbName != "" {
          ParseDashboard(db, dbName);
          PutAllSnoc(d0, DashboardEntries(elems[..i], known), (dbName, ParsedDashboard(db, known)));
        } else {
          assert DashboardEntries(elems[..i], known) + [] == DashboardEntries(elems[..i], known);
        }
      }
      assert elems[..|elems|] == elems;
    }

    /**
     * One named dashboard: its entry with the size's defaults, then its zones,
     * which list each known worksheet once and record its position.
     */
    method ParseDashboard(db: Element, dbName: string)
      requires Valid() && dbName == Get(db, "name", "") && dbName != ""
      modifies this`dashboards, this`worksheets
      ensures Valid()
      ensures dashboards == old(dashboards).Put(dbName, ParsedDashboard(db, old(worksheets).entries.Keys))
      ensures worksheets == PlaceZones(old(worksheets), FindAll(db, "zone"), old(worksheets).entries.Keys)
    {
      var title := Get(db, "title", dbName);
      var sizeElem := Find(db, "size");
      var width := if sizeElem.Some? then Get(sizeElem.value, "width", "800") else "800";
      var height := if sizeElem.Some? then Get(sizeElem.value, "height", "600") else "600";
      ghost var dBefore := dashboards;
      ghost var wBefore := worksheets;
      dashboards := dashboards.Put(dbName, Dashboard(dbName, title, width, height, []));
      ghost var created := dashboards;
      RecordZones(FindAll(db, "zone"), dbName);
      assert dashboards == dBefore.Put(dbName, ParsedDashboard(db, wBefore.entries.Keys)) by {
        PutTwice(dBefore, dbName, created.entries[dbName], dashboards.entries[dbName]);
      }
      assert worksheets.Valid() by {
        assert worksheets.keys == wBefore.keys && worksheets.entries.Keys == wBefore.entries.Keys;
      }
    }

    /** The zone loop of one dashboard. */
    method RecordZones(zones: seq<Element>, dbName: string)
      requires dbName in dashboards.entries && dashboards.entries[dbName].worksheets == []
      modifies this`dashboards, this`worksheets
      ensures dashboards == old(dashboards).Put(dbName,
        old(dashboards).entries[dbName].(worksheets := PlacedSheets(zones, old(worksheets).entries.Keys)))
      ensures worksheets == PlaceZones(old(worksheets), zones, old(worksheets).entries.Keys)
    {
      ghost var d0 := dashboards;
      ghost var w0 := worksheets;
      ghost var e0 := dashboards.entries[dbName];
      ghost var known := worksheets.entries.Keys;
      for j := 0 to |zones|
        invariant dashboards == d0.Put(dbName, e0.(worksheets := PlacedSheets(zones[..j], known)))
        invariant worksheets == PlaceZones(w0, zones[..j], known)
      {
        var z := zones[j];
        var zoneName := Get(z, "name", "");
        ghost var placed := PlacedSheets(zones[..j], known);
        var entry := dashboards.entries[dbName];
        assert zoneName in worksheets.entries <==> zoneName in known;
        if zoneName != "" && zoneName in worksheets.entries && zoneName !in entry.worksheets {
          dashboards := dashboards.Put(dbName, entry.(worksheets := entry.worksheets + [zoneName]));
          assert dashboards == d0.Put(dbName, e0.(worksheets := PlacedSheets(zones[..j + 1], known))) by {
            PlacedSheetsNext(zones, j, known);
            PutTwice(d0, dbName, entry, dashboards.entries[dbName]);
          }
          ghost var prev := worksheets;
          var position := Position(Get(z, "x", "0"), Get(z, "y", "0"), Get(z, "w", "0"), Get(z, "h", "0"));
          worksheets := worksheets.Put(zoneName, worksheets.entries[zoneName].(position := Some(position)));
          assert worksheets == PlaceZones(w0, zones[..j + 1], known) by {
            PlacedSheetsNext(zones, j, known);
            PlaceZonesNext(w0, zones, j, known);
          }
        } else {
          assert PlacedSheets(zones[..j + 1], known) == placed by {
            PlacedSheetsNext(zones, j, known);
          }
          assert PlaceZones(w0, zones[..j + 1], known) == worksheets by {
            PlacedSheetsNext(zones, j, known);
            PlaceZonesNext(w0, zones, j, known);
          }
        }
      }
      assert zones[..|zones|] == zones;
    }
  }
}
