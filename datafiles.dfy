/**
 * The data-file half of `TableauWorkbookParser.extract_data_sources`: the
 * lookup key of each embedded data file, and the two heuristics that link a
 * workbook data-source name to one of those keys.
 */
module DataFiles {
  import opened Wrappers
  import opened Text
  import opened Xml
  import opened Dicts

  /** The lookup key of a data file: its lowered file-name stem. */
  function FileKey(name: string): (k: string)
    ensures |k| <= |name|
  {
    Lower(Stem(name))
  }

  /** `os.path.join(dir, name)` for a bare file name. */
  function JoinPath(dir: string, name: string): (p: string)
  {
    if dir == [] || IsPathSeparator(dir[|dir| - 1]) then dir + name else dir + "\\" + name
  }

  /** The (key, copied path) pair of each file, in copy order. */
  function Keyed(dir: string, files: seq<string>): (es: seq<(string, string)>)
    ensures |es| == |files|
  {
    if files == [] then []
    else
      var f := files[|files| - 1];
      Keyed(dir, files[..|files| - 1]) + [(FileKey(f), JoinPath(dir, f))]
  }

  lemma {:induction false} KeyedAt(dir: string, files: seq<string>, i: nat)
    requires i < |files|
    ensures Keyed(dir, files)[i] == (FileKey(files[i]), JoinPath(dir, files[i]))
  {
    if i < |files| - 1 {
      KeyedAt(dir, files[..|files| - 1], i);
    }
  }

  /** The dictionary `extracted_files` becomes after copying `files` in order. */
  function KeyFiles(dir: string, files: seq<string>): Dict<string>
  {
    PutAll(Empty(), Keyed(dir, files))
  }

  /** The keys are exactly the files' lowered stems, each once. */
  lemma KeyFilesKeys(dir: string, files: seq<string>)
    ensures KeyFiles(dir, files).Valid()
    ensures forall k :: k in KeyFiles(dir, files).entries <==> exists i :: 0 <= i < |files| && FileKey(files[i]) == k
  {
    var es := Keyed(dir, files);
    PutAllKeys(es);
    forall k | k in KeyFiles(dir, files).entries
      ensures exists i :: 0 <= i < |files| && FileKey(files[i]) == k
    {
      var i :| 0 <= i < |es| && es[i].0 == k;
      KeyedAt(dir, files, i);
    }
    forall i | 0 <= i < |files|
      ensures FileKey(files[i]) in KeyFiles(dir, files).entries
    {
      KeyedAt(dir, files, i);
    }
  }

  /** A key holds the copied path of the LAST file with that stem: a later file overwrites an earlier one. */
  lemma KeyFilesLastWins(dir: string, files: seq<string>, i: nat)
    requires i < |files| && forall j :: i < j < |files| ==> FileKey(files[j]) != FileKey(files[i])
    ensures FileKey(files[i]) in KeyFiles(dir, files).entries
    ensures KeyFiles(dir, files).entries[FileKey(files[i])] == JoinPath(dir, files[i])
  {
    var es := Keyed(dir, files);
    forall j | i <= j < |es|
      ensures es[j] == (FileKey(files[j]), JoinPath(dir, files[j]))
    {
      KeyedAt(dir, files, j);
    }
    PutAllLastWins(Empty(), es, i);
  }

  /** Copying one more file is one more assignment. */
  lemma KeyedNext(dir: string, files: seq<string>, i: nat)
    requires i < |files|
    ensures Keyed(dir, files[..i + 1]) == Keyed(dir, files[..i]) + [(FileKey(files[i]), JoinPath(dir, files[i]))]
  {
    assert files[..i + 1][..i] == files[..i];
  }

  /**
   * The files `extract_data_sources` returns: those found under the `Data`
   * directory, or, when that yields nothing, those found anywhere in the archive.
   */
  function ExtractedFiles(dataDirFiles: seq<string>, archiveFiles: seq<string>, dir: string): Dict<string>
  {
    var fromDataDir := KeyFiles(dir, dataDirFiles);
    if fromDataDir.keys == [] then KeyFiles(dir, archiveFiles) else fromDataDir
  }

  /** The whole archive is searched only when the `Data` directory yielded no file. */
  lemma ArchiveSearchedOnlyWhenDataDirEmpty(dataDirFiles: seq<string>, archiveFiles: seq<string>, dir: string)
    ensures dataDirFiles != [] ==> ExtractedFiles(dataDirFiles, archiveFiles, dir) == KeyFiles(dir, dataDirFiles)
    ensures dataDirFiles == [] ==> ExtractedFiles(dataDirFiles, archiveFiles, dir) == KeyFiles(dir, archiveFiles)
  {
    var d := KeyFiles(dir, dataDirFiles);
    KeyFilesKeys(dir, dataDirFiles);
    if dataDirFiles != [] {
      assert FileKey(dataDirFiles[0]) in d.entries;
    } else {
      assert d.entries == map[];
    }
  }

  // ---------------------------------------------------------------------------
  // Linking data-source names to file keys

  /** One assignment `data_source_mapping[datasource] = key`. */
  datatype Write = Write(datasource: string, key: string)

  /** The connection heuristic's test: either name contains the other. */
  predicate Overlaps(key: string, stem: string)
  {
    IsInfix(key, stem) || IsInfix(stem, key)
  }

  /** The first key, in dictionary order, that overlaps `stem`. */
  function FirstOverlapping(keys: seq<string>, stem: string): (r: Option<string>)
    ensures r.Some? ==> r.value in keys && Overlaps(r.value, stem)
    ensures r.None? ==> forall k :: k in keys ==> !Overlaps(k, stem)
  {
    if keys == [] then None
    else if Overlaps(keys[0], stem) then Some(keys[0])
    else FirstOverlapping(keys[1..], stem)
  }

  /** The first key, in dictionary order, contained in `table`. */
  function FirstContainedIn(keys: seq<string>, table: string): (r: Option<string>)
    ensures r.Some? ==> r.value in keys && IsInfix(r.value, table)
    ensures r.None? ==> forall k :: k in keys ==> !IsInfix(k, table)
  {
    if keys == [] then None
    else if IsInfix(keys[0], table) then Some(keys[0])
    else FirstContainedIn(keys[1..], table)
  }

  /** The lowered file-name stem of a connection's `dbname` (or `filename`) path. */
  function ConnectionFileName(conn: Element): string
  {
    var dbname := Get(conn, "dbname", "");
    var fileRef := if dbname != "" then dbname else Get(conn, "filename", "");
    Lower(SplitExtRoot(Basename(fileRef)))
  }

  /** The write the first heuristic makes for one `connection` element, if any. */
  function ConnectionWrite(conn: Element, keys: seq<string>): (w: seq<Write>)
    ensures |w| <= 1
    ensures forall i :: 0 <= i < |w| ==> w[i].key in keys && w[i].datasource != ""
  {
    var ds := Get(conn, "datasource", "");
    if ds == "" || (Get(conn, "dbname", "") == "" && Get(conn, "filename", "") == "") then []
    else
      var stem := ConnectionFileName(conn);
      match FirstOverlapping(keys, stem)
      case None => []
      case Some(k) => [Write(ds, k)]
  }

  /** The first heuristic over the document's `connection` elements, in order. */
  function ConnectionWrites(conns: seq<Element>, keys: seq<string>): (w: seq<Write>)
    ensures forall i :: 0 <= i < |w| ==> w[i].key in keys && w[i].datasource != ""
  {
    if conns == [] then []
    else ConnectionWrites(conns[..|conns| - 1], keys) + ConnectionWrite(conns[|conns| - 1], keys)
  }

  /** `s.split('.')[0]`: the text before the first dot. */
  function FirstSegment(s: string): (r: string)
    ensures r <= s && '.' !in r
    ensures r != s ==> s[|r|] == '.'
  {
    if s == [] || s[0] == '.' then [] else [s[0]] + FirstSegment(s[1..])
  }

  /** The table part of a qualified column reference such as `[orders.csv].[Sales]`, lowered. */
  function TablePart(colName: string): string
  {
    Lower(Strip(FirstSegment(colName), {'[', ']'}))
  }

  /** The write the second heuristic makes for one column reference of data source `ds`, if any. */
  function ColumnWrite(col: Element, ds: string, keys: seq<string>): (w: seq<Write>)
    ensures |w| <= 1
    ensures forall i :: 0 <= i < |w| ==> w[i].key in keys && w[i].datasource == ds
  {
    var name := Get(col, "name", "");
    if '[' in name && ']' in name && '.' in name then
      var table := TablePart(name);
      match FirstContainedIn(keys, table)
      case None => []
      case Some(k) => [Write(ds, k)]
    else []
  }

  function ColumnWrites(cols: seq<Element>, ds: string, keys: seq<string>): (w: seq<Write>)
    ensures forall i :: 0 <= i < |w| ==> w[i].key in keys && w[i].datasource == ds
  {
    if cols == [] then []
    else ColumnWrites(cols[..|cols| - 1], ds, keys) + ColumnWrite(cols[|cols| - 1], ds, keys)
  }

  /** The writes for one `datasource-dependencies` element. */
  function DependencyWrites(dep: Element, keys: seq<string>): (w: seq<Write>)
    ensures forall i :: 0 <= i < |w| ==> w[i].key in keys && w[i].datasource != ""
  {
    var ds := Get(dep, "datasource", "");
    if ds == "" then [] else ColumnWrites(FindAll(dep, "column"), ds, keys)
  }

  function DependenciesWrites(deps: seq<Element>, keys: seq<string>): (w: seq<Write>)
    ensures forall i :: 0 <= i < |w| ==> w[i].key in keys && w[i].datasource != ""
  {
    if deps == [] then []
    else DependenciesWrites(deps[..|deps| - 1], keys) + DependencyWrites(deps[|deps| - 1], keys)
  }

  /** The writes for one `worksheet` element (none when it has no name). */
  function WorksheetWrites(ws: Element, keys: seq<string>): (w: seq<Write>)
    ensures forall i :: 0 <= i < |w| ==> w[i].key in keys && w[i].datasource != ""
  {
    if Get(ws, "name", "") == "" then [] else DependenciesWrites(FindAll(ws, "datasource-dependencies"), keys)
  }

  /** The second heuristic over the document's `worksheet` elements, in order. */
  function WorksheetsWrites(sheets: seq<Element>, keys: seq<string>): (w: seq<Write>)
    ensures forall i :: 0 <= i < |w| ==> w[i].key in keys && w[i].datasource != ""
  {
    if sheets == [] then []
    else WorksheetsWrites(sheets[..|sheets| - 1], keys) + WorksheetWrites(sheets[|sheets| - 1], keys)
  }

  /** Every assignment the mapping pass makes, in the order it makes them. */
  function MappingWrites(root: Element, keys: seq<string>): (w: seq<Write>)
    ensures forall i :: 0 <= i < |w| ==> w[i].key in keys && w[i].datasource != ""
  {
    ConnectionWrites(FindAll(root, "connection"), keys) + WorksheetsWrites(FindAll(root, "worksheet"), keys)
  }

  /** The mapping after the assignments `ws`, in order. */
  function ApplyWrites(m: map<string, string>, ws: seq<Write>): map<string, string>
  {
    if ws == [] then m
    else
      var w := ws[|ws| - 1];
      ApplyWrites(m, ws[..|ws| - 1])[w.datasource := w.key]
  }

  lemma {:induction false} ApplyWritesAppend(m: map<string, string>, a: seq<Write>, b: seq<Write>)
    ensures ApplyWrites(m, a + b) == ApplyWrites(ApplyWrites(m, a), b)
  {
    if b == [] {
      assert a + b == a;
    } else {
      assert (a + b)[..|a + b| - 1] == a + b[..|b| - 1];
      ApplyWritesAppend(m, a, b[..|b| - 1]);
    }
  }

  /** One more connection element: its write, if any, follows the earlier ones. */
  lemma ConnectionsStep(m: map<string, string>, conns: seq<Element>, i: nat, keys: seq<string>)
    requires i < |conns|
    ensures ApplyWrites(m, ConnectionWrites(conns[..i + 1], keys))
         == ApplyWrites(ApplyWrites(m, ConnectionWrites(conns[..i], keys)), ConnectionWrite(conns[i], keys))
  {
    assert conns[..i + 1][..i] == conns[..i];
    ApplyWritesAppend(m, ConnectionWrites(conns[..i], keys), ConnectionWrite(conns[i], keys));
  }

  /** One more column reference: its write, if any, follows the earlier ones. */
  lemma ColumnsStep(m: map<string, string>, cols: seq<Element>, i: nat, ds: string, keys: seq<string>)
    requires i < |cols|
    ensures ApplyWrites(m, ColumnWrites(cols[..i + 1], ds, keys))
         == ApplyWrites(ApplyWrites(m, ColumnWrites(cols[..i], ds, keys)), ColumnWrite(cols[i], ds, keys))
  {
    assert cols[..i + 1][..i] == cols[..i];
    ApplyWritesAppend(m, ColumnWrites(cols[..i], ds, keys), ColumnWrite(cols[i], ds, keys));
  }

  /** One more dependency element: its writes follow the earlier ones. */
  lemma DependenciesStep(m: map<string, string>, deps: seq<Element>, i: nat, keys: seq<string>)
    requires i < |deps|
    ensures ApplyWrites(m, DependenciesWrites(deps[..i + 1], keys))
         == ApplyWrites(ApplyWrites(m, DependenciesWrites(deps[..i], keys)), DependencyWrites(deps[i], keys))
  {
    assert deps[..i + 1][..i] == deps[..i];
    ApplyWritesAppend(m, DependenciesWrites(deps[..i], keys), DependencyWrites(deps[i], keys));
  }

  /** One more worksheet element: its writes follow the earlier ones. */
  lemma WorksheetsStep(m: map<string, string>, sheets: seq<Element>, i: nat, keys: seq<string>)
    requires i < |sheets|
    ensures ApplyWrites(m, WorksheetsWrites(sheets[..i + 1], keys))
         == ApplyWrites(ApplyWrites(m, WorksheetsWrites(sheets[..i], keys)), WorksheetWrites(sheets[i], keys))
  {
    assert sheets[..i + 1][..i] == sheets[..i];
    ApplyWritesAppend(m, WorksheetsWrites(sheets[..i], keys), WorksheetWrites(sheets[i], keys));
  }

  /** The key of the last assignment to `ds` in `ws`, if any. */
  function LastWrite(ws: seq<Write>, ds: string): (r: Option<string>)
    ensures r.Some? ==> exists i :: 0 <= i < |ws| && ws[i] == Write(ds, r.value)
    ensures r.None? ==> forall i :: 0 <= i < |ws| ==> ws[i].datasource != ds
  {
    if ws == [] then None
    else if ws[|ws| - 1].datasource == ds then Some(ws[|ws| - 1].key)
    else LastWrite(ws[..|ws| - 1], ds)
  }

  /** After the assignments, a name maps to its last assigned key, or keeps its old entry if never assigned. */
  lemma {:induction false} ApplyWritesAt(m: map<string, string>, ws: seq<Write>, ds: string)
    ensures ds in ApplyWrites(m, ws) <==> ds in m || LastWrite(ws, ds).Some?
    ensures LastWrite(ws, ds).Some? ==> ApplyWrites(m, ws)[ds] == LastWrite(ws, ds).value
    ensures LastWrite(ws, ds).None? && ds in m ==> ApplyWrites(m, ws)[ds] == m[ds]
  {
    if ws != [] {
      ApplyWritesAt(m, ws[..|ws| - 1], ds);
    }
  }

  /** Running the mapping pass again on the same document and keys changes nothing. */
  lemma MappingIdempotent(m: map<string, string>, root: Element, keys: seq<string>)
    ensures var w := MappingWrites(root, keys);
      ApplyWrites(ApplyWrites(m, w), w) == ApplyWrites(m, w)
  {
    var w := MappingWrites(root, keys);
    var once := ApplyWrites(m, w);
    var twice := ApplyWrites(once, w);
    forall ds ensures (ds in twice <==> ds in once) && (ds in once ==> twice[ds] == once[ds]) {
      ApplyWritesAt(m, w, ds);
      ApplyWritesAt(once, w, ds);
    }
  }

  /** Every entry the pass writes names one of the file keys; entries it does not write are kept. */
  lemma MappingTargetsAreFileKeys(m: map<string, string>, root: Element, keys: seq<string>)
    ensures var r := ApplyWrites(m, MappingWrites(root, keys));
      && m.Keys <= r.Keys
      && forall ds :: ds in r ==> r[ds] in keys || (ds in m && r[ds] == m[ds])
  {
    var w := MappingWrites(root, keys);
    forall ds ensures ds in m ==> ds in ApplyWrites(m, w)
      ensures ds in ApplyWrites(m, w) ==> ApplyWrites(m, w)[ds] in keys || (ds in m && ApplyWrites(m, w)[ds] == m[ds])
    {
      ApplyWritesAt(m, w, ds);
      if LastWrite(w, ds).Some? {
        var i :| 0 <= i < |w| && w[i] == Write(ds, LastWrite(w, ds).value);
      }
    }
  }

  /**
   * The column-reference heuristic runs second and assigns unconditionally,
   * so whatever it assigns to a data source replaces a connection match.
   */
  lemma ColumnHeuristicOverrides(m: map<string, string>, root: Element, keys: seq<string>, ds: string)
    requires LastWrite(WorksheetsWrites(FindAll(root, "worksheet"), keys), ds).Some?
    ensures ds in ApplyWrites(m, MappingWrites(root, keys))
    ensures ApplyWrites(m, MappingWrites(root, keys))[ds]
         == LastWrite(WorksheetsWrites(FindAll(root, "worksheet"), keys), ds).value
  {
    var c := ConnectionWrites(FindAll(root, "connection"), keys);
    var s := WorksheetsWrites(FindAll(root, "worksheet"), keys);
    assert MappingWrites(root, keys) == c + s;
    LaterWritesWin(m, c, s, ds);
  }

  lemma LaterWritesWin(m: map<string, string>, a: seq<Write>, b: seq<Write>, ds: string)
    requires LastWrite(b, ds).Some?
    ensures ds in ApplyWrites(m, a + b) && ApplyWrites(m, a + b)[ds] == LastWrite(b, ds).value
  {
    LastWriteAppend(a, b, ds);
    ApplyWritesAt(m, a + b, ds);
  }

  lemma {:induction false} LastWriteAppend(a: seq<Write>, b: seq<Write>, ds: string)
    ensures LastWrite(a + b, ds) == if LastWrite(b, ds).Some? then LastWrite(b, ds) else LastWrite(a, ds)
  {
    if b != [] {
      assert (a + b)[..|a + b| - 1] == a + b[..|b| - 1];
      LastWriteAppend(a, b[..|b| - 1], ds);
    } else {
      assert a + b == a;
    }
  }
}
