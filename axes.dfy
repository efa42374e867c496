/**
 * Choosing the x and y variables of a visual: the worksheet's first shelf
 * columns when it has them, otherwise columns picked from the data file's
 * header by name and type, otherwise placeholder names.
 *
 * The data file is seen through `read_csv`, which is outside the model: a
 * file it can read is given as a `Frame` of column descriptors, and a path
 * missing from the `tables` map is a file whose reading raises.
 */
module Axes {
  import opened Wrappers
  import opened Text
  import opened Entities
  import opened ColumnNames

  /** The dtype `read_csv` infers for a column. */
  datatype Dtype = Object | Datetime | Number | Bool | OtherDtype

  /** A column as read: header, inferred dtype, number of distinct values. */
  datatype CsvColumn = CsvColumn(name: string, dtype: Dtype, distinct: nat)

  /** A data file as read: its columns in order and its number of rows. */
  datatype Frame = Frame(columns: seq<CsvColumn>, rows: nat)

  /** `df.empty`: no rows or no columns. */
  predicate IsEmpty(f: Frame)
  {
    f.rows == 0 || f.columns == []
  }

  /** Column-name fragments that suggest a dimension. */
  const DimensionKeywords: seq<string> := ["year", "date", "month", "category", "region", "county"]

  /** Column-name fragments that suggest a measure. */
  const MeasureKeywords: seq<string> := ["value", "count", "sum", "total", "sales", "lost", "colony_lost"]

  /**
   * Python truthiness of an axis variable: `None` and the empty string are
   * both missing.
   */
  predicate Present(v: Option<string>)
  {
    v.Some? && v.value != ""
  }

  /** The tests the analysis applies to one column at a time. */
  datatype Criterion =
    | NameHas(keywords: seq<string>)    // the lowered header contains a keyword
    | Categorical                       // dtype object or datetime
    | FewDistinct(rows: nat)            // fewer distinct values than half the rows
    | NumberOtherThan(x: Option<string>) // a `select_dtypes('number')` column other than `x`
    | AnyNumber                         // a `select_dtypes('number')` column
    | NumericOtherThan(x: Option<string>) // an `is_numeric_dtype` column (booleans too) other than `x`

  predicate Meets(c: CsvColumn, crit: Criterion)
  {
    match crit
    case NameHas(keywords) => ContainsAny(Lower(c.name), keywords)
    case Categorical => c.dtype == Object || c.dtype == Datetime
    case FewDistinct(rows) => 2 * c.distinct < rows
    case NumberOtherThan(x) => c.dtype == Number && Some(c.name) != x
    case AnyNumber => c.dtype == Number
    case NumericOtherThan(x) => (c.dtype == Number || c.dtype == Bool) && Some(c.name) != x
  }

  /** Index of the first column meeting `crit`, or `|cols|` when none does. */
  function FirstMeetingIndex(cols: seq<CsvColumn>, crit: Criterion): (k: nat)
    ensures k <= |cols|
    ensures k < |cols| ==> Meets(cols[k], crit)
    ensures forall j :: 0 <= j < k ==> !Meets(cols[j], crit)
  {
    if cols == [] then 0
    else if Meets(cols[0], crit) then 0
    else 1 + FirstMeetingIndex(cols[1..], crit)
  }

  /** The header of the first column meeting `crit`, if any. */
  function FirstMeeting(cols: seq<CsvColumn>, crit: Criterion): Option<string>
  {
    var k := FirstMeetingIndex(cols, crit);
    if k < |cols| then Some(cols[k].name) else None
  }

  /** The headers of all columns meeting `crit`, in order. */
  function AllMeeting(cols: seq<CsvColumn>, crit: Criterion): seq<string>
  {
    if cols == [] then []
    else AllMeeting(cols[..|cols| - 1], crit) + (if Meets(cols[|cols| - 1], crit) then [cols[|cols| - 1].name] else [])
  }

  /** A list of candidates has a head exactly when some column qualifies, and its head is the first one. */
  lemma {:induction false} AllMeetingHead(cols: seq<CsvColumn>, crit: Criterion)
    ensures (AllMeeting(cols, crit) == []) <==> FirstMeeting(cols, crit).None?
    ensures AllMeeting(cols, crit) != [] ==> FirstMeeting(cols, crit) == Some(AllMeeting(cols, crit)[0])
  {
    if cols != [] {
      var init := cols[..|cols| - 1];
      AllMeetingHead(init, crit);
      var k := FirstMeetingIndex(init, crit);
      var k' := FirstMeetingIndex(cols, crit);
      if k < |init| {
        assert init[k] == cols[k];
        assert k' == k;
      } else {
        assert forall j :: 0 <= j < |init| ==> !Meets(cols[j], crit) by {
          forall j | 0 <= j < |init| ensures !Meets(cols[j], crit) { assert init[j] == cols[j]; }
        }
      }
    }
  }

  lemma AllMeetingNext(cols: seq<CsvColumn>, i: nat, crit: Criterion)
    requires i < |cols|
    ensures AllMeeting(cols[..i + 1], crit) ==
      AllMeeting(cols[..i], crit) + (if Meets(cols[i], crit) then [cols[i].name] else [])
  {
    assert cols[..i + 1][..i] == cols[..i];
  }

  /** `a or b` for an already-assigned variable: `b` is kept unless the search found something. */
  function OrElse(found: Option<string>, current: Option<string>): Option<string>
  {
    if found.Some? then found else current
  }

  /** The x-axis search of the analysis, for a missing `x`. */
  function ChooseX(x: Option<string>, f: Frame): Option<string>
  {
    if Present(x) then x
    else
      var named := FirstMeeting(f.columns, NameHas(DimensionKeywords));
      if named.Some? then named
      else if IsEmpty(f) then x
      else
        var typed := OrElse(FirstMeeting(f.columns, Categorical), x);
        if Present(typed) then typed else OrElse(FirstMeeting(f.columns, FewDistinct(f.rows)), typed)
  }

  /** The y-axis search of the analysis, for a missing `y`, once `x` is settled. */
  function ChooseY(y: Option<string>, x: Option<string>, f: Frame): Option<string>
  {
    if Present(y) then y
    else
      var named := FirstMeeting(f.columns, NameHas(MeasureKeywords));
      if named.Some? then named
      else if IsEmpty(f) || FirstMeeting(f.columns, AnyNumber).None? then y
      else
        var other := OrElse(FirstMeeting(f.columns, NumberOtherThan(x)), y);
        if Present(other) then other else FirstMeeting(f.columns, AnyNumber)
  }

  /**
   * The data-file analysis, run when either variable is missing. `path` is
   * the data file of the resolved source (`None` when the source is not a
   * key of the data files, which raises); only a `.csv` path is searched,
   * and when both variables end up present and equal the file is read
   * again for a numeric column other than `x`. A read that raises abandons
   * the analysis with the variables as they stand.
   */
  function Analyse(x: Option<string>, y: Option<string>, path: Option<string>, tables: map<string, Frame>)
    : (Option<string>, Option<string>)
  {
    if Present(x) && Present(y) then (x, y)
    else if path.None? then (x, y)
    else
      var p := path.value;
      var csv := EndsWith(Lower(p), ".csv");
      if csv && p !in tables then (x, y)
      else
        var x1 := if csv then ChooseX(x, tables[p]) else x;
        var y1 := if csv then ChooseY(y, x1, tables[p]) else y;
        if Present(x1) && Present(y1) && x1 == y1 && p in tables then
          (x1, OrElse(FirstMeeting(tables[p].columns, NumericOtherThan(x1)), y1))
        else (x1, y1)
  }

  /** The variables a worksheet's shelves give: the cleaned first column of each, if any. */
  function ShelfAxis(shelf: seq<string>): Option<string>
  {
    if shelf != [] then Some(CleanColumnName(shelf[0])) else None
  }

  /**
   * The placeholder step as written: "Category" for a missing x, "Value"
   * (or "Count" when x is "Value") for a missing y, then "Value" for y
   * whenever the two are equal.
   */
  function DefaultAxesAsWritten(x: Option<string>, y: Option<string>): (string, string)
  {
    var x1 := if Present(x) then x.value else "Category";
    var y1 := if Present(y) then y.value else if x1 != "Value" then "Value" else "Count";
    if x1 == y1 then (x1, "Value") else (x1, y1)
  }

  /**
   * The placeholder step with its final guard as evidently intended: an
   * equal y is replaced by "Value", or by "Count" when x is "Value".
   */
  function DefaultAxes(x: Option<string>, y: Option<string>): (r: (string, string))
    ensures r.0 != "" && r.1 != "" && r.0 != r.1
    ensures Present(x) ==> r.0 == x.value
    ensures !Present(x) ==> r.0 == "Category"
    ensures Present(y) && y.value != r.0 ==> r.1 == y.value
  {
    var x1 := if Present(x) then x.value else "Category";
    var y1 := if Present(y) then y.value else if x1 != "Value" then "Value" else "Count";
    if x1 == y1 then (x1, if x1 != "Value" then "Value" else "Count") else (x1, y1)
  }

  /** As written, both variables are non-empty and differ except when x is "Value". */
  lemma DefaultAxesAsWrittenGuard(x: Option<string>, y: Option<string>)
    ensures var r := DefaultAxesAsWritten(x, y);
      r.0 != "" && r.1 != "" && (r.0 != r.1 || r.0 == "Value")
  {
  }

  /** The corrected guard changes the outcome only where the written one leaves both axes "Value". */
  lemma CorrectionOnlyWhereSame(x: Option<string>, y: Option<string>)
    ensures DefaultAxes(x, y) != DefaultAxesAsWritten(x, y) ==>
      DefaultAxesAsWritten(x, y) == ("Value", "Value") && DefaultAxes(x, y) == ("Value", "Count")
  {
  }

  /** Shelf identifiers of one column, plain and summed. */
  const BeesValue: string := "[Bees].[Value]"
  const BeesSumValue: string := "[Bees].[Sum:Value]"

  /** A worksheet's roles with `[Bees].[Sum:Value]` on the columns shelf and `[Bees].[Value]` on the rows shelf. */
  const BeesRoles: Roles := NoRoles.(xAxis := [BeesSumValue], yAxis := [BeesValue])

  /**
   * The Bees worksheet gets "Value" on both axes from the guard as written,
   * whatever its data file: both variables are present, so no analysis
   * runs, and the guard re-assigns the value y already has.
   */
  lemma SameAxesAsWritten(path: Option<string>, tables: map<string, Frame>)
    ensures ChosenAxes(BeesRoles, path, tables) == ("Value", "Value")
    ensures ChosenAxesIntended(BeesRoles, path, tables) == ("Value", "Count")
  {
    SameCleanName();
    var x := ShelfAxis(BeesRoles.xAxis);
    var y := ShelfAxis(BeesRoles.yAxis);
    assert x == Some("Value") && y == Some("Value");
    AnalyseKeepsPresent(x, y, path, tables);
  }

  /** Both shelf identifiers of the example clean to "Value". */
  lemma SameCleanName()
    ensures CleanColumnName(BeesValue) == "Value"
    ensures CleanColumnName(BeesSumValue) == "Value"
  {
    CleanPlainValue();
    CleanSumValue();
  }

  lemma CleanPlainValue()
    ensures CleanColumnName(BeesValue) == "Value"
  {
    var c := "Value";
    assert BracketFree(c) && BracketFree("Bees") && NewlineFree("Bees");
    assert BeesValue == "[" + "Bees" + "].[" + c + "]";
    QualifiedName("Bees", c);
    assert c[0] == 'V';
    assert StripAggregation(c) == c;
  }

  lemma CleanSumValue()
    ensures CleanColumnName(BeesSumValue) == "Value"
  {
    var c := "Sum:Value";
    assert BracketFree(c) && BracketFree("Bees") && NewlineFree("Bees");
    assert BeesSumValue == "[" + "Bees" + "].[" + c + "]";
    QualifiedName("Bees", c);
    assert c == AggregationPrefixes[0] + "Value";
    StripAggregationOnce(0, "Value");
  }

  /**
   * The variables `_add_worksheet_to_page` draws with: the shelves' first
   * columns, the data-file analysis, then the placeholder step as written.
   */
  function ChosenAxes(roles: Roles, path: Option<string>, tables: map<string, Frame>): (string, string)
  {
    var a := Analyse(ShelfAxis(roles.xAxis), ShelfAxis(roles.yAxis), path, tables);
    DefaultAxesAsWritten(a.0, a.1)
  }

  /** The same choice with the final guard as evidently intended. */
  function ChosenAxesIntended(roles: Roles, path: Option<string>, tables: map<string, Frame>): (string, string)
  {
    var a := Analyse(ShelfAxis(roles.xAxis), ShelfAxis(roles.yAxis), path, tables);
    DefaultAxes(a.0, a.1)
  }

  /**
   * Whatever the worksheet and the data file, a visual gets two non-empty
   * variables, and they differ unless both are "Value".
   */
  lemma ChosenAxesDiffer(roles: Roles, path: Option<string>, tables: map<string, Frame>)
    ensures ChosenAxes(roles, path, tables).0 != ""
    ensures ChosenAxes(roles, path, tables).1 != ""
    ensures ChosenAxes(roles, path, tables).0 == ChosenAxes(roles, path, tables).1 ==>
      ChosenAxes(roles, path, tables) == ("Value", "Value")
  {
    var a := Analyse(ShelfAxis(roles.xAxis), ShelfAxis(roles.yAxis), path, tables);
    DefaultAxesAsWrittenGuard(a.0, a.1);
  }

  /** With the intended guard, the two variables always differ; it departs from the code only at ("Value", "Value"). */
  lemma ChosenAxesIntendedDiffer(roles: Roles, path: Option<string>, tables: map<string, Frame>)
    ensures ChosenAxesIntended(roles, path, tables).0 != ChosenAxesIntended(roles, path, tables).1
    ensures ChosenAxesIntended(roles, path, tables) != ChosenAxes(roles, path, tables) ==>
      ChosenAxes(roles, path, tables) == ("Value", "Value") &&
      ChosenAxesIntended(roles, path, tables) == ("Value", "Count")
  {
    var a := Analyse(ShelfAxis(roles.xAxis), ShelfAxis(roles.yAxis), path, tables);
    CorrectionOnlyWhereSame(a.0, a.1);
  }

  /** The analysis never replaces a present x, and replaces a present y only by the same-column rule. */
  lemma AnalyseKeepsPresent(x: Option<string>, y: Option<string>, path: Option<string>, tables: map<string, Frame>)
    ensures var r := Analyse(x, y, path, tables);
      && (Present(x) ==> r.0 == x)
      && (Present(y) && r.0 != y ==> r.1 == y)
      && (Present(x) && Present(y) ==> r == (x, y))
  {
  }

  /** `v` names a column of `f`. */
  predicate HeaderOf(v: Option<string>, f: Frame)
  {
    exists c :: c in f.columns && Some(c.name) == v
  }

  lemma FirstMeetingIsHeader(f: Frame, crit: Criterion)
    ensures FirstMeeting(f.columns, crit).Some? ==> HeaderOf(FirstMeeting(f.columns, crit), f)
  {
    if FirstMeeting(f.columns, crit).Some? {
      assert f.columns[FirstMeetingIndex(f.columns, crit)] in f.columns;
    }
  }

  /** The x search keeps x or picks a header of the file. */
  lemma ChooseXFromFile(x: Option<string>, f: Frame)
    ensures ChooseX(x, f) == x || HeaderOf(ChooseX(x, f), f)
  {
    FirstMeetingIsHeader(f, NameHas(DimensionKeywords));
    FirstMeetingIsHeader(f, Categorical);
    FirstMeetingIsHeader(f, FewDistinct(f.rows));
  }

  /** The y search keeps y or picks a header of the file. */
  lemma ChooseYFromFile(y: Option<string>, x: Option<string>, f: Frame)
    ensures ChooseY(y, x, f) == y || HeaderOf(ChooseY(y, x, f), f)
  {
    FirstMeetingIsHeader(f, NameHas(MeasureKeywords));
    FirstMeetingIsHeader(f, NumberOtherThan(x));
    FirstMeetingIsHeader(f, AnyNumber);
  }

  /** Every variable the analysis supplies is a header of the data file it read. */
  lemma AnalyseDrawsFromFile(x: Option<string>, y: Option<string>, path: Option<string>, tables: map<string, Frame>)
    ensures var r := Analyse(x, y, path, tables);
      && (r.0 != x ==> path.Some? && path.value in tables && HeaderOf(r.0, tables[path.value]))
      && (r.1 != y ==> path.Some? && path.value in tables && HeaderOf(r.1, tables[path.value]))
  {
    if !(Present(x) && Present(y)) && path.Some? && path.value in tables {
      var p := path.value;
      var f := tables[p];
      var csv := EndsWith(Lower(p), ".csv");
      var x1 := if csv then ChooseX(x, f) else x;
      ChooseXFromFile(x, f);
      ChooseYFromFile(y, x1, f);
      FirstMeetingIsHeader(f, NumericOtherThan(x1));
    }
  }

  /**
   * When the analysis leaves the two variables present and equal after
   * reading the file, no other numeric column was there to take y's place.
   */
  lemma AnalyseAvoidsSameColumn(x: Option<string>, y: Option<string>, p: string, tables: map<string, Frame>)
    requires !(Present(x) && Present(y)) && p in tables
    ensures var r := Analyse(x, y, Some(p), tables);
      Present(r.0) && r.0 == r.1 ==>
        forall c :: c in tables[p].columns && (c.dtype == Number || c.dtype == Bool) ==> Some(c.name) == r.0
  {
    var r := Analyse(x, y, Some(p), tables);
    var cols := tables[p].columns;
    if Present(r.0) && r.0 == r.1 {
      forall c | c in cols && (c.dtype == Number || c.dtype == Bool) ensures Some(c.name) == r.0 {
        var j :| 0 <= j < |cols| && cols[j] == c;
        assert !Meets(cols[j], NumericOtherThan(r.0));
      }
    }
  }

  /** A missing x is taken from the first header naming a dimension, when the file is a readable `.csv`. */
  lemma DimensionNamesFirst(y: Option<string>, p: string, tables: map<string, Frame>)
    requires EndsWith(Lower(p), ".csv") && p in tables
    requires FirstMeeting(tables[p].columns, NameHas(DimensionKeywords)).Some?
    ensures Analyse(None, y, Some(p), tables).0 == FirstMeeting(tables[p].columns, NameHas(DimensionKeywords))
  {
  }

  /** A missing y is taken from the first header naming a measure, unless that header is x and another numeric column exists. */
  lemma MeasureNamesFirst(x: Option<string>, p: string, tables: map<string, Frame>)
    requires EndsWith(Lower(p), ".csv") && p in tables && Present(x)
    requires FirstMeeting(tables[p].columns, NameHas(MeasureKeywords)).Some?
    requires FirstMeeting(tables[p].columns, NameHas(MeasureKeywords)) != x
    ensures Analyse(x, None, Some(p), tables).1 == FirstMeeting(tables[p].columns, NameHas(MeasureKeywords))
  {
  }

  /** The first column meeting `crit`: the `for ... break` loops of the analysis. */
  method FindFirst(cols: seq<CsvColumn>, crit: Criterion) returns (r: Option<string>)
    ensures r == FirstMeeting(cols, crit)
  {
    r := None;
    var i := 0;
    while i < |cols|
      invariant i <= |cols|
      invariant forall j :: 0 <= j < i ==> !Meets(cols[j], crit)
    {
      if Meets(cols[i], crit) {
        r := Some(cols[i].name);
        return;
      }
      i := i + 1;
    }
  }

  /** The candidate lists the analysis builds by appending every qualifying header. */
  method CollectMeeting(cols: seq<CsvColumn>, crit: Criterion) returns (cands: seq<string>)
    ensures cands == AllMeeting(cols, crit)
  {
    cands := [];
    for i := 0 to |cols|
      invariant cands == AllMeeting(cols[..i], crit)
    {
      AllMeetingNext(cols, i, crit);
      if Meets(cols[i], crit) {
        cands := cands + [cols[i].name];
      }
    }
    assert cols[..|cols|] == cols;
  }

  /** The x-axis search, step by step. */
  method SearchX(x: Option<string>, f: Frame) returns (rx: Option<string>)
    requires !Present(x)
    ensures rx == ChooseX(x, f)
  {
    rx := x;
    var dims := CollectMeeting(f.columns, NameHas(DimensionKeywords));
    AllMeetingHead(f.columns, NameHas(DimensionKeywords));
    if dims != [] {
      rx := Some(dims[0]);
    } else if !IsEmpty(f) {
      var typed := FindFirst(f.columns, Categorical);
      if typed.Some? {
        rx := typed;
      }
      if !Present(rx) {
        var few := FindFirst(f.columns, FewDistinct(f.rows));
        if few.Some? {
          rx := few;
        }
      }
    }
  }

  /** The y-axis search, step by step. */
  method SearchY(y: Option<string>, x: Option<string>, f: Frame) returns (ry: Option<string>)
    requires !Present(y)
    ensures ry == ChooseY(y, x, f)
  {
    ry := y;
    var measures := CollectMeeting(f.columns, NameHas(MeasureKeywords));
    AllMeetingHead(f.columns, NameHas(MeasureKeywords));
    if measures != [] {
      ry := Some(measures[0]);
    } else if !IsEmpty(f) {
      var numeric := CollectMeeting(f.columns, AnyNumber);
      AllMeetingHead(f.columns, AnyNumber);
      if |numeric| > 0 {
        var other := FindFirst(f.columns, NumberOtherThan(x));
        if other.Some? {
          ry := other;
        }
        if !Present(ry) && |numeric| > 0 {
          ry := Some(numeric[0]);
        }
      }
    }
  }

  /** The analysis block of `_add_worksheet_to_page`, including its `try`/`except`. */
  method AnalyseAxes(x: Option<string>, y: Option<string>, path: Option<string>, tables: map<string, Frame>)
    returns (rx: Option<string>, ry: Option<string>)
    ensures (rx, ry) == Analyse(x, y, path, tables)
  {
    rx, ry := x, y;
    if !Present(x) || !Present(y) {
      if path.None? {
        return;  // the data-file lookup raises
      }
      var p := path.value;
      if EndsWith(Lower(p), ".csv") {
        if p !in tables {
          return;  // reading the file raises
        }
        var f := tables[p];
        if !Present(rx) {
          rx := SearchX(rx, f);
        }
        if !Present(ry) {
          ry := SearchY(ry, rx, f);
        }
      }
      if Present(rx) && Present(ry) && rx == ry {
        if p !in tables {
          return;  // reading the file again raises
        }
        var alternative := FindFirst(tables[p].columns, NumericOtherThan(rx));
        if alternative.Some? {
          ry := alternative;
        }
      }
    }
  }
}
