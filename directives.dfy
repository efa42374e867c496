/**
 * The Power BI build calls the converter makes, as records. The library
 * itself is outside the model: whether a call succeeds is decided by a
 * failure oracle, the set of directives whose call raises.
 */
module Directives {
  import opened Wrappers
  import opened Entities

  /** A visual's placement: x and y position, width and height. */
  datatype Rect = Rect(x: int, y: int, width: int, height: int)

  /**
   * One library call with the arguments the converter chooses. The report
   * path every call also receives is the same throughout a run and is left
   * off; every chart aggregates its y variable with "Sum".
   */
  datatype Directive =
    | CreateReport(outputDir: string, reportName: string)
    | AddCsv(file: string)
    | AddExcel(file: string)
    | AddDateTable
    | AddPage(pageName: string, title: string, subtitle: string)
    | AddChart(pageId: string, chartId: string, kind: ChartType, dataSource: string, chartTitle: string,
               xAxisTitle: Option<string>, yAxisTitle: Option<string>, xVar: string, yVar: string, rect: Rect)
    | AddTable(pageId: string, tableId: string, dataSource: string, tableTitle: string, rect: Rect)
    | AddMap(pageId: string, mapId: string, dataSource: string, mapTitle: string,
             locationVar: string, colorVar: string, rect: Rect)
    | AddShapeMap(pageId: string, mapId: string, dataSource: string, mapTitle: string,
                  locationVar: string, colorVar: string, rect: Rect)
    | AddTextBox(pageId: string, textBoxId: string, text: string, rect: Rect, fontSize: int)
    | AddButton(pageId: string, buttonId: string, caption: string, link: string, rect: Rect)

  /** One attempted call and whether it returned normally. */
  datatype Call = Call(directive: Directive, ok: bool)

  /** A call of `d`: it fails exactly when the oracle says so. */
  function Attempt(d: Directive, failing: set<Directive>): (c: Call)
    ensures c.directive == d
    ensures c.ok <==> d !in failing
  {
    Call(d, d !in failing)
  }

  /**
   * Calls made one after another whose failures are caught and ignored:
   * every directive is attempted.
   */
  function Each(ds: seq<Directive>, failing: set<Directive>): (calls: seq<Call>)
    ensures |calls| == |ds|
    ensures forall i :: 0 <= i < |ds| ==> calls[i] == Attempt(ds[i], failing)
  {
    seq(|ds|, i requires 0 <= i < |ds| => Attempt(ds[i], failing))
  }

  /**
   * A `try` whose `except` makes the next attempt: the candidates are
   * attempted in order until one succeeds, and a failure of the last one
   * is caught and dropped.
   */
  function Chain(candidates: seq<Directive>, failing: set<Directive>): seq<Call>
    decreases |candidates|
  {
    if candidates == [] then []
    else
      var c := Attempt(candidates[0], failing);
      if c.ok then [c] else [c] + Chain(candidates[1..], failing)
  }

  /**
   * What a chain does: it attempts a prefix of the candidates, in order,
   * each after the previous one failed; it stops early only at a success,
   * and attempts at least the first candidate.
   */
  lemma {:induction false} ChainMeaning(candidates: seq<Directive>, failing: set<Directive>)
    ensures var calls := Chain(candidates, failing);
      && |calls| <= |candidates|
      && (candidates != [] ==> calls != [])
      && (forall i :: 0 <= i < |calls| ==> calls[i] == Attempt(candidates[i], failing))
      && (forall i :: 0 <= i < |calls| - 1 ==> !calls[i].ok)
      && (|calls| < |candidates| ==> calls[|calls| - 1].ok)
  {
    if candidates != [] {
      ChainMeaning(candidates[1..], failing);
      var c := Attempt(candidates[0], failing);
      if !c.ok {
        var rest := Chain(candidates[1..], failing);
        var calls := [c] + rest;
        assert forall i :: 1 <= i < |calls| ==> calls[i] == rest[i - 1];
      }
    }
  }

  /** A chain makes at most one successful call, and it is the last call made. */
  lemma AtMostOneSuccess(candidates: seq<Directive>, failing: set<Directive>)
    ensures var calls := Chain(candidates, failing);
      forall i :: 0 <= i < |calls| && calls[i].ok ==> i == |calls| - 1
  {
    ChainMeaning(candidates, failing);
  }

  /** Every directive a chain issues is one of its candidates. */
  lemma ChainFrom(candidates: seq<Directive>, failing: set<Directive>)
    ensures var calls := Chain(candidates, failing);
      forall i :: 0 <= i < |calls| ==> calls[i].directive in candidates
  {
    ChainMeaning(candidates, failing);
  }

  /** A chain of candidates ends with a call that succeeded or with an attempt at its last candidate. */
  lemma ChainEnds(candidates: seq<Directive>, failing: set<Directive>)
    ensures var calls := Chain(candidates, failing);
      candidates != [] ==>
        calls != [] && (calls[|calls| - 1].ok || calls[|calls| - 1].directive == candidates[|candidates| - 1])
  {
    ChainMeaning(candidates, failing);
  }

  /** The `add_new_page` directives of a log, in order. */
  function AddedPages(calls: seq<Call>): (ps: seq<Directive>)
    ensures |ps| <= |calls|
    ensures forall i :: 0 <= i < |ps| ==> ps[i].AddPage?
  {
    if calls == [] then []
    else
      var d := calls[|calls| - 1].directive;
      AddedPages(calls[..|calls| - 1]) + (if d.AddPage? then [d] else [])
  }

  lemma {:induction false} AddedPagesAppend(a: seq<Call>, b: seq<Call>)
    ensures AddedPages(a + b) == AddedPages(a) + AddedPages(b)
    decreases |b|
  {
    if b != [] {
      var bi := b[..|b| - 1];
      assert (a + b)[..|a + b| - 1] == a + bi;
      AddedPagesAppend(a, bi);
    } else {
      assert a + b == a;
    }
  }

  /** No call of the log adds a page. */
  predicate AddsNoPage(calls: seq<Call>)
  {
    forall i :: 0 <= i < |calls| ==> !calls[i].directive.AddPage?
  }

  lemma AddsNoPageAppend(a: seq<Call>, b: seq<Call>)
    ensures AddsNoPage(a + b) <==> AddsNoPage(a) && AddsNoPage(b)
  {
    if AddsNoPage(a) && AddsNoPage(b) {
      forall i | 0 <= i < |a + b| ensures !(a + b)[i].directive.AddPage? {
        if i >= |a| {
          assert (a + b)[i] == b[i - |a|];
        }
      }
    }
    if AddsNoPage(a + b) {
      forall i | 0 <= i < |a| ensures !a[i].directive.AddPage? {
        assert (a + b)[i] == a[i];
      }
      forall i | 0 <= i < |b| ensures !b[i].directive.AddPage? {
        assert (a + b)[|a| + i] == b[i];
      }
    }
  }

  /** A log none of whose calls adds a page adds no page. */
  lemma {:induction false} NoPagesAdded(calls: seq<Call>)
    requires AddsNoPage(calls)
    ensures AddedPages(calls) == []
  {
    if calls != [] {
      NoPagesAdded(calls[..|calls| - 1]);
    }
  }
}
