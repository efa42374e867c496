/**
 * `PowerBIConverter._clean_column_name`: the qualified Tableau column
 * identifier is searched with the regular expression
 *     (?:\[.*\]\.)*(?:\[)?([^\[\]]+)(?:\])?$
 * and its group is freed of one leading aggregation token. The search is
 * modelled as Python's engine runs it: start positions left to right, and at
 * each start a backtracking search that tries one more `[...].` repetition
 * before the tail, with `.*` (which never crosses a newline) longest first;
 * `$` matches at the end or just before a final newline.
 */
module ColumnNames {
  import opened Wrappers

  predicate IsBracket(c: char)
  {
    c == '[' || c == ']'
  }

  predicate BracketFree(s: string)
  {
    forall i :: 0 <= i < |s| ==> !IsBracket(s[i])
  }

  predicate NewlineFree(s: string)
  {
    forall i :: 0 <= i < |s| ==> s[i] != '\n'
  }

  /** End of the greedy run `[^\[\]]+` that starts at `q`. */
  function RunEnd(s: string, q: nat): (m: nat)
    requires q <= |s|
    ensures q <= m <= |s|
    ensures forall i :: q <= i < m ==> !IsBracket(s[i])
    ensures m < |s| ==> IsBracket(s[m])
    decreases |s| - q
  {
    if q < |s| && !IsBracket(s[q]) then RunEnd(s, q + 1) else q
  }

  /** End of the greedy run `.*` that starts at `p` (`.` does not match a newline). */
  function LineEnd(s: string, p: nat): (k: nat)
    requires p <= |s|
    ensures p <= k <= |s|
    ensures forall i :: p <= i < k ==> s[i] != '\n'
    ensures k < |s| ==> s[k] == '\n'
    decreases |s| - p
  {
    if p < |s| && s[p] != '\n' then LineEnd(s, p + 1) else p
  }

  /** `$` at position `p`. */
  predicate AtEnd(s: string, p: nat)
  {
    p == |s| || (p + 1 == |s| && s[p] == '\n')
  }

  /**
   * The tail `(?:\[)?([^\[\]]+)(?:\])?$` tried at `p`: the start of the group
   * when it matches. Once the greedy run has stopped at a bracket no shorter
   * run can be followed by `$`, so the group always spans the whole run.
   */
  function TailMatch(s: string, p: nat): (r: Option<nat>)
    requires p <= |s|
    ensures r.Some? ==> p <= r.value < |s| && r.value < RunEnd(s, r.value)
  {
    var q := if p < |s| && s[p] == '[' then p + 1 else p;
    var m := RunEnd(s, q);
    if q < m && (AtEnd(s, m) || (m < |s| && s[m] == ']' && AtEnd(s, m + 1))) then Some(q) else None
  }

  /** A `]` at `k` followed by the `.` that closes a `\[.*\]\.` repetition. */
  predicate IsRepetitionEnd(s: string, k: nat)
  {
    k + 1 < |s| && s[k] == ']' && s[k + 1] == '.'
  }

  /**
   * The first successful match of the whole pattern from position `p` in the
   * engine's order: one more repetition first, the tail last.
   */
  function StarMatch(s: string, p: nat): (r: Option<nat>)
    requires p <= |s|
    ensures r.Some? ==> p <= r.value < |s| && r.value < RunEnd(s, r.value)
    decreases |s| - p, |s| + 1
  {
    var more := if p < |s| && s[p] == '[' then TryRepetition(s, p, LineEnd(s, p + 1)) else None;
    if more.Some? then more else TailMatch(s, p)
  }

  /** One more repetition opened by the `[` at `p`, its `]` tried at `e`, `e - 1`, ..., `p + 1`. */
  function TryRepetition(s: string, p: nat, e: nat): (r: Option<nat>)
    requires p < |s| && e <= |s|
    ensures r.Some? ==> p < r.value < |s| && r.value < RunEnd(s, r.value)
    decreases |s| - p, e
  {
    if e <= p then None
    else
      var deeper := if IsRepetitionEnd(s, e) then StarMatch(s, e + 2) else None;
      if deeper.Some? then deeper else TryRepetition(s, p, e - 1)
  }

  /** `re.search`: the first start position, from `i` on, at which the pattern matches. */
  function Search(s: string, i: nat): (r: Option<nat>)
    requires i <= |s|
    ensures r.Some? ==> i <= r.value < |s| && r.value < RunEnd(s, r.value)
    decreases |s| - i
  {
    var here := StarMatch(s, i);
    if here.Some? then here else if i < |s| then Search(s, i + 1) else None
  }

  const AggregationPrefixes: seq<string> := ["Sum:", "Avg:", "Min:", "Max:", "Count:"]

  /** `re.sub(r'^(?:Sum|Avg|Min|Max|Count):', '', g)`: drops one leading aggregation token. */
  function StripAggregation(g: string): (r: string)
    ensures |r| <= |g| && r == g[|g| - |r|..]
    ensures r == g || exists i :: 0 <= i < |AggregationPrefixes| && g == AggregationPrefixes[i] + r
    ensures (forall i :: 0 <= i < |AggregationPrefixes| ==> !(AggregationPrefixes[i] <= g)) ==> r == g
  {
    if "Sum:" <= g then
      assert g == AggregationPrefixes[0] + g[4..];
      g[4..]
    else if "Avg:" <= g then
      assert g == AggregationPrefixes[1] + g[4..];
      g[4..]
    else if "Min:" <= g then
      assert g == AggregationPrefixes[2] + g[4..];
      g[4..]
    else if "Max:" <= g then
      assert g == AggregationPrefixes[3] + g[4..];
      g[4..]
    else if "Count:" <= g then
      assert g == AggregationPrefixes[4] + g[6..];
      g[6..]
    else g
  }

  /** `_clean_column_name`: the group of the first match, aggregation token removed; the input itself when nothing matches. */
  function CleanColumnName(name: string): (r: string)
    ensures Search(name, 0).None? ==> r == name
    ensures Search(name, 0).Some? ==> BracketFree(r)
  {
    match Search(name, 0)
    case None => name
    case Some(q) => StripAggregation(name[q..RunEnd(name, q)])
  }

  /** Positions that cannot close a repetition are passed over by the `.*` backtracking. */
  lemma {:induction false} RepetitionSkip(s: string, p: nat, e: nat, lo: nat)
    requires p <= lo <= e <= |s| && p < |s|
    requires forall k :: lo < k <= e ==> !IsRepetitionEnd(s, k)
    ensures TryRepetition(s, p, e) == TryRepetition(s, p, lo)
    decreases e
  {
    if e > lo {
      RepetitionSkip(s, p, e - 1, lo);
    }
  }

  /** A bare name without brackets is its own group: `"Sum:Sales"` cleans to `"Sales"`. */
  lemma PlainName(c: string)
    requires c != [] && BracketFree(c)
    ensures CleanColumnName(c) == StripAggregation(c)
  {
    assert c[0] != '[';
    assert RunEnd(c, 0) == |c|;
    assert TailMatch(c, 0) == Some(0);
    assert c[0..|c|] == c;
  }

  /** `[c]` cleans to `c` without its aggregation token. */
  lemma BracketedName(c: string)
    requires c != [] && BracketFree(c)
    ensures CleanColumnName("[" + c + "]") == StripAggregation(c)
  {
    var s := "[" + c + "]";
    assert forall k :: 0 < k <= |s| ==> !IsRepetitionEnd(s, k);
    RepetitionSkip(s, 0, LineEnd(s, 1), 0);
    assert forall i :: 1 <= i < |c| + 1 ==> s[i] == c[i - 1];
    assert forall i :: 1 <= i < |c| + 1 ==> !IsBracket(s[i]);
    assert s[|c| + 1] == ']';
    assert RunEnd(s, 1) == |c| + 1;
    assert TailMatch(s, 0) == Some(1);
    assert StarMatch(s, 0) == Some(1);
    assert s[1..|c| + 1] == c;
  }

  /** In `[d].[c]` the search from the `[` of `c` finds the tail group `c`. */
  lemma QualifiedTail(d: string, c: string)
    requires c != [] && BracketFree(c)
    ensures var s := "[" + d + "].[" + c + "]";
      var n := |d|;
      && StarMatch(s, n + 3) == Some(n + 4) && RunEnd(s, n + 4) == |s| - 1 && s[n + 4..|s| - 1] == c
      && forall k :: n + 3 < k <= |s| ==> !IsRepetitionEnd(s, k)
  {
    var s := "[" + d + "].[" + c + "]";
    var n := |d|;
    assert |s| == n + |c| + 5;
    assert s[n + 3] == '[' && s[|s| - 1] == ']';
    assert forall i :: n + 4 <= i < |s| - 1 ==> s[i] == c[i - n - 4];
    // After the opening `[` of `c` nothing can close a repetition.
    assert forall k :: n + 3 < k <= |s| ==> !IsRepetitionEnd(s, k);
    RepetitionSkip(s, n + 3, LineEnd(s, n + 4), n + 3);
    assert RunEnd(s, n + 4) == |s| - 1;
    assert TailMatch(s, n + 3) == Some(n + 4);
    assert s[n + 4..|s| - 1] == c;
  }

  /**
   * A `[` at 0 whose line closes a repetition first at `n + 1`, followed by a
   * match at `n + 3`: the whole search from 0 yields that match.
   */
  lemma OuterRepetition(s: string, n: nat, g: nat)
    requires n + 3 <= |s| && s[0] == '['
    requires forall i :: 1 <= i < n + 3 ==> s[i] != '\n'
    requires IsRepetitionEnd(s, n + 1)
    requires forall k :: n + 1 < k <= |s| ==> !IsRepetitionEnd(s, k)
    requires StarMatch(s, n + 3) == Some(g)
    ensures StarMatch(s, 0) == Some(g)
  {
    assert LineEnd(s, 1) >= n + 2 by {
      LineEndReaches(s, 1, n + 2);
    }
    RepetitionSkip(s, 0, LineEnd(s, 1), n + 1);
  }

  /** `.*` from `p` runs at least to `q` when no newline stands before `q`. */
  lemma {:induction false} LineEndReaches(s: string, p: nat, q: nat)
    requires p <= q <= |s|
    requires forall i :: p <= i < q ==> s[i] != '\n'
    ensures LineEnd(s, p) >= q
    decreases q - p
  {
    if p < q {
      LineEndReaches(s, p + 1, q);
    }
  }

  /**
   * A qualified identifier `[d].[c]` cleans to `c` without its aggregation
   * token: the greedy repetition consumes `[d].` and the tail takes `[c]`.
   */
  lemma QualifiedName(d: string, c: string)
    requires c != [] && BracketFree(c) && BracketFree(d) && NewlineFree(d)
    ensures CleanColumnName("[" + d + "].[" + c + "]") == StripAggregation(c)
  {
    var s := "[" + d + "].[" + c + "]";
    var n := |d|;
    QualifiedTail(d, c);
    assert Search(s, 0) == Some(n + 4) by {
      assert |s| == n + |c| + 5;
      assert s[n + 1] == ']' && s[n + 2] == '.' && s[n + 3] == '[';
      forall i | 1 <= i < n + 1
        ensures s[i] != '\n'
      {
        assert s[i] == d[i - 1];
      }
      OuterRepetition(s, n, n + 4);
    }
  }

  /** The example of the source's own comment. */
  lemma CleanNameDocExample()
    ensures CleanColumnName("[Datasource].[Sum:Sales]") == "Sales"
  {
    assert "[Datasource].[Sum:Sales]" == "[" + "Datasource" + "].[" + "Sum:Sales" + "]";
    QualifiedName("Datasource", "Sum:Sales");
    StripAggregationOnce(0, "Sales");
  }

  /** A single bracketed segment loses its brackets. */
  lemma CleanNameBracketExample()
    ensures CleanColumnName("[Orders]") == "Orders"
  {
    var c := "Orders";
    assert BracketFree(c);
    assert "[Orders]" == "[" + c + "]";
    BracketedName(c);
    assert c[0] == 'O';
    assert StripAggregation(c) == c;
  }

  /** In `[a].b` the repetition consumes `[a].`, so only `b` is left. */
  lemma CleanNameUnbracketedTail()
    ensures CleanColumnName("[a].b") == "b"
  {
    var s := "[a].b";
    assert forall k :: 2 < k <= |s| ==> !IsRepetitionEnd(s, k);
    RepetitionSkip(s, 0, LineEnd(s, 1), 2);
    assert IsRepetitionEnd(s, 2);
    assert RunEnd(s, 4) == 5;
    assert StarMatch(s, 4) == Some(4);
    assert StarMatch(s, 0) == Some(4);
    assert s[4..5] == "b";
  }

  /** Exactly one leading aggregation token is removed, never a second one. */
  lemma StripAggregationOnce(i: nat, x: string)
    requires i < |AggregationPrefixes|
    ensures StripAggregation(AggregationPrefixes[i] + x) == x
  {
    var g := AggregationPrefixes[i] + x;
    if i == 4 {
      assert g[0] == 'C' && g[1] == 'o';
      assert g[6..] == x;
    } else {
      assert g[4..] == x;
    }
  }

  /** Whatever a repetition-first search returns was found by the tail at some later position. */
  lemma {:induction false} StarFromTail(s: string, p: nat)
    requires p <= |s|
    ensures StarMatch(s, p).Some? ==> exists q :: p <= q <= |s| && TailMatch(s, q) == StarMatch(s, p)
    decreases |s| - p, |s| + 1
  {
    if p < |s| && s[p] == '[' {
      RepetitionFromTail(s, p, LineEnd(s, p + 1));
    }
  }

  lemma {:induction false} RepetitionFromTail(s: string, p: nat, e: nat)
    requires p < |s| && e <= |s|
    ensures TryRepetition(s, p, e).Some? ==> exists q :: p < q <= |s| && TailMatch(s, q) == TryRepetition(s, p, e)
    decreases |s| - p, e
  {
    if e > p {
      if IsRepetitionEnd(s, e) {
        StarFromTail(s, e + 2);
      }
      RepetitionFromTail(s, p, e - 1);
    }
  }

  lemma {:induction false} SearchFindsStar(s: string, i: nat)
    requires i <= |s|
    ensures Search(s, i).Some? ==> exists j :: i <= j <= |s| && StarMatch(s, j) == Search(s, i)
    decreases |s| - i
  {
    if StarMatch(s, i).None? && i < |s| {
      SearchFindsStar(s, i + 1);
    }
  }

  lemma {:induction false} SearchReaches(s: string, i: nat, q: nat)
    requires i <= q <= |s| && TailMatch(s, q).Some?
    ensures Search(s, i).Some?
    decreases q - i
  {
    if i < q && StarMatch(s, i).None? {
      SearchReaches(s, i + 1, q);
    }
  }

  /**
   * The pattern matches exactly when the tail `\[?([^\[\]]+)\]?$` matches at
   * some position, and the group then is one the tail found; otherwise the
   * name is kept as it is.
   */
  lemma MatchesIffTailMatches(s: string)
    ensures Search(s, 0).Some? <==> exists q :: 0 <= q <= |s| && TailMatch(s, q).Some?
    ensures Search(s, 0).Some? ==> exists q :: 0 <= q <= |s| && TailMatch(s, q) == Search(s, 0)
  {
    if Search(s, 0).Some? {
      SearchFindsStar(s, 0);
      var j :| 0 <= j <= |s| && StarMatch(s, j) == Search(s, 0);
      StarFromTail(s, j);
    }
    if q :| 0 <= q <= |s| && TailMatch(s, q).Some? {
      SearchReaches(s, 0, q);
    }
  }
}
