/**
 * The benchmark runner: each question of the DJIA question set is answered by
 * the database-query agent, the outcome is recorded on the question's entry,
 * compared with the expected answer when there is one, and the question list is
 * written back after each question or once at the end.
 */
module Djia {
  import opened Wrappers
  import opened Strings
  import opened PyDict
  import opened DatabaseQuery

  // ---------------------------------------------------------------- entries

  /** What `run_single_query` records under `query_result`. `matchesExpected` is
      missing when the entry has no expected answer. */
  datatype QueryRecord =
    | Recorded(sqlQuery: string, columns: seq<string>, results: seq<Row>, executionTime: real,
               matchesExpected: Option<bool>, extractedAnswer: string)
    | Failed(error: string)

  /** One entry of the question list: its question, its expected answer if any, the
      fields the runner does not read, and the result of the last run if any. */
  datatype QuestionData = QuestionData(number: string, question: string, answer: Option<string>,
                                       other: Dict<string>, queryResult: Option<QueryRecord>)

  /** What the agent and the clock gave for one run: `query_with_retry`'s outcome and
      the measured time, already rounded to two decimals. */
  datatype AgentRun = AgentRun(result: Call<Option<QueryResult>>, elapsed: real)

  /** Python's own text renderings, which the runner uses but does not define:
      `str()` of a row dictionary, and the number formats `"${:.2f}"` and `"{:,.0f}"`. */
  datatype Renderings = Renderings(strOfRow: Row -> string, money: string -> string, thousands: string -> string)

  // ---------------------------------------------------------------- _compare_results

  /** `s.replace('$', '').replace(',', '').lower()`. */
  function CleanText(s: string): string {
    Lower(ReplaceAll(ReplaceAll(s, "$", ""), ",", ""))
  }

  /** A cleaned text has no dollar sign and no comma. */
  lemma CleanTextHasNoSeparators(s: string)
    ensures '$' !in CleanText(s) && ',' !in CleanText(s)
  {
    var a := ReplaceAll(s, "$", "");
    var b := ReplaceAll(a, ",", "");
    RemoveCharKeepsOthers(s, '$');
    RemoveCharKeepsOthers(a, ',');
    var r := CleanText(s);
    forall i | 0 <= i < |r| ensures r[i] != '$' && r[i] != ',' {
      assert b[i] in b;
    }
  }

  /** `_compare_results`: no rows never match; otherwise the cleaned expected answer
      must occur in the cleaned text of the first row. */
  function CompareResults(results: seq<Row>, expected: string, fmt: Renderings): bool {
    |results| > 0 && Contains(CleanText(fmt.strOfRow(results[0])), CleanText(expected))
  }

  /** Both halves: empty results are a mismatch, and a match means an occurrence at
      some position of the first row's cleaned text. */
  lemma CompareResultsIff(results: seq<Row>, expected: string, fmt: Renderings)
    ensures |results| == 0 ==> !CompareResults(results, expected, fmt)
    ensures CompareResults(results, expected, fmt) <==>
      |results| > 0 && exists i :: OccursAt(CleanText(fmt.strOfRow(results[0])), CleanText(expected), i)
  {
    if |results| > 0 {
      ContainsIff(CleanText(fmt.strOfRow(results[0])), CleanText(expected));
    }
  }

  // ---------------------------------------------------------------- _extract_answer_from_results

  const NoResult := "Không có kết quả"

  /** The text shown for one value: numbers between 0 and 10000 (exclusive) as money,
      other numbers with thousands separators, strings as they are, anything else as `str()`. */
  function FormatValue(v: Value, numeric: real, fmt: Renderings): string {
    match v
    case Number(t) => if 0.0 < numeric < 10000.0 then fmt.money(t) else fmt.thousands(t)
    case Text(s) => s
    case Other(t) => t
  }

  /** `_extract_answer_from_results`: the first value of the first row (an empty row
      stands for itself, which prints as "{}"); `numeric` is that value as a float. */
  function ExtractAnswer(results: seq<Row>, numeric: real, fmt: Renderings): (r: string)
    ensures |results| == 0 ==> r == NoResult
    ensures |results| > 0 && |results[0]| > 0 && results[0][0].1.Text? ==> r == results[0][0].1.s
    ensures |results| > 0 && |results[0]| == 0 ==> r == "{}"
  {
    if |results| == 0 then NoResult
    else if |results[0]| > 0 then FormatValue(results[0][0].1, numeric, fmt)
    else "{}"
  }

  /** The value read is the one stored under the row's first key, which for a query
      row with distinct column names is the first column. */
  lemma ExtractReadsFirstColumn(columns: seq<string>, row: seq<Value>, numeric: real, fmt: Renderings)
    requires |columns| > 0 && |row| > 0
    requires Sequences.NoDuplicates(columns)
    ensures var d := Zip(columns, row);
      |d| > 0 && d[0].0 == columns[0] && Get(d, columns[0]) == Some(row[0])
      && ExtractAnswer([d], numeric, fmt) == FormatValue(row[0], numeric, fmt)
  {
    ZipProperties(columns, row);
    var d := Zip(columns, row);
    var n := Min(|columns|, |row|);
    Sequences.DedupProperties(columns[..n]);
    assert columns[..n][0] == columns[0];
    assert Keys(d)[0] == columns[0];
    assert Get(d, columns[0]) == Some(row[0]);
    assert d[0].0 == columns[0];
    assert Get(d, d[0].0) == Some(d[0].1);
  }

  // ---------------------------------------------------------------- run_single_query

  /** The text of the `TypeError` raised when the agent gave None and its result is indexed. */
  const NoneNotSubscriptable := "'NoneType' object is not subscriptable"

  /** `run_single_query`: the agent's result is recorded, or the error it raised is;
      nothing escapes. `numeric` is the first value as a float, as for `ExtractAnswer`. */
  function RunSingleQuery(q: QuestionData, run: AgentRun, numeric: real, fmt: Renderings): (r: QuestionData)
    ensures r.queryResult.Some?
    ensures r.(queryResult := q.queryResult) == q
    ensures r.queryResult.value.Failed? <==> !(run.result.Returned? && run.result.value.Some?)
  {
    var record :=
      match run.result
      case Raised(e) => Failed(e)
      case Returned(None) => Failed(NoneNotSubscriptable)
      case Returned(Some(qr)) =>
        Recorded(qr.query, qr.columns, qr.results, run.elapsed,
                 if q.answer.Some? then Some(CompareResults(qr.results, q.answer.value, fmt)) else None,
                 ExtractAnswer(qr.results, numeric, fmt));
    q.(queryResult := Some(record))
  }

  /** A recorded success carries the agent's query, columns and rows unchanged, and
      compares exactly when the entry has an expected answer; a failure keeps the
      exception's text. */
  lemma RunSingleQueryRecords(q: QuestionData, run: AgentRun, numeric: real, fmt: Renderings)
    ensures var r := RunSingleQuery(q, run, numeric, fmt).queryResult.value;
      (r.Recorded? ==>
         r.sqlQuery == run.result.value.value.query && r.columns == run.result.value.value.columns
         && r.results == run.result.value.value.results && r.executionTime == run.elapsed
         && (r.matchesExpected.Some? <==> q.answer.Some?))
      && (run.result.Raised? ==> r == Failed(run.result.error))
  {
  }

  // ---------------------------------------------------------------- run_all_queries / run_filtered_queries

  /** Python's `data[i]`: a negative index counts from the end; out of range raises. */
  function PyIndex(i: int, n: nat): Option<nat> {
    if 0 <= i < n then Some(i)
    else if i < 0 && 0 <= n + i then Some(n + i)
    else None
  }

  /** The inputs of the `t`-th replacement: the agent's run and the float of the first value. */
  datatype Step = Step(run: AgentRun, numeric: real)

  /** The list after the first `m` replacements `data[i] = run_single_query(data[i])`
      for `i` in `idxs`, or None once an index is out of range (an `IndexError`). */
  function ApplyUpTo(d: seq<QuestionData>, idxs: seq<int>, steps: nat -> Step, m: nat, fmt: Renderings): (r: Option<seq<QuestionData>>)
    requires m <= |idxs|
    ensures r.Some? ==> |r.value| == |d|
    decreases m
  {
    if m == 0 then Some(d)
    else
      match ApplyUpTo(d, idxs, steps, m - 1, fmt)
      case None => None
      case Some(e) =>
        match PyIndex(idxs[m - 1], |e|)
        case None => None
        case Some(k) => Some(e[k := RunSingleQuery(e[k], steps(m - 1).run, steps(m - 1).numeric, fmt)])
  }

  /** The lists written by `save_results` after each replacement, up to `m`. */
  function Snapshots(d: seq<QuestionData>, idxs: seq<int>, steps: nat -> Step, m: nat, fmt: Renderings): seq<seq<QuestionData>>
    requires m <= |idxs|
    decreases m
  {
    if m == 0 then []
    else
      var prev := Snapshots(d, idxs, steps, m - 1, fmt);
      var now := ApplyUpTo(d, idxs, steps, m, fmt);
      if now.Some? then prev + [now.value] else prev
  }

  /** The indices `run_all_queries` visits: `range(start, end)` with `end` the total,
      or `min(start + limit, total)` when a limit is given. */
  function AllIndices(start: int, limit: Option<int>, total: nat): (r: seq<int>)
    ensures var e := if limit.None? then total else if start + limit.value < total then start + limit.value else total;
      |r| == (if start <= e then e - start else 0) && forall t :: 0 <= t < |r| ==> r[t] == start + t
  {
    var e := if limit.None? then total else if start + limit.value < total then start + limit.value else total;
    if start <= e then seq(e - start, t requires 0 <= t < e - start => start + t) else []
  }

  /** `[i for i, q in enumerate(data) if filter_func(q)]`. */
  function FilteredIndices(data: seq<QuestionData>, keep: QuestionData -> bool): (r: seq<int>)
    ensures forall t :: 0 <= t < |r| ==> 0 <= r[t] < |data| && keep(data[r[t]])
    ensures forall s, t :: 0 <= s < t < |r| ==> r[s] < r[t]
    ensures forall k :: 0 <= k < |data| && keep(data[k]) ==> k in r
    decreases |data|
  {
    if |data| == 0 then []
    else
      var n := |data| - 1;
      var rest := FilteredIndices(data[..n], keep);
      assert forall k :: 0 <= k < n ==> data[..n][k] == data[k];
      if keep(data[n]) then rest + [n] else rest
  }

  /** With distinct in-range indices, the first `m` replacements each rewrite their own
      entry from its original value, and every other entry stays as it was. */
  lemma {:induction false} ApplyDistinct(d: seq<QuestionData>, idxs: seq<int>, steps: nat -> Step, m: nat, fmt: Renderings)
    requires m <= |idxs|
    requires forall t :: 0 <= t < |idxs| ==> 0 <= idxs[t] < |d|
    requires forall s, t :: 0 <= s < t < |idxs| ==> idxs[s] != idxs[t]
    ensures ApplyUpTo(d, idxs, steps, m, fmt).Some?
    ensures var e := ApplyUpTo(d, idxs, steps, m, fmt).value;
      (forall t :: 0 <= t < m ==> e[idxs[t]] == RunSingleQuery(d[idxs[t]], steps(t).run, steps(t).numeric, fmt))
      && forall k :: 0 <= k < |d| && (forall t :: 0 <= t < m ==> idxs[t] != k) ==> e[k] == d[k]
  {
    ApplyInRange(d, idxs, steps, m, fmt);
    forall t | 0 <= t < m
      ensures ApplyUpTo(d, idxs, steps, m, fmt).value[idxs[t]] == RunSingleQuery(d[idxs[t]], steps(t).run, steps(t).numeric, fmt)
    {
      ApplyVisited(d, idxs, steps, m, fmt, t);
    }
    forall k | 0 <= k < |d| && (forall t :: 0 <= t < m ==> idxs[t] != k)
      ensures ApplyUpTo(d, idxs, steps, m, fmt).value[k] == d[k]
    {
      ApplyUntouched(d, idxs, steps, m, fmt, k);
    }
  }

  /** With every index in range, no replacement raises. */
  lemma {:induction false} ApplyInRange(d: seq<QuestionData>, idxs: seq<int>, steps: nat -> Step, m: nat, fmt: Renderings)
    requires m <= |idxs|
    requires forall t :: 0 <= t < |idxs| ==> 0 <= idxs[t] < |d|
    ensures ApplyUpTo(d, idxs, steps, m, fmt).Some?
    decreases m
  {
    if m > 0 {
      ApplyInRange(d, idxs, steps, m - 1, fmt);
      assert PyIndex(idxs[m - 1], |d|) == Some(idxs[m - 1] as nat);
    }
  }

  /** An entry no replacement so far has named is as it was. */
  lemma {:induction false} ApplyUntouched(d: seq<QuestionData>, idxs: seq<int>, steps: nat -> Step, m: nat, fmt: Renderings, k: nat)
    requires m <= |idxs| && k < |d|
    requires forall t :: 0 <= t < |idxs| ==> 0 <= idxs[t] < |d|
    requires forall t :: 0 <= t < m ==> idxs[t] != k
    ensures ApplyUpTo(d, idxs, steps, m, fmt).Some?
    ensures ApplyUpTo(d, idxs, steps, m, fmt).value[k] == d[k]
    decreases m
  {
    ApplyInRange(d, idxs, steps, m, fmt);
    if m > 0 {
      ApplyUntouched(d, idxs, steps, m - 1, fmt, k);
      assert PyIndex(idxs[m - 1], |d|) == Some(idxs[m - 1] as nat);
      assert idxs[m - 1] != k;
    }
  }

  /** The entry named by the `t`-th replacement holds that replacement's result on
      its original value, since no other replacement names it. */
  lemma {:induction false} ApplyVisited(d: seq<QuestionData>, idxs: seq<int>, steps: nat -> Step, m: nat, fmt: Renderings, t: nat)
    requires t < m <= |idxs|
    requires forall t :: 0 <= t < |idxs| ==> 0 <= idxs[t] < |d|
    requires forall s, t :: 0 <= s < t < |idxs| ==> idxs[s] != idxs[t]
    ensures ApplyUpTo(d, idxs, steps, m, fmt).Some?
    ensures ApplyUpTo(d, idxs, steps, m, fmt).value[idxs[t]] == RunSingleQuery(d[idxs[t]], steps(t).run, steps(t).numeric, fmt)
    decreases m
  {
    ApplyInRange(d, idxs, steps, m, fmt);
    var k := idxs[m - 1];
    assert PyIndex(k, |d|) == Some(k as nat);
    if t == m - 1 {
      assert forall s :: 0 <= s < m - 1 ==> idxs[s] != k;
      ApplyUntouched(d, idxs, steps, m - 1, fmt, k);
    } else {
      ApplyVisited(d, idxs, steps, m - 1, fmt, t);
      assert idxs[t] != k;
    }
  }

  /** `run_all_queries` with a non-negative start: exactly the entries in
      `[start, end)` are rewritten, the `t`-th visited with the `t`-th run, and all others
      are untouched. */
  lemma AllQueriesRewriteTheirRange(d: seq<QuestionData>, start: nat, limit: Option<int>, steps: nat -> Step, fmt: Renderings)
    ensures var idxs := AllIndices(start, limit, |d|);
      var r := ApplyUpTo(d, idxs, steps, |idxs|, fmt);
      r.Some? && forall k :: 0 <= k < |d| ==>
        r.value[k] == if start <= k < start + |idxs| then RunSingleQuery(d[k], steps(k - start).run, steps(k - start).numeric, fmt) else d[k]
  {
    var idxs := AllIndices(start, limit, |d|);
    ApplyDistinct(d, idxs, steps, |idxs|, fmt);
    var e := ApplyUpTo(d, idxs, steps, |idxs|, fmt).value;
    forall k | 0 <= k < |d|
      ensures e[k] == if start <= k < start + |idxs| then RunSingleQuery(d[k], steps(k - start).run, steps(k - start).numeric, fmt) else d[k]
    {
      if start <= k < start + |idxs| {
        assert idxs[k - start] == k;
      }
    }
  }

  /** `run_filtered_queries`: exactly the entries the filter keeps are rewritten, in
      ascending order, and all others are untouched. */
  lemma FilteredQueriesRewriteKept(d: seq<QuestionData>, keep: QuestionData -> bool, steps: nat -> Step, fmt: Renderings)
    ensures var idxs := FilteredIndices(d, keep);
      var r := ApplyUpTo(d, idxs, steps, |idxs|, fmt);
      r.Some? && forall k :: 0 <= k < |d| ==>
        (keep(d[k]) ==> exists t :: 0 <= t < |idxs| && idxs[t] == k && r.value[k] == RunSingleQuery(d[k], steps(t).run, steps(t).numeric, fmt))
        && (!keep(d[k]) ==> r.value[k] == d[k])
  {
    var idxs := FilteredIndices(d, keep);
    ApplyDistinct(d, idxs, steps, |idxs|, fmt);
    var e := ApplyUpTo(d, idxs, steps, |idxs|, fmt).value;
    forall k | 0 <= k < |d| && keep(d[k])
      ensures exists t :: 0 <= t < |idxs| && idxs[t] == k && e[k] == RunSingleQuery(d[k], steps(t).run, steps(t).numeric, fmt)
    {
      var t :| 0 <= t < |idxs| && idxs[t] == k;
    }
  }

  /** The runner; `saved` is the sequence of lists written to the output file. */
  class DjiaQueryRunner {
    const jsonFilePath: string
    const outputFilePath: string
    var saved: seq<seq<QuestionData>>

    /** `output_file_path or json_file_path`. */
    constructor(jsonFilePath: string, outputFilePath: Option<string>)
      ensures this.jsonFilePath == jsonFilePath
      ensures this.outputFilePath == if outputFilePath.Some? && outputFilePath.value != "" then outputFilePath.value else jsonFilePath
      ensures saved == []
    {
      this.jsonFilePath := jsonFilePath;
      this.outputFilePath := if outputFilePath.Some? && outputFilePath.value != "" then outputFilePath.value else jsonFilePath;
      saved := [];
    }

    /** The loop shared by both runners: replace `data[i]` for each index in turn,
        saving after each when asked. Returns false when an index raised. */
    method ProcessIndices(data: array<QuestionData>, idxs: seq<int>, steps: nat -> Step, saveAfterEach: bool, fmt: Renderings)
      returns (ok: bool)
      modifies data, this
      ensures ok <==> ApplyUpTo(old(data[..]), idxs, steps, |idxs|, fmt).Some?
      ensures ok ==> data[..] == ApplyUpTo(old(data[..]), idxs, steps, |idxs|, fmt).value
      ensures saved == old(saved) + if saveAfterEach then Snapshots(old(data[..]), idxs, steps, |idxs|, fmt) else []
    {
      ghost var d := data[..];
      var t := 0;
      while t < |idxs|
        invariant 0 <= t <= |idxs|
        invariant ApplyUpTo(d, idxs, steps, t, fmt) == Some(data[..])
        invariant saved == old(saved) + if saveAfterEach then Snapshots(d, idxs, steps, t, fmt) else []
      {
        var i := idxs[t];
        var n := data.Length;
        var k: nat;
        if 0 <= i < n {
          k := i;
        } else if i < 0 && 0 <= n + i {
          k := n + i;
        } else {
          ApplyFails(d, idxs, steps, t, fmt, data[..]);
          return false;
        }
        ghost var e := data[..];
        ApplyNext(d, idxs, steps, t, fmt, e, k);
        data[k] := RunSingleQuery(data[k], steps(t).run, steps(t).numeric, fmt);
        assert data[..] == e[k := RunSingleQuery(e[k], steps(t).run, steps(t).numeric, fmt)];
        if saveAfterEach {
          assert (old(saved) + Snapshots(d, idxs, steps, t, fmt)) + [data[..]]
              == old(saved) + (Snapshots(d, idxs, steps, t, fmt) + [data[..]]);
          saved := saved + [data[..]];
        }
        t := t + 1;
      }
      return true;
    }

    /** `run_all_queries`: None when an index raised (Python reads a negative index
        from the end, and one below minus the length raises); otherwise the updated
        list, saved after each question or once at the end. */
    method RunAllQueries(loaded: seq<QuestionData>, start: int, limit: Option<int>, saveAfterEach: bool,
                         steps: nat -> Step, fmt: Renderings)
      returns (r: Option<seq<QuestionData>>)
      modifies this
      ensures var idxs := AllIndices(start, limit, |loaded|);
        r == ApplyUpTo(loaded, idxs, steps, |idxs|, fmt)
        && saved == old(saved) + (if saveAfterEach then Snapshots(loaded, idxs, steps, |idxs|, fmt)
                                  else if r.Some? then [r.value] else [])
    {
      var data := new QuestionData[|loaded|](j requires 0 <= j < |loaded| => loaded[j]);
      assert data[..] == loaded;
      var idxs := AllIndices(start, limit, |loaded|);
      var ok := ProcessIndices(data, idxs, steps, saveAfterEach, fmt);
      if !ok {
        return None;
      }
      if !saveAfterEach {
        saved := saved + [data[..]];
      }
      r := Some(data[..]);
    }

    /** `run_filtered_queries`: the kept entries are rewritten in order; with saving
        after each off, the single final save happens only if some entry was kept. */
    method RunFilteredQueries(loaded: seq<QuestionData>, keep: QuestionData -> bool, saveAfterEach: bool,
                              steps: nat -> Step, fmt: Renderings)
      returns (r: seq<QuestionData>)
      modifies this
      ensures var idxs := FilteredIndices(loaded, keep);
        Some(r) == ApplyUpTo(loaded, idxs, steps, |idxs|, fmt)
        && saved == old(saved) + (if saveAfterEach then Snapshots(loaded, idxs, steps, |idxs|, fmt)
                                  else if |idxs| > 0 then [r] else [])
    {
      var data := new QuestionData[|loaded|](j requires 0 <= j < |loaded| => loaded[j]);
      assert data[..] == loaded;
      var idxs := FilteredIndices(loaded, keep);
      ApplyInRange(loaded, idxs, steps, |idxs|, fmt);
      var ok := ProcessIndices(data, idxs, steps, saveAfterEach, fmt);
      if !saveAfterEach && |idxs| > 0 {
        saved := saved + [data[..]];
      }
      r := data[..];
    }
  }

  /** One more replacement with an index in range: the slot it names is rewritten,
      and that list is the next one saved. */
  lemma ApplyNext(d: seq<QuestionData>, idxs: seq<int>, steps: nat -> Step, t: nat, fmt: Renderings,
                  e: seq<QuestionData>, k: nat)
    requires t < |idxs| && ApplyUpTo(d, idxs, steps, t, fmt) == Some(e) && PyIndex(idxs[t], |e|) == Some(k)
    ensures k < |e|
    ensures ApplyUpTo(d, idxs, steps, t + 1, fmt) == Some(e[k := RunSingleQuery(e[k], steps(t).run, steps(t).numeric, fmt)])
    ensures Snapshots(d, idxs, steps, t + 1, fmt)
      == Snapshots(d, idxs, steps, t, fmt) + [e[k := RunSingleQuery(e[k], steps(t).run, steps(t).numeric, fmt)]]
  {
  }

  /** An index out of range stops the run: no list comes out and nothing more is saved. */
  lemma ApplyFails(d: seq<QuestionData>, idxs: seq<int>, steps: nat -> Step, t: nat, fmt: Renderings,
                   e: seq<QuestionData>)
    requires t < |idxs| && ApplyUpTo(d, idxs, steps, t, fmt) == Some(e) && PyIndex(idxs[t], |e|).None?
    ensures ApplyUpTo(d, idxs, steps, |idxs|, fmt).None?
    ensures Snapshots(d, idxs, steps, |idxs|, fmt) == Snapshots(d, idxs, steps, t, fmt)
  {
    NoneStaysNone(d, idxs, steps, t + 1, fmt);
    SnapshotsStop(d, idxs, steps, t + 1, fmt);
  }

  /** Once an index has raised, the run stays failed. */
  lemma {:induction false} NoneStaysNone(d: seq<QuestionData>, idxs: seq<int>, steps: nat -> Step, m: nat, fmt: Renderings)
    requires 0 < m <= |idxs|
    requires ApplyUpTo(d, idxs, steps, m, fmt).None?
    ensures ApplyUpTo(d, idxs, steps, |idxs|, fmt).None?
    decreases |idxs| - m
  {
    if m < |idxs| {
      NoneStaysNone(d, idxs, steps, m + 1, fmt);
    }
  }

  /** Once an index has raised, nothing more is saved. */
  lemma {:induction false} SnapshotsStop(d: seq<QuestionData>, idxs: seq<int>, steps: nat -> Step, m: nat, fmt: Renderings)
    requires 0 < m <= |idxs|
    requires ApplyUpTo(d, idxs, steps, m, fmt).None?
    ensures Snapshots(d, idxs, steps, |idxs|, fmt) == Snapshots(d, idxs, steps, m - 1, fmt)
    decreases |idxs| - m
  {
    if m < |idxs| {
      SnapshotsStop(d, idxs, steps, m + 1, fmt);
    }
  }
}
