/**
 * The database-query agent: the SQL the language model writes is cleaned of
 * Markdown code fences, executed, and each fetched row is turned into a
 * dictionary keyed by column name; the whole generate-and-execute step is
 * retried a bounded number of times.
 */
module DatabaseQuery {
  import opened Wrappers
  import opened Strings
  import opened Sequences
  import opened PyDict

  /** A value fetched by the driver, with the text Python's `str()` gives for it.
      `Number` covers int (bool included, as in Python), float and Decimal; `Other` covers None, dates and the rest. */
  datatype Value = Number(text: string) | Text(s: string) | Other(text: string)

  function Str(v: Value): string {
    match v
    case Number(t) => t
    case Text(s) => s
    case Other(t) => t
  }

  /** What the driver hands back for one statement: the column names and the row tuples. */
  datatype Table = Table(columns: seq<string>, rows: seq<seq<Value>>)

  /** A row as `dict(zip(columns, row))`. */
  type Row = Dict<Value>

  /** The dictionary `query_with_retry` returns. */
  datatype QueryResult = QueryResult(query: string, columns: seq<string>, results: seq<Row>)

  // ---------------------------------------------------------------- generate_query

  /** `raw.replace('```sql', '').replace('```', '').strip()`. */
  function CleanQuery(raw: string): string {
    PyStrip(ReplaceAll(ReplaceAll(raw, "```sql", ""), "```", ""))
  }

  /** The cleaned query holds no code fence of either kind and has no
      surrounding whitespace. */
  lemma CleanQueryHasNoFences(raw: string)
    ensures !Contains(CleanQuery(raw), "```")
    ensures !Contains(CleanQuery(raw), "```sql")
    ensures var q := CleanQuery(raw); |q| > 0 ==> !IsPySpace(q[0]) && !IsPySpace(q[|q| - 1])
  {
    var s := ReplaceAll(raw, "```sql", "");
    assert Triple('`') == "```";
    RemoveTripleLeavesNone(s, '`');
    TrimKeepsAbsence(ReplaceAll(s, "```", ""), IsPySpace, "```");
    OuterHasInner(CleanQuery(raw), "```", "```sql");
  }

  // ---------------------------------------------------------------- formatted_results

  /** `[dict(zip(columns, row)) for row in results]`. */
  function FormatRows(columns: seq<string>, rows: seq<seq<Value>>): (r: seq<Row>)
    ensures |r| == |rows|
  {
    seq(|rows|, i requires 0 <= i < |rows| => Zip(columns, rows[i]))
  }

  /** One dictionary per fetched row, in order; its keys are the distinct column
      names (as far as the row reaches), and with distinct column names every
      column maps to the value at the same position of its row. */
  lemma FormatRowsProperties(columns: seq<string>, rows: seq<seq<Value>>)
    ensures |FormatRows(columns, rows)| == |rows|
    ensures forall i :: 0 <= i < |rows| ==>
      Keys(FormatRows(columns, rows)[i]) == Dedup(columns[..Min(|columns|, |rows[i]|)])
    ensures NoDuplicates(columns) ==>
      forall i, j :: 0 <= i < |rows| && 0 <= j < |columns| && j < |rows[i]| ==>
        Get(FormatRows(columns, rows)[i], columns[j]) == Some(rows[i][j])
  {
    forall i | 0 <= i < |rows|
      ensures Keys(FormatRows(columns, rows)[i]) == Dedup(columns[..Min(|columns|, |rows[i]|)])
      ensures NoDuplicates(columns) ==>
        forall j :: 0 <= j < |columns| && j < |rows[i]| ==>
          Get(FormatRows(columns, rows)[i], columns[j]) == Some(rows[i][j])
    {
      ZipProperties(columns, rows[i]);
    }
  }

  // ---------------------------------------------------------------- query_with_retry

  /** Attempt `k` of the loop body up to the fetch: the model's `k`-th reply (or
      the exception the call raised), cleaned, then executed; gives the query and
      what the database returned. */
  function AttemptAt(k: nat, reply: nat -> Call<string>, execute: (nat, string) -> Call<Table>): Call<(string, Table)> {
    match reply(k)
    case Raised(e) => Raised(e)
    case Returned(raw) =>
      var query := CleanQuery(raw);
      match execute(k, query)
      case Raised(e) => Raised(e)
      case Returned(t) => Returned((query, t))
  }

  /** The dictionary returned for a query and its fetched table. */
  function ResultOf(query: string, t: Table): QueryResult {
    QueryResult(query, t.columns, FormatRows(t.columns, t.rows))
  }

  /** The exception raised once every attempt has failed. */
  function ExhaustedMessage(maxRetries: int, lastError: string): string {
    "Đã thử " + IntToString(maxRetries) + " lần nhưng vẫn thất bại: " + lastError
  }

  /** `query_with_retry`: at most `maxRetries` attempts; the first that succeeds is
      returned; after `maxRetries` failures the last error is raised, with a one-second
      sleep between attempts but none after the final failure. With `maxRetries <= 0`
      the loop never runs and the result is None. `reply(k)` and `execute(k, q)` stand
      for the language model and the database on attempt `k`; `sleeps` counts the
      calls to `time.sleep(1)`. */
  method QueryWithRetry(maxRetries: int, reply: nat -> Call<string>, execute: (nat, string) -> Call<Table>)
    returns (r: Call<Option<QueryResult>>, attempts: nat, sleeps: nat)
    ensures maxRetries <= 0 ==> r == Returned(None) && attempts == 0
    ensures maxRetries > 0 ==> 1 <= attempts <= maxRetries
    ensures sleeps == if attempts == 0 then 0 else attempts - 1
    ensures forall k :: 0 <= k < attempts - 1 ==> AttemptAt(k, reply, execute).Raised?
    ensures r == Returned(None) <==> maxRetries <= 0
    ensures r.Returned? && r.value.Some? ==>
      AttemptAt(attempts - 1, reply, execute).Returned? &&
      r.value.value == ResultOf(AttemptAt(attempts - 1, reply, execute).value.0, AttemptAt(attempts - 1, reply, execute).value.1)
    ensures r.Raised? <==>
      maxRetries > 0 && attempts == maxRetries && AttemptAt(attempts - 1, reply, execute).Raised?
    ensures r.Raised? ==>
      r.error == ExhaustedMessage(maxRetries, AttemptAt(attempts - 1, reply, execute).error)
  {
    var retries: nat := 0;
    sleeps := 0;
    while retries < maxRetries
      invariant retries == 0 || retries < maxRetries
      invariant sleeps == retries
      invariant forall k :: 0 <= k < retries ==> AttemptAt(k, reply, execute).Raised?
    {
      var outcome := AttemptAt(retries, reply, execute);
      if outcome.Returned? {
        return Returned(Some(ResultOf(outcome.value.0, outcome.value.1))), retries + 1, sleeps;
      }
      assert forall k :: 0 <= k < retries + 1 ==> AttemptAt(k, reply, execute).Raised? by {
        assert AttemptAt(retries, reply, execute).Raised?;
      }
      retries := retries + 1;
      if retries == maxRetries {
        return Raised(ExhaustedMessage(maxRetries, outcome.error)), retries, sleeps;
      }
      sleeps := sleeps + 1;
    }
    r, attempts := Returned(None), 0;
  }
}
