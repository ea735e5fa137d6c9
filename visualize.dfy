/**
 * The visualisation agent's decisions: which chart type the question asks
 * for, the chart configuration suggested (or defaulted) from the language
 * model's reply, which columns the chart is drawn from, how scatter labels are
 * shortened, and the retry loops around a whole query-and-draw attempt.
 */
module Visualize {
  import opened Wrappers
  import opened Strings
  import opened Sequences
  import opened PyDict

  // ---------------------------------------------------------------- chart type detection

  const ChartTypes: seq<string> := ["bar", "line", "pie", "scatter", "heatmap", "boxplot", "histogram"]

  /** The first chart type from position `i` on that occurs in `lowered`. */
  function FirstChartTypeFrom(lowered: string, i: nat): (r: Option<string>)
    requires i <= |ChartTypes|
    decreases |ChartTypes| - i
  {
    if i == |ChartTypes| then None
    else if Contains(lowered, ChartTypes[i]) then Some(ChartTypes[i])
    else FirstChartTypeFrom(lowered, i + 1)
  }

  /** The chart type the question names, if any. */
  function SpecifiedChartType(question: string): Option<string> {
    FirstChartTypeFrom(Lower(question), 0)
  }

  /** The specified type is the first listed type occurring in the lower-cased
      question; there is none exactly when no listed type occurs. */
  lemma {:induction false} FirstChartTypeFromSpec(lowered: string, i: nat)
    requires i <= |ChartTypes|
    ensures var r := FirstChartTypeFrom(lowered, i);
      (r.None? <==> forall j :: i <= j < |ChartTypes| ==> !Contains(lowered, ChartTypes[j]))
      && (r.Some? ==> exists j :: i <= j < |ChartTypes| && r.value == ChartTypes[j] && Contains(lowered, ChartTypes[j])
                        && forall k :: i <= k < j ==> !Contains(lowered, ChartTypes[k]))
    decreases |ChartTypes| - i
  {
    if i < |ChartTypes| && !Contains(lowered, ChartTypes[i]) {
      FirstChartTypeFromSpec(lowered, i + 1);
    }
  }

  /** The detection loop, stopping at the first type found. */
  method DetectChartType(question: string) returns (specified: Option<string>)
    ensures specified == SpecifiedChartType(question)
    ensures specified.Some? ==> specified.value in ChartTypes && Contains(Lower(question), specified.value)
  {
    var lowered := Lower(question);
    specified := None;
    var i := 0;
    while i < |ChartTypes|
      invariant 0 <= i <= |ChartTypes|
      invariant FirstChartTypeFrom(lowered, 0) == FirstChartTypeFrom(lowered, i)
    {
      if Contains(lowered, ChartTypes[i]) {
        specified := Some(ChartTypes[i]);
        break;
      }
      i := i + 1;
    }
  }

  // ---------------------------------------------------------------- analyze_and_suggest_visualization

  /** A value `json.loads` can produce: a dictionary (of strings) or anything else. */
  datatype JsonValue = JDict(d: Dict<string>) | JOther

  const IndexErrorMessage := "list index out of range"

  /** `columns[0] if columns else ""`. */
  function DefaultX(columns: seq<string>): string {
    if |columns| > 0 then columns[0] else ""
  }

  /** `columns[1] if len(columns) > 1 else columns[0] if columns else ""`. */
  function DefaultY(columns: seq<string>): string {
    if |columns| > 1 then columns[1] else DefaultX(columns)
  }

  /** The configuration built when the type was named but the reply held no usable JSON. */
  function SpecifiedDefault(chartType: string, columns: seq<string>): Dict<string> {
    var x := DefaultX(columns);
    var y := DefaultY(columns);
    [("chart_type", chartType), ("x_column", x), ("y_column", y),
     ("title", "Biểu đồ " + chartType + " của " + x + " theo " + y),
     ("explanation", "Biểu đồ " + chartType + " được chỉ định trực tiếp bởi người dùng.")]
  }

  /** `question[:50]`. */
  function Prefix(s: string, n: nat): string {
    if |s| <= n then s else s[..n]
  }

  /** The bar-chart configuration used when the suggestion cannot be obtained;
      `columns[0]` in its `y_column` raises when there are no columns. */
  function BarDefault(question: string, columns: seq<string>): Call<JsonValue> {
    if |columns| == 0 then Raised(IndexErrorMessage)
    else Returned(JDict([("chart_type", "bar"), ("x_column", columns[0]), ("y_column", DefaultY(columns)),
                         ("title", "Biểu đồ cho câu hỏi: " + Prefix(question, 50) + "..."),
                         ("explanation", "Mặc định sử dụng biểu đồ cột do lỗi phân tích")]))
  }

  /** `analyze_and_suggest_visualization`. `reply(n)` is the model's `n`-th reply in this
      call (or the exception raised); `jsonFence` and `jsonBlock` give group 1 of the
      two regular expressions the code searches a reply with; `loads` is `json.loads`.
      When the question names a chart type and the first call succeeds, the suggestion
      is the reply's JSON dictionary with `chart_type` overwritten; when no fence is found,
      or its text does not parse to a dictionary, it is the default configuration for
      that type. Otherwise (no type named, or the first call raised)
      the model is asked again and its parsed JSON is returned as it is, falling back to
      the bar-chart default, which raises when there are no columns. */
  method AnalyzeAndSuggest(question: string, columns: seq<string>, reply: nat -> Call<string>,
                           jsonFence: string -> Option<string>, jsonBlock: string -> Option<string>,
                           loads: string -> Call<JsonValue>)
    returns (r: Call<JsonValue>)
    ensures SpecifiedChartType(question).Some? && reply(0).Returned? ==>
      r.Returned? && r.value.JDict? && Get(r.value.d, "chart_type") == SpecifiedChartType(question)
    ensures SpecifiedChartType(question).Some? && reply(0).Returned?
            && (jsonFence(reply(0).value).None?
                || !(loads(jsonFence(reply(0).value).value).Returned? && loads(jsonFence(reply(0).value).value).value.JDict?)) ==>
      r == Returned(JDict(SpecifiedDefault(SpecifiedChartType(question).value, columns)))
    ensures SpecifiedChartType(question).Some? && reply(0).Returned? && jsonFence(reply(0).value).Some?
            && loads(jsonFence(reply(0).value).value).Returned? && loads(jsonFence(reply(0).value).value).value.JDict? ==>
      r == Returned(JDict(Put(loads(jsonFence(reply(0).value).value).value.d, "chart_type", SpecifiedChartType(question).value)))
    ensures var n := if SpecifiedChartType(question).Some? then 1 else 0;
      (SpecifiedChartType(question).None? || reply(0).Raised?) ==>
        r == (match reply(n)
              case Raised(_) => BarDefault(question, columns)
              case Returned(raw) =>
                match loads(jsonBlock(raw).GetOr(raw))
                case Raised(_) => BarDefault(question, columns)
                case Returned(v) => Returned(v))
    ensures r.Raised? ==> |columns| == 0 && r.error == IndexErrorMessage
  {
    var specified := DetectChartType(question);
    var calls := 0;
    if specified.Some? {
      var chartType := specified.value;
      var first := reply(0);
      calls := 1;
      if first.Returned? {
        var block := jsonFence(first.value);
        if block.Some? {
          var parsed := loads(block.value);
          if parsed.Returned? && parsed.value.JDict? {
            var info := Put(parsed.value.d, "chart_type", chartType);
            PutGet(parsed.value.d, "chart_type", chartType, "chart_type");
            return Returned(JDict(info));
          }
        }
        var d := SpecifiedDefault(chartType, columns);
        assert Get(d, "chart_type") == Some(chartType);
        return Returned(JDict(d));
      }
    }
    var second := reply(calls);
    if second.Raised? {
      return BarDefault(question, columns);
    }
    var jsonText := jsonBlock(second.value).GetOr(second.value);
    var suggestion := loads(jsonText);
    if suggestion.Raised? {
      return BarDefault(question, columns);
    }
    r := suggestion;
  }

  // ---------------------------------------------------------------- create_visualization, columns

  /** `[col.strip() for col in parts]`. */
  function StripAll(parts: seq<string>): (r: seq<string>)
    ensures |r| == |parts| && forall i :: 0 <= i < |parts| ==> r[i] == PyStrip(parts[i])
  {
    seq(|parts|, i requires 0 <= i < |parts| => PyStrip(parts[i]))
  }

  /** `[col for col in wanted if col in available]`. */
  function Existing(wanted: seq<string>, available: seq<string>): (r: seq<string>)
    decreases |wanted|
  {
    if |wanted| == 0 then []
    else
      var rest := Existing(wanted[..|wanted| - 1], available);
      if wanted[|wanted| - 1] in available then rest + [wanted[|wanted| - 1]] else rest
  }

  /** The filter keeps exactly the wanted columns that exist, in the wanted order. */
  lemma {:induction false} ExistingSpec(wanted: seq<string>, available: seq<string>)
    ensures forall c :: c in Existing(wanted, available) <==> c in wanted && c in available
    ensures IsSubsequence(Existing(wanted, available), wanted)
    decreases |wanted|
  {
    if |wanted| > 0 {
      var p := wanted[..|wanted| - 1];
      var last := wanted[|wanted| - 1];
      ExistingSpec(p, available);
      assert wanted == p + [last];
      assert forall c :: c in wanted <==> c in p || c == last;
      if last in available {
        SubsequenceAppend(Existing(p, available), p, last);
      } else {
        SubsequenceExtend(Existing(p, available), p, last);
      }
    }
  }

  /** The requested y columns: the `y_column` entry split at commas, each piece stripped. */
  function WantedY(chartInfo: Dict<string>): seq<string> {
    StripAll(Split(GetOr(chartInfo, "y_column", ""), ','))
  }

  /** The y columns used: the requested ones that exist, else the second column, else the first. */
  function YColumns(wanted: seq<string>, frameColumns: seq<string>): (ys: seq<string>)
    ensures |frameColumns| > 0 <==> |ys| > 0
    ensures forall y :: y in ys ==> y in frameColumns
  {
    ExistingSpec(wanted, frameColumns);
    var valid := Existing(wanted, frameColumns);
    if |valid| > 0 then
      assert valid[0] in frameColumns;
      valid
    else if |frameColumns| > 1 then [frameColumns[1]]
    else if |frameColumns| > 0 then [frameColumns[0]] else []
  }

  /** The y columns are the requested ones that exist, in the requested order; only
      when none exists is a single fallback column used. */
  lemma YColumnsSpec(wanted: seq<string>, frameColumns: seq<string>)
    ensures (exists w :: w in wanted && w in frameColumns) ==>
      IsSubsequence(YColumns(wanted, frameColumns), wanted)
      && forall w :: w in YColumns(wanted, frameColumns) <==> w in wanted && w in frameColumns
    ensures (forall w :: w in wanted ==> w !in frameColumns) && |frameColumns| > 0 ==>
      YColumns(wanted, frameColumns) == [if |frameColumns| > 1 then frameColumns[1] else frameColumns[0]]
  {
    ExistingSpec(wanted, frameColumns);
    if exists w :: w in wanted && w in frameColumns {
      var w :| w in wanted && w in frameColumns;
      assert w in Existing(wanted, frameColumns);
    } else {
      if |Existing(wanted, frameColumns)| > 0 {
        assert Existing(wanted, frameColumns)[0] in Existing(wanted, frameColumns);
      }
    }
  }

  /** The columns and labels a chart is drawn from. */
  datatype Columns = Columns(chartType: string, x: string, ys: seq<string>, title: string)

  const NotEnoughData := "Không đủ dữ liệu để tạo biểu đồ"

  /** Lines 244-260 of `create_visualization`: the chart type defaults to bar and the
      title to a fixed text; x is kept if it is a column of the frame, else the first
      column; y is the requested comma-separated columns that exist, falling back to the
      second column and then the first; a ValueError is raised when no usable x or y is left. */
  function ResolveColumns(chartInfo: Dict<string>, frameColumns: seq<string>): (r: Call<Columns>)
    ensures r.Raised? <==> (|frameColumns| == 0 ||
      (if GetOr(chartInfo, "x_column", "") in frameColumns then GetOr(chartInfo, "x_column", "") else frameColumns[0]) == "")
    ensures r.Raised? ==> r.error == NotEnoughData
    ensures r.Returned? ==>
      var c := r.value;
      c.x != "" && c.x in frameColumns
      && (GetOr(chartInfo, "x_column", "") in frameColumns ==> c.x == GetOr(chartInfo, "x_column", ""))
      && c.ys == YColumns(WantedY(chartInfo), frameColumns)
      && c.chartType == GetOr(chartInfo, "chart_type", "bar")
      && c.title == GetOr(chartInfo, "title", "Biểu đồ dữ liệu")
  {
    var chartType := GetOr(chartInfo, "chart_type", "bar");
    var requestedX := GetOr(chartInfo, "x_column", "");
    var title := GetOr(chartInfo, "title", "Biểu đồ dữ liệu");
    var x: Option<string> := if requestedX in frameColumns then Some(requestedX)
                             else if |frameColumns| > 0 then Some(frameColumns[0]) else None;
    var ys := YColumns(WantedY(chartInfo), frameColumns);
    if x.None? || x.value == "" || |ys| == 0 then Raised(NotEnoughData)
    else Returned(Columns(chartType, x.value, ys, title))
  }

  // ---------------------------------------------------------------- scatter labels

  predicate IsAsciiUpper(c: char) {
    'A' <= c <= 'Z'
  }

  /** Length of the run of capital letters starting at `k`. */
  function UpperRun(s: string, k: nat): (n: nat)
    requires k <= |s|
    ensures k + n <= |s| && forall j :: k <= j < k + n ==> IsAsciiUpper(s[j])
    ensures k + n < |s| ==> !IsAsciiUpper(s[k + n])
    decreases |s| - k
  {
    if k < |s| && IsAsciiUpper(s[k]) then 1 + UpperRun(s, k + 1) else 0
  }

  /** A match of `\(([A-Z]+)\)` starting at `i`: the greedy run of capitals must be
      closed by `)`, since a shorter run is followed by another capital. */
  predicate ParenMatchAt(s: string, i: nat) {
    i + 1 <= |s| && s[i] == '(' && UpperRun(s, i + 1) > 0
    && i + 1 + UpperRun(s, i + 1) < |s| && s[i + 1 + UpperRun(s, i + 1)] == ')'
  }

  /** Group 1 of `re.search(r'\(([A-Z]+)\)', s)` from position `i` on: the leftmost
      match's capitals, or None exactly when the pattern matches nowhere from `i` on. */
  function ParenSymbolFrom(s: string, i: nat): (r: Option<string>)
    requires i <= |s|
    ensures r.Some? ==> |r.value| > 0 && forall j :: 0 <= j < |r.value| ==> IsAsciiUpper(r.value[j])
    ensures r.Some? ==> exists j :: i <= j < |s| && ParenMatchAt(s, j) && r.value == s[j + 1..j + 1 + UpperRun(s, j + 1)]
                                    && forall k :: i <= k < j ==> !ParenMatchAt(s, k)
    ensures r.None? <==> forall j :: i <= j < |s| ==> !ParenMatchAt(s, j)
    decreases |s| - i
  {
    if i == |s| then None
    else if ParenMatchAt(s, i) then
      var n := UpperRun(s, i + 1);
      Some(s[i + 1..i + 1 + n])
    else
      var r := ParenSymbolFrom(s, i + 1);
      assert forall k :: i <= k < i + 1 ==> !ParenMatchAt(s, k);
      r
  }

  /** The label drawn next to a scatter point (lines 463-475): a long text holding a
      parenthesised ticker is replaced by the ticker; otherwise a text longer than ten
      characters is cut to the first five characters of its first word; anything still
      longer than five characters is cut to five. */
  function ShortenLabel(text: string): (short: string)
    ensures |short| <= 5
    ensures |text| <= 5 ==> short == text
  {
    var s :=
      if |text| > 5 && Contains(text, "(") && Contains(text, ")") then
        ParenSymbolFrom(text, 0).GetOr(text)
      else if |text| > 10 then Prefix(Split(text, ' ')[0], 5)
      else text;
    if |s| > 5 then s[..5] else s
  }

  /** Shortening a shortened label changes nothing. */
  lemma ShortenLabelIdempotent(text: string)
    ensures ShortenLabel(ShortenLabel(text)) == ShortenLabel(text)
  {
  }

  /** A ticker found in parentheses survives whole when it has at most five letters. */
  lemma ShortenLabelKeepsTicker(text: string)
    requires |text| > 5 && Contains(text, "(") && Contains(text, ")")
    requires ParenSymbolFrom(text, 0).Some? && |ParenSymbolFrom(text, 0).value| <= 5
    ensures ShortenLabel(text) == ParenSymbolFrom(text, 0).value
  {
  }

  // ---------------------------------------------------------------- visualize_query_result

  /** The dictionary the agent returns: a chart, a failure carrying the query, or
      the report that every attempt failed (the async loop's report has no `error`). */
  datatype VizResult =
    | Chart(query: string, chartInfo: Dict<string>, path: string, base64: string)
    | NoChart(message: string, query: string)
    | Exhausted(message: string, error: Option<string>)
    | GaveUp(message: string)
  {
    predicate Success() {
      Chart?
    }
  }

  /** How one pass of the loop body ends: an exception, an empty query result, or a
      returned dictionary (a chart, or a failure found while preparing the data). */
  datatype VizAttempt = AttemptRaised(error: string) | AttemptEmpty(query: string) | AttemptDone(result: VizResult)

  const NoDataMessage := "Không có dữ liệu trả về từ truy vấn"

  /** `str(last_error)` in the final message: `None` when nothing was tried. */
  function ShowError(e: Option<string>): string {
    match e
    case None => "None"
    case Some(s) => s
  }

  /** The question asked after a failure with error `e`: errors about Decimal or
      NoneType on a histogram-of-daily-returns question rewrite it around its fifth
      word; None when that word does not exist (the IndexError escapes the loop). */
  function NextQuestion(question: string, e: string): (r: Option<string>)
    ensures !Contains(Lower(question), "histogram") ==> r == Some(question)
    ensures r.None? ==> |Split(question, ' ')| <= 4
  {
    if (Contains(Lower(e), "decimal") || Contains(e, "NoneType"))
       && Contains(Lower(question), "histogram") && Contains(Lower(question), "daily returns") then
      var words := Split(question, ' ');
      if |words| > 4 then Some("Get daily stock prices of " + words[4] + " in 2024 ordered by date") else None
    else Some(question)
  }

  /** `visualize_query_result`: `attempt(k, q)` is how pass `k` of the loop body ends
      when asked question `q`; `asked` lists the question of each pass. An empty query
      result or a returned dictionary ends the loop at once; an exception is recorded
      and followed by a sleep (also after the last one) and possibly a rewritten
      question; after `maxRetries` exceptions the result reports the last error. */
  method VisualizeQueryResult(maxRetries: int, question: string, attempt: (nat, string) -> VizAttempt)
    returns (r: Call<VizResult>, asked: seq<string>, sleeps: nat)
    ensures |asked| > 0 ==> asked[0] == question
    ensures maxRetries > 0 ==> 1 <= |asked| <= maxRetries
    ensures maxRetries <= 0 ==> asked == []
    ensures forall k :: 0 <= k < |asked| - 1 ==>
      attempt(k, asked[k]).AttemptRaised? && NextQuestion(asked[k], attempt(k, asked[k]).error) == Some(asked[k + 1])
    ensures |asked| > 0 && !attempt(|asked| - 1, asked[|asked| - 1]).AttemptRaised? ==>
      sleeps == |asked| - 1 &&
      r == Returned(match attempt(|asked| - 1, asked[|asked| - 1])
                    case AttemptEmpty(query) => NoChart(NoDataMessage, query)
                    case AttemptDone(result) => result
                    case AttemptRaised(_) => NoChart("", ""))
    ensures r.Raised? ==>
      |asked| > 0 && r.error == IndexErrorMessage && sleeps == |asked| - 1
      && attempt(|asked| - 1, asked[|asked| - 1]).AttemptRaised?
      && NextQuestion(asked[|asked| - 1], attempt(|asked| - 1, asked[|asked| - 1]).error).None?
    ensures r.Returned? && (|asked| == 0 || attempt(|asked| - 1, asked[|asked| - 1]).AttemptRaised?) ==>
      |asked| == (if maxRetries > 0 then maxRetries else 0) && sleeps == |asked|
      && var lastError := if |asked| == 0 then None else Some(attempt(|asked| - 1, asked[|asked| - 1]).error);
         r.value == Exhausted("Lỗi sau " + IntToString(maxRetries) + " lần thử lại: " + ShowError(lastError), lastError)
  {
    var retries: nat := 0;
    var lastError: Option<string> := None;
    var current := question;
    asked := [];
    sleeps := 0;
    while retries < maxRetries
      invariant retries == |asked| && sleeps == retries
      invariant retries == 0 || retries <= maxRetries
      invariant retries == 0 ==> current == question && lastError.None?
      invariant |asked| > 0 ==> asked[0] == question
      invariant forall k :: 0 <= k < |asked| ==> attempt(k, asked[k]).AttemptRaised?
      invariant forall k :: 0 <= k < |asked| - 1 ==> NextQuestion(asked[k], attempt(k, asked[k]).error) == Some(asked[k + 1])
      invariant |asked| > 0 ==>
        lastError == Some(attempt(|asked| - 1, asked[|asked| - 1]).error)
        && NextQuestion(asked[|asked| - 1], lastError.value) == Some(current)
    {
      var outcome := attempt(retries, current);
      asked := asked + [current];
      match outcome {
        case AttemptEmpty(query) =>
          return Returned(NoChart(NoDataMessage, query)), asked, sleeps;
        case AttemptDone(result) =>
          return Returned(result), asked, sleeps;
        case AttemptRaised(e) =>
          retries := retries + 1;
          lastError := Some(e);
          var next := NextQuestion(current, e);
          if next.None? {
            return Raised(IndexErrorMessage), asked, sleeps;
          }
          current := next.value;
          sleeps := sleeps + 1;
      }
    }
    r := Returned(Exhausted("Lỗi sau " + IntToString(maxRetries) + " lần thử lại: " + ShowError(lastError), lastError));
  }

  // ---------------------------------------------------------------- visualize_query_result_async

  /** How one pass of the async loop body ends before the drawing step: an exception,
      an empty query result, or data (with the query) together with what the drawing
      step `_process_visualization_data` would give once its suggestion call works. */
  datatype AsyncAttempt = AsyncRaised(error: string) | AsyncEmpty(query: string) | AsyncData(query: string, processed: Call<VizResult>)

  /** What Python raises for the suggestion method the drawing step calls, which the class does not define. */
  const MissingMethod := "'VisualizeAgent' object has no attribute 'analyze_question_for_chart'"

  function AsyncExhausted(maxRetries: int, lastError: Option<string>): VizResult {
    GaveUp("Lỗi sau " + IntToString(maxRetries) + " lần thử: " + ShowError(lastError))
  }

  /** The error a pass ends with, if it fails: as written, non-empty data always fails
      in the drawing step. */
  function AsyncFailureAsWritten(a: AsyncAttempt): Option<string> {
    match a
    case AsyncRaised(e) => Some(e)
    case AsyncEmpty(_) => None
    case AsyncData(_, _) => Some(MissingMethod)
  }

  /** `visualize_query_result_async` as written: every pass that reaches the drawing
      step raises AttributeError, so the loop can only return the no-data result or the
      exhaustion report. It sleeps only when another attempt remains. */
  method VisualizeQueryResultAsyncAsWritten(maxRetries: int, attempt: nat -> AsyncAttempt)
    returns (r: VizResult, attempts: nat, sleeps: nat)
    ensures !r.Chart?
    ensures maxRetries > 0 ==> 1 <= attempts <= maxRetries
    ensures sleeps == if attempts == 0 then 0 else attempts - 1
    ensures forall k :: 0 <= k < attempts - 1 ==> AsyncFailureAsWritten(attempt(k)).Some?
    ensures attempts == 0 || AsyncFailureAsWritten(attempt(attempts - 1)).Some? ==>
      attempts == (if maxRetries > 0 then maxRetries else 0)
      && r == AsyncExhausted(maxRetries, if attempts == 0 then None else AsyncFailureAsWritten(attempt(attempts - 1)))
    ensures attempts > 0 && AsyncFailureAsWritten(attempt(attempts - 1)).None? ==>
      attempt(attempts - 1).AsyncEmpty? && r == NoChart(NoDataMessage, attempt(attempts - 1).query)
  {
    var retries: nat := 0;
    var lastError: Option<string> := None;
    sleeps := 0;
    while retries < maxRetries
      invariant retries == 0 || retries <= maxRetries
      invariant sleeps == if retries > 0 && retries == maxRetries then retries - 1 else retries
      invariant forall k :: 0 <= k < retries ==> AsyncFailureAsWritten(attempt(k)).Some?
      invariant retries == 0 ==> lastError.None?
      invariant retries > 0 ==> lastError == AsyncFailureAsWritten(attempt(retries - 1))
    {
      var outcome := attempt(retries);
      var failure := AsyncFailureAsWritten(outcome);
      if failure.None? {
        return NoChart(NoDataMessage, outcome.query), retries + 1, sleeps;
      }
      retries := retries + 1;
      lastError := failure;
      if retries < maxRetries {
        sleeps := sleeps + 1;
      }
    }
    r, attempts := AsyncExhausted(maxRetries, lastError), retries;
  }

  /** The error a pass ends with, if it fails, once the drawing step calls the
      suggestion method that exists. */
  function AsyncFailure(a: AsyncAttempt): Option<string> {
    match a
    case AsyncRaised(e) => Some(e)
    case AsyncEmpty(_) => None
    case AsyncData(_, processed) => if processed.Raised? then Some(processed.error) else None
  }

  /** The async loop with the drawing step calling `analyze_and_suggest_visualization`:
      the first pass that does not raise decides the result. */
  method VisualizeQueryResultAsync(maxRetries: int, attempt: nat -> AsyncAttempt)
    returns (r: VizResult, attempts: nat, sleeps: nat)
    ensures maxRetries > 0 ==> 1 <= attempts <= maxRetries
    ensures sleeps == if attempts == 0 then 0 else attempts - 1
    ensures forall k :: 0 <= k < attempts - 1 ==> AsyncFailure(attempt(k)).Some?
    ensures attempts == 0 || AsyncFailure(attempt(attempts - 1)).Some? ==>
      attempts == (if maxRetries > 0 then maxRetries else 0)
      && r == AsyncExhausted(maxRetries, if attempts == 0 then None else AsyncFailure(attempt(attempts - 1)))
    ensures attempts > 0 && AsyncFailure(attempt(attempts - 1)).None? ==>
      r == match attempt(attempts - 1)
           case AsyncEmpty(query) => NoChart(NoDataMessage, query)
           case AsyncData(_, processed) => processed.value
           case AsyncRaised(_) => r
  {
    var retries: nat := 0;
    var lastError: Option<string> := None;
    sleeps := 0;
    while retries < maxRetries
      invariant retries == 0 || retries <= maxRetries
      invariant sleeps == if retries > 0 && retries == maxRetries then retries - 1 else retries
      invariant forall k :: 0 <= k < retries ==> AsyncFailure(attempt(k)).Some?
      invariant retries == 0 ==> lastError.None?
      invariant retries > 0 ==> lastError == AsyncFailure(attempt(retries - 1))
    {
      var outcome := attempt(retries);
      var failure := AsyncFailure(outcome);
      if failure.None? {
        var result := if outcome.AsyncEmpty? then NoChart(NoDataMessage, outcome.query) else outcome.processed.value;
        return result, retries + 1, sleeps;
      }
      retries := retries + 1;
      lastError := failure;
      if retries < maxRetries {
        sleeps := sleeps + 1;
      }
    }
    r, attempts := AsyncExhausted(maxRetries, lastError), retries;
  }

  /** With the suggestion call fixed, a chart ready on the first pass is what the
      async loop returns, where the code as written reports failure instead. */
  method AsyncChartOnFirstPass(maxRetries: int, attempt: nat -> AsyncAttempt, chart: VizResult)
    returns (fixed: VizResult, asWritten: VizResult)
    requires maxRetries > 0 && chart.Chart?
    requires attempt(0) == AsyncData(chart.query, Returned(chart))
    ensures fixed == chart
    ensures !asWritten.Chart?
  {
    var attempts, sleeps;
    fixed, attempts, sleeps := VisualizeQueryResultAsync(maxRetries, attempt);
    asWritten, attempts, sleeps := VisualizeQueryResultAsyncAsWritten(maxRetries, attempt);
  }
}
