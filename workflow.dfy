/**
 * The orchestration of `FinancialAgentSystem`: a shared `AgentState` record is
 * passed through a fixed graph of nodes (router, then the conversation,
 * database-query, Google-search and visualisation agents, then the
 * synthesiser). Each agent node runs only when its agent was selected,
 * appends at most one result, and absorbs the agent's exceptions; the
 * synthesiser builds the context for the final language-model call and the
 * list of agents that contributed.
 *
 * What each agent returns (or raises) is an input here: the models of the
 * agents' own retry loops live in their modules, and their results are the
 * values passed to the nodes.
 */
module Workflow {
  import opened Wrappers
  import opened Strings
  import opened Sequences
  import opened PyDict
  import opened Router
  import opened DatabaseQuery
  import opened GoogleSearch
  import opened Conversation
  import opened Visualize

  datatype Status = Routing | Processing | Complete

  function StatusName(s: Status): string {
    match s
    case Routing => "ROUTING"
    case Processing => "PROCESSING"
    case Complete => "COMPLETE"
  }

  /** The `additional_data` of a result, by the agent that produced it. */
  datatype AdditionalData =
    | ConversationData(kind: string)
    | DatabaseData(success: bool, query: string, columns: seq<string>, results: seq<Row>)
    | SearchData(success: bool, searchResults: seq<Simplified>)
    | VisualizeData(success: bool, chartInfo: Dict<string>, path: string, base64: string)

  datatype AgentResult = AgentResult(agentName: string, content: string, data: AdditionalData)

  /** The agent nodes in graph order (the edges added by `_build_graph`). */
  const NodeOrder: seq<string> := ["conversation", "database_query", "google_search", "visualize"]

  function ResultNames(results: seq<AgentResult>): (names: seq<string>)
    ensures |names| == |results| && forall k :: 0 <= k < |results| ==> names[k] == results[k].agentName
  {
    seq(|results|, k requires 0 <= k < |results| => results[k].agentName)
  }

  lemma ResultNamesAppend(a: seq<AgentResult>, b: seq<AgentResult>)
    ensures ResultNames(a + b) == ResultNames(a) + ResultNames(b)
  {
  }

  /** The shared state of one run through the graph. */
  class AgentState {
    var question: string
    var selectedAgents: seq<string>
    var agentResults: seq<AgentResult>
    var finalAnswer: string
    var status: Status

    /** The initial state of `process_question`: a pinned (non-empty) agent is
        pre-selected with status PROCESSING, otherwise nothing is selected and the
        status is ROUTING. */
    constructor (question: string, selectedAgent: Option<string>)
      ensures this.question == question && agentResults == [] && finalAnswer == ""
      ensures selectedAgent.Some? && selectedAgent.value != "" ==>
        selectedAgents == [selectedAgent.value] && status == Processing
      ensures selectedAgent.None? || selectedAgent.value == "" ==>
        selectedAgents == [] && status == Routing
    {
      this.question := question;
      if selectedAgent.Some? && selectedAgent.value != "" {
        selectedAgents := [selectedAgent.value];
        status := Processing;
      } else {
        selectedAgents := [];
        status := Routing;
      }
      agentResults := [];
      finalAnswer := "";
    }
  }

  // ---------------------------------------------------------------- what each node appends

  /** The entry a node appends: its result when the agent is selected and produced one. */
  function Entry(name: string, selected: seq<string>, e: Option<AgentResult>): (r: seq<AgentResult>)
    ensures |r| <= 1
    ensures |r| == 1 <==> name in selected && e.Some?
  {
    if name in selected && e.Some? then [e.value] else []
  }

  /** `process_message` returned a reply dictionary; None (no attempt made) fails on
      `result["message"]` and the TypeError is absorbed. */
  function ConversationEntry(outcome: Option<Reply>): (r: Option<AgentResult>)
    ensures r.Some? ==> r.value.agentName == "conversation"
  {
    match outcome
    case None => None
    case Some(reply) => Some(AgentResult("conversation", reply.message, ConversationData(TypeName(reply.kind))))
  }

  const DatabaseHeading := "Kết quả truy vấn cơ sở dữ liệu:\n"
  const NoMatchingData := "Không tìm thấy dữ liệu phù hợp."

  /** One run of dashes per column, as long as the column's name. */
  function Dashes(columns: seq<string>): (r: seq<string>)
    ensures |r| == |columns|
    ensures forall i :: 0 <= i < |columns| ==>
      |r[i]| == |columns[i]| && forall j :: 0 <= j < |r[i]| ==> r[i][j] == '-'
  {
    seq(|columns|, i requires 0 <= i < |columns| => seq(|columns[i]|, _ => '-'))
  }

  /** The header and separator lines, written only when there are columns. */
  function TableHeader(columns: seq<string>): string {
    if |columns| == 0 then ""
    else "| " + Join(" | ", columns) + " |\n" + "| " + Join(" | ", Dashes(columns)) + " |\n"
  }

  /** `str(row.get(col, ""))` for each column, in column order. */
  function Cells(row: Row, columns: seq<string>): (r: seq<string>)
    ensures |r| == |columns|
  {
    seq(|columns|, i requires 0 <= i < |columns| => Str(GetOr(row, columns[i], Text(""))))
  }

  function RowLine(row: Row, columns: seq<string>): string {
    "| " + Join(" | ", Cells(row, columns)) + " |\n"
  }

  function RowLines(rows: seq<Row>, columns: seq<string>): string
    decreases |rows|
  {
    if |rows| == 0 then "" else RowLines(rows[..|rows| - 1], columns) + RowLine(rows[|rows| - 1], columns)
  }

  /** The `formatted_content` of the database node. */
  function DatabaseContent(qr: QueryResult): string {
    if |qr.results| > 0 then
      DatabaseHeading + "SQL: " + qr.query + "\n\n" + TableHeader(qr.columns) + RowLines(qr.results, qr.columns)
    else NoMatchingData
  }

  /** A row built from fetched values under distinct column names shows, in each
      column, the value fetched at that position, and an empty cell where the row is
      shorter than the column list. */
  lemma CellsShowFetchedValues(columns: seq<string>, values: seq<Value>)
    requires NoDuplicates(columns)
    ensures forall j :: 0 <= j < |columns| ==>
      Cells(Zip(columns, values), columns)[j] == if j < |values| then Str(values[j]) else ""
  {
    ZipProperties(columns, values);
    var n := Min(|columns|, |values|);
    DedupProperties(columns[..n]);
  }

  /** `query_with_retry` returned a dictionary; None fails on `result.get` and an
      exception escapes the agent: both are absorbed. */
  function DatabaseEntry(outcome: Call<Option<QueryResult>>): (r: Option<AgentResult>)
    ensures r.Some? ==> r.value.agentName == "database_query"
  {
    if outcome.Returned? && outcome.value.Some? then
      var qr := outcome.value.value;
      Some(AgentResult("database_query", DatabaseContent(qr), DatabaseData(true, qr.query, qr.columns, qr.results)))
    else None
  }

  const SearchHeading := "Kết quả tìm kiếm từ Google:\n\n"

  /** The lines written for the `i`-th search result, counting from 1. */
  function SearchItemText(i: nat, item: Simplified): string {
    NatToString(i) + ". **" + item.title + "**\n" + "   URL: " + item.url + "\n" + "   " + item.content + "\n\n"
  }

  function SearchLines(items: seq<Simplified>): string
    decreases |items|
  {
    if |items| == 0 then "" else SearchLines(items[..|items| - 1]) + SearchItemText(|items|, items[|items| - 1])
  }

  /** The `formatted_content` of the Google-search node: the numbered results on
      success, otherwise the message of the returned dictionary. */
  function SearchContent(r: SearchResult): string {
    match r
    case Success(_, results, _) => SearchHeading + SearchLines(results)
    case NoResults(message) => message
    case Error(message) => message
  }

  /** `search_with_retry` returned a dictionary; None (no attempt made) fails on `result.get`. */
  function SearchEntry(outcome: Option<SearchResult>): (r: Option<AgentResult>)
    ensures r.Some? ==> r.value.agentName == "google_search"
  {
    match outcome
    case None => None
    case Some(r) =>
      Some(AgentResult("google_search", SearchContent(r),
                       SearchData(r.Success?, if r.Success? then r.results else [])))
  }

  const ChartSavedPrefix := "Biểu đồ đã được tạo và lưu tại: "

  /** The `message` of a dictionary that is not a chart. */
  function VizMessage(v: VizResult): string {
    match v
    case Chart(_, _, _, _) => ""
    case NoChart(message, _) => message
    case Exhausted(message, _) => message
    case GaveUp(message) => message
  }

  /** `visualize_query_result` returned a dictionary; an exception escaping it is absorbed. */
  function VisualizeEntry(outcome: Call<VizResult>): (r: Option<AgentResult>)
    ensures r.Some? ==> r.value.agentName == "visualize"
  {
    match outcome
    case Raised(_) => None
    case Returned(v) =>
      if v.Chart? then Some(AgentResult("visualize", ChartSavedPrefix + v.path, VisualizeData(true, v.chartInfo, v.path, v.base64)))
      else Some(AgentResult("visualize", VizMessage(v), VisualizeData(false, [], "", "")))
  }

  /** A search or visualisation failure reported in the returned dictionary is still
      appended, with `success` false and the dictionary's message as content; only a
      missing dictionary or an exception appends nothing. */
  lemma ReportedFailuresAreAppended(search: Option<SearchResult>, viz: Call<VizResult>)
    ensures SearchEntry(search).Some? <==> search.Some?
    ensures search.Some? && !search.value.Success? ==>
      SearchEntry(search) == Some(AgentResult("google_search", search.value.message, SearchData(false, [])))
    ensures VisualizeEntry(viz).Some? <==> viz.Returned?
    ensures viz.Returned? && !viz.value.Success() ==>
      VisualizeEntry(viz).value.data.success == false && VisualizeEntry(viz).value.content == VizMessage(viz.value)
    ensures viz.Returned? && viz.value.Success() ==>
      VisualizeEntry(viz).value.data == VisualizeData(true, viz.value.chartInfo, viz.value.path, viz.value.base64)
  {
  }

  /** Everything the four agent nodes append, in graph order. */
  function NodeResults(selected: seq<string>, conv: Option<Reply>, db: Call<Option<QueryResult>>,
                       search: Option<SearchResult>, viz: Call<VizResult>): seq<AgentResult> {
    Entry("conversation", selected, ConversationEntry(conv))
    + Entry("database_query", selected, DatabaseEntry(db))
    + Entry("google_search", selected, SearchEntry(search))
    + Entry("visualize", selected, VisualizeEntry(viz))
  }

  /** The names of the appended results follow the graph order, each node adding at
      most one, and only selected agents contribute. */
  lemma NodeResultsInOrder(selected: seq<string>, conv: Option<Reply>, db: Call<Option<QueryResult>>,
                           search: Option<SearchResult>, viz: Call<VizResult>)
    ensures IsSubsequence(ResultNames(NodeResults(selected, conv, db, search, viz)), NodeOrder)
    ensures |NodeResults(selected, conv, db, search, viz)| <= 4
    ensures forall r :: r in NodeResults(selected, conv, db, search, viz) ==> r.agentName in selected
  {
    EntriesInOrder(selected, ConversationEntry(conv), DatabaseEntry(db), SearchEntry(search), VisualizeEntry(viz));
  }

  /** A node's entry, named after the node, adds its name or nothing, and only when selected. */
  lemma EntryNamed(name: string, selected: seq<string>, e: Option<AgentResult>)
    requires e.Some? ==> e.value.agentName == name
    ensures ResultNames(Entry(name, selected, e)) == [] || ResultNames(Entry(name, selected, e)) == [name]
    ensures forall r :: r in Entry(name, selected, e) ==> r.agentName in selected
  {
    if name in selected && e.Some? {
      assert ResultNames(Entry(name, selected, e)) == [name];
    }
  }

  /** Four optional entries, each named after its node, appended in graph order. */
  lemma EntriesInOrder(selected: seq<string>, c: Option<AgentResult>, d: Option<AgentResult>,
                       g: Option<AgentResult>, v: Option<AgentResult>)
    requires c.Some? ==> c.value.agentName == "conversation"
    requires d.Some? ==> d.value.agentName == "database_query"
    requires g.Some? ==> g.value.agentName == "google_search"
    requires v.Some? ==> v.value.agentName == "visualize"
    ensures var all := Entry("conversation", selected, c) + Entry("database_query", selected, d)
                     + Entry("google_search", selected, g) + Entry("visualize", selected, v);
      IsSubsequence(ResultNames(all), NodeOrder) && |all| <= 4
      && forall r :: r in all ==> r.agentName in selected
  {
    EntriesSelected(selected, c, d, g, v);
    EntryNamed("conversation", selected, c);
    EntryNamed("database_query", selected, d);
    EntryNamed("google_search", selected, g);
    EntryNamed("visualize", selected, v);
    EntriesOrdered(Entry("conversation", selected, c), Entry("database_query", selected, d),
                   Entry("google_search", selected, g), Entry("visualize", selected, v), NodeOrder);
  }

  lemma EntriesSelected(selected: seq<string>, c: Option<AgentResult>, d: Option<AgentResult>,
                        g: Option<AgentResult>, v: Option<AgentResult>)
    requires c.Some? ==> c.value.agentName == "conversation"
    requires d.Some? ==> d.value.agentName == "database_query"
    requires g.Some? ==> g.value.agentName == "google_search"
    requires v.Some? ==> v.value.agentName == "visualize"
    ensures var all := Entry("conversation", selected, c) + Entry("database_query", selected, d)
                     + Entry("google_search", selected, g) + Entry("visualize", selected, v);
      forall r :: r in all ==> r.agentName in selected
  {
    EntryNamed("conversation", selected, c);
    EntryNamed("database_query", selected, d);
    EntryNamed("google_search", selected, g);
    EntryNamed("visualize", selected, v);
  }

  /** Results each named after their place in `order`, or absent, concatenated in
      that order, are named in that order. */
  lemma EntriesOrdered(e0: seq<AgentResult>, e1: seq<AgentResult>, e2: seq<AgentResult>, e3: seq<AgentResult>,
                       order: seq<string>)
    requires |order| == 4
    requires ResultNames(e0) == [] || ResultNames(e0) == [order[0]]
    requires ResultNames(e1) == [] || ResultNames(e1) == [order[1]]
    requires ResultNames(e2) == [] || ResultNames(e2) == [order[2]]
    requires ResultNames(e3) == [] || ResultNames(e3) == [order[3]]
    ensures IsSubsequence(ResultNames(e0 + e1 + e2 + e3), order) && |e0 + e1 + e2 + e3| <= 4
  {
    var n0, n1, n2, n3 := ResultNames(e0), ResultNames(e1), ResultNames(e2), ResultNames(e3);
    assert ResultNames(e0 + e1 + e2 + e3) == n0 + (n1 + (n2 + n3)) by {
      assert e0 + e1 + e2 + e3 == e0 + (e1 + (e2 + e3));
      ResultNamesAppend(e2, e3);
      ResultNamesAppend(e1, e2 + e3);
      ResultNamesAppend(e0, e1 + (e2 + e3));
    }
    assert IsSubsequence(n0 + (n1 + (n2 + n3)), order) by {
      assert [order[0], order[1], order[2], order[3]] == order;
      SubsequenceOfFour(n0, n1, n2, n3, order[0], order[1], order[2], order[3]);
    }
  }

  // ---------------------------------------------------------------- synthesis

  const NoResultsAnswer := "Không có kết quả từ bất kỳ agent nào. Vui lòng thử lại với câu hỏi khác."
  const ChartInfoPrefix := "\nThông tin biểu đồ: "

  function SectionHeader(name: string): string {
    "\n--- Kết quả từ " + name + " ---\n"
  }

  /** A result that carries a chart: a successful visualisation result. */
  predicate ShowsChart(r: AgentResult) {
    r.agentName == "visualize" && r.data.VisualizeData? && r.data.success
  }

  /** The context written for one result: its header, its content, and the chart
      description when it carries a chart. */
  function Section(r: AgentResult): string {
    SectionHeader(r.agentName) + r.content + "\n"
    + (if ShowsChart(r) then ChartInfoPrefix + Dumps(r.data.chartInfo) + "\n" else "")
  }

  function Context(results: seq<AgentResult>): string
    decreases |results|
  {
    if |results| == 0 then "" else Context(results[..|results| - 1]) + Section(results[|results| - 1])
  }

  /** The context is the sections of the results, in order: it splits over concatenation. */
  lemma {:induction false} ContextAppend(a: seq<AgentResult>, b: seq<AgentResult>)
    ensures Context(a + b) == Context(a) + Context(b)
    decreases |b|
  {
    if |b| == 0 {
      assert a + b == a;
    } else {
      var c, x := b[..|b| - 1], b[|b| - 1];
      assert (a + b)[..|a + b| - 1] == a + c;
      assert (a + b)[|a + b| - 1] == x;
      ContextAppend(a, c);
      var ca, cc, sx := Context(a), Context(c), Section(x);
      assert Context(a + b) == (ca + cc) + sx;
      assert Context(b) == cc + sx;
      assert (ca + cc) + sx == ca + (cc + sx);
    }
  }

  /** A single result's context is its section, which mentions the chart description
      exactly when the result carries a chart. */
  lemma SectionOfResult(r: AgentResult)
    ensures Context([r]) == Section(r)
    ensures StartsWith(Section(r), SectionHeader(r.agentName) + r.content + "\n")
    ensures !ShowsChart(r) ==> Section(r) == SectionHeader(r.agentName) + r.content + "\n"
    ensures ShowsChart(r) ==> EndsWith(Section(r), ChartInfoPrefix + Dumps(r.data.chartInfo) + "\n")
  {
    assert [r][..0] == [];
    var h := SectionHeader(r.agentName) + r.content + "\n";
    assert Section(r)[..|h|] == h;
  }

  /** The line appended to the model's answer, naming the agents used. */
  function UsedSuffix(used: seq<string>): string {
    "\n\n---\n*Các agent được sử dụng: " + Join(", ", used) + "*"
  }

  /** The context loop of `_synthesize_results`. */
  method BuildContext(results: seq<AgentResult>) returns (context: string)
    ensures context == Context(results)
  {
    context := "";
    var i := 0;
    while i < |results|
      invariant 0 <= i <= |results|
      invariant context == Context(results[..i])
    {
      assert results[..i + 1][..i] == results[..i];
      context := context + Section(results[i]);
      i := i + 1;
    }
    assert results[..i] == results;
  }

  /** The `used_agents` loop of `_synthesize_results`: each name once, where it first occurs. */
  method UsedAgents(results: seq<AgentResult>) returns (used: seq<string>)
    ensures used == Dedup(ResultNames(results))
    ensures NoDuplicates(used)
    ensures forall n :: n in used <==> n in ResultNames(results)
    ensures forall i, j :: 0 <= i < j < |used| ==>
      FirstIndex(ResultNames(results), used[i]) < FirstIndex(ResultNames(results), used[j])
  {
    var names := ResultNames(results);
    used := [];
    var i := 0;
    while i < |results|
      invariant 0 <= i <= |results|
      invariant used == Dedup(names[..i])
    {
      assert names[..i + 1][..i] == names[..i];
      if results[i].agentName !in used {
        used := used + [results[i].agentName];
      }
      i := i + 1;
    }
    assert names[..i] == names;
    DedupProperties(names);
  }

  /** The content loop of the database node. */
  method FormatDatabaseContent(qr: QueryResult) returns (content: string)
    ensures content == DatabaseContent(qr)
  {
    if |qr.results| == 0 {
      return NoMatchingData;
    }
    var prefix := DatabaseHeading + "SQL: " + qr.query + "\n\n" + TableHeader(qr.columns);
    content := prefix;
    var i := 0;
    while i < |qr.results|
      invariant 0 <= i <= |qr.results|
      invariant content == prefix + RowLines(qr.results[..i], qr.columns)
    {
      assert qr.results[..i + 1][..i] == qr.results[..i];
      content := content + RowLine(qr.results[i], qr.columns);
      i := i + 1;
    }
    assert qr.results[..i] == qr.results;
  }

  /** The `enumerate(..., 1)` loop of the Google-search node. */
  method FormatSearchResults(items: seq<Simplified>) returns (content: string)
    ensures content == SearchHeading + SearchLines(items)
  {
    content := SearchHeading;
    var i := 0;
    while i < |items|
      invariant 0 <= i <= |items|
      invariant content == SearchHeading + SearchLines(items[..i])
    {
      assert items[..i + 1][..i] == items[..i];
      content := content + SearchItemText(i + 1, items[i]);
      i := i + 1;
    }
    assert items[..i] == items;
  }

  /** `_should_route`: only a ROUTING state may be routed. */
  function ShouldRoute(status: Status): (r: Call<string>)
    ensures r.Returned? <==> status == Routing
    ensures r.Returned? ==> r.value == "route"
  {
    if status == Routing then Returned("route")
    else Raised("Invalid state for routing: " + StatusName(status))
  }

  datatype Next = End | Process

  /** `_should_end`: COMPLETE ends the run, PROCESSING loops back to the agents,
      anything else is a ValueError. */
  function ShouldEnd(status: Status): (r: Call<Next>)
    ensures r == Returned(End) <==> status == Complete
    ensures r == Returned(Process) <==> status == Processing
    ensures r.Raised? <==> status == Routing
  {
    match status
    case Complete => Returned(End)
    case Processing => Returned(Process)
    case Routing => Raised("Invalid state for checking end: " + StatusName(status))
  }

  /** What synthesis answers for a question and the results gathered; `llm(question,
      context)` is the model's answer to the prompt built from them. */
  function SynthesisOf(question: string, results: seq<AgentResult>, llm: (string, string) -> Call<string>): Call<string> {
    if results == [] then Returned(NoResultsAnswer)
    else
      match llm(question, Context(results))
      case Raised(e) => Raised(e)
      case Returned(reply) => Returned(reply + UsedSuffix(Dedup(ResultNames(results))))
  }

  /** With no results the canned answer is given; otherwise the model's exception
      escapes, and its
      answer is followed by the list of the agents used, each once, in the order they
      first contributed. */
  lemma SynthesisProperties(question: string, results: seq<AgentResult>, llm: (string, string) -> Call<string>)
    ensures results == [] ==> SynthesisOf(question, results, llm) == Returned(NoResultsAnswer)
    ensures results != [] && llm(question, Context(results)).Raised? ==>
      SynthesisOf(question, results, llm) == llm(question, Context(results))
    ensures results != [] && llm(question, Context(results)).Returned? ==>
      var a := SynthesisOf(question, results, llm);
      var used := Dedup(ResultNames(results));
      a.Returned? && StartsWith(a.value, llm(question, Context(results)).value) && EndsWith(a.value, UsedSuffix(used))
      && NoDuplicates(used) && (forall n :: n in used <==> n in ResultNames(results))
  {
    DedupProperties(ResultNames(results));
    if results != [] && llm(question, Context(results)).Returned? {
      var reply := llm(question, Context(results)).value;
      var a := reply + UsedSuffix(Dedup(ResultNames(results)));
      assert a[..|reply|] == reply;
      assert a[|a| - |UsedSuffix(Dedup(ResultNames(results)))|..] == UsedSuffix(Dedup(ResultNames(results)));
    }
  }

  // ---------------------------------------------------------------- the system

  class FinancialAgentSystem {
    const router: FinancialMultiAgentRouter

    predicate Valid()
      reads router, router.agents
    {
      router.Valid()
    }

    constructor ()
      ensures Valid()
      ensures IsRegistry(router.Snapshot())
    {
      router := new FinancialMultiAgentRouter();
    }

    /** `_route_question`: the router's selection replaces `selected_agents`,
        whatever was there, and the status becomes PROCESSING. `firstReply` and
        `secondReply` are the two classifier calls of `detailed_routing`. */
    method RouteQuestion(state: AgentState, firstReply: Call<string>, secondReply: Call<string>,
                         loads: string -> Option<Json>) returns (info: RoutingInfo)
      requires Valid()
      modifies state, router.agents
      ensures Valid()
      ensures info.question == old(state.question)
      ensures info.agents == AfterClassification(old(router.Snapshot()), firstReply, loads)
      ensures router.Snapshot() == AfterClassification(info.agents, secondReply, loads)
      ensures state.selectedAgents == info.selectedAgents == Selection(router.Snapshot())
      ensures |state.selectedAgents| >= 1
      ensures state.status == Processing
      ensures state.question == old(state.question) && state.agentResults == old(state.agentResults)
      ensures state.finalAnswer == old(state.finalAnswer)
    {
      info := router.DetailedRouting(state.question, firstReply, secondReply, loads);
      ghost var snap := router.Snapshot();
      SelectionNonEmpty(snap);
      state.selectedAgents := info.selectedAgents;
      state.status := Processing;
      assert router.Snapshot() == snap;
    }

    /** `_run_conversation_agent`: skipped unless selected; appends the reply, if any. */
    method RunConversationAgent(state: AgentState, outcome: Option<Reply>)
      modifies state
      ensures state.agentResults == old(state.agentResults) + Entry("conversation", old(state.selectedAgents), ConversationEntry(outcome))
      ensures "conversation" !in old(state.selectedAgents) ==> state.agentResults == old(state.agentResults)
      ensures state.question == old(state.question) && state.selectedAgents == old(state.selectedAgents)
      ensures state.finalAnswer == old(state.finalAnswer) && state.status == old(state.status)
    {
      if "conversation" !in state.selectedAgents {
        return;
      }
      match outcome {
        case None =>
        case Some(reply) =>
          state.agentResults := state.agentResults + [AgentResult("conversation", reply.message, ConversationData(TypeName(reply.kind)))];
      }
    }

    /** `_run_database_query_agent`: skipped unless selected; appends the formatted
        rows of the returned dictionary, or nothing when the agent raised or returned None. */
    method RunDatabaseQueryAgent(state: AgentState, outcome: Call<Option<QueryResult>>)
      modifies state
      ensures state.agentResults == old(state.agentResults) + Entry("database_query", old(state.selectedAgents), DatabaseEntry(outcome))
      ensures "database_query" !in old(state.selectedAgents) ==> state.agentResults == old(state.agentResults)
      ensures state.question == old(state.question) && state.selectedAgents == old(state.selectedAgents)
      ensures state.finalAnswer == old(state.finalAnswer) && state.status == old(state.status)
    {
      if "database_query" !in state.selectedAgents {
        return;
      }
      if outcome.Raised? || outcome.value.None? {
        return;
      }
      var qr := outcome.value.value;
      var content := FormatDatabaseContent(qr);
      state.agentResults := state.agentResults + [AgentResult("database_query", content, DatabaseData(true, qr.query, qr.columns, qr.results))];
    }

    /** `_run_google_search_agent`: skipped unless selected; appends the numbered
        results, or the dictionary's message with `success` false. */
    method RunGoogleSearchAgent(state: AgentState, outcome: Option<SearchResult>)
      modifies state
      ensures state.agentResults == old(state.agentResults) + Entry("google_search", old(state.selectedAgents), SearchEntry(outcome))
      ensures "google_search" !in old(state.selectedAgents) ==> state.agentResults == old(state.agentResults)
      ensures state.question == old(state.question) && state.selectedAgents == old(state.selectedAgents)
      ensures state.finalAnswer == old(state.finalAnswer) && state.status == old(state.status)
    {
      if "google_search" !in state.selectedAgents {
        return;
      }
      if outcome.None? {
        return;
      }
      var r := outcome.value;
      var content: string;
      if r.Success? {
        content := FormatSearchResults(r.results);
      } else {
        content := r.message;
      }
      state.agentResults := state.agentResults + [AgentResult("google_search", content, SearchData(r.Success?, if r.Success? then r.results else []))];
    }

    /** `_run_visualize_agent`: skipped unless selected; appends where the chart was
        saved, or the dictionary's message with `success` false. */
    method RunVisualizeAgent(state: AgentState, outcome: Call<VizResult>)
      modifies state
      ensures state.agentResults == old(state.agentResults) + Entry("visualize", old(state.selectedAgents), VisualizeEntry(outcome))
      ensures "visualize" !in old(state.selectedAgents) ==> state.agentResults == old(state.agentResults)
      ensures state.question == old(state.question) && state.selectedAgents == old(state.selectedAgents)
      ensures state.finalAnswer == old(state.finalAnswer) && state.status == old(state.status)
    {
      if "visualize" !in state.selectedAgents {
        return;
      }
      if outcome.Raised? {
        return;
      }
      var v := outcome.value;
      if v.Chart? {
        state.agentResults := state.agentResults + [AgentResult("visualize", ChartSavedPrefix + v.path, VisualizeData(true, v.chartInfo, v.path, v.base64))];
      } else {
        state.agentResults := state.agentResults + [AgentResult("visualize", VizMessage(v), VisualizeData(false, [], "", ""))];
      }
    }

    /** `_synthesize_results`: the answer is that of `SynthesisOf`, and the model is
        called exactly when there are results; a completed synthesis stores the answer and sets COMPLETE,
        while an exception from the model escapes and leaves the state as it was. */
    method SynthesizeResults(state: AgentState, llm: (string, string) -> Call<string>)
      returns (r: Call<string>, invoked: bool)
      modifies state
      ensures r == SynthesisOf(old(state.question), old(state.agentResults), llm)
      ensures invoked <==> old(state.agentResults) != []
      ensures state.question == old(state.question) && state.selectedAgents == old(state.selectedAgents)
      ensures state.agentResults == old(state.agentResults)
      ensures r.Returned? ==> state.finalAnswer == r.value && state.status == Complete
      ensures r.Raised? ==> state.finalAnswer == old(state.finalAnswer) && state.status == old(state.status)
    {
      if state.agentResults == [] {
        state.finalAnswer := NoResultsAnswer;
        state.status := Complete;
        return Returned(NoResultsAnswer), false;
      }
      var context := BuildContext(state.agentResults);
      var used := UsedAgents(state.agentResults);
      invoked := true;
      var response := llm(state.question, context);
      if response.Raised? {
        return Raised(response.error), invoked;
      }
      state.finalAnswer := response.value + UsedSuffix(used);
      state.status := Complete;
      r := Returned(state.finalAnswer);
    }

    /** The four agent nodes, along the graph's edges. */
    method RunAgentNodes(state: AgentState, conv: Option<Reply>, db: Call<Option<QueryResult>>,
                         search: Option<SearchResult>, viz: Call<VizResult>)
      modifies state
      ensures state.agentResults == old(state.agentResults) + NodeResults(old(state.selectedAgents), conv, db, search, viz)
      ensures state.question == old(state.question) && state.selectedAgents == old(state.selectedAgents)
      ensures state.finalAnswer == old(state.finalAnswer) && state.status == old(state.status)
    {
      ghost var sel, before := state.selectedAgents, state.agentResults;
      ghost var e0, e1 := Entry("conversation", sel, ConversationEntry(conv)), Entry("database_query", sel, DatabaseEntry(db));
      ghost var e2, e3 := Entry("google_search", sel, SearchEntry(search)), Entry("visualize", sel, VisualizeEntry(viz));
      RunConversationAgent(state, conv);
      RunDatabaseQueryAgent(state, db);
      RunGoogleSearchAgent(state, search);
      RunVisualizeAgent(state, viz);
      assert state.agentResults == before + e0 + e1 + e2 + e3;
      assert NodeResults(sel, conv, db, search, viz) == e0 + e1 + e2 + e3;
      AppendFour(before, e0, e1, e2, e3);
    }

    /** The router node followed by the four agent nodes. */
    method RouteAndGather(state: AgentState, firstReply: Call<string>, secondReply: Call<string>,
                          loads: string -> Option<Json>, conv: Option<Reply>, db: Call<Option<QueryResult>>,
                          search: Option<SearchResult>, viz: Call<VizResult>)
      requires Valid() && state.agentResults == []
      modifies state, router.agents
      ensures Valid()
      ensures state.question == old(state.question)
      ensures router.Snapshot() ==
        AfterClassification(AfterClassification(old(router.Snapshot()), firstReply, loads), secondReply, loads)
      ensures state.selectedAgents == Selection(router.Snapshot())
      ensures state.agentResults == NodeResults(state.selectedAgents, conv, db, search, viz)
      ensures IsSubsequence(ResultNames(state.agentResults), NodeOrder)
    {
      var info := RouteQuestion(state, firstReply, secondReply, loads);
      RunAgentNodes(state, conv, db, search, viz);
      assert [] + NodeResults(state.selectedAgents, conv, db, search, viz) == NodeResults(state.selectedAgents, conv, db, search, viz);
      NodeResultsInOrder(state.selectedAgents, conv, db, search, viz);
    }

    /** `process_question`: the graph's entry point is always the router, so the
        initial state (a pinned agent or none) is routed, then the four agent nodes
        run in graph order and the synthesiser ends the run. Synthesis always sets
        COMPLETE, so `_should_end` never takes the loop back to the agents. The
        inputs are the classifier's two replies, each agent's outcome and the model. */
    method ProcessQuestion(question: string, selectedAgent: Option<string>,
                           firstReply: Call<string>, secondReply: Call<string>, loads: string -> Option<Json>,
                           conv: Option<Reply>, db: Call<Option<QueryResult>>,
                           search: Option<SearchResult>, viz: Call<VizResult>,
                           llm: (string, string) -> Call<string>)
      returns (answer: Call<string>, final: AgentState)
      requires Valid()
      modifies router.agents
      ensures Valid() && fresh(final)
      ensures final.question == question
      ensures final.selectedAgents == Selection(router.Snapshot())
      ensures router.Snapshot() ==
        AfterClassification(AfterClassification(old(router.Snapshot()), firstReply, loads), secondReply, loads)
      ensures final.agentResults == NodeResults(final.selectedAgents, conv, db, search, viz)
      ensures IsSubsequence(ResultNames(final.agentResults), NodeOrder)
      ensures answer == SynthesisOf(question, final.agentResults, llm)
      ensures answer.Returned? ==>
        final.status == Complete && answer.value == final.finalAnswer && ShouldEnd(final.status) == Returned(End)
    {
      var state := new AgentState(question, selectedAgent);
      RouteAndGather(state, firstReply, secondReply, loads, conv, db, search, viz);
      ghost var snap := router.Snapshot();
      var invoked;
      answer, invoked := SynthesizeResults(state, llm);
      assert router.Snapshot() == snap;
      final := state;
    }
  }
}
