/**
 * The HTTP layer's `process_question_async`: routes the question once for the
 * response's routing information, runs the whole agent system, looks up a
 * chart image among the results, and decides which agent the frontend should
 * show as the one that answered (`current_agent`).
 *
 * `workflow.get_state` (a library call) is an input: each of its two calls
 * either raises or yields the results list of a state.
 */
module Api {
  import opened Wrappers
  import opened Sequences
  import opened Router
  import opened DatabaseQuery
  import opened GoogleSearch
  import opened Conversation
  import opened Visualize
  import opened Workflow

  /** The agent names the reverse scan recognises. */
  const KnownAgents: seq<string> := ["visualize", "database_query", "google_search", "conversation"]

  // ---------------------------------------------------------------- the chart lookup

  /** The image of the first result that carries a chart (a successful visualisation), if any. */
  function FirstChartImage(results: seq<AgentResult>): (r: Option<string>)
    ensures r.None? <==> forall k :: 0 <= k < |results| ==> !ShowsChart(results[k])
    ensures r.Some? ==> exists k :: (0 <= k < |results| && ShowsChart(results[k]) && r.value == results[k].data.base64
                                     && forall j :: 0 <= j < k ==> !ShowsChart(results[j]))
    decreases |results|
  {
    if |results| == 0 then None
    else if ShowsChart(results[0]) then Some(results[0].data.base64)
    else
      var r := FirstChartImage(results[1..]);
      assert forall k :: 1 <= k < |results| ==> results[1..][k - 1] == results[k];
      if r.Some? then
        var k :| 0 <= k < |results[1..]| && ShowsChart(results[1..][k]) && r.value == results[1..][k].data.base64
          && forall j :: 0 <= j < k ==> !ShowsChart(results[1..][j]);
        assert ShowsChart(results[k + 1]) && forall j :: 0 <= j < k + 1 ==> !ShowsChart(results[j]);
        r
      else r
  }

  /** `visualization_base64`: looked up only when `visualize` was selected; a failing
      `get_state` leaves it None. */
  function VisualizationOf(selected: seq<string>, state: Call<seq<AgentResult>>): (r: Option<string>)
    ensures r.Some? ==> "visualize" in selected && state.Returned?
  {
    if "visualize" in selected && state.Returned? then FirstChartImage(state.value) else None
  }

  /** The lookup loop, which stops at the first result carrying a chart. */
  method FindVisualization(selected: seq<string>, state: Call<seq<AgentResult>>) returns (image: Option<string>)
    ensures image == VisualizationOf(selected, state)
  {
    image := None;
    if "visualize" !in selected || state.Raised? {
      return;
    }
    var results := state.value;
    var i := 0;
    while i < |results|
      invariant 0 <= i <= |results|
      invariant forall k :: 0 <= k < i ==> !ShowsChart(results[k])
      invariant image == None
    {
      if results[i].agentName == "visualize" && results[i].data.VisualizeData? && results[i].data.success {
        image := Some(results[i].data.base64);
        assert FirstChartImage(results) == image;
        break;
      }
      i := i + 1;
    }
  }

  // ---------------------------------------------------------------- current_agent

  /** Python truthiness of the looked-up image: present and non-empty. */
  predicate HasImage(image: Option<string>) {
    image.Some? && image.value != ""
  }

  /** The static priority over the selection: a visualisation with an image, then a
      database query, then a search, then the first selected agent; "conversation"
      when nothing is selected. */
  function StaticAgent(selected: seq<string>, image: Option<string>): string {
    if |selected| == 0 then "conversation"
    else if "visualize" in selected && HasImage(image) then "visualize"
    else if "database_query" in selected then "database_query"
    else if "google_search" in selected then "google_search"
    else selected[0]
  }

  /** The name of the last result whose agent is one of the four known ones. */
  function LastKnownAgent(results: seq<AgentResult>): (r: Option<string>)
    ensures r.None? <==> forall k :: 0 <= k < |results| ==> results[k].agentName !in KnownAgents
    ensures r.Some? ==> r.value in KnownAgents && exists k :: (0 <= k < |results| && results[k].agentName == r.value
                                     && forall j :: k < j < |results| ==> results[j].agentName !in KnownAgents)
    decreases |results|
  {
    var n := |results|;
    if n == 0 then None
    else if results[n - 1].agentName in KnownAgents then Some(results[n - 1].agentName)
    else
      var p := results[..n - 1];
      assert forall k :: 0 <= k < n - 1 ==> p[k] == results[k];
      var r := LastKnownAgent(p);
      if r.Some? then
        var k :| 0 <= k < |p| && p[k].agentName == r.value && forall j :: k < j < |p| ==> p[j].agentName !in KnownAgents;
        assert results[k].agentName == r.value && forall j :: k < j < n ==> results[j].agentName !in KnownAgents;
        r
      else r
  }

  /** `current_agent`: the last known agent among the results of the state, when the
      state could be read and names one; otherwise the static priority. */
  function CurrentAgentOf(selected: seq<string>, image: Option<string>, state: Call<seq<AgentResult>>): string {
    if state.Returned? && LastKnownAgent(state.value).Some? then LastKnownAgent(state.value).value
    else StaticAgent(selected, image)
  }

  /** The if-chain followed by the reversed scan with `break`. */
  method CurrentAgent(selected: seq<string>, image: Option<string>, state: Call<seq<AgentResult>>)
    returns (agent: string)
    ensures agent == CurrentAgentOf(selected, image, state)
  {
    agent := "conversation";
    if |selected| > 0 {
      if "visualize" in selected && image.Some? && image.value != "" {
        agent := "visualize";
      } else if "database_query" in selected {
        agent := "database_query";
      } else if "google_search" in selected {
        agent := "google_search";
      } else {
        agent := selected[0];
      }
    }
    if state.Raised? || |state.value| == 0 {
      return;
    }
    var results := state.value;
    var i := |results|;
    while i > 0
      invariant 0 <= i <= |results|
      invariant forall k :: i <= k < |results| ==> results[k].agentName !in KnownAgents
      invariant agent == StaticAgent(selected, image)
    {
      i := i - 1;
      if results[i].agentName in KnownAgents {
        agent := results[i].agentName;
        assert LastKnownAgent(results) == Some(agent) by {
          LastKnownAgentAt(results, i);
        }
        return;
      }
    }
  }

  /** The last known agent is the one at a position after which no known agent occurs. */
  lemma {:induction false} LastKnownAgentAt(results: seq<AgentResult>, i: nat)
    requires i < |results| && results[i].agentName in KnownAgents
    requires forall k :: i < k < |results| ==> results[k].agentName !in KnownAgents
    ensures LastKnownAgent(results) == Some(results[i].agentName)
    decreases |results|
  {
    var n := |results|;
    if i < n - 1 {
      assert forall k :: 0 <= k < n - 1 ==> results[..n - 1][k] == results[k];
      LastKnownAgentAt(results[..n - 1], i);
    }
  }

  /** Whatever happens, `current_agent` is one of the four agents, since the router
      selects only registry agents and the scan only accepts the four known names. */
  lemma CurrentAgentIsKnown(views: seq<AgentView>, image: Option<string>, state: Call<seq<AgentResult>>)
    requires IsRegistry(views)
    ensures CurrentAgentOf(Selection(views), image, state) in KnownAgents
  {
    SelectionInRegistryOrder(views);
    var selected := Selection(views);
    if |selected| > 0 {
      assert selected[0] in selected;
    }
  }

  /** Without a readable state naming an agent, `visualize` wins only with an image;
      then a selected database query, then a selected search, then the first selected agent. */
  lemma StaticPriority(selected: seq<string>, image: Option<string>, state: Call<seq<AgentResult>>)
    requires state.Raised? || LastKnownAgent(state.value).None?
    ensures |selected| == 0 ==> CurrentAgentOf(selected, image, state) == "conversation"
    ensures |selected| > 0 && "visualize" in selected && HasImage(image) ==>
      CurrentAgentOf(selected, image, state) == "visualize"
    ensures |selected| > 0 && !("visualize" in selected && HasImage(image)) && "database_query" in selected ==>
      CurrentAgentOf(selected, image, state) == "database_query"
    ensures (|selected| > 0 && !("visualize" in selected && HasImage(image)) && "database_query" !in selected
             && "google_search" in selected) ==> CurrentAgentOf(selected, image, state) == "google_search"
    ensures (|selected| > 0 && !("visualize" in selected && HasImage(image)) && "database_query" !in selected
             && "google_search" !in selected) ==> CurrentAgentOf(selected, image, state) == selected[0]
  {
  }

  // ---------------------------------------------------------------- the request

  /** The `/api/query` response, or the HTTP error raised instead. */
  datatype Response =
    | QueryResponse(answer: string, routingInfo: RoutingInfo, visualizationBase64: Option<string>, currentAgent: string)
    | HttpError(status: nat, detail: string)

  /** `process_question_async` (and `/api/query`, which passes its fields on):
      `routeFirst`/`routeSecond` are the classifier replies of the request's own
      `detailed_routing`, `graphFirst`/`graphSecond` those of the graph's router
      node; `stateForImage` and `stateForAgent` are the two `get_state` calls.
      An exception from the agent system becomes an HTTP 500. */
  method ProcessQuestionAsync(system: FinancialAgentSystem, question: string,
                              routeFirst: Call<string>, routeSecond: Call<string>,
                              graphFirst: Call<string>, graphSecond: Call<string>, loads: string -> Option<Json>,
                              conv: Option<Reply>, db: Call<Option<QueryResult>>,
                              search: Option<SearchResult>, viz: Call<VizResult>,
                              llm: (string, string) -> Call<string>,
                              stateForImage: Call<seq<AgentResult>>, stateForAgent: Call<seq<AgentResult>>)
    returns (resp: Response)
    requires system.Valid()
    modifies system.router.agents
    ensures system.Valid()
    ensures var routed := AfterClassification(AfterClassification(old(system.router.Snapshot()), routeFirst, loads), routeSecond, loads);
      var graphed := AfterClassification(AfterClassification(routed, graphFirst, loads), graphSecond, loads);
      var answer := SynthesisOf(question, NodeResults(Selection(graphed), conv, db, search, viz), llm);
      system.router.Snapshot() == graphed
      && (resp.HttpError? <==> answer.Raised?)
      && (resp.HttpError? ==> resp.status == 500 && resp.detail == "Lỗi xử lý: " + answer.error)
      && (resp.QueryResponse? ==> resp.answer == answer.value && resp.routingInfo.selectedAgents == Selection(routed))
    ensures resp.QueryResponse? ==>
      resp.routingInfo.question == question
      && resp.routingInfo.agents == AfterClassification(old(system.router.Snapshot()), routeFirst, loads)
      && resp.visualizationBase64 == VisualizationOf(resp.routingInfo.selectedAgents, stateForImage)
      && resp.currentAgent == CurrentAgentOf(resp.routingInfo.selectedAgents, resp.visualizationBase64, stateForAgent)
      && resp.currentAgent in KnownAgents
  {
    var info := system.router.DetailedRouting(question, routeFirst, routeSecond, loads);
    ghost var views := system.router.Snapshot();
    var answer, final := system.ProcessQuestion(question, None, graphFirst, graphSecond, loads, conv, db, search, viz, llm);
    if answer.Raised? {
      return HttpError(500, "Lỗi xử lý: " + answer.error);
    }
    var image := FindVisualization(info.selectedAgents, stateForImage);
    var current := CurrentAgent(info.selectedAgents, image, stateForAgent);
    CurrentAgentIsKnown(views, image, stateForAgent);
    resp := QueryResponse(answer.value, info, image, current);
  }
}
