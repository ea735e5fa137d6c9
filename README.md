# Multi-Agent Finance System — routing and orchestration, in Dafny

A model of the routing-and-orchestration core of a Vietnamese financial
question-answering assistant. A question goes to a confidence router that
scores four agents (`database_query`, `google_search`, `visualize`,
`conversation`) from a language model's classification and selects those whose
confidence reaches their threshold. A LangGraph workflow runs the selected agents
in a fixed order, collects their results in a shared state, and a synthesiser
writes the final answer with a suffix naming the agents that were used. An HTTP
endpoint wraps the workflow and works out which agent to show as "current". The
React front end decides which agent card to display, extracts a chart path from
the answer and formats reference links. A batch runner replays the DJIA question
set through the database agent.

Every language-model, database, search and plotting call is a parameter of the
model: retry loops read the outcome of attempt `k` from a function `nat -> Call<…>`
(`Call` is "returned a value" or "raised an exception with this text"),
`json.loads` and the regular expressions that are not scanned by hand are
functions passed in, and the state LangGraph keeps (`get_state`) is an input.
`time.sleep` is a counted no-op: each retry loop returns the number of sleeps.

Modules, one per source file, plus shared helpers:

- `Wrappers` — `Option` and `Call`.
- `Strings` — Python and JavaScript string operations used by the code: `in`,
  `startswith`, `str.replace` (all occurrences) and JavaScript `replace` (first
  occurrence), `strip`/`trim`, ASCII case mapping, `split`/`join`, integer-to-text.
- `Sequences` — subsequences, first index, duplicate removal in first-occurrence order.
- `PyDict` — insertion-ordered dictionaries, `dict(zip(…))`, `json.dumps` of a
  dictionary of strings.
- `Router` (`backend/src/router/router.py`) — classes `Agent` and
  `FinancialMultiAgentRouter`; the three-tier score parser; classification in
  place; selection; the detailed routing report.
- `DatabaseQuery`, `GoogleSearch`, `Conversation`, `Visualize` — the agents'
  deterministic parts and their retry loops.
- `Workflow` (`backend/main.py`) — class `AgentState` (the shared state dict) and
  class `FinancialAgentSystem` with one method per graph node.
- `Api` (`backend/api.py`) — the visualisation lookup, `current_agent`, the response.
- `ChatBox`, `AgentThinking`, `MessageBubble` — the front-end functions; `ChatBox`
  holds the component's state (`messages`, `isLoading`, `showIntro`, `activeAgent`) as a class.
- `Djia` (`backend/src/agent/run_djia_queries.py`) — answer comparison and
  extraction, `run_single_query`, and class `DjiaQueryRunner` whose batch methods
  rewrite an `array` of question records in place.

Where the code departs from the intended design, the model follows the code:

- A failed classification leaves every agent with its previous confidence and
  selection; nothing is reset to zero (`Router.FinancialMultiAgentRouter.CalculateConfidence`).
- `detailed_routing` classifies once for the report and once more through
  `select_agents`; the router node of the graph does the same. One API request
  therefore asks the classifier four times, and each reply is a separate
  parameter of `Api.ProcessQuestionAsync`.
- The graph's entry point is always the router, so a pinned `selected_agent`
  given to `process_question` is overwritten (`Workflow.FinancialAgentSystem.ProcessQuestion`).
- The conversation node runs first, before the database, search and
  visualisation nodes.
- Synthesis always sets `COMPLETE` when it returns, so the `process` loop-back
  of `_should_end` never fires. That run is the single pass of
  `Workflow.FinancialAgentSystem.ProcessQuestion`.

## Model

| member | source | states |
|---|---|---|
| Router.NextBrace | backend/src/router/router.py:67 | the first brace at or after the start position, with no brace before it |
| Router.FindBlockFrom | backend/src/router/router.py:67-68 | the leftmost `{…}` block without inner braces, and no block starts earlier |
| Router.SkipWhile | backend/src/router/router.py:81 | the end of the maximal run of characters satisfying the predicate |
| Router.DecimalValue | backend/src/router/router.py:81-83 | the number read from the digit parts is never negative |
| Router.DigitRun | backend/src/router/router.py:81 | the captured `\d*` run is all digits and as long as the maximal run |
| Router.KeyNumberAt | backend/src/router/router.py:81 | the tier-3 pattern matches at a position only where the name occurs there, and the number it captures is non-negative |
| Router.ScanKey | backend/src/router/router.py:80-83 | `re.search` semantics: a result is the capture of the leftmost position where the pattern matches, no earlier position matches, and None is returned exactly when no position matches; a captured number is non-negative and the name occurs in the text |
| Router.FallbackWithoutKey | backend/src/router/router.py:79-84 | a name that does not occur in the reply scores 0.0 in tier 3 |
| Router.Agent.constructor | backend/src/router/router.py:16-21 | a new agent has its name, description and threshold, confidence 0.0, and is not selected |
| Router.ViewsOf | backend/src/router/router.py:35-56 | one view per agent object, in list order, showing its current fields |
| Router.SelectedNames | backend/src/router/router.py:148 | a name is listed exactly when some agent with that name is selected |
| Router.WithFallback | backend/src/router/router.py:149 | never empty; `["conversation"]` for an empty selection, the selection itself otherwise |
| Router.Classified | backend/src/router/router.py:132-136 | each agent's confidence becomes `scores.get(name, 0.0)`, and it is selected exactly when that reaches its threshold |
| Router.ScoresUpToKeys | backend/src/router/router.py:79-83 | however many names have been scanned, the map's keys are exactly the names |
| Router.ScoresUpToAt | backend/src/router/router.py:79-83 | with distinct names, a scanned name holds its captured number (or 0.0) and an unscanned one 0.0 |
| Router.FallbackMapKeys | backend/src/router/router.py:79-84 | the tier-3 map has exactly the four registry names as keys, each with its scanned score, 0.0 without a match |
| Router.UntouchedConsistent | backend/src/router/router.py:16-21 | agents fresh from their constructor satisfy selected ⇔ confidence ≥ threshold |
| Router.FinancialMultiAgentRouter.constructor | backend/src/router/router.py:24-56 | the registry is the four agents `database_query`, `google_search`, `visualize`, `conversation` with thresholds 0.2, 0.2, 0.7, 0.2, all unscored and unselected |
| Router.ScanNames | backend/src/router/router.py:79-83 | the loop over a list of names leaves every name at 0.0 except those the scanner finds a number for, which hold it, later names overriding earlier ones (the reference `ScoresUpTo`) |
| Router.FinancialMultiAgentRouter.FallbackScores | backend/src/router/router.py:79-84 | tier 3 scans the agents' names in registry order: the result is the reference `ScoresUpTo` over the names of the current agents |
| Router.FallbackMapIs | backend/src/router/router.py:79-84 | over the registry names that map is the tier-3 map: its keys are exactly the four names and each holds its scanned score |
| Router.FinancialMultiAgentRouter.ParseConfidenceJson | backend/src/router/router.py:58-84 | tier 1 wins whenever the first brace block parses; tier 2 (fences stripped) is consulted only when tier 1 fails, and tier 3 only when both fail |
| Router.FinancialMultiAgentRouter.LlmIntentClassification | backend/src/router/router.py:102-136 | a reply that raises or does not parse to an object leaves every agent as it was; otherwise every agent is rescored from the parsed map |
| Router.FinancialMultiAgentRouter.ApplyScores | backend/src/router/router.py:132-134 | the update loop leaves the registry exactly as the classification of its old state by the score map: each agent's confidence is its score, or 0.0 when absent, and it is selected when that reaches its threshold |
| Router.FinancialMultiAgentRouter.CalculateConfidence | backend/src/router/router.py:86-100 | returns the registry list itself; after a failure its agents keep their stale confidence and selection |
| Router.FinancialMultiAgentRouter.SelectAgents | backend/src/router/router.py:138-149 | classifies, then returns the selected names in registry order, or `["conversation"]` |
| Router.FinancialMultiAgentRouter.DetailedRouting | backend/src/router/router.py:151-173 | one report entry per registry agent, in registry order, from the first classification; the selection comes from a second classification and agrees with the report when both replies are equal |
| Router.NamesDistinct | backend/src/router/router.py:35-56 | the four registry names are pairwise distinct |
| Router.ClassificationIdempotent | backend/src/router/router.py:132-136 | classifying twice with the same reply gives the same state as classifying once |
| Router.ClassificationKeepsRegistry | backend/src/router/router.py:95-136 | every outcome of classification keeps the registry's names and thresholds and keeps selected ⇔ confidence ≥ threshold |
| Router.Names | backend/src/router/router.py:164-171 | the names of the views, position by position; the one list of names the registry, the tier-3 scan and the selection order all use |
| Router.SelectedNamesInOrder | backend/src/router/router.py:148 | the selected names are a subsequence of the agents' names, so they keep registry order |
| Router.SelectionFallback | backend/src/router/router.py:147-149 | the selection is never empty: exactly `["conversation"]` when no agent is selected, otherwise the selected names |
| Router.SelectionNonEmpty | backend/src/router/router.py:147-149 | whatever the agents' state, the selection holds at least one name |
| Router.SelectionInRegistryOrder | backend/src/router/router.py:35-56 | on the registry, every selected name is a registry name, listed in the order `database_query`, `google_search`, `visualize`, `conversation` |
| DatabaseQuery.CleanQuery | backend/src/agent/database_query.py:80 | specification function: both fence markers removed everywhere, then Python `strip()`; its properties are `CleanQueryHasNoFences` |
| DatabaseQuery.CleanQueryHasNoFences | backend/src/agent/database_query.py:80-81 | the cleaned query contains neither ```` ```sql ```` nor ```` ``` ```` and has no leading or trailing whitespace |
| DatabaseQuery.FormatRows | backend/src/agent/database_query.py:160 | one dictionary per fetched row |
| DatabaseQuery.FormatRowsProperties | backend/src/agent/database_query.py:160 | one dictionary per row, in order; its keys are the distinct column names the row reaches, and with distinct names each column maps to the value at its position |
| DatabaseQuery.QueryWithRetry | backend/src/agent/database_query.py:143-171 | at most `max_retries` attempts; the first success is returned; after `max_retries` failures it raises the exhaustion message with the last error; no sleep after the final failure; None when `max_retries <= 0` |
| GoogleSearch.Normalise | backend/src/agent/google_search.py:37-42 | a dictionary gives its `results` (default `[]`), a list gives itself, anything else gives `[]` |
| GoogleSearch.SimplifiedAll | backend/src/agent/google_search.py:56-69 | never more entries than items |
| GoogleSearch.SimplifiedAppend | backend/src/agent/google_search.py:56-69 | the filter distributes over concatenation |
| GoogleSearch.SimplifiedCount | backend/src/agent/google_search.py:56-69 | exactly one simplified entry per dictionary item |
| GoogleSearch.SimplifiedEmptyIff | backend/src/agent/google_search.py:56-76 | nothing survives exactly when no item is a dictionary |
| GoogleSearch.Simplify | backend/src/agent/google_search.py:56-69 | the append loop keeps the dictionary items in order, each reduced to title/content/url with the fixed defaults |
| GoogleSearch.Processed | backend/src/agent/google_search.py:37-84 | a success has a non-empty result list and echoes the query; a response that does not raise never gives `error` |
| GoogleSearch.ProcessedCases | backend/src/agent/google_search.py:44-84 | empty raw results give the first `no_results` message, no dictionary item gives the second, and a success carries one entry per dictionary item |
| GoogleSearch.SearchWithRetry | backend/src/agent/google_search.py:30-94 | the first response that does not raise decides the result; after `max_retries` exceptions it returns `error` with the last message instead of raising; at most `max_retries` attempts, no sleep after the last |
| GoogleSearch.QueriesDetermineArgument | backend/src/agent/google_search.py:96-109 | the stock-price and company-news queries are the fixed phrases around their argument, which can be read back from them |
| Conversation.AnyInIff | backend/src/agent/conversation.py:55-63 | the left-to-right `any` scan holds exactly when some phrase occurs in the message |
| Conversation.KeywordDetection | backend/src/agent/conversation.py:55-63 | greeting (help request) ⇔ some greeting (help) phrase is a substring of the lower-cased message |
| Conversation.GreetingMatchesInsideWords | backend/src/agent/conversation.py:55-58 | the test is a substring test: any message whose lower-cased text contains `hi` anywhere, even inside a word such as "Which", counts as a greeting |
| Conversation.TypeNameInjective | backend/main.py:147 | the `type` the conversation node copies into its result's `additional_data` tells which reply was given: greeting, help, chat and error carry four distinct strings |
| Conversation.HourGreeting | backend/src/agent/conversation.py:72-77 | [5, 12) is morning, [12, 18) afternoon, every other hour evening, each as an if-and-only-if |
| Conversation.StandardResponse | backend/src/agent/conversation.py:65-101 | a response exists exactly for a greeting or a help request; the greeting check takes precedence |
| Conversation.ProcessMessage | backend/src/agent/conversation.py:150-187 | a standard response is returned without calling the model, with no attempt and no sleep; any other message gets exactly the retry loop's outcome |
| Conversation.AskModel | backend/src/agent/conversation.py:166-187 | the first successful reply gives type `conversation` with the stripped text; `max_retries` failures give type `error` with the fixed apology; every earlier attempt failed; one sleep between attempts and none after the last; no attempt and None when `max_retries <= 0` |
| Visualize.FirstChartTypeFromSpec | backend/src/agent/visualize_agent.py:97-105 | the detected type is the first listed chart type occurring in the lower-cased question, or none when no type occurs |
| Visualize.DetectChartType | backend/src/agent/visualize_agent.py:97-105 | the loop with `break` finds that first type, which is a listed type occurring in the question |
| Visualize.AnalyzeAndSuggest | backend/src/agent/visualize_agent.py:82-186 | when the question names a type and the first call succeeds, the suggestion's `chart_type` is that type: the reply's JSON dictionary with it overwritten, or the default configuration when no fence is found or the fenced text does not parse to a dictionary; otherwise the second reply's JSON, falling back to a bar chart that raises only when there are no columns |
| Visualize.StripAll | backend/src/agent/visualize_agent.py:246 | each comma-separated piece stripped, position by position |
| Visualize.ExistingSpec | backend/src/agent/visualize_agent.py:253 | the kept columns are exactly the wanted ones that exist, in the wanted order |
| Visualize.YColumns | backend/src/agent/visualize_agent.py:253-257 | the y columns are non-empty exactly when the frame has columns, and all of them are frame columns |
| Visualize.YColumnsSpec | backend/src/agent/visualize_agent.py:253-257 | the requested existing columns are used when there are any; otherwise the second column, else the first |
| Visualize.ResolveColumns | backend/src/agent/visualize_agent.py:244-260 | raises the "not enough data" ValueError exactly when x or y cannot be resolved; otherwise x is kept if present, else the first column |
| Visualize.UpperRun | backend/src/agent/visualize_agent.py:466 | the maximal run of capital letters from a position |
| Visualize.ParenSymbolFrom | backend/src/agent/visualize_agent.py:466-468 | `re.search` semantics: a result is the capital-letter run after the leftmost `(` followed by a capital letter and closed by `)`, no earlier position matches, and None is returned exactly when no position matches; a captured ticker is a non-empty run of capital letters |
| Visualize.ShortenLabel | backend/src/agent/visualize_agent.py:463-475 | the scatter label has at most five characters, and a label of five or fewer is kept as it is |
| Visualize.ShortenLabelIdempotent | backend/src/agent/visualize_agent.py:463-475 | shortening a shortened label changes nothing |
| Visualize.ShortenLabelKeepsTicker | backend/src/agent/visualize_agent.py:464-468 | a long label holding a ticker in parentheses of at most five letters is shortened to that ticker |
| Visualize.NextQuestion | backend/src/agent/visualize_agent.py:1195-1201 | after a failed attempt the question is kept unless it mentions a histogram (and, for the rewrite, daily returns); a rewrite that fails with IndexError happens only when the question has at most four space-separated words |
| Visualize.VisualizeQueryResult | backend/src/agent/visualize_agent.py:771-1212 | an empty result or a returned dictionary ends the loop at once; each exception is followed by a sleep (also after the last one) and possibly a rewritten question; after `max_retries` exceptions `success` is False with `error` the last error |
| Visualize.VisualizeQueryResultAsyncAsWritten | backend/src/agent/visualize_agent.py:663-735 | as written the async loop never returns a chart; it sleeps only when another attempt remains |
| Visualize.VisualizeQueryResultAsync | backend/src/agent/visualize_agent.py:663-727 | with the drawing step fixed, the first pass that does not raise decides the result; the same attempt and sleep counts |
| Visualize.AsyncChartOnFirstPass | backend/src/agent/visualize_agent.py:730-735 | a chart ready on the first pass is returned by the corrected loop and lost by the loop as written |
| Workflow.ResultNames | backend/main.py:23-34 | the agent names of the results, position by position |
| Workflow.ResultNamesAppend | backend/main.py:23-34 | the names of appended results are the appended names |
| Workflow.AgentState.constructor | backend/main.py:456-463 | the initial state holds the question, no results and no answer; a non-empty pinned agent is the selection, with status PROCESSING; otherwise status ROUTING |
| Workflow.Entry | backend/main.py:139-151 | a node contributes one result exactly when its agent is selected and produced a result, and none otherwise |
| Workflow.Dashes | backend/main.py:180 | one run of dashes per column, as long as the column name |
| Workflow.Cells | backend/main.py:185 | one cell per column, in column order |
| Workflow.CellsShowFetchedValues | backend/main.py:183-185 | a row built from fetched values under distinct column names shows each value in its own column |
| Workflow.ReportedFailuresAreAppended | backend/main.py:223-276 | a search or visualisation failure reported in the returned dictionary still appends a result with `success` False; only a returned chart counts as success |
| Workflow.NodeResultsInOrder | backend/main.py:390-394 | the result names form a subsequence of conversation, database_query, google_search, visualize; at most four results, all from selected agents |
| PyDict.Dumps | backend/main.py:303 | `json.dumps` of a dictionary of strings is a brace-delimited object text |
| PyDict.EntriesJoin | backend/main.py:303 | inside the braces, the dumped object lists every key with its value, each quoted and escaped as `"key": "value"`, in insertion order, separated by `", "` |
| PyDict.EscapePlain | backend/main.py:303 | with `ensure_ascii=False`, text without quotes, backslashes or control characters, non-ASCII letters included, is written unchanged |
| PyDict.UnescapeChar | backend/main.py:303 | decoding undoes the escape of any single character, whatever text follows it |
| PyDict.UnescapeEscape | backend/main.py:303 | round trip: JSON string decoding reads every escaped key or value back as the original string |
| Workflow.ContextAppend | backend/main.py:297-304 | the context splits over concatenation of results |
| Workflow.SectionOfResult | backend/main.py:297-304 | each result contributes its `--- Kết quả từ <name> ---` header and content; the chart-info line only for a successful visualisation |
| Workflow.BuildContext | backend/main.py:297-304 | the context loop writes one section per result, in order |
| Workflow.UsedAgents | backend/main.py:307-310 | `used_agents` has each result name once, in first-occurrence order, and no other names |
| Workflow.FormatDatabaseContent | backend/main.py:172-187 | the database node's text: the fixed heading and the query, then the header and separator when there are columns, then one line per dictionary row; the "no data" text when there are no rows |
| Workflow.FormatSearchResults | backend/main.py:222-229 | the heading followed by the results numbered from 1, each with title, URL and content |
| Workflow.ShouldRoute | backend/main.py:336-349 | only a ROUTING state is routed; any other status raises |
| Workflow.ShouldEnd | backend/main.py:351-366 | COMPLETE ⇔ end, PROCESSING ⇔ process, ROUTING ⇔ error |
| Workflow.SynthesisOf | backend/main.py:280-334 | specification function for the synthesiser's outcome (canned answer, model exception, or answer plus used-agents suffix); proved about in `SynthesisProperties` and met by `SynthesizeResults` |
| Workflow.SynthesisProperties | backend/main.py:280-334 | no results give the canned answer without calling the model; otherwise the model's exception propagates, or its answer is given with the suffix naming the used agents |
| Workflow.FinancialAgentSystem.constructor | backend/main.py:58-108 | the system's router holds the four-agent registry |
| Workflow.FinancialAgentSystem.RouteQuestion | backend/main.py:110-127 | the router's selection (never empty) replaces `selected_agents`; status becomes PROCESSING; question, results and answer are unchanged |
| Workflow.FinancialAgentSystem.RunConversationAgent | backend/main.py:129-153 | unselected: the state is unchanged; selected: the reply, if any, is appended; only `agent_results` changes |
| Workflow.FinancialAgentSystem.RunDatabaseQueryAgent | backend/main.py:155-203 | unselected: unchanged; selected: the formatted query result is appended, and an exception appends nothing |
| Workflow.FinancialAgentSystem.RunGoogleSearchAgent | backend/main.py:205-245 | unselected: unchanged; selected: the numbered results (or the failure) are appended |
| Workflow.FinancialAgentSystem.RunVisualizeAgent | backend/main.py:247-278 | unselected: unchanged; selected: the chart or the failure is appended, and an exception appends nothing |
| Workflow.FinancialAgentSystem.SynthesizeResults | backend/main.py:280-334 | the model is invoked exactly when there are results; an answer sets `final_answer` and COMPLETE; an exception leaves the state as it was |
| Workflow.FinancialAgentSystem.RunAgentNodes | backend/main.py:390-394 | the four agent nodes in graph order append exactly the node results of the selection |
| Workflow.FinancialAgentSystem.RouteAndGather | backend/main.py:379-394 | router then agent nodes: the selection is the router's, and the results follow graph order |
| Workflow.FinancialAgentSystem.ProcessQuestion | backend/main.py:445-472 | the pinned agent is ignored; the selection comes from the router; the results follow graph order; the answer is the synthesis of the question over them |
| Api.FirstChartImage | backend/api.py:109-114 | the image of the first successful visualisation result, or none exactly when there is no such result |
| Api.VisualizationOf | backend/api.py:100-116 | an image is reported only when `visualize` is selected and the state could be read; the loop `FindVisualization` computes it |
| Api.FindVisualization | backend/api.py:100-116 | looked up only when `visualize` is selected; the forward scan stops at the first chart; a failing `get_state` leaves it None |
| Api.LastKnownAgent | backend/api.py:133-144 | the name of the last result whose agent is one of the four known agents, or none exactly when no result has a known agent |
| Api.CurrentAgentOf | backend/api.py:119-146 | specification function: a known agent from the latest result overrides the static priority; `CurrentAgentIsKnown`, `StaticPriority` and `LastKnownAgentAt` are proved about it, and `CurrentAgent` computes it |
| Api.CurrentAgent | backend/api.py:119-146 | the if-chain and the reverse scan with `break` compute the specified current agent |
| Api.LastKnownAgentAt | backend/api.py:139-144 | a known agent with no known agent after it is the one the reverse scan reports |
| Api.CurrentAgentIsKnown | backend/api.py:119-146 | whatever the state, `current_agent` is one of the four agents |
| Api.StaticPriority | backend/api.py:119-131 | without an overriding result: `conversation` for no selection, else `visualize` with an image, else `database_query`, else `google_search`, else the first selected |
| Api.ProcessQuestionAsync | backend/api.py:80-175 | the router ends in the state its four classifications leave (two for the report, two in the graph's router node); the response is HTTP 500 with `Lỗi xử lý: ` and the error exactly when synthesis over the node results of the graph's selection raises; otherwise the answer is that synthesis, `selected_agents` is the report's second-classification selection, the per-agent report is from its first, and `visualization_base64` and a known `current_agent` come from the state |
| ChatBox.Priority | frontend/src/components/ChatBox.js:52-73 | the chosen agent is one of the names given |
| ChatBox.SelectedNames | frontend/src/components/ChatBox.js:77-96 | the names of the entries marked selected |
| ChatBox.DetermineActiveAgent | frontend/src/components/ChatBox.js:41-129 | specification function for `determineActiveAgent`; its cases are proved in `DetermineActiveAgentCases` |
| ChatBox.DetermineActiveAgentCases | frontend/src/components/ChatBox.js:41-129 | `selected_agents` decides when non-empty; the confidence list only when it is missing or empty; the keyword fallback only while the agent is still `conversation`, with a visualisation first, then database keywords, then search keywords |
| ChatBox.SelectedNamesMembers | frontend/src/components/ChatBox.js:77-96 | a name is listed exactly when a selected entry carries it |
| ChatBox.AgreesWithBackend | frontend/src/components/ChatBox.js:52-73 | for a non-empty selection the front end's priority picks the same agent as the backend's static priority |
| ChatBox.RunLength | frontend/src/components/ChatBox.js:164 | the greedy run of digits and underscores |
| ChatBox.FirstMatchFrom | frontend/src/components/ChatBox.js:164-165 | the leftmost match of the chart-path pattern, with no match earlier |
| ChatBox.MatchParts | frontend/src/components/ChatBox.js:162-171 | a match is the fixed head, a non-empty digit-and-underscore middle and `.png` |
| ChatBox.Pieces | frontend/src/components/ChatBox.js:168-169 | the served path is the match with its leading `./` made `/` |
| ChatBox.ServedFromParts | frontend/src/components/ChatBox.js:168-169 | the served path starts with `/visualizations/visualization_` and ends with `.png` |
| ChatBox.VisualizationPath | frontend/src/components/ChatBox.js:162-171 | specification function for the chart-path extraction; its properties are proved in `VisualizationPathProperties` |
| ChatBox.VisualizationPathProperties | frontend/src/components/ChatBox.js:162-171 | null exactly when the answer has no match; otherwise `/visualizations/visualization_`, a non-empty `[\d_]` run and `.png` |
| ChatBox.ReplyMessage | frontend/src/components/ChatBox.js:177-244 | specification function for the one message a send appends after the user's; its cases are proved in `ReplyMessageCases` |
| ChatBox.ReplyMessageCases | frontend/src/components/ChatBox.js:177-244 | a network error, a not-ok status and a missing answer each give an error message with their text; otherwise a bot message with the answer |
| ChatBox.ChatBox.constructor | frontend/src/components/ChatBox.js:10-13 | no messages, not loading, the intro shown, the active agent `conversation` |
| ChatBox.ChatBox.HandleSendMessage | frontend/src/components/ChatBox.js:131-251 | appends the user message and then exactly one bot or error message, keeping user and reply messages alternating, each with its own clock reading; the intro is hidden, loading is off, and the active agent is the API's `current_agent` (lower-cased, trimmed) or the decision chain's |
| AgentThinking.AgentType | frontend/src/components/AgentThinking.js:14 | a falsy `agentType` becomes `conversation` |
| AgentThinking.GetAgentInfo | frontend/src/components/AgentThinking.js:53-84 | specification function: the if/else chain over the normalised type; proved about in `AgentInfoPrecedence`, `AgentInfoCases` and `AgentInfoOfNormalized` |
| AgentThinking.AgentInfoPrecedence | frontend/src/components/AgentThinking.js:53-84 | contains `visual` > contains `database` or equals `db` > contains `search` or `google` > the default card |
| AgentThinking.AgentInfoCases | frontend/src/components/AgentThinking.js:53-84 | every input maps to exactly one of the four cards |
| AgentThinking.NormalizeFixed | frontend/src/components/AgentThinking.js:35-42 | a type with no capital letter and no space at either end is its own normal form, as are the four backend agent names |
| AgentThinking.NormalizeIdempotent | frontend/src/components/AgentThinking.js:35-42 | lower-casing and trimming twice is doing it once |
| AgentThinking.AgentInfoOfNormalized | frontend/src/components/AgentThinking.js:35-84 | a type and its normalised form show the same card |
| AgentThinking.NormalizeConversation | frontend/src/components/AgentThinking.js:37 | helper for `MissingTypeIsDefault`: the default type `conversation` normalises to itself (an instance of `NormalizeFixed`) |
| AgentThinking.NoVisual | frontend/src/components/AgentThinking.js:53 | helper for `MissingTypeIsDefault`: `conversation` fails the `visual` test of the first branch |
| AgentThinking.NoDatabase | frontend/src/components/AgentThinking.js:61 | helper for `MissingTypeIsDefault`: `conversation` fails the `database` test of the second branch |
| AgentThinking.NoSearch | frontend/src/components/AgentThinking.js:69 | helper for `MissingTypeIsDefault`: `conversation` fails the `search` test of the third branch |
| AgentThinking.NoGoogle | frontend/src/components/AgentThinking.js:69 | helper for `MissingTypeIsDefault`: `conversation` fails the `google` test of the third branch |
| AgentThinking.MissingTypeIsDefault | frontend/src/components/AgentThinking.js:14 | a missing or empty type shows the default "Financi Agent" card |
| MessageBubble.DropTrailingSlash | frontend/src/components/MessageBubble.js:21-23 | at most one trailing `/` is removed |
| MessageBubble.DashesToSpaces | frontend/src/components/MessageBubble.js:27 | no `-` is left and the length is kept |
| MessageBubble.Capitalize | frontend/src/components/MessageBubble.js:29 | the first character is upper-cased and the rest is unchanged |
| MessageBubble.CapitalizeAll | frontend/src/components/MessageBubble.js:28-30 | each word is capitalised, one output word per input word |
| MessageBubble.FormatDisplayUrl | frontend/src/components/MessageBubble.js:9-37 | specification function for `formatDisplayUrl`; its properties are proved in `FormatDisplayUrlProperties` |
| MessageBubble.FormatDisplayUrlProperties | frontend/src/components/MessageBubble.js:9-37 | a falsy url gives `""`; a url not starting with `http` is unchanged; otherwise the result has no `-` and its words are the path's words capitalised, with the word count kept |
| MessageBubble.PathTextAfterPrefix | frontend/src/components/MessageBubble.js:16-23 | a url starting with the hospital prefix keeps only what follows it, less one trailing `/` |
| MessageBubble.PathTextCutsFirstOccurrence | frontend/src/components/MessageBubble.js:16-18 | only the first occurrence of the hospital prefix is removed |
| MessageBubble.ValidList | frontend/src/components/MessageBubble.js:43-45 | the kept references are strings starting with `http` once trimmed |
| MessageBubble.ValidReferences | frontend/src/components/MessageBubble.js:43-45 | no list gives no list; a list gives the filtered list |
| MessageBubble.ValidListAppend | frontend/src/components/MessageBubble.js:43-45 | the filter distributes over concatenation, so order is kept |
| MessageBubble.ValidListMembers | frontend/src/components/MessageBubble.js:43-45 | a text is kept exactly when it is a string reference whose trimmed form starts with `http` |
| Djia.CleanText | backend/src/agent/run_djia_queries.py:150-151 | specification function: `$` and `,` removed, then lower-cased; proved about in `CleanTextHasNoSeparators` |
| Djia.CleanTextHasNoSeparators | backend/src/agent/run_djia_queries.py:147-154 | cleaned text holds no `$` and no `,` |
| Djia.CompareResults | backend/src/agent/run_djia_queries.py:129-154 | specification function for `_compare_results`; both directions are proved in `CompareResultsIff` |
| Djia.CompareResultsIff | backend/src/agent/run_djia_queries.py:129-154 | False for empty results; otherwise true exactly when the cleaned expected answer occurs in the cleaned text of the first row |
| Djia.ExtractAnswer | backend/src/agent/run_djia_queries.py:156-189 | "Không có kết quả" for empty results; a text first value is returned as it is; an empty first row gives `{}` |
| Djia.ExtractReadsFirstColumn | backend/src/agent/run_djia_queries.py:170-174 | for a row zipped from distinct columns, the value read is the one under the first column |
| Djia.RunSingleQuery | backend/src/agent/run_djia_queries.py:82-127 | never raises: a `query_result` is always recorded, a failure as `{error, success: False}` exactly when the query did not return rows; other fields unchanged |
| Djia.RunSingleQueryRecords | backend/src/agent/run_djia_queries.py:95-115 | a successful run records the query, columns and rows unchanged, the timing, the comparison when an answer is expected, and the extracted answer |
| Djia.ApplyUpTo | backend/src/agent/run_djia_queries.py:210-211 | after the first replacements `data[i] = run_single_query(data[i])` the list keeps its length; None once an index is out of range |
| Djia.AllIndices | backend/src/agent/run_djia_queries.py:206-210 | the indices `start, start+1, …` up to `min(start+limit, total)`, or to `total` without a limit |
| Djia.FilteredIndices | backend/src/agent/run_djia_queries.py:234 | exactly the indices of the entries the filter keeps, in strictly ascending order |
| Djia.ApplyDistinct | backend/src/agent/run_djia_queries.py:210-211 | with distinct in-range indices each listed entry is rewritten from its own old value and every other entry is unchanged |
| Djia.AllQueriesRewriteTheirRange | backend/src/agent/run_djia_queries.py:191-220 | with a non-negative start, exactly the entries in the range are rewritten, each by its own run; the rest are untouched |
| Djia.FilteredQueriesRewriteKept | backend/src/agent/run_djia_queries.py:222-249 | exactly the entries the filter keeps are rewritten, each by its run; the rest are untouched |
| Djia.DjiaQueryRunner.constructor | backend/src/agent/run_djia_queries.py:40-52 | the output path is the given one, or the input path when none is given |
| Djia.DjiaQueryRunner.ProcessIndices | backend/src/agent/run_djia_queries.py:210-215 | the in-place loop ends with the array rewritten as the replacements specify, reports an out-of-range index, and saves after each replacement when asked |
| Djia.DjiaQueryRunner.RunAllQueries | backend/src/agent/run_djia_queries.py:191-220 | the array becomes the range rewritten; with saving after each the saves are the snapshots, otherwise there is one final save |
| Djia.DjiaQueryRunner.RunFilteredQueries | backend/src/agent/run_djia_queries.py:222-249 | the array becomes the matching entries rewritten; the final save happens only if some entry matched |
| Djia.NoneStaysNone | backend/src/agent/run_djia_queries.py:210-211 | once an index has raised, the whole run has failed |
| Djia.SnapshotsStop | backend/src/agent/run_djia_queries.py:213-215 | once an index has raised, nothing more is saved |

## Left out

- Language models, the Tavily search service and the PostgreSQL driver are not called: their replies and exceptions are parameters.
- Only tier 3 of `parse_confidence_json` is scanned by hand. Tiers 1 and 2 hand text to `json.loads`, which is a parameter.
- `Router.Json`: a parsed object is taken to hold only numbers, so some things the source does are not modelled:
  - When a tier-1 or tier-2 object gives an agent a string or `null`, router.py:133 stores that value. The comparison at router.py:134 then raises `TypeError` partway through the update loop.
  - At that point the agents before it have been rescored. That agent holds the raw value with its old `selected`, and the agents after it are stale.
  - `calculate_confidence` swallows the error (router.py:98-100). `detailed_routing` then raises at `round(agent.confidence, 2)` (router.py:167), so `/api/query` answers HTTP 500 (api.py:173-175).
  - A JSON boolean compares as 1 or 0, so `true` selects every agent. The model keeps neither the boolean nor the partial update, and it answers normally where the source answers 500.
- `ChatBox.FirstMatchFrom` and `Visualize.ParenSymbolFrom` scan for their regular expressions by hand. The other regular expressions in `analyze_and_suggest_visualization` are parameters.
- `Router.IsDigit` is ASCII-only. Python's `\d` and `float()` also accept other Unicode decimal digits (router.py:81-83), which the tier-3 scan here does not capture.
- `Visualize.JsonValue` holds only a dictionary of strings. On the specified-chart path, the source returns whatever dictionary `json.loads` gives, with `chart_type` overwritten (visualize_agent.py:129-132). That dictionary can hold numbers, lists or `null`; such a reply is modelled as `JOther`, which gives the specified default instead.
- `PyDict.Unescape` decodes only the inside of a JSON string literal, as the partner of `json.dumps`. It is not the whole of `json.loads`, and it leaves escapes of surrogate code points undecoded.
- Case mapping is ASCII-only. Python's `lower()` and JavaScript's `toLowerCase()`/`toUpperCase()` on non-ASCII letters are not modelled.
- Confidences and timings are exact reals, not binary floating point. `round(confidence, 2)` in the routing report is not applied (the report keeps the unrounded value).
- `Djia.ExtractAnswer`: the money and thousands number formats and Python's `str()` of a row are supplied as a `Renderings` parameter.
  - `float(value)`, which picks between the two number formats, is the parameter `numeric`. The model does not tie it to the value's text, so which number format is chosen is not derived from the row.
  - The non-numeric branches are modelled exactly.
- `get_state` of LangGraph is an input to `Api` (a list of results, or an exception); graph compilation itself is replaced by the explicit node sequence.
- The async twins of `query_with_retry`, `search`, `process_message` and `process_question` behave like their sync versions and are not modelled separately. The exception is the visualisation loop, which differs.
- The thread pools and `asyncio` are left out, so concurrent requests and the router's shared agent objects across them are not modelled.
- Timers in `ChatBox` (`setTimeout`) are left out: the state after a send is the state once every timer has fired.
- Two sends in flight at once are not modelled.
- The clock is a parameter: the hour of `get_standard_response`, the search timestamp, the message times and the DJIA execution time.
- pandas, matplotlib and seaborn: preprocessing, drawing, pie aggregation and daily returns happen inside the per-attempt outcome of `Visualize.VisualizeQueryResult`. Saving a chart and base64 encoding are left out too.
- File I/O in the DJIA runner: `load_questions` is left out (the data is the array given), and `save_results` is recorded as a log of saved snapshots.
- A question record without a `question` or a `number` key raises `KeyError` outside the `try` of `run_single_query` (run_djia_queries.py:92-93); records here always have both fields.
- Expected DJIA answers that are not strings are not modelled.
- `GoogleSearch.Simplify` and `Workflow.FormatSearchResults` take a search item's title, content and URL to be strings or missing. Other JSON types are not modelled. In the source, a `null` or numeric title makes the `[:50]` slice in the log line (google_search.py:66) raise, and the retry loop then counts an exception.
- In the front end, `answer`, `current_agent` and the references are strings or missing; other JSON types are not modelled. `routing_info` entries that are `null` are not modelled.
- The references list of a new bot message is always empty in `handleSendMessage`, so it is not a field.
- `Workflow.FinancialAgentSystem.ProcessQuestion`: the output is not logged, and the `process` loop-back of `_should_end` is a single pass, since synthesis always ends in COMPLETE or raises.
- The interactive `main()` loops, `print`/logging, the FastAPI app setup, CORS, static mounts and the health endpoint are left out: they are I/O.
- JSX rendering, MessageInput.js, Header.js and LoadingSpinner.js are left out: they are presentation only.
- The embedding and vector-search wrappers, configuration and prompt text are left out: they are foreign services and constants outside the routing core.
- `Visualize.VisualizeQueryResult`: a chart is whatever the per-attempt outcome returns, so the drawing branches between them are not modelled.

## Findings

| source | as written | input that shows it | evidently intended | confidence | as-written member | corrected member |
|---|---|---|---|---|---|---|
| backend/src/agent/visualize_agent.py:735 | `_process_visualization_data` calls `self.analyze_question_for_chart`, which the class does not define, so every pass of `visualize_query_result_async` that gets data raises AttributeError and the loop can only end in the no-data or exhaustion result | any question whose query returns at least one row, with `max_retries >= 1` | call `analyze_and_suggest_visualization`, so a pass with data returns its chart | not executed | Visualize.VisualizeQueryResultAsyncAsWritten | Visualize.VisualizeQueryResultAsync |
