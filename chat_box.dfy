/**
 * The chat box: which agent the page highlights for an answer, where the chart
 * file named in an answer is served from, and the message list a send appends to.
 */
module ChatBox {
  import opened Wrappers
  import opened Strings
  import Api

  // ---------------------------------------------------------------- determineActiveAgent

  /** One entry of `routing_info.agents`. */
  datatype AgentEntry = AgentEntry(name: string, selected: bool)

  /** The parts of `routing_info` the page reads; either list may be missing. */
  datatype RoutingData = RoutingData(selectedAgents: Option<seq<string>>, agents: Option<seq<AgentEntry>>)

  /** The shared priority: a visualisation that has a chart, then a database query,
      then a search, then the first name. */
  function Priority(names: seq<string>, hasVisualization: bool): (r: string)
    requires |names| > 0
    ensures r in names
  {
    if "visualize" in names && hasVisualization then "visualize"
    else if "database_query" in names then "database_query"
    else if "google_search" in names then "google_search"
    else names[0]
  }

  /** `agents.filter(a => a.selected).map(a => a.name)`. */
  function SelectedNames(agents: seq<AgentEntry>): (r: seq<string>)
    ensures |r| <= |agents|
    decreases |agents|
  {
    if |agents| == 0 then []
    else
      var rest := SelectedNames(agents[..|agents| - 1]);
      if agents[|agents| - 1].selected then rest + [agents[|agents| - 1].name] else rest
  }

  /** The agent chosen from the routing information alone: `selected_agents` when it is
      present and non-empty, otherwise the agents flagged as selected, otherwise "conversation". */
  function RoutedAgent(routing: Option<RoutingData>, hasVisualization: bool): string {
    if routing.Some? && routing.value.selectedAgents.Some? && |routing.value.selectedAgents.value| > 0 then
      Priority(routing.value.selectedAgents.value, hasVisualization)
    else if routing.Some? && routing.value.agents.Some? && |SelectedNames(routing.value.agents.value)| > 0 then
      Priority(SelectedNames(routing.value.agents.value), hasVisualization)
    else "conversation"
  }

  const DatabaseKeywords := ["database", "sql", "query", "dữ liệu", "bảng", "cổ phiếu"]
  const SearchKeywords := ["search", "tìm kiếm", "google", "web", "tin tức", "mới nhất"]

  predicate AnyKeyword(text: string, keywords: seq<string>) {
    exists k :: 0 <= k < |keywords| && Contains(text, keywords[k])
  }

  /** The fallback on the answer text: a chart, then database words, then search words. */
  function KeywordAgent(answer: string, hasVisualization: bool): string {
    var lower := Lower(answer);
    if hasVisualization then "visualize"
    else if AnyKeyword(lower, DatabaseKeywords) then "database_query"
    else if AnyKeyword(lower, SearchKeywords) then "google_search"
    else "conversation"
  }

  /** `determineActiveAgent` for a string answer: the routed agent, and the keyword
      fallback only while that is still "conversation". */
  function DetermineActiveAgent(answer: string, routing: Option<RoutingData>, hasVisualization: bool): string {
    var agent := RoutedAgent(routing, hasVisualization);
    if agent == "conversation" then KeywordAgent(answer, hasVisualization) else agent
  }

  /** The routed agent is always one of the names the routing listed as selected, or
      "conversation" when it listed none; the confidence list is consulted only when
      `selected_agents` is missing or empty; and the answer text decides only when the
      routing gave "conversation". */
  lemma DetermineActiveAgentCases(answer: string, routing: Option<RoutingData>, hasVisualization: bool)
    ensures var sel := routing.Some? && routing.value.selectedAgents.Some? && |routing.value.selectedAgents.value| > 0;
      var r := RoutedAgent(routing, hasVisualization);
      (sel ==> r in routing.value.selectedAgents.value)
      && (!sel && routing.Some? && routing.value.agents.Some? ==>
            r == "conversation" || r in SelectedNames(routing.value.agents.value))
      && (!sel && (routing.None? || routing.value.agents.None?) ==> r == "conversation")
    ensures RoutedAgent(routing, hasVisualization) != "conversation" ==>
      DetermineActiveAgent(answer, routing, hasVisualization) == RoutedAgent(routing, hasVisualization)
    ensures RoutedAgent(routing, hasVisualization) == "conversation" ==>
      DetermineActiveAgent(answer, routing, hasVisualization)
        in ["visualize", "database_query", "google_search", "conversation"]
    ensures RoutedAgent(routing, hasVisualization) == "conversation" && hasVisualization ==>
      DetermineActiveAgent(answer, routing, hasVisualization) == "visualize"
  {
  }

  /** A name is kept by the selection filter exactly when some entry with that name is flagged. */
  lemma {:induction false} SelectedNamesMembers(agents: seq<AgentEntry>, n: string)
    ensures n in SelectedNames(agents) <==> exists k :: 0 <= k < |agents| && agents[k].name == n && agents[k].selected
    decreases |agents|
  {
    if |agents| > 0 {
      var init := agents[..|agents| - 1];
      SelectedNamesMembers(init, n);
      assert forall k :: 0 <= k < |init| ==> init[k] == agents[k];
    }
  }

  /** With a non-empty `selected_agents` and a chart flag that matches the back end's
      image test, the page's choice from the routing equals the back end's static
      priority (the one it uses when the graph state names no agent). */
  lemma AgreesWithBackend(selected: seq<string>, agents: Option<seq<AgentEntry>>, image: Option<string>)
    requires |selected| > 0
    ensures RoutedAgent(Some(RoutingData(Some(selected), agents)), Api.HasImage(image)) == Api.StaticAgent(selected, image)
  {
  }

  // ---------------------------------------------------------------- visualisation path

  const PathHead := "./visualizations/visualization_"
  const PathTail := ".png"

  predicate IsDigitOrUnderscore(c: char) {
    '0' <= c <= '9' || c == '_'
  }

  /** Length of the run of `[\d_]` characters at the start of `s`. */
  function RunLength(s: string): (n: nat)
    ensures n <= |s| && forall k :: 0 <= k < n ==> IsDigitOrUnderscore(s[k])
    ensures n < |s| ==> !IsDigitOrUnderscore(s[n])
    decreases |s|
  {
    if |s| > 0 && IsDigitOrUnderscore(s[0]) then 1 + RunLength(s[1..]) else 0
  }

  /** Where a match of `./visualizations/visualization_[\d_]+.png` starting at `i` ends,
      if one starts there. The run is greedy, and since `.` is not in `[\d_]` a shorter
      run can never be followed by `.png`, so the greedy run is the only candidate. */
  function MatchEnd(s: string, i: nat): Option<nat>
    requires i <= |s|
  {
    var t := s[i..];
    if !StartsWith(t, PathHead) then None
    else
      var n := RunLength(t[|PathHead|..]);
      var j := i + |PathHead| + n;
      if n > 0 && StartsWith(s[j..], PathTail) then Some(j + |PathTail|) else None
  }

  /** The leftmost position at or after `from` where a match starts. */
  function FirstMatchFrom(s: string, from: nat): (r: Option<nat>)
    requires from <= |s|
    ensures r.Some? ==> from <= r.value <= |s| && MatchEnd(s, r.value).Some?
    ensures r.Some? ==> forall i :: from <= i < r.value ==> MatchEnd(s, i).None?
    ensures r.None? ==> forall i :: from <= i <= |s| ==> MatchEnd(s, i).None?
    decreases |s| - from
  {
    if MatchEnd(s, from).Some? then Some(from)
    else if from == |s| then None
    else FirstMatchFrom(s, from + 1)
  }

  /** `answer.match(regex)[0].replace('./', '/')`, or null without a match. */
  function VisualizationPath(answer: string): Option<string> {
    match FirstMatchFrom(answer, 0)
    case None => None
    case Some(i) => Some("/" + answer[i + 2..MatchEnd(answer, i).value])
  }

  /** "/visualizations/visualization_": the head with its leading "." dropped. */
  const ServedHead := "/" + PathHead[2..]

  /** The three parts of a match: the head, the run and the tail. */
  lemma MatchParts(s: string, i: nat)
    requires i <= |s| && MatchEnd(s, i).Some?
    ensures var j := i + |PathHead| + RunLength(s[i..][|PathHead|..]);
      i + |PathHead| < j && j + |PathTail| == MatchEnd(s, i).value <= |s|
      && s[i..i + |PathHead|] == PathHead && s[j..j + |PathTail|] == PathTail
      && forall k :: i + |PathHead| <= k < j ==> IsDigitOrUnderscore(s[k])
  {
    var t := s[i..];
    var r := t[|PathHead|..];
    var n := RunLength(r);
    var j := i + |PathHead| + n;
    assert t[..|PathHead|] == s[i..i + |PathHead|];
    assert s[j..][..|PathTail|] == s[j..j + |PathTail|];
    forall k | i + |PathHead| <= k < j ensures IsDigitOrUnderscore(s[k]) {
      assert s[k] == r[k - i - |PathHead|];
    }
  }

  /** A string built from a head, a middle and a tail starts with the head, ends with
      the tail and has the middle in between. */
  lemma Pieces(h: string, mid: string, tail: string)
    ensures var p := h + mid + tail;
      StartsWith(p, h) && EndsWith(p, tail) && |p| == |h| + |mid| + |tail|
      && forall k :: |h| <= k < |p| - |tail| ==> p[k] == mid[k - |h|]
  {
    var p := h + mid + tail;
    assert p[..|h|] == h;
    assert p[|p| - |tail|..] == tail;
  }

  /** Dropping the leading "." of a match gives the served head, the run and the tail. */
  lemma ServedFromParts(s: string, i: nat, j: nat, e: nat)
    requires i + |PathHead| < j && j + |PathTail| == e <= |s|
    requires s[i..i + |PathHead|] == PathHead && s[j..j + |PathTail|] == PathTail
    ensures "/" + s[i + 2..e] == ServedHead + s[i + |PathHead|..j] + PathTail
  {
    var m := i + |PathHead|;
    assert s[i + 2..e] == s[i + 2..m] + s[m..j] + s[j..e];
    assert s[i + 2..m] == s[i..m][2..];
  }

  /** A found path is a served path: it starts with "/visualizations/visualization_",
      continues with a non-empty run of digits and underscores and ends in ".png", and
      it comes from the leftmost match; no match gives no path. */
  lemma VisualizationPathProperties(answer: string)
    ensures VisualizationPath(answer).None? <==> forall i :: 0 <= i <= |answer| ==> MatchEnd(answer, i).None?
    ensures VisualizationPath(answer).Some? ==>
      var p := VisualizationPath(answer).value;
      StartsWith(p, ServedHead) && EndsWith(p, PathTail) && |p| > |ServedHead| + |PathTail|
      && forall k :: |ServedHead| <= k < |p| - |PathTail| ==> IsDigitOrUnderscore(p[k])
  {
    var first := FirstMatchFrom(answer, 0);
    if first.Some? {
      var i := first.value;
      MatchParts(answer, i);
      var j := i + |PathHead| + RunLength(answer[i..][|PathHead|..]);
      var e := MatchEnd(answer, i).value;
      var mid := answer[i + |PathHead|..j];
      ServedFromParts(answer, i, j, e);
      Pieces(ServedHead, mid, PathTail);
    }
  }

  // ---------------------------------------------------------------- handleSendMessage

  datatype Message =
    | UserMessage(text: string, time: string)
    | BotMessage(text: string, time: string, visualizationPath: Option<string>, visualization: Option<string>)
    | ErrorMessage(text: string, time: string)

  /** The response fields the page reads. */
  datatype ApiData = ApiData(answer: Option<string>, routing: Option<RoutingData>,
                             visualizationBase64: Option<string>, currentAgent: Option<string>)

  /** How the request ended: the fetch rejected, the server answered with an error
      status, or a body was read. */
  datatype FetchOutcome = NetworkError(message: string) | HttpNotOk(statusText: string) | Ok(data: ApiData)

  /** `visualizationBase64 || visualizationPath`, as a truth value. */
  function HasVisualization(base64: Option<string>, path: Option<string>): bool {
    (base64.Some? && base64.value != "") || path.Some?
  }

  /** The agent the page shows for a response with a string answer: the back end's
      `current_agent` normalised when it is a non-empty string, else the page's own decision. */
  function DetectedAgent(data: ApiData): string
    requires data.answer.Some?
  {
    if data.currentAgent.Some? && data.currentAgent.value != "" then JsTrim(Lower(data.currentAgent.value))
    else
      var path := VisualizationPath(data.answer.value);
      DetermineActiveAgent(data.answer.value, data.routing, HasVisualization(data.visualizationBase64, path))
  }

  /** The single message a send appends after the user's. `typeError` is the text of the
      exception `answer.match` raises when the body has no string answer. */
  function ReplyMessage(outcome: FetchOutcome, time: string, typeError: string): Message {
    match outcome
    case NetworkError(m) => ErrorMessage("Error: " + m, time)
    case HttpNotOk(st) => ErrorMessage("Error: Server error: " + st, time)
    case Ok(data) =>
      if data.answer.None? then ErrorMessage("Error: " + typeError, time)
      else BotMessage(data.answer.value, time, VisualizationPath(data.answer.value), data.visualizationBase64)
  }

  /** The agent highlighted once the send has settled: the detected one after a
      readable answer, and the "conversation" reset otherwise. */
  function AgentAfter(outcome: FetchOutcome): string {
    if outcome.Ok? && outcome.data.answer.Some? then DetectedAgent(outcome.data) else "conversation"
  }

  /** A reply is a bot message exactly when a string answer was read, and then it
      carries that answer, the path found in it and the image as received. */
  lemma ReplyMessageCases(outcome: FetchOutcome, time: string, typeError: string)
    ensures !ReplyMessage(outcome, time, typeError).UserMessage?
    ensures ReplyMessage(outcome, time, typeError).BotMessage? <==> outcome.Ok? && outcome.data.answer.Some?
    ensures ReplyMessage(outcome, time, typeError).BotMessage? ==>
      var m := ReplyMessage(outcome, time, typeError);
      m.text == outcome.data.answer.value && m.visualizationPath == VisualizationPath(m.text)
      && m.visualization == outcome.data.visualizationBase64
    ensures ReplyMessage(outcome, time, typeError).ErrorMessage? ==>
      StartsWith(ReplyMessage(outcome, time, typeError).text, "Error: ")
  {
    var m := ReplyMessage(outcome, time, typeError);
    if m.ErrorMessage? {
      assert m.text[..7] == "Error: ";
    }
  }

  /** The message list alternates: each user message is followed by its reply. */
  predicate Alternating(messages: seq<Message>) {
    |messages| % 2 == 0
    && forall k :: 0 <= k < |messages| ==> (messages[k].UserMessage? <==> k % 2 == 0)
  }

  class ChatBox {
    var messages: seq<Message>
    var isLoading: bool
    var showIntro: bool
    var activeAgent: string

    predicate Valid()
      reads this
    {
      Alternating(messages)
    }

    constructor()
      ensures Valid()
      ensures messages == [] && !isLoading && showIntro && activeAgent == "conversation"
    {
      messages := [];
      isLoading := false;
      showIntro := true;
      activeAgent := "conversation";
    }

    /** `handleSendMessage` once the request has settled and the delayed loading flag
        has fired: the user's message and exactly one reply are appended, the intro is
        hidden, loading is over and the highlighted agent is the detected one (or the
        "conversation" reset when no answer was read). `sentAt` and `repliedAt` are the
        clock's readings when the user's message and the reply are created. */
    method HandleSendMessage(message: string, sentAt: string, outcome: FetchOutcome, repliedAt: string, typeError: string)
      requires Valid()
      modifies this
      ensures Valid()
      ensures messages == old(messages) + [UserMessage(message, sentAt), ReplyMessage(outcome, repliedAt, typeError)]
      ensures !showIntro && !isLoading
      ensures activeAgent == AgentAfter(outcome)
    {
      showIntro := false;
      messages := messages + [UserMessage(message, sentAt)];
      isLoading := true;
      activeAgent := "conversation";
      var reply: Message;
      match outcome {
        case NetworkError(m) =>
          reply := ErrorMessage("Error: " + m, repliedAt);
        case HttpNotOk(st) =>
          reply := ErrorMessage("Error: Server error: " + st, repliedAt);
        case Ok(data) =>
          if data.answer.None? {
            reply := ErrorMessage("Error: " + typeError, repliedAt);
          } else {
            var answer := data.answer.value;
            var path := VisualizationPath(answer);
            var detected := DetectedAgent(data);
            activeAgent := detected;
            reply := BotMessage(answer, repliedAt, path, data.visualizationBase64);
          }
      }
      messages := messages + [reply];
      isLoading := false;
      ReplyMessageCases(outcome, repliedAt, typeError);
    }
  }
}
