/**
 * The confidence router: a fixed registry of four agents, a best-effort
 * parser that turns the classifier's reply into a score map, the update of
 * each agent's confidence and selection, and the selection itself.
 *
 * The classifier (an LLM call) is an input: its outcome is a `Call<string>`,
 * the reply text or the message of the exception it raised. `json.loads` is
 * the parameter `loads`, which gives `None` where Python raises.
 */
module Router {
  import opened Wrappers
  import opened Strings
  import opened Sequences

  /** What `json.loads` produced: an object of numeric scores, or any other JSON value. */
  datatype Json = JObject(scores: map<string, real>) | JNotObject

  /** `confidence_scores.get(name, 0.0)`. */
  function ScoreOf(m: map<string, real>, name: string): real {
    if name in m then m[name] else 0.0
  }

  const RegistryNames: seq<string> := ["database_query", "google_search", "visualize", "conversation"]
  const Thresholds: seq<real> := [0.2, 0.2, 0.7, 0.2]

  /** The registry's descriptions, in the order of the names. */
  const Descriptions: seq<string> := [
    "Xử lý truy vấn cơ sở dữ liệu về thông tin công ty và giá cổ phiếu.",
    "Tìm kiếm trên Google để lấy thông tin mới nhất về công ty và giá cổ phiếu.",
    "Tạo truy vấn và trực quan hóa dữ liệu dưới dạng biểu đồ, đồ thị và các hình ảnh trực quan khác.",
    "Xử lý các tương tác giao tiếp và lời chào."
  ]

  // ---------------------------------------------------------------- tier 1: `\{[^{}]+\}`

  predicate IsBrace(c: char) {
    c == '{' || c == '}'
  }

  /** Index of the first brace at or after `k`, or `|s|` when there is none. */
  function NextBrace(s: string, k: nat): (j: nat)
    requires k <= |s|
    ensures k <= j <= |s|
    ensures forall m :: k <= m < j ==> !IsBrace(s[m])
    ensures j < |s| ==> IsBrace(s[j])
    decreases |s| - k
  {
    if k == |s| || IsBrace(s[k]) then k else NextBrace(s, k + 1)
  }

  /** The pattern `\{[^{}]+\}` matches exactly `s[i..j + 1]`. */
  predicate BlockAt(s: string, i: int, j: int) {
    0 <= i && i + 1 < j < |s| && s[i] == '{' && s[j] == '}'
    && forall m :: i < m < j ==> !IsBrace(s[m])
  }

  /** `re.search(r'\{[^{}]+\}', s)` starting the scan at `i`: the leftmost block, as (start, closing index). */
  function FindBlockFrom(s: string, i: nat): (r: Option<(nat, nat)>)
    requires i <= |s|
    ensures r.Some? ==> i <= r.value.0 && BlockAt(s, r.value.0, r.value.1)
    ensures forall p, q :: i <= p && (r.None? || p < r.value.0) ==> !BlockAt(s, p, q)
    decreases |s| - i
  {
    if i == |s| then None
    else
      var c := NextBrace(s, i + 1);
      if s[i] == '{' && c < |s| && s[c] == '}' && c > i + 1 then Some((i, c))
      else
        FindBlockFrom(s, i + 1)
  }

  /** The text that tier 1 hands to `json.loads`, if the pattern matches. */
  function FirstBlock(s: string): Option<string> {
    match FindBlockFrom(s, 0)
    case None => None
    case Some((i, j)) => Some(s[i..j + 1])
  }

  // ---------------------------------------------------------------- tier 2: fence stripping

  /** `raw.replace('```json', '').replace('```', '').strip()`. */
  function StripFences(raw: string): string {
    PyStrip(ReplaceAll(ReplaceAll(raw, "```json", ""), "```", ""))
  }

  // ---------------------------------------------------------------- tier 3: `name["']?\s*:\s*(\d+\.?\d*)`

  predicate IsDigit(c: char) {
    '0' <= c <= '9'
  }

  /** The first index at or after `k` whose character fails `p`, or `|s|`. */
  function SkipWhile(s: string, k: nat, p: char -> bool): (j: nat)
    requires k <= |s|
    ensures k <= j <= |s|
    ensures forall m :: k <= m < j ==> p(s[m])
    ensures j < |s| ==> !p(s[j])
    decreases |s| - k
  {
    if k == |s| || !p(s[k]) then k else SkipWhile(s, k + 1, p)
  }

  function Pow10(n: nat): (r: nat)
    ensures r >= 1
  {
    if n == 0 then 1 else 10 * Pow10(n - 1)
  }

  function DigitValue(c: char): nat
    requires IsDigit(c)
  {
    c as int - '0' as int
  }

  /** The value of a run of decimal digits. */
  function DigitsValue(ds: string): nat
    requires forall m :: 0 <= m < |ds| ==> IsDigit(ds[m])
    decreases |ds|
  {
    if |ds| == 0 then 0
    else 10 * DigitsValue(ds[..|ds| - 1]) + DigitValue(ds[|ds| - 1])
  }

  /** `float(int_part + '.' + frac_part)` for digit strings, as an exact real. */
  function DecimalValue(intPart: string, fracPart: string): (v: real)
    requires forall m :: 0 <= m < |intPart| ==> IsDigit(intPart[m])
    requires forall m :: 0 <= m < |fracPart| ==> IsDigit(fracPart[m])
    ensures v >= 0.0
  {
    DigitsValue(intPart) as real + DigitsValue(fracPart) as real / Pow10(|fracPart|) as real
  }

  /** `\d*` matched from `k`: the run of digits starting there. */
  function DigitRun(s: string, k: nat): (ds: string)
    requires k <= |s|
    ensures forall m :: 0 <= m < |ds| ==> IsDigit(ds[m])
    ensures |ds| == SkipWhile(s, k, IsDigit) - k
  {
    var d := SkipWhile(s, k, IsDigit);
    assert forall m :: 0 <= m < d - k ==> s[k..d][m] == s[k + m];
    s[k..d]
  }

  /** The number the tier-3 pattern captures when it matches at position `p`, if it does. */
  function KeyNumberAt(s: string, name: string, p: nat): (r: Option<real>)
    ensures r.Some? ==> OccursAt(s, name, p) && r.value >= 0.0
  {
    if !OccursAt(s, name, p) then None
    else
      var q := p + |name|;
      var q1 := if q < |s| && (s[q] == '"' || s[q] == '\'') then q + 1 else q;
      var q2 := SkipWhile(s, q1, IsPySpace);
      if q2 == |s| || s[q2] != ':' then None
      else
        var q3 := SkipWhile(s, q2 + 1, IsPySpace);
        var ds := DigitRun(s, q3);
        var d := q3 + |ds|;
        if |ds| == 0 then None
        else if d < |s| && s[d] == '.' then Some(DecimalValue(ds, DigitRun(s, d + 1)))
        else Some(DecimalValue(ds, ""))
  }

  /** `re.search` of the tier-3 pattern from position `p`: the leftmost match's number,
      or None exactly when the pattern matches nowhere from `p` on. */
  function ScanKey(s: string, name: string, p: nat): (r: Option<real>)
    requires p <= |s|
    ensures r.Some? ==> r.value >= 0.0 && Contains(s[p..], name)
    ensures r.Some? ==> exists q :: p <= q <= |s| && KeyNumberAt(s, name, q) == r
                                    && forall q' :: p <= q' < q ==> KeyNumberAt(s, name, q').None?
    ensures r.None? <==> forall q :: p <= q <= |s| ==> KeyNumberAt(s, name, q).None?
    decreases |s| - p
  {
    var here := KeyNumberAt(s, name, p);
    if here.Some? then
      assert s[p..][..|name|] == s[p..p + |name|];
      here
    else if p == |s| then None
    else
      var r := ScanKey(s, name, p + 1);
      assert s[p..][1..] == s[p + 1..];
      r
  }

  /** The score tier 3 gives `name`: the captured number, or 0.0 without a match. */
  function FallbackScore(raw: string, name: string): real {
    ScanKey(raw, name, 0).GetOr(0.0)
  }

  lemma FallbackWithoutKey(raw: string, name: string)
    requires !Contains(raw, name)
    ensures FallbackScore(raw, name) == 0.0
  {
    assert raw[0..] == raw;
  }

  // ---------------------------------------------------------------- agents


  /** One registry entry, at a moment in time. */
  datatype AgentView = AgentView(name: string, threshold: real, confidence: real, selected: bool)

  class Agent {
    const name: string
    const description: string
    const threshold: real
    var confidence: real
    var selected: bool

    constructor (name: string, description: string, threshold: real)
      ensures this.name == name && this.description == description && this.threshold == threshold
      ensures confidence == 0.0 && !selected
    {
      this.name := name;
      this.description := description;
      this.threshold := threshold;
      confidence := 0.0;
      selected := false;
    }

    function View(): AgentView
      reads this
    {
      AgentView(name, threshold, confidence, selected)
    }
  }

  /** The current state of each agent, in order. */
  function ViewsOf(xs: seq<Agent>): (v: seq<AgentView>)
    reads xs
    ensures |v| == |xs|
    ensures forall k :: 0 <= k < |xs| ==> v[k] == xs[k].View()
    decreases |xs|
  {
    if |xs| == 0 then [] else [xs[0].View()] + ViewsOf(xs[1..])
  }

  /** `[agent.name for agent in agents if agent.selected]`. */
  function SelectedNames(views: seq<AgentView>): (names: seq<string>)
    ensures |names| <= |views|
    ensures forall n :: n in names <==> exists k :: 0 <= k < |views| && views[k].selected && views[k].name == n
    decreases |views|
  {
    if |views| == 0 then []
    else
      var rest := SelectedNames(views[1..]);
      assert forall k :: 1 <= k < |views| ==> views[k] == views[1..][k - 1];
      if views[0].selected then [views[0].name] + rest else rest
  }

  /** `selected_agents if selected_agents else ["conversation"]`. */
  function WithFallback(names: seq<string>): (r: seq<string>)
    ensures |r| >= 1
    ensures |names| == 0 ==> r == ["conversation"]
    ensures |names| > 0 ==> r == names
  {
    if |names| == 0 then ["conversation"] else names
  }

  /** Each view selected exactly when its confidence reaches its threshold. */
  predicate Consistent(views: seq<AgentView>) {
    forall k :: 0 <= k < |views| ==> (views[k].selected <==> views[k].confidence >= views[k].threshold)
  }

  /** The views after an update with `scores`. */
  function Classified(views: seq<AgentView>, scores: map<string, real>): (r: seq<AgentView>)
    ensures |r| == |views|
    ensures forall k :: 0 <= k < |r| ==>
      r[k].name == views[k].name && r[k].threshold == views[k].threshold
      && r[k].confidence == ScoreOf(scores, views[k].name)
    ensures Consistent(r)
  {
    seq(|views|, k requires 0 <= k < |views| =>
      var c := ScoreOf(scores, views[k].name);
      AgentView(views[k].name, views[k].threshold, c, c >= views[k].threshold))
  }

  /** The registry shape: the four names and thresholds, in order. */
  predicate IsRegistry(views: seq<AgentView>) {
    |views| == 4 && forall k :: 0 <= k < 4 ==> views[k].name == RegistryNames[k] && views[k].threshold == Thresholds[k]
  }

  /** Fields in the order of `detailed_routing`'s own: name, confidence (unrounded), threshold, selected. */
  datatype RoutingInfo = RoutingInfo(question: string, agents: seq<AgentView>, selectedAgents: seq<string>)

  /** `select_agents` over the state the classification left. */
  function Selection(views: seq<AgentView>): seq<string> {
    WithFallback(SelectedNames(views))
  }

  /** Every name starts at 0.0 and takes the number the scanner finds for it, in list order. */
  method ScanNames(scan: string -> Option<real>, names: seq<string>) returns (scores: map<string, real>)
    ensures scores == ScoresUpTo(scan, names, |names|)
  {
    scores := map n | n in names :: 0.0;  // `{agent.name: 0.0 for agent in self.agents}`
    var i := 0;
    while i < |names|
      invariant 0 <= i <= |names|
      invariant scores == ScoresUpTo(scan, names, i)
    {
      var m := scan(names[i]);
      if m.Some? {
        scores := scores[names[i] := m.value];
      }
      i := i + 1;
    }
  }

  /** The tier-3 map once the first `i` names have been scanned with `scan`: every
      name starts at 0.0 and a scanned name takes the number found for it, if any. */
  function ScoresUpTo(scan: string -> Option<real>, names: seq<string>, i: nat): map<string, real>
    requires i <= |names|
  {
    if i == 0 then map n | n in names :: 0.0
    else
      var prev := ScoresUpTo(scan, names, i - 1);
      var m := scan(names[i - 1]);
      if m.Some? then prev[names[i - 1] := m.value] else prev
  }

  /** The map's keys are exactly the names. */
  lemma {:induction false} ScoresUpToKeys(scan: string -> Option<real>, names: seq<string>, i: nat)
    requires i <= |names|
    ensures forall n :: n in ScoresUpTo(scan, names, i) <==> n in names
  {
    if i > 0 {
      ScoresUpToKeys(scan, names, i - 1);
    }
  }

  /** With distinct names, a scanned name holds its number (0.0 without one) and the others still 0.0. */
  lemma {:induction false} ScoresUpToAt(scan: string -> Option<real>, names: seq<string>, i: nat, k: nat)
    requires i <= |names| && k < |names|
    requires forall a, b :: 0 <= a < b < |names| ==> names[a] != names[b]
    ensures names[k] in ScoresUpTo(scan, names, i)
    ensures ScoresUpTo(scan, names, i)[names[k]] == if k < i then scan(names[k]).GetOr(0.0) else 0.0
  {
    if i > 0 {
      ScoresUpToAt(scan, names, i - 1, k);
      if k != i - 1 {
        assert names[k] != names[i - 1];
      }
    }
  }

  /** The tier-3 pattern's search for a name in `raw`. */
  function Scanner(raw: string): string -> Option<real> {
    n => ScanKey(raw, n, 0)
  }

  /** The score map tier 3 builds. */
  function FallbackMap(raw: string): map<string, real> {
    ScoresUpTo(Scanner(raw), RegistryNames, 4)
  }

  /** The tier-3 map has exactly the four registry names as keys, each holding the
      number its pattern captures, or 0.0. */
  lemma FallbackMapKeys(raw: string)
    ensures forall n :: n in FallbackMap(raw) <==> n in RegistryNames
    ensures forall k :: 0 <= k < 4 ==> FallbackMap(raw)[RegistryNames[k]] == FallbackScore(raw, RegistryNames[k])
  {
    NamesDistinct();
    ScoresUpToKeys(Scanner(raw), RegistryNames, 4);
    forall k | 0 <= k < 4 ensures FallbackMap(raw)[RegistryNames[k]] == FallbackScore(raw, RegistryNames[k]) {
      ScoresUpToAt(Scanner(raw), RegistryNames, 4, k);
    }
  }

  /** What `parse_confidence_json` returns for `raw`. */
  function Parsed(raw: string, loads: string -> Option<Json>): Json {
    var first := FirstBlock(raw);
    if first.Some? && loads(first.value).Some? then loads(first.value).value
    else if loads(StripFences(raw)).Some? then loads(StripFences(raw)).value
    else JObject(FallbackMap(raw))
  }

  /** The registry's state after `calculate_confidence`: updated when the classifier
      replied and the reply parsed to an object, and otherwise left as it was. */
  function AfterClassification(views: seq<AgentView>, reply: Call<string>, loads: string -> Option<Json>): seq<AgentView> {
    match reply
    case Raised(_) => views
    case Returned(raw) =>
      match Parsed(raw, loads)
      case JNotObject => views
      case JObject(scores) => Classified(views, scores)
  }

  /** `list.get` on a non-object reply raises before any agent is touched. */
  predicate ClassificationSucceeds(reply: Call<string>, loads: string -> Option<Json>) {
    reply.Returned? && Parsed(reply.value, loads).JObject?
  }

  /** Agents fresh from their constructor (confidence 0.0, not selected, positive threshold) are consistent. */
  lemma UntouchedConsistent(xs: seq<Agent>)
    requires forall k :: 0 <= k < |xs| ==> xs[k].confidence == 0.0 && !xs[k].selected && xs[k].threshold > 0.0
    ensures Consistent(ViewsOf(xs))
    ensures forall k :: 0 <= k < |xs| ==> ViewsOf(xs)[k].confidence == 0.0 && !ViewsOf(xs)[k].selected
  {
  }

  /** Agent `k` fresh from its constructor with the registry's `k`-th name and threshold. */
  predicate FreshEntry(a: Agent, k: nat)
    requires k < 4
    reads a
  {
    a.name == RegistryNames[k] && a.threshold == Thresholds[k] && a.confidence == 0.0 && !a.selected
  }

  /** Four distinct fresh agents, in registry order, form a consistent registry with nothing selected. */
  lemma FreshRegistry(a0: Agent, a1: Agent, a2: Agent, a3: Agent)
    requires FreshEntry(a0, 0) && FreshEntry(a1, 1) && FreshEntry(a2, 2) && FreshEntry(a3, 3)
    requires a0 != a1 && a0 != a2 && a0 != a3 && a1 != a2 && a1 != a3 && a2 != a3
    ensures var xs := [a0, a1, a2, a3];
      && (forall k :: 0 <= k < 4 ==> xs[k].name == RegistryNames[k] && xs[k].threshold == Thresholds[k])
      && (forall i, j :: 0 <= i < j < 4 ==> xs[i] != xs[j])
      && IsRegistry(ViewsOf(xs)) && Consistent(ViewsOf(xs))
      && forall k :: 0 <= k < 4 ==> ViewsOf(xs)[k].confidence == 0.0 && !ViewsOf(xs)[k].selected
  {
    var xs := [a0, a1, a2, a3];
    UntouchedConsistent(xs);
  }

  class FinancialMultiAgentRouter {
    const agents: seq<Agent>

    /** Four distinct agent objects with the registry's names and thresholds,
        each selected exactly when its confidence reaches its threshold. */
    predicate Valid()
      reads agents
    {
      |agents| == 4
      && (forall k :: 0 <= k < 4 ==> agents[k].name == RegistryNames[k] && agents[k].threshold == Thresholds[k])
      && (forall i, j :: 0 <= i < j < 4 ==> agents[i] != agents[j])
      && Consistent(ViewsOf(agents))
    }

    function Snapshot(): seq<AgentView>
      reads agents
    {
      ViewsOf(agents)
    }

    constructor ()
      ensures Valid()
      ensures IsRegistry(Snapshot())
      ensures forall k :: 0 <= k < 4 ==> Snapshot()[k].confidence == 0.0 && !Snapshot()[k].selected
    {
      var a0 := new Agent(RegistryNames[0], Descriptions[0], Thresholds[0]);
      var a1 := new Agent(RegistryNames[1], Descriptions[1], Thresholds[1]);
      var a2 := new Agent(RegistryNames[2], Descriptions[2], Thresholds[2]);
      var a3 := new Agent(RegistryNames[3], Descriptions[3], Thresholds[3]);
      agents := [a0, a1, a2, a3];
      new;
      FreshRegistry(a0, a1, a2, a3);
    }

    /** Tier 3: every agent's name starts at 0.0 and takes the number its pattern captures. */
    method FallbackScores(raw: string) returns (scores: map<string, real>)
      ensures scores == ScoresUpTo(Scanner(raw), Names(Snapshot()), |agents|)
    {
      scores := ScanNames(Scanner(raw), Names(Snapshot()));
    }

    /**
     * `parse_confidence_json`: tier 1 parses the first non-nested brace
     * block; tier 2 parses the reply with its code fences removed; tier 3
     * scans for `name: number` for every registry name, defaulting to 0.0.
     */
    method ParseConfidenceJson(raw: string, loads: string -> Option<Json>) returns (r: Json)
      requires Valid()
      ensures FirstBlock(raw).Some? && loads(FirstBlock(raw).value).Some?
        ==> r == loads(FirstBlock(raw).value).value
      ensures (FirstBlock(raw).None? || loads(FirstBlock(raw).value).None?) && loads(StripFences(raw)).Some?
        ==> r == loads(StripFences(raw)).value
      ensures (FirstBlock(raw).None? || loads(FirstBlock(raw).value).None?) && loads(StripFences(raw)).None?
        ==> r.JObject? && (forall n :: n in r.scores ==> n in RegistryNames)
            && forall k :: 0 <= k < 4 ==> RegistryNames[k] in r.scores && r.scores[RegistryNames[k]] == FallbackScore(raw, RegistryNames[k])
      ensures r == Parsed(raw, loads)
    {
      var block := FirstBlock(raw);
      if block.Some? {
        var parsed := loads(block.value);
        if parsed.Some? {
          return parsed.value;
        }
      }
      var clean := StripFences(raw);
      var parsed := loads(clean);
      if parsed.Some? {
        return parsed.value;
      }
      var scores := FallbackScores(raw);
      RegistryNamesOf(this);
      FallbackMapIs(raw, Names(Snapshot()), scores);
      r := JObject(scores);
    }

    /**
     * `_llm_intent_classification` from the classifier's outcome on: each
     * agent's confidence becomes its score (0.0 when absent) and it is
     * selected when that reaches its threshold. Returns false where Python
     * raises: the classifier raised, or the parsed value has no `get`.
     */
    method LlmIntentClassification(reply: Call<string>, loads: string -> Option<Json>) returns (ok: bool)
      requires Valid()
      modifies agents
      ensures Valid()
      ensures ok <==> ClassificationSucceeds(reply, loads)
      ensures !ok ==> Snapshot() == old(Snapshot())
      ensures ok ==> Snapshot() == Classified(old(Snapshot()), Parsed(reply.value, loads).scores)
    {
      if reply.Raised? {
        return false;
      }
      var parsed := ParseConfidenceJson(reply.value, loads);
      if parsed.JNotObject? {
        return false;
      }
      ApplyScores(parsed.scores);
      ok := true;
    }

    /** The loop of `_llm_intent_classification`: each agent in turn takes its
        score and is selected when that reaches its threshold. */
    method ApplyScores(scores: map<string, real>)
      requires |agents| == 4 && forall i, j :: 0 <= i < j < 4 ==> agents[i] != agents[j]
      modifies agents
      ensures Snapshot() == Classified(old(Snapshot()), scores)
    {
      ghost var before := Snapshot();
      ghost var after := Classified(before, scores);
      var i := 0;
      while i < |agents|
        invariant 0 <= i <= 4
        invariant forall k :: 0 <= k < i ==> agents[k].View() == after[k]
        invariant forall k :: i <= k < 4 ==> agents[k].View() == before[k]
      {
        var a := agents[i];
        a.confidence := ScoreOf(scores, a.name);
        a.selected := a.confidence >= a.threshold;
        i := i + 1;
      }
    }

    /** `calculate_confidence`: the registry list itself, classified or, on failure, stale. */
    method CalculateConfidence(reply: Call<string>, loads: string -> Option<Json>) returns (r: seq<Agent>)
      requires Valid()
      modifies agents
      ensures Valid() && r == agents
      ensures Snapshot() == AfterClassification(old(Snapshot()), reply, loads)
    {
      var ok := LlmIntentClassification(reply, loads);
      r := agents;
    }

    /** `select_agents`: the selected names in registry order, or `["conversation"]`. */
    method SelectAgents(reply: Call<string>, loads: string -> Option<Json>) returns (names: seq<string>)
      requires Valid()
      modifies agents
      ensures Valid()
      ensures Snapshot() == AfterClassification(old(Snapshot()), reply, loads)
      ensures names == Selection(Snapshot())
    {
      var classified := CalculateConfidence(reply, loads);
      names := WithFallback(SelectedNames(ViewsOf(classified)));
    }

    /**
     * `detailed_routing`: one entry per registry agent from a first
     * classification, and `selected_agents` from a second one.
     */
    method DetailedRouting(question: string, firstReply: Call<string>, secondReply: Call<string>,
                           loads: string -> Option<Json>) returns (info: RoutingInfo)
      requires Valid()
      modifies agents
      ensures Valid()
      ensures info.question == question
      ensures IsRegistry(info.agents) && Consistent(info.agents)
      ensures info.agents == AfterClassification(old(Snapshot()), firstReply, loads)
      ensures Snapshot() == AfterClassification(info.agents, secondReply, loads)
      ensures info.selectedAgents == Selection(Snapshot())
      ensures firstReply == secondReply ==> info.selectedAgents == Selection(info.agents)
    {
      var classified := CalculateConfidence(firstReply, loads);
      var entries := ViewsOf(classified);
      var selected := SelectAgents(secondReply, loads);
      info := RoutingInfo(question, entries, selected);
      ClassificationIdempotent(old(Snapshot()), firstReply, loads);
    }
  }

  // ---------------------------------------------------------------- properties

  lemma NamesDistinct()
    ensures forall i, j :: 0 <= i < j < 4 ==> RegistryNames[i] != RegistryNames[j]
  {
  }

  /** The map built over the registry names is the tier-3 map, with its keys and scores. */
  lemma FallbackMapIs(raw: string, names: seq<string>, scores: map<string, real>)
    requires names == RegistryNames && scores == ScoresUpTo(Scanner(raw), names, 4)
    ensures forall n :: n in scores ==> n in RegistryNames
    ensures forall k :: 0 <= k < 4 ==> RegistryNames[k] in scores && scores[RegistryNames[k]] == FallbackScore(raw, RegistryNames[k])
    ensures scores == FallbackMap(raw)
  {
    FallbackMapKeys(raw);
  }

  /** A valid router's agents carry the registry names, in order. */
  lemma RegistryNamesOf(r: FinancialMultiAgentRouter)
    requires r.Valid()
    ensures Names(r.Snapshot()) == RegistryNames
  {
  }

  /** Classification rewrites every confidence from the scores alone, so doing it twice with the same reply changes nothing more. */
  lemma ClassificationIdempotent(views: seq<AgentView>, reply: Call<string>, loads: string -> Option<Json>)
    ensures AfterClassification(AfterClassification(views, reply, loads), reply, loads) == AfterClassification(views, reply, loads)
  {
  }

  /** The registry's names and thresholds, and consistency, survive every classification outcome. */
  lemma ClassificationKeepsRegistry(views: seq<AgentView>, reply: Call<string>, loads: string -> Option<Json>)
    requires IsRegistry(views) && Consistent(views)
    ensures IsRegistry(AfterClassification(views, reply, loads)) && Consistent(AfterClassification(views, reply, loads))
  {
  }

  /** The names of the views, in order. */
  function Names(views: seq<AgentView>): (r: seq<string>)
    ensures |r| == |views| && forall k :: 0 <= k < |views| ==> r[k] == views[k].name
  {
    seq(|views|, k requires 0 <= k < |views| => views[k].name)
  }

  /** The selected names keep the order of the list they come from. */
  lemma {:induction false} SelectedNamesInOrder(views: seq<AgentView>)
    ensures IsSubsequence(SelectedNames(views), Names(views))
    decreases |views|
  {
    if |views| > 0 {
      SelectedNamesInOrder(views[1..]);
      var rest := SelectedNames(views[1..]);
      assert Names(views)[1..] == Names(views[1..]);
      if views[0].selected {
        assert SelectedNames(views) == [views[0].name] + rest;
        assert ([views[0].name] + rest)[1..] == rest;
      }
    }
  }

  /** With no agent selected the comprehension is empty. */
  lemma {:induction false} NoneSelectedNoNames(views: seq<AgentView>)
    requires forall k :: 0 <= k < |views| ==> !views[k].selected
    ensures SelectedNames(views) == []
    decreases |views|
  {
    if |views| > 0 {
      assert forall k :: 0 <= k < |views| - 1 ==> views[1..][k] == views[k + 1];
      NoneSelectedNoNames(views[1..]);
    }
  }

  /** The selection is never empty. */
  lemma SelectionNonEmpty(views: seq<AgentView>)
    ensures |Selection(views)| >= 1
  {
    SelectionFallback(views);
  }

  /** `select_agents` never returns an empty list: with no agent selected it
      returns exactly `["conversation"]`, and otherwise the selected names. */
  lemma SelectionFallback(views: seq<AgentView>)
    ensures |Selection(views)| >= 1
    ensures (forall k :: 0 <= k < |views| ==> !views[k].selected) ==> Selection(views) == ["conversation"]
    ensures (exists k :: 0 <= k < |views| && views[k].selected) ==> Selection(views) == SelectedNames(views)
  {
    var names := SelectedNames(views);
    if forall k :: 0 <= k < |views| ==> !views[k].selected {
      NoneSelectedNoNames(views);
    } else {
      var k :| 0 <= k < |views| && views[k].selected;
      assert views[k].name in names;
    }
  }

  /** On the registry, the selection lists registry names in registry order. */
  lemma SelectionInRegistryOrder(views: seq<AgentView>)
    requires IsRegistry(views)
    ensures IsSubsequence(SelectedNames(views), RegistryNames)
    ensures forall n :: n in Selection(views) ==> n in RegistryNames
  {
    SelectedNamesInOrder(views);
    assert Names(views) == RegistryNames;
    SubsequenceElements(SelectedNames(views), RegistryNames);
  }
}
