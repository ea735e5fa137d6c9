/**
 * The "agent is thinking" indicator: which of four agent cards to show for
 * the agent type it is given.
 */
module AgentThinking {
  import opened Wrappers
  import opened Strings

  datatype Icon = ChartBar | DatabaseIcon | SearchIcon | ChartLine

  datatype AgentInfo = AgentInfo(icon: Icon, name: string, description: string)

  const VisualizationInfo := AgentInfo(ChartBar, "Visualization Agent", "Agent đang tạo biểu đồ trực quan hóa")
  const DatabaseInfo := AgentInfo(DatabaseIcon, "Database Agent", "Agent đang truy vấn cơ sở dữ liệu tài chính")
  const SearchInfo := AgentInfo(SearchIcon, "Search Agent", "Agent đang tìm kiếm thông tin mới nhất")
  const DefaultInfo := AgentInfo(ChartLine, "Financi Agent", "Agent đang xử lý câu hỏi của bạn")

  /** The component's `agentType` prop: a missing or empty one (falsy) becomes "conversation". */
  function AgentType(prop: Option<string>): (t: string)
    ensures prop.None? || prop.value == "" ==> t == "conversation"
    ensures prop.Some? && prop.value != "" ==> t == prop.value
  {
    if prop.Some? && prop.value != "" then prop.value else "conversation"
  }

  /** `type.toString().toLowerCase().trim()` for a non-empty type, "" otherwise. */
  function Normalize(t: string): string {
    if t == "" then "" else JsTrim(Lower(t))
  }

  /** `getAgentInfo`: the if/else chain over the normalised type, with its exact
      comparisons kept as written. */
  function GetAgentInfo(t: string): AgentInfo {
    CardFor(Normalize(t))
  }

  /** The chain itself, on an already normalised type. */
  function CardFor(n: string): AgentInfo {
    if n == "visualize" || n == "visualization" || Contains(n, "visual") then VisualizationInfo
    else if n == "database_query" || Contains(n, "database") || n == "db" then DatabaseInfo
    else if n == "google_search" || Contains(n, "search") || Contains(n, "google") then SearchInfo
    else DefaultInfo
  }

  /** A string contains itself. */
  lemma ContainsOwnPrefix(s: string, pat: string)
    requires StartsWith(s, pat)
    ensures Contains(s, pat)
  {
    ContainsIff(s, pat);
    assert OccursAt(s, pat, 0);
  }

  /** The precedence of the chain: "visual" anywhere wins, then "database" or exactly
      "db", then "search" or "google"; anything else is the default card. The exact
      comparisons add nothing, since each compared name contains its keyword. */
  lemma AgentInfoPrecedence(t: string)
    ensures var n := Normalize(t);
      GetAgentInfo(t) ==
        if Contains(n, "visual") then VisualizationInfo
        else if Contains(n, "database") || n == "db" then DatabaseInfo
        else if Contains(n, "search") || Contains(n, "google") then SearchInfo
        else DefaultInfo
  {
    CardPrecedence(Normalize(t));
  }

  lemma CardPrecedence(n: string)
    ensures CardFor(n) ==
      if Contains(n, "visual") then VisualizationInfo
      else if Contains(n, "database") || n == "db" then DatabaseInfo
      else if Contains(n, "search") || Contains(n, "google") then SearchInfo
      else DefaultInfo
  {
    if n == "visualize" || n == "visualization" {
      assert n[..6] == "visual";
      ContainsOwnPrefix(n, "visual");
    }
    if n == "database_query" {
      assert n[..8] == "database";
      ContainsOwnPrefix(n, "database");
    }
    if n == "google_search" {
      assert n[..6] == "google";
      ContainsOwnPrefix(n, "google");
    }
  }

  /** Every input gives exactly one of the four cards. */
  lemma AgentInfoCases(prop: Option<string>)
    ensures GetAgentInfo(AgentType(prop)) in [VisualizationInfo, DatabaseInfo, SearchInfo, DefaultInfo]
  {
  }

  /** A type with no capital letter and no surrounding space is its own normal form;
      the four backend agent names are such types. */
  lemma NormalizeFixed(t: string)
    requires |t| > 0 && !IsJsSpace(t[0]) && !IsJsSpace(t[|t| - 1])
    requires forall i :: 0 <= i < |t| ==> !('A' <= t[i] <= 'Z')
    ensures Normalize(t) == t
  {
    assert Lower(t) == t;
    TrimmedAlready(t, IsJsSpace);
  }

  /** Normalising twice is normalising once. */
  lemma NormalizeIdempotent(t: string)
    ensures Normalize(Normalize(t)) == Normalize(t)
  {
    TrimLowerIdempotent(t, IsJsSpace);
  }

  /** The card of a normalised type is the card of the type it came from. */
  lemma AgentInfoOfNormalized(t: string)
    ensures GetAgentInfo(Normalize(t)) == GetAgentInfo(t)
  {
    NormalizeIdempotent(t);
  }

  /** "conversation" is already lower-case and trimmed. */
  lemma NormalizeConversation()
    ensures Normalize("conversation") == "conversation"
  {
    var c := "conversation";
    forall i | 0 <= i < |c|
      ensures !('A' <= c[i] <= 'Z')
    {
    }
    NormalizeFixed(c);
  }

  /** "conversation" holds none of the keywords; each lemma names a letter of the
      keyword that "conversation" lacks. */
  lemma NoVisual()
    ensures !Contains("conversation", "visual")
  {
    NotContainsByChar("conversation", "visual", 3);
  }

  lemma NoDatabase()
    ensures !Contains("conversation", "database")
  {
    NotContainsByChar("conversation", "database", 0);
  }

  lemma NoSearch()
    ensures !Contains("conversation", "search")
  {
    NotContainsByChar("conversation", "search", 5);
  }

  lemma NoGoogle()
    ensures !Contains("conversation", "google")
  {
    NotContainsByChar("conversation", "google", 0);
  }

  /** A missing or empty type, which stands for "conversation", shows the default card. */
  lemma MissingTypeIsDefault(prop: Option<string>)
    requires prop.None? || prop == Some("")
    ensures GetAgentInfo(AgentType(prop)) == DefaultInfo
  {
    NormalizeConversation();
    NoVisual();
    NoDatabase();
    NoSearch();
    NoGoogle();
    CardPrecedence("conversation");
  }
}
