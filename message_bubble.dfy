/**
 * The message bubble: how a reference URL is shown as a readable title, and
 * which references are listed at all.
 */
module MessageBubble {
  import opened Wrappers
  import opened Strings

  const HospitalPrefix := "https://tamanhhospital.vn/"

  /** `if (s.endsWith('/')) s = s.slice(0, -1)`: at most one trailing slash goes. */
  function DropTrailingSlash(s: string): (r: string)
    ensures r == s || s == r + "/"
    ensures |s| > 0 && s[|s| - 1] == '/' ==> s == r + "/"
  {
    if |s| > 0 && s[|s| - 1] == '/' then s[..|s| - 1] else s
  }

  /** The trimmed URL with the first occurrence of the hospital address removed and
      then one trailing slash. */
  function PathText(url: string): string {
    DropTrailingSlash(ReplaceFirst(JsTrim(url), HospitalPrefix, ""))
  }

  /** `.replace(/-/g, ' ')`. */
  function DashesToSpaces(s: string): (r: string)
    ensures |r| == |s| && forall i :: 0 <= i < |s| ==> r[i] == if s[i] == '-' then ' ' else s[i]
  {
    seq(|s|, i requires 0 <= i < |s| => if s[i] == '-' then ' ' else s[i])
  }

  /** `word.charAt(0).toUpperCase() + word.slice(1)`. */
  function Capitalize(w: string): (r: string)
    ensures |r| == |w|
    ensures |w| > 0 ==> r[0] == UpperChar(w[0]) && r[1..] == w[1..]
  {
    if |w| == 0 then "" else [UpperChar(w[0])] + w[1..]
  }

  function CapitalizeAll(ws: seq<string>): (r: seq<string>)
    ensures |r| == |ws| && forall k :: 0 <= k < |ws| ==> r[k] == Capitalize(ws[k])
  {
    seq(|ws|, k requires 0 <= k < |ws| => Capitalize(ws[k]))
  }

  /** The words of the title, before capitalisation. */
  function Words(url: string): seq<string> {
    Split(DashesToSpaces(PathText(url)), ' ')
  }

  /** `formatDisplayUrl` for a string (or missing) URL. */
  function FormatDisplayUrl(url: Option<string>): string {
    if url.None? || url.value == "" then ""
    else if !StartsWith(url.value, "http") then url.value
    else Join(" ", CapitalizeAll(Words(url.value)))
  }

  /** A missing or empty URL shows as nothing; one not starting with "http" (before
      trimming) shows unchanged; otherwise the title has no dash, and its words are
      exactly the words of the path text, in order, each with its first character
      upper-cased, so the word count is kept. */
  lemma FormatDisplayUrlProperties(url: Option<string>)
    ensures url.None? || url == Some("") ==> FormatDisplayUrl(url) == ""
    ensures url.Some? && url.value != "" && !StartsWith(url.value, "http") ==> FormatDisplayUrl(url) == url.value
    ensures url.Some? && StartsWith(url.value, "http") ==>
      var r := FormatDisplayUrl(url);
      '-' !in r && Split(r, ' ') == CapitalizeAll(Words(url.value))
      && |Split(r, ' ')| == |Words(url.value)|
  {
    if url.Some? && StartsWith(url.value, "http") {
      var p := DashesToSpaces(PathText(url.value));
      var ws := Words(url.value);
      var cs := CapitalizeAll(ws);
      SplitChars(p, ' ');
      forall k | 0 <= k < |cs| ensures ' ' !in cs[k] && '-' !in cs[k] {
        assert ' ' !in ws[k];
        assert forall c :: c in ws[k] ==> c in p;
        assert '-' !in p;
        if |ws[k]| > 0 {
          assert cs[k] == [UpperChar(ws[k][0])] + ws[k][1..];
          assert forall c :: c in ws[k][1..] ==> c in ws[k];
        }
      }
      SplitJoin(cs, ' ');
      JoinAvoids(" ", cs, '-');
    }
  }

  /** When the trimmed URL begins with the hospital address, that address is all that
      is cut from the front; any later occurrence stays. */
  lemma PathTextAfterPrefix(url: string)
    requires StartsWith(JsTrim(url), HospitalPrefix)
    ensures PathText(url) == DropTrailingSlash(JsTrim(url)[|HospitalPrefix|..])
  {
  }

  /** In general only the leftmost occurrence of the address is cut. */
  lemma PathTextCutsFirstOccurrence(url: string)
    requires Contains(JsTrim(url), HospitalPrefix)
    ensures var t := JsTrim(url);
      var i := FirstOccurrence(t, HospitalPrefix);
      PathText(url) == DropTrailingSlash(t[..i] + t[i + |HospitalPrefix|..])
  {
    CutFirst(JsTrim(url), HospitalPrefix);
  }

  /** Replacing the leftmost occurrence with nothing cuts it out. */
  lemma CutFirst(t: string, pat: string)
    requires |pat| > 0 && Contains(t, pat)
    ensures var i := FirstOccurrence(t, pat);
      ReplaceFirst(t, pat, "") == t[..i] + t[i + |pat|..]
  {
    ReplaceFirstOccurrence(t, pat, "");
    var i := FirstOccurrence(t, pat);
    assert t[..i] + "" == t[..i];
  }

  // ---------------------------------------------------------------- references

  /** One entry of the `references` prop: a string, or anything else (null, a number, an object). */
  datatype JsValue = JsStr(s: string) | JsOther

  /** `ref && typeof ref === 'string' && ref.trim().startsWith('http')`. */
  predicate IsValidReference(v: JsValue) {
    v.JsStr? && v.s != "" && StartsWith(JsTrim(v.s), "http")
  }

  /** The filter, element by element, keeping the strings. */
  function ValidList(refs: seq<JsValue>): (r: seq<string>)
    ensures |r| <= |refs|
    decreases |refs|
  {
    if |refs| == 0 then []
    else
      var rest := ValidList(refs[..|refs| - 1]);
      if IsValidReference(refs[|refs| - 1]) then rest + [refs[|refs| - 1].s] else rest
  }

  /** `references?.filter(...)`: no list gives no list. */
  function ValidReferences(refs: Option<seq<JsValue>>): (r: Option<seq<string>>)
    ensures r.None? <==> refs.None?
  {
    match refs
    case None => None
    case Some(l) => Some(ValidList(l))
  }

  /** The filter keeps the order: it splits over concatenation. */
  lemma {:induction false} ValidListAppend(a: seq<JsValue>, b: seq<JsValue>)
    ensures ValidList(a + b) == ValidList(a) + ValidList(b)
    decreases |b|
  {
    if |b| == 0 {
      assert a + b == a;
    } else {
      assert (a + b)[..|a + b| - 1] == a + b[..|b| - 1];
      ValidListAppend(a, b[..|b| - 1]);
    }
  }

  /** A string is listed exactly when some entry is that string and passes the test. */
  lemma {:induction false} ValidListMembers(refs: seq<JsValue>, s: string)
    ensures s in ValidList(refs) <==> JsStr(s) in refs && IsValidReference(JsStr(s))
    decreases |refs|
  {
    if |refs| > 0 {
      var init := refs[..|refs| - 1];
      ValidListMembers(init, s);
      assert refs == init + [refs[|refs| - 1]];
    }
  }
}
