/**
 * Python dictionaries with string keys, as the modelled code uses them:
 * insertion-ordered association lists, `d[k] = v`, `d.get(k, default)`,
 * `dict(zip(keys, values))`, and `json.dumps(d, ensure_ascii=False)` for a
 * dictionary of strings.
 */
module PyDict {
  import opened Wrappers
  import opened Sequences
  import Strings

  /** Entries in insertion order; a well-formed dictionary has each key once. */
  type Dict<V> = seq<(string, V)>

  function Keys<V>(d: Dict<V>): (ks: seq<string>)
    ensures |ks| == |d| && forall i :: 0 <= i < |d| ==> ks[i] == d[i].0
  {
    seq(|d|, i requires 0 <= i < |d| => d[i].0)
  }

  predicate WellFormed<V>(d: Dict<V>) {
    NoDuplicates(Keys(d))
  }

  /** `d[k]` when `k in d`, else None. */
  function Get<V>(d: Dict<V>, k: string): (r: Option<V>)
    ensures r.None? <==> k !in Keys(d)
    decreases |d|
  {
    if |d| == 0 then None
    else if d[0].0 == k then Some(d[0].1)
    else Get(d[1..], k)
  }

  /** `d.get(k, default)`. */
  function GetOr<V>(d: Dict<V>, k: string, default: V): V {
    Get(d, k).GetOr(default)
  }

  /** `d[k] = v`: an existing key keeps its place and takes the new value; a new key goes last. */
  function Put<V>(d: Dict<V>, k: string, v: V): (r: Dict<V>)
    ensures Keys(r) == if k in Keys(d) then Keys(d) else Keys(d) + [k]
    decreases |d|
  {
    if |d| == 0 then [(k, v)]
    else if d[0].0 == k then [(k, v)] + d[1..]
    else [d[0]] + Put(d[1..], k, v)
  }

  /** After `d[k] = v`, `k` maps to `v` and every other key is as before. */
  lemma {:induction false} PutGet<V>(d: Dict<V>, k: string, v: V, j: string)
    ensures Get(Put(d, k, v), j) == if j == k then Some(v) else Get(d, j)
    decreases |d|
  {
    if |d| > 0 && d[0].0 != k {
      PutGet(d[1..], k, v, j);
    }
  }

  lemma PutWellFormed<V>(d: Dict<V>, k: string, v: V)
    requires WellFormed(d)
    ensures WellFormed(Put(d, k, v))
  {
  }

  /** `dict(zip(keys, values))` for lists of the same length: later pairs overwrite earlier ones. */
  function FromPairs<V>(ks: seq<string>, vs: seq<V>): Dict<V>
    requires |ks| == |vs|
    decreases |ks|
  {
    if |ks| == 0 then []
    else Put(FromPairs(ks[..|ks| - 1], vs[..|vs| - 1]), ks[|ks| - 1], vs[|vs| - 1])
  }

  function Min(a: nat, b: nat): nat {
    if a <= b then a else b
  }

  /** `dict(zip(keys, values))`: `zip` stops at the shorter list. */
  function Zip<V>(ks: seq<string>, vs: seq<V>): Dict<V> {
    var n := Min(|ks|, |vs|);
    FromPairs(ks[..n], vs[..n])
  }

  /** The keys of `dict(zip(ks, vs))` are the distinct keys in first-occurrence order. */
  lemma {:induction false} FromPairsKeys<V>(ks: seq<string>, vs: seq<V>)
    requires |ks| == |vs|
    ensures Keys(FromPairs(ks, vs)) == Dedup(ks)
    decreases |ks|
  {
    if |ks| > 0 {
      FromPairsKeys(ks[..|ks| - 1], vs[..|vs| - 1]);
    }
  }

  /** With distinct keys, each key maps to the value at the same position. */
  lemma {:induction false} FromPairsGet<V>(ks: seq<string>, vs: seq<V>, i: nat)
    requires |ks| == |vs| && NoDuplicates(ks) && i < |ks|
    ensures Get(FromPairs(ks, vs), ks[i]) == Some(vs[i])
    decreases |ks|
  {
    var n := |ks| - 1;
    var p := FromPairs(ks[..n], vs[..n]);
    PutGet(p, ks[n], vs[n], ks[i]);
    if i < n {
      assert ks[..n][i] == ks[i] && vs[..n][i] == vs[i];
      FromPairsGet(ks[..n], vs[..n], i);
    }
  }

  /** A row zipped with its columns: keys are the distinct columns (up to the
      shorter length) in order, and with distinct columns each column maps to
      the value at its position. */
  lemma ZipProperties<V>(ks: seq<string>, vs: seq<V>)
    ensures Keys(Zip(ks, vs)) == Dedup(ks[..Min(|ks|, |vs|)])
    ensures NoDuplicates(ks) ==>
      forall i :: 0 <= i < |ks| && i < |vs| ==> Get(Zip(ks, vs), ks[i]) == Some(vs[i])
  {
    var n := Min(|ks|, |vs|);
    FromPairsKeys(ks[..n], vs[..n]);
    if NoDuplicates(ks) {
      forall i | 0 <= i < |ks| && i < |vs| ensures Get(Zip(ks, vs), ks[i]) == Some(vs[i]) {
        assert ks[..n][i] == ks[i] && vs[..n][i] == vs[i];
        FromPairsGet(ks[..n], vs[..n], i);
      }
    }
  }

  // ---------------------------------------------------------------- json.dumps

  function HexDigit(d: nat): char
    requires d < 16
  {
    "0123456789abcdef"[d]
  }

  /** The escape `json.dumps(..., ensure_ascii=False)` writes for one character. */
  function EscapeChar(c: char): string {
    if c == '"' then "\\\""
    else if c == '\\' then "\\\\"
    else if c == '\n' then "\\n"
    else if c == '\r' then "\\r"
    else if c == '\t' then "\\t"
    else if c == '\U{8}' then "\\b"
    else if c == '\U{c}' then "\\f"
    else if c < ' ' then "\\u00" + [HexDigit(c as int / 16), HexDigit(c as int % 16)]
    else [c]
  }

  function Escape(s: string): (r: string)
    ensures |r| >= |s|
    decreases |s|
  {
    if |s| == 0 then "" else EscapeChar(s[0]) + Escape(s[1..])
  }

  function Quote(s: string): string {
    "\"" + Escape(s) + "\""
  }

  function Entries(d: Dict<string>): string
    decreases |d|
  {
    if |d| == 0 then ""
    else Quote(d[0].0) + ": " + Quote(d[0].1) + (if |d| == 1 then "" else ", " + Entries(d[1..]))
  }

  /** `json.dumps(d, ensure_ascii=False)` for a dictionary of strings, entries in insertion order. */
  function Dumps(d: Dict<string>): (r: string)
    ensures |r| >= 2 && r[0] == '{' && r[|r| - 1] == '}'
  {
    "{" + Entries(d) + "}"
  }

  /** The entries written one by one: `"key": "value"` in quoted, escaped form. */
  function EntryTexts(d: Dict<string>): (r: seq<string>)
    ensures |r| == |d|
  {
    seq(|d|, i requires 0 <= i < |d| => Quote(d[i].0) + ": " + Quote(d[i].1))
  }

  /** The object text lists every entry of the dictionary, in insertion order,
      separated by `", "`. */
  lemma {:induction false} EntriesJoin(d: Dict<string>)
    ensures Entries(d) == Strings.Join(", ", EntryTexts(d))
    decreases |d|
  {
    if |d| > 1 {
      EntriesJoin(d[1..]);
      assert EntryTexts(d)[1..] == EntryTexts(d[1..]);
    }
  }

  /** Text without quotes, backslashes or control characters is written as it is. */
  lemma {:induction false} EscapePlain(s: string)
    requires forall i :: 0 <= i < |s| ==> s[i] != '"' && s[i] != '\\' && s[i] >= ' '
    ensures Escape(s) == s
    decreases |s|
  {
    if |s| > 0 {
      EscapePlain(s[1..]);
    }
  }

  // ---------------------------------------------------------------- json.loads of a string

  function HexValue(c: char): Option<nat> {
    if '0' <= c <= '9' then Some(c as int - '0' as int)
    else if 'a' <= c <= 'f' then Some(c as int - 'a' as int + 10)
    else if 'A' <= c <= 'F' then Some(c as int - 'A' as int + 10)
    else None
  }

  /** The code point of four hexadecimal digits, if they are such digits. */
  function HexQuad(h: string): Option<nat>
    requires |h| == 4
  {
    var a, b, c, e := HexValue(h[0]), HexValue(h[1]), HexValue(h[2]), HexValue(h[3]);
    if a.Some? && b.Some? && c.Some? && e.Some? then Some(((a.value * 16 + b.value) * 16 + c.value) * 16 + e.value)
    else None
  }

  /** The character a one-letter JSON escape stands for. */
  function SimpleEscape(e: char): Option<char> {
    if e == '"' then Some('"')
    else if e == '\\' then Some('\\')
    else if e == '/' then Some('/')
    else if e == 'n' then Some('\n')
    else if e == 'r' then Some('\r')
    else if e == 't' then Some('\t')
    else if e == 'b' then Some('\U{8}')
    else if e == 'f' then Some('\U{c}')
    else None
  }

  function Prepend(c: char, rest: Option<string>): Option<string> {
    if rest.Some? then Some([c] + rest.value) else None
  }

  /** The text between the quotes of a JSON string literal, decoded as strict `json.loads`
      decodes it: None for an unescaped quote, a raw control character, or a malformed
      escape. Escapes of surrogate code points are not decoded. */
  function Unescape(s: string): Option<string>
    decreases |s|
  {
    if |s| == 0 then Some("")
    else if s[0] == '"' || s[0] < ' ' then None
    else if s[0] != '\\' then Prepend(s[0], Unescape(s[1..]))
    else if |s| < 2 then None
    else if s[1] == 'u' then
      if |s| < 6 then None
      else
        var v := HexQuad(s[2..6]);
        if v.Some? && v.value < 0xD800 then Prepend(v.value as char, Unescape(s[6..])) else None
    else
      var c := SimpleEscape(s[1]);
      if c.Some? then Prepend(c.value, Unescape(s[2..])) else None
  }

  lemma HexDigitValue(d: nat)
    requires d < 16
    ensures HexValue(HexDigit(d)) == Some(d)
  {
  }

  /** Decoding undoes the escape of one character, whatever follows it. */
  lemma UnescapeChar(c: char, rest: string)
    ensures Unescape(EscapeChar(c) + rest) == Prepend(c, Unescape(rest))
  {
    var t := EscapeChar(c) + rest;
    if c < ' ' && c != '\n' && c != '\r' && c != '\t' && c != '\U{8}' && c != '\U{c}' {
      var hi, lo := c as int / 16, c as int % 16;
      HexDigitValue(hi);
      HexDigitValue(lo);
      assert t[2..6] == ['0', '0', HexDigit(hi), HexDigit(lo)];
      assert t[6..] == rest;
      assert HexQuad(t[2..6]) == Some(c as int);
    } else if c == '"' || c == '\\' || c == '\n' || c == '\r' || c == '\t' || c == '\U{8}' || c == '\U{c}' {
      assert t[2..] == rest;
    } else {
      assert t[1..] == rest;
    }
  }

  /** `json.loads` reads back what `json.dumps` wrote: the escaped text of any string
      decodes to that string. */
  lemma {:induction false} UnescapeEscape(s: string)
    ensures Unescape(Escape(s)) == Some(s)
    decreases |s|
  {
    if |s| > 0 {
      UnescapeEscape(s[1..]);
      UnescapeChar(s[0], Escape(s[1..]));
      assert [s[0]] + s[1..] == s;
    }
  }
}
