/**
 * The string operations of Python and JavaScript that the modelled code uses,
 * written out on `seq<char>`: substring search, replace, strip/trim, split,
 * join, case mapping (ASCII letters only) and integer rendering.
 */
module Strings {

  predicate StartsWith(s: string, prefix: string) {
    |prefix| <= |s| && s[..|prefix|] == prefix
  }

  predicate EndsWith(s: string, suffix: string) {
    |suffix| <= |s| && s[|s| - |suffix|..] == suffix
  }

  /** Python's `pat in s`, JavaScript's `s.includes(pat)`. */
  predicate Contains(s: string, pat: string)
    decreases |s|
  {
    StartsWith(s, pat) || (|s| > 0 && Contains(s[1..], pat))
  }

  /** A pattern with a character that `s` lacks does not occur in `s`. */
  lemma NotContainsByChar(s: string, pat: string, k: nat)
    requires k < |pat| && forall i :: 0 <= i < |s| ==> s[i] != pat[k]
    ensures !Contains(s, pat)
  {
    ContainsIff(s, pat);
  }

  /** `pat` occurs at position `i` of `s`. */
  predicate OccursAt(s: string, pat: string, i: int) {
    0 <= i && i + |pat| <= |s| && s[i..i + |pat|] == pat
  }

  lemma {:induction false} ContainsIff(s: string, pat: string)
    ensures Contains(s, pat) <==> exists i :: OccursAt(s, pat, i)
    decreases |s|
  {
    if StartsWith(s, pat) {
      assert OccursAt(s, pat, 0);
    } else if |s| == 0 {
    } else {
      forall i | OccursAt(s[1..], pat, i) ensures OccursAt(s, pat, i + 1) {
        assert s[1..][i..i + |pat|] == s[i + 1..i + 1 + |pat|];
      }
      forall i | OccursAt(s, pat, i) && i > 0 ensures OccursAt(s[1..], pat, i - 1) {
        forall k | 0 <= k < |pat| ensures s[1..][i - 1..i - 1 + |pat|][k] == pat[k] {
          assert s[i..i + |pat|][k] == pat[k];
        }
      }
      ContainsIff(s[1..], pat);
    }
  }

  /** An occurrence inside a slice is an occurrence in the whole string. */
  lemma ContainsSlice(s: string, lo: int, hi: int, pat: string)
    requires 0 <= lo <= hi <= |s|
    ensures Contains(s[lo..hi], pat) ==> Contains(s, pat)
  {
    if Contains(s[lo..hi], pat) {
      ContainsIff(s[lo..hi], pat);
      var i :| OccursAt(s[lo..hi], pat, i);
      forall k | 0 <= k < |pat| ensures s[lo + i..lo + i + |pat|][k] == pat[k] {
        assert s[lo..hi][i..i + |pat|][k] == pat[k];
      }
      assert OccursAt(s, pat, lo + i);
      ContainsIff(s, pat);
    }
  }

  /** Python's `s.replace(pat, rep)`: every non-overlapping occurrence, scanning left to right. */
  function ReplaceAll(s: string, pat: string, rep: string): string
    requires |pat| > 0
    decreases |s|
  {
    if |s| == 0 then ""
    else if StartsWith(s, pat) then rep + ReplaceAll(s[|pat|..], pat, rep)
    else [s[0]] + ReplaceAll(s[1..], pat, rep)
  }

  /** JavaScript's `s.replace(pat, rep)` with a string pattern: the first occurrence only. */
  function ReplaceFirst(s: string, pat: string, rep: string): (r: string)
    requires |pat| > 0
    decreases |s|
  {
    if |s| == 0 then ""
    else if StartsWith(s, pat) then rep + s[|pat|..]
    else [s[0]] + ReplaceFirst(s[1..], pat, rep)
  }

  /** An occurrence past the first position is an occurrence in the tail. */
  lemma OccursInTail(s: string, pat: string)
    requires |s| > 0
    ensures forall j :: 1 <= j ==> (OccursAt(s, pat, j) <==> OccursAt(s[1..], pat, j - 1))
  {
    forall j | 1 <= j ensures OccursAt(s, pat, j) <==> OccursAt(s[1..], pat, j - 1) {
      if j + |pat| <= |s| {
        var a, b := s[j..j + |pat|], s[1..][j - 1..j - 1 + |pat|];
        assert |a| == |b| && forall k :: 0 <= k < |a| ==> a[k] == s[j + k] == b[k];
        assert a == b;
      }
    }
  }

  /** The position of the leftmost occurrence. */
  function FirstOccurrence(s: string, pat: string): (i: nat)
    requires Contains(s, pat)
    ensures OccursAt(s, pat, i)
    ensures forall j :: 0 <= j < i ==> !OccursAt(s, pat, j)
    decreases |s|
  {
    if StartsWith(s, pat) then
      assert OccursAt(s, pat, 0);
      0
    else
      OccursInTail(s, pat);
      1 + FirstOccurrence(s[1..], pat)
  }

  /** With an occurrence present, exactly the leftmost one is replaced. */
  lemma {:induction false} ReplaceFirstOccurrence(s: string, pat: string, rep: string)
    requires |pat| > 0 && Contains(s, pat)
    ensures var i := FirstOccurrence(s, pat);
      ReplaceFirst(s, pat, rep) == s[..i] + rep + s[i + |pat|..]
    decreases |s|
  {
    if StartsWith(s, pat) {
      assert s[..0] == "";
    } else {
      var t := s[1..];
      var i := FirstOccurrence(t, pat);
      assert FirstOccurrence(s, pat) == 1 + i;
      assert ReplaceFirst(s, pat, rep) == [s[0]] + ReplaceFirst(t, pat, rep);
      ReplaceFirstOccurrence(t, pat, rep);
      assert [s[0]] + t[..i] == s[..i + 1];
      assert t[i + |pat|..] == s[i + 1 + |pat|..];
      assert [s[0]] + (t[..i] + rep + t[i + |pat|..]) == ([s[0]] + t[..i]) + rep + t[i + |pat|..];
    }
  }

  lemma {:induction false} ReplaceFirstAbsent(s: string, pat: string, rep: string)
    requires |pat| > 0
    ensures !Contains(s, pat) ==> ReplaceFirst(s, pat, rep) == s
    decreases |s|
  {
    if |s| > 0 && !StartsWith(s, pat) {
      ReplaceFirstAbsent(s[1..], pat, rep);
    }
  }

  /** Replacing every occurrence with nothing leaves no occurrence, and the
      result is never longer than the input. */
  lemma {:induction false} ReplaceAllShrinks(s: string, pat: string)
    requires |pat| > 0
    ensures |ReplaceAll(s, pat, "")| <= |s|
    decreases |s|
  {
    if |s| > 0 {
      if StartsWith(s, pat) {
        ReplaceAllShrinks(s[|pat|..], pat);
      } else {
        ReplaceAllShrinks(s[1..], pat);
      }
    }
  }

  /** Number of leading copies of character `c`. */
  function LeadingRun(s: string, c: char): (n: nat)
    ensures n <= |s|
    ensures forall i :: 0 <= i < n ==> s[i] == c
    ensures n < |s| ==> s[n] != c
    decreases |s|
  {
    if |s| > 0 && s[0] == c then 1 + LeadingRun(s[1..], c) else 0
  }

  /** The pattern made of three copies of `c` (a code fence when `c` is a backtick). */
  function Triple(c: char): string {
    [c, c, c]
  }

  lemma {:induction false} StartsWithTripleIff(s: string, c: char)
    ensures StartsWith(s, Triple(c)) <==> LeadingRun(s, c) >= 3
  {
    if LeadingRun(s, c) >= 3 {
      assert s[..3] == Triple(c);
    }
    if StartsWith(s, Triple(c)) {
      assert s[0] == c && s[1] == c && s[2] == c;
      assert LeadingRun(s[1..], c) == 1 + LeadingRun(s[2..], c);
      assert LeadingRun(s[2..], c) == 1 + LeadingRun(s[3..], c);
    }
  }

  lemma LeadingRunSkipTriple(s: string, c: char)
    requires StartsWith(s, Triple(c))
    ensures LeadingRun(s, c) == 3 + LeadingRun(s[3..], c)
  {
    assert s[0] == c && s[1] == c && s[2] == c;
    assert s[1..][1..] == s[2..];
    assert s[2..][1..] == s[3..];
    assert LeadingRun(s[1..], c) == 1 + LeadingRun(s[2..], c);
    assert LeadingRun(s[2..], c) == 1 + LeadingRun(s[3..], c);
  }

  lemma SmallMod(n: nat)
    requires n < 3
    ensures n % 3 == n
  {
  }

  lemma ModThreeStep(n: nat)
    ensures (3 + n) % 3 == n % 3
  {
  }

  /** After removing every `ccc`, the leading run of `c` is the old run modulo 3. */
  lemma {:induction false} RemoveTripleLeadingRun(s: string, c: char)
    ensures LeadingRun(ReplaceAll(s, Triple(c), ""), c) == LeadingRun(s, c) % 3
    decreases |s|
  {
    var t := Triple(c);
    assert |t| == 3;
    if |s| == 0 {
    } else if StartsWith(s, t) {
      var rest := ReplaceAll(s[3..], t, "");
      assert ReplaceAll(s, t, "") == "" + rest;
      assert "" + rest == rest;
      RemoveTripleLeadingRun(s[3..], c);
      LeadingRunSkipTriple(s, c);
      ModThreeStep(LeadingRun(s[3..], c));
    } else {
      StartsWithTripleIff(s, c);
      var rest := ReplaceAll(s[1..], t, "");
      assert ReplaceAll(s, t, "") == [s[0]] + rest;
      assert ([s[0]] + rest)[1..] == rest;
      var k := LeadingRun(s, c);
      assert k < 3;
      SmallMod(k);
      if s[0] == c {
        RemoveTripleLeadingRun(s[1..], c);
        var m := LeadingRun(s[1..], c);
        assert k == 1 + m;
        SmallMod(m);
        assert LeadingRun([s[0]] + rest, c) == 1 + LeadingRun(rest, c);
      } else {
        assert LeadingRun([s[0]] + rest, c) == 0;
      }
    }
  }

  /** Removing every `ccc` (as Python's `replace` does) leaves no `ccc` behind:
      the pieces that survive cannot join into a new one. */
  lemma {:induction false} RemoveTripleLeavesNone(s: string, c: char)
    ensures !Contains(ReplaceAll(s, Triple(c), ""), Triple(c))
    decreases |s|
  {
    var t := Triple(c);
    var r := ReplaceAll(s, t, "");
    if |s| == 0 {
      assert r == "";
    } else if StartsWith(s, t) {
      RemoveTripleLeavesNone(s[3..], c);
      assert r == ReplaceAll(s[3..], t, "");
    } else {
      RemoveTripleLeavesNone(s[1..], c);
      var rest := ReplaceAll(s[1..], t, "");
      assert r == [s[0]] + rest;
      assert r[1..] == rest;
      StartsWithTripleIff(s, c);
      RemoveTripleLeadingRun(s[1..], c);
      StartsWithTripleIff(r, c);
      if s[0] == c {
        assert LeadingRun(s, c) == 1 + LeadingRun(s[1..], c);
        assert LeadingRun(r, c) == 1 + LeadingRun(rest, c);
      } else {
        assert LeadingRun(r, c) == 0;
      }
    }
  }

  /** Removing every occurrence of one character leaves none of it, and adds no
      character that was not there. */
  lemma {:induction false} RemoveCharKeepsOthers(s: string, c: char)
    ensures forall d :: d in ReplaceAll(s, [c], "") ==> d != c && d in s
    decreases |s|
  {
    if |s| > 0 {
      RemoveCharKeepsOthers(s[1..], c);
      assert forall d :: d in s[1..] ==> d in s;
      if !StartsWith(s, [c]) {
        assert s[..1] == [s[0]];
      }
    }
  }

  /** A string with no `pat` keeps having none in each of its slices. */
  lemma NoOccurrenceInSlice(s: string, lo: int, hi: int, pat: string)
    requires 0 <= lo <= hi <= |s|
    requires !Contains(s, pat)
    ensures !Contains(s[lo..hi], pat)
  {
    ContainsSlice(s, lo, hi, pat);
  }

  /** Wherever a pattern occurs, so does each of its prefixes; hence a
      pattern that starts with `inner` cannot occur where `inner` does not. */
  lemma {:induction false} OuterHasInner(s: string, inner: string, outer: string)
    requires StartsWith(outer, inner)
    ensures Contains(s, outer) ==> Contains(s, inner)
    decreases |s|
  {
    if StartsWith(s, outer) {
      assert s[..|inner|] == s[..|outer|][..|inner|];
    } else if |s| > 0 {
      OuterHasInner(s[1..], inner, outer);
    }
  }

  // ---------------------------------------------------------------- whitespace

  /** Python's `str.isspace()` for one character. */
  predicate IsPySpace(c: char) {
    c == ' ' || ('\t' <= c <= '\r') || ('\U{1c}' <= c <= '\U{1f}') || c == '\U{85}' || c == '\U{a0}'
    || c == '\U{1680}' || ('\U{2000}' <= c <= '\U{200a}') || c == '\U{2028}' || c == '\U{2029}'
    || c == '\U{202f}' || c == '\U{205f}' || c == '\U{3000}'
  }

  /** The characters JavaScript's `String.prototype.trim` removes. */
  predicate IsJsSpace(c: char) {
    c == ' ' || ('\t' <= c <= '\r') || c == '\U{a0}' || c == '\U{feff}'
    || c == '\U{1680}' || ('\U{2000}' <= c <= '\U{200a}') || c == '\U{2028}' || c == '\U{2029}'
    || c == '\U{202f}' || c == '\U{205f}' || c == '\U{3000}'
  }

  function TrimStart(s: string, space: char -> bool): (r: string)
    ensures |r| <= |s| && r == s[|s| - |r|..]
    ensures |r| > 0 ==> !space(r[0])
    ensures forall i :: 0 <= i < |s| - |r| ==> space(s[i])
    decreases |s|
  {
    if |s| > 0 && space(s[0]) then
      var r := TrimStart(s[1..], space);
      assert forall i :: 1 <= i < |s| ==> s[1..][i - 1] == s[i];
      r
    else s
  }

  function TrimEnd(s: string, space: char -> bool): (r: string)
    ensures |r| <= |s| && r == s[..|r|]
    ensures |r| > 0 ==> !space(r[|r| - 1])
    ensures forall i :: |r| <= i < |s| ==> space(s[i])
    decreases |s|
  {
    if |s| > 0 && space(s[|s| - 1]) then TrimEnd(s[..|s| - 1], space) else s
  }

  /** Where the trimmed text starts inside the untrimmed one. */
  function TrimOffset(s: string, space: char -> bool): nat {
    |s| - |TrimStart(s, space)|
  }

  /** Removes leading and trailing characters satisfying `space`. */
  function TrimBy(s: string, space: char -> bool): (r: string)
    ensures |r| > 0 ==> !space(r[0]) && !space(r[|r| - 1])
    ensures TrimOffset(s, space) + |r| <= |s|
    ensures r == s[TrimOffset(s, space)..TrimOffset(s, space) + |r|]
  {
    var a := TrimStart(s, space);
    var b := TrimEnd(a, space);
    assert b == s[|s| - |a|..|s| - |a| + |b|];
    b
  }

  /** Python's `s.strip()`. */
  function PyStrip(s: string): string {
    TrimBy(s, IsPySpace)
  }

  /** JavaScript's `s.trim()`. */
  function JsTrim(s: string): string {
    TrimBy(s, IsJsSpace)
  }

  /** A string that neither starts nor ends with a space is its own trim. */
  lemma TrimmedAlready(s: string, space: char -> bool)
    requires |s| > 0 && !space(s[0]) && !space(s[|s| - 1])
    ensures TrimBy(s, space) == s
  {
  }

  /** A trimmed string has no occurrence that the untrimmed one lacked. */
  lemma TrimKeepsAbsence(s: string, space: char -> bool, pat: string)
    requires !Contains(s, pat)
    ensures !Contains(TrimBy(s, space), pat)
  {
    var r := TrimBy(s, space);
    var lo := TrimOffset(s, space);
    NoOccurrenceInSlice(s, lo, lo + |r|, pat);
  }

  // ---------------------------------------------------------------- case mapping

  /** Lower-casing, for the ASCII letters; every other character is left as it is. */
  function LowerChar(c: char): char {
    if 'A' <= c <= 'Z' then (c as int + 32) as char else c
  }

  function UpperChar(c: char): char {
    if 'a' <= c <= 'z' then (c as int - 32) as char else c
  }

  function Lower(s: string): (r: string)
    ensures |r| == |s| && forall i :: 0 <= i < |s| ==> r[i] == LowerChar(s[i])
  {
    seq(|s|, i requires 0 <= i < |s| => LowerChar(s[i]))
  }

  lemma LowerIdempotent(s: string)
    ensures Lower(Lower(s)) == Lower(s)
  {
  }

  /** Lower-casing and trimming a string that has been lower-cased and trimmed
      changes nothing. */
  lemma TrimLowerIdempotent(s: string, space: char -> bool)
    ensures TrimBy(Lower(TrimBy(Lower(s), space)), space) == TrimBy(Lower(s), space)
  {
    TrimmedLowered(s, space);
    TrimTwice(Lower(s), space);
  }

  /** Trimming twice is trimming once. */
  lemma TrimTwice(s: string, space: char -> bool)
    ensures TrimBy(TrimBy(s, space), space) == TrimBy(s, space)
  {
    var n := TrimBy(s, space);
    if |n| > 0 {
      TrimmedAlready(n, space);
    } else {
      assert TrimStart(n, space) == n;
    }
  }

  /** The trim of a lower-cased string is lower-case. */
  lemma TrimmedLowered(s: string, space: char -> bool)
    ensures Lower(TrimBy(Lower(s), space)) == TrimBy(Lower(s), space)
  {
    var l := Lower(s);
    var n := TrimBy(l, space);
    var o, m := TrimOffset(l, space), |n|;
    assert n == l[o..o + m];
    LoweredSlice(s, o, m);
    assert Lower(l[o..o + m]) == l[o..o + m];
  }

  /** A slice of a lower-cased string is lower-case already. */
  lemma LoweredSlice(s: string, o: nat, m: nat)
    requires o + m <= |s|
    ensures Lower(Lower(s)[o..o + m]) == Lower(s)[o..o + m]
  {
    var w := Lower(s)[o..o + m];
    forall i | 0 <= i < m
      ensures Lower(w)[i] == w[i]
    {
      assert w[i] == LowerChar(s[o + i]);
    }
  }

  // ---------------------------------------------------------------- split and join

  /** Python's `s.split(sep)` and JavaScript's `s.split(sep)` for a one-character separator. */
  function Split(s: string, sep: char): (r: seq<string>)
    ensures |r| >= 1
    ensures forall k :: 0 <= k < |r| ==> sep !in r[k]
    decreases |s|
  {
    if |s| == 0 then [""]
    else if s[0] == sep then [""] + Split(s[1..], sep)
    else
      var rest := Split(s[1..], sep);
      [[s[0]] + rest[0]] + rest[1..]
  }

  /** The parts written one after another, as adjacent literals are. */
  function Concat(parts: seq<string>): string
    decreases |parts|
  {
    if |parts| == 0 then "" else parts[0] + Concat(parts[1..])
  }

  /** `sep.join(parts)`. */
  function Join(sep: string, parts: seq<string>): string
    decreases |parts|
  {
    if |parts| == 0 then ""
    else if |parts| == 1 then parts[0]
    else parts[0] + sep + Join(sep, parts[1..])
  }

  /** Joining the pieces of a split with the same separator gives the string back. */
  lemma {:induction false} JoinSplit(s: string, sep: char)
    ensures Join([sep], Split(s, sep)) == s
    decreases |s|
  {
    if |s| > 0 {
      JoinSplit(s[1..], sep);
      var rest := Split(s[1..], sep);
      if s[0] != sep {
        var r := Split(s, sep);
        if |rest| == 1 {
          assert r == [[s[0]] + rest[0]];
        } else {
          assert r[1..] == rest[1..];
          assert Join([sep], rest) == rest[0] + [sep] + Join([sep], rest[1..]);
        }
      }
    }
  }

  /** A string without the separator splits into itself. */
  lemma {:induction false} SplitWithoutSeparator(a: string, sep: char)
    requires sep !in a
    ensures Split(a, sep) == [a]
    decreases |a|
  {
    if |a| > 0 {
      SplitWithoutSeparator(a[1..], sep);
      assert [a[0]] + a[1..] == a;
    }
  }

  /** A piece without the separator, then the separator, splits off as the first piece. */
  lemma {:induction false} SplitAfterPiece(a: string, rest: string, sep: char)
    requires sep !in a
    ensures Split(a + [sep] + rest, sep) == [a] + Split(rest, sep)
    decreases |a|
  {
    var s := a + [sep] + rest;
    if |a| == 0 {
      assert s[1..] == rest;
    } else {
      assert s[1..] == a[1..] + [sep] + rest;
      SplitAfterPiece(a[1..], rest, sep);
      assert [a[0]] + a[1..] == a;
    }
  }

  /** Splitting a join of separator-free pieces gives the pieces back. */
  lemma {:induction false} SplitJoin(parts: seq<string>, sep: char)
    requires |parts| >= 1
    requires forall k :: 0 <= k < |parts| ==> sep !in parts[k]
    ensures Split(Join([sep], parts), sep) == parts
    decreases |parts|
  {
    if |parts| == 1 {
      SplitWithoutSeparator(parts[0], sep);
    } else {
      SplitJoin(parts[1..], sep);
      SplitAfterPiece(parts[0], Join([sep], parts[1..]), sep);
      assert [parts[0]] + parts[1..] == parts;
    }
  }

  /** Every character of a piece comes from the split string. */
  lemma {:induction false} SplitChars(s: string, sep: char)
    ensures forall k, c :: 0 <= k < |Split(s, sep)| && c in Split(s, sep)[k] ==> c in s
    decreases |s|
  {
    if |s| > 0 {
      SplitChars(s[1..], sep);
      assert forall c :: c in s[1..] ==> c in s;
    }
  }

  /** A character in neither the separator nor any piece is not in the join. */
  lemma {:induction false} JoinAvoids(sep: string, parts: seq<string>, c: char)
    requires c !in sep && forall k :: 0 <= k < |parts| ==> c !in parts[k]
    ensures c !in Join(sep, parts)
    decreases |parts|
  {
    if |parts| > 1 {
      JoinAvoids(sep, parts[1..], c);
    }
  }

  /** Number of occurrences of character `c`. */
  function CountChar(s: string, c: char): nat
    decreases |s|
  {
    if |s| == 0 then 0 else (if s[0] == c then 1 else 0) + CountChar(s[1..], c)
  }

  lemma {:induction false} SplitCount(s: string, sep: char)
    ensures |Split(s, sep)| == CountChar(s, sep) + 1
    decreases |s|
  {
    if |s| > 0 {
      SplitCount(s[1..], sep);
    }
  }

  // ---------------------------------------------------------------- numbers

  function DigitChar(d: nat): char
    requires d < 10
  {
    "0123456789"[d]
  }

  /** Python's `str(n)` for a natural number. */
  function NatToString(n: nat): (r: string)
    ensures |r| >= 1
    decreases n
  {
    if n < 10 then [DigitChar(n)] else NatToString(n / 10) + [DigitChar(n % 10)]
  }

  /** Python's `str(n)` for an integer. */
  function IntToString(n: int): string {
    if n < 0 then "-" + NatToString(-n) else NatToString(n)
  }
}
