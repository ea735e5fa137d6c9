/** Facts about lists of names shared by the routing and the orchestration:
    order-preserving selection and first-occurrence de-duplication. */
module Sequences {

  /** `a` is obtained from `b` by deleting elements, keeping the order of the others. */
  predicate IsSubsequence(a: seq<string>, b: seq<string>)
    decreases |b|
  {
    if |a| == 0 then true
    else if |b| == 0 then false
    else (a[0] == b[0] && IsSubsequence(a[1..], b[1..])) || IsSubsequence(a, b[1..])
  }

  lemma {:induction false} SubsequenceOfItself(a: seq<string>)
    ensures IsSubsequence(a, a)
    decreases |a|
  {
    if |a| > 0 {
      SubsequenceOfItself(a[1..]);
    }
  }

  /** A subsequence keeps only elements of the original. */
  lemma {:induction false} SubsequenceElements(a: seq<string>, b: seq<string>)
    requires IsSubsequence(a, b)
    ensures forall x :: x in a ==> x in b
    decreases |b|
  {
    if |a| > 0 {
      if a[0] == b[0] && IsSubsequence(a[1..], b[1..]) {
        SubsequenceElements(a[1..], b[1..]);
        assert forall x :: x in a ==> x == a[0] || x in a[1..];
      } else {
        SubsequenceElements(a, b[1..]);
      }
    }
  }

  /** Any list is a subsequence of itself with anything put in front. */
  lemma {:induction false} SubsequenceAfterPrefix(a: seq<string>, b: seq<string>)
    ensures IsSubsequence(a, b + a)
    decreases |b|
  {
    if |b| == 0 {
      assert b + a == a;
      SubsequenceOfItself(a);
    } else if |a| > 0 {
      SubsequenceAfterPrefix(a, b[1..]);
      assert (b + a)[1..] == b[1..] + a;
    }
  }

  /** A subsequence stays one when the same element is appended to both lists. */
  lemma {:induction false} SubsequenceAppend(a: seq<string>, b: seq<string>, x: string)
    requires IsSubsequence(a, b)
    ensures IsSubsequence(a + [x], b + [x])
    decreases |b|
  {
    if |a| == 0 {
      assert a + [x] == [x];
      SubsequenceAfterPrefix([x], b);
    } else {
      assert (a + [x])[0] == a[0] && (a + [x])[1..] == a[1..] + [x];
      assert (b + [x])[0] == b[0] && (b + [x])[1..] == b[1..] + [x];
      if a[0] == b[0] && IsSubsequence(a[1..], b[1..]) {
        SubsequenceAppend(a[1..], b[1..], x);
      } else {
        SubsequenceAppend(a, b[1..], x);
      }
    }
  }

  /** A subsequence stays one when the longer list grows at the end. */
  lemma {:induction false} SubsequenceExtend(a: seq<string>, b: seq<string>, x: string)
    requires IsSubsequence(a, b)
    ensures IsSubsequence(a, b + [x])
    decreases |b|
  {
    if |a| > 0 {
      assert (b + [x])[0] == b[0] && (b + [x])[1..] == b[1..] + [x];
      if a[0] == b[0] && IsSubsequence(a[1..], b[1..]) {
        SubsequenceExtend(a[1..], b[1..], x);
      } else {
        SubsequenceExtend(a, b[1..], x);
      }
    }
  }

  /** Putting nothing, or the same element, in front of both lists keeps a subsequence. */
  lemma SubsequenceConsOptional(o: seq<string>, a: seq<string>, b: seq<string>, x: string)
    requires o == [] || o == [x]
    requires IsSubsequence(a, b)
    ensures IsSubsequence(o + a, [x] + b)
  {
    assert ([x] + b)[1..] == b;
    if o == [] {
      assert o + a == a;
    } else {
      assert (o + a)[0] == x && (o + a)[1..] == a;
    }
  }

  /** Four optional elements, each empty or the element at its place, in order. */
  lemma SubsequenceOfFour(n0: seq<string>, n1: seq<string>, n2: seq<string>, n3: seq<string>,
                          x0: string, x1: string, x2: string, x3: string)
    requires n0 == [] || n0 == [x0]
    requires n1 == [] || n1 == [x1]
    requires n2 == [] || n2 == [x2]
    requires n3 == [] || n3 == [x3]
    ensures IsSubsequence(n0 + (n1 + (n2 + n3)), [x0, x1, x2, x3])
  {
    SubsequenceConsOptional(n3, [], [], x3);
    assert n3 + [] == n3 && [x3] + [] == [x3];
    SubsequenceConsOptional(n2, n3, [x3], x2);
    assert [x2] + [x3] == [x2, x3];
    SubsequenceConsOptional(n1, n2 + n3, [x2, x3], x1);
    assert [x1] + [x2, x3] == [x1, x2, x3];
    SubsequenceConsOptional(n0, n1 + (n2 + n3), [x1, x2, x3], x0);
    assert [x0] + [x1, x2, x3] == [x0, x1, x2, x3];
  }

  /** Appending four pieces one after another appends their concatenation. */
  lemma AppendFour<T>(b: seq<T>, e0: seq<T>, e1: seq<T>, e2: seq<T>, e3: seq<T>)
    ensures b + e0 + e1 + e2 + e3 == b + (e0 + e1 + e2 + e3)
  {
    assert b + e0 + e1 == b + (e0 + e1);
    assert b + e0 + e1 + e2 == b + (e0 + e1 + e2);
  }

  predicate NoDuplicates(s: seq<string>) {
    forall i, j :: 0 <= i < j < |s| ==> s[i] != s[j]
  }

  /** The distinct elements of `s`, each where it first occurs: the list that
      `for x in s: if x not in used: used.append(x)` builds. */
  function Dedup(s: seq<string>): seq<string>
    decreases |s|
  {
    if |s| == 0 then []
    else
      var d := Dedup(s[..|s| - 1]);
      if s[|s| - 1] in d then d else d + [s[|s| - 1]]
  }

  /** Position of the first occurrence of `x` in `s`. */
  function FirstIndex(s: seq<string>, x: string): (i: nat)
    requires x in s
    ensures i < |s| && s[i] == x
    ensures forall k :: 0 <= k < i ==> s[k] != x
    decreases |s|
  {
    if s[0] == x then 0 else 1 + FirstIndex(s[1..], x)
  }

  lemma FirstIndexOfPrefix(s: seq<string>, n: nat, x: string)
    requires n <= |s| && x in s[..n]
    ensures x in s && FirstIndex(s[..n], x) == FirstIndex(s, x)
  {
    var i := FirstIndex(s[..n], x);
    var j := FirstIndex(s, x);
    assert s[..n][i] == s[i];
  }

  /** `Dedup` keeps exactly the elements of `s`, once each, ordered by first occurrence. */
  lemma {:induction false} DedupProperties(s: seq<string>)
    ensures forall x :: x in Dedup(s) <==> x in s
    ensures NoDuplicates(Dedup(s))
    ensures forall i, j :: 0 <= i < j < |Dedup(s)| ==> FirstIndex(s, Dedup(s)[i]) < FirstIndex(s, Dedup(s)[j])
    decreases |s|
  {
    if |s| > 0 {
      var p := s[..|s| - 1];
      var last := s[|s| - 1];
      DedupProperties(p);
      var d := Dedup(p);
      assert forall x :: x in s <==> x in p || x == last by {
        assert s == p + [last];
      }
      forall x | x in d ensures FirstIndex(s, x) == FirstIndex(p, x) {
        assert x in p;
        FirstIndexOfPrefix(s, |s| - 1, x);
      }
      if last !in d {
        var e := d + [last];
        assert last !in p;
        assert FirstIndex(s, last) == |s| - 1;
        forall i, j | 0 <= i < j < |e| ensures FirstIndex(s, e[i]) < FirstIndex(s, e[j]) {
          if j == |e| - 1 {
            assert e[i] in d;
            assert FirstIndex(s, e[i]) == FirstIndex(p, e[i]) < |p|;
          } else {
            assert e[i] == d[i] && e[j] == d[j];
          }
        }
      }
    }
  }
}
