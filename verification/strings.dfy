/**
 The JavaScript string primitives the client relies on: `indexOf` and `charAt`.
 `Contains` is the reference meaning of a substring test; `IndexOf` computes
 the first occurrence and is proved to agree with it.
 */
module Strings {

  /** `pat` occurs in `s` starting at position `i`. */
  predicate IsAt(s: string, pat: string, i: int)
  {
    0 <= i && i + |pat| <= |s| && s[i..i + |pat|] == pat
  }

  /** `pat` occurs somewhere in `s`. */
  ghost predicate Contains(s: string, pat: string)
  {
    exists i :: IsAt(s, pat, i)
  }

  /** `s.indexOf(pat)`: the first position of `pat` in `s`, or -1. */
  function IndexOf(s: string, pat: string): (r: int)
    ensures r == -1 <==> !Contains(s, pat)
    ensures r != -1 ==> IsAt(s, pat, r) && forall j :: 0 <= j < r ==> !IsAt(s, pat, j)
  {
    IndexFrom(s, pat, 0)
  }

  /** The first position at or after `from` where `pat` occurs, or -1. */
  function IndexFrom(s: string, pat: string, from: nat): (r: int)
    ensures r == -1 ==> forall j :: from <= j ==> !IsAt(s, pat, j)
    ensures r != -1 ==> from <= r && IsAt(s, pat, r)
    ensures r != -1 ==> forall j :: from <= j < r ==> !IsAt(s, pat, j)
    decreases |s| - from
  {
    if from + |pat| > |s| then -1
    else if s[from..from + |pat|] == pat then from
    else IndexFrom(s, pat, from + 1)
  }

  /** `s` begins with `pre`. */
  predicate StartsWith(s: string, pre: string)
  {
    |pre| <= |s| && s[..|pre|] == pre
  }

  /** A prefix of a prefix is a prefix. */
  lemma StartsWithTransitive(s: string, mid: string, pre: string)
    requires StartsWith(s, mid) && StartsWith(mid, pre)
    ensures StartsWith(s, pre)
  {
    assert s[..|pre|] == s[..|mid|][..|pre|];
  }

  /** `s.charAt(i)`: a one-character string, or `""` past the end. */
  function CharAt(s: string, i: nat): (r: string)
    ensures i < |s| ==> r == [s[i]]
    ensures i >= |s| ==> r == ""
  {
    if i < |s| then [s[i]] else ""
  }

  /** A one-character pattern occurs exactly where that character does. */
  lemma ContainsChar(s: string, c: char)
    ensures Contains(s, [c]) <==> exists i :: 0 <= i < |s| && s[i] == c
  {
    if Contains(s, [c]) {
      var i :| IsAt(s, [c], i);
      assert s[i..i + 1][0] == s[i];
    }
    if exists i :: 0 <= i < |s| && s[i] == c {
      var i :| 0 <= i < |s| && s[i] == c;
      assert IsAt(s, [c], i);
    }
  }

  /** Prepending text keeps every occurrence of a pattern. */
  lemma ContainsPrefixed(pre: string, s: string, pat: string)
    requires Contains(s, pat)
    ensures Contains(pre + s, pat)
  {
    var i :| IsAt(s, pat, i);
    assert (pre + s)[|pre| + i..|pre| + i + |pat|] == s[i..i + |pat|];
    assert IsAt(pre + s, pat, |pre| + i);
  }
}
