/**
  String and sequence helpers shared by the models of the web client and of the
  Django views: the two whitespace classes (JavaScript's and Python's), stripping,
  prefix and substring tests, ASCII lower-casing, digit runs, and an
  order-preserving filter.
*/
module Strings {

  /** The characters JavaScript's `\s` matches and `String.prototype.trim` removes
      (ECMAScript WhiteSpace and LineTerminator). */
  const JsWhitespace: set<char> := {
    '\t', '\n', '\U{B}', '\U{C}', '\r', ' ', '\U{A0}', '\U{1680}',
    '\U{2000}', '\U{2001}', '\U{2002}', '\U{2003}', '\U{2004}', '\U{2005}',
    '\U{2006}', '\U{2007}', '\U{2008}', '\U{2009}', '\U{200A}',
    '\U{2028}', '\U{2029}', '\U{202F}', '\U{205F}', '\U{3000}', '\U{FEFF}'
  }

  /** The characters for which Python's `str.isspace()` holds, which `str.strip()` removes. */
  const PyWhitespace: set<char> := {
    '\t', '\n', '\U{B}', '\U{C}', '\r', '\U{1C}', '\U{1D}', '\U{1E}', '\U{1F}', ' ',
    '\U{85}', '\U{A0}', '\U{1680}',
    '\U{2000}', '\U{2001}', '\U{2002}', '\U{2003}', '\U{2004}', '\U{2005}',
    '\U{2006}', '\U{2007}', '\U{2008}', '\U{2009}', '\U{200A}',
    '\U{2028}', '\U{2029}', '\U{202F}', '\U{205F}', '\U{3000}'
  }

  predicate StartsWith(s: string, prefix: string) {
    |prefix| <= |s| && s[..|prefix|] == prefix
  }

  /** Every character of `s` belongs to `cs`. */
  predicate AllIn(s: string, cs: set<char>) {
    forall k :: 0 <= k < |s| ==> s[k] in cs
  }

  predicate IsDigit(c: char) {
    '0' <= c <= '9'
  }

  /** JavaScript's `\d` (without the `u` flag): ASCII digits only. */
  predicate AllDigits(s: string) {
    forall k :: 0 <= k < |s| ==> IsDigit(s[k])
  }

  /** Drops the leading characters that belong to `ws`. */
  function StripStart(s: string, ws: set<char>): (r: string)
    ensures |r| <= |s| && r == s[|s| - |r|..]
    ensures AllIn(s[..|s| - |r|], ws)
    ensures r == [] || r[0] !in ws
    decreases |s|
  {
    if s != [] && s[0] in ws then StripStart(s[1..], ws) else s
  }

  /** Drops the trailing characters that belong to `ws`. */
  function StripEnd(s: string, ws: set<char>): (r: string)
    ensures |r| <= |s| && r == s[..|r|]
    ensures AllIn(s[|r|..], ws)
    ensures r == [] || r[|r| - 1] !in ws
    decreases |s|
  {
    if s != [] && s[|s| - 1] in ws then StripEnd(s[..|s| - 1], ws) else s
  }

  /** `trim()` in JavaScript and `strip()` in Python, for the given whitespace class:
      the result is empty exactly when `s` is blank, has no whitespace at either end,
      and is `s` itself when `s` has none there. */
  function Strip(s: string, ws: set<char>): (r: string)
    ensures |r| <= |s|
    ensures r == [] <==> AllIn(s, ws)
    ensures r != [] ==> r[0] !in ws && r[|r| - 1] !in ws
    ensures s == [] || (s[0] !in ws && s[|s| - 1] !in ws) ==> r == s
    ensures exists i, j :: 0 <= i <= j <= |s| && r == s[i..j] && AllIn(s[..i], ws) && AllIn(s[j..], ws)
  {
    StripBothEnds(s, ws);
    StripMiddle(s, ws);
    StripEnd(StripStart(s, ws), ws)
  }

  /** What is left after stripping is a slice of `s` with only whitespace around it. */
  lemma StripMiddle(s: string, ws: set<char>)
    ensures var r := StripEnd(StripStart(s, ws), ws);
      exists i, j :: 0 <= i <= j <= |s| && r == s[i..j] && AllIn(s[..i], ws) && AllIn(s[j..], ws)
  {
    var t := StripStart(s, ws);
    var r := StripEnd(t, ws);
    var i, j := |s| - |t|, |s| - |t| + |r|;
    assert t == s[i..];
    assert r == s[i..j];
    assert s[j..] == t[|r|..];
  }

  lemma StripBothEnds(s: string, ws: set<char>)
    ensures var r := StripEnd(StripStart(s, ws), ws);
      && (r == [] <==> AllIn(s, ws))
      && (r != [] ==> r[0] !in ws && r[|r| - 1] !in ws)
      && (s == [] || (s[0] !in ws && s[|s| - 1] !in ws) ==> r == s)
  {
    var t := StripStart(s, ws);
    var r := StripEnd(t, ws);
    if r == [] {
      StripToEmpty(s, ws);
      StartStrippedAway(s, ws);
    }
    if r != [] {
      assert r[0] == t[0];
    }
  }

  /** Stripping the end removes everything only when the start was stripped away already. */
  lemma StripToEmpty(s: string, ws: set<char>)
    requires StripEnd(StripStart(s, ws), ws) == []
    ensures StripStart(s, ws) == []
  {
  }

  /** Stripping the start removes everything only from a blank string. */
  lemma StartStrippedAway(s: string, ws: set<char>)
    requires StripStart(s, ws) == []
    ensures AllIn(s, ws)
  {
    assert s[..|s|] == s;
  }

  /** `hay[i..]` begins with `needle`. */
  ghost predicate OccursAt(hay: string, needle: string, i: int) {
    0 <= i && i + |needle| <= |hay| && hay[i..i + |needle|] == needle
  }

  /** JavaScript's `String.prototype.includes`: `needle` occurs somewhere in `hay`. */
  function Includes(hay: string, needle: string): (r: bool)
    ensures r <==> exists i :: OccursAt(hay, needle, i)
    decreases |hay|
  {
    if StartsWith(hay, needle) then
      assert OccursAt(hay, needle, 0);
      true
    else if hay == [] then
      assert forall i :: !OccursAt(hay, needle, i);
      false
    else
      var r := Includes(hay[1..], needle);
      assert r ==> exists i :: OccursAt(hay, needle, i) by {
        if r {
          var i :| OccursAt(hay[1..], needle, i);
          assert hay[1..][i..i + |needle|] == hay[i + 1..i + 1 + |needle|];
          assert OccursAt(hay, needle, i + 1);
        }
      }
      assert (exists i :: OccursAt(hay, needle, i)) ==> r by {
        if exists i :: OccursAt(hay, needle, i) {
          var i :| OccursAt(hay, needle, i);
          assert i != 0;
          assert hay[1..][i - 1..i - 1 + |needle|] == hay[i..i + |needle|];
          assert OccursAt(hay[1..], needle, i - 1);
        }
      }
      r
  }

  function LowerChar(c: char): char {
    if 'A' <= c <= 'Z' then (c as int + 32) as char else c
  }

  /** `toLowerCase()`, restricted to the ASCII letters. */
  function Lower(s: string): (r: string)
    ensures |r| == |s|
    ensures forall k :: 0 <= k < |s| ==> r[k] == LowerChar(s[k])
  {
    seq(|s|, k requires 0 <= k < |s| => LowerChar(s[k]))
  }

  /** `r` is obtained from `s` by deleting elements, keeping the order of the rest. */
  ghost predicate IsSubsequence<T>(r: seq<T>, s: seq<T>)
    decreases |s|
  {
    if r == [] then true
    else if s == [] then false
    else (r[0] == s[0] && IsSubsequence(r[1..], s[1..])) || IsSubsequence(r, s[1..])
  }

  /** Every element of a subsequence is an element of the sequence. */
  lemma {:induction false} SubsequenceMembers<T>(r: seq<T>, s: seq<T>)
    requires IsSubsequence(r, s)
    ensures forall x :: x in r ==> x in s
    decreases |s|
  {
    if r != [] {
      if r[0] == s[0] && IsSubsequence(r[1..], s[1..]) {
        SubsequenceMembers(r[1..], s[1..]);
        assert forall x :: x in r ==> x == r[0] || x in r[1..];
      } else {
        SubsequenceMembers(r, s[1..]);
      }
    }
  }

  /** JavaScript's `Array.prototype.filter`: the elements of `s` that `keep` accepts, in order. */
  function Select<T(!new)>(s: seq<T>, keep: T -> bool): (r: seq<T>)
    ensures |r| <= |s|
    ensures forall x :: x in r <==> x in s && keep(x)
    ensures IsSubsequence(r, s)
    ensures forall x :: multiset(r)[x] == if keep(x) then multiset(s)[x] else 0
  {
    if s == [] then []
    else
      var rest := Select(s[1..], keep);
      assert s == [s[0]] + s[1..];
      assert multiset(s) == multiset{s[0]} + multiset(s[1..]);
      if keep(s[0]) then
        assert ([s[0]] + rest)[1..] == rest;
        assert multiset([s[0]] + rest) == multiset{s[0]} + multiset(rest);
        [s[0]] + rest
      else
        rest
  }

  /** A filter that accepts every element returns its input unchanged. */
  lemma {:induction false} SelectKeepsAll<T(!new)>(s: seq<T>, keep: T -> bool)
    requires forall x :: x in s ==> keep(x)
    ensures Select(s, keep) == s
  {
    if s != [] {
      assert keep(s[0]);
      SelectKeepsAll(s[1..], keep);
      assert [s[0]] + s[1..] == s;
    }
  }

  /** Filtering twice with the same predicate is filtering once. */
  lemma {:induction false} SelectIdempotent<T(!new)>(s: seq<T>, keep: T -> bool)
    ensures Select(Select(s, keep), keep) == Select(s, keep)
  {
    SelectKeepsAll(Select(s, keep), keep);
  }

  /** Filtering with predicates that agree on every element gives the same result. */
  lemma {:induction false} SelectCongruent<T(!new)>(s: seq<T>, keep: T -> bool, keep': T -> bool)
    requires forall x :: x in s ==> keep(x) == keep'(x)
    ensures Select(s, keep) == Select(s, keep')
  {
    if s != [] {
      SelectCongruent(s[1..], keep, keep');
    }
  }
}
