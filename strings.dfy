/** Prefix, suffix and scanning helpers over SQL text. */
module Strings {

  predicate StartsWith(s: string, p: string) {
    |p| <= |s| && s[..|p|] == p
  }

  predicate EndsWith(s: string, p: string) {
    |p| <= |s| && s[|s| - |p|..] == p
  }

  /** The longest prefix of `s` that does not contain `stop`. */
  function Span(s: string, stop: char): (r: string)
    ensures |r| <= |s| && r == s[..|r|]
    ensures stop !in r
    ensures |r| < |s| ==> s[|r|] == stop
  {
    if s == [] || s[0] == stop then [] else [s[0]] + Span(s[1..], stop)
  }

  /** Scanning a word that avoids `stop`, followed by `stop` or nothing, yields the word. */
  lemma {:induction false} SpanOfWord(w: string, stop: char, rest: string)
    requires stop !in w
    requires rest == [] || rest[0] == stop
    ensures Span(w + rest, stop) == w
  {
    if w != [] {
      assert (w + rest)[1..] == w[1..] + rest;
      SpanOfWord(w[1..], stop, rest);
    }
  }

  lemma StartsWithAppend(p: string, rest: string)
    ensures StartsWith(p + rest, p)
    ensures (p + rest)[|p|..] == rest
  {
    assert (p + rest)[..|p|] == p;
  }

  lemma EndsWithAppend(s: string, p: string)
    ensures EndsWith(s + p, p)
    ensures (s + p)[..|s|] == s
  {
    assert (s + p)[|s|..] == p;
  }

  /** A text whose last character differs from the last character of `p` does not end with `p`. */
  lemma NotEndsWithByLastChar(s: string, p: string)
    requires |s| > 0 && |p| > 0 && s[|s| - 1] != p[|p| - 1]
    ensures !EndsWith(s, p)
  {
  }

  lemma AppendAssoc(a: string, b: string, c: string)
    ensures a + (b + c) == (a + b) + c
  {
  }

  lemma AppendEmpty(s: string)
    ensures s + "" == s
  {
  }
}
