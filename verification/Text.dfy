/**
  Text helpers of the header generator: Python's whitespace and the strip family.
*/
module Text {

  /** The characters that Python's str.strip removes. */
  predicate Space(c: char) {
    || '\U{9}' <= c <= '\U{D}'
    || '\U{1C}' <= c <= '\U{20}'
    || c == '\U{85}' || c == '\U{A0}' || c == '\U{1680}'
    || '\U{2000}' <= c <= '\U{200A}'
    || c == '\U{2028}' || c == '\U{2029}' || c == '\U{202F}' || c == '\U{205F}' || c == '\U{3000}'
  }

  function RStrip(s: string): (r: string)
    ensures r != "" ==> !Space(r[|r| - 1])
    ensures |r| <= |s|
  {
    if s != "" && Space(s[|s| - 1]) then RStrip(s[..|s| - 1]) else s
  }

  function LStrip(s: string): (r: string)
    ensures |r| <= |s|
    ensures r != "" ==> !Space(r[0]) && s != "" && r[|r| - 1] == s[|s| - 1]
  {
    if s != "" && Space(s[0]) then LStrip(s[1..]) else s
  }

  function Strip(s: string): string { LStrip(RStrip(s)) }

  /** Nothing to strip at either end. */
  predicate Trim(s: string) { s != "" ==> !Space(s[0]) && !Space(s[|s| - 1]) }

  lemma StripIsTrim(s: string)
    ensures Trim(Strip(s))
  {
  }

  lemma TrimIsStable(s: string)
    requires Trim(s)
    ensures Strip(s) == s && RStrip(s) == s
  {
  }

  lemma RStripStable(s: string)
    ensures RStrip(RStrip(s)) == RStrip(s)
    ensures Strip(RStrip(s)) == Strip(s)
  {
  }

  lemma {:induction false} LStripKeepsInk(s: string)
    requires s != "" && !Space(s[|s| - 1])
    ensures LStrip(s) != ""
  {
    if Space(s[0]) { LStripKeepsInk(s[1..]); }
  }

  predicate StartsWith(s: string, prefix: string) { prefix <= s }

  /** The characters of a text that are not whitespace. */
  function Ink(s: string): string {
    if s == "" then "" else Ink(s[..|s| - 1]) + (if Space(s[|s| - 1]) then "" else [s[|s| - 1]])
  }

  lemma {:induction false} InkConcat(a: string, b: string)
    ensures Ink(a + b) == Ink(a) + Ink(b)
    decreases |b|
  {
    if b == "" {
      assert a + b == a;
    } else {
      InkConcat(a, b[..|b| - 1]);
      assert (a + b)[..|a + b| - 1] == a + b[..|b| - 1];
    }
  }

  lemma {:induction false} InkRStrip(s: string)
    ensures Ink(RStrip(s)) == Ink(s)
  {
    if s != "" && Space(s[|s| - 1]) { InkRStrip(s[..|s| - 1]); }
  }

  lemma {:induction false} InkLStrip(s: string)
    ensures Ink(LStrip(s)) == Ink(s)
  {
    if s != "" && Space(s[0]) {
      InkLStrip(s[1..]);
      assert s == s[..1] + s[1..];
      InkConcat(s[..1], s[1..]);
      assert Ink(s[..1]) == "";
    }
  }

  lemma InkStrip(s: string)
    ensures Ink(Strip(s)) == Ink(s)
  {
    InkRStrip(s);
    InkLStrip(RStrip(s));
  }
}
