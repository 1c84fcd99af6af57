/**
  The bracket-aware splitter of the header generator
  (scripts/_generate_api_c_h.py).

  A piece of text has a net bracket depth.  The splitter cuts at each delimiter
  that is met while the depth, counted from the start of the text, is zero.  The
  specification below does not scan: it says which lists of parts are splits of a
  text, and the lemmas show that there is exactly one.
*/
module TopLevel {

  predicate Opens(c: char) { c == '(' || c == '[' || c == '<' }

  predicate Closes(c: char) { c == ')' || c == ']' || c == '>' }

  function Weight(c: char): int { if Opens(c) then 1 else if Closes(c) then -1 else 0 }

  /** The net bracket depth of a text: openings less closings. */
  function Depth(text: string): int {
    if text == "" then 0 else Depth(text[..|text| - 1]) + Weight(text[|text| - 1])
  }

  lemma {:induction false} DepthConcat(a: string, b: string)
    ensures Depth(a + b) == Depth(a) + Depth(b)
    decreases |b|
  {
    if b == "" {
      assert a + b == a;
    } else {
      DepthConcat(a, b[..|b| - 1]);
      assert (a + b)[..|a + b| - 1] == a + b[..|b| - 1];
    }
  }

  /** Cutting at position i is called for: the delimiter stands there and closes the depth to zero. */
  predicate CutsAt(text: string, d: char, i: nat)
    requires i < |text|
  {
    text[i] == d && Depth(text[..i + 1]) == 0
  }

  /** No cut falls inside the text. */
  predicate Whole(text: string, d: char) {
    forall i {:trigger CutsAt(text, d, i)} :: 0 <= i < |text| ==> !CutsAt(text, d, i)
  }

  function Join(parts: seq<string>, d: char): string
    requires parts != []
  {
    if |parts| == 1 then parts[0] else parts[0] + [d] + Join(parts[1..], d)
  }

  /** Every part is whole, and the delimiter after each part but the last is one to cut at. */
  predicate Clean(parts: seq<string>, d: char) {
    && (forall i :: 0 <= i < |parts| ==> Whole(parts[i], d))
    && (forall i :: 0 <= i < |parts| - 1 ==> Depth(parts[i] + [d]) == 0)
  }

  /** The first position to cut at, or the length of the text. */
  function FirstCut(text: string, d: char, from: nat): (r: nat)
    requires from <= |text|
    ensures from <= r <= |text|
    ensures r < |text| ==> CutsAt(text, d, r)
    ensures forall i {:trigger CutsAt(text, d, i)} :: from <= i < r ==> !CutsAt(text, d, i)
    decreases |text| - from
  {
    if from == |text| || CutsAt(text, d, from) then from else FirstCut(text, d, from + 1)
  }

  /** The parts of a text: up to the first cut, then the parts of what follows it. */
  function Parts(text: string, d: char): (r: seq<string>)
    ensures r != []
    decreases |text|
  {
    var cut := FirstCut(text, d, 0);
    if cut == |text| then [text] else [text[..cut]] + Parts(text[cut + 1..], d)
  }

  lemma PrefixCuts(text: string, d: char, n: nat, i: nat)
    requires i < n <= |text|
    ensures CutsAt(text[..n], d, i) == CutsAt(text, d, i)
  {
    assert text[..n][..i + 1] == text[..i + 1];
  }

  lemma CutText(text: string, d: char, cut: nat)
    requires cut < |text| && text[cut] == d
    ensures text[..cut] + [d] == text[..cut + 1]
    ensures text == text[..cut] + [d] + text[cut + 1..]
  {
  }

  /** Joining the parts gives back the text, for every text and every delimiter. */
  lemma {:induction false} JoinOfParts(text: string, d: char)
    ensures Join(Parts(text, d), d) == text
    ensures Clean(Parts(text, d), d)
    decreases |text|
  {
    var cut := FirstCut(text, d, 0);
    if cut < |text| {
      var rest := Parts(text[cut + 1..], d);
      JoinOfParts(text[cut + 1..], d);
      CutText(text, d, cut);
      assert Parts(text, d) == [text[..cut]] + rest;
      assert Parts(text, d)[1..] == rest;
      forall i {:trigger CutsAt(text[..cut], d, i)} | 0 <= i < cut ensures !CutsAt(text[..cut], d, i) {
        PrefixCuts(text, d, cut, i);
        assert !CutsAt(text, d, i);
      }
      assert Whole(text[..cut], d);
      assert CutsAt(text, d, cut);
      CleanCons(text[..cut], rest, d);
    } else {
      assert Whole(text, d);
    }
  }

  lemma CleanCons(p: string, rest: seq<string>, d: char)
    requires Whole(p, d) && Depth(p + [d]) == 0 && Clean(rest, d)
    ensures Clean([p] + rest, d)
  {
    var all := [p] + rest;
    forall i | 0 <= i < |all| ensures Whole(all[i], d) {
      if i > 0 { assert all[i] == rest[i - 1]; }
    }
    forall i | 0 <= i < |all| - 1 ensures Depth(all[i] + [d]) == 0 {
      if i > 0 { assert all[i] == rest[i - 1]; }
    }
  }

  /** The first cut of a text that starts with a whole part and a delimiter to cut at. */
  lemma FirstCutAfter(p: string, d: char, rest: string)
    requires Whole(p, d) && Depth(p + [d]) == 0
    ensures FirstCut(p + [d] + rest, d, 0) == |p|
  {
    var text := p + [d] + rest;
    assert text[..|p|] == p;
    assert text[..|p| + 1] == p + [d];
    assert CutsAt(text, d, |p|);
    forall i {:trigger CutsAt(text, d, i)} | 0 <= i < |p| ensures !CutsAt(text, d, i) {
      PrefixCuts(text, d, |p|, i);
      assert !CutsAt(p, d, i);
    }
  }

  lemma {:induction false} PartsOfClean(parts: seq<string>, d: char)
    requires parts != [] && Clean(parts, d)
    ensures Parts(Join(parts, d), d) == parts
    decreases |parts|
  {
    var p := parts[0];
    assert Whole(p, d);
    if |parts| > 1 {
      var rest := parts[1..];
      assert forall i :: 0 <= i < |rest| ==> rest[i] == parts[i + 1];
      assert Clean(rest, d);
      PartsOfClean(rest, d);
      FirstCutAfter(p, d, Join(rest, d));
      var text := p + [d] + Join(rest, d);
      assert text[..|p|] == p;
      assert text[|p| + 1..] == Join(rest, d);
    }
  }

  /** Splitting a join gives back the parts exactly when the parts are clean. */
  lemma PartsOfJoin(parts: seq<string>, d: char)
    requires parts != []
    ensures Parts(Join(parts, d), d) == parts <==> Clean(parts, d)
  {
    JoinOfParts(Join(parts, d), d);
    if Clean(parts, d) { PartsOfClean(parts, d); }
  }

  /** Bracket-balanced up to the last part, and no delimiter outside brackets in any part. */
  predicate Balanced(parts: seq<string>, d: char) {
    && (forall i :: 0 <= i < |parts| - 1 ==> Depth(parts[i]) == 0)
    && (forall i, j :: 0 <= i < |parts| && 0 <= j < |parts[i]| && parts[i][j] == d ==> Depth(parts[i][..j]) != 0)
  }

  /** For a delimiter that is no bracket, clean means balanced. */
  lemma CleanIsBalanced(parts: seq<string>, d: char)
    requires !Opens(d) && !Closes(d)
    ensures Clean(parts, d) <==> Balanced(parts, d)
  {
    forall p: string ensures Depth(p + [d]) == Depth(p) {
      assert (p + [d])[..|p|] == p;
    }
    forall p: string, j | 0 <= j < |p| && p[j] == d ensures CutsAt(p, d, j) == (Depth(p[..j]) == 0) {
      assert p[..j + 1] == p[..j] + [d];
    }
    if Clean(parts, d) {
      forall i, j | 0 <= i < |parts| && 0 <= j < |parts[i]| && parts[i][j] == d ensures Depth(parts[i][..j]) != 0 {
        assert Whole(parts[i], d);
        assert !CutsAt(parts[i], d, j);
      }
    }
  }

  /** Round trip for the delimiters the generator uses. */
  lemma SplitOfJoin(parts: seq<string>, d: char)
    requires parts != [] && !Opens(d) && !Closes(d)
    ensures Parts(Join(parts, d), d) == parts <==> Balanced(parts, d)
  {
    PartsOfJoin(parts, d);
    CleanIsBalanced(parts, d);
  }

  // Which characters protect a delimiter.

  /** A text without a bracket. */
  predicate Plain(text: string) {
    forall c :: c in text ==> c !in "()[]<>"
  }

  lemma NoBracketWeighs(c: char)
    requires c !in "()[]<>"
    ensures Weight(c) == 0
  {
    var brackets := "()[]<>";
    assert forall i :: 0 <= i < |brackets| ==> brackets[i] != c;
    assert brackets[0] == '(' && brackets[1] == ')' && brackets[2] == '[' && brackets[3] == ']' && brackets[4] == '<';
  }

  lemma {:induction false} PlainIsFlat(text: string)
    requires Plain(text)
    ensures Depth(text) == 0
    decreases |text|
  {
    if text != "" {
      PlainIsFlat(text[..|text| - 1]);
      NoBracketWeighs(text[|text| - 1]);
    }
  }

  /** Between an opening and a closing bracket of any of the three kinds no delimiter is cut at, and behind
      them every part is as it would be without them. */
  lemma BracketsProtect(open: char, inner: string, close: char, d: char, rest: string)
    requires open in "([<" && close in ")]>" && Plain(inner) && d !in "()[]<>"
    ensures Parts([open] + inner + [close] + [d] + rest, d) == [[open] + inner + [close]] + Parts(rest, d)
  {
    var p := [open] + inner + [close];
    BracketedIsWhole(open, inner, close, d);
    BracketedDepth(open, inner, close, 0);
    DepthConcat(p, [d]);
    DepthOfOne(d);
    NoBracketWeighs(d);
    FirstCutAfter(p, d, rest);
    var text := p + [d] + rest;
    assert text[..|p|] == p && text[|p| + 1..] == rest;
  }

  lemma DepthOfOne(c: char)
    ensures Depth([c]) == Weight(c)
  {
    assert [c][..0] == "";
    assert Depth("") == 0;
  }

  /** Inside the brackets the depth is one, behind them it is zero. */
  lemma BracketedDepth(open: char, inner: string, close: char, i: nat)
    requires open in "([<" && close in ")]>" && Plain(inner) && i <= |inner|
    ensures Depth([open] + inner[..i]) == 1 && Depth([open] + inner + [close]) == 0
  {
    DepthConcat([open], inner[..i]);
    DepthConcat([open], inner);
    DepthConcat([open] + inner, [close]);
    PlainIsFlat(inner);
    PlainIsFlat(inner[..i]);
    DepthOfOne(open);
    DepthOfOne(close);
  }

  lemma BracketedIsWhole(open: char, inner: string, close: char, d: char)
    requires open in "([<" && close in ")]>" && Plain(inner) && d !in "()[]<>"
    ensures Whole([open] + inner + [close], d)
  {
    var p := [open] + inner + [close];
    forall i {:trigger CutsAt(p, d, i)} | 0 <= i < |p| ensures !CutsAt(p, d, i) {
      if 0 < i <= |inner| {
        assert p[..i + 1] == [open] + inner[..i];
        BracketedDepth(open, inner, close, i);
      } else {
        assert p[i] == open || p[i] == close;
      }
    }
  }

  /** Nothing else protects: a text without brackets is cut at every delimiter. */
  lemma {:induction false} OnlyBracketsProtect(text: string, d: char)
    requires Plain(text) && d !in "()[]<>"
    ensures forall p :: p in Parts(text, d) ==> d !in p
    decreases |text|
  {
    var cut := FirstCut(text, d, 0);
    forall i | 0 <= i < cut ensures text[i] != d {
      assert !CutsAt(text, d, i);
      PlainIsFlat(text[..i + 1]);
    }
    assert d !in text[..cut];
    if cut < |text| {
      OnlyBracketsProtect(text[cut + 1..], d);
      assert Parts(text, d) == [text[..cut]] + Parts(text[cut + 1..], d);
    } else {
      assert Parts(text, d) == [text] && text[..cut] == text;
    }
  }

  lemma {:induction false} JoinGrowsLast(parts: seq<string>, current: string, tail: string, d: char)
    ensures Join(parts + [current], d) + tail == Join(parts + [current + tail], d)
    decreases |parts|
  {
    if parts != [] {
      JoinGrowsLast(parts[1..], current, tail, d);
      assert (parts + [current])[1..] == parts[1..] + [current];
      assert (parts + [current + tail])[1..] == parts[1..] + [current + tail];
    }
  }

  lemma {:induction false} JoinStartsNew(parts: seq<string>, d: char)
    requires parts != []
    ensures Join(parts + [""], d) == Join(parts, d) + [d]
    decreases |parts|
  {
    if |parts| == 1 {
      assert (parts + [""])[1..] == [""];
    } else {
      JoinStartsNew(parts[1..], d);
      assert (parts + [""])[1..] == parts[1..] + [""];
    }
  }

  lemma CleanSnoc(parts: seq<string>, current: string, d: char)
    requires Clean(parts + [current], d) && Depth(current + [d]) == 0
    ensures Clean(parts + [current] + [""], d)
  {
    var was, all := parts + [current], parts + [current] + [""];
    forall i | 0 <= i < |all| ensures Whole(all[i], d) {
      if i < |was| { assert all[i] == was[i]; }
    }
    forall i | 0 <= i < |all| - 1 ensures Depth(all[i] + [d]) == 0 {
      assert all[i] == was[i];
    }
  }

  lemma CleanGrow(parts: seq<string>, current: string, c: char, d: char)
    requires Clean(parts + [current], d)
    requires c != d || Depth(current + [c]) != 0
    ensures Clean(parts + [current + [c]], d)
  {
    var was, now := parts + [current], parts + [current + [c]];
    forall i {:trigger CutsAt(current + [c], d, i)} | 0 <= i <= |current| ensures !CutsAt(current + [c], d, i) {
      assert (current + [c])[..|current| + 1] == current + [c];
      if i < |current| {
        assert (current + [c])[..|current|] == current;
        PrefixCuts(current + [c], d, |current|, i);
        assert was[|parts|] == current;
        assert Whole(current, d);
        assert !CutsAt(current, d, i);
      }
    }
    assert Whole(current + [c], d);
    forall i | 0 <= i < |now| ensures Whole(now[i], d) {
      if i < |parts| { assert now[i] == was[i]; }
    }
    forall i | 0 <= i < |now| - 1 ensures Depth(now[i] + [d]) == 0 {
      assert now[i] == was[i];
    }
  }

  /** The source's one-pass scanner with its depth counter and its current part. */
  method SplitTopLevel(text: string, d: char) returns (parts: seq<string>)
    ensures parts == Parts(text, d)
  {
    parts := [];
    var depth := 0;
    var current := "";
    var i := 0;
    while i < |text|
      invariant 0 <= i <= |text|
      invariant depth == Depth(current)
      invariant Join(parts + [current], d) == text[..i]
      invariant Clean(parts + [current], d)
    {
      var c := text[i];
      if Opens(c) {
        depth := depth + 1;
      } else if Closes(c) {
        depth := depth - 1;
      }
      assert (current + [c])[..|current|] == current;
      assert text[..i + 1] == text[..i] + [c];
      if c == d && depth == 0 {
        CleanSnoc(parts, current, d);
        JoinStartsNew(parts + [current], d);
        parts := parts + [current];
        current := "";
      } else {
        CleanGrow(parts, current, c, d);
        JoinGrowsLast(parts, current, [c], d);
        current := current + [c];
      }
      i := i + 1;
    }
    assert text[..i] == text;
    parts := parts + [current];
    PartsOfClean(parts, d);
  }
}
