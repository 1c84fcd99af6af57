/**
  The doc-line normaliser: blank runs collapse, paragraphs are glued into one
  line, fenced code keeps its lines.  Which characters count as decimal digits is
  a parameter: every statement holds for every such table.
*/
module DocLines {
  import opened Text

  const FENCE := "```"

  /** One or more digits, a full stop and a blank: the head of a numbered item. */
  predicate Numbered(digit: char -> bool, line: string) {
    exists n {:trigger line[..n]} ::
      0 < n < |line| - 1 && (forall i :: 0 <= i < n ==> digit(line[i])) && line[n] == '.' && line[n + 1] == ' '
  }

  predicate StartsNewBlock(digit: char -> bool, line: string) {
    || StartsWith(line, "#") || StartsWith(line, ">") || StartsWith(line, "|")
    || StartsWith(line, "- ") || StartsWith(line, "* ") || StartsWith(line, FENCE)
    || Numbered(digit, line)
  }

  datatype Doc = Doc(lines: seq<string>, inCode: bool)

  /** The normalised lines end a paragraph: nothing can be glued to them. */
  predicate AtBreak(lines: seq<string>) { lines == [] || lines[|lines| - 1] == "" }

  /** What a raw line does to the lines so far. */
  datatype Move = Skip | Append(line: string, toggles: bool) | Extend(more: string)

  /** Where a raw line belongs. */
  function Decide(digit: char -> bool, doc: Doc, raw: string): (m: Move)
    ensures m.Append? && m.line == "" ==> !AtBreak(doc.lines)
    ensures m.Append? && m.line != "" ==> !Space(m.line[|m.line| - 1])
    ensures m.Extend? ==> !AtBreak(doc.lines) && m.more != "" && Trim(m.more)
  {
    var line := RStrip(raw);
    var stripped := Strip(line);
    StripIsTrim(line);
    if stripped == "" then
      if AtBreak(doc.lines) then Skip else Append("", false)
    else if StartsWith(stripped, FENCE) then
      Append(stripped, true)
    else if doc.inCode then
      Append(line, false)
    else if AtBreak(doc.lines) || StartsNewBlock(digit, stripped) then
      Append(stripped, false)
    else
      Extend(stripped)
  }

  function Act(doc: Doc, m: Move): Doc
    requires m.Extend? ==> !AtBreak(doc.lines)
  {
    var out := doc.lines;
    match m
    case Skip => doc
    case Append(line, toggles) => Doc(out + [line], doc.inCode != toggles)
    case Extend(more) => doc.(lines := out[..|out| - 1] + [Glue(out[|out| - 1], more)])
  }

  /** One raw line arrives. */
  function Step(digit: char -> bool, doc: Doc, raw: string): Doc { Act(doc, Decide(digit, doc, raw)) }

  function Glue(line: string, more: string): string { line + " " + more }

  const BLANK := Doc([], false)

  function Fold(digit: char -> bool, lines: seq<string>): Doc {
    if lines == [] then BLANK else Step(digit, Fold(digit, lines[..|lines| - 1]), lines[|lines| - 1])
  }

  function Normalize(digit: char -> bool, lines: seq<string>): seq<string> { Fold(digit, lines).lines }

  predicate Fixed(digit: char -> bool, lines: seq<string>, k: nat)
    requires k <= |lines|
  {
    Normalize(digit, lines[..k]) == lines[..k]
  }

  /** Normalising any prefix of the lines changes nothing, and the code flag is reproduced at the end. */
  predicate Settled(digit: char -> bool, doc: Doc) {
    && (forall k {:trigger Fixed(digit, doc.lines, k)} :: 0 <= k <= |doc.lines| ==> Fixed(digit, doc.lines, k))
    && Fold(digit, doc.lines).inCode == doc.inCode
  }

  lemma FoldSnoc(digit: char -> bool, lines: seq<string>, x: string)
    ensures Fold(digit, lines + [x]) == Step(digit, Fold(digit, lines), x)
  {
    assert (lines + [x])[..|lines|] == lines;
  }

  lemma FoldSettled(digit: char -> bool, doc: Doc)
    requires Settled(digit, doc)
    ensures Fold(digit, doc.lines) == doc
  {
    assert Fixed(digit, doc.lines, |doc.lines|);
    assert doc.lines[..|doc.lines|] == doc.lines;
  }

  /** A line that the normaliser appends to its own output unchanged keeps the output settled. */
  lemma SettledSnoc(digit: char -> bool, doc: Doc, x: string, inCode: bool)
    requires Settled(digit, doc)
    requires Step(digit, doc, x) == Doc(doc.lines + [x], inCode)
    ensures Settled(digit, Doc(doc.lines + [x], inCode))
  {
    FoldSettled(digit, doc);
    FoldSnoc(digit, doc.lines, x);
    var out := doc.lines + [x];
    forall k {:trigger Fixed(digit, out, k)} | 0 <= k <= |out| ensures Fixed(digit, out, k) {
      if k < |out| {
        assert out[..k] == doc.lines[..k];
        assert Fixed(digit, doc.lines, k);
      } else {
        assert out[..k] == out;
      }
    }
  }

  /** A longer line starts a block when its beginning does. */
  lemma BlockIsPrefixClosed(digit: char -> bool, line: string, more: string)
    requires StartsNewBlock(digit, line)
    ensures StartsNewBlock(digit, line + more)
  {
    if Numbered(digit, line) {
      var n :| 0 < n < |line| - 1 && (forall i :: 0 <= i < n ==> digit(line[i])) && line[n] == '.' && line[n + 1] == ' ' && line[..n] == line[..n];
      var all := line + more;
      assert all[..n] == line[..n];
      assert forall i :: 0 <= i < n ==> all[i] == line[i];
      assert all[n] == '.' && all[n + 1] == ' ';
      assert Numbered(digit, all);
    }
  }

  /** How many digits the line begins with. */
  function Digits(digit: char -> bool, line: string): nat {
    if line == "" || !digit(line[0]) then 0 else 1 + Digits(digit, line[1..])
  }

  lemma {:induction false} DigitsAreAll(digit: char -> bool, line: string)
    ensures Digits(digit, line) <= |line| && forall i :: 0 <= i < Digits(digit, line) ==> digit(line[i])
    ensures Digits(digit, line) < |line| ==> !digit(line[Digits(digit, line)])
  {
    if line != "" && digit(line[0]) {
      DigitsAreAll(digit, line[1..]);
      forall i | 0 <= i < Digits(digit, line) ensures digit(line[i]) {
        assert i > 0 ==> line[i] == line[1..][i - 1];
      }
    }
  }

  lemma NumberedByDigits(digit: char -> bool, line: string)
    requires !digit('.')
    ensures Numbered(digit, line) <==>
              var n := Digits(digit, line); 0 < n && n + 1 < |line| && line[n] == '.' && line[n + 1] == ' '
  {
    DigitsAreAll(digit, line);
    var n := Digits(digit, line);
    if Numbered(digit, line) {
      var m :| 0 < m < |line| - 1 && (forall i :: 0 <= i < m ==> digit(line[i])) && line[m] == '.' && line[m + 1] == ' ' && line[..m] == line[..m];
      assert m == n;
    } else if 0 < n && n + 1 < |line| {
      assert line[..n] == line[..n];
    }
  }

  /** Character by character, which lines start a block: headings, quotes and table rows, bullets, fences,
      and numbered items of any number of digits. */
  lemma BlockStarts(digit: char -> bool, line: string)
    requires !digit('.')
    ensures StartsNewBlock(digit, line) <==>
              || (|line| > 0 && line[0] in "#>|")
              || (|line| > 1 && line[0] in "-*" && line[1] == ' ')
              || (|line| > 2 && line[0] == '`' && line[1] == '`' && line[2] == '`')
              || (var n := Digits(digit, line); 0 < n && n + 1 < |line| && line[n] == '.' && line[n + 1] == ' ')
  {
    NumberedByDigits(digit, line);
  }

  /** Gluing more text to the last line, outside code, keeps the output settled. */
  lemma SettledGlue(digit: char -> bool, doc: Doc, more: string)
    requires Settled(digit, doc) && !doc.inCode && !AtBreak(doc.lines)
    requires more != "" && Trim(more)
    ensures Settled(digit, doc.(lines := doc.lines[..|doc.lines| - 1] + [Glue(doc.lines[|doc.lines| - 1], more)]))
  {
    var n := |doc.lines| - 1;
    var was := Fold(digit, doc.lines[..n]);
    FoldSettled(digit, doc);
    PrefixSettled(digit, doc, n);
    assert doc.lines == doc.lines[..n] + [doc.lines[n]];
    StepGlued(digit, was, doc.lines[n], more);
    SettledSnoc(digit, was, Glue(doc.lines[n], more), false);
  }

  /** A line that is appended as it is, outside code, is so too with more text glued to it. */
  lemma StepGlued(digit: char -> bool, was: Doc, line: string, more: string)
    requires line != "" && Step(digit, was, line) == Doc(was.lines + [line], false)
    requires more != "" && Trim(more)
    ensures Step(digit, was, Glue(line, more)) == Doc(was.lines + [Glue(line, more)], false)
  {
    var glued := Glue(line, more);
    RStripStable(line);
    AppendedIsTrim(digit, was, line);
    TrimIsStable(line);
    TrimIsStable(glued);
    GluedFence(line, more);
    if StartsNewBlock(digit, line) {
      BlockIsPrefixClosed(digit, line, " " + more);
      assert glued == line + (" " + more);
    }
  }

  lemma AppendedIsTrim(digit: char -> bool, was: Doc, line: string)
    requires line != "" && Step(digit, was, line) == Doc(was.lines + [line], false)
    ensures Trim(line)
    ensures StartsWith(line, FENCE) || AtBreak(was.lines) || StartsNewBlock(digit, line)
    ensures was.inCode == StartsWith(line, FENCE)
  {
    ActAppends(was, Decide(digit, was, line), line, false);
    StripIsTrim(RStrip(line));
  }

  /** What was appended can be read off the result. */
  lemma ActAppends(doc: Doc, m: Move, line: string, inCode: bool)
    requires m.Extend? ==> !AtBreak(doc.lines)
    requires Act(doc, m) == Doc(doc.lines + [line], inCode)
    ensures m == Append(line, doc.inCode != inCode)
  {
    assert |Act(doc, m).lines| == |doc.lines| + 1;
    assert Act(doc, m).lines[|doc.lines|] == line;
  }

  lemma GluedFence(line: string, more: string)
    requires line != ""
    ensures StartsWith(Glue(line, more), FENCE) == StartsWith(line, FENCE)
  {
    var glued := Glue(line, more);
    assert glued[|line|] == ' ';
    assert forall i :: 0 <= i < |line| ==> glued[i] == line[i];
  }

  lemma PrefixSettled(digit: char -> bool, doc: Doc, n: nat)
    requires Settled(digit, doc) && n <= |doc.lines|
    ensures Settled(digit, Fold(digit, doc.lines[..n])) && Fold(digit, doc.lines[..n]).lines == doc.lines[..n]
  {
    var was := Fold(digit, doc.lines[..n]);
    assert Fixed(digit, doc.lines, n);
    forall k {:trigger Fixed(digit, was.lines, k)} | 0 <= k <= n ensures Fixed(digit, was.lines, k) {
      assert was.lines[..k] == doc.lines[..k];
      assert Fixed(digit, doc.lines, k);
    }
  }

  lemma StepSettled(digit: char -> bool, doc: Doc, raw: string)
    requires Settled(digit, doc)
    ensures Settled(digit, Step(digit, doc, raw))
  {
    var line := RStrip(raw);
    var stripped := Strip(line);
    RStripStable(line);
    StripIsTrim(line);
    TrimIsStable(stripped);
    RStripStable(raw);
    if stripped == "" {
      if !AtBreak(doc.lines) { SettledSnoc(digit, doc, "", doc.inCode); }
    } else if StartsWith(stripped, FENCE) {
      SettledSnoc(digit, doc, stripped, !doc.inCode);
    } else if doc.inCode {
      SettledSnoc(digit, doc, line, true);
    } else if AtBreak(doc.lines) || StartsNewBlock(digit, stripped) {
      SettledSnoc(digit, doc, stripped, false);
    } else {
      SettledGlue(digit, doc, stripped);
    }
  }

  lemma {:induction false} FoldIsSettled(digit: char -> bool, lines: seq<string>)
    ensures Settled(digit, Fold(digit, lines))
    decreases |lines|
  {
    if lines != [] {
      FoldIsSettled(digit, lines[..|lines| - 1]);
      StepSettled(digit, Fold(digit, lines[..|lines| - 1]), lines[|lines| - 1]);
    }
  }

  /** Normalising twice is normalising once, and leaves the same fence open, for every list of lines. */
  lemma NormalizeIsIdempotent(digit: char -> bool, lines: seq<string>)
    ensures Normalize(digit, Normalize(digit, lines)) == Normalize(digit, lines)
    ensures Fold(digit, Normalize(digit, lines)).inCode == Fold(digit, lines).inCode
  {
    FoldIsSettled(digit, lines);
    FoldSettled(digit, Fold(digit, lines));
  }

  /** Normalising can be cut at any line: the first part may be replaced by its normal form. */
  lemma {:induction false} NormalizeAbsorbs(digit: char -> bool, a: seq<string>, b: seq<string>)
    ensures Fold(digit, Normalize(digit, a) + b) == Fold(digit, a + b)
    decreases |b|
  {
    if b == [] {
      FoldIsSettled(digit, a);
      FoldSettled(digit, Fold(digit, a));
      assert Normalize(digit, a) + b == Normalize(digit, a) && a + b == a;
    } else {
      NormalizeAbsorbs(digit, a, b[..|b| - 1]);
      FoldLast(digit, Normalize(digit, a), b);
      FoldLast(digit, a, b);
    }
  }

  lemma FoldLast(digit: char -> bool, a: seq<string>, b: seq<string>)
    requires b != []
    ensures Fold(digit, a + b) == Step(digit, Fold(digit, a + b[..|b| - 1]), b[|b| - 1])
  {
    ConcatLast(a, b);
    FoldSnoc(digit, a + b[..|b| - 1], b[|b| - 1]);
  }

  lemma ConcatLast<T>(a: seq<T>, b: seq<T>)
    requires b != []
    ensures a + b == a + b[..|b| - 1] + [b[|b| - 1]]
  {
  }

  // What the normaliser keeps: every character that is not whitespace, in order.

  function AllInk(lines: seq<string>): string {
    if lines == [] then "" else AllInk(lines[..|lines| - 1]) + Ink(lines[|lines| - 1])
  }

  lemma InkSnoc(lines: seq<string>, x: string)
    ensures AllInk(lines + [x]) == AllInk(lines) + Ink(x)
  {
    assert (lines + [x])[..|lines|] == lines;
  }

  lemma InkGlue(line: string, more: string)
    ensures Ink(Glue(line, more)) == Ink(line) + Ink(more)
  {
    InkConcat(line, " ");
    InkConcat(line + " ", more);
    InkOfSpace();
    assert Ink(line) + "" == Ink(line);
  }

  lemma InkOfSpace()
    ensures Ink(" ") == ""
  {
    assert Ink(" "[..0]) == "";
  }

  function MoveInk(m: Move): string {
    match m
    case Skip => ""
    case Append(line, _) => Ink(line)
    case Extend(more) => Ink(more)
  }

  /** A move carries the raw line, stripped on the right or on both sides. */
  predicate CarriesRaw(m: Move, raw: string) {
    match m
    case Skip => Strip(RStrip(raw)) == ""
    case Append(line, _) => line == RStrip(raw) || line == Strip(RStrip(raw))
    case Extend(more) => more == Strip(RStrip(raw))
  }

  lemma DecideCarriesRaw(digit: char -> bool, doc: Doc, raw: string)
    ensures CarriesRaw(Decide(digit, doc, raw), raw)
  {
  }

  lemma MoveKeepsInk(m: Move, raw: string)
    requires CarriesRaw(m, raw)
    ensures MoveInk(m) == Ink(raw)
  {
    InkRStrip(raw);
    InkStrip(RStrip(raw));
  }

  lemma ActKeepsInk(doc: Doc, m: Move)
    requires m.Extend? ==> !AtBreak(doc.lines)
    ensures AllInk(Act(doc, m).lines) == AllInk(doc.lines) + MoveInk(m)
  {
    match m
    case Skip =>
    case Append(line, _) => InkSnoc(doc.lines, line);
    case Extend(more) =>
      var n := |doc.lines| - 1;
      InkGlue(doc.lines[n], more);
      InkSnoc(doc.lines[..n], Glue(doc.lines[n], more));
  }

  lemma {:induction false} NormalizeKeepsInk(digit: char -> bool, lines: seq<string>)
    ensures AllInk(Normalize(digit, lines)) == AllInk(lines)
    decreases |lines|
  {
    if lines != [] {
      NormalizeKeepsInk(digit, lines[..|lines| - 1]);
      var was := Fold(digit, lines[..|lines| - 1]);
      DecideCarriesRaw(digit, was, lines[|lines| - 1]);
      MoveKeepsInk(Decide(digit, was, lines[|lines| - 1]), lines[|lines| - 1]);
      ActKeepsInk(was, Decide(digit, was, lines[|lines| - 1]));
    }
  }

  // The exact shape of normalised lines.

  predicate IsFence(line: string) { StartsWith(Strip(line), FENCE) }

  /** A fence is open after these lines: they hold an odd number of fence lines. */
  predicate CodeOpen(lines: seq<string>) {
    lines != [] && CodeOpen(lines[..|lines| - 1]) != IsFence(lines[|lines| - 1])
  }

  /** May this line stand after these lines in a normalised list? */
  predicate NormalLine(digit: char -> bool, front: seq<string>, line: string) {
    if line == "" then
      !AtBreak(front)
    else if IsFence(line) then
      Trim(line)
    else if CodeOpen(front) then
      !Space(line[|line| - 1])
    else
      Trim(line) && (AtBreak(front) || StartsNewBlock(digit, line))
  }

  predicate Normal(digit: char -> bool, lines: seq<string>) {
    lines != [] ==>
      Normal(digit, lines[..|lines| - 1]) && NormalLine(digit, lines[..|lines| - 1], lines[|lines| - 1])
  }

  lemma NormalLineIsAppended(digit: char -> bool, doc: Doc, line: string)
    requires doc.inCode == CodeOpen(doc.lines)
    ensures NormalLine(digit, doc.lines, line) <==> Decide(digit, doc, line) == Append(line, IsFence(line))
  {
    RStripStable(line);
    StripIsTrim(RStrip(line));
    if Trim(line) { TrimIsStable(line); }
    if line != "" && !Space(line[|line| - 1]) { LStripKeepsInk(line); }
  }

  /** A list of lines is left alone by the normaliser exactly when it is in normal form. */
  lemma {:induction false} FixedPointsAreNormal(digit: char -> bool, lines: seq<string>)
    ensures Normalize(digit, lines) == lines <==> Normal(digit, lines)
    ensures Normal(digit, lines) ==> Fold(digit, lines).inCode == CodeOpen(lines)
    decreases |lines|
  {
    if lines != [] {
      var front, last := lines[..|lines| - 1], lines[|lines| - 1];
      var was := Fold(digit, front);
      assert lines == front + [last];
      FixedPointsAreNormal(digit, front);
      if Normalize(digit, lines) == lines {
        FoldIsSettled(digit, lines);
        assert Fixed(digit, Fold(digit, lines).lines, |front|);
        NormalLineIsAppended(digit, was, last);
        ActAppends(was, Decide(digit, was, last), last, Fold(digit, lines).inCode);
        TogglesAtFences(digit, was, last);
      } else if Normal(digit, lines) {
        NormalLineIsAppended(digit, was, last);
      }
    }
  }

  lemma TogglesAtFences(digit: char -> bool, doc: Doc, line: string)
    ensures var m := Decide(digit, doc, line); m.Append? ==> m.toggles == IsFence(line)
  {
    RStripStable(line);
  }

  /** What the normaliser puts out is in normal form. */
  lemma NormalizedIsNormal(digit: char -> bool, lines: seq<string>)
    ensures Normal(digit, Normalize(digit, lines))
  {
    NormalizeIsIdempotent(digit, lines);
    FixedPointsAreNormal(digit, Normalize(digit, lines));
  }

  // What becomes of a paragraph.

  /** The lines of a paragraph in one, a single blank between them. */
  function Flowed(lines: seq<string>): string
    requires lines != []
  {
    if |lines| == 1 then Strip(lines[0]) else Flowed(lines[..|lines| - 1]) + " " + Strip(lines[|lines| - 1])
  }

  /** The first line is not empty and opens no code, and none of the others is empty or starts a block. */
  predicate Paragraph(digit: char -> bool, lines: seq<string>) {
    && lines != [] && Strip(lines[0]) != "" && !StartsWith(Strip(lines[0]), "```")
    && forall i :: 0 < i < |lines| ==> Strip(lines[i]) != "" && !StartsNewBlock(digit, Strip(lines[i]))
  }

  lemma GluesPlainLine(digit: char -> bool, out: seq<string>, line: string, raw: string)
    requires line != "" && Strip(raw) != "" && !StartsNewBlock(digit, Strip(raw))
    ensures Step(digit, Doc(out + [line], false), raw) == Doc(out + [line + " " + Strip(raw)], false)
  {
    RStripStable(raw);
    assert (out + [line])[..|out|] == out;
  }

  lemma AddsFirstLine(digit: char -> bool, doc: Doc, raw: string)
    requires AtBreak(doc.lines) && !doc.inCode && Strip(raw) != "" && !StartsWith(Strip(raw), "```")
    ensures Step(digit, doc, raw) == Doc(doc.lines + [Strip(raw)], false)
  {
    RStripStable(raw);
  }

  /** After a break, a paragraph becomes one line, with a single blank for each line end. */
  lemma {:induction false} ParagraphIsOneLine(digit: char -> bool, before: seq<string>, lines: seq<string>)
    requires Paragraph(digit, lines) && AtBreak(Normalize(digit, before)) && !Fold(digit, before).inCode
    ensures Fold(digit, before + lines) == Doc(Normalize(digit, before) + [Flowed(lines)], false) && Flowed(lines) != ""
    decreases |lines|
  {
    var n := |lines| - 1;
    FoldLast(digit, before, lines);
    if n == 0 {
      assert before + lines[..0] == before;
      AddsFirstLine(digit, Fold(digit, before), lines[0]);
    } else {
      ParagraphIsOneLine(digit, before, lines[..n]);
      GluesPlainLine(digit, Normalize(digit, before), Flowed(lines[..n]), lines[n]);
    }
  }

  lemma FoldTake(digit: char -> bool, lines: seq<string>, k: nat)
    requires k < |lines|
    ensures Fold(digit, lines[..k + 1]) == Step(digit, Fold(digit, lines[..k]), lines[k])
  {
    assert lines[..k + 1] == lines[..k] + [lines[k]];
    FoldSnoc(digit, lines[..k], lines[k]);
  }

  /** The source's loop over the raw lines. */
  method NormalizeDocLines(digit: char -> bool, lines: seq<string>) returns (normalized: seq<string>)
    ensures normalized == Normalize(digit, lines)
  {
    normalized := [];
    var inCode := false;
    for k := 0 to |lines|
      invariant Doc(normalized, inCode) == Fold(digit, lines[..k])
    {
      FoldTake(digit, lines, k);
      var line := RStrip(lines[k]);
      var stripped := Strip(line);
      if stripped == "" {
        if normalized != [] && normalized[|normalized| - 1] != "" {
          normalized := normalized + [""];
        }
        continue;
      }
      if StartsWith(stripped, FENCE) {
        normalized := normalized + [stripped];
        inCode := !inCode;
        continue;
      }
      if inCode {
        normalized := normalized + [line];
        continue;
      }
      if normalized == [] || normalized[|normalized| - 1] == "" {
        normalized := normalized + [stripped];
        continue;
      }
      if StartsNewBlock(digit, stripped) {
        normalized := normalized + [stripped];
        continue;
      }
      normalized := normalized[|normalized| - 1 := normalized[|normalized| - 1] + " " + stripped];
    }
    assert lines[..|lines|] == lines;
  }
}
