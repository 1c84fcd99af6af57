/**
  Which structs a Rust field type holds by value.

  The header generator reads the type as text.  ValueDependencies follows that
  reading; RustType is the grammar of the types it is meant for, and ReadsEveryType
  shows that the text reading of every such type finds exactly the names the type
  holds by value.
*/
module RustTypes {
  import opened Text
  import opened TopLevel

  // The text reading.

  predicate Letter(c: char) { 'a' <= c <= 'z' || 'A' <= c <= 'Z' || c == '_' }

  predicate Word(c: char) { Letter(c) || '0' <= c <= '9' }

  /** Does the array pattern match with its length separator at k? */
  predicate ArrayMark(s: string, k: int) {
    && 2 <= k < |s| && s[0] == '[' && s[k] == ';'
    && (forall i :: 1 <= i < k ==> s[i] != '\n')
    && exists j :: k + 1 < j < |s| && s[j] == ']' && forall m :: k < m < j ==> s[m] != ']'
  }

  /** The last such separator below k, or 0. */
  function LastMark(s: string, k: nat): (r: nat)
    ensures r != 0 ==> r < k && ArrayMark(s, r)
    ensures forall i {:trigger ArrayMark(s, i)} :: r < i < k ==> !ArrayMark(s, i)
  {
    if k == 0 then 0 else if ArrayMark(s, k - 1) then k - 1 else LastMark(s, k - 1)
  }

  /** The first position from i on that holds the character, or the length. */
  function Find(s: string, c: char, i: nat): (r: nat)
    requires i <= |s|
    ensures i <= r <= |s|
    ensures r < |s| ==> s[r] == c
    ensures forall j :: i <= j < r ==> s[j] != c
    decreases |s| - i
  {
    if i == |s| || s[i] == c then i else Find(s, c, i + 1)
  }

  function WordEnd(s: string, i: nat): (r: nat)
    requires i <= |s|
    ensures i <= r <= |s|
    decreases |s| - i
  {
    if i == |s| || !Word(s[i]) then i else WordEnd(s, i + 1)
  }

  /** From i on: segments of word characters, each after a double colon. */
  predicate MoreSegments(s: string, i: nat)
    requires i <= |s|
    decreases |s| - i
  {
    i == |s| || (i + 2 < |s| && s[i] == ':' && s[i + 1] == ':' && Word(s[i + 2]) && MoreSegments(s, WordEnd(s, i + 2)))
  }

  predicate PathText(s: string) { s != "" && Letter(s[0]) && MoreSegments(s, WordEnd(s, 0)) }

  /** The generic pattern: a path, then everything from the first "<" to a final ">". */
  predicate GenericText(s: string) {
    var open := Find(s, '<', 0);
    && open + 2 < |s| && s[|s| - 1] == '>'
    && PathText(s[..open])
    && forall i :: open < i < |s| - 1 ==> s[i] != '\n'
  }

  /** What stands between the first "<" and the final ">". */
  function GenericInner(s: string): (r: string)
    requires GenericText(s)
    ensures |r| <= |s| - 2
  {
    s[Find(s, '<', 0) + 1..|s| - 1]
  }

  /** What follows the last double colon, scanning from the left. */
  function LastSegment(s: string): string
    decreases |s|
  {
    var at := DoubleColon(s, 0);
    if at == |s| then s else LastSegment(s[at + 2..])
  }

  function DoubleColon(s: string, i: nat): (r: nat)
    requires i <= |s|
    ensures r == |s| || (i <= r < |s| - 1 && s[r] == ':' && s[r + 1] == ':')
    decreases |s| - i
  {
    if |s| - i < 2 then |s| else if s[i] == ':' && s[i + 1] == ':' then i else DoubleColon(s, i + 1)
  }

  const PREFIX := "OpenPit"

  function BaseName(s: string): set<string> {
    var base := LastSegment(Strip(s));
    if StartsWith(base, PREFIX) then {base} else {}
  }

  function ValueDependencies(rustType: string): set<string>
    decreases |rustType|, 0
  {
    var s := Strip(rustType);
    if s == "" || StartsWith(s, "*const ") || StartsWith(s, "*mut ") then {}
    else
      var mark := LastMark(s, |s|);
      if mark != 0 && Strip(s[1..mark]) != "" then
        ValueDependencies(Strip(s[1..mark]))
      else if GenericText(s) then
        var chunks := Parts(GenericInner(s), ',');
        PartsAreShort(GenericInner(s), ',');
        AllDependencies(chunks, |s| - 2)
      else
        BaseName(s)
  }

  function AllDependencies(chunks: seq<string>, ghost size: nat): set<string>
    requires forall i :: 0 <= i < |chunks| ==> |chunks[i]| <= size
    decreases size, |chunks| + 1
  {
    if chunks == [] then {} else ValueDependencies(chunks[0]) + AllDependencies(chunks[1..], size)
  }

  lemma {:induction false} PartsAreShort(text: string, d: char)
    ensures forall i :: 0 <= i < |Parts(text, d)| ==> |Parts(text, d)[i]| <= |text|
    decreases |text|
  {
    var cut := FirstCut(text, d, 0);
    if cut < |text| {
      PartsAreShort(text[cut + 1..], d);
    }
  }

  // The grammar.

  datatype RustType =
    | Named(path: seq<string>)
    | Pointer(mutable: bool, target: RustType)
    | Array(element: RustType, length: string)
    | Generic(path: seq<string>, args: seq<RustType>)

  predicate Ident(s: string) { s != "" && Letter(s[0]) && forall i :: 0 <= i < |s| ==> Word(s[i]) }

  predicate IsPath(path: seq<string>) { path != [] && forall i :: 0 <= i < |path| ==> Ident(path[i]) }

  predicate WellFormed(t: RustType) {
    match t
    case Named(path) => IsPath(path)
    case Pointer(_, target) => WellFormed(target)
    case Array(element, length) => WellFormed(element) && length != "" && forall i :: 0 <= i < |length| ==> Word(length[i])
    case Generic(path, args) => IsPath(path) && args != [] && forall i :: 0 <= i < |args| ==> WellFormed(args[i])
  }

  function PathName(path: seq<string>): string
    requires path != []
  {
    if |path| == 1 then path[0] else path[0] + "::" + PathName(path[1..])
  }

  function Render(t: RustType): string
    requires WellFormed(t)
  {
    match t
    case Named(path) => PathName(path)
    case Pointer(mutable, target) => (if mutable then "*mut " else "*const ") + Render(target)
    case Array(element, length) => "[" + Render(element) + "; " + length + "]"
    case Generic(path, args) => PathName(path) + "<" + Join(Arguments(t), ',') + ">"
  }

  /** The rendered arguments: all but the first follow a blank. */
  function Arguments(t: RustType): (r: seq<string>)
    requires t.Generic? && WellFormed(t)
    ensures r != []
    decreases t, 0
  {
    seq(|t.args|, i requires 0 <= i < |t.args| => (if i == 0 then "" else " ") + Render(t.args[i]))
  }

  /** The names of this generator's structs that a type holds by value: a pointer holds none. */
  function Holds(t: RustType): set<string>
    requires WellFormed(t)
  {
    match t
    case Named(path) => if StartsWith(path[|path| - 1], "OpenPit") then {path[|path| - 1]} else {}
    case Pointer(_, _) => {}
    case Array(element, _) => Holds(element)
    case Generic(_, args) => set i, name | 0 <= i < |args| && name in Holds(args[i]) :: name
  }

  // Commas of a rendered type stand inside its own brackets.

  predicate CommasAt(s: string, low: int) {
    forall i {:trigger s[i]} :: 0 <= i < |s| && s[i] == ',' ==> Depth(s[..i]) >= low
  }

  lemma CommasConcat(a: string, b: string, low: int)
    requires CommasAt(a, low) && CommasAt(b, low - Depth(a))
    ensures CommasAt(a + b, low)
    ensures Depth(a + b) == Depth(a) + Depth(b)
  {
    DepthConcat(a, b);
    var s := a + b;
    forall i {:trigger s[i]} | 0 <= i < |s| && s[i] == ',' ensures Depth(s[..i]) >= low {
      if i < |a| {
        assert s[..i] == a[..i] && a[i] == ',';
      } else {
        assert s[..i] == a + b[..i - |a|] && b[i - |a|] == ',';
        DepthConcat(a, b[..i - |a|]);
      }
    }
  }

  lemma {:induction false} PlainDepth(s: string, low: int)
    requires forall i :: 0 <= i < |s| ==> Weight(s[i]) == 0 && s[i] != ','
    ensures Depth(s) == 0 && CommasAt(s, low)
    decreases |s|
  {
    if s != "" { PlainDepth(s[..|s| - 1], low); }
  }

  /** Balanced, with every comma inside brackets. */
  predicate Sheltered(s: string) { Depth(s) == 0 && CommasAt(s, 1) }

  lemma Enclosed(open: string, s: string, close: string)
    requires Depth(open) == 1 && CommasAt(open, 1) && Depth(s) == 0 && CommasAt(s, 0)
    requires Depth(close) == -1 && CommasAt(close, 0)
    ensures Sheltered(open + s + close)
  {
    CommasConcat(open, s, 1);
    CommasConcat(open + s, close, 1);
  }

  lemma CommaJoins(part: string, rest: string)
    requires Sheltered(part) && Depth(rest) == 0 && CommasAt(rest, 0)
    ensures Depth(part + [','] + rest) == 0 && CommasAt(part + [','] + rest, 0)
  {
    OneComma();
    CommasConcat(part, [','], 0);
    CommasConcat(part + [','], rest, 0);
  }

  lemma OneComma()
    ensures Depth([',']) == 0 && CommasAt([','], 0)
  {
    assert [','][..0] == "";
  }

  lemma {:induction false} JoinSheltered(parts: seq<string>)
    requires parts != [] && forall i :: 0 <= i < |parts| ==> Sheltered(parts[i])
    ensures Depth(Join(parts, ',')) == 0 && CommasAt(Join(parts, ','), 0)
    decreases |parts|
  {
    assert Sheltered(parts[0]);
    if |parts| > 1 {
      var rest := parts[1..];
      assert forall i :: 0 <= i < |rest| ==> rest[i] == parts[i + 1];
      JoinSheltered(rest);
      CommaJoins(parts[0], Join(rest, ','));
    }
  }

  // The shape of a rendered type.

  lemma {:induction false} PathShape(path: seq<string>)
    requires IsPath(path)
    ensures var s := PathName(path);
      s != "" && Letter(s[0]) && Word(s[|s| - 1]) && forall i :: 0 <= i < |s| ==> Word(s[i]) || s[i] == ':'
    decreases |path|
  {
    assert Ident(path[0]);
    if |path| > 1 {
      assert forall i :: 0 <= i < |path[1..]| ==> path[1..][i] == path[i + 1];
      PathShape(path[1..]);
    }
  }

  predicate OneLine(s: string) { forall i :: 0 <= i < |s| ==> s[i] != '\n' }

  predicate Tidy(s: string) { s != "" && Trim(s) && OneLine(s) && Sheltered(s) }

  lemma {:induction false} RenderIsTidy(t: RustType)
    requires WellFormed(t)
    ensures Tidy(Render(t))
    decreases t
  {
    match t
    case Named(path) =>
      PathShape(path);
      PlainDepth(PathName(path), 1);
    case Pointer(mutable, target) =>
      RenderIsTidy(target);
      PointerIsTidy(if mutable then "*mut " else "*const ", Render(target));
    case Array(element, length) =>
      RenderIsTidy(element);
      ArrayIsTidy(Render(element), length);
    case Generic(path, args) =>
      forall i | 0 <= i < |args| ensures Tidy(Render(args[i])) { RenderIsTidy(args[i]); }
      ArgumentsAreLoose(t);
      PathShape(path);
      GenericIsTidy(PathName(path), Join(Arguments(t), ','));
  }

  lemma PointerIsTidy(star: string, target: string)
    requires star in ["*mut ", "*const "] && Tidy(target)
    ensures Tidy(star + target)
  {
    PlainDepth(star, 1);
    CommasConcat(star, target, 1);
  }

  lemma ArrayIsTidy(element: string, length: string)
    requires Tidy(element) && forall i :: 0 <= i < |length| ==> Word(length[i])
    ensures Tidy("[" + element + "; " + length + "]")
  {
    ArrayInner(element, length);
    BracketsEnclose(element + ("; " + length));
    ConcatAssociates("[", element, "; ", length);
    assert "[" + (element + ("; " + length)) + "]" == "[" + element + "; " + length + "]" by {
      assert element + ("; " + length) == element + "; " + length;
    }
    ArrayIsTrim(element, length);
  }

  lemma ArrayInner(element: string, length: string)
    requires Tidy(element) && forall i :: 0 <= i < |length| ==> Word(length[i])
    ensures Depth(element + ("; " + length)) == 0 && CommasAt(element + ("; " + length), 0)
  {
    PlainDepth("; " + length, 0);
    CommasConcat(element, "; " + length, 0);
  }

  lemma BracketsEnclose(inner: string)
    requires Depth(inner) == 0 && CommasAt(inner, 0)
    ensures Sheltered("[" + inner + "]")
  {
    OneChar('[', 1);
    OneChar(']', 0);
    Enclosed("[", inner, "]");
  }

  lemma ArrayIsTrim(element: string, length: string)
    requires OneLine(element) && forall i :: 0 <= i < |length| ==> Word(length[i])
    ensures var s := "[" + element + "; " + length + "]"; s != "" && Trim(s) && OneLine(s)
  {
  }

  lemma ArgumentsSheltered(t: RustType)
    requires t.Generic? && WellFormed(t) && forall i :: 0 <= i < |t.args| ==> Tidy(Render(t.args[i]))
    ensures forall i :: 0 <= i < |Arguments(t)| ==> Sheltered(Arguments(t)[i]) && OneLine(Arguments(t)[i])
  {
    forall i | 0 <= i < |t.args| ensures Sheltered(Arguments(t)[i]) && OneLine(Arguments(t)[i]) {
      assert Tidy(Render(t.args[i]));
      PaddedIsSheltered(Render(t.args[i]));
    }
  }

  lemma PaddedIsSheltered(r: string)
    requires Tidy(r)
    ensures Sheltered(" " + r) && OneLine(" " + r) && "" + r == r
  {
    PlainDepth(" ", 1);
    CommasConcat(" ", r, 1);
  }

  lemma {:induction false} JoinOneLine(parts: seq<string>)
    requires parts != [] && forall i :: 0 <= i < |parts| ==> OneLine(parts[i])
    ensures OneLine(Join(parts, ','))
    decreases |parts|
  {
    if |parts| > 1 { JoinOneLine(parts[1..]); }
  }

  lemma ArgumentsAreLoose(t: RustType)
    requires t.Generic? && WellFormed(t) && forall i :: 0 <= i < |t.args| ==> Tidy(Render(t.args[i]))
    ensures var inner := Join(Arguments(t), ','); OneLine(inner) && Depth(inner) == 0 && CommasAt(inner, 0)
  {
    ArgumentsSheltered(t);
    JoinSheltered(Arguments(t));
    JoinOneLine(Arguments(t));
  }

  lemma GenericIsTidy(path: string, inner: string)
    requires path != "" && Letter(path[0]) && forall i :: 0 <= i < |path| ==> Word(path[i]) || path[i] == ':'
    requires OneLine(inner) && Depth(inner) == 0 && CommasAt(inner, 0)
    ensures Tidy(path + "<" + inner + ">")
  {
    GenericOpens(path);
    Enclosed(path + "<", inner, ">");
    GenericIsTrim(path, inner);
  }

  lemma GenericOpens(path: string)
    requires forall i :: 0 <= i < |path| ==> Word(path[i]) || path[i] == ':'
    ensures Depth(path + "<") == 1 && CommasAt(path + "<", 1)
    ensures Depth(">") == -1 && CommasAt(">", 0)
  {
    PlainDepth(path, 1);
    OneChar('<', 1);
    OneChar('>', 0);
    CommasConcat(path, "<", 1);
  }

  lemma OneChar(c: char, low: int)
    requires c != ','
    ensures Depth([c]) == Weight(c) && CommasAt([c], low)
  {
    assert [c][..0] == "";
  }

  lemma GenericIsTrim(path: string, inner: string)
    requires path != "" && Letter(path[0]) && forall i :: 0 <= i < |path| ==> Word(path[i]) || path[i] == ':'
    requires OneLine(inner)
    ensures var s := path + "<" + inner + ">"; s != "" && Trim(s) && OneLine(s)
  {
  }

  // Reading it back.

  lemma {:induction false} WordEndAt(s: string, i: nat, j: nat)
    requires i <= j <= |s| && (forall k :: i <= k < j ==> Word(s[k])) && (j < |s| ==> !Word(s[j]))
    ensures WordEnd(s, i) == j
    decreases j - i
  {
    if i < j { WordEndAt(s, i + 1, j); }
  }

  lemma {:induction false} SegmentsRead(before: string, path: seq<string>)
    requires IsPath(path)
    ensures MoreSegments(before + "::" + PathName(path), |before|)
    decreases |path|
  {
    var s := before + "::" + PathName(path);
    var first := path[0];
    assert Ident(first);
    var next := |before| + 2 + |first|;
    if |path| == 1 {
      assert s == before + "::" + first;
      WordEndAt(s, |before| + 2, next);
    } else {
      assert forall i :: 0 <= i < |path[1..]| ==> path[1..][i] == path[i + 1];
      SegmentsRead(before + "::" + first, path[1..]);
      assert s == before + "::" + first + "::" + PathName(path[1..]);
      assert forall k :: |before| + 2 <= k < next ==> s[k] == first[k - |before| - 2];
      WordEndAt(s, |before| + 2, next);
    }
  }

  lemma PathRead(path: seq<string>)
    requires IsPath(path)
    ensures PathText(PathName(path))
  {
    var s, first := PathName(path), path[0];
    assert Ident(first);
    PathShape(path);
    if |path| == 1 {
      WordEndAt(s, 0, |first|);
    } else {
      assert forall i :: 0 <= i < |path[1..]| ==> path[1..][i] == path[i + 1];
      SegmentsRead(first, path[1..]);
      WordEndAt(s, 0, |first|);
    }
  }

  lemma {:induction false} DoubleColonAt(s: string, i: nat, j: nat)
    requires i <= j <= |s| && (forall k :: i <= k < j ==> s[k] != ':')
    requires j == |s| || (j + 1 < |s| && s[j] == ':' && s[j + 1] == ':')
    ensures DoubleColon(s, i) == j
    decreases j - i
  {
    if i < j { DoubleColonAt(s, i + 1, j); }
  }

  lemma {:induction false} LastSegmentRead(path: seq<string>)
    requires IsPath(path)
    ensures LastSegment(PathName(path)) == path[|path| - 1]
    decreases |path|
  {
    var s, first := PathName(path), path[0];
    assert Ident(first);
    DoubleColonAt(s, 0, |first|);
    if |path| > 1 {
      assert forall i :: 0 <= i < |path[1..]| ==> path[1..][i] == path[i + 1];
      LastSegmentRead(path[1..]);
      assert s[|first| + 2..] == PathName(path[1..]);
    }
  }

  lemma NotArray(s: string, k: nat)
    requires s != "" && s[0] != '[' && k <= |s|
    ensures LastMark(s, k) == 0
  {
    var mark := LastMark(s, k);
    assert mark != 0 ==> ArrayMark(s, mark);
  }

  lemma ArrayRead(element: string, length: string)
    requires Tidy(element) && length != "" && forall i :: 0 <= i < |length| ==> Word(length[i])
    ensures var s := "[" + element + "; " + length + "]";
      LastMark(s, |s|) == |element| + 1 && s[1..|element| + 1] == element
  {
    var s := "[" + element + "; " + length + "]";
    var k, j := |element| + 1, |element| + 3 + |length|;
    assert forall i :: 1 <= i < k ==> s[i] == element[i - 1];
    assert s[k] == ';' && s[k + 1] == ' ' && s[j] == ']' && j + 1 == |s|;
    assert forall m :: k + 2 <= m < j ==> s[m] == length[m - k - 2];
    assert ArrayMark(s, k);
    assert forall i :: k < i < |s| ==> !ArrayMark(s, i);
  }

  lemma GenericRead(path: string, inner: string)
    requires PathText(path) && inner != "" && OneLine(inner)
    requires forall i :: 0 <= i < |path| ==> Word(path[i]) || path[i] == ':'
    ensures var s := path + "<" + inner + ">";
      GenericText(s) && GenericInner(s) == inner
  {
    var s := path + "<" + inner + ">";
    assert s[..|path|] == path && s[|path|] == '<';
    assert forall i :: 0 <= i < |path| ==> s[i] == path[i];
    assert Find(s, '<', 0) == |path|;
    assert forall i :: |path| < i < |s| - 1 ==> s[i] == inner[i - |path| - 1];
  }

  lemma ShelteredIsBalanced(parts: seq<string>)
    requires forall i :: 0 <= i < |parts| ==> Sheltered(parts[i])
    ensures Balanced(parts, ',')
  {
  }

  lemma PaddedIsRead(r: string)
    requires Trim(r)
    ensures Strip("" + r) == r && Strip(" " + r) == r
  {
    assert "" + r == r;
    TrimIsStable(r);
    var s := " " + r;
    if r == "" {
      assert s[..0] == "";
    } else {
      assert s[|s| - 1] == r[|r| - 1];
      assert RStrip(s) == s;
      assert s[1..] == r;
    }
  }

  lemma NamedReads(path: seq<string>, text: string)
    requires IsPath(path) && Strip(text) == PathName(path)
    ensures ValueDependencies(text) == Holds(Named(path))
  {
    var s := PathName(path);
    PathShape(path);
    NotArray(s, |s|);
    LastSegmentRead(path);
    TrimIsStable(s);
    assert s[0] != '*';
    assert !GenericText(s);
  }

  lemma ArrayReads(element: string, length: string, text: string)
    requires Tidy(element) && length != "" && forall i :: 0 <= i < |length| ==> Word(length[i])
    requires Strip(text) == "[" + element + "; " + length + "]"
    ensures ValueDependencies(text) == ValueDependencies(element)
  {
    ArrayRead(element, length);
    TrimIsStable(element);
    assert Strip(text)[0] != '*';
  }

  /** The text of a generic is cut into its arguments. */
  lemma GenericReads(path: string, parts: seq<string>, text: string)
    requires PathText(path) && forall i :: 0 <= i < |path| ==> Word(path[i]) || path[i] == ':'
    requires parts != [] && OneLine(Join(parts, ',')) && Join(parts, ',') != ""
    requires forall i :: 0 <= i < |parts| ==> Sheltered(parts[i])
    requires Strip(text) == path + "<" + Join(parts, ',') + ">"
    ensures exists n :: (forall i :: 0 <= i < |parts| ==> |parts[i]| <= n) && ValueDependencies(text) == AllDependencies(parts, n)
  {
    var inner := Join(parts, ',');
    GenericRead(path, inner);
    GenericStarts(path, inner, text);
    ShelteredIsBalanced(parts);
    SplitOfJoin(parts, ',');
    GenericCase(text, parts);
  }

  lemma GenericStarts(path: string, inner: string, text: string)
    requires PathText(path) && Strip(text) == path + "<" + inner + ">"
    ensures var s := Strip(text);
      s != "" && !StartsWith(s, "*const ") && !StartsWith(s, "*mut ") && LastMark(s, |s|) == 0
  {
    assert Strip(text)[0] == path[0];
    NotArray(Strip(text), |Strip(text)|);
  }

  lemma GenericCase(text: string, parts: seq<string>)
    requires var s := Strip(text);
      s != "" && !StartsWith(s, "*const ") && !StartsWith(s, "*mut ") && LastMark(s, |s|) == 0 && GenericText(s)
      && parts == Parts(GenericInner(s), ',')
    ensures var n := |Strip(text)| - 2;
      (forall i :: 0 <= i < |parts| ==> |parts[i]| <= n) && ValueDependencies(text) == AllDependencies(parts, n)
  {
    GenericPartsAreShort(Strip(text));
  }

  lemma GenericPartsAreShort(s: string)
    requires GenericText(s)
    ensures var parts := Parts(GenericInner(s), ','); forall i :: 0 <= i < |parts| ==> |parts[i]| <= |s| - 2
  {
    PartsAreShort(GenericInner(s), ',');
  }

  lemma {:induction false} AllDependenciesOf(parts: seq<string>, size: nat)
    requires forall i :: 0 <= i < |parts| ==> |parts[i]| <= size
    ensures forall dep :: dep in AllDependencies(parts, size) <==> exists i :: 0 <= i < |parts| && dep in ValueDependencies(parts[i])
    decreases |parts|
  {
    if parts != [] {
      var rest := parts[1..];
      AllDependenciesOf(rest, size);
      forall dep ensures dep in AllDependencies(parts, size) <==> exists i :: 0 <= i < |parts| && dep in ValueDependencies(parts[i]) {
        if i :| 0 <= i < |parts| && dep in ValueDependencies(parts[i]) {
          if i > 0 { assert rest[i - 1] == parts[i]; }
        }
        if dep in AllDependencies(rest, size) {
          var i :| 0 <= i < |rest| && dep in ValueDependencies(rest[i]);
          assert parts[i + 1] == rest[i];
        }
      }
    }
  }

  lemma JoinNotEmpty(parts: seq<string>, d: char)
    requires parts != [] && parts[0] != ""
    ensures Join(parts, d) != ""
  {
  }

  /** The text reading of a rendered type, with any padding, finds exactly the names the type holds by value. */
  lemma {:induction false} ReadsEveryType(t: RustType, text: string)
    requires WellFormed(t) && Strip(text) == Render(t)
    ensures ValueDependencies(text) == Holds(t)
    decreases t
  {
    match t
    case Named(path) => NamedReads(path, text);
    case Pointer(mutable, target) =>
    case Array(element, length) =>
      RenderIsTidy(element);
      ArrayReads(Render(element), length, text);
      TrimIsStable(Render(element));
      ReadsEveryType(element, Render(element));
    case Generic(path, args) =>
      var parts := Arguments(t);
      var n := GenericTypeReads(t, text);
      AllDependenciesOf(parts, n);
      forall i | 0 <= i < |args| ensures ValueDependencies(parts[i]) == Holds(args[i]) {
        RenderIsTidy(args[i]);
        ArgumentIsRead(t, i);
        ReadsEveryType(args[i], parts[i]);
      }
  }

  lemma ArgumentIsRead(t: RustType, i: nat)
    requires t.Generic? && WellFormed(t) && i < |t.args| && Tidy(Render(t.args[i]))
    ensures Strip(Arguments(t)[i]) == Render(t.args[i])
  {
    PaddedIsRead(Render(t.args[i]));
    assert Arguments(t)[i] == (if i == 0 then "" else " ") + Render(t.args[i]);
  }

  lemma GenericTypeReads(t: RustType, text: string) returns (n: nat)
    requires t.Generic? && WellFormed(t) && Strip(text) == Render(t)
    ensures forall i :: 0 <= i < |Arguments(t)| ==> |Arguments(t)[i]| <= n
    ensures ValueDependencies(text) == AllDependencies(Arguments(t), n)
  {
    var parts, path, args := Arguments(t), t.path, t.args;
    forall i | 0 <= i < |args| ensures Tidy(Render(args[i])) { RenderIsTidy(args[i]); }
    ArgumentsAreLoose(t);
    ArgumentsSheltered(t);
    JoinNotEmpty(parts, ',');
    PathShape(path);
    PathRead(path);
    GenericReads(PathName(path), parts, text);
    n :| (forall i :: 0 <= i < |parts| ==> |parts[i]| <= n) && ValueDependencies(text) == AllDependencies(parts, n);
  }

  // Outside the grammar.

  lemma {:induction false} LastSegmentEnds(s: string)
    requires s != "" && s[|s| - 1] != ':'
    ensures LastSegment(s) != "" && LastSegment(s)[|LastSegment(s)| - 1] == s[|s| - 1]
    decreases |s|
  {
    var at := DoubleColon(s, 0);
    if at < |s| {
      LastSegmentEnds(s[at + 2..]);
    }
  }

  /** The text of a tuple is never cut: whatever structs it holds by value, none of the names read
      from it is one. */
  lemma TupleHidesNames(text: string, name: string)
    requires Strip(text) != "" && Strip(text)[0] == '(' && Strip(text)[|Strip(text)| - 1] == ')'
    requires name in ValueDependencies(text)
    ensures !Ident(name)
  {
    var s := Strip(text);
    StripIsTrim(text);
    TrimIsStable(s);
    NotArray(s, |s|);
    assert !GenericText(s);
    assert name in BaseName(s);
    LastSegmentEnds(s);
  }

  lemma ReferencePrefix(first: string, rest: string)
    requires Ident(first)
    ensures var s := "&" + first + "::" + rest; DoubleColon(s, 0) == |first| + 1 && s[|first| + 3..] == rest
    ensures DoubleColon("&" + first, 0) == |"&" + first|
  {
    var s := "&" + first + "::" + rest;
    assert s[0] == '&' && forall k :: 1 <= k <= |first| ==> s[k] == first[k - 1];
    DoubleColonAt(s, 0, |first| + 1);
    DoubleColonAt("&" + first, 0, |"&" + first|);
  }

  lemma ConcatAssociates<T>(a: seq<T>, b: seq<T>, c: seq<T>, d: seq<T>)
    ensures a + (b + c + d) == a + b + c + d
  {
  }

  lemma ShortReference(first: string)
    requires Ident(first)
    ensures ValueDependencies("&" + first) == {}
  {
    var s := "&" + first;
    ReferencePrefix(first, "");
    assert s[|s| - 1] == first[|first| - 1] && s[0] == '&';
    ReferenceCase(s);
    assert LastSegment(s) == s;
  }

  lemma LongReference(first: string, rest: seq<string>)
    requires Ident(first) && IsPath(rest)
    ensures ValueDependencies("&" + first + "::" + PathName(rest)) == Holds(Named(rest))
  {
    var s := "&" + first + "::" + PathName(rest);
    PathShape(rest);
    assert s[|s| - 1] == PathName(rest)[|PathName(rest)| - 1] && s[0] == '&';
    ReferenceCase(s);
    ReferencePrefix(first, PathName(rest));
    LastSegmentRead(rest);
  }

  /** A text that starts like a reference and ends in a word is read by its last segment. */
  lemma ReferenceCase(s: string)
    requires s != "" && s[0] == '&' && Word(s[|s| - 1])
    ensures ValueDependencies(s) == if StartsWith(LastSegment(s), PREFIX) then {LastSegment(s)} else {}
  {
    TrimIsStable(s);
    NotArray(s, |s|);
    assert !GenericText(s);
  }

  /** A reference to a path of one segment is read as holding nothing; a reference to any longer path
      is read as the path itself, which is also how the header then writes it. So nothing is read if
      and only if the path has one segment or its last one lacks the prefix. */
  lemma ReferencesRead(path: seq<string>)
    requires IsPath(path)
    ensures ValueDependencies("&" + PathName(path)) == if |path| == 1 then {} else Holds(Named(path))
    ensures ValueDependencies("&" + PathName(path)) == {} <==> |path| == 1 || !StartsWith(path[|path| - 1], PREFIX)
  {
    assert Ident(path[0]);
    if |path| == 1 {
      ShortReference(path[0]);
    } else {
      ReferenceText(path);
      IsPathTail(path);
      LongReference(path[0], path[1..]);
      SameLast(path, path[1..]);
    }
  }

  lemma ReferenceText(path: seq<string>)
    requires |path| > 1
    ensures "&" + PathName(path) == "&" + path[0] + "::" + PathName(path[1..])
  {
    ConcatAssociates("&", path[0], "::", PathName(path[1..]));
  }

  lemma IsPathTail(path: seq<string>)
    requires IsPath(path) && |path| > 1
    ensures IsPath(path[1..]) && path[1..][|path| - 2] == path[|path| - 1]
  {
    assert forall i :: 0 <= i < |path| - 1 ==> path[1..][i] == path[i + 1];
  }

  lemma SameLast(path: seq<string>, rest: seq<string>)
    requires IsPath(path) && IsPath(rest) && rest[|rest| - 1] == path[|path| - 1]
    ensures Holds(Named(rest)) == Holds(Named(path))
    ensures Holds(Named(path)) == {} <==> !StartsWith(path[|path| - 1], PREFIX)
  {
    var last := path[|path| - 1];
    assert last in {last};
  }

}
