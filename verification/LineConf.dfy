/**
 * The line-preserving `key=value` format shared by the hostapd, nanodhcp and
 * nanodns configuration files.  The three parsers differ only in how a value is
 * cleaned (`clean`): kept as it is, trimmed, or trimmed and unquoted.
 */
module LineConf {
  import opened Results
  import opened Text

  datatype Line = Raw(text: string) | Pair(key: string, value: string)

  function Render(l: Line): string {
    match l
    case Raw(text) => text
    case Pair(key, value) => key + "=" + value
  }

  /** Blank lines and comments. */
  predicate IsComment(line: string) {
    TrimStart(line) == "" || TrimStart(line)[0] == '#'
  }

  function ParseLine(line: string, clean: string -> string): Line {
    if IsComment(line) then Raw(line)
    else
      match SplitOnce(line, '=')
      case Some((key, value)) => Pair(Trim(key), clean(value))
      case None => Raw(line)
  }

  function ParseAll(ls: seq<string>, clean: string -> string): (r: seq<Line>)
    ensures |r| == |ls| && forall i | 0 <= i < |ls| :: r[i] == ParseLine(ls[i], clean)
  {
    seq(|ls|, i requires 0 <= i < |ls| => ParseLine(ls[i], clean))
  }

  function RenderAll(lines: seq<Line>): (r: seq<string>)
    ensures |r| == |lines| && forall i | 0 <= i < |lines| :: r[i] == Render(lines[i])
  {
    seq(|lines|, i requires 0 <= i < |lines| => Render(lines[i]))
  }

  // ------------------------------------------------------ looking up and editing

  predicate Matches(l: Line, key: string) {
    l.Pair? && l.key == key
  }

  predicate HasKey(lines: seq<Line>, key: string) {
    exists i | 0 <= i < |lines| :: Matches(lines[i], key)
  }

  /** Value of the first pair with this key. */
  function Lookup(lines: seq<Line>, key: string): Option<string> {
    if lines == [] then None
    else if Matches(lines[0], key) then Some(lines[0].value)
    else Lookup(lines[1..], key)
  }

  /** Values of all pairs with this key, in order. */
  function LookupAll(lines: seq<Line>, key: string): seq<string> {
    if lines == [] then []
    else (if Matches(lines[0], key) then [lines[0].value] else []) + LookupAll(lines[1..], key)
  }

  /** Index of the first pair with this key, or `|lines|`. */
  function IndexOf(lines: seq<Line>, key: string): (i: nat)
    ensures i <= |lines|
    ensures i < |lines| ==> Matches(lines[i], key)
    ensures forall j | 0 <= j < i :: !Matches(lines[j], key)
  {
    if lines == [] || Matches(lines[0], key) then 0 else 1 + IndexOf(lines[1..], key)
  }

  /** What setting a key means: the first pair with it changes its value, or a pair is added at the end. */
  function Assign(lines: seq<Line>, key: string, value: string): seq<Line> {
    var i := IndexOf(lines, key);
    if i < |lines| then lines[i := Pair(key, value)] else lines + [Pair(key, value)]
  }

  /** The lines that satisfy no removal condition, in order. */
  function Without(lines: seq<Line>, drop: Line -> bool): seq<Line> {
    if lines == [] then []
    else (if drop(lines[0]) then [] else [lines[0]]) + Without(lines[1..], drop)
  }

  function KeyIs(key: string): Line -> bool {
    l => Matches(l, key)
  }

  function PairIs(key: string, value: string): Line -> bool {
    l => l == Pair(key, value)
  }

  /** `set`: update the first match in place or append. */
  method SetLine(lines: seq<Line>, key: string, value: string) returns (r: seq<Line>)
    ensures r == Assign(lines, key, value)
  {
    var i := 0;
    while i < |lines|
      invariant 0 <= i <= |lines|
      invariant forall j | 0 <= j < i :: !Matches(lines[j], key)
    {
      if Matches(lines[i], key) {
        assert IndexOf(lines, key) == i;
        return lines[i := Pair(key, value)];
      }
      i := i + 1;
    }
    r := lines + [Pair(key, value)];
  }

  lemma {:induction false} WithoutSplit(a: seq<Line>, b: seq<Line>, drop: Line -> bool)
    ensures Without(a + b, drop) == Without(a, drop) + Without(b, drop)
  {
    if a == [] {
      assert a + b == b;
    } else {
      assert (a + b)[1..] == a[1..] + b;
      WithoutSplit(a[1..], b, drop);
    }
  }

  /** `retain` with the negation of `drop`. */
  method Retain(lines: seq<Line>, drop: Line -> bool) returns (r: seq<Line>)
    ensures r == Without(lines, drop)
  {
    r := [];
    for i := 0 to |lines|
      invariant r == Without(lines[..i], drop)
    {
      assert lines[..i + 1] == lines[..i] + [lines[i]];
      WithoutSplit(lines[..i], [lines[i]], drop);
      if !drop(lines[i]) {
        r := r + [lines[i]];
      }
    }
    assert lines[..|lines|] == lines;
  }

  /** `get_all` */
  method AllValues(lines: seq<Line>, key: string) returns (r: seq<string>)
    ensures r == LookupAll(lines, key)
  {
    r := [];
    for i := 0 to |lines|
      invariant r == LookupAll(lines[..i], key)
    {
      assert lines[..i + 1] == lines[..i] + [lines[i]];
      LookupAllSplit(lines[..i], [lines[i]], key);
      if Matches(lines[i], key) {
        r := r + [lines[i].value];
      }
    }
    assert lines[..|lines|] == lines;
  }

  /** What the values that parse are, in order; others are skipped. */
  function FilterMap<T>(values: seq<string>, parse: string -> Option<T>): seq<T> {
    if values == [] then []
    else
      match parse(values[0])
      case Some(x) => [x] + FilterMap(values[1..], parse)
      case None => FilterMap(values[1..], parse)
  }

  /** `filter_map` */
  method Collect<T>(values: seq<string>, parse: string -> Option<T>) returns (r: seq<T>)
    ensures r == FilterMap(values, parse)
  {
    r := [];
    for i := 0 to |values|
      invariant r == FilterMap(values[..i], parse)
    {
      FilterMapSnoc(values[..i], values[i], parse);
      assert values[..i + 1] == values[..i] + [values[i]];
      match parse(values[i])
      case Some(x) => r := r + [x];
      case None =>
    }
    assert values[..|values|] == values;
  }

  lemma {:induction false} FilterMapSplit<T>(a: seq<string>, b: seq<string>, parse: string -> Option<T>)
    ensures FilterMap(a + b, parse) == FilterMap(a, parse) + FilterMap(b, parse)
  {
    if a == [] {
      assert a + b == b;
    } else {
      assert (a + b)[1..] == a[1..] + b;
      FilterMapSplit(a[1..], b, parse);
    }
  }

  lemma FilterMapSnoc<T>(values: seq<string>, value: string, parse: string -> Option<T>)
    ensures FilterMap(values + [value], parse)
            == match parse(value) case Some(x) => FilterMap(values, parse) + [x] case None => FilterMap(values, parse)
  {
    FilterMapSplit(values, [value], parse);
    assert FilterMap([value][1..], parse) == [];
  }

  lemma {:induction false} FilterMapIn<T>(values: seq<string>, x: T, parse: string -> Option<T>)
    ensures x in FilterMap(values, parse) <==> exists v :: v in values && parse(v) == Some(x)
  {
    if values != [] {
      FilterMapIn(values[1..], x, parse);
      if x in FilterMap(values, parse) {
        if x in FilterMap(values[1..], parse) {
          var v :| v in values[1..] && parse(v) == Some(x);
          assert v in values && parse(v) == Some(x);
        } else {
          assert values[0] in values && parse(values[0]) == Some(x);
        }
      }
    }
  }

  // ----------------------------------------------------- laws of looking up

  lemma {:induction false} LookupIndex(lines: seq<Line>, key: string)
    ensures Lookup(lines, key) == (var i := IndexOf(lines, key); if i < |lines| then Some(lines[i].value) else None)
  {
    if lines != [] && !Matches(lines[0], key) {
      LookupIndex(lines[1..], key);
    }
  }

  /** Setting one key is seen by that key alone. */
  lemma LookupAssign(lines: seq<Line>, key: string, value: string, other: string)
    ensures Lookup(Assign(lines, key, value), other) == if other == key then Some(value) else Lookup(lines, other)
  {
    var lines' := Assign(lines, key, value);
    LookupIndex(lines, other);
    LookupIndex(lines', other);
    var i, k, k' := IndexOf(lines, key), IndexOf(lines, other), IndexOf(lines', other);
    if other == key {
      assert Matches(lines'[i], key);
      assert k' == i;
    } else {
      assert forall j | 0 <= j < |lines| :: Matches(lines'[j], other) <==> Matches(lines[j], other);
      if k < |lines| {
        assert k' == k;
      }
    }
  }

  /** What setting a key leaves alone: every line but the first match, and the order of all. */
  lemma AssignFrame(lines: seq<Line>, key: string, value: string)
    ensures |lines| <= |Assign(lines, key, value)| <= |lines| + 1
    ensures forall j | 0 <= j < |lines| && j != IndexOf(lines, key) :: Assign(lines, key, value)[j] == lines[j]
    ensures forall j | 0 <= j < |Assign(lines, key, value)| && Assign(lines, key, value)[j] !in lines ::
              Assign(lines, key, value)[j] == Pair(key, value)
  {
  }

  lemma {:induction false} LookupWithoutKey(lines: seq<Line>, key: string, other: string)
    ensures Lookup(Without(lines, KeyIs(key)), other) == if other == key then None else Lookup(lines, other)
  {
    if lines != [] {
      LookupWithoutKey(lines[1..], key, other);
      var rest := Without(lines[1..], KeyIs(key));
      if Matches(lines[0], key) {
        assert Without(lines, KeyIs(key)) == [] + rest == rest;
      } else {
        assert ([lines[0]] + rest)[1..] == rest;
      }
    }
  }

  lemma {:induction false} LookupSplit(a: seq<Line>, b: seq<Line>, key: string)
    ensures Lookup(a + b, key) == if Lookup(a, key).Some? then Lookup(a, key) else Lookup(b, key)
  {
    if a == [] {
      assert a + b == b;
    } else {
      assert (a + b)[1..] == a[1..] + b;
      LookupSplit(a[1..], b, key);
    }
  }

  lemma {:induction false} WithoutKeeps(lines: seq<Line>, drop: Line -> bool)
    ensures forall l | l in Without(lines, drop) :: l in lines && !drop(l)
  {
    if lines != [] {
      WithoutKeeps(lines[1..], drop);
    }
  }

  lemma {:induction false} LookupAllSplit(a: seq<Line>, b: seq<Line>, key: string)
    ensures LookupAll(a + b, key) == LookupAll(a, key) + LookupAll(b, key)
  {
    if a == [] {
      assert a + b == b;
    } else {
      assert (a + b)[1..] == a[1..] + b;
      LookupAllSplit(a[1..], b, key);
    }
  }

  // ----------------------------------------------------- round trip of one line

  /** Lines a parser can produce: a raw line is no pair, a key is trimmed, has no `=` and opens no comment. */
  predicate LineOk(l: Line) {
    match l
    case Raw(text) => IsComment(text) || '=' !in text
    case Pair(key, _) => Trimmed(key) && '=' !in key && (key == "" || key[0] != '#')
  }

  /** The key of a line that is no comment opens no comment. */
  lemma KeyOpensNoComment(key: string, rest: string)
    requires !IsComment(key + rest)
    ensures Trim(key) == "" || Trim(key)[0] != '#'
  {
    TrimStartPrefix(key, rest);
    TrimHead(key);
  }

  lemma ParsedLineOk(line: string, clean: string -> string)
    ensures LineOk(ParseLine(line, clean))
  {
    if !IsComment(line) {
      match SplitOnce(line, '=')
      case None =>
      case Some((key, value)) =>
        assert line == key + ("=" + value);
        KeyOpensNoComment(key, "=" + value);
        TrimTrimmed(key);
        TrimPiece(key);
    }
  }

  /** If something but white space is left of `a`, trimming `a + b` starts where trimming `a` starts. */
  lemma {:induction false} TrimStartPrefix(a: string, b: string)
    ensures TrimStart(a) != "" ==> TrimStart(a + b) == TrimStart(a) + b
    ensures TrimStart(a) == "" ==> TrimStart(a + b) == TrimStart(b)
    decreases |a|
  {
    if a == "" {
      assert a + b == b;
    } else if IsSpace(a[0]) {
      assert (a + b)[1..] == a[1..] + b;
      TrimStartPrefix(a[1..], b);
    }
  }

  lemma KeyLineIsNoComment(key: string, value: string)
    requires Trimmed(key) && (key == "" || key[0] != '#')
    ensures !IsComment(key + "=" + value)
  {
    var line := key + "=" + value;
    assert line[0] == if key == "" then '=' else key[0];
    assert TrimStart(line) == line;
  }

  /** A well-formed line reads back as itself, up to cleaning its value once more. */
  lemma ReparseLine(l: Line, clean: string -> string)
    requires LineOk(l)
    ensures ParseLine(Render(l), clean) == if l.Pair? then Pair(l.key, clean(l.value)) else l
  {
    match l
    case Raw(_) =>
    case Pair(key, value) =>
      KeyLineIsNoComment(key, value);
      SplitOnceAt(key, '=', value);
      TrimTrimmed(key);
  }

  /** The same after a final carriage return is lost. */
  function DropCr(l: Line): Line {
    match l
    case Raw(text) => Raw(StripCr(text))
    case Pair(key, value) => Pair(key, StripCr(value))
  }

  /** The beginning of a comment is a comment. */
  lemma CommentPrefix(a: string, b: string)
    requires IsComment(a + b)
    ensures IsComment(a)
  {
    TrimStartPrefix(a, b);
  }

  lemma DropCrRenders(l: Line)
    requires LineOk(l)
    ensures LineOk(DropCr(l)) && Render(DropCr(l)) == StripCr(Render(l))
  {
    match l
    case Raw(text) =>
      var a := StripCr(text);
      if IsComment(text) && a != text {
        assert text == a + [text[|text| - 1]];
        CommentPrefix(a, [text[|text| - 1]]);
      }
    case Pair(key, value) =>
      assert value != "" ==> Render(l)[..|Render(l)| - 1] == key + "=" + value[..|value| - 1];
  }

  /** What a line becomes when it is written with `writeln!` and read again. */
  function Reread(l: Line, clean: string -> string): Line {
    match l
    case Raw(text) => Raw(StripCr(text))
    case Pair(key, value) => Pair(key, clean(StripCr(value)))
  }

  lemma RereadLine(l: Line, clean: string -> string)
    requires LineOk(l)
    ensures ParseLine(StripCr(Render(l)), clean) == Reread(l, clean)
  {
    DropCrRenders(l);
    ReparseLine(DropCr(l), clean);
  }

  function RereadAll(lines: seq<Line>, clean: string -> string): (r: seq<Line>)
    ensures |r| == |lines| && forall i | 0 <= i < |lines| :: r[i] == Reread(lines[i], clean)
  {
    seq(|lines|, i requires 0 <= i < |lines| => Reread(lines[i], clean))
  }

  predicate OneLine(l: Line) {
    '\n' !in Render(l)
  }

  /** Lines as a parser leaves them: well formed and without a line break inside. */
  predicate LinesOk(lines: seq<Line>) {
    forall l | l in lines :: LineOk(l) && OneLine(l)
  }

  /** `Display` of the nanodhcp and nanodns files: every line followed by a newline. */
  function Print(lines: seq<Line>): string {
    Unlines(RenderAll(lines))
  }

  /** The write loop of `Display`. */
  method Write(lines: seq<Line>) returns (out: string)
    ensures out == Print(lines)
  {
    out := "";
    ghost var all := RenderAll(lines);
    for i := 0 to |lines|
      invariant out == Unlines(all[..i])
    {
      UnlinesSnoc(all[..i], all[i]);
      assert all[..i + 1] == all[..i] + [all[i]];
      out := out + Render(lines[i]) + "\n";
    }
    assert all[..|lines|] == all;
  }

  /** Parsing of a whole text. */
  function Parse(text: string, clean: string -> string): seq<Line> {
    ParseAll(Lines(text), clean)
  }

  /** Writing and reading again rereads every line and keeps their number and order. */
  lemma ParsePrint(lines: seq<Line>, clean: string -> string)
    requires LinesOk(lines)
    ensures Parse(Print(lines), clean) == RereadAll(lines, clean)
  {
    var out := RenderAll(lines);
    assert forall i | 0 <= i < |lines| :: lines[i] in lines;
    LinesOfUnlines(out);
    forall i | 0 <= i < |lines|
      ensures ParseLine(StripCr(out[i]), clean) == Reread(lines[i], clean)
    {
      RereadLine(lines[i], clean);
    }
  }

  /** Cleaning that brings in no line break. */
  ghost predicate CleansPieces(clean: string -> string) {
    forall v :: '\n' in clean(v) ==> '\n' in v
  }

  lemma ParsedLinesOk(text: string, clean: string -> string)
    requires CleansPieces(clean)
    ensures LinesOk(Parse(text, clean))
  {
    var ls := Lines(text);
    LinesHaveNoNewline(text);
    forall i | 0 <= i < |ls|
      ensures LineOk(Parse(text, clean)[i]) && OneLine(Parse(text, clean)[i])
    {
      ParsedLineOk(ls[i], clean);
      assert ls[i] in ls;
      if Parse(text, clean)[i].Pair? {
        TrimPiece(SplitOnce(ls[i], '=').value.0);
      }
    }
  }

  lemma AssignLinesOk(lines: seq<Line>, key: string, value: string)
    requires LinesOk(lines) && LineOk(Pair(key, value)) && '\n' !in key && '\n' !in value
    ensures LinesOk(Assign(lines, key, value))
  {
  }

  lemma {:induction false} LookupReread(lines: seq<Line>, clean: string -> string, key: string)
    ensures Lookup(RereadAll(lines, clean), key)
            == match Lookup(lines, key) case None => None case Some(v) => Some(clean(StripCr(v)))
  {
    if lines != [] {
      assert RereadAll(lines, clean)[1..] == RereadAll(lines[1..], clean);
      LookupReread(lines[1..], clean, key);
    }
  }

  /** Values after one more round through the file. */
  function RereadValues(vs: seq<string>, clean: string -> string): (r: seq<string>)
    ensures |r| == |vs| && forall i | 0 <= i < |vs| :: r[i] == clean(StripCr(vs[i]))
  {
    seq(|vs|, i requires 0 <= i < |vs| => clean(StripCr(vs[i])))
  }

  lemma {:induction false} LookupAllReread(lines: seq<Line>, clean: string -> string, key: string)
    ensures LookupAll(RereadAll(lines, clean), key) == RereadValues(LookupAll(lines, key), clean)
  {
    if lines != [] {
      assert RereadAll(lines, clean)[1..] == RereadAll(lines[1..], clean);
      LookupAllReread(lines[1..], clean, key);
      if Matches(lines[0], key) {
        assert LookupAll(lines, key) == [lines[0].value] + LookupAll(lines[1..], key);
      }
    }
  }

  // ----------------------------------------------------- values with line breaks

  /** The lines of the file that one line of the object becomes, read again: a first one, and one for each line break. */
  function PiecesOf(l: Line, clean: string -> string): (r: seq<Line>)
    ensures |r| >= 1
  {
    ParseAll(StripAll(Split(Render(l), '\n')), clean)
  }

  function AllPieces(lines: seq<Line>, clean: string -> string): seq<Line> {
    if lines == [] then [] else PiecesOf(lines[0], clean) + AllPieces(lines[1..], clean)
  }

  lemma {:induction false} AllPiecesSplit(a: seq<Line>, b: seq<Line>, clean: string -> string)
    ensures AllPieces(a + b, clean) == AllPieces(a, clean) + AllPieces(b, clean)
  {
    if a == [] {
      assert a + b == b;
    } else {
      assert (a + b)[1..] == a[1..] + b;
      AllPiecesSplit(a[1..], b, clean);
    }
  }

  function Flat(lines: seq<Line>): seq<string> {
    if lines == [] then [] else Split(Render(lines[0]), '\n') + Flat(lines[1..])
  }

  lemma PrintCons(l: Line, rest: seq<Line>)
    ensures Print([l] + rest) == Render(l) + "\n" + Print(rest)
  {
    assert RenderAll([l] + rest) == [Render(l)] + RenderAll(rest);
    assert RenderAll([l] + rest)[1..] == RenderAll(rest);
  }

  lemma {:induction false} PrintFlat(lines: seq<Line>)
    ensures Unlines(Flat(lines)) == Print(lines)
    ensures forall p | p in Flat(lines) :: '\n' !in p
  {
    if lines != [] {
      PrintFlat(lines[1..]);
      UnlinesSplit(Split(Render(lines[0]), '\n'), Flat(lines[1..]));
      UnlinesPieces(Render(lines[0]));
      SplitFree(Render(lines[0]), '\n');
      PrintCons(lines[0], lines[1..]);
      assert lines == [lines[0]] + lines[1..];
    }
  }

  lemma ParseAllSplit(a: seq<string>, b: seq<string>, clean: string -> string)
    ensures ParseAll(StripAll(a + b), clean) == ParseAll(StripAll(a), clean) + ParseAll(StripAll(b), clean)
  {
    assert StripAll(a + b) == StripAll(a) + StripAll(b);
  }

  lemma {:induction false} ParseFlat(lines: seq<Line>, clean: string -> string)
    ensures ParseAll(StripAll(Flat(lines)), clean) == AllPieces(lines, clean)
  {
    if lines != [] {
      ParseFlat(lines[1..], clean);
      ParseAllSplit(Split(Render(lines[0]), '\n'), Flat(lines[1..]), clean);
    }
  }

  /** Reading what was written, whatever the values hold. */
  lemma LoadsPieces(lines: seq<Line>, clean: string -> string)
    ensures Parse(Print(lines), clean) == AllPieces(lines, clean)
  {
    PrintFlat(lines);
    LinesOfUnlines(Flat(lines));
    ParseFlat(lines, clean);
  }

  /** What is read of two groups of lines is what is read of each. */
  lemma LoadsParts(a: seq<Line>, b: seq<Line>, clean: string -> string)
    ensures Parse(Print(a + b), clean) == Parse(Print(a), clean) + Parse(Print(b), clean)
  {
    LoadsPieces(a, clean);
    LoadsPieces(b, clean);
    LoadsPieces(a + b, clean);
    AllPiecesSplit(a, b, clean);
  }

  /** Lines as they are in the object after an edit: only a value can hold a line break. */
  predicate KeyedOk(l: Line) {
    LineOk(l) && match l case Raw(text) => '\n' !in text case Pair(key, _) => '\n' !in key
  }

  predicate AllKeyed(lines: seq<Line>) {
    forall l | l in lines :: KeyedOk(l)
  }

  lemma OneLineKeyed(core: seq<Line>)
    requires LinesOk(core)
    ensures AllKeyed(core)
  {
    forall l | l in core
      ensures KeyedOk(l)
    {
      KeyIsWritten(l);
    }
  }

  lemma KeyIsWritten(l: Line)
    ensures l.Pair? && '\n' in l.key ==> '\n' in Render(l)
  {
    if l.Pair? && '\n' in l.key {
      var i :| 0 <= i < |l.key| && l.key[i] == '\n';
      assert Render(l)[i] == '\n';
    }
  }
}
