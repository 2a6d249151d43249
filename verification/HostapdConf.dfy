/**
 * `hostapd.conf`: an ordered list of lines, edited in place, that remembers
 * whether the file ended with a newline.
 */
module HostapdConf {
  import opened Results
  import opened Text
  import opened Numbers
  import opened LineConf
  import WifiSettings

  const KEY_INTERFACE := "interface"
  const KEY_SSID := "ssid"
  const KEY_PASSPHRASE := "wpa_passphrase"
  const KEY_COUNTRY := "country_code"
  const KEY_CHANNEL := "channel"

  /** The value of the object: its lines and the final newline. */
  datatype Content = Content(lines: seq<Line>, trailing: bool)

  /** Values are kept as they are. */
  function Keep(v: string): string {
    v
  }

  predicate EndsWith(s: string, c: char) {
    s != "" && s[|s| - 1] == c
  }

  function ParseConf(text: string): Content {
    Content(Parse(text, Keep), EndsWith(text, '\n'))
  }

  function PrintConf(c: Content): string {
    Join(RenderAll(c.lines), '\n') + (if c.trailing then "\n" else "")
  }

  function SetConf(c: Content, key: string, value: string): Content {
    Content(Assign(c.lines, key, value), c.trailing || !HasKey(c.lines, key))
  }

  function ApplyConf(c: Content, s: WifiSettings.Settings): Content {
    SetConf(SetConf(SetConf(SetConf(c, KEY_SSID, s.ssid), KEY_PASSPHRASE, s.passphrase), KEY_COUNTRY, s.countryCode),
            KEY_CHANNEL, Show(s.channel))
  }

  function RemoveConf(c: Content, key: string): Content {
    Content(Without(c.lines, KeyIs(key)), c.trailing)
  }

  class HostapdConf {
    var lines: seq<Line>
    var trailingNewline: bool

    function View(): Content
      reads this
    {
      Content(lines, trailingNewline)
    }

    constructor (content: string)
      ensures View() == ParseConf(content)
    {
      lines := Parse(content, Keep);
      trailingNewline := EndsWith(content, '\n');
    }

    method Set(key: string, value: string)
      modifies this
      ensures View() == SetConf(old(View()), key, value)
    {
      var found := IndexOf(lines, key) < |lines|;
      assert found <==> HasKey(lines, key);
      lines := SetLine(lines, key, value);
      if !found {
        trailingNewline := true;
      }
    }

    method Apply(s: WifiSettings.Settings)
      modifies this
      ensures View() == ApplyConf(old(View()), s)
    {
      Set(KEY_SSID, s.ssid);
      Set(KEY_PASSPHRASE, s.passphrase);
      Set(KEY_COUNTRY, s.countryCode);
      Set(KEY_CHANNEL, Show(s.channel));
    }

    method RemoveKey(key: string)
      modifies this
      ensures View() == RemoveConf(old(View()), key)
    {
      lines := Retain(lines, KeyIs(key));
    }

    function Get(key: string): Option<string>
      reads this
    {
      Lookup(lines, key)
    }

    /** `Display` */
    method Display() returns (out: string)
      ensures out == PrintConf(View())
    {
      out := "";
      var all := RenderAll(lines);
      for i := 0 to |lines|
        invariant out == Join(all[..i], '\n')
      {
        JoinNext(all, i, '\n');
        if i > 0 {
          out := out + "\n";
        }
        out := out + Render(lines[i]);
      }
      assert all[..|lines|] == all;
      if trailingNewline {
        out := out + "\n";
      }
    }
  }

  lemma JoinNext(parts: seq<string>, i: nat, c: char)
    requires i < |parts|
    ensures Join(parts[..i + 1], c) == Join(parts[..i], c) + (if i > 0 then [c] else "") + parts[i]
  {
    if i > 0 {
      assert parts[..i + 1][..i] == parts[..i];
      JoinLast(parts[..i + 1], c);
    }
  }

  // ------------------------------------------------------------ print after parse

  /** What one physical line is written back as. */
  function Rewritten(line: string): string {
    Render(ParseLine(line, Keep))
  }

  /** A line whose key, if it has one, carries no white space around it. */
  predicate Unpadded(line: string) {
    IsComment(line) || '=' !in line || Trimmed(SplitOnce(line, '=').value.0)
  }

  lemma RewrittenShape(line: string, key: string, value: string)
    requires !IsComment(line) && SplitOnce(line, '=') == Some((key, value))
    ensures Rewritten(line) == Trim(key) + ("=" + value) && line == key + ("=" + value)
  {
    ParsedPair(line, key, value, Keep);
    PairText(Trim(key), value);
    PairText(key, value);
  }

  lemma ParsedPair(line: string, key: string, value: string, clean: string -> string)
    requires !IsComment(line) && SplitOnce(line, '=') == Some((key, value))
    ensures ParseLine(line, clean) == Pair(Trim(key), clean(value)) && line == key + ['='] + value
  {
  }

  lemma PairText(key: string, value: string)
    ensures Render(Pair(key, value)) == key + ("=" + value) == key + ['='] + value
  {
    assert "=" == ['='];
    assert key + "=" + value == key + ("=" + value);
  }

  lemma CancelSuffix(a: string, b: string, rest: string)
    ensures a + rest == b + rest <==> a == b
  {
    if a + rest == b + rest {
      assert |a| == |b|;
      assert a == (a + rest)[..|a|] && b == (b + rest)[..|b|];
    }
  }

  lemma RewrittenSame(line: string)
    ensures Rewritten(line) == line <==> Unpadded(line)
  {
    if !IsComment(line) && '=' in line {
      var (key, value) := SplitOnce(line, '=').value;
      RewrittenShape(line, key, value);
      TrimTrimmed(key);
      CancelSuffix(Trim(key), key, "=" + value);
    }
  }

  lemma RewrittenFree(line: string)
    requires '\n' !in line
    ensures '\n' !in Rewritten(line)
  {
    if !IsComment(line) && '=' in line {
      var (key, value) := SplitOnce(line, '=').value;
      RewrittenShape(line, key, value);
      TrimPiece(key);
    }
  }

  /** Rewriting settles a line: it is unpadded afterwards, and ends as it ended. */
  lemma RewrittenSettles(line: string)
    ensures Unpadded(Rewritten(line))
    ensures EndsWith(Rewritten(line), '\r') <==> EndsWith(line, '\r')
    ensures Rewritten(line) == "" <==> line == ""
    ensures |Rewritten(line)| <= |line|
  {
    ParsedLineOk(line, Keep);
    ReparseLine(ParseLine(line, Keep), Keep);
    RewrittenSame(Rewritten(line));
    if !IsComment(line) && '=' in line {
      var (key, value) := SplitOnce(line, '=').value;
      RewrittenShape(line, key, value);
    }
  }

  function RewriteAll(ls: seq<string>): (r: seq<string>)
    ensures |r| == |ls| && forall i | 0 <= i < |ls| :: r[i] == Rewritten(ls[i])
  {
    seq(|ls|, i requires 0 <= i < |ls| => Rewritten(ls[i]))
  }

  predicate EndsInEmpty(p: seq<string>) {
    |p| >= 2 && p[|p| - 1] == ""
  }

  /** A text ends with a newline exactly when its last piece is empty and not the only one. */
  lemma {:induction false} TrailingIsEmptyPiece(text: string)
    ensures EndsWith(text, '\n') <==> EndsInEmpty(Split(text, '\n'))
    decreases |text|
  {
    var i := Find(text, '\n');
    if i < |text| {
      var rest := text[i + 1..];
      TrailingIsEmptyPiece(rest);
      LastPiece(text[..i], Split(rest, '\n'));
      assert rest != "" ==> rest[|rest| - 1] == text[|text| - 1];
      assert |Split(rest, '\n')| == 1 ==> Split(rest, '\n')[0] == rest;
    } else {
      assert Split(text, '\n') == [text];
    }
  }

  lemma LastPiece(piece: string, rest: seq<string>)
    requires rest != []
    ensures |[piece] + rest| == |rest| + 1 && ([piece] + rest)[|rest|] == rest[|rest| - 1]
  {
  }

  lemma RenderParse(ls: seq<string>)
    ensures RenderAll(ParseAll(ls, Keep)) == RewriteAll(ls)
  {
  }

  lemma RewriteInit(q: seq<string>)
    requires |q| >= 1 && q[|q| - 1] == ""
    ensures Join(RewriteAll(q), '\n') == Join(RewriteAll(q[..|q| - 1]), '\n') + (if |q| >= 2 then "\n" else "")
  {
    var r := RewriteAll(q);
    assert r[..|q| - 1] == RewriteAll(q[..|q| - 1]);
    assert r[|q| - 1] == "";
    if |q| >= 2 {
      JoinLast(r, '\n');
    } else {
      assert r == [""];
    }
  }

  lemma PrintParseLines(text: string)
    ensures PrintConf(ParseConf(text)) == Join(RewriteAll(Lines(text)), '\n') + (if EndsWith(text, '\n') then "\n" else "")
  {
    RenderParse(Lines(text));
  }

  /** The lines between the newlines of a text. */
  function LinesFrom(p: seq<string>): seq<string>
    requires |p| >= 1
  {
    if p[|p| - 1] == "" then StripAll(p[..|p| - 1]) else StripEnds(p)
  }

  lemma PrintPieces(p: seq<string>, ls: seq<string>, ended: bool, printed: string)
    requires |p| >= 1 && (ended <==> EndsInEmpty(p)) && ls == LinesFrom(p)
    requires printed == Join(RewriteAll(ls), '\n') + (if ended then "\n" else "")
    ensures printed == Join(RewriteAll(StripEnds(p)), '\n')
  {
    if p[|p| - 1] == "" {
      assert StripEnds(p)[..|p| - 1] == ls;
      RewriteInit(StripEnds(p));
    }
  }

  lemma LinesOfPieces(text: string)
    ensures Lines(text) == LinesFrom(Split(text, '\n'))
  {
  }

  /** Printing what was parsed joins the rewritten pieces between the newlines of the text. */
  lemma PrintParsePieces(text: string)
    ensures PrintConf(ParseConf(text)) == Join(RewriteAll(StripEnds(Split(text, '\n'))), '\n')
  {
    TrailingIsEmptyPiece(text);
    LinesOfPieces(text);
    PrintParseLines(text);
    PrintPieces(Split(text, '\n'), Lines(text), EndsWith(text, '\n'), PrintConf(ParseConf(text)));
  }

  /** Line `l` of a text is written back as it was: no `\r\n` at its end, no padded key. */
  predicate Verbatim(l: string, last: bool) {
    (last || !EndsWith(l, '\r')) && Unpadded(l)
  }

  lemma VerbatimLine(l: string, last: bool)
    ensures Rewritten(if last then l else StripCr(l)) == l <==> Verbatim(l, last)
  {
    if !last && EndsWith(l, '\r') {
      RewrittenSettles(StripCr(l));
    } else {
      RewrittenSame(l);
    }
  }

  lemma PiecesFree(ls: seq<string>)
    requires forall l | l in ls :: '\n' !in l
    ensures forall l | l in RewriteAll(ls) :: '\n' !in l
  {
    forall i | 0 <= i < |ls|
      ensures '\n' !in RewriteAll(ls)[i]
    {
      assert ls[i] in ls;
      RewrittenFree(ls[i]);
    }
  }

  lemma StripEndsFree(p: seq<string>)
    requires |p| >= 1 && forall l | l in p :: '\n' !in l
    ensures forall l | l in StripEnds(p) :: '\n' !in l
  {
    forall i | 0 <= i < |p|
      ensures '\n' !in StripEnds(p)[i]
    {
      assert p[i] in p;
    }
  }

  /** The pieces of a text after printing what was parsed. */
  lemma PrintedPieces(text: string)
    ensures Split(PrintConf(ParseConf(text)), '\n') == RewriteAll(StripEnds(Split(text, '\n')))
  {
    var p := Split(text, '\n');
    SplitFree(text, '\n');
    PrintParsePieces(text);
    StripEndsFree(p);
    PiecesFree(StripEnds(p));
    SplitJoin(RewriteAll(StripEnds(p)), '\n');
  }

  predicate AllVerbatim(p: seq<string>) {
    forall i | 0 <= i < |p| :: Verbatim(p[i], i == |p| - 1)
  }

  lemma RewriteVerbatim(p: seq<string>)
    requires |p| >= 1
    ensures RewriteAll(StripEnds(p)) == p <==> AllVerbatim(p)
  {
    var r := RewriteAll(StripEnds(p));
    forall i | 0 <= i < |p|
      ensures r[i] == p[i] <==> Verbatim(p[i], i == |p| - 1)
    {
      VerbatimLine(p[i], i == |p| - 1);
    }
    assert AllVerbatim(p) ==> r == p;
  }

  /** Reading and writing a text gives it back exactly when no line ends in `\r\n` and no key is padded. */
  lemma PrintParseIdentity(text: string)
    ensures PrintConf(ParseConf(text)) == text <==> AllVerbatim(Split(text, '\n'))
  {
    PrintedPieces(text);
    RewriteVerbatim(Split(text, '\n'));
    JoinSplit(text, '\n');
    JoinSplit(PrintConf(ParseConf(text)), '\n');
  }

  lemma RewriteSettlesAll(q: seq<string>)
    ensures AllVerbatim(RewriteAll(q)) <==> forall i | 0 <= i < |q| - 1 :: !EndsWith(q[i], '\r')
  {
    var r := RewriteAll(q);
    forall i | 0 <= i < |q|
      ensures Verbatim(r[i], i == |r| - 1) <==> (i < |q| - 1 ==> !EndsWith(q[i], '\r'))
    {
      RewrittenSettles(q[i]);
    }
  }

  /** Reading and writing once settles a text, exactly when no line ends in `\r\r\n`. */
  lemma PrintParseIdempotent(text: string)
    ensures var u := PrintConf(ParseConf(text)); var p := Split(text, '\n');
            PrintConf(ParseConf(u)) == u <==> forall i | 0 <= i < |p| - 1 :: !EndsWith(StripCr(p[i]), '\r')
  {
    var p := Split(text, '\n');
    PrintedPieces(text);
    PrintParseIdentity(PrintConf(ParseConf(text)));
    RewriteSettlesAll(StripEnds(p));
    forall i | 0 <= i < |p| - 1
      ensures StripEnds(p)[i] == StripCr(p[i])
    {
      StripEndsAt(p, i);
    }
  }

  // ------------------------------------------------------------ parse after print

  lemma KeepCleans()
    ensures CleansPieces(Keep)
  {
  }

  /** What saving and loading makes of `init + [last]` without a final newline. */
  function ReloadedUnended(init: seq<Line>, last: Line): Content {
    if Render(last) == "" then Content(RereadAll(init, Keep), init != [])
    else Content(RereadAll(init, Keep) + [last], false)
  }

  /** What saving and loading makes of a content. */
  function Reloaded(c: Content): Content {
    var n := |c.lines|;
    if n == 0 then Content(if c.trailing then [Raw("")] else [], c.trailing)
    else if c.trailing then Content(RereadAll(c.lines, Keep), true)
    else ReloadedUnended(c.lines[..n - 1], c.lines[n - 1])
  }

  lemma ParseStripped(lines: seq<Line>)
    requires LinesOk(lines)
    ensures ParseAll(StripAll(RenderAll(lines)), Keep) == RereadAll(lines, Keep)
  {
    forall i | 0 <= i < |lines|
      ensures ParseLine(StripCr(Render(lines[i])), Keep) == Reread(lines[i], Keep)
    {
      assert lines[i] in lines;
      RereadLine(lines[i], Keep);
    }
  }

  lemma RenderFree(lines: seq<Line>)
    requires LinesOk(lines)
    ensures forall l | l in RenderAll(lines) :: '\n' !in l
  {
    forall i | 0 <= i < |lines|
      ensures '\n' !in RenderAll(lines)[i]
    {
      assert lines[i] in lines;
    }
  }

  lemma ReloadTrailing(c: Content)
    requires LinesOk(c.lines) && c.lines != [] && c.trailing
    ensures ParseConf(PrintConf(c)) == Reloaded(c)
  {
    var out := RenderAll(c.lines);
    JoinLast(out + [""], '\n');
    assert (out + [""])[..|out|] == out;
    UnlinesJoin(out);
    assert PrintConf(c) == Print(c.lines);
    ParsePrint(c.lines, Keep);
  }

  lemma UnendedPieces(init: seq<Line>, last: Line)
    requires LinesOk(init) && OneLine(last)
    ensures Split(PrintConf(Content(init + [last], false)), '\n') == RenderAll(init) + [Render(last)]
  {
    var pieces := RenderAll(init) + [Render(last)];
    assert RenderAll(init + [last]) == pieces;
    RenderFree(init);
    SplitJoin(pieces, '\n');
    assert PrintConf(Content(init + [last], false)) == Join(pieces, '\n');
  }

  lemma UnendedLines(p: seq<string>, last: string, text: string)
    requires Split(text, '\n') == p + [last]
    ensures Lines(text) == StripAll(p) + (if last == "" then [] else [last])
    ensures EndsWith(text, '\n') <==> p != [] && last == ""
  {
    TrailingIsEmptyPiece(text);
    assert (p + [last])[..|p|] == p;
  }

  lemma ParseSnoc(ls: seq<string>, last: string)
    ensures ParseAll(ls + [last], Keep) == ParseAll(ls, Keep) + [ParseLine(last, Keep)]
  {
  }

  lemma ReloadUnended(init: seq<Line>, last: Line)
    requires LinesOk(init) && LineOk(last) && OneLine(last)
    ensures ParseConf(PrintConf(Content(init + [last], false))) == ReloadedUnended(init, last)
  {
    var text := PrintConf(Content(init + [last], false));
    UnendedPieces(init, last);
    UnendedLines(RenderAll(init), Render(last), text);
    ParseStripped(init);
    ReparseLine(last, Keep);
    if Render(last) != "" {
      ParseSnoc(StripAll(RenderAll(init)), Render(last));
    }
  }

  lemma LinesOfNewline()
    ensures Lines("\n") == [""] && Lines("") == []
  {
    var two := ["", ""];
    assert two[1..] == [""] && Join([""], '\n') == "";
    assert Join(two, '\n') == "\n";
    SplitJoin(two, '\n');
    assert two[..1] == [""];
    SplitJoin([""], '\n');
  }

  lemma ReloadEmpty(trailing: bool)
    ensures ParseConf(PrintConf(Content([], trailing))) == Content(if trailing then [Raw("")] else [], trailing)
  {
    LinesOfNewline();
    assert PrintConf(Content([], trailing)) == if trailing then "\n" else "";
    assert ParseLine("", Keep) == Raw("");
  }

  /** Saving and loading well-formed lines, in every case of a missing or superfluous last line. */
  lemma Reload(c: Content)
    requires LinesOk(c.lines)
    ensures ParseConf(PrintConf(c)) == Reloaded(c)
  {
    if c.lines == [] {
      ReloadEmpty(c.trailing);
    } else if c.trailing {
      ReloadTrailing(c);
    } else {
      var init, last := c.lines[..|c.lines| - 1], c.lines[|c.lines| - 1];
      assert c == Content(init + [last], false) && last in c.lines && forall l | l in init :: l in c.lines;
      ReloadUnended(init, last);
    }
  }

  /** The conditions under which a content survives saving and loading as it is. */
  predicate Savable(c: Content) {
    && LinesOk(c.lines)
    && (c.trailing ==> c.lines != [])
    && (!c.trailing && c.lines != [] ==> Render(c.lines[|c.lines| - 1]) != "")
    && (forall i | 0 <= i < |c.lines| && (c.trailing || i < |c.lines| - 1) :: !EndsWith(Render(c.lines[i]), '\r'))
  }

  lemma DropCrSame(l: Line)
    requires LineOk(l)
    ensures Reread(l, Keep) == l <==> !EndsWith(Render(l), '\r')
  {
    DropCrRenders(l);
    assert Reread(l, Keep) == DropCr(l);
  }

  lemma RereadSame(lines: seq<Line>)
    requires LinesOk(lines)
    ensures RereadAll(lines, Keep) == lines <==> forall i | 0 <= i < |lines| :: !EndsWith(Render(lines[i]), '\r')
  {
    forall i | 0 <= i < |lines|
      ensures RereadAll(lines, Keep)[i] == lines[i] <==> !EndsWith(Render(lines[i]), '\r')
    {
      assert lines[i] in lines;
      DropCrSame(lines[i]);
    }
  }

  lemma SavableUnended(init: seq<Line>, last: Line)
    requires LinesOk(init)
    ensures ReloadedUnended(init, last) == Content(init + [last], false)
            <==> Render(last) != "" && forall i | 0 <= i < |init| :: !EndsWith(Render(init[i]), '\r')
  {
    RereadSame(init);
    assert RereadAll(init, Keep) + [last] == init + [last] ==> RereadAll(init, Keep) == (init + [last])[..|init|] == init;
  }

  lemma UnendedIdentity(init: seq<Line>, last: Line)
    requires LinesOk(init + [last])
    ensures ReloadedUnended(init, last) == Content(init + [last], false) <==> Savable(Content(init + [last], false))
  {
    var lines := init + [last];
    assert forall i | 0 <= i < |init| :: lines[i] == init[i] && init[i] in lines;
    SavableUnended(init, last);
  }

  lemma ReloadedIdentity(c: Content)
    requires LinesOk(c.lines)
    ensures Reloaded(c) == c <==> Savable(c)
  {
    if c.lines != [] && c.trailing {
      RereadSame(c.lines);
    } else if c.lines != [] {
      var n := |c.lines| - 1;
      assert c.lines == c.lines[..n] + [c.lines[n]];
      UnendedIdentity(c.lines[..n], c.lines[n]);
    }
  }

  /** Parsing what was printed gives the same content back exactly when it is savable. */
  lemma ReloadIdentity(c: Content)
    ensures ParseConf(PrintConf(c)) == c <==> Savable(c)
  {
    if ParseConf(PrintConf(c)) == c {
      KeepCleans();
      ParsedLinesOk(PrintConf(c), Keep);
    }
    if LinesOk(c.lines) {
      Reload(c);
      ReloadedIdentity(c);
    }
  }

  // ------------------------------------------------------- edits and the next load

  /** Line `i` is written with a newline after it. */
  predicate Ended(c: Content, i: nat) {
    c.trailing || i + 1 < |c.lines|
  }

  /** The shape of contents that arise by parsing any text and setting keys to any values. */
  predicate Shaped(c: Content) {
    && (forall l | l in c.lines :: LineOk(l))
    && (c.trailing ==> c.lines != [])
    && (!c.trailing && c.lines != [] ==> Render(c.lines[|c.lines| - 1]) != "")
  }

  /** A key that parses as a key. */
  predicate KeyOk(key: string) {
    Trimmed(key) && '=' !in key && (key == "" || key[0] != '#')
  }

  lemma LastLine(text: string)
    ensures !EndsWith(text, '\n') && Lines(text) != [] ==> Lines(text)[|Lines(text)| - 1] != ""
    ensures EndsWith(text, '\n') ==> Lines(text) != []
  {
    TrailingIsEmptyPiece(text);
  }

  lemma ParseLinesOk(text: string)
    ensures LinesOk(ParseConf(text).lines)
  {
    KeepCleans();
    ParsedLinesOk(text, Keep);
  }

  lemma ParseShaped(text: string)
    ensures Shaped(ParseConf(text))
  {
    ParseLinesOk(text);
    LastLine(text);
    var ls := Lines(text);
    if ls != [] {
      RewrittenSettles(ls[|ls| - 1]);
    }
  }

  lemma SetKeepsShaped(c: Content, key: string, value: string)
    requires Shaped(c) && KeyOk(key)
    ensures Shaped(SetConf(c, key, value))
  {
    assert LineOk(Pair(key, value)) && Render(Pair(key, value)) != "";
  }

  function SetAll(c: Content, edits: seq<(string, string)>): Content
    decreases |edits|
  {
    if edits == [] then c else SetAll(SetConf(c, edits[0].0, edits[0].1), edits[1..])
  }

  lemma {:induction false} SetAllKeepsShaped(c: Content, edits: seq<(string, string)>)
    requires Shaped(c) && forall e | e in edits :: KeyOk(e.0)
    ensures Shaped(SetAll(c, edits))
    decreases |edits|
  {
    if edits != [] {
      assert edits[0] in edits;
      SetKeepsShaped(c, edits[0].0, edits[0].1);
      SetAllKeepsShaped(SetConf(c, edits[0].0, edits[0].1), edits[1..]);
    }
  }

  /** The line is still one line with the same end after it is written. */
  predicate Survives(c: Content, i: nat)
    requires i < |c.lines|
  {
    '\n' !in Render(c.lines[i]) && (Ended(c, i) ==> !EndsWith(Render(c.lines[i]), '\r'))
  }

  lemma ShapedSavable(c: Content)
    requires Shaped(c)
    ensures Savable(c) <==> forall i | 0 <= i < |c.lines| :: Survives(c, i)
  {
    if forall i | 0 <= i < |c.lines| :: Survives(c, i) {
      forall l | l in c.lines
        ensures LineOk(l) && OneLine(l)
      {
        var i :| 0 <= i < |c.lines| && c.lines[i] == l;
        assert Survives(c, i);
      }
      forall i | 0 <= i < |c.lines| && (c.trailing || i < |c.lines| - 1)
        ensures !EndsWith(Render(c.lines[i]), '\r')
      {
        assert Survives(c, i) && Ended(c, i);
      }
    }
    if Savable(c) {
      forall i | 0 <= i < |c.lines|
        ensures Survives(c, i)
      {
        assert c.lines[i] in c.lines && OneLine(c.lines[i]);
        assert Ended(c, i) ==> c.trailing || i < |c.lines| - 1;
      }
    }
  }

  /**
   * Whatever keys are set to whatever values on any parsed text, with or without
   * a final newline: saving and loading gives exactly the edited content back if
   * and only if no line of it holds a line break or, where a newline follows,
   * ends in a carriage return.
   */
  lemma EditsReload(text: string, edits: seq<(string, string)>)
    requires forall e | e in edits :: KeyOk(e.0)
    ensures var c := SetAll(ParseConf(text), edits);
            ParseConf(PrintConf(c)) == c <==> forall i | 0 <= i < |c.lines| :: Survives(c, i)
  {
    ParseShaped(text);
    SetAllKeepsShaped(ParseConf(text), edits);
    ShapedSavable(SetAll(ParseConf(text), edits));
    ReloadIdentity(SetAll(ParseConf(text), edits));
  }

  /** Removing a key can leave a content that does not load as it is: an empty file with a final newline. */
  lemma RemoveMayEmpty(key: string, value: string)
    requires KeyOk(key) && '\n' !in key && '\n' !in value && !EndsWith(value, '\r')
    ensures var c := RemoveConf(ParseConf(key + "=" + value + "\n"), key);
            c == Content([], true) && ParseConf(PrintConf(c)) != c
  {
    var one := Content([Pair(key, value)], true);
    assert PrintConf(one) == key + "=" + value + "\n";
    assert Savable(one);
    ReloadIdentity(one);
    assert Without([Pair(key, value)], KeyIs(key)) == [];
    ReloadEmpty(true);
  }

  /** The other way: a blank last line that no newline follows. */
  lemma RemoveMayLeaveBlank(key: string, value: string)
    requires KeyOk(key) && '\n' !in key && '\n' !in value
    ensures var c := RemoveConf(ParseConf("\n" + (key + "=" + value)), key);
            c == Content([Raw("")], false) && ParseConf(PrintConf(c)) != c
  {
    var pair := Pair(key, value);
    TwoLines(pair);
    BlankThenPair(pair);
    ReloadIdentity(Content([Raw(""), pair], false));
    BlankRemains(pair);
    ReloadIdentity(Content([Raw("")], false));
  }

  lemma BlankThenPair(pair: Line)
    requires pair.Pair? && LineOk(pair) && OneLine(pair)
    ensures Savable(Content([Raw(""), pair], false))
  {
    assert LineOk(Raw("")) && OneLine(Raw(""));
  }

  lemma BlankRemains(pair: Line)
    requires pair.Pair?
    ensures RemoveConf(Content([Raw(""), pair], false), pair.key) == Content([Raw("")], false)
    ensures !Savable(Content([Raw("")], false))
  {
    var drop := KeyIs(pair.key);
    WithoutSplit([Raw("")], [pair], drop);
    assert [Raw(""), pair] == [Raw("")] + [pair];
    assert Without([pair], drop) == [] && Without([Raw("")], drop) == [Raw("")];
  }

  lemma TwoLines(pair: Line)
    ensures PrintConf(Content([Raw(""), pair], false)) == "\n" + Render(pair)
  {
    var out := RenderAll([Raw(""), pair]);
    assert out == ["", Render(pair)] && out[1..] == [Render(pair)];
    assert Join(out, '\n') == "" + ['\n'] + Render(pair);
  }

  // ------------------------------------------------------- lookups and the next load

  /** What a key reads as after saving and loading. */
  function ReadBack(c: Content, key: string): Option<string> {
    var i := IndexOf(c.lines, key);
    if i == |c.lines| then None
    else Some(if Ended(c, i) then StripCr(c.lines[i].value) else c.lines[i].value)
  }

  /** The value of the key is not one that a newline after it cuts short. */
  predicate KeepsValue(c: Content, key: string) {
    var i := IndexOf(c.lines, key);
    i < |c.lines| && Ended(c, i) ==> !EndsWith(c.lines[i].value, '\r')
  }

  lemma KeepsValueIff(c: Content, key: string)
    ensures ReadBack(c, key) == Lookup(c.lines, key) <==> KeepsValue(c, key)
  {
    LookupIndex(c.lines, key);
  }

  lemma UnendedLookups(init: seq<Line>, last: Line, key: string)
    ensures Lookup(ReloadedUnended(init, last).lines, key) == ReadBack(Content(init + [last], false), key)
  {
    var lines := init + [last];
    LookupReread(init, Keep, key);
    LookupIndex(init, key);
    LookupSplit(RereadAll(init, Keep), [last], key);
    LookupIndex(lines, key);
    LookupSplit(init, [last], key);
    IndexSplit(init, last, key);
  }

  lemma IndexSplit(init: seq<Line>, last: Line, key: string)
    ensures IndexOf(init + [last], key)
            == if IndexOf(init, key) < |init| then IndexOf(init, key) else if Matches(last, key) then |init| else |init| + 1
  {
    var lines := init + [last];
    assert forall j | 0 <= j < |init| :: lines[j] == init[j];
    assert lines[|init|] == last;
  }

  lemma ReloadedLookups(c: Content, key: string)
    ensures Lookup(Reloaded(c).lines, key) == ReadBack(c, key)
  {
    if c.lines != [] && !c.trailing {
      var n := |c.lines| - 1;
      assert c.lines == c.lines[..n] + [c.lines[n]];
      UnendedLookups(c.lines[..n], c.lines[n], key);
    } else if c.lines != [] {
      LookupReread(c.lines, Keep, key);
      LookupIndex(c.lines, key);
    }
  }

  /** Saving and loading keeps every lookup but for a carriage return that a newline follows. */
  lemma LookupReloads(c: Content, key: string)
    requires LinesOk(c.lines)
    ensures Lookup(ParseConf(PrintConf(c)).lines, key) == ReadBack(c, key)
  {
    Reload(c);
    ReloadedLookups(c, key);
  }

  /** So a lookup survives exactly when its value is not cut short. */
  lemma ReloadKeepsLookups(c: Content, key: string)
    requires LinesOk(c.lines)
    ensures Lookup(ParseConf(PrintConf(c)).lines, key) == Lookup(c.lines, key) <==> KeepsValue(c, key)
  {
    LookupReloads(c, key);
    KeepsValueIff(c, key);
  }

  lemma RemoveLinesOk(c: Content, key: string)
    requires LinesOk(c.lines)
    ensures LinesOk(RemoveConf(c, key).lines)
  {
    WithoutKeeps(c.lines, KeyIs(key));
  }

  lemma RemovedReadBack(c: Content, key: string, other: string)
    ensures other == key ==> ReadBack(RemoveConf(c, key), other) == None
    ensures other != key ==> (ReadBack(RemoveConf(c, key), other) == Lookup(c.lines, other) <==> KeepsValue(RemoveConf(c, key), other))
  {
    LookupWithoutKey(c.lines, key, other);
    LookupIndex(RemoveConf(c, key).lines, other);
    KeepsValueIff(RemoveConf(c, key), other);
  }

  /**
   * For every text: after `remove_key`, saving and loading, the key is gone, and
   * every other lookup is as before exactly when its value is not cut short.
   */
  lemma RemovedKeyReloads(text: string, key: string, other: string)
    ensures var c := RemoveConf(ParseConf(text), key);
            var read := Lookup(ParseConf(PrintConf(c)).lines, other);
            if other == key then read == None
            else read == Lookup(ParseConf(text).lines, other) <==> KeepsValue(c, other)
  {
    var c := ParseConf(text);
    ParseLinesOk(text);
    RemoveLinesOk(c, key);
    LookupReloads(RemoveConf(c, key), other);
    RemovedReadBack(c, key, other);
  }

  // ---------------------------------------------------------------- Wi-Fi edits

  lemma LookupApply(c: Content, s: WifiSettings.Settings, key: string)
    ensures Lookup(ApplyConf(c, s).lines, key) ==
            if key == KEY_SSID then Some(s.ssid) else if key == KEY_PASSPHRASE then Some(s.passphrase)
            else if key == KEY_COUNTRY then Some(s.countryCode) else if key == KEY_CHANNEL then Some(Show(s.channel))
            else Lookup(c.lines, key)
  {
    var c1 := SetConf(c, KEY_SSID, s.ssid);
    var c2 := SetConf(c1, KEY_PASSPHRASE, s.passphrase);
    var c3 := SetConf(c2, KEY_COUNTRY, s.countryCode);
    LookupAssign(c.lines, KEY_SSID, s.ssid, key);
    LookupAssign(c1.lines, KEY_PASSPHRASE, s.passphrase, key);
    LookupAssign(c2.lines, KEY_COUNTRY, s.countryCode, key);
    LookupAssign(c3.lines, KEY_CHANNEL, Show(s.channel), key);
  }

  lemma KeysOk()
    ensures KeyOk(KEY_SSID) && KeyOk(KEY_PASSPHRASE) && KeyOk(KEY_COUNTRY) && KeyOk(KEY_CHANNEL)
    ensures '\n' !in KEY_SSID && '\n' !in KEY_PASSPHRASE && '\n' !in KEY_COUNTRY && '\n' !in KEY_CHANNEL
  {
  }

  lemma CountryOk(s: WifiSettings.Settings)
    requires WifiSettings.Valid(s)
    ensures forall c | c in s.countryCode :: WifiSettings.IsAlphabetic(c)
  {
    assert !WifiSettings.Has(s, WifiSettings.BadCountry);
  }

  lemma SetLinesOk(c: Content, key: string, value: string)
    requires LinesOk(c.lines) && KeyOk(key) && '\n' !in key && '\n' !in value
    ensures LinesOk(SetConf(c, key, value).lines)
  {
    AssignLinesOk(c.lines, key, value);
  }

  lemma ApplyLinesOk(c: Content, s: WifiSettings.Settings)
    requires LinesOk(c.lines) && WifiSettings.Valid(s) && '\n' !in s.ssid && '\n' !in s.passphrase
    ensures LinesOk(ApplyConf(c, s).lines)
  {
    KeysOk();
    CountryOk(s);
    var c1 := SetConf(c, KEY_SSID, s.ssid);
    SetLinesOk(c, KEY_SSID, s.ssid);
    var c2 := SetConf(c1, KEY_PASSPHRASE, s.passphrase);
    SetLinesOk(c1, KEY_PASSPHRASE, s.passphrase);
    var c3 := SetConf(c2, KEY_COUNTRY, s.countryCode);
    SetLinesOk(c2, KEY_COUNTRY, s.countryCode);
    SetLinesOk(c3, KEY_CHANNEL, Show(s.channel));
  }

  /** What `wifi_config` reports of the four editable fields. */
  datatype WifiView = WifiView(ssid: Option<string>, passphrase: Option<string>, country: Option<string>, channel: Option<nat>)

  function ViewOf(lines: seq<Line>): WifiView {
    WifiView(Lookup(lines, KEY_SSID), Lookup(lines, KEY_PASSPHRASE), Lookup(lines, KEY_COUNTRY),
             match Lookup(lines, KEY_CHANNEL) case None => None case Some(v) => ParseUnsigned(Trim(v), U16_MAX))
  }

  function SettingsView(s: WifiSettings.Settings): WifiView {
    WifiView(Some(s.ssid), Some(s.passphrase), Some(s.countryCode), Some(s.channel))
  }

  /** A loaded value never contains a line break. */
  lemma LoadedValueIsOneLine(text: string, key: string)
    ensures Lookup(ParseConf(text).lines, key).Some? ==> '\n' !in Lookup(ParseConf(text).lines, key).value
  {
    var lines := ParseConf(text).lines;
    ParseLinesOk(text);
    LookupIndex(lines, key);
    var i := IndexOf(lines, key);
    if i < |lines| {
      assert lines[i] in lines;
    }
  }

  /** Country code and channel of validated settings survive in every case. */
  lemma PlainValuesSurvive(s: WifiSettings.Settings)
    requires WifiSettings.Valid(s)
    ensures StripCr(s.countryCode) == s.countryCode && StripCr(Show(s.channel)) == Show(s.channel)
    ensures ParseUnsigned(Trim(Show(s.channel)), U16_MAX) == Some(s.channel)
  {
    CountryOk(s);
    var code := s.countryCode;
    assert code != "" ==> code[|code| - 1] in code;
    WifiSettings.ValidChannelFits(s);
    ChannelSurvives(s.channel);
  }

  lemma ChannelSurvives(channel: nat)
    requires channel <= U16_MAX
    ensures StripCr(Show(channel)) == Show(channel)
    ensures ParseUnsigned(Trim(Show(channel)), U16_MAX) == Some(channel)
  {
    DigitsTrimmed(Show(channel));
    ParseShow(channel, U16_MAX);
  }

  /** What a caller can check before an edit of this file is saved. */
  predicate WifiSafe(text: string, s: WifiSettings.Settings) {
    && '\n' !in s.ssid && '\n' !in s.passphrase
    && KeepsValue(ApplyConf(ParseConf(text), s), KEY_SSID) && KeepsValue(ApplyConf(ParseConf(text), s), KEY_PASSPHRASE)
  }

  lemma ReadBackCases(c: Content, key: string, v: string)
    requires Lookup(c.lines, key) == Some(v)
    ensures ReadBack(c, key) == Some(v) || ReadBack(c, key) == Some(StripCr(v))
  {
    LookupIndex(c.lines, key);
  }

  lemma EditedView(edited: Content, s: WifiSettings.Settings)
    requires LinesOk(edited.lines) && WifiSettings.Valid(s)
    requires Lookup(edited.lines, KEY_SSID) == Some(s.ssid) && Lookup(edited.lines, KEY_PASSPHRASE) == Some(s.passphrase)
    requires Lookup(edited.lines, KEY_COUNTRY) == Some(s.countryCode) && Lookup(edited.lines, KEY_CHANNEL) == Some(Show(s.channel))
    ensures ViewOf(ParseConf(PrintConf(edited)).lines) == SettingsView(s)
            <==> KeepsValue(edited, KEY_SSID) && KeepsValue(edited, KEY_PASSPHRASE)
  {
    LookupReloads(edited, KEY_SSID);
    LookupReloads(edited, KEY_PASSPHRASE);
    LookupReloads(edited, KEY_COUNTRY);
    LookupReloads(edited, KEY_CHANNEL);
    KeepsValueIff(edited, KEY_SSID);
    KeepsValueIff(edited, KEY_PASSPHRASE);
    ReadBackCases(edited, KEY_COUNTRY, s.countryCode);
    ReadBackCases(edited, KEY_CHANNEL, Show(s.channel));
    PlainValuesSurvive(s);
  }

  /**
   * For every text and all settings that `validate` accepts: the four fields that
   * the next start reads are the four that were set, the channel as a number, if
   * and only if neither the name nor the password holds a line break or ends in a
   * carriage return on a line that a newline follows.
   */
  lemma WifiEditReadsBack(text: string, s: WifiSettings.Settings)
    requires WifiSettings.Valid(s)
    ensures ViewOf(ParseConf(PrintConf(ApplyConf(ParseConf(text), s))).lines) == SettingsView(s) <==> WifiSafe(text, s)
  {
    var c, edited := ParseConf(text), ApplyConf(ParseConf(text), s);
    LoadedValueIsOneLine(PrintConf(edited), KEY_SSID);
    LoadedValueIsOneLine(PrintConf(edited), KEY_PASSPHRASE);
    if '\n' !in s.ssid && '\n' !in s.passphrase {
      ParseLinesOk(text);
      ApplyLinesOk(c, s);
      LookupApply(c, s, KEY_SSID);
      LookupApply(c, s, KEY_PASSPHRASE);
      LookupApply(c, s, KEY_COUNTRY);
      LookupApply(c, s, KEY_CHANNEL);
      EditedView(edited, s);
    }
  }

  /** Setting one key does not move the first line of another. */
  lemma SetFrame(c: Content, key: string, value: string, other: string)
    requires other != key
    ensures var i, i' := IndexOf(c.lines, other), IndexOf(SetConf(c, key, value).lines, other);
            if i < |c.lines| then i' == i else i' == |SetConf(c, key, value).lines|
  {
    var lines := SetConf(c, key, value).lines;
    assert forall j | 0 <= j < |c.lines| :: Matches(lines[j], other) <==> Matches(c.lines[j], other);
  }

  lemma SetKeepsLine(c: Content, key: string, value: string, i: nat)
    requires i < |c.lines| && i != IndexOf(c.lines, key)
    ensures |c.lines| <= |SetConf(c, key, value).lines| <= |c.lines| + 1 && SetConf(c, key, value).lines[i] == c.lines[i]
  {
    AssignFrame(c.lines, key, value);
  }

  lemma KeysDiffer()
    ensures KEY_SSID != KEY_PASSPHRASE && KEY_SSID != KEY_COUNTRY && KEY_SSID != KEY_CHANNEL
    ensures KEY_PASSPHRASE != KEY_COUNTRY && KEY_PASSPHRASE != KEY_CHANNEL && KEY_COUNTRY != KEY_CHANNEL
  {
    assert KEY_SSID[0] == 's' && KEY_PASSPHRASE[0] == 'w' && KEY_COUNTRY[1] == 'o' && KEY_CHANNEL[1] == 'h';
  }

  /** Only the first line of each of the four keys changes; every other line, later ones with the same keys included, keeps its place. */
  lemma ApplyFrame(c: Content, s: WifiSettings.Settings, i: nat)
    requires i < |c.lines|
    requires i != IndexOf(c.lines, KEY_SSID) && i != IndexOf(c.lines, KEY_PASSPHRASE)
    requires i != IndexOf(c.lines, KEY_COUNTRY) && i != IndexOf(c.lines, KEY_CHANNEL)
    ensures |c.lines| <= |ApplyConf(c, s).lines| <= |c.lines| + 4 && ApplyConf(c, s).lines[i] == c.lines[i]
  {
    var c1 := SetConf(c, KEY_SSID, s.ssid);
    var c2 := SetConf(c1, KEY_PASSPHRASE, s.passphrase);
    var c3 := SetConf(c2, KEY_COUNTRY, s.countryCode);
    KeysDiffer();
    SetKeepsLine(c, KEY_SSID, s.ssid, i);
    SetFrame(c, KEY_SSID, s.ssid, KEY_PASSPHRASE);
    SetFrame(c, KEY_SSID, s.ssid, KEY_COUNTRY);
    SetFrame(c, KEY_SSID, s.ssid, KEY_CHANNEL);
    SetKeepsLine(c1, KEY_PASSPHRASE, s.passphrase, i);
    SetFrame(c1, KEY_PASSPHRASE, s.passphrase, KEY_COUNTRY);
    SetFrame(c1, KEY_PASSPHRASE, s.passphrase, KEY_CHANNEL);
    SetKeepsLine(c2, KEY_COUNTRY, s.countryCode, i);
    SetFrame(c2, KEY_COUNTRY, s.countryCode, KEY_CHANNEL);
    SetKeepsLine(c3, KEY_CHANNEL, Show(s.channel), i);
  }
}
