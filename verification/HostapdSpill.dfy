/** What the next start reads when a name or a password holds a line break: the text after it is lines of its own. */
module HostapdSpill {
  import opened Results
  import opened Text
  import opened LineConf
  import opened HostapdConf
  import opened Numbers
  import WifiSettings

  // ------------------------------------------------------------- every piece of every line

  /** The lines that one line is read as, given whether a newline follows it. */
  function PiecesAt(l: Line, ended: bool): (r: seq<Line>)
    ensures |r| >= 1
  {
    if ended then PiecesOf(l, Keep) else ParseAll(StripEnds(Split(Render(l), '\n')), Keep)
  }

  function Pieces(lines: seq<Line>, trailing: bool): seq<Line> {
    if lines == [] then [] else PiecesAt(lines[0], trailing || |lines| > 1) + Pieces(lines[1..], trailing)
  }

  lemma {:induction false} PiecesTrailing(lines: seq<Line>)
    ensures Pieces(lines, true) == AllPieces(lines, Keep)
  {
    if lines != [] {
      PiecesTrailing(lines[1..]);
    }
  }

  lemma {:induction false} PiecesUnended(init: seq<Line>, last: Line)
    ensures Pieces(init + [last], false) == AllPieces(init, Keep) + PiecesAt(last, false)
  {
    var lines := init + [last];
    if init == [] {
      assert lines == [last] && lines[1..] == [];
    } else {
      assert lines[1..] == init[1..] + [last];
      PiecesUnended(init[1..], last);
    }
  }

  /** Printing with a newline at the end writes line by line. */
  lemma PrintTrailing(c: Content)
    requires c.lines != [] && c.trailing
    ensures PrintConf(c) == Print(c.lines)
  {
    var out := RenderAll(c.lines);
    JoinLast(out + [""], '\n');
    assert (out + [""])[..|out|] == out;
    UnlinesJoin(out);
  }

  lemma PrintUnended(init: seq<Line>, last: Line)
    ensures PrintConf(Content(init + [last], false)) == Print(init) + Render(last)
  {
    var out := RenderAll(init);
    assert RenderAll(init + [last]) == out + [Render(last)];
    JoinUnlines(out, [Render(last)]);
  }

  lemma {:induction false} JoinUnlines(ls: seq<string>, p: seq<string>)
    requires p != []
    ensures Join(ls + p, '\n') == Unlines(ls) + Join(p, '\n')
  {
    if ls == [] {
      assert ls + p == p;
    } else {
      assert (ls + p)[1..] == ls[1..] + p;
      JoinUnlines(ls[1..], p);
    }
  }

  lemma SplitUnlines(ls: seq<string>, r: string)
    requires forall l | l in ls :: '\n' !in l
    ensures Split(Unlines(ls) + r, '\n') == ls + Split(r, '\n')
  {
    var p := Split(r, '\n');
    SplitFree(r, '\n');
    JoinSplit(r, '\n');
    JoinUnlines(ls, p);
    SplitJoin(ls + p, '\n');
  }

  /** A last piece that is empty is no line, and no lookup sees it. */
  lemma LinesSeen(text: string, key: string)
    ensures Lookup(ParseAll(Lines(text), Keep), key) == Lookup(ParseAll(StripEnds(Split(text, '\n')), Keep), key)
  {
    var p := Split(text, '\n');
    LinesOfPieces(text);
    if p[|p| - 1] == "" {
      ParseSnoc(Lines(text), "");
      LookupSplit(ParseAll(Lines(text), Keep), [ParseLine("", Keep)], key);
    }
  }

  lemma StripEndsSplit(a: seq<string>, q: seq<string>)
    requires q != []
    ensures StripEnds(a + q) == StripAll(a) + StripEnds(q)
  {
    assert (a + q)[..|a + q| - 1] == a + q[..|q| - 1];
  }

  lemma ParseTwo(a: seq<string>, b: seq<string>)
    ensures ParseAll(a + b, Keep) == ParseAll(a, Keep) + ParseAll(b, Keep)
  {
  }

  lemma UnendedSeen(init: seq<Line>, last: Line, key: string)
    ensures Lookup(ParseConf(PrintConf(Content(init + [last], false))).lines, key) == Lookup(Pieces(init + [last], false), key)
  {
    var text, q := PrintConf(Content(init + [last], false)), Split(Render(last), '\n');
    PrintUnended(init, last);
    PrintFlat(init);
    SplitUnlines(Flat(init), Render(last));
    LinesSeen(text, key);
    StripEndsSplit(Flat(init), q);
    ParseTwo(StripAll(Flat(init)), StripEnds(q));
    ParseFlat(init, Keep);
    PiecesUnended(init, last);
  }

  /** For every content, whatever its values hold: a lookup after saving and loading sees the pieces. */
  lemma LookupSeesPieces(c: Content, key: string)
    ensures Lookup(ParseConf(PrintConf(c)).lines, key) == Lookup(Pieces(c.lines, c.trailing), key)
  {
    if c.lines == [] {
      ReloadEmpty(c.trailing);
    } else if c.trailing {
      PrintTrailing(c);
      LoadsPieces(c.lines, Keep);
      PiecesTrailing(c.lines);
    } else {
      var init, last := c.lines[..|c.lines| - 1], c.lines[|c.lines| - 1];
      assert c == Content(init + [last], false);
      UnendedSeen(init, last, key);
    }
  }

  // ------------------------------------------------------------- first pieces and the rest

  /** What is left of a value on its own line. */
  function FirstValue(v: string, ended: bool): string {
    var p := Split(v, '\n');
    if ended || |p| > 1 then StripCr(p[0]) else p[0]
  }

  lemma FirstOfPair(key: string, v: string, ended: bool)
    requires KeyedOk(Pair(key, v))
    ensures PiecesAt(Pair(key, v), ended)[0] == Pair(key, FirstValue(v, ended))
  {
    var p := Split(v, '\n');
    assert '\n' !in key + "=";
    SplitPrefix(key + "=", v, '\n');
    var all := Split(key + "=" + v, '\n');
    assert all[0] == Render(Pair(key, p[0])) && |all| == |p|;
    RereadLine(Pair(key, p[0]), Keep);
    ReparseLine(Pair(key, p[0]), Keep);
    StripEndsAt(all, 0);
  }

  /** A line that is no pair, or has another key, does not hold the key in its first piece. */
  lemma FirstKey(l: Line, ended: bool, key: string)
    requires KeyedOk(l)
    ensures Matches(PiecesAt(l, ended)[0], key) <==> Matches(l, key)
  {
    match l
    case Pair(k, v) => FirstOfPair(k, v, ended);
    case Raw(text) => RawPiece(text, ended);
  }

  lemma RawPiece(text: string, ended: bool)
    requires KeyedOk(Raw(text))
    ensures PiecesAt(Raw(text), ended)[0].Raw?
  {
    FindNone(text, '\n');
    RereadLine(Raw(text), Keep);
    ReparseLine(Raw(text), Keep);
  }

  /** What a piece after a line break, in a line before the key's own, makes of the key. */
  function Spilled(lines: seq<Line>, trailing: bool, key: string): Option<string> {
    if lines == [] || Matches(lines[0], key) then None
    else
      var here := Lookup(PiecesAt(lines[0], trailing || |lines| > 1)[1..], key);
      if here.Some? then here else Spilled(lines[1..], trailing, key)
  }

  /** What the key's own line says. */
  function Own(lines: seq<Line>, trailing: bool, key: string): Option<string> {
    if lines == [] then None
    else if Matches(lines[0], key) then Some(FirstValue(lines[0].value, trailing || |lines| > 1))
    else Own(lines[1..], trailing, key)
  }

  lemma {:induction false} PiecesLookup(lines: seq<Line>, trailing: bool, key: string)
    requires AllKeyed(lines)
    ensures Lookup(Pieces(lines, trailing), key)
            == if Spilled(lines, trailing, key).Some? then Spilled(lines, trailing, key) else Own(lines, trailing, key)
  {
    if lines != [] {
      var l, ended := lines[0], trailing || |lines| > 1;
      var here := PiecesAt(l, ended);
      assert l in lines && here == [here[0]] + here[1..];
      FirstKey(l, ended, key);
      LookupSplit(here, Pieces(lines[1..], trailing), key);
      PiecesLookup(lines[1..], trailing, key);
      if l.Pair? {
        FirstOfPair(l.key, l.value, ended);
      }
    }
  }

  /**
   * For every content an edit can lead to, line breaks included: after saving and
   * loading a key reads as the first piece that a line break before its own line
   * brings for it, and otherwise as what is left of its own value.
   */
  lemma ReloadedLookup(c: Content, key: string)
    requires AllKeyed(c.lines)
    ensures Lookup(ParseConf(PrintConf(c)).lines, key)
            == if Spilled(c.lines, c.trailing, key).Some? then Spilled(c.lines, c.trailing, key) else Own(c.lines, c.trailing, key)
  {
    LookupSeesPieces(c, key);
    PiecesLookup(c.lines, c.trailing, key);
  }

  // ------------------------------------------------------------- other keys after a Wi-Fi edit

  /** On a line without a line break the key reads as `ReadBack` says. */
  lemma {:induction false} OwnIsReadBack(c: Content, key: string)
    requires Lookup(c.lines, key).Some? ==> '\n' !in Lookup(c.lines, key).value
    ensures Own(c.lines, c.trailing, key) == ReadBack(c, key)
    decreases |c.lines|
  {
    if c.lines != [] {
      if Matches(c.lines[0], key) {
        FindNone(c.lines[0].value, '\n');
      } else {
        OwnIsReadBack(Content(c.lines[1..], c.trailing), key);
      }
    }
  }

  lemma SetKeyed(c: Content, key: string, value: string)
    requires AllKeyed(c.lines) && KeyOk(key) && '\n' !in key
    ensures AllKeyed(SetConf(c, key, value).lines)
  {
  }

  lemma ApplyKeyed(c: Content, s: WifiSettings.Settings)
    requires LinesOk(c.lines)
    ensures AllKeyed(ApplyConf(c, s).lines)
  {
    KeysOk();
    OneLineKeyed(c.lines);
    var c1 := SetConf(c, KEY_SSID, s.ssid);
    SetKeyed(c, KEY_SSID, s.ssid);
    var c2 := SetConf(c1, KEY_PASSPHRASE, s.passphrase);
    SetKeyed(c1, KEY_PASSPHRASE, s.passphrase);
    var c3 := SetConf(c2, KEY_COUNTRY, s.countryCode);
    SetKeyed(c2, KEY_COUNTRY, s.countryCode);
    SetKeyed(c3, KEY_CHANNEL, Show(s.channel));
  }

  /** What the line breaks of an edit make of another key. */
  function SpilledBy(text: string, s: WifiSettings.Settings, key: string): Option<string> {
    var edited := ApplyConf(ParseConf(text), s);
    Spilled(edited.lines, edited.trailing, key)
  }

  /**
   * For every text, all settings and every key but the four: the key reads as before
   * the edit exactly when no line break of the name or the password brings it before
   * its own line and its value is not cut short, or one does with the old value.
   */
  lemma WifiEditKeepsOthers(text: string, s: WifiSettings.Settings, key: string)
    requires key !in {KEY_SSID, KEY_PASSPHRASE, KEY_COUNTRY, KEY_CHANNEL}
    ensures var edited := ApplyConf(ParseConf(text), s);
            Lookup(ParseConf(PrintConf(edited)).lines, key) == Lookup(ParseConf(text).lines, key)
            <==> match SpilledBy(text, s, key)
                 case None => KeepsValue(edited, key)
                 case Some(v) => Lookup(ParseConf(text).lines, key) == Some(v)
  {
    var edited := ApplyConf(ParseConf(text), s);
    ParseLinesOk(text);
    ApplyKeyed(ParseConf(text), s);
    LookupApply(ParseConf(text), s, key);
    LoadedValueIsOneLine(text, key);
    ReloadedLookup(edited, key);
    OwnIsReadBack(edited, key);
    KeepsValueIff(edited, key);
  }

  lemma {:induction false} OneLinesSpillNothing(lines: seq<Line>, trailing: bool, key: string)
    requires LinesOk(lines)
    ensures Spilled(lines, trailing, key) == None
  {
    if lines != [] {
      assert lines[0] in lines && OneLine(lines[0]);
      FindNone(Render(lines[0]), '\n');
      assert Lookup([], key) == None;
      OneLinesSpillNothing(lines[1..], trailing, key);
    }
  }

  /** Validated settings without a line break bring nothing. */
  lemma PlainSettingsSpillNothing(text: string, s: WifiSettings.Settings, key: string)
    requires WifiSettings.Valid(s) && '\n' !in s.ssid && '\n' !in s.passphrase
    ensures SpilledBy(text, s, key) == None
  {
    ParseLinesOk(text);
    ApplyLinesOk(ParseConf(text), s);
    OneLinesSpillNothing(ApplyConf(ParseConf(text), s).lines, ApplyConf(ParseConf(text), s).trailing, key);
  }
}
