/** Updating the DNS settings twice: what the first update's text does to the second. */
module DnsRepeat {
  import opened Results
  import opened Text
  import opened LineConf
  import opened DnsConf

  // ------------------------------------------------------------- values with line breaks

  /** The lines of the file that one line of the object becomes, read again: a first one, and one for each line break. */
  function Pieces(l: Line): (r: seq<Line>)
    ensures |r| >= 1
  {
    PiecesOf(l, Clean)
  }

  function First(l: Line): Line {
    Pieces(l)[0]
  }

  function Extras(l: Line): seq<Line> {
    Pieces(l)[1..]
  }

  function SpreadWith(lines: seq<Line>, pieces: Line -> seq<Line>): seq<Line> {
    if lines == [] then [] else pieces(lines[0]) + SpreadWith(lines[1..], pieces)
  }

  function Spread(lines: seq<Line>): seq<Line> {
    SpreadWith(lines, Pieces)
  }

  /** Reading what was written, whatever the values hold. */
  lemma LoadsSpread(lines: seq<Line>)
    ensures Parse(Print(lines), Clean) == Spread(lines)
  {
    LoadsPieces(lines, Clean);
    SpreadIs(lines);
  }

  lemma {:induction false} SpreadIs(lines: seq<Line>)
    ensures AllPieces(lines, Clean) == Spread(lines)
  {
    if lines != [] {
      SpreadIs(lines[1..]);
    }
  }

  // ------------------------------------------------------------- pieces of a line

  /** The first line of a pair is the pair with the first line of its value. */
  lemma FirstOfPair(key: string, value: string)
    requires KeyedOk(Pair(key, value))
    ensures First(Pair(key, value)) == Pair(key, Trim(StripCr(Split(value, '\n')[0])))
  {
    var v0 := Split(value, '\n')[0];
    assert '\n' !in key + "=";
    SplitPrefix(key + "=", value, '\n');
    assert Split(key + "=" + value, '\n')[0] == key + "=" + v0;
    RereadLine(Pair(key, v0), Clean);
  }

  /** A line without a line break is one line, reread. */
  lemma PiecesOfOneLine(l: Line)
    requires LineOk(l) && OneLine(l)
    ensures Pieces(l) == [Reread(l, Clean)]
  {
    FindNone(Render(l), '\n');
    RereadLine(l, Clean);
  }

  lemma FirstKey(l: Line, key: string)
    requires KeyedOk(l)
    ensures Matches(First(l), key) <==> Matches(l, key)
  {
    match l
    case Raw(_) => PiecesOfOneLine(l);
    case Pair(k, v) => FirstOfPair(k, v);
  }

  lemma FirstRewritten(l: Line)
    requires KeyedOk(l)
    ensures Rewritten(First(l)) <==> Rewritten(l)
  {
    FirstKey(l, K_UPSTREAM);
    FirstKey(l, K_BLOCK_FILE);
    FirstKey(l, K_BLOCK_RESPONSE);
  }

  // ------------------------------------------------------------- stray lines

  /** The extra lines of a line that no update takes away again. */
  function StrayOf(l: Line): nat {
    |Core(Extras(l))|
  }

  function Strays(lines: seq<Line>): nat {
    if lines == [] then 0 else StrayOf(lines[0]) + Strays(lines[1..])
  }

  lemma {:induction false} StraysSplit(a: seq<Line>, b: seq<Line>)
    ensures Strays(a + b) == Strays(a) + Strays(b)
  {
    if a == [] {
      assert a + b == b;
    } else {
      assert (a + b)[1..] == a[1..] + b;
      StraysSplit(a[1..], b);
    }
  }

  lemma {:induction false} SpreadSplit(a: seq<Line>, b: seq<Line>, pieces: Line -> seq<Line>)
    ensures SpreadWith(a + b, pieces) == SpreadWith(a, pieces) + SpreadWith(b, pieces)
  {
    if a == [] {
      assert a + b == b;
    } else {
      assert (a + b)[1..] == a[1..] + b;
      SpreadSplit(a[1..], b, pieces);
    }
  }

  lemma CoreOfCons(all: seq<Line>, rewritten: bool)
    requires all != [] && (Rewritten(all[0]) <==> rewritten)
    ensures Core(all) == (if rewritten then [] else [all[0]]) + Core(all[1..])
  {
    assert all == [all[0]] + all[1..];
    CoreSplit([all[0]], all[1..]);
    CoreOfOne(all[0]);
  }

  lemma PiecesCore(l: Line)
    requires KeyedOk(l)
    ensures Core(Pieces(l)) == (if Rewritten(l) then [] else [First(l)]) + Core(Extras(l))
  {
    FirstRewritten(l);
    CoreOfCons(Pieces(l), Rewritten(l));
  }

  /** Every kept line gives one kept line, and every stray line one more. */
  lemma {:induction false} CoreOfSpread(lines: seq<Line>)
    requires AllKeyed(lines)
    ensures |Core(Spread(lines))| == |Core(lines)| + Strays(lines)
  {
    if lines != [] {
      assert lines == [lines[0]] + lines[1..];
      CoreSplit(Pieces(lines[0]), Spread(lines[1..]));
      PiecesCore(lines[0]);
      CoreSplit([lines[0]], lines[1..]);
      CoreOfOne(lines[0]);
      CoreOfSpread(lines[1..]);
    }
  }

  lemma {:induction false} SpreadKeepsKey(lines: seq<Line>, pieces: Line -> seq<Line>, key: string)
    requires HasKey(lines, key)
    requires forall l | l in lines && Matches(l, key) :: Core(pieces(l)) != [] && Matches(Core(pieces(l))[0], key)
    ensures HasKey(Core(SpreadWith(lines, pieces)), key)
  {
    var l, rest := lines[0], lines[1..];
    var all := Core(SpreadWith(lines, pieces));
    CoreSplit(pieces(l), SpreadWith(rest, pieces));
    if Matches(l, key) {
      assert Matches(all[0], key);
    } else {
      var j :| 0 <= j < |lines| && Matches(lines[j], key);
      assert Matches(rest[j - 1], key);
      SpreadKeepsKey(rest, pieces, key);
      var i :| 0 <= i < |Core(SpreadWith(rest, pieces))| && Matches(Core(SpreadWith(rest, pieces))[i], key);
      assert Matches(all[|Core(pieces(l))| + i], key);
    }
  }

  lemma KeptKey(lines: seq<Line>, key: string)
    requires AllKeyed(lines) && HasKey(lines, key) && (key == K_DOMAIN || key == K_ROUTER_NAME)
    ensures HasKey(Core(Spread(lines)), key)
  {
    KeysDiffer();
    forall l | l in lines && Matches(l, key)
      ensures Core(Pieces(l)) != [] && Matches(Core(Pieces(l))[0], key)
    {
      PiecesCore(l);
      FirstKey(l, key);
    }
    SpreadKeepsKey(lines, Pieces, key);
  }

  // ------------------------------------------------------------- counting lines

  lemma {:induction false} SpreadOneLine(lines: seq<Line>)
    requires LinesOk(lines)
    ensures |Spread(lines)| == |lines| && Strays(lines) == 0
  {
    if lines != [] {
      PiecesOfOneLine(lines[0]);
      assert Core([]) == [];
      SpreadOneLine(lines[1..]);
    }
  }

  /** Setting a key whose lines hold no line break. */
  lemma {:induction false} SpreadAssign(lines: seq<Line>, key: string, value: string)
    requires forall l | l in lines && Matches(l, key) :: LineOk(l) && OneLine(l)
    ensures |Spread(Assign(lines, key, value))|
            == |Spread(lines)| + |Extras(Pair(key, value))| + (if HasKey(lines, key) then 0 else 1)
    ensures Strays(Assign(lines, key, value)) == Strays(lines) + StrayOf(Pair(key, value))
  {
    if lines == [] {
      assert Assign(lines, key, value) == [Pair(key, value)];
      assert [Pair(key, value)][1..] == [];
    } else {
      var l, rest := lines[0], lines[1..];
      assert lines == [l] + rest;
      AssignCons(l, rest, key, value);
      if Matches(l, key) {
        PiecesOfOneLine(l);
        assert Core([]) == [];
        assert ([Pair(key, value)] + rest)[1..] == rest;
        assert HasKey(lines, key);
      } else {
        SpreadAssign(rest, key, value);
        assert ([l] + Assign(rest, key, value))[1..] == Assign(rest, key, value);
        HasKeyCons(l, rest, key);
      }
    }
  }

  lemma HasKeyCons(l: Line, rest: seq<Line>, key: string)
    ensures HasKey([l] + rest, key) <==> Matches(l, key) || HasKey(rest, key)
  {
    var all := [l] + rest;
    if HasKey(rest, key) {
      var i :| 0 <= i < |rest| && Matches(rest[i], key);
      assert Matches(all[i + 1], key);
    }
    if Matches(l, key) {
      assert Matches(all[0], key);
    }
  }

  predicate Named2(lines: seq<Line>) {
    HasKey(lines, K_DOMAIN) && HasKey(lines, K_ROUTER_NAME)
  }

  lemma NamedLines(core: seq<Line>, d: string, r: string)
    requires LinesOk(core)
    ensures |Spread(Named(core, d, r))|
            == |Named(core, d, r)| + |Extras(Pair(K_DOMAIN, d))| + |Extras(Pair(K_ROUTER_NAME, r))|
    ensures Strays(Named(core, d, r)) == StrayOf(Pair(K_DOMAIN, d)) + StrayOf(Pair(K_ROUTER_NAME, r))
    ensures Named2(Named(core, d, r)) && (Named2(core) ==> |Named(core, d, r)| == |core|)
  {
    KeysDiffer();
    var n1 := Assign(core, K_DOMAIN, d);
    SpreadOneLine(core);
    SpreadAssign(core, K_DOMAIN, d);
    forall l | l in n1 && Matches(l, K_ROUTER_NAME)
      ensures LineOk(l) && OneLine(l)
    {
      assert l in core;
    }
    SpreadAssign(n1, K_ROUTER_NAME, r);
    AssignKeeps(core, K_DOMAIN, d, K_ROUTER_NAME);
    AssignKeeps(n1, K_ROUTER_NAME, r, K_DOMAIN);
  }

  lemma AssignKeeps(lines: seq<Line>, key: string, value: string, other: string)
    requires key != other
    ensures HasKey(Assign(lines, key, value), key)
    ensures HasKey(Assign(lines, key, value), other) <==> HasKey(lines, other)
    ensures |Assign(lines, key, value)| == |lines| + (if HasKey(lines, key) then 0 else 1)
  {
    var a := Assign(lines, key, value);
    assert Matches(a[IndexOf(lines, key)], key);
    assert forall j | 0 <= j < |lines| :: Matches(a[j], other) <==> Matches(lines[j], other);
    assert HasKey(lines, key) <==> IndexOf(lines, key) < |lines|;
  }

  /** How many lines every update with these settings adds to the file for good. */
  function StraysOf(s: Settings): nat {
    StrayOf(Pair(K_DOMAIN, s.domain)) + StrayOf(Pair(K_ROUTER_NAME, s.routerName)) + Strays(Tail(s))
  }

  lemma TailKeyed(s: Settings)
    ensures AllKeyed(Tail(s))
  {
    KeysArePlain();
  }

  lemma UpdatedKeyed(lines: seq<Line>, s: Settings)
    requires LinesOk(lines)
    ensures LinesOk(Core(lines)) && AllKeyed(Updated(lines, s))
  {
    UpdatedShape(lines, s);
    CoreKeeps(lines);
    TailKeyed(s);
    NamesArePlain();
    NamedKeyed(Core(lines), s.domain, s.routerName);
  }

  lemma NamedKeyed(core: seq<Line>, d: string, r: string)
    requires LinesOk(core)
    ensures AllKeyed(Named(core, d, r))
  {
    NamesArePlain();
    OneLineKeyed(core);
  }

  lemma NamesArePlain()
    ensures PlainKey(K_DOMAIN) && PlainKey(K_ROUTER_NAME)
  {
  }

  lemma SpreadOfUpdate(lines: seq<Line>, s: Settings)
    requires LinesOk(lines)
    ensures var core := Core(lines);
            |Spread(Updated(lines, s))| == |Named(core, s.domain, s.routerName)| + |Extras(Pair(K_DOMAIN, s.domain))|
                                           + |Extras(Pair(K_ROUTER_NAME, s.routerName))| + |Spread(Tail(s))|
    ensures Strays(Updated(lines, s)) == StraysOf(s)
  {
    var core := Core(lines);
    UpdatedShape(lines, s);
    UpdatedKeyed(lines, s);
    NamedLines(core, s.domain, s.routerName);
    StraysSplit(Named(core, s.domain, s.routerName), Tail(s));
    SpreadSplit(Named(core, s.domain, s.routerName), Tail(s), Pieces);
  }

  lemma CoreOfUpdate(lines: seq<Line>, s: Settings)
    ensures Core(Updated(lines, s)) == Named(Core(lines), s.domain, s.routerName)
  {
    KeysDiffer();
    UpdatedShape(lines, s);
    CoreKeeps(lines);
    CoreSplit(Named(Core(lines), s.domain, s.routerName), Tail(s));
    CoreOfRewritten(Tail(s));
    NamedHolds(Core(lines), s.domain, s.routerName);
    CoreOfKept(Named(Core(lines), s.domain, s.routerName));
  }

  /** A second update's file is longer by exactly the stray lines. */
  lemma SecondIsLonger(lines: seq<Line>, s: Settings)
    requires LinesOk(lines) && LinesOk(Spread(Updated(lines, s)))
    ensures |Spread(Updated(Spread(Updated(lines, s)), s))| == |Spread(Updated(lines, s))| + StraysOf(s)
  {
    var u := Updated(lines, s);
    var again := Spread(u);
    UpdatedKeyed(lines, s);
    CoreOfSpread(u);
    CoreOfUpdate(lines, s);
    SpreadOfUpdate(lines, s);
    SpreadOfUpdate(again, s);
    UpdatedKeyed(again, s);
    NamedLines(Core(lines), s.domain, s.routerName);
    NamedLines(Core(again), s.domain, s.routerName);
    UpdateNames(lines, s);
    KeptKey(u, K_DOMAIN);
    KeptKey(u, K_ROUTER_NAME);
  }

  lemma UpdateNames(lines: seq<Line>, s: Settings)
    requires LinesOk(lines)
    ensures Named2(Updated(lines, s))
  {
    var n := Named(Core(lines), s.domain, s.routerName);
    UpdatedShape(lines, s);
    UpdatedKeyed(lines, s);
    NamedLines(Core(lines), s.domain, s.routerName);
    var i :| 0 <= i < |n| && Matches(n[i], K_DOMAIN);
    var j :| 0 <= j < |n| && Matches(n[j], K_ROUTER_NAME);
    assert Matches(Updated(lines, s)[i], K_DOMAIN) && Matches(Updated(lines, s)[j], K_ROUTER_NAME);
  }

  // ------------------------------------------------------------- settled lines

  /** A line as it is after one more round through the file, when its value was read from one. */
  function Settled(l: Line): Line {
    match l case Raw(text) => Raw(StripCr(text)) case Pair(_, _) => l
  }

  function MapAll(lines: seq<Line>, f: Line -> Line): (r: seq<Line>)
    ensures |r| == |lines| && forall i | 0 <= i < |lines| :: r[i] == f(lines[i])
  {
    seq(|lines|, i requires 0 <= i < |lines| => f(lines[i]))
  }

  function SettledAll(lines: seq<Line>): seq<Line> {
    MapAll(lines, Settled)
  }

  lemma MapAssign(lines: seq<Line>, f: Line -> Line, key: string, value: string, value': string)
    requires forall l | l in lines :: Matches(f(l), key) <==> Matches(l, key)
    requires f(Pair(key, value)) == Pair(key, value')
    ensures MapAll(Assign(lines, key, value), f) == Assign(MapAll(lines, f), key, value')
  {
    var r := MapAll(lines, f);
    assert forall j | 0 <= j < |lines| :: lines[j] in lines && (Matches(r[j], key) <==> Matches(lines[j], key));
    assert IndexOf(r, key) == IndexOf(lines, key);
  }

  /** Values as a parser leaves them. */
  predicate Cleaned(l: Line) {
    l.Pair? ==> Trimmed(l.value)
  }

  lemma ReadValuesTrimmed(text: string)
    ensures forall l | l in Parse(text, Clean) :: Cleaned(l)
  {
    var ls := Lines(text);
    forall i | 0 <= i < |ls|
      ensures Cleaned(Parse(text, Clean)[i])
    {
      if SplitOnce(ls[i], '=').Some? {
        TrimTrimmed(SplitOnce(ls[i], '=').value.1);
      }
    }
  }

  lemma RereadSettled(lines: seq<Line>)
    requires forall l | l in lines :: Cleaned(l)
    ensures RereadAll(lines, Clean) == SettledAll(lines)
  {
    forall i | 0 <= i < |lines|
      ensures Reread(lines[i], Clean) == Settled(lines[i])
    {
      assert lines[i] in lines;
      if lines[i].Pair? {
        TrimDropsCr(lines[i].value);
        TrimTrimmed(lines[i].value);
      }
    }
  }

  /** Setting a key twice is setting it once. */
  lemma AssignAssign(lines: seq<Line>, key: string, first: string, value: string)
    ensures Assign(Assign(lines, key, first), key, value) == Assign(lines, key, value)
    ensures HasKey(Assign(lines, key, first), key)
  {
    var a := Assign(lines, key, first);
    assert Matches(a[IndexOf(lines, key)], key);
    assert IndexOf(a, key) == IndexOf(lines, key);
  }

  /** A key that is there can be set before or after another one. */
  lemma AssignCommutes(lines: seq<Line>, key: string, value: string, other: string, o: string)
    requires key != other && HasKey(lines, key)
    ensures Assign(Assign(lines, other, o), key, value) == Assign(Assign(lines, key, value), other, o)
  {
    var a, b := Assign(lines, other, o), Assign(lines, key, value);
    assert forall j | 0 <= j < |lines| :: Matches(a[j], key) <==> Matches(lines[j], key);
    assert forall j | 0 <= j < |lines| :: Matches(b[j], other) <==> Matches(lines[j], other);
    assert IndexOf(a, key) == IndexOf(lines, key);
    assert IndexOf(b, other) == IndexOf(lines, other);
  }

  lemma NamedTwice(lines: seq<Line>, d: string, r: string, domain: string, routerName: string)
    ensures Named(Named(lines, d, r), domain, routerName) == Named(lines, domain, routerName)
  {
    KeysDiffer();
    var a := Assign(lines, K_DOMAIN, d);
    AssignAssign(lines, K_DOMAIN, d, domain);
    AssignCommutes(a, K_DOMAIN, domain, K_ROUTER_NAME, r);
    AssignAssign(Assign(lines, K_DOMAIN, domain), K_ROUTER_NAME, r, routerName);
  }

  lemma SettledTail(s: Settings)
    ensures SettledAll(Tail(s)) == Tail(s)
  {
  }

  lemma SettledNamed(core: seq<Line>, s: Settings)
    ensures SettledAll(Named(core, s.domain, s.routerName) + Tail(s))
            == Named(SettledAll(core), s.domain, s.routerName) + Tail(s)
  {
    MapAssign(core, Settled, K_DOMAIN, s.domain, s.domain);
    MapAssign(Assign(core, K_DOMAIN, s.domain), Settled, K_ROUTER_NAME, s.routerName, s.routerName);
    SettledTail(s);
    SettledSplit(Named(core, s.domain, s.routerName), Tail(s));
  }

  lemma SettledSplit(a: seq<Line>, b: seq<Line>)
    ensures SettledAll(a + b) == SettledAll(a) + SettledAll(b)
  {
  }

  /** No comment, blank line or line without `=` ends in a carriage return. */
  predicate NoStrayCr(lines: seq<Line>) {
    forall l | l in lines && l.Raw? :: StripCr(l.text) == l.text
  }

  lemma {:induction false} StrayCrKept(lines: seq<Line>, s: Settings)
    ensures NoStrayCr(Updated(lines, s)) <==> NoStrayCr(lines)
  {
    UpdateKeepsOthers(lines, s);
    RawsKept(lines);
    RawsKept(Updated(lines, s));
  }

  lemma {:induction false} RawsKept(lines: seq<Line>)
    ensures forall l: Line | l.Raw? :: l in Others(lines) <==> l in lines
  {
    if lines != [] {
      RawsKept(lines[1..]);
      assert lines == [lines[0]] + lines[1..];
      WithoutCons(lines[0], lines[1..], IsManaged());
    }
  }

  lemma SettledLine(l: Line)
    ensures |Render(Settled(l))| <= |Render(l)|
    ensures |Render(Settled(l))| == |Render(l)| <==> (l.Raw? ==> StripCr(l.text) == l.text)
  {
  }

  lemma NoStrayCons(l: Line, rest: seq<Line>)
    ensures NoStrayCr([l] + rest) <==> (l.Raw? ==> StripCr(l.text) == l.text) && NoStrayCr(rest)
  {
  }

  /** Losing carriage returns makes the text shorter. */
  lemma {:induction false} PrintSettled(lines: seq<Line>)
    ensures |Print(SettledAll(lines))| <= |Print(lines)|
    ensures |Print(SettledAll(lines))| == |Print(lines)| <==> NoStrayCr(lines)
  {
    if lines != [] {
      var l, rest := lines[0], lines[1..];
      assert lines == [l] + rest && SettledAll(lines) == [Settled(l)] + SettledAll(rest);
      PrintCons(l, rest);
      PrintCons(Settled(l), SettledAll(rest));
      PrintSettled(rest);
      SettledLine(l);
      NoStrayCons(l, rest);
    }
  }

  // ------------------------------------------------------------- without stray lines

  function IsRewritten(): Line -> bool {
    l => Rewritten(l)
  }

  lemma {:induction false} CoreIsWithout(lines: seq<Line>)
    ensures Core(lines) == Without(lines, IsRewritten())
  {
    if lines != [] {
      var l, rest := lines[0], lines[1..];
      assert lines == [l] + rest;
      CoreSplit([l], rest);
      CoreOfOne(l);
      WithoutCons(l, rest, IsRewritten());
      CoreIsWithout(rest);
    }
  }

  lemma MapCons(l: Line, rest: seq<Line>, f: Line -> Line)
    ensures MapAll([l] + rest, f) == [f(l)] + MapAll(rest, f)
  {
  }

  /** One line leaves itself, mapped, or nothing. */
  predicate LeavesOne(l: Line, pieces: Line -> seq<Line>, f: Line -> Line, drop: Line -> bool) {
    Without(pieces(l), drop) == if drop(l) then [] else [f(l)]
  }

  lemma {:induction false} WithoutOfMapped(lines: seq<Line>, pieces: Line -> seq<Line>, f: Line -> Line, drop: Line -> bool)
    requires forall l | l in lines :: LeavesOne(l, pieces, f, drop)
    ensures Without(SpreadWith(lines, pieces), drop) == MapAll(Without(lines, drop), f)
  {
    if lines != [] {
      var l, rest := lines[0], lines[1..];
      WithoutOfMapped(rest, pieces, f, drop);
      WithoutSplit(pieces(l), SpreadWith(rest, pieces), drop);
      assert LeavesOne(l, pieces, f, drop);
      if !drop(l) {
        MapCons(l, Without(rest, drop), f);
      }
    }
  }

  lemma {:induction false} NoStraysAnywhere(lines: seq<Line>)
    requires Strays(lines) == 0
    ensures forall l | l in lines :: StrayOf(l) == 0
  {
    if lines != [] {
      NoStraysAnywhere(lines[1..]);
    }
  }

  /** Then the second update keeps the first line of each line, and no other. */
  lemma CoreOfFirsts(lines: seq<Line>)
    requires AllKeyed(lines) && Strays(lines) == 0
    ensures Core(Spread(lines)) == MapAll(Core(lines), First)
  {
    NoStraysAnywhere(lines);
    forall l | l in lines
      ensures LeavesOne(l, Pieces, First, IsRewritten())
    {
      PiecesCore(l);
      assert StrayOf(l) == 0;
      CoreIsWithout(Pieces(l));
    }
    WithoutOfMapped(lines, Pieces, First, IsRewritten());
    CoreIsWithout(Spread(lines));
    CoreIsWithout(lines);
  }

  lemma FirstAssign(lines: seq<Line>, key: string, value: string)
    requires AllKeyed(lines) && KeyedOk(Pair(key, value))
    ensures MapAll(Assign(lines, key, value), First)
            == Assign(MapAll(lines, First), key, Trim(StripCr(Split(value, '\n')[0])))
  {
    forall l | l in lines
      ensures Matches(First(l), key) <==> Matches(l, key)
    {
      FirstKey(l, key);
    }
    FirstOfPair(key, value);
    MapAssign(lines, First, key, value, Trim(StripCr(Split(value, '\n')[0])));
  }

  lemma FirstOfRead(lines: seq<Line>)
    requires LinesOk(lines) && forall l | l in lines :: Cleaned(l)
    ensures MapAll(lines, First) == SettledAll(lines)
  {
    RereadSettled(lines);
    forall i | 0 <= i < |lines|
      ensures First(lines[i]) == Reread(lines[i], Clean)
    {
      assert lines[i] in lines;
      PiecesOfOneLine(lines[i]);
    }
  }

  lemma FirstNamed(core: seq<Line>, d: string, r: string)
    requires LinesOk(core) && forall l | l in core :: Cleaned(l)
    ensures exists d', r' :: MapAll(Named(core, d, r), First) == Named(SettledAll(core), d', r')
  {
    NamesArePlain();
    NamedKeyed(core, d, r);
    var d', r' := Trim(StripCr(Split(d, '\n')[0])), Trim(StripCr(Split(r, '\n')[0]));
    var n1 := Assign(core, K_DOMAIN, d);
    OneLineKeyed(core);
    FirstAssign(core, K_DOMAIN, d);
    assert AllKeyed(n1);
    FirstAssign(n1, K_ROUTER_NAME, r);
    FirstOfRead(core);
    assert MapAll(Named(core, d, r), First) == Named(SettledAll(core), d', r');
  }

  /** Without stray lines the second update changes carriage returns at the end of untouched lines, and nothing else. */
  lemma UpdateAgain(lines: seq<Line>, s: Settings)
    requires LinesOk(lines) && (forall l | l in lines :: Cleaned(l)) && StraysOf(s) == 0
    ensures Updated(Spread(Updated(lines, s)), s) == SettledAll(Updated(lines, s))
  {
    var core, again := Core(lines), Spread(Updated(lines, s));
    UpdatedKeyed(lines, s);
    SpreadOfUpdate(lines, s);
    CoreOfFirsts(Updated(lines, s));
    CoreOfUpdate(lines, s);
    CoreKeeps(lines);
    FirstNamed(core, s.domain, s.routerName);
    var d', r' :| Core(again) == Named(SettledAll(core), d', r');
    UpdatedShape(again, s);
    NamedTwice(SettledAll(core), d', r', s.domain, s.routerName);
    UpdatedShape(lines, s);
    SettledNamed(core, s);
  }

  /** For every text and all settings: a second update makes the file longer by exactly the stray lines. */
  lemma UpdateAddsStrays(text: string, s: Settings)
    ensures |Lines(UpdatedText(UpdatedText(text, s), s))| == |Lines(UpdatedText(text, s))| + StraysOf(s)
  {
    var u := Updated(Parse(text, Clean), s);
    LoadsSpread(u);
    ReadLinesOk(text);
    ReadLinesOk(UpdatedText(text, s));
    SecondIsLonger(Parse(text, Clean), s);
    LoadsSpread(Updated(Spread(u), s));
  }

  lemma SecondText(lines: seq<Line>, s: Settings, again: seq<Line>)
    requires LinesOk(lines) && (forall l | l in lines :: Cleaned(l))
    requires again == Spread(Updated(lines, s)) && LinesOk(again)
    ensures Print(Updated(again, s)) == Print(Updated(lines, s)) <==> StraysOf(s) == 0 && NoStrayCr(lines)
  {
    var u, u' := Updated(lines, s), Updated(again, s);
    SecondIsLonger(lines, s);
    LoadsSpread(u);
    LoadsSpread(u');
    if StraysOf(s) == 0 {
      UpdateAgain(lines, s);
      PrintSettled(u);
      StrayCrKept(lines, s);
      if NoStrayCr(u) {
        SettledIsIdentity(u);
      }
    }
  }

  /**
   * For every text and all settings: updating twice writes what updating once
   * writes, exactly when the settings bring in no stray line, by a line break in
   * a value, and no untouched line of the file ends in a carriage return.
   */
  lemma UpdateIsIdempotent(text: string, s: Settings)
    ensures UpdatedText(UpdatedText(text, s), s) == UpdatedText(text, s)
            <==> StraysOf(s) == 0 && NoStrayCr(Parse(text, Clean))
  {
    ReadLinesOk(text);
    ReadValuesTrimmed(text);
    ReadLinesOk(UpdatedText(text, s));
    LoadsSpread(Updated(Parse(text, Clean), s));
    SecondText(Parse(text, Clean), s, Parse(UpdatedText(text, s), Clean));
  }

  lemma SettledIsIdentity(lines: seq<Line>)
    requires NoStrayCr(lines)
    ensures SettledAll(lines) == lines
  {
    assert forall i | 0 <= i < |lines| :: lines[i] in lines;
  }

  /** Values without line breaks bring in no stray line. */
  lemma {:induction false} OnePieceHasNoStrays(s: Settings)
    requires OnePiece(s)
    ensures StraysOf(s) == 0
  {
    NamesArePlain();
    TailLinesOk(s);
    SpreadOneLine(Tail(s));
    PlainPair(K_DOMAIN, s.domain);
    PlainPair(K_ROUTER_NAME, s.routerName);
    PiecesOfOneLine(Pair(K_DOMAIN, s.domain));
    PiecesOfOneLine(Pair(K_ROUTER_NAME, s.routerName));
    assert Core([]) == [];
  }
}
