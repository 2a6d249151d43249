/** `nanodns.conf`: the settings update and what it leaves alone. */
module DnsConf {
  import opened Results
  import opened Text
  import opened LineConf

  const K_DOMAIN := "domain"
  const K_ROUTER_NAME := "router_name"
  const K_UPSTREAM := "upstream"
  const K_BLOCK_FILE := "block_file"
  const K_BLOCK_RESPONSE := "block_response"
  const SINKHOLE := "0.0.0.0"

  /** How a value is cleaned when it is read. */
  function Clean(v: string): string {
    Trim(v)
  }

  datatype Settings = Settings(
    domain: string, routerName: string, upstreams: seq<string>, blockFile: Option<string>, blockResponse: string)

  datatype DnsError = NotFound

  class NanoDnsConf {
    var lines: seq<Line>

    constructor (content: string)
      ensures lines == Parse(content, Clean)
    {
      lines := Parse(content, Clean);
    }

    method Set(key: string, value: string)
      modifies this
      ensures lines == Assign(old(lines), key, value)
    {
      lines := SetLine(lines, key, value);
    }

    method RemoveAll(key: string)
      modifies this
      ensures lines == Without(old(lines), KeyIs(key))
    {
      lines := Retain(lines, KeyIs(key));
    }

    method GetAll(key: string) returns (r: seq<string>)
      ensures r == LookupAll(lines, key)
    {
      r := AllValues(lines, key);
    }

    /** Removes the first such line only. */
    method RemoveWhere(key: string, value: string)
      modifies this
      ensures lines == WithoutFirst(old(lines), PairIs(key, value))
    {
      lines := RetainButFirst(lines, PairIs(key, value));
    }

    method Append(key: string, value: string)
      modifies this
      ensures lines == old(lines) + [Pair(key, value)]
    {
      lines := lines + [Pair(key, value)];
    }

    /** `Display` */
    method Display() returns (out: string)
      ensures out == Print(lines)
    {
      out := Write(lines);
    }

    /** The edits of `update_dns_settings`, in order. */
    method Update(s: Settings)
      modifies this
      ensures lines == Updated(old(lines), s)
    {
      Set(K_DOMAIN, s.domain);
      Set(K_ROUTER_NAME, s.routerName);
      RemoveAll(K_UPSTREAM);
      AppendUpstreams(s.upstreams);
      RemoveAll(K_BLOCK_FILE);
      RemoveAll(K_BLOCK_RESPONSE);
      AppendBlock(s);
    }

    method AppendUpstreams(upstreams: seq<string>)
      modifies this
      ensures lines == old(lines) + UpstreamLines(upstreams)
    {
      for i := 0 to |upstreams|
        invariant lines == old(lines) + UpstreamLines(upstreams)[..i]
      {
        Append(K_UPSTREAM, upstreams[i]);
      }
    }

    method AppendBlock(s: Settings)
      modifies this
      ensures lines == old(lines) + BlockLines(s)
    {
      if s.blockFile.Some? {
        Append(K_BLOCK_FILE, s.blockFile.value);
        Append(K_BLOCK_RESPONSE, s.blockResponse);
      }
    }
  }

  /** The lines without the first one that is to be removed. */
  function WithoutFirst(lines: seq<Line>, drop: Line -> bool): seq<Line> {
    if lines == [] then []
    else if drop(lines[0]) then lines[1..]
    else [lines[0]] + WithoutFirst(lines[1..], drop)
  }

  /** `retain` with a flag that is set by the first removal. */
  method RetainButFirst(lines: seq<Line>, drop: Line -> bool) returns (r: seq<Line>)
    ensures r == WithoutFirst(lines, drop)
  {
    r := [];
    var removed := false;
    for i := 0 to |lines|
      invariant removed ==> r + lines[i..] == WithoutFirst(lines, drop)
      invariant !removed ==> r + WithoutFirst(lines[i..], drop) == WithoutFirst(lines, drop)
    {
      WithoutFirstAt(r, lines, i, drop);
      if !removed && drop(lines[i]) {
        removed := true;
      } else {
        r := r + [lines[i]];
      }
    }
    assert lines[|lines|..] == [];
  }

  lemma WithoutFirstAt(r: seq<Line>, lines: seq<Line>, i: nat, drop: Line -> bool)
    requires i < |lines|
    ensures r + lines[i..] == (r + [lines[i]]) + lines[i + 1..]
    ensures r + WithoutFirst(lines[i..], drop)
            == if drop(lines[i]) then r + lines[i + 1..] else (r + [lines[i]]) + WithoutFirst(lines[i + 1..], drop)
  {
    assert lines[i..] == [lines[i]] + lines[i + 1..] && lines[i..][1..] == lines[i + 1..];
    assert forall t: seq<Line> :: r + ([lines[i]] + t) == (r + [lines[i]]) + t;
  }

  /** `update_dns_settings` on the text of the file; an unwritable file is reported as not found. */
  method UpdateDnsSettings(text: string, s: Settings, writable: bool) returns (r: Result<string, DnsError>)
    ensures r == if writable then Ok(UpdatedText(text, s)) else Err(NotFound)
  {
    var conf := new NanoDnsConf(text);
    if !writable {
      return Err(NotFound);
    }
    conf.Update(s);
    var out := conf.Display();
    r := Ok(out);
  }

  // ------------------------------------------------------------- reading settings

  function OrElse(v: Option<string>, default: string): string {
    match v case Some(x) => x case None => default
  }

  function Read(lines: seq<Line>): Settings {
    Settings(OrElse(Lookup(lines, K_DOMAIN), "lan"), OrElse(Lookup(lines, K_ROUTER_NAME), "router"),
             LookupAll(lines, K_UPSTREAM), Lookup(lines, K_BLOCK_FILE), OrElse(Lookup(lines, K_BLOCK_RESPONSE), SINKHOLE))
  }

  // ------------------------------------------------------------- what an update does

  function UpstreamLines(upstreams: seq<string>): (r: seq<Line>)
    ensures |r| == |upstreams| && forall i | 0 <= i < |r| :: r[i] == Pair(K_UPSTREAM, upstreams[i])
  {
    seq(|upstreams|, i requires 0 <= i < |upstreams| => Pair(K_UPSTREAM, upstreams[i]))
  }

  function BlockLines(s: Settings): seq<Line> {
    match s.blockFile
    case Some(path) => [Pair(K_BLOCK_FILE, path), Pair(K_BLOCK_RESPONSE, s.blockResponse)]
    case None => []
  }

  function Updated(lines: seq<Line>, s: Settings): seq<Line> {
    var l1 := Assign(lines, K_DOMAIN, s.domain);
    var l2 := Assign(l1, K_ROUTER_NAME, s.routerName);
    var l3 := Without(l2, KeyIs(K_UPSTREAM)) + UpstreamLines(s.upstreams);
    Without(Without(l3, KeyIs(K_BLOCK_FILE)), KeyIs(K_BLOCK_RESPONSE)) + BlockLines(s)
  }

  function UpdatedText(text: string, s: Settings): string {
    Print(Updated(Parse(text, Clean), s))
  }

  /** The lines without the keys an update rewrites from scratch. */
  function Core(lines: seq<Line>): seq<Line> {
    Without(Without(Without(lines, KeyIs(K_UPSTREAM)), KeyIs(K_BLOCK_FILE)), KeyIs(K_BLOCK_RESPONSE))
  }

  function Named(lines: seq<Line>, domain: string, routerName: string): seq<Line> {
    Assign(Assign(lines, K_DOMAIN, domain), K_ROUTER_NAME, routerName)
  }

  function Tail(s: Settings): seq<Line> {
    UpstreamLines(s.upstreams) + BlockLines(s)
  }

  lemma KeysDiffer()
    ensures K_DOMAIN != K_ROUTER_NAME && K_DOMAIN != K_UPSTREAM && K_DOMAIN != K_BLOCK_FILE && K_DOMAIN != K_BLOCK_RESPONSE
    ensures K_ROUTER_NAME != K_UPSTREAM && K_ROUTER_NAME != K_BLOCK_FILE && K_ROUTER_NAME != K_BLOCK_RESPONSE
    ensures K_UPSTREAM != K_BLOCK_FILE && K_UPSTREAM != K_BLOCK_RESPONSE && K_BLOCK_FILE != K_BLOCK_RESPONSE
  {
    assert K_DOMAIN[0] == 'd' && K_ROUTER_NAME[0] == 'r' && K_UPSTREAM[0] == 'u' && K_BLOCK_FILE[0] == 'b';
    assert K_BLOCK_FILE[6] == 'f' && K_BLOCK_RESPONSE[6] == 'r';
  }

  lemma AssignCons(l: Line, rest: seq<Line>, key: string, value: string)
    ensures Assign([l] + rest, key, value)
            == if Matches(l, key) then [Pair(key, value)] + rest else [l] + Assign(rest, key, value)
  {
    var all := [l] + rest;
    assert all[1..] == rest;
    assert IndexOf(all, key) == if Matches(l, key) then 0 else 1 + IndexOf(rest, key);
  }

  lemma WithoutCons(l: Line, rest: seq<Line>, drop: Line -> bool)
    ensures Without([l] + rest, drop) == if drop(l) then Without(rest, drop) else [l] + Without(rest, drop)
  {
    assert ([l] + rest)[1..] == rest;
  }

  /** Setting one key and removing another can be done in either order. */
  lemma {:induction false} WithoutAssign(lines: seq<Line>, key: string, value: string, other: string)
    requires other != key
    ensures Without(Assign(lines, key, value), KeyIs(other)) == Assign(Without(lines, KeyIs(other)), key, value)
  {
    if lines == [] {
      WithoutCons(Pair(key, value), [], KeyIs(other));
    } else {
      var l, rest := lines[0], lines[1..];
      assert lines == [l] + rest;
      AssignCons(l, rest, key, value);
      WithoutCons(l, rest, KeyIs(other));
      WithoutCons(l, Assign(rest, key, value), KeyIs(other));
      WithoutCons(Pair(key, value), rest, KeyIs(other));
      AssignCons(l, Without(rest, KeyIs(other)), key, value);
      WithoutAssign(rest, key, value, other);
    }
  }

  lemma {:induction false} WithoutAbsent(lines: seq<Line>, key: string)
    requires !HasKey(lines, key)
    ensures Without(lines, KeyIs(key)) == lines
  {
    if lines != [] {
      assert !Matches(lines[0], key);
      WithoutAbsent(lines[1..], key);
      assert lines == [lines[0]] + lines[1..];
    }
  }

  lemma CoreAssign(lines: seq<Line>, key: string, value: string)
    requires key == K_DOMAIN || key == K_ROUTER_NAME
    ensures Core(Assign(lines, key, value)) == Assign(Core(lines), key, value)
  {
    KeysDiffer();
    var a := Without(lines, KeyIs(K_UPSTREAM));
    var b := Without(a, KeyIs(K_BLOCK_FILE));
    WithoutAssign(lines, key, value, K_UPSTREAM);
    WithoutAssign(a, key, value, K_BLOCK_FILE);
    WithoutAssign(b, key, value, K_BLOCK_RESPONSE);
  }

  lemma CoreNamed(lines: seq<Line>, domain: string, routerName: string)
    ensures Core(Named(lines, domain, routerName)) == Named(Core(lines), domain, routerName)
  {
    CoreAssign(lines, K_DOMAIN, domain);
    CoreAssign(Assign(lines, K_DOMAIN, domain), K_ROUTER_NAME, routerName);
  }

  lemma CoreSplit(a: seq<Line>, b: seq<Line>)
    ensures Core(a + b) == Core(a) + Core(b)
  {
    var up, file, response := KeyIs(K_UPSTREAM), KeyIs(K_BLOCK_FILE), KeyIs(K_BLOCK_RESPONSE);
    WithoutSplit(a, b, up);
    WithoutSplit(Without(a, up), Without(b, up), file);
    WithoutSplit(Without(Without(a, up), file), Without(Without(b, up), file), response);
  }

  /** An update names the zone among the kept lines and puts the rest at the end. */
  lemma UpdatedShape(lines: seq<Line>, s: Settings)
    ensures Updated(lines, s) == Named(Core(lines), s.domain, s.routerName) + Tail(s)
  {
    KeysDiffer();
    var ups := UpstreamLines(s.upstreams);
    var l2 := Named(lines, s.domain, s.routerName);
    var kept := Without(l2, KeyIs(K_UPSTREAM));
    WithoutSplit(kept, ups, KeyIs(K_BLOCK_FILE));
    WithoutAbsent(ups, K_BLOCK_FILE);
    WithoutSplit(Without(kept, KeyIs(K_BLOCK_FILE)), ups, KeyIs(K_BLOCK_RESPONSE));
    WithoutAbsent(ups, K_BLOCK_RESPONSE);
    CoreNamed(lines, s.domain, s.routerName);
  }

  /** Nothing of the tail is kept by the next update. */
  predicate Rewritten(l: Line) {
    Matches(l, K_UPSTREAM) || Matches(l, K_BLOCK_FILE) || Matches(l, K_BLOCK_RESPONSE)
  }

  lemma {:induction false} CoreOfRewritten(lines: seq<Line>)
    requires forall i | 0 <= i < |lines| :: Rewritten(lines[i])
    ensures Core(lines) == []
  {
    if lines != [] {
      CoreOfRewritten(lines[1..]);
      CoreSplit([lines[0]], lines[1..]);
      assert lines == [lines[0]] + lines[1..];
      CoreOfOne(lines[0]);
    }
  }

  lemma CoreOfOne(l: Line)
    ensures Core([l]) == if Rewritten(l) then [] else [l]
  {
    WithoutCons(l, [], KeyIs(K_UPSTREAM));
    WithoutCons(l, [], KeyIs(K_BLOCK_FILE));
    WithoutCons(l, [], KeyIs(K_BLOCK_RESPONSE));
    assert [l] == [l] + [];
  }

  lemma {:induction false} CoreOfKept(lines: seq<Line>)
    requires forall i | 0 <= i < |lines| :: !Rewritten(lines[i])
    ensures Core(lines) == lines
  {
    if lines != [] {
      CoreOfKept(lines[1..]);
      CoreSplit([lines[0]], lines[1..]);
      assert lines == [lines[0]] + lines[1..];
      CoreOfOne(lines[0]);
    }
  }

  lemma CoreKeeps(lines: seq<Line>)
    ensures forall l | l in Core(lines) :: l in lines && !Rewritten(l)
  {
    var a := Without(lines, KeyIs(K_UPSTREAM));
    var b := Without(a, KeyIs(K_BLOCK_FILE));
    WithoutKeeps(lines, KeyIs(K_UPSTREAM));
    WithoutKeeps(a, KeyIs(K_BLOCK_FILE));
    WithoutKeeps(b, KeyIs(K_BLOCK_RESPONSE));
  }

  // ------------------------------------------------------------- reading it back

  function CleanAll(vs: seq<string>): (r: seq<string>)
    ensures |r| == |vs| && forall i | 0 <= i < |vs| :: r[i] == Trim(vs[i])
  {
    seq(|vs|, i requires 0 <= i < |vs| => Trim(vs[i]))
  }

  /** The values of a key after writing and reading: the same number and order, trimmed. */
  lemma ValuesReread(lines: seq<Line>, key: string)
    ensures LookupAll(RereadAll(lines, Clean), key) == CleanAll(LookupAll(lines, key))
  {
    var values := LookupAll(lines, key);
    LookupAllReread(lines, Clean, key);
    forall i | 0 <= i < |values|
      ensures Clean(StripCr(values[i])) == Trim(values[i])
    {
      TrimDropsCr(values[i]);
    }
  }

  lemma {:induction false} LookupAllAbsent(lines: seq<Line>, key: string)
    requires forall l | l in lines :: !Matches(l, key)
    ensures LookupAll(lines, key) == [] && Lookup(lines, key) == None
  {
    if lines != [] {
      LookupAllAbsent(lines[1..], key);
    }
  }

  lemma {:induction false} UpstreamsOf(upstreams: seq<string>)
    ensures LookupAll(UpstreamLines(upstreams), K_UPSTREAM) == upstreams
  {
    if upstreams != [] {
      UpstreamsOf(upstreams[1..]);
      assert UpstreamLines(upstreams)[1..] == UpstreamLines(upstreams[1..]);
      assert upstreams == [upstreams[0]] + upstreams[1..];
    }
  }

  /** What each key holds in updated lines. */
  ghost predicate HoldsUpdate(lines: seq<Line>, s: Settings) {
    && Lookup(lines, K_DOMAIN) == Some(s.domain)
    && Lookup(lines, K_ROUTER_NAME) == Some(s.routerName)
    && LookupAll(lines, K_UPSTREAM) == s.upstreams
    && Lookup(lines, K_BLOCK_FILE) == s.blockFile
    && Lookup(lines, K_BLOCK_RESPONSE) == if s.blockFile.Some? then Some(s.blockResponse) else None
  }

  lemma NamedHolds(core: seq<Line>, domain: string, routerName: string)
    requires forall l | l in core :: !Rewritten(l)
    ensures var n := Named(core, domain, routerName);
            && Lookup(n, K_DOMAIN) == Some(domain) && Lookup(n, K_ROUTER_NAME) == Some(routerName)
            && (forall l | l in n :: !Rewritten(l))
  {
    KeysDiffer();
    var n1 := Assign(core, K_DOMAIN, domain);
    LookupAssign(core, K_DOMAIN, domain, K_DOMAIN);
    LookupAssign(n1, K_ROUTER_NAME, routerName, K_DOMAIN);
    LookupAssign(n1, K_ROUTER_NAME, routerName, K_ROUTER_NAME);
    assert forall l | l in n1 :: !Rewritten(l);
  }

  lemma TailHolds(s: Settings)
    ensures LookupAll(Tail(s), K_UPSTREAM) == s.upstreams
    ensures Lookup(Tail(s), K_BLOCK_FILE) == s.blockFile
    ensures Lookup(Tail(s), K_BLOCK_RESPONSE) == if s.blockFile.Some? then Some(s.blockResponse) else None
  {
    KeysDiffer();
    var ups, block := UpstreamLines(s.upstreams), BlockLines(s);
    LookupAllSplit(ups, block, K_UPSTREAM);
    LookupSplit(ups, block, K_BLOCK_FILE);
    LookupSplit(ups, block, K_BLOCK_RESPONSE);
    UpstreamsOf(s.upstreams);
    LookupAllAbsent(block, K_UPSTREAM);
    LookupAllAbsent(ups, K_BLOCK_FILE);
    LookupAllAbsent(ups, K_BLOCK_RESPONSE);
    if s.blockFile.Some? {
      assert block[1..] == [Pair(K_BLOCK_RESPONSE, s.blockResponse)];
    }
  }

  lemma UpdateHolds(lines: seq<Line>, s: Settings)
    ensures HoldsUpdate(Updated(lines, s), s)
  {
    UpdatedShape(lines, s);
    CoreKeeps(lines);
    var n := Named(Core(lines), s.domain, s.routerName);
    NamedHolds(Core(lines), s.domain, s.routerName);
    TailHolds(s);
    LookupSplit(n, Tail(s), K_DOMAIN);
    LookupSplit(n, Tail(s), K_ROUTER_NAME);
    LookupSplit(n, Tail(s), K_BLOCK_FILE);
    LookupSplit(n, Tail(s), K_BLOCK_RESPONSE);
    LookupAllSplit(n, Tail(s), K_UPSTREAM);
    LookupAllAbsent(n, K_UPSTREAM);
    LookupAllAbsent(n, K_BLOCK_FILE);
    LookupAllAbsent(n, K_BLOCK_RESPONSE);
  }

  /** What is left of settings after a round through the file. */
  function Normal(s: Settings): Settings {
    Settings(Trim(s.domain), Trim(s.routerName), CleanAll(s.upstreams),
             match s.blockFile case Some(p) => Some(Trim(p)) case None => None,
             if s.blockFile.Some? then Trim(s.blockResponse) else SINKHOLE)
  }

  lemma ReadReread(lines: seq<Line>, s: Settings)
    requires HoldsUpdate(lines, s)
    ensures Read(RereadAll(lines, Clean)) == Normal(s)
  {
    LookupReread(lines, Clean, K_DOMAIN);
    LookupReread(lines, Clean, K_ROUTER_NAME);
    LookupReread(lines, Clean, K_BLOCK_FILE);
    LookupReread(lines, Clean, K_BLOCK_RESPONSE);
    ValuesReread(lines, K_UPSTREAM);
    TrimDropsCr(s.domain);
    TrimDropsCr(s.routerName);
    TrimDropsCr(s.blockResponse);
    if s.blockFile.Some? {
      TrimDropsCr(s.blockFile.value);
    }
  }

  /** No line break in any value. */
  predicate OnePiece(s: Settings) {
    && '\n' !in s.domain && '\n' !in s.routerName && '\n' !in s.blockResponse
    && (s.blockFile.Some? ==> '\n' !in s.blockFile.value)
    && forall u | u in s.upstreams :: '\n' !in u
  }

  lemma ReadLinesOk(text: string)
    ensures LinesOk(Parse(text, Clean))
  {
    forall v | '\n' in Clean(v)
      ensures '\n' in v
    {
      TrimPiece(v);
    }
    ParsedLinesOk(text, Clean);
  }

  predicate PlainLine(l: Line) {
    LineOk(l) && OneLine(l)
  }

  predicate PlainKey(key: string) {
    Trimmed(key) && '=' !in key && '\n' !in key && (key == "" || key[0] != '#')
  }

  lemma KeysArePlain()
    ensures PlainKey(K_UPSTREAM) && PlainKey(K_BLOCK_FILE) && PlainKey(K_BLOCK_RESPONSE)
  {
  }

  lemma PlainPair(key: string, value: string)
    requires PlainKey(key) && '\n' !in value
    ensures PlainLine(Pair(key, value))
  {
    var text := key + "=" + value;
    assert forall i | 0 <= i < |text| :: text[i] in key || text[i] == '=' || text[i] in value;
  }

  lemma TailLinesOk(s: Settings)
    requires OnePiece(s)
    ensures LinesOk(Tail(s))
  {
    KeysArePlain();
    forall i | 0 <= i < |s.upstreams|
      ensures PlainLine(UpstreamLines(s.upstreams)[i])
    {
      PlainPair(K_UPSTREAM, s.upstreams[i]);
    }
    if s.blockFile.Some? {
      PlainPair(K_BLOCK_FILE, s.blockFile.value);
      PlainPair(K_BLOCK_RESPONSE, s.blockResponse);
    }
    assert forall l | l in Tail(s) :: PlainLine(l);
  }

  lemma UpdatedLinesOk(lines: seq<Line>, s: Settings)
    requires LinesOk(lines) && OnePiece(s)
    ensures LinesOk(Updated(lines, s))
  {
    UpdatedShape(lines, s);
    CoreKeeps(lines);
    AssignLinesOk(Core(lines), K_DOMAIN, s.domain);
    AssignLinesOk(Assign(Core(lines), K_DOMAIN, s.domain), K_ROUTER_NAME, s.routerName);
    TailLinesOk(s);
  }

  predicate AllTrimmed(s: Settings) {
    && Trimmed(s.domain) && Trimmed(s.routerName)
    && (forall u | u in s.upstreams :: Trimmed(u))
    && (s.blockFile.Some? ==> Trimmed(s.blockFile.value) && Trimmed(s.blockResponse))
  }

  /** Exactly which settings come back unchanged. */
  lemma NormalIsIdentity(s: Settings)
    ensures Normal(s) == s <==> AllTrimmed(s) && (s.blockFile.None? ==> s.blockResponse == SINKHOLE)
  {
    TrimTrimmed(s.domain);
    TrimTrimmed(s.routerName);
    TrimTrimmed(s.blockResponse);
    if s.blockFile.Some? {
      TrimTrimmed(s.blockFile.value);
    }
    forall i | 0 <= i < |s.upstreams|
      ensures CleanAll(s.upstreams)[i] == s.upstreams[i] <==> Trimmed(s.upstreams[i])
    {
      TrimTrimmed(s.upstreams[i]);
    }
    if CleanAll(s.upstreams) == s.upstreams {
      assert forall u | u in s.upstreams :: Trimmed(u);
    }
    if forall u | u in s.upstreams :: Trimmed(u) {
      assert forall i | 0 <= i < |s.upstreams| :: s.upstreams[i] in s.upstreams;
    }
  }

  lemma {:induction false} ValuesAreOneLine(lines: seq<Line>, key: string)
    requires LinesOk(lines)
    ensures forall v | v in LookupAll(lines, key) :: '\n' !in v
    ensures Lookup(lines, key).Some? ==> '\n' !in Lookup(lines, key).value
  {
    if lines != [] {
      assert lines[0] in lines && OneLine(lines[0]);
      ValuesAreOneLine(lines[1..], key);
    }
  }

  /** Settings that come from a file never hold a line break. */
  lemma ReadIsOnePiece(text: string)
    ensures OnePiece(Read(Parse(text, Clean)))
  {
    var lines := Parse(text, Clean);
    ReadLinesOk(text);
    ValuesAreOneLine(lines, K_DOMAIN);
    ValuesAreOneLine(lines, K_ROUTER_NAME);
    ValuesAreOneLine(lines, K_UPSTREAM);
    ValuesAreOneLine(lines, K_BLOCK_FILE);
    ValuesAreOneLine(lines, K_BLOCK_RESPONSE);
  }

  /** Without line breaks, settings read back trimmed, and a response without a block file is dropped. */
  lemma UpdateReadsNormal(text: string, s: Settings)
    requires OnePiece(s)
    ensures Read(Parse(UpdatedText(text, s), Clean)) == Normal(s)
  {
    var lines := Parse(text, Clean);
    ReadLinesOk(text);
    UpdatedLinesOk(lines, s);
    UpdateHolds(lines, s);
    ParsePrint(Updated(lines, s), Clean);
    ReadReread(Updated(lines, s), s);
  }

  /**
   * For every file and all settings: they read back as given exactly when no
   * value holds a line break, all are trimmed, and a response without a block
   * file is the default one.
   */
  lemma UpdateReadsBack(text: string, s: Settings)
    ensures Read(Parse(UpdatedText(text, s), Clean)) == s
            <==> OnePiece(s) && AllTrimmed(s) && (s.blockFile.None? ==> s.blockResponse == SINKHOLE)
  {
    ReadIsOnePiece(UpdatedText(text, s));
    if OnePiece(s) {
      UpdateReadsNormal(text, s);
      NormalIsIdentity(s);
    }
  }

  // ------------------------------------------------------------- what stays

  predicate Managed(l: Line) {
    Rewritten(l) || Matches(l, K_DOMAIN) || Matches(l, K_ROUTER_NAME)
  }

  function IsManaged(): Line -> bool {
    l => Managed(l)
  }

  /** The lines no update touches. */
  function Others(lines: seq<Line>): seq<Line> {
    Without(lines, IsManaged())
  }

  lemma {:induction false} OthersOfManaged(lines: seq<Line>)
    requires forall i | 0 <= i < |lines| :: Managed(lines[i])
    ensures Others(lines) == []
  {
    if lines != [] {
      OthersOfManaged(lines[1..]);
    }
  }

  lemma {:induction false} OthersAssign(lines: seq<Line>, key: string, value: string)
    requires key == K_DOMAIN || key == K_ROUTER_NAME
    ensures Others(Assign(lines, key, value)) == Others(lines)
  {
    if lines == [] {
      assert Assign(lines, key, value) == [Pair(key, value)];
      OthersOfManaged([Pair(key, value)]);
    } else {
      var l, rest := lines[0], lines[1..];
      assert lines == [l] + rest;
      AssignCons(l, rest, key, value);
      WithoutCons(l, rest, IsManaged());
      WithoutCons(l, Assign(rest, key, value), IsManaged());
      WithoutCons(Pair(key, value), rest, IsManaged());
      OthersAssign(rest, key, value);
    }
  }

  lemma {:induction false} OthersCore(lines: seq<Line>)
    ensures Others(Core(lines)) == Others(lines)
  {
    if lines != [] {
      var l, rest := lines[0], lines[1..];
      assert lines == [l] + rest;
      CoreSplit([l], rest);
      CoreOfOne(l);
      assert Core(lines) == if Rewritten(l) then Core(rest) else [l] + Core(rest);
      WithoutCons(l, rest, IsManaged());
      WithoutCons(l, Core(rest), IsManaged());
      OthersCore(rest);
    }
  }

  /** An update keeps every line with another key, every comment and blank line, and their order. */
  lemma UpdateKeepsOthers(lines: seq<Line>, s: Settings)
    ensures Others(Updated(lines, s)) == Others(lines)
  {
    UpdatedShape(lines, s);
    OthersOfParts(Named(Core(lines), s.domain, s.routerName), s);
    OthersNamed(Core(lines), s.domain, s.routerName);
    OthersCore(lines);
  }

  lemma OthersOfParts(named: seq<Line>, s: Settings)
    ensures Others(named + Tail(s)) == Others(named)
  {
    WithoutSplit(named, Tail(s), IsManaged());
    OthersOfManaged(Tail(s));
  }

  lemma OthersNamed(core: seq<Line>, domain: string, routerName: string)
    ensures Others(Named(core, domain, routerName)) == Others(core)
  {
    OthersAssign(core, K_DOMAIN, domain);
    OthersAssign(Assign(core, K_DOMAIN, domain), K_ROUTER_NAME, routerName);
  }
}
