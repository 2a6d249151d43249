/** Static leases: `static=name,mac,ip` lines of `nanodhcp.conf`, added and removed through the file's text. */
module StaticLeases {
  import opened Results
  import opened Text
  import opened Numbers
  import opened LineConf
  import opened DhcpConf
  import opened ConfigDisk

  const K_STATIC := "static"

  datatype Lease = Lease(name: string, mac: string, ip: Ipv4)

  datatype LeaseError =
    | NoFile | NotReadable | DuplicateMac(mac: string) | DuplicateIp(ip: Ipv4) | NotFound(mac: string)
    | NotWritable | WriteFailed

  function ToConfValue(l: Lease): string {
    l.name + "," + (Lower(l.mac) + "," + ShowIp(l.ip))
  }

  /** Three fields; everything after the second comma belongs to the address. */
  function ParseLease(value: string): Option<Lease> {
    match SplitOnce(value, ',')
    case None => None
    case Some((name, rest)) =>
      match SplitOnce(rest, ',')
      case None => None
      case Some((mac, ip)) =>
        match ParseIp(Trim(ip))
        case None => None
        case Some(a) => Some(Lease(Trim(name), Lower(Trim(mac)), a))
  }

  /** The leases among the values, in order; others are skipped. */
  function Parsed(values: seq<string>): seq<Lease> {
    FilterMap(values, ParseLease)
  }

  /** The values of the `static` lines. */
  function Statics(lines: seq<Line>): seq<string> {
    LookupAll(lines, K_STATIC)
  }

  /** The leases of a file. */
  function Listed(lines: seq<Line>): seq<Lease> {
    Parsed(Statics(lines))
  }

  predicate HasMac(leases: seq<Lease>, mac: string) {
    exists i | 0 <= i < |leases| :: leases[i].mac == mac
  }

  predicate HasIp(leases: seq<Lease>, ip: Ipv4) {
    exists i | 0 <= i < |leases| :: leases[i].ip == ip
  }

  /** The first lease with this MAC. */
  function FirstWithMac(leases: seq<Lease>, mac: string): (l: Lease)
    requires HasMac(leases, mac)
    ensures l.mac == mac && l in leases
  {
    if leases[0].mac == mac then leases[0] else FirstWithMac(leases[1..], mac)
  }

  // ------------------------------------------------------------------ operations

  /** What adding does to the lines of the file: the error, or the lines that are written. */
  function Added(lines: seq<Line>, lease: Lease, writable: bool): Result<seq<Line>, LeaseError> {
    if HasMac(Listed(lines), Lower(lease.mac)) then Err(DuplicateMac(Lower(lease.mac)))
    else if HasIp(Listed(lines), lease.ip) then Err(DuplicateIp(lease.ip))
    else if !writable then Err(NotWritable)
    else Ok(lines + [Pair(K_STATIC, ToConfValue(lease))])
  }

  /** The value a removal looks for: the canonical form of the first lease with that MAC. */
  function Target(lines: seq<Line>, mac: string): string
    requires HasMac(Listed(lines), Lower(mac))
  {
    ToConfValue(FirstWithMac(Listed(lines), Lower(mac)))
  }

  /** What removing does to the lines of the file. */
  function Removed(lines: seq<Line>, mac: string, writable: bool): Result<seq<Line>, LeaseError> {
    if !HasMac(Listed(lines), Lower(mac)) then Err(NotFound(Lower(mac)))
    else if !writable then Err(NotWritable)
    else Ok(Without(lines, PairIs(K_STATIC, Target(lines, mac))))
  }

  datatype Op = Add(lease: Lease, writable: bool) | Remove(mac: string, writable: bool)

  function Outcome(lines: seq<Line>, op: Op): Result<seq<Line>, LeaseError> {
    match op
    case Add(lease, writable) => Added(lines, lease, writable)
    case Remove(mac, writable) => Removed(lines, mac, writable)
  }

  /** The file after an operation, and its result; only a write that fails leaves anything but the old or the new text. */
  function FileAfter(content: Option<string>, readable: bool, op: Op, write: Io): (Option<string>, Result<(), LeaseError>) {
    if content.None? then (content, Err(NoFile))
    else if !readable then (content, Err(NotReadable))
    else
      match Outcome(Parse(content.value, Settle), op)
      case Err(e) => (content, Err(e))
      case Ok(lines) => if write.Done? then (Some(Print(lines)), Ok(())) else (write.leaves, Err(WriteFailed))
  }

  /** `get_all(..).filter_map(StaticLease::parse)` */
  method ReadLeases(conf: DhcpConf) returns (leases: seq<Lease>)
    ensures leases == Listed(conf.lines)
  {
    var values := conf.GetAll(K_STATIC);
    leases := Collect(values, ParseLease);
  }

  /** `find_map` for a MAC */
  method FindMac(leases: seq<Lease>, mac: string) returns (r: Option<Lease>)
    ensures r == if HasMac(leases, mac) then Some(FirstWithMac(leases, mac)) else None
  {
    for i := 0 to |leases|
      invariant forall j | 0 <= j < i :: leases[j].mac != mac
    {
      if leases[i].mac == mac {
        FirstAt(leases, mac, i);
        return Some(leases[i]);
      }
    }
    r := None;
  }

  /** `any` for an address */
  method AnyIp(leases: seq<Lease>, ip: Ipv4) returns (r: bool)
    ensures r == HasIp(leases, ip)
  {
    for i := 0 to |leases|
      invariant forall j | 0 <= j < i :: leases[j].ip != ip
    {
      if leases[i].ip == ip {
        return true;
      }
    }
    r := false;
  }

  /** `nanodhcp.conf`, as the two operations and the listing see it. */
  class LeaseFile {
    var content: Option<string>

    constructor (content: Option<string>)
      ensures this.content == content
    {
      this.content := content;
    }

    method Write(text: string, write: Io) returns (r: Result<(), LeaseError>)
      modifies this
      ensures (content, r) == if write.Done? then (Some(text), Ok(())) else (write.leaves, Err(WriteFailed))
    {
      if write.Failed? {
        content := write.leaves;
        return Err(WriteFailed);
      }
      content := Some(text);
      r := Ok(());
    }

    /** `add_static_lease` */
    method AddLease(lease: Lease, readable: bool, writable: bool, write: Io) returns (r: Result<(), LeaseError>)
      modifies this
      ensures (content, r) == FileAfter(old(content), readable, Add(lease, writable), write)
    {
      if content.None? {
        return Err(NoFile);
      }
      if !readable {
        return Err(NotReadable);
      }
      var conf := new DhcpConf(content.value);
      var existing := ReadLeases(conf);
      var mac := Lower(lease.mac);
      var sameMac := FindMac(existing, mac);
      if sameMac.Some? {
        return Err(DuplicateMac(mac));
      }
      var sameIp := AnyIp(existing, lease.ip);
      if sameIp {
        return Err(DuplicateIp(lease.ip));
      }
      if !writable {
        return Err(NotWritable);
      }
      conf.Append(K_STATIC, ToConfValue(lease));
      var out := conf.Display();
      r := Write(out, write);
    }

    /** `remove_static_lease` */
    method RemoveLease(mac: string, readable: bool, writable: bool, write: Io) returns (r: Result<(), LeaseError>)
      modifies this
      ensures (content, r) == FileAfter(old(content), readable, Remove(mac, writable), write)
    {
      if content.None? {
        return Err(NoFile);
      }
      if !readable {
        return Err(NotReadable);
      }
      var conf := new DhcpConf(content.value);
      var existing := ReadLeases(conf);
      var target := FindMac(existing, Lower(mac));
      if target.None? {
        return Err(NotFound(Lower(mac)));
      }
      if !writable {
        return Err(NotWritable);
      }
      conf.RemoveWhere(K_STATIC, ToConfValue(target.value));
      var out := conf.Display();
      r := Write(out, write);
    }

    /** `list_static_leases` */
    method List(readable: bool) returns (r: Result<seq<Lease>, LeaseError>)
      ensures r == if content.None? then Err(NoFile) else if !readable then Err(NotReadable)
                   else Ok(Listed(Parse(content.value, Settle)))
    {
      if content.None? {
        return Err(NoFile);
      }
      if !readable {
        return Err(NotReadable);
      }
      var conf := new DhcpConf(content.value);
      var leases := ReadLeases(conf);
      r := Ok(leases);
    }
  }

  lemma {:induction false} FirstAt(leases: seq<Lease>, mac: string, i: nat)
    requires i < |leases| && leases[i].mac == mac && forall j | 0 <= j < i :: leases[j].mac != mac
    ensures HasMac(leases, mac) && FirstWithMac(leases, mac) == leases[i]
  {
    if i > 0 {
      FirstAt(leases[1..], mac, i - 1);
    }
  }

  // ------------------------------------------------------- a lease as a value

  /** Fields that survive the trip through a `static` line. */
  predicate Plain(l: Lease) {
    ',' !in l.name && ',' !in l.mac && Trimmed(l.name) && Trimmed(l.mac)
  }

  lemma LowerFacts(s: string)
    ensures ',' in Lower(s) <==> ',' in s
    ensures '\n' in Lower(s) <==> '\n' in s
    ensures Trimmed(Lower(s)) <==> Trimmed(s)
  {
    if ',' in s {
      var i :| 0 <= i < |s| && s[i] == ',';
      assert Lower(s)[i] == ',';
    }
    if '\n' in s {
      var i :| 0 <= i < |s| && s[i] == '\n';
      assert Lower(s)[i] == '\n';
    }
  }

  /** The general case: blanks at the ends are lost and the MAC is in lower case. */
  lemma ParseOfConfValue(l: Lease)
    requires ',' !in l.name && ',' !in l.mac
    ensures ParseLease(ToConfValue(l)) == Some(Lease(Trim(l.name), Lower(Trim(Lower(l.mac))), l.ip))
  {
    LowerFacts(l.mac);
    var rest := Lower(l.mac) + "," + ShowIp(l.ip);
    SplitOnceAt(l.name, ',', rest);
    SplitOnceAt(Lower(l.mac), ',', ShowIp(l.ip));
    assert ToConfValue(l) == l.name + [','] + rest;
    IpChars(l.ip);
    TrimTrimmed(ShowIp(l.ip));
    IpCanonical(ShowIp(l.ip), l.ip);
  }

  lemma ParsedLeaseIsPlain(value: string)
    requires ParseLease(value).Some?
    ensures var l := ParseLease(value).value; Plain(l) && Lower(l.mac) == l.mac
  {
    var (name, rest) := SplitOnce(value, ',').value;
    var (mac, ip) := SplitOnce(rest, ',').value;
    TrimPiece(name);
    TrimPiece(mac);
    TrimTrimmed(name);
    TrimTrimmed(mac);
    LowerFacts(Trim(mac));
    LowerLower(Trim(mac));
  }

  lemma ValueOfLease(l: Lease)
    requires Plain(l) && Lower(l.mac) == l.mac
    ensures ParseLease(ToConfValue(l)) == Some(l)
  {
    ParseOfConfValue(l);
    TrimTrimmed(l.name);
    TrimTrimmed(l.mac);
  }

  /** What an added lease is listed as. */
  function Canon(l: Lease): Lease {
    l.(mac := Lower(l.mac))
  }

  lemma PlainReadsBack(l: Lease)
    requires Plain(l)
    ensures ParseLease(ToConfValue(l)) == Some(Canon(l)) && ToConfValue(Canon(l)) == ToConfValue(l)
  {
    LowerFacts(l.mac);
    LowerLower(l.mac);
    ValueOfLease(Canon(l));
  }

  lemma ConfValueSettles(l: Lease)
    requires Trimmed(l.name)
    ensures Settle(ToConfValue(l)) == ToConfValue(l)
  {
    LeaseSettles(l);
    ValueTail(l);
  }

  // ----------------------------------------------------- values through the file

  /** A value the file keeps as it is, and that is written the way it would be written again. */
  predicate Canonical(value: string) {
    && Settle(value) == value
    && (ParseLease(value).Some? ==> ToConfValue(ParseLease(value).value) == value)
  }

  predicate AllCanonical(values: seq<string>) {
    forall v | v in values :: Canonical(v)
  }

  predicate AllSettled(values: seq<string>) {
    forall v | v in values :: Settle(v) == v
  }

  function SettleEach(values: seq<string>): (r: seq<string>)
    ensures |r| == |values| && forall i | 0 <= i < |values| :: r[i] == Settle(values[i])
  {
    seq(|values|, i requires 0 <= i < |values| => Settle(values[i]))
  }

  lemma StaticsRereadEach(lines: seq<Line>)
    ensures Statics(RereadAll(lines, Settle)) == SettleEach(Statics(lines))
  {
    var values := Statics(lines);
    LookupAllReread(lines, Settle, K_STATIC);
    forall i | 0 <= i < |values|
      ensures Settle(StripCr(values[i])) == Settle(values[i])
    {
      SettleDropsCr(values[i]);
    }
  }

  lemma StaticsReread(lines: seq<Line>)
    requires AllSettled(Statics(lines))
    ensures Statics(RereadAll(lines, Settle)) == Statics(lines)
  {
    StaticsRereadEach(lines);
    assert forall i | 0 <= i < |Statics(lines)| :: Statics(lines)[i] in Statics(lines);
  }

  /** Lines as they are in memory after reading a file, with `static` values that writing and reading keeps. */
  predicate Steady(lines: seq<Line>) {
    LinesOk(lines) && AllSettled(Statics(lines))
  }

  /** Settled `static` values are the same after the file is written and read. */
  lemma StaticsOfPrint(lines: seq<Line>)
    requires Steady(lines)
    ensures Statics(Parse(Print(lines), Settle)) == Statics(lines) && Steady(Parse(Print(lines), Settle))
  {
    ParsePrint(lines, Settle);
    StaticsReread(lines);
    SettleCleans();
    ParsedLinesOk(Print(lines), Settle);
  }

  // ------------------------------------------------------------------- adding

  /** No line break in the text fields of the lease. */
  predicate OneLiner(l: Lease) {
    '\n' !in l.name && '\n' !in l.mac
  }

  /** A lease that comes back as it is added: no blank at the ends, no comma and no line break in its fields. */
  predicate Addable(l: Lease) {
    Plain(l) && OneLiner(l)
  }

  lemma OneLinerOk(l: Lease)
    requires OneLiner(l)
    ensures LineOk(Pair(K_STATIC, ToConfValue(l))) && OneLine(Pair(K_STATIC, ToConfValue(l)))
  {
    LowerFacts(l.mac);
    IpChars(l.ip);
  }

  lemma AppendStatic(lines: seq<Line>, value: string)
    ensures Statics(lines + [Pair(K_STATIC, value)]) == Statics(lines) + [value]
    ensures Steady(lines) && LineOk(Pair(K_STATIC, value)) && OneLine(Pair(K_STATIC, value)) && Settle(value) == value
            ==> Steady(lines + [Pair(K_STATIC, value)])
  {
    LookupAllSplit(lines, [Pair(K_STATIC, value)], K_STATIC);
    assert Statics([Pair(K_STATIC, value)]) == [value];
  }

  lemma AddLists(lines: seq<Line>, l: Lease, lines': seq<Line>)
    requires Addable(l) && Added(lines, l, true) == Ok(lines')
    ensures Statics(lines') == Statics(lines) + [ToConfValue(l)]
    ensures Listed(lines') == Listed(lines) + [Canon(l)]
    ensures Steady(lines) ==> Steady(lines')
  {
    OneLinerOk(l);
    ConfValueSettles(l);
    AppendStatic(lines, ToConfValue(l));
    assert lines' == lines + [Pair(K_STATIC, ToConfValue(l))];
    assert Listed(lines') == Listed(lines) + [Canon(l)] by {
      PlainReadsBack(l);
      FilterMapSnoc(Statics(lines), ToConfValue(l), ParseLease);
    }
  }

  /** What the next listing shows of an added lease: its fields trimmed and its MAC in lower case, or nothing if a field holds a comma. */
  function AsListed(l: Lease): (r: seq<Lease>)
    ensures |r| <= 1
  {
    if ',' in l.name || ',' in l.mac then [] else [Lease(Trim(l.name), Lower(Trim(l.mac)), l.ip)]
  }

  /** A value with more than two commas is no lease. */
  lemma CommasAreNoLease(value: string)
    requires Count(value, ',') > 2
    ensures ParseLease(value) == None
  {
    CountIn(value, ',');
    SplitOnceCount(value, ',');
    var rest := SplitOnce(value, ',').value.1;
    CountIn(rest, ',');
    SplitOnceCount(rest, ',');
    var ip := SplitOnce(rest, ',').value.1;
    CountTrim(ip, ',');
    CountIn(Trim(ip), ',');
    if ParseIp(Trim(ip)).Some? {
      var a := ParseIp(Trim(ip)).value;
      IpCanonical(Trim(ip), a);
      IpChars(a);
    }
  }

  lemma ValueTail(l: Lease)
    ensures var rest := Lower(l.mac) + "," + ShowIp(l.ip);
            && ToConfValue(l) == l.name + [','] + rest
            && rest != "" && IsDigit(rest[|rest| - 1]) && TrimEnd(rest) == rest
            && Count(rest, ',') == Count(Lower(l.mac), ',') + 1
  {
    IpChars(l.ip);
    CountAround(Lower(l.mac), ',', ShowIp(l.ip));
    CountIn(ShowIp(l.ip), ',');
    var rest := Lower(l.mac) + "," + ShowIp(l.ip);
    assert rest[|rest| - 1] == ShowIp(l.ip)[|ShowIp(l.ip)| - 1];
  }

  /** How the value of any lease is cleaned, and that cleaning it again changes nothing. */
  lemma LeaseSettles(l: Lease)
    ensures var rest := Lower(l.mac) + "," + ShowIp(l.ip);
            Settle(ToConfValue(l)) == TrimStart(l.name) + [','] + rest
    ensures Settle(Settle(ToConfValue(l))) == Settle(ToConfValue(l))
  {
    var v := ToConfValue(l);
    var rest := Lower(l.mac) + "," + ShowIp(l.ip);
    ValueTail(l);
    TrimAround(l.name, ',', rest);
    TrimTrimmed(v);
    assert Trim(v)[|Trim(v)| - 1] == rest[|rest| - 1];
  }

  lemma LeaseIsListed(l: Lease)
    ensures ParseLease(Settle(ToConfValue(l))) == if AsListed(l) == [] then None else Some(AsListed(l)[0])
  {
    LeaseSettles(l);
    if ',' in l.name || ',' in l.mac {
      CommasOfLease(l);
    } else {
      TrimStartPiece(l.name);
      PlainIsListed(TrimStart(l.name), l.mac, l.ip);
      TrimTwice(l.name);
    }
  }

  lemma CommasOfLease(l: Lease)
    requires ',' in l.name || ',' in l.mac
    ensures ParseLease(TrimStart(l.name) + [','] + (Lower(l.mac) + "," + ShowIp(l.ip))) == None
  {
    var start, rest := TrimStart(l.name), Lower(l.mac) + "," + ShowIp(l.ip);
    ValueTail(l);
    CountTrimStart(l.name, ',');
    CountAround(start, ',', rest);
    LowerFacts(l.mac);
    CountIn(l.name, ',');
    CountIn(Lower(l.mac), ',');
    CommasAreNoLease(start + [','] + rest);
  }

  lemma PlainIsListed(name: string, mac: string, ip: Ipv4)
    requires ',' !in name && ',' !in mac
    ensures ParseLease(name + [','] + (Lower(mac) + "," + ShowIp(ip))) == Some(Lease(Trim(name), Lower(Trim(mac)), ip))
  {
    ParseOfConfValue(Lease(name, mac, ip));
    TrimLower(mac);
    LowerLower(Trim(mac));
  }

  /** The line an addition writes. */
  function LineOf(l: Lease): Line {
    Pair(K_STATIC, ToConfValue(l))
  }

  /** What lines that were written are read as. */
  function Next(lines: seq<Line>): seq<Line> {
    Parse(Print(lines), Settle)
  }

  /** What a file is read as that holds this lease's line alone; a line break in a field makes it several lines. */
  function OwnLines(l: Lease): seq<Line> {
    Next([LineOf(l)])
  }

  function Brought(l: Lease): seq<Lease> {
    Listed(OwnLines(l))
  }

  lemma NextStatics(lines: seq<Line>)
    requires LinesOk(lines)
    ensures Statics(Next(lines)) == SettleEach(Statics(lines)) && LinesOk(Next(lines))
  {
    ParsePrint(lines, Settle);
    StaticsRereadEach(lines);
    SettleCleans();
    ParsedLinesOk(Print(lines), Settle);
  }

  lemma NextOfAdded(lines: seq<Line>, l: Lease)
    requires LinesOk(lines)
    ensures Statics(Next(lines + [LineOf(l)])) == SettleEach(Statics(lines)) + Statics(OwnLines(l))
    ensures LinesOk(Next(lines + [LineOf(l)]))
  {
    LoadsParts(lines, [LineOf(l)], Settle);
    NextStatics(lines);
    LookupAllSplit(Next(lines), OwnLines(l), K_STATIC);
    SettleCleans();
    ParsedLinesOk(Print(lines + [LineOf(l)]), Settle);
  }

  /**
   * For every file and every lease that is accepted: the next listing shows the
   * values that were there, unquoted once more, and after them what the lease's
   * line would bring into an empty file.
   */
  lemma AddIsListed(lines: seq<Line>, l: Lease, lines': seq<Line>)
    requires LinesOk(lines) && Added(lines, l, true) == Ok(lines')
    ensures Listed(Next(lines')) == Parsed(SettleEach(Statics(lines))) + Brought(l)
  {
    NextOfAdded(lines, l);
    FilterMapSplit(SettleEach(Statics(lines)), Statics(OwnLines(l)), ParseLease);
  }

  lemma OneLinerStatics(l: Lease)
    requires OneLiner(l)
    ensures Statics(OwnLines(l)) == [Settle(ToConfValue(l))]
  {
    OneLinerOk(l);
    StaticsCons(LineOf(l), []);
    assert [LineOf(l)] + [] == [LineOf(l)] && Statics([LineOf(l)]) == [ToConfValue(l)];
    NextStatics([LineOf(l)]);
  }

  /** A lease of one line brings itself, as it is listed, or nothing if a field holds a comma. */
  lemma OneLinerBrings(l: Lease)
    requires OneLiner(l)
    ensures Brought(l) == AsListed(l)
  {
    OneLinerStatics(l);
    LeaseIsListed(l);
    ListedSnoc([], Settle(ToConfValue(l)), AsListed(l), ParseLease);
    assert [] + [Settle(ToConfValue(l))] == [Settle(ToConfValue(l))];
  }

  lemma ListedSnoc(values: seq<string>, value: string, listed: seq<Lease>, parse: string -> Option<Lease>)
    requires |listed| <= 1 && parse(value) == if listed == [] then None else Some(listed[0])
    ensures FilterMap(values + [value], parse) == FilterMap(values, parse) + listed
  {
    FilterMapSnoc(values, value, parse);
  }

  lemma SettledStays(values: seq<string>)
    requires AllSettled(values)
    ensures SettleEach(values) == values
  {
    assert forall i | 0 <= i < |values| :: values[i] in values;
  }

  // ------------------------------------------------------------------ removing

  function Drop(values: seq<string>, value: string): seq<string> {
    if values == [] then []
    else (if values[0] == value then [] else [values[0]]) + Drop(values[1..], value)
  }

  lemma {:induction false} DropKeeps(values: seq<string>, value: string)
    ensures forall v :: v in Drop(values, value) <==> v in values && v != value
  {
    if values != [] {
      DropKeeps(values[1..], value);
    }
  }

  lemma StaticsCons(l: Line, rest: seq<Line>)
    ensures Statics([l] + rest) == if Matches(l, K_STATIC) then [l.value] + Statics(rest) else Statics(rest)
  {
    assert ([l] + rest)[1..] == rest;
  }

  lemma {:induction false} StaticsWithout(lines: seq<Line>, value: string)
    ensures Statics(Without(lines, PairIs(K_STATIC, value))) == Drop(Statics(lines), value)
  {
    if lines != [] {
      StaticsWithout(lines[1..], value);
      var rest := Without(lines[1..], PairIs(K_STATIC, value));
      var all := Statics(lines[1..]);
      if Matches(lines[0], K_STATIC) {
        assert Statics(lines) == [lines[0].value] + all;
        assert ([lines[0].value] + all)[1..] == all;
      } else {
        assert Statics(lines) == all;
      }
      if lines[0] == Pair(K_STATIC, value) {
        assert Without(lines, PairIs(K_STATIC, value)) == rest;
      } else {
        assert Without(lines, PairIs(K_STATIC, value)) == [lines[0]] + rest;
        StaticsCons(lines[0], rest);
      }
    }
  }

  lemma RemoveLists(lines: seq<Line>, mac: string, lines': seq<Line>)
    requires Removed(lines, mac, true) == Ok(lines')
    ensures Statics(lines') == Drop(Statics(lines), Target(lines, mac))
    ensures LinesOk(lines) ==> LinesOk(lines')
    ensures Steady(lines) ==> Steady(lines')
  {
    var target := Target(lines, mac);
    WithoutKeeps(lines, PairIs(K_STATIC, target));
    StaticsWithout(lines, target);
    DropKeeps(Statics(lines), target);
  }

  /** Does a `static` value name this MAC? */
  predicate NamesMac(value: string, mac: string) {
    ParseLease(value).Some? && ParseLease(value).value.mac == mac
  }

  lemma HasMacFrom(values: seq<string>, mac: string)
    ensures HasMac(Parsed(values), mac) <==> exists v :: v in values && NamesMac(v, mac)
  {
    var leases := Parsed(values);
    if HasMac(leases, mac) {
      var i :| 0 <= i < |leases| && leases[i].mac == mac;
      FilterMapIn(values, leases[i], ParseLease);
      var v :| v in values && ParseLease(v) == Some(leases[i]);
      assert NamesMac(v, mac);
    }
    if v :| v in values && NamesMac(v, mac) {
      FilterMapIn(values, ParseLease(v).value, ParseLease);
    }
  }

  lemma {:induction false} SettledNames(values: seq<string>, mac: string)
    ensures HasMac(Parsed(SettleEach(values)), mac) <==> exists v :: v in values && NamesMac(Settle(v), mac)
  {
    var settled := SettleEach(values);
    HasMacFrom(settled, mac);
    if w :| w in settled && NamesMac(w, mac) {
      var i :| 0 <= i < |settled| && settled[i] == w;
      assert values[i] in values && NamesMac(Settle(values[i]), mac);
    }
    if v :| v in values && NamesMac(Settle(v), mac) {
      var i :| 0 <= i < |values| && values[i] == v;
      assert settled[i] in settled;
    }
  }

  /**
   * For every file: after a successful removal the next listing shows no lease
   * with that MAC exactly when no line but those written like the removed lease
   * names it once it is read again.
   */
  lemma RemoveClearsIff(lines: seq<Line>, mac: string, lines': seq<Line>)
    requires LinesOk(lines) && Removed(lines, mac, true) == Ok(lines')
    ensures !HasMac(Listed(Next(lines')), Lower(mac))
            <==> forall v | v in Statics(lines) && NamesMac(Settle(v), Lower(mac)) :: v == Target(lines, mac)
  {
    var target := Target(lines, mac);
    RemoveLists(lines, mac, lines');
    DropKeeps(Statics(lines), target);
    ParsePrint(lines', Settle);
    StaticsRereadEach(lines');
    SettledNames(Statics(lines'), Lower(mac));
  }

  // ---------------------------------------------------------------- distinctness

  predicate Apart(x: Lease, y: Lease) {
    x.mac != y.mac && x.ip != y.ip
  }

  /** No two leases share a MAC or an address. */
  predicate Distinct(leases: seq<Lease>) {
    forall i, j | 0 <= i < j < |leases| :: Apart(leases[i], leases[j])
  }

  lemma DistinctCons(x: Lease, rest: seq<Lease>)
    ensures Distinct([x] + rest) <==> Distinct(rest) && forall y | y in rest :: Apart(x, y)
  {
    var all := [x] + rest;
    assert all[1..] == rest;
    if Distinct(all) {
      forall i, j | 0 <= i < j < |rest|
        ensures Apart(rest[i], rest[j])
      {
        assert Apart(all[i + 1], all[j + 1]);
      }
      forall y | y in rest
        ensures Apart(x, y)
      {
        var j :| 0 <= j < |rest| && rest[j] == y;
        assert Apart(all[0], all[j + 1]);
      }
    }
  }

  /** None of the second shares its MAC or its address with one of the first. */
  predicate NewTo(before: seq<Lease>, brought: seq<Lease>) {
    forall q | q in brought :: !HasMac(before, q.mac) && !HasIp(before, q.ip)
  }

  lemma DistinctParts(a: seq<Lease>, b: seq<Lease>)
    ensures Distinct(a + b) <==> Distinct(a) && Distinct(b) && NewTo(a, b)
  {
    var all := a + b;
    if Distinct(all) {
      DistinctHalves(a, b);
      forall q | q in b
        ensures !HasMac(a, q.mac) && !HasIp(a, q.ip)
      {
        var j :| 0 <= j < |b| && b[j] == q;
        assert forall i | 0 <= i < |a| :: all[i] == a[i] && all[|a| + j] == q && Apart(a[i], q);
      }
    }
    if Distinct(a) && Distinct(b) && NewTo(a, b) {
      forall i, j | 0 <= i < j < |all|
        ensures Apart(all[i], all[j])
      {
        if i < |a| <= j {
          assert all[j] in b && all[i] == a[i];
        }
      }
    }
  }

  lemma DistinctHalves(a: seq<Lease>, b: seq<Lease>)
    requires Distinct(a + b)
    ensures Distinct(a) && Distinct(b)
  {
    var all := a + b;
    forall i, j | 0 <= i < j < |a|
      ensures Apart(a[i], a[j])
    {
      assert all[i] == a[i] && all[j] == a[j];
    }
    forall i, j | 0 <= i < j < |b|
      ensures Apart(b[i], b[j])
    {
      assert all[|a| + i] == b[i] && all[|a| + j] == b[j];
    }
  }

  lemma {:induction false} DropKeepsDistinct(values: seq<string>, value: string)
    requires Distinct(Parsed(values))
    ensures Distinct(Parsed(Drop(values, value)))
    ensures forall l | l in Parsed(Drop(values, value)) :: l in Parsed(values)
  {
    if values != [] {
      var rest := Drop(values[1..], value);
      match ParseLease(values[0]) {
        case Some(l) => DistinctCons(l, Parsed(values[1..]));
        case None =>
      }
      DropKeepsDistinct(values[1..], value);
      if values[0] != value {
        assert Drop(values, value) == [values[0]] + rest && ([values[0]] + rest)[1..] == rest;
        match ParseLease(values[0]) {
          case Some(l) => DistinctCons(l, Parsed(rest));
          case None =>
        }
      } else {
        assert Drop(values, value) == rest;
      }
    }
  }

  /** The state every operation keeps: values the file keeps, and distinct leases. */
  predicate Good(lines: seq<Line>) {
    Steady(lines) && Distinct(Listed(lines))
  }

  /** What the lease brings is one lease at most, with the MAC and the address the check compares. */
  predicate Checked(l: Lease) {
    |Brought(l)| <= 1 && forall q | q in Brought(l) :: q.mac == Lower(l.mac) && q.ip == l.ip
  }

  /** Nothing is asked of a removal; of an addition, just that the duplicate check works for its lease and that its line brings no nested quotes. */
  predicate Allowed(op: Op) {
    op.Add? ==> Checked(op.lease) && AllSettled(Statics(OwnLines(op.lease)))
  }

  /** The check works for a lease of one line if its MAC has no blanks around it, or a field holds a comma, so that it is not listed. */
  lemma CheckedOneLiner(l: Lease)
    requires OneLiner(l)
    ensures Checked(l) <==> ',' in l.name || ',' in l.mac || Trimmed(l.mac)
  {
    OneLinerBrings(l);
    LowerTrims(l.mac);
    if ',' in l.name || ',' in l.mac {
      assert Brought(l) == [];
    } else {
      CheckedOne(l, Lease(Trim(l.name), Lower(Trim(l.mac)), l.ip));
    }
  }

  lemma OneLinerSettled(l: Lease)
    requires OneLiner(l)
    ensures AllSettled(Statics(OwnLines(l)))
  {
    OneLinerStatics(l);
    LeaseSettles(l);
  }

  lemma CheckedOne(l: Lease, q: Lease)
    requires Brought(l) == [q]
    ensures Checked(l) <==> q.mac == Lower(l.mac) && q.ip == l.ip
  {
    assert q in Brought(l);
  }

  lemma LowerTrims(s: string)
    ensures Lower(Trim(s)) == Lower(s) <==> Trimmed(s)
  {
    TrimTrimmed(s);
    TrimShorter(s);
  }

  /** Every operation reads the text and writes a new one; a failed operation leaves it as it is. */
  function Apply(text: string, op: Op): string {
    match Outcome(Parse(text, Settle), op)
    case Ok(lines) => Print(lines)
    case Err(_) => text
  }

  function Run(text: string, ops: seq<Op>): string
    decreases |ops|
  {
    if ops == [] then text else Run(Apply(text, ops[0]), ops[1..])
  }

  /**
   * For every file and every lease that is accepted: exactly when the next listing
   * is free of duplicates.
   */
  lemma AddKeepsDistinctIff(lines: seq<Line>, l: Lease, lines': seq<Line>)
    requires LinesOk(lines) && Added(lines, l, true) == Ok(lines')
    ensures Distinct(Listed(Next(lines')))
            <==> Distinct(Parsed(SettleEach(Statics(lines)))) && Distinct(Brought(l))
                 && NewTo(Parsed(SettleEach(Statics(lines))), Brought(l))
  {
    AddIsListed(lines, l, lines');
    DistinctParts(Parsed(SettleEach(Statics(lines))), Brought(l));
  }

  /** From this good file, adding the lease leaves no duplicates if it is accepted. */
  predicate StaysDistinct(text: string, l: Lease) {
    var added := Added(Parse(text, Settle), l, true);
    Good(Parse(text, Settle)) && added.Ok? ==> Distinct(Listed(Next(added.value)))
  }

  lemma CheckedStaysDistinct(text: string, l: Lease)
    requires Checked(l)
    ensures StaysDistinct(text, l)
  {
    var lines := Parse(text, Settle);
    if Good(lines) && Added(lines, l, true).Ok? {
      SettledStays(Statics(lines));
      AddKeepsDistinctIff(lines, l, Added(lines, l, true).value);
    }
  }

  /** A file with one lease that has the MAC or the address of a brought one, but not what the check compares. */
  lemma OtherEscapes(l: Lease, q: Lease, w: Lease)
    requires q in Brought(l) && Savable(w) && (w.mac == q.mac || w.ip == q.ip) && w.mac != Lower(l.mac) && w.ip != l.ip
    ensures !StaysDistinct(Print([LineOf(w)]), l)
  {
    SavableFile(w);
    SettledStays(Statics(OwnLines(w)));
    AcceptsOther(OwnLines(w), w, l);
    AddKeepsDistinctIff(OwnLines(w), l, OwnLines(w) + [LineOf(l)]);
    NotNewToOne(w, Brought(l), q);
    Escapes(Print([LineOf(w)]), l, OwnLines(w) + [LineOf(l)]);
  }

  lemma AcceptsOther(lines: seq<Line>, w: Lease, l: Lease)
    requires Listed(lines) == [w] && w.mac != Lower(l.mac) && w.ip != l.ip
    ensures Added(lines, l, true) == Ok(lines + [LineOf(l)])
  {
  }

  lemma NotNewToOne(w: Lease, brought: seq<Lease>, q: Lease)
    requires q in brought && (w.mac == q.mac || w.ip == q.ip)
    ensures !NewTo([w], brought)
  {
    assert [w][0] == w;
  }

  lemma Escapes(text: string, l: Lease, lines': seq<Line>)
    requires Good(Parse(text, Settle)) && Added(Parse(text, Settle), l, true) == Ok(lines') && !Distinct(Listed(Next(lines')))
    ensures !StaysDistinct(text, l)
  {
  }

  lemma SavableFile(w: Lease)
    requires Savable(w)
    ensures Listed(OwnLines(w)) == [w] && Good(OwnLines(w))
  {
    OneLinerStatics(w);
    LeaseSettles(w);
    OneLinerBrings(w);
    TrimTrimmed(w.name);
    TrimTrimmed(w.mac);
    SettleCleans();
    ParsedLinesOk(Print([LineOf(w)]), Settle);
  }

  lemma OtherMacEscapes(l: Lease, q: Lease)
    requires q in Brought(l) && q.mac != Lower(l.mac)
    ensures exists text :: !StaysDistinct(text, l)
  {
    ListedIsSavable(Print([LineOf(l)]), q);
    var w := Lease("", q.mac, Ipv4(if l.ip.a == 0 then 1 else 0, 0, 0, 0));
    OtherEscapes(l, q, w);
  }

  lemma OtherIpEscapes(l: Lease, q: Lease)
    requires q in Brought(l) && q.ip != l.ip
    ensures exists text :: !StaysDistinct(text, l)
  {
    var w := WithOtherMac(q.ip, Lower(l.mac));
    OtherEscapes(l, q, w);
  }

  lemma WithOtherMac(ip: Ipv4, mac: string) returns (w: Lease)
    ensures Savable(w) && w.ip == ip && w.mac != mac
  {
    if mac == "" {
      w := Lease("", "a", ip);
      assert w.mac[0] == 'a' && Lower(w.mac) == w.mac;
    } else {
      w := Lease("", "", ip);
      assert Lower(w.mac) == w.mac;
    }
  }

  lemma TwoEscape(l: Lease)
    requires |Brought(l)| > 1 && forall q | q in Brought(l) :: q.mac == Lower(l.mac) && q.ip == l.ip
    ensures !StaysDistinct("", l)
  {
    EmptyFile();
    assert Added([], l, true) == Ok([] + [LineOf(l)]);
    AddKeepsDistinctIff([], l, [] + [LineOf(l)]);
    SameMacs(Brought(l), Lower(l.mac));
    Escapes("", l, [] + [LineOf(l)]);
  }

  lemma EmptyFile()
    ensures Parse("", Settle) == [] && Listed([]) == [] && Good([])
  {
  }

  lemma SameMacs(leases: seq<Lease>, mac: string)
    requires |leases| > 1 && forall q | q in leases :: q.mac == mac
    ensures !Distinct(leases)
  {
    assert leases[0] in leases && leases[1] in leases && !Apart(leases[0], leases[1]);
  }

  /**
   * For every lease: the duplicate check keeps every good file free of duplicates
   * exactly when the lease brings one lease at most, and that one with the MAC and
   * the address the check compares.
   */
  lemma DuplicateCheckWorksIff(l: Lease)
    ensures (forall text :: StaysDistinct(text, l)) <==> Checked(l)
  {
    if Checked(l) {
      forall text
        ensures StaysDistinct(text, l)
      {
        CheckedStaysDistinct(text, l);
      }
    } else if q :| q in Brought(l) && q.mac != Lower(l.mac) {
      OtherMacEscapes(l, q);
    } else if q :| q in Brought(l) && q.ip != l.ip {
      OtherIpEscapes(l, q);
    } else {
      TwoEscape(l);
    }
  }

  lemma AddKeepsGood(lines: seq<Line>, l: Lease, lines': seq<Line>)
    requires Good(lines) && Checked(l) && AllSettled(Statics(OwnLines(l))) && Added(lines, l, true) == Ok(lines')
    ensures Good(Next(lines'))
  {
    SettledStays(Statics(lines));
    NextOfAdded(lines, l);
    AddKeepsDistinctIff(lines, l, lines');
  }

  lemma RemoveKeepsGood(lines: seq<Line>, mac: string, lines': seq<Line>)
    requires Good(lines) && Removed(lines, mac, true) == Ok(lines')
    ensures Good(Next(lines'))
  {
    RemoveLists(lines, mac, lines');
    DropKeeps(Statics(lines), Target(lines, mac));
    DropKeepsDistinct(Statics(lines), Target(lines, mac));
    StaticsOfPrint(lines');
  }

  lemma ApplyKeepsGood(text: string, op: Op)
    requires Good(Parse(text, Settle)) && Allowed(op)
    ensures Good(Parse(Apply(text, op), Settle))
  {
    match Outcome(Parse(text, Settle), op) {
      case Err(_) =>
      case Ok(lines') =>
        match op
        case Add(lease, _) => AddKeepsGood(Parse(text, Settle), lease, lines');
        case Remove(mac, _) => RemoveKeepsGood(Parse(text, Settle), mac, lines');
    }
  }

  /** Over any run of additions and removals the listed MACs and addresses stay pairwise distinct. */
  lemma {:induction false} RunKeepsDistinct(text: string, ops: seq<Op>)
    requires Good(Parse(text, Settle)) && forall op | op in ops :: Allowed(op)
    ensures Good(Parse(Run(text, ops), Settle)) && Distinct(Listed(Parse(Run(text, ops), Settle)))
    decreases |ops|
  {
    if ops != [] {
      ApplyKeepsGood(text, ops[0]);
      RunKeepsDistinct(Apply(text, ops[0]), ops[1..]);
    }
  }

  lemma {:induction false} CanonicalValue(values: seq<string>, l: Lease)
    requires AllCanonical(values) && l in Parsed(values)
    ensures ToConfValue(l) in values && ParseLease(ToConfValue(l)) == Some(l)
  {
    FilterMapIn(values, l, ParseLease);
    var v :| v in values && ParseLease(v) == Some(l);
    assert Canonical(v);
  }

  lemma SameOrApart(leases: seq<Lease>, x: Lease, y: Lease)
    requires Distinct(leases) && x in leases && y in leases
    ensures x == y || Apart(x, y)
  {
    var i :| 0 <= i < |leases| && leases[i] == x;
    var j :| 0 <= j < |leases| && leases[j] == y;
    assert i < j ==> Apart(leases[i], leases[j]);
    assert j < i ==> Apart(leases[j], leases[i]);
  }

  /** From a good file with canonical values a removal takes out the lease with that MAC and keeps every other one. */
  lemma RemoveTakesOne(lines: seq<Line>, mac: string, lines': seq<Line>)
    requires Good(lines) && AllCanonical(Statics(lines)) && Removed(lines, mac, true) == Ok(lines')
    ensures forall l :: l in Listed(Next(lines')) <==> l in Listed(lines) && l.mac != Lower(mac)
  {
    var values := Statics(lines);
    var first := FirstWithMac(Listed(lines), Lower(mac));
    RemoveLists(lines, mac, lines');
    StaticsOfPrint(lines');
    DropKeeps(values, ToConfValue(first));
    CanonicalValue(values, first);
    forall l
      ensures l in Listed(lines') <==> l in Listed(lines) && l.mac != Lower(mac)
    {
      RemainsListed(values, first, l, Statics(lines'));
    }
  }

  lemma RemainsListed(values: seq<string>, first: Lease, l: Lease, left: seq<string>)
    requires AllCanonical(values) && Distinct(Parsed(values)) && first in Parsed(values)
    requires left == Drop(values, ToConfValue(first))
    ensures l in Parsed(left) <==> l in Parsed(values) && l.mac != first.mac
  {
    DropKeeps(values, ToConfValue(first));
    CanonicalValue(values, first);
    FilterMapIn(left, l, ParseLease);
    FilterMapIn(values, l, ParseLease);
    if l in Parsed(values) {
      CanonicalValue(values, l);
      SameOrApart(Parsed(values), l, first);
    }
    if l in Parsed(left) {
      var v :| v in left && ParseLease(v) == Some(l);
      assert v in values && Canonical(v);
    }
  }

  // ------------------------------------------------------------ add, then remove

  lemma {:induction false} WithoutNothing(lines: seq<Line>, value: string)
    requires value !in Statics(lines)
    ensures Without(lines, PairIs(K_STATIC, value)) == lines
  {
    if lines != [] {
      WithoutNothing(lines[1..], value);
      assert lines == [lines[0]] + lines[1..];
    }
  }

  /** Removing a value that only the last line holds takes off the last line. */
  lemma WithoutLast(lines: seq<Line>, value: string)
    requires value !in Statics(lines)
    ensures Without(lines + [Pair(K_STATIC, value)], PairIs(K_STATIC, value)) == lines
  {
    WithoutSplit(lines, [Pair(K_STATIC, value)], PairIs(K_STATIC, value));
    WithoutNothing(lines, value);
  }

  lemma FirstIsLast(leases: seq<Lease>, l: Lease)
    requires !HasMac(leases, l.mac)
    ensures HasMac(leases + [l], l.mac) && FirstWithMac(leases + [l], l.mac) == l
  {
    FirstAt(leases + [l], l.mac, |leases|);
  }

  lemma NewValueIsNew(values: seq<string>, l: Lease)
    requires Plain(l) && !HasMac(Parsed(values), Lower(l.mac))
    ensures ToConfValue(l) !in values
  {
    PlainReadsBack(l);
    if ToConfValue(l) in values {
      FilterMapIn(values, Canon(l), ParseLease);
    }
  }

  lemma TargetOfAdded(lines: seq<Line>, l: Lease, lines': seq<Line>, mac: string)
    requires Addable(l) && Added(lines, l, true) == Ok(lines') && Lower(mac) == Lower(l.mac)
    ensures HasMac(Listed(lines'), Lower(mac)) && Target(lines', mac) == ToConfValue(l)
  {
    AddLists(lines, l, lines');
    PlainReadsBack(l);
    FirstIsLast(Listed(lines), Canon(l));
  }

  lemma RemoveUndoesAdd(lines: seq<Line>, l: Lease, mac: string)
    requires Addable(l) && Added(lines, l, true).Ok? && Lower(mac) == Lower(l.mac)
    ensures Removed(Added(lines, l, true).value, mac, true) == Ok(lines)
  {
    var lines' := Added(lines, l, true).value;
    TargetOfAdded(lines, l, lines', mac);
    RemovedIs(lines', mac, ToConfValue(l));
    NewValueIsNew(Statics(lines), l);
    WithoutLast(lines, ToConfValue(l));
  }

  lemma RemovedIs(lines: seq<Line>, mac: string, value: string)
    requires HasMac(Listed(lines), Lower(mac)) && Target(lines, mac) == value
    ensures Removed(lines, mac, true) == Ok(Without(lines, PairIs(K_STATIC, value)))
  {
  }

  lemma RereadAdded(lines: seq<Line>, l: Lease)
    requires Addable(l)
    ensures RereadAll(lines + [Pair(K_STATIC, ToConfValue(l))], Settle)
            == RereadAll(lines, Settle) + [Pair(K_STATIC, ToConfValue(l))]
  {
    ConfValueSettles(l);
    SettleDropsCr(ToConfValue(l));
  }

  /**
   * Through the file: adding a lease, reading the file again and removing that
   * MAC, in any letter case, leaves the lines the file would have had if it had
   * only been written and read.
   */
  lemma AddThenRemove(lines: seq<Line>, l: Lease, mac: string)
    requires Steady(lines) && Addable(l) && Added(lines, l, true).Ok? && Lower(mac) == Lower(l.mac)
    ensures Removed(Next(Added(lines, l, true).value), mac, true) == Ok(RereadAll(lines, Settle))
  {
    var lines' := Added(lines, l, true).value;
    var reread := RereadAll(lines, Settle);
    AddLists(lines, l, lines');
    ParsePrint(lines', Settle);
    RereadAdded(lines, l);
    StaticsReread(lines);
    assert Added(reread, l, true) == Ok(reread + [Pair(K_STATIC, ToConfValue(l))]);
    RemoveUndoesAdd(reread, l, mac);
  }

  /** A text that reading and writing leaves alone comes back exactly. */
  lemma AddThenRemoveRestores(text: string, l: Lease)
    requires Steady(Parse(text, Settle)) && Print(Parse(text, Settle)) == text
    requires Addable(l) && Added(Parse(text, Settle), l, true).Ok?
    ensures Run(text, [Add(l, true), Remove(l.mac, true)]) == text
  {
    var lines := Parse(text, Settle);
    AddThenRemove(lines, l, l.mac);
    ParsePrint(lines, Settle);
    var t1 := Apply(text, Add(l, true));
    assert Apply(t1, Remove(l.mac, true)) == text;
    assert [Add(l, true), Remove(l.mac, true)][1..] == [Remove(l.mac, true)];
    assert Run(t1, [Remove(l.mac, true)]) == Run(Apply(t1, Remove(l.mac, true)), []);
  }

  /** The line of the lease, blanks at its ends aside, is what the program would write for what it lists. */
  predicate WrittenAsListed(l: Lease) {
    Trim(l.name) == TrimStart(l.name) && Trimmed(l.mac)
  }

  lemma WrittenAsListedIff(l: Lease)
    requires ',' !in l.name && ',' !in l.mac
    ensures Settle(ToConfValue(l)) == ToConfValue(Lease(Trim(l.name), Lower(Trim(l.mac)), l.ip)) <==> WrittenAsListed(l)
  {
    LeaseSettles(l);
    TrimStartPiece(l.name);
    TrimPiece(l.name);
    TrimPiece(l.mac);
    LowerFacts(l.mac);
    LowerFacts(Trim(l.mac));
    LowerLower(Trim(l.mac));
    LowerTrims(l.mac);
    var lower, ip := Lower(Trim(l.mac)), ShowIp(l.ip);
    CancelOnce(TrimStart(l.name), Trim(l.name), ',', Lower(l.mac) + "," + ip, lower + "," + ip);
    CancelOnce(Lower(l.mac), lower, ',', ip, ip);
  }

  lemma {:induction false} DropSnoc(values: seq<string>, last: string, value: string)
    requires value !in values
    ensures Drop(values + [last], value) == values + (if last == value then [] else [last])
  {
    if values == [] {
      assert [last][1..] == [];
    } else {
      assert (values + [last])[1..] == values[1..] + [last];
      DropSnoc(values[1..], last, value);
    }
  }

  /** The last lease is the one its MAC finds. */
  lemma LastTarget(lines: seq<Line>, values: seq<string>, last: string, q: Lease, mac: string)
    requires Statics(lines) == values + [last] && ParseLease(last) == Some(q)
    requires q.mac == Lower(mac) && !HasMac(Parsed(values), q.mac)
    ensures Listed(lines) == Parsed(values) + [q]
    ensures HasMac(Listed(lines), Lower(mac)) && Target(lines, mac) == ToConfValue(q)
  {
    FilterMapSnoc(values, last, ParseLease);
    FirstIsLast(Parsed(values), q);
  }

  /** Removing the MAC of the last lease, which is listed once. */
  lemma RemoveLast(lines: seq<Line>, values: seq<string>, last: string, q: Lease, mac: string)
    requires Steady(lines) && Statics(lines) == values + [last] && ParseLease(last) == Some(q)
    requires Savable(q) && q.mac == Lower(mac) && !HasMac(Parsed(values), q.mac)
    ensures Removed(lines, mac, true).Ok?
    ensures Listed(Next(Removed(lines, mac, true).value))
            == Parsed(values) + (if last == ToConfValue(q) then [] else [q])
  {
    LastTarget(lines, values, last, q, mac);
    var lines' := Removed(lines, mac, true).value;
    RemoveLists(lines, mac, lines');
    StaticsOfPrint(lines');
    NewValueIsNew(values, q);
    DropSnoc(values, last, ToConfValue(q));
    assert values + [] == values && Parsed(values) + [] == Parsed(values);
  }

  lemma AddedOneLiner(lines: seq<Line>, l: Lease)
    requires Steady(lines) && OneLiner(l) && ',' !in l.name && ',' !in l.mac
    ensures var v, q := Settle(ToConfValue(l)), Lease(Trim(l.name), Lower(Trim(l.mac)), l.ip);
            var next := Next(lines + [LineOf(l)]);
            Steady(next) && Statics(next) == Statics(lines) + [v] && ParseLease(v) == Some(q) && Savable(q)
  {
    var v, q := Settle(ToConfValue(l)), Lease(Trim(l.name), Lower(Trim(l.mac)), l.ip);
    SettledStays(Statics(lines));
    NextOfAdded(lines, l);
    OneLinerStatics(l);
    OneLinerSettled(l);
    LeaseIsListed(l);
    ListedIsSavableOf(Next(lines + [LineOf(l)]), v, q);
  }

  /**
   * For a lease of one line without a comma and a MAC that was not listed: removing
   * that MAC, in any letter case, always succeeds, and the old listing is back
   * exactly when the name does not end in a blank and the MAC has none around it;
   * otherwise the lease stays.
   */
  lemma AddThenRemoveOneLiner(lines: seq<Line>, l: Lease, lines': seq<Line>, mac: string)
    requires Steady(lines) && OneLiner(l) && ',' !in l.name && ',' !in l.mac && Added(lines, l, true) == Ok(lines')
    requires Lower(mac) == Lower(Trim(l.mac)) && !HasMac(Listed(lines), Lower(mac))
    ensures Removed(Next(lines'), mac, true).Ok?
    ensures Listed(Next(Removed(Next(lines'), mac, true).value))
            == Listed(lines) + (if WrittenAsListed(l) then [] else AsListed(l))
  {
    var v, q := Settle(ToConfValue(l)), Lease(Trim(l.name), Lower(Trim(l.mac)), l.ip);
    assert lines' == lines + [LineOf(l)] && AsListed(l) == [q];
    AddedOneLiner(lines, l);
    RemoveLast(Next(lines'), Statics(lines), v, q, mac);
    WrittenAsListedIff(l);
  }

  lemma ListedIsSavableOf(lines: seq<Line>, v: string, q: Lease)
    requires LinesOk(lines) && v in Statics(lines) && ParseLease(v) == Some(q)
    ensures Savable(q)
  {
    FilterMapIn(Statics(lines), q, ParseLease);
    ListedIsSavableIn(lines, q);
  }

  // ------------------------------------------------------------ one lease, through the file

  lemma {:induction false} StaticsAreOneLine(lines: seq<Line>)
    requires LinesOk(lines)
    ensures forall v | v in Statics(lines) :: '\n' !in v
  {
    if lines != [] {
      assert lines[0] in lines && OneLine(lines[0]);
      StaticsAreOneLine(lines[1..]);
    }
  }

  lemma ParsedLeaseIsOneLine(value: string)
    requires ParseLease(value).Some? && '\n' !in value
    ensures '\n' !in ParseLease(value).value.name && '\n' !in ParseLease(value).value.mac
  {
    var (name, rest) := SplitOnce(value, ',').value;
    var (mac, ip) := SplitOnce(rest, ',').value;
    TrimPiece(name);
    TrimPiece(mac);
    LowerFacts(Trim(mac));
  }

  /** The leases a file can hold: exactly these are ever listed. */
  predicate Savable(l: Lease) {
    Addable(l) && Lower(l.mac) == l.mac
  }

  lemma ListedIsSavable(text: string, l: Lease)
    requires l in Listed(Parse(text, Settle))
    ensures Savable(l)
  {
    SettleCleans();
    ParsedLinesOk(text, Settle);
    ListedIsSavableIn(Parse(text, Settle), l);
  }

  lemma ListedIsSavableIn(lines: seq<Line>, l: Lease)
    requires LinesOk(lines) && l in Listed(lines)
    ensures Savable(l)
  {
    FilterMapIn(Statics(lines), l, ParseLease);
    var v :| v in Statics(lines) && ParseLease(v) == Some(l);
    StaticsAreOneLine(lines);
    ParsedLeaseIsPlain(v);
    ParsedLeaseIsOneLine(v);
  }

  /**
   * A lease comes back from its `static` line in a file as it was, exactly when
   * its fields are trimmed and hold no comma and no line break, and its MAC is in
   * lower case.
   */
  lemma LeaseReadsBack(l: Lease)
    ensures Brought(l) == [l] <==> Savable(l)
  {
    if Brought(l) == [l] {
      ListedIsSavable(Print([LineOf(l)]), l);
    }
    if Savable(l) {
      SavableFile(l);
    }
  }
}
