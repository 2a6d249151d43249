/** `nanodhcp.conf`: the line-preserving file and the typed view that is validated. */
module DhcpConf {
  import opened Results
  import opened Text
  import opened Numbers
  import opened LineConf

  const K_INTERFACE := "interface"
  const K_RANGE_START := "pool_start"
  const K_RANGE_END := "pool_end"
  const K_GATEWAY := "router"
  const K_DNS := "dns"
  const K_LEASE_TIME := "lease_time"
  const K_LEASES_FILE := "lease_file"
  const DEFAULT_LEASES_FILE := "/var/lib/nanodhcp/leases"
  const U64_MAX: nat := 0xFFFF_FFFF_FFFF_FFFF

  /** One pair of equal quotes around the value is removed. */
  function Unquote(s: string): string {
    if |s| >= 2 && (s[0] == '"' || s[0] == '\'') && s[|s| - 1] == s[0] then s[1..|s| - 1] else s
  }

  /** How a value is cleaned when it is read. */
  function Settle(v: string): string {
    Unquote(Trim(v))
  }

  class DhcpConf {
    var lines: seq<Line>

    constructor (content: string)
      ensures lines == Parse(content, Settle)
    {
      lines := Parse(content, Settle);
    }

    function Get(key: string): Option<string>
      reads this
    {
      Lookup(lines, key)
    }

    method Set(key: string, value: string)
      modifies this
      ensures lines == Assign(old(lines), key, value)
    {
      lines := SetLine(lines, key, value);
    }

    method GetAll(key: string) returns (r: seq<string>)
      ensures r == LookupAll(lines, key)
    {
      r := AllValues(lines, key);
    }

    method RemoveWhere(key: string, value: string)
      modifies this
      ensures lines == Without(old(lines), PairIs(key, value))
    {
      lines := Retain(lines, PairIs(key, value));
    }

    method Append(key: string, value: string)
      modifies this
      ensures lines == old(lines) + [Pair(key, value)]
    {
      lines := lines + [Pair(key, value)];
    }

    /** `Display` */
    method Display() returns (out: string)
      ensures out == Print(lines)
    {
      out := Write(lines);
    }
  }

  // ------------------------------------------------------------- the typed view

  datatype DhcpConfig = DhcpConfig(
    iface: string, rangeStart: Ipv4, rangeEnd: Ipv4, gateway: Ipv4, dns: seq<Ipv4>, leaseTime: nat, leasesFile: string)

  datatype DhcpError = MissingKey(key: string) | NotANumber | BadAddress(key: string) | BadDns(entry: string)

  function Require(lines: seq<Line>, key: string): Result<string, DhcpError> {
    match Lookup(lines, key)
    case Some(v) => Ok(v)
    case None => Err(MissingKey(key))
  }

  function ParseIpKey(lines: seq<Line>, key: string): Result<Ipv4, DhcpError> {
    match Lookup(lines, key)
    case None => Err(MissingKey(key))
    case Some(v) => match ParseIp(v) case Some(ip) => Ok(ip) case None => Err(BadAddress(key))
  }

  /** Trim every entry, skip empty ones, stop at the first that is no address. */
  function ParseDnsEntries(entries: seq<string>): Result<seq<Ipv4>, DhcpError> {
    if entries == [] then Ok([])
    else
      var e := Trim(entries[0]);
      if e == "" then ParseDnsEntries(entries[1..])
      else
        match ParseIp(e)
        case None => Err(BadDns(e))
        case Some(ip) =>
          match ParseDnsEntries(entries[1..])
          case Err(x) => Err(x)
          case Ok(rest) => Ok([ip] + rest)
  }

  function ParseDns(value: string): Result<seq<Ipv4>, DhcpError> {
    ParseDnsEntries(Split(value, ','))
  }

  function ShowAll(ips: seq<Ipv4>): (r: seq<string>)
    ensures |r| == |ips| && forall i | 0 <= i < |ips| :: r[i] == ShowIp(ips[i])
  {
    seq(|ips|, i requires 0 <= i < |ips| => ShowIp(ips[i]))
  }

  function JoinDns(ips: seq<Ipv4>): string {
    Join(ShowAll(ips), ',')
  }

  function ParseLeaseTime(lines: seq<Line>): Result<nat, DhcpError> {
    match Lookup(lines, K_LEASE_TIME)
    case None => Err(MissingKey(K_LEASE_TIME))
    case Some(v) => match ParseUnsigned(v, U64_MAX) case Some(n) => Ok(n) case None => Err(NotANumber)
  }

  function ParseDnsKey(lines: seq<Line>): Result<seq<Ipv4>, DhcpError> {
    match Lookup(lines, K_DNS)
    case None => Ok([])
    case Some(v) => ParseDns(v)
  }

  /** The typed view; the first problem in this order is reported. */
  function FromConf(lines: seq<Line>): Result<DhcpConfig, DhcpError> {
    match ParseLeaseTime(lines) case Err(x) => Err(x) case Ok(leaseTime) =>
    match Require(lines, K_INTERFACE) case Err(x) => Err(x) case Ok(iface) =>
    match ParseIpKey(lines, K_RANGE_START) case Err(x) => Err(x) case Ok(rangeStart) =>
    match ParseIpKey(lines, K_RANGE_END) case Err(x) => Err(x) case Ok(rangeEnd) =>
    match ParseIpKey(lines, K_GATEWAY) case Err(x) => Err(x) case Ok(gateway) =>
    match ParseDnsKey(lines) case Err(x) => Err(x) case Ok(dns) =>
    var leasesFile := match Lookup(lines, K_LEASES_FILE) case Some(v) => v case None => DEFAULT_LEASES_FILE;
    Ok(DhcpConfig(iface, rangeStart, rangeEnd, gateway, dns, leaseTime, leasesFile))
  }

  // ------------------------------------------------------------------ validation

  datatype Problem = ZeroLeaseTime | RangeReversed | GatewayOutside

  function ToU32(ip: Ipv4): nat {
    ip.a * 0x100_0000 + ip.b * 0x1_0000 + ip.c * 0x100 + ip.d
  }

  predicate SameNet24(x: Ipv4, y: Ipv4) {
    x.a == y.a && x.b == y.b && x.c == y.c
  }

  predicate Has(v: DhcpConfig, p: Problem) {
    match p
    case ZeroLeaseTime => v.leaseTime == 0
    case RangeReversed => ToU32(v.rangeStart) > ToU32(v.rangeEnd)
    case GatewayOutside => !SameNet24(v.gateway, v.rangeStart) || !SameNet24(v.gateway, v.rangeEnd)
  }

  predicate Valid(v: DhcpConfig) {
    forall p :: !Has(v, p)
  }

  /** Collects exactly the problems there are. */
  method Validate(v: DhcpConfig) returns (problems: seq<Problem>)
    ensures forall p :: p in problems <==> Has(v, p)
    ensures problems == [] <==> Valid(v)
  {
    problems := [];
    if v.leaseTime == 0 {
      problems := problems + [ZeroLeaseTime];
    }
    if ToU32(v.rangeStart) > ToU32(v.rangeEnd) {
      problems := problems + [RangeReversed];
    }
    if !SameNet24(v.gateway, v.rangeStart) || !SameNet24(v.gateway, v.rangeEnd) {
      problems := problems + [GatewayOutside];
    }
    if problems == [] {
      forall p
        ensures !Has(v, p)
      {
        assert p !in problems;
      }
    } else {
      assert problems[0] in problems;
    }
  }

  /** Every address a valid pool can hand out is in the gateway's /24. */
  lemma PoolIsInGatewayNet(v: DhcpConfig, ip: Ipv4)
    requires Valid(v) && ToU32(v.rangeStart) <= ToU32(ip) <= ToU32(v.rangeEnd)
    ensures SameNet24(v.gateway, ip)
  {
    assert !Has(v, GatewayOutside);
  }

  // ------------------------------------------------------------ values read back

  lemma IpSettles(ip: Ipv4)
    ensures Settle(ShowIp(ip)) == ShowIp(ip) && ParseIp(ShowIp(ip)) == Some(ip)
  {
    IpChars(ip);
    TrimTrimmed(ShowIp(ip));
    IpCanonical(ShowIp(ip), ip);
  }

  lemma NumberSettles(n: nat)
    ensures Settle(Show(n)) == Show(n)
  {
    TrimTrimmed(Show(n));
    assert IsDigit(Show(n)[0]);
  }

  /** A joined list starts and ends with a digit, unless it is empty. */
  lemma {:induction false} JoinDnsEnds(ips: seq<Ipv4>)
    requires ips != []
    ensures var s := JoinDns(ips); s != "" && IsDigit(s[0]) && IsDigit(s[|s| - 1])
    decreases |ips|
  {
    IpChars(ips[0]);
    if |ips| > 1 {
      JoinDnsEnds(ips[1..]);
      assert ShowAll(ips)[1..] == ShowAll(ips[1..]);
    }
  }

  lemma DnsSettles(ips: seq<Ipv4>)
    ensures Settle(JoinDns(ips)) == JoinDns(ips)
  {
    if ips != [] {
      JoinDnsEnds(ips);
    }
    TrimTrimmed(JoinDns(ips));
  }

  lemma {:induction false} EntriesReadBack(ips: seq<Ipv4>)
    ensures ParseDnsEntries(ShowAll(ips)) == Ok(ips)
    decreases |ips|
  {
    if ips != [] {
      IpChars(ips[0]);
      TrimTrimmed(ShowIp(ips[0]));
      IpCanonical(ShowIp(ips[0]), ips[0]);
      EntriesReadBack(ips[1..]);
      var entries := ShowAll(ips);
      assert entries[1..] == ShowAll(ips[1..]);
      assert ParseIp(Trim(entries[0])) == Some(ips[0]);
      assert [ips[0]] + ips[1..] == ips;
    }
  }

  /** A list of resolvers reads back as it was, the empty list included. */
  lemma DnsReadsBack(ips: seq<Ipv4>)
    ensures ParseDns(JoinDns(ips)) == Ok(ips)
  {
    if ips == [] {
      assert Split("", ',') == [""];
      assert ParseDnsEntries([""]) == ParseDnsEntries([""][1..]);
    } else {
      var parts := ShowAll(ips);
      forall i | 0 <= i < |parts|
        ensures ',' !in parts[i]
      {
        IpChars(ips[i]);
      }
      SplitJoin(parts, ',');
      EntriesReadBack(ips);
    }
  }

  // --------------------------------------------------------------- an edit's text

  datatype Settings = Settings(gateway: Ipv4, rangeStart: Ipv4, rangeEnd: Ipv4, dns: seq<Ipv4>, leaseTime: nat)

  /** The five sets of an edit, in order. */
  function Edited(lines: seq<Line>, s: Settings): seq<Line> {
    var l1 := Assign(lines, K_GATEWAY, ShowIp(s.gateway));
    var l2 := Assign(l1, K_RANGE_START, ShowIp(s.rangeStart));
    var l3 := Assign(l2, K_RANGE_END, ShowIp(s.rangeEnd));
    var l4 := Assign(l3, K_DNS, JoinDns(s.dns));
    Assign(l4, K_LEASE_TIME, Show(s.leaseTime))
  }

  lemma KeysDiffer()
    ensures K_RANGE_START != K_LEASE_TIME && K_RANGE_START != K_LEASES_FILE && K_LEASE_TIME != K_LEASES_FILE
  {
    assert K_RANGE_START[0] == 'p' && K_LEASE_TIME[6] == 't' && K_LEASES_FILE[6] == 'f';
  }

  lemma LookupEdited(lines: seq<Line>, s: Settings, key: string)
    ensures Lookup(Edited(lines, s), key) ==
            if key == K_LEASE_TIME then Some(Show(s.leaseTime))
            else if key == K_DNS then Some(JoinDns(s.dns))
            else if key == K_RANGE_END then Some(ShowIp(s.rangeEnd))
            else if key == K_RANGE_START then Some(ShowIp(s.rangeStart))
            else if key == K_GATEWAY then Some(ShowIp(s.gateway))
            else Lookup(lines, key)
  {
    var l1 := Assign(lines, K_GATEWAY, ShowIp(s.gateway));
    var l2 := Assign(l1, K_RANGE_START, ShowIp(s.rangeStart));
    var l3 := Assign(l2, K_RANGE_END, ShowIp(s.rangeEnd));
    var l4 := Assign(l3, K_DNS, JoinDns(s.dns));
    LookupAssign(lines, K_GATEWAY, ShowIp(s.gateway), key);
    LookupAssign(l1, K_RANGE_START, ShowIp(s.rangeStart), key);
    LookupAssign(l2, K_RANGE_END, ShowIp(s.rangeEnd), key);
    LookupAssign(l3, K_DNS, JoinDns(s.dns), key);
    LookupAssign(l4, K_LEASE_TIME, Show(s.leaseTime), key);
  }

  /** What each key holds after an edit. */
  ghost predicate HoldsEdit(lines: seq<Line>, s: Settings, iface: Option<string>, leasesFile: Option<string>) {
    && Lookup(lines, K_GATEWAY) == Some(ShowIp(s.gateway))
    && Lookup(lines, K_RANGE_START) == Some(ShowIp(s.rangeStart))
    && Lookup(lines, K_RANGE_END) == Some(ShowIp(s.rangeEnd))
    && Lookup(lines, K_DNS) == Some(JoinDns(s.dns))
    && Lookup(lines, K_LEASE_TIME) == Some(Show(s.leaseTime))
    && Lookup(lines, K_INTERFACE) == iface
    && Lookup(lines, K_LEASES_FILE) == leasesFile
  }

  lemma EditedHolds(lines: seq<Line>, s: Settings)
    ensures HoldsEdit(Edited(lines, s), s, Lookup(lines, K_INTERFACE), Lookup(lines, K_LEASES_FILE))
  {
    KeysDiffer();
    LookupEdited(lines, s, K_GATEWAY);
    LookupEdited(lines, s, K_RANGE_START);
    LookupEdited(lines, s, K_RANGE_END);
    LookupEdited(lines, s, K_DNS);
    LookupEdited(lines, s, K_LEASE_TIME);
    LookupEdited(lines, s, K_INTERFACE);
    LookupEdited(lines, s, K_LEASES_FILE);
  }

  /** The view of an edited file. */
  function EditView(s: Settings, iface: string, leasesFile: Option<string>): DhcpConfig {
    DhcpConfig(iface, s.rangeStart, s.rangeEnd, s.gateway, s.dns, s.leaseTime,
               match leasesFile case Some(v) => v case None => DEFAULT_LEASES_FILE)
  }

  /** The new settings with the old interface and lease file; the only thing that can be missing is the interface. */
  lemma ViewOfEdit(lines: seq<Line>, s: Settings, iface: Option<string>, leasesFile: Option<string>)
    requires HoldsEdit(lines, s, iface, leasesFile) && s.leaseTime <= U64_MAX
    ensures FromConf(lines) == if iface.Some? then Ok(EditView(s, iface.value, leasesFile)) else Err(MissingKey(K_INTERFACE))
  {
    IpSettles(s.gateway);
    IpSettles(s.rangeStart);
    IpSettles(s.rangeEnd);
    DnsReadsBack(s.dns);
    ParseShow(s.leaseTime, U64_MAX);
  }

  lemma SettleDropsCr(v: string)
    ensures Settle(StripCr(v)) == Settle(v)
  {
    TrimDropsCr(v);
  }

  function SettleOption(v: Option<string>): Option<string> {
    match v case None => None case Some(x) => Some(Settle(x))
  }

  lemma RereadHolds(lines: seq<Line>, s: Settings, iface: Option<string>, leasesFile: Option<string>)
    requires HoldsEdit(lines, s, iface, leasesFile)
    ensures HoldsEdit(RereadAll(lines, Settle), s, SettleOption(iface), SettleOption(leasesFile))
  {
    forall key
      ensures Lookup(RereadAll(lines, Settle), key) == SettleOption(Lookup(lines, key))
    {
      LookupReread(lines, Settle, key);
      if Lookup(lines, key).Some? {
        SettleDropsCr(Lookup(lines, key).value);
      }
    }
    IpSettles(s.gateway);
    IpSettles(s.rangeStart);
    IpSettles(s.rangeEnd);
    DnsSettles(s.dns);
    NumberSettles(s.leaseTime);
  }

  lemma SettleCleans()
    ensures CleansPieces(Settle)
  {
    forall v | '\n' in Settle(v)
      ensures '\n' in v
    {
      TrimPiece(v);
    }
  }

  lemma DnsIsOneLine(ips: seq<Ipv4>)
    ensures '\n' !in JoinDns(ips)
    decreases |ips|
  {
    if ips != [] {
      IpChars(ips[0]);
      DnsIsOneLine(ips[1..]);
      assert ShowAll(ips)[1..] == ShowAll(ips[1..]);
    }
  }

  lemma ManagedLinesOk(lines: seq<Line>, key: string, value: string)
    requires LinesOk(lines) && '\n' !in value
    requires key in {K_GATEWAY, K_RANGE_START, K_RANGE_END, K_DNS, K_LEASE_TIME}
    ensures LinesOk(Assign(lines, key, value))
  {
    AssignLinesOk(lines, key, value);
  }

  lemma EditedLinesOk(lines: seq<Line>, s: Settings)
    requires LinesOk(lines)
    ensures LinesOk(Edited(lines, s))
  {
    IpChars(s.gateway);
    IpChars(s.rangeStart);
    IpChars(s.rangeEnd);
    DnsIsOneLine(s.dns);
    ManagedLinesOk(lines, K_GATEWAY, ShowIp(s.gateway));
    var l1 := Assign(lines, K_GATEWAY, ShowIp(s.gateway));
    ManagedLinesOk(l1, K_RANGE_START, ShowIp(s.rangeStart));
    var l2 := Assign(l1, K_RANGE_START, ShowIp(s.rangeStart));
    ManagedLinesOk(l2, K_RANGE_END, ShowIp(s.rangeEnd));
    var l3 := Assign(l2, K_RANGE_END, ShowIp(s.rangeEnd));
    ManagedLinesOk(l3, K_DNS, JoinDns(s.dns));
    var l4 := Assign(l3, K_DNS, JoinDns(s.dns));
    ManagedLinesOk(l4, K_LEASE_TIME, Show(s.leaseTime));
  }

  /** A value that cleaning leaves alone. */
  predicate Settled(v: Option<string>) {
    v.Some? ==> Settle(v.value) == v.value
  }

  /**
   * For every file: the view that is validated consists of the new settings and
   * the file's interface and lease file, and it is what the service will read,
   * exactly when those two old values are settled: quotes in quotes, or blanks
   * inside quotes, are lost on the way through the file.
   */
  lemma ValidatedIsReloaded(text: string, s: Settings)
    requires s.leaseTime <= U64_MAX
    ensures var lines := Parse(text, Settle);
            var iface, leasesFile := Lookup(lines, K_INTERFACE), Lookup(lines, K_LEASES_FILE);
            var validated, reloaded := FromConf(Edited(lines, s)), FromConf(Parse(Print(Edited(lines, s)), Settle));
            && validated == (if iface.Some? then Ok(EditView(s, iface.value, leasesFile)) else Err(MissingKey(K_INTERFACE)))
            && (iface.Some? ==> (reloaded == validated <==> Settled(iface) && Settled(leasesFile)))
  {
    var lines := Parse(text, Settle);
    var iface, leasesFile := Lookup(lines, K_INTERFACE), Lookup(lines, K_LEASES_FILE);
    var edited := Edited(lines, s);
    SettleCleans();
    ParsedLinesOk(text, Settle);
    EditedLinesOk(lines, s);
    EditedHolds(lines, s);
    ViewOfEdit(edited, s, iface, leasesFile);
    ParsePrint(edited, Settle);
    RereadHolds(edited, s, iface, leasesFile);
    ViewOfEdit(RereadAll(edited, Settle), s, SettleOption(iface), SettleOption(leasesFile));
  }
}
