/** Decimal numbers and dotted-quad addresses as text. */
module Numbers {
  import opened Results
  import opened Text

  const U16_MAX: nat := 0xFFFF
  const U32_MAX: nat := 0xFFFF_FFFF

  predicate IsDigit(c: char) {
    '0' <= c <= '9'
  }

  predicate AllDigits(s: string) {
    forall i | 0 <= i < |s| :: IsDigit(s[i])
  }

  function DigitChar(d: nat): (c: char)
    requires d < 10
    ensures IsDigit(c) && (c - '0') as int == d
  {
    '0' + d as char
  }

  /** Decimal without leading zeros. */
  function Show(n: nat): (s: string)
    ensures |s| >= 1 && AllDigits(s)
  {
    if n < 10 then [DigitChar(n)] else Show(n / 10) + [DigitChar(n % 10)]
  }

  function Value(s: string): nat
    requires AllDigits(s)
  {
    if s == "" then 0 else 10 * Value(s[..|s| - 1]) + (s[|s| - 1] - '0') as int
  }

  lemma {:induction false} ValueOfShow(n: nat)
    ensures Value(Show(n)) == n
    decreases n
  {
    if n >= 10 {
      ValueOfShow(n / 10);
      assert Show(n)[..|Show(n)| - 1] == Show(n / 10);
    }
  }

  /** `parse::<uN>`: an optional `+`, then digits only, no overflow. */
  function ParseUnsigned(s: string, max: nat): Option<nat> {
    var digits := if s != "" && s[0] == '+' then s[1..] else s;
    if digits != "" && AllDigits(digits) && Value(digits) <= max then Some(Value(digits)) else None
  }

  lemma ParseShow(n: nat, max: nat)
    ensures ParseUnsigned(Show(n), max) == if n <= max then Some(n) else None
  {
    ValueOfShow(n);
    assert Show(n)[0] != '+';
  }

  lemma DigitsTrimmed(s: string)
    requires s != "" && AllDigits(s)
    ensures Trim(s) == s && StripCr(s) == s && '\n' !in s && IsDigit(s[|s| - 1])
  {
    assert IsDigit(s[0]) && IsDigit(s[|s| - 1]);
    TrimTrimmed(s);
  }

  type Octet = n: nat | n < 256

  datatype Ipv4 = Ipv4(a: Octet, b: Octet, c: Octet, d: Octet)

  function ShowIp(ip: Ipv4): string {
    Join([Show(ip.a), Show(ip.b), Show(ip.c), Show(ip.d)], '.')
  }

  /** One to three digits, no superfluous leading zero, at most 255. */
  function ParseOctet(s: string): Option<Octet> {
    if 1 <= |s| <= 3 && AllDigits(s) && (s[0] == '0' ==> |s| == 1) && Value(s) < 256 then Some(Value(s)) else None
  }

  function ParseIp(s: string): Option<Ipv4> {
    var p := Split(s, '.');
    if |p| != 4 then None
    else
      var a, b, c, d := ParseOctet(p[0]), ParseOctet(p[1]), ParseOctet(p[2]), ParseOctet(p[3]);
      if a.Some? && b.Some? && c.Some? && d.Some? then Some(Ipv4(a.value, b.value, c.value, d.value)) else None
  }

  lemma ShowIsOctet(n: Octet)
    ensures ParseOctet(Show(n)) == Some(n)
  {
    ValueOfShow(n);
    if n >= 100 {
      assert Show(n / 10) == Show(n / 100) + [DigitChar(n / 10 % 10)];
    }
  }

  /** Digits without a superfluous leading zero are what `Show` writes. */
  lemma {:induction false} ShowOfValue(s: string)
    requires s != "" && AllDigits(s) && (s[0] == '0' ==> |s| == 1)
    ensures Show(Value(s)) == s
    ensures s[0] != '0' ==> Value(s) > 0
    decreases |s|
  {
    var init := s[..|s| - 1];
    assert s == init + [s[|s| - 1]];
    if init != "" {
      ShowOfValue(init);
    }
  }

  /** `Show` is the only octet text that `ParseOctet` accepts. */
  lemma OctetCanonical(s: string, n: Octet)
    ensures ParseOctet(s) == Some(n) <==> s == Show(n)
  {
    ShowIsOctet(n);
    if ParseOctet(s) == Some(n) {
      ShowOfValue(s);
    }
  }

  /** Reading an address back; and no other text reads as that address. */
  lemma IpCanonical(s: string, ip: Ipv4)
    ensures ParseIp(s) == Some(ip) <==> s == ShowIp(ip)
  {
    var q := [Show(ip.a), Show(ip.b), Show(ip.c), Show(ip.d)];
    SplitJoin(q, '.');
    OctetCanonical(q[0], ip.a);
    OctetCanonical(q[1], ip.b);
    OctetCanonical(q[2], ip.c);
    OctetCanonical(q[3], ip.d);
    var p := Split(s, '.');
    if ParseIp(s) == Some(ip) {
      OctetCanonical(p[0], ip.a);
      OctetCanonical(p[1], ip.b);
      OctetCanonical(p[2], ip.c);
      OctetCanonical(p[3], ip.d);
      assert p == q;
      JoinSplit(s, '.');
    }
  }

  /** An address is written with digits and dots only. */
  lemma IpChars(ip: Ipv4)
    ensures ShowIp(ip) != "" && forall c | c in ShowIp(ip) :: IsDigit(c) || c == '.'
    ensures Trimmed(ShowIp(ip)) && IsDigit(ShowIp(ip)[0]) && IsDigit(ShowIp(ip)[|ShowIp(ip)| - 1])
  {
    var a, b, c, d := Show(ip.a), Show(ip.b), Show(ip.c), Show(ip.d);
    var q := [a, b, c, d];
    assert q[1..] == [b, c, d] && q[1..][1..] == [c, d] && q[1..][1..][1..] == [d];
    assert Join([d], '.') == d && Join([c, d], '.') == c + "." + d && Join([b, c, d], '.') == b + "." + (c + "." + d);
    assert ShowIp(ip) == a + "." + (b + "." + (c + "." + d));
  }
}
