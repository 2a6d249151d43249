/** The user-editable Wi-Fi fields and their validation. */
module WifiSettings {
  import opened Results

  datatype Settings = Settings(ssid: string, passphrase: string, countryCode: string, channel: nat)

  datatype Problem = BadSsid | BadPassphrase | BadCountry | BadChannel

  /** Bytes of the UTF-8 encoding. */
  function Utf8Len(s: string): nat {
    if s == "" then 0
    else (if s[0] < '\U{80}' then 1 else if s[0] < '\U{800}' then 2 else if s[0] < '\U{10000}' then 3 else 4) + Utf8Len(s[1..])
  }

  predicate IsAlphabetic(c: char) {
    'a' <= c <= 'z' || 'A' <= c <= 'Z'
  }

  const CHANNELS_5GHZ: seq<nat> :=
    [36, 40, 44, 48, 52, 56, 60, 64, 100, 104, 108, 112, 116, 120, 124, 128, 132, 136, 140, 144, 149, 153, 157, 161, 165]

  predicate IsValidChannel(channel: nat) {
    1 <= channel <= 14 || channel in CHANNELS_5GHZ
  }

  /** The problem each field can have. */
  predicate Has(s: Settings, p: Problem) {
    match p
    case BadSsid => !(1 <= Utf8Len(s.ssid) <= 32)
    case BadPassphrase => !(8 <= Utf8Len(s.passphrase) <= 63)
    case BadCountry => Utf8Len(s.countryCode) != 2 || exists c | c in s.countryCode :: !IsAlphabetic(c)
    case BadChannel => !IsValidChannel(s.channel)
  }

  predicate Valid(s: Settings) {
    forall p :: !Has(s, p)
  }

  lemma ValidChannelFits(s: Settings)
    requires Valid(s)
    ensures 1 <= s.channel <= 165
  {
    assert !Has(s, BadChannel);
  }

  /** `all(is_ascii_alphabetic)` */
  method AllAlphabetic(s: string) returns (r: bool)
    ensures r <==> forall c | c in s :: IsAlphabetic(c)
  {
    for i := 0 to |s|
      invariant forall j | 0 <= j < i :: IsAlphabetic(s[j])
    {
      if !IsAlphabetic(s[i]) {
        return false;
      }
    }
    return true;
  }

  /** The problems reported are those among `seen` that there are, each once. */
  predicate Reports(problems: seq<Problem>, s: Settings, seen: set<Problem>) {
    && (forall p :: p in problems <==> p in seen && Has(s, p))
    && (forall i, j | 0 <= i < j < |problems| :: problems[i] != problems[j])
  }

  lemma ReportsNext(problems: seq<Problem>, s: Settings, seen: set<Problem>, p: Problem)
    requires Reports(problems, s, seen) && p !in seen
    ensures Reports(if Has(s, p) then problems + [p] else problems, s, seen + {p})
  {
    assert p !in problems;
  }

  lemma ReportsAll(problems: seq<Problem>, s: Settings)
    requires Reports(problems, s, {BadSsid, BadPassphrase, BadCountry, BadChannel})
    ensures forall p :: p in problems <==> Has(s, p)
    ensures problems == [] <==> Valid(s)
  {
    if problems != [] {
      assert Has(s, problems[0]);
    }
  }

  /** Reports exactly the problems there are, each once; the settings pass iff none is reported. */
  method Validate(s: Settings) returns (problems: seq<Problem>)
    ensures forall p :: p in problems <==> Has(s, p)
    ensures forall i, j | 0 <= i < j < |problems| :: problems[i] != problems[j]
    ensures problems == [] <==> Valid(s)
  {
    problems := [];
    ReportsNext(problems, s, {}, BadSsid);
    if !(1 <= Utf8Len(s.ssid) <= 32) {
      problems := problems + [BadSsid];
    }
    ReportsNext(problems, s, {BadSsid}, BadPassphrase);
    if !(8 <= Utf8Len(s.passphrase) <= 63) {
      problems := problems + [BadPassphrase];
    }
    ReportsNext(problems, s, {BadSsid, BadPassphrase}, BadCountry);
    var letters := AllAlphabetic(s.countryCode);
    if Utf8Len(s.countryCode) != 2 || !letters {
      problems := problems + [BadCountry];
    }
    ReportsNext(problems, s, {BadSsid, BadPassphrase, BadCountry}, BadChannel);
    if !IsValidChannel(s.channel) {
      problems := problems + [BadChannel];
    }
    ReportsAll(problems, s);
  }
}
