/** AmneziaWG tunnel configurations: parsing, and the two ways of stripping keys before a kernel tool reads them. */
module Amnezia {
  import opened Results
  import opened Text
  import opened Numbers

  datatype Interface = Interface(
    addresses: seq<string>, listenPort: Option<nat>, dns: seq<string>,
    jc: Option<nat>, jmin: Option<nat>, jmax: Option<nat>,
    s1: Option<nat>, s2: Option<nat>, s3: Option<nat>, s4: Option<nat>,
    h1: Option<string>, h2: Option<string>, h3: Option<string>, h4: Option<string>,
    i1: Option<string>, i2: Option<string>, i3: Option<string>, i4: Option<string>, i5: Option<string>)

  const DEFAULT_INTERFACE := Interface([], None, [], None, None, None, None, None, None, None,
                                       None, None, None, None, None, None, None, None, None)

  datatype Peer = Peer(
    publicKey: string, endpoint: Option<string>, allowedIps: seq<string>, keepalive: Option<nat>, hasPresharedKey: bool)

  const DEFAULT_PEER := Peer("", None, [], None, false)

  // ------------------------------------------------------------------------ keys

  datatype IfaceKey =
    | Address | ListenPort | Dns | Jc | Jmin | Jmax | S1 | S2 | S3 | S4
    | H1 | H2 | H3 | H4 | I1 | I2 | I3 | I4 | I5

  datatype PeerKey = PublicKey | Endpoint | AllowedIps | PersistentKeepalive | PresharedKey

  function IfaceName(k: IfaceKey): string {
    match k
    case Address => "Address" case ListenPort => "ListenPort" case Dns => "DNS"
    case Jc => "Jc" case Jmin => "Jmin" case Jmax => "Jmax"
    case S1 => "S1" case S2 => "S2" case S3 => "S3" case S4 => "S4"
    case H1 => "H1" case H2 => "H2" case H3 => "H3" case H4 => "H4"
    case I1 => "I1" case I2 => "I2" case I3 => "I3" case I4 => "I4" case I5 => "I5"
  }

  function PeerName(k: PeerKey): string {
    match k
    case PublicKey => "PublicKey" case Endpoint => "Endpoint" case AllowedIps => "AllowedIPs"
    case PersistentKeepalive => "PersistentKeepalive" case PresharedKey => "PresharedKey"
  }

  function IfaceKeyOf(s: string): (r: Option<IfaceKey>)
    ensures r.Some? ==> IfaceName(r.value) == s
  {
    if s == "Address" then Some(Address) else if s == "ListenPort" then Some(ListenPort) else if s == "DNS" then Some(Dns)
    else if s == "Jc" then Some(Jc) else if s == "Jmin" then Some(Jmin) else if s == "Jmax" then Some(Jmax)
    else if s == "S1" then Some(S1) else if s == "S2" then Some(S2) else if s == "S3" then Some(S3)
    else if s == "S4" then Some(S4) else if s == "H1" then Some(H1) else if s == "H2" then Some(H2)
    else if s == "H3" then Some(H3) else if s == "H4" then Some(H4) else if s == "I1" then Some(I1)
    else if s == "I2" then Some(I2) else if s == "I3" then Some(I3) else if s == "I4" then Some(I4)
    else if s == "I5" then Some(I5) else None
  }

  function PeerKeyOf(s: string): (r: Option<PeerKey>)
    ensures r.Some? ==> PeerName(r.value) == s
  {
    if s == "PublicKey" then Some(PublicKey) else if s == "Endpoint" then Some(Endpoint)
    else if s == "AllowedIPs" then Some(AllowedIps) else if s == "PersistentKeepalive" then Some(PersistentKeepalive)
    else if s == "PresharedKey" then Some(PresharedKey) else None
  }

  /** The non-empty trimmed parts of a comma list. */
  function Parts(pieces: seq<string>): seq<string> {
    if pieces == [] then []
    else (if Trim(pieces[0]) == "" then [] else [Trim(pieces[0])]) + Parts(pieces[1..])
  }

  function CommaList(val: string): seq<string> {
    Parts(Split(val, ','))
  }

  /** The field of a key takes what was read: lists grow, the others are replaced. */
  function SetField(f: Interface, key: IfaceKey, items: seq<string>, number: Option<nat>, text: string): Interface {
    match key
    case Address => f.(addresses := f.addresses + items)
    case ListenPort => f.(listenPort := number)
    case Dns => f.(dns := f.dns + items)
    case Jc => f.(jc := number)
    case Jmin => f.(jmin := number)
    case Jmax => f.(jmax := number)
    case S1 => f.(s1 := number)
    case S2 => f.(s2 := number)
    case S3 => f.(s3 := number)
    case S4 => f.(s4 := number)
    case H1 => f.(h1 := Some(text))
    case H2 => f.(h2 := Some(text))
    case H3 => f.(h3 := Some(text))
    case H4 => f.(h4 := Some(text))
    case I1 => f.(i1 := Some(text))
    case I2 => f.(i2 := Some(text))
    case I3 => f.(i3 := Some(text))
    case I4 => f.(i4 := Some(text))
    case I5 => f.(i5 := Some(text))
  }

  /** `apply_iface_key`: numbers that do not parse become absent, unknown keys are ignored. */
  function ApplyIface(f: Interface, key: Option<IfaceKey>, val: string): Interface {
    match key
    case Some(k) => SetField(f, k, CommaList(val), ParseUnsigned(val, if k.ListenPort? then U16_MAX else U32_MAX), val)
    case None => f
  }

  /** `PeerBuf::apply` */
  function ApplyPeer(p: Peer, key: Option<PeerKey>, val: string): Peer {
    if key.None? then p else
    match key.value
    case PublicKey => p.(publicKey := val)
    case Endpoint => p.(endpoint := Some(val))
    case AllowedIps => p.(allowedIps := p.allowedIps + CommaList(val))
    case PersistentKeepalive => p.(keepalive := ParseUnsigned(val, U32_MAX))
    case PresharedKey => p.(hasPresharedKey := true)
  }

  // --------------------------------------------------------------------- parsing

  datatype Kind = Skip | InterfaceHead | PeerHead | Assign(key: string, val: string)

  /** What one line is to the parser. */
  function Classify(line: string): Kind {
    var t := Trim(line);
    if t == "" || t[0] == '#' then Skip
    else if Lower(t) == "[interface]" then InterfaceHead
    else if Lower(t) == "[peer]" then PeerHead
    else
      match SplitOnce(t, '=')
      case Some((k, v)) => Assign(Trim(k), Trim(v))
      case None => Skip
  }

  datatype Section = NoSection | InInterface | InPeer

  datatype State = State(section: Section, iface: Interface, peers: seq<Peer>, buffer: Option<Peer>)

  const START := State(NoSection, DEFAULT_INTERFACE, [], None)

  function Flush(st: State): State {
    if st.buffer.Some? then st.(peers := st.peers + [st.buffer.value], buffer := None) else st
  }

  function Feed(st: State, kind: Kind): State {
    match kind
    case Skip => st
    case InterfaceHead => Flush(st).(section := InInterface)
    case PeerHead => Flush(st).(section := InPeer, buffer := Some(DEFAULT_PEER))
    case Assign(key, val) =>
      match st.section
      case InInterface => st.(iface := ApplyIface(st.iface, IfaceKeyOf(key), val))
      case InPeer =>
        if st.buffer.Some? then st.(buffer := Some(ApplyPeer(st.buffer.value, PeerKeyOf(key), val))) else st
      case NoSection => st
  }

  function FeedAll(st: State, kinds: seq<Kind>): State
    decreases |kinds|
  {
    if kinds == [] then st else FeedAll(Feed(st, kinds[0]), kinds[1..])
  }

  /** The kinds of all lines, for any way to tell them. */
  function Kinds(ls: seq<string>, classify: string -> Kind): (r: seq<Kind>)
    ensures |r| == |ls| && forall i | 0 <= i < |ls| :: r[i] == classify(ls[i])
  {
    seq(|ls|, i requires 0 <= i < |ls| => classify(ls[i]))
  }

  function ParseLines(ls: seq<string>): (Interface, seq<Peer>) {
    var st := Flush(FeedAll(START, Kinds(ls, Classify)));
    (st.iface, st.peers)
  }

  /** What a configuration means to the program. */
  function Meaning(content: string): (Interface, seq<Peer>) {
    ParseLines(Lines(content))
  }

  /** `parse_conf` */
  method ParseConf(content: string) returns (iface: Interface, peers: seq<Peer>)
    ensures (iface, peers) == Meaning(content)
  {
    var section, buffer: Option<Peer> := NoSection, None;
    iface, peers := DEFAULT_INTERFACE, [];
    var ls := Lines(content);
    ghost var kinds := Kinds(ls, Classify);
    for i := 0 to |ls|
      invariant FeedAll(State(section, iface, peers, buffer), kinds[i..]) == FeedAll(START, kinds)
    {
      assert kinds[i..][1..] == kinds[i + 1..];
      match Classify(ls[i]) {
        case Skip =>
        case InterfaceHead =>
          if buffer.Some? {
            peers, buffer := peers + [buffer.value], None;
          }
          section := InInterface;
        case PeerHead =>
          if buffer.Some? {
            peers := peers + [buffer.value];
          }
          section, buffer := InPeer, Some(DEFAULT_PEER);
        case Assign(key, val) =>
          if section == InInterface {
            iface := ApplyIface(iface, IfaceKeyOf(key), val);
          } else if section == InPeer && buffer.Some? {
            buffer := Some(ApplyPeer(buffer.value, PeerKeyOf(key), val));
          }
      }
    }
    assert kinds[|ls|..] == [];
    if buffer.Some? {
      peers := peers + [buffer.value];
    }
  }

  // --------------------------------------------------------------------- stripping

  const WG_SETCONF_STRIP_KEYS: seq<string> :=
    ["Jc", "Jmin", "Jmax", "S1", "S2", "S3", "S4", "H1", "H2", "H3", "H4", "I1", "I2", "I3", "I4", "I5",
     "Address", "DNS", "MTU", "Table", "PreUp", "PostUp", "PreDown", "PostDown"]

  const AWG_QUICK_KEYS: seq<string> :=
    ["Address", "DNS", "MTU", "Table", "PreUp", "PostUp", "PreDown", "PostDown"]

  /** The text before the first `=`, or the whole line. */
  function BeforeEquals(line: string): string {
    match SplitOnce(line, '=') case Some((k, _)) => k case None => line
  }

  /** Lines that `strip_to_wg_conf` leaves out. */
  function WgDrops(): string -> bool {
    line => Trim(BeforeEquals(line)) in WG_SETCONF_STRIP_KEYS
  }

  /** Lines that `strip_conf_keys` leaves out. */
  function KeyDrops(keys: seq<string>): string -> bool {
    line => '=' in line && Trim(BeforeEquals(line)) in keys
  }

  function Kept(ls: seq<string>, drop: string -> bool): seq<string> {
    if ls == [] then [] else (if drop(ls[0]) then [] else [ls[0]]) + Kept(ls[1..], drop)
  }

  lemma {:induction false} KeptSnoc(ls: seq<string>, l: string, drop: string -> bool)
    ensures Kept(ls + [l], drop) == if drop(l) then Kept(ls, drop) else Kept(ls, drop) + [l]
  {
    if ls == [] {
      assert Kept([l][1..], drop) == [];
    } else {
      assert (ls + [l])[1..] == ls[1..] + [l];
      KeptSnoc(ls[1..], l, drop);
    }
  }

  function Stripped(content: string, drop: string -> bool): string {
    Unlines(Kept(Lines(content), drop))
  }

  /** `strip_to_wg_conf` */
  method StripToWgConf(content: string) returns (out: string)
    ensures out == Stripped(content, WgDrops())
  {
    out := StripLines(Lines(content), WgDrops());
  }

  /** `strip_conf_keys` */
  method StripConfKeys(content: string, keys: seq<string>) returns (out: string)
    ensures out == Stripped(content, KeyDrops(keys))
  {
    out := StripLines(Lines(content), KeyDrops(keys));
  }

  method StripLines(ls: seq<string>, drop: string -> bool) returns (out: string)
    ensures out == Unlines(Kept(ls, drop))
  {
    out := "";
    ghost var kept := [];
    for i := 0 to |ls|
      invariant kept == Kept(ls[..i], drop) && out == Unlines(kept)
    {
      KeptSnoc(ls[..i], ls[i], drop);
      assert ls[..i + 1] == ls[..i] + [ls[i]];
      if !drop(ls[i]) {
        UnlinesSnoc(kept, ls[i]);
        kept := kept + [ls[i]];
        out := out + ls[i] + "\n";
      }
    }
    assert ls[..|ls|] == ls;
  }

  // ---------------------------------------------------- what stripping leaves alone

  /** The interface with the fields of the hidden keys at their defaults. */
  function Hidden(f: Interface, hides: IfaceKey -> bool): Interface {
    Interface(
      if hides(Address) then [] else f.addresses,
      if hides(ListenPort) then None else f.listenPort,
      if hides(Dns) then [] else f.dns,
      if hides(Jc) then None else f.jc,
      if hides(Jmin) then None else f.jmin,
      if hides(Jmax) then None else f.jmax,
      if hides(S1) then None else f.s1,
      if hides(S2) then None else f.s2,
      if hides(S3) then None else f.s3,
      if hides(S4) then None else f.s4,
      if hides(H1) then None else f.h1,
      if hides(H2) then None else f.h2,
      if hides(H3) then None else f.h3,
      if hides(H4) then None else f.h4,
      if hides(I1) then None else f.i1,
      if hides(I2) then None else f.i2,
      if hides(I3) then None else f.i3,
      if hides(I4) then None else f.i4,
      if hides(I5) then None else f.i5)
  }

  function Hides(keys: seq<string>): IfaceKey -> bool {
    k => IfaceName(k) in keys
  }

  /** The interface with the fields of these keys at their defaults. */
  function Masked(f: Interface, keys: seq<string>): Interface {
    Hidden(f, Hides(keys))
  }

  /** A hidden key is not seen; any other key commutes with the hiding. */
  lemma HiddenSet(f: Interface, key: IfaceKey, items: seq<string>, number: Option<nat>, text: string, hides: IfaceKey -> bool)
    ensures Hidden(SetField(f, key, items, number, text), hides)
            == if hides(key) then Hidden(f, hides) else SetField(Hidden(f, hides), key, items, number, text)
  {
    if key.H1? || key.H2? || key.H3? || key.H4? {
      HiddenSetHeader(f, key, items, number, text, hides);
    } else if key.I1? || key.I2? || key.I3? || key.I4? || key.I5? {
      HiddenSetInit(f, key, items, number, text, hides);
    } else {
      HiddenSetOther(f, key, items, number, text, hides);
    }
  }

  lemma HiddenSetHeader(f: Interface, key: IfaceKey, items: seq<string>, number: Option<nat>, text: string, hides: IfaceKey -> bool)
    requires key.H1? || key.H2? || key.H3? || key.H4?
    ensures Hidden(SetField(f, key, items, number, text), hides)
            == if hides(key) then Hidden(f, hides) else SetField(Hidden(f, hides), key, items, number, text)
  {
    match key
    case H1 => case H2 => case H3 => case _ =>
  }

  lemma HiddenSetInit(f: Interface, key: IfaceKey, items: seq<string>, number: Option<nat>, text: string, hides: IfaceKey -> bool)
    requires key.I1? || key.I2? || key.I3? || key.I4? || key.I5?
    ensures Hidden(SetField(f, key, items, number, text), hides)
            == if hides(key) then Hidden(f, hides) else SetField(Hidden(f, hides), key, items, number, text)
  {
    match key
    case I1 => case I2 => case I3 => case I4 => case _ =>
  }

  lemma HiddenSetOther(f: Interface, key: IfaceKey, items: seq<string>, number: Option<nat>, text: string, hides: IfaceKey -> bool)
    requires key.Address? || key.ListenPort? || key.Dns? || key.Jc? || key.Jmin? || key.Jmax? || key.S1? || key.S2? || key.S3? || key.S4?
    ensures Hidden(SetField(f, key, items, number, text), hides)
            == if hides(key) then Hidden(f, hides) else SetField(Hidden(f, hides), key, items, number, text)
  {
    match key
    case Address => case ListenPort => case Dns => case Jc => case Jmin => case Jmax =>
    case S1 => case S2 => case S3 => case _ =>
  }

  lemma MaskApply(f: Interface, key: IfaceKey, val: string, keys: seq<string>)
    ensures Masked(ApplyIface(f, Some(key), val), keys)
            == if IfaceName(key) in keys then Masked(f, keys) else ApplyIface(Masked(f, keys), Some(key), val)
  {
    HiddenSet(f, key, CommaList(val), ParseUnsigned(val, if key.ListenPort? then U16_MAX else U32_MAX), val, Hides(keys));
    assert Hides(keys)(key) == (IfaceName(key) in keys);
  }

  /** None of the keys belongs to a peer. */
  ghost predicate SparesPeers(keys: seq<string>) {
    forall k :: PeerName(k) !in keys
  }

  /** The parser's state when the keys are left out. */
  function MaskedState(st: State, keys: seq<string>): State {
    st.(iface := Masked(st.iface, keys))
  }

  predicate Names(kind: Kind, keys: seq<string>) {
    kind.Assign? && kind.key in keys
  }

  lemma FeedMasked(st: State, kind: Kind, keys: seq<string>)
    requires SparesPeers(keys)
    ensures MaskedState(Feed(st, kind), keys)
            == if Names(kind, keys) then MaskedState(st, keys) else Feed(MaskedState(st, keys), kind)
  {
    if kind.Assign? {
      if st.section.InInterface? && IfaceKeyOf(kind.key).Some? {
        MaskApply(st.iface, IfaceKeyOf(kind.key).value, kind.val, keys);
      }
      if st.section.InPeer? && PeerKeyOf(kind.key).Some? {
        assert PeerName(PeerKeyOf(kind.key).value) == kind.key;
      }
    }
  }

  /** The lines left out name one of the keys or are skipped anyway; no other line names one. */
  ghost predicate Drops(drop: string -> bool, keys: seq<string>, classify: string -> Kind) {
    forall line :: if drop(line) then classify(line).Skip? || Names(classify(line), keys) else !Names(classify(line), keys)
  }

  lemma {:induction false} FeedKept(st: State, ls: seq<string>, drop: string -> bool, keys: seq<string>, classify: string -> Kind)
    requires SparesPeers(keys) && Drops(drop, keys, classify)
    ensures FeedAll(MaskedState(st, keys), Kinds(Kept(ls, drop), classify)) == MaskedState(FeedAll(st, Kinds(ls, classify)), keys)
    decreases |ls|
  {
    if ls != [] {
      var kind, rest := classify(ls[0]), Kept(ls[1..], drop);
      FeedMasked(st, kind, keys);
      assert Kinds(ls, classify)[1..] == Kinds(ls[1..], classify);
      FeedKept(Feed(st, kind), ls[1..], drop, keys, classify);
      if drop(ls[0]) {
        assert Kept(ls, drop) == rest;
      } else {
        assert Kept(ls, drop) == [ls[0]] + rest;
        assert Kinds([ls[0]] + rest, classify)[1..] == Kinds(rest, classify);
      }
    }
  }

  lemma ClassifyDropsCr(line: string)
    ensures Classify(StripCr(line)) == Classify(line)
  {
    TrimDropsCr(line);
  }

  lemma {:induction false} KeptIn(ls: seq<string>, drop: string -> bool)
    ensures forall l | l in Kept(ls, drop) :: l in ls
  {
    if ls != [] {
      KeptIn(ls[1..], drop);
    }
  }

  /** For every text: stripping resets the fields of the keys to their defaults and changes nothing else. */
  lemma StripMeaning(content: string, drop: string -> bool, keys: seq<string>)
    requires SparesPeers(keys) && Drops(drop, keys, Classify)
    ensures Meaning(Stripped(content, drop)) == (Masked(Meaning(content).0, keys), Meaning(content).1)
  {
    var ls := Lines(content);
    var kept := Kept(ls, drop);
    LinesHaveNoNewline(content);
    KeptIn(ls, drop);
    LinesOfUnlines(kept);
    forall i | 0 <= i < |kept|
      ensures Classify(StripAll(kept)[i]) == Classify(kept[i])
    {
      ClassifyDropsCr(kept[i]);
    }
    assert Kinds(StripAll(kept), Classify) == Kinds(kept, Classify);
    FeedKept(START, ls, drop, keys, Classify);
    assert MaskedState(START, keys) == START;
  }

  // ------------------------------------------------ the two ways drop what they should

  /** Trimming first does not change the key of a line. */
  lemma KeyOfTrimmed(line: string)
    ensures '=' in Trim(line) <==> '=' in line
    ensures '=' in line ==> SplitOnce(Trim(line), '=').Some? && Trim(SplitOnce(Trim(line), '=').value.0) == Trim(BeforeEquals(line))
  {
    TrimPiece(line);
    if '=' in line {
      var (k, v) := SplitOnce(line, '=').value;
      TrimAround(k, '=', v);
      assert line == k + ['='] + v;
      TrimStartPiece(k);
      SplitOnceAt(TrimStart(k), '=', TrimEnd(v));
      TrimTwice(k);
    }
  }

  lemma LowerKeepsEquals(t: string)
    ensures '=' in t ==> '=' in Lower(t)
  {
    if '=' in t {
      var i :| 0 <= i < |t| && t[i] == '=';
      assert Lower(t)[i] == '=';
    }
  }

  /** A section head has no `=` and starts with a bracket. */
  lemma HeadShape(t: string)
    requires Lower(t) == "[interface]" || Lower(t) == "[peer]"
    ensures '=' !in t && t != "" && t[0] == '['
  {
    LowerKeepsEquals(t);
    assert '=' !in Lower(t);
    assert LowerChar(t[0]) == Lower(t)[0] == '[';
  }

  lemma ClassifyAssign(line: string)
    ensures '=' !in line ==> !Classify(line).Assign?
    ensures '=' in line ==> Classify(line).Skip? || (Classify(line).Assign? && Classify(line).key == Trim(BeforeEquals(line)))
  {
    KeyOfTrimmed(line);
    var t := Trim(line);
    if Lower(t) == "[interface]" || Lower(t) == "[peer]" {
      HeadShape(t);
    }
  }

  lemma KeyDropsDrops(keys: seq<string>)
    ensures Drops(KeyDrops(keys), keys, Classify)
  {
    forall line
      ensures if KeyDrops(keys)(line) then Classify(line).Skip? || Names(Classify(line), keys)
              else !Names(Classify(line), keys)
    {
      ClassifyAssign(line);
    }
  }

  predicate NoBracket(keys: seq<string>) {
    forall k | k in keys :: k == "" || k[0] != '['
  }

  /** A line that is a key alone is no section head. */
  lemma KeyAloneIsSkipped(line: string, keys: seq<string>)
    requires NoBracket(keys) && '=' !in line && Trim(line) in keys
    ensures Classify(line).Skip?
  {
    KeyOfTrimmed(line);
    var t := Trim(line);
    if Lower(t) == "[interface]" || Lower(t) == "[peer]" {
      HeadShape(t);
    }
  }

  lemma WgDropsDrops()
    requires NoBracket(WG_SETCONF_STRIP_KEYS)
    ensures Drops(WgDrops(), WG_SETCONF_STRIP_KEYS, Classify)
  {
    var keys := WG_SETCONF_STRIP_KEYS;
    forall line
      ensures if WgDrops()(line) then Classify(line).Skip? || Names(Classify(line), keys)
              else !Names(Classify(line), keys)
    {
      ClassifyAssign(line);
      if '=' !in line && Trim(line) in keys {
        KeyAloneIsSkipped(line, keys);
      }
    }
  }

  lemma WgKeysShape()
    ensures forall k | k in WG_SETCONF_STRIP_KEYS :: 0 < |k| < 9 && k[0] != '[' && k[0] != 'E'
  {
  }

  lemma PeerNameShape(k: PeerKey)
    ensures |PeerName(k)| >= 9 || PeerName(k)[0] == 'E'
  {
  }

  lemma WgKeysSparePeers()
    ensures NoBracket(WG_SETCONF_STRIP_KEYS) && SparesPeers(WG_SETCONF_STRIP_KEYS)
  {
    WgKeysShape();
    forall k
      ensures PeerName(k) !in WG_SETCONF_STRIP_KEYS
    {
      PeerNameShape(k);
    }
  }

  lemma WgKeysMask()
    ensures forall k :: IfaceName(k) in WG_SETCONF_STRIP_KEYS <==> k != ListenPort
  {
    assert |IfaceName(ListenPort)| == 10;
    assert forall k | k in WG_SETCONF_STRIP_KEYS :: |k| < 9;
  }

  lemma QuickKeysFacts()
    ensures SparesPeers(AWG_QUICK_KEYS)
    ensures forall k :: IfaceName(k) in AWG_QUICK_KEYS <==> k == Address || k == Dns
  {
  }

  lemma WgMask(f: Interface)
    ensures Masked(f, WG_SETCONF_STRIP_KEYS) == DEFAULT_INTERFACE.(listenPort := f.listenPort)
  {
    WgKeysMask();
  }

  lemma QuickMask(f: Interface)
    ensures Masked(f, AWG_QUICK_KEYS) == f.(addresses := [], dns := [])
  {
    QuickKeysFacts();
  }

  /** What `wg setconf` is given means the same peers, and the default interface with the same listen port. */
  lemma WgStripKeepsPeersAndPort(content: string)
    ensures Meaning(Stripped(content, WgDrops()))
            == (DEFAULT_INTERFACE.(listenPort := Meaning(content).0.listenPort), Meaning(content).1)
  {
    WgKeysSparePeers();
    WgDropsDrops();
    WgMask(Meaning(content).0);
    StripMeaning(content, WgDrops(), WG_SETCONF_STRIP_KEYS);
  }

  /** What `awg setconf` is given means the same peers and the same interface without addresses and resolvers. */
  lemma QuickStripKeepsAllElse(content: string)
    ensures Meaning(Stripped(content, KeyDrops(AWG_QUICK_KEYS)))
            == (Meaning(content).0.(addresses := [], dns := []), Meaning(content).1)
  {
    QuickKeysFacts();
    KeyDropsDrops(AWG_QUICK_KEYS);
    QuickMask(Meaning(content).0);
    StripMeaning(content, KeyDrops(AWG_QUICK_KEYS), AWG_QUICK_KEYS);
  }
}
