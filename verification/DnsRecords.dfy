/** DNS records: `record=name,type,value,ttl` lines of `nanodns.conf`, added and removed through the file's text. */
module DnsRecords {
  import opened Results
  import opened Text
  import opened Numbers
  import opened LineConf
  import opened DnsConf
  import opened ConfigDisk

  const K_RECORD := "record"

  type U32 = n: nat | n <= U32_MAX

  datatype Record = Record(name: string, rtype: string, value: string, ttl: U32)

  datatype RecordError = NoFile | NotReadable | DuplicateName(name: string) | NoSuchName(name: string) | NotWritable | WriteFailed

  /** The type is written as it is. */
  function ToConfValue(r: Record): string {
    r.name + "," + (r.rtype + "," + (r.value + "," + Show(r.ttl)))
  }

  /** Four fields; everything after the third comma belongs to the time to live. */
  function ParseRecord(raw: string): Option<Record> {
    match SplitOnce(raw, ',')
    case None => None
    case Some((name, rest)) =>
      match SplitOnce(rest, ',')
      case None => None
      case Some((rtype, tail)) =>
        match SplitOnce(tail, ',')
        case None => None
        case Some((value, ttl)) =>
          match ParseUnsigned(Trim(ttl), U32_MAX)
          case None => None
          case Some(n) => Some(Record(Trim(name), Upper(Trim(rtype)), Trim(value), n))
  }

  /** The records of a file. */
  function Listed(lines: seq<Line>): seq<Record> {
    FilterMap(LookupAll(lines, K_RECORD), ParseRecord)
  }

  /** The record has this name, in any letter case, and exactly this type. */
  predicate Names(r: Record, name: string, rtype: string) {
    Lower(r.name) == Lower(name) && r.rtype == rtype
  }

  predicate HasRecord(rs: seq<Record>, name: string, rtype: string) {
    exists i | 0 <= i < |rs| :: Names(rs[i], name, rtype)
  }

  function FirstRecord(rs: seq<Record>, name: string, rtype: string): (r: Record)
    requires HasRecord(rs, name, rtype)
    ensures Names(r, name, rtype) && r in rs
  {
    if Names(rs[0], name, rtype) then rs[0] else FirstRecord(rs[1..], name, rtype)
  }

  // ------------------------------------------------------------------ operations

  /** What adding does to the lines of the file: the error, or the lines that are written. */
  function Added(lines: seq<Line>, r: Record, writable: bool): Result<seq<Line>, RecordError> {
    if HasRecord(Listed(lines), r.name, r.rtype) then Err(DuplicateName(r.name))
    else if !writable then Err(NotWritable)
    else Ok(lines + [Pair(K_RECORD, ToConfValue(r))])
  }

  /** The value a removal looks for. */
  function Target(lines: seq<Line>, name: string, rtype: string): Record
    requires HasRecord(Listed(lines), name, Upper(rtype))
  {
    FirstRecord(Listed(lines), name, Upper(rtype))
  }

  /** What removing does to the lines of the file. */
  function Removed(lines: seq<Line>, name: string, rtype: string, writable: bool): Result<seq<Line>, RecordError> {
    if !HasRecord(Listed(lines), name, Upper(rtype)) then Err(NoSuchName(name))
    else if !writable then Err(NotWritable)
    else Ok(WithoutFirst(lines, PairIs(K_RECORD, ToConfValue(Target(lines, name, rtype)))))
  }

  datatype Op = Add(r: Record, writable: bool) | Remove(name: string, rtype: string, writable: bool)

  function Outcome(lines: seq<Line>, op: Op): Result<seq<Line>, RecordError> {
    match op
    case Add(r, writable) => Added(lines, r, writable)
    case Remove(name, rtype, writable) => Removed(lines, name, rtype, writable)
  }

  /** What reading the file gives. */
  function Load(text: string): seq<Line> {
    Parse(text, Clean)
  }

  /** The file after an operation, and its result. */
  function FileAfter(content: Option<string>, readable: bool, op: Op, write: Io): (Option<string>, Result<(), RecordError>) {
    if content.None? then (content, Err(NoFile))
    else if !readable then (content, Err(NotReadable))
    else
      match Outcome(Load(content.value), op)
      case Err(e) => (content, Err(e))
      case Ok(lines) => if write.Done? then (Some(Print(lines)), Ok(())) else (write.leaves, Err(WriteFailed))
  }

  /** `find` for a name and a type */
  method FindRecord(rs: seq<Record>, name: string, rtype: string) returns (r: Option<Record>)
    ensures r == if HasRecord(rs, name, rtype) then Some(FirstRecord(rs, name, rtype)) else None
  {
    for i := 0 to |rs|
      invariant forall j | 0 <= j < i :: !Names(rs[j], name, rtype)
    {
      if Names(rs[i], name, rtype) {
        FirstAt(rs, name, rtype, i);
        return Some(rs[i]);
      }
    }
    r := None;
  }

  lemma {:induction false} FirstAt(rs: seq<Record>, name: string, rtype: string, i: nat)
    requires i < |rs| && Names(rs[i], name, rtype) && forall j | 0 <= j < i :: !Names(rs[j], name, rtype)
    ensures HasRecord(rs, name, rtype) && FirstRecord(rs, name, rtype) == rs[i]
  {
    if i > 0 {
      FirstAt(rs[1..], name, rtype, i - 1);
    }
  }

  method ReadRecords(conf: NanoDnsConf) returns (rs: seq<Record>)
    ensures rs == Listed(conf.lines)
  {
    var values := conf.GetAll(K_RECORD);
    rs := Collect(values, ParseRecord);
  }

  /** `nanodns.conf`, as the record operations see it. */
  class RecordFile {
    var content: Option<string>

    constructor (content: Option<string>)
      ensures this.content == content
    {
      this.content := content;
    }

    method Write(text: string, write: Io) returns (r: Result<(), RecordError>)
      modifies this
      ensures (content, r) == if write.Done? then (Some(text), Ok(())) else (write.leaves, Err(WriteFailed))
    {
      if write.Failed? {
        content := write.leaves;
        return Err(WriteFailed);
      }
      content := Some(text);
      r := Ok(());
    }

    /** `add_dns_record` */
    method AddRecord(record: Record, readable: bool, writable: bool, write: Io) returns (r: Result<(), RecordError>)
      modifies this
      ensures (content, r) == FileAfter(old(content), readable, Add(record, writable), write)
    {
      if content.None? {
        return Err(NoFile);
      }
      if !readable {
        return Err(NotReadable);
      }
      var conf := new NanoDnsConf(content.value);
      var existing := ReadRecords(conf);
      var same := FindRecord(existing, record.name, record.rtype);
      if same.Some? {
        return Err(DuplicateName(record.name));
      }
      if !writable {
        return Err(NotWritable);
      }
      conf.Append(K_RECORD, ToConfValue(record));
      var out := conf.Display();
      r := Write(out, write);
    }

    /** `remove_dns_record` */
    method RemoveRecord(name: string, rtype: string, readable: bool, writable: bool, write: Io) returns (r: Result<(), RecordError>)
      modifies this
      ensures (content, r) == FileAfter(old(content), readable, Remove(name, rtype, writable), write)
    {
      if content.None? {
        return Err(NoFile);
      }
      if !readable {
        return Err(NotReadable);
      }
      var conf := new NanoDnsConf(content.value);
      var existing := ReadRecords(conf);
      var target := FindRecord(existing, name, Upper(rtype));
      if target.None? {
        return Err(NoSuchName(name));
      }
      if !writable {
        return Err(NotWritable);
      }
      conf.RemoveWhere(K_RECORD, ToConfValue(target.value));
      var out := conf.Display();
      r := Write(out, write);
    }

    /** `list_dns_records` */
    method List(readable: bool) returns (r: Result<seq<Record>, RecordError>)
      ensures r == if content.None? then Err(NoFile) else if !readable then Err(NotReadable)
                   else Ok(Listed(Load(content.value)))
    {
      if content.None? {
        return Err(NoFile);
      }
      if !readable {
        return Err(NotReadable);
      }
      var conf := new NanoDnsConf(content.value);
      var rs := ReadRecords(conf);
      r := Ok(rs);
    }
  }

  // ------------------------------------------------------- a record as a value

  predicate PlainField(s: string) {
    ',' !in s && '\n' !in s && Trimmed(s)
  }

  /** A record whose text fields a `record` line can hold. */
  predicate Addable(r: Record) {
    PlainField(r.name) && PlainField(r.rtype) && PlainField(r.value)
  }

  /** What an added record is listed as. */
  function Canon(r: Record): Record {
    r.(rtype := Upper(r.rtype))
  }

  lemma UpperFacts(s: string)
    ensures PlainField(s) <==> PlainField(Upper(s))
  {
    assert forall i | 0 <= i < |s| :: Upper(s)[i] == UpperChar(s[i]);
    assert forall c :: (c == ',' <==> UpperChar(c) == ',') && (c == '\n' <==> UpperChar(c) == '\n');
    assert ',' in s ==> exists i :: 0 <= i < |s| && s[i] == ',' && Upper(s)[i] == ',';
    assert '\n' in s ==> exists i :: 0 <= i < |s| && s[i] == '\n' && Upper(s)[i] == '\n';
    assert forall c :: IsSpace(c) <==> IsSpace(UpperChar(c));
  }

  lemma ParseOfConfValue(r: Record)
    requires ',' !in r.name && ',' !in r.rtype && ',' !in r.value
    ensures ParseRecord(ToConfValue(r)) == Some(Record(Trim(r.name), Upper(Trim(r.rtype)), Trim(r.value), r.ttl))
  {
    var tail := r.value + "," + Show(r.ttl);
    var rest := r.rtype + "," + tail;
    SplitOnceAt(r.name, ',', rest);
    SplitOnceAt(r.rtype, ',', tail);
    SplitOnceAt(r.value, ',', Show(r.ttl));
    ShowTrimmed(r.ttl);
    ParseShow(r.ttl, U32_MAX);
  }

  lemma ShowTrimmed(n: nat)
    ensures Trim(Show(n)) == Show(n) && '\n' !in Show(n) && IsDigit(Show(n)[|Show(n)| - 1])
  {
    DigitsTrimmed(Show(n));
  }

  lemma AddableReadsBack(r: Record)
    requires Addable(r)
    ensures ParseRecord(ToConfValue(r)) == Some(Canon(r))
  {
    ParseOfConfValue(r);
    TrimTrimmed(r.name);
    TrimTrimmed(r.rtype);
    TrimTrimmed(r.value);
  }

  // ------------------------------------------------------- values through the file

  /** Lines as reading leaves them. */
  predicate Loaded(lines: seq<Line>) {
    LinesOk(lines) && forall v | v in LookupAll(lines, K_RECORD) :: Trim(v) == v
  }

  lemma {:induction false} ValuesTrimmed(lines: seq<Line>, key: string)
    requires forall i | 0 <= i < |lines| && lines[i].Pair? :: Trim(lines[i].value) == lines[i].value
    ensures forall v | v in LookupAll(lines, key) :: Trim(v) == v
  {
    if lines != [] {
      ValuesTrimmed(lines[1..], key);
    }
  }

  lemma LoadIsLoaded(text: string)
    ensures Loaded(Load(text))
  {
    ReadLinesOk(text);
    forall i | 0 <= i < |Load(text)| && Load(text)[i].Pair?
      ensures Trim(Load(text)[i].value) == Load(text)[i].value
    {
      TrimTrimmed(SplitOnce(Lines(text)[i], '=').value.1);
      TrimTrimmed(Trim(SplitOnce(Lines(text)[i], '=').value.1));
    }
    ValuesTrimmed(Load(text), K_RECORD);
  }

  /** What the next operation reads of lines that were written. */
  function Next(lines: seq<Line>): seq<Line> {
    Load(Print(lines))
  }

  lemma NextKeeps(lines: seq<Line>)
    requires Loaded(lines)
    ensures LookupAll(Next(lines), K_RECORD) == LookupAll(lines, K_RECORD)
  {
    var values := LookupAll(lines, K_RECORD);
    ParsePrint(lines, Clean);
    ValuesReread(lines, K_RECORD);
    assert forall i | 0 <= i < |values| :: values[i] in values;
  }

  lemma RecordPairOk(value: string)
    requires '\n' !in value
    ensures LineOk(Pair(K_RECORD, value)) && OneLine(Pair(K_RECORD, value))
  {
  }

  // ------------------------------------------------------- what an addition brings

  /** The line an addition writes. */
  function LineOf(r: Record): Line {
    Pair(K_RECORD, ToConfValue(r))
  }

  /** What a file is read as that holds this record's line alone; a line break in a field makes it several lines. */
  function OwnLines(r: Record): seq<Line> {
    Next([LineOf(r)])
  }

  function Brought(r: Record): seq<Record> {
    Listed(OwnLines(r))
  }

  lemma NextOfAdded(text: string, r: Record, lines': seq<Line>)
    requires Added(Load(text), r, true) == Ok(lines')
    ensures LookupAll(Next(lines'), K_RECORD) == LookupAll(Load(text), K_RECORD) + LookupAll(OwnLines(r), K_RECORD)
  {
    LoadIsLoaded(text);
    LoadsParts(Load(text), [LineOf(r)], Clean);
    NextKeeps(Load(text));
    LookupAllSplit(Next(Load(text)), OwnLines(r), K_RECORD);
  }

  /**
   * For every file and every record that is accepted: the next listing shows what
   * was listed before, and after it what the record's line would bring into an
   * empty file.
   */
  lemma AddIsListed(text: string, r: Record, lines': seq<Line>)
    requires Added(Load(text), r, true) == Ok(lines')
    ensures Listed(Next(lines')) == Listed(Load(text)) + Brought(r)
  {
    NextOfAdded(text, r, lines');
    FilterMapSplit(LookupAll(Load(text), K_RECORD), LookupAll(OwnLines(r), K_RECORD), ParseRecord);
  }

  // ------------------------------------------------------- any record of one line

  /** No line break in the text fields of the record. */
  predicate OneLiner(r: Record) {
    '\n' !in r.name && '\n' !in r.rtype && '\n' !in r.value
  }

  predicate HasComma(r: Record) {
    ',' in r.name || ',' in r.rtype || ',' in r.value
  }

  function Listing(r: Record): Record {
    Record(Trim(r.name), Upper(Trim(r.rtype)), Trim(r.value), r.ttl)
  }

  /** What the next listing shows of an added record: its fields trimmed and its type in upper case, or nothing if a field holds a comma. */
  function AsListed(r: Record): seq<Record> {
    if HasComma(r) then [] else [Listing(r)]
  }

  /** A value with more than three commas is no record. */
  lemma CommasAreNoRecord(raw: string)
    requires Count(raw, ',') > 3
    ensures ParseRecord(raw) == None
  {
    CountIn(raw, ',');
    SplitOnceCount(raw, ',');
    var rest := SplitOnce(raw, ',').value.1;
    CountIn(rest, ',');
    SplitOnceCount(rest, ',');
    var tail := SplitOnce(rest, ',').value.1;
    CountIn(tail, ',');
    SplitOnceCount(tail, ',');
    CommaIsNoNumber(SplitOnce(tail, ',').value.1);
  }

  lemma CommaIsNoNumber(s: string)
    requires Count(s, ',') > 0
    ensures ParseUnsigned(Trim(s), U32_MAX) == None
  {
    CountTrim(s, ',');
    CountIn(Trim(s), ',');
    var i :| 0 <= i < |Trim(s)| && Trim(s)[i] == ',';
    assert Trim(s)[0] == '+' ==> Trim(s)[1..][i - 1] == ',';
  }

  /** What follows the name in a record's value. */
  function Rest(r: Record): string {
    r.rtype + "," + (r.value + "," + Show(r.ttl))
  }

  lemma RestFacts(r: Record)
    ensures Rest(r) != "" && IsDigit(Rest(r)[|Rest(r)| - 1]) && TrimEnd(Rest(r)) == Rest(r)
    ensures Count(Rest(r), ',') == Count(r.rtype, ',') + Count(r.value, ',') + 2
  {
    var shown := Show(r.ttl);
    ShowTrimmed(r.ttl);
    CountIn(shown, ',');
    CountAround(r.value, ',', shown);
    CountAround(r.rtype, ',', r.value + "," + shown);
    assert Rest(r)[|Rest(r)| - 1] == shown[|shown| - 1];
  }

  lemma OneLinerValue(r: Record)
    requires OneLiner(r)
    ensures '\n' !in ToConfValue(r)
  {
    ShowTrimmed(r.ttl);
  }

  lemma TrimOfValue(r: Record)
    ensures Trim(ToConfValue(r)) == TrimStart(r.name) + [','] + Rest(r)
  {
    RestFacts(r);
    TrimAround(r.name, ',', Rest(r));
    assert ToConfValue(r) == r.name + [','] + Rest(r);
  }

  lemma CommasOfRecord(r: Record)
    requires HasComma(r)
    ensures ParseRecord(TrimStart(r.name) + [','] + Rest(r)) == None
  {
    RestFacts(r);
    CountTrimStart(r.name, ',');
    CountAround(TrimStart(r.name), ',', Rest(r));
    CountIn(r.name, ',');
    CountIn(r.rtype, ',');
    CountIn(r.value, ',');
    CommasAreNoRecord(TrimStart(r.name) + [','] + Rest(r));
  }

  lemma RecordIsListed(r: Record)
    ensures ParseRecord(Trim(ToConfValue(r))) == if HasComma(r) then None else Some(Listing(r))
  {
    TrimOfValue(r);
    if HasComma(r) {
      CommasOfRecord(r);
    } else {
      TrimStartPiece(r.name);
      ParseOfConfValue(r.(name := TrimStart(r.name)));
      TrimTwice(r.name);
      assert ToConfValue(r.(name := TrimStart(r.name))) == TrimStart(r.name) + [','] + Rest(r);
    }
  }

  lemma ValuesSnoc(lines: seq<Line>, value: string)
    ensures LookupAll(lines + [Pair(K_RECORD, value)], K_RECORD) == LookupAll(lines, K_RECORD) + [value]
  {
    LookupAllSplit(lines, [Pair(K_RECORD, value)], K_RECORD);
    assert LookupAll([Pair(K_RECORD, value)], K_RECORD) == [value];
  }

  lemma OwnValues(value: string)
    requires '\n' !in value
    ensures LookupAll(Next([Pair(K_RECORD, value)]), K_RECORD) == [Trim(value)]
  {
    RecordPairOk(value);
    ParsePrint([Pair(K_RECORD, value)], Clean);
    ValuesReread([Pair(K_RECORD, value)], K_RECORD);
    ValuesSnoc([], value);
    assert [] + [Pair(K_RECORD, value)] == [Pair(K_RECORD, value)] && [] + [value] == [value];
    assert CleanAll([value]) == [Trim(value)];
  }

  /** A record of one line brings itself, as it is listed, or nothing if a field holds a comma. */
  lemma OneLinerBrings(r: Record)
    requires OneLiner(r)
    ensures Brought(r) == AsListed(r) && LookupAll(OwnLines(r), K_RECORD) == [Trim(ToConfValue(r))]
  {
    OneLinerValue(r);
    OwnValues(ToConfValue(r));
    RecordIsListed(r);
    FilterMapSnoc([], Trim(ToConfValue(r)), ParseRecord);
    assert [] + [Trim(ToConfValue(r))] == [Trim(ToConfValue(r))];
  }

  // ------------------------------------------------------- what the duplicate check is worth

  /** No two records with the same name, in any letter case, and the same type. */
  predicate Unique(rs: seq<Record>) {
    forall i, j | 0 <= i < j < |rs| :: !Names(rs[j], rs[i].name, rs[i].rtype)
  }

  /** None of the second is named like one of the first. */
  predicate NewTo(before: seq<Record>, brought: seq<Record>) {
    forall q | q in brought :: !HasRecord(before, q.name, q.rtype)
  }

  lemma UniqueParts(a: seq<Record>, b: seq<Record>)
    ensures Unique(a + b) <==> Unique(a) && Unique(b) && NewTo(a, b)
  {
    var all := a + b;
    if Unique(all) {
      forall i, j | 0 <= i < j < |a|
        ensures !Names(a[j], a[i].name, a[i].rtype)
      {
        assert all[i] == a[i] && all[j] == a[j];
      }
      forall i, j | 0 <= i < j < |b|
        ensures !Names(b[j], b[i].name, b[i].rtype)
      {
        assert all[|a| + i] == b[i] && all[|a| + j] == b[j];
      }
      forall q | q in b
        ensures !HasRecord(a, q.name, q.rtype)
      {
        var j :| 0 <= j < |b| && b[j] == q;
        assert forall i | 0 <= i < |a| :: all[i] == a[i] && all[|a| + j] == q && !Names(q, a[i].name, a[i].rtype);
      }
    }
    if Unique(a) && Unique(b) && NewTo(a, b) {
      forall i, j | 0 <= i < j < |all|
        ensures !Names(all[j], all[i].name, all[i].rtype)
      {
        if i < |a| <= j {
          assert all[j] in b && !Names(a[i], all[j].name, all[j].rtype);
        }
      }
    }
  }

  /**
   * For every file and every record that is accepted: exactly when the next listing
   * has no two records of the same name and type.
   */
  lemma AddKeepsUniqueIff(text: string, r: Record, lines': seq<Line>)
    requires Added(Load(text), r, true) == Ok(lines')
    ensures Unique(Listed(Next(lines')))
            <==> Unique(Listed(Load(text))) && Unique(Brought(r)) && NewTo(Listed(Load(text)), Brought(r))
  {
    AddIsListed(text, r, lines');
    UniqueParts(Listed(Load(text)), Brought(r));
  }

  /** Records are listed with their type in upper case. */
  lemma ListedTypes(lines: seq<Line>, r: Record)
    requires r in Listed(lines)
    ensures Upper(r.rtype) == r.rtype
  {
    FilterMapIn(LookupAll(lines, K_RECORD), r, ParseRecord);
    var v :| v in LookupAll(lines, K_RECORD) && ParseRecord(v) == Some(r);
    UpperUpper(Trim(SplitOnce(SplitOnce(v, ',').value.1, ',').value.0));
  }

  /** A record whose type is not in upper case is never refused as a duplicate. */
  lemma LowerCaseIsNeverRefused(text: string, r: Record)
    requires Upper(r.rtype) != r.rtype
    ensures Added(Load(text), r, true).Ok?
  {
    var rs := Listed(Load(text));
    forall i | 0 <= i < |rs|
      ensures !Names(rs[i], r.name, r.rtype)
    {
      ListedTypes(Load(text), rs[i]);
    }
  }

  /** From this file without duplicates, adding the record leaves none if it is accepted. */
  predicate StaysUnique(text: string, r: Record) {
    var added := Added(Load(text), r, true);
    Unique(Listed(Load(text))) && added.Ok? ==> Unique(Listed(Next(added.value)))
  }

  /** The name and the type are given as they are listed. */
  predicate Normal(r: Record) {
    Trimmed(r.name) && Trimmed(r.rtype) && Upper(r.rtype) == r.rtype
  }

  lemma NormalIsListed(r: Record)
    ensures Normal(r) <==> Lower(Trim(r.name)) == Lower(r.name) && Upper(Trim(r.rtype)) == r.rtype
  {
    TrimTrimmed(r.name);
    TrimTrimmed(r.rtype);
    TrimShorter(r.name);
    UpperUpper(Trim(r.rtype));
    if Upper(Trim(r.rtype)) == r.rtype {
      UpperFacts(Trim(r.rtype));
      TrimShorter(r.rtype);
    }
  }

  /** What the record brings is one record at most, named as the check compares it. */
  predicate Checked(r: Record) {
    |Brought(r)| <= 1 && forall q | q in Brought(r) :: Names(q, r.name, r.rtype)
  }

  lemma CheckedStaysUnique(text: string, r: Record)
    requires Checked(r)
    ensures StaysUnique(text, r)
  {
    var rs := Listed(Load(text));
    if Added(Load(text), r, true).Ok? {
      AddKeepsUniqueIff(text, r, Added(Load(text), r, true).value);
      forall q | q in Brought(r)
        ensures !HasRecord(rs, q.name, q.rtype)
      {
        assert forall i | 0 <= i < |rs| :: !Names(rs[i], r.name, r.rtype);
      }
    }
  }

  /** A file that holds one of the brought records already. */
  lemma OtherNameEscapes(r: Record, q: Record)
    requires q in Brought(r) && !Names(q, r.name, r.rtype)
    ensures !StaysUnique(Print([LineOf(q)]), r)
  {
    var text := Print([LineOf(q)]);
    ListedIsSavable(Print([LineOf(r)]), q);
    SavableBrings(q);
    assert Listed(Load(text)) == [q];
    AddKeepsUniqueIff(text, r, Added(Load(text), r, true).value);
    assert Names([q][0], q.name, q.rtype);
  }

  /** The empty file. */
  lemma TwoEscape(r: Record)
    requires |Brought(r)| > 1 && forall q | q in Brought(r) :: Names(q, r.name, r.rtype)
    ensures !StaysUnique("", r)
  {
    assert Load("") == [];
    assert Listed(Load("")) == [];
    AddKeepsUniqueIff("", r, Added(Load(""), r, true).value);
    assert Brought(r)[0] in Brought(r) && Brought(r)[1] in Brought(r);
    assert Names(Brought(r)[1], Brought(r)[0].name, Brought(r)[0].rtype);
  }

  /**
   * For every record: the duplicate check keeps every file free of duplicates exactly
   * when the record brings one record at most, and that one under the name and the
   * type the check compares.
   */
  lemma DuplicateCheckWorksIff(r: Record)
    ensures (forall text :: StaysUnique(text, r)) <==> Checked(r)
  {
    if Checked(r) {
      forall text
        ensures StaysUnique(text, r)
      {
        CheckedStaysUnique(text, r);
      }
    } else if q :| q in Brought(r) && !Names(q, r.name, r.rtype) {
      OtherNameEscapes(r, q);
    } else {
      TwoEscape(r);
    }
  }

  /**
   * For a record of one line that is: a field holds a comma, or name and type are
   * given as they will be listed, without blanks around them and the type in upper
   * case.
   */
  lemma CheckedOneLiner(r: Record)
    requires OneLiner(r)
    ensures Checked(r) <==> HasComma(r) || Normal(r)
  {
    OneLinerBrings(r);
    if HasComma(r) {
      assert Brought(r) == [];
    } else {
      CheckedOne(r, Listing(r));
      NormalIsListed(r);
    }
  }

  lemma CheckedOne(r: Record, q: Record)
    requires Brought(r) == [q]
    ensures Checked(r) <==> Names(q, r.name, r.rtype)
  {
    assert q in Brought(r);
  }

  // ------------------------------------------------------- what a file can hold

  /** The records a file can hold: exactly these are ever listed. */
  predicate Savable(r: Record) {
    Addable(r) && Upper(r.rtype) == r.rtype
  }

  lemma FieldPlain(s: string)
    requires ',' !in s && '\n' !in s
    ensures PlainField(Trim(s)) && PlainField(Upper(Trim(s)))
  {
    TrimPiece(s);
    TrimTrimmed(s);
    UpperFacts(Trim(s));
  }

  lemma ParsedIsSavable(v: string)
    requires '\n' !in v && ParseRecord(v).Some?
    ensures Savable(ParseRecord(v).value)
  {
    var (name, rest) := SplitOnce(v, ',').value;
    var (rtype, tail) := SplitOnce(rest, ',').value;
    var (value, _) := SplitOnce(tail, ',').value;
    FieldPlain(name);
    FieldPlain(rtype);
    FieldPlain(value);
    UpperUpper(Trim(rtype));
  }

  lemma ListedIsSavable(text: string, r: Record)
    requires r in Listed(Load(text))
    ensures Savable(r)
  {
    LoadIsLoaded(text);
    FilterMapIn(LookupAll(Load(text), K_RECORD), r, ParseRecord);
    var v :| v in LookupAll(Load(text), K_RECORD) && ParseRecord(v) == Some(r);
    ValuesAreOneLine(Load(text), K_RECORD);
    ParsedIsSavable(v);
  }

  /** A record comes back from its line as it was exactly when its fields are trimmed, hold no comma and no line break, and its type is in upper case. */
  lemma RecordReadsBack(r: Record)
    ensures Brought(r) == [r] <==> Savable(r)
  {
    if Brought(r) == [r] {
      ListedIsSavable(Print([LineOf(r)]), r);
    }
    if Savable(r) {
      SavableBrings(r);
    }
  }

  lemma SavableBrings(r: Record)
    requires Savable(r)
    ensures Brought(r) == [r]
  {
    OneLinerBrings(r);
    TrimTrimmed(r.name);
    TrimTrimmed(r.rtype);
    TrimTrimmed(r.value);
  }

  // ------------------------------------------------------- what a removal takes

  function RemoveFirst(values: seq<string>, value: string): seq<string> {
    if values == [] then []
    else if values[0] == value then values[1..]
    else [values[0]] + RemoveFirst(values[1..], value)
  }

  lemma {:induction false} ValuesWithoutFirst(lines: seq<Line>, value: string)
    ensures LookupAll(WithoutFirst(lines, PairIs(K_RECORD, value)), K_RECORD) == RemoveFirst(LookupAll(lines, K_RECORD), value)
    ensures forall l | l in WithoutFirst(lines, PairIs(K_RECORD, value)) :: l in lines
  {
    if lines != [] {
      var drop, rest := PairIs(K_RECORD, value), lines[1..];
      ValuesWithoutFirst(rest, value);
      if Matches(lines[0], K_RECORD) {
        assert drop(lines[0]) <==> lines[0].value == value;
        assert LookupAll(lines, K_RECORD) == [lines[0].value] + LookupAll(rest, K_RECORD);
      } else {
        assert !drop(lines[0]) && LookupAll(lines, K_RECORD) == LookupAll(rest, K_RECORD);
      }
      assert ([lines[0]] + WithoutFirst(rest, drop))[1..] == WithoutFirst(rest, drop);
    }
  }

  lemma {:induction false} RemoveFirstKeeps(values: seq<string>, value: string)
    ensures forall v | v in RemoveFirst(values, value) :: v in values
    ensures value !in values ==> RemoveFirst(values, value) == values
  {
    if values != [] && values[0] != value {
      RemoveFirstKeeps(values[1..], value);
    }
  }

  /** The listing without the record at one place. */
  predicate OneGone(before: seq<Record>, after: seq<Record>, r: Record) {
    exists i | 0 <= i < |before| :: before[i] == r && after == before[..i] + before[i + 1..]
  }

  lemma OneGoneHead(r: Record, rest: seq<Record>)
    ensures OneGone([r] + rest, rest, r)
  {
    var before := [r] + rest;
    assert before[0] == r && rest == before[..0] + before[1..];
  }

  lemma OneGoneCons(x: Record, before: seq<Record>, after: seq<Record>, r: Record)
    requires OneGone(before, after, r)
    ensures OneGone([x] + before, [x] + after, r)
  {
    var i :| 0 <= i < |before| && before[i] == r && after == before[..i] + before[i + 1..];
    GoneCons(x, before, i);
    assert ([x] + before)[i + 1] == r;
  }

  lemma GoneCons<T>(x: T, before: seq<T>, i: nat)
    requires i < |before|
    ensures ([x] + before)[..i + 1] + ([x] + before)[i + 2..] == [x] + (before[..i] + before[i + 1..])
  {
  }

  lemma FilterMapCons(value: string, rest: seq<string>, parse: string -> Option<Record>)
    ensures FilterMap([value] + rest, parse)
            == match parse(value) case Some(x) => [x] + FilterMap(rest, parse) case None => FilterMap(rest, parse)
  {
    assert ([value] + rest)[1..] == rest;
  }

  /** One record goes where its value goes. */
  lemma {:induction false} FilterMapRemoveFirst(values: seq<string>, value: string, r: Record, parse: string -> Option<Record>)
    requires value in values && parse(value) == Some(r)
    ensures OneGone(FilterMap(values, parse), FilterMap(RemoveFirst(values, value), parse), r)
  {
    var v, rest := values[0], values[1..];
    assert values == [v] + rest;
    FilterMapCons(v, rest, parse);
    if v == value {
      OneGoneHead(r, FilterMap(rest, parse));
    } else {
      FilterMapRemoveFirst(rest, value, r, parse);
      FilterMapCons(v, RemoveFirst(rest, value), parse);
      if parse(v).Some? {
        OneGoneCons(parse(v).value, FilterMap(rest, parse), FilterMap(RemoveFirst(rest, value), parse), r);
      }
    }
  }

  lemma RemovedValues(text: string, name: string, rtype: string, lines': seq<Line>)
    requires Removed(Load(text), name, rtype, true) == Ok(lines')
    ensures LookupAll(Next(lines'), K_RECORD)
            == RemoveFirst(LookupAll(Load(text), K_RECORD), ToConfValue(Target(Load(text), name, rtype)))
  {
    var lines, value := Load(text), ToConfValue(Target(Load(text), name, rtype));
    LoadIsLoaded(text);
    ValuesWithoutFirst(lines, value);
    RemoveFirstKeeps(LookupAll(lines, K_RECORD), value);
    NextKeeps(lines');
  }

  /**
   * A removal that reports success takes one record with that name and type out of
   * the listing, if some line holds it just as the program would write it, and
   * otherwise nothing at all.
   */
  lemma RemoveTakes(text: string, name: string, rtype: string, lines': seq<Line>)
    requires Removed(Load(text), name, rtype, true) == Ok(lines')
    ensures var target := Target(Load(text), name, rtype);
            if ToConfValue(target) in LookupAll(Load(text), K_RECORD)
            then OneGone(Listed(Load(text)), Listed(Next(lines')), target)
            else Listed(Next(lines')) == Listed(Load(text))
  {
    var target, values := Target(Load(text), name, rtype), LookupAll(Load(text), K_RECORD);
    RemovedValues(text, name, rtype, lines');
    RemoveFirstKeeps(values, ToConfValue(target));
    if ToConfValue(target) in values {
      ListedIsSavable(text, target);
      AddableReadsBack(target);
      FilterMapRemoveFirst(values, ToConfValue(target), target, ParseRecord);
    }
  }

  // ------------------------------------------------------- adding and removing

  /** A record that is not listed is not written as the program writes it. */
  lemma AbsentValue(text: string, t: Record)
    requires Savable(t) && t !in Listed(Load(text))
    ensures ToConfValue(t) !in LookupAll(Load(text), K_RECORD)
  {
    AddableReadsBack(t);
    FilterMapIn(LookupAll(Load(text), K_RECORD), t, ParseRecord);
  }

  /** The first of two groups that has no such record does not matter. */
  lemma FirstOfParts(a: seq<Record>, b: seq<Record>, name: string, rtype: string)
    requires !HasRecord(a, name, rtype)
    ensures HasRecord(a + b, name, rtype) <==> HasRecord(b, name, rtype)
    ensures HasRecord(b, name, rtype) ==> FirstRecord(a + b, name, rtype) == FirstRecord(b, name, rtype)
  {
    var all := a + b;
    if HasRecord(all, name, rtype) {
      var i :| 0 <= i < |all| && Names(all[i], name, rtype);
      assert i >= |a| && all[i] == b[i - |a|];
    }
    if HasRecord(b, name, rtype) {
      var k := LeastIndex(b, name, rtype);
      FirstAt(b, name, rtype, k);
      forall j | 0 <= j < |a| + k
        ensures !Names(all[j], name, rtype)
      {
        assert j < |a| ==> all[j] == a[j];
        assert j >= |a| ==> all[j] == b[j - |a|];
      }
      assert all[|a| + k] == b[k];
      FirstAt(all, name, rtype, |a| + k);
    }
  }

  lemma {:induction false} LeastIndex(rs: seq<Record>, name: string, rtype: string) returns (k: nat)
    requires HasRecord(rs, name, rtype)
    ensures k < |rs| && Names(rs[k], name, rtype) && forall j | 0 <= j < k :: !Names(rs[j], name, rtype)
  {
    if Names(rs[0], name, rtype) {
      k := 0;
    } else {
      k := LeastIndex(rs[1..], name, rtype);
      k := k + 1;
    }
  }

  lemma OneGoneEnd(before: seq<Record>, brought: seq<Record>, after: seq<Record>, t: Record)
    requires OneGone(before + brought, after, t) && t !in before
    ensures after == before <==> |brought| == 1
  {
    var all := before + brought;
    var i :| 0 <= i < |all| && all[i] == t && after == all[..i] + all[i + 1..];
    assert forall j | 0 <= j < |before| :: all[j] == before[j] && before[j] in before;
    if |brought| == 1 {
      assert i == |before| && all[..i] == before && all[i + 1..] == [];
    }
  }

  /** The record that is brought is one, and its line is just as the program would write what it lists. */
  predicate Removable(r: Record) {
    |Brought(r)| == 1 && ToConfValue(Brought(r)[0]) in LookupAll(OwnLines(r), K_RECORD)
  }

  /**
   * For every file, every record that is accepted and every name and type that no
   * record had before: removing it succeeds exactly when the record brought one such,
   * in any letter case.  Then the old listing is back exactly when the record is
   * removable; if it is not, and is one record, the removal reports success and it
   * stays.
   */
  lemma AddThenRemoveIff(text: string, r: Record, lines': seq<Line>, name: string, rtype: string)
    requires Added(Load(text), r, true) == Ok(lines') && !HasRecord(Listed(Load(text)), name, Upper(rtype))
    ensures Removed(Next(lines'), name, rtype, true).Ok? <==> HasRecord(Brought(r), name, Upper(rtype))
    ensures HasRecord(Brought(r), name, Upper(rtype)) ==>
              var after := Listed(Next(Removed(Next(lines'), name, rtype, true).value));
              && (after == Listed(Load(text)) <==> Removable(r))
              && (!Removable(r) && |Brought(r)| == 1 ==> after == Listed(Load(text)) + Brought(r))
  {
    var before, brought := Listed(Load(text)), Brought(r);
    AddIsListed(text, r, lines');
    FirstOfParts(before, brought, name, Upper(rtype));
    if HasRecord(brought, name, Upper(rtype)) {
      var t := FirstRecord(brought, name, Upper(rtype));
      assert t !in before by {
        assert forall i | 0 <= i < |before| :: !Names(before[i], name, Upper(rtype));
      }
      ListedIsSavable(Print([LineOf(r)]), t);
      AbsentValue(text, t);
      NextOfAdded(text, r, lines');
      var last := Removed(Next(lines'), name, rtype, true).value;
      RemoveTakes(Print(lines'), name, rtype, last);
      if ToConfValue(t) in LookupAll(Next(lines'), K_RECORD) {
        OneGoneEnd(before, brought, Listed(Next(last)), t);
      }
      assert |brought| == 1 ==> brought[0] == t;
    }
  }

  /** The line of the record, blanks at its ends aside, is what the program would write for what it lists. */
  predicate WrittenAsListed(r: Record) {
    Trim(r.name) == TrimStart(r.name) && Upper(Trim(r.rtype)) == r.rtype && Trim(r.value) == r.value
  }

  lemma WrittenAsListedIff(r: Record)
    requires OneLiner(r) && !HasComma(r)
    ensures Trim(ToConfValue(r)) == ToConfValue(Listing(r)) <==> WrittenAsListed(r)
  {
    var q, shown := Listing(r), [','] + Show(r.ttl);
    TrimOfValue(r);
    TrimStartPiece(r.name);
    FieldPlain(r.name);
    FieldPlain(r.rtype);
    CancelOnce(TrimStart(r.name), q.name, ',', Rest(r), Rest(q));
    CancelOnce(r.rtype, q.rtype, ',', r.value + "," + Show(r.ttl), q.value + "," + Show(r.ttl));
    FieldPlain(r.value);
    CancelOnce(r.value, q.value, ',', Show(r.ttl), Show(r.ttl));
    assert ToConfValue(q) == q.name + [','] + Rest(q);
  }

  lemma OneLinerRemovable(r: Record)
    requires OneLiner(r) && !HasComma(r)
    ensures Brought(r) == [Listing(r)] && (Removable(r) <==> WrittenAsListed(r))
  {
    OneLinerBrings(r);
    WrittenAsListedIff(r);
  }

  /**
   * For a record of one line without a comma: removing it under its name and type,
   * trimmed and in any letter case, always succeeds, and brings the old listing back
   * exactly when its name does not end in a blank, its value has none around it, and
   * its type has none and is in upper case.
   */
  lemma AddThenRemoveOneLiner(text: string, r: Record, lines': seq<Line>, name: string, rtype: string)
    requires OneLiner(r) && !HasComma(r) && Added(Load(text), r, true) == Ok(lines')
    requires Lower(name) == Lower(Trim(r.name)) && Upper(rtype) == Upper(Trim(r.rtype))
    requires !HasRecord(Listed(Load(text)), name, Upper(rtype))
    ensures Removed(Next(lines'), name, rtype, true).Ok?
    ensures Listed(Next(Removed(Next(lines'), name, rtype, true).value))
            == Listed(Load(text)) + (if WrittenAsListed(r) then [] else [Listing(r)])
  {
    OneLinerRemovable(r);
    assert Names(Brought(r)[0], name, Upper(rtype));
    AddThenRemoveIff(text, r, lines', name, rtype);
  }

  /** And with a comma it is not listed, so there is nothing to remove. */
  lemma CommaIsNotListed(text: string, r: Record, lines': seq<Line>)
    requires OneLiner(r) && HasComma(r) && Added(Load(text), r, true) == Ok(lines')
    ensures Listed(Next(lines')) == Listed(Load(text))
  {
    OneLinerBrings(r);
    AddIsListed(text, r, lines');
  }

  // ------------------------------------------------------- runs

  function Apply(text: string, op: Op): string {
    match Outcome(Load(text), op)
    case Ok(lines) => Print(lines)
    case Err(_) => text
  }

  function Run(text: string, ops: seq<Op>): string
    decreases |ops|
  {
    if ops == [] then text else Run(Apply(text, ops[0]), ops[1..])
  }

  /** Nothing is asked of a removal; of an addition, just that the duplicate check works for its record. */
  predicate Allowed(op: Op) {
    op.Add? ==> Checked(op.r)
  }

  lemma UniqueWithout(before: seq<Record>, after: seq<Record>, r: Record)
    requires Unique(before) && OneGone(before, after, r)
    ensures Unique(after)
  {
    var i :| 0 <= i < |before| && before[i] == r && after == before[..i] + before[i + 1..];
    forall j, k | 0 <= j < k < |after|
      ensures !Names(after[k], after[j].name, after[j].rtype)
    {
      GoneAt(before, i, j);
      GoneAt(before, i, k);
    }
  }

  lemma GoneAt(before: seq<Record>, i: nat, j: nat)
    requires i < |before| && j < |before| - 1
    ensures (before[..i] + before[i + 1..])[j] == before[if j < i then j else j + 1]
  {
  }

  lemma ApplyKeepsUnique(text: string, op: Op)
    requires Unique(Listed(Load(text))) && Allowed(op)
    ensures Unique(Listed(Load(Apply(text, op))))
  {
    match Outcome(Load(text), op) {
      case Err(_) =>
      case Ok(lines) =>
        match op {
          case Add(r, _) =>
            CheckedStaysUnique(text, r);
            assert Added(Load(text), r, true) == Ok(lines);
          case Remove(name, rtype, _) =>
            RemoveTakes(text, name, rtype, lines);
            var target := Target(Load(text), name, rtype);
            if OneGone(Listed(Load(text)), Listed(Next(lines)), target) {
              UniqueWithout(Listed(Load(text)), Listed(Next(lines)), target);
            }
        }
    }
  }

  /** Over any run of allowed operations no two listed records have the same name and type. */
  lemma {:induction false} RunKeepsUnique(text: string, ops: seq<Op>)
    requires Unique(Listed(Load(text))) && forall op | op in ops :: Allowed(op)
    ensures Unique(Listed(Load(Run(text, ops))))
    decreases |ops|
  {
    if ops != [] {
      assert ops[0] in ops;
      ApplyKeepsUnique(text, ops[0]);
      RunKeepsUnique(Apply(text, ops[0]), ops[1..]);
    }
  }
}
