/** Text as sequences of characters: the string operations the parsers are built from. */
module Text {
  import opened Results

  /** The characters with the Unicode property White_Space. */
  predicate IsSpace(c: char) {
    || '\t' <= c <= '\r' || c == ' ' || c == '\U{85}' || c == '\U{A0}' || c == '\U{1680}'
    || '\U{2000}' <= c <= '\U{200A}' || c == '\U{2028}' || c == '\U{2029}' || c == '\U{202F}'
    || c == '\U{205F}' || c == '\U{3000}'
  }

  function TrimStart(s: string): (r: string)
    ensures |r| <= |s|
    ensures r == "" || !IsSpace(r[0])
    ensures s != "" && !IsSpace(s[0]) ==> r == s
  {
    if s != "" && IsSpace(s[0]) then TrimStart(s[1..]) else s
  }

  function TrimEnd(s: string): (r: string)
    ensures |r| <= |s|
    ensures r == "" || !IsSpace(r[|r| - 1])
    ensures s != "" && !IsSpace(s[|s| - 1]) ==> r == s
    ensures s != "" && !IsSpace(s[0]) ==> r != "" && r[0] == s[0]
  {
    if s != "" && IsSpace(s[|s| - 1]) then TrimEnd(s[..|s| - 1]) else s
  }

  function Trim(s: string): string {
    TrimEnd(TrimStart(s))
  }

  /** No white space at either end. */
  predicate Trimmed(s: string) {
    s == "" || (!IsSpace(s[0]) && !IsSpace(s[|s| - 1]))
  }

  lemma TrimTrimmed(s: string)
    ensures Trimmed(Trim(s))
    ensures Trim(s) == s <==> Trimmed(s)
    ensures Trim(Trim(s)) == Trim(s)
  {
    var t := Trim(s);
    assert t != "" ==> t[0] == TrimStart(s)[0];
  }

  lemma TrimShorter(s: string)
    ensures |Trim(s)| == |s| <==> Trimmed(s)
  {
    TrimTrimmed(s);
    TrimSame(s);
  }

  lemma TrimSame(s: string)
    ensures |TrimStart(s)| == |s| ==> TrimStart(s) == s
    ensures |TrimEnd(s)| == |s| ==> TrimEnd(s) == s
    ensures |Trim(s)| == |s| ==> Trim(s) == s
  {
  }

  /** What `TrimStart` leaves first, `Trim` leaves first. */
  lemma TrimHead(s: string)
    ensures Trim(s) == "" <==> TrimStart(s) == ""
    ensures Trim(s) != "" ==> Trim(s)[0] == TrimStart(s)[0]
  {
  }

  /** Trimming brings in no character. */
  lemma TrimPiece(s: string)
    ensures forall c | c in Trim(s) :: c in s
  {
    TrimStartPiece(s);
    TrimEndPiece(TrimStart(s));
  }

  lemma {:induction false} TrimStartPiece(s: string)
    ensures forall c | c in TrimStart(s) :: c in s
  {
    if s != "" && IsSpace(s[0]) {
      TrimStartPiece(s[1..]);
    }
  }

  lemma {:induction false} TrimEndPiece(s: string)
    ensures forall c | c in TrimEnd(s) :: c in s
  {
    if s != "" && IsSpace(s[|s| - 1]) {
      TrimEndPiece(s[..|s| - 1]);
    }
  }

  /** White space at the ends never matters to `Trim`. */
  lemma {:induction false} TrimIgnoresEnd(s: string, c: char)
    requires IsSpace(c)
    ensures Trim(s + [c]) == Trim(s)
    decreases |s|
  {
    if s == "" {
      assert TrimStart([c]) == TrimStart([]) == "";
    } else if IsSpace(s[0]) {
      assert (s + [c])[1..] == s[1..] + [c];
      TrimIgnoresEnd(s[1..], c);
    } else {
      assert TrimStart(s + [c]) == s + [c];
      assert (s + [c])[..|s|] == s;
    }
  }

  lemma TrimTwice(s: string)
    ensures Trim(TrimStart(s)) == Trim(s)
  {
    assert TrimStart(TrimStart(s)) == TrimStart(s);
  }

  /** Trimming around a separator. */
  lemma TrimAround(k: string, c: char, v: string)
    requires !IsSpace(c)
    ensures Trim(k + [c] + v) == TrimStart(k) + [c] + TrimEnd(v)
  {
    TrimStartBefore(k, c, v);
    TrimEndAfter(TrimStart(k), c, v);
  }

  lemma {:induction false} TrimStartBefore(k: string, c: char, v: string)
    requires !IsSpace(c)
    ensures TrimStart(k + [c] + v) == TrimStart(k) + [c] + v
    decreases |k|
  {
    if k == "" {
      assert k + [c] + v == [c] + v;
    } else if IsSpace(k[0]) {
      assert (k + [c] + v)[1..] == k[1..] + [c] + v;
      TrimStartBefore(k[1..], c, v);
    } else {
      assert (k + [c] + v)[0] == k[0];
    }
  }

  lemma {:induction false} TrimEndAfter(k: string, c: char, v: string)
    requires !IsSpace(c)
    ensures TrimEnd(k + [c] + v) == k + [c] + TrimEnd(v)
    decreases |v|
  {
    var s := k + [c] + v;
    if v == "" {
      assert s == k + [c] && s[|s| - 1] == c;
    } else if IsSpace(v[|v| - 1]) {
      assert s[|s| - 1] == v[|v| - 1];
      assert s[..|s| - 1] == k + [c] + v[..|v| - 1];
      TrimEndAfter(k, c, v[..|v| - 1]);
    } else {
      assert s[|s| - 1] == v[|v| - 1];
    }
  }

  // ------------------------------------------------------ counting a separator

  function Count(s: string, c: char): nat {
    if s == "" then 0 else (if s[0] == c then 1 else 0) + Count(s[1..], c)
  }

  lemma {:induction false} CountSplit(a: string, b: string, c: char)
    ensures Count(a + b, c) == Count(a, c) + Count(b, c)
  {
    if a == "" {
      assert a + b == b;
    } else {
      assert (a + b)[1..] == a[1..] + b;
      CountSplit(a[1..], b, c);
    }
  }

  lemma {:induction false} CountIn(s: string, c: char)
    ensures c in s <==> Count(s, c) > 0
  {
    if s != "" {
      CountIn(s[1..], c);
      assert s == [s[0]] + s[1..];
    }
  }

  lemma {:induction false} CountTrimStart(s: string, c: char)
    requires !IsSpace(c)
    ensures Count(TrimStart(s), c) == Count(s, c)
  {
    if s != "" && IsSpace(s[0]) {
      CountTrimStart(s[1..], c);
    }
  }

  lemma {:induction false} CountTrimEnd(s: string, c: char)
    requires !IsSpace(c)
    ensures Count(TrimEnd(s), c) == Count(s, c)
  {
    if s != "" && IsSpace(s[|s| - 1]) {
      var init, last := s[..|s| - 1], s[|s| - 1];
      CountTrimEnd(init, c);
      CountSplit(init, [last], c);
      assert s == init + [last] && [last][1..] == "";
    }
  }

  lemma CountTrim(s: string, c: char)
    requires !IsSpace(c)
    ensures Count(Trim(s), c) == Count(s, c)
  {
    CountTrimStart(s, c);
    CountTrimEnd(TrimStart(s), c);
  }

  /** A text with a separator between two others. */
  lemma CountAround(a: string, c: char, b: string)
    ensures Count(a + [c] + b, c) == Count(a, c) + 1 + Count(b, c)
  {
    CountSplit(a + [c], b, c);
    CountSplit(a, [c], c);
    assert [c][1..] == "";
  }

  /** The index of the first `c` in `s`, or `|s|`. */
  function Find(s: string, c: char): (i: nat)
    ensures i <= |s| && forall j | 0 <= j < i :: s[j] != c
    ensures i < |s| ==> s[i] == c
  {
    if s == "" || s[0] == c then 0 else 1 + Find(s[1..], c)
  }

  lemma FindFirst(a: string, c: char, b: string)
    requires c !in a
    ensures Find(a + [c] + b, c) == |a|
  {
    var s := a + [c] + b;
    assert s[|a|] == c && forall j | 0 <= j < |a| :: s[j] == a[j];
  }

  /** `split_once` */
  function SplitOnce(s: string, c: char): (r: Option<(string, string)>)
    ensures r.None? <==> c !in s
    ensures r.Some? ==> c !in r.value.0 && s == r.value.0 + [c] + r.value.1
  {
    var i := Find(s, c);
    if i == |s| then None else Some((s[..i], s[i + 1..]))
  }

  lemma SplitOnceAt(a: string, c: char, b: string)
    requires c !in a
    ensures SplitOnce(a + [c] + b, c) == Some((a, b))
  {
    FindFirst(a, c, b);
    var s := a + [c] + b;
    assert s[..|a|] == a && s[|a| + 1..] == b;
  }

  /** Equal texts have the same first part and the same rest. */
  lemma CancelOnce(a: string, b: string, c: char, x: string, y: string)
    requires c !in a && c !in b
    ensures a + [c] + x == b + [c] + y <==> a == b && x == y
  {
    SplitOnceAt(a, c, x);
    SplitOnceAt(b, c, y);
  }

  /** What is left after the first separator holds the others. */
  lemma SplitOnceCount(s: string, c: char)
    requires c in s
    ensures Count(SplitOnce(s, c).value.1, c) + 1 == Count(s, c)
  {
    var (a, b) := SplitOnce(s, c).value;
    CountAround(a, c, b);
    CountIn(a, c);
  }

  function Join(parts: seq<string>, c: char): string {
    if |parts| == 0 then "" else if |parts| == 1 then parts[0] else parts[0] + [c] + Join(parts[1..], c)
  }

  /** Joining seen from the last piece. */
  lemma {:induction false} JoinLast(parts: seq<string>, c: char)
    requires |parts| >= 2
    ensures Join(parts, c) == Join(parts[..|parts| - 1], c) + [c] + parts[|parts| - 1]
    decreases |parts|
  {
    if |parts| > 2 {
      JoinLast(parts[1..], c);
      assert parts[1..][..|parts| - 2] == parts[..|parts| - 1][1..];
      assert Join(parts[..|parts| - 1], c) == parts[0] + [c] + Join(parts[..|parts| - 1][1..], c);
    }
  }

  /** `split`: all pieces between occurrences of `c`. */
  function Split(s: string, c: char): (r: seq<string>)
    ensures |r| >= 1
    decreases |s|
  {
    var i := Find(s, c);
    if i == |s| then [s] else [s[..i]] + Split(s[i + 1..], c)
  }

  /** Joining the pieces gives the text back. */
  lemma {:induction false} JoinSplit(s: string, c: char)
    ensures Join(Split(s, c), c) == s
    decreases |s|
  {
    var i := Find(s, c);
    if i < |s| {
      JoinSplit(s[i + 1..], c);
      JoinPieces(s, c, i, Split(s[i + 1..], c));
    }
  }

  lemma JoinPieces(s: string, c: char, i: nat, rest: seq<string>)
    requires i < |s| && s[i] == c && rest != [] && Join(rest, c) == s[i + 1..]
    ensures Join([s[..i]] + rest, c) == s
  {
    assert ([s[..i]] + rest)[1..] == rest;
    assert s == s[..i] + [c] + s[i + 1..];
  }

  /** No piece holds the separator. */
  lemma {:induction false} SplitFree(s: string, c: char)
    ensures forall p | p in Split(s, c) :: c !in p
    ensures c !in Split(s, c)[|Split(s, c)| - 1]
    decreases |s|
  {
    var i := Find(s, c);
    if i < |s| {
      SplitFree(s[i + 1..], c);
    }
  }

  lemma SplitCons(a: string, c: char, rest: string)
    requires c !in a
    ensures Split(a + [c] + rest, c) == [a] + Split(rest, c)
  {
    FindFirst(a, c, rest);
    var s := a + [c] + rest;
    assert s[..|a|] == a && s[|a| + 1..] == rest;
  }

  lemma SplitPrefix(a: string, b: string, c: char)
    requires c !in a
    ensures Split(a + b, c) == [a + Split(b, c)[0]] + Split(b, c)[1..]
  {
    match SplitOnce(b, c)
    case None =>
      FindNone(b, c);
      FindNone(a + b, c);
    case Some((b0, b1)) =>
      SplitCons(b0, c, b1);
      assert a + b == (a + b0) + [c] + b1;
      SplitCons(a + b0, c, b1);
  }

  lemma FindNone(s: string, c: char)
    requires c !in s
    ensures Find(s, c) == |s|
  {
  }

  /** Splitting undoes joining, for pieces that do not contain the separator. */
  lemma {:induction false} SplitJoin(parts: seq<string>, c: char)
    requires |parts| >= 1 && forall p | p in parts :: c !in p
    ensures Split(Join(parts, c), c) == parts
    decreases |parts|
  {
    assert parts[0] in parts;
    if |parts| > 1 {
      SplitJoin(parts[1..], c);
      SplitCons(parts[0], c, Join(parts[1..], c));
    }
  }

  /** A line ending `\r\n` loses its `\r` too. */
  function StripCr(s: string): string {
    if s != "" && s[|s| - 1] == '\r' then s[..|s| - 1] else s
  }

  /** A final carriage return never matters to `Trim`. */
  lemma TrimDropsCr(s: string)
    ensures Trim(StripCr(s)) == Trim(s)
  {
    var a := StripCr(s);
    if a != s {
      assert s == a + [s[|s| - 1]];
      TrimIgnoresEnd(a, s[|s| - 1]);
    }
  }

  function StripAll(ls: seq<string>): (r: seq<string>)
    ensures |r| == |ls| && forall i | 0 <= i < |ls| :: r[i] == StripCr(ls[i])
  {
    seq(|ls|, i requires 0 <= i < |ls| => StripCr(ls[i]))
  }

  /** All pieces but the last lose a final `\r`. */
  function StripEnds(p: seq<string>): (r: seq<string>)
    requires |p| >= 1
    ensures |r| == |p|
  {
    StripAll(p[..|p| - 1]) + [p[|p| - 1]]
  }

  lemma StripEndsAt(p: seq<string>, i: nat)
    requires i < |p|
    ensures StripEnds(p)[i] == if i < |p| - 1 then StripCr(p[i]) else p[i]
  {
  }

  /** `lines`: pieces ended by `\n` or `\r\n`; a last piece without an end counts unless it is empty. */
  function Lines(s: string): seq<string> {
    var p := Split(s, '\n');
    if p[|p| - 1] == "" then StripAll(p[..|p| - 1]) else StripEnds(p)
  }

  lemma LinesHaveNoNewline(s: string)
    ensures forall l | l in Lines(s) :: '\n' !in l
  {
    var p := Split(s, '\n');
    SplitFree(s, '\n');
    forall i | 0 <= i < |p|
      ensures '\n' !in p[i] && '\n' !in StripCr(p[i])
    {
      assert p[i] in p;
    }
  }

  /** One `writeln!` per line. */
  function Unlines(ls: seq<string>): string {
    if ls == [] then "" else ls[0] + "\n" + Unlines(ls[1..])
  }

  lemma {:induction false} UnlinesSnoc(ls: seq<string>, l: string)
    ensures Unlines(ls + [l]) == Unlines(ls) + l + "\n"
  {
    if ls == [] {
      assert Unlines([l]) == l + "\n";
    } else {
      UnlinesSnoc(ls[1..], l);
      assert (ls + [l])[1..] == ls[1..] + [l];
    }
  }

  lemma {:induction false} UnlinesJoin(ls: seq<string>)
    ensures Unlines(ls) == Join(ls + [""], '\n')
    decreases |ls|
  {
    if ls != [] {
      UnlinesJoin(ls[1..]);
      assert (ls + [""])[1..] == ls[1..] + [""];
    }
  }

  /** What is written line by line reads back line by line; only a final `\r` of a line is lost. */
  lemma LinesOfUnlines(ls: seq<string>)
    requires forall l | l in ls :: '\n' !in l
    ensures Lines(Unlines(ls)) == StripAll(ls)
  {
    UnlinesJoin(ls);
    SplitJoin(ls + [""], '\n');
    assert (ls + [""])[..|ls|] == ls;
  }

  lemma {:induction false} UnlinesSplit(a: seq<string>, b: seq<string>)
    ensures Unlines(a + b) == Unlines(a) + Unlines(b)
  {
    if a == [] {
      assert a + b == b;
    } else {
      assert (a + b)[1..] == a[1..] + b;
      UnlinesSplit(a[1..], b);
    }
  }

  lemma UnlinesPieces(r: string)
    ensures Unlines(Split(r, '\n')) == r + "\n"
  {
    var p := Split(r, '\n');
    UnlinesJoin(p);
    JoinLast(p + [""], '\n');
    assert (p + [""])[..|p|] == p;
    JoinSplit(r, '\n');
  }

  /** ASCII lower case. */
  function LowerChar(c: char): char {
    if 'A' <= c <= 'Z' then c + ('a' - 'A') else c
  }

  function Lower(s: string): (r: string)
    ensures |r| == |s| && forall i | 0 <= i < |s| :: r[i] == LowerChar(s[i])
  {
    seq(|s|, i requires 0 <= i < |s| => LowerChar(s[i]))
  }

  lemma {:induction false} TrimStartLower(s: string)
    ensures TrimStart(Lower(s)) == Lower(TrimStart(s))
  {
    if s != "" && IsSpace(s[0]) {
      assert Lower(s)[1..] == Lower(s[1..]);
      TrimStartLower(s[1..]);
    }
  }

  lemma {:induction false} TrimEndLower(s: string)
    ensures TrimEnd(Lower(s)) == Lower(TrimEnd(s))
  {
    if s != "" && IsSpace(s[|s| - 1]) {
      assert Lower(s)[..|s| - 1] == Lower(s[..|s| - 1]);
      TrimEndLower(s[..|s| - 1]);
    }
  }

  /** Lower case and trimming can be done in either order. */
  lemma TrimLower(s: string)
    ensures Trim(Lower(s)) == Lower(Trim(s))
  {
    TrimStartLower(s);
    TrimEndLower(TrimStart(s));
  }

  function UpperChar(c: char): char {
    if 'a' <= c <= 'z' then c - ('a' - 'A') else c
  }

  function Upper(s: string): (r: string)
    ensures |r| == |s| && forall i | 0 <= i < |s| :: r[i] == UpperChar(s[i])
  {
    seq(|s|, i requires 0 <= i < |s| => UpperChar(s[i]))
  }

  lemma UpperUpper(s: string)
    ensures Upper(Upper(s)) == Upper(s)
  {
    assert forall i | 0 <= i < |s| :: UpperChar(UpperChar(s[i])) == UpperChar(s[i]);
  }

  lemma LowerLower(s: string)
    ensures Lower(Lower(s)) == Lower(s)
  {
    assert forall i | 0 <= i < |s| :: LowerChar(LowerChar(s[i])) == LowerChar(s[i]);
  }
}
