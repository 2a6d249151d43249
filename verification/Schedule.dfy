/** The weekly internet schedule: its time windows, the manual override and the firewall chain they drive. */
module Schedule {
  import opened Results
  import opened Text
  import opened Numbers
  import opened ConfigDisk

  datatype DayWindow = DayWindow(active: bool, onFrom: string, onTo: string)

  type Week = d: seq<DayWindow> | |d| == 7 witness seq(7, _ => DayWindow(false, "07:00", "22:00"))

  datatype Schedule = Schedule(enabled: bool, days: Week)

  /** `parse_hhmm`: minutes since midnight. */
  function ParseHhmm(s: string): (r: Option<nat>)
    ensures r.Some? ==> r.value < 1440
  {
    match SplitOnce(s, ':')
    case None => None
    case Some((h, m)) =>
      var hour, minute := ParseUnsigned(Trim(h), U32_MAX), ParseUnsigned(Trim(m), U32_MAX);
      if hour.None? || minute.None? || hour.value > 23 || minute.value > 59 then None
      else Some(hour.value * 60 + minute.value)
  }

  predicate IsValidHhmm(s: string) {
    ParseHhmm(s).Some?
  }

  datatype Bound = FromField | ToField

  datatype BadTime = BadTime(day: nat, bound: Bound, value: string)

  function Field(s: Schedule, day: nat, bound: Bound): string
    requires day < 7
  {
    if bound.FromField? then s.days[day].onFrom else s.days[day].onTo
  }

  predicate DayOk(s: Schedule, day: nat, valid: string -> bool)
    requires day < 7
  {
    valid(Field(s, day, FromField)) && valid(Field(s, day, ToField))
  }

  predicate AllTimesOk(s: Schedule, valid: string -> bool) {
    forall day | 0 <= day < 7 :: DayOk(s, day, valid)
  }

  predicate AllTimesValid(s: Schedule) {
    AllTimesOk(s, IsValidHhmm)
  }

  /** The first field, day by day and `from` before `to`, that is no time. */
  predicate IsFirstBad(s: Schedule, bad: BadTime, valid: string -> bool) {
    && bad.day < 7 && bad.value == Field(s, bad.day, bad.bound) && !valid(bad.value)
    && (forall day | 0 <= day < bad.day :: DayOk(s, day, valid))
    && (bad.bound.ToField? ==> valid(Field(s, bad.day, FromField)))
  }

  /** The loop of `validate`, for any test of a time. */
  method CheckTimes(s: Schedule, valid: string -> bool) returns (r: Result<(), BadTime>)
    ensures r.Ok? <==> AllTimesOk(s, valid)
    ensures r.Err? ==> IsFirstBad(s, r.error, valid)
  {
    for i := 0 to 7
      invariant forall day | 0 <= day < i :: DayOk(s, day, valid)
    {
      if !valid(s.days[i].onFrom) {
        assert !DayOk(s, i, valid);
        return Err(BadTime(i, FromField, s.days[i].onFrom));
      }
      if !valid(s.days[i].onTo) {
        assert !DayOk(s, i, valid);
        return Err(BadTime(i, ToField, s.days[i].onTo));
      }
    }
    r := Ok(());
  }

  /** Accepts exactly the schedules whose fourteen times are well formed, and otherwise reports the first that is not. */
  method Validate(s: Schedule) returns (r: Result<(), BadTime>)
    ensures r.Ok? <==> AllTimesValid(s)
    ensures r.Err? ==> IsFirstBad(s, r.error, IsValidHhmm)
  {
    r := CheckTimes(s, IsValidHhmm);
  }

  // ------------------------------------------------------------------ the window

  type Parser = string -> Option<nat>

  function OnFrom(w: DayWindow, parse: Parser): nat {
    match parse(w.onFrom) case Some(m) => m case None => 0
  }

  function OnTo(w: DayWindow, parse: Parser): nat {
    match parse(w.onTo) case Some(m) => m case None => 1440
  }

  /** The three cases: an empty window, one within the day, one that spans midnight. */
  predicate Outside(onFrom: nat, onTo: nat, current: nat) {
    if onFrom == onTo then true
    else if onFrom < onTo then !(onFrom <= current < onTo)
    else onTo <= current < onFrom
  }

  /** `should_block_at`, for any way to read a time. */
  predicate ShouldBlock(s: Schedule, parse: Parser, weekday: nat, hour: nat, minute: nat)
    requires weekday < 7
  {
    var w := s.days[weekday];
    s.enabled && w.active && Outside(OnFrom(w, parse), OnTo(w, parse), hour * 60 + minute)
  }

  /** `should_block_at` */
  predicate ShouldBlockAt(s: Schedule, weekday: nat, hour: nat, minute: nat)
    requires weekday < 7
  {
    ShouldBlock(s, ParseHhmm, weekday, hour, minute)
  }

  /** Times of day, if anything. */
  ghost predicate ReadsTimes(parse: Parser) {
    forall v :: parse(v).Some? ==> parse(v).value < 1440
  }

  lemma ParseHhmmReadsTimes()
    ensures ReadsTimes(ParseHhmm)
  {
  }

  /** Is there a time in both fields of the day? */
  predicate BothRead(w: DayWindow, parse: Parser) {
    parse(w.onFrom).Some? && parse(w.onTo).Some?
  }

  /** An accepted schedule has a time in both fields of every day, so the two fallback times are never used. */
  lemma AcceptedIsRead(s: Schedule, weekday: nat)
    requires AllTimesValid(s) && weekday < 7
    ensures BothRead(s.days[weekday], ParseHhmm)
  {
    assert DayOk(s, weekday, IsValidHhmm);
  }

  /** What the window means on a clock: the internet is on from `onFrom` for as long as it takes to get to `onTo`. */
  predicate OnInside(onFrom: nat, onTo: nat, current: nat) {
    (current - onFrom) % 1440 < (onTo - onFrom) % 1440
  }

  lemma Circular(a: nat, b: nat)
    requires a < 1440 && b < 1440
    ensures (a - b) % 1440 == if a >= b then a - b else a - b + 1440
  {
  }

  /** Within a day the three cases of the code are one window on the clock, whether or not it spans midnight. */
  lemma BlocksOutsideWindow(s: Schedule, parse: Parser, weekday: nat, hour: nat, minute: nat)
    requires ReadsTimes(parse) && weekday < 7 && hour < 24 && minute < 60
    requires s.enabled && s.days[weekday].active && BothRead(s.days[weekday], parse)
    ensures ShouldBlock(s, parse, weekday, hour, minute)
            <==> !OnInside(parse(s.days[weekday].onFrom).value, parse(s.days[weekday].onTo).value, hour * 60 + minute)
  {
    var w := s.days[weekday];
    Circular(hour * 60 + minute, OnFrom(w, parse));
    Circular(OnTo(w, parse), OnFrom(w, parse));
  }

  /** The same day with its two times exchanged. */
  function Exchanged(s: Schedule, weekday: nat): Schedule
    requires weekday < 7
  {
    var w := s.days[weekday];
    s.(days := s.days[weekday := DayWindow(w.active, w.onTo, w.onFrom)])
  }

  /** Exchanging two different times blocks exactly the other minutes. */
  lemma ExchangeIsComplement(s: Schedule, parse: Parser, weekday: nat, hour: nat, minute: nat)
    requires weekday < 7 && s.enabled && s.days[weekday].active && BothRead(s.days[weekday], parse)
    ensures var same := parse(s.days[weekday].onFrom) == parse(s.days[weekday].onTo);
            ShouldBlock(Exchanged(s, weekday), parse, weekday, hour, minute)
            <==> same || !ShouldBlock(s, parse, weekday, hour, minute)
  {
    assert Exchanged(s, weekday).days[weekday] == DayWindow(true, s.days[weekday].onTo, s.days[weekday].onFrom);
  }

  /** Minutes among the first `n` of a day at which `p` holds. */
  function Count(p: nat -> bool, n: nat): nat {
    if n == 0 then 0 else Count(p, n - 1) + (if p(n - 1) then 1 else 0)
  }

  /** Is internet blocked at minute `m` of the day? */
  function BlockedAt(s: Schedule, parse: Parser, weekday: nat): nat -> bool
    requires weekday < 7
  {
    (m: nat) => ShouldBlock(s, parse, weekday, m / 60, m % 60)
  }

  lemma {:induction false} CountOutside(p: nat -> bool, onFrom: nat, onTo: nat, n: nat)
    requires forall m :: p(m) <==> Outside(onFrom, onTo, m)
    ensures Count(p, n) ==
            if onFrom == onTo then n
            else if onFrom < onTo then (if n < onFrom then n else onFrom) + (if n < onTo then 0 else n - onTo)
            else if n < onTo then 0 else if n < onFrom then n - onTo else onFrom - onTo
  {
    if n > 0 {
      CountOutside(p, onFrom, onTo, n - 1);
    }
  }

  lemma {:induction false} CountNothing(p: nat -> bool, n: nat)
    requires forall m :: !p(m)
    ensures Count(p, n) == 0
  {
    if n > 0 {
      CountNothing(p, n - 1);
    }
  }

  lemma MinuteOfDay(m: nat)
    ensures m / 60 * 60 + m % 60 == m
  {
  }

  lemma DayTotal(p: nat -> bool, onFrom: nat, onTo: nat)
    requires forall m :: p(m) <==> Outside(onFrom, onTo, m)
    requires onFrom < 1440 && onTo <= 1440
    ensures Count(p, 1440) == if onFrom == onTo then 1440 else (onFrom - onTo) % 1440
  {
    CountOutside(p, onFrom, onTo, 1440);
  }

  /** Of every day an active window blocks `onFrom - onTo` minutes, counted around the clock; all of them if the times are equal. */
  lemma BlockedMinutesOfDay(s: Schedule, parse: Parser, weekday: nat)
    requires ReadsTimes(parse) && weekday < 7
    ensures var onFrom, onTo := OnFrom(s.days[weekday], parse), OnTo(s.days[weekday], parse);
            Count(BlockedAt(s, parse, weekday), 1440) ==
            if !s.enabled || !s.days[weekday].active then 0 else if onFrom == onTo then 1440 else (onFrom - onTo) % 1440
  {
    var p, onFrom, onTo := BlockedAt(s, parse, weekday), OnFrom(s.days[weekday], parse), OnTo(s.days[weekday], parse);
    forall m: nat
      ensures p(m) <==> s.enabled && s.days[weekday].active && Outside(onFrom, onTo, m)
    {
      MinuteOfDay(m);
    }
    if s.enabled && s.days[weekday].active {
      DayTotal(p, onFrom, onTo);
    } else {
      CountNothing(p, 1440);
    }
  }

  /** What an active day does with two times. */
  predicate DayIsWindow(s: Schedule, parse: Parser, weekday: nat, hour: nat, minute: nat)
    requires weekday < 7 && BothRead(s.days[weekday], parse)
  {
    var onFrom, onTo := parse(s.days[weekday].onFrom).value, parse(s.days[weekday].onTo).value;
    && (ShouldBlock(s, parse, weekday, hour, minute) <==> !OnInside(onFrom, onTo, hour * 60 + minute))
    && (ShouldBlock(Exchanged(s, weekday), parse, weekday, hour, minute)
        <==> onFrom == onTo || !ShouldBlock(s, parse, weekday, hour, minute))
    && Count(BlockedAt(s, parse, weekday), 1440) == if onFrom == onTo then 1440 else (onFrom - onTo) % 1440
  }

  lemma WindowFacts(s: Schedule, parse: Parser, weekday: nat, hour: nat, minute: nat)
    requires ReadsTimes(parse) && weekday < 7 && hour < 24 && minute < 60
    requires s.enabled && s.days[weekday].active && BothRead(s.days[weekday], parse)
    ensures DayIsWindow(s, parse, weekday, hour, minute)
  {
    BlocksOutsideWindow(s, parse, weekday, hour, minute);
    ExchangeIsComplement(s, parse, weekday, hour, minute);
    BlockedMinutesOfDay(s, parse, weekday);
  }

  /** All of this holds of every active day of a schedule that `validate` accepts. */
  lemma AcceptedWindows(s: Schedule, weekday: nat, hour: nat, minute: nat)
    requires AllTimesValid(s) && weekday < 7 && hour < 24 && minute < 60 && s.enabled && s.days[weekday].active
    ensures BothRead(s.days[weekday], ParseHhmm) && DayIsWindow(s, ParseHhmm, weekday, hour, minute)
  {
    AcceptedIsRead(s, weekday);
    ParseHhmmReadsTimes();
    WindowFacts(s, ParseHhmm, weekday, hour, minute);
  }

  // -------------------------------------------------- the chain and the override

  /** The override file and the number of drop rules in the chain. */
  datatype Gate = Gate(file: Option<string>, drops: nat)

  /** How the commands of one application of the schedule end. */
  datatype Env = Env(remove: bool, list: bool, listAgain: bool, run: bool)

  const WRITTEN: Io := Done

  const ALL_WORKS := Env(true, true, true, true)

  predicate Blocked(g: Gate) {
    g.drops > 0
  }

  /** `is_inet_blocked`: a listing that fails reads as not blocked. */
  predicate SeenBlocked(g: Gate, list: bool) {
    list && Blocked(g)
  }

  function Block(g: Gate, list: bool, run: bool): (Gate, bool) {
    if SeenBlocked(g, list) then (g, true) else if run then (g.(drops := g.drops + 1), true) else (g, false)
  }

  function Unblock(g: Gate, list: bool, run: bool): (Gate, bool) {
    if !SeenBlocked(g, list) then (g, true) else if run then (g.(drops := 0), true) else (g, false)
  }

  function OverrideText(block: bool): string {
    if block then "1" else "0"
  }

  function OverrideOf(file: Option<string>): Option<bool> {
    if file.None? then None
    else if Trim(file.value) == "1" then Some(true)
    else if Trim(file.value) == "0" then Some(false)
    else None
  }

  function ClearOverride(g: Gate, ok: bool): Gate {
    if ok then g.(file := None) else g
  }

  /** `apply_schedule` for a given wish of the schedule. */
  function Apply(g: Gate, wish: bool, env: Env): (Gate, Result<bool, ()>) {
    var ov := OverrideOf(g.file);
    var g1 := if ov == Some(wish) then ClearOverride(g, env.remove) else g;
    var want := if ov.Some? then ov.value else wish;
    if want == SeenBlocked(g1, env.list) then (g1, Ok(false))
    else
      var (g2, ok) := if want then Block(g1, env.listAgain, env.run) else Unblock(g1, env.listAgain, env.run);
      (g2, if ok then Ok(true) else Err(()))
  }

  datatype LocalTime = LocalTime(weekday: nat, hour: nat, minute: nat)

  /** `should_block_now`: without a local time nothing is blocked. */
  predicate Wish(s: Schedule, now: Option<LocalTime>)
    requires now.Some? ==> now.value.weekday < 7
  {
    now.Some? && ShouldBlockAt(s, now.value.weekday, now.value.hour, now.value.minute)
  }

  class Enforcer {
    var file: Option<string>
    var drops: nat

    function View(): Gate
      reads this
    {
      Gate(file, drops)
    }

    constructor (g: Gate)
      ensures View() == g
    {
      file, drops := g.file, g.drops;
    }

    method SetOverride(block: bool, io: Io) returns (ok: bool)
      modifies this
      ensures View() == old(View()).(file := if io.Done? then Some(OverrideText(block)) else io.leaves) && ok == io.Done?
    {
      ok := io.Done?;
      file := if ok then Some(if block then "1" else "0") else io.leaves;
    }

    method InetBlock(list: bool, run: bool) returns (ok: bool)
      modifies this
      ensures (View(), ok) == Block(old(View()), list, run)
    {
      if list && drops > 0 {
        return true;
      }
      if run {
        drops := drops + 1;
      }
      ok := run;
    }

    method InetUnblock(list: bool, run: bool) returns (ok: bool)
      modifies this
      ensures (View(), ok) == Unblock(old(View()), list, run)
    {
      if !(list && drops > 0) {
        return true;
      }
      if run {
        drops := 0;
      }
      ok := run;
    }

    method ApplySchedule(s: Schedule, now: Option<LocalTime>, env: Env) returns (r: Result<bool, ()>)
      requires now.Some? ==> now.value.weekday < 7
      modifies this
      ensures (View(), r) == Apply(old(View()), Wish(s, now), env)
    {
      var wish := Wish(s, now);
      var want := wish;
      match OverrideOf(file) {
        case Some(ov) =>
          if ov == wish {
            if env.remove {
              file := None;
            }
          } else {
            want := ov;
          }
        case None =>
      }
      var blocked := env.list && drops > 0;
      if want == blocked {
        return Ok(false);
      }
      var ok;
      if want {
        ok := InetBlock(env.listAgain, env.run);
      } else {
        ok := InetUnblock(env.listAgain, env.run);
      }
      r := if ok then Ok(true) else Err(());
    }

    /** `schedule_block_post` and `schedule_unblock_post` */
    method PressButton(block: bool, io: Io, list: bool, run: bool) returns (ok: bool)
      modifies this
      ensures (View(), ok) == Pressed(old(View()), block, io, list, run)
      ensures io.Done? && list && run ==> ok && View() == Step(old(View()), Press(block))
    {
      ok := SetOverride(block, io);
      if !ok {
        return;
      }
      if block {
        ok := InetBlock(list, run);
      } else {
        ok := InetUnblock(list, run);
      }
    }

    /** `schedule_post`: nothing is touched unless the schedule is valid and saved. */
    method SavePost(s: Schedule, save: bool, clear: bool, now: Option<LocalTime>, env: Env) returns (r: Result<(), SaveError>)
      requires now.Some? ==> now.value.weekday < 7
      modifies this
      ensures r.Ok? || (r.Err? && r.error.ApplyFailed?) <==> AllTimesValid(s) && save
      ensures r.Err? && !r.error.ApplyFailed? ==> View() == old(View())
      ensures AllTimesValid(s) && save ==> View() == Apply(ClearOverride(old(View()), clear), Wish(s, now), env).0
      ensures AllTimesValid(s) && save && clear && env == ALL_WORKS ==>
                r.Ok? && View() == Step(old(View()), Save(Wish(s, now)))
    {
      var valid := Validate(s);
      if valid.Err? {
        return Err(Invalid(valid.error));
      }
      if !save {
        return Err(SaveFailed);
      }
      if clear {
        file := None;
      }
      var applied := ApplySchedule(s, now, env);
      r := if applied.Ok? then Ok(()) else Err(ApplyFailed);
    }
  }

  datatype SaveError = Invalid(bad: BadTime) | SaveFailed | ApplyFailed

  /** What pressing a button does, whatever fails. */
  function Pressed(g: Gate, block: bool, io: Io, list: bool, run: bool): (Gate, bool) {
    var g1 := g.(file := if io.Done? then Some(OverrideText(block)) else io.leaves);
    if io.Failed? then (g1, false) else if block then Block(g1, list, run) else Unblock(g1, list, run)
  }

  // -------------------------------------------------- every run

  /** Requests and ticks, each of them undisturbed and with commands that work. */
  datatype Event =
    | Press(block: bool)  // the block or the unblock button
    | Save(wish: bool)    // a schedule is saved; its wish at that moment
    | Tick(wish: bool)    // the periodic check; the schedule's wish at that moment

  function Step(g: Gate, e: Event): Gate {
    match e
    case Press(block) =>
      var g1 := g.(file := Some(OverrideText(block)));
      if block then Block(g1, true, true).0 else Unblock(g1, true, true).0
    case Save(wish) => Apply(ClearOverride(g, true), wish, ALL_WORKS).0
    case Tick(wish) => Apply(g, wish, ALL_WORKS).0
  }

  function Run(g: Gate, es: seq<Event>): Gate
    decreases |es|
  {
    if es == [] then g else Run(Step(g, es[0]), es[1..])
  }

  /** What a user expects: the button decides until the schedule agrees with it. */
  datatype Mode = Follow(wish: bool) | Forced(block: bool)

  function NextMode(m: Mode, e: Event): Mode {
    match e
    case Press(block) => Forced(block)
    case Save(wish) => Follow(wish)
    case Tick(wish) => if m.Forced? && m.block != wish then m else Follow(wish)
  }

  function RunMode(m: Mode, es: seq<Event>): Mode
    decreases |es|
  {
    if es == [] then m else RunMode(NextMode(m, es[0]), es[1..])
  }

  /** The chain and the file show the mode: one rule or none, and a file exactly while a button decides. */
  predicate Shows(g: Gate, m: Mode) {
    match m
    case Follow(wish) => g == Gate(None, if wish then 1 else 0)
    case Forced(block) => g == Gate(Some(OverrideText(block)), if block then 1 else 0)
  }

  lemma OverrideReadsBack(block: bool)
    ensures OverrideOf(Some(OverrideText(block))) == Some(block)
  {
    TrimTrimmed(OverrideText(block));
    assert "1"[0] != "0"[0];
  }

  lemma StepShows(g: Gate, m: Mode, e: Event)
    requires Shows(g, m)
    ensures Shows(Step(g, e), NextMode(m, e))
  {
    OverrideReadsBack(true);
    OverrideReadsBack(false);
  }

  /** In every run the chain and the file are what the expected mode says. */
  lemma {:induction false} RunShows(g: Gate, m: Mode, es: seq<Event>)
    requires Shows(g, m)
    ensures Shows(Run(g, es), RunMode(m, es))
    decreases |es|
  {
    if es != [] {
      StepShows(g, m, es[0]);
      RunShows(Step(g, es[0]), NextMode(m, es[0]), es[1..]);
    }
  }

  /** Pressing a button shows it at once, whatever override and up to one rule there were before. */
  lemma PressShows(g: Gate, block: bool)
    requires g.drops <= 1
    ensures Shows(Step(g, Press(block)), Forced(block))
  {
  }

  function Ticks(wishes: seq<bool>): (r: seq<Event>)
    ensures |r| == |wishes| && forall i | 0 <= i < |r| :: r[i] == Tick(wishes[i])
  {
    seq(|wishes|, i requires 0 <= i < |wishes| => Tick(wishes[i]))
  }

  /** The first tick at which the schedule itself wants `block`, or their number. */
  function FirstAgreement(wishes: seq<bool>, block: bool): (n: nat)
    ensures n <= |wishes| && (n < |wishes| ==> wishes[n] == block)
    ensures forall i | 0 <= i < n :: wishes[i] != block
  {
    if wishes == [] || wishes[0] == block then 0 else 1 + FirstAgreement(wishes[1..], block)
  }

  lemma {:induction false} ModeAfterTicks(m: Mode, wishes: seq<bool>)
    requires wishes != []
    ensures var last := wishes[|wishes| - 1];
            RunMode(m, Ticks(wishes))
            == if m.Forced? && FirstAgreement(wishes, m.block) == |wishes| then m else Follow(last)
    decreases |wishes|
  {
    var m' := NextMode(m, Tick(wishes[0]));
    assert Ticks(wishes)[1..] == Ticks(wishes[1..]);
    if |wishes| > 1 {
      ModeAfterTicks(m', wishes[1..]);
    } else {
      assert RunMode(m', []) == m';
    }
  }

  /**
   * After a button is pressed and `i` ticks: before the first tick `n` at which
   * the schedule wants the same, the chain is in the pressed state and the file is
   * there; from `n` on the chain follows the schedule and the file is gone.
   */
  lemma OverrideHoldsUntilAgreement(g: Gate, block: bool, wishes: seq<bool>, i: nat)
    requires g.drops <= 1 && i < |wishes|
    ensures var n := FirstAgreement(wishes, block);
            var g' := Run(Step(g, Press(block)), Ticks(wishes[..i + 1]));
            && (Blocked(g') <==> if i < n then block else wishes[i])
            && (g'.file.Some? <==> i < n)
            && g'.drops <= 1
  {
    var seen := wishes[..i + 1];
    PressShows(g, block);
    RunShows(Step(g, Press(block)), Forced(block), Ticks(seen));
    ModeAfterTicks(Forced(block), seen);
    AgreementOfPrefix(wishes, block, i + 1);
  }

  lemma {:induction false} AgreementOfPrefix(wishes: seq<bool>, block: bool, k: nat)
    requires k <= |wishes|
    ensures FirstAgreement(wishes[..k], block)
            == if FirstAgreement(wishes, block) < k then FirstAgreement(wishes, block) else k
  {
    var n, p := FirstAgreement(wishes, block), FirstAgreement(wishes[..k], block);
    assert p < k ==> wishes[p] == block;
    assert n < k ==> wishes[..k][n] == block;
  }

  // -------------------------------------------------- when commands fail

  /** If the chain can be listed there is never a second rule, whatever else fails. */
  lemma AtMostOneRule(g: Gate, wish: bool, env: Env)
    requires g.drops <= 1 && env.list && env.listAgain
    ensures Apply(g, wish, env).0.drops <= 1
    ensures Apply(g, wish, env).1.Ok? ==>
              (Apply(g, wish, env).1.value <==> Blocked(Apply(g, wish, env).0) != Blocked(g))
  {
  }

  /** A button adds a second rule exactly when it is the block button, its file is written and its one listing fails. */
  lemma PressSecondRuleIff(g: Gate, block: bool, io: Io, list: bool, run: bool)
    requires g.drops == 1
    ensures Pressed(g, block, io, list, run).0.drops == 2 <==> block && io.Done? && !list && run
  {
  }

  /** An application of the schedule adds a second rule exactly when the chain is blocked, should be, and cannot be listed either time. */
  lemma SecondRuleIff(g: Gate, wish: bool, env: Env)
    requires g.drops == 1
    ensures Apply(g, wish, env).0.drops == 2
            <==> !env.list && !env.listAgain && env.run
                 && (if OverrideOf(g.file).Some? then OverrideOf(g.file).value else wish)
  {
  }
}
