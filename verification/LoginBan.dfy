/** The per-address login ban: counting failures, and the order of check, verification and record in a login request. */
module LoginBan {
  import opened Results
  import opened TimeWindows

  type Ip = nat

  const MAX_ATTEMPTS: nat := 10
  const ATTEMPT_WINDOW: nat := 60 * SECOND
  const BAN_DURATION: nat := 300 * SECOND

  datatype Attempts = Attempts(count: nat, windowStart: nat, bannedUntil: Option<nat>)

  predicate Banned(s: Option<Attempts>, now: nat) {
    s.Some? && s.value.bannedUntil.Some? && s.value.bannedUntil.value > now
  }

  /** The state after a recorded failure. */
  function Fail(s: Option<Attempts>, now: nat): Attempts {
    var entry := if s.Some? then s.value else Attempts(0, now, None);
    var current := if Since(now, entry.windowStart) >= ATTEMPT_WINDOW then Attempts(0, now, entry.bannedUntil) else entry;
    if current.count + 1 >= MAX_ATTEMPTS then Attempts(0, now, Some(now + BAN_DURATION))
    else current.(count := current.count + 1)
  }

  function StateOf(m: map<Ip, Attempts>, ip: Ip): Option<Attempts> {
    if ip in m then Some(m[ip]) else None
  }

  class LoginAttempts {
    var states: map<Ip, Attempts>

    constructor ()
      ensures states == map[]
    {
      states := map[];
    }

    method IsBanned(ip: Ip, now: nat) returns (banned: bool)
      ensures banned == Banned(StateOf(states, ip), now)
    {
      banned := ip in states && states[ip].bannedUntil.Some? && states[ip].bannedUntil.value > now;
    }

    method RecordFailure(ip: Ip, now: nat)
      modifies this
      ensures states == old(states)[ip := Fail(StateOf(old(states), ip), now)]
    {
      var entry := if ip in states then states[ip] else Attempts(0, now, None);
      if Since(now, entry.windowStart) >= ATTEMPT_WINDOW {
        entry := entry.(count := 0, windowStart := now);
      }
      entry := entry.(count := entry.count + 1);
      if entry.count >= MAX_ATTEMPTS {
        entry := Attempts(0, now, Some(now + BAN_DURATION));
      }
      states := states[ip := entry];
    }

    method RecordSuccess(ip: Ip)
      modifies this
      ensures states == old(states) - {ip}
    {
      states := states - {ip};
    }

    /** `login_post`: check, verify, record; `good` is the verdict on the password. */
    method Login(ip: Ip, checkedAt: nat, good: bool, recordedAt: nat) returns (r: Reply)
      modifies this
      ensures (StateOf(states, ip), r) == Tried(StateOf(old(states), ip), Attempt(checkedAt, good, recordedAt))
      ensures forall other | other != ip :: StateOf(states, other) == StateOf(old(states), other)
    {
      var banned := IsBanned(ip, checkedAt);
      if banned {
        return Refused;
      }
      if good {
        RecordSuccess(ip);
        r := LoggedIn;
      } else {
        RecordFailure(ip, recordedAt);
        r := Failed;
      }
    }
  }

  // ------------------------------------------------------- requests one after the other

  datatype Attempt = Attempt(checkedAt: nat, good: bool, recordedAt: nat)

  datatype Reply = Refused | LoggedIn | Failed

  function Tried(s: Option<Attempts>, a: Attempt): (Option<Attempts>, Reply) {
    if Banned(s, a.checkedAt) then (s, Refused)
    else if a.good then (None, LoggedIn)
    else (Some(Fail(s, a.recordedAt)), Failed)
  }

  /** Time does not run backwards within a request or from one request to the next. */
  predicate InOrder(attempts: seq<Attempt>, now: nat)
    decreases |attempts|
  {
    attempts != [] ==>
      now <= attempts[0].checkedAt <= attempts[0].recordedAt && InOrder(attempts[1..], attempts[0].recordedAt)
  }

  /** Failures recorded in `[lo, hi)`. */
  function Failures(s: Option<Attempts>, attempts: seq<Attempt>, lo: nat, hi: nat): nat
    decreases |attempts|
  {
    if attempts == [] then 0
    else
      var (s', r) := Tried(s, attempts[0]);
      (if r.Failed? && Within(attempts[0].recordedAt, lo, hi) then 1 else 0) + Failures(s', attempts[1..], lo, hi)
  }

  /** No login succeeds in `[lo, hi)`. */
  predicate NoSuccess(s: Option<Attempts>, attempts: seq<Attempt>, lo: nat, hi: nat)
    decreases |attempts|
  {
    attempts != [] ==>
      var (s', r) := Tried(s, attempts[0]);
      !(r.LoggedIn? && Within(attempts[0].recordedAt, lo, hi)) && NoSuccess(s', attempts[1..], lo, hi)
  }

  /** States in which requests one after the other can leave an address. */
  predicate Serial(s: Option<Attempts>, now: nat) {
    s.Some? ==>
      var a := s.value;
      && a.count < MAX_ATTEMPTS && a.windowStart <= now
      && (a.count == 0 ==> a.bannedUntil == Some(a.windowStart + BAN_DURATION))
      && (a.count > 0 && a.bannedUntil.Some? ==> a.bannedUntil.value <= a.windowStart)
  }

  lemma TriedKeepsSerial(s: Option<Attempts>, a: Attempt, now: nat)
    requires Serial(s, now) && now <= a.checkedAt <= a.recordedAt
    ensures Serial(Tried(s, a).0, a.recordedAt)
  {
  }

  function Span(lo: int, hi: int): nat {
    Windows(hi - lo, ATTEMPT_WINDOW)
  }

  /** Nothing is recorded in the interval once it is over. */
  lemma {:induction false} NoFailuresAfter(s: Option<Attempts>, attempts: seq<Attempt>, now: nat, lo: nat, hi: nat)
    requires InOrder(attempts, now) && hi <= now
    ensures Failures(s, attempts, lo, hi) == 0
    decreases |attempts|
  {
    if attempts != [] {
      NoFailuresAfter(Tried(s, attempts[0]).0, attempts[1..], attempts[0].recordedAt, lo, hi);
    }
  }

  /** Failures still possible in the interval when the window began inside it and no ban runs. */
  function LeftInside(count: nat, windowStart: nat, hi: nat): int {
    9 * Span(windowStart, hi) + 1 - count
  }

  lemma FreshWindowLeft(count: nat, windowStart: nat, t: nat, hi: nat)
    requires count <= 9 && windowStart + ATTEMPT_WINDOW <= t < hi
    ensures 1 + LeftInside(1, t, hi) <= LeftInside(count, windowStart, hi)
  {
    NextWindow(hi - t, hi - windowStart, ATTEMPT_WINDOW);
  }

  /** While a ban runs nothing is recorded; afterwards a new window begins. */
  lemma {:induction false} LeftAfterBan(s: Attempts, attempts: seq<Attempt>, now: nat, lo: nat, hi: nat)
    requires Serial(Some(s), now) && s.count == 0 && InOrder(attempts, now)
    requires NoSuccess(Some(s), attempts, lo, hi) && lo <= s.windowStart < hi
    ensures Failures(Some(s), attempts, lo, hi) <= LeftInside(9, s.windowStart, hi) - 1
    decreases |attempts|, 0
  {
    assert Span(s.windowStart, hi) >= 1;
    if attempts != [] {
      var a := attempts[0];
      var s' := Tried(Some(s), a).0;
      if Banned(Some(s), a.checkedAt) {
        LeftAfterBan(s, attempts[1..], a.recordedAt, lo, hi);
      } else if a.recordedAt >= hi {
        NoFailuresAfter(s', attempts[1..], a.recordedAt, lo, hi);
      } else {
        assert !a.good;
        LeftFromInside(s'.value, attempts[1..], a.recordedAt, lo, hi);
        BanIsLong(s.windowStart, a.recordedAt, hi);
      }
    }
  }

  /** A ban takes longer than two windows. */
  lemma BanIsLong(windowStart: nat, t: nat, hi: nat)
    requires windowStart + BAN_DURATION <= t < hi
    ensures 1 + LeftInside(1, t, hi) <= LeftInside(9, windowStart, hi) - 1
  {
    FreshWindowLeft(9, t - ATTEMPT_WINDOW, t, hi);
    FreshWindowLeft(9, t - 2 * ATTEMPT_WINDOW, t - ATTEMPT_WINDOW, hi);
    WindowsMonotone(hi - (t - 2 * ATTEMPT_WINDOW), hi - windowStart, ATTEMPT_WINDOW);
  }

  lemma {:induction false} LeftFromInside(s: Attempts, attempts: seq<Attempt>, now: nat, lo: nat, hi: nat)
    requires Serial(Some(s), now) && s.count > 0 && InOrder(attempts, now)
    requires NoSuccess(Some(s), attempts, lo, hi) && lo <= s.windowStart < hi
    ensures Failures(Some(s), attempts, lo, hi) <= LeftInside(s.count, s.windowStart, hi)
    decreases |attempts|, 1
  {
    assert Span(s.windowStart, hi) >= 1;
    if attempts != [] {
      var a := attempts[0];
      var s' := Tried(Some(s), a).0;
      TriedKeepsSerial(Some(s), a, now);
      if a.recordedAt >= hi {
        NoFailuresAfter(s', attempts[1..], a.recordedAt, lo, hi);
      } else {
        assert !a.good;
        if s'.value.count == 0 {
          LeftAfterBan(s'.value, attempts[1..], a.recordedAt, lo, hi);
          WindowsMonotone(hi - a.recordedAt, hi - s.windowStart, ATTEMPT_WINDOW);
        } else {
          LeftFromInside(s'.value, attempts[1..], a.recordedAt, lo, hi);
          if a.recordedAt - s.windowStart >= ATTEMPT_WINDOW {
            FreshWindowLeft(s.count, s.windowStart, a.recordedAt, hi);
          }
        }
      }
    }
  }

  /** Failures still possible when the window began before the interval. */
  lemma {:induction false} LeftFromBefore(s: Option<Attempts>, attempts: seq<Attempt>, now: nat, lo: nat, hi: nat)
    requires Serial(s, now) && InOrder(attempts, now) && NoSuccess(s, attempts, lo, hi) && lo < hi
    requires s.Some? ==> s.value.windowStart < lo
    ensures Failures(s, attempts, lo, hi)
            <= 9 * Span(lo, hi) + (if s.Some? && s.value.count > 0 && now >= lo then 10 - s.value.count else 9)
    decreases |attempts|
  {
    assert Span(lo, hi) >= 1;
    if attempts != [] {
      var a := attempts[0];
      var s' := Tried(s, a).0;
      TriedKeepsSerial(s, a, now);
      if a.recordedAt >= hi {
        NoFailuresAfter(s', attempts[1..], a.recordedAt, lo, hi);
      } else if s'.None? || s'.value.windowStart < lo {
        LeftFromBefore(s', attempts[1..], a.recordedAt, lo, hi);
      } else {
        WindowsMonotone(hi - s'.value.windowStart, hi - lo, ATTEMPT_WINDOW);
        if s'.value.count == 0 {
          LeftAfterBan(s'.value, attempts[1..], a.recordedAt, lo, hi);
        } else {
          LeftFromInside(s'.value, attempts[1..], a.recordedAt, lo, hi);
        }
      }
    }
  }

  /**
   * With check, verification and record of one address not interleaved: an
   * interval without a successful login records at most 9 failures for every
   * window it spans and 9 more.
   */
  lemma FailureBound(attempts: seq<Attempt>, lo: nat, hi: nat)
    requires InOrder(attempts, 0) && NoSuccess(None, attempts, lo, hi) && lo < hi
    ensures Failures(None, attempts, lo, hi) <= 9 * (Span(lo, hi) + 1)
  {
    LeftFromBefore(None, attempts, 0, lo, hi);
  }

  /** In particular at most 18 in a minute. */
  lemma MinuteBound(attempts: seq<Attempt>, lo: nat)
    requires InOrder(attempts, 0) && NoSuccess(None, attempts, lo, lo + ATTEMPT_WINDOW)
    ensures Failures(None, attempts, lo, lo + ATTEMPT_WINDOW) <= 18
  {
    FailureBound(attempts, lo, lo + ATTEMPT_WINDOW);
    assert Windows(ATTEMPT_WINDOW, ATTEMPT_WINDOW) == 1 + Windows(0, ATTEMPT_WINDOW);
  }

  // ------------------------------------------------------- the bound is attained

  function Guesses(t: nat, n: nat): (r: seq<Attempt>)
    ensures |r| == n && forall i | 0 <= i < n :: r[i] == Attempt(t, false, t)
  {
    seq(n, _ => Attempt(t, false, t))
  }

  /** Windows with nine failures each, and the ban at the end of the last one. */
  function BusyWindows(t: nat, k: nat): seq<Attempt>
    requires k >= 1
    decreases k
  {
    if k == 1 then Guesses(t, 10) else Guesses(t, 9) + BusyWindows(t + ATTEMPT_WINDOW, k - 1)
  }

  function Worst(k: nat): seq<Attempt>
    requires k >= 1
  {
    Guesses(0, 1) + (Guesses(ATTEMPT_WINDOW - 1, 8) + BusyWindows(ATTEMPT_WINDOW, k))
  }

  lemma {:induction false} GuessesInOrder(t: nat, n: nat, rest: seq<Attempt>, now: nat)
    requires now <= t && InOrder(rest, t) && n > 0
    ensures InOrder(Guesses(t, n) + rest, now)
    decreases n
  {
    assert (Guesses(t, n) + rest)[1..] == Guesses(t, n - 1) + rest;
    if n == 1 {
      assert Guesses(t, 0) + rest == rest;
    } else {
      GuessesInOrder(t, n - 1, rest, t);
    }
  }

  lemma {:induction false} InOrderEarlier(attempts: seq<Attempt>, now: nat, before: nat)
    requires InOrder(attempts, now) && before <= now
    ensures InOrder(attempts, before)
  {
  }

  lemma {:induction false} BusyInOrder(t: nat, k: nat)
    requires k >= 1
    ensures InOrder(BusyWindows(t, k), t)
    decreases k
  {
    if k == 1 {
      assert Guesses(t, 10) + [] == Guesses(t, 10);
      GuessesInOrder(t, 10, [], t);
    } else {
      BusyInOrder(t + ATTEMPT_WINDOW, k - 1);
      InOrderEarlier(BusyWindows(t + ATTEMPT_WINDOW, k - 1), t + ATTEMPT_WINDOW, t);
      GuessesInOrder(t, 9, BusyWindows(t + ATTEMPT_WINDOW, k - 1), t);
    }
  }

  /** Guesses that stay below the limit of the current window are all recorded. */
  lemma {:induction false} GuessesFail(s: Attempts, t: nat, n: nat, rest: seq<Attempt>, lo: nat, hi: nat)
    requires s.bannedUntil.None? && 0 <= t - s.windowStart < ATTEMPT_WINDOW && s.count + n < MAX_ATTEMPTS && Within(t, lo, hi)
    ensures Failures(Some(s), Guesses(t, n) + rest, lo, hi)
            == n + Failures(Some(s.(count := s.count + n)), rest, lo, hi)
    decreases n
  {
    if n == 0 {
      assert Guesses(t, 0) + rest == rest;
    } else {
      assert (Guesses(t, n) + rest)[1..] == Guesses(t, n - 1) + rest;
      GuessesFail(s.(count := s.count + 1), t, n - 1, rest, lo, hi);
    }
  }

  lemma {:induction false} BusyFail(s: Attempts, t: nat, k: nat, lo: nat, hi: nat)
    requires k >= 1 && s.bannedUntil.None? && t - s.windowStart >= ATTEMPT_WINDOW
    requires lo <= t && t + (k - 1) * ATTEMPT_WINDOW < hi
    ensures Failures(Some(s), BusyWindows(t, k), lo, hi) == 9 * k + 1
    decreases k
  {
    assert (k - 1) * ATTEMPT_WINDOW >= 0;
    var first := Attempts(1, t, None);
    if k == 1 {
      assert BusyWindows(t, 1)[1..] == Guesses(t, 8) + Guesses(t, 1);
      GuessesFail(first, t, 8, Guesses(t, 1), lo, hi);
      assert Guesses(t, 1)[1..] == [];
    } else {
      var rest := BusyWindows(t + ATTEMPT_WINDOW, k - 1);
      assert BusyWindows(t, k)[1..] == Guesses(t, 8) + rest;
      GuessesFail(first, t, 8, rest, lo, hi);
      assert t + ATTEMPT_WINDOW + (k - 2) * ATTEMPT_WINDOW == t + (k - 1) * ATTEMPT_WINDOW;
      BusyFail(Attempts(9, t, None), t + ATTEMPT_WINDOW, k - 1, lo, hi);
    }
  }

  lemma {:induction false} AllBad(k: nat, t: nat)
    requires k >= 1
    ensures forall a | a in BusyWindows(t, k) :: !a.good
    decreases k
  {
    if k > 1 {
      AllBad(k - 1, t + ATTEMPT_WINDOW);
    }
  }

  /** For every number of whole windows the bound is attained by an address that never logs in. */
  lemma BoundIsTight(k: nat)
    requires k >= 1
    ensures InOrder(Worst(k), 0) && (forall a | a in Worst(k) :: !a.good)
    ensures Span(ATTEMPT_WINDOW - 1, ATTEMPT_WINDOW - 1 + k * ATTEMPT_WINDOW) == k
    ensures Failures(None, Worst(k), ATTEMPT_WINDOW - 1, ATTEMPT_WINDOW - 1 + k * ATTEMPT_WINDOW) == 9 * (k + 1)
  {
    var lo, hi := ATTEMPT_WINDOW - 1, ATTEMPT_WINDOW - 1 + k * ATTEMPT_WINDOW;
    var busy := BusyWindows(ATTEMPT_WINDOW, k);
    WholeWindows(k, ATTEMPT_WINDOW);
    AllBad(k, ATTEMPT_WINDOW);
    BusyInOrder(ATTEMPT_WINDOW, k);
    InOrderEarlier(busy, ATTEMPT_WINDOW, lo);
    GuessesInOrder(lo, 8, busy, 0);
    GuessesInOrder(0, 1, Guesses(lo, 8) + busy, 0);
    assert Worst(k)[1..] == Guesses(lo, 8) + busy;
    assert ATTEMPT_WINDOW + (k - 1) * ATTEMPT_WINDOW == k * ATTEMPT_WINDOW;
    GuessesFail(Attempts(1, 0, None), lo, 8, busy, lo, hi);
    BusyFail(Attempts(9, 0, None), ATTEMPT_WINDOW, k, lo, hi);
  }

  // ------------------------------------------------------- a ban locks out

  function Replies(s: Option<Attempts>, attempts: seq<Attempt>): seq<Reply>
    decreases |attempts|
  {
    if attempts == [] then []
    else [Tried(s, attempts[0]).1] + Replies(Tried(s, attempts[0]).0, attempts[1..])
  }

  /** From the failure that bans, no attempt checked within 300 seconds reaches the verification. */
  lemma {:induction false} BanLasts(s: Attempts, bannedAt: nat, attempts: seq<Attempt>)
    requires s.bannedUntil == Some(bannedAt + BAN_DURATION)
    requires forall a | a in attempts :: a.checkedAt < bannedAt + BAN_DURATION
    ensures forall r | r in Replies(Some(s), attempts) :: r == Refused
    decreases |attempts|
  {
    if attempts != [] {
      assert attempts[0] in attempts;
      BanLasts(s, bannedAt, attempts[1..]);
    }
  }

  // ------------------------------------------------------- interleaved requests

  type RequestId = nat

  datatype Event = Check(id: RequestId, at: nat) | Failure(id: RequestId, at: nat) | Success(id: RequestId, at: nat)

  /** The state of one address, and the requests that have passed the check and not yet recorded. */
  datatype Shared = Shared(state: Option<Attempts>, passed: set<RequestId>)

  function Step(w: Shared, e: Event): Option<Shared> {
    match e
    case Check(id, at) =>
      if id in w.passed then None
      else Some(if Banned(w.state, at) then w else w.(passed := w.passed + {id}))
    case Failure(id, at) =>
      if id !in w.passed then None else Some(Shared(Some(Fail(w.state, at)), w.passed - {id}))
    case Success(id, _) =>
      if id !in w.passed then None else Some(Shared(None, w.passed - {id}))
  }

  function Run(w: Shared, es: seq<Event>): Option<Shared>
    decreases |es|
  {
    if es == [] then Some(w)
    else match Step(w, es[0]) case Some(w') => Run(w', es[1..]) case None => None
  }

  /** Further failures never move the end of a ban forward in time, and until then no check passes. */
  lemma {:induction false} BanHolds(w: Shared, es: seq<Event>, w': Shared, now: nat, until: nat)
    requires Run(w, es) == Some(w') && forall e | e in es :: now <= e.at && !e.Success?
    requires w.state.Some? && w.state.value.bannedUntil == Some(until) && until <= now + BAN_DURATION
    ensures w'.state.Some? && w'.state.value.bannedUntil.Some? && until <= w'.state.value.bannedUntil.value
    ensures (forall e | e in es :: e.at < until) ==> w'.passed <= w.passed
    decreases |es|
  {
    if es != [] {
      var e := es[0];
      assert e in es;
      var m := Step(w, e).value;
      var until' := m.state.value.bannedUntil.value;
      assert until' == until || until' == e.at + BAN_DURATION;
      BanHoldsFrom(m, es[1..], w', now, until, until');
    }
  }

  lemma {:induction false} BanHoldsFrom(w: Shared, es: seq<Event>, w': Shared, now: nat, until: nat, current: nat)
    requires Run(w, es) == Some(w') && forall e | e in es :: now <= e.at && !e.Success?
    requires w.state.Some? && w.state.value.bannedUntil == Some(current) && until <= current && until <= now + BAN_DURATION
    ensures w'.state.Some? && w'.state.value.bannedUntil.Some? && until <= w'.state.value.bannedUntil.value
    ensures (forall e | e in es :: e.at < until) ==> w'.passed <= w.passed
    decreases |es|
  {
    if es != [] {
      var e := es[0];
      assert e in es;
      var m := Step(w, e).value;
      BanHoldsFrom(m, es[1..], w', now, until, m.state.value.bannedUntil.value);
    }
  }

  /** A login that had passed its check before the ban lifts it when it succeeds. */
  lemma SuccessLiftsBan(w: Shared, id: RequestId, other: RequestId, at: nat)
    requires id in w.passed && other !in w.passed && Banned(w.state, at)
    ensures Run(w, [Check(other, at)]) == Some(w)
    ensures Run(w, [Success(id, at), Check(other, at)]) == Some(Shared(None, w.passed - {id} + {other}))
  {
    var cleared := Shared(None, w.passed - {id});
    assert [Success(id, at), Check(other, at)][1..] == [Check(other, at)];
    assert [Check(other, at)][1..] == [];
    assert Run(cleared, [Check(other, at)]) == Run(Shared(None, w.passed - {id} + {other}), []);
  }

  function Checks(n: nat, at: nat): (r: seq<Event>)
    ensures |r| == n
  {
    if n == 0 then [] else Checks(n - 1, at) + [Check(n - 1, at)]
  }

  function Fails(n: nat, at: nat): (r: seq<Event>)
    ensures |r| == n && forall e | e in r :: e.Failure? && e.at == at
  {
    if n == 0 then [] else [Failure(n - 1, at)] + Fails(n - 1, at)
  }

  lemma {:induction false} RunSplit(w: Shared, a: seq<Event>, b: seq<Event>)
    ensures Run(w, a + b) == match Run(w, a) case Some(m) => Run(m, b) case None => None
    decreases |a|
  {
    if a == [] {
      assert a + b == b;
    } else {
      assert (a + b)[1..] == a[1..] + b;
      if Step(w, a[0]).Some? {
        RunSplit(Step(w, a[0]).value, a[1..], b);
      }
    }
  }

  function Below(n: nat): set<nat> {
    if n == 0 then {} else Below(n - 1) + {n - 1}
  }

  lemma {:induction false} BelowIs(n: nat, i: nat)
    ensures i in Below(n) <==> i < n
  {
    if n > 0 {
      BelowIs(n - 1, i);
    }
  }

  lemma {:induction false} ChecksPass(s: Option<Attempts>, n: nat, at: nat)
    requires !Banned(s, at)
    ensures Run(Shared(s, {}), Checks(n, at)) == Some(Shared(s, Below(n)))
  {
    if n > 0 {
      ChecksPass(s, n - 1, at);
      RunSplit(Shared(s, {}), Checks(n - 1, at), [Check(n - 1, at)]);
      BelowIs(n - 1, n - 1);
      var w := Shared(s, Below(n - 1));
      assert Step(w, Check(n - 1, at)) == Some(Shared(s, Below(n)));
      assert [Check(n - 1, at)][1..] == [];
      assert Run(w, [Check(n - 1, at)]) == Run(Shared(s, Below(n)), []);
    }
  }

  lemma {:induction false} FailsRun(s: Option<Attempts>, n: nat, at: nat)
    ensures Run(Shared(s, Below(n)), Fails(n, at)).Some?
    decreases n
  {
    if n > 0 {
      BelowIs(n - 1, n - 1);
      assert Below(n) - {n - 1} == Below(n - 1);
      assert Fails(n, at)[1..] == Fails(n - 1, at);
      FailsRun(Some(Fail(s, at)), n - 1, at);
    }
  }

  /** Without the atomicity there is no bound: any number of requests can pass the check before the first failure is recorded. */
  lemma InterleavedHasNoBound(n: nat)
    ensures Run(Shared(None, {}), Checks(n, 0) + Fails(n, 0)).Some?
    ensures |Fails(n, 0)| == n && forall e | e in Fails(n, 0) :: e.Failure? && e.at == 0
  {
    ChecksPass(None, n, 0);
    RunSplit(Shared(None, {}), Checks(n, 0), Fails(n, 0));
    FailsRun(None, n, 0);
  }

  // ------------------------------------------------------- a bound on requests in flight

  predicate Ordered(es: seq<Event>, now: nat)
    decreases |es|
  {
    es != [] ==> now <= es[0].at && Ordered(es[1..], es[0].at)
  }

  /** Failures recorded in `[lo, hi)`. */
  function FailuresIn(es: seq<Event>, lo: nat, hi: nat): nat {
    if es == [] then 0 else (if es[0].Failure? && Within(es[0].at, lo, hi) then 1 else 0) + FailuresIn(es[1..], lo, hi)
  }

  predicate NoSuccessIn(es: seq<Event>, lo: nat, hi: nat) {
    forall e | e in es :: !(e.Success? && Within(e.at, lo, hi))
  }

  /** Never more than `c` requests at once between check and record. */
  ghost predicate AtMostPassed(w: Shared, es: seq<Event>, c: nat)
    decreases |es|
  {
    |w.passed| <= c && (es != [] && Step(w, es[0]).Some? ==> AtMostPassed(Step(w, es[0]).value, es[1..], c))
  }

  lemma {:induction false} NothingAfter(es: seq<Event>, now: nat, lo: nat, hi: nat)
    requires Ordered(es, now) && hi <= now
    ensures FailuresIn(es, lo, hi) == 0
    decreases |es|
  {
    if es != [] {
      NothingAfter(es[1..], es[0].at, lo, hi);
    }
  }

  /** Once a ban runs to the end of the interval, only the requests in flight can still fail in it. */
  lemma {:induction false} OnlyInFlight(w: Shared, es: seq<Event>, now: nat, lo: nat, hi: nat)
    requires Run(w, es).Some? && Ordered(es, now) && NoSuccessIn(es, lo, hi) && lo <= now && hi <= lo + BAN_DURATION
    requires w.state.Some? && w.state.value.bannedUntil.Some? && hi <= w.state.value.bannedUntil.value
    ensures FailuresIn(es, lo, hi) <= |w.passed|
    decreases |es|
  {
    if es != [] {
      var e, w' := es[0], Step(w, es[0]).value;
      assert e in es;
      if e.at >= hi {
        NothingAfter(es[1..], e.at, lo, hi);
      } else {
        assert NoSuccessIn(es[1..], lo, hi);
        OnlyInFlight(w', es[1..], e.at, lo, hi);
      }
    }
  }

  lemma {:induction false} FailuresSplit(es: seq<Event>, lo: nat, mid: nat, hi: nat)
    requires lo <= mid <= hi
    ensures FailuresIn(es, lo, hi) == FailuresIn(es, lo, mid) + FailuresIn(es, mid, hi)
  {
    if es != [] {
      FailuresSplit(es[1..], lo, mid, hi);
    }
  }

  lemma {:induction false} FailuresFrom(es: seq<Event>, now: nat, lo: nat, hi: nat)
    requires Ordered(es, now) && lo <= now
    ensures FailuresIn(es, lo, hi) == FailuresIn(es, now, hi)
    decreases |es|
  {
    if es != [] {
      FailuresFrom(es[1..], es[0].at, lo, hi);
      FailuresFrom(es[1..], es[0].at, now, hi);
    }
  }

  /** What a further ban in the interval can add: it lets `c` more through and costs 27 that five windows would have allowed. */
  function Gain(c: nat): nat {
    if c <= 27 then 0 else c - 27
  }

  /** Failures beyond those that windows allow, in an interval of this length. */
  function Extra(c: nat, length: int): int {
    c + Gain(c) * (Windows(length, BAN_DURATION) - 1)
  }

  lemma ExtraMonotone(c: nat, d: int, e: int)
    requires 0 < d <= e
    ensures c <= Extra(c, d) <= Extra(c, e)
  {
    WindowsMonotone(d, e, BAN_DURATION);
    MulMonotone(Gain(c), Windows(d, BAN_DURATION) - 1, Windows(e, BAN_DURATION) - 1);
    MulMonotone(Gain(c), 0, Windows(d, BAN_DURATION) - 1);
  }

  lemma MulMonotone(g: nat, a: int, b: int)
    requires a <= b
    ensures g * a <= g * b
  {
  }

  lemma ExtraNext(c: nat, d: int)
    requires d > BAN_DURATION
    ensures Extra(c, d) == Extra(c, d - BAN_DURATION) + Gain(c)
  {
    var n := Windows(d - BAN_DURATION, BAN_DURATION);
    assert Windows(d, BAN_DURATION) == n + 1;
    assert Gain(c) * n == Gain(c) * (n - 1) + Gain(c);
  }

  /** A ban takes five windows. */
  lemma BanSpan(b: nat, hi: nat)
    requires b + BAN_DURATION < hi
    ensures Span(b, hi) == Span(b + BAN_DURATION, hi) + 5
  {
    var w := ATTEMPT_WINDOW;
    assert Windows(hi - b, w) == 1 + Windows(hi - b - w, w);
    assert Windows(hi - b - w, w) == 1 + Windows(hi - b - 2 * w, w);
    assert Windows(hi - b - 2 * w, w) == 1 + Windows(hi - b - 3 * w, w);
    assert Windows(hi - b - 3 * w, w) == 1 + Windows(hi - b - 4 * w, w);
    assert Windows(hi - b - 4 * w, w) == 1 + Windows(hi - b - 5 * w, w);
  }

  /** After a ban: the requests in flight, and what is possible once it is over. */
  lemma {:induction false} InFlightBanned(w: Shared, es: seq<Event>, b: nat, lo: nat, hi: nat, c: nat)
    requires Run(w, es).Some? && Ordered(es, b) && NoSuccessIn(es, lo, hi) && AtMostPassed(w, es, c) && |w.passed| < c
    requires w.state == Some(Attempts(0, b, Some(b + BAN_DURATION))) && lo <= b < hi
    ensures FailuresIn(es, lo, hi) <= 9 * Span(b, hi) - 9 + Extra(c, hi - b) - 1
    decreases |es|, 3
  {
    var mid := b + BAN_DURATION;
    assert Span(b, hi) >= 1;
    FailuresFrom(es, b, lo, hi);
    assert NoSuccessIn(es, b, hi);
    if hi <= mid {
      OnlyInFlight(w, es, b, b, hi);
      ExtraMonotone(c, hi - b, hi - b);
    } else {
      FailuresSplit(es, b, mid, hi);
      assert NoSuccessIn(es, b, mid) && NoSuccessIn(es, mid, hi);
      OnlyInFlight(w, es, b, b, mid);
      InFlightBefore(w, es, b, mid, hi, c);
      BanSpan(b, hi);
      ExtraNext(c, hi - b);
    }
  }

  /** From a window that began in the interval. */
  lemma {:induction false} InFlightInside(w: Shared, es: seq<Event>, now: nat, lo: nat, hi: nat, c: nat)
    requires Run(w, es).Some? && Ordered(es, now) && NoSuccessIn(es, lo, hi) && AtMostPassed(w, es, c) && c >= 1
    requires w.state.Some? && w.state.value.count < MAX_ATTEMPTS && lo <= w.state.value.windowStart <= now
    requires w.state.value.windowStart < hi
    ensures FailuresIn(es, lo, hi)
            <= LeftInside(w.state.value.count, w.state.value.windowStart, hi) + Extra(c, hi - w.state.value.windowStart) - 1
    decreases |es|, 1
  {
    var s := w.state.value;
    assert Span(s.windowStart, hi) >= 1;
    ExtraMonotone(c, hi - s.windowStart, hi - s.windowStart);
    if es != [] {
      var e, w' := es[0], Step(w, es[0]).value;
      assert e in es && NoSuccessIn(es[1..], lo, hi);
      if e.at >= hi {
        NothingAfter(es[1..], e.at, lo, hi);
      } else if e.Failure? {
        FailureInside(w', es, e, s, lo, hi, c);
      } else {
        InFlightInside(w', es[1..], e.at, lo, hi, c);
      }
    }
  }

  lemma {:induction false} FailureInside(w': Shared, es: seq<Event>, e: Event, s: Attempts, lo: nat, hi: nat, c: nat)
    requires es != [] && e == es[0] && e.Failure? && s.windowStart <= e.at < hi && w'.state == Some(Fail(Some(s), e.at))
    requires s.count < MAX_ATTEMPTS && lo <= s.windowStart
    requires Run(w', es[1..]).Some? && Ordered(es[1..], e.at) && NoSuccessIn(es[1..], lo, hi) && AtMostPassed(w', es[1..], c) && c >= 1
    requires |w'.passed| < c
    ensures FailuresIn(es, lo, hi) <= LeftInside(s.count, s.windowStart, hi) + Extra(c, hi - s.windowStart) - 1
    decreases |es|, 0
  {
    var f := w'.state.value;
    FailShape(Some(s), e.at);
    ExtraMonotone(c, hi - e.at, hi - s.windowStart);
    if f.count == 0 {
      WindowsMonotone(hi - e.at, hi - s.windowStart, ATTEMPT_WINDOW);
      InFlightBanned(w', es[1..], e.at, lo, hi, c);
    } else if e.at - s.windowStart >= ATTEMPT_WINDOW {
      assert f.windowStart == e.at && f.count == 1;
      InFlightInside(w', es[1..], e.at, lo, hi, c);
      FreshWindowLeft(s.count, s.windowStart, e.at, hi);
    } else {
      assert f == s.(count := s.count + 1);
      InFlightInside(w', es[1..], e.at, lo, hi, c);
    }
  }

  /** The three things a failure can do to the window. */
  lemma FailShape(s: Option<Attempts>, t: nat)
    requires s.Some? ==> s.value.count < MAX_ATTEMPTS && s.value.windowStart <= t
    ensures var f := Fail(s, t);
            || f == Attempts(0, t, Some(t + BAN_DURATION))
            || (f.count == 1 && f.windowStart == t)
            || (s.Some? && f == s.value.(count := s.value.count + 1) && f.count < MAX_ATTEMPTS)
  {
  }

  function BeforeLeft(s: Option<Attempts>, now: nat, lo: nat, hi: nat): int {
    9 * Span(lo, hi) + (if s.Some? && now >= lo then 10 - s.value.count else 10)
  }

  lemma {:induction false} InFlightBefore(w: Shared, es: seq<Event>, now: nat, lo: nat, hi: nat, c: nat)
    requires Run(w, es).Some? && Ordered(es, now) && NoSuccessIn(es, lo, hi) && AtMostPassed(w, es, c) && c >= 1
    requires w.state.Some? ==> w.state.value.count < MAX_ATTEMPTS && w.state.value.windowStart < lo && w.state.value.windowStart <= now
    requires lo < hi
    ensures FailuresIn(es, lo, hi) <= BeforeLeft(w.state, now, lo, hi) + Extra(c, hi - lo) - 1
    decreases |es|, 2
  {
    assert Span(lo, hi) >= 1;
    ExtraMonotone(c, hi - lo, hi - lo);
    if es != [] {
      var e, w' := es[0], Step(w, es[0]).value;
      assert e in es && NoSuccessIn(es[1..], lo, hi);
      if e.at >= hi {
        NothingAfter(es[1..], e.at, lo, hi);
      } else if !e.Failure? {
        InFlightBefore(w', es[1..], e.at, lo, hi, c);
      } else {
        FailureBefore(w', es, e, now, w.state, lo, hi, c);
      }
    }
  }

  lemma {:induction false} FailureBefore(w': Shared, es: seq<Event>, e: Event, now: nat, s: Option<Attempts>, lo: nat, hi: nat, c: nat)
    requires es != [] && e == es[0] && e.Failure? && now <= e.at < hi && w'.state == Some(Fail(s, e.at))
    requires s.Some? ==> s.value.count < MAX_ATTEMPTS && s.value.windowStart < lo && s.value.windowStart <= now
    requires Run(w', es[1..]).Some? && Ordered(es[1..], e.at) && NoSuccessIn(es[1..], lo, hi) && AtMostPassed(w', es[1..], c) && c >= 1
    requires lo < hi && |w'.passed| < c
    ensures FailuresIn(es, lo, hi) <= BeforeLeft(s, now, lo, hi) + Extra(c, hi - lo) - 1
    decreases |es|, 1
  {
    FailShape(s, e.at);
    if w'.state.value.windowStart < lo {
      assert Span(lo, hi) >= 1;
      InFlightBefore(w', es[1..], e.at, lo, hi, c);
    } else {
      FailureOpens(w', es, e, lo, hi, c);
    }
  }

  /** The first failure in the interval that opens a window or starts a ban. */
  lemma {:induction false} FailureOpens(w': Shared, es: seq<Event>, e: Event, lo: nat, hi: nat, c: nat)
    requires es != [] && e == es[0] && e.Failure? && lo <= e.at < hi && w'.state.Some? && w'.state.value.windowStart == e.at
    requires w'.state.value.count == 1 || w'.state.value == Attempts(0, e.at, Some(e.at + BAN_DURATION))
    requires Run(w', es[1..]).Some? && Ordered(es[1..], e.at) && NoSuccessIn(es[1..], lo, hi) && AtMostPassed(w', es[1..], c) && c >= 1
    requires |w'.passed| < c
    ensures FailuresIn(es, lo, hi) <= 9 * Span(lo, hi) + Extra(c, hi - lo)
    decreases |es|, 0
  {
    WindowsMonotone(hi - e.at, hi - lo, ATTEMPT_WINDOW);
    ExtraMonotone(c, hi - e.at, hi - lo);
    if w'.state.value.count == 0 {
      InFlightBanned(w', es[1..], e.at, lo, hi, c);
    } else {
      InFlightInside(w', es[1..], e.at, lo, hi, c);
    }
  }

  /**
   * With at most `c` requests at once between check and record, any interval
   * without a successful login records at most `c` failures more than 9 for each
   * window it spans and 9, and, if `c` is over 27, `c` - 27 more for each further
   * 300 seconds begun.
   */
  lemma InterleavedBound(es: seq<Event>, lo: nat, hi: nat, c: nat)
    requires Run(Shared(None, {}), es).Some? && Ordered(es, 0) && NoSuccessIn(es, lo, hi)
    requires AtMostPassed(Shared(None, {}), es, c) && c >= 1 && lo < hi
    ensures FailuresIn(es, lo, hi) <= 9 * (Span(lo, hi) + 1) + Extra(c, hi - lo)
  {
    InFlightBefore(Shared(None, {}), es, 0, lo, hi, c);
  }

  // ------------------------------------------------------- a crowd at the end of the last window

  /** The events can happen from here, in order, without a success in the interval and with at most `c` in flight. */
  ghost predicate Fine(w: Shared, es: seq<Event>, now: nat, lo: nat, hi: nat, c: nat) {
    Run(w, es).Some? && Ordered(es, now) && NoSuccessIn(es, lo, hi) && AtMostPassed(w, es, c)
  }

  lemma FineCons(w: Shared, e: Event, es: seq<Event>, w': Shared, now: nat, lo: nat, hi: nat, c: nat)
    requires Step(w, e) == Some(w') && |w.passed| <= c && now <= e.at && !e.Success? && Fine(w', es, e.at, lo, hi, c)
    ensures Fine(w, [e] + es, now, lo, hi, c)
    ensures FailuresIn([e] + es, lo, hi) == (if e.Failure? && Within(e.at, lo, hi) then 1 else 0) + FailuresIn(es, lo, hi)
  {
    assert ([e] + es)[1..] == es;
  }

  /** One request, checked and recorded. */
  function Try(t: nat): seq<Event> {
    [Check(0, t), Failure(0, t)]
  }

  function Tries(t: nat, n: nat): seq<Event> {
    if n == 0 then [] else Try(t) + Tries(t, n - 1)
  }

  lemma TryFine(s: Option<Attempts>, t: nat, rest: seq<Event>, now: nat, lo: nat, hi: nat, c: nat)
    requires !Banned(s, t) && now <= t && c >= 1 && Fine(Shared(Some(Fail(s, t)), {}), rest, t, lo, hi, c)
    ensures Fine(Shared(s, {}), Try(t) + rest, now, lo, hi, c)
    ensures FailuresIn(Try(t) + rest, lo, hi) == (if Within(t, lo, hi) then 1 else 0) + FailuresIn(rest, lo, hi)
  {
    var done := Shared(Some(Fail(s, t)), {});
    var passed := Shared(s, {0});
    assert {0} - {0} == {};
    FineCons(passed, Failure(0, t), rest, done, t, lo, hi, c);
    FineCons(Shared(s, {}), Check(0, t), [Failure(0, t)] + rest, passed, now, lo, hi, c);
    assert Try(t) + rest == [Check(0, t)] + ([Failure(0, t)] + rest);
  }

  /** Requests that stay below the limit of the current window. */
  lemma {:induction false} TriesFine(s: Attempts, t: nat, n: nat, rest: seq<Event>, now: nat, lo: nat, hi: nat, c: nat)
    requires !Banned(Some(s), t) && 0 <= t - s.windowStart < ATTEMPT_WINDOW && s.count + n < MAX_ATTEMPTS && Within(t, lo, hi)
    requires now <= t && n >= 1 && c >= 1 && Fine(Shared(Some(s.(count := s.count + n)), {}), rest, t, lo, hi, c)
    ensures Fine(Shared(Some(s), {}), Tries(t, n) + rest, now, lo, hi, c)
    ensures FailuresIn(Tries(t, n) + rest, lo, hi) == n + FailuresIn(rest, lo, hi)
    decreases n
  {
    assert Tries(t, n) + rest == Try(t) + (Tries(t, n - 1) + rest);
    if n == 1 {
      assert Tries(t, 0) + rest == rest;
    } else {
      TriesFine(s.(count := s.count + 1), t, n - 1, rest, t, lo, hi, c);
    }
    TryFine(Some(s), t, Tries(t, n - 1) + rest, now, lo, hi, c);
  }

  /** Nine requests that open a new window. */
  lemma NineFine(s: Attempts, t: nat, rest: seq<Event>, now: nat, lo: nat, hi: nat, c: nat)
    requires !Banned(Some(s), t) && t - s.windowStart >= ATTEMPT_WINDOW && Within(t, lo, hi) && now <= t && c >= 1
    requires Fine(Shared(Some(Attempts(9, t, s.bannedUntil)), {}), rest, t, lo, hi, c)
    ensures Fine(Shared(Some(s), {}), Tries(t, 9) + rest, now, lo, hi, c)
    ensures FailuresIn(Tries(t, 9) + rest, lo, hi) == 9 + FailuresIn(rest, lo, hi)
  {
    TriesFine(Attempts(1, t, s.bannedUntil), t, 8, rest, t, lo, hi, c);
    TryFine(Some(s), t, Tries(t, 8) + rest, now, lo, hi, c);
    assert Tries(t, 9) + rest == Try(t) + (Tries(t, 8) + rest);
  }

  /** Requests `i` to `n` pass the check. */
  function ChecksFrom(i: nat, n: nat, t: nat): seq<Event>
    requires i <= n
    decreases n - i
  {
    if i == n then [] else [Check(i, t)] + ChecksFrom(i + 1, n, t)
  }

  lemma {:induction false} BelowSize(n: nat)
    ensures |Below(n)| == n
  {
    if n > 0 {
      BelowSize(n - 1);
      BelowIs(n - 1, n - 1);
    }
  }

  /** A request in flight, the last of `n` + 1, fails. */
  lemma DownOne(s: Option<Attempts>, n: nat, t: nat, rest: seq<Event>, now: nat, lo: nat, hi: nat, c: nat)
    requires n < c && now <= t && Fine(Shared(Some(Fail(s, t)), Below(n)), rest, t, lo, hi, c)
    ensures Fine(Shared(s, Below(n + 1)), [Failure(n, t)] + rest, now, lo, hi, c)
    ensures FailuresIn([Failure(n, t)] + rest, lo, hi) == (if Within(t, lo, hi) then 1 else 0) + FailuresIn(rest, lo, hi)
  {
    BelowSize(n + 1);
    BelowIs(n, n);
    assert Below(n + 1) - {n} == Below(n);
    FineCons(Shared(s, Below(n + 1)), Failure(n, t), rest, Shared(Some(Fail(s, t)), Below(n)), now, lo, hi, c);
  }

  lemma {:induction false} FailsFine(s: Option<Attempts>, n: nat, t: nat, lo: nat, hi: nat, c: nat)
    requires n <= c && Within(t, lo, hi)
    ensures Fine(Shared(s, Below(n)), Fails(n, t), t, lo, hi, c) && FailuresIn(Fails(n, t), lo, hi) == n
    decreases n
  {
    if n > 0 {
      FailsFine(Some(Fail(s, t)), n - 1, t, lo, hi, c);
      DownOne(s, n - 1, t, Fails(n - 1, t), t, lo, hi, c);
    }
  }

  lemma {:induction false} ChecksFine(s: Option<Attempts>, i: nat, n: nat, t: nat, rest: seq<Event>, now: nat, lo: nat, hi: nat, c: nat)
    requires i <= n <= c && now <= t && !Banned(s, t) && Fine(Shared(s, Below(n)), rest, t, lo, hi, c)
    ensures Fine(Shared(s, Below(i)), ChecksFrom(i, n, t) + rest, now, lo, hi, c)
    ensures FailuresIn(ChecksFrom(i, n, t) + rest, lo, hi) == FailuresIn(rest, lo, hi)
    decreases n - i
  {
    BelowSize(i);
    if i == n {
      assert [] + rest == rest;
    } else {
      BelowIs(i, i);
      ChecksFine(s, i + 1, n, t, rest, t, lo, hi, c);
      var more := ChecksFrom(i + 1, n, t) + rest;
      FineCons(Shared(s, Below(i)), Check(i, t), more, Shared(s, Below(i + 1)), now, lo, hi, c);
      assert ChecksFrom(i, n, t) + rest == [Check(i, t)] + more;
    }
  }

  /** Windows with nine failures each, and a crowd of `c` at the end. */
  function BusyCrowd(t: nat, k: nat, c: nat): seq<Event>
    requires k >= 1
    decreases k
  {
    Tries(t, 9) + (if k == 1 then ChecksFrom(0, c, t) + Fails(c, t) else BusyCrowd(t + ATTEMPT_WINDOW, k - 1, c))
  }

  lemma {:induction false} BusyCrowdFine(s: Attempts, t: nat, k: nat, now: nat, lo: nat, hi: nat, c: nat)
    requires k >= 1 && c >= 1 && !Banned(Some(s), t) && t - s.windowStart >= ATTEMPT_WINDOW && now <= t
    requires lo <= t && t + (k - 1) * ATTEMPT_WINDOW < hi
    ensures Fine(Shared(Some(s), {}), BusyCrowd(t, k, c), now, lo, hi, c)
    ensures FailuresIn(BusyCrowd(t, k, c), lo, hi) == 9 * k + c
    decreases k
  {
    assert (k - 1) * ATTEMPT_WINDOW >= 0;
    var nine := Attempts(9, t, s.bannedUntil);
    if k == 1 {
      FailsFine(Some(nine), c, t, lo, hi, c);
      ChecksFine(Some(nine), 0, c, t, Fails(c, t), t, lo, hi, c);
      NineFine(s, t, ChecksFrom(0, c, t) + Fails(c, t), now, lo, hi, c);
    } else {
      assert t + ATTEMPT_WINDOW + (k - 2) * ATTEMPT_WINDOW == t + (k - 1) * ATTEMPT_WINDOW;
      BusyCrowdFine(nine, t + ATTEMPT_WINDOW, k - 1, t, lo, hi, c);
      NineFine(s, t, BusyCrowd(t + ATTEMPT_WINDOW, k - 1, c), now, lo, hi, c);
    }
  }

  function WorstCrowd(k: nat, c: nat): seq<Event>
    requires k >= 1
  {
    Try(0) + (Tries(ATTEMPT_WINDOW - 1, 8) + BusyCrowd(ATTEMPT_WINDOW, k, c))
  }

  /** For every number of whole windows and every `c`, a run comes within one failure of the bound for intervals of up to 300 seconds. */
  lemma InterleavedBoundIsClose(k: nat, c: nat)
    requires k >= 1 && c >= 1
    ensures var lo, hi := ATTEMPT_WINDOW - 1, ATTEMPT_WINDOW - 1 + k * ATTEMPT_WINDOW;
            && Fine(Shared(None, {}), WorstCrowd(k, c), 0, lo, hi, c) && Span(lo, hi) == k
            && FailuresIn(WorstCrowd(k, c), lo, hi) == 9 * (k + 1) + c - 1
  {
    var lo, hi := ATTEMPT_WINDOW - 1, ATTEMPT_WINDOW - 1 + k * ATTEMPT_WINDOW;
    WholeWindows(k, ATTEMPT_WINDOW);
    assert ATTEMPT_WINDOW + (k - 1) * ATTEMPT_WINDOW == k * ATTEMPT_WINDOW;
    BusyCrowdFine(Attempts(9, 0, None), ATTEMPT_WINDOW, k, lo, lo, hi, c);
    TriesFine(Attempts(1, 0, None), lo, 8, BusyCrowd(ATTEMPT_WINDOW, k, c), 0, lo, hi, c);
    TryFine(None, 0, Tries(lo, 8) + BusyCrowd(ATTEMPT_WINDOW, k, c), 0, lo, hi, c);
  }

  // ------------------------------------------------------- a run that attains it

  /** Requests `n` - 1 down to `m`, all in flight, fail. */
  function FailsDown(m: nat, n: nat, t: nat): seq<Event>
    requires m <= n
    decreases n - m
  {
    if m == n then [] else [Failure(n - 1, t)] + FailsDown(m, n - 1, t)
  }

  lemma DownCons(m: nat, n: nat, t: nat, rest: seq<Event>)
    requires m < n
    ensures FailsDown(m, n, t) + rest == [Failure(n - 1, t)] + (FailsDown(m, n - 1, t) + rest)
    ensures n == m + 1 ==> FailsDown(m, n - 1, t) + rest == rest
  {
  }

  /** Requests in flight that stay below the limit of the current window. */
  lemma {:induction false} DownFine(s: Attempts, s': Attempts, m: nat, n: nat, t: nat, rest: seq<Event>, now: nat, lo: nat, hi: nat, c: nat)
    requires m < n <= c && now <= t && 0 <= t - s.windowStart < ATTEMPT_WINDOW && s.count + (n - m) < MAX_ATTEMPTS
    requires s' == s.(count := s.count + (n - m)) && Fine(Shared(Some(s'), Below(m)), rest, t, lo, hi, c)
    ensures Fine(Shared(Some(s), Below(n)), FailsDown(m, n, t) + rest, now, lo, hi, c)
    ensures FailuresIn(FailsDown(m, n, t) + rest, lo, hi) == (if Within(t, lo, hi) then n - m else 0) + FailuresIn(rest, lo, hi)
    decreases n - m
  {
    FailCounts(s, t);
    DownCons(m, n, t, rest);
    if n > m + 1 {
      DownFine(s.(count := s.count + 1), s', m, n - 1, t, rest, t, lo, hi, c);
    }
    DownOne(Some(s), n - 1, t, FailsDown(m, n - 1, t) + rest, now, lo, hi, c);
  }

  lemma FailCounts(s: Attempts, t: nat)
    requires 0 <= t - s.windowStart < ATTEMPT_WINDOW && s.count + 1 < MAX_ATTEMPTS
    ensures Fail(Some(s), t) == s.(count := s.count + 1)
  {
  }

  /** Nine of them that open a new window. */
  lemma DownWindow(s: Attempts, m: nat, n: nat, t: nat, rest: seq<Event>, now: nat, lo: nat, hi: nat, c: nat)
    requires n == m + 9 && n <= c && now <= t && Within(t, lo, hi) && t - s.windowStart >= ATTEMPT_WINDOW
    requires Fine(Shared(Some(Attempts(9, t, s.bannedUntil)), Below(m)), rest, t, lo, hi, c)
    ensures Fine(Shared(Some(s), Below(n)), FailsDown(m, n, t) + rest, now, lo, hi, c)
    ensures FailuresIn(FailsDown(m, n, t) + rest, lo, hi) == 9 + FailuresIn(rest, lo, hi)
  {
    DownFine(Attempts(1, t, s.bannedUntil), Attempts(9, t, s.bannedUntil), m, n - 1, t, rest, t, lo, hi, c);
    DownOne(Some(s), n - 1, t, FailsDown(m, n - 1, t) + rest, now, lo, hi, c);
    DownCons(m, n, t, rest);
  }

  /** Nine of them in each of `k` windows, and a crowd at the end. */
  function SlowThenCrowd(t: nat, k: nat, c: nat): seq<Event>
    decreases k
  {
    if k == 0 then BusyCrowd(t, 1, c) else FailsDown(9 * (k - 1), 9 * k, t) + SlowThenCrowd(t + ATTEMPT_WINDOW, k - 1, c)
  }

  lemma WindowsAhead(t: nat, k: nat)
    requires k >= 1
    ensures t + ATTEMPT_WINDOW + (k - 1) * ATTEMPT_WINDOW == t + k * ATTEMPT_WINDOW && k * ATTEMPT_WINDOW >= ATTEMPT_WINDOW
  {
  }

  lemma {:induction false} SlowFine(s: Attempts, t: nat, k: nat, now: nat, lo: nat, hi: nat, c: nat)
    requires 9 * k < c && now <= t && t - s.windowStart >= ATTEMPT_WINDOW
    requires lo <= t && t + k * ATTEMPT_WINDOW < hi && !Banned(Some(s), t + k * ATTEMPT_WINDOW)
    ensures Fine(Shared(Some(s), Below(9 * k)), SlowThenCrowd(t, k, c), now, lo, hi, c)
    ensures FailuresIn(SlowThenCrowd(t, k, c), lo, hi) == 9 * k + 9 + c
    decreases k
  {
    if k == 0 {
      assert Below(9 * k) == {};
      BusyCrowdFine(s, t, 1, now, lo, hi, c);
    } else {
      WindowsAhead(t, k);
      SlowFine(Attempts(9, t, s.bannedUntil), t + ATTEMPT_WINDOW, k - 1, t, lo, hi, c);
      DownWindow(s, 9 * (k - 1), 9 * k, t, SlowThenCrowd(t + ATTEMPT_WINDOW, k - 1, c), now, lo, hi, c);
    }
  }

  /** Ten requests in flight fail at once and start a ban. */
  lemma DownBan(m: nat, rest: seq<Event>, lo: nat, hi: nat, c: nat)
    requires m + 10 <= c && lo > 0 && Fine(Shared(Some(Attempts(0, 0, Some(BAN_DURATION))), Below(m)), rest, 0, lo, hi, c)
    ensures Fine(Shared(None, Below(m + 10)), FailsDown(m, m + 10, 0) + rest, 0, lo, hi, c)
    ensures FailuresIn(FailsDown(m, m + 10, 0) + rest, lo, hi) == FailuresIn(rest, lo, hi)
  {
    DownOne(Some(Attempts(9, 0, None)), m, 0, rest, 0, lo, hi, c);
    DownFirst(m + 1, m + 10, [Failure(m, 0)] + rest, lo, hi, c);
    DownSnoc(m, m + 10, 0, rest);
  }

  lemma DownFirst(m: nat, n: nat, rest: seq<Event>, lo: nat, hi: nat, c: nat)
    requires n == m + 9 && n <= c && lo > 0 && Fine(Shared(Some(Attempts(9, 0, None)), Below(m)), rest, 0, lo, hi, c)
    ensures Fine(Shared(None, Below(n)), FailsDown(m, n, 0) + rest, 0, lo, hi, c)
    ensures FailuresIn(FailsDown(m, n, 0) + rest, lo, hi) == FailuresIn(rest, lo, hi)
  {
    DownFine(Attempts(1, 0, None), Attempts(9, 0, None), m, n - 1, 0, rest, 0, lo, hi, c);
    DownOne(None, n - 1, 0, FailsDown(m, n - 1, 0) + rest, 0, lo, hi, c);
    DownCons(m, n, 0, rest);
  }

  lemma {:induction false} DownSnoc(m: nat, n: nat, t: nat, rest: seq<Event>)
    requires m < n
    ensures FailsDown(m, n, t) + rest == FailsDown(m + 1, n, t) + ([Failure(m, t)] + rest)
    decreases n - m
  {
    DownCons(m, n, t, rest);
    if m + 1 < n {
      DownSnoc(m, n - 1, t, rest);
      DownCons(m + 1, n, t, [Failure(m, t)] + rest);
    } else {
      assert FailsDown(m + 1, n, t) + ([Failure(m, t)] + rest) == [Failure(m, t)] + rest;
    }
  }

  /** A ban with `m` requests still in flight, which fail nine to a window, and a crowd of `c` when it is over. */
  function Patient(m: nat, k: nat, c: nat): seq<Event>
    requires 9 * k <= m
  {
    ChecksFrom(0, m + 10, 0) + AfterChecks(m, k, c)
  }

  function AfterChecks(m: nat, k: nat, c: nat): seq<Event>
    requires 9 * k <= m
  {
    FailsDown(m, m + 10, 0) + AfterBan(m, k, c)
  }

  function AfterBan(m: nat, k: nat, c: nat): seq<Event>
    requires 9 * k <= m
  {
    FailsDown(9 * k, m, 1) + SlowThenCrowd(ATTEMPT_WINDOW, k, c)
  }

  lemma AfterBanFine(m: nat, k: nat, hi: nat, c: nat)
    requires m == 9 * k + 9 && c >= m + 10 && (k + 1) * ATTEMPT_WINDOW == BAN_DURATION && hi == 1 + BAN_DURATION
    ensures Fine(Shared(Some(Attempts(0, 0, Some(BAN_DURATION))), Below(m)), AfterBan(m, k, c), 0, 1, hi, c)
    ensures FailuresIn(AfterBan(m, k, c), 1, hi) == m + 9 + c
  {
    var banned, rest := Attempts(0, 0, Some(BAN_DURATION)), SlowThenCrowd(ATTEMPT_WINDOW, k, c);
    assert (k + 1) * ATTEMPT_WINDOW == ATTEMPT_WINDOW + k * ATTEMPT_WINDOW;
    SlowFine(banned.(count := 9), ATTEMPT_WINDOW, k, 1, 1, hi, c);
    DownFine(banned, banned.(count := 9), 9 * k, m, 1, rest, 0, 1, hi, c);
  }

  lemma PatientFine(m: nat, k: nat, hi: nat, c: nat)
    requires m == 9 * k + 9 && c >= m + 10 && (k + 1) * ATTEMPT_WINDOW == BAN_DURATION && hi == 1 + BAN_DURATION
    ensures Fine(Shared(None, {}), Patient(m, k, c), 0, 1, hi, c) && FailuresIn(Patient(m, k, c), 1, hi) == m + 9 + c
  {
    AfterBanFine(m, k, hi, c);
    DownBan(m, AfterBan(m, k, c), 1, hi, c);
    ChecksFine(None, 0, m + 10, 0, AfterChecks(m, k, c), 0, 1, hi, c);
  }

  lemma BoundOfBan(k: nat, hi: nat, c: nat)
    requires (k + 1) * ATTEMPT_WINDOW == BAN_DURATION && hi == 1 + BAN_DURATION
    ensures 9 * (Span(1, hi) + 1) + Extra(c, hi - 1) == 9 * k + 18 + c
  {
    WholeWindows(k + 1, ATTEMPT_WINDOW);
    WholeWindows(1, hi - 1);
    assert Windows(hi - 1, BAN_DURATION) == 1;
  }

  /** For every `c` from 55 on (`k` is 4, five windows being a ban) a run attains the bound for an interval as long as a ban. */
  lemma InterleavedBoundIsTight(k: nat, c: nat) returns (es: seq<Event>, lo: nat, hi: nat)
    requires (k + 1) * ATTEMPT_WINDOW == BAN_DURATION && c >= 9 * k + 19
    ensures hi - lo == BAN_DURATION && Fine(Shared(None, {}), es, 0, lo, hi, c)
    ensures FailuresIn(es, lo, hi) == 9 * (Span(lo, hi) + 1) + Extra(c, hi - lo)
  {
    lo, hi, es := 1, 1 + BAN_DURATION, Patient(9 * k + 9, k, c);
    PatientFine(9 * k + 9, k, hi, c);
    BoundOfBan(k, hi, c);
  }
}
