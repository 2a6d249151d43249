/** The per-address request limiter and what its fixed windows guarantee for any interval of time. */
module RateLimit {
  import opened Results
  import opened TimeWindows

  type Ip = nat

  const WINDOW: nat := 10 * SECOND
  const MAX_REQUESTS: nat := 60

  datatype Bucket = Bucket(count: nat, windowStart: nat)

  /** The bucket after a request; the request is refused when its count is above the maximum. */
  function Hit(b: Option<Bucket>, now: nat): Bucket {
    if b.None? || Since(now, b.value.windowStart) >= WINDOW then Bucket(1, now)
    else b.value.(count := b.value.count + 1)
  }

  predicate Refused(b: Bucket) {
    b.count > MAX_REQUESTS
  }

  function BucketOf(buckets: map<Ip, Bucket>, ip: Ip): Option<Bucket> {
    if ip in buckets then Some(buckets[ip]) else None
  }

  class RateLimiter {
    var buckets: map<Ip, Bucket>

    constructor ()
      ensures buckets == map[]
    {
      buckets := map[];
    }

    method IsRateLimited(ip: Ip, now: nat) returns (limited: bool)
      modifies this
      ensures buckets == old(buckets)[ip := Hit(BucketOf(old(buckets), ip), now)]
      ensures limited == Refused(buckets[ip])
    {
      var entry := if ip in buckets then buckets[ip] else Bucket(0, now);
      if Since(now, entry.windowStart) >= WINDOW {
        entry := Bucket(0, now);
      }
      entry := entry.(count := entry.count + 1);
      buckets := buckets[ip := entry];
      limited := entry.count > MAX_REQUESTS;
    }
  }

  // ------------------------------------------------------------ one address alone

  /** How many of these requests are admitted in `[lo, hi)`. */
  function Admitted(b: Option<Bucket>, times: seq<nat>, lo: nat, hi: nat): nat
    decreases |times|
  {
    if times == [] then 0
    else
      var b' := Hit(b, times[0]);
      (if Within(times[0], lo, hi) && !Refused(b') then 1 else 0) + Admitted(Some(b'), times[1..], lo, hi)
  }

  function Used(b: Bucket): nat {
    if b.count < MAX_REQUESTS then b.count else MAX_REQUESTS
  }

  /** What is left when the current window began inside the interval. */
  lemma {:induction false} LeftFromInside(b: Bucket, times: seq<nat>, lo: nat, hi: nat)
    requires Ascending(times) && From(times, b.windowStart) && lo <= b.windowStart
    ensures Admitted(Some(b), times, lo, hi)
            <= if b.windowStart < hi then MAX_REQUESTS * Windows(hi - b.windowStart, WINDOW) - Used(b) else 0
    decreases |times|
  {
    if times != [] {
      var t, b' := times[0], Hit(Some(b), times[0]);
      LeftFromInside(b', times[1..], lo, hi);
      if b.windowStart < hi && t - b.windowStart >= WINDOW {
        NextWindow(hi - t, hi - b.windowStart, WINDOW);
      }
    }
  }

  /** What is left when the current window began before the interval and the interval has begun. */
  lemma {:induction false} LeftFromBefore(b: Bucket, times: seq<nat>, lo: nat, hi: nat)
    requires Ascending(times) && From(times, lo) && b.windowStart < lo
    ensures Admitted(Some(b), times, lo, hi)
            <= MAX_REQUESTS - Used(b) + MAX_REQUESTS * Windows(hi - lo, WINDOW)
    decreases |times|
  {
    if times != [] {
      var t, b' := times[0], Hit(Some(b), times[0]);
      if t - b.windowStart < WINDOW {
        LeftFromBefore(b', times[1..], lo, hi);
      } else {
        LeftFromInside(b', times[1..], lo, hi);
        WindowsMonotone(hi - t, hi - lo, WINDOW);
      }
    }
  }

  predicate Sane(b: Option<Bucket>, times: seq<nat>) {
    b.Some? ==> b.value.count >= 1 && From(times, b.value.windowStart)
  }

  lemma {:induction false} AdmittedBound(b: Option<Bucket>, times: seq<nat>, lo: nat, hi: nat)
    requires Ascending(times) && Sane(b, times) && (b.Some? ==> b.value.windowStart < lo)
    ensures Admitted(b, times, lo, hi) <= MAX_REQUESTS * (Windows(hi - lo, WINDOW) + 1) - 1
    decreases |times|
  {
    if times != [] {
      var t, b' := times[0], Hit(b, times[0]);
      if t < lo {
        AdmittedBound(Some(b'), times[1..], lo, hi);
      } else if b'.windowStart < lo {
        LeftFromBefore(b.value, times, lo, hi);
      } else {
        LeftFromInside(b', times[1..], lo, hi);
        WindowsMonotone(hi - t, hi - lo, WINDOW);
      }
    }
  }

  // ------------------------------------------------------------ many addresses

  datatype Request = Request(ip: Ip, at: nat)

  function Next(buckets: map<Ip, Bucket>, r: Request): map<Ip, Bucket> {
    buckets[r.ip := Hit(BucketOf(buckets, r.ip), r.at)]
  }

  function TimesOf(trace: seq<Request>, ip: Ip): seq<nat> {
    if trace == [] then []
    else (if trace[0].ip == ip then [trace[0].at] else []) + TimesOf(trace[1..], ip)
  }

  /** The verdicts (refused or not) that one address gets. */
  function VerdictsFor(buckets: map<Ip, Bucket>, trace: seq<Request>, ip: Ip): seq<bool>
    decreases |trace|
  {
    if trace == [] then []
    else
      var next := Next(buckets, trace[0]);
      (if trace[0].ip == ip then [Refused(next[ip])] else []) + VerdictsFor(next, trace[1..], ip)
  }

  function Verdicts(b: Option<Bucket>, times: seq<nat>): seq<bool>
    decreases |times|
  {
    if times == [] then []
    else
      var b' := Hit(b, times[0]);
      [Refused(b')] + Verdicts(Some(b'), times[1..])
  }

  /** Requests of other addresses never change a verdict. */
  lemma {:induction false} OthersDoNotMatter(buckets: map<Ip, Bucket>, trace: seq<Request>, ip: Ip)
    ensures VerdictsFor(buckets, trace, ip) == Verdicts(BucketOf(buckets, ip), TimesOf(trace, ip))
    decreases |trace|
  {
    if trace != [] {
      OthersDoNotMatter(Next(buckets, trace[0]), trace[1..], ip);
      if trace[0].ip == ip {
        assert TimesOf(trace, ip)[1..] == TimesOf(trace[1..], ip);
      } else {
        assert TimesOf(trace, ip) == TimesOf(trace[1..], ip);
        assert BucketOf(Next(buckets, trace[0]), ip) == BucketOf(buckets, ip);
      }
    }
  }

  /** How many requests of one address are admitted in `[lo, hi)`, in a trace of all addresses. */
  function AdmittedFrom(buckets: map<Ip, Bucket>, trace: seq<Request>, ip: Ip, lo: nat, hi: nat): nat
    decreases |trace|
  {
    if trace == [] then 0
    else
      var next := Next(buckets, trace[0]);
      (if trace[0].ip == ip && Within(trace[0].at, lo, hi) && !Refused(next[ip]) then 1 else 0)
      + AdmittedFrom(next, trace[1..], ip, lo, hi)
  }

  lemma {:induction false} AdmittedAlone(buckets: map<Ip, Bucket>, trace: seq<Request>, ip: Ip, lo: nat, hi: nat)
    ensures AdmittedFrom(buckets, trace, ip, lo, hi) == Admitted(BucketOf(buckets, ip), TimesOf(trace, ip), lo, hi)
    decreases |trace|
  {
    if trace != [] {
      AdmittedAlone(Next(buckets, trace[0]), trace[1..], ip, lo, hi);
      if trace[0].ip == ip {
        assert TimesOf(trace, ip)[1..] == TimesOf(trace[1..], ip);
      } else {
        assert TimesOf(trace, ip) == TimesOf(trace[1..], ip);
        assert BucketOf(Next(buckets, trace[0]), ip) == BucketOf(buckets, ip);
      }
    }
  }

  predicate InOrder(trace: seq<Request>) {
    forall i, j | 0 <= i < j < |trace| :: trace[i].at <= trace[j].at
  }

  lemma {:induction false} TimesAscend(trace: seq<Request>, ip: Ip)
    requires InOrder(trace)
    ensures Ascending(TimesOf(trace, ip))
    ensures forall t | t in TimesOf(trace, ip) :: exists i :: 0 <= i < |trace| && trace[i].at == t
    decreases |trace|
  {
    if trace != [] {
      TimesAscend(trace[1..], ip);
      var rest := TimesOf(trace[1..], ip);
      forall i | 0 <= i < |rest|
        ensures exists j :: 1 <= j < |trace| && trace[j].at == rest[i]
      {
        assert rest[i] in rest;
        var j :| 0 <= j < |trace[1..]| && trace[1..][j].at == rest[i];
        assert trace[j + 1].at == rest[i];
      }
    }
  }

  /** In any interval of any trace, one address gets fewer than 60 requests more than 60 for every window the interval spans. */
  lemma SlidingBound(trace: seq<Request>, ip: Ip, lo: nat, hi: nat)
    requires InOrder(trace)
    ensures AdmittedFrom(map[], trace, ip, lo, hi) <= MAX_REQUESTS * (Windows(hi - lo, WINDOW) + 1) - 1
  {
    AdmittedAlone(map[], trace, ip, lo, hi);
    TimesAscend(trace, ip);
    AdmittedBound(None, TimesOf(trace, ip), lo, hi);
  }

  /** In particular at most 119 in any ten seconds. */
  lemma TenSecondBound(trace: seq<Request>, ip: Ip, lo: nat)
    requires InOrder(trace)
    ensures AdmittedFrom(map[], trace, ip, lo, lo + WINDOW) <= 119
  {
    SlidingBound(trace, ip, lo, lo + WINDOW);
    assert Windows(WINDOW, WINDOW) == 1 + Windows(0, WINDOW);
  }

  // ------------------------------------------------------------ the bound is attained

  function Repeat(t: nat, n: nat): (r: seq<nat>)
    ensures |r| == n && forall i | 0 <= i < n :: r[i] == t
  {
    seq(n, _ => t)
  }

  /** Full windows starting at `t`, one after the other. */
  function FullWindows(t: nat, k: nat): seq<nat>
    decreases k
  {
    if k == 0 then [] else Repeat(t, MAX_REQUESTS) + FullWindows(t + WINDOW, k - 1)
  }

  /** A burst that fits in the current window is admitted whole. */
  lemma {:induction false} BurstAdmitted(b: Bucket, t: nat, n: nat, rest: seq<nat>, lo: nat, hi: nat)
    requires 0 <= t - b.windowStart < WINDOW && b.count + n <= MAX_REQUESTS && Within(t, lo, hi)
    ensures Admitted(Some(b), Repeat(t, n) + rest, lo, hi)
            == n + Admitted(Some(b.(count := b.count + n)), rest, lo, hi)
    decreases n
  {
    if n == 0 {
      assert Repeat(t, 0) + rest == rest;
    } else {
      assert (Repeat(t, n) + rest)[1..] == Repeat(t, n - 1) + rest;
      BurstAdmitted(b.(count := b.count + 1), t, n - 1, rest, lo, hi);
    }
  }

  lemma {:induction false} FullWindowsAdmitted(b: Bucket, t: nat, k: nat, lo: nat, hi: nat)
    requires t - b.windowStart >= WINDOW && lo <= t && (k > 0 ==> t + (k - 1) * WINDOW < hi)
    ensures Admitted(Some(b), FullWindows(t, k), lo, hi) == k * MAX_REQUESTS
    decreases k
  {
    if k > 0 {
      var rest := FullWindows(t + WINDOW, k - 1);
      assert (k - 1) * WINDOW >= 0;
      assert FullWindows(t, k) == [t] + (Repeat(t, MAX_REQUESTS - 1) + rest);
      assert FullWindows(t, k)[1..] == Repeat(t, MAX_REQUESTS - 1) + rest;
      BurstAdmitted(Bucket(1, t), t, MAX_REQUESTS - 1, rest, lo, hi);
      assert k > 1 ==> t + WINDOW + (k - 2) * WINDOW == t + (k - 1) * WINDOW;
      FullWindowsAdmitted(Bucket(MAX_REQUESTS, t), t + WINDOW, k - 1, lo, hi);
    }
  }

  /** One request, the rest of its window at the last moment, then full windows. */
  function Worst(k: nat): seq<nat> {
    [0] + (Repeat(WINDOW - 1, MAX_REQUESTS - 1) + FullWindows(WINDOW, k))
  }

  lemma {:induction false} FullWindowsAscend(t: nat, k: nat)
    ensures Ascending(FullWindows(t, k)) && From(FullWindows(t, k), t)
    decreases k
  {
    if k > 0 {
      FullWindowsAscend(t + WINDOW, k - 1);
    }
  }

  /** For every number of whole windows the bound is attained. */
  lemma BoundIsTight(k: nat)
    requires k >= 1
    ensures Ascending(Worst(k))
    ensures Windows(k * WINDOW, WINDOW) == k
    ensures Admitted(None, Worst(k), WINDOW - 1, WINDOW - 1 + k * WINDOW) == MAX_REQUESTS * (k + 1) - 1
  {
    var lo, hi := WINDOW - 1, WINDOW - 1 + k * WINDOW;
    FullWindowsAscend(WINDOW, k);
    WholeWindows(k, WINDOW);
    var rest := FullWindows(WINDOW, k);
    assert Worst(k)[1..] == Repeat(WINDOW - 1, MAX_REQUESTS - 1) + rest;
    assert WINDOW + (k - 1) * WINDOW == k * WINDOW;
    BurstAdmitted(Bucket(1, 0), WINDOW - 1, MAX_REQUESTS - 1, rest, lo, hi);
    FullWindowsAdmitted(Bucket(MAX_REQUESTS, 0), WINDOW, k, lo, hi);
  }
}
