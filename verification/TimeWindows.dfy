/** Counting fixed windows in an interval of time. */
module TimeWindows {
  const SECOND: nat := 1_000_000_000

  /** How many windows of length `w`, one after the other, it takes to cover a length `d`. */
  function Windows(d: int, w: nat): nat
    requires w > 0
    decreases d
  {
    if d <= 0 then 0 else 1 + Windows(d - w, w)
  }

  lemma {:induction false} WindowsMonotone(d: int, e: int, w: nat)
    requires w > 0 && d <= e
    ensures Windows(d, w) <= Windows(e, w)
    decreases d
  {
    if d > 0 {
      WindowsMonotone(d - w, e - w, w);
    }
  }

  /** A window that starts a whole window later leaves one window less. */
  lemma NextWindow(d: int, e: int, w: nat)
    requires w > 0 && e > 0 && d <= e - w
    ensures Windows(d, w) + 1 <= Windows(e, w)
  {
    WindowsMonotone(d, e - w, w);
  }

  lemma {:induction false} WholeWindows(k: nat, w: nat)
    requires w > 0
    ensures Windows(k * w, w) == k
  {
    if k > 0 {
      WholeWindows(k - 1, w);
      assert k * w - w == (k - 1) * w;
    }
  }

  predicate Ascending(times: seq<nat>) {
    forall i, j | 0 <= i < j < |times| :: times[i] <= times[j]
  }

  predicate From(times: seq<nat>, start: nat) {
    forall i | 0 <= i < |times| :: start <= times[i]
  }

  predicate Within(t: nat, lo: nat, hi: nat) {
    lo <= t < hi
  }

  /** Rust's `duration_since`, which saturates. */
  function Since(now: nat, start: nat): nat {
    if now >= start then now - start else 0
  }
}
