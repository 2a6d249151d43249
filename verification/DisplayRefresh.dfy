/** The refresh loop of the display: when a frame is drawn, and what is on the screen between redraws. */
module DisplayRefresh {
  import opened Results
  import opened Numbers
  import opened TimeWindows

  const UPTIME_ONLY_INTERVAL: nat := 600 * SECOND

  datatype Status = Status(
    ssid: Option<string>, ip: Option<Ipv4>, clients: nat, wan: bool,
    ram: Option<nat>, cpu: Option<nat>, uptime: Option<nat>)

  /** `eq_except_uptime` */
  predicate EqExceptUptime(a: Status, b: Status) {
    a.ssid == b.ssid && a.ip == b.ip && a.clients == b.clients && a.wan == b.wan && a.ram == b.ram && a.cpu == b.cpu
  }

  datatype Frame = Other | SetupFrame(ip: Option<Ipv4>, password: string) | StatusFrame(status: Status, drawnAt: int)

  /** What one round of the loop finds: the time, the status, a pending first-boot password, and how drawing goes. */
  datatype Tick = Tick(
    at: int, available: bool, status: Status, password: Option<string>, drawn: bool, drawnAt: int)

  /** The variables of the loop, the screen, and how many setup frames have been drawn. */
  datatype Loop = Loop(prev: Option<Status>, lastRender: int, showingSetup: bool, screen: Frame, setups: nat)

  /** Is a redraw due? */
  predicate Due(prev: Option<Status>, lastRender: int, t: Tick) {
    prev.None? || !EqExceptUptime(prev.value, t.status) || t.at - lastRender >= UPTIME_ONLY_INTERVAL
  }

  function Step(d: Loop, t: Tick): Loop {
    if !t.available then d
    else if t.password.Some? then
      if d.showingSetup || !t.drawn then d
      else d.(showingSetup := true, screen := SetupFrame(t.status.ip, t.password.value), setups := d.setups + 1)
    else
      var prev := if d.showingSetup then None else d.prev;
      var d1 := d.(prev := Some(t.status), showingSetup := false);
      if Due(prev, d.lastRender, t) && t.drawn
      then d1.(lastRender := t.drawnAt, screen := StatusFrame(t.status, t.drawnAt))
      else d1
  }

  function Run(d: Loop, ticks: seq<Tick>): Loop
    decreases |ticks|
  {
    if ticks == [] then d else Run(Step(d, ticks[0]), ticks[1..])
  }

  class Display {
    var prev: Option<Status>
    var lastRender: int
    var showingSetup: bool
    var screen: Frame
    var setups: nat

    function View(): Loop
      reads this
    {
      Loop(prev, lastRender, showingSetup, screen, setups)
    }

    /** Before the loop: whatever an earlier process left on the screen. */
    constructor (lastRender: int, screen: Frame)
      ensures View() == Loop(None, lastRender, false, screen, 0)
    {
      prev, showingSetup, setups := None, false, 0;
      this.lastRender, this.screen := lastRender, screen;
    }

    /** The body of the loop. */
    method Round(t: Tick)
      modifies this
      ensures View() == Step(old(View()), t)
    {
      if !t.available {
        return;
      }
      if t.password.Some? {
        if !showingSetup && t.drawn {
          screen, setups := SetupFrame(t.status.ip, t.password.value), setups + 1;
          showingSetup := true;
        }
      } else {
        if showingSetup {
          prev := None;
          showingSetup := false;
        }
        var due := prev.None? || !EqExceptUptime(prev.value, t.status) || t.at - lastRender >= UPTIME_ONLY_INTERVAL;
        if due && t.drawn {
          screen := StatusFrame(t.status, t.drawnAt);
          lastRender := t.drawnAt;
        }
        prev := Some(t.status);
      }
    }

    method Rounds(ticks: seq<Tick>)
      modifies this
      ensures View() == Run(old(View()), ticks)
    {
      for i := 0 to |ticks|
        invariant Run(View(), ticks[i..]) == Run(old(View()), ticks)
      {
        assert ticks[i..][1..] == ticks[i + 1..];
        Round(ticks[i]);
      }
      assert ticks[|ticks|..] == [];
    }
  }

  // ------------------------------------------------- against redrawing every time

  /** A round in which the screen is there and drawing works; drawing takes no negative time. */
  predicate Works(t: Tick) {
    t.available && t.drawn && t.at <= t.drawnAt
  }

  /** What the loop's variables say about the screen. */
  predicate Knows(d: Loop) {
    && (d.showingSetup ==> d.screen.SetupFrame?)
    && (!d.showingSetup && d.prev.Some? ==>
          d.screen.StatusFrame? && d.screen.drawnAt == d.lastRender && EqExceptUptime(d.screen.status, d.prev.value))
  }

  /** The screen is as good as freshly drawn: the right kind of frame, and a status that differs in its uptime at most and is under ten minutes old. */
  predicate UpToDate(d: Loop, t: Tick) {
    if t.password.Some? then d.screen.SetupFrame?
    else
      && d.screen.StatusFrame? && EqExceptUptime(d.screen.status, t.status)
      && t.at - d.screen.drawnAt < UPTIME_ONLY_INTERVAL
  }

  lemma StepIsUpToDate(d: Loop, t: Tick)
    requires Knows(d) && Works(t)
    ensures Knows(Step(d, t)) && UpToDate(Step(d, t), t)
    ensures Step(d, t).showingSetup <==> t.password.Some?
  {
  }

  lemma {:induction false} RunKnows(d: Loop, ticks: seq<Tick>)
    requires Knows(d) && forall t | t in ticks :: Works(t)
    ensures Knows(Run(d, ticks))
    decreases |ticks|
  {
    if ticks != [] {
      StepIsUpToDate(d, ticks[0]);
      RunKnows(Step(d, ticks[0]), ticks[1..]);
    }
  }

  lemma {:induction false} RunSnoc(d: Loop, ticks: seq<Tick>, t: Tick)
    ensures Run(d, ticks + [t]) == Step(Run(d, ticks), t)
    decreases |ticks|
  {
    if ticks == [] {
      assert Run(Step(d, t), [t][1..]) == Step(d, t);
    } else {
      assert (ticks + [t])[1..] == ticks[1..] + [t];
      RunSnoc(Step(d, ticks[0]), ticks[1..], t);
    }
  }

  /** After every round of a run in which the screen is there and drawing works, the screen is up to date. */
  lemma AlwaysUpToDate(d: Loop, ticks: seq<Tick>, i: nat)
    requires Knows(d) && i < |ticks| && forall t | t in ticks :: Works(t)
    ensures UpToDate(Run(d, ticks[..i + 1]), ticks[i])
  {
    assert ticks[..i + 1] == ticks[..i] + [ticks[i]];
    RunSnoc(d, ticks[..i], ticks[i]);
    RunKnows(d, ticks[..i]);
    StepIsUpToDate(Run(d, ticks[..i]), ticks[i]);
  }

  /** Stretches of rounds with a pending password, given whether one was pending before. */
  function Stretches(pending: bool, ticks: seq<Tick>): nat
    decreases |ticks|
  {
    if ticks == [] then 0
    else (if ticks[0].password.Some? && !pending then 1 else 0) + Stretches(ticks[0].password.Some?, ticks[1..])
  }

  /** The setup frame is drawn once for every stretch. */
  lemma {:induction false} OneSetupPerStretch(d: Loop, ticks: seq<Tick>)
    requires Knows(d) && forall t | t in ticks :: Works(t)
    ensures Run(d, ticks).setups == d.setups + Stretches(d.showingSetup, ticks)
    decreases |ticks|
  {
    if ticks != [] {
      StepIsUpToDate(d, ticks[0]);
      OneSetupPerStretch(Step(d, ticks[0]), ticks[1..]);
    }
  }

  // ------------------------------------------------- when drawing fails

  /** A round that should draw a status and fails to. */
  predicate FailsToDraw(d: Loop, t: Tick) {
    && t.available && !t.drawn && t.password.None?
    && Due(if d.showingSetup then None else d.prev, d.lastRender, t)
  }

  /**
   * A status that fails to draw is remembered as if it had been drawn: the next
   * round with an equal status is up to date exactly when ten minutes have passed
   * since the last frame of a status that succeeded, or the frame that was there
   * before, left by an earlier process, happens to be.  Once this process has drawn
   * a frame, or when there is no status frame, only the ten minutes count.
   */
  lemma FailedDrawIsForgotten(d: Loop, failed: Tick, next: Tick)
    requires FailsToDraw(d, failed) && Works(next) && failed.at <= next.at && next.password.None?
    requires EqExceptUptime(failed.status, next.status)
    ensures UpToDate(Step(Step(d, failed), next), next) <==> next.at - d.lastRender >= UPTIME_ONLY_INTERVAL || UpToDate(d, next)
    ensures Knows(d) && (d.showingSetup || d.prev.Some? || !d.screen.StatusFrame?) && UpToDate(d, next) ==>
              next.at - d.lastRender >= UPTIME_ONLY_INTERVAL
  {
    assert d.screen.SetupFrame? ==> !UpToDate(d, next);
  }

  /** Rounds that find the same status, before the ten minutes are over. */
  predicate Unchanged(ticks: seq<Tick>, status: Status, lastRender: int) {
    forall t | t in ticks ::
      t.password.None? && EqExceptUptime(status, t.status) && t.at - lastRender < UPTIME_ONLY_INTERVAL
  }

  lemma {:induction false} NothingIsDrawn(d: Loop, ticks: seq<Tick>)
    requires !d.showingSetup && d.prev.Some? && Unchanged(ticks, d.prev.value, d.lastRender)
    ensures Run(d, ticks).screen == d.screen
    decreases |ticks|
  {
    if ticks != [] {
      assert ticks[0] in ticks;
      NothingIsDrawn(Step(d, ticks[0]), ticks[1..]);
    }
  }

  /**
   * So the setup frame, and with it the initial password, stays on the screen
   * after the password is gone: through any number of rounds with the same
   * status, working ones too, until ten minutes after the last status frame.
   */
  lemma SetupStaysUp(d: Loop, failed: Tick, ticks: seq<Tick>)
    requires Knows(d) && d.showingSetup && FailsToDraw(d, failed)
    requires Unchanged(ticks, failed.status, d.lastRender)
    ensures Run(Step(d, failed), ticks).screen == d.screen && d.screen.SetupFrame?
  {
    NothingIsDrawn(Step(d, failed), ticks);
  }
}
