/**
 * Nothing in the commit-confirm machine can get stuck: from every reachable state
 * the requests and timers in flight can run to their ends, whoever holds which
 * lock, and no request has to wait for a deadline to join a worker.
 */
module CommitProgress {
  import opened Results
  import opened ConfigDisk
  import opened CommitConfirm
  import AutoRevert

  // ------------------------------------------------ how far everything is from its end

  function WorkerRank(w: AutoRevert.Worker): nat {
    match w
    case Spawned => 12
    case Woken(timedOut) => if timedOut then 9 else 12
    case Testing(timedOut) => if timedOut then 8 else 11
    case Waiting => 10
    case Deciding(_) => 7
    case Storing => 6
    case Releasing => 5
    case Acting(n) => if n >= 2 then 2 else 4 - n
    case Leaving => 1
    case Exited => 0
  }

  function DropRank(d: AutoRevert.Drop): nat {
    match d
    case Alive => 6
    case DropEntering => 5
    case DropHolding => 4
    case DropStored => 3
    case DropUnlocked => 2
    case Joining => 1
    case Dropped => 0
  }

  function CallRank(c: AutoRevert.Call): nat {
    match c
    case Entering => 5
    case Holding => 4
    case Stored => 3
    case Unlocked => 2
    case Notified => 1
    case Returned(_) => 0
  }

  function TimerRank(t: AutoRevert.Timer): nat {
    WorkerRank(t.worker) + DropRank(t.drop) + (if t.expired then 0 else 1)
  }

  function HandlerRank(h: HandlerId, p: Handler, timers: seq<AutoRevert.Timer>): nat {
    match p
    case PostBackup(_, _) => 27
    case PostWrite(_, _) => 26
    case PostRestart(_, _) => 25
    case PostVerify(_, _) => 24
    case PostArm(_) => 23
    case PostInsert(_) => 2
    case PostReplace(_, _) => 1
    case PostRestore => 2
    case PostRestartOld => 1
    case PostDiscard => 1
    case PostDone(_) => 0
    case ConfirmTake => 10
    case ConfirmCall(t) =>
      3 + (if t < |timers| && h in timers[t].calls then CallRank(timers[t].calls[h]) else 6)
    case ConfirmDiscard(_) => 2
    case ConfirmDrop(_, _) => 1
    case ConfirmDone(_) => 0
  }

  function TimerSum(timers: seq<AutoRevert.Timer>): nat {
    if timers == [] then 0 else TimerRank(timers[0]) + TimerSum(timers[1..])
  }

  ghost function HandlerSum(handlers: map<HandlerId, Handler>, timers: seq<AutoRevert.Timer>): nat
    decreases |handlers|
  {
    if handlers == map[] then 0
    else
      var h :| h in handlers;
      HandlerRank(h, handlers[h], timers) + HandlerSum(handlers - {h}, timers)
  }

  ghost function Distance(s: System): nat {
    HandlerSum(s.handlers, s.timers) + TimerSum(s.timers)
  }

  lemma {:induction false} TimerSumAt(timers: seq<AutoRevert.Timer>, i: nat, t: AutoRevert.Timer)
    requires i < |timers|
    ensures TimerSum(timers[i := t]) == TimerSum(timers) - TimerRank(timers[i]) + TimerRank(t)
    decreases i
  {
    if i > 0 {
      TimerSumAt(timers[1..], i - 1, t);
      assert timers[i := t][1..] == timers[1..][i - 1 := t];
    } else {
      assert timers[0 := t][1..] == timers[1..];
    }
  }

  lemma {:induction false} TimerSumSnoc(timers: seq<AutoRevert.Timer>, t: AutoRevert.Timer)
    ensures TimerSum(timers + [t]) == TimerSum(timers) + TimerRank(t)
  {
    if timers == [] {
      assert [t][1..] == [] && timers + [t] == [t];
    } else {
      TimerSumSnoc(timers[1..], t);
      assert (timers + [t])[1..] == timers[1..] + [t];
    }
  }

  /** The sum does not depend on the order in which it is taken. */
  lemma {:induction false} HandlerSumAt(handlers: map<HandlerId, Handler>, timers: seq<AutoRevert.Timer>, h: HandlerId)
    requires h in handlers
    ensures HandlerSum(handlers, timers) == HandlerRank(h, handlers[h], timers) + HandlerSum(handlers - {h}, timers)
    decreases |handlers|
  {
    var g :| g in handlers && HandlerSum(handlers, timers)
                              == HandlerRank(g, handlers[g], timers) + HandlerSum(handlers - {g}, timers);
    if g != h {
      HandlerSumAt(handlers - {g}, timers, h);
      HandlerSumAt(handlers - {h}, timers, g);
      assert (handlers - {g}) - {h} == (handlers - {h}) - {g};
    }
  }

  /** It depends on the timers through the ranks alone. */
  lemma {:induction false} HandlerSumFrame(handlers: map<HandlerId, Handler>, timers: seq<AutoRevert.Timer>, timers': seq<AutoRevert.Timer>)
    requires forall h | h in handlers :: HandlerRank(h, handlers[h], timers') == HandlerRank(h, handlers[h], timers)
    ensures HandlerSum(handlers, timers') == HandlerSum(handlers, timers)
    decreases |handlers|
  {
    if handlers != map[] {
      var h :| h in handlers;
      HandlerSumAt(handlers, timers, h);
      HandlerSumAt(handlers, timers', h);
      HandlerSumFrame(handlers - {h}, timers, timers');
    }
  }

  // ------------------------------------------------ steps that bring the end nearer

  /** A request moves on. */
  lemma HandlerMoves(s: System, h: HandlerId, p: Handler, s': System)
    requires h in s.handlers && s'.handlers == s.handlers[h := p] && s'.timers == s.timers
    requires HandlerRank(h, p, s.timers) < HandlerRank(h, s.handlers[h], s.timers)
    ensures Distance(s') < Distance(s)
  {
    HandlerSumAt(s.handlers, s.timers, h);
    HandlerSumAt(s'.handlers, s.timers, h);
    assert s'.handlers - {h} == s.handlers - {h};
  }

  /** A worker or a destructor moves on. */
  lemma TimerMoves(s: System, i: TimerId, t: AutoRevert.Timer, s': System)
    requires i < |s.timers| && s'.timers == s.timers[i := t] && s'.handlers == s.handlers
    requires t.calls == s.timers[i].calls && TimerRank(t) < TimerRank(s.timers[i])
    ensures Distance(s') < Distance(s)
  {
    TimerSumAt(s.timers, i, t);
    HandlerSumFrame(s.handlers, s.timers, s'.timers);
  }

  /** A call moves on. */
  lemma CallMoves(s: System, h: HandlerId, i: TimerId, c: AutoRevert.Call, t: AutoRevert.Timer, s': System)
    requires At(s, h, ConfirmCall(i)) && i < |s.timers| && s'.timers == s.timers[i := t] && s'.handlers == s.handlers
    requires t.calls == s.timers[i].calls[h := c] && TimerRank(t) == TimerRank(s.timers[i])
    requires h in s.timers[i].calls ==> CallRank(c) < CallRank(s.timers[i].calls[h])
    ensures Distance(s') < Distance(s)
  {
    TimerSumAt(s.timers, i, t);
    HandlerSumAt(s.handlers, s.timers, h);
    HandlerSumAt(s'.handlers, s'.timers, h);
    HandlerSumFrame(s.handlers - {h}, s.timers, s'.timers);
  }

  lemma ArmMoves(s: System, h: HandlerId, text: string)
    requires At(s, h, PostArm(text))
    ensures Distance(Armed(s, h, text)) < Distance(s)
  {
    var s' := Armed(s, h, text);
    TimerSumSnoc(s.timers, AutoRevert.Armed);
    forall g | g in s.handlers - {h}
      ensures HandlerRank(g, s.handlers[g], s'.timers) == HandlerRank(g, s.handlers[g], s.timers)
    {
      RankOfOlder(g, s.handlers[g], s.timers);
    }
    HandlerSumAt(s.handlers, s.timers, h);
    HandlerSumAt(s'.handlers, s'.timers, h);
    assert s'.handlers - {h} == s.handlers - {h};
    HandlerSumFrame(s.handlers - {h}, s.timers, s'.timers);
  }

  lemma RankOfOlder(g: HandlerId, p: Handler, timers: seq<AutoRevert.Timer>)
    ensures HandlerRank(g, p, timers + [AutoRevert.Armed]) == HandlerRank(g, p, timers)
  {
  }

  // ------------------------------------------------ two more facts about every run

  /** The call that told a request what became of its edit has returned. */
  predicate CallReturned(s: System, h: HandlerId, t: TimerId) {
    t < |s.timers| && h in s.timers[t].calls && s.timers[t].calls[h].Returned?
  }

  predicate CallOver(s: System, h: HandlerId)
    requires h in s.handlers
  {
    match s.handlers[h]
    case ConfirmDiscard(t) => CallReturned(s, h, t)
    case ConfirmDrop(t, _) => CallReturned(s, h, t)
    case _ => true
  }

  /** No wake-up is lost, and nobody gives up a guard it still calls. */
  ghost predicate Live(s: System) {
    && Inv(s)
    && (forall i | 0 <= i < |s.timers| :: AutoRevert.WakeInv(s.timers[i]))
    && (forall h | h in s.handlers :: CallOver(s, h))
  }

  lemma ReturnedStays(t: AutoRevert.Timer, t': AutoRevert.Timer, h: HandlerId)
    requires Moved(t, t') && h in t.calls && t.calls[h].Returned?
    ensures h in t'.calls && t'.calls[h] == t.calls[h]
  {
    var te :| AutoRevert.Step(t, te) == Some(t');
    ReturnedStaysInStep(t, te, t', h);
  }

  lemma ReturnedStaysInStep(t: AutoRevert.Timer, te: AutoRevert.Event, t': AutoRevert.Timer, h: HandlerId)
    requires AutoRevert.Step(t, te) == Some(t') && h in t.calls && t.calls[h].Returned?
    ensures h in t'.calls && t'.calls[h] == t.calls[h]
  {
    if te.CallBegin? || te.CallLock? || te.CallStore? || te.CallUnlock? || te.CallNotify? || te.CallLoad? {
      assert te.id != h && t'.calls == t.calls[te.id := t'.calls[te.id]];
    } else {
      assert t'.calls == t.calls;
    }
  }

  lemma CallReturnedStays(s: System, e: Event, s': System, h: HandlerId, t: TimerId)
    requires Sized(s) && Step(s, e) == Some(s') && CallReturned(s, h, t)
    ensures CallReturned(s', h, t)
  {
    StepMovesTimers(s, e, s');
    if s'.timers[t] != s.timers[t] {
      ReturnedStays(s.timers[t], s'.timers[t], h);
    }
  }

  lemma CallOverStays(s: System, e: Event, s': System, h: HandlerId)
    requires Sized(s) && Step(s, e) == Some(s') && h in s'.handlers && (h in s.handlers ==> CallOver(s, h))
    ensures CallOver(s', h)
  {
    StepMoves(s, e, s');
    if h in s.handlers && s'.handlers[h] == s.handlers[h] {
      match s.handlers[h]
      case ConfirmDiscard(t) => CallReturnedStays(s, e, s', h, t);
      case ConfirmDrop(t, _) => CallReturnedStays(s, e, s', h, t);
      case _ =>
    } else if s'.handlers[h].ConfirmDiscard? || s'.handlers[h].ConfirmDrop? {
      CallOverMoves(s, e, s', h);
    }
  }

  lemma CallOverMoves(s: System, e: Event, s': System, h: HandlerId)
    requires Sized(s) && Step(s, e) == Some(s') && h in s'.handlers && (h in s.handlers ==> CallOver(s, h))
    requires !(h in s.handlers && s'.handlers[h] == s.handlers[h])
    requires s'.handlers[h].ConfirmDiscard? || s'.handlers[h].ConfirmDrop?
    ensures CallOver(s', h)
  {
    StepMoves(s, e, s');
    assert Subject(e) == Some(h);
    if IsEditEvent(e) {
      EditStepShape(s, e, s');
    } else if IsGuardEvent(e) {
      match e case Verdict(_) => case _ =>
    } else {
      match e case Discard(_, _) => case _ =>
    }
  }

  lemma StepKeepsLive(s: System, e: Event, s': System)
    requires Live(s) && Step(s, e) == Some(s')
    ensures Live(s')
  {
    StepKeepsInv(s, e, s');
    StepMovesTimers(s, e, s');
    forall i | 0 <= i < |s'.timers|
      ensures AutoRevert.WakeInv(s'.timers[i])
    {
      if i < |s.timers| && s'.timers[i] != s.timers[i] {
        var te :| AutoRevert.Step(s.timers[i], te) == Some(s'.timers[i]);
        AutoRevert.StepKeepsWakeInv(s.timers[i], te);
      }
    }
    forall h | h in s'.handlers
      ensures CallOver(s', h)
    {
      CallOverStays(s, e, s', h);
    }
  }

  lemma {:induction false} RunKeepsLive(s: System, es: seq<Event>, s': System)
    requires Live(s) && Run(s, es, s')
    ensures Live(s')
    decreases |es|
  {
    if es != [] {
      StepKeepsLive(s, es[0], Step(s, es[0]).value);
      RunKeepsLive(Step(s, es[0]).value, es[1..], s');
    }
  }

  /**
   * A request that joins a worker, the map locked or not, does not wait for the
   * deadline: the worker is done, or it can step now and every step it can make
   * ends its action or brings it nearer its end.
   */
  lemma JoiningCannotHang(s0: System, es: seq<Event>, s: System, h: HandlerId, r: TimerId)
    requires Initial(s0) && Run(s0, es, s) && h in s.handlers && Dropping(s.handlers[h]) && Owned(s.handlers[h]) == Some(r)
    ensures r < |s.timers|
    ensures s.timers[r].drop.Joining? ==> s.timers[r].worker.Exited? || AutoRevert.WorkerAdvances(s.timers[r])
  {
    RunKeepsLive(s0, es, s);
    assert HandlerOk(s, h);
    if s.timers[r].drop.Joining? {
      AutoRevert.JoinedAdvances(s.timers[r]);
    }
  }

  // ------------------------------------------------ there is always a next step

  /** Steps of what is in flight, each with the outcome a working system gives it. */
  predicate Benign(e: Event) {
    match e
    case StartPost(_, _, _) => false
    case StartConfirm(_) => false
    case Backup(_, io) => io.Done?
    case Write(_, io) => io.Done?
    case RestartNew(_, ok) => ok
    case Verify(_, up) => up
    case Restore(_, io) => io.Done?
    case RestartOld(_, ok) => ok
    case Discard(_, ok) => ok
    case Act(_, io, ok) => io.Done? && ok
    case _ => true
  }

  /** The event is enabled, benign and brings the end nearer. */
  ghost predicate Forward(s: System, e: Event) {
    Sized(s) && Benign(e) && Step(s, e).Some? && Distance(Step(s, e).value) < Distance(s)
  }

  /** What a worker that does not run its action does next; the deadline may have to pass first. */
  function WorkerNext(t: AutoRevert.Timer): AutoRevert.Event {
    match t.worker
    case Testing(_) => AutoRevert.WorkerTest
    case Waiting => if t.expired then AutoRevert.WorkerWake(AutoRevert.Timeout) else AutoRevert.Expire
    case Deciding(_) => AutoRevert.WorkerDecide
    case Storing => AutoRevert.WorkerStore
    case Releasing => AutoRevert.WorkerRelease
    case Leaving => AutoRevert.WorkerLeave
    case _ => AutoRevert.WorkerLock
  }

  function WorkerEvent(i: TimerId, t: AutoRevert.Timer): Event {
    if t.worker.Acting? then Act(i, Done, true) else Tick(i, WorkerNext(t))
  }

  lemma WorkerNextSteps(t: AutoRevert.Timer)
    requires AutoRevert.Inv(t) && !t.worker.Exited? && !t.worker.Acting? && (t.owner.Free? || t.owner.HeldByWorker?)
    ensures AutoRevert.Step(t, WorkerNext(t)).Some? && !AutoRevert.Begins(WorkerNext(t))
    ensures var t' := AutoRevert.Step(t, WorkerNext(t)).value; t'.calls == t.calls && TimerRank(t') < TimerRank(t)
  {
  }

  lemma ActForward(s: System, i: TimerId)
    requires Sized(s) && i < |s.timers| && s.timers[i].worker.Acting?
    ensures Forward(s, Act(i, Done, true))
  {
    var e := Act(i, Done, true);
    assert Step(s, e).Some?;
    var s' := Step(s, e).value;
    ActIs(s, i, Done, true, s');
    TimerMoves(s, i, s'.timers[i], s');
  }

  /** A worker whose lock is free or its own can step. */
  lemma WorkerForward(s: System, i: TimerId)
    requires Inv(s) && i < |s.timers| && !s.timers[i].worker.Exited?
    requires s.timers[i].owner.Free? || s.timers[i].owner.HeldByWorker?
    ensures Forward(s, WorkerEvent(i, s.timers[i]))
  {
    if s.timers[i].worker.Acting? {
      ActForward(s, i);
    } else {
      WorkerNextSteps(s.timers[i]);
      TickForward(s, i, WorkerNext(s.timers[i]));
    }
  }

  lemma TickForward(s: System, i: TimerId, te: AutoRevert.Event)
    requires Sized(s) && i < |s.timers| && AutoRevert.Step(s.timers[i], te).Some? && !AutoRevert.Begins(te)
    requires var t' := AutoRevert.Step(s.timers[i], te).value;
             t'.calls == s.timers[i].calls && TimerRank(t') < TimerRank(s.timers[i])
    ensures Forward(s, Tick(i, te))
  {
    var t' := AutoRevert.Step(s.timers[i], te).value;
    TimerMoves(s, i, t', s.(timers := s.timers[i := t']));
  }

  lemma CallForward(s: System, h: HandlerId, i: TimerId, te: AutoRevert.Event, c: AutoRevert.Call)
    requires Sized(s) && At(s, h, ConfirmCall(i)) && i < |s.timers| && h in s.timers[i].calls
    requires AutoRevert.Step(s.timers[i], te).Some? && !AutoRevert.Begins(te)
    requires var t' := AutoRevert.Step(s.timers[i], te).value;
             t'.calls == s.timers[i].calls[h := c] && TimerRank(t') == TimerRank(s.timers[i])
    requires CallRank(c) < CallRank(s.timers[i].calls[h])
    ensures Forward(s, Tick(i, te))
  {
    var t' := AutoRevert.Step(s.timers[i], te).value;
    CallMoves(s, h, i, c, t', s.(timers := s.timers[i := t']));
  }

  /** The destructor's own next step, once it has begun. */
  function DropNext(d: AutoRevert.Drop): AutoRevert.Event {
    match d
    case DropEntering => AutoRevert.DropLock
    case DropHolding => AutoRevert.DropStore
    case DropStored => AutoRevert.DropUnlock
    case DropUnlocked => AutoRevert.DropNotify
    case _ => AutoRevert.DropJoin
  }

  lemma DropNextSteps(t: AutoRevert.Timer)
    requires !t.drop.Alive? && !t.drop.Dropped?
    requires t.drop.DropEntering? ==> t.owner.Free?
    requires t.drop.Joining? ==> t.worker.Exited?
    ensures AutoRevert.Step(t, DropNext(t.drop)).Some? && !AutoRevert.Begins(DropNext(t.drop))
    ensures var t' := AutoRevert.Step(t, DropNext(t.drop)).value; t'.calls == t.calls && TimerRank(t') < TimerRank(t)
  {
  }

  lemma BeginDropForward(s: System, h: HandlerId, r: TimerId)
    requires Live(s) && h in s.handlers && Dropping(s.handlers[h]) && Owned(s.handlers[h]) == Some(r)
    requires r < |s.timers| && s.timers[r].drop.Alive?
    ensures Forward(s, BeginDrop(h))
  {
    CallsAreOver(s, h, r);
    assert Step(s, BeginDrop(h)) == TickTimer(s, r, AutoRevert.DropBegin);
    var t' := AutoRevert.Step(s.timers[r], AutoRevert.DropBegin).value;
    TimerMoves(s, r, t', s.(timers := s.timers[r := t']));
  }

  /** A lock that no call and no destructor holds is free or the worker's. */
  lemma LockIsWorkers(t: AutoRevert.Timer)
    requires AutoRevert.Inv(t) && !t.owner.HeldByCall? && !AutoRevert.DropHolds(t.drop)
    ensures t.owner.Free? || t.owner.HeldByWorker?
  {
  }

  /** A step on timers, guards and the map. */
  predicate OnGuards(e: Event) {
    IsGuardEvent(e) || e.Tick? || e.Act?
  }

  /** While a guard is being destroyed there is a next step. */
  lemma DropForward(s: System, h: HandlerId, r: TimerId) returns (e: Event)
    requires Live(s) && h in s.handlers && Dropping(s.handlers[h]) && Owned(s.handlers[h]) == Some(r)
    requires r < |s.timers| && !s.timers[r].drop.Dropped?
    ensures Forward(s, e) && OnGuards(e)
  {
    var t := s.timers[r];
    if t.drop.Alive? {
      e := BeginDrop(h);
      BeginDropForward(s, h, r);
    } else if (t.drop.DropEntering? && !t.owner.Free?) || (t.drop.Joining? && !t.worker.Exited?) {
      CallsAreOver(s, h, r);
      LockIsWorkers(t);
      assert t.owner.HeldByWorker? ==> !t.worker.Exited?;
      e := WorkerEvent(r, t);
      WorkerForward(s, r);
    } else {
      e := Tick(r, DropNext(t.drop));
      DropNextSteps(t);
      TickForward(s, r, DropNext(t.drop));
    }
  }

  /** Whoever destroys a guard has no call on it under way, nor has anybody else. */
  lemma CallsAreOver(s: System, h: HandlerId, r: TimerId)
    requires Live(s) && h in s.handlers && Dropping(s.handlers[h]) && Owned(s.handlers[h]) == Some(r) && r < |s.timers|
    ensures forall id | id in s.timers[r].calls :: s.timers[r].calls[id].Returned?
    ensures !s.timers[r].owner.HeldByCall?
  {
    assert HandlerOk(s, h) && TimerOk(s, r) && CallOver(s, h) && AutoRevert.Inv(s.timers[r]);
    forall id | id in s.timers[r].calls
      ensures s.timers[r].calls[id].Returned?
    {
      assert CallOk(s, r, id);
    }
  }

  lemma MoveForward(s: System, h: HandlerId, e: Event, p: Handler, s': System)
    requires Sized(s) && Benign(e) && Step(s, e) == Some(s')
    requires h in s.handlers && s'.handlers == s.handlers[h := p] && s'.timers == s.timers
    requires HandlerRank(h, p, s.timers) < HandlerRank(h, s.handlers[h], s.timers)
    ensures Forward(s, e)
  {
    HandlerMoves(s, h, p, s');
  }

  predicate Editing(p: Handler) {
    p.PostBackup? || p.PostWrite? || p.PostRestart? || p.PostVerify? || p.PostRestore? || p.PostRestartOld?
  }

  function EditNext(h: HandlerId, p: Handler): Event
    requires Editing(p)
  {
    match p
    case PostBackup(_, _) => Backup(h, Done)
    case PostWrite(_, _) => Write(h, Done)
    case PostRestart(_, _) => RestartNew(h, true)
    case PostVerify(_, _) => Verify(h, true)
    case PostRestore => Restore(h, Done)
    case _ => RestartOld(h, true)
  }

  /** An edit request that works on the file and the service has a next step. */
  lemma EditForward(s: System, h: HandlerId)
    requires Sized(s) && h in s.handlers && Editing(s.handlers[h])
    ensures Forward(s, EditNext(h, s.handlers[h]))
  {
    var e := EditNext(h, s.handlers[h]);
    assert EditStep(s, e).Some?;
    var s' := EditStep(s, e).value;
    EditStepShape(s, e, s');
    EditRankDrops(s, h, s');
    MoveForward(s, h, e, s'.handlers[h], s');
  }

  lemma EditRankDrops(s: System, h: HandlerId, s': System)
    requires h in s.handlers && Editing(s.handlers[h]) && EditStep(s, EditNext(h, s.handlers[h])) == Some(s')
    ensures h in s'.handlers && HandlerRank(h, s'.handlers[h], s.timers) < HandlerRank(h, s.handlers[h], s.timers)
  {
  }

  /** A request that is to discard the backup can. */
  lemma DiscardForward(s: System, h: HandlerId)
    requires Live(s) && h in s.handlers && (s.handlers[h].PostDiscard? || s.handlers[h].ConfirmDiscard?)
    ensures Forward(s, Discard(h, true))
  {
    var e := Discard(h, true);
    assert Step(s, e).Some?;
    var s' := Step(s, e).value;
    assert CallOver(s, h);
    MoveForward(s, h, e, s'.handlers[h], s');
  }

  /** A confirmation that has not looked yet does, and may find a guard. */
  lemma TakeForward(s: System, h: HandlerId)
    requires Live(s) && At(s, h, ConfirmTake) && s.mapLock.None?
    ensures Forward(s, Take(h))
  {
    var e := Take(h);
    if s.pending.None? {
      MoveForward(s, h, e, ConfirmDone(NoPending), Goto(s, h, ConfirmDone(NoPending)));
    } else {
      var t := s.pending.value;
      assert Step(s, e) == Some(Taken(s, h, t));
      MoveForward(s, h, e, ConfirmCall(t), Taken(s, h, t));
    }
  }

  /** The own next step of a `confirm` that has begun and not returned. */
  function CallNext(h: HandlerId, c: AutoRevert.Call): AutoRevert.Event {
    match c
    case Entering => AutoRevert.CallLock(h)
    case Holding => AutoRevert.CallStore(h)
    case Stored => AutoRevert.CallUnlock(h)
    case Unlocked => AutoRevert.CallNotify(h)
    case _ => AutoRevert.CallLoad(h)
  }

  lemma CallNextSteps(t: AutoRevert.Timer, h: HandlerId)
    requires h in t.calls && !t.calls[h].Returned? && (t.calls[h].Entering? ==> t.owner.Free?)
    ensures AutoRevert.Step(t, CallNext(h, t.calls[h])).Some? && !AutoRevert.Begins(CallNext(h, t.calls[h]))
    ensures var t' := AutoRevert.Step(t, CallNext(h, t.calls[h])).value;
            && h in t'.calls && t'.calls == t.calls[h := t'.calls[h]]
            && TimerRank(t') == TimerRank(t) && CallRank(t'.calls[h]) < CallRank(t.calls[h])
  {
  }

  lemma BeginCallForward(s: System, h: HandlerId, t: TimerId)
    requires Live(s) && At(s, h, ConfirmCall(t)) && t < |s.timers| && h !in s.timers[t].calls
    ensures Forward(s, BeginCall(h))
  {
    assert HandlerOk(s, h) && TimerOk(s, t);
    assert Step(s, BeginCall(h)) == TickTimer(s, t, AutoRevert.CallBegin(h));
    var t' := AutoRevert.Step(s.timers[t], AutoRevert.CallBegin(h)).value;
    CallMoves(s, h, t, AutoRevert.Entering, t', s.(timers := s.timers[t := t']));
  }

  lemma VerdictForward(s: System, h: HandlerId, t: TimerId)
    requires Live(s) && At(s, h, ConfirmCall(t)) && CallReturned(s, h, t)
    ensures Forward(s, Verdict(h))
  {
    assert Step(s, Verdict(h)).Some?;
    var s' := Step(s, Verdict(h)).value;
    MoveForward(s, h, Verdict(h), s'.handlers[h], s');
  }

  /** A call of `confirm` has a next step, if need be the worker's that holds the lock. */
  lemma ConfirmForward(s: System, h: HandlerId, t: TimerId) returns (e: Event)
    requires Live(s) && At(s, h, ConfirmCall(t))
    ensures Forward(s, e) && OnGuards(e)
  {
    assert HandlerOk(s, h);
    var timer := s.timers[t];
    if h !in timer.calls {
      e := BeginCall(h);
      BeginCallForward(s, h, t);
    } else if timer.calls[h].Returned? {
      e := Verdict(h);
      VerdictForward(s, h, t);
    } else if timer.calls[h].Entering? && !timer.owner.Free? {
      OnlyOwnCall(s, h, t);
      e := WorkerEvent(t, timer);
      WorkerForward(s, t);
    } else {
      e := Tick(t, CallNext(h, timer.calls[h]));
      CallNextSteps(timer, h);
      var t' := AutoRevert.Step(timer, CallNext(h, timer.calls[h])).value;
      CallForward(s, h, t, CallNext(h, timer.calls[h]), t'.calls[h]);
    }
  }

  /** The only call on a guard is its owner's. */
  lemma OnlyOwnCall(s: System, h: HandlerId, t: TimerId)
    requires Live(s) && At(s, h, ConfirmCall(t)) && t < |s.timers|
    requires h in s.timers[t].calls && s.timers[t].calls[h].Entering?
    ensures s.timers[t].owner.Free? || s.timers[t].owner.HeldByWorker?
    ensures s.timers[t].owner.HeldByWorker? ==> !s.timers[t].worker.Exited?
  {
    assert HandlerOk(s, h) && TimerOk(s, t) && AutoRevert.Inv(s.timers[t]);
    assert forall id | id in s.timers[t].calls :: CallOk(s, t, id);
    assert !AutoRevert.DropHolds(s.timers[t].drop);
  }

  /** Whoever holds the map lock has a next step. */
  lemma HolderForward(s: System, h: HandlerId) returns (e: Event)
    requires Live(s) && h in s.handlers && s.handlers[h].PostReplace?
    ensures Forward(s, e) && OnGuards(e)
  {
    assert HandlerOk(s, h);
    var replaced := s.handlers[h].replaced;
    if replaced.Some? && !s.timers[replaced.value].drop.Dropped? {
      e := DropForward(s, h, replaced.value);
    } else {
      e := FinishPost(h);
      assert Step(s, e).Some?;
      var s' := Step(s, e).value;
      MoveForward(s, h, e, s'.handlers[h], s');
    }
  }

  /** Any other request in flight has one while the map is not locked. */
  lemma HandlerForward(s: System, h: HandlerId) returns (e: Event)
    requires Live(s) && h in s.handlers && s.mapLock.None? && !Answered(s.handlers[h])
    ensures Forward(s, e)
    ensures e.Backup? ==> s.handlers[h].PostBackup?
    ensures e.Discard? ==> e.h == h
  {
    var p := s.handlers[h];
    assert HandlerOk(s, h);
    if Editing(p) {
      e := EditNext(h, p);
      EditForward(s, h);
    } else if p.PostDiscard? || p.ConfirmDiscard? {
      e := Discard(h, true);
      DiscardForward(s, h);
    } else if p.ConfirmTake? {
      e := Take(h);
      TakeForward(s, h);
    } else if p.ConfirmCall? {
      e := ConfirmForward(s, h, p.t);
    } else if p.ConfirmDrop? {
      e := ConfirmDropForward(s, h, p.t, p.reply);
    } else {
      e := ArmForward(s, h);
    }
  }

  lemma ConfirmDropForward(s: System, h: HandlerId, t: TimerId, reply: ConfirmReply) returns (e: Event)
    requires Live(s) && At(s, h, ConfirmDrop(t, reply))
    ensures Forward(s, e) && OnGuards(e)
  {
    assert HandlerOk(s, h);
    if s.timers[t].drop.Dropped? {
      e := FinishConfirm(h);
      assert Step(s, e) == Some(ConfirmFinished(s, h, t, reply));
      MoveForward(s, h, e, ConfirmDone(reply), ConfirmFinished(s, h, t, reply));
    } else {
      e := DropForward(s, h, t);
    }
  }

  lemma ArmForward(s: System, h: HandlerId) returns (e: Event)
    requires Live(s) && h in s.handlers && (s.handlers[h].PostArm? || s.handlers[h].PostInsert?) && s.mapLock.None?
    ensures Forward(s, e) && OnGuards(e)
  {
    assert HandlerOk(s, h);
    if s.handlers[h].PostArm? {
      e := Arm(h);
      assert Step(s, e) == Some(Armed(s, h, s.handlers[h].text));
      ArmMoves(s, h, s.handlers[h].text);
    } else {
      var t := s.handlers[h].t;
      e := Insert(h);
      assert Step(s, e) == Some(Inserted(s, h, t));
      MoveForward(s, h, e, PostReplace(t, s.pending), Inserted(s, h, t));
    }
  }

  /** The request has its answer. */
  predicate Answered(p: Handler) {
    p.PostDone? || p.ConfirmDone?
  }

  /** Every request has its answer and every worker is over. */
  ghost predicate Settled(s: System) {
    && (forall h | h in s.handlers :: Answered(s.handlers[h]))
    && (forall i | 0 <= i < |s.timers| :: s.timers[i].worker.Exited?)
  }

  /** The request neither calls a guard nor destroys one: answered, about to begin, or with only a backup to discard. */
  predicate HandsOff(p: Handler) {
    Answered(p) || p.PostBackup? || p.PostDiscard? || p.ConfirmDiscard?
  }

  /** With no request at work on a guard a timer that is still alive is alone with its worker. */
  lemma TimerForward(s: System, i: TimerId)
    requires Live(s) && i < |s.timers| && !s.timers[i].worker.Exited?
    requires forall h | h in s.handlers :: HandsOff(s.handlers[h])
    ensures Forward(s, WorkerEvent(i, s.timers[i]))
  {
    NobodyHolds(s, i);
    LockIsWorkers(s.timers[i]);
    WorkerForward(s, i);
  }

  lemma NobodyHolds(s: System, i: TimerId)
    requires Live(s) && i < |s.timers| && forall h | h in s.handlers :: HandsOff(s.handlers[h])
    ensures !s.timers[i].owner.HeldByCall? && !AutoRevert.DropHolds(s.timers[i].drop)
  {
    assert TimerOk(s, i) && AutoRevert.Inv(s.timers[i]);
    forall id | id in s.timers[i].calls
      ensures s.timers[i].calls[id].Returned?
    {
      CallIsOver(s, i, id);
    }
  }

  lemma CallIsOver(s: System, i: TimerId, id: HandlerId)
    requires Live(s) && i < |s.timers| && id in s.timers[i].calls && forall h | h in s.handlers :: HandsOff(s.handlers[h])
    ensures s.timers[i].calls[id].Returned?
  {
    assert TimerOk(s, i) && AutoRevert.Inv(s.timers[i]);
    assert CallOk(s, i, id);
    assert HandlerOk(s, id) && CallOver(s, id);
  }

  /** Whatever is in flight, something can step towards its end. */
  lemma SomethingMoves(s: System) returns (e: Event)
    requires Live(s) && !Settled(s)
    ensures Forward(s, e)
  {
    if s.mapLock.Some? {
      e := HolderForward(s, s.mapLock.value);
    } else if h :| h in s.handlers && !Answered(s.handlers[h]) {
      e := HandlerForward(s, h);
    } else {
      var i :| 0 <= i < |s.timers| && !s.timers[i].worker.Exited?;
      TimerForward(s, i);
      e := WorkerEvent(i, s.timers[i]);
    }
  }

  // ------------------------------------------------ every run can be brought to its end

  /** Runs in which nobody starts anything new and everything works. */
  predicate AllBenign(es: seq<Event>) {
    forall e | e in es :: Benign(e)
  }

  lemma {:induction false} Settles(s: System) returns (es: seq<Event>, s': System)
    requires Live(s)
    ensures Sized(s) && AllBenign(es) && Run(s, es, s') && Settled(s')
    decreases Distance(s)
  {
    if Settled(s) {
      es, s' := [], s;
    } else {
      var e := SomethingMoves(s);
      var m := Step(s, e).value;
      StepKeepsLive(s, e, m);
      var rest;
      rest, s' := Settles(m);
      es := [e] + rest;
      assert es[1..] == rest;
    }
  }

  /**
   * From every reachable state, whatever overlaps and whatever has failed so far,
   * all requests and timers in flight can run to their ends.
   */
  lemma EveryRunCanSettle(s0: System, es: seq<Event>, s: System)
    requires Initial(s0) && Run(s0, es, s)
    ensures exists more, s' :: Sized(s) && AllBenign(more) && Run(s, more, s') && Settled(s')
  {
    RunKeepsLive(s0, es, s);
    var more, s' := Settles(s);
  }

  // ------------------------------------------------ and a serial one settles as promised

  /** With every copy, restart and removal working, a serial run stays without a fault. */
  lemma BenignKeepsFaultFree(s: System, e: Event, s': System)
    requires Serial(s) && !s.fault && Benign(e) && Step(s, e) == Some(s')
    ensures !s'.fault
  {
    if IsEditEvent(e) {
      assert PostOk(s, e.h);
      EditKeepsFaultFree(s, e, s');
    } else if e.Act? {
      if s.timers[e.i].worker.progress == 0 {
        ActHasBackup(s, e.i);
      }
      ActKeepsFaultFree(s, e.i, s');
    } else if IsGuardEvent(e) {
      GuardStepKeepsFault(s, e, s');
    } else {
      OtherKeepsFaultFree(s, e, s');
    }
  }

  lemma ActKeepsFaultFree(s: System, i: TimerId, s': System)
    requires i < |s.timers| && s.timers[i].worker.Acting? && (s.timers[i].worker.progress == 0 ==> s.disk.bak.Some?)
    requires !s.fault && ActStep(s, i, Done, true) == Some(s')
    ensures !s'.fault
  {
  }

  lemma OtherKeepsFaultFree(s: System, e: Event, s': System)
    requires !s.fault && Benign(e) && !IsEditEvent(e) && !IsGuardEvent(e) && !e.Act? && OtherStep(s, e) == Some(s')
    ensures !s'.fault
  {
  }

  lemma EditKeepsFaultFree(s: System, e: Event, s': System)
    requires Sized(s) && Content(s) && !s.fault && Benign(e) && IsEditEvent(e) && EditStep(s, e) == Some(s')
    requires e.Backup? || s.current == Some(e.h)
    ensures !s'.fault
  {
  }

  lemma GuardStepKeepsFault(s: System, e: Event, s': System)
    requires Sized(s) && IsGuardEvent(e) && GuardStep(s, e) == Some(s')
    ensures s'.fault == s.fault
  {
  }

  /** An action that is about to restore finds its backup. */
  lemma ActHasBackup(s: System, i: TimerId)
    requires Serial(s) && !s.fault && i < |s.timers| && s.timers[i].worker == AutoRevert.Acting(0)
    ensures s.disk.bak.Some?
  {
    ActingIsCurrent(s, i);
    ContentIsTimerContent(s, i);
  }

  /** Only late discards and edits about to begin are left. */
  predicate OnlyWaiting(s: System) {
    forall h | h in s.handlers :: Answered(s.handlers[h]) || s.handlers[h].PostBackup? || Late(s, h)
  }

  /** Once its worker is over, the timer of the latest edit is confirmed or has restored the old text. */
  lemma OverIsDecided(s: System, t: TimerId)
    requires Serial(s) && OnlyWaiting(s) && CurrentTimer(s) == Some(t) && t < |s.timers| && s.timers[t].worker.Exited?
    ensures s.accepted || s.timers[t].fired
  {
    assert TimerOk(s, t) && AutoRevert.Inv(s.timers[t]) && CancelOk(s, t);
  }

  lemma NoBackupNeeded(s: System)
    requires Serial(s) && OnlyWaiting(s) && forall i | 0 <= i < |s.timers| :: s.timers[i].worker.Exited?
    ensures !NeedsBackup(s)
  {
    if NeedsBackup(s) {
      assert Begun(s, s.current.value) && !Late(s, s.current.value);
      OverIsDecided(s, CurrentTimer(s).value);
    }
  }

  /** Whatever is in flight in a serial run, something can step towards its end in its turn. */
  lemma SerialMoves(s: System) returns (e: Event)
    requires Live(s) && Serial(s) && !Settled(s)
    ensures Forward(s, e) && InTurn(s, e)
  {
    if s.mapLock.Some? {
      e := HolderForward(s, s.mapLock.value);
    } else if h :| h in s.handlers && !Answered(s.handlers[h]) && !s.handlers[h].PostBackup? && !Late(s, h) {
      e := HandlerForward(s, h);
    } else if i :| 0 <= i < |s.timers| && !s.timers[i].worker.Exited? {
      TimerForward(s, i);
      e := WorkerEvent(i, s.timers[i]);
    } else {
      e := WaitingMoves(s);
    }
  }

  /** First the late discards, then the edits that have not begun, one after the other. */
  lemma WaitingMoves(s: System) returns (e: Event)
    requires Live(s) && Serial(s) && !Settled(s) && OnlyWaiting(s)
    requires forall i | 0 <= i < |s.timers| :: s.timers[i].worker.Exited?
    ensures Forward(s, e) && InTurn(s, e)
  {
    if h :| h in s.handlers && Late(s, h) {
      e := Discard(h, true);
      DiscardForward(s, h);
      NoBackupNeeded(s);
    } else {
      QuietIsDecided(s);
      var g :| g in s.handlers && !Answered(s.handlers[g]);
      e := Backup(g, Done);
      EditForward(s, g);
    }
  }

  lemma {:induction false} SerialRunSettles(s: System) returns (es: seq<Event>, s': System)
    requires Live(s) && Serial(s) && !s.fault
    ensures Sized(s) && AllBenign(es) && SerialRun(s, es, s') && Settled(s') && !s'.fault
    decreases Distance(s)
  {
    if Settled(s) {
      es, s' := [], s;
    } else {
      var e := SerialMoves(s);
      var m := Step(s, e).value;
      StepKeepsLive(s, e, m);
      StepKeepsSerial(s, e, m);
      BenignKeepsFaultFree(s, e, m);
      var rest;
      rest, s' := SerialRunSettles(m);
      es := [e] + rest;
      assert es[1..] == rest;
    }
  }

  lemma {:induction false} SerialRunAppend(s: System, es: seq<Event>, m: System, fs: seq<Event>, s': System)
    requires Sized(s) && Sized(m) && SerialRun(s, es, m) && SerialRun(m, fs, s')
    ensures SerialRun(s, es + fs, s')
    decreases |es|
  {
    if es == [] {
      assert es + fs == fs;
    } else {
      StepKeepsSized(s, es[0]);
      assert (es + fs)[0] == es[0] && (es + fs)[1..] == es[1..] + fs;
      SerialRunAppend(Step(s, es[0]).value, es[1..], m, fs, s');
    }
  }

  /**
   * Edits one after the other without a fault: from every state on the way the
   * system can reach one with every request answered, every worker over, no fault,
   * and the file and the service at the text that was last committed or confirmed.
   */
  lemma SerialEditsCanSettle(s0: System, es: seq<Event>, s: System)
    requires Initial(s0) && SerialRun(s0, es, s) && !s.fault
    ensures exists all, s' :: es <= all && SerialRun(s0, all, s') && Settled(s') && !s'.fault && AtTrusted(s')
  {
    var all, s' := RunToItsEnd(s0, es, s);
    SettledIsQuiet(s');
    QuietMeansTrusted(s0, all, s');
  }

  lemma RunToItsEnd(s0: System, es: seq<Event>, s: System) returns (all: seq<Event>, s': System)
    requires Initial(s0) && SerialRun(s0, es, s) && !s.fault
    ensures es <= all && SerialRun(s0, all, s') && Settled(s') && !s'.fault
  {
    SerialRunIsRun(s0, es, s);
    RunKeepsLive(s0, es, s);
    SerialRunKeepsSerial(s0, es, s);
    var more;
    more, s' := SerialRunSettles(s);
    SerialRunAppend(s0, es, s, more, s');
    all := es + more;
  }

  lemma SettledIsQuiet(s: System)
    requires Settled(s)
    ensures Quiet(s)
  {
  }

  lemma {:induction false} SerialRunIsRun(s: System, es: seq<Event>, s': System)
    requires Sized(s) && SerialRun(s, es, s')
    ensures Run(s, es, s')
    decreases |es|
  {
    if es != [] {
      StepKeepsSized(s, es[0]);
      SerialRunIsRun(Step(s, es[0]).value, es[1..], s');
    }
  }
}
