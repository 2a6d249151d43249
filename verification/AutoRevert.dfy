/**
 * The auto-revert timer as an interleaved step machine.
 *
 * One worker thread, any number of concurrent `confirm` calls and one final
 * `drop` share a mutex-protected flag `cancelled`, a condition variable and an
 * atomic flag `fired`.  Every atomic action of every thread is one event; a
 * run is any sequence of enabled events, so all interleavings are covered.
 * A timed-out, a notified and a spurious wake-up are all possible.
 */
module AutoRevert {
  import opened Results

  type CallId = nat

  datatype Owner = Free | HeldByWorker | HeldByCall(id: CallId) | HeldByDrop

  /** Program counter of the worker thread. */
  datatype Worker =
    | Spawned                      // about to lock `cancelled`
    | Testing(timedOut: bool)      // holds the lock, at the head of the wait loop
    | Waiting                      // parked on the condition variable, lock released
    | Woken(timedOut: bool)        // unparked, must lock again
    | Deciding(timedOut: bool)     // holds the lock, has left the wait loop
    | Storing                      // holds the lock, about to set `fired`
    | Releasing                    // holds the lock, `fired` is set
    | Acting(progress: nat)        // runs the action, lock released
    | Leaving                      // holds the lock, will end without firing
    | Exited

  /** Program counter of one `confirm` call. */
  datatype Call = Entering | Holding | Stored | Unlocked | Notified | Returned(verdict: bool)

  /** Program counter of the destructor. */
  datatype Drop = Alive | DropEntering | DropHolding | DropStored | DropUnlocked | Joining | Dropped

  datatype Wake = Timeout | Notification | Spurious

  datatype Timer = Timer(
    cancelled: bool,
    fired: bool,
    expired: bool,                 // the deadline has passed
    signalled: bool,               // the parked worker has been notified
    owner: Owner,
    worker: Worker,
    calls: map<CallId, Call>,
    drop: Drop,
    runs: nat)                     // how often the action was started

  datatype Event =
    | Expire
    | WorkerLock | WorkerTest | WorkerWake(why: Wake) | WorkerDecide
    | WorkerStore | WorkerRelease | WorkerAct(last: bool) | WorkerLeave
    | CallBegin(id: CallId) | CallLock(id: CallId) | CallStore(id: CallId)
    | CallUnlock(id: CallId) | CallNotify(id: CallId) | CallLoad(id: CallId)
    | DropBegin | DropLock | DropStore | DropUnlock | DropNotify | DropJoin

  const Armed := Timer(false, false, false, false, Free, Spawned, map[], Alive, 0)

  predicate IsWorkerEvent(e: Event) {
    e.WorkerLock? || e.WorkerTest? || e.WorkerWake? || e.WorkerDecide? || e.WorkerStore?
    || e.WorkerRelease? || e.WorkerAct? || e.WorkerLeave?
  }

  predicate CallAt(t: Timer, id: CallId, pc: Call) {
    id in t.calls && t.calls[id] == pc
  }

  function SetCall(t: Timer, id: CallId, pc: Call): Timer {
    t.(calls := t.calls[id := pc])
  }

  /** The worker's own steps. */
  function WorkerStep(t: Timer, e: Event): Option<Timer>
    requires IsWorkerEvent(e)
  {
    match e
    case WorkerLock =>
      if t.owner.Free? && t.worker.Spawned? then Some(t.(owner := HeldByWorker, worker := Testing(false)))
      else if t.owner.Free? && t.worker.Woken? then
        Some(t.(owner := HeldByWorker, worker := Testing(t.worker.timedOut)))
      else None
    case WorkerTest =>
      if !t.worker.Testing? then None
      else if !t.worker.timedOut && !t.cancelled then
        Some(t.(owner := Free, worker := Waiting, signalled := false))
      else Some(t.(worker := Deciding(t.worker.timedOut)))
    case WorkerWake(why) =>
      if t.worker.Waiting? && (why.Timeout? ==> t.expired) && (why.Notification? ==> t.signalled)
      then Some(t.(worker := Woken(why.Timeout?)))
      else None
    case WorkerDecide =>
      if !t.worker.Deciding? then None
      else if t.worker.timedOut && !t.cancelled then Some(t.(worker := Storing))
      else Some(t.(worker := Leaving))
    case WorkerStore =>
      if t.worker.Storing? then Some(t.(fired := true, worker := Releasing)) else None
    case WorkerRelease =>
      if t.worker.Releasing? then Some(t.(owner := Free, worker := Acting(0), runs := t.runs + 1)) else None
    case WorkerAct(last) =>
      if t.worker.Acting? then Some(t.(worker := if last then Exited else Acting(t.worker.progress + 1))) else None
    case WorkerLeave =>
      if t.worker.Leaving? then Some(t.(owner := Free, worker := Exited)) else None
  }

  /** The steps of `confirm`, of the destructor, and the passing of the deadline. */
  function OtherStep(t: Timer, e: Event): Option<Timer>
    requires !IsWorkerEvent(e)
  {
    match e
    case Expire => Some(t.(expired := true))
    // `confirm` borrows the guard, so it cannot start once the destructor runs.
    case CallBegin(id) => if id !in t.calls && t.drop.Alive? then Some(SetCall(t, id, Entering)) else None
    case CallLock(id) =>
      if CallAt(t, id, Entering) && t.owner.Free? then Some(SetCall(t, id, Holding).(owner := HeldByCall(id))) else None
    case CallStore(id) =>
      if CallAt(t, id, Holding) then Some(SetCall(t, id, Stored).(cancelled := true)) else None
    case CallUnlock(id) =>
      if CallAt(t, id, Stored) then Some(SetCall(t, id, Unlocked).(owner := Free)) else None
    case CallNotify(id) =>
      if CallAt(t, id, Unlocked) then Some(SetCall(t, id, Notified).(signalled := true)) else None
    case CallLoad(id) =>
      if CallAt(t, id, Notified) then Some(SetCall(t, id, Returned(!t.fired))) else None
    // The destructor needs sole ownership: every `confirm` has returned.
    case DropBegin =>
      if t.drop.Alive? && (forall id | id in t.calls :: t.calls[id].Returned?)
      then Some(t.(drop := DropEntering)) else None
    case DropLock =>
      if t.drop.DropEntering? && t.owner.Free? then Some(t.(drop := DropHolding, owner := HeldByDrop)) else None
    case DropStore => if t.drop.DropHolding? then Some(t.(drop := DropStored, cancelled := true)) else None
    case DropUnlock => if t.drop.DropStored? then Some(t.(drop := DropUnlocked, owner := Free)) else None
    case DropNotify => if t.drop.DropUnlocked? then Some(t.(drop := Joining, signalled := true)) else None
    case DropJoin => if t.drop.Joining? && t.worker.Exited? then Some(t.(drop := Dropped)) else None
  }

  /** One atomic step of any thread; `None` when the event is not enabled. */
  function Step(t: Timer, e: Event): Option<Timer> {
    if IsWorkerEvent(e) then WorkerStep(t, e) else OtherStep(t, e)
  }

  /** `t'` is reached from `t` by the events `es`, in order. */
  ghost predicate Run(t: Timer, es: seq<Event>, t': Timer)
    decreases |es|
  {
    if es == [] then t' == t
    else Step(t, es[0]).Some? && Run(Step(t, es[0]).value, es[1..], t')
  }

  // ---------------------------------------------------------------- invariant

  predicate WorkerHolds(w: Worker) {
    w.Testing? || w.Deciding? || w.Storing? || w.Releasing? || w.Leaving?
  }

  predicate Committed(w: Worker) {
    w.Releasing? || w.Acting?
  }

  predicate CallHolds(c: Call) { c.Holding? || c.Stored? }

  predicate CallPastStore(c: Call) { c.Stored? || c.Unlocked? || c.Notified? || c.Returned? }

  predicate DropHolds(d: Drop) { d.DropHolding? || d.DropStored? }

  predicate DropPastStore(d: Drop) { d.DropStored? || d.DropUnlocked? || d.Joining? || d.Dropped? }

  /** The lock has exactly the owner the program counters say. */
  predicate LockInv(t: Timer) {
    && (t.owner.HeldByWorker? <==> WorkerHolds(t.worker))
    && (t.owner.HeldByDrop? <==> DropHolds(t.drop))
    && (t.owner.HeldByCall? ==> t.owner.id in t.calls && CallHolds(t.calls[t.owner.id]))
    && (forall id | id in t.calls && CallHolds(t.calls[id]) :: t.owner == HeldByCall(id))
  }

  /** What `cancelled` and `fired` say about the worker. */
  predicate FlagInv(t: Timer) {
    && (t.worker.Storing? || t.worker.Releasing? ==> !t.cancelled)
    && (Committed(t.worker) ==> t.fired)
    && (t.fired ==> Committed(t.worker) || t.worker.Exited?)
    && (t.worker.Exited? && !t.fired ==> t.cancelled)
    && (t.worker.Leaving? ==> t.cancelled)
    && (t.worker.Deciding? && !t.worker.timedOut ==> t.cancelled)
    && t.runs == (if t.worker.Acting? || (t.worker.Exited? && t.fired) then 1 else 0)
  }

  /** What each finished `confirm` or `drop` has established. */
  predicate VerdictInv(t: Timer) {
    && (forall id | id in t.calls && CallPastStore(t.calls[id]) :: t.cancelled)
    && (forall id | id in t.calls && t.calls[id].Returned? :: t.calls[id].verdict == !t.fired)
    && (DropPastStore(t.drop) ==> t.cancelled)
    && (t.drop.Dropped? ==> t.worker.Exited?)
    && (!t.drop.Alive? ==> forall id | id in t.calls :: t.calls[id].Returned?)
  }

  predicate Inv(t: Timer) {
    LockInv(t) && FlagInv(t) && VerdictInv(t)
  }

  lemma WorkerStepKeepsInv(t: Timer, e: Event, t': Timer)
    requires Inv(t) && IsWorkerEvent(e) && WorkerStep(t, e) == Some(t')
    ensures Inv(t')
  {
    assert t'.calls == t.calls && t'.drop == t.drop && t'.cancelled == t.cancelled;
  }

  lemma CallStepKeepsInv(t: Timer, e: Event, id: CallId, t': Timer)
    requires Inv(t)
    requires e in {CallBegin(id), CallLock(id), CallStore(id), CallUnlock(id), CallNotify(id), CallLoad(id)}
    requires OtherStep(t, e) == Some(t')
    ensures Inv(t')
  {
    assert t'.worker == t.worker && t'.drop == t.drop && t'.fired == t.fired;
    assert forall other | other != id :: other in t'.calls <==> other in t.calls;
    assert forall other | other != id && other in t.calls :: t'.calls[other] == t.calls[other];
  }

  lemma StepKeepsInv(t: Timer, e: Event)
    requires Inv(t) && Step(t, e).Some?
    ensures Inv(Step(t, e).value)
  {
    if IsWorkerEvent(e) {
      WorkerStepKeepsInv(t, e, Step(t, e).value);
    } else if e.CallBegin? || e.CallLock? || e.CallStore? || e.CallUnlock? || e.CallNotify? || e.CallLoad? {
      CallStepKeepsInv(t, e, e.id, Step(t, e).value);
    }
  }

  /** The invariant holds along every run. */
  lemma {:induction false} RunKeepsInv(t: Timer, es: seq<Event>, t': Timer)
    requires Inv(t) && Run(t, es, t')
    ensures Inv(t')
    decreases |es|
  {
    if es != [] {
      StepKeepsInv(t, es[0]);
      RunKeepsInv(Step(t, es[0]).value, es[1..], t');
    }
  }

  // ------------------------------------------------------- what confirm decides

  lemma CancelledStep(t: Timer, e: Event, t': Timer)
    requires FlagInv(t) && t.cancelled && Step(t, e) == Some(t')
    ensures t'.cancelled && t'.fired == t.fired
  {
  }

  /** Once `cancelled` is set, `fired` never changes again, and if it is unset the action never starts. */
  lemma {:induction false} CancelledFreezes(t: Timer, es: seq<Event>, t': Timer)
    requires Inv(t) && t.cancelled && Run(t, es, t')
    ensures t'.cancelled && t'.fired == t.fired
    ensures !t.fired ==> t'.runs == 0
    decreases |es|
  {
    if es != [] {
      StepKeepsInv(t, es[0]);
      CancelledStep(t, es[0], Step(t, es[0]).value);
      CancelledFreezes(Step(t, es[0]).value, es[1..], t');
    }
  }

  /**
   * In every interleaving, a `confirm` that has returned says `true` exactly
   * when the action has not fired, and that is final: no continuation starts
   * the action.  It says `false` exactly when the action has fired.
   */
  lemma ConfirmIsFinal(es: seq<Event>, t: Timer, id: CallId, more: seq<Event>, t': Timer)
    requires Run(Armed, es, t) && id in t.calls && t.calls[id].Returned?
    requires Run(t, more, t')
    ensures t.calls[id].verdict <==> !t.fired
    ensures t.calls[id].verdict ==> !t'.fired && t'.runs == 0
    ensures !t.calls[id].verdict ==> t'.fired
  {
    RunKeepsInv(Armed, es, t);
    CancelledFreezes(t, more, t');
  }

  /** All calls that returned agree, whatever the interleaving. */
  lemma ConfirmsAgree(es: seq<Event>, t: Timer, a: CallId, b: CallId)
    requires Run(Armed, es, t) && a in t.calls && b in t.calls
    requires t.calls[a].Returned? && t.calls[b].Returned?
    ensures t.calls[a] == t.calls[b]
  {
    RunKeepsInv(Armed, es, t);
  }

  /** The action is started at most once, and only by a fired timer. */
  lemma ActionAtMostOnce(es: seq<Event>, t: Timer)
    requires Run(Armed, es, t)
    ensures t.runs <= 1
    ensures t.runs == 1 ==> t.fired
  {
    RunKeepsInv(Armed, es, t);
  }

  /** When the destructor returns, the action is finished or will never run. */
  lemma DropJoinsWorker(es: seq<Event>, t: Timer, more: seq<Event>, t': Timer)
    requires Run(Armed, es, t) && t.drop.Dropped? && Run(t, more, t')
    ensures t.worker.Exited?
    ensures t.fired ==> t.runs == 1
    ensures t'.runs == t.runs && t'.worker.Exited?
  {
    RunKeepsInv(Armed, es, t);
    ExitedStays(t, more, t');
  }

  lemma ExitedStep(t: Timer, e: Event, t': Timer)
    requires t.worker.Exited? && Step(t, e) == Some(t')
    ensures t'.worker.Exited? && t'.runs == t.runs && t'.fired == t.fired
  {
    if IsWorkerEvent(e) {
    } else {
      match e case Expire => case _ =>
    }
  }

  lemma {:induction false} ExitedStays(t: Timer, es: seq<Event>, t': Timer)
    requires t.worker.Exited? && Run(t, es, t')
    ensures t'.worker.Exited? && t'.runs == t.runs && t'.fired == t.fired
    decreases |es|
  {
    if es != [] {
      ExitedStep(t, es[0], Step(t, es[0]).value);
      ExitedStays(Step(t, es[0]).value, es[1..], t');
    }
  }

  /** Events that begin something or run the action. */
  predicate Begins(e: Event) {
    e.CallBegin? || e.DropBegin? || e.WorkerAct?
  }

  predicate Quiet(es: seq<Event>) {
    forall e | e in es :: !Begins(e)
  }

  /** Nobody confirms: the worker waits out the deadline and starts the action. */
  lemma TimeoutFires() returns (es: seq<Event>, t: Timer)
    ensures Run(Armed, es, t) && t == Armed.(fired := true, expired := true, worker := Acting(0), runs := 1)
    ensures Quiet(es)
  {
    es, t := TimeoutWakes();
    es, t := Go(Armed, es, t, WorkerLock);
    es, t := Go(Armed, es, t, WorkerTest);
    assert t == Armed.(expired := true, worker := Deciding(true), owner := HeldByWorker);
    es, t := Go(Armed, es, t, WorkerDecide);
    es, t := Go(Armed, es, t, WorkerStore);
    es, t := Go(Armed, es, t, WorkerRelease);
  }

  lemma TimeoutWakes() returns (es: seq<Event>, t: Timer)
    ensures Run(Armed, es, t) && t == Armed.(expired := true, worker := Woken(true))
    ensures Quiet(es)
  {
    es, t := Go(Armed, [], Armed, WorkerLock);
    es, t := Go(Armed, es, t, WorkerTest);
    es, t := Go(Armed, es, t, Expire);
    es, t := Go(Armed, es, t, WorkerWake(Timeout));
  }

  /** A `confirm` up to the moment it has set the flag. */
  lemma ConfirmStores(u: Timer, id: CallId) returns (begun: Timer, es: seq<Event>, t: Timer)
    requires u.calls == map[] && u.owner.Free? && u.drop.Alive?
    ensures Step(u, CallBegin(id)) == Some(begun) && begun == SetCall(u, id, Entering) && Run(begun, es, t) && Quiet(es)
    ensures t == u.(calls := map[id := Stored], cancelled := true, owner := HeldByCall(id))
  {
    begun := SetCall(u, id, Entering);
    es, t := Go(begun, [], begun, CallLock(id));
    assert t == u.(calls := map[id := Holding], owner := HeldByCall(id));
    es, t := Go(begun, es, t, CallStore(id));
  }

  lemma ConfirmUnlocks(u: Timer, id: CallId) returns (begun: Timer, es: seq<Event>, t: Timer)
    requires u.calls == map[] && u.owner.Free? && u.drop.Alive?
    ensures Step(u, CallBegin(id)) == Some(begun) && begun == SetCall(u, id, Entering) && Run(begun, es, t) && Quiet(es)
    ensures t == u.(calls := map[id := Unlocked], cancelled := true)
  {
    begun, es, t := ConfirmStores(u, id);
    es, t := Go(begun, es, t, CallUnlock(id));
  }

  /** A `confirm` that nobody disturbs returns whether the timer has not fired. */
  lemma ConfirmReturns(u: Timer, id: CallId) returns (begun: Timer, es: seq<Event>, t: Timer)
    requires u.calls == map[] && u.owner.Free? && u.drop.Alive?
    ensures Step(u, CallBegin(id)) == Some(begun) && begun == SetCall(u, id, Entering) && Run(begun, es, t) && Quiet(es)
    ensures t == u.(calls := map[id := Returned(!u.fired)], cancelled := true, signalled := true)
  {
    begun, es, t := ConfirmUnlocks(u, id);
    es, t := Go(begun, es, t, CallNotify(id));
    assert t == u.(calls := map[id := Notified], cancelled := true, signalled := true);
    es, t := Go(begun, es, t, CallLoad(id));
  }

  /**
   * Reporting "fired" is not reporting "restored": a run in which `confirm`
   * returns `false` while the action has not made a single step yet.
   */
  lemma LateConfirmMayPrecedeAction()
    ensures exists es, t :: Run(Armed, es, t) && CallAt(t, 0, Returned(false)) && t.worker == Acting(0)
  {
    var es, u := TimeoutFires();
    var begun, rest, t := ConfirmReturns(u, 0);
    es, begun := Go(Armed, es, u, CallBegin(0));
    RunAppend(Armed, es, begun, rest, t);
  }

  /** Extends a run by one enabled event. */
  lemma Go(t0: Timer, es: seq<Event>, t: Timer, e: Event) returns (es': seq<Event>, t': Timer)
    requires Run(t0, es, t) && Step(t, e).Some?
    ensures t' == Step(t, e).value && Run(t0, es', t')
    ensures Quiet(es) && !Begins(e) ==> Quiet(es')
  {
    es', t' := es + [e], Step(t, e).value;
    assert Run(t, [e], t');
    RunAppend(t0, es, t, [e], t');
  }

  lemma {:induction false} RunAppend(t: Timer, es: seq<Event>, m: Timer, fs: seq<Event>, t': Timer)
    requires Run(t, es, m) && Run(m, fs, t')
    ensures Run(t, es + fs, t')
    decreases |es|
  {
    if es == [] {
      assert es + fs == fs;
    } else {
      assert (es + fs)[0] == es[0] && (es + fs)[1..] == es[1..] + fs;
      RunAppend(Step(t, es[0]).value, es[1..], m, fs, t');
    }
  }

  // ------------------------------------------------------------- no lost wake-up

  /** Somebody has set the flag and is still going to notify. */
  predicate NotifierPending(t: Timer) {
    || t.drop.DropStored? || t.drop.DropUnlocked?
    || exists id | id in t.calls :: t.calls[id].Stored? || t.calls[id].Unlocked?
  }

  /** A parked worker that should leave has been notified or is about to be. */
  predicate WakeInv(t: Timer) {
    t.worker.Waiting? && t.cancelled ==> t.signalled || NotifierPending(t)
  }

  lemma StepKeepsWakeInv(t: Timer, e: Event)
    requires Inv(t) && WakeInv(t) && Step(t, e).Some?
    ensures WakeInv(Step(t, e).value)
  {
    var t' := Step(t, e).value;
    if t'.worker.Waiting? && t'.cancelled && !t'.signalled {
      if e.CallStore? {
        assert t'.calls[e.id].Stored?;
      } else if e.CallUnlock? {
        assert t'.calls[e.id].Unlocked?;
      } else if !IsWorkerEvent(e) && t.cancelled && !t.drop.DropStored? && !t.drop.DropUnlocked? {
        var id :| id in t.calls && (t.calls[id].Stored? || t.calls[id].Unlocked?);
        assert t'.calls[id].Stored? || t'.calls[id].Unlocked?;
      }
    }
  }

  lemma {:induction false} RunKeepsWakeInv(t: Timer, es: seq<Event>, t': Timer)
    requires Inv(t) && WakeInv(t) && Run(t, es, t')
    ensures WakeInv(t')
    decreases |es|
  {
    if es != [] {
      StepKeepsInv(t, es[0]);
      StepKeepsWakeInv(t, es[0]);
      RunKeepsWakeInv(Step(t, es[0]).value, es[1..], t');
    }
  }

  /** How many own steps a worker that will not fire still has to make. */
  function Rank(w: Worker): nat {
    match w
    case Waiting => 5
    case Spawned => 4
    case Woken(_) => 4
    case Testing(_) => 3
    case Deciding(_) => 2
    case Leaving => 1
    case _ => 0
  }

  /** The worker can make a step now, and every step it can make ends the action or brings it nearer its end. */
  ghost predicate WorkerAdvances(t: Timer) {
    && (exists e :: IsWorkerEvent(e) && Step(t, e).Some?)
    && (forall e | IsWorkerEvent(e) && Step(t, e).Some? ::
          t.worker.Acting? || Rank(Step(t, e).value.worker) < Rank(t.worker))
  }

  lemma RankDrops(t: Timer, e: Event, t': Timer)
    requires FlagInv(t) && t.cancelled && IsWorkerEvent(e) && WorkerStep(t, e) == Some(t')
    ensures t.worker.Acting? || Rank(t'.worker) < Rank(t.worker)
  {
  }

  /** The next event of a worker that waits for nobody. */
  function NextEvent(w: Worker): Event {
    match w
    case Testing(_) => WorkerTest
    case Waiting => WorkerWake(Notification)
    case Deciding(_) => WorkerDecide
    case Acting(_) => WorkerAct(true)
    case Leaving => WorkerLeave
    case _ => WorkerLock
  }

  lemma JoinedAdvances(t: Timer)
    requires Inv(t) && WakeInv(t) && t.drop.Joining?
    ensures t.worker.Exited? || WorkerAdvances(t)
  {
    if !t.worker.Exited? {
      assert t.owner.Free? || WorkerHolds(t.worker);
      assert IsWorkerEvent(NextEvent(t.worker)) && WorkerStep(t, NextEvent(t.worker)).Some?;
      forall e | IsWorkerEvent(e) && Step(t, e).Some?
        ensures t.worker.Acting? || Rank(Step(t, e).value.worker) < Rank(t.worker)
      {
        RankDrops(t, e, Step(t, e).value);
      }
    }
  }

  /**
   * The destructor cannot hang: in every reachable state in which it waits for
   * the worker, the worker is done or can step (the lock is free or its own,
   * and no wake-up was lost), and all its steps lead to the end.
   */
  lemma JoinCannotHang(es: seq<Event>, t: Timer)
    requires Run(Armed, es, t) && t.drop.Joining?
    ensures t.worker.Exited? || WorkerAdvances(t)
  {
    RunKeepsInv(Armed, es, t);
    RunKeepsWakeInv(Armed, es, t);
    JoinedAdvances(t);
  }
}
