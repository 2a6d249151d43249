/**
 * Commit-confirm for one managed configuration, end to end.
 *
 * Request handlers (edits with and without `?hold`, and confirmations) and
 * timer workers interleave freely; each event below is one atomic step of one
 * of them.  A timer is an `AutoRevert.Timer` and moves only by that machine's
 * own steps, so the facts proved there hold here for every timer.
 *
 * The last fields of `System` are bookkeeping: no step reads them.
 */
module CommitConfirm {
  import opened Results
  import opened ConfigDisk
  import AutoRevert

  type HandlerId = nat
  type TimerId = nat

  datatype PostReply = PendingReply(t: TimerId) | OkReply | ErrorReply

  datatype ConfirmReply = ConfirmedReply(t: TimerId) | AlreadyReverted(t: TimerId) | NoPending

  /** Where a request handler stands. */
  datatype Handler =
    | PostBackup(text: string, hold: bool)
    | PostWrite(text: string, hold: bool)
    | PostRestart(text: string, hold: bool)
    | PostVerify(text: string, hold: bool)
    | PostRestore
    | PostRestartOld
    | PostDiscard
    | PostArm(text: string)
    | PostInsert(t: TimerId)                          // owns the new guard, wants the map lock
    | PostReplace(t: TimerId, replaced: Option<TimerId>) // holds the map lock, drops the replaced guard
    | PostDone(postReply: PostReply)
    | ConfirmTake
    | ConfirmCall(t: TimerId)
    | ConfirmDiscard(t: TimerId)
    | ConfirmDrop(t: TimerId, reply: ConfirmReply)
    | ConfirmDone(reply: ConfirmReply)

  /** Who owns a timer's guard object. */
  datatype GuardOwner = InMap | With(h: HandlerId) | Gone(h: HandlerId)

  datatype System = System(
    disk: Disk,
    timers: seq<AutoRevert.Timer>,
    pending: Option<TimerId>,
    mapLock: Option<HandlerId>,
    handlers: map<HandlerId, Handler>,
    owners: seq<GuardOwner>,        // bookkeeping from here on
    texts: seq<string>,             // the text each timer was armed for
    trusted: string,                // last text that was committed or confirmed
    base: string,                   // `trusted` when the latest edit took its backup
    edit: string,                   // text of the latest edit, the last to take its backup
    accepted: bool,                 // the latest held edit was confirmed in time
    current: Option<HandlerId>,     // handler of the latest edit
    fault: bool)                    // a best-effort step or a write has failed

  datatype Event =
    | StartPost(h: HandlerId, text: string, hold: bool)
    | StartConfirm(h: HandlerId)
    | Backup(h: HandlerId, io: Io)
    | Write(h: HandlerId, io: Io)
    | RestartNew(h: HandlerId, ok: bool)
    | Verify(h: HandlerId, up: bool)
    | Restore(h: HandlerId, io: Io)
    | RestartOld(h: HandlerId, ok: bool)
    | Discard(h: HandlerId, ok: bool)
    | Arm(h: HandlerId)
    | Insert(h: HandlerId)
    | FinishPost(h: HandlerId)
    | Take(h: HandlerId)
    | BeginCall(h: HandlerId)
    | Verdict(h: HandlerId)
    | BeginDrop(h: HandlerId)
    | FinishConfirm(h: HandlerId)
    | Tick(i: TimerId, e: AutoRevert.Event)
    | Act(i: TimerId, io: Io, ok: bool)

  predicate At(s: System, h: HandlerId, pc: Handler) {
    h in s.handlers && s.handlers[h] == pc
  }

  function Goto(s: System, h: HandlerId, pc: Handler): System {
    s.(handlers := s.handlers[h := pc])
  }

  /** The guard a handler owns, if any. */
  function Owned(p: Handler): Option<TimerId> {
    match p
    case PostInsert(t) => Some(t)
    case PostReplace(_, replaced) => replaced
    case ConfirmCall(t) => Some(t)
    case ConfirmDiscard(t) => Some(t)
    case ConfirmDrop(t, _) => Some(t)
    case _ => None
  }

  /** The handler's guard is being destroyed. */
  predicate Dropping(p: Handler) {
    p.PostReplace? || p.ConfirmDrop?
  }

  predicate IsEditEvent(e: Event) {
    e.Backup? || e.Write? || e.RestartNew? || e.Verify? || e.Restore? || e.RestartOld?
  }

  predicate IsGuardEvent(e: Event) {
    e.Arm? || e.Insert? || e.FinishPost? || e.Take? || e.BeginCall? || e.Verdict? || e.BeginDrop? || e.FinishConfirm?
  }

  /** Steps of an edit request on the file and the service, up to success or rollback. */
  function EditStep(s: System, e: Event): Option<System>
    requires IsEditEvent(e)
  {
    if e.h !in s.handlers then None else
    match (e, s.handlers[e.h])
    case (Backup(h, io), PostBackup(text, hold)) =>
      var s' := s.(disk := BackUp(s.disk, io), base := s.trusted, edit := text, accepted := false, current := Some(h));
      Some(Goto(s', h, if CopyWorks(s.disk.file, io) then PostWrite(text, hold) else PostDone(ErrorReply)))
    case (Write(h, io), PostWrite(text, hold)) =>
      var s' := s.(disk := Overwrite(s.disk, text, io), fault := s.fault || io.Failed?);
      Some(Goto(s', h, if io.Done? then PostRestart(text, hold) else PostDone(ErrorReply)))
    case (RestartNew(h, ok), PostRestart(text, hold)) =>
      var s' := s.(disk := ConfigDisk.Restart(s.disk, ok));
      Some(Goto(s', h, if ok then PostVerify(text, hold) else PostRestore))
    case (Verify(h, up), PostVerify(text, hold)) =>
      if !up then Some(Goto(s, h, PostRestore))
      else if hold then Some(Goto(s, h, PostArm(text)))
      else Some(Goto(s.(trusted := text), h, PostDiscard))
    case (Restore(h, io), PostRestore) =>
      var s' := s.(disk := RestoreBackup(s.disk, io), fault := s.fault || !CopyWorks(s.disk.bak, io));
      Some(Goto(s', h, PostRestartOld))
    case (RestartOld(h, ok), PostRestartOld) =>
      var s' := s.(disk := ConfigDisk.Restart(s.disk, ok), fault := s.fault || !ok);
      Some(Goto(s', h, PostDone(ErrorReply)))
    case _ => None
  }

  /** A new timer exists from here on; its worker may run before the guard is in the map. */
  function Armed(s: System, h: HandlerId, text: string): System {
    Goto(s.(timers := s.timers + [AutoRevert.Armed], owners := s.owners + [With(h)], texts := s.texts + [text]),
         h, PostInsert(|s.timers|))
  }

  /** The text a timer was armed for. */
  function TextOf(s: System, t: TimerId): string {
    if t < |s.texts| then s.texts[t] else ""
  }

  /** A confirmation in time: the text of its timer is trusted from here on. */
  function Accepted(s: System, t: TimerId): System {
    s.(trusted := TextOf(s, t), accepted := s.accepted || CurrentTimer(s) == Some(t))
  }

  /** The guard goes into the map; a guard found there is handed to the handler, which keeps the map locked. */
  function Inserted(s: System, h: HandlerId, t: TimerId): System
    requires t < |s.owners| && (s.pending.Some? ==> s.pending.value < |s.owners|)
  {
    var owners := if s.pending.Some? then s.owners[s.pending.value := With(h)] else s.owners;
    Goto(s.(pending := Some(t), mapLock := Some(h), owners := owners[t := InMap]), h, PostReplace(t, s.pending))
  }

  function PostFinished(s: System, h: HandlerId, t: TimerId, replaced: Option<TimerId>): System
    requires replaced.Some? ==> replaced.value < |s.owners|
  {
    var owners := if replaced.Some? then s.owners[replaced.value := Gone(h)] else s.owners;
    Goto(s.(mapLock := None, owners := owners), h, PostDone(PendingReply(t)))
  }

  function Taken(s: System, h: HandlerId, t: TimerId): System
    requires t < |s.owners|
  {
    Goto(s.(pending := None, owners := s.owners[t := With(h)]), h, ConfirmCall(t))
  }

  function ConfirmFinished(s: System, h: HandlerId, t: TimerId, reply: ConfirmReply): System
    requires t < |s.owners|
  {
    Goto(s.(owners := s.owners[t := Gone(h)]), h, ConfirmDone(reply))
  }

  /** Steps on the pending map and on guards. */
  function GuardStep(s: System, e: Event): Option<System>
    requires |s.owners| == |s.timers|
    requires IsGuardEvent(e)
  {
    if e.h !in s.handlers then None else
    match (e, s.handlers[e.h])
    case (Arm(h), PostArm(text)) => Some(Armed(s, h, text))
    case (Insert(h), PostInsert(t)) =>
      if s.mapLock.Some? || t >= |s.timers| || (s.pending.Some? && s.pending.value >= |s.timers|) then None
      else Some(Inserted(s, h, t))
    case (FinishPost(h), PostReplace(t, replaced)) =>
      if replaced.None? || (replaced.value < |s.timers| && s.timers[replaced.value].drop.Dropped?)
      then Some(PostFinished(s, h, t, replaced)) else None
    case (Take(h), ConfirmTake) =>
      if s.mapLock.Some? then None
      else if s.pending.None? then Some(Goto(s, h, ConfirmDone(NoPending)))
      else if s.pending.value >= |s.timers| then None
      else Some(Taken(s, h, s.pending.value))
    case (BeginCall(h), ConfirmCall(t)) =>
      TickTimer(s, t, AutoRevert.CallBegin(h))
    case (Verdict(h), ConfirmCall(t)) =>
      if t >= |s.timers| || h !in s.timers[t].calls || !s.timers[t].calls[h].Returned? then None
      else if s.timers[t].calls[h].verdict then
        Some(Goto(Accepted(s, t), h, ConfirmDiscard(t)))
      else Some(Goto(s, h, ConfirmDrop(t, AlreadyReverted(t))))
    case (BeginDrop(h), PostReplace(_, replaced)) =>
      if replaced.Some? then TickTimer(s, replaced.value, AutoRevert.DropBegin) else None
    case (BeginDrop(h), ConfirmDrop(t, _)) =>
      TickTimer(s, t, AutoRevert.DropBegin)
    case (FinishConfirm(h), ConfirmDrop(t, reply)) =>
      if t < |s.timers| && s.timers[t].drop.Dropped?
      then Some(ConfirmFinished(s, h, t, reply)) else None
    case _ => None
  }

  function TickTimer(s: System, i: TimerId, e: AutoRevert.Event): Option<System> {
    if i < |s.timers| && AutoRevert.Step(s.timers[i], e).Some?
    then Some(s.(timers := s.timers[i := AutoRevert.Step(s.timers[i], e).value])) else None
  }

  /** The action of a fired timer: restore, restart, discard the backup, end. */
  function ActStep(s: System, i: TimerId, io: Io, ok: bool): Option<System> {
    if i >= |s.timers| || !s.timers[i].worker.Acting? then None else
    var n := s.timers[i].worker.progress;
    var s' := s.(timers := s.timers[i := AutoRevert.Step(s.timers[i], AutoRevert.WorkerAct(n >= 2)).value]);
    if n == 0 then Some(s'.(disk := RestoreBackup(s.disk, io), fault := s.fault || !CopyWorks(s.disk.bak, io)))
    else if n == 1 then Some(s'.(disk := ConfigDisk.Restart(s.disk, ok), fault := s.fault || !ok))
    else Some(s'.(disk := DiscardBackup(s.disk, ok), fault := s.fault || !ok))
  }

  /** One atomic step of any handler or worker; `None` when it is not enabled. */
  function Step(s: System, e: Event): Option<System>
    requires Sized(s)
  {
    if IsEditEvent(e) then EditStep(s, e)
    else if IsGuardEvent(e) then GuardStep(s, e)
    else OtherStep(s, e)
  }

  /** Starting a request, discarding the backup, and the timers' own steps. */
  function OtherStep(s: System, e: Event): Option<System> {
    match e
    case StartPost(h, text, hold) =>
      if h in s.handlers then None
      else Some(Goto(s, h, PostBackup(text, hold)))
    case StartConfirm(h) =>
      if h in s.handlers then None else Some(Goto(s, h, ConfirmTake))
    case Discard(h, ok) =>
      var s' := s.(disk := DiscardBackup(s.disk, ok), fault := s.fault || !ok);
      if h !in s.handlers then None
      else if s.handlers[h].PostDiscard? then Some(Goto(s', h, PostDone(OkReply)))
      else if s.handlers[h].ConfirmDiscard? then
        Some(Goto(s', h, ConfirmDrop(s.handlers[h].t, ConfirmedReply(s.handlers[h].t))))
      else None
    case Tick(i, te) =>
      // Beginning a call or a drop and running the action are steps of their own.
      if te.CallBegin? || te.DropBegin? || te.WorkerAct? then None else TickTimer(s, i, te)
    case Act(i, io, ok) => ActStep(s, i, io, ok)
    case _ => None
  }

  predicate Sized(s: System) {
    |s.owners| == |s.timers| && |s.texts| == |s.timers|
  }

  lemma StepKeepsSized(s: System, e: Event)
    requires Sized(s) && Step(s, e).Some?
    ensures Sized(Step(s, e).value)
  {
    if IsEditEvent(e) {
    } else if IsGuardEvent(e) {
    } else {
    }
  }

  /** No request in flight, nothing pending, the service runs the text on disk. */
  ghost predicate Initial(s: System) {
    && s.disk.file == Some(s.trusted) && s.disk.served == Some(s.trusted)
    && s.timers == [] && s.owners == [] && s.texts == [] && s.pending == None && s.mapLock == None
    && s.handlers == map[] && s.current == None && !s.accepted && !s.fault
    && s.base == s.trusted && s.edit == s.trusted
  }

  ghost predicate Run(s: System, es: seq<Event>, s': System)
    requires Sized(s)
    decreases |es|
  {
    if es == [] then s' == s
    else Step(s, es[0]).Some? && (StepKeepsSized(s, es[0]); Run(Step(s, es[0]).value, es[1..], s'))
  }

  // ------------------------------------------------- ownership, in every run

  /** Only the owner calls `confirm` on guard `i`. */
  predicate CallOk(s: System, i: TimerId, h: HandlerId)
    requires i < |s.timers| == |s.owners|
  {
    && (s.owners[i] == With(h) || s.owners[i] == Gone(h))
    && h in s.handlers
    && (s.handlers[h].ConfirmCall? || s.handlers[h].ConfirmDiscard? || s.handlers[h].ConfirmDrop? || s.handlers[h].ConfirmDone?)
  }

  /** Guard `i` has one owner, as Rust's ownership rules demand, and only that owner uses or destroys it. */
  predicate TimerOk(s: System, i: TimerId)
    requires i < |s.timers| == |s.owners|
  {
    && (match s.owners[i]
        case InMap => s.pending == Some(i) && s.timers[i].drop.Alive?
        case With(h) =>
          && h in s.handlers && Owned(s.handlers[h]) == Some(i)
          && (s.timers[i].drop.Alive? || Dropping(s.handlers[h]))
        case Gone(_) => s.timers[i].drop.Dropped?)
    && (forall h | h in s.timers[i].calls :: CallOk(s, i, h))
  }

  /** What a request knows about the timer it deals with. */
  predicate Learnt(s: System, h: HandlerId, p: Handler)
    requires |s.owners| == |s.timers|
  {
    match p
    case ConfirmDiscard(t) => t < |s.timers| && s.timers[t].cancelled && !s.timers[t].fired
    case ConfirmDrop(t, r) =>
      t < |s.timers| && s.timers[t].cancelled && r == (if s.timers[t].fired then AlreadyReverted(t) else ConfirmedReply(t))
    case ConfirmDone(ConfirmedReply(t)) =>
      t < |s.timers| && s.owners[t] == Gone(h) && s.timers[t].cancelled && !s.timers[t].fired
    case ConfirmDone(AlreadyReverted(t)) =>
      t < |s.timers| && s.owners[t] == Gone(h) && s.timers[t].cancelled && s.timers[t].fired
    case PostReplace(t, _) => t < |s.timers| && s.mapLock == Some(h)
    case PostDone(PendingReply(t)) => t < |s.timers|
    case _ => true
  }

  /** Whatever handler `h` owns is recorded as its own, and what it has learnt is so. */
  predicate HandlerOk(s: System, h: HandlerId)
    requires h in s.handlers && |s.owners| == |s.timers|
  {
    && (Owned(s.handlers[h]).Some? ==>
          Owned(s.handlers[h]).value < |s.owners| && s.owners[Owned(s.handlers[h]).value] == With(h))
    && Learnt(s, h, s.handlers[h])
  }

  predicate Linked(s: System) {
    && Sized(s)
    && (s.pending.Some? ==> s.pending.value < |s.timers| && s.owners[s.pending.value] == InMap)
    && (s.mapLock.Some? ==> s.mapLock.value in s.handlers && s.handlers[s.mapLock.value].PostReplace?)
    && (forall i | 0 <= i < |s.timers| :: TimerOk(s, i))
    && (forall h | h in s.handlers :: HandlerOk(s, h))
  }

  /** Every timer is in a state its own machine can reach. */
  predicate TimersInv(s: System) {
    forall i | 0 <= i < |s.timers| :: AutoRevert.Inv(s.timers[i])
  }

  predicate Inv(s: System) {
    TimersInv(s) && Linked(s)
  }

  /** `Linked` looks only at timers, guards, the map, its lock and the handlers. */
  predicate SameLinks(m: System, s': System) {
    && s'.timers == m.timers && s'.pending == m.pending && s'.mapLock == m.mapLock
    && s'.handlers == m.handlers && s'.owners == m.owners && s'.texts == m.texts
  }

  lemma SameLinksKeepsLinked(m: System, s': System)
    requires Linked(m) && SameLinks(m, s')
    ensures Linked(s')
  {
    forall i | 0 <= i < |s'.timers| ensures TimerOk(s', i) { assert TimerOk(m, i); }
    forall g | g in s'.handlers ensures HandlerOk(s', g) { assert HandlerOk(m, g); }
  }

  /** What a step that begins no call and no drop can change in a timer. */
  predicate Evolves(t: AutoRevert.Timer, t': AutoRevert.Timer) {
    && t'.calls.Keys == t.calls.Keys
    && (t'.drop.Alive? <==> t.drop.Alive?)
    && (t.drop.Dropped? ==> t'.drop.Dropped?)
    && (t.cancelled ==> t'.cancelled && t'.fired == t.fired)
  }

  lemma TimerStepEvolves(t: AutoRevert.Timer, e: AutoRevert.Event, t': AutoRevert.Timer)
    requires AutoRevert.Inv(t) && AutoRevert.Step(t, e) == Some(t') && !e.CallBegin? && !e.DropBegin?
    ensures Evolves(t, t')
  {
    if AutoRevert.IsWorkerEvent(e) {
    } else {
      match e case Expire => case _ =>
    }
  }

  lemma TickKeepsLinked(s: System, i: TimerId, t': AutoRevert.Timer)
    requires Linked(s) && i < |s.timers| && Evolves(s.timers[i], t')
    ensures Linked(s.(timers := s.timers[i := t']))
  {
    var s' := s.(timers := s.timers[i := t']);
    forall j | 0 <= j < |s'.timers| ensures TimerOk(s', j) {
      assert TimerOk(s, j);
      assert forall g :: g in t'.calls <==> g in t'.calls.Keys;
    }
    forall g | g in s'.handlers ensures HandlerOk(s', g) { assert HandlerOk(s, g); }
  }

  /** A handler may move between two places that own the same guard. */
  lemma MoveKeepsLinked(s: System, h: HandlerId, p: Handler)
    requires Linked(s) && Learnt(s, h, p) && !p.PostReplace?
    requires Owned(p) == if h in s.handlers then Owned(s.handlers[h]) else None
    requires h in s.handlers ==> !Dropping(s.handlers[h]) && !s.handlers[h].ConfirmDone?
    requires h in s.handlers && (s.handlers[h].ConfirmCall? || s.handlers[h].ConfirmDiscard?) ==> p.ConfirmDiscard? || p.ConfirmDrop?
    ensures Linked(Goto(s, h, p))
  {
    var s' := Goto(s, h, p);
    forall i | 0 <= i < |s'.timers| ensures TimerOk(s', i) { assert TimerOk(s, i); }
    forall g | g in s'.handlers ensures HandlerOk(s', g) { assert g != h ==> HandlerOk(s, g); }
    assert h in s.handlers ==> HandlerOk(s, h);
  }

  lemma ArmedLinked(s: System, h: HandlerId, text: string)
    requires Linked(s) && At(s, h, PostArm(text))
    ensures Linked(Armed(s, h, text))
  {
    var s' := Armed(s, h, text);
    assert HandlerOk(s, h);
    forall i | 0 <= i < |s'.timers| ensures TimerOk(s', i) { assert i < |s.timers| ==> TimerOk(s, i); }
    forall g | g in s'.handlers ensures HandlerOk(s', g) { assert HandlerOk(s, g); }
  }

  lemma InsertedTimers(s: System, h: HandlerId, t: TimerId)
    requires Linked(s) && At(s, h, PostInsert(t)) && s.mapLock.None? && t < |s.owners|
    ensures var s' := Inserted(s, h, t); forall i | 0 <= i < |s.timers| :: TimerOk(s', i)
  {
    var s' := Inserted(s, h, t);
    assert HandlerOk(s, h);
    forall i | 0 <= i < |s'.timers| ensures TimerOk(s', i) { assert TimerOk(s, i); }
  }

  lemma InsertedLinked(s: System, h: HandlerId, t: TimerId)
    requires Linked(s) && At(s, h, PostInsert(t)) && s.mapLock.None? && t < |s.owners|
    ensures Linked(Inserted(s, h, t))
  {
    var s' := Inserted(s, h, t);
    InsertedTimers(s, h, t);
    assert HandlerOk(s, h);
    forall g | g in s'.handlers ensures HandlerOk(s', g) { assert HandlerOk(s, g); }
  }

  lemma PostFinishedTimers(s: System, h: HandlerId, t: TimerId, replaced: Option<TimerId>)
    requires Linked(s) && At(s, h, PostReplace(t, replaced))
    requires replaced.Some? ==> replaced.value < |s.timers| && s.timers[replaced.value].drop.Dropped?
    ensures var s' := PostFinished(s, h, t, replaced); forall i | 0 <= i < |s.timers| :: TimerOk(s', i)
  {
    assert HandlerOk(s, h);
    var s' := PostFinished(s, h, t, replaced);
    forall i | 0 <= i < |s'.timers| ensures TimerOk(s', i) { assert TimerOk(s, i); }
  }

  lemma PostFinishedLinked(s: System, h: HandlerId, t: TimerId, replaced: Option<TimerId>)
    requires Linked(s) && At(s, h, PostReplace(t, replaced))
    requires replaced.Some? ==> replaced.value < |s.timers| && s.timers[replaced.value].drop.Dropped?
    ensures Linked(PostFinished(s, h, t, replaced))
  {
    PostFinishedTimers(s, h, t, replaced);
    assert HandlerOk(s, h);
    var s' := PostFinished(s, h, t, replaced);
    forall g | g in s'.handlers ensures HandlerOk(s', g) { assert HandlerOk(s, g); }
  }

  lemma TakenLinked(s: System, h: HandlerId, t: TimerId)
    requires Linked(s) && At(s, h, ConfirmTake) && s.pending == Some(t)
    ensures Linked(Taken(s, h, t))
  {
    var s' := Taken(s, h, t);
    assert HandlerOk(s, h);
    forall i | 0 <= i < |s'.timers| ensures TimerOk(s', i) { assert i < |s.timers| ==> TimerOk(s, i); }
    forall g | g in s'.handlers ensures HandlerOk(s', g) { assert HandlerOk(s, g); }
  }

  lemma ConfirmFinishedLinked(s: System, h: HandlerId, t: TimerId, reply: ConfirmReply)
    requires Linked(s) && At(s, h, ConfirmDrop(t, reply)) && t < |s.timers| && s.timers[t].drop.Dropped?
    ensures Linked(ConfirmFinished(s, h, t, reply))
  {
    var s' := ConfirmFinished(s, h, t, reply);
    assert HandlerOk(s, h);
    forall i | 0 <= i < |s'.timers| ensures TimerOk(s', i) { assert i < |s.timers| ==> TimerOk(s, i); }
    forall g | g in s'.handlers ensures HandlerOk(s', g) { assert HandlerOk(s, g); }
  }

  lemma BeginCallLinked(s: System, h: HandlerId, t: TimerId, t': AutoRevert.Timer)
    requires Linked(s) && At(s, h, ConfirmCall(t)) && t < |s.timers|
    requires AutoRevert.Step(s.timers[t], AutoRevert.CallBegin(h)) == Some(t')
    ensures Linked(s.(timers := s.timers[t := t']))
  {
    var s' := s.(timers := s.timers[t := t']);
    assert HandlerOk(s, h);
    forall i | 0 <= i < |s'.timers| ensures TimerOk(s', i) { assert i < |s.timers| ==> TimerOk(s, i); }
    forall g | g in s'.handlers ensures HandlerOk(s', g) { assert HandlerOk(s, g); }
  }

  lemma BeginDropLinked(s: System, h: HandlerId, t: TimerId, t': AutoRevert.Timer)
    requires Linked(s) && h in s.handlers && Owned(s.handlers[h]) == Some(t) && Dropping(s.handlers[h])
    requires t < |s.timers| && AutoRevert.Step(s.timers[t], AutoRevert.DropBegin) == Some(t')
    ensures Linked(s.(timers := s.timers[t := t']))
  {
    var s' := s.(timers := s.timers[t := t']);
    assert HandlerOk(s, h);
    forall i | 0 <= i < |s'.timers| ensures TimerOk(s', i) { assert i < |s.timers| ==> TimerOk(s, i); }
    forall g | g in s'.handlers ensures HandlerOk(s', g) { assert HandlerOk(s, g); }
  }

  /** A returned `confirm` has cancelled the timer and knows whether it fired. */
  lemma ReturnedKnows(t: AutoRevert.Timer, h: HandlerId)
    requires AutoRevert.Inv(t) && h in t.calls && t.calls[h].Returned?
    ensures t.cancelled && t.calls[h].verdict == !t.fired
  {
  }

  lemma VerdictKeepsLinked(s: System, h: HandlerId, s': System)
    requires Inv(s) && GuardStep(s, Verdict(h)) == Some(s')
    ensures Linked(s')
  {
    var t := s.handlers[h].t;
    ReturnedKnows(s.timers[t], h);
    var p := s'.handlers[h];
    assert p == if s.timers[t].calls[h].verdict then ConfirmDiscard(t) else ConfirmDrop(t, AlreadyReverted(t));
    MoveKeepsLinked(s, h, p);
    SameLinksKeepsLinked(Goto(s, h, p), s');
  }

  /** An edit's steps own no guard and touch no timer. */
  lemma EditStepShape(s: System, e: Event, s': System)
    requires IsEditEvent(e) && EditStep(s, e) == Some(s')
    ensures e.h in s.handlers && e.h in s'.handlers && SameLinks(Goto(s, e.h, s'.handlers[e.h]), s')
    ensures Owned(s.handlers[e.h]).None? && Owned(s'.handlers[e.h]).None?
    ensures !Dropping(s.handlers[e.h]) && !s.handlers[e.h].ConfirmDone? && !s'.handlers[e.h].PostReplace?
    ensures s'.handlers[e.h].ConfirmDone? || s'.handlers[e.h].PostDone? ==> s'.handlers[e.h] == PostDone(ErrorReply)
    ensures !s'.handlers[e.h].ConfirmDrop? && !s'.handlers[e.h].ConfirmDiscard?
  {
    match e
    case Backup(_, _) =>
    case Write(_, _) =>
    case RestartNew(_, _) =>
    case Verify(_, _) =>
    case Restore(_, _) =>
    case RestartOld(_, _) =>
  }

  lemma EditStepKeepsLinked(s: System, e: Event, s': System)
    requires Linked(s) && IsEditEvent(e) && EditStep(s, e) == Some(s')
    ensures Linked(s')
  {
    EditStepShape(s, e, s');
    var p := s'.handlers[e.h];
    MoveKeepsLinked(s, e.h, p);
    SameLinksKeepsLinked(Goto(s, e.h, p), s');
  }

  lemma GuardStepKeepsLinked(s: System, e: Event, s': System)
    requires Inv(s) && IsGuardEvent(e) && GuardStep(s, e) == Some(s')
    ensures Linked(s')
  {
    var p := s.handlers[e.h];
    match e
    case Arm(h) => ArmedLinked(s, h, p.text);
    case Insert(h) => InsertedLinked(s, h, p.t);
    case FinishPost(h) => PostFinishedLinked(s, h, p.t, p.replaced);
    case Take(h) =>
      if s.pending.None? {
        MoveKeepsLinked(s, h, ConfirmDone(NoPending));
      } else {
        TakenLinked(s, h, s.pending.value);
      }
    case BeginCall(h) => BeginCallLinked(s, h, p.t, s'.timers[p.t]);
    case Verdict(h) => VerdictKeepsLinked(s, h, s');
    case BeginDrop(h) => BeginDropLinked(s, h, Owned(p).value, s'.timers[Owned(p).value]);
    case FinishConfirm(h) => ConfirmFinishedLinked(s, h, p.t, p.reply);
    case _ =>
  }

  lemma TimerKeepsLinked(s: System, i: TimerId, e: AutoRevert.Event, t': AutoRevert.Timer, s': System)
    requires Inv(s) && i < |s.timers| && !e.CallBegin? && !e.DropBegin? && AutoRevert.Step(s.timers[i], e) == Some(t')
    requires SameLinks(s.(timers := s.timers[i := t']), s')
    ensures Linked(s')
  {
    TimerStepEvolves(s.timers[i], e, t');
    TickKeepsLinked(s, i, t');
    SameLinksKeepsLinked(s.(timers := s.timers[i := t']), s');
  }

  lemma DiscardKeepsLinked(s: System, h: HandlerId, ok: bool, s': System)
    requires Linked(s) && OtherStep(s, Discard(h, ok)) == Some(s')
    ensures Linked(s')
  {
    assert HandlerOk(s, h);
    var p := s'.handlers[h];
    if s.handlers[h].PostDiscard? {
      assert p == PostDone(OkReply);
    }
    MoveKeepsLinked(s, h, p);
    SameLinksKeepsLinked(Goto(s, h, p), s');
  }

  lemma StartKeepsLinked(s: System, e: Event, s': System)
    requires Linked(s) && (e.StartPost? || e.StartConfirm?) && OtherStep(s, e) == Some(s')
    ensures Linked(s')
  {
    var p := if e.StartPost? then PostBackup(e.text, e.hold) else ConfirmTake;
    MoveKeepsLinked(s, e.h, p);
    SameLinksKeepsLinked(Goto(s, e.h, p), s');
  }

  lemma OtherStepKeepsLinked(s: System, e: Event, s': System)
    requires Inv(s) && !IsEditEvent(e) && !IsGuardEvent(e) && OtherStep(s, e) == Some(s')
    ensures Linked(s')
  {
    match e
    case Discard(h, ok) => DiscardKeepsLinked(s, h, ok, s');
    case Tick(i, te) => TimerKeepsLinked(s, i, te, AutoRevert.Step(s.timers[i], te).value, s');
    case Act(i, _, _) =>
      var te := AutoRevert.WorkerAct(s.timers[i].worker.progress >= 2);
      TimerKeepsLinked(s, i, te, AutoRevert.Step(s.timers[i], te).value, s');
    case _ => StartKeepsLinked(s, e, s');
  }

  /** Timer `i` moved by a step of its own machine. */
  ghost predicate Moved(t: AutoRevert.Timer, t': AutoRevert.Timer) {
    exists te :: AutoRevert.Step(t, te) == Some(t')
  }

  lemma TickMoves(s: System, i: TimerId, te: AutoRevert.Event, s': System)
    requires TickTimer(s, i, te) == Some(s')
    ensures s'.timers == s.timers[i := s'.timers[i]] && Moved(s.timers[i], s'.timers[i])
  {
  }

  lemma GuardStepMovesTimers(s: System, e: Event, s': System)
    requires Sized(s) && IsGuardEvent(e) && GuardStep(s, e) == Some(s')
    ensures |s'.timers| == |s.timers| + (if e.Arm? then 1 else 0)
    ensures e.Arm? ==> s'.timers[|s.timers|] == AutoRevert.Armed
    ensures forall i | 0 <= i < |s.timers| :: s'.timers[i] == s.timers[i] || Moved(s.timers[i], s'.timers[i])
  {
    match e
    case BeginCall(h) => TickMoves(s, s.handlers[h].t, AutoRevert.CallBegin(h), s');
    case BeginDrop(h) => TickMoves(s, Owned(s.handlers[h]).value, AutoRevert.DropBegin, s');
    case _ =>
  }

  /** A step of the system is, for each timer, a step of that timer's machine or none; new timers are freshly armed. */
  lemma StepMovesTimers(s: System, e: Event, s': System)
    requires Sized(s) && Step(s, e) == Some(s')
    ensures |s'.timers| == |s.timers| + (if e.Arm? then 1 else 0)
    ensures e.Arm? ==> s'.timers[|s.timers|] == AutoRevert.Armed
    ensures forall i | 0 <= i < |s.timers| :: s'.timers[i] == s.timers[i] || Moved(s.timers[i], s'.timers[i])
  {
    if IsEditEvent(e) {
      EditStepShape(s, e, s');
    } else if IsGuardEvent(e) {
      GuardStepMovesTimers(s, e, s');
    } else {
      match e
      case Tick(i, te) => TickMoves(s, i, te, s');
      case Act(i, _, _) => assert AutoRevert.Step(s.timers[i], AutoRevert.WorkerAct(s.timers[i].worker.progress >= 2)) == Some(s'.timers[i]);
      case _ =>
    }
  }

  lemma StepKeepsInv(s: System, e: Event, s': System)
    requires Inv(s) && Step(s, e) == Some(s')
    ensures Inv(s')
  {
    StepMovesTimers(s, e, s');
    forall i | 0 <= i < |s'.timers|
      ensures AutoRevert.Inv(s'.timers[i])
    {
      if i < |s.timers| && s'.timers[i] != s.timers[i] {
        var te :| AutoRevert.Step(s.timers[i], te) == Some(s'.timers[i]);
        AutoRevert.StepKeepsInv(s.timers[i], te);
      }
    }
    if IsEditEvent(e) {
      EditStepKeepsLinked(s, e, s');
    } else if IsGuardEvent(e) {
      GuardStepKeepsLinked(s, e, s');
    } else {
      OtherStepKeepsLinked(s, e, s');
    }
  }

  lemma {:induction false} RunKeepsInv(s: System, es: seq<Event>, s': System)
    requires Inv(s) && Run(s, es, s')
    ensures Inv(s')
    decreases |es|
  {
    if es != [] {
      StepKeepsInv(s, es[0], Step(s, es[0]).value);
      RunKeepsInv(Step(s, es[0]).value, es[1..], s');
    }
  }

  // ------------------------------------- what every run guarantees, overlaps included

  /** A confirmation is answered "already reverted" only once the whole revert is over. */
  lemma AlreadyRevertedMeansDone(s0: System, es: seq<Event>, s: System, h: HandlerId, t: TimerId)
    requires Initial(s0) && Run(s0, es, s) && At(s, h, ConfirmDone(AlreadyReverted(t)))
    ensures t < |s.timers| && s.timers[t].fired && s.timers[t].worker.Exited? && s.timers[t].runs == 1
  {
    RunKeepsInv(s0, es, s);
    assert HandlerOk(s, h) && TimerOk(s, t) && AutoRevert.Inv(s.timers[t]);
  }

  /** A change reported as confirmed is never reverted: its worker has ended without acting. */
  lemma ConfirmedNeverReverts(s0: System, es: seq<Event>, s: System, h: HandlerId, t: TimerId)
    requires Initial(s0) && Run(s0, es, s) && At(s, h, ConfirmDone(ConfirmedReply(t)))
    ensures t < |s.timers| && !s.timers[t].fired && s.timers[t].worker.Exited? && s.timers[t].runs == 0
  {
    RunKeepsInv(s0, es, s);
    assert HandlerOk(s, h) && TimerOk(s, t) && AutoRevert.Inv(s.timers[t]);
  }

  predicate Answered(s: System, h: HandlerId, t: TimerId) {
    At(s, h, ConfirmDone(ConfirmedReply(t))) || At(s, h, ConfirmDone(AlreadyReverted(t)))
  }

  /** At most one request is told how a staged edit ended. */
  lemma OneAnswerPerEdit(s0: System, es: seq<Event>, s: System, g: HandlerId, h: HandlerId, t: TimerId)
    requires Initial(s0) && Run(s0, es, s) && Answered(s, g, t) && Answered(s, h, t)
    ensures g == h
  {
    RunKeepsInv(s0, es, s);
    assert HandlerOk(s, g) && HandlerOk(s, h);
  }

  /** When an edit with `?hold` is answered, the timer it replaced has ended, its action over or never to run. */
  lemma ReplacedTimerHasEnded(s0: System, es: seq<Event>, s: System, h: HandlerId, t: TimerId, r: TimerId)
    requires Initial(s0) && Run(s0, es, s) && At(s, h, PostReplace(t, Some(r)))
    requires Sized(s) && Step(s, FinishPost(h)).Some?
    ensures r < |s.timers| && s.timers[r].worker.Exited?
    ensures s.timers[r].runs == if s.timers[r].fired then 1 else 0
  {
    RunKeepsInv(s0, es, s);
    assert AutoRevert.Inv(s.timers[r]);
  }

  /** Every live timer is the pending one or in the hands of a request in flight; with none in flight at most one lives. */
  lemma LiveTimersAreOwned(s0: System, es: seq<Event>, s: System, i: TimerId)
    requires Initial(s0) && Run(s0, es, s) && i < |s.timers| && !s.timers[i].worker.Exited?
    ensures s.pending == Some(i) || exists h :: h in s.handlers && Owned(s.handlers[h]) == Some(i)
    ensures (forall h | h in s.handlers :: Owned(s.handlers[h]).None?) ==> s.pending == Some(i)
  {
    RunKeepsInv(s0, es, s);
    assert TimerOk(s, i) && AutoRevert.Inv(s.timers[i]);
  }

  // -------------------------------------------------- edits that do not overlap

  /** Nothing unresolved: no edit or answer in flight (an edit may be about to begin, a confirmation about to look), every worker over. */
  ghost predicate Quiet(s: System) {
    && (forall h | h in s.handlers ::
          s.handlers[h].PostDone? || s.handlers[h].PostBackup? || s.handlers[h].ConfirmDone? || s.handlers[h].ConfirmTake?)
    && (forall i | 0 <= i < |s.timers| :: s.timers[i].worker.Exited?)
  }

  /** Every edit that has begun is decided: rolled back, reverted, or committed or confirmed, at most its backup still to be discarded. */
  ghost predicate Decided(s: System)
    requires Sized(s)
  {
    && (forall h | h in s.handlers && IsPost(s.handlers[h]) ::
          s.handlers[h].PostDone? || s.handlers[h].PostBackup? || s.handlers[h].PostDiscard?)
    && (forall i | 0 <= i < |s.timers| :: Past(s, i))
  }

  /** The request is to discard its backup although another edit has begun since. */
  predicate Late(s: System, h: HandlerId) {
    h in s.handlers &&
    match s.handlers[h]
    case PostDiscard => s.current != Some(h)
    case ConfirmDiscard(t) => CurrentTimer(s) != Some(t)
    case _ => false
  }

  /** The action of the timer has restored the old text, or is over. */
  predicate Restored(t: AutoRevert.Timer) {
    t.worker == AutoRevert.Acting(1) || t.worker == AutoRevert.Acting(2) || (t.worker.Exited? && t.fired)
  }

  /** The text of the latest edit is on disk, and neither committed nor confirmed nor reverted. */
  predicate Unconfirmed(s: System)
    requires Sized(s)
  {
    s.current.Some? && s.current.value in s.handlers &&
    match s.handlers[s.current.value]
    case PostRestart(_, _) => true
    case PostVerify(_, _) => true
    case PostRestore => true
    case PostArm(_) => true
    case PostInsert(t) => TimerUnconfirmed(s, t)
    case PostReplace(t, _) => TimerUnconfirmed(s, t)
    case PostDone(PendingReply(t)) => TimerUnconfirmed(s, t)
    case _ => false
  }

  predicate TimerUnconfirmed(s: System, t: TimerId) {
    !s.accepted && t < |s.timers| && !Restored(s.timers[t])
  }

  /** The latest edit is about to write, or has written and is unconfirmed: its backup is what a rollback or a revert installs. */
  predicate NeedsBackup(s: System)
    requires Sized(s)
  {
    Unconfirmed(s) || (s.current.Some? && s.current.value in s.handlers && s.handlers[s.current.value].PostWrite?)
  }

  /** An edit takes its backup only when those before it are decided, and no late request discards a backup that is needed. */
  ghost predicate InTurn(s: System, e: Event)
    requires Sized(s)
  {
    (e.Backup? ==> Decided(s)) && (e.Discard? && Late(s, e.h) ==> !NeedsBackup(s))
  }

  /** A run in which every edit keeps to its turn; requests may arrive at any time. */
  ghost predicate SerialRun(s: System, es: seq<Event>, s': System)
    requires Sized(s)
    decreases |es|
  {
    if es == [] then s' == s
    else
      && InTurn(s, es[0])
      && Step(s, es[0]).Some?
      && (StepKeepsSized(s, es[0]); SerialRun(Step(s, es[0]).value, es[1..], s'))
  }

  predicate IsPost(p: Handler) {
    p.PostBackup? || p.PostWrite? || p.PostRestart? || p.PostVerify? || p.PostRestore? || p.PostRestartOld?
    || p.PostDiscard? || p.PostArm? || p.PostInsert? || p.PostReplace? || p.PostDone?
  }

  function TimerOf(p: Handler): Option<TimerId> {
    match p
    case PostInsert(t) => Some(t)
    case PostReplace(t, _) => Some(t)
    case PostDone(PendingReply(t)) => Some(t)
    case _ => None
  }

  /** The timer of the latest edit, once it has one. */
  function CurrentTimer(s: System): Option<TimerId> {
    if s.current.Some? && s.current.value in s.handlers then TimerOf(s.handlers[s.current.value]) else None
  }

  /** Timers of earlier edits are over: reverted, or cancelled by a confirmation that knows it was in time. */
  predicate Past(s: System, i: TimerId)
    requires i < |s.timers| == |s.owners|
  {
    || (s.timers[i].worker.Exited? && s.timers[i].fired)
    || (s.timers[i].cancelled && !s.timers[i].fired
        && match s.owners[i]
           case InMap => false
           case Gone(_) => true
           case With(h) => h in s.handlers && (s.handlers[h].ConfirmDiscard? || s.handlers[h].ConfirmDrop?))
  }

  /** Who can have cancelled the latest timer, and what that led to. */
  predicate CancelOk(s: System, t: TimerId)
    requires t < |s.timers| == |s.owners|
  {
    match s.owners[t]
    case InMap => !s.timers[t].cancelled && !s.accepted
    case Gone(h) =>
      && s.accepted == !s.timers[t].fired
      && At(s, h, ConfirmDone(if s.timers[t].fired then AlreadyReverted(t) else ConfirmedReply(t)))
    case With(h) =>
      h in s.handlers &&
      match s.handlers[h]
      case PostInsert(_) => !s.timers[t].cancelled && !s.accepted
      case ConfirmCall(_) => !s.accepted
      case ConfirmDiscard(_) => s.accepted
      case ConfirmDrop(_, r) => s.accepted == r.ConfirmedReply?
      case _ => false
  }

  /** An edit that has taken its backup, or failed to. */
  predicate Begun(s: System, h: HandlerId) {
    h in s.handlers && IsPost(s.handlers[h]) && !s.handlers[h].PostBackup?
  }

  /** Only the latest edit can still be in flight. */
  predicate PostOk(s: System, h: HandlerId)
    requires h in s.handlers
  {
    IsPost(s.handlers[h]) && !s.handlers[h].PostDone? && !s.handlers[h].PostBackup? && !s.handlers[h].PostDiscard?
    ==> s.current == Some(h)
  }

  /** Earlier edits are over, their timers too. */
  predicate EarlierOver(s: System)
    requires Sized(s)
  {
    && (s.current.Some? ==> Begun(s, s.current.value))
    && (forall h | h in s.handlers :: PostOk(s, h))
    && (forall i | 0 <= i < |s.timers| && CurrentTimer(s) != Some(i) :: Past(s, i))
  }

  /** The file and the service are at the trusted text. */
  predicate AtTrusted(s: System) {
    s.disk.file == Some(s.trusted) && s.disk.served == Some(s.trusted)
  }

  /** What is on disk while the latest edit's timer is in each of its states. */
  predicate TimerContent(s: System, t: TimerId)
    requires t < |s.timers| == |s.owners|
  {
    var w := s.timers[t].worker;
    if s.accepted then
      && s.trusted == s.edit && AtTrusted(s)
      && (s.disk.bak.None? || (s.owners[t].With? && s.owners[t].h in s.handlers && s.handlers[s.owners[t].h].ConfirmDiscard?))
    else
      && s.trusted == s.base
      && (w.Acting? ==> w.progress <= 2)
      && if w == AutoRevert.Acting(1) then s.disk.file == Some(s.base)
         else if w == AutoRevert.Acting(2) then AtTrusted(s)
         else if w.Exited? && s.timers[t].fired then AtTrusted(s) && s.disk.bak == None
         else TextOf(s, t) == s.edit && s.disk.file == Some(s.edit) && s.disk.served == Some(s.edit) && s.disk.bak == Some(s.base)
  }

  /** What is on disk at each point of the latest edit. */
  predicate Content(s: System)
    requires Sized(s)
  {
    if s.current.None? then AtTrusted(s)
    else if s.current.value !in s.handlers then false
    else
      var held := s.trusted == s.base && s.disk.bak == Some(s.base);
      match s.handlers[s.current.value]
      case PostWrite(text, _) => text == s.edit && held && AtTrusted(s)
      case PostRestart(text, _) => text == s.edit && held && s.disk.file == Some(s.edit)
      case PostVerify(text, _) => text == s.edit && held && s.disk.file == Some(s.edit) && s.disk.served == Some(s.edit)
      case PostRestore => held && s.disk.file == Some(s.edit)
      case PostRestartOld => s.trusted == s.base && s.disk.file == Some(s.base)
      case PostDiscard => s.trusted == s.edit && AtTrusted(s)
      case PostArm(text) => text == s.edit && held && s.disk.file == Some(s.edit) && s.disk.served == Some(s.edit)
      case PostInsert(t) => t < |s.timers| && TimerContent(s, t)
      case PostReplace(t, _) => t < |s.timers| && TimerContent(s, t)
      case PostDone(PendingReply(t)) => t < |s.timers| && TimerContent(s, t)
      case PostDone(_) => AtTrusted(s)
      case _ => false
  }

  /** The latest edit: its timer, who cancelled it, and what is on disk. */
  predicate LatestOk(s: System)
    requires Sized(s)
  {
    && (match CurrentTimer(s)
        case None => !s.accepted
        case Some(t) => t < |s.timers| && t == |s.timers| - 1 && CancelOk(s, t))
    && (!s.fault ==> Content(s))
  }

  ghost predicate Serial(s: System) {
    Inv(s) && EarlierOver(s) && LatestOk(s)
  }

  // ---- earlier edits stay over

  /** Guards that are gone stay gone. */
  lemma GoneStays(s: System, e: Event, s': System, i: TimerId)
    requires Linked(s) && Step(s, e) == Some(s') && i < |s.timers| && s.owners[i].Gone?
    ensures i < |s'.owners| && s'.owners[i] == s.owners[i]
  {
    if IsEditEvent(e) {
      EditStepShape(s, e, s');
    } else if IsGuardEvent(e) {
      GuardStepKeepsGone(s, e, s', i);
    } else {
    }
  }

  lemma GuardStepKeepsGone(s: System, e: Event, s': System, i: TimerId)
    requires Linked(s) && IsGuardEvent(e) && GuardStep(s, e) == Some(s') && i < |s.timers| && s.owners[i].Gone?
    ensures i < |s'.owners| && s'.owners[i] == s.owners[i]
  {
    assert TimerOk(s, i) && HandlerOk(s, e.h);
  }

  /** A confirmation that knows its answer keeps its guard until it is gone. */
  lemma KeeperStays(s: System, e: Event, s': System, i: TimerId, h: HandlerId)
    requires Linked(s) && Step(s, e) == Some(s') && i < |s.timers| && s.owners[i] == With(h)
    requires h in s.handlers && (s.handlers[h].ConfirmDiscard? || s.handlers[h].ConfirmDrop?)
    ensures i < |s'.owners| && h in s'.handlers
    ensures s'.owners[i] == With(h) || s'.owners[i] == Gone(h)
    ensures s'.owners[i] == With(h) ==> s'.handlers[h].ConfirmDiscard? || s'.handlers[h].ConfirmDrop?
  {
    if IsEditEvent(e) {
      EditStepShape(s, e, s');
      assert e.h != h;
    } else if IsGuardEvent(e) {
      GuardStepKeeper(s, e, s', i, h);
    } else {
      OtherStepKeeper(s, e, s', h);
    }
  }

  lemma OtherStepKeeper(s: System, e: Event, s': System, h: HandlerId)
    requires !IsEditEvent(e) && !IsGuardEvent(e) && OtherStep(s, e) == Some(s')
    requires h in s.handlers && (s.handlers[h].ConfirmDiscard? || s.handlers[h].ConfirmDrop?)
    ensures s'.owners == s.owners && h in s'.handlers && (s'.handlers[h].ConfirmDiscard? || s'.handlers[h].ConfirmDrop?)
  {
  }

  lemma GuardStepKeeper(s: System, e: Event, s': System, i: TimerId, h: HandlerId)
    requires Linked(s) && IsGuardEvent(e) && GuardStep(s, e) == Some(s') && i < |s.timers| && s.owners[i] == With(h)
    requires h in s.handlers && (s.handlers[h].ConfirmDiscard? || s.handlers[h].ConfirmDrop?)
    ensures i < |s'.owners| && h in s'.handlers
    ensures s'.owners[i] == With(h) || s'.owners[i] == Gone(h)
    ensures s'.owners[i] == With(h) ==> s'.handlers[h].ConfirmDiscard? || s'.handlers[h].ConfirmDrop?
  {
    if e.h == h {
      KeeperMoves(s, e, s', i, h);
    } else {
      OthersKeepGuard(s, e, s', i, h);
    }
  }

  lemma KeeperMoves(s: System, e: Event, s': System, i: TimerId, h: HandlerId)
    requires Linked(s) && IsGuardEvent(e) && e.h == h && GuardStep(s, e) == Some(s') && i < |s.timers| && s.owners[i] == With(h)
    requires h in s.handlers && (s.handlers[h].ConfirmDiscard? || s.handlers[h].ConfirmDrop?)
    ensures h in s'.handlers && i < |s'.owners|
    ensures s'.owners[i] == Gone(h) || (s'.owners == s.owners && s'.handlers == s.handlers)
  {
    assert TimerOk(s, i);
    match e
    case BeginDrop(_) => case FinishConfirm(_) => case _ =>
  }

  lemma OthersKeepGuard(s: System, e: Event, s': System, i: TimerId, h: HandlerId)
    requires Linked(s) && IsGuardEvent(e) && e.h != h && GuardStep(s, e) == Some(s') && i < |s.timers| && s.owners[i] == With(h)
    requires h in s.handlers
    ensures h in s'.handlers && s'.handlers[h] == s.handlers[h]
    ensures i < |s'.owners| && s'.owners[i] == s.owners[i]
  {
    GuardStepMoves(s, e, s');
    assert HandlerOk(s, e.h);
    if e.BeginCall? || e.BeginDrop? {
      TickKeepsHandlers(s, e, s');
    } else {
      OwnerStays(s, e, s', i, h);
    }
  }

  lemma OwnerStays(s: System, e: Event, s': System, i: TimerId, h: HandlerId)
    requires Sized(s) && IsGuardEvent(e) && !e.BeginCall? && !e.BeginDrop? && e.h != h && GuardStep(s, e) == Some(s')
    requires e.h in s.handlers && HandlerOk(s, e.h)
    requires s.pending.Some? ==> s.pending.value < |s.timers| && s.owners[s.pending.value] == InMap
    requires i < |s.timers| && s.owners[i] == With(h)
    ensures i < |s'.owners| && s'.owners[i] == s.owners[i]
  {
  }

  lemma PastStays(s: System, e: Event, s': System, i: TimerId)
    requires Inv(s) && Step(s, e) == Some(s') && i < |s.timers| && Past(s, i)
    requires Sized(s') && |s.timers| <= |s'.timers|
    ensures Past(s', i)
  {
    StepMovesTimers(s, e, s');
    if s'.timers[i] != s.timers[i] {
      var te :| AutoRevert.Step(s.timers[i], te) == Some(s'.timers[i]);
      OverStays(s.timers[i], te, s'.timers[i]);
    }
    if !s.timers[i].fired {
      match s.owners[i]
      case Gone(_) => GoneStays(s, e, s', i);
      case With(h) => KeeperStays(s, e, s', i, h);
    }
  }

  lemma OverStays(t: AutoRevert.Timer, te: AutoRevert.Event, t': AutoRevert.Timer)
    requires AutoRevert.Inv(t) && AutoRevert.Step(t, te) == Some(t')
    ensures t.worker.Exited? && t.fired ==> t'.worker.Exited? && t'.fired
    ensures t.cancelled && !t.fired ==> t'.cancelled && !t'.fired
  {
    if t.worker.Exited? {
      AutoRevert.ExitedStep(t, te, t');
    }
    if t.cancelled {
      AutoRevert.CancelledStep(t, te, t');
    }
  }

  /** The request a step belongs to. */
  function Subject(e: Event): Option<HandlerId> {
    if e.Tick? || e.Act? then None else Some(e.h)
  }

  /** What one step can do to one request. */
  predicate Advances(e: Event, p: Handler, p': Handler) {
    && (IsPost(p') <==> IsPost(p))
    && (p.PostDone? ==> p'.PostDone?)
    && (p.PostDiscard? ==> p'.PostDone?)
    && (if e.Backup? then p.PostBackup? && !p'.PostBackup? else p'.PostBackup? <==> p.PostBackup?)
    && (if e.Arm? then TimerOf(p).None? && !p.PostDone? else TimerOf(p') == TimerOf(p))
  }

  /** A step moves only its own request; only `StartPost` and `StartConfirm` make new ones, only `Backup` makes one the latest. */
  predicate OnlySubject(s: System, e: Event, s': System) {
    && s'.current == (if e.Backup? then Some(e.h) else s.current)
    && (match Subject(e)
        case None => s'.handlers == s.handlers
        case Some(h) =>
          && h in s'.handlers && s'.handlers == s.handlers[h := s'.handlers[h]]
          && (if h in s.handlers then Advances(e, s.handlers[h], s'.handlers[h])
              else (e.StartPost? && s'.handlers[h].PostBackup?) || (e.StartConfirm? && s'.handlers[h] == ConfirmTake))
          && (e.StartPost? ==> h !in s.handlers)
          && (e.Backup? ==> TimerOf(s'.handlers[h]).None?)
          && (e.Arm? ==> h in s.handlers && s.handlers[h].PostArm? && TimerOf(s'.handlers[h]) == Some(|s.timers|)))
  }

  lemma EditStepMoves(s: System, e: Event, s': System)
    requires IsEditEvent(e) && EditStep(s, e) == Some(s')
    ensures OnlySubject(s, e, s')
  {
    EditStepShape(s, e, s');
    match e
    case Backup(_, _) => case Write(_, _) => case RestartNew(_, _) => case Verify(_, _) => case _ =>
  }

  lemma TickKeepsHandlers(s: System, e: Event, s': System)
    requires Sized(s) && (e.BeginCall? || e.BeginDrop?) && GuardStep(s, e) == Some(s')
    ensures s'.handlers == s.handlers && s'.current == s.current && s'.owners == s.owners && e.h in s.handlers
  {
  }

  lemma GuardStepMoves(s: System, e: Event, s': System)
    requires Sized(s) && IsGuardEvent(e) && GuardStep(s, e) == Some(s')
    ensures OnlySubject(s, e, s')
  {
    if e.BeginCall? || e.BeginDrop? {
      TickKeepsHandlers(s, e, s');
      assert s.handlers == s.handlers[e.h := s.handlers[e.h]];
    } else {
      MapStepMoves(s, e, s');
    }
  }

  lemma MapStepMoves(s: System, e: Event, s': System)
    requires Sized(s) && IsGuardEvent(e) && !e.BeginCall? && !e.BeginDrop? && GuardStep(s, e) == Some(s')
    ensures OnlySubject(s, e, s')
  {
    match e
    case Arm(h) => assert s' == Armed(s, h, s.handlers[h].text);
    case Insert(h) => assert s' == Inserted(s, h, s.handlers[h].t);
    case FinishPost(h) => assert s' == PostFinished(s, h, s.handlers[h].t, s.handlers[h].replaced);
    case Take(h) => assert s.pending.Some? ==> s' == Taken(s, h, s.pending.value);
    case _ =>
  }

  lemma StepMoves(s: System, e: Event, s': System)
    requires Sized(s) && Step(s, e) == Some(s')
    ensures OnlySubject(s, e, s')
  {
    if IsEditEvent(e) {
      EditStepMoves(s, e, s');
    } else if IsGuardEvent(e) {
      GuardStepMoves(s, e, s');
    } else {
      OtherStepMoves(s, e, s');
    }
  }

  lemma OtherStepMoves(s: System, e: Event, s': System)
    requires !IsEditEvent(e) && !IsGuardEvent(e) && OtherStep(s, e) == Some(s')
    ensures OnlySubject(s, e, s')
  {
    match e case Discard(_, _) => case _ =>
  }

  /** When all is quiet the latest timer is past too. */
  lemma QuietIsPast(s: System, i: TimerId)
    requires Serial(s) && Quiet(s) && i < |s.timers|
    ensures Past(s, i)
  {
    assert TimerOk(s, i) && AutoRevert.Inv(s.timers[i]);
    if CurrentTimer(s) == Some(i) {
      assert CancelOk(s, i);
    }
  }

  /** The latest edit keeps its timer; arming gives it a new one; a backup makes a new latest edit. */
  lemma PostsStay(s: System, e: Event, s': System)
    requires Sized(s) && EarlierOver(s) && OnlySubject(s, e, s')
    ensures s'.current.Some? ==> Begun(s', s'.current.value)
    ensures e.Backup? || forall h | h in s'.handlers :: PostOk(s', h)
    ensures if e.Arm? then CurrentTimer(s) == None && CurrentTimer(s') == Some(|s.timers|)
            else if e.Backup? then CurrentTimer(s') == None
            else CurrentTimer(s') == CurrentTimer(s)
  {
    var h := Subject(e);
    if h.Some? && h.value in s.handlers {
      assert PostOk(s, h.value);
    }
    forall g | g in s'.handlers && !e.Backup?
      ensures PostOk(s', g)
    {
      assert g in s.handlers ==> PostOk(s, g);
    }
  }

  lemma PastsStay(s: System, e: Event, s': System)
    requires Serial(s) && Step(s, e) == Some(s') && InTurn(s, e)
    requires Sized(s') && |s.timers| <= |s'.timers|
    ensures forall i | 0 <= i < |s.timers| && (e.Backup? || CurrentTimer(s) != Some(i)) :: Past(s', i)
  {
    forall i | 0 <= i < |s.timers| && (e.Backup? || CurrentTimer(s) != Some(i))
      ensures Past(s', i)
    {
      PastStays(s, e, s', i);
    }
  }

  /** A new edit finds every earlier one decided. */
  lemma BackupKeepsPosts(s: System, h: HandlerId, p: Handler, s': System)
    requires Sized(s) && Decided(s) && s'.handlers == s.handlers[h := p] && s'.current == Some(h)
    ensures forall g | g in s'.handlers :: PostOk(s', g)
  {
  }

  lemma EarlierOverFromParts(s: System, e: Event, s': System)
    requires Sized(s) && Sized(s') && |s'.timers| == |s.timers| + (if e.Arm? then 1 else 0)
    requires s'.current.Some? ==> Begun(s', s'.current.value)
    requires forall h | h in s'.handlers :: PostOk(s', h)
    requires e.Arm? ==> CurrentTimer(s) == None && CurrentTimer(s') == Some(|s.timers|)
    requires !e.Arm? && !e.Backup? ==> CurrentTimer(s') == CurrentTimer(s)
    requires forall i | 0 <= i < |s.timers| && (e.Backup? || CurrentTimer(s) != Some(i)) :: Past(s', i)
    ensures EarlierOver(s')
  {
  }

  lemma StepKeepsEarlierOver(s: System, e: Event, s': System)
    requires Serial(s) && Step(s, e) == Some(s') && InTurn(s, e) && Sized(s')
    ensures EarlierOver(s')
  {
    StepMoves(s, e, s');
    StepMovesTimers(s, e, s');
    PostsStay(s, e, s');
    PastsStay(s, e, s');
    if e.Backup? {
      BackupKeepsPosts(s, e.h, s'.handlers[e.h], s');
    }
    EarlierOverFromParts(s, e, s');
  }

  // ---- the latest edit, one group of events at a time

  /** What is known of the latest edit depends on these fields only. */
  predicate SameEdit(s: System, s': System) {
    && s'.current == s.current && s'.trusted == s.trusted && s'.base == s.base && s'.edit == s.edit && s'.accepted == s.accepted && s'.texts == s.texts
  }

  lemma ContentIsTimerContent(s: System, t: TimerId)
    requires Sized(s) && CurrentTimer(s) == Some(t) && t < |s.timers|
    ensures Content(s) <==> TimerContent(s, t)
  {
  }

  lemma LatestFromTimer(s: System, t: TimerId)
    requires Sized(s) && CurrentTimer(s) == Some(t) && t == |s.timers| - 1
    requires CancelOk(s, t) && (!s.fault ==> TimerContent(s, t))
    ensures LatestOk(s)
  {
    ContentIsTimerContent(s, t);
  }

  lemma EditStepKeepsLatest(s: System, e: Event, s': System)
    requires Serial(s) && IsEditEvent(e) && !e.Backup? && EditStep(s, e) == Some(s')
    requires Sized(s')
    ensures LatestOk(s')
  {
    EditStepShape(s, e, s');
    assert PostOk(s, e.h);
    assert CurrentTimer(s).None? && CurrentTimer(s').None?;
    if !s'.fault {
      EditStepKeepsContent(s, e, s');
    }
  }

  lemma PastIsTrusted(s: System, t: TimerId)
    requires Inv(s) && t < |s.timers| && Past(s, t) && CancelOk(s, t) && TimerContent(s, t)
    ensures AtTrusted(s)
  {
    assert TimerOk(s, t);
    if !s.timers[t].fired && s.owners[t].With? {
      assert HandlerOk(s, s.owners[t].h);
    }
    assert s.timers[t].fired || s.accepted;
  }

  /** When every edit is decided the file and the service are at the trusted text. */
  lemma DecidedIsTrusted(s: System)
    requires Serial(s) && Decided(s) && !s.fault
    ensures AtTrusted(s)
  {
    if CurrentTimer(s).Some? {
      var t := CurrentTimer(s).value;
      ContentIsTimerContent(s, t);
      PastIsTrusted(s, t);
    } else if s.current.Some? {
      assert Begun(s, s.current.value);
    }
  }

  /** A new edit begins: from here on the table is about it. */
  lemma BackupKeepsLatest(s: System, h: HandlerId, io: Io, s': System)
    requires Serial(s) && Decided(s) && EditStep(s, Backup(h, io)) == Some(s') && Sized(s')
    ensures LatestOk(s')
  {
    assert s'.current == Some(h) && CurrentTimer(s') == None;
    if !s.fault {
      DecidedIsTrusted(s);
    }
  }

  /** The steps of the latest edit move the disk down the table. */
  lemma EditStepKeepsContent(s: System, e: Event, s': System)
    requires Sized(s) && Sized(s') && IsEditEvent(e) && !e.Backup? && s.current == Some(e.h)
    requires EditStep(s, e) == Some(s') && !s'.fault
    requires !s.fault ==> Content(s)
    ensures Content(s')
  {
    match e
    case Write(_, _) => case RestartNew(_, _) => case Verify(_, _) => case Restore(_, _) => case _ =>
  }

  lemma ArmKeepsLatest(s: System, h: HandlerId, text: string)
    requires Serial(s) && At(s, h, PostArm(text))
    ensures LatestOk(Armed(s, h, text))
  {
    assert PostOk(s, h);
  }

  lemma InsertKeepsLatest(s: System, h: HandlerId, t: TimerId)
    requires Serial(s) && At(s, h, PostInsert(t)) && t < |s.owners| && s.mapLock.None?
    ensures LatestOk(Inserted(s, h, t))
  {
    assert PostOk(s, h) && HandlerOk(s, h);
    assert CurrentTimer(s) == Some(t) && CancelOk(s, t);
  }

  lemma FinishPostOfCurrent(s: System, h: HandlerId, t: TimerId, replaced: Option<TimerId>)
    requires Serial(s) && At(s, h, PostReplace(t, replaced)) && (replaced.Some? ==> replaced.value < |s.owners|)
    requires CurrentTimer(s) == Some(t) && t < |s.timers|
    ensures CancelOk(PostFinished(s, h, t, replaced), t)
    ensures !s.fault ==> TimerContent(PostFinished(s, h, t, replaced), t)
  {
    ContentIsTimerContent(s, t);
    assert HandlerOk(s, h) && CancelOk(s, t);
  }

  lemma ReplacingIsCurrent(s: System, h: HandlerId, t: TimerId, replaced: Option<TimerId>)
    requires Serial(s) && At(s, h, PostReplace(t, replaced))
    ensures s.current == Some(h) && CurrentTimer(s) == Some(t) && t == |s.timers| - 1
  {
    assert PostOk(s, h);
  }

  lemma FinishPostKeepsLatest(s: System, h: HandlerId, t: TimerId, replaced: Option<TimerId>, s': System)
    requires Serial(s) && At(s, h, PostReplace(t, replaced)) && (replaced.Some? ==> replaced.value < |s.owners|)
    requires s' == PostFinished(s, h, t, replaced)
    ensures LatestOk(s')
  {
    ReplacingIsCurrent(s, h, t, replaced);
    FinishPostOfCurrent(s, h, t, replaced);
    assert CurrentTimer(s') == Some(t);
    LatestFromTimer(s', t);
  }

  /** A request that does not own the latest timer leaves what is known about it alone. */
  lemma FrameTimer(s: System, s': System, h: HandlerId, c: TimerId)
    requires Linked(s) && c < |s.timers| == |s'.timers| == |s'.owners|
    requires s'.timers[c] == s.timers[c] && s'.owners[c] == s.owners[c] && s.owners[c] != With(h)
    requires h in s'.handlers && s'.handlers == s.handlers[h := s'.handlers[h]]
    requires h in s.handlers ==> !s.handlers[h].ConfirmDone?
    requires SameEdit(s, s') && s'.disk == s.disk && CancelOk(s, c)
    ensures CancelOk(s', c)
    ensures TimerContent(s, c) ==> TimerContent(s', c)
  {
    assert TimerOk(s, c);
  }

  /** A step of request `h`, which is no edit, keeps everything once it is right about the guard `t` it is about. */
  lemma ConfirmStepKeepsLatest(s: System, s': System, h: HandlerId, t: Option<TimerId>)
    requires Serial(s) && (h in s.handlers ==> !IsPost(s.handlers[h]) && !s.handlers[h].ConfirmDone?)
    requires h in s'.handlers && s'.handlers == s.handlers[h := s'.handlers[h]] && !IsPost(s'.handlers[h])
    requires h in s.handlers && Owned(s.handlers[h]).Some? ==> Owned(s.handlers[h]) == t
    requires s'.timers == s.timers && Sized(s') && s'.current == s.current && s'.fault == s.fault && s'.disk == s.disk
    requires if t.Some? then t.value < |s.timers| && s'.owners == s.owners[t.value := s'.owners[t.value]] else s'.owners == s.owners
    requires if t.Some? && CurrentTimer(s) == t then CancelOk(s', t.value) && (!s.fault ==> TimerContent(s', t.value))
             else SameEdit(s, s')
    ensures LatestOk(s')
  {
    assert CurrentTimer(s') == CurrentTimer(s);
    var c := CurrentTimer(s);
    if c.Some? && c != t {
      assert TimerOk(s, c.value);
      FrameTimer(s, s', h, c.value);
    }
  }

  lemma TakeKeepsLatest(s: System, h: HandlerId, s': System)
    requires Serial(s) && At(s, h, ConfirmTake) && Sized(s') && (s.pending.Some? ==> s.pending.value < |s.owners|)
    requires s' == if s.pending.Some? then Taken(s, h, s.pending.value) else Goto(s, h, ConfirmDone(NoPending))
    ensures LatestOk(s')
  {
    assert HandlerOk(s, h);
    assert CurrentTimer(s).Some? ==> CancelOk(s, CurrentTimer(s).value);
    ConfirmStepKeepsLatest(s, s', h, s.pending);
  }

  /** A `confirm` that returned `true` was about the latest edit, which is still in place. */
  lemma TrueVerdictIsCurrent(s: System, h: HandlerId, t: TimerId)
    requires Serial(s) && At(s, h, ConfirmCall(t)) && t < |s.timers| && h in s.timers[t].calls
    requires s.timers[t].calls[h].Returned? && s.timers[t].calls[h].verdict
    ensures CurrentTimer(s) == Some(t) && !s.accepted && s.timers[t].cancelled && !s.timers[t].fired
    ensures !s.fault ==> TextOf(s, t) == s.edit && s.disk.file == Some(s.edit) && s.disk.served == Some(s.edit)
  {
    ReturnedKnows(s.timers[t], h);
    assert HandlerOk(s, h) && AutoRevert.Inv(s.timers[t]);
    assert !Past(s, t);
  }

  lemma TrueVerdictKeepsLatest(s: System, h: HandlerId, t: TimerId, s': System)
    requires Serial(s) && At(s, h, ConfirmCall(t)) && t < |s.timers| && h in s.timers[t].calls
    requires s.timers[t].calls[h].Returned? && s.timers[t].calls[h].verdict
    requires s' == Goto(Accepted(s, t), h, ConfirmDiscard(t)) && Sized(s')
    ensures LatestOk(s')
  {
    TrueVerdictIsCurrent(s, h, t);
    assert HandlerOk(s, h);
    ConfirmStepKeepsLatest(s, s', h, Some(t));
  }

  lemma FalseVerdictKeepsLatest(s: System, h: HandlerId, t: TimerId, s': System)
    requires Serial(s) && At(s, h, ConfirmCall(t)) && t < |s.timers| && s.timers[t].fired
    requires s' == Goto(s, h, ConfirmDrop(t, AlreadyReverted(t))) && Sized(s')
    ensures LatestOk(s')
  {
    assert HandlerOk(s, h);
    ConfirmStepKeepsLatest(s, s', h, Some(t));
  }

  lemma VerdictKeepsLatest(s: System, h: HandlerId, s': System)
    requires Serial(s) && GuardStep(s, Verdict(h)) == Some(s')
    requires Sized(s')
    ensures LatestOk(s')
  {
    var t := s.handlers[h].t;
    if s.timers[t].calls[h].verdict {
      TrueVerdictKeepsLatest(s, h, t, s');
    } else {
      ReturnedKnows(s.timers[t], h);
      FalseVerdictKeepsLatest(s, h, t, s');
    }
  }

  lemma FinishConfirmOfCurrent(s: System, h: HandlerId, t: TimerId, reply: ConfirmReply)
    requires Serial(s) && At(s, h, ConfirmDrop(t, reply)) && t < |s.timers| && CurrentTimer(s) == Some(t)
    ensures CancelOk(ConfirmFinished(s, h, t, reply), t)
    ensures !s.fault ==> TimerContent(ConfirmFinished(s, h, t, reply), t)
  {
    ContentIsTimerContent(s, t);
    assert HandlerOk(s, h) && CancelOk(s, t);
  }

  lemma FinishConfirmKeepsLatest(s: System, h: HandlerId, t: TimerId, reply: ConfirmReply)
    requires Serial(s) && At(s, h, ConfirmDrop(t, reply)) && t < |s.timers|
    ensures LatestOk(ConfirmFinished(s, h, t, reply))
  {
    var s' := ConfirmFinished(s, h, t, reply);
    assert s'.handlers == s.handlers[h := ConfirmDone(reply)] && s'.owners == s.owners[t := Gone(h)];
    if CurrentTimer(s) == Some(t) {
      FinishConfirmOfCurrent(s, h, t, reply);
    }
    ConfirmStepKeepsLatest(s, s', h, Some(t));
  }

  /** Timer `i` moves, no request does. */
  predicate OnlyTimer(s: System, s': System, i: TimerId, t': AutoRevert.Timer) {
    && i < |s.timers| && s'.timers == s.timers[i := t'] && s'.owners == s.owners && s'.handlers == s.handlers && SameEdit(s, s')
  }

  /** `cancelled` is only set on behalf of the guard's owner. */
  lemma CancelStaysOk(s: System, i: TimerId, e: AutoRevert.Event, t': AutoRevert.Timer, s': System)
    requires Inv(s) && OnlyTimer(s, s', i, t') && CancelOk(s, i)
    requires AutoRevert.Step(s.timers[i], e) == Some(t')
    ensures CancelOk(s', i)
  {
    var t := s.timers[i];
    assert AutoRevert.Inv(t) && TimerOk(s, i);
    if t'.cancelled && !t.cancelled {
      assert e.CallStore? || e.DropStore?;
      assert e.CallStore? ==> CallOk(s, i, e.id);
    }
    if t.cancelled {
      AutoRevert.CancelledStep(t, e, t');
    }
    match s.owners[i]
    case With(h) => assert HandlerOk(s, h);
    case _ =>
  }

  /** Which worker steps change the row of the table. */
  lemma RowStays(t: AutoRevert.Timer, e: AutoRevert.Event, t': AutoRevert.Timer)
    requires AutoRevert.Inv(t) && AutoRevert.Step(t, e) == Some(t') && !e.WorkerAct?
    ensures t'.worker.Acting? ==> t'.worker == t.worker || t'.worker == AutoRevert.Acting(0)
    ensures t.worker.Acting? ==> t'.worker == t.worker
    ensures t.worker.Exited? ==> t'.worker.Exited? && t'.fired == t.fired
    ensures t'.worker.Exited? && !t.worker.Exited? ==> !t'.fired
  {
    if AutoRevert.IsWorkerEvent(e) {
    } else {
      match e case Expire => case _ =>
    }
  }

  /** Only the action itself enters or leaves the rows of the table that differ. */
  lemma TickKeepsRow(s: System, i: TimerId, e: AutoRevert.Event, t': AutoRevert.Timer, s': System)
    requires Inv(s) && OnlyTimer(s, s', i, t') && s'.disk == s.disk && TimerContent(s, i)
    requires AutoRevert.Step(s.timers[i], e) == Some(t') && !e.WorkerAct?
    ensures TimerContent(s', i)
  {
    assert AutoRevert.Inv(s.timers[i]);
    RowStays(s.timers[i], e, t');
  }

  lemma TickKeepsLatest(s: System, i: TimerId, e: AutoRevert.Event, s': System)
    requires Serial(s) && TickTimer(s, i, e) == Some(s') && !e.WorkerAct?
    requires Sized(s')
    ensures LatestOk(s')
  {
    var t' := s'.timers[i];
    assert CurrentTimer(s') == CurrentTimer(s);
    if CurrentTimer(s) == Some(i) {
      CancelStaysOk(s, i, e, t', s');
      if !s.fault {
        TickKeepsRow(s, i, e, t', s');
      }
    }
  }

  /** Only the latest timer can be acting, and only while nobody has confirmed it. */
  lemma ActingIsCurrent(s: System, i: TimerId)
    requires Serial(s) && i < |s.timers| && s.timers[i].worker.Acting?
    ensures CurrentTimer(s) == Some(i) && !s.accepted
  {
    assert !Past(s, i);
    assert TimerOk(s, i) && AutoRevert.Inv(s.timers[i]);
    match s.owners[i]
    case With(h) => assert HandlerOk(s, h);
    case _ =>
  }

  /** The action of the latest timer: restore, restart and discard move the disk down the table. */
  lemma ActKeepsRow(s: System, i: TimerId, io: Io, ok: bool, s': System)
    requires Inv(s) && ActStep(s, i, io, ok) == Some(s') && !s'.fault
    requires TimerContent(s, i) && !s.accepted
    ensures TimerContent(s', i)
  {
    assert AutoRevert.Inv(s.timers[i]);
  }

  lemma ActKeepsLatest(s: System, i: TimerId, io: Io, ok: bool, s': System)
    requires Serial(s) && ActStep(s, i, io, ok) == Some(s')
    requires Sized(s')
    ensures LatestOk(s')
  {
    ActingIsCurrent(s, i);
    ActShape(s, i, io, ok, s');
    CancelStaysOk(s, i, AutoRevert.WorkerAct(s.timers[i].worker.progress >= 2), s'.timers[i], s');
    ContentIsTimerContent(s, i);
    if !s'.fault {
      ActKeepsRow(s, i, io, ok, s');
    }
    LatestFromTimer(s', i);
  }

  /** An action step moves its timer and the disk, nothing else. */
  lemma ActShape(s: System, i: TimerId, io: Io, ok: bool, s': System)
    requires Sized(s) && ActStep(s, i, io, ok) == Some(s')
    ensures OnlyTimer(s, s', i, s'.timers[i]) && CurrentTimer(s') == CurrentTimer(s) && (s.fault ==> s'.fault)
    ensures AutoRevert.Step(s.timers[i], AutoRevert.WorkerAct(s.timers[i].worker.progress >= 2)) == Some(s'.timers[i])
  {
  }

  lemma QuietIsDecided(s: System)
    requires Serial(s) && Quiet(s)
    ensures Decided(s)
  {
    forall i | 0 <= i < |s.timers|
      ensures Past(s, i)
    {
      QuietIsPast(s, i);
    }
  }

  /** A request that has just arrived changes nothing. */
  lemma StartPostKeepsLatest(s: System, h: HandlerId, p: Handler)
    requires Serial(s) && h !in s.handlers && p.PostBackup? && Sized(Goto(s, h, p))
    ensures LatestOk(Goto(s, h, p))
  {
    var s' := Goto(s, h, p);
    var c := CurrentTimer(s);
    assert CurrentTimer(s') == c && s.current != Some(h);
    if c.Some? {
      assert TimerOk(s, c.value);
      FrameTimer(s, s', h, c.value);
    }
  }

  /** Dropping the backup after a plain edit, or after a confirmation. */
  lemma DiscardKeepsLatest(s: System, h: HandlerId, ok: bool, s': System)
    requires Serial(s) && OtherStep(s, Discard(h, ok)) == Some(s') && (Late(s, h) ==> !NeedsBackup(s))
    requires Sized(s')
    ensures LatestOk(s')
  {
    if Late(s, h) {
      LateDiscardKeepsLatest(s, h, ok, s');
    } else if s.handlers[h].PostDiscard? {
      PlainDiscardKeepsLatest(s, h, ok, s');
    } else {
      ConfirmedDiscardKeepsLatest(s, h, s.handlers[h].t, ok, s');
    }
  }

  lemma PlainDiscardKeepsLatest(s: System, h: HandlerId, ok: bool, s': System)
    requires Serial(s) && OtherStep(s, Discard(h, ok)) == Some(s') && At(s, h, PostDiscard) && s.current == Some(h)
    requires Sized(s')
    ensures LatestOk(s')
  {
    assert CurrentTimer(s) == None && At(s', h, PostDone(OkReply));
  }

  lemma ConfirmedDiscardKeepsLatest(s: System, h: HandlerId, t: TimerId, ok: bool, s': System)
    requires Serial(s) && OtherStep(s, Discard(h, ok)) == Some(s') && At(s, h, ConfirmDiscard(t)) && CurrentTimer(s) == Some(t)
    requires Sized(s')
    ensures LatestOk(s')
  {
    assert HandlerOk(s, h) && CancelOk(s, t);
    ContentIsTimerContent(s, t);
    assert s'.handlers == s.handlers[h := ConfirmDrop(t, ConfirmedReply(t))] && SameEdit(s, s');
    LatestFromTimer(s', t);
  }

  /** A late discard that finds no backup it could do harm to. */
  lemma LateDiscardKeepsLatest(s: System, h: HandlerId, ok: bool, s': System)
    requires Serial(s) && OtherStep(s, Discard(h, ok)) == Some(s') && Late(s, h) && !NeedsBackup(s)
    requires Sized(s')
    ensures LatestOk(s')
  {
    var c := CurrentTimer(s);
    LateIsOther(s, h);
    assert CurrentTimer(s') == c;
    if c.Some? {
      LateCancelOk(s, h, s', c.value);
    }
    if !s'.fault {
      LateDiscardKeepsContent(s, h, s');
    }
  }

  lemma LateIsOther(s: System, h: HandlerId)
    requires Serial(s) && Late(s, h)
    ensures s.current != Some(h)
    ensures var c := CurrentTimer(s); c.Some? ==> c.value < |s.timers| && CancelOk(s, c.value) && s.owners[c.value] != With(h)
  {
    assert HandlerOk(s, h);
    if CurrentTimer(s).Some? {
      assert TimerOk(s, CurrentTimer(s).value);
    }
  }

  lemma LateDiscardKeepsContent(s: System, h: HandlerId, s': System)
    requires Sized(s) && Content(s) && !NeedsBackup(s) && s.current != Some(h)
    requires s'.timers == s.timers && s'.owners == s.owners && SameEdit(s, s') && s'.disk == s.disk.(bak := None)
    requires h in s'.handlers && s'.handlers == s.handlers[h := s'.handlers[h]]
    ensures Content(s')
  {
  }

  lemma LateCancelOk(s: System, h: HandlerId, s': System, c: TimerId)
    requires Linked(s) && c < |s.timers| && s'.timers == s.timers && s'.owners == s.owners && SameEdit(s, s')
    requires h in s.handlers && h in s'.handlers && s'.handlers == s.handlers[h := s'.handlers[h]]
    requires s.owners[c] != With(h) && !s.handlers[h].ConfirmDone? && CancelOk(s, c)
    ensures CancelOk(s', c)
  {
    assert TimerOk(s, c);
  }

  lemma GuardStepKeepsLatest(s: System, e: Event, s': System)
    requires Sized(s) && Serial(s) && IsGuardEvent(e) && GuardStep(s, e) == Some(s')
    requires Sized(s')
    ensures LatestOk(s')
  {
    var p := s.handlers[e.h];
    match e
    case Arm(h) => ArmKeepsLatest(s, h, p.text);
    case Insert(h) => InsertKeepsLatest(s, h, p.t);
    case FinishPost(h) => FinishPostKeepsLatest(s, h, p.t, p.replaced, s');
    case Take(h) => TakeKeepsLatest(s, h, s');
    case BeginCall(h) => TickKeepsLatest(s, p.t, AutoRevert.CallBegin(h), s');
    case Verdict(h) => VerdictKeepsLatest(s, h, s');
    case BeginDrop(h) => TickKeepsLatest(s, Owned(p).value, AutoRevert.DropBegin, s');
    case FinishConfirm(h) => FinishConfirmKeepsLatest(s, h, p.t, p.reply);
    case _ =>
  }

  lemma OtherStepKeepsLatest(s: System, e: Event, s': System)
    requires Serial(s) && !IsEditEvent(e) && !IsGuardEvent(e) && OtherStep(s, e) == Some(s')
    requires InTurn(s, e) && Sized(s')
    ensures LatestOk(s')
  {
    match e
    case StartPost(h, text, hold) => StartPostKeepsLatest(s, h, PostBackup(text, hold));
    case StartConfirm(h) => ConfirmStepKeepsLatest(s, s', h, None);
    case Discard(h, ok) => DiscardKeepsLatest(s, h, ok, s');
    case Tick(i, te) => TickKeepsLatest(s, i, te, s');
    case Act(i, io, ok) => ActKeepsLatest(s, i, io, ok, s');
    case _ =>
  }

  lemma StepKeepsSerial(s: System, e: Event, s': System)
    requires Serial(s) && Step(s, e) == Some(s') && InTurn(s, e)
    ensures Serial(s')
  {
    StepKeepsInv(s, e, s');
    StepKeepsEarlierOver(s, e, s');
    if e.Backup? {
      BackupKeepsLatest(s, e.h, e.io, s');
    } else if IsEditEvent(e) {
      EditStepKeepsLatest(s, e, s');
    } else if IsGuardEvent(e) {
      GuardStepKeepsLatest(s, e, s');
    } else {
      OtherStepKeepsLatest(s, e, s');
    }
  }

  lemma {:induction false} SerialRunKeepsSerial(s: System, es: seq<Event>, s': System)
    requires Serial(s) && SerialRun(s, es, s')
    ensures Serial(s')
    decreases |es|
  {
    if es != [] {
      StepKeepsSerial(s, es[0], Step(s, es[0]).value);
      SerialRunKeepsSerial(Step(s, es[0]).value, es[1..], s');
    }
  }

  // ------------------------------------------------------------ the guarantees

  /**
   * Any number of edits one after the other, with any confirmations in any
   * interleaving: whenever nothing is unresolved, the file holds the text that
   * was last committed or confirmed, and the service was last restarted on it.
   */
  lemma QuietMeansTrusted(s0: System, es: seq<Event>, s: System)
    requires Initial(s0) && SerialRun(s0, es, s) && Quiet(s) && !s.fault
    ensures s.disk.file == Some(s.trusted) && s.disk.served == Some(s.trusted)
  {
    SerialRunKeepsSerial(s0, es, s);
    QuietIsDecided(s);
    DecidedIsTrusted(s);
  }

  /**
   * A held edit settles in exactly one of two ways.  Either it was confirmed:
   * one request was told so, the edited text is in place and is what will be
   * restored from now on.  Or it was reverted: nobody was told "confirmed", the
   * file is byte for byte what it was before the edit.  No backup remains.
   */
  lemma HeldEditSettles(s0: System, es: seq<Event>, s: System, t: TimerId)
    requires Initial(s0) && SerialRun(s0, es, s) && Quiet(s) && !s.fault
    requires s.current.Some? && At(s, s.current.value, PostDone(PendingReply(t)))
    ensures t < |s.timers| && s.disk.bak == None
    ensures if s.timers[t].fired
            then s.disk.file == Some(s.base) && s.trusted == s.base && (forall h :: !At(s, h, ConfirmDone(ConfirmedReply(t))))
            else s.disk.file == Some(s.edit) && s.trusted == s.edit && (exists h :: At(s, h, ConfirmDone(ConfirmedReply(t))))
  {
    SerialRunKeepsSerial(s0, es, s);
    QuietTimerSettles(s, t);
  }

  lemma QuietTimerSettles(s: System, t: TimerId)
    requires Serial(s) && Quiet(s) && !s.fault && CurrentTimer(s) == Some(t)
    ensures t < |s.timers| && s.disk.bak == None
    ensures if s.timers[t].fired
            then s.disk.file == Some(s.base) && s.trusted == s.base && (forall h :: !At(s, h, ConfirmDone(ConfirmedReply(t))))
            else s.disk.file == Some(s.edit) && s.trusted == s.edit && (exists h :: At(s, h, ConfirmDone(ConfirmedReply(t))))
  {
    QuietIsPast(s, t);
    assert CancelOk(s, t) && TimerOk(s, t);
    ContentIsTimerContent(s, t);
    forall h | At(s, h, ConfirmDone(ConfirmedReply(t)))
      ensures !s.timers[t].fired
    {
      assert HandlerOk(s, h);
    }
  }

  /** A revert that fires, and a rollback, install the text that was last committed or confirmed. */
  lemma RevertInstallsTrusted(s0: System, es: seq<Event>, s: System, i: TimerId, io: Io, ok: bool, s': System)
    requires Initial(s0) && SerialRun(s0, es, s)
    requires ActStep(s, i, io, ok) == Some(s') && s.timers[i].worker.progress == 0 && !s'.fault
    ensures s.disk.bak == Some(s.trusted) && s'.disk.file == Some(s.trusted) && s'.trusted == s.trusted
  {
    SerialRunKeepsSerial(s0, es, s);
    ActingIsCurrent(s, i);
  }

  /** While a request still hears "already reverted" about the latest edit, the old text is back in full. */
  lemma AlreadyRevertedIsRestored(s0: System, es: seq<Event>, s: System, h: HandlerId, t: TimerId)
    requires Initial(s0) && SerialRun(s0, es, s) && !s.fault
    requires At(s, h, ConfirmDone(AlreadyReverted(t))) && CurrentTimer(s) == Some(t)
    ensures s.disk == Disk(Some(s.base), None, Some(s.base))
  {
    SerialRunKeepsSerial(s0, es, s);
    assert HandlerOk(s, h);
    GoneIsRestored(s, h, t);
  }

  lemma GoneIsRestored(s: System, h: HandlerId, t: TimerId)
    requires Serial(s) && !s.fault && CurrentTimer(s) == Some(t) && t < |s.timers|
    requires s.owners[t] == Gone(h) && s.timers[t].fired
    ensures s.disk == Disk(Some(s.base), None, Some(s.base))
  {
    assert TimerOk(s, t) && AutoRevert.Inv(s.timers[t]) && CancelOk(s, t);
    ContentIsTimerContent(s, t);
  }

  // ------------------------------------------------------------ building runs

  /** Extends a run by one enabled event. */
  lemma Go(s0: System, es: seq<Event>, s: System, e: Event) returns (es': seq<Event>, s': System)
    requires Sized(s0) && Sized(s) && Run(s0, es, s) && Step(s, e).Some?
    ensures s' == Step(s, e).value && Sized(s') && Run(s0, es', s')
  {
    es', s' := es + [e], Step(s, e).value;
    StepKeepsSized(s, e);
    assert Run(s, [e], s');
    RunAppend(s0, es, s, [e], s');
  }

  lemma {:induction false} RunAppend(s: System, es: seq<Event>, m: System, fs: seq<Event>, s': System)
    requires Sized(s) && Sized(m) && Run(s, es, m) && Run(m, fs, s')
    ensures Run(s, es + fs, s')
    decreases |es|
  {
    if es == [] {
      assert es + fs == fs;
    } else {
      StepKeepsSized(s, es[0]);
      assert (es + fs)[0] == es[0] && (es + fs)[1..] == es[1..] + fs;
      RunAppend(Step(s, es[0]).value, es[1..], m, fs, s');
    }
  }

  lemma ActIs(s: System, i: TimerId, io: Io, ok: bool, s': System)
    requires Sized(s) && i < |s.timers| && s.timers[i].worker.Acting? && Step(s, Act(i, io, ok)) == Some(s')
    ensures ActStep(s, i, io, ok) == Some(s') && s'.handlers == s.handlers && s'.trusted == s.trusted
    ensures var n := s.timers[i].worker.progress;
            s'.timers == s.timers[i := s.timers[i].(worker := if n >= 2 then AutoRevert.Exited else AutoRevert.Acting(n + 1))]
  {
  }

  /** One step of the action of a fired timer. */
  lemma ActOnce(s0: System, es: seq<Event>, s: System, i: TimerId, io: Io, ok: bool) returns (es': seq<Event>, s': System)
    requires Sized(s0) && Sized(s) && Run(s0, es, s) && i < |s.timers| && s.timers[i].worker.Acting?
    ensures Sized(s') && Run(s0, es', s') && Some(s') == ActStep(s, i, io, ok)
    ensures s'.handlers == s.handlers && s'.trusted == s.trusted
    ensures var n := s.timers[i].worker.progress;
            s'.timers == s.timers[i := s.timers[i].(worker := if n >= 2 then AutoRevert.Exited else AutoRevert.Acting(n + 1))]
  {
    assert Step(s, Act(i, io, ok)).Some?;
    es', s' := Go(s0, es, s, Act(i, io, ok));
    ActIs(s, i, io, ok, s');
  }

  /** The whole action of a fired timer: restore, restart, discard. */
  lemma ActionRuns(s0: System, es: seq<Event>, s: System, i: TimerId, io: Io, ok: bool, discard: bool)
    returns (es': seq<Event>, s': System)
    requires Sized(s0) && Sized(s) && Run(s0, es, s) && i < |s.timers| && s.timers[i].worker == AutoRevert.Acting(0)
    ensures Sized(s') && Run(s0, es', s') && s'.handlers == s.handlers && s'.trusted == s.trusted
    ensures s'.disk == DiscardBackup(ConfigDisk.Restart(RestoreBackup(s.disk, io), ok), discard)
    ensures s'.fault == (s.fault || !CopyWorks(s.disk.bak, io) || !ok || !discard)
    ensures s'.timers == s.timers[i := s.timers[i].(worker := AutoRevert.Exited)]
  {
    var s1, s2;
    es', s1 := ActOnce(s0, es, s, i, io, true);
    es', s2 := ActOnce(s0, es', s1, i, Done, ok);
    es', s' := ActOnce(s0, es', s2, i, Done, discard);
  }
}
