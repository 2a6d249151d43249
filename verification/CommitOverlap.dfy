/**
 * Edits that overlap: when the backup of a second edit still holds the trusted
 * text, what is lost when it does not, and a race between a confirmation and the
 * next edit.
 */
module CommitOverlap {
  import opened Results
  import opened ConfigDisk
  import opened CommitConfirm
  import AutoRevert

  // ------------------------------------------------ whether the next backup is the trusted text

  lemma FileIsTrusted(s: System)
    requires Serial(s) && !s.fault
    ensures s.disk.file.Some? && (s.disk.file == Some(s.trusted) <==> !Unconfirmed(s) || s.edit == s.trusted)
    ensures Unconfirmed(s) ==> s.disk.file == Some(s.edit) && s.disk.bak == Some(s.trusted)
  {
  }

  lemma BackupShape(s: System, h: HandlerId, text: string, hold: bool, s': System)
    requires Sized(s) && At(s, h, PostBackup(text, hold)) && Step(s, Backup(h, Done)) == Some(s') && s.disk.file.Some?
    ensures s'.disk == s.disk.(bak := s.disk.file) && s'.trusted == s.trusted
    ensures s'.handlers == s.handlers[h := PostWrite(text, hold)]
  {
  }

  // ------------------------------------------------ a text that is gone stays gone

  /** The request is still going to write this text. */
  predicate WillWrite(p: Handler, text: string) {
    (p.PostBackup? || p.PostWrite?) && p.text == text
  }

  predicate NobodyWrites(s: System, text: string) {
    forall h | h in s.handlers :: !WillWrite(s.handlers[h], text)
  }

  /** The text is on neither file nor backup, and no request is going to write it. */
  predicate Lost(s: System, text: string) {
    s.disk.file != Some(text) && s.disk.bak != Some(text) && NobodyWrites(s, text)
  }

  predicate Leaves(io: Io, text: string) {
    io.Failed? && io.leaves == Some(text)
  }

  /** Somebody posts the text again, or a failing copy or write happens to leave it behind. */
  predicate BringsBack(e: Event, text: string) {
    match e
    case StartPost(_, t, _) => t == text
    case Backup(_, io) => Leaves(io, text)
    case Write(_, io) => Leaves(io, text)
    case Restore(_, io) => Leaves(io, text)
    case Act(_, io, _) => Leaves(io, text)
    case _ => false
  }

  lemma EditStepKeepsLost(s: System, e: Event, s': System, text: string)
    requires Lost(s, text) && IsEditEvent(e) && EditStep(s, e) == Some(s') && !BringsBack(e, text)
    ensures Lost(s', text)
  {
    assert s'.handlers == s.handlers[e.h := s'.handlers[e.h]];
    assert !WillWrite(s.handlers[e.h], text);
  }

  lemma GuardStepKeepsLost(s: System, e: Event, s': System, text: string)
    requires Lost(s, text) && Sized(s) && IsGuardEvent(e) && GuardStep(s, e) == Some(s')
    ensures Lost(s', text)
  {
    GuardStepMoves(s, e, s');
  }

  lemma StepKeepsLost(s: System, e: Event, s': System, text: string)
    requires Lost(s, text) && Sized(s) && Step(s, e) == Some(s') && !BringsBack(e, text)
    ensures Lost(s', text)
  {
    if IsEditEvent(e) {
      EditStepKeepsLost(s, e, s', text);
    } else if IsGuardEvent(e) {
      GuardStepKeepsLost(s, e, s', text);
    } else {
    }
  }

  /** In every run in which nobody posts it again, a lost text stays lost. */
  lemma {:induction false} RunKeepsLost(s: System, es: seq<Event>, s': System, text: string)
    requires Lost(s, text) && Sized(s) && Run(s, es, s') && forall e | e in es :: !BringsBack(e, text)
    ensures Lost(s', text)
    decreases |es|
  {
    if es != [] {
      assert es[0] in es;
      StepKeepsSized(s, es[0]);
      StepKeepsLost(s, es[0], Step(s, es[0]).value, text);
      RunKeepsLost(Step(s, es[0]).value, es[1..], s', text);
    }
  }

  /** A request that goes on with what it had to write leaves the others alone. */
  lemma NobodyWritesStays(s: System, s': System, h: HandlerId, p: Handler, text: string)
    requires h in s.handlers && s'.handlers == s.handlers[h := p] && (WillWrite(p, text) <==> WillWrite(s.handlers[h], text))
    ensures NobodyWrites(s', text) <==> NobodyWrites(s, text)
  {
    if NobodyWrites(s', text) {
      forall g | g in s.handlers
        ensures !WillWrite(s.handlers[g], text)
      {
        assert g != h ==> s'.handlers[g] == s.handlers[g];
        assert g in s'.handlers && !WillWrite(s'.handlers[g], text);
      }
    }
  }

  /**
   * Exactly when an edit that does not wait its turn costs the trusted text: at
   * the moment it takes its backup, the trusted text is either in that backup or
   * only in the requests that are still to write it, and it is not in the backup
   * if and only if the latest edit's text is on disk unconfirmed and differs.
   */
  lemma SecondEditLosesIff(s: System, h: HandlerId, text: string, hold: bool, s': System)
    requires Serial(s) && !s.fault && At(s, h, PostBackup(text, hold)) && Step(s, Backup(h, Done)) == Some(s')
    ensures s'.disk.bak == Some(s.trusted) <==> !(Unconfirmed(s) && s.edit != s.trusted)
    ensures Lost(s', s.trusted) <==> Unconfirmed(s) && s.edit != s.trusted && NobodyWrites(s, s.trusted)
  {
    FileIsTrusted(s);
    BackupShape(s, h, text, hold, s');
    NobodyWritesStays(s, s', h, PostWrite(text, hold), s.trusted);
  }

  /** So in that case no continuation of any length has it on disk again, unless somebody posts it. */
  lemma OverlapLosesForGood(s: System, h: HandlerId, text: string, hold: bool, m: System, es: seq<Event>, s': System)
    requires Serial(s) && !s.fault && At(s, h, PostBackup(text, hold)) && Step(s, Backup(h, Done)) == Some(m)
    requires Unconfirmed(s) && s.edit != s.trusted && NobodyWrites(s, s.trusted)
    requires Sized(m) && Run(m, es, s') && forall e | e in es :: !BringsBack(e, s.trusted)
    ensures s'.disk.file != Some(s.trusted) && s'.disk.bak != Some(s.trusted)
  {
    SecondEditLosesIff(s, h, text, hold, m);
    RunKeepsLost(m, es, s', s.trusted);
  }

  // ------------------------------------------------ a run that loses it

  /** An edit runs up to its verification. */
  lemma EditToVerify(s0: System, es: seq<Event>, s: System, h: HandlerId, text: string)
    returns (es': seq<Event>, s': System)
    requires Sized(s0) && Sized(s) && Run(s0, es, s) && h !in s.handlers && s.disk.file.Some?
    ensures Sized(s') && Run(s0, es', s')
    ensures s' == s.(disk := Disk(Some(text), s.disk.file, Some(text)), handlers := s.handlers[h := PostVerify(text, true)],
                     base := s.trusted, edit := text, accepted := false, current := Some(h))
  {
    es', s' := EditToWrite(s0, es, s, h, text);
    es', s' := Go(s0, es', s', Write(h, Done));
    es', s' := Go(s0, es', s', RestartNew(h, true));
    assert s'.handlers == s.handlers[h := PostVerify(text, true)];
  }

  lemma EditToWrite(s0: System, es: seq<Event>, s: System, h: HandlerId, text: string)
    returns (es': seq<Event>, s': System)
    requires Sized(s0) && Sized(s) && Run(s0, es, s) && h !in s.handlers && s.disk.file.Some?
    ensures Sized(s') && Run(s0, es', s')
    ensures s' == s.(disk := s.disk.(bak := s.disk.file), handlers := s.handlers[h := PostWrite(text, true)],
                     base := s.trusted, edit := text, accepted := false, current := Some(h))
  {
    es', s' := Go(s0, es, s, StartPost(h, text, true));
    es', s' := Go(s0, es', s', Backup(h, Done));
    assert s'.handlers == s.handlers[h := PostWrite(text, true)];
  }

  /** A run of one timer is a run of the system. */
  lemma {:induction false} LiftRun(s0: System, es: seq<Event>, s: System, i: TimerId, tes: seq<AutoRevert.Event>, t': AutoRevert.Timer)
    returns (es': seq<Event>, s': System)
    requires Sized(s0) && Sized(s) && Run(s0, es, s) && i < |s.timers| && AutoRevert.Run(s.timers[i], tes, t')
    requires AutoRevert.Quiet(tes)
    ensures Sized(s') && Run(s0, es', s') && s' == s.(timers := s.timers[i := t'])
    decreases |tes|
  {
    es', s' := es, s;
    if tes == [] {
      assert s.timers == s.timers[i := t'];
    } else {
      var m := AutoRevert.Step(s.timers[i], tes[0]).value;
      assert tes[0] in tes && AutoRevert.Quiet(tes[1..]);
      es', s' := Go(s0, es, s, Tick(i, tes[0]));
      assert s' == s.(timers := s.timers[i := m]);
      es', s' := LiftRun(s0, es', s', i, tes[1..], t');
      assert s.timers[i := m][i := t'] == s.timers[i := t'];
    }
  }

  /** Nobody confirms timer `i`: it fires and its action runs to the end. */
  lemma TimerFires(s0: System, es: seq<Event>, s: System, i: TimerId) returns (es': seq<Event>, s': System)
    requires Sized(s0) && Sized(s) && Run(s0, es, s) && i < |s.timers| && s.timers[i] == AutoRevert.Armed && s.disk.bak.Some?
    ensures Sized(s') && Run(s0, es', s')
    ensures s'.disk == Disk(s.disk.bak, None, s.disk.bak) && s'.handlers == s.handlers && s'.fault == s.fault
    ensures |s'.timers| == |s.timers| && s'.timers[i].worker.Exited?
    ensures forall j | 0 <= j < |s.timers| && j != i :: s'.timers[j] == s.timers[j]
  {
    var tes, t := AutoRevert.TimeoutFires();
    es', s' := LiftRun(s0, es, s, i, tes, t);
    es', s' := ActionRuns(s0, es', s', i, Done, true, true);
  }

  /** A first held edit is staged and its request answered. */
  lemma StageFirst(s0: System, text: string) returns (es: seq<Event>, s: System)
    requires Initial(s0)
    ensures Sized(s) && Run(s0, es, s) && !s.fault
    ensures s.timers == [AutoRevert.Armed] && s.handlers == map[0 := PostDone(PendingReply(0))]
    ensures s.disk == Disk(Some(text), s0.disk.file, Some(text)) && s.texts == [text]
    ensures s.pending == Some(0) && s.mapLock == None
  {
    es, s := EditToVerify(s0, [], s0, 0, text);
    es, s := Go(s0, es, s, Verify(0, true));
    assert s.handlers == map[0 := PostArm(text)];
    es, s := ArmFirst(s0, es, s, text);
  }

  lemma ArmFirst(s0: System, es: seq<Event>, s: System, text: string) returns (es': seq<Event>, s': System)
    requires Sized(s0) && Sized(s) && Run(s0, es, s)
    requires s.handlers == map[0 := PostArm(text)] && s.timers == [] && s.pending == None && s.mapLock == None
    ensures Sized(s') && Run(s0, es', s') && s'.disk == s.disk && s'.fault == s.fault && s'.texts == [text]
    ensures s'.pending == Some(0) && s'.mapLock == None
    ensures s'.timers == [AutoRevert.Armed] && s'.handlers == map[0 := PostDone(PendingReply(0))]
  {
    es', s' := Go(s0, es, s, Arm(0));
    assert s'.handlers == map[0 := PostInsert(0)] && s'.timers == [AutoRevert.Armed] && s'.pending == None && s'.mapLock == None;
    assert s'.texts == [text];
    es', s' := InsertFirst(s0, es', s');
  }

  lemma InsertFirst(s0: System, es: seq<Event>, s: System) returns (es': seq<Event>, s': System)
    requires Sized(s0) && Sized(s) && Run(s0, es, s)
    requires s.handlers == map[0 := PostInsert(0)] && |s.timers| == 1 && s.pending == None && s.mapLock == None
    ensures Sized(s') && Run(s0, es', s') && s'.disk == s.disk && s'.fault == s.fault && s'.texts == s.texts
    ensures s'.pending == Some(0) && s'.mapLock == None
    ensures s'.timers == s.timers && s'.handlers == map[0 := PostDone(PendingReply(0))]
  {
    es', s' := Go(s0, es, s, Insert(0));
    assert s'.handlers == map[0 := PostReplace(0, None)] && s'.timers == s.timers;
    es', s' := Go(s0, es', s', FinishPost(0));
  }

  /** A second edit does not come up and is rolled back from the backup it made. */
  lemma FailSecond(s0: System, es: seq<Event>, s: System, h: HandlerId, text: string)
    returns (es': seq<Event>, s': System)
    requires Sized(s0) && Sized(s) && Run(s0, es, s) && h !in s.handlers && s.disk.file.Some?
    ensures Sized(s') && Run(s0, es', s') && s'.fault == s.fault && s'.timers == s.timers
    ensures s'.handlers == s.handlers[h := PostDone(ErrorReply)]
    ensures s'.disk == Disk(s.disk.file, s.disk.file, s.disk.file)
  {
    es', s' := EditToVerify(s0, es, s, h, text);
    es', s' := Go(s0, es', s', Verify(h, false));
    assert s'.handlers == s.handlers[h := PostRestore] && s'.disk == Disk(Some(text), s.disk.file, Some(text));
    es', s' := RollBack(s0, es', s', h);
  }

  lemma RollBack(s0: System, es: seq<Event>, s: System, h: HandlerId) returns (es': seq<Event>, s': System)
    requires Sized(s0) && Sized(s) && Run(s0, es, s) && At(s, h, PostRestore) && s.disk.bak.Some?
    ensures Sized(s') && Run(s0, es', s') && s'.fault == s.fault && s'.timers == s.timers
    ensures s'.handlers == s.handlers[h := PostDone(ErrorReply)]
    ensures s'.disk == Disk(s.disk.bak, s.disk.bak, s.disk.bak)
  {
    es', s' := Go(s0, es, s, Restore(h, Done));
    assert s' == s.(disk := s.disk.(file := s.disk.bak), handlers := s.handlers[h := PostRestartOld]);
    es', s' := RestartsOld(s0, es', s', h);
    assert s.handlers[h := PostRestartOld][h := PostDone(ErrorReply)] == s.handlers[h := PostDone(ErrorReply)];
  }

  lemma RestartsOld(s0: System, es: seq<Event>, s: System, h: HandlerId) returns (es': seq<Event>, s': System)
    requires Sized(s0) && Sized(s) && Run(s0, es, s) && At(s, h, PostRestartOld)
    ensures Sized(s') && Run(s0, es', s')
    ensures s' == s.(disk := s.disk.(served := s.disk.file), handlers := s.handlers[h := PostDone(ErrorReply)])
  {
    es', s' := Go(s0, es, s, RestartOld(h, true));
  }

  /**
   * The restriction to edits that do not overlap is needed.  Text `a` is
   * staged; while it is pending a second edit `b` fails to come up and is
   * rolled back.  Its backup was `a`, so the rollback leaves `a`, and when the
   * first timer fires it restores `a` as well: the text confirmed before is
   * lost although nobody confirmed anything and no step failed.
   */
  lemma OverlapLosesTrustedText(s0: System, a: string, b: string)
    requires Initial(s0)
    ensures exists es, s :: Sized(s) && Run(s0, es, s) && Quiet(s) && !s.fault
              && s.disk.file == Some(a) && s.disk.bak == None
              && forall h | h in s.handlers :: s.handlers[h].PostDone?
  {
    var es, s := StageFirst(s0, a);
    es, s := FailSecond(s0, es, s, 1, b);
    es, s := TimerFires(s0, es, s, 0);
  }

  // ------------------------------------------------ a confirmation and the next edit

  /** A confirmation takes the guard and is told in time; its `discard_backup` is still to come. */
  lemma ConfirmToDiscard(s0: System, es: seq<Event>, s: System, h: HandlerId, t: TimerId)
    returns (es': seq<Event>, s': System)
    requires Sized(s0) && Sized(s) && Run(s0, es, s) && h !in s.handlers
    requires s.pending == Some(t) && s.mapLock == None && t < |s.timers| && s.timers[t] == AutoRevert.Armed
    ensures Sized(s') && Run(s0, es', s') && s'.disk == s.disk && s'.trusted == TextOf(s, t) && s'.fault == s.fault
    ensures s'.handlers == s.handlers[h := ConfirmDiscard(t)] && |s'.timers| == |s.timers|
  {
    es', s' := ConfirmToCall(s0, es, s, h, t);
    es', s' := CallReturns(s0, es', s', h, t);
    es', s' := ToldInTime(s0, es', s', h, t);
  }

  lemma ToldInTime(s0: System, es: seq<Event>, s: System, h: HandlerId, t: TimerId)
    returns (es': seq<Event>, s': System)
    requires Sized(s0) && Sized(s) && Run(s0, es, s) && At(s, h, ConfirmCall(t))
    requires t < |s.timers| && s.timers[t].calls == map[h := AutoRevert.Returned(true)]
    ensures Sized(s') && Run(s0, es', s')
    ensures s' == Goto(Accepted(s, t), h, ConfirmDiscard(t))
  {
    es', s' := Go(s0, es, s, Verdict(h));
  }

  lemma ConfirmToCall(s0: System, es: seq<Event>, s: System, h: HandlerId, t: TimerId)
    returns (es': seq<Event>, s': System)
    requires Sized(s0) && Sized(s) && Run(s0, es, s) && h !in s.handlers
    requires s.pending == Some(t) && s.mapLock == None && t < |s.timers|
    ensures Sized(s') && Run(s0, es', s') && s'.disk == s.disk && s'.texts == s.texts && s'.fault == s.fault
    ensures s'.handlers == s.handlers[h := ConfirmCall(t)] && s'.timers == s.timers
  {
    es', s' := Go(s0, es, s, StartConfirm(h));
    assert s' == Goto(s, h, ConfirmTake);
    es', s' := TakesGuard(s0, es', s', h, t);
    assert s.handlers[h := ConfirmTake][h := ConfirmCall(t)] == s.handlers[h := ConfirmCall(t)];
  }

  lemma TakesGuard(s0: System, es: seq<Event>, s: System, h: HandlerId, t: TimerId)
    returns (es': seq<Event>, s': System)
    requires Sized(s0) && Sized(s) && Run(s0, es, s) && At(s, h, ConfirmTake)
    requires s.pending == Some(t) && s.mapLock == None && t < |s.timers|
    ensures Sized(s') && Run(s0, es', s') && s' == Taken(s, h, t)
  {
    es', s' := Go(s0, es, s, Take(h));
  }

  lemma CallReturns(s0: System, es: seq<Event>, s: System, h: HandlerId, t: TimerId)
    returns (es': seq<Event>, s': System)
    requires Sized(s0) && Sized(s) && Run(s0, es, s) && At(s, h, ConfirmCall(t))
    requires t < |s.timers| && s.timers[t] == AutoRevert.Armed
    ensures Sized(s') && Run(s0, es', s') && |s'.timers| == |s.timers|
    ensures s' == s.(timers := s.timers[t := AutoRevert.Armed.(calls := map[h := AutoRevert.Returned(true)],
                                                               cancelled := true, signalled := true)])
  {
    var begun, tes, t' := AutoRevert.ConfirmReturns(AutoRevert.Armed, h);
    es', s' := Go(s0, es, s, BeginCall(h));
    assert s' == s.(timers := s.timers[t := begun]);
    es', s' := LiftRun(s0, es', s', t, tes, t');
    assert s.timers[t := begun][t := t'] == s.timers[t := t'];
  }

  /** A timer without a backup: its action leaves the file as it is. */
  lemma FiresInVain(s0: System, es: seq<Event>, s: System, i: TimerId) returns (es': seq<Event>, s': System)
    requires Sized(s0) && Sized(s) && Run(s0, es, s) && i < |s.timers| && s.timers[i] == AutoRevert.Armed
    requires s.disk.bak == None
    ensures Sized(s') && Run(s0, es', s') && s'.disk == s.disk.(served := s.disk.file) && s'.trusted == s.trusted
    ensures |s'.timers| == |s.timers| && s'.timers[i].worker.Exited? && s'.timers[i].fired
  {
    var tes, t := AutoRevert.TimeoutFires();
    es', s' := LiftRun(s0, es, s, i, tes, t);
    es', s' := ActionRuns(s0, es', s', i, Done, true, true);
  }

  /**
   * A confirmed edit is not over when its confirmation is decided.  Text `a` is
   * confirmed in time; before that request discards its backup the next edit `b`
   * takes one, and the discard deletes it.  When `b` is not confirmed its timer
   * fires and restores nothing: `b` stays, and `a`, confirmed, is on neither file
   * nor backup.  No copy, write, restart or removal has failed, only the restore
   * found no backup.
   */
  lemma ConfirmDiscardsNextBackup(s0: System, a: string, b: string)
    requires Initial(s0) && a != b
    ensures exists es, s, t: TimerId :: Sized(s) && Run(s0, es, s) && s.trusted == a
              && s.disk == Disk(Some(b), None, Some(b))
              && t < |s.timers| && s.timers[t].fired && s.timers[t].worker.Exited?
  {
    var es, s := StageFirst(s0, a);
    es, s := ConfirmToDiscard(s0, es, s, 1, 0);
    es, s := EditToVerify(s0, es, s, 2, b);
    es, s := LateDiscard(s0, es, s, 1, 2, b);
    es, s := ArmsTimer(s0, es, s, 2, b);
    es, s := FiresInVain(s0, es, s, 1);
    assert s.timers[1].fired;
  }

  /**
   * A request that committed or was told "confirmed" discards the backup
   * afterwards, and by then the backup may be the next edit's.  The removal costs
   * the trusted text if and only if it works while the latest edit's text is on
   * disk unconfirmed and differs, and nobody is to write the trusted text.
   */
  lemma LateDiscardLosesIff(s: System, h: HandlerId, ok: bool, s': System)
    requires Serial(s) && !s.fault && Late(s, h) && Step(s, Discard(h, ok)) == Some(s')
    ensures Lost(s', s.trusted) <==> ok && Unconfirmed(s) && s.edit != s.trusted && NobodyWrites(s, s.trusted)
  {
    FileIsTrusted(s);
    DiscardShape(s, h, ok, s');
    NobodyWritesStays(s, s', h, s'.handlers[h], s.trusted);
  }

  lemma DiscardShape(s: System, h: HandlerId, ok: bool, s': System)
    requires Sized(s) && Step(s, Discard(h, ok)) == Some(s')
    ensures s'.disk == DiscardBackup(s.disk, ok) && h in s.handlers && h in s'.handlers
    ensures s'.handlers == s.handlers[h := s'.handlers[h]] && (forall text :: !WillWrite(s.handlers[h], text) && !WillWrite(s'.handlers[h], text))
  {
  }

  /** No backup is left, request `g` is about to write, and nobody is to write the text. */
  predicate Doomed(s: System, g: HandlerId, p: Handler, text: string) {
    && s.disk.bak == None && At(s, g, p) && p.PostWrite? && NobodyWrites(s, text)
  }

  lemma StepKeepsDoomed(s: System, e: Event, s': System, g: HandlerId, p: Handler, text: string)
    requires Doomed(s, g, p, text) && Sized(s) && Step(s, e) == Some(s') && !BringsBack(e, text) && !e.Backup?
    ensures Doomed(s', g, p, text) || Lost(s', text)
  {
    if IsEditEvent(e) {
      EditStepKeepsDoomed(s, e, s', g, p, text);
    } else if IsGuardEvent(e) {
      GuardStepMoves(s, e, s');
      GuardStepKeepsDisk(s, e, s');
    } else {
      OtherStepKeepsDoomed(s, e, s', g, p, text);
    }
  }

  lemma GuardStepKeepsDisk(s: System, e: Event, s': System)
    requires Sized(s) && IsGuardEvent(e) && GuardStep(s, e) == Some(s')
    ensures s'.disk == s.disk
  {
  }

  lemma OtherStepKeepsDoomed(s: System, e: Event, s': System, g: HandlerId, p: Handler, text: string)
    requires Doomed(s, g, p, text) && !IsEditEvent(e) && !IsGuardEvent(e) && OtherStep(s, e) == Some(s') && !BringsBack(e, text)
    ensures Doomed(s', g, p, text)
  {
    match e
    case Discard(h, _) => assert s'.handlers == s.handlers[h := s'.handlers[h]];
    case _ =>
  }

  lemma EditStepKeepsDoomed(s: System, e: Event, s': System, g: HandlerId, p: Handler, text: string)
    requires Doomed(s, g, p, text) && IsEditEvent(e) && EditStep(s, e) == Some(s') && !BringsBack(e, text) && !e.Backup?
    ensures Doomed(s', g, p, text) || Lost(s', text)
  {
    assert s'.handlers == s.handlers[e.h := s'.handlers[e.h]];
    assert !WillWrite(s.handlers[e.h], text);
  }

  lemma {:induction false} DoomedIsLost(s: System, es: seq<Event>, s': System, g: HandlerId, p: Handler, text: string)
    requires Doomed(s, g, p, text) && Sized(s) && Run(s, es, s')
    requires forall e | e in es :: !BringsBack(e, text) && !e.Backup?
    ensures At(s', g, p) || Lost(s', text)
    decreases |es|
  {
    if es != [] {
      assert es[0] in es;
      var m := Step(s, es[0]).value;
      StepKeepsSized(s, es[0]);
      StepKeepsDoomed(s, es[0], m, g, p, text);
      if Lost(m, text) {
        RunKeepsLost(m, es[1..], s', text);
      } else {
        DoomedIsLost(m, es[1..], s', g, p, text);
      }
    }
  }

  /**
   * The late removal may also come before the latest edit writes.  Then the
   * trusted text is lost as soon as that edit does, in every run in which nobody
   * takes a backup or posts the text again.
   */
  lemma LateDiscardBeforeWrite(s: System, h: HandlerId, g: HandlerId, p: Handler, m: System, es: seq<Event>, s': System)
    requires Sized(s) && Late(s, h) && Step(s, Discard(h, true)) == Some(m)
    requires At(s, g, p) && p.PostWrite? && NobodyWrites(s, s.trusted)
    requires Sized(m) && Run(m, es, s') && forall e | e in es :: !BringsBack(e, s.trusted) && !e.Backup?
    ensures At(s', g, p) || Lost(s', s.trusted)
  {
    DiscardShape(s, h, true, m);
    NobodyWritesStays(s, m, h, m.handlers[h], s.trusted);
    DoomedIsLost(m, es, s', g, p, s.trusted);
  }

  lemma LateDiscard(s0: System, es: seq<Event>, s: System, h: HandlerId, g: HandlerId, text: string)
    returns (es': seq<Event>, s': System)
    requires Sized(s0) && Sized(s) && Run(s0, es, s) && h in s.handlers && s.handlers[h].ConfirmDiscard?
    requires At(s, g, PostVerify(text, true))
    ensures Sized(s') && Run(s0, es', s') && At(s', g, PostVerify(text, true))
    ensures s'.disk == s.disk.(bak := None) && s'.timers == s.timers && s'.trusted == s.trusted
  {
    es', s' := Go(s0, es, s, Discard(h, true));
  }

  lemma ArmsTimer(s0: System, es: seq<Event>, s: System, h: HandlerId, text: string)
    returns (es': seq<Event>, s': System)
    requires Sized(s0) && Sized(s) && Run(s0, es, s) && At(s, h, PostVerify(text, true))
    ensures Sized(s') && Run(s0, es', s') && s'.disk == s.disk && s'.trusted == s.trusted
    ensures s'.timers == s.timers + [AutoRevert.Armed]
  {
    es', s' := Go(s0, es, s, Verify(h, true));
    assert s' == Goto(s, h, PostArm(text));
    es', s' := Go(s0, es', s', Arm(h));
  }
}
