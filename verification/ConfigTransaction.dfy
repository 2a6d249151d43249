/**
 * One edit of a managed configuration from check to verified restart, with every
 * point at which it can fail: `apply_wifi`, `apply_dhcp` and the helpers they
 * share.  The object is the file, its backup and the service; the outcome of each
 * I/O step is a parameter.
 */
module ConfigTransaction {
  import opened Results
  import opened ConfigDisk
  import opened LineConf
  import opened Numbers
  import opened WifiSettings
  import HostapdConf
  import DhcpConf
  import CommitConfirm
  import AutoRevert

  // ------------------------------------------------------- waiting for a service

  /** `running(k)` is the answer to the poll with number `k`, `now(k)` the clock right after it. */
  datatype Polls = Polls(start: nat, timeout: nat, interval: nat, running: nat -> bool, now: nat -> nat)

  /** Sleeping between two polls takes at least the interval. */
  ghost predicate TimePasses(p: Polls) {
    p.interval > 0 && p.now(0) >= p.start && forall k: nat :: p.now(k + 1) >= p.now(k) + p.interval
  }

  /** Poll `k` is answered yes, and the deadline had not passed after any poll before it. */
  ghost predicate UpAt(p: Polls, k: nat) {
    p.running(k) && forall j: nat | j < k :: p.now(j) < p.start + p.timeout
  }

  ghost predicate ComesUp(p: Polls) {
    exists k: nat :: UpAt(p, k)
  }

  lemma {:induction false} ClockRuns(p: Polls, k: nat)
    requires TimePasses(p)
    ensures p.now(k) >= p.start + k * p.interval
  {
    if k > 0 {
      ClockRuns(p, k - 1);
      assert p.now((k - 1) + 1) >= p.now(k - 1) + p.interval;
    }
  }

  /** True iff some poll before or right at the deadline finds the service up; the number of polls is bounded. */
  method WaitUntilRunning(p: Polls) returns (up: bool, ghost polls: nat)
    requires TimePasses(p)
    ensures up <==> ComesUp(p)
    ensures forall j: nat | j + 1 < polls :: !p.running(j)
    ensures polls >= 1 && up == p.running(polls - 1)
    ensures polls >= 2 ==> (polls - 2) * p.interval < p.timeout
  {
    var deadline := p.start + p.timeout;
    var k := 0;
    while true
      invariant forall j: nat | j < k :: !p.running(j) && p.now(j) < deadline
      decreases deadline - k * p.interval
    {
      if k > 0 {
        ClockRuns(p, k - 1);
      }
      if p.running(k) {
        assert UpAt(p, k);
        return true, k + 1;
      }
      if p.now(k) >= deadline {
        return false, k + 1;
      }
      ClockRuns(p, k);
      k := k + 1;
    }
  }

  // ------------------------------------------------- from backup to verification

  datatype Commit = Now | Hold

  /** What the environment does to the steps of one edit. */
  datatype World = World(
    backup: Io, write: Io, restart: bool, polls: Polls, discard: bool, restore: Io, restartOld: bool)

  datatype Outcome = Installed | BackupFailed | WriteFailed | ServiceFailed | RolledBack

  ghost function Rollback(d: Disk, w: World): Disk {
    ConfigDisk.Restart(RestoreBackup(d, w.restore), w.restartOld)
  }

  /** From the restart on. */
  ghost function Finish(d: Disk, commit: Commit, w: World): (Disk, Outcome) {
    var d1 := ConfigDisk.Restart(d, w.restart);
    if !w.restart then (Rollback(d1, w), ServiceFailed)
    else if !ComesUp(w.polls) then (Rollback(d1, w), RolledBack)
    else (if commit.Now? then DiscardBackup(d1, w.discard) else d1, Installed)
  }

  /** The file, the backup and the service after each ending, step by step. */
  ghost function Install(d: Disk, text: string, commit: Commit, w: World): (Disk, Outcome) {
    var d1 := BackUp(d, w.backup);
    if !CopyWorks(d.file, w.backup) then (d1, BackupFailed) else
    var d2 := Overwrite(d1, text, w.write);
    if w.write.Failed? then (d2, WriteFailed) else
    Finish(d2, commit, w)
  }

  /** A managed file beside its `.bak`, and the text its service was last restarted on. */
  class Store {
    var file: Option<string>
    var bak: Option<string>
    var served: Option<string>

    function View(): Disk
      reads this
    {
      Disk(file, bak, served)
    }

    constructor (d: Disk)
      ensures View() == d
    {
      file, bak, served := d.file, d.bak, d.served;
    }

    method Backup(io: Io) returns (ok: bool)
      modifies this
      ensures View() == BackUp(old(View()), io) && ok == CopyWorks(old(file), io)
    {
      ok := file.Some? && io.Done?;
      if file.Some? {
        bak := if io.Done? then file else io.leaves;
      }
    }

    method Restore(io: Io) returns (ok: bool)
      modifies this
      ensures View() == RestoreBackup(old(View()), io) && ok == CopyWorks(old(bak), io)
    {
      ok := bak.Some? && io.Done?;
      if bak.Some? {
        file := if io.Done? then bak else io.leaves;
      }
    }

    method Write(text: string, io: Io) returns (ok: bool)
      modifies this
      ensures View() == Overwrite(old(View()), text, io) && ok == io.Done?
    {
      ok := io.Done?;
      file := if ok then Some(text) else io.leaves;
    }

    method RestartService(ok: bool)
      modifies this
      ensures View() == ConfigDisk.Restart(old(View()), ok)
    {
      served := if ok then file else None;
    }

    method Discard(ok: bool)
      modifies this
      ensures View() == DiscardBackup(old(View()), ok)
    {
      if ok {
        bak := None;
      }
    }

    /** `revert`: both steps are best effort. */
    method Revert(w: World)
      modifies this
      ensures View() == Rollback(old(View()), w)
    {
      var restored := Restore(w.restore);
      RestartService(w.restartOld);
    }

    /** The action a timer is armed with: revert, then discard the backup. */
    method RevertAction(w: World)
      modifies this
      ensures View() == DiscardBackup(Rollback(old(View()), w), w.discard)
    {
      Revert(w);
      Discard(w.discard);
    }

    /** The shared second half of `apply_wifi` and `apply_dhcp`. */
    method InstallText(text: string, commit: Commit, w: World) returns (r: Outcome)
      requires TimePasses(w.polls)
      modifies this
      ensures (View(), r) == Install(old(View()), text, commit, w)
    {
      var saved := Backup(w.backup);
      if !saved {
        return BackupFailed;
      }
      var written := Write(text, w.write);
      if !written {
        return WriteFailed;
      }
      RestartService(w.restart);
      if !w.restart {
        Revert(w);
        return ServiceFailed;
      }
      ghost var polls;
      var up;
      up, polls := WaitUntilRunning(w.polls);
      if !up {
        Revert(w);
        return RolledBack;
      }
      if commit == Now {
        Discard(w.discard);
      }
      r := Installed;
    }

    /** `apply_wifi` */
    method ApplyWifi(s: Settings, commit: Commit, env: WifiEnv, w: World) returns (r: Result<(), WifiError>)
      requires TimePasses(w.polls)
      modifies this
      ensures (View(), r) == WifiRun(old(View()), s, commit, env, w)
    {
      if file.None? {
        return Err(WifiNotFound);
      }
      var problems := Validate(s);
      if problems != [] {
        assert (set p | p in problems) == AllProblems(s);
        return Err(Validation(set p | p in problems));
      }
      if !env.writable {
        return Err(NotWritable);
      }
      if !env.readable {
        return Err(WifiIo(Reading));
      }
      var conf := new HostapdConf.HostapdConf(file.value);
      var iface := conf.Get(HostapdConf.KEY_INTERFACE);
      if iface.Some? && iface.value !in env.interfaces {
        return Err(InterfaceMissing(iface.value));
      }
      conf.Apply(s);
      var text := conf.Display();
      var outcome := InstallText(text, commit, w);
      r := WifiResult(outcome);
    }

    /** `apply_dhcp` */
    method ApplyDhcp(s: DhcpConf.Settings, commit: Commit, readable: bool, writable: bool, w: World)
      returns (r: Result<(), DhcpUpdateError>)
      requires TimePasses(w.polls)
      modifies this
      ensures (View(), r) == DhcpRun(old(View()), s, commit, readable, writable, w)
    {
      if file.None? {
        return Err(DhcpNotFound);
      }
      if !readable {
        return Err(DhcpNotReadable);
      }
      var conf := new DhcpConf.DhcpConf(file.value);
      conf.Set(DhcpConf.K_GATEWAY, ShowIp(s.gateway));
      conf.Set(DhcpConf.K_RANGE_START, ShowIp(s.rangeStart));
      conf.Set(DhcpConf.K_RANGE_END, ShowIp(s.rangeEnd));
      conf.Set(DhcpConf.K_DNS, DhcpConf.JoinDns(s.dns));
      conf.Set(DhcpConf.K_LEASE_TIME, Show(s.leaseTime));
      var view := DhcpConf.FromConf(conf.lines);
      if view.Err? {
        return Err(Load(view.error));
      }
      var problems := DhcpConf.Validate(view.value);
      if problems != [] {
        assert (set p | p in problems) == AllDhcpProblems(view.value);
        return Err(DhcpValidation(set p | p in problems));
      }
      if !writable {
        return Err(DhcpNotWritable);
      }
      var text := conf.Display();
      var outcome := InstallText(text, commit, w);
      r := DhcpResult(outcome);
    }
  }

  // --------------------------------------------------------- the whole of an edit

  /** Which of the file operations an I/O error came from. */
  datatype IoStage = Reading | BackingUp | Writing

  datatype WifiError =
    | WifiNotFound | Validation(problems: set<Problem>) | NotWritable | InterfaceMissing(iface: string)
    | WifiIo(stage: IoStage) | WifiService | WifiRolledBack

  datatype DhcpUpdateError =
    | DhcpNotFound | DhcpNotReadable | Load(error: DhcpConf.DhcpError) | DhcpValidation(problems: set<DhcpConf.Problem>)
    | DhcpNotWritable | DhcpIo(stage: IoStage) | DhcpService | DhcpRolledBack

  datatype WifiEnv = WifiEnv(readable: bool, writable: bool, interfaces: set<string>)

  function AllProblems(s: Settings): set<Problem> {
    set p: Problem | Has(s, p)
  }

  function AllDhcpProblems(v: DhcpConf.DhcpConfig): set<DhcpConf.Problem> {
    set p: DhcpConf.Problem | DhcpConf.Has(v, p)
  }

  function WifiResult(o: Outcome): Result<(), WifiError> {
    match o
    case Installed => Ok(())
    case BackupFailed => Err(WifiIo(BackingUp))
    case WriteFailed => Err(WifiIo(Writing))
    case ServiceFailed => Err(WifiService)
    case RolledBack => Err(WifiRolledBack)
  }

  function DhcpResult(o: Outcome): Result<(), DhcpUpdateError> {
    match o
    case Installed => Ok(())
    case BackupFailed => Err(DhcpIo(BackingUp))
    case WriteFailed => Err(DhcpIo(Writing))
    case ServiceFailed => Err(DhcpService)
    case RolledBack => Err(DhcpRolledBack)
  }

  /** The text a Wi-Fi edit writes. */
  function WifiText(text: string, s: Settings): string {
    HostapdConf.PrintConf(HostapdConf.ApplyConf(HostapdConf.ParseConf(text), s))
  }

  /** The text a DHCP edit writes. */
  function DhcpText(text: string, s: DhcpConf.Settings): string {
    Print(DhcpConf.Edited(Parse(text, DhcpConf.Settle), s))
  }

  /** The checks of `apply_wifi`, in order; the first that fails ends the edit. */
  function WifiCheck(file: Option<string>, s: Settings, env: WifiEnv): Option<WifiError> {
    if file.None? then Some(WifiNotFound)
    else if !Valid(s) then Some(Validation(AllProblems(s)))
    else if !env.writable then Some(NotWritable)
    else if !env.readable then Some(WifiIo(Reading))
    else
      var iface := Lookup(HostapdConf.ParseConf(file.value).lines, HostapdConf.KEY_INTERFACE);
      if iface.Some? && iface.value !in env.interfaces then Some(InterfaceMissing(iface.value)) else None
  }

  ghost function WifiRun(d: Disk, s: Settings, commit: Commit, env: WifiEnv, w: World): (Disk, Result<(), WifiError>) {
    match WifiCheck(d.file, s, env)
    case Some(e) => (d, Err(e))
    case None =>
      var (d', o) := Install(d, WifiText(d.file.value, s), commit, w);
      (d', WifiResult(o))
  }

  /** The checks of `apply_dhcp`, in order. */
  function DhcpCheck(file: Option<string>, s: DhcpConf.Settings, readable: bool, writable: bool): Option<DhcpUpdateError> {
    if file.None? then Some(DhcpNotFound)
    else if !readable then Some(DhcpNotReadable)
    else
      match DhcpConf.FromConf(DhcpConf.Edited(Parse(file.value, DhcpConf.Settle), s))
      case Err(e) => Some(Load(e))
      case Ok(view) =>
        if !DhcpConf.Valid(view) then Some(DhcpValidation(AllDhcpProblems(view)))
        else if !writable then Some(DhcpNotWritable)
        else None
  }

  ghost function DhcpRun(d: Disk, s: DhcpConf.Settings, commit: Commit, readable: bool, writable: bool, w: World)
    : (Disk, Result<(), DhcpUpdateError>)
  {
    match DhcpCheck(d.file, s, readable, writable)
    case Some(e) => (d, Err(e))
    case None =>
      var (d', o) := Install(d, DhcpText(d.file.value, s), commit, w);
      (d', DhcpResult(o))
  }

  // ------------------------------------------------------------------ the contract

  /** What is left on disk, by the way the installation ended. */
  ghost predicate LeftBehind(d: Disk, text: string, commit: Commit, w: World, d': Disk, o: Outcome) {
    match o
    case BackupFailed => d'.file == d.file && d'.served == d.served
    case WriteFailed => d'.bak == d.file && d'.served == d.served
    case ServiceFailed => d'.bak == d.file && (w.restore.Done? ==> d'.file == d.file)
                          && (w.restore.Done? && w.restartOld ==> d'.served == d.file)
    case RolledBack => d'.bak == d.file && (w.restore.Done? ==> d'.file == d.file)
                       && (w.restore.Done? && w.restartOld ==> d'.served == d.file)
    case Installed => d'.file == Some(text) && d'.served == Some(text)
                      && d'.bak == if commit.Now? && w.discard then None else d.file
  }

  /** Which ending it is. */
  ghost predicate Cause(d: Disk, w: World, o: Outcome) {
    match o
    case BackupFailed => d.file.None? || w.backup.Failed?
    case WriteFailed => d.file.Some? && w.backup.Done? && w.write.Failed?
    case ServiceFailed => d.file.Some? && w.backup.Done? && w.write.Done? && !w.restart
    case RolledBack => d.file.Some? && w.backup.Done? && w.write.Done? && w.restart && !ComesUp(w.polls)
    case Installed => d.file.Some? && w.backup.Done? && w.write.Done? && w.restart && ComesUp(w.polls)
  }

  lemma InstallContract(d: Disk, text: string, commit: Commit, w: World)
    ensures var (d', o) := Install(d, text, commit, w); LeftBehind(d, text, commit, w, d', o) && Cause(d, w, o)
  {
  }

  /** Every ending of a Wi-Fi edit: an error before the backup touches nothing, any other one is that of the installation. */
  lemma WifiContract(d: Disk, s: Settings, commit: Commit, env: WifiEnv, w: World)
    ensures var (d', r) := WifiRun(d, s, commit, env, w);
            if WifiCheck(d.file, s, env).Some? then d' == d && r == Err(WifiCheck(d.file, s, env).value)
            else exists o :: r == WifiResult(o) && Cause(d, w, o)
                             && LeftBehind(d, WifiText(d.file.value, s), commit, w, d', o)
  {
    if WifiCheck(d.file, s, env).None? {
      InstallContract(d, WifiText(d.file.value, s), commit, w);
      var (d', o) := Install(d, WifiText(d.file.value, s), commit, w);
      assert WifiResult(o) == WifiRun(d, s, commit, env, w).1 && Cause(d, w, o);
    }
  }

  lemma DhcpContract(d: Disk, s: DhcpConf.Settings, commit: Commit, readable: bool, writable: bool, w: World)
    ensures var (d', r) := DhcpRun(d, s, commit, readable, writable, w);
            var check := DhcpCheck(d.file, s, readable, writable);
            if check.Some? then d' == d && r == Err(check.value)
            else exists o :: r == DhcpResult(o) && Cause(d, w, o)
                             && LeftBehind(d, DhcpText(d.file.value, s), commit, w, d', o)
  {
    if DhcpCheck(d.file, s, readable, writable).None? {
      InstallContract(d, DhcpText(d.file.value, s), commit, w);
      var (d', o) := Install(d, DhcpText(d.file.value, s), commit, w);
      assert DhcpResult(o) == DhcpRun(d, s, commit, readable, writable, w).1 && Cause(d, w, o);
    }
  }

  // ------------------------------------------------------- what success delivers

  /**
   * After a successful Wi-Fi edit the service runs the text on disk, and reads
   * the four new settings from it exactly when the edit was safe for this file.
   */
  lemma WifiSuccessIsServed(d: Disk, s: Settings, commit: Commit, env: WifiEnv, w: World)
    requires WifiRun(d, s, commit, env, w).1.Ok?
    ensures var d' := WifiRun(d, s, commit, env, w).0;
            && d.file.Some? && d'.served == d'.file && d'.file.Some?
            && (HostapdConf.ViewOf(HostapdConf.ParseConf(d'.file.value).lines) == HostapdConf.SettingsView(s)
                <==> HostapdConf.WifiSafe(d.file.value, s))
  {
    InstallContract(d, WifiText(d.file.value, s), commit, w);
    HostapdConf.WifiEditReadsBack(d.file.value, s);
  }

  /** The interface and the lease file of a configuration. */
  predicate OldValuesSettled(text: string) {
    && DhcpConf.Settled(Lookup(Parse(text, DhcpConf.Settle), DhcpConf.K_INTERFACE))
    && DhcpConf.Settled(Lookup(Parse(text, DhcpConf.Settle), DhcpConf.K_LEASES_FILE))
  }

  /**
   * After a successful DHCP edit the service runs a text that has been validated;
   * it reads as the validated view exactly when the old interface and lease file
   * are settled.
   */
  lemma DhcpSuccessIsServed(d: Disk, s: DhcpConf.Settings, commit: Commit, readable: bool, writable: bool, w: World)
    requires DhcpRun(d, s, commit, readable, writable, w).1.Ok? && s.leaseTime <= DhcpConf.U64_MAX
    ensures var d' := DhcpRun(d, s, commit, readable, writable, w).0;
            var view := DhcpConf.FromConf(DhcpConf.Edited(Parse(d.file.value, DhcpConf.Settle), s));
            && d'.served == d'.file && d'.file.Some?
            && view.Ok? && DhcpConf.Valid(view.value)
            && (DhcpConf.FromConf(Parse(d'.file.value, DhcpConf.Settle)) == view <==> OldValuesSettled(d.file.value))
  {
    InstallContract(d, DhcpText(d.file.value, s), commit, w);
    DhcpConf.ValidatedIsReloaded(d.file.value, s);
  }

  // ------------------------------------------- the same steps in the interleaved machine

  /** Where the request handler ends up. */
  function Landing(o: Outcome, text: string, hold: bool): CommitConfirm.Handler {
    if o != Installed then CommitConfirm.PostDone(CommitConfirm.ErrorReply)
    else if hold then CommitConfirm.PostArm(text)
    else CommitConfirm.PostDone(CommitConfirm.OkReply)
  }

  /** Run without interruption, an edit request of the machine does to the disk what the method does. */
  lemma InstallIsARun(s: CommitConfirm.System, h: nat, text: string, hold: bool, w: World)
    returns (es: seq<CommitConfirm.Event>, s': CommitConfirm.System)
    requires CommitConfirm.Sized(s) && CommitConfirm.At(s, h, CommitConfirm.PostBackup(text, hold))
    ensures CommitConfirm.Run(s, es, s') && s'.timers == s.timers
    ensures var (d', o) := Install(s.disk, text, if hold then Hold else Now, w);
            s'.disk == d' && s'.handlers == s.handlers[h := Landing(o, text, hold)]
  {
    es, s' := CommitConfirm.Go(s, [], s, CommitConfirm.Backup(h, w.backup));
    if !CopyWorks(s.disk.file, w.backup) {
      return;
    }
    assert s'.handlers == s.handlers[h := CommitConfirm.PostWrite(text, hold)];
    es, s' := CommitConfirm.Go(s, es, s', CommitConfirm.Write(h, w.write));
    if w.write.Failed? {
      assert s'.handlers == s.handlers[h := CommitConfirm.PostDone(CommitConfirm.ErrorReply)];
      return;
    }
    assert s'.handlers == s.handlers[h := CommitConfirm.PostRestart(text, hold)];
    es, s' := RestartIsARun(s, es, s', h, text, hold, w);
  }

  lemma RestartIsARun(s0: CommitConfirm.System, es: seq<CommitConfirm.Event>, s: CommitConfirm.System,
                      h: nat, text: string, hold: bool, w: World)
    returns (es': seq<CommitConfirm.Event>, s': CommitConfirm.System)
    requires CommitConfirm.Sized(s0) && CommitConfirm.Sized(s) && CommitConfirm.Run(s0, es, s)
    requires CommitConfirm.At(s, h, CommitConfirm.PostRestart(text, hold))
    ensures CommitConfirm.Sized(s') && CommitConfirm.Run(s0, es', s') && s'.timers == s.timers
    ensures var (d', o) := Finish(s.disk, if hold then Hold else Now, w);
            s'.disk == d' && s'.handlers == s.handlers[h := Landing(o, text, hold)]
  {
    es', s' := CommitConfirm.Go(s0, es, s, CommitConfirm.RestartNew(h, w.restart));
    if !w.restart {
      assert s'.handlers == s.handlers[h := CommitConfirm.PostRestore];
      es', s' := RollbackIsARun(s0, es', s', h, w);
      return;
    }
    assert s'.handlers == s.handlers[h := CommitConfirm.PostVerify(text, hold)];
    es', s' := VerifyIsARun(s0, es', s', h, text, hold, w);
  }

  lemma VerifyIsARun(s0: CommitConfirm.System, es: seq<CommitConfirm.Event>, s: CommitConfirm.System,
                     h: nat, text: string, hold: bool, w: World)
    returns (es': seq<CommitConfirm.Event>, s': CommitConfirm.System)
    requires CommitConfirm.Sized(s0) && CommitConfirm.Sized(s) && CommitConfirm.Run(s0, es, s)
    requires CommitConfirm.At(s, h, CommitConfirm.PostVerify(text, hold))
    ensures CommitConfirm.Sized(s') && CommitConfirm.Run(s0, es', s') && s'.timers == s.timers
    ensures s'.disk == if !ComesUp(w.polls) then Rollback(s.disk, w)
                       else if hold then s.disk else DiscardBackup(s.disk, w.discard)
    ensures s'.handlers == s.handlers[h := Landing(if ComesUp(w.polls) then Installed else RolledBack, text, hold)]
  {
    es', s' := CommitConfirm.Go(s0, es, s, CommitConfirm.Verify(h, ComesUp(w.polls)));
    if !ComesUp(w.polls) {
      assert s'.handlers == s.handlers[h := CommitConfirm.PostRestore];
      es', s' := RollbackIsARun(s0, es', s', h, w);
    } else if !hold {
      assert s'.handlers == s.handlers[h := CommitConfirm.PostDiscard];
      es', s' := CommitConfirm.Go(s0, es', s', CommitConfirm.Discard(h, w.discard));
    }
  }

  lemma RollbackIsARun(s0: CommitConfirm.System, es: seq<CommitConfirm.Event>, s: CommitConfirm.System, h: nat, w: World)
    returns (es': seq<CommitConfirm.Event>, s': CommitConfirm.System)
    requires CommitConfirm.Sized(s0) && CommitConfirm.Sized(s) && CommitConfirm.Run(s0, es, s)
    requires CommitConfirm.At(s, h, CommitConfirm.PostRestore)
    ensures CommitConfirm.Sized(s') && CommitConfirm.Run(s0, es', s') && s'.timers == s.timers
    ensures s'.disk == Rollback(s.disk, w)
    ensures s'.handlers == s.handlers[h := CommitConfirm.PostDone(CommitConfirm.ErrorReply)]
  {
    es', s' := CommitConfirm.Go(s0, es, s, CommitConfirm.Restore(h, w.restore));
    assert s'.handlers == s.handlers[h := CommitConfirm.PostRestartOld];
    assert s'.disk == RestoreBackup(s.disk, w.restore) && s'.timers == s.timers;
    es', s' := RestartOldIsARun(s0, es', s', h, w.restartOld);
    assert s.handlers[h := CommitConfirm.PostRestartOld][h := CommitConfirm.PostDone(CommitConfirm.ErrorReply)]
        == s.handlers[h := CommitConfirm.PostDone(CommitConfirm.ErrorReply)];
  }

  lemma RestartOldIsARun(s0: CommitConfirm.System, es: seq<CommitConfirm.Event>, s: CommitConfirm.System, h: nat, ok: bool)
    returns (es': seq<CommitConfirm.Event>, s': CommitConfirm.System)
    requires CommitConfirm.Sized(s0) && CommitConfirm.Sized(s) && CommitConfirm.Run(s0, es, s)
    requires CommitConfirm.At(s, h, CommitConfirm.PostRestartOld)
    ensures CommitConfirm.Sized(s') && CommitConfirm.Run(s0, es', s') && s'.timers == s.timers
    ensures s'.disk == ConfigDisk.Restart(s.disk, ok)
    ensures s'.handlers == s.handlers[h := CommitConfirm.PostDone(CommitConfirm.ErrorReply)]
  {
    es', s' := CommitConfirm.Go(s0, es, s, CommitConfirm.RestartOld(h, ok));
  }

  /** The three steps of a fired timer do what `RevertAction` does, and end its worker. */
  lemma RevertActionIsARun(s: CommitConfirm.System, i: nat, w: World)
    returns (es: seq<CommitConfirm.Event>, s': CommitConfirm.System)
    requires CommitConfirm.Sized(s) && i < |s.timers| && s.timers[i].worker == AutoRevert.Acting(0)
    ensures CommitConfirm.Run(s, es, s') && s'.handlers == s.handlers
    ensures s'.disk == DiscardBackup(Rollback(s.disk, w), w.discard)
    ensures |s'.timers| == |s.timers| && s'.timers[i].worker.Exited?
  {
    es, s' := CommitConfirm.ActionRuns(s, [], s, i, w.restore, w.restartOld, w.discard);
  }
}
