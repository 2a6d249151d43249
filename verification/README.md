# tinywifi, verified model

A Dafny model of the parts of tinywifi that change a router's configuration and
must not leave it in a bad state, with proofs about all their inputs and runs.

`dafny verify dfyconfig.toml` checks the whole project.

## What is modelled

**Commit-confirm.** A held edit is staged and undone by a timer unless it is
confirmed in time.  `AutoRevert` is the timer as a step machine: worker thread,
concurrent `confirm` calls and the destructor, one event for each atomic action,
spurious wake-ups included.  `CommitConfirm` puts any number of such timers, edit
requests and confirmations around one configuration (`ConfigDisk`: the file, its
backup, the text the service runs).  The Wi-Fi and the DHCP configuration are two
independent copies of this machine.  `ConfigTransaction` has the sequential code
of one edit as methods on an object with these fields, and shows that it is a run
of the machine.  `CommitOverlap` is about edits that overlap, `CommitProgress`
about every run being able to come to its end.

**Configuration files.** `Text` and `Numbers` define line splitting, trimming,
decimal and dotted-quad text on sequences of characters; `LineConf` is the
line-preserving `key=value` format; `HostapdConf`, `DhcpConf`, `StaticLeases`,
`DnsConf`, `DnsRepeat` and `DnsRecords` are the three files with their edits,
`HostapdSpill` is about line breaks in Wi-Fi settings, and `WifiSettings` is the
Wi-Fi validation.

**Limits over time.** `RateLimit` and `LoginBan`, with `TimeWindows` for the
spacing of windows.  Time is in nanoseconds.

**The rest.** `Schedule` (weekly windows, manual override, firewall chain),
`ChainRace` (the chain under overlapping requests),
`Amnezia` (parsing and stripping of tunnel configurations), `Framebuffer` and
`DisplayRefresh` (e-paper display).

## How to read it

* Objects whose methods change fields in the program are classes here, and loops
  are loops.  Every such method is proved equal to a function of the old state,
  and the properties are proved about that function.
* What the environment decides is a parameter: the outcome of each copy, write,
  command and poll, the clock, the verdict on a password.  A failed copy or write
  may leave arbitrary bytes.
* A run is any sequence of enabled steps, so every lemma about runs holds for all
  interleavings.

## Results that differ from what one might expect

* `confirm` says it returns `false` when the timer "had already run the action"
  (safety.rs:108-109), and `fired` that the action "has already run".  Both read a
  flag that is set before the action starts; `LateConfirmMayPrecedeAction` is a run
  that shows the difference.  The reply `already_reverted` is still correct,
  because the request joins the worker before it answers.
* Edits that overlap are not safe: while the first is on disk unconfirmed, a
  second one backs up its text over the trusted one, which is then gone for good
  (`SecondEditLosesIff`, `OverlapLosesForGood`).  The results about end states
  therefore speak of runs in which an edit takes its backup only when those before
  it are decided, and no late removal takes a backup that is still needed
  (`SerialRun`), and of runs in which no best-effort step failed (the field
  `fault`); those about replies, timers and progress speak of all runs.
* A request that committed or confirmed discards the backup only afterwards.  An
  edit that begins in between loses its own backup, and with it the text that was
  just confirmed (`LateDiscardLosesIff`, `LateDiscardBeforeWrite`,
  `ConfirmDiscardsNextBackup`).
* The sliding bounds are 119 requests in ten seconds and 18 failures in a minute,
  both attained.  A window that begins before the interval has used up one of its
  own.
* A failed write is not rolled back: the backup is intact, the file is whatever
  the write left (`InstallContract`).
* The Wi-Fi validation accepts a line break in the name or password, and a
  carriage return at the end of either, which is lost when a newline follows its
  line; the edit is then not what the next start reads (`WifiEditReadsBack`), and a
  line break can set any other key that comes later in the file
  (`HostapdSpill.WifiEditKeepsOthers`).
* Removing a key from a hostapd file may leave an object that is not read back as
  it is, in two ways, though no lookup changes but for a lost carriage return
  (`RemoveMayEmpty`, `RemoveMayLeaveBlank`, `RemovedKeyReloads`).
* `update_dns_settings` validates nothing.  With a line break in a value the
  settings do not read back (`UpdateReadsBack`), and for a domain such as
  `lan`, line break, `x=1` every further update adds one more line
  (`UpdateAddsStrays`).
* The DHCP file unquotes once for each reading, so nested quotes around the
  interface or the lease file change from edit to edit (`ValidatedIsReloaded`).
* `remove_where` of the DHCP file removes every equal line, where its comment says
  a single one.  Removing a lease looks for its canonical text, so a hand-written
  line of the same MAC can stay, and so can one in quotes within quotes, which is
  no lease until it is read once more (`RemoveClearsIff`).
* The duplicate checks compare what is given with what is listed, which is trimmed
  and, for a DNS type, in upper case.  A MAC with blanks around it passes next to
  the same MAC without, and a DNS record whose type is in lower case is never
  refused.  Nothing refuses a line break: a lease or a record with one is written
  as several lines, which can repeat what is listed already.  For which leases and
  records the checks work is `DuplicateCheckWorksIff`, one lemma in each module.
* A removal looks for the text the program would write for what is listed.  A DNS
  record added as `a`, `A` and a value that begins with a blank, or with its type in
  lower case, is listed without; removing it reports success and changes nothing
  (`AddThenRemoveIff`, `AddThenRemoveOneLiner`).  A lease whose name ends in a blank
  stays in the same way.
* A second drop rule has two causes.  A listing of the firewall chain that fails
  reads as "not blocked": an application of the schedule needs two such listings,
  the block button one (`SecondRuleIff`, `PressSecondRuleIff`).  And nothing joins
  a listing to the change after it, so overlapping requests add one rule each even
  when every listing works (`SecondRuleArises`, `CrowdAddsRules`).
* A status frame that fails to draw is treated as drawn (`FailedDrawIsForgotten`);
  after a password change this can leave the initial password on the screen
  (`SetupStaysUp`).

## Model

| member | source | states |
|---|---|---|
| `AutoRevert.RunKeepsInv` | crates/tinywifi-core/src/safety.rs:82-137 | In every interleaving of worker, `confirm` calls and drop, the lock has one owner, `fired` is set only while `cancelled` is not, and every finished call has seen the final value of `fired`. |
| `AutoRevert.ConfirmIsFinal` | crates/tinywifi-core/src/safety.rs:82-117 | A returned `confirm` says `true` exactly when the action has not fired, and then it fires in no continuation; it says `false` exactly when it has fired. |
| `AutoRevert.ConfirmsAgree` | crates/tinywifi-core/src/safety.rs:108-117 | All `confirm` calls that return, in any interleaving, give the same answer. |
| `AutoRevert.CancelledFreezes` | crates/tinywifi-core/src/safety.rs:82-117 | Once the flag is set, `fired` never changes again in any continuation. |
| `AutoRevert.ActionAtMostOnce` | crates/tinywifi-core/src/safety.rs:82-106 | The action is started at most once, and only after `fired` is set. |
| `AutoRevert.DropJoinsWorker` | crates/tinywifi-core/src/safety.rs:125-137 | When the destructor has returned, the worker has ended, its action is complete if it fired, and nothing runs afterwards. |
| `AutoRevert.JoinCannotHang` | crates/tinywifi-core/src/safety.rs:82-137 | Whenever the destructor waits for the worker, the worker is done or can step, every step it can make brings it nearer its end or ends its action: no wake-up is lost. |
| `AutoRevert.TimeoutFires` | crates/tinywifi-core/src/safety.rs:82-102 | An unconfirmed timer does reach its action: a run from arming to the start of the action. |
| `AutoRevert.LateConfirmMayPrecedeAction` | crates/tinywifi-core/src/safety.rs:108-117 | A run in which `confirm` answers `false` before the action has made a step: "had already run the action" in the comment means fired, not finished. |
| `CommitConfirm.RunKeepsInv` | crates/tinywifi-web/src/api.rs:79-101 | In every run of any number of overlapping requests and timers, each guard has exactly one owner (map, request or nobody), only the owner confirms or drops it, and what a request has learnt about its timer is so. |
| `CommitConfirm.AlreadyRevertedMeansDone` | crates/tinywifi-web/src/api.rs:91-101 | An `already_reverted` reply is given only after the worker has finished restore, restart and discard, with overlapping edits too. |
| `CommitConfirm.ConfirmedNeverReverts` | crates/tinywifi-web/src/api.rs:91-101 | After a `confirmed` reply the timer has ended without acting and never acts. |
| `CommitConfirm.OneAnswerPerEdit` | crates/tinywifi-web/src/api.rs:91-101 | At most one request is told `confirmed` or `already_reverted` for one staged edit. |
| `CommitConfirm.ReplacedTimerHasEnded` | crates/tinywifi-web/src/api.rs:79-86 | When `arm_revert` returns, the replaced timer's worker has ended, its action complete or never to run. |
| `CommitConfirm.LiveTimersAreOwned` | crates/tinywifi-web/src/state.rs:10-13 | Every timer that is still running is the one in the map or held by a request in flight; with none in flight at most one is alive. |
| `CommitConfirm.StepKeepsSerial` | crates/tinywifi-web/src/api.rs:79-101 | One step of any request or worker keeps the facts about the latest edit: which text is on disk, in the backup and served at each point of staging, waiting, reverting and confirming. Only two steps have to keep to their turn: a backup comes when every earlier edit is decided, and a removal that comes late finds no backup that is still needed. |
| `CommitConfirm.QuietMeansTrusted` | crates/tinywifi-web/src/api.rs:132-154 | In every run whose edits keep to their turn and whose best-effort steps work, when nothing is in flight the file and the service hold the last committed or confirmed text. Requests may arrive at any time, and a decided edit may still have its backup to discard. |
| `CommitConfirm.HeldEditSettles` | crates/tinywifi-web/src/api.rs:132-154 | In a run whose edits keep to their turn and whose best-effort steps work: whenever all is quiet the latest held edit has ended in one of two states, each with no backup: confirmed with the new text on disk, or reverted to exactly the bytes from before; which of the two is decided by whether its timer fired. That such a state is always within reach is `CommitProgress.SerialEditsCanSettle`. |
| `CommitConfirm.RevertInstallsTrusted` | crates/tinywifi-core/src/safety.rs:55-58 | In a run whose edits keep to their turn and without a failed best-effort step, a firing timer restores exactly the last committed or confirmed text. |
| `CommitConfirm.AlreadyRevertedIsRestored` | crates/tinywifi-web/src/api.rs:91-101 | In such a run, when the reply about the latest edit is `already_reverted`, the file and the service already hold the old bytes and the backup is gone. |
| `CommitOverlap.SecondEditLosesIff` | crates/tinywifi-web/src/api.rs:132-154 | For every state of such a run and every request that is about to begin, whatever others did since it arrived: when it has taken its backup out of turn, the trusted text is missing from that backup exactly when the latest edit's text is on disk unconfirmed, not yet restored, and is not the trusted one; and it is then lost, unless some request is still to write that very text. |
| `CommitOverlap.RunKeepsLost` | crates/tinywifi-web/src/api.rs:132-154 | For every run, overlapping and failing ones too: a text that is on neither file nor backup and that no request carries stays off the disk until somebody posts it or a failing copy or write happens to leave it. |
| `CommitOverlap.OverlapLosesForGood` | crates/tinywifi-web/src/api.rs:132-154 | So when such an edit loses the trusted text, no continuation of any length, no timer and no rollback brings it back. |
| `CommitOverlap.OverlapLosesTrustedText` | crates/tinywifi-web/src/api.rs:132-154 | For any two texts such a state is reached and settles: a run without a failed I/O step ends quiet with the unconfirmed first text on disk and no backup. |
| `CommitOverlap.LateDiscardLosesIff` | crates/tinywifi-web/src/api.rs:91-101 | A second race: a request that committed or was told `confirmed` removes the backup only afterwards. For every state of such a run in which a later edit has begun by then: the trusted text is lost exactly when the removal works, that edit's text is on disk unconfirmed and differs, and no request is still to write the trusted one. |
| `CommitOverlap.LateDiscardBeforeWrite` | crates/tinywifi-web/src/api.rs:91-101 | If the late removal comes before that edit writes, the trusted text is lost as soon as it does, in every run in which nobody takes a backup or posts the text again. |
| `CommitOverlap.ConfirmDiscardsNextBackup` | crates/tinywifi-web/src/api.rs:91-101 | For any two texts a run that ends that way: the first is confirmed in time, the second never, its timer fires, and the second stays on disk and in service. |
| `CommitProgress.JoiningCannotHang` | crates/tinywifi-core/src/safety.rs:125-137 | In every run of overlapping requests: a request that joins a worker, the pending map locked or not, finds it ended or able to step, each step bringing it nearer its end. |
| `CommitProgress.EveryRunCanSettle` | crates/tinywifi-web/src/api.rs:79-101 | From every reachable state, whatever overlaps and whatever has failed, every request can get its answer and every worker can end; no lock and no join is in the way. |
| `CommitProgress.SerialEditsCanSettle` | crates/tinywifi-web/src/api.rs:132-154 | Every run of edits that keep to their turn, free of faults so far, extends to such a run that ends with every request answered, those that had not begun included, every worker over, no fault, and the file and the service at the trusted text. |
| `ConfigTransaction.WaitUntilRunning` | crates/tinywifi-core/src/safety.rs:34-50 | Returns true iff some poll at or before the first one past the deadline finds the service up; it stops at the first such poll and polls fewer than timeout/interval + 2 times. |
| `ConfigTransaction.Store.Backup` | crates/tinywifi-core/src/file.rs:21-25 | The backup becomes the file's bytes; a missing source leaves it alone, a failed copy leaves whatever the copy left. |
| `ConfigTransaction.Store.Restore` | crates/tinywifi-core/src/file.rs:28-32 | The same in the other direction. |
| `ConfigTransaction.Store.Revert` | crates/tinywifi-core/src/safety.rs:55-58 | Restore, then restart, each best effort: the state is that of the two steps whatever fails. |
| `ConfigTransaction.Store.RevertAction` | crates/tinywifi-web/src/api.rs:79-86 | The armed action leaves the disk as restore, restart and discard leave it. |
| `ConfigTransaction.Store.InstallText` | crates/tinywifi-core/src/wifi.rs:150-171 | Backup, write, restart, verify and their rollback leave exactly the state and the ending of the specification `Install`. |
| `ConfigTransaction.Store.ApplyWifi` | crates/tinywifi-core/src/wifi.rs:136-172 | All checks in order, then the installation of the merged text, against the specification `WifiRun`. |
| `ConfigTransaction.Store.ApplyDhcp` | crates/tinywifi-core/src/nanodhcp.rs:470-504 | The same for DHCP, with its own order of checks, against `DhcpRun`. |
| `ConfigTransaction.InstallContract` | crates/tinywifi-core/src/wifi.rs:150-171 | For every failure point: what caused the ending; after a failed write the backup holds the entry bytes; after a rollback the file equals its entry bytes and the backup is kept; after success the new text is on disk and served, with the backup gone for `Now` and equal to the entry bytes for `Hold`. |
| `ConfigTransaction.WifiContract` | crates/tinywifi-core/src/wifi.rs:136-172 | An error before the backup leaves file, backup and service untouched; every other ending is one of the installation, with its cause. |
| `ConfigTransaction.DhcpContract` | crates/tinywifi-core/src/nanodhcp.rs:470-504 | The same for `apply_dhcp`. |
| `ConfigTransaction.WifiSuccessIsServed` | crates/tinywifi-core/src/wifi.rs:105-172 | After a successful Wi-Fi edit the service runs the text on disk, and reads the four new values from it exactly when the edit is safe for this file: no line break in name or password, and neither ends in a carriage return that a newline follows. |
| `ConfigTransaction.DhcpSuccessIsServed` | crates/tinywifi-core/src/nanodhcp.rs:470-504 | After a successful DHCP edit the running text was validated, and it reads as the validated view exactly when the old interface and lease file survive cleaning. |
| `ConfigTransaction.InstallIsARun` | crates/tinywifi-core/src/wifi.rs:150-171 | The sequential code is the request of the interleaved machine run alone: same disk, same ending. |
| `ConfigTransaction.RevertActionIsARun` | crates/tinywifi-web/src/api.rs:79-86 | The same for the timer's action: its three steps in the machine give the disk of `RevertAction` and end the worker. |
| `LineConf.SetLine` | crates/tinywifi-core/src/nanodhcp.rs:93-106 | Updates the first pair with the key in place, or appends one. |
| `LineConf.AllValues` | crates/tinywifi-core/src/nanodhcp.rs:108-117 | All values of the key, in order. |
| `LineConf.Collect` | crates/tinywifi-core/src/nanodhcp.rs:328-335 | The values that parse, in order; the loop equals `FilterMap`. |
| `LineConf.Retain` | crates/tinywifi-core/src/nanodhcp.rs:120-122 | Keeps exactly the lines that are not to be removed, in order. |
| `LineConf.LookupAssign` | crates/tinywifi-core/src/nanodhcp.rs:85-106 | After setting a key, that key reads as the new value and every other key as before. |
| `LineConf.AssignFrame` | crates/tinywifi-core/src/nanodhcp.rs:93-106 | Setting a key changes at most the first line with it, or appends one line; every other line keeps its place. |
| `LineConf.ParsePrint` | crates/tinywifi-core/src/nanodhcp.rs:51-69 | Printing and parsing any parsed-looking lines keeps their number and order; values are cleaned once more and a final carriage return is lost. |
| `LineConf.ParsedLinesOk` | crates/tinywifi-core/src/nanodns.rs:43-60 | Every line a parser produces is of the shape that reads back. |
| `WifiSettings.Validate` | crates/tinywifi-core/src/wifi.rs:80-105 | Reports exactly the problems there are, each once, in bytes of UTF-8 where the code counts bytes. |
| `HostapdConf.HostapdConf.Set` | crates/tinywifi-core/src/hostapd.rs:96-110 | In-place update or append; appending adds the final newline. |
| `HostapdConf.HostapdConf.RemoveKey` | crates/tinywifi-core/src/hostapd.rs:122-124 | Removes all lines with the key and leaves the final-newline flag as it was. |
| `HostapdConf.HostapdConf.Display` | crates/tinywifi-core/src/hostapd.rs:146-162 | The loop writes the joined lines and the final newline if the flag is set. |
| `HostapdConf.PrintParseIdentity` | crates/tinywifi-core/src/hostapd.rs:52-74 | For every text: printing what was parsed gives the text back exactly when every line is printed verbatim (no padding around a directive's key, no lost carriage return). |
| `HostapdConf.PrintParseIdempotent` | crates/tinywifi-core/src/hostapd.rs:52-74 | Doing it twice is doing it once, exactly when no line ends in a doubled carriage return. |
| `HostapdConf.ReloadIdentity` | crates/tinywifi-core/src/hostapd.rs:146-162 | For every content: it is read back as itself exactly when it is savable; the condition names the cases that are not (no lines with a newline flag, an empty last line without one, carriage returns). |
| `HostapdConf.EditsReload` | crates/tinywifi-core/src/hostapd.rs:96-118 | For every text, every list of keys that parse as keys and all values: what is reached by setting them is read back as itself exactly when no line holds a line break or ends in a carriage return that a newline follows. |
| `HostapdConf.RemoveMayEmpty` | crates/tinywifi-core/src/hostapd.rs:120-124 | A removal can leave what is not read back: no lines with the final-newline flag set. |
| `HostapdConf.RemoveMayLeaveBlank` | crates/tinywifi-core/src/hostapd.rs:120-124 | The other way: a blank last line that no newline follows. |
| `HostapdConf.RemovedKeyReloads` | crates/tinywifi-core/src/hostapd.rs:120-131 | For every text: after removing, saving and loading the key is gone, and any other lookup is as before exactly when a newline does not cut a carriage return off its value. |
| `HostapdConf.ReloadKeepsLookups` | crates/tinywifi-core/src/hostapd.rs:126-131 | For all well-formed contents: a lookup survives saving and loading exactly when a newline does not cut a carriage return off its value. |
| `HostapdConf.WifiEditReadsBack` | crates/tinywifi-core/src/hostapd.rs:112-143 | For every text and all settings `validate` accepts: the four fields the next start reads, the channel as a number, are those that were set exactly when neither name nor password holds a line break or ends in a carriage return that a newline follows. `validate` checks neither. |
| `HostapdSpill.WifiEditKeepsOthers` | crates/tinywifi-core/src/hostapd.rs:112-143 | For every text, all settings and every key but the four, line breaks included: the key reads as before exactly when the name and the password bring no line for it before its own and a newline cuts no carriage return off its value, or they bring one with the old value. |
| `HostapdSpill.ReloadedLookup` | crates/tinywifi-core/src/hostapd.rs:52-162 | What is behind it, for every content an edit can lead to: after saving and loading, a key reads as the first line for it that a line break inside some value before its own line has split off, and otherwise as what is left of its own value. |
| `HostapdSpill.PlainSettingsSpillNothing` | crates/tinywifi-core/src/wifi.rs:80-105 | Settings `validate` accepts that hold no line break bring no line for any key. |
| `HostapdConf.ApplyFrame` | crates/tinywifi-core/src/hostapd.rs:112-118 | Only the first line of each of the four keys changes: every other line, later ones with the same key included, keeps its place. |
| `DhcpConf.DhcpConf.GetAll` | crates/tinywifi-core/src/nanodhcp.rs:108-117 | All values of the key, in order. |
| `DhcpConf.DhcpConf.RemoveWhere` | crates/tinywifi-core/src/nanodhcp.rs:119-122 | Removes every line with this key and value (the comment says a single one). |
| `DhcpConf.DhcpConf.Display` | crates/tinywifi-core/src/nanodhcp.rs:133-143 | Every line followed by a newline. |
| `DhcpConf.Validate` | crates/tinywifi-core/src/nanodhcp.rs:246-276 | Collects exactly the problems there are. |
| `DhcpConf.PoolIsInGatewayNet` | crates/tinywifi-core/src/nanodhcp.rs:246-276 | If it validates, every address from start to end is in the gateway's /24, not only the two ends that are checked. |
| `Numbers.IpCanonical` | crates/tinywifi-core/src/nanodhcp.rs:195-199 | A text parses as an address exactly when it is the one way that address is written. |
| `DhcpConf.DnsReadsBack` | crates/tinywifi-core/src/nanodhcp.rs:201-211 | Any list of resolvers, the empty one included, survives join and parse. |
| `DhcpConf.EditedHolds` | crates/tinywifi-core/src/nanodhcp.rs:470-476 | After the five sets each key holds its new value; interface and lease file are untouched. |
| `DhcpConf.ViewOfEdit` | crates/tinywifi-core/src/nanodhcp.rs:215-231 | The view that is validated consists of the new settings and the old interface and lease file; only a missing interface can make it fail. |
| `DhcpConf.ValidatedIsReloaded` | crates/tinywifi-core/src/nanodhcp.rs:470-486 | For every text: the service reads what was validated exactly when the old interface and lease file are settled (no nested quotes, no blanks inside quotes). |
| `StaticLeases.LeaseFile.AddLease` | crates/tinywifi-core/src/nanodhcp.rs:338-362 | The file and the error after an addition, for every outcome of loading, permission and write; duplicates are refused before the permission check. |
| `StaticLeases.LeaseFile.RemoveLease` | crates/tinywifi-core/src/nanodhcp.rs:365-384 | The same for removing. |
| `StaticLeases.LeaseFile.List` | crates/tinywifi-core/src/nanodhcp.rs:328-335 | The leases of the file, or the load error. |
| `StaticLeases.LeaseReadsBack` | crates/tinywifi-core/src/nanodhcp.rs:287-299 | In a file that holds a lease's line alone the lease is what is listed exactly when its fields are trimmed and hold no comma and no line break, and its MAC is in lower case. |
| `StaticLeases.ListedIsSavable` | crates/tinywifi-core/src/nanodhcp.rs:287-335 | For every file: whatever is listed is such a lease. |
| `StaticLeases.AddIsListed` | crates/tinywifi-core/src/nanodhcp.rs:287-362 | For every file and every accepted lease, line breaks included: the next listing shows the values that were there, each unquoted once more, and after them what the lease's line brings into an empty file. |
| `StaticLeases.AddKeepsDistinctIff` | crates/tinywifi-core/src/nanodhcp.rs:338-362 | For every file and every accepted lease: the next listing has no two leases of one MAC or one address exactly when the values that were there, each unquoted once more, have none, what the lease's line brings has none, and no MAC or address is in both. |
| `StaticLeases.DuplicateCheckWorksIff` | crates/tinywifi-core/src/nanodhcp.rs:338-362 | For every lease: the check keeps every file of distinct leases without nested quotes free of duplicates exactly when the lease's line brings at most one lease, and that one with the MAC and the address that the check compares. |
| `StaticLeases.CheckedOneLiner` | crates/tinywifi-core/src/nanodhcp.rs:338-362 | For a lease without a line break that is: a field holds a comma, so that it is not listed, or its MAC has no blanks around it. |
| `StaticLeases.RunKeepsDistinct` | crates/tinywifi-core/src/nanodhcp.rs:338-384 | Over any run of removals, and additions of leases for which the check works and whose line brings no nested quotes, listed MACs and addresses stay pairwise distinct. The file starts with distinct leases and `static` values that writing and reading keeps (no nested quotes); they need not be in the form the program writes. |
| `StaticLeases.RemoveTakesOne` | crates/tinywifi-core/src/nanodhcp.rs:365-384 | From distinct leases whose `static` values are all in the form the program writes: after a successful removal the next listing has lost the lease with that MAC and kept every other one. |
| `StaticLeases.RemoveClearsIff` | crates/tinywifi-core/src/nanodhcp.rs:365-384 | For every file: after a successful removal the next listing shows no lease with that MAC exactly when every `static` value that names it, once unquoted again, is the canonical text of the lease found. |
| `StaticLeases.AddThenRemove` | crates/tinywifi-core/src/nanodhcp.rs:338-384 | From settled lines: adding a lease with trimmed fields free of commas and line breaks, reading the file and removing its MAC in any letter case leaves the lines as if the file had only been written and read. |
| `StaticLeases.AddThenRemoveRestores` | crates/tinywifi-core/src/nanodhcp.rs:338-384 | If reading and writing leaves the text alone, it comes back exactly. |
| `StaticLeases.AddThenRemoveOneLiner` | crates/tinywifi-core/src/nanodhcp.rs:338-384 | For a lease without a line break or a comma, from values without nested quotes and a MAC that was not listed: removing that MAC, trimmed and in any letter case, succeeds and gives the old listing back exactly when the name does not end in a blank and the MAC has none around it; otherwise the lease stays. |
| `DnsConf.NanoDnsConf.Update` | crates/tinywifi-core/src/nanodns.rs:265-283 | The edits of an update, step by step on the lines, equal the specification `Updated`. |
| `DnsConf.UpdateDnsSettings` | crates/tinywifi-core/src/nanodns.rs:265-286 | The text that is written; an unwritable file is reported as not found, as the code does. |
| `DnsConf.UpdateReadsBack` | crates/tinywifi-core/src/nanodns.rs:252-286 | For every file and all settings: they read back as given exactly when no value holds a line break, all are trimmed, and a response without a block file is `0.0.0.0`. |
| `DnsConf.UpdateKeepsOthers` | crates/tinywifi-core/src/nanodns.rs:265-283 | Comments, blank lines and lines with other keys are kept, in order. |
| `DnsRepeat.UpdateIsIdempotent` | crates/tinywifi-core/src/nanodns.rs:265-286 | For every text and all settings: updating twice writes what updating once writes, exactly when the settings bring in no stray line and no untouched line ends in a stray carriage return. |
| `DnsRepeat.UpdateAddsStrays` | crates/tinywifi-core/src/nanodns.rs:265-286 | A stray line is what a line break in a value leaves outside the keys of an update; every further update makes the file longer by exactly their number. |
| `DnsRepeat.OnePieceHasNoStrays` | crates/tinywifi-core/src/nanodns.rs:265-286 | Values without a line break bring in none. |
| `DnsConf.NanoDnsConf.RemoveWhere` | crates/tinywifi-core/src/nanodns.rs:116-131 | Removes the first line with this key and value, and no other. |
| `DnsRecords.RecordFile.AddRecord` | crates/tinywifi-core/src/nanodns.rs:295-312 | The file and the error after an addition, for every outcome of loading, permission and write. |
| `DnsRecords.RecordFile.RemoveRecord` | crates/tinywifi-core/src/nanodns.rs:315-332 | The same for removing by name and type. |
| `DnsRecords.RecordFile.List` | crates/tinywifi-core/src/nanodns.rs:289-292 | The records of the file, or the load error. |
| `DnsRecords.RecordReadsBack` | crates/tinywifi-core/src/nanodns.rs:190-204 | In a file that holds a record's line alone the record is what is listed exactly when its fields are trimmed and hold no comma and no line break, and its type is in upper case. |
| `DnsRecords.ListedIsSavable` | crates/tinywifi-core/src/nanodns.rs:190-292 | For every file: whatever is listed is such a record. |
| `DnsRecords.AddIsListed` | crates/tinywifi-core/src/nanodns.rs:190-312 | For every file and every accepted record, line breaks included: the next listing shows all that was listed before, and after it what the record's line brings into an empty file. |
| `DnsRecords.AddKeepsUniqueIff` | crates/tinywifi-core/src/nanodns.rs:295-312 | For every file and every accepted record: the next listing has no two records of the same name and type exactly when the old one has none, what the record's line brings has none, and no name and type is in both. |
| `DnsRecords.DuplicateCheckWorksIff` | crates/tinywifi-core/src/nanodns.rs:298-304 | For every record: the check keeps every file free of duplicates exactly when the record's line brings at most one record, and that one under the name and the type that the check compares. |
| `DnsRecords.CheckedOneLiner` | crates/tinywifi-core/src/nanodns.rs:298-304 | For a record without a line break that is: a field holds a comma, so that it is not listed, or name and type have no blanks around them and the type is in upper case. |
| `DnsRecords.LowerCaseIsNeverRefused` | crates/tinywifi-core/src/nanodns.rs:298-304 | For every file: a record whose type is not in upper case is never refused as a duplicate. |
| `DnsRecords.RemoveTakes` | crates/tinywifi-core/src/nanodns.rs:315-332 | For every file: a successful removal takes one record with that name and type out of the next listing if some line holds it just as the program would write it, and otherwise nothing at all. |
| `DnsRecords.AddThenRemoveIff` | crates/tinywifi-core/src/nanodns.rs:295-332 | For every file, every accepted record and every name and type not listed before: removing them succeeds exactly when the record's line brought a record of that name and type in some letter case; then the old listing is back exactly when the line brought that one record and holds it just as the program writes what it lists. If it is one record held otherwise, the removal reports success and the record stays. |
| `DnsRecords.AddThenRemoveOneLiner` | crates/tinywifi-core/src/nanodns.rs:295-332 | For a record without a line break or a comma, of a name and type that were not listed: removing them, trimmed and in any letter case, always succeeds, and the record is gone exactly when its name does not end in a blank, its type and value have no blanks around them and its type is in upper case; otherwise it stays. |
| `DnsRecords.CommaIsNotListed` | crates/tinywifi-core/src/nanodns.rs:190-312 | With a comma in a field a record without a line break is accepted and not listed: the listing stays as it was. |
| `DnsRecords.RunKeepsUnique` | crates/tinywifi-core/src/nanodns.rs:295-332 | Over any run of removals, and additions of records for which the check works, no two listed records have the same name and type. |
| `RateLimit.RateLimiter.IsRateLimited` | crates/tinywifi-web/src/ratelimit.rs:31-41 | The bucket of this address after a request, and the verdict; all other buckets unchanged. |
| `RateLimit.OthersDoNotMatter` | crates/tinywifi-web/src/ratelimit.rs:31-41 | The verdicts one address gets depend on its own requests only. |
| `RateLimit.SlidingBound` | crates/tinywifi-web/src/ratelimit.rs:31-41 | In any interval of any trace one address is admitted at most 60 times for each window the interval spans and 59 times more. |
| `RateLimit.TenSecondBound` | crates/tinywifi-web/src/ratelimit.rs:15-41 | At most 119 in any ten seconds. |
| `RateLimit.BoundIsTight` | crates/tinywifi-web/src/ratelimit.rs:31-41 | For every number of whole windows a trace attains the bound. |
| `LoginBan.LoginAttempts.RecordFailure` | crates/tinywifi-web/src/auth.rs:59-78 | The new state of this address: window, count, and at the tenth failure the ban. |
| `LoginBan.LoginAttempts.Login` | crates/tinywifi-web/src/api.rs:404-431 | Check, verification and record in this order, against the specification; no other address changes. |
| `LoginBan.FailureBound` | crates/tinywifi-web/src/auth.rs:59-78 | With requests one after the other, an interval without a successful login records at most 9 failures for each window it spans and 9 more. |
| `LoginBan.MinuteBound` | crates/tinywifi-web/src/auth.rs:24-78 | At most 18 in any minute. |
| `LoginBan.BoundIsTight` | crates/tinywifi-web/src/auth.rs:59-78 | For every number of whole windows an address that never logs in attains the bound. |
| `LoginBan.BanLasts` | crates/tinywifi-web/src/auth.rs:50-78 | After a ban no attempt checked within 300 seconds reaches the password verification. |
| `LoginBan.BanHolds` | crates/tinywifi-web/src/auth.rs:50-78 | With checks and records of many requests interleaved, failures never move the end of a ban earlier and no new check passes before it. |
| `LoginBan.SuccessLiftsBan` | crates/tinywifi-web/src/auth.rs:81-83 | A success is what breaks this: a request that had passed its check before the ban clears it. |
| `LoginBan.InterleavedHasNoBound` | crates/tinywifi-web/src/api.rs:404-431 | Without the atomicity there is no bound on failures at one moment. |
| `LoginBan.InterleavedBound` | crates/tinywifi-web/src/api.rs:404-431 | With at most c requests at once between check and record, an interval of any length without a successful login records at most 9 failures for each window it spans, 9 and c more, and c - 27 more (none if c is at most 27) for every further 300 seconds begun, in every interleaving. |
| `LoginBan.InterleavedBoundIsTight` | crates/tinywifi-web/src/api.rs:404-431 | For an interval of 300 seconds and every c from 55 on a run attains the bound: requests that were in flight when a ban began fail nine to a window, and a crowd of c follows when it ends. |
| `LoginBan.InterleavedBoundIsClose` | crates/tinywifi-web/src/api.rs:404-431 | For every c from 1 on and every number of whole windows a run stays one failure below 9 for each window, 9 and c, which is the bound for intervals of up to 300 seconds, and for any length if c is at most 27. |
| `Schedule.Validate` | crates/tinywifi-core/src/schedule.rs:79-88 | Accepts exactly the schedules with fourteen well-formed times, and otherwise reports the first bad field. |
| `Schedule.AcceptedIsRead` | crates/tinywifi-core/src/schedule.rs:111-117 | The fallback times 0 and 1440 are never used for an accepted schedule. |
| `Schedule.BlocksOutsideWindow` | crates/tinywifi-core/src/schedule.rs:111-129 | Within a day the three cases of the code are one window on a clock, spanning midnight or not. |
| `Schedule.ExchangeIsComplement` | crates/tinywifi-core/src/schedule.rs:111-129 | Exchanging two different times blocks exactly the other minutes. |
| `Schedule.BlockedMinutesOfDay` | crates/tinywifi-core/src/schedule.rs:111-129 | A day blocks (from - to) mod 1440 minutes, all 1440 if the times are equal, fallbacks included. |
| `Schedule.AcceptedWindows` | crates/tinywifi-core/src/schedule.rs:79-129 | The three facts for the program's own time format, on every schedule `validate` accepts. |
| `Schedule.Enforcer.ApplySchedule` | crates/tinywifi-core/src/schedule.rs:198-209 | The chain, the override file and the result after one application, whatever command fails. |
| `Schedule.Enforcer.PressButton` | crates/tinywifi-web/src/api.rs:751-761 | What the block and unblock buttons leave, whatever fails. |
| `Schedule.Enforcer.SavePost` | crates/tinywifi-web/src/api.rs:740-748 | Nothing is touched unless the schedule is valid and saved; then the override is dropped and the schedule applied. |
| `Schedule.RunShows` | crates/tinywifi-core/src/schedule.rs:172-209 | In every run of buttons, saves and ticks, one after the other and with every command working, the chain holds one rule or none and the file is there exactly while a button decides, as the expected two-mode behaviour says. |
| `Schedule.OverrideHoldsUntilAgreement` | crates/tinywifi-core/src/schedule.rs:195-209 | Under the same conditions: after a button, the chain stays in its state until the first tick at which the schedule wants the same, and follows the schedule from then on; the file is there exactly until then. |
| `Schedule.AtMostOneRule` | crates/tinywifi-core/src/schedule.rs:147-168 | One application of the schedule that nobody disturbs: if the chain can be listed there is no second rule, whatever else fails, and the result says whether the state changed. |
| `Schedule.SecondRuleIff` | crates/tinywifi-core/src/schedule.rs:147-168 | It adds a second rule exactly when both its listings fail while the chain is blocked and should be. |
| `Schedule.PressSecondRuleIff` | crates/tinywifi-web/src/api.rs:751-761 | A button that nobody disturbs adds a second rule exactly when it is the block button, its file is written and its one listing fails. |
| `ChainRace.SecondRuleArises` | crates/tinywifi-core/src/schedule.rs:147-162 | With requests and ticks interleaved: a second rule becomes possible exactly when a handler lists an empty chain while another is on its way to add a rule, or its listing fails while one is there. |
| `ChainRace.SecondRuleIsReachable` | crates/tinywifi-core/src/schedule.rs:147-162 | And from then on it does appear in some continuation; before that in none without a further listing, whatever else happens. |
| `ChainRace.RulesBound` | crates/tinywifi-core/src/schedule.rs:147-162 | In every interleaving there are never more rules than handlers that were at once between listing and adding, and one for each listing that failed while a rule was there. |
| `ChainRace.CrowdAddsRules` | crates/tinywifi-web/src/api.rs:751-755 | The bound is attained with working listings alone: c overlapping requests leave c rules. |
| `ChainRace.AloneIsButton` | crates/tinywifi-web/src/api.rs:751-761 | Undisturbed, a button's steps do to the chain what `Schedule.Pressed` says. |
| `ChainRace.AloneIsApply` | crates/tinywifi-core/src/schedule.rs:198-209 | Undisturbed, a tick's steps do what `Schedule.Apply` says. |
| `Amnezia.ParseConf` | crates/tinywifi-core/src/amnezia.rs:212-249 | The loop with its section and peer buffer computes the meaning of the text, line by line. |
| `Amnezia.StripToWgConf` | crates/tinywifi-core/src/amnezia.rs:324-333 | Keeps exactly the lines whose key is not in the list, in order. |
| `Amnezia.StripConfKeys` | crates/tinywifi-core/src/amnezia.rs:695-702 | The same for a given list; a line without `=` always stays. |
| `Amnezia.StripMeaning` | crates/tinywifi-core/src/amnezia.rs:212-333 | For every text and every list of keys that spares peers: stripping resets the fields of these keys to their defaults and changes nothing else. |
| `Amnezia.WgStripKeepsPeersAndPort` | crates/tinywifi-core/src/amnezia.rs:42-50 | What `wg setconf` gets means the same peers and a default interface with the same listen port. |
| `Amnezia.QuickStripKeepsAllElse` | crates/tinywifi-core/src/amnezia.rs:545-548 | What `awg setconf` gets means the same, without addresses and resolvers. |
| `Framebuffer.Buf.Clear` | crates/tinywifi-display/src/epaper.rs:112 | The loop sets every byte, so that every pixel is white. |
| `Framebuffer.Buf.DrawIter` | crates/tinywifi-display/src/epaper.rs:122-141 | Drawing into the byte array, pixel by pixel, equals the specification `DrawnAll`. |
| `Framebuffer.BitOfPixel` | crates/tinywifi-display/src/epaper.rs:133-134 | The byte index stays below 4000, and the pixel is found again from byte and bit. |
| `Framebuffer.PixelOfBit` | crates/tinywifi-display/src/epaper.rs:133-134 | The other direction: every bit belongs to exactly one pixel. |
| `Framebuffer.DrawingIsLastWrite` | crates/tinywifi-display/src/epaper.rs:122-141 | After any drawing each pixel shows its last write, or what it showed before. |
| `Framebuffer.PixelsDetermineBuffer` | crates/tinywifi-display/src/epaper.rs:108-112 | Two buffers that show the same pixels are equal byte for byte. |
| `Framebuffer.OutsideChangesNothing` | crates/tinywifi-display/src/epaper.rs:129-132 | Points outside the screen change no byte. |
| `Framebuffer.SameWritesSameBuffer` | crates/tinywifi-display/src/epaper.rs:122-141 | Drawings with the same last writes leave the same bytes, whatever their order. |
| `DisplayRefresh.Display.Rounds` | crates/tinywifi-display/src/main.rs:78-117 | Any number of rounds of the loop on its three variables equals the specification `Run`. |
| `DisplayRefresh.AlwaysUpToDate` | crates/tinywifi-display/src/main.rs:69-117 | After every round of a run without errors the screen shows the setup frame iff a password is pending, and otherwise a status equal up to its uptime that is under ten minutes old. |
| `DisplayRefresh.OneSetupPerStretch` | crates/tinywifi-display/src/main.rs:82-89 | The setup frame is drawn once for every stretch of rounds with a pending password. |
| `DisplayRefresh.FailedDrawIsForgotten` | crates/tinywifi-display/src/main.rs:78-117 | After a status failed to draw, whatever was on the screen before, the next working round with an equal status is up to date exactly when ten minutes have passed since the last status frame that succeeded, or the screen was right already. Once this process has drawn, or when no status frame was there, only the ten minutes count. |
| `DisplayRefresh.SetupStaysUp` | crates/tinywifi-display/src/main.rs:78-117 | So the setup frame with the initial password stays up after the password is gone, through any number of working rounds with the same status, until ten minutes after the last status frame. |

## Left out

* Reading `/etc` paths, permissions and the existence checks themselves: outcomes are parameters.
* Two different keys of the pending map: each has its own copy of the machine; that they share one map lock while a replaced guard is joined is modelled for one key only.
* The clamping of the hold time and the HTTP layer around the requests.
* Poisoned locks and panics: the parking_lot mutex has no poisoning and the actions do not panic.
* Fairness: `JoinCannotHang` and `EveryRunCanSettle` show that there is always a step towards the end, not that a scheduler takes it.
* Unicode letter case: `to_lowercase` and `to_uppercase` are modelled on ASCII letters; white space for `trim` is the exact Unicode White_Space set.
- RateLimit.RateLimiter.IsRateLimited: the counter is an unbounded number; the program's 32-bit counter would need 2^32 requests within ten seconds to wrap.
- Numbers.IpCanonical: only IPv4 addresses; the addresses of callers in the limiters are abstract.
- WifiSettings.Validate: the messages are modelled as one constant each, without their wording.
- DhcpConf.Validate: the same.
- Schedule.Validate: the same; the JSON form of a schedule is not modelled.
- StaticLeases.RunKeepsDistinct: starts from a file without nested quotes around a `static` value; what one addition does to any other file is `AddKeepsDistinctIff`, and what a removal leaves there `RemoveClearsIff`.
- Schedule.RunShows: handlers follow one another and every command works; overlapping handlers are in `ChainRace`, without the override file, and failing commands in the contracts of `Schedule.Enforcer`.
- ConfigTransaction.Store.ApplyWifi: an I/O error additionally carries the step it came from, so that the contract can tell the endings apart.
- Amnezia.ParseConf: a peer under construction is a value that the loop replaces, not an object of its own.
- DisplayRefresh.Display.Rounds: the loop is endless in the program; here it is any finite number of rounds.
* VPN tunnel lifecycle, WAN configuration, monitor mode, metrics, status pages, `vpn://` import, password hashing, TLS, drawing of fonts and icons, SPI and GPIO: shell commands, foreign libraries or user interface.
