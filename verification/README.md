# Verification of Glovebox's durable and protocol code

This project models, in Dafny 4.11, the parts of Glovebox that keep state across crashes, restarts
and answers nobody controls, and proves what they promise. Code that changes things step by step is
modelled by classes and methods with the same branches, each proved against specification functions
and ghost accounts; the promises over whole runs are lemmas and preserved invariants about those.

* **The record spool** (`Fs`, `Entries`, `Durability`, `SpoolState`, `Spool`, `Bounds`, `SpoolLife`).
  A file system with visible and durable directory entries and visible and durable file content, in
  which any operation may fail and the power may be lost at any of them. On it the spool writes,
  lists, rejects, removes, bounds, erases and recovers. `SpoolLife.Life` is the theorem over any
  sequence of operations and restarts.
* **The sender** (`Backoff`, `Classify`, `Sender`): one pass over the spool against a journal that
  answers anything, with the waits between passes.
* **The login job** (`LoginRecord`, `LoginProtocol`, `LoginJob`): any number of runs interleaved over
  one check-and-set record with lost answers, retries and deaths at any step, and one run's own code
  as steps of that protocol.
* **The session gate** (`Checkpoint`, `GateTrace`, `SessionGate`): what a poll may ask of the portal,
  the login broker and the request mailbox, told of the whole trace of what was asked; each method's
  contract gives exactly the events it may add and the outcome that goes with each.
* **The per-child poll** (`Binding`, `Schedule`, `Scheduler`): the binding of each child to one page id
  and one poll per window, over restarts.
* **The attendance carry** (`Tallies`, `Carry`, `CarryPolls`): day tallies, settled runs, and the days
  carried from poll to poll.
* **Text and codecs** (`Utf8`, `Text`, `Blocks`, `Body`, `Names`, `Codecs`): cutting, cleaning and
  laying out untrusted text, spool file names and fingerprints.

`Options`, `Numbers` and `Splitting` hold what several of these share.

Times are integers (milliseconds in the spool, nanoseconds in the sender, the login job, the gate and
the scheduler); 64-bit wrap-around is written out where the code can reach it. `faults` counts the
operations of a disk that failed by an I/O error or for want of power, so that a contract can say what
holds when nothing failed.

## Where the code falls short of its promise

For each of these the model has a lemma or a run with a concrete input, and the condition under which
the promise holds; where the condition is exact the lemma that says so is named as an if-and-only-if.

* When the fsync of `rejected/` fails while the power stays on, a later fsync of `spool/` can make a
  move's removal durable alone, and a power loss then loses the file
  (`Durability.FailedSyncLosesTheFile`). Whatever directories are synced after a move, the file is lost
  if and only if `spool/` was among them and `rejected/` never was (`Durability.LostByTheOrderOfSyncs`).
  On a disk where a directory's fsync fails only without power no file is ever at risk
  (`SpoolLife.Life`).
* The backoff's shift can wrap. For every allowed setting the computed delay is the one that is meant,
  but for `min_backoff_seconds` 70369 at the shift by 18, where it is shorter than the smallest delay
  (`SendBackoff.DelayIsMeant`, an if-and-only-if).
* `FailPass` may set an earlier end of the wait than an answer asked for, and the next pass then sends
  before the journal allowed it (`RecordSender.FailPassCutsAWait`). Some jitter does so if and only if
  the shortest delay of the next step ends before the wait (`SendBackoff.EndsBefore`); a scope's own
  wait is never cut.
* Two runs of the login job can both log in, in two ways. When they make the same marker record in the
  same second, the second's retried write finds what it meant to write and takes it for its own
  (`LoginProtocol.TwinsBothLogIn`); when a run is still logging in ten minutes after its marker, another
  counts that marker and makes its own (`LoginProtocol.LateRunIsJoined`). Those are the only steps that
  do it, each an if-and-only-if (`LoginProtocol.OnlyTwinsBreak`,
  `LoginProtocol.OnlyLateRunsAreOverwritten`); in every interleaving without them exclusion holds.
* A run that takes an equal marker for its own also takes it from a run that has died, whose login is then
  never counted: three logins in a row can end without a session although no two are made at a time
  (`LoginProtocol.LostPhaseIsForgotten`). That is the only step that does it, an if-and-only-if
  (`LoginProtocol.OnlyTwinsTakeOver`).
* A strike of the session gate that could not be stored is forgotten by the next process, and the broker
  is asked once more (`SessionGate.LostStrike`, two polls and the next process's). A new process may ask
  if and only if what was stored counts less than two (`SessionGate.NextProcessAsks`); as long as no
  process starts with a smaller count than its predecessor had, nobody is asked after two strikes
  (`SessionGate.Life`). Requests are spaced by the interval less one second, because the stored time
  drops the fraction.
* A binding whose save failed holds in memory only; a later poll of the same process stages with it and
  a restart forgets it (the run `ChildBinding.UnstoredBindingIsLost`). A new process may take another
  student's page for a bound child if and only if it starts with another binding for that child
  (`ChildBinding.RestartMayRebind`).
* A poll goes on when its time could not be stored, and a restart in that window polls again (the run
  `PollScheduler.UnsavedPollIsRepeated`). There is a time at which a restart repeats a window of the last
  poll if and only if there is no stamp or an eligible window opens between the stamp and the end of such
  a window (`PollScheduler.RestartMayRepeat`).
* The configuration check lets poll windows overlap, and then two polls can start in one window although
  every time was stored. For a list of windows of any length that is so if and only if one opens inside
  another, where a restart repeats the outer one (the run `PollScheduler.InnerWindowIsRepeated`), or one
  outlasts the first listed with its start and no window listed before it opens after it, where the
  schedule may choose it again (`PollScheduler.LongerWindowIsRepeated`): `PollScheduler.OverlapPollsTwice`,
  and `PollScheduler.TwoWindows` for two. For all other lists, sorted or not, at most one poll starts in
  a window over any run in which what each process starts with is exact (`PollScheduler.Life`).
* `parseName` accepts a comma before the milliseconds, which no `Put` writes
  (`SpoolNames.NameInvertsParse`).

## Model

| member | source | states |
|---|---|---|
| FileSystem.Disk.CreateExcl | connector/records/fs.go:14-16 | creates a visible, empty, not yet durable file, and only where the name is free; any failure changes nothing |
| FileSystem.Disk.Write | connector/records/fs.go:24-28 | a failed write may leave part of the data, a successful one all of it, none of it durable |
| FileSystem.Disk.SyncDir | connector/records/fs.go:20-22 | makes exactly the visible entries of one directory durable; on a reliable disk it fails only without power |
| FileSystem.Disk.PowerOn | connector/records/fs_mem_test.go:89-110 | after a power loss a process finds what was durable and nothing else |
| Durability.KeptIsInExactlyOne | connector/records/spool.go:386-421 | a kept file is in exactly one of spool/ and rejected/, byte for byte |
| Durability.MoveKeeps | connector/records/spool.go:407-421 | after each operation of a move (rename, fsync of rejected/, fsync of spool/) a power loss still leaves every kept file whole in at least one directory |
| Durability.SyncKeeps | connector/records/fs.go:70-80 | making either directory durable loses no kept file that is not at risk |
| Durability.FailedSyncLosesTheFile | connector/records/spool.go:410-421 | counterexample: a failed fsync of rejected/ followed by one of spool/ and a power loss leaves the file in neither directory |
| Durability.LostByTheOrderOfSyncs | connector/records/spool.go:407-421 | whatever directories are synced after a move, a power loss then takes the file from both if and only if spool/ was synced and rejected/ never was |
| Durability.RecoveringKeepsTarget | connector/records/spool.go:435-476 | from every state a recovery passes through, a power loss and another recovery aim at the same two directory contents |
| SpoolEntries.InsertKeepsOrder | connector/records/spool.go:367-374 | the listing stays in order of observed_at and then name |
| SpoolEntries.SubjectMeans | connector/records/spool.go:237-244 | a scope is about a subject if and only if its first part named data_subject has that value, and about none when no part has that name |
| SpoolEntries.OldestFirst | connector/records/spool.go:367-374 | every earlier entry of a listing is no newer, and has the smaller id when two snapshots are of one time |
| SpoolEntries.AgesSplit | connector/records/bounds.go:54-79 | what is kept and what is dropped by age: exactly the entries whose age is at most max_age, and exactly the others |
| SpoolEntries.DropCountIsShortest | connector/records/bounds.go:90-125 | what max_bytes drops is the shortest prefix that brings the total within the limit: any shorter one leaves it over |
| SpoolEntries.DropCountConcat | connector/records/bounds.go:103-125 | dropping from rejected files and then, with what is left of the excess, from pending ones is dropping from one list |
| SpoolEntries.NewestIsKept | connector/records/bounds.go:111-125 | the newest pending file of a scope is never a candidate |
| SpoolEntries.UnderLimitOrOnePerScope | connector/records/bounds.go:103-134 | after the drop the spool is within the limit, or no rejected file and one pending file per scope is left |
| RecordSpool.Spool.ParseEntry | connector/records/spool.go:204-225 | a cached or read entry is that of the file's present content, and a mismatch means the file is not a snapshot; only an I/O error says nothing |
| RecordSpool.Spool.MoveToRejectedLocked | connector/records/spool.go:410-421 | ends in one of the four states of a move, keeps the invariant in each, and puts a file at risk only when the fsync of rejected/ failed with the power on |
| RecordSpool.Spool.RemoveLocked | connector/records/spool.go:386-393 | success means gone now and after a power loss; a removal begins only with the power on |
| RecordSpool.Spool.WriteAtomic | connector/records/spool.go:151-171 | at every point the name is absent or whole; success means the exact snapshot is durable; failure can also mean that the temp name was taken |
| RecordSpool.Spool.PendingEntryLocked | connector/records/spool.go:320-339 | a snapshot is never quarantined, a file that is not one is, and a read error leaves the file alone |
| RecordSpool.Spool.ListPendingLocked | connector/records/spool.go:290-313 | sorted, without duplicates, every entry telling the size, time, scope and subject of its file's content, and all snapshots there unless an operation failed; only files that are not snapshots move |
| RecordSpool.Spool.ListRejectedLocked | connector/records/spool.go:341-365 | one entry for every file of rejected/ but temp files, in order, telling the size, time, scope and subject of its content; an unreadable one has the size of the file and the time in its name, or else its modification time |
| RecordSpool.Spool.DropExpired | connector/records/bounds.go:54-79 | tries exactly the entries over max_age, and without a failed removal keeps exactly the others |
| RecordSpool.Spool.DropOverLimit | connector/records/bounds.go:103-125 | without a failed removal drops exactly the shortest prefix of the candidates, passing over the newest of each scope |
| RecordSpool.Spool.DropUnreadable | connector/records/bounds.go:68-73 | ages pending files whose read failed by the time in their names, and those only |
| RecordSpool.Spool.EnforceLocked | connector/records/bounds.go:31-136 | no removal begins but of a file over max_age or when what was listed is over max_bytes; when none fails, exactly the prescribed files are gone |
| RecordSpool.Spool.Put | connector/records/spool.go:119-146 | success means durable byte for byte before the bounds are applied; refused as erased, with nothing written, if and only if the first data_subject of its scope was erased; an error leaves the kept snapshots as they were |
| RecordSpool.Spool.Delete | connector/records/spool.go:378-384 | as a removal from the entry's own directory; fails only with a fault |
| RecordSpool.Spool.Reject | connector/records/spool.go:396-405 | success means durable in rejected/ and gone from spool/, visibly and after a power loss |
| RecordSpool.Spool.PurgeSubject | connector/records/bounds.go:143-175 | takes only files about the subject; when everything could be read and removed no snapshot file is left whose first data_subject it is, and the invariant keeps it so until a restart |
| RecordSpool.Spool.MarkUnknown | connector/records/bounds.go:180-188 | adds or takes away exactly that scope |
| RecordSpool.Spool.RefreshGauges | connector/records/spool.go:478-507 | lists both directories again, which may quarantine what is not a snapshot and removes nothing; the counts, the bytes and the oldest time are those of exactly what is there |
| RecordSpool.Spool.RecoverRejected | connector/records/spool.go:436-451 | removes the temp files of rejected/ and reports exactly the others |
| RecordSpool.Spool.RecoverPending | connector/records/spool.go:452-471 | every file of spool/ ends as a snapshot that is there alone, or is removed or quarantined |
| RecordSpool.Spool.Recover | connector/records/spool.go:435-476 | wherever it stops, what a recovery aims at is unchanged; when it completes, no temp file, no file in both directories, and both contents are the target |
| SpoolBounds.StillThere | connector/records/bounds.go:31-136 | what an enforcement leaves of its listings |
| SpoolBounds.NothingOverAge | connector/records/bounds.go:54-79 | when no removal failed the age of every file still there is at most max_age |
| SpoolBounds.NewestSurvives | connector/records/bounds.go:111-125 | the newest surviving pending file of every scope is kept |
| SpoolBounds.ShortestPrefixDropped | connector/records/bounds.go:90-135 | max_bytes drops exactly the shortest oldest-first prefix of rejected then non-newest pending files, ending within the limit or with one pending file per scope |
| SpoolLife.Apply | connector/records/spool.go:119-507 | each operation, and the recount that ends it, keeps the account of acknowledged snapshots, begins no removal without its reason, and puts nothing at risk on a reliable disk |
| SpoolLife.TargetIsDurable | connector/records/spool.go:435-476 | what a recovery aims at depends only on what is durable |
| SpoolLife.Reopen | connector/records/spool.go:80-109 | after a power loss anywhere, the opened spool has the invariant again and, complete, exactly the target contents |
| SpoolLife.ReopenUntilDone | connector/records/spool.go:435-476 | recovery cut short any number of times ends in the two directories one uninterrupted recovery would have left |
| SpoolLife.AccountedIsThere | connector/records/spool.go:119-146 | an accounted snapshot can be read, whole, in exactly one directory |
| SpoolLife.Life | connector/records/spool.go:80-507 | over any operations, power losses and restarts: the account is exactly the Puts that stored; each of its snapshots is whole in exactly one directory unless its removal began, which only a delete, a purge of its subject, max_age or max_bytes does; no temp file is left |
| SendBackoff.DelayIsMeant | connector/records/sender.go:215-225 | the computed delay is the meant one if and only if it is not the single wrapping case |
| SendBackoff.NoOverflowTo8796 | connector/records/config.go:78-85 | the shift never overflows exactly up to a smallest delay of 8796 seconds |
| SendBackoff.MeantGrows | connector/records/sender.go:215-225 | before jitter the delay never shrinks with the step and stays between min and max |
| SendBackoff.EndsBefore | connector/records/sender.go:200-225 | some jitter ends a delay of the step before a given time if and only if the shortest delay of the step does |
| SendBackoff.JitterMeans | connector/records/sender.go:215-225 | the jittered delay is the delay and its share of it, the fraction of a nanosecond dropped: within a fifth of it either way |
| SendBackoff.Backoff | connector/records/sender.go:215-225 | max(retryAfter, j * meant) with j in [0.8, 1.2], always positive |
| AnswerTable.ClassifyMeans | connector/records/classify.go:72-96 | for any answer: deleted if and only if 200 with a listed status, erased if and only if 410 erased_subject, rejected if and only if a listed permanent pair, its scope blocked if and only if 409 unknown_subject |
| RecordSender.AnswerMeans | connector/records/sender.go:132-191 | what the sender does next, told of the raw answer: the next file after an accepting or refusing one, the scope is left after an erase or a block, and everything else stops the pass |
| RecordSender.ScopesByOldest | connector/records/sender.go:229-239 | scopes come in the order of their oldest files, each once |
| RecordSender.OfScopeKeepsOrder | connector/records/sender.go:229-239 | a scope's group keeps the order of the listing |
| RecordSender.GroupByScope | connector/records/sender.go:229-239 | the groups are exactly the listing's entries of each scope |
| RecordSender.PatientSend | connector/records/sender.go:82-196 | a send made when nothing is waited for keeps, for the whole history, that every wait is waited out |
| RecordSender.EveryLossHasItsCause | connector/records/sender.go:82-196 | a snapshot leaves spool/ in a pass only by the bounds, a 200 with a listed status to its exact bytes, a listed permanent refusal of them, or a 410 erased_subject about its subject |
| RecordSender.AnsweredAre | connector/records/sender.go:132-167 | after a pass in which nothing failed an accepted file is in neither directory, and a permanently refused one is in rejected/, byte for byte what was sent, unless its subject was erased later in the pass |
| RecordSender.AcceptsAre | connector/records/sender.go:132-143 | the count of sent files is the number of sends that were answered with an acceptance |
| RecordSender.FailPassCutsAWait | connector/records/sender.go:198-203 | counterexample: a 503 that asks for an hour, a pass that fails, and a send a minute later, with the default settings |
| RecordSender.Sender.WaitUntil | connector/records/sender.go:215-225 | the end of a wait is a delay of that step from now |
| RecordSender.Sender.FailPass | connector/records/sender.go:200-203 | one more step of the global backoff; a wait is cut only when the shortest delay of that step ends before it, and never one that is over |
| RecordSender.Sender.SettleSent | connector/records/sender.go:132-152 | told of the raw answer: an accepted file is removed, a refused one moved to rejected/, the waits cleared; it stays in spool/ only after a fault |
| RecordSender.Sender.Forget | connector/records/sender.go:153-167 | no snapshot file whose first data_subject was erased is left unless an operation failed, and every file that went has that cause |
| RecordSender.Sender.Wait | connector/records/sender.go:168-189 | the scope, or everything, waits a delay of its next step, no less than the answer asks for |
| RecordSender.Sender.SendBody | connector/records/sender.go:115-130 | the exact bytes are what is sent and logged |
| RecordSender.Sender.DealWith | connector/records/sender.go:132-191 | after an answer: where the file is then for each raw answer, unless something failed; an answer that settles it clears the scope's wait |
| RecordSender.Sender.SendOne | connector/records/sender.go:105-191 | a file is sent unless reading it failed, and only a stopping answer changes the global wait |
| RecordSender.Sender.DrainScope | connector/records/sender.go:104-192 | without I/O errors a scope's sends are the first of its files in order, all but the last settled, and all of them when nothing stopped it |
| RecordSender.Sender.NextScopes | connector/records/sender.go:95-195 | one scope of the pass: its sends are added after those before, and the pass stops or goes on as its last answer says |
| RecordSender.Sender.DrainScopes | connector/records/sender.go:95-195 | over all scopes: each scope's sends in order, and nothing after a stopping answer; the next pass is due when the first of the waits of the scopes dealt with ends |
| RecordSender.Sender.Remaining | connector/records/sender.go:205-211 | the number of pending files, all of them when no operation failed |
| RecordSender.Sender.Drain | connector/records/sender.go:82-196 | bounds first; each scope's sends are a prefix of its files in order; nothing is sent before the global wait ends; every file that left has its cause, told of the raw answers; what was sent is counted by the accepting answers; exactly when the next pass is due for each way this one can end (waiting, unlisted, stopped, interrupted, complete), and how many files are left |
| LoginProtocol.StepKeeps | connectors/powerschool-auth-refresher/run.go:178-443 | every step of every run keeps the protocol's invariant, as long as nobody is about to count the marker of a run at work or to find another's marker for its own |
| LoginProtocol.OnlyTwinsBreak | internal/loginvault/loginvault.go:123-178 | when no marker of a run at work is counted: after a step two runs log in at a time if and only if it is the read-back of a run that finds exactly the marker it was writing while another is at work on it; then that marker is another's |
| LoginProtocol.OnlyLateRunsAreOverwritten | connectors/powerschool-auth-refresher/run.go:222-262 | when nobody is mixed up: after a step the record is another than that of a run at work if and only if the step counts that run's marker; then the run has outlived it |
| LoginProtocol.OnlyTwinsTakeOver | internal/loginvault/loginvault.go:123-178 | when no marker of a run at work is counted: after a step a run is at work on the marker of a phase that ended unrecorded if and only if it is the read-back of a run that finds exactly the marker it was writing and that phase's; then that marker is another's |
| LoginProtocol.HistoryInv | connectors/powerschool-auth-refresher/run.go:178-443 | the invariant holds in every world of every interleaving |
| LoginProtocol.TimelyHistoryIsSound | connectors/powerschool-auth-refresher/run.go:222-239 | neither exceptional step comes about in a history in which no run outlives its marker and no two make equal ones |
| LoginProtocol.MutualExclusion | connectors/powerschool-auth-refresher/run.go:363-379 | in every interleaving without the two exceptional steps at most one run is between its marker and its outcome, and at most two phases in a row end without a session |
| LoginProtocol.NoPortalAfterTwo | connectors/powerschool-auth-refresher/run.go:240-274 | once two phases in a row ended rejected, unconfirmed or unrecorded, nobody logs in and no run that begins later ever comes to asking the portal |
| LoginProtocol.NoPortalOnceLatched | connectors/powerschool-auth-refresher/run.go:222-274 | once the latch is set for these credentials, by one rejected login too, it stays set, nobody logs in and no run that begins later ever comes to asking the portal, however the runs interleave |
| LoginProtocol.LostIsCountedOnce | connectors/powerschool-auth-refresher/run.go:240-262 | the only write that can follow an unrecorded phase's marker takes it away and counts one |
| LoginProtocol.AppliedAtMostOnce | internal/loginvault/loginvault.go:151-178 | a write is applied at most once however often it is retried |
| LoginProtocol.LoserDoesNotLogIn | connectors/powerschool-auth-refresher/run.go:370-379 | a run whose marker was refused because somebody wrote first makes no login |
| LoginProtocol.TwinsBothLogIn | internal/loginvault/loginvault.go:123-135 | counterexample: two runs with equal marker records of one second both log in |
| LoginProtocol.LateRunIsJoined | connectors/powerschool-auth-refresher/run.go:222-262 | counterexample: a run still at work when its marker is ten minutes old is joined by another |
| LoginProtocol.LostPhaseIsForgotten | internal/loginvault/loginvault.go:123-135 | counterexample: three phases in a row end without a session, nobody is late and no two log in at a time |
| LoginRecord.MarkedIs | connectors/powerschool-auth-refresher/run.go:353-369 | a marker made for a request notes it as served with its time, and a latch of other credentials is gone with its count; nothing else changes |
| LoginRecord.RecordedIs | connectors/powerschool-auth-refresher/run.go:678-712 | an outcome takes the marker away, is counted for its day when the credentials may have been submitted, and sets the latch when rejected or the second in a row without a session |
| LoginRecord.ConsumedIs | connectors/powerschool-auth-refresher/run.go:240-262 | a stale marker is counted as one login without a session on the day it was made, and latches when it is the second in a row |
| LoginRecord.InProgressIs | internal/loginvault/loginvault.go:185-194 | a marker is of a login in flight if and only if it is less than ten minutes from the clock, before or after |
| LoginJob.Shared.Do | internal/loginvault/loginvault.go:440-471 | every step a run takes is a step of the protocol's history |
| LoginJob.Shared.Others | connectors/powerschool-auth-refresher/run.go:178-443 | whatever other runs do in between leaves this run's own state alone |
| LoginJob.WriteStateOnce | internal/loginvault/loginvault.go:151-178 | success means the record is the goal, written by this run's attempts or read back equal to it; otherwise the run is over |
| LoginJob.RunLogin | connectors/powerschool-auth-refresher/run.go:614-671 | at most two logins, the second only after one that failed before submitting, none inside the blackout |
| LoginJob.ConfirmSession | connectors/powerschool-auth-refresher/run.go:733-755 | asks the home page until it answers, three times at most; confirmed if and only if the last answer accepts the session |
| LoginJob.KeepStoredFor | connectors/powerschool-auth-refresher/run.go:545-604 | the portal is asked once, if and only if the stored session is young and not the one reported dead; accepted keeps it, expired does not, and no answer leaves it undetermined |
| LoginJob.ReadAndCheck | connectors/powerschool-auth-refresher/run.go:222-274 | a fresh marker ends the run; a stale one is counted and written first; the latch for these credentials ends it, and nothing else does but a failed write; a run begun when no login is left never goes on |
| LoginJob.Decide | connectors/powerschool-auth-refresher/run.go:276-351 | told of what the portal answered: a served or too recent request ends the run without the portal; a probe answered as accepted ends it with success, unanswered as transient; a login follows only when the stored session was not worth asking about or its probe was answered as expired, the run may write and the sign-in page was just recognised |
| LoginJob.DecidedMeans | connectors/powerschool-auth-refresher/run.go:276-351 | a run goes on to log in if and only if it has just been shown the known sign-in page; then nothing failed before and no live session is known |
| LoginJob.AskPortal | connectors/powerschool-auth-refresher/run.go:310-351 | what the run does with each answer about the stored session and each sign-in page; a request answered by a live session is the record's served one once that is written |
| LoginJob.MarkServed | connectors/powerschool-auth-refresher/run.go:310-320 | success means the record notes the request as served and is otherwise the one decided on; the run is over either way |
| LoginJob.WriteMarker | connectors/powerschool-auth-refresher/run.go:353-379 | the run logs in only with its own marker in the record, which notes the request as served now |
| LoginJob.Conclude | connectors/powerschool-auth-refresher/run.go:390-419 | the outcome to record for each way the browser's part can end; confirmed if and only if the home page accepted the new session last |
| LoginJob.OutcomeMeans | connectors/powerschool-auth-refresher/run.go:614-671 | which outcome the record gets for each way the last login can end |
| LoginJob.WriteSession | connectors/powerschool-auth-refresher/run.go:764-812 | check-and-set: only the version read before the login is replaced, or, once, one that was read before the portal accepted this run's session again; success means it is stored |
| LoginJob.RecordOutcome | connectors/powerschool-auth-refresher/run.go:678-712 | when it is stored the record is the marker's record with that outcome counted and the marker gone |
| LoginJob.LogInOnce | connectors/powerschool-auth-refresher/run.go:353-443 | no login before the marker is written; the recorded outcome is that of the last login; when it is recorded a request is the record's served one and its time that of the marker; a session is stored only when confirmed, and success of a login means it was stored |
| LoginJob.Execute | connectors/powerschool-auth-refresher/run.go:178-443 | a blackout, no pending request, a login in flight or the latch ends the run without the portal, and so does having begun when two phases had ended badly or the latch was set; a request is acted on if and only if it is well formed and its time is believed; a stored session the portal has just accepted, or said nothing about, is not logged in over; logins happen only with the latch open, on an unserved request after the interval, which is the record's served one when the outcome is recorded; a session is stored only after a login that gave one |
| Checkpoints.Checkpoint.Save | connector/checkpoint.go:51-56 | memory has the value even when storing it failed |
| Checkpoints.Checkpoint.Delete | connector/checkpoint.go:58-63 | memory lost the key even when storing that failed |
| Checkpoints.Checkpoint.Restart | connector/checkpoint.go:23-42 | a new process knows what was stored |
| GateTrace.BrokerOncePerPoll | connectors/powerschool/session_gate.go:459-472 | between two calls of the broker a poll begins |
| GateTrace.NobodyAskedAfterTwo | connectors/powerschool/session_gate.go:580-602 | after two strikes nobody is asked until a pardon |
| GateTrace.DeadIsNotProbed | connectors/powerschool/session_gate.go:403-414 | while the session in place is the recorded dead one and none is delivered the portal is not probed |
| GateTrace.RequestsAreSpaced | connectors/powerschool/session_gate.go:622-656 | any two mailbox requests are more than the interval less one second apart |
| SessionGate.LongEnough | connectors/powerschool/session_gate.go:622-650 | what the stored, truncated time of the last request still guarantees |
| SessionGate.NextProcessAsks | connectors/powerschool/session_gate.go:567-602 | the first poll of a new process can call the broker if and only if what was stored counts less than two, and after two strikes that call is one too many |
| SessionGate.Life | connectors/powerschool/session_gate.go:397-472 | over any polls, deaths in mid-poll and restarts: one call of the broker in a poll, no probe of the recorded dead session and spaced requests always; nobody asked after two strikes as long as no process starts with a smaller count than its predecessor had |
| SessionGate.LostStrike | connectors/powerschool/session_gate.go:932-939 | counterexample: two whole polls with a strike each, the second not stored, and the next process calls the broker again |
| SessionGate.AnswerDecides | connectors/powerschool/session_gate.go:726-809 | what the broker answers decides how a poll's start comes out, whatever the state: no answer or no session is a failed poll, a latch blocks, a deferral is nobody's failure, and with a session the poll goes on if and only if the portal has just accepted it |
| SessionGate.DeferralHolds | connectors/powerschool/session_gate.go:580-595 | while the same session is in place the poll after a deferral asks nobody, broker or portal, if and only if it comes before the time that was named and before a day after the answer |
| SessionGate.BlockedUntilChanged | connectors/powerschool/session_gate.go:597-607 | with the mailbox a full count blocks and nobody is asked while the session it was made against is in place; any other dead session lifts it |
| SessionGate.Gate.constructor | connectors/powerschool/session_gate.go:227-259 | a new process goes on restrained when what was stored remembers the last request, and counts every strike if that is promised |
| SessionGate.Gate.Reload | connectors/powerschool/session_gate.go:300-333 | the file's session is taken if and only if it is the one in use or a client can be made of it and it is not the one the broker has replaced; otherwise nothing changes |
| SessionGate.Gate.Adopt | connectors/powerschool/session_gate.go:338-358 | the delivered session is in use ahead of the file, and the first one it replaced is remembered |
| SessionGate.Gate.Check | connectors/powerschool/session_gate.go:374-387 | exactly one GET, none without a session or with an expired document, and dead then |
| SessionGate.Gate.ClearUnanswered | connectors/powerschool/session_gate.go:969-975 | a pardon that changes nothing else |
| SessionGate.Gate.BumpUnanswered | connectors/powerschool/session_gate.go:932-939 | one strike, counted against the session in use |
| SessionGate.Gate.SaveHold | connectors/powerschool/session_gate.go:847-858 | the session in use is recorded dead, and nothing else changes |
| SessionGate.Gate.HonourReset | connectors/powerschool/session_gate.go:494-510 | a new token, and only a new one, clears the count and the dead session and is remembered |
| SessionGate.Gate.SecondOpinion | connectors/powerschool/session_gate.go:886-909 | one GET after the record is dropped: live, twice dead with a strike, or undecided, with the outcome of each |
| SessionGate.Gate.TakeSession | connectors/powerschool/session_gate.go:786-808 | the delivered session is put into use if and only if a client can be made of it, and checked once; a refused one is held and counted, an accepted one clears both |
| SessionGate.Gate.NoteDeferral | connectors/powerschool/session_gate.go:738-756 | the broker's time is believed for a day at most |
| SessionGate.Gate.AskBroker | connectors/powerschool/session_gate.go:726-809 | one call; for each answer the outcome, the events, the count, the session in use and what is recorded dead: no answer or no session fails the poll, a latch blocks, a deferral skips it and is recorded with its time, a session is tried |
| SessionGate.Gate.WaitForNewSession | connectors/powerschool/session_gate.go:670-703 | one check of a session other than the dead one; or, with no other in place, a strike at the first reading of the clock that is not before the deadline, or an interruption |
| SessionGate.Gate.MakeRequest | connectors/powerschool/session_gate.go:643-656 | a request is made if and only if its time was stored, and after that |
| SessionGate.Gate.RequestIfDue | connectors/powerschool/session_gate.go:609-656 | the poll is skipped if and only if the file was written moments ago, it is the blackout, or an earlier request forbids one and is too old to wait for; an earlier one that may still be answered is waited for, for the rest of its wait; in every other case a request is made unless its time cannot be stored |
| SessionGate.Gate.AskMailbox | connectors/powerschool/session_gate.go:597-661 | blocked on the session the full count was made against; otherwise the exact events and outcome of a mailbox poll |
| SessionGate.Gate.RequestAndWait | connectors/powerschool/session_gate.go:567-667 | the broker is not asked after two strikes nor before the time it named for this session; otherwise it is, with what its answer leads to, and the session found dead stays recorded until the portal accepts one |
| SessionGate.Gate.CheckAndAsk | connectors/powerschool/session_gate.go:416-451 | live, unknown and dead with exactly what each leads to; the third unknown poll in a row fails with a broker |
| SessionGate.Gate.Ensure | connectors/powerschool/session_gate.go:397-452 | which session is in place once the file was read; a poll goes on only with a session the portal has just accepted; the recorded dead session is not probed; all events and the outcome of a poll's start, by the broker's answer, and what is recorded dead after it |
| SessionGate.Gate.Renew | connectors/powerschool/session_gate.go:459-472 | in mid-poll the dead session is recorded and the broker asked unless it was already, with what each answer leads to and what is recorded after it |
| ChildBinding.Binding.constructor | connectors/powerschool/binding.go:50-62 | starts from the bound id and exactly the ids bound to the other children |
| ChildBinding.Binding.Check | connectors/powerschool/binding.go:77-98 | accepts a page if and only if all of the turn's pages with it name one student, the bound one if any and nobody else's |
| ChildBinding.Binding.Learn | connectors/powerschool/binding.go:101-113 | saves the id the pages agreed on only when none is bound, and a failed save binds nothing in this turn |
| ChildBinding.ReadIsOneStudent | connectors/powerschool/assignments.go:320-392 | whatever the portal answers, the pages accepted in a turn and all that is found carry one id, the bound one if any and nobody else's |
| ChildBinding.DoneReadsAll | connectors/powerschool/assignments.go:320-392 | a turn that is read to the end was not broken off, and every page that came names the one student; of any other nothing is found |
| ChildBinding.GoodTurnStagesAll | connectors/powerschool/connector.go:681-827 | when nothing fails and every page names one student, nobody else's and the one configured or else learned for the child if there is one, every course is staged with that id |
| ChildBinding.LearnKeeps | connectors/powerschool/binding.go:101-113 | a learned id is nobody else's and unbinds nothing that was staged |
| ChildBinding.Poller.ReadAssignments | connectors/powerschool/assignments.go:320-392 | the loop reads what the specification reads: each page is put to the binding before its lookup and after it, and a rejected page ends the turn |
| ChildBinding.Poller.PollKid | connectors/powerschool/connector.go:681-827 | exactly what is staged, learned and stored for any answers of the portal: nothing unless all was read, confirmed and saved, and nothing changed after a rejected page |
| ChildBinding.Poller.PollKids | connectors/powerschool/connector.go:614-640 | every poll keeps that all that was ever staged is bound and the children distinct |
| ChildBinding.Poller.Restart | connectors/powerschool/connector.go:681-827 | a new process knows what was stored; its bindings are lost if any child's differs from that in memory |
| ChildBinding.Life | connectors/powerschool/connector.go:614-827 | over any polls, answers, failed saves and restarts: as long as every process starts with its predecessor's bindings, all ever staged is for the child bound to the id it carried |
| ChildBinding.RestartMayRebind | connectors/powerschool/binding.go:50-98 | a new process may accept another id for a bound child if and only if it starts with another binding for it |
| ChildBinding.OneIdPerChild | connectors/powerschool/binding.go:64-98 | over everything ever staged, while no binding is lost, same child if and only if same id |
| ChildBinding.UnstoredBindingIsLost | connectors/powerschool/binding.go:101-113 | a run: a binding that could not be saved is staged with, forgotten by a restart, and another id is learned and staged for the same child |
| PollSchedule.WindowEndIs | connectors/powerschool/scheduler.go:71-84 | inside a window it is the end of the first listed one that contains the instant |
| PollSchedule.WindowEndOutside | connectors/powerschool/scheduler.go:71-84 | it never lies before the instant, and is the instant itself exactly when no window contains it |
| PollSchedule.SecondsAreEnough | connectors/powerschool/connector.go:319-329 | the stored whole second of a poll falls in the same window as the poll |
| PollSchedule.SplayedTimeIn | connectors/powerschool/scheduler.go:123-135 | always inside its window |
| PollSchedule.ComputeNextPollTime | connectors/powerschool/scheduler.go:24-61 | not before now, in an eligible window; from an instant not strictly inside a window, in the first eligible one that starts at or after it |
| PollSchedule.LastWindowStart | connectors/powerschool/scheduler.go:93-113 | the latest start of an eligible window not after now, for any windows the configuration check accepts |
| PollScheduler.PollIsFirst | connectors/powerschool/connector.go:343-361 | a poll that shares no window with the last one shares none with any earlier poll |
| PollScheduler.ScheduledIsFresh | connectors/powerschool/connector.go:262-299 | with clean windows a scheduled poll shares no window with the last one, however late its timer fires |
| PollScheduler.DaysPolled | connectors/powerschool/scheduler.go:115-118 | of the seven days from a Monday a schedule may choose a poll on every one, and on exactly the first five when only weekdays count |
| PollScheduler.RestartMayRepeat | connectors/powerschool/connector.go:241-256 | for any windows: some restart in a window of the last poll polls it again if and only if there is no stamp or an eligible window opens between the stamp and the end of such a window |
| PollScheduler.SavedIsSafe | connectors/powerschool/connector.go:241-256 | the exact stamp of every poll keeps restarts from repeating its windows if and only if no window opens inside another |
| PollScheduler.Connector.PollNow | connectors/powerschool/connector.go:343-361 | the time is recorded before the poll, and the next one waits exactly for the window's end, or longer when it already did |
| PollScheduler.Connector.CatchUp | connectors/powerschool/connector.go:241-256 | after a restart a poll is owed if and only if an eligible window opened since the remembered one |
| PollScheduler.Connector.Poll | connectors/powerschool/connector.go:241-256 | polls once in a process, exactly when owed or never polled |
| PollScheduler.Connector.WatchOnce | connectors/powerschool/connector.go:262-299 | one more poll, at a time the schedule may choose from where it started waiting; with sorted and disjoint windows in the first eligible one that opens from there |
| PollScheduler.Connector.DeferUntil | connectors/powerschool/connector.go:302-308 | the earliest next poll moves to the later of the two times |
| PollScheduler.Connector.Restart | connectors/powerschool/connector.go:241-256 | a new process knows what was stored, and its stamp is enough or not by the exact condition |
| PollScheduler.Life | connectors/powerschool/connector.go:241-308 | across any passing of time, failed saves, restarts of the watch and of the process, with clean windows: at most one poll starts inside each window of each day, as long as every process starts with a stamp that is enough; an exact one always is |
| PollScheduler.UnsavedPollIsRepeated | connectors/powerschool/connector.go:343-361 | a run: a poll whose time could not be stored is repeated in its window by a restart |
| PollScheduler.InnerWindowIsRepeated | connectors/powerschool/connector.go:241-256 | a run: when one window opens inside another a restart polls the outer one twice, although the time was stored |
| PollScheduler.LongerWindowIsRepeated | connectors/powerschool/scheduler.go:24-84 | a run: a window that outlasts the first with its start, and the time in it at which the schedule may poll it again |
| PollScheduler.OverlapPollsTwice | connectors/powerschool/scheduler.go:24-113 | of a list of any length: two polls can start in one window although every time was stored, by a restart or by the schedule, if and only if the list is not clean |
| PollScheduler.TwoWindows | connectors/powerschool/config.go:417-437 | two windows are not clean if and only if they overlap and, when they start together, the one listed first ends first |
| PollScheduler.OrderedIsClean | connectors/powerschool/config.go:417-437 | sorted and disjoint windows are clean |
| DayTallies.TallyDays | connectors/powerschool/records_attendance_day.go:31-84 | the dates of the page, each with the tally of its cells |
| DayTallies.CountsFit | connectors/powerschool/records_attendance_day.go:31-84 | unmarked and coded cells never exceed the periods met |
| DayTallies.CountsMean | connectors/powerschool/records_attendance_day.go:64-80 | each count is the number of the date's cells of its kinds, and the two flags say that there is one |
| DayTallies.OrderDoesNotMatter | connectors/powerschool/records_attendance_day.go:31-84 | the tallies depend only on the multiset of cells |
| DayTallies.FullDayMeans | connectors/powerschool/records_attendance_day.go:326-342 | full_day if and only if there is an absence and every marked period is one; partial_day if and only if another marked period is not; late_or_left_early if and only if there is no absence and a cell of those kinds |
| AttendanceCarry.CountAfter | connectors/powerschool/records_attendance_day.go:193-205 | exactly the school days of the page after a date |
| AttendanceCarry.SettledRun | connectors/powerschool/records_attendance_day.go:206-220 | the longest run of settled dates from a year's first |
| AttendanceCarry.BuildYear | connectors/powerschool/records_attendance_day.go:213-244 | the complete snapshot covers exactly the settled run, and the coded days after it up to today are carried |
| AttendanceCarry.BuildGrid | connectors/powerschool/records_attendance.go:43-72 | every date of the page is in the part of exactly its own school year |
| AttendanceCarry.GridDayGoesOneWay | connectors/powerschool/records_attendance_day.go:211-244 | every coded day up to today is in a complete snapshot or carried, never both |
| AttendanceCarry.SentIsSettled | connectors/powerschool/records_attendance_day.go:206-234 | a day in a complete snapshot is over and settled |
| CarryPolls.CarryOn | connectors/powerschool/records_attendance_day.go:246-270 | the carried days sent, kept with their new counts, and expired are those of the specification, which `CarriedDayIsSent` and `ExpiredIsCounted` tell of the page alone |
| CarryPolls.BuildSingleDays | connectors/powerschool/records_attendance_day.go:271-284 | each sent day in the incomplete snapshot of its own year, in order, and no other |
| CarryPolls.BuildAttendanceDaysCarry | connectors/powerschool/records_attendance_day.go:180-287 | a poll's output is that of its page and its carry; what is sent is exactly what was built and is within the size limits, in that order |
| CarryPolls.PageDayGoesOneWay | connectors/powerschool/records_attendance_day.go:180-287 | a coded page day up to today is in a complete snapshot or carried, never both, whatever was carried before |
| CarryPolls.CarriedDayGoesOneWay | connectors/powerschool/records_attendance_day.go:246-286 | a parsable carried day that the page no longer shows is sent singly, carried on or counted expired, exactly one |
| CarryPolls.CarriedDayIsSent | connectors/powerschool/records_attendance_day.go:246-270 | told of the page alone: the count of a carried day grows by exactly the page's school days after it and after the last date counted; it is dropped after max days, sent when over with no unmarked cell or the count reached, and otherwise kept with that count |
| CarryPolls.ExpiredIsCounted | connectors/powerschool/records_attendance_day.go:255-261 | as many are counted expired as carried days off the page are older than max days |
| CarryPolls.CarriedOnce | connectors/powerschool/records_attendance_day.go:180-287 | no date is carried twice and the carry is in order |
| CarryPolls.PollKeepsCounts | connectors/powerschool/records_attendance_day.go:114-144 | no school day is counted twice toward a carried day, over any sequence of polls |
| CarryPolls.PollIsExact | connectors/powerschool/records_attendance_day.go:114-144 | over any sequence of polls a carried day's count is exactly the number of school days newly shown after it since the page last showed the day |
| CarryPolls.SentAfterSettling | connectors/powerschool/records_attendance_day.go:180-287 | a day with unmarked cells is sent only after at least the settling number of distinct later school days |
| CarryPolls.SentInTime | connectors/powerschool/records_attendance_day.go:180-287 | a carried day off the page and not expired is sent by a poll if and only if it is over and has no unmarked cell or the settling number of later school days has been shown since it was carried, and otherwise it is carried on |
| CarryPolls.Carrier.Poll | connectors/powerschool/records_attendance_day.go:180-287 | every poll of any sequence keeps both bounds of the counts, and sends a carried day exactly when it is settled by what all polls were shown |
| Utf8.CutUTF8 | connectors/powerschool/text.go:66-75 | keeps as many whole characters as fit in the bytes, no fewer |
| PortalText.ScrubIsPlain | connectors/powerschool/text.go:50-63 | leaves no line break but "\n", no control and no format character, and plain text as it is |
| PortalText.ScrubIsCharByChar | connectors/powerschool/text.go:50-63 | of text without carriage returns and dropped characters every line break becomes "\n", every tab a space, and every other character stays |
| PortalText.FieldsOfJoin | connectors/powerschool/text.go:81-84 | joined words split into the same words |
| PortalText.OneLineIsOneLine | connectors/powerschool/text.go:81-84 | always one plain line of at most 256 bytes |
| PortalText.OneLineIsIdempotent | connectors/powerschool/text.go:81-84 | a second application changes nothing |
| TextBlocks.CleanText | connectors/powerschool/text.go:91-107 | the loop computes the specified text |
| TextBlocks.CleanIsClean | connectors/powerschool/text.go:91-107 | clean lines, no blank one at either end and no two in a row |
| TextBlocks.CleanIsIdempotent | connectors/powerschool/text.go:91-107 | a second application changes nothing |
| TextBlocks.BoundIsClean | connectors/powerschool/text.go:111-117 | clean lines of at most 4096 bytes, cut between characters |
| TextBlocks.BoundIsIdempotent | connectors/powerschool/text.go:111-117 | a second application changes nothing and cuts nothing |
| AssignmentBody.WriteTextBlock | connectors/powerschool/text.go:122-138 | appends the heading, the indented lines and the marker, or nothing |
| AssignmentBody.BuildAssignmentBody | connectors/powerschool/assignments.go:584-623 | the builder ends with the specified lines |
| AssignmentBody.UntrustedTextStartsNoLine | connectors/powerschool/assignments.go:584-623 | whatever the portal's text, the non-empty column-one lines are exactly the connector's own, in order |
| AssignmentBody.OwnLinesAreNamed | connectors/powerschool/assignments.go:584-623 | each of those is a known label with a one-line value, a known heading or the truncation marker |
| AssignmentBody.FactsMean | connectors/powerschool/assignments.go:584-620 | which field of the assignment stands under each label |
| AssignmentBody.FlagsInOrder | connectors/powerschool/assignments.go:598-604 | every flag is given, in order, with a comma and a space between two |
| AssignmentBody.FactsStandUnderTheirLabels | connectors/powerschool/assignments.go:584-620 | a line of the connector's own with a label and a value is there if and only if that fact is known and comes to that line |
| AssignmentBody.BlocksInOrder | connectors/powerschool/assignments.go:619-622 | each block of text stands under its own heading, after the facts, in order |
| AssignmentBody.BodyIsPlain | connectors/powerschool/text.go:33-63 | a body has no other kind of line break |
| AssignmentBody.BoundedTextIsPlain | connectors/powerschool/text.go:111-117 | what is laid out as a block is plain text |
| SpoolNames.ParseInvertsName | connector/records/spool.go:111-113 | parseName gives back the time and id that fileName printed |
| SpoolNames.NameInvertsParse | connector/records/spool.go:181-194 | a name that parses is the one fileName prints if and only if it has a point before the milliseconds |
| SpoolNames.CanonicalText | connector/records/spool.go:181-194 | an id in a file name has four dashes in their places and lower-case hexadecimal digits in all others |
| SpoolNames.NamesAreInOrder | connector/records/spool.go:367-374 | byte order of names is order by observed_at and then id |
| SpoolNames.EarlierIsBefore | connector/records/spool.go:111-113 | the field-by-field order of calendar times is the order of instants, leap years included |
| SpoolNames.DaysOfYears | connector/records/spool.go:111-113 | the days before a year: 365 for each and one for every fourth but three centuries of four |
| SpoolNames.YearsPutTakes | connector/records/spool.go:119-123 | of the times there are, Put takes exactly those of the years 1 to 9999 |
| Fingerprints.GradeFingerprint | connectors/powerschool/grades.go:39-47 | the loop prints every term in the fixed order |
| Fingerprints.ParseGradeFingerprint | connectors/powerschool/grades.go:49-58 | the loop reads what the specification reads, the last entry of a key winning |
| Fingerprints.GradesReadBack | connectors/powerschool/grades.go:39-58 | reading a printed fingerprint gives every term back with "&#124;" turned into "/" |
| Fingerprints.ParseAttendanceFingerprint | connectors/powerschool/attendance.go:24-46 | the loop reads both counts, malformed ones as zero |
| Fingerprints.CountsReadBack | connectors/powerschool/attendance.go:18-46 | reading a printed fingerprint gives both counts back |
| Fingerprints.ChangedParts | connectors/powerschool/assignments.go:266-285 | two per-part fingerprints: a change is named after each part whose hashes differ, and none if and only if they are equal; without the prefix or a part, exactly the whole record, if the legacy fingerprint differs, and the comment, if there is one |
| Fingerprints.ChangesAreNamed | connectors/powerschool/assignments.go:266-285 | of two different per-part fingerprints exactly the differing parts are named, each by its own name, and never none |

## Left out

- JSON encoding and decoding, hashes and UUID generation: snapshots, records and fingerprints of sessions are values that decode back.
- Real I/O: files, HTTP, Vault, Kubernetes, the browser and the portal's page parsers are steps with arbitrary answers.
- Metrics, log lines, health reporting and the wiring in `main` packages.
- Time zones and daylight saving: schedules use a day index and seconds of day, the login job's daily count a day of UTC.
- A process killed without a power loss in mid-move: the spool's restart always starts from what was durable.
- Names of spool files other than canonical, temporary and all others: which text is which is the business of `SpoolNames`, and loose ids stand for themselves.
- RecordSpool.Spool.MoveToRejectedLocked: a file whose move was left not durable stays in the ghost set of files at risk even when a later fsync of rejected/ succeeds, so that the account promises less than `Durability.LostByTheOrderOfSyncs` says of one move.
- An operator clearing the latch by hand; the login broker appears as one more run of the protocol.
- SessionGate.Gate.WaitForNewSession: the clock may do anything, so that the number of rounds is a parameter, and running out of them ends the wait like an interruption.
- SendBackoff.Backoff: the product of the delay and the jitter factor is one of real numbers; the rounding of the source's 64-bit floating-point product is not modelled.
- SessionGate: an earlier broker session reaching the file late is not guarded against by the code and nothing is claimed about it.
- The journal's size limits are a parameter of `CarryPolls.BuildAttendanceDaysCarry`; a built snapshot beyond them is not sent, and its days are not carried either.
- Dates "through" of carried days are taken to be well formed; dates themselves may fail to parse.
- PortalText: text starts as valid characters, without the replacement of invalid UTF-8.
- The legacy single-hash fingerprint is a parameter of `Fingerprints.ChangedParts`, not recomputed.
- Attendance marks, due dates, lookback, tags and titles of assignments other than the laid-out body.
- The per-service connectors and the importer, which would only add easy members.
