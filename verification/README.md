# Ordering, durability and queueing in the Nextcloud FUSE daemon

This project models the parts of the daemon whose correctness depends on order, on what
survives a crash, or on what is still queued, and proves what they promise. Threads are
modelled as atomic steps, one for each hold of a lock; time, etags, file bytes and server
answers are values or oracles; paths are sequences of names.

- **The request scheduler** (`KeyOrder`, `FuseScheduler`, `SchedulerRuns`). Requests name
  several keys, shared or exclusive. The class keeps a queue for each key and wakes tasks by
  the program's shortcut; it is proved to do what a full rescan of the live tasks would do.
  Over whole runs this gives order, exclusion, no lost wake-up and progress.
- **Its worker pool** (`WorkerPool`, `FusePool`): the bounded pool with optional lingering,
  and the two together: a runnable task is never refused, nothing deadlocks, all work ends.
- **Mutation tickets** (`MutationTickets`): per-path tickets whose jobs block inside a bounded
  FIFO pool. Freedom from deadlock needs both, and is proved of the two together.
- **Folder renames** (`FuseDispatch`): the keys a request gets under a rename in flight, and
  the keys the rename itself gets, order the rename with everything below it.
- **The restart log** (`RestartLog`, `RestartWriter`, `RestartDaemon`, `RestartImage`,
  `RestartRuns`, `RestartNumbers`, `RestartFailures`, `RestartTorn`): records, replay, deferred writes, block
  reservation of node ids, compaction while records keep arriving, crashes anywhere (also in the
  middle of a hook or of a line), restores, and a disk that refuses writes, removals and opens.
- **The offline journal** (`Journal`, `JournalClaims`, `JournalServer`, `JournalRetarget`,
  `JournalSaves`, `JournalReplay`): the queue of server changes and its operations, the claim
  and settle protocol, a WebDAV server to replay against (section 13.1.1 of RFC 9110; sections
  9.6 and 9.9 of RFC 4918), and replay against arbitrary answers.
- **Finishing a streamed upload** (`ChunkedFinish`).
- **Smaller state machines**: the broadcast change log (`ChangeRing`), the kernel's per-inode
  I/O mode (`IoMode`), shared name lookups (`HostLookup`).

Code that updates state in place is a class whose methods are proved against functions or
relations on values; the theorems about runs are about those.

`Options` holds the one shared datatype.

Three promises turn out not to hold everywhere.

- **Node ids are not reused** by a restored daemon **if and only if** no reservation was made
  while the log could not take it (`RestartRuns.NodeIdsAreNeverReused`,
  `RestartRuns.ReusedIffReservationLost`). There are five ways to such a log, each with runs that
  hand one id out twice (`RestartFailures`): a fresh mount can neither write its log whole nor remove
  it; a write is refused and then the removal of the file too; a compaction moves its file into place
  and cannot open it; a restored daemon cannot open the log to go on with it; a crash cut the last
  line short, and the next record is appended to that line. A crash loses nothing but queued ids while
  the log follows (`RestartRuns.CrashLosesOnlyQueuedIds`); once it does not, a crash brings back the
  state of when it stopped, or what the last restore brought back
  (`RestartRuns.StaleCrashBringsBackThen`, `RestartRuns.ResumedCrashBringsBack`).
- **Re-pointing a queued upload** instead of queueing a MOVE leaves the same tree **if and only if**
  the upload was out of attempts; or the old name's folder is on the server, no queued delete takes
  it away, and the upload lands under its new name at its turn; or the folder is not there to stay,
  and the upload changes nothing at its turn (`JournalRetarget.RetargetRefinesMove`). The journal asks
  neither whether the folder is still there (`JournalRetarget.FolderGoneIsNotSeen`) nor whether a
  delete above the file is queued (`JournalRetarget.DeleteAboveIsNotSeen`). A file's delete queued
  while offline becomes one when somebody else puts a folder in its place: the guard that hides the
  deleted name is lifted at once then (`ncrs_core/src/lib.rs:9197-9201`), so the folder is listed and
  files are made in it. All this is about a file the server has never seen, which is what the caller
  goes by (`ncrs_core/src/lib.rs:9404-9425`); if it has one of that name after all, the trees always
  differ (`JournalRetarget.SeenFileDiffers`).
- **Our own saves never conflict with each other** (`JournalSaves.OwnSavesNeverConflict`), through
  every journal operation, in runs where two guards hold at a MOVE.
  - When the file is moved away, no change of it is in a worker's hands or re-pointed by name. That is
    exactly when nothing queued says afterwards what a save of the name is based on
    (`JournalSaves.BaseAfterLeaving`) and when the invariant behind the theorem is kept
    (`JournalSaves.LeaveKeepsInvIff`); `JournalSaves.HeldWhileMoved` shows a conflict otherwise.
  - When another file is moved onto it, what is re-pointed there had no condition or one on this
    file's version, and fits in where it stands: no condition behind a change that clears it. The
    first is exactly when all that is queued for the file is on the server's version
    (`JournalSaves.BaseAfterMoveOnto`), the two together exactly when the invariant is kept
    (`JournalSaves.MoveOntoKeepsInvIff`). Conflicts otherwise: `JournalSaves.RepointedOnto`,
    `JournalSaves.RepointedAhead` and `JournalSaves.DeleteRepointed`.

## Model

| member | source | states |
|---|---|---|
| `KeyOrder.Merge` | ncrs_core/src/fuse_sched.rs:104-114 | duplicate keys are merged: every key once, in its strongest mode |
| `KeyOrder.ConflictMeans` | ncrs_core/src/fuse_sched.rs:251-259 | two requests conflict exactly when they share a key that one of them takes exclusively: sharing alone is no conflict |
| `KeyOrder.MergeKeepsConflicts` | ncrs_core/src/fuse_sched.rs:104-114 | merging neither loses nor adds a conflict between two requests |
| `KeyOrder.ReadyIffUnblocked` | ncrs_core/src/fuse_sched.rs:251-259 | the readiness test over the queues holds exactly when no earlier live task conflicts |
| `KeyOrder.EnqueueIndexes` | ncrs_core/src/fuse_sched.rs:134-139 | joining a queue keeps the queues an exact index of the live claims |
| `KeyOrder.DequeueIndexes` | ncrs_core/src/fuse_sched.rs:168-176 | leaving one queue leaves the exact index of the remaining claims |
| `FuseScheduler.ShortcutIsComplete` | ncrs_core/src/fuse_sched.rs:164-206 | no lost wake-up: every task that leaving a queue lets run is among the shortcut's candidates, though the finished task still sits in later queues |
| `FuseScheduler.ShortcutSettles` | ncrs_core/src/fuse_sched.rs:164-206 | after testing the candidates, started are again exactly the tasks nothing earlier conflicts with |
| `FuseScheduler.CompleteSettles` | ncrs_core/src/fuse_sched.rs:164-206 | once all keys are left, the result is that of a full rescan |
| `FuseScheduler.Scheduler.Submit` | ncrs_core/src/fuse_sched.rs:103-146 | a submission that finds room adds the request with its merged keys, and it starts exactly if no key it shares with a live one is taken exclusively by either; otherwise nothing changes |
| `FuseScheduler.StartedMeans` | ncrs_core/src/fuse_sched.rs:251-259 | between calls a task has started exactly if no key it shares with an earlier live one is taken exclusively by either |
| `FuseScheduler.Scheduler.Complete` | ncrs_core/src/fuse_sched.rs:164-206 | completing a task removes it and starts exactly what a full rescan would, returning each such task once |
| `FuseScheduler.Scheduler.StartReady` | ncrs_core/src/fuse_sched.rs:193-199 | of the candidates, exactly the ready unstarted ones are started |
| `FuseScheduler.Scheduler.BusyKeys` | ncrs_core/src/fuse_sched.rs:234-237 | the busy keys are exactly those some live task claims |
| `SchedulerRuns.RunKeepsInv` | ncrs_core/src/fuse_sched.rs:78-206 | every reachable state agrees with its history, and every start in it came after the end of all conflicting earlier requests |
| `SchedulerRuns.ConflictingRequestsRunInOrder` | ncrs_core/src/fuse_sched.rs:103-206 | for any two requests that share a key one of them takes exclusively, the earlier one finished before the later one started, in every run |
| `SchedulerRuns.NoLiveConflict` | ncrs_core/src/fuse_sched.rs:251-259 | exclusion: a running task conflicts with no earlier live one |
| `SchedulerRuns.NothingReadyWaits` | ncrs_core/src/fuse_sched.rs:164-206 | between calls a live task has started if and only if every key it named together with an earlier live one was named shared by both |
| `SchedulerRuns.OldestRuns` | ncrs_core/src/fuse_sched.rs:17-25 | the live task with the smallest id is always started |
| `SchedulerRuns.CompletionsDrain` | ncrs_core/src/fuse_sched.rs:17-25 | if started tasks finish, all tasks finish |
| `WorkerPool.SubmitKeepsInv` | ncrs_core/src/bg.rs:116-145 | a submission keeps: jobs wait only while all workers are busy (or a lingering one is about to take them); refused exactly when workers and queue are full, a worker started exactly when none is free and one may be, queued at the back otherwise |
| `WorkerPool.TurnKeepsInv` | ncrs_core/src/bg.rs:189-227 | a worker's turn keeps it too, taking the oldest queued job; with none it lingers if the pool does, and exits otherwise or after lingering |
| `WorkerPool.WorkerPool.Submit` | ncrs_core/src/bg.rs:116-145 | the pool's state after a submission; every job submitted is queued, in hand, done or refused |
| `WorkerPool.WorkerPool.JobReturned` | ncrs_core/src/bg.rs:189-227 | a worker whose job returned takes the next, lingers or exits |
| `WorkerPool.WorkerPool.LingerOver` | ncrs_core/src/bg.rs:210-225 | a lingering worker that wakes takes a job or exits |
| `FusePool.NeverRefused` | ncrs_core/src/fuse_sched.rs:150-161 | with a queue as long as the live tasks allowed, handing a runnable task to the pool is not refused |
| `FusePool.RunnableTasksAreNeverRefused` | ncrs_core/src/bg.rs:254-263 | in every reachable state of scheduler and pool nothing has been refused, and nothing handed over next will be |
| `FusePool.NoDeadlock` | ncrs_core/src/fuse_sched.rs:17-25 | while a task is live some thread has a step, and the lemma gives it |
| `FusePool.WorkDecreases` | ncrs_core/src/fuse_sched.rs:150-206 | every step that is not a new request leaves less to do |
| `FusePool.AllWorkEnds` | ncrs_core/src/fuse_sched.rs:17-25 | all work ends: without new requests there are at most as many steps as there is left to do, and when none is possible no task is live |
| `MutationTickets.PathSeq.TakeTicket` | ncrs_core/src/path_seq.rs:40-58 | a ticket joins the queue of each of its paths behind all earlier ones |
| `MutationTickets.PathSeq.IsReady` | ncrs_core/src/path_seq.rs:63-71 | a ticket is ready exactly when every path it holds together with an earlier live one is held shared by both |
| `MutationTickets.PathSeq.Drop` | ncrs_core/src/path_seq.rs:91-105 | dropping a ticket takes it out of its queues and leaves the others as they were |
| `MutationTickets.RunKeepsInv` | ncrs_core/src/lib.rs:2605-2621 | in every reachable state running tickets are older than queued ones, and those than the one in hand |
| `MutationTickets.OldestTicketRuns` | ncrs_core/src/path_seq.rs:40-105 | the oldest live ticket is ready, and its job is running or next to be taken |
| `MutationTickets.NoDeadlock` | ncrs_core/src/bg.rs:309-314 | while a ticket is live some step is possible, though workers block in their jobs; the lemma gives the step |
| `MutationTickets.WorkDecreases` | ncrs_core/src/bg.rs:189-227 | each such step leaves less to do |
| `MutationTickets.AllTicketsEnd` | ncrs_core/src/bg.rs:309-314 | all mutations end: without new tickets the steps are bounded, and when none is possible no ticket is live |
| `FuseDispatch.OrderUnderMoves` | ncrs_core/src/fuse_dispatch.rs:125-142 | a request gets, shared, the renamed inode of each rename in flight whose source or destination is the path of one of its inodes or a folder above it, and nothing else |
| `FuseDispatch.RenameKeys` | ncrs_core/src/fuse_dispatch.rs:337-382 | a rename takes its folders, the inodes at its source and destination and every busy inode at or below the source exclusively, and nothing else; it registers itself exactly if source and destination have a path and the source an inode |
| `FuseDispatch.RegisteredRenamesHaveTasks` | ncrs_core/src/fuse_dispatch.rs:347-382 | when a request is dispatched every registered rename already has its task |
| `FuseDispatch.SubtreeIsOrderedWithRenames` | ncrs_core/src/fuse_dispatch.rs:20-24 | whatever a request had to follow when it was dispatched has finished before it starts |
| `FuseDispatch.RequestWaitsForRename` | ncrs_core/src/fuse_dispatch.rs:125-142 | over runs: a request on an inode below the source or destination of a rename registered when its keys are put together starts only after that rename has finished |
| `FuseDispatch.RenameWaitsForSubtree` | ncrs_core/src/fuse_dispatch.rs:346-382 | over runs: a rename of a known inode starts only after every task live when its keys are put together, on an inode at or below the source, has finished |
| `RestartLog.Replayer.Set` | ncrs_core/src/state_snapshot.rs:811-824 | an id takes a path, whoever held it no longer resolves, and the two tables stay exact inverses |
| `RestartLog.Replayer.Replay` | ncrs_core/src/state_snapshot.rs:826-893 | a record's meaning, with the tables still inverse; refuses a log not for this connection |
| `RestartLog.IdsMean` | ncrs_core/src/state_snapshot.rs:844-858 | a logged or moved id takes its path, whoever had the path has none, a dropped id has none, nothing else changes the table |
| `RestartLog.HandlesMean` | ncrs_core/src/state_snapshot.rs:868-886 | a handle is there from opening to release; deletion and renaming of its file change just that |
| `RestartLog.SessionsMean` | ncrs_core/src/state_snapshot.rs:887-890 | a session is what its staging file was last started with |
| `RestartLog.CountersMean` | ncrs_core/src/state_snapshot.rs:844-890 | the counters are the highest seen |
| `RestartLog.SequenceCovers` | ncrs_core/src/state_snapshot.rs:844-890 | no record, handle or session has a later sequence number than the restored highest |
| `RestartDaemon.FoldInjective` | ncrs_core/src/state_snapshot.rs:811-858 | replayed tables never alias: no two ids name one path |
| `RestartDaemon.DisplacedStaysGone` | ncrs_core/src/state_snapshot.rs:811-858 | an id displaced by a rename or by another id taking its path stays unresolvable until logged again |
| `RestartWriter.ReservationAfter` | ncrs_core/src/state_snapshot.rs:378-380 | the reservation is above the id, a block boundary, and at most a block away |
| `RestartWriter.FlushKeepsLog` | ncrs_core/src/state_snapshot.rs:256-274 | flushing a live log gets all that is recorded to disk; a refused write leaves nothing, or (if the removal is refused too) what was there and some of the buffer; a log that no longer follows keeps at most what it had |
| `RestartWriter.AppendExtendsLog` | ncrs_core/src/state_snapshot.rs:242-254 | a record is added once to what is recorded and to what a compaction under way will have; written through to a live log it is on disk with all before it; exactly when a reservation is lost |
| `RestartWriter.InodeWrites` | ncrs_core/src/state_snapshot.rs:362-380 | what an allocation records: first, past what is reserved, the block up to the next multiple of 4096 above the id, then the id, each on a sequence number of its own |
| `RestartWriter.ReleaseWrites` | ncrs_core/src/state_snapshot.rs:419-431 | a release of an open handle is written through on a sequence number of its own and takes the handle and the session of its staging file; of another, it does nothing |
| `RestartWriter.TickWrites` | ncrs_core/src/state_snapshot.rs:624-641 | a tick writes what is queued and, if it moved, the handle counter, and nothing else |
| `RestartWriter.LogWriter.InodeAllocated` | ncrs_core/src/state_snapshot.rs:362-375 | what the log says stays what the writer keeps, and what counts as reserved stays covered by the file; on a live log the id is below the first free id of the file itself, so a restart does not hand it out again |
| `RestartWriter.LogWriter.InodeMoved` | ncrs_core/src/state_snapshot.rs:382-388 | on a live log nothing is left queued, and the id table of the file is the recorded one with the move done |
| `RestartWriter.LogWriter.HandleOpened` | ncrs_core/src/state_snapshot.rs:392-414 | on a live log nothing is left queued, and the file has the handle under the sequence number the writer keeps |
| `RestartWriter.LogWriter.HandleReleased` | ncrs_core/src/state_snapshot.rs:419-431 | on a live log nothing is left queued, and a restart from the file does not have the handle and goes on only with sessions of handles still open |
| `RestartWriter.LogWriter.HandleUnlinked` | ncrs_core/src/state_snapshot.rs:434-442 | on a live log nothing is left queued, and in the file the open handle is one of a deleted file |
| `RestartWriter.LogWriter.HandleRetargeted` | ncrs_core/src/state_snapshot.rs:445-453 | on a live log nothing is left queued, and in the file the open handle has the new path |
| `RestartWriter.LogWriter.StreamStarted` | ncrs_core/src/state_snapshot.rs:457-463 | on a live log the session is in the file when the hook returns, so before any chunk is sent |
| `RestartWriter.LogWriter.Tick` | ncrs_core/src/state_snapshot.rs:624-641 | on a live log nothing is left queued, and the handle counter of the file is no lower than the live one |
| `RestartWriter.LogWriter.BeginCompaction` | ncrs_core/src/state_snapshot.rs:279-297 | the image taken is a compacted log of the live state; what is written from now on also goes to the tail |
| `RestartWriter.LogWriter.EndCompaction` | ncrs_core/src/state_snapshot.rs:665-697 | the image with the tail replaces the file, or the old file stays; or it replaces it and cannot be opened, and the writer goes on with the file that is gone; what the log says stays what the writer keeps |
| `RestartImage.ImageMirrors` | ncrs_core/src/state_snapshot.rs:324-345 | a compacted log replays to exactly the state it was taken from, reservation and handle watermark included |
| `RestartDaemon.HookKeepsInv` | ncrs_core/src/state_snapshot.rs:357-463 | every hook keeps: a live log replays to the live state, and so does the compaction under way; one that stopped following is still a log for this mount |
| `RestartRuns.BeginKeeps` | ncrs_core/src/state_snapshot.rs:650-663 | beginning a compaction keeps it |
| `RestartRuns.EndKeeps` | ncrs_core/src/state_snapshot.rs:664-697 | ending one keeps it, whether or not the new file could be written, moved into place and opened |
| `RestartRuns.ResumedInv` | ncrs_core/src/state_snapshot.rs:577-605 | the daemon that resumes from a log starts with it established, whether or not it can open the log to go on |
| `RestartRuns.RunKeepsInv` | ncrs_core/src/state_snapshot.rs:528-697 | it holds in every state of every run of hooks, compactions, crashes, restores and refused writes, removals and opens; and the file covers all ids handed out exactly as long as no reservation was lost |
| `RestartRuns.CompactionPreservesMeaning` | ncrs_core/src/state_snapshot.rs:650-697 | at every point of a compaction of a live log the old file and image-plus-tail load to the same ids, handles (with sequence numbers) and live sessions, and to a first free id at least as high |
| `RestartRuns.NodeIdsAreNeverReused` | ncrs_core/src/state_snapshot.rs:1180-1195 | whatever happened since an id was handed out, the next id of whichever daemon runs is above it, unless one was restored from a log that had lost a reservation |
| `RestartRuns.ReusedIffReservationLost` | ncrs_core/src/state_snapshot.rs:577-605 | a restored daemon starts at or below an id already handed out if and only if its log had lost a reservation |
| `RestartFailures.RefusedAndNotRemoved` | ncrs_core/src/state_snapshot.rs:260-267 | a refused write of a reservation whose file cannot be removed either: the next daemon hands the same id out |
| `RestartFailures.LeftUnfinished` | ncrs_core/src/state_snapshot.rs:548-555 | a fresh mount that can neither write its log whole nor remove it: likewise, or one even before it |
| `RestartFailures.MovedAndNotReopened` | ncrs_core/src/state_snapshot.rs:678-695 | a compaction whose file is moved into place and cannot be opened: likewise |
| `RestartFailures.RestoredAndNotReopened` | ncrs_core/src/state_snapshot.rs:577-586 | a restored daemon that cannot open the log to go on with it: likewise for the one after |
| `RestartFailures.CutShortAndResumed` | ncrs_core/src/state_snapshot.rs:577-605 | a log resumed after its last line was cut short: likewise |
| `RestartRuns.CrashLosesOnlyQueuedIds` | ncrs_core/src/state_snapshot.rs:242-254 | while the log is live a crash between hooks loses no handle and no session, and of the table only ids still queued; after a flush the restored state is the live one |
| `RestartNumbers.HandleNumbersAreNotReused` | ncrs_core/src/state_snapshot.rs:1175-1180 | with the log live from a tick to a crash, through compactions, and fewer handle numbers than the gap handed out in between, the restored daemon starts above all of them |
| `RestartRuns.StaleCrashBringsBackThen` | ncrs_core/src/state_snapshot.rs:256-274 | once the log has stopped following (or a compaction left a file it cannot open), a crash brings back the handles and sessions of just then and no id that was not in the table then, however much has happened since; or nothing, if the file was removed |
| `RestartRuns.ResumedCrashBringsBack` | ncrs_core/src/state_snapshot.rs:577-605 | a log that does not follow when a daemon is restored from it brings back exactly what that daemon was restored with; or that without its last record, if only the newline was missing; or nothing |
| `RestartTorn.LoadLines` | ncrs_core/src/state_snapshot.rs:929-951 | reading line by line gives the meaning of the records up to a cut-off last line, with inverse id tables, or refuses the log |
| `RestartTorn.FirstIdIsSafeIffLogEnded` | ncrs_core/src/state_snapshot.rs:577-605 | the id a resumed daemon hands out first is safe from reuse after its crash if and only if the log ended on a record boundary or was a single line |
| `RestartTorn.FlushedReadsBack` | ncrs_core/src/state_snapshot.rs:929-951 | appending to the lines of a file and reading it back gives what the model of the file says: all records, or without the one run into an unended line, or none |
| `RestartTorn.RefusedReadsBack` | ncrs_core/src/state_snapshot.rs:929-951 | so does a refused write that got some lines, or some of a line, into the file |
| `Journal.Ahead` | ncrs_core/src/mutation_journal.rs:489-491 | the first change ahead of an upload that touches its path |
| `Journal.TouchesMeans` | ncrs_core/src/mutation_journal.rs:215-224 | uploads and file deletes touch their path; making, removing and moving folders touches all below |
| `Journal.ReplacesMeans` | ncrs_core/src/mutation_journal.rs:227-237 | a later upload or delete of the file, a removal of a folder above and a move there replace an upload |
| `Journal.PendingBaseMeans` | ncrs_core/src/mutation_journal.rs:525-532 | a queued save is based on the condition of the newest queued upload of the file, or on none if something newer replaces the file |
| `Journal.Queue.Enqueue` | ncrs_core/src/mutation_journal.rs:341-375 | what the change coalesces away is gone, all else remains in order; under a rename what no worker holds moves with its folder, an unconditional upload that comes to be of the destination taking over the condition; the new entry is at the back |
| `Journal.Queue.Coalesce` | ncrs_core/src/mutation_journal.rs:766-800 | a folder's delete drops exactly the queued making of it; a file's, if no upload of it is conditional, exactly its uploads and its making; all others remain in order |
| `Journal.Queue.RetargetUpload` | ncrs_core/src/mutation_journal.rs:446-469 | done exactly when one unsettled unconditional whole-file upload of the old name is queued and no other upload or delete of it, nor a making, removal or move of it or a folder above; then it goes to the back under the new name |
| `Journal.Queue.SettleUpload` | ncrs_core/src/mutation_journal.rs:475-504 | withdrawn, sent where it was started for, sent to its new name, told to wait, or put off, and the queue after it: each exactly when |
| `Journal.Queue.HandStagingToRename` | ncrs_core/src/mutation_journal.rs:509-519 | the first queued MOVE of the file without a copy takes it |
| `Journal.Queue.Rebase` | ncrs_core/src/mutation_journal.rs:536-554 | exactly the changes of the path based on the sent version move on to the new one |
| `Journal.Queue.Claim` | ncrs_core/src/mutation_journal.rs:574-582 | succeeds exactly for an entry nobody has |
| `Journal.Queue.SupersedeUploads` | ncrs_core/src/mutation_journal.rs:586-605 | exactly the unclaimed older uploads of the path go |
| `Journal.Queue.MarkFailed` | ncrs_core/src/mutation_journal.rs:607-615 | the entry is nobody's again, has an error on record and one attempt more; no other entry changes |
| `Journal.Queue.MarkDeferred` | ncrs_core/src/mutation_journal.rs:621-628 | likewise, with its attempts as they were |
| `JournalClaims.EventKeeps` | ncrs_core/src/mutation_journal.rs:341-633 | every journal operation keeps entry numbers distinct, keeps a fixed upload fixed unless it hands it back, and never brings a removed entry back |
| `JournalClaims.EnabledMeans` | ncrs_core/src/mutation_journal.rs:446-582 | a claim needs an entry nobody has, settling one somebody has, re-pointing the one upload it is for; everything else may happen at any time |
| `JournalClaims.GoFixes` | ncrs_core/src/mutation_journal.rs:475-504 | a re-pointed upload is told to go only when no earlier queued change touches its path and no later one replaces it |
| `JournalClaims.SettledStaysSettled` | ncrs_core/src/mutation_journal.rs:446-504 | over any interleaving, from the answer until the upload is handed back or gone its path does not change and nobody else can claim it |
| `JournalServer.ExecClosed` | ncrs_core/src/mutation_journal.rs:1041-1180 | every executed entry leaves a tree a tree |
| `JournalServer.UploadDoes` | ncrs_core/src/mutation_journal.rs:1041-1107 | an upload puts its bytes at its name, or at the conflicted copy's if the version asked for is gone, if there is a folder for it; nothing else changes |
| `JournalServer.DeleteDoes` | ncrs_core/src/mutation_journal.rs:1123-1158 | a delete takes away what is at or below its path and nothing else |
| `JournalServer.MoveDoes` | ncrs_core/src/mutation_journal.rs:991-1025 | a move puts what is at or below its source at its destination, in the place of what was there, when the server can do it; nothing else changes |
| `JournalServer.LandedReaches` | ncrs_core/src/mutation_journal.rs:882-893 | what counts as landed has reached its own name |
| `JournalServer.ExecLeaves` | ncrs_core/src/mutation_journal.rs:215-237 | an entry that does not touch a path, delete above it or take its name as a copy leaves it as it was |
| `JournalRetarget.ExecIgnores` | ncrs_core/src/mutation_journal.rs:438-469 | such an entry does the same whether or not the file is on the server |
| `JournalRetarget.MoveOne` | ncrs_core/src/mutation_journal.rs:991-1025 | the final MOVE leaves what the upload to the new name would have, exactly when that lands |
| `JournalRetarget.RetargetRefinesMove` | ncrs_core/src/mutation_journal.rs:438-469 | for every queue the program re-points and any tree without the file, replaying the new queue gives the same tree as the old queue followed by the MOVE, for any base version, if and only if the upload was out of attempts, or the old folder is there to stay and it lands at its turn, or the folder is not and it changes nothing at its turn |
| `JournalRetarget.DeletedAround` | ncrs_core/src/mutation_journal.rs:438-469 | with such a delete the old queue leaves what the other changes do, and the new one that and the re-pointed upload |
| `JournalRetarget.RetargetIsSafe` | ncrs_core/src/mutation_journal.rs:438-469 | when the destination can take a file now and nothing queued has to do with it, the trees agree if and only if the old folder is there to stay, or the very same upload is at the destination already |
| `JournalRetarget.DeleteAboveIsNotSeen` | ncrs_core/src/mutation_journal.rs:215-224 | with a delete queued of what has become a folder above the file, the program re-points the upload and the two trees differ |
| `JournalRetarget.FolderGoneIsNotSeen` | ncrs_core/src/mutation_journal.rs:446-469 | so it does when somebody else has deleted the folder the file was made in |
| `JournalRetarget.SeenFileDiffers` | ncrs_core/src/mutation_journal.rs:438-445 | with somebody else's file under the old name the trees always differ |
| `JournalSaves.EventKeepsInv` | ncrs_core/src/mutation_journal.rs:341-633 | every journal operation and every entry's turn, in order or overtaking what does not matter to it, keep each queued upload of the file and MOVE onto it on the server's version, or unconditional |
| `JournalSaves.OwnSavesNeverConflict` | ncrs_core/src/mutation_journal.rs:882-893 | in every run, when an upload of the file or a MOVE onto it gets its turn its If-Match names the version the server has, and it goes to its own name |
| `JournalSaves.LeaveKeepsInvIff` | ncrs_core/src/mutation_journal.rs:341-375 | moving the file away keeps that invariant if and only if no change of it is held |
| `JournalSaves.MoveOntoKeepsInvIff` | ncrs_core/src/mutation_journal.rs:341-375 | moving another file onto it keeps the invariant if and only if what is re-pointed there brings no condition on another version and fits in |
| `JournalSaves.BaseAfterLeaving` | ncrs_core/src/mutation_journal.rs:525-532 | after the file was moved away nothing queued says what a save of the name is based on, if and only if no change of it was held |
| `JournalSaves.BaseAfterMoveOnto` | ncrs_core/src/mutation_journal.rs:350-358 | after a MOVE onto the file all that is queued for it is on the server's version, if and only if what was re-pointed there had no condition or already that one |
| `JournalSaves.StaleBehindClearing` | ncrs_core/src/mutation_journal.rs:536-554 | behind a delete, a move away or an unconditional save a condition is not moved on: it goes stale exactly when that change takes the version away |
| `JournalSaves.HeldWhileMoved` | ncrs_core/src/mutation_journal.rs:525-554 | a save based on an upload that was in a worker's hands while the file was moved away is sent on a version the server no longer has there |
| `JournalSaves.RepointedOnto` | ncrs_core/src/mutation_journal.rs:350-358 | an upload re-pointed by a MOVE onto another file keeps its condition, on a version that file does not have |
| `JournalSaves.RepointedAhead` | ncrs_core/src/mutation_journal.rs:350-358 | an unconditional streamed upload re-pointed ahead of a conditional save makes that save stale |
| `JournalSaves.DeleteRepointed` | ncrs_core/src/mutation_journal.rs:350-358 | a queued delete of the other name is re-pointed too, and deletes the file before the save conditional on it |
| `JournalReplay.Execute` | ncrs_core/src/mutation_journal.rs:1041-1232 | an upload that is not put back was accepted by the server under its name or as a conflicted copy, or is left to be recovered |
| `JournalReplay.PutOffOrTried` | ncrs_core/src/mutation_journal.rs:1041-1232 | an entry is put off exactly when its last request was answered Later, and counts as tried exactly when that was answered Refused or what the request has no use for |
| `JournalReplay.UploadEnds` | ncrs_core/src/mutation_journal.rs:1047-1107 | how many requests an upload makes, and when it lands or is a conflict with or without a copy on the server |
| `JournalReplay.DeleteEnds` | ncrs_core/src/mutation_journal.rs:1122-1152 | a delete is done if taken and idempotent if already gone |
| `JournalReplay.MoveEnds` | ncrs_core/src/mutation_journal.rs:991-1025 | which requests a move makes, with its local copy for a missing source, and when it is done or a conflict with or without a copy |
| `JournalReplay.Replay.Recover` | ncrs_core/src/mutation_journal.rs:702-735 | the staging file is moved under the file's name, or its spare name if that is taken |
| `JournalReplay.Replay.RunFront` | ncrs_core/src/mutation_journal.rs:882-950 | an executed entry leaves the queue, its staging file done with and what is behind it on the version it replaced moved on, or is put back with or without counting, with no upload lost |
| `JournalReplay.Replay.ReplayJournal` | ncrs_core/src/mutation_journal.rs:815-960 | replay ends against any answers, and every whole-file upload whose bytes were there is still queued, was accepted by the server (what later changes do to it there is not followed), or is recovered; nothing is lost if recovery moves work and spare names are free. It pauses only after an answer Later; with none but such answers no entry leaves by a request and none is counted as tried |
| `ChunkedFinish.AssemblePieces` | ncrs_core/src/mutation_journal.rs:1240-1267 | the pieces of a tail put together in index order are the tail, for every length and chunk size |
| `ChunkedFinish.Session.SendTail` | ncrs_core/src/mutation_journal.rs:1240-1267 | exactly some first pieces were sent, all of them on success; a file of the wrong length is refused before anything is sent; it succeeds exactly if the length is right and every request is answered well |
| `ChunkedFinish.AssembledFile` | ncrs_core/src/mutation_journal.rs:1365-1402 | head, what was sent before and tail make exactly the staged file |
| `ChunkedFinish.Session.SendFinish` | ncrs_core/src/mutation_journal.rs:1365-1402 | on success the session's chunks in index order are the file; after any partial failure the session is fit for another run with the same outcome; it succeeds exactly if every request it made was answered well, having made one for each piece, one for the head and the last |
| `ChangeRing.PagesAreTheSuffix` | ncrs_core/src/change_log.rs:151-172 | paging yields exactly the retained records from the cursor on |
| `ChangeRing.KeptMeans` | ncrs_core/src/change_log.rs:156-172 | what a read keeps is all that is wanted and nothing else, in order |
| `ChangeRing.FilesMean` | ncrs_core/src/change_log.rs:248-267 | what a client is given are all structural changes that were not skipped and nothing else, in order |
| `ChangeRing.StillServed` | ncrs_core/src/change_log.rs:109-132 | appending keeps what every client has been given and what it may still be |
| `ChangeRing.ServedMore` | ncrs_core/src/change_log.rs:248-267 | a read adds exactly the next structural changes, minus those overwritten |
| `ChangeRing.InTimeMissesNothing` | ncrs_core/src/change_log.rs:31-33 | a client that reads before the ring has turned over misses nothing |
| `ChangeRing.ChangeLog.Append` | ncrs_core/src/change_log.rs:109-132 | the ring is the end of the unbounded log; only capacity, or nobody reading, drops records |
| `ChangeRing.ChangeLog.ReadLocked` | ncrs_core/src/change_log.rs:156-172 | exactly the wanted records of a contiguous stretch from the cursor; RESYNC exactly when the cursor is before the ring |
| `ChangeRing.ChangeLog.ReadSince` | ncrs_core/src/change_log.rs:151-154 | a page is the next records themselves |
| `ChangeRing.ChangeLog.Attach` | ncrs_core/src/change_log.rs:196-203 | a client's first connection starts at the head, later ones share its cursor |
| `ChangeRing.ChangeLog.Detach` | ncrs_core/src/change_log.rs:206-214 | the cursor goes with the last connection |
| `ChangeRing.ChangeLog.StatusPaths` | ncrs_core/src/change_log.rs:217-245 | exactly the status paths passed, each once, and as many as allowed |
| `ChangeRing.ChangeLog.TakeStatus` | ncrs_core/src/change_log.rs:217-245 | as above, and only this client's status cursor moves |
| `ChangeRing.ChangeLog.TakeFileChanges` | ncrs_core/src/change_log.rs:248-267 | what a client is given adds up to the structural records since it attached, in order, without repeats, minus those pushed out by newer ones |
| `IoMode.HandlesOfAnInodeAgree` | ncrs_core/src/iomode.rs:1-3 | live handles of an inode that are not direct are all cached or all passthrough; those granted here share one backing and file; the count is theirs |
| `IoMode.FurtherOpens` | ncrs_core/src/iomode.rs:74-111 | while a handle granted passthrough here is live every further open of its inode gets the same backing, if it is of the same file, and direct I/O otherwise; while one is cached, cached |
| `IoMode.FirstOpen` | ncrs_core/src/iomode.rs:74-111 | with only direct handles live the first open is passthrough with the backing its registration gave, and cached if it is not eligible or that failed |
| `IoMode.GrantsShare` | ncrs_core/src/iomode.rs:1-3 | all passthrough grants of an inode whose handles are live have one backing and are of one file |
| `IoMode.OneMore` | ncrs_core/src/iomode.rs:74-111 | counting one more handle of the stored mode keeps agreement with the kernel |
| `IoMode.InodeIoModes.Acquire` | ncrs_core/src/iomode.rs:74-111 | how an open is answered, and that the handle is recorded with the backing and file it was granted, keeping agreement |
| `IoMode.InodeIoModes.Release` | ncrs_core/src/iomode.rs:119-132 | a release keeps agreement, dropping the mode with its last handle |
| `IoMode.InodeIoModes.Adopt` | ncrs_core/src/iomode.rs:138-151 | adopting a handle the kernel holds keeps agreement |
| `HostLookup.EndKeeps` | ncrs_core/src/http_clients.rs:522-544 | ending a lookup answers each waiting caller once and leaves nobody waiting there |
| `HostLookup.GoodAnswerServes` | ncrs_core/src/http_clients.rs:522-544 | a good answer is told to everybody, served without asking again for the fresh period, and may stand in for an hour |
| `HostLookup.FailureFallsBack` | ncrs_core/src/http_clients.rs:516-544 | a failure changes nothing about the last good answer, which stands in for it within the hour |
| `HostLookup.JoinKeeps` | ncrs_core/src/http_clients.rs:666-672 | a caller that joins waits only on a lookup under way |
| `HostLookup.Resolver.Complete` | ncrs_core/src/http_clients.rs:522-544 | everyone waiting is told the same verdict, with the previous good answer standing in for a failure |
| `HostLookup.Resolver.Resolve` | ncrs_core/src/http_clients.rs:650-677 | an answer less than an hour old is given at once; otherwise the caller waits; a lookup is started exactly when one is needed and none is under way, and nothing else changes |
| `HostLookup.Resolver.RefusedByPool` | ncrs_core/src/http_clients.rs:640-645 | a refused job answers its waiters at once, and no other host changes |
| `HostLookup.Resolver.Begin` | ncrs_core/src/http_clients.rs:611-630 | a job nobody needs any more ends there, answering as if refused; otherwise nothing changes |
| `HostLookup.Resolver.Finish` | ncrs_core/src/http_clients.rs:584-638 | a job that ends, with a result or by a panic, completes its lookup: a good result is kept, everyone waiting is told, no other host changes |
| `HostLookup.Resolver.ExpireFresh` | ncrs_core/src/http_clients.rs:601-607 | no answer is fresh any more and every one may still stand in; who waits is unchanged |

## Left out

- HTTP, TLS, XML, WebSocket, systemd and descriptor plumbing: the server is an oracle or a tree.
- The scheduler's `quiesce` pause and its counters: they depend on wall-clock time.
- Failed thread starts and panicking destructors in the pool: every worker starts.
- JSON: a log line is a record that parses whole or does not. That a cut-off line with another
  record run into it never parses is taken for granted.
- A refused write that stopped exactly before a newline: one that stopped after a line or inside it is
  modelled.
- A daemon without a log (its file could not be written, or opened) is one whose log has failed.
- The planned-restart snapshot of handle states, and rebuilding handles from it.
- The order in which a compacted log lists its parts: it is shown to replay to the live state in
  any order of the ids, handles and sessions.
- A rename of a folder moves its cached inodes one by one in the restart log; each move is a
  step of its own, and the root's id is not in the table.
- `Journal.Queue.Enqueue`: that re-pointing entries in place under a rename preserves meaning is
  not claimed, because the MOVE is still queued behind them.
- `JournalSaves.OwnSavesNeverConflict`: no folder above the file is made, removed or renamed in the
  runs, and an upload is sent with the condition its entry has when its turn comes.
- `JournalReplay.Replay.ReplayJournal`: replay is alone in changing the queue; bytes held by a
  queued MOVE and partial streamed tails are not promised to survive.
- `ChunkedFinish.Session.SendFinish`: an assembly that landed though its answer was lost, and
  telling it from another file by size and time, are not modelled.
- The server's refusals: a MOVE of something onto itself, below itself or onto a folder above it, and
  a delete of the root, are refused; locks and quotas are not modelled.
- Queued changes as files on disk, conflict records and their resolution.
- `pending_upload`, which finds the bytes of a queued upload for readers.
- `backoff.rs`, `walkers.rs`, `sd_watchdog.rs`, `app_locks.rs`, `filename_validation.rs`,
  `asset_url.rs`, `config.rs`, `compute_dir_diff` and the directory-status roll-ups: they would
  only add easy members.
