# The mirror engine, verified

A Dafny model of the device-side sync engine: a real folder that users keep editing, a durable
ledger and job queue, and a hub that only accepts conditional writes. The model follows
`src/mirror/`, `src/state.rs` and `src/writes.rs` branch by branch. `dafny verify dfyconfig.toml`
checks the whole project.

What is proved, in the order of its weight:

- **Runs of the sync engine** (`Replicas`, `SyncSteps`, `SyncInvariant`, `SyncSafety`,
  `SyncLandings`, `SyncRuns`, `SyncPromises`, `SyncReplies`, `SyncAgreement`, `SyncCapture`,
  `SyncSnapshots`, `SyncTurns`, `SyncArrivals`, `SyncWork`, `Engine`, `Cycle`). Every critical section is a step on one `Replica` record, and every network
  operation is split where the program drops its lock: begin, the hub's answer, land. A run
  interleaves these steps with saves through the mount, open handles, renames and removals, other
  programs in the folder, other devices on the hub, and restarts of the process, in any order. `Engine.Mirror` is the same
  machine as the program has it, a class whose methods update tables and sets step by step, and
  `Cycle.Device` is the sync thread's loop over those methods, with everybody else let in wherever
  no lock is held. It keeps a history of its steps and proves that the history is a run, so what is
  proved of runs holds of the loop. `SyncTurns` shows that the engine, left alone with a key, takes the
  turn of the convergence model in `Reconcile`, and `SyncArrivals` follows a save, a removal and a rename
  from the user to the hub; `SyncWork` says what every step leaves to be done.
- **The directory move as a recoverable transaction** (`Ledger`, `DirectoryMove`, `Tables`): the
  intent, `rename(2)`, and one commit that re-keys four tables and rewrites the queue, with a crash
  allowed between any two.
- **The scheduler** (`Jobs`, `Replay`, `JobEffects`, `Scheduler`): draining by priority gives the hub exactly
  what submission order gives, and what each job gives the hub is what the engine's request and the
  hub's answer give it.
- **The change feed** (`Feed`, `FeedSafety`, `FeedRuns`, `FeedLoops`): the reader of the hub's log
  as a step machine, with the exact steps in which it skips a change; `FeedLoops.Cursor` is the
  program's loops, whose every execution is a run of it.
- **The in-memory Home tree** (`HomeTree`, `HomeSnapshot`), **open handles** (`Handles`), **the path
  index of document trees** (`TreeIndex`), **recovery** (`Recovery`), **resumed downloads** (`Fetch`).
- **Small exact pieces**: path algebra (`Keys`), percent encoding (`Encoding`), the three-way table
  and convergence (`Reconcile`).

Modelling conventions. Bytes are identified with their digest, so digests do not collide; the empty
digest is the mark of a file not hashed yet. A transaction of the store is one step. A file version
carries an identity that no other version has (the program compares size, time and inode). Keys are
strings in `Keys`, `Encoding` and the engine; in the trees they are sequences of names, which
`Keys.SplitJoin` and `Keys.SegmentsJoin` relate to strings. The hub is a map with conditional put,
delete and rename (sections 13.1.1 and 13.1.2 of RFC 9110) and a numbered change log.

## Where the code does not do what it promises

For each of these a condition says when the promise is kept and when it is not, and a run or a
concrete input shows the latter.

1. `apply_remote_rename` asks whether the source is open for writing and not whether the destination
   is. Following a remote rename keeps every byte exactly unless it moves a file onto one that a handle
   has created and not flushed, and those bytes are nowhere else
   (`SyncLandings.ApplyRemoteRenameKeeps`, `SyncFindings.RemoteRenameTakesAFileBeingCreated`;
   `src/mirror/sync.rs:1828-1881`). The program could ask: such a name is in its set of open writes
   and has no row.
2. `reconcile_key` adopts a tombstone when the hub has dropped the key too, and makes a Clean row and
   a base of whatever digest the tombstone holds, be it one that never reached the hub. The invariant
   over runs survives a step exactly when no such digest is adopted (`SyncRuns.StepInv`); none is, when
   no decision is about a tombstone that differs from its base and from what was last sent
   (`SyncRuns.NoStrangerNoUnseen`). Afterwards an unhashed file under the name can be pulled over
   (`SyncFindings.TombstoneAdopted`, `SyncFindings.AdoptedTombstoneCostsTheNextFile`), and a folder can
   stay without a file that its ledger calls Clean (`Reconcile.FoldersConverge`,
   `Reconcile.GraveWithTheHubsVersion`; `src/mirror/sync.rs:2002-2016`).
3. A late upload reply can land on a name that another synced file has been moved to, and leaves a
   Clean row beside a base of other bytes. Clean rows agree with their bases after a step exactly when
   it is not such a landing, nor the rename of a clean row without a base onto a left-over base
   (`SyncAgreement.CleanAgreesWithBase`); `SyncFindings.LateReplyCanMeetAnotherFile` is the run, from a
   quiet mirror (`src/mirror/sync.rs:2526-2568`).
4. `note_local_gone` drops every job whose first key is the one that went, and a rename's first key is
   its source. A queued rename survives exactly when it does not start at that name; when it does, the
   renamed file is later taken for one the hub has deleted (`SyncFindings.QueuedRenameSurvives`,
   `SyncFindings.ForgottenRenameTrashesTheFile`; `src/mirror/sync.rs:667-697`,
   `src/mirror/store.rs:927-948`).
5. `run_conflict` checks the file's digest and reads its row without a lock in between. Whatever
   happens between the two, the pull that follows keeps every byte if the row still names the version
   that was checked, and loses the version it does name if those bytes are nowhere else
   (`SyncCapture.CheckThenRead`; `SyncFindings.CheckAndCaptureMustBeOneStep` is a save in between;
   `src/mirror/sync.rs:2812-2826`). In `SyncRuns` the two are one step.
6. The dedupe id of renames joins the two names with a bar. A job shares its id with other work exactly
   when it is a rename with a bar in one of its names, and `Jobs.SharedIds` names the other job
   (`src/mirror/store.rs:179-189`).
7. The cursor of the change feed passes changes that nobody looks at. A change becomes skipped in
   exactly six kinds of step (`FeedSafety.StepSkips`, over runs `FeedRuns.SkippedMeansLost`). For each
   there is a run from a quiet mirror:
   a rename raises the epoch between a request of `apply_change` and its answer
   (`FeedRuns.RenameOvertakesAnswer`; `src/mirror/sync.rs:1784-1823`);
   a page holds nothing but operations this version does not know, with more behind it
   (`FeedRuns.UnknownPageHidesChange`; `src/mirror/hub.rs:436-476`, `src/mirror/sync.rs:1752-1782`);
   a request of `recheck_deferred` fails, after the set was emptied and before it was worked through
   (`FeedRuns.FailureLosesRecheck`; `src/mirror/sync.rs:2195-2209`);
   a listing passes over a key because a job ran on its path, and the job was refused for good, so that
   no change follows (`FeedRuns.RefusedJobHidesKey`; `src/mirror/sync.rs:1735-1743`,
   `src/mirror/sync.rs:2359-2366`);
   a queued job of the key would still have looked, and its row is dropped or refused
   (`FeedRuns.DroppedJobHidesChange`; `src/mirror/sync.rs:671`, `src/mirror/sync.rs:2359-2366`);
   a directory move, seen without the lock as pending, is withdrawn, so that no listing follows
   (`FeedRuns.WithdrawnMoveHidesChange`; `src/mirror/sync.rs:929-937`, `src/mirror/sync.rs:957-962`).
   The next full listing makes good what had been skipped, but for keys it passes over itself
   (`FeedSafety.ListingHeals`).
8. A rename in the mount looks for a tree node and a handle at the destination, not for a pending
   create. Handles follow their files exactly when the destination is not one
   (`Handles.WriteStore.Rename`); `Handles.RenameOntoPendingCreate` renames a file onto one, after which
   two open files commit to one name. And `unlink` of a pending create leaves a handle without a file
   exactly when the folder refuses (`Handles.WriteStore.Unlink`, `Handles.NamelessHandle`;
   `src/writes.rs:756-848`, `src/writes.rs:1151-1336`).

## Model

| member | source | states |
|---|---|---|
| SyncRuns.EngineNeverDestroysUnsyncedWork | src/mirror/sync.rs:1886-2181 | In every run without an unseen adoption, restarts and expiry included, an engine step that replaces or removes a file leaves its bytes in the folder, in the trash, in the conflict store or equal to the agreed base, if and only if it does not follow a remote rename onto an open, unflushed file whose bytes are nowhere else |
| SyncRuns.StepInv | src/mirror/sync.rs:1886-2895 | Every step of the engine, the user, other programs, other devices and the network, and every restart, keeps the ledger invariant, if and only if it does not adopt a tombstone that names bytes the hub never had |
| SyncRuns.RunInv | src/mirror/sync.rs:1886-2843 | So every reachable state of every run without such an adoption satisfies the invariant |
| SyncRuns.FreshInv | src/mirror/sync.rs:297-420 | A mirror opened on a folder with an empty ledger satisfies the invariant |
| SyncRuns.AdoptionBreaks | src/mirror/sync.rs:2002-2016 | Adopting a tombstone with an unseen digest does break it, through any of the paths that reach the decision |
| SyncRuns.NoStrangerNoUnseen | src/mirror/sync.rs:2002-2016 | A run has no unseen adoption when none of its decisions is about a tombstone that differs from its base and from what was last sent, which the tables show |
| SyncRuns.EngineInv | src/mirror/sync.rs:1828-2895 | Engine steps one by one: invariant kept, and bytes kept if and only if no remote rename takes the name of an open, unflushed file whose bytes are nowhere else |
| SyncRuns.RestartedKeeps | src/mirror/sync.rs:297-420 | A process that ends in the middle of any request and starts again, with its open writes, recheck set, epoch and request forgotten, finds the ledger in order and every byte where it was |
| SyncPromises.ProtectedModeOnlyAdds | src/mirror/sync.rs:217-282 | Under protection no step of this device, in any run, removes or changes a file in the folder or an object on the hub |
| SyncPromises.NoBlindOverwrite | src/mirror/sync.rs:2455-2639 | In every run, each hub object that a request of this device replaces or removes is one this device had downloaded, uploaded or adopted, or is moved as a whole |
| SyncPromises.KnownMeansSeen | src/mirror/sync.rs:2002-2110 | A digest becomes known only in a step that downloaded it, snapshotted it for upload, or found it on the hub |
| SyncTurns.EngineTakesTheTurn | src/mirror/sync.rs:1886-2843 | Left alone, the engine gets from any state in which a key can be worked on to one where hub, row, base, folder and copies are those of the turn in the convergence model, whatever the decision: upload, delete, download, trash, adoption, or conflict with copy and download; rows, files and jobs of other keys are as they were |
| SyncTurns.UploadLands | src/mirror/sync.rs:2455-2568 | An upload the hub takes sends the bytes in the folder against the base, and leaves a Clean row and a base of those bytes and its job done |
| SyncTurns.DeleteLands | src/mirror/sync.rs:2591-2639 | A delete the hub takes names the base, and leaves no row, base, mark or job |
| SyncTurns.PullLands | src/mirror/sync.rs:2036-2110 | A download of the version seen leaves it in the folder, row and base naming it, and no job of the key |
| SyncTurns.ConflictKept | src/mirror/sync.rs:2114-2181 | A conflict leaves the bytes in the conflict store, a record of them and one job that sends them, and no file changed |
| SyncTurns.CopyLands | src/mirror/sync.rs:2711-2843 | The job sends those bytes under the copy's name; the record says so, and the hub's version is asked for next |
| SyncArrivals.SaveArrives | src/mirror/sync.rs:623-648 | A save, from the user to the end: the hub has the bytes, unless another device was first; then they are in a copy, and folder and base hold the other device's version |
| SyncArrivals.SaveClearsTrash | src/mirror/sync.rs:251-265 | A save gives up the trashed file of its name, unless under protection, and no other |
| SyncArrivals.OpenedForWriting | src/mirror/sync.rs:559-577 | Opening creates a missing file or opens one that is there; created and truncated files are empty and wait for their handle, other bytes stay |
| SyncArrivals.RemovalArrives | src/mirror/sync.rs:652-697 | A removal, to the end: the key is gone on the hub too, unless another device has put a newer version there; that one is then in the folder |
| SyncArrivals.RenameArrives | src/mirror/sync.rs:741-877 | A rename of a synced file, to the end: hub, folder, row and base have it under the new name and nothing under the old one, the row is Clean, and no job is left |
| SyncArrivals.RenameCarriesUploads | src/mirror/sync.rs:831-853 | Every queued upload of the old name, and every conflict upload, is queued for the new one |
| SyncArrivals.RenameCarriesNothingElse | src/mirror/sync.rs:799-877 | A job after a rename is one of another key, the word to the hub, or has become of a job of the old name what it should |
| SyncArrivals.RenameCarriesRecord | src/mirror/sync.rs:799-877 | A conflict record goes along with its bytes and its copy; only its key is another |
| SyncArrivals.NoCleanRowWithoutBase | src/mirror/sync.rs:799-877 | A row that is Clean under its new name has a base there; one without is made Dirty and sent |
| SyncArrivals.OverwriteRemovesTheTarget | src/mirror/sync.rs:741-797 | After a rename over a file the hub may have, the agreed version of the target, and no other, is to be removed there |
| SyncArrivals.NameIsFollowed | src/mirror/sync.rs:2436-2453 | A name is followed through the queue, oldest job first, by renames of just that name and by directory moves carried out here |
| SyncWork.JobLeavesOnlyWhenDone | src/mirror/sync.rs:1886-2843 | In every step of the engine a row leaves the queue only when its work is done, when there is nothing to do for it, or when a step of its own key makes it pointless; a failed request, or an answer that settles nothing, leaves it |
| SyncWork.PullYieldsToChanges | src/mirror/sync.rs:2036-2110 | In every run, a download that lands after the file has changed in any way, scanned or not, or after any rename, changes no file, and its key is looked at again |
| SyncWork.PullIsAsked | src/mirror/sync.rs:2036-2057 | A download that was decided is asked for or put off, unless under protection it would replace a file |
| SyncWork.PullIsKeptOrPutOff | src/mirror/sync.rs:2058-2110 | A download that arrives is in the folder with its row and base, or its key is looked at again |
| SyncWork.DecisionPutOff | src/mirror/sync.rs:1899-1905 | A decision about a file that is open or whose rename is queued is put off, and nothing else happens |
| SyncWork.RenameHoldsBack | src/mirror/sync.rs:1899-1905 | While a rename is queued, decisions about either of its names are put off |
| SyncWork.RenameHoldsBackPulls | src/mirror/sync.rs:950-956 | And no download takes the place of either |
| SyncWork.DirectoryMoveHoldsBack | src/mirror/sync.rs:957-962 | While a directory move is queued no file below either name is scanned, decided, sent or renamed after the hub |
| SyncWork.ProtectedDecides | src/mirror/sync.rs:1924-1941 | Under protection a decision changes no file and asks for no more than files missing here; what the hub has in another version is left alone |
| SyncWork.Unpropagated | src/mirror/sync.rs:1962-1975 | Where removals are not propagated, a file removed here is forgotten here and nothing is queued |
| SyncWork.ScanSeesFile | src/mirror/sync.rs:1251-1433 | After a scan the row names the version in the folder, and a new version has an upload queued |
| SyncWork.ScanMissesFile | src/mirror/sync.rs:1251-1433 | A file that is gone is to be removed on the hub if that may have it, and is forgotten otherwise |
| SyncWork.RecoveredHasWork | src/mirror/sync.rs:2213-2248 | After a start every row with something to send has a job or an unresolved conflict, and no upload runs ahead of that |
| SyncWork.UploadTaken | src/mirror/sync.rs:2526-2568 | The bytes that were sent are the base of the name the file has by now; its row turns Clean exactly when it still names them and nobody is writing |
| SyncWork.DeleteTaken | src/mirror/sync.rs:2612-2639 | Deleted now or gone before, the tombstone, base and mark go; a delete that names its version leaves the file that has the name now |
| SyncWork.RenameMissed | src/mirror/sync.rs:2641-2709 | When the hub lacks the old name, the file, if it is still there, is uploaded under its new one |
| SyncWork.TriedAgainKeeps | src/mirror/sync.rs:2526-2709 | The answers after which a job is tried again leave every table as it was |
| SyncWork.HubRenameFollowed | src/mirror/sync.rs:1828-1881 | A rename on the hub that the file can follow carries file, row and base to the new name without a job |
| SyncWork.HubRenameLeavesEdit | src/mirror/sync.rs:1828-1881 | One it cannot follow, since it was edited here, leaves the edit in place and queues it as a new file |
| SyncWork.HubRenameMeetsRow | src/mirror/sync.rs:1828-1881 | One whose new name is known here gives the old name up and leaves the new one as it is |
| SyncWork.ExpiryTakesOnlyWhatItNames | src/mirror/sync.rs:2846-2895 | Expiry removes the trashed files and snapshots that are due, and no recorded conflict's bytes |
| SyncReplies.LateReplyKeepsNewerEdit | src/mirror/sync.rs:2436-2568 | Other bytes saved or flushed during a PUT, followed through any renames, removals and further edits: after the reply has landed their newest row stands under its current name, Dirty unless it names the uploaded bytes, with its push queued behind the finished job, or its tombstone with its delete |
| SyncAgreement.CleanAgreesWithBase | src/mirror/sync.rs:2526-2568 | A step keeps "a Clean row with a base has the base's digest" if and only if it is neither an overtaken landing nor a rename that strands a clean row |
| SyncAgreement.CleanAlwaysAgrees | src/mirror/sync.rs:1886-2843 | The agreement holds throughout every run without such a step |
| SyncLandings.ApplyRemoteRenameKeeps | src/mirror/sync.rs:1828-1881 | A remote rename keeps every byte if and only if it does not move onto an open, unflushed file whose bytes are nowhere else; the set of open writes shows such a file |
| SyncLandings.LandingKeeps | src/mirror/sync.rs:2036-2110 | An allowed landing replaces only the version the pull was decided against, which is agreed or preserved |
| SyncLandings.PullBeginInv | src/mirror/sync.rs:2036-2057 | The first half of a pull keeps the invariant and every byte |
| SyncLandings.PullLandInv | src/mirror/sync.rs:2058-2110 | So does the second half, for whatever was downloaded and whatever happened in between |
| SyncLandings.RecordConflictInv | src/mirror/sync.rs:2114-2181 | Recording a conflict preserves the local bytes before anything may replace them |
| SyncSnapshots.ConflictsKeepTheirBytes | src/mirror/sync.rs:2114-2181 | In every run, restarts and the expiry of old snapshots included, the bytes of a recorded conflict are in the conflict store for as long as the record is there |
| SyncLandings.RunPushInv | src/mirror/sync.rs:2455-2525 | Starting an upload keeps the invariant and every byte, whatever holds it back |
| SyncLandings.LandPushInv | src/mirror/sync.rs:2526-2589 | Every answer to an upload keeps the invariant and every byte |
| SyncLandings.RunDeleteInv | src/mirror/sync.rs:2591-2611 | A delete goes out only against a version this device has seen |
| SyncLandings.LandDeleteInv | src/mirror/sync.rs:2612-2639 | Every answer to a delete keeps the invariant and every byte |
| SyncLandings.LandRenameInv | src/mirror/sync.rs:2641-2709 | Every answer to a rename keeps the invariant and every byte |
| SyncCapture.CheckThenRead | src/mirror/sync.rs:2812-2843 | With anything but the engine between the check of the bytes and the reading of the row, the pull keeps every byte if the row names the checked version, and loses the version it names if that is nowhere else |
| SyncLandings.CopyAnsweredInv | src/mirror/sync.rs:2827-2843 | After a conflict copy, both outcomes of looking at the hub keep the invariant and every byte |
| SyncSafety.DecidedInv | src/mirror/sync.rs:1886-2032 | A reconcile decision, for any hub digest, keeps the invariant and every byte |
| SyncSafety.DecisionCaptures | src/mirror/sync.rs:1938-1971 | A pull is chosen only over a version that is covered, or over nothing |
| SyncInvariant.CommitWriteInv | src/mirror/sync.rs:623-648 | A save through the mount keeps the invariant, whatever request is in flight |
| SyncInvariant.CommitHandleInv | src/mirror/sync.rs:579-603 | So does the commit of an open handle |
| SyncInvariant.DeletedInv | src/mirror/sync.rs:652-697 | So does a removal |
| SyncInvariant.RenameLocalInv | src/mirror/sync.rs:741-877 | So does a rename, over an existing file or not |
| SyncFindings.RemoteRenameTakesAFileBeingCreated | src/mirror/sync.rs:1828-1881 | From a state that satisfies the invariant, following a rename destroys the bytes an editor is writing |
| SyncFindings.CheckAndCaptureMustBeOneStep | src/mirror/sync.rs:2812-2826 | With a save between check and capture, the following pull destroys that save |
| SyncFindings.TombstoneAdopted | src/mirror/sync.rs:2002-2016 | An unhashed tombstone becomes a Clean row with an empty base |
| SyncFindings.AdoptedTombstoneCostsTheNextFile | src/mirror/sync.rs:2002-2016 | The next file written under that name is pulled over before its upload |
| SyncFindings.LateReplyCanMeetAnotherFile | src/mirror/sync.rs:2526-2568 | From a quiet mirror: upload begun, another synced file moved over the name, upload accepted, reply landed; the row is Clean for one file and the base is the other's |
| SyncFindings.QueuedRenameSurvives | src/mirror/sync.rs:667-697 | A queued rename survives the disappearance of a file if and only if it does not start at its name |
| SyncFindings.ForgottenRenameTrashesTheFile | src/mirror/sync.rs:667-697 | When it does start there, the renamed file ends up in the trash at the next look at the hub |
| Engine.Mirror.LocalResultKey | src/mirror/sync.rs:2436-2453 | Where the result of a request belongs after the renames queued meanwhile |
| Engine.Mirror.EnqueueRetargeted | src/mirror/sync.rs:831-853 | The jobs of a renamed file are queued again, in order, for the new name |
| Engine.Mirror.EnsureJob | src/mirror/sync.rs:2183-2191 | A job is queued exactly when no row has its id |
| Cycle.Device.Happen | src/mirror/sync.rs:579-877 | What the user, other programs, other devices or the hub do is a step of the run, and leaves the request in hand where it was |
| Cycle.Device.Proceed | src/mirror/sync.rs:2036-2843 | Each landing of the engine's methods is the step of the run it stands for, with fewer requests left to come |
| Cycle.ContinuingFalls | src/mirror/sync.rs:2455-2843 | Whatever the answers, a job leads to at most four, one after another |
| Cycle.Device.RunToEnd | src/mirror/sync.rs:2310-2382 | So a job always comes to its end with the engine free, whoever interferes, or the process crashes in the middle of it and a new one is free |
| Cycle.Device.Reopen | src/mirror/sync.rs:297-428 | Whatever the process was doing, a new one scans the folder first; no file is touched, and every file is accounted for by a row again unless a directory move is still queued |
| Cycle.Device.KeepHouse | src/mirror/sync.rs:2846-2895 | Expiry of trash and unreferenced snapshots is a step of the run |
| Cycle.Device.Pass | src/mirror/sync.rs:1545-1587 | A pass of the sync thread, crashes included, is a run; if it began in order and decided no strange tombstone, the ledger is in order after it and no unsynced bytes were destroyed on the way; and conflict records still have their bytes |
| Ledger.RecoveryReachesTheSameState | src/mirror/sync.rs:964-1039 | Whatever points any number of attempts are cut at, completing the move reaches the folder, tables and queue of the uninterrupted run, re-keyed once; completing it again changes nothing |
| Ledger.CommitIsOnce | src/mirror/store.rs:575-686 | After the commit the row says applied, so the re-keying is never repeated |
| Ledger.RecoveryRefuses | src/mirror/sync.rs:990-998 | Recovery refuses, and changes nothing, if and only if the directory is at neither end |
| Ledger.RecoveryFinishesTheIntent | src/mirror/sync.rs:1013-1039 | Recovering the table finishes its one unapplied intent |
| Ledger.ProtectedRecoveryLeavesDisk | src/mirror/sync.rs:1013-1039 | Protected recovery renames nothing on disk |
| Ledger.MoveKeepsLedgerAndFolderTogether | src/mirror/sync.rs:964-1011 | If ledger and folder matched before a finished move, they match after it |
| Ledger.MoveCarriesEveryRow | src/mirror/store.rs:603-638 | For every key below the old name: its row, base and conflict record, the latter with its key and copy key mapped, are found at the new name, none is left at the old one, and every directory record follows |
| Ledger.MoveLeavesOtherRows | src/mirror/store.rs:603-638 | For every key below neither name, row, base, conflict record and directory record are as they were |
| Ledger.MoveKeepsAgreement | src/mirror/sync.rs:964-1011 | If every Clean row agreed with its base before a finished move onto a name that had no rows, every one does after it |
| Ledger.CommitKeepsEveryJob | src/mirror/store.rs:639-683 | No job is lost in a commit: each is there as it was, or, if it is work on a file below the old name that the move does not carry, as the same work, body and priority at the new name |
| Ledger.IntentSays | src/mirror/sync.rs:887-905 | The intent goes to the hub exactly unless nothing below the folder has a base and its own creation is still queued |
| Ledger.CommitKeepsQueueMeaning | src/mirror/store.rs:639-683 | The queue after the commit gives the hub what the queue before it, with the move last, would have given |
| Ledger.RekeyTable | src/mirror/store.rs:603-638 | Removing and inserting row by row gives the map with every key below the old name mapped |
| Ledger.Mirror.RewriteQueue | src/mirror/store.rs:639-683 | Rows that stay keep their place, content work is re-keyed to the end under fresh numbers, the move is marked |
| Ledger.Mirror.ApplyDirectoryRename | src/mirror/store.rs:575-686 | Four tables and the queue in one commit |
| Ledger.Mirror.FinishDirectoryMove | src/mirror/sync.rs:964-1011 | `rename(2)` when the source is the original directory, commit when the destination is; open writes follow |
| Ledger.Mirror.RecoverDirectoryMoves | src/mirror/sync.rs:1013-1039 | Every unapplied intent in the table is finished, or the first that cannot be stops the cycle |
| Ledger.Mirror.RenameDirLocal | src/mirror/sync.rs:880-941 | Succeeds if and only if the ends do not overlap, no row or directory record is below the target, nothing is there on disk and the system call works; a withdrawn intent leaves all but the counter as it was |
| DirectoryMove.RewriteKeepsMeaning | src/mirror/store.rs:639-683 | With an empty destination and no later structural job below it, the rewritten queue gives the same hub files and agreed versions as the old queue followed by the move |
| DirectoryMove.LocalRewriteKeepsMeaning | src/mirror/sync.rs:887-905 | So does the rewrite for a folder the hub never had |
| DirectoryMove.WorkFollowsMove | src/mirror/store.rs:639-683 | Work on a file before the move is the same work on its new name after it |
| DirectoryMove.SplitRun | src/mirror/store.rs:639-683 | The rows that stay may all run first |
| Scheduler.LinearMeansSubmissionOrder | src/mirror/sync.rs:2250-2308 | At every moment of a drain, finishing the queue in order gives what running the whole submission log in order would have given |
| Scheduler.HoistRespects | src/mirror/sync.rs:2272-2296 | Picking a job ahead of jobs it does not overlap keeps every dependency |
| Scheduler.WalkToRoot | src/mirror/sync.rs:2272-2283 | The dependency walk ends, at the job's root |
| Scheduler.RootIsReached | src/mirror/sync.rs:2272-2283 | A job's root is where going back, each time to the earliest queued job that overlaps, ends: nothing earlier overlaps it |
| Scheduler.Select | src/mirror/sync.rs:2253-2298 | The pick is the root of the highest-numbered Interactive job whose root may run; failing that, of the lowest-numbered Discovered one, and failing that of the lowest-numbered Background one; nothing is picked if and only if every root is blocked |
| Scheduler.Queue.Choose | src/mirror/sync.rs:2253-2298 | The same of the queue's own rows and of what backoff, deferral and open files block |
| Scheduler.Queue.Enqueue | src/mirror/store.rs:839-877 | One pending row per id, under a number never used before, with the meaning of the log extended; rows of other ids stay |
| Scheduler.Queue.Observe | src/mirror/sync.rs:667-877 | Work submitted, a file's rows dropped, or moved to its new name behind a rename: drained and pending work still equal the submission log |
| Scheduler.Queue.Complete | src/mirror/sync.rs:2327-2345 | The finished row, and only it, goes, and drained and pending work still equal the submission log |
| Scheduler.Queue.GiveUp | src/mirror/sync.rs:2359-2366 | So does taking the row of a job the hub refuses for good |
| Scheduler.Queue.RunOne | src/mirror/sync.rs:2310-2382 | One attempt by its outcome: done and refused jobs leave, a directory move is never given up, backoff and deferral are set for that job only, and only a failure of the network stops the drain |
| Scheduler.Queue.DrainOne | src/mirror/sync.rs:2250-2382 | One round keeps it too, with local events before the pick and every outcome of the attempt; whatever ran was the turn of the queue as it was at the pick |
| Scheduler.Queue.DrainJobs | src/mirror/sync.rs:2250-2308 | At most `budget` picks keep it, and `touched` has every key of everything that ran, but for making and removing directories |
| Scheduler.Queue.DrainEqualsSubmissionOrder | src/mirror/sync.rs:2250-2308 | The hub, once what is still queued has run in order, is what running by sequence number every submitted job that was not replaced, dropped or refused gives |
| Replay.DependencyOrderSuffices | src/mirror/store.rs:47-56 | Any order that respects dependencies between overlapping paths gives the same hub as submission order |
| Replay.ExecCommutes | src/mirror/store.rs:171-176 | Jobs on paths that do not overlap commute |
| Replay.OverlapIsSharedRegion | src/mirror/store.rs:171-176 | Two jobs overlap if and only if some key is below a key of each |
| JobEffects.PushPuts | src/mirror/sync.rs:2455-2568 | An upload takes effect exactly when the hub holds the agreed version, or nothing where none was agreed: its bytes are then there and agreed, and no other key has changed |
| JobEffects.DeleteRemoves | src/mirror/sync.rs:2591-2639 | A delete takes effect exactly when it names a version and the hub holds that one or nothing: the key is then absent, and agreed absent unless the delete named the version itself |
| JobEffects.RenameMoves | src/mirror/sync.rs:2641-2651 | A rename takes effect exactly when the source is there in the agreed version and the destination is free: the bytes and what is agreed are then at the destination, nothing at the source |
| JobEffects.DirectoryMoves | src/mirror/store.rs:603-638 | A directory move that reaches the hub takes every file below the old name to its place below the new one, with what is agreed about it |
| JobEffects.OtherJobsTouchNothing | src/mirror/sync.rs:2384-2432 | Jobs for directories alone, conflict uploads, and moves the hub is not told of put, remove and rename no object |
| JobEffects.MovesLoseNoBytes | src/mirror/sync.rs:2641-2709 | Only a delete, or an upload over the agreed version, takes bytes off the hub |
| JobEffects.ReplayIsTheHubsAnswer | src/mirror/sync.rs:2384-2432 | What the replay makes of the hub's objects is what the hub's conditional write makes of them, for the request of that job |
| JobEffects.JobIsReplayed | src/mirror/sync.rs:2384-2432 | Running a job through the engine's request and the hub's answer leaves the hub with what the replay gives |
| JobEffects.AnswersReadBackwards | src/mirror/hub.rs:538-656 | A refusal tells what the hub has instead of what was named, what is missing was not there, a taken name holds a file, and what was accepted met every condition |
| JobEffects.UploadAsks | src/mirror/sync.rs:2455-2525 | A request goes out exactly when nothing holds the upload back; it sends the bytes in the folder, on condition that the hub holds the base, or nothing where there is none; the row names those bytes |
| JobEffects.DeleteAsks | src/mirror/sync.rs:2591-2611 | A delete names the version it was queued with, else the base of the file that has the name now, else what was last sent under it; with none of these nothing is asked and the job is done |
| JobEffects.RenameAsks | src/mirror/sync.rs:2641-2651 | A rename is on condition that the hub's source is the base, which the file has under its new name here |
| Replay.ExecFrame | src/mirror/sync.rs:2384-2432 | A job leaves everything outside its paths alone |
| Replay.ExecLocal | src/mirror/sync.rs:2384-2432 | What a job does depends on nothing outside its paths |
| Jobs.DedupeIdentifiesWork | src/mirror/store.rs:179-189 | Two jobs share an id if and only if they are the same work, provided no rename source has a bar in it |
| Jobs.SharedIds | src/mirror/store.rs:179-189 | Some other work has a job's id if and only if the job is a rename with a bar in a name |
| Rekey.RekeyLookup | src/mirror/store.rs:546-569 | After re-keying, a key holds what its pre-image held |
| FeedSafety.StepSkips | src/mirror/sync.rs:1699-1823 | A change of a key becomes skipped (passed, not looked at, and nothing left that will make anybody look, a queued job of the key included) in a step if and only if it is one of the six losing steps, told from the state before it |
| FeedSafety.StepGood | src/mirror/sync.rs:1699-1823 | Every step keeps the reader in order, and none moves the cursor back |
| FeedSafety.SeenMeansLooked | src/mirror/sync.rs:1784-1823 | A key counts as looked at exactly when it is decided with an answer or listing so new and is not open, renamed, excluded or under a move, when its file follows a rename of the hub, or when it is missing on every side; in no other step |
| FeedSafety.PageMovesTheCursor | src/mirror/sync.rs:1752-1782 | After a page the cursor is behind every change that was understood and not beyond the page, unless none was: then it is at the head of the log |
| FeedSafety.ListingHeals | src/mirror/sync.rs:1699-1750 | After a listing nothing before its head is skipped, whatever had been, except keys it passed over |
| FeedSafety.OmittedIsGone | src/mirror/sync.rs:1724-1733 | A key that the listing and the ledger both lack was missing on the hub while the listing ran and is missing here: nothing is to be done, and that is decided as of the listing |
| FeedSafety.EntrySays | src/mirror/hub.rs:436-476 | What a put, a delete and a rename in the log make of what the hub has, and that a key's state changes only by an entry about the key |
| FeedSafety.PageTells | src/mirror/sync.rs:1706-1728 | What the pages say of each key was true at a moment of the listing, other devices writing all the while |
| FeedRuns.SkippedMeansLost | src/mirror/sync.rs:1699-1823 | At any moment of any run a change is skipped if and only if a losing step was taken on it before and it has not been made good since |
| FeedRuns.NothingIsSkipped | src/mirror/sync.rs:1752-1782 | In a run without a losing step every change passed has been looked at, or its key is excluded, waiting to be rechecked, due for a listing or under a queued job, or comes up again |
| FeedRuns.RunGood | src/mirror/sync.rs:1752-1782 | Over any run the cursor only moves forward, and stays within the log |
| FeedRuns.RenameOvertakesAnswer | src/mirror/sync.rs:1797-1802 | From any quiet mirror: a rename of any file while the hub is asked, and the change is lost |
| FeedRuns.UnknownPageHidesChange | src/mirror/sync.rs:1776-1777 | From any quiet mirror: a page of unknown operations sends the cursor past the change behind it |
| FeedRuns.FailureLosesRecheck | src/mirror/sync.rs:2195-2209 | From any quiet mirror: a file open when its change came up is forgotten when the later request fails |
| FeedRuns.RefusedJobHidesKey | src/mirror/sync.rs:1735-1743 | From any quiet mirror: a job refused for good during a listing hides its key from the listing, and no change follows |
| FeedRuns.DroppedJobHidesChange | src/mirror/sync.rs:2359-2366 | From any quiet mirror: an overtaken change of a key whose queued job would have looked is lost when the job's row goes |
| FeedRuns.WithdrawnMoveHidesChange | src/mirror/sync.rs:929-937 | From any quiet mirror: a directory move tried and withdrawn while a change comes up hides the change |
| FeedLoops.Cursor.ApplyChange | src/mirror/sync.rs:1784-1823 | One change, with time passing at each request: a run of the steps that ends behind the change, or idle after a failure |
| FeedLoops.Cursor.FetchPages | src/mirror/sync.rs:1706-1728 | The pages of a listing, jobs in between, cover every key |
| FeedLoops.Cursor.Rebuild | src/mirror/sync.rs:1699-1750 | The listing as a run: every key listed or in the ledger is looked at in turn before the cursor moves |
| FeedLoops.Cursor.RecheckDeferred | src/mirror/sync.rs:2195-2209 | The recheck set, emptied and worked through, as a run |
| FeedLoops.Cursor.CatchUp | src/mirror/sync.rs:1752-1782 | Pages of the feed, or a listing instead, as a run |
| FeedLoops.Cursor.ReadCycle | src/mirror/sync.rs:1565-1582 | After a cycle of the program's loops a change is skipped if and only if a losing step was taken on it and nothing has made it good, and the cursor has not moved back |
| HomeTree.CachedKeyReachesNode | src/state.rs:1325-1331 | Walking a key from the root finds a node if and only if the node's cached key is that key |
| HomeTree.ParentsEnd | src/state.rs:401-422 | Following parent links once for each name of the key reaches the root, and no sooner: no cycles |
| HomeTree.ChildByName | src/state.rs:476-479 | A name is in the index if and only if a node with the extended key exists |
| HomeTree.RenameKeepsShape | src/state.rs:1530-1558 | Moving a subtree to a free key outside it keeps the graph a tree with exact cached keys |
| HomeTree.RenameKeepsIndex | src/state.rs:1922-1936 | The by-name index still reads every parent link backwards |
| HomeTree.InsertKeepsIndex | src/state.rs:401-412 | So it does after an insertion |
| HomeTree.RemoveKeepsIndex | src/state.rs:414-422 | And after a removal |
| HomeTree.Tree.InsertNode | src/state.rs:395-412 | A fresh inode under a free name; tree and index stay exact |
| HomeTree.Tree.RemoveSubtree | src/state.rs:2055-2067 | Exactly what is strictly below the node goes |
| HomeTree.Tree.EnsureDirs | src/state.rs:1335-1381 | Every directory along a key exists; only files in the way are lost, only directories along it are new |
| HomeTree.Tree.Upsert | src/state.rs:1392-1444 | The file is there with its attributes, keeps its inode if it was there, and nothing else changes but what stood in its way |
| HomeTree.Tree.Find | src/state.rs:1325-1331 | Finds the node whose cached key it is, or there is none |
| HomeTree.Tree.RemoveKey | src/state.rs:1449-1485 | The subtree goes, and with it exactly the directories above that become empty and are not to be kept |
| HomeTree.Tree.MoveEntry | src/state.rs:1922-1936 | The node hangs elsewhere and the index says so; cached keys are still the old ones |
| HomeTree.Tree.RekeySubtree | src/state.rs:1540-1558 | Following the index rewrites the cached key of the node and of everything below it, and of nothing else |
| HomeTree.Tree.RenameKey | src/state.rs:1489-1526 | The named node and its subtree have the new keys with the same inodes and contents; others stay, except what held the new name or stood in its way |
| HomeSnapshot.ApplySnapshot | src/state.rs:1563-1634 | Exactly the wanted files, with size and time, and the wanted directories exist afterwards; a key that was there with the same kind keeps its inode |
| HomeSnapshot.WantedDirs | src/state.rs:1569-1577 | The explicit directories and every parent of a wanted file |
| HomeSnapshot.FindVictims | src/state.rs:1578-1612 | The walk with a work list finds unwanted nodes only, and covers every one |
| HomeSnapshot.RemovalIsPartial | src/state.rs:1613-1622 | Removing the victims and what is below them leaves exactly what is kept |
| HomeSnapshot.PartialBecomesExact | src/state.rs:1623-1634 | Making the directories and files that lack completes the snapshot |
| Handles.WriteStore.Open | src/writes.rs:280-402 | One state per file, counted; the target of a new one is where the file is |
| Handles.WriteStore.Create | src/writes.rs:404-479 | Succeeds if and only if no node and no pending create has the name; the pending file gets an inode nothing has |
| Handles.WriteStore.Flush | src/writes.rs:692-728 | What a flush commits is the file's current path; after the final flush the file is a node of the tree under the handle's own inode |
| Handles.WriteStore.Release | src/writes.rs:730-748 | The last close forgets the state, an uncommitted create, and the open-write mark of a live handle |
| Handles.WriteStore.Unlink | src/writes.rs:756-848 | The file loses its name and its handle is marked; handles and files stay matched if and only if it is not a pending create that the folder refuses to delete |
| Handles.WriteStore.Rename | src/writes.rs:1151-1336 | The file or subtree at the source is at the destination; every live handle commits to its file's current path, and the open writes are exactly those paths, if and only if the destination was no pending create |
| Handles.Moves | src/writes.rs:1302-1336 | A move in the tree takes handles, pending creates and open-write marks along, if and only if nothing is pending at the new place |
| Handles.Repends | src/writes.rs:1176-1224 | A renamed pending create keeps everything consistent if and only if the new name is not pending |
| Handles.MovedCurrent | src/writes.rs:1310-1336 | Where a file is after a move is where its old path went, pending or not |
| Handles.MovedWriters | src/mirror/sync.rs:861-866 | The mirror's open-write set after a rename is exactly the set of live targets |
| Handles.Publishes | src/writes.rs:720-727 | A pending create becomes a node without any handle changing its target |
| Handles.TargetsDiffer | src/writes.rs:404-479 | Two live handles never commit to the same path |
| Handles.NamelessHandle | src/writes.rs:766-785 | A pending create that loses its name without its mark has a handle without a file |
| Handles.RenameOntoPendingCreate | src/writes.rs:1151-1336 | A file renamed onto the name of a pending create leaves two open files that commit to one name |
| TreeIndex.Workspace.Reindex | src/state.rs:2003-2053 | The stack walk ends, and the tree's path map and its documents' recorded paths are what following parent links from the root gives; other trees' entries are untouched |
| TreeIndex.Workspace.MoveFolder | src/state.rs:1965-1974 | After a folder's move the index of every tree is exact |
| TreeIndex.Workspace.MoveFile | src/state.rs:1942-1962 | After a document's move, within a tree or across, the index of every tree is exact and the document is filed under the destination |
| TreeIndex.OneChain | src/state.rs:484-497 | Parent links lead from a node to at most one root, along one path |
| TreeIndex.FoundAll | src/state.rs:2016-2041 | When the stack is empty, what was found is exactly what parent links reach |
| TreeIndex.FilesAll | src/state.rs:2021-2029 | And every document below the root has been recorded under its folder |
| TreeIndex.FolderMoved | src/state.rs:1965-1974 | A folder's move changes paths in its own tree only |
| TreeIndex.FileMoved | src/state.rs:1942-1962 | A document's move changes no folder's path |
| Recovery.Replica.PushThenPull | src/mirror/recovery.rs:11-146 | With nothing in the way both sides end with the union, local contents win, the ledger asks for nothing more, no upload of any file is queued, no removal or rename of a recovered one, and running what is still queued leaves every recovered file on the hub with its bytes |
| Recovery.Replica.PushLocal | src/mirror/recovery.rs:11-66 | Every hub key keeps its bytes or gets the local file's; with nothing in the way the report, a dry run's too, names what was new, what differed and what was the same there before |
| Recovery.Replica.PullRemote | src/mirror/recovery.rs:73-146 | Every local name keeps its bytes or gets the hub's where nothing was; of what came, no queued job removes, uploads or renames it away; with nothing in the way the report, a dry run's too, names what was missing and what was here |
| Recovery.Replica.PushFile | src/mirror/recovery.rs:263-407 | One upload changes one hub key at most, to the local bytes, also when an error follows it, and takes exactly the Push and ConflictUpload rows of the key out of the queue; a dry run changes nothing |
| Recovery.Replica.PullFile | src/mirror/recovery.rs:172-261 | One download fills one absent name at most; then its queued Delete, Push, ConflictUpload and Rename rows are gone and all others are there |
| Recovery.PushRemovesNothing | src/mirror/recovery.rs:11-66 | A push alone removes no hub file |
| Recovery.PullChangesNothing | src/mirror/recovery.rs:73-146 | A pull alone changes no local file |
| Recovery.RemainingIsCleared | src/mirror/recovery.rs:246-256 | Which rows a finished recovery of a key takes out of the queue, by their kinds, and that it takes no other |
| Recovery.QueueSpares | src/mirror/recovery.rs:246-256 | Running a queue without removals, renames or moves of a key leaves the key on the hub |
| Fetch.Slot.Fetch | src/mirror/local.rs:354-479 | A landed file has the verified digest and the reported length; every other outcome leaves the file alone, and the part is kept only after a broken connection |
| Fetch.Slot.Receive | src/mirror/local.rs:407-431 | The running hash has been fed exactly the bytes of the part file |
| Fetch.ResumingGivesTheWhole | src/mirror/local.rs:354-479 | Against an unchanging remote the part is always a beginning of it, an answer read to its end makes it whole, and a range that is refused is refused only once (sections 14.2 and 15.5.17 of RFC 9110) |
| Reconcile.DecideByOutcome | src/mirror/reconcile.rs:45-92 | Each action is taken in exactly the documented situation, with the version it must meet |
| Reconcile.TwoPassesConverge | src/mirror/sync.rs:1938-2031 | For any devices and contents, tombstones included, two passes in any orders leave every row and base equal to the hub, after which every decision is Nothing |
| Reconcile.FoldersConverge | src/mirror/sync.rs:2002-2016 | The folders hold the hub's version too, except where that is the version of a tombstone the device had |
| Reconcile.GraveWithTheHubsVersion | src/mirror/sync.rs:2002-2016 | That exception happens |
| Reconcile.OnePassIsNotEnough | src/mirror/reconcile.rs:45-92 | One pass need not suffice |
| Reconcile.PassKeepsEdits | src/mirror/reconcile.rs:1-45 | Every edit ends up on the hub or in a conflict copy, unless somebody had agreed on exactly those bytes and moved on |
| Reconcile.ConvergenceLosesNoEdit | src/mirror/sync.rs:1938-2031 | So convergence loses no edit |
| Keys.UnderIffAncestor | src/mirror/store.rs:47-52 | `under` is exactly reachability by repeated `parent_key` |
| Keys.CommonDescendantOverlaps | src/mirror/store.rs:54-56 | Directories that share a descendant are nested: keys that do not overlap have disjoint regions |
| Keys.OverlapsUpward | src/mirror/store.rs:54-56 | What overlaps a key below a directory overlaps the directory |
| Keys.OverlapsIffShared | src/mirror/store.rs:54-56 | Two keys overlap if and only if some key is below both |
| Keys.MappedIsRelabelling | src/mirror/store.rs:575-638 | A directory move is one-to-one on keys, lands below the destination, preserves nesting, and is undone by the move back |
| Keys.NormalizeStable | src/mirror/mod.rs:163-170 | Normalizing keeps the segments and is idempotent |
| Keys.SegmentsJoin | src/mirror/mod.rs:163-170 | Names survive being written as a key and read back |
| Encoding.EncodeSegment | src/mirror/hub.rs:813-824 | The output holds letters, digits, `-`, `_`, `.`, `~` and triplets of a percent sign and two upper-case hexadecimal digits, and nothing else; a segment of the former only is unchanged, and the output decodes to the input |
| Encoding.OthersAreTriplets | src/mirror/hub.rs:813-824 | Every other byte becomes its own triplet (section 2.1 of RFC 3986) |
| Encoding.DecodedByParts | src/render.rs:174-199 | The decoder by its parts: a percent sign with two hexadecimal digits, of either case, is the byte they name, and every other byte is itself |
| Encoding.PercentDecode | src/render.rs:174-199 | The loop undoes the encoder on everything it produces |
| Encoding.DecodeUndoesEncode | src/render.rs:174-199 | Decoding is a left inverse of encoding on every byte string (sections 2.1 and 2.3 of RFC 3986) |
| Encoding.EncodedKeySplitsBack | src/mirror/hub.rs:805-824 | The encoded path splits back into the segments of the key, in order |
| Encoding.EncodeKeyInjective | src/mirror/hub.rs:805-824 | Two keys share an object URL if and only if they have the same segments; on normalized keys, if and only if they are equal |

## Left out

- SHA-256 collisions and Unicode normalisation: digests stand for bytes, and keys are in NFC already.
- HTTP, sockets, retries, backoff timing, hourly timers, trash expiry, legacy migration and the status report: time-driven or plumbing; "not ready yet" is a flag on a job.
- FUSE, inotify, kernel invalidation, file descriptors and directory identity on disk: an event is "these paths may have changed", and a directory has an abstract identity.
- Exclusion rules are a predicate on keys in `Feed` and the recovery module and are absent from the engine's runs, where every key is synced.
- Directory jobs (`mkdir`, `rmdir`, directory renames) are not interleaved in `SyncRuns`, and its restarts recover no directory move; their meaning is in `Replay`, `DirectoryMove` and `Ledger`.
- Conflict copies on the hub are a set of digests beside the keys; prompt mode, where the hub decides, and the text of the copy's name (`conflict_copy_key`) are parameters.
- A hub that answers an accepted PUT with another digest than the one uploaded is not modelled.
- The record's timestamp, and the last unlocked read and write of the record in `run_conflict`, are one step.
- SyncRuns.EngineNeverDestroysUnsyncedWork: edits by other programs, and what open handles had not flushed when the process ended, count from the scan that sees them on, as the program promises. Bytes in the trash or the conflict store count as kept at the step that puts them there or relies on them; `Expire` later removes any trashed file, and any snapshot without a record, whatever its age.
- SyncRuns.RestartedKeeps: a request that was in flight may still reach the hub after the restart; in a run that is a change by another device.
- SyncTurns.EngineTakesTheTurn: of a key that is not open and under no queued move, whose row is hashed and tells the truth about the folder, without protection and with removals propagated; a device with more keys takes one turn for each.
- SyncReplies.LateReplyKeepsNewerEdit: the run from the start of the PUT to its landing, with anything but another engine step in between, which the program's one sync thread excludes.
- Cycle.Device.Pass: which job is next and which keys are looked at are parameters, as `Scheduler` and the feed decide them; answers of the hub to plain reads are arbitrary.
- DirectoryMove.RewriteKeepsMeaning: the empty destination and the absence of later structural jobs are hypotheses; `rename_dir_local` establishes the first in the ledger, and file renames retargeted to a reused source are outside it, as the program does not replay those exactly.
- Scheduler.LinearMeansSubmissionOrder: about jobs whose requests go through or are refused; a failed attempt leaves its row and the hub alone, and a row that is replaced while its own request is under way is not modelled.
- FeedLoops.Cursor.CatchUp: bounded by a number of full pages, since a hub that grows faster than it is read keeps the loop going.
- FeedLoops.Cursor.Rebuild: `prepare_listing_directories` only as a way for the listing to fail; keys are taken in any order.
- FeedSafety.StepSkips: that a queued job is tried again until it goes through, is refused or is dropped is the scheduler's business; under protection it waits.
- HomeTree.Tree.RenameKey: renames between keys of which neither is at or below the other. Its one caller follows a `rename(2)` that went through (`src/mirror/sync.rs:1866-1879`), which a file below a file and a file over its own directory are not. On its own the function would lose a file renamed below itself or onto a directory above it, and hang a directory under itself.
- HomeSnapshot.ApplySnapshot: the inputs are normalized, no key is both file and directory, and parents of explicit directories are listed, which is how the engine calls it.
- Handles.WriteStore.Open: bytes of a file are not modelled, nor are live mounts without a mirror and document files, which buffer instead.
- TreeIndex.Workspace.MoveFolder: paths are sequences of names; the program joins them with slashes, and names have none.
- Recovery.Replica.PushThenPull: no concurrent edits; the request outcomes of each key are a parameter.
- `rename_entry` in the document trees, document rendering, the blob cache and the context views: they would add only easy members.
