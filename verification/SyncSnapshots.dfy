/** The conflict store: a record's bytes are there as long as the record is, through crashes and
    through the expiry of old snapshots. */
module SyncSnapshots {
  import opened Options
  import opened Keys
  import opened Reconcile
  import opened Jobs
  import opened Tables
  import opened Replicas
  import opened SyncSteps
  import opened SyncRuns

  /** Every record's snapshot is in the store, and so is that of the record being uploaded. */
  predicate Stored(d: Replica) {
    && (forall k <- d.conflicts :: d.conflicts[k].localSha in d.kept)
    && (d.flight.SendingCopy? ==> d.flight.record.localSha in d.kept)
  }

  /** A step that neither touches the records nor takes anything from the store. */
  predicate Leaves(d: Replica, e: Replica) {
    e.conflicts == d.conflicts && d.kept <= e.kept && (e.flight.SendingCopy? ==> e.flight == d.flight)
  }

  lemma {:induction false} LeavesStored(d: Replica, e: Replica)
    requires Stored(d) && Leaves(d, e)
    ensures Stored(e)
  {
  }

  // ── the user and other programs ───────────────────────────────────────────

  lemma {:induction false} GoneLeaves(d: Replica, key: Key)
    ensures Leaves(d, Gone(d, key))
  {
    hide Rows.Enqueue, Rows.Keep;
  }

  lemma {:induction false} DeletedLeaves(d: Replica, key: Key)
    ensures Leaves(d, Deleted(d, key))
  {
    hide Gone;
    GoneLeaves(d.(folder := d.folder - {key}, unsaved := d.unsaved - {key}, outside := d.outside - {key}), key);
  }

  lemma {:induction false} DestinationLeaves(d: Replica, to: Key)
    ensures Leaves(d, DestinationGone(d, to))
  {
    hide Deleted, Rows.Enqueue;
    DeletedLeaves(d, to);
  }

  lemma {:induction false} SavedOverLeaves(d: Replica, from: Key, to: Key)
    requires to in d.entries
    ensures Leaves(d, SavedOver(d, from, to))
  {
    hide MovedRow, MovedMember, Rows.Enqueue, Rows.Keep;
  }

  /** A record follows its file, with its bytes. */
  lemma {:induction false} RekeyedStored(d: Replica, from: Key, to: Key)
    requires Stored(d)
    ensures Stored(Rekeyed(FileMoved(d, from, to), from, to))
  {
    hide MovedRow, MovedMember, RekeyedRows, Rows.Enqueue;
  }

  lemma {:induction false} RenameStored(d: Replica, from: Key, to: Key)
    requires Stored(d)
    ensures Stored(RenameLocal(d, from, to))
  {
    hide Stored, SavedOver, DestinationGone, Rekeyed, FileMoved;
    var e := d.(epoch := d.epoch + 1);
    LeavesStored(d, e);
    if to in d.entries {
      SavedOverLeaves(e, from, to);
      LeavesStored(e, SavedOver(e, from, to));
    }
    DestinationLeaves(e, to);
    LeavesStored(e, DestinationGone(e, to));
    RekeyedStored(DestinationGone(e, to), from, to);
  }

  lemma {:induction false} SaveLeaves(d: Replica, key: Key, sha: Digest)
    ensures Leaves(d, CommitWrite(d, key, sha)) && Leaves(d, CommitHandle(d, key))
  {
    hide Rows.Enqueue, ClearTrash;
  }

  lemma {:induction false} HandleLeaves(d: Replica, key: Key, sha: Digest, create: bool, truncate: bool)
    ensures Leaves(d, OpenWrite(d, key, create, truncate)) && Leaves(d, HandleWrite(d, key, sha))
    ensures Leaves(d, CloseWrite(d, key))
  {
  }

  lemma {:induction false} ChangeLeaves(d: Replica, key: Key, bytes: Option<Digest>)
    ensures Leaves(d, External(d, key, bytes))
  {
  }

  lemma {:induction false} LocallyStored(d: Replica, st: Step)
    requires Stored(d) && LocalStep(st)
    ensures Stored(Locally(d, st))
  {
    hide Stored, Leaves, RenameLocal, CommitWrite, CommitHandle, Deleted, OpenWrite, HandleWrite, CloseWrite, External;
    match st {
      case Move(from, to) => RenameStored(d, from, to);
      case Write(key, sha) => SaveLeaves(d, key, sha); LeavesStored(d, CommitWrite(d, key, sha));
      case Flush(key) => SaveLeaves(d, key, ""); LeavesStored(d, CommitHandle(d, key));
      case Remove(key) => DeletedLeaves(d, key); LeavesStored(d, Deleted(d, key));
      case OpenForWrite(key, create, truncate) => HandleLeaves(d, key, "", create, truncate); LeavesStored(d, Locally(d, st));
      case WriteThrough(key, sha) => HandleLeaves(d, key, sha, false, false); LeavesStored(d, Locally(d, st));
      case Close(key) => HandleLeaves(d, key, "", false, false); LeavesStored(d, Locally(d, st));
      case ChangeFolder(key, bytes) => ChangeLeaves(d, key, bytes); LeavesStored(d, Locally(d, st));
    }
  }

  // ── the engine ────────────────────────────────────────────────────────────

  lemma {:induction false} DoneLeaves(d: Replica)
    ensures Leaves(d, Done(d)) && Leaves(d, Failed(d)) && Leaves(d, Settle(d))
  {
    hide Rows.Keep;
  }

  /** One step, then the end of the work. */
  lemma {:induction false} SettleLeaves(d: Replica, e: Replica)
    requires Leaves(d, e)
    ensures Leaves(d, Settle(e)) && Leaves(d, Done(e))
  {
    hide Settle, Done;
    DoneLeaves(e);
  }

  lemma {:induction false} ScannedLeaves(d: Replica, key: Key, priority: Priority)
    ensures Leaves(d, Scanned(d, key, priority))
  {
    hide PendingDirectoryMove, Gone, LiveSha, ClearTrash, Rows.Enqueue;
    GoneLeaves(d.(outside := d.outside - {key}), key);
  }

  lemma {:induction false} RecoveredLeaves(d: Replica, key: Key)
    ensures Leaves(d, Recovered(d, key))
  {
    hide Rows.Enqueue, Rows.Has, JobKind.DedupeId;
  }

  lemma {:induction false} TableActionsLeave(d: Replica, key: Key, ifMatch: Option<Digest>)
    ensures Leaves(d, ToPush(d, key, ifMatch)) && Leaves(d, ToDelete(d, key))
  {
    hide Rows.Ensure, MarkedDirty;
  }

  lemma {:induction false} FileActionsLeave(d: Replica, key: Key)
    ensures Leaves(d, Trashed(d, key)) && Leaves(d, Adopted(d, key))
  {
    hide Rows.Keep;
  }

  lemma {:induction false} ActedLeaves(d: Replica, key: Key, a: Action)
    ensures Leaves(d, Acted(d, key, a))
  {
    hide ToPush, ToDelete, Trashed, Adopted;
    TableActionsLeave(d, key, if a.Push? then a.ifMatch else None);
    FileActionsLeave(d, key);
  }

  lemma {:induction false} DecidedLeaves(d: Replica, key: Key, remote: Option<Digest>)
    ensures Leaves(d, Decided(d, key, remote))
  {
    hide PendingDirectoryMove, PendingRename, Acted, Decide, LiveSha, Blocked;
    ActedLeaves(d.(flight := Idle), key, Decide(LiveSha(d, key), Lookup(d.bases, key), remote));
  }

  lemma {:induction false} PullBeginLeaves(d: Replica)
    requires d.flight.PullChosen?
    ensures Leaves(d, PullBegin(d))
  {
    hide Settle, StillExpected, MayLand;
    SettleLeaves(d, Deferred(d, d.flight.key));
    SettleLeaves(d, d.(flight := Idle));
  }

  lemma {:induction false} LandedLeaves(d: Replica, key: Key, sha: Digest)
    ensures Leaves(d, Landed(d, key, sha))
  {
    hide Rows.Keep, ClearTrash;
  }

  lemma {:induction false} PullLandLeaves(d: Replica, got: Option<Digest>)
    requires d.flight.Pulling?
    ensures Leaves(d, PullLand(d, got))
  {
    hide Settle, LandingAllowed, Landed, Scanned;
    SettleLeaves(d, d.(flight := Idle));
    ScannedLeaves(d, d.flight.key, Interactive);
    SettleLeaves(d, Deferred(Scanned(d, d.flight.key, Interactive), d.flight.key));
    if got.Some? {
      LandedLeaves(d, d.flight.key, got.value);
      SettleLeaves(d, Landed(d, d.flight.key, got.value));
    }
  }

  lemma {:induction false} SnapshotLeaves(d: Replica, key: Key, entry: Entry)
    requires key in d.folder
    ensures Leaves(d, Snapshotted(d, key, entry)) && d.folder[key].sha in Snapshotted(d, key, entry).kept
  {
  }

  lemma {:induction false} PreservedStored(d: Replica, key: Key, entry: Entry, base: Option<Digest>)
    requires Stored(d) && key in d.folder
    ensures Stored(Preserved(d, key, entry, base))
  {
    hide Rows.Keep, Rows.Ensure, Snapshotted;
    SnapshotLeaves(d, key, entry);
  }

  /** What is recorded has been put into the store. */
  lemma {:induction false} RecordConflictStored(d: Replica)
    requires Stored(d) && d.flight.ConflictChosen?
    ensures Stored(RecordConflict(d))
  {
    hide Stored, Settle, StillExpected, ResultKey, Preserved;
    var key := d.flight.key;
    SettleLeaves(d, d.(flight := Idle));
    LeavesStored(d, Settle(d.(flight := Idle)));
    var local := ResultKey(d.rows.jobs, key);
    SettleLeaves(d, Deferred(d, local));
    LeavesStored(d, Settle(Deferred(d, local)));
    if key in d.folder {
      var p := Preserved(d, key, d.flight.entry, d.flight.base);
      PreservedStored(d, key, d.flight.entry, d.flight.base);
      DoneLeaves(p);
      LeavesStored(p, Settle(p));
    }
  }

  lemma {:induction false} RunPushLeaves(d: Replica, key: Key)
    ensures Leaves(d, RunPush(d, key))
  {
    hide Done, Failed, PendingDirectoryMove;
    DoneLeaves(d);
  }

  lemma {:induction false} RunDeleteLeaves(d: Replica, key: Key, ifMatch: Option<Digest>)
    ensures Leaves(d, RunDelete(d, key, ifMatch))
  {
    hide Done, NoTombstone, ResultKey, DeleteMatch;
    SettleLeaves(d, d.(entries := NoTombstone(d.entries, ResultKey(d.rows.jobs, key))));
  }

  lemma {:induction false} RunConflictStored(d: Replica, key: Key, sha: Digest, copy: Key)
    requires Stored(d)
    ensures Stored(RunConflict(d, key, sha, copy))
  {
    hide Done, ResultKey;
    var s := if sha in d.kept || key !in d.folder then d else d.(kept := d.kept + {d.folder[key].sha});
    DoneLeaves(s);
  }

  lemma {:induction false} RunJobStored(d: Replica, job: Job, copy: Key)
    requires Stored(d)
    ensures Stored(RunJob(d, job, copy))
  {
    hide Stored, RunPush, RunDelete, RunConflict, ResultKey;
    var r := d.(running := Some(job.seqNo));
    LeavesStored(d, r);
    match job.kind {
      case Push(key) => RunPushLeaves(r, key); LeavesStored(r, RunPush(r, key));
      case Delete(key, ifMatch) => RunDeleteLeaves(r, key, ifMatch); LeavesStored(r, RunDelete(r, key, ifMatch));
      case Rename(from, to) => LeavesStored(r, RunRename(r, from, to));
      case ConflictUpload(key, sha, _) => RunConflictStored(r, key, sha, copy);
      case _ =>
    }
  }

  lemma {:induction false} DecisionLeaves(d: Replica, e: Replica, key: Key, remote: Option<Digest>)
    requires Leaves(d, e) && !e.flight.SendingCopy?
    ensures Leaves(d, Settle(Decided(e, key, remote)))
  {
    hide Decided, Settle;
    DecidedLeaves(e, key, remote);
    SettleLeaves(e, Decided(e, key, remote));
  }

  lemma {:induction false} LandPushLeaves(d: Replica)
    requires d.flight.Pushing?
    ensures Leaves(d, LandPush(d))
  {
    hide Decided, Settle, Done, Failed, ResultKey, Confirmed;
    DoneLeaves(d);
    SettleLeaves(d, Pushed(d, d.flight.key, ResultKey(d.rows.jobs, d.flight.key), d.flight.sha));
    if d.flight.reply.Refused? {
      DecisionLeaves(d, d, d.flight.key, d.flight.reply.current);
    }
  }

  lemma {:induction false} LandDeleteLeaves(d: Replica)
    requires d.flight.Deleting?
    ensures Leaves(d, LandDelete(d))
  {
    hide Decided, Settle, Done, Failed, ResultKey, NoTombstone;
    DoneLeaves(d);
    SettleLeaves(d, DeletedRemotely(d, d.flight.key, ResultKey(d.rows.jobs, d.flight.key), d.flight.fixed));
    if d.flight.reply.Refused? {
      DecisionLeaves(d, d, d.flight.key, d.flight.reply.current);
    }
  }

  lemma {:induction false} PushMovedLeaves(d: Replica, local: Key)
    ensures Leaves(d, PushMoved(d, local)) && PushMoved(d, local).flight == d.flight
    ensures Leaves(d, SourceMissing(d, local))
  {
    hide Rows.Ensure, MarkedDirty;
  }

  lemma {:induction false} LandRenameLeaves(d: Replica)
    requires d.flight.Renaming?
    ensures Leaves(d, LandRename(d))
  {
    hide Decided, Settle, Done, Failed, ResultKey, PushMoved, SourceMissing;
    var local := ResultKey(d.rows.jobs, d.flight.to);
    DoneLeaves(d);
    PushMovedLeaves(d, local);
    SettleLeaves(d, SourceMissing(d, local));
    if d.flight.reply.Refused? {
      DecisionLeaves(d, PushMoved(d, local), d.flight.from, d.flight.reply.current);
    }
  }

  /** The record written back is the one whose bytes were sent. */
  lemma {:induction false} LandCopyStored(d: Replica)
    requires Stored(d) && d.flight.SendingCopy?
    ensures Stored(LandCopy(d))
  {
    var c := CopyRecorded(d);
    assert Stored(c) by { hide ResultKey; }
    hide Stored, Done, Failed, ResultKey, CopyRecorded, Scanned, StillHolds;
    DoneLeaves(d);
    LeavesStored(d, Failed(d));
    DoneLeaves(c);
    LeavesStored(c, Done(c));
    LeavesStored(c, c.(flight := CopySent(d.flight.key, Lookup(d.entries, d.flight.key))));
    ScannedLeaves(c, d.flight.key, Interactive);
    SettleLeaves(c, Deferred(Scanned(c, d.flight.key, Interactive), d.flight.key));
    LeavesStored(c, Done(Deferred(Scanned(c, d.flight.key, Interactive), d.flight.key)));
  }

  lemma {:induction false} LandingStored(d: Replica)
    requires Stored(d) && Asking(d.flight)
    ensures Stored(Landing(d))
  {
    hide Stored, LandPush, LandDelete, LandRename, LandCopy;
    match d.flight {
      case Pushing(_, _, _, _) => LandPushLeaves(d); LeavesStored(d, LandPush(d));
      case Deleting(_, _, _, _) => LandDeleteLeaves(d); LeavesStored(d, LandDelete(d));
      case Renaming(_, _, _, _) => LandRenameLeaves(d); LeavesStored(d, LandRename(d));
      case SendingCopy(_, _, _, _, _) => LandCopyStored(d);
    }
  }

  lemma {:induction false} TargetLeaves(d: Replica, remote: Option<Digest>)
    requires d.flight.TargetAsked?
    ensures Leaves(d, TargetAnswered(d, remote))
  {
    hide Decided, Settle, Failed, ResultKey;
    DoneLeaves(d);
    DecisionLeaves(d, d.(bases := d.bases - {d.flight.localTo}), d.flight.to, remote);
  }

  lemma {:induction false} CopyAnsweredLeaves(d: Replica, remote: Option<Digest>)
    requires d.flight.CopySent?
    ensures Leaves(d, CopyAnswered(d, remote))
  {
    hide ToPush, Done;
    TableActionsLeave(d, d.flight.key, None);
    SettleLeaves(d, ToPush(d, d.flight.key, None));
  }

  lemma {:induction false} FollowLeaves(d: Replica, from: Key, to: Key)
    ensures Leaves(d, ApplyRemoteRename(d, from, to))
  {
    hide PendingDirectoryMove, CleanHere, MovedRow, MovedMember, Rows.Enqueue;
  }

  lemma {:induction false} EngineStored(s: System, st: Step)
    requires Stored(s.mirror) && EngineStep(st) && Enabled(s, st)
    ensures Stored(ByEngine(s, st))
  {
    var d := s.mirror;
    hide Stored, Failed, Scanned, Recovered, Decided, PullBegin, PullLand, RecordConflict, RunJob, Landing,
      TargetAnswered, CopyAnswered, ApplyRemoteRename, Expired, Restarted;
    match st {
      case NetworkFails => DoneLeaves(d); LeavesStored(d, Failed(d));
      case Scan(key, priority) => ScannedLeaves(d, key, priority); LeavesStored(d, Scanned(d, key, priority));
      case RecoverJob(key) => RecoveredLeaves(d, key); LeavesStored(d, Recovered(d, key));
      case ReconcileKey(key, remote) => DecidedLeaves(d, key, remote); LeavesStored(d, Decided(d, key, remote));
      case SendPull => PullBeginLeaves(d); LeavesStored(d, PullBegin(d));
      case LandPull(got) => PullLandLeaves(d, got); LeavesStored(d, PullLand(d, got));
      case KeepConflict => RecordConflictStored(d);
      case StartJob(job, copy) => RunJobStored(d, job, copy);
      case Land => LandingStored(d);
      case TargetIs(remote) => TargetLeaves(d, remote); LeavesStored(d, TargetAnswered(d, remote));
      case NowIs(remote) => CopyAnsweredLeaves(d, remote); LeavesStored(d, CopyAnswered(d, remote));
      case FollowRename(from, to) => FollowLeaves(d, from, to); LeavesStored(d, ApplyRemoteRename(d, from, to));
      case Expire(keys, snapshots) => ExpiredStored(d, keys, snapshots);
      case Restart => RestartedStored(d);
    }
  }

  /** Only snapshots that no record needs expire. */
  lemma {:induction false} ExpiredStored(d: Replica, keys: set<Key>, snapshots: set<Digest>)
    requires Stored(d) && d.flight.Idle? && Unreferenced(d.conflicts, snapshots)
    ensures Stored(Expired(d, keys, snapshots))
  {
  }

  lemma {:induction false} RestartedStored(d: Replica)
    requires Stored(d)
    ensures Stored(Restarted(d))
  {
  }

  // ── runs ──────────────────────────────────────────────────────────────────

  lemma {:induction false} StepStored(s: System, st: Step)
    requires Stored(s.mirror) && Enabled(s, st)
    ensures Stored(Next(s, st).mirror)
  {
    hide Locally, ByEngine, Verdict, Objects;
    if LocalStep(st) {
      LocallyStored(s.mirror, st);
    } else if EngineStep(st) {
      EngineStored(s, st);
    }
  }

  /** In every run, crashes and expiry included, the bytes of a recorded conflict are in the store
      for as long as there is a record of it. */
  lemma {:induction false} ConflictsKeepTheirBytes(trace: seq<System>, steps: seq<Step>, n: nat)
    requires Run(trace, steps) && Stored(trace[0].mirror) && n < |trace|
    ensures Stored(trace[n].mirror)
  {
    hide Stored, Enabled, Next;
    if n > 0 {
      ConflictsKeepTheirBytes(trace, steps, n - 1);
      var st := steps[n - 1];
      StepStored(trace[n - 1], st);
    }
  }
}
