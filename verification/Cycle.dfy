/** The sync thread's loop (`cycle`, `drain_jobs` and `run_one` of `src/mirror/sync.rs`) over the
    engine's methods, with everybody else let in wherever the program holds no lock. Whatever it
    does is a run of the step machine, so what is proved of runs is true of the program. */
module Cycle {
  import opened Options
  import opened Keys
  import opened Reconcile
  import opened Jobs
  import opened Tables
  import opened Replicas
  import opened SyncSteps
  import opened SyncSafety
  import opened SyncRuns
  import SyncSnapshots
  import Engine

  /** How many more requests the work in hand can lead to. */
  function Rank(f: Flight): nat {
    if f.Idle? then 0
    else if f.Pulling? then 1
    else if f.PullChosen? || f.ConflictChosen? then 2
    else if f.TargetAsked? || f.CopySent? then 3
    else 4
  }

  lemma {:induction false} OnlyIdleIsLast(f: Flight)
    ensures Rank(f) == 0 <==> f.Idle?
  {
  }

  /** The engine's next step with what it has in hand. */
  predicate Continues(f: Flight, st: Step) {
    match st
    case NetworkFails => !f.Idle?
    case Land => Asking(f) && !f.reply.Waiting?
    case TargetIs(remote) => f.TargetAsked? && Present(remote)
    case NowIs(remote) => f.CopySent? && Present(remote)
    case SendPull => f.PullChosen?
    case LandPull(got) => f.Pulling? && Present(got)
    case KeepConflict => f.ConflictChosen?
    case _ => false
  }

  /** The steps a free engine may take. */
  predicate Begins(d: System, st: Step) {
    && Enabled(d, st)
    && (st.Scan? || st.RecoverJob? || st.ReconcileKey? || st.StartJob? || st.FollowRename? || st.Expire? || st.Restart?)
  }

  /** A free engine is on no job. */
  predicate Resting(d: Replica) { d.flight.Idle? ==> d.running.None? }

  /** The engine is where it was. */
  predicate SameRequest(d: Replica, e: Replica) { e.flight == d.flight && e.running == d.running }

  lemma {:induction false} GoneLeavesFlight(d: Replica, key: Key)
    ensures SameRequest(d, Gone(d, key)) && SameRequest(d, Deleted(d, key))
  {
    hide Rows.Enqueue, Rows.Keep;
  }

  // ── every chain of requests ends ──────────────────────────────────────────

  lemma {:induction false} TableActions(d: Replica, key: Key, ifMatch: Option<Digest>)
    ensures SameRequest(d, ToPush(d, key, ifMatch)) && SameRequest(d, ToDelete(d, key))
  {
    hide Rows.Ensure, MarkedDirty;
  }

  lemma {:induction false} FileActions(d: Replica, key: Key)
    ensures SameRequest(d, Trashed(d, key)) && SameRequest(d, Adopted(d, key))
  {
    hide Rows.Keep;
  }

  lemma {:induction false} ActedRank(d: Replica, key: Key, a: Action)
    requires d.flight.Idle?
    ensures Rank(Acted(d, key, a).flight) <= 2 && Acted(d, key, a).running == d.running
  {
    hide ToPush, ToDelete, Trashed, Adopted;
    TableActions(d, key, if a.Push? then a.ifMatch else None);
    FileActions(d, key);
  }

  lemma {:induction false} DecidedRank(d: Replica, key: Key, remote: Option<Digest>)
    ensures Rank(Decided(d, key, remote).flight) <= 2 && Decided(d, key, remote).running == d.running
  {
    hide PendingDirectoryMove, PendingRename, Acted, Decide, Blocked;
    ActedRank(d.(flight := Idle), key, Decide(LiveSha(d, key), Lookup(d.bases, key), remote));
  }

  lemma {:induction false} SettledRank(d: Replica)
    ensures Rank(Settle(d).flight) == Rank(d.flight) && Resting(Settle(d))
  {
    hide Rows.Keep;
  }

  lemma {:induction false} DecisionRank(d: Replica, key: Key, remote: Option<Digest>)
    ensures Rank(Settle(Decided(d, key, remote)).flight) <= 2 && Resting(Settle(Decided(d, key, remote)))
  {
    hide Decided, Settle;
    DecidedRank(d, key, remote);
    SettledRank(Decided(d, key, remote));
  }

  lemma {:induction false} DoneRank(d: Replica)
    ensures Done(d).flight.Idle? && Resting(Done(d)) && Failed(d).flight.Idle? && Resting(Failed(d))
  {
    hide Rows.Keep;
  }

  lemma {:induction false} LandPushRank(d: Replica)
    requires d.flight.Pushing? && !d.flight.reply.Waiting?
    ensures Rank(LandPush(d).flight) <= 2 && Resting(LandPush(d))
  {
    hide Decided, Settle, Done, Failed, ResultKey, Pushed;
    DoneRank(d);
    DoneRank(Pushed(d, d.flight.key, ResultKey(d.rows.jobs, d.flight.key), d.flight.sha));
    if d.flight.reply.Refused? {
      DecisionRank(d, d.flight.key, d.flight.reply.current);
    }
  }

  lemma {:induction false} LandDeleteRank(d: Replica)
    requires d.flight.Deleting? && !d.flight.reply.Waiting?
    ensures Rank(LandDelete(d).flight) <= 2 && Resting(LandDelete(d))
  {
    hide Decided, Settle, Done, Failed, ResultKey, DeletedRemotely;
    DoneRank(d);
    DoneRank(DeletedRemotely(d, d.flight.key, ResultKey(d.rows.jobs, d.flight.key), d.flight.fixed));
    if d.flight.reply.Refused? {
      DecisionRank(d, d.flight.key, d.flight.reply.current);
    }
  }

  lemma {:induction false} LandRenameRank(d: Replica)
    requires d.flight.Renaming? && !d.flight.reply.Waiting?
    ensures Rank(LandRename(d).flight) <= 3 && Resting(LandRename(d))
  {
    hide Decided, Settle, Done, Failed, ResultKey, SourceMissing, PushMoved;
    var local := ResultKey(d.rows.jobs, d.flight.to);
    DoneRank(d);
    DoneRank(SourceMissing(d, local));
    if d.flight.reply.Refused? {
      DecisionRank(PushMoved(d, local), d.flight.from, d.flight.reply.current);
    }
  }

  lemma {:induction false} LandCopyRank(d: Replica)
    requires d.flight.SendingCopy? && !d.flight.reply.Waiting?
    ensures Rank(LandCopy(d).flight) <= 3 && Resting(LandCopy(d))
  {
    hide Done, Failed, ResultKey, CopyRecorded, Scanned, Deferred, StillHolds;
    DoneRank(d);
    DoneRank(CopyRecorded(d));
    DoneRank(Deferred(Scanned(CopyRecorded(d), d.flight.key, Interactive), d.flight.key));
  }

  lemma {:induction false} LandingRank(d: Replica)
    requires Asking(d.flight) && !d.flight.reply.Waiting?
    ensures Rank(Landing(d).flight) <= 3 && Resting(Landing(d))
  {
    hide LandPush, LandDelete, LandRename, LandCopy, Resting;
    match d.flight {
      case Pushing(_, _, _, _) => LandPushRank(d);
      case Deleting(_, _, _, _) => LandDeleteRank(d);
      case Renaming(_, _, _, _) => LandRenameRank(d);
      case SendingCopy(_, _, _, _, _) => LandCopyRank(d);
    }
  }

  lemma {:induction false} LandedIdle(d: Replica, key: Key, sha: Digest)
    ensures Landed(d, key, sha).flight.Idle?
  {
    hide Rows.Keep;
  }

  lemma {:induction false} SnapshotIdle(d: Replica, key: Key, entry: Entry)
    requires key in d.folder
    ensures Snapshotted(d, key, entry).flight.Idle?
  {
  }

  lemma {:induction false} PreservedIdle(d: Replica, key: Key, entry: Entry, base: Option<Digest>)
    requires key in d.folder
    ensures Preserved(d, key, entry, base).flight.Idle?
  {
    hide Rows.Keep, Rows.Ensure, Snapshotted;
    SnapshotIdle(d, key, entry);
  }

  lemma {:induction false} TargetRank(d: Replica, remote: Option<Digest>)
    requires d.flight.TargetAsked?
    ensures Rank(TargetAnswered(d, remote).flight) <= 2 && Resting(TargetAnswered(d, remote))
  {
    hide Decided, Settle, Failed, ResultKey;
    DoneRank(d);
    DecisionRank(d.(bases := d.bases - {d.flight.localTo}), d.flight.to, remote);
  }

  lemma {:induction false} CopyRank(d: Replica, remote: Option<Digest>)
    requires d.flight.CopySent?
    ensures Rank(CopyAnswered(d, remote).flight) <= 2 && Resting(CopyAnswered(d, remote))
  {
    hide ToPush, Done;
    DoneRank(ToPush(d, d.flight.key, None));
  }

  lemma {:induction false} SendPullRank(d: Replica)
    requires d.flight.PullChosen?
    ensures Rank(PullBegin(d).flight) <= 1 && Resting(PullBegin(d))
  {
    hide Settle, StillExpected, MayLand;
    SettledRank(Deferred(d, d.flight.key));
    SettledRank(d.(flight := Idle));
  }

  lemma {:induction false} LandPullRank(d: Replica, got: Option<Digest>)
    requires d.flight.Pulling?
    ensures PullLand(d, got).flight.Idle? && Resting(PullLand(d, got))
  {
    hide Settle, Scanned, Landed, LandingAllowed;
    SettledRank(d.(flight := Idle));
    SettledRank(Deferred(Scanned(d, d.flight.key, Interactive), d.flight.key));
    if got.Some? {
      LandedIdle(d, d.flight.key, got.value);
      SettledRank(Landed(d, d.flight.key, got.value));
    }
  }

  lemma {:induction false} KeepConflictRank(d: Replica)
    requires d.flight.ConflictChosen?
    ensures RecordConflict(d).flight.Idle? && Resting(RecordConflict(d))
  {
    hide Settle, Preserved, StillExpected, ResultKey;
    var key := d.flight.key;
    SettledRank(d.(flight := Idle));
    SettledRank(Deferred(d, ResultKey(d.rows.jobs, key)));
    if key in d.folder {
      PreservedIdle(d, key, d.flight.entry, d.flight.base);
      SettledRank(Preserved(d, key, d.flight.entry, d.flight.base));
    }
  }

  /** Each answer leads to fewer requests than were possible before it: a chain of requests ends,
      and with it the job. */
  lemma {:induction false} ContinuingFalls(s: System, st: Step)
    requires Continues(s.mirror.flight, st)
    ensures Enabled(s, st) && EngineStep(st)
    ensures Rank(ByEngine(s, st).flight) < Rank(s.mirror.flight) && Resting(ByEngine(s, st))
  {
    hide Landing, TargetAnswered, CopyAnswered, PullBegin, PullLand, RecordConflict, Resting, Failed;
    var d := s.mirror;
    match st {
      case NetworkFails => DoneRank(d);
      case Land => LandingRank(d);
      case TargetIs(remote) => TargetRank(d, remote);
      case NowIs(remote) => CopyRank(d, remote);
      case SendPull => SendPullRank(d);
      case LandPull(got) => LandPullRank(d, got);
      case KeepConflict => KeepConflictRank(d);
    }
  }

  lemma {:induction false} RunPushRests(d: Replica, key: Key)
    ensures Resting(RunPush(d, key))
  {
    hide Rows.Keep, PendingDirectoryMove;
  }

  lemma {:induction false} RunConflictRests(d: Replica, key: Key, sha: Digest, copy: Key)
    ensures Resting(RunConflict(d, key, sha, copy))
  {
    hide Rows.Keep, ResultKey;
  }

  lemma {:induction false} RunDeleteRests(d: Replica, key: Key, ifMatch: Option<Digest>)
    ensures Resting(RunDelete(d, key, ifMatch))
  {
    hide Rows.Keep, ResultKey, DeleteMatch, NoTombstone;
  }

  lemma {:induction false} RunJobResting(d: Replica, job: Job, copy: Key)
    requires Resting(d)
    ensures Resting(RunJob(d, job, copy))
  {
    hide RunPush, RunDelete, RunConflict, ResultKey;
    var r := d.(running := Some(job.seqNo));
    match job.kind {
      case Push(key) => RunPushRests(r, key);
      case Delete(key, ifMatch) => RunDeleteRests(r, key, ifMatch);
      case ConflictUpload(key, sha, _) => RunConflictRests(r, key, sha, copy);
      case _ =>
    }
  }

  lemma {:induction false} FollowRests(d: Replica, from: Key, to: Key)
    requires Resting(d)
    ensures Resting(ApplyRemoteRename(d, from, to))
  {
    hide PendingDirectoryMove, CleanHere, MovedRow, MovedMember, Rows.Enqueue;
  }

  lemma {:induction false} ScanLeaves(d: Replica, key: Key, priority: Priority)
    ensures SameRequest(d, Scanned(d, key, priority))
  {
    hide PendingDirectoryMove, Rows.Enqueue, Gone, LiveSha, ClearTrash;
    GoneLeavesFlight(d.(outside := d.outside - {key}), key);
  }

  /** No directory move is queued. */
  predicate NoMoves(jobs: seq<Job>) {
    forall j <- jobs :: !j.kind.RenameDir?
  }

  lemma {:induction false} EnqueueAddsNoMove(rows: Rows, kind: JobKind, priority: Priority)
    requires NoMoves(rows.jobs) && !kind.RenameDir?
    ensures NoMoves(rows.Enqueue(kind, priority).jobs)
  {
  }

  lemma {:induction false} GoneAddsNoMove(d: Replica, key: Key)
    requires NoMoves(d.rows.jobs)
    ensures NoMoves(Gone(d, key).rows.jobs)
  {
    var left := d.rows.Keep(NotKey(key));
    assert NoMoves(left.jobs);
    EnqueueAddsNoMove(left, JobKind.Delete(key, None), Interactive);
    hide NoMoves, Rows.Enqueue, Rows.Keep;
  }

  lemma {:induction false} GoneLeavesFiles(d: Replica, key: Key)
    ensures var e := Gone(d, key);
            e.folder == d.folder && e.writers == d.writers && e.unsaved == d.unsaved && e.outside == d.outside
  {
    hide Rows.Enqueue, Rows.Keep;
  }

  /** A scan of one path touches no file, and leaves the path accounted for. */
  lemma {:induction false} ScanSettles(d: Replica, key: Key, priority: Priority)
    ensures var e := Scanned(d, key, priority);
            && e.folder == d.folder && e.writers == d.writers && e.unsaved == d.unsaved
            && (NoMoves(d.rows.jobs) && key !in d.writers ==> NoMoves(e.rows.jobs) && e.outside == d.outside - {key})
  {
    hide Gone, LiveSha, ClearTrash, Rows.Enqueue;
    var s := d.(outside := d.outside - {key});
    GoneLeavesFiles(s, key);
    if NoMoves(d.rows.jobs) {
      GoneAddsNoMove(s, key);
      EnqueueAddsNoMove(d.rows, JobKind.Push(key), priority);
    }
  }

  lemma {:induction false} RecoverLeaves(d: Replica, key: Key)
    ensures SameRequest(d, Recovered(d, key))
  {
    hide Rows.Enqueue, Rows.Has, JobKind.DedupeId;
  }

  lemma {:induction false} ProcessRests(d: Replica, keys: set<Key>, snapshots: set<Digest>)
    ensures Resting(Restarted(d)) && (Resting(d) ==> Resting(Expired(d, keys, snapshots)))
  {
  }

  /** Whatever a free engine begins, it is on a job only while a request is in hand. */
  lemma {:induction false} BeginningRests(s: System, st: Step)
    requires Begins(s, st)
    ensures Resting(ByEngine(s, st))
  {
    hide Scanned, Recovered, Decided, RunJob, ApplyRemoteRename, Expired, Restarted;
    var d := s.mirror;
    match st {
      case Scan(key, priority) => ScanLeaves(d, key, priority);
      case RecoverJob(key) => RecoverLeaves(d, key);
      case ReconcileKey(key, remote) => DecidedRank(d, key, remote);
      case StartJob(job, copy) => RunJobResting(d, job, copy);
      case FollowRename(from, to) => FollowRests(d, from, to);
      case Expire(keys, snapshots) => ProcessRests(d, keys, snapshots);
      case Restart => ProcessRests(d, {}, {});
    }
  }

  // ── what the others do ────────────────────────────────────────────────────

  /** A step of the user, another program, another device or the hub. */
  predicate Outside(f: Flight, st: Step) {
    && !EngineStep(st)
    && (st.Write? || st.WriteThrough? ==> st.sha != "")
    && (st.ChangeFolder? || st.ChangeHub? ==> Present(st.bytes))
    && (st.HubAnswers? ==> Asking(f) && f.reply.Waiting?)
  }

  lemma {:induction false} OutsideEnabled(s: System, st: Step)
    requires Outside(s.mirror.flight, st)
    ensures Enabled(s, st)
  {
  }

  lemma {:induction false} RekeyLeavesFlight(d: Replica, from: Key, to: Key)
    ensures SameRequest(d, Rekeyed(d, from, to)) && SameRequest(d, FileMoved(d, from, to))
  {
    hide Rows.Enqueue, RekeyedRows, MovedRow, MovedMember, MovedRecord;
  }

  lemma {:induction false} SaveOverLeavesFlight(d: Replica, from: Key, to: Key)
    requires to in d.entries
    ensures SameRequest(d, SavedOver(d, from, to))
  {
    hide Rows.Enqueue, Rows.Keep, MovedRow, MovedMember;
  }

  lemma {:induction false} RenameLeavesFlight(d: Replica, from: Key, to: Key)
    ensures SameRequest(d, RenameLocal(d, from, to))
  {
    hide Rows.Enqueue, Deleted, Rekeyed, FileMoved, SavedOver;
    var e := d.(epoch := d.epoch + 1);
    if to in d.entries {
      SaveOverLeavesFlight(e, from, to);
    }
    GoneLeavesFlight(e, to);
    var cleared := DestinationGone(e, to);
    assert SameRequest(d, cleared);
    hide DestinationGone;
    RekeyLeavesFlight(cleared, from, to);
    RekeyLeavesFlight(FileMoved(cleared, from, to), from, to);
  }

  lemma {:induction false} SaveLeavesFlight(d: Replica, key: Key, sha: Digest)
    ensures SameRequest(d, CommitWrite(d, key, sha)) && SameRequest(d, CommitHandle(d, key))
  {
    hide Rows.Enqueue, ClearTrash;
  }

  lemma {:induction false} HandleLeavesFlight(d: Replica, key: Key, sha: Digest, create: bool, truncate: bool)
    ensures SameRequest(d, OpenWrite(d, key, create, truncate)) && SameRequest(d, HandleWrite(d, key, sha))
    ensures SameRequest(d, CloseWrite(d, key))
  {
  }

  lemma {:induction false} ChangeLeavesFlight(d: Replica, key: Key, bytes: Option<Digest>)
    ensures SameRequest(d, External(d, key, bytes))
  {
  }

  lemma {:induction false} LocallyLeavesFlight(d: Replica, st: Step)
    requires LocalStep(st)
    ensures SameRequest(d, SyncRuns.Locally(d, st))
  {
    hide CommitWrite, OpenWrite, HandleWrite, CommitHandle, CloseWrite, Deleted, RenameLocal, External, SameRequest;
    match st {
      case Write(key, sha) => SaveLeavesFlight(d, key, sha);
      case OpenForWrite(key, create, truncate) => HandleLeavesFlight(d, key, "", create, truncate);
      case WriteThrough(key, sha) => HandleLeavesFlight(d, key, sha, false, false);
      case Flush(key) => SaveLeavesFlight(d, key, "");
      case Close(key) => HandleLeavesFlight(d, key, "", false, false);
      case Remove(key) => GoneLeavesFlight(d, key);
      case Move(from, to) => RenameLeavesFlight(d, from, to);
      case ChangeFolder(key, bytes) => ChangeLeavesFlight(d, key, bytes);
    }
  }

  /** The request in hand is not affected, except that it may get its answer. */
  lemma {:induction false} OutsideLeavesFlight(s: System, st: Step)
    requires Outside(s.mirror.flight, st) && Enabled(s, st)
    ensures Rank(Next(s, st).mirror.flight) == Rank(s.mirror.flight)
    ensures Next(s, st).mirror.running == s.mirror.running
  {
    hide SyncRuns.Locally, Verdict, Objects;
    if LocalStep(st) {
      LocallyLeavesFlight(s.mirror, st);
    }
  }

  /** What the hub's feed, a listing or a scan calls the engine's attention to. */
  datatype Notice = Look(key: Key) | Follow(from: Key, to: Key) | Recover(key: Key) | Rescan(key: Key)

  class Device {
    const mirror: Engine.Mirror
    var hub: map<Key, Digest>
    var copies: set<Digest>
    /** all that has happened since this object was made */
    ghost var trace: seq<System>
    ghost var steps: seq<Step>

    ghost function Now(): System
      reads this, mirror
    {
      System(mirror.State(), hub, copies)
    }

    ghost predicate Valid()
      reads this, mirror
    {
      Run(trace, steps) && trace[|steps|] == Now()
    }

    constructor (mirror: Engine.Mirror, hub: map<Key, Digest>)
      ensures Valid() && this.mirror == mirror && steps == []
    {
      this.mirror, this.hub, copies := mirror, hub, {};
      trace, steps := [System(mirror.State(), hub, {})], [];
    }

    /** What the guard of a whole run is: it begins in order, and no decision is about a tombstone
        of bytes that were neither agreed nor sent. */
    ghost predicate Guarded()
      reads this
    {
      trace != [] && SystemInv(trace[0]) && NoStrangerDecided(trace, steps)
    }

    /** Every step so far that took a file's name or the file away left its bytes somewhere, but
        for a remote rename onto a file still being written. */
    ghost predicate NothingLost()
      reads this
    {
      forall n: nat {:trigger steps[n]} :: n < |steps| && n + 1 < |trace| && EngineStep(steps[n]) && !TakesUnsavedAt(trace[n].mirror, steps[n])
        ==> KeepsBytes(trace[n].mirror, trace[n + 1].mirror)
    }

    lemma {:induction false} UnsyncedWorkSurvives()
      requires Valid() && Guarded()
      ensures SystemInv(Now()) && NothingLost()
    {
      hide SystemInv, KeepsBytes, TakesUnsavedAt, EngineStep, NoUnseenAdoption, NoStrangerDecided, Enabled, Next, Now;
      NoStrangerNoUnseen(trace, steps);
      RunInv(trace, steps, |steps|);
      forall n: nat | n < |steps| && EngineStep(steps[n]) && !TakesUnsavedAt(trace[n].mirror, steps[n])
        ensures KeepsBytes(trace[n].mirror, trace[n + 1].mirror)
      {
        EngineNeverDestroysUnsyncedWork(trace, steps, n);
      }
    }

    lemma {:induction false} RecordsHaveBytes()
      requires Valid()
      ensures trace != [] && (SyncSnapshots.Stored(trace[0].mirror) ==> SyncSnapshots.Stored(Now().mirror))
    {
      hide SyncSnapshots.Stored, Enabled, Next, Now;
      if SyncSnapshots.Stored(trace[0].mirror) {
        SyncSnapshots.ConflictsKeepTheirBytes(trace, steps, |steps|);
      }
    }

    ghost method Record(st: Step, before: System)
      requires Run(trace, steps) && trace[|steps|] == before && Enabled(before, st) && Now() == Next(before, st)
      modifies this`trace, this`steps
      ensures Valid() && trace == old(trace) + [Now()] && steps == old(steps) + [st]
    {
      hide Enabled, Next;
      ghost var now := Now();
      trace, steps := trace + [now], steps + [st];
      forall i: nat | i < |steps| ensures Enabled(trace[i], steps[i]) && trace[i + 1] == Next(trace[i], steps[i]) {
        if i < |steps| - 1 {
          assert steps[i] == old(steps)[i] && trace[i] == old(trace)[i] && trace[i + 1] == old(trace)[i + 1];
        }
      }
    }

    method Locally(st: Step)
      requires LocalStep(st)
      modifies mirror
      ensures mirror.State() == SyncRuns.Locally(old(mirror.State()), st)
    {
      hide CommitWrite, OpenWrite, HandleWrite, CommitHandle, CloseWrite, Deleted, RenameLocal, External, mirror.State;
      match st {
        case Write(key, sha) => mirror.CommitWrite(key, sha);
        case OpenForWrite(key, create, truncate) => mirror.OpenForWrite(key, create, truncate);
        case WriteThrough(key, sha) => mirror.WriteThrough(key, sha);
        case Flush(key) => var _ := mirror.CommitLocalFile(key);
        case Close(key) => mirror.NoteCloseWrite(key);
        case Remove(key) => mirror.DeleteLocal(key);
        case Move(from, to) => mirror.RenameLocal(from, to);
        case ChangeFolder(key, bytes) => mirror.ChangeFolder(key, bytes);
      }
    }

    method Continue(st: Step)
      requires Continues(mirror.flight, st)
      modifies mirror
      ensures mirror.State() == ByEngine(old(Now()), st)
    {
      hide Landing, TargetAnswered, CopyAnswered, PullBegin, PullLand, RecordConflict, Failed;
      assert mirror.State().flight == mirror.flight;
      hide mirror.State;
      match st {
        case NetworkFails => mirror.Fail();
        case Land => mirror.LandRequest();
        case TargetIs(remote) => mirror.TargetLand(remote);
        case NowIs(remote) => mirror.CopyLand(remote);
        case SendPull => mirror.PullKey();
        case LandPull(got) => mirror.LandPull(got);
        case KeepConflict => mirror.KeepConflict();
      }
    }

    method BeginWork(st: Step)
      requires Begins(Now(), st)
      modifies mirror
      ensures mirror.State() == ByEngine(old(Now()), st)
    {
      hide Scanned, Recovered, Decided, RunJob, ApplyRemoteRename, Expired, Restarted, mirror.State;
      match st {
        case Scan(key, priority) => mirror.ScanPath(key, priority);
        case RecoverJob(key) => mirror.RecoverJob(key);
        case ReconcileKey(key, remote) => mirror.ReconcileKey(key, remote);
        case StartJob(job, copy) => mirror.StartJob(job, copy);
        case FollowRename(from, to) => mirror.FollowRename(from, to);
        case Expire(keys, snapshots) => mirror.Housekeeping(keys, snapshots);
        case Restart => mirror.Open();
      }
    }

    /** The hub decides about the request in flight. */
    method Answered()
      requires Asking(mirror.flight)
      modifies this`hub, this`copies, mirror
      ensures Now() == Answer(old(Now()))
    {
      hide Verdict, Objects, mirror.State;
      var f := mirror.flight;
      assert mirror.State().flight == f by { FlightIsThere(); }
      mirror.TakeReply(Verdict(hub, f));
      if f.SendingCopy? {
        copies := copies + {f.sha};
      }
      hub := Objects(hub, f);
    }

    lemma {:induction false} FlightIsThere()
      ensures mirror.State().flight == mirror.flight && mirror.State().running == mirror.running
      ensures mirror.State().rows.jobs == mirror.jobs
    {
    }

    // ── recorded steps ──────────────────────────────────────────────────────

    /** A step of the others: the request in hand stays. */
    method Happen(st: Step)
      requires Valid() && Outside(mirror.flight, st)
      modifies this, mirror
      ensures Valid() && Now() == Next(old(Now()), st)
      ensures trace == old(trace) + [Now()] && steps == old(steps) + [st]
      ensures Rank(mirror.flight) == old(Rank(mirror.flight)) && mirror.running == old(mirror.running)
    {
      hide Run, mirror.State, SyncRuns.Locally, Answer;
      ghost var before := Now();
      FlightIsThere();
      OutsideEnabled(before, st);
      OutsideLeavesFlight(before, st);
      if LocalStep(st) {
        Locally(st);
      } else if st.ChangeHub? {
        hub := if st.bytes.Some? then hub[st.key := st.bytes.value] else hub - {st.key};
      } else {
        Answered();
      }
      FlightIsThere();
      Record(st, before);
    }

    /** The next step of the work in hand: fewer requests are left to come. */
    method Proceed(st: Step)
      requires Valid() && Continues(mirror.flight, st)
      modifies this, mirror
      ensures Valid() && Now() == Next(old(Now()), st)
      ensures trace == old(trace) + [Now()] && steps == old(steps) + [st]
      ensures Rank(mirror.flight) < old(Rank(mirror.flight)) && (mirror.flight.Idle? ==> mirror.running.None?)
    {
      hide Run, mirror.State, ByEngine, Continues, Enabled;
      ghost var before := Now();
      FlightIsThere();
      ContinuingFalls(before, st);
      Continue(st);
      FlightIsThere();
      Record(st, before);
    }

    method Begin(st: Step)
      requires Valid() && Begins(Now(), st)
      modifies this, mirror
      ensures Valid() && Now() == Next(old(Now()), st)
      ensures trace == old(trace) + [Now()] && steps == old(steps) + [st]
      ensures mirror.flight.Idle? ==> mirror.running.None?
    {
      hide Run, mirror.State, ByEngine, Enabled;
      ghost var before := Now();
      FlightIsThere();
      BeginningRests(before, st);
      BeginWork(st);
      FlightIsThere();
      Record(st, before);
    }

    // ── the loop ────────────────────────────────────────────────────────────

    /** Time passes: anybody but the engine may do anything, any number of times. */
    method Meanwhile()
      requires Valid()
      modifies this, mirror
      ensures Valid() && old(trace) <= trace && old(steps) <= steps
      ensures Rank(mirror.flight) == old(Rank(mirror.flight)) && mirror.running == old(mirror.running)
    {
      hide *;
      var events: seq<Step> := *;
      for i := 0 to |events|
        invariant Valid() && old(trace) <= trace && old(steps) <= steps
        invariant Rank(mirror.flight) == old(Rank(mirror.flight)) && mirror.running == old(mirror.running)
      {
        if Outside(mirror.flight, events[i]) {
          Happen(events[i]);
        }
      }
    }

    /** What the network brings: a digest, or that the hub has nothing. */
    method Download() returns (got: Option<Digest>)
      ensures Present(got)
    {
      got := *;
      if got == Some("") {
        got := None;
      }
    }

    /** The next step of the work in hand. An answer that has not come is given up. */
    method NextStep() returns (st: Step)
      requires !mirror.flight.Idle?
      ensures Continues(mirror.flight, st)
    {
      hide Present;
      var lost: bool := *;
      var got := Download();
      match mirror.flight {
        case PullChosen(_, _) => st := SendPull;
        case ConflictChosen(_, _, _, _) => st := KeepConflict;
        case Pulling(_, _, _, _) => st := if lost then NetworkFails else LandPull(got);
        case TargetAsked(_, _) => st := if lost then NetworkFails else TargetIs(got);
        case CopySent(_, _) => st := if lost then NetworkFails else NowIs(got);
        case Pushing(_, _, _, reply) => st := if lost || reply.Waiting? then NetworkFails else Land;
        case Deleting(_, _, _, reply) => st := if lost || reply.Waiting? then NetworkFails else Land;
        case Renaming(_, _, _, reply) => st := if lost || reply.Waiting? then NetworkFails else Land;
        case SendingCopy(_, _, _, _, reply) => st := if lost || reply.Waiting? then NetworkFails else Land;
      }
    }

    lemma {:induction false} FieldsAre()
      ensures var d := mirror.State();
              && d.folder == mirror.folder && d.writers == mirror.writers && d.unsaved == mirror.unsaved
              && d.outside == mirror.outside && d.rows.jobs == mirror.jobs
              && d.flight == mirror.flight && d.running == mirror.running
    {
    }

    method ScanNext(key: Key)
      requires Valid() && mirror.flight.Idle? && mirror.running.None?
      modifies this, mirror
      ensures Valid() && mirror.flight.Idle? && mirror.running.None?
      ensures old(trace) <= trace && old(steps) <= steps
      ensures mirror.folder == old(mirror.folder) && mirror.writers == old(mirror.writers) && mirror.unsaved == old(mirror.unsaved)
      ensures NoMoves(old(mirror.jobs)) && key !in old(mirror.writers)
              ==> NoMoves(mirror.jobs) && mirror.outside == old(mirror.outside) - {key}
    {
      hide Run, mirror.State, Scanned, NoMoves, Valid;
      ghost var d := mirror.State();
      FieldsAre();
      MayBegin(Scan(key, Discovered));
      Begin(Scan(key, Discovered));
      FieldsAre();
      ScanSettles(d, key, Discovered);
      ScanLeaves(d, key, Discovered);
    }

    method Crash()
      requires Valid()
      modifies this, mirror
      ensures Valid() && mirror.flight.Idle? && mirror.running.None?
      ensures old(trace) <= trace && steps == old(steps) + [Restart]
      ensures mirror.folder == old(mirror.folder) && mirror.jobs == old(mirror.jobs) && mirror.writers == mirror.unsaved == {}
    {
      hide Run, mirror.State, Valid;
      FieldsAre();
      Begin(Restart);
      FieldsAre();
    }

    // ── a new process ───────────────────────────────────────────────────────

    /** The process ends, in the middle of whatever it was doing, and starts again. Before anything
        else it scans the folder: then every file is accounted for by a row again, unless a directory
        move is still to be recovered. No file is touched. */
    method Reopen()
      requires Valid()
      modifies this, mirror
      ensures Valid() && mirror.flight.Idle? && mirror.running.None?
      ensures old(trace) <= trace && old(steps) < steps && steps[|old(steps)|] == Restart
      ensures mirror.folder == old(mirror.folder)
      ensures NoMoves(old(mirror.jobs)) ==> forall k <- mirror.folder :: k !in mirror.outside + mirror.unsaved
    {
      hide Run, mirror.State, NoMoves, Valid;
      Crash();
      var left := mirror.folder.Keys + mirror.entries.Keys;
      while left != {}
        invariant Valid() && mirror.flight.Idle? && mirror.running.None?
        invariant old(trace) <= trace && old(steps) < steps && steps[|old(steps)|] == Restart
        invariant mirror.folder == old(mirror.folder) && mirror.writers == mirror.unsaved == {}
        invariant NoMoves(old(mirror.jobs)) ==> NoMoves(mirror.jobs) && forall k <- mirror.folder :: k in mirror.outside ==> k in left
        decreases |left|
      {
        var key :| key in left;
        ScanNext(key);
        left := left - {key};
      }
    }

    /** `run_one` to its end: whatever the hub answers and whoever interferes, the engine comes
        back free, after at most four answers, or a new process does. */
    method RunToEnd()
      requires Valid() && (mirror.flight.Idle? ==> mirror.running.None?)
      modifies this, mirror
      ensures Valid() && mirror.flight.Idle? && mirror.running.None?
      ensures old(trace) <= trace && old(steps) <= steps
    {
      hide *;
      while !mirror.flight.Idle?
        invariant Valid() && (mirror.flight.Idle? ==> mirror.running.None?)
        invariant old(trace) <= trace && old(steps) <= steps
        decreases Rank(mirror.flight)
      {
        ghost var before := mirror.flight;
        Meanwhile();
        OnlyIdleIsLast(before);
        OnlyIdleIsLast(mirror.flight);
        var crash: bool := *;
        if crash {
          Reopen();
          return;
        }
        var st := NextStep();
        Proceed(st);
      }
    }

    method Work(st: Step)
      requires Valid() && Begins(Now(), st)
      modifies this, mirror
      ensures Valid() && mirror.flight.Idle? && mirror.running.None?
      ensures old(trace) <= trace && old(steps) < steps && steps[|old(steps)|] == st
    {
      hide *;
      Begin(st);
      RunToEnd();
    }

    lemma {:induction false} MayBegin(st: Step)
      requires mirror.flight.Idle? && mirror.running.None?
      requires st.Scan? || st.RecoverJob? || st.FollowRename? || (st.ReconcileKey? && Present(st.remote)) || (st.StartJob? && st.job in mirror.jobs)
      ensures Begins(Now(), st)
    {
    }

    /** `drain_jobs`: at most `budget` jobs, one after the other; which one comes next is `Scheduler`'s
        business. */
    method DrainJobs(budget: nat)
      requires Valid() && mirror.flight.Idle? && mirror.running.None?
      modifies this, mirror
      ensures Valid() && mirror.flight.Idle? && mirror.running.None?
      ensures old(trace) <= trace && old(steps) <= steps
    {
      hide *;
      for n := 0 to budget
        invariant Valid() && mirror.flight.Idle? && mirror.running.None?
        invariant old(trace) <= trace && old(steps) <= steps
      {
        Free();
        var i: nat, copy: Key := *, *;
        if i >= |mirror.jobs| {
          return;
        }
        MayBegin(StartJob(mirror.jobs[i], copy));
        Work(StartJob(mirror.jobs[i], copy));
      }
    }

    /** Time passes while the engine is free. */
    method Free()
      requires Valid() && mirror.flight.Idle? && mirror.running.None?
      modifies this, mirror
      ensures Valid() && mirror.flight.Idle? && mirror.running.None?
      ensures old(trace) <= trace && old(steps) <= steps
    {
      hide *;
      OnlyIdleIsLast(mirror.flight);
      Meanwhile();
      OnlyIdleIsLast(mirror.flight);
    }

    /** Everything the engine's attention is called to, each with the hub's answer about it. */
    method Attend(notices: seq<Notice>)
      requires Valid() && mirror.flight.Idle? && mirror.running.None?
      modifies this, mirror
      ensures Valid() && mirror.flight.Idle? && mirror.running.None?
      ensures old(trace) <= trace && old(steps) <= steps
    {
      hide *;
      for i := 0 to |notices|
        invariant Valid() && mirror.flight.Idle? && mirror.running.None?
        invariant old(trace) <= trace && old(steps) <= steps
      {
        Free();
        var st;
        match notices[i] {
          case Look(key) =>
            var remote := Download();
            st := ReconcileKey(key, remote);
          case Follow(from, to) => st := FollowRename(from, to);
          case Recover(key) => st := RecoverJob(key);
          case Rescan(key) => st := Scan(key, Discovered);
        }
        MayBegin(st);
        Work(st);
      }
    }

    /** `housekeeping`: what has been in the trash or the conflict store for too long, and is not
        needed by a record. */
    method KeepHouse(keys: set<Key>, snapshots: set<Digest>)
      requires Valid() && mirror.flight.Idle? && mirror.running.None?
      modifies this, mirror
      ensures Valid() && mirror.flight.Idle? && mirror.running.None?
      ensures old(trace) <= trace && old(steps) <= steps
    {
      hide *;
      if !mirror.cfg.protected {
        MayExpire(keys, snapshots - mirror.Referenced());
        Work(Expire(keys, snapshots - mirror.Referenced()));
      }
    }

    lemma {:induction false} MayExpire(keys: set<Key>, snapshots: set<Digest>)
      requires mirror.flight.Idle? && mirror.running.None? && !mirror.cfg.protected
      requires snapshots !! mirror.Referenced()
      ensures Begins(Now(), Expire(keys, snapshots))
    {
    }

    /** One pass: what has been noticed in the folder, uploads, what the hub's feed or listing
        tells, and what that left to do. If the run was in order when it began, the ledger is in
        order now, nothing unsynced has been destroyed on the way, and every conflict record still
        has its bytes; even if the process has crashed and come back in between. */
    method Pass(local: seq<Notice>, remote: seq<Notice>, keys: set<Key>, snapshots: set<Digest>)
      requires Valid() && mirror.flight.Idle? && mirror.running.None?
      modifies this, mirror
      ensures Valid() && mirror.flight.Idle? && mirror.running.None?
      ensures old(trace) <= trace && old(steps) <= steps
      ensures Guarded() ==> SystemInv(Now()) && NothingLost()
      ensures trace != [] && SyncSnapshots.Stored(trace[0].mirror) ==> SyncSnapshots.Stored(Now().mirror)
    {
      hide *;
      Attend(local);
      DrainJobs(64);
      Attend(remote);
      DrainJobs(64);
      KeepHouse(keys, snapshots);
      if Guarded() {
        UnsyncedWorkSurvives();
      }
      RecordsHaveBytes();
    }
  }
}
