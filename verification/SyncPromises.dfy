/** What the engine promises over whole runs besides keeping bytes: protected mode only adds,
    nothing unseen is overwritten upstream, and late replies do not hide newer edits. */
module SyncPromises {
  import opened Options
  import opened Keys
  import opened Reconcile
  import opened Jobs
  import opened Tables
  import opened Replicas
  import opened SyncSteps
  import opened SyncInvariant
  import opened SyncLandings
  import opened SyncRuns

  // ── what local work leaves alone ──────────────────────────────────────────

  /** Local operations start and end no request, and learn nothing from the hub. */
  predicate SameEngine(d: Replica, e: Replica) {
    e.cfg == d.cfg && e.flight == d.flight && e.running == d.running && e.known == d.known && e.kept == d.kept
  }

  lemma {:induction false} GoneLeaves(d: Replica, key: Key)
    ensures SameEngine(d, Gone(d, key))
  {
    hide Rows.Enqueue, Rows.Keep;
  }

  lemma {:induction false} DestinationGoneLeaves(d: Replica, to: Key)
    ensures SameEngine(d, DestinationGone(d, to))
  {
    hide Rows.Enqueue, Gone;
    GoneLeaves(d.(folder := d.folder - {to}, unsaved := d.unsaved - {to}, outside := d.outside - {to}), to);
  }

  lemma {:induction false} RekeyedLeaves(d: Replica, from: Key, to: Key)
    ensures SameEngine(d, Rekeyed(FileMoved(d, from, to), from, to))
  {
    hide Rows.Enqueue, RekeyedRows, MovedRow, MovedMember, MovedRecord;
  }

  lemma {:induction false} SavedOverLeaves(d: Replica, from: Key, to: Key)
    requires to in d.entries
    ensures SameEngine(d, SavedOver(d, from, to))
  {
    hide Rows.Enqueue, Rows.Keep, MovedMember;
  }

  lemma {:induction false} RenameLocalLeaves(d: Replica, from: Key, to: Key)
    ensures SameEngine(d, RenameLocal(d, from, to))
  {
    hide Rekeyed, FileMoved, SavedOver, DestinationGone;
    var e := d.(epoch := d.epoch + 1);
    DestinationGoneLeaves(e, to);
    RekeyedLeaves(DestinationGone(e, to), from, to);
    if to in d.entries {
      SavedOverLeaves(e, from, to);
    }
  }

  lemma {:induction false} DeletedLeaves(d: Replica, key: Key)
    ensures SameEngine(d, Deleted(d, key))
  {
    hide Gone;
    GoneLeaves(d.(folder := d.folder - {key}, unsaved := d.unsaved - {key}, outside := d.outside - {key}), key);
  }

  lemma {:induction false} WriteLeaves(d: Replica, key: Key, sha: Digest)
    ensures SameEngine(d, CommitWrite(d, key, sha))
  {
    hide Rows.Enqueue;
  }

  lemma {:induction false} HandleLeaves(d: Replica, key: Key, create: bool, truncate: bool, sha: Digest)
    ensures SameEngine(d, OpenWrite(d, key, create, truncate)) && SameEngine(d, HandleWrite(d, key, sha))
    ensures SameEngine(d, CommitHandle(d, key)) && SameEngine(d, CloseWrite(d, key))
  {
    hide Rows.Enqueue;
  }

  lemma {:induction false} ExternalLeaves(d: Replica, key: Key, bytes: Option<Digest>)
    ensures SameEngine(d, External(d, key, bytes))
  {
  }

  lemma {:induction false} LocallyLeaves(d: Replica, st: Step)
    requires LocalStep(st)
    ensures SameEngine(d, Locally(d, st))
  {
    hide CommitWrite, OpenWrite, HandleWrite, CommitHandle, CloseWrite, Deleted, RenameLocal, External, SameEngine;
    match st {
      case Move(from, to) => RenameLocalLeaves(d, from, to);
      case Remove(key) => DeletedLeaves(d, key);
      case Write(key, sha) => WriteLeaves(d, key, sha);
      case OpenForWrite(key, create, truncate) => HandleLeaves(d, key, create, truncate, "");
      case WriteThrough(key, sha) => HandleLeaves(d, key, false, false, sha);
      case Flush(key) => HandleLeaves(d, key, false, false, "");
      case Close(key) => HandleLeaves(d, key, false, false, "");
      case ChangeFolder(key, bytes) => ExternalLeaves(d, key, bytes);
    }
  }

  // ── protected mode only adds ──────────────────────────────────────────────

  /** The requests a protected mirror may have in flight: a download, or an upload that replaces
      nothing or replaces bytes by themselves. */
  predicate Additive(f: Flight) {
    match f
    case Idle => true
    case PullChosen(_, _) => true
    case Pulling(_, _, _, _) => true
    case Pushing(_, sha, base, _) => base.Some? ==> base.value == sha
    case _ => false
  }

  predicate Protected(d: Replica) { d.cfg.protected && Additive(d.flight) }

  ghost predicate OnlyAdds<V(!new)>(m: map<Key, V>, n: map<Key, V>) {
    forall k <- m :: k in n && n[k] == m[k]
  }

  /** A step of a protected mirror: it stays one, and no file changes. */
  ghost predicate Adds(d: Replica, e: Replica) {
    Protected(e) && OnlyAdds(d.folder, e.folder)
  }

  lemma {:induction false} SettleAdds(d: Replica, e: Replica)
    requires Adds(d, e)
    ensures Adds(d, Settle(e)) && Adds(d, Done(e)) && Adds(d, Failed(e))
  {
    hide Rows.Keep;
  }

  lemma {:induction false} GoneAdds(d: Replica, key: Key)
    requires Protected(d)
    ensures Adds(d, Gone(d, key))
  {
    hide Rows.Keep, Rows.Enqueue;
  }

  lemma {:induction false} ScannedAdds(d: Replica, key: Key, priority: Priority)
    requires Protected(d)
    ensures Adds(d, Scanned(d, key, priority))
  {
    hide Gone, Rows.Enqueue, PendingDirectoryMove;
    GoneAdds(d.(outside := d.outside - {key}), key);
  }

  lemma {:induction false} ActedAdds(d: Replica, key: Key, a: Action)
    requires d.cfg.protected && d.flight.Idle? && !Blocked(d, key, a)
    ensures Adds(d, Acted(d, key, a))
  {
    hide Rows.Keep, Rows.Ensure;
  }

  lemma {:induction false} DecidedAdds(d: Replica, key: Key, remote: Option<Digest>)
    requires d.cfg.protected
    ensures Adds(d, Decided(d, key, remote))
  {
    hide Acted, PendingDirectoryMove, PendingRename, Decide;
    var i := d.(flight := Idle);
    var a := Decide(LiveSha(d, key), Lookup(d.bases, key), remote);
    if !Blocked(d, key, a) {
      ActedAdds(i, key, a);
    }
  }

  lemma {:induction false} PullLandAdds(d: Replica, got: Option<Digest>)
    requires Protected(d) && d.flight.Pulling?
    ensures Adds(d, PullLand(d, got))
  {
    var key := d.flight.key;
    hide Rows.Keep, Rows.Enqueue, Scanned, StillExpected, Settle;
    ScannedAdds(d, key, Interactive);
    var e := Deferred(Scanned(d, key, Interactive), key);
    SettleAdds(d, e);
    SettleAdds(d, d.(flight := Idle));
    if got.Some? && LandingAllowed(d) {
      SettleAdds(d, Landed(d, key, got.value));
    }
  }

  lemma {:induction false} LandPushAdds(d: Replica)
    requires Protected(d) && d.flight.Pushing?
    ensures Adds(d, LandPush(d))
  {
    var key := d.flight.key;
    var landed := ResultKey(d.rows.jobs, key);
    assert Adds(d, d.(flight := Idle));
    assert Adds(d, Pushed(d, key, landed, d.flight.sha));
    hide Settle, Decided, Done, Failed, ResultKey, Pushed, Adds;
    match d.flight.reply {
      case Waiting => assert Adds(d, d) by { NothingChanges(d); }
      case Accepted => SettleAdds(d, Pushed(d, key, landed, d.flight.sha));
      case Refused(current) =>
        NothingChanges(d);
        SettleAdds(d, d);
        DecidedAdds(d, key, current);
        SettleAdds(d, Decided(d, key, current));
      case _ =>
        NothingChanges(d);
        SettleAdds(d, d);
    }
  }

  lemma {:induction false} NothingChanges(d: Replica)
    requires Protected(d)
    ensures Adds(d, d)
  {
  }

  lemma {:induction false} RunPushAdds(d: Replica, key: Key)
    requires Protected(d)
    ensures Adds(d, RunPush(d, key))
  {
    NothingChanges(d);
    SettleAdds(d, d);
    hide Done, Failed, PendingDirectoryMove;
  }

  lemma {:induction false} RunJobAdds(d: Replica, job: Job, copy: Key)
    requires Protected(d)
    ensures Adds(d, RunJob(d, job, copy))
  {
    hide RunPush, RunDelete, RunRename, RunConflict;
    NothingChanges(d);
    if job.kind.Push? {
      RunPushAdds(d.(running := Some(job.seqNo)), job.kind.key);
    }
  }

  lemma {:induction false} ByEngineAdds(s: System, st: Step)
    requires Protected(s.mirror) && EngineStep(st) && Enabled(s, st)
    ensures Adds(s.mirror, ByEngine(s, st))
  {
    var d := s.mirror;
    NothingChanges(d);
    SettleAdds(d, d);
    hide Adds, Failed, Scanned, Recovered, Decided, PullBegin, PullLand, RecordConflict, RunJob,
      LandPush, LandDelete, LandRename, LandCopy, TargetAnswered, CopyAnswered, ApplyRemoteRename, Restarted;
    match st {
      case NetworkFails =>
      case Scan(key, priority) => ScannedAdds(d, key, priority);
      case RecoverJob(key) => RecoveredAdds(d, key);
      case ReconcileKey(key, remote) => DecidedAdds(d, key, remote);
      case SendPull => PullBeginAdds(d);
      case LandPull(got) => PullLandAdds(d, got);
      case KeepConflict => assert false;
      case StartJob(job, copy) => RunJobAdds(d, job, copy);
      case Land => LandPushAdds(d);
      case TargetIs(remote) => assert false;
      case NowIs(remote) => assert false;
      case FollowRename(from, to) => RemoteRenameAdds(d, from, to);
      case Expire(_, _) => assert false;
      case Restart => RestartedAdds(d);
    }
  }

  lemma {:induction false} RestartedAdds(d: Replica)
    requires Protected(d)
    ensures Adds(d, Restarted(d))
  {
  }

  lemma {:induction false} RecoveredAdds(d: Replica, key: Key)
    requires Protected(d)
    ensures Adds(d, Recovered(d, key))
  {
    hide Rows.Enqueue, Rows.Has;
  }

  lemma {:induction false} PullBeginAdds(d: Replica)
    requires Protected(d) && d.flight.PullChosen?
    ensures Adds(d, PullBegin(d))
  {
    hide Settle, StillExpected;
    SettleAdds(d, Deferred(d, d.flight.key));
    SettleAdds(d, d.(flight := Idle));
  }

  lemma {:induction false} RemoteRenameAdds(d: Replica, from: Key, to: Key)
    requires Protected(d)
    ensures Adds(d, ApplyRemoteRename(d, from, to))
  {
    hide PendingDirectoryMove, NotFollowed, CleanHere, RemovedLocally, Forgotten, MovedByHub;
    NothingChanges(d);
  }

  lemma {:induction false} AnswerAdds(s: System)
    requires Protected(s.mirror) && Asking(s.mirror.flight)
    ensures Adds(s.mirror, Answer(s).mirror) && OnlyAdds(s.hub, Answer(s).hub)
  {
  }

  lemma {:induction false} StaysProtected(s: System, st: Step)
    requires Protected(s.mirror) && Enabled(s, st)
    ensures Protected(Next(s, st).mirror)
  {
    hide Locally, ByEngine, Answer, Enabled;
    if LocalStep(st) {
      LocallyLeaves(s.mirror, st);
    } else if st.HubAnswers? {
      assert Asking(s.mirror.flight) by { EnabledAnswer(s, st); }
      AnswerAdds(s);
    } else if EngineStep(st) {
      ByEngineAdds(s, st);
    }
  }

  lemma {:induction false} EnabledAnswer(s: System, st: Step)
    requires Enabled(s, st) && st.HubAnswers?
    ensures Asking(s.mirror.flight)
  {
  }

  lemma {:induction false} RunStaysProtected(trace: seq<System>, steps: seq<Step>, n: nat)
    requires Run(trace, steps) && Protected(trace[0].mirror) && n < |trace|
    ensures Protected(trace[n].mirror)
  {
    hide Protected, Enabled, Next;
    if n > 0 {
      RunStaysProtected(trace, steps, n - 1);
      var st := steps[n - 1];
      StaysProtected(trace[n - 1], st);
    }
  }

  /** Protected mode is additive: in every run, whatever users, programs and other devices do
      meanwhile, no step of this device removes or changes a file in the folder or an object on
      the hub; both only grow. */
  lemma {:induction false} ProtectedModeOnlyAdds(trace: seq<System>, steps: seq<Step>, n: nat)
    requires Run(trace, steps) && Protected(trace[0].mirror)
    requires n < |steps| && (EngineStep(steps[n]) || steps[n].HubAnswers?)
    ensures OnlyAdds(trace[n].mirror.folder, trace[n + 1].mirror.folder)
    ensures OnlyAdds(trace[n].hub, trace[n + 1].hub)
  {
    RunStaysProtected(trace, steps, n);
    var s, st := trace[n], steps[n];
    assert trace[n + 1] == Next(s, st);
    hide ByEngine, Answer;
    if st.HubAnswers? {
      AnswerAdds(s);
    } else {
      ByEngineAdds(s, st);
    }
  }

  // ── nothing unseen is overwritten upstream ────────────────────────────────

  /** Each object is still there, was known to this device, or has been renamed as a whole. */
  ghost predicate ReplacesOnlyKnown(s: System, t: System) {
    forall k <- s.hub ::
      || (k in t.hub && t.hub[k] == s.hub[k])
      || s.hub[k] in s.mirror.known
      || (s.mirror.flight.Renaming? && s.mirror.flight.from == k && Lookup(t.hub, s.mirror.flight.to) == Some(s.hub[k]))
  }

  lemma {:induction false} AnswerReplacesKnown(s: System)
    requires SystemInv(s) && Asking(s.mirror.flight)
    ensures ReplacesOnlyKnown(s, Answer(s))
  {
    InvGives(s.mirror);
    hide Inv, Consistent;
  }

  /** No blind overwrite: in every run, whatever other devices do in between, the hub objects
      that this device's requests replace or remove are ones it had downloaded, uploaded or adopted. */
  lemma {:induction false} NoBlindOverwrite(trace: seq<System>, steps: seq<Step>, n: nat)
    requires Run(trace, steps) && NoUnseenAdoption(trace, steps) && SystemInv(trace[0])
    requires n < |steps| && steps[n].HubAnswers?
    ensures ReplacesOnlyKnown(trace[n], trace[n + 1])
  {
    RunInv(trace, steps, n);
    var s, st := trace[n], steps[n];
    assert trace[n + 1] == Next(s, st);
    hide SystemInv, AdoptsUnseenAt, Run, ReplacesOnlyKnown, Answer;
    AnswerReplacesKnown(s);
  }

  /** How a digest comes to be known: this step downloaded it, snapshotted it for an upload, or
      found it on the hub equal to the local bytes. */
  predicate Witnessed(s: System, st: Step, t: System, x: Digest) {
    || (st.LandPull? && st.got == Some(x))
    || (st.StartJob? && t.mirror.flight.Pushing? && t.mirror.flight.sha == x && exists k <- s.mirror.folder :: s.mirror.folder[k].sha == x)
    || (st.ReconcileKey? && st.remote == Some(x))
    || (st.TargetIs? && st.remote == Some(x))
    || (st.Land? && Asking(s.mirror.flight) && s.mirror.flight.reply == Refused(Some(x)))
  }

  lemma {:induction false} GoneKnows(d: Replica, key: Key, priority: Priority)
    ensures Scanned(d, key, priority).known == d.known
  {
    hide Gone, Rows.Enqueue, PendingDirectoryMove;
    GoneLeaves(d.(outside := d.outside - {key}), key);
  }

  lemma {:induction false} ActedKnows(d: Replica, key: Key, remote: Option<Digest>)
    ensures var e := Acted(d, key, Decide(LiveSha(d, key), Lookup(d.bases, key), remote));
            forall x <- e.known :: x in d.known || remote == Some(x)
  {
    hide Rows.Keep, Rows.Ensure, Decide;
    DecideByOutcome(LiveSha(d, key), Lookup(d.bases, key), remote);
  }

  lemma {:induction false} DecidedKnows(d: Replica, key: Key, remote: Option<Digest>)
    ensures forall x <- Settle(Decided(d, key, remote)).known :: x in d.known || remote == Some(x)
    ensures forall x <- Decided(d, key, remote).known :: x in d.known || remote == Some(x)
  {
    hide Acted, Decide, PendingDirectoryMove, PendingRename, Blocked, Rows.Keep;
    ActedKnows(d.(flight := Idle), key, remote);
  }

  lemma {:induction false} DoneKnows(d: Replica)
    ensures Done(d).known == d.known && Failed(d).known == d.known && Settle(d).known == d.known
  {
    hide Rows.Keep;
  }

  lemma {:induction false} LandPushKnows(d: Replica)
    requires d.flight.Pushing?
    ensures forall x <- LandPush(d).known :: x in d.known || d.flight.reply == Refused(Some(x))
  {
    hide Decided, Settle, Done, Failed, ResultKey;
    DoneKnows(d);
    match d.flight.reply {
      case Accepted => DoneKnows(Pushed(d, d.flight.key, ResultKey(d.rows.jobs, d.flight.key), d.flight.sha));
      case Refused(current) => DecidedKnows(d, d.flight.key, current);
      case _ =>
    }
  }

  lemma {:induction false} DeletedRemotelyKnows(d: Replica, key: Key, local: Key, fixed: bool)
    ensures DeletedRemotely(d, key, local, fixed).known == d.known
  {
    hide NoTombstone;
  }

  lemma {:induction false} LandDeleteKnows(d: Replica)
    requires d.flight.Deleting?
    ensures forall x <- LandDelete(d).known :: x in d.known || d.flight.reply == Refused(Some(x))
  {
    hide Decided, Settle, Done, Failed, ResultKey, DeletedRemotely;
    DoneKnows(d);
    match d.flight.reply {
      case Waiting =>
      case TargetTaken =>
      case Refused(current) => DecidedKnows(d, d.flight.key, current);
      case _ =>
        var local := ResultKey(d.rows.jobs, d.flight.key);
        DeletedRemotelyKnows(d, d.flight.key, local, d.flight.fixed);
        DoneKnows(DeletedRemotely(d, d.flight.key, local, d.flight.fixed));
    }
  }

  lemma {:induction false} LandRenameKnows(d: Replica)
    requires d.flight.Renaming?
    ensures forall x <- LandRename(d).known :: x in d.known || d.flight.reply == Refused(Some(x))
  {
    hide Decided, Settle, Done, Failed, ResultKey, MarkedDirty, Rows.Ensure;
    var local := ResultKey(d.rows.jobs, d.flight.to);
    match d.flight.reply {
      case Accepted => DoneKnows(d);
      case Missing => DoneKnows(SourceMissing(d, local));
      case Refused(current) => DecidedKnows(PushMoved(d, local), d.flight.from, current);
      case _ =>
    }
  }

  lemma {:induction false} LandCopyKnows(d: Replica)
    requires d.flight.SendingCopy?
    ensures LandCopy(d).known == d.known
  {
    hide Scanned, Done, Failed, ResultKey, StillHolds;
    var c := CopyRecorded(d);
    GoneKnows(c, d.flight.key, Interactive);
    DoneKnows(c);
    DoneKnows(d);
    DoneKnows(Deferred(Scanned(c, d.flight.key, Interactive), d.flight.key));
  }

  lemma {:induction false} LandingKnows(d: Replica)
    requires Asking(d.flight)
    ensures forall x <- Landing(d).known :: x in d.known || d.flight.reply == Refused(Some(x))
  {
    hide LandPush, LandDelete, LandRename, LandCopy;
    match d.flight {
      case Pushing(_, _, _, _) => LandPushKnows(d);
      case Deleting(_, _, _, _) => LandDeleteKnows(d);
      case Renaming(_, _, _, _) => LandRenameKnows(d);
      case SendingCopy(_, _, _, _, _) => LandCopyKnows(d);
    }
  }

  lemma {:induction false} PullLandKnows(d: Replica, got: Option<Digest>)
    requires d.flight.Pulling?
    ensures forall x <- PullLand(d, got).known :: x in d.known || got == Some(x)
  {
    hide Scanned, Settle, LandingAllowed, Rows.Keep;
    GoneKnows(d, d.flight.key, Interactive);
    DoneKnows(d.(flight := Idle));
    DoneKnows(Deferred(Scanned(d, d.flight.key, Interactive), d.flight.key));
    if got.Some? {
      DoneKnows(Landed(d, d.flight.key, got.value));
    }
  }

  lemma {:induction false} RunPushKnows(d: Replica, key: Key, x: Digest)
    requires x in RunPush(d, key).known && x !in d.known
    ensures var e := RunPush(d, key);
            e.flight.Pushing? && e.flight.sha == x && exists k <- d.folder :: d.folder[k].sha == x
  {
    hide Done, Failed, PendingDirectoryMove;
    DoneKnows(d);
  }

  lemma {:induction false} RunDeleteKnows(d: Replica, key: Key, ifMatch: Option<Digest>)
    ensures RunDelete(d, key, ifMatch).known == d.known
  {
    hide Done, ResultKey, DeleteMatch, NoTombstone;
    DoneKnows(d.(entries := NoTombstone(d.entries, ResultKey(d.rows.jobs, key))));
  }

  lemma {:induction false} RunConflictKnows(d: Replica, key: Key, sha: Digest, copy: Key)
    ensures RunConflict(d, key, sha, copy).known == d.known
  {
    hide Done, ResultKey;
    DoneKnows(if sha in d.kept || key !in d.folder then d else d.(kept := d.kept + {d.folder[key].sha}));
  }

  lemma {:induction false} RunRenameKnows(d: Replica, from: Key, to: Key)
    ensures RunRename(d, from, to).known == d.known
  {
    hide ResultKey;
  }

  lemma {:induction false} OtherJobsKnow(d: Replica, job: Job, copy: Key)
    requires !job.kind.Push?
    ensures RunJob(d, job, copy).known == d.known
  {
    hide RunPush, Done, ResultKey, DeleteMatch, NoTombstone, RunRename, RunConflict, RunDelete;
    var r := d.(running := Some(job.seqNo));
    match job.kind {
      case Delete(key, ifMatch) => RunDeleteKnows(r, key, ifMatch);
      case ConflictUpload(key, sha, _) => RunConflictKnows(r, key, sha, copy);
      case Rename(from, to) => RunRenameKnows(r, from, to);
      case _ =>
    }
  }

  lemma {:induction false} RunJobKnows(d: Replica, job: Job, copy: Key, x: Digest)
    requires x in RunJob(d, job, copy).known && x !in d.known
    ensures var e := RunJob(d, job, copy);
            e.flight.Pushing? && e.flight.sha == x && exists k <- d.folder :: d.folder[k].sha == x
  {
    hide RunPush, RunDelete, RunRename, RunConflict;
    if job.kind.Push? {
      RunPushKnows(d.(running := Some(job.seqNo)), job.kind.key, x);
    } else {
      OtherJobsKnow(d, job, copy);
      assert false;
    }
  }

  lemma {:induction false} RecoveredKnows(d: Replica, key: Key)
    ensures Recovered(d, key).known == d.known
  {
    hide Rows.Has, Rows.Enqueue;
  }

  lemma {:induction false} PullBeginKnows(d: Replica)
    requires d.flight.PullChosen?
    ensures PullBegin(d).known == d.known
  {
    hide Settle, StillExpected, MayLand;
    DoneKnows(Deferred(d, d.flight.key));
    DoneKnows(d.(flight := Idle));
  }

  lemma {:induction false} PreservedKnows(d: Replica, key: Key, entry: Entry, base: Option<Digest>)
    requires key in d.folder
    ensures Preserved(d, key, entry, base).known == d.known
  {
    hide Rows.Keep, Rows.Ensure;
  }

  lemma {:induction false} RecordConflictKnows(d: Replica)
    requires d.flight.ConflictChosen?
    ensures RecordConflict(d).known == d.known
  {
    hide Settle, StillExpected, ResultKey, Preserved;
    var key := d.flight.key;
    DoneKnows(Deferred(d, ResultKey(d.rows.jobs, key)));
    DoneKnows(d.(flight := Idle));
    if key in d.folder {
      PreservedKnows(d, key, d.flight.entry, d.flight.base);
      DoneKnows(Preserved(d, key, d.flight.entry, d.flight.base));
    }
  }

  lemma {:induction false} CopyAnsweredKnows(d: Replica, remote: Option<Digest>)
    requires d.flight.CopySent?
    ensures CopyAnswered(d, remote).known == d.known
  {
    hide Done, MarkedDirty, Rows.Ensure;
    var key := d.flight.key;
    DoneKnows(d.(bases := d.bases - {key}, entries := MarkedDirty(d.entries, key), rows := d.rows.Ensure(JobKind.Push(key))));
  }

  lemma {:induction false} RemoteRenameKnows(d: Replica, from: Key, to: Key)
    ensures ApplyRemoteRename(d, from, to).known == d.known
  {
    hide PendingDirectoryMove, CleanHere, NotFollowed, Forgotten, RemovedLocally, MovedRow, MovedMember;
    if from in d.entries {
      NotFollowedLeaves(d, from);
    }
    ForgottenLeaves(d, from);
  }

  lemma {:induction false} EngineKnows(s: System, st: Step, x: Digest)
    requires Enabled(s, st) && EngineStep(st)
    requires x in ByEngine(s, st).known && x !in s.mirror.known
    ensures Witnessed(s, st, Next(s, st), x)
  {
    var d := s.mirror;
    hide Failed, Scanned, Recovered, Decided, Settle, PullBegin, RecordConflict, CopyAnswered, ApplyRemoteRename,
      RunJob, Landing, PullLand, ResultKey;
    match st {
      case ReconcileKey(key, remote) => DecidedKnows(d, key, remote);
      case TargetIs(remote) =>
        DoneKnows(d);
        DecidedKnows(d.(bases := d.bases - {d.flight.localTo}), d.flight.to, remote);
      case Scan(key, priority) => GoneKnows(d, key, priority);
      case StartJob(job, copy) => RunJobKnows(d, job, copy, x);
      case Land => LandingKnows(d);
      case LandPull(got) => PullLandKnows(d, got);
      case NetworkFails => DoneKnows(d); assert false;
      case RecoverJob(key) => RecoveredKnows(d, key); assert false;
      case SendPull => PullBeginKnows(d); assert false;
      case KeepConflict => RecordConflictKnows(d); assert false;
      case NowIs(remote) => CopyAnsweredKnows(d, remote); assert false;
      case FollowRename(from, to) => RemoteRenameKnows(d, from, to); assert false;
      case Expire(_, _) => assert false;
      case Restart => assert false;
    }
  }

  /** A digest is known only because this device once downloaded, uploaded or adopted it. */
  lemma {:induction false} KnownMeansSeen(s: System, st: Step, x: Digest)
    requires Enabled(s, st) && x in Next(s, st).mirror.known && x !in s.mirror.known
    ensures Witnessed(s, st, Next(s, st), x)
  {
    hide Locally, ByEngine, Answer, Enabled, Witnessed;
    if LocalStep(st) {
      LocallyLeaves(s.mirror, st);
      assert false;
    } else if st.HubAnswers? {
      AnswerKnows(s, st);
      assert false;
    } else if EngineStep(st) {
      EngineKnows(s, st, x);
    }
  }

  lemma {:induction false} AnswerKnows(s: System, st: Step)
    requires Enabled(s, st) && st.HubAnswers?
    ensures Asking(s.mirror.flight) && Answer(s).mirror.known == s.mirror.known
  {
  }
}
