/** What the engine leaves to be done. A job leaves the queue only when its work is done or has passed
    to another, a decision put off is remembered, and a download yields to every change of the file
    made since it was asked for. */
module SyncWork {
  import opened Options
  import opened Keys
  import opened Reconcile
  import opened Jobs
  import opened Tables
  import opened Replicas
  import opened SyncSteps
  import opened SyncRuns
  import SyncTurns

  // ── looking at the folder ─────────────────────────────────────────────────

  /** Nothing holds a scan of the key back. */
  predicate Scannable(d: Replica, key: Key) { !PendingDirectoryMove(d.rows.jobs, key) && key !in d.writers }

  /** After a scan the row tells what is in the folder. A new version waits for its upload. */
  lemma {:induction false} ScanSeesFile(d: Replica, key: Key, priority: Priority)
    requires Scannable(d, key) && key in d.folder
    ensures var e, f := Scanned(d, key, priority), d.folder[key];
            && e.folder == d.folder && key !in e.outside
            && key in e.entries && e.entries[key].sha == f.sha
            && e.entries[key].mtime == f.id && !e.entries[key].state.Tombstone?
            && (if LiveSha(d, key) == Some(f.sha) then e.rows == d.rows && e.entries[key].state == d.entries[key].state
                else e.entries[key].state.Dirty? && Job(d.rows.counter + 1, JobKind.Push(key), priority) in e.rows.jobs)
  {
    hide PendingDirectoryMove, Gone, ClearTrash;
    var f := d.folder[key];
    if LiveSha(d, key) == Some(f.sha) {
      assert Scanned(d, key, priority).entries == d.entries[key := d.entries[key].(mtime := f.id)];
    } else {
      assert Scanned(d, key, priority).entries == d.entries[key := Entry(f.sha, f.id, Dirty)];
    }
  }

  /** A file that is gone is to be removed on the hub if that may have it; otherwise it is forgotten. */
  lemma {:induction false} ScanMissesFile(d: Replica, key: Key, priority: Priority)
    requires Scannable(d, key) && key !in d.folder
    ensures var e, was := Scanned(d, key, priority), LiveSha(d, key);
            && e.folder == d.folder && key !in e.outside && LiveSha(e, key) == None
            && (was.None? ==> e == d.(outside := e.outside))
            && (was.Some? ==>
                  if d.cfg.propagate && (key in d.bases || key in d.marks)
                  then key in e.entries && e.bases == d.bases && JobKind.Delete(key, None) in Kinds(e.rows.jobs)
                  else key !in e.entries && key !in e.bases && forall j <- e.rows.jobs :: j.kind.MainKey() != key)
  {
    hide PendingDirectoryMove, Gone;
    var s := d.(outside := d.outside - {key});
    if LiveSha(d, key).Some? {
      assert Scanned(d, key, priority) == Gone(s, key);
      GoneKeeps(s, key);
      GoneIs(s, key);
    } else {
      assert Scanned(d, key, priority) == s;
    }
  }

  lemma {:induction false} GoneIs(d: Replica, key: Key)
    requires key in d.entries
    ensures var e := Gone(d, key);
            && LiveSha(e, key) == None
            && if d.cfg.propagate && (key in d.bases || key in d.marks)
               then key in e.entries && e.bases == d.bases && JobKind.Delete(key, None) in Kinds(e.rows.jobs)
               else key !in e.entries && key !in e.bases && forall j <- e.rows.jobs :: j.kind.MainKey() != key
  {
    if d.cfg.propagate && (key in d.bases || key in d.marks) {
      var rows := d.rows.Keep(NotKey(key));
      assert Job(rows.counter + 1, JobKind.Delete(key, None), Interactive) in Gone(d, key).rows.jobs;
      assert Job(rows.counter + 1, JobKind.Delete(key, None), Interactive).kind in Kinds(Gone(d, key).rows.jobs);
    }
  }

  /** After a start, a row with something to send has a job, or a conflict that is still to be resolved;
      and no upload runs ahead of that. */
  lemma {:induction false} RecoveredHasWork(d: Replica, key: Key)
    requires key in d.entries && !d.entries[key].state.Clean?
    ensures var e, waits := Recovered(d, key), key in d.conflicts && !d.conflicts[key].uploaded;
            && e == d.(rows := e.rows) && (forall j <- d.rows.jobs :: j in e.rows.jobs)
            && (d.entries[key].state.Tombstone? ==> exists j <- e.rows.jobs :: j.kind.Delete? && j.kind.key == key)
            && (d.entries[key].state.Dirty? && !waits ==> JobKind.Push(key) in Kinds(e.rows.jobs))
            && (d.entries[key].state.Dirty? && waits ==> e == d)
  {
    var kind := if d.entries[key].state.Dirty? then JobKind.Push(key) else JobKind.Delete(key, None);
    if j :| j in d.rows.jobs && j.kind.DedupeId() == kind.DedupeId() {
      SyncTurns.IdIsWork(kind, j.kind, key);
    }
    var e := Recovered(d, key);
    if e != d {
      var job := Job(d.rows.counter + 1, kind, Discovered);
      assert job in e.rows.jobs;
      assert job.kind in Kinds(e.rows.jobs);
    }
  }

  function Kinds(jobs: seq<Job>): set<JobKind> { set j | j in jobs :: j.kind }

  // ── what is put off ───────────────────────────────────────────────────────

  /** A decision about a file that is open, or whose rename is queued, is put off and nothing else. */
  lemma {:induction false} DecisionPutOff(d: Replica, key: Key, remote: Option<Digest>)
    requires key != "" && !PendingDirectoryMove(d.rows.jobs, key) && (key in d.writers || PendingRename(d.rows.jobs, key))
    ensures Decided(d, key, remote) == d.(flight := Idle, recheck := Decided(d, key, remote).recheck) && key in Decided(d, key, remote).recheck
  {
    hide PendingDirectoryMove, PendingRename;
  }

  /** A download that was decided is asked for or put off, unless it would replace a file in protected
      mode. */
  lemma {:induction false} PullIsAsked(d: Replica)
    requires d.flight.PullChosen?
    ensures var e := PullBegin(d);
            && e.folder == d.folder
            && (e.flight.Pulling? || d.flight.key in e.recheck || (d.cfg.protected && d.flight.key in d.folder))
  {
    hide Rows.Keep, StillExpected, Stamp;
    var key := d.flight.key;
    if !StillExpected(d, key, d.flight.expected) {
      assert Deferred(d, key).flight.Idle?;
    } else if d.cfg.protected && key in d.folder {
      assert !MayLand(d, key);
    } else {
      assert MayLand(d, key);
    }
  }

  lemma {:induction false} ScanKeepsFolder(d: Replica, key: Key, priority: Priority)
    ensures var e := Scanned(d, key, priority); e.folder == d.folder && e.running == d.running
  {
    hide PendingDirectoryMove, Rows.Enqueue, ClearTrash, LiveSha, Gone;
    GoneKeeps(d.(outside := d.outside - {key}), key);
    if !Scannable(d, key) {
      assert Scanned(d, key, priority) == d;
    } else if key in d.folder {
      assert Scanned(d, key, priority).folder == d.folder;
    }
  }

  lemma {:induction false} GoneKeeps(d: Replica, key: Key)
    ensures var e := Gone(d, key); e.folder == d.folder && e.running == d.running && e.outside == d.outside
  {
    hide Rows.Keep, Rows.Enqueue;
  }

  /** One that has arrived is in the folder, with its row and base, or is put off. */
  lemma {:induction false} PullIsKeptOrPutOff(d: Replica, got: Digest)
    requires d.flight.Pulling?
    ensures var e, key := PullLand(d, Some(got)), d.flight.key;
            || (key in e.folder && e.folder[key].sha == got && Lookup(e.bases, key) == Some(got) && LiveSha(e, key) == Some(got) && e.entries[key].state.Clean?)
            || (e.folder == d.folder && key in e.recheck)
  {
    hide LandingAllowed, Rows.Keep, Scanned;
    ScanKeepsFolder(d, d.flight.key, Interactive);
  }

  /** In protected mode a decision changes no file and asks for no more than files missing here; what
      the hub has in another version is left alone. */
  lemma {:induction false} ProtectedDecides(d: Replica, key: Key, remote: Option<Digest>)
    requires d.cfg.protected
    ensures var e := Decided(d, key, remote);
            && e.folder == d.folder && e.trash == d.trash && (e.flight.Idle? || (e.flight.PullChosen? && key !in d.folder))
            && (remote.Some? && remote != LiveSha(d, key) ==> e == d.(flight := e.flight, recheck := e.recheck))
  {
    hide Acted, Decide, Blocked, LiveSha, PendingDirectoryMove, PendingRename;
    var a := Decide(LiveSha(d, key), Lookup(d.bases, key), remote);
    DecideByOutcome(LiveSha(d, key), Lookup(d.bases, key), remote);
    if !Blocked(d, key, a) {
      Unblocked(d, key, a);
    }
  }

  lemma {:induction false} Unblocked(d: Replica, key: Key, a: Action)
    requires !Blocked(d, key, a)
    ensures var e := Acted(d.(flight := Idle), key, a);
            && (a.Nothing? || a.Adopt? || a == Action.Push(None) || (a.Pull? && key !in d.folder))
            && e.folder == d.folder && e.trash == d.trash && (if a.Pull? then e.flight.PullChosen? else e.flight.Idle?)
            && (a.Nothing? || a.Pull? ==> e == d.(flight := e.flight))
  {
    hide Rows.Keep, Rows.Ensure;
  }

  /** Where removals are not propagated, a file removed here is forgotten and the hub's is left. */
  lemma {:induction false} Unpropagated(d: Replica, key: Key, remote: Option<Digest>)
    requires !d.cfg.propagate && !d.cfg.protected && key != "" && !PendingDirectoryMove(d.rows.jobs, key)
    requires key !in d.writers && !PendingRename(d.rows.jobs, key)
    requires LiveSha(d, key).None? && key in d.bases && remote == Some(d.bases[key])
    ensures Decided(d, key, remote).flight.Idle? && key !in Decided(d, key, remote).entries && key !in Decided(d, key, remote).bases
    ensures Decided(d, key, remote).rows == d.rows
  {
    hide PendingDirectoryMove, PendingRename;
  }

  /** While a directory move is queued, no file below either of its names is scanned, decided, sent or
      renamed after the hub. */
  lemma {:induction false} DirectoryMoveHoldsBack(d: Replica, move: Job, key: Key, other: Key, priority: Priority,
      remote: Option<Digest>)
    requires move in d.rows.jobs && move.kind.RenameDir? && (Under(key, move.kind.from) || Under(key, move.kind.to))
    ensures Scanned(d, key, priority) == d && Decided(d, key, remote) == d.(flight := Idle)
    ensures RunPush(d, key).flight.Idle?
    ensures ApplyRemoteRename(d, key, other) == d == ApplyRemoteRename(d, other, key)
  {
    assert PendingDirectoryMove(d.rows.jobs, key);
    hide PendingDirectoryMove, Under, Rows.Keep;
  }

  /** While a file's rename is queued, a decision about either name is put off. */
  lemma {:induction false} RenameHoldsBack(d: Replica, move: Job, key: Key, remote: Option<Digest>)
    requires move in d.rows.jobs && move.kind.Rename? && (key == move.kind.from || key == move.kind.to)
    requires key != "" && !PendingDirectoryMove(d.rows.jobs, key)
    ensures Decided(d, key, remote) == d.(flight := Idle, recheck := Decided(d, key, remote).recheck) && key in Decided(d, key, remote).recheck
  {
    assert PendingRename(d.rows.jobs, key);
    DecisionPutOff(d, key, remote);
  }

  /** And no download takes the place of either. */
  lemma {:induction false} RenameHoldsBackPulls(d: Replica, move: Job, key: Key, got: Option<Digest>)
    requires move in d.rows.jobs && move.kind.Rename? && (key == move.kind.from || key == move.kind.to)
    ensures d.flight.PullChosen? && d.flight.key == key ==> PullBegin(d).flight.Idle? && key in PullBegin(d).recheck
    ensures d.flight.Pulling? && d.flight.key == key ==> PullLand(d, got).folder == d.folder
  {
    assert PendingPathMove(d.rows.jobs, key);
    hide PendingPathMove, Rows.Keep, Scanned;
    if d.flight.PullChosen? && d.flight.key == key {
      assert PullBegin(d) == Settle(Deferred(d, key));
    }
    if d.flight.Pulling? && d.flight.key == key {
      NotLanded(d, got);
    }
  }

  // ── what the hub answers ──────────────────────────────────────────────────

  /** The hub took the upload: its bytes are the base, under the name the file has by now. The row is
      Clean only if it still names those bytes and nobody is writing the file. */
  lemma {:induction false} UploadTaken(d: Replica)
    requires d.flight.Pushing? && d.flight.reply.Accepted?
    ensures var u, sha, at := LandPush(d), d.flight.sha, ResultKey(d.rows.jobs, d.flight.key);
            && u.folder == d.folder && u.flight.Idle?
            && Lookup(u.bases, at) == Some(sha) && d.flight.key !in u.marks && u.entries.Keys == d.entries.Keys
            && (forall k :: k != at ==> Lookup(u.bases, k) == Lookup(d.bases, k) && Lookup(u.entries, k) == Lookup(d.entries, k))
            && (at in d.entries ==>
                  && u.entries[at].sha == d.entries[at].sha && u.entries[at].mtime == d.entries[at].mtime
                  && (u.entries[at].state != d.entries[at].state <==> d.entries[at].state.Dirty? && d.entries[at].sha == sha && at !in d.writers)
                  && (u.entries[at].state != d.entries[at].state ==> u.entries[at].state.Clean?))
  {
    hide ResultKey, Rows.Keep;
  }

  /** The hub no longer has the file, whether by this delete or before it: the tombstone, the base and
      the mark go. A delete that names its version itself leaves the file that has the name now. */
  lemma {:induction false} DeleteTaken(d: Replica)
    requires d.flight.Deleting? && (d.flight.reply.Accepted? || d.flight.reply.Missing?)
    ensures var u, at := LandDelete(d), ResultKey(d.rows.jobs, d.flight.key);
            && u.folder == d.folder && u.flight.Idle? && d.flight.key !in u.marks
            && (d.flight.fixed ==> u.entries == d.entries && u.bases == d.bases)
            && (!d.flight.fixed ==>
                  && at !in u.bases && (at in u.entries <==> at in d.entries && !d.entries[at].state.Tombstone?)
                  && forall k :: k in d.entries && k != at ==> k in u.entries && u.entries[k] == d.entries[k])
  {
    hide ResultKey, Rows.Keep;
    var key, at, fixed := d.flight.key, ResultKey(d.rows.jobs, d.flight.key), d.flight.fixed;
    assert LandDelete(d) == Done(DeletedRemotely(d, key, at, fixed));
  }

  /** The hub does not have the old name: the file, if it is still there, is uploaded under its new one. */
  lemma {:induction false} RenameMissed(d: Replica)
    requires d.flight.Renaming? && d.flight.reply.Missing? && d.running.None?
    ensures var u, at := LandRename(d), ResultKey(d.rows.jobs, d.flight.to);
            && u.folder == d.folder && u.flight.Idle? && at !in u.bases
            && (at !in d.folder ==> at !in u.entries && u.rows == d.rows)
            && (at in d.folder && at in d.entries ==> at in u.entries && u.entries[at] == d.entries[at].(state := Dirty) && JobKind.Push(at) in Kinds(u.rows.jobs))
  {
    var at := ResultKey(d.rows.jobs, d.flight.to);
    if at in d.folder && at in d.entries {
      PushIsQueued(d, at);
    }
    hide ResultKey, Rows.Ensure;
  }

  lemma {:induction false} PushIsQueued(d: Replica, at: Key)
    requires at in d.entries
    ensures JobKind.Push(at) in Kinds(PushMoved(d, at).rows.jobs)
  {
    if j :| j in d.rows.jobs && j.kind.DedupeId() == JobKind.Push(at).DedupeId() {
      SyncTurns.IdIsWork(JobKind.Push(at), j.kind, at);
    } else {
      assert Job(d.rows.counter + 1, JobKind.Push(at), Background).kind in Kinds(PushMoved(d, at).rows.jobs);
    }
  }

  /** The replies after which a job is tried again later: nothing has changed. */
  predicate TriedAgain(d: Replica) {
    match d.flight
    case Pushing(key, sha, _, reply) =>
      || reply.Missing? || reply.TargetTaken?
      || (reply.Refused? && (ResultKey(d.rows.jobs, key) != key || (d.cfg.protected && reply.current.Some? && reply.current.value != sha)))
    case Deleting(key, _, fixed, reply) => reply.TargetTaken? || (reply.Refused? && (fixed || ResultKey(d.rows.jobs, key) != key))
    case SendingCopy(_, _, _, _, reply) => reply.Missing? || reply.TargetTaken? || reply.Refused?
    case _ => false
  }

  lemma {:induction false} TriedAgainKeeps(d: Replica)
    requires Asking(d.flight) && TriedAgain(d)
    ensures Landing(d) == d.(flight := Idle, running := None)
  {
    hide ResultKey;
  }

  // ── a rename on the hub ───────────────────────────────────────────────────

  /** A rename the file can follow: everything known of it is known under the new name, without any job. */
  lemma {:induction false} HubRenameFollowed(d: Replica, from: Key, to: Key)
    requires RemoteRenameMoves(d, from, to) && from != to
    ensures var e := ApplyRemoteRename(d, from, to);
            && from !in e.folder && Lookup(e.folder, to) == Lookup(d.folder, from)
            && from !in e.entries && Lookup(e.entries, to) == Lookup(d.entries, from)
            && from !in e.bases && Lookup(e.bases, to) == Lookup(d.bases, from) && e.rows == d.rows
  {
    hide PendingDirectoryMove;
  }

  /** One it cannot follow, since it has been changed here: it is uploaded under the old name as a new
      file. */
  lemma {:induction false} HubRenameLeavesEdit(d: Replica, from: Key, to: Key)
    requires !d.cfg.protected && !PendingDirectoryMove(d.rows.jobs, from) && !PendingDirectoryMove(d.rows.jobs, to)
    requires from in d.entries && d.entries[from].state.Dirty?
    ensures var e := ApplyRemoteRename(d, from, to);
            && e.folder == d.folder && e.entries == d.entries && from !in e.bases
            && Job(d.rows.counter + 1, JobKind.Push(from), Interactive) in e.rows.jobs
  {
    hide PendingDirectoryMove;
  }

  /** One whose new name has a row already: the old name is given up, and the new one is left. */
  lemma {:induction false} HubRenameMeetsRow(d: Replica, from: Key, to: Key)
    requires !d.cfg.protected && !PendingDirectoryMove(d.rows.jobs, from) && !PendingDirectoryMove(d.rows.jobs, to)
    requires CleanHere(d, from) && from !in d.writers && to in d.entries && from != to
    ensures var e := ApplyRemoteRename(d, from, to);
            && from !in e.folder && from !in e.entries && from !in e.bases && e.rows == d.rows
            && Lookup(e.folder, to) == Lookup(d.folder, to)
            && Lookup(e.entries, to) == Lookup(d.entries, to) && Lookup(e.bases, to) == Lookup(d.bases, to)
  {
    hide PendingDirectoryMove;
  }

  // ── a job that leaves the queue ───────────────────────────────────────────

  /** There is nothing to do for a job: an upload of a row that has nothing to send, is being written,
      or goes with its directory; a delete of what the hub never had; a copy whose snapshot is gone. */
  predicate NothingToDo(d: Replica, kind: JobKind) {
    match kind
    case Push(key) => key !in d.entries || !d.entries[key].state.Dirty? || key in d.writers || PendingDirectoryMove(d.rows.jobs, key)
    case Delete(key, ifMatch) => DeleteMatch(d, key, ifMatch).None?
    case ConflictUpload(key, sha, _) => sha !in d.kept && (key in d.folder ==> d.folder[key].sha != sha)
    case _ => false
  }

  /** The decision about the key brings the folder to the hub's version, and leaves no work. */
  predicate SettlesKey(d: Replica, key: Key, remote: Option<Digest>) {
    SyncTurns.Arrives(Decide(LiveSha(d, key), Lookup(d.bases, key), remote))
  }

  /** The hub's answer ends the work of the job that asked. */
  predicate AnswerEnds(d: Replica) {
    match d.flight
    case Pushing(_, _, _, reply) => reply.Accepted? || (reply.Refused? && !TriedAgain(d))
    case Deleting(_, _, _, reply) => reply.Accepted? || reply.Missing? || (reply.Refused? && !TriedAgain(d))
    case Renaming(_, _, _, reply) => reply.Accepted? || reply.Missing? || reply.Refused?
    case SendingCopy(_, _, _, _, reply) => reply.Accepted?
    case _ => false
  }

  /** When a row may leave the queue in a step of the engine. */
  predicate MayLeave(s: System, st: Step, j: Job) {
    var d := s.mirror;
    var own, runs := j.kind.MainKey(), d.running == Some(j.seqNo);
    match st
    case Scan(key, _) => own == key && (if key in d.folder then LiveSha(d, key) != Some(d.folder[key].sha) else LiveSha(d, key).Some?)
    case ReconcileKey(key, remote) => own == key && SettlesKey(d, key, remote)
    case SendPull => runs
    case LandPull(_) => runs || (d.flight.Pulling? && own == d.flight.key)
    case KeepConflict => runs || (d.flight.ConflictChosen? && own == d.flight.key)
    case StartJob(job, _) => j.seqNo == job.seqNo && NothingToDo(d, job.kind)
    case Land =>
      && AnswerEnds(d)
      && (match d.flight
         case Pushing(key, _, _, reply) => runs || (reply.Refused? && own == key && SettlesKey(d, key, reply.current))
         case Deleting(key, _, _, reply) => runs || (reply.Refused? && own == key && SettlesKey(d, key, reply.current))
         case Renaming(from, _, _, reply) => runs || (reply.Refused? && own == from)
         case SendingCopy(key, _, _, _, _) => runs || own == key
         case _ => false)
    case TargetIs(_) => d.flight.TargetAsked? && ResultKey(d.rows.jobs, d.flight.to) == d.flight.to && (runs || own == d.flight.to)
    case NowIs(remote) => runs && remote.None?
    case FollowRename(from, _) => own == from && from in d.entries && d.entries[from].state.Dirty?
    case _ => false
  }

  /** The work with a row's id is of the same key: the row that replaces another is the key's own. */
  lemma {:induction false} EnqueueReplaces(rows: Rows, kind: JobKind, priority: Priority, key: Key, j: Job)
    requires SyncTurns.FileWork(kind, key) && j in rows.jobs && j !in rows.Enqueue(kind, priority).jobs
    ensures j.kind.MainKey() == key
  {
    SyncTurns.IdIsWork(kind, j.kind, key);
  }

  lemma {:induction false} EnsureKeeps(rows: Rows, kind: JobKind)
    ensures forall j <- rows.jobs :: j in rows.Ensure(kind).jobs
  {
  }

  lemma {:induction false} ScanLeaves(d: Replica, key: Key, priority: Priority, j: Job)
    requires j in d.rows.jobs && j !in Scanned(d, key, priority).rows.jobs
    ensures j.kind.MainKey() == key && (if key in d.folder then LiveSha(d, key) != Some(d.folder[key].sha) else LiveSha(d, key).Some?)
  {
    hide Rows.Enqueue, PendingDirectoryMove, ClearTrash;
    if key in d.folder {
      EnqueueReplaces(d.rows, JobKind.Push(key), priority, key, j);
    } else {
      GoneLeaves(d, key, j);
    }
  }

  lemma {:induction false} GoneLeaves(d: Replica, key: Key, j: Job)
    requires j in d.rows.jobs
    ensures j !in Gone(d, key).rows.jobs ==> j.kind.MainKey() == key
    ensures j !in Gone(d.(outside := d.outside - {key}), key).rows.jobs ==> j.kind.MainKey() == key
  {
    hide Rows.Enqueue;
    var left := d.rows.Keep(NotKey(key));
    if j in left.jobs && j !in left.Enqueue(JobKind.Delete(key, None), Interactive).jobs {
      EnqueueReplaces(left, JobKind.Delete(key, None), Interactive, key, j);
    }
  }

  lemma {:induction false} DecisionLeaves(d: Replica, key: Key, remote: Option<Digest>, j: Job)
    requires j in d.rows.jobs && j !in Decided(d, key, remote).rows.jobs
    ensures j.kind.MainKey() == key && SettlesKey(d, key, remote)
  {
    hide Acted, Blocked, PendingDirectoryMove, PendingRename, Decide, LiveSha;
    var a := Decide(LiveSha(d, key), Lookup(d.bases, key), remote);
    if j !in Acted(d.(flight := Idle), key, a).rows.jobs {
      ActionLeaves(d, key, a, j);
    }
  }

  lemma {:induction false} ActionLeaves(d: Replica, key: Key, a: Action, j: Job)
    requires j in d.rows.jobs && j !in Acted(d.(flight := Idle), key, a).rows.jobs
    ensures j.kind.MainKey() == key && SyncTurns.Arrives(a)
  {
    hide Rows.Ensure;
    EnsureKeeps(d.rows, JobKind.Push(key));
    EnsureKeeps(d.rows, JobKind.Delete(key, None));
    match a {
      case Push(_) => assert false;
      case DeleteRemote(_) => assert false;
      case _ =>
    }
  }

  /** The end of the work takes the running row. */
  lemma {:induction false} SettleLeaves(d: Replica, j: Job)
    requires j in d.rows.jobs && j !in Settle(d).rows.jobs
    ensures d.running == Some(j.seqNo) && d.flight.Idle?
  {
    DoneLeaves(d, j);
    hide Done;
  }

  lemma {:induction false} DoneLeaves(d: Replica, j: Job)
    ensures j in d.rows.jobs && j !in Done(d).rows.jobs ==> d.running == Some(j.seqNo)
  {
  }

  lemma {:induction false} PullLeaves(d: Replica, got: Option<Digest>, j: Job)
    requires d.flight.Pulling? && j in d.rows.jobs && j !in PullLand(d, got).rows.jobs
    ensures d.running == Some(j.seqNo) || j.kind.MainKey() == d.flight.key
  {
    hide LandingAllowed, Scanned;
    var key := d.flight.key;
    if j !in Scanned(d, key, Interactive).rows.jobs {
      ScanLeaves(d, key, Interactive, j);
    }
    match got {
      case None => SettleLeaves(d.(flight := Idle), j);
      case Some(sha) =>
        if LandingAllowed(d) {
          if j in Landed(d, key, sha).rows.jobs {
            SettleLeaves(Landed(d, key, sha), j);
          }
        } else if j in Scanned(d, key, Interactive).rows.jobs {
          ScanKeepsFolder(d, key, Interactive);
          SettleLeaves(Deferred(Scanned(d, key, Interactive), key), j);
        }
    }
  }

  lemma {:induction false} ConflictLeaves(d: Replica, j: Job)
    requires d.flight.ConflictChosen? && j in d.rows.jobs && j !in RecordConflict(d).rows.jobs
    ensures d.running == Some(j.seqNo) || j.kind.MainKey() == d.flight.key
  {
    hide Preserved, StillExpected, ResultKey, Settle;
    var key, entry := d.flight.key, d.flight.entry;
    if key !in d.folder {
      SettleLeaves(d.(flight := Idle), j);
    } else if !StillExpected(d, key, Some(entry)) {
      SettleLeaves(Deferred(d, ResultKey(d.rows.jobs, key)), j);
    } else {
      PreservedLeaves(d, key, entry, d.flight.base, j);
      if j in Preserved(d, key, entry, d.flight.base).rows.jobs {
        SettleLeaves(Preserved(d, key, entry, d.flight.base), j);
      }
    }
  }

  lemma {:induction false} PreservedLeaves(d: Replica, key: Key, entry: Entry, base: Option<Digest>, j: Job)
    requires key in d.folder && j in d.rows.jobs
    ensures Preserved(d, key, entry, base).running == d.running
    ensures j !in Preserved(d, key, entry, base).rows.jobs ==> j.kind.MainKey() == key
  {
    hide Rows.Ensure, Snapshotted;
    var upload := ConflictUpload(key, d.folder[key].sha, base);
    EnsureKeeps(d.rows, upload);
    EnsureKeeps(d.rows.Keep(NotKey(key)), upload);
    SnapshotKeeps(d, key, entry);
  }

  lemma {:induction false} SnapshotKeeps(d: Replica, key: Key, entry: Entry)
    requires key in d.folder
    ensures var e := Snapshotted(d, key, entry); e.rows == d.rows && e.running == d.running
  {
  }

  lemma {:induction false} StartLeaves(d: Replica, job: Job, copy: Key, j: Job)
    requires d.flight.Idle? && j in d.rows.jobs && j !in RunJob(d, job, copy).rows.jobs
    ensures j.seqNo == job.seqNo && NothingToDo(d, job.kind)
  {
    hide RunPush, RunDelete, RunRename, RunConflict, NothingToDo;
    var r := d.(running := Some(job.seqNo));
    match job.kind {
      case Push(key) => PushStartLeaves(d, r, key, j);
      case Delete(key, ifMatch) => DeleteStartLeaves(d, r, key, ifMatch, j);
      case Rename(from, to) => RenameStartLeaves(r, from, to);
      case ConflictUpload(key, sha, base) => CopyStartLeaves(d, r, key, sha, base, copy, j);
      case _ =>
    }
  }

  lemma {:induction false} PushStartLeaves(d: Replica, r: Replica, key: Key, j: Job)
    requires r == d.(running := r.running) && j in d.rows.jobs && j !in RunPush(r, key).rows.jobs
    ensures r.running == Some(j.seqNo) && NothingToDo(d, JobKind.Push(key))
  {
    hide PendingDirectoryMove, Done, Uploading;
    DoneLeaves(r, j);
    if key in d.folder {
      UploadingKeeps(r, key);
    }
  }

  lemma {:induction false} UploadingKeeps(d: Replica, key: Key)
    requires key in d.folder
    ensures Uploading(d, key, Lookup(d.bases, key)).rows == d.rows
  {
  }

  lemma {:induction false} DeleteStartLeaves(d: Replica, r: Replica, key: Key, ifMatch: Option<Digest>, j: Job)
    requires r == d.(running := r.running) && j in d.rows.jobs && j !in RunDelete(r, key, ifMatch).rows.jobs
    ensures r.running == Some(j.seqNo) && NothingToDo(d, JobKind.Delete(key, ifMatch))
  {
    hide ResultKey, Done;
    DoneLeaves(r.(entries := NoTombstone(r.entries, ResultKey(r.rows.jobs, key))), j);
  }

  lemma {:induction false} RenameStartLeaves(r: Replica, from: Key, to: Key)
    ensures RunRename(r, from, to).rows == r.rows
  {
    hide ResultKey;
  }

  lemma {:induction false} CopyStartLeaves(d: Replica, r: Replica, key: Key, sha: Digest, base: Option<Digest>,
      copy: Key, j: Job)
    requires r == d.(running := r.running) && j in d.rows.jobs && j !in RunConflict(r, key, sha, copy).rows.jobs
    ensures r.running == Some(j.seqNo) && NothingToDo(d, ConflictUpload(key, sha, base))
  {
    hide ResultKey, Done;
    DoneLeaves(if sha in r.kept || key !in r.folder then r else r.(kept := r.kept + {r.folder[key].sha}), j);
  }

  lemma {:induction false} SettledDecisionLeaves(d: Replica, key: Key, remote: Option<Digest>, j: Job)
    requires j in d.rows.jobs && j !in Settle(Decided(d, key, remote)).rows.jobs
    ensures d.running == Some(j.seqNo) || (j.kind.MainKey() == key && SettlesKey(d, key, remote))
  {
    hide Decided, SettlesKey;
    if j in Decided(d, key, remote).rows.jobs {
      SettleLeaves(Decided(d, key, remote), j);
      DecidedRuns(d, key, remote);
    } else {
      DecisionLeaves(d, key, remote, j);
    }
  }

  lemma {:induction false} DecidedRuns(d: Replica, key: Key, remote: Option<Digest>)
    ensures Decided(d, key, remote).running == d.running
  {
    hide Acted, Blocked, PendingDirectoryMove, PendingRename, Decide, LiveSha;
    var a := Decide(LiveSha(d, key), Lookup(d.bases, key), remote);
    ActedRuns(d.(flight := Idle), key, a);
    if key != "" && !PendingDirectoryMove(d.rows.jobs, key) && (key in d.writers || PendingRename(d.rows.jobs, key)) {
      assert Decided(d, key, remote) == Deferred(d, key);
    }
  }

  lemma {:induction false} ActedRuns(d: Replica, key: Key, a: Action)
    ensures Acted(d, key, a).running == d.running
  {
    hide Rows.Ensure, Rows.Keep;
  }

  lemma {:induction false} UploadLeaves(d: Replica, j: Job)
    requires d.flight.Pushing? && j in d.rows.jobs && j !in LandPush(d).rows.jobs
    ensures AnswerEnds(d)
    ensures d.running == Some(j.seqNo)
            || (d.flight.reply.Refused? && j.kind.MainKey() == d.flight.key && SettlesKey(d, d.flight.key, d.flight.reply.current))
  {
    hide LandPush, ResultKey, SettlesKey;
    if d.flight.reply.Refused? {
      UploadRefusedLeaves(d, d.flight.reply.current, j);
    } else {
      UploadEndedLeaves(d, j);
    }
  }

  lemma {:induction false} UploadRefusedLeaves(d: Replica, current: Option<Digest>, j: Job)
    requires d.flight.Pushing? && d.flight.reply == Refused(current) && j in d.rows.jobs && j !in LandPush(d).rows.jobs
    ensures !TriedAgain(d)
    ensures d.running == Some(j.seqNo) || (j.kind.MainKey() == d.flight.key && SettlesKey(d, d.flight.key, current))
  {
    hide Decided, ResultKey, SettlesKey, Settle, Done, Pushed;
    if !TriedAgain(d) {
      SettledDecisionLeaves(d, d.flight.key, current, j);
    }
  }

  lemma {:induction false} UploadEndedLeaves(d: Replica, j: Job)
    requires d.flight.Pushing? && !d.flight.reply.Refused? && j in d.rows.jobs && j !in LandPush(d).rows.jobs
    ensures d.running == Some(j.seqNo) && d.flight.reply.Accepted?
  {
    hide Decided, ResultKey, Settle, Done, Pushed;
    var key, landed := d.flight.key, ResultKey(d.rows.jobs, d.flight.key);
    DoneLeaves(Pushed(d, key, landed, d.flight.sha), j);
    PushedKeeps(d, key, landed, d.flight.sha);
  }

  lemma {:induction false} PushedKeeps(d: Replica, key: Key, landed: Key, sha: Digest)
    ensures var e := Pushed(d, key, landed, sha); e.rows == d.rows && e.running == d.running
  {
  }

  lemma {:induction false} DeleteLeaves(d: Replica, j: Job)
    requires d.flight.Deleting? && j in d.rows.jobs && j !in LandDelete(d).rows.jobs
    ensures AnswerEnds(d)
    ensures d.running == Some(j.seqNo)
            || (d.flight.reply.Refused? && j.kind.MainKey() == d.flight.key && SettlesKey(d, d.flight.key, d.flight.reply.current))
  {
    hide LandDelete, ResultKey, SettlesKey;
    if d.flight.reply.Refused? {
      DeleteRefusedLeaves(d, d.flight.reply.current, j);
    } else {
      DeleteEndedLeaves(d, j);
    }
  }

  lemma {:induction false} DeleteRefusedLeaves(d: Replica, current: Option<Digest>, j: Job)
    requires d.flight.Deleting? && d.flight.reply == Refused(current) && j in d.rows.jobs && j !in LandDelete(d).rows.jobs
    ensures !d.flight.fixed && ResultKey(d.rows.jobs, d.flight.key) == d.flight.key
    ensures d.running == Some(j.seqNo) || (j.kind.MainKey() == d.flight.key && SettlesKey(d, d.flight.key, current))
  {
    hide Decided, ResultKey, SettlesKey, Settle, Done, DeletedRemotely;
    if !d.flight.fixed && ResultKey(d.rows.jobs, d.flight.key) == d.flight.key {
      SettledDecisionLeaves(d, d.flight.key, current, j);
    }
  }

  lemma {:induction false} DeleteEndedLeaves(d: Replica, j: Job)
    requires d.flight.Deleting? && !d.flight.reply.Refused? && j in d.rows.jobs && j !in LandDelete(d).rows.jobs
    ensures d.running == Some(j.seqNo) && (d.flight.reply.Accepted? || d.flight.reply.Missing?)
  {
    hide Decided, ResultKey, Settle, Done, DeletedRemotely;
    var key, local := d.flight.key, ResultKey(d.rows.jobs, d.flight.key);
    DoneLeaves(DeletedRemotely(d, key, local, d.flight.fixed), j);
    DeletedKeeps(d, key, local, d.flight.fixed);
  }

  lemma {:induction false} DeletedKeeps(d: Replica, key: Key, local: Key, fixed: bool)
    ensures var e := DeletedRemotely(d, key, local, fixed); e.rows == d.rows && e.running == d.running
  {
  }

  lemma {:induction false} RenameLeaves(d: Replica, j: Job)
    requires d.flight.Renaming? && j in d.rows.jobs && j !in LandRename(d).rows.jobs
    ensures MayLeave(System(d, map[], {}), Land, j)
  {
    hide Decided, ResultKey, SettlesKey, Settle, PushMoved, Done, SourceMissing;
    var local := ResultKey(d.rows.jobs, d.flight.to);
    MovedKeeps(d, local, j);
    match d.flight.reply {
      case Refused(current) => SettledDecisionLeaves(PushMoved(d, local), d.flight.from, current, j);
      case Missing => DoneLeaves(SourceMissing(d, local), j);
      case Accepted => DoneLeaves(d, j);
      case Waiting =>
      case TargetTaken =>
    }
  }

  lemma {:induction false} MovedKeeps(d: Replica, local: Key, j: Job)
    requires j in d.rows.jobs
    ensures j in PushMoved(d, local).rows.jobs && PushMoved(d, local).running == d.running
    ensures j in SourceMissing(d, local).rows.jobs && SourceMissing(d, local).running == d.running
  {
    hide Rows.Ensure;
    EnsureKeeps(d.rows, JobKind.Push(local));
  }

  lemma {:induction false} CopyLeaves(d: Replica, j: Job)
    requires d.flight.SendingCopy? && j in d.rows.jobs && j !in LandCopy(d).rows.jobs
    ensures MayLeave(System(d, map[], {}), Land, j)
  {
    hide ResultKey, Scanned, Done, StillHolds, CopyRecorded;
    var c, key := CopyRecorded(d), d.flight.key;
    RecordedKeeps(d);
    if d.flight.reply.Accepted? {
      DoneLeaves(c, j);
      DoneLeaves(Deferred(Scanned(c, key, Interactive), key), j);
      ScanKeepsFolder(c, key, Interactive);
      if j !in Scanned(c, key, Interactive).rows.jobs {
        ScanLeaves(c, key, Interactive, j);
      }
    }
  }

  lemma {:induction false} RecordedKeeps(d: Replica)
    requires d.flight.SendingCopy?
    ensures CopyRecorded(d).rows == d.rows && CopyRecorded(d).running == d.running
  {
    hide ResultKey;
  }

  lemma {:induction false} FollowLeaves(d: Replica, from: Key, to: Key, j: Job)
    requires j in d.rows.jobs && j !in ApplyRemoteRename(d, from, to).rows.jobs
    ensures j.kind.MainKey() == from && from in d.entries && d.entries[from].state.Dirty?
  {
    hide Rows.Enqueue, PendingDirectoryMove;
    if from in d.entries && j !in d.rows.Enqueue(JobKind.Push(from), Interactive).jobs {
      EnqueueReplaces(d.rows, JobKind.Push(from), Interactive, from, j);
    }
  }

  lemma {:induction false} RecoveryLeaves(d: Replica, key: Key, j: Job)
    requires j in d.rows.jobs
    ensures j in Recovered(d, key).rows.jobs
  {
  }

  lemma {:induction false} TargetLeaves(d: Replica, remote: Option<Digest>, j: Job)
    requires d.flight.TargetAsked? && j in d.rows.jobs && j !in TargetAnswered(d, remote).rows.jobs
    ensures ResultKey(d.rows.jobs, d.flight.to) == d.flight.to && (d.running == Some(j.seqNo) || j.kind.MainKey() == d.flight.to)
  {
    hide Decided, Settle, ResultKey, SettlesKey;
    if ResultKey(d.rows.jobs, d.flight.to) == d.flight.to {
      SettledDecisionLeaves(d.(bases := d.bases - {d.flight.localTo}), d.flight.to, remote, j);
    }
  }

  lemma {:induction false} NowLeaves(d: Replica, remote: Option<Digest>, j: Job)
    requires d.flight.CopySent? && j in d.rows.jobs && j !in CopyAnswered(d, remote).rows.jobs
    ensures d.running == Some(j.seqNo) && remote.None?
  {
    hide Rows.Ensure, Done;
    EnsureKeeps(d.rows, JobKind.Push(d.flight.key));
    DoneLeaves(ToPush(d, d.flight.key, None), j);
  }

  lemma {:induction false} LandLeaves(s: System, j: Job)
    requires Asking(s.mirror.flight) && j in s.mirror.rows.jobs && j !in Landing(s.mirror).rows.jobs
    ensures MayLeave(s, Land, j)
  {
    hide LandPush, LandDelete, LandRename, LandCopy, SettlesKey, AnswerEnds;
    var d := s.mirror;
    match d.flight {
      case Pushing(_, _, _, _) => UploadLeaves(d, j);
      case Deleting(_, _, _, _) => DeleteLeaves(d, j);
      case Renaming(_, _, _, _) => RenameLeaves(d, j);
      case SendingCopy(_, _, _, _, _) => CopyLeaves(d, j);
    }
  }

  /** A row leaves the queue only when its work is done, when there is nothing to do for it, or when a
      step of its own key makes it pointless. A request that fails, or whose answer settles nothing,
      leaves it. */
  lemma {:induction false} JobLeavesOnlyWhenDone(s: System, st: Step, j: Job)
    requires Enabled(s, st) && EngineStep(st) && j in s.mirror.rows.jobs && j !in Next(s, st).mirror.rows.jobs
    ensures MayLeave(s, st, j)
  {
    hide Scanned, Recovered, Decided, PullBegin, PullLand, RecordConflict, RunJob, Landing, TargetAnswered,
      CopyAnswered, ApplyRemoteRename, NothingToDo, SettlesKey, AnswerEnds, ResultKey;
    var d := s.mirror;
    match st {
      case Scan(key, priority) => ScanLeaves(d, key, priority, j);
      case RecoverJob(key) => RecoveryLeaves(d, key, j);
      case ReconcileKey(key, remote) => DecisionLeaves(d, key, remote, j);
      case SendPull => BeginLeaves(d, j);
      case LandPull(got) => PullLeaves(d, got, j);
      case KeepConflict => ConflictLeaves(d, j);
      case StartJob(job, copy) => StartLeaves(d, job, copy, j);
      case Land => LandLeaves(s, j);
      case TargetIs(remote) => TargetLeaves(d, remote, j);
      case NowIs(remote) => NowLeaves(d, remote, j);
      case FollowRename(from, to) => FollowLeaves(d, from, to, j);
      case _ =>
    }
  }

  lemma {:induction false} BeginLeaves(d: Replica, j: Job)
    requires d.flight.PullChosen? && j in d.rows.jobs && j !in PullBegin(d).rows.jobs
    ensures d.running == Some(j.seqNo)
  {
    hide StillExpected, Stamp, Settle;
    var key := d.flight.key;
    if !StillExpected(d, key, d.flight.expected) {
      SettleLeaves(Deferred(d, key), j);
    } else if !MayLand(d, key) {
      SettleLeaves(d.(flight := Idle), j);
    }
  }

  // ── a download yields ─────────────────────────────────────────────────────

  /** Between the request and the landing only others act. */
  predicate Meanwhile(st: Step) { LocalStep(st) || st.ChangeHub? }

  /** A rename that takes effect here. */
  predicate Renames(d: Replica, st: Step) { st.Move? && st.from != st.to && st.from in d.folder }

  lemma {:induction false} GoneEngine(d: Replica, key: Key)
    ensures Gone(d, key).flight == d.flight && Gone(d, key).epoch == d.epoch
  {
    hide Rows.Keep, Rows.Enqueue;
  }

  lemma {:induction false} RemovalEngine(d: Replica, key: Key)
    ensures Deleted(d, key).flight == d.flight && Deleted(d, key).epoch == d.epoch
  {
    hide Gone;
    GoneEngine(d.(folder := d.folder - {key}, unsaved := d.unsaved - {key}, outside := d.outside - {key}), key);
  }

  lemma {:induction false} DestinationEngine(d: Replica, to: Key)
    ensures DestinationGone(d, to).flight == d.flight && DestinationGone(d, to).epoch == d.epoch
  {
    hide Rows.Enqueue, Deleted;
    RemovalEngine(d, to);
  }

  /** A rename moves the epoch on; no local step touches the request. */
  lemma {:induction false} RenameMovesEpoch(d: Replica, from: Key, to: Key)
    ensures var e := RenameLocal(d, from, to); e.flight == d.flight && e.epoch == d.epoch + (if from != to && from in d.folder then 1 else 0)
  {
    hide DestinationGone, RekeyedRows, Rows.Keep, Rows.Enqueue, MovedRow, MovedMember, MovedRecord;
    DestinationEngine(d.(epoch := d.epoch + 1), to);
  }

  lemma {:induction false} HandleEpoch(d: Replica, key: Key, sha: Digest, create: bool, truncate: bool)
    ensures var e := OpenWrite(d, key, create, truncate); e.flight == d.flight && e.epoch == d.epoch
    ensures var e := HandleWrite(d, key, sha); e.flight == d.flight && e.epoch == d.epoch
    ensures var e := CommitHandle(d, key); e.flight == d.flight && e.epoch == d.epoch
    ensures var e := CloseWrite(d, key); e.flight == d.flight && e.epoch == d.epoch
  {
    hide Rows.Enqueue;
  }

  lemma {:induction false} LocalEpoch(d: Replica, st: Step)
    requires LocalStep(st)
    ensures var e := Locally(d, st); e.flight == d.flight && e.epoch == d.epoch + (if Renames(d, st) then 1 else 0)
  {
    hide RenameLocal, Deleted, OpenWrite, HandleWrite, CommitHandle, CloseWrite, Rows.Enqueue, ClearTrash;
    match st {
      case Move(from, to) => RenameMovesEpoch(d, from, to);
      case Remove(key) => RemovalEngine(d, key);
      case OpenForWrite(key, create, truncate) => HandleEpoch(d, key, "", create, truncate);
      case WriteThrough(key, sha) => HandleEpoch(d, key, sha, false, false);
      case Flush(key) => HandleEpoch(d, key, "", false, false);
      case Close(key) => HandleEpoch(d, key, "", false, false);
      case Write(_, _) =>
      case ChangeFolder(_, _) =>
    }
  }

  predicate RenamedBetween(trace: seq<System>, steps: seq<Step>, m: nat, n: nat)
    requires n <= |steps| && n <= |trace|
  {
    exists i :: m <= i < n && Renames(trace[i].mirror, steps[i])
  }

  lemma {:induction false} EpochGrows(trace: seq<System>, steps: seq<Step>, m: nat, n: nat)
    requires Run(trace, steps) && m <= n < |trace| && forall i :: m <= i < n ==> Meanwhile(steps[i])
    ensures trace[n].mirror.flight == trace[m].mirror.flight && trace[m].mirror.epoch <= trace[n].mirror.epoch
    ensures RenamedBetween(trace, steps, m, n) ==> trace[m].mirror.epoch < trace[n].mirror.epoch
    decreases n
  {
    hide Enabled, Locally, Answer, ByEngine, Renames;
    if m < n {
      EpochGrows(trace, steps, m, n - 1);
      var st := steps[n - 1];
      if LocalStep(st) {
        LocalEpoch(trace[n - 1].mirror, st);
      } else {
        assert !Renames(trace[n - 1].mirror, st) by { NoRename(trace[n - 1].mirror, st); }
      }
    }
  }

  lemma {:induction false} NoRename(d: Replica, st: Step)
    requires !LocalStep(st)
    ensures !Renames(d, st)
  {
  }

  lemma {:induction false} NotLanded(d: Replica, got: Option<Digest>)
    requires d.flight.Pulling? && !LandingAllowed(d)
    ensures PullLand(d, got).folder == d.folder && (got.Some? ==> d.flight.key in PullLand(d, got).recheck)
  {
    hide LandingAllowed, Rows.Keep, Scanned;
    ScanKeepsFolder(d, d.flight.key, Interactive);
  }

  /** A download that arrives after the file has changed in any way, or after any rename, changes no
      file, and its key is looked at again: whatever others do between the request and the landing, and
      whether or not the change has been scanned. */
  lemma {:induction false} PullYieldsToChanges(trace: seq<System>, steps: seq<Step>, m: nat, n: nat, key: Key,
      got: Option<Digest>)
    requires m < n && |steps| == n + 1 && |trace| == n + 2 && steps[m].SendPull? && steps[n] == LandPull(got)
    requires trace[m + 1].mirror.flight.Pulling? && trace[m + 1].mirror.flight.key == key
    requires forall i :: m < i < n ==> Meanwhile(steps[i])
    requires Run(trace, steps)
    ensures Stamp(trace[n].mirror, key) != Stamp(trace[m].mirror, key) || RenamedBetween(trace, steps, m + 1, n) ==>
              && trace[n + 1].mirror.folder == trace[n].mirror.folder
              && (got.Some? ==> key in trace[n + 1].mirror.recheck)
  {
    hide Enabled, Next, Renames, PullBegin, PullLand, LandingAllowed;
    var sent, at := trace[m].mirror, trace[n].mirror;
    assert steps[m] == SendPull;
    SendIs(trace[m]);
    LandIs(trace[n], got);
    EpochGrows(trace, steps, m + 1, n);
    BeginStamps(sent);
    if !LandingAllowed(at) {
      NotLanded(at, got);
    } else {
      AllowedMeansSame(at);
    }
  }

  lemma {:induction false} AllowedMeansSame(d: Replica)
    requires d.flight.Pulling? && LandingAllowed(d)
    ensures d.epoch == d.flight.epoch && Stamp(d, d.flight.key) == d.flight.stamp
  {
  }

  lemma {:induction false} SendIs(s: System)
    requires Enabled(s, SendPull)
    ensures s.mirror.flight.PullChosen? && Next(s, SendPull).mirror == PullBegin(s.mirror)
  {
    hide PullBegin;
  }

  lemma {:induction false} LandIs(s: System, got: Option<Digest>)
    requires Enabled(s, LandPull(got))
    ensures s.mirror.flight.Pulling? && Next(s, LandPull(got)).mirror == PullLand(s.mirror, got)
  {
    hide PullLand;
  }

  lemma {:induction false} BeginStamps(d: Replica)
    requires d.flight.PullChosen?
    ensures var e := PullBegin(d);
            e.flight.Pulling? ==> e.flight.key == d.flight.key && e.flight.stamp == Stamp(d, d.flight.key) && e.flight.epoch == d.epoch == e.epoch
  {
    hide Rows.Keep, StillExpected, Stamp;
    var key := d.flight.key;
    if !StillExpected(d, key, d.flight.expected) {
      assert Deferred(d, key).flight.Idle?;
    } else if !MayLand(d, key) {
      assert Settle(d.(flight := Idle)).flight.Idle?;
    } else {
      assert PullBegin(d) == d.(flight := Pulling(key, d.flight.expected, Stamp(d, key), d.epoch));
    }
  }

  /** What is past its time goes, and nothing else. */
  lemma {:induction false} ExpiryTakesOnlyWhatItNames(s: System, keys: set<Key>, snapshots: set<Digest>)
    requires Enabled(s, Expire(keys, snapshots))
    ensures var d, e := s.mirror, Next(s, Expire(keys, snapshots)).mirror;
            && (forall k :: Lookup(e.trash, k) == if k in keys then None else Lookup(d.trash, k))
            && (forall x :: x in e.kept <==> x in d.kept && x !in snapshots)
            && (forall k <- d.conflicts :: d.conflicts[k].localSha in d.kept ==> d.conflicts[k].localSha in e.kept)
            && e.folder == d.folder && e.entries == d.entries && e.rows == d.rows
  {
  }
}
