/** The engine by itself: what its steps and the hub's answers come to for one key when nobody else
    acts meanwhile. It is the turn of the convergence model, whatever the decision, so that what is
    proved of passes there is true of the folder, the ledger and the hub here. */
module SyncTurns {
  import opened Options
  import opened Keys
  import opened Reconcile
  import opened Jobs
  import opened Tables
  import opened Replicas
  import opened SyncSteps
  import opened SyncInvariant
  import opened SyncRuns

  // ── what the convergence model sees ───────────────────────────────────────

  function Held(d: Replica, key: Key): Device {
    Device(LiveSha(d, key), Lookup(d.bases, key),
           if key in d.folder then Some(d.folder[key].sha) else None,
           if key in d.entries && d.entries[key].state.Tombstone? then Some(d.entries[key].sha) else None)
  }

  function View(s: System, key: Key): Cluster { Cluster(Lookup(s.hub, key), [Held(s.mirror, key)], s.copies) }

  /** No handle is open on the key, no move concerns it, and of its jobs only uploads and plain deletes
      are queued. */
  predicate Calm(d: Replica, key: Key) {
    && Ready(d) && key != "" && key !in d.writers && !PendingPathMove(d.rows.jobs, key)
    && forall j <- d.rows.jobs :: j.kind.MainKey() == key ==> j.kind == JobKind.Push(key) || j.kind == JobKind.Delete(key, None)
  }

  predicate Unprotected(d: Replica) { !d.cfg.protected && d.cfg.propagate }

  // ── what stays ────────────────────────────────────────────────────────────

  /** The rows of other keys are all there, and no row is new. */
  ghost predicate RowsSettle(was: seq<Job>, now: seq<Job>, key: Key) {
    && (forall j :: j in now ==> j in was)
    && (forall j :: j in was && j.kind.MainKey() != key ==> j in now)
  }

  ghost predicate LedgerStays(d: Replica, e: Replica, key: Key) {
    forall k :: k != key ==>
      && Lookup(e.folder, k) == Lookup(d.folder, k) && Lookup(e.entries, k) == Lookup(d.entries, k)
      && Lookup(e.bases, k) == Lookup(d.bases, k) && Lookup(e.marks, k) == Lookup(d.marks, k)
      && Lookup(e.conflicts, k) == Lookup(d.conflicts, k)
  }

  ghost predicate HubStays(s: System, t: System, key: Key) {
    forall k :: k != key ==> Lookup(t.hub, k) == Lookup(s.hub, k)
  }

  // ── steps without interference ────────────────────────────────────────────

  predicate ByItself(st: Step) { EngineStep(st) || st.HubAnswers? }

  /** The engine gets from one state to the other with nobody else acting. */
  ghost predicate Reaches(s: System, t: System) {
    exists trace, steps :: Run(trace, steps) && trace[0] == s && trace[|steps|] == t && forall st <- steps :: ByItself(st)
  }

  lemma {:induction false} ReachesItself(s: System)
    ensures Reaches(s, s)
  {
    assert Run([s], []);
  }

  lemma {:induction false} OneMore(s: System, t: System, st: Step)
    requires Reaches(s, t) && Enabled(t, st) && ByItself(st)
    ensures Reaches(s, Next(t, st))
  {
    hide Enabled, Next, EngineStep;
    var trace, steps :| Run(trace, steps) && trace[0] == s && trace[|steps|] == t && forall st <- steps :: ByItself(st);
    var longer, more := trace + [Next(t, st)], steps + [st];
    assert forall i {:trigger more[i]} :: 0 <= i < |steps| ==> more[i] == steps[i] && longer[i] == trace[i] && longer[i + 1] == trace[i + 1];
    assert Run(longer, more) && longer[0] == s && longer[|more|] == Next(t, st);
  }

  lemma {:induction false} ThenStart(s: System, t: System, job: Job, copy: Key)
    requires Reaches(s, t) && Ready(t.mirror) && job in t.mirror.rows.jobs
    ensures Reaches(s, t.(mirror := RunJob(t.mirror, job, copy)))
  {
    hide Reaches, RunJob;
    OneMore(s, t, StartJob(job, copy));
  }

  /** The hub answers, and the engine takes in what it said. */
  lemma {:induction false} ThenLand(s: System, t: System)
    requires Reaches(s, t) && Asking(t.mirror.flight) && t.mirror.flight.reply.Waiting?
    ensures var d, v := t.mirror, Verdict(t.hub, t.mirror.flight);
            Asking(Replied(d.flight, v)) && Reaches(s, Answer(t).(mirror := Landing(d.(flight := Replied(d.flight, v)))))
  {
    hide Reaches, Verdict, Objects, LandPush, LandDelete, LandRename, LandCopy, Landing;
    OneMore(s, t, HubAnswers);
    OneMore(s, Answer(t), Land);
  }

  /** The engine asks for a file and puts it in the folder. */
  lemma {:induction false} ThenPull(s: System, t: System, sha: Digest)
    requires Reaches(s, t) && t.mirror.flight.PullChosen? && PullBegin(t.mirror).flight.Pulling? && sha != ""
    ensures Reaches(s, t.(mirror := PullLand(PullBegin(t.mirror), Some(sha))))
  {
    hide Reaches, PullBegin, PullLand;
    OneMore(s, t, SendPull);
    OneMore(s, t.(mirror := PullBegin(t.mirror)), LandPull(Some(sha)));
  }

  // ── the queue ─────────────────────────────────────────────────────────────

  /** A move concerns the key in none of its forms. */
  lemma {:induction false} NoMove(jobs: seq<Job>, key: Key)
    requires !PendingPathMove(jobs, key)
    ensures !PendingDirectoryMove(jobs, key) && !PendingRename(jobs, key) && ResultKey(jobs, key) == key
  {
    if jobs != [] {
      assert jobs[0] in jobs;
      assert forall j <- jobs[1..] :: j in jobs;
      NoMove(jobs[1..], key);
      assert FollowMove(jobs[0].kind, key) == key;
      assert forall j <- jobs :: j == jobs[0] || j in jobs[1..];
    }
  }

  predicate FileWork(kind: JobKind, key: Key) {
    (kind.Push? || kind.Delete? || kind.ConflictUpload?) && kind.key == key
  }

  lemma {:induction false} IdIsWork(kind: JobKind, other: JobKind, key: Key)
    requires FileWork(kind, key) && other.DedupeId() == kind.DedupeId()
    ensures SameWork(kind, other) && other.MainKey() == key && FileWork(other, key)
  {
    TagsDiffer(kind, other);
    match kind
    case Push(k) => SameTail("push|", k, other.key);
    case Delete(k, _) => SameTail("delete|", k, other.key);
    case ConflictUpload(k, _, _) => SameTail("conflict|", k, other.key);
  }

  /** After `ensure_job` the work is queued, and nothing else of the queue has changed. */
  lemma {:induction false} Ensured(rows: Rows, kind: JobKind, key: Key, known: set<Digest>) returns (job: Job)
    requires RowsOk(rows, known) && FileWork(kind, key) && KindSeen(kind, known)
    ensures var r := rows.Ensure(kind);
            && RowsOk(r, known) && job in r.jobs && SameWork(kind, job.kind)
            && (job in rows.jobs || job.kind == kind)
            && (forall j :: j in rows.jobs ==> j in r.jobs)
            && (forall j :: j in r.jobs ==> j in rows.jobs || j == job)
  {
    EnsureOk(rows, kind, known);
    hide RowsOk, KindSeen;
    if rows.Has(kind.DedupeId()) {
      job :| job in rows.jobs && job.kind.DedupeId() == kind.DedupeId();
      IdIsWork(kind, job.kind, key);
    } else {
      job := Job(rows.counter + 1, kind, Background);
    }
  }

  /** It leaves the key unmoved. */
  lemma {:induction false} Unmoved(rows: Rows, kind: JobKind, key: Key, known: set<Digest>)
    requires RowsOk(rows, known) && FileWork(kind, key) && KindSeen(kind, known) && !PendingPathMove(rows.jobs, key)
    ensures !PendingPathMove(rows.Ensure(kind).jobs, key)
  {
    var job := Ensured(rows, kind, key, known);
    hide RowsOk, KindSeen, Rows.Ensure;
  }

  /** The work done, its row goes and takes no other with it. */
  lemma {:induction false} OneRowLess(rows: Rows, job: Job, known: set<Digest>)
    requires RowsOk(rows, known) && job in rows.jobs
    ensures forall j :: j in rows.Keep(NotNumber(job.seqNo)).jobs <==> j in rows.jobs && j != job
  {
  }

  lemma {:induction false} OneOfEach(rows: Rows, job: Job, known: set<Digest>)
    requires RowsOk(rows, known) && job in rows.jobs
    ensures forall j <- rows.jobs :: j.seqNo == job.seqNo ==> j == job
  {
  }

  // ── the requests of one job ───────────────────────────────────────────────

  /** An upload that the hub takes: bytes, row and base agree, and the job is done. */
  lemma {:induction false} UploadLands(d: Replica, job: Job, copy: Key)
    requires job.kind.Push? && Ready(d) && !d.cfg.protected && RowsOk(d.rows, d.known) && job in d.rows.jobs
    requires var k := job.kind.key; k in d.entries && d.entries[k].state.Dirty? && k in d.folder && k !in d.writers && !PendingPathMove(d.rows.jobs, k)
    ensures var k, e := job.kind.key, RunJob(d, job, copy);
            && e.flight == Pushing(k, d.folder[k].sha, Lookup(d.bases, k), Waiting)
            && var u := LandPush(e.(flight := Replied(e.flight, Accepted)));
               && u.folder == d.folder && u.conflicts == d.conflicts && Ready(u)
               && u.entries == d.entries[k := Entry(d.folder[k].sha, d.folder[k].id, Clean)]
               && u.bases == d.bases[k := d.folder[k].sha] && u.marks == d.marks - {k}
               && forall j :: j in u.rows.jobs <==> j in d.rows.jobs && j != job
  {
    NoMove(d.rows.jobs, job.kind.key);
    OneRowLess(d.rows, job, d.known);
    hide PendingDirectoryMove, PendingPathMove, ResultKey, RowsOk, Rows.Keep;
  }

  /** A delete that the hub takes: no row, no base, no mark, and the job is done. */
  lemma {:induction false} DeleteLands(d: Replica, job: Job, key: Key, copy: Key)
    requires job.kind == JobKind.Delete(key, None) && Ready(d)
    requires !d.cfg.protected && RowsOk(d.rows, d.known) && job in d.rows.jobs
    requires key in d.bases && !PendingPathMove(d.rows.jobs, key) && (key in d.entries ==> d.entries[key].state.Tombstone?)
    ensures var e := RunJob(d, job, copy);
            && e.flight == Deleting(key, d.bases[key], false, Waiting)
            && var u := LandDelete(e.(flight := Replied(e.flight, Accepted)));
               && u.folder == d.folder && u.conflicts == d.conflicts && Ready(u)
               && u.entries == d.entries - {key} && u.bases == d.bases - {key} && u.marks == d.marks - {key}
               && forall j :: j in u.rows.jobs <==> j in d.rows.jobs && j != job
  {
    NoMove(d.rows.jobs, key);
    OneRowLess(d.rows, job, d.known);
    hide PendingDirectoryMove, PendingPathMove, ResultKey, RowsOk, Rows.Keep;
  }

  /** A download of the version that was seen: it is in the folder, row and base name it, and nothing
      about the key is queued. */
  lemma {:induction false} PullLands(d: Replica, key: Key, sha: Digest)
    requires d.flight == PullChosen(key, Lookup(d.entries, key)) && !d.cfg.protected
    requires key !in d.writers && !PendingPathMove(d.rows.jobs, key)
    requires d.running.Some? ==> forall j <- d.rows.jobs :: j.seqNo == d.running.value ==> j.kind.MainKey() == key
    ensures PullBegin(d).flight.Pulling?
    ensures var u := PullLand(PullBegin(d), Some(sha));
            && Ready(u) && u.marks == d.marks && u.conflicts == d.conflicts
            && (forall k :: k != key ==> Lookup(u.folder, k) == Lookup(d.folder, k))
            && key in u.folder && u.folder[key].sha == sha
            && u.entries == d.entries[key := Entry(sha, u.folder[key].id, Clean)] && u.bases == d.bases[key := sha]
            && forall j :: j in u.rows.jobs <==> j in d.rows.jobs && j.kind.MainKey() != key
  {
    hide PendingPathMove;
  }

  // ── the turn ──────────────────────────────────────────────────────────────

  /** The key can be worked on, its row tells the truth about the folder, and deletes are propagated. */
  ghost predicate LeftAlone(s: System, key: Key) {
    && Calm(s.mirror, key) && Unprotected(s.mirror) && RowsOk(s.mirror.rows, s.mirror.known)
    && Honest(Held(s.mirror, key)) && Lookup(s.hub, key) != Some("")
  }

  /** The folder is brought to the hub's version, or both are the same already. */
  predicate Arrives(a: Action) { a.Pull? || a.TrashLocal? || a.Adopt? || a.Conflict? }

  /** The device has had its turn with the key, and nothing else has changed. */
  ghost predicate Turned(s: System, t: System, key: Key) {
    && View(t, key) == Turn(View(s, key), 0) && Ready(t.mirror)
    && (Arrives(Decision(s, key)) ==> forall j <- t.mirror.rows.jobs :: j.kind.MainKey() != key)
    && RowsSettle(s.mirror.rows.jobs, t.mirror.rows.jobs, key) && LedgerStays(s.mirror, t.mirror, key) && HubStays(s, t, key)
  }

  function Decision(s: System, key: Key): Action { Decide(LiveSha(s.mirror, key), Lookup(s.mirror.bases, key),
      Lookup(s.hub, key)) }

  lemma {:induction false} Decision1(s: System, key: Key)
    requires LeftAlone(s, key)
    ensures var st := ReconcileKey(key, Lookup(s.hub, key));
            && Enabled(s, st) && Reaches(s, Next(s, st))
            && Next(s, st) == s.(mirror := Acted(s.mirror, key, Decision(s, key)))
  {
    NoMove(s.mirror.rows.jobs, key);
    ReachesItself(s);
    OneMore(s, s, ReconcileKey(key, Lookup(s.hub, key)));
    hide PendingDirectoryMove, PendingPathMove, PendingRename, Acted, RowsOk, Reaches;
    assert s.mirror.(flight := Idle) == s.mirror;
  }

  lemma {:induction false} TrashTurns(s: System, key: Key)
    requires LeftAlone(s, key) && Decision(s, key).TrashLocal?
    ensures Turned(s, s.(mirror := Acted(s.mirror, key, TrashLocal)), key)
  {
    hide RowsOk, PendingPathMove;
  }

  lemma {:induction false} AdoptTurns(s: System, key: Key)
    requires LeftAlone(s, key) && Decision(s, key).Adopt?
    ensures Turned(s, s.(mirror := Acted(s.mirror, key, Adopt)), key)
  {
    hide RowsOk, PendingPathMove;
  }

  lemma {:induction false} NothingTurns(s: System, key: Key)
    requires LeftAlone(s, key) && Decision(s, key).Nothing?
    ensures Turned(s, s, key)
  {
    hide RowsOk, PendingPathMove;
  }

  lemma {:induction false} AtOnce(s: System, key: Key) returns (t: System)
    requires LeftAlone(s, key)
    requires var a := Decision(s, key); a.Nothing? || a.TrashLocal? || a.Adopt?
    ensures Reaches(s, t) && Turned(s, t, key)
  {
    Decision1(s, key);
    t := s.(mirror := Acted(s.mirror, key, Decision(s, key)));
    match Decision(s, key) {
      case Nothing => assert t == s; NothingTurns(s, key);
      case TrashLocal => TrashTurns(s, key);
      case Adopt => AdoptTurns(s, key);
    }
    hide Reaches, LeftAlone, Turned, Trashed, Adopted, Decision;
  }

  lemma {:induction false} Downloaded(s: System, key: Key) returns (t: System)
    requires LeftAlone(s, key) && Decision(s, key).Pull?
    ensures Reaches(s, t) && Turned(s, t, key)
  {
    hide Reaches, RowsOk, PendingPathMove, PullBegin, PullLand;
    Decision1(s, key);
    var s1 := s.(mirror := Acted(s.mirror, key, Decision(s, key)));
    PullLands(s1.mirror, key, s.hub[key]);
    ThenPull(s, s1, s.hub[key]);
    t := s1.(mirror := PullLand(PullBegin(s1.mirror), Some(s.hub[key])));
  }

  /** Enough for the turn of an upload. */
  lemma {:induction false} UploadTurns(s: System, t: System, key: Key)
    requires LeftAlone(s, key) && Decision(s, key).Push? && key in s.mirror.folder
    requires var d, u, f := s.mirror, t.mirror, s.mirror.folder[key];
             && t.hub == s.hub[key := f.sha] && t.copies == s.copies
             && u.folder == d.folder && u.conflicts == d.conflicts && Ready(u)
             && u.entries == d.entries[key := Entry(f.sha, f.id, Clean)]
             && u.bases - {key} == d.bases - {key} && Lookup(u.bases, key) == Some(f.sha) && u.marks == d.marks - {key}
             && RowsSettle(d.rows.jobs, u.rows.jobs, key)
    ensures Turned(s, t, key)
  {
    hide RowsOk, PendingPathMove, RowsSettle;
    assert forall k :: k != key ==> Lookup(t.mirror.bases, k) == Lookup(t.mirror.bases - {key}, k) == Lookup(s.mirror.bases, k);
  }

  lemma {:induction false} UploadedTurn(s: System, key: Key, copy: Key) returns (t: System)
    requires LeftAlone(s, key) && Decision(s, key).Push?
    ensures Reaches(s, t) && Turned(s, t, key)
  {
    hide Reaches, RowsOk, PendingPathMove, RunJob, LandPush, Rows.Ensure, Turned;
    Decision1(s, key);
    var d := s.mirror;
    var s1 := s.(mirror := Acted(d, key, Decision(s, key)));
    var job := Ensured(d.rows, JobKind.Push(key), key, d.known);
    Unmoved(d.rows, JobKind.Push(key), key, d.known);
    UploadLands(s1.mirror, job, copy);
    ThenStart(s, s1, job, copy);
    var s2 := s1.(mirror := RunJob(s1.mirror, job, copy));
    ThenLand(s, s2);
    t := Answer(s2).(mirror := LandPush(s2.mirror.(flight := Replied(s2.mirror.flight, Accepted))));
    UploadTurns(s, t, key);
  }

  /** Enough for the turn of a delete. */
  lemma {:induction false} DeleteTurns(s: System, t: System, key: Key)
    requires LeftAlone(s, key) && Decision(s, key).DeleteRemote?
    requires var d, u := s.mirror, t.mirror;
             && t.hub == s.hub - {key} && t.copies == s.copies && u.folder == d.folder && u.conflicts == d.conflicts && Ready(u)
             && u.entries == d.entries - {key} && u.bases == d.bases - {key} && u.marks == d.marks - {key}
             && RowsSettle(d.rows.jobs, u.rows.jobs, key)
    ensures Turned(s, t, key)
  {
    hide RowsOk, PendingPathMove, RowsSettle;
  }

  lemma {:induction false} DeletedTurn(s: System, key: Key, copy: Key) returns (t: System)
    requires LeftAlone(s, key) && Decision(s, key).DeleteRemote?
    ensures Reaches(s, t) && Turned(s, t, key)
  {
    hide Reaches, RowsOk, PendingPathMove, RunJob, LandDelete, Rows.Ensure, Turned;
    Decision1(s, key);
    var d := s.mirror;
    var s1 := s.(mirror := Acted(d, key, Decision(s, key)));
    var job := Ensured(d.rows, JobKind.Delete(key, None), key, d.known);
    Unmoved(d.rows, JobKind.Delete(key, None), key, d.known);
    DeleteLands(s1.mirror, job, key, copy);
    ThenStart(s, s1, job, copy);
    var s2 := s1.(mirror := RunJob(s1.mirror, job, copy));
    ThenLand(s, s2);
    t := Answer(s2).(mirror := LandDelete(s2.mirror.(flight := Replied(s2.mirror.flight, Accepted))));
    DeleteTurns(s, t, key);
  }

  /** Two versions: the folder's bytes are in the conflict store, and the job that sends them is queued. */
  lemma {:induction false} ConflictKept(d: Replica, key: Key) returns (job: Job)
    requires d.flight.ConflictChosen? && d.flight.key == key
    requires key in d.folder && key in d.entries && d.flight.entry == d.entries[key]
    requires d.running.None? && d.entries[key].sha == d.folder[key].sha
    requires key !in d.writers && !PendingPathMove(d.rows.jobs, key) && RowsOk(d.rows, d.known)
    requires forall j <- d.rows.jobs :: j.kind.MainKey() == key ==> !j.kind.ConflictUpload?
    ensures var u := RecordConflict(d);
            && job in u.rows.jobs && job.kind == ConflictUpload(key, d.folder[key].sha, d.flight.base)
            && d.folder[key].sha in u.kept && key in u.conflicts
            && u.conflicts[key].localSha == d.folder[key].sha && !u.conflicts[key].uploaded
            && Ready(u) && RowsOk(u.rows, d.known) && !PendingPathMove(u.rows.jobs, key)
            && u == d.(flight := Idle, kept := u.kept, conflicts := u.conflicts, rows := u.rows)
            && (forall k :: k != key ==> Lookup(u.conflicts, k) == Lookup(d.conflicts, k))
            && (forall j :: j in u.rows.jobs ==> j in d.rows.jobs || j == job)
            && (forall j :: j in d.rows.jobs && j.kind.MainKey() != key ==> j in u.rows.jobs)
  {
    hide RowsOk, Rows.Ensure, Rows.Keep, PendingPathMove, RecordConflict;
    ConflictShape(d, key);
    job := ConflictRows(d.rows, ConflictUpload(key, d.folder[key].sha, d.flight.base), key, d.known, RecordedBefore(d, key));
  }

  /** The same bytes are recorded already, and not yet sent. */
  predicate RecordedBefore(d: Replica, key: Key)
    requires key in d.folder
  {
    key in d.conflicts && d.conflicts[key].localSha == d.folder[key].sha && !d.conflicts[key].uploaded
  }

  lemma {:induction false} ConflictShape(d: Replica, key: Key)
    requires d.flight.ConflictChosen? && d.flight.key == key
    requires key in d.folder && key in d.entries && d.flight.entry == d.entries[key]
    requires d.running.None? && d.entries[key].sha == d.folder[key].sha
    requires key !in d.writers && !PendingPathMove(d.rows.jobs, key)
    ensures var u, sha := RecordConflict(d), d.folder[key].sha;
            && u == d.(flight := Idle, kept := d.kept + {sha}, conflicts := u.conflicts,
                       rows := (if RecordedBefore(d, key) then d.rows else d.rows.Keep(NotKey(key))).Ensure(ConflictUpload(key, sha, d.flight.base)))
            && u.conflicts == if RecordedBefore(d, key) then d.conflicts else d.conflicts[key := ConflictRecord(key, sha, false, None)]
  {
    hide PendingPathMove, Rows.Ensure, Rows.Keep;
  }

  lemma {:induction false} ConflictRows(rows: Rows, upload: JobKind, key: Key, known: set<Digest>,
      again: bool) returns (job: Job)
    requires upload.ConflictUpload? && upload.key == key && RowsOk(rows, known) && !PendingPathMove(rows.jobs, key)
    requires forall j <- rows.jobs :: j.kind.MainKey() == key ==> !j.kind.ConflictUpload?
    ensures var r := (if again then rows else rows.Keep(NotKey(key))).Ensure(upload);
            && job in r.jobs && job.kind == upload && RowsOk(r, known) && !PendingPathMove(r.jobs, key)
            && (forall j :: j in r.jobs ==> j in rows.jobs || j == job)
            && (forall j :: j in rows.jobs && j.kind.MainKey() != key ==> j in r.jobs)
  {
    hide RowsOk, KindSeen, Rows.Ensure;
    var left := if again then rows else rows.Keep(NotKey(key));
    KeepOk(rows, NotKey(key), known);
    SeenAnyway(upload, known);
    assert !PendingPathMove(left.jobs, key);
    job := Ensured(left, upload, key, known);
    Unmoved(left, upload, key, known);
  }

  lemma {:induction false} SeenAnyway(kind: JobKind, known: set<Digest>)
    requires !kind.Delete?
    ensures KindSeen(kind, known)
  {
  }

  /** The copy on the hub, the engine looks again and takes the hub's version. */
  lemma {:induction false} CopyLands(d: Replica, job: Job, key: Key, sha: Digest, base: Option<Digest>, copy: Key)
    requires job.kind == ConflictUpload(key, sha, base) && Ready(d) && !d.cfg.protected
    requires sha in d.kept && key in d.folder
    requires d.folder[key].sha == sha && key !in d.writers && !PendingPathMove(d.rows.jobs, key)
    ensures var e := RunJob(d, job, copy);
            && e.flight.SendingCopy? && e.flight.sha == sha && e.flight.reply.Waiting? && e.flight.copy == copy
            && key in e.conflicts && e.conflicts[key].key == key && e.conflicts[key].copyKey == Some(ResultKey(d.rows.jobs, copy))
            && (key in d.conflicts ==> e.conflicts[key].localSha == d.conflicts[key].localSha && e.conflicts[key].uploaded == d.conflicts[key].uploaded)
            && (key !in d.conflicts ==> e.conflicts[key].localSha == sha && !e.conflicts[key].uploaded)
            && var u := LandCopy(e.(flight := Replied(e.flight, Accepted)));
               && u == d.(running := Some(job.seqNo), flight := CopySent(key, Lookup(d.entries, key)), conflicts := u.conflicts)
               && (forall k :: k != key ==> Lookup(u.conflicts, k) == Lookup(d.conflicts, k))
               && key in u.conflicts
               && u.conflicts[key].uploaded && u.conflicts[key].copyKey == Some(ResultKey(d.rows.jobs, copy))
               && (key in d.conflicts ==> u.conflicts[key].localSha == d.conflicts[key].localSha)
  {
    NoMove(d.rows.jobs, key);
    hide PendingPathMove, ResultKey, Rows.Keep;
  }

  lemma {:induction false} ThenNow(s: System, t: System, remote: Digest)
    requires Reaches(s, t) && t.mirror.flight.CopySent? && remote != ""
    ensures Reaches(s, t.(mirror := t.mirror.(flight := PullChosen(t.mirror.flight.key, t.mirror.flight.expected))))
  {
    hide Reaches;
    OneMore(s, t, NowIs(Some(remote)));
  }

  lemma {:induction false} ThenKeep(s: System, t: System)
    requires Reaches(s, t) && t.mirror.flight.ConflictChosen?
    ensures Reaches(s, t.(mirror := RecordConflict(t.mirror)))
  {
    hide Reaches, RecordConflict;
    OneMore(s, t, KeepConflict);
  }

  /** Enough for the turn of a conflict. */
  lemma {:induction false} ConflictTurns(s: System, t: System, key: Key)
    requires LeftAlone(s, key) && Decision(s, key).Conflict?
    requires var d, u, sha := s.mirror, t.mirror, s.hub[key];
             && t.hub == s.hub && t.copies == s.copies + {d.folder[key].sha} && Ready(u)
             && (forall k :: k != key ==> Lookup(u.folder, k) == Lookup(d.folder, k)) && key in u.folder && u.folder[key].sha == sha
             && (forall k :: k != key ==> Lookup(u.conflicts, k) == Lookup(d.conflicts, k))
             && u.entries == d.entries[key := Entry(sha, u.folder[key].id, Clean)]
             && u.bases == d.bases[key := sha] && u.marks == d.marks
             && RowsSettle(d.rows.jobs, u.rows.jobs, key) && forall j <- u.rows.jobs :: j.kind.MainKey() != key
    ensures Turned(s, t, key)
  {
    hide RowsOk, PendingPathMove, RowsSettle;
  }

  lemma {:induction false} ConflictTurn(s: System, key: Key, copy: Key) returns (t: System)
    requires LeftAlone(s, key) && Decision(s, key).Conflict?
    ensures Reaches(s, t) && Turned(s, t, key)
  {
    hide Reaches, RowsOk, PendingPathMove, RunJob, LandCopy, RecordConflict, PullBegin, PullLand, Turned, ResultKey;
    Decision1(s, key);
    var d := s.mirror;
    var s1 := s.(mirror := Acted(d, key, Decision(s, key)));
    var job := ConflictKept(s1.mirror, key);
    ThenKeep(s, s1);
    var s2 := s1.(mirror := RecordConflict(s1.mirror));
    CopyLands(s2.mirror, job, key, d.folder[key].sha, Lookup(d.bases, key), copy);
    ThenStart(s, s2, job, copy);
    var s3 := s2.(mirror := RunJob(s2.mirror, job, copy));
    ThenLand(s, s3);
    var s4 := Answer(s3).(mirror := LandCopy(s3.mirror.(flight := Replied(s3.mirror.flight, Accepted))));
    ThenNow(s, s4, s.hub[key]);
    var s5 := s4.(mirror := s4.mirror.(flight := PullChosen(key, s4.mirror.flight.expected)));
    OneOfEach(s2.mirror.rows, job, d.known);
    PullLands(s5.mirror, key, s.hub[key]);
    ThenPull(s, s5, s.hub[key]);
    t := s5.(mirror := PullLand(PullBegin(s5.mirror), Some(s.hub[key])));
    ConflictTurns(s, t, key);
  }

  /** Left alone, the engine gets from any state in which the key can be worked on to one where the
      turn of the convergence model has been taken with it: the hub, the row, the base, the folder and
      the copies are those the model gives, and nothing about other keys has changed. */
  lemma {:induction false} EngineTakesTheTurn(s: System, key: Key, copy: Key) returns (t: System)
    requires LeftAlone(s, key)
    ensures Reaches(s, t) && Turned(s, t, key)
  {
    hide Reaches, LeftAlone, Turned, Held;
    match Decision(s, key)
    case Nothing => t := AtOnce(s, key);
    case TrashLocal => t := AtOnce(s, key);
    case Adopt => t := AtOnce(s, key);
    case Pull(_) => t := Downloaded(s, key);
    case Push(_) => t := UploadedTurn(s, key, copy);
    case DeleteRemote(_) => t := DeletedTurn(s, key, copy);
    case Conflict(_) => t := ConflictTurn(s, key, copy);
  }
}
