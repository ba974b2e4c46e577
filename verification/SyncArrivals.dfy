/** From the user's edit to the hub: a save, a removal and a rename, each followed until the engine,
    left alone, has brought it to the hub or found that somebody else was first. */
module SyncArrivals {
  import opened Options
  import opened Keys
  import opened Reconcile
  import opened Jobs
  import opened Tables
  import opened Replicas
  import opened SyncSteps
  import opened SyncInvariant
  import opened SyncRuns
  import opened SyncTurns
  import JobEffects

  /** The key can be worked on. */
  ghost predicate Workable(s: System, key: Key) {
    Calm(s.mirror, key) && Unprotected(s.mirror) && RowsOk(s.mirror.rows, s.mirror.known) && Lookup(s.hub, key) != Some("")
  }

  /** What the turn leaves at the key. */
  lemma {:induction false} At(s: System, t: System, key: Key)
    requires Turned(s, t, key)
    ensures var c := Turn(Cluster(Lookup(s.hub, key), [Held(s.mirror, key)], s.copies), 0);
            && Lookup(t.hub, key) == c.hub && t.copies == c.copies && Held(t.mirror, key) == c.devices[0]
            && Ready(t.mirror) && LedgerStays(s.mirror, t.mirror, key) && HubStays(s, t, key)
  {
    hide Held, LedgerStays, HubStays, RowsSettle, Arrives;
    assert View(t, key).devices[0] == Held(t.mirror, key);
  }

  lemma {:induction false} HeldBy(d: Replica, key: Key)
    ensures var h := Held(d, key);
            && h.local == LiveSha(d, key) && h.base == Lookup(d.bases, key)
            && h.file == (if key in d.folder then Some(d.folder[key].sha) else None)
            && (LiveSha(d, key).Some? ==> h.grave.None?)
  {
  }

  // ── a save ────────────────────────────────────────────────────────────────

  /** Queueing work of one file adds that row, for no other key. */
  lemma {:induction false} QueuedWork(rows: Rows, kind: JobKind, priority: Priority, key: Key, known: set<Digest>)
    requires RowsOk(rows, known) && FileWork(kind, key) && KindSeen(kind, known)
    ensures var r := rows.Enqueue(kind, priority);
            && RowsOk(r, known) && Job(rows.counter + 1, kind, priority) in r.jobs
            && (forall j :: j in r.jobs ==> j in rows.jobs || j == Job(rows.counter + 1, kind, priority))
            && (forall j :: j in rows.jobs && j.kind.MainKey() != key ==> j in r.jobs)
            && (!PendingPathMove(rows.jobs, key) ==> !PendingPathMove(r.jobs, key))
  {
    EnqueueOk(rows, kind, priority, known);
    forall j | j in rows.jobs && j.kind.MainKey() != key ensures j in rows.Enqueue(kind, priority).jobs {
      if j.kind.DedupeId() == kind.DedupeId() {
        IdIsWork(kind, j.kind, key);
      }
    }
  }

  /** A saved file is in the folder, its row names it and waits for an upload, and the base stays. */
  lemma {:induction false} Saved(d: Replica, key: Key, sha: Digest)
    requires Calm(d, key) && RowsOk(d.rows, d.known) && sha != ""
    ensures var u := CommitWrite(d, key, sha);
            && Calm(u, key) && RowsOk(u.rows, u.known) && u.cfg == d.cfg && LedgerStays(d, u, key)
            && Held(u, key) == Device(Some(sha), Lookup(d.bases, key), Some(sha), None)
            && Job(d.rows.counter + 1, JobKind.Push(key), Interactive) in u.rows.jobs
  {
    QueuedWork(d.rows, JobKind.Push(key), Interactive, key, d.known);
    hide RowsOk, PendingPathMove, Rows.Enqueue, ClearTrash;
  }

  /** A file of that name in the trash has been replaced, and is given up unless nothing may be. */
  lemma {:induction false} SaveClearsTrash(d: Replica, key: Key, sha: Digest)
    ensures forall k :: Lookup(CommitWrite(d, key, sha).trash, k) == if k == key && !d.cfg.protected then None else Lookup(d.trash, k)
  {
    hide Rows.Enqueue;
  }

  /** What a save comes to: the hub has it, unless another device was first; then it is in a copy, and
      the folder has the other device's version. */
  lemma {:induction false} SaveArrives(s: System, key: Key, sha: Digest, copy: Key) returns (t: System)
    requires Workable(s, key) && sha != "" && Some(sha) != Lookup(s.mirror.bases, key)
    ensures var theirs, agreed := Lookup(s.hub, key), Lookup(s.mirror.bases, key);
            var first := theirs.Some? && theirs != agreed && theirs != Some(sha);
            && Reaches(Next(s, Write(key, sha)), t) && Ready(t.mirror) && s.copies <= t.copies
            && Lookup(t.hub, key) == (if first then theirs else Some(sha))
            && (first ==> sha in t.copies)
            && key in t.mirror.folder && Some(t.mirror.folder[key].sha) == Lookup(t.hub, key) == Lookup(t.mirror.bases, key)
            && HubStays(s, t, key) && LedgerStays(s.mirror, t.mirror, key)
  {
    hide Reaches, RowsOk, Calm, LedgerStays, HubStays, CommitWrite, Turned, Held;
    Saved(s.mirror, key, sha);
    var w := s.(mirror := CommitWrite(s.mirror, key, sha));
    t := EngineTakesTheTurn(w, key, copy);
    At(w, t, key);
    TwiceStays(s.mirror, w.mirror, t.mirror, key);
    HeldBy(t.mirror, key);
    assert HubStays(s, t, key) by { SameHub(s, w, t, key); }
  }

  lemma {:induction false} SameHub(s: System, w: System, t: System, key: Key)
    requires w.hub == s.hub && HubStays(w, t, key)
    ensures HubStays(s, t, key)
  {
  }

  lemma {:induction false} TwiceStays(d: Replica, e: Replica, u: Replica, key: Key)
    requires LedgerStays(d, e, key) && LedgerStays(e, u, key)
    ensures LedgerStays(d, u, key)
  {
  }

  // ── a removal ─────────────────────────────────────────────────────────────

  lemma {:induction false} WithoutKey(rows: Rows, key: Key, known: set<Digest>)
    requires RowsOk(rows, known)
    ensures var r := rows.Keep(NotKey(key));
            && RowsOk(r, known) && (!PendingPathMove(rows.jobs, key) ==> !PendingPathMove(r.jobs, key))
            && forall j :: j in r.jobs <==> j in rows.jobs && j.kind.MainKey() != key
  {
    KeepOk(rows, NotKey(key), known);
    hide RowsOk;
  }

  /** A removed file is gone from the folder, and so is the row, unless the hub may have the file. */
  lemma {:induction false} Removed(d: Replica, key: Key)
    requires Calm(d, key) && Unprotected(d) && RowsOk(d.rows, d.known) && Honest(Held(d, key))
    ensures var u := Deleted(d, key);
            && Calm(u, key) && RowsOk(u.rows, u.known) && u.cfg == d.cfg && LedgerStays(d, u, key)
            && LiveSha(u, key) == None && key !in u.folder
            && (key in d.entries ==> Lookup(u.bases, key) == Lookup(d.bases, key))
            && (key in d.entries && (key in d.bases || key in d.marks) ==> exists j <- u.rows.jobs :: j.kind == JobKind.Delete(key, None))
  {
    hide RowsOk, PendingPathMove, Rows.Enqueue, Rows.Keep;
    var left := d.rows.Keep(NotKey(key));
    WithoutKey(d.rows, key, d.known);
    QueuedWork(left, JobKind.Delete(key, None), Interactive, key, d.known);
    assert key in d.entries && (key in d.bases || key in d.marks) ==>
        Deleted(d, key).rows == left.Enqueue(JobKind.Delete(key, None), Interactive);
  }

  /** What the removal of a file comes to: it is gone on the hub too, unless another device has put a
      newer version there; that one is then in the folder. */
  lemma {:induction false} RemovalArrives(s: System, key: Key, copy: Key) returns (t: System)
    requires Workable(s, key) && Honest(Held(s.mirror, key)) && key in s.mirror.entries
    ensures var theirs, agreed := Lookup(s.hub, key), Lookup(s.mirror.bases, key);
            && Reaches(Next(s, Remove(key)), t) && Ready(t.mirror) && t.copies == s.copies
            && Lookup(t.hub, key) == (if theirs == agreed then None else theirs)
            && (theirs.Some? ==> LiveSha(t.mirror, key) == Lookup(t.hub, key) == Lookup(t.mirror.bases, key))
            && (if key in t.mirror.folder then Some(t.mirror.folder[key].sha) else None) == Lookup(t.hub, key)
            && HubStays(s, t, key) && LedgerStays(s.mirror, t.mirror, key)
  {
    hide Reaches, RowsOk, Calm, LedgerStays, HubStays, Deleted, Turned, Held, LiveSha;
    Removed(s.mirror, key);
    var w := s.(mirror := Deleted(s.mirror, key));
    HeldBy(w.mirror, key);
    t := EngineTakesTheTurn(w, key, copy);
    At(w, t, key);
    HeldBy(t.mirror, key);
    TwiceStays(s.mirror, w.mirror, t.mirror, key);
    SameHub(s, w, t, key);
  }

  // ── a rename ──────────────────────────────────────────────────────────────

  /** A file the hub has as it is here, of which nothing is queued, and a name that is free. */
  predicate Renamable(d: Replica, from: Key, to: Key) {
    && Ready(d) && Unprotected(d) && from != to
    && from in d.folder && CleanHere(d, from) && d.entries[from].sha == d.folder[from].sha
    && to !in d.folder && to !in d.entries && to !in d.bases
    && !PendingPathMove(d.rows.jobs, from) && !PendingPathMove(d.rows.jobs, to)
    && forall j <- d.rows.jobs :: j.kind.MainKey() != from && j.kind.MainKey() != to
  }

  /** What is known of the file is known under the new name, in every table. */
  ghost predicate CarriedOver(d: Replica, u: Replica, from: Key, to: Key) {
    && from !in u.folder && Lookup(u.folder, to) == Lookup(d.folder, from)
    && from !in u.entries && Lookup(u.entries, to) == Lookup(d.entries, from)
    && from !in u.bases && Lookup(u.bases, to) == Lookup(d.bases, from)
    && forall k :: k != from && k != to ==>
         && Lookup(u.folder, k) == Lookup(d.folder, k) && Lookup(u.entries, k) == Lookup(d.entries, k)
         && Lookup(u.bases, k) == Lookup(d.bases, k) && Lookup(u.conflicts, k) == Lookup(d.conflicts, k)
  }

  lemma {:induction false} NothingSelected(jobs: seq<Job>, key: Key)
    requires forall j <- jobs :: j.kind.MainKey() != key
    ensures Select(jobs, OnlyKey(key)) == []
  {
    if jobs != [] {
      assert jobs[0] in jobs && forall j <- jobs[1..] :: j in jobs;
      NothingSelected(jobs[1..], key);
    }
  }

  /** No job takes the key elsewhere. */
  lemma {:induction false} Resting(jobs: seq<Job>, key: Key)
    requires forall j <- jobs :: FollowMove(j.kind, key) == key
    ensures ResultKey(jobs, key) == key
  {
    if jobs != [] {
      assert jobs[0] in jobs && forall j <- jobs[1..] :: j in jobs;
      Resting(jobs[1..], key);
    }
  }

  lemma {:induction false} RenameQueued(rows: Rows, from: Key, to: Key, known: set<Digest>) returns (job: Job)
    requires RowsOk(rows, known) && from != to && !PendingPathMove(rows.jobs, from) && !PendingPathMove(rows.jobs, to)
    requires forall j <- rows.jobs :: j.kind.MainKey() != from && j.kind.MainKey() != to
    ensures var r := RekeyedRows(rows, from, to, true);
            && RowsOk(r, known) && job in r.jobs && job.kind == Rename(from, to) && ResultKey(r.jobs, to) == to
            && forall j :: j in r.jobs ==> j in rows.jobs || j == job
  {
    NothingSelected(rows.jobs, from);
    KeepOk(rows, NotKey(from), known);
    var left := rows.Keep(NotKey(from));
    EnqueueOk(left, Rename(from, to), Interactive, known);
    job := Job(left.counter + 1, Rename(from, to), Interactive);
    var r := left.Enqueue(Rename(from, to), Interactive);
    assert RekeyedRows(rows, from, to, true) == r;
    forall j | j in r.jobs ensures FollowMove(j.kind, to) == to {
      assert j in rows.jobs || j == job;
    }
    Resting(r.jobs, to);
  }

  lemma {:induction false} NothingInTheWay(d: Replica, to: Key)
    requires to !in d.entries
    ensures DestinationGone(d, to) == d
  {
  }

  /** A file with a base whose new name is free takes it in every table. */
  lemma {:induction false} RenamedTables(d: Replica, from: Key, to: Key)
    requires Renamable(d, from, to)
    ensures var u := RenameLocal(d, from, to);
            && CarriedOver(d, u, from, to) && Ready(u) && u.cfg == d.cfg && u.rows == RekeyedRows(d.rows, from, to, true)
  {
    hide PendingPathMove, RekeyedRows, DestinationGone, SavedOver, Rows.Enqueue, MovedMember;
    NothingInTheWay(d.(epoch := d.epoch + 1), to);
    var f := FileMoved(d.(epoch := d.epoch + 1), from, to);
    assert RenameLocal(d, from, to) == Rekeyed(f, from, to);
    assert Rekeyed(f, from, to) == Retabled(f, from, to);
  }

  /** The rename here: file, row and base have the new name, and the hub is to be told. */
  lemma {:induction false} Renamed(d: Replica, from: Key, to: Key) returns (job: Job)
    requires Renamable(d, from, to) && RowsOk(d.rows, d.known)
    ensures var u := RenameLocal(d, from, to);
            && CarriedOver(d, u, from, to) && Ready(u) && u.cfg == d.cfg
            && RowsOk(u.rows, d.known) && job in u.rows.jobs && job.kind == Rename(from, to) && ResultKey(u.rows.jobs, to) == to
            && forall j :: j in u.rows.jobs ==> j in d.rows.jobs || j == job
  {
    hide RowsOk, PendingPathMove, RekeyedRows, ResultKey, RenameLocal, CarriedOver;
    job := RenameQueued(d.rows, from, to, d.known);
    RenamedTables(d, from, to);
  }

  /** What the rename of a file comes to when the hub has the version agreed and the name is free there
      too: the bytes are under the new name on the hub and nothing is under the old one, the row is
      Clean with the hub's version as its base, and nothing is left to do. */
  lemma {:induction false} RenameArrives(s: System, from: Key, to: Key, copy: Key) returns (t: System)
    requires Renamable(s.mirror, from, to) && RowsOk(s.mirror.rows, s.mirror.known)
    requires Lookup(s.hub, from) == Lookup(s.mirror.bases, from) && to !in s.hub
    ensures Reaches(Next(s, Move(from, to)), t) && Ready(t.mirror) && CarriedOver(s.mirror, t.mirror, from, to)
    ensures from !in t.hub && Lookup(t.hub, to) == Some(s.mirror.folder[from].sha) && t.copies == s.copies
    ensures forall k :: k != from && k != to ==> Lookup(t.hub, k) == Lookup(s.hub, k)
    ensures CleanHere(t.mirror, to) && forall j <- t.mirror.rows.jobs :: j in s.mirror.rows.jobs
  {
    hide Reaches, RowsOk, PendingPathMove, RenameLocal, ResultKey;
    var job := Renamed(s.mirror, from, to);
    var w := s.(mirror := RenameLocal(s.mirror, from, to));
    ReachesItself(w);
    ThenStart(w, w, job, copy);
    var w1 := w.(mirror := RunJob(w.mirror, job, copy));
    JobEffects.RenameAsks(w.mirror, job, copy);
    ThenLand(w, w1);
    t := Answer(w1).(mirror := LandRename(w1.mirror.(flight := Replied(w1.mirror.flight, Accepted))));
    OneRowLess(w.mirror.rows, job, s.mirror.known);
  }

  // ── what goes with a rename ───────────────────────────────────────────────

  /** The work of a job of `from` once the file is called `to`. Uploads follow the file; what is about
      the old name on the hub stays about it. */
  predicate Becomes(was: JobKind, now: JobKind, from: Key, to: Key) {
    match was
    case Push(_) => now == JobKind.Push(to)
    case ConflictUpload(_, sha, base) => now == ConflictUpload(to, sha, base)
    case Rename(_, _) => now == Rename(from, to)
    case Delete(_, _) => now == was
    case RenameDir(_, _, _, _, _, _) => now == was
    case Mkdir(_) => now == was
    case Rmdir(_) => now == was
  }

  lemma {:induction false} RetargetBecomes(jobs: seq<Job>, from: Key, to: Key)
    requires forall j <- jobs :: j.kind.MainKey() == from
    ensures var kinds := RetargetAll(jobs, from, to);
            |kinds| == |jobs| && forall i :: 0 <= i < |jobs| ==> Becomes(jobs[i].kind, kinds[i], from, to)
  {
    if jobs != [] {
      assert jobs[0] in jobs && forall j <- jobs[1..] :: j in jobs;
      RetargetBecomes(jobs[1..], from, to);
      var kinds, rest := RetargetAll(jobs, from, to), RetargetAll(jobs[1..], from, to);
      assert Becomes(jobs[0].kind, kinds[0], from, to);
      assert forall i :: 1 <= i < |jobs| ==> jobs[i] == jobs[1..][i - 1] && kinds[i] == rest[i - 1];
    }
  }

  predicate HasOneOf(jobs: seq<Job>, kinds: seq<JobKind>, id: string) {
    exists j <- jobs :: j.kind in kinds && j.kind.DedupeId() == id
  }

  /** Once there is work with an id among these kinds, queueing more of them leaves some. */
  lemma {:induction false} IdStays(rows: Rows, more: seq<JobKind>, kinds: seq<JobKind>, id: string)
    requires HasOneOf(rows.jobs, kinds, id) && forall k <- more :: k in kinds
    ensures HasOneOf(rows.EnqueueAll(more).jobs, kinds, id)
    decreases |more|
  {
    if more != [] {
      IdStaysOnce(rows, more[0], kinds, id);
      hide HasOneOf, Rows.Enqueue;
      IdStays(rows.Enqueue(more[0], Interactive), more[1..], kinds, id);
    }
  }

  lemma {:induction false} IdStaysOnce(rows: Rows, kind: JobKind, kinds: seq<JobKind>, id: string)
    requires HasOneOf(rows.jobs, kinds, id) && kind in kinds
    ensures HasOneOf(rows.Enqueue(kind, Interactive).jobs, kinds, id)
  {
    hide JobKind.DedupeId;
    var r := rows.Enqueue(kind, Interactive);
    var job := Job(rows.counter + 1, kind, Interactive);
    assert job in r.jobs;
    var j :| j in rows.jobs && j.kind in kinds && j.kind.DedupeId() == id;
    if kind.DedupeId() == id {
      assert job.kind.DedupeId() == id;
    } else {
      assert Chosen(NotId(kind.DedupeId()), j);
      assert j in r.jobs;
    }
  }

  /** Each kind that is queued has its id in the queue afterwards. */
  lemma {:induction false} AllQueued(rows: Rows, more: seq<JobKind>, kinds: seq<JobKind>, n: nat)
    requires n < |more| && forall k <- more :: k in kinds
    ensures HasOneOf(rows.EnqueueAll(more).jobs, kinds, more[n].DedupeId())
    decreases |more|
  {
    var first := rows.Enqueue(more[0], Interactive);
    if n == 0 {
      assert Job(rows.counter + 1, more[0], Interactive) in first.jobs;
      IdStays(first, more[1..], kinds, more[0].DedupeId());
    } else {
      hide HasOneOf, Rows.Enqueue;
      AllQueued(first, more[1..], kinds, n - 1);
    }
  }

  /** Nothing else is new. */
  lemma {:induction false} NothingElseQueued(rows: Rows, more: seq<JobKind>, j: Job)
    requires j in rows.EnqueueAll(more).jobs
    ensures j in rows.jobs || j.kind in more
    decreases |more|
  {
    if more != [] {
      QueuedOne(rows, more[0], Interactive);
      hide Rows.Enqueue;
      NothingElseQueued(rows.Enqueue(more[0], Interactive), more[1..], j);
    }
  }

  /** The queue after a rename: a job is one of another key, or the word to the hub, or has become of a
      job of the old name what it should. */
  lemma {:induction false} RenameCarriesNothingElse(rows: Rows, from: Key, to: Key, told: bool, j: Job)
    requires j in RekeyedRows(rows, from, to, told).jobs
    ensures || (j in rows.jobs && j.kind.MainKey() != from)
            || (told && j.kind == Rename(from, to))
            || exists i :: i in rows.jobs && i.kind.MainKey() == from && Becomes(i.kind, j.kind, from, to)
  {
    var own, left := Select(rows.jobs, OnlyKey(from)), rows.Keep(NotKey(from));
    var kinds := RetargetAll(own, from, to);
    RetargetBecomes(own, from, to);
    QueuedOne(left, Rename(from, to), Interactive);
    NothingElseQueued(if told then left.Enqueue(Rename(from, to), Interactive) else left, kinds, j);
    hide Rows.Enqueue, Becomes;
    if j.kind in kinds {
      var n :| 0 <= n < |kinds| && kinds[n] == j.kind;
      assert own[n] in own && Becomes(own[n].kind, j.kind, from, to);
    }
  }

  /** Every upload of the old name is one of the new. */
  lemma {:induction false} RenameCarriesUploads(rows: Rows, from: Key, to: Key, told: bool, i: Job)
    requires i in rows.jobs && (i.kind == JobKind.Push(from) || (i.kind.ConflictUpload? && i.kind.key == from))
    ensures exists j :: j in RekeyedRows(rows, from, to, told).jobs
              && (if i.kind.Push? then j.kind == JobKind.Push(to) else j.kind.ConflictUpload? && j.kind.key == to)
  {
    var own, left := Select(rows.jobs, OnlyKey(from)), rows.Keep(NotKey(from));
    var kinds := RetargetAll(own, from, to);
    RetargetBecomes(own, from, to);
    var n :| 0 <= n < |own| && own[n] == i;
    AllQueued(if told then left.Enqueue(Rename(from, to), Interactive) else left, kinds, kinds, n);
    hide Rows.Enqueue;
    var j :| j in RekeyedRows(rows, from, to, told).jobs && j.kind.DedupeId() == kinds[n].DedupeId();
    assert Becomes(i.kind, kinds[n], from, to);
    IdIsWork(kinds[n], j.kind, to);
  }

  lemma {:induction false} QueuedOne(rows: Rows, kind: JobKind, priority: Priority)
    ensures forall j :: j in rows.Enqueue(kind, priority).jobs ==> j in rows.jobs || j.kind == kind
  {
  }

  /** A file that carries a conflict takes its record along; only the record's key is another. */
  lemma {:induction false} RenameCarriesRecord(d: Replica, from: Key, to: Key)
    requires from != to && from in d.folder && from in d.conflicts && (from in d.bases || to !in d.entries)
    ensures var u, was := RenameLocal(d, from, to), d.conflicts[from];
            && from !in u.conflicts && to in u.conflicts
            && u.conflicts[to].key == to && u.conflicts[to].localSha == was.localSha && u.conflicts[to].uploaded == was.uploaded
            && u.conflicts[to].copyKey == was.copyKey
  {
    hide RekeyedRows, DestinationGone, Rows.Enqueue, MovedRow, MovedMember, SavedOver;
    DestinationConflicts(d.(epoch := d.epoch + 1), to);
  }

  /** A row that is Clean under its new name has a base there; one without is sent again. */
  lemma {:induction false} NoCleanRowWithoutBase(d: Replica, from: Key, to: Key)
    ensures var m := Rekeyed(d, from, to);
            && (from in d.entries && to in m.entries && m.entries[to].state.Clean? ==> to in m.bases)
            && (from in d.entries && d.entries[from].state.Clean? && from !in d.bases && to !in d.bases ==>
                  to in m.entries && m.entries[to] == d.entries[from].(state := Dirty) && exists j <- m.rows.jobs :: j.kind == JobKind.Push(to))
  {
    hide RekeyedRows;
    var rows := Retabled(d, from, to).rows;
    assert Job(rows.counter + 1, JobKind.Push(to), Interactive) in rows.Enqueue(JobKind.Push(to), Interactive).jobs;
  }

  lemma {:induction false} DestinationConflicts(d: Replica, to: Key)
    ensures DestinationGone(d, to).conflicts == d.conflicts
  {
    hide Rows.Keep, Rows.Enqueue;
  }

  // ── an open file ──────────────────────────────────────────────────────────

  /** Opening creates a missing file or opens one that is there; created and truncated files are empty
      and wait for their handle, other bytes stay. */
  lemma {:induction false} OpenedForWriting(d: Replica, key: Key, create: bool, truncate: bool)
    ensures var o := OpenWrite(d, key, create, truncate);
            && (create == (key in d.folder) ==> o == d)
            && (create != (key in d.folder) ==>
                  && key in o.writers && key in o.folder
                  && (create || truncate ==> o.folder[key].sha == EMPTY_FILE && key in o.unsaved)
                  && (!create && !truncate ==> o.folder == d.folder && o.unsaved == d.unsaved)
                  && o.entries == d.entries && o.rows == d.rows && forall k :: k != key ==> Lookup(o.folder, k) == Lookup(d.folder, k))
  {
  }

  // ── an overwriting rename ─────────────────────────────────────────────────

  /** Work with this id stays in the queue when kinds of other ids are queued. */
  lemma {:induction false} OthersQueued(rows: Rows, more: seq<JobKind>, j: Job)
    requires j in rows.jobs && forall k <- more :: k.DedupeId() != j.kind.DedupeId()
    ensures j in rows.EnqueueAll(more).jobs
    decreases |more|
  {
    if more != [] {
      var first := rows.Enqueue(more[0], Interactive);
      assert j in first.jobs;
      OthersQueued(first, more[1..], j);
    }
  }

  /** What a job of one name has become is not a removal of the other. */
  lemma {:induction false} NotTheRemoval(was: JobKind, now: JobKind, from: Key, to: Key, removal: JobKind)
    requires from != to && was.MainKey() == from && Becomes(was, now, from, to) && removal.Delete? && removal.key == to
    ensures now.DedupeId() != removal.DedupeId()
  {
    if now.DedupeId() == removal.DedupeId() {
      IdIsWork(removal, now, to);
      assert false;
    }
  }

  lemma {:induction false} RemovalStaysQueued(rows: Rows, from: Key, to: Key, told: bool, j: Job)
    requires from != to && j in rows.jobs && j.kind.Delete? && j.kind.key == to
    ensures j in RekeyedRows(rows, from, to, told).jobs
  {
    var own, left := Select(rows.jobs, OnlyKey(from)), rows.Keep(NotKey(from));
    var kinds := RetargetAll(own, from, to);
    RetargetBecomes(own, from, to);
    var word := Rename(from, to);
    NotTheRemoval(word, word, from, to, j.kind);
    hide Becomes, Retarget, JobKind.DedupeId;
    forall k | k in kinds ensures k.DedupeId() != j.kind.DedupeId() {
      var n :| 0 <= n < |kinds| && kinds[n] == k;
      assert own[n] in own;
      NotTheRemoval(own[n].kind, k, from, to, j.kind);
    }
    OthersQueued(if told then left.Enqueue(word, Interactive) else left, kinds, j);
  }

  /** A rename over a file the hub may have: the version agreed is to be removed there, and no other. */
  lemma {:induction false} OverwriteRemovesTheTarget(d: Replica, from: Key, to: Key)
    requires from != to && from in d.folder && from in d.bases && to in d.entries && to in d.bases
    ensures var u := RenameLocal(d, from, to);
            && Lookup(u.folder, to) == Some(d.folder[from]) && from !in u.folder
            && exists j :: j in u.rows.jobs && j.kind == JobKind.Delete(to, Some(d.bases[to])) && j.priority.Interactive?
  {
    var e := d.(epoch := d.epoch + 1);
    var g := Deleted(e, to);
    var job := Job(g.rows.counter + 1, JobKind.Delete(to, Some(d.bases[to])), Interactive);
    var rows := g.rows.Enqueue(job.kind, Interactive);
    assert job in rows.jobs;
    hide Deleted, Rows.Enqueue, RekeyedRows, MovedMember, MovedRecord;
    assert DestinationGone(e, to) == g.(rows := rows);
    DeletedFolder(e, to);
    forall told: bool ensures job in RekeyedRows(rows, from, to, told).jobs {
      RemovalStaysQueued(rows, from, to, told, job);
    }
    RekeyedKeeps(FileMoved(DestinationGone(e, to), from, to), from, to, job);
  }

  lemma {:induction false} DeletedFolder(d: Replica, key: Key)
    ensures Deleted(d, key).folder == d.folder - {key}
  {
    GoneFolder(d.(folder := d.folder - {key}, unsaved := d.unsaved - {key}, outside := d.outside - {key}), key);
    hide Gone;
  }

  lemma {:induction false} RekeyedKeeps(d: Replica, from: Key, to: Key, j: Job)
    requires from != to && j.kind.Delete? && j.kind.key == to && j in d.rows.jobs
    ensures j in Rekeyed(d, from, to).rows.jobs && Rekeyed(d, from, to).folder == d.folder
  {
    hide RekeyedRows;
    var m := Retabled(d, from, to);
    RemovalStaysQueued(d.rows, from, to, to in m.bases || from in d.marks, j);
    if JobKind.Push(to).DedupeId() == j.kind.DedupeId() {
      TagsDiffer(JobKind.Push(to), j.kind);
      assert false;
    }
  }

  // ── where queued moves have taken a name ──────────────────────────────────

  /** A name is followed through the queue, oldest job first: by renames of just that name, and by
      directory moves that have been carried out here. */
  lemma {:induction false} NameIsFollowed(jobs: seq<Job>, key: Key) returns (trail: seq<Key>)
    ensures |trail| == |jobs| + 1 && trail[0] == key && trail[|jobs|] == ResultKey(jobs, key)
    ensures forall i :: 0 <= i < |jobs| ==>
              var kind, at := jobs[i].kind, trail[i];
              trail[i + 1] ==
                if kind.Rename? && at == kind.from then kind.to
                else if kind.RenameDir? && kind.localApplied && Under(at, kind.from) then kind.to + at[|kind.from|..]
                else at
  {
    if jobs == [] {
      trail := [key];
    } else {
      var rest := NameIsFollowed(jobs[1..], FollowMove(jobs[0].kind, key));
      trail := [key] + rest;
      assert forall i :: 1 <= i < |jobs| ==> jobs[i] == jobs[1..][i - 1] && trail[i] == rest[i - 1] && trail[i + 1] == rest[i];
    }
  }
}
