/** A late upload reply never hides newer work, wherever the file has gone meanwhile. */
module SyncReplies {
  import opened Options
  import opened Keys
  import opened Reconcile
  import opened Jobs
  import opened Tables
  import opened Replicas
  import opened SyncSteps
  import opened SyncRuns
  import opened SyncPromises

  // ── rows survive what is not about them ───────────────────────────────────

  /** This job is queued under a number above the bound, which the counter has reached. */
  ghost predicate Waits(rows: Rows, bound: nat, w: JobKind) {
    bound <= rows.counter && exists j <- rows.jobs :: j.kind == w && bound < j.seqNo
  }

  /** Queueing `kind` does not replace `w`. */
  predicate Apart(kind: JobKind, w: JobKind) { kind == w || kind.DedupeId() != w.DedupeId() }

  /** The job that stands for a file's newest state: its upload, or its removal. */
  predicate Own(w: JobKind, key: Key) { w == JobKind.Push(key) || w == JobKind.Delete(key, None) }

  lemma {:induction false} OtherWork(kind: JobKind, w: JobKind, key: Key)
    requires Own(w, key) && ((kind.Push? || kind.Delete?) ==> kind.key != key)
    ensures Apart(kind, w) && w.MainKey() == key
  {
    if kind.DedupeId() == w.DedupeId() {
      TagsDiffer(kind, w);
      if w.Push? {
        SameTail("push|", kind.key, key);
      } else {
        SameTail("delete|", kind.key, key);
      }
    }
  }

  lemma {:induction false} EnqueueWaits(rows: Rows, bound: nat, w: JobKind, kind: JobKind, priority: Priority)
    requires Waits(rows, bound, w) || (kind == w && bound <= rows.counter)
    requires Apart(kind, w)
    ensures Waits(rows.Enqueue(kind, priority), bound, w)
  {
    hide JobKind.DedupeId;
    var row := Job(rows.counter + 1, kind, priority);
    assert row in rows.Enqueue(kind, priority).jobs;
    if kind != w {
      var j :| j in rows.jobs && j.kind == w && bound < j.seqNo;
      assert j in Select(rows.jobs, NotId(kind.DedupeId()));
    }
  }

  lemma {:induction false} KeepWaits(rows: Rows, bound: nat, w: JobKind, other: Key)
    requires Waits(rows, bound, w) && w.MainKey() != other
    ensures Waits(rows.Keep(NotKey(other)), bound, w)
  {
    var j :| j in rows.jobs && j.kind == w && bound < j.seqNo;
    assert j in rows.Keep(NotKey(other)).jobs;
  }

  /** Queueing several jobs keeps the one that waits, or adds it. */
  lemma {:induction false} EnqueueAllWaits(rows: Rows, bound: nat, w: JobKind, kinds: seq<JobKind>)
    requires bound <= rows.counter && (Waits(rows, bound, w) || w in kinds)
    requires forall kind <- kinds :: Apart(kind, w)
    ensures Waits(rows.EnqueueAll(kinds), bound, w)
    decreases |kinds|
  {
    hide Waits, Apart, JobKind.DedupeId;
    if kinds != [] {
      var next := rows.Enqueue(kinds[0], Interactive);
      assert next.counter == rows.counter + 1;
      if kinds[0] == w || Waits(rows, bound, w) {
        EnqueueWaits(rows, bound, w, kinds[0], Interactive);
      }
      EnqueueAllWaits(next, bound, w, kinds[1..]);
    }
  }

  lemma {:induction false} Counting(rows: Rows, kind: JobKind, priority: Priority, c: Choice)
    ensures rows.Enqueue(kind, priority).counter == rows.counter + 1
    ensures rows.Keep(c).counter == rows.counter
  {
  }

  lemma {:induction false} CounterGrows(rows: Rows, kinds: seq<JobKind>)
    ensures rows.EnqueueAll(kinds).counter >= rows.counter
    decreases |kinds|
  {
    if kinds != [] {
      CounterGrows(rows.Enqueue(kinds[0], Interactive), kinds[1..]);
    }
  }

  // ── what the ledger holds of one file ─────────────────────────────────────

  /** The number of the job that is running. */
  function Bound(d: Replica): nat { if d.running.Some? then d.running.value else 0 }

  predicate Numbered(d: Replica) { Bound(d) <= d.rows.counter }

  /** The row of the file and the job that stands for it, newer than the running one. */
  ghost predicate Held(d: Replica, key: Key, row: Entry, w: JobKind) {
    Own(w, key) && Lookup(d.entries, key) == Some(row) && Waits(d.rows, Bound(d), w)
  }

  // ── work on other files ───────────────────────────────────────────────────

  lemma {:induction false} TombstonedHolds(d: Replica, other: Key, key: Key, row: Entry, w: JobKind)
    requires Held(d, key, row, w) && other != key && other in d.entries
    ensures Held(Tombstoned(d, other), key, row, w)
  {
    hide Waits, Rows.Enqueue, Rows.Keep, Apart, JobKind.DedupeId;
    OtherWork(JobKind.Delete(other, None), w, key);
    KeepWaits(d.rows, Bound(d), w, other);
    EnqueueWaits(d.rows.Keep(NotKey(other)), Bound(d), w, JobKind.Delete(other, None), Interactive);
  }

  lemma {:induction false} DroppedHolds(d: Replica, other: Key, key: Key, row: Entry, w: JobKind)
    requires Held(d, key, row, w) && other != key
    ensures Held(Dropped(d, other), key, row, w)
  {
    hide Waits, Rows.Enqueue, Rows.Keep, Apart, JobKind.DedupeId;
    OtherWork(JobKind.Delete(other, None), w, key);
    KeepWaits(d.rows, Bound(d), w, other);
  }

  lemma {:induction false} GoneHolds(d: Replica, other: Key, key: Key, row: Entry, w: JobKind)
    requires Held(d, key, row, w) && other != key
    ensures Held(Gone(d, other), key, row, w)
  {
    hide Held, Tombstoned, Dropped;
    if other in d.entries {
      TombstonedHolds(d, other, key, row, w);
      DroppedHolds(d, other, key, row, w);
    }
  }

  lemma {:induction false} DeletedHolds(d: Replica, other: Key, key: Key, row: Entry, w: JobKind)
    requires Held(d, key, row, w) && other != key
    ensures Held(Deleted(d, other), key, row, w)
  {
    hide Waits, Gone, Own;
    GoneHolds(d.(folder := d.folder - {other}, unsaved := d.unsaved - {other}, outside := d.outside - {other}), other, key, row, w);
  }

  lemma {:induction false} DestinationGoneHolds(d: Replica, to: Key, key: Key, row: Entry, w: JobKind)
    requires Held(d, key, row, w) && to != key
    ensures Held(DestinationGone(d, to), key, row, w)
  {
    hide Waits, Deleted, Rows.Enqueue, Apart, JobKind.DedupeId;
    DeletedHolds(d, to, key, row, w);
    if to in d.entries && to in d.bases {
      var r := Deleted(d, to);
      OtherWork(JobKind.Delete(to, Some(d.bases[to])), w, key);
      EnqueueWaits(r.rows, Bound(r), w, JobKind.Delete(to, Some(d.bases[to])), Interactive);
    }
  }

  /** The queue after a save over `to`: other files' jobs wait on, and the saved file's does. */
  lemma {:induction false} SavedRowsWait(rows: Rows, bound: nat, w: JobKind, from: Key, to: Key, tell: bool, key: Key)
    requires bound <= rows.counter && Own(w, key) && from != key
    requires (Waits(rows, bound, w) && to != key) || w == JobKind.Push(to)
    ensures var left := rows.Keep(NotKey(from));
            var told := if tell then left.Enqueue(JobKind.Delete(from, None), Interactive) else left;
            Waits(told.Keep(NotKey(to)).Enqueue(JobKind.Push(to), Interactive), bound, w)
  {
    hide Waits, Rows.Enqueue, Rows.Keep, Apart, JobKind.DedupeId;
    var left := rows.Keep(NotKey(from));
    var told := if tell then left.Enqueue(JobKind.Delete(from, None), Interactive) else left;
    Counting(rows, JobKind.Push(to), Interactive, NotKey(from));
    Counting(left, JobKind.Delete(from, None), Interactive, NotKey(to));
    Counting(told, JobKind.Push(to), Interactive, NotKey(to));
    OtherWork(JobKind.Delete(from, None), w, key);
    if w == JobKind.Push(to) {
      assert Apart(w, w) by { SameIsApart(w); }
    } else {
      OtherWork(JobKind.Push(to), w, key);
      KeepWaits(rows, bound, w, from);
      if tell {
        EnqueueWaits(left, bound, w, JobKind.Delete(from, None), Interactive);
      }
      KeepWaits(told, bound, w, to);
    }
    EnqueueWaits(told.Keep(NotKey(to)), bound, w, JobKind.Push(to), Interactive);
  }

  lemma {:induction false} SameIsApart(w: JobKind)
    ensures Apart(w, w)
  {
  }

  lemma {:induction false} MovedElsewhere(entries: map<Key, Entry>, from: Key, to: Key, key: Key)
    ensures key != from && key != to ==> Lookup(MovedRow(entries, from, to), key) == Lookup(entries, key)
    ensures from in entries ==> Lookup(MovedRow(entries, from, to), to) == Some(entries[from])
    ensures from !in entries ==> MovedRow(entries, from, to) == entries
  {
  }

  lemma {:induction false} SavedOverHolds(d: Replica, from: Key, to: Key, key: Key, row: Entry, w: JobKind)
    requires Held(d, key, row, w) && from != key && to != key && to in d.entries
    ensures Held(SavedOver(d, from, to), key, row, w)
  {
    hide Waits, MovedRow, MovedMember, Rows.Enqueue, Rows.Keep, Own;
    assert Bound(d) <= d.rows.counter by { WaitsBound(d.rows, Bound(d), w); }
    SavedRowsWait(d.rows, Bound(d), w, from, to, from in d.marks, key);
    MovedElsewhere(d.entries, from, to, key);
  }

  lemma {:induction false} WaitsBound(rows: Rows, bound: nat, w: JobKind)
    requires Waits(rows, bound, w)
    ensures bound <= rows.counter
  {
  }

  lemma {:induction false} RetargetedAt(jobs: seq<Job>, from: Key, to: Key, i: nat)
    requires i < |jobs|
    ensures RetargetAll(jobs, from, to)[i] == Retarget(jobs[i].kind, from, to)
    decreases i
  {
    if i > 0 {
      RetargetedAt(jobs[1..], from, to, i - 1);
    }
  }

  /** The jobs that follow a file to its new name do not replace another file's. */
  lemma {:induction false} RetargetedAreOthers(jobs: seq<Job>, from: Key, to: Key, w: JobKind, key: Key)
    requires Own(w, key) && from != key && (to != key || w == JobKind.Push(to))
    ensures forall kind <- RetargetAll(Select(jobs, OnlyKey(from)), from, to) :: Apart(kind, w)
  {
    hide Own, Apart, JobKind.DedupeId, Retarget;
    var mine := Select(jobs, OnlyKey(from));
    var kinds := RetargetAll(mine, from, to);
    forall kind | kind in kinds ensures Apart(kind, w) {
      var i :| 0 <= i < |kinds| && kinds[i] == kind;
      RetargetedAt(mine, from, to, i);
      assert mine[i] in mine;
      RetargetedIsOther(mine[i].kind, from, to, w, key);
    }
  }

  lemma {:induction false} RetargetedIsOther(kind: JobKind, from: Key, to: Key, w: JobKind, key: Key)
    requires kind.MainKey() == from && Own(w, key) && from != key && (to != key || w == JobKind.Push(to))
    ensures Apart(Retarget(kind, from, to), w)
  {
    hide JobKind.DedupeId;
    var r := Retarget(kind, from, to);
    if r != w {
      OtherWork(r, w, key);
    }
  }

  lemma {:induction false} RekeyedRowsWait(rows: Rows, bound: nat, w: JobKind, from: Key, to: Key, send: bool, key: Key)
    requires Waits(rows, bound, w) && Own(w, key) && from != key && to != key
    ensures Waits(RekeyedRows(rows, from, to, send), bound, w)
  {
    hide Waits, RetargetAll, Rows.EnqueueAll, Rows.Enqueue, Rows.Keep, Apart, JobKind.DedupeId;
    var left := rows.Keep(NotKey(from));
    OtherWork(Rename(from, to), w, key);
    KeepWaits(rows, bound, w, from);
    EnqueueWaits(left, bound, w, Rename(from, to), Interactive);
    var sent := if send then left.Enqueue(Rename(from, to), Interactive) else left;
    RetargetedAreOthers(rows.jobs, from, to, w, key);
    WaitsBound(sent, bound, w);
    EnqueueAllWaits(sent, bound, w, RetargetAll(Select(rows.jobs, OnlyKey(from)), from, to));
  }

  lemma {:induction false} RetabledHolds(d: Replica, from: Key, to: Key, key: Key, row: Entry, w: JobKind)
    requires Held(d, key, row, w) && from != key && to != key
    ensures Held(Retabled(FileMoved(d, from, to), from, to), key, row, w)
  {
    hide Waits, RekeyedRows, MovedRow, MovedMember, MovedRecord, Own;
    RekeyedRowsWait(d.rows, Bound(d), w, from, to, to in MovedRow(d.bases, from, to) || from in d.marks, key);
    MovedElsewhere(d.entries, from, to, key);
  }

  lemma {:induction false} RekeyedHolds(d: Replica, from: Key, to: Key, key: Key, row: Entry, w: JobKind)
    requires Held(d, key, row, w) && from != key && to != key
    ensures Held(Rekeyed(FileMoved(d, from, to), from, to), key, row, w)
  {
    hide Waits, Retabled, Rows.Enqueue, Own, Apart, JobKind.DedupeId;
    var m := Retabled(FileMoved(d, from, to), from, to);
    RetabledHolds(d, from, to, key, row, w);
    OtherWork(JobKind.Push(to), w, key);
    EnqueueWaits(m.rows, Bound(m), w, JobKind.Push(to), Interactive);
  }

  lemma {:induction false} RenameLocalHolds(d: Replica, from: Key, to: Key, key: Key, row: Entry, w: JobKind)
    requires Held(d, key, row, w) && from != key && to != key
    ensures Held(RenameLocal(d, from, to), key, row, w)
  {
    hide Waits, Own, Rekeyed, FileMoved, SavedOver, DestinationGone;
    if from != to && from in d.folder {
      var e := d.(epoch := d.epoch + 1);
      assert Held(e, key, row, w);
      hide Held;
      if from !in d.bases && to in d.entries {
        SavedOverHolds(e, from, to, key, row, w);
      } else {
        DestinationGoneHolds(e, to, key, row, w);
        RekeyedHolds(DestinationGone(e, to), from, to, key, row, w);
      }
    }
  }

  lemma {:induction false} WriteElsewhereHolds(d: Replica, other: Key, sha: Digest, key: Key, row: Entry, w: JobKind)
    requires Held(d, key, row, w) && other != key
    ensures Held(CommitWrite(d, other, sha), key, row, w) && Held(CommitHandle(d, other), key, row, w)
  {
    hide Waits, Rows.Enqueue, Own, Apart, JobKind.DedupeId;
    OtherWork(JobKind.Push(other), w, key);
    EnqueueWaits(d.rows, Bound(d), w, JobKind.Push(other), Interactive);
  }

  predicate LedgerKept(d: Replica, e: Replica) {
    e.entries == d.entries && e.rows == d.rows && e.running == d.running
  }

  lemma {:induction false} SameLedger(d: Replica, e: Replica, key: Key, row: Entry, w: JobKind)
    requires Held(d, key, row, w) && LedgerKept(d, e)
    ensures Held(e, key, row, w)
  {
    hide Waits, Own;
  }

  lemma {:induction false} FolderWorkLeaves(d: Replica, k: Key, create: bool, truncate: bool, sha: Digest,
      bytes: Option<Digest>)
    ensures LedgerKept(d, OpenWrite(d, k, create, truncate)) && LedgerKept(d, HandleWrite(d, k, sha))
    ensures LedgerKept(d, CloseWrite(d, k)) && LedgerKept(d, External(d, k, bytes))
  {
  }

  /** What touches files but not the ledger. */
  lemma {:induction false} FolderWorkHolds(d: Replica, k: Key, create: bool, truncate: bool, sha: Digest,
      bytes: Option<Digest>, key: Key, row: Entry, w: JobKind)
    requires Held(d, key, row, w)
    ensures Held(OpenWrite(d, k, create, truncate), key, row, w) && Held(HandleWrite(d, k, sha), key, row, w)
    ensures Held(CloseWrite(d, k), key, row, w) && Held(External(d, k, bytes), key, row, w)
  {
    hide Held;
    FolderWorkLeaves(d, k, create, truncate, sha, bytes);
    hide OpenWrite, HandleWrite, CloseWrite, External;
    SameLedger(d, OpenWrite(d, k, create, truncate), key, row, w);
    SameLedger(d, HandleWrite(d, k, sha), key, row, w);
    SameLedger(d, CloseWrite(d, k), key, row, w);
    SameLedger(d, External(d, k, bytes), key, row, w);
  }

  // ── work on the file itself ───────────────────────────────────────────────

  /** A save or a flush: the new row is Dirty, and a push of its own is queued. */
  lemma {:induction false} CommitHolds(d: Replica, key: Key, sha: Digest)
    requires Numbered(d)
    ensures Held(CommitWrite(d, key, sha), key, Entry(sha, d.clock, Dirty), JobKind.Push(key))
    ensures key in d.folder ==> Held(CommitHandle(d, key), key, Entry("", d.folder[key].id, Dirty), JobKind.Push(key))
  {
    hide Waits, Rows.Enqueue, Apart;
    SameIsApart(JobKind.Push(key));
    EnqueueWaits(d.rows, Bound(d), JobKind.Push(key), JobKind.Push(key), Interactive);
  }

  /** A removal of what the hub may have: a tombstone, and the delete is queued. */
  lemma {:induction false} RemovalHolds(d: Replica, key: Key)
    requires Numbered(d) && key in d.entries && MayBeUpstream(d, key)
    ensures Held(Deleted(d, key), key, d.entries[key].(state := Tombstone), JobKind.Delete(key, None))
  {
    hide Waits, Rows.Enqueue, Rows.Keep, Apart;
    SameIsApart(JobKind.Delete(key, None));
    Counting(d.rows, JobKind.Push(key), Interactive, NotKey(key));
    EnqueueWaits(d.rows.Keep(NotKey(key)), Bound(d), JobKind.Delete(key, None), JobKind.Delete(key, None), Interactive);
  }

  /** The queue after the file moved: its own push is queued again, for the new name. */
  lemma {:induction false} FollowedRowsWait(rows: Rows, bound: nat, from: Key, to: Key, send: bool)
    requires Waits(rows, bound, JobKind.Push(from)) && from != to
    ensures Waits(RekeyedRows(rows, from, to, send), bound, JobKind.Push(to))
  {
    var left, mine := rows.Keep(NotKey(from)), Select(rows.jobs, OnlyKey(from));
    var sent := if send then left.Enqueue(Rename(from, to), Interactive) else left;
    var kinds := RetargetAll(mine, from, to);
    var j :| j in rows.jobs && j.kind == JobKind.Push(from) && bound < j.seqNo;
    assert j in mine;
    var i :| 0 <= i < |mine| && mine[i] == j;
    RetargetedAt(mine, from, to, i);
    assert bound <= sent.counter;
    hide Waits, RetargetAll, Rows.EnqueueAll, Rows.Enqueue, Rows.Keep, Apart;
    assert kinds[i] == JobKind.Push(to);
    RetargetedAreOthers(rows.jobs, from, to, JobKind.Push(to), to);
    EnqueueAllWaits(sent, bound, JobKind.Push(to), kinds);
  }

  lemma {:induction false} FollowedHolds(d: Replica, from: Key, to: Key, row: Entry)
    requires Held(d, from, row, JobKind.Push(from)) && row.state.Dirty? && from != to
    ensures Held(Rekeyed(FileMoved(d, from, to), from, to), to, row, JobKind.Push(to))
  {
    hide Waits, RekeyedRows, MovedRow, MovedMember, MovedRecord;
    FollowedRowsWait(d.rows, Bound(d), from, to, to in MovedRow(d.bases, from, to) || from in d.marks);
    MovedElsewhere(d.entries, from, to, to);
  }

  /** Renaming the file takes its row and its push along, whatever was there before. */
  lemma {:induction false} MoveHolds(d: Replica, from: Key, to: Key, row: Entry)
    requires Held(d, from, row, JobKind.Push(from)) && row.state.Dirty? && from != to && from in d.folder
    ensures Held(RenameLocal(d, from, to), to, row, JobKind.Push(to))
  {
    hide Waits, Rekeyed, FileMoved, SavedOver, DestinationGone;
    var e := d.(epoch := d.epoch + 1);
    assert Held(e, from, row, JobKind.Push(from));
    if from !in d.bases && to in d.entries {
      assert Numbered(e) by { WaitsBound(d.rows, Bound(d), JobKind.Push(from)); }
      SaveOverHolds(e, from, to);
    } else {
      DestinationGoneHolds(e, to, from, row, JobKind.Push(from));
      FollowedHolds(DestinationGone(e, to), from, to, row);
    }
  }

  /** A save-over: the destination has the saved file's row, Dirty, and a push. */
  lemma {:induction false} SaveOverHolds(d: Replica, from: Key, to: Key)
    requires Numbered(d) && from != to && to in d.entries
    ensures var row := if from in d.entries then d.entries[from].(state := Dirty) else d.entries[to].(state := Dirty);
            Held(SavedOver(d, from, to), to, row, JobKind.Push(to))
  {
    hide Waits, MovedRow, MovedMember, Rows.Enqueue, Rows.Keep;
    SavedRowsWait(d.rows, Bound(d), JobKind.Push(to), from, to, from in d.marks, to);
    MovedElsewhere(d.entries, from, to, to);
  }

  // ── what becomes of the file, step by step ────────────────────────────────

  /** The newest work on a file: a row under its current name; a tombstone; or nothing any more,
      because the user removed a file the hub cannot have, or moved another one over it. */
  datatype Fate = Lives(key: Key, row: Entry) | Buried(key: Key, row: Entry) | Over

  /** The hub may have the file, and is to be told when it is removed. */
  predicate MayBeUpstream(d: Replica, key: Key) { d.cfg.propagate && (key in d.bases || key in d.marks) }

  function Follow(d: Replica, st: Step, f: Fate): Fate {
    if f.Over? then f
    else
      match st
      case Write(k, sha) => if k == f.key then Lives(k, Entry(sha, d.clock, Dirty)) else f
      case Flush(k) => if k == f.key && k in d.folder then Lives(k, Entry("", d.folder[k].id, Dirty)) else f
      case Remove(k) =>
        if k != f.key then f else if MayBeUpstream(d, k) then Buried(k, f.row.(state := Tombstone)) else Over
      case Move(from, to) =>
        if from == to || from !in d.folder || (from != f.key && to != f.key) then f
        else if f.Buried? then Over
        else if from == f.key then Lives(to, f.row)
        else if from in d.bases then Over
        else if from in d.entries then Lives(to, d.entries[from].(state := Dirty))
        else f
      case _ => f
  }

  ghost predicate FateHeld(d: Replica, f: Fate) {
    match f
    case Lives(key, row) => row.state.Dirty? && Held(d, key, row, JobKind.Push(key))
    case Buried(key, row) => row.state.Tombstone? && Held(d, key, row, JobKind.Delete(key, None))
    case Over => true
  }

  function WorkOf(f: Fate): JobKind
    requires !f.Over?
  {
    if f.Lives? then JobKind.Push(f.key) else JobKind.Delete(f.key, None)
  }

  lemma {:induction false} RenameFollowed(d: Replica, from: Key, to: Key, f: Fate)
    requires FateHeld(d, f) && !f.Over?
    ensures FateHeld(RenameLocal(d, from, to), Follow(d, Move(from, to), f))
  {
    hide Held, RenameLocal;
    if from == to || from !in d.folder {
      assert RenameLocal(d, from, to) == d by { NothingRenamed(d, from, to); }
    } else if from != f.key && to != f.key {
      RenameLocalHolds(d, from, to, f.key, f.row, WorkOf(f));
    } else if f.Lives? && from == f.key {
      MoveHolds(d, from, to, f.row);
    } else if f.Lives? && from !in d.bases {
      MovedOnto(d, from, to, f.row);
    }
  }

  lemma {:induction false} NothingRenamed(d: Replica, from: Key, to: Key)
    requires from == to || from !in d.folder
    ensures RenameLocal(d, from, to) == d
  {
  }

  /** A file the hub never had is moved onto the edited one: the name is Dirty, with a push. */
  lemma {:induction false} MovedOnto(d: Replica, from: Key, to: Key, row: Entry)
    requires Held(d, to, row, JobKind.Push(to)) && row.state.Dirty? && from != to && from in d.folder && from !in d.bases
    ensures Held(RenameLocal(d, from, to), to, if from in d.entries then d.entries[from].(state := Dirty) else row, JobKind.Push(to))
  {
    hide Waits, SavedOver;
    WaitsBound(d.rows, Bound(d), JobKind.Push(to));
    SaveOverHolds(d.(epoch := d.epoch + 1), from, to);
  }

  /** Every local step takes the newest work along. */
  lemma {:induction false} LocallyFollowed(d: Replica, st: Step, f: Fate)
    requires FateHeld(d, f) && Numbered(d) && LocalStep(st)
    ensures FateHeld(Locally(d, st), Follow(d, st, f))
  {
    hide Held, Numbered, CommitWrite, CommitHandle, Deleted, RenameLocal, OpenWrite, HandleWrite, CloseWrite, External;
    if !f.Over? {
      var key, row, w := f.key, f.row, WorkOf(f);
      match st {
        case Write(k, sha) =>
          if k == key { CommitHolds(d, k, sha); } else { WriteElsewhereHolds(d, k, sha, key, row, w); }
        case Flush(k) =>
          if k == key && k in d.folder { CommitHolds(d, k, ""); }
          else if k == key { NothingFlushed(d, k); }
          else { WriteElsewhereHolds(d, k, "", key, row, w); }
        case Remove(k) =>
          if k != key { DeletedHolds(d, k, key, row, w); }
          else if MayBeUpstream(d, k) { RowThere(d, key, row, w); RemovalHolds(d, k); }
        case Move(from, to) => RenameFollowed(d, from, to, f);
        case OpenForWrite(k, create, truncate) => FolderWorkHolds(d, k, create, truncate, "", None, key, row, w);
        case WriteThrough(k, sha) => FolderWorkHolds(d, k, false, false, sha, None, key, row, w);
        case Close(k) => FolderWorkHolds(d, k, false, false, "", None, key, row, w);
        case ChangeFolder(k, bytes) => FolderWorkHolds(d, k, false, false, "", bytes, key, row, w);
      }
    }
  }

  lemma {:induction false} NothingFlushed(d: Replica, key: Key)
    requires key !in d.folder
    ensures CommitHandle(d, key) == d
  {
  }

  lemma {:induction false} RowThere(d: Replica, key: Key, row: Entry, w: JobKind)
    requires Held(d, key, row, w)
    ensures Lookup(d.entries, key) == Some(row)
  {
  }

  // ── the landing ───────────────────────────────────────────────────────────

  /** What the ledger says of the newest work when the upload has landed: its row stands, unless
      it names the very bytes that were uploaded, and its job is still queued. */
  ghost predicate Outlives(f: Fate, sent: Digest, bound: nat, e: Replica) {
    match f
    case Lives(key, row) =>
      && (Lookup(e.entries, key) == Some(row) || (row.sha == sent && Lookup(e.entries, key) == Some(row.(state := Clean))))
      && exists j <- e.rows.jobs :: j.kind == JobKind.Push(key) && bound < j.seqNo
    case Buried(key, row) =>
      && Lookup(e.entries, key) == Some(row)
      && exists j <- e.rows.jobs :: j.kind == JobKind.Delete(key, None) && bound < j.seqNo
    case Over => true
  }

  /** The landing takes only the finished job's own row from the queue, and confirms only a row of
      the uploaded bytes. */
  lemma {:induction false} LandingHolds(d: Replica, f: Fate)
    requires d.flight.Pushing? && d.flight.reply.Accepted? && FateHeld(d, f)
    ensures Outlives(f, d.flight.sha, Bound(d), LandPush(d)) && LandPush(d).flight.Idle?
  {
    hide ResultKey;
    var landed := ResultKey(d.rows.jobs, d.flight.key);
    var p := Pushed(d, d.flight.key, landed, d.flight.sha);
    assert LandPush(d) == Done(p) && p.rows == d.rows && p.running == d.running;
    if !f.Over? {
      var j :| j in d.rows.jobs && j.kind == WorkOf(f) && Bound(d) < j.seqNo;
      assert j in Done(p).rows.jobs;
    }
  }

  // ── from the start of the upload to its landing ───────────────────────────

  lemma {:induction false} GoneCounts(d: Replica, key: Key)
    ensures Gone(d, key).rows.counter >= d.rows.counter
  {
    Counting(d.rows, JobKind.Push(key), Interactive, NotKey(key));
    Counting(d.rows.Keep(NotKey(key)), JobKind.Delete(key, None), Interactive, NotKey(key));
    hide Rows.Keep, Rows.Enqueue;
  }

  lemma {:induction false} SavedOverCounts(d: Replica, from: Key, to: Key)
    requires to in d.entries
    ensures SavedOver(d, from, to).rows.counter >= d.rows.counter
  {
    hide MovedMember;
  }

  lemma {:induction false} DestinationCounts(d: Replica, to: Key)
    ensures DestinationGone(d, to).rows.counter >= d.rows.counter
  {
    hide Gone;
    GoneCounts(d.(folder := d.folder - {to}, unsaved := d.unsaved - {to}, outside := d.outside - {to}), to);
  }

  lemma {:induction false} RekeyedCounts(d: Replica, from: Key, to: Key)
    ensures Rekeyed(FileMoved(d, from, to), from, to).rows.counter >= d.rows.counter
  {
    var left := d.rows.Keep(NotKey(from));
    var kinds := RetargetAll(Select(d.rows.jobs, OnlyKey(from)), from, to);
    CounterGrows(left, kinds);
    CounterGrows(left.Enqueue(Rename(from, to), Interactive), kinds);
    hide MovedRow, MovedMember, MovedRecord, RetargetAll, Rows.EnqueueAll;
  }

  lemma {:induction false} RenameCounts(d: Replica, from: Key, to: Key)
    ensures RenameLocal(d, from, to).rows.counter >= d.rows.counter
  {
    hide SavedOver, DestinationGone, Rekeyed, FileMoved;
    if from != to && from in d.folder {
      var e := d.(epoch := d.epoch + 1);
      if from !in d.bases && to in d.entries {
        SavedOverCounts(e, from, to);
      } else {
        DestinationCounts(e, to);
        RekeyedCounts(DestinationGone(e, to), from, to);
      }
    }
  }

  lemma {:induction false} DeletedCounts(d: Replica, key: Key)
    ensures Deleted(d, key).rows.counter >= d.rows.counter
  {
    hide Gone;
    GoneCounts(d.(folder := d.folder - {key}, unsaved := d.unsaved - {key}, outside := d.outside - {key}), key);
  }

  lemma {:induction false} LocallyCounts(d: Replica, st: Step)
    requires LocalStep(st)
    ensures Locally(d, st).rows.counter >= d.rows.counter
  {
    hide Gone, RenameLocal, Deleted;
    match st {
      case Move(from, to) => RenameCounts(d, from, to);
      case Remove(key) => DeletedCounts(d, key);
      case Write(key, _) => Counting(d.rows, JobKind.Push(key), Interactive, NotKey(key));
      case Flush(key) => Counting(d.rows, JobKind.Push(key), Interactive, NotKey(key));
      case _ =>
    }
  }

  /** Anything but the engine. */
  predicate Besides(st: Step) { LocalStep(st) || st.ChangeHub? || st.HubAnswers? }

  lemma {:induction false} BesidesKeeps(s: System, st: Step, f: Fate)
    requires Enabled(s, st) && Besides(st) && Numbered(s.mirror) && s.mirror.flight.Pushing? && FateHeld(s.mirror, f)
    ensures var d := Next(s, st).mirror;
            && Numbered(d) && d.flight.Pushing? && d.flight.sha == s.mirror.flight.sha && Bound(d) == Bound(s.mirror)
            && FateHeld(d, Follow(s.mirror, st, f))
  {
    hide Locally, Verdict, Objects, Waits, Own;
    if LocalStep(st) {
      LocallyCounts(s.mirror, st);
      LocallyLeaves(s.mirror, st);
      LocallyFollowed(s.mirror, st, f);
    }
  }

  /** What has become of `f`, the newest work at step `m`, when step `n` begins. */
  function FateAt(trace: seq<System>, steps: seq<Step>, m: nat, n: nat, f: Fate): Fate
    requires m <= n < |trace| == |steps| + 1
  {
    if n == m then f else Follow(trace[n - 1].mirror, steps[n - 1], FateAt(trace, steps, m, n - 1, f))
  }

  lemma {:induction false} WhileInFlight(trace: seq<System>, steps: seq<Step>, m: nat, n: nat, f: Fate)
    requires Run(trace, steps) && m <= n < |trace| && forall i :: m <= i < n ==> Besides(steps[i])
    requires Numbered(trace[m].mirror) && trace[m].mirror.flight.Pushing? && FateHeld(trace[m].mirror, f)
    ensures |trace| == |steps| + 1
    ensures var d := trace[n].mirror;
            && Numbered(d) && d.flight.Pushing? && d.flight.sha == trace[m].mirror.flight.sha && Bound(d) == Bound(trace[m].mirror)
            && FateHeld(d, FateAt(trace, steps, m, n, f))
  {
    hide Numbered, Enabled, Next, Besides, FateHeld, Follow, Bound;
    if n > m {
      WhileInFlight(trace, steps, m, n - 1, f);
      var st := steps[n - 1];
      BesidesKeeps(trace[n - 1], st, FateAt(trace, steps, m, n - 1, f));
    }
  }

  lemma {:induction false} DoneIsIdle(d: Replica)
    ensures Done(d).flight.Idle?
  {
    hide Rows.Keep;
  }

  lemma {:induction false} UploadingLeaves(d: Replica, key: Key, base: Option<Digest>)
    requires key in d.folder
    ensures Uploading(d, key, base).running == d.running && Uploading(d, key, base).rows == d.rows
  {
  }

  lemma {:induction false} PushNumbers(d: Replica, key: Key)
    requires RunPush(d, key).flight.Pushing?
    ensures RunPush(d, key).running == None || (RunPush(d, key).running == d.running && RunPush(d, key).rows == d.rows)
  {
    hide PendingDirectoryMove, Done, Uploading;
    DoneIsIdle(d);
    if key in d.folder {
      UploadingLeaves(d, key, Lookup(d.bases, key));
    }
  }

  lemma {:induction false} DeleteDoesNotPush(d: Replica, key: Key, ifMatch: Option<Digest>)
    ensures !RunDelete(d, key, ifMatch).flight.Pushing?
  {
    hide Rows.Keep, ResultKey, DeleteMatch, NoTombstone, Done;
    DoneIsIdle(d.(entries := NoTombstone(d.entries, ResultKey(d.rows.jobs, key))));
  }

  lemma {:induction false} RenameDoesNotPush(d: Replica, from: Key, to: Key)
    ensures !RunRename(d, from, to).flight.Pushing?
  {
    hide ResultKey;
  }

  lemma {:induction false} ConflictDoesNotPush(d: Replica, key: Key, sha: Digest, copy: Key)
    ensures !RunConflict(d, key, sha, copy).flight.Pushing?
  {
    hide Rows.Keep, ResultKey;
  }

  lemma {:induction false} OtherJobsDoNotPush(d: Replica, job: Job, copy: Key)
    requires !job.kind.Push? && d.flight.Idle?
    ensures !RunJob(d, job, copy).flight.Pushing?
  {
    hide RunPush, RunDelete, RunRename, RunConflict;
    var r := d.(running := Some(job.seqNo));
    match job.kind {
      case Delete(key, ifMatch) => DeleteDoesNotPush(r, key, ifMatch);
      case Rename(from, to) => RenameDoesNotPush(r, from, to);
      case ConflictUpload(key, sha, _) => ConflictDoesNotPush(r, key, sha, copy);
      case _ =>
    }
  }

  lemma {:induction false} StartNumbers(s: System, st: Step)
    requires SystemInv(s) && Enabled(s, st) && st.StartJob? && Next(s, st).mirror.flight.Pushing?
    ensures Numbered(Next(s, st).mirror)
  {
    var d, key := s.mirror, st.job.kind;
    assert st.job.seqNo <= d.rows.counter;
    hide SystemInv, RunDelete, RunRename, RunConflict, Done, Failed, PendingDirectoryMove;
    if st.job.kind.Push? {
      PushNumbers(d.(running := Some(st.job.seqNo)), st.job.kind.key);
    } else {
      OtherJobsDoNotPush(d, st.job, st.copy);
    }
  }

  /** An edit of `key` is committed: saved through the mount, or flushed by its handle. */
  predicate Edits(d: Replica, st: Step, key: Key) {
    (st.Write? && st.key == key) || (st == Flush(key) && key in d.folder)
  }

  /** The row it leaves. A flushed file is not hashed yet. */
  function EditRow(d: Replica, st: Step, key: Key): Entry
    requires Edits(d, st, key)
  {
    if st.Write? then Entry(st.sha, d.clock, Dirty) else Entry("", d.folder[key].id, Dirty)
  }

  /** The part of a run that starts an upload, has an edit committed at step `m` while the upload is
      in flight, and ends with the upload's successful landing. Meanwhile anything but the engine
      may happen, to the edited file as to any other: the engine is waiting for the reply. */
  ghost predicate EditDuringUpload(trace: seq<System>, steps: seq<Step>, m: nat, key: Key) {
    var n := |steps| - 1;
    && Run(trace, steps) && 1 <= m < n
    && steps[0].StartJob? && trace[1].mirror.flight.Pushing?
    && (forall i :: 1 <= i < n ==> Besides(steps[i]))
    && Edits(trace[m].mirror, steps[m], key)
    && steps[n].Land? && trace[n].mirror.flight.Pushing? && trace[n].mirror.flight.reply.Accepted?
  }

  lemma {:induction false} EditArrives(trace: seq<System>, steps: seq<Step>, m: nat, key: Key)
    requires EditDuringUpload(trace, steps, m, key) && SystemInv(trace[0])
    ensures |trace| == |steps| + 1 && Edits(trace[m].mirror, steps[m], key)
    ensures var d := trace[m + 1].mirror;
            && FateHeld(d, Lives(key, EditRow(trace[m].mirror, steps[m], key))) && Numbered(d)
            && d.flight.Pushing? && d.flight.sha == trace[1].mirror.flight.sha && Bound(d) == Bound(trace[1].mirror)
  {
    assert Run(trace, steps) && |trace| == |steps| + 1;
    hide Run, SystemInv, Enabled, Next, Besides, Held, Numbered, Bound;
    StepTaken(trace, steps, 0);
    StepTaken(trace, steps, m);
    StartNumbers(trace[0], steps[0]);
    WhileInFlight(trace, steps, 1, m, Over);
    TheEdit(trace[m], steps[m], key);
  }

  lemma {:induction false} TheEdit(s: System, st: Step, key: Key)
    requires Edits(s.mirror, st, key) && Enabled(s, st) && Numbered(s.mirror) && s.mirror.flight.Pushing?
    ensures var d := Next(s, st).mirror;
            && Held(d, key, EditRow(s.mirror, st, key), JobKind.Push(key)) && Numbered(d)
            && d.flight == s.mirror.flight && Bound(d) == Bound(s.mirror)
  {
    hide Held, CommitWrite, CommitHandle;
    LocallyCounts(s.mirror, st);
    CommitHolds(s.mirror, key, if st.Write? then st.sha else "");
    LocallyLeaves(s.mirror, st);
  }

  lemma {:induction false} AfterTheEdit(trace: seq<System>, steps: seq<Step>, m: nat, key: Key)
    requires EditDuringUpload(trace, steps, m, key)
    ensures Run(trace, steps) && |trace| == |steps| + 1 && 1 <= m < |steps| - 1 && Edits(trace[m].mirror, steps[m], key)
    ensures forall i :: 1 <= i < |steps| - 1 ==> Besides(steps[i])
    ensures Accepts(trace, steps, |steps| - 1)
  {
    hide Enabled, Next, Besides;
  }

  /** Step `n` lands an accepted upload. */
  predicate Accepts(trace: seq<System>, steps: seq<Step>, n: nat) {
    && n < |steps| && n < |trace| && steps[n].Land?
    && trace[n].mirror.flight.Pushing? && trace[n].mirror.flight.reply.Accepted?
  }

  lemma {:induction false} LastIsLanding(trace: seq<System>, steps: seq<Step>, n: nat)
    requires Run(trace, steps) && |trace| == |steps| + 1 && Accepts(trace, steps, n)
    ensures n + 1 < |trace| && trace[n].mirror.flight.Pushing? && trace[n].mirror.flight.reply.Accepted?
    ensures trace[n + 1].mirror == LandPush(trace[n].mirror)
  {
    hide Run, LandPush, Enabled, Next;
    StepTaken(trace, steps, n);
    LandIsLandPush(trace[n], steps[n]);
  }

  /** A late upload reply never hides newer work. Wherever the edited file has been moved and
      whatever has been saved since, its newest row stands under its current name after the
      landing, still Dirty unless it names the uploaded bytes themselves, and its push is queued
      under a number above the finished job's; a removal's tombstone and delete stand likewise. */
  lemma {:induction false} LateReplyKeepsNewerEdit(trace: seq<System>, steps: seq<Step>, m: nat, key: Key)
    requires EditDuringUpload(trace, steps, m, key) && SystemInv(trace[0])
    ensures |trace| == |steps| + 1 && m + 1 < |steps| && Edits(trace[m].mirror, steps[m], key)
    ensures var f := FateAt(trace, steps, m + 1, |steps| - 1, Lives(key, EditRow(trace[m].mirror, steps[m], key)));
            var started := trace[1].mirror;
            && Outlives(f, started.flight.sha, Bound(started), trace[|steps|].mirror)
            && trace[|steps|].mirror.flight.Idle?
  {
    hide *;
    AfterTheEdit(trace, steps, m, key);
    EditArrives(trace, steps, m, key);
    var f := Lives(key, EditRow(trace[m].mirror, steps[m], key));
    WhileInFlight(trace, steps, m + 1, |steps| - 1, f);
    LastIsLanding(trace, steps, |steps| - 1);
    LandingHolds(trace[|steps| - 1].mirror, FateAt(trace, steps, m + 1, |steps| - 1, f));
  }

  lemma {:induction false} LandIsLandPush(s: System, st: Step)
    requires Enabled(s, st) && st.Land? && s.mirror.flight.Pushing?
    ensures Next(s, st).mirror == LandPush(s.mirror)
  {
    hide LandPush;
  }

  lemma {:induction false} StepTaken(trace: seq<System>, steps: seq<Step>, i: nat)
    requires Run(trace, steps) && i < |steps|
    ensures Enabled(trace[i], steps[i]) && trace[i + 1] == Next(trace[i], steps[i])
  {
    hide Enabled, Next;
    var st := steps[i];
  }
}
