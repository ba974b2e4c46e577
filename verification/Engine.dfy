/** The mirror as the program has it: tables and runtime sets updated step by step. Every method
    is one critical section of `src/mirror/sync.rs` and does to the fields what the step of the
    same meaning does to the replica they stand for. */
module Engine {
  import opened Options
  import opened Keys
  import opened Reconcile
  import opened Jobs
  import opened Tables
  import opened Replicas
  import opened SyncSteps
  import SyncRuns

  /** One row of a selection in progress. */
  lemma {:induction false} SelectStep(done: seq<Job>, jobs: seq<Job>, i: nat, c: Choice)
    requires i < |jobs| && done + Select(jobs[i..], c) == Select(jobs, c)
    ensures (if Chosen(c, jobs[i]) then done + [jobs[i]] else done) + Select(jobs[i + 1..], c) == Select(jobs, c)
  {
    hide Select, Chosen;
    SelectHead(jobs, i, c);
    var rest := Select(jobs[i + 1..], c);
    if Chosen(c, jobs[i]) {
      assert (done + [jobs[i]]) + rest == done + ([jobs[i]] + rest);
    }
  }

  lemma {:induction false} SelectHead(jobs: seq<Job>, i: nat, c: Choice)
    requires i < |jobs|
    ensures Select(jobs[i..], c) == if Chosen(c, jobs[i]) then [jobs[i]] + Select(jobs[i + 1..], c) else Select(jobs[i + 1..], c)
  {
    hide Chosen;
    assert jobs[i..][1..] == jobs[i + 1..];
    assert [] + Select(jobs[i + 1..], c) == Select(jobs[i + 1..], c);
  }

  lemma {:induction false} SelectEnds(done: seq<Job>, jobs: seq<Job>, c: Choice)
    requires done + Select(jobs[|jobs|..], c) == Select(jobs, c)
    ensures done == Select(jobs, c)
  {
    assert Select(jobs[|jobs|..], c) == [];
    hide Select;
  }

  class Mirror {
    const cfg: Config
    var folder: map<Key, File>
    var trash: map<Key, Digest>
    var kept: set<Digest>
    var entries: map<Key, Entry>
    var bases: map<Key, Digest>
    var marks: map<Key, Digest>
    var conflicts: map<Key, ConflictRecord>
    var jobs: seq<Job>
    var counter: nat
    var writers: set<Key>
    var recheck: set<Key>
    var epoch: nat
    var clock: nat
    var flight: Flight
    var running: Option<nat>
    var unsaved: set<Key>
    ghost var outside: set<Key>
    ghost var known: set<Digest>

    ghost function State(): Replica
      reads this
    {
      Replica(cfg, folder, trash, kept, entries, bases, marks, conflicts, Rows(jobs, counter), writers, unsaved, outside,
              recheck, epoch, clock, known, flight, running)
    }

    // ── the job table ───────────────────────────────────────────────────────

    /** The rows that are chosen, one at a time. */
    method ChosenRows(c: Choice) returns (rows: seq<Job>)
      ensures rows == Select(jobs, c)
    {
      hide Select, Chosen;
      rows := [];
      assert jobs[0..] == jobs;
      for i := 0 to |jobs|
        invariant rows + Select(jobs[i..], c) == Select(jobs, c)
      {
        SelectStep(rows, jobs, i, c);
        if Chosen(c, jobs[i]) {
          rows := rows + [jobs[i]];
        }
      }
      SelectEnds(rows, jobs, c);
    }

    /** Drop the rows that are not chosen. */
    method Retain(c: Choice)
      modifies this`jobs
      ensures jobs == Select(old(jobs), c)
    {
      jobs := ChosenRows(c);
    }

    method Enqueue(kind: JobKind, priority: Priority)
      modifies this`jobs, this`counter
      ensures Rows(jobs, counter) == Rows(old(jobs), old(counter)).Enqueue(kind, priority)
    {
      Retain(NotId(kind.DedupeId()));
      counter := counter + 1;
      jobs := jobs + [Job(counter, kind, priority)];
    }

    method HasJob(id: string) returns (has: bool)
      ensures has <==> Rows(jobs, counter).Has(id)
    {
      hide JobKind.DedupeId;
      for i := 0 to |jobs|
        invariant forall k :: 0 <= k < i ==> jobs[k].kind.DedupeId() != id
      {
        if jobs[i].kind.DedupeId() == id {
          assert jobs[i] in jobs;
          return true;
        }
      }
      return false;
    }

    method EnsureJob(kind: JobKind)
      modifies this`jobs, this`counter
      ensures Rows(jobs, counter) == Rows(old(jobs), old(counter)).Ensure(kind)
    {
      hide JobKind.DedupeId, Rows.Has, Rows.Enqueue;
      var has := HasJob(kind.DedupeId());
      if !has {
        Enqueue(kind, Background);
      }
    }

    method EnqueueRetargeted(dropped: seq<Job>, from: Key, to: Key)
      modifies this`jobs, this`counter
      ensures Rows(jobs, counter) == Rows(old(jobs), old(counter)).EnqueueAll(RetargetAll(dropped, from, to))
    {
      hide Retarget, Rows.Enqueue, Select;
      var i := 0;
      assert dropped[0..] == dropped;
      while i < |dropped|
        invariant 0 <= i <= |dropped|
        invariant Rows(jobs, counter).EnqueueAll(RetargetAll(dropped[i..], from, to))
                  == Rows(old(jobs), old(counter)).EnqueueAll(RetargetAll(dropped, from, to))
      {
        assert dropped[i..][1..] == dropped[i + 1..];
        ghost var kinds := RetargetAll(dropped[i..], from, to);
        assert kinds[0] == Retarget(dropped[i].kind, from, to) && kinds[1..] == RetargetAll(dropped[i + 1..], from, to);
        Enqueue(Retarget(dropped[i].kind, from, to), Interactive);
        i := i + 1;
      }
      assert dropped[i..] == [];
    }

    method LocalResultKey(key: Key) returns (local: Key)
      ensures local == ResultKey(jobs, key)
    {
      local := key;
      for i := 0 to |jobs|
        invariant ResultKey(jobs[i..], local) == ResultKey(jobs, key)
      {
        assert jobs[i..][1..] == jobs[i + 1..];
        match jobs[i].kind {
          case Rename(from, to) =>
            if local == from {
              local := to;
            }
          case RenameDir(from, to, _, _, applied, _) =>
            if applied && Under(local, from) {
              local := Mapped(local, from, to);
            }
          case _ =>
        }
      }
    }

    // ── local operations ────────────────────────────────────────────────────

    method ClearObsoleteTrash(key: Key)
      modifies this`trash
      ensures trash == if cfg.protected then old(trash) else old(trash) - {key}
    {
      if !cfg.protected {
        trash := trash - {key};
      }
    }

    /** `write_atomic`: the new version takes the name, whatever was there. */
    method WriteAtomic(key: Key, sha: Digest)
      modifies this`folder, this`clock, this`unsaved, this`outside
      ensures folder == old(folder)[key := File(sha, old(clock))] && clock == old(clock) + 1
      ensures unsaved == old(unsaved) - {key} && outside == old(outside) - {key}
    {
      folder, clock := folder[key := File(sha, clock)], clock + 1;
      unsaved, outside := unsaved - {key}, outside - {key};
    }

    method RecordEdit(key: Key, e: Entry)
      modifies this`entries, this`trash
      ensures entries == old(entries)[key := e] && trash == if cfg.protected then old(trash) else old(trash) - {key}
    {
      entries := entries[key := e];
      ClearObsoleteTrash(key);
    }

    method CommitWrite(key: Key, sha: Digest)
      modifies this`folder, this`clock, this`unsaved, this`outside, this`entries, this`trash, this`jobs, this`counter
      ensures State() == Replicas.CommitWrite(old(State()), key, sha)
    {
      hide Rows.Enqueue;
      WriteAtomic(key, sha);
      RecordEdit(key, Entry(sha, folder[key].id, Dirty));
      Enqueue(JobKind.Push(key), Interactive);
    }

    method CommitLocalFile(key: Key) returns (ok: bool)
      modifies this
      ensures ok <==> key in old(folder)
      ensures State() == CommitHandle(old(State()), key)
    {
      hide Rows.Enqueue;
      if key !in folder {
        return false;
      }
      var id := folder[key].id;
      assert State().folder == folder;
      HandleSaved(key);
      RecordPending(key, Entry("", id, Dirty));
      hide State;
      return true;
    }

    method HandleSaved(key: Key)
      modifies this`unsaved, this`outside
      ensures State() == (var d := old(State()); d.(unsaved := d.unsaved - {key}, outside := d.outside - {key}))
    {
      unsaved, outside := unsaved - {key}, outside - {key};
    }

    method RecordPending(key: Key, e: Entry)
      modifies this`entries, this`jobs, this`counter
      ensures State() == (var d := old(State()); d.(entries := d.entries[key := e], rows := d.rows.Enqueue(JobKind.Push(key), Interactive)))
    {
      hide Rows.Enqueue;
      entries := entries[key := e];
      Enqueue(JobKind.Push(key), Interactive);
    }

    /** `open_local_write`. */
    method OpenForWrite(key: Key, create: bool, truncate: bool)
      modifies this`writers, this`folder, this`clock, this`unsaved
      ensures State() == OpenWrite(old(State()), key, create, truncate)
    {
      assert State().folder == folder;
      if create == (key in folder) {
        return;
      }
      writers := writers + {key};
      assert State() == old(State()).(writers := writers);
      if create || truncate {
        Empty(key);
      }
    }

    /** A created or truncated file waits for its handle to commit it. */
    method Empty(key: Key)
      modifies this`folder, this`clock, this`unsaved
      ensures State() == (var d := old(State());
                          d.(folder := d.folder[key := File(EMPTY_FILE, d.clock)], clock := d.clock + 1, unsaved := d.unsaved + {key}))
    {
      folder, clock, unsaved := folder[key := File(EMPTY_FILE, clock)], clock + 1, unsaved + {key};
    }

    method WriteThrough(key: Key, sha: Digest)
      modifies this`folder, this`clock, this`unsaved
      ensures State() == HandleWrite(old(State()), key, sha)
    {
      if key in writers && key in folder {
        folder, clock, unsaved := folder[key := File(sha, clock)], clock + 1, unsaved + {key};
      }
    }

    /** `note_close_write`; the kernel has flushed a handle that wrote. */
    method NoteCloseWrite(key: Key)
      modifies this`writers
      ensures State() == CloseWrite(old(State()), key)
    {
      if key !in unsaved {
        writers := writers - {key};
      }
    }

    /** Another program, in the folder. */
    method ChangeFolder(key: Key, bytes: Option<Digest>)
      modifies this`folder, this`clock, this`unsaved, this`outside
      ensures State() == External(old(State()), key, bytes)
    {
      outside := outside + {key};
      match bytes {
        case Some(sha) => folder, clock := folder[key := File(sha, clock)], clock + 1;
        case None => folder, unsaved := folder - {key}, unsaved - {key};
      }
    }

    method NoteLocalGone(key: Key)
      modifies this`entries, this`bases, this`jobs, this`counter
      ensures State() == Gone(old(State()), key)
    {
      hide Tombstoned, Dropped;
      if key !in entries {
        return;
      }
      if cfg.propagate && (key in bases || key in marks) {
        BuryRow(key);
      } else {
        DropRow(key);
      }
    }

    /** The hub may have the file. */
    method BuryRow(key: Key)
      requires key in entries
      modifies this`entries, this`jobs, this`counter
      ensures State() == Tombstoned(old(State()), key)
    {
      hide Rows.Enqueue, Select;
      Retain(NotKey(key));
      entries := entries[key := entries[key].(state := Tombstone)];
      Enqueue(JobKind.Delete(key, None), Interactive);
    }

    /** The hub never had the file. */
    method DropRow(key: Key)
      modifies this`entries, this`bases, this`jobs
      ensures State() == Dropped(old(State()), key)
    {
      hide Select;
      Retain(NotKey(key));
      entries := entries - {key};
      bases := bases - {key};
    }

    method DeleteLocal(key: Key)
      modifies this
      ensures State() == Deleted(old(State()), key)
    {
      hide State, Gone;
      RemoveFile(key);
      NoteLocalGone(key);
    }

    method MoveFile(from: Key, to: Key)
      requires from in folder && from != to
      modifies this`folder, this`unsaved, this`outside
      ensures State() == FileMoved(old(State()), from, to)
    {
      hide MovedMember;
      folder := (folder - {from})[to := folder[from]];
      unsaved := MovedMember(unsaved - {to}, from, to);
      outside := MovedMember(outside - {to}, from, to);
    }

    /** `Store::rekey`: an entry and its base take the new name. */
    method RekeyRows(from: Key, to: Key)
      modifies this`entries, this`bases
      ensures entries == MovedRow(old(entries), from, to) && bases == MovedRow(old(bases), from, to)
    {
      if from in entries {
        entries := (entries - {from})[to := entries[from]];
      }
      if from in bases {
        bases := (bases - {from})[to := bases[from]];
      }
    }

    method MoveWriter(from: Key, to: Key)
      modifies this`writers
      ensures writers == MovedMember(old(writers), from, to)
    {
      if from in writers {
        writers := writers - {from} + {to};
      }
    }

    /** The queue's part of `rekey_entry`: the jobs of the old name follow, after the rename. */
    method RekeyJobs(from: Key, to: Key)
      modifies this`jobs, this`counter
      ensures Rows(jobs, counter) == RekeyedRows(Rows(old(jobs), old(counter)), from, to, to in bases || from in marks)
    {
      hide Rows.Enqueue, Select, RetargetAll, Rows.EnqueueAll;
      var dropped := ChosenRows(OnlyKey(from));
      Retain(NotKey(from));
      if to in bases || from in marks {
        Enqueue(Rename(from, to), Interactive);
      }
      EnqueueRetargeted(dropped, from, to);
    }

    method RekeyConflict(from: Key, to: Key)
      modifies this`conflicts
      ensures conflicts == MovedRecord(old(conflicts), from, to)
    {
      if from in conflicts {
        conflicts := (conflicts - {from})[to := conflicts[from].(key := to)];
      }
    }

    /** The ledger's rows of the moved file. */
    method RekeyLedger(from: Key, to: Key)
      modifies this`entries, this`bases, this`conflicts, this`trash, this`writers
      ensures entries == MovedRow(old(entries), from, to) && bases == MovedRow(old(bases), from, to)
      ensures conflicts == MovedRecord(old(conflicts), from, to) && writers == MovedMember(old(writers), from, to)
      ensures trash == if cfg.protected then old(trash) else old(trash) - {to}
    {
      hide MovedRow, MovedMember, MovedRecord;
      RekeyRows(from, to);
      RekeyConflict(from, to);
      ClearObsoleteTrash(to);
      MoveWriter(from, to);
    }

    /** The ledger's rows of the moved file, and its jobs. */
    method RekeyTables(from: Key, to: Key)
      modifies this`entries, this`bases, this`conflicts, this`trash, this`jobs, this`counter, this`writers
      ensures State() == Retabled(old(State()), from, to)
    {
      hide RekeyedRows, MovedRow, MovedMember, MovedRecord;
      RekeyLedger(from, to);
      RekeyJobs(from, to);
    }

    method RekeyEntry(from: Key, to: Key)
      modifies this`entries, this`bases, this`conflicts, this`trash, this`jobs, this`counter, this`writers
      ensures State() == Rekeyed(old(State()), from, to)
    {
      hide Retabled, Rows.Enqueue;
      RekeyTables(from, to);
      if to in entries && to !in bases && entries[to].state.Clean? {
        entries := entries[to := entries[to].(state := Dirty)];
        Enqueue(JobKind.Push(to), Interactive);
      }
    }

    /** The jobs of both names make way for one push of the saved file. */
    method SaveOverJobs(from: Key, to: Key)
      modifies this`jobs, this`counter
      ensures var left := Rows(old(jobs), old(counter)).Keep(NotKey(from));
              var told := if from in marks then left.Enqueue(JobKind.Delete(from, None), Interactive) else left;
              Rows(jobs, counter) == told.Keep(NotKey(to)).Enqueue(JobKind.Push(to), Interactive)
    {
      hide Rows.Enqueue, Select;
      Retain(NotKey(from));
      if from in marks {
        Enqueue(JobKind.Delete(from, None), Interactive);
      }
      Retain(NotKey(to));
      Enqueue(JobKind.Push(to), Interactive);
    }

    /** The saved file's row takes the destination's place, which keeps its base. */
    method SaveOverRow(from: Key, to: Key)
      requires to in entries && from !in bases
      modifies this`entries, this`bases
      ensures var moved := MovedRow(old(entries), from, to);
              to in moved && entries == moved[to := moved[to].(state := Dirty)]
      ensures bases == old(bases)
    {
      RekeyRows(from, to);
      entries := entries[to := entries[to].(state := Dirty)];
    }

    method SaveOver(from: Key, to: Key)
      requires from in folder && from != to && to in entries && from !in bases
      modifies this
      ensures State() == SavedOver(old(State()), from, to)
    {
      hide Rows.Enqueue, Rows.Keep, MovedRow, MovedMember;
      MoveFile(from, to);
      SaveOverJobs(from, to);
      SaveOverRow(from, to);
      MoveWriter(from, to);
    }

    method ClearDestination(to: Key)
      modifies this
      ensures State() == DestinationGone(old(State()), to)
    {
      hide Deleted, Rows.Enqueue;
      if to in entries {
        var base := Lookup(bases, to);
        DeleteLocal(to);
        if base.Some? {
          Enqueue(JobKind.Delete(to, base), Interactive);
        }
      }
    }

    method RenameLocal(from: Key, to: Key)
      modifies this
      ensures State() == Replicas.RenameLocal(old(State()), from, to)
    {
      hide SavedOver, DestinationGone, Rekeyed, FileMoved;
      if from == to || from !in folder {
        return;
      }
      epoch := epoch + 1;
      if from !in bases && to in entries {
        SaveOver(from, to);
      } else {
        RenameOnto(from, to);
      }
    }

    /** The destination goes first, in the queue too. */
    method RenameOnto(from: Key, to: Key)
      requires from in folder && from != to
      modifies this
      ensures State() == Rekeyed(FileMoved(DestinationGone(old(State()), to), from, to), from, to)
    {
      hide DestinationGone, Rekeyed, FileMoved;
      ClearDestination(to);
      DestinationGoneFolder(old(State()), to);
      assert folder == State().folder;
      hide State;
      MoveFile(from, to);
      RekeyEntry(from, to);
    }

    // ── the end of a job ────────────────────────────────────────────────────

    /** The job that ran leaves the table, if it is still there under its number. */
    method Finish()
      modifies this`flight, this`running, this`jobs
      ensures State() == Done(old(State()))
    {
      hide Select;
      if running.Some? {
        Retain(NotNumber(running.value));
      }
      flight, running := Idle, None;
    }

    method Fail()
      modifies this`flight, this`running
      ensures State() == Failed(old(State()))
    {
      flight, running := Idle, None;
    }

    /** Finish unless the work has gone on to another request. */
    method Conclude()
      modifies this`flight, this`running, this`jobs
      ensures State() == Settle(old(State()))
    {
      hide Done;
      if flight.Idle? {
        Finish();
      }
    }

    method Defer(key: Key)
      modifies this`flight, this`recheck
      ensures State() == Deferred(old(State()), key)
    {
      flight := Idle;
      recheck := recheck + {key};
    }

    // ── reconcile_key ───────────────────────────────────────────────────────

    method MarkDirty(key: Key)
      modifies this`entries
      ensures entries == MarkedDirty(old(entries), key)
    {
      if key in entries && !entries[key].state.Dirty? {
        entries := entries[key := entries[key].(state := Dirty)];
      } else if key in entries {
        assert entries[key := entries[key].(state := Dirty)] == entries;
      }
    }

    /** `trash_put`: the file, whatever it holds, replaces an older trashed copy. */
    method TrashPut(key: Key)
      modifies this`trash, this`folder, this`unsaved, this`outside
      ensures trash == if key in old(folder) then old(trash)[key := old(folder)[key].sha] else old(trash) - {key}
      ensures folder == old(folder) - {key} && unsaved == old(unsaved) - {key} && outside == old(outside) - {key}
    {
      trash := if key in folder then trash[key := folder[key].sha] else trash - {key};
      folder, unsaved, outside := folder - {key}, unsaved - {key}, outside - {key};
    }

    /** `Action::TrashLocal`: the file goes to the trash, then its rows go. */
    method TrashLocal(key: Key)
      modifies this`trash, this`folder, this`unsaved, this`outside, this`entries, this`bases, this`jobs
      ensures State() == Trashed(old(State()), key)
    {
      hide Select;
      TrashPut(key);
      Retain(NotKey(key));
      entries := entries - {key};
      bases := bases - {key};
    }

    method Adopt(key: Key)
      modifies this`bases, this`entries, this`known, this`jobs
      ensures State() == Adopted(old(State()), key)
    {
      hide Select;
      if key in entries {
        var e := entries[key];
        bases, entries := bases[key := e.sha], entries[key := e.(state := Clean)];
        known := if e.state.Tombstone? then known else known + {e.sha};
      } else {
        bases := bases - {key};
      }
      Retain(NotKey(key));
    }

    method Act(key: Key, action: Action)
      modifies this
      ensures State() == Acted(old(State()), key, action)
    {
      hide Trashed, Adopted, ToPush, ToDelete;
      match action {
        case Nothing =>
        case Push(ifMatch) => PushChange(key, ifMatch);
        case DeleteRemote(_) => PushDelete(key);
        case Pull(_) => flight := PullChosen(key, Lookup(entries, key));
        case TrashLocal => TrashLocal(key);
        case Adopt => Adopt(key);
        case Conflict(remote) =>
          if key in entries {
            flight := ConflictChosen(key, entries[key], Lookup(bases, key), remote);
          }
      }
    }

    method PushChange(key: Key, ifMatch: Option<Digest>)
      modifies this`entries, this`bases, this`jobs, this`counter
      ensures State() == ToPush(old(State()), key, ifMatch)
    {
      hide MarkedDirty, Rows.Ensure;
      MarkDirty(key);
      if ifMatch.None? {
        bases := bases - {key};
      }
      EnsureJob(JobKind.Push(key));
    }

    method PushDelete(key: Key)
      modifies this`entries, this`bases, this`jobs, this`counter
      ensures State() == ToDelete(old(State()), key)
    {
      hide Rows.Ensure;
      if cfg.propagate {
        EnsureJob(JobKind.Delete(key, None));
      } else {
        entries, bases := entries - {key}, bases - {key};
      }
    }

    /** `reconcile_key` up to the point where it drops the lock. */
    method ReconcileKey(key: Key, remote: Option<Digest>)
      modifies this
      ensures State() == Decided(old(State()), key, remote)
    {
      hide Acted, Decide, PendingDirectoryMove, PendingRename;
      flight := Idle;
      if key == "" || PendingDirectoryMove(jobs, key) {
        return;
      }
      if key in writers || PendingRename(jobs, key) {
        recheck := recheck + {key};
        return;
      }
      var live := if key in entries && !entries[key].state.Tombstone? then Some(entries[key].sha) else None;
      var action := Decide(live, Lookup(bases, key), remote);
      if cfg.protected && Blocks(key, action) {
        return;
      }
      Act(key, action);
    }

    /** What protected mode defers. */
    predicate Blocks(key: Key, action: Action)
      reads this
      ensures Blocks(key, action) == Blocked(State(), key, action)
    {
      match action
      case TrashLocal => true
      case Pull(_) => key in folder
      case Conflict(_) => true
      case DeleteRemote(_) => true
      case Push(ifMatch) => ifMatch.Some?
      case _ => false
    }

    // ── scan ────────────────────────────────────────────────────────────────

    method RecordChange(key: Key, e: Entry, priority: Priority)
      modifies this`entries, this`trash, this`jobs, this`counter
      ensures State() == (var d := old(State());
                          d.(entries := d.entries[key := e], trash := ClearTrash(d, key), rows := d.rows.Enqueue(JobKind.Push(key), priority)))
    {
      hide Rows.Enqueue;
      RecordEdit(key, e);
      Enqueue(JobKind.Push(key), priority);
    }

    /** `scan_paths` on one path, once its digest is taken. */
    method ScanPath(key: Key, priority: Priority)
      modifies this`entries, this`bases, this`outside, this`trash, this`jobs, this`counter
      ensures State() == Scanned(old(State()), key, priority)
    {
      hide PendingDirectoryMove;
      if PendingDirectoryMove(jobs, key) || key in writers {
        return;
      }
      hide *;
      if key in folder {
        ScanFile(key, priority);
      } else {
        ScanNoFile(key, priority);
      }
    }

    /** A file is there; its row follows its digest. */
    method ScanFile(key: Key, priority: Priority)
      requires key in folder && key !in writers && !PendingDirectoryMove(jobs, key)
      modifies this`entries, this`bases, this`outside, this`trash, this`jobs, this`counter
      ensures State() == Scanned(old(State()), key, priority)
    {
      hide Rows.Enqueue, Gone, PendingDirectoryMove;
      outside := outside - {key};
      var f := folder[key];
      if key in entries && !entries[key].state.Tombstone? && entries[key].sha == f.sha {
        entries := entries[key := entries[key].(mtime := f.id)];
      } else {
        RecordChange(key, Entry(f.sha, f.id, Dirty), priority);
      }
    }

    method ScanNoFile(key: Key, priority: Priority)
      requires key !in folder && key !in writers && !PendingDirectoryMove(jobs, key)
      modifies this`entries, this`bases, this`outside, this`trash, this`jobs, this`counter
      ensures State() == Scanned(old(State()), key, priority)
    {
      hide Rows.Enqueue, Gone, PendingDirectoryMove;
      outside := outside - {key};
      if key in entries && !entries[key].state.Tombstone? {
        NoteLocalGone(key);
      }
    }

    // ── pull_key ────────────────────────────────────────────────────────────

    predicate Expecting(key: Key, expected: Option<Entry>)
      reads this`entries, this`writers, this`jobs
    {
      Lookup(entries, key) == expected && key !in writers && !PendingPathMove(jobs, key)
    }

    /** The first half of `pull_key`: check, and note what the landing will be compared with. */
    method PullKey()
      requires flight.PullChosen?
      modifies this`flight, this`recheck, this`running, this`jobs
      ensures State() == PullBegin(old(State()))
    {
      hide PendingPathMove, Done, Select;
      var key, expected := flight.key, flight.expected;
      if !Expecting(key, expected) {
        Defer(key);
        Conclude();
      } else if cfg.protected && key in folder {
        flight := Idle;
        Conclude();
      } else {
        flight := Pulling(key, expected, if key in folder then Some(folder[key].id) else None, epoch);
      }
    }

    /** The verified download takes the file's name; entry and base follow. */
    method LandDownload(key: Key, sha: Digest)
      modifies this`flight, this`folder, this`clock, this`outside, this`entries, this`bases, this`trash, this`jobs,
               this`known
      ensures State() == Landed(old(State()), key, sha)
    {
      hide State, Rows.Keep;
      var id := RenamePart(key, sha);
      RecordDownload(key, Entry(sha, id, Clean));
      ForgetJobs(key);
    }

    /** The staging file replaces whatever has the name. */
    method RenamePart(key: Key, sha: Digest) returns (id: nat)
      modifies this`folder, this`clock, this`outside
      ensures id == old(clock) == old(State()).clock
      ensures State() == (var d := old(State());
                          d.(folder := d.folder[key := File(sha, d.clock)], clock := d.clock + 1, outside := d.outside - {key}))
    {
      id := clock;
      folder, clock, outside := folder[key := File(sha, clock)], clock + 1, outside - {key};
    }

    method RecordDownload(key: Key, e: Entry)
      modifies this`entries, this`bases, this`trash, this`known
      ensures State() == (var d := old(State());
                          d.(entries := d.entries[key := e], bases := d.bases[key := e.sha], trash := ClearTrash(d, key), known := d.known + {e.sha}))
    {
      RecordEdit(key, e);
      bases, known := bases[key := e.sha], known + {e.sha};
    }

    method ForgetJobs(key: Key)
      modifies this`jobs, this`flight
      ensures State() == (var d := old(State()); d.(flight := Idle, rows := d.rows.Keep(NotKey(key))))
    {
      hide Select;
      Retain(NotKey(key));
      flight := Idle;
    }

    /** The second half of `pull_key`, with the digest of the downloaded bytes. */
    method LandPull(got: Option<Digest>)
      requires flight.Pulling?
      modifies this
      ensures State() == PullLand(old(State()), got)
    {
      hide PendingPathMove, Settle, Scanned, Landed, Deferred;
      var key := flight.key;
      if got.None? {
        flight := Idle;
      } else if epoch == flight.epoch && (if key in folder then Some(folder[key].id) else None) == flight.stamp
                && Expecting(key, flight.expected) && !(cfg.protected && key in folder) {
        LandDownload(key, got.value);
      } else {
        ScanPath(key, Interactive);
        Defer(key);
      }
      Conclude();
    }

    // ── record_conflict ─────────────────────────────────────────────────────

    method Snapshot(key: Key, entry: Entry)
      requires key in folder
      modifies this`flight, this`kept, this`entries, this`outside
      ensures State() == Snapshotted(old(State()), key, entry)
    {
      var f := folder[key];
      flight, kept := Idle, kept + {f.sha};
      if f.sha != entry.sha {
        entries, outside := entries[key := Entry(f.sha, f.id, Dirty)], outside - {key};
      }
    }

    method PreserveConflict(key: Key, entry: Entry, base: Option<Digest>)
      requires key in folder
      modifies this`flight, this`kept, this`entries, this`outside, this`conflicts, this`jobs, this`counter
      ensures State() == Preserved(old(State()), key, entry, base)
    {
      hide Snapshotted, Rows.Ensure, Select;
      var sha := folder[key].sha;
      assert Snapshotted(State(), key, entry).rows == State().rows && Snapshotted(State(), key, entry).conflicts == State().conflicts by {
        SnapshotLeaves(State(), key, entry);
      }
      Snapshot(key, entry);
      if !(key in conflicts && conflicts[key].localSha == sha && !conflicts[key].uploaded) {
        conflicts := conflicts[key := ConflictRecord(key, sha, false, None)];
        Retain(NotKey(key));
      }
      EnsureJob(ConflictUpload(key, sha, base));
    }

    method KeepConflict()
      requires flight.ConflictChosen?
      modifies this
      ensures State() == RecordConflict(old(State()))
    {
      hide PendingPathMove, Done, Preserved, ResultKey;
      var key := flight.key;
      if key !in folder {
        flight := Idle;
      } else if !Expecting(key, Some(flight.entry)) {
        var local := LocalResultKey(key);
        Defer(local);
      } else {
        PreserveConflict(key, flight.entry, flight.base);
      }
      Conclude();
    }

    // ── run_push ────────────────────────────────────────────────────────────

    /** The row names the snapshot; from here on the hub may have it. */
    method Upload(key: Key, base: Option<Digest>)
      requires key in folder
      modifies this`entries, this`outside, this`marks, this`known, this`flight
      ensures State() == Uploading(old(State()), key, base)
    {
      var f := folder[key];
      entries, outside := entries[key := Entry(f.sha, f.id, Dirty)], outside - {key};
      marks, known := marks[key := f.sha], known + {f.sha};
      flight := Pushing(key, f.sha, base, Waiting);
    }

    /** `run_push` up to the request; snapshot and second look at the row are one step. */
    method PushBegin(key: Key)
      modifies this
      ensures State() == RunPush(old(State()), key)
    {
      hide Done, PendingDirectoryMove, Uploading;
      if key !in entries || !entries[key].state.Dirty? || key in writers || PendingDirectoryMove(jobs, key) {
        Finish();
        return;
      }
      var base := Lookup(bases, key);
      if key !in folder || (cfg.protected && base.Some? && (base.value != entries[key].sha || base.value != folder[key].sha)) {
        Fail();
        return;
      }
      Upload(key, base);
    }

    method RecordPush(key: Key, landed: Key, sha: Digest)
      modifies this`bases, this`entries, this`marks
      ensures State() == Pushed(old(State()), key, landed, sha)
    {
      bases, marks := bases[landed := sha], marks - {key};
      if landed in entries && entries[landed].sha == sha && entries[landed].state.Dirty? && landed !in writers {
        entries := entries[landed := entries[landed].(state := Clean)];
      }
    }

    method PushLand()
      requires flight.Pushing?
      modifies this
      ensures State() == LandPush(old(State()))
    {
      hide Done, Decided, Pushed, ResultKey;
      var key, sha := flight.key, flight.sha;
      var landed := LocalResultKey(key);
      match flight.reply {
        case Waiting =>
        case Accepted =>
          RecordPush(key, landed, sha);
          Finish();
        case Refused(current) =>
          if (cfg.protected && current.Some? && current.value != sha) || landed != key {
            Fail();
          } else {
            ReconcileKey(key, current);
            Conclude();
          }
        case _ => Fail();
      }
    }

    // ── run_delete ──────────────────────────────────────────────────────────

    method DropTombstone(key: Key)
      modifies this`entries
      ensures entries == NoTombstone(old(entries), key)
    {
      if key in entries && entries[key].state.Tombstone? {
        entries := entries - {key};
      }
    }

    method DeleteBegin(key: Key, ifMatch: Option<Digest>)
      modifies this
      ensures State() == RunDelete(old(State()), key, ifMatch)
    {
      hide Done, NoTombstone, ResultKey;
      var local := LocalResultKey(key);
      var expected := if ifMatch.Some? then ifMatch
                      else if local in bases then Some(bases[local])
                      else Lookup(marks, key);
      if expected.None? {
        DropTombstone(local);
        Finish();
      } else {
        flight := Deleting(key, expected.value, ifMatch.Some?, Waiting);
      }
    }

    method RecordDelete(key: Key, local: Key, fixed: bool)
      modifies this`entries, this`bases, this`marks
      ensures State() == DeletedRemotely(old(State()), key, local, fixed)
    {
      hide NoTombstone;
      if !fixed {
        DropTombstone(local);
        bases := bases - {local};
      }
      marks := marks - {key};
    }

    method DeleteLand()
      requires flight.Deleting?
      modifies this
      ensures State() == LandDelete(old(State()))
    {
      hide Done, Decided, DeletedRemotely, ResultKey;
      var key, fixed := flight.key, flight.fixed;
      var local := LocalResultKey(key);
      match flight.reply {
        case Waiting =>
        case Refused(current) =>
          if fixed || local != key {
            Fail();
          } else {
            ReconcileKey(key, current);
            Conclude();
          }
        case TargetTaken => Fail();
        case _ =>
          RecordDelete(key, local, fixed);
          Finish();
      }
    }

    // ── run_rename ──────────────────────────────────────────────────────────

    method RenameBegin(from: Key, to: Key)
      modifies this`flight
      ensures State() == RunRename(old(State()), from, to)
    {
      hide ResultKey;
      var local := LocalResultKey(to);
      flight := Renaming(from, to, if local in bases then Some(bases[local]) else Lookup(marks, from), Waiting);
    }

    /** Our moved bytes are a new file upstream. */
    method PushAsNew(local: Key)
      modifies this`entries, this`bases, this`jobs, this`counter
      ensures State() == PushMoved(old(State()), local)
    {
      hide MarkedDirty, Rows.Ensure;
      bases := bases - {local};
      if local in entries {
        MarkDirty(local);
        EnsureJob(JobKind.Push(local));
      }
    }

    method SourceGone(local: Key)
      modifies this`entries, this`bases, this`jobs, this`counter
      ensures State() == SourceMissing(old(State()), local)
    {
      hide PushMoved;
      if local in folder {
        PushAsNew(local);
      } else {
        entries, bases := entries - {local}, bases - {local};
      }
    }

    method RenameLand()
      requires flight.Renaming?
      modifies this
      ensures State() == LandRename(old(State()))
    {
      hide Done, Decided, SourceMissing, PushMoved, ResultKey;
      var from, to := flight.from, flight.to;
      var local := LocalResultKey(to);
      match flight.reply {
        case Waiting =>
        case Accepted => Finish();
        case Missing =>
          SourceGone(local);
          Finish();
        case TargetTaken => flight := TargetAsked(to, local);
        case Refused(current) =>
          PushAsNew(local);
          ReconcileKey(from, current);
          Conclude();
      }
    }

    method TargetLand(remote: Option<Digest>)
      requires flight.TargetAsked?
      modifies this
      ensures State() == TargetAnswered(old(State()), remote)
    {
      hide Decided, Done, ResultKey;
      var to, localTo := flight.to, flight.localTo;
      var local := LocalResultKey(to);
      if local != to {
        Fail();
        return;
      }
      bases := bases - {localTo};
      ReconcileKey(to, remote);
      Conclude();
    }

    // ── run_conflict ────────────────────────────────────────────────────────

    method ConflictBegin(key: Key, sha: Digest, copy: Key)
      modifies this
      ensures State() == RunConflict(old(State()), key, sha, copy)
    {
      hide Done, ResultKey;
      if sha !in kept && key in folder {
        kept := kept + {folder[key].sha};
      }
      if sha !in kept {
        Finish();
        return;
      }
      var local := LocalResultKey(key);
      var copyNow := LocalResultKey(copy);
      var record := if key in conflicts then conflicts[key] else ConflictRecord(key, sha, false, None);
      conflicts := conflicts[local := record.(key := local, copyKey := Some(copyNow))];
      flight := SendingCopy(key, sha, copy, record, Waiting);
    }

    method RecordCopy(local: Key, copyNow: Key)
      requires flight.SendingCopy? && local == ResultKey(jobs, flight.key) && copyNow == ResultKey(jobs, flight.copy)
      modifies this`conflicts
      ensures State() == CopyRecorded(old(State()))
    {
      hide ResultKey;
      conflicts := conflicts[local := flight.record.(key := local, uploaded := true, copyKey := Some(copyNow))];
    }

    method ConflictLand()
      requires flight.SendingCopy?
      modifies this
      ensures State() == LandCopy(old(State()))
    {
      hide Done, Scanned, ResultKey, CopyRecorded;
      var key, sha := flight.key, flight.sha;
      match flight.reply {
        case Waiting =>
        case Accepted =>
          assert CopyRecorded(State()) == State().(conflicts := CopyRecorded(State()).conflicts) by { CopyLeaves(State()); }
          var local := LocalResultKey(key);
          var copyNow := LocalResultKey(flight.copy);
          RecordCopy(local, copyNow);
          if local != key {
            Finish();
          } else if (key in folder ==> folder[key].sha == sha) && key !in writers {
            flight := CopySent(key, Lookup(entries, key));
          } else {
            ScanPath(key, Interactive);
            Defer(key);
            Finish();
          }
        case _ => Fail();
      }
    }

    method CopyLand(remote: Option<Digest>)
      requires flight.CopySent?
      modifies this
      ensures State() == CopyAnswered(old(State()), remote)
    {
      hide Done, ToPush;
      var key := flight.key;
      if remote.Some? {
        flight := PullChosen(key, flight.expected);
      } else {
        PushChange(key, None);
        Finish();
      }
    }

    // ── the process ─────────────────────────────────────────────────────────

    /** A new process on the same ledger and folder. */
    method Open()
      modifies this`flight, this`running, this`recheck, this`epoch, this`writers, this`unsaved, this`outside
      ensures State() == Restarted(old(State()))
    {
      hide State;
      ForgetWork();
      ForgetHandles();
    }

    method ForgetWork()
      modifies this`flight, this`running, this`recheck, this`epoch
      ensures State() == old(State()).(flight := Idle, running := None, recheck := {}, epoch := 0)
    {
      flight, running, recheck, epoch := Idle, None, {}, 0;
    }

    /** What handles had written is in the folder, and nobody has looked at it. */
    method ForgetHandles()
      modifies this`writers, this`unsaved, this`outside
      ensures State() == (var d := old(State()); d.(writers := {}, unsaved := {}, outside := d.outside + d.unsaved))
    {
      writers, unsaved, outside := {}, {}, outside + unsaved;
    }

    /** `housekeeping`, with the trash and the snapshots that are past their time. */
    method Housekeeping(keys: set<Key>, snapshots: set<Digest>)
      modifies this`trash, this`kept
      ensures State() == Expired(old(State()), keys, snapshots)
    {
      trash, kept := trash - keys, kept - snapshots;
    }

    /** The snapshots that conflict records need. */
    function Referenced(): (r: set<Digest>)
      reads this`conflicts
      ensures forall k <- conflicts :: conflicts[k].localSha in r
    {
      set k | k in conflicts :: conflicts[k].localSha
    }

    // ── one row of the queue ────────────────────────────────────────────────

    /** `recover_jobs` for one row. */
    method RecoverJob(key: Key)
      modifies this`jobs, this`counter
      ensures State() == Recovered(old(State()), key)
    {
      hide Rows.Enqueue, Rows.Has, JobKind.DedupeId;
      if key in entries && !entries[key].state.Clean?
         && !(entries[key].state.Dirty? && key in conflicts && !conflicts[key].uploaded) {
        var kind := if entries[key].state.Dirty? then JobKind.Push(key) else JobKind.Delete(key, None);
        var has := HasJob(kind.DedupeId());
        if !has {
          Enqueue(kind, Discovered);
        }
      }
    }

    /** `run_job`, up to the request. Under protection only an upload may go out. */
    method StartJob(job: Job, copy: Key)
      modifies this
      ensures State() == RunJob(old(State()), job, copy)
    {
      hide RunPush, RunDelete, RunRename, RunConflict;
      if job.kind.RenameDir? || job.kind.Mkdir? || job.kind.Rmdir? || (cfg.protected && !job.kind.Push?) {
        return;
      }
      running := Some(job.seqNo);
      assert State() == old(State()).(running := running);
      hide State;
      match job.kind {
        case Push(key) => PushBegin(key);
        case Delete(key, ifMatch) => DeleteBegin(key, ifMatch);
        case Rename(from, to) => RenameBegin(from, to);
        case ConflictUpload(key, sha, _) => ConflictBegin(key, sha, copy);
      }
    }

    /** The answer to the request has arrived. */
    method TakeReply(reply: Reply)
      requires SyncRuns.Asking(flight)
      modifies this`flight
      ensures State() == old(State()).(flight := SyncRuns.Replied(old(flight), reply))
    {
      flight := SyncRuns.Replied(flight, reply);
    }

    /** What a request's answer leads to. */
    method LandRequest()
      requires SyncRuns.Asking(flight)
      modifies this
      ensures State() == SyncRuns.Landing(old(State()))
    {
      hide LandPush, LandDelete, LandRename, LandCopy;
      assert State().flight == flight;
      hide State;
      match flight {
        case Pushing(_, _, _, _) => PushLand();
        case Deleting(_, _, _, _) => DeleteLand();
        case Renaming(_, _, _, _) => RenameLand();
        case SendingCopy(_, _, _, _, _) => ConflictLand();
      }
    }

    // ── apply_remote_rename ─────────────────────────────────────────────────

    method Forget(key: Key)
      modifies this`entries, this`bases
      ensures State() == Forgotten(old(State()), key)
    {
      entries, bases := entries - {key}, bases - {key};
    }

    method KeepAsNew(from: Key)
      requires from in entries
      modifies this`bases, this`jobs, this`counter
      ensures State() == NotFollowed(old(State()), from)
    {
      hide Rows.Enqueue;
      bases := bases - {from};
      if entries[from].state.Dirty? {
        Enqueue(JobKind.Push(from), Interactive);
      }
    }

    method MoveByHub(from: Key, to: Key)
      requires from in folder && from != to
      modifies this`folder, this`unsaved, this`outside, this`entries, this`bases
      ensures State() == MovedByHub(old(State()), from, to)
    {
      hide MovedRow, MovedMember;
      MoveFile(from, to);
      RekeyRows(from, to);
    }

    method RemoveFile(key: Key)
      modifies this`folder, this`unsaved, this`outside
      ensures State() == RemovedLocally(old(State()), key)
    {
      folder, unsaved, outside := folder - {key}, unsaved - {key}, outside - {key};
    }

    method FollowRename(from: Key, to: Key)
      modifies this
      ensures State() == ApplyRemoteRename(old(State()), from, to)
    {
      hide PendingDirectoryMove, NotFollowed, Forgotten, RemovedLocally, MovedByHub;
      if cfg.protected && (from in folder || from in entries) {
        return;
      }
      if PendingDirectoryMove(jobs, from) || PendingDirectoryMove(jobs, to) || from !in entries {
        return;
      }
      var clean := entries[from].state.Clean? && Lookup(bases, from) == Some(entries[from].sha);
      if !clean || from in writers {
        KeepAsNew(from);
      } else if to in entries {
        RemoveFile(from);
        Forget(from);
      } else if from !in folder {
        Forget(from);
      } else {
        MoveByHub(from, to);
      }
    }
  }

  lemma {:induction false} SnapshotLeaves(d: Replica, key: Key, entry: Entry)
    requires key in d.folder
    ensures Snapshotted(d, key, entry).rows == d.rows && Snapshotted(d, key, entry).conflicts == d.conflicts
  {
  }

  lemma {:induction false} CopyLeaves(d: Replica)
    requires d.flight.SendingCopy?
    ensures CopyRecorded(d) == d.(conflicts := CopyRecorded(d).conflicts)
  {
    hide ResultKey;
  }
}
