/** No step of the engine destroys bytes that are not safe somewhere else. */
module SyncSafety {
  import opened Options
  import opened Keys
  import opened Reconcile
  import opened Jobs
  import opened Tables
  import opened Replicas
  import opened SyncSteps
  import opened SyncInvariant

  /** Where the bytes of a file of `d` are after a step to `e`: still in the folder, under this
      or another name; in the trash; agreed with the hub or in the conflict store already. Bytes
      changed around the mount and not scanned yet are not the engine's to know. */
  ghost predicate BytesSurvive(d: Replica, e: Replica, k: Key)
    requires k in d.folder
  {
    || (exists j <- e.folder :: e.folder[j] == d.folder[k])
    || Lookup(e.trash, k) == Some(d.folder[k].sha)
    || k in d.outside
    || Covered(d.bases, d.kept, k, d.folder[k].sha)
  }

  ghost predicate KeepsBytes(d: Replica, e: Replica) {
    forall k <- d.folder :: BytesSurvive(d, e, k)
  }

  lemma {:induction false} SameFolderKeeps(d: Replica, e: Replica)
    requires e.folder == d.folder
    ensures KeepsBytes(d, e)
  {
  }

  // ── the end of a job ──────────────────────────────────────────────────────

  lemma {:induction false} DoneInv(d: Replica)
    requires Consistent(d)
    ensures Inv(Done(d)) && Inv(Failed(d)) && Done(d).folder == d.folder
  {
    if d.running.Some? {
      KeepOk(d.rows, NotNumber(d.running.value), d.known);
    }
    hide Truthful, Accounted, RowsOk, Seen, Rows.Keep;
  }

  lemma {:induction false} SettleInv(d: Replica)
    requires Inv(d)
    ensures Inv(Settle(d)) && Settle(d).folder == d.folder && Settle(d).trash == d.trash
  {
    DoneInv(d);
    hide Inv;
  }

  lemma {:induction false} IdleInv(d: Replica)
    requires Consistent(d) && d.flight.Idle?
    ensures Inv(d)
  {
  }

  lemma {:induction false} DeferredConsistent(d: Replica, key: Key)
    requires Consistent(d)
    ensures Consistent(Deferred(d, key)) && Consistent(d.(flight := Idle))
  {
    hide Truthful, Accounted, RowsOk, Seen;
  }

  // ── looking at the folder ─────────────────────────────────────────────────

  lemma {:induction false} ScannedRow(d: Replica, key: Key, e: Entry)
    requires Sound(d) && key in d.folder && e.mtime == d.folder[key].id && Describes(e, d.folder[key])
    ensures Sound(d.(entries := d.entries[key := e], outside := d.outside - {key}))
  {
    var apart := d.unsaved + d.outside;
    RowDescribes(d.folder, d.entries, d.clock, apart, key, e);
    WiderApart(d.folder, d.entries[key := e], apart - {key}, d.unsaved + (d.outside - {key}));
  }

  lemma {:induction false} NothingOutside(d: Replica, key: Key)
    requires Sound(d) && key !in d.folder
    ensures Sound(d.(outside := d.outside - {key}))
  {
  }

  lemma {:induction false} SoundOnly(d: Replica, e: Replica)
    requires Sound(e) && e.folder == d.folder && e.entries == d.entries && e.clock == d.clock
    requires e.unsaved == d.unsaved && e.outside == d.outside && e.writers == d.writers
    ensures Sound(d)
  {
    hide Truthful, Accounted;
  }

  lemma {:induction false} ScannedConsistent(d: Replica, key: Key, priority: Priority)
    requires Consistent(d)
    ensures var e := Scanned(d, key, priority); Consistent(e) && e.folder == d.folder && e.flight == d.flight
  {
    EnqueueOk(d.rows, JobKind.Push(key), priority, d.known);
    hide Sound, RowsOk, Seen, Rows.Enqueue, Gone, PendingDirectoryMove, Describes;
    var s := d.(outside := d.outside - {key});
    if PendingDirectoryMove(d.rows.jobs, key) || key in d.writers {
    } else if key in d.folder {
      var f := d.folder[key];
      FreshRowDescribes(d, key);
      ScannedRow(d, key, Entry(f.sha, f.id, Dirty));
      if LiveSha(d, key) == Some(f.sha) {
        ScannedRow(d, key, d.entries[key].(mtime := f.id));
      } else {
        var n := d.entries[key := Entry(f.sha, f.id, Dirty)];
        SoundOnly(Scanned(d, key, priority), s.(entries := n));
      }
    } else {
      NothingOutside(d, key);
      GoneConsistent(s, key);
    }
  }

  lemma {:induction false} FreshRowDescribes(d: Replica, key: Key)
    requires key in d.folder
    ensures Describes(Entry(d.folder[key].sha, d.folder[key].id, Dirty), d.folder[key])
    ensures LiveSha(d, key) == Some(d.folder[key].sha) ==> Describes(d.entries[key].(mtime := d.folder[key].id), d.folder[key])
  {
  }

  lemma {:induction false} RecoveredInv(d: Replica, key: Key)
    requires Inv(d)
    ensures Inv(Recovered(d, key)) && Recovered(d, key).folder == d.folder
  {
    EnqueueOk(d.rows, JobKind.Push(key), Discovered, d.known);
    EnqueueOk(d.rows, JobKind.Delete(key, None), Discovered, d.known);
    hide Truthful, Accounted, RowsOk, Seen, Captured, Rows.Enqueue, Rows.Has;
  }

  // ── reconcile_key ─────────────────────────────────────────────────────────

  /** The one decision that can put an unseen digest into the base ledger: both sides are gone,
      and the tombstone that stands for ours names bytes that never reached the hub. */
  predicate AdoptsUnseen(d: Replica, key: Key, remote: Option<Digest>) {
    && key != "" && !PendingDirectoryMove(d.rows.jobs, key)
    && key !in d.writers && !PendingRename(d.rows.jobs, key)
    && remote.None? && key in d.bases
    && key in d.entries && d.entries[key].state.Tombstone? && d.entries[key].sha !in d.known
  }

  /** Such a decision does put it there. */
  lemma {:induction false} AdoptionIsUnseen(d: Replica, key: Key)
    requires AdoptsUnseen(d, key, None)
    ensures var e := Decided(d, key, None);
            && e.flight.Idle? && key in e.bases && e.bases[key] !in e.known && !Seen(e.bases, e.marks, e.known)
  {
    hide Rows.Keep, PendingDirectoryMove, PendingRename;
    assert Decide(LiveSha(d, key), Lookup(d.bases, key), None) == Adopt;
    var e := Decided(d, key, None);
    assert e.bases[key] == d.entries[key].sha && e.known == d.known;
    hide Decided;
    assert !ValuesSeen(e.bases, e.known);
  }

  lemma {:induction false} ToPushConsistent(d: Replica, key: Key, ifMatch: Option<Digest>)
    requires Consistent(d)
    ensures var e := ToPush(d, key, ifMatch); Consistent(e) && e.flight == d.flight && e.folder == d.folder
  {
    EnsureOk(d.rows, JobKind.Push(key), d.known);
    hide Truthful, Accounted, RowsOk, Seen, Rows.Ensure;
    SeenWithout(d.bases, d.marks, d.known, key);
    if key in d.entries {
      RowMarked(d.folder, d.entries, d.clock, d.unsaved + d.outside, key, Dirty);
    }
  }

  lemma {:induction false} ApartUnlessLive(d: Replica, key: Key)
    requires Consistent(d) && LiveSha(d, key).None?
    ensures key in d.folder ==> key in d.unsaved + d.outside
  {
    hide Truthful, Accounted;
    NotLiveMeansApart(d.folder, d.entries, d.clock, d.unsaved + d.outside, key);
  }

  lemma {:induction false} ToDeleteConsistent(d: Replica, key: Key)
    requires Consistent(d) && LiveSha(d, key).None?
    ensures var e := ToDelete(d, key); Consistent(e) && e.flight == d.flight && e.folder == d.folder
  {
    EnsureOk(d.rows, JobKind.Delete(key, None), d.known);
    hide Truthful, Accounted, RowsOk, Seen, Rows.Ensure, LiveSha;
    if !d.cfg.propagate {
      ApartUnlessLive(d, key);
      RowGone(d.folder, d.entries, d.clock, d.unsaved + d.outside, key);
      SeenWithout(d.bases, d.marks, d.known, key);
    }
  }

  lemma {:induction false} RemovedSound(d: Replica, key: Key)
    requires Sound(d)
    ensures Sound(RemovedLocally(d, key))
  {
    var apart := d.unsaved + d.outside;
    FileGone(d.folder, d.entries, d.clock, apart, key);
    assert apart - {key} == (d.unsaved - {key}) + (d.outside - {key});
    hide Truthful, Accounted;
  }

  lemma {:induction false} TrashedConsistent(d: Replica, key: Key)
    requires Consistent(d)
    ensures var e := Trashed(d, key); Consistent(e) && e.flight == d.flight && KeepsBytes(d, e)
  {
    KeepOk(d.rows, NotKey(key), d.known);
    assert KeepsBytes(d, Trashed(d, key)) by {
      assert forall k <- d.folder :: k != key ==> k in Trashed(d, key).folder;
    }
    RemovedSound(d, key);
    hide Truthful, Accounted, RowsOk, Seen, Rows.Keep, KeepsBytes;
    var r := RemovedLocally(d, key);
    RowGone(r.folder, r.entries, r.clock, r.unsaved + r.outside, key);
    SeenWithout(d.bases, d.marks, d.known, key);
  }

  lemma {:induction false} AdoptedConsistent(d: Replica, key: Key)
    requires Consistent(d)
    requires key in d.entries && d.entries[key].state.Tombstone? ==> d.entries[key].sha in d.known
    requires key in d.entries && !d.entries[key].state.Tombstone? ==> d.entries[key].sha != ""
    ensures var e := Adopted(d, key); Consistent(e) && e.flight == d.flight && e.folder == d.folder
  {
    KeepOk(d.rows, NotKey(key), d.known);
    if key in d.entries {
      var e := d.entries[key];
      MoreSeen(d.rows.Keep(NotKey(key)), d.known, d.known + {e.sha});
      assert "" !in d.known && e.sha != "";
      SeenWith(d.bases, d.marks, d.known, key, e.sha);
      hide Truthful, Accounted, RowsOk, Seen, Rows.Keep;
      RowMarked(d.folder, d.entries, d.clock, d.unsaved + d.outside, key, Clean);
    } else {
      hide Truthful, Accounted, RowsOk, Seen, Rows.Keep;
      SeenWithout(d.bases, d.marks, d.known, key);
    }
  }

  /** A pull is only chosen over a version the hub has had, or over nothing. */
  lemma {:induction false} DecisionCaptures(d: Replica, key: Key)
    requires Consistent(d) && (LiveSha(d, key) == Lookup(d.bases, key) || LiveSha(d, key).None?)
    ensures Captured(d.folder, d.bases, d.kept, d.clock, Lookup(d.entries, key))
  {
    assert key in d.bases ==> d.bases[key] != "";
    hide Accounted, RowsOk;
  }

  lemma {:induction false} ActedInv(d: Replica, key: Key, remote: Option<Digest>)
    requires Consistent(d) && d.flight.Idle? && (remote.Some? ==> remote.value != "")
    requires key in d.bases && remote.None? && key in d.entries && d.entries[key].state.Tombstone? ==> d.entries[key].sha in d.known
    ensures var e := Acted(d, key, Decide(LiveSha(d, key), Lookup(d.bases, key), remote));
            Inv(e) && KeepsBytes(d, e)
  {
    var a := Decide(LiveSha(d, key), Lookup(d.bases, key), remote);
    var e := Acted(d, key, a);
    DecideByOutcome(LiveSha(d, key), Lookup(d.bases, key), remote);
    hide Consistent, KeepsBytes, Captured, ToPush, ToDelete, Trashed, Adopted, Decide;
    if a.Pull? || a.Conflict? || a.Nothing? {
      FlightOnly(d, e);
      SameFolderKeeps(d, e);
      if a.Pull? {
        DecisionCaptures(d, key);
      } else {
        NothingCaptured(d);
      }
    } else {
      match a {
        case Push(ifMatch) => ToPushConsistent(d, key, ifMatch);
        case DeleteRemote(_) => ToDeleteConsistent(d, key);
        case TrashLocal => TrashedConsistent(d, key);
        case Adopt => AdoptedConsistent(d, key);
      }
      IdleInv(e);
      if !a.TrashLocal? {
        SameFolderKeeps(d, e);
      }
    }
  }

  lemma {:induction false} NothingCaptured(d: Replica)
    ensures Captured(d.folder, d.bases, d.kept, d.clock, None)
  {
  }

  /** The flight is not part of what is consistent. */
  lemma {:induction false} FlightOnly(d: Replica, e: Replica)
    requires Consistent(d) && e == d.(flight := e.flight)
    ensures Consistent(e)
  {
    hide Truthful, Accounted, RowsOk, Seen;
  }

  lemma {:induction false} KeepsFrom(d: Replica, i: Replica, e: Replica)
    requires KeepsBytes(i, e) && i == d.(flight := i.flight)
    ensures KeepsBytes(d, e)
  {
    forall k | k in d.folder ensures BytesSurvive(d, e, k) {
      assert BytesSurvive(i, e, k);
    }
  }

  lemma {:induction false} DecidedInv(d: Replica, key: Key, remote: Option<Digest>)
    requires Consistent(d) && (remote.Some? ==> remote.value != "") && !AdoptsUnseen(d, key, remote)
    ensures Inv(Decided(d, key, remote)) && KeepsBytes(d, Decided(d, key, remote))
  {
    var i := d.(flight := Idle);
    hide Consistent, Inv, KeepsBytes, Acted, Decide, PendingDirectoryMove, PendingRename, Blocked;
    DeferredConsistent(d, key);
    IdleInv(i);
    IdleInv(Deferred(d, key));
    SameFolderKeeps(d, i);
    SameFolderKeeps(d, Deferred(d, key));
    if key != "" && !PendingDirectoryMove(d.rows.jobs, key) && key !in d.writers && !PendingRename(d.rows.jobs, key) {
      ActedInv(i, key, remote);
      KeepsFrom(d, i, Acted(i, key, Decide(LiveSha(d, key), Lookup(d.bases, key), remote)));
    }
  }
}
