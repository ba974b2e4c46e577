/** Requests and their landings keep the invariant, and the bytes. */
module SyncLandings {
  import opened Options
  import opened Keys
  import opened Reconcile
  import opened Jobs
  import opened Tables
  import opened Replicas
  import opened SyncSteps
  import opened SyncInvariant
  import opened SyncSafety

  lemma {:induction false} SettleKeeps(d: Replica, e: Replica)
    requires Inv(e) && KeepsBytes(d, e)
    ensures Inv(Settle(e)) && KeepsBytes(d, Settle(e))
  {
    SettleInv(e);
    var r := Settle(e);
    hide Inv, Settle;
    forall k | k in d.folder ensures BytesSurvive(d, r, k) {
      assert BytesSurvive(d, e, k);
    }
  }

  lemma {:induction false} IdleKeeps(d: Replica, e: Replica)
    requires Consistent(e) && e.flight.Idle? && e.folder == d.folder
    ensures Inv(e) && KeepsBytes(d, e)
  {
    hide Consistent;
    IdleInv(e);
    SameFolderKeeps(d, e);
  }

  lemma {:induction false} InvGives(d: Replica)
    requires Inv(d)
    ensures Consistent(d) && FlightSeen(d.flight, d.kept, d.known)
  {
  }

  /** A request about to be sent, and nothing else. */
  lemma {:induction false} FlightInv(d: Replica, f: Flight)
    requires Consistent(d) && FlightSeen(f, d.kept, d.known)
    requires Captured(d.folder, d.bases, d.kept, d.clock, Expected(f))
    ensures Inv(d.(flight := f)) && KeepsBytes(d, d.(flight := f))
  {
    hide KeepsBytes, Captured, Sound, RowsOk, Seen;
    SoundOnly(d.(flight := f), d);
    SameFolderKeeps(d, d.(flight := f));
  }

  // ── pull_key ──────────────────────────────────────────────────────────────

  lemma {:induction false} PullBeginInv(d: Replica)
    requires Inv(d) && d.flight.PullChosen?
    ensures Inv(PullBegin(d)) && KeepsBytes(d, PullBegin(d))
  {
    hide Inv, Consistent, KeepsBytes, Captured, StillExpected, MayLand, Settle, Stamp;
    var key := d.flight.key;
    var sent := d.(flight := Pulling(key, d.flight.expected, Stamp(d, key), d.epoch));
    if !StillExpected(d, key, d.flight.expected) {
      InvGives(d);
      DeferredConsistent(d, key);
      IdleKeeps(d, Deferred(d, key));
      SettleKeeps(d, Deferred(d, key));
    } else if !MayLand(d, key) {
      GivenUpInv(d);
    } else {
      SendingInv(d, sent);
      SameFolderKeeps(d, sent);
    }
  }

  lemma {:induction false} GivenUpInv(d: Replica)
    requires Inv(d)
    ensures var e := Settle(d.(flight := Idle)); Inv(e) && KeepsBytes(d, e)
  {
    hide KeepsBytes, Captured, Truthful, Accounted, RowsOk, Seen, Settle;
    IdleKeeps(d, d.(flight := Idle));
    SettleKeeps(d, d.(flight := Idle));
  }

  lemma {:induction false} SendingInv(d: Replica, e: Replica)
    requires Inv(d) && d.flight.PullChosen? && e.flight.Pulling? && e == d.(flight := e.flight) && e.flight.expected == d.flight.expected
    ensures Inv(e)
  {
    hide Consistent, Captured;
    FlightOnly(d, e);
  }

  lemma {:induction false} LandedConsistent(d: Replica, key: Key, sha: Digest)
    requires Consistent(d) && key !in d.writers && sha != ""
    ensures Consistent(Landed(d, key, sha))
  {
    var apart := d.unsaved + d.outside;
    var folder := d.folder[key := File(sha, d.clock)];
    var entry := Entry(sha, d.clock, Clean);
    KeepOk(d.rows, NotKey(key), d.known);
    MoreSeen(d.rows.Keep(NotKey(key)), d.known, d.known + {sha});
    assert key !in d.unsaved && Describes(entry, folder[key]);
    hide Truthful, Accounted, RowsOk, Seen, Rows.Keep, Describes;
    SeenWith(d.bases, d.marks, d.known, key, sha);
    NewVersion(d.folder, d.entries, d.clock, apart, key, sha);
    RowDescribes(folder, d.entries, d.clock + 1, apart + {key}, key, entry);
    WiderApart(folder, d.entries[key := entry], (apart + {key}) - {key}, d.unsaved + (d.outside - {key}));
  }

  /** The heart of it: when the landing is allowed, what it replaces is the version the pull was
      decided against, and that version is covered. */
  lemma {:induction false} LandingKeeps(d: Replica, sha: Digest)
    requires Inv(d) && d.flight.Pulling? && LandingAllowed(d)
    ensures KeepsBytes(d, Landed(d, d.flight.key, sha))
  {
    var key := d.flight.key;
    var e := Landed(d, key, sha);
    hide RowsOk, Seen, PendingPathMove;
    forall k | k in d.folder ensures BytesSurvive(d, e, k) {
      if k != key {
        assert e.folder[k] == d.folder[k];
      } else if k !in d.outside {
        assert d.entries[key].mtime == d.folder[key].id;
      }
    }
  }

  lemma {:induction false} PullLandInv(d: Replica, got: Option<Digest>)
    requires Inv(d) && d.flight.Pulling? && (got.Some? ==> got.value != "")
    ensures Inv(PullLand(d, got)) && KeepsBytes(d, PullLand(d, got))
  {
    var key := d.flight.key;
    DeferredConsistent(d, key);
    IdleKeeps(d, d.(flight := Idle));
    SettleKeeps(d, d.(flight := Idle));
    if got.Some? {
      if LandingAllowed(d) {
        LandingKeeps(d, got.value);
        LandedConsistent(d, key, got.value);
        IdleInv(Landed(d, key, got.value));
        SettleKeeps(d, Landed(d, key, got.value));
      } else {
        RescanInv(d, d, key);
      }
    }
    hide Inv, Consistent, KeepsBytes, LandingAllowed, Landed, Settle, Scanned;
  }

  lemma {:induction false} RescanInv(d: Replica, c: Replica, key: Key)
    requires Consistent(c) && c.folder == d.folder
    ensures var e := Deferred(Scanned(c, key, Interactive), key); Inv(Settle(e)) && KeepsBytes(d, Settle(e)) && Consistent(e) && e.folder == d.folder
  {
    ScannedConsistent(c, key, Interactive);
    var s := Scanned(c, key, Interactive);
    hide Consistent, KeepsBytes, Scanned, Settle;
    DeferredConsistent(s, key);
    IdleKeeps(d, Deferred(s, key));
    SettleKeeps(d, Deferred(s, key));
  }

  // ── record_conflict ───────────────────────────────────────────────────────

  lemma {:induction false} SnapshottedConsistent(d: Replica, key: Key, entry: Entry)
    requires Consistent(d) && key in d.folder
    ensures var e := Snapshotted(d, key, entry);
            && Consistent(e) && e.folder == d.folder && e.flight.Idle? && e.known == d.known && e.rows == d.rows
  {
    var f, e := d.folder[key], Snapshotted(d, key, entry);
    FreshRowDescribes(d, key);
    hide Sound, RowsOk, Seen, Describes;
    ScannedRow(d, key, Entry(f.sha, f.id, Dirty));
    if f.sha == entry.sha {
      SoundOnly(e, d);
    } else {
      SoundOnly(e, d.(entries := d.entries[key := Entry(f.sha, f.id, Dirty)], outside := d.outside - {key}));
    }
  }

  lemma {:induction false} PreservedConsistent(d: Replica, key: Key, entry: Entry, base: Option<Digest>)
    requires Consistent(d) && key in d.folder
    ensures var e := Preserved(d, key, entry, base); Consistent(e) && e.folder == d.folder && e.flight.Idle?
  {
    var upload := ConflictUpload(key, d.folder[key].sha, base);
    KeepOk(d.rows, NotKey(key), d.known);
    EnsureOk(d.rows, upload, d.known);
    EnsureOk(d.rows.Keep(NotKey(key)), upload, d.known);
    SnapshottedConsistent(d, key, entry);
    hide Sound, RowsOk, Seen, Snapshotted, Rows.Keep, Rows.Ensure;
    SoundOnly(Preserved(d, key, entry, base), Snapshotted(d, key, entry));
  }

  lemma {:induction false} RecordConflictInv(d: Replica)
    requires Inv(d) && d.flight.ConflictChosen?
    ensures Inv(RecordConflict(d)) && KeepsBytes(d, RecordConflict(d))
  {
    var key := d.flight.key;
    hide Consistent, KeepsBytes, Captured, StillExpected, Settle, Preserved, ResultKey;
    DeferredConsistent(d, key);
    IdleKeeps(d, d.(flight := Idle));
    SettleKeeps(d, d.(flight := Idle));
    var r := ResultKey(d.rows.jobs, key);
    DeferredConsistent(d, r);
    IdleKeeps(d, Deferred(d, r));
    SettleKeeps(d, Deferred(d, r));
    if key in d.folder {
      PreservedConsistent(d, key, d.flight.entry, d.flight.base);
      IdleKeeps(d, Preserved(d, key, d.flight.entry, d.flight.base));
      SettleKeeps(d, Preserved(d, key, d.flight.entry, d.flight.base));
    }
  }

  // ── run_push ──────────────────────────────────────────────────────────────

  lemma {:induction false} DoneKeeps(d: Replica, e: Replica)
    requires Consistent(e) && e.folder == d.folder
    ensures Inv(Done(e)) && KeepsBytes(d, Done(e)) && Inv(Failed(e)) && KeepsBytes(d, Failed(e))
  {
    DoneInv(e);
    hide Consistent, Inv;
    SameFolderKeeps(d, Done(e));
    SameFolderKeeps(d, Failed(e));
  }

  lemma {:induction false} PushingInv(d: Replica, key: Key)
    requires Consistent(d) && key in d.folder
    ensures Inv(Uploading(d, key, Lookup(d.bases, key)))
  {
    var f := d.folder[key];
    var e := Uploading(d, key, Lookup(d.bases, key));
    assert f.sha != "";
    assert key in d.bases ==> d.bases[key] in d.known;
    MoreSeen(d.rows, d.known, d.known + {f.sha});
    SeenWith(d.bases, d.marks, d.known, key, f.sha);
    FreshRowDescribes(d, key);
    hide Sound, RowsOk, Seen, Describes;
    ScannedRow(d, key, Entry(f.sha, f.id, Dirty));
    SoundOnly(e, d.(entries := d.entries[key := Entry(f.sha, f.id, Dirty)], outside := d.outside - {key}));
  }

  lemma {:induction false} RunPushInv(d: Replica, key: Key)
    requires Consistent(d) && d.flight.Idle?
    ensures Inv(RunPush(d, key)) && KeepsBytes(d, RunPush(d, key))
  {
    DoneKeeps(d, d);
    var e := RunPush(d, key);
    if e.flight.Pushing? && key in d.folder {
      PushingInv(d, key);
      SameFolderKeeps(d, e);
    }
    hide Consistent, Inv, KeepsBytes, Done, Failed, PendingDirectoryMove;
  }

  lemma {:induction false} PushedConsistent(d: Replica, key: Key, landed: Key, sha: Digest)
    requires Consistent(d) && sha in d.known
    ensures Consistent(Pushed(d, key, landed, sha))
  {
    assert sha != "";
    hide Truthful, Accounted, RowsOk, Seen;
    SeenWith(d.bases, d.marks, d.known, landed, sha);
    SeenWithout(d.bases[landed := sha], d.marks, d.known, key);
    if landed in d.entries && d.entries[landed].sha == sha {
      RowMarked(d.folder, d.entries, d.clock, d.unsaved + d.outside, landed, Clean);
    }
  }

  /** The key and the hub version a refused push or delete decides on. */
  predicate RefusalAdoptsUnseen(d: Replica, key: Key, r: Reply) {
    r.Refused? && AdoptsUnseen(d, key, r.current)
  }

  lemma {:induction false} SettledDecision(d: Replica, q: Replica, key: Key, remote: Option<Digest>)
    requires Consistent(q) && (remote.Some? ==> remote.value != "") && !AdoptsUnseen(q, key, remote)
    requires q.folder == d.folder && q.outside == d.outside && q.kept == d.kept
    requires forall k <- q.bases :: k in d.bases && q.bases[k] == d.bases[k]
    ensures Inv(Settle(Decided(q, key, remote))) && KeepsBytes(d, Settle(Decided(q, key, remote)))
  {
    DecidedInv(q, key, remote);
    var e := Decided(q, key, remote);
    hide Inv, Consistent, Decided, Settle, AdoptsUnseen;
    forall k | k in d.folder ensures BytesSurvive(d, e, k) {
      assert BytesSurvive(q, e, k);
    }
    SettleKeeps(d, e);
  }

  lemma {:induction false} LandPushInv(d: Replica)
    requires Inv(d) && d.flight.Pushing?
    requires ResultKey(d.rows.jobs, d.flight.key) == d.flight.key ==> !RefusalAdoptsUnseen(d, d.flight.key, d.flight.reply)
    ensures Inv(LandPush(d)) && KeepsBytes(d, LandPush(d))
  {
    InvGives(d);
    var landed := ResultKey(d.rows.jobs, d.flight.key);
    var p := Pushed(d, d.flight.key, landed, d.flight.sha);
    assert p.folder == d.folder;
    hide Inv, Consistent, KeepsBytes, Settle, Decided, Done, Failed, ResultKey, AdoptsUnseen, Pushed;
    match d.flight.reply {
      case Waiting => SameFolderKeeps(d, d);
      case Accepted =>
        PushedConsistent(d, d.flight.key, landed, d.flight.sha);
        DoneKeeps(d, p);
      case Refused(current) =>
        DoneKeeps(d, d);
        if landed == d.flight.key {
          SettledDecision(d, d, d.flight.key, current);
        }
      case _ => DoneKeeps(d, d);
    }
  }

  // ── run_delete ────────────────────────────────────────────────────────────

  lemma {:induction false} NoTombstoneConsistent(d: Replica, key: Key)
    requires Consistent(d)
    ensures Consistent(d.(entries := NoTombstone(d.entries, key)))
  {
    if key in d.entries && d.entries[key].state.Tombstone? {
      ApartUnlessLive(d, key);
      hide Truthful, Accounted, RowsOk, Seen;
      RowGone(d.folder, d.entries, d.clock, d.unsaved + d.outside, key);
    } else {
      assert d.(entries := NoTombstone(d.entries, key)) == d;
    }
  }

  lemma {:induction false} DeleteMatchSeen(d: Replica, key: Key, ifMatch: Option<Digest>)
    requires Consistent(d) && (ifMatch.Some? ==> ifMatch.value in d.known)
    ensures DeleteMatch(d, key, ifMatch).Some? ==> DeleteMatch(d, key, ifMatch).value in d.known
  {
    hide Sound, RowsOk, ResultKey;
  }

  lemma {:induction false} RunDeleteInv(d: Replica, key: Key, ifMatch: Option<Digest>)
    requires Consistent(d) && d.flight.Idle? && (ifMatch.Some? ==> ifMatch.value in d.known)
    ensures Inv(RunDelete(d, key, ifMatch)) && KeepsBytes(d, RunDelete(d, key, ifMatch))
  {
    hide Consistent, KeepsBytes, Done, DeleteMatch, ResultKey, NoTombstone;
    if DeleteMatch(d, key, ifMatch).Some? {
      var e := RunDelete(d, key, ifMatch);
      DeleteMatchSeen(d, key, ifMatch);
      FlightOnly(d, d.(flight := e.flight));
      NothingCaptured(d);
      SameFolderKeeps(d, e);
    } else {
      var local := ResultKey(d.rows.jobs, key);
      NoTombstoneConsistent(d, local);
      DoneKeeps(d, d.(entries := NoTombstone(d.entries, local)));
    }
  }

  lemma {:induction false} DeletedRemotelyConsistent(d: Replica, key: Key, local: Key, fixed: bool)
    requires Consistent(d)
    ensures var e := DeletedRemotely(d, key, local, fixed); Consistent(e) && e.folder == d.folder
  {
    hide Truthful, Accounted, RowsOk, Seen, NoTombstone;
    if fixed {
      SeenWithout(d.bases, d.marks, d.known, key);
    } else {
      NoTombstoneConsistent(d, local);
      SeenWithout(d.bases, d.marks, d.known, key);
      SeenWithout(d.bases, d.marks - {key}, d.known, local);
    }
  }

  lemma {:induction false} LandDeleteInv(d: Replica)
    requires Inv(d) && d.flight.Deleting?
    requires !d.flight.fixed && ResultKey(d.rows.jobs, d.flight.key) == d.flight.key ==> !RefusalAdoptsUnseen(d, d.flight.key, d.flight.reply)
    ensures Inv(LandDelete(d)) && KeepsBytes(d, LandDelete(d))
  {
    InvGives(d);
    var local := ResultKey(d.rows.jobs, d.flight.key);
    hide Inv, Consistent, KeepsBytes, Settle, Decided, Done, Failed, ResultKey, AdoptsUnseen, DeletedRemotely;
    match d.flight.reply {
      case Waiting => SameFolderKeeps(d, d);
      case Refused(current) =>
        DoneKeeps(d, d);
        if !d.flight.fixed && local == d.flight.key {
          SettledDecision(d, d, d.flight.key, current);
        }
      case TargetTaken => DoneKeeps(d, d);
      case _ =>
        DeletedRemotelyConsistent(d, d.flight.key, local, d.flight.fixed);
        DoneKeeps(d, DeletedRemotely(d, d.flight.key, local, d.flight.fixed));
    }
  }

  // ── run_rename ────────────────────────────────────────────────────────────

  lemma {:induction false} RunRenameInv(d: Replica, from: Key, to: Key)
    requires Consistent(d) && d.flight.Idle?
    ensures Inv(RunRename(d, from, to)) && KeepsBytes(d, RunRename(d, from, to))
  {
    hide Sound, RowsOk, Seen, KeepsBytes, ResultKey;
    SoundOnly(RunRename(d, from, to), d);
    SameFolderKeeps(d, RunRename(d, from, to));
    NothingCaptured(d);
  }

  lemma {:induction false} PushMovedConsistent(d: Replica, local: Key)
    requires Consistent(d)
    ensures Consistent(PushMoved(d, local)) && Consistent(d.(bases := d.bases - {local}))
  {
    EnsureOk(d.rows, JobKind.Push(local), d.known);
    hide Truthful, Accounted, RowsOk, Seen, Rows.Ensure;
    SeenWithout(d.bases, d.marks, d.known, local);
    if local in d.entries {
      RowMarked(d.folder, d.entries, d.clock, d.unsaved + d.outside, local, Dirty);
    }
  }

  lemma {:induction false} PushMovedLeaves(d: Replica, local: Key)
    ensures var q := PushMoved(d, local);
            && q.folder == d.folder && q.outside == d.outside && q.kept == d.kept
            && forall k <- q.bases :: k in d.bases && q.bases[k] == d.bases[k]
  {
    hide Rows.Ensure, MarkedDirty;
  }

  lemma {:induction false} SourceMissingConsistent(d: Replica, local: Key)
    requires Consistent(d)
    ensures var e := SourceMissing(d, local); Consistent(e) && e.folder == d.folder
  {
    PushMovedConsistent(d, local);
    hide Truthful, Accounted, RowsOk, Seen, Rows.Ensure;
    if local !in d.folder {
      RowGone(d.folder, d.entries, d.clock, d.unsaved + d.outside, local);
    }
  }

  lemma {:induction false} LandRenameInv(d: Replica)
    requires Inv(d) && d.flight.Renaming?
    requires !RefusalAdoptsUnseen(PushMoved(d, ResultKey(d.rows.jobs, d.flight.to)), d.flight.from, d.flight.reply)
    ensures Inv(LandRename(d)) && KeepsBytes(d, LandRename(d))
  {
    InvGives(d);
    var local := ResultKey(d.rows.jobs, d.flight.to);
    PushMovedLeaves(d, local);
    hide Inv, Consistent, KeepsBytes, Settle, Decided, Done, ResultKey, AdoptsUnseen, SourceMissing, PushMoved;
    match d.flight.reply {
      case Waiting => SameFolderKeeps(d, d);
      case Accepted => DoneKeeps(d, d);
      case Missing =>
        SourceMissingConsistent(d, local);
        DoneKeeps(d, SourceMissing(d, local));
      case TargetTaken =>
        NothingCaptured(d);
        FlightInv(d, TargetAsked(d.flight.to, local));
      case Refused(current) =>
        PushMovedConsistent(d, local);
        SettledDecision(d, PushMoved(d, local), d.flight.from, current);
    }
  }

  lemma {:induction false} TargetAnsweredInv(d: Replica, remote: Option<Digest>)
    requires Inv(d) && d.flight.TargetAsked? && (remote.Some? ==> remote.value != "")
    requires ResultKey(d.rows.jobs, d.flight.to) == d.flight.to ==> !AdoptsUnseen(d.(bases := d.bases - {d.flight.localTo}), d.flight.to, remote)
    ensures Inv(TargetAnswered(d, remote)) && KeepsBytes(d, TargetAnswered(d, remote))
  {
    PushMovedConsistent(d, d.flight.localTo);
    hide Consistent, KeepsBytes, Captured, Settle, Decided, Failed, ResultKey, AdoptsUnseen, PushMoved;
    DoneKeeps(d, d);
    if ResultKey(d.rows.jobs, d.flight.to) == d.flight.to {
      SettledDecision(d, d.(bases := d.bases - {d.flight.localTo}), d.flight.to, remote);
    }
  }

  // ── run_conflict ──────────────────────────────────────────────────────────

  lemma {:induction false} RunConflictInv(d: Replica, key: Key, sha: Digest, copy: Key)
    requires Consistent(d) && d.flight.Idle?
    ensures Inv(RunConflict(d, key, sha, copy)) && KeepsBytes(d, RunConflict(d, key, sha, copy))
  {
    hide Sound, RowsOk, Seen, KeepsBytes, ResultKey, Done;
    var s := if sha in d.kept || key !in d.folder then d else d.(kept := d.kept + {d.folder[key].sha});
    SoundOnly(s, d);
    if sha in s.kept {
      var e := RunConflict(d, key, sha, copy);
      SoundOnly(e, d);
      SameFolderKeeps(d, e);
      NothingCaptured(e);
    } else {
      hide Consistent;
      DoneKeeps(d, s);
    }
  }

  /** Capturing the row in the same step as checking the bytes: whatever version the row names,
      the conflict store has it. */
  lemma {:induction false} CheckCaptures(d: Replica, key: Key, sha: Digest)
    requires Sound(d) && sha in d.kept && StillHolds(d, key, sha)
    ensures Captured(d.folder, d.bases, d.kept, d.clock, Lookup(d.entries, key))
  {
  }

  lemma {:induction false} CopyRecordedConsistent(d: Replica)
    requires Inv(d) && d.flight.SendingCopy?
    ensures var c := CopyRecorded(d);
            && Consistent(c) && c.folder == d.folder
            && (StillHolds(d, d.flight.key, d.flight.sha) ==>
                  Captured(c.folder, c.bases, c.kept, c.clock, Lookup(d.entries, d.flight.key)))
  {
    var c := CopyRecorded(d);
    if StillHolds(d, d.flight.key, d.flight.sha) {
      CheckCaptures(d, d.flight.key, d.flight.sha);
    }
    hide Sound, RowsOk, Seen, Captured, StillHolds, ResultKey;
    SoundOnly(c, d);
  }

  lemma {:induction false} LandCopyInv(d: Replica)
    requires Inv(d) && d.flight.SendingCopy?
    ensures Inv(LandCopy(d)) && KeepsBytes(d, LandCopy(d))
  {
    InvGives(d);
    hide Inv, Consistent, KeepsBytes, ResultKey, Done, Failed, Scanned, StillHolds, CopyRecorded;
    var key, c := d.flight.key, CopyRecorded(d);
    CopyRecordedConsistent(d);
    match d.flight.reply {
      case Waiting => SameFolderKeeps(d, d);
      case Accepted =>
        if ResultKey(d.rows.jobs, key) != key {
          DoneKeeps(d, c);
        } else if StillHolds(d, key, d.flight.sha) {
          FlightInv(c, CopySent(key, Lookup(d.entries, key)));
          SameFolderKeeps(d, c.(flight := CopySent(key, Lookup(d.entries, key))));
        } else {
          RescanInv(d, c, key);
          DoneKeeps(d, Deferred(Scanned(c, key, Interactive), key));
        }
      case _ => DoneKeeps(d, d);
    }
  }

  lemma {:induction false} CopyAnsweredInv(d: Replica, remote: Option<Digest>)
    requires Inv(d) && d.flight.CopySent?
    ensures Inv(CopyAnswered(d, remote)) && KeepsBytes(d, CopyAnswered(d, remote))
  {
    var key := d.flight.key;
    var p := d.(flight := PullChosen(key, d.flight.expected));
    var q := d.(bases := d.bases - {key}, entries := MarkedDirty(d.entries, key), rows := d.rows.Ensure(JobKind.Push(key)));
    FlightOnly(d, p);
    SameFolderKeeps(d, p);
    ToPushConsistent(d, key, None);
    assert q == ToPush(d, key, None);
    hide Consistent, Captured, KeepsBytes, Done, ToPush, MarkedDirty, Rows.Ensure;
    DoneKeeps(d, q);
  }

  // ── apply_remote_rename ───────────────────────────────────────────────────

  lemma {:induction false} ForgottenConsistent(d: Replica, key: Key)
    requires Consistent(d) && key !in d.folder
    ensures Consistent(Forgotten(d, key))
  {
    hide Truthful, Accounted, RowsOk, Seen;
    RowGone(d.folder, d.entries, d.clock, d.unsaved + d.outside, key);
    SeenWithout(d.bases, d.marks, d.known, key);
  }

  lemma {:induction false} RemovedConsistent(d: Replica, key: Key)
    requires Consistent(d)
    ensures Consistent(RemovedLocally(d, key))
  {
    hide Sound, RowsOk, Seen;
    RemovedSound(d, key);
  }

  lemma {:induction false} MovedByHubConsistent(d: Replica, from: Key, to: Key)
    requires Consistent(d) && from != to && from in d.folder && from !in d.writers
    ensures Consistent(MovedByHub(d, from, to))
  {
    MoveSound(d, from, to);
    assert MovedMember(d.writers, from, to) == d.writers;
    hide Truthful, Accounted, RowsOk, Seen, MovedRow, MovedMember;
    SeenMoved(d.bases, d.marks, d.known, from, to);
  }

  /** Following the rename takes the name of a file that a handle has written and not committed. */
  predicate TakesUnsaved(d: Replica, from: Key, to: Key) {
    RemoteRenameMoves(d, from, to) && to in d.unsaved
  }

  /** No other place holds the file's bytes: not the base, nor the conflict store, nor the trash. */
  predicate OnlyThere(d: Replica, key: Key) {
    && key in d.folder && key !in d.outside && !Covered(d.bases, d.kept, key, d.folder[key].sha)
    && Lookup(d.trash, key) != Some(d.folder[key].sha)
  }

  lemma {:induction false} NotFollowedConsistent(d: Replica, from: Key)
    requires Consistent(d) && from in d.entries
    ensures Consistent(NotFollowed(d, from))
  {
    EnqueueOk(d.rows, JobKind.Push(from), Interactive, d.known);
    hide Truthful, Accounted, RowsOk, Seen, Rows.Enqueue;
    SeenWithout(d.bases, d.marks, d.known, from);
  }

  lemma {:induction false} RemoteRenameWhenMoving(d: Replica, from: Key, to: Key)
    requires RemoteRenameMoves(d, from, to)
    ensures ApplyRemoteRename(d, from, to) == MovedByHub(d, from, to)
  {
    hide CleanHere, PendingDirectoryMove, MovedByHub, NotFollowed, RemovedLocally, Forgotten;
  }

  lemma {:induction false} NotFollowedLeaves(d: Replica, from: Key)
    requires from in d.entries
    ensures var e := NotFollowed(d, from);
            e.flight == d.flight && e.trash == d.trash && e.folder == d.folder && e.known == d.known
  {
    hide Rows.Enqueue;
  }

  lemma {:induction false} ForgottenLeaves(d: Replica, from: Key)
    ensures var e := Forgotten(d, from);
            e.flight == d.flight && e.trash == d.trash && e.folder == d.folder && e.known == d.known
    ensures var e := Forgotten(RemovedLocally(d, from), from);
            e.flight == d.flight && e.trash == d.trash && e.folder == d.folder - {from} && e.known == d.known
  {
  }

  lemma {:induction false} RemoteRenameOtherwise(d: Replica, from: Key, to: Key)
    requires !RemoteRenameMoves(d, from, to)
    ensures var e := ApplyRemoteRename(d, from, to);
            && e.flight == d.flight && e.trash == d.trash
            && (|| e.folder == d.folder
                || (e.folder == d.folder - {from} && CleanHere(d, from) && from !in d.writers))
  {
    hide CleanHere, PendingDirectoryMove, MovedByHub, NotFollowed, Forgotten, RemovedLocally;
    if from in d.entries {
      NotFollowedLeaves(d, from);
    }
    ForgottenLeaves(d, from);
  }

  lemma {:induction false} MovedByHubLeaves(d: Replica, from: Key, to: Key)
    ensures var e := MovedByHub(d, from, to);
            e.flight == d.flight && e.trash == d.trash && e.folder == MovedRow(d.folder, from, to)
  {
    hide MovedRow, MovedMember;
  }

  lemma {:induction false} ApplyRemoteRenameConsistent(d: Replica, from: Key, to: Key)
    requires Consistent(d) && d.flight.Idle?
    ensures Inv(ApplyRemoteRename(d, from, to))
  {
    var r := RemovedLocally(d, from);
    assert from !in r.folder;
    hide Consistent, Inv, CleanHere, PendingDirectoryMove, RemovedLocally, Forgotten, NotFollowed, MovedByHub;
    RemovedConsistent(d, from);
    ForgottenConsistent(r, from);
    IdleInv(d);
    if from in d.entries {
      NotFollowedConsistent(d, from);
    }
    if from !in d.folder {
      ForgottenConsistent(d, from);
    } else if from != to && from !in d.writers {
      MovedByHubConsistent(d, from, to);
    }
    if RemoteRenameMoves(d, from, to) {
      RemoteRenameWhenMoving(d, from, to);
      MovedByHubLeaves(d, from, to);
    } else {
      RemoteRenameOtherwise(d, from, to);
    }
    IdleInv(ApplyRemoteRename(d, from, to));
  }

  lemma {:induction false} CleanIsCovered(d: Replica, key: Key)
    requires Consistent(d) && CleanHere(d, key) && key in d.folder && key !in d.writers && key !in d.outside
    ensures Covered(d.bases, d.kept, key, d.folder[key].sha)
  {
  }

  lemma {:induction false} RemoteRenameGuard(d: Replica, from: Key, to: Key)
    requires RemoteRenameMoves(d, from, to)
    ensures from != to && from in d.folder
  {
  }

  /** A file under a free name is either open and not committed, or nobody has looked at it yet. */
  lemma {:induction false} UnknownIsUnsaved(d: Replica, from: Key, to: Key)
    requires Consistent(d) && RemoteRenameMoves(d, from, to)
    ensures to in d.folder ==> to in d.unsaved || to in d.outside
  {
    hide Truthful, RowsOk, Seen;
  }

  /** A remote rename keeps every byte exactly unless it takes the name of an open file that is not
      committed, which the set of open writes shows, and whose bytes are nowhere else. */
  lemma {:induction false} ApplyRemoteRenameKeeps(d: Replica, from: Key, to: Key)
    requires Consistent(d)
    ensures KeepsBytes(d, ApplyRemoteRename(d, from, to)) <==> !(TakesUnsaved(d, from, to) && OnlyThere(d, to))
    ensures TakesUnsaved(d, from, to) ==> to in d.writers
  {
    assert d.unsaved <= d.writers;
    var e := ApplyRemoteRename(d, from, to);
    hide Sound, RowsOk, Seen, CleanHere, PendingDirectoryMove, Covered, ApplyRemoteRename, RemoteRenameMoves, MovedByHub;
    if RemoteRenameMoves(d, from, to) {
      RemoteRenameGuard(d, from, to);
      RemoteRenameWhenMoving(d, from, to);
      MovedByHubLeaves(d, from, to);
      UnknownIsUnsaved(d, from, to);
      forall k | k in d.folder && k != to ensures BytesSurvive(d, e, k) {
        assert e.folder[if k == from then to else k] == d.folder[k];
      }
      if to in d.folder && (exists j <- e.folder :: e.folder[j] == d.folder[to]) {
        var j :| j in e.folder && e.folder[j] == d.folder[to];
        VersionsDiffer(d, to, if j == to then from else j);
      }
      assert to in d.folder ==> (BytesSurvive(d, e, to) <==> !OnlyThere(d, to));
    } else {
      RemoteRenameOtherwise(d, from, to);
      forall k | k in d.folder ensures BytesSurvive(d, e, k) {
        if k in e.folder {
          assert e.folder[k] == d.folder[k];
        } else if k !in d.outside {
          CleanIsCovered(d, from);
        }
      }
    }
  }

  lemma {:induction false} VersionsDiffer(d: Replica, j: Key, k: Key)
    requires Consistent(d) && j in d.folder && k in d.folder && d.folder[j] == d.folder[k]
    ensures j == k
  {
    hide Accounted, RowsOk, Seen;
  }
}
