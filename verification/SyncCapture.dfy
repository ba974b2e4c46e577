/** What it takes that `run_conflict` checks a file's digest and reads its row without a lock in
    between. */
module SyncCapture {
  import opened Options
  import opened Keys
  import opened Reconcile
  import opened Replicas
  import opened SyncSteps
  import opened SyncInvariant
  import opened SyncSafety
  import opened SyncLandings
  import opened SyncRuns
  import opened SyncReplies

  // ── versions of files ─────────────────────────────────────────────────────

  /** Every file of `e` is a version `d` had, or a new one. */
  ghost predicate VersionsFrom(d: Replica, e: Replica) {
    && d.clock <= e.clock && d.kept <= e.kept
    && forall j <- e.folder :: e.folder[j].id < d.clock ==> exists i <- d.folder :: d.folder[i] == e.folder[j]
  }

  lemma {:induction false} VersionsStay(d: Replica, e: Replica)
    requires d.clock <= e.clock && d.kept <= e.kept
    requires forall j <- e.folder :: e.folder[j].id >= d.clock || (j in d.folder && d.folder[j] == e.folder[j])
    ensures VersionsFrom(d, e)
  {
  }

  lemma {:induction false} VersionsChain(c: Replica, d: Replica, e: Replica)
    requires VersionsFrom(c, d) && VersionsFrom(d, e)
    ensures VersionsFrom(c, e)
  {
    forall j | j in e.folder && e.folder[j].id < c.clock ensures exists i <- c.folder :: c.folder[i] == e.folder[j] {
      var i :| i in d.folder && d.folder[i] == e.folder[j];
      var h :| h in c.folder && c.folder[h] == d.folder[i];
    }
  }

  lemma {:induction false} MovedVersions(d: Replica, from: Key, to: Key)
    requires from in d.folder
    ensures VersionsFrom(d, d.(folder := MovedRow(d.folder, from, to)))
  {
    var e := d.(folder := MovedRow(d.folder, from, to));
    forall j | j in e.folder ensures exists i <- d.folder :: d.folder[i] == e.folder[j] {
      assert d.folder[if j == to then from else j] == e.folder[j];
    }
  }

  lemma {:induction false} GoneFiles(d: Replica, key: Key)
    ensures var e := Gone(d, key); e.folder == d.folder && e.clock == d.clock && e.kept == d.kept
  {
    hide Rows.Enqueue, Rows.Keep;
  }

  lemma {:induction false} DeletedVersions(d: Replica, key: Key)
    ensures VersionsFrom(d, Deleted(d, key))
  {
    hide Gone;
    GoneFiles(d.(folder := d.folder - {key}, unsaved := d.unsaved - {key}, outside := d.outside - {key}), key);
    VersionsStay(d, Deleted(d, key));
  }

  lemma {:induction false} DestinationFiles(d: Replica, to: Key)
    ensures var e := DestinationGone(d, to);
            e.folder == (if to in d.entries then d.folder - {to} else d.folder) && e.clock == d.clock && e.kept == d.kept
  {
    hide Gone, Rows.Enqueue;
    GoneFiles(d.(folder := d.folder - {to}, unsaved := d.unsaved - {to}, outside := d.outside - {to}), to);
  }

  lemma {:induction false} RekeyedFiles(d: Replica, from: Key, to: Key)
    ensures var e := Rekeyed(FileMoved(d, from, to), from, to);
            e.folder == MovedRow(d.folder, from, to) && e.clock == d.clock && e.kept == d.kept
  {
    hide MovedRow, MovedMember, MovedRecord, RekeyedRows, Rows.Enqueue;
  }

  lemma {:induction false} SavedOverFiles(d: Replica, from: Key, to: Key)
    requires to in d.entries
    ensures var e := SavedOver(d, from, to);
            e.folder == MovedRow(d.folder, from, to) && e.clock == d.clock && e.kept == d.kept
  {
    hide MovedRow, MovedMember, Rows.Enqueue, Rows.Keep;
  }

  lemma {:induction false} SameFiles(d: Replica, e: Replica, f: Replica)
    requires VersionsFrom(d, e) && f.folder == e.folder && f.clock == e.clock && f.kept == e.kept
    ensures VersionsFrom(d, f)
  {
  }

  lemma {:induction false} SavedOverVersions(d: Replica, from: Key, to: Key)
    requires to in d.entries && from in d.folder
    ensures VersionsFrom(d, SavedOver(d, from, to))
  {
    hide VersionsFrom, SavedOver, MovedRow;
    SavedOverFiles(d, from, to);
    MovedVersions(d, from, to);
    SameFiles(d, d.(folder := MovedRow(d.folder, from, to)), SavedOver(d, from, to));
  }

  lemma {:induction false} RekeyedVersions(d: Replica, from: Key, to: Key)
    requires from in d.folder
    ensures VersionsFrom(d, Rekeyed(FileMoved(d, from, to), from, to))
  {
    hide VersionsFrom, Rekeyed, FileMoved, MovedRow;
    RekeyedFiles(d, from, to);
    MovedVersions(d, from, to);
    SameFiles(d, d.(folder := MovedRow(d.folder, from, to)), Rekeyed(FileMoved(d, from, to), from, to));
  }

  lemma {:induction false} DestinationVersions(d: Replica, from: Key, to: Key)
    requires from in d.folder && from != to
    ensures VersionsFrom(d, DestinationGone(d, to)) && from in DestinationGone(d, to).folder
  {
    hide DestinationGone;
    DestinationFiles(d, to);
    VersionsStay(d, DestinationGone(d, to));
    hide VersionsFrom;
  }

  lemma {:induction false} RenameVersions(d: Replica, from: Key, to: Key)
    ensures VersionsFrom(d, RenameLocal(d, from, to))
  {
    hide VersionsFrom, Rekeyed, FileMoved, SavedOver, DestinationGone;
    var e := d.(epoch := d.epoch + 1);
    VersionsStay(d, e);
    if from == to || from !in d.folder {
      VersionsStay(d, d);
    } else if from !in d.bases && to in d.entries {
      SavedOverVersions(e, from, to);
      VersionsChain(d, e, SavedOver(e, from, to));
    } else {
      var g := DestinationGone(e, to);
      DestinationVersions(e, from, to);
      RekeyedVersions(g, from, to);
      VersionsChain(d, e, g);
      VersionsChain(d, g, Rekeyed(FileMoved(g, from, to), from, to));
    }
  }

  /** One name has a new version, or loses its file, or nothing happens. */
  predicate OneName(d: Replica, e: Replica, key: Key) {
    && d.clock <= e.clock && e.kept == d.kept
    && (e.folder == d.folder || e.folder == d.folder - {key}
        || (key in e.folder && e.folder[key].id >= d.clock && e.folder == d.folder[key := e.folder[key]]))
  }

  lemma {:induction false} OneNameVersions(d: Replica, e: Replica, key: Key)
    requires OneName(d, e, key)
    ensures VersionsFrom(d, e)
  {
    VersionsStay(d, e);
    hide VersionsFrom;
  }

  lemma {:induction false} CommitFiles(d: Replica, key: Key, sha: Digest)
    ensures OneName(d, CommitWrite(d, key, sha), key) && OneName(d, CommitHandle(d, key), key)
  {
    hide Rows.Enqueue;
  }

  lemma {:induction false} HandleFiles(d: Replica, key: Key, create: bool, truncate: bool, sha: Digest)
    ensures OneName(d, OpenWrite(d, key, create, truncate), key) && OneName(d, HandleWrite(d, key, sha), key)
    ensures OneName(d, CloseWrite(d, key), key)
  {
  }

  lemma {:induction false} ExternalFiles(d: Replica, key: Key, bytes: Option<Digest>)
    ensures OneName(d, External(d, key, bytes), key)
  {
  }

  lemma {:induction false} LocalVersions(d: Replica, st: Step)
    requires LocalStep(st)
    ensures VersionsFrom(d, Locally(d, st))
  {
    hide VersionsFrom, OneName, RenameLocal, Deleted, CommitWrite, CommitHandle, OpenWrite, HandleWrite, CloseWrite,
         External;
    match st {
      case Move(from, to) => RenameVersions(d, from, to);
      case Remove(key) => DeletedVersions(d, key);
      case Write(key, sha) => CommitFiles(d, key, sha); OneNameVersions(d, Locally(d, st), key);
      case Flush(key) => CommitFiles(d, key, ""); OneNameVersions(d, Locally(d, st), key);
      case OpenForWrite(key, create, truncate) => HandleFiles(d, key, create, truncate, ""); OneNameVersions(d, Locally(d, st), key);
      case WriteThrough(key, sha) => HandleFiles(d, key, false, false, sha); OneNameVersions(d, Locally(d, st), key);
      case Close(key) => HandleFiles(d, key, false, false, ""); OneNameVersions(d, Locally(d, st), key);
      case ChangeFolder(key, bytes) => ExternalFiles(d, key, bytes); OneNameVersions(d, Locally(d, st), key);
    }
  }

  lemma {:induction false} VersionsMeanwhile(trace: seq<System>, steps: seq<Step>, n: nat)
    requires Run(trace, steps) && n < |trace| && forall i :: 0 <= i < n ==> Besides(steps[i])
    ensures VersionsFrom(trace[0].mirror, trace[n].mirror)
  {
    hide VersionsFrom, Enabled, Locally, Verdict, Objects;
    if n == 0 {
      VersionsStay(trace[0].mirror, trace[0].mirror);
    } else {
      VersionsMeanwhile(trace, steps, n - 1);
      var st := steps[n - 1];
      if LocalStep(st) {
        LocalVersions(trace[n - 1].mirror, st);
      } else {
        VersionsStay(trace[n - 1].mirror, trace[n].mirror);
      }
      VersionsChain(trace[0].mirror, trace[n - 1].mirror, trace[n].mirror);
    }
  }

  // ── the check and the capture as two steps ────────────────────────────────

  /** The row read later names the version that was checked. */
  predicate NamesChecked(c: Replica, d: Replica, key: Key) {
    key in c.folder && key in d.entries && d.entries[key].mtime == c.folder[key].id
  }

  /** The row is read, and the pull it will be compared with begins. */
  function ReadLater(d: Replica, key: Key): Replica { PullBegin(d.(flight := PullChosen(key, Lookup(d.entries, key)))) }

  lemma {:induction false} CheckedIsCaptured(c: Replica, d: Replica, key: Key, sha: Digest)
    requires Consistent(c) && Consistent(d) && VersionsFrom(c, d) && sha in c.kept && StillHolds(c, key, sha)
    requires NamesChecked(c, d, key)
    ensures Captured(d.folder, d.bases, d.kept, d.clock, Lookup(d.entries, key))
  {
    hide RowsOk, Seen, Accounted;
    forall j | j in d.folder && d.folder[j].id == d.entries[key].mtime ensures Covered(d.bases, d.kept, j, d.folder[j].sha) {
      var i :| i in c.folder && c.folder[i] == d.folder[j];
      assert i == key;
    }
  }

  lemma {:induction false} ReadKeeps(d: Replica, key: Key, theirs: Digest)
    requires Consistent(d) && Captured(d.folder, d.bases, d.kept, d.clock, Lookup(d.entries, key))
    requires ReadLater(d, key).flight.Pulling? && theirs != ""
    ensures KeepsBytes(ReadLater(d, key), PullLand(ReadLater(d, key), Some(theirs)))
  {
    var q := d.(flight := PullChosen(key, Lookup(d.entries, key)));
    assert Inv(q) by {
      hide Truthful, Accounted, RowsOk, Seen, Captured;
    }
    hide Inv, Consistent, Captured, PullBegin, PullLand, KeepsBytes;
    PullBeginInv(q);
    PullLandInv(ReadLater(d, key), Some(theirs));
  }

  lemma {:induction false} LandsAtOnce(d: Replica, key: Key, theirs: Digest)
    requires ReadLater(d, key).flight.Pulling?
    ensures var asked := ReadLater(d, key);
            && asked == d.(flight := asked.flight) && asked.flight.key == key && LandingAllowed(asked)
            && PullLand(asked, Some(theirs)) == Settle(Landed(asked, key, theirs))
  {
    hide PendingPathMove, Landed, Settle, Scanned;
    assert !Settle(Deferred(d.(flight := PullChosen(key, Lookup(d.entries, key))), key)).flight.Pulling? by { SettledIsIdle(Deferred(d.(flight := PullChosen(key, Lookup(d.entries, key))), key)); }
    SettledIsIdle(d.(flight := Idle));
  }

  lemma {:induction false} SettledIsIdle(d: Replica)
    requires d.flight.Idle?
    ensures Settle(d).flight.Idle?
  {
    DoneIsIdle(d);
    hide Done;
  }

  lemma {:induction false} SettledFiles(d: Replica, key: Key, sha: Digest)
    ensures var e := Settle(Landed(d, key, sha)); e.folder == d.folder[key := File(sha, d.clock)] && e.trash == ClearTrash(d, key)
  {
    hide Rows.Keep;
  }

  /** A landing over a version the conflict store does not have destroys it. */
  lemma {:induction false} ReadDestroys(d: Replica, key: Key, theirs: Digest)
    requires Consistent(d) && ReadLater(d, key).flight.Pulling? && OnlyThere(d, key) && d.folder[key].sha != theirs
    ensures !KeepsBytes(ReadLater(d, key), PullLand(ReadLater(d, key), Some(theirs)))
  {
    LandsAtOnce(d, key, theirs);
    var asked := ReadLater(d, key);
    SettledFiles(asked, key, theirs);
    var e := PullLand(asked, Some(theirs));
    hide Sound, RowsOk, Seen, ReadLater, PullLand, Covered;
    if j :| j in e.folder && e.folder[j] == d.folder[key] {
      VersionsDiffer(d, key, j);
    }
    assert !BytesSurvive(asked, e, key);
  }

  lemma {:induction false} NothingAdopted(trace: seq<System>, steps: seq<Step>)
    requires forall st <- steps :: Besides(st)
    ensures NoUnseenAdoption(trace, steps)
  {
    forall i: nat | i < |steps| && i < |trace| ensures !AdoptsUnseenAt(trace[i], steps[i]) {
      assert steps[i] in steps;
    }
  }

  /** The file of `key` has been checked against the preserved bytes; anything but the engine
      happens; then the row is read and the hub's version pulled. The pull keeps every byte if the
      row still names the checked version; if it names another one whose bytes are nowhere else,
      that version is lost. */
  lemma {:induction false} CheckThenRead(trace: seq<System>, steps: seq<Step>, key: Key, sha: Digest, theirs: Digest)
    requires Run(trace, steps) && SystemInv(trace[0]) && forall st <- steps :: Besides(st)
    requires sha in trace[0].mirror.kept && StillHolds(trace[0].mirror, key, sha) && theirs != ""
    ensures |trace| == |steps| + 1
    ensures var c, d := trace[0].mirror, trace[|steps|].mirror;
            ReadLater(d, key).flight.Pulling? ==>
              var kept := KeepsBytes(ReadLater(d, key), PullLand(ReadLater(d, key), Some(theirs)));
              && (NamesChecked(c, d, key) ==> kept)
              && (OnlyThere(d, key) && d.folder[key].sha != theirs ==> !kept && !NamesChecked(c, d, key))
  {
    var n := |steps|;
    assert |trace| == n + 1;
    NothingAdopted(trace, steps);
    RunInv(trace, steps, n);
    VersionsMeanwhile(trace, steps, n);
    var c, d := trace[0].mirror, trace[n].mirror;
    InvGives(c);
    InvGives(d);
    hide Run, NoUnseenAdoption, SystemInv, Inv, Consistent, VersionsFrom, KeepsBytes, ReadLater, PullLand,
         NamesChecked, OnlyThere, StillHolds;
    if ReadLater(d, key).flight.Pulling? {
      if NamesChecked(c, d, key) {
        CheckedIsCaptured(c, d, key, sha);
        ReadKeeps(d, key, theirs);
      }
      if OnlyThere(d, key) && d.folder[key].sha != theirs {
        ReadDestroys(d, key, theirs);
      }
    }
  }
}
