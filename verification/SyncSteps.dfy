/** The engine's side of `src/mirror/sync.rs`, one function per critical section: what a step
    makes of the replica. Between two sections the namespace lock is free, so local edits and
    other devices' writes may come in. */
module SyncSteps {
  import opened Options
  import opened Keys
  import opened Reconcile
  import opened Jobs
  import opened Tables
  import opened Replicas

  // ── the end of a job ──────────────────────────────────────────────────────

  /** The engine is free again; the job that ran, if any, leaves the table. */
  function Done(d: Replica): Replica {
    d.(flight := Idle, running := None,
       rows := if d.running.Some? then d.rows.Keep(NotNumber(d.running.value)) else d.rows)
  }

  /** The job, if any, stays queued for another attempt. */
  function Failed(d: Replica): Replica {
    d.(flight := Idle, running := None)
  }

  /** The work ends here unless it has gone on to another request. */
  function Settle(d: Replica): Replica {
    if d.flight.Idle? then Done(d) else d
  }

  function Deferred(d: Replica, key: Key): Replica {
    d.(flight := Idle, recheck := d.recheck + {key})
  }

  // ── looking at the folder ─────────────────────────────────────────────────

  /** The digest a row records for a file that is there; what `reconcile_key` compares. */
  function LiveSha(d: Replica, key: Key): Option<Digest> {
    RowSha(d.entries, key)
  }

  /** `scan_paths` on one path. */
  function Scanned(d: Replica, key: Key, priority: Priority): Replica {
    if PendingDirectoryMove(d.rows.jobs, key) || key in d.writers then d
    else
      var s := d.(outside := d.outside - {key});
      if key in d.folder then
        var f := d.folder[key];
        if LiveSha(d, key) == Some(f.sha)
        then s.(entries := d.entries[key := d.entries[key].(mtime := f.id)])
        else s.(entries := d.entries[key := Entry(f.sha, f.id, Dirty)], trash := ClearTrash(d, key),
                rows := d.rows.Enqueue(JobKind.Push(key), priority))
      else if LiveSha(d, key).Some? then Gone(s, key)
      else s
  }

  /** `recover_jobs` for one row: work that lost its job gets one back. */
  function Recovered(d: Replica, key: Key): Replica {
    if key !in d.entries || d.entries[key].state.Clean? then d
    else if d.entries[key].state.Dirty? && key in d.conflicts && !d.conflicts[key].uploaded then d
    else
      var kind := if d.entries[key].state.Dirty? then JobKind.Push(key) else JobKind.Delete(key, None);
      if d.rows.Has(kind.DedupeId()) then d else d.(rows := d.rows.Enqueue(kind, Discovered))
  }

  // ── reconcile_key ─────────────────────────────────────────────────────────

  predicate Blocked(d: Replica, key: Key, a: Action) {
    match a
    case TrashLocal => true
    case Pull(_) => key in d.folder
    case Conflict(_) => true
    case DeleteRemote(_) => true
    case Push(ifMatch) => ifMatch.Some?
    case _ => false
  }

  function MarkedDirty(entries: map<Key, Entry>, key: Key): map<Key, Entry> {
    if key in entries then entries[key := entries[key].(state := Dirty)] else entries
  }

  function ToPush(d: Replica, key: Key, ifMatch: Option<Digest>): Replica {
    d.(bases := if ifMatch.None? then d.bases - {key} else d.bases,
       entries := MarkedDirty(d.entries, key), rows := d.rows.Ensure(JobKind.Push(key)))
  }

  function ToDelete(d: Replica, key: Key): Replica {
    if d.cfg.propagate then d.(rows := d.rows.Ensure(JobKind.Delete(key, None)))
    else d.(entries := d.entries - {key}, bases := d.bases - {key})
  }

  /** `TrashLocal`: `trash_put` moves the file, whatever it holds, into the trash. */
  function Trashed(d: Replica, key: Key): Replica {
    d.(trash := if key in d.folder then d.trash[key := d.folder[key].sha] else d.trash - {key},
       folder := d.folder - {key}, unsaved := d.unsaved - {key}, outside := d.outside - {key},
       entries := d.entries - {key}, bases := d.bases - {key}, rows := d.rows.Keep(NotKey(key)))
  }

  /** `Adopt`: both sides agree. The row taken over may be a tombstone. */
  function Adopted(d: Replica, key: Key): Replica {
    if key in d.entries then
      var e := d.entries[key];
      d.(bases := d.bases[key := e.sha], entries := d.entries[key := e.(state := Clean)],
         known := if e.state.Tombstone? then d.known else d.known + {e.sha},
         rows := d.rows.Keep(NotKey(key)))
    else d.(bases := d.bases - {key}, rows := d.rows.Keep(NotKey(key)))
  }

  /** The decision, and everything it does before the lock is dropped. */
  function Acted(d: Replica, key: Key, a: Action): Replica {
    match a
    case Nothing => d
    case Push(ifMatch) => ToPush(d, key, ifMatch)
    case DeleteRemote(_) => ToDelete(d, key)
    case Pull(_) => d.(flight := PullChosen(key, Lookup(d.entries, key)))
    case TrashLocal => Trashed(d, key)
    case Adopt => Adopted(d, key)
    case Conflict(r) =>
      if key in d.entries then d.(flight := ConflictChosen(key, d.entries[key], Lookup(d.bases, key), r)) else d
  }

  function Decided(d: Replica, key: Key, remote: Option<Digest>): Replica {
    var i := d.(flight := Idle);
    if key == "" || PendingDirectoryMove(d.rows.jobs, key) then i
    else if key in d.writers || PendingRename(d.rows.jobs, key) then Deferred(d, key)
    else
      var a := Decide(LiveSha(d, key), Lookup(d.bases, key), remote);
      if d.cfg.protected && Blocked(d, key, a) then i else Acted(i, key, a)
  }

  // ── pull_key ──────────────────────────────────────────────────────────────

  /** The request may be sent, or the download take the file's place. */
  predicate StillExpected(d: Replica, key: Key, expected: Option<Entry>) {
    && Lookup(d.entries, key) == expected
    && key !in d.writers
    && !PendingPathMove(d.rows.jobs, key)
  }

  predicate MayLand(d: Replica, key: Key) { d.cfg.protected ==> key !in d.folder }

  function Stamp(d: Replica, key: Key): Option<nat> {
    if key in d.folder then Some(d.folder[key].id) else None
  }

  function PullBegin(d: Replica): Replica
    requires d.flight.PullChosen?
  {
    var key, expected := d.flight.key, d.flight.expected;
    if !StillExpected(d, key, expected) then Settle(Deferred(d, key))
    else if !MayLand(d, key) then Settle(d.(flight := Idle))
    else d.(flight := Pulling(key, expected, Stamp(d, key), d.epoch))
  }

  /** The downloaded bytes, verified, take their name; entry and base follow. */
  function Landed(d: Replica, key: Key, sha: Digest): Replica {
    d.(flight := Idle, folder := d.folder[key := File(sha, d.clock)], clock := d.clock + 1,
       outside := d.outside - {key},
       entries := d.entries[key := Entry(sha, d.clock, Clean)], bases := d.bases[key := sha],
       trash := ClearTrash(d, key), rows := d.rows.Keep(NotKey(key)), known := d.known + {sha})
  }

  predicate LandingAllowed(d: Replica)
    requires d.flight.Pulling?
  {
    && d.epoch == d.flight.epoch && Stamp(d, d.flight.key) == d.flight.stamp
    && StillExpected(d, d.flight.key, d.flight.expected) && MayLand(d, d.flight.key)
  }

  /** `got` is the digest of what was downloaded; None when the hub no longer has the key. */
  function PullLand(d: Replica, got: Option<Digest>): Replica
    requires d.flight.Pulling?
  {
    var key := d.flight.key;
    match got
    case None => Settle(d.(flight := Idle))
    case Some(sha) =>
      if LandingAllowed(d) then Settle(Landed(d, key, sha))
      else Settle(Deferred(Scanned(d, key, Interactive), key))
  }

  // ── record_conflict ───────────────────────────────────────────────────────

  /** The snapshot is in the conflict store; the row names it. */
  function Snapshotted(d: Replica, key: Key, entry: Entry): Replica
    requires key in d.folder
  {
    var f := d.folder[key];
    var p := d.(flight := Idle, kept := d.kept + {f.sha});
    if f.sha == entry.sha then p
    else p.(entries := d.entries[key := Entry(f.sha, f.id, Dirty)], outside := d.outside - {key})
  }

  function Preserved(d: Replica, key: Key, entry: Entry, base: Option<Digest>): Replica
    requires key in d.folder
  {
    var sha := d.folder[key].sha;
    var upload := ConflictUpload(key, sha, base);
    var s := Snapshotted(d, key, entry);
    if key in d.conflicts && d.conflicts[key].localSha == sha && !d.conflicts[key].uploaded
    then s.(rows := d.rows.Ensure(upload))
    else s.(conflicts := d.conflicts[key := ConflictRecord(key, sha, false, None)],
            rows := d.rows.Keep(NotKey(key)).Ensure(upload))
  }

  function RecordConflict(d: Replica): Replica
    requires d.flight.ConflictChosen?
  {
    var key, entry := d.flight.key, d.flight.entry;
    if key !in d.folder then Settle(d.(flight := Idle))
    else if !StillExpected(d, key, Some(entry)) then Settle(Deferred(d, ResultKey(d.rows.jobs, key)))
    else Settle(Preserved(d, key, entry, d.flight.base))
  }

  // ── run_push ──────────────────────────────────────────────────────────────

  /** The row names the snapshot that is sent; the hub may have it from now on. */
  function Uploading(d: Replica, key: Key, base: Option<Digest>): Replica
    requires key in d.folder
  {
    var f := d.folder[key];
    d.(entries := d.entries[key := Entry(f.sha, f.id, Dirty)], outside := d.outside - {key},
       marks := d.marks[key := f.sha], known := d.known + {f.sha},
       flight := Pushing(key, f.sha, base, Waiting))
  }

  function RunPush(d: Replica, key: Key): Replica {
    var base := Lookup(d.bases, key);
    if key !in d.entries || !d.entries[key].state.Dirty? || key in d.writers || PendingDirectoryMove(d.rows.jobs, key)
    then Done(d)
    else if key !in d.folder then Failed(d)
    else
      var f := d.folder[key];
      if d.cfg.protected && base.Some? && (base.value != d.entries[key].sha || base.value != f.sha) then Failed(d)
      else Uploading(d, key, base)
  }

  /** A row becomes Clean when it still names the uploaded bytes and nobody is writing them. */
  function Confirmed(d: Replica, key: Key, sha: Digest): map<Key, Entry> {
    if key in d.entries && d.entries[key].sha == sha && d.entries[key].state.Dirty? && key !in d.writers
    then d.entries[key := d.entries[key].(state := Clean)]
    else d.entries
  }

  function Pushed(d: Replica, key: Key, landed: Key, sha: Digest): Replica {
    d.(bases := d.bases[landed := sha], entries := Confirmed(d, landed, sha), marks := d.marks - {key})
  }

  function LandPush(d: Replica): Replica
    requires d.flight.Pushing?
  {
    var key, sha := d.flight.key, d.flight.sha;
    var landed := ResultKey(d.rows.jobs, key);
    match d.flight.reply
    case Waiting => d
    case Accepted => Done(Pushed(d, key, landed, sha))
    case Refused(current) =>
      if (d.cfg.protected && current.Some? && current.value != sha) || landed != key then Failed(d)
      else Settle(Decided(d, key, current))
    case _ => Failed(d)
  }

  // ── run_delete ────────────────────────────────────────────────────────────

  function NoTombstone(entries: map<Key, Entry>, key: Key): map<Key, Entry> {
    if key in entries && entries[key].state.Tombstone? then entries - {key} else entries
  }

  /** The precondition of a delete: the job's own, the base, or an upload whose reply was lost. */
  function DeleteMatch(d: Replica, key: Key, ifMatch: Option<Digest>): Option<Digest> {
    var local := ResultKey(d.rows.jobs, key);
    if ifMatch.Some? then ifMatch
    else if local in d.bases then Some(d.bases[local])
    else Lookup(d.marks, key)
  }

  function RunDelete(d: Replica, key: Key, ifMatch: Option<Digest>): Replica {
    var expected := DeleteMatch(d, key, ifMatch);
    if expected.None? then Done(d.(entries := NoTombstone(d.entries, ResultKey(d.rows.jobs, key))))
    else d.(flight := Deleting(key, expected.value, ifMatch.Some?, Waiting))
  }

  function DeletedRemotely(d: Replica, key: Key, local: Key, fixed: bool): Replica {
    var m := d.(marks := d.marks - {key});
    if fixed then m else m.(entries := NoTombstone(d.entries, local), bases := d.bases - {local})
  }

  function LandDelete(d: Replica): Replica
    requires d.flight.Deleting?
  {
    var key, fixed := d.flight.key, d.flight.fixed;
    var local := ResultKey(d.rows.jobs, key);
    match d.flight.reply
    case Waiting => d
    case Accepted => Done(DeletedRemotely(d, key, local, fixed))
    case Missing => Done(DeletedRemotely(d, key, local, fixed))
    case Refused(current) => if fixed || local != key then Failed(d) else Settle(Decided(d, key, current))
    case TargetTaken => Failed(d)
  }

  // ── run_rename ────────────────────────────────────────────────────────────

  function RunRename(d: Replica, from: Key, to: Key): Replica {
    var local := ResultKey(d.rows.jobs, to);
    var base := if local in d.bases then Some(d.bases[local]) else Lookup(d.marks, from);
    d.(flight := Renaming(from, to, base, Waiting))
  }

  /** The moved bytes are a new file upstream. */
  function PushMoved(d: Replica, local: Key): Replica {
    var u := d.(bases := d.bases - {local});
    if local !in d.entries then u
    else u.(entries := MarkedDirty(d.entries, local), rows := d.rows.Ensure(JobKind.Push(local)))
  }

  function SourceMissing(d: Replica, local: Key): Replica {
    if local in d.folder then PushMoved(d, local)
    else d.(bases := d.bases - {local}, entries := d.entries - {local})
  }

  function LandRename(d: Replica): Replica
    requires d.flight.Renaming?
  {
    var from, to := d.flight.from, d.flight.to;
    var local := ResultKey(d.rows.jobs, to);
    match d.flight.reply
    case Waiting => d
    case Accepted => Done(d)
    case Missing => Done(SourceMissing(d, local))
    case TargetTaken => d.(flight := TargetAsked(to, local))
    case Refused(current) => Settle(Decided(PushMoved(d, local), from, current))
  }

  /** Somebody else has the destination: theirs stays, after a fresh look at it. */
  function TargetAnswered(d: Replica, remote: Option<Digest>): Replica
    requires d.flight.TargetAsked?
  {
    var to, local := d.flight.to, d.flight.localTo;
    if ResultKey(d.rows.jobs, to) != to then Failed(d)
    else Settle(Decided(d.(bases := d.bases - {local}), to, remote))
  }

  // ── run_conflict ──────────────────────────────────────────────────────────

  function RunConflict(d: Replica, key: Key, sha: Digest, copy: Key): Replica {
    var s := if sha in d.kept || key !in d.folder then d else d.(kept := d.kept + {d.folder[key].sha});
    if sha !in s.kept then Done(s)
    else
      var local := ResultKey(d.rows.jobs, key);
      var record := if key in d.conflicts then d.conflicts[key] else ConflictRecord(key, sha, false, None);
      s.(conflicts := d.conflicts[local := record.(key := local, copyKey := Some(ResultKey(d.rows.jobs, copy)))],
         flight := SendingCopy(key, sha, copy, record, Waiting))
  }

  function CopyRecorded(d: Replica): Replica
    requires d.flight.SendingCopy?
  {
    var local := ResultKey(d.rows.jobs, d.flight.key);
    d.(conflicts := d.conflicts[local :=
         d.flight.record.(key := local, uploaded := true, copyKey := Some(ResultKey(d.rows.jobs, d.flight.copy)))])
  }

  /** The copy is on the hub. Only if the file still holds those bytes may the hub's version
      take its name: check and capture are one step, no request lies between them. */
  function LandCopy(d: Replica): Replica
    requires d.flight.SendingCopy?
  {
    var key, sha := d.flight.key, d.flight.sha;
    match d.flight.reply
    case Waiting => d
    case Accepted =>
      var c := CopyRecorded(d);
      if ResultKey(d.rows.jobs, key) != key then Done(c)
      else if StillHolds(d, key, sha) then c.(flight := CopySent(key, Lookup(d.entries, key)))
      else Done(Deferred(Scanned(c, key, Interactive), key))
    case _ => Failed(d)
  }

  /** What `run_conflict` checks: nothing else is in the file, and nobody is writing it. */
  predicate StillHolds(d: Replica, key: Key, sha: Digest) {
    (key in d.folder ==> d.folder[key].sha == sha) && key !in d.writers
  }

  function CopyAnswered(d: Replica, remote: Option<Digest>): Replica
    requires d.flight.CopySent?
  {
    var key := d.flight.key;
    if remote.Some? then d.(flight := PullChosen(key, d.flight.expected))
    else Done(ToPush(d, key, None))
  }

  // ── apply_remote_rename ───────────────────────────────────────────────────

  predicate CleanHere(d: Replica, key: Key) {
    && key in d.entries && d.entries[key].state.Clean?
    && Lookup(d.bases, key) == Some(d.entries[key].sha)
  }

  function Forgotten(d: Replica, key: Key): Replica {
    d.(entries := d.entries - {key}, bases := d.bases - {key})
  }

  function RemovedLocally(d: Replica, key: Key): Replica {
    d.(folder := d.folder - {key}, unsaved := d.unsaved - {key}, outside := d.outside - {key})
  }

  function MovedByHub(d: Replica, from: Key, to: Key): Replica {
    FileMoved(d, from, to).(entries := MovedRow(d.entries, from, to), bases := MovedRow(d.bases, from, to))
  }

  /** A source that is not clean stays under its old name, as a new file. */
  function NotFollowed(d: Replica, from: Key): Replica
    requires from in d.entries
  {
    var u := d.(bases := d.bases - {from});
    if d.entries[from].state.Dirty? then u.(rows := d.rows.Enqueue(JobKind.Push(from), Interactive)) else u
  }

  predicate RemoteRenameMoves(d: Replica, from: Key, to: Key) {
    && !(d.cfg.protected && (from in d.folder || from in d.entries))
    && !PendingDirectoryMove(d.rows.jobs, from) && !PendingDirectoryMove(d.rows.jobs, to)
    && from in d.entries && CleanHere(d, from) && from !in d.writers
    && to !in d.entries && from in d.folder
  }

  function ApplyRemoteRename(d: Replica, from: Key, to: Key): Replica {
    if d.cfg.protected && (from in d.folder || from in d.entries) then d
    else if PendingDirectoryMove(d.rows.jobs, from) || PendingDirectoryMove(d.rows.jobs, to) then d
    else if from !in d.entries then d
    else if !CleanHere(d, from) || from in d.writers then NotFollowed(d, from)
    else if to in d.entries then Forgotten(RemovedLocally(d, from), from)
    else if from !in d.folder then Forgotten(d, from)
    else MovedByHub(d, from, to)
  }

  // ── the process ───────────────────────────────────────────────────────────

  /** The process ends, whatever it was doing, and is opened again: what it kept in memory is gone.
      What handles had written and not committed is in the folder, and nobody has looked at it. */
  function Restarted(d: Replica): Replica {
    d.(flight := Idle, running := None, recheck := {}, epoch := 0,
       writers := {}, unsaved := {}, outside := d.outside + d.unsaved)
  }

  /** `housekeeping`: trashed files and conflict snapshots past their time are removed. */
  function Expired(d: Replica, keys: set<Key>, snapshots: set<Digest>): Replica {
    d.(trash := d.trash - keys, kept := d.kept - snapshots)
  }

  // ── one row of the queue ──────────────────────────────────────────────────

  /** `run_one` and `protect_job`. Directory jobs carry no file's bytes: see Replay and Ledger. */
  function RunJob(d: Replica, j: Job, copy: Key): Replica {
    var r := d.(running := Some(j.seqNo));
    match j.kind
    case Push(key) => RunPush(r, key)
    case Delete(key, ifMatch) => if d.cfg.protected then d else RunDelete(r, key, ifMatch)
    case Rename(from, to) => if d.cfg.protected then d else RunRename(r, from, to)
    case ConflictUpload(key, sha, _) => if d.cfg.protected then d else RunConflict(r, key, sha, copy)
    case _ => d
  }
}
