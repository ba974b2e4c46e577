/** Cases in which the engine does not keep what its documentation promises. Each is the failing
    side of a condition proved exactly elsewhere, for any names and bytes. */
module SyncFindings {
  import opened Options
  import opened Keys
  import opened Reconcile
  import opened Jobs
  import opened Tables
  import opened Replicas
  import opened SyncSteps
  import opened SyncInvariant
  import opened SyncSafety
  import opened SyncLandings
  import opened SyncRuns
  import opened SyncAgreement

  /** An unprotected mirror with an idle engine and nothing queued. */
  function Quiet(folder: map<Key, File>, entries: map<Key, Entry>, bases: map<Key, Digest>, clock: nat,
      known: set<Digest>): Replica {
    Replica(Config(false, true), folder, map[], {}, entries, bases, map[], map[], Rows([], 0), {}, {}, {}, {}, 0, clock, known, Idle, None)
  }

  lemma {:induction false} QuietInv(d: Replica)
    requires Truthful(d.folder, d.entries, d.clock) && Accounted(d.folder, d.entries, d.unsaved + d.outside)
    requires d.unsaved <= d.writers && RowsOk(d.rows, d.known) && Seen(d.bases, d.marks, d.known)
    requires Expected(d.flight) == None && FlightSeen(d.flight, d.kept, d.known)
    ensures Inv(d)
  {
    hide Truthful, Accounted, RowsOk, Seen;
    NothingCaptured(d);
  }

  // ── a remote rename onto a file that is being created ─────────────────────

  /** `a` is synced; an editor has just created `b` and written to it. */
  function EditorCreates(a: Key, b: Key, v: Digest, w: Digest): Replica {
    Quiet(map[a := File(v, 0), b := File(w, 1)], map[a := Entry(v, 0, Clean)], map[a := v], 2, {v})
      .(writers := {b}, unsaved := {b})
  }

  /** Another device renames `a` to `b`; following it replaces the editor's bytes, which are
      nowhere else. `apply_remote_rename` asks whether the source is open, not the destination. */
  lemma {:induction false} RemoteRenameTakesAFileBeingCreated(a: Key, b: Key, v: Digest, w: Digest)
    requires a != b && v != "" && w != "" && v != w
    ensures var d := EditorCreates(a, b, v, w); Inv(d) && !KeepsBytes(d, ApplyRemoteRename(d, a, b))
  {
    var d := EditorCreates(a, b, v, w);
    QuietInv(d);
    assert TakesUnsaved(d, a, b) && OnlyThere(d, b) by { hide Inv; }
    hide Inv, KeepsBytes, ApplyRemoteRename, TakesUnsaved, OnlyThere;
    InvGives(d);
    ApplyRemoteRenameKeeps(d, a, b);
  }

  // ── a conflict copy whose check and capture are two steps ─────────────────

  /** `run_conflict` checks the file's digest and then reads the row; here a step may come between. */
  function RowReadLater(d: Replica, k: Key): Replica {
    d.(flight := PullChosen(k, Lookup(d.entries, k)))
  }

  /** The conflict copy of `k` has just been stored on the hub. */
  function CopyStored(k: Key, mine: Digest, past: Digest, copy: Key): Replica {
    Quiet(map[k := File(mine, 0)], map[k := Entry(mine, 0, Dirty)], map[k := past], 1, {past})
      .(kept := {mine}, flight := SendingCopy(k, mine, copy, ConflictRecord(k, mine, false, None), Accepted))
  }

  lemma {:induction false} CopyStoredInv(k: Key, mine: Digest, past: Digest, copy: Key)
    requires mine != "" && past != ""
    ensures Inv(CopyStored(k, mine, past, copy))
  {
    QuietInv(CopyStored(k, mine, past, copy));
  }

  lemma {:induction false} SavedInBetween(d: Replica, k: Key, newer: Digest)
    requires d.rows == Rows([], 0) && d.clock == 1
    ensures CommitWrite(d, k, newer).rows == Rows([Job(1, JobKind.Push(k), Interactive)], 1)
  {
    assert Select([], NotId(JobKind.Push(k).DedupeId())) == [];
  }

  /** A save that arrives after the check and before the row is read is then taken for the
      version that was preserved: the download replaces it. No lock is held in between. */
  lemma {:induction false} CheckAndCaptureMustBeOneStep(k: Key, mine: Digest, past: Digest, newer: Digest,
      theirs: Digest, copy: Key)
    requires mine != "" && past != "" && newer != "" && newer != mine && newer != past && newer != theirs
    ensures var d := CopyStored(k, mine, past, copy);
            var asked := PullBegin(RowReadLater(CommitWrite(d, k, newer), k));
            && Inv(d) && StillHolds(d, k, mine)
            && asked.flight.Pulling? && !KeepsBytes(asked, PullLand(asked, Some(theirs)))
  {
    var d := CopyStored(k, mine, past, copy);
    CopyStoredInv(k, mine, past, copy);
    hide Inv;
    SavedInBetween(d, k, newer);
    var saved := CommitWrite(d, k, newer);
    hide Rows.Enqueue, CommitWrite;
    var asked := PullBegin(RowReadLater(saved, k));
    assert saved.folder[k] == File(newer, 1) && saved.entries[k] == Entry(newer, 1, Dirty) by { CommitWriteIs(d, k, newer); }
    CommitWriteIs(d, k, newer);
    assert !PendingPathMove(saved.rows.jobs, k);
    assert asked == saved.(flight := Pulling(k, Some(Entry(newer, 1, Dirty)), Some(1), 0));
    Overwritten(asked, k, theirs);
  }

  lemma {:induction false} CommitWriteIs(d: Replica, k: Key, sha: Digest)
    ensures var e := CommitWrite(d, k, sha);
            && Lookup(e.folder, k) == Some(File(sha, d.clock)) && Lookup(e.entries, k) == Some(Entry(sha, d.clock, Dirty))
            && e.writers == d.writers && e.outside == d.outside - {k} && e.epoch == d.epoch && e.cfg == d.cfg
            && e.bases == d.bases && e.kept == d.kept && (forall j <- e.folder :: j == k || j in d.folder)
            && e.trash == ClearTrash(d, k)
  {
    hide Rows.Enqueue;
  }

  /** The only file of a mirror, neither preserved nor agreed, does not survive a landing. */
  lemma {:induction false} Overwritten(d: Replica, k: Key, theirs: Digest)
    requires d.flight.Pulling? && d.flight.key == k && LandingAllowed(d)
    requires k in d.folder && (forall j <- d.folder :: j == k) && d.folder[k].sha != theirs
    requires d.trash == map[] && k !in d.outside && !Covered(d.bases, d.kept, k, d.folder[k].sha)
    ensures !KeepsBytes(d, PullLand(d, Some(theirs)))
  {
    var e := PullLand(d, Some(theirs));
    assert e.folder == d.folder[k := File(theirs, d.clock)] && e.trash == ClearTrash(d, k) by { hide LandingAllowed, Rows.Keep; }
    hide PullLand, LandingAllowed, Covered;
    assert !BytesSurvive(d, e, k);
  }

  // ── adopting a tombstone ──────────────────────────────────────────────────

  /** A synced file was edited through a handle, flushed, and removed before its digest was taken. */
  function RemovedUnhashed(k: Key, past: Digest): Replica {
    Quiet(map[], map[k := Entry("", 0, Tombstone)], map[k := past], 1, {past})
  }

  /** The hub has dropped the file too: `Adopt` makes a Clean row and a base of the tombstone. */
  lemma {:induction false} TombstoneAdopted(k: Key, past: Digest)
    requires k != "" && past != ""
    ensures var d := RemovedUnhashed(k, past);
            && Inv(d) && AdoptsUnseen(d, k, None)
            && Decided(d, k, None) == d.(entries := map[k := Entry("", 0, Clean)], bases := map[k := ""])
  {
    var d := RemovedUnhashed(k, past);
    QuietInv(d);
    hide Inv;
    assert Select([], NotKey(k)) == [];
  }

  /** A file created under the name, written, flushed and closed. */
  function WrittenAgain(d: Replica, k: Key, work: Digest): Replica {
    CloseWrite(CommitHandle(HandleWrite(OpenWrite(d, k, true, false), k, work), k), k)
  }

  lemma {:induction false} WrittenAgainIs(k: Key, past: Digest, work: Digest)
    ensures var d := Quiet(map[], map[k := Entry("", 0, Clean)], map[k := ""], 1, {past});
            WrittenAgain(d, k, work) ==
              d.(folder := map[k := File(work, 2)], clock := 3, entries := map[k := Entry("", 2, Dirty)],
                 rows := Rows([Job(1, JobKind.Push(k), Interactive)], 1))
  {
    var d := Quiet(map[], map[k := Entry("", 0, Clean)], map[k := ""], 1, {past});
    var o := OpenWrite(d, k, true, false);
    assert o == d.(folder := map[k := File(EMPTY_FILE, 1)], clock := 2, writers := {k}, unsaved := {k});
    var h := HandleWrite(o, k, work);
    assert h == o.(folder := map[k := File(work, 2)], clock := 3);
    assert Select([], NotId(JobKind.Push(k).DedupeId())) == [];
    var c := CommitHandle(h, k);
    assert c.rows == Rows([Job(1, JobKind.Push(k), Interactive)], 1);
    assert c.unsaved == {} && c.outside == {} && c.entries == map[k := Entry("", 2, Dirty)];
    assert CloseWrite(c, k).writers == {};
  }

  /** The new file, not hashed yet, equals the base that was adopted: the next version on the hub
      is pulled over it. */
  lemma {:induction false} AdoptedTombstoneCostsTheNextFile(k: Key, past: Digest, work: Digest, theirs: Digest)
    requires k != "" && work != "" && theirs != "" && work != theirs
    ensures var d := WrittenAgain(Quiet(map[], map[k := Entry("", 0, Clean)], map[k := ""], 1, {past}), k, work);
            var asked := PullBegin(Decided(d, k, Some(theirs)));
            && d.entries == map[k := Entry("", 2, Dirty)] && d.folder == map[k := File(work, 2)]
            && asked.flight.Pulling? && !KeepsBytes(asked, PullLand(asked, Some(theirs)))
  {
    WrittenAgainIs(k, past, work);
    var d := WrittenAgain(Quiet(map[], map[k := Entry("", 0, Clean)], map[k := ""], 1, {past}), k, work);
    hide WrittenAgain;
    var j := Job(1, JobKind.Push(k), Interactive);
    assert !PendingDirectoryMove([j], k) && !PendingRename([j], k) && !PendingPathMove([j], k);
    assert Decided(d, k, Some(theirs)) == d.(flight := PullChosen(k, Some(Entry("", 2, Dirty))));
    var asked := PullBegin(Decided(d, k, Some(theirs)));
    assert asked == d.(flight := Pulling(k, Some(Entry("", 2, Dirty)), Some(2), 0));
    Overwritten(asked, k, theirs);
  }

  // ── an upload landing on another file's row ───────────────────────────────

  /** `a` is synced; `k` has been written and its upload is queued. */
  function TwoNames(a: Key, k: Key, other: Digest, sent: Digest): System {
    System(Quiet(map[a := File(other, 0), k := File(sent, 1)], map[a := Entry(other, 0, Clean), k := Entry(sent, 1, Dirty)],
                 map[a := other], 2, {other}).(rows := Rows([Job(1, JobKind.Push(k), Interactive)], 1)),
           map[a := other], {})
  }

  lemma {:induction false} TwoNamesInv(a: Key, k: Key, other: Digest, sent: Digest)
    requires a != k && other != "" && sent != ""
    ensures SystemInv(TwoNames(a, k, other, sent))
  {
    var d := TwoNames(a, k, other, sent).mirror;
    TwoRows(a, k, other, sent);
    assert RowsOk(d.rows, d.known);
    hide Truthful, Accounted, RowsOk;
    QuietInv(d);
  }

  lemma {:induction false} TwoRows(a: Key, k: Key, other: Digest, sent: Digest)
    requires a != k && other != "" && sent != ""
    ensures var folder := map[a := File(other, 0), k := File(sent, 1)];
            var entries := map[a := Entry(other, 0, Clean), k := Entry(sent, 1, Dirty)];
            Truthful(folder, entries, 2) && Accounted(folder, entries, {} + {})
  {
  }

  /** The upload of `k` has started. */
  function Sending(a: Key, k: Key, other: Digest, sent: Digest, reply: Reply): Replica {
    TwoNames(a, k, other, sent).mirror.(marks := map[k := sent], known := {other} + {sent}, running := Some(1),
                                        flight := Pushing(k, sent, None, reply))
  }

  lemma {:induction false} UploadStarts(a: Key, k: Key, other: Digest, sent: Digest, copy: Key)
    requires a != k
    ensures var s, st := TwoNames(a, k, other, sent), StartJob(Job(1, JobKind.Push(k), Interactive), copy);
            Enabled(s, st) && Next(s, st) == s.(mirror := Sending(a, k, other, sent, Waiting))
  {
    var s, st := TwoNames(a, k, other, sent), StartJob(Job(1, JobKind.Push(k), Interactive), copy);
    var d := s.mirror;
    assert d.entries[k := Entry(sent, 1, Dirty)] == d.entries;
    assert d.outside - {k} == {};
    assert !PendingDirectoryMove(d.rows.jobs, k);
    assert RunJob(d, st.job, copy) == Sending(a, k, other, sent, Waiting);
  }

  /** `a` has been moved over `k`: the queue will delete `k` on the hub and rename `a`. */
  function MovedOver(a: Key, k: Key, other: Digest, sent: Digest, reply: Reply): Replica {
    Sending(a, k, other, sent, reply).(
      folder := map[k := File(other, 0)], entries := map[k := Entry(other, 0, Clean)], bases := map[k := other],
      rows := Rows([Job(2, JobKind.Delete(k, None), Interactive), Job(3, Rename(a, k), Interactive)], 3), epoch := 1)
  }

  lemma {:induction false} SelectNothing(c: Choice)
    ensures Select([], c) == []
  {
  }

  lemma {:induction false} SelectOne(j: Job, c: Choice)
    ensures Select([j], c) == if Chosen(c, j) then [j] else []
  {
    hide Chosen;
    assert [j][1..] == [];
  }

  lemma {:induction false} QueueAfterMove(a: Key, k: Key)
    requires a != k
    ensures var push, gone, moved := Job(1, JobKind.Push(k), Interactive), Job(2, JobKind.Delete(k, None), Interactive), Job(3, Rename(a, k), Interactive);
            && Rows([push], 1).Keep(NotKey(k)).Enqueue(JobKind.Delete(k, None), Interactive) == Rows([gone], 2)
            && RekeyedRows(Rows([gone], 2), a, k, true) == Rows([gone, moved], 3)
  {
    var push, gone, moved := Job(1, JobKind.Push(k), Interactive), Job(2, JobKind.Delete(k, None), Interactive), Job(3, Rename(a, k), Interactive);
    TagOfRename(Rename(a, k), k);
    SelectOne(push, NotKey(k));
    SelectOne(gone, NotKey(a));
    SelectOne(gone, OnlyKey(a));
    SelectOne(gone, NotId(Rename(a, k).DedupeId()));
    SelectNothing(NotId(JobKind.Delete(k, None).DedupeId()));
    hide JobKind.DedupeId, Select;
    assert [gone] + [moved] == [gone, moved];
  }

  /** The destination has made way: tombstone and delete. */
  function MadeWay(a: Key, k: Key, other: Digest, sent: Digest): Replica {
    Sending(a, k, other, sent, Waiting).(
      folder := map[a := File(other, 0)], entries := map[a := Entry(other, 0, Clean), k := Entry(sent, 1, Tombstone)],
      rows := Rows([Job(2, JobKind.Delete(k, None), Interactive)], 2), epoch := 1)
  }

  lemma {:induction false} MakesWay(a: Key, k: Key, other: Digest, sent: Digest)
    requires a != k
    ensures DestinationGone(Sending(a, k, other, sent, Waiting).(epoch := 1), k) == MadeWay(a, k, other, sent)
  {
    hide Rows.Enqueue, Rows.Keep, RekeyedRows, JobKind.DedupeId;
    QueueAfterMove(a, k);
    var e := Sending(a, k, other, sent, Waiting).(epoch := 1);
    assert e.folder - {k} == map[a := File(other, 0)];
    assert e.entries[k := e.entries[k].(state := Tombstone)] == map[a := Entry(other, 0, Clean), k := Entry(sent, 1, Tombstone)];
    assert e.unsaved - {k} == {} && e.outside - {k} == {};
  }

  lemma {:induction false} FileGoesOver(a: Key, k: Key, other: Digest, sent: Digest)
    requires a != k
    ensures FileMoved(MadeWay(a, k, other, sent), a, k) == MadeWay(a, k, other, sent).(folder := map[k := File(other, 0)])
  {
    var g := MadeWay(a, k, other, sent);
    assert MovedRow(g.folder, a, k) == map[k := File(other, 0)];
    assert g.unsaved - {k} == {} && g.outside - {k} == {};
  }

  lemma {:induction false} LedgerGoesOver(a: Key, k: Key, other: Digest, sent: Digest)
    requires a != k
    ensures Rekeyed(MadeWay(a, k, other, sent).(folder := map[k := File(other, 0)]), a, k) == MovedOver(a, k, other, sent, Waiting)
  {
    hide Rows.Enqueue, Rows.Keep, RekeyedRows, JobKind.DedupeId;
    QueueAfterMove(a, k);
    var m := MadeWay(a, k, other, sent).(folder := map[k := File(other, 0)]);
    assert MovedRow(m.entries, a, k) == map[k := Entry(other, 0, Clean)] && MovedRow(m.bases, a, k) == map[k := other];
    assert ClearTrash(m, k) == map[] && MovedRecord(m.conflicts, a, k) == map[] && MovedMember(m.writers, a, k) == {};
  }

  lemma {:induction false} MovesOver(a: Key, k: Key, other: Digest, sent: Digest)
    requires a != k
    ensures RenameLocal(Sending(a, k, other, sent, Waiting), a, k) == MovedOver(a, k, other, sent, Waiting)
  {
    hide DestinationGone, FileMoved, Rekeyed, MadeWay, MovedOver, SavedOver;
    MakesWay(a, k, other, sent);
    FileGoesOver(a, k, other, sent);
    LedgerGoesOver(a, k, other, sent);
  }

  /** While `k` is being uploaded, the synced file `a` is moved over it; the hub accepts the upload,
      and the reply puts its digest beside the Clean row of the other file. */
  lemma {:induction false} LateReplyCanMeetAnotherFile(a: Key, k: Key, other: Digest, sent: Digest, copy: Key)
    requires a != k && other != "" && sent != "" && other != sent
    ensures var s0 := TwoNames(a, k, other, sent);
            var upload := StartJob(Job(1, JobKind.Push(k), Interactive), copy);
            && SystemInv(s0) && Agreed(s0.mirror) && Enabled(s0, upload)
            && var s2 := Next(Next(s0, upload), Move(a, k));
            && Enabled(s2, HubAnswers)
            && var s3 := Next(s2, HubAnswers);
            && Agreed(s3.mirror) && Enabled(s3, Land)
            && var d := Next(s3, Land).mirror;
            !Agreed(d) && d.entries == map[k := Entry(other, 0, Clean)] && Lookup(d.bases, k) == Some(sent)
  {
    TwoNamesInv(a, k, other, sent);
    assert Agreed(TwoNames(a, k, other, sent).mirror);
    hide SystemInv, RenameLocal, RunJob, Sending, MovedOver, TwoNames, LandPush, Agreed, Enabled, Answer, PushMoved;
    UploadStarts(a, k, other, sent, copy);
    MovesOver(a, k, other, sent);
    MoveIsRename(TwoNames(a, k, other, sent).(mirror := Sending(a, k, other, sent, Waiting)), a, k);
    HubTakes(a, k, other, sent);
    ReplyMeets(a, k, other, sent);
  }

  lemma {:induction false} MoveIsRename(s: System, from: Key, to: Key)
    ensures Enabled(s, Move(from, to)) && Next(s, Move(from, to)) == s.(mirror := RenameLocal(s.mirror, from, to))
  {
    hide RenameLocal;
  }

  lemma {:induction false} HubTakes(a: Key, k: Key, other: Digest, sent: Digest)
    requires a != k
    ensures var s2 := TwoNames(a, k, other, sent).(mirror := MovedOver(a, k, other, sent, Waiting));
            && Enabled(s2, HubAnswers)
            && Next(s2, HubAnswers) == System(MovedOver(a, k, other, sent, Accepted), map[a := other, k := sent], {})
            && Agreed(MovedOver(a, k, other, sent, Accepted))
  {
  }

  lemma {:induction false} ReplyMeets(a: Key, k: Key, other: Digest, sent: Digest)
    requires a != k && other != sent
    ensures var s3 := System(MovedOver(a, k, other, sent, Accepted), map[a := other, k := sent], {});
            && Enabled(s3, Land)
            && var d := Next(s3, Land).mirror;
            !Agreed(d) && d.entries == map[k := Entry(other, 0, Clean)] && Lookup(d.bases, k) == Some(sent)
  {
    var d := MovedOver(a, k, other, sent, Accepted);
    LandsUnderItsName(a, k, other, sent);
    assert Agreed(d) && Overtaken(d, k, sent);
    hide ResultKey, Rows.Keep, Agree, Overtaken, Agreed;
    LandPushAgrees(d);
  }

  lemma {:induction false} LandsUnderItsName(a: Key, k: Key, other: Digest, sent: Digest)
    requires a != k
    ensures ResultKey(MovedOver(a, k, other, sent, Accepted).rows.jobs, k) == k
  {
    var rows := MovedOver(a, k, other, sent, Accepted).rows.jobs;
    assert rows[1..] == [rows[1]] && rows[1..][1..] == [];
    assert ResultKey(rows[1..][1..], k) == k && ResultKey(rows[1..], k) == k;
  }

  // ── a rename forgotten with its source's name ─────────────────────────────

  lemma {:induction false} TagOfRename(kind: JobKind, key: Key)
    requires kind.Rename?
    ensures kind.DedupeId() != JobKind.Delete(key, None).DedupeId()
  {
    assert kind.DedupeId()[0] == 'r' && JobKind.Delete(key, None).DedupeId()[0] == 'd';
  }

  /** `note_local_gone` drops every queued job whose first key is the one that went, and the
      first key of a rename is its source: a queued rename survives the disappearance of a file
      exactly when it is not a rename away from that name. */
  lemma {:induction false} QueuedRenameSurvives(d: Replica, key: Key, j: Job)
    requires key in d.entries && j in d.rows.jobs && j.kind.Rename? && j.seqNo <= d.rows.counter
    ensures j in Gone(d, key).rows.jobs <==> j.kind.from != key
  {
    TagOfRename(j.kind, key);
  }

  /** `a` has been renamed to `b`, the rename is queued, and a new `a` has been written. */
  function RenamedAndRewritten(a: Key, b: Key, v: Digest, x: Digest): Replica {
    Quiet(map[a := File(x, 1), b := File(v, 0)],
          map[a := Entry(x, 1, Dirty), b := Entry(v, 0, Clean)], map[b := v], 2, {v})
      .(rows := Rows([Job(1, Rename(a, b), Interactive), Job(2, JobKind.Push(a), Interactive)], 2))
  }

  lemma {:induction false} BothRowsGo(a: Key, b: Key)
    ensures Select([Job(1, Rename(a, b), Interactive), Job(2, JobKind.Push(a), Interactive)], NotKey(a)) == []
  {
    var rows := [Job(1, Rename(a, b), Interactive), Job(2, JobKind.Push(a), Interactive)];
    assert rows[1..] == [rows[1]] && rows[1..][1..] == [];
    assert Select(rows[1..][1..], NotKey(a)) == [];
    assert Select(rows[1..], NotKey(a)) == [];
  }

  lemma {:induction false} NewFileRemoved(a: Key, b: Key, v: Digest, x: Digest)
    requires a != b
    ensures Deleted(RenamedAndRewritten(a, b, v, x), a) == Quiet(map[b := File(v, 0)], map[b := Entry(v, 0, Clean)], map[b := v], 2, {v}).(rows := Rows([], 2))
  {
    BothRowsGo(a, b);
    var r := Deleted(RenamedAndRewritten(a, b, v, x), a);
    assert r.folder == map[b := File(v, 0)] && r.entries == map[b := Entry(v, 0, Clean)] && r.bases == map[b := v];
    assert r.unsaved == {} && r.outside == {};
  }

  lemma {:induction false} TwoFiles(a: Key, b: Key, v: Digest, x: Digest)
    requires a != b && v != "" && x != ""
    ensures var folder := map[a := File(x, 1), b := File(v, 0)];
            var entries := map[a := Entry(x, 1, Dirty), b := Entry(v, 0, Clean)];
            Truthful(folder, entries, 2) && Accounted(folder, entries, {} + {})
  {
  }

  lemma {:induction false} RenamedAndRewrittenInv(a: Key, b: Key, v: Digest, x: Digest)
    requires a != b && v != "" && x != ""
    ensures Inv(RenamedAndRewritten(a, b, v, x))
  {
    var d := RenamedAndRewritten(a, b, v, x);
    TwoFiles(a, b, v, x);
    assert RowsOk(d.rows, d.known);
    hide Truthful, Accounted, RowsOk;
    QuietInv(d);
  }

  lemma {:induction false} MissingUpstreamIsTrashed(d: Replica, b: Key, v: Digest)
    requires b != "" && d.rows.jobs == [] && b !in d.writers && !d.cfg.protected
    requires Lookup(d.folder, b) == Some(File(v, 0)) && Lookup(d.entries, b) == Some(Entry(v, 0, Clean)) && Lookup(d.bases, b) == Some(v)
    ensures var looked := Decided(d, b, None); b !in looked.folder && Lookup(looked.trash, b) == Some(v)
  {
    hide Rows.Keep;
    assert Decide(LiveSha(d, b), Lookup(d.bases, b), None) == TrashLocal;
  }

  /** Removing the new `a` forgets the rename; the hub, never told, has no `b`, and the next look
      at it moves the renamed file to the trash. */
  lemma {:induction false} ForgottenRenameTrashesTheFile(a: Key, b: Key, v: Digest, x: Digest)
    requires a != b && b != "" && v != "" && x != ""
    ensures var d := RenamedAndRewritten(a, b, v, x);
            var looked := Decided(Deleted(d, a), b, None);
            && Inv(d) && Deleted(d, a).rows.jobs == [] && b !in looked.folder && Lookup(looked.trash, b) == Some(v)
  {
    RenamedAndRewrittenInv(a, b, v, x);
    hide Inv, RenamedAndRewritten, Deleted, Decided;
    NewFileRemoved(a, b, v, x);
    MissingUpstreamIsTrashed(Deleted(RenamedAndRewritten(a, b, v, x), a), b, v);
  }
}
