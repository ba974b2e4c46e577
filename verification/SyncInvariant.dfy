/** What holds of a replica between any two critical sections, and that local work keeps it. */
module SyncInvariant {
  import opened Options
  import opened Keys
  import opened Reconcile
  import opened Jobs
  import opened Tables
  import opened Replicas

  // ── rows ──────────────────────────────────────────────────────────────────

  predicate Ascending(jobs: seq<Job>) {
    forall i, j :: 0 <= i < j < |jobs| ==> jobs[i].seqNo < jobs[j].seqNo
  }

  /** A fixed precondition names bytes this device has seen. */
  predicate KindSeen(kind: JobKind, known: set<Digest>) {
    kind.Delete? && kind.ifMatch.Some? ==> kind.ifMatch.value in known
  }

  /** One pending row per id. */
  predicate OnePerId(jobs: seq<Job>) {
    forall i, j :: i in jobs && j in jobs && i.kind.DedupeId() == j.kind.DedupeId() ==> i == j
  }

  /** Numbers grow and are never reused, no two rows have one id, and fixed preconditions are seen ones. */
  predicate RowsOk(rows: Rows, known: set<Digest>) {
    && Ascending(rows.jobs) && OnePerId(rows.jobs)
    && forall j <- rows.jobs :: j.seqNo <= rows.counter && KindSeen(j.kind, known)
  }

  lemma {:induction false} SelectAscending(jobs: seq<Job>, c: Choice)
    requires Ascending(jobs)
    ensures Ascending(Select(jobs, c))
  {
    if jobs != [] {
      SelectAscending(jobs[1..], c);
      var r := Select(jobs[1..], c);
      forall j | j in r ensures jobs[0].seqNo < j.seqNo {
        assert j in jobs[1..];
      }
    }
  }

  lemma {:induction false} KeepOk(rows: Rows, c: Choice, known: set<Digest>)
    requires RowsOk(rows, known)
    ensures RowsOk(rows.Keep(c), known)
  {
    SelectAscending(rows.jobs, c);
  }

  lemma {:induction false} EnqueueOk(rows: Rows, kind: JobKind, priority: Priority, known: set<Digest>)
    requires RowsOk(rows, known) && KindSeen(kind, known)
    ensures RowsOk(rows.Enqueue(kind, priority), known)
  {
    SelectAscending(rows.jobs, NotId(kind.DedupeId()));
    hide KindSeen, Chosen;
  }

  lemma {:induction false} EnsureOk(rows: Rows, kind: JobKind, known: set<Digest>)
    requires RowsOk(rows, known) && KindSeen(kind, known)
    ensures RowsOk(rows.Ensure(kind), known)
  {
    hide RowsOk, KindSeen, Rows.Has, Rows.Enqueue;
    if !rows.Has(kind.DedupeId()) {
      EnqueueOk(rows, kind, Background, known);
    }
  }

  lemma {:induction false} EnqueueAllOk(rows: Rows, jobs: seq<Job>, from: Key, to: Key, known: set<Digest>)
    requires RowsOk(rows, known) && forall j <- jobs :: KindSeen(j.kind, known)
    ensures RowsOk(rows.EnqueueAll(RetargetAll(jobs, from, to)), known)
    decreases |jobs|
  {
    if jobs != [] {
      var kind := Retarget(jobs[0].kind, from, to);
      assert KindSeen(jobs[0].kind, known);
      assert KindSeen(kind, known);
      hide RowsOk, KindSeen, Rows.Enqueue, Retarget;
      EnqueueOk(rows, kind, Interactive, known);
      EnqueueAllOk(rows.Enqueue(kind, Interactive), jobs[1..], from, to, known);
      assert RetargetAll(jobs, from, to)[1..] == RetargetAll(jobs[1..], from, to);
    }
  }

  lemma {:induction false} RekeyedRowsOk(rows: Rows, from: Key, to: Key, sendRename: bool, known: set<Digest>)
    requires RowsOk(rows, known)
    ensures RowsOk(RekeyedRows(rows, from, to, sendRename), known)
  {
    KeepOk(rows, NotKey(from), known);
    EnqueueOk(rows.Keep(NotKey(from)), Rename(from, to), Interactive, known);
    forall j | j in Select(rows.jobs, OnlyKey(from)) ensures KindSeen(j.kind, known) {
      assert j in rows.jobs;
    }
    var left := rows.Keep(NotKey(from));
    hide Rows.Enqueue, Rows.Keep, KindSeen, RowsOk, Select;
    EnqueueAllOk(if sendRename then left.Enqueue(Rename(from, to), Interactive) else left,
                 Select(rows.jobs, OnlyKey(from)), from, to, known);
  }

  lemma {:induction false} MoreSeen(rows: Rows, known: set<Digest>, more: set<Digest>)
    requires RowsOk(rows, known) && known <= more
    ensures RowsOk(rows, more)
  {
  }

  // ── digests ───────────────────────────────────────────────────────────────

  predicate ValuesSeen(m: map<Key, Digest>, known: set<Digest>) {
    forall k <- m :: m[k] in known
  }

  /** Every digest the replica may name in a precondition is one it has seen. */
  predicate Seen(bases: map<Key, Digest>, marks: map<Key, Digest>, known: set<Digest>) {
    ValuesSeen(bases, known) && ValuesSeen(marks, known) && "" !in known
  }

  lemma {:induction false} SeenWithout(bases: map<Key, Digest>, marks: map<Key, Digest>, known: set<Digest>, key: Key)
    requires Seen(bases, marks, known)
    ensures Seen(bases - {key}, marks, known) && Seen(bases, marks - {key}, known)
  {
  }

  lemma {:induction false} SeenWith(bases: map<Key, Digest>, marks: map<Key, Digest>, known: set<Digest>, key: Key,
      sha: Digest)
    requires Seen(bases, marks, known) && sha != ""
    ensures Seen(bases, marks, known + {sha})
    ensures Seen(bases[key := sha], marks, known + {sha}) && Seen(bases, marks[key := sha], known + {sha})
    ensures sha in known ==> Seen(bases[key := sha], marks, known)
  {
  }

  lemma {:induction false} SeenMoved(bases: map<Key, Digest>, marks: map<Key, Digest>, known: set<Digest>, from: Key,
      to: Key)
    requires Seen(bases, marks, known)
    ensures Seen(MovedRow(bases, from, to), marks, known)
  {
  }

  // ── bytes that may go ─────────────────────────────────────────────────────

  /** The hub has had these bytes under this key, or the conflict store has them. */
  predicate Covered(bases: map<Key, Digest>, kept: set<Digest>, key: Key, sha: Digest) {
    sha in kept || (key in bases && bases[key] == sha)
  }

  /** Wherever the version a pull was decided against has gone, its bytes may be replaced. */
  ghost predicate Captured(folder: map<Key, File>, bases: map<Key, Digest>, kept: set<Digest>, clock: nat,
      expected: Option<Entry>) {
    expected.Some? ==>
      && expected.value.mtime < clock
      && forall j <- folder :: folder[j].id == expected.value.mtime ==> Covered(bases, kept, j, folder[j].sha)
  }

  lemma {:induction false} CapturedNew(folder: map<Key, File>, bases: map<Key, Digest>, kept: set<Digest>, clock: nat,
      expected: Option<Entry>, key: Key, sha: Digest)
    requires Captured(folder, bases, kept, clock, expected)
    ensures Captured(folder[key := File(sha, clock)], bases, kept, clock + 1, expected)
  {
  }

  lemma {:induction false} CapturedGone(folder: map<Key, File>, bases: map<Key, Digest>, kept: set<Digest>,
      clock: nat, expected: Option<Entry>, key: Key)
    requires Captured(folder, bases, kept, clock, expected)
    ensures Captured(folder - {key}, bases, kept, clock, expected)
    ensures key !in folder ==> Captured(folder, bases - {key}, kept, clock, expected)
  {
  }

  lemma {:induction false} CapturedMoved(folder: map<Key, File>, bases: map<Key, Digest>, kept: set<Digest>,
      clock: nat, expected: Option<Entry>, from: Key, to: Key)
    requires Captured(folder, bases, kept, clock, expected) && from != to && from in folder
    ensures Captured(MovedRow(folder, from, to), MovedRow(bases, from, to), kept, clock, expected)
  {
  }

  // ── the flight ────────────────────────────────────────────────────────────

  function Expected(f: Flight): Option<Entry> {
    match f
    case PullChosen(_, e) => e
    case Pulling(_, e, _, _) => e
    case CopySent(_, e) => e
    case _ => None
  }

  /** Hub digests are never empty. */
  predicate ReplyOk(r: Reply) {
    r.Refused? && r.current.Some? ==> r.current.value != ""
  }

  predicate FlightSeen(f: Flight, kept: set<Digest>, known: set<Digest>) {
    match f
    case Pushing(_, sha, base, reply) => sha in known && (base.Some? ==> base.value in known) && ReplyOk(reply)
    case Deleting(_, sha, _, reply) => sha in known && ReplyOk(reply)
    case Renaming(_, _, _, reply) => ReplyOk(reply)
    case SendingCopy(_, sha, _, _, _) => sha in kept
    case _ => true
  }

  /** What holds whatever the engine is doing. */
  ghost predicate Consistent(d: Replica) {
    && Sound(d)
    && RowsOk(d.rows, d.known)
    && Seen(d.bases, d.marks, d.known)
  }

  ghost predicate Inv(d: Replica) {
    && Consistent(d)
    && Captured(d.folder, d.bases, d.kept, d.clock, Expected(d.flight))
    && FlightSeen(d.flight, d.kept, d.known)
  }

  // ── local work keeps it, whatever request is in flight ────────────────────

  lemma {:induction false} CommitWriteInv(d: Replica, key: Key, sha: Digest)
    requires Inv(d) && sha != ""
    ensures Inv(CommitWrite(d, key, sha))
  {
    EnqueueOk(d.rows, JobKind.Push(key), Interactive, d.known);
    hide Sound, RowsOk, Seen, Captured, Rows.Enqueue, KindSeen;
    CommitWriteSound(d, key, sha);
    CapturedNew(d.folder, d.bases, d.kept, d.clock, Expected(d.flight), key, sha);
  }

  lemma {:induction false} OpenWriteInv(d: Replica, key: Key, create: bool, truncate: bool)
    requires Inv(d)
    ensures Inv(OpenWrite(d, key, create, truncate))
  {
    hide Sound, RowsOk, Seen, Captured;
    OpenWriteSound(d, key, create, truncate);
    CapturedNew(d.folder, d.bases, d.kept, d.clock, Expected(d.flight), key, EMPTY_FILE);
  }

  lemma {:induction false} HandleWriteInv(d: Replica, key: Key, sha: Digest)
    requires Inv(d) && sha != ""
    ensures Inv(HandleWrite(d, key, sha))
  {
    hide Sound, RowsOk, Seen, Captured;
    HandleWriteSound(d, key, sha);
    CapturedNew(d.folder, d.bases, d.kept, d.clock, Expected(d.flight), key, sha);
  }

  lemma {:induction false} CommitHandleInv(d: Replica, key: Key)
    requires Inv(d)
    ensures Inv(CommitHandle(d, key))
  {
    EnqueueOk(d.rows, JobKind.Push(key), Interactive, d.known);
    hide Sound, RowsOk, Seen, Captured, Rows.Enqueue;
    CommitHandleSound(d, key);
  }

  lemma {:induction false} CloseWriteInv(d: Replica, key: Key)
    requires Inv(d)
    ensures Inv(CloseWrite(d, key))
  {
    hide Truthful, Accounted, RowsOk, Seen, Captured;
  }

  lemma {:induction false} TombstonedConsistent(d: Replica, key: Key)
    requires Consistent(d) && key !in d.folder && key in d.entries
    ensures Consistent(Tombstoned(d, key))
  {
    KeepOk(d.rows, NotKey(key), d.known);
    EnqueueOk(d.rows.Keep(NotKey(key)), JobKind.Delete(key, None), Interactive, d.known);
    hide Truthful, Accounted, RowsOk, Seen, Rows.Enqueue, Rows.Keep;
    RowGone(d.folder, d.entries, d.clock, d.unsaved + d.outside, key);
  }

  lemma {:induction false} DroppedConsistent(d: Replica, key: Key)
    requires Consistent(d) && (key in d.folder ==> key in d.unsaved + d.outside)
    ensures Consistent(Dropped(d, key))
  {
    KeepOk(d.rows, NotKey(key), d.known);
    hide Truthful, Accounted, RowsOk, Seen, Rows.Enqueue, Rows.Keep;
    RowGone(d.folder, d.entries, d.clock, d.unsaved + d.outside, key);
    SeenWithout(d.bases, d.marks, d.known, key);
  }

  lemma {:induction false} GoneConsistent(d: Replica, key: Key)
    requires Consistent(d) && key !in d.folder
    ensures Consistent(Gone(d, key)) && Gone(d, key).folder == d.folder && Gone(d, key).flight == d.flight
  {
    hide Consistent;
    if key in d.entries {
      TombstonedConsistent(d, key);
      DroppedConsistent(d, key);
    }
  }

  lemma {:induction false} GoneInv(d: Replica, key: Key)
    requires Inv(d) && key !in d.folder
    ensures Inv(Gone(d, key))
  {
    GoneConsistent(d, key);
    hide Consistent, Captured, Rows.Enqueue, Rows.Keep;
    CapturedGone(d.folder, d.bases, d.kept, d.clock, Expected(d.flight), key);
  }

  lemma {:induction false} DeletedInv(d: Replica, key: Key)
    requires Inv(d)
    ensures Inv(Deleted(d, key))
  {
    var r := d.(folder := d.folder - {key}, unsaved := d.unsaved - {key}, outside := d.outside - {key});
    FileGone(d.folder, d.entries, d.clock, d.unsaved + d.outside, key);
    assert (d.unsaved + d.outside) - {key} == r.unsaved + r.outside;
    assert Sound(r) by { hide Truthful, Accounted; }
    hide Sound, RowsOk, Seen, Captured, Gone;
    CapturedGone(d.folder, d.bases, d.kept, d.clock, Expected(d.flight), key);
    GoneInv(r, key);
  }

  lemma {:induction false} DestinationGoneInv(d: Replica, to: Key)
    requires Inv(d)
    ensures Inv(DestinationGone(d, to))
  {
    if to in d.entries {
      DeletedInv(d, to);
      var r := Deleted(d, to);
      assert r.known == d.known && (to in d.bases ==> d.bases[to] in d.known) by { hide Rows.Keep, Rows.Enqueue; }
      if to in d.bases {
        EnqueueOk(r.rows, JobKind.Delete(to, Some(d.bases[to])), Interactive, d.known);
      }
      hide Sound, RowsOk, Seen, Captured, Deleted, Rows.Enqueue;
    }
  }

  lemma {:induction false} SavedOverInv(d: Replica, from: Key, to: Key)
    requires Inv(d) && from != to && from in d.folder && to in d.entries && from !in d.bases
    ensures Inv(SavedOver(d, from, to))
  {
    var left := d.rows.Keep(NotKey(from));
    KeepOk(d.rows, NotKey(from), d.known);
    EnqueueOk(left, JobKind.Delete(from, None), Interactive, d.known);
    var told := if from in d.marks then left.Enqueue(JobKind.Delete(from, None), Interactive) else left;
    KeepOk(told, NotKey(to), d.known);
    EnqueueOk(told.Keep(NotKey(to)), JobKind.Push(to), Interactive, d.known);
    assert MovedRow(d.bases, from, to) == d.bases;
    hide Sound, RowsOk, Seen, Captured, Rows.Keep, Rows.Enqueue;
    SavedOverSound(d, from, to);
    CapturedMoved(d.folder, d.bases, d.kept, d.clock, Expected(d.flight), from, to);
  }

  lemma {:induction false} RekeyedInv(d: Replica, from: Key, to: Key)
    requires Inv(d) && from != to && from in d.folder
    ensures Inv(Rekeyed(FileMoved(d, from, to), from, to))
  {
    var bases := MovedRow(d.bases, from, to);
    var rows := RekeyedRows(d.rows, from, to, to in bases || from in d.marks);
    RekeyedRowsOk(d.rows, from, to, to in bases || from in d.marks, d.known);
    EnqueueOk(rows, JobKind.Push(to), Interactive, d.known);
    hide Sound, RowsOk, Seen, Captured, RekeyedRows, Rows.Enqueue, MovedRow, MovedMember, MovedRecord;
    RekeyedSound(d, from, to);
    SeenMoved(d.bases, d.marks, d.known, from, to);
    CapturedMoved(d.folder, d.bases, d.kept, d.clock, Expected(d.flight), from, to);
  }

  lemma {:induction false} EpochInv(d: Replica)
    requires Inv(d)
    ensures Inv(d.(epoch := d.epoch + 1))
  {
    hide Truthful, Accounted, RowsOk, Seen, Captured;
  }

  lemma {:induction false} RenameLocalInv(d: Replica, from: Key, to: Key)
    requires Inv(d)
    ensures Inv(RenameLocal(d, from, to))
  {
    hide Inv, Rekeyed, FileMoved, SavedOver, DestinationGone;
    if from != to && from in d.folder {
      var e := d.(epoch := d.epoch + 1);
      EpochInv(d);
      if from !in d.bases && to in d.entries {
        SavedOverInv(e, from, to);
      } else {
        DestinationGoneInv(e, to);
        DestinationGoneFolder(e, to);
        RekeyedInv(DestinationGone(e, to), from, to);
      }
    }
  }

  lemma {:induction false} ExternalInv(d: Replica, key: Key, bytes: Option<Digest>)
    requires Inv(d) && (bytes.Some? ==> bytes.value != "")
    ensures Inv(External(d, key, bytes))
  {
    hide Sound, RowsOk, Seen, Captured;
    ExternalSound(d, key, bytes);
    CapturedNew(d.folder, d.bases, d.kept, d.clock, Expected(d.flight), key, if bytes.Some? then bytes.value else "");
    CapturedGone(d.folder, d.bases, d.kept, d.clock, Expected(d.flight), key);
  }
}
