/** What one mirror holds, and what its user does to it: the local operations of
    `src/mirror/sync.rs` on files, with the queue operations of `src/mirror/store.rs`. */
module Replicas {
  import opened Options
  import opened Keys
  import opened Reconcile
  import opened Jobs
  import opened Tables

  // ── the queue ─────────────────────────────────────────────────────────────

  /** The selections of rows that the store makes. */
  datatype Choice = NotId(id: string) | NotKey(key: Key) | OnlyKey(key: Key) | NotNumber(seqNo: nat)

  predicate Chosen(c: Choice, j: Job) {
    match c
    case NotId(id) => j.kind.DedupeId() != id
    case NotKey(k) => j.kind.MainKey() != k
    case OnlyKey(k) => j.kind.MainKey() == k
    case NotNumber(n) => j.seqNo != n
  }

  function Select(jobs: seq<Job>, c: Choice): (r: seq<Job>)
    ensures forall j :: j in r <==> j in jobs && Chosen(c, j)
  {
    if jobs == [] then [] else (if Chosen(c, jobs[0]) then [jobs[0]] else []) + Select(jobs[1..], c)
  }

  /** The job table and the counter its numbers come from. */
  datatype Rows = Rows(jobs: seq<Job>, counter: nat) {
    function Keep(c: Choice): Rows { this.(jobs := Select(jobs, c)) }

    /** `enqueue_with_priority`. */
    function Enqueue(kind: JobKind, priority: Priority): Rows {
      Rows(Select(jobs, NotId(kind.DedupeId())) + [Job(counter + 1, kind, priority)], counter + 1)
    }

    predicate Has(id: string) { exists j <- jobs :: j.kind.DedupeId() == id }

    /** `ensure_job`. */
    function Ensure(kind: JobKind): Rows {
      if Has(kind.DedupeId()) then this else Enqueue(kind, Background)
    }

    function EnqueueAll(kinds: seq<JobKind>): Rows
      decreases |kinds|
    {
      if kinds == [] then this else Enqueue(kinds[0], Interactive).EnqueueAll(kinds[1..])
    }
  }

  predicate PendingDirectoryMove(jobs: seq<Job>, key: Key) {
    exists j <- jobs :: j.kind.RenameDir? && (Under(key, j.kind.from) || Under(key, j.kind.to))
  }

  predicate PendingPathMove(jobs: seq<Job>, key: Key) {
    exists j <- jobs :: (j.kind.Rename? || j.kind.RenameDir?) && (Overlaps(key, j.kind.from) || Overlaps(key, j.kind.to))
  }

  predicate PendingRename(jobs: seq<Job>, key: Key) {
    exists j <- jobs :: j.kind.Rename? && (j.kind.from == key || j.kind.to == key)
  }

  /** One queued move's effect on a key. */
  function FollowMove(kind: JobKind, key: Key): Key {
    match kind
    case Rename(f, t) => if key == f then t else key
    case RenameDir(f, t, _, _, applied, _) => if applied && Under(key, f) then Mapped(key, f, t) else key
    case _ => key
  }

  /** `local_result_key`: where the queued local moves have taken a key. */
  function ResultKey(jobs: seq<Job>, key: Key): Key {
    if jobs == [] then key else ResultKey(jobs[1..], FollowMove(jobs[0].kind, key))
  }

  // ── the state ─────────────────────────────────────────────────────────────

  /** A version of a local file. `id` is its fingerprint (inode, size and times), new for each
      version; an entry's `mtime` holds the `id` of the version it describes. */
  datatype File = File(sha: Digest, id: nat)

  const EMPTY_FILE: Digest := "e3b0c442"

  datatype Config = Config(protected: bool, propagate: bool)

  /** What the hub has answered to the request in flight. */
  datatype Reply = Waiting | Accepted | Refused(current: Option<Digest>) | Missing | TargetTaken

  /** Where the engine thread is between two critical sections. */
  datatype Flight =
    | Idle
    | PullChosen(key: Key, expected: Option<Entry>)
    | Pulling(key: Key, expected: Option<Entry>, stamp: Option<nat>, epoch: nat)
    | ConflictChosen(key: Key, entry: Entry, base: Option<Digest>, remote: Digest)
    | Pushing(key: Key, sha: Digest, base: Option<Digest>, reply: Reply)
    | Deleting(key: Key, sha: Digest, fixed: bool, reply: Reply)
    | Renaming(from: Key, to: Key, base: Option<Digest>, reply: Reply)
    | TargetAsked(to: Key, localTo: Key)
    | SendingCopy(key: Key, sha: Digest, copy: Key, record: ConflictRecord, reply: Reply)
    | CopySent(key: Key, expected: Option<Entry>)

  datatype Replica = Replica(
    cfg: Config,
    folder: map<Key, File>, trash: map<Key, Digest>, kept: set<Digest>,
    entries: map<Key, Entry>, bases: map<Key, Digest>, marks: map<Key, Digest>,
    conflicts: map<Key, ConflictRecord>, rows: Rows,
    /** keys with an open write handle; those whose handle has written since the last flush;
        those changed around the mount and not scanned since */
    writers: set<Key>, unsaved: set<Key>, outside: set<Key>,
    recheck: set<Key>, epoch: nat, clock: nat,
    /** every digest this device has downloaded, uploaded or adopted */
    known: set<Digest>,
    flight: Flight, running: Option<nat>)

  // ── local operations ──────────────────────────────────────────────────────

  function ClearTrash(d: Replica, key: Key): map<Key, Digest> {
    if d.cfg.protected then d.trash else d.trash - {key}
  }

  /** `commit_write`: bytes into the folder, entry Dirty, push queued. */
  function CommitWrite(d: Replica, key: Key, sha: Digest): Replica {
    d.(folder := d.folder[key := File(sha, d.clock)], clock := d.clock + 1,
       entries := d.entries[key := Entry(sha, d.clock, Dirty)], trash := ClearTrash(d, key),
       unsaved := d.unsaved - {key}, outside := d.outside - {key},
       rows := d.rows.Enqueue(JobKind.Push(key), Interactive))
  }

  /** `open_local_write`: a created or truncated file waits for its handle to commit it. */
  function OpenWrite(d: Replica, key: Key, create: bool, truncate: bool): Replica {
    if (create <==> key in d.folder) then d
    else
      var o := d.(writers := d.writers + {key});
      if create || truncate
      then o.(folder := d.folder[key := File(EMPTY_FILE, d.clock)], clock := d.clock + 1, unsaved := d.unsaved + {key})
      else o
  }

  function HandleWrite(d: Replica, key: Key, sha: Digest): Replica {
    if key !in d.writers || key !in d.folder then d
    else d.(folder := d.folder[key := File(sha, d.clock)], clock := d.clock + 1, unsaved := d.unsaved + {key})
  }

  /** `commit_local_file`: the digest is left for the engine. */
  function CommitHandle(d: Replica, key: Key): Replica {
    if key !in d.folder then d
    else d.(entries := d.entries[key := Entry("", d.folder[key].id, Dirty)],
            unsaved := d.unsaved - {key}, outside := d.outside - {key},
            rows := d.rows.Enqueue(JobKind.Push(key), Interactive))
  }

  /** `note_close_write`; a handle that wrote has been flushed before. */
  function CloseWrite(d: Replica, key: Key): Replica {
    if key in d.unsaved then d else d.(writers := d.writers - {key})
  }

  /** The hub may have the file: it is to be deleted there. */
  function Tombstoned(d: Replica, key: Key): Replica
    requires key in d.entries
  {
    d.(entries := d.entries[key := d.entries[key].(state := Tombstone)],
       rows := d.rows.Keep(NotKey(key)).Enqueue(JobKind.Delete(key, None), Interactive))
  }

  function Dropped(d: Replica, key: Key): Replica {
    d.(entries := d.entries - {key}, bases := d.bases - {key}, rows := d.rows.Keep(NotKey(key)))
  }

  /** `note_local_gone`. */
  function Gone(d: Replica, key: Key): Replica {
    if key !in d.entries then d
    else if d.cfg.propagate && (key in d.bases || key in d.marks) then Tombstoned(d, key)
    else Dropped(d, key)
  }

  /** `delete_local`. */
  function Deleted(d: Replica, key: Key): Replica {
    Gone(d.(folder := d.folder - {key}, unsaved := d.unsaved - {key}, outside := d.outside - {key}), key)
  }

  function MovedRow<V>(m: map<Key, V>, from: Key, to: Key): map<Key, V> {
    if from in m then (m - {from})[to := m[from]] else m
  }

  function MovedMember(s: set<Key>, from: Key, to: Key): set<Key> {
    if from in s then s - {from} + {to} else s
  }

  /** `rename(2)`: the file and what is true of it take the new name. */
  function FileMoved(d: Replica, from: Key, to: Key): Replica {
    d.(folder := MovedRow(d.folder, from, to),
       unsaved := MovedMember(d.unsaved - {to}, from, to),
       outside := MovedMember(d.outside - {to}, from, to))
  }

  function Retarget(kind: JobKind, from: Key, to: Key): JobKind {
    match kind
    case Push(_) => JobKind.Push(to)
    case ConflictUpload(_, l, b) => ConflictUpload(to, l, b)
    case Rename(f, _) => if f == from then Rename(f, to) else kind
    case _ => kind
  }

  function RetargetAll(jobs: seq<Job>, from: Key, to: Key): (r: seq<JobKind>)
    ensures |r| == |jobs|
  {
    if jobs == [] then [] else [Retarget(jobs[0].kind, from, to)] + RetargetAll(jobs[1..], from, to)
  }

  function MovedRecord(m: map<Key, ConflictRecord>, from: Key, to: Key): map<Key, ConflictRecord> {
    if from in m then (m - {from})[to := m[from].(key := to)] else m
  }

  /** The queue after a file known to the store moved: its jobs follow it, and a rename goes
      out first when the hub may know the old name. */
  function RekeyedRows(rows: Rows, from: Key, to: Key, sendRename: bool): Rows {
    var left := rows.Keep(NotKey(from));
    (if sendRename then left.Enqueue(Rename(from, to), Interactive) else left)
      .EnqueueAll(RetargetAll(Select(rows.jobs, OnlyKey(from)), from, to))
  }

  /** The ledger's rows take the new name. */
  function Retabled(d: Replica, from: Key, to: Key): Replica {
    var bases := MovedRow(d.bases, from, to);
    d.(entries := MovedRow(d.entries, from, to), bases := bases, conflicts := MovedRecord(d.conflicts, from, to),
       trash := ClearTrash(d, to), writers := MovedMember(d.writers, from, to),
       rows := RekeyedRows(d.rows, from, to, to in bases || from in d.marks))
  }

  /** `rekey_entry`; the bytes already moved. A clean row never stays without a base. */
  function Rekeyed(d: Replica, from: Key, to: Key): Replica {
    var m := Retabled(d, from, to);
    if to in m.entries && to !in m.bases && m.entries[to].state.Clean?
    then m.(entries := m.entries[to := m.entries[to].(state := Dirty)], rows := m.rows.Enqueue(JobKind.Push(to), Interactive))
    else m
  }

  /** The first case of `rename_local`: a file the hub never had replaces one it may have. */
  function SavedOver(d: Replica, from: Key, to: Key): Replica
    requires to in d.entries
  {
    var left := d.rows.Keep(NotKey(from));
    var told := if from in d.marks then left.Enqueue(JobKind.Delete(from, None), Interactive) else left;
    var entries := MovedRow(d.entries, from, to);
    FileMoved(d, from, to).(
      entries := entries[to := entries[to].(state := Dirty)],
      writers := MovedMember(d.writers, from, to),
      rows := told.Keep(NotKey(to)).Enqueue(JobKind.Push(to), Interactive))
  }

  /** An overwriting rename deletes its destination first, in the queue too. */
  function DestinationGone(d: Replica, to: Key): Replica {
    if to !in d.entries then d
    else
      var r := Deleted(d, to);
      if to in d.bases then r.(rows := r.rows.Enqueue(JobKind.Delete(to, Some(d.bases[to])), Interactive)) else r
  }

  /** `rename_local`. The mount only renames files that exist. */
  function RenameLocal(d: Replica, from: Key, to: Key): Replica {
    if from == to || from !in d.folder then d
    else
      var e := d.(epoch := d.epoch + 1);
      if from !in d.bases && to in d.entries then SavedOver(e, from, to)
      else Rekeyed(FileMoved(DestinationGone(e, to), from, to), from, to)
  }

  /** Somebody writes, creates or removes a file behind the mount's back. */
  function External(d: Replica, key: Key, bytes: Option<Digest>): Replica {
    var o := d.(outside := d.outside + {key});
    match bytes
    case Some(sha) => o.(folder := d.folder[key := File(sha, d.clock)], clock := d.clock + 1)
    case None => o.(folder := d.folder - {key}, unsaved := d.unsaved - {key})
  }

  // ── what stays true of files and rows ─────────────────────────────────────

  /** A live row describes this version of the file; an empty digest is still to be computed. */
  predicate Describes(e: Entry, f: File) {
    !e.state.Tombstone? && (e.sha == f.sha || (e.sha == "" && e.state.Dirty?))
  }

  /** Fingerprints tell versions apart, and a row naming a version tells the truth about it. */
  ghost predicate Truthful(folder: map<Key, File>, entries: map<Key, Entry>, clock: nat) {
    && (forall k <- folder :: folder[k].id < clock && folder[k].sha != "")
    && (forall k <- entries :: entries[k].mtime < clock)
    && (forall j, k :: j in folder && k in folder && folder[j].id == folder[k].id ==> j == k)
    && (forall j, k :: j in folder && k in entries && folder[j].id == entries[k].mtime ==>
          j == k && Describes(entries[k], folder[j]))
  }

  /** Every file is accounted for by its row, apart from some. */
  ghost predicate Accounted(folder: map<Key, File>, entries: map<Key, Entry>, apart: set<Key>) {
    forall k <- folder :: k !in apart ==> k in entries && entries[k].mtime == folder[k].id
  }

  lemma {:induction false} NewVersion(folder: map<Key, File>, entries: map<Key, Entry>, clock: nat, apart: set<Key>,
      key: Key, sha: Digest)
    requires Truthful(folder, entries, clock) && Accounted(folder, entries, apart) && sha != ""
    ensures Truthful(folder[key := File(sha, clock)], entries, clock + 1)
    ensures Accounted(folder[key := File(sha, clock)], entries, apart + {key})
  {
  }

  lemma {:induction false} FileGone(folder: map<Key, File>, entries: map<Key, Entry>, clock: nat, apart: set<Key>, key: Key)
    requires Truthful(folder, entries, clock) && Accounted(folder, entries, apart)
    ensures Truthful(folder - {key}, entries, clock) && Accounted(folder - {key}, entries, apart - {key})
  {
  }

  /** A row may go or become a tombstone when it accounts for no file. */
  lemma {:induction false} RowGone(folder: map<Key, File>, entries: map<Key, Entry>, clock: nat, apart: set<Key>, key: Key)
    requires Truthful(folder, entries, clock) && Accounted(folder, entries, apart) && (key in folder ==> key in apart)
    ensures Truthful(folder, entries - {key}, clock) && Accounted(folder, entries - {key}, apart)
    ensures key in entries && key !in folder ==>
              var marked := entries[key := entries[key].(state := Tombstone)];
              Truthful(folder, marked, clock) && Accounted(folder, marked, apart)
  {
  }

  /** A file whose row is missing or a tombstone is one of those set apart. */
  lemma {:induction false} NotLiveMeansApart(folder: map<Key, File>, entries: map<Key, Entry>, clock: nat,
      apart: set<Key>, key: Key)
    requires Truthful(folder, entries, clock) && Accounted(folder, entries, apart)
    requires key in entries ==> entries[key].state.Tombstone?
    ensures key in folder ==> key in apart
  {
  }

  /** A row may be rewritten to describe the version that is there. */
  lemma {:induction false} RowDescribes(folder: map<Key, File>, entries: map<Key, Entry>, clock: nat, apart: set<Key>,
      key: Key, e: Entry)
    requires Truthful(folder, entries, clock) && Accounted(folder, entries, apart)
    requires key in folder && e.mtime == folder[key].id && Describes(e, folder[key])
    ensures Truthful(folder, entries[key := e], clock) && Accounted(folder, entries[key := e], apart - {key})
  {
  }

  /** Any row may be marked Dirty, and Clean if its digest is known or it accounts for nothing. */
  lemma {:induction false} RowMarked(folder: map<Key, File>, entries: map<Key, Entry>, clock: nat, apart: set<Key>,
      key: Key, state: EntryState)
    requires Truthful(folder, entries, clock) && Accounted(folder, entries, apart) && key in entries
    requires state.Dirty? || (state.Clean? && (entries[key].sha != "" || entries[key].state.Tombstone?))
    ensures var marked := entries[key := entries[key].(state := state)];
            Truthful(folder, marked, clock) && Accounted(folder, marked, apart)
  {
  }

  /** A file and its row move together, over whatever was at the destination. */
  lemma {:induction false} FileAndRowMove(folder: map<Key, File>, entries: map<Key, Entry>, clock: nat, from: Key, to: Key)
    requires Truthful(folder, entries, clock) && from != to && from in folder
    ensures Truthful(MovedRow(folder, from, to), MovedRow(entries, from, to), clock)
  {
  }

  lemma {:induction false} AccountMoves(folder: map<Key, File>, entries: map<Key, Entry>, apart: set<Key>, from: Key,
      to: Key)
    requires Accounted(folder, entries, apart) && from != to && from in folder
    ensures Accounted(MovedRow(folder, from, to), MovedRow(entries, from, to), MovedMember(apart - {to}, from, to))
  {
  }

  ghost predicate Sound(d: Replica) {
    && Truthful(d.folder, d.entries, d.clock)
    && Accounted(d.folder, d.entries, d.unsaved + d.outside)
    && d.unsaved <= d.writers
  }

  // ── local operations keep it ──────────────────────────────────────────────

  lemma {:induction false} CommitWriteSound(d: Replica, key: Key, sha: Digest)
    requires Sound(d) && sha != ""
    ensures Sound(CommitWrite(d, key, sha))
  {
    hide Truthful, Accounted, Rows.Enqueue;
    var apart := d.unsaved + d.outside;
    NewVersion(d.folder, d.entries, d.clock, apart, key, sha);
    RowDescribes(d.folder[key := File(sha, d.clock)], d.entries, d.clock + 1, apart + {key}, key, Entry(sha, d.clock, Dirty));
    assert (apart + {key}) - {key} == (d.unsaved - {key}) + (d.outside - {key});
  }

  lemma {:induction false} OpenWriteSound(d: Replica, key: Key, create: bool, truncate: bool)
    requires Sound(d)
    ensures Sound(OpenWrite(d, key, create, truncate))
  {
    hide Truthful, Accounted;
    NewVersion(d.folder, d.entries, d.clock, d.unsaved + d.outside, key, EMPTY_FILE);
    assert d.unsaved + d.outside + {key} == (d.unsaved + {key}) + d.outside;
  }

  lemma {:induction false} HandleWriteSound(d: Replica, key: Key, sha: Digest)
    requires Sound(d) && sha != ""
    ensures Sound(HandleWrite(d, key, sha))
  {
    hide Truthful, Accounted;
    NewVersion(d.folder, d.entries, d.clock, d.unsaved + d.outside, key, sha);
    assert d.unsaved + d.outside + {key} == (d.unsaved + {key}) + d.outside;
  }

  lemma {:induction false} CommitHandleSound(d: Replica, key: Key)
    requires Sound(d)
    ensures Sound(CommitHandle(d, key))
  {
    hide Truthful, Accounted, Rows.Enqueue;
    if key in d.folder {
      RowDescribes(d.folder, d.entries, d.clock, d.unsaved + d.outside, key, Entry("", d.folder[key].id, Dirty));
      assert (d.unsaved + d.outside) - {key} == (d.unsaved - {key}) + (d.outside - {key});
    }
  }

  lemma {:induction false} MovedApart(d: Replica, from: Key, to: Key)
    requires d.unsaved <= d.writers && from != to
    ensures MovedMember(d.unsaved + d.outside - {to}, from, to)
            <= MovedMember(d.unsaved - {to}, from, to) + MovedMember(d.outside - {to}, from, to)
    ensures MovedMember(d.unsaved - {to}, from, to) <= MovedMember(d.writers, from, to)
  {
  }

  lemma {:induction false} WiderApart(folder: map<Key, File>, entries: map<Key, Entry>, apart: set<Key>, wider: set<Key>)
    requires Accounted(folder, entries, apart) && apart <= wider
    ensures Accounted(folder, entries, wider)
  {
  }

  /** The file and its row take the new name. */
  lemma {:induction false} MoveSound(d: Replica, from: Key, to: Key)
    requires Sound(d) && from != to && from in d.folder
    ensures var r := FileMoved(d, from, to);
            && Truthful(r.folder, MovedRow(d.entries, from, to), r.clock)
            && Accounted(r.folder, MovedRow(d.entries, from, to), r.unsaved + r.outside)
            && r.unsaved <= MovedMember(d.writers, from, to)
  {
    var r := FileMoved(d, from, to);
    var apart := d.unsaved + d.outside;
    MovedApart(d, from, to);
    hide Truthful, Accounted, MovedRow, MovedMember;
    FileAndRowMove(d.folder, d.entries, d.clock, from, to);
    AccountMoves(d.folder, d.entries, apart, from, to);
    WiderApart(r.folder, MovedRow(d.entries, from, to), MovedMember(apart - {to}, from, to), r.unsaved + r.outside);
  }

  lemma {:induction false} SavedOverSound(d: Replica, from: Key, to: Key)
    requires Sound(d) && from != to && from in d.folder && to in d.entries
    ensures Sound(SavedOver(d, from, to))
  {
    MoveSound(d, from, to);
    var m, entries := FileMoved(d, from, to), MovedRow(d.entries, from, to);
    assert to in entries;
    hide Truthful, Accounted, MovedRow, MovedMember, Rows.Keep, Rows.Enqueue;
    RowMarked(m.folder, entries, m.clock, m.unsaved + m.outside, to, Dirty);
  }

  lemma {:induction false} RekeyedSound(d: Replica, from: Key, to: Key)
    requires Sound(d) && from != to && from in d.folder
    ensures Sound(Rekeyed(FileMoved(d, from, to), from, to))
  {
    MoveSound(d, from, to);
    var m, entries := FileMoved(d, from, to), MovedRow(d.entries, from, to);
    hide Truthful, Accounted, MovedRow, MovedMember, RekeyedRows, MovedRecord, Rows.Enqueue;
    if to in entries {
      RowMarked(m.folder, entries, m.clock, m.unsaved + m.outside, to, Dirty);
    }
  }

  lemma {:induction false} GoneFolder(d: Replica, key: Key)
    ensures Gone(d, key).folder == d.folder
  {
    hide Rows.Enqueue, Rows.Keep;
  }

  lemma {:induction false} DestinationGoneFolder(d: Replica, to: Key)
    ensures DestinationGone(d, to).folder == if to in d.entries then d.folder - {to} else d.folder
  {
    hide Rows.Enqueue, Rows.Keep, Gone;
    if to in d.entries {
      GoneFolder(d.(folder := d.folder - {to}, unsaved := d.unsaved - {to}, outside := d.outside - {to}), to);
    }
  }

  lemma {:induction false} ExternalSound(d: Replica, key: Key, bytes: Option<Digest>)
    requires Sound(d) && (bytes.Some? ==> bytes.value != "")
    ensures Sound(External(d, key, bytes))
  {
    hide Truthful, Accounted;
    var apart := d.unsaved + d.outside;
    match bytes
    case Some(sha) =>
      NewVersion(d.folder, d.entries, d.clock, apart, key, sha);
      assert apart + {key} == d.unsaved + (d.outside + {key});
    case None =>
      FileGone(d.folder, d.entries, d.clock, apart, key);
      WiderApart(d.folder - {key}, d.entries, apart - {key}, (d.unsaved - {key}) + (d.outside + {key}));
  }
}
