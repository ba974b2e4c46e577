/** The ledger commit of a directory move, and its recovery after crashes. */
module Ledger {
  import opened Options
  import opened Keys
  import opened Reconcile
  import opened Jobs
  import opened Rekey
  import opened Replay
  import opened DirectoryMove
  import opened Tables

  // ── one table ─────────────────────────────────────────────────────────────

  lemma {:induction false} RekeyOneRow<V>(m: map<Key, V>, from: Key, to: Key, k: Key)
    requires !Overlaps(from, to) && k in m && Under(k, from)
    ensures RekeyMap((m - {k})[Mapped(k, from, to) := m[k]], from, to) == RekeyMap(m, from, to)
    ensures !Under(Mapped(k, from, to), from)
  {
    hide RekeyMap;
    var d := Mapped(k, from, to);
    MappedIsRelabelling(k, k, from, to);
    if Under(d, from) {
      CommonDescendantOverlaps(d, from, to);
    }
    var n := (m - {k})[d := m[k]];
    forall x ensures Lookup(RekeyMap(n, from, to), x) == Lookup(RekeyMap(m, from, to), x) {
      RekeyLookup(n, from, to, x);
      RekeyLookup(m, from, to, x);
      if Under(x, to) {
        MappedIsRelabelling(x, d, to, from);
      }
    }
    RekeyAgrees(RekeyMap(n, from, to), RekeyMap(m, from, to));
  }

  lemma {:induction false} RekeyDone<V>(m: map<Key, V>, from: Key, to: Key)
    requires forall k <- m :: !Under(k, from)
    ensures RekeyMap(m, from, to) == m
  {
    assert MovedRows(m, from, to) == map[];
  }

  /** Remove each row below the old name and insert it under the new one. */
  method RekeyTable<V>(m: map<Key, V>, from: Key, to: Key) returns (table: map<Key, V>)
    requires !Overlaps(from, to)
    ensures table == RekeyMap(m, from, to)
  {
    hide RekeyMap, Overlaps;
    table := m;
    var rows := set k | k in m && Under(k, from);
    while rows != {}
      invariant RekeyMap(table, from, to) == RekeyMap(m, from, to)
      invariant rows == set k | k in table && Under(k, from)
      decreases |rows|
    {
      var k :| k in rows;
      RekeyOneRow(table, from, to, k);
      table := (table - {k})[Mapped(k, from, to) := table[k]];
      rows := rows - {k};
    }
    assert forall k <- table :: Under(k, from) ==> k in rows;
    RekeyDone(table, from, to);
  }

  // ── the four tables and the queue ─────────────────────────────────────────

  /** A conflict record names its own key and possibly a copy's key; both follow the move. */
  function MovedConflict(c: ConflictRecord, at: Key, from: Key, to: Key): ConflictRecord
    requires Under(at, from)
  {
    c.(key := Mapped(at, from, to),
       copyKey := match c.copyKey {
         case Some(copy) => if Under(copy, from) then Some(Mapped(copy, from, to)) else c.copyKey
         case None => None
       })
  }

  function Relabelled(m: map<Key, ConflictRecord>, from: Key, to: Key): map<Key, ConflictRecord> {
    map k | k in m :: if Under(k, from) then MovedConflict(m[k], k, from, to) else m[k]
  }

  function MovedConflicts(m: map<Key, ConflictRecord>, from: Key, to: Key): map<Key, ConflictRecord> {
    RekeyMap(Relabelled(m, from, to), from, to)
  }

  function MovedDirs(dirs: set<Key>, from: Key, to: Key): set<Key> {
    (set d | d in dirs && !Under(d, from)) + (set d | d in dirs && Under(d, from) :: Mapped(d, from, to)) + {to}
  }

  function Applied(row: Pending): Pending
    requires row.job.kind.RenameDir?
  {
    row.(job := row.job.(kind := row.job.kind.(localApplied := true)))
  }

  /** The row of the move itself, rewritten in place. */
  function MarkApplied(ps: seq<Pending>, move: Pending): (r: seq<Pending>)
    requires move.job.kind.RenameDir?
    ensures |r| == |ps|
  {
    if ps == [] then []
    else [if ps[0].job.seqNo == move.job.seqNo then Applied(move) else ps[0]] + MarkApplied(ps[1..], move)
  }

  lemma {:induction false} EmptyParts(move: Job, counter: nat)
    requires move.kind.RenameDir?
    ensures Stayers([], move) == [] && Movers([], move) == [] && Renumbered([], move, counter) == []
  {
  }

  lemma {:induction false} PartsOneMore(ps: seq<Pending>, p: Pending, move: Job)
    requires move.kind.RenameDir?
    ensures StaysPut(p.job, move) ==>
              Stayers(ps + [p], move) == Stayers(ps, move) + [p] && Movers(ps + [p], move) == Movers(ps, move)
    ensures !StaysPut(p.job, move) ==>
              Stayers(ps + [p], move) == Stayers(ps, move) && Movers(ps + [p], move) == Movers(ps, move) + [p]
    decreases |ps|
  {
    hide StaysPut;
    if ps == [] {
      assert [p][1..] == [];
    } else {
      assert (ps + [p])[1..] == ps[1..] + [p];
      PartsOneMore(ps[1..], p, move);
    }
  }

  lemma {:induction false} PartsAppend(ps: seq<Pending>, p: Pending, move: Job, counter: nat)
    requires move.kind.RenameDir?
    ensures StaysPut(p.job, move) ==>
              Stayers(ps + [p], move) == Stayers(ps, move) + [p] && Movers(ps + [p], move) == Movers(ps, move)
    ensures !StaysPut(p.job, move) ==>
              Stayers(ps + [p], move) == Stayers(ps, move) && Movers(ps + [p], move) == Movers(ps, move) + [p]
    ensures !StaysPut(p.job, move) ==>
              Renumbered(Movers(ps + [p], move), move, counter)
              == Renumbered(Movers(ps, move), move, counter) + [RenumberedRow(p, move, counter + |Movers(ps, move)| + 1)]
  {
    hide StaysPut, Renumbered;
    PartsOneMore(ps, p, move);
    hide Stayers;
    if !StaysPut(p.job, move) {
      RenumberedAppend(Movers(ps, move), p, move, counter);
    }
  }

  lemma {:induction false} RenumberedAppend(ps: seq<Pending>, p: Pending, move: Job, counter: nat)
    requires move.kind.RenameDir?
    requires !StaysPut(p.job, move) && forall q <- ps :: !StaysPut(q.job, move)
    ensures Renumbered(ps + [p], move, counter) == Renumbered(ps, move, counter) + [RenumberedRow(p, move, counter + |ps| + 1)]
    decreases |ps|
  {
    hide StaysPut;
    if ps == [] {
      assert [p][1..] == [];
    } else {
      assert (ps + [p])[1..] == ps[1..] + [p];
      RenumberedAppend(ps[1..], p, move, counter + 1);
    }
  }

  function RewrittenTable(ps: seq<Pending>, move: Pending, counter: nat): seq<Pending>
    requires move.job.kind.RenameDir?
  {
    MarkApplied(Stayers(ps, move.job), move) + Renumbered(Movers(ps, move.job), move.job, counter)
  }

  lemma {:induction false} MarkLast(ps: seq<Pending>, move: Pending)
    requires move.job.kind.RenameDir? && forall p <- ps :: p.job.seqNo != move.job.seqNo
    ensures MarkApplied(ps + [move], move) == ps + [Applied(move)]
  {
    hide Applied;
    if ps == [] {
      assert [move][1..] == [];
    } else {
      assert (ps + [move])[1..] == ps[1..] + [move];
      assert ps == [ps[0]] + ps[1..] && ps[0] in ps;
      assert forall p <- ps[1..] :: p in ps;
      MarkLast(ps[1..], move);
    }
  }

  lemma {:induction false} AppliedRunsAlike(w: World, move: Pending)
    requires move.job.kind.RenameDir?
    ensures Exec(w, Applied(move)) == Exec(w, move)
  {
  }

  lemma {:induction false} TableRunsLikeRewritten(w: World, ps: seq<Pending>, move: Pending, counter: nat)
    requires move.job.kind.RenameDir? && forall p <- ps :: p.job.seqNo != move.job.seqNo
    ensures ExecAll(w, RewrittenTable(ps + [move], move, counter)) == ExecAll(w, Rewritten(ps, move, counter))
  {
    var s, r := Stayers(ps, move.job), Renumbered(Movers(ps, move.job), move.job, counter);
    assert StaysPut(move.job, move.job);
    PartsAppend(ps, move, move.job, counter);
    PartsAreRows(ps, move.job);
    MarkLast(s, move);
    hide Exec, StaysPut, Applied, Stayers, Movers, Renumbered, MarkApplied;
    assert RewrittenTable(ps + [move], move, counter) == (s + [Applied(move)]) + r;
    assert Rewritten(ps, move, counter) == (s + [move]) + r;
    ExecAllAppend(w, s + [Applied(move)], r);
    ExecAllAppend(w, s + [move], r);
    ExecAllOne(w, s, Applied(move));
    ExecAllOne(w, s, move);
    AppliedRunsAlike(ExecAll(w, s), move);
  }

  /** The commit keeps what the queue will do: running the table after the commit gives the
      same hub as running the table before it, the freshly queued move being last. */
  lemma {:induction false} CommitKeepsQueueMeaning(w: World, d: Durable, ps: seq<Pending>, move: Pending)
    requires move.job.kind.RenameDir? && move.job.kind.remote && !move.job.kind.localApplied
    requires d.jobs == ps + [move] && SubmissionOrder(d.jobs)
    requires !Overlaps(move.job.kind.from, move.job.kind.to) && NoLaterStructure(ps, move.job)
    requires DestinationFree(ExecAll(w, Stayers(ps, move.job)), move.job.kind.to)
    ensures ExecAll(w, Committed(d, move).jobs) == ExecAll(w, d.jobs)
  {
    forall p | p in ps ensures p.job.seqNo != move.job.seqNo {
      var i :| 0 <= i < |ps| && ps[i] == p;
      assert d.jobs[i].job.seqNo < d.jobs[|ps|].job.seqNo;
    }
    assert SubmissionOrder(ps) by {
      forall i, j | 0 <= i < j < |ps| ensures ps[i].job.seqNo < ps[j].job.seqNo {
        assert d.jobs[i].job.seqNo < d.jobs[j].job.seqNo;
      }
    }
    hide RewrittenTable, Exec, StaysPut, Stayers, NoLaterStructure, DestinationFree, SubmissionOrder;
    TableRunsLikeRewritten(w, ps, move, d.counter);
    RewriteKeepsMeaning(w, ps, move, d.counter);
  }

  /** Everything that survives a crash. `dirAt` gives each directory on disk its identity. */
  datatype Durable = Durable(
    dirAt: map<Key, nat>, files: map<Key, Digest>,
    entries: map<Key, Entry>, bases: map<Key, Digest>, conflicts: map<Key, ConflictRecord>, dirs: set<Key>,
    jobs: seq<Pending>, counter: nat)

  function RenamedOnDisk(d: Durable, from: Key, to: Key): Durable {
    d.(dirAt := RekeyMap(d.dirAt, from, to), files := RekeyMap(d.files, from, to))
  }

  /** `apply_directory_rename`, as one transaction. */
  function Committed(d: Durable, move: Pending): Durable
    requires move.job.kind.RenameDir?
  {
    var f, t := move.job.kind.from, move.job.kind.to;
    if move.job.kind.localApplied then d
    else d.(entries := RekeyMap(d.entries, f, t),
            bases := RekeyMap(d.bases, f, t),
            conflicts := MovedConflicts(d.conflicts, f, t),
            dirs := MovedDirs(d.dirs, f, t),
            jobs := RewrittenTable(d.jobs, move, d.counter),
            counter := d.counter + |Movers(d.jobs, move.job)|)
  }

  predicate IsOriginal(d: Durable, key: Key, dirId: nat) {
    Lookup(d.dirAt, key) == Some(dirId)
  }

  /** The disk as `finish_directory_move` leaves it before it checks the destination. */
  function AfterRename(d: Durable, move: Pending): Durable
    requires move.job.kind.RenameDir?
  {
    if IsOriginal(d, move.job.kind.from, move.job.kind.dirId)
    then RenamedOnDisk(d, move.job.kind.from, move.job.kind.to) else d
  }

  function Finished(d: Durable, move: Pending): (Durable, bool)
    requires move.job.kind.RenameDir?
  {
    if move.job.kind.localApplied then (d, true)
    else
      var r := AfterRename(d, move);
      if IsOriginal(r, move.job.kind.to, move.job.kind.dirId) then (Committed(r, move), true) else (r, false)
  }

  /** Something of ours lies below `dir`. */
  predicate HasChildren(d: Durable, dir: Key) {
    exists k <- d.entries.Keys + d.dirs :: k != dir && Under(k, dir)
  }

  /** `recover_directory_moves` over the rows it read: unapplied intents are finished in turn;
      protected mode leaves a move alone while its source is still there. */
  function Recovered(d: Durable, rows: seq<Pending>, protected: bool): (Durable, bool)
    decreases |rows|
  {
    if rows == [] then (d, true)
    else
      var kind := rows[0].job.kind;
      if !kind.RenameDir? || (protected && !kind.localApplied && kind.from in d.dirAt) then Recovered(d, rows[1..], protected)
      else
        var (r, ok) := Finished(d, rows[0]);
        if ok then Recovered(r, rows[1..], protected) else (r, false)
  }

  // ── crashes ───────────────────────────────────────────────────────────────

  /** Where the power goes out during an attempt to finish a move. */
  datatype Cut = BeforeRename | AfterRenameOnly | AfterCommit

  /** The move's row as the table holds it now. */
  function CurrentRow(ps: seq<Pending>, seqNo: nat): (r: Option<Pending>)
    ensures r.Some? ==> r.value in ps && r.value.job.seqNo == seqNo
    ensures r.None? ==> forall p <- ps :: p.job.seqNo != seqNo
  {
    if ps == [] then None
    else if ps[0].job.seqNo == seqNo then Some(ps[0])
    else CurrentRow(ps[1..], seqNo)
  }

  /** One attempt, reading the row afresh, cut short at some point. */
  function Attempt(d: Durable, seqNo: nat, cut: Cut): Durable {
    match CurrentRow(d.jobs, seqNo)
    case None => d
    case Some(row) =>
      if !row.job.kind.RenameDir? then d
      else match cut
        case BeforeRename => d
        case AfterRenameOnly => if row.job.kind.localApplied then d else AfterRename(d, row)
        case AfterCommit => Finished(d, row).0
  }

  function Attempts(d: Durable, seqNo: nat, cuts: seq<Cut>): Durable
    decreases |cuts|
  {
    if cuts == [] then d else Attempts(Attempt(d, seqNo, cuts[0]), seqNo, cuts[1..])
  }

  /** A queued, unapplied intent whose directory is still at its source; identities are unique on
      disk. An empty directory may be at the destination: `rename(2)` replaces it. */
  predicate Intended(d: Durable, move: Pending) {
    && move.job.kind.RenameDir? && !move.job.kind.localApplied
    && CurrentRow(d.jobs, move.job.seqNo) == Some(move)
    && !Overlaps(move.job.kind.from, move.job.kind.to)
    && IsOriginal(d, move.job.kind.from, move.job.kind.dirId)
    && (forall k <- d.dirAt :: d.dirAt[k] == move.job.kind.dirId ==> k == move.job.kind.from)
  }

  lemma {:induction false} RenameLands(d: Durable, move: Pending)
    requires Intended(d, move)
    ensures var r := AfterRename(d, move);
            && IsOriginal(r, move.job.kind.to, move.job.kind.dirId)
            && !IsOriginal(r, move.job.kind.from, move.job.kind.dirId)
            && AfterRename(r, move) == r
            && Finished(d, move) == (Committed(r, move), true)
            && Finished(r, move) == (Committed(r, move), true)
            && CurrentRow(r.jobs, move.job.seqNo) == Some(move)
  {
    var f, t := move.job.kind.from, move.job.kind.to;
    MappedIsRelabelling(f, f, f, t);
    assert Mapped(f, f, t) == t;
    MappedIsRelabelling(t, t, t, f);
    RekeyLookup(d.dirAt, f, t, t);
    RekeyLookup(d.dirAt, f, t, f);
  }

  lemma {:induction false} StayersCurrent(ps: seq<Pending>, move: Pending)
    requires move.job.kind.RenameDir? && CurrentRow(ps, move.job.seqNo).Some?
    ensures CurrentRow(MarkApplied(Stayers(ps, move.job), move), move.job.seqNo) == Some(Applied(move))
  {
    assert ps[0].job.seqNo == move.job.seqNo ==> StaysPut(ps[0].job, move.job);
    hide StaysPut, Applied;
    if ps[0].job.seqNo != move.job.seqNo {
      StayersCurrent(ps[1..], move);
      assert [] + Stayers(ps[1..], move.job) == Stayers(ps[1..], move.job);
      var rest := Stayers(ps[1..], move.job);
      assert ([ps[0]] + rest)[1..] == rest;
    } else {
      AppliedFlag(move);
    }
  }

  lemma {:induction false} CurrentRowPrefix(a: seq<Pending>, b: seq<Pending>, n: nat)
    requires CurrentRow(a, n).Some?
    ensures CurrentRow(a + b, n) == CurrentRow(a, n)
  {
    if a[0].job.seqNo != n {
      assert (a + b)[1..] == a[1..] + b;
      CurrentRowPrefix(a[1..], b, n);
    }
  }

  /** After the commit the table says the move is applied, so it is never applied again. */
  lemma {:induction false} CommitIsOnce(d: Durable, move: Pending)
    requires move.job.kind.RenameDir? && !move.job.kind.localApplied
    requires CurrentRow(d.jobs, move.job.seqNo) == Some(move)
    ensures CurrentRow(Committed(d, move).jobs, move.job.seqNo) == Some(Applied(move))
    ensures Finished(Committed(d, move), Applied(move)) == (Committed(d, move), true)
  {
    StayersCurrent(d.jobs, move);
    CurrentRowPrefix(MarkApplied(Stayers(d.jobs, move.job), move),
                     Renumbered(Movers(d.jobs, move.job), move.job, d.counter), move.job.seqNo);
  }

  /** The three states a run of interrupted attempts can be in. */
  predicate OnTheWay(d: Durable, start: Durable, move: Pending)
    requires move.job.kind.RenameDir?
  {
    d == start || d == AfterRename(start, move) || d == Finished(start, move).0
  }

  lemma {:induction false} AttemptStaysOnTheWay(d: Durable, start: Durable, move: Pending, cut: Cut)
    requires Intended(start, move) && OnTheWay(d, start, move)
    ensures OnTheWay(Attempt(d, move.job.seqNo, cut), start, move)
  {
    hide Committed, AfterRename, Intended, IsOriginal, Applied;
    IntentRow(start, move);
    RenameLands(start, move);
    CommitIsOnce(AfterRename(start, move), move);
    AppliedFlag(move);
  }

  lemma {:induction false} IntentRow(d: Durable, move: Pending)
    requires Intended(d, move)
    ensures move.job.kind.RenameDir? && !move.job.kind.localApplied
    ensures CurrentRow(d.jobs, move.job.seqNo) == Some(move)
  {
  }

  lemma {:induction false} AppliedFlag(move: Pending)
    requires move.job.kind.RenameDir?
    ensures Applied(move).job.kind.RenameDir? && Applied(move).job.kind.localApplied
    ensures Applied(move).job.seqNo == move.job.seqNo
  {
  }

  lemma {:induction false} AttemptsStayOnTheWay(d: Durable, start: Durable, move: Pending, cuts: seq<Cut>)
    requires Intended(start, move) && OnTheWay(d, start, move)
    ensures OnTheWay(Attempts(d, move.job.seqNo, cuts), start, move)
    decreases |cuts|
  {
    hide Intended, OnTheWay, Attempt;
    if cuts != [] {
      AttemptStaysOnTheWay(d, start, move, cuts[0]);
      AttemptsStayOnTheWay(Attempt(d, move.job.seqNo, cuts[0]), start, move, cuts[1..]);
    }
  }

  /** Crash recovery: whatever points any number of attempts were cut at, completing the move
      once reaches exactly the folder, tables and queue of the uninterrupted run, with the
      re-keying applied once; completing it again changes nothing. */
  lemma {:induction false} RecoveryReachesTheSameState(start: Durable, move: Pending, cuts: seq<Cut>)
    requires Intended(start, move)
    ensures var crashed := Attempts(start, move.job.seqNo, cuts);
            && Attempt(crashed, move.job.seqNo, AfterCommit) == Finished(start, move).0 == Committed(AfterRename(start, move), move)
            && Attempt(Attempt(crashed, move.job.seqNo, AfterCommit), move.job.seqNo, AfterCommit) == Finished(start, move).0
  {
    hide Committed, AfterRename, Intended, IsOriginal, Applied;
    IntentRow(start, move);
    AttemptsStayOnTheWay(start, start, move, cuts);
    RenameLands(start, move);
    CommitIsOnce(AfterRename(start, move), move);
    AppliedFlag(move);
  }

  /** Recovery refuses, and keeps the intent, exactly when the directory the intent names is
      at neither end any more. */
  lemma {:induction false} RecoveryRefuses(d: Durable, move: Pending)
    requires move.job.kind.RenameDir? && !move.job.kind.localApplied && !Overlaps(move.job.kind.from, move.job.kind.to)
    ensures !Finished(d, move).1 <==>
              && !IsOriginal(d, move.job.kind.from, move.job.kind.dirId)
              && !IsOriginal(d, move.job.kind.to, move.job.kind.dirId)
    ensures !Finished(d, move).1 ==> Finished(d, move).0 == d
  {
    var f, t := move.job.kind.from, move.job.kind.to;
    if IsOriginal(d, f, move.job.kind.dirId) {
      assert Mapped(t, t, f) == f;
      RekeyLookup(d.dirAt, f, t, t);
    }
  }

  /** The ledger's live rows describe exactly the files in the folder. */
  ghost predicate LedgerMatchesFolder(d: Durable) {
    forall k :: Lookup(d.files, k) == RowSha(d.entries, k)
  }

  lemma {:induction false} MatchAt(d: Durable, k: Key)
    requires LedgerMatchesFolder(d)
    ensures Lookup(d.files, k) == RowSha(d.entries, k)
  {
  }

  lemma {:induction false} NoFilesAtDestination(d: Durable, to: Key)
    requires LedgerMatchesFolder(d) && !HasChildren(d, to) && to !in d.entries
    ensures forall k <- d.files :: !Under(k, to)
  {
    forall k | k in d.files ensures !Under(k, to) {
      MatchAt(d, k);
      assert k in d.entries.Keys + d.dirs;
    }
  }

  lemma {:induction false} RowShaMoves(d: Durable, from: Key, to: Key, k: Key)
    requires LedgerMatchesFolder(d) && forall x <- d.files :: !Under(x, to)
    ensures Lookup(RekeyMap(d.files, from, to), k) == RowSha(RekeyMap(d.entries, from, to), k)
  {
    hide RekeyMap, LedgerMatchesFolder, Under, Overlaps, Mapped;
    RekeyLookup(d.files, from, to, k);
    RekeyLookup(d.entries, from, to, k);
    MatchAt(d, k);
    if Under(k, to) {
      MatchAt(d, Mapped(k, to, from));
    }
  }

  /** A finished move carries every file and its row together: if ledger and folder matched
      before, they match after. */
  lemma {:induction false} MoveKeepsLedgerAndFolderTogether(d: Durable, move: Pending)
    requires Intended(d, move) && LedgerMatchesFolder(d)
    requires !HasChildren(d, move.job.kind.to) && move.job.kind.to !in d.entries
    ensures LedgerMatchesFolder(Finished(d, move).0)
  {
    var f, t := move.job.kind.from, move.job.kind.to;
    RenameLands(d, move);
    NoFilesAtDestination(d, t);
    var r := Finished(d, move).0;
    assert r.files == RekeyMap(d.files, f, t) && r.entries == RekeyMap(d.entries, f, t);
    hide *;
    forall k ensures Lookup(r.files, k) == RowSha(r.entries, k) {
      RowShaMoves(d, f, t, k);
    }
    MatchEverywhere(r);
  }

  lemma {:induction false} MatchEverywhere(d: Durable)
    requires forall k :: Lookup(d.files, k) == RowSha(d.entries, k)
    ensures LedgerMatchesFolder(d)
  {
  }

  // ── what the move does to every row ───────────────────────────────────────

  /** The row of a key below the old name is found at the same place below the new one, and not at
      the old name any more. */
  predicate Carried<V(==)>(was: map<Key, V>, now: map<Key, V>, from: Key, to: Key, k: Key)
    requires Under(k, from)
  {
    && k !in now && (k in was ==> Lookup(now, to + k[|from|..]) == Some(was[k]))
    && (k !in was ==> Lookup(now, to + k[|from|..]) == Lookup(was, to + k[|from|..]))
  }

  lemma {:induction false} RekeyCarries<V>(m: map<Key, V>, from: Key, to: Key, k: Key)
    requires Under(k, from) && !Overlaps(from, to)
    ensures Carried(m, RekeyMap(m, from, to), from, to, k)
  {
    hide Overlaps, RekeyMap;
    var n := Mapped(k, from, to);
    MappedIsRelabelling(k, k, from, to);
    RekeyLookup(m, from, to, n);
    RekeyLookup(m, from, to, k);
    if Under(n, from) {
      CommonDescendantOverlaps(n, from, to);
    }
    if Under(k, to) {
      CommonDescendantOverlaps(k, from, to);
    }
  }

  lemma {:induction false} RekeyLeaves<V>(m: map<Key, V>, from: Key, to: Key, k: Key)
    requires !Under(k, from) && !Under(k, to)
    ensures Lookup(RekeyMap(m, from, to), k) == Lookup(m, k)
  {
    RekeyLookup(m, from, to, k);
  }

  /** A finished move carries the file of every key below the old name with its row and its base; the
      conflict record names the new key, and a copy of the old folder in the new one. */
  lemma {:induction false} MoveCarriesEveryRow(d: Durable, move: Pending, k: Key)
    requires Intended(d, move) && Under(k, move.job.kind.from)
    ensures var f, t, r := move.job.kind.from, move.job.kind.to, Finished(d, move).0;
            var n := t + k[|f|..];
            && Carried(d.files, r.files, f, t, k) && Carried(d.entries, r.entries, f, t, k) && Carried(d.bases, r.bases, f, t, k)
            && k !in r.conflicts && (k in d.conflicts ==>
                 var was := d.conflicts[k];
                 Lookup(r.conflicts, n) == Some(ConflictRecord(n, was.localSha, was.uploaded,
                   if was.copyKey.Some? && Under(was.copyKey.value, f) then Some(t + was.copyKey.value[|f|..]) else was.copyKey)))
            && k !in r.dirs && (k in d.dirs ==> n in r.dirs) && t in r.dirs
  {
    var f, t := move.job.kind.from, move.job.kind.to;
    RenameLands(d, move);
    var r := Finished(d, move).0;
    assert r.files == RekeyMap(d.files, f, t) && r.entries == RekeyMap(d.entries, f, t) && r.bases == RekeyMap(d.bases, f, t);
    assert r.conflicts == RekeyMap(Relabelled(d.conflicts, f, t), f, t) && r.dirs == MovedDirs(d.dirs, f, t);
    hide Finished, Intended, RekeyMap, Overlaps, MovedDirs;
    RekeyCarries(d.files, f, t, k);
    RekeyCarries(d.entries, f, t, k);
    RekeyCarries(d.bases, f, t, k);
    RekeyCarries(Relabelled(d.conflicts, f, t), f, t, k);
    DirsAreCarried(d.dirs, f, t, k);
    Disjoint(move, d);
  }

  lemma {:induction false} Disjoint(move: Pending, d: Durable)
    requires Intended(d, move)
    ensures !Overlaps(move.job.kind.from, move.job.kind.to)
  {
  }

  lemma {:induction false} DirsAreCarried(dirs: set<Key>, from: Key, to: Key, k: Key)
    requires Under(k, from) && !Overlaps(from, to)
    ensures k !in MovedDirs(dirs, from, to) && (k in dirs ==> to + k[|from|..] in MovedDirs(dirs, from, to)) && to in MovedDirs(dirs, from, to)
  {
    if k in MovedDirs(dirs, from, to) && k != to {
      var x :| x in dirs && Under(x, from) && k == Mapped(x, from, to);
      MappedIsRelabelling(x, x, from, to);
      CommonDescendantOverlaps(k, from, to);
    }
    assert k in dirs ==> Mapped(k, from, to) in MovedDirs(dirs, from, to);
  }

  /** Every other key keeps its file, row, base and record. */
  lemma {:induction false} MoveLeavesOtherRows(d: Durable, move: Pending, k: Key)
    requires Intended(d, move) && !Under(k, move.job.kind.from) && !Under(k, move.job.kind.to)
    ensures var r := Finished(d, move).0;
            && Lookup(r.files, k) == Lookup(d.files, k) && Lookup(r.entries, k) == Lookup(d.entries, k)
            && Lookup(r.bases, k) == Lookup(d.bases, k) && Lookup(r.conflicts, k) == Lookup(d.conflicts, k)
            && (k in r.dirs <==> k in d.dirs)
  {
    var f, t := move.job.kind.from, move.job.kind.to;
    RenameLands(d, move);
    var r := Finished(d, move).0;
    assert r.files == RekeyMap(d.files, f, t) && r.entries == RekeyMap(d.entries, f, t) && r.bases == RekeyMap(d.bases, f, t);
    assert r.conflicts == RekeyMap(Relabelled(d.conflicts, f, t), f, t) && r.dirs == MovedDirs(d.dirs, f, t);
    hide Finished, Intended, RekeyMap, MovedDirs, Under;
    RekeyLeaves(d.files, f, t, k);
    RekeyLeaves(d.entries, f, t, k);
    RekeyLeaves(d.bases, f, t, k);
    RekeyLeaves(Relabelled(d.conflicts, f, t), f, t, k);
    DirsAreLeft(d.dirs, f, t, k);
  }

  lemma {:induction false} DirsAreLeft(dirs: set<Key>, from: Key, to: Key, k: Key)
    requires !Under(k, from) && !Under(k, to)
    ensures k in MovedDirs(dirs, from, to) <==> k in dirs
  {
    if k in MovedDirs(dirs, from, to) && k !in dirs {
      var x :| x in dirs && Under(x, from) && k == Mapped(x, from, to);
      MappedIsRelabelling(x, x, from, to);
    }
  }

  /** Clean rows have the digest of their base, where there is one. */
  predicate CleanAgrees(d: Durable) {
    forall k <- d.entries :: CleanAgreesAt(d, k)
  }

  predicate CleanAgreesAt(d: Durable, k: Key)
    requires k in d.entries
  {
    d.entries[k].state.Clean? && k in d.bases ==> d.bases[k] == d.entries[k].sha
  }

  /** The move keeps that, with no base left over below the new name. */
  lemma {:induction false} MoveKeepsAgreement(d: Durable, move: Pending)
    requires Intended(d, move) && CleanAgrees(d)
    requires forall k <- d.bases.Keys + d.entries.Keys :: !Under(k, move.job.kind.to)
    ensures CleanAgrees(Finished(d, move).0)
  {
    var f, t := move.job.kind.from, move.job.kind.to;
    var r := Finished(d, move).0;
    RenameLands(d, move);
    Disjoint(move, d);
    assert r.entries == RekeyMap(d.entries, f, t) && r.bases == RekeyMap(d.bases, f, t);
    hide Finished, Intended, RekeyMap, Overlaps, Under;
    forall n | n in r.entries ensures CleanAgreesAt(r, n) {
      AgreesAfter(d, f, t, n);
    }
  }

  lemma {:induction false} AgreesAfter(d: Durable, from: Key, to: Key, n: Key)
    requires CleanAgrees(d) && n in RekeyMap(d.entries, from, to)
    requires forall k <- d.bases.Keys + d.entries.Keys :: !Under(k, to)
    ensures var entries, bases := RekeyMap(d.entries, from, to), RekeyMap(d.bases, from, to);
            entries[n].state.Clean? && n in bases ==> bases[n] == entries[n].sha
  {
    hide RekeyMap;
    RekeyLookup(d.entries, from, to, n);
    RekeyLookup(d.bases, from, to, n);
    var o := if Under(n, to) then Mapped(n, to, from) else n;
    assert o in d.entries;
    assert CleanAgreesAt(d, o);
  }

  // ── what it does to every queued job ──────────────────────────────────────

  /** Content work below the old name, and structural work of it that the hub does not know or that
      was queued later, addresses the new name. */
  predicate Readdressed(j: Job, move: Job)
    requires move.kind.RenameDir?
  {
    && j.seqNo != move.seqNo && Under(j.kind.MainKey(), move.kind.from)
    && (|| j.kind.Push? || j.kind.ConflictUpload?
        || ((j.kind.Delete? || j.kind.Mkdir? || j.kind.Rmdir?) && (!move.kind.remote || j.seqNo > move.seqNo)))
  }

  /** The same work on the key at the new name. */
  predicate SameWorkAt(p: Pending, q: Pending, key: Key) {
    && q.body == p.body && q.job.priority == p.job.priority
    && match p.job.kind
       case Push(_) => q.job.kind == JobKind.Push(key)
       case Delete(_, fixed) => q.job.kind == JobKind.Delete(key, fixed)
       case ConflictUpload(_, sha, base) => q.job.kind == ConflictUpload(key, sha, base)
       case Mkdir(_) => q.job.kind == Mkdir(key)
       case Rmdir(_) => q.job.kind == Rmdir(key)
       case _ => false
  }

  lemma {:induction false} PartsHold(ps: seq<Pending>, move: Job, p: Pending)
    requires move.kind.RenameDir? && p in ps
    ensures StaysPut(p.job, move) ==> p in Stayers(ps, move)
    ensures !StaysPut(p.job, move) ==> p in Movers(ps, move)
  {
    hide StaysPut;
    if p != ps[0] {
      PartsHold(ps[1..], move, p);
    }
  }

  lemma {:induction false} RenumberedHolds(ps: seq<Pending>, move: Job, counter: nat, p: Pending) returns (q: Pending)
    requires move.kind.RenameDir? && p in ps && forall x <- ps :: !StaysPut(x.job, move)
    ensures q in Renumbered(ps, move, counter) && counter < q.job.seqNo <= counter + |ps|
    ensures q == RenumberedRow(p, move, q.job.seqNo)
  {
    hide StaysPut;
    if p == ps[0] {
      q := RenumberedRow(p, move, counter + 1);
    } else {
      q := RenumberedHolds(ps[1..], move, counter + 1, p);
    }
  }

  lemma {:induction false} MarkKeeps(ps: seq<Pending>, move: Pending, p: Pending)
    requires move.job.kind.RenameDir? && p in ps
    ensures (if p.job.seqNo == move.job.seqNo then Applied(move) else p) in MarkApplied(ps, move)
  {
    hide Applied;
    if p != ps[0] {
      MarkKeeps(ps[1..], move, p);
    }
  }

  /** The commit loses no queued job: each one is still there, or is there under a fresh number for
      its file's new name, with its bytes; and the move's own row says that it has been applied. */
  lemma {:induction false} CommitKeepsEveryJob(d: Durable, move: Pending, p: Pending)
    requires move.job.kind.RenameDir? && !move.job.kind.localApplied && p in d.jobs
    ensures var f, t, r := move.job.kind.from, move.job.kind.to, Committed(d, move);
            && |r.jobs| == |d.jobs| && d.counter <= r.counter
            && (Readdressed(p.job, move.job) ==>
                  exists q <- r.jobs :: d.counter < q.job.seqNo <= r.counter && SameWorkAt(p, q, t + p.job.kind.MainKey()[|f|..]))
            && (!Readdressed(p.job, move.job) && p.job.seqNo != move.job.seqNo ==> p in r.jobs)
            && (p.job.seqNo == move.job.seqNo ==>
                  exists q <- r.jobs :: q.job.seqNo == move.job.seqNo && q.job.kind == move.job.kind.(localApplied := true))
  {
    var r, s, m := Committed(d, move), Stayers(d.jobs, move.job), Movers(d.jobs, move.job);
    assert r.jobs == MarkApplied(s, move) + Renumbered(m, move.job, d.counter) && r.counter == d.counter + |m|;
    PartsHold(d.jobs, move.job, p);
    PartitionSize(d.jobs, move.job);
    StaysIsNotReaddressed(p.job, move.job);
    hide Committed, StaysPut, Readdressed, SameWorkAt, Applied, MarkApplied, Stayers, Movers, Renumbered;
    if StaysPut(p.job, move.job) {
      MarkKeeps(s, move, p);
      AppliedSays(move);
    } else {
      var q := RenumberedHolds(m, move.job, d.counter, p);
      RenumberedSame(p, move.job, q.job.seqNo);
      assert q in r.jobs;
    }
  }

  lemma {:induction false} StaysIsNotReaddressed(j: Job, move: Job)
    requires move.kind.RenameDir?
    ensures StaysPut(j, move) <==> !Readdressed(j, move)
    ensures j.seqNo == move.seqNo ==> StaysPut(j, move)
  {
  }

  lemma {:induction false} AppliedSays(move: Pending)
    requires move.job.kind.RenameDir?
    ensures Applied(move).job.seqNo == move.job.seqNo && Applied(move).job.kind == move.job.kind.(localApplied := true)
  {
  }

  lemma {:induction false} RenumberedSame(p: Pending, move: Job, seqNo: nat)
    requires move.kind.RenameDir? && !StaysPut(p.job, move)
    ensures SameWorkAt(p, RenumberedRow(p, move, seqNo), move.kind.to + p.job.kind.MainKey()[|move.kind.from|..])
  {
  }

  lemma {:induction false} PartitionSize(ps: seq<Pending>, move: Job)
    requires move.kind.RenameDir?
    ensures |Stayers(ps, move)| + |Movers(ps, move)| == |ps|
  {
    hide StaysPut;
    if ps != [] {
      PartitionSize(ps[1..], move);
    }
  }

  /** Protected recovery never renames anything on disk. */
  lemma {:induction false} ProtectedRecoveryLeavesDisk(d: Durable, rows: seq<Pending>)
    ensures var r := Recovered(d, rows, true).0; r.dirAt == d.dirAt && r.files == d.files
    decreases |rows|
  {
    hide Committed;
    if rows != [] {
      var kind := rows[0].job.kind;
      if !kind.RenameDir? || (!kind.localApplied && kind.from in d.dirAt) {
        ProtectedRecoveryLeavesDisk(d, rows[1..]);
      } else {
        var (r, ok) := Finished(d, rows[0]);
        CommitLeavesDisk(d, rows[0]);
        if ok {
          ProtectedRecoveryLeavesDisk(r, rows[1..]);
        }
      }
    }
  }

  lemma {:induction false} CommitLeavesDisk(d: Durable, move: Pending)
    requires move.job.kind.RenameDir?
    ensures Committed(d, move).dirAt == d.dirAt && Committed(d, move).files == d.files
  {
  }

  /** A table whose only unapplied intent is `move`: recovering the table finishes that move. */
  lemma {:induction false} RecoveryFinishesTheIntent(d: Durable, rows: seq<Pending>, i: nat)
    requires i < |rows| && rows[i].job.kind.RenameDir?
    requires forall j :: 0 <= j < |rows| && j != i && rows[j].job.kind.RenameDir? ==> rows[j].job.kind.localApplied
    ensures Recovered(d, rows, false) == Finished(d, rows[i])
    decreases |rows|
  {
    hide Committed, AfterRename;
    if i > 0 {
      RecoveryFinishesTheIntent(d, rows[1..], i - 1);
    } else {
      NothingToRecover(Finished(d, rows[0]).0, rows[1..]);
    }
  }

  lemma {:induction false} NothingToRecover(d: Durable, rows: seq<Pending>)
    requires forall j :: 0 <= j < |rows| && rows[j].job.kind.RenameDir? ==> rows[j].job.kind.localApplied
    ensures Recovered(d, rows, false) == (d, true)
    decreases |rows|
  {
    if rows != [] {
      NothingToRecover(d, rows[1..]);
    }
  }

  /** The intent `rename_dir_local` queues. A folder with no agreed file below it whose own
      creation is still queued is unknown to the hub. */
  function Intent(d: Durable, from: Key, to: Key, operation: string): Pending
    requires from in d.dirAt
  {
    var localOnly := (forall k <- d.bases :: k == from || !Under(k, from))
                     && exists p <- d.jobs :: p.job.kind == Mkdir(from);
    Pending(Job(d.counter + 1, RenameDir(from, to, operation, d.dirAt[from], false, !localOnly), Interactive), "")
  }

  /** The intent names the directory that is there now. The hub is to be told unless it cannot know
      the folder: nothing below it is agreed, and its own creation is still queued. */
  lemma {:induction false} IntentSays(d: Durable, from: Key, to: Key, operation: string)
    requires from in d.dirAt
    ensures var row := Intent(d, from, to, operation);
            && row.job.seqNo == d.counter + 1 && row.job.priority.Interactive? && row.job.kind.RenameDir?
            && row.job.kind.from == from && row.job.kind.to == to && row.job.kind.dirId == d.dirAt[from] && !row.job.kind.localApplied
            && (row.job.kind.remote <==>
                  || (exists k <- d.bases :: k != from && Under(k, from))
                  || forall p <- d.jobs :: p.job.kind != Mkdir(from))
  {
  }

  function Queued(d: Durable, row: Pending): Durable {
    d.(jobs := d.jobs + [row], counter := d.counter + 1)
  }

  lemma {:induction false} OriginalArrives(dirAt: map<Key, nat>, from: Key, to: Key)
    requires from in dirAt
    ensures Lookup(RekeyMap(dirAt, from, to), to) == Some(dirAt[from])
  {
    assert Mapped(to, to, from) == from;
    RekeyLookup(dirAt, from, to, to);
  }

  /** Where an open handle's key is after the move. */
  function Followed(k: Key, from: Key, to: Key): Key {
    if Under(k, from) then Mapped(k, from, to) else k
  }

  /** The durable state of one mirror and the code that moves a directory in it. */
  class Mirror {
    var dirAt: map<Key, nat>
    var files: map<Key, Digest>
    var entries: map<Key, Entry>
    var bases: map<Key, Digest>
    var conflicts: map<Key, ConflictRecord>
    var dirs: set<Key>
    var jobs: seq<Pending>
    var counter: nat
    var openWrites: set<Key>

    function State(): Durable
      reads this
    {
      Durable(dirAt, files, entries, bases, conflicts, dirs, jobs, counter)
    }

    /** The queue part of the commit: content work below the old name is re-keyed and goes to
        the end; the move's own row is marked applied in place. */
    method RewriteQueue(move: Pending)
      requires move.job.kind.RenameDir?
      modifies this`jobs, this`counter
      ensures jobs == RewrittenTable(old(jobs), move, old(counter))
      ensures counter == old(counter) + |Movers(old(jobs), move.job)|
    {
      hide StaysPut, Stayers, Movers, Renumbered, MarkApplied;
      var rows := jobs;
      var kept, moved: seq<Pending> := [], [];
      EmptyParts(move.job, counter);
      for i := 0 to |rows|
        invariant kept == Stayers(rows[..i], move.job)
        invariant moved == Renumbered(Movers(rows[..i], move.job), move.job, old(counter))
        invariant counter == old(counter) + |Movers(rows[..i], move.job)|
      {
        var row := rows[i];
        assert rows[..i + 1] == rows[..i] + [row];
        PartsAppend(rows[..i], row, move.job, old(counter));
        if StaysPut(row.job, move.job) {
          kept := kept + [row];
        } else {
          counter := counter + 1;
          moved := moved + [RenumberedRow(row, move.job, counter)];
        }
      }
      assert rows[..|rows|] == rows;
      jobs := MarkApplied(kept, move) + moved;
    }

    /** `apply_directory_rename`: four tables and the queue in one commit. */
    method ApplyDirectoryRename(move: Pending)
      requires move.job.kind.RenameDir? && !Overlaps(move.job.kind.from, move.job.kind.to)
      modifies this
      ensures State() == Committed(old(State()), move)
      ensures openWrites == old(openWrites)
    {
      hide RekeyMap, RewrittenTable, Relabelled, MovedDirs, Under, Overlaps;
      if move.job.kind.localApplied {
        return;
      }
      var from, to := move.job.kind.from, move.job.kind.to;
      entries := RekeyTable(entries, from, to);
      bases := RekeyTable(bases, from, to);
      conflicts := RekeyTable(Relabelled(conflicts, from, to), from, to);
      dirs := MovedDirs(dirs, from, to);
      RewriteQueue(move);
    }

    /** `finish_directory_move`: `rename(2)` if the source is still the original directory, then
        the commit if the destination is. Open handles follow. */
    method FinishDirectoryMove(move: Pending) returns (ok: bool)
      requires move.job.kind.RenameDir? && !Overlaps(move.job.kind.from, move.job.kind.to)
      modifies this
      ensures (State(), ok) == Finished(old(State()), move)
      ensures openWrites == if ok && !move.job.kind.localApplied
                            then set k | k in old(openWrites) :: Followed(k, move.job.kind.from, move.job.kind.to)
                            else old(openWrites)
    {
      hide RekeyMap, Committed;
      var from, to, dirId := move.job.kind.from, move.job.kind.to, move.job.kind.dirId;
      if move.job.kind.localApplied {
        return true;
      }
      if from in dirAt && dirAt[from] == dirId {
        dirAt := RekeyMap(dirAt, from, to);
        files := RekeyMap(files, from, to);
      }
      if to !in dirAt || dirAt[to] != dirId {
        return false;
      }
      ApplyDirectoryRename(move);
      openWrites := set k | k in openWrites :: Followed(k, from, to);
      return true;
    }

    /** `recover_directory_moves`, at the start of every cycle. */
    method RecoverDirectoryMoves(protected: bool) returns (ok: bool)
      requires forall p <- jobs :: p.job.kind.RenameDir? ==> !Overlaps(p.job.kind.from, p.job.kind.to)
      modifies this
      ensures (State(), ok) == Recovered(old(State()), old(jobs), protected)
    {
      hide Finished;
      var rows := jobs;
      for i := 0 to |rows|
        invariant Recovered(old(State()), rows, protected) == Recovered(State(), rows[i..], protected)
      {
        assert rows[i..][0] == rows[i] && rows[i..][1..] == rows[i + 1..];
        var kind := rows[i].job.kind;
        if kind.RenameDir? && !(protected && !kind.localApplied && kind.from in dirAt) {
          var done := FinishDirectoryMove(rows[i]);
          if !done {
            return false;
          }
        }
      }
      return true;
    }

    /** `rename_dir_local`: check, queue the durable intent, finish it. `renameFails` is the
        system call's answer; the intent is withdrawn only when the source did not move. */
    method RenameDirLocal(from: Key, to: Key, operation: string, renameFails: bool) returns (ok: bool)
      modifies this
      ensures from == to ==> ok && State() == old(State())
      ensures from != to ==>
                (ok <==> !Overlaps(from, to) && (forall k <- old(entries).Keys + old(dirs) :: !Under(k, to) || k == to)
                         && to !in old(entries) && from in old(dirAt) && !renameFails)
      ensures ok && from != to ==>
                var row := Intent(old(State()), from, to, operation);
                State() == Finished(Queued(old(State()), row), row).0 == Committed(AfterRename(Queued(old(State()), row), row), row)
      ensures !ok ==> State().(counter := old(counter)) == old(State())
    {
      hide RekeyMap, Committed;
      if from == to {
        return true;
      }
      if Overlaps(from, to) || HasChildren(State(), to) || to in entries || from !in dirAt {
        return false;
      }
      var row := Intent(State(), from, to, operation);
      counter := counter + 1;
      jobs := jobs + [row];
      if renameFails {
        jobs := jobs[..|jobs| - 1];
        return false;
      }
      OriginalArrives(dirAt, from, to);
      ok := FinishDirectoryMove(row);
    }
  }
}
