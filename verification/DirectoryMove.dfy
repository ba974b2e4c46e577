/** A directory move as one recoverable transaction: intent, `rename(2)`, ledger commit
    (`apply_directory_rename` in `src/mirror/store.rs`, `finish_directory_move` and
    `recover_directory_moves` in `src/mirror/sync.rs`). */
module DirectoryMove {
  import opened Options
  import opened Keys
  import opened Reconcile
  import opened Jobs
  import opened Rekey
  import opened Replay

  // ── what happens to the queue ─────────────────────────────────────────────

  predicate Structural(kind: JobKind) { kind.Delete? || kind.Mkdir? || kind.Rmdir? }

  /** Rows that keep their key and their place. Earlier structural work still addresses the
      server's old namespace; renames are never re-keyed. */
  predicate StaysPut(j: Job, move: Job)
    requires move.kind.RenameDir?
  {
    || j.seqNo == move.seqNo
    || !Under(j.kind.MainKey(), move.kind.from)
    || (move.kind.remote && j.seqNo < move.seqNo && Structural(j.kind))
    || j.kind.Rename? || j.kind.RenameDir?
  }

  function MappedKind(kind: JobKind, from: Key, to: Key): JobKind
    requires Under(kind.MainKey(), from) && !kind.Rename? && !kind.RenameDir?
  {
    kind.(key := Mapped(kind.key, from, to))
  }

  /** The rows left in place, in order. */
  function Stayers(ps: seq<Pending>, move: Job): seq<Pending>
    requires move.kind.RenameDir?
  {
    if ps == [] then []
    else (if StaysPut(ps[0].job, move) then [ps[0]] else []) + Stayers(ps[1..], move)
  }

  function Movers(ps: seq<Pending>, move: Job): (r: seq<Pending>)
    requires move.kind.RenameDir?
    ensures forall p <- r :: !StaysPut(p.job, move)
  {
    if ps == [] then []
    else (if StaysPut(ps[0].job, move) then [] else [ps[0]]) + Movers(ps[1..], move)
  }

  function RenumberedRow(p: Pending, move: Job, seqNo: nat): Pending
    requires move.kind.RenameDir? && !StaysPut(p.job, move)
  {
    Pending(Job(seqNo, MappedKind(p.job.kind, move.kind.from, move.kind.to), p.job.priority), p.body)
  }

  /** Content work follows the local path, under fresh numbers after everything queued. */
  function Renumbered(ps: seq<Pending>, move: Job, counter: nat): (r: seq<Pending>)
    requires move.kind.RenameDir?
    requires forall p <- ps :: !StaysPut(p.job, move)
    ensures |r| == |ps|
  {
    if ps == [] then []
    else [RenumberedRow(ps[0], move, counter + 1)] + Renumbered(ps[1..], move, counter + 1)
  }

  // ── the rewritten queue means the same ────────────────────────────────────

  /** Nothing of the hub's or of ours is at the destination. */
  predicate DestinationFree(w: World, to: Key) {
    FreeOfFiles(w.hub, to) && FreeOfFiles(w.agreed, to)
  }

  lemma {:induction false} RekeyPut(m: map<Key, Digest>, from: Key, to: Key, k: Key, d: Digest)
    requires Under(k, from) && !Overlaps(from, to)
    ensures RekeyMap(m[k := d], from, to) == RekeyMap(m, from, to)[Mapped(k, from, to) := d]
  {
    hide RekeyMap, Overlaps;
    var a, b := RekeyMap(m[k := d], from, to), RekeyMap(m, from, to)[Mapped(k, from, to) := d];
    forall x ensures Lookup(a, x) == Lookup(b, x) {
      RekeyLookup(m[k := d], from, to, x);
      RekeyLookup(m, from, to, x);
      MappedIsRelabelling(k, k, from, to);
      if Under(x, to) {
        MappedIsRelabelling(x, Mapped(k, from, to), to, from);
      }
    }
    RekeyAgrees(a, b);
  }

  lemma {:induction false} RekeyRemove(m: map<Key, Digest>, from: Key, to: Key, k: Key)
    requires Under(k, from) && !Overlaps(from, to) && FreeOfFiles(m, to)
    ensures RekeyMap(m - {k}, from, to) == RekeyMap(m, from, to) - {Mapped(k, from, to)}
  {
    hide RekeyMap, Overlaps;
    var a, b := RekeyMap(m - {k}, from, to), RekeyMap(m, from, to) - {Mapped(k, from, to)};
    forall x ensures Lookup(a, x) == Lookup(b, x) {
      RekeyLookup(m - {k}, from, to, x);
      RekeyLookup(m, from, to, x);
      MappedIsRelabelling(k, k, from, to);
      if Under(x, to) {
        MappedIsRelabelling(x, Mapped(k, from, to), to, from);
      }
    }
    RekeyAgrees(a, b);
  }

  lemma {:induction false} RekeyAtMapped(m: map<Key, Digest>, from: Key, to: Key, k: Key)
    requires Under(k, from) && !Overlaps(from, to) && FreeOfFiles(m, to)
    ensures Lookup(RekeyMap(m, from, to), Mapped(k, from, to)) == Lookup(m, k)
  {
    MappedIsRelabelling(k, k, from, to);
    RekeyLookup(m, from, to, Mapped(k, from, to));
  }

  /** The move as it acts on both tables when its destination is free. */
  function Moved(w: World, from: Key, to: Key): World {
    World(RekeyMap(w.hub, from, to), RekeyMap(w.agreed, from, to))
  }

  lemma {:induction false} StaysFree(m: map<Key, Digest>, from: Key, to: Key, k: Key, d: Digest)
    requires Under(k, from) && !Overlaps(from, to) && FreeOfFiles(m, to)
    ensures FreeOfFiles(m[k := d], to) && FreeOfFiles(m - {k}, to)
  {
    if Under(k, to) {
      CommonDescendantOverlaps(k, from, to);
    }
  }

  lemma {:induction false} PushFollowsMove(w: World, p: Pending, q: Pending, f: Key, t: Key)
    requires p.job.kind.Push? && Under(p.job.kind.key, f) && !Overlaps(f, t) && DestinationFree(w, t)
    requires q.job.kind == JobKind.Push(Mapped(p.job.kind.key, f, t)) && q.body == p.body
    ensures DestinationFree(Exec(w, p), t) && Moved(Exec(w, p), f, t) == Exec(Moved(w, f, t), q)
  {
    hide RekeyMap, FreeOfFiles, Under, Overlaps;
    var k := p.job.kind.key;
    RekeyAtMapped(w.hub, f, t, k);
    RekeyAtMapped(w.agreed, f, t, k);
    RekeyPut(w.hub, f, t, k, p.body);
    RekeyPut(w.agreed, f, t, k, p.body);
    StaysFree(w.hub, f, t, k, p.body);
    StaysFree(w.agreed, f, t, k, p.body);
  }

  lemma {:induction false} DeleteFollowsMove(w: World, p: Pending, q: Pending, f: Key, t: Key)
    requires p.job.kind.Delete? && Under(p.job.kind.key, f) && !Overlaps(f, t) && DestinationFree(w, t)
    requires q.job.kind == JobKind.Delete(Mapped(p.job.kind.key, f, t), p.job.kind.ifMatch)
    ensures DestinationFree(Exec(w, p), t) && Moved(Exec(w, p), f, t) == Exec(Moved(w, f, t), q)
  {
    hide RekeyMap, FreeOfFiles, Under, Overlaps;
    var k := p.job.kind.key;
    RekeyAtMapped(w.hub, f, t, k);
    RekeyAtMapped(w.agreed, f, t, k);
    RekeyRemove(w.hub, f, t, k);
    RekeyRemove(w.agreed, f, t, k);
    StaysFree(w.hub, f, t, k, "");
    StaysFree(w.agreed, f, t, k, "");
  }

  /** Work on one file done before the move is the same work on its new name after it. */
  lemma {:induction false} WorkFollowsMove(w: World, p: Pending, q: Pending, f: Key, t: Key)
    requires !Overlaps(f, t) && DestinationFree(w, t)
    requires Under(p.job.kind.MainKey(), f) && !p.job.kind.Rename? && !p.job.kind.RenameDir?
    requires q.job.kind == MappedKind(p.job.kind, f, t) && q.body == p.body
    ensures DestinationFree(Exec(w, p), t) && Moved(Exec(w, p), f, t) == Exec(Moved(w, f, t), q)
  {
    hide DestinationFree, Moved, Overlaps, Under;
    if p.job.kind.Push? {
      PushFollowsMove(w, p, q, f, t);
    } else if p.job.kind.Delete? {
      DeleteFollowsMove(w, p, q, f, t);
    }
  }

  lemma {:induction false} AllWorkFollowsMove(w: World, movers: seq<Pending>, move: Job, counter: nat)
    requires move.kind.RenameDir? && !Overlaps(move.kind.from, move.kind.to) && DestinationFree(w, move.kind.to)
    requires forall p <- movers :: !StaysPut(p.job, move)
    ensures DestinationFree(ExecAll(w, movers), move.kind.to)
    ensures ExecAll(Moved(w, move.kind.from, move.kind.to), Renumbered(movers, move, counter))
         == Moved(ExecAll(w, movers), move.kind.from, move.kind.to)
    decreases |movers|
  {
    hide DestinationFree, Moved, Overlaps, Under, Exec;
    if movers != [] {
      var q := Renumbered(movers, move, counter)[0];
      assert movers[0] in movers;
      WorkFollowsMove(w, movers[0], q, move.kind.from, move.kind.to);
      AllWorkFollowsMove(Exec(w, movers[0]), movers[1..], move, counter + 1);
      assert Renumbered(movers, move, counter)[1..] == Renumbered(movers[1..], move, counter + 1);
    }
  }

  lemma {:induction false} MoveWhenFree(w: World, move: Pending)
    requires move.job.kind.RenameDir? && !Overlaps(move.job.kind.from, move.job.kind.to)
    requires move.job.kind.remote && DestinationFree(w, move.job.kind.to)
    ensures Exec(w, move) == Moved(w, move.job.kind.from, move.job.kind.to)
  {
  }

  lemma {:induction false} Partition(ps: seq<Pending>, move: Job)
    requires move.kind.RenameDir?
    ensures multiset(Stayers(ps, move) + Movers(ps, move)) == multiset(ps)
  {
    hide StaysPut;
    if ps != [] {
      var p, s, m := ps[0], Stayers(ps[1..], move), Movers(ps[1..], move);
      Partition(ps[1..], move);
      calc {
        multiset(Stayers(ps, move) + Movers(ps, move));
        { PartsCons(ps, move); }
        multiset{p} + multiset(s + m);
        multiset{p} + multiset(ps[1..]);
        { assert ps == [p] + ps[1..]; }
        multiset(ps);
      }
    }
  }

  lemma {:induction false} PartsCons(ps: seq<Pending>, move: Job)
    requires move.kind.RenameDir? && ps != []
    ensures multiset(Stayers(ps, move) + Movers(ps, move))
         == multiset{ps[0]} + multiset(Stayers(ps[1..], move) + Movers(ps[1..], move))
  {
    hide StaysPut;
    var p, s, m := ps[0], Stayers(ps[1..], move), Movers(ps[1..], move);
    if StaysPut(p.job, move) {
      assert Stayers(ps, move) + Movers(ps, move) == [p] + (s + m);
    } else {
      assert Stayers(ps, move) + Movers(ps, move) == s + [p] + m;
    }
  }

  lemma {:induction false} PartsAreRows(ps: seq<Pending>, move: Job)
    requires move.kind.RenameDir?
    ensures forall p <- Stayers(ps, move) :: p in ps && StaysPut(p.job, move)
    ensures forall p <- Movers(ps, move) :: p in ps
  {
    hide StaysPut;
    if ps != [] {
      PartsAreRows(ps[1..], move);
      assert forall p <- ps[1..] :: p in ps;
    }
  }

  lemma {:induction false} OrderCons(p: Pending, ps: seq<Pending>, part: seq<Pending>)
    requires SubmissionOrder([p] + ps) && SubmissionOrder(part) && forall q <- part :: q in ps
    ensures SubmissionOrder([p] + part)
  {
    forall i, j | 0 <= i < j < |[p] + part| ensures ([p] + part)[i].job.seqNo < ([p] + part)[j].job.seqNo {
      assert part[j - 1] in ps;
      var k :| 0 <= k < |ps| && ps[k] == part[j - 1];
      assert ([p] + ps)[0].job.seqNo < ([p] + ps)[k + 1].job.seqNo;
      assert i > 0 ==> part[i - 1].job.seqNo < part[j - 1].job.seqNo;
    }
  }

  lemma {:induction false} PartsKeepOrder(ps: seq<Pending>, move: Job)
    requires move.kind.RenameDir? && SubmissionOrder(ps)
    ensures SubmissionOrder(Stayers(ps, move)) && SubmissionOrder(Movers(ps, move))
  {
    hide StaysPut, SubmissionOrder;
    if ps != [] {
      assert ps == [ps[0]] + ps[1..];
      OrderTail(ps);
      PartsKeepOrder(ps[1..], move);
      PartsAreRows(ps[1..], move);
      assert [] + Stayers(ps[1..], move) == Stayers(ps[1..], move);
      assert [] + Movers(ps[1..], move) == Movers(ps[1..], move);
      OrderCons(ps[0], ps[1..], Stayers(ps[1..], move));
      OrderCons(ps[0], ps[1..], Movers(ps[1..], move));
    } else {
      OrderEmpty();
    }
  }

  lemma {:induction false} OrderEmpty()
    ensures SubmissionOrder([])
  {
  }

  lemma {:induction false} OrderTail(ps: seq<Pending>)
    requires ps != [] && SubmissionOrder(ps)
    ensures SubmissionOrder(ps[1..])
  {
    forall i, j | 0 <= i < j < |ps[1..]| ensures ps[1..][i].job.seqNo < ps[1..][j].job.seqNo {
      assert ps[i + 1].job.seqNo < ps[j + 1].job.seqNo;
    }
  }

  /** No structural job or rename queued later than some content work shares its path. */
  predicate NoLaterStructure(ps: seq<Pending>, move: Job)
    requires move.kind.RenameDir?
  {
    forall a, b {:trigger JobsOverlap(ps[a].job, ps[b].job)} ::
      0 <= a < b < |ps| && !StaysPut(ps[a].job, move) && StaysPut(ps[b].job, move) ==> !JobsOverlap(ps[a].job, ps[b].job)
  }

  lemma {:induction false} StayersFirst(ps: seq<Pending>, move: Job)
    requires move.kind.RenameDir? && SubmissionOrder(ps) && NoLaterStructure(ps, move)
    ensures RespectsDependencies(Stayers(ps, move) + Movers(ps, move))
  {
    hide StaysPut, JobsOverlap;
    PartsKeepOrder(ps, move);
    PartsAreRows(ps, move);
    var s, m := Stayers(ps, move), Movers(ps, move);
    var run := s + m;
    forall i, j | 0 <= i < j < |run| && JobsOverlap(run[i].job, run[j].job)
      ensures run[i].job.seqNo < run[j].job.seqNo
    {
      if j < |s| {
        assert s[i].job.seqNo < s[j].job.seqNo;
      } else if |s| <= i {
        assert m[i - |s|].job.seqNo < m[j - |s|].job.seqNo;
      } else {
        StayerBeforeMover(ps, move, s[i], m[j - |s|]);
      }
    }
  }

  lemma {:induction false} LaterStayerIsApart(ps: seq<Pending>, move: Job, a: nat, b: nat)
    requires move.kind.RenameDir? && NoLaterStructure(ps, move)
    ensures a < b < |ps| && !StaysPut(ps[a].job, move) && StaysPut(ps[b].job, move) ==> !JobsOverlap(ps[a].job, ps[b].job)
  {
  }

  lemma {:induction false} StayerBeforeMover(ps: seq<Pending>, move: Job, s: Pending, m: Pending)
    requires move.kind.RenameDir? && SubmissionOrder(ps) && NoLaterStructure(ps, move)
    requires s in ps && m in ps && StaysPut(s.job, move) && !StaysPut(m.job, move)
    requires JobsOverlap(s.job, m.job)
    ensures s.job.seqNo < m.job.seqNo
  {
    hide StaysPut, JobsOverlap;
    var b :| 0 <= b < |ps| && ps[b] == s;
    var a :| 0 <= a < |ps| && ps[a] == m;
    OverlapSymmetric(s.job, m.job);
    LaterStayerIsApart(ps, move, a, b);
    assert b < a;
  }

  lemma {:induction false} OverlapSymmetric(a: Job, b: Job)
    ensures JobsOverlap(a, b) <==> JobsOverlap(b, a)
  {
  }

  /** The queue `apply_directory_rename` leaves: untouched rows, the move, then the content
      work re-keyed and renumbered. */
  function Rewritten(ps: seq<Pending>, move: Pending, counter: nat): seq<Pending>
    requires move.job.kind.RenameDir?
  {
    Stayers(ps, move.job) + [move] + Renumbered(Movers(ps, move.job), move.job, counter)
  }

  /** The stayers run first, whatever the order the rows were queued in. */
  lemma {:induction false} SplitRun(w: World, ps: seq<Pending>, move: Job)
    requires move.kind.RenameDir? && SubmissionOrder(ps) && NoLaterStructure(ps, move)
    ensures ExecAll(ExecAll(w, Stayers(ps, move)), Movers(ps, move)) == ExecAll(w, ps)
  {
    hide *;
    Partition(ps, move);
    StayersFirst(ps, move);
    DependencyOrderSuffices(w, Stayers(ps, move) + Movers(ps, move), ps);
    ExecAllAppend(w, Stayers(ps, move), Movers(ps, move));
  }

  lemma {:induction false} RunRewritten(w: World, ps: seq<Pending>, move: Pending, counter: nat)
    requires move.job.kind.RenameDir?
    ensures ExecAll(w, Rewritten(ps, move, counter)) ==
              ExecAll(Exec(ExecAll(w, Stayers(ps, move.job)), move), Renumbered(Movers(ps, move.job), move.job, counter))
  {
    hide StaysPut, Exec, Renumbered;
    ExecAllOne(w, Stayers(ps, move.job), move);
    ExecAllAppend(w, Stayers(ps, move.job) + [move], Renumbered(Movers(ps, move.job), move.job, counter));
  }

  /** Rewriting the queue preserves its meaning: running the rewritten queue gives the same
      hub files and the same agreed versions as running the old queue and then the move,
      provided the destination is empty when the move runs. */
  lemma {:induction false} RewriteKeepsMeaning(w: World, ps: seq<Pending>, move: Pending, counter: nat)
    requires move.job.kind.RenameDir? && move.job.kind.remote
    requires !Overlaps(move.job.kind.from, move.job.kind.to)
    requires SubmissionOrder(ps) && NoLaterStructure(ps, move.job)
    requires DestinationFree(ExecAll(w, Stayers(ps, move.job)), move.job.kind.to)
    ensures ExecAll(w, Rewritten(ps, move, counter)) == ExecAll(w, ps + [move])
  {
    hide *;
    var before := ExecAll(w, Stayers(ps, move.job));
    SplitRun(w, ps, move.job);
    AllWorkFollowsMove(before, Movers(ps, move.job), move.job, counter);
    MoveWhenFree(before, move);
    MoveWhenFree(ExecAll(before, Movers(ps, move.job)), move);
    ExecAllOne(w, ps, move);
    RunRewritten(w, ps, move, counter);
  }

  /** A folder the hub never had (`remote` false): everything queued below it is re-keyed and
      nothing is sent for the move itself, which again amounts to the old queue followed by
      the move. */
  lemma {:induction false} LocalRewriteKeepsMeaning(w: World, ps: seq<Pending>, move: Pending, counter: nat)
    requires move.job.kind.RenameDir? && !move.job.kind.remote
    requires !Overlaps(move.job.kind.from, move.job.kind.to)
    requires SubmissionOrder(ps) && NoLaterStructure(ps, move.job)
    requires var before := ExecAll(w, Stayers(ps, move.job));
             DestinationFree(before, move.job.kind.to) && DestinationFree(before, move.job.kind.from)
    ensures ExecAll(w, Rewritten(ps, move, counter)) == Moved(ExecAll(w, ps), move.job.kind.from, move.job.kind.to)
  {
    var before := ExecAll(w, Stayers(ps, move.job));
    NothingToMove(before, move.job.kind.from, move.job.kind.to);
    hide *;
    SplitRun(w, ps, move.job);
    AllWorkFollowsMove(before, Movers(ps, move.job), move.job, counter);
    LocalMoveSendsNothing(before, move);
    RunRewritten(w, ps, move, counter);
  }

  lemma {:induction false} LocalMoveSendsNothing(w: World, move: Pending)
    requires move.job.kind.RenameDir? && !move.job.kind.remote
    ensures Exec(w, move) == w
  {
  }

  lemma {:induction false} RekeyNothing(m: map<Key, Digest>, from: Key, to: Key)
    requires FreeOfFiles(m, from)
    ensures RekeyMap(m, from, to) == m
  {
    hide RekeyMap, Under;
    forall k ensures Lookup(RekeyMap(m, from, to), k) == Lookup(m, k) {
      RekeyLookup(m, from, to, k);
      MappedLandsUnder(k, to, from);
    }
    RekeyAgrees(RekeyMap(m, from, to), m);
  }

  lemma {:induction false} MappedLandsUnder(k: Key, from: Key, to: Key)
    ensures Under(k, from) ==> Under(Mapped(k, from, to), to)
  {
    if Under(k, from) {
      MappedIsRelabelling(k, k, from, to);
    }
  }

  lemma {:induction false} NothingToMove(w: World, from: Key, to: Key)
    requires DestinationFree(w, from)
    ensures Moved(w, from, to) == w
  {
    RekeyNothing(w.hub, from, to);
    RekeyNothing(w.agreed, from, to);
  }
}
