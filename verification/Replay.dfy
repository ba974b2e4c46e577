/** What running queued jobs does to the hub, and why reordering independent jobs is harmless. */
module Replay {
  import opened Options
  import opened Keys
  import opened Reconcile
  import opened Jobs
  import opened Rekey

  /** The hub's files, and the versions this device has agreed on, under the hub's names. */
  datatype World = World(hub: map<Key, Digest>, agreed: map<Key, Digest>)

  /** A queued job together with the bytes it would upload. */
  datatype Pending = Pending(job: Job, body: Digest)

  predicate FreeOfFiles(hub: map<Key, Digest>, dir: Key) {
    forall k <- hub :: !Under(k, dir)
  }

  /** One job against the hub's conditional operations (sections 13.1.1 and 13.1.2 of RFC 9110).
      A refused request changes nothing; reconciling it is not part of the replay. Conflict
      uploads, `mkdir` and `rmdir` touch no object. */
  function Exec(w: World, p: Pending): World {
    match p.job.kind
    case Push(k) =>
      if Lookup(w.hub, k) == Lookup(w.agreed, k)
      then World(w.hub[k := p.body], w.agreed[k := p.body]) else w
    case Delete(k, fixed) =>
      var expected := if fixed.Some? then fixed else Lookup(w.agreed, k);
      if expected.None? || (k in w.hub && w.hub[k] != expected.value) then w
      else World(w.hub - {k}, if fixed.None? then w.agreed - {k} else w.agreed)
    case Rename(f, t) =>
      if f != t && f in w.hub && t !in w.hub && (f in w.agreed ==> w.agreed[f] == w.hub[f]) then
        World((w.hub - {f})[t := w.hub[f]],
              if f in w.agreed then (w.agreed - {f})[t := w.agreed[f]] else w.agreed)
      else w
    case RenameDir(f, t, _, _, _, remote) =>
      if remote && !Overlaps(f, t) && FreeOfFiles(w.hub, t)
      then World(RekeyMap(w.hub, f, t), RekeyMap(w.agreed, f, t)) else w
    case _ => w
  }

  function ExecAll(w: World, ps: seq<Pending>): World
    decreases |ps|
  {
    if ps == [] then w else ExecAll(Exec(w, ps[0]), ps[1..])
  }

  // ── locality ──────────────────────────────────────────────────────────────

  /** The keys a job can read or write. */
  predicate InRegion(k: Key, kind: JobKind) {
    Under(k, kind.MainKey()) || Under(k, kind.OtherKey())
  }

  predicate SameAt(w: World, v: World, k: Key) {
    Lookup(w.hub, k) == Lookup(v.hub, k) && Lookup(w.agreed, k) == Lookup(v.agreed, k)
  }

  lemma {:induction false} SameEverywhere(w: World, v: World)
    requires forall k :: SameAt(w, v, k)
    ensures w == v
  {
    forall k ensures Lookup(w.hub, k) == Lookup(v.hub, k) && Lookup(w.agreed, k) == Lookup(v.agreed, k) {
      assert SameAt(w, v, k);
    }
    RekeyAgrees(w.hub, v.hub);
    RekeyAgrees(w.agreed, v.agreed);
  }

  /** A job leaves everything outside its region alone. */
  lemma {:induction false} ExecFrame(w: World, p: Pending, k: Key)
    requires !InRegion(k, p.job.kind)
    ensures SameAt(Exec(w, p), w, k)
  {
    var kind := p.job.kind;
    if kind.RenameDir? {
      RekeyLookup(w.hub, kind.from, kind.to, k);
      RekeyLookup(w.agreed, kind.from, kind.to, k);
    }
  }

  lemma {:induction false} FreeOfFilesAgree(h: map<Key, Digest>, g: map<Key, Digest>, dir: Key)
    requires forall x :: Under(x, dir) ==> Lookup(h, x) == Lookup(g, x)
    ensures FreeOfFiles(h, dir) == FreeOfFiles(g, dir)
  {
    forall k | k in g || k in h ensures Under(k, dir) ==> k in g && k in h {
      assert Under(k, dir) ==> Lookup(h, k) == Lookup(g, k);
    }
  }

  lemma {:induction false} RekeyLocal(m: map<Key, Digest>, n: map<Key, Digest>, f: Key, t: Key, k: Key)
    requires forall x :: Under(x, f) || Under(x, t) ==> Lookup(m, x) == Lookup(n, x)
    requires Under(k, f) || Under(k, t)
    ensures Lookup(RekeyMap(m, f, t), k) == Lookup(RekeyMap(n, f, t), k)
  {
    RekeyLookup(m, f, t, k);
    RekeyLookup(n, f, t, k);
    if Under(k, t) {
      MappedIsRelabelling(k, k, t, f);
      assert Lookup(m, Mapped(k, t, f)) == Lookup(n, Mapped(k, t, f));
    }
    assert Lookup(m, k) == Lookup(n, k);
  }

  lemma {:induction false} ExecLocalMove(w: World, v: World, p: Pending, k: Key)
    requires p.job.kind.RenameDir?
    requires forall x :: InRegion(x, p.job.kind) ==> SameAt(w, v, x)
    requires InRegion(k, p.job.kind)
    ensures SameAt(Exec(w, p), Exec(v, p), k)
  {
    hide Under, RekeyMap, FreeOfFiles, Overlaps;
    var f, t := p.job.kind.from, p.job.kind.to;
    forall x | Under(x, f) || Under(x, t)
      ensures Lookup(w.hub, x) == Lookup(v.hub, x) && Lookup(w.agreed, x) == Lookup(v.agreed, x)
    {
      assert SameAt(w, v, x);
    }
    FreeOfFilesAgree(w.hub, v.hub, t);
    RekeyLocal(w.hub, v.hub, f, t, k);
    RekeyLocal(w.agreed, v.agreed, f, t, k);
  }

  lemma {:induction false} ExecLocalRename(w: World, v: World, p: Pending, k: Key)
    requires p.job.kind.Rename?
    requires SameAt(w, v, p.job.kind.from) && SameAt(w, v, p.job.kind.to) && SameAt(w, v, k)
    ensures SameAt(Exec(w, p), Exec(v, p), k)
  {
  }

  lemma {:induction false} ExecLocalFile(w: World, v: World, p: Pending, k: Key)
    requires !p.job.kind.Rename? && !p.job.kind.RenameDir?
    requires SameAt(w, v, p.job.kind.key) && SameAt(w, v, k)
    ensures SameAt(Exec(w, p), Exec(v, p), k)
  {
  }

  /** What a job does inside its region depends on that region only. */
  lemma {:induction false} ExecLocal(w: World, v: World, p: Pending, k: Key)
    requires forall x :: InRegion(x, p.job.kind) ==> SameAt(w, v, x)
    requires InRegion(k, p.job.kind)
    ensures SameAt(Exec(w, p), Exec(v, p), k)
  {
    hide Exec, SameAt;
    var kind := p.job.kind;
    assert SameAt(w, v, k);
    if kind.RenameDir? {
      ExecLocalMove(w, v, p, k);
    } else {
      assert InRegion(kind.MainKey(), kind) && InRegion(kind.OtherKey(), kind);
      if kind.Rename? {
        ExecLocalRename(w, v, p, k);
      } else {
        ExecLocalFile(w, v, p, k);
      }
    }
  }

  /** Two jobs overlap exactly when some key is in both their regions. */
  lemma {:induction false} OverlapIsSharedRegion(a: JobKind, b: JobKind)
    ensures KindsOverlap(a, b) <==> exists k :: InRegion(k, a) && InRegion(k, b)
  {
    OverlapsIffShared(a.MainKey(), b.MainKey());
    OverlapsIffShared(a.MainKey(), b.OtherKey());
    OverlapsIffShared(a.OtherKey(), b.MainKey());
    OverlapsIffShared(a.OtherKey(), b.OtherKey());
    hide Under, Overlaps;
    if k :| InRegion(k, a) && InRegion(k, b) && !KindsOverlap(a, b) {
      RegionsDisjoint(a, b, k);
    }
    if KindsOverlap(a, b) {
      var x := if Overlaps(a.MainKey(), b.MainKey()) || Overlaps(a.MainKey(), b.OtherKey()) then a.MainKey() else a.OtherKey();
      var y := if Overlaps(x, b.MainKey()) then b.MainKey() else b.OtherKey();
      var k :| Under(k, x) && Under(k, y);
      assert InRegion(k, a) && InRegion(k, b);
    }
  }

  lemma {:induction false} RegionsDisjoint(a: JobKind, b: JobKind, k: Key)
    requires !KindsOverlap(a, b) && InRegion(k, a)
    ensures !InRegion(k, b)
  {
    var x := if Under(k, a.MainKey()) then a.MainKey() else a.OtherKey();
    if Under(k, b.MainKey()) {
      CommonDescendantOverlaps(k, x, b.MainKey());
    }
    if Under(k, b.OtherKey()) {
      CommonDescendantOverlaps(k, x, b.OtherKey());
    }
  }

  /** Jobs on non-overlapping paths commute. */
  lemma {:induction false} ExecCommutes(w: World, a: Pending, b: Pending)
    requires !JobsOverlap(a.job, b.job)
    ensures Exec(Exec(w, a), b) == Exec(Exec(w, b), a)
  {
    var ka, kb := a.job.kind, b.job.kind;
    KindsOverlapSymmetric(ka, kb);
    var wa, wb := Exec(w, a), Exec(w, b);
    forall x | InRegion(x, kb) ensures SameAt(wa, w, x) {
      RegionsDisjoint(kb, ka, x);
      ExecFrame(w, a, x);
    }
    forall x | InRegion(x, ka) ensures SameAt(wb, w, x) {
      RegionsDisjoint(ka, kb, x);
      ExecFrame(w, b, x);
    }
    forall k ensures SameAt(Exec(wa, b), Exec(wb, a), k) {
      if InRegion(k, ka) {
        RegionsDisjoint(ka, kb, k);
        ExecFrame(wa, b, k);
        ExecLocal(wb, w, a, k);
      } else if InRegion(k, kb) {
        ExecFrame(wb, a, k);
        ExecLocal(wa, w, b, k);
      } else {
        ExecFrame(wa, b, k);
        ExecFrame(w, a, k);
        ExecFrame(wb, a, k);
        ExecFrame(w, b, k);
      }
    }
    SameEverywhere(Exec(wa, b), Exec(wb, a));
  }

  // ── reordering ────────────────────────────────────────────────────────────

  lemma {:induction false} ExecAllAppend(w: World, a: seq<Pending>, b: seq<Pending>)
    ensures ExecAll(w, a + b) == ExecAll(ExecAll(w, a), b)
    decreases |a|
  {
    if a == [] {
      assert a + b == b;
    } else {
      assert (a + b)[1..] == a[1..] + b;
      ExecAllAppend(Exec(w, a[0]), a[1..], b);
    }
  }

  lemma {:induction false} ExecAllOne(w: World, ps: seq<Pending>, p: Pending)
    ensures ExecAll(w, ps + [p]) == Exec(ExecAll(w, ps), p)
  {
    ExecAllAppend(w, ps, [p]);
    assert [p][1..] == [];
  }

  /** A job may be run before a block of jobs it does not overlap. */
  lemma {:induction false} ExecAllHoist(w: World, pre: seq<Pending>, p: Pending)
    requires forall q <- pre :: !JobsOverlap(q.job, p.job)
    ensures ExecAll(w, pre + [p]) == ExecAll(w, [p] + pre)
    decreases |pre|
  {
    if pre == [] {
      assert pre + [p] == [p] + pre;
    } else {
      var q := pre[0];
      assert (pre + [p])[1..] == pre[1..] + [p];
      ExecAllHoist(Exec(w, q), pre[1..], p);
      assert ([p] + pre[1..])[1..] == pre[1..] && ([p] + pre)[1..] == pre;
      ExecCommutes(w, q, p);
    }
  }

  /** Jobs on overlapping paths run in submission order. */
  predicate RespectsDependencies(ps: seq<Pending>) {
    forall i, j {:trigger JobsOverlap(ps[i].job, ps[j].job)} ::
      0 <= i < j < |ps| && JobsOverlap(ps[i].job, ps[j].job) ==> ps[i].job.seqNo < ps[j].job.seqNo
  }

  predicate SubmissionOrder(ps: seq<Pending>) {
    forall i, j {:trigger ps[i].job.seqNo, ps[j].job.seqNo} ::
      0 <= i < j < |ps| ==> ps[i].job.seqNo < ps[j].job.seqNo
  }

  function Without(ps: seq<Pending>, i: nat): seq<Pending>
    requires i < |ps|
  {
    ps[..i] + ps[i + 1..]
  }

  lemma {:induction false} WithoutRespects(run: seq<Pending>, i: nat)
    requires i < |run| && RespectsDependencies(run)
    ensures RespectsDependencies(Without(run, i))
  {
    var r := Without(run, i);
    forall a, b | 0 <= a < b < |r| && JobsOverlap(r[a].job, r[b].job)
      ensures r[a].job.seqNo < r[b].job.seqNo
    {
      var a' := if a < i then a else a + 1;
      var b' := if b < i then b else b + 1;
      assert r[a] == run[a'] && r[b] == run[b'];
    }
  }

  lemma {:induction false} WithoutOrder(ps: seq<Pending>, i: nat)
    requires i < |ps| && SubmissionOrder(ps)
    ensures SubmissionOrder(Without(ps, i))
  {
    var r := Without(ps, i);
    forall a, b | 0 <= a < b < |r| ensures r[a].job.seqNo < r[b].job.seqNo {
      assert r[a] == ps[if a < i then a else a + 1] && r[b] == ps[if b < i then b else b + 1];
    }
  }

  lemma {:induction false} WithoutMultiset(run: seq<Pending>, i: nat)
    requires i < |run|
    ensures multiset(Without(run, i)) == multiset(run) - multiset{run[i]}
  {
    assert run == run[..i] + [run[i]] + run[i + 1..];
  }

  lemma {:induction false} NoOverlapBeforeEarliest(run: seq<Pending>, queue: seq<Pending>, i: nat, j: nat)
    requires multiset(run) == multiset(queue) && queue != []
    requires RespectsDependencies(run) && SubmissionOrder(queue)
    requires j < i < |run| && run[i] == queue[0]
    ensures !JobsOverlap(run[j].job, queue[0].job)
  {
    assert run[j] in multiset(run);
    assert run[j] in multiset(queue);
    var m :| 0 <= m < |queue| && queue[m] == run[j];
  }

  /** The earliest submission can be taken out of any dependency-respecting run: nothing it
      overlaps comes before it, and the rest is a run of the rest of the queue. */
  lemma {:induction false} EarliestIsFree(run: seq<Pending>, queue: seq<Pending>) returns (i: nat)
    requires multiset(run) == multiset(queue) && queue != []
    requires RespectsDependencies(run) && SubmissionOrder(queue)
    ensures i < |run| && run[i] == queue[0]
    ensures forall q <- run[..i] :: !JobsOverlap(q.job, queue[0].job)
    ensures multiset(Without(run, i)) == multiset(queue[1..])
    ensures RespectsDependencies(Without(run, i)) && SubmissionOrder(queue[1..])
  {
    hide RespectsDependencies, SubmissionOrder, JobsOverlap;
    assert queue[0] in multiset(queue);
    assert queue[0] in multiset(run);
    i :| 0 <= i < |run| && run[i] == queue[0];
    forall q | q in run[..i] ensures !JobsOverlap(q.job, queue[0].job) {
      var j :| 0 <= j < i && run[j] == q;
      NoOverlapBeforeEarliest(run, queue, i, j);
    }
    WithoutMultiset(run, i);
    WithoutMultiset(queue, 0);
    assert Without(queue, 0) == queue[1..];
    WithoutRespects(run, i);
    WithoutOrder(queue, 0);
  }

  lemma {:induction false} SplitAt(run: seq<Pending>, i: nat)
    requires i < |run|
    ensures run == run[..i] + [run[i]] + run[i + 1..]
  {
  }

  /** Any order that respects dependencies is as good as submission order. */
  lemma {:induction false} DependencyOrderSuffices(w: World, run: seq<Pending>, queue: seq<Pending>)
    requires multiset(run) == multiset(queue)
    requires RespectsDependencies(run) && SubmissionOrder(queue)
    ensures ExecAll(w, run) == ExecAll(w, queue)
    decreases |queue|
  {
    hide RespectsDependencies, SubmissionOrder, JobsOverlap, Exec;
    if queue == [] {
      assert |multiset(run)| == |run|;
      assert run == [];
    } else {
      var p := queue[0];
      var i := EarliestIsFree(run, queue);
      var pre, post := run[..i], run[i + 1..];
      calc {
        ExecAll(w, run);
        { SplitAt(run, i); ExecAllAppend(w, pre + [p], post); }
        ExecAll(ExecAll(w, pre + [p]), post);
        { ExecAllHoist(w, pre, p); }
        ExecAll(ExecAll(w, [p] + pre), post);
        { ExecAllAppend(w, [p] + pre, post); assert [p] + pre + post == [p] + (pre + post); }
        ExecAll(w, [p] + (pre + post));
        { assert ([p] + (pre + post))[1..] == pre + post; }
        ExecAll(Exec(w, p), pre + post);
        { DependencyOrderSuffices(Exec(w, p), pre + post, queue[1..]); }
        ExecAll(w, queue);
      }
    }
  }
}
