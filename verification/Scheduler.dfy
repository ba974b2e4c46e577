/** `drain_jobs`: urgency first, dependencies always (`src/mirror/sync.rs`). */
module Scheduler {
  import opened Options
  import opened Keys
  import opened Reconcile
  import opened Jobs
  import opened Replay
  import Replicas

  // ── the order candidates are tried in ─────────────────────────────────────

  /** Higher priority first; among interactive work the newest, otherwise the oldest. */
  predicate Before(a: Job, b: Job) {
    || a.priority.Rank() > b.priority.Rank()
    || (a.priority == b.priority && if a.priority.Interactive? then a.seqNo > b.seqNo else a.seqNo < b.seqNo)
  }

  predicate ByUrgency(jobs: seq<Job>) {
    forall i, j :: 0 <= i < j < |jobs| ==> !Before(jobs[j], jobs[i])
  }

  lemma {:induction false} UrgencyCons(j: Job, jobs: seq<Job>)
    requires ByUrgency(jobs) && forall x <- jobs :: !Before(x, j)
    ensures ByUrgency([j] + jobs)
  {
    forall a, b | 0 <= a < b < |[j] + jobs| ensures !Before(([j] + jobs)[b], ([j] + jobs)[a]) {
      assert ([j] + jobs)[b] == jobs[b - 1];
      assert a > 0 ==> ([j] + jobs)[a] == jobs[a - 1];
    }
  }

  lemma {:induction false} HeadIsMostUrgent(jobs: seq<Job>, x: Job)
    requires ByUrgency(jobs) && x in jobs
    ensures !Before(x, jobs[0])
  {
  }

  function InsertByUrgency(j: Job, jobs: seq<Job>): seq<Job> {
    if jobs == [] then [j]
    else if Before(jobs[0], j) then [jobs[0]] + InsertByUrgency(j, jobs[1..])
    else [j] + jobs
  }

  lemma {:induction false} InsertSorts(j: Job, jobs: seq<Job>)
    requires ByUrgency(jobs)
    ensures multiset(InsertByUrgency(j, jobs)) == multiset(jobs) + multiset{j}
    ensures ByUrgency(InsertByUrgency(j, jobs))
  {
    if jobs != [] {
      assert jobs == [jobs[0]] + jobs[1..];
      if Before(jobs[0], j) {
        InsertSorts(j, jobs[1..]);
        var r := InsertByUrgency(j, jobs[1..]);
        forall x | x in r ensures !Before(x, jobs[0]) {
          assert x in multiset(r);
          assert x == j || x in multiset(jobs[1..]);
          if x != j { HeadIsMostUrgent(jobs, x); }
        }
        UrgencyCons(jobs[0], r);
      } else {
        forall x | x in jobs ensures !Before(x, j) {
          HeadIsMostUrgent(jobs, x);
        }
        UrgencyCons(j, jobs);
      }
    }
  }

  function SortByUrgency(jobs: seq<Job>): (r: seq<Job>)
    ensures multiset(r) == multiset(jobs)
    ensures ByUrgency(r)
  {
    if jobs == [] then []
    else
      assert jobs == [jobs[0]] + jobs[1..];
      InsertSorts(jobs[0], SortByUrgency(jobs[1..]));
      InsertByUrgency(jobs[0], SortByUrgency(jobs[1..]))
  }

  // ── dependencies ──────────────────────────────────────────────────────────

  predicate DependsOn(j: Job, prior: Job) {
    prior.seqNo < j.seqNo && JobsOverlap(prior, j)
  }

  /** A job with no earlier job on an overlapping path. */
  predicate IsRoot(jobs: seq<Job>, j: Job) {
    forall p <- jobs :: !DependsOn(j, p)
  }

  /** The earliest job that must run before `j`. */
  function Prior(jobs: seq<Job>, j: Job): (r: Option<Job>)
    ensures r.None? <==> IsRoot(jobs, j)
    ensures r.Some? ==> r.value in jobs && DependsOn(j, r.value)
    ensures r.Some? ==> forall p <- jobs :: DependsOn(j, p) ==> r.value.seqNo <= p.seqNo
  {
    if jobs == [] then None
    else
      var rest := Prior(jobs[1..], j);
      assert forall p <- jobs :: p == jobs[0] || p in jobs[1..];
      if DependsOn(j, jobs[0]) && (rest.Some? ==> jobs[0].seqNo <= rest.value.seqNo)
      then Some(jobs[0]) else rest
  }

  /** Where the walk through earlier operations ends. */
  function Root(jobs: seq<Job>, j: Job): (r: Job)
    requires j in jobs
    ensures r in jobs && IsRoot(jobs, r) && r.seqNo <= j.seqNo
    ensures IsRoot(jobs, j) ==> r == j
    decreases j.seqNo
  {
    match Prior(jobs, j)
    case None => j
    case Some(p) => Root(jobs, p)
  }

  /** `b` is the earliest of the rows that lie before `a` on an overlapping path. */
  predicate EarliestBefore(jobs: seq<Job>, a: Job, b: Job) {
    && b in jobs && b.seqNo < a.seqNo && JobsOverlap(b, a)
    && forall p <- jobs :: p.seqNo < a.seqNo && JobsOverlap(p, a) ==> b.seqNo <= p.seqNo
  }

  predicate LeadsBack(jobs: seq<Job>, path: seq<Job>) {
    && (forall i :: 0 <= i < |path| - 1 ==> EarliestBefore(jobs, path[i], path[i + 1]))
    && path != [] && forall p <- jobs :: p.seqNo < path[|path| - 1].seqNo ==> !JobsOverlap(p, path[|path| - 1])
  }

  /** What the root of a job is, step by step. */
  lemma {:induction false} RootIsReached(jobs: seq<Job>, j: Job) returns (path: seq<Job>)
    requires j in jobs
    ensures LeadsBack(jobs, path) && path[0] == j && path[|path| - 1] == Root(jobs, j)
    decreases j.seqNo
  {
    hide JobsOverlap;
    match Prior(jobs, j)
    case None =>
      path := [j];
      forall p | p in jobs && p.seqNo < j.seqNo ensures !JobsOverlap(p, j) {
        assert !DependsOn(j, p);
      }
    case Some(p) =>
      var rest := RootIsReached(jobs, p);
      EarliestIsPrior(jobs, j, p);
      hide EarliestBefore, Root;
      path := [j] + rest;
      assert forall i :: 0 < i < |path| ==> path[i] == rest[i - 1];
  }

  lemma {:induction false} EarliestIsPrior(jobs: seq<Job>, j: Job, p: Job)
    requires Prior(jobs, j) == Some(p)
    ensures EarliestBefore(jobs, j, p)
  {
    hide JobsOverlap, Prior;
    forall q | q in jobs && q.seqNo < j.seqNo && JobsOverlap(q, j) ensures p.seqNo <= q.seqNo {
      assert DependsOn(j, q);
    }
  }

  // ── whose turn it is ──────────────────────────────────────────────────────

  /** Of two rows that could both be served, `a` comes first: interactive work before discovered work
      before background work; the newest interactive row, but the oldest of the others. */
  predicate ComesFirst(a: Job, b: Job) {
    match a.priority
    case Interactive => b.priority.Interactive? ==> a.seqNo >= b.seqNo
    case Discovered => !b.priority.Interactive? && (b.priority.Discovered? ==> a.seqNo <= b.seqNo)
    case Background => b.priority.Background? && a.seqNo <= b.seqNo
  }

  /** `pick` is what has to run first for the row whose turn it is. */
  ghost predicate IsTurnOf(jobs: seq<Job>, blocked: set<nat>, pick: Job) {
    exists j <- jobs ::
      && Root(jobs, j) == pick && pick.seqNo !in blocked
      && forall x <- jobs :: Root(jobs, x).seqNo !in blocked ==> ComesFirst(j, x)
  }

  lemma {:induction false} NotBeforeComesFirst(a: Job, b: Job)
    requires !Before(b, a)
    ensures ComesFirst(a, b)
  {
  }

  lemma {:induction false} FirstIsTurn(jobs: seq<Job>, blocked: set<nat>, i: nat)
    requires ByUrgency(jobs) && i < |jobs| && Root(jobs, jobs[i]).seqNo !in blocked
    requires forall h :: 0 <= h < i ==> Root(jobs, jobs[h]).seqNo in blocked
    ensures IsTurnOf(jobs, blocked, Root(jobs, jobs[i]))
  {
    hide Root, Before, ComesFirst;
    forall x | x in jobs && Root(jobs, x).seqNo !in blocked ensures ComesFirst(jobs[i], x) {
      var h :| 0 <= h < |jobs| && jobs[h] == x;
      if h == i {
        SameComesFirst(x);
      } else {
        NotBeforeComesFirst(jobs[i], x);
      }
    }
    assert jobs[i] in jobs;
  }

  lemma {:induction false} SameComesFirst(a: Job)
    ensures ComesFirst(a, a)
  {
  }

  /** The walk inside `drain_jobs` from a job to what must run before it. */
  method WalkToRoot(jobs: seq<Job>, j: Job) returns (job: Job)
    requires j in jobs
    ensures job == Root(jobs, j)
  {
    hide JobsOverlap, IsRoot;
    job := j;
    var prior := Prior(jobs, job);
    while prior.Some?
      invariant job in jobs && prior == Prior(jobs, job)
      invariant Root(jobs, job) == Root(jobs, j)
      decreases job.seqNo, prior.Some?
    {
      job := prior.value;
      prior := Prior(jobs, job);
    }
  }

  /** The selection inside `drain_jobs`. `blocked` are the jobs that may not run now: in
      backoff, deferred by protection, or on a path open for writing. */
  method Select(jobs: seq<Job>, blocked: set<nat>) returns (selected: Option<Job>)
    requires ByUrgency(jobs)
    ensures selected.Some? ==>
              && selected.value in jobs && IsRoot(jobs, selected.value) && selected.value.seqNo !in blocked
              && IsTurnOf(jobs, blocked, selected.value)
    ensures selected.None? <==> forall r <- jobs :: IsRoot(jobs, r) ==> r.seqNo in blocked
  {
    hide JobsOverlap, IsRoot, ByUrgency, Root, DependsOn, IsTurnOf;
    for i := 0 to |jobs|
      invariant forall h :: 0 <= h < i ==> Root(jobs, jobs[h]).seqNo in blocked
    {
      var job := WalkToRoot(jobs, jobs[i]);
      if job.seqNo in blocked {
        continue;
      }
      FirstIsTurn(jobs, blocked, i);
      return Some(job);
    }
    forall r | r in jobs && IsRoot(jobs, r) ensures r.seqNo in blocked {
      var h :| 0 <= h < |jobs| && jobs[h] == r;
    }
    return None;
  }

  // ── the queue being drained ───────────────────────────────────────────────

  function Rows(ps: seq<Pending>): (jobs: seq<Job>)
    ensures |jobs| == |ps| && forall i :: 0 <= i < |ps| ==> jobs[i] == ps[i].job
  {
    if ps == [] then [] else [ps[0].job] + Rows(ps[1..])
  }

  /** What `picked` then `pending` has in common with the submission log. */
  ghost predicate Linear(picked: seq<Pending>, pending: seq<Pending>, log: seq<Pending>) {
    && multiset(picked + pending) == multiset(log)
    && RespectsDependencies(picked + pending)
    && SubmissionOrder(pending)
    && SubmissionOrder(log)
  }

  lemma {:induction false} LoggedRow(run: seq<Pending>, log: seq<Pending>, p: Pending) returns (k: nat)
    requires multiset(run) == multiset(log) && p in run
    ensures k < |log| && log[k] == p
  {
    assert p in multiset(run);
    assert p in multiset(log);
    k :| 0 <= k < |log| && log[k] == p;
  }

  lemma {:induction false} LinearRemove(picked: seq<Pending>, pending: seq<Pending>, log: seq<Pending>,
      i: nat) returns (k: nat)
    requires Linear(picked, pending, log) && i < |pending|
    ensures k < |log| && log[k] == pending[i]
    ensures Linear(picked, Without(pending, i), Without(log, k))
  {
    var run, n := picked + pending, |picked| + i;
    assert run[n] == pending[i];
    k := LoggedRow(run, log, pending[i]);
    assert picked + Without(pending, i) == Without(run, n) by {
      assert run[..n] == picked + pending[..i] && run[n + 1..] == pending[i + 1..];
    }
    WithoutMultiset(run, n);
    WithoutRespects(run, n);
    WithoutMultiset(log, k);
    WithoutOrder(log, k);
    WithoutOrder(pending, i);
  }

  lemma {:induction false} RootOverlapsNothingEarlier(pending: seq<Pending>, i: nat, q: Pending)
    requires SubmissionOrder(pending) && i < |pending| && q in pending[..i]
    requires IsRoot(Rows(pending), pending[i].job)
    ensures !JobsOverlap(q.job, pending[i].job)
  {
    var m :| 0 <= m < i && pending[m] == q;
    assert Rows(pending)[m] == q.job;
    assert !DependsOn(pending[i].job, Rows(pending)[m]);
    assert pending[m].job.seqNo < pending[i].job.seqNo;
  }

  lemma {:induction false} SameRows(picked: seq<Pending>, pending: seq<Pending>, i: nat)
    requires i < |pending|
    ensures var p, mid, post := pending[i], pending[..i], pending[i + 1..];
            && picked + pending == picked + mid + [p] + post
            && (picked + [p]) + Without(pending, i) == picked + [p] + mid + post
            && multiset(picked + mid + [p] + post) == multiset(picked + [p] + mid + post)
  {
    assert pending == pending[..i] + [pending[i]] + pending[i + 1..];
  }

  /** Moving a row ahead of rows it does not overlap keeps dependencies. */
  lemma {:induction false} HoistRespects(pre: seq<Pending>, mid: seq<Pending>, p: Pending, post: seq<Pending>)
    requires RespectsDependencies(pre + mid + [p] + post)
    requires forall q <- mid :: !JobsOverlap(q.job, p.job)
    ensures RespectsDependencies(pre + [p] + mid + post)
  {
    var run, run' := pre + mid + [p] + post, pre + [p] + mid + post;
    var n, k := |pre|, |mid|;
    forall q | q in mid ensures !JobsOverlap(p.job, q.job) {
      KindsOverlapSymmetric(p.job.kind, q.job.kind);
    }
    hide JobsOverlap;
    forall a, b | 0 <= a < b < |run'| && JobsOverlap(run'[a].job, run'[b].job)
      ensures run'[a].job.seqNo < run'[b].job.seqNo
    {
      var a' := if a == n then n + k else if n < a <= n + k then a - 1 else a;
      var b' := if b == n then n + k else if n < b <= n + k then b - 1 else b;
      assert run'[a] == run[a'] && run'[b] == run[b'];
      assert n < b <= n + k ==> run'[b] == mid[b - n - 1];
    }
  }

  lemma {:induction false} LinearPick(picked: seq<Pending>, pending: seq<Pending>, log: seq<Pending>, i: nat)
    requires Linear(picked, pending, log) && i < |pending|
    requires IsRoot(Rows(pending), pending[i].job)
    ensures Linear(picked + [pending[i]], Without(pending, i), log)
  {
    hide RespectsDependencies, SubmissionOrder, IsRoot, Without, JobsOverlap;
    SameRows(picked, pending, i);
    forall q | q in pending[..i] ensures !JobsOverlap(q.job, pending[i].job) {
      RootOverlapsNothingEarlier(pending, i, q);
    }
    HoistRespects(picked, pending[..i], pending[i], pending[i + 1..]);
    WithoutOrder(pending, i);
  }

  lemma {:induction false} LinearAppend(picked: seq<Pending>, pending: seq<Pending>, log: seq<Pending>, p: Pending)
    requires Linear(picked, pending, log)
    requires forall q <- log :: q.job.seqNo < p.job.seqNo
    ensures Linear(picked, pending + [p], log + [p])
  {
    assert picked + (pending + [p]) == (picked + pending) + [p];
    forall q | q in picked + pending ensures q in log {
      assert q in multiset(picked + pending);
    }
  }

  /** Priority draining equals submission order, at every moment of every drain: finishing the
      queue in submission order now gives what running the whole submission log in order from
      the start would have given. */
  lemma {:induction false} LinearMeansSubmissionOrder(start: World, picked: seq<Pending>, pending: seq<Pending>,
      log: seq<Pending>)
    requires Linear(picked, pending, log)
    ensures ExecAll(ExecAll(start, picked), pending) == ExecAll(start, log)
  {
    ExecAllAppend(start, picked, pending);
    DependencyOrderSuffices(start, picked + pending, log);
  }

  /** The rows a choice keeps. */
  function Kept(ps: seq<Pending>, c: Replicas.Choice): seq<Pending> {
    if ps == [] then []
    else (if Replicas.Chosen(c, ps[0].job) then [ps[0]] else []) + Kept(ps[1..], c)
  }

  lemma {:induction false} KeptRows(ps: seq<Pending>, c: Replicas.Choice)
    ensures forall p :: p in Kept(ps, c) <==> p in ps && Replicas.Chosen(c, p.job)
  {
    hide Replicas.Chosen;
    if ps != [] {
      KeptRows(ps[1..], c);
      assert ps == [ps[0]] + ps[1..];
    }
  }

  lemma {:induction false} KeptStep(ps: seq<Pending>, i: nat, c: Replicas.Choice)
    requires i < |ps| && forall h :: 0 <= h < i ==> Replicas.Chosen(c, ps[h].job)
    ensures !Replicas.Chosen(c, ps[i].job) ==> Kept(Without(ps, i), c) == Kept(ps, c)
  {
    hide Replicas.Chosen;
    if i == 0 {
      assert Without(ps, 0) == ps[1..];
    } else {
      assert Without(ps, i)[1..] == Without(ps[1..], i - 1);
      KeptStep(ps[1..], i - 1, c);
    }
  }

  lemma {:induction false} AllKept(ps: seq<Pending>, c: Replicas.Choice)
    requires forall h :: 0 <= h < |ps| ==> Replicas.Chosen(c, ps[h].job)
    ensures Kept(ps, c) == ps
  {
    hide Replicas.Chosen;
    if ps != [] {
      AllKept(ps[1..], c);
    }
  }

  /** Structure jobs leave a listing of remote children valid; the rest invalidates it. */
  function TouchedBy(kind: JobKind): set<Key> {
    if kind.Mkdir? || kind.Rmdir? then {} else set k | k in kind.Touched()
  }

  predicate TouchedSince(picked: seq<Pending>, since: nat, touched: set<Key>) {
    forall i :: since <= i < |picked| ==>
      var kind := picked[i].job.kind;
      kind.Mkdir? || kind.Rmdir? || (kind.MainKey() in touched && kind.OtherKey() in touched)
  }

  lemma {:induction false} TouchedKeys(kind: JobKind)
    ensures TouchedBy(kind) <= {kind.MainKey(), kind.OtherKey()} && (kind.Mkdir? || kind.Rmdir? ==> TouchedBy(kind) == {})
  {
  }

  lemma {:induction false} NothingTouched(picked: seq<Pending>, touched: set<Key>)
    ensures TouchedSince(picked, |picked|, touched)
  {
  }

  lemma {:induction false} OneTouched(before: seq<Pending>, picked: seq<Pending>, j: Job)
    requires |picked| == |before| + 1 && picked[|before|].job == j
    ensures TouchedSince(picked, |before|, TouchedBy(j.kind))
  {
  }

  /** The row a selected job came from. */
  lemma {:induction false} SelectedRow(pending: seq<Pending>, jobs: seq<Job>, j: Job) returns (i: nat)
    requires multiset(jobs) == multiset(Rows(pending)) && j in jobs && IsRoot(jobs, j)
    ensures i < |pending| && pending[i].job == j && IsRoot(Rows(pending), j)
  {
    assert j in multiset(jobs);
    assert j in multiset(Rows(pending));
    i :| 0 <= i < |Rows(pending)| && Rows(pending)[i] == j;
    forall p | p in Rows(pending) ensures !DependsOn(j, p) {
      assert p in multiset(Rows(pending));
      assert p in multiset(jobs);
    }
  }

  /** How an attempt to run a job ends; `Refused` is the hub's answer that will not change. */
  datatype Outcome = Done | Backoff(until: nat) | Deferred | Refused(until: nat) | Offline

  /** What a local event does to the queue: work is submitted; a file goes, and its rows with it;
      a file takes another name, and its rows follow, behind a rename the hub has to be told. */
  datatype Event =
    | Submitted(kind: JobKind, priority: Priority, body: Digest)
    | Dropped(key: Key)
    | Moved(from: Key, to: Key, told: bool)

  /** Some row stands for the work. */
  predicate HasWork(pending: seq<Pending>, id: string) {
    exists p <- pending :: p.job.kind.DedupeId() == id
  }

  /** A row for the new name of the file one of the rows is about, with its bytes. */
  predicate IsRetargeted(p: Pending, rows: seq<Pending>, from: Key, to: Key) {
    exists r <- rows :: p.job.kind == Replicas.Retarget(r.job.kind, from, to) && p.body == r.body && p.job.priority.Interactive?
  }

  lemma {:induction false} OneIsRetargeted(rows: seq<Pending>, i: nat, from: Key, to: Key, seqNo: nat)
    requires i < |rows|
    ensures IsRetargeted(Pending(Job(seqNo, Replicas.Retarget(rows[i].job.kind, from, to), Interactive), rows[i].body), rows, from, to)
  {
    assert rows[i] in rows;
  }

  /** The queue with one more row, under a number never used before. */
  function Told(pending: seq<Pending>, counter: nat, kind: JobKind, priority: Priority, body: Digest): seq<Pending> {
    Kept(pending, Replicas.NotId(kind.DedupeId())) + [Pending(Job(counter + 1, kind, priority), body)]
  }

  /** The queue table, its counter, and the sets `drain_jobs` consults. */
  class Queue {
    var world: World
    var pending: seq<Pending>
    var counter: nat
    var backoff: map<nat, nat>
    var deferred: set<nat>
    var openWrites: set<Key>
    ghost var start: World
    /** Everything submitted and not replaced while still pending, in submission order. */
    ghost var log: seq<Pending>
    /** Everything run, in the order it was run. */
    ghost var picked: seq<Pending>

    ghost predicate Valid()
      reads this`world, this`pending, this`counter, this`start, this`log, this`picked
    {
      && Linear(picked, pending, log)
      && world == ExecAll(start, picked)
      && forall p <- log :: p.job.seqNo <= counter
    }

    constructor (w: World)
      ensures Valid() && start == world == w && pending == log == picked == [] && counter == 0
    {
      world, start := w, w;
      pending, log, picked, counter := [], [], [], 0;
      backoff, deferred, openWrites := map[], {}, {};
    }

    lemma {:induction false} DrainEqualsSubmissionOrder()
      requires Valid()
      ensures ExecAll(world, pending) == ExecAll(start, log)
    {
      LinearMeansSubmissionOrder(start, picked, pending, log);
    }

    /** Take a pending row back before it ran. */
    method RemoveRow(i: nat)
      requires Valid() && i < |pending|
      modifies this`pending, this`log
      ensures Valid() && pending == Without(old(pending), i)
      ensures |pending| == |old(pending)| - 1 && pending[..i] == old(pending)[..i]
    {
      hide Linear;
      ghost var k := LinearRemove(picked, pending, log, i);
      pending := Without(pending, i);
      log := Without(log, k);
    }

    /** `remove_jobs_for`, and the removal of duplicates: the rows a choice does not keep go. */
    method Retain(c: Replicas.Choice)
      requires Valid()
      modifies this`pending, this`log
      ensures Valid() && pending == Kept(old(pending), c)
    {
      hide Linear, Without, ExecAll, Kept, Replicas.Chosen;
      var i := 0;
      while i < |pending|
        invariant 0 <= i <= |pending|
        invariant Valid()
        invariant forall h :: 0 <= h < i ==> Replicas.Chosen(c, pending[h].job)
        invariant Kept(pending, c) == Kept(old(pending), c)
        decreases |pending| - i
      {
        KeptStep(pending, i, c);
        if !Replicas.Chosen(c, pending[i].job) {
          RemoveRow(i);
        } else {
          i := i + 1;
        }
      }
      AllKept(pending, c);
    }

    method Append(row: Pending)
      requires Valid() && row.job.seqNo == counter + 1
      modifies this`pending, this`counter, this`log
      ensures Valid() && counter == old(counter) + 1
      ensures pending == old(pending) + [row] && log == old(log) + [row]
    {
      hide Linear;
      LinearAppend(picked, pending, log, row);
      counter := counter + 1;
      pending := pending + [row];
      log := log + [row];
    }

    /** `enqueue_with_priority`: one pending row per id, under a number never used before. */
    method Enqueue(kind: JobKind, priority: Priority, body: Digest) returns (seqNo: nat)
      requires Valid()
      modifies this`pending, this`counter, this`log
      ensures Valid()
      ensures seqNo == counter == old(counter) + 1
      ensures pending == Told(old(pending), old(counter), kind, priority, body)
      ensures forall p :: p in pending <==>
                || p == Pending(Job(seqNo, kind, priority), body)
                || (p in old(pending) && p.job.kind.DedupeId() != kind.DedupeId())
    {
      hide Linear;
      KeptRows(pending, Replicas.NotId(kind.DedupeId()));
      Retain(Replicas.NotId(kind.DedupeId()));
      seqNo := counter + 1;
      Append(Pending(Job(seqNo, kind, priority), body));
    }

    /** The rows that may not run at `now`. */
    function Blocked(now: nat): (blocked: set<nat>)
      reads this
      ensures forall p <- pending :: p.job.seqNo in blocked <==>
                || (p.job.seqNo in backoff && backoff[p.job.seqNo] > now)
                || p.job.seqNo in deferred
                || exists q <- pending :: q.job.seqNo == p.job.seqNo && exists k <- q.job.kind.Touched() :: k in openWrites
    {
      set p | p in pending &&
              (|| (p.job.seqNo in backoff && backoff[p.job.seqNo] > now)
               || p.job.seqNo in deferred
               || exists k <- p.job.kind.Touched() :: k in openWrites) :: p.job.seqNo
    }

    /** The rows of a renamed file are queued again under its new name, each with its bytes. */
    method Requeue(rows: seq<Pending>, from: Key, to: Key)
      requires Valid()
      modifies this`pending, this`counter, this`log
      ensures Valid() && counter == old(counter) + |rows|
      ensures forall i :: 0 <= i < |rows| ==> HasWork(pending, Replicas.Retarget(rows[i].job.kind, from, to).DedupeId())
      ensures forall p <- pending :: p in old(pending) || IsRetargeted(p, rows, from, to)
      ensures forall p <- old(pending) :: p in pending || HasWork(pending, p.job.kind.DedupeId())
    {
      hide Linear, Told, Replicas.Retarget, JobKind.DedupeId, IsRetargeted;
      for i := 0 to |rows|
        invariant Valid() && counter == old(counter) + i
        invariant forall h :: 0 <= h < i ==> HasWork(pending, Replicas.Retarget(rows[h].job.kind, from, to).DedupeId())
        invariant forall p <- pending :: p in old(pending) || IsRetargeted(p, rows, from, to)
        invariant forall p <- old(pending) :: p in pending || HasWork(pending, p.job.kind.DedupeId())
      {
        OneIsRetargeted(rows, i, from, to, counter + 1);
        var _ := Enqueue(Replicas.Retarget(rows[i].job.kind, from, to), Interactive, rows[i].body);
      }
    }

    /** One local event: rows come, go, or go and come back under another name. */
    method Observe(event: Event)
      requires Valid()
      modifies this`pending, this`counter, this`log
      ensures Valid() && counter >= old(counter)
      ensures event.Submitted? ==> pending == Told(old(pending), old(counter), event.kind, event.priority, event.body)
      ensures event.Dropped? ==> forall p :: p in pending <==> p in old(pending) && p.job.kind.MainKey() != event.key
      ensures event.Moved? ==> forall p <- old(pending) ::
                if p.job.kind.MainKey() == event.from then HasWork(pending, Replicas.Retarget(p.job.kind, event.from, event.to).DedupeId())
                else HasWork(pending, p.job.kind.DedupeId())
    {
      hide Linear, Told, Kept, Replicas.Retarget, JobKind.DedupeId, JobKind.MainKey;
      match event {
        case Submitted(kind, priority, body) =>
          var _ := Enqueue(kind, priority, body);
        case Dropped(key) =>
          KeptRows(pending, Replicas.NotKey(key));
          Retain(Replicas.NotKey(key));
        case Moved(from, to, told) =>
          KeptRows(pending, Replicas.OnlyKey(from));
          KeptRows(pending, Replicas.NotKey(from));
          var rows := Kept(pending, Replicas.OnlyKey(from));
          Retain(Replicas.NotKey(from));
          if told {
            var _ := Enqueue(Rename(from, to), Interactive, "");
          }
          Requeue(rows, from, to);
      }
    }

    /** Local events observed before each pick submit work, drop rows and move them to new names. */
    method ProcessLocalEvents(events: seq<Event>, writers: set<Key>)
      requires Valid()
      modifies this`pending, this`counter, this`log, this`openWrites
      ensures Valid() && counter >= old(counter) && openWrites == writers
    {
      hide *;
      for i := 0 to |events|
        invariant Valid() && counter >= old(counter)
      {
        Observe(events[i]);
      }
      openWrites := writers;
    }

    /** Where the row of a selected job is. */
    method FindRow(j: Job, jobs: seq<Job>) returns (i: nat)
      requires multiset(jobs) == multiset(Rows(pending)) && j in jobs && IsRoot(jobs, j)
      ensures i < |pending| && pending[i].job == j && IsRoot(Rows(pending), j)
    {
      hide IsRoot, Rows;
      ghost var row := SelectedRow(pending, jobs, j);
      i := 0;
      while pending[i].job != j
        invariant i <= row < |pending| && pending[row].job == j
        decreases row - i
      {
        i := i + 1;
      }
    }

    /** The request went through: the row leaves the table. */
    method Complete(j: Job, jobs: seq<Job>)
      requires Valid()
      requires multiset(jobs) == multiset(Rows(pending)) && j in jobs && IsRoot(jobs, j)
      modifies this`world, this`pending, this`picked
      ensures Valid()
      ensures |picked| == |old(picked)| + 1 && old(picked) <= picked && picked[|old(picked)|].job == j
      ensures world == Exec(old(world), picked[|old(picked)|])
      ensures exists i :: 0 <= i < |old(pending)| && old(pending)[i] == picked[|old(picked)|] && pending == Without(old(pending), i)
    {
      hide Linear, IsRoot, Without, ExecAll, Exec, Rows, RespectsDependencies, SubmissionOrder;
      var i := FindRow(j, jobs);
      LinearPick(picked, pending, log, i);
      ExecAllOne(start, picked, pending[i]);
      world := Exec(world, pending[i]);
      picked := picked + [pending[i]];
      pending := Without(pending, i);
    }

    /** The hub will never accept the job: its row leaves the table without having run. */
    method GiveUp(j: Job, jobs: seq<Job>)
      requires Valid()
      requires multiset(jobs) == multiset(Rows(pending)) && j in jobs && IsRoot(jobs, j)
      modifies this`pending, this`log
      ensures Valid() && |pending| == |old(pending)| - 1
      ensures exists i :: 0 <= i < |old(pending)| && old(pending)[i].job == j && pending == Without(old(pending), i)
    {
      hide Linear, IsRoot, Without, ExecAll, Rows;
      var i := FindRow(j, jobs);
      RemoveRow(i);
    }

    /** `run_one`: the attempt, and what the table looks like after it. A directory move is never
        given up, only tried again later. */
    method RunOne(job: Job, jobs: seq<Job>, outcome: Outcome) returns (touched: set<Key>, offline: bool)
      requires Valid()
      requires multiset(jobs) == multiset(Rows(pending)) && job in jobs && IsRoot(jobs, job)
      modifies this`world, this`pending, this`log, this`picked, this`backoff, this`deferred
      ensures Valid() && start == old(start) && counter == old(counter)
      ensures old(picked) <= picked && |picked| <= |old(picked)| + 1
      ensures TouchedSince(picked, |old(picked)|, touched)
      ensures |picked| > |old(picked)| ==> picked[|old(picked)|].job == job
      ensures picked == old(picked) ==> world == old(world)
      ensures pending == old(pending)
              || exists i :: 0 <= i < |old(pending)| && old(pending)[i].job == job && pending == Without(old(pending), i)
      ensures picked == old(picked) && job.kind.RenameDir? ==> pending == old(pending)
      ensures touched <= {job.kind.MainKey(), job.kind.OtherKey()} && (job.kind.Mkdir? || job.kind.Rmdir? ==> touched == {})
      ensures offline <==> outcome.Offline?
      ensures picked != old(picked) <==> outcome.Done?
      ensures pending != old(pending) ==> outcome.Done? || (outcome.Refused? && !job.kind.RenameDir?)
      ensures outcome.Refused? && !job.kind.RenameDir? ==> |pending| < |old(pending)|
      ensures deferred == if outcome.Deferred? then old(deferred) + {job.seqNo} else old(deferred)
      ensures outcome.Deferred? ==> touched == {}
      ensures backoff == if outcome.Backoff? || (outcome.Refused? && job.kind.RenameDir?) then old(backoff)[job.seqNo := outcome.until] else old(backoff)
    {
      hide *;
      TouchedKeys(job.kind);
      touched, offline := TouchedBy(job.kind), false;
      NothingTouched(picked, touched);
      match outcome {
        case Offline => offline := true;
        case Backoff(until) => backoff := backoff[job.seqNo := until];
        case Deferred =>
          deferred := deferred + {job.seqNo};
          touched := {};
          NothingTouched(picked, touched);
        case Refused(until) =>
          if job.kind.RenameDir? {
            backoff := backoff[job.seqNo := until];
          } else {
            GiveUp(job, jobs);
          }
        case Done =>
          Complete(job, jobs);
          OneTouched(old(picked), picked, job);
      }
    }

    /** The candidate `drain_jobs` settles on at `now`, if any dependency root may run. */
    method Choose(now: nat) returns (selected: Option<Job>, jobs: seq<Job>)
      ensures multiset(jobs) == multiset(Rows(pending))
      ensures selected.Some? ==>
                && selected.value in jobs && IsRoot(jobs, selected.value) && selected.value.seqNo !in Blocked(now)
                && IsTurnOf(jobs, Blocked(now), selected.value)
      ensures selected.None? ==> forall r <- jobs :: IsRoot(jobs, r) ==> r.seqNo in Blocked(now)
    {
      jobs := SortByUrgency(Rows(pending));
      selected := Select(jobs, Blocked(now));
    }

    /** One round of `drain_jobs`: observe local events, select, run. `table` is what the events
        left, and `blocked` what of it could not run. */
    method DrainOne() returns (touched: set<Key>, more: bool, offline: bool, ghost table: seq<Job>, ghost blocked: set<nat>)
      requires Valid()
      modifies this
      ensures Valid() && start == old(start) && counter >= old(counter)
      ensures old(picked) <= picked && |picked| <= |old(picked)| + 1
      ensures TouchedSince(picked, |old(picked)|, touched)
      ensures |picked| > |old(picked)| ==> IsTurnOf(table, blocked, picked[|old(picked)|].job)
      ensures !more ==> picked == old(picked) && forall r <- table :: IsRoot(table, r) ==> r.seqNo in blocked
    {
      hide *;
      touched, offline := {}, false;
      var events: seq<Event> := *;
      var writers: set<Key> := *;
      ProcessLocalEvents(events, writers);
      var now: nat := *;
      var selected, jobs := Choose(now);
      table, blocked := jobs, Blocked(now);
      more := selected.Some?;
      if more {
        var outcome: Outcome := *;
        touched, offline := RunOne(selected.value, jobs, outcome);
      } else {
        NothingTouched(picked, {});
      }
    }

    /** `drain_jobs`: at most `budget` picks, reloading the queue before each one. */
    method DrainJobs(budget: nat) returns (touched: set<Key>, offline: bool)
      requires Valid()
      modifies this
      ensures Valid() && start == old(start) && counter >= old(counter)
      ensures old(picked) <= picked && |picked| <= |old(picked)| + budget
      ensures TouchedSince(picked, |old(picked)|, touched)
    {
      hide Linear;
      touched, offline := {}, false;
      for n := 0 to budget
        invariant Valid() && start == old(start) && counter >= old(counter)
        invariant old(picked) <= picked && |picked| <= |old(picked)| + n
        invariant TouchedSince(picked, |old(picked)|, touched)
      {
        var paths, more, gone, _, _ := DrainOne();
        touched := touched + paths;
        if gone || !more {
          return touched, gone;
        }
      }
    }
  }
}
