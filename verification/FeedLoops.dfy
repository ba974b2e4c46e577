/** `catch_up`, `recheck_deferred` and `rebuild_from_listing` of `src/mirror/sync.rs` as the program
    has them, loops over fields, with time passing wherever they wait for the hub. Every execution
    is a run of the reader's steps. */
module FeedLoops {
  import opened Options
  import opened Keys
  import opened Feed
  import opened FeedSafety
  import opened FeedRuns

  /** What a page of a listing names: what the hub has of some keys, or of all, that no page was of. */
  function HeldNow(log: seq<Change>, part: Option<set<Key>>, done: set<Key>): set<Key> {
    set k | k in Named(log, |log|) && Holds(log, |log|, k) && k !in done && (part.Some? ==> k in part.value)
  }

  ghost function Among(done: set<Key>): iset<Key> { iset k | k in done }

  ghost function Range(part: Option<set<Key>>): iset<Key> {
    if part.Some? then Among(part.value) else EveryKey()
  }

  lemma {:induction false} HeldInRange(log: seq<Change>, part: Option<set<Key>>, done: set<Key>)
    ensures HeldNow(log, part, done) == HeldIn(log, Range(part) - Among(done))
  {
    hide Named, Holds;
  }

  lemma {:induction false} RangeGrows(done: set<Key>, part: set<Key>)
    ensures Among(done + part) == Among(done) + Range(Some(part))
    ensures done == {} ==> Range(Some(part)) - Among(done) == Among(part) == Range(Some(part))
  {
  }

  lemma {:induction false} AllInRange(done: set<Key>)
    ensures forall k :: k in Among(done) + Range(None)
  {
  }

  class Cursor {
    const ignored: Key -> bool
    var log: seq<Change>
    var cursor: Option<nat>
    var recheck: set<Key>
    var moves: set<Key>
    var trial: set<Key>
    var refresh: bool
    var due: bool
    var epoch: nat
    var open: set<Key>
    var renaming: set<Key>
    var rows: set<Key>
    var queued: set<Key>
    ghost var seen: map<Key, nat>
    /** all that has happened since this object was made */
    ghost var trace: seq<Mirror>
    ghost var steps: seq<Event>

    ghost function State(w: Work): Mirror
      reads this
    {
      Mirror(ignored, log, cursor, recheck, moves, trial, refresh, due, epoch, open, renaming, rows, queued, w, seen)
    }

    /** The history is a run, and ends here, with the sync thread at `w`. */
    ghost predicate Valid(w: Work)
      reads this
    {
      History(State(w))
    }

    /** What has happened is a run of a mirror that had never read the feed, up to this state. */
    ghost predicate History(s: Mirror)
      reads this`trace, this`steps
    {
      Run(trace, steps) && Fresh(trace[0]) && trace[|steps|] == s
    }

    /** So the reader is in order. */
    lemma {:induction false} InOrder(w: Work)
      requires Valid(w)
      ensures Good(State(w))
    {
      hide Good, Fresh, State;
      FreshGood(trace[0], 0, "");
      RunGood(trace, steps, 0, |steps|);
    }

    lemma {:induction false} CursorInLog(w: Work)
      requires Valid(w)
      ensures cursor.Some? ==> cursor.value <= |log|
    {
      hide Run, Fresh, Valid, WorkOk;
      InOrder(w);
    }

    /** A mirror that has never read the feed. */
    constructor (ignored: Key -> bool, rows: set<Key>)
      ensures Valid(Idle) && steps == []
    {
      this.ignored, this.rows := ignored, rows;
      log, cursor, recheck, moves, trial, refresh, due, epoch, open, renaming := [], None, {}, {}, {}, false, false, 0, {}, {};
      queued := {};
      seen := map[];
      trace, steps := [Mirror(ignored, [], None, {}, {}, {}, false, false, 0, {}, {}, rows, {}, Idle, map[])], [];
    }

    ghost method Record(e: Event, before: Mirror, w: Work)
      requires History(before) && Enabled(before, e) && State(w) == Next(before, e)
      modifies this`trace, this`steps
      ensures Valid(w) && old(trace) <= trace && old(steps) <= steps
    {
      hide Enabled, Next;
      ghost var t0, s0, now := trace, steps, State(w);
      trace, steps := t0 + [now], s0 + [e];
      forall i: nat | i < |steps| ensures Enabled(trace[i], steps[i]) && trace[i + 1] == Next(trace[i], steps[i]) {
        if i < |s0| {
          assert steps[i] == s0[i] && trace[i] == t0[i] && trace[i + 1] == t0[i + 1];
        }
      }
    }

    // ── what the others do ──────────────────────────────────────────────────

    predicate Outside(e: Event)
      reads this`trial, this`queued
    {
      match e
      case TriesMove(ends) => trial == {} && ends != {}
      case KeepsMove => trial != {}
      case DropsMove => trial != {}
      case JobLeaves(key) => key in queued
      case _ => e.Queues? || e.HubGrows? || e.Renames? || e.Opens? || e.RowsChange? || e.Defers?
    }

    /** A directory move on this device: tried, kept or withdrawn. */
    method MoveHappens(e: Event, ghost w: Work)
      requires Valid(w) && Outside(e) && (e.TriesMove? || e.KeepsMove? || e.DropsMove?)
      modifies this`moves, this`trial, this`trace, this`steps
      ensures Valid(w) && old(trace) <= trace && old(steps) <= steps && (!e.TriesMove? ==> trial == {})
    {
      hide Run, Fresh;
      ghost var before := State(w);
      match e {
        case TriesMove(ends) => trial := ends;
        case KeepsMove => moves, trial := moves + trial, {};
        case DropsMove => trial := {};
      }
      Record(e, before, w);
    }

    /** Keys are put aside elsewhere; jobs come, and go. */
    method KeysHappen(e: Event, ghost w: Work)
      requires Valid(w) && Outside(e) && (e.Defers? || e.Queues? || e.JobLeaves?)
      modifies this`recheck, this`queued, this`trace, this`steps
      ensures Valid(w) && old(trace) <= trace && old(steps) <= steps
    {
      hide Run, Fresh;
      ghost var before := State(w);
      match e {
        case Defers(keys) => recheck := recheck + keys;
        case Queues(keys) => queued := queued + keys;
        case JobLeaves(key) => queued := queued - {key};
      }
      Record(e, before, w);
    }

    method Happen(e: Event, ghost w: Work)
      requires Valid(w) && Outside(e)
      modifies this`log, this`recheck, this`moves, this`trial, this`epoch, this`open, this`renaming, this`rows, this`queued,
               this`trace, this`steps
      ensures Valid(w) && old(trace) <= trace && old(steps) <= steps && old(log) <= log
      ensures e.KeepsMove? || e.DropsMove? ==> trial == {}
    {
      hide Run, Fresh;
      if e.TriesMove? || e.KeepsMove? || e.DropsMove? {
        MoveHappens(e, w);
        return;
      }
      if e.Defers? || e.Queues? || e.JobLeaves? {
        KeysHappen(e, w);
        return;
      }
      ghost var before := State(w);
      match e {
        case HubGrows(more) => log := log + more;
        case Renames => epoch := epoch + 1;
        case Opens(files, queued) => open, renaming := files, queued;
        case RowsChange(keys) => rows := keys;
      }
      Record(e, before, w);
    }

    /** Time passes. */
    method Meanwhile(ghost w: Work)
      requires Valid(w)
      modifies this`log, this`recheck, this`moves, this`trial, this`epoch, this`open, this`renaming, this`rows, this`queued,
               this`trace, this`steps
      ensures Valid(w) && old(trace) <= trace && old(steps) <= steps && old(log) <= log
    {
      hide *;
      var events: seq<Event> := *;
      for i := 0 to |events|
        invariant Valid(w) && old(trace) <= trace && old(steps) <= steps && old(log) <= log
      {
        if Outside(events[i]) {
          Happen(events[i], w);
        }
      }
    }

    /** The namespace lock: whoever holds it for a directory move finishes first. */
    method Lock(ghost w: Work)
      requires Valid(w)
      modifies this`log, this`recheck, this`moves, this`trial, this`epoch, this`open, this`renaming, this`rows, this`queued,
               this`trace, this`steps
      ensures Valid(w) && old(trace) <= trace && old(steps) <= steps && old(log) <= log && trial == {}
    {
      hide Run, Fresh, Valid;
      Meanwhile(w);
      if trial != {} {
        var kept: bool := *;
        Happen(if kept then KeepsMove else DropsMove, w);
      }
    }

    predicate IsMoving(key: Key)
      reads this`moves, this`trial
      ensures forall w :: IsMoving(key) == Moving(State(w), key)
    {
      exists d <- moves + trial :: Under(key, d)
    }

    /** `reconcile_key` with an answer as of `at`; `examines` says that the key was decided and what
        was decided was done. */
    method ReconcileKey(key: Key, at: nat, ghost w: Work) returns (ok: bool, examines: bool)
      modifies this`recheck, this`seen
      ensures ok ==> State(w) == Reconciled(old(State(w)), key, at, examines)
      ensures !ok ==> State(w) == old(State(w))
    {
      hide Under;
      ok, examines := true, true;
      if key == "" || ignored(key) || IsMoving(key) {
        return;
      }
      if key in open || key in renaming {
        recheck := recheck + {key};
        return;
      }
      ok, examines := *, *;
      if ok && examines {
        seen := Raise(seen, {key}, at);
      } else if ok {
        recheck := recheck + {key};
      }
    }

    /** The hub refuses a job's condition and says what it has: the key is decided with that, unless the
        job has gone meanwhile. */
    method MeetRefusal(key: Key, ghost w: Work)
      requires Valid(w) && EngineMayDrain(w)
      modifies this`log, this`recheck, this`moves, this`trial, this`epoch, this`open, this`renaming, this`rows, this`queued,
               this`seen, this`trace, this`steps
      ensures Valid(w) && old(trace) <= trace && old(steps) <= steps && old(log) <= log
    {
      hide Run, Valid, State, Fresh;
      Meanwhile(w);
      var at := |log|;
      Lock(w);
      if key in queued {
        DecideRefused(key, at, w);
      }
    }

    method DecideRefused(key: Key, at: nat, ghost w: Work)
      requires Valid(w) && EngineMayDrain(w) && trial == {} && key in queued && at <= |log|
      modifies this`recheck, this`seen, this`trace, this`steps
      ensures Valid(w) && old(trace) <= trace && old(steps) <= steps
    {
      hide Run, Fresh, Reconciled, EngineMayDrain;
      ghost var before := State(w);
      var ok, examines := ReconcileKey(key, at, w);
      if ok {
        Record(JobLooks(key, at, examines), before, w);
      }
    }

    /** `drain_jobs`; refusals are met, and moves it completes make a full listing due. */
    method DrainJobs(ghost w: Work) returns (paths: set<Key>, ok: bool, ghost v: Work)
      requires Valid(w) && EngineMayDrain(w)
      modifies this`log, this`recheck, this`moves, this`trial, this`epoch, this`open, this`renaming, this`rows, this`queued,
               this`refresh, this`seen, this`trace, this`steps
      ensures Valid(v) && v == Touching(w, paths) && old(trace) <= trace && old(steps) <= steps && old(log) <= log
    {
      hide Run, Valid;
      var refused: seq<Key> := *;
      for i := 0 to |refused|
        invariant Valid(w) && old(trace) <= trace && old(steps) <= steps && old(log) <= log
      {
        MeetRefusal(refused[i], w);
      }
      Meanwhile(w);
      var done: set<Key> := *;
      paths, ok := *, *;
      v := Touching(w, paths);
      CompleteMoves(paths, done * moves, w);
    }

    method CompleteMoves(ghost paths: set<Key>, done: set<Key>, ghost w: Work)
      requires Valid(w) && EngineMayDrain(w) && done <= moves
      modifies this`moves, this`epoch, this`refresh, this`trace, this`steps
      ensures Valid(Touching(w, paths)) && old(trace) <= trace && old(steps) <= steps
    {
      hide Run, Fresh, EngineMayDrain;
      ghost var before := State(w);
      if done != {} {
        moves, epoch, refresh := moves - done, epoch + 1, true;
      }
      Record(JobsRun(paths, done), before, Touching(w, paths));
    }

    /** A request or the disk fails: the cycle ends, and begins anew some time later. */
    ghost method Fail(w: Work)
      requires Valid(w) && !w.Idle?
      modifies this`trace, this`steps
      ensures Valid(Idle) && old(trace) <= trace && old(steps) <= steps
    {
      hide Run, Fresh;
      Record(Fails, State(w), Idle);
    }

    /** The hub looks at a key; its answer is as of the log's length then. */
    method Head(ghost w: Work) returns (ok: bool, at: nat, ghost v: Work)
      requires Valid(w) && HubMayLook(w)
      modifies this`log, this`recheck, this`moves, this`trial, this`epoch, this`open, this`renaming, this`rows, this`queued,
               this`trace, this`steps
      ensures Valid(v) && old(trace) <= trace && old(steps) <= steps && old(log) <= log && at <= |log|
      ensures v == Looked(w, at)
    {
      hide Run, Fresh, Valid, State;
      Meanwhile(w);
      at := |log|;
      v := Looked(w, at);
      LookNow(w);
      Meanwhile(v);
      ok := *;
    }

    ghost method LookNow(w: Work)
      requires Valid(w) && HubMayLook(w)
      modifies this`trace, this`steps
      ensures Valid(Looked(w, |log|)) && old(trace) <= trace && old(steps) <= steps
    {
      hide Run, Fresh;
      Record(HubLooks, State(w), Looked(w, |log|));
    }

    // ── catching up ─────────────────────────────────────────────────────────

    predicate MovesTouch(c: Change)
      reads this`moves, this`trial
      ensures forall w :: MovesTouch(c) == MoveTouches(State(w), c)
    {
      IsMoving(c.key) || (Source(c).Some? && IsMoving(Source(c).value))
    }

    /** The change in hand is done with. */
    ghost function Past(w: Work): Work
      requires w.Page?
    {
      w.(next := w.next + 1, last := Some(w.next + 1), ask := Quiet)
    }

    /** What is true of the page while its change is in hand. */
    ghost predicate InHand(n: nat, w: Work)
      reads this`log
    {
      w.Page? && n == w.next < w.end <= |log| && !log[n].op.Unknown?
    }

    /** The old name of a renamed object, asked about and decided before the new one; `passed` when a
        rename overtakes this answer too. */
    method ApplySource(n: nat, change: Change, before: nat, at: nat, ghost w: Work) returns (ok: bool, passed: bool,
        ghost v: Work)
      requires Valid(w) && InHand(n, w) && w.ask == SourceAsked(before, at) && log[n] == change && Source(change).Some?
      modifies this`log, this`recheck, this`moves, this`trial, this`epoch, this`open, this`renaming, this`rows, this`queued,
               this`seen, this`trace, this`steps
      ensures Valid(v) && old(trace) <= trace && old(steps) <= steps && old(log) <= log
      ensures v == if !ok then Idle else if passed then Past(w) else w.(ask := Deciding(at))
    {
      hide Run, Fresh, Valid, State, Moving;
      passed := false;
      var sourceAt;
      ok, sourceAt, v := Head(w);
      if !ok {
        Fail(v);
        return ok, passed, Idle;
      }
      passed := epoch != before;
      LandSourceNow(n, v);
      if passed {
        return ok, passed, Past(w);
      }
      v := w.(ask := SourceDeciding(at, sourceAt));
      Lock(v);
      ok := DecideSource(n, change, at, sourceAt, v);
      v := if ok then w.(ask := Deciding(at)) else Idle;
    }

    ghost method LandSourceNow(n: nat, w: Work)
      requires Valid(w) && InHand(n, w) && w.ask.SourceAnswered?
      modifies this`trace, this`steps
      ensures Valid(if epoch != w.ask.epoch then Past(w) else w.(ask := SourceDeciding(w.ask.at, w.ask.sourceAt)))
      ensures old(trace) <= trace && old(steps) <= steps
    {
      hide Run, Fresh;
      Record(LandSource, State(w), if epoch != w.ask.epoch then Past(w) else w.(ask := SourceDeciding(w.ask.at, w.ask.sourceAt)));
    }

    /** Under the lock: the file follows the rename, or is decided on its own. */
    method DecideSource(n: nat, change: Change, at: nat, sourceAt: nat, ghost w: Work) returns (ok: bool)
      requires Valid(w) && InHand(n, w) && w.ask == SourceDeciding(at, sourceAt) && log[n] == change && Source(change).Some? && trial == {}
      modifies this`recheck, this`seen, this`trace, this`steps
      ensures Valid(if ok then w.(ask := Deciding(at)) else Idle) && old(trace) <= trace && old(steps) <= steps
    {
      hide Run, Fresh, Reconciled, Moving, Raise;
      ghost var before := State(w);
      var from, follows: bool, examines := Source(change).value, *, true;
      ok := true;
      if follows {
        if !IsMoving(from) && !IsMoving(change.key) {
          seen := Raise(seen, {from}, sourceAt);
        }
      } else {
        ok, examines := ReconcileKey(from, sourceAt, w);
      }
      if ok {
        Record(DecidesSource(follows, examines), before, w.(ask := Deciding(at)));
      } else {
        Fail(w);
      }
    }

    /** Under the lock: the key is decided with the answer about it. */
    method DecideKey(n: nat, key: Key, at: nat, ghost w: Work) returns (ok: bool)
      requires Valid(w) && InHand(n, w) && w.ask == Deciding(at) && log[n].key == key && trial == {}
      modifies this`recheck, this`seen, this`trace, this`steps
      ensures Valid(if ok then Past(w) else Idle) && old(trace) <= trace && old(steps) <= steps
    {
      hide Run, Fresh, Reconciled;
      ghost var before := State(w);
      var examines;
      ok, examines := ReconcileKey(key, at, w);
      if ok {
        Record(Decides(examines), before, Past(w));
      } else {
        Fail(w);
      }
    }

    ghost method BeginNow(n: nat, w: Work)
      requires Valid(w) && InHand(n, w) && w.ask.Quiet? && !refresh
      modifies this`trace, this`steps
      ensures Valid(if MovesTouch(log[n]) then Past(w) else w.(ask := Asked(epoch)))
      ensures old(trace) <= trace && old(steps) <= steps
    {
      hide Run, Fresh, MoveTouches;
      Record(Begin, State(w), if MovesTouch(log[n]) then Past(w) else w.(ask := Asked(epoch)));
    }

    ghost method LandNow(n: nat, w: Work)
      requires Valid(w) && InHand(n, w) && w.ask.Answered?
      modifies this`trace, this`steps
      ensures var ask, c := w.ask, log[n];
        Valid(if epoch != ask.epoch || IsMoving(c.key) then Past(w)
              else w.(ask := if Source(c).Some? then SourceAsked(ask.epoch, ask.at) else Deciding(ask.at)))
      ensures old(trace) <= trace && old(steps) <= steps
    {
      hide Run, Fresh, Moving;
      var ask, c := w.ask, log[n];
      Record(Land, State(w), if epoch != ask.epoch || IsMoving(c.key) then Past(w)
                             else w.(ask := if Source(c).Some? then SourceAsked(ask.epoch, ask.at) else Deciding(ask.at)));
    }

    /** `apply_change`: jobs have been drained, and no refresh is due. */
    method ApplyChange(n: nat, ghost w: Work) returns (ok: bool)
      requires Valid(w) && InHand(n, w) && w.ask.Quiet? && !refresh
      modifies this`log, this`recheck, this`moves, this`trial, this`epoch, this`open, this`renaming, this`rows, this`queued,
               this`seen, this`trace, this`steps
      ensures Valid(if ok then Past(w) else Idle) && old(trace) <= trace && old(steps) <= steps && old(log) <= log
    {
      hide Run, Fresh, Valid, State, Moving, MovesTouch, IsMoving;
      var change, before := log[n], epoch;
      BeginNow(n, w);
      if MovesTouch(change) {
        return true;
      }
      var at;
      ghost var v;
      ok, at, v := Head(w.(ask := Asked(before)));
      if !ok {
        Fail(v);
        return;
      }
      LandNow(n, v);
      if epoch != before || IsMoving(change.key) {
        return true;
      }
      v := w.(ask := Deciding(at));
      if Source(change).Some? {
        var passed;
        ok, passed, v := ApplySource(n, change, before, at, w.(ask := SourceAsked(before, at)));
        if !ok || passed {
          return;
        }
      }
      Lock(v);
      ok := DecideKey(n, change.key, at, v);
    }

    // ── the full listing ────────────────────────────────────────────────────

    ghost method ListNow(range: iset<Key>, w: Work, v: Work)
      requires Valid(w) && (w.Starting? || w.Listing?)
      requires v == match w
        case Starting(start) => Listing(start, |log|, range, HeldIn(log, range), {})
        case Listing(start, head, covered, listed, touched) =>
          Listing(start, head, covered + range, listed + HeldIn(log, range - covered), touched)
        case _ => w
      modifies this`trace, this`steps
      ensures Valid(v) && old(trace) <= trace && old(steps) <= steps
    {
      hide Run, Fresh, HeldIn;
      Record(ListPage(range), State(w), v);
    }

    /** The pages of the listing, jobs in between. Each page is what the hub has of some more keys at
        the time; the last one is of all that are left. */
    method FetchPages(start: nat) returns (ok: bool, head: nat, listed: set<Key>, touched: set<Key>,
        ghost covered: iset<Key>)
      requires Valid(Starting(start))
      modifies this`log, this`recheck, this`moves, this`trial, this`epoch, this`open, this`renaming, this`rows, this`queued,
               this`refresh, this`seen, this`trace, this`steps
      ensures ok ==> Valid(Listing(start, head, covered, listed, touched)) && forall k :: k in covered
      ensures !ok ==> Valid(Idle)
      ensures old(trace) <= trace && old(steps) <= steps && old(log) <= log && (ok ==> head <= |log|)
    {
      hide Run, Fresh, Valid, State, HeldNow, HeldIn, Among, Range;
      var parts: seq<set<Key>>, done: set<Key> := *, *;
      Meanwhile(Starting(start));
      head, listed, touched := |log|, HeldNow(log, Some(done), {}), {};
      HeldInRange(log, Some(done), {});
      RangeGrows({}, done);
      ListNow(Among(done), Starting(start), Listing(start, head, Among(done), listed, touched));
      ok, covered := true, Among(done);
      for i := 0 to |parts|
        invariant ok && Valid(Listing(start, head, Among(done), listed, touched))
        invariant old(trace) <= trace && old(steps) <= steps && old(log) <= log && head <= |log|
      {
        ok, listed, touched := NextPage(start, head, done, listed, touched, Some(parts[i]));
        if !ok {
          return;
        }
        RangeGrows(done, parts[i]);
        done := done + parts[i];
      }
      ok, listed, touched := NextPage(start, head, done, listed, touched, None);
      covered := Among(done) + Range(None);
      AllInRange(done);
    }

    method NextPage(start: nat, head: nat, done: set<Key>, listed: set<Key>, touched: set<Key>, part: Option<set<Key>>)
      returns (ok: bool, listed': set<Key>, touched': set<Key>)
      requires Valid(Listing(start, head, Among(done), listed, touched))
      modifies this`log, this`recheck, this`moves, this`trial, this`epoch, this`open, this`renaming, this`rows, this`queued,
               this`refresh, this`seen, this`trace, this`steps
      ensures Valid(if ok then Listing(start, head, Among(done) + Range(part), listed', touched') else Idle)
      ensures old(trace) <= trace && old(steps) <= steps && old(log) <= log
    {
      hide Run, Fresh, Valid, State, HeldNow, HeldIn, Among, Range;
      listed', touched' := listed, touched;
      var paths;
      ghost var w;
      paths, ok, w := DrainJobs(Listing(start, head, Among(done), listed, touched));
      touched' := touched + paths;
      if ok {
        Meanwhile(w);
        ok := *;
      }
      if !ok {
        Fail(w);
        return;
      }
      listed' := listed + HeldNow(log, part, done);
      HeldInRange(log, part, done);
      ListNow(Range(part), w, Listing(start, head, Among(done) + Range(part), listed', touched'));
    }

    /** One key of the sorted listing. */
    method SweepOne(start: nat, head: nat, left: set<Key>, touched: set<Key>, key: Key, ghost passed: set<Key>)
      returns (ok: bool, touched': set<Key>, ghost passed': set<Key>)
      requires Valid(Sweep(start, head, left, touched, passed)) && key in left
      modifies this`log, this`recheck, this`moves, this`trial, this`epoch, this`open, this`renaming, this`rows, this`queued,
               this`refresh, this`seen, this`trace, this`steps
      ensures Valid(if ok then Sweep(start, head, left - {key}, touched', passed') else Idle)
      ensures old(trace) <= trace && old(steps) <= steps && old(log) <= log
    {
      hide Run, Fresh, Valid, State, Under;
      var paths;
      ghost var w;
      paths, ok, w := DrainJobs(Sweep(start, head, left, touched, passed));
      touched', passed' := touched + paths, passed;
      if !ok {
        Fail(w);
        return;
      }
      Lock(w);
      if exists path <- touched' :: Under(key, path) {
        passed' := passed + {key};
        PassOver(key, w, Sweep(start, head, left - {key}, touched', passed'));
      } else {
        ok := SweepKeyNow(key, head, w);
      }
    }

    ghost method PassOver(key: Key, w: Work, v: Work)
      requires Valid(w) && w.Sweep? && key in w.left && trial == {} && (exists path <- w.touched :: Under(key, path))
      requires v == Sweep(w.start, w.head, w.left - {key}, w.touched, w.passed + {key})
      modifies this`trace, this`steps
      ensures Valid(v) && old(trace) <= trace && old(steps) <= steps
    {
      hide Run, Fresh, Under;
      Record(SweepKey(key, true), State(w), v);
    }

    method SweepKeyNow(key: Key, head: nat, ghost w: Work) returns (ok: bool)
      requires Valid(w) && w.Sweep? && head == w.head && key in w.left && trial == {} && !exists path <- w.touched :: Under(key, path)
      modifies this`recheck, this`seen, this`trace, this`steps
      ensures Valid(if ok then Sweep(w.start, w.head, w.left - {key}, w.touched, w.passed) else Idle)
      ensures old(trace) <= trace && old(steps) <= steps
    {
      hide Run, Fresh, Under, Reconciled;
      ghost var before := State(w);
      var examines;
      ok, examines := ReconcileKey(key, head, w);
      if ok {
        Record(SweepKey(key, examines), before, Sweep(w.start, w.head, w.left - {key}, w.touched, w.passed));
      } else {
        Fail(w);
      }
    }

    ghost method EndPagesNow(w: Work)
      requires Valid(w) && w.Listing? && w.head <= |log| && forall k :: k in w.covered
      modifies this`seen, this`trace, this`steps
      ensures Valid(Sweep(w.start, w.head, w.listed + rows, w.touched, {})) && old(trace) <= trace && old(steps) <= steps
    {
      hide Run, Fresh, Raise;
      ghost var before := State(w);
      seen := Raise(seen, Omitted(before), w.head);
      Record(EndPages, before, Sweep(w.start, w.head, w.listed + rows, w.touched, {}));
    }

    /** The listing is complete: the cursor stands where its first page said the log ended. A rename
        of a directory meanwhile makes another one due. */
    method FinishListing(start: nat, head: nat, full: bool, ghost w: Work)
      requires Valid(w) && w.Sweep? && w.start == start && w.head == head && w.left == {}
      modifies this`cursor, this`refresh, this`due, this`trace, this`steps
      ensures Valid(Idle) && cursor == Some(head) && refresh == (epoch != start)
      ensures old(trace) <= trace && old(steps) <= steps
    {
      hide Run, Fresh;
      ghost var before := State(w);
      cursor, refresh, due := Some(head), epoch != start, due && !full;
      Record(EndListing(full), before, Idle);
    }

    /** `rebuild_from_listing`. What is neither listed nor in the ledger is on no side; the rest is
        decided key by key. */
    method Rebuild(start: nat, full: bool) returns (ok: bool)
      requires Valid(Starting(start))
      modifies this
      ensures Valid(Idle) && old(trace) <= trace && old(steps) <= steps && old(log) <= log
      ensures ok ==> cursor.Some?
    {
      hide Run, Fresh, Valid, State;
      var head, listed, touched;
      ghost var covered: iset<Key>, passed: set<Key> := iset{}, {};
      ok, head, listed, touched, covered := FetchPages(start);
      if !ok {
        return;
      }
      EndPagesNow(Listing(start, head, covered, listed, touched));
      var left := listed + rows;
      while left != {}
        invariant Valid(Sweep(start, head, left, touched, passed))
        invariant ok && old(trace) <= trace && old(steps) <= steps && old(log) <= log
        decreases |left|
      {
        var key :| key in left;
        ok, touched, passed := SweepOne(start, head, left, touched, key, passed);
        if !ok {
          return;
        }
        left := left - {key};
      }
      FinishListing(start, head, full, Sweep(start, head, left, touched, passed));
    }

    ghost method StartListingNow()
      requires Valid(Idle)
      modifies this`trace, this`steps
      ensures Valid(Starting(epoch)) && old(trace) <= trace && old(steps) <= steps
    {
      hide Run, Fresh;
      Record(StartListing, State(Idle), Starting(epoch));
    }

    // ── what was put aside ──────────────────────────────────────────────────

    /** One key of those taken out of the recheck set. */
    method RecheckOne(key: Key, left: set<Key>) returns (ok: bool)
      requires Valid(Recheck(left, None, None)) && key in left
      modifies this`log, this`recheck, this`moves, this`trial, this`epoch, this`open, this`renaming, this`rows, this`queued,
               this`seen, this`trace, this`steps
      ensures Valid(if ok then Recheck(left - {key}, None, None) else Idle)
      ensures old(trace) <= trace && old(steps) <= steps && old(log) <= log
    {
      hide Run, Fresh, Valid, State, Moving, IsMoving;
      Meanwhile(Recheck(left, None, None));
      var asked := TakeOne(key, left);
      if !asked {
        return true;
      }
      var at;
      ghost var v;
      ok, at, v := Head(Recheck(left, Some(key), None));
      if !ok {
        Fail(v);
        return;
      }
      Lock(v);
      ok := DecideRechecked(key, at, left);
    }

    method TakeOne(key: Key, left: set<Key>) returns (asked: bool)
      requires Valid(Recheck(left, None, None)) && key in left
      modifies this`recheck, this`trace, this`steps
      ensures Valid(if asked then Recheck(left, Some(key), None) else Recheck(left - {key}, None, None))
      ensures old(trace) <= trace && old(steps) <= steps
    {
      hide Run, Fresh, Moving;
      ghost var before := State(Recheck(left, None, None));
      asked := !IsMoving(key) && key !in open;
      if !IsMoving(key) && key in open {
        recheck := recheck + {key};
      }
      Record(TakeKey(key), before, if asked then Recheck(left, Some(key), None) else Recheck(left - {key}, None, None));
    }

    method DecideRechecked(key: Key, at: nat, left: set<Key>) returns (ok: bool)
      requires Valid(Recheck(left, Some(key), Some(at))) && trial == {}
      modifies this`recheck, this`seen, this`trace, this`steps
      ensures Valid(if ok then Recheck(left - {key}, None, None) else Idle)
      ensures old(trace) <= trace && old(steps) <= steps
    {
      hide Run, Fresh, Reconciled;
      ghost var w := Recheck(left, Some(key), Some(at));
      ghost var before := State(w);
      var examines;
      ok, examines := ReconcileKey(key, at, w);
      if ok {
        Record(Decides(examines), before, Recheck(left - {key}, None, None));
      } else {
        Fail(w);
      }
    }

    /** `recheck_deferred`: the set is emptied first, then worked through. */
    method RecheckDeferred() returns (ok: bool)
      requires Valid(Idle)
      modifies this`log, this`recheck, this`moves, this`trial, this`epoch, this`open, this`renaming, this`rows, this`queued,
               this`seen, this`trace, this`steps
      ensures Valid(Idle) && old(trace) <= trace && old(steps) <= steps && old(log) <= log
    {
      var left := TakeAll();
      hide *;
      ok := true;
      while left != {}
        invariant Valid(Recheck(left, None, None)) && ok
        invariant old(trace) <= trace && old(steps) <= steps && old(log) <= log
        decreases |left|
      {
        var key :| key in left;
        ok := RecheckOne(key, left);
        if !ok {
          return;
        }
        left := left - {key};
      }
      NoneLeft();
    }

    method TakeAll() returns (left: set<Key>)
      requires Valid(Idle)
      modifies this`recheck, this`trace, this`steps
      ensures Valid(Recheck(left, None, None)) && old(trace) <= trace && old(steps) <= steps && left == old(recheck)
    {
      hide Run, Fresh;
      ghost var before := State(Idle);
      left, recheck := recheck, {};
      Record(TakeRecheck, before, Recheck(left, None, None));
    }

    ghost method NoneLeft()
      requires Valid(Recheck({}, None, None))
      modifies this`trace, this`steps
      ensures Valid(Idle) && old(trace) <= trace && old(steps) <= steps
    {
      hide Run, Fresh;
      Record(EndRecheck, State(Recheck({}, None, None)), Idle);
    }

    // ── one cycle ───────────────────────────────────────────────────────────

    method ReadNow() returns (since: nat, end: nat, head: nat)
      requires Valid(Idle)
      modifies this`trace, this`steps
      ensures Valid(Page(since, end, head, since, None, Quiet)) && since <= end <= head == |log|
      ensures old(trace) <= trace && old(steps) <= steps
    {
      hide Run, Fresh;
      CursorInLog(Idle);
      since, head := if cursor.Some? then cursor.value else 0, |log|;
      end := if head <= since + CHANGES_PAGE then head else since + CHANGES_PAGE;
      Record(ReadPage, State(Idle), Page(since, end, head, since, None, Quiet));
    }

    ghost method SkipNow(w: Work)
      requires Valid(w) && w.Page? && w.ask.Quiet? && w.next < w.end <= |log| && log[w.next].op.Unknown?
      modifies this`trace, this`steps
      ensures Valid(w.(next := w.next + 1)) && old(trace) <= trace && old(steps) <= steps
    {
      hide Run, Fresh;
      Record(SkipUnknown, State(w), w.(next := w.next + 1));
    }

    ghost method RelistNow(n: nat, w: Work)
      requires Valid(w) && InHand(n, w) && w.ask.Quiet? && refresh
      modifies this`trace, this`steps
      ensures Valid(Starting(epoch)) && old(trace) <= trace && old(steps) <= steps
    {
      hide Run, Fresh;
      Record(Relist, State(w), Starting(epoch));
    }

    /** Jobs first; then the change, or a listing instead when a directory move has made one due. */
    method CatchOne(n: nat, ghost w: Work) returns (ok: bool, relisted: bool)
      requires Valid(w) && InHand(n, w) && w.ask.Quiet?
      modifies this
      ensures Valid(if ok && !relisted then Past(w) else Idle)
      ensures old(trace) <= trace && old(steps) <= steps && old(log) <= log
    {
      hide Run, Fresh, Valid, State;
      relisted := false;
      var paths;
      ghost var v;
      paths, ok, v := DrainJobs(w);
      if !ok {
        Fail(v);
        return;
      }
      if refresh {
        RelistNow(n, v);
        relisted := true;
        ok := Rebuild(epoch, false);
        return;
      }
      ok := ApplyChange(n, v);
    }

    method EndNow(since: nat, head: nat, last: Option<nat>, ghost w: Work)
      requires Valid(w) && w.Page? && w.since == since && w.head == head && w.last == last && w.next == w.end && w.ask.Quiet?
      modifies this`cursor, this`trace, this`steps
      ensures Valid(Idle) && old(trace) <= trace && old(steps) <= steps
    {
      hide Run, Fresh;
      ghost var before := State(w);
      cursor := Some(if last.Some? then last.value else if head > since then head else since);
      Record(EndPage, before, Idle);
    }

    /** One page of the feed. `more` says that it was full. */
    method CatchPage() returns (ok: bool, more: bool)
      requires Valid(Idle)
      modifies this
      ensures Valid(Idle) && old(trace) <= trace && old(steps) <= steps && old(log) <= log
    {
      hide Run, Fresh, Valid, State;
      var since, end, head := ReadNow();
      var next: nat, last: Option<nat>, known: nat := since, None, 0;
      ok, more := true, false;
      while next < end
        invariant Valid(Page(since, end, head, next, last, Quiet)) && next <= end
        invariant ok && end <= |log| && old(trace) <= trace && old(steps) <= steps && old(log) <= log
        decreases end - next
      {
        ghost var w := Page(since, end, head, next, last, Quiet);
        if log[next].op.Unknown? {
          SkipNow(w);
        } else {
          var relisted;
          ok, relisted := CatchOne(next, w);
          if !ok || relisted {
            return;
          }
          last, known := Some(next + 1), known + 1;
        }
        next := next + 1;
      }
      EndNow(since, head, last, Page(since, end, head, next, last, Quiet));
      more := known >= CHANGES_PAGE;
    }

    /** `catch_up`, for at most `fuel` full pages. The hub may say that the cursor is too old. */
    method CatchUp(fuel: nat) returns (ok: bool)
      requires Valid(Idle)
      modifies this
      ensures Valid(Idle) && old(trace) <= trace && old(steps) <= steps && old(log) <= log
    {
      hide *;
      ok := true;
      var more, left := true, fuel;
      while ok && more && left > 0
        invariant Valid(Idle) && old(trace) <= trace && old(steps) <= steps && old(log) <= log
        decreases left
      {
        Meanwhile(Idle);
        var answered: bool, tooOld: bool := *, *;
        if !answered {
          return false;
        } else if tooOld {
          StartListingNow();
          ok := Rebuild(epoch, false);
          return;
        }
        ok, more := CatchPage();
        left := left - 1;
      }
    }

    /** The part of `cycle_inner` that reads: a listing when one is due, otherwise the feed; then what
        was put aside; then a listing if a directory move has made one due meanwhile. Afterwards a
        change is skipped if and only if one of the losing steps was taken on it and no listing has
        made it good; and the cursor has not moved back. */
    method ReadCycle(full: bool, fuel: nat) returns (ok: bool)
      requires Valid(Idle)
      modifies this
      ensures Valid(Idle) && old(trace) <= trace && old(steps) <= steps && old(log) <= log
      ensures Position(State(Idle)) >= old(Position(State(Idle)))
      ensures forall n, k :: Skipped(State(Idle), n, k) <==> exists i: nat :: i < |steps| && LostAt(trace, steps, n, k, i, |steps|)
    {
      hide *;
      ghost var was := |steps|;
      Here();
      if full || due || refresh || cursor.None? {
        StartListingNow();
        ok := Rebuild(epoch, full || due);
      } else {
        ok := CatchUp(fuel);
      }
      if ok {
        ok := RecheckDeferred();
      }
      if ok {
        var paths;
        ghost var w;
        StaysIdle({});
        paths, ok, w := DrainJobs(Idle);
        StaysIdle(paths);
      }
      if ok && refresh {
        StartListingNow();
        ok := Rebuild(epoch, false);
      }
      Here();
      Forward(was);
      Explained();
    }

    lemma {:induction false} Here()
      requires Valid(Idle)
      ensures |trace| == |steps| + 1 && trace[|steps|] == State(Idle)
    {
    }

    lemma {:induction false} StaysIdle(paths: set<Key>)
      ensures Touching(Idle, paths) == Idle && EngineMayDrain(Idle)
    {
    }

    lemma {:induction false} Forward(was: nat)
      requires Valid(Idle) && was <= |steps| && was < |trace|
      ensures Position(trace[was]) <= Position(State(Idle))
    {
      hide Good, Fresh, State;
      FreshGood(trace[0], 0, "");
      RunGood(trace, steps, was, |steps|);
    }

    lemma {:induction false} Explained()
      requires Valid(Idle)
      ensures forall n, k :: Skipped(State(Idle), n, k) <==> exists i: nat :: i < |steps| && LostAt(trace, steps, n, k, i, |steps|)
    {
      hide Good, Fresh, State, Skipped, LostAt;
      forall n: nat, k: Key ensures Skipped(State(Idle), n, k) <==> exists i: nat :: i < |steps| && LostAt(trace, steps, n, k, i, |steps|) {
        FreshGood(trace[0], n, k);
        SkippedMeansLost(trace, steps, n, k, |steps|);
      }
    }
  }
}
