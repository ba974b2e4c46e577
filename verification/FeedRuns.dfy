/** Runs of the feed reader: what they skip, and six in which they do skip something. */
module FeedRuns {
  import opened Options
  import opened Keys
  import opened Feed
  import opened FeedSafety

  /** The states a run passes through; each step is possible where it is taken. */
  ghost predicate Run(trace: seq<Mirror>, steps: seq<Event>) {
    && |trace| == |steps| + 1
    && forall i {:trigger steps[i]} :: 0 <= i < |steps| ==> Enabled(trace[i], steps[i]) && trace[i + 1] == Next(trace[i], steps[i])
  }

  /** A mirror that has never read the feed, with any log. */
  predicate Fresh(s: Mirror) { s.cursor.None? && s.work.Idle? && s.seen == map[] }

  lemma {:induction false} FreshGood(s: Mirror, n: nat, k: Key)
    requires Fresh(s)
    ensures Good(s) && !Skipped(s, n, k)
  {
  }

  /** Along every run the reader stays in order, and the cursor only moves forward. */
  lemma {:induction false} RunGood(trace: seq<Mirror>, steps: seq<Event>, a: nat, b: nat)
    requires Run(trace, steps) && Good(trace[0]) && a <= b < |trace|
    ensures Good(trace[b]) && Position(trace[a]) <= Position(trace[b])
    decreases b
  {
    hide Good, Enabled, Next;
    if b > 0 {
      RunGood(trace, steps, if a < b then a else b - 1, b - 1);
      var e := steps[b - 1];
      StepGood(trace[b - 1], e);
    }
  }

  /** The step at `i` skipped the change, and nothing has made it good up to `j`. */
  ghost predicate LostAt(trace: seq<Mirror>, steps: seq<Event>, n: nat, k: Key, i: nat, j: nat) {
    && i < |steps| && i < |trace| && j < |trace|
    && Loses(trace[i], steps[i], n, k)
    && forall m :: i < m <= j ==> Skipped(trace[m], n, k)
  }

  /** A change is skipped at some moment of a run if and only if one of the losing steps was taken
      on it before, and it has not been made good since. */
  lemma {:induction false} SkippedMeansLost(trace: seq<Mirror>, steps: seq<Event>, n: nat, k: Key, j: nat)
    requires Run(trace, steps) && Good(trace[0]) && !Skipped(trace[0], n, k) && j < |trace|
    ensures Skipped(trace[j], n, k) <==> exists i: nat :: i < j && LostAt(trace, steps, n, k, i, j)
  {
    hide Good, Enabled, Next, Skipped, Loses;
    if exists i: nat :: i < j && LostAt(trace, steps, n, k, i, j) {
      var i: nat :| i < j && LostAt(trace, steps, n, k, i, j);
      assert Skipped(trace[j], n, k);
    }
    if j > 0 && Skipped(trace[j], n, k) {
      var e := steps[j - 1];
      RunGood(trace, steps, 0, j - 1);
      StepSkips(trace[j - 1], e, n, k);
      if Skipped(trace[j - 1], n, k) {
        SkippedMeansLost(trace, steps, n, k, j - 1);
        var i: nat :| i < j - 1 && LostAt(trace, steps, n, k, i, j - 1);
        assert LostAt(trace, steps, n, k, i, j);
      } else {
        assert LostAt(trace, steps, n, k, j - 1, j);
      }
    }
  }

  /** A run without a losing step: the cursor passes nothing that is not seen to. */
  lemma {:induction false} NothingIsSkipped(trace: seq<Mirror>, steps: seq<Event>, j: nat, n: nat, k: Key)
    requires Run(trace, steps) && Fresh(trace[0]) && j < |trace|
    requires forall i :: 0 <= i < |steps| ==> !Loses(trace[i], steps[i], n, k)
    requires n < Front(trace[j]) <= |trace[j].log| && k in KeysOf(trace[j].log[n])
    ensures Seen(trace[j], k, n + 1) || Covered(trace[j], k) || Ahead(trace[j], Front(trace[j]), k)
  {
    FreshGood(trace[0], n, k);
    hide Good, Enabled, Next, Loses, Seen, Covered, Ahead, KeysOf, Fresh;
    SkippedMeansLost(trace, steps, n, k, j);
  }

  // ── six runs that lose a change ───────────────────────────────────────────

  /** Nothing to do: the feed has been read to its end and every answer dates from then or before. */
  predicate Quiet(s: Mirror) {
    && s.work.Idle? && s.cursor == Some(|s.log|) && s.recheck == {} && s.queued == {} && !ListingDue(s)
    && forall k <- s.seen :: s.seen[k] <= |s.log|
  }

  function Written(k: Key): Change { Change(Put, k, None) }

  /** The run begins in `s` and ends in `t`. */
  ghost predicate Leads(trace: seq<Mirror>, steps: seq<Event>, s: Mirror, t: Mirror) {
    Run(trace, steps) && trace[0] == s && trace[|steps|] == t
  }

  lemma {:induction false} Stays(s: Mirror)
    ensures Leads([s], [], s, s)
  {
  }

  /** One more step. */
  lemma {:induction false} Then(trace: seq<Mirror>, steps: seq<Event>, s: Mirror, t: Mirror,
      e: Event) returns (longer: seq<Mirror>, more: seq<Event>, u: Mirror)
    requires Leads(trace, steps, s, t) && Enabled(t, e)
    ensures Leads(longer, more, s, u) && u == Next(t, e)
  {
    hide Enabled, Next;
    u := Next(t, e);
    longer, more := trace + [u], steps + [e];
    forall i: nat | i < |more| ensures Enabled(longer[i], more[i]) && longer[i + 1] == Next(longer[i], more[i]) {
      if i < |steps| {
        assert more[i] == steps[i] && longer[i] == trace[i] && longer[i + 1] == trace[i + 1];
      }
    }
  }

  /** The reader in the middle of a page that holds one new change. */
  function Reading(s: Mirror, k: Key, ask: Ask): Mirror {
    var n := |s.log|;
    s.(log := s.log + [Written(k)], work := Page(n, n + 1, n + 1, n, None, ask))
  }

  /** Somebody writes a key and the reader begins on the change. */
  lemma {:induction false} ReadsChange(s: Mirror, k: Key) returns (trace: seq<Mirror>, steps: seq<Event>)
    requires Quiet(s)
    ensures Leads(trace, steps, s, Reading(s, k, Ask.Quiet))
  {
    hide Leads;
    Stays(s);
    var t := s;
    trace, steps := [s], [];
    trace, steps, t := Then(trace, steps, s, t, HubGrows([Written(k)]));
    trace, steps, t := Then(trace, steps, s, t, ReadPage);
    assert t == Reading(s, k, Ask.Quiet);
  }

  /** And the hub is asked what it has under the key now. */
  lemma {:induction false} AsksAboutChange(s: Mirror, k: Key) returns (trace: seq<Mirror>, steps: seq<Event>)
    requires Quiet(s)
    ensures Leads(trace, steps, s, Reading(s, k, Answered(s.epoch, |s.log| + 1)))
  {
    hide Leads;
    trace, steps := ReadsChange(s, k);
    var t := Reading(s, k, Ask.Quiet);
    assert !Moving(t, k);
    trace, steps, t := Then(trace, steps, s, t, Begin);
    trace, steps, t := Then(trace, steps, s, t, HubLooks);
  }

  /** A change of the key has been passed, nobody has looked, and nobody will. */
  ghost predicate LosesKey(trace: seq<Mirror>, steps: seq<Event>, s: Mirror, k: Key) {
    exists t, n :: Leads(trace, steps, s, t) && LostFor(s, t, n, k)
  }

  /** Some run from here does that. */
  ghost predicate MayLose(s: Mirror, k: Key) {
    exists trace, steps :: LosesKey(trace, steps, s, k)
  }

  predicate LostFor(s: Mirror, t: Mirror, n: nat, k: Key) {
    t.work.Idle? && Position(t) == |t.log| && |s.log| <= n < |t.log| && !ListingDue(t) && Skipped(t, n, k)
  }

  /** The page ends behind a change that nobody has looked at. */
  lemma {:induction false} PassedIsLost(s: Mirror, t: Mirror, k: Key)
    requires Quiet(s) && !Excluded(s, k)
    requires t == s.(log := s.log + [Written(k)], cursor := Some(|s.log| + 1), epoch := t.epoch, open := t.open, renaming := t.renaming)
    ensures LostFor(s, t, |s.log|, k)
  {
    assert t.log[|s.log|] == Written(k);
  }

  /** A rename of some other file while the hub is asked about a change. */
  lemma {:induction false} RenameOvertakesAnswer(s: Mirror, k: Key)
    requires Quiet(s) && !Excluded(s, k)
    ensures MayLose(s, k)
  {
    hide Leads, LostFor;
    var trace, steps := AsksAboutChange(s, k);
    var t := Reading(s, k, Answered(s.epoch, |s.log| + 1));
    trace, steps, t := Then(trace, steps, s, t, Renames);
    trace, steps, t := Then(trace, steps, s, t, Land);
    trace, steps, t := Then(trace, steps, s, t, EndPage);
    PassedIsLost(s, t, k);
    assert LosesKey(trace, steps, s, k);
  }

  /** A directory move that is tried while the page is read, and withdrawn. */
  lemma {:induction false} WithdrawnMoveHidesChange(s: Mirror, k: Key)
    requires Quiet(s) && !Excluded(s, k)
    ensures MayLose(s, k)
  {
    hide Leads, LostFor;
    var trace, steps := ReadsChange(s, k);
    var t := Reading(s, k, Ask.Quiet);
    trace, steps, t := Then(trace, steps, s, t, Renames);
    trace, steps, t := Then(trace, steps, s, t, TriesMove({k}));
    assert k in t.moves + t.trial && Under(k, k);
    trace, steps, t := Then(trace, steps, s, t, Begin);
    trace, steps, t := Then(trace, steps, s, t, EndPage);
    trace, steps, t := Then(trace, steps, s, t, DropsMove);
    PassedIsLost(s, t, k);
    assert LosesKey(trace, steps, s, k);
  }

  /** The file was open when its change came up. */
  lemma {:induction false} OpenFileWaits(s: Mirror, k: Key) returns (trace: seq<Mirror>, steps: seq<Event>)
    requires Quiet(s) && !Excluded(s, k)
    ensures Leads(trace, steps, s, s.(log := s.log + [Written(k)], cursor := Some(|s.log| + 1), recheck := {k}, open := {k}, renaming := {}))
  {
    hide Leads;
    trace, steps := AsksAboutChange(s, k);
    var t := Reading(s, k, Answered(s.epoch, |s.log| + 1));
    trace, steps, t := Then(trace, steps, s, t, Land);
    trace, steps, t := Then(trace, steps, s, t, Opens({k}, {}));
    assert !Moving(t, k);
    trace, steps, t := Then(trace, steps, s, t, Decides(true));
    trace, steps, t := Then(trace, steps, s, t, EndPage);
    assert t.recheck == {k};
  }

  /** It is closed again, but the request made for it then fails. */
  lemma {:induction false} FailureLosesRecheck(s: Mirror, k: Key)
    requires Quiet(s) && !Excluded(s, k)
    ensures MayLose(s, k)
  {
    hide Leads, LostFor;
    var trace, steps := OpenFileWaits(s, k);
    var t := s.(log := s.log + [Written(k)], cursor := Some(|s.log| + 1), recheck := {k}, open := {k}, renaming := {});
    trace, steps, t := Then(trace, steps, s, t, TakeRecheck);
    trace, steps, t := Then(trace, steps, s, t, Opens({}, {}));
    assert !Moving(t, k);
    trace, steps, t := Then(trace, steps, s, t, TakeKey(k));
    trace, steps, t := Then(trace, steps, s, t, Fails);
    PassedIsLost(s, t, k);
    assert LosesKey(trace, steps, s, k);
  }

  /** The reader in the middle of a page of operations it does not know. */
  function Puzzled(s: Mirror, log: seq<Change>, next: nat): Mirror {
    var n := |s.log|;
    s.(log := log, work := Page(n, n + CHANGES_PAGE, n + CHANGES_PAGE + 1, next, None, Ask.Quiet))
  }

  lemma {:induction false} OneMoreUnknown(s: Mirror, log: seq<Change>, next: nat)
    requires |s.log| <= next < |s.log| + CHANGES_PAGE < |log| && log[next].op.Unknown?
    ensures var t := Puzzled(s, log, next); Enabled(t, SkipUnknown) && Next(t, SkipUnknown) == Puzzled(s, log, next + 1)
  {
  }

  lemma {:induction false} ReadsUnknownPage(s: Mirror, log: seq<Change>) returns (trace: seq<Mirror>, steps: seq<Event>)
    requires Quiet(s) && s.log <= log && |log| == |s.log| + CHANGES_PAGE + 1
    requires forall i :: |s.log| <= i < |s.log| + CHANGES_PAGE ==> log[i].op.Unknown?
    ensures Leads(trace, steps, s, Puzzled(s, log, |s.log| + CHANGES_PAGE))
  {
    var n := |s.log|;
    trace, steps := BeginsUnknownPage(s, log);
    hide Leads, Puzzled, Enabled, Next, Quiet;
    var t := Puzzled(s, log, n);
    for i := 0 to CHANGES_PAGE
      invariant Leads(trace, steps, s, t) && t == Puzzled(s, log, n + i)
    {
      OneMoreUnknown(s, log, n + i);
      trace, steps, t := Then(trace, steps, s, t, SkipUnknown);
    }
  }

  lemma {:induction false} BeginsUnknownPage(s: Mirror, log: seq<Change>) returns (trace: seq<Mirror>, steps: seq<Event>)
    requires Quiet(s) && s.log <= log && |log| == |s.log| + CHANGES_PAGE + 1
    ensures Leads(trace, steps, s, Puzzled(s, log, |s.log|))
  {
    hide Leads;
    Stays(s);
    var t := s;
    assert s.log + log[|s.log|..] == log;
    trace, steps := [s], [];
    trace, steps, t := Then(trace, steps, s, t, HubGrows(log[|s.log|..]));
    trace, steps, t := Then(trace, steps, s, t, ReadPage);
  }

  /** A page of operations this version does not know, with the change behind it. */
  lemma {:induction false} UnknownPageHidesChange(s: Mirror, k: Key)
    requires Quiet(s) && !Excluded(s, k)
    ensures MayLose(s, k)
  {
    hide Leads, LostFor;
    var n := |s.log|;
    var log := s.log + seq(CHANGES_PAGE, _ => Change(Unknown, "", None)) + [Written(k)];
    var trace, steps := ReadsUnknownPage(s, log);
    var t := Puzzled(s, log, n + CHANGES_PAGE);
    trace, steps, t := Then(trace, steps, s, t, EndPage);
    JumpedIsLost(s, t, n + CHANGES_PAGE, k);
    assert LosesKey(trace, steps, s, k);
  }

  lemma {:induction false} JumpedIsLost(s: Mirror, t: Mirror, n: nat, k: Key)
    requires Quiet(s) && !Excluded(s, k) && |s.log| <= n < |t.log| && t.log[n] == Written(k)
    requires t == s.(log := t.log, cursor := Some(|t.log|))
    ensures LostFor(s, t, n, k)
  {
  }

  /** The hub has the key that was written last. */
  lemma {:induction false} LastIsHeld(log: seq<Change>, k: Key)
    ensures var longer := log + [Written(k)]; k in Named(longer, |longer|) && Holds(longer, |longer|, k)
  {
    var longer := log + [Written(k)];
    assert longer[|longer| - 1] == Written(k);
  }

  /** A listing under way that has the key, or has passed it over, and no fresh answer about it. */
  ghost predicate Sweeping(s: Mirror, t: Mirror, k: Key) {
    && t == s.(log := s.log + [Written(k)], work := t.work, seen := t.seen, recheck := t.recheck)
    && t.work.Sweep? && t.work.start == s.epoch && t.work.head == |s.log| + 1 && t.work.touched == {k}
    && (k in t.work.left || k in t.work.passed) && k !in t.recheck && !Seen(t, k, |s.log| + 1)
  }

  /** Somebody writes the key, a listing begins and names it, and a job of the key is tried and given
      up for good while it goes on. */
  lemma {:induction false} ListsChange(s: Mirror, k: Key) returns (trace: seq<Mirror>, steps: seq<Event>, t: Mirror)
    requires Quiet(s)
    ensures Leads(trace, steps, s, t) && t.log == s.log + [Written(k)] && Enabled(t, EndPages)
    ensures t == s.(log := t.log, work := t.work) && t.work.Listing? && k in t.work.listed
    ensures t.work.start == s.epoch && t.work.head == |t.log| && t.work.touched == {k}
  {
    LastIsHeld(s.log, k);
    hide Leads, Named, Holds;
    Stays(s);
    t := s;
    trace, steps := [s], [];
    trace, steps, t := Then(trace, steps, s, t, HubGrows([Written(k)]));
    trace, steps, t := Then(trace, steps, s, t, StartListing);
    trace, steps, t := Then(trace, steps, s, t, ListPage(EveryKey()));
    assert t == s.(log := s.log + [Written(k)], work := t.work) && k in t.work.listed;
    trace, steps, t := TriesJob(s, t, k, trace, steps);
  }

  lemma {:induction false} TriesJob(s: Mirror, t: Mirror, k: Key, trace: seq<Mirror>, steps: seq<Event>)
      returns (longer: seq<Mirror>, more: seq<Event>, u: Mirror)
    requires Leads(trace, steps, s, t) && t.work.Listing? && t.work.touched == {} && t.queued == {}
    ensures Leads(longer, more, s, u) && u == t.(work := Listing(t.work.start, t.work.head, t.work.covered, t.work.listed, {k}))
  {
    hide Leads, Named, Holds;
    longer, more, u := Then(trace, steps, s, t, Queues({k}));
    longer, more, u := Then(longer, more, s, u, JobsRun({k}, {}));
    longer, more, u := Then(longer, more, s, u, JobLeaves(k));
    assert u.queued == {} && u.work.touched == {k};
  }

  lemma {:induction false} SweepBegins(s: Mirror, t: Mirror, k: Key)
    requires Quiet(s) && t == s.(log := s.log + [Written(k)], work := t.work) && Enabled(t, EndPages)
    requires k in t.work.listed && t.work.start == s.epoch && t.work.head == |t.log| && t.work.touched == {k}
    ensures Sweeping(s, Next(t, EndPages), k)
  {
    hide Named, Holds;
    assert k !in Omitted(t);
  }

  /** The key is passed over; what else is listed is looked at, or passed over too. */
  lemma {:induction false} SweepGoesOn(s: Mirror, t: Mirror, k: Key, j: Key)
    requires Quiet(s) && Sweeping(s, t, k) && j in t.work.left
    ensures Enabled(t, SweepKey(j, true))
    ensures var u := Next(t, SweepKey(j, true)); Sweeping(s, u, k) && u.work.left == t.work.left - {j}
  {
    hide Named, Holds;
    assert Under(k, k);
    assert !Moving(t, j);
  }

  lemma {:induction false} SweepsAll(s: Mirror, k: Key, from: Mirror, begun: seq<Mirror>, first: seq<Event>)
      returns (trace: seq<Mirror>, steps: seq<Event>, t: Mirror)
    requires Quiet(s) && Sweeping(s, from, k) && Leads(begun, first, s, from)
    ensures Leads(trace, steps, s, t) && Sweeping(s, t, k) && t.work.left == {}
  {
    hide Leads, Quiet, Sweeping, Enabled, Next;
    trace, steps, t := begun, first, from;
    IsSweep(s, t, k);
    while t.work.left != {}
      invariant Leads(trace, steps, s, t) && Sweeping(s, t, k) && t.work.Sweep?
      decreases |t.work.left|
    {
      var j :| j in t.work.left;
      SweepGoesOn(s, t, k, j);
      trace, steps, t := Then(trace, steps, s, t, SweepKey(j, true));
      IsSweep(s, t, k);
    }
  }

  lemma {:induction false} IsSweep(s: Mirror, t: Mirror, k: Key)
    requires Sweeping(s, t, k)
    ensures t.work.Sweep?
  {
  }

  lemma {:induction false} SweptIsLost(s: Mirror, t: Mirror, k: Key)
    requires Quiet(s) && !Excluded(s, k) && Sweeping(s, t, k) && t.work.left == {}
    ensures Enabled(t, EndListing(true)) && LostFor(s, Next(t, EndListing(true)), |s.log|, k)
  {
    assert t.log[|s.log|] == Written(k);
  }

  /** A job on the key is refused for good while a listing goes on. */
  lemma {:induction false} RefusedJobHidesKey(s: Mirror, k: Key)
    requires Quiet(s) && !Excluded(s, k)
    ensures MayLose(s, k)
  {
    hide Leads, LostFor, Quiet, Sweeping, Enabled, Next;
    var trace, steps, t := ListsChange(s, k);
    SweepBegins(s, t, k);
    trace, steps, t := Then(trace, steps, s, t, EndPages);
    trace, steps, t := SweepsAll(s, k, t, trace, steps);
    SweptIsLost(s, t, k);
    trace, steps, t := Then(trace, steps, s, t, EndListing(true));
    assert LosesKey(trace, steps, s, k);
  }

  /** A rename overtakes the answer about a key with a job; the job would still look, but its row is
      dropped. */
  lemma {:induction false} DroppedJobHidesChange(s: Mirror, k: Key)
    requires Quiet(s) && !Excluded(s, k)
    ensures MayLose(s, k)
  {
    hide Leads, LostFor;
    var trace, steps := AsksAboutChange(s, k);
    var t := Reading(s, k, Answered(s.epoch, |s.log| + 1));
    trace, steps, t := Then(trace, steps, s, t, Renames);
    trace, steps, t := Then(trace, steps, s, t, Queues({k}));
    trace, steps, t := Then(trace, steps, s, t, Land);
    trace, steps, t := Then(trace, steps, s, t, EndPage);
    trace, steps, t := Then(trace, steps, s, t, JobLeaves(k));
    assert t.queued == {};
    PassedIsLost(s, t, k);
    assert LosesKey(trace, steps, s, k);
  }

  ghost function EveryKey(): (keys: iset<Key>)
    ensures forall k :: k in keys
  {
    iset k: Key | Under(k, k)
  }
}
