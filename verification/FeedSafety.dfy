/** The cursor skips a change in six kinds of step and in no other. */
module FeedSafety {
  import opened Options
  import opened Keys
  import opened Reconcile
  import opened Feed

  // ── what is true of the reader between steps ──────────────────────────────

  predicate NoneKnown(log: seq<Change>, a: nat, b: nat) {
    forall i :: a <= i < b && i < |log| ==> log[i].op.Unknown?
  }

  /** The old name of the rename in hand needs nothing more. */
  predicate SourceDone(s: Mirror, from: Key, n: nat) {
    Excluded(s, from) || from in s.recheck || Seen(s, from, n) || s.moves != {} || s.refresh
  }

  predicate AskOk(s: Mirror) {
    OnPage(s) && !Current(s).op.Unknown? &&
    match s.work.ask
    case Quiet => true
    case Asked(_) => true
    case Answered(_, at) => s.work.next < at <= |s.log|
    case SourceAsked(_, at) => s.work.next < at <= |s.log|
    case SourceAnswered(_, at, sourceAt) => s.work.next < at <= |s.log| && s.work.next < sourceAt <= |s.log|
    case SourceDeciding(at, sourceAt) => s.work.next < at <= |s.log| && s.work.next < sourceAt <= |s.log|
    case Deciding(at) =>
      s.work.next < at <= |s.log| && (Source(Current(s)).Some? ==> SourceDone(s, Source(Current(s)).value, s.work.next + 1))
  }

  predicate PageOk(s: Mirror) {
    s.work.Page? && var w := s.work;
    && w.since == Position(s) <= w.next <= w.end <= w.head <= |s.log|
    && (w.last.Some? ==> w.since < w.last.value <= w.next && NoneKnown(s.log, w.last.value, w.next))
    && (w.last.None? ==> NoneKnown(s.log, w.since, w.next))
    && (!w.ask.Quiet? ==> AskOk(s))
  }

  /** The answer about the key was true at a moment of the listing. */
  ghost predicate Told(log: seq<Change>, head: nat, listed: set<Key>, k: Key) {
    exists t: nat :: head <= t <= |log| && (k in listed <==> Holds(log, t, k))
  }

  ghost predicate ListingTrue(log: seq<Change>, head: nat, covered: iset<Key>, listed: set<Key>) {
    (forall k <- covered :: Told(log, head, listed, k)) && forall k <- listed :: k in covered
  }

  predicate Swept(s: Mirror, k: Key) {
    s.work.Sweep? &&
    (k in s.work.left || k in s.work.passed || Seen(s, k, s.work.head) || Excluded(s, k) || k in s.recheck
     || s.moves != {} || s.epoch != s.work.start)
  }

  ghost predicate WorkOk(s: Mirror) {
    match s.work
    case Idle => true
    case Page(_, _, _, _, _, _) => PageOk(s)
    case Recheck(left, asked, at) =>
      (asked.Some? ==> asked.value in left) && (at.Some? ==> asked.Some? && Position(s) <= at.value <= |s.log|)
    case Starting(start) => start <= s.epoch
    case Listing(start, head, covered, listed, _) =>
      Position(s) <= head <= |s.log| && start <= s.epoch && ListingTrue(s.log, head, covered, listed)
    case Sweep(start, head, _, _, _) =>
      Position(s) <= head <= |s.log| && start <= s.epoch && forall k <- Named(s.log, head) :: Swept(s, k)
  }

  ghost predicate Good(s: Mirror) { Position(s) <= |s.log| && WorkOk(s) }

  // ── the log only grows ────────────────────────────────────────────────────

  lemma {:induction false} HoldsStays(a: seq<Change>, b: seq<Change>, n: nat, k: Key)
    requires a <= b && n <= |a|
    ensures Holds(a, n, k) <==> Holds(b, n, k)
  {
    if n > 0 {
      HoldsStays(a, b, n - 1, k);
    }
  }

  /** What one entry of the log does to what the hub has: something put is there, something deleted is
      not, a rename takes its source away and leaves something at its destination. A key's state
      changes only by an entry that is about the key. */
  lemma {:induction false} EntrySays(log: seq<Change>, n: nat, k: Key)
    requires n < |log|
    ensures var c, was, now := log[n], Holds(log, n, k), Holds(log, n + 1, k);
            && (c.op.Put? && c.key == k ==> now)
            && (c.op.Delete? && c.key == k ==> !now)
            && (c.op.Rename? && c.key == k ==> now)
            && (c.op.Rename? && c.from == Some(k) && c.key != k ==> !now)
            && (was != now ==> k in KeysOf(c) && !c.op.Unknown?)
  {
  }

  lemma {:induction false} NamedStays(a: seq<Change>, b: seq<Change>, n: nat)
    requires a <= b && n <= |a|
    ensures Named(a, n) == Named(b, n)
  {
    if n > 0 {
      NamedStays(a, b, n - 1);
    }
  }

  /** What the hub has was put there. */
  lemma {:induction false} HeldIsNamed(log: seq<Change>, n: nat, k: Key)
    requires n <= |log| && Holds(log, n, k)
    ensures k in Named(log, n)
  {
    if n > 0 && !((log[n - 1].op.Put? || log[n - 1].op.Rename?) && log[n - 1].key == k) {
      HeldIsNamed(log, n - 1, k);
    }
  }

  lemma {:induction false} ListingGrows(a: seq<Change>, b: seq<Change>, head: nat, covered: iset<Key>, listed: set<Key>)
    requires a <= b && ListingTrue(a, head, covered, listed)
    ensures ListingTrue(b, head, covered, listed)
  {
    hide Holds;
    forall k | k in covered ensures Told(b, head, listed, k) {
      assert Told(a, head, listed, k);
      var t: nat :| head <= t <= |a| && (k in listed <==> Holds(a, t, k));
      HoldsStays(a, b, t, k);
    }
  }

  /** A page of the listing tells the truth about its range, and leaves what other pages told. */
  lemma {:induction false} PageTells(s: Mirror, range: iset<Key>)
    requires s.work.Starting? || (s.work.Listing? && s.work.head <= |s.log| && ListingTrue(s.log, s.work.head, s.work.covered, s.work.listed))
    ensures var w := PageListed(s, range).work; ListingTrue(s.log, w.head, w.covered, w.listed)
  {
    hide Holds, Named;
    var v, w := s.work, PageListed(s, range).work;
    forall k | k in w.covered ensures Told(s.log, w.head, w.listed, k) {
      if v.Listing? && k in v.covered {
        assert Told(s.log, v.head, v.listed, k);
      } else {
        if Holds(s.log, |s.log|, k) {
          HeldIsNamed(s.log, |s.log|, k);
        }
        assert k in w.listed <==> Holds(s.log, |s.log|, k);
      }
    }
  }

  /** A key that a listing and the ledger both lack was missing on the hub, while the listing ran,
      and missing here: the decision about it is to do nothing. */
  lemma {:induction false} OmittedIsGone(s: Mirror, k: Key)
    requires Good(s) && Enabled(s, EndPages) && k in Omitted(s)
    ensures exists t: nat :: s.work.head <= t <= |s.log| && !Holds(s.log, t, k)
    ensures k !in s.rows && Decide(None, None, None) == Nothing
    ensures Seen(Next(s, EndPages), k, s.work.head) && k !in Next(s, EndPages).work.left
  {
    hide Holds, Named;
    assert Told(s.log, s.work.head, s.work.listed, k);
  }

  // ── every step keeps it ───────────────────────────────────────────────────

  lemma {:induction false} HubGrowsGood(s: Mirror, more: seq<Change>)
    requires Good(s)
    ensures Good(Next(s, HubGrows(more)))
  {
    hide Named, Holds, ListingTrue, KeysOf;
    var log := s.log + more;
    assert s.log <= log;
    match s.work {
      case Listing(_, head, covered, listed, _) => ListingGrows(s.log, log, head, covered, listed);
      case Sweep(_, head, _, _, _) => NamedStays(s.log, log, head);
      case _ =>
    }
  }

  /** The steps that change only what the reader consults. */
  predicate Aside(e: Event) {
    e.Renames? || e.TriesMove? || e.KeepsMove? || e.DropsMove? || e.Opens? || e.RowsChange? || e.Defers? || e.Queues? || e.JobLeaves?
  }

  lemma {:induction false} AsideGood(s: Mirror, e: Event)
    requires Good(s) && Enabled(s, e) && Aside(e)
    ensures Good(Next(s, e))
  {
    hide Named, Holds, ListingTrue, KeysOf, NoneKnown;
  }

  lemma {:induction false} JobsRunGood(s: Mirror, paths: set<Key>, done: set<Key>)
    requires Good(s) && Enabled(s, JobsRun(paths, done))
    ensures Good(Next(s, JobsRun(paths, done)))
  {
    hide Named, Holds, ListingTrue, KeysOf, NoneKnown;
  }

  lemma {:induction false} AdvancedGood(s: Mirror, t: Mirror)
    requires PageOk(s) && OnPage(s)
    requires Position(t) == Position(s) && t.log == s.log && t.work == s.work
    ensures PageOk(Advanced(t))
  {
  }

  lemma {:induction false} ReconciledLeaves(s: Mirror, k: Key, at: nat, examines: bool)
    ensures var t := Reconciled(s, k, at, examines);
      && t == s.(recheck := t.recheck, seen := t.seen) && s.recheck <= t.recheck
      && (forall j, n :: Seen(s, j, n) ==> Seen(t, j, n))
      && (Excluded(t, k) || Moving(s, k) || k in t.recheck || Seen(t, k, at))
  {
    hide Under;
  }

  /** Who holds the lock sees only moves that are queued. */
  lemma {:induction false} MovingIsQueued(s: Mirror, k: Key)
    ensures Moving(s, k) && s.trial == {} ==> s.moves != {}
  {
  }

  /** What a job finds out keeps whatever is in hand in order. */
  lemma {:induction false} JobLooksGood(s: Mirror, key: Key, at: nat, examines: bool)
    requires Good(s) && Enabled(s, JobLooks(key, at, examines))
    ensures Good(Next(s, JobLooks(key, at, examines)))
  {
    hide Named, Holds, KeysOf, Under, NoneKnown, Reconciled, ListingTrue;
    ReconciledLeaves(s, key, at, examines);
    var t := Next(s, JobLooks(key, at, examines));
    if s.work.Sweep? {
      forall k | k in Named(s.log, s.work.head) ensures Swept(t, k) {
        assert Swept(s, k);
      }
    }
  }

  lemma {:induction false} LandGood(s: Mirror)
    requires Good(s) && Enabled(s, Land)
    ensures Good(Next(s, Land))
  {
    hide Named, Holds, KeysOf, Under, NoneKnown;
    AdvancedGood(s, s);
  }

  lemma {:induction false} LandSourceGood(s: Mirror)
    requires Good(s) && Enabled(s, LandSource)
    ensures Good(Next(s, LandSource))
  {
    hide Named, Holds, KeysOf, NoneKnown;
    AdvancedGood(s, s);
  }

  /** Once the old name needs nothing more, the key is to be decided. */
  lemma {:induction false} DecidingGood(s: Mirror, t: Mirror)
    requires PageOk(s) && OnPage(s) && s.work.ask.SourceDeciding? && Source(Current(s)).Some?
    requires t == s.(recheck := t.recheck, seen := t.seen) && SourceDone(t, Source(Current(s)).value, s.work.next + 1)
    ensures PageOk(Asking(t, Deciding(s.work.ask.at)))
  {
    hide KeysOf, NoneKnown;
  }

  lemma {:induction false} DecidesSourceGood(s: Mirror, follows: bool, examines: bool)
    requires Good(s) && Enabled(s, DecidesSource(follows, examines))
    ensures Good(Next(s, DecidesSource(follows, examines)))
  {
    hide Named, Holds, KeysOf, Moving, NoneKnown, Reconciled, AskOk, PageOk, Seen, Raise;
    assert PageOk(s);
    var ask, from := s.work.ask, Source(Current(s)).value;
    SourceIsDone(s, follows, examines);
    var t := if !follows then Reconciled(s, from, ask.sourceAt, examines)
             else if Moving(s, from) || Moving(s, Current(s).key) then s
             else s.(seen := Raise(s.seen, {from}, ask.sourceAt));
    DecidingGood(s, t);
    assert Next(s, DecidesSource(follows, examines)) == Asking(t, Deciding(ask.at));
    assert Position(t) == Position(s) && t.log == s.log;
  }

  lemma {:induction false} SourceIsDone(s: Mirror, follows: bool, examines: bool)
    requires PageOk(s) && Enabled(s, DecidesSource(follows, examines))
    ensures var from, n := Source(Current(s)).value, s.work.next + 1;
            && (Moving(s, from) || Moving(s, Current(s).key) ==> SourceDone(s, from, n))
            && SourceDone(s.(seen := Raise(s.seen, {from}, s.work.ask.sourceAt)), from, n)
            && (var t := Reconciled(s, from, s.work.ask.sourceAt, examines);
                SourceDone(t, from, n) && t == s.(recheck := t.recheck, seen := t.seen))
  {
    hide KeysOf, Moving, NoneKnown, Reconciled;
    var from := Source(Current(s)).value;
    MovingIsQueued(s, from);
    MovingIsQueued(s, Current(s).key);
    ReconciledLeaves(s, from, s.work.ask.sourceAt, examines);
  }

  lemma {:induction false} DecidesGood(s: Mirror, examines: bool)
    requires Good(s) && Enabled(s, Decides(examines))
    ensures Good(Next(s, Decides(examines)))
  {
    hide Named, Holds, KeysOf, Moving, NoneKnown, Reconciled;
    if s.work.Page? {
      var t := Reconciled(s, Current(s).key, s.work.ask.at, examines);
      ReconciledLeaves(s, Current(s).key, s.work.ask.at, examines);
      AdvancedGood(s, t);
    } else {
      ReconciledLeaves(s, s.work.asked.value, s.work.at.value, examines);
    }
  }

  lemma {:induction false} PageStepGood(s: Mirror, e: Event)
    requires Good(s) && Enabled(s, e) && (e.ReadPage? || e.SkipUnknown? || e.Begin? || e.HubLooks? || e.EndPage?)
    ensures Good(Next(s, e)) && Position(Next(s, e)) >= Position(s)
  {
    hide Named, Holds, KeysOf, Under;
    if e.Begin? {
      AdvancedGood(s, s);
    }
  }

  lemma {:induction false} RecheckGood(s: Mirror, e: Event)
    requires Good(s) && Enabled(s, e) && (e.TakeRecheck? || e.TakeKey? || e.EndRecheck? || e.Fails? || e.Restarts?)
    ensures Good(Next(s, e))
  {
    hide Named, Holds, KeysOf, Under, NoneKnown;
  }

  lemma {:induction false} RaiseSees(s: Mirror, ks: set<Key>, n: nat)
    ensures var t := s.(seen := Raise(s.seen, ks, n));
      && (forall j, m :: Seen(s, j, m) ==> Seen(t, j, m)) && forall k <- ks :: Seen(t, k, n)
  {
  }

  lemma {:induction false} ListGood(s: Mirror, e: Event)
    requires Good(s) && Enabled(s, e) && (e.Relist? || e.StartListing? || e.ListPage?)
    ensures Good(Next(s, e))
  {
    hide Named, Holds, KeysOf, Under, NoneKnown, Told;
    if e.ListPage? {
      PageTells(s, e.range);
    }
  }

  lemma {:induction false} EndPagesGood(s: Mirror)
    requires Good(s) && Enabled(s, EndPages)
    ensures Good(Next(s, EndPages))
  {
    hide Named, Holds, KeysOf, Under, NoneKnown, Raise, ListingTrue;
    var t := Next(s, EndPages);
    RaiseSees(s, Omitted(s), s.work.head);
    forall k | k in Named(s.log, s.work.head) ensures Swept(t, k) {
      if k !in s.work.listed && k !in s.rows {
        assert k in Omitted(s);
        assert Seen(s.(seen := t.seen), k, s.work.head);
      }
    }
  }

  lemma {:induction false} SweepKeyGood(s: Mirror, key: Key, examines: bool)
    requires Good(s) && Enabled(s, SweepKey(key, examines))
    ensures Good(Next(s, SweepKey(key, examines)))
  {
    hide Named, Holds, KeysOf, Under, NoneKnown, Reconciled, Moving;
    var t := Next(s, SweepKey(key, examines));
    ReconciledLeaves(s, key, s.work.head, examines);
    MovingIsQueued(s, key);
    forall k | k in Named(s.log, s.work.head) ensures Swept(t, k) {
      assert Swept(s, k);
    }
  }

  lemma {:induction false} EndListingGood(s: Mirror, full: bool)
    requires Good(s) && Enabled(s, EndListing(full))
    ensures Good(Next(s, EndListing(full))) && Position(Next(s, EndListing(full))) >= Position(s)
  {
    hide Named, Holds, KeysOf, Swept;
  }

  /** The steps that decide a key. */
  predicate DecidesKey(e: Event) {
    e.DecidesSource? || e.Decides? || e.SweepKey? || e.JobLooks?
  }

  lemma {:induction false} DecidingLeavesCursor(s: Mirror, e: Event)
    requires Enabled(s, e) && DecidesKey(e)
    ensures Next(s, e).cursor == s.cursor
  {
    hide Named, Holds, Moving, Raise, Reconciled;
    match e {
      case DecidesSource(_, examines) =>
        ReconciledLeaves(s, Source(Current(s)).value, s.work.ask.sourceAt, examines);
      case Decides(examines) =>
        if s.work.Page? {
          ReconciledLeaves(s, Current(s).key, s.work.ask.at, examines);
        } else {
          ReconciledLeaves(s, s.work.asked.value, s.work.at.value, examines);
        }
      case SweepKey(key, examines) =>
        ReconciledLeaves(s, key, s.work.head, examines);
      case JobLooks(key, at, examines) =>
        ReconciledLeaves(s, key, at, examines);
    }
  }

  lemma {:induction false} OnlyEndsMoveTheCursor(s: Mirror, e: Event)
    requires Enabled(s, e) && !e.EndPage? && !e.EndListing?
    ensures Next(s, e).cursor == s.cursor
  {
    hide Named, Holds, Moving, Raise, Reconciled, MoveTouches;
    if DecidesKey(e) {
      DecidingLeavesCursor(s, e);
    }
  }

  /** Whatever happens, the reader stays in order and its cursor never moves back. */
  lemma {:induction false} StepGood(s: Mirror, e: Event)
    requires Good(s) && Enabled(s, e)
    ensures Good(Next(s, e)) && Position(Next(s, e)) >= Position(s)
  {
    hide Good, Enabled, Next;
    if !e.EndPage? && !e.EndListing? {
      OnlyEndsMoveTheCursor(s, e);
    }
    match e {
      case HubGrows(more) => HubGrowsGood(s, more);
      case JobsRun(paths, done) => JobsRunGood(s, paths, done);
      case JobLooks(key, at, examines) => JobLooksGood(s, key, at, examines);
      case ReadPage => PageStepGood(s, e);
      case SkipUnknown => PageStepGood(s, e);
      case Begin => PageStepGood(s, e);
      case HubLooks => PageStepGood(s, e);
      case EndPage => PageStepGood(s, e);
      case Land => LandGood(s);
      case LandSource => LandSourceGood(s);
      case DecidesSource(follows, examines) => DecidesSourceGood(s, follows, examines);
      case Decides(examines) => DecidesGood(s, examines);
      case TakeRecheck => RecheckGood(s, e);
      case TakeKey(_) => RecheckGood(s, e);
      case EndRecheck => RecheckGood(s, e);
      case Fails => RecheckGood(s, e);
      case Restarts => RecheckGood(s, e);
      case Relist => ListGood(s, e);
      case StartListing => ListGood(s, e);
      case ListPage(_) => ListGood(s, e);
      case EndPages => EndPagesGood(s);
      case SweepKey(key, examines) => SweepKeyGood(s, key, examines);
      case EndListing(full) => EndListingGood(s, full);
      case _ => AsideGood(s, e);
    }
  }

  /** Nothing keeps a decision about the key from being carried out. */
  predicate Free(s: Mirror, k: Key) {
    !Excluded(s, k) && !Moving(s, k) && k !in s.open && k !in s.renaming
  }

  lemma {:induction false} ReconciledLooks(s: Mirror, j: Key, at: nat, examines: bool, k: Key, n: nat)
    requires !Seen(s, k, n)
    ensures Seen(Reconciled(s, j, at, examines), k, n) <==> k == j && n <= at && examines && Free(s, k)
    ensures k in Reconciled(s, j, at, examines).recheck ==>
              k in s.recheck || (k == j && !Excluded(s, k) && !Moving(s, k) && (k in s.open || k in s.renaming || !examines))
  {
    hide Moving;
  }

  /** The key a decision is about, and how new the answer is. */
  function InHand(s: Mirror): (Key, nat)
    requires (OnPage(s) && s.work.ask.Deciding?) || (s.work.Recheck? && s.work.asked.Some? && s.work.at.Some?)
  {
    if s.work.Page? then (Current(s).key, s.work.ask.at) else (s.work.asked.value, s.work.at.value)
  }

  lemma {:induction false} DecidesLooks(s: Mirror, examines: bool, k: Key, n: nat)
    requires Enabled(s, Decides(examines)) && !Seen(s, k, n)
    ensures Seen(Next(s, Decides(examines)), k, n) <==> InHand(s).0 == k && n <= InHand(s).1 && examines && Free(s, k)
  {
    hide Moving, Reconciled, Free;
    ReconciledLooks(s, InHand(s).0, InHand(s).1, examines, k, n);
  }

  /** The old name of a rename, decided or followed. */
  lemma {:induction false} SourceLooks(s: Mirror, follows: bool, examines: bool, k: Key, n: nat)
    requires Enabled(s, DecidesSource(follows, examines)) && !Seen(s, k, n)
    ensures Seen(Next(s, DecidesSource(follows, examines)), k, n) <==>
              && Source(Current(s)) == Some(k) && n <= s.work.ask.sourceAt
              && (if follows then !Moving(s, k) && !Moving(s, Current(s).key) else examines && Free(s, k))
  {
    hide Moving, Reconciled, Free;
    ReconciledLooks(s, Source(Current(s)).value, s.work.ask.sourceAt, examines, k, n);
  }

  lemma {:induction false} SweepLooks(s: Mirror, key: Key, examines: bool, k: Key, n: nat)
    requires Enabled(s, SweepKey(key, examines)) && !Seen(s, k, n)
    ensures Seen(Next(s, SweepKey(key, examines)), k, n) <==>
              k == key && n <= s.work.head && examines && Free(s, k) && forall path <- s.work.touched :: !Under(k, path)
  {
    hide Moving, Reconciled, Free, Under;
    ReconciledLooks(s, key, s.work.head, examines, k, n);
  }

  lemma {:induction false} OmissionLooks(s: Mirror, k: Key, n: nat)
    requires Good(s) && Enabled(s, EndPages) && !Seen(s, k, n)
    ensures Seen(Next(s, EndPages), k, n) <==> n <= s.work.head && k in Named(s.log, s.work.head) && k !in s.work.listed && k !in s.rows
  {
    hide Named, ListingTrue;
  }

  /** A mark rises when that key is decided with an answer, or in a listing, as new as that, and
      nothing stands in the way; when the file follows a rename of the hub; or when the key is missing
      on every side. In no other step. */
  lemma {:induction false} SeenMeansLooked(s: Mirror, e: Event, k: Key, n: nat)
    requires Good(s) && Enabled(s, e) && !Seen(s, k, n)
    ensures Seen(Next(s, e), k, n) <==>
              match e
              case Decides(examines) => InHand(s).0 == k && n <= InHand(s).1 && examines && Free(s, k)
              case DecidesSource(follows, examines) =>
                && Source(Current(s)) == Some(k) && n <= s.work.ask.sourceAt
                && (if follows then !Moving(s, k) && !Moving(s, Current(s).key) else examines && Free(s, k))
              case SweepKey(key, examines) =>
                k == key && n <= s.work.head && examines && Free(s, k) && forall path <- s.work.touched :: !Under(k, path)
              case JobLooks(key, at, examines) => k == key && n <= at && examines && Free(s, k)
              case EndPages => n <= s.work.head && k in Named(s.log, s.work.head) && k !in s.work.listed && k !in s.rows
              case _ => false
  {
    hide Named, Good, Free, Enabled, Next, Moving;
    match e {
      case Decides(examines) => DecidesLooks(s, examines, k, n);
      case DecidesSource(follows, examines) => SourceLooks(s, follows, examines, k, n);
      case SweepKey(key, examines) => SweepLooks(s, key, examines, k, n);
      case JobLooks(key, at, examines) => JobLooksLooks(s, key, at, examines, k, n);
      case EndPages => OmissionLooks(s, k, n);
      case _ => MarksStay(s, e);
    }
  }

  lemma {:induction false} JobLooksLooks(s: Mirror, key: Key, at: nat, examines: bool, k: Key, n: nat)
    requires Enabled(s, JobLooks(key, at, examines)) && !Seen(s, k, n)
    ensures Seen(Next(s, JobLooks(key, at, examines)), k, n) <==> k == key && n <= at && examines && Free(s, k)
  {
    hide Reconciled, Free;
    ReconciledLooks(s, key, at, examines, k, n);
  }

  lemma {:induction false} MarksStay(s: Mirror, e: Event)
    requires Enabled(s, e) && !DecidesKey(e) && !e.EndPages?
    ensures Next(s, e).seen == s.seen
  {
    hide Named, Holds, Under, Moving, MoveTouches, ReadAt, HeldIn;
    match e {
      case JobsRun(paths, done) => assert AfterJobs(s, paths, done).seen == s.seen;
      case Begin => assert Begun(s).seen == s.seen;
      case Land => assert AnswerLanded(s).seen == s.seen;
      case LandSource => assert SourceLanded(s).seen == s.seen;
      case TakeKey(key) => assert KeyTaken(s, key).seen == s.seen;
      case ListPage(range) => assert PageListed(s, range).seen == s.seen;
      case _ =>
    }
  }

  /** A page leaves the cursor behind all it was understood to say, and before what was not, unless
      nothing was: then the cursor is where the log ended. */
  lemma {:induction false} PageMovesTheCursor(s: Mirror)
    requires Good(s) && Enabled(s, EndPage)
    ensures var w, at := s.work, Position(Next(s, EndPage));
            && (forall i :: w.since <= i < w.end && !s.log[i].op.Unknown? ==> i < at)
            && ((exists i :: w.since <= i < w.end && !s.log[i].op.Unknown?) ==> at <= w.end)
            && (w.last.None? ==> NoneKnown(s.log, w.since, w.end) && at == w.head)
  {
  }

  // ── which steps skip a change ─────────────────────────────────────────────

  predicate NewlySkipped(s: Mirror, t: Mirror, n: nat, k: Key) {
    Skipped(t, n, k) && !Skipped(s, n, k)
  }

  /** Nothing is skipped by a step that passes no change and uncovers no key. */
  lemma {:induction false} NothingPassed(s: Mirror, t: Mirror, n: nat, k: Key)
    requires Front(t) <= Front(s) <= |s.log| && s.log <= t.log
    requires forall m :: Seen(s, k, m) ==> Seen(t, k, m)
    requires Covered(s, k) ==> Covered(t, k)
    ensures !NewlySkipped(s, t, n, k)
  {
    hide KeysOf, Seen, Covered;
    if Ahead(s, Front(s), k) {
      var m :| Front(s) <= m < |s.log| && k in KeysOf(s.log[m]);
      assert t.log[m] == s.log[m];
    }
  }

  /** What the change in hand is about. */
  lemma {:induction false} AheadOfNext(s: Mirror, k: Key)
    requires OnPage(s)
    ensures Ahead(s, s.work.next, k) <==> k in KeysOf(Current(s)) || Ahead(s, s.work.next + 1, k)
  {
    hide KeysOf;
    if k in KeysOf(Current(s)) {
      assert s.log[s.work.next] == Current(s);
    }
  }

  /** The reader passes one change: that skips it for the keys nobody sees to. */
  lemma {:induction false} OnePassed(s: Mirror, t: Mirror, n: nat, k: Key)
    requires OnPage(s) && t.log == s.log && Front(t) == s.work.next + 1
    requires forall m :: Seen(s, k, m) ==> Seen(t, k, m)
    requires Covered(s, k) ==> Covered(t, k)
    ensures NewlySkipped(s, t, n, k) <==>
              && k in KeysOf(Current(s)) && n <= s.work.next && Unseen(t, n, k) && !Covered(t, k) && !Ahead(t, s.work.next + 1, k)
  {
    hide KeysOf, Seen, Covered;
    AheadOfNext(s, k);
    assert Ahead(t, s.work.next + 1, k) <==> Ahead(s, s.work.next + 1, k);
    if n == s.work.next && k in KeysOf(Current(s)) {
      assert s.log[n] == Current(s);
    }
  }

  lemma {:induction false} AsideSkips(s: Mirror, e: Event, n: nat, k: Key)
    requires Good(s) && Enabled(s, e) && !e.DropsMove? && !e.JobLeaves? && (Aside(e) || e.HubGrows? || e.Restarts? || e.JobsRun?)
    ensures !NewlySkipped(s, Next(s, e), n, k) && !Loses(s, e, n, k)
  {
    hide KeysOf, Named, Holds, NewlySkipped, ListingTrue, Swept, NoneKnown, AskOk;
    NothingPassed(s, Next(s, e), n, k);
  }

  lemma {:induction false} DropsMoveSkips(s: Mirror, n: nat, k: Key)
    requires Good(s) && Enabled(s, DropsMove)
    ensures NewlySkipped(s, Next(s, DropsMove), n, k) <==> Loses(s, DropsMove, n, k)
  {
    hide KeysOf, Named, Holds, ListingTrue, Swept, NoneKnown, AskOk;
  }

  lemma {:induction false} JobLeavesSkips(s: Mirror, key: Key, n: nat, k: Key)
    requires Good(s) && Enabled(s, JobLeaves(key))
    ensures NewlySkipped(s, Next(s, JobLeaves(key)), n, k) <==> Loses(s, JobLeaves(key), n, k)
  {
    hide KeysOf, Named, Holds, ListingTrue, Swept, NoneKnown, AskOk;
  }

  lemma {:induction false} JobLooksSkips(s: Mirror, key: Key, at: nat, examines: bool, n: nat, k: Key)
    requires Good(s) && Enabled(s, JobLooks(key, at, examines))
    ensures !NewlySkipped(s, Next(s, JobLooks(key, at, examines)), n, k) && !Loses(s, JobLooks(key, at, examines), n, k)
  {
    hide KeysOf, Named, Holds, NewlySkipped, ListingTrue, Swept, NoneKnown, AskOk, Reconciled, Under;
    ReconciledLeaves(s, key, at, examines);
    NothingPassed(s, Next(s, JobLooks(key, at, examines)), n, k);
  }

  lemma {:induction false} QuietStepSkips(s: Mirror, e: Event, n: nat, k: Key)
    requires Good(s) && Enabled(s, e)
    requires e.ReadPage? || e.HubLooks? || e.Relist? || e.StartListing? || e.ListPage? || e.TakeRecheck? || e.EndRecheck?
    ensures !NewlySkipped(s, Next(s, e), n, k) && !Loses(s, e, n, k)
  {
    hide KeysOf, Named, Holds, NewlySkipped, ListingTrue, Swept, NoneKnown, AskOk;
    NothingPassed(s, Next(s, e), n, k);
  }

  lemma {:induction false} SkipUnknownSkips(s: Mirror, n: nat, k: Key)
    requires Good(s) && Enabled(s, SkipUnknown)
    ensures !NewlySkipped(s, Next(s, SkipUnknown), n, k) && !Loses(s, SkipUnknown, n, k)
  {
    hide Named, Holds, NewlySkipped, ListingTrue, Swept, NoneKnown, AskOk, Ahead, Unseen;
    OnePassed(s, Next(s, SkipUnknown), n, k);
  }

  lemma {:induction false} BeginSkips(s: Mirror, n: nat, k: Key)
    requires Good(s) && Enabled(s, Begin)
    ensures !NewlySkipped(s, Next(s, Begin), n, k) && !Loses(s, Begin, n, k)
  {
    hide Named, Holds, KeysOf, NewlySkipped, ListingTrue, Swept, NoneKnown, AskOk, Ahead, Unseen, Under;
    if MoveTouches(s, Current(s)) {
      OnePassed(s, Next(s, Begin), n, k);
    } else {
      NothingPassed(s, Next(s, Begin), n, k);
    }
  }

  lemma {:induction false} LandSkips(s: Mirror, n: nat, k: Key)
    requires Good(s) && Enabled(s, Land)
    ensures NewlySkipped(s, Next(s, Land), n, k) <==> Loses(s, Land, n, k)
  {
    hide Named, Holds, KeysOf, NewlySkipped, ListingTrue, Swept, NoneKnown, AskOk, Ahead, Under;
    var t := Next(s, Land);
    if s.epoch != s.work.ask.epoch || Moving(s, Current(s).key) {
      OnePassed(s, t, n, k);
      assert Ahead(t, s.work.next + 1, k) <==> Ahead(s, s.work.next + 1, k) by { SameAhead(s, t, s.work.next + 1, k); }
    } else {
      NothingPassed(s, t, n, k);
    }
  }

  lemma {:induction false} SameAhead(s: Mirror, t: Mirror, p: nat, k: Key)
    requires s.log == t.log
    ensures Ahead(s, p, k) <==> Ahead(t, p, k)
  {
    hide KeysOf;
  }

  lemma {:induction false} LandSourceSkips(s: Mirror, n: nat, k: Key)
    requires Good(s) && Enabled(s, LandSource)
    ensures NewlySkipped(s, Next(s, LandSource), n, k) <==> Loses(s, LandSource, n, k)
  {
    hide Named, Holds, KeysOf, NewlySkipped, ListingTrue, Swept, NoneKnown, AskOk, Ahead, Moving;
    var t := Next(s, LandSource);
    if s.epoch != s.work.ask.epoch {
      OnePassed(s, t, n, k);
      SameAhead(s, t, s.work.next + 1, k);
    } else {
      NothingPassed(s, t, n, k);
    }
  }

  lemma {:induction false} DecidesSourceSkips(s: Mirror, follows: bool, examines: bool, n: nat, k: Key)
    requires Good(s) && Enabled(s, DecidesSource(follows, examines))
    ensures !NewlySkipped(s, Next(s, DecidesSource(follows, examines)), n, k) && !Loses(s, DecidesSource(follows, examines), n, k)
  {
    hide Named, Holds, KeysOf, NewlySkipped, ListingTrue, Swept, NoneKnown, AskOk, Ahead, Moving, Reconciled, Raise;
    var from := Source(Current(s)).value;
    RaiseSees(s, {from}, s.work.ask.sourceAt);
    ReconciledLeaves(s, from, s.work.ask.sourceAt, examines);
    NothingPassed(s, Next(s, DecidesSource(follows, examines)), n, k);
  }

  lemma {:induction false} DecidesSkips(s: Mirror, examines: bool, n: nat, k: Key)
    requires Good(s) && Enabled(s, Decides(examines))
    ensures !NewlySkipped(s, Next(s, Decides(examines)), n, k) && !Loses(s, Decides(examines), n, k)
  {
    hide Named, Holds, NewlySkipped, ListingTrue, Swept, NoneKnown, Ahead, Moving, Reconciled;
    var t := Next(s, Decides(examines));
    if s.work.Page? {
      var key := Current(s).key;
      ReconciledLeaves(s, key, s.work.ask.at, examines);
      MovingIsQueued(s, key);
      OnePassed(s, t, n, k);
    } else {
      var key := s.work.asked.value;
      ReconciledLeaves(s, key, s.work.at.value, examines);
      MovingIsQueued(s, key);
      if k == key {
        RecheckedIsSeen(s, t, n, k);
      } else {
        NothingPassed(s, t, n, k);
      }
    }
  }

  /** A key that was asked about is seen as far as the cursor, or still covered. */
  lemma {:induction false} RecheckedIsSeen(s: Mirror, t: Mirror, n: nat, k: Key)
    requires Covered(t, k) || Seen(t, k, Front(t))
    ensures !NewlySkipped(s, t, n, k)
  {
    hide KeysOf, Covered, Ahead;
  }

  lemma {:induction false} TakeKeySkips(s: Mirror, key: Key, n: nat, k: Key)
    requires Good(s) && Enabled(s, TakeKey(key))
    ensures !NewlySkipped(s, Next(s, TakeKey(key)), n, k) && !Loses(s, TakeKey(key), n, k)
  {
    hide KeysOf, Named, Holds, NewlySkipped, ListingTrue, Swept, NoneKnown, AskOk, Under;
    NothingPassed(s, Next(s, TakeKey(key)), n, k);
  }

  lemma {:induction false} FailsSkips(s: Mirror, n: nat, k: Key)
    requires Good(s) && Enabled(s, Fails)
    ensures NewlySkipped(s, Next(s, Fails), n, k) <==> Loses(s, Fails, n, k)
  {
    hide KeysOf, Named, Holds, ListingTrue, Swept, NoneKnown, AskOk, Ahead;
    var t := Next(s, Fails);
    SameAhead(s, t, Front(s), k);
    if !s.work.Recheck? {
      NothingPassed(s, t, n, k);
    }
  }

  lemma {:induction false} EndPageSkips(s: Mirror, n: nat, k: Key)
    requires Good(s) && Enabled(s, EndPage)
    ensures NewlySkipped(s, Next(s, EndPage), n, k) <==> Loses(s, EndPage, n, k)
  {
    hide KeysOf, Named, Holds, ListingTrue, Swept, AskOk, Seen, NoneKnown, ListingDue, Excluded;
    var t := Next(s, EndPage);
    assert ListingDue(t) == ListingDue(s) && Excluded(t, k) == Excluded(s, k) by { SameRules(s, t, k); }
    assert Seen(t, k, n + 1) == Seen(s, k, n + 1) by { SameMarks(s, t, k, n + 1); }
    if n < |s.log| && s.work.end <= n && k in KeysOf(s.log[n]) {
      assert Ahead(s, s.work.end, k);
    }
  }

  lemma {:induction false} SameRules(s: Mirror, t: Mirror, k: Key)
    requires t == s.(work := t.work, cursor := t.cursor)
    ensures ListingDue(t) == ListingDue(s) && Excluded(t, k) == Excluded(s, k)
  {
  }

  lemma {:induction false} SameMarks(s: Mirror, t: Mirror, k: Key, n: nat)
    requires t.seen == s.seen
    ensures Seen(t, k, n) == Seen(s, k, n)
  {
  }

  lemma {:induction false} EndPagesSkips(s: Mirror, n: nat, k: Key)
    requires Good(s) && Enabled(s, EndPages)
    ensures !NewlySkipped(s, Next(s, EndPages), n, k) && !Loses(s, EndPages, n, k)
  {
    hide KeysOf, Named, Holds, NewlySkipped, ListingTrue, Swept, NoneKnown, AskOk, Raise, Omitted;
    RaiseSees(s, Omitted(s), s.work.head);
    NothingPassed(s, Next(s, EndPages), n, k);
  }

  lemma {:induction false} SweepKeySkips(s: Mirror, key: Key, examines: bool, n: nat, k: Key)
    requires Good(s) && Enabled(s, SweepKey(key, examines))
    ensures !NewlySkipped(s, Next(s, SweepKey(key, examines)), n, k) && !Loses(s, SweepKey(key, examines), n, k)
  {
    hide KeysOf, Named, Holds, NewlySkipped, ListingTrue, Swept, NoneKnown, AskOk, Reconciled, Under;
    ReconciledLeaves(s, key, s.work.head, examines);
    NothingPassed(s, Next(s, SweepKey(key, examines)), n, k);
  }

  /** What was not passed over has been seen as of the listing's head, or will be. */
  lemma {:induction false} SweptIsSeen(s: Mirror, n: nat, k: Key)
    requires Good(s) && s.work.Sweep? && s.work.left == {} && n < s.work.head && Unseen(s, n, k)
    ensures k in s.work.passed || Excluded(s, k) || k in s.recheck || s.moves != {} || s.epoch != s.work.start
  {
    hide KeysOf, Holds;
    assert Swept(s, k);
  }

  lemma {:induction false} EndListingSkips(s: Mirror, full: bool, n: nat, k: Key)
    requires Good(s) && Enabled(s, EndListing(full))
    ensures NewlySkipped(s, Next(s, EndListing(full)), n, k) <==> Loses(s, EndListing(full), n, k)
  {
    hide KeysOf, Named, Holds, ListingTrue, Swept, NoneKnown, AskOk, Ahead, Seen, Skipped;
    var t := Next(s, EndListing(full));
    SameAhead(s, t, s.work.head, k);
    SameMarks(s, t, k, n + 1);
    if n < s.work.head && Unseen(s, n, k) {
      SweptIsSeen(s, n, k);
    }
    assert Skipped(t, n, k) <==> n < s.work.head && Unseen(s, n, k) && !Covered(t, k) && !Ahead(t, s.work.head, k) by {
      SkippedAtHead(t, n, k, s.work.head);
    }
  }

  lemma {:induction false} SkippedAtHead(t: Mirror, n: nat, k: Key, head: nat)
    requires Front(t) == head
    ensures Skipped(t, n, k) <==> n < head && Unseen(t, n, k) && !Covered(t, k) && !Ahead(t, head, k)
  {
    hide KeysOf, Seen, Covered, Ahead;
  }

  /** A change of a key becomes skipped in exactly these steps. */
  lemma {:induction false} StepSkips(s: Mirror, e: Event, n: nat, k: Key)
    requires Good(s) && Enabled(s, e)
    ensures Skipped(Next(s, e), n, k) && !Skipped(s, n, k) <==> Loses(s, e, n, k)
  {
    hide Good, Enabled, Next, Loses, Skipped;
    match e {
      case DropsMove => DropsMoveSkips(s, n, k);
      case JobLeaves(key) => JobLeavesSkips(s, key, n, k);
      case JobLooks(key, at, examines) => JobLooksSkips(s, key, at, examines, n, k);
      case SkipUnknown => SkipUnknownSkips(s, n, k);
      case Begin => BeginSkips(s, n, k);
      case Land => LandSkips(s, n, k);
      case LandSource => LandSourceSkips(s, n, k);
      case DecidesSource(follows, examines) => DecidesSourceSkips(s, follows, examines, n, k);
      case Decides(examines) => DecidesSkips(s, examines, n, k);
      case EndPage => EndPageSkips(s, n, k);
      case TakeKey(key) => TakeKeySkips(s, key, n, k);
      case EndPages => EndPagesSkips(s, n, k);
      case SweepKey(key, examines) => SweepKeySkips(s, key, examines, n, k);
      case EndListing(full) => EndListingSkips(s, full, n, k);
      case Fails => FailsSkips(s, n, k);
      case ReadPage => QuietStepSkips(s, e, n, k);
      case HubLooks => QuietStepSkips(s, e, n, k);
      case Relist => QuietStepSkips(s, e, n, k);
      case StartListing => QuietStepSkips(s, e, n, k);
      case ListPage(_) => QuietStepSkips(s, e, n, k);
      case TakeRecheck => QuietStepSkips(s, e, n, k);
      case EndRecheck => QuietStepSkips(s, e, n, k);
      case _ => AsideSkips(s, e, n, k);
    }
  }

  /** A listing makes good whatever had been skipped before its head, but for the keys it passed
      over. */
  lemma {:induction false} ListingHeals(s: Mirror, full: bool, n: nat, k: Key)
    requires Good(s) && Enabled(s, EndListing(full)) && Skipped(Next(s, EndListing(full)), n, k)
    ensures k in s.work.passed && s.epoch == s.work.start && !Ahead(s, s.work.head, k)
  {
    hide KeysOf, Named, Holds, ListingTrue, Swept, NoneKnown, AskOk, Ahead, Seen;
    var t := Next(s, EndListing(full));
    SameAhead(s, t, s.work.head, k);
    SameMarks(s, t, k, n + 1);
    SweptIsSeen(s, n, k);
  }
}
