/** The hub's change feed and the cursor into it: `catch_up`, `apply_change`, `recheck_deferred` and
    `rebuild_from_listing` of `src/mirror/sync.rs`, split where the program waits for the hub or
    holds no lock, with everybody else's steps in between. */
module Feed {
  import opened Options
  import opened Keys

  // ── the hub's log ─────────────────────────────────────────────────────────

  datatype Op = Put | Delete | Rename | Unknown

  /** One entry of the hub's log; the entry at index `n` has sequence number `n + 1`. */
  datatype Change = Change(op: Op, key: Key, from: Option<Key>)

  const CHANGES_PAGE: nat := 1000

  /** The old name, when there is one to look at. */
  function Source(c: Change): Option<Key> {
    if c.op.Rename? then c.from else None
  }

  /** The keys a change is about; an operation this version does not know says nothing. */
  function KeysOf(c: Change): set<Key> {
    if c.op.Unknown? then {} else {c.key} + if Source(c).Some? then {Source(c).value} else {}
  }

  /** Whether the hub has the key after the first `n` entries. */
  predicate Holds(log: seq<Change>, n: nat, k: Key)
    requires n <= |log|
  {
    if n == 0 then false
    else
      var c := log[n - 1];
      if c.op.Put? && c.key == k then true
      else if c.op.Delete? && c.key == k then false
      else if c.op.Rename? && c.key == k then true
      else if Source(c) == Some(k) then false
      else Holds(log, n - 1, k)
  }

  /** The keys the first `n` entries name. */
  function Named(log: seq<Change>, n: nat): (r: set<Key>)
    requires n <= |log|
    ensures forall i, k :: 0 <= i < n && k in KeysOf(log[i]) ==> k in r
  {
    if n == 0 then {} else Named(log, n - 1) + KeysOf(log[n - 1])
  }

  // ── the state ─────────────────────────────────────────────────────────────

  /** Where `apply_change` is with the change it has in hand. An answer carries the length the log
      had when the hub looked. */
  datatype Ask =
    | Quiet
    | Asked(epoch: nat)
    | Answered(epoch: nat, at: nat)
    | SourceAsked(epoch: nat, at: nat)
    | SourceAnswered(epoch: nat, at: nat, sourceAt: nat)
    | SourceDeciding(at: nat, sourceAt: nat)
    | Deciding(at: nat)

  datatype Work =
    | Idle
    /** a page that was read at `since` when the log was `head` long; `next` is the change to do,
        `last` the one after the last known change done */
    | Page(since: nat, end: nat, head: nat, next: nat, last: Option<nat>, ask: Ask)
    /** what was taken out of the recheck set, and the key that is asked about */
    | Recheck(left: set<Key>, asked: Option<Key>, at: Option<nat>)
    /** a listing whose first page has been asked for */
    | Starting(start: nat)
    /** the pages of a listing; `listed` is what they name of the key range `covered` so far */
    | Listing(start: nat, head: nat, covered: iset<Key>, listed: set<Key>, touched: set<Key>)
    /** the keys still to be looked at, those jobs have touched, and those passed over for it */
    | Sweep(start: nat, head: nat, left: set<Key>, touched: set<Key>, passed: set<Key>)

  datatype Mirror = Mirror(
    ignored: Key -> bool,
    log: seq<Change>, cursor: Option<nat>, recheck: set<Key>,
    /** ends of the directory moves queued, and of one whose system call is under way */
    moves: set<Key>, trial: set<Key>,
    /** `directory-refresh`; a full pass is due for its own reasons */
    refresh: bool, due: bool,
    epoch: nat, open: set<Key>, renaming: set<Key>,
    /** the keys with an entry or a base, and those of the jobs in the queue */
    rows: set<Key>, queued: set<Key>,
    work: Work,
    /** for each key, the length of the log at the newest answer it was decided against */
    seen: map<Key, nat>)

  function Position(s: Mirror): nat { if s.cursor.Some? then s.cursor.value else 0 }

  /** How far the reader has come. */
  function Front(s: Mirror): nat { if s.work.Page? then s.work.next else Position(s) }

  predicate Moving(s: Mirror, k: Key) {
    exists d <- s.moves + s.trial :: Under(k, d)
  }

  /** A full listing will come. */
  predicate ListingDue(s: Mirror) { s.moves != {} || s.trial != {} || s.refresh || s.due }

  predicate Excluded(s: Mirror, k: Key) { k == "" || s.ignored(k) }

  predicate Waiting(s: Mirror, k: Key) {
    k in s.recheck || (s.work.Recheck? && k in s.work.left)
  }

  // ── steps ─────────────────────────────────────────────────────────────────

  datatype Event =
    // other devices; the user and other programs; jobs and pulls elsewhere
    | HubGrows(more: seq<Change>)
    | Renames
    | TriesMove(ends: set<Key>)
    | KeepsMove
    | DropsMove
    | Opens(files: set<Key>, queued: set<Key>)
    | RowsChange(keys: set<Key>)
    | Defers(keys: set<Key>)
    | Queues(keys: set<Key>)
    | JobLeaves(key: Key)
    | Restarts
    // the sync thread
    | JobsRun(paths: set<Key>, done: set<Key>)
    | JobLooks(key: Key, at: nat, examines: bool)
    | ReadPage
    | SkipUnknown
    | Relist
    | Begin
    | HubLooks
    | Land
    | LandSource
    | DecidesSource(follows: bool, examines: bool)
    | Decides(examines: bool)
    | EndPage
    | TakeRecheck
    | TakeKey(key: Key)
    | EndRecheck
    | StartListing
    | ListPage(range: iset<Key>)
    | EndPages
    | SweepKey(key: Key, examines: bool)
    | EndListing(full: bool)
    | Fails

  function Raise(m: map<Key, nat>, ks: set<Key>, n: nat): map<Key, nat> {
    map k | k in m.Keys + ks :: if k !in ks then m[k] else if k in m && m[k] > n then m[k] else n
  }

  predicate Seen(s: Mirror, k: Key, n: nat) { k in s.seen && n <= s.seen[k] }

  /** `reconcile_key` with an answer as of `at`. What it finds open, or what the user overtakes
      while it downloads, is put aside. */
  function Reconciled(s: Mirror, k: Key, at: nat, examines: bool): Mirror {
    if Excluded(s, k) || Moving(s, k) then s
    else if k in s.open || k in s.renaming || !examines then s.(recheck := s.recheck + {k})
    else s.(seen := Raise(s.seen, {k}, at))
  }

  predicate OnPage(s: Mirror) { s.work.Page? && s.work.next < s.work.end <= |s.log| }

  function Current(s: Mirror): Change
    requires OnPage(s)
  {
    s.log[s.work.next]
  }

  predicate MoveTouches(s: Mirror, c: Change) {
    Moving(s, c.key) || (Source(c).Some? && Moving(s, Source(c).value))
  }

  /** The change in hand needs nothing more. */
  function Advanced(s: Mirror): Mirror
    requires s.work.Page?
  {
    s.(work := s.work.(next := s.work.next + 1, last := Some(s.work.next + 1), ask := Quiet))
  }

  function Asking(s: Mirror, ask: Ask): Mirror
    requires s.work.Page?
  {
    s.(work := s.work.(ask := ask))
  }

  predicate HubMayLook(w: Work) {
    || (w.Page? && (w.ask.Asked? || w.ask.SourceAsked?))
    || (w.Recheck? && w.asked.Some? && w.at.None?)
  }

  predicate EngineMayDrain(w: Work) {
    w.Idle? || (w.Page? && w.ask.Quiet?) || w.Listing? || w.Sweep?
  }

  /** Which steps are possible. Deciding needs the namespace lock, which a move under way holds. */
  ghost predicate Enabled(s: Mirror, e: Event) {
    match e
    case TriesMove(ends) => s.trial == {} && ends != {}
    case KeepsMove => s.trial != {}
    case DropsMove => s.trial != {}
    case JobLeaves(key) => key in s.queued
    case JobsRun(_, done) => EngineMayDrain(s.work) && done <= s.moves
    case JobLooks(key, at, _) => EngineMayDrain(s.work) && key in s.queued && at <= |s.log| && s.trial == {}
    case ReadPage => s.work.Idle?
    case SkipUnknown => OnPage(s) && s.work.ask.Quiet? && Current(s).op.Unknown?
    case Relist => OnPage(s) && s.work.ask.Quiet? && !Current(s).op.Unknown? && s.refresh
    case Begin => OnPage(s) && s.work.ask.Quiet? && !Current(s).op.Unknown? && !s.refresh
    case HubLooks => HubMayLook(s.work)
    case Land => OnPage(s) && s.work.ask.Answered?
    case LandSource => OnPage(s) && s.work.ask.SourceAnswered?
    case DecidesSource(_, _) => OnPage(s) && s.work.ask.SourceDeciding? && Source(Current(s)).Some? && s.trial == {}
    case Decides(_) =>
      && s.trial == {}
      && ((OnPage(s) && s.work.ask.Deciding?) || (s.work.Recheck? && s.work.asked.Some? && s.work.at.Some?))
    case EndPage => s.work.Page? && s.work.next == s.work.end && s.work.ask.Quiet?
    case TakeRecheck => s.work.Idle?
    case TakeKey(key) => s.work.Recheck? && s.work.asked.None? && key in s.work.left
    case EndRecheck => s.work.Recheck? && s.work.left == {}
    case StartListing => s.work.Idle?
    case ListPage(_) => s.work.Starting? || s.work.Listing?
    case EndPages => s.work.Listing? && forall k :: k in s.work.covered
    case SweepKey(key, _) => s.work.Sweep? && key in s.work.left && s.trial == {}
    case EndListing(_) => s.work.Sweep? && s.work.left == {}
    case Fails => !s.work.Idle?
    case _ => true
  }

  function ReadAt(s: Mirror): Work {
    var since, head := Position(s), |s.log|;
    Page(since, if head <= since + CHANGES_PAGE then head else since + CHANGES_PAGE, head, since, None, Quiet)
  }

  /** A listing remembers what jobs have touched since it began. */
  function Touching(w: Work, paths: set<Key>): Work {
    match w
    case Listing(start, head, covered, listed, touched) => Listing(start, head, covered, listed, touched + paths)
    case Sweep(start, head, left, touched, passed) => Sweep(start, head, left, touched + paths, passed)
    case other => other
  }

  /** A directory move that is done makes a full listing due. */
  function AfterJobs(s: Mirror, paths: set<Key>, done: set<Key>): Mirror {
    var t := s.(work := Touching(s.work, paths));
    if done == {} then t else t.(moves := s.moves - done, epoch := s.epoch + 1, refresh := true)
  }

  /** The request is sent, unless a directory move of either name is pending: its completion lists
      everything. */
  function Begun(s: Mirror): Mirror
    requires OnPage(s)
  {
    if MoveTouches(s, Current(s)) then Advanced(s) else Asking(s, Asked(s.epoch))
  }

  /** The answer, as of when the log was `at` long. */
  function Looked(w: Work, at: nat): Work {
    match w
    case Recheck(left, asked, None) => Recheck(left, asked, Some(at))
    case Page(since, end, head, next, last, Asked(epoch)) => Page(since, end, head, next, last, Answered(epoch, at))
    case Page(since, end, head, next, last, SourceAsked(epoch, before)) =>
      Page(since, end, head, next, last, SourceAnswered(epoch, before, at))
    case other => other
  }

  /** A rename, of whatever, or a pending move has overtaken the request: nothing is done. */
  function AnswerLanded(s: Mirror): Mirror
    requires OnPage(s) && s.work.ask.Answered?
  {
    var ask := s.work.ask;
    if s.epoch != ask.epoch || Moving(s, Current(s).key) then Advanced(s)
    else if Source(Current(s)).Some? then Asking(s, SourceAsked(ask.epoch, ask.at))
    else Asking(s, Deciding(ask.at))
  }

  function SourceLanded(s: Mirror): Mirror
    requires OnPage(s) && s.work.ask.SourceAnswered?
  {
    var ask := s.work.ask;
    if s.epoch != ask.epoch then Advanced(s) else Asking(s, SourceDeciding(ask.at, ask.sourceAt))
  }

  /** The old name: the file follows the rename (`apply_remote_rename`), or is decided on its own. */
  function SourceDecided(s: Mirror, follows: bool, examines: bool): Mirror
    requires OnPage(s) && s.work.ask.SourceDeciding? && Source(Current(s)).Some?
  {
    var ask, from := s.work.ask, Source(Current(s)).value;
    if !follows then Asking(Reconciled(s, from, ask.sourceAt, examines), Deciding(ask.at))
    else if Moving(s, from) || Moving(s, Current(s).key) then Asking(s, Deciding(ask.at))
    else Asking(s.(seen := Raise(s.seen, {from}, ask.sourceAt)), Deciding(ask.at))
  }

  function Decided(s: Mirror, examines: bool): Mirror
    requires (OnPage(s) && s.work.ask.Deciding?) || (s.work.Recheck? && s.work.asked.Some? && s.work.at.Some?)
  {
    if s.work.Page? then Advanced(Reconciled(s, Current(s).key, s.work.ask.at, examines))
    else
      var key := s.work.asked.value;
      Reconciled(s, key, s.work.at.value, examines).(work := Recheck(s.work.left - {key}, None, None))
  }

  /** The page is done. One without a known change sends the cursor to the head of the log. */
  function PageEnded(s: Mirror): Mirror
    requires s.work.Page?
  {
    var w := s.work;
    s.(work := Idle,
       cursor := Some(if w.last.Some? then w.last.value else if w.head > w.since then w.head else w.since))
  }

  function KeyTaken(s: Mirror, key: Key): Mirror
    requires s.work.Recheck?
  {
    if Moving(s, key) then s.(work := Recheck(s.work.left - {key}, None, None))
    else if key in s.open then s.(recheck := s.recheck + {key}, work := Recheck(s.work.left - {key}, None, None))
    else s.(work := Recheck(s.work.left, Some(key), None))
  }

  /** What the hub has of a range of keys, now. */
  function HeldIn(log: seq<Change>, range: iset<Key>): set<Key> {
    set k | k in Named(log, |log|) && k in range && Holds(log, |log|, k)
  }

  /** One page of the listing, of the keys not listed yet. The first tells the head of the log. */
  function PageListed(s: Mirror, range: iset<Key>): Mirror
    requires s.work.Starting? || s.work.Listing?
  {
    match s.work
    case Starting(start) => s.(work := Listing(start, |s.log|, range, HeldIn(s.log, range), {}))
    case Listing(start, head, covered, listed, touched) =>
      s.(work := Listing(start, head, covered + range, listed + HeldIn(s.log, range - covered), touched))
  }

  /** The keys of the listing's time that neither the listing nor the ledger has: every side is
      empty, and that is decided. */
  function Omitted(s: Mirror): set<Key>
    requires s.work.Listing? && s.work.head <= |s.log|
  {
    set k | k in Named(s.log, s.work.head) && k !in s.work.listed && k !in s.rows
  }

  function PagesEnded(s: Mirror): Mirror
    requires s.work.Listing?
  {
    var w := s.work;
    s.(work := Sweep(w.start, w.head, w.listed + s.rows, w.touched, {}),
       seen := if w.head <= |s.log| then Raise(s.seen, Omitted(s), w.head) else s.seen)
  }

  /** A key on the path of a job that ran since is passed over: the job's echo will bring it up. */
  function KeySwept(s: Mirror, key: Key, examines: bool): Mirror
    requires s.work.Sweep?
  {
    var w := s.work;
    if exists path <- w.touched :: Under(key, path)
    then s.(work := Sweep(w.start, w.head, w.left - {key}, w.touched, w.passed + {key}))
    else Reconciled(s, key, w.head, examines).(work := Sweep(w.start, w.head, w.left - {key}, w.touched, w.passed))
  }

  function ListingEnded(s: Mirror, full: bool): Mirror
    requires s.work.Sweep?
  {
    s.(work := Idle, cursor := Some(s.work.head), refresh := s.epoch != s.work.start, due := s.due && !full)
  }

  ghost function Next(s: Mirror, e: Event): Mirror
    requires Enabled(s, e)
  {
    match e
    case HubGrows(more) => s.(log := s.log + more)
    case Renames => s.(epoch := s.epoch + 1)
    case TriesMove(ends) => s.(trial := ends)
    case KeepsMove => s.(moves := s.moves + s.trial, trial := {})
    case DropsMove => s.(trial := {})
    case Opens(files, queued) => s.(open := files, renaming := queued)
    case RowsChange(keys) => s.(rows := keys)
    case Defers(keys) => s.(recheck := s.recheck + keys)
    case Queues(keys) => s.(queued := s.queued + keys)
    case JobLeaves(key) => s.(queued := s.queued - {key})
    case Restarts => s.(work := Idle, recheck := {}, due := true)
    case JobsRun(paths, done) => AfterJobs(s, paths, done)
    case JobLooks(key, at, examines) => Reconciled(s, key, at, examines)
    case ReadPage => s.(work := ReadAt(s))
    case SkipUnknown => s.(work := s.work.(next := s.work.next + 1))
    case Relist => s.(work := Starting(s.epoch))
    case Begin => Begun(s)
    case HubLooks => s.(work := Looked(s.work, |s.log|))
    case Land => AnswerLanded(s)
    case LandSource => SourceLanded(s)
    case DecidesSource(follows, examines) => SourceDecided(s, follows, examines)
    case Decides(examines) => Decided(s, examines)
    case EndPage => PageEnded(s)
    case TakeRecheck => s.(work := Recheck(s.recheck, None, None), recheck := {})
    case TakeKey(key) => KeyTaken(s, key)
    case EndRecheck => s.(work := Idle)
    case StartListing => s.(work := Starting(s.epoch))
    case ListPage(range) => PageListed(s, range)
    case EndPages => PagesEnded(s)
    case SweepKey(key, examines) => KeySwept(s, key, examines)
    case EndListing(full) => ListingEnded(s, full)
    case Fails => s.(work := Idle)
  }

  // ── being skipped ─────────────────────────────────────────────────────────

  /** The log brings the key up again at or after `p`. */
  predicate Ahead(s: Mirror, p: nat, k: Key) {
    exists m :: p <= m < |s.log| && k in KeysOf(s.log[m])
  }

  /** Change `n` is about the key, and no decision about the key was made with an answer that
      reflects it. */
  predicate Unseen(s: Mirror, n: nat, k: Key) {
    n < |s.log| && k in KeysOf(s.log[n]) && !Seen(s, k, n + 1)
  }

  /** Something else will see to the key, or it is none of the mirror's business. A job of the key
      is tried again until it goes through, and its echo brings the key up, or the hub answers with
      what it has. */
  predicate Covered(s: Mirror, k: Key) {
    Excluded(s, k) || Waiting(s, k) || ListingDue(s) || k in s.queued
  }

  /** Change `n` of the key has been passed, nobody has looked, and nothing will make anybody look. */
  predicate Skipped(s: Mirror, n: nat, k: Key) {
    n < Front(s) && Unseen(s, n, k) && !Covered(s, k) && !Ahead(s, Front(s), k)
  }

  /** A request of the change in hand comes back after the epoch has moved on. */
  predicate Overtaken(s: Mirror, e: Event) {
    && OnPage(s)
    && ((e.Land? && s.work.ask.Answered? && s.epoch != s.work.ask.epoch)
        || (e.LandSource? && s.work.ask.SourceAnswered? && s.epoch != s.work.ask.epoch))
  }

  /** A page of operations this version does not know, with more behind it. */
  predicate Unintelligible(s: Mirror, e: Event) {
    e.EndPage? && s.work.Page? && s.work.last.None? && s.work.end < s.work.head
  }

  /** The steps that skip change `n` of `k`, told from the state they are taken in:
      an answer overtaken by a rename, a jump over what a page did not show, a failure while the
      recheck set is being worked through, the withdrawal of a directory move, the end of a listing
      that passed the key over, and the loss of a job that was the last to look. */
  predicate Loses(s: Mirror, e: Event, n: nat, k: Key) {
    && Unseen(s, n, k) && !Excluded(s, k) && k !in s.recheck && (k in s.queued ==> e == JobLeaves(k))
    && match e
       case JobLeaves(key) =>
         k == key && k in s.queued && !Waiting(s, k) && !ListingDue(s) && n < Front(s) && !Ahead(s, Front(s), k)
       case Land => Overtaken(s, e) && n <= s.work.next && k in KeysOf(Current(s)) && !ListingDue(s) && !Ahead(s, s.work.next + 1, k)
       case LandSource => Overtaken(s, e) && n <= s.work.next && k in KeysOf(Current(s)) && !ListingDue(s) && !Ahead(s, s.work.next + 1, k)
       case EndPage => Unintelligible(s, e) && n < s.work.head && !ListingDue(s) && Ahead(s, s.work.end, k) && !Ahead(s, s.work.head, k)
       case Fails => s.work.Recheck? && k in s.work.left && n < Front(s) && !ListingDue(s) && !Ahead(s, Front(s), k)
       case DropsMove =>
         s.trial != {} && s.moves == {} && !s.refresh && !s.due && !Waiting(s, k) && n < Front(s) && !Ahead(s, Front(s), k)
       case EndListing(full) =>
         && s.work.Sweep? && k in s.work.passed && n < s.work.head && !Ahead(s, s.work.head, k)
         && s.moves == {} && s.trial == {} && s.epoch == s.work.start && (full || !s.due) && !Skipped(s, n, k)
       case _ => false
  }
}
