/** Runs: the engine's steps interleaved with local edits, other programs, other devices and
    the hub's answers, in any order. */
module SyncRuns {
  import opened Options
  import opened Keys
  import opened Reconcile
  import opened Jobs
  import opened Tables
  import opened Replicas
  import opened SyncSteps
  import opened SyncInvariant
  import opened SyncSafety
  import opened SyncLandings

  /** One mirror and the hub. Conflict copies are kept beside the hub's keys. */
  datatype System = System(mirror: Replica, hub: map<Key, Digest>, copies: set<Digest>)

  datatype Step =
    // the user, through the mount
    | Write(key: Key, sha: Digest)
    | OpenForWrite(key: Key, create: bool, truncate: bool)
    | WriteThrough(key: Key, sha: Digest)
    | Flush(key: Key)
    | Close(key: Key)
    | Remove(key: Key)
    | Move(from: Key, to: Key)
    // another program, in the folder; another device, on the hub
    | ChangeFolder(key: Key, bytes: Option<Digest>)
    | ChangeHub(key: Key, bytes: Option<Digest>)
    // the network
    | HubAnswers
    | NetworkFails
    // the engine
    | Scan(key: Key, priority: Priority)
    | RecoverJob(key: Key)
    | ReconcileKey(key: Key, remote: Option<Digest>)
    | SendPull
    | LandPull(got: Option<Digest>)
    | KeepConflict
    | StartJob(job: Job, copy: Key)
    | Land
    | TargetIs(remote: Option<Digest>)
    | NowIs(remote: Option<Digest>)
    | FollowRename(from: Key, to: Key)
    | Expire(keys: set<Key>, snapshots: set<Digest>)
    // a crash or an orderly end, and the next start
    | Restart

  predicate Present(bytes: Option<Digest>) { bytes.Some? ==> bytes.value != "" }

  predicate Ready(d: Replica) { d.flight.Idle? && d.running.None? }

  /** A request the hub has to answer. */
  predicate Asking(f: Flight) { f.Pushing? || f.Deleting? || f.Renaming? || f.SendingCopy? }

  /** No conflict record needs these snapshots. */
  predicate Unreferenced(conflicts: map<Key, ConflictRecord>, snapshots: set<Digest>) {
    forall k <- conflicts :: conflicts[k].localSha !in snapshots
  }

  predicate Enabled(s: System, st: Step) {
    var d := s.mirror;
    match st
    case Write(_, sha) => sha != ""
    case WriteThrough(_, sha) => sha != ""
    case ChangeFolder(_, bytes) => Present(bytes)
    case ChangeHub(_, bytes) => Present(bytes)
    case HubAnswers => Asking(d.flight) && d.flight.reply.Waiting?
    case Scan(_, _) => Ready(d)
    case RecoverJob(_) => Ready(d)
    case ReconcileKey(_, remote) => Ready(d) && Present(remote)
    case SendPull => d.flight.PullChosen?
    case LandPull(got) => d.flight.Pulling? && Present(got)
    case KeepConflict => d.flight.ConflictChosen?
    case StartJob(job, _) => Ready(d) && job in d.rows.jobs
    case Land => Asking(d.flight)
    case TargetIs(remote) => d.flight.TargetAsked? && Present(remote)
    case NowIs(remote) => d.flight.CopySent? && Present(remote)
    case FollowRename(_, _) => Ready(d)
    case Expire(_, snapshots) => Ready(d) && !d.cfg.protected && Unreferenced(d.conflicts, snapshots)
    case _ => true
  }

  /** The hub's conditional writes (sections 13.1.1 and 13.1.2 of RFC 9110): its answer, and its
      objects afterwards. */
  function Verdict(hub: map<Key, Digest>, f: Flight): Reply
    requires Asking(f)
  {
    match f
    case Pushing(key, _, base, _) => if Lookup(hub, key) == base then Accepted else Refused(Lookup(hub, key))
    case Deleting(key, sha, _, _) =>
      if key !in hub then Missing else if hub[key] == sha then Accepted else Refused(Some(hub[key]))
    case Renaming(from, to, base, _) =>
      if from !in hub then Missing
      else if base.Some? && hub[from] != base.value then Refused(Some(hub[from]))
      else if to in hub then TargetTaken
      else Accepted
    case SendingCopy(_, _, _, _, _) => Accepted
  }

  function Objects(hub: map<Key, Digest>, f: Flight): map<Key, Digest>
    requires Asking(f)
  {
    if !Verdict(hub, f).Accepted? then hub
    else
      match f
      case Pushing(key, sha, _, _) => hub[key := sha]
      case Deleting(key, _, _, _) => hub - {key}
      case Renaming(from, to, _, _) => (hub - {from})[to := hub[from]]
      case SendingCopy(_, _, _, _, _) => hub
  }

  function Replied(f: Flight, r: Reply): Flight
    requires Asking(f)
  {
    match f
    case Pushing(key, sha, base, _) => Pushing(key, sha, base, r)
    case Deleting(key, sha, fixed, _) => Deleting(key, sha, fixed, r)
    case Renaming(from, to, base, _) => Renaming(from, to, base, r)
    case SendingCopy(key, sha, copy, record, _) => SendingCopy(key, sha, copy, record, r)
  }

  function Answer(s: System): System
    requires Asking(s.mirror.flight)
  {
    var f := s.mirror.flight;
    System(s.mirror.(flight := Replied(f, Verdict(s.hub, f))), Objects(s.hub, f),
           if f.SendingCopy? then s.copies + {f.sha} else s.copies)
  }

  function Landing(d: Replica): Replica
    requires Asking(d.flight)
  {
    match d.flight
    case Pushing(_, _, _, _) => LandPush(d)
    case Deleting(_, _, _, _) => LandDelete(d)
    case Renaming(_, _, _, _) => LandRename(d)
    case SendingCopy(_, _, _, _, _) => LandCopy(d)
  }

  predicate LocalStep(st: Step) {
    || st.Write? || st.OpenForWrite? || st.WriteThrough? || st.Flush? || st.Close?
    || st.Remove? || st.Move? || st.ChangeFolder?
  }

  predicate EngineStep(st: Step) { !LocalStep(st) && !st.ChangeHub? && !st.HubAnswers? }

  function Locally(d: Replica, st: Step): Replica
    requires LocalStep(st)
  {
    match st
    case Write(key, sha) => CommitWrite(d, key, sha)
    case OpenForWrite(key, create, truncate) => OpenWrite(d, key, create, truncate)
    case WriteThrough(key, sha) => HandleWrite(d, key, sha)
    case Flush(key) => CommitHandle(d, key)
    case Close(key) => CloseWrite(d, key)
    case Remove(key) => Deleted(d, key)
    case Move(from, to) => RenameLocal(d, from, to)
    case ChangeFolder(key, bytes) => External(d, key, bytes)
  }

  function ByEngine(s: System, st: Step): Replica
    requires EngineStep(st) && Enabled(s, st)
  {
    var d := s.mirror;
    match st
    case NetworkFails => Failed(d)
    case Scan(key, priority) => Scanned(d, key, priority)
    case RecoverJob(key) => Recovered(d, key)
    case ReconcileKey(key, remote) => Decided(d, key, remote)
    case SendPull => PullBegin(d)
    case LandPull(got) => PullLand(d, got)
    case KeepConflict => RecordConflict(d)
    case StartJob(job, copy) => RunJob(d, job, copy)
    case Land => Landing(d)
    case TargetIs(remote) => TargetAnswered(d, remote)
    case NowIs(remote) => CopyAnswered(d, remote)
    case FollowRename(from, to) => ApplyRemoteRename(d, from, to)
    case Expire(keys, snapshots) => Expired(d, keys, snapshots)
    case Restart => Restarted(d)
  }

  function Next(s: System, st: Step): System
    requires Enabled(s, st)
  {
    if LocalStep(st) then s.(mirror := Locally(s.mirror, st))
    else if st.ChangeHub? then s.(hub := if st.bytes.Some? then s.hub[st.key := st.bytes.value] else s.hub - {st.key})
    else if st.HubAnswers? then Answer(s)
    else s.(mirror := ByEngine(s, st))
  }

  // ── the invariant over a step ─────────────────────────────────────────────

  ghost predicate SystemInv(s: System) {
    Inv(s.mirror) && forall k <- s.hub :: s.hub[k] != ""
  }

  /** The step lets a tombstone put a digest nobody has seen into the base ledger. */
  predicate AdoptsUnseenAt(s: System, st: Step) {
    var d := s.mirror;
    match st
    case ReconcileKey(key, remote) => AdoptsUnseen(d, key, remote)
    case TargetIs(remote) =>
      && d.flight.TargetAsked? && ResultKey(d.rows.jobs, d.flight.to) == d.flight.to
      && AdoptsUnseen(d.(bases := d.bases - {d.flight.localTo}), d.flight.to, remote)
    case Land =>
      (match d.flight
       case Pushing(key, _, _, reply) => ResultKey(d.rows.jobs, key) == key && RefusalAdoptsUnseen(d, key, reply)
       case Deleting(key, _, fixed, reply) => !fixed && ResultKey(d.rows.jobs, key) == key && RefusalAdoptsUnseen(d, key, reply)
       case Renaming(from, to, _, reply) => RefusalAdoptsUnseen(PushMoved(d, ResultKey(d.rows.jobs, to)), from, reply)
       case _ => false)
    case _ => false
  }

  lemma {:induction false} LocallyInv(d: Replica, st: Step)
    requires Inv(d) && LocalStep(st)
    requires (st.Write? || st.WriteThrough? ==> st.sha != "") && (st.ChangeFolder? ==> Present(st.bytes))
    ensures Inv(Locally(d, st))
  {
    hide Inv, CommitWrite, OpenWrite, HandleWrite, CommitHandle, CloseWrite, Deleted, RenameLocal, External;
    match st {
      case Write(key, sha) => CommitWriteInv(d, key, sha);
      case OpenForWrite(key, create, truncate) => OpenWriteInv(d, key, create, truncate);
      case WriteThrough(key, sha) => HandleWriteInv(d, key, sha);
      case Flush(key) => CommitHandleInv(d, key);
      case Close(key) => CloseWriteInv(d, key);
      case Remove(key) => DeletedInv(d, key);
      case Move(from, to) => RenameLocalInv(d, from, to);
      case ChangeFolder(key, bytes) => ExternalInv(d, key, bytes);
    }
  }

  lemma {:induction false} VersionsNonempty(hub: map<Key, Digest>, f: Flight)
    requires Asking(f) && forall k <- hub :: hub[k] != ""
    ensures var r := Verdict(hub, f); r.Refused? && r.current.Some? ==> r.current.value != ""
  {
  }

  lemma {:induction false} ReplySeen(d: Replica, f: Flight, r: Reply)
    requires Asking(f) && FlightSeen(f, d.kept, d.known)
    requires r.Refused? && r.current.Some? ==> r.current.value != ""
    ensures FlightSeen(Replied(f, r), d.kept, d.known)
  {
  }

  lemma {:induction false} ObjectsNonempty(hub: map<Key, Digest>, d: Replica, f: Flight)
    requires Asking(f) && FlightSeen(f, d.kept, d.known) && "" !in d.known && forall k <- hub :: hub[k] != ""
    ensures forall k <- Objects(hub, f) :: Objects(hub, f)[k] != ""
  {
  }

  lemma {:induction false} AnswerInv(s: System)
    requires SystemInv(s) && Asking(s.mirror.flight)
    ensures SystemInv(Answer(s)) && Answer(s).mirror.folder == s.mirror.folder
  {
    hide Inv, Consistent, Captured, Verdict, Objects;
    var d, f := s.mirror, s.mirror.flight;
    InvGives(d);
    InvNonempty(d);
    NothingCaptured(d);
    VersionsNonempty(s.hub, f);
    ReplySeen(d, f, Verdict(s.hub, f));
    ObjectsNonempty(s.hub, d, f);
    hide FlightSeen;
    FlightInv(d, Replied(f, Verdict(s.hub, f)));
  }

  lemma {:induction false} InvNonempty(d: Replica)
    requires Inv(d)
    ensures "" !in d.known
  {
  }

  /** A failed request leaves the engine idle and everything else as it was. */
  lemma {:induction false} FailedKeeps(d: Replica)
    requires Inv(d)
    ensures Inv(Failed(d)) && KeepsBytes(d, Failed(d))
  {
    hide Consistent, Captured, KeepsBytes;
    DoneKeeps(d, d);
  }

  lemma {:induction false} JobSeen(d: Replica, job: Job)
    requires Inv(d) && job in d.rows.jobs
    ensures job.kind.Delete? && job.kind.ifMatch.Some? ==> job.kind.ifMatch.value in d.known
  {
    hide Sound, Seen, Captured;
  }

  lemma {:induction false} RunJobKeeps(d: Replica, job: Job, copy: Key)
    requires Inv(d) && d.flight.Idle? && job in d.rows.jobs
    ensures Inv(RunJob(d, job, copy)) && KeepsBytes(d, RunJob(d, job, copy))
  {
    hide Sound, RowsOk, Seen, KeepsBytes, RunPush, RunDelete, RunRename, RunConflict, Captured;
    var r := d.(running := Some(job.seqNo));
    InvGives(d);
    JobSeen(d, job);
    SoundOnly(r, d);
    assert Consistent(r);
    SameFolderKeeps(d, d);
    hide Inv, Consistent;
    match job.kind {
      case Push(key) => RunPushInv(r, key); SameBytesBefore(d, r, RunPush(r, key));
      case Delete(key, ifMatch) => RunDeleteInv(r, key, ifMatch); SameBytesBefore(d, r, RunDelete(r, key, ifMatch));
      case Rename(from, to) => RunRenameInv(r, from, to); SameBytesBefore(d, r, RunRename(r, from, to));
      case ConflictUpload(key, sha, _) => RunConflictInv(r, key, sha, copy); SameBytesBefore(d, r, RunConflict(r, key, sha, copy));
      case _ =>
    }
  }

  lemma {:induction false} SameBytesBefore(d: Replica, r: Replica, e: Replica)
    requires KeepsBytes(r, e) && r == d.(running := r.running)
    ensures KeepsBytes(d, e)
  {
    forall k | k in d.folder ensures BytesSurvive(d, e, k) {
      assert BytesSurvive(r, e, k);
    }
  }

  lemma {:induction false} LandingKeepsAll(d: Replica)
    requires Inv(d) && Asking(d.flight) && !AdoptsUnseenAt(System(d, map[], {}), Land)
    ensures Inv(Landing(d)) && KeepsBytes(d, Landing(d))
  {
    hide Inv, KeepsBytes, LandPush, LandDelete, LandRename, LandCopy, RefusalAdoptsUnseen, PushMoved, ResultKey;
    match d.flight {
      case Pushing(_, _, _, _) => LandPushInv(d);
      case Deleting(_, _, _, _) => LandDeleteInv(d);
      case Renaming(_, _, _, _) => LandRenameInv(d);
      case SendingCopy(_, _, _, _, _) => LandCopyInv(d);
    }
  }

  /** The remote rename that takes the name of a file that is open and not committed. The program
      could ask: such a name is in its set of open writes and has no row. */
  predicate TakesUnsavedAt(d: Replica, st: Step) {
    st.FollowRename? && TakesUnsaved(d, st.from, st.to)
  }

  lemma {:induction false} EngineInv(s: System, st: Step)
    requires Inv(s.mirror) && EngineStep(st) && Enabled(s, st) && !AdoptsUnseenAt(s, st)
    ensures Inv(ByEngine(s, st))
    ensures KeepsBytes(s.mirror, ByEngine(s, st)) <==> !(TakesUnsavedAt(s.mirror, st) && OnlyThere(s.mirror, st.to))
  {
    var d := s.mirror;
    InvGives(d);
    hide Inv, Consistent, KeepsBytes, Failed, Scanned, Recovered, Decided, PullBegin, PullLand, RecordConflict, RunJob,
      Landing, TargetAnswered, CopyAnswered, ApplyRemoteRename, Expired, Restarted, AdoptsUnseen, RefusalAdoptsUnseen, PushMoved, ResultKey,
      TakesUnsaved, OnlyThere;
    match st {
      case NetworkFails => FailedKeeps(d);
      case Scan(key, priority) => ScannedKeeps(d, key, priority);
      case RecoverJob(key) => RecoveredInv(d, key); SameFolderKeeps(d, Recovered(d, key));
      case ReconcileKey(key, remote) => DecidedInv(d, key, remote);
      case SendPull => PullBeginInv(d);
      case LandPull(got) => PullLandInv(d, got);
      case KeepConflict => RecordConflictInv(d);
      case StartJob(job, copy) => RunJobKeeps(d, job, copy);
      case Land => LandingKeepsAll(d);
      case TargetIs(remote) => TargetAnsweredInv(d, remote);
      case NowIs(remote) => CopyAnsweredInv(d, remote);
      case FollowRename(from, to) =>
        ApplyRemoteRenameConsistent(d, from, to);
        ApplyRemoteRenameKeeps(d, from, to);
      case Expire(keys, snapshots) => ExpiredKeeps(d, keys, snapshots);
      case Restart => RestartedKeeps(d);
    }
  }

  /** A restart in the middle of anything leaves the ledger in order: it only relied on what is
      durable. */
  lemma {:induction false} RestartedKeeps(d: Replica)
    requires Inv(d)
    ensures Inv(Restarted(d)) && KeepsBytes(d, Restarted(d))
  {
    hide Truthful, Accounted, RowsOk, Seen;
    var e := Restarted(d);
    WiderApart(d.folder, d.entries, d.unsaved + d.outside, e.unsaved + e.outside);
    SameFolderKeeps(d, e);
  }

  lemma {:induction false} ExpiredKeeps(d: Replica, keys: set<Key>, snapshots: set<Digest>)
    requires Inv(d) && d.flight.Idle?
    ensures Inv(Expired(d, keys, snapshots)) && KeepsBytes(d, Expired(d, keys, snapshots))
  {
    hide Truthful, Accounted, RowsOk, Seen;
    SameFolderKeeps(d, Expired(d, keys, snapshots));
  }

  lemma {:induction false} ScannedKeeps(d: Replica, key: Key, priority: Priority)
    requires Inv(d) && d.flight.Idle?
    ensures Inv(Scanned(d, key, priority)) && KeepsBytes(d, Scanned(d, key, priority))
  {
    InvGives(d);
    ScannedConsistent(d, key, priority);
    var e := Scanned(d, key, priority);
    hide Inv, Consistent, KeepsBytes, Scanned;
    IdleInv(e);
    SameFolderKeeps(d, e);
  }

  lemma {:induction false} NotSeenBreaks(d: Replica)
    ensures !Seen(d.bases, d.marks, d.known) ==> !Inv(d)
  {
    hide Seen;
  }

  lemma {:induction false} SettledUnseen(d: Replica, key: Key)
    requires AdoptsUnseen(d, key, None)
    ensures !Inv(Decided(d, key, None)) && !Inv(Settle(Decided(d, key, None)))
  {
    AdoptionIsUnseen(d, key);
    var e := Decided(d, key, None);
    hide Inv, AdoptsUnseen, Decided, Seen;
    NotSeenBreaks(e);
    NotSeenBreaks(Done(e));
  }

  /** Adopting a tombstone that names unseen bytes breaks the invariant. */
  lemma {:induction false} AdoptionBreaks(s: System, st: Step)
    requires Enabled(s, st) && AdoptsUnseenAt(s, st)
    ensures EngineStep(st) && !Inv(ByEngine(s, st))
  {
    var d := s.mirror;
    hide Inv, AdoptsUnseen, Decided, Settle, ResultKey, PushMoved;
    match st {
      case ReconcileKey(key, remote) =>
        OnlyOverNothing(d, key, remote);
        SettledUnseen(d, key);
      case TargetIs(remote) =>
        OnlyOverNothing(d.(bases := d.bases - {d.flight.localTo}), d.flight.to, remote);
        SettledUnseen(d.(bases := d.bases - {d.flight.localTo}), d.flight.to);
      case Land =>
        match d.flight {
          case Pushing(key, _, _, reply) =>
            OnlyOverNothing(d, key, reply.current);
            SettledUnseen(d, key);
          case Deleting(key, _, _, reply) =>
            OnlyOverNothing(d, key, reply.current);
            SettledUnseen(d, key);
          case Renaming(from, to, _, reply) =>
            OnlyOverNothing(PushMoved(d, ResultKey(d.rows.jobs, to)), from, reply.current);
            SettledUnseen(PushMoved(d, ResultKey(d.rows.jobs, to)), from);
        }
    }
  }

  lemma {:induction false} OnlyOverNothing(d: Replica, key: Key, remote: Option<Digest>)
    ensures AdoptsUnseen(d, key, remote) ==> remote == None
  {
  }

  /** Every step keeps the invariant, exactly unless a tombstone is adopted that names unseen bytes. */
  lemma {:induction false} StepInv(s: System, st: Step)
    requires SystemInv(s) && Enabled(s, st)
    ensures SystemInv(Next(s, st)) <==> !AdoptsUnseenAt(s, st)
  {
    hide Inv, Locally, ByEngine, Answer, AdoptsUnseenAt;
    if AdoptsUnseenAt(s, st) {
      AdoptionBreaks(s, st);
    } else if LocalStep(st) {
      LocallyInv(s.mirror, st);
    } else if st.HubAnswers? {
      AnswerInv(s);
    } else if EngineStep(st) {
      EngineInv(s, st);
    }
  }

  // ── runs ──────────────────────────────────────────────────────────────────

  /** The states a run passes through; each step is possible where it is taken. */
  predicate Run(trace: seq<System>, steps: seq<Step>) {
    && |trace| == |steps| + 1
    && forall i {:trigger steps[i]} :: 0 <= i < |steps| ==> Enabled(trace[i], steps[i]) && trace[i + 1] == Next(trace[i], steps[i])
  }

  predicate NoUnseenAdoption(trace: seq<System>, steps: seq<Step>) {
    forall i {:trigger steps[i]} :: 0 <= i < |steps| && i < |trace| ==> !AdoptsUnseenAt(trace[i], steps[i])
  }

  lemma {:induction false} RunInv(trace: seq<System>, steps: seq<Step>, n: nat)
    requires Run(trace, steps) && NoUnseenAdoption(trace, steps) && SystemInv(trace[0]) && n < |trace|
    ensures SystemInv(trace[n])
  {
    hide SystemInv, Enabled, Next, AdoptsUnseenAt;
    if n > 0 {
      RunInv(trace, steps, n - 1);
      var st := steps[n - 1];
      StepInv(trace[n - 1], st);
    }
  }

  /** The key a step decides anew, with the hub's answer about it in hand. */
  function Decides(d: Replica, st: Step): Option<Key> {
    match st
    case ReconcileKey(key, _) => Some(key)
    case TargetIs(_) => if d.flight.TargetAsked? then Some(d.flight.to) else None
    case Land =>
      (match d.flight
       case Pushing(key, _, _, Refused(_)) => Some(key)
       case Deleting(key, _, _, Refused(_)) => Some(key)
       case Renaming(from, _, _, Refused(_)) => Some(from)
       case _ => None)
    case _ => None
  }

  /** What the program can see of an adoption in advance: the tombstone of a key with a base is
      neither of the base's bytes nor of those last sent for it. */
  predicate Stranger(d: Replica, key: Key) {
    && key in d.entries && d.entries[key].state.Tombstone? && key in d.bases
    && d.entries[key].sha != d.bases[key] && Lookup(d.marks, key) != Some(d.entries[key].sha)
  }

  lemma {:induction false} UnseenIsStranger(d: Replica, key: Key, remote: Option<Digest>)
    requires Seen(d.bases, d.marks, d.known) && AdoptsUnseen(d, key, remote)
    ensures Stranger(d, key)
  {
  }

  lemma {:induction false} UnseenAdoptionShows(s: System, st: Step)
    requires Inv(s.mirror) && Enabled(s, st) && AdoptsUnseenAt(s, st)
    ensures Decides(s.mirror, st).Some? && Stranger(s.mirror, Decides(s.mirror, st).value)
  {
    hide AdoptsUnseen, ResultKey, Rows.Ensure, Truthful, Accounted, Captured, FlightSeen;
    var d := s.mirror;
    match st {
      case ReconcileKey(key, remote) => UnseenIsStranger(d, key, remote);
      case TargetIs(remote) => UnseenIsStranger(d.(bases := d.bases - {d.flight.localTo}), d.flight.to, remote);
      case Land =>
        match d.flight {
          case Pushing(key, _, _, reply) => UnseenIsStranger(d, key, reply.current);
          case Deleting(key, _, _, reply) => UnseenIsStranger(d, key, reply.current);
          case Renaming(from, to, _, reply) => UnseenIsStranger(PushMoved(d, ResultKey(d.rows.jobs, to)), from, reply.current);
        }
    }
  }

  /** No decision of the run is about such a tombstone: a condition on the program's own tables. */
  predicate NoStrangerDecided(trace: seq<System>, steps: seq<Step>) {
    forall i {:trigger steps[i]} :: 0 <= i < |steps| && i < |trace| ==>
      var key := Decides(trace[i].mirror, steps[i]); key.Some? ==> !Stranger(trace[i].mirror, key.value)
  }

  /** Then nothing unseen is adopted, and what is proved of runs without unseen adoptions holds. */
  lemma {:induction false} NoStrangerNoUnseen(trace: seq<System>, steps: seq<Step>)
    requires Run(trace, steps) && NoStrangerDecided(trace, steps) && SystemInv(trace[0])
    ensures NoUnseenAdoption(trace, steps)
  {
    hide SystemInv, Enabled, Next, AdoptsUnseenAt, Decides, Stranger, Inv;
    if steps == [] {
      return;
    }
    var n := |steps| - 1;
    NoStrangerNoUnseen(trace[..n + 1], steps[..n]);
    assert forall i: nat | i < n :: steps[..n][i] == steps[i] && trace[..n + 1][i] == trace[i];
    RunInv(trace[..n + 1], steps[..n], n);
    var st := steps[n];
    assert trace[..n + 1][n] == trace[n];
    LastIsSeen(trace[n], st);
  }

  lemma {:induction false} LastIsSeen(s: System, st: Step)
    requires SystemInv(s) && Enabled(s, st)
    requires var key := Decides(s.mirror, st); key.Some? ==> !Stranger(s.mirror, key.value)
    ensures !AdoptsUnseenAt(s, st)
  {
    hide AdoptsUnseenAt, Decides, Stranger, Inv, Enabled;
    if AdoptsUnseenAt(s, st) {
      UnseenAdoptionShows(s, st);
    }
  }

  /** Unsynced work is never destroyed: in every run, an engine step that replaces or removes a
      file leaves its bytes in the folder, in the trash, in the conflict store or agreed with the
      hub, exactly unless it follows a remote rename onto an open file that is not committed and
      whose bytes are nowhere else. */
  lemma {:induction false} EngineNeverDestroysUnsyncedWork(trace: seq<System>, steps: seq<Step>, n: nat)
    requires Run(trace, steps) && NoUnseenAdoption(trace, steps) && SystemInv(trace[0])
    requires n < |steps| && EngineStep(steps[n])
    ensures KeepsBytes(trace[n].mirror, trace[n + 1].mirror)
            <==> !(TakesUnsavedAt(trace[n].mirror, steps[n]) && OnlyThere(trace[n].mirror, steps[n].to))
  {
    RunInv(trace, steps, n);
    var st := steps[n];
    assert trace[n + 1] == Next(trace[n], st);
    hide Enabled, AdoptsUnseenAt, KeepsBytes, ByEngine, TakesUnsavedAt, OnlyThere, Inv;
    EngineInv(trace[n], st);
  }

  /** A mirror that has just been set up: nothing in the ledger, and no file scanned yet. */
  predicate Fresh(s: System) {
    var d := s.mirror;
    && (forall k <- d.folder :: k in d.outside && d.folder[k].id < d.clock && d.folder[k].sha != "")
    && (forall j <- d.folder, k <- d.folder :: d.folder[j].id == d.folder[k].id ==> j == k)
    && d.entries == map[] && d.bases == map[] && d.marks == map[] && d.conflicts == map[]
    && d.rows == Rows([], 0) && d.writers == {} && d.unsaved == {} && d.known == {} && Ready(d)
    && forall k <- s.hub :: s.hub[k] != ""
  }

  lemma {:induction false} FreshInv(s: System)
    requires Fresh(s)
    ensures SystemInv(s)
  {
  }
}
