/** A Clean row agrees with its base, and exactly when an operation breaks that. */
module SyncAgreement {
  import opened Options
  import opened Keys
  import opened Reconcile
  import opened Jobs
  import opened Tables
  import opened Replicas
  import opened SyncSteps
  import opened SyncRuns

  ghost predicate Agree(entries: map<Key, Entry>, bases: map<Key, Digest>) {
    forall k <- entries :: entries[k].state.Clean? && k in bases ==> bases[k] == entries[k].sha
  }

  ghost predicate Agreed(d: Replica) { Agree(d.entries, d.bases) }

  // ── rows and bases ────────────────────────────────────────────────────────

  lemma {:induction false} AgreeRow(entries: map<Key, Entry>, bases: map<Key, Digest>, key: Key, e: Entry)
    requires Agree(entries, bases) && (e.state.Clean? && key in bases ==> bases[key] == e.sha)
    ensures Agree(entries[key := e], bases)
  {
  }

  lemma {:induction false} AgreeBoth(entries: map<Key, Entry>, bases: map<Key, Digest>, key: Key, e: Entry)
    requires Agree(entries, bases)
    ensures Agree(entries[key := e], bases[key := e.sha])
  {
  }

  lemma {:induction false} AgreeWithout(entries: map<Key, Entry>, bases: map<Key, Digest>, key: Key)
    requires Agree(entries, bases)
    ensures Agree(entries - {key}, bases) && Agree(entries, bases - {key}) && Agree(entries - {key}, bases - {key})
  {
  }

  /** A clean row without a base is about to take a name that still has one. */
  predicate StrandedBase(entries: map<Key, Entry>, bases: map<Key, Digest>, from: Key, to: Key) {
    && from in entries && entries[from].state.Clean? && from !in bases
    && to in bases && bases[to] != entries[from].sha
  }

  lemma {:induction false} AgreeMoved(entries: map<Key, Entry>, bases: map<Key, Digest>, from: Key, to: Key)
    requires Agree(entries, bases) && from != to && (to in entries ==> !entries[to].state.Clean?)
    ensures Agree(MovedRow(entries, from, to), MovedRow(bases, from, to)) <==> !StrandedBase(entries, bases, from, to)
  {
    if StrandedBase(entries, bases, from, to) {
      assert to in MovedRow(entries, from, to);
    }
  }

  lemma {:induction false} AgreeMarked(d: Replica, key: Key)
    requires Agreed(d)
    ensures Agree(MarkedDirty(d.entries, key), d.bases)
  {
  }

  // ── local operations ──────────────────────────────────────────────────────

  lemma {:induction false} GoneAgrees(d: Replica, key: Key)
    requires Agreed(d)
    ensures Agreed(Gone(d, key))
    ensures key in Gone(d, key).entries ==> !Gone(d, key).entries[key].state.Clean?
  {
    hide Rows.Keep, Rows.Enqueue, Agree;
    AgreeWithout(d.entries, d.bases, key);
    if key in d.entries {
      AgreeRow(d.entries, d.bases, key, d.entries[key].(state := Tombstone));
    }
  }

  lemma {:induction false} DeletedAgrees(d: Replica, key: Key)
    requires Agreed(d)
    ensures Agreed(Deleted(d, key))
    ensures key in Deleted(d, key).entries ==> !Deleted(d, key).entries[key].state.Clean?
  {
    hide Gone, Agree;
    GoneAgrees(d.(folder := d.folder - {key}, unsaved := d.unsaved - {key}, outside := d.outside - {key}), key);
  }

  lemma {:induction false} DestinationGoneAgrees(d: Replica, to: Key)
    requires Agreed(d)
    ensures Agreed(DestinationGone(d, to))
    ensures to in DestinationGone(d, to).entries ==> !DestinationGone(d, to).entries[to].state.Clean?
  {
    hide Deleted, Rows.Enqueue, Agree;
    DeletedAgrees(d, to);
  }

  lemma {:induction false} SavedOverAgrees(d: Replica, from: Key, to: Key)
    requires Agreed(d) && from != to && to in d.entries
    ensures Agreed(SavedOver(d, from, to))
  {
    var moved := MovedRow(d.entries, from, to);
    var row := moved[to].(state := Dirty);
    assert SavedOver(d, from, to).entries == (d.entries - if from in d.entries then {from} else {})[to := row];
    hide Rows.Keep, Rows.Enqueue, MovedMember, Agree;
    AgreeWithout(d.entries, d.bases, from);
    AgreeRow(d.entries, d.bases, to, row);
    AgreeRow(d.entries - {from}, d.bases, to, row);
    assert d.entries - {} == d.entries;
  }

  lemma {:induction false} RekeyedAgrees(d: Replica, from: Key, to: Key)
    requires Agreed(d) && from != to && (to in d.entries ==> !d.entries[to].state.Clean?)
    ensures Agreed(Rekeyed(FileMoved(d, from, to), from, to)) <==> !StrandedBase(d.entries, d.bases, from, to)
  {
    AgreeMoved(d.entries, d.bases, from, to);
    var m := Retabled(FileMoved(d, from, to), from, to);
    assert m.entries == MovedRow(d.entries, from, to) && m.bases == MovedRow(d.bases, from, to);
    if to in m.entries && to !in m.bases && m.entries[to].state.Clean? {
      assert !StrandedBase(d.entries, d.bases, from, to);
      AgreeRow(m.entries, m.bases, to, m.entries[to].(state := Dirty));
    }
    hide Retabled, FileMoved, StrandedBase, Agree, Rows.Enqueue;
  }

  /** A rename over a name that has a base but no row, of a clean file that has no base. */
  predicate Strands(d: Replica, from: Key, to: Key) {
    && from != to && from in d.folder && to !in d.entries
    && StrandedBase(d.entries, d.bases, from, to)
  }

  lemma {:induction false} RenameLocalAgrees(d: Replica, from: Key, to: Key)
    requires Agreed(d)
    ensures Agreed(RenameLocal(d, from, to)) <==> !Strands(d, from, to)
  {
    hide Rekeyed, FileMoved, SavedOver, Agree;
    if from != to && from in d.folder {
      var e := d.(epoch := d.epoch + 1);
      if from !in d.bases && to in d.entries {
        SavedOverAgrees(e, from, to);
      } else {
        DestinationGoneAgrees(e, to);
        RekeyedAgrees(DestinationGone(e, to), from, to);
        StrandsOnlyWhenAbsent(e, from, to);
      }
    }
  }

  lemma {:induction false} StrandsOnlyWhenAbsent(d: Replica, from: Key, to: Key)
    requires from in d.bases || to !in d.entries
    requires from != to
    ensures var g := DestinationGone(d, to);
            StrandedBase(g.entries, g.bases, from, to) <==> (to !in d.entries && StrandedBase(d.entries, d.bases, from, to))
  {
    hide Rows.Keep, Rows.Enqueue;
  }

  // ── the engine ────────────────────────────────────────────────────────────

  lemma {:induction false} EndAgrees(d: Replica)
    requires Agreed(d)
    ensures Agreed(Done(d)) && Agreed(Failed(d)) && Agreed(Settle(d))
  {
    hide Rows.Keep, Agree;
  }

  lemma {:induction false} ScannedAgrees(d: Replica, key: Key, priority: Priority)
    requires Agreed(d)
    ensures Agreed(Scanned(d, key, priority))
  {
    hide Gone, Rows.Enqueue, PendingDirectoryMove, Agree;
    GoneAgrees(d.(outside := d.outside - {key}), key);
    if key in d.folder {
      var f := d.folder[key];
      AgreeRow(d.entries, d.bases, key, Entry(f.sha, f.id, Dirty));
      if LiveSha(d, key) == Some(f.sha) {
        RowAgrees(d, key);
        AgreeRow(d.entries, d.bases, key, d.entries[key].(mtime := f.id));
      }
    }
  }

  lemma {:induction false} RowAgrees(d: Replica, key: Key)
    requires Agreed(d) && key in d.entries
    ensures d.entries[key].state.Clean? && key in d.bases ==> d.bases[key] == d.entries[key].sha
  {
  }

  lemma {:induction false} ActedAgrees(d: Replica, key: Key, a: Action)
    requires Agreed(d)
    ensures Agreed(Acted(d, key, a))
  {
    hide Rows.Keep, Rows.Ensure, Agree, MarkedDirty;
    AgreeWithout(d.entries, d.bases, key);
    AgreeMarked(d, key);
    AgreeWithout(MarkedDirty(d.entries, key), d.bases, key);
    if key in d.entries {
      AgreeBoth(d.entries, d.bases, key, d.entries[key].(state := Clean));
    }
  }

  lemma {:induction false} DecidedAgrees(d: Replica, key: Key, remote: Option<Digest>)
    requires Agreed(d)
    ensures Agreed(Decided(d, key, remote)) && Agreed(Settle(Decided(d, key, remote)))
  {
    var i := d.(flight := Idle);
    ActedAgrees(i, key, Decide(LiveSha(d, key), Lookup(d.bases, key), remote));
    EndAgrees(Decided(d, key, remote)) by {
      hide Acted, Decide, PendingDirectoryMove, PendingRename, Blocked, Agree;
    }
    hide Acted, Decide, PendingDirectoryMove, PendingRename, Blocked, Agree, Settle;
  }

  lemma {:induction false} PullAgrees(d: Replica, got: Option<Digest>)
    requires Agreed(d)
    ensures d.flight.PullChosen? ==> Agreed(PullBegin(d))
    ensures d.flight.Pulling? ==> Agreed(PullLand(d, got))
  {
    hide Settle, Scanned, StillExpected, MayLand, LandingAllowed, Rows.Keep, Agree;
    EndAgrees(d.(flight := Idle));
    if d.flight.PullChosen? {
      EndAgrees(Deferred(d, d.flight.key));
    }
    if d.flight.Pulling? {
      var key := d.flight.key;
      ScannedAgrees(d, key, Interactive);
      EndAgrees(Deferred(Scanned(d, key, Interactive), key));
      if got.Some? {
        AgreeBoth(d.entries, d.bases, key, Entry(got.value, d.clock, Clean));
        EndAgrees(Landed(d, key, got.value));
      }
    }
  }

  lemma {:induction false} RecordConflictAgrees(d: Replica)
    requires Agreed(d) && d.flight.ConflictChosen?
    ensures Agreed(RecordConflict(d))
  {
    hide Settle, StillExpected, ResultKey, Preserved, Agree;
    var key := d.flight.key;
    EndAgrees(d.(flight := Idle));
    EndAgrees(Deferred(d, ResultKey(d.rows.jobs, key)));
    if key in d.folder {
      PreservedAgrees(d, key, d.flight.entry, d.flight.base);
      EndAgrees(Preserved(d, key, d.flight.entry, d.flight.base));
    }
  }

  lemma {:induction false} PreservedAgrees(d: Replica, key: Key, entry: Entry, base: Option<Digest>)
    requires Agreed(d) && key in d.folder
    ensures Agreed(Preserved(d, key, entry, base))
  {
    hide Rows.Keep, Rows.Ensure, Agree;
    AgreeRow(d.entries, d.bases, key, Entry(d.folder[key].sha, d.folder[key].id, Dirty));
  }

  lemma {:induction false} NoTombstoneAgrees(d: Replica, key: Key)
    requires Agreed(d)
    ensures Agree(NoTombstone(d.entries, key), d.bases) && Agree(NoTombstone(d.entries, key), d.bases - {key})
  {
    hide Agree;
    AgreeWithout(d.entries, d.bases, key);
  }

  lemma {:induction false} RunPushAgrees(d: Replica, key: Key)
    requires Agreed(d)
    ensures Agreed(RunPush(d, key))
  {
    hide Done, Failed, PendingDirectoryMove, Agree;
    EndAgrees(d);
    if key in d.folder {
      AgreeRow(d.entries, d.bases, key, Entry(d.folder[key].sha, d.folder[key].id, Dirty));
    }
  }

  lemma {:induction false} RunDeleteAgrees(d: Replica, key: Key, ifMatch: Option<Digest>)
    requires Agreed(d)
    ensures Agreed(RunDelete(d, key, ifMatch))
  {
    hide Done, DeleteMatch, ResultKey, NoTombstone, Agree;
    var local := ResultKey(d.rows.jobs, key);
    NoTombstoneAgrees(d, local);
    EndAgrees(d.(entries := NoTombstone(d.entries, local)));
  }

  lemma {:induction false} RunConflictAgrees(d: Replica, key: Key, sha: Digest, copy: Key)
    requires Agreed(d)
    ensures Agreed(RunConflict(d, key, sha, copy))
  {
    hide Done, ResultKey, Agree;
    EndAgrees(if sha in d.kept || key !in d.folder then d else d.(kept := d.kept + {d.folder[key].sha}));
  }

  lemma {:induction false} RunJobAgrees(d: Replica, job: Job, copy: Key)
    requires Agreed(d)
    ensures Agreed(RunJob(d, job, copy))
  {
    hide RunPush, RunDelete, RunConflict, ResultKey, Agree;
    var r := d.(running := Some(job.seqNo));
    match job.kind {
      case Push(key) => RunPushAgrees(r, key);
      case Delete(key, ifMatch) => RunDeleteAgrees(r, key, ifMatch);
      case ConflictUpload(key, sha, _) => RunConflictAgrees(r, key, sha, copy);
      case _ =>
    }
  }

  /** A clean file with other bytes has taken the name under which an upload lands. */
  predicate Overtaken(d: Replica, landed: Key, sha: Digest) {
    landed in d.entries && d.entries[landed].state.Clean? && d.entries[landed].sha != sha
  }

  lemma {:induction false} PushedAgrees(d: Replica, key: Key, landed: Key, sha: Digest)
    requires Agreed(d)
    ensures Agreed(Pushed(d, key, landed, sha)) <==> !Overtaken(d, landed, sha)
  {
    var p := Pushed(d, key, landed, sha);
    if Overtaken(d, landed, sha) {
      assert landed in p.entries && p.bases[landed] == sha;
    } else {
      forall k | k in p.entries && p.entries[k].state.Clean? && k in p.bases ensures p.bases[k] == p.entries[k].sha {
        if k != landed {
          assert k in d.entries && p.entries[k] == d.entries[k];
        }
      }
    }
  }

  lemma {:induction false} LandPushAgrees(d: Replica)
    requires Agreed(d) && d.flight.Pushing?
    ensures Agreed(LandPush(d)) <==>
              !(d.flight.reply.Accepted? && Overtaken(d, ResultKey(d.rows.jobs, d.flight.key), d.flight.sha))
  {
    hide Decided, Settle, Failed, ResultKey, Pushed, Agree, Rows.Keep;
    EndAgrees(d);
    match d.flight.reply {
      case Refused(current) => DecidedAgrees(d, d.flight.key, current);
      case Accepted => PushedAgrees(d, d.flight.key, ResultKey(d.rows.jobs, d.flight.key), d.flight.sha);
      case _ =>
    }
  }

  lemma {:induction false} LandDeleteAgrees(d: Replica)
    requires Agreed(d) && d.flight.Deleting?
    ensures Agreed(LandDelete(d))
  {
    hide Decided, Settle, Done, Failed, ResultKey, NoTombstone, Agree, DeletedRemotely;
    EndAgrees(d);
    match d.flight.reply {
      case Waiting =>
      case TargetTaken =>
      case Refused(current) => DecidedAgrees(d, d.flight.key, current);
      case _ =>
        DeletedRemotelyAgrees(d, d.flight.key, ResultKey(d.rows.jobs, d.flight.key), d.flight.fixed);
        EndAgrees(DeletedRemotely(d, d.flight.key, ResultKey(d.rows.jobs, d.flight.key), d.flight.fixed));
    }
  }

  lemma {:induction false} DeletedRemotelyAgrees(d: Replica, key: Key, local: Key, fixed: bool)
    requires Agreed(d)
    ensures Agreed(DeletedRemotely(d, key, local, fixed))
  {
    hide NoTombstone, Agree;
    NoTombstoneAgrees(d, local);
  }

  lemma {:induction false} PushMovedAgrees(d: Replica, local: Key)
    requires Agreed(d)
    ensures Agreed(PushMoved(d, local)) && Agreed(SourceMissing(d, local)) && Agreed(d.(bases := d.bases - {local}))
  {
    hide Rows.Ensure, MarkedDirty, Agree;
    AgreeWithout(d.entries, d.bases, local);
    AgreeMarked(d, local);
    AgreeWithout(MarkedDirty(d.entries, local), d.bases, local);
  }

  lemma {:induction false} LandRenameAgrees(d: Replica)
    requires Agreed(d) && d.flight.Renaming?
    ensures Agreed(LandRename(d))
  {
    hide Decided, Settle, Done, ResultKey, PushMoved, SourceMissing, Agree;
    var local := ResultKey(d.rows.jobs, d.flight.to);
    PushMovedAgrees(d, local);
    match d.flight.reply {
      case Waiting =>
      case TargetTaken =>
      case Accepted => EndAgrees(d);
      case Missing => EndAgrees(SourceMissing(d, local));
      case Refused(current) => DecidedAgrees(PushMoved(d, local), d.flight.from, current);
    }
  }

  lemma {:induction false} TargetAnsweredAgrees(d: Replica, remote: Option<Digest>)
    requires Agreed(d) && d.flight.TargetAsked?
    ensures Agreed(TargetAnswered(d, remote))
  {
    hide Decided, Settle, Failed, ResultKey, Agree;
    EndAgrees(d);
    PushMovedAgrees(d, d.flight.localTo);
    DecidedAgrees(d.(bases := d.bases - {d.flight.localTo}), d.flight.to, remote);
  }

  lemma {:induction false} LandCopyAgrees(d: Replica)
    requires Agreed(d) && d.flight.SendingCopy?
    ensures Agreed(LandCopy(d))
  {
    hide Scanned, Done, Failed, ResultKey, StillHolds, Agree;
    var c := CopyRecorded(d);
    EndAgrees(d);
    EndAgrees(c);
    ScannedAgrees(c, d.flight.key, Interactive);
    EndAgrees(Deferred(Scanned(c, d.flight.key, Interactive), d.flight.key));
  }

  lemma {:induction false} CopyAnsweredAgrees(d: Replica, remote: Option<Digest>)
    requires Agreed(d) && d.flight.CopySent?
    ensures Agreed(CopyAnswered(d, remote))
  {
    hide Done, Rows.Ensure, MarkedDirty, Agree;
    var key := d.flight.key;
    AgreeMarked(d, key);
    AgreeWithout(MarkedDirty(d.entries, key), d.bases, key);
    EndAgrees(d.(bases := d.bases - {key}, entries := MarkedDirty(d.entries, key), rows := d.rows.Ensure(JobKind.Push(key))));
  }

  lemma {:induction false} ApplyRemoteRenameAgrees(d: Replica, from: Key, to: Key)
    requires Agreed(d)
    ensures Agreed(ApplyRemoteRename(d, from, to))
  {
    AgreeWithout(d.entries, d.bases, from);
    if CleanHere(d, from) && from != to && to !in d.entries {
      AgreeMoved(d.entries, d.bases, from, to);
    }
    assert CleanHere(d, from) ==> from in d.bases;
    assert from in d.bases ==> !StrandedBase(d.entries, d.bases, from, to);
    hide PendingDirectoryMove, Rows.Enqueue, MovedRow, MovedMember, Agree, CleanHere, StrandedBase;
  }

  // ── every step ────────────────────────────────────────────────────────────

  /** The two operations that leave a Clean row beside a base that is not its own. */
  predicate BreaksAgreement(s: System, st: Step) {
    var d := s.mirror;
    || (st.Move? && Strands(d, st.from, st.to))
    || (st.Land? && d.flight.Pushing? && d.flight.reply.Accepted?
        && Overtaken(d, ResultKey(d.rows.jobs, d.flight.key), d.flight.sha))
  }

  lemma {:induction false} LocallyAgrees(d: Replica, st: Step)
    requires Agreed(d) && LocalStep(st)
    ensures Agreed(Locally(d, st)) <==> !(st.Move? && Strands(d, st.from, st.to))
  {
    hide Deleted, RenameLocal, Rows.Enqueue, Agree, Strands;
    match st {
      case Move(from, to) => RenameLocalAgrees(d, from, to);
      case Remove(key) => DeletedAgrees(d, key);
      case Write(key, sha) => AgreeRow(d.entries, d.bases, key, Entry(sha, d.clock, Dirty));
      case Flush(key) =>
        if key in d.folder {
          AgreeRow(d.entries, d.bases, key, Entry("", d.folder[key].id, Dirty));
        }
      case _ =>
    }
  }

  lemma {:induction false} LandingAgrees(d: Replica)
    requires Agreed(d) && Asking(d.flight)
    ensures Agreed(Landing(d)) <==> !BreaksAgreement(System(d, map[], {}), Land)
  {
    hide LandPush, LandDelete, LandRename, LandCopy, Agree, ResultKey, Overtaken;
    match d.flight {
      case Pushing(_, _, _, _) => LandPushAgrees(d);
      case Deleting(_, _, _, _) => LandDeleteAgrees(d);
      case Renaming(_, _, _, _) => LandRenameAgrees(d);
      case SendingCopy(_, _, _, _, _) => LandCopyAgrees(d);
    }
  }

  lemma {:induction false} EngineAgrees(s: System, st: Step)
    requires Agreed(s.mirror) && EngineStep(st) && Enabled(s, st)
    ensures Agreed(ByEngine(s, st)) <==> !BreaksAgreement(s, st)
  {
    var d := s.mirror;
    hide Failed, Scanned, Recovered, Decided, PullBegin, PullLand, RecordConflict, RunJob, Landing, TargetAnswered,
      CopyAnswered, ApplyRemoteRename, Agree, ResultKey, Overtaken, Strands;
    match st {
      case NetworkFails => EndAgrees(d);
      case Scan(key, priority) => ScannedAgrees(d, key, priority);
      case RecoverJob(key) => RecoveredAgrees(d, key);
      case ReconcileKey(key, remote) => DecidedAgrees(d, key, remote);
      case SendPull => PullAgrees(d, None);
      case LandPull(got) => PullAgrees(d, got);
      case KeepConflict => RecordConflictAgrees(d);
      case StartJob(job, copy) => RunJobAgrees(d, job, copy);
      case Land => LandingAgrees(d);
      case TargetIs(remote) => TargetAnsweredAgrees(d, remote);
      case NowIs(remote) => CopyAnsweredAgrees(d, remote);
      case FollowRename(from, to) => ApplyRemoteRenameAgrees(d, from, to);
      case Expire(_, _) =>
      case Restart =>
    }
  }

  lemma {:induction false} RecoveredAgrees(d: Replica, key: Key)
    requires Agreed(d)
    ensures Agreed(Recovered(d, key))
  {
    hide Rows.Has, Rows.Enqueue, Agree;
  }

  /** Between operations a Clean row with a base has the base's digest. A step keeps that exactly
      when it is neither a late upload landing on a name that a clean file has taken meanwhile,
      nor a rename of a clean file without a base onto a left-over base. */
  lemma {:induction false} CleanAgreesWithBase(s: System, st: Step)
    requires Agreed(s.mirror) && Enabled(s, st)
    ensures Agreed(Next(s, st).mirror) <==> !BreaksAgreement(s, st)
  {
    hide Locally, ByEngine, Agree, Strands, Overtaken, ResultKey, Verdict, Objects;
    if LocalStep(st) {
      LocallyAgrees(s.mirror, st);
    } else if EngineStep(st) {
      EngineAgrees(s, st);
    }
  }

  /** So it holds throughout every run without such a step. */
  lemma {:induction false} CleanAlwaysAgrees(trace: seq<System>, steps: seq<Step>, n: nat)
    requires Run(trace, steps) && n < |trace| && Agreed(trace[0].mirror)
    requires forall i :: 0 <= i < n ==> !BreaksAgreement(trace[i], steps[i])
    ensures Agreed(trace[n].mirror)
  {
    hide Agreed, Enabled, Next, BreaksAgreement;
    if n > 0 {
      CleanAlwaysAgrees(trace, steps, n - 1);
      var st := steps[n - 1];
      CleanAgreesWithBase(trace[n - 1], st);
    }
  }
}
