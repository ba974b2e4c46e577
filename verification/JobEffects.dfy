/** What running a queued job does to the hub, key by key, and that the replay of the queue does what
    the engine's request and the hub's answer to it do. */
module JobEffects {
  import opened Options
  import opened Keys
  import opened Reconcile
  import opened Jobs
  import opened Rekey
  import opened Replay
  import opened Replicas
  import opened SyncSteps
  import opened SyncRuns

  /** Nothing changes at other keys, neither on the hub nor in what is agreed. */
  ghost predicate OthersStay(w: World, v: World, keys: set<Key>) {
    forall k :: k !in keys ==> Lookup(v.hub, k) == Lookup(w.hub, k) && Lookup(v.agreed, k) == Lookup(w.agreed, k)
  }

  // ── key by key ────────────────────────────────────────────────────────────

  /** An upload takes effect exactly when the hub holds the agreed version, or nothing where nothing
      was agreed: then its bytes are there, and agreed. */
  lemma {:induction false} PushPuts(w: World, p: Pending)
    requires p.job.kind.Push?
    ensures var k, v := p.job.kind.key, Exec(w, p);
            && OthersStay(w, v, {k})
            && (Lookup(w.hub, k) == Lookup(w.agreed, k) ==> Lookup(v.hub, k) == Some(p.body) == Lookup(v.agreed, k))
            && (Lookup(w.hub, k) != Lookup(w.agreed, k) ==> v == w)
  {
  }

  /** A delete takes effect exactly when it names a version and the hub holds that one or nothing.
      One that names the version itself leaves what is agreed to the file that has the name now. */
  lemma {:induction false} DeleteRemoves(w: World, p: Pending)
    requires p.job.kind.Delete?
    ensures var k, fixed, v := p.job.kind.key, p.job.kind.ifMatch, Exec(w, p);
            var named := if fixed.Some? then fixed else Lookup(w.agreed, k);
            && OthersStay(w, v, {k})
            && (named.Some? && (k !in w.hub || Some(w.hub[k]) == named) ==>
                  k !in v.hub && Lookup(v.agreed, k) == if fixed.Some? then Lookup(w.agreed, k) else None)
            && (!(named.Some? && (k !in w.hub || Some(w.hub[k]) == named)) ==> v == w)
  {
  }

  /** A rename takes effect exactly when the source is there in the agreed version, or in any where
      none is agreed, and the destination is free: then the bytes are at the destination, and nothing
      is at the source. */
  lemma {:induction false} RenameMoves(w: World, p: Pending)
    requires p.job.kind.Rename?
    ensures var f, t, v := p.job.kind.from, p.job.kind.to, Exec(w, p);
            var accepted := f in w.hub && t !in w.hub && (f in w.agreed ==> w.agreed[f] == w.hub[f]);
            && OthersStay(w, v, {f, t})
            && (accepted ==> f !in v.hub && Lookup(v.hub, t) == Lookup(w.hub, f))
            && (accepted && f in w.agreed ==> f !in v.agreed && Lookup(v.agreed, t) == Lookup(w.agreed, f))
            && (accepted && f !in w.agreed ==> v.agreed == w.agreed)
            && (!accepted ==> v == w)
  {
  }

  /** A directory move that reaches the hub takes every file below the old name to the same place
      below the new one, and what is agreed about it. */
  lemma {:induction false} DirectoryMoves(w: World, p: Pending, k: Key)
    requires p.job.kind.RenameDir? && p.job.kind.remote
    ensures var f, t, v := p.job.kind.from, p.job.kind.to, Exec(w, p);
            var accepted := !Overlaps(f, t) && forall x <- w.hub :: !Under(x, t);
            && (!accepted ==> v == w)
            && (accepted && Under(k, f) ==> k !in v.hub && Lookup(v.hub, t + k[|f|..]) == Lookup(w.hub, k))
            && (accepted && Under(k, f) ==> k !in v.agreed && (k in w.agreed ==> Lookup(v.agreed, t + k[|f|..]) == Some(w.agreed[k])))
            && (accepted && !Under(k, f) && !Under(k, t) ==> Lookup(v.hub, k) == Lookup(w.hub, k) && Lookup(v.agreed, k) == Lookup(w.agreed, k))
  {
    var f, t := p.job.kind.from, p.job.kind.to;
    if Under(k, f) {
      var d := Mapped(k, f, t);
      MappedIsRelabelling(k, k, f, t);
      RekeyLookup(w.hub, f, t, d);
      RekeyLookup(w.agreed, f, t, d);
      if Under(k, t) {
        CommonDescendantOverlaps(k, f, t);
      }
    }
    RekeyLookup(w.hub, f, t, k);
    RekeyLookup(w.agreed, f, t, k);
  }

  /** Everything else puts, removes and renames no object. */
  lemma {:induction false} OtherJobsTouchNothing(w: World, p: Pending)
    requires p.job.kind.Mkdir? || p.job.kind.Rmdir? || p.job.kind.ConflictUpload? || (p.job.kind.RenameDir? && !p.job.kind.remote)
    ensures Exec(w, p) == w
  {
  }

  /** Bytes leave the hub only by a delete, or by an upload over the agreed version. */
  lemma {:induction false} MovesLoseNoBytes(w: World, p: Pending, k: Key)
    requires !p.job.kind.Push? && !p.job.kind.Delete? && k in w.hub
    ensures exists j :: Lookup(Exec(w, p).hub, j) == Some(w.hub[k])
  {
    match p.job.kind {
      case Rename(f, t) =>
        RenameMoves(w, p);
        assert Lookup(Exec(w, p).hub, if k == f && Exec(w, p) != w then t else k) == Some(w.hub[k]);
      case RenameDir(f, t, _, _, _, remote) =>
        if remote {
          DirectoryMoves(w, p, k);
          if Exec(w, p) != w && Under(k, f) {
            assert Lookup(Exec(w, p).hub, t + k[|f|..]) == Some(w.hub[k]);
          } else {
            assert Lookup(Exec(w, p).hub, k) == Some(w.hub[k]);
          }
        } else {
          assert Lookup(Exec(w, p).hub, k) == Some(w.hub[k]);
        }
      case ConflictUpload(_, _, _) => assert Lookup(Exec(w, p).hub, k) == Some(w.hub[k]);
      case Mkdir(_) => assert Lookup(Exec(w, p).hub, k) == Some(w.hub[k]);
      case Rmdir(_) => assert Lookup(Exec(w, p).hub, k) == Some(w.hub[k]);
    }
  }

  // ── the request and its answer ────────────────────────────────────────────

  /** The request that a job of one file makes in a world; a delete of what was never agreed makes
      none. */
  function Request(w: World, p: Pending): Option<Flight> {
    match p.job.kind
    case Push(k) => Some(Pushing(k, p.body, Lookup(w.agreed, k), Waiting))
    case Delete(k, fixed) =>
      var named := if fixed.Some? then fixed else Lookup(w.agreed, k);
      if named.Some? then Some(Deleting(k, named.value, fixed.Some?, Waiting)) else None
    case Rename(f, t) => Some(Renaming(f, t, Lookup(w.agreed, f), Waiting))
    case _ => None
  }

  /** The replay does to the hub what its conditional write does. */
  lemma {:induction false} ReplayIsTheHubsAnswer(w: World, p: Pending)
    ensures Request(w, p).Some? ==> Asking(Request(w, p).value) && Exec(w, p).hub == Objects(w.hub, Request(w, p).value)
    ensures Request(w, p).None? && !p.job.kind.RenameDir? ==> Exec(w, p) == w
  {
  }

  /** The answers read backwards. A refusal tells what the hub has instead of what was named; what is
      missing was not there; a taken name holds a file; and what was accepted met every condition. */
  lemma {:induction false} AnswersReadBackwards(hub: map<Key, Digest>, f: Flight)
    requires Asking(f)
    ensures var v := Verdict(hub, f);
            && !v.Waiting?
            && (v.Refused? ==>
                  || (f.Pushing? && v.current == Lookup(hub, f.key) != f.base)
                  || (f.Deleting? && v.current == Lookup(hub, f.key) != Some(f.sha) && f.key in hub)
                  || (f.Renaming? && v.current == Lookup(hub, f.from) != f.base && f.from in hub && f.base.Some?))
            && (v.Missing? <==> (f.Deleting? && f.key !in hub) || (f.Renaming? && f.from !in hub))
            && (v.TargetTaken? ==> f.Renaming? && f.to in hub)
            && (v.Accepted? && f.Pushing? ==> Lookup(hub, f.key) == f.base)
            && (v.Accepted? && f.Deleting? ==> Lookup(hub, f.key) == Some(f.sha))
            && (v.Accepted? && f.Renaming? ==> f.to !in hub && f.from in hub && (f.base.Some? ==> Lookup(hub, f.from) == f.base))
  {
  }

  // ── what the engine asks ──────────────────────────────────────────────────

  /** Nothing holds an upload of the key back. */
  predicate MayUpload(d: Replica, k: Key) {
    && k in d.entries && d.entries[k].state.Dirty? && k in d.folder && k !in d.writers && !PendingDirectoryMove(d.rows.jobs, k)
    && (d.cfg.protected && k in d.bases ==> d.entries[k].sha == d.bases[k] && d.folder[k].sha == d.bases[k])
  }

  /** An upload sends the bytes in the folder, on condition that the hub holds the base, or nothing
      where there is none; its row then names those bytes, and the hub may have them from then on. */
  lemma {:induction false} UploadAsks(d: Replica, job: Job, copy: Key)
    requires job.kind.Push? && d.flight.Idle?
    ensures var k, e := job.kind.key, RunJob(d, job, copy);
            && (e.flight.Pushing? <==> MayUpload(d, k))
            && (MayUpload(d, k) ==>
                  && e.flight == Pushing(k, d.folder[k].sha, Lookup(d.bases, k), Waiting)
                  && e.running == Some(job.seqNo) && e.rows == d.rows && e.folder == d.folder && e.bases == d.bases
                  && Lookup(e.marks, k) == Some(d.folder[k].sha)
                  && k in e.entries && e.entries[k].sha == d.folder[k].sha
                  && e.entries[k].mtime == d.folder[k].id && e.entries[k].state.Dirty?)
  {
    hide Rows.Keep, PendingDirectoryMove;
  }

  /** A delete names the version it was queued with, or the base of the file that has the name now, or
      what was last sent under it; with none of these nothing is asked. */
  lemma {:induction false} DeleteAsks(d: Replica, job: Job, copy: Key)
    requires job.kind.Delete? && d.flight.Idle? && !d.cfg.protected
    ensures var k, fixed, e := job.kind.key, job.kind.ifMatch, RunJob(d, job, copy);
            var local := ResultKey(d.rows.jobs, k);
            var named := if fixed.Some? then fixed else if local in d.bases then Some(d.bases[local]) else Lookup(d.marks, k);
            && (named.Some? ==> e == d.(running := Some(job.seqNo), flight := Deleting(k, named.value, fixed.Some?, Waiting)))
            && (named.None? ==> e.flight.Idle? && forall j <- e.rows.jobs :: j.seqNo != job.seqNo)
  {
    hide ResultKey;
  }

  /** A rename is on condition that the hub's source is the base, which has the new name here. */
  lemma {:induction false} RenameAsks(d: Replica, job: Job, copy: Key)
    requires job.kind.Rename? && !d.cfg.protected
    ensures var f, t, e := job.kind.from, job.kind.to, RunJob(d, job, copy);
            var local := ResultKey(d.rows.jobs, t);
            var base := if local in d.bases then Some(d.bases[local]) else Lookup(d.marks, f);
            e == d.(running := Some(job.seqNo), flight := Renaming(f, t, base, Waiting))
  {
    hide ResultKey;
  }

  /** Running a job of one file: the hub ends up with what the replay of that job gives, in any world
      that agrees with the hub's objects and with the version the request names. */
  lemma {:induction false} JobIsReplayed(s: System, job: Job, copy: Key, p: Pending, agreed: map<Key, Digest>)
    requires Enabled(s, StartJob(job, copy)) && p.job == job && Asking(RunJob(s.mirror, job, copy).flight)
    requires Request(World(s.hub, agreed), p) == Some(RunJob(s.mirror, job, copy).flight)
    ensures var t := Next(s, StartJob(job, copy));
            Enabled(t, HubAnswers) && Next(t, HubAnswers).hub == Exec(World(s.hub, agreed), p).hub
  {
    hide RunJob, Exec, Objects, Verdict, Replied;
    ReplayIsTheHubsAnswer(World(s.hub, agreed), p);
  }
}
