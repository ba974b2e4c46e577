/** Explicit recovery from a bad upstream view: `push_local` and `pull_remote` of
    `src/mirror/recovery.rs`. */
module Recovery {
  import opened Options
  import opened Keys
  import opened Reconcile
  import opened Jobs
  import opened Tables
  import opened Replay

  /** How the work on one key goes: through; refused; ending the whole pass; overtaken by newer local
      work, which an upload does not undo and a download gives way to; or broken after the bytes
      have arrived, with the ledger not told. */
  datatype Outcome = Fine | Fails | Stops | Overtaken | Breaks(stop: bool)

  datatype Report = Report(created: set<Key>, replaced: set<Key>, same: set<Key>, downloaded: set<Key>,
                           kept: set<Key>, skipped: set<Key>, failed: set<Key>)

  const NOTHING: Report := Report({}, {}, {}, {}, {}, {}, {})

  /** Jobs that an upload of the key settles, and those that bringing it back undoes. */
  predicate SettledByPush(kind: JobKind, key: Key) {
    (kind.Push? || kind.ConflictUpload?) && kind.MainKey() == key
  }

  predicate UndoneByPull(kind: JobKind, key: Key) {
    (kind.Delete? || kind.Push? || kind.ConflictUpload? || kind.Rename?) && kind.MainKey() == key
  }

  /** Nothing in the queue uploads the key. */
  predicate NoUpload(jobs: seq<Job>, key: Key) {
    forall j <- jobs :: j.kind != JobKind.Push(key) && !(j.kind.ConflictUpload? && j.kind.key == key)
  }

  /** Nothing in the queue deletes the key, or moves its file away. */
  predicate NoRemoval(jobs: seq<Job>, key: Key) {
    forall j <- jobs :: !(j.kind.Delete? && j.kind.key == key) && !(j.kind.Rename? && j.kind.from == key)
  }

  /** No directory move is queued that the key is at an end of. */
  predicate NoMoveOver(jobs: seq<Job>, key: Key) {
    forall j <- jobs :: j.kind.RenameDir? ==> !Under(key, j.kind.from) && !Under(key, j.kind.to)
  }

  /** What is left in the queue when the row of a key says that it is agreed. Nothing uploads the key
      any more; and when the file was brought back, nothing deletes it or moves it away either. Every
      other job stays. */
  ghost predicate Cleared(was: seq<Job>, now: seq<Job>, key: Key, pulled: bool) {
    && (forall j <- now :: j in was) && NoUpload(now, key) && (pulled ==> NoRemoval(now, key))
    && forall j <- was ::
         || j in now || j.kind == JobKind.Push(key) || (j.kind.ConflictUpload? && j.kind.key == key)
         || (pulled && ((j.kind.Delete? && j.kind.key == key) || (j.kind.Rename? && j.kind.from == key)))
  }

  lemma {:induction false} RemainingIsCleared(jobs: seq<Job>, key: Key, pulled: bool)
    ensures Cleared(jobs, Remaining(jobs, key, pulled), key, pulled)
  {
  }

  function Remaining(jobs: seq<Job>, key: Key, pulled: bool): (r: seq<Job>)
    ensures forall j :: j in r <==> j in jobs && !(if pulled then UndoneByPull(j.kind, key) else SettledByPush(j.kind, key))
  {
    if jobs == [] then []
    else (if (if pulled then UndoneByPull(jobs[0].kind, key) else SettledByPush(jobs[0].kind, key)) then [] else [jobs[0]])
         + Remaining(jobs[1..], key, pulled)
  }

  /** The row and the base say that these bytes are agreed. */
  predicate Agreed(entries: map<Key, Entry>, bases: map<Key, Digest>, key: Key, sha: Digest) {
    && key in entries && entries[key].state.Clean? && entries[key].sha == sha
    && key in bases && bases[key] == sha
  }

  lemma {:induction false} AgreedNeedsNothing(entries: map<Key, Entry>, bases: map<Key, Digest>, key: Key, sha: Digest)
    requires Agreed(entries, bases, key, sha)
    ensures Decide(RowSha(entries, key), Lookup(bases, key), Some(sha)) == Nothing
  {
  }

  /** A table that has been cleared of one key stays clear of others. */
  lemma {:induction false} StillCleared(was: seq<Job>, now: seq<Job>, key: Key, pulled: bool)
    requires now == was || Cleared(was, now, key, pulled)
    ensures forall j <- now :: j in was
    ensures Cleared(was, now, key, pulled) ==> NoUpload(now, key) && (pulled ==> NoRemoval(now, key))
    ensures forall k :: NoUpload(was, k) ==> NoUpload(now, k)
    ensures forall k :: NoRemoval(was, k) ==> NoRemoval(now, k)
  {
  }

  // ── the reports ───────────────────────────────────────────────────────────

  /** A report with one more upload: of a new key, of another version, or of nothing new. */
  function Pushed(before: Report, hub: map<Key, Digest>, folder: map<Key, Digest>, key: Key): Report
    requires key in folder
  {
    if key !in hub then before.(created := before.created + {key})
    else if hub[key] == folder[key] then before.(same := before.same + {key})
    else before.(replaced := before.replaced + {key})
  }

  /** What a push of these keys has to tell, by what the hub had before. */
  ghost function PushReport(hub: map<Key, Digest>, folder: map<Key, Digest>, keys: set<Key>): Report {
    NOTHING.(created := (set k | k in keys && k in folder && k !in hub),
             replaced := (set k | k in keys && k in folder && k in hub && hub[k] != folder[k]),
             same := (set k | k in keys && k in folder && k in hub && hub[k] == folder[k]))
  }

  lemma {:induction false} NothingReported(hub: map<Key, Digest>, folder: map<Key, Digest>)
    ensures PushReport(hub, folder, folder.Keys - folder.Keys) == NOTHING
  {
  }

  lemma {:induction false} PushReported(was: map<Key, Digest>, hub: map<Key, Digest>, folder: map<Key, Digest>,
      left: set<Key>, key: Key)
    requires key in left && key in folder && Lookup(hub, key) == Lookup(was, key)
    ensures Pushed(PushReport(was, folder, folder.Keys - left), hub, folder, key) == PushReport(was, folder, folder.Keys - (left - {key}))
  {
    assert folder.Keys - (left - {key}) == (folder.Keys - left) + {key};
  }

  /** A report with one more file looked at: brought here, or here before. */
  function Pulled(before: Report, here: bool, key: Key): Report {
    if here then before.(kept := before.kept + {key}) else before.(downloaded := before.downloaded + {key})
  }

  /** What a pull of these keys has to tell, by what was here before. */
  function PullReport(had: set<Key>, keys: set<Key>): Report {
    NOTHING.(downloaded := keys - had, kept := keys * had)
  }

  lemma {:induction false} NothingPulledReported(had: set<Key>, all: set<Key>)
    ensures PullReport(had, all - all) == NOTHING
  {
  }

  lemma {:induction false} PullReported(all: set<Key>, had: set<Key>, left: set<Key>, key: Key)
    requires key in left && left <= all
    ensures Pulled(PullReport(had, all - left), key in had, key) == PullReport(had, all - (left - {key}))
  {
    assert all - (left - {key}) == (all - left) + {key};
  }

  /** What no queued job uploads, removes or moves stays on the hub as it is. */
  lemma {:induction false} JobSpares(w: World, p: Pending, jobs: seq<Job>, k: Key)
    requires p.job in jobs && k in w.hub && NoUpload(jobs, k) && NoRemoval(jobs, k) && NoMoveOver(jobs, k)
    ensures Lookup(Exec(w, p).hub, k) == Some(w.hub[k])
  {
    if p.job.kind.RenameDir? {
      ExecFrame(w, p, k);
    }
  }

  lemma {:induction false} QueueSpares(w: World, ps: seq<Pending>, jobs: seq<Job>, k: Key)
    requires (forall p <- ps :: p.job in jobs) && k in w.hub && NoUpload(jobs, k) && NoRemoval(jobs, k) && NoMoveOver(jobs, k)
    ensures Lookup(ExecAll(w, ps).hub, k) == Some(w.hub[k])
    decreases |ps|
  {
    hide NoUpload, NoRemoval, NoMoveOver, Exec;
    if ps != [] {
      JobSpares(w, ps[0], jobs, k);
      QueueSpares(Exec(w, ps[0]), ps[1..], jobs, k);
    }
  }

  class Replica {
    var folder: map<Key, Digest>
    var hub: map<Key, Digest>
    var entries: map<Key, Entry>
    var bases: map<Key, Digest>
    var jobs: seq<Job>
    /** open for writing, excluded, under a pending directory move, or not reachable safely */
    const barred: set<Key>
    const network: Key -> Outcome

    method DropJobs(key: Key, pulled: bool)
      modifies this`jobs
      ensures jobs == Remaining(old(jobs), key, pulled)
    {
      hide UndoneByPull, SettledByPush;
      var rest: seq<Job> := [];
      assert jobs[0..] == jobs;
      for i := 0 to |jobs|
        invariant jobs == old(jobs) && rest + Remaining(jobs[i..], key, pulled) == Remaining(jobs, key, pulled)
      {
        RemainingStep(rest, jobs, i, key, pulled);
        if !(if pulled then UndoneByPull(jobs[i].kind, key) else SettledByPush(jobs[i].kind, key)) {
          rest := rest + [jobs[i]];
        }
      }
      assert jobs[|jobs|..] == [] && rest + [] == rest;
      jobs := rest;
    }

    /** Note that the bytes of a key are agreed with the hub. */
    method Agree(key: Key, sha: Digest, pulled: bool)
      modifies this`entries, this`bases, this`jobs
      ensures Agreed(entries, bases, key, sha) && Cleared(old(jobs), jobs, key, pulled)
      ensures forall k, x :: k != key ==> (Agreed(entries, bases, k, x) <==> old(Agreed(entries, bases, k, x)))
    {
      var mtime := if key in entries then entries[key].mtime else 0;
      entries := entries[key := Entry(sha, mtime, Clean)];
      bases := bases[key := sha];
      RemainingIsCleared(jobs, key, pulled);
      DropJobs(key, pulled);
    }

    /** `push_recovery_file`: the local bytes go up, replacing at most the version just seen. */
    method PushFile(key: Key, dryRun: bool, before: Report) returns (report: Report, stop: bool)
      requires key in folder
      modifies this`hub, this`entries, this`bases, this`jobs
      ensures forall k :: k != key ==> Lookup(hub, k) == Lookup(old(hub), k)
      ensures key in old(hub) ==> key in hub
      ensures hub != old(hub) ==> !dryRun && Lookup(hub, key) == Some(folder[key])
      ensures dryRun ==> entries == old(entries) && bases == old(bases) && jobs == old(jobs)
      ensures !dryRun && key !in barred && network(key).Fine? ==>
                Lookup(hub, key) == Some(folder[key]) && Agreed(entries, bases, key, folder[key]) && Cleared(old(jobs), jobs, key, false)
      ensures jobs == old(jobs) || Cleared(old(jobs), jobs, key, false)
      ensures forall k, x :: k != key && old(Agreed(entries, bases, k, x)) ==> Agreed(entries, bases, k, x)
      ensures stop ==> !(network(key).Fine? || key in barred)
      ensures key !in barred && network(key).Fine? ==> report == Pushed(before, old(hub), folder, key)
      ensures key in barred ==> report == before.(skipped := before.skipped + {key})
      ensures key !in barred && (network(key).Fails? || network(key).Stops? || (network(key).Breaks? && !dryRun)) ==>
                report == before.(failed := before.failed + {key})
    {
      report, stop := before, false;
      if key in barred {
        return before.(skipped := before.skipped + {key}), false;
      }
      if network(key).Fails? || network(key).Stops? {
        return before.(failed := before.failed + {key}), network(key).Stops?;
      }
      var sha, seen := folder[key], Lookup(hub, key);
      if seen.None? {
        report := before.(created := before.created + {key});
      } else if seen.value == sha {
        report := before.(same := before.same + {key});
      } else {
        report := before.(replaced := before.replaced + {key});
      }
      if !dryRun {
        if seen != Some(sha) {
          hub := hub[key := sha];
        }
        if network(key).Breaks? {
          return before.(failed := before.failed + {key}), network(key).stop;
        }
        if network(key).Fine? {
          Agree(key, sha, false);
        }
      }
    }

    /** Nothing stands in the way of these keys. */
    predicate Clear(keys: set<Key>) {
      forall k <- keys :: k !in barred && network(k).Fine?
    }

    lemma {:induction false} ClearAt(keys: set<Key>, key: Key)
      requires key in keys
      ensures Clear(keys) ==> key !in barred && network(key).Fine?
    {
    }

    /** `push_local`: every local file. */
    method PushLocal(dryRun: bool) returns (report: Report)
      modifies this`hub, this`entries, this`bases, this`jobs
      ensures forall k :: PushFate(old(hub), hub, folder, dryRun, k)
      ensures dryRun ==> hub == old(hub) && entries == old(entries) && bases == old(bases) && jobs == old(jobs)
      ensures !dryRun && Clear(folder.Keys) ==> hub == old(hub) + folder && forall k <- folder :: Agreed(entries, bases, k, folder[k])
      ensures !dryRun && Clear(folder.Keys) ==> forall k <- folder :: NoUpload(jobs, k)
      ensures forall j <- jobs :: j in old(jobs)
      ensures Clear(folder.Keys) ==> report == PushReport(old(hub), folder, folder.Keys)
    {
      hide Agreed, PushFate, PushReport, Pushed, Cleared, NoUpload, NoRemoval, Clear;
      report := NOTHING;
      var left := folder.Keys;
      ghost var was := hub;
      NothingPushed(was, folder, dryRun);
      NothingReported(was, folder);
      while left != {}
        invariant left <= folder.Keys && forall k :: PushFate(was, hub, folder, dryRun, k)
        invariant dryRun ==> hub == was && entries == old(entries) && bases == old(bases) && jobs == old(jobs)
        invariant !dryRun && Clear(folder.Keys) ==>
                    forall k <- folder :: k !in left ==> Lookup(hub, k) == Some(folder[k]) && Agreed(entries, bases, k, folder[k])
        invariant !dryRun && Clear(folder.Keys) ==> forall k <- folder :: k !in left ==> NoUpload(jobs, k)
        invariant forall j <- jobs :: j in old(jobs)
        invariant forall k <- left :: Lookup(hub, k) == Lookup(was, k)
        invariant Clear(folder.Keys) ==> report == PushReport(was, folder, folder.Keys - left)
        decreases |left|
      {
        var key :| key in left;
        ghost var mid := hub;
        PushReported(was, hub, folder, left, key);
        ClearAt(folder.Keys, key);
        var stop;
        ghost var table := jobs;
        report, stop := PushFile(key, dryRun, report);
        StillCleared(table, jobs, key, false);
        PushedOne(was, mid, hub, folder, dryRun, key);
        left := left - {key};
        if stop {
          assert !Clear(folder.Keys);
          break;
        }
      }
      assert left == {} ==> folder.Keys - left == folder.Keys;
      if !dryRun && Clear(folder.Keys) {
        PushMerges(was, hub, folder);
      }
    }

    /** `pull_recovery_file`: a file that is absent here comes down; nothing local is replaced. */
    method PullFile(key: Key, dryRun: bool, before: Report) returns (report: Report, stop: bool)
      requires key in hub
      modifies this`folder, this`entries, this`bases, this`jobs
      ensures forall k <- old(folder) :: k in folder && folder[k] == old(folder)[k]
      ensures forall k :: k != key ==> Lookup(folder, k) == Lookup(old(folder), k)
      ensures folder != old(folder) ==> !dryRun && key !in old(folder) && Lookup(folder, key) == Some(hub[key])
      ensures dryRun ==> entries == old(entries) && bases == old(bases) && jobs == old(jobs)
      ensures key in old(folder) ==> entries == old(entries) && bases == old(bases) && jobs == old(jobs)
      ensures !dryRun && key !in barred && network(key).Fine? && key !in old(folder) ==>
                && Lookup(folder, key) == Some(hub[key]) && Agreed(entries, bases, key, hub[key])
                && Cleared(old(jobs), jobs, key, true)
      ensures jobs == old(jobs) || Cleared(old(jobs), jobs, key, true)
      ensures forall k, x :: k != key && old(Agreed(entries, bases, k, x)) ==> Agreed(entries, bases, k, x)
      ensures old(Agreed(entries, bases, key, hub[key])) ==> Agreed(entries, bases, key, hub[key])
      ensures stop ==> !(network(key).Fine? || key in barred || key in old(folder))
      ensures key in old(folder) || (key !in barred && (dryRun || network(key).Fine?)) ==> report == Pulled(before, key in old(folder), key)
      ensures key !in old(folder) && key in barred ==> report == before.(skipped := before.skipped + {key})
      ensures key !in old(folder) && key !in barred && !dryRun && !network(key).Fine? && !network(key).Overtaken? ==>
                report == before.(failed := before.failed + {key})
    {
      stop := false;
      if key in folder {
        return before.(kept := before.kept + {key}), false;
      }
      if key in barred {
        return before.(skipped := before.skipped + {key}), false;
      }
      report := before.(downloaded := before.downloaded + {key});
      if dryRun {
        return;
      }
      if network(key).Fails? || network(key).Stops? {
        return before.(failed := before.failed + {key}), network(key).Stops?;
      }
      if network(key).Overtaken? {
        return before.(kept := before.kept + {key}), false;
      }
      folder := folder[key := hub[key]];
      if network(key).Breaks? {
        return before.(failed := before.failed + {key}), network(key).stop;
      }
      Agree(key, hub[key], true);
    }

    /** `pull_remote`: every object of the listing. */
    method PullRemote(dryRun: bool) returns (report: Report)
      modifies this`folder, this`entries, this`bases, this`jobs
      ensures forall k :: PullFate(old(folder), folder, hub, dryRun, k)
      ensures dryRun ==> folder == old(folder) && entries == old(entries) && bases == old(bases) && jobs == old(jobs)
      ensures forall k <- hub :: old(Agreed(entries, bases, k, hub[k])) ==> Agreed(entries, bases, k, hub[k])
      ensures !dryRun && Clear(hub.Keys) ==>
                folder == hub + old(folder) && forall k <- hub :: k !in old(folder) ==> Agreed(entries, bases, k, hub[k])
      ensures !dryRun && Clear(hub.Keys) ==> forall k <- hub :: k !in old(folder) ==> NoUpload(jobs, k) && NoRemoval(jobs, k)
      ensures forall j <- jobs :: j in old(jobs)
      ensures Clear(hub.Keys) ==> report == PullReport(old(folder).Keys, hub.Keys)
    {
      hide Agreed, PullFate, UndoneByPull, PullReport, Pulled, Cleared, NoUpload, NoRemoval, Clear;
      report := NOTHING;
      var left := hub.Keys;
      ghost var was, rows, versions, table := folder, entries, bases, jobs;
      NothingPulled(was, hub, dryRun);
      NothingPulledReported(was.Keys, hub.Keys);
      while left != {}
        invariant left <= hub.Keys && forall k :: PullFate(was, folder, hub, dryRun, k)
        invariant forall k <- left :: Lookup(folder, k) == Lookup(was, k)
        invariant dryRun ==> folder == was && entries == rows && bases == versions && jobs == table
        invariant forall k <- hub :: Agreed(rows, versions, k, hub[k]) ==> Agreed(entries, bases, k, hub[k])
        invariant !dryRun && Clear(hub.Keys) ==>
                    forall k <- hub :: k !in left ==>
                      k in folder && (k in was || (Agreed(entries, bases, k, hub[k]) && NoUpload(jobs, k) && NoRemoval(jobs, k)))
        invariant forall j <- jobs :: j in table
        invariant Clear(hub.Keys) ==> report == PullReport(was.Keys, hub.Keys - left)
        decreases |left|
      {
        var key :| key in left;
        ghost var mid := folder;
        PullReported(hub.Keys, was.Keys, left, key);
        ClearAt(hub.Keys, key);
        var stop;
        ghost var before := jobs;
        report, stop := PullFile(key, dryRun, report);
        StillCleared(before, jobs, key, true);
        PulledOne(was, mid, folder, hub, dryRun, key);
        left := left - {key};
        if stop {
          assert !Clear(hub.Keys);
          break;
        }
      }
      assert left == {} ==> hub.Keys - left == hub.Keys;
      if !dryRun && Clear(hub.Keys) {
        PullMerges(was, folder, hub);
      }
    }

    /** Push, then pull, with nothing in the way: both sides hold the union, local contents win,
        and the ledger asks for nothing more on any of its keys. Nothing that is still queued uploads
        any of them; what was brought back, and every key that no queued job deletes or renames, stays
        on the hub with its bytes whatever of the queue runs next, directory moves apart. */
    method PushThenPull() returns (pushed: Report, pulled: Report)
      requires Clear(folder.Keys + hub.Keys)
      modifies this
      ensures folder == hub == old(hub) + old(folder)
      ensures forall k <- hub :: Decide(RowSha(entries, k), Lookup(bases, k), Some(hub[k])) == Nothing
      ensures forall k <- hub :: NoUpload(jobs, k) && (k !in old(folder) ==> NoRemoval(jobs, k))
      ensures forall k, ps: seq<Pending> :: k in hub && (forall p <- ps :: p.job in jobs) && NoRemoval(jobs, k) && NoMoveOver(jobs, k) ==>
                Lookup(ExecAll(World(hub, bases), ps).hub, k) == Some(hub[k])
    {
      hide Agreed, PushFate, PullFate, Decide, RowSha;
      pushed := PushLocal(false);
      assert hub.Keys == old(hub).Keys + folder.Keys;
      ghost var merged := hub;
      pulled := PullRemote(false);
      UnionIs(old(hub), old(folder));
      forall k | k in hub ensures Decide(RowSha(entries, k), Lookup(bases, k), Some(hub[k])) == Nothing {
        AgreedNeedsNothing(entries, bases, k, hub[k]);
      }
      forall k, ps: seq<Pending> | k in hub && (forall p <- ps :: p.job in jobs) && NoRemoval(jobs, k) && NoMoveOver(jobs, k)
        ensures Lookup(ExecAll(World(hub, bases), ps).hub, k) == Some(hub[k])
      {
        QueueSpares(World(hub, bases), ps, jobs, k);
      }
    }
  }

  /** What a push may do to a hub key: nothing, or the local file's bytes. */
  ghost predicate PushFate(was: map<Key, Digest>, now: map<Key, Digest>, folder: map<Key, Digest>, dryRun: bool, k: Key) {
    Lookup(now, k) == Lookup(was, k) || (!dryRun && k in folder && Lookup(now, k) == Some(folder[k]))
  }

  /** What a pull may do to a local name: nothing, or the hub's bytes where nothing was. */
  ghost predicate PullFate(was: map<Key, Digest>, now: map<Key, Digest>, hub: map<Key, Digest>, dryRun: bool, k: Key) {
    Lookup(now, k) == Lookup(was, k) || (!dryRun && k !in was && k in hub && Lookup(now, k) == Some(hub[k]))
  }

  /** A push alone removes no hub file; a pull alone changes no local file. */
  lemma {:induction false} PushRemovesNothing(was: map<Key, Digest>, now: map<Key, Digest>, folder: map<Key, Digest>,
      dryRun: bool)
    requires forall k :: PushFate(was, now, folder, dryRun, k)
    ensures was.Keys <= now.Keys
  {
    forall k | k in was ensures k in now {
      assert PushFate(was, now, folder, dryRun, k);
    }
  }

  lemma {:induction false} PullChangesNothing(was: map<Key, Digest>, now: map<Key, Digest>, hub: map<Key, Digest>,
      dryRun: bool)
    requires forall k :: PullFate(was, now, hub, dryRun, k)
    ensures forall k <- was :: k in now && now[k] == was[k]
  {
    forall k | k in was ensures k in now && now[k] == was[k] {
      assert PullFate(was, now, hub, dryRun, k);
    }
  }

  lemma {:induction false} NothingPushed(hub: map<Key, Digest>, folder: map<Key, Digest>, dryRun: bool)
    ensures forall k :: PushFate(hub, hub, folder, dryRun, k)
  {
  }

  lemma {:induction false} PushedOne(was: map<Key, Digest>, mid: map<Key, Digest>, now: map<Key, Digest>,
      folder: map<Key, Digest>, dryRun: bool, key: Key)
    requires (forall k :: PushFate(was, mid, folder, dryRun, k)) && key in folder
    requires forall k :: k != key ==> Lookup(now, k) == Lookup(mid, k)
    requires now != mid ==> !dryRun && Lookup(now, key) == Some(folder[key])
    ensures forall k :: PushFate(was, now, folder, dryRun, k)
  {
    forall k ensures PushFate(was, now, folder, dryRun, k) {
      assert PushFate(was, mid, folder, dryRun, k);
    }
  }

  lemma {:induction false} NothingPulled(folder: map<Key, Digest>, hub: map<Key, Digest>, dryRun: bool)
    ensures forall k :: PullFate(folder, folder, hub, dryRun, k)
  {
  }

  lemma {:induction false} PulledOne(was: map<Key, Digest>, mid: map<Key, Digest>, now: map<Key, Digest>,
      hub: map<Key, Digest>, dryRun: bool, key: Key)
    requires (forall k :: PullFate(was, mid, hub, dryRun, k)) && key in hub
    requires forall k :: k != key ==> Lookup(now, k) == Lookup(mid, k)
    requires now != mid ==> !dryRun && key !in mid && Lookup(now, key) == Some(hub[key])
    ensures forall k :: PullFate(was, now, hub, dryRun, k)
  {
    forall k ensures PullFate(was, now, hub, dryRun, k) {
      assert PullFate(was, mid, hub, dryRun, k);
    }
  }

  lemma {:induction false} SameEverywhere(m: map<Key, Digest>, n: map<Key, Digest>)
    requires forall k :: Lookup(m, k) == Lookup(n, k)
    ensures m == n
  {
    forall k ensures k in m <==> k in n {
      assert Lookup(m, k) == Lookup(n, k);
    }
    forall k | k in m ensures m[k] == n[k] {
      assert Lookup(m, k) == Lookup(n, k);
    }
  }

  lemma {:induction false} PushMerges(was: map<Key, Digest>, now: map<Key, Digest>, folder: map<Key, Digest>)
    requires forall k :: PushFate(was, now, folder, false, k)
    requires forall k <- folder :: Lookup(now, k) == Some(folder[k])
    ensures now == was + folder
  {
    forall k ensures Lookup(now, k) == Lookup(was + folder, k) {
      assert PushFate(was, now, folder, false, k);
    }
    SameEverywhere(now, was + folder);
  }

  lemma {:induction false} PullMerges(was: map<Key, Digest>, now: map<Key, Digest>, hub: map<Key, Digest>)
    requires forall k :: PullFate(was, now, hub, false, k)
    requires forall k <- hub :: k in now
    ensures now == hub + was
  {
    forall k ensures Lookup(now, k) == Lookup(hub + was, k) {
      assert PullFate(was, now, hub, false, k);
    }
    SameEverywhere(now, hub + was);
  }

  lemma {:induction false} RemainingHead(jobs: seq<Job>, i: nat, key: Key, pulled: bool)
    requires i < |jobs|
    ensures var gone := if pulled then UndoneByPull(jobs[i].kind, key) else SettledByPush(jobs[i].kind, key);
            Remaining(jobs[i..], key, pulled) == if gone then Remaining(jobs[i + 1..], key, pulled) else [jobs[i]] + Remaining(jobs[i + 1..], key, pulled)
  {
    hide UndoneByPull, SettledByPush;
    assert jobs[i..][1..] == jobs[i + 1..];
    assert [] + Remaining(jobs[i + 1..], key, pulled) == Remaining(jobs[i + 1..], key, pulled);
  }

  lemma {:induction false} Regroup(a: seq<Job>, j: Job, b: seq<Job>)
    ensures (a + [j]) + b == a + ([j] + b)
  {
  }

  lemma {:induction false} RemainingStep(done: seq<Job>, jobs: seq<Job>, i: nat, key: Key, pulled: bool)
    requires i < |jobs| && done + Remaining(jobs[i..], key, pulled) == Remaining(jobs, key, pulled)
    ensures var gone := if pulled then UndoneByPull(jobs[i].kind, key) else SettledByPush(jobs[i].kind, key);
            (if gone then done else done + [jobs[i]]) + Remaining(jobs[i + 1..], key, pulled) == Remaining(jobs, key, pulled)
  {
    hide *;
    RemainingHead(jobs, i, key, pulled);
    Regroup(done, jobs[i], Remaining(jobs[i + 1..], key, pulled));
  }

  lemma {:induction false} UnionIs(hub: map<Key, Digest>, folder: map<Key, Digest>)
    ensures (hub + folder) + folder == hub + folder
  {
  }
}
