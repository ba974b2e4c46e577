/** The durable write-back queue's vocabulary (`src/mirror/store.rs`). */
module Jobs {
  import opened Options
  import opened Keys
  import opened Reconcile

  datatype JobKind =
    | Push(key: Key)
    | Delete(key: Key, ifMatch: Option<Digest>)
    | Rename(from: Key, to: Key)
    /** A durable directory move intent; `dirId` stands for device, inode and directory identity. */
    | RenameDir(from: Key, to: Key, operation: string, dirId: nat, localApplied: bool, remote: bool)
    | ConflictUpload(key: Key, localSha: Digest, baseSha: Option<Digest>)
    | Mkdir(key: Key)
    | Rmdir(key: Key)
  {
    /** The key a job holds while it runs. */
    function MainKey(): Key {
      if Rename? || RenameDir? then from else key
    }

    /** The second key of a rename; the only key of everything else. */
    function OtherKey(): Key {
      if Rename? || RenameDir? then to else key
    }

    /** Every key the job touches (a rename holds two). */
    function Touched(): set<Key> {
      {MainKey(), OtherKey()}
    }

    /** One pending job per id. */
    function DedupeId(): string {
      match this
      case Push(k) => "push|" + k
      case Delete(k, _) => "delete|" + k
      case Rename(f, t) => "rename|" + f + "|" + t
      case RenameDir(_, _, op, _, _, _) => "rename_dir|" + op
      case ConflictUpload(k, _, _) => "conflict|" + k
      case Mkdir(k) => "mkdir|" + k
      case Rmdir(k) => "rmdir|" + k
    }
  }

  /** Some key of one overlaps some key of the other. */
  predicate KindsOverlap(a: JobKind, b: JobKind) {
    || Overlaps(a.MainKey(), b.MainKey()) || Overlaps(a.MainKey(), b.OtherKey())
    || Overlaps(a.OtherKey(), b.MainKey()) || Overlaps(a.OtherKey(), b.OtherKey())
  }

  lemma {:induction false} KindsOverlapSymmetric(a: JobKind, b: JobKind)
    ensures KindsOverlap(a, b) <==> KindsOverlap(b, a)
  {
  }

  datatype Priority = Background | Discovered | Interactive {
    function Rank(): nat {
      match this case Background => 0 case Discovered => 1 case Interactive => 2
    }
  }

  /** `attempts` and `not_before` live beside the row: they decide only when a job may run. */
  datatype Job = Job(seqNo: nat, kind: JobKind, priority: Priority)

  predicate JobsOverlap(a: Job, b: Job) { KindsOverlap(a.kind, b.kind) }

  // ── what the dedupe id identifies ─────────────────────────────────────────

  /** What the id is documented to stand for: the kind of work and the key it is about. */
  predicate SameWork(a: JobKind, b: JobKind) {
    match a
    case Push(k) => b.Push? && b.key == k
    case Delete(k, _) => b.Delete? && b.key == k
    case Rename(f, t) => b.Rename? && b.from == f && b.to == t
    case RenameDir(_, _, op, _, _, _) => b.RenameDir? && b.operation == op
    case ConflictUpload(k, _, _) => b.ConflictUpload? && b.key == k
    case Mkdir(k) => b.Mkdir? && b.key == k
    case Rmdir(k) => b.Rmdir? && b.key == k
  }

  lemma {:induction false} SameTail(p: string, a: string, b: string)
    ensures p + a == p + b <==> a == b
  {
    assert (p + a)[|p|..] == a && (p + b)[|p|..] == b;
  }

  lemma {:induction false} BarSplitsUniquely(a: string, b: string, c: string, d: string)
    requires '|' !in a && '|' !in c && a + "|" + b == c + "|" + d
    ensures a == c && b == d
  {
    SplitPrefix(a, b, '|');
    SplitPrefix(c, d, '|');
    assert a == (Split(a + "|" + b, '|'))[0] == c;
    assert a + "|" + b == (a + "|") + b && c + "|" + d == (a + "|") + d;
    SameTail(a + "|", b, d);
  }

  lemma {:induction false} TagsDiffer(a: JobKind, b: JobKind)
    requires a.DedupeId() == b.DedupeId()
    ensures a.Push? <==> b.Push?
    ensures a.Delete? <==> b.Delete?
    ensures a.Rename? <==> b.Rename?
    ensures a.RenameDir? <==> b.RenameDir?
    ensures a.ConflictUpload? <==> b.ConflictUpload?
    ensures a.Mkdir? <==> b.Mkdir?
    ensures a.Rmdir? <==> b.Rmdir?
  {
    var s, t := a.DedupeId(), b.DedupeId();
    assert s[0] == t[0] && s[1] == t[1] && s[4] == t[4];
    assert (a.Rename? ==> s[6] == '|') && (a.RenameDir? ==> s[6] == '_');
    assert (b.Rename? ==> t[6] == '|') && (b.RenameDir? ==> t[6] == '_');
  }

  /** The id identifies the work, provided the sources of renames contain no bar. */
  lemma {:induction false} DedupeIdentifiesWork(a: JobKind, b: JobKind)
    requires a.Rename? ==> '|' !in a.from
    requires b.Rename? ==> '|' !in b.from
    ensures a.DedupeId() == b.DedupeId() <==> SameWork(a, b)
  {
    if a.DedupeId() == b.DedupeId() {
      TagsDiffer(a, b);
      match a
      case Push(k) => SameTail("push|", k, b.key);
      case Delete(k, _) => SameTail("delete|", k, b.key);
      case Rename(f, t) =>
        assert a.DedupeId() == "rename|" + (f + "|" + t);
        assert b.DedupeId() == "rename|" + (b.from + "|" + b.to);
        SameTail("rename|", f + "|" + t, b.from + "|" + b.to);
        BarSplitsUniquely(f, t, b.from, b.to);
      case RenameDir(_, _, op, _, _, _) => SameTail("rename_dir|", op, b.operation);
      case ConflictUpload(k, _, _) => SameTail("conflict|", k, b.key);
      case Mkdir(k) => SameTail("mkdir|", k, b.key);
      case Rmdir(k) => SameTail("rmdir|", k, b.key);
    }
  }

  lemma {:induction false} BarPositions(a: string, b: string, k: nat)
    requires k < |a + "|" + b| && '|' !in a && '|' !in b
    ensures (a + "|" + b)[k] == '|' <==> k == |a|
  {
    var s := a + "|" + b;
    if k < |a| {
      assert s[k] == a[k] && a[k] in a;
    } else if k > |a| {
      assert s[k] == b[k - |a| - 1] && b[k - |a| - 1] in b;
    }
  }

  /** Another rename that has the id of one with a bar in a name. */
  lemma {:induction false} AnotherRename(a: JobKind) returns (b: JobKind)
    requires a.Rename? && ('|' in a.from || '|' in a.to)
    ensures b.DedupeId() == a.DedupeId() && !SameWork(a, b)
  {
    if '|' in a.from {
      var k :| 0 <= k < |a.from| && a.from[k] == '|';
      var head, tail := a.from[..k], a.from[k + 1..];
      b := Rename(head, tail + "|" + a.to);
      assert a.from == head + "|" + tail;
      Regroup(head, tail, a.to);
    } else {
      var k :| 0 <= k < |a.to| && a.to[k] == '|';
      var head, tail := a.to[..k], a.to[k + 1..];
      b := Rename(a.from + "|" + head, tail);
      assert a.to == head + "|" + tail;
      Regroup(a.from, head, tail);
    }
    assert |a.from| != |b.from|;
  }

  /** Where the bars between three names are put together does not show. */
  lemma {:induction false} Regroup(x: string, y: string, z: string)
    ensures Rename(x, y + "|" + z).DedupeId() == Rename(x + "|" + y, z).DedupeId()
  {
    assert x + "|" + (y + "|" + z) == (x + "|" + y) + "|" + z;
    assert "rename|" + x + "|" + (y + "|" + z) == "rename|" + (x + "|" + (y + "|" + z));
    assert "rename|" + (x + "|" + y) + "|" + z == "rename|" + ((x + "|" + y) + "|" + z);
  }

  /** Exactly the renames with a bar in a name share their id with other work: queueing that work
      drops them. */
  lemma {:induction false} SharedIds(a: JobKind)
    ensures (exists b: JobKind :: b.DedupeId() == a.DedupeId() && !SameWork(a, b)) <==> a.Rename? && ('|' in a.from || '|' in a.to)
  {
    if a.Rename? && ('|' in a.from || '|' in a.to) {
      var b := AnotherRename(a);
    } else if b: JobKind :| b.DedupeId() == a.DedupeId() && !SameWork(a, b) {
      TagsDiffer(a, b);
      if b.Rename? && '|' in b.from {
        OneBarOnly(a, b);
      }
      DedupeIdentifiesWork(a, b);
    }
  }

  lemma {:induction false} OneBarOnly(a: JobKind, b: JobKind)
    requires a.Rename? && b.Rename? && a.DedupeId() == b.DedupeId() && '|' !in a.from && '|' !in a.to
    ensures '|' !in b.from
  {
    var whole := a.from + "|" + a.to;
    assert a.DedupeId() == "rename|" + whole && b.DedupeId() == "rename|" + (b.from + "|" + b.to);
    SameTail("rename|", whole, b.from + "|" + b.to);
    forall k | 0 <= k < |b.from| ensures b.from[k] != '|' {
      assert whole[k] == b.from[k] && whole[|b.from|] == '|';
      BarPositions(a.from, a.to, k);
      BarPositions(a.from, a.to, |b.from|);
    }
  }
}
