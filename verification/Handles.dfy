/** Open Home handles of a mirrored mount: the write states of `src/writes.rs`. */
module Handles {
  import opened Options
  import opened HomeTree

  /** One write state per file, shared by its opens. `path`, `dir` and `name` say where a flush
      commits to; `unlinked` that the file has lost its name. */
  datatype OpenWrite = OpenWrite(path: Path, dir: nat, name: string, unlinked: bool, dirty: bool, refs: nat)

  type States = map<nat, OpenWrite>
  type Pending = map<nat, (nat, string)>
  type PendingNames = map<(nat, string), nat>

  // ── where a file is ───────────────────────────────────────────────────────

  /** The current path of a file: a pending create's name below its directory, or its node's. */
  function Current(nodes: Nodes, overlay: Pending, i: nat): Option<Path> {
    if i in overlay then
      if overlay[i].0 in nodes then Some(nodes[overlay[i].0].path + [overlay[i].1]) else None
    else if i in nodes then Some(nodes[i].path)
    else None
  }

  ghost predicate PendingAt(nodes: Nodes, names: PendingNames, i: nat, d: nat, n: string) {
    && i !in nodes && d in nodes && nodes[d].content.Dir?
    && (d, n) in names && names[(d, n)] == i && !Taken(nodes, nodes[d].path + [n])
  }

  /** Pending creates have names that nothing else has, in directories that exist. */
  ghost predicate PendingOk(nodes: Nodes, overlay: Pending, names: PendingNames) {
    && (forall i <- overlay :: PendingAt(nodes, names, i, overlay[i].0, overlay[i].1))
    && (forall k <- names :: names[k] in overlay && overlay[names[k]] == k)
  }

  /** A live handle's target is its file's current path; an unlinked one has no file any more. */
  ghost predicate Follows(nodes: Nodes, overlay: Pending, i: nat, s: OpenWrite) {
    && (s.unlinked ==> i !in nodes && i !in overlay)
    && (!s.unlinked ==>
          && Current(nodes, overlay, i) == Some(s.path)
          && (i in overlay ==> overlay[i] == (s.dir, s.name))
          && (i !in overlay ==> nodes[i].parent == s.dir && nodes[i].name == s.name && nodes[i].content.File?))
  }

  /** Every handle follows its file, and every pending create has a handle. */
  ghost predicate Tied(nodes: Nodes, states: States, overlay: Pending) {
    && (forall i <- overlay :: i in states && !states[i].unlinked)
    && (forall i <- states :: Follows(nodes, overlay, i, states[i]))
  }

  function Targets(states: States): set<Path> {
    set i | i in states && !states[i].unlinked :: states[i].path
  }

  // ── names are not shared ──────────────────────────────────────────────────

  lemma {:induction false} FreeMeans(nodes: Nodes, path: Path, j: nat)
    ensures !Taken(nodes, path) ==> !(j in nodes && nodes[j].path == path)
  {
    assert j in nodes && nodes[j].path == path ==> Names(nodes, j, path);
  }

  lemma {:induction false} PendingPathsDiffer(nodes: Nodes, overlay: Pending, names: PendingNames, i: nat, j: nat)
    requires Shape(nodes) && PendingOk(nodes, overlay, names) && i in overlay
    requires Current(nodes, overlay, i) == Current(nodes, overlay, j)
    ensures i == j
  {
    hide Shape, Taken;
    var p, n := nodes[overlay[i].0].path, overlay[i].1;
    FreeMeans(nodes, p + [n], j);
    if j in overlay {
      assert PendingAt(nodes, names, i, overlay[i].0, overlay[i].1) && PendingAt(nodes, names, j, overlay[j].0, overlay[j].1);
      SameEnd(p, n, nodes[overlay[j].0].path, overlay[j].1);
      SameKey(nodes, overlay[i].0, overlay[j].0);
    }
  }

  /** Two live handles never have the same target. */
  lemma {:induction false} TargetsDiffer(nodes: Nodes, states: States, overlay: Pending, names: PendingNames, i: nat, j: nat)
    requires Shape(nodes) && PendingOk(nodes, overlay, names) && Tied(nodes, states, overlay)
    requires i in states && j in states && !states[i].unlinked && !states[j].unlinked && states[i].path == states[j].path
    ensures i == j
  {
    hide Shape, PendingOk;
    assert Follows(nodes, overlay, i, states[i]) && Follows(nodes, overlay, j, states[j]);
    if i in overlay {
      PendingPathsDiffer(nodes, overlay, names, i, j);
    } else if j in overlay {
      PendingPathsDiffer(nodes, overlay, names, j, i);
    } else {
      SameKey(nodes, i, j);
    }
  }

  // ── the set of targets ────────────────────────────────────────────────────

  lemma {:induction false} IsTarget(states: States, i: nat)
    requires i in states && !states[i].unlinked
    ensures states[i].path in Targets(states)
  {
  }

  lemma {:induction false} TargetJoins(states: States, i: nat, s: OpenWrite)
    requires i !in states && !s.unlinked
    ensures Targets(states[i := s]) == Targets(states) + {s.path}
  {
    var more := states[i := s];
    forall p ensures p in Targets(more) <==> p in Targets(states) + {s.path} {
      if j :| j in states && !states[j].unlinked && states[j].path == p {
        assert more[j] == states[j];
      }
      if p == s.path {
        IsTarget(more, i);
      }
      if j :| j in more && !more[j].unlinked && more[j].path == p && j != i {
        assert more[j] == states[j];
      }
    }
  }

  lemma {:induction false} TargetsStay(states: States, i: nat, s: OpenWrite)
    requires i in states && s.path == states[i].path && s.unlinked == states[i].unlinked
    ensures Targets(states[i := s]) == Targets(states)
  {
    var more := states[i := s];
    forall p ensures p in Targets(more) <==> p in Targets(states) {
      if j :| j in states && !states[j].unlinked && states[j].path == p {
        assert j in more && more[j].path == p && !more[j].unlinked;
      }
      if j :| j in more && !more[j].unlinked && more[j].path == p {
        assert j in states && states[j].path == p && !states[j].unlinked;
      }
    }
  }

  lemma {:induction false} TargetOfOne(states: States, i: nat)
    requires i in states && !states[i].unlinked
    requires forall j <- states :: !states[j].unlinked && states[j].path == states[i].path ==> j == i
    ensures Targets(states - {i}) == Targets(states) - {states[i].path}
  {
    forall p ensures p in Targets(states) - {states[i].path} <==> p in Targets(states - {i}) {
      if j :| j in states && !states[j].unlinked && states[j].path == p && p != states[i].path {
        assert j in states - {i} && (states - {i})[j] == states[j];
      }
    }
  }

  lemma {:induction false} TargetGoes(states: States, i: nat)
    requires i in states
    ensures Targets(states[i := states[i].(unlinked := true)]) == Targets(states - {i})
    ensures states[i].unlinked ==> Targets(states - {i}) == Targets(states)
  {
    var marked := states[i := states[i].(unlinked := true)];
    forall p ensures p in Targets(marked) <==> p in Targets(states - {i}) {
      if j :| j in marked && !marked[j].unlinked && marked[j].path == p {
        assert j != i && j in states - {i} && (states - {i})[j] == states[j];
      }
      if j :| j in states - {i} && !(states - {i})[j].unlinked && (states - {i})[j].path == p {
        assert marked[j] == states[j];
      }
    }
    forall p | states[i].unlinked ensures p in Targets(states - {i}) <==> p in Targets(states) {
      if j :| j in states && !states[j].unlinked && states[j].path == p {
        assert j in states - {i} && (states - {i})[j] == states[j];
      }
    }
  }

  /** Taking one live handle away takes exactly its target away. */
  lemma {:induction false} TargetLeaves(nodes: Nodes, states: States, overlay: Pending, names: PendingNames, i: nat)
    requires Shape(nodes) && PendingOk(nodes, overlay, names) && Tied(nodes, states, overlay) && i in states
    ensures var left := if states[i].unlinked then Targets(states) else Targets(states) - {states[i].path};
            Targets(states - {i}) == left && Targets(states[i := states[i].(unlinked := true)]) == left
  {
    hide *;
    TargetGoes(states, i);
    if !states[i].unlinked {
      forall j <- states | !states[j].unlinked && states[j].path == states[i].path ensures j == i {
        TargetsDiffer(nodes, states, overlay, names, i, j);
      }
      TargetOfOne(states, i);
    }
  }

  // ── pending creates ───────────────────────────────────────────────────────

  function Without(names: PendingNames, i: nat): PendingNames {
    map k | k in names && names[k] != i :: names[k]
  }

  lemma {:induction false} WithoutIs(nodes: Nodes, overlay: Pending, names: PendingNames, i: nat)
    requires PendingOk(nodes, overlay, names)
    ensures i in overlay ==> Without(names, i) == names - {overlay[i]}
    ensures i !in overlay ==> Without(names, i) == names
  {
    hide Taken;
    if i in overlay {
      assert PendingAt(nodes, names, i, overlay[i].0, overlay[i].1);
    }
  }

  lemma {:induction false} PendingLeaves(nodes: Nodes, overlay: Pending, names: PendingNames, i: nat)
    requires PendingOk(nodes, overlay, names)
    ensures PendingOk(nodes, overlay - {i}, Without(names, i))
  {
    hide Taken;
    var left, names' := overlay - {i}, Without(names, i);
    forall j | j in left ensures PendingAt(nodes, names', j, left[j].0, left[j].1) {
      assert PendingAt(nodes, names, j, overlay[j].0, overlay[j].1);
    }
  }

  lemma {:induction false} PendingJoins(nodes: Nodes, overlay: Pending, names: PendingNames, i: nat, d: nat, n: string)
    requires PendingOk(nodes, overlay, names) && i !in overlay
    requires i !in nodes && d in nodes && nodes[d].content.Dir? && (d, n) !in names && !Taken(nodes, nodes[d].path + [n])
    ensures PendingOk(nodes, overlay[i := (d, n)], names[(d, n) := i])
  {
    hide Taken;
    var more, names' := overlay[i := (d, n)], names[(d, n) := i];
    forall j | j in more ensures PendingAt(nodes, names', j, more[j].0, more[j].1) {
      if j != i {
        assert PendingAt(nodes, names, j, overlay[j].0, overlay[j].1);
      }
    }
  }

  /** The tree may change where nothing is pending. */
  lemma {:induction false} PendingStays(nodes: Nodes, now: Nodes, overlay: Pending, names: PendingNames)
    requires PendingOk(nodes, overlay, names)
    requires forall j <- overlay :: PendingAt(now, names, j, overlay[j].0, overlay[j].1)
    ensures PendingOk(now, overlay, names)
  {
    hide PendingAt;
  }

  // ── one handle at a time ──────────────────────────────────────────────────

  /** A state whose file is where the state says joins or replaces a state. */
  lemma {:induction false} StateJoins(nodes: Nodes, states: States, overlay: Pending, i: nat, s: OpenWrite)
    requires Tied(nodes, states, overlay) && Follows(nodes, overlay, i, s) && (i in overlay ==> !s.unlinked)
    ensures Tied(nodes, states[i := s], overlay)
  {
    hide Follows;
  }

  lemma {:induction false} Creates(nodes: Nodes, states: States, overlay: Pending, i: nat, d: nat, n: string, s: OpenWrite)
    requires Tied(nodes, states, overlay)
    requires i !in nodes && i !in states && d in nodes
    requires !s.unlinked && s.path == nodes[d].path + [n] && s.dir == d && s.name == n
    ensures Tied(nodes, states[i := s], overlay[i := (d, n)])
  {
    var more, all := overlay[i := (d, n)], states[i := s];
    forall j | j in all ensures Follows(nodes, more, j, all[j]) {
      if j != i {
        assert Follows(nodes, overlay, j, states[j]);
      }
    }
  }

  /** A pending create becomes a node of the tree under the same inode. */
  lemma {:induction false} PublishedIsTied(nodes: Nodes, states: States, overlay: Pending, names: PendingNames,
      i: nat, c: Content)
    requires Shape(nodes) && PendingOk(nodes, overlay, names) && Tied(nodes, states, overlay) && i in overlay && c.File?
    ensures Tied(Inserted(nodes, i, overlay[i].0, overlay[i].1, c), states, overlay - {i})
  {
    hide Shape, Taken;
    assert PendingAt(nodes, names, i, overlay[i].0, overlay[i].1);
    var now, left := Inserted(nodes, i, overlay[i].0, overlay[i].1, c), overlay - {i};
    forall j | j in states ensures Follows(now, left, j, states[j]) {
      assert Follows(nodes, overlay, j, states[j]);
      if j in overlay {
        assert PendingAt(nodes, names, j, overlay[j].0, overlay[j].1);
      }
    }
  }

  lemma {:induction false} PublishedIsElsewhere(nodes: Nodes, overlay: Pending, names: PendingNames, i: nat, j: nat,
      c: Content)
    requires Shape(nodes) && PendingOk(nodes, overlay, names) && i in overlay && j in overlay && i != j
    ensures PendingAt(Inserted(nodes, i, overlay[i].0, overlay[i].1, c), Without(names, i), j, overlay[j].0, overlay[j].1)
  {
    hide Shape;
    assert PendingAt(nodes, names, i, overlay[i].0, overlay[i].1) && PendingAt(nodes, names, j, overlay[j].0, overlay[j].1);
    var path := nodes[overlay[j].0].path + [overlay[j].1];
    var now := Inserted(nodes, i, overlay[i].0, overlay[i].1, c);
    if now[i].path == path {
      PendingPathsDiffer(nodes, overlay, names, i, j);
    }
    forall k ensures !Names(now, k, path) {
      FreeMeans(nodes, path, k);
    }
  }

  lemma {:induction false} PublishedPending(nodes: Nodes, overlay: Pending, names: PendingNames, i: nat, c: Content)
    requires Shape(nodes) && PendingOk(nodes, overlay, names) && i in overlay
    ensures PendingOk(Inserted(nodes, i, overlay[i].0, overlay[i].1, c), overlay - {i}, Without(names, i))
  {
    hide Shape, Taken, Inserted;
    assert PendingAt(nodes, names, i, overlay[i].0, overlay[i].1);
    hide PendingAt, PendingOk;
    PendingLeaves(nodes, overlay, names, i);
    forall j <- overlay - {i} ensures PendingAt(Inserted(nodes, i, overlay[i].0, overlay[i].1, c), Without(names, i), j, overlay[j].0, overlay[j].1) {
      PublishedIsElsewhere(nodes, overlay, names, i, j, c);
    }
    PendingStays(nodes, Inserted(nodes, i, overlay[i].0, overlay[i].1, c), overlay - {i}, Without(names, i));
  }

  /** The close or the unlinking of a handle. */
  lemma {:induction false} Closes(nodes: Nodes, states: States, overlay: Pending, i: nat)
    requires Tied(nodes, states, overlay)
    ensures Tied(nodes, states - {i}, overlay - {i})
  {
    var fewer, left := states - {i}, overlay - {i};
    forall j | j in fewer ensures Follows(nodes, left, j, fewer[j]) {
      assert Follows(nodes, overlay, j, states[j]);
    }
  }

  lemma {:induction false} Unlinks(nodes: Nodes, states: States, overlay: Pending, i: nat)
    requires Tied(nodes, states, overlay) && i in states && i !in nodes
    ensures Tied(nodes, states[i := states[i].(unlinked := true)], overlay - {i})
  {
    Closes(nodes, states, overlay, i);
    assert (states - {i})[i := states[i].(unlinked := true)] == states[i := states[i].(unlinked := true)];
    hide Tied;
    StateJoins(nodes, states - {i}, overlay - {i}, i, states[i].(unlinked := true));
  }

  // ── changes of the tree ───────────────────────────────────────────────────

  lemma {:induction false} ResizedIsTied(nodes: Nodes, states: States, overlay: Pending, i: nat, c: Content)
    requires Tied(nodes, states, overlay) && i in nodes && c.File?
    ensures Tied(nodes[i := nodes[i].(content := c)], states, overlay)
  {
    var now := nodes[i := nodes[i].(content := c)];
    forall j | j in states ensures Follows(now, overlay, j, states[j]) {
      assert Follows(nodes, overlay, j, states[j]);
    }
  }

  lemma {:induction false} ResizedPending(nodes: Nodes, overlay: Pending, names: PendingNames, i: nat, c: Content)
    requires PendingOk(nodes, overlay, names) && i in nodes && nodes[i].content.File?
    ensures PendingOk(nodes[i := nodes[i].(content := c)], overlay, names)
  {
    var now := nodes[i := nodes[i].(content := c)];
    forall j <- overlay ensures PendingAt(now, names, j, overlay[j].0, overlay[j].1) {
      assert PendingAt(nodes, names, j, overlay[j].0, overlay[j].1);
      forall k ensures !Names(now, k, now[overlay[j].0].path + [overlay[j].1]) {
        FreeMeans(nodes, nodes[overlay[j].0].path + [overlay[j].1], k);
      }
    }
    hide PendingAt;
    PendingStays(nodes, now, overlay, names);
  }

  /** No pending create is in the directory. */
  predicate NonePending(overlay: Pending, d: nat) {
    forall j <- overlay :: overlay[j].0 != d
  }

  lemma {:induction false} DroppedIsTied(nodes: Nodes, states: States, overlay: Pending, i: nat)
    requires Tied(nodes, states, overlay) && i in nodes && i !in states && NonePending(overlay, i)
    ensures Tied(nodes - {i}, states, overlay)
  {
    var now := nodes - {i};
    forall j | j in states ensures Follows(now, overlay, j, states[j]) {
      assert Follows(nodes, overlay, j, states[j]);
    }
  }

  lemma {:induction false} DroppedPending(nodes: Nodes, overlay: Pending, names: PendingNames, i: nat)
    requires PendingOk(nodes, overlay, names) && i in nodes && NonePending(overlay, i)
    ensures PendingOk(nodes - {i}, overlay, names)
  {
    var now := nodes - {i};
    forall j <- overlay ensures PendingAt(now, names, j, overlay[j].0, overlay[j].1) {
      assert PendingAt(nodes, names, j, overlay[j].0, overlay[j].1);
      forall k ensures !Names(now, k, now[overlay[j].0].path + [overlay[j].1]) {
        FreeMeans(nodes, nodes[overlay[j].0].path + [overlay[j].1], k);
      }
    }
    hide PendingAt;
    PendingStays(nodes, now, overlay, names);
  }

  lemma {:induction false} FileHoldsNoPending(nodes: Nodes, overlay: Pending, names: PendingNames, i: nat)
    requires PendingOk(nodes, overlay, names) && i in nodes
    ensures i !in overlay && (nodes[i].content.File? ==> NonePending(overlay, i))
  {
    hide Taken;
    forall j <- overlay ensures j != i && (nodes[i].content.File? ==> overlay[j].0 != i) {
      assert PendingAt(nodes, names, j, overlay[j].0, overlay[j].1);
    }
  }

  lemma {:induction false} ANodesState(nodes: Nodes, states: States, overlay: Pending, names: PendingNames, i: nat)
    requires PendingOk(nodes, overlay, names) && Tied(nodes, states, overlay) && i in nodes && i in states
    ensures !states[i].unlinked && states[i].path == nodes[i].path && nodes[i].content.File?
    ensures states[i].dir == nodes[i].parent && states[i].name == nodes[i].name
  {
    FileHoldsNoPending(nodes, overlay, names, i);
    assert Follows(nodes, overlay, i, states[i]);
  }

  // ── moves ─────────────────────────────────────────────────────────────────

  function Moved(from: Path, to: Path, path: Path): Path {
    if from <= path then to + path[|from|..] else path
  }

  lemma {:induction false} PrefixOfLonger(from: Path, path: Path, n: string)
    ensures from <= path + [n] <==> from <= path || from == path + [n]
  {
    if from <= path + [n] && |from| <= |path| {
      assert from == (path + [n])[..|from|] == path[..|from|];
    }
    if from <= path {
      assert from == path[..|from|] == (path + [n])[..|from|];
    }
  }

  lemma {:induction false} MovedStep(from: Path, to: Path, path: Path, n: string)
    requires from != path + [n]
    ensures Moved(from, to, path + [n]) == Moved(from, to, path) + [n]
  {
    PrefixOfLonger(from, path, n);
    if from <= path {
      SuffixStep(from, to, path, n);
    }
  }

  /** Paths outside the new place do not meet when they are moved. */
  lemma {:induction false} MovedApart(from: Path, to: Path, a: Path, b: Path)
    requires !(to <= a) && !(to <= b)
    ensures Moved(from, to, a) == Moved(from, to, b) <==> a == b
  {
    if from <= a {
      MovedKey(from, to, a);
    }
    if from <= b {
      MovedKey(from, to, b);
    }
  }

  lemma {:induction false} RenamedAt(nodes: Nodes, i: nat, p: nat, n: string, to: Path, j: nat)
    requires i in nodes
    ensures j in Renamed(nodes, i, p, n, to) <==> j in nodes
    ensures j in nodes ==>
              var r := Renamed(nodes, i, p, n, to)[j];
              r.path == Moved(nodes[i].path, to, nodes[j].path) && r.content == nodes[j].content
              && (j != i ==> r.parent == nodes[j].parent && r.name == nodes[j].name) && (j == i ==> r.parent == p && r.name == n && r.path == to)
  {
  }

  /** Where a file is after a move in the tree is where its old path went, pending or not. */
  lemma {:induction false} MovedCurrent(nodes: Nodes, overlay: Pending, names: PendingNames, i: nat, p: nat,
      n: string, to: Path, j: nat)
    requires i in nodes && PendingOk(nodes, overlay, names)
    ensures var was, now := Current(nodes, overlay, j), Current(Renamed(nodes, i, p, n, to), overlay, j);
            now.Some? == was.Some? && (was.Some? ==> now.value == Moved(nodes[i].path, to, was.value))
  {
    hide Taken, Renamed, Moved;
    if j in overlay {
      var (d, m) := overlay[j];
      assert PendingAt(nodes, names, j, d, m);
      RenamedAt(nodes, i, p, n, to, d);
      FreeMeans(nodes, nodes[d].path + [m], i);
      MovedStep(nodes[i].path, to, nodes[d].path, m);
    } else {
      RenamedAt(nodes, i, p, n, to, j);
    }
  }

  lemma {:induction false} MovedFollows(nodes: Nodes, overlay: Pending, names: PendingNames, i: nat, p: nat,
      n: string, to: Path, j: nat, s: OpenWrite, t: OpenWrite)
    requires i in nodes && PendingOk(nodes, overlay, names) && Follows(nodes, overlay, j, s)
    requires t.unlinked == s.unlinked
    requires !s.unlinked ==> t.path == Moved(nodes[i].path, to, s.path)
    requires if j == i then t.dir == p && t.name == n else t.dir == s.dir && t.name == s.name
    ensures Follows(Renamed(nodes, i, p, n, to), overlay, j, t)
  {
    FileHoldsNoPending(nodes, overlay, names, i);
    MovedCurrent(nodes, overlay, names, i, p, n, to, j);
    RenamedAt(nodes, i, p, n, to, j);
    hide PendingOk, Renamed, Moved;
  }

  /** Nothing is at or below a free place, unless a create is pending there. */
  lemma {:induction false} NothingAt(nodes: Nodes, overlay: Pending, names: PendingNames, p: nat, n: string, to: Path,
      j: nat)
    requires Shape(nodes) && PendingOk(nodes, overlay, names) && p in nodes && nodes[p].path + [n] == to
    requires !Taken(nodes, to) && (p, n) !in names && Current(nodes, overlay, j).Some?
    ensures !(to <= Current(nodes, overlay, j).value)
  {
    NothingBelowFree(nodes, to);
    hide Shape, Taken;
    if j in overlay {
      var (d, m) := overlay[j];
      assert PendingAt(nodes, names, j, d, m);
      PrefixOfLonger(to, nodes[d].path, m);
      SameEnd(nodes[p].path, n, nodes[d].path, m);
      SameKey(nodes, p, d);
    }
  }

  lemma {:induction false} MovedPendingAt(nodes: Nodes, overlay: Pending, names: PendingNames, i: nat, p: nat,
      n: string, to: Path, j: nat)
    requires MayMove(nodes, i, p, n, to) && PendingOk(nodes, overlay, names) && (p, n) !in names && j in overlay
    ensures PendingAt(Renamed(nodes, i, p, n, to), names, j, overlay[j].0, overlay[j].1)
  {
    var now := Renamed(nodes, i, p, n, to);
    var (d, m) := overlay[j];
    assert PendingAt(nodes, names, j, d, m);
    NothingAt(nodes, overlay, names, p, n, to, j);
    MovedCurrent(nodes, overlay, names, i, p, n, to, j);
    RenamedAt(nodes, i, p, n, to, d);
    RenamedAt(nodes, i, p, n, to, j);
    hide Shape, Renamed, Moved, PendingOk;
    NothingBelowFree(nodes, to);
    forall k ensures !Names(now, k, now[d].path + [m]) {
      RenamedAt(nodes, i, p, n, to, k);
      FreeMeans(nodes, nodes[d].path + [m], k);
      if k in nodes {
        MovedApart(nodes[i].path, to, nodes[k].path, nodes[d].path + [m]);
      }
    }
  }

  lemma {:induction false} MovedPending(nodes: Nodes, overlay: Pending, names: PendingNames, i: nat, p: nat,
      n: string, to: Path)
    requires MayMove(nodes, i, p, n, to) && PendingOk(nodes, overlay, names)
    ensures PendingOk(Renamed(nodes, i, p, n, to), overlay, names) <==> (p, n) !in names
  {
    var now := Renamed(nodes, i, p, n, to);
    hide MayMove, PendingAt, Renamed;
    if (p, n) in names {
      MovedOntoPending(nodes, names, i, p, n, to);
    } else {
      forall j <- overlay ensures PendingAt(now, names, j, overlay[j].0, overlay[j].1) {
        MovedPendingAt(nodes, overlay, names, i, p, n, to, j);
      }
      PendingStays(nodes, now, overlay, names);
    }
  }

  lemma {:induction false} MovedOntoPending(nodes: Nodes, names: PendingNames, i: nat, p: nat, n: string, to: Path)
    requires MayMove(nodes, i, p, n, to)
    ensures forall j :: !PendingAt(Renamed(nodes, i, p, n, to), names, j, p, n)
  {
    hide Shape;
    RenamedAt(nodes, i, p, n, to, p);
    RenamedAt(nodes, i, p, n, to, i);
    hide Renamed;
    assert Names(Renamed(nodes, i, p, n, to), i, to);
  }

  // ── the states after a move ───────────────────────────────────────────────

  /** Targets strictly below a moved directory move along. */
  function Shifted(states: States, from: Path, to: Path): States {
    map j | j in states :: if from < states[j].path then states[j].(path := to + states[j].path[|from|..]) else states[j]
  }

  function Retargeted(states: States, i: nat, to: Path, p: nat, n: string): States {
    if i in states then states[i := states[i].(path := to, dir := p, name := n)] else states
  }

  function AfterMove(nodes: Nodes, states: States, i: nat, p: nat, n: string, to: Path): States
    requires i in nodes
  {
    Retargeted(if nodes[i].content.Dir? then Shifted(states, nodes[i].path, to) else states, i, to, p, n)
  }

  /** Only the moved file or directory is at its path, and nothing is below a file. */
  lemma {:induction false} OnlyAt(nodes: Nodes, overlay: Pending, names: PendingNames, i: nat, j: nat)
    requires Shape(nodes) && PendingOk(nodes, overlay, names) && i in nodes && Current(nodes, overlay, j).Some?
    ensures Current(nodes, overlay, j).value == nodes[i].path ==> j == i
    ensures nodes[i].content.File? && nodes[i].path <= Current(nodes, overlay, j).value ==> j == i
  {
    var at := nodes[i].path;
    if j in overlay {
      var (d, m) := overlay[j];
      assert PendingAt(nodes, names, j, d, m);
      FreeMeans(nodes, nodes[d].path + [m], i);
      PrefixOfLonger(at, nodes[d].path, m);
      NotBelowFile(nodes, i, d);
    } else {
      NotBelowFile(nodes, i, j);
    }
    hide Shape, PendingOk;
  }

  lemma {:induction false} NotBelowFile(nodes: Nodes, i: nat, j: nat)
    requires Shape(nodes) && i in nodes && j in nodes
    ensures nodes[i].path == nodes[j].path || (nodes[i].content.File? && nodes[i].path <= nodes[j].path) ==> i == j
  {
    if nodes[i].path <= nodes[j].path && nodes[i].path != nodes[j].path {
      assert Names(nodes, j, nodes[j].path);
      PrefixTaken(nodes, nodes[j].path, nodes[i].path);
      var k :| Names(nodes, k, nodes[i].path) && nodes[k].content.Dir?;
      SameKey(nodes, i, k);
    }
    SameKey(nodes, i, j);
  }

  lemma {:induction false} MovedTarget(nodes: Nodes, states: States, overlay: Pending, names: PendingNames, i: nat,
      p: nat, n: string, to: Path, j: nat)
    requires Shape(nodes) && PendingOk(nodes, overlay, names) && Tied(nodes, states, overlay) && i in nodes && j in states
    ensures var t := AfterMove(nodes, states, i, p, n, to);
            && j in t && t[j].unlinked == states[j].unlinked
            && (!states[j].unlinked ==> t[j].path == Moved(nodes[i].path, to, states[j].path))
            && (if j == i then t[j].dir == p && t[j].name == n else t[j].dir == states[j].dir && t[j].name == states[j].name)
  {
    hide Shape, PendingOk;
    if j == i {
      ANodesState(nodes, states, overlay, names, i);
    } else if !states[j].unlinked {
      assert Follows(nodes, overlay, j, states[j]);
      OnlyAt(nodes, overlay, names, i, j);
    }
    hide Tied;
  }

  lemma {:induction false} MovedIsTied(nodes: Nodes, states: States, overlay: Pending, names: PendingNames, i: nat,
      p: nat, n: string, to: Path)
    requires MayMove(nodes, i, p, n, to) && PendingOk(nodes, overlay, names) && Tied(nodes, states, overlay)
    ensures Tied(Renamed(nodes, i, p, n, to), AfterMove(nodes, states, i, p, n, to), overlay)
  {
    hide Shape, PendingOk, Follows, Renamed, Taken, Moved;
    var t := AfterMove(nodes, states, i, p, n, to);
    assert t.Keys == states.Keys;
    hide AfterMove;
    forall j <- states ensures t[j].unlinked == states[j].unlinked && Follows(Renamed(nodes, i, p, n, to), overlay, j, t[j]) {
      MovedTarget(nodes, states, overlay, names, i, p, n, to, j);
      MovedFollows(nodes, overlay, names, i, p, n, to, j, states[j], t[j]);
    }
  }

  // ── the set of open writes after a move ───────────────────────────────────

  /** What a file rename and a directory rename make of the set of open writes. */
  function WritersAfter(isDir: bool, writers: set<Path>, from: Path, to: Path): set<Path> {
    if isDir then set c | c in writers :: Moved(from, to, c)
    else if from in writers then writers - {from} + {to}
    else writers
  }

  lemma {:induction false} MovedWriters(nodes: Nodes, states: States, overlay: Pending, names: PendingNames, i: nat,
      p: nat, n: string, to: Path)
    requires Shape(nodes) && PendingOk(nodes, overlay, names) && Tied(nodes, states, overlay) && i in nodes
    ensures Targets(AfterMove(nodes, states, i, p, n, to)) == WritersAfter(nodes[i].content.Dir?, Targets(states), nodes[i].path, to)
  {
    hide Shape, PendingOk, Follows, Moved, Tied;
    var t, from := AfterMove(nodes, states, i, p, n, to), nodes[i].path;
    assert t.Keys == states.Keys;
    hide AfterMove;
    forall j <- states ensures t[j].unlinked == states[j].unlinked && (!states[j].unlinked ==> t[j].path == Moved(from, to, states[j].path)) {
      MovedTarget(nodes, states, overlay, names, i, p, n, to, j);
    }
    TargetsMove(states, t, from, to);
    if nodes[i].content.File? {
      forall c <- Targets(states) ensures from <= c ==> c == from {
        var j :| j in states && !states[j].unlinked && states[j].path == c;
        TargetBelowFile(nodes, states, overlay, names, i, j);
      }
      MovedSingle(Targets(states), from, to);
    }
  }

  lemma {:induction false} TargetsMove(states: States, t: States, from: Path, to: Path)
    requires t.Keys == states.Keys
    requires forall j <- states :: t[j].unlinked == states[j].unlinked && (!states[j].unlinked ==> t[j].path == Moved(from, to, states[j].path))
    ensures Targets(t) == set c | c in Targets(states) :: Moved(from, to, c)
  {
    hide Moved;
    forall c ensures c in Targets(t) <==> exists b :: b in Targets(states) && Moved(from, to, b) == c {
      if j :| j in t && !t[j].unlinked && t[j].path == c {
        IsTarget(states, j);
      }
      if b :| b in Targets(states) && Moved(from, to, b) == c {
        var j :| j in states && !states[j].unlinked && states[j].path == b;
        IsTarget(t, j);
      }
    }
  }

  lemma {:induction false} TargetBelowFile(nodes: Nodes, states: States, overlay: Pending, names: PendingNames,
      i: nat, j: nat)
    requires Shape(nodes) && PendingOk(nodes, overlay, names) && Tied(nodes, states, overlay)
    requires i in nodes && nodes[i].content.File? && j in states && !states[j].unlinked
    ensures nodes[i].path <= states[j].path ==> states[j].path == nodes[i].path
  {
    hide Shape, PendingOk;
    assert Follows(nodes, overlay, j, states[j]);
    OnlyAt(nodes, overlay, names, i, j);
    if j == i {
      ANodesState(nodes, states, overlay, names, i);
    }
  }

  lemma {:induction false} MovedSingle(paths: set<Path>, from: Path, to: Path)
    requires forall c <- paths :: from <= c ==> c == from
    ensures (set c | c in paths :: Moved(from, to, c)) == if from in paths then paths - {from} + {to} else paths
  {
    assert Moved(from, to, from) == to;
    forall c <- paths ensures Moved(from, to, c) == if c == from then to else c {
    }
    var left, right := set c | c in paths :: Moved(from, to, c), if from in paths then paths - {from} + {to} else paths;
    forall c ensures c in left <==> c in right {
      if c in paths && c != from {
        assert Moved(from, to, c) == c;
      }
      if c == to && from in paths {
        assert Moved(from, to, from) == c;
      }
    }
    hide Moved;
  }

  // ── the store of write states ─────────────────────────────────────────────

  ghost predicate Consistent(nodes: Nodes, states: States, overlay: Pending, names: PendingNames, writers: set<Path>) {
    && Shape(nodes) && PendingOk(nodes, overlay, names) && Tied(nodes, states, overlay)
    && writers == Targets(states)
  }

  datatype Outcome = Done | Exists | NotFound | NotPermitted | NotEmpty | Io

  /** `fails` and `rmdirFails` stand for an error of the folder or the ledger below an operation.
      Directory inodes come from the kernel, which resolved them in the same tree. */
  class WriteStore {
    var nodes: Nodes
    var children: Index
    var states: States
    var overlay: Pending
    var overlayNames: PendingNames
    var nextOverlay: nat
    var openWrites: set<Path>

    ghost predicate Valid()
      reads this
    {
      && Consistent(nodes, states, overlay, overlayNames, openWrites)
      && Ground(nodes, children, states, nextOverlay)
    }

    predicate IsDir(d: nat)
      reads this
    {
      d in nodes && nodes[d].content.Dir?
    }

    /** `open_existing` and `open_overlay`. */
    method Open(ino: nat, truncate: bool, fails: bool) returns (r: Outcome)
      requires Valid()
      modifies this`states, this`openWrites
      ensures Valid()
      ensures r.Done? <==> if ino in old(states) then !(truncate && fails) else ino in nodes && nodes[ino].content.File? && !fails
      ensures !r.Done? ==> states == old(states)
      ensures r.Done? ==> ino in states && states == old(states)[ino := states[ino]] && states[ino].unlinked == (ino in old(states) && old(states)[ino].unlinked)
      ensures r.Done? ==> states[ino].refs == 1 + if ino in old(states) then old(states)[ino].refs else 0
      ensures r.Done? ==> states[ino].dirty == (truncate || (ino in old(states) && old(states)[ino].dirty))
    {
      hide Shape, PendingOk, Tied, Targets;
      if ino in states {
        if truncate && fails {
          return Io;
        }
        var s := states[ino];
        var t := s.(dirty := s.dirty || truncate, refs := s.refs + 1);
        Renotes(nodes, states, overlay, overlayNames, openWrites, ino, t);
        states := states[ino := t];
        return Done;
      }
      if ino !in nodes || nodes[ino].content.Dir? {
        return NotPermitted;
      }
      if fails {
        return Io;
      }
      var s := OpenWrite(nodes[ino].path, nodes[ino].parent, nodes[ino].name, false, truncate, 1);
      Opens(nodes, states, overlay, overlayNames, openWrites, ino, s);
      openWrites := openWrites + {s.path};
      states := states[ino := s];
      return Done;
    }

    /** `create`. */
    method Create(d: nat, n: string, fails: bool) returns (r: Outcome, ino: nat)
      requires Valid() && IsDir(d)
      modifies this
      ensures Valid() && nodes == old(nodes)
      ensures r.Done? <==> !fails && !Taken(nodes, nodes[d].path + [n]) && (d, n) !in old(overlayNames)
      ensures !r.Done? ==> states == old(states) && overlay == old(overlay) && openWrites == old(openWrites)
      ensures r.Done? ==> ino !in old(states) && ino !in nodes && overlay == old(overlay)[ino := (d, n)]
      ensures r.Done? ==> states == old(states)[ino := OpenWrite(nodes[d].path + [n], d, n, false, true, 1)]
    {
      hide Shape, PendingOk, Tied, Targets, Indexed, Taken;
      ino := nextOverlay;
      NameIsFree(nodes, children, d, n);
      if n in children[d] || (d, n) in overlayNames {
        r := Exists;
      } else if fails {
        r := Io;
      } else {
        var s := OpenWrite(nodes[d].path + [n], d, n, false, true, 1);
        NewPending(nodes, states, overlay, overlayNames, openWrites, ino, d, n, s);
        NewInode(nodes, children, states, ino, s);
        hide Consistent, Ground;
        nextOverlay := nextOverlay + 1;
        overlay := overlay[ino := (d, n)];
        overlayNames := overlayNames[(d, n) := ino];
        states := states[ino := s];
        openWrites := openWrites + {s.path};
        r := Done;
      }
    }

    /** `write`. */
    method Write(ino: nat, fails: bool) returns (r: Outcome)
      requires Valid()
      modifies this`states
      ensures Valid()
      ensures r.Done? <==> ino in old(states) && !fails
      ensures states == if r.Done? then old(states)[ino := old(states)[ino].(dirty := true)] else old(states)
    {
      hide Shape, PendingOk, Tied, Targets;
      if ino !in states {
        return NotPermitted;
      }
      if fails {
        return Io;
      }
      Renotes(nodes, states, overlay, overlayNames, openWrites, ino, states[ino].(dirty := true));
      states := states[ino := states[ino].(dirty := true)];
      return Done;
    }

    /** `flush_local`: the committed key is the current path of the file; after the final flush the
        file is a node of the tree, with the handle's own inode. */
    method Flush(ino: nat, final: bool, size: nat, mtime: nat, fails: bool) returns (r: Outcome, committed: Option<Path>)
      requires Valid()
      modifies this
      ensures Valid() && openWrites == old(openWrites)
      ensures r.Done? <==> ino !in old(states) || !fails
      ensures committed.Some? <==> ino in old(states) && !fails && old(states)[ino].dirty && !old(states)[ino].unlinked
      ensures committed.Some? ==> committed == old(Current(nodes, overlay, ino)) == Current(nodes, overlay, ino)
      ensures states == if ino in old(states) && !fails then old(states)[ino := old(states)[ino].(dirty := false)] else old(states)
      ensures if r.Done? && final && ino in old(states) && !old(states)[ino].unlinked
              then ino in nodes && Some(nodes[ino].path) == old(Current(nodes, overlay, ino)) && nodes[ino].content == File(size, mtime)
                   && nodes == old(nodes)[ino := nodes[ino]] && overlay == old(overlay) - {ino}
              else nodes == old(nodes) && overlay == old(overlay)
    {
      hide Shape, PendingOk, Tied, Targets, Indexed, Taken, Without;
      committed := None;
      if ino !in states {
        return Done, None;
      }
      if fails {
        return Io, None;
      }
      var s := states[ino];
      Renotes(nodes, states, overlay, overlayNames, openWrites, ino, s.(dirty := false));
      SameInodes(nodes, children, states, nextOverlay, ino, s.(dirty := false));
      HandleAt(nodes, states, overlay, overlayNames, ino);
      if s.dirty && !s.unlinked {
        committed := Some(s.path);
      }
      states := states[ino := s.(dirty := false)];
      if final && !s.unlinked {
        var c := File(size, mtime);
        NamedByHandle(nodes, children, states, overlay, overlayNames, ino);
        overlayNames := overlayNames - {(s.dir, s.name)};
        overlay := overlay - {ino};
        if s.name in children[s.dir] {
          Resizes(nodes, states, old(overlay), old(overlayNames), openWrites, ino, c);
          SameNodes(nodes, children, states, nextOverlay, ino, c);
          var found := children[s.dir][s.name];
          nodes := nodes[found := nodes[found].(content := c)];
        } else {
          Publishes(nodes, states, old(overlay), old(overlayNames), openWrites, ino, c);
          MoreNodes(nodes, children, states, nextOverlay, ino, s.dir, s.name, c);
          children := Linked(children, s.dir, s.name, ino)[ino := map[]];
          nodes := Inserted(nodes, ino, s.dir, s.name, c);
        }
      }
      r := Done;
    }

    /** `release`: the last close of a file forgets it, and a create that was never committed. */
    method Release(ino: nat)
      requires Valid()
      modifies this`states, this`overlay, this`overlayNames, this`openWrites
      ensures Valid()
      ensures ino !in old(states) ==> states == old(states) && overlay == old(overlay) && openWrites == old(openWrites)
      ensures ino in old(states) && old(states)[ino].refs > 1
              ==> states == old(states)[ino := old(states)[ino].(refs := old(states)[ino].refs - 1)] && overlay == old(overlay) && openWrites == old(openWrites)
      ensures ino in old(states) && old(states)[ino].refs <= 1 ==> states == old(states) - {ino} && overlay == old(overlay) - {ino}
      ensures ino in old(states) && old(states)[ino].refs <= 1
              ==> openWrites == if old(states)[ino].unlinked then old(openWrites) else old(openWrites) - {old(states)[ino].path}
    {
      hide Shape, PendingOk, Tied, Targets, Indexed, Without;
      if ino !in states {
        return;
      }
      var s := states[ino];
      if s.refs > 1 {
        Renotes(nodes, states, overlay, overlayNames, openWrites, ino, s.(refs := s.refs - 1));
        states := states[ino := s.(refs := s.refs - 1)];
        return;
      }
      LastClose(nodes, states, overlay, overlayNames, openWrites, ino);
      if !s.unlinked {
        openWrites := openWrites - {s.path};
      }
      states := states - {ino};
      overlay := overlay - {ino};
      overlayNames := Without(overlayNames, ino);
    }

    /** `unlink`, of a pending create or a file of the tree. It leaves a live handle without a file
        exactly when the folder fails to delete a pending create. */
    method Unlink(d: nat, n: string, fails: bool) returns (r: Outcome)
      requires Valid() && IsDir(d)
      modifies this
      ensures Valid() <==> !(fails && (d, n) in old(overlayNames))
      ensures r.Done? ==>
        exists i | i in old(overlay) || i in old(nodes) ::
          && old(Current(nodes, overlay, i)) == Some(old(nodes)[d].path + [n])
          && nodes == old(nodes) - {i} && overlay == old(overlay) - {i} && openWrites == old(openWrites) - {old(nodes)[d].path + [n]}
          && states == if i in old(states) then old(states)[i := old(states)[i].(unlinked := true)] else old(states)
      ensures !r.Done? ==> nodes == old(nodes) && states == old(states) && openWrites == old(openWrites)
    {
      hide Shape, PendingOk, Tied, Targets, Indexed, Taken, Without, Unindexed;
      if (d, n) in overlayNames {
        var ino := overlayNames[(d, n)];
        PendingAtName(nodes, children, states, overlay, overlayNames, d, n);
        NamelessHandle(nodes, states, overlay, overlayNames, ino);
        overlayNames := overlayNames - {(d, n)};
        overlay := overlay - {ino};
        if fails {
          return Io;
        }
        UnlinksPending(nodes, states, old(overlay), old(overlayNames), openWrites, ino);
        SameInodes(nodes, children, states, nextOverlay, ino, states[ino].(unlinked := true));
        assert nodes == nodes - {ino};
        openWrites := openWrites - {states[ino].path};
        states := states[ino := states[ino].(unlinked := true)];
        return Done;
      }
      NameIsFree(nodes, children, d, n);
      if n !in children[d] || nodes[children[d][n]].content.Dir? {
        return NotPermitted;
      }
      if fails {
        return Io;
      }
      var ino := children[d][n];
      UnlinksNode(nodes, states, overlay, overlayNames, openWrites, ino);
      FileLeaves(nodes, children, states, nextOverlay, ino);
      openWrites := openWrites - {nodes[ino].path};
      children := Unindexed(nodes, children, ino);
      nodes := nodes - {ino};
      if ino in states {
        states := states[ino := states[ino].(unlinked := true)];
      }
      return Done;
    }

    /** A file or an empty directory without a handle leaves the tree to make place. */
    method MakePlace(ino: nat)
      requires Valid() && ino in nodes && ino != HOME && Childless(nodes, ino) && ino !in states && NonePending(overlay, ino)
      modifies this`nodes, this`children
      ensures Valid() && nodes == old(nodes) - {ino}
      ensures !Taken(nodes, old(nodes[ino].path))
    {
      hide Shape, PendingOk, Tied, Targets, Indexed, Taken, Unindexed, Childless;
      Drops(nodes, states, overlay, overlayNames, openWrites, ino);
      NodeLeaves(nodes, children, states, nextOverlay, ino);
      children := Unindexed(nodes, children, ino);
      nodes := nodes - {ino};
    }

    /** A pending create takes a free name. */
    method MovePending(ino: nat, d: nat, n: string, e: nat, m: string)
      requires Valid() && ino in overlay && overlay[ino] == (d, n) && IsDir(e) && !Taken(nodes, nodes[e].path + [m]) && (d, n) != (e, m)
      modifies this`states, this`overlay, this`overlayNames, this`openWrites
      ensures Valid() <==> (e, m) !in old(overlayNames)
      ensures overlay == old(overlay)[ino := (e, m)] && ino in old(states)
      ensures states == old(states)[ino := old(states)[ino].(path := nodes[e].path + [m], dir := e, name := m, dirty := true)]
      ensures openWrites == old(openWrites) - {old(states)[ino].path} + {nodes[e].path + [m]}
    {
      hide Shape, PendingOk, Tied, Targets, Indexed, Taken, Without;
      PendingHasState(nodes, states, overlay, overlayNames, ino);
      var s := states[ino];
      var t := s.(path := nodes[e].path + [m], dir := e, name := m, dirty := true);
      Repends(nodes, states, overlay, overlayNames, openWrites, ino, e, m, t);
      SameInodes(nodes, children, states, nextOverlay, ino, t);
      overlayNames := (overlayNames - {(d, n)})[(e, m) := ino];
      overlay := overlay[ino := (e, m)];
      states := states[ino := t];
      openWrites := openWrites - {s.path} + {t.path};
    }

    /** A node of the tree takes a free name. */
    method MoveNode(ino: nat, e: nat, m: string)
      requires Valid() && e in nodes && MayMove(nodes, ino, e, m, nodes[e].path + [m])
      modifies this`nodes, this`children, this`states, this`openWrites
      ensures Valid() <==> (e, m) !in overlayNames
      ensures nodes == Renamed(old(nodes), ino, e, m, old(nodes)[e].path + [m])
      ensures states == AfterMove(old(nodes), old(states), ino, e, m, old(nodes)[e].path + [m])
      ensures openWrites == WritersAfter(old(nodes)[ino].content.Dir?, old(openWrites), old(nodes)[ino].path, old(nodes)[e].path + [m])
    {
      hide Shape, PendingOk, Tied, Targets, Indexed, Taken, Renamed, AfterMove, Rehung, WritersAfter, MayMove;
      MayMoveMeans(nodes, ino, e, m, nodes[e].path + [m]);
      var to := nodes[e].path + [m];
      Moves(nodes, states, overlay, overlayNames, openWrites, ino, e, m, to);
      MovedGround(nodes, children, states, nextOverlay, ino, e, m, to);
      openWrites := WritersAfter(nodes[ino].content.Dir?, openWrites, nodes[ino].path, to);
      states := AfterMove(nodes, states, ino, e, m, to);
      children := Rehung(children, nodes[ino].parent, nodes[ino].name, e, m, ino);
      nodes := Renamed(nodes, ino, e, m, to);
    }

    /** `rename_home_inner`. Afterwards every live handle commits to where its file now is, exactly
        when the rename did not take the name of a pending create. */
    method Rename(srcDir: nat, srcName: string, dstDir: nat, dstName: string, rmdirFails: bool,
        fails: bool) returns (r: Outcome)
      requires Valid() && IsDir(srcDir) && IsDir(dstDir)
      modifies this
      ensures var src, dst := old(nodes)[srcDir].path + [srcName], old(nodes)[dstDir].path + [dstName];
              && (Valid() <==> !(r.Done? && src != dst && (dstDir, dstName) in old(overlayNames)))
              && (!r.Done? || src == dst ==> states == old(states) && overlay == old(overlay) && openWrites == old(openWrites))
              && (!r.Done? || src == dst ==> nodes == old(nodes) || nodes == Cleared(old(nodes), dst))
              && (r.Done? && src != dst ==> exists i | i in old(overlay) || i in old(nodes) ::
                    && old(Current(nodes, overlay, i)) == Some(src) && Current(nodes, overlay, i) == Some(dst)
                    && RenamedTo(old(nodes), old(states), old(overlay), nodes, states, overlay, i, dstDir, dstName, dst))
    {
      hide Shape, PendingOk, Tied, Targets, Indexed, Taken, Renamed, AfterMove, WritersAfter, MayMove, Childless,
           NonePending, Cleared;
      ghost var was := nodes;
      var src, dst := nodes[srcDir].path + [srcName], nodes[dstDir].path + [dstName];
      if src == dst {
        return Done;
      }
      NameIsFree(nodes, children, srcDir, srcName);
      NameIsFree(nodes, children, dstDir, dstName);
      ClearedNone(nodes, dst);
      if (srcDir, srcName) in overlayNames {
        var ino := overlayNames[(srcDir, srcName)];
        PendingAtName(nodes, children, states, overlay, overlayNames, srcDir, srcName);
        if dstName in children[dstDir] {
          var there := children[dstDir][dstName];
          if nodes[there].content.Dir? || there in states {
            return Exists;
          }
          ClearedOne(nodes, there);
          FileIsChildless(nodes, there);
          FileHoldsNoPending(nodes, overlay, overlayNames, there);
          MakePlace(there);
        }
        if fails {
          return Io;
        }
        MovePending(ino, srcDir, srcName, dstDir, dstName);
        return Done;
      }
      if srcName !in children[srcDir] {
        return NotFound;
      }
      var ino := children[srcDir][srcName];
      var isDir := nodes[ino].content.Dir?;
      if dstName in children[dstDir] {
        var there := children[dstDir][dstName];
        IndexCovers(nodes, children, there);
        if nodes[there].content.Dir? != isDir {
          return if isDir then NotPermitted else Exists;
        }
        if isDir && children[there] != map[] {
          return NotEmpty;
        }
        if there in states {
          return Exists;
        }
        if isDir && (rmdirFails || !NonePending(overlay, there)) {
          return NotEmpty;
        }
        if !isDir && fails {
          return Io;
        }
        ClearedOne(nodes, there);
        if isDir {
          EmptyIndexIsChildless(nodes, children, there);
        } else {
          FileIsChildless(nodes, there);
          FileHoldsNoPending(nodes, overlay, overlayNames, there);
        }
        MakePlace(there);
      }
      // rename(2) puts no directory over the file of a pending create
      if fails || (isDir && (src <= dst || dst <= src || (dstDir, dstName) in overlayNames)) {
        return Io;
      }
      MayMoveThere(nodes, children, ino, src, dstDir, dstName);
      RenamedFrom(was, nodes, states, overlay, overlayNames, ino, dstDir, dstName, dst);
      MoveNode(ino, dstDir, dstName);
      assert ino in was && old(Current(nodes, overlay, ino)) == Some(src) && Current(nodes, overlay, ino) == Some(dst);
      assert RenamedTo(was, old(states), old(overlay), nodes, states, overlay, ino, dstDir, dstName, dst);
      return Done;
    }
  }

  /** The tree index is exact, and pending creates get inodes nothing has. */
  ghost predicate Ground(nodes: Nodes, children: Index, states: States, next: nat) {
    && Indexed(nodes, children)
    && (forall i <- nodes :: i < next)
    && (forall i <- states :: i < next)
  }

  lemma {:induction false} Renotes(nodes: Nodes, states: States, overlay: Pending, names: PendingNames,
      writers: set<Path>, i: nat, s: OpenWrite)
    requires Consistent(nodes, states, overlay, names, writers) && i in states
    requires s.path == states[i].path && s.dir == states[i].dir && s.name == states[i].name && s.unlinked == states[i].unlinked
    ensures Consistent(nodes, states[i := s], overlay, names, writers)
  {
    assert Follows(nodes, overlay, i, states[i]);
    hide Shape, PendingOk, Targets;
    StateJoins(nodes, states, overlay, i, s);
    hide Tied;
    TargetsStay(states, i, s);
  }

  lemma {:induction false} Opens(nodes: Nodes, states: States, overlay: Pending, names: PendingNames,
      writers: set<Path>, i: nat, s: OpenWrite)
    requires Consistent(nodes, states, overlay, names, writers)
    requires i in nodes && nodes[i].content.File? && i !in states
    requires !s.unlinked && s.path == nodes[i].path && s.dir == nodes[i].parent && s.name == nodes[i].name
    ensures Consistent(nodes, states[i := s], overlay, names, writers + {s.path})
  {
    FileHoldsNoPending(nodes, overlay, names, i);
    hide Shape, PendingOk, Targets, Tied;
    StateJoins(nodes, states, overlay, i, s);
    TargetJoins(states, i, s);
  }

  lemma {:induction false} NewPending(nodes: Nodes, states: States, overlay: Pending, names: PendingNames,
      writers: set<Path>, i: nat, d: nat, n: string, s: OpenWrite)
    requires Consistent(nodes, states, overlay, names, writers)
    requires i !in nodes && i !in states && d in nodes && nodes[d].content.Dir? && (d, n) !in names && !Taken(nodes, nodes[d].path + [n])
    requires !s.unlinked && s.path == nodes[d].path + [n] && s.dir == d && s.name == n
    ensures Consistent(nodes, states[i := s], overlay[i := (d, n)], names[(d, n) := i], writers + {s.path})
  {
    assert i !in overlay;
    hide Shape, PendingOk, Tied, Targets, Taken;
    PendingJoins(nodes, overlay, names, i, d, n);
    Creates(nodes, states, overlay, i, d, n, s);
    TargetJoins(states, i, s);
  }

  /** What a handle knows is where its file is. */
  lemma {:induction false} HandleAt(nodes: Nodes, states: States, overlay: Pending, names: PendingNames, i: nat)
    requires PendingOk(nodes, overlay, names) && Tied(nodes, states, overlay) && i in states
    ensures !states[i].unlinked ==> Current(nodes, overlay, i) == Some(states[i].path)
    ensures states[i].unlinked ==> i !in nodes && i !in overlay
  {
    hide PendingOk;
    assert Follows(nodes, overlay, i, states[i]);
  }

  lemma {:induction false} NameIsFree(nodes: Nodes, children: Index, d: nat, n: string)
    requires Shape(nodes) && Indexed(nodes, children) && d in nodes
    ensures d in children && (n in children[d] <==> Taken(nodes, nodes[d].path + [n]))
    ensures n in children[d] ==> Names(nodes, children[d][n], nodes[d].path + [n]) && IsChild(nodes, d, n, children[d][n])
  {
    hide Shape, IsChild;
    IndexCovers(nodes, children, d);
    ChildByName(nodes, children, d, n);
    if n in children[d] {
      IndexAt(nodes, children, d, n, children[d][n]);
    }
    hide Indexed;
  }

  /** The name of a pending create is in no directory of the tree. */
  lemma {:induction false} PendingIsUnnamed(nodes: Nodes, children: Index, overlay: Pending, names: PendingNames, i: nat)
    requires Shape(nodes) && Indexed(nodes, children) && PendingOk(nodes, overlay, names) && i in overlay
    ensures var (d, n) := overlay[i]; i !in nodes && d in nodes && nodes[d].content.Dir? && d in children && n !in children[d]
    ensures Without(names, i) == names - {overlay[i]}
  {
    hide Shape, Indexed, Taken, Without;
    assert PendingAt(nodes, names, i, overlay[i].0, overlay[i].1);
    NameIsFree(nodes, children, overlay[i].0, overlay[i].1);
    WithoutIs(nodes, overlay, names, i);
    hide PendingOk;
  }

  /** The name a live handle has leads to the node of its file. */
  lemma {:induction false} NodeIsNamed(nodes: Nodes, children: Index, overlay: Pending, names: PendingNames, i: nat)
    requires Shape(nodes) && Indexed(nodes, children) && PendingOk(nodes, overlay, names) && i in nodes && i != HOME
    ensures var (d, n) := (nodes[i].parent, nodes[i].name); d in children && n in children[d] && children[d][n] == i && (d, n) !in names
  {
    hide Shape, Indexed, Taken;
    var (d, n) := (nodes[i].parent, nodes[i].name);
    IndexAt(nodes, children, d, n, i);
    PathOf(nodes, i);
    if (d, n) in names {
      assert PendingAt(nodes, names, names[(d, n)], d, n);
      FreeMeans(nodes, nodes[d].path + [n], i);
    }
  }

  lemma {:induction false} PathOf(nodes: Nodes, i: nat)
    requires Shape(nodes) && i in nodes && i != HOME
    ensures nodes[i].parent in nodes && nodes[i].path == nodes[nodes[i].parent].path + [nodes[i].name]
  {
  }

  /** What a final flush finds under the name a live handle has. */
  lemma {:induction false} NamedByHandle(nodes: Nodes, children: Index, states: States, overlay: Pending,
      names: PendingNames, i: nat)
    requires Shape(nodes) && Indexed(nodes, children) && PendingOk(nodes, overlay, names) && Tied(nodes, states, overlay)
    requires i in states && !states[i].unlinked
    ensures var (d, n) := (states[i].dir, states[i].name);
            && d in children && Without(names, i) == names - {(d, n)}
            && (i in overlay ==> overlay[i] == (d, n) && d in nodes && nodes[d].content.Dir? && n !in children[d] && i !in nodes)
            && (i !in overlay ==> i in nodes && nodes[i].content.File? && n in children[d] && children[d][n] == i)
            && (i !in overlay ==> overlay - {i} == overlay && names - {(d, n)} == names)
  {
    hide Shape, Indexed, PendingOk, Taken, Without;
    assert Follows(nodes, overlay, i, states[i]);
    hide Tied;
    WithoutIs(nodes, overlay, names, i);
    if i in overlay {
      PendingIsUnnamed(nodes, children, overlay, names, i);
    } else {
      FileIsChildless(nodes, i);
      NodeIsNamed(nodes, children, overlay, names, i);
    }
  }

  lemma {:induction false} NewInode(nodes: Nodes, children: Index, states: States, next: nat, s: OpenWrite)
    requires Ground(nodes, children, states, next)
    ensures Ground(nodes, children, states[next := s], next + 1)
  {
    hide Indexed;
  }

  lemma {:induction false} SameInodes(nodes: Nodes, children: Index, states: States, next: nat, i: nat, s: OpenWrite)
    requires Ground(nodes, children, states, next) && i in states
    ensures Ground(nodes, children, states[i := s], next)
  {
  }

  lemma {:induction false} SameNodes(nodes: Nodes, children: Index, states: States, next: nat, i: nat, c: Content)
    requires Shape(nodes) && Ground(nodes, children, states, next) && i in nodes && nodes[i].content.File? && c.File?
    ensures Ground(nodes[i := nodes[i].(content := c)], children, states, next)
  {
    UpdateKeeps(nodes, children, i, c);
    hide Shape, Indexed;
  }

  lemma {:induction false} MoreNodes(nodes: Nodes, children: Index, states: States, next: nat, i: nat, d: nat,
      n: string, c: Content)
    requires Shape(nodes) && Ground(nodes, children, states, next) && i in states && i !in nodes && d in nodes && n !in children[d]
    ensures Ground(Inserted(nodes, i, d, n, c), Linked(children, d, n, i)[i := map[]], states, next)
  {
    InsertKeepsIndex(nodes, children, i, d, n, c);
    hide Shape, Indexed;
  }

  lemma {:induction false} Resizes(nodes: Nodes, states: States, overlay: Pending, names: PendingNames,
      writers: set<Path>, i: nat, c: Content)
    requires Consistent(nodes, states, overlay, names, writers) && i in nodes && nodes[i].content.File? && c.File?
    ensures Consistent(nodes[i := nodes[i].(content := c)], states, overlay, names, writers)
  {
    UpdateKeepsShape(nodes, i, c);
    hide Shape, PendingOk, Tied, Targets;
    ResizedIsTied(nodes, states, overlay, i, c);
    ResizedPending(nodes, overlay, names, i, c);
  }

  /** A pending create becomes a node of the tree under the same inode. */
  lemma {:induction false} Publishes(nodes: Nodes, states: States, overlay: Pending, names: PendingNames,
      writers: set<Path>, i: nat, c: Content)
    requires Consistent(nodes, states, overlay, names, writers) && i in overlay && c.File?
    ensures overlay[i].0 in nodes
    ensures Consistent(Inserted(nodes, i, overlay[i].0, overlay[i].1, c), states, overlay - {i}, Without(names, i), writers)
  {
    assert PendingAt(nodes, names, i, overlay[i].0, overlay[i].1);
    hide Shape, PendingOk, Tied, Targets, Inserted, Taken;
    InsertKeepsShape(nodes, i, overlay[i].0, overlay[i].1, c);
    PublishedIsTied(nodes, states, overlay, names, i, c);
    PublishedPending(nodes, overlay, names, i, c);
  }

  lemma {:induction false} LastClose(nodes: Nodes, states: States, overlay: Pending, names: PendingNames,
      writers: set<Path>, i: nat)
    requires Consistent(nodes, states, overlay, names, writers) && i in states
    ensures Consistent(nodes, states - {i}, overlay - {i}, Without(names, i), if states[i].unlinked then writers else writers - {states[i].path})
  {
    hide Shape, PendingOk, Tied, Targets, Without;
    PendingLeaves(nodes, overlay, names, i);
    Closes(nodes, states, overlay, i);
    TargetLeaves(nodes, states, overlay, names, i);
  }

  lemma {:induction false} PendingAtName(nodes: Nodes, children: Index, states: States, overlay: Pending,
      names: PendingNames, d: nat, n: string)
    requires PendingOk(nodes, overlay, names) && Tied(nodes, states, overlay) && (d, n) in names
    ensures var i := names[(d, n)];
            && i in overlay && overlay[i] == (d, n) && i in states && !states[i].unlinked && i !in nodes
            && d in nodes && states[i].path == nodes[d].path + [n] && Current(nodes, overlay, i) == Some(states[i].path)
  {
    hide Taken;
    var i := names[(d, n)];
    assert PendingAt(nodes, names, i, d, n);
    assert Follows(nodes, overlay, i, states[i]);
    hide PendingOk;
  }

  /** A pending create that loses its name without being marked as unlinked has no file. */
  lemma {:induction false} NamelessHandle(nodes: Nodes, states: States, overlay: Pending, names: PendingNames, i: nat)
    requires PendingOk(nodes, overlay, names) && Tied(nodes, states, overlay) && i in overlay
    ensures !Tied(nodes, states, overlay - {i})
  {
    hide Taken;
    assert PendingAt(nodes, names, i, overlay[i].0, overlay[i].1);
    hide PendingOk;
    assert i in states && !states[i].unlinked && !Follows(nodes, overlay - {i}, i, states[i]);
  }

  lemma {:induction false} UnlinksPending(nodes: Nodes, states: States, overlay: Pending, names: PendingNames,
      writers: set<Path>, i: nat)
    requires Consistent(nodes, states, overlay, names, writers) && i in overlay && i in states && i !in nodes && !states[i].unlinked
    ensures Consistent(nodes, states[i := states[i].(unlinked := true)], overlay - {i}, names - {overlay[i]}, writers - {states[i].path})
  {
    hide Shape, PendingOk, Tied, Targets, Without;
    WithoutIs(nodes, overlay, names, i);
    PendingLeaves(nodes, overlay, names, i);
    Unlinks(nodes, states, overlay, i);
    TargetLeaves(nodes, states, overlay, names, i);
  }

  lemma {:induction false} FileLeaves(nodes: Nodes, children: Index, states: States, next: nat, i: nat)
    requires Shape(nodes) && Ground(nodes, children, states, next) && i in nodes && nodes[i].content.File?
    ensures nodes[i].parent in children
    ensures Ground(nodes - {i}, Unindexed(nodes, children, i), if i in states then states[i := states[i].(unlinked := true)] else states, next)
  {
    FileIsChildless(nodes, i);
    RemoveKeepsIndex(nodes, children, i);
    hide Shape, Indexed, Unindexed;
  }

  lemma {:induction false} UnlinksNode(nodes: Nodes, states: States, overlay: Pending, names: PendingNames,
      writers: set<Path>, i: nat)
    requires Consistent(nodes, states, overlay, names, writers) && i in nodes && nodes[i].content.File?
    ensures i !in overlay && overlay - {i} == overlay
    ensures Consistent(nodes - {i}, if i in states then states[i := states[i].(unlinked := true)] else states, overlay, names, writers - {nodes[i].path})
  {
    hide Shape, PendingOk, Tied, Targets;
    FileHoldsNoPending(nodes, overlay, names, i);
    FileIsChildless(nodes, i);
    RemoveKeepsShape(nodes, i);
    DroppedPending(nodes, overlay, names, i);
    if i in states {
      ANodesState(nodes, states, overlay, names, i);
      TargetLeaves(nodes, states, overlay, names, i);
      UnlinkedIsTied(nodes, states, overlay, i);
    } else {
      DroppedIsTied(nodes, states, overlay, i);
      NoTargetThere(nodes, states, overlay, names, i);
    }
  }

  lemma {:induction false} UnlinkedIsTied(nodes: Nodes, states: States, overlay: Pending, i: nat)
    requires Tied(nodes, states, overlay) && i in nodes && i in states && i !in overlay && NonePending(overlay, i)
    ensures Tied(nodes - {i}, states[i := states[i].(unlinked := true)], overlay)
  {
    Closes(nodes, states, overlay, i);
    assert overlay - {i} == overlay;
    DroppedIsTied(nodes, states - {i}, overlay, i);
    hide Tied;
    assert (states - {i})[i := states[i].(unlinked := true)] == states[i := states[i].(unlinked := true)];
    StateJoins(nodes - {i}, states - {i}, overlay, i, states[i].(unlinked := true));
  }

  /** A file without a handle is nobody's target. */
  lemma {:induction false} NoTargetThere(nodes: Nodes, states: States, overlay: Pending, names: PendingNames, i: nat)
    requires Shape(nodes) && PendingOk(nodes, overlay, names) && Tied(nodes, states, overlay) && i in nodes && i !in states
    ensures nodes[i].path !in Targets(states)
  {
    hide Shape, PendingOk;
    if nodes[i].path in Targets(states) {
      var j :| j in states && !states[j].unlinked && states[j].path == nodes[i].path;
      assert Follows(nodes, overlay, j, states[j]);
      OnlyAt(nodes, overlay, names, i, j);
    }
  }

  lemma {:induction false} NodeLeaves(nodes: Nodes, children: Index, states: States, next: nat, i: nat)
    requires Shape(nodes) && Ground(nodes, children, states, next) && i in nodes && i != HOME && Childless(nodes, i)
    ensures nodes[i].parent in children
    ensures Ground(nodes - {i}, Unindexed(nodes, children, i), states, next)
    ensures !Taken(nodes - {i}, nodes[i].path)
  {
    RemoveKeepsIndex(nodes, children, i);
    NameFreed(nodes, i, nodes[i].path);
    hide Shape, Indexed, Unindexed, Taken;
  }

  lemma {:induction false} Drops(nodes: Nodes, states: States, overlay: Pending, names: PendingNames,
      writers: set<Path>, i: nat)
    requires Consistent(nodes, states, overlay, names, writers) && i in nodes && i != HOME && Childless(nodes, i)
    requires i !in states && NonePending(overlay, i)
    ensures Consistent(nodes - {i}, states, overlay, names, writers)
  {
    hide Shape, PendingOk, Tied, Targets, Childless, NonePending;
    RemoveKeepsShape(nodes, i);
    DroppedPending(nodes, overlay, names, i);
    DroppedIsTied(nodes, states, overlay, i);
  }

  lemma {:induction false} PendingHasState(nodes: Nodes, states: States, overlay: Pending, names: PendingNames, i: nat)
    requires PendingOk(nodes, overlay, names) && Tied(nodes, states, overlay) && i in overlay
    ensures i in states && !states[i].unlinked && overlay[i] == (states[i].dir, states[i].name) && i !in nodes
    ensures Without(names, i) == names - {overlay[i]}
  {
    hide Taken, Without;
    assert PendingAt(nodes, names, i, overlay[i].0, overlay[i].1);
    assert Follows(nodes, overlay, i, states[i]);
    WithoutIs(nodes, overlay, names, i);
    hide PendingOk;
  }

  /** A pending create under another free name; two creates under one name break the index. */
  lemma {:induction false} Repends(nodes: Nodes, states: States, overlay: Pending, names: PendingNames,
      writers: set<Path>, i: nat, e: nat, m: string, t: OpenWrite)
    requires Consistent(nodes, states, overlay, names, writers) && i in overlay && overlay[i] != (e, m)
    requires e in nodes && nodes[e].content.Dir? && !Taken(nodes, nodes[e].path + [m])
    requires !t.unlinked && t.path == nodes[e].path + [m] && t.dir == e && t.name == m
    ensures i in states
    ensures Consistent(nodes, states[i := t], overlay[i := (e, m)], (names - {overlay[i]})[(e, m) := i], writers - {states[i].path} + {t.path})
            <==> (e, m) !in names
  {
    hide Shape, PendingOk, Tied, Targets, Taken, Without;
    PendingHasState(nodes, states, overlay, names, i);
    if (e, m) in names {
      TwoUnderOneName(nodes, overlay, names, i, e, m);
    } else {
      var fewer, left := states - {i}, overlay - {i};
      assert fewer[i := t] == states[i := t] && left[i := (e, m)] == overlay[i := (e, m)];
      PendingLeaves(nodes, overlay, names, i);
      Closes(nodes, states, overlay, i);
      TargetLeaves(nodes, states, overlay, names, i);
      PendingJoins(nodes, left, Without(names, i), i, e, m);
      Creates(nodes, fewer, left, i, e, m, t);
      TargetJoins(fewer, i, t);
    }
  }

  lemma {:induction false} TwoUnderOneName(nodes: Nodes, overlay: Pending, names: PendingNames, i: nat, e: nat, m: string)
    requires PendingOk(nodes, overlay, names) && i in overlay && overlay[i] != (e, m) && (e, m) in names
    ensures !PendingOk(nodes, overlay[i := (e, m)], (names - {overlay[i]})[(e, m) := i])
  {
    hide Taken;
    var j := names[(e, m)];
    assert j != i && overlay[j] == (e, m);
    var more, names' := overlay[i := (e, m)], (names - {overlay[i]})[(e, m) := i];
    hide PendingOk;
    assert !PendingAt(nodes, names', j, more[j].0, more[j].1);
    PendingMeans(nodes, more, names', j);
  }

  lemma {:induction false} PendingMeans(nodes: Nodes, overlay: Pending, names: PendingNames, i: nat)
    ensures PendingOk(nodes, overlay, names) && i in overlay ==> PendingAt(nodes, names, i, overlay[i].0, overlay[i].1)
  {
    hide PendingAt;
  }

  lemma {:induction false} MayMoveMeans(nodes: Nodes, i: nat, p: nat, n: string, to: Path)
    requires MayMove(nodes, i, p, n, to)
    ensures i in nodes && i != HOME && p in nodes
  {
  }

  lemma {:induction false} MovedGround(nodes: Nodes, children: Index, states: States, next: nat, i: nat, p: nat,
      n: string, to: Path)
    requires MayMove(nodes, i, p, n, to) && Ground(nodes, children, states, next)
    ensures Ground(Renamed(nodes, i, p, n, to), Rehung(children, nodes[i].parent, nodes[i].name, p, n, i), AfterMove(nodes, states, i, p, n, to), next)
  {
    hide Indexed, MayMove, Renamed, Rehung, AfterMove;
    MayMoveMeans(nodes, i, p, n, to);
    MoveFacts(nodes, children, i, p, n, to);
    RenameKeepsIndex(nodes, children, i, p, n, to);
    RenamedKeys(nodes, i, p, n, to);
    SameStates(nodes, states, i, p, n, to);
  }

  lemma {:induction false} SameStates(nodes: Nodes, states: States, i: nat, p: nat, n: string, to: Path)
    requires i in nodes
    ensures AfterMove(nodes, states, i, p, n, to).Keys == states.Keys
  {
  }

  /** A move in the tree takes the open handles along, exactly when no create is pending at the new
      place. */
  lemma {:induction false} Moves(nodes: Nodes, states: States, overlay: Pending, names: PendingNames,
      writers: set<Path>, i: nat, p: nat, n: string, to: Path)
    requires MayMove(nodes, i, p, n, to) && Consistent(nodes, states, overlay, names, writers)
    ensures Consistent(Renamed(nodes, i, p, n, to), AfterMove(nodes, states, i, p, n, to), overlay, names,
                       WritersAfter(nodes[i].content.Dir?, writers, nodes[i].path, to))
            <==> (p, n) !in names
  {
    hide MayMove, Shape, PendingOk, Tied, Targets, Renamed, AfterMove, WritersAfter;
    MayMoveMeans(nodes, i, p, n, to);
    MovedPending(nodes, overlay, names, i, p, n, to);
    RenameKeepsShape(nodes, i, p, n, to);
    MovedIsTied(nodes, states, overlay, names, i, p, n, to);
    MovedWriters(nodes, states, overlay, names, i, p, n, to);
  }

  /** The tree without the node that has a key. */
  function Cleared(nodes: Nodes, path: Path): Nodes {
    map j | j in nodes && nodes[j].path != path :: nodes[j]
  }

  lemma {:induction false} ClearedOne(nodes: Nodes, i: nat)
    requires Shape(nodes) && i in nodes
    ensures Cleared(nodes, nodes[i].path) == nodes - {i}
  {
    hide Shape;
    forall j | j in nodes ensures nodes[j].path == nodes[i].path <==> j == i {
      SameKey(nodes, i, j);
    }
  }

  lemma {:induction false} ClearedNone(nodes: Nodes, path: Path)
    ensures !Taken(nodes, path) ==> Cleared(nodes, path) == nodes
  {
    hide Taken;
    if !Taken(nodes, path) {
      forall j | j in nodes ensures nodes[j].path != path {
        FreeMeans(nodes, path, j);
      }
    }
  }

  /** What is moved is what was there before the new place was cleared. */
  lemma {:induction false} RenamedFrom(was: Nodes, nodes: Nodes, states: States, overlay: Pending,
      names: PendingNames, i: nat, p: nat, n: string, to: Path)
    requires PendingOk(nodes, overlay, names) && i in nodes && i in was && was[i] == nodes[i] && nodes == Cleared(was, to)
    ensures i !in overlay && Current(Renamed(nodes, i, p, n, to), overlay, i) == Some(to)
    ensures RenamedTo(was, states, overlay, Renamed(nodes, i, p, n, to), AfterMove(nodes, states, i, p, n, to), overlay, i, p, n, to)
  {
    FileHoldsNoPending(nodes, overlay, names, i);
    RenamedAt(nodes, i, p, n, to, i);
    hide PendingOk, Renamed, Cleared;
  }

  /** A node that is not inside the moved one may take the free key below a directory. */
  lemma {:induction false} MayMoveThere(nodes: Nodes, children: Index, i: nat, src: Path, p: nat, n: string)
    requires Shape(nodes) && Names(nodes, i, src) && i != HOME && p in nodes && nodes[p].content.Dir?
    requires nodes[i].content.Dir? ==> !(src <= nodes[p].path + [n])
    requires !Taken(nodes, nodes[p].path + [n])
    ensures MayMove(nodes, i, p, n, nodes[p].path + [n])
  {
    hide Shape, Taken;
    PrefixOfLonger(src, nodes[p].path, n);
    NotBelowFile(nodes, i, p);
  }

  /** The whole effect of a rename of `i` to the free or freed key `to`. */
  ghost predicate RenamedTo(nodes: Nodes, states: States, overlay: Pending, nodes': Nodes, states': States,
      overlay': Pending, i: nat, p: nat, n: string, to: Path) {
    if i in overlay then
      && nodes' == Cleared(nodes, to) && overlay' == overlay[i := (p, n)] && i in states
      && states' == states[i := states[i].(path := to, dir := p, name := n, dirty := true)]
    else
      && i in nodes && i in Cleared(nodes, to) && overlay' == overlay
      && nodes' == Renamed(Cleared(nodes, to), i, p, n, to)
      && states' == AfterMove(nodes, states, i, p, n, to)
  }

  // ── a rename onto a pending create ────────────────────────────────────────

  /** A file `n` and a pending create `m` in the root, both open. */
  function FileAndCreate(n: string, m: string): (Nodes, States, Pending, PendingNames) {
    var nodes: Nodes := map[HOME := Node(HOME, "", [], Dir), 2 := Node(HOME, n, [n], File(0, 0))];
    var states: States := map[2 := OpenWrite([n], HOME, n, false, false, 1), 3 := OpenWrite([m], HOME, m, false, true, 1)];
    (nodes, states, map[3 := (HOME, m)], map[(HOME, m) := 3])
  }

  lemma {:induction false} FileAndCreateConsistent(n: string, m: string)
    requires n != m
    ensures var (nodes, states, overlay, names) := FileAndCreate(n, m); Consistent(nodes, states, overlay, names, {[n], [m]})
  {
    var (nodes, states, overlay, names) := FileAndCreate(n, m);
    forall i ensures !Names(nodes, i, [m]) {
      assert [n][0] == n && [m][0] == m;
    }
    assert nodes[HOME].path + [m] == [m] && nodes[HOME].path + [n] == [n];
    assert Shape(nodes);
    assert PendingAt(nodes, names, 3, HOME, m);
    assert Follows(nodes, overlay, 2, states[2]) && Follows(nodes, overlay, 3, states[3]);
    IsTarget(states, 2);
    IsTarget(states, 3);
    hide Shape, PendingAt, Follows;
    assert Targets(states) == {[n], [m]};
  }

  /** Renaming `n` to `m` in the tree leaves two open files that commit to one name. */
  lemma {:induction false} RenameOntoPendingCreate(n: string, m: string)
    requires n != m
    ensures var (nodes, states, overlay, names) := FileAndCreate(n, m);
            && Consistent(nodes, states, overlay, names, {[n], [m]}) && MayMove(nodes, 2, HOME, m, [m])
            && var now, after := Renamed(nodes, 2, HOME, m, [m]), AfterMove(nodes, states, 2, HOME, m, [m]);
            && Current(now, overlay, 2) == Current(now, overlay, 3) == Some([m])
            && !after[2].unlinked && !after[3].unlinked && after[2].path == after[3].path == [m]
            && !Consistent(now, after, overlay, names, WritersAfter(false, {[n], [m]}, [n], [m]))
  {
    var (nodes, states, overlay, names) := FileAndCreate(n, m);
    FileAndCreateConsistent(n, m);
    assert nodes[HOME].path + [m] == [m] && !([n] <= []) && [m] + [n][1..] == [m];
    assert !Taken(nodes, [m]) by {
      assert PendingAt(nodes, names, 3, HOME, m);
    }
    RenamedAt(nodes, 2, HOME, m, [m], HOME);
    RenamedAt(nodes, 2, HOME, m, [m], 2);
    Moves(nodes, states, overlay, names, {[n], [m]}, 2, HOME, m, [m]);
    hide Consistent, Renamed, Taken, Shape;
  }
}
