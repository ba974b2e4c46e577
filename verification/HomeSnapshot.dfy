/** `apply_home_snapshot` of `src/state.rs`: the Home tree becomes exactly what the store holds. */
module HomeSnapshot {
  import opened HomeTree

  // ── what is wanted ────────────────────────────────────────────────────────

  /** A directory that a key passes through. */
  predicate Passes(p: Path, key: Path) { p != [] && p < key }

  lemma {:induction false} PassesStep(p: Path, key: Path)
    requires key != []
    ensures var up := key[..|key| - 1]; Passes(p, key) <==> (p == up && up != []) || Passes(p, up)
  {
    var up := key[..|key| - 1];
    if p < key {
      assert p == key[..|p|];
      assert |p| < |up| ==> up[..|p|] == p;
    }
    if p < up {
      assert p == up[..|p|] == key[..|p|];
    }
  }

  /** The directories of the snapshot: the explicit ones and those files pass through. */
  ghost predicate Wanted(files: map<Path, Content>, dirs: set<Path>, p: Path) {
    p in dirs || exists f <- files :: Passes(p, f)
  }

  /** Normalized input: no key is both a file and a directory, and the directory list holds the
      parents of its members. */
  ghost predicate Normal(files: map<Path, Content>, dirs: set<Path>) {
    && [] !in files && [] !in dirs
    && (forall f <- files :: files[f].File? && !Wanted(files, dirs, f))
    && (forall d, p :: d in dirs && Passes(p, d) ==> p in dirs)
  }

  lemma {:induction false} WantedAbove(files: map<Path, Content>, dirs: set<Path>, p: Path, longer: Path)
    requires Normal(files, dirs) && p != [] && p < longer && (Wanted(files, dirs, longer) || longer in files)
    ensures Wanted(files, dirs, p)
  {
    assert Passes(p, longer);
    if longer !in dirs && longer !in files {
      var f :| f in files && Passes(longer, f);
      PrefixFacts(p, f, longer);
      assert Passes(p, f);
    }
  }

  /** A node the snapshot keeps: the root, a wanted directory, a wanted file. */
  ghost predicate Keeps(files: map<Path, Content>, dirs: set<Path>, n: Node) {
    || n.path == []
    || (n.content.Dir? && Wanted(files, dirs, n.path))
    || (n.content.File? && n.path in files)
  }

  // ── the three stages ──────────────────────────────────────────────────────

  /** Between the first removal and the last write: everything is wanted, and what was wanted
      before is still there under its inode. */
  ghost predicate Partial(files: map<Path, Content>, dirs: set<Path>, was: Nodes, now: Nodes) {
    && (forall j <- now :: Keeps(files, dirs, now[j]))
    && (forall j <- was :: Keeps(files, dirs, was[j]) ==>
          j in now && (now[j] == was[j] || (was[j].path in files && now[j] == was[j].(content := files[was[j].path]))))
  }

  /** These directories exist. */
  ghost predicate Made(nodes: Nodes, dirs: set<Path>) {
    forall d <- dirs :: exists i :: Names(nodes, i, d) && nodes[i].content.Dir?
  }

  /** These files are there with their attributes. */
  ghost predicate Written(nodes: Nodes, files: map<Path, Content>, keys: set<Path>) {
    forall f <- keys :: f in files && exists i :: Names(nodes, i, f) && nodes[i].content == files[f]
  }

  lemma {:induction false} EnsureIsPartial(files: map<Path, Content>, dirs: set<Path>, was: Nodes, mid: Nodes,
      now: Nodes, next: nat, d: Path)
    requires Normal(files, dirs) && Wanted(files, dirs, d)
    requires Partial(files, dirs, was, mid) && EnsuredDirs(mid, now, next, d) && Shape(mid)
    ensures Partial(files, dirs, was, now)
    ensures forall j <- mid :: j in now && now[j] == mid[j]
  {
    forall j | j in mid ensures j in now && now[j] == mid[j] {
      assert Keeps(files, dirs, mid[j]);
      if mid[j].content.File? && mid[j].path <= d {
        FileIsNotAbove(files, dirs, mid, j, d);
      }
    }
    forall j | j in now ensures Keeps(files, dirs, now[j]) {
      if !(j in mid && now[j] == mid[j]) && now[j].path != [] && now[j].path != d {
        WantedAbove(files, dirs, now[j].path, d);
      }
    }
  }

  lemma {:induction false} FileIsNotAbove(files: map<Path, Content>, dirs: set<Path>, nodes: Nodes, j: nat, d: Path)
    requires Normal(files, dirs) && Shape(nodes) && j in nodes && nodes[j].content.File? && Keeps(files, dirs, nodes[j])
    requires Wanted(files, dirs, d) || d in files
    ensures !(nodes[j].path < d)
    ensures Wanted(files, dirs, d) ==> nodes[j].path != d
  {
    RootIsDir(nodes, j);
    if nodes[j].path < d {
      WantedAbove(files, dirs, nodes[j].path, d);
    }
  }

  lemma {:induction false} RootIsDir(nodes: Nodes, j: nat)
    requires Shape(nodes) && j in nodes && nodes[j].content.File?
    ensures nodes[j].path != []
  {
  }

  lemma {:induction false} UpsertIsPartial(files: map<Path, Content>, dirs: set<Path>, was: Nodes, mid: Nodes,
      now: Nodes, next: nat, f: Path)
    requires Normal(files, dirs) && f in files
    requires Partial(files, dirs, was, mid) && Upserted(mid, now, next, f, files[f]) && Shape(mid)
    ensures Partial(files, dirs, was, now)
    ensures forall j <- mid :: j in now && (now[j] == mid[j] || (mid[j].path == f && now[j] == mid[j].(content := files[f])))
  {
    forall j | j in mid
      ensures j in now && (now[j] == mid[j] || (mid[j].path == f && now[j] == mid[j].(content := files[f])))
    {
      assert Keeps(files, dirs, mid[j]);
      if mid[j].content.File? {
        FileIsNotAbove(files, dirs, mid, j, f);
      }
      if f < mid[j].path {
        WantedAbove(files, dirs, f, mid[j].path);
      }
    }
    forall j | j in now ensures Keeps(files, dirs, now[j]) {
      if now[j].content.Dir? && now[j].path < f && now[j].path != [] {
        WantedAbove(files, dirs, now[j].path, f);
      }
    }
  }

  // ── the wanted directories, computed ──────────────────────────────────────

  /** The chain of `parent_key` of one key. */
  method AddParents(key: Path, wanted: set<Path>) returns (more: set<Path>)
    ensures forall p :: p in more <==> p in wanted || Passes(p, key)
  {
    more := wanted;
    var p := key;
    while p != []
      invariant forall q :: q in more || Passes(q, p) <==> q in wanted || Passes(q, key)
      decreases |p|
    {
      forall q ensures Passes(q, p) <==> (q == p[..|p| - 1] && p[..|p| - 1] != []) || Passes(q, p[..|p| - 1]) {
        PassesStep(q, p);
      }
      p := p[..|p| - 1];
      if p != [] {
        more := more + {p};
      }
    }
  }

  method WantedDirs(files: map<Path, Content>, dirs: set<Path>) returns (wanted: set<Path>)
    ensures forall p :: p in wanted <==> Wanted(files, dirs, p)
  {
    wanted := dirs;
    var left := files.Keys;
    while left != {}
      invariant left <= files.Keys
      invariant forall p :: p in wanted <==> p in dirs || exists f <- files.Keys - left :: Passes(p, f)
      decreases |left|
    {
      var f :| f in left;
      ghost var was, rest := wanted, left;
      wanted := AddParents(f, wanted);
      left := left - {f};
      assert files.Keys - left == (files.Keys - rest) + {f};
    }
    assert files.Keys - left == files.Keys;
  }

  // ── what is not wanted ────────────────────────────────────────────────────

  /** The children of one directory: those to look into, and those that go. */
  method SortChildren(t: Tree, ino: nat, key: Path, files: map<Path, Content>, wanted: set<Path>, ghost dirs: set<Path>)
    returns (subdirs: seq<(nat, Path)>, unwanted: set<nat>)
    requires t.Valid() && Names(t.nodes, ino, key) && forall p :: p in wanted <==> Wanted(files, dirs, p)
    ensures Looked(t.nodes, files, dirs, ino, subdirs, unwanted)
  {
    hide Shape, Indexed, Wanted, Keeps, Sorting, Sorted, Kept, Looked;
    subdirs, unwanted := [], {};
    NoneSorted(t, ino, files, dirs);
    var kids := t.children[ino];
    var left := kids.Keys;
    while left != {}
      invariant left <= kids.Keys && Sorting(t.nodes, files, dirs, ino, kids, left, subdirs, unwanted)
      decreases |left|
    {
      var n :| n in left;
      var child, childKey := kids[n], key + [n];
      ChildSorted(t, files, wanted, dirs, ino, key, left, subdirs, unwanted, n);
      left := left - {n};
      if t.nodes[child].content.Dir? {
        if childKey in wanted {
          subdirs := subdirs + [(child, childKey)];
        } else {
          unwanted := unwanted + {child};
        }
      } else if childKey !in files {
        unwanted := unwanted + {child};
      }
    }
    AllSorted(t, files, dirs, ino, subdirs, unwanted);
  }

  /** The children read so far have been put where they belong. */
  ghost predicate Sorting(nodes: Nodes, files: map<Path, Content>, dirs: set<Path>, ino: nat, kids: map<string, nat>,
      left: set<string>,
                          subdirs: seq<(nat, Path)>, unwanted: set<nat>) {
    && (forall s <- subdirs :: Kept(nodes, files, dirs, s) && nodes[s.0].parent == ino && s.0 != HOME && nodes[s.0].name !in left)
    && (forall a, b :: 0 <= a < b < |subdirs| ==> subdirs[a].0 != subdirs[b].0)
    && (forall v <- unwanted :: v in nodes && v != HOME && nodes[v].parent == ino && !Keeps(files, dirs, nodes[v]))
    && (forall n <- kids :: n !in left ==> Sorted(nodes, files, dirs, kids[n], subdirs, unwanted))
  }

  /** Where one child goes. */
  function Placed(subdir: bool, goes: bool, child: nat, key: Path, subdirs: seq<(nat, Path)>,
      unwanted: set<nat>): (seq<(nat, Path)>, set<nat>) {
    if subdir then (subdirs + [(child, key)], unwanted)
    else if goes then (subdirs, unwanted + {child})
    else (subdirs, unwanted)
  }

  lemma {:induction false} NoneSorted(t: Tree, ino: nat, files: map<Path, Content>, dirs: set<Path>)
    requires t.Valid() && ino in t.nodes
    ensures ino in t.children && Sorting(t.nodes, files, dirs, ino, t.children[ino], t.children[ino].Keys, [], {})
  {
    hide Shape, Indexed;
    IndexCovers(t.nodes, t.children, ino);
  }

  lemma {:induction false} SortedOneMore(nodes: Nodes, files: map<Path, Content>, dirs: set<Path>, ino: nat,
      kids: map<string, nat>, left: set<string>,
                                         subdirs: seq<(nat, Path)>, unwanted: set<nat>, n: string, key: Path)
    requires Sorting(nodes, files, dirs, ino, kids, left, subdirs, unwanted) && n in left && n in kids
    requires var c := kids[n]; c in nodes && c != HOME && nodes[c].path == key && nodes[c].parent == ino && nodes[c].name == n
    ensures var subdir := nodes[kids[n]].content.Dir? && Keeps(files, dirs, nodes[kids[n]]);
            var goes := !Keeps(files, dirs, nodes[kids[n]]);
            var (dirs', gone') := Placed(subdir, goes, kids[n], key, subdirs, unwanted);
            Sorting(nodes, files, dirs, ino, kids, left - {n}, dirs', gone')
  {
    hide Keeps;
    var c := kids[n];
    var subdir, goes := nodes[c].content.Dir? && Keeps(files, dirs, nodes[c]), !Keeps(files, dirs, nodes[c]);
    var (dirs', gone') := Placed(subdir, goes, c, key, subdirs, unwanted);
    forall m <- kids | m !in left - {n} ensures Sorted(nodes, files, dirs, kids[m], dirs', gone') {
      if m != n {
        assert Sorted(nodes, files, dirs, kids[m], subdirs, unwanted);
      } else if subdir {
        assert dirs'[|subdirs|] == (c, key);
      }
    }
    hide Kept;
  }

  lemma {:induction false} ChildSorted(t: Tree, files: map<Path, Content>, wanted: set<Path>, dirs: set<Path>,
      ino: nat, key: Path, left: set<string>,
                                       subdirs: seq<(nat, Path)>, unwanted: set<nat>, n: string)
    requires t.Valid() && Names(t.nodes, ino, key) && (forall p :: p in wanted <==> Wanted(files, dirs, p)) && ino in t.children
    requires Sorting(t.nodes, files, dirs, ino, t.children[ino], left, subdirs, unwanted) && n in left && n in t.children[ino]
    ensures var c := t.children[ino][n];
            && c in t.nodes
            && var (dirs', gone') := Placed(t.nodes[c].content.Dir? && key + [n] in wanted,
                                            if t.nodes[c].content.Dir? then key + [n] !in wanted else key + [n] !in files,
                                            c, key + [n], subdirs, unwanted);
            Sorting(t.nodes, files, dirs, ino, t.children[ino], left - {n}, dirs', gone')
  {
    hide Shape, Indexed, Wanted, Keeps, Sorting, Placed;
    var child := t.children[ino][n];
    ChildByName(t.nodes, t.children, ino, n);
    ChildIsNotHome(t.nodes, t.children, ino, n);
    IndexAt(t.nodes, t.children, ino, n, child);
    KeepsChild(t.nodes, files, dirs, child, key + [n]);
    SortedOneMore(t.nodes, files, dirs, ino, t.children[ino], left, subdirs, unwanted, n, key + [n]);
  }

  lemma {:induction false} AllSorted(t: Tree, files: map<Path, Content>, dirs: set<Path>, ino: nat, subdirs: seq<(nat,
      Path)>, unwanted: set<nat>)
    requires t.Valid() && ino in t.children && Sorting(t.nodes, files, dirs, ino, t.children[ino], {}, subdirs, unwanted)
    ensures Looked(t.nodes, files, dirs, ino, subdirs, unwanted)
  {
    hide Shape, Indexed, Keeps, Sorted, Kept;
    forall i | i in t.nodes && i != HOME && t.nodes[i].parent == ino ensures Sorted(t.nodes, files, dirs, i, subdirs, unwanted) {
      IndexAt(t.nodes, t.children, ino, t.nodes[i].name, i);
    }
  }

  /** An entry of the work list: a wanted directory with its key. */
  ghost predicate Kept(nodes: Nodes, files: map<Path, Content>, dirs: set<Path>, s: (nat, Path)) {
    s.0 in nodes && nodes[s.0].path == s.1 && nodes[s.0].content.Dir? && Keeps(files, dirs, nodes[s.0])
  }

  /** The child has been put where it belongs. */
  ghost predicate Sorted(nodes: Nodes, files: map<Path, Content>, dirs: set<Path>, i: nat, subdirs: seq<(nat, Path)>,
      unwanted: set<nat>) {
    i in nodes
    && (nodes[i].content.Dir? && Keeps(files, dirs, nodes[i]) ==> (i, nodes[i].path) in subdirs)
    && (!Keeps(files, dirs, nodes[i]) ==> i in unwanted)
  }

  lemma {:induction false} KeepsChild(nodes: Nodes, files: map<Path, Content>, dirs: set<Path>, i: nat, key: Path)
    requires Names(nodes, i, key) && key != []
    ensures Keeps(files, dirs, nodes[i]) <==> if nodes[i].content.Dir? then Wanted(files, dirs, key) else key in files
  {
  }

  function Inos(stack: seq<(nat, Path)>): (r: set<nat>)
    ensures forall s <- stack :: s.0 in r
  {
    set s | s in stack :: s.0
  }

  /** The walk so far: `done` have been looked into, `stack` wait, `victims` go. */
  ghost predicate Walking(nodes: Nodes, files: map<Path, Content>, dirs: set<Path>, stack: seq<(nat, Path)>,
      done: set<nat>, victims: set<nat>) {
    && (forall s <- stack :: Kept(nodes, files, dirs, s) && s.0 !in done)
    && (forall a, b :: 0 <= a < b < |stack| ==> stack[a].0 != stack[b].0)
    && done <= nodes.Keys && (HOME in done || HOME in Inos(stack))
    && (forall i :: i in done || i in Inos(stack) ==> i == HOME || (i in nodes && nodes[i].parent in done))
    && (forall i <- nodes :: i != HOME && nodes[i].parent in done ==>
          && (nodes[i].content.Dir? && Keeps(files, dirs, nodes[i]) ==> i in done || i in Inos(stack))
          && (!Keeps(files, dirs, nodes[i]) ==> i in victims))
    && (forall v <- victims :: v in nodes && v != HOME && !Keeps(files, dirs, nodes[v]))
  }

  /** What one look into the directory on top of the work list brings. */
  ghost predicate Looked(nodes: Nodes, files: map<Path, Content>, dirs: set<Path>, ino: nat, subdirs: seq<(nat,
      Path)>, unwanted: set<nat>) {
    && (forall s <- subdirs :: Kept(nodes, files, dirs, s) && nodes[s.0].parent == ino && s.0 != HOME)
    && (forall a, b :: 0 <= a < b < |subdirs| ==> subdirs[a].0 != subdirs[b].0)
    && (forall v <- unwanted :: v in nodes && v != HOME && nodes[v].parent == ino && !Keeps(files, dirs, nodes[v]))
    && (forall i <- nodes :: i != HOME && nodes[i].parent == ino ==> Sorted(nodes, files, dirs, i, subdirs, unwanted))
  }

  lemma {:induction false} InosSplit(rest: seq<(nat, Path)>, more: seq<(nat, Path)>, i: nat)
    ensures i in Inos(rest + more) <==> i in Inos(rest) || i in Inos(more)
  {
    assert forall s :: s in rest + more <==> s in rest || s in more;
  }

  /** The new work list holds no directory twice, and none that is done. */
  lemma {:induction false} NextStack(nodes: Nodes, files: map<Path, Content>, dirs: set<Path>,
                                     stack: seq<(nat, Path)>, done: set<nat>, victims: set<nat>, subdirs: seq<(nat, Path)>, unwanted: set<nat>)
    requires Walking(nodes, files, dirs, stack, done, victims) && stack != []
    requires Looked(nodes, files, dirs, stack[|stack| - 1].0, subdirs, unwanted)
    ensures var ino, next := stack[|stack| - 1].0, stack[..|stack| - 1] + subdirs;
            && (forall s <- next :: Kept(nodes, files, dirs, s) && s.0 !in done + {ino})
            && (forall a, b :: 0 <= a < b < |next| ==> next[a].0 != next[b].0)
  {
    hide Keeps, Sorted;
    var ino, rest := stack[|stack| - 1].0, stack[..|stack| - 1];
    var next := rest + subdirs;
    assert stack[|stack| - 1] in stack;
    forall s | s in subdirs ensures s.0 !in done && s.0 !in Inos(stack) {
      ParentNotDone(nodes, files, dirs, stack, done, victims, ino, s.0);
    }
    forall a | 0 <= a < |next| ensures Kept(nodes, files, dirs, next[a]) && next[a].0 !in done + {ino} {
      if a < |rest| {
        assert stack[a] in stack && stack[a].0 != stack[|stack| - 1].0;
      } else {
        assert next[a] in subdirs;
      }
    }
    forall a, b | 0 <= a < b < |next| ensures next[a].0 != next[b].0 {
      if a < |rest| {
        assert stack[a] in stack;
        assert b < |rest| ==> stack[a].0 != stack[b].0;
        assert b >= |rest| ==> next[b] in subdirs;
      } else {
        assert subdirs[a - |rest|].0 != subdirs[b - |rest|].0;
      }
    }
  }

  lemma {:induction false} WalkOn(nodes: Nodes, files: map<Path, Content>, dirs: set<Path>,
                                  stack: seq<(nat, Path)>, done: set<nat>, victims: set<nat>, subdirs: seq<(nat, Path)>, unwanted: set<nat>)
    requires Walking(nodes, files, dirs, stack, done, victims) && stack != []
    requires Looked(nodes, files, dirs, stack[|stack| - 1].0, subdirs, unwanted)
    ensures var ino := stack[|stack| - 1].0;
            Walking(nodes, files, dirs, stack[..|stack| - 1] + subdirs, done + {ino}, victims + unwanted)
  {
    hide Keeps, Inos;
    var top := stack[|stack| - 1];
    var ino, rest := top.0, stack[..|stack| - 1];
    NextStack(nodes, files, dirs, stack, done, victims, subdirs, unwanted);
    assert stack == rest + [top];
    forall i ensures i in Inos(rest + subdirs) <==> i in Inos(rest) || i in Inos(subdirs) {
      InosSplit(rest, subdirs, i);
    }
    forall i ensures i in Inos(stack) <==> i in Inos(rest) || i == ino {
      InosSplit(rest, [top], i);
      InosOne(top, i);
    }
    forall i | i in Inos(subdirs) ensures i != HOME && i in nodes && nodes[i].parent == ino {
      InosFrom(subdirs, i);
    }
    assert top in stack;
  }

  lemma {:induction false} InosOne(s: (nat, Path), i: nat)
    ensures i in Inos([s]) <==> i == s.0
  {
  }

  lemma {:induction false} InosFrom(stack: seq<(nat, Path)>, i: nat)
    requires i in Inos(stack)
    ensures exists s <- stack :: s.0 == i
  {
  }

  /** A child of a directory still waiting is neither done nor waiting itself. */
  lemma {:induction false} ParentNotDone(nodes: Nodes, files: map<Path, Content>, dirs: set<Path>,
                                         stack: seq<(nat, Path)>, done: set<nat>, victims: set<nat>, ino: nat, i: nat)
    requires Walking(nodes, files, dirs, stack, done, victims) && ino in Inos(stack) && i in nodes && i != HOME && nodes[i].parent == ino
    ensures i !in done && i !in Inos(stack)
  {
    var s :| s in stack && s.0 == ino;
    assert ino !in done;
  }

  /** When nothing waits, every wanted directory has been looked into. */
  lemma {:induction false} AllWalked(nodes: Nodes, files: map<Path, Content>, dirs: set<Path>, done: set<nat>,
      victims: set<nat>, i: nat)
    requires Shape(nodes) && Normal(files, dirs) && Walking(nodes, files, dirs, [], done, victims)
    requires i in nodes && nodes[i].content.Dir? && Keeps(files, dirs, nodes[i])
    ensures i in done
    decreases |nodes[i].path|
  {
    if i != HOME {
      var p := nodes[i].parent;
      NotHomeHasKey(nodes, i);
      ParentNamed(nodes, i, nodes[i].path);
      ParentKept(nodes, files, dirs, i);
      AllWalked(nodes, files, dirs, done, victims, p);
    }
    hide Shape, Normal;
  }

  lemma {:induction false} ParentKept(nodes: Nodes, files: map<Path, Content>, dirs: set<Path>, i: nat)
    requires Shape(nodes) && Normal(files, dirs) && i in nodes && i != HOME && Keeps(files, dirs, nodes[i])
    ensures var p := nodes[i].parent; p in nodes && nodes[p].content.Dir? && Keeps(files, dirs, nodes[p])
  {
    var p := nodes[i].parent;
    NotHomeHasKey(nodes, i);
    ParentNamed(nodes, i, nodes[i].path);
    if nodes[p].path != [] {
      WantedAbove(files, dirs, nodes[p].path, nodes[i].path);
    }
  }

  /** Every unwanted node is at or below a victim. */
  lemma {:induction false} UnwantedIsCovered(nodes: Nodes, files: map<Path, Content>, dirs: set<Path>, done: set<nat>,
      victims: set<nat>, i: nat)
    requires Shape(nodes) && Normal(files, dirs) && Walking(nodes, files, dirs, [], done, victims)
    requires i in nodes && !Keeps(files, dirs, nodes[i])
    ensures exists v <- victims :: nodes[v].path <= nodes[i].path
    decreases |nodes[i].path|
  {
    HomeKept(nodes, files, dirs);
    NotHomeHasKey(nodes, i);
    ParentNamed(nodes, i, nodes[i].path);
    var p := nodes[i].parent;
    DirParent(nodes, i);
    if Keeps(files, dirs, nodes[p]) {
      AllWalked(nodes, files, dirs, done, victims, p);
      assert i in victims;
    } else {
      UnwantedIsCovered(nodes, files, dirs, done, victims, p);
      var v :| v in victims && nodes[v].path <= nodes[p].path;
      PrefixFacts(nodes[v].path, nodes[i].path, nodes[p].path);
    }
  }

  lemma {:induction false} HomeKept(nodes: Nodes, files: map<Path, Content>, dirs: set<Path>)
    requires Shape(nodes)
    ensures Keeps(files, dirs, nodes[HOME])
  {
  }

  lemma {:induction false} DirParent(nodes: Nodes, i: nat)
    requires Shape(nodes) && i in nodes && i != HOME
    ensures nodes[i].parent in nodes && nodes[nodes[i].parent].content.Dir?
  {
  }

  /** The walk over the existing tree. */
  method FindVictims(t: Tree, files: map<Path, Content>, wanted: set<Path>,
      ghost dirs: set<Path>) returns (victims: set<nat>)
    requires t.Valid() && Normal(files, dirs) && forall p :: p in wanted <==> Wanted(files, dirs, p)
    ensures forall v <- victims :: v in t.nodes && v != HOME && !Keeps(files, dirs, t.nodes[v])
    ensures forall i <- t.nodes :: !Keeps(files, dirs, t.nodes[i]) ==> exists v <- victims :: t.nodes[v].path <= t.nodes[i].path
  {
    var stack: seq<(nat, Path)> := [(HOME, [])];
    ghost var done: set<nat> := {};
    victims := {};
    StartWalk(t.nodes, files, dirs);
    hide Shape, Indexed, Normal, Keeps, Walking;
    while stack != []
      invariant Walking(t.nodes, files, dirs, stack, done, victims)
      decreases t.nodes.Keys - done
    {
      var (ino, key) := stack[|stack| - 1];
      TopOfStack(t.nodes, files, dirs, stack, done, victims);
      var subdirs, unwanted := SortChildren(t, ino, key, files, wanted, dirs);
      WalkOn(t.nodes, files, dirs, stack, done, victims, subdirs, unwanted);
      stack, done, victims := stack[..|stack| - 1] + subdirs, done + {ino}, victims + unwanted;
    }
    VictimsAreUnwanted(t.nodes, files, dirs, done, victims);
    forall i | i in t.nodes && !Keeps(files, dirs, t.nodes[i]) ensures exists v <- victims :: t.nodes[v].path <= t.nodes[i].path {
      UnwantedIsCovered(t.nodes, files, dirs, done, victims, i);
    }
  }

  lemma {:induction false} StartWalk(nodes: Nodes, files: map<Path, Content>, dirs: set<Path>)
    requires Shape(nodes)
    ensures Walking(nodes, files, dirs, [(HOME, [])], {}, {})
  {
    assert Inos([(HOME, [])]) == {HOME};
  }

  lemma {:induction false} TopOfStack(nodes: Nodes, files: map<Path, Content>, dirs: set<Path>, stack: seq<(nat,
      Path)>, done: set<nat>, victims: set<nat>)
    requires Walking(nodes, files, dirs, stack, done, victims) && stack != []
    ensures var s := stack[|stack| - 1]; Names(nodes, s.0, s.1) && s.0 !in done && s.0 in nodes.Keys
  {
    assert stack[|stack| - 1] in stack;
  }

  lemma {:induction false} VictimsAreUnwanted(nodes: Nodes, files: map<Path, Content>, dirs: set<Path>,
      done: set<nat>, victims: set<nat>)
    requires Walking(nodes, files, dirs, [], done, victims)
    ensures forall v <- victims :: v in nodes && v != HOME && !Keeps(files, dirs, nodes[v])
  {
  }

  // ── removal ───────────────────────────────────────────────────────────────

  /** The node lies at or below one of these. */
  ghost predicate Doomed(was: Nodes, victims: set<nat>, j: nat) {
    j in was && exists v <- victims :: v in was && was[v].path <= was[j].path
  }

  /** What is left after some victims went. */
  ghost predicate LeftAfter(was: Nodes, now: Nodes, victims: set<nat>) {
    && (forall j <- now :: j in was && now[j] == was[j] && !Doomed(was, victims, j))
    && (forall j <- was :: !Doomed(was, victims, j) ==> j in now)
  }

  lemma {:induction false} DoomedOneMore(was: Nodes, victims: set<nat>, v: nat, j: nat)
    requires v in was && j in was
    ensures Doomed(was, victims + {v}, j) <==> Doomed(was, victims, j) || was[v].path <= was[j].path
  {
  }

  lemma {:induction false} LeftAfterOneMore(was: Nodes, mid: Nodes, victims: set<nat>, v: nat)
    requires LeftAfter(was, mid, victims) && v in was
    ensures v in mid ==> LeftAfter(was, Cut(mid, was[v].path), victims + {v})
    ensures v !in mid ==> LeftAfter(was, mid, victims + {v})
  {
    hide Doomed;
    var now := if v in mid then Cut(mid, was[v].path) else mid;
    forall j | j in was ensures j in now <==> j in mid && !(was[v].path <= was[j].path) {
      InCutKey(mid, was[v].path, j);
      if v !in mid && was[v].path <= was[j].path {
        DoomedBelow(was, victims, v, j);
      }
    }
    forall j | j in now ensures j in mid && now[j] == mid[j] {
      InCutKey(mid, was[v].path, j);
    }
    forall j | j in was ensures j in mid ==> (Doomed(was, victims + {v}, j) <==> was[v].path <= was[j].path) {
      DoomedOneMore(was, victims, v, j);
    }
    forall j | j in was ensures !Doomed(was, victims + {v}, j) ==> !Doomed(was, victims, j) && !(was[v].path <= was[j].path) {
      DoomedOneMore(was, victims, v, j);
    }
    hide Cut;
  }

  lemma {:induction false} DoomedBelow(was: Nodes, victims: set<nat>, v: nat, j: nat)
    requires v in was && j in was && was[v].path <= was[j].path && Doomed(was, victims, v)
    ensures Doomed(was, victims, j)
  {
    var u :| u in victims && u in was && was[u].path <= was[v].path;
    PrefixFacts(was[u].path, was[j].path, was[v].path);
  }

  lemma {:induction false} OneLess<T>(all: set<T>, left: set<T>, x: T)
    requires left <= all && x in left
    ensures (all - left) + {x} == all - (left - {x}) && left - {x} <= all && |left - {x}| < |left|
  {
  }

  lemma {:induction false} AllDone<T>(all: set<T>)
    ensures all - {} == all
  {
  }

  method RemoveVictim(t: Tree, v: nat, ghost was: Nodes, ghost gone: set<nat>)
    requires t.Valid() && LeftAfter(was, t.nodes, gone) && v in was && v != HOME
    modifies t
    ensures t.Valid() && t.nextIno == old(t.nextIno) && LeftAfter(was, t.nodes, gone + {v})
  {
    hide Shape, Indexed, LeftAfter, Cut;
    LeftAfterOneMore(was, t.nodes, gone, v);
    if v in t.nodes {
      LeftIsSame(was, t.nodes, gone, v);
      t.RemoveWhole(v);
    }
  }

  method RemoveVictims(t: Tree, victims: set<nat>)
    requires t.Valid() && forall v <- victims :: v in t.nodes && v != HOME
    modifies t
    ensures t.Valid() && LeftAfter(old(t.nodes), t.nodes, victims)
  {
    ghost var was := t.nodes;
    assert forall v <- victims :: v in was && v != HOME;
    hide *;
    NothingDoomed(was, victims);
    var left := victims;
    while left != {}
      invariant t.Valid() && left <= victims && LeftAfter(was, t.nodes, victims - left)
      decreases |left|
    {
      var v :| v in left;
      RemoveVictim(t, v, was, victims - left);
      OneLess(victims, left, v);
      left := left - {v};
    }
    AllDone(victims);
  }

  lemma {:induction false} NothingDoomed(was: Nodes, victims: set<nat>)
    ensures LeftAfter(was, was, victims - victims)
  {
  }

  lemma {:induction false} LeftIsSame(was: Nodes, now: Nodes, victims: set<nat>, v: nat)
    requires LeftAfter(was, now, victims) && v in now
    ensures v in was && now[v] == was[v]
  {
  }

  lemma {:induction false} KeptMeansSpared(files: map<Path, Content>, dirs: set<Path>, was: Nodes, victims: set<nat>, j: nat)
    requires Shape(was) && Normal(files, dirs) && j in was
    requires forall v <- victims :: v in was && v != HOME && !Keeps(files, dirs, was[v])
    requires forall i <- was :: !Keeps(files, dirs, was[i]) ==> exists v <- victims :: was[v].path <= was[i].path
    ensures Keeps(files, dirs, was[j]) <==> !Doomed(was, victims, j)
  {
    hide Normal, Keeps;
    if Keeps(files, dirs, was[j]) {
      forall v | v in victims && v in was ensures !(was[v].path <= was[j].path) {
        KeptIsNotBelow(was, files, dirs, v, j);
      }
    }
    hide Shape;
  }

  lemma {:induction false} SparedIsPartial(files: map<Path, Content>, dirs: set<Path>, was: Nodes, now: Nodes,
      victims: set<nat>)
    requires LeftAfter(was, now, victims)
    requires forall j <- was :: Keeps(files, dirs, was[j]) <==> !Doomed(was, victims, j)
    ensures Partial(files, dirs, was, now)
  {
    hide Keeps, Doomed;
  }

  /** Removing the victims leaves exactly what is kept. */
  lemma {:induction false} RemovalIsPartial(files: map<Path, Content>, dirs: set<Path>, was: Nodes, now: Nodes,
      victims: set<nat>)
    requires Shape(was) && Normal(files, dirs) && LeftAfter(was, now, victims)
    requires forall v <- victims :: v in was && v != HOME && !Keeps(files, dirs, was[v])
    requires forall i <- was :: !Keeps(files, dirs, was[i]) ==> exists v <- victims :: was[v].path <= was[i].path
    ensures Partial(files, dirs, was, now)
  {
    hide *;
    forall j | j in was ensures Keeps(files, dirs, was[j]) <==> !Doomed(was, victims, j) {
      KeptMeansSpared(files, dirs, was, victims, j);
    }
    SparedIsPartial(files, dirs, was, now, victims);
  }

  lemma {:induction false} KeptIsNotBelow(was: Nodes, files: map<Path, Content>, dirs: set<Path>, v: nat, j: nat)
    requires Shape(was) && Normal(files, dirs) && v in was && j in was && !Keeps(files, dirs, was[v]) && Keeps(files, dirs, was[j])
    ensures !(was[v].path <= was[j].path)
  {
    if was[v].path < was[j].path {
      PrefixIsDir(was, v, j);
      if was[v].path != [] {
        WantedAbove(files, dirs, was[v].path, was[j].path);
      }
    }
    SamePathSameNode(was, v, j);
  }

  lemma {:induction false} SamePathSameNode(nodes: Nodes, v: nat, j: nat)
    requires Shape(nodes) && v in nodes && j in nodes
    ensures nodes[v].path == nodes[j].path ==> v == j
  {
  }

  lemma {:induction false} PrefixIsDir(nodes: Nodes, v: nat, j: nat)
    requires Shape(nodes) && v in nodes && j in nodes && nodes[v].path < nodes[j].path
    ensures nodes[v].content.Dir?
  {
    assert Names(nodes, j, nodes[j].path);
    PrefixTaken(nodes, nodes[j].path, nodes[v].path);
    var i :| Names(nodes, i, nodes[v].path) && nodes[i].content.Dir?;
    OneNode(nodes, i, v, nodes[v].path);
  }

  // ── the whole of it ───────────────────────────────────────────────────────

  method MakeDirs(t: Tree, files: map<Path, Content>, wanted: set<Path>, ghost dirs: set<Path>, ghost was: Nodes)
    requires t.Valid() && Normal(files, dirs) && (forall p <- wanted :: Wanted(files, dirs, p)) && Partial(files, dirs, was, t.nodes)
    modifies t
    ensures t.Valid() && Partial(files, dirs, was, t.nodes) && Made(t.nodes, wanted)
  {
    hide Shape, Indexed, Normal, Partial, EnsuredDirs, Wanted;
    var left := wanted;
    while left != {}
      invariant t.Valid() && Partial(files, dirs, was, t.nodes) && left <= wanted && Made(t.nodes, wanted - left)
      decreases |left|
    {
      var d :| d in left;
      ghost var mid, next := t.nodes, t.nextIno;
      var ino := t.EnsureDirs(d);
      EnsureIsPartial(files, dirs, was, mid, t.nodes, next, d);
      MadeOneMore(mid, t.nodes, wanted - left, d, ino);
      assert (wanted - left) + {d} == wanted - (left - {d});
      left := left - {d};
    }
    assert wanted - left == wanted;
  }

  lemma {:induction false} MadeOneMore(mid: Nodes, now: Nodes, dirs: set<Path>, d: Path, i: nat)
    requires Made(mid, dirs) && Names(now, i, d) && now[i].content.Dir?
    requires forall j <- mid :: j in now && now[j] == mid[j]
    ensures Made(now, dirs + {d})
  {
    forall e | e in dirs ensures exists j :: Names(now, j, e) && now[j].content.Dir? {
      var j :| Names(mid, j, e) && mid[j].content.Dir?;
      assert Names(now, j, e) && now[j].content.Dir?;
    }
  }

  lemma {:induction false} MadeStays(mid: Nodes, now: Nodes, dirs: set<Path>, f: Path, c: Content)
    requires Made(mid, dirs) && f !in dirs
    requires forall j <- mid :: j in now && (now[j] == mid[j] || (mid[j].path == f && now[j] == mid[j].(content := c)))
    ensures Made(now, dirs)
  {
    forall e | e in dirs ensures exists j :: Names(now, j, e) && now[j].content.Dir? {
      var j :| Names(mid, j, e) && mid[j].content.Dir?;
      assert Names(now, j, e) && now[j].content.Dir?;
    }
  }

  lemma {:induction false} WrittenOneMore(files: map<Path, Content>, mid: Nodes, now: Nodes, keys: set<Path>, f: Path)
    requires Written(mid, files, keys) && f in files && f !in keys && exists i :: Names(now, i, f) && now[i].content == files[f]
    requires forall j <- mid :: j in now && (now[j] == mid[j] || (mid[j].path == f && now[j] == mid[j].(content := files[f])))
    ensures Written(now, files, keys + {f})
  {
    forall e | e in keys ensures exists j :: Names(now, j, e) && now[j].content == files[e] {
      var j :| Names(mid, j, e) && mid[j].content == files[e];
      assert Names(now, j, e) && now[j].content == files[e];
    }
  }

  method WriteFile(t: Tree, f: Path, files: map<Path, Content>, ghost wanted: set<Path>, ghost dirs: set<Path>,
      ghost was: Nodes, ghost done: set<Path>)
    requires t.Valid() && Normal(files, dirs) && Partial(files, dirs, was, t.nodes) && Made(t.nodes, wanted)
    requires f in files && f != [] && files[f].File? && f !in wanted && f !in done && Written(t.nodes, files, done)
    modifies t
    ensures t.Valid() && Partial(files, dirs, was, t.nodes) && Made(t.nodes, wanted) && Written(t.nodes, files, done + {f})
  {
    hide Shape, Indexed, Normal, Partial, Upserted, Made, Written, Wanted;
    ghost var mid, next := t.nodes, t.nextIno;
    t.Upsert(f, files[f]);
    UpsertIsPartial(files, dirs, was, mid, t.nodes, next, f);
    UpsertWrites(mid, t.nodes, next, f, files[f]);
    MadeStays(mid, t.nodes, wanted, f, files[f]);
    WrittenOneMore(files, mid, t.nodes, done, f);
  }

  method WriteFiles(t: Tree, files: map<Path, Content>, ghost wanted: set<Path>, ghost dirs: set<Path>, ghost was: Nodes)
    requires t.Valid() && Normal(files, dirs) && Partial(files, dirs, was, t.nodes) && Made(t.nodes, wanted)
    requires forall p <- wanted :: Wanted(files, dirs, p)
    modifies t
    ensures t.Valid() && Partial(files, dirs, was, t.nodes) && Made(t.nodes, wanted) && Written(t.nodes, files, files.Keys)
  {
    assert forall f <- files :: f != [] && files[f].File? && f !in wanted;
    hide *;
    NothingWritten(t.nodes, files);
    ghost var keys := files.Keys;
    var left := files.Keys;
    while left != {}
      invariant t.Valid() && Partial(files, dirs, was, t.nodes) && Made(t.nodes, wanted)
      invariant left <= keys && Written(t.nodes, files, keys - left)
      decreases |left|
    {
      var f :| f in left;
      WriteFile(t, f, files, wanted, dirs, was, keys - left);
      OneLess(keys, left, f);
      left := left - {f};
    }
    AllDone(keys);
  }

  lemma {:induction false} NothingWritten(nodes: Nodes, files: map<Path, Content>)
    ensures Written(nodes, files, files.Keys - files.Keys)
  {
  }

  lemma {:induction false} UpsertWrites(was: Nodes, now: Nodes, next: nat, key: Path, c: Content)
    requires Upserted(was, now, next, key, c)
    ensures exists i :: Names(now, i, key) && now[i].content == c
  {
  }

  /** What a snapshot promises: exactly the wanted files, with their attributes, and the wanted
      directories are there; and a key that was there with the same kind keeps its inode. */
  ghost predicate Exact(files: map<Path, Content>, dirs: set<Path>, was: Nodes, now: Nodes) {
    && (forall j <- now ::
          || j == HOME
          || (now[j].content.Dir? && Wanted(files, dirs, now[j].path))
          || (now[j].path in files && now[j].content == files[now[j].path]))
    && (forall d :: Wanted(files, dirs, d) ==> exists i :: Names(now, i, d) && now[i].content.Dir?)
    && (forall f <- files :: exists i :: Names(now, i, f) && now[i].content == files[f])
    && (forall j <- was :: j == HOME || (was[j].content.Dir? && Wanted(files, dirs, was[j].path)) ==> j in now && now[j] == was[j])
    && (forall j <- was :: was[j].content.File? && was[j].path in files ==> j in now && now[j] == was[j].(content := files[was[j].path]))
  }

  lemma {:induction false} RootOnly(nodes: Nodes)
    requires Shape(nodes)
    ensures HOME in nodes && nodes[HOME].path == [] && forall j <- nodes :: nodes[j].path == [] <==> j == HOME
  {
  }

  lemma {:induction false} ThereAll(files: map<Path, Content>, dirs: set<Path>, wanted: set<Path>, now: Nodes)
    requires Made(now, wanted) && Written(now, files, files.Keys) && forall p :: p in wanted <==> Wanted(files, dirs, p)
    ensures forall d :: Wanted(files, dirs, d) ==> exists i :: Names(now, i, d) && now[i].content.Dir?
    ensures forall f <- files :: exists i :: Names(now, i, f) && now[i].content == files[f]
  {
    hide Wanted;
  }

  lemma {:induction false} PartialBecomesExact(files: map<Path, Content>, dirs: set<Path>, wanted: set<Path>,
      was: Nodes, now: Nodes)
    requires Shape(was) && Shape(now) && Normal(files, dirs) && (forall p :: p in wanted <==> Wanted(files, dirs, p))
    requires Partial(files, dirs, was, now) && Made(now, wanted) && Written(now, files, files.Keys)
    ensures Exact(files, dirs, was, now)
  {
    hide Shape, Normal, Wanted, Partial, Made, Written;
    RootOnly(was);
    RootOnly(now);
    RootNotFile(files, dirs);
    forall j | j in now && now[j].path in files ensures now[j].content == files[now[j].path] {
      WrittenHolds(files, now, j);
    }
    NothingElse(files, dirs, was, now);
    KeptStay(files, dirs, was, now);
    ThereAll(files, dirs, wanted, now);
  }

  lemma {:induction false} NothingElse(files: map<Path, Content>, dirs: set<Path>, was: Nodes, now: Nodes)
    requires Partial(files, dirs, was, now)
    requires forall j <- now :: now[j].path == [] <==> j == HOME
    requires forall j <- now :: now[j].path in files ==> now[j].content == files[now[j].path]
    ensures forall j <- now ::
              || j == HOME
              || (now[j].content.Dir? && Wanted(files, dirs, now[j].path))
              || (now[j].path in files && now[j].content == files[now[j].path])
  {
    hide Wanted;
    forall j | j in now ensures Keeps(files, dirs, now[j]) {
    }
  }

  lemma {:induction false} RootNotFile(files: map<Path, Content>, dirs: set<Path>)
    requires Normal(files, dirs)
    ensures [] !in files && forall f <- files :: !Wanted(files, dirs, f)
  {
  }

  /** What was wanted and there has kept its inode, and has the wanted attributes. */
  lemma {:induction false} KeptStay(files: map<Path, Content>, dirs: set<Path>, was: Nodes, now: Nodes)
    requires Partial(files, dirs, was, now) && [] !in files && (forall f <- files :: !Wanted(files, dirs, f))
    requires HOME in was && was[HOME].path == []
    requires forall j <- now :: now[j].path in files ==> now[j].content == files[now[j].path]
    ensures forall j <- was :: j == HOME || (was[j].content.Dir? && Wanted(files, dirs, was[j].path)) ==> j in now && now[j] == was[j]
    ensures forall j <- was :: was[j].content.File? && was[j].path in files ==> j in now && now[j] == was[j].(content := files[was[j].path])
  {
    hide Wanted;
    forall j | j in was && was[j].content.File? && was[j].path in files
      ensures j in now && now[j] == was[j].(content := files[was[j].path])
    {
      assert Keeps(files, dirs, was[j]);
    }
    forall j | j in was && (j == HOME || (was[j].content.Dir? && Wanted(files, dirs, was[j].path))) ensures j in now && now[j] == was[j] {
      assert Keeps(files, dirs, was[j]);
    }
  }

  lemma {:induction false} WrittenHolds(files: map<Path, Content>, nodes: Nodes, j: nat)
    requires Shape(nodes) && Written(nodes, files, files.Keys) && j in nodes && nodes[j].path in files
    ensures nodes[j].content == files[nodes[j].path]
  {
    var i :| Names(nodes, i, nodes[j].path) && nodes[i].content == files[nodes[j].path];
    OneNode(nodes, i, j, nodes[j].path);
  }

  /** The first stage: drop what is not wanted. */
  method RemoveUnwanted(t: Tree, files: map<Path, Content>, wanted: set<Path>, ghost dirs: set<Path>)
    requires t.Valid() && Normal(files, dirs) && forall p :: p in wanted <==> Wanted(files, dirs, p)
    modifies t
    ensures t.Valid() && Partial(files, dirs, old(t.nodes), t.nodes)
  {
    hide Indexed, Normal, Keeps, LeftAfter, Partial, Wanted;
    ghost var was := t.nodes;
    assert Shape(was);
    hide Shape;
    var victims := FindVictims(t, files, wanted, dirs);
    RemoveVictims(t, victims);
    RemovalIsPartial(files, dirs, was, t.nodes, victims);
  }

  /** `apply_home_snapshot`. */
  method ApplySnapshot(t: Tree, files: map<Path, Content>, dirs: set<Path>)
    requires t.Valid() && Normal(files, dirs)
    modifies t
    ensures t.Valid() && Exact(files, dirs, old(t.nodes), t.nodes)
  {
    hide Indexed, Normal, Partial, Made, Written, Exact, Wanted, Shape;
    ghost var was := t.nodes;
    var wanted := WantedDirs(files, dirs);
    RemoveUnwanted(t, files, wanted, dirs);
    MakeDirs(t, files, wanted, dirs, was);
    WriteFiles(t, files, wanted, dirs, was);
    PartialBecomesExact(files, dirs, wanted, was, t.nodes);
  }
}
