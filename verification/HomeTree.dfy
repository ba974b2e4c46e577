/** The in-memory Home tree of `src/state.rs`: an inode graph with a by-name child index and the
    key cached in every node. Keys are sequences of names; Keys relates them to strings. */
module HomeTree {
  import opened Options

  type Path = seq<string>

  datatype Content = Dir | File(size: nat, mtime: nat)

  /** `path` is the cached key. */
  datatype Node = Node(parent: nat, name: string, path: Path, content: Content)

  type Nodes = map<nat, Node>

  /** The by-name index of every node's children. */
  type Index = map<nat, map<string, nat>>

  const HOME: nat := 1

  // ── the graph is a tree, and the cached keys are its paths ────────────────

  ghost predicate Shape(nodes: Nodes) {
    && HOME in nodes && nodes[HOME].path == [] && nodes[HOME].content.Dir?
    && (forall i <- nodes :: i != HOME ==>
          && nodes[i].parent in nodes && nodes[nodes[i].parent].content.Dir?
          && nodes[i].path == nodes[nodes[i].parent].path + [nodes[i].name])
    && (forall i, j :: i in nodes && j in nodes && nodes[i].path == nodes[j].path ==> i == j)
  }

  predicate Entry(children: Index, p: nat, n: string, i: nat) {
    p in children && n in children[p] && children[p][n] == i
  }

  predicate IsChild(nodes: Nodes, p: nat, n: string, i: nat) {
    i in nodes && i != HOME && nodes[i].parent == p && nodes[i].name == n
  }

  /** The index holds exactly the parent links, read the other way round. */
  ghost predicate Indexed(nodes: Nodes, children: Index) {
    && children.Keys == nodes.Keys
    && forall p, n, i :: Entry(children, p, n, i) <==> IsChild(nodes, p, n, i)
  }

  /** The node a key names, if any. */
  ghost predicate Names(nodes: Nodes, i: nat, path: Path) {
    i in nodes && nodes[i].path == path
  }

  ghost predicate Taken(nodes: Nodes, path: Path) {
    exists i :: Names(nodes, i, path)
  }

  /** Looking a name up in the index finds exactly the node whose cached key extends the parent's. */
  lemma {:induction false} ChildByName(nodes: Nodes, children: Index, p: nat, n: string)
    requires Shape(nodes) && Indexed(nodes, children) && p in nodes
    ensures n in children[p] ==> Names(nodes, children[p][n], nodes[p].path + [n])
    ensures n !in children[p] ==> !Taken(nodes, nodes[p].path + [n])
  {
    if n in children[p] {
      assert Entry(children, p, n, children[p][n]);
    }
    if i :| Names(nodes, i, nodes[p].path + [n]) {
      var q := nodes[i].parent;
      assert i != HOME;
      assert nodes[q].path + [nodes[i].name] == nodes[p].path + [n];
      assert nodes[q].path == (nodes[q].path + [nodes[i].name])[..|nodes[p].path|] == nodes[p].path;
      assert nodes[i].name == (nodes[p].path + [n])[|nodes[p].path|] == n;
      assert IsChild(nodes, p, n, i);
    }
  }

  /** Walk the index from a node, name by name (`home_ino_for_key` from the Home root). */
  function Walk(children: Index, i: nat, path: Path): Option<nat>
    decreases |path|
  {
    if path == [] then Some(i)
    else if i in children && path[0] in children[i] then Walk(children, children[i][path[0]], path[1..])
    else None
  }

  lemma {:induction false} WalkFrom(nodes: Nodes, children: Index, i: nat, path: Path)
    requires Shape(nodes) && Indexed(nodes, children) && i in nodes
    ensures Walk(children, i, path).Some? ==> Names(nodes, Walk(children, i, path).value, nodes[i].path + path)
    ensures Walk(children, i, path).None? ==> !Taken(nodes, nodes[i].path + path)
    decreases |path|
  {
    hide Shape, Indexed;
    if path == [] {
      assert nodes[i].path + path == nodes[i].path;
    } else {
      IndexCovers(nodes, children, i);
      ChildByName(nodes, children, i, path[0]);
      assert nodes[i].path + path == (nodes[i].path + [path[0]]) + path[1..];
      if path[0] in children[i] {
        WalkFrom(nodes, children, children[i][path[0]], path[1..]);
      } else if Taken(nodes, nodes[i].path + path) {
        PrefixTaken(nodes, nodes[i].path + path, nodes[i].path + [path[0]]);
      }
    }
  }

  lemma {:induction false} IndexCovers(nodes: Nodes, children: Index, i: nat)
    requires Indexed(nodes, children)
    ensures i in nodes <==> i in children
  {
  }

  /** Every prefix of a key that names a node names a node, a directory if it is proper. */
  lemma {:induction false} PrefixTaken(nodes: Nodes, path: Path, prefix: Path)
    requires Shape(nodes) && Taken(nodes, path) && prefix <= path
    ensures Taken(nodes, prefix)
    ensures prefix < path ==> exists i :: Names(nodes, i, prefix) && nodes[i].content.Dir?
    decreases |path|
  {
    if prefix != path {
      var i :| Names(nodes, i, path);
      var p := nodes[i].parent;
      assert nodes[p].path == path[..|path| - 1];
      assert Names(nodes, p, path[..|path| - 1]) && nodes[p].content.Dir?;
      if prefix != nodes[p].path {
        PrefixTaken(nodes, nodes[p].path, prefix);
      }
    }
  }

  /** The key cached in a node is the key that reaches it from the root, and the only one. */
  lemma {:induction false} CachedKeyReachesNode(nodes: Nodes, children: Index, path: Path, i: nat)
    requires Shape(nodes) && Indexed(nodes, children)
    ensures Walk(children, HOME, path) == Some(i) <==> Names(nodes, i, path)
  {
    WalkFrom(nodes, children, HOME, path);
    assert nodes[HOME].path + path == path;
  }

  /** The node `n` parent links up. */
  function Above(nodes: Nodes, i: nat, n: nat): nat
    requires Shape(nodes) && i in nodes
    decreases n
  {
    if n == 0 || i == HOME then i else Above(nodes, nodes[i].parent, n - 1)
  }

  lemma {:induction false} RootKey(nodes: Nodes)
    requires Shape(nodes)
    ensures HOME in nodes && nodes[HOME].path == []
  {
  }

  lemma {:induction false} ParentKey(nodes: Nodes, i: nat)
    requires Shape(nodes) && i in nodes && i != HOME
    ensures nodes[i].parent in nodes && |nodes[i].path| > 0 && nodes[nodes[i].parent].path == nodes[i].path[..|nodes[i].path| - 1]
  {
  }

  /** Following parent links, one step for each name of the key, ends at the root, and passes nodes
      of all the shorter keys on the way: there is no cycle. */
  lemma {:induction false} ParentsEnd(nodes: Nodes, i: nat, n: nat)
    requires Shape(nodes) && i in nodes && n <= |nodes[i].path|
    ensures Above(nodes, i, n) in nodes && nodes[Above(nodes, i, n)].path == nodes[i].path[..|nodes[i].path| - n]
    ensures Above(nodes, i, n) == HOME <==> n == |nodes[i].path|
    decreases n
  {
    hide Shape;
    RootKey(nodes);
    SameKey(nodes, i, HOME);
    if n > 0 {
      ParentKey(nodes, i);
      ParentsEnd(nodes, nodes[i].parent, n - 1);
    }
  }

  lemma {:induction false} SameKey(nodes: Nodes, i: nat, j: nat)
    requires Shape(nodes) && i in nodes && j in nodes
    ensures nodes[i].path == nodes[j].path <==> i == j
  {
  }

  // ── one node ──────────────────────────────────────────────────────────────

  function Inserted(nodes: Nodes, i: nat, p: nat, n: string, c: Content): Nodes
    requires p in nodes
  {
    nodes[i := Node(p, n, nodes[p].path + [n], c)]
  }

  lemma {:induction false} InsertKeepsShape(nodes: Nodes, i: nat, p: nat, n: string, c: Content)
    requires Shape(nodes) && i !in nodes && p in nodes && nodes[p].content.Dir? && !Taken(nodes, nodes[p].path + [n])
    ensures Shape(Inserted(nodes, i, p, n, c))
  {
    var r := Inserted(nodes, i, p, n, c);
    forall j | j in nodes ensures r[j].path != r[i].path {
      assert !Names(nodes, j, r[i].path);
    }
  }

  function Linked(children: Index, p: nat, n: string, i: nat): Index {
    var siblings: map<string, nat> := if p in children then children[p] else map[];
    children[p := siblings[n := i]]
  }

  lemma {:induction false} IndexAt(nodes: Nodes, children: Index, p: nat, n: string, i: nat)
    requires Indexed(nodes, children)
    ensures Entry(children, p, n, i) <==> IsChild(nodes, p, n, i)
  {
  }

  lemma {:induction false} LinkedEntry(children: Index, p: nat, n: string, i: nat, q: nat, m: string, j: nat)
    requires p != i
    ensures Entry(Linked(children, p, n, i)[i := map[]], q, m, j)
            <==> q != i && if q == p && m == n then j == i else Entry(children, q, m, j)
  {
  }

  lemma {:induction false} InsertedChild(nodes: Nodes, i: nat, p: nat, n: string, c: Content, q: nat, m: string, j: nat)
    requires p in nodes && i != HOME
    ensures IsChild(Inserted(nodes, i, p, n, c), q, m, j) <==> if j == i then q == p && m == n else IsChild(nodes, q, m, j)
  {
  }

  lemma {:induction false} ChildHasParent(nodes: Nodes, p: nat, n: string, i: nat)
    requires Shape(nodes) && IsChild(nodes, p, n, i)
    ensures p in nodes && i in nodes && i != p && i != HOME
  {
  }

  lemma {:induction false} InsertKeepsIndex(nodes: Nodes, children: Index, i: nat, p: nat, n: string, c: Content)
    requires Shape(nodes) && Indexed(nodes, children) && i !in nodes && p in nodes && n !in children[p]
    ensures Indexed(Inserted(nodes, i, p, n, c), Linked(children, p, n, i)[i := map[]])
  {
    var r, k := Inserted(nodes, i, p, n, c), Linked(children, p, n, i)[i := map[]];
    assert HOME in nodes && i != HOME && k.Keys == r.Keys && forall j :: !Entry(children, p, n, j);
    hide Shape, Entry, IsChild, Inserted, Linked;
    forall q, m, j ensures Entry(k, q, m, j) <==> IsChild(r, q, m, j) {
      LinkedEntry(children, p, n, i, q, m, j);
      InsertedChild(nodes, i, p, n, c, q, m, j);
      hide Indexed;
      IndexAt(nodes, children, q, m, j);
      if IsChild(nodes, q, m, j) {
        ChildHasParent(nodes, q, m, j);
      }
    }
  }

  /** No node has `i` for its parent. */
  ghost predicate Childless(nodes: Nodes, i: nat) {
    forall j <- nodes :: j != HOME ==> nodes[j].parent != i
  }

  lemma {:induction false} RemoveKeepsShape(nodes: Nodes, i: nat)
    requires Shape(nodes) && i in nodes && i != HOME && Childless(nodes, i)
    ensures Shape(nodes - {i})
  {
  }

  function Unindexed(nodes: Nodes, children: Index, i: nat): Index
    requires i in nodes && nodes[i].parent in children
  {
    children[nodes[i].parent := children[nodes[i].parent] - {nodes[i].name}] - {i}
  }

  lemma {:induction false} UnindexedEntry(nodes: Nodes, children: Index, i: nat, q: nat, m: string, j: nat)
    requires i in nodes && nodes[i].parent in children && nodes[i].parent != i
    ensures Entry(Unindexed(nodes, children, i), q, m, j)
            <==> q != i && !(q == nodes[i].parent && m == nodes[i].name) && Entry(children, q, m, j)
  {
  }

  lemma {:induction false} RemovedChild(nodes: Nodes, i: nat, q: nat, m: string, j: nat)
    ensures IsChild(nodes - {i}, q, m, j) <==> j != i && IsChild(nodes, q, m, j)
  {
  }

  lemma {:induction false} SameChild(children: Index, p: nat, n: string, i: nat, j: nat)
    requires Entry(children, p, n, i) && Entry(children, p, n, j)
    ensures i == j
  {
  }

  lemma {:induction false} RemoveKeepsIndex(nodes: Nodes, children: Index, i: nat)
    requires Shape(nodes) && Indexed(nodes, children) && i in nodes && i != HOME && Childless(nodes, i)
    ensures nodes[i].parent in children
    ensures Indexed(nodes - {i}, Unindexed(nodes, children, i))
  {
    var r, k, p, n := nodes - {i}, Unindexed(nodes, children, i), nodes[i].parent, nodes[i].name;
    assert IsChild(nodes, p, n, i);
    assert p in nodes && p != i && k.Keys == r.Keys;
    assert forall m, j :: !IsChild(nodes, i, m, j);
    hide Shape, Entry, IsChild, Unindexed, Childless;
    IndexAt(nodes, children, p, n, i);
    forall q, m, j ensures Entry(k, q, m, j) <==> IsChild(r, q, m, j) {
      UnindexedEntry(nodes, children, i, q, m, j);
      RemovedChild(nodes, i, q, m, j);
      IndexAt(nodes, children, q, m, j);
      hide Indexed;
      if q == p && m == n && Entry(children, q, m, j) {
        SameChild(children, p, n, i, j);
      }
      if j == i && IsChild(nodes, q, m, j) {
        OneParent(nodes, q, m, p, n, i);
      }
    }
  }

  lemma {:induction false} OneParent(nodes: Nodes, q: nat, m: string, p: nat, n: string, i: nat)
    requires IsChild(nodes, q, m, i) && IsChild(nodes, p, n, i)
    ensures q == p && m == n
  {
  }

  lemma {:induction false} EmptyIndexIsChildless(nodes: Nodes, children: Index, i: nat)
    requires Shape(nodes) && Indexed(nodes, children) && i in nodes
    ensures children[i] == map[] <==> Childless(nodes, i)
  {
    if children[i] != map[] {
      var n :| n in children[i];
      IndexAt(nodes, children, i, n, children[i][n]);
    } else if j :| j in nodes && j != HOME && nodes[j].parent == i {
      IndexAt(nodes, children, i, nodes[j].name, j);
    }
    hide Indexed, Shape;
  }

  // ── subtrees ──────────────────────────────────────────────────────────────

  /** Everything strictly below a key. */
  function Below(nodes: Nodes, path: Path): set<nat> {
    set i | i in nodes && path < nodes[i].path
  }

  /** The nodes without those strictly below a key. */
  function Trimmed(nodes: Nodes, path: Path): Nodes { nodes - Below(nodes, path) }

  /** The nodes without those at and below a key. */
  function Cut(nodes: Nodes, path: Path): Nodes {
    nodes - (set i | i in nodes && path <= nodes[i].path)
  }

  /** The nodes without the subtrees of some children of a key. */
  function CutNames(nodes: Nodes, path: Path, names: set<string>): Nodes {
    nodes - (set i | i in nodes && path < nodes[i].path && nodes[i].path[|path|] in names)
  }

  lemma {:induction false} SameEnd(p: Path, n: string, q: Path, m: string)
    ensures p + [n] == q + [m] <==> p == q && n == m
  {
    if p + [n] == q + [m] {
      assert p == (p + [n])[..|p|] && q == (q + [m])[..|q|] && n == (p + [n])[|p|] && m == (q + [m])[|q|];
    }
  }

  lemma {:induction false} PrefixStep(path: Path, n: string, longer: Path)
    ensures path + [n] <= longer <==> path < longer && longer[|path|] == n
    ensures path + [n] < longer ==> path < longer
  {
    if path < longer && longer[|path|] == n {
      assert longer[..|path| + 1] == path + [n];
    }
    if path + [n] <= longer {
      assert longer[..|path|] == (path + [n])[..|path|] == path;
      assert longer[|path|] == (path + [n])[|path|];
    }
  }

  lemma {:induction false} InCut(nodes: Nodes, path: Path, names: set<string>, j: nat)
    ensures j in CutNames(nodes, path, names) <==> j in nodes && !(path < nodes[j].path && nodes[j].path[|path|] in names)
    ensures j in CutNames(nodes, path, names) ==> CutNames(nodes, path, names)[j] == nodes[j]
  {
  }

  lemma {:induction false} InTrimmed(nodes: Nodes, path: Path, j: nat)
    ensures j in Trimmed(nodes, path) <==> j in nodes && !(path < nodes[j].path)
    ensures j in Trimmed(nodes, path) ==> Trimmed(nodes, path)[j] == nodes[j]
  {
  }

  lemma {:induction false} CutOneMore(nodes: Nodes, path: Path, names: set<string>, n: string, i: nat)
    requires Shape(nodes) && Names(nodes, i, path + [n]) && n !in names
    ensures Trimmed(CutNames(nodes, path, names), path + [n]) - {i} == CutNames(nodes, path, names + {n})
  {
    var path', cut := path + [n], CutNames(nodes, path, names);
    var l, r := Trimmed(cut, path') - {i}, CutNames(nodes, path, names + {n});
    hide Shape, CutNames, Trimmed;
    forall j ensures j in l <==> j in r {
      InCut(nodes, path, names, j);
      InCut(nodes, path, names + {n}, j);
      InTrimmed(cut, path', j);
      if j in nodes {
        PrefixStep(path, n, nodes[j].path);
        if nodes[j].path == path' {
          OneNode(nodes, i, j, path');
        }
      }
    }
    forall j | j in l ensures l[j] == r[j] {
      InCut(nodes, path, names, j);
      InCut(nodes, path, names + {n}, j);
      InTrimmed(cut, path', j);
    }
  }

  lemma {:induction false} OneNode(nodes: Nodes, i: nat, j: nat, path: Path)
    requires Shape(nodes) && Names(nodes, i, path) && Names(nodes, j, path)
    ensures i == j
  {
  }

  /** Below a node there is nothing but the subtrees of its children. */
  lemma {:induction false} CutAllNames(nodes: Nodes, children: Index, i: nat)
    requires Shape(nodes) && Indexed(nodes, children) && i in nodes
    ensures CutNames(nodes, nodes[i].path, children[i].Keys) == Trimmed(nodes, nodes[i].path)
  {
    var path := nodes[i].path;
    forall j | j in nodes && path < nodes[j].path ensures nodes[j].path[|path|] in children[i] {
      BelowAChild(nodes, children, i, j);
    }
    hide Shape, Indexed;
  }

  lemma {:induction false} BelowAChild(nodes: Nodes, children: Index, i: nat, j: nat)
    requires Shape(nodes) && Indexed(nodes, children) && i in nodes && j in nodes && nodes[i].path < nodes[j].path
    ensures nodes[j].path[|nodes[i].path|] in children[i]
  {
    hide Shape, Indexed;
    var path, n := nodes[i].path, nodes[j].path[|nodes[i].path|];
    IndexCovers(nodes, children, i);
    PrefixStep(path, n, nodes[j].path);
    assert Names(nodes, j, nodes[j].path);
    PrefixTaken(nodes, nodes[j].path, path + [n]);
    ChildByName(nodes, children, i, n);
  }

  /** The next child to go is still there, with everything below it. */
  lemma {:induction false} KidStays(was: Nodes, index: Index, ino: nat, gone: set<string>, n: string)
    requires Shape(was) && Indexed(was, index) && ino in was && n in index[ino] && n !in gone
    ensures var child, now := index[ino][n], CutNames(was, was[ino].path, gone);
            && Names(was, child, was[ino].path + [n]) && Names(now, child, was[ino].path + [n]) && child != HOME
            && Below(now, was[ino].path + [n]) < Below(was, was[ino].path)
  {
    var path, child := was[ino].path, index[ino][n];
    hide Shape, Indexed;
    var now := CutNames(was, path, gone);
    ChildByName(was, index, ino, n);
    ChildIsNotHome(was, index, ino, n);
    PrefixStep(path, n, path + [n]);
    forall j | j in Below(now, path + [n]) ensures j in Below(was, path) {
      PrefixStep(path, n, now[j].path);
    }
    assert child in Below(was, path) && child !in Below(now, path + [n]);
  }

  lemma {:induction false} ChildIsNotHome(nodes: Nodes, children: Index, p: nat, n: string)
    requires Indexed(nodes, children) && p in nodes && n in children[p]
    ensures children[p][n] != HOME && children[p][n] in nodes
  {
    IndexAt(nodes, children, p, n, children[p][n]);
  }

  lemma {:induction false} TrimmedIsChildless(nodes: Nodes, i: nat)
    requires Shape(nodes) && i in nodes && Below(nodes, nodes[i].path) == {}
    ensures Childless(nodes, i)
  {
    forall j | j in nodes && j != HOME ensures nodes[j].parent != i {
      assert j !in Below(nodes, nodes[i].path);
    }
  }

  class Tree {
    var nodes: Nodes
    var children: Index
    var nextIno: nat

    ghost predicate Valid()
      reads this
    {
      && Shape(nodes) && Indexed(nodes, children)
      && forall i <- nodes :: i < nextIno
    }

    constructor ()
      ensures Valid() && nodes == map[HOME := Node(HOME, "", [], Dir)]
    {
      nodes, children, nextIno := map[HOME := Node(HOME, "", [], Dir)], map[HOME := map[]], HOME + 1;
    }

    /** `alloc_ino` and `insert_node`. */
    method InsertNode(p: nat, n: string, c: Content) returns (ino: nat)
      requires Valid() && p in nodes && nodes[p].content.Dir? && n !in children[p]
      modifies this
      ensures Valid() && ino == old(nextIno) && nextIno == ino + 1 && ino !in old(nodes)
      ensures nodes == Inserted(old(nodes), ino, p, n, c)
    {
      hide Shape, Indexed, Inserted, Linked, Taken, Names;
      ino := nextIno;
      ChildByName(nodes, children, p, n);
      InsertKeepsShape(nodes, ino, p, n, c);
      InsertKeepsIndex(nodes, children, ino, p, n, c);
      InsertedKeys(nodes, ino, p, n, c);
      nextIno := nextIno + 1;
      children := Linked(children, p, n, ino)[ino := map[]];
      nodes := Inserted(nodes, ino, p, n, c);
    }

    lemma {:induction false} InsertedKeys(nodes: Nodes, i: nat, p: nat, n: string, c: Content)
      requires p in nodes
      ensures Inserted(nodes, i, p, n, c).Keys == nodes.Keys + {i}
    {
    }

    /** `remove_node`, of a node without children. */
    method RemoveNode(ino: nat)
      requires Valid() && ino in nodes && ino != HOME && Childless(nodes, ino)
      modifies this`nodes, this`children
      ensures Valid() && nodes == old(nodes) - {ino}
    {
      hide Shape, Indexed, Childless, Unindexed;
      RemoveKeepsShape(nodes, ino);
      RemoveKeepsIndex(nodes, children, ino);
      children := Unindexed(nodes, children, ino);
      nodes := nodes - {ino};
    }

    /** `remove_subtree`: everything below the node, children first. */
    method RemoveSubtree(ino: nat)
      requires Valid() && ino in nodes
      modifies this`nodes, this`children
      ensures Valid() && nodes == Trimmed(old(nodes), old(nodes)[ino].path)
      decreases Below(nodes, nodes[ino].path)
    {
      hide Shape, Indexed, Childless, CutNames, Trimmed, Below;
      ghost var was, index := nodes, children;
      ghost var path := nodes[ino].path;
      ghost var gone: set<string> := {};
      IndexCovers(nodes, children, ino);
      var kids := children[ino];
      var left := kids.Keys;
      CutNothing(nodes, path);
      while left != {}
        invariant Valid() && nodes == CutNames(was, path, gone)
        invariant gone + left == kids.Keys && gone !! left
        decreases |left|
      {
        var n :| n in left;
        var child := kids[n];
        KidStays(was, index, ino, gone, n);
        RemoveSubtree(child);
        CutOneMore(was, path, gone, n, child);
        TrimmedKeeps(CutNames(was, path, gone), path + [n], child);
        RemoveNode(child);
        gone, left := gone + {n}, left - {n};
      }
      CutAllNames(was, index, ino);
      assert gone == kids.Keys;
    }

    lemma {:induction false} CutNothing(nodes: Nodes, path: Path)
      ensures CutNames(nodes, path, {}) == nodes
    {
    }

    lemma {:induction false} TrimmedKeeps(nodes: Nodes, path: Path, i: nat)
      requires Names(nodes, i, path)
      ensures var t := Trimmed(nodes, path);
              i in t && t[i] == nodes[i] && (Shape(t) ==> Childless(t, i))
    {
      var t := Trimmed(nodes, path);
      if Shape(t) {
        assert Below(t, path) == {};
        TrimmedIsChildless(t, i);
      }
    }

    // ── directories along a key ─────────────────────────────────────────────

    /** One directory below `p`; a file in the way loses its place. */
    method EnsureDir(p: nat, n: string) returns (ino: nat)
      requires Valid() && p in nodes && nodes[p].content.Dir?
      modifies this
      ensures Valid() && nextIno >= old(nextIno)
      ensures EnsuredDirs(old(nodes), nodes, old(nextIno), old(nodes)[p].path + [n])
      ensures Names(nodes, ino, old(nodes)[p].path + [n]) && nodes[ino].content.Dir?
    {
      hide Shape, Indexed, Childless;
      IndexCovers(nodes, children, p);
      ChildByName(nodes, children, p, n);
      if n in children[p] {
        var child := children[p][n];
        ChildIsNotHome(nodes, children, p, n);
        if nodes[child].content.Dir? {
          return child;
        }
        FileIsChildless(nodes, child);
        NameFreed(nodes, child, nodes[p].path + [n]);
        RemoveNode(child);
        ChildByName(nodes, children, p, n);
        IndexCovers(nodes, children, p);
      }
      ino := InsertNode(p, n, Dir);
    }

    /** `ensure_home_dirs`: every directory along the key, the key itself included. */
    method EnsureDirs(key: Path) returns (ino: nat)
      requires Valid()
      modifies this
      ensures Valid() && nextIno >= old(nextIno)
      ensures EnsuredDirs(old(nodes), nodes, old(nextIno), key)
      ensures Names(nodes, ino, key) && nodes[ino].content.Dir?
    {
      hide Indexed, EnsuredDirs;
      ino := HOME;
      EnsuredNothing(nodes, nextIno, key);
      assert Names(nodes, HOME, []);
      hide Shape;
      for k := 0 to |key|
        invariant Valid() && nextIno >= old(nextIno)
        invariant EnsuredDirs(old(nodes), nodes, old(nextIno), key)
        invariant Names(nodes, ino, key[..k]) && nodes[ino].content.Dir?
      {
        ghost var mid, midNext := nodes, nextIno;
        assert key[..k] + [key[k]] == key[..k + 1];
        ino := EnsureDir(ino, key[k]);
        EnsuredLonger(mid, nodes, midNext, key[..k + 1], key);
        EnsuredTwice(old(nodes), mid, nodes, old(nextIno), midNext, key);
      }
      assert key[..|key|] == key;
    }

    // ── upsert ──────────────────────────────────────────────────────────────

    /** The node and everything below it. */
    method RemoveWhole(ino: nat)
      requires Valid() && ino in nodes && ino != HOME
      modifies this`nodes, this`children
      ensures Valid() && nodes == Cut(old(nodes), old(nodes)[ino].path)
    {
      hide Shape, Indexed, Childless, Trimmed, Cut;
      ghost var was := nodes;
      RemoveSubtree(ino);
      TrimmedKeeps(was, was[ino].path, ino);
      TrimmedThenCut(was, ino);
      RemoveNode(ino);
    }

    /** Give a file its new size and time. */
    method Update(ino: nat, c: Content)
      requires Valid() && ino in nodes && nodes[ino].content.File? && c.File?
      modifies this`nodes
      ensures Valid() && nodes == old(nodes)[ino := old(nodes)[ino].(content := c)]
    {
      UpdateKeeps(nodes, children, ino, c);
      nodes := nodes[ino := nodes[ino].(content := c)];
    }

    /** `upsert_home_key`. */
    method Upsert(key: Path, c: Content)
      requires Valid() && c.File?
      modifies this
      ensures Valid() && nextIno >= old(nextIno)
      ensures key == [] ==> nodes == old(nodes)
      ensures key != [] ==> Upserted(old(nodes), nodes, old(nextIno), key, c)
    {
      hide Shape, Indexed, EnsuredDirs, Cut, Upserted;
      if key == [] {
        return;
      }
      ghost var was, next := nodes, nextIno;
      var dirKey, name := key[..|key| - 1], key[|key| - 1];
      assert dirKey + [name] == key;
      var dir := EnsureDirs(dirKey);
      ghost var mid := nodes;
      IndexCovers(nodes, children, dir);
      ChildByName(nodes, children, dir, name);
      if name in children[dir] && nodes[children[dir][name]].content.File? {
        Update(children[dir][name], c);
        UpsertedInPlace(was, mid, next, key, c, children[dir][name]);
        return;
      }
      if name in children[dir] {
        ChildIsNotHome(nodes, children, dir, name);
        OnlyOneAt(mid, key, children[dir][name]);
        RemoveWhole(children[dir][name]);
        AboveSurvivesCut(mid, key, dir);
        CutFrees(mid, key);
        ChildByName(nodes, children, dir, name);
        IndexCovers(nodes, children, dir);
      } else {
        NothingToCut(mid, key);
        assert forall j <- mid :: mid[j].path == key ==> Names(mid, j, key);
      }
      var ino := InsertNode(dir, name, c);
      UpsertedAnew(was, mid, next, key, c, ino, dir, name);
    }

    // ── remove with pruning ─────────────────────────────────────────────────

    /** Walk from the root (`home_ino_for_key`). */
    method Find(key: Path) returns (found: Option<nat>)
      requires Valid()
      ensures forall i: nat :: found == Some(i) <==> Names(nodes, i, key)
    {
      hide Shape, Indexed, Names;
      var ino := HOME;
      assert key[0..] == key;
      for k := 0 to |key|
        invariant Walk(children, ino, key[k..]) == Walk(children, HOME, key)
      {
        assert key[k..][0] == key[k] && key[k..][1..] == key[k + 1..];
        if ino !in children || key[k] !in children[ino] {
          forall i: nat ensures !Names(nodes, i, key) {
            CachedKeyReachesNode(nodes, children, key, i);
          }
          return None;
        }
        ino := children[ino][key[k]];
      }
      assert key[|key|..] == [];
      forall i: nat ensures Some(ino) == Some(i) <==> Names(nodes, i, key) {
        CachedKeyReachesNode(nodes, children, key, i);
      }
      return Some(ino);
    }

    /** `remove_home_key`: the node and everything below it, then the directories above it that
        are empty now, up to one that is to be kept. `cut` is how much of the key is left to cut. */
    method RemoveKey(key: Path, keep: set<Path>) returns (cut: nat)
      requires Valid()
      modifies this
      ensures Valid() && nextIno == old(nextIno)
      ensures key == [] || !Taken(old(nodes), key) ==> nodes == old(nodes)
      ensures key != [] && Taken(old(nodes), key) ==>
                && 1 <= cut <= |key| && nodes == Cut(old(nodes), key[..cut])
                && (forall k :: cut <= k < |key| ==> key[..k] !in keep && Hollow(Cut(old(nodes), key[..k + 1]), key[..k]))
                && (cut == 1 || key[..cut - 1] in keep || !Hollow(nodes, key[..cut - 1]))
    {
      hide Shape, Indexed, Childless, Cut, Hollow;
      ghost var was := nodes;
      cut := |key|;
      var found := Find(key);
      if found.None? || key == [] {
        assert key != [] ==> !Taken(nodes, key);
        return;
      }
      var ino := found.value;
      NotHome(nodes, ino, key);
      var cur := nodes[ino].parent;
      ParentNamed(nodes, ino, key);
      RemoveWhole(ino);
      assert key[..|key|] == key;
      AboveSurvivesCut(was, key, cur);
      while cur != HOME
        invariant Valid() && nextIno == old(nextIno)
        invariant 1 <= cut <= |key| && nodes == Cut(was, key[..cut])
        invariant Names(nodes, cur, key[..cut - 1])
        invariant forall k :: cut <= k < |key| ==> key[..k] !in keep && Hollow(Cut(was, key[..k + 1]), key[..k])
        decreases cut
      {
        IndexCovers(nodes, children, cur);
        EmptyIndexIsChildless(nodes, children, cur);
        HollowIsChildless(nodes, cur);
        if children[cur] != map[] || key[..cut - 1] in keep {
          HomeIsEmptyKey(nodes, cur, key[..cut - 1]);
          return;
        }
        HomeIsEmptyKey(nodes, cur, key[..cut - 1]);
        var parent := nodes[cur].parent;
        ParentNamed(nodes, cur, key[..cut - 1]);
        assert key[..cut] == key[..cut - 1] + [key[cut - 1]];
        PruneIsCut(was, key[..cut - 1], key[cut - 1], cur);
        assert key[..cut - 1][..cut - 2] == key[..cut - 2];
        ParentStays(nodes, cur);
        RemoveNode(cur);
        cut, cur := cut - 1, parent;
      }
      HomeIsEmptyKey(nodes, cur, key[..cut - 1]);
    }

    // ── rename ──────────────────────────────────────────────────────────────

    /** `move_entry`: the node hangs under another parent, by another name; its cached key, and
        those below it, are stale until they are rewritten. */
    method MoveEntry(ino: nat, p: nat, n: string)
      requires Valid() && ino in nodes && ino != HOME && p in nodes
      modifies this`nodes, this`children
      ensures nodes == old(nodes)[ino := old(nodes)[ino].(parent := p, name := n)]
      ensures children == Rehung(old(children), old(nodes)[ino].parent, old(nodes)[ino].name, p, n, ino)
    {
      hide Indexed;
      var parent, name := nodes[ino].parent, nodes[ino].name;
      nodes := nodes[ino := nodes[ino].(parent := p, name := n)];
      if parent in children {
        children := children[parent := children[parent] - {name}];
      }
      children := Linked(children, p, n, ino);
    }

    /** `rekey_home_subtree`: rewrite the cached keys of a node and everything below it, following
        the index. `was` is how the nodes' keys related before. */
    method RekeySubtree(ino: nat, path: Path, ghost was: Nodes)
      requires Hanging(was, children, ino) && nodes.Keys == was.Keys
      modifies this`nodes
      ensures nodes == Rekeyed(old(nodes), was, was[ino].path, path)
      decreases Below(was, was[ino].path), 1
    {
      HangsHere(was, children, ino);
      hide *;
      ghost var start := nodes;
      RekeyedFirst(start, was, ino, path);
      nodes := nodes[ino := nodes[ino].(path := path)];
      RekeyKids(ino, path, was, start);
      RekeyedAll(start, was, children, ino, path);
    }

    method RekeyKids(ino: nat, path: Path, ghost was: Nodes, ghost start: Nodes)
      requires Hanging(was, children, ino) && ino in children && ino in was && start.Keys == was.Keys
      requires nodes == RekeyedNames(start, was, was[ino].path, path, {})
      modifies this`nodes
      ensures nodes == RekeyedNames(start, was, was[ino].path, path, children[ino].Keys)
      decreases Below(was, was[ino].path), 0
    {
      hide *;
      ghost var from := was[ino].path;
      var kids := children[ino];
      ghost var gone: set<string> := {};
      var left := kids.Keys;
      while left != {}
        invariant nodes == RekeyedNames(start, was, from, path, gone)
        invariant gone + left == kids.Keys && gone !! left
        decreases |left|
      {
        var n :| n in left;
        KidHangs(was, children, ino, n);
        SameKeys(start, was, from, path, gone);
        RekeyedOneMore(start, was, from, path, gone, n);
        RekeySubtree(kids[n], path + [n], was);
        gone, left := gone + {n}, left - {n};
      }
      assert gone == kids.Keys;
    }

    /** `rename_home_key`, between keys neither of which is at or below the other. */
    method RenameKey(from: Path, to: Path)
      requires Valid() && !(from <= to) && !(to <= from)
      modifies this
      ensures Valid() && nextIno >= old(nextIno)
      ensures !Taken(old(nodes), from) ==> nodes == old(nodes)
      ensures Taken(old(nodes), from) ==> RenamedTree(old(nodes), nodes, old(nextIno), from, to)
    {
      hide Shape, Indexed, EnsuredDirs, Cut, Hanging, RenamedTree, Renamed, Rehung, Rekeyed;
      var found := Find(from);
      if found.None? {
        return;
      }
      var ino := found.value;
      assert from != [] && to != [];
      ghost var was := nodes;
      var dirKey, name := to[..|to| - 1], to[|to| - 1];
      assert dirKey + [name] == to;
      var dir := EnsureDirs(dirKey);
      ghost var mid := nodes;
      SourceStays(was, mid, old(nextIno), from, to, ino);
      NotHome(mid, ino, from);
      IndexCovers(nodes, children, dir);
      ChildByName(nodes, children, dir, name);
      if name in children[dir] {
        ChildIsNotHome(nodes, children, dir, name);
        RemoveWhole(children[dir][name]);
        AboveSurvivesCut(mid, to, dir);
        CutFrees(mid, to);
      } else {
        NothingToCut(mid, to);
      }
      ghost var cleared, index := nodes, children;
      ApartSurvivesCut(mid, to, from, ino);
      DirIsApart(from, to, dirKey);
      MoveEntry(ino, dir, name);
      RehungHangs(cleared, index, ino, dir, name);
      RekeySubtree(ino, to, nodes);
      RenamedIs(cleared, ino, dir, name, to);
      RenameKeepsShape(cleared, ino, dir, name, to);
      RenameKeepsIndex(cleared, index, ino, dir, name, to);
      RenamedKeys(cleared, ino, dir, name, to);
      TreeRenamed(was, mid, old(nextIno), from, to, ino, dir, name);
    }
  }

  lemma {:induction false} ApartSurvivesCut(nodes: Nodes, cut: Path, path: Path, i: nat)
    requires Names(nodes, i, path) && !(cut <= path)
    ensures Names(Cut(nodes, cut), i, path) && Cut(nodes, cut)[i] == nodes[i]
  {
  }

  lemma {:induction false} DirIsApart(from: Path, to: Path, dir: Path)
    requires !(from <= to) && to != [] && dir == to[..|to| - 1]
    ensures !(from <= dir)
  {
    assert dir <= to;
    PrefixFacts(from, to, dir);
  }

  lemma {:induction false} SourceStays(was: Nodes, mid: Nodes, next: nat, from: Path, to: Path, i: nat)
    requires to != [] && EnsuredDirs(was, mid, next, to[..|to| - 1]) && Names(was, i, from) && !(from <= to)
    ensures Names(mid, i, from)
  {
    StrictlyAbove(was, mid, next, to);
    hide EnsuredDirs;
  }

  // ── moving a subtree ──────────────────────────────────────────────────────

  function Rehung(children: Index, parent: nat, name: string, p: nat, n: string, i: nat): Index {
    var freed: Index := if parent in children then children[parent := children[parent] - {name}] else children;
    Linked(freed, p, n, i)
  }

  ghost predicate Distinct(nodes: Nodes) {
    forall i, j :: i in nodes && j in nodes && nodes[i].path == nodes[j].path ==> i == j
  }

  /** The index leads from this node exactly to the nodes whose keys extend its own. */
  ghost predicate HangsAt(was: Nodes, children: Index, p: nat) {
    && p in was && p in children
    && (forall n <- children[p] :: children[p][n] in was && was[children[p][n]].path == was[p].path + [n])
    && (forall j <- was :: was[p].path < was[j].path ==> was[j].path[|was[p].path|] in children[p])
  }

  /** So it does from every node of a subtree. */
  ghost predicate Hanging(was: Nodes, children: Index, top: nat) {
    && top in was && Distinct(was)
    && forall p <- was :: was[top].path <= was[p].path ==> HangsAt(was, children, p)
  }

  lemma {:induction false} KidHangs(was: Nodes, children: Index, top: nat, n: string)
    requires Hanging(was, children, top) && n in children[top]
    ensures HangsAt(was, children, top)
    ensures var kid := children[top][n];
            && kid in was && was[kid].path == was[top].path + [n] && Hanging(was, children, kid)
            && Below(was, was[kid].path) < Below(was, was[top].path)
  {
    assert HangsAt(was, children, top);
    var kid, path := children[top][n], was[top].path;
    PrefixStep(path, n, was[kid].path);
    hide HangsAt;
    forall p | p in was && was[kid].path <= was[p].path ensures HangsAt(was, children, p) {
      PrefixStep(path, n, was[p].path);
    }
    forall j | j in Below(was, path + [n]) ensures j in Below(was, path) {
      PrefixStep(path, n, was[j].path);
    }
    assert kid in Below(was, path) && kid !in Below(was, path + [n]);
  }

  /** The nodes at and below `from` get keys at and below `to`. */
  function Rekeyed(nodes: Nodes, was: Nodes, from: Path, to: Path): Nodes
    requires nodes.Keys == was.Keys
  {
    map j | j in nodes :: if from <= was[j].path then nodes[j].(path := to + was[j].path[|from|..]) else nodes[j]
  }

  /** The same for the node itself and the subtrees of some of its children. */
  function RekeyedNames(nodes: Nodes, was: Nodes, from: Path, to: Path, names: set<string>): Nodes
    requires nodes.Keys == was.Keys
  {
    map j | j in nodes ::
      if was[j].path == from || (from < was[j].path && was[j].path[|from|] in names)
      then nodes[j].(path := to + was[j].path[|from|..]) else nodes[j]
  }

  lemma {:induction false} RekeyedFirst(nodes: Nodes, was: Nodes, i: nat, to: Path)
    requires nodes.Keys == was.Keys && i in nodes && Distinct(was)
    ensures nodes[i := nodes[i].(path := to)] == RekeyedNames(nodes, was, was[i].path, to, {})
  {
    var from := was[i].path;
    assert to + from[|from|..] == to;
  }

  lemma {:induction false} RekeyedAt(nodes: Nodes, was: Nodes, from: Path, to: Path, j: nat)
    requires nodes.Keys == was.Keys && j in nodes
    ensures j in Rekeyed(nodes, was, from, to)
    ensures Rekeyed(nodes, was, from, to)[j] == if from <= was[j].path then nodes[j].(path := to + was[j].path[|from|..]) else nodes[j]
  {
  }

  lemma {:induction false} RekeyedNamesAt(nodes: Nodes, was: Nodes, from: Path, to: Path, names: set<string>, j: nat)
    requires nodes.Keys == was.Keys && j in nodes
    ensures j in RekeyedNames(nodes, was, from, to, names)
    ensures RekeyedNames(nodes, was, from, to, names)[j] ==
              if was[j].path == from || (from < was[j].path && was[j].path[|from|] in names)
              then nodes[j].(path := to + was[j].path[|from|..]) else nodes[j]
  {
  }

  lemma {:induction false} StepDown(from: Path, to: Path, n: string, path: Path)
    requires from + [n] <= path
    ensures from < path && (to + [n]) + path[|from + [n]|..] == to + path[|from|..]
  {
    PrefixStep(from, n, path);
    assert path[|from|..] == [n] + path[|from| + 1..];
  }

  lemma {:induction false} RekeyedOneMore(nodes: Nodes, was: Nodes, from: Path, to: Path, names: set<string>, n: string)
    requires nodes.Keys == was.Keys && n !in names
    requires RekeyedNames(nodes, was, from, to, names).Keys == was.Keys
    ensures Rekeyed(RekeyedNames(nodes, was, from, to, names), was, from + [n], to + [n])
            == RekeyedNames(nodes, was, from, to, names + {n})
  {
    var part := RekeyedNames(nodes, was, from, to, names);
    hide Rekeyed, RekeyedNames;
    var l, r := Rekeyed(part, was, from + [n], to + [n]), RekeyedNames(nodes, was, from, to, names + {n});
    forall j | j in nodes ensures j in l && j in r && l[j] == r[j] {
      RekeyedAt(part, was, from + [n], to + [n], j);
      RekeyedNamesAt(nodes, was, from, to, names, j);
      RekeyedNamesAt(nodes, was, from, to, names + {n}, j);
      PrefixStep(from, n, was[j].path);
      if from + [n] <= was[j].path {
        StepDown(from, to, n, was[j].path);
      }
    }
    SameKeys(nodes, was, from, to, names + {n});
    SameKeys(part, was, from + [n], to + [n], {});
  }

  lemma {:induction false} RekeyedAll(nodes: Nodes, was: Nodes, children: Index, i: nat, to: Path)
    requires nodes.Keys == was.Keys && HangsAt(was, children, i)
    ensures RekeyedNames(nodes, was, was[i].path, to, children[i].Keys) == Rekeyed(nodes, was, was[i].path, to)
  {
  }

  lemma {:induction false} SameKeys(nodes: Nodes, was: Nodes, from: Path, to: Path, names: set<string>)
    requires nodes.Keys == was.Keys
    ensures RekeyedNames(nodes, was, from, to, names).Keys == Rekeyed(nodes, was, from, to).Keys == was.Keys
  {
  }

  /** The whole effect of a rename on the nodes: the named node changes parent and name, and it
      and everything below it change keys. */
  function Renamed(nodes: Nodes, i: nat, p: nat, n: string, to: Path): Nodes
    requires i in nodes
  {
    map j | j in nodes ::
      if nodes[i].path <= nodes[j].path
      then Node(if j == i then p else nodes[j].parent, if j == i then n else nodes[j].name,
                to + nodes[j].path[|nodes[i].path|..], nodes[j].content)
      else nodes[j]
  }

  lemma {:induction false} RenamedIs(nodes: Nodes, i: nat, p: nat, n: string, to: Path)
    requires i in nodes
    ensures var hung: Nodes := nodes[i := nodes[i].(parent := p, name := n)];
            Rekeyed(hung, hung, nodes[i].path, to) == Renamed(nodes, i, p, n, to)
  {
  }

  lemma {:induction false} RenamedKeys(nodes: Nodes, i: nat, p: nat, n: string, to: Path)
    requires i in nodes
    ensures Renamed(nodes, i, p, n, to).Keys == nodes.Keys
  {
  }

  lemma {:induction false} HangsHere(was: Nodes, children: Index, top: nat)
    requires Hanging(was, children, top)
    ensures top in was && top in children && HangsAt(was, children, top) && Distinct(was)
  {
  }

  lemma {:induction false} EveryNodeHangs(nodes: Nodes, children: Index, p: nat)
    requires Shape(nodes) && Indexed(nodes, children) && p in nodes
    ensures HangsAt(nodes, children, p)
  {
    IndexCovers(nodes, children, p);
    forall n | n in children[p] ensures children[p][n] in nodes && nodes[children[p][n]].path == nodes[p].path + [n] {
      ChildByName(nodes, children, p, n);
    }
    forall j | j in nodes && nodes[p].path < nodes[j].path ensures nodes[j].path[|nodes[p].path|] in children[p] {
      BelowAChild(nodes, children, p, j);
    }
    hide Shape, Indexed;
  }

  lemma {:induction false} RehungElsewhere(children: Index, parent: nat, name: string, p: nat, n: string, i: nat, q: nat)
    requires q != parent && q != p
    ensures q in Rehung(children, parent, name, p, n, i) <==> q in children
    ensures q in children ==> Rehung(children, parent, name, p, n, i)[q] == children[q]
  {
  }

  lemma {:induction false} DistinctStays(nodes: Nodes, i: nat, p: nat, n: string)
    requires Distinct(nodes) && i in nodes
    ensures Distinct(nodes[i := nodes[i].(parent := p, name := n)])
  {
  }

  lemma {:induction false} HangsStays(nodes: Nodes, children: Index, index: Index, i: nat, p: nat, n: string, q: nat)
    requires i in nodes && HangsAt(nodes, children, q) && q in index && index[q] == children[q]
    ensures HangsAt(nodes[i := nodes[i].(parent := p, name := n)], index, q)
  {
  }

  /** After `move_entry` the subtree still hangs together, under its old keys. */
  lemma {:induction false} RehungHangs(nodes: Nodes, children: Index, i: nat, p: nat, n: string)
    requires Shape(nodes) && Indexed(nodes, children) && i in nodes && i != HOME && p in nodes && !(nodes[i].path <= nodes[p].path)
    ensures var hung: Nodes := nodes[i := nodes[i].(parent := p, name := n)];
            Hanging(hung, Rehung(children, nodes[i].parent, nodes[i].name, p, n, i), i)
  {
    var hung: Nodes := nodes[i := nodes[i].(parent := p, name := n)];
    var parent := nodes[i].parent;
    var index := Rehung(children, parent, nodes[i].name, p, n, i);
    NotHomeHasKey(nodes, i);
    ParentNamed(nodes, i, nodes[i].path);
    ShapeIsDistinct(nodes);
    hide Shape, Indexed, Rehung, HangsAt, Distinct;
    DistinctStays(nodes, i, p, n);
    forall q | q in hung && hung[i].path <= hung[q].path ensures HangsAt(hung, index, q) {
      assert q != parent && q != p;
      EveryNodeHangs(nodes, children, q);
      RehungElsewhere(children, parent, nodes[i].name, p, n, i, q);
      HangsStays(nodes, children, index, i, p, n, q);
    }
  }

  lemma {:induction false} NotHomeHasKey(nodes: Nodes, i: nat)
    requires Shape(nodes) && i in nodes && i != HOME
    ensures Names(nodes, i, nodes[i].path) && nodes[i].path != []
  {
  }

  lemma {:induction false} ShapeIsDistinct(nodes: Nodes)
    requires Shape(nodes)
    ensures Distinct(nodes)
  {
  }

  /** `to` is free and lies outside the subtree, right below the directory `p`. */
  ghost predicate MayMove(nodes: Nodes, i: nat, p: nat, n: string, to: Path) {
    && Shape(nodes) && i in nodes && i != HOME && p in nodes && nodes[p].content.Dir?
    && !(nodes[i].path <= nodes[p].path) && nodes[p].path + [n] == to && !Taken(nodes, to)
  }

  lemma {:induction false} NothingBelowFree(nodes: Nodes, to: Path)
    requires Shape(nodes) && !Taken(nodes, to)
    ensures forall j <- nodes :: !(to <= nodes[j].path)
  {
    forall j | j in nodes ensures !(to <= nodes[j].path) {
      if to <= nodes[j].path {
        assert Names(nodes, j, nodes[j].path);
        PrefixTaken(nodes, nodes[j].path, to);
      }
    }
  }

  lemma {:induction false} SuffixStep(from: Path, to: Path, longer: Path, n: string)
    requires from <= longer
    ensures to + (longer + [n])[|from|..] == (to + longer[|from|..]) + [n]
  {
    assert (longer + [n])[|from|..] == longer[|from|..] + [n];
  }

  /** Every moved node still extends its parent's key by its name. */
  lemma {:induction false} RenamedLink(nodes: Nodes, i: nat, p: nat, n: string, to: Path, j: nat)
    requires MayMove(nodes, i, p, n, to) && j in nodes && j != HOME
    ensures var r := Renamed(nodes, i, p, n, to);
            && r[j].parent in r && r[r[j].parent].content.Dir? && r[j].path == r[r[j].parent].path + [r[j].name]
  {
    var from, q := nodes[i].path, nodes[j].parent;
    assert nodes[j].path == nodes[q].path + [nodes[j].name];
    PrefixFacts(from, nodes[j].path, nodes[q].path);
    if j == i {
      assert to + from[|from|..] == to;
    } else if from <= nodes[j].path {
      if from == nodes[j].path {
        OneNode(nodes, i, j, from);
      }
      assert from <= nodes[q].path by {
        assert from == nodes[j].path[..|from|] == nodes[q].path[..|from|];
      }
      SuffixStep(from, to, nodes[q].path, nodes[j].name);
    }
  }

  lemma {:induction false} MovedKey(from: Path, to: Path, path: Path)
    requires from <= path
    ensures to <= to + path[|from|..] && path == from + (to + path[|from|..])[|to|..]
  {
  }

  lemma {:induction false} RenamedDistinct(nodes: Nodes, i: nat, p: nat, n: string, to: Path, j: nat, k: nat)
    requires MayMove(nodes, i, p, n, to) && j in nodes && k in nodes
    requires Renamed(nodes, i, p, n, to)[j].path == Renamed(nodes, i, p, n, to)[k].path
    ensures j == k
  {
    var from := nodes[i].path;
    NothingBelowFree(nodes, to);
    var a, b := nodes[j].path, nodes[k].path;
    if from <= a {
      MovedKey(from, to, a);
    }
    if from <= b {
      MovedKey(from, to, b);
    }
    if (from <= a <==> from <= b) {
      assert a == b;
      OneNode(nodes, j, k, a);
    }
  }

  lemma {:induction false} RenameKeepsShape(nodes: Nodes, i: nat, p: nat, n: string, to: Path)
    requires MayMove(nodes, i, p, n, to)
    ensures Shape(Renamed(nodes, i, p, n, to))
  {
    var r := Renamed(nodes, i, p, n, to);
    assert HOME in nodes && nodes[HOME].path == [] && nodes[i].path != [];
    assert HOME in r && r[HOME] == nodes[HOME] && nodes[HOME].content.Dir?;
    forall j | j in r && j != HOME
      ensures r[j].parent in r && r[r[j].parent].content.Dir? && r[j].path == r[r[j].parent].path + [r[j].name]
    {
      RenamedLink(nodes, i, p, n, to, j);
    }
    forall j, k | j in r && k in r && r[j].path == r[k].path ensures j == k {
      RenamedDistinct(nodes, i, p, n, to, j, k);
    }
    hide MayMove, Renamed;
  }

  lemma {:induction false} RehungEntry(children: Index, parent: nat, name: string, p: nat, n: string, i: nat, q: nat,
      m: string, j: nat)
    requires parent in children && p in children
    ensures Entry(Rehung(children, parent, name, p, n, i), q, m, j)
            <==> if q == p && m == n then j == i else Entry(children, q, m, j) && !(q == parent && m == name)
    ensures Rehung(children, parent, name, p, n, i).Keys == children.Keys
  {
  }

  lemma {:induction false} RenamedChild(nodes: Nodes, i: nat, p: nat, n: string, to: Path, q: nat, m: string, j: nat)
    requires i in nodes && i != HOME
    ensures IsChild(Renamed(nodes, i, p, n, to), q, m, j) <==> if j == i then q == p && m == n else IsChild(nodes, q, m, j)
  {
  }

  lemma {:induction false} IndexedFrom(nodes: Nodes, children: Index)
    requires children.Keys == nodes.Keys && forall p, n, i :: Entry(children, p, n, i) <==> IsChild(nodes, p, n, i)
    ensures Indexed(nodes, children)
  {
  }

  lemma {:induction false} MoveFacts(nodes: Nodes, children: Index, i: nat, p: nat, n: string, to: Path)
    requires MayMove(nodes, i, p, n, to) && Indexed(nodes, children)
    ensures i in nodes && i != HOME && nodes[i].parent in children && p in children && children.Keys == nodes.Keys
    ensures IsChild(nodes, nodes[i].parent, nodes[i].name, i) && Entry(children, nodes[i].parent, nodes[i].name, i)
    ensures forall j :: !Entry(children, p, n, j)
  {
    ChildByName(nodes, children, p, n);
    IndexAt(nodes, children, nodes[i].parent, nodes[i].name, i);
  }

  lemma {:induction false} RenameKeepsIndex(nodes: Nodes, children: Index, i: nat, p: nat, n: string, to: Path)
    requires MayMove(nodes, i, p, n, to) && Indexed(nodes, children)
    ensures Indexed(Renamed(nodes, i, p, n, to), Rehung(children, nodes[i].parent, nodes[i].name, p, n, i))
  {
    var r, k := Renamed(nodes, i, p, n, to), Rehung(children, nodes[i].parent, nodes[i].name, p, n, i);
    var parent, name := nodes[i].parent, nodes[i].name;
    MoveFacts(nodes, children, i, p, n, to);
    hide MayMove, Entry, IsChild, Renamed, Rehung, Indexed;
    RenamedKeys(nodes, i, p, n, to);
    RehungEntry(children, parent, name, p, n, i, p, n, i);
    forall q, m, j ensures Entry(k, q, m, j) <==> IsChild(r, q, m, j) {
      RehungEntry(children, parent, name, p, n, i, q, m, j);
      RenamedChild(nodes, i, p, n, to, q, m, j);
      IndexAt(nodes, children, q, m, j);
      if q == parent && m == name && Entry(children, q, m, j) {
        SameChild(children, parent, name, i, j);
      }
      if j == i && IsChild(nodes, q, m, j) {
        OneParent(nodes, q, m, parent, name, i);
      }
    }
    IndexedFrom(r, k);
  }

  /** A rename: the named node and what is below it have the new keys, the same inodes and
      contents; other nodes stay what they are, except files on the way to the new name and
      whatever held it; what is new are directories on the way. */
  ghost predicate RenamedTree(was: Nodes, now: Nodes, next: nat, from: Path, to: Path) {
    && (forall j <- was :: from <= was[j].path ==>
          j in now && now[j].path == to + was[j].path[|from|..] && now[j].content == was[j].content)
    && (forall j <- was :: !(from <= was[j].path) ==>
          (j in now && now[j] == was[j]) || (was[j].content.File? && was[j].path < to) || to <= was[j].path)
    && (forall j <- now ::
          (j in was && (from <= was[j].path || now[j] == was[j])) || (j >= next && now[j].content.Dir? && now[j].path < to))
  }

  lemma {:induction false} PrefixFacts(a: Path, b: Path, c: Path)
    ensures a <= c && b <= c ==> a <= b || b <= a
    ensures a <= c && c <= b ==> a <= b
  {
    if a <= c && b <= c {
      assert a == c[..|a|] && b == c[..|b|];
    }
    if a <= c && c <= b {
      assert a == c[..|a|] == b[..|c|][..|a|] == b[..|a|];
    }
  }

  lemma {:induction false} TreeRenamed(was: Nodes, mid: Nodes, next: nat, from: Path, to: Path, i: nat, p: nat, n: string)
    requires to != [] && EnsuredDirs(was, mid, next, to[..|to| - 1]) && !(from <= to) && !(to <= from)
    requires Names(Cut(mid, to), i, from)
    ensures RenamedTree(was, Renamed(Cut(mid, to), i, p, n, to), next, from, to)
  {
    StrictlyAbove(was, mid, next, to);
    hide EnsuredDirs;
    var cut := Cut(mid, to);
    var now := Renamed(cut, i, p, n, to);
    RenamedKeys(cut, i, p, n, to);
    forall j | j in was && from <= was[j].path
      ensures j in now && now[j].path == to + was[j].path[|from|..] && now[j].content == was[j].content
    {
      InCutKey(mid, to, j);
      PrefixFacts(from, to, was[j].path);
    }
    forall j | j in was && !(from <= was[j].path)
      ensures (j in now && now[j] == was[j]) || (was[j].content.File? && was[j].path < to) || to <= was[j].path
    {
      InCutKey(mid, to, j);
    }
    forall j | j in now
      ensures (j in was && (from <= was[j].path || now[j] == was[j])) || (j >= next && now[j].content.Dir? && now[j].path < to)
    {
      InCutKey(mid, to, j);
      PrefixFacts(from, to, mid[j].path);
    }
    hide Cut, Renamed;
  }

  /** Nothing is below a key. */
  ghost predicate Hollow(nodes: Nodes, path: Path) {
    forall j <- nodes :: !(path < nodes[j].path)
  }

  lemma {:induction false} HollowIsChildless(nodes: Nodes, i: nat)
    requires Shape(nodes) && i in nodes
    ensures Hollow(nodes, nodes[i].path) <==> Childless(nodes, i)
  {
    if Hollow(nodes, nodes[i].path) {
      assert Below(nodes, nodes[i].path) == {};
      TrimmedIsChildless(nodes, i);
    } else {
      var j :| j in nodes && nodes[i].path < nodes[j].path;
      var n := nodes[j].path[|nodes[i].path|];
      PrefixStep(nodes[i].path, n, nodes[j].path);
      assert Names(nodes, j, nodes[j].path);
      PrefixTaken(nodes, nodes[j].path, nodes[i].path + [n]);
      var k :| Names(nodes, k, nodes[i].path + [n]);
      ParentNamed(nodes, k, nodes[i].path + [n]);
      assert (nodes[i].path + [n])[..|nodes[i].path|] == nodes[i].path;
      assert nodes[k].parent == i;
    }
  }

  lemma {:induction false} NotHome(nodes: Nodes, i: nat, path: Path)
    requires Shape(nodes) && Names(nodes, i, path) && path != []
    ensures i != HOME
  {
  }

  lemma {:induction false} HomeIsEmptyKey(nodes: Nodes, i: nat, path: Path)
    requires Shape(nodes) && Names(nodes, i, path)
    ensures i == HOME <==> path == []
  {
  }

  lemma {:induction false} ParentNamed(nodes: Nodes, i: nat, path: Path)
    requires Shape(nodes) && Names(nodes, i, path) && path != []
    ensures Names(nodes, nodes[i].parent, path[..|path| - 1]) && nodes[i].parent != i && nodes[nodes[i].parent].path < nodes[i].path
  {
    var p := nodes[i].parent;
    assert i != HOME;
    assert nodes[p].path == (nodes[p].path + [nodes[i].name])[..|path| - 1];
  }

  lemma {:induction false} ParentStays(nodes: Nodes, i: nat)
    requires Shape(nodes) && i in nodes && i != HOME
    ensures nodes[i].parent in nodes - {i} && (nodes - {i})[nodes[i].parent] == nodes[nodes[i].parent]
  {
  }

  lemma {:induction false} PrunedOrNot(was: Nodes, now: Nodes, path: Path, n: string, j: nat, cur: nat)
    requires Shape(was) && j in was && j != cur && Names(was, cur, path)
    requires j in now <==> !(path + [n] <= was[j].path)
    requires j in now ==> now[j] == was[j]
    requires Hollow(now, path)
    ensures path + [n] <= was[j].path <==> path <= was[j].path
  {
    PrefixStep(path, n, was[j].path);
    if was[j].path == path {
      OneNode(was, cur, j, path);
    }
    hide Shape;
  }

  /** Removing an empty directory is cutting at its key instead of below it. */
  lemma {:induction false} PruneIsCut(was: Nodes, path: Path, n: string, cur: nat)
    requires Shape(was) && Names(Cut(was, path + [n]), cur, path) && Hollow(Cut(was, path + [n]), path)
    ensures Cut(was, path + [n]) - {cur} == Cut(was, path)
  {
    hide Cut, Shape, Hollow;
    var now, rest := Cut(was, path + [n]), Cut(was, path);
    var pruned: Nodes := now - {cur};
    InCutKey(was, path + [n], cur);
    InCutKey(was, path, cur);
    forall j: nat ensures (j in pruned <==> j in rest) && (j in rest ==> pruned[j] == rest[j]) {
      InCutKey(was, path + [n], j);
      InCutKey(was, path, j);
      if j in was && j != cur {
        PrunedOrNot(was, now, path, n, j, cur);
      }
    }
    assert pruned.Keys == rest.Keys;
  }

  lemma {:induction false} TrimmedThenCut(nodes: Nodes, i: nat)
    requires Shape(nodes) && i in nodes
    ensures Trimmed(nodes, nodes[i].path) - {i} == Cut(nodes, nodes[i].path)
  {
    var path := nodes[i].path;
    forall j | j in nodes ensures path <= nodes[j].path <==> j == i || path < nodes[j].path {
      if nodes[j].path == path {
        OneNode(nodes, i, j, path);
      }
    }
    hide Shape;
  }

  lemma {:induction false} UpdatedChild(nodes: Nodes, i: nat, c: Content, p: nat, n: string, j: nat)
    requires i in nodes
    ensures IsChild(nodes[i := nodes[i].(content := c)], p, n, j) <==> IsChild(nodes, p, n, j)
  {
  }

  lemma {:induction false} UpdateKeepsShape(nodes: Nodes, i: nat, c: Content)
    requires Shape(nodes) && i in nodes && nodes[i].content.File?
    ensures Shape(nodes[i := nodes[i].(content := c)])
  {
  }

  lemma {:induction false} UpdateKeeps(nodes: Nodes, children: Index, i: nat, c: Content)
    requires Shape(nodes) && Indexed(nodes, children) && i in nodes && nodes[i].content.File? && c.File?
    ensures var r := nodes[i := nodes[i].(content := c)]; Shape(r) && Indexed(r, children)
  {
    var r := nodes[i := nodes[i].(content := c)];
    UpdateKeepsShape(nodes, i, c);
    assert r.Keys == nodes.Keys;
    hide Shape, Entry, IsChild;
    forall p, n, j ensures Entry(children, p, n, j) <==> IsChild(r, p, n, j) {
      IndexAt(nodes, children, p, n, j);
      UpdatedChild(nodes, i, c, p, n, j);
    }
  }

  lemma {:induction false} InCutKey(nodes: Nodes, path: Path, j: nat)
    ensures j in Cut(nodes, path) <==> j in nodes && !(path <= nodes[j].path)
    ensures j in Cut(nodes, path) ==> Cut(nodes, path)[j] == nodes[j]
  {
  }

  lemma {:induction false} CutFrees(nodes: Nodes, path: Path)
    ensures !Taken(Cut(nodes, path), path)
  {
  }

  lemma {:induction false} AboveSurvivesCut(nodes: Nodes, path: Path, i: nat)
    requires i in nodes && nodes[i].path < path
    ensures i in Cut(nodes, path) && Cut(nodes, path)[i] == nodes[i]
  {
  }

  lemma {:induction false} NothingToCut(nodes: Nodes, path: Path)
    requires Shape(nodes) && !Taken(nodes, path)
    ensures Cut(nodes, path) == nodes
  {
    forall j | j in nodes ensures !(path <= nodes[j].path) {
      if path <= nodes[j].path {
        assert Names(nodes, j, nodes[j].path);
        PrefixTaken(nodes, nodes[j].path, path);
      }
    }
    hide Shape;
  }

  /** Writing a file: it is there with these attributes; other nodes stay what they are, except
      files on the way to it and a directory in its place; what is new is the file or a
      directory on the way. A file that was there keeps its inode. */
  ghost predicate Upserted(was: Nodes, now: Nodes, next: nat, key: Path, c: Content) {
    && (exists i :: Names(now, i, key) && now[i].content == c)
    && (forall j <- was ::
          || (j in now && now[j] == was[j])
          || (j in now && was[j].content.File? && was[j].path == key && now[j] == was[j].(content := c))
          || (was[j].content.File? && was[j].path < key)
          || (was[j].path == key && was[j].content.Dir?)
          || key < was[j].path)
    && (forall j <- now ::
          || (j in was && now[j] == was[j])
          || (now[j].path == key && now[j].content == c && (j in was ==> was[j].path == key && was[j].content.File?) && (j !in was ==> j >= next))
          || (j >= next && now[j].content.Dir? && now[j].path < key))
  }

  lemma {:induction false} UpsertedInPlace(was: Nodes, mid: Nodes, next: nat, key: Path, c: Content, i: nat)
    requires key != [] && EnsuredDirs(was, mid, next, key[..|key| - 1])
    requires Names(mid, i, key) && mid[i].content.File? && c.File?
    ensures Upserted(was, mid[i := mid[i].(content := c)], next, key, c)
  {
    StrictlyAbove(was, mid, next, key);
    hide EnsuredDirs;
    var now := mid[i := mid[i].(content := c)];
    assert Names(now, i, key) && now[i].content == c;
  }

  /** Files that lose their place to the directories of a key are strictly above it, and so are
      the directories. */
  lemma {:induction false} StrictlyAbove(was: Nodes, mid: Nodes, next: nat, key: Path)
    requires key != [] && EnsuredDirs(was, mid, next, key[..|key| - 1])
    ensures forall j <- was :: (j in mid && mid[j] == was[j]) || (was[j].content.File? && was[j].path < key)
    ensures forall j <- mid :: (j in was && mid[j] == was[j]) || (j >= next && mid[j].content.Dir? && mid[j].path < key)
  {
    forall j | j in was && was[j].path <= key[..|key| - 1] ensures was[j].path < key {
      assert was[j].path == key[..|key| - 1][..|was[j].path|] == key[..|was[j].path|];
    }
    forall j | j in mid && mid[j].path <= key[..|key| - 1] ensures mid[j].path < key {
      assert mid[j].path == key[..|key| - 1][..|mid[j].path|] == key[..|mid[j].path|];
    }
  }

  lemma {:induction false} OnlyOneAt(nodes: Nodes, key: Path, i: nat)
    requires Shape(nodes) && Names(nodes, i, key)
    ensures forall j <- nodes :: nodes[j].path == key ==> j == i
  {
  }

  lemma {:induction false} UpsertedAnew(was: Nodes, mid: Nodes, next: nat, key: Path, c: Content, i: nat, dir: nat,
      name: string)
    requires key != [] && EnsuredDirs(was, mid, next, key[..|key| - 1]) && c.File?
    requires dir in Cut(mid, key) && mid[dir].path + [name] == key && i !in was && i >= next
    requires forall j <- mid :: mid[j].path == key ==> mid[j].content.Dir?
    ensures Upserted(was, Inserted(Cut(mid, key), i, dir, name, c), next, key, c)
  {
    StrictlyAbove(was, mid, next, key);
    hide EnsuredDirs;
    var cut := Cut(mid, key);
    var now := Inserted(cut, i, dir, name, c);
    InCutKey(mid, key, dir);
    assert Names(now, i, key) && now[i].content == c;
    forall j | j in was ensures j in mid && !(key <= mid[j].path) ==> j in now && now[j] == mid[j] {
      InCutKey(mid, key, j);
    }
    forall j | j in now ensures j == i || (j in mid && now[j] == mid[j]) {
      InCutKey(mid, key, j);
    }
    hide Cut;
  }

  lemma {:induction false} FileIsChildless(nodes: Nodes, i: nat)
    requires Shape(nodes) && i in nodes && nodes[i].content.File?
    ensures Childless(nodes, i) && i != HOME
  {
  }

  lemma {:induction false} NameFreed(nodes: Nodes, i: nat, path: Path)
    requires Shape(nodes) && Names(nodes, i, path)
    ensures !Taken(nodes - {i}, path)
  {
    forall j ensures !Names(nodes - {i}, j, path) {
      if Names(nodes, j, path) {
        OneNode(nodes, i, j, path);
      }
    }
  }

  /** Making the directories of a key costs only files that are in the way, and adds only
      directories along it, under new inodes. */
  ghost predicate EnsuredDirs(was: Nodes, now: Nodes, next: nat, key: Path) {
    && (forall j <- was :: (j in now && now[j] == was[j]) || (was[j].content.File? && was[j].path <= key))
    && (forall j <- now :: (j in was && now[j] == was[j]) || (j >= next && now[j].content.Dir? && now[j].path <= key))
  }

  lemma {:induction false} EnsuredNothing(nodes: Nodes, next: nat, key: Path)
    ensures EnsuredDirs(nodes, nodes, next, key)
  {
  }

  lemma {:induction false} EnsuredLonger(was: Nodes, now: Nodes, next: nat, key: Path, longer: Path)
    requires EnsuredDirs(was, now, next, key) && key <= longer
    ensures EnsuredDirs(was, now, next, longer)
  {
  }

  lemma {:induction false} EnsuredTwice(a: Nodes, b: Nodes, c: Nodes, next: nat, later: nat, key: Path)
    requires EnsuredDirs(a, b, next, key) && EnsuredDirs(b, c, later, key) && next <= later
    ensures EnsuredDirs(a, c, next, key)
  {
  }
}
