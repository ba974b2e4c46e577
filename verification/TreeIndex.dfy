/** The path index of the document trees of `src/state.rs`: which folder a (tree, path) pair means,
    and the folder path recorded with every document. */
module TreeIndex {
  import opened HomeTree

  /** A node of the workspace tree: where it hangs, and whether it is a directory. */
  datatype Item = Item(parent: nat, name: string, dir: bool)

  type Items = map<nat, Item>

  /** The document a file shows, with the tree and the folder it was recorded under. */
  datatype Doc = Doc(tree: string, path: Path, id: nat)

  /** The mount root. It is above every tree and is no item itself. */
  const TOP: nat := 1

  predicate IsItem(items: Items, p: nat, n: string, i: nat) {
    i in items && items[i].parent == p && items[i].name == n
  }

  /** A directory that is not the file of a document. */
  predicate Folder(items: Items, docs: set<nat>, i: nat) {
    i in items && items[i].dir && i !in docs
  }

  /** Following parent links from `i` spells the path backwards and ends at the root. */
  ghost predicate Chain(items: Items, docs: set<nat>, root: nat, path: Path, i: nat)
    decreases |path|
  {
    if path == [] then i == root
    else Folder(items, docs, i) && items[i].name == path[|path| - 1] && Chain(items, docs, root, path[..|path| - 1], items[i].parent)
  }

  ghost predicate Matches(items: Items, children: Index) {
    TOP !in items && forall p, n, i :: Entry(children, p, n, i) <==> IsItem(items, p, n, i)
  }

  /** A tree root hangs right below the mount root. */
  predicate IsRoot(items: Items, docs: set<nat>, root: nat) {
    Folder(items, docs, root) && items[root].parent == TOP
  }

  // ── parent links lead to one root along one path ──────────────────────────

  lemma {:induction false} ChainStep(items: Items, docs: set<nat>, root: nat, path: Path, n: string, i: nat)
    ensures Chain(items, docs, root, path + [n], i)
            <==> Folder(items, docs, i) && items[i].name == n && Chain(items, docs, root, path, items[i].parent)
  {
    assert (path + [n])[..|path|] == path;
  }

  lemma {:induction false} TopHasNoChain(items: Items, docs: set<nat>, root: nat, path: Path)
    requires TOP !in items && root in items
    ensures !Chain(items, docs, root, path, TOP)
  {
  }

  lemma {:induction false} RootIsNotBelow(items: Items, docs: set<nat>, r: nat, s: nat, path: Path)
    requires TOP !in items && IsRoot(items, docs, r) && IsRoot(items, docs, s)
    ensures Chain(items, docs, s, path, r) ==> path == [] && r == s
  {
    if path != [] {
      TopHasNoChain(items, docs, s, path[..|path| - 1]);
    }
  }

  lemma {:induction false} OneChain(items: Items, docs: set<nat>, r: nat, s: nat, p: Path, q: Path, i: nat)
    requires TOP !in items && IsRoot(items, docs, r) && IsRoot(items, docs, s)
    requires Chain(items, docs, r, p, i) && Chain(items, docs, s, q, i)
    ensures r == s && p == q
    decreases |p|
  {
    if p == [] {
      RootIsNotBelow(items, docs, r, s, q);
    } else if q == [] {
      RootIsNotBelow(items, docs, s, r, p);
    } else {
      OneChain(items, docs, r, s, p[..|p| - 1], q[..|q| - 1], items[i].parent);
      assert p == p[..|p| - 1] + [items[i].name] && q == q[..|q| - 1] + [items[i].name];
    }
  }

  // ── the walk ──────────────────────────────────────────────────────────────

  type Stack = seq<(nat, Path)>

  ghost predicate OnStack(stack: Stack, p: Path) {
    exists k :: 0 <= k < |stack| && stack[k].1 == p
  }

  /** The child has not been looked at: its directory is on the stack, or being read. */
  ghost predicate Waiting(stack: Stack, cur: Path, left: set<string>, p: Path, n: string) {
    OnStack(stack, p) || (p == cur && n in left)
  }

  predicate Recorded(items: Items, docs: set<nat>, found: map<Path, nat>, files: map<nat, Path>, p: Path, n: string,
      c: nat) {
    if c in docs then c in files && files[c] == p
    else Folder(items, docs, c) ==> p + [n] in found && found[p + [n]] == c
  }

  /** What has been found is where parent links say. */
  ghost predicate Sound(items: Items, docs: set<nat>, root: nat, found: map<Path, nat>, files: map<nat, Path>) {
    && [] in found && found[[]] == root
    && (forall p <- found :: Chain(items, docs, root, p, found[p]) && (p != [] ==> p[..|p| - 1] in found))
    && (forall c <- files :: c in docs && c in items && Chain(items, docs, root, files[c], items[c].parent))
  }

  ghost predicate StackOk(found: map<Path, nat>, stack: Stack) {
    && (forall k :: 0 <= k < |stack| ==> stack[k].1 in found && found[stack[k].1] == stack[k].0)
    && (forall a, b :: 0 <= a < b < |stack| ==> stack[a].1 != stack[b].1)
  }

  /** Every child of a found folder is either waiting or recorded. */
  ghost predicate Progress(items: Items, children: Index, docs: set<nat>, found: map<Path, nat>, files: map<nat,
      Path>, stack: Stack, cur: Path, left: set<string>) {
    forall p, n, c :: p in found && Entry(children, found[p], n, c) ==>
      if Waiting(stack, cur, left, p, n) then p + [n] !in found
      else Recorded(items, docs, found, files, p, n, c)
  }

  lemma {:induction false} ProgressAt(items: Items, children: Index, docs: set<nat>, found: map<Path, nat>,
      files: map<nat, Path>, stack: Stack, cur: Path, left: set<string>, p: Path, n: string, c: nat)
    requires Progress(items, children, docs, found, files, stack, cur, left) && p in found && Entry(children, found[p], n, c)
    ensures if Waiting(stack, cur, left, p, n) then p + [n] !in found else Recorded(items, docs, found, files, p, n, c)
  {
    hide Waiting, Recorded, Entry;
  }

  lemma {:induction false} NotTwice(stack: Stack)
    requires |stack| > 0 && forall a, b :: 0 <= a < b < |stack| ==> stack[a].1 != stack[b].1
    ensures !OnStack(stack[..|stack| - 1], stack[|stack| - 1].1)
    ensures forall p :: OnStack(stack, p) <==> OnStack(stack[..|stack| - 1], p) || p == stack[|stack| - 1].1
  {
    var rest := stack[..|stack| - 1];
    forall p ensures OnStack(stack, p) <==> OnStack(rest, p) || p == stack[|stack| - 1].1 {
      if k :| 0 <= k < |stack| && stack[k].1 == p {
        assert k < |rest| ==> rest[k].1 == p;
      }
      if k :| 0 <= k < |rest| && rest[k].1 == p {
        assert stack[k].1 == p;
      }
    }
  }

  /** Taking a folder from the stack leaves all its children to read. */
  lemma {:induction false} Popped(items: Items, children: Index, docs: set<nat>, found: map<Path, nat>,
      files: map<nat, Path>, stack: Stack, cur: Path, left: set<string>)
    requires |stack| > 0 && StackOk(found, stack) && Progress(items, children, docs, found, files, stack, cur, {})
    requires var (i, p) := stack[|stack| - 1]; left == if i in children then children[i].Keys else {}
    ensures var (i, p) := stack[|stack| - 1];
            && p in found && found[p] == i && !OnStack(stack[..|stack| - 1], p) && StackOk(found, stack[..|stack| - 1])
            && Progress(items, children, docs, found, files, stack[..|stack| - 1], p, left)
  {
    hide Progress, Recorded, OnStack;
    NotTwice(stack);
    var (i, p) := stack[|stack| - 1];
    var rest := stack[..|stack| - 1];
    forall q, n, c | q in found && Entry(children, found[q], n, c)
      ensures if Waiting(rest, p, left, q, n) then q + [n] !in found else Recorded(items, docs, found, files, q, n, c)
    {
      ProgressAt(items, children, docs, found, files, stack, cur, {}, q, n, c);
    }
    ProgressIs(items, children, docs, found, files, rest, p, left);
  }

  lemma {:induction false} ProgressIs(items: Items, children: Index, docs: set<nat>, found: map<Path, nat>,
      files: map<nat, Path>, stack: Stack, cur: Path, left: set<string>)
    requires forall p, n, c :: p in found && Entry(children, found[p], n, c) ==>
               if Waiting(stack, cur, left, p, n) then p + [n] !in found
               else Recorded(items, docs, found, files, p, n, c)
    ensures Progress(items, children, docs, found, files, stack, cur, left)
  {
    hide Waiting, Recorded, Entry;
  }

  /** A sub-folder is recorded under its path and waits on the stack. */
  lemma {:induction false} FolderFound(items: Items, children: Index, docs: set<nat>, root: nat, found: map<Path,
      nat>, files: map<nat, Path>, stack: Stack, cur: Path, left: set<string>, n: string, c: nat)
    requires Matches(items, children) && IsRoot(items, docs, root)
    requires Sound(items, docs, root, found, files) && StackOk(found, stack)
    requires Progress(items, children, docs, found, files, stack, cur, left)
    requires cur in found && !OnStack(stack, cur) && n in left && Entry(children, found[cur], n, c) && Folder(items, docs, c)
    ensures var found', stack' := found[cur + [n] := c], stack + [(c, cur + [n])];
            && c !in found.Values && cur + [n] !in found
            && Sound(items, docs, root, found', files) && StackOk(found', stack') && !OnStack(stack', cur)
            && Progress(items, children, docs, found', files, stack', cur, left - {n})
  {
    var found', stack' := found[cur + [n] := c], stack + [(c, cur + [n])];
    hide Progress, Matches, Recorded, OnStack, Chain;
    ProgressAt(items, children, docs, found, files, stack, cur, left, cur, n, c);
    FoundChain(items, children, docs, root, found, files, cur, n, c);
    PushedOk(found, stack, cur + [n], c);
    assert cur != cur + [n];
    forall q, m, d | q in found' && Entry(children, found'[q], m, d)
      ensures if Waiting(stack', cur, left - {n}, q, m) then q + [m] !in found' else Recorded(items, docs, found', files, q, m, d)
    {
      SameEnd(cur, n, q, m);
      if q == cur + [n] {
        assert (q + [m])[..|q|] == q;
        assert q + [m] !in found;
      } else {
        ProgressAt(items, children, docs, found, files, stack, cur, left, q, m, d);
        if !Waiting(stack', cur, left - {n}, q, m) {
          StillRecorded(items, children, docs, found, files, cur, n, c, q, m, d);
        }
      }
    }
    ProgressIs(items, children, docs, found', files, stack', cur, left - {n});
  }

  lemma {:induction false} FoundChain(items: Items, children: Index, docs: set<nat>, root: nat, found: map<Path, nat>,
      files: map<nat, Path>, cur: Path, n: string, c: nat)
    requires Matches(items, children) && IsRoot(items, docs, root) && Sound(items, docs, root, found, files)
    requires cur in found && cur + [n] !in found && Entry(children, found[cur], n, c) && Folder(items, docs, c)
    ensures c !in found.Values && Sound(items, docs, root, found[cur + [n] := c], files)
  {
    assert IsItem(items, found[cur], n, c);
    hide Matches;
    ChainStep(items, docs, root, cur, n, c);
    assert (cur + [n])[..|cur|] == cur;
    forall q | q in found && found[q] == c ensures false {
      OneChain(items, docs, root, root, q, cur + [n], c);
    }
    hide Chain;
  }

  lemma {:induction false} PushedOk(found: map<Path, nat>, stack: Stack, p: Path, c: nat)
    requires StackOk(found, stack) && p !in found
    ensures StackOk(found[p := c], stack + [(c, p)])
    ensures forall q :: OnStack(stack + [(c, p)], q) <==> OnStack(stack, q) || q == p
  {
    var more := stack + [(c, p)];
    forall q ensures OnStack(more, q) <==> OnStack(stack, q) || q == p {
      if k :| 0 <= k < |stack| && stack[k].1 == q {
        assert more[k].1 == q;
      }
      if q == p {
        assert more[|stack|].1 == q;
      }
    }
  }

  lemma {:induction false} StillRecorded(items: Items, children: Index, docs: set<nat>, found: map<Path, nat>,
      files: map<nat, Path>, cur: Path, n: string, c: nat, q: Path, m: string, d: nat)
    requires cur in found && cur + [n] !in found && q in found && Entry(children, found[cur], n, c) && Entry(children, found[q], m, d)
    requires Recorded(items, docs, found, files, q, m, d) || (q == cur && m == n)
    requires Folder(items, docs, c)
    ensures Recorded(items, docs, found[cur + [n] := c], files, q, m, d)
  {
    SameEnd(cur, n, q, m);
  }

  /** A document is recorded under the folder it is in. */
  lemma {:induction false} FileFound(items: Items, children: Index, docs: set<nat>, root: nat, found: map<Path, nat>,
      files: map<nat, Path>, stack: Stack, cur: Path, left: set<string>, n: string, c: nat)
    requires Matches(items, children) && IsRoot(items, docs, root)
    requires Sound(items, docs, root, found, files)
    requires Progress(items, children, docs, found, files, stack, cur, left)
    requires cur in found && !OnStack(stack, cur) && n in left && Entry(children, found[cur], n, c) && c in docs
    ensures Sound(items, docs, root, found, files[c := cur])
    ensures Progress(items, children, docs, found, files[c := cur], stack, cur, left - {n})
  {
    assert IsItem(items, found[cur], n, c);
    hide Progress, OnStack, Chain;
    forall q, m, d | q in found && Entry(children, found[q], m, d)
      ensures if Waiting(stack, cur, left - {n}, q, m) then q + [m] !in found else Recorded(items, docs, found, files[c := cur], q, m, d)
    {
      ProgressAt(items, children, docs, found, files, stack, cur, left, q, m, d);
      if d == c {
        assert IsItem(items, found[q], m, c);
        hide Matches;
        OneChain(items, docs, root, root, q, cur, found[cur]);
      }
    }
    hide Matches, Recorded, Waiting, Sound;
    ProgressIs(items, children, docs, found, files[c := cur], stack, cur, left - {n});
  }

  /** Anything else is passed over. */
  lemma {:induction false} PassedOver(items: Items, children: Index, docs: set<nat>, found: map<Path, nat>,
      files: map<nat, Path>, stack: Stack, cur: Path, left: set<string>, n: string, c: nat)
    requires Progress(items, children, docs, found, files, stack, cur, left)
    requires cur in found && !OnStack(stack, cur) && Entry(children, found[cur], n, c) && c !in docs && !Folder(items, docs, c)
    ensures Progress(items, children, docs, found, files, stack, cur, left - {n})
  {
    hide Progress, OnStack;
    forall q, m, d | q in found && Entry(children, found[q], m, d)
      ensures if Waiting(stack, cur, left - {n}, q, m) then q + [m] !in found else Recorded(items, docs, found, files, q, m, d)
    {
      ProgressAt(items, children, docs, found, files, stack, cur, left, q, m, d);
    }
    ProgressIs(items, children, docs, found, files, stack, cur, left - {n});
  }

  // ── what the walk has found in the end ────────────────────────────────────

  lemma {:induction false} ItemEntry(items: Items, children: Index, p: nat, n: string, i: nat)
    requires Matches(items, children)
    ensures Entry(children, p, n, i) <==> IsItem(items, p, n, i)
  {
  }

  lemma {:induction false} FoundNext(items: Items, children: Index, docs: set<nat>, found: map<Path, nat>,
      files: map<nat, Path>, cur: Path, q: Path, n: string, i: nat)
    requires Matches(items, children) && Progress(items, children, docs, found, files, [], cur, {})
    requires q in found && IsItem(items, found[q], n, i)
    ensures Recorded(items, docs, found, files, q, n, i)
  {
    hide Matches, Progress, Recorded, IsItem;
    ItemEntry(items, children, found[q], n, i);
    ProgressAt(items, children, docs, found, files, [], cur, {}, q, n, i);
  }

  /** Nothing waits: the found folders are exactly those parent links lead from to the root. */
  lemma {:induction false} FoundAll(items: Items, children: Index, docs: set<nat>, root: nat, found: map<Path, nat>,
      files: map<nat, Path>, cur: Path, p: Path, i: nat)
    requires Matches(items, children) && IsRoot(items, docs, root) && Sound(items, docs, root, found, files)
    requires Progress(items, children, docs, found, files, [], cur, {})
    ensures p in found && found[p] == i <==> Chain(items, docs, root, p, i)
    decreases |p|
  {
    hide Matches, Progress, IsRoot;
    if Chain(items, docs, root, p, i) && p != [] {
      var q, n := p[..|p| - 1], p[|p| - 1];
      FoundAll(items, children, docs, root, found, files, cur, q, items[i].parent);
      hide Sound;
      FoundNext(items, children, docs, found, files, cur, q, n, i);
      assert p == q + [n];
      hide Chain;
    }
  }

  /** Nothing waits: every document below the root is recorded with the path of its folder. */
  lemma {:induction false} FilesAll(items: Items, children: Index, docs: set<nat>, root: nat, found: map<Path, nat>,
      files: map<nat, Path>, cur: Path, p: Path, c: nat)
    requires Matches(items, children) && IsRoot(items, docs, root) && Sound(items, docs, root, found, files)
    requires Progress(items, children, docs, found, files, [], cur, {}) && c in docs && c in items
    ensures c in files && files[c] == p <==> Chain(items, docs, root, p, items[c].parent)
  {
    hide Matches, Progress, Chain;
    FoundAll(items, children, docs, root, found, files, cur, p, items[c].parent);
    if Chain(items, docs, root, p, items[c].parent) {
      hide Sound;
      FoundNext(items, children, docs, found, files, cur, p, items[c].name, c);
    }
  }

  // ── the index after a walk and after a move ───────────────────────────────

  type Paths = map<(string, Path), nat>

  /** The tree's part of the index is what parent links give. */
  ghost predicate FoldersExact(items: Items, docs: set<nat>, root: nat, paths: Paths, t: string) {
    forall p, i :: (t, p) in paths && paths[(t, p)] == i <==> Chain(items, docs, root, p, i)
  }

  /** So are the recorded paths of its documents. */
  ghost predicate DocsExact(items: Items, docs: map<nat, Doc>, root: nat, t: string) {
    forall c, p :: c in docs && c in items && Chain(items, docs.Keys, root, p, items[c].parent) ==> docs[c].path == p && docs[c].tree == t
  }

  function Replaced(paths: Paths, t: string, found: map<Path, nat>): Paths {
    (map k | k in paths && k.0 != t :: paths[k]) + (map p | p in found :: (t, p) := found[p])
  }

  function Refiled(docs: map<nat, Doc>, files: map<nat, Path>): map<nat, Doc> {
    map c | c in docs :: if c in files then docs[c].(path := files[c]) else docs[c]
  }

  lemma {:induction false} ReplacedExact(items: Items, docs: set<nat>, root: nat, paths: Paths, t: string,
      found: map<Path, nat>)
    requires forall p, i :: p in found && found[p] == i <==> Chain(items, docs, root, p, i)
    ensures FoldersExact(items, docs, root, Replaced(paths, t, found), t)
  {
    hide Chain;
    var now := Replaced(paths, t, found);
    forall p ensures (t, p) in now <==> p in found {
    }
    forall p | p in found ensures now[(t, p)] == found[p] {
    }
  }

  class Workspace {
    var items: Items
    var children: Index
    /** The root of every tree, by the tree's name. */
    var trees: map<string, nat>
    var docs: map<nat, Doc>
    var pathInos: Paths

    ghost predicate Wired()
      reads this
    {
      && Matches(items, children)
      && (forall t <- trees :: IsRoot(items, docs.Keys, trees[t]))
      && (forall t, u :: t in trees && u in trees && trees[t] == trees[u] ==> t == u)
    }

    ghost predicate Exact(t: string)
      reads this
    {
      t in trees ==> FoldersExact(items, docs.Keys, trees[t], pathInos, t) && DocsExact(items, docs, trees[t], t)
    }

    /** The children of one folder: sub-folders are found and put on the stack, documents filed. */
    method ReadFolder(root: nat, ino: nat, path: Path, found0: map<Path, nat>, files0: map<nat, Path>, stack0: Stack)
      returns (found: map<Path, nat>, files: map<nat, Path>, stack: Stack)
      requires Matches(items, children) && IsRoot(items, docs.Keys, root)
      requires path in found0 && found0[path] == ino && !OnStack(stack0, path)
      requires Sound(items, docs.Keys, root, found0, files0) && StackOk(found0, stack0)
      requires Progress(items, children, docs.Keys, found0, files0, stack0, path, if ino in children then children[ino].Keys else {})
      ensures Sound(items, docs.Keys, root, found, files) && StackOk(found, stack)
      ensures Progress(items, children, docs.Keys, found, files, stack, path, {})
      ensures Unfound(items, found) < Unfound(items, found0) || (Unfound(items, found) == Unfound(items, found0) && stack == stack0)
    {
      hide *;
      found, files, stack := found0, files0, stack0;
      var left := if ino in children then children[ino].Keys else {};
      while left != {}
        invariant left <= (if ino in children then children[ino].Keys else {})
        invariant path in found && found[path] == ino && !OnStack(stack, path)
        invariant Sound(items, docs.Keys, root, found, files) && StackOk(found, stack)
        invariant Progress(items, children, docs.Keys, found, files, stack, path, left)
        invariant Unfound(items, found) < Unfound(items, found0) || (Unfound(items, found) == Unfound(items, found0) && stack == stack0)
      {
        var name :| name in left;
        var c := children[ino][name];
        EntryIs(children, ino, name);
        FolderIs(items, docs.Keys, c);
        if c in docs {
          FileFound(items, children, docs.Keys, root, found, files, stack, path, left, name, c);
          files := files[c := path];
        } else if c in items && items[c].dir {
          FolderFound(items, children, docs.Keys, root, found, files, stack, path, left, name, c);
          OneMoreFound(items, found, path + [name], c);
          found := found[path + [name] := c];
          stack := stack + [(c, path + [name])];
        } else {
          PassedOver(items, children, docs.Keys, found, files, stack, path, left, name, c);
        }
        left := left - {name};
      }
    }

    /** `reindex_tree_paths`: a walk from the tree's root with a stack of folders to read. */
    method Reindex(t: string)
      requires Wired()
      modifies this`pathInos, this`docs
      ensures t !in trees ==> pathInos == old(pathInos) && docs == old(docs)
      ensures t in trees ==> docs.Keys == old(docs).Keys && FoldersExact(items, docs.Keys, trees[t], pathInos, t) && RefiledBelow(items, old(docs), trees[t], docs)
      ensures SameElsewhere(old(pathInos), pathInos, t)
    {
      hide Chain, Progress, Recorded, Sound, Matches, Replaced, Refiled, FoldersExact, RefiledBelow, IsRoot, Unfound;
      if t !in trees {
        return;
      }
      var root := trees[t];
      var found: map<Path, nat>, files: map<nat, Path> := map[[] := root], map[];
      var stack: Stack := [(root, [])];
      WalkStarts(items, children, docs.Keys, root);
      while stack != []
        invariant docs == old(docs) && pathInos == old(pathInos)
        invariant Sound(items, docs.Keys, root, found, files) && StackOk(found, stack)
        invariant Progress(items, children, docs.Keys, found, files, stack, [], {})
        decreases Unfound(items, found), |stack|
      {
        var (ino, path) := stack[|stack| - 1];
        Popped(items, children, docs.Keys, found, files, stack, [], if ino in children then children[ino].Keys else {});
        stack := stack[..|stack| - 1];
        found, files, stack := ReadFolder(root, ino, path, found, files, stack);
        FolderRead(items, children, docs.Keys, found, files, stack, path);
      }
      FoundExactly(items, children, docs.Keys, root, pathInos, t, found, files);
      ReplacedElsewhere(pathInos, t, found);
      RefiledExactly(items, children, docs, root, found, files);
      pathInos := Replaced(pathInos, t, found);
      docs := Refiled(docs, files);
    }

    /** `move_entry`. */
    method MoveEntry(ino: nat, p: nat, n: string)
      requires Wired() && ino in items && items[ino].parent != TOP && p != TOP
      requires forall j :: IsItem(items, p, n, j) ==> j == ino
      modifies this`items, this`children
      ensures Wired() && items == old(items)[ino := old(items)[ino].(parent := p, name := n)]
    {
      hide Matches, Rehung;
      Rewired(items, children, ino, p, n);
      RootsStay(items, docs.Keys, trees, ino, p, n);
      children := Rehung(children, items[ino].parent, items[ino].name, p, n, ino);
      items := items[ino := items[ino].(parent := p, name := n)];
    }

    /** `move_tree_path_node`: a folder moves within its tree. */
    method MoveFolder(ino: nat, p: nat, n: string, t: string)
      requires Wired() && (forall u :: Exact(u)) && t in trees
      requires ino in items && items[ino].parent != TOP && p != TOP && forall j :: IsItem(items, p, n, j) ==> j == ino
      requires Reachable(items, docs.Keys, trees[t], ino) && Reachable(items, docs.Keys, trees[t], p)
      modifies this
      ensures Wired() && (forall u :: Exact(u)) && trees == old(trees)
      ensures items == old(items)[ino := old(items)[ino].(parent := p, name := n)]
    {
      hide Matches, FoldersExact, DocsExact, RefiledBelow, Reachable, Chain, IsRoot, SameElsewhere;
      TopIsNone(items, children);
      ghost var was, docs0, paths0 := items, docs, pathInos;
      MoveEntry(ino, p, n);
      Reindex(t);
      assert trees == old(trees);
      forall u | u in trees
        ensures FoldersExact(items, docs.Keys, trees[u], pathInos, u) && DocsExact(items, docs, trees[u], u)
      {
        assert old(Exact(u));
        FolderMoved(was, items, docs0, trees[t], trees[u], t, u, paths0, pathInos, docs, ino, p, n);
      }
    }

    /** `move_tree_file`: a document moves, possibly into another tree. */
    method MoveFile(ino: nat, p: nat, n: string, src: string, dst: string)
      requires Wired() && (forall u :: Exact(u)) && src in trees && dst in trees
      requires ino in items && ino in docs && items[ino].parent != TOP && p != TOP && forall j :: IsItem(items, p, n, j) ==> j == ino
      requires Reachable(items, docs.Keys, trees[dst], p)
      modifies this
      ensures Wired() && (forall u :: Exact(u)) && trees == old(trees) && docs.Keys == old(docs).Keys
      ensures items == old(items)[ino := old(items)[ino].(parent := p, name := n)]
      ensures docs[ino].tree == dst && docs[ino].id == old(docs)[ino].id
    {
      hide Matches, FoldersExact, DocsExact, RefiledBelow, Reachable, Chain, IsRoot, SameElsewhere;
      TopIsNone(items, children);
      ghost var was, docs0, paths0 := items, docs, pathInos;
      MoveEntry(ino, p, n);
      docs := docs[ino := docs[ino].(tree := dst)];
      assert docs.Keys == docs0.Keys;
      ghost var docs1 := docs;
      Reindex(dst);
      OnlyPathsChange(items, docs1, trees[dst], docs, ino);
      forall u | u in trees
        ensures FoldersExact(items, docs.Keys, trees[u], pathInos, u) && DocsExact(items, docs, trees[u], u)
      {
        assert old(Exact(u));
        FileMoved(was, items, docs0, docs1, trees[dst], trees[u], dst, u, paths0, pathInos, docs, ino, p, n);
      }
      if src != dst {
        ghost var docs2, paths2 := docs, pathInos;
        Reindex(src);
        OnlyPathsChange(items, docs2, trees[src], docs, ino);
        forall u | u in trees
          ensures FoldersExact(items, docs.Keys, trees[u], pathInos, u) && DocsExact(items, docs, trees[u], u)
        {
          NothingMoved(items, docs2, trees[src], trees[u], src, u, paths2, pathInos, docs);
        }
      }
    }
  }

  /** How many items the walk has not found yet. */
  function Unfound(items: Items, found: map<Path, nat>): nat {
    |items.Keys - found.Values|
  }

  lemma {:induction false} OneMoreFound(items: Items, found: map<Path, nat>, p: Path, c: nat)
    requires c in items && c !in found.Values && p !in found
    ensures Unfound(items, found[p := c]) < Unfound(items, found)
  {
    var now := found[p := c];
    assert now.Values == found.Values + {c} by {
      assert now[p] == c;
      forall v <- found.Values ensures v in now.Values {
        var q :| q in found && found[q] == v;
        assert now[q] == v;
      }
    }
    assert items.Keys - found.Values == (items.Keys - now.Values) + {c};
  }

  lemma {:induction false} EntryIs(children: Index, p: nat, n: string)
    requires p in children && n in children[p]
    ensures Entry(children, p, n, children[p][n])
  {
  }

  lemma {:induction false} FolderIs(items: Items, docs: set<nat>, c: nat)
    ensures c !in docs ==> (Folder(items, docs, c) <==> c in items && items[c].dir)
  {
  }

  /** A folder that is read may be forgotten. */
  lemma {:induction false} FolderRead(items: Items, children: Index, docs: set<nat>, found: map<Path, nat>,
      files: map<nat, Path>, stack: Stack, cur: Path)
    requires Progress(items, children, docs, found, files, stack, cur, {})
    ensures Progress(items, children, docs, found, files, stack, [], {})
  {
    hide Recorded, OnStack, Progress;
    forall p, n, c | p in found && Entry(children, found[p], n, c)
      ensures if Waiting(stack, [], {}, p, n) then p + [n] !in found else Recorded(items, docs, found, files, p, n, c)
    {
      ProgressAt(items, children, docs, found, files, stack, cur, {}, p, n, c);
    }
    ProgressIs(items, children, docs, found, files, stack, [], {});
  }

  lemma {:induction false} WalkStarts(items: Items, children: Index, docs: set<nat>, root: nat)
    ensures var found: map<Path, nat>, files: map<nat, Path> := map[[] := root], map[];
            Sound(items, docs, root, found, files) && StackOk(found, [(root, [])]) && Progress(items, children, docs, found, files, [(root, [])], [], {})
  {
    var found: map<Path, nat>, files: map<nat, Path>, stack: Stack := map[[] := root], map[], [(root, [])];
    assert stack[0].1 == [] && OnStack(stack, []);
    hide OnStack, Recorded;
    forall p, n, c | p in found && Entry(children, found[p], n, c)
      ensures if Waiting(stack, [], {}, p, n) then p + [n] !in found else Recorded(items, docs, found, files, p, n, c)
    {
      assert p == [] && p + [n] != [];
    }
    ProgressIs(items, children, docs, found, files, stack, [], {});
  }

  lemma {:induction false} FoundExactly(items: Items, children: Index, docs: set<nat>, root: nat, paths: Paths,
      t: string, found: map<Path, nat>, files: map<nat, Path>)
    requires Matches(items, children) && IsRoot(items, docs, root) && Sound(items, docs, root, found, files)
    requires Progress(items, children, docs, found, files, [], [], {})
    ensures FoldersExact(items, docs, root, Replaced(paths, t, found), t)
  {
    hide Matches, Sound, Progress, Chain, Replaced, FoldersExact, IsRoot;
    forall p, i ensures p in found && found[p] == i <==> Chain(items, docs, root, p, i) {
      FoundAll(items, children, docs, root, found, files, [], p, i);
    }
    ReplacedExact(items, docs, root, paths, t, found);
  }

  /** The index of the other trees is left alone. */
  ghost predicate SameElsewhere(paths: Paths, now: Paths, t: string) {
    forall u, p :: u != t ==> ((u, p) in now <==> (u, p) in paths) && ((u, p) in now ==> now[(u, p)] == paths[(u, p)])
  }

  lemma {:induction false} ReplacedElsewhere(paths: Paths, t: string, found: map<Path, nat>)
    ensures SameElsewhere(paths, Replaced(paths, t, found), t)
  {
  }

  /** A walk re-files the documents below the root, each under its folder's path, and no other. */
  ghost predicate RefiledBelow(items: Items, docs: map<nat, Doc>, root: nat, now: map<nat, Doc>) {
    && now.Keys == docs.Keys
    && (forall c, p :: c in docs && c in items && Chain(items, docs.Keys, root, p, items[c].parent) ==> now[c] == docs[c].(path := p))
    && (forall c :: c in docs && now[c] != docs[c] ==> c in items && exists p :: Chain(items, docs.Keys, root, p, items[c].parent))
  }

  lemma {:induction false} RefiledExactly(items: Items, children: Index, docs: map<nat, Doc>, root: nat,
      found: map<Path, nat>, files: map<nat, Path>)
    requires Matches(items, children) && IsRoot(items, docs.Keys, root) && Sound(items, docs.Keys, root, found, files)
    requires Progress(items, children, docs.Keys, found, files, [], [], {})
    ensures Refiled(docs, files).Keys == docs.Keys && RefiledBelow(items, docs, root, Refiled(docs, files))
  {
    hide Matches, Progress, Chain, IsRoot;
    var now := Refiled(docs, files);
    forall c, p | c in docs && c in items && Chain(items, docs.Keys, root, p, items[c].parent) ensures now[c] == docs[c].(path := p) {
      FilesAll(items, children, docs.Keys, root, found, files, [], p, c);
    }
    forall c | c in docs && now[c] != docs[c] ensures c in items && exists p :: Chain(items, docs.Keys, root, p, items[c].parent) {
      assert c in files && Chain(items, docs.Keys, root, files[c], items[c].parent);
    }
  }

  // ── moving an entry ───────────────────────────────────────────────────────

  ghost predicate Reachable(items: Items, docs: set<nat>, root: nat, i: nat) {
    exists p :: Chain(items, docs, root, p, i)
  }

  lemma {:induction false} RehungAt(children: Index, parent: nat, name: string, p: nat, n: string, i: nat, q: nat,
      m: string, j: nat)
    ensures Entry(Rehung(children, parent, name, p, n, i), q, m, j)
            <==> if q == p && m == n then j == i else Entry(children, q, m, j) && !(q == parent && m == name)
  {
  }

  lemma {:induction false} Rewired(items: Items, children: Index, i: nat, p: nat, n: string)
    requires Matches(items, children) && i in items && forall j :: IsItem(items, p, n, j) ==> j == i
    ensures Matches(items[i := items[i].(parent := p, name := n)], Rehung(children, items[i].parent, items[i].name, p, n, i))
  {
    hide Rehung, Entry;
    var now, index := items[i := items[i].(parent := p, name := n)], Rehung(children, items[i].parent, items[i].name, p, n, i);
    forall q, m, j ensures Entry(index, q, m, j) <==> IsItem(now, q, m, j) {
      RehungAt(children, items[i].parent, items[i].name, p, n, i, q, m, j);
      ItemEntry(items, children, q, m, j);
      ItemEntry(items, children, q, m, i);
      OneName(items, children, q, m, i, j);
    }
    hide Matches;
    assert TOP !in items by { ItemEntry(items, children, p, n, i); TopIsNone(items, children); }
    MatchesIs(now, index);
  }

  lemma {:induction false} MatchesIs(items: Items, children: Index)
    requires TOP !in items && forall p, n, i :: Entry(children, p, n, i) <==> IsItem(items, p, n, i)
    ensures Matches(items, children)
  {
  }

  lemma {:induction false} TopIsNone(items: Items, children: Index)
    requires Matches(items, children)
    ensures TOP !in items
  {
  }

  lemma {:induction false} OneName(items: Items, children: Index, p: nat, n: string, i: nat, j: nat)
    requires Matches(items, children)
    ensures IsItem(items, p, n, i) && IsItem(items, p, n, j) ==> i == j
  {
    hide Matches, IsItem;
    ItemEntry(items, children, p, n, i);
    ItemEntry(items, children, p, n, j);
  }

  lemma {:induction false} RootsStay(items: Items, docs: set<nat>, trees: map<string, nat>, i: nat, p: nat, n: string)
    requires i in items && items[i].parent != TOP && forall t <- trees :: IsRoot(items, docs, trees[t])
    ensures forall t <- trees :: IsRoot(items[i := items[i].(parent := p, name := n)], docs, trees[t])
  {
  }

  /** A tree that neither the entry nor its new folder belongs to keeps its paths. */
  lemma {:induction false} ChainStays(items: Items, docs: set<nat>, root: nat, i: nat, p: nat, n: string, path: Path, j: nat)
    requires i in items && i != root && (i in docs || (!Reachable(items, docs, root, i) && !Reachable(items, docs, root, p)))
    ensures Chain(items[i := items[i].(parent := p, name := n)], docs, root, path, j) <==> Chain(items, docs, root, path, j)
    decreases |path|
  {
    hide Reachable;
    if path != [] {
      var q := path[..|path| - 1];
      if j == i {
        ChainStays(items, docs, root, i, p, n, q, p);
        BelowIs(items, docs, root, path, i);
        BelowIs(items, docs, root, q, p);
      } else if j in items {
        ChainStays(items, docs, root, i, p, n, q, items[j].parent);
      }
    }
  }

  lemma {:induction false} BelowIs(items: Items, docs: set<nat>, root: nat, path: Path, i: nat)
    ensures Chain(items, docs, root, path, i) ==> Reachable(items, docs, root, i)
  {
    hide Chain;
  }

  /** What is below the root after a move in its tree was there before. */
  lemma {:induction false} BelowBefore(items: Items, docs: set<nat>, root: nat, i: nat, p: nat, n: string, path: Path,
      j: nat)
    requires i in items && Reachable(items, docs, root, i)
    requires Chain(items[i := items[i].(parent := p, name := n)], docs, root, path, j)
    ensures Reachable(items, docs, root, j)
    decreases |path|
  {
    if path == [] {
      assert Chain(items, docs, root, [], root);
    } else if j != i {
      BelowBefore(items, docs, root, i, p, n, path[..|path| - 1], items[j].parent);
      var q :| Chain(items, docs, root, q, items[j].parent);
      ChainStep(items, docs, root, q, items[j].name, j);
    }
  }

  // ── the index follows ─────────────────────────────────────────────────────

  lemma {:induction false} NotInTwo(items: Items, docs: set<nat>, r: nat, s: nat, i: nat)
    requires TOP !in items && IsRoot(items, docs, r) && IsRoot(items, docs, s) && r != s && Reachable(items, docs, r, i)
    ensures !Reachable(items, docs, s, i)
  {
    hide Chain;
    var p :| Chain(items, docs, r, p, i);
    if q :| Chain(items, docs, s, q, i) {
      OneChain(items, docs, r, s, p, q, i);
    }
  }

  lemma {:induction false} FoldersStay(items: Items, now: Items, docs: set<nat>, root: nat, paths: Paths,
      after: Paths, t: string, u: string)
    requires FoldersExact(items, docs, root, paths, u) && SameElsewhere(paths, after, t) && u != t
    requires forall p, i :: Chain(now, docs, root, p, i) <==> Chain(items, docs, root, p, i)
    ensures FoldersExact(now, docs, root, after, u)
  {
    hide Chain;
    forall p, i ensures (u, p) in after && after[(u, p)] == i <==> Chain(now, docs, root, p, i) {
      assert (u, p) in paths && paths[(u, p)] == i <==> Chain(items, docs, root, p, i);
    }
  }

  /** Documents below another root are not re-filed. */
  lemma {:induction false} DocsStay(items: Items, docs: map<nat, Doc>, now: map<nat, Doc>, r: nat, s: nat, u: string)
    requires TOP !in items && IsRoot(items, docs.Keys, r) && IsRoot(items, docs.Keys, s) && r != s
    requires RefiledBelow(items, docs, r, now) && DocsExact(items, docs, s, u)
    ensures DocsExact(items, now, s, u)
  {
    hide Chain, IsRoot;
    forall c, p | c in now && c in items && Chain(items, now.Keys, s, p, items[c].parent) ensures now[c].path == p && now[c].tree == u {
      BelowIs(items, docs.Keys, s, p, items[c].parent);
      NotInTwo(items, docs.Keys, s, r, items[c].parent);
      assert now[c] == docs[c];
    }
  }

  /** Documents that were in the tree already are filed where they are. */
  lemma {:induction false} DocsFiled(items: Items, docs: map<nat, Doc>, now: map<nat, Doc>, root: nat, t: string)
    requires RefiledBelow(items, docs, root, now)
    requires forall c, p :: c in docs && c in items && Chain(items, docs.Keys, root, p, items[c].parent) ==> docs[c].tree == t
    ensures DocsExact(items, now, root, t)
  {
    hide Chain;
  }

  /** What a reindex of tree `t` leaves behind. */
  ghost predicate Reindexed(items: Items, docs: map<nat, Doc>, r: nat, t: string, paths: Paths, after: Paths,
      now: map<nat, Doc>) {
    && now.Keys == docs.Keys && FoldersExact(items, docs.Keys, r, after, t)
    && RefiledBelow(items, docs, r, now) && SameElsewhere(paths, after, t)
  }

  lemma {:induction false} OnlyPathsChange(items: Items, docs: map<nat, Doc>, root: nat, now: map<nat, Doc>, c: nat)
    requires RefiledBelow(items, docs, root, now) && c in docs
    ensures c in now && now[c].tree == docs[c].tree && now[c].id == docs[c].id
  {
    hide Chain;
    if now[c] != docs[c] {
      var p :| Chain(items, docs.Keys, root, p, items[c].parent);
      assert now[c] == docs[c].(path := p);
    }
  }

  /** Nothing has moved: a reindex leaves every tree exact. */
  lemma {:induction false} NothingMoved(items: Items, docs: map<nat, Doc>, r: nat, s: nat, t: string, u: string,
      paths: Paths, after: Paths, now: map<nat, Doc>)
    requires TOP !in items && IsRoot(items, docs.Keys, r) && IsRoot(items, docs.Keys, s) && (r == s <==> t == u)
    requires Reindexed(items, docs, r, t, paths, after, now)
    requires FoldersExact(items, docs.Keys, s, paths, u) && DocsExact(items, docs, s, u)
    ensures FoldersExact(items, docs.Keys, s, after, u) && DocsExact(items, now, s, u)
  {
    hide Chain, IsRoot, RefiledBelow, SameElsewhere, FoldersExact;
    if t == u {
      DocsFiled(items, docs, now, r, t);
    } else {
      hide DocsExact;
      FoldersStay(items, items, docs.Keys, s, paths, after, t, u);
      DocsStay(items, docs, now, r, s, u);
    }
  }

  ghost predicate MovedBy(items: Items, now: Items, i: nat, p: nat, n: string) {
    i in items && items[i].parent != TOP && TOP !in items && now == items[i := items[i].(parent := p, name := n)]
  }

  lemma {:induction false} RootIsNotMoved(items: Items, now: Items, docs: set<nat>, i: nat, p: nat, n: string, r: nat)
    requires MovedBy(items, now, i, p, n) && IsRoot(items, docs, r)
    ensures i != r && IsRoot(now, docs, r) && TOP !in now
    ensures Reachable(items, docs, r, i) ==> i !in docs
  {
    if Reachable(items, docs, r, i) {
      var q :| Chain(items, docs, r, q, i);
    }
  }

  /** A document's move changes no folder's path. */
  lemma {:induction false} FileMoved(was: Items, items: Items, docs: map<nat, Doc>, refiled: map<nat, Doc>, r: nat,
      s: nat, t: string, u: string, paths: Paths, after: Paths, now: map<nat, Doc>, i: nat, p: nat, n: string)
    requires MovedBy(was, items, i, p, n) && i in docs && refiled == docs[i := docs[i].(tree := t)]
    requires IsRoot(was, docs.Keys, r) && IsRoot(was, docs.Keys, s) && (r == s <==> t == u) && Reachable(was, docs.Keys, r, p)
    requires Reindexed(items, refiled, r, t, paths, after, now)
    requires FoldersExact(was, docs.Keys, s, paths, u) && DocsExact(was, docs, s, u)
    ensures FoldersExact(items, docs.Keys, s, after, u) && DocsExact(items, now, s, u)
  {
    assert refiled.Keys == docs.Keys;
    hide Chain, IsRoot, RefiledBelow, SameElsewhere, FoldersExact, Reachable;
    RootIsNotMoved(was, items, docs.Keys, i, p, n, r);
    RootIsNotMoved(was, items, docs.Keys, i, p, n, s);
    forall q, j ensures Chain(items, docs.Keys, s, q, j) <==> Chain(was, docs.Keys, s, q, j) {
      ChainStays(was, docs.Keys, s, i, p, n, q, j);
    }
    if t != u {
      NotInTwo(was, docs.Keys, r, s, p);
      forall q ensures !Chain(was, docs.Keys, s, q, p) {
        BelowIs(was, docs.Keys, s, q, p);
      }
      assert DocsExact(items, refiled, s, u);
      hide DocsExact, MovedBy;
      FoldersStay(was, items, docs.Keys, s, paths, after, t, u);
      DocsStay(items, refiled, now, r, s, u);
    } else {
      DocsFiled(items, refiled, now, r, t);
    }
  }

  /** A folder's move changes the paths below it, in its own tree only. */
  lemma {:induction false} FolderMoved(was: Items, items: Items, docs: map<nat, Doc>, r: nat, s: nat, t: string,
      u: string, paths: Paths, after: Paths, now: map<nat, Doc>, i: nat, p: nat, n: string)
    requires MovedBy(was, items, i, p, n) && Reachable(was, docs.Keys, r, i) && Reachable(was, docs.Keys, r, p)
    requires IsRoot(was, docs.Keys, r) && IsRoot(was, docs.Keys, s) && (r == s <==> t == u)
    requires Reindexed(items, docs, r, t, paths, after, now)
    requires FoldersExact(was, docs.Keys, s, paths, u) && DocsExact(was, docs, s, u)
    ensures FoldersExact(items, docs.Keys, s, after, u) && DocsExact(items, now, s, u)
  {
    hide Chain, IsRoot, RefiledBelow, SameElsewhere, FoldersExact, Reachable;
    RootIsNotMoved(was, items, docs.Keys, i, p, n, r);
    RootIsNotMoved(was, items, docs.Keys, i, p, n, s);
    if t == u {
      forall c, q | c in docs && c in items && Chain(items, docs.Keys, r, q, items[c].parent) ensures docs[c].tree == t {
        BelowBefore(was, docs.Keys, r, i, p, n, q, items[c].parent);
        TreeOf(was, docs, r, t, c);
      }
      DocsFiled(items, docs, now, r, t);
    } else {
      NotInTwo(was, docs.Keys, r, s, i);
      NotInTwo(was, docs.Keys, r, s, p);
      forall q, j ensures Chain(items, docs.Keys, s, q, j) <==> Chain(was, docs.Keys, s, q, j) {
        ChainStays(was, docs.Keys, s, i, p, n, q, j);
      }
      assert DocsExact(items, docs, s, u);
      hide DocsExact, MovedBy;
      FoldersStay(was, items, docs.Keys, s, paths, after, t, u);
      DocsStay(items, docs, now, r, s, u);
    }
  }

  lemma {:induction false} TreeOf(items: Items, docs: map<nat, Doc>, root: nat, t: string, c: nat)
    requires DocsExact(items, docs, root, t) && c in docs && c in items && Reachable(items, docs.Keys, root, items[c].parent)
    ensures docs[c].tree == t
  {
    hide Chain;
    var p :| Chain(items, docs.Keys, root, p, items[c].parent);
  }
}
