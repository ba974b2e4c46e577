/** Path algebra on hub keys: the pure helpers of `src/mirror/store.rs` and `src/mirror/mod.rs`. */
module Keys {

  /** A hub key: `/`-separated, relative, already in NFC. */
  type Key = string

  /** `key` is `dir` itself or lies somewhere below it. */
  predicate Under(key: Key, dir: Key) {
    || key == dir
    || (dir < key && key[|dir|] == '/')
  }

  predicate Overlaps(a: Key, b: Key) {
    Under(a, b) || Under(b, a)
  }

  /** The key a directory move `from` -> `to` gives to a key below `from`. */
  function Mapped(key: Key, from: Key, to: Key): Key
    requires Under(key, from)
  {
    to + key[|from|..]
  }

  /** Everything before the last slash; empty when there is none. */
  function ParentKey(key: Key): Key {
    if key == "" then ""
    else if key[|key| - 1] == '/' then key[..|key| - 1]
    else ParentKey(key[..|key| - 1])
  }

  lemma {:induction false} ParentShorter(key: Key)
    ensures ParentKey(key) <= key
    ensures key != "" ==> |ParentKey(key)| < |key|
  {
    if key != "" && key[|key| - 1] != '/' {
      ParentShorter(key[..|key| - 1]);
    }
  }

  /** The non-empty keys a chain of `parent_key` calls passes through, starting at `key`. */
  ghost function Ancestors(key: Key): set<Key>
    decreases |key|
  {
    if key == "" then {}
    else
      ParentShorter(key);
      {key} + Ancestors(ParentKey(key))
  }

  /** The longest proper prefix of `key` that ends just before a slash is its parent. */
  lemma {:induction false} ParentIsLastCut(key: Key, dir: Key)
    requires dir < key && key[|dir|] == '/'
    ensures Under(ParentKey(key), dir)
  {
    var init := key[..|key| - 1];
    if key[|key| - 1] == '/' {
      assert dir <= init;
    } else {
      assert dir < init && init[|dir|] == '/';
      ParentIsLastCut(init, dir);
    }
  }

  lemma {:induction false} ParentCutsAtSlash(key: Key)
    requires ParentKey(key) != ""
    ensures ParentKey(key) < key && key[|ParentKey(key)|] == '/'
  {
    if key[|key| - 1] != '/' {
      ParentCutsAtSlash(key[..|key| - 1]);
    }
  }

  lemma {:induction false} UnderTransitive(a: Key, b: Key, c: Key)
    requires Under(a, b) && Under(b, c)
    ensures Under(a, c)
  {
  }

  /** `under` is exactly reachability by repeated `parent_key`: the two notions of
      "inside a directory" that the engine uses never disagree. */
  lemma {:induction false} UnderIffAncestor(key: Key, dir: Key)
    requires dir != ""
    ensures Under(key, dir) <==> dir in Ancestors(key)
    decreases |key|
  {
    if key == "" {
    } else {
      var parent := ParentKey(key);
      ParentShorter(key);
      UnderIffAncestor(parent, dir);
      if dir != key && Under(key, dir) {
        ParentIsLastCut(key, dir);
      }
      if Under(parent, dir) {
        ParentCutsAtSlash(key);
        UnderTransitive(key, parent, dir);
      }
    }
  }

  /** Two directories that share a descendant are nested: regions of non-overlapping
      keys are disjoint. */
  lemma {:induction false} CommonDescendantOverlaps(key: Key, a: Key, b: Key)
    requires Under(key, a) && Under(key, b)
    ensures Overlaps(a, b)
  {
    if |a| <= |b| {
      assert a == key[..|a|] && b == key[..|b|];
      assert a <= b;
      if |a| < |b| {
        assert b[|a|] == key[|a|];
      }
    } else {
      assert b <= a;
      assert a[|b|] == key[|b|];
    }
  }

  /** Nested directories are those that share a descendant. */
  lemma {:induction false} OverlapsIffShared(a: Key, b: Key)
    ensures Overlaps(a, b) <==> exists key :: Under(key, a) && Under(key, b)
  {
    if Overlaps(a, b) {
      var key := if Under(a, b) then a else b;
      assert Under(key, a) && Under(key, b);
    } else if key :| Under(key, a) && Under(key, b) {
      CommonDescendantOverlaps(key, a, b);
    }
  }

  /** Anything overlapping a key below `dir`, or `dir` itself, overlaps `dir`. */
  lemma {:induction false} OverlapsUpward(a: Key, b: Key, dir: Key)
    requires Under(b, dir) && Overlaps(a, b)
    ensures Overlaps(a, dir)
  {
    if Under(a, b) {
      UnderTransitive(a, b, dir);
    } else {
      CommonDescendantOverlaps(b, a, dir);
    }
  }

  /** A directory move is one-to-one on the keys it moves, lands below the destination,
      preserves nesting, and is undone by the move back. */
  lemma {:induction false} MappedIsRelabelling(key: Key, other: Key, from: Key, to: Key)
    requires Under(key, from) && Under(other, from)
    ensures Under(Mapped(key, from, to), to)
    ensures Mapped(Mapped(key, from, to), to, from) == key
    ensures Mapped(key, from, to) == Mapped(other, from, to) <==> key == other
    ensures Under(Mapped(key, from, to), Mapped(other, from, to)) <==> Under(key, other)
  {
    var rest, rest' := key[|from|..], other[|from|..];
    assert key == from + rest && other == from + rest';
    assert (to + rest)[|to|..] == rest && (to + rest')[|to|..] == rest';
    if Under(to + rest, to + rest') && rest != rest' {
      assert (to + rest)[..|to + rest'|] == to + rest';
      assert rest[..|rest'|] == (to + rest)[..|to + rest'|][|to|..] == rest';
      assert key[..|other|] == from + rest[..|rest'|];
    }
    if Under(key, other) && rest != rest' {
      assert rest[..|rest'|] == key[..|other|][|from|..] == rest';
      assert (to + rest)[..|to + rest'|] == to + rest[..|rest'|];
    }
  }

  // ── segments ──────────────────────────────────────────────────────────────

  /** Rust's `split(sep)`: always at least one piece, empty pieces included. */
  function Split<T(==)>(s: seq<T>, sep: T): (parts: seq<seq<T>>)
    ensures |parts| > 0
    ensures forall p <- parts :: sep !in p
  {
    if s == [] then [[]]
    else
      var rest := Split(s[1..], sep);
      if s[0] == sep then [[]] + rest else [[s[0]] + rest[0]] + rest[1..]
  }

  function Join<T>(parts: seq<seq<T>>, sep: T): seq<T> {
    if |parts| == 0 then []
    else if |parts| == 1 then parts[0]
    else parts[0] + [sep] + Join(parts[1..], sep)
  }

  function NonEmpty<T(==)>(parts: seq<seq<T>>): (kept: seq<seq<T>>)
    ensures forall p <- kept :: p in parts && p != []
    ensures (forall i :: 0 <= i < |parts| ==> parts[i] != []) ==> kept == parts
  {
    if parts == [] then []
    else if parts[0] == [] then NonEmpty(parts[1..])
    else [parts[0]] + NonEmpty(parts[1..])
  }

  /** The names along a key: no empty segments. */
  function Segments<T(==)>(s: seq<T>, sep: T): seq<seq<T>> {
    NonEmpty(Split(s, sep))
  }

  /** A list of names as a directory walk uses them. */
  predicate Names<T(==)>(parts: seq<seq<T>>, sep: T) {
    forall p <- parts :: p != [] && sep !in p
  }

  /** Without the NFC step, which is the identity on keys already in NFC. */
  function NormalizeKey(raw: string): Key {
    Join(Segments(raw, '/'), '/')
  }

  lemma {:induction false} SplitPrefix<T>(a: seq<T>, rest: seq<T>, sep: T)
    requires sep !in a
    ensures Split(a + [sep] + rest, sep) == [a] + Split(rest, sep)
  {
    var s := a + [sep] + rest;
    if a == [] {
      assert s[1..] == rest;
    } else {
      assert s[1..] == a[1..] + [sep] + rest;
      SplitPrefix(a[1..], rest, sep);
      assert [a[0]] + a[1..] == a;
    }
  }

  lemma {:induction false} SplitPlain<T>(a: seq<T>, sep: T)
    requires sep !in a
    ensures Split(a, sep) == [a]
  {
    if a != [] {
      SplitPlain(a[1..], sep);
      assert [a[0]] + a[1..] == a;
    }
  }

  /** Splitting undoes joining. */
  lemma {:induction false} SplitJoin<T>(parts: seq<seq<T>>, sep: T)
    requires parts != [] && forall p <- parts :: sep !in p
    ensures Split(Join(parts, sep), sep) == parts
  {
    if |parts| == 1 {
      SplitPlain(parts[0], sep);
    } else {
      SplitPrefix(parts[0], Join(parts[1..], sep), sep);
      SplitJoin(parts[1..], sep);
    }
  }

  /** Names survive being written as a key and read back. */
  lemma {:induction false} SegmentsJoin<T>(parts: seq<seq<T>>, sep: T)
    requires Names(parts, sep)
    ensures Segments(Join(parts, sep), sep) == parts
  {
    if parts == [] {
      assert Split<T>([], sep) == [[]];
    } else {
      SplitJoin(parts, sep);
      assert forall i :: 0 <= i < |parts| ==> parts[i] in parts;
    }
  }

  lemma {:induction false} SegmentsAreNames<T>(s: seq<T>, sep: T)
    ensures Names(Segments(s, sep), sep)
  {
    var parts := Split(s, sep);
    forall p | p in NonEmpty(parts) ensures p != [] && sep !in p {
      assert p in parts;
    }
  }

  /** Normalization keeps the segments and is idempotent, so a key that went through it
      once is stable ever after. */
  lemma {:induction false} NormalizeStable(raw: string)
    ensures Segments(NormalizeKey(raw), '/') == Segments(raw, '/')
    ensures NormalizeKey(NormalizeKey(raw)) == NormalizeKey(raw)
  {
    SegmentsAreNames(raw, '/');
    SegmentsJoin(Segments(raw, '/'), '/');
  }
}
