/** Re-keying a table for a directory move: the abstract effect shared by the ledger commit,
    the folder rename and the hub's directory rename. */
module Rekey {
  import opened Options
  import opened Keys

  lemma {:induction false} MappedInjective(from: Key, to: Key)
    ensures forall a, b {:trigger Mapped(a, from, to), Mapped(b, from, to)} ::
              Under(a, from) && Under(b, from) && Mapped(a, from, to) == Mapped(b, from, to) ==> a == b
  {
    forall a, b | Under(a, from) && Under(b, from) && Mapped(a, from, to) == Mapped(b, from, to)
      ensures a == b
    {
      MappedIsRelabelling(a, b, from, to);
    }
  }

  /** The rows below `from`, under their new names. */
  function MovedRows<V>(m: map<Key, V>, from: Key, to: Key): map<Key, V> {
    MappedInjective(from, to);
    map k | k in m && Under(k, from) :: Mapped(k, from, to) := m[k]
  }

  /** Every row below `from` is found below `to` afterwards; a row that was already at the
      new name is replaced; the rest stays. */
  function RekeyMap<V>(m: map<Key, V>, from: Key, to: Key): map<Key, V> {
    (map k | k in m && !Under(k, from) :: m[k]) + MovedRows(m, from, to)
  }

  /** Where a row of the re-keyed table comes from. */
  function Origin<V>(m: map<Key, V>, from: Key, to: Key, k: Key): Option<Key> {
    if Under(k, to) && Mapped(k, to, from) in m then Some(Mapped(k, to, from))
    else if Under(k, from) then None
    else Some(k)
  }

  lemma {:induction false} RekeyLookup<V>(m: map<Key, V>, from: Key, to: Key, k: Key)
    ensures Lookup(RekeyMap(m, from, to), k) ==
              match Origin(m, from, to, k) { case Some(o) => Lookup(m, o) case None => None }
  {
    var moved := MovedRows(m, from, to);
    if Under(k, to) {
      var o := Mapped(k, to, from);
      MappedIsRelabelling(k, k, to, from);
      if o in m {
        assert Mapped(o, from, to) in moved;
      }
    }
    if k in moved {
      var x :| x in m && Under(x, from) && k == Mapped(x, from, to) && moved[k] == m[x];
      MappedIsRelabelling(x, x, from, to);
    }
  }

  lemma {:induction false} RekeyAgrees<V>(m: map<Key, V>, n: map<Key, V>)
    requires forall k :: Lookup(m, k) == Lookup(n, k)
    ensures m == n
  {
    forall k | k in m || k in n ensures k in m && k in n && m[k] == n[k] {
      assert Lookup(m, k) == Lookup(n, k);
    }
    assert m.Keys == n.Keys;
  }
}
