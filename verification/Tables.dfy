/** The rows of the mirror's ledger (`src/mirror/store.rs`). */
module Tables {
  import opened Options
  import opened Keys
  import opened Reconcile

  datatype EntryState = Clean | Dirty | Tombstone

  /** What the local bytes of a key are. `mtime` stands for size and modification time. */
  datatype Entry = Entry(sha: Digest, mtime: nat, state: EntryState)

  datatype ConflictRecord = ConflictRecord(key: Key, localSha: Digest, uploaded: bool, copyKey: Option<Key>)

  /** The digest a row records for a file that is there: the local side of the decision. */
  function RowSha(entries: map<Key, Entry>, key: Key): (r: Option<Digest>)
    ensures r.None? <==> key !in entries || entries[key].state.Tombstone?
    ensures r.Some? ==> r.value == entries[key].sha
  {
    if key in entries && !entries[key].state.Tombstone? then Some(entries[key].sha) else None
  }
}
