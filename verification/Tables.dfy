/**
 The database as an object: one field per table, updated in place. A
 transaction is one method of the clients beside this file; when it fails it
 puts back the tables it started from.
 */
module Tables {
  import opened Types

  class Database {
    var entities: map<Key, Entity>
    var outbox: map<OpId, Op>
    var conflicts: map<ConflictId, ConflictRow>
    var vault: map<SlotId, Payload>
    var sync: Option<SyncRow>
    var manifests: map<SnapshotId, Manifest>
    var staged: map<StagedKey, Staged>

    function View(): Db
      reads this
    {
      Db(entities, outbox, conflicts, vault, sync, manifests, staged)
    }

    /** Opens a database that already holds `db`. */
    constructor (db: Db)
      ensures View() == db
    {
      entities, outbox, conflicts, vault := db.entities, db.outbox, db.conflicts, db.vault;
      sync, manifests, staged := db.sync, db.manifests, db.staged;
    }

    /** Rolls back to the tables a transaction started from. */
    method Restore(before: Db)
      modifies this
      ensures View() == before
    {
      entities, outbox, conflicts, vault := before.entities, before.outbox, before.conflicts, before.vault;
      sync, manifests, staged := before.sync, before.manifests, before.staged;
    }
  }
}
