/**
 The bodies of protected entities in the vault: what a commit that fails, or is made
 twice, does to them, and when an entity's body is the one its digest belongs to.
 */
module Bodies {
  import opened Types
  import opened Repository
  import Push
  import Bootstrap

  /** Every body a row refers to is still there, unchanged. */
  ghost predicate SparesBodies(entities: map<Key, Entity>, before: map<SlotId, Payload>, after: map<SlotId, Payload>) {
    forall k | k in entities && entities[k].payload.Reference? && entities[k].payload.slot in before ::
      entities[k].payload.slot in after && after[entities[k].payload.slot] == before[entities[k].payload.slot]
  }

  predicate RefersTo(entities: map<Key, Entity>, slot: SlotId) {
    exists k | k in entities :: entities[k].payload == Reference(slot)
  }

  /** A protected commit that fails spares the bodies of all rows if and only if it never
      sealed anything, or no row refers to the slot of its own operation. */
  lemma FailedCommitSpares(db: Db, m: Mutation, body: Payload)
    requires ProtectedCommit(db, m, body).1.Err?
    ensures ProtectedCommit(db, m, body).0.entities == db.entities
    ensures SparesBodies(db.entities, db.vault, ProtectedCommit(db, m, body).0.vault)
            <==> || m.kind.Delete? || m.op in db.outbox
                 || OfOp(m.op) !in db.vault || !RefersTo(db.entities, OfOp(m.op))
  {
    var slot, after := OfOp(m.op), ProtectedCommit(db, m, body).0;
    if m.kind.Delete? || m.op in db.outbox {
      assert after == db;
    } else {
      assert after.vault == db.vault[slot := body] - {slot};
      if slot in db.vault && RefersTo(db.entities, slot) {
        var k :| k in db.entities && db.entities[k].payload == Reference(slot);
        assert slot !in after.vault;
      }
    }
  }

  /** Committed, acknowledged and committed once more, as a caller does that never saw
      the first commit succeed: the repetition fails on the base version, and takes the
      body of the acknowledged entity with it. */
  lemma RepeatAfterAckLosesBody(db: Db, m: Mutation, body: Payload, version: nat)
    requires Keyed(db.outbox) && !m.kind.Delete? && !m.key.kind.DocUpdate? && m.op !in db.outbox
    requires ProtectedCommit(db, m, body).1.Ok? && version != m.baseVersion
    ensures var done := ProtectedCommit(db, m, body).0;
            && m.op in done.outbox && done.outbox[m.op].key == m.key
            && var acked := Push.Ack(done, done.outbox[m.op], version);
            && Keyed(acked.outbox)
            && m.key in acked.entities && acked.entities[m.key].payload == Reference(OfOp(m.op))
            && OfOp(m.op) in acked.vault && acked.vault[OfOp(m.op)] == body
            && var (again, r) := ProtectedCommit(acked, m, body);
            && r.Err? && again.entities == acked.entities && OfOp(m.op) !in again.vault
  {
    var done := ProtectedCommit(db, m, body).0;
    CommittedOnce(db, m, body);
    var acked := Push.Ack(done, done.outbox[m.op], version);
    assert acked.entities[m.key].serverVersion == version;
    RepeatFails(acked, m, body);
  }

  lemma CommittedOnce(db: Db, m: Mutation, body: Payload)
    requires Keyed(db.outbox) && !m.kind.Delete? && m.op !in db.outbox && ProtectedCommit(db, m, body).1.Ok?
    ensures var done := ProtectedCommit(db, m, body).0;
            && Keyed(done.outbox) && m.op in done.outbox && done.outbox[m.op].key == m.key && done.outbox[m.op].id == m.op
            && m.key in done.entities && done.entities[m.key].payload == Reference(OfOp(m.op))
            && done.vault == db.vault[OfOp(m.op) := body]
            && done.entities == db.entities[m.key := done.entities[m.key]]
            && done.entities[m.key].payloadHash == Sha(body)
  {
    var sealed := m.(payload := Reference(OfOp(m.op)), payloadHash := Sha(body), slot := Some(OfOp(m.op)));
    var put := db.(vault := db.vault[OfOp(m.op) := body]);
    CommitCases(put, sealed);
    AddedKeys(put, sealed);
    assert ProtectedCommit(db, m, body).0 == Added(put, sealed, CommitDeps(put, sealed).value);
  }

  lemma RepeatFails(db: Db, m: Mutation, body: Payload)
    requires !m.kind.Delete? && m.op !in db.outbox
    requires m.key in db.entities && db.entities[m.key].serverVersion != m.baseVersion
    ensures var (again, r) := ProtectedCommit(db, m, body);
            r.Err? && again.entities == db.entities && OfOp(m.op) !in again.vault
  {
  }

  // Staging

  predicate DistinctIds(records: seq<Record>) {
    forall i, j | 0 <= i < j < |records| && Protected(records[i].key.kind) && Protected(records[j].key.kind) ::
      records[i].key.id != records[j].key.id
  }

  lemma {:induction false} SealedRecords(vault: map<SlotId, Payload>, records: seq<Record>)
    requires DistinctIds(records)
    ensures var sealed := Bootstrap.SealRecords(vault, records);
            && (forall r | r in records && Protected(r.key.kind) ::
                  OfEntity(r.key.id) in sealed && sealed[OfEntity(r.key.id)] == r.payload)
            && (forall slot | slot in vault ::
                  && slot in sealed
                  && (sealed[slot] == vault[slot]
                      || exists r :: r in records && Protected(r.key.kind) && slot == OfEntity(r.key.id)))
  {
    if records != [] {
      var n := |records| - 1;
      SealedRecords(vault, records[..n]);
      forall r | r in records[..n] && Protected(r.key.kind) && Protected(records[n].key.kind)
        ensures r.key.id != records[n].key.id
      {
        var i :| 0 <= i < n && records[i] == r;
      }
      assert forall r | r in records :: r in records[..n] || r == records[n];
    }
  }

  /** The bodies of a chunk are sealed when it is staged, long before the snapshot is
      activated. That spares the bodies of the rows the user still sees if and only if
      the chunk has no other body for a slot one of them refers to. */
  lemma StagingSpares(entities: map<Key, Entity>, vault: map<SlotId, Payload>, records: seq<Record>)
    requires DistinctIds(records)
    ensures SparesBodies(entities, vault, Bootstrap.SealRecords(vault, records))
            <==> forall r | r in records && Protected(r.key.kind) ::
                   var slot := OfEntity(r.key.id);
                   slot in vault && RefersTo(entities, slot) ==> vault[slot] == r.payload
  {
    SealedRecords(vault, records);
  }
}
