/**
 A deletion the server refuses is undone locally.
 */
module Deletion {
  import opened Types
  import opened Repository
  import Push

  /** Committing a deletion and having it refused, with nothing else happening to the
      entity in between, restores what the entity was, one revision later; the
      operation stays queued as blocked. */
  lemma RefusedDeleteRestores(db: Db, m: Mutation, later: Db, error: nat)
    requires m.kind.Delete? && m.op !in db.outbox && Commit(db, m).Ok?
    requires m.key in later.entities && later.entities[m.key] == Commit(db, m).value.entities[m.key]
    requires m.op in later.outbox && later.outbox[m.op] == Commit(db, m).value.outbox[m.op]
    ensures m.key in db.entities
    ensures var op := Commit(db, m).value.outbox[m.op];
            var t := Push.Step(later, op, Failed(m.op, false, error));
            && t.Ok?
            && m.key in t.value.entities
            && var before, after := db.entities[m.key], t.value.entities[m.key];
            && after.payload == before.payload && after.payloadHash == before.payloadHash
            && after.deletedAt == before.deletedAt && after.serverVersion == before.serverVersion
            && after.createdAt == before.createdAt && after.createdBy == before.createdBy
            && after.localRevision == before.localRevision + 1 && after.status.Pending?
            && t.value.outbox == later.outbox[m.op := op.(state := Blocked, lastError := Some(Reported(error)))]
            && t.value.entities - {m.key} == later.entities - {m.key}
  {
  }

  /** While a refused operation is queued, the entity cannot be deleted. */
  lemma RefusalPreventsDelete(db: Db, op: Op, error: nat, m: Mutation)
    requires op.id in db.outbox && db.outbox[op.id].key == op.key
    requires m.kind.Delete? && m.key == op.key && m.op !in db.outbox
    ensures Commit(Push.Fail(db, op, error), m).Err?
  {
    var t := Push.Fail(db, op, error);
    assert op.id in RelatedTo(t.outbox, m) && t.outbox[op.id].state.Blocked?;
  }
}
