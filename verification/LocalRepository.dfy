/**
 commitMutation and its protected wrapper on the database itself
 (packages/offline/src/repository.ts:83-222, protected-repository.ts:21-46).
 */
module LocalRepository {
  import opened Types
  import opened Repository
  import opened Tables

  /** The newest row of the queue is the only one no other row comes after. */
  lemma LatestIsUnique(ops: map<OpId, Op>, id: OpId)
    requires id in ops && forall other | other in ops :: !ReadBefore(ops, id, other)
    ensures Latest(ops) == Some(id)
  {
    var top := Latest(ops).value;
    assert !ReadBefore(ops, id, top) && !ReadBefore(ops, top, id);
  }

  /** Sorting rows by queue order and taking the last. */
  method Newest(ops: map<OpId, Op>) returns (r: Option<OpId>)
    ensures r == Latest(ops)
  {
    r := None;
    var todo := ops.Keys;
    while todo != {}
      invariant todo <= ops.Keys
      invariant r.None? ==> todo == ops.Keys
      invariant r.Some? ==> r.value in ops
      invariant r.Some? ==> forall other | other in ops && other !in todo :: !ReadBefore(ops, r.value, other)
      decreases todo
    {
      var id :| id in todo;
      if r.None? || ReadBefore(ops, r.value, id) {
        r := Some(id);
      }
      todo := todo - {id};
    }
    if r.Some? {
      LatestIsUnique(ops, r.value);
    }
  }

  class OfflineRepository {
    const database: Database

    constructor (database: Database)
      ensures this.database == database
    {
      this.database := database;
    }

    /** Chains the operation behind the newest one on the same entity. */
    method Dependencies(m: Mutation) returns (r: Result<seq<OpId>>)
      ensures r == CommitDeps(database.View(), m)
    {
      var related := RelatedTo(database.outbox, m);
      var predecessor := Newest(related - {m.op});
      var deps := m.deps;
      if predecessor.Some? && predecessor.value !in deps {
        if |deps| >= MAX_DEPENDENCIES {
          return Err(InputInvalid);
        }
        deps := deps + [predecessor.value];
      }
      return Ok(deps);
    }

    /** Returns whether anything was committed; a duplicate changes nothing. */
    method CommitMutation(m: Mutation) returns (r: Result<bool>)
      modifies database
      ensures match Commit(old(database.View()), m)
              case Ok(after) => database.View() == after && r == Ok(m.op !in old(database.outbox))
              case Err(code) => database.View() == old(database.View()) && r == Err(code)
    {
      if !ValidMutation(m) {
        return Err(InputInvalid);
      }
      if m.op in database.outbox {
        if !SameOperation(database.outbox[m.op], QueuedOp(m, m.deps)) {
          return Err(OperationHashMismatch);
        }
        if m.key !in database.entities {
          return Err(TransactionFailed);
        }
        return Ok(false);
      }
      var deps :- Dependencies(m);
      if !ValidTransition(m, database.entities) {
        return Err(InputInvalid);
      }
      var entity := Entity(m.baseVersion, m.localRevision, m.createdAt, m.updatedAt, m.deletedAt, m.createdBy,
                           m.updatedBy, m.payload, m.payloadHash, SyncStatus.Pending);
      if m.kind.Delete? {
        var related := RelatedTo(database.outbox, m);
        if exists id | id in related ::
            related[id].state.InConflict? || related[id].state.Blocked? || related[id].state.Isolated? {
          return Err(InputInvalid);
        }
        entity := entity.(payload := database.entities[m.key].payload,
                          payloadHash := database.entities[m.key].payloadHash);
      }
      database.entities := database.entities[m.key := entity];
      database.outbox := database.outbox[m.op := Op(
        m.op, m.device, m.key, m.kind, m.baseVersion, m.occurredAt, m.payload, m.payloadHash, m.slot, deps,
        None, Waiting, 0, None, m.occurredAt)];
      return Ok(true);
    }
  }
}
