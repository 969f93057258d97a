/**
 Recording, dismissing and resolving conflicts on the database itself
 (packages/offline/src/resilience.ts:19-317).
 */
module ConflictClient {
  import opened Types
  import opened Resilience
  import opened Tables

  class ConflictRepository {
    const database: Database

    constructor (database: Database)
      ensures this.database == database
    {
      this.database := database;
    }

    method RemoveRelatedOperations(c: ConflictRow)
      modifies database`outbox
      ensures database.outbox == RemoveRelated(old(database.outbox), c)
    {
      var before := database.outbox;
      var todo := before.Keys;
      while todo != {}
        invariant todo <= before.Keys
        invariant database.outbox == before - (set id | id in before && id !in todo && Discarded(c, before[id]))
        decreases todo
      {
        var id :| id in todo;
        todo := todo - {id};
        if Discarded(c, before[id]) {
          database.outbox := database.outbox - {id};
        }
      }
    }

    /** The body the user chose, opened from the vault where it is protected. */
    method SelectBody(c: ConflictRow, r: Request) returns (chosen: Result<Payload>)
      requires Admissible(database.View(), r) && c == database.conflicts[r.conflict]
      ensures chosen == Selected(database.View(), r)
    {
      var local := Body(database.vault, c.key.kind, c.localPayload);
      var remote := Body(database.vault, c.key.kind, c.remotePayload);
      if local.None? || remote.None? {
        return Err(InputInvalid);
      }
      var payload := remote.value;
      if r.choice.KeepLocal? {
        payload := local.value;
      } else if r.choice.Merge? {
        payload := r.merged.value;
      }
      if (r.choice.KeepLocal? && Sha(payload) != c.localHash) || (r.choice.KeepRemote? && Sha(payload) != c.remoteHash) {
        return Err(InputInvalid);
      }
      return Ok(payload);
    }

    method UpdateEntity(c: ConflictRow, r: Request, durable: Payload, hash: Hash, status: SyncStatus)
      requires c.key in database.entities
      modifies database`entities
      ensures database.entities == old(database.entities)[c.key := old(database.entities)[c.key].(
                payload := durable, payloadHash := hash, serverVersion := c.remoteVersion,
                localRevision := old(database.entities)[c.key].localRevision + 1, updatedAt := r.occurredAt,
                updatedBy := r.updatedBy, status := status, deletedAt := RemoteDeletion(c, r))]
    {
      var entity := database.entities[c.key];
      database.entities := database.entities[c.key := Entity(
        c.remoteVersion, entity.localRevision + 1, entity.createdAt, r.occurredAt,
        if r.choice.KeepRemote? then c.remoteDeletedAt else None,
        entity.createdBy, r.updatedBy, durable, hash, status)];
    }

    /** Nothing has to be sent: the remote side simply becomes the local one. */
    method TakeRemote(c: ConflictRow, r: Request, chosen: Payload)
      requires c.key in database.entities && r.conflict in database.conflicts
      modifies database
      ensures database.View() == AcceptRemote(old(database.View()), c, r, chosen)
    {
      if Protected(c.key.kind) {
        database.vault := database.vault[OfOp(r.op) := chosen];
      }
      RemoveRelatedOperations(c);
      UpdateEntity(c, r, if Protected(c.key.kind) then Reference(OfOp(r.op)) else chosen, Sha(chosen), Clean);
      if RemoteDeletion(c, r).Some? && c.key.kind.Note? {
        database.entities := database.entities - {Key(DocState, DocStateOf(c.key.id))};
      }
      database.conflicts := database.conflicts[r.conflict := c.(status := ResolvedRemote, requested := Some(r.choice))];
    }

    /** The decision is queued like any other operation. */
    method QueueDecision(c: ConflictRow, r: Request, chosen: Payload) returns (op: Op)
      requires c.key in database.entities && r.conflict in database.conflicts
      modifies database
      ensures database.View() == Requeue(old(database.View()), c, r, chosen) && op == ResolvingOp(c, r, chosen)
    {
      var deletion := r.choice.KeepRemote? && c.remoteDeletedAt.Some?;
      var durable := if Protected(c.key.kind) then Reference(OfOp(r.op)) else chosen;
      op := Op(r.op, r.device, c.key, if deletion then Delete else Update, c.remoteVersion, r.occurredAt,
               if deletion then Empty else durable, Sha(chosen),
               if Protected(c.key.kind) && !deletion then Some(OfOp(r.op)) else None, [],
               if c.serverRecorded then Some(Resolution(r.conflict, r.choice, c.remoteVersion)) else None,
               Waiting, 0, None, r.occurredAt);
      if Protected(c.key.kind) {
        database.vault := database.vault[OfOp(r.op) := chosen];
      }
      RemoveRelatedOperations(c);
      database.outbox := database.outbox[r.op := op];
      UpdateEntity(c, r, durable, Sha(chosen), SyncStatus.Pending);
      database.conflicts := database.conflicts[r.conflict :=
        c.(status := Resolving, resolutionOp := Some(r.op), requested := Some(r.choice))];
    }

    /** Returns the queued operation, or nothing when the remote side was taken. */
    method QueueResolution(r: Request) returns (queued: Result<Option<Op>>)
      modifies database
      ensures match Resolve(old(database.View()), r)
              case Ok(after) =>
                && queued.Ok? && database.View() == after
                && (queued.value.Some? <==> !Silent(old(database.conflicts)[r.conflict], r))
                && (queued.value.Some? ==> r.op in database.outbox && database.outbox[r.op] == queued.value.value)
              case Err(code) => queued == Err(code) && database.View() == old(database.View())
    {
      if !Admissible(database.View(), r) {
        return Err(InputInvalid);
      }
      var c := database.conflicts[r.conflict];
      var chosen :- SelectBody(c, r);
      if Silent(c, r) {
        TakeRemote(c, r, chosen);
        return Ok(None);
      }
      if r.op in database.outbox {
        return Err(OperationHashMismatch);
      }
      var op := QueueDecision(c, r, chosen);
      return Ok(Some(op));
    }
  }
}
