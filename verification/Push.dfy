/**
 Applying the server's answer to a push: one transaction that folds the result
 of every sent operation into the outbox, entities and conflicts
 (packages/offline/src/sync-client.ts:137-351).
 */
module Push {
  import opened Types

  const BATCH := 100

  /** The status an acknowledgement leaves, given the operations still queued. */
  function StatusAfterAck(remaining: map<OpId, Op>): SyncStatus {
    if exists id | id in remaining :: remaining[id].state.InConflict? then Conflicted
    else if remaining != map[] then SyncStatus.Pending
    else Clean
  }

  /** Acknowledging a document update also cleans the stored document state. */
  function CleanDocument(entities: map<Key, Entity>, op: Op, version: nat): map<Key, Entity> {
    var doc := Key(DocState, DocStateOf(op.key.id));
    if op.key.kind.DocUpdate? && doc in entities then
      entities[doc := entities[doc].(serverVersion := version, status := Clean)]
    else entities
  }

  function AckEntities(entities: map<Key, Entity>, outbox: map<OpId, Op>, op: Op, version: nat): map<Key, Entity> {
    var owner := Owner(op.key);
    if owner !in entities then entities else
      CleanDocument(
        entities[owner := entities[owner].(serverVersion := version, status := StatusAfterAck(Related(outbox, owner)))],
        op, version)
  }

  function Resolved(choice: Choice): ConflictStatus {
    match choice
    case KeepLocal => ResolvedLocal
    case KeepRemote => ResolvedRemote
    case _ => ResolvedMerge
  }

  function SetStatus(conflicts: map<ConflictId, ConflictRow>, id: ConflictId, status: ConflictStatus)
    : map<ConflictId, ConflictRow>
  {
    if id in conflicts then conflicts[id := conflicts[id].(status := status)] else conflicts
  }

  predicate AwaitsOp(c: ConflictRow, op: OpId) {
    c.status.Resolving? && c.resolutionOp == Some(op) && c.requested.Some?
  }

  /** A conflict that was settled by the acknowledged operation is closed, whether
      the operation names it or the conflict names the operation. */
  function AckConflicts(conflicts: map<ConflictId, ConflictRow>, op: Op): map<ConflictId, ConflictRow> {
    if op.resolution.Some? && !op.resolution.value.choice.Dismiss? then
      SetStatus(conflicts, op.resolution.value.conflict, Resolved(op.resolution.value.choice))
    else
      map id | id in conflicts ::
        if AwaitsOp(conflicts[id], op.id) then conflicts[id].(status := Resolved(conflicts[id].requested.value))
        else conflicts[id]
  }

  function Ack(db: Db, op: Op, version: nat): Db {
    var outbox := db.outbox - {op.id};
    db.(outbox := outbox,
        entities := AckEntities(db.entities, outbox, op, version),
        conflicts := AckConflicts(db.conflicts, op))
  }

  /** Remote payloads of protected conflicts live in the vault. */
  function StoredRemote(c: ServerConflict): Payload {
    if Protected(c.key.kind) then Reference(OfConflict(c.id)) else c.remotePayload
  }

  function RecordedConflict(c: ServerConflict, op: Op, local: Entity): ConflictRow {
    ConflictRow(c.key, OpenConflict, c.kind, c.baseVersion, local.payload, c.localHash, c.remoteVersion,
                StoredRemote(c), c.remoteHash, c.remoteDeletedAt, c.options,
                Some(op.id), Some(op.device), None, None, true, c.createdAt)
  }

  function SetState(outbox: map<OpId, Op>, id: OpId, state: OutboxState, error: SyncError): map<OpId, Op> {
    if id in outbox then outbox[id := outbox[id].(state := state, lastError := Some(error))] else outbox
  }

  function Refuse(db: Db, op: Op, c: ServerConflict): Result<Db> {
    var owner := Owner(op.key);
    if owner !in db.entities then Err(TransactionFailed) else
      var recorded := db.conflicts[c.id := RecordedConflict(c, op, db.entities[owner])];
      Ok(db.(
        outbox := SetState(db.outbox, op.id, InConflict, SyncConflict),
        entities := db.entities[owner := db.entities[owner].(status := Conflicted)],
        conflicts := if op.resolution.Some? then SetStatus(recorded, op.resolution.value.conflict, Dismissed)
                     else recorded))
  }

  /** A refused deletion makes the entity visible again. */
  function Fail(db: Db, op: Op, error: nat): Db {
    db.(outbox := SetState(db.outbox, op.id, Blocked, Reported(error)),
        entities := if op.kind.Delete? && op.key in db.entities then
                      db.entities[op.key := db.entities[op.key].(deletedAt := None, status := SyncStatus.Pending)]
                    else db.entities)
  }

  function Step(db: Db, op: Op, r: OpResult): Result<Db> {
    if r.op != op.id then Err(TransactionFailed) else
    match r
    case Acked(_, _, version, _) => Ok(Ack(db, op, version))
    case Refused(_, c) => Refuse(db, op, c)
    case Failed(_, _, error) => Ok(Fail(db, op, error))
  }

  function Fold(db: Db, batch: seq<Op>, results: seq<OpResult>): Result<Db>
    requires |batch| == |results|
  {
    if batch == [] then Ok(db) else
      var n := |batch| - 1;
      var before :- Fold(db, batch[..n], results[..n]);
      Step(before, batch[n], results[n])
  }

  function SetBootstrap(sync: Option<SyncRow>, state: BootstrapState): Option<SyncRow> {
    if sync.Some? then Some(sync.value.(bootstrap := state)) else sync
  }

  /** Sealing happens before the transaction and is not rolled back with it. */
  function SealRemotes(vault: map<SlotId, Payload>, results: seq<OpResult>): map<SlotId, Payload> {
    if results == [] then vault else
      var before, r := SealRemotes(vault, results[..|results| - 1]), results[|results| - 1];
      if r.Refused? && Protected(r.conflict.key.kind) then
        before[OfConflict(r.conflict.id) := r.conflict.remotePayload]
      else before
  }

  /** The transaction of pushReady, on the tables after sealing. */
  function Reply(db: Db, batch: seq<Op>, results: seq<OpResult>): Result<Db> {
    if |batch| != |results| then Err(ContextMismatch) else
      var folded :- Fold(db, batch, results);
      Ok(folded.(sync := SetBootstrap(folded.sync, Ready)))
  }

  /** The tables once the answer has been handled, whether or not it was accepted. */
  function Receive(db: Db, batch: seq<Op>, results: seq<OpResult>): Db {
    if |batch| != |results| then db else
      var sealed := db.(vault := SealRemotes(db.vault, results));
      match Reply(sealed, batch, results)
      case Ok(after) => after
      case Err(_) => sealed
  }
}
