/**
 Recording, dismissing and resolving conflicts
 (packages/offline/src/resilience.ts:19-317).
 */
module Resilience {
  import opened Types
  import Push

  datatype Request = Request(
    conflict: ConflictId,
    op: OpId,
    device: DeviceId,
    updatedBy: ActorId,
    occurredAt: Time,
    choice: Choice,
    merged: Option<Payload>)

  /** The operations a resolution discards. */
  predicate Discarded(c: ConflictRow, op: Op) {
    && Touches(c.key, op.key)
    && (Some(op.id) == c.sourceOp || op.state.InConflict?)
  }

  function RemoveRelated(outbox: map<OpId, Op>, c: ConflictRow): map<OpId, Op> {
    outbox - (set id | id in outbox && Discarded(c, outbox[id]))
  }

  /** The plain body behind a row's payload. */
  function Body(vault: map<SlotId, Payload>, kind: EntityType, payload: Payload): Option<Payload> {
    if !Protected(kind) || payload.Empty? then Some(payload)
    else if payload.Reference? && payload.slot in vault then Some(vault[payload.slot])
    else None
  }

  predicate Admissible(db: Db, r: Request) {
    && r.conflict in db.conflicts
    && var c := db.conflicts[r.conflict];
    && c.status.OpenConflict?
    && !r.choice.Dismiss?
    && r.choice in c.options
    && c.sourceOp.Some?
    && c.resolutionOp.None?
    && (c.serverRecorded ==> c.sourceDevice == Some(r.device))
    && (r.choice.Merge? <==> r.merged.Some?)
    && c.key in db.entities
    && db.entities[c.key].status.Conflicted?
  }

  /** The body the user chose, checked against the recorded digest. */
  function Selected(db: Db, r: Request): Result<Payload>
    requires Admissible(db, r)
  {
    var c := db.conflicts[r.conflict];
    var local, remote := Body(db.vault, c.key.kind, c.localPayload), Body(db.vault, c.key.kind, c.remotePayload);
    if local.None? || remote.None? then Err(InputInvalid) else
      var chosen := if r.choice.KeepLocal? then local.value
                    else if r.choice.KeepRemote? then remote.value else r.merged.value;
      if r.choice.KeepLocal? && Sha(chosen) != c.localHash then Err(InputInvalid)
      else if r.choice.KeepRemote? && Sha(chosen) != c.remoteHash then Err(InputInvalid)
      else Ok(chosen)
  }

  function Durable(c: ConflictRow, r: Request, chosen: Payload): Payload {
    if Protected(c.key.kind) then Reference(OfOp(r.op)) else chosen
  }

  function Sealed(vault: map<SlotId, Payload>, c: ConflictRow, r: Request, chosen: Payload): map<SlotId, Payload> {
    if Protected(c.key.kind) then vault[OfOp(r.op) := chosen] else vault
  }

  function RemoteDeletion(c: ConflictRow, r: Request): Option<Time> {
    if r.choice.KeepRemote? then c.remoteDeletedAt else None
  }

  function ResolvedEntity(e: Entity, c: ConflictRow, r: Request, chosen: Payload, status: SyncStatus): Entity {
    e.(payload := Durable(c, r, chosen), payloadHash := Sha(chosen), serverVersion := c.remoteVersion,
       localRevision := e.localRevision + 1, updatedAt := r.occurredAt, updatedBy := r.updatedBy,
       status := status, deletedAt := RemoteDeletion(c, r))
  }

  /** The remote side can be taken over without telling the server. */
  predicate Silent(c: ConflictRow, r: Request) {
    !c.serverRecorded && r.choice.KeepRemote?
  }

  function AcceptRemote(db: Db, c: ConflictRow, r: Request, chosen: Payload): Db
    requires c.key in db.entities && r.conflict in db.conflicts
  {
    var put := db.entities[c.key := ResolvedEntity(db.entities[c.key], c, r, chosen, Clean)];
    db.(vault := Sealed(db.vault, c, r, chosen),
        outbox := RemoveRelated(db.outbox, c),
        entities := if RemoteDeletion(c, r).Some? && c.key.kind.Note? then
                      put - {Key(DocState, DocStateOf(c.key.id))}
                    else put,
        conflicts := db.conflicts[r.conflict := c.(status := ResolvedRemote, requested := Some(r.choice))])
  }

  function ResolvingOp(c: ConflictRow, r: Request, chosen: Payload): Op {
    var deletion := RemoteDeletion(c, r).Some?;
    Op(r.op, r.device, c.key, if deletion then Delete else Update, c.remoteVersion, r.occurredAt,
       if deletion then Empty else Durable(c, r, chosen), Sha(chosen),
       if Protected(c.key.kind) && !deletion then Some(OfOp(r.op)) else None,
       [],
       if c.serverRecorded then Some(Resolution(r.conflict, r.choice, c.remoteVersion)) else None,
       Waiting, 0, None, r.occurredAt)
  }

  function Requeue(db: Db, c: ConflictRow, r: Request, chosen: Payload): Db
    requires c.key in db.entities && r.conflict in db.conflicts
  {
    db.(vault := Sealed(db.vault, c, r, chosen),
        outbox := RemoveRelated(db.outbox, c)[r.op := ResolvingOp(c, r, chosen)],
        entities := db.entities[c.key := ResolvedEntity(db.entities[c.key], c, r, chosen, SyncStatus.Pending)],
        conflicts := db.conflicts[r.conflict :=
          c.(status := Resolving, resolutionOp := Some(r.op), requested := Some(r.choice))])
  }

  /** queueResolution */
  function Resolve(db: Db, r: Request): Result<Db> {
    if !Admissible(db, r) then Err(InputInvalid) else
      var c := db.conflicts[r.conflict];
      var chosen :- Selected(db, r);
      if Silent(c, r) then Ok(AcceptRemote(db, c, r, chosen))
      else if r.op in db.outbox then Err(OperationHashMismatch)
      else Ok(Requeue(db, c, r, chosen))
  }

  /** dismiss: the entity keeps its conflict mark. */
  function DismissConflict(db: Db, id: ConflictId): Result<Db> {
    if id !in db.conflicts || !db.conflicts[id].status.OpenConflict? || Dismiss !in db.conflicts[id].options then
      Err(InputInvalid)
    else Ok(db.(conflicts := Push.SetStatus(db.conflicts, id, Dismissed)))
  }

  /** record */
  function RecordConflict(db: Db, id: ConflictId, c: ConflictRow): Result<Db> {
    if !c.status.OpenConflict? then Err(InputInvalid)
    else Ok(db.(conflicts := db.conflicts[id := c],
                entities := if c.key in db.entities then
                              db.entities[c.key := db.entities[c.key].(status := Conflicted)]
                            else db.entities))
  }
}
