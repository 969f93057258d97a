/**
 The rows of the local database of one workspace (packages/offline/src/types.ts)
 and the sync-v1 messages that change them.

 Identifiers, device clocks and versions are natural numbers: the code only
 compares them. Digests are free constructors, so two of them are equal exactly
 when the digested values are. Wall-clock bookkeeping (last_sync_at,
 resolved_at, outbox_isolated_at) is not kept.
 */
module Types {

  datatype Option<+T> = None | Some(value: T)

  datatype ErrorCode =
    | InputInvalid
    | TransactionFailed
    | OperationHashMismatch
    | DependencyCycle
    | ContextMismatch
    | BootstrapInvalid
    | DuplicateEntity
    | ChunkHashMismatch
    | RecordHashMismatch
    | SnapshotHashMismatch

  datatype Result<+T> = Ok(value: T) | Err(code: ErrorCode) {
    predicate IsFailure() { Err? }

    function PropagateFailure<U>(): Result<U>
      requires Err?
    {
      Err(code)
    }

    function Extract(): T
      requires Ok?
    {
      value
    }
  }

  type OpId = nat
  type DeviceId = nat
  type ActorId = nat
  type Epoch = nat
  type SnapshotId = nat
  type Time = nat

  /** `Sealed` and `Open` stand for the types the code never names: the first
      are protected (kept in the vault), the second are not. */
  datatype EntityType =
    | Note | DocState | DocUpdate
    | Evidence | Resource | Topic | QuizItem
    | Sealed(tag: nat) | Open(tag: nat)

  /** `DocStateOf` is noteDocumentStateId: an id derived injectively from the note's. */
  datatype EntityId = Uuid(n: nat) | DocStateOf(note: EntityId)

  datatype Key = Key(kind: EntityType, id: EntityId)

  /** `Pulled` is the identifier derived from a pulled change (uuidv5). */
  datatype ConflictId = Issued(n: nat) | Pulled(op: OpId, key: Key)

  datatype SlotId = OfOp(op: OpId) | OfEntity(id: EntityId) | OfConflict(conflict: ConflictId)

  datatype Payload =
    | Empty
    | Json(n: nat)
    | Reference(slot: SlotId)
    | NoteBody(title: nat, markdown: string)
    | DocBody(note: Option<EntityId>, version: nat, text: string)

  datatype Hash = Sha(payload: Payload)

  datatype SyncStatus = Clean | Pending | Conflicted

  datatype Entity = Entity(
    serverVersion: nat,
    localRevision: nat,
    createdAt: Time,
    updatedAt: Time,
    deletedAt: Option<Time>,
    createdBy: ActorId,
    updatedBy: ActorId,
    payload: Payload,
    payloadHash: Hash,
    status: SyncStatus)

  datatype OpKind = Create | Update | Delete | Restore

  datatype OutboxState = Waiting | InFlight | Blocked | InConflict | Isolated

  datatype SyncError = SyncConflict | EpochMismatch | Reported(n: nat)

  datatype Choice = KeepLocal | KeepRemote | Merge | Dismiss

  datatype Resolution = Resolution(conflict: ConflictId, choice: Choice, expectedRemoteVersion: nat)

  /** An outbox row. `Waiting` is the state the code calls "pending". */
  datatype Op = Op(
    id: OpId,
    device: DeviceId,
    key: Key,
    kind: OpKind,
    baseVersion: nat,
    occurredAt: Time,
    payload: Payload,
    payloadHash: Hash,
    slot: Option<SlotId>,
    deps: seq<OpId>,
    resolution: Option<Resolution>,
    state: OutboxState,
    attempts: nat,
    lastError: Option<SyncError>,
    queuedAt: Time)

  datatype ConflictStatus = OpenConflict | Resolving | ResolvedLocal | ResolvedMerge | ResolvedRemote | Dismissed

  datatype ConflictKind = ContentConflict | DeleteUpdate | Hierarchy | Permission | StatusConflict

  datatype ConflictRow = ConflictRow(
    key: Key,
    status: ConflictStatus,
    kind: ConflictKind,
    baseVersion: nat,
    localPayload: Payload,
    localHash: Hash,
    remoteVersion: nat,
    remotePayload: Payload,
    remoteHash: Hash,
    remoteDeletedAt: Option<Time>,
    options: set<Choice>,
    sourceOp: Option<OpId>,
    sourceDevice: Option<DeviceId>,
    resolutionOp: Option<OpId>,
    requested: Option<Choice>,
    serverRecorded: bool,
    createdAt: Time)

  datatype BootstrapState = EmptyState | Ready | RebootstrapRequired | Staging | UpgradeRequired

  datatype SyncRow = SyncRow(
    device: DeviceId,
    epoch: Option<Epoch>,
    cursor: nat,
    bootstrap: BootstrapState,
    isolation: Option<SyncError>)

  datatype Record = Record(
    key: Key,
    version: nat,
    createdAt: Time,
    updatedAt: Time,
    deletedAt: Option<Time>,
    createdBy: ActorId,
    updatedBy: ActorId,
    payload: Payload,
    payloadHash: Hash)

  datatype ChunkSum = ChunkSum(records: seq<Record>)

  datatype Received = Received(index: nat, checksum: ChunkSum)

  datatype SnapshotSum = SnapshotSum(chunks: seq<Received>)

  datatype Manifest = Manifest(
    device: DeviceId,
    epoch: Epoch,
    count: nat,
    cursor: nat,
    checksum: SnapshotSum,
    createdAt: Time,
    received: seq<Received>,
    receivedRecords: nat,
    complete: bool)

  /** Staged records are unique per snapshot and entity (database.ts:57). */
  datatype StagedKey = StagedKey(snapshot: SnapshotId, key: Key)

  datatype Staged = Staged(chunk: nat, index: nat, record: Record)

  datatype Db = Db(
    entities: map<Key, Entity>,
    outbox: map<OpId, Op>,
    conflicts: map<ConflictId, ConflictRow>,
    vault: map<SlotId, Payload>,
    sync: Option<SyncRow>,
    manifests: map<SnapshotId, Manifest>,
    staged: map<StagedKey, Staged>)

  // Messages from the server

  datatype Change = Change(
    sequence: nat,
    op: OpId,
    key: Key,
    serverVersion: nat,
    occurredAt: Time,
    tombstone: bool,
    deletedAt: Option<Time>,
    payload: Payload,
    payloadHash: Hash)

  datatype Page = Page(device: DeviceId, epoch: Epoch, from: nat, next: nat, more: bool, changes: seq<Change>)

  datatype ServerConflict = ServerConflict(
    id: ConflictId,
    key: Key,
    kind: ConflictKind,
    baseVersion: nat,
    localHash: Hash,
    remoteVersion: nat,
    remotePayload: Payload,
    remoteHash: Hash,
    remoteDeletedAt: Option<Time>,
    options: set<Choice>,
    createdAt: Time)

  /** `Acked` covers both "applied" and "duplicate", which the client treats alike. */
  datatype OpResult =
    | Acked(op: OpId, duplicate: bool, serverVersion: nat, sequence: nat)
    | Refused(op: OpId, conflict: ServerConflict)
    | Failed(op: OpId, blockedDependency: bool, error: nat)

  datatype Control = UpgradeControl | RebootstrapControl | CursorExpired

  datatype Chunk = Chunk(
    device: DeviceId,
    epoch: Epoch,
    snapshot: SnapshotId,
    index: nat,
    count: nat,
    cursor: nat,
    snapshotChecksum: SnapshotSum,
    chunkChecksum: ChunkSum,
    records: seq<Record>,
    createdAt: Time)

  // Relations between rows that several files share

  /** isProtectedEntityType (protected-entities.ts). */
  predicate Protected(kind: EntityType) {
    !kind.Open?
  }

  /** The entity whose sync status an operation drives: an update of a note's
      document counts as work on the note. */
  function Owner(key: Key): Key {
    if key.kind.DocUpdate? then Key(Note, key.id) else key
  }

  /** An operation on `opKey` belongs to the entity `key`. */
  predicate Touches(key: Key, opKey: Key) {
    opKey == key || (key.kind.Note? && opKey == Key(DocUpdate, key.id))
  }

  /** The outbox rows that belong to an entity. */
  function Related(outbox: map<OpId, Op>, key: Key): map<OpId, Op> {
    outbox - (set id | id in outbox && !Touches(key, outbox[id].key))
  }

  /** Every row is stored under its own id. */
  ghost predicate Keyed(outbox: map<OpId, Op>) {
    forall id | id in outbox :: outbox[id].id == id
  }

  /** The order the outbox is read in: queued_at, then operation_id. */
  predicate Before(a: Op, b: Op) {
    a.queuedAt < b.queuedAt || (a.queuedAt == b.queuedAt && a.id < b.id)
  }
}
