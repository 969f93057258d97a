/**
 Staging a snapshot chunk by chunk and activating it at once
 (packages/offline/src/bootstrap.ts).
 */
module Bootstrap {
  import opened Types

  predicate SameManifest(m: Manifest, c: Chunk) {
    && m.device == c.device
    && m.epoch == c.epoch
    && m.count == c.count
    && m.cursor == c.cursor
    && m.checksum == c.snapshotChecksum
    && m.createdAt == c.createdAt
  }

  /** The checks of stageChunk before anything is stored. */
  function Verify(c: Chunk, device: DeviceId): Result<()> {
    if c.device != device || c.count <= c.index then Err(ContextMismatch)
    else if c.chunkChecksum != ChunkSum(c.records) then Err(ChunkHashMismatch)
    else if exists i, j | 0 <= i < j < |c.records| :: c.records[i].key == c.records[j].key then Err(DuplicateEntity)
    else if exists r | r in c.records :: r.payloadHash != Sha(r.payload) then Err(RecordHashMismatch)
    else Ok(())
  }

  function SealedPayload(r: Record): Payload {
    if Protected(r.key.kind) then Reference(OfEntity(r.key.id)) else r.payload
  }

  function SealRecords(vault: map<SlotId, Payload>, records: seq<Record>): map<SlotId, Payload> {
    if records == [] then vault else
      var before, r := SealRecords(vault, records[..|records| - 1]), records[|records| - 1];
      if Protected(r.key.kind) then before[OfEntity(r.key.id) := r.payload] else before
  }

  /** The staged rows of one chunk. Its keys are distinct, so each has one index. */
  function StagedRows(c: Chunk): map<StagedKey, Staged> {
    RowsUpTo(c, |c.records|)
  }

  function RowsUpTo(c: Chunk, n: nat): map<StagedKey, Staged>
    requires n <= |c.records|
  {
    if n == 0 then map[] else
      var r := c.records[n - 1];
      RowsUpTo(c, n - 1)[StagedKey(c.snapshot, r.key) := Staged(c.index, n - 1, r)]
  }

  predicate HasChunk(received: seq<Received>, index: nat) {
    exists r | r in received :: r.index == index
  }

  /** Array.prototype.sort by chunk index after appending one entry. */
  function InsertReceived(received: seq<Received>, r: Received): seq<Received> {
    if received == [] then [r]
    else if received[0].index <= r.index then [received[0]] + InsertReceived(received[1..], r)
    else [r] + received
  }

  predicate Gapless(received: seq<Received>) {
    forall i | 0 <= i < |received| :: received[i].index == i
  }

  /** toLocalEntity */
  function ToEntity(r: Record): Entity {
    Entity(r.version, 0, r.createdAt, r.updatedAt, r.deletedAt, r.createdBy, r.updatedBy,
           SealedPayload(r), r.payloadHash, Clean)
  }

  predicate EpochChanged(sync: Option<SyncRow>, epoch: Epoch) {
    sync.Some? && sync.value.epoch.Some? && sync.value.epoch.value != epoch
  }

  /** The rows that outlive activation: local work, unless the epoch changed. */
  function Preserved(entities: map<Key, Entity>, epochChanged: bool): map<Key, Entity> {
    entities - (set k | k in entities && (epochChanged || entities[k].status.Clean?))
  }

  function Snapshot(staged: map<StagedKey, Staged>, snapshot: SnapshotId): map<Key, Entity> {
    map s | s in staged && s.snapshot == snapshot :: s.key := ToEntity(staged[s].record)
  }

  function Isolate(outbox: map<OpId, Op>): map<OpId, Op> {
    map id | id in outbox :: outbox[id].(state := Isolated, lastError := Some(EpochMismatch))
  }

  /** The visible tables after activation of a complete snapshot. */
  function Activate(db: Db, c: Chunk, staged: map<StagedKey, Staged>): Db {
    var changed := EpochChanged(db.sync, c.epoch);
    db.(entities := Snapshot(staged, c.snapshot) + Preserved(db.entities, changed),
        outbox := if changed then Isolate(db.outbox) else db.outbox,
        sync := Some(SyncRow(c.device, Some(c.epoch), c.cursor, Ready,
                             if changed then Some(EpochMismatch)
                             else if db.sync.Some? then db.sync.value.isolation else None)))
  }

  function Previous(db: Db, c: Chunk): Option<Manifest> {
    if c.snapshot in db.manifests then Some(db.manifests[c.snapshot]) else None
  }

  function NextManifest(previous: Option<Manifest>, c: Chunk): Manifest {
    Manifest(c.device, c.epoch, c.count, c.cursor, c.snapshotChecksum, c.createdAt,
             InsertReceived(if previous.Some? then previous.value.received else [],
                            Received(c.index, c.chunkChecksum)),
             (if previous.Some? then previous.value.receivedRecords else 0) + |c.records|,
             false)
  }

  /** The checks that come before the chunk is stored; Ok(true) is a replay. */
  function Admit(db: Db, c: Chunk): Result<bool> {
    var previous := Previous(db, c);
    if exists s | s in db.manifests :: db.manifests[s].device != c.device then Err(ContextMismatch)
    else if db.sync.Some? && db.sync.value.device != c.device then Err(ContextMismatch)
    else if exists s | s in db.manifests :: s != c.snapshot && !db.manifests[s].complete then Err(ContextMismatch)
    else if previous.Some? && !SameManifest(previous.value, c) then Err(ContextMismatch)
    else if previous.Some? && HasChunk(previous.value.received, c.index) then
      if Received(c.index, c.chunkChecksum) in previous.value.received then Ok(true) else Err(ChunkHashMismatch)
    else if previous.Some? && previous.value.complete then Err(ContextMismatch)
    else if exists r | r in c.records :: StagedKey(c.snapshot, r.key) in db.staged then Err(DuplicateEntity)
    else Ok(false)
  }

  /** The checks once every chunk is there. */
  function Complete(db: Db, c: Chunk, m: Manifest): Result<()> {
    if !Gapless(m.received) then Err(BootstrapInvalid)
    else if SnapshotSum(m.received) != c.snapshotChecksum then Err(SnapshotHashMismatch)
    else if exists id | id in db.outbox :: db.outbox[id].device != c.device then Err(ContextMismatch)
    else Ok(())
  }

  /** Manifests after activation: older complete ones go. */
  function Finished(manifests: map<SnapshotId, Manifest>, c: Chunk, m: Manifest): map<SnapshotId, Manifest> {
    (manifests - (set s | s in manifests && manifests[s].complete))[c.snapshot := m.(complete := true)]
  }

  /** The staging area without the rows of one snapshot. */
  function Unstaged(staged: map<StagedKey, Staged>, snapshot: SnapshotId): map<StagedKey, Staged> {
    staged - (set s | s in staged && s.snapshot == snapshot)
  }

  /** persistVerifiedChunk */
  function Persist(db: Db, c: Chunk): Result<Db> {
    var replay :- Admit(db, c);
    if replay then Ok(db) else
      var staged := db.staged + StagedRows(c);
      var m := NextManifest(Previous(db, c), c);
      if |m.received| != c.count then
        Ok(db.(staged := staged, manifests := db.manifests[c.snapshot := m]))
      else
        var ok :- Complete(db, c, m);
        Ok(Activate(db, c, staged).(
             manifests := Finished(db.manifests, c, m),
             staged := Unstaged(staged, c.snapshot)))
  }

  /** stageChunk: bodies are sealed before the transaction and stay sealed. */
  function Stage(db: Db, c: Chunk, device: DeviceId): Db {
    if Verify(c, device).Err? then db else
      var sealed := db.(vault := SealRecords(db.vault, c.records));
      match Persist(sealed, c)
      case Ok(after) => after
      case Err(_) => sealed
  }

  predicate Recoverable(e: Entity, key: Key, outbox: map<OpId, Op>) {
    e.status.Clean? || (e.status.Pending? && exists id | id in outbox :: outbox[id].key == key)
  }

  /** What may be carried over to a new device: only creations it queued itself. */
  predicate CarriesOver(op: Op, device: DeviceId) {
    op.device == device && op.state.Waiting? && op.attempts == 0 && op.kind.Create? && op.baseVersion == 0
  }

  predicate DeviceChangeAllowed(db: Db, epoch: Epoch, device: DeviceId, unlocked: bool, attachments: nat) {
    && db.sync.Some?
    && unlocked
    && db.sync.value.bootstrap.Ready?
    && db.sync.value.epoch == Some(epoch)
    && db.sync.value.isolation.None?
    && (forall id | id in db.outbox :: CarriesOver(db.outbox[id], device))
    && (forall s | s in db.manifests :: db.manifests[s].complete && db.manifests[s].device == db.sync.value.device)
    && |db.staged| == 0
    && |db.conflicts| == 0
    && attachments == 0
    && forall k | k in db.entities :: Recoverable(db.entities[k], k, db.outbox)
  }

  /** prepareDeviceRebootstrap */
  function PrepareDevice(db: Db, c: Chunk, device: DeviceId, unlocked: bool, attachments: nat): Result<Db> {
    if c.device != device || c.index != 0 then Err(ContextMismatch)
    else if db.sync.None? || db.sync.value.device == device then Ok(db)
    else if !DeviceChangeAllowed(db, c.epoch, device, unlocked, attachments) then Err(ContextMismatch)
    else Ok(db.(manifests := map[],
                sync := Some(db.sync.value.(device := device, bootstrap := RebootstrapRequired, cursor := 0))))
  }

  /** discardStaging */
  function Discard(db: Db, snapshot: SnapshotId, device: DeviceId): Result<Db> {
    if snapshot !in db.manifests then Ok(db)
    else if db.manifests[snapshot].device != device || db.manifests[snapshot].complete then Err(ContextMismatch)
    else Ok(db.(staged := Unstaged(db.staged, snapshot),
                manifests := db.manifests - {snapshot}))
  }
}
