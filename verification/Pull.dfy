/**
 Applying pages of remote changes (packages/offline/src/sync-client.ts:354-640).
 */
module Pull {
  import opened Types
  import opened Repository
  import Push

  /** Remote bodies of protected entities are sealed under the operation id. */
  function Stored(ch: Change): Payload {
    if Protected(ch.key.kind) && !ch.tombstone then Reference(OfOp(ch.op)) else ch.payload
  }

  function SealChanges(vault: map<SlotId, Payload>, changes: seq<Change>): map<SlotId, Payload> {
    if changes == [] then vault else
      var before, ch := SealChanges(vault, changes[..|changes| - 1]), changes[|changes| - 1];
      if Protected(ch.key.kind) && !ch.tombstone then before[OfOp(ch.op) := ch.payload] else before
  }

  /** The note a change to a stored document belongs to, if it names one. */
  function NoteOf(ch: Change): Option<EntityId> {
    match ch.key.kind
    case DocUpdate => Some(ch.key.id)
    case DocState => if ch.payload.DocBody? then ch.payload.note else None
    case _ => None
  }

  /** Document changes wait while their note has local work or is deleted. */
  predicate Skipped(entities: map<Key, Entity>, ch: Change) {
    && NoteOf(ch).Some?
    && var note := Key(Note, NoteOf(ch).value);
    && note in entities
    && (!entities[note].status.Clean? || entities[note].deletedAt.Some?)
  }

  function RefreshedRow(c: ConflictRow, ch: Change): ConflictRow {
    if c.key == ch.key && c.status.OpenConflict? && c.remoteVersion < ch.serverVersion then
      c.(remoteVersion := ch.serverVersion, remotePayload := Stored(ch), remoteHash := ch.payloadHash,
         remoteDeletedAt := ch.deletedAt,
         kind := if ch.tombstone then DeleteUpdate else c.kind,
         options := if ch.tombstone then {KeepRemote, Dismiss} else c.options,
         serverRecorded := false)
    else c
  }

  function Refresh(conflicts: map<ConflictId, ConflictRow>, ch: Change): map<ConflictId, ConflictRow> {
    map id | id in conflicts :: RefreshedRow(conflicts[id], ch)
  }

  predicate HasContent(kind: EntityType) {
    kind.Evidence? || kind.Note? || kind.Resource? || kind.Topic? || kind.QuizItem?
  }

  function Options(existing: Entity, ch: Change): set<Choice> {
    if ch.tombstone || existing.deletedAt.Some? then {KeepRemote, Dismiss}
    else if ch.key.kind.Note? || ch.key.kind.Resource? then {KeepLocal, KeepRemote, Merge, Dismiss}
    else if ch.key.kind.Topic? || ch.key.kind.QuizItem? then {KeepLocal, KeepRemote, Dismiss}
    else {KeepRemote, Dismiss}
  }

  function RaisedConflict(existing: Entity, ch: Change, source: Option<OpId>, outbox: map<OpId, Op>): ConflictRow
    requires source.Some? ==> source.value in outbox
  {
    ConflictRow(
      ch.key, OpenConflict,
      if ch.tombstone || existing.deletedAt.Some? then DeleteUpdate
      else if HasContent(ch.key.kind) then ContentConflict else StatusConflict,
      existing.serverVersion, existing.payload, existing.payloadHash,
      ch.serverVersion, Stored(ch), ch.payloadHash, ch.deletedAt,
      Options(existing, ch),
      source, if source.Some? then Some(outbox[source.value].device) else None,
      None, None, false, ch.occurredAt)
  }

  /** Every operation queued on the entity is held back. */
  function HoldRelated(outbox: map<OpId, Op>, key: Key): map<OpId, Op> {
    map id | id in outbox ::
      if Touches(key, outbox[id].key) then outbox[id].(state := InConflict, lastError := Some(SyncConflict))
      else outbox[id]
  }

  function Raise(db: Db, ch: Change): Db
    requires ch.key in db.entities
  {
    var existing := db.entities[ch.key];
    var source := Latest(Related(db.outbox, ch.key));
    db.(conflicts := db.conflicts[Pulled(ch.op, ch.key) := RaisedConflict(existing, ch, source, db.outbox)],
        outbox := HoldRelated(db.outbox, ch.key),
        entities := db.entities[ch.key := existing.(status := Conflicted)])
  }

  function RemoteEntity(entities: map<Key, Entity>, device: DeviceId, ch: Change): Entity {
    var known := ch.key in entities;
    var actor := if known then entities[ch.key].updatedBy else device;
    Entity(ch.serverVersion,
           if known then entities[ch.key].localRevision else 0,
           if known then entities[ch.key].createdAt else ch.occurredAt,
           ch.occurredAt, ch.deletedAt,
           if known then entities[ch.key].createdBy else actor,
           actor, Stored(ch), ch.payloadHash, Clean)
  }

  /** A note's tombstone also removes the stored document. */
  function Overwrite(entities: map<Key, Entity>, device: DeviceId, ch: Change): map<Key, Entity> {
    var put := entities[ch.key := RemoteEntity(entities, device, ch)];
    if ch.key.kind.Note? && ch.tombstone then
      put - {Key(DocState, DocStateOf(ch.key.id)), Key(DocUpdate, ch.key.id)}
    else put
  }

  /** The change meets local work that has not been sent. */
  predicate Raises(db: Db, ch: Change) {
    !Skipped(db.entities, ch) && ch.key in db.entities && db.entities[ch.key].status.Pending?
  }

  function Step(db: Db, device: DeviceId, ch: Change): Db {
    if Skipped(db.entities, ch) then db
    else if ch.key !in db.entities then db.(entities := Overwrite(db.entities, device, ch))
    else match db.entities[ch.key].status
      case Conflicted => db.(conflicts := Refresh(db.conflicts, ch))
      case Pending => Raise(db, ch)
      case Clean => db.(entities := Overwrite(db.entities, device, ch))
  }

  lemma StepCases(db: Db, device: DeviceId, ch: Change)
    ensures var t := Step(db, device, ch);
            if Skipped(db.entities, ch) then t == db
            else if ch.key !in db.entities || db.entities[ch.key].status.Clean? then
              t == db.(entities := Overwrite(db.entities, device, ch))
            else if db.entities[ch.key].status.Conflicted? then t == db.(conflicts := Refresh(db.conflicts, ch))
            else t == Raise(db, ch)
  {
  }

  function Fold(db: Db, device: DeviceId, changes: seq<Change>): Db {
    if changes == [] then db else
      Step(Fold(db, device, changes[..|changes| - 1]), device, changes[|changes| - 1])
  }

  /** Sequences strictly increase and stay within (from, next]. */
  predicate InSequence(from: nat, next: nat, changes: seq<Change>) {
    && from <= next
    && (forall i | 0 <= i < |changes| :: from < changes[i].sequence <= next)
    && (forall i, j | 0 <= i < j < |changes| :: changes[i].sequence < changes[j].sequence)
  }

  function Advance(sync: Option<SyncRow>, cursor: nat): Option<SyncRow> {
    if sync.Some? then Some(sync.value.(cursor := cursor, bootstrap := Ready)) else sync
  }

  /** canResumeSync */
  predicate CanResume(sync: Option<SyncRow>, device: DeviceId) {
    && sync.Some?
    && sync.value.device == device
    && sync.value.epoch.Some?
    && (sync.value.bootstrap.Ready? || sync.value.bootstrap.UpgradeRequired?)
  }

  /** The tables after a valid page has been applied. */
  function Applied(db: Db, device: DeviceId, next: nat, changes: seq<Change>): Db
  {
    var folded := Fold(db.(vault := SealChanges(db.vault, changes)), device, changes);
    folded.(sync := Advance(folded.sync, next))
  }

  predicate Answers(page: Page, sync: SyncRow) {
    page.device == sync.device && Some(page.epoch) == sync.epoch && page.from == sync.cursor
  }

  /** One turn of pullPages: the answer has to continue the stored cursor. */
  function Receive(db: Db, device: DeviceId, page: Page): Result<Db>
  {
    if !CanResume(db.sync, device) || !Answers(page, db.sync.value) then Err(ContextMismatch)
    else if !InSequence(page.from, page.next, page.changes) then Err(TransactionFailed)
    else Ok(Applied(db, device, page.next, page.changes))
  }

  /** applyControl */
  function ApplyControl(db: Db, action: Control): Db {
    db.(sync := Push.SetBootstrap(db.sync, if action.UpgradeControl? then UpgradeRequired else RebootstrapRequired))
  }
}
