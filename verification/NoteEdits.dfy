/**
 Editing a note: read the note and its document, compute the edit, and commit
 only if the note has not moved since (packages/offline/src/yjs-notes.ts:116-309).
 */
module NoteEdits {
  import opened Types
  import opened Repository
  import Splice

  const MAX_MARKDOWN := 500000

  /** `updateFits` stands for the size check on the encoded document update. */
  datatype EditInput = EditInput(
    op: OpId,
    device: DeviceId,
    note: EntityId,
    next: string,
    updatedBy: ActorId,
    occurredAt: Time,
    updateFits: bool,
    update: nat)

  /** Everything the commit half carries over from the read half. */
  datatype Prepared = Prepared(
    note: EntityId,
    revision: nat,
    version: nat,
    base: string,
    noteSlot: SlotId,
    nextNote: Payload,
    docRevision: nat,
    docSlot: SlotId,
    nextDoc: Payload,
    updatedBy: ActorId,
    update: Payload,
    op: Op)

  function NoteKey(note: EntityId): Key { Key(Note, note) }

  function DocKey(note: EntityId): Key { Key(DocState, DocStateOf(note)) }

  function UpdatesOf(outbox: map<OpId, Op>, note: EntityId): map<OpId, Op> {
    outbox - (set id | id in outbox && outbox[id].key != Key(DocUpdate, note))
  }

  /** The stored body of a row whose payload is a reference. */
  function Opened(db: Db, key: Key): Option<Payload>
    requires key in db.entities
  {
    var p := db.entities[key].payload;
    if p.Reference? && p.slot in db.vault then Some(db.vault[p.slot]) else None
  }

  predicate Editable(db: Db, note: EntityId) {
    && NoteKey(note) in db.entities && DocKey(note) in db.entities
    && db.entities[NoteKey(note)].deletedAt.None?
    && !db.entities[NoteKey(note)].status.Conflicted?
    && Opened(db, NoteKey(note)).Some? && Opened(db, NoteKey(note)).value.NoteBody?
    && Opened(db, DocKey(note)).Some?
    && var doc := Opened(db, DocKey(note)).value;
    && var version := db.entities[NoteKey(note)].serverVersion;
    && doc.DocBody? && doc.note == Some(note)
    && db.entities[DocKey(note)].serverVersion == version
    && 1 <= doc.version <= version
    && doc.text == Opened(db, NoteKey(note)).value.markdown
  }

  function DocumentUpdate(db: Db, e: EditInput): Op
    requires NoteKey(e.note) in db.entities
  {
    var predecessor := Latest(UpdatesOf(db.outbox, e.note));
    Op(e.op, e.device, Key(DocUpdate, e.note), Update, db.entities[NoteKey(e.note)].serverVersion, e.occurredAt,
       Reference(OfOp(e.op)), Sha(Json(e.update)), Some(OfOp(e.op)),
       if predecessor.Some? then [predecessor.value] else [],
       None, Waiting, 0, None, e.occurredAt)
  }

  /** The read half of commitMarkdown. */
  function Prepare(db: Db, e: EditInput): Result<Prepared>
  {
    if |e.next| > MAX_MARKDOWN || !Editable(db, e.note) || !e.updateFits then Err(InputInvalid) else
      var note, doc := db.entities[NoteKey(e.note)], db.entities[DocKey(e.note)];
      var body, text := Opened(db, NoteKey(e.note)).value, Opened(db, DocKey(e.note)).value;
      if e.next == body.markdown then Err(InputInvalid) else
        Ok(Prepared(e.note, note.localRevision, note.serverVersion, body.markdown,
                    note.payload.slot, body.(markdown := e.next),
                    doc.localRevision, doc.payload.slot, text.(version := note.serverVersion, text := Splice.Replaced(text.text, e.next)),
                    e.updatedBy, Json(e.update), DocumentUpdate(db, e)))
  }

  /** The re-check inside the transaction. */
  predicate StillCurrent(db: Db, p: Prepared) {
    && NoteKey(p.note) in db.entities
    && var note := db.entities[NoteKey(p.note)];
    && note.deletedAt.None?
    && !note.status.Conflicted?
    && note.localRevision == p.revision
    && note.serverVersion == p.version
  }

  function Touched(e: Entity, revision: nat, p: Prepared, body: Payload): Entity {
    e.(localRevision := revision + 1, updatedAt := p.op.occurredAt, updatedBy := p.updatedBy,
       payloadHash := Sha(body), status := SyncStatus.Pending)
  }

  function TouchedRows(entities: map<Key, Entity>, p: Prepared): map<Key, Entity>
    requires NoteKey(p.note) in entities
  {
    var put := entities[NoteKey(p.note) := Touched(entities[NoteKey(p.note)], p.revision, p, p.nextNote)];
    if DocKey(p.note) in put then
      put[DocKey(p.note) := Touched(put[DocKey(p.note)], p.docRevision, p, p.nextDoc)]
    else put
  }

  /** The commit half of commitMarkdown. */
  function CommitEdit(db: Db, p: Prepared): Result<Db> {
    if !StillCurrent(db, p) then Err(InputInvalid)
    else if p.op.id in db.outbox then Err(OperationHashMismatch)
    else Ok(db.(
      vault := db.vault[OfOp(p.op.id) := p.update][p.noteSlot := p.nextNote][p.docSlot := p.nextDoc],
      entities := TouchedRows(db.entities, p),
      outbox := db.outbox[p.op.id := p.op]))
  }

  /** What a commit that succeeds shows. The note shows the edit if and only if its row
      still refers to the slot that was read, and so does the document; a row that has
      been given another slot since keeps showing what is there. */
  lemma EditShows(db: Db, p: Prepared)
    requires CommitEdit(db, p).Ok? && p.noteSlot != p.docSlot
    requires forall k | k in {NoteKey(p.note), DocKey(p.note)} && k in db.entities && db.entities[k].payload.Reference? ::
               db.entities[k].payload.slot != OfOp(p.op.id)
    requires db.entities[NoteKey(p.note)].payload != Reference(p.docSlot)
    requires DocKey(p.note) in db.entities ==> db.entities[DocKey(p.note)].payload != Reference(p.noteSlot)
    ensures var after := CommitEdit(db, p).value;
            && NoteKey(p.note) in after.entities
            && Opened(after, NoteKey(p.note)) == (if db.entities[NoteKey(p.note)].payload == Reference(p.noteSlot)
                                                  then Some(p.nextNote) else Opened(db, NoteKey(p.note)))
            && (DocKey(p.note) in after.entities <==> DocKey(p.note) in db.entities)
            && (DocKey(p.note) in db.entities ==>
                  Opened(after, DocKey(p.note)) == (if db.entities[DocKey(p.note)].payload == Reference(p.docSlot)
                                                    then Some(p.nextDoc) else Opened(db, DocKey(p.note))))
  {
  }
}
