/**
 commitMarkdown on the database itself (packages/offline/src/yjs-notes.ts:116-309).
 The two halves are separate methods: other transactions may run between them.
 */
module NoteClient {
  import opened Types
  import opened NoteEdits
  import opened Tables
  import LocalRepository
  import Splice

  class NoteRepository {
    const database: Database

    constructor (database: Database)
      ensures this.database == database
    {
      this.database := database;
    }

    /** The read half: nothing is written yet. The document's text is edited in
        place, and what the edit leaves behind is the text that was asked for. */
    method PrepareMarkdown(e: EditInput) returns (r: Result<Prepared>)
      ensures r == Prepare(database.View(), e)
    {
      if |e.next| > MAX_MARKDOWN || !Editable(database.View(), e.note) || !e.updateFits {
        return Err(InputInvalid);
      }
      var note, doc := database.entities[NoteKey(e.note)], database.entities[DocKey(e.note)];
      var body := Opened(database.View(), NoteKey(e.note)).value;
      var state := Opened(database.View(), DocKey(e.note)).value;
      if e.next == body.markdown {
        return Err(InputInvalid);
      }
      var text := new Splice.Text(state.text);
      var at, removed, inserted := Splice.ReplaceMarkdown(text, body.markdown, e.next);
      Splice.ReplacedIsNext(state.text, e.next);
      var predecessor := LocalRepository.Newest(UpdatesOf(database.outbox, e.note));
      var operation := Op(e.op, e.device, Key(DocUpdate, e.note), Update, note.serverVersion, e.occurredAt,
                          Reference(OfOp(e.op)), Sha(Json(e.update)), Some(OfOp(e.op)),
                          if predecessor.Some? then [predecessor.value] else [],
                          None, Waiting, 0, None, e.occurredAt);
      return Ok(Prepared(e.note, note.localRevision, note.serverVersion, body.markdown,
                         note.payload.slot, body.(markdown := e.next),
                         doc.localRevision, doc.payload.slot,
                         state.(version := note.serverVersion, text := text.chars),
                         e.updatedBy, Json(e.update), operation));
    }

    /** The commit half: the note is read again, and an edit of a note that has
        moved on changes nothing. */
    method CommitPrepared(p: Prepared) returns (r: Result<()>)
      modifies database
      ensures match CommitEdit(old(database.View()), p)
              case Ok(after) => r.Ok? && database.View() == after
              case Err(code) => r == Err(code) && database.View() == old(database.View())
    {
      if !StillCurrent(database.View(), p) {
        return Err(InputInvalid);
      }
      if p.op.id in database.outbox {
        return Err(OperationHashMismatch);
      }
      database.vault := database.vault[OfOp(p.op.id) := p.update];
      database.vault := database.vault[p.noteSlot := p.nextNote];
      database.vault := database.vault[p.docSlot := p.nextDoc];
      var note := database.entities[NoteKey(p.note)];
      database.entities := database.entities[NoteKey(p.note) := Touched(note, p.revision, p, p.nextNote)];
      if DocKey(p.note) in database.entities {
        var doc := database.entities[DocKey(p.note)];
        database.entities := database.entities[DocKey(p.note) := Touched(doc, p.docRevision, p, p.nextDoc)];
      }
      database.outbox := database.outbox[p.op.id := p.op];
      return Ok(());
    }
  }
}
