/**
 Editing sessions: any number of editors, mutations, pulled changes and answers of the
 server interleave between the two halves of an edit.
 */
module NoteSessions {
  import opened Types
  import opened Repository
  import opened NoteEdits
  import Push
  import Pull
  import Splice
  import LocalRepository

  datatype Session = Session(db: Db, pending: set<Prepared>, issued: set<OpId>)

  /** A page is its changes one after the other, an answer its results. */
  datatype Action =
    | Read(input: EditInput)
    | Write(prepared: Prepared)
    | Mutate(mutation: Mutation, body: Payload)
    | Apply(device: DeviceId, change: Change)
    | Answer(op: Op, result: OpResult)

  predicate Fresh(s: Session, op: OpId) {
    op !in s.issued && op !in s.db.outbox
  }

  /** The operation of a change names one entity, and is not one that is still being
      prepared; a clean note takes over a higher version than it has. */
  predicate Arrives(s: Session, ch: Change) {
    && !ch.payload.Reference?
    && (forall k | k in s.db.entities && DocumentSlot(s.db.entities, k) == Some(OfOp(ch.op)) :: k == ch.key)
    && (forall p | p in s.pending :: p.op.id != ch.op && (p.docSlot == OfOp(ch.op) ==> ch.key == DocKey(p.note)))
    && (ch.key.kind.Note? && ch.key in s.db.entities && s.db.entities[ch.key].status.Clean? ==>
          s.db.entities[ch.key].serverVersion < ch.serverVersion)
  }

  /** The rejected deletion of a note in conflict. */
  predicate EndsConflict(db: Db, op: Op, r: OpResult) {
    r.Failed? && op.kind.Delete? && op.key.kind.Note? && op.key in db.entities && db.entities[op.key].status.Conflicted?
  }

  /** The result of an operation that waits. An acknowledgement brings a higher version, and
      a rejection does not end the conflict of a note. */
  predicate Answers(s: Session, op: Op, r: OpResult) {
    && op.id in s.db.outbox && s.db.outbox[op.id] == op && op.state.Waiting?
    && r.op == op.id
    && !EndsConflict(s.db, op, r)
    && (r.Refused? ==>
          && r.conflict.key == Owner(op.key) && Owner(op.key) in s.db.entities
          && forall k | k in s.db.entities :: DocumentSlot(s.db.entities, k) != Some(OfConflict(r.conflict.id)))
    && (r.Acked? && Owner(op.key) in s.db.entities ==> s.db.entities[Owner(op.key)].serverVersion < r.serverVersion)
  }

  /** Identifiers are fresh, editors commit what they prepared, and mutations go
      through the protected repository, which does not take document types. */
  predicate Permitted(s: Session, a: Action) {
    match a
    case Read(e) => true
    case Write(p) => p in s.pending
    case Mutate(m, _) => m.key.kind != DocState && m.key.kind != DocUpdate
    case Apply(_, ch) => Arrives(s, ch)
    case Answer(op, r) => Answers(s, op, r)
  }

  function Applied(db: Db, device: DeviceId, ch: Change): Db {
    Pull.Step(db.(vault := Pull.SealChanges(db.vault, [ch])), device, ch)
  }

  function Answered(db: Db, op: Op, r: OpResult): Db {
    var sealed := db.(vault := Push.SealRemotes(db.vault, [r]));
    match Push.Step(sealed, op, r)
    case Ok(after) => after
    case Err(_) => sealed
  }

  lemma AnsweredKeyed(db: Db, op: Op, r: OpResult)
    requires Keyed(db.outbox)
    ensures Keyed(Answered(db, op, r).outbox)
  {
  }

  function Act(s: Session, a: Action): Session {
    match a
    case Read(e) =>
      if !Fresh(s, e.op) then s else
      (match Prepare(s.db, e)
       case Ok(p) => Session(s.db, s.pending + {p}, s.issued + {e.op})
       case Err(_) => s)
    case Write(p) =>
      (match CommitEdit(s.db, p)
       case Ok(after) => Session(after, s.pending - {p}, s.issued)
       case Err(_) => s.(pending := s.pending - {p}))
    case Mutate(m, body) =>
      if m.op in s.db.outbox || Fresh(s, m.op) then
        Session(ProtectedCommit(s.db, m, body).0, s.pending, s.issued + {m.op})
      else s
    case Apply(device, ch) => Session(Applied(s.db, device, ch), s.pending, s.issued + {ch.op})
    case Answer(op, r) => s.(db := Answered(s.db, op, r))
  }

  /** The slot that holds the body of a note or of its document. */
  function DocumentSlot(entities: map<Key, Entity>, key: Key): Option<SlotId> {
    if key in entities && (key.kind.Note? || key.kind.DocState?) && entities[key].payload.Reference? then
      Some(entities[key].payload.slot)
    else None
  }

  /** Notes and documents do not share slots. */
  ghost predicate SlotsApart(entities: map<Key, Entity>) {
    forall k, k' | k != k' && DocumentSlot(entities, k).Some? ::
      DocumentSlot(entities, k) != DocumentSlot(entities, k')
  }

  /** Slots named after operations belong to operations already issued, and not
      to edits still in preparation. */
  ghost predicate SlotsIssued(entities: map<Key, Entity>, issued: set<OpId>, pending: set<Prepared>) {
    forall k | DocumentSlot(entities, k).Some? ::
      var slot := DocumentSlot(entities, k).value;
      slot.OfOp? ==> slot.op in issued && forall p | p in pending :: p.op.id != slot.op
  }

  /** A slot that an edit has read a document from is no other row's. */
  ghost predicate SlotsReserved(entities: map<Key, Entity>, issued: set<OpId>, pending: set<Prepared>) {
    forall p | p in pending ::
      && (p.docSlot.OfOp? ==> p.docSlot.op in issued && p.docSlot.op != p.op.id)
      && forall k | DocumentSlot(entities, k) == Some(p.docSlot) :: k == DocKey(p.note)
  }

  ghost predicate SlotsOwned(s: Session) {
    && SlotsApart(s.db.entities)
    && SlotsIssued(s.db.entities, s.issued, s.pending)
    && SlotsReserved(s.db.entities, s.issued, s.pending)
    && (forall p | p in s.pending :: p.op.id in s.issued)
    && s.db.outbox.Keys <= s.issued
  }

  /** Nothing has happened to the note since the edit was read, as far as its versions and
      its mark tell. */
  predicate Unmoved(db: Db, p: Prepared) {
    && NoteKey(p.note) in db.entities
    && !db.entities[NoteKey(p.note)].status.Conflicted?
    && db.entities[NoteKey(p.note)].localRevision == p.revision
    && db.entities[NoteKey(p.note)].serverVersion == p.version
  }

  /** An edit in preparation was computed from the text of the note as long as it could
      still be committed. */
  ghost predicate Anchored(db: Db, p: Prepared) {
    && p.op.key == Key(DocUpdate, p.note)
    && NoteKey(p.note) in db.entities
    && p.revision <= db.entities[NoteKey(p.note)].localRevision
    && p.version <= db.entities[NoteKey(p.note)].serverVersion
    && (Unmoved(db, p) ==>
          && db.entities[NoteKey(p.note)].payload == Reference(p.noteSlot)
          && p.noteSlot in db.vault && db.vault[p.noteSlot].NoteBody?
          && db.vault[p.noteSlot].markdown == p.base)
  }

  /** A note in conflict has an operation in conflict, or nothing queued. */
  ghost predicate NotesBacked(entities: map<Key, Entity>, outbox: map<OpId, Op>) {
    forall k | k in entities && k.kind.Note? && entities[k].status.Conflicted? :: Backed(outbox, k)
  }

  predicate Backed(outbox: map<OpId, Op>, k: Key) {
    || (exists id | id in outbox :: Touches(k, outbox[id].key) && outbox[id].state.InConflict?)
    || forall id | id in outbox :: !Touches(k, outbox[id].key)
  }

  ghost predicate SessionInv(s: Session) {
    && Keyed(s.db.outbox)
    && SlotsOwned(s)
    && NotesBacked(s.db.entities, s.db.outbox)
    && forall p | p in s.pending :: Anchored(s.db, p)
  }

  /** What the read half hands over is anchored, and both stored texts become
      the new one. */
  lemma PreparedIsAnchored(db: Db, e: EditInput)
    requires Prepare(db, e).Ok?
    ensures var p := Prepare(db, e).value;
            && Anchored(db, p) && p.op.id == e.op
            && DocumentSlot(db.entities, DocKey(p.note)) == Some(p.docSlot)
            && p.nextNote.NoteBody? && p.nextNote.markdown == e.next
            && p.nextDoc.DocBody? && p.nextDoc.text == e.next
  {
    Splice.ReplacedIsNext(Opened(db, DocKey(e.note)).value.text, e.next);
  }

  lemma ReadKeepsInv(s: Session, e: EditInput)
    requires SessionInv(s)
    ensures SessionInv(Act(s, Read(e)))
  {
    if Fresh(s, e.op) && Prepare(s.db, e).Ok? {
      PreparedIsAnchored(s.db, e);
      PendingKeepsInv(s, Prepare(s.db, e).value);
    }
  }

  lemma PendingKeepsInv(s: Session, p: Prepared)
    requires SessionInv(s) && Fresh(s, p.op.id) && Anchored(s.db, p)
    requires DocumentSlot(s.db.entities, DocKey(p.note)) == Some(p.docSlot)
    ensures SessionInv(Session(s.db, s.pending + {p}, s.issued + {p.op.id}))
  {
  }

  // Committing an edit

  /** A commit that succeeds replaces exactly the text it was computed from. The document
      follows if its row has not been given another slot in the meantime; otherwise it
      keeps the text it has. */
  lemma WriteReplacesBase(s: Session, p: Prepared)
    requires SessionInv(s) && p in s.pending && CommitEdit(s.db, p).Ok?
    ensures NoteKey(p.note) in s.db.entities
    ensures Opened(s.db, NoteKey(p.note)).Some? && Opened(s.db, NoteKey(p.note)).value.NoteBody?
    ensures Opened(s.db, NoteKey(p.note)).value.markdown == p.base
    ensures Opened(CommitEdit(s.db, p).value, NoteKey(p.note)) == Some(p.nextNote)
    ensures DocKey(p.note) in s.db.entities ==>
              Opened(CommitEdit(s.db, p).value, DocKey(p.note))
              == (if s.db.entities[DocKey(p.note)].payload == Reference(p.docSlot) then Some(p.nextDoc)
                  else Opened(s.db, DocKey(p.note)))
  {
    assert Anchored(s.db, p);
    assert DocumentSlot(s.db.entities, NoteKey(p.note)) == Some(p.noteSlot);
    assert DocumentSlot(s.db.entities, NoteKey(p.note)) != Some(p.docSlot);
    if DocKey(p.note) in s.db.entities && s.db.entities[DocKey(p.note)].payload.Reference? {
      assert DocumentSlot(s.db.entities, DocKey(p.note)).Some?;
    }
    EditShows(s.db, p);
  }

  /** Of several edits prepared on one note, the first commit aborts the others,
      whenever they were read. */
  lemma FirstCommitWins(s: Session, p: Prepared, q: Prepared)
    requires SessionInv(s) && p in s.pending && q in s.pending && p.note == q.note
    requires CommitEdit(s.db, p).Ok?
    ensures CommitEdit(CommitEdit(s.db, p).value, q).Err?
  {
    assert Anchored(s.db, q);
    assert NoteKey(q.note) != DocKey(p.note);
  }

  lemma WriteKeepsAnchors(s: Session, p: Prepared, q: Prepared)
    requires SessionInv(s) && p in s.pending && q in s.pending && CommitEdit(s.db, p).Ok?
    ensures Anchored(CommitEdit(s.db, p).value, q)
  {
    assert Anchored(s.db, p) && Anchored(s.db, q);
    assert NoteKey(q.note) != DocKey(p.note);
    if q.note != p.note && Unmoved(s.db, q) {
      assert DocumentSlot(s.db.entities, NoteKey(q.note)) == Some(q.noteSlot);
      assert DocumentSlot(s.db.entities, NoteKey(p.note)) == Some(p.noteSlot);
      assert DocumentSlot(s.db.entities, NoteKey(q.note)) != Some(p.docSlot);
    }
  }

  lemma WriteKeepsBacked(db: Db, p: Prepared)
    requires NotesBacked(db.entities, db.outbox) && CommitEdit(db, p).Ok? && p.op.key == Key(DocUpdate, p.note)
    ensures NotesBacked(CommitEdit(db, p).value.entities, CommitEdit(db, p).value.outbox)
  {
    var t := CommitEdit(db, p).value;
    forall k | k in t.entities && k.kind.Note? && t.entities[k].status.Conflicted?
      ensures Backed(t.outbox, k)
    {
      assert k != NoteKey(p.note) && Backed(db.outbox, k);
      if id :| id in db.outbox && Touches(k, db.outbox[id].key) && db.outbox[id].state.InConflict? {
        assert t.outbox[id] == db.outbox[id];
      }
    }
  }

  lemma SlotsStay(s: Session, t: Db, pending: set<Prepared>)
    requires SlotsOwned(s) && pending <= s.pending && t.outbox.Keys <= s.issued
    requires forall k :: DocumentSlot(t.entities, k) == DocumentSlot(s.db.entities, k)
    ensures SlotsOwned(Session(t, pending, s.issued))
  {
  }

  lemma WriteKeepsInv(s: Session, p: Prepared)
    requires SessionInv(s) && p in s.pending
    ensures SessionInv(Act(s, Write(p)))
  {
    if CommitEdit(s.db, p).Ok? {
      var after := CommitEdit(s.db, p).value;
      assert Anchored(s.db, p);
      WriteKeepsBacked(s.db, p);
      forall k
        ensures DocumentSlot(after.entities, k) == DocumentSlot(s.db.entities, k)
      {
      }
      SlotsStay(s, after, s.pending - {p});
      forall q | q in s.pending
        ensures Anchored(after, q)
      {
        WriteKeepsAnchors(s, p, q);
      }
    }
  }

  // Mutations

  /** A mutation of an entity that is already there keeps its version, and is not made
      on one in conflict. */
  lemma MutationKeepsVersion(db: Db, m: Mutation, body: Payload)
    requires m.key in db.entities
    ensures var after := ProtectedCommit(db, m, body).0.entities;
            after != db.entities ==>
              && !db.entities[m.key].status.Conflicted?
              && m.key in after && after[m.key].serverVersion == db.entities[m.key].serverVersion
              && after[m.key].status.Pending?
  {
    var sealed := m.(payload := Reference(OfOp(m.op)), payloadHash := Sha(body), slot := Some(OfOp(m.op)));
    if m.kind.Delete? {
      if Commit(db, m).Ok? { CommitKeepsVersion(db, m); }
    } else if m.op !in db.outbox {
      var put := db.(vault := db.vault[OfOp(m.op) := body]);
      if Commit(put, sealed).Ok? { CommitKeepsVersion(put, sealed); }
    }
  }

  lemma CommitKeepsVersion(db: Db, m: Mutation)
    requires Commit(db, m).Ok? && m.key in db.entities
    ensures var after := Commit(db, m).value.entities;
            after != db.entities ==>
              && !db.entities[m.key].status.Conflicted?
              && m.key in after && after[m.key].serverVersion == db.entities[m.key].serverVersion
              && after[m.key].status.Pending?
  {
    CommitCases(db, m);
    if m.op !in db.outbox { CommitNeedsPeace(db, m); }
  }

  /** A mutation of the note aborts every edit prepared before it. */
  lemma MutationAbortsEdits(s: Session, m: Mutation, body: Payload, q: Prepared)
    requires SessionInv(s) && q in s.pending && m.key == NoteKey(q.note)
    requires Act(s, Mutate(m, body)).db.entities != s.db.entities
    ensures CommitEdit(Act(s, Mutate(m, body)).db, q).Err?
  {
    assert Anchored(s.db, q);
    ProtectedOutcome(s.db, m, body);
  }

  lemma MutateKeepsAnchor(s: Session, m: Mutation, body: Payload, q: Prepared)
    requires SessionInv(s) && q in s.pending && Permitted(s, Mutate(m, body))
    ensures Anchored(Act(s, Mutate(m, body)).db, q)
  {
    assert Anchored(s.db, q);
    ProtectedOutcome(s.db, m, body);
    if m.key == NoteKey(q.note) { MutationKeepsVersion(s.db, m, body); }
    if Fresh(s, m.op) && Unmoved(s.db, q) {
      assert DocumentSlot(s.db.entities, NoteKey(q.note)) == Some(q.noteSlot);
    }
  }

  lemma MutatedSlot(s: Session, m: Mutation, body: Payload, k: Key)
    requires SessionInv(s) && Permitted(s, Mutate(m, body))
    ensures var after := Act(s, Mutate(m, body)).db.entities;
            DocumentSlot(after, k) == DocumentSlot(s.db.entities, k)
            || (Fresh(s, m.op) && k == m.key && DocumentSlot(after, k) == Some(OfOp(m.op)))
  {
    CommittedSlot(s.db, m, body, k);
  }

  lemma CommittedSlot(db: Db, m: Mutation, body: Payload, k: Key)
    ensures var after := ProtectedCommit(db, m, body).0.entities;
            || DocumentSlot(after, k) == DocumentSlot(db.entities, k)
            || (m.op !in db.outbox && k == m.key && DocumentSlot(after, k) == Some(OfOp(m.op)))
  {
    ProtectedOutcome(db, m, body);
  }

  /** One row moves to the slot of a new operation. */
  lemma SlotMoves(s: Session, s': Session, key: Key, op: OpId)
    requires SlotsOwned(s) && s'.pending == s.pending && s'.issued == s.issued + {op} && s'.db.outbox.Keys <= s'.issued
    requires forall k :: DocumentSlot(s'.db.entities, k) == DocumentSlot(s.db.entities, k)
                         || DocumentSlot(s'.db.entities, k).None?
                         || (k == key && DocumentSlot(s'.db.entities, k) == Some(OfOp(op)))
    requires forall k | DocumentSlot(s.db.entities, k) == Some(OfOp(op)) :: k == key
    requires forall p | p in s.pending :: p.op.id != op && (p.docSlot == OfOp(op) ==> key == DocKey(p.note))
    ensures SlotsOwned(s')
  {
    forall k, k' | k != k' && DocumentSlot(s'.db.entities, k).Some?
      ensures DocumentSlot(s'.db.entities, k) != DocumentSlot(s'.db.entities, k')
    {
    }
  }

  lemma MutateKeepsSlots(s: Session, m: Mutation, body: Payload)
    requires SessionInv(s) && Permitted(s, Mutate(m, body))
    ensures SlotsOwned(Act(s, Mutate(m, body)))
  {
    var s' := Act(s, Mutate(m, body));
    ProtectedOutbox(s.db, m, body);
    forall k
      ensures DocumentSlot(s'.db.entities, k) == DocumentSlot(s.db.entities, k)
              || (Fresh(s, m.op) && k == m.key && DocumentSlot(s'.db.entities, k) == Some(OfOp(m.op)))
    {
      MutatedSlot(s, m, body, k);
    }
    if Fresh(s, m.op) {
      SlotMoves(s, s', m.key, m.op);
    } else {
      SlotsStay(s, s'.db, s.pending);
    }
  }

  lemma MutateKeepsBacked(db: Db, m: Mutation, body: Payload)
    requires NotesBacked(db.entities, db.outbox) && m.key.kind != DocUpdate
    ensures var t := ProtectedCommit(db, m, body).0; NotesBacked(t.entities, t.outbox)
  {
    var t := ProtectedCommit(db, m, body).0;
    QueuedOrNot(db, m, body);
    forall k | k in t.entities && k.kind.Note? && t.entities[k].status.Conflicted?
      ensures Backed(t.outbox, k)
    {
      assert k in db.entities && db.entities[k].status.Conflicted? && Backed(db.outbox, k);
      if id :| id in db.outbox && Touches(k, db.outbox[id].key) && db.outbox[id].state.InConflict? {
        assert t.outbox[id] == db.outbox[id];
      }
    }
  }

  lemma MutateKeepsInv(s: Session, m: Mutation, body: Payload)
    requires SessionInv(s) && Permitted(s, Mutate(m, body))
    ensures SessionInv(Act(s, Mutate(m, body)))
  {
    var t := ProtectedCommit(s.db, m, body).0;
    ProtectedOutbox(s.db, m, body);
    MutateKeepsSlots(s, m, body);
    MutateKeepsBacked(s.db, m, body);
    assert Act(s, Mutate(m, body)).db in {s.db, t};
    forall q | q in s.pending
      ensures Anchored(Act(s, Mutate(m, body)).db, q)
    {
      MutateKeepsAnchor(s, m, body, q);
    }
  }

  // Pulled changes

  lemma SealOne(vault: map<SlotId, Payload>, ch: Change)
    ensures Pull.SealChanges(vault, [ch])
            == if Protected(ch.key.kind) && !ch.tombstone then vault[OfOp(ch.op) := ch.payload] else vault
  {
    assert [ch][..0] == [];
  }

  /** What a change does to rows: its own moves to its slot or is marked, and the
      documents of a deleted note go. */
  lemma AppliedRows(db: Db, device: DeviceId, ch: Change, k: Key)
    requires !ch.payload.Reference?
    ensures var after := Applied(db, device, ch).entities;
            || DocumentSlot(after, k) == DocumentSlot(db.entities, k) || DocumentSlot(after, k).None?
            || (k == ch.key && DocumentSlot(after, k) == Some(OfOp(ch.op)))
    ensures k.kind.Note? && k != ch.key ==>
              var after := Applied(db, device, ch).entities;
              (k in after <==> k in db.entities) && (k in after ==> after[k] == db.entities[k])
  {
    AppliedCases(db, device, ch);
  }

  predicate Overwrites(entities: map<Key, Entity>, ch: Change) {
    !Pull.Skipped(entities, ch) && (ch.key !in entities || entities[ch.key].status.Clean?)
  }

  lemma AppliedCases(db: Db, device: DeviceId, ch: Change)
    ensures var t := Applied(db, device, ch);
            && t.vault == Pull.SealChanges(db.vault, [ch])
            && t.entities == (if Overwrites(db.entities, ch) then Pull.Overwrite(db.entities, device, ch)
                              else if Pull.Raises(db, ch) then
                                db.entities[ch.key := db.entities[ch.key].(status := Conflicted)]
                              else db.entities)
            && t.outbox == (if Pull.Raises(db, ch) then Pull.HoldRelated(db.outbox, ch.key) else db.outbox)
  {
    var sealed := db.(vault := Pull.SealChanges(db.vault, [ch]));
    Pull.StepCases(sealed, device, ch);
  }

  lemma ApplyKeepsSlots(s: Session, device: DeviceId, ch: Change)
    requires SessionInv(s) && Arrives(s, ch)
    ensures SlotsOwned(Act(s, Apply(device, ch)))
  {
    var s' := Act(s, Apply(device, ch));
    forall k
      ensures DocumentSlot(s'.db.entities, k) == DocumentSlot(s.db.entities, k)
              || DocumentSlot(s'.db.entities, k).None?
              || (k == ch.key && DocumentSlot(s'.db.entities, k) == Some(OfOp(ch.op)))
    {
      AppliedRows(s.db, device, ch, k);
    }
    AppliedKeys(s.db, device, ch);
    SlotMoves(s, s', ch.key, ch.op);
  }

  lemma AppliedKeys(db: Db, device: DeviceId, ch: Change)
    ensures var t := Applied(db, device, ch).outbox;
            && t.Keys == db.outbox.Keys
            && forall id | id in t :: t[id].key == db.outbox[id].key && (db.outbox[id].state.InConflict? ==> t[id].state.InConflict?)
  {
    AppliedCases(db, device, ch);
  }

  /** What becomes of the note the change is about. */
  lemma AppliedNote(db: Db, device: DeviceId, ch: Change)
    requires ch.key.kind.Note? && ch.key in db.entities
    ensures var t := Applied(db, device, ch);
            && ch.key in t.entities && t.entities[ch.key].localRevision == db.entities[ch.key].localRevision
            && (if db.entities[ch.key].status.Clean? then
                  t.entities[ch.key].serverVersion == ch.serverVersion && t.entities[ch.key].status.Clean?
                else
                  t.entities[ch.key].serverVersion == db.entities[ch.key].serverVersion && t.entities[ch.key].status.Conflicted?)
            && (db.entities[ch.key].status.Pending? ==>
                  forall id | id in t.outbox && Touches(ch.key, t.outbox[id].key) :: t.outbox[id].state.InConflict?)
  {
    AppliedCases(db, device, ch);
  }

  lemma ApplyKeepsAnchor(s: Session, device: DeviceId, ch: Change, q: Prepared)
    requires SessionInv(s) && Arrives(s, ch) && q in s.pending
    ensures Anchored(Applied(s.db, device, ch), q)
  {
    assert Anchored(s.db, q);
    if ch.key == NoteKey(q.note) {
      AppliedNote(s.db, device, ch);
    } else {
      AppliedRows(s.db, device, ch, NoteKey(q.note));
      SealOne(s.db.vault, ch);
      if Unmoved(s.db, q) {
        assert DocumentSlot(s.db.entities, NoteKey(q.note)) == Some(q.noteSlot);
        assert q.noteSlot != OfOp(ch.op);
        AppliedCases(s.db, device, ch);
      }
    }
  }

  lemma BackedStays(before: map<OpId, Op>, after: map<OpId, Op>, k: Key)
    requires Backed(before, k) && after.Keys == before.Keys
    requires forall id | id in after :: after[id].key == before[id].key && (before[id].state.InConflict? ==> after[id].state.InConflict?)
    ensures Backed(after, k)
  {
    if id :| id in before && Touches(k, before[id].key) && before[id].state.InConflict? {
      assert Touches(k, after[id].key) && after[id].state.InConflict?;
    }
  }

  lemma ApplyKeepsBacked(db: Db, device: DeviceId, ch: Change)
    requires NotesBacked(db.entities, db.outbox) && !ch.payload.Reference?
    ensures NotesBacked(Applied(db, device, ch).entities, Applied(db, device, ch).outbox)
  {
    var t := Applied(db, device, ch);
    AppliedKeys(db, device, ch);
    forall k | k in t.entities && k.kind.Note? && t.entities[k].status.Conflicted?
      ensures Backed(t.outbox, k)
    {
      AppliedRows(db, device, ch, k);
      if k == ch.key && k in db.entities && !db.entities[k].status.Conflicted? {
        AppliedNote(db, device, ch);
      } else if k in db.entities {
        assert db.entities[k].status.Conflicted?;
        BackedStays(db.outbox, t.outbox, k);
      } else {
        NewIsClean(db, device, ch);
      }
    }
  }

  lemma NewIsClean(db: Db, device: DeviceId, ch: Change)
    requires ch.key !in db.entities && ch.key.kind.Note?
    ensures ch.key in Applied(db, device, ch).entities ==> Applied(db, device, ch).entities[ch.key].status.Clean?
  {
  }

  lemma ApplyKeepsInv(s: Session, device: DeviceId, ch: Change)
    requires SessionInv(s) && Arrives(s, ch)
    ensures SessionInv(Act(s, Apply(device, ch)))
  {
    ApplyKeepsSlots(s, device, ch);
    ApplyKeepsBacked(s.db, device, ch);
    forall q | q in s.pending
      ensures Anchored(Applied(s.db, device, ch), q)
    {
      ApplyKeepsAnchor(s, device, ch, q);
    }
  }

  // Answers

  lemma SealAnswer(vault: map<SlotId, Payload>, r: OpResult)
    ensures Push.SealRemotes(vault, [r])
            == if r.Refused? && Protected(r.conflict.key.kind) then vault[OfConflict(r.conflict.id) := r.conflict.remotePayload]
               else vault
  {
    assert [r][..0] == [];
  }

  /** An answer changes versions and marks, but no slot. */
  lemma AnsweredRows(db: Db, op: Op, r: OpResult, k: Key)
    ensures var after := Answered(db, op, r).entities;
            && DocumentSlot(after, k) == DocumentSlot(db.entities, k)
            && (k.kind.Note? && k != Owner(op.key) ==>
                  (k in after <==> k in db.entities) && (k in after ==> after[k] == db.entities[k]))
  {
  }

  lemma AnsweredVault(db: Db, op: Op, r: OpResult)
    ensures Answered(db, op, r).vault == Push.SealRemotes(db.vault, [r])
  {
  }

  lemma AckedNote(db: Db, op: Op, r: OpResult)
    requires r.Acked? && r.op == op.id && Owner(op.key) in db.entities && Owner(op.key).kind.Note?
    ensures var k, t := Owner(op.key), Answered(db, op, r);
            && k in t.entities
            && t.entities[k] == db.entities[k].(serverVersion := r.serverVersion, status := t.entities[k].status)
            && t.entities[k].status == Push.StatusAfterAck(Related(db.outbox - {op.id}, k))
            && t.outbox == db.outbox - {op.id}
  {
  }

  lemma RefusedNote(db: Db, op: Op, r: OpResult)
    requires r.Refused? && r.op == op.id && Owner(op.key) in db.entities && op.id in db.outbox
    ensures var k, t := Owner(op.key), Answered(db, op, r);
            && k in t.entities && t.entities[k] == db.entities[k].(status := Conflicted)
            && t.outbox == db.outbox[op.id := db.outbox[op.id].(state := InConflict, lastError := Some(SyncConflict))]
  {
  }

  /** A rejection moves no note, and ends at most a conflict. */
  lemma FailedNote(db: Db, op: Op, r: OpResult, k: Key)
    requires r.Failed? && r.op == op.id && k.kind.Note? && k in db.entities
    ensures var t := Answered(db, op, r);
            && k in t.entities
            && t.entities[k] == db.entities[k].(status := t.entities[k].status, deletedAt := t.entities[k].deletedAt)
            && (EndsConflict(db, op, r) || (t.entities[k].status.Conflicted? <==> db.entities[k].status.Conflicted?))
  {
  }

  lemma AnswerKeepsAnchor(s: Session, op: Op, r: OpResult, q: Prepared)
    requires SessionInv(s) && Answers(s, op, r) && q in s.pending
    ensures Anchored(Answered(s.db, op, r), q)
  {
    assert Anchored(s.db, q);
    SealAnswer(s.db.vault, r);
    AnsweredVault(s.db, op, r);
    if r.Failed? {
      FailedNote(s.db, op, r, NoteKey(q.note));
    } else if Owner(op.key) == NoteKey(q.note) {
      if r.Acked? {
        AckedNote(s.db, op, r);
      } else {
        RefusedNote(s.db, op, r);
      }
    } else {
      AnsweredRows(s.db, op, r, NoteKey(q.note));
      if Unmoved(s.db, q) {
        assert DocumentSlot(s.db.entities, NoteKey(q.note)) == Some(q.noteSlot);
      }
    }
  }

  lemma AnsweredQueue(db: Db, op: Op, r: OpResult)
    requires op.id in db.outbox && db.outbox[op.id] == op && r.op == op.id
    ensures var t := Answered(db, op, r).outbox;
            && t.Keys <= db.outbox.Keys
            && (forall id | id in t ::
                  && t[id].key == db.outbox[id].key && t[id].queuedAt == db.outbox[id].queuedAt
                  && (id != op.id ==> t[id] == db.outbox[id]))
            && (forall id | id in db.outbox && (id != op.id || r.Failed?) :: id in t)
  {
  }

  lemma AnsweredBacked(db: Db, op: Op, r: OpResult, k: Key)
    requires op.id in db.outbox && db.outbox[op.id] == op && op.state.Waiting? && r.op == op.id
    requires Backed(db.outbox, k)
    ensures Backed(Answered(db, op, r).outbox, k)
  {
    AnsweredQueue(db, op, r);
    var t := Answered(db, op, r).outbox;
    if id :| id in db.outbox && Touches(k, db.outbox[id].key) && db.outbox[id].state.InConflict? {
      assert t[id] == db.outbox[id];
    }
  }

  lemma OwnerIsBacked(db: Db, op: Op, r: OpResult)
    requires op.id in db.outbox && db.outbox[op.id] == op && op.state.Waiting? && r.op == op.id && !r.Failed?
    requires Owner(op.key) in db.entities && Owner(op.key).kind.Note?
    requires Answered(db, op, r).entities[Owner(op.key)].status.Conflicted?
    ensures Backed(Answered(db, op, r).outbox, Owner(op.key))
  {
    var k, t := Owner(op.key), Answered(db, op, r);
    if r.Acked? {
      AckedNote(db, op, r);
      var rest := Related(db.outbox - {op.id}, k);
      var id :| id in rest && rest[id].state.InConflict?;
      assert t.outbox[id] == rest[id] && Touches(k, t.outbox[id].key);
    } else {
      RefusedNote(db, op, r);
      assert Touches(k, t.outbox[op.id].key) && t.outbox[op.id].state.InConflict?;
    }
  }

  lemma AnswerKeepsBacked(db: Db, op: Op, r: OpResult)
    requires op.id in db.outbox && db.outbox[op.id] == op && op.state.Waiting? && r.op == op.id
    requires NotesBacked(db.entities, db.outbox)
    requires !EndsConflict(db, op, r)
    ensures NotesBacked(Answered(db, op, r).entities, Answered(db, op, r).outbox)
  {
    var t := Answered(db, op, r);
    forall k | k in t.entities && k.kind.Note? && t.entities[k].status.Conflicted?
      ensures Backed(t.outbox, k)
    {
      AnsweredKeys(db, op, r);
      if r.Failed? {
        FailedNote(db, op, r, k);
        AnsweredBacked(db, op, r, k);
      } else if k == Owner(op.key) {
        OwnerIsBacked(db, op, r);
      } else {
        AnsweredRows(db, op, r, k);
        AnsweredBacked(db, op, r, k);
      }
    }
  }

  lemma AnsweredKeys(db: Db, op: Op, r: OpResult)
    ensures Answered(db, op, r).entities.Keys == db.entities.Keys
  {
  }

  lemma AnswerKeepsInv(s: Session, op: Op, r: OpResult)
    requires SessionInv(s) && Answers(s, op, r)
    ensures SessionInv(Act(s, Answer(op, r)))
  {
    AnsweredKeyed(s.db, op, r);
    AnswerKeepsBacked(s.db, op, r);
    AnsweredQueue(s.db, op, r);
    forall k
      ensures DocumentSlot(Answered(s.db, op, r).entities, k) == DocumentSlot(s.db.entities, k)
    {
      AnsweredRows(s.db, op, r, k);
    }
    SlotsStay(s, Answered(s.db, op, r), s.pending);
    forall q | q in s.pending
      ensures Anchored(Answered(s.db, op, r), q)
    {
      AnswerKeepsAnchor(s, op, r, q);
    }
  }

  // Sessions

  /** The session after some actions; actions nobody could take end the run. */
  function Run(s: Session, actions: seq<Action>): Session
    decreases |actions|
  {
    if actions == [] || !Permitted(s, actions[0]) then s else
      Run(Act(s, actions[0]), actions[1..])
  }

  lemma ActKeepsInv(s: Session, a: Action)
    requires SessionInv(s) && Permitted(s, a)
    ensures SessionInv(Act(s, a))
  {
    match a {
      case Read(e) => ReadKeepsInv(s, e);
      case Write(p) => WriteKeepsInv(s, p);
      case Mutate(m, body) => MutateKeepsInv(s, m, body);
      case Apply(device, ch) => ApplyKeepsInv(s, device, ch);
      case Answer(op, r) => AnswerKeepsInv(s, op, r);
    }
  }

  lemma {:induction false} RunKeepsInv(s: Session, actions: seq<Action>)
    requires SessionInv(s)
    ensures SessionInv(Run(s, actions))
    decreases |actions|
  {
    if actions != [] && Permitted(s, actions[0]) {
      ActKeepsInv(s, actions[0]);
      RunKeepsInv(Act(s, actions[0]), actions[1..]);
    }
  }

  /** No local edit is lost: after any interleaving of edits being prepared and
      committed, mutations, pulled changes and answers, an edit that still commits was
      computed from the text the note has at that moment, and the note shows it. The
      document shows it if and only if no pulled change has given its row another slot
      since the edit was read; otherwise it keeps showing what was pulled. */
  lemma NoLostEdit(s: Session, actions: seq<Action>, p: Prepared)
    requires SessionInv(s)
    requires p in Run(s, actions).pending && CommitEdit(Run(s, actions).db, p).Ok?
    ensures var before := Run(s, actions).db;
            var after := CommitEdit(before, p).value;
            && Opened(before, NoteKey(p.note)).Some?
            && Opened(before, NoteKey(p.note)).value.NoteBody?
            && Opened(before, NoteKey(p.note)).value.markdown == p.base
            && NoteKey(p.note) in after.entities && Opened(after, NoteKey(p.note)) == Some(p.nextNote)
            && (DocKey(p.note) in before.entities ==>
                  Opened(after, DocKey(p.note))
                  == if before.entities[DocKey(p.note)].payload == Reference(p.docSlot) then Some(p.nextDoc)
                     else Opened(before, DocKey(p.note)))
  {
    RunKeepsInv(s, actions);
    WriteReplacesBase(Run(s, actions), p);
  }

  // The order of edits on one note

  /** The edit names exactly the newest update of the note that is queued. */
  ghost predicate Follows(outbox: map<OpId, Op>, p: Prepared)
  {
    var newest := Latest(UpdatesOf(outbox, p.note));
    p.op.deps == if newest.Some? then [newest.value] else []
  }

  /** As long as it could still be committed, an edit in preparation would follow the
      newest update. */
  ghost predicate Following(s: Session)
  {
    forall p | p in s.pending && Unmoved(s.db, p) :: Follows(s.db.outbox, p)
  }

  /** A note whose row is untouched, and whose updates have the same order. */
  lemma FollowingStays(before: map<OpId, Op>, after: map<OpId, Op>, p: Prepared)
    requires Keyed(before) && Keyed(after) && Follows(before, p)
    requires SameUpdates(before, after, p.note)
    ensures Follows(after, p)
  {
    var earlier, later := UpdatesOf(before, p.note), UpdatesOf(after, p.note);
    if Latest(earlier).Some? {
      var newest := Latest(earlier).value;
      assert newest in later;
      forall other | other in later
        ensures !Before(later[newest], later[other])
      {
        assert !Before(earlier[newest], earlier[other]);
      }
      LocalRepository.LatestIsUnique(later, newest);
    }
  }

  lemma WriteKeepsFollowing(s: Session, p: Prepared)
    requires SessionInv(s) && Following(s) && p in s.pending
    ensures Following(Act(s, Write(p)))
  {
    if CommitEdit(s.db, p).Ok? {
      var t := CommitEdit(s.db, p).value;
      assert Anchored(s.db, p);
      forall q | q in s.pending - {p} && Unmoved(t, q)
        ensures Follows(t.outbox, q)
      {
        assert Anchored(s.db, q);
        if q.note == p.note { FirstCommitWins(s, p, q); }
        assert NoteKey(q.note) != DocKey(p.note);
        WriteLeavesOthers(s.db, p, q);
        FollowingStays(s.db.outbox, t.outbox, q);
      }
    }
  }

  lemma WriteLeavesOthers(db: Db, p: Prepared, q: Prepared)
    requires CommitEdit(db, p).Ok? && p.op.key == Key(DocUpdate, p.note) && p.note != q.note
    requires Unmoved(CommitEdit(db, p).value, q)
    ensures Unmoved(db, q)
    ensures UpdatesOf(CommitEdit(db, p).value.outbox, q.note) == UpdatesOf(db.outbox, q.note)
  {
  }

  /** The updates of a note, as far as their order goes. */
  ghost predicate SameUpdates(before: map<OpId, Op>, after: map<OpId, Op>, note: EntityId) {
    && UpdatesOf(after, note).Keys == UpdatesOf(before, note).Keys
    && forall id | id in UpdatesOf(after, note) :: after[id].queuedAt == before[id].queuedAt
  }

  lemma MutateLeaves(db: Db, m: Mutation, body: Payload, q: Prepared)
    requires Anchored(db, q) && Unmoved(ProtectedCommit(db, m, body).0, q)
    ensures Unmoved(db, q)
  {
    ProtectedOutcome(db, m, body);
    if m.key != NoteKey(q.note) || ProtectedCommit(db, m, body).0.entities == db.entities {
      RowStays(db, m, body, NoteKey(q.note));
    }
  }

  lemma RowStays(db: Db, m: Mutation, body: Payload, k: Key)
    requires k in db.entities
    requires k != m.key || ProtectedCommit(db, m, body).0.entities == db.entities
    ensures var after := ProtectedCommit(db, m, body).0.entities; k in after && after[k] == db.entities[k]
  {
    QueuedOrNot(db, m, body);
  }

  lemma MutateKeepsUpdates(db: Db, m: Mutation, body: Payload, note: EntityId)
    requires m.key.kind != DocUpdate
    ensures SameUpdates(db.outbox, ProtectedCommit(db, m, body).0.outbox, note)
  {
    QueuedOrNot(db, m, body);
    if QueuesOn(db, ProtectedCommit(db, m, body).0, m) {
      RowKeepsUpdates(db.outbox, ProtectedCommit(db, m, body).0.outbox, m.op, note);
    }
  }

  lemma RowKeepsUpdates(outbox: map<OpId, Op>, after: map<OpId, Op>, op: OpId, note: EntityId)
    requires op !in outbox && op in after && after == outbox[op := after[op]] && after[op].key.kind != DocUpdate
    ensures SameUpdates(outbox, after, note)
  {
  }

  lemma MutateKeepsFollowing(s: Session, m: Mutation, body: Payload)
    requires SessionInv(s) && Following(s) && Permitted(s, Mutate(m, body))
    ensures Following(Act(s, Mutate(m, body)))
  {
    if Act(s, Mutate(m, body)).db != s.db {
      MutatedFollowing(s, ProtectedCommit(s.db, m, body).0, m, body);
    }
  }

  lemma MutatedFollowing(s: Session, t: Db, m: Mutation, body: Payload)
    requires SessionInv(s) && Following(s) && m.key.kind != DocUpdate && t == ProtectedCommit(s.db, m, body).0
    ensures forall q | q in s.pending && Unmoved(t, q) :: Follows(t.outbox, q)
  {
    ProtectedOutbox(s.db, m, body);
    forall q | q in s.pending && Unmoved(t, q)
      ensures Follows(t.outbox, q)
    {
      assert Anchored(s.db, q);
      MutateLeaves(s.db, m, body, q);
      MutateKeepsUpdates(s.db, m, body, q.note);
      FollowingStays(s.db.outbox, t.outbox, q);
    }
  }

  lemma ApplyLeaves(db: Db, device: DeviceId, ch: Change, q: Prepared)
    requires !ch.payload.Reference? && Anchored(db, q)
    requires ch.key.kind.Note? && ch.key in db.entities && db.entities[ch.key].status.Clean? ==>
               db.entities[ch.key].serverVersion < ch.serverVersion
    requires Unmoved(Applied(db, device, ch), q)
    ensures Unmoved(db, q) && SameUpdates(db.outbox, Applied(db, device, ch).outbox, q.note)
  {
    if ch.key == NoteKey(q.note) { AppliedNote(db, device, ch); }
    AppliedRows(db, device, ch, NoteKey(q.note));
    AppliedCases(db, device, ch);
  }

  lemma AppliedKeyed(db: Db, device: DeviceId, ch: Change)
    requires Keyed(db.outbox)
    ensures Keyed(Applied(db, device, ch).outbox)
  {
    AppliedCases(db, device, ch);
  }

  lemma ApplyKeepsFollowing(s: Session, device: DeviceId, ch: Change)
    requires SessionInv(s) && Following(s) && Arrives(s, ch)
    ensures Following(Act(s, Apply(device, ch)))
  {
    var t := Applied(s.db, device, ch);
    AppliedKeyed(s.db, device, ch);
    forall q | q in s.pending && Unmoved(t, q)
      ensures Follows(t.outbox, q)
    {
      ApplyLeaves(s.db, device, ch, q);
      FollowingStays(s.db.outbox, t.outbox, q);
    }
  }

  lemma AnswerLeaves(db: Db, op: Op, r: OpResult, q: Prepared)
    requires op.id in db.outbox && db.outbox[op.id] == op && r.op == op.id && Anchored(db, q)
    requires !EndsConflict(db, op, r)
    requires r.Refused? ==> Owner(op.key) in db.entities
    requires r.Acked? && Owner(op.key) in db.entities ==> db.entities[Owner(op.key)].serverVersion < r.serverVersion
    requires Unmoved(Answered(db, op, r), q)
    ensures Unmoved(db, q) && SameUpdates(db.outbox, Answered(db, op, r).outbox, q.note)
  {
    if r.Failed? {
      FailedNote(db, op, r, NoteKey(q.note));
    } else if Owner(op.key) == NoteKey(q.note) {
      AnswerAborts(db, op, r, q);
    }
    AnsweredRows(db, op, r, NoteKey(q.note));
    AnsweredQueue(db, op, r);
  }

  lemma AnswerKeepsFollowing(s: Session, op: Op, r: OpResult)
    requires SessionInv(s) && Following(s) && Answers(s, op, r)
    ensures Keyed(Answered(s.db, op, r).outbox) && Following(s.(db := Answered(s.db, op, r)))
  {
    AnsweredKeyed(s.db, op, r);
    forall q | q in s.pending && Unmoved(Answered(s.db, op, r), q)
      ensures Follows(Answered(s.db, op, r).outbox, q)
    {
      assert Anchored(s.db, q);
      StillFollows(s.db, op, r, q);
    }
  }

  lemma StillFollows(db: Db, op: Op, r: OpResult, q: Prepared)
    requires Keyed(db.outbox) && op.id in db.outbox && db.outbox[op.id] == op && r.op == op.id && Anchored(db, q)
    requires !EndsConflict(db, op, r)
    requires r.Refused? ==> Owner(op.key) in db.entities
    requires r.Acked? && Owner(op.key) in db.entities ==> db.entities[Owner(op.key)].serverVersion < r.serverVersion
    requires Unmoved(Answered(db, op, r), q) && (Unmoved(db, q) ==> Follows(db.outbox, q))
    ensures Keyed(Answered(db, op, r).outbox) && Follows(Answered(db, op, r).outbox, q)
  {
    AnsweredKeyed(db, op, r);
    AnswerLeaves(db, op, r, q);
    FollowingStays(db.outbox, Answered(db, op, r).outbox, q);
  }

  /** An answer about the note or its document aborts the edits prepared on it. */
  lemma AnswerAborts(db: Db, op: Op, r: OpResult, q: Prepared)
    requires op.id in db.outbox && db.outbox[op.id] == op && r.op == op.id && !r.Failed?
    requires Owner(op.key) == NoteKey(q.note) && Owner(op.key) in db.entities
    requires r.Acked? ==> db.entities[Owner(op.key)].serverVersion < r.serverVersion
    requires q.version <= db.entities[NoteKey(q.note)].serverVersion
    ensures !Unmoved(Answered(db, op, r), q)
  {
    if r.Acked? {
      AckedNote(db, op, r);
    } else {
      RefusedNote(db, op, r);
    }
  }

  lemma {:induction false} RunKeepsFollowing(s: Session, actions: seq<Action>)
    requires SessionInv(s) && Following(s)
    ensures SessionInv(Run(s, actions)) && Following(Run(s, actions))
    decreases |actions|
  {
    if actions != [] && Permitted(s, actions[0]) {
      ActKeepsInv(s, actions[0]);
      ActKeepsFollowing(s, actions[0]);
      RunKeepsFollowing(Act(s, actions[0]), actions[1..]);
    }
  }

  lemma ActKeepsFollowing(s: Session, a: Action)
    requires SessionInv(s) && Following(s) && Permitted(s, a)
    ensures Following(Act(s, a))
  {
    match a {
      case Read(e) =>
      case Write(p) => WriteKeepsFollowing(s, p);
      case Mutate(m, body) => MutateKeepsFollowing(s, m, body);
      case Apply(device, ch) => ApplyKeepsFollowing(s, device, ch);
      case Answer(op, r) => AnswerKeepsFollowing(s, op, r);
    }
  }

  /** The predecessor is read before the transaction, and is still the newest update
      of the note when the edit commits: the updates of a note form one chain. */
  lemma EditsFollowEachOther(s: Session, actions: seq<Action>, p: Prepared)
    requires SessionInv(s) && Following(s)
    requires p in Run(s, actions).pending && CommitEdit(Run(s, actions).db, p).Ok?
    ensures Keyed(Run(s, actions).db.outbox) && Follows(Run(s, actions).db.outbox, p)
  {
    RunKeepsFollowing(s, actions);
  }
}
