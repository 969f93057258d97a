/**
 Runs on notes. A note is renamed, its text is edited, and then it is deleted: its
 operations are no longer one chain. A text is edited while the stored document is
 pulled: note and document no longer agree. And the renaming comes back from the server
 over the text that was edited since.
 */
module NoteLimits {
  import opened Types
  import opened Repository
  import opened Runs
  import opened Guarantees
  import opened Chains
  import opened Graph
  import opened Limits
  import Carried
  import NoteEdits
  import LocalRepository
  import Splice
  import Pull
  import Push
  import Resilience
  import Scheduler

  const ID := Uuid(1)
  const NOTE := Key(Note, Uuid(1))
  const DOC := Key(DocState, DocStateOf(Uuid(1)))

  function Row(revision: nat, at: Time, slot: SlotId, body: Payload, status: SyncStatus): Entity {
    Entity(1, revision, 0, at, None, 7, 7, Reference(slot), Sha(body), status)
  }

  function Document(text: string): Payload { DocBody(Some(ID), 1, text) }

  /** A synchronized note with its document. */
  function Synchronized(): System {
    Start().(db := Start().db.(
      entities := map[NOTE := Row(0, 0, OfEntity(ID), NoteBody(0, "a"), Clean),
                      DOC := Row(0, 0, OfEntity(DocStateOf(ID)), Document("a"), Clean)],
      vault := map[OfEntity(ID) := NoteBody(0, "a"), OfEntity(DocStateOf(ID)) := Document("a")]))
  }

  function Rename(): Mutation {
    Mutation(1, 5, NOTE, Update, 1, 1, 1, 0, 1, None, 7, 7, Json(0), Sha(Json(0)), None, [])
  }

  function Title(): Payload { NoteBody(1, "a") }

  function RenameOp(): Op {
    QueuedOp(Rename().(payload := Reference(OfOp(1)), payloadHash := Sha(Title()), slot := Some(OfOp(1))), [])
  }

  function Renamed(): System {
    Synchronized().(
      db := Synchronized().db.(
        entities := map[NOTE := Row(1, 1, OfOp(1), Title(), SyncStatus.Pending),
                        DOC := Row(0, 0, OfEntity(DocStateOf(ID)), Document("a"), Clean)],
        outbox := map[1 := RenameOp()],
        vault := Synchronized().db.vault[OfOp(1) := Title()]),
      history := map[1 := Entry(0, Some(9), Queued)], clock := 1)
  }

  /** The user changes the text from "a" to "b" at time 2. */
  function Typing(): NoteEdits.EditInput {
    NoteEdits.EditInput(2, 5, ID, "b", 7, 2, true, 8)
  }

  function TypedOp(): Op {
    Op(2, 5, Key(DocUpdate, ID), Update, 1, 2, Reference(OfOp(2)), Sha(Json(8)), Some(OfOp(2)), [], None, Waiting, 0, None, 2)
  }

  function Typed(): NoteEdits.Prepared {
    NoteEdits.Prepared(ID, 1, 1, "a", OfOp(1), NoteBody(1, "b"), 0, OfEntity(DocStateOf(ID)), Document("b"), 7, Json(8), TypedOp())
  }

  function Rewritten(): System {
    Renamed().(
      db := Renamed().db.(
        entities := map[NOTE := Row(2, 2, OfOp(1), NoteBody(1, "b"), SyncStatus.Pending),
                        DOC := Row(1, 2, OfEntity(DocStateOf(ID)), Document("b"), SyncStatus.Pending)],
        outbox := map[1 := RenameOp(), 2 := TypedOp()],
        vault := Renamed().db.vault[OfOp(2) := Json(8)][OfOp(1) := NoteBody(1, "b")][OfEntity(DocStateOf(ID)) := Document("b")]),
      history := map[1 := Entry(0, Some(9), Queued), 2 := Entry(1, Some(9), Queued)], clock := 2)
  }

  function Deletion(): Mutation {
    Mutation(3, 5, NOTE, Delete, 1, 3, 3, 0, 3, Some(3), 7, 7, Empty, Sha(Empty), None, [])
  }

  function Deleted(): System {
    Rewritten().(db := Added(Rewritten().db, Deletion(), [2]),
                 history := Rewritten().history[3 := Entry(2, Some(9), Queued)], clock := 3)
  }

  lemma RenameCommits()
    ensures ProtectedCommit(Synchronized().db, Rename(), Title()).0 == Renamed().db
  {
    var db := Synchronized().db.(vault := Synchronized().db.vault[OfOp(1) := Title()]);
    var sealed := Rename().(payload := Reference(OfOp(1)), payloadHash := Sha(Title()), slot := Some(OfOp(1)));
    assert Predecessor(db.outbox, sealed) == None;
    assert ValidTransition(sealed, db.entities);
    assert Commit(db, sealed) == Ok(Added(db, sealed, []));
    assert Added(db, sealed, []).entities == Renamed().db.entities;
  }

  lemma RenameSteps()
    ensures Steps(Synchronized(), MutateProtected(Rename(), Title()), Renamed())
  {
    RenameCommits();
  }

  /** The edit is what the editor prepares on the renamed note. */
  lemma TypingIsPrepared()
    ensures NoteEdits.Prepare(Renamed().db, Typing()) == Ok(Typed())
  {
    Splice.ReplacedIsNext("a", "b");
    RenamedIsEditable();
    NothingTyped();
  }

  lemma RenamedIsEditable()
    ensures NoteEdits.Editable(Renamed().db, ID)
  {
  }

  lemma NothingTyped()
    ensures NoteEdits.DocumentUpdate(Renamed().db, Typing()) == TypedOp()
  {
    assert NoteEdits.UpdatesOf(Renamed().db.outbox, ID) == map[];
  }

  lemma TypingSteps()
    ensures Steps(Renamed(), EditNote(Typed()), Rewritten())
  {
    var db := NoteEdits.CommitEdit(Renamed().db, Typed());
    assert db.Ok? && db.value.entities == Rewritten().db.entities;
    assert db.value.outbox == Rewritten().db.outbox;
  }

  lemma DeletionFollows(outbox: map<OpId, Op>)
    requires outbox == map[1 := RenameOp(), 2 := TypedOp()]
    ensures Keyed(outbox) && Predecessor(outbox, Deletion()) == Some(2)
  {
    var related := RelatedTo(outbox, Deletion()) - {3};
    assert related == outbox;
    LocalRepository.LatestIsUnique(related, 2);
  }

  lemma DeletionDeps(db: Db)
    requires db.outbox == map[1 := RenameOp(), 2 := TypedOp()]
    ensures Keyed(db.outbox) && CommitDeps(db, Deletion()) == Ok([2])
  {
    DeletionFollows(db.outbox);
    assert Deletion().deps + [2] == [2];
  }

  lemma DeletionAllowed(outbox: map<OpId, Op>)
    requires outbox == map[1 := RenameOp(), 2 := TypedOp()]
    ensures DeleteAllowed(outbox, Deletion())
  {
  }

  lemma DeletionCommits(db: Db)
    requires db.outbox == map[1 := RenameOp(), 2 := TypedOp()]
    requires NOTE in db.entities && db.entities[NOTE] == Row(2, 2, OfOp(1), NoteBody(1, "b"), SyncStatus.Pending)
    ensures Keyed(db.outbox) && Commit(db, Deletion()) == Ok(Added(db, Deletion(), [2]))
  {
    DeletionDeps(db);
    DeletionAllowed(db.outbox);
    CommitIs(db, Deletion(), [2]);
  }

  lemma DeletionIsProtected(db: Db)
    requires Commit(db, Deletion()).Ok?
    ensures ProtectedCommit(db, Deletion(), Empty).0 == Commit(db, Deletion()).value
  {
  }

  lemma DeletionSteps()
    ensures Steps(Rewritten(), MutateProtected(Deletion(), Empty), Deleted())
  {
    DeletionCommits(Rewritten().db);
    DeletionIsProtected(Rewritten().db);
    ProtectedSteps(Rewritten(), Deletion(), Empty);
  }

  lemma ProtectedSteps(s: System, m: Mutation, body: Payload)
    requires MutationAllowed(s, m)
    ensures var t := Issue(s, ProtectedCommit(s.db, m, body).0, m.op);
            Steps(s, MutateProtected(m, body), t.(clock := s.clock + 1))
  {
  }

  lemma OneIsChained(outbox: map<OpId, Op>)
    requires outbox == map[1 := RenameOp(), 2 := TypedOp()]
    ensures Chained(outbox, NOTE)
  {
  }

  lemma NotChained(outbox: map<OpId, Op>)
    requires outbox == map[1 := RenameOp(), 2 := TypedOp(), 3 := QueuedOp(Deletion(), [2])]
    ensures !Chained(outbox, NOTE)
  {
    assert InOrder(outbox, NOTE, 1, 3);
    assert forall d :: !Edge(outbox, 2, d);
    if DependsOn(outbox, 3, 1) {
      var d :| Edge(outbox, 3, d) && Reaches(outbox, d, 1);
      ReachesCases(outbox, 2, 1);
    }
  }

  /** The deletion comes last but depends on the edit of the text alone, so it may be
      applied before the renaming. */
  lemma DeletionBreaksChain()
    ensures NoteEdits.Prepare(Renamed().db, Typing()) == Ok(Typed())
    ensures Chained(Rewritten().db.outbox, NOTE)
    ensures RunsTo(Synchronized(), [MutateProtected(Rename(), Title()), EditNote(Typed()), MutateProtected(Deletion(), Empty)], Deleted())
    ensures !Chained(Deleted().db.outbox, NOTE)
  {
    TypingIsPrepared();
    RenameSteps();
    TypingSteps();
    DeletionSteps();
    OneIsChained(Rewritten().db.outbox);
    NotChained(Deleted().db.outbox);
    ThreeSteps(Synchronized(), MutateProtected(Rename(), Title()), Renamed(), EditNote(Typed()), Rewritten(),
               MutateProtected(Deletion(), Empty), Deleted());
  }

  // A document pulled between the halves of an edit

  function TypedEarly(): NoteEdits.Prepared {
    NoteEdits.Prepared(ID, 0, 1, "a", OfEntity(ID), NoteBody(0, "b"), 0, OfEntity(DocStateOf(ID)), Document("b"), 7, Json(8), TypedOp())
  }

  /** Another device's text, as the document has it; the note's own change comes with the next page. */
  function DocumentPage(): Page {
    Page(5, 9, 0, 1, true, [Change(1, 90, DOC, 2, 1, false, None, Document("c"), Sha(Document("c")))])
  }

  function PulledRow(): Entity {
    Entity(2, 0, 0, 1, None, 7, 7, Reference(OfOp(90)), Sha(Document("c")), Clean)
  }

  function Between(): System {
    Synchronized().(
      db := Synchronized().db.(
        entities := map[NOTE := Row(0, 0, OfEntity(ID), NoteBody(0, "a"), Clean), DOC := PulledRow()],
        vault := Synchronized().db.vault[OfOp(90) := Document("c")],
        sync := Some(SyncRow(5, Some(9), 1, Ready, None))),
      clock := 1)
  }

  function Apart(): System {
    Between().(
      db := Between().db.(
        entities := map[NOTE := Row(1, 2, OfEntity(ID), NoteBody(0, "b"), SyncStatus.Pending),
                        DOC := PulledRow().(localRevision := 1, updatedAt := 2, payloadHash := Sha(Document("b")),
                                            status := SyncStatus.Pending)],
        outbox := map[2 := TypedOp()],
        vault := Between().db.vault[OfOp(2) := Json(8)][OfEntity(ID) := NoteBody(0, "b")][OfEntity(DocStateOf(ID)) := Document("b")]),
      history := map[2 := Entry(1, Some(9), Queued)], clock := 2)
  }

  lemma EarlyIsPrepared()
    ensures NoteEdits.Prepare(Synchronized().db, Typing()) == Ok(TypedEarly())
  {
    var db := Synchronized().db;
    assert NoteEdits.UpdatesOf(db.outbox, ID) == map[];
    Splice.ReplacedIsNext("a", "b");
    assert NoteEdits.Editable(db, ID);
  }

  lemma DocumentArrives()
    ensures Pull.Receive(Synchronized().db, 5, DocumentPage()) == Ok(Between().db)
  {
    var db, changes := Synchronized().db, DocumentPage().changes;
    assert changes[..0] == [];
    assert Pull.SealChanges(db.vault, changes) == Between().db.vault;
    var sealed := db.(vault := Between().db.vault);
    PullOne(sealed, 5, changes[0]);
    assert Pull.Overwrite(sealed.entities, 5, changes[0]) == Between().db.entities;
  }

  lemma DocumentSteps()
    ensures Steps(Synchronized(), PullAnswered(DocumentPage()), Between())
  {
    DocumentArrives();
  }

  lemma EarlySteps()
    ensures Steps(Between(), EditNote(TypedEarly()), Apart())
  {
    var db := NoteEdits.CommitEdit(Between().db, TypedEarly());
    assert db.Ok? && db.value.entities == Apart().db.entities;
  }

  /** The edit is committed, and the note shows it; the document shows what was pulled,
      under the digest of the edit, and the note cannot be edited any more. */
  lemma DocumentFallsBehind()
    ensures NoteEdits.Prepare(Synchronized().db, Typing()) == Ok(TypedEarly())
    ensures RunsTo(Synchronized(), [PullAnswered(DocumentPage()), EditNote(TypedEarly())], Apart())
    ensures NOTE in Apart().db.entities && NoteEdits.Opened(Apart().db, NOTE) == Some(NoteBody(0, "b"))
    ensures DOC in Apart().db.entities && NoteEdits.Opened(Apart().db, DOC) == Some(Document("c"))
    ensures Apart().db.entities[DOC].payloadHash == Sha(Document("b"))
    ensures !NoteEdits.Editable(Apart().db, ID)
  {
    EarlyIsPrepared();
    DocumentSteps();
    EarlySteps();
    TwoSteps(Synchronized(), PullAnswered(DocumentPage()), Between(), EditNote(TypedEarly()), Apart());
  }

  // The echo of an operation

  /** The renaming is sent, and the text edited while the request waits. */
  function RenameSent(): System {
    Renamed().(sent := Some(Sent([RenameOp()], 5, 9)), clock := 2)
  }

  function TextEdited(): System {
    RenameSent().(db := Rewritten().db, history := map[1 := Entry(0, Some(9), Queued), 2 := Entry(2, Some(9), Queued)], clock := 3)
  }

  function RenameAcked(): seq<OpResult> { [Acked(1, false, 2, 1)] }

  function NoteAcked(): Entity { Row(2, 2, OfOp(1), NoteBody(1, "b"), SyncStatus.Pending).(serverVersion := 2) }

  function Settled1(): System {
    TextEdited().(
      db := Rewritten().db.(entities := Rewritten().db.entities[NOTE := NoteAcked()], outbox := map[2 := TypedOp()]),
      sent := None,
      history := map[1 := Entry(0, Some(9), Acknowledged(NOTE, 1)), 2 := Entry(2, Some(9), Queued)], clock := 4)
  }

  /** The server's log has the renaming as it was sent. */
  function Echo(): Change { Change(1, 1, NOTE, 2, 1, false, None, Title(), Sha(Title())) }

  function EchoPage(): Page { Page(5, 9, 0, 1, false, [Echo()]) }

  function Echoed(): System
    requires Pull.Receive(Settled1().db, 5, EchoPage()).Ok?
  {
    Settled1().(db := Pull.Receive(Settled1().db, 5, EchoPage()).value, clock := 5)
  }

  lemma SendSteps()
    ensures Steps(Renamed(), SendPush([RenameOp()]), RenameSent())
  {
    assert Scheduler.DeviceRows(Renamed().db.outbox, 5) == map[1 := RenameOp()];
    OnlyIsListed(Scheduler.DeviceRows(Renamed().db.outbox, 5), RenameOp());
  }

  lemma TypingCommits()
    ensures NoteEdits.CommitEdit(Renamed().db, Typed()) == Ok(Rewritten().db)
  {
    var db := NoteEdits.CommitEdit(Renamed().db, Typed());
    assert db.Ok? && db.value.entities == Rewritten().db.entities;
    assert db.value.outbox == Rewritten().db.outbox;
  }

  lemma EditSteps()
    ensures Steps(RenameSent(), EditNote(Typed()), TextEdited())
  {
    TypingCommits();
  }

  lemma AckIs(db: Db)
    requires db == Rewritten().db
    ensures Push.Ack(db, RenameOp(), 2) == Settled1().db
  {
    assert db.outbox - {1} == map[2 := TypedOp()];
    assert 2 in Related(db.outbox - {1}, NOTE);
    assert Push.AckEntities(db.entities, db.outbox - {1}, RenameOp(), 2) == Settled1().db.entities;
    assert Push.AckConflicts(db.conflicts, RenameOp()) == db.conflicts;
  }

  lemma AckSteps()
    ensures Steps(TextEdited(), PushAnswered(RenameAcked()), Settled1())
  {
    var db := TextEdited().db;
    assert Push.SealRemotes(db.vault, RenameAcked()) == db.vault;
    FoldOne(db, RenameOp(), RenameAcked()[0]);
    AckIs(db);
    AckHistory();
  }

  lemma AckHistory()
    ensures SettleAcked(TextEdited().history, [RenameOp()], RenameAcked()) == Settled1().history
  {
    assert [RenameOp()][..0] == [] && RenameAcked()[..0] == [];
  }

  /** The note with its older text, under the digest of the newer one, and a conflict with
      the same body on both sides. */
  ghost predicate TextLost(db: Db) {
    && NOTE in db.entities && db.entities[NOTE] == NoteAcked().(status := Conflicted)
    && OfOp(1) in db.vault && db.vault[OfOp(1)] == Title()
    && Pulled(1, NOTE) in db.conflicts
    && var c := db.conflicts[Pulled(1, NOTE)];
    && c.key == NOTE && c.localPayload == Reference(OfOp(1)) && c.remotePayload == Reference(OfOp(1))
    && c.localHash == Sha(NoteBody(1, "b"))
  }

  lemma EchoReceived(db: Db)
    requires db.sync == Some(SyncRow(5, Some(9), 0, Ready, None))
    ensures Pull.Receive(db, 5, EchoPage())
            == Ok(Pull.Step(db.(vault := db.vault[OfOp(1) := Title()]), 5, Echo()).(
                    sync := Pull.Advance(Pull.Step(db.(vault := db.vault[OfOp(1) := Title()]), 5, Echo()).sync, 1)))
  {
    assert EchoPage().changes[..0] == [];
    assert Pull.SealChanges(db.vault, EchoPage().changes) == db.vault[OfOp(1) := Title()];
    PullOne(db.(vault := db.vault[OfOp(1) := Title()]), 5, Echo());
    assert Pull.InSequence(0, 1, EchoPage().changes);
  }

  lemma EchoArrives()
    ensures Pull.Receive(Settled1().db, 5, EchoPage()).Ok? && TextLost(Pull.Receive(Settled1().db, 5, EchoPage()).value)
  {
    EchoReceived(Settled1().db);
    EchoRaises(Settled1().db.(vault := Settled1().db.vault[OfOp(1) := Title()]));
  }

  lemma EchoRaises(db: Db)
    requires NOTE in db.entities && db.entities[NOTE] == NoteAcked() && OfOp(1) in db.vault && db.vault[OfOp(1)] == Title()
    ensures TextLost(Pull.Step(db, 5, Echo()))
  {
  }

  lemma PullSteps(s: System, page: Page)
    requires s.sent.None? && Pull.CanResume(s.db.sync, Device(s)) && Pull.Receive(s.db, Device(s), page).Ok?
    ensures Steps(s, PullAnswered(page), s.(db := Pull.Receive(s.db, Device(s), page).value, clock := s.clock + 1))
  {
  }

  lemma LocalSideIsLost(db: Db, r: Resilience.Request)
    requires TextLost(db) && r.conflict == Pulled(1, NOTE) && r.choice.KeepLocal?
    ensures Resilience.Resolve(db, r).Err?
  {
  }

  lemma EchoRuns()
    requires Pull.Receive(Settled1().db, 5, EchoPage()).Ok?
    ensures RunsTo(Synchronized(), [MutateProtected(Rename(), Title()), SendPush([RenameOp()])]
                                   + [EditNote(Typed()), PushAnswered(RenameAcked()), PullAnswered(EchoPage())], Echoed())
  {
    RenameSteps();
    SendSteps();
    EditSteps();
    AckSteps();
    PullSteps(Settled1(), EchoPage());
    ThreeSteps(RenameSent(), EditNote(Typed()), TextEdited(), PushAnswered(RenameAcked()), Settled1(),
               PullAnswered(EchoPage()), Echoed());
    TwoFirst(Synchronized(), MutateProtected(Rename(), Title()), Renamed(), SendPush([RenameOp()]), RenameSent(),
             [EditNote(Typed()), PushAnswered(RenameAcked()), PullAnswered(EchoPage())], Echoed());
  }

  lemma TwoFirst(s0: System, e0: Event, s1: System, e1: Event, s2: System, rest: seq<Event>, t: System)
    requires Steps(s0, e0, s1) && Steps(s1, e1, s2) && RunsTo(s2, rest, t)
    ensures RunsTo(s0, [e0, e1] + rest, t)
  {
    RunOne(s1, e1, rest, t);
    RunOne(s0, e0, [e1] + rest, t);
    assert [e0, e1] + rest == [e0] + ([e1] + rest);
  }

  /** Before the pull the note shows the text the user has typed, afterwards the one before,
      under the digest of the former. The conflict that is raised has the same body on both
      sides, and its local side cannot be kept. */
  lemma EchoOverwritesText()
    ensures NoteEdits.Prepare(Renamed().db, Typing()) == Ok(Typed())
    ensures Pull.Receive(Settled1().db, 5, EchoPage()).Ok?
    ensures RunsTo(Synchronized(), [MutateProtected(Rename(), Title()), SendPush([RenameOp()])]
                                   + [EditNote(Typed()), PushAnswered(RenameAcked()), PullAnswered(EchoPage())], Echoed())
    ensures NoteEdits.Opened(Settled1().db, NOTE) == Some(NoteBody(1, "b"))
    ensures TextLost(Echoed().db) && NoteEdits.Opened(Echoed().db, NOTE) == Some(NoteBody(1, "a"))
    ensures forall r: Resilience.Request | r.conflict == Pulled(1, NOTE) && r.choice.KeepLocal? ::
              Resilience.Resolve(Echoed().db, r).Err?
  {
    TypingIsPrepared();
    EchoArrives();
    EchoRuns();
    forall r: Resilience.Request | r.conflict == Pulled(1, NOTE) && r.choice.KeepLocal?
      ensures Resilience.Resolve(Echoed().db, r).Err?
    {
      LocalSideIsLost(Echoed().db, r);
    }
  }

  /** Already before that: the renaming waits with the digest of the text it was made on,
      and the text that would be sent with it is another one. */
  lemma RenamingCarriesOtherText()
    ensures RunsTo(Synchronized(), [MutateProtected(Rename(), Title()), EditNote(Typed())], Rewritten())
    ensures var db := Rewritten().db;
            && 1 in db.outbox && db.outbox[1].state.Waiting? && db.outbox[1].slot == Some(OfOp(1))
            && OfOp(1) in db.vault && db.outbox[1].payloadHash != Sha(db.vault[OfOp(1)])
            && !Carried.Carries(db.outbox, db.vault)
  {
    RenameSteps();
    TypingSteps();
    TwoSteps(Synchronized(), MutateProtected(Rename(), Title()), Renamed(), EditNote(Typed()), Rewritten());
  }
}
