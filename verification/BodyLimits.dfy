/**
 How the user loses sight of a body: one chunk of a snapshot is staged and the snapshot is
 discarded, or a commit is made again after it was acknowledged.
 */
module BodyLimits {
  import opened Types
  import opened Repository
  import opened Runs
  import opened Guarantees
  import opened Limits
  import Bodies
  import Bootstrap
  import Push
  import Resilience

  const SOURCE := Key(Evidence, Uuid(3))
  const SLOT := OfEntity(Uuid(3))

  function Shown(): Entity {
    Entity(1, 0, 0, 0, None, 7, 7, Reference(SLOT), Sha(Json(1)), Clean)
  }

  /** A synchronized entity with its body in the vault. */
  function Loaded(): System {
    Start().(db := Start().db.(entities := map[SOURCE := Shown()], vault := map[SLOT := Json(1)]))
  }

  function Newer(): Record { Record(SOURCE, 2, 0, 4, None, 7, 7, Json(2), Sha(Json(2))) }

  /** The first of two chunks. */
  function Part(): Chunk {
    var sum := ChunkSum([Newer()]);
    Chunk(5, 9, 4, 0, 2, 3, SnapshotSum([Received(0, sum), Received(1, ChunkSum([]))]), sum, [Newer()], 4)
  }

  function Staged1(): System {
    Loaded().(db := Loaded().db.(
                vault := map[SLOT := Json(2)],
                manifests := map[4 := Manifest(5, 9, 2, 3, Part().snapshotChecksum, 4, [Received(0, Part().chunkChecksum)], 1, false)],
                staged := map[StagedKey(4, SOURCE) := Staged(0, 0, Newer())]),
              clock := 1)
  }

  function Discarded(): System {
    Loaded().(db := Loaded().db.(vault := map[SLOT := Json(2)]), clock := 2)
  }

  lemma PartIsStaged()
    ensures Bootstrap.Stage(Loaded().db, Part(), 5) == Staged1().db
  {
    var c := Part();
    var sealed := Loaded().db.(vault := Bootstrap.SealRecords(Loaded().db.vault, c.records));
    assert c.records[..0] == [];
    assert sealed.vault == map[SLOT := Json(2)];
    assert Bootstrap.Verify(c, 5).Ok?;
    assert Bootstrap.Admit(sealed, c) == Ok(false);
    assert Bootstrap.StagedRows(c) == map[StagedKey(4, SOURCE) := Staged(0, 0, Newer())];
    assert Bootstrap.NextManifest(None, c).received == [Received(0, c.chunkChecksum)];
  }

  lemma StagingSteps()
    ensures Steps(Loaded(), StageChunk(Part()), Staged1())
  {
    PartIsStaged();
  }

  lemma DiscardSteps()
    ensures Steps(Staged1(), DiscardStaging(4, 5), Discarded())
  {
    var db := Bootstrap.Discard(Staged1().db, 4, 5).value;
    assert db.staged == map[] && db.manifests == map[];
  }

  /** The tables are as before, but the entity no longer shows the body its digest is of. */
  lemma DiscardKeepsNewerBody()
    ensures RunsTo(Loaded(), [StageChunk(Part()), DiscardStaging(4, 5)], Discarded())
    ensures Discarded().db == Loaded().db.(vault := Discarded().db.vault)
    ensures Resilience.Body(Loaded().db.vault, Evidence, Shown().payload) == Some(Json(1))
    ensures Resilience.Body(Discarded().db.vault, Evidence, Shown().payload) == Some(Json(2))
    ensures Shown().payloadHash == Sha(Json(1))
  {
    StagingSteps();
    DiscardSteps();
    TwoSteps(Loaded(), StageChunk(Part()), Staged1(), DiscardStaging(4, 5), Discarded());
  }

  // A commit made twice

  function Again(): Mutation {
    Mutation(1, 5, SOURCE, Update, 1, 1, 1, 0, 1, None, 7, 7, Json(0), Sha(Json(0)), None, [])
  }

  lemma AgainCommits()
    ensures ProtectedCommit(Loaded().db, Again(), Json(5)).1.Ok?
  {
    var db := Loaded().db.(vault := Loaded().db.vault[OfOp(1) := Json(5)]);
    var sealed := Again().(payload := Reference(OfOp(1)), payloadHash := Sha(Json(5)), slot := Some(OfOp(1)));
    assert Predecessor(db.outbox, sealed) == None;
    CommitIs(db, sealed, []);
  }

  lemma Lost(db: Db, m: Mutation, body: Payload, version: nat)
    requires Keyed(db.outbox) && m.key.kind.Evidence? && !m.kind.Delete? && m.op !in db.outbox
    requires ProtectedCommit(db, m, body).1.Ok? && version != m.baseVersion
    ensures var done := ProtectedCommit(db, m, body).0;
            && m.op in done.outbox
            && var acked := Push.Ack(done, done.outbox[m.op], version);
            && Keyed(acked.outbox)
            && m.key in acked.entities && Resilience.Body(acked.vault, Evidence, acked.entities[m.key].payload) == Some(body)
            && var again := ProtectedCommit(acked, m, body).0;
            && m.key in again.entities && Resilience.Body(again.vault, Evidence, again.entities[m.key].payload) == None
  {
    Bodies.RepeatAfterAckLosesBody(db, m, body, version);
  }

  /** The same commit before and after its acknowledgement: the second time it fails, and
      the acknowledged entity has lost its body. */
  lemma RepetitionLosesBody()
    ensures ProtectedCommit(Loaded().db, Again(), Json(5)).1.Ok?
    ensures var done := ProtectedCommit(Loaded().db, Again(), Json(5)).0;
            && 1 in done.outbox
            && var acked := Push.Ack(done, done.outbox[1], 2);
            && Keyed(acked.outbox)
            && SOURCE in acked.entities && Resilience.Body(acked.vault, Evidence, acked.entities[SOURCE].payload) == Some(Json(5))
            && var again := ProtectedCommit(acked, Again(), Json(5)).0;
            && SOURCE in again.entities && Resilience.Body(again.vault, Evidence, again.entities[SOURCE].payload) == None
  {
    AgainCommits();
    Lost(Loaded().db, Again(), Json(5), 2);
  }
}
