/**
 A run on which a replica is left behind by a snapshot: an edit is applied, its answer
 is lost, another device goes on, and a snapshot is taken over before the edit is sent
 again.
 */
module SnapshotLimits {
  import opened Types
  import opened Repository
  import opened Runs
  import opened ServerLog
  import opened Replication
  import opened Divergence
  import opened Limits
  import Bootstrap
  import Chains
  import Manifests
  import Push
  import Rebootstrap
  import Scheduler
  import Snapshots

  function Row(n: nat, op: OpId, body: nat): Change {
    Change(n, op, KEY, n, n, false, None, Json(body), Sha(Json(body)))
  }

  /** Synchronized with a log of one change. */
  function Home(): World {
    World(Start().(db := Start().db.(sync := Some(SyncRow(5, Some(9), 1, Ready, None)))), [Row(1, 98, 1)], 1, map[], {})
  }

  lemma HomeIsPoised()
    ensures Poised(Home()) && Steers(Home())
  {
    HomeLast();
    assert forall k :: Chains.OnEntity(Home().s.db.outbox, k) == map[];
  }

  lemma HomeLast()
    ensures forall k :: Last(Home().log, k, 1) == if k == KEY then Some(Row(1, 98, 1)) else None
  {
    assert Home().log[..0] == [];
  }

  function Change5(): Mutation {
    Edit(1).(payload := Json(5), payloadHash := Sha(Json(5)))
  }

  function Op5(): Op { QueuedOp(Change5(), []) }

  function Mine(): Entity { EditedEntity(Change5(), Start().db.entities) }

  function Committed(): World {
    Home().(s := Home().s.(db := Home().s.db.(entities := map[KEY := Mine()], outbox := map[1 := Op5()]),
                           history := map[1 := Entry(0, Some(9), Queued)], clock := 1))
  }

  function Sending(): World {
    Committed().(s := Committed().s.(sent := Some(Sent([Op5()], 5, 9)), clock := 2), requested := {1})
  }

  function Logged2(): World {
    Sending().(log := [Row(1, 98, 1), Row(2, 1, 5)], head := 2)
  }

  function Lost(): World {
    Logged2().(s := Committed().s.(clock := 3))
  }

  function Overtaken(): World {
    Lost().(log := [Row(1, 98, 1), Row(2, 1, 5), Row(3, 99, 30)], head := 3)
  }

  function Entry30(): Record { Record(KEY, 3, 0, 4, None, 7, 7, Json(30), Sha(Json(30))) }

  /** The snapshot at sequence 3 has one chunk with one record. */
  function Piece(): Chunk {
    var sum := ChunkSum([Entry30()]);
    Chunk(5, 9, 4, 0, 1, 3, SnapshotSum([Received(0, sum)]), sum, [Entry30()], 4)
  }

  function Offered(): World {
    Overtaken().(published := map[4 := [Piece()]])
  }

  ghost predicate Moves(w: World, m: Move, w': World) {
    Plays(w, m) && Play(w, m) == w'
  }

  lemma Move1()
    ensures Moves(Home(), Client(Mutate(Change5())), Committed())
  {
    var db := Home().s.db;
    assert Predecessor(db.outbox, Change5()) == None;
    CommitIs(db, Change5(), []);
    assert Added(db, Change5(), []).entities == Committed().s.db.entities;
    assert Added(db, Change5(), []).outbox == Committed().s.db.outbox;
  }

  lemma Move2()
    ensures Moves(Committed(), Client(SendPush([Op5()])), Sending())
  {
    assert Scheduler.DeviceRows(Committed().s.db.outbox, 5) == map[1 := Op5()];
    OnlyIsListed(Scheduler.DeviceRows(Committed().s.db.outbox, 5), Op5());
  }

  lemma Move3()
    ensures Moves(Sending(), Append(Row(2, 1, 5)), Logged2())
  {
  }

  lemma Move4()
    ensures Moves(Logged2(), Client(PushLost), Lost())
  {
  }

  lemma Move5()
    ensures Moves(Lost(), Append(Row(3, 99, 30)), Overtaken())
  {
  }

  lemma LastOf(k: Key)
    ensures Last(Overtaken().log, k, 3) == if k == KEY then Some(Row(3, 99, 30)) else None
  {
    var log := Overtaken().log;
    assert log[..2] == [Row(1, 98, 1), Row(2, 1, 5)];
    assert log[..2][..1] == [Row(1, 98, 1)];
    assert Last([Row(1, 98, 1)], k, 3) == if k == KEY then Some(Row(1, 98, 1)) else Last([], k, 3);
    assert Last(log[..2], k, 3) == if k == KEY then Some(Row(2, 1, 5)) else Last([Row(1, 98, 1)], k, 3);
  }

  lemma PieceDescribes()
    ensures Snapshots.ValidSnapshot([Piece()])
    ensures Snapshots.DescribedKeys([Piece()]) == {KEY} && Snapshots.RecordOf([Piece()], KEY) == Entry30()
  {
    var chunks := [Piece()];
    assert Snapshots.SameSnapshot(chunks, 0);
    assert Snapshots.Sums(chunks) == [Received(0, ChunkSum([Entry30()]))];
    assert (0, 0) in Snapshots.Positions(chunks);
    assert forall p | p in Snapshots.Positions(chunks) :: chunks[p.0].records[p.1] == Entry30();
  }

  lemma Move6()
    ensures Moves(Overtaken(), Publish([Piece()]), Offered())
  {
    PieceDescribes();
    forall k
      ensures Last(Overtaken().log, k, 3) == if k == KEY then Some(Row(3, 99, 30)) else None
    {
      LastOf(k);
    }
  }

  function Switched(): World
    requires Plays(Offered(), Client(StageChunk(Piece())))
  {
    Play(Offered(), Client(StageChunk(Piece())))
  }

  /** What there is to see before and after the switch. */
  ghost predicate Showing(w: World, cursor: nat, sent: Option<Sent>) {
    && w.s.db.entities == map[KEY := Mine()] && w.s.db.outbox == map[1 := Op5()]
    && w.s.db.sync == Some(SyncRow(5, Some(9), cursor, Ready, None))
    && w.s.history == map[1 := Entry(0, Some(9), Queued)]
    && w.s.sent == sent && w.log == Overtaken().log
  }

  lemma PieceActivates(db: Db)
    requires db == Offered().s.db
    ensures Activates(db, Piece(), 5)
  {
    var c := Piece();
    var sealed := db.(vault := Bootstrap.SealRecords(db.vault, c.records));
    var m := Bootstrap.NextManifest(Bootstrap.Previous(sealed, c), c);
    assert m.received == [Received(0, c.chunkChecksum)];
    assert Bootstrap.Admit(sealed, c) == Ok(false);
    assert Bootstrap.Complete(sealed, c, m) == Ok(());
  }

  lemma PieceSwitches(db: Db)
    requires db == Offered().s.db
    ensures Snapshots.ValidSnapshot([Piece()])
    ensures var v := Rebootstrap.After(db, [Piece()]);
            && v.entities == map[KEY := Mine()] && v.outbox == map[1 := Op5()]
            && v.sync == Some(SyncRow(5, Some(9), 3, Ready, None))
  {
    PieceDescribes();
    MineIsPreserved(db.entities);
    Overlaid(Snapshots.Described([Piece()]), Mine());
  }

  lemma MineIsPreserved(entities: map<Key, Entity>)
    requires entities == map[KEY := Mine()]
    ensures Bootstrap.Preserved(entities, false) == map[KEY := Mine()]
  {
  }

  lemma Overlaid(below: map<Key, Entity>, e: Entity)
    requires below.Keys == {KEY}
    ensures below + map[KEY := e] == map[KEY := e]
  {
  }

  lemma OfferedIsFine()
    ensures Manifests.StagingOk(Offered().s.db) && Rebootstrap.Served(Offered().s.db.manifests, Offered().published)
    ensures Rebootstrap.AllPublished(Offered().published, Offered().log, Offered().head)
  {
    Move6();
  }

  lemma Move7()
    ensures Plays(Offered(), Client(StageChunk(Piece())))
    ensures Showing(Switched(), 3, None)
  {
    PieceStaged();
    OfferedShows();
    StageShows(Offered());
  }

  lemma OfferedShows()
    ensures Showing(Offered(), 1, None) && Keyed(Offered().s.db.outbox) && Plays(Offered(), Client(StageChunk(Piece())))
  {
  }

  lemma StageShows(w: World)
    requires Showing(w, 1, None) && Plays(w, Client(StageChunk(Piece())))
    requires Rebootstrap.Visible(Bootstrap.Stage(w.s.db, Piece(), 5), map[KEY := Mine()], map[1 := Op5()],
                                 Some(SyncRow(5, Some(9), 3, Ready, None)))
    ensures Keyed(w.s.db.outbox) && Showing(Play(w, Client(StageChunk(Piece()))), 3, None)
  {
    StagePlays(w, Piece());
  }

  lemma StagePlays(w: World, c: Chunk)
    requires Plays(w, Client(StageChunk(c)))
    ensures var t := Play(w, Client(StageChunk(c)));
            && t.s.db == Bootstrap.Stage(w.s.db, c, c.device)
            && t.s.history == w.s.history && t.s.sent == w.s.sent && t.log == w.log
  {
  }

  lemma PieceStaged()
    ensures var t := Bootstrap.Stage(Offered().s.db, Piece(), 5);
            Rebootstrap.Visible(t, map[KEY := Mine()], map[1 := Op5()], Some(SyncRow(5, Some(9), 3, Ready, None)))
  {
    OfferedIsFine();
    PieceActivates(Offered().s.db);
    PieceSwitches(Offered().s.db);
    Rebootstrap.StageSwitches(Offered().s.db, Offered().published, Offered().log, Offered().head, Piece());
  }

  lemma Move8(w: World)
    requires Showing(w, 3, None)
    ensures Keyed(w.s.db.outbox) && Plays(w, Client(SendPush([Op5()])))
    ensures Showing(Play(w, Client(SendPush([Op5()]))), 3, Some(Sent([Op5()], 5, 9)))
  {
    assert Scheduler.DeviceRows(w.s.db.outbox, 5) == map[1 := Op5()];
    OnlyIsListed(Scheduler.DeviceRows(w.s.db.outbox, 5), Op5());
  }

  function Duplicate(): seq<OpResult> { [Acked(1, true, 2, 2)] }

  lemma Move9(w: World)
    requires Showing(w, 3, Some(Sent([Op5()], 5, 9)))
    ensures Keyed(w.s.db.outbox) && Plays(w, Client(PushAnswered(Duplicate())))
    ensures var t := Play(w, Client(PushAnswered(Duplicate())));
            LeftBehind(t.s.db.entities, Stand(t, {}), KEY) && t.s.db.entities[KEY].serverVersion == 2 && Cursor(t.s.db) == 3
  {
    DuplicateIsHonest(w);
    AnswerAcked(w.s.db);
    LastOf(KEY);
  }

  lemma DuplicateIsHonest(w: World)
    requires Showing(w, 3, Some(Sent([Op5()], 5, 9)))
    ensures Plays(w, Client(PushAnswered(Duplicate())))
  {
    assert w.log[1] == Row(2, 1, 5);
  }

  lemma AnswerAcked(db: Db)
    requires db.entities == map[KEY := Mine()] && db.outbox == map[1 := Op5()] && db.sync.Some?
    ensures var sealed := db.(vault := Push.SealRemotes(db.vault, Duplicate()));
            && Push.Reply(sealed, [Op5()], Duplicate()).Ok?
            && var t := Push.Reply(sealed, [Op5()], Duplicate()).value;
            && t.entities == map[KEY := Mine().(serverVersion := 2, status := Clean)]
            && t.sync == Push.SetBootstrap(db.sync, Ready)
  {
    var sealed := db.(vault := Push.SealRemotes(db.vault, Duplicate()));
    FoldOne(sealed, Op5(), Duplicate()[0]);
    DuplicateAcked(sealed);
  }

  lemma DuplicateAcked(db: Db)
    requires db.entities == map[KEY := Mine()] && db.outbox == map[1 := Op5()]
    ensures Push.Ack(db, Op5(), 2).entities == map[KEY := Mine().(serverVersion := 2, status := Clean)]
  {
    assert Related(db.outbox - {1}, KEY) == map[];
  }

  lemma ThreePlayed(w0: World, m0: Move, w1: World, m1: Move, w2: World, m2: Move, w3: World, rest: seq<Move>, t: World)
    requires Moves(w0, m0, w1) && Moves(w1, m1, w2) && Moves(w2, m2, w3) && Unfolds(w3, rest, t)
    ensures Unfolds(w0, [m0, m1, m2] + rest, t)
  {
    UnfoldsFirst(w2, m2, rest, t);
    UnfoldsFirst(w1, m1, [m2] + rest, t);
    UnfoldsFirst(w0, m0, [m1] + ([m2] + rest), t);
    assert [m0, m1, m2] + rest == [m0] + ([m1] + ([m2] + rest));
  }

  function Applying(): seq<Move> {
    [Client(Mutate(Change5())), Client(SendPush([Op5()])), Append(Row(2, 1, 5))]
  }

  function Overtaking(): seq<Move> {
    [Client(PushLost), Append(Row(3, 99, 30)), Publish([Piece()])]
  }

  function Repeating(): seq<Move> {
    [Client(StageChunk(Piece())), Client(SendPush([Op5()])), Client(PushAnswered(Duplicate()))]
  }

  lemma UpToOffer(rest: seq<Move>, t: World)
    requires Unfolds(Offered(), rest, t)
    ensures Unfolds(Home(), Applying() + (Overtaking() + rest), t)
  {
    Move1();
    Move2();
    Move3();
    Move4();
    Move5();
    Move6();
    ThreePlayed(Logged2(), Client(PushLost), Lost(), Append(Row(3, 99, 30)), Overtaken(), Publish([Piece()]), Offered(), rest, t);
    ThreePlayed(Home(), Client(Mutate(Change5())), Committed(), Client(SendPush([Op5()])), Sending(),
                Append(Row(2, 1, 5)), Logged2(), Overtaking() + rest, t);
  }

  /** The edit is clean at version 2, although the log below the cursor has version 3. */
  lemma SnapshotStrandsEdit()
    ensures exists t ::
              && Unfolds(Home(), Applying() + (Overtaking() + Repeating()), t)
              && LeftBehind(t.s.db.entities, Stand(t, {}), KEY)
              && t.s.db.entities[KEY].serverVersion == 2 && Cursor(t.s.db) == 3
              && Last(t.log, KEY, Cursor(t.s.db)) == Some(Row(3, 99, 30))
  {
    Move7();
    Move8(Switched());
    var sent := Play(Switched(), Client(SendPush([Op5()])));
    Move9(sent);
    var t := Play(sent, Client(PushAnswered(Duplicate())));
    ThreePlayed(Offered(), Repeating()[0], Switched(), Repeating()[1], sent, Repeating()[2], t, [], t);
    assert Repeating() + [] == Repeating();
    UpToOffer(Repeating(), t);
    LastOf(KEY);
  }
}
