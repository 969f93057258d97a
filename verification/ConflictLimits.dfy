/**
 A run on which the user takes over an old remote side: a pull raises a conflict, a snapshot
 passes a newer change to the entity, and the conflict is accepted as it stands.
 */
module ConflictLimits {
  import opened Types
  import opened Repository
  import opened Runs
  import opened DirtyWork
  import opened ServerLog
  import opened Replication
  import opened Divergence
  import opened Limits
  import opened SnapshotLimits
  import Bootstrap
  import Contents
  import Manifests
  import Pull
  import Rebootstrap
  import Resilience
  import Safety
  import Snapshots

  const CONFLICT := Pulled(97, KEY)

  /** Another device's change, in the log while the first edit waits. */
  function Ahead(): World {
    Committed().(log := [Row(1, 98, 1), Row(2, 97, 20)], head := 2)
  }

  function SecondPage(): Page { Page(5, 9, 1, 2, false, [Row(2, 97, 20)]) }

  function Held(): Op { Op5().(state := InConflict, lastError := Some(SyncConflict)) }

  function RaisedRow(): ConflictRow {
    Pull.RaisedConflict(Mine(), Row(2, 97, 20), Some(1), map[1 := Op5()])
  }

  function Raised(): World {
    Ahead().(s := Ahead().s.(
               db := Ahead().s.db.(entities := map[KEY := Mine().(status := Conflicted)], outbox := map[1 := Held()],
                                   conflicts := map[CONFLICT := RaisedRow()], sync := Some(SyncRow(5, Some(9), 2, Ready, None))),
               clock := 2))
  }

  function Beyond(): World {
    Raised().(log := [Row(1, 98, 1), Row(2, 97, 20), Row(3, 99, 30)], head := 3)
  }

  function Ready3(): World {
    Beyond().(published := map[4 := [Piece()]])
  }

  function Take(): Resilience.Request {
    Resilience.Request(CONFLICT, 50, 5, 7, 5, KeepRemote, None)
  }

  lemma SecondPageArrives()
    ensures Pull.Receive(Ahead().s.db, 5, SecondPage()) == Ok(Raised().s.db)
  {
    var db := Ahead().s.db;
    assert Pull.SealChanges(db.vault, [Row(2, 97, 20)]) == db.vault;
    PullOne(db, 5, Row(2, 97, 20));
    ChangeRaises(db);
    assert Pull.InSequence(1, 2, [Row(2, 97, 20)]);
  }

  lemma ChangeRaises(db: Db)
    requires db.entities == map[KEY := Mine()] && db.outbox == map[1 := Op5()] && db.conflicts == map[]
    ensures Pull.Step(db, 5, Row(2, 97, 20))
            == db.(entities := map[KEY := Mine().(status := Conflicted)], outbox := map[1 := Held()],
                   conflicts := map[CONFLICT := RaisedRow()])
  {
    assert Related(db.outbox, KEY) == db.outbox;
    assert Latest(db.outbox) == Some(1);
    assert Pull.HoldRelated(db.outbox, KEY) == map[1 := Held()];
    assert db.entities[KEY := Mine().(status := Conflicted)] == map[KEY := Mine().(status := Conflicted)];
    assert db.conflicts[CONFLICT := RaisedRow()] == map[CONFLICT := RaisedRow()];
  }

  lemma AheadLog()
    ensures IsWindow(Ahead().log, 1, 2, [Row(2, 97, 20)])
  {
  }

  lemma ToAhead()
    ensures Moves(Committed(), Append(Row(2, 97, 20)), Ahead())
  {
  }

  lemma ToRaised()
    ensures Moves(Ahead(), Client(PullAnswered(SecondPage())), Raised())
  {
    PullSteps();
    AheadLog();
  }

  lemma PullSteps()
    ensures Allowed(Ahead().s, PullAnswered(SecondPage())) && Next(Ahead().s, PullAnswered(SecondPage())) == Raised().s
  {
    SecondPageArrives();
  }

  lemma ToBeyond()
    ensures Moves(Raised(), Append(Row(3, 99, 30)), Beyond())
  {
  }

  lemma LastBeyond(k: Key)
    ensures Last(Beyond().log, k, 3) == if k == KEY then Some(Row(3, 99, 30)) else None
  {
    var log := Beyond().log;
    assert log[..2] == [Row(1, 98, 1), Row(2, 97, 20)];
    assert log[..2][..1] == [Row(1, 98, 1)];
    assert Last([Row(1, 98, 1)], k, 3) == if k == KEY then Some(Row(1, 98, 1)) else Last([], k, 3);
    assert Last(log[..2], k, 3) == if k == KEY then Some(Row(2, 97, 20)) else Last([Row(1, 98, 1)], k, 3);
  }

  lemma ToReady3()
    ensures Moves(Beyond(), Publish([Piece()]), Ready3())
  {
    PieceIsSnapshot();
  }

  lemma PieceIsSnapshot()
    ensures Rebootstrap.SnapshotOf([Piece()], Beyond().log)
  {
    PieceDescribes();
    forall k
      ensures Last(Beyond().log, k, 3) == if k == KEY then Some(Row(3, 99, 30)) else None
    {
      LastBeyond(k);
    }
  }

  /** What there is to see before and after the switch. */
  ghost predicate Marked(w: World, cursor: nat) {
    && w.s.db.entities == map[KEY := Mine().(status := Conflicted)] && w.s.db.outbox == map[1 := Held()]
    && w.s.db.conflicts == map[CONFLICT := RaisedRow()] && w.s.db.vault == map[]
    && w.s.db.sync == Some(SyncRow(5, Some(9), cursor, Ready, None))
    && w.s.history == map[1 := Entry(0, Some(9), Queued)] && w.s.sent.None? && w.log == Beyond().log
  }

  lemma MarkedIsKept(db: Db)
    requires db == Ready3().s.db
    ensures Snapshots.ValidSnapshot([Piece()])
    ensures var v := Rebootstrap.After(db, [Piece()]);
            && v.entities == map[KEY := Mine().(status := Conflicted)] && v.outbox == map[1 := Held()]
            && v.sync == Some(SyncRow(5, Some(9), 3, Ready, None))
  {
    PieceDescribes();
    assert Bootstrap.Preserved(db.entities, false) == db.entities;
    Overlaid(Snapshots.Described([Piece()]), Mine().(status := Conflicted));
  }

  lemma PieceCompletes(db: Db)
    requires db == Ready3().s.db
    ensures Activates(db, Piece(), 5) && Bootstrap.SealRecords(db.vault, Piece().records) == map[]
  {
    var c := Piece();
    assert c.records[..0] == [];
    var m := Bootstrap.NextManifest(Bootstrap.Previous(db, c), c);
    assert m.received == [Received(0, c.chunkChecksum)];
    assert Bootstrap.Admit(db, c) == Ok(false);
    assert Bootstrap.Complete(db, c, m) == Ok(());
    assert db.(vault := map[]) == db;
  }

  lemma PieceTaken(db: Db)
    requires db == Ready3().s.db
    ensures var t := Bootstrap.Stage(db, Piece(), 5);
            && t.conflicts == db.conflicts && t.vault == map[]
            && Rebootstrap.Visible(t, map[KEY := Mine().(status := Conflicted)], map[1 := Held()], Some(SyncRow(5, Some(9), 3, Ready, None)))
  {
    PieceCompletes(db);
    MarkedIsKept(db);
    Ready3IsFine();
    Rebootstrap.StageSwitches(db, Ready3().published, Ready3().log, Ready3().head, Piece());
    Safety.StageKeepsConflicts(db, Piece());
    Contents.StageVault(db, Piece());
  }

  lemma Ready3IsFine()
    ensures Manifests.StagingOk(Ready3().s.db) && Rebootstrap.Served(Ready3().s.db.manifests, Ready3().published)
    ensures Rebootstrap.AllPublished(Ready3().published, Ready3().log, Ready3().head)
  {
    ToReady3();
  }

  function AfterSwitch(): World { Play(Ready3(), Client(StageChunk(Piece()))) }

  lemma ToPassed()
    ensures Plays(Ready3(), Client(StageChunk(Piece()))) && Marked(AfterSwitch(), 3)
  {
    PieceTaken(Ready3().s.db);
    BeforeSwitch();
    SwitchPasses(Ready3());
  }

  lemma BeforeSwitch()
    ensures Marked(Ready3(), 2) && Plays(Ready3(), Client(StageChunk(Piece())))
  {
  }

  lemma SwitchPasses(w: World)
    requires Marked(w, 2) && Plays(w, Client(StageChunk(Piece())))
    requires var t := Bootstrap.Stage(w.s.db, Piece(), 5);
             && t.conflicts == w.s.db.conflicts && t.vault == map[]
             && Rebootstrap.Visible(t, map[KEY := Mine().(status := Conflicted)], map[1 := Held()], Some(SyncRow(5, Some(9), 3, Ready, None)))
    ensures Marked(Play(w, Client(StageChunk(Piece()))), 3)
  {
    StagePlays(w, Piece());
  }

  lemma StaleIsAccepted(w: World)
    requires Marked(w, 3)
    ensures Plays(w, Client(Resolve(Take()))) && Disposes(w.s.db, RaisedRow())
    ensures var t := Play(w, Client(Resolve(Take())));
            && LeftBehind(t.s.db.entities, Stand(t, {}), KEY) && t.s.db.outbox == map[]
            && t.s.db.entities[KEY].serverVersion == 2
  {
    StaleIsTaken(w.s.db);
    LastBeyond(KEY);
  }

  lemma StaleIsTaken(db: Db)
    requires db.entities == map[KEY := Mine().(status := Conflicted)] && db.outbox == map[1 := Held()]
    requires db.conflicts == map[CONFLICT := RaisedRow()]
    ensures Resilience.Resolve(db, Take()).Ok? && Disposes(db, RaisedRow())
    ensures var t := Resilience.Resolve(db, Take()).value;
            && t.outbox == map[] && t.sync == db.sync
            && KEY in t.entities && t.entities[KEY].status.Clean? && t.entities[KEY].serverVersion == 2
  {
    assert Resilience.Admissible(db, Take());
    assert Resilience.Selected(db, Take()) == Ok(Json(20));
    assert Resilience.RemoveRelated(db.outbox, RaisedRow()) == map[];
  }

  /** The queue is empty, nothing but the resolution was in any doubt, and the entity is
      clean at version 2 where the log below the cursor has version 3. */
  lemma AcceptanceStrandsEntity()
    ensures exists t ::
              && Unfolds(Home(), [Client(Mutate(Change5())), Append(Row(2, 97, 20)), Client(PullAnswered(SecondPage()))]
                                 + ([Append(Row(3, 99, 30)), Publish([Piece()]), Client(StageChunk(Piece()))]
                                    + [Client(Resolve(Take()))]), t)
              && LeftBehind(t.s.db.entities, Stand(t, {}), KEY) && t.s.db.outbox == map[]
              && t.s.db.entities[KEY].serverVersion == 2
  {
    Move1();
    ToAhead();
    ToRaised();
    ToBeyond();
    ToReady3();
    ToPassed();
    StaleIsAccepted(AfterSwitch());
    var t := Play(AfterSwitch(), Client(Resolve(Take())));
    UnfoldsOne(AfterSwitch(), Client(Resolve(Take())));
    ThreePlayed(Raised(), Append(Row(3, 99, 30)), Beyond(), Publish([Piece()]), Ready3(), Client(StageChunk(Piece())), AfterSwitch(),
                [Client(Resolve(Take()))], t);
    ThreePlayed(Home(), Client(Mutate(Change5())), Committed(), Append(Row(2, 97, 20)), Ahead(), Client(PullAnswered(SecondPage())),
                Raised(), [Append(Row(3, 99, 30)), Publish([Piece()]), Client(StageChunk(Piece()))] + [Client(Resolve(Take()))], t);
  }
}
