/**
 Runs on which a property fails. All of them open with two edits of one entity, the
 first of which the server refuses while the second is still waiting.
 */
module Limits {
  import opened Types
  import opened Repository
  import opened Runs
  import opened Guarantees
  import opened DirtyWork
  import opened Chains
  import opened Graph
  import Push
  import Pull
  import Resilience
  import Scheduler

  const KEY := Key(Open(0), Uuid(0))

  /** A clean entity at version 1, synchronized up to sequence 0. */
  function Start(): System {
    System(Db(map[KEY := Entity(1, 0, 0, 0, None, 7, 7, Json(1), Sha(Json(1)), Clean)], map[], map[], map[],
              Some(SyncRow(5, Some(9), 0, Ready, None)), map[], map[]),
           None, map[], 0, false)
  }

  /** The n-th edit: operation n at revision n. */
  function Edit(n: nat): Mutation {
    Mutation(n, 5, KEY, Update, 1, n, n, 0, n, None, 7, 7, Json(n), Sha(Json(n)), None, [])
  }

  function First(): Op { QueuedOp(Edit(1), []) }
  function Second(): Op { QueuedOp(Edit(2), [1]) }

  /** The server refuses the first edit in favour of a version 2. */
  function Refusal(): ServerConflict {
    ServerConflict(Issued(0), KEY, StatusConflict, 1, Sha(Json(1)), 2, Json(20), Sha(Json(20)), None, {KeepRemote, Dismiss}, 3)
  }

  lemma RunOne(s: System, e: Event, rest: seq<Event>, t: System)
    requires Allowed(s, e) && RunsTo(Next(s, e), rest, t)
    ensures RunsTo(s, [e] + rest, t)
  {
    assert ([e] + rest)[1..] == rest;
  }

  /** One step of a run. */
  ghost predicate Steps(s: System, e: Event, t: System) {
    Allowed(s, e) && Next(s, e) == t
  }

  // The opening

  function Edited(n: nat): Entity { EditedEntity(Edit(n), Start().db.entities) }

  function OneEdit(): System {
    Start().(db := Start().db.(entities := map[KEY := Edited(1)], outbox := map[1 := First()]),
             history := map[1 := Entry(0, Some(9), Queued)], clock := 1)
  }

  function OneSent(): System {
    OneEdit().(sent := Some(Sent([First()], 5, 9)), clock := 2)
  }

  function TwoEdits(): System {
    OneSent().(db := Start().db.(entities := map[KEY := Edited(2)], outbox := map[1 := First(), 2 := Second()]),
               history := map[1 := Entry(0, Some(9), Queued), 2 := Entry(2, Some(9), Queued)], clock := 3)
  }

  function RefusedRow(): ConflictRow { Push.RecordedConflict(Refusal(), First(), Edited(2)) }

  /** The first edit in conflict, the second still waiting. */
  function Conflicting(row: ConflictRow): Db {
    Start().db.(entities := map[KEY := Edited(2).(status := Conflicted)],
                outbox := map[1 := First().(state := InConflict, lastError := Some(SyncConflict)), 2 := Second()],
                conflicts := map[Issued(0) := row])
  }

  function FirstRefused(): System {
    TwoEdits().(db := Conflicting(RefusedRow()), sent := None, clock := 4)
  }

  function Opening(): seq<Event> {
    [Mutate(Edit(1)), SendPush([First()]), Mutate(Edit(2)), PushAnswered([Refused(1, Refusal())])]
  }

  lemma FirstEdit()
    ensures Steps(Start(), Mutate(Edit(1)), OneEdit())
  {
    assert Predecessor(Start().db.outbox, Edit(1)) == None;
    assert CommitDeps(Start().db, Edit(1)) == Ok([]);
    var db := Commit(Start().db, Edit(1)).value;
    assert db.entities == OneEdit().db.entities && db.outbox == OneEdit().db.outbox;
  }

  lemma OnlyIsListed(rows: map<OpId, Op>, op: Op)
    requires rows == map[op.id := op] && op.state.Waiting? && op.deps == []
    ensures Scheduler.ReadyListing(rows, [op])
  {
    assert forall d :: !Edge(rows, op.id, d);
    Scheduler.IdsAreMembers([op]);
    assert Scheduler.Within([op], 1, op.id) by { assert [op][0].id == op.id; }
    assert IsReady(rows, op.id);
  }

  lemma FirstSent()
    ensures Steps(OneEdit(), SendPush([First()]), OneSent())
  {
    assert Scheduler.DeviceRows(OneEdit().db.outbox, 5) == map[1 := First()];
    OnlyIsListed(Scheduler.DeviceRows(OneEdit().db.outbox, 5), First());
  }

  lemma SecondDeps()
    ensures CommitDeps(OneSent().db, Edit(2)) == Ok([1])
  {
    var outbox := OneSent().db.outbox;
    assert RelatedTo(outbox, Edit(2)) - {2} == outbox;
    assert Predecessor(outbox, Edit(2)) == Some(1);
    assert [] + [1] == [1];
  }

  lemma SecondCommit()
    ensures Commit(OneSent().db, Edit(2)) == Ok(TwoEdits().db)
  {
    SecondDeps();
    assert ValidTransition(Edit(2), OneSent().db.entities);
    var db := Added(OneSent().db, Edit(2), [1]);
    assert db.entities == TwoEdits().db.entities && db.outbox == TwoEdits().db.outbox;
  }

  lemma SecondEdit()
    ensures Steps(OneSent(), Mutate(Edit(2)), TwoEdits())
  {
    SecondDeps();
    SecondCommit();
  }

  lemma FoldOne(db: Db, op: Op, r: OpResult)
    ensures Push.Fold(db, [op], [r]) == Push.Step(db, op, r)
  {
    assert [op][..0] == [] && [r][..0] == [];
  }

  lemma FirstAnswered()
    ensures Steps(TwoEdits(), PushAnswered([Refused(1, Refusal())]), FirstRefused())
  {
    var db, t := TwoEdits().db, Push.Refuse(TwoEdits().db, First(), Refusal()).value;
    assert Push.SealRemotes(db.vault, [Refused(1, Refusal())]) == db.vault;
    FoldOne(db, First(), Refused(1, Refusal()));
    assert t.outbox == Conflicting(RefusedRow()).outbox;
    assert t.entities == Conflicting(RefusedRow()).entities;
    assert t.conflicts == Conflicting(RefusedRow()).conflicts;
    assert t == Conflicting(RefusedRow());
    assert SettleAcked(TwoEdits().history, [First()], [Refused(1, Refusal())]) == TwoEdits().history;
  }

  lemma FourSteps(s0: System, e0: Event, s1: System, e1: Event, s2: System, e2: Event, s3: System, e3: Event, s4: System,
                  rest: seq<Event>, t: System)
    requires Steps(s0, e0, s1) && Steps(s1, e1, s2) && Steps(s2, e2, s3) && Steps(s3, e3, s4) && RunsTo(s4, rest, t)
    ensures RunsTo(s0, [e0, e1, e2, e3] + rest, t)
  {
    RunOne(s3, e3, rest, t);
    RunOne(s2, e2, [e3] + rest, t);
    RunOne(s1, e1, [e2] + ([e3] + rest), t);
    RunOne(s0, e0, [e1] + ([e2] + ([e3] + rest)), t);
    assert [e0, e1, e2, e3] + rest == [e0] + ([e1] + ([e2] + ([e3] + rest)));
  }

  lemma FromStart(rest: seq<Event>, t: System)
    requires RunsTo(FirstRefused(), rest, t)
    ensures RunsTo(Start(), Opening() + rest, t)
  {
    FirstEdit();
    FirstSent();
    SecondEdit();
    FirstAnswered();
    FourSteps(Start(), Mutate(Edit(1)), OneEdit(), SendPush([First()]), OneSent(), Mutate(Edit(2)), TwoEdits(),
              PushAnswered([Refused(1, Refusal())]), FirstRefused(), rest, t);
  }

  // Taking over the remote side behind the server's back

  /** Meanwhile another device has produced version 3. */
  function Remote(): Change {
    Change(1, 99, KEY, 3, 4, false, None, Json(30), Sha(Json(30)))
  }

  function RemotePage(): Page { Page(5, 9, 0, 1, false, [Remote()]) }

  function TakeRemote(): Resilience.Request {
    Resilience.Request(Issued(0), 50, 5, 7, 5, KeepRemote, None)
  }

  function AfterPull(): System {
    FirstRefused().(db := Conflicting(Pull.RefreshedRow(RefusedRow(), Remote())).(sync := Some(SyncRow(5, Some(9), 1, Ready, None))),
                    clock := 5)
  }

  function Accepted(): System { Next(AfterPull(), Resolve(TakeRemote())) }

  lemma PullOne(db: Db, device: DeviceId, ch: Change)
    ensures Pull.Fold(db, device, [ch]) == Pull.Step(db, device, ch)
  {
    assert [ch][..0] == [];
  }

  lemma RemotePulled()
    ensures Steps(FirstRefused(), PullAnswered(RemotePage()), AfterPull())
  {
    RemoteReceived();
  }

  lemma RemoteReceived()
    ensures Pull.Receive(FirstRefused().db, 5, RemotePage()) == Ok(AfterPull().db)
  {
    var db := FirstRefused().db;
    assert Pull.SealChanges(db.vault, [Remote()]) == db.vault;
    PullOne(db, 5, Remote());
    assert Pull.Refresh(db.conflicts, Remote()) == AfterPull().db.conflicts;
    assert Pull.InSequence(0, 1, [Remote()]);
  }

  lemma AcceptedIs()
    ensures Steps(AfterPull(), Resolve(TakeRemote()), Accepted())
    ensures var db := Accepted().db;
            && 2 in db.outbox && db.outbox[2] == Second()
            && KEY in db.entities && db.entities[KEY].status.Clean?
  {
    var db := AfterPull().db;
    assert Resilience.Admissible(db, TakeRemote());
    assert Resilience.Selected(db, TakeRemote()) == Ok(Json(30));
    assert Resilience.Silent(db.conflicts[Issued(0)], TakeRemote());
  }

  lemma WorkBefore()
    ensures Work(AfterPull().db)
  {
  }

  lemma WorkAfter(db: Db)
    requires 2 in db.outbox && db.outbox[2] == Second()
    requires KEY in db.entities && db.entities[KEY].status.Clean?
    ensures !Work(db)
  {
    assert !Marked(db.entities, Owner(db.outbox[2].key));
  }

  lemma OneStep(s: System, e: Event, t: System)
    requires Steps(s, e, t)
    ensures RunsTo(s, [e], t)
  {
    RunOne(s, e, [], t);
    assert [e] + [] == [e];
  }

  lemma TwoSteps(s: System, e: Event, t: System, f: Event, u: System)
    requires Steps(s, e, t) && Steps(t, f, u)
    ensures RunsTo(s, [e, f], u)
  {
    OneStep(t, f, u);
    RunOne(s, e, [f], u);
    assert [e] + [f] == [e, f];
  }

  lemma ThreeSteps(s: System, e: Event, t: System, f: Event, u: System, g: Event, v: System)
    requires Steps(s, e, t) && Steps(t, f, u) && Steps(u, g, v)
    ensures RunsTo(s, [e, f, g], v)
  {
    TwoSteps(t, f, u, g, v);
    RunOne(s, e, [f, g], v);
    assert [e] + [f, g] == [e, f, g];
  }

  /** Work is visible until the last event; then the entity is clean with an edit still
      waiting to be sent. */
  lemma SilentAcceptanceHidesWork()
    ensures RunsTo(Start(), Opening() + [PullAnswered(RemotePage()), Resolve(TakeRemote())], Accepted())
    ensures Work(AfterPull().db) && Steps(AfterPull(), Resolve(TakeRemote()), Accepted())
    ensures var db := Accepted().db;
            && 2 in db.outbox && db.outbox[2].state.Waiting? && db.outbox[2].key == KEY
            && KEY in db.entities && db.entities[KEY].status.Clean?
            && !Work(db)
  {
    RemotePulled();
    AcceptedIs();
    WorkBefore();
    WorkAfter(Accepted().db);
    TwoSteps(FirstRefused(), PullAnswered(RemotePage()), AfterPull(), Resolve(TakeRemote()), Accepted());
    FromStart([PullAnswered(RemotePage()), Resolve(TakeRemote())], Accepted());
  }

  // Taking it over through the server

  function Decision(): Op { Resilience.ResolvingOp(RefusedRow(), TakeRemote(), Json(20)) }

  /** The second edit still waits, and the decision beside it. */
  function Decided(): System {
    FirstRefused().(db := Resilience.Requeue(FirstRefused().db, RefusedRow(), TakeRemote(), Json(20)),
                    history := map[1 := Entry(0, Some(9), Removed(KEY)), 2 := Entry(2, Some(9), Queued),
                                   50 := Entry(4, Some(9), Queued)],
                    clock := 5)
  }

  lemma DecisionQueued()
    ensures Resilience.Resolve(FirstRefused().db, TakeRemote()) == Ok(Decided().db)
    ensures Decided().db.outbox == map[2 := Second(), 50 := Decision()]
  {
    var db := FirstRefused().db;
    assert Resilience.Admissible(db, TakeRemote());
    assert Resilience.Selected(db, TakeRemote()) == Ok(Json(20));
    assert Resilience.RemoveRelated(db.outbox, RefusedRow()) == map[2 := Second()];
  }

  lemma DecidedIs()
    ensures Steps(FirstRefused(), Resolve(TakeRemote()), Decided())
  {
    DecisionQueued();
    FirstRemoved();
  }

  lemma FirstRemoved()
    ensures SettleRemoved(FirstRefused(), TakeRemote()) == map[1 := Entry(0, Some(9), Removed(KEY)), 2 := Entry(2, Some(9), Queued)]
  {
    DecisionQueued();
  }

  lemma ChainBefore()
    ensures Chained(FirstRefused().db.outbox, KEY)
  {
    var outbox := FirstRefused().db.outbox;
    assert Edge(outbox, 2, 1);
    ReachesSelf(outbox, 1);
    assert DependsOn(outbox, 2, 1);
  }

  lemma ChainAfter(outbox: map<OpId, Op>)
    requires outbox == map[2 := Second(), 50 := Decision()]
    ensures !Chained(outbox, KEY)
  {
    assert forall d :: !Edge(outbox, 50, d);
    assert InOrder(outbox, KEY, 2, 50) && !DependsOn(outbox, 50, 2);
  }

  /** The decision does not depend on the edit it leaves queued. */
  lemma ResolutionBreaksChain()
    ensures RunsTo(Start(), Opening() + [Resolve(TakeRemote())], Decided())
    ensures Chained(FirstRefused().db.outbox, KEY) && Steps(FirstRefused(), Resolve(TakeRemote()), Decided())
    ensures !Chained(Decided().db.outbox, KEY)
  {
    DecidedIs();
    DecisionQueued();
    ChainBefore();
    ChainAfter(Decided().db.outbox);
    OneStep(FirstRefused(), Resolve(TakeRemote()), Decided());
    FromStart([Resolve(TakeRemote())], Decided());
  }

  // A refused decision

  /** What is left to send: the second edit and the decision. */
  function Both(): seq<Op> { [Second(), Decision()] }

  /** The second edit fails; the decision is refused with a conflict of the same id. */
  function SameConflict(): seq<OpResult> {
    [Failed(2, false, 0), Refused(50, Refusal())]
  }

  function BothSent(): System {
    Decided().(sent := Some(Sent(Both(), 5, 9)), clock := 6)
  }

  function DecisionRefused(): System { Next(BothSent(), PushAnswered(SameConflict())) }

  lemma TwoAreListed(rows: map<OpId, Op>, a: Op, b: Op)
    requires a.id != b.id && rows == map[a.id := a, b.id := b] && a.state.Waiting? && b.state.Waiting?
    requires Before(a, b) && forall x, y :: !Edge(rows, x, y)
    ensures Scheduler.ReadyListing(rows, [a, b])
  {
    var ops := [a, b];
    Scheduler.IdsAreMembers(ops);
    assert Scheduler.Within(ops, 2, a.id) by { assert ops[0].id == a.id; }
    assert Scheduler.Within(ops, 2, b.id) by { assert ops[1].id == b.id; }
    assert IsReady(rows, a.id) && IsReady(rows, b.id);
    assert forall i, d | 0 <= i < 2 && d in ops[i].deps :: !Edge(rows, ops[i].id, d);
  }

  lemma BothAreSent()
    ensures Steps(Decided(), SendPush(Both()), BothSent())
  {
    DecisionQueued();
    BothAreListed(Decided().db.outbox);
  }

  lemma BothAreListed(outbox: map<OpId, Op>)
    requires outbox == map[2 := Second(), 50 := Decision()]
    ensures Scheduler.ReadyListing(Scheduler.DeviceRows(outbox, 5), Both())
  {
    assert Scheduler.DeviceRows(outbox, 5) == outbox;
    TwoAreListed(outbox, Second(), Decision());
  }

  lemma FoldTwo(db: Db, a: Op, b: Op, r: OpResult, q: OpResult)
    requires Push.Step(db, a, r).Ok?
    ensures Push.Fold(db, [a, b], [r, q]) == Push.Step(Push.Step(db, a, r).value, b, q)
  {
    assert [a, b][..1] == [a] && [r, q][..1] == [r];
    FoldOne(db, a, r);
  }

  lemma DecisionFolds(db: Db)
    requires KEY in db.entities && Issued(0) in db.conflicts
    ensures Push.Fold(db, Both(), SameConflict()).Ok?
    ensures var t := Push.Fold(db, Both(), SameConflict()).value;
            && KEY in t.entities && t.entities[KEY].status.Conflicted?
            && t.conflicts.Keys == db.conflicts.Keys && t.conflicts[Issued(0)].status.Dismissed?
  {
    FoldTwo(db, Second(), Decision(), Failed(2, false, 0), Refused(50, Refusal()));
  }

  /** The entity is in conflict, but no conflict is open: the new one was dismissed in
      place of the old one. */
  lemma RefusedDecisionIsDismissed()
    ensures RunsTo(Start(), Opening() + [Resolve(TakeRemote()), SendPush(Both()), PushAnswered(SameConflict())], DecisionRefused())
    ensures var db := DecisionRefused().db;
            && KEY in db.entities && db.entities[KEY].status.Conflicted?
            && forall c | c in db.conflicts :: !db.conflicts[c].status.OpenConflict?
  {
    DecidedIs();
    DecisionQueued();
    BothAreSent();
    DecisionAnswered();
    ThreeSteps(FirstRefused(), Resolve(TakeRemote()), Decided(), SendPush(Both()), BothSent(),
               PushAnswered(SameConflict()), DecisionRefused());
    FromStart([Resolve(TakeRemote()), SendPush(Both()), PushAnswered(SameConflict())], DecisionRefused());
  }

  lemma DecisionAnswered()
    ensures Steps(BothSent(), PushAnswered(SameConflict()), DecisionRefused())
    ensures var db := DecisionRefused().db;
            && KEY in db.entities && db.entities[KEY].status.Conflicted?
            && db.conflicts.Keys == {Issued(0)} && db.conflicts[Issued(0)].status.Dismissed?
  {
    BothAnswered();
  }

  lemma BothAnswered()
    ensures var db := Push.Receive(BothSent().db, Both(), SameConflict());
            && KEY in db.entities && db.entities[KEY].status.Conflicted?
            && db.conflicts.Keys == {Issued(0)} && db.conflicts[Issued(0)].status.Dismissed?
  {
    DecisionQueued();
    DecisionFolds(BothSent().db.(vault := Push.SealRemotes(BothSent().db.vault, SameConflict())));
  }
}
