/**
 A clean entity has no work left to send: every queued operation that is not
 isolated keeps its entity marked as pending or conflicted.
 */
module DirtyWork {
  import opened Types
  import opened Repository
  import opened Runs
  import opened Safety
  import opened Guarantees
  import Outbox
  import Push
  import Pull
  import Bootstrap
  import Resilience
  import NoteEdits

  ghost predicate Marked(entities: map<Key, Entity>, key: Key) {
    key in entities && !entities[key].status.Clean?
  }

  /** Queued work shows on the entity it belongs to. */
  ghost predicate WorkShows(entities: map<Key, Entity>, outbox: map<OpId, Op>) {
    forall id | id in outbox && !outbox[id].state.Isolated? :: Marked(entities, Owner(outbox[id].key))
  }

  /** Stored documents are only changed through their note. */
  ghost predicate DocumentsApart(db: Db) {
    && (forall id | id in db.outbox :: OrdinaryOp(db.outbox[id]))
    && (forall k | k in db.entities && k.kind.DocUpdate? :: db.entities[k].status.Clean?)
    && (forall c | c in db.conflicts && db.conflicts[c].key.kind.DocState? :: db.conflicts[c].sourceOp.None?)
  }

  predicate OrdinaryOp(op: Op) {
    !op.key.kind.DocState? && (op.key.kind.DocUpdate? ==> op.kind.Update?)
  }

  ghost predicate Work(db: Db) {
    WorkShows(db.entities, db.outbox) && DocumentsApart(db)
  }

  /** Only an operation's own entity counts as its owner. */
  lemma OwnerTouches(key: Key, opKey: Key)
    requires !key.kind.DocUpdate?
    ensures Touches(key, opKey) <==> Owner(opKey) == key
  {
  }

  // Local steps

  lemma QueuedWork(db: Db, db': Db, op: OpId)
    requires Work(db) && op in db'.outbox && OrdinaryOp(db'.outbox[op])
    requires forall id | id in db'.outbox && id != op :: id in db.outbox && db'.outbox[id] == db.outbox[id]
    requires Marked(db'.entities, Owner(db'.outbox[op].key))
    requires forall k | Marked(db.entities, k) :: Marked(db'.entities, k)
    requires forall k | k in db'.entities && k.kind.DocUpdate? :: k in db.entities && db'.entities[k] == db.entities[k]
    requires db'.conflicts == db.conflicts
    ensures Work(db')
  {
  }

  lemma CommitWork(db: Db, m: Mutation)
    requires Keyed(db.outbox) && Work(db) && OrdinaryType(m.key.kind)
    ensures Work(Or(Commit(db, m), db))
  {
    if Commit(db, m).Ok? {
      var t := Commit(db, m).value;
      CommitQueuesOn(db, m);
      CommitFrame(db, m);
      if QueuesOn(db, t, m) { QueuedWork(db, t, m.op); }
    }
  }

  lemma ProtectedWork(db: Db, m: Mutation, body: Payload)
    requires Keyed(db.outbox) && Work(db) && OrdinaryType(m.key.kind)
    ensures Work(ProtectedCommit(db, m, body).0)
  {
    var slot := OfOp(m.op);
    var sealed := m.(payload := Reference(slot), payloadHash := Sha(body), slot := Some(slot));
    if m.kind.Delete? {
      CommitWork(db, m);
    } else if m.op in db.outbox {
      CommitWork(db, sealed);
    } else {
      CommitWork(db.(vault := db.vault[slot := body]), sealed);
    }
  }

  lemma EditWork(db: Db, p: NoteEdits.Prepared)
    requires Work(db) && p.op.key == Key(DocUpdate, p.note) && p.op.kind.Update?
    ensures Work(Or(NoteEdits.CommitEdit(db, p), db))
  {
    if NoteEdits.CommitEdit(db, p).Ok? {
      QueuedWork(db, NoteEdits.CommitEdit(db, p).value, p.op.id);
    }
  }

  // Push

  lemma AckWork(db: Db, op: Op, version: nat)
    requires Work(db) && OrdinaryOp(op)
    ensures Work(Push.Ack(db, op, version))
  {
    var t := Push.Ack(db, op, version);
    var owner := Owner(op.key);
    forall id | id in t.outbox && !t.outbox[id].state.Isolated?
      ensures Marked(t.entities, Owner(t.outbox[id].key))
    {
      OwnerTouches(owner, t.outbox[id].key);
      if Owner(t.outbox[id].key) == owner {
        assert id in Related(t.outbox, owner);
      }
    }
  }

  /** The operations of the batch that are still queued are live. */
  ghost predicate BatchLive(outbox: map<OpId, Op>, batch: seq<Op>) {
    forall i | 0 <= i < |batch| :: OrdinaryOp(batch[i]) && RowLive(outbox, batch[i])
  }

  ghost predicate RowLive(outbox: map<OpId, Op>, op: Op) {
    op.id in outbox ==> outbox[op.id].key == op.key && !outbox[op.id].state.Isolated?
  }

  lemma RefuseWork(db: Db, op: Op, c: ServerConflict)
    requires Work(db) && OrdinaryOp(op) && RowLive(db.outbox, op) && Push.Refuse(db, op, c).Ok?
    requires c.key == op.key || c.key == Owner(op.key)
    ensures Work(Push.Refuse(db, op, c).value)
  {
  }

  lemma FailWork(db: Db, op: Op, error: nat)
    requires Work(db) && OrdinaryOp(op) && RowLive(db.outbox, op)
    ensures Work(Push.Fail(db, op, error))
  {
  }

  lemma StepWork(db: Db, op: Op, r: OpResult)
    requires Work(db) && OrdinaryOp(op) && RowLive(db.outbox, op) && Push.Step(db, op, r).Ok?
    requires r.Refused? ==> r.conflict.key == op.key || r.conflict.key == Owner(op.key)
    ensures Work(Push.Step(db, op, r).value)
  {
    match r {
      case Acked(_, _, version, _) => AckWork(db, op, version);
      case Refused(_, c) => RefuseWork(db, op, c);
      case Failed(_, _, error) => FailWork(db, op, error);
    }
  }

  lemma StepLive(db: Db, op: Op, r: OpResult, other: Op)
    requires RowLive(db.outbox, other) && Push.Step(db, op, r).Ok?
    ensures RowLive(Push.Step(db, op, r).value.outbox, other)
  {
  }

  lemma {:induction false} FoldWork(db: Db, batch: seq<Op>, results: seq<OpResult>, rest: seq<Op>)
    requires Work(db) && |batch| == |results| && Push.Fold(db, batch, results).Ok?
    requires BatchLive(db.outbox, batch) && BatchLive(db.outbox, rest)
    requires ResultsAllowed(batch, results)
    ensures Work(Push.Fold(db, batch, results).value)
    ensures BatchLive(Push.Fold(db, batch, results).value.outbox, rest)
    decreases |batch|
  {
    if batch != [] {
      var n := |batch| - 1;
      assert ResultsAllowed(batch[..n], results[..n]);
      FoldWork(db, batch[..n], results[..n], batch);
      FoldWork(db, batch[..n], results[..n], rest);
      var before := Push.Fold(db, batch[..n], results[..n]).value;
      assert RowLive(before.outbox, batch[n]);
      StepWork(before, batch[n], results[n]);
      forall i | 0 <= i < |rest|
        ensures OrdinaryOp(rest[i]) && RowLive(Push.Fold(db, batch, results).value.outbox, rest[i])
      {
        StepLive(before, batch[n], results[n], rest[i]);
      }
    }
  }

  // Pull

  lemma OverwriteWork(db: Db, device: DeviceId, ch: Change)
    requires Work(db) && (ch.key in db.entities ==> db.entities[ch.key].status.Clean?)
    ensures Work(db.(entities := Pull.Overwrite(db.entities, device, ch)))
  {
  }

  lemma RaiseWork(db: Db, ch: Change)
    requires Work(db) && ch.key in db.entities && db.entities[ch.key].status.Pending?
    ensures Work(Pull.Raise(db, ch))
  {
    var t := Pull.Raise(db, ch);
    if ch.key.kind.DocState? {
      assert Related(db.outbox, ch.key) == map[];
    }
    forall id | id in t.outbox && !t.outbox[id].state.Isolated?
      ensures Marked(t.entities, Owner(t.outbox[id].key))
    {
      OwnerTouches(ch.key, t.outbox[id].key);
    }
  }

  lemma RefreshWork(db: Db, ch: Change)
    requires Work(db)
    ensures Work(db.(conflicts := Pull.Refresh(db.conflicts, ch)))
  {
  }

  lemma PullStepWork(db: Db, device: DeviceId, ch: Change)
    requires Work(db)
    ensures Work(Pull.Step(db, device, ch))
  {
    if Pull.Skipped(db.entities, ch) {
    } else if Pull.Raises(db, ch) {
      RaiseWork(db, ch);
    } else {
      RefreshWork(db, ch);
      if ch.key in db.entities ==> db.entities[ch.key].status.Clean? {
        OverwriteWork(db, device, ch);
      }
    }
  }

  lemma {:induction false} PullWork(db: Db, device: DeviceId, changes: seq<Change>)
    requires Work(db)
    ensures Work(Pull.Fold(db, device, changes))
  {
    if changes != [] {
      var n := |changes| - 1;
      PullWork(db, device, changes[..n]);
      PullStepWork(Pull.Fold(db, device, changes[..n]), device, changes[n]);
    }
  }

  // Snapshots

  lemma ActivateWork(db: Db, c: Chunk, staged: map<StagedKey, Staged>)
    requires Work(db)
    ensures Work(Bootstrap.Activate(db, c, staged))
  {
  }

  function Activated(db: Db, c: Chunk): Db {
    var sealed := db.(vault := Bootstrap.SealRecords(db.vault, c.records));
    Bootstrap.Activate(sealed, c, sealed.staged + Bootstrap.StagedRows(c))
  }

  lemma StageTables(db: Db, c: Chunk)
    ensures var t, from := Bootstrap.Stage(db, c, c.device), if Activates(db, c, c.device) then Activated(db, c) else db;
            t.entities == from.entities && t.outbox == from.outbox && t.conflicts == from.conflicts
  {
  }

  lemma StageWork(db: Db, c: Chunk)
    requires Work(db)
    ensures Work(Bootstrap.Stage(db, c, c.device))
  {
    var sealed := db.(vault := Bootstrap.SealRecords(db.vault, c.records));
    assert Work(Activated(db, c)) by {
      ActivateWork(sealed, c, sealed.staged + Bootstrap.StagedRows(c));
    }
    StageTables(db, c);
  }

  // Resolutions

  /** What taking over the remote side silently must find: all live work on the
      entity is discarded with the conflict. */
  predicate Disposes(db: Db, c: ConflictRow) {
    forall id | id in db.outbox && !db.outbox[id].state.Isolated? && Touches(c.key, db.outbox[id].key) ::
      Some(id) == c.sourceOp || db.outbox[id].state.InConflict?
  }

  lemma ResolutionIsOrdinary(db: Db, r: Resilience.Request)
    requires Work(db) && Resilience.Admissible(db, r)
    ensures OrdinaryType(db.conflicts[r.conflict].key.kind)
  {
  }

  lemma RequeueWork(db: Db, r: Resilience.Request, chosen: Payload)
    requires Work(db) && Resilience.Admissible(db, r) && r.op !in db.outbox
    ensures Work(Resilience.Requeue(db, db.conflicts[r.conflict], r, chosen))
  {
    ResolutionIsOrdinary(db, r);
  }

  /** Silently accepting the remote side keeps work visible if and only if no
      other live operation is queued on the entity. */
  lemma AcceptRemoteWork(db: Db, r: Resilience.Request, chosen: Payload)
    requires Keyed(db.outbox) && Work(db) && Resilience.Admissible(db, r)
    ensures Work(Resilience.AcceptRemote(db, db.conflicts[r.conflict], r, chosen))
            <==> Disposes(db, db.conflicts[r.conflict])
  {
    var c := db.conflicts[r.conflict];
    var t := Resilience.AcceptRemote(db, c, r, chosen);
    ResolutionIsOrdinary(db, r);
    assert forall k | Marked(db.entities, k) && k != c.key && !k.kind.DocState? :: Marked(t.entities, k);
    assert !Marked(t.entities, c.key);
    forall id | id in db.outbox
      ensures Touches(c.key, db.outbox[id].key) <==> Owner(db.outbox[id].key) == c.key
    {
      OwnerTouches(c.key, db.outbox[id].key);
    }
    if !Disposes(db, c) {
      var id :| id in db.outbox && !db.outbox[id].state.Isolated? && Touches(c.key, db.outbox[id].key)
        && Some(id) != c.sourceOp && !db.outbox[id].state.InConflict?;
      assert id in t.outbox && !Marked(t.entities, Owner(t.outbox[id].key));
    }
  }

  lemma DismissWork(db: Db, id: ConflictId)
    requires Work(db)
    ensures Work(Or(Resilience.DismissConflict(db, id), db))
  {
  }

  lemma RecordWork(db: Db, id: ConflictId, c: ConflictRow)
    requires Work(db) && OrdinaryType(c.key.kind)
    ensures Work(Or(Resilience.RecordConflict(db, id, c), db))
  {
  }

  // All events

  /** A silent acceptance is careful when it finds nothing else queued. */
  predicate Careful(s: System, e: Event) {
    e.Resolve? && Resilience.Resolve(s.db, e.request).Ok? ==>
      var c := s.db.conflicts[e.request.conflict];
      Resilience.Silent(c, e.request) ==> Disposes(s.db, c)
  }

  lemma ResolveWork(s: System, r: Resilience.Request)
    requires Inv(s) && Work(s.db)
    ensures Resilience.Resolve(s.db, r).Ok? ==>
              (Work(Resilience.Resolve(s.db, r).value) <==> Careful(s, Resolve(r)))
  {
    if Resilience.Resolve(s.db, r).Ok? {
      var chosen := Resilience.Selected(s.db, r).value;
      if Resilience.Silent(s.db.conflicts[r.conflict], r) {
        AcceptRemoteWork(s.db, r, chosen);
      } else {
        RequeueWork(s.db, r, chosen);
      }
    }
  }

  lemma AnswerWork(s: System, results: seq<OpResult>)
    requires Inv(s) && Work(s.db) && Allowed(s, PushAnswered(results))
    ensures Work(Effect(s, PushAnswered(results)).db)
  {
    var batch := s.sent.value.batch;
    var sealed := s.db.(vault := Push.SealRemotes(s.db.vault, results));
    if Push.Reply(sealed, batch, results).Ok? {
      forall i | 0 <= i < |batch|
        ensures OrdinaryOp(batch[i]) && RowLive(sealed.outbox, batch[i])
      {
        assert s.db.outbox[batch[i].id] == batch[i];
      }
      FoldWork(sealed, batch, results, []);
    }
  }

  lemma PageWork(s: System, page: Page)
    requires Work(s.db)
    ensures Work(Effect(s, PullAnswered(page)).db)
  {
    ReceiveWork(s.db, Device(s), page);
  }

  lemma ReceiveWork(db: Db, device: DeviceId, page: Page)
    requires Work(db)
    ensures Work(Or(Pull.Receive(db, device, page), db))
  {
    PullWork(db.(vault := Pull.SealChanges(db.vault, page.changes)), device, page.changes);
  }

  lemma OthersWork(s: System, e: Event)
    requires Inv(s) && Work(s.db) && Allowed(s, e)
    requires !IsLocal(e) && !e.PushAnswered? && !e.PullAnswered? && !e.StageChunk? && !e.DismissConflict? && !e.RecordConflict?
    ensures Work(Effect(s, e).db)
  {
  }

  lemma LocalWork(s: System, e: Event)
    requires Keyed(s.db.outbox) && Work(s.db) && Allowed(s, e)
    requires e.Mutate? || e.MutateProtected? || e.EditNote?
    ensures Work(Effect(s, e).db)
  {
    if e.Mutate? {
      CommitWork(s.db, e.mutation);
    } else if e.MutateProtected? {
      ProtectedWork(s.db, e.protected, e.body);
    } else {
      EditWork(s.db, e.prepared);
    }
  }

  /** Every event keeps work visible, except a silent acceptance of the remote
      side while other work is queued, which never does. */
  lemma EventKeepsWork(s: System, e: Event)
    requires Inv(s) && Work(s.db) && Allowed(s, e)
    ensures Work(Next(s, e).db) <==> Careful(s, e)
  {
    if e.Resolve? {
      ResolveWork(s, e.request);
    } else if Outbox.IsCommit(e) {
      LocalWork(s, e);
    } else if e.DismissConflict? {
      DismissWork(s.db, e.conflict);
    } else if e.RecordConflict? {
      RecordWork(s.db, e.id, e.row);
    } else if e.PushAnswered? {
      AnswerWork(s, e.results);
    } else if e.PullAnswered? {
      PageWork(s, e.page);
    } else if e.StageChunk? {
      StageWork(s.db, e.chunk);
    } else {
      OthersWork(s, e);
    }
  }

  /** A run in which every silent acceptance is careful. */
  ghost predicate CarefulRun(s: System, events: seq<Event>)
    decreases |events|
  {
    events != [] ==>
      Allowed(s, events[0]) && Careful(s, events[0]) && CarefulRun(Next(s, events[0]), events[1..])
  }

  /** A clean entity never has live work queued, in any careful run. */
  lemma {:induction false} RunKeepsWork(s: System, events: seq<Event>, t: System)
    requires Inv(s) && Work(s.db) && RunsTo(s, events, t) && CarefulRun(s, events)
    ensures Work(t.db)
    decreases |events|
  {
    if events != [] {
      EventKeepsInv(s, events[0]);
      EventKeepsWork(s, events[0]);
      RunKeepsWork(Next(s, events[0]), events[1..], t);
    }
  }

  /** A conflict that a pull has just raised can always be settled in favour of
      the remote side. */
  lemma RaisedConflictDisposes(db: Db, device: DeviceId, ch: Change)
    requires Pull.Raises(db, ch)
    ensures var t := Pull.Step(db, device, ch);
            Pulled(ch.op, ch.key) in t.conflicts && Disposes(t, t.conflicts[Pulled(ch.op, ch.key)])
  {
  }
}
