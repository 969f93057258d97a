/**
 Open conflicts whose remote side can be taken over without telling the server: as long
 as they are current, doing so keeps the replica on the log. What keeps them current, and
 what does not.
 */
module OpenConflicts {
  import opened Types
  import opened Runs
  import opened ServerLog
  import opened Convergence
  import opened Rebootstrap
  import opened Replication
  import Bootstrap
  import DirtyWork
  import NoteEdits
  import Outbox
  import Pages
  import Push
  import Pull
  import Repository
  import Resilience
  import Safety
  import Snapshots

  /** Each change gives its entity a higher version. */
  ghost predicate Rising(log: seq<Change>) {
    forall a, b | a in log && b in log && a.key == b.key && a.sequence < b.sequence :: a.serverVersion < b.serverVersion
  }

  /** The conflict offers its remote side. */
  predicate Offers(c: ConflictRow) {
    c.status.OpenConflict? && !c.serverRecorded && Plain(c.key)
  }

  predicate Offered(conflicts: map<ConflictId, ConflictRow>, k: Key) {
    exists id | id in conflicts :: Offers(conflicts[id]) && conflicts[id].key == k
  }

  /** Every conflict that offers its remote side is current, and its entity is marked. */
  ghost predicate AllCurrent(entities: map<Key, Entity>, conflicts: map<ConflictId, ConflictRow>, p: Position) {
    forall id | id in conflicts && Offers(conflicts[id]) ::
      && conflicts[id].key in entities && entities[conflicts[id].key].status.Conflicted?
      && Current(conflicts[id], p)
  }

  /** Conflicts that stay open, and entities that stay marked. */
  lemma CurrentStays(entities: map<Key, Entity>, conflicts: map<ConflictId, ConflictRow>, p: Position,
                     entities': map<Key, Entity>, conflicts': map<ConflictId, ConflictRow>, q: Position)
    requires AllCurrent(entities, conflicts, p) && q == p.(history := q.history)
    requires forall id | id in conflicts' && Offers(conflicts'[id]) :: id in conflicts && conflicts[id] == conflicts'[id]
    requires forall k | Offered(conflicts', k) && k in entities && entities[k].status.Conflicted? ::
               k in entities' && entities'[k].status.Conflicted?
    ensures AllCurrent(entities', conflicts', q)
  {
    forall id | id in conflicts' && Offers(conflicts'[id])
      ensures conflicts'[id].key in entities' && entities'[conflicts'[id].key].status.Conflicted?
      ensures Current(conflicts'[id], q)
    {
      assert Offered(conflicts', conflicts'[id].key);
    }
  }

  // Pulls

  /** A newer change replaces the remote side of a current conflict. */
  lemma NewerReplaces(p: Position, head: nat, c: ConflictRow, ch: Change)
    requires LogOk(p.log, head) && Rising(p.log) && NextInLog(p.log, p.cursor, ch)
    requires c.key == ch.key && Offers(c) ==> Current(c, p)
    ensures Offers(Pull.RefreshedRow(c, ch)) && c.key == ch.key ==> RemoteIs(Pull.RefreshedRow(c, ch), ch)
  {
    LastIs(p.log, head, c.key, p.cursor);
  }

  lemma RefreshKeepsCurrent(db: Db, p: Position, head: nat, ch: Change)
    requires LogOk(p.log, head) && Rising(p.log) && NextInLog(p.log, p.cursor, ch)
    requires AllCurrent(db.entities, db.conflicts, p) && ch.key in db.entities && db.entities[ch.key].status.Conflicted?
    ensures AllCurrent(db.entities, Pull.Refresh(db.conflicts, ch), At(p, ch.sequence))
  {
    var t := Pull.Refresh(db.conflicts, ch);
    forall id | id in t && Offers(t[id])
      ensures t[id].key in db.entities && db.entities[t[id].key].status.Conflicted? && Current(t[id], At(p, ch.sequence))
    {
      if t[id].key == ch.key {
        NewerReplaces(p, head, db.conflicts[id], ch);
        LastMoves(p.log, head, ch);
      } else {
        LastKept(p.log, head, t[id].key, p.cursor, ch.sequence);
      }
    }
  }

  lemma RaiseKeepsCurrent(db: Db, p: Position, head: nat, ch: Change)
    requires LogOk(p.log, head) && NextInLog(p.log, p.cursor, ch)
    requires AllCurrent(db.entities, db.conflicts, p) && Pull.Raises(db, ch)
    ensures AllCurrent(Pull.Raise(db, ch).entities, Pull.Raise(db, ch).conflicts, At(p, ch.sequence))
  {
    var t := Pull.Raise(db, ch);
    forall id | id in t.conflicts && Offers(t.conflicts[id])
      ensures t.conflicts[id].key in t.entities && t.entities[t.conflicts[id].key].status.Conflicted?
      ensures Current(t.conflicts[id], At(p, ch.sequence))
    {
      if t.conflicts[id].key == ch.key {
        LastMoves(p.log, head, ch);
      } else {
        LastKept(p.log, head, t.conflicts[id].key, p.cursor, ch.sequence);
      }
    }
  }

  lemma OverwriteKeepsCurrent(db: Db, p: Position, head: nat, ch: Change)
    requires LogOk(p.log, head) && NextInLog(p.log, p.cursor, ch)
    requires AllCurrent(db.entities, db.conflicts, p) && (ch.key in db.entities ==> !db.entities[ch.key].status.Conflicted?)
    ensures AllCurrent(Pull.Overwrite(db.entities, p.device, ch), db.conflicts, At(p, ch.sequence))
  {
    forall id | id in db.conflicts && Offers(db.conflicts[id])
      ensures Current(db.conflicts[id], At(p, ch.sequence))
    {
      LastKept(p.log, head, db.conflicts[id].key, p.cursor, ch.sequence);
    }
  }

  lemma SkipKeepsCurrent(db: Db, p: Position, head: nat, ch: Change)
    requires LogOk(p.log, head) && NextInLog(p.log, p.cursor, ch) && !Plain(ch.key)
    requires AllCurrent(db.entities, db.conflicts, p)
    ensures AllCurrent(db.entities, db.conflicts, At(p, ch.sequence))
  {
    forall id | id in db.conflicts && Offers(db.conflicts[id])
      ensures Current(db.conflicts[id], At(p, ch.sequence))
    {
      LastKept(p.log, head, db.conflicts[id].key, p.cursor, ch.sequence);
    }
  }

  lemma StepKeepsCurrent(db: Db, p: Position, head: nat, ch: Change)
    requires LogOk(p.log, head) && Rising(p.log) && NextInLog(p.log, p.cursor, ch) && AllCurrent(db.entities, db.conflicts, p)
    ensures AllCurrent(Pull.Step(db, p.device, ch).entities, Pull.Step(db, p.device, ch).conflicts, At(p, ch.sequence))
  {
    Pages.StepWrites(db, p.device, ch);
    if Pull.Raises(db, ch) {
      RaiseKeepsCurrent(db, p, head, ch);
    } else if Pull.Skipped(db.entities, ch) {
      SkipKeepsCurrent(db, p, head, ch);
    } else if ch.key in db.entities && db.entities[ch.key].status.Conflicted? {
      RefreshKeepsCurrent(db, p, head, ch);
    } else {
      OverwriteKeepsCurrent(db, p, head, ch);
    }
  }

  lemma CursorKeepsCurrent(entities: map<Key, Entity>, conflicts: map<ConflictId, ConflictRow>, p: Position, head: nat, next: nat)
    requires LogOk(p.log, head) && AllCurrent(entities, conflicts, p) && p.cursor <= next
    requires forall ch | ch in p.log :: !(p.cursor < ch.sequence <= next)
    ensures AllCurrent(entities, conflicts, At(p, next))
  {
    forall id | id in conflicts && Offers(conflicts[id])
      ensures Current(conflicts[id], At(p, next))
    {
      LastKept(p.log, head, conflicts[id].key, p.cursor, next);
    }
  }

  /** Pulling keeps every conflict current. */
  lemma {:induction false} PullKeepsCurrent(db: Db, p: Position, head: nat, next: nat, changes: seq<Change>)
    requires LogOk(p.log, head) && Rising(p.log) && AllCurrent(db.entities, db.conflicts, p)
    requires IsWindow(p.log, p.cursor, next, changes)
    ensures AllCurrent(Pull.Fold(db, p.device, changes).entities, Pull.Fold(db, p.device, changes).conflicts, At(p, next))
    decreases |changes|
  {
    if changes == [] {
      assert forall ch | ch in p.log :: ch in changes <==> p.cursor < ch.sequence <= next;
      CursorKeepsCurrent(db.entities, db.conflicts, p, head, next);
    } else {
      var n := |changes| - 1;
      var mid := Mid(p.cursor, changes);
      WindowFront(p.log, p.cursor, next, changes);
      WindowLast(p.log, p.cursor, next, changes);
      PullKeepsCurrent(db, p, head, mid, changes[..n]);
      var before := Pull.Fold(db, p.device, changes[..n]);
      StepKeepsCurrent(before, At(p, mid), head, changes[n]);
      var after := Pull.Step(before, p.device, changes[n]);
      CursorKeepsCurrent(after.entities, after.conflicts, At(p, changes[n].sequence), head, next);
    }
  }

  // Pushes

  lemma AckKeepsCurrent(db: Db, p: Position, op: Op, r: OpResult)
    requires r.Acked? && InOutbox(db.outbox, op) && ConflictsBacked(db.entities, db.outbox)
    requires AllCurrent(db.entities, db.conflicts, p)
    ensures var t := Push.Ack(db, op, r.serverVersion);
            AllCurrent(t.entities, t.conflicts, Convergence.Settled(p, op, r))
  {
    var t := Push.Ack(db, op, r.serverVersion);
    forall k | Offered(t.conflicts, k) && k in db.entities && db.entities[k].status.Conflicted?
      ensures k in t.entities && t.entities[k].status.Conflicted?
    {
      if k == op.key {
        StaysMarked(db, op, r.serverVersion);
      } else {
        AckLeavesOthers(db, op, r.serverVersion, k);
      }
    }
    CurrentStays(db.entities, db.conflicts, p, t.entities, t.conflicts, Convergence.Settled(p, op, r));
  }

  /** An operation in conflict keeps its entity marked. */
  lemma StaysMarked(db: Db, op: Op, version: nat)
    requires InOutbox(db.outbox, op) && Plain(op.key) && op.key in db.entities && db.entities[op.key].status.Conflicted?
    requires ConflictsBacked(db.entities, db.outbox)
    ensures Push.Ack(db, op, version).entities[op.key].status.Conflicted?
  {
    var id :| id in db.outbox && db.outbox[id].key == op.key && db.outbox[id].state.InConflict?;
    assert id in Related(db.outbox - {op.id}, op.key);
  }

  lemma RefuseKeepsCurrent(db: Db, p: Position, op: Op, c: ServerConflict)
    requires Push.Refuse(db, op, c).Ok? && AllCurrent(db.entities, db.conflicts, p)
    ensures AllCurrent(Push.Refuse(db, op, c).value.entities, Push.Refuse(db, op, c).value.conflicts, p)
  {
    var t := Push.Refuse(db, op, c).value;
    CurrentStays(db.entities, db.conflicts, p, t.entities, t.conflicts, p);
  }

  /** A rejection keeps every conflict current if and only if it is not that of the
      deletion of an entity with an open offer, which it would unmark. */
  lemma FailKeepsCurrent(db: Db, p: Position, op: Op, error: nat)
    requires AllCurrent(db.entities, db.conflicts, p)
    ensures AllCurrent(Push.Fail(db, op, error).entities, Push.Fail(db, op, error).conflicts, p)
            <==> !(op.kind.Delete? && Offered(db.conflicts, op.key))
  {
    var t := Push.Fail(db, op, error);
    if op.kind.Delete? && Offered(db.conflicts, op.key) {
      var id :| id in db.conflicts && Offers(db.conflicts[id]) && db.conflicts[id].key == op.key;
      assert !t.entities[op.key].status.Conflicted?;
    } else {
      CurrentStays(db.entities, db.conflicts, p, t.entities, t.conflicts, p);
    }
  }

  predicate Unmarks(conflicts: map<ConflictId, ConflictRow>, op: Op, r: OpResult) {
    r.Failed? && op.kind.Delete? && Offered(conflicts, op.key)
  }

  lemma ResultKeepsCurrent(db: Db, p: Position, op: Op, r: OpResult)
    requires InOutbox(db.outbox, op) && ConflictsBacked(db.entities, db.outbox)
    requires Push.Step(db, op, r).Ok? && AllCurrent(db.entities, db.conflicts, p)
    ensures var t := Push.Step(db, op, r).value;
            AllCurrent(t.entities, t.conflicts, Convergence.Settled(p, op, r)) <==> !Unmarks(db.conflicts, op, r)
  {
    if r.Acked? {
      AckKeepsCurrent(db, p, op, r);
    } else if r.Refused? {
      RefuseKeepsCurrent(db, p, op, r.conflict);
    } else {
      FailKeepsCurrent(db, p, op, r.error);
    }
  }

  /** Answers open no offers. */
  lemma StepOffersLess(db: Db, op: Op, r: OpResult, k: Key)
    requires Push.Step(db, op, r).Ok? && Offered(Push.Step(db, op, r).value.conflicts, k)
    ensures Offered(db.conflicts, k)
  {
    var t := Push.Step(db, op, r).value.conflicts;
    var id :| id in t && Offers(t[id]) && t[id].key == k;
    assert id in db.conflicts && Offers(db.conflicts[id]) && db.conflicts[id].key == k;
  }

  lemma {:induction false} FoldOffersLess(db: Db, batch: seq<Op>, results: seq<OpResult>, k: Key)
    requires |batch| == |results| && Push.Fold(db, batch, results).Ok?
    ensures Offered(Push.Fold(db, batch, results).value.conflicts, k) ==> Offered(db.conflicts, k)
  {
    if batch != [] {
      var n := |batch| - 1;
      FoldOffersLess(db, batch[..n], results[..n], k);
      if Offered(Push.Fold(db, batch, results).value.conflicts, k) {
        StepOffersLess(Push.Fold(db, batch[..n], results[..n]).value, batch[n], results[n], k);
      }
    }
  }

  lemma {:induction false} PushKeepsCurrent(db: Db, p: Position, head: nat, batch: seq<Op>, results: seq<OpResult>)
    requires Sound(db, p, head) && Data(db, p) && Sendable(db.outbox, p, batch)
    requires |batch| == |results| && AllHonest(p.log, batch, results) && Push.Fold(db, batch, results).Ok?
    requires AllCurrent(db.entities, db.conflicts, p)
    requires forall i | 0 <= i < |batch| :: !Unmarks(db.conflicts, batch[i], results[i])
    ensures var t := Push.Fold(db, batch, results).value;
            AllCurrent(t.entities, t.conflicts, Answered(p, batch, results))
    decreases |batch|
  {
    if batch != [] {
      var n := |batch| - 1;
      FrontIsSendable(db.outbox, p, batch, n);
      assert forall i | 0 <= i < n :: batch[..n][i] == batch[i] && results[..n][i] == results[i];
      PushKeepsCurrent(db, p, head, batch[..n], results[..n]);
      PushConverges(db, p, head, batch[..n], results[..n]);
      NextIsThere(db, p, batch, results, n);
      FoldOffersLess(db, batch[..n], results[..n], batch[n].key);
      ResultKeepsCurrent(Push.Fold(db, batch[..n], results[..n]).value, Answered(p, batch[..n], results[..n]), batch[n], results[n]);
    }
  }

  // Resolutions

  /** No other conflict of the entity is still open on offer. */
  predicate LastOffer(conflicts: map<ConflictId, ConflictRow>, id: ConflictId)
    requires id in conflicts
  {
    forall other | other in conflicts && other != id && Offers(conflicts[other]) :: conflicts[other].key != conflicts[id].key
  }

  /** What a resolution does to the marks and the conflicts. */
  lemma ResolvedMarks(db: Db, r: Resilience.Request)
    requires Resilience.Resolve(db, r).Ok?
    ensures var t := Resilience.Resolve(db, r).value;
            && r.conflict in db.conflicts && r.conflict in t.conflicts && !Offers(t.conflicts[r.conflict])
            && t.conflicts == db.conflicts[r.conflict := t.conflicts[r.conflict]]
            && var k := db.conflicts[r.conflict].key;
            && k in t.entities && !t.entities[k].status.Conflicted?
            && forall other | Plain(other) && other != k && other in db.entities ::
                 other in t.entities && t.entities[other] == db.entities[other]
  {
  }

  lemma ClosingKeepsCurrent(entities: map<Key, Entity>, conflicts: map<ConflictId, ConflictRow>, p: Position,
                            entities': map<Key, Entity>, closed: ConflictId, row: ConflictRow, q: Position)
    requires AllCurrent(entities, conflicts, p) && q == p.(history := q.history)
    requires closed in conflicts && !Offers(row)
    requires conflicts[closed].key in entities' && !entities'[conflicts[closed].key].status.Conflicted?
    requires forall other | Plain(other) && other != conflicts[closed].key && other in entities ::
               other in entities' && entities'[other] == entities[other]
    ensures AllCurrent(entities', conflicts[closed := row], q) <==> LastOffer(conflicts, closed)
  {
    var t := conflicts[closed := row];
    if LastOffer(conflicts, closed) {
      CurrentStays(entities, conflicts, p, entities', t, q);
    } else {
      var id :| id in conflicts && id != closed && Offers(conflicts[id]) && conflicts[id].key == conflicts[closed].key;
      assert t[id] == conflicts[id];
    }
  }

  /** A resolution keeps every conflict current if and only if it settles the last offer on
      its entity, which it unmarks. */
  lemma ResolveKeepsCurrent(db: Db, r: Resilience.Request, p: Position, q: Position)
    requires Resilience.Resolve(db, r).Ok? && AllCurrent(db.entities, db.conflicts, p) && q == p.(history := q.history)
    ensures var t := Resilience.Resolve(db, r).value;
            AllCurrent(t.entities, t.conflicts, q) <==> LastOffer(db.conflicts, r.conflict)
  {
    var t := Resilience.Resolve(db, r).value;
    ResolvedMarks(db, r);
    ClosingKeepsCurrent(db.entities, db.conflicts, p, t.entities, r.conflict, t.conflicts[r.conflict], q);
  }

  // Snapshots

  /** The snapshot is of the epoch, and no conflict on offer has been overtaken by a change
      between the old cursor and the new one. */
  ghost predicate NotPassed(db: Db, p: Position, chunks: seq<Chunk>)
    requires chunks != []
  {
    forall id | id in db.conflicts && Offers(db.conflicts[id]) ::
      && !Bootstrap.EpochChanged(db.sync, chunks[0].epoch)
      && Last(p.log, db.conflicts[id].key, chunks[0].cursor) == Last(p.log, db.conflicts[id].key, p.cursor)
  }

  /** Taking over a snapshot keeps every conflict current if and only if it is not of a new
      epoch and does not pass a change to the entity of one. */
  lemma {:induction false} SwitchKeepsCurrent(db: Db, p: Position, head: nat, chunks: seq<Chunk>, q: Position)
    requires LogOk(p.log, head) && Rising(p.log) && SnapshotOf(chunks, p.log) && AllCurrent(db.entities, db.conflicts, p)
    requires q.log == p.log && q.cursor == chunks[0].cursor
    ensures AllCurrent(After(db, chunks).entities, db.conflicts, q) <==> NotPassed(db, p, chunks)
  {
    var t := After(db, chunks).entities;
    forall id | id in db.conflicts && Offers(db.conflicts[id])
      ensures var c := db.conflicts[id];
              (c.key in t && t[c.key].status.Conflicted? && Current(c, q))
              <==> (!Bootstrap.EpochChanged(db.sync, chunks[0].epoch) && Last(p.log, c.key, q.cursor) == Last(p.log, c.key, p.cursor))
    {
      MarkedSurvives(db, chunks, db.conflicts[id].key);
      if Current(db.conflicts[id], q) {
        OneVersion(p.log, head, db.conflicts[id].key, p.cursor, q.cursor);
      }
    }
  }

  lemma {:induction false} MarkedSurvives(db: Db, chunks: seq<Chunk>, k: Key)
    requires Snapshots.ValidSnapshot(chunks) && k in db.entities && db.entities[k].status.Conflicted?
    ensures var t := After(db, chunks).entities;
            (k in t && t[k].status.Conflicted?) <==> !Bootstrap.EpochChanged(db.sync, chunks[0].epoch)
  {
    if k in Snapshots.DescribedKeys(chunks) {
      assert Snapshots.Described(chunks)[k].status.Clean?;
    }
  }

  /** Two last changes of an entity with one version are the same. */
  lemma OneVersion(log: seq<Change>, head: nat, k: Key, a: nat, b: nat)
    requires LogOk(log, head) && Rising(log)
    requires Last(log, k, a).Some? && Last(log, k, b).Some?
    requires Last(log, k, a).value.serverVersion == Last(log, k, b).value.serverVersion
    ensures Last(log, k, a) == Last(log, k, b)
  {
    LastIs(log, head, k, a);
    LastIs(log, head, k, b);
    assert Last(log, k, a).value.sequence == Last(log, k, b).value.sequence;
    LastUnique(log, head, Last(log, k, a).value, Last(log, k, b).value);
  }

  // Runs

  /** What a move must not do: leave an offer open on an entity it unmarks, or pass a
      change to the entity of one. Versions rise, silent acceptances find nothing else
      queued, and snapshots leave the replica on course. */
  ghost predicate Watchful(w: World, m: Move) {
    match m
    case Append(ch) => Rising(w.log + [ch])
    case Client(PushAnswered(results)) =>
      w.s.sent.Some? ==>
        forall i | 0 <= i < |results| && i < |w.s.sent.value.batch| :: !Unmarks(w.s.db.conflicts, w.s.sent.value.batch[i], results[i])
    case Client(Resolve(r)) =>
      Resilience.Resolve(w.s.db, r).Ok? ==>
        var c := w.s.db.conflicts[r.conflict];
        LastOffer(w.s.db.conflicts, r.conflict) && (Resilience.Silent(c, r) ==> DirtyWork.Disposes(w.s.db, c))
    case Client(StageChunk(c)) =>
      Activates(w.s.db, c, c.device) ==>
        && c.snapshot in w.published && w.published[c.snapshot] != []
        && NotPassed(w.s.db, Stand(w, {}), w.published[c.snapshot])
        && StaysOnCourse(w, m, {})
    case _ => true
  }

  ghost predicate AllWatchful(w: World, moves: seq<Move>)
    decreases |moves|
  {
    moves != [] ==> Watchful(w, moves[0]) && AllWatchful(Play(w, moves[0]), moves[1..])
  }

  ghost predicate CurrentInv(w: World) {
    WorldInv(w, {}) && Rising(w.log) && AllCurrent(w.s.db.entities, w.s.db.conflicts, Stand(w, {}))
  }

  /** Whatever is on offer can be accepted. */
  lemma WatchfulStays(w: World, m: Move)
    requires CurrentInv(w) && Plays(w, m) && Watchful(w, m)
    ensures StaysOnCourse(w, m, {})
  {
  }

  // Every move

  lemma LocalKeepsCurrent(w: World, e: Event)
    requires CurrentInv(w) && Outbox.IsCommit(e) && Plays(w, Client(e))
    ensures var t := Effect(w.s, e);
            AllCurrent(t.db.entities, t.db.conflicts, Stand(w, {}).(history := t.history))
  {
    var t := Effect(w.s, e);
    Safety.LocalFrame(w.s, e);
    forall k | Offered(t.db.conflicts, k) && k in w.s.db.entities && w.s.db.entities[k].status.Conflicted?
      ensures k in t.db.entities && t.db.entities[k].status.Conflicted?
    {
      CommitSpares(w.s, e, k);
    }
    CurrentStays(w.s.db.entities, w.s.db.conflicts, Stand(w, {}), t.db.entities, t.db.conflicts, Stand(w, {}).(history := t.history));
  }

  lemma CommitSpares(s: System, e: Event, k: Key)
    requires Outbox.IsCommit(e) && Plain(k) && k in s.db.entities && s.db.entities[k].status.Conflicted?
    ensures var t := Effect(s, e).db.entities; k in t && t[k].status.Conflicted?
  {
    if e.Mutate? {
      MutateSpares(s, e.mutation, k);
    } else if e.MutateProtected? {
      ProtectedSpares(s, e.protected, e.body, k);
    } else {
      EditSpares(s, e.prepared, k);
    }
  }

  lemma MutateSpares(s: System, m: Repository.Mutation, k: Key)
    requires k in s.db.entities && s.db.entities[k].status.Conflicted?
    ensures var t := Effect(s, Mutate(m)).db.entities; k in t && t[k].status.Conflicted?
  {
    if Repository.Commit(s.db, m).Ok? { Repository.CommitQueuesOn(s.db, m); }
  }

  lemma ProtectedSpares(s: System, m: Repository.Mutation, body: Payload, k: Key)
    requires k in s.db.entities && s.db.entities[k].status.Conflicted?
    ensures var t := Effect(s, MutateProtected(m, body)).db.entities; k in t && t[k].status.Conflicted?
  {
    Repository.QueuedOrNot(s.db, m, body);
  }

  lemma EditSpares(s: System, p: NoteEdits.Prepared, k: Key)
    requires Plain(k) && k in s.db.entities && s.db.entities[k].status.Conflicted?
    ensures var t := Effect(s, EditNote(p)).db.entities; k in t && t[k].status.Conflicted?
  {
  }

  lemma AnswerKeepsCurrent(w: World, results: seq<OpResult>)
    requires CurrentInv(w) && Plays(w, Client(PushAnswered(results))) && Watchful(w, Client(PushAnswered(results)))
    ensures var t := Effect(w.s, PushAnswered(results));
            AllCurrent(t.db.entities, t.db.conflicts, Stand(w, {}).(history := t.history))
  {
    var batch, p := w.s.sent.value.batch, Stand(w, {});
    var sealed := w.s.db.(vault := Push.SealRemotes(w.s.db.vault, results));
    SealedData(w.s.db, p, w.head, sealed.vault, w.s.db.sync);
    RequestIsSendable(w, {});
    if Push.Reply(sealed, batch, results).Ok? {
      PushKeepsCurrent(sealed, p, w.head, batch, results);
    }
  }

  lemma ReceivedKeepsCurrent(db: Db, p: Position, head: nat, page: Page)
    requires LogOk(p.log, head) && Rising(p.log) && Pull.Receive(db, p.device, page).Ok?
    requires page.from == p.cursor && IsWindow(p.log, p.cursor, page.next, page.changes)
    requires AllCurrent(db.entities, db.conflicts, p)
    ensures var t := Pull.Receive(db, p.device, page).value;
            AllCurrent(t.entities, t.conflicts, At(p, page.next)) && Cursor(t) == page.next
  {
    var sealed := db.(vault := Pull.SealChanges(db.vault, page.changes));
    PullKeepsCurrent(sealed, p, head, page.next, page.changes);
    Safety.PullSync(sealed, p.device, page.changes);
  }

  lemma PageKeepsCurrent(w: World, page: Page)
    requires CurrentInv(w) && Plays(w, Client(PullAnswered(page)))
    ensures var t := Effect(w.s, PullAnswered(page));
            AllCurrent(t.db.entities, t.db.conflicts, At(Stand(w, {}), Cursor(t.db)))
  {
    if Pull.Receive(w.s.db, Device(w.s), page).Ok? {
      ReceivedKeepsCurrent(w.s.db, Stand(w, {}), w.head, page);
    }
  }

  lemma OthersKeepCurrent(s: System, e: Event)
    requires !Safety.IsLocal(e) && !e.PushAnswered? && !e.PullAnswered? && !e.StageChunk?
    requires !e.RecordConflict? && !e.PrepareDevice?
    ensures var t := Effect(s, e);
            && t.db.entities == s.db.entities
            && (forall id | id in t.db.conflicts && Offers(t.db.conflicts[id]) ::
                  id in s.db.conflicts && s.db.conflicts[id] == t.db.conflicts[id])
  {
  }

  lemma ResolutionKeepsCurrent(s: System, r: Resilience.Request, p: Position)
    requires AllCurrent(s.db.entities, s.db.conflicts, p)
    requires Resilience.Resolve(s.db, r).Ok? ==> LastOffer(s.db.conflicts, r.conflict)
    ensures var t := Effect(s, Resolve(r)); AllCurrent(t.db.entities, t.db.conflicts, p.(history := t.history))
  {
    if Resilience.Resolve(s.db, r).Ok? {
      ResolveKeepsCurrent(s.db, r, p, p.(history := Effect(s, Resolve(r)).history));
    }
  }

  lemma ChunkKeepsCurrent(w: World, c: Chunk)
    requires CurrentInv(w) && Plays(w, Client(StageChunk(c))) && Watchful(w, Client(StageChunk(c)))
    ensures var w' := Play(w, Client(StageChunk(c)));
            AllCurrent(w'.s.db.entities, w'.s.db.conflicts, Stand(w', {}))
  {
    var w' := Play(w, Client(StageChunk(c)));
    ServedChunk(w.published, w.log, w.head, c);
    StageSwitches(w.s.db, w.published, w.log, w.head, c);
    Safety.StageKeepsConflicts(w.s.db, c);
    if Activates(w.s.db, c, c.device) {
      SwitchKeepsCurrent(w.s.db, Stand(w, {}), w.head, w.published[c.snapshot], Stand(w', {}));
    }
  }

  lemma EventKeepsCurrent(w: World, e: Event)
    requires CurrentInv(w) && Plays(w, Client(e)) && Watchful(w, Client(e))
    ensures var w' := Play(w, Client(e)); AllCurrent(w'.s.db.entities, w'.s.db.conflicts, Stand(w', {}))
  {
    var w' := Play(w, Client(e));
    if Outbox.IsCommit(e) {
      Safety.LocalKeepsSync(w.s, e);
      LocalKeepsCurrent(w, e);
    } else if e.Resolve? {
      Safety.LocalKeepsSync(w.s, e);
      ResolutionKeepsCurrent(w.s, e.request, Stand(w, {}));
    } else if e.PushAnswered? {
      AnswerSync(w.s, e.results);
      AnswerKeepsCurrent(w, e.results);
    } else if e.PullAnswered? {
      CursorStays(w, e, {});
      PageKeepsCurrent(w, e.page);
    } else if e.StageChunk? {
      ChunkKeepsCurrent(w, e.chunk);
    } else {
      OthersKeepCursor(w.s, e);
      OthersKeepCurrent(w.s, e);
      CurrentStays(w.s.db.entities, w.s.db.conflicts, Stand(w, {}), w'.s.db.entities, w'.s.db.conflicts, Stand(w', {}));
    }
  }

  lemma AppendKeepsCurrent(entities: map<Key, Entity>, conflicts: map<ConflictId, ConflictRow>, p: Position, ch: Change)
    requires AllCurrent(entities, conflicts, p) && p.cursor < ch.sequence
    ensures AllCurrent(entities, conflicts, p.(log := p.log + [ch]))
  {
    forall id | id in conflicts && Offers(conflicts[id])
      ensures Current(conflicts[id], p.(log := p.log + [ch]))
    {
      AppendedLast(p.log, ch, conflicts[id].key, p.cursor);
    }
  }

  lemma MoveKeepsCurrent(w: World, m: Move)
    requires CurrentInv(w) && Plays(w, m) && Watchful(w, m)
    ensures CurrentInv(Play(w, m))
  {
    WatchfulStays(w, m);
    MoveKeepsInv(w, m, {});
    if m.Client? {
      EventKeepsCurrent(w, m.event);
    } else if m.Append? {
      AppendKeepsCurrent(w.s.db.entities, w.s.db.conflicts, Stand(w, {}), m.change);
    }
  }

  /** In a watchful run every conflict on offer is current at any time, so the run is on
      course: nothing has to be known of the log to accept one. */
  lemma {:induction false} WatchfulIsOnCourse(w: World, moves: seq<Move>, w': World)
    requires CurrentInv(w) && Unfolds(w, moves, w') && AllWatchful(w, moves)
    ensures AllOnCourse(w, moves, {}) && CurrentInv(w')
    decreases |moves|
  {
    if moves != [] {
      WatchfulStays(w, moves[0]);
      MoveKeepsCurrent(w, moves[0]);
      WatchfulIsOnCourse(Play(w, moves[0]), moves[1..], w');
    }
  }

  /** So a watchful replica converges from a blank database. */
  lemma WatchfulConverges(w: World, moves: seq<Move>, w': World, k: Key)
    requires Blank(w) && Rising(w.log) && Unfolds(w, moves, w') && AllWatchful(w, moves) && Plain(k)
    ensures var cursor := Cursor(w'.s.db);
            && (Last(w'.log, k, cursor).Some? ==> k in w'.s.db.entities)
            && (k in w'.s.db.entities && w'.s.db.entities[k].status.Clean? && AcksPassed(w'.s.history, k, cursor) ==>
                  Last(w'.log, k, cursor).Some? && Matches(w'.s.db.entities[k], Last(w'.log, k, cursor).value))
    ensures AllCurrent(w'.s.db.entities, w'.s.db.conflicts, Stand(w', {}))
  {
    BlankInv(w);
    WatchfulIsOnCourse(w, moves, w');
    ReplicaConverges(w, moves, w', k);
  }
}
