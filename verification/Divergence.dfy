/**
 When a replica that is off course diverges: the condition of convergence is exact.
 */
module Divergence {
  import opened Types
  import opened Graph
  import opened Repository
  import opened Runs
  import opened Ledger
  import opened Safety
  import opened Guarantees
  import opened Chains
  import opened ServerLog
  import opened Convergence
  import opened Rebootstrap
  import opened Replication
  import Push
  import Pull
  import Resilience
  import Scheduler
  import Draining
  import DirtyWork

  // One acknowledgement

  /** The entity has no work left, the cursor has passed all its acknowledgements, and
      yet it does not show the log. */
  ghost predicate LeftBehind(entities: map<Key, Entity>, p: Position, k: Key) {
    k in entities && entities[k].status.Clean? && AcksPassed(p.history, k, p.cursor) && !Shows(entities[k], p, k)
  }

  lemma RelatedIsOnEntity(outbox: map<OpId, Op>, k: Key)
    requires Plain(k)
    ensures Related(outbox, k) == OnEntity(outbox, k)
  {
  }

  lemma RepeatPassed(p: Position, head: nat, op: Op, r: OpResult)
    requires LogOk(p.log, head) && StillQueued(p.history, op) && r.Acked? && Honest(p.log, op, r)
    requires Logged(p.log, op.id, p.cursor)
    ensures AcksPassed(SettledOne(p.history, op, r), op.key, p.cursor) <==> AcksPassed(p.history, op.key, p.cursor)
  {
    var settled := SettledOne(p.history, op, r);
    if AcksPassed(settled, op.key, p.cursor) {
      PassedUnsettled(p, op, r, op.key);
    }
    if AcksPassed(p.history, op.key, p.cursor) {
      var own :| own in p.log && own.op == op.id && own.sequence <= p.cursor;
      forall id | id in settled && settled[id].fate.Acknowledged? && settled[id].fate.key == op.key
        ensures settled[id].fate.sequence <= p.cursor
      {
        assert id != op.id ==> settled[id] == p.history[id];
      }
    }
  }

  /** An operation the log has below the cursor is sent again and acknowledged. That
      leaves its entity off the log if and only if nothing else is queued on it, the
      cursor has passed its acknowledgements, and the row, at the version of the
      repeated operation, is not the last one of the log. */
  lemma RepeatedAckIff(db: Db, p: Position, head: nat, op: Op, r: OpResult)
    requires LogOk(p.log, head) && Plain(op.key) && op.key in db.entities
    requires InOutbox(db.outbox, op) && StillQueued(p.history, op)
    requires r.Acked? && Honest(p.log, op, r) && Logged(p.log, op.id, p.cursor)
    ensures LeftBehind(Push.Ack(db, op, r.serverVersion).entities, Convergence.Settled(p, op, r), op.key)
            <==> && OnEntity(db.outbox, op.key) == map[op.id := op]
                 && AcksPassed(p.history, op.key, p.cursor)
                 && !Shows(db.entities[op.key].(serverVersion := r.serverVersion), p, op.key)
  {
    RepeatPassed(p, head, op, r);
    AckedRow(db, op, r.serverVersion);
    var rest := db.outbox - {op.id};
    RelatedIsOnEntity(rest, op.key);
    var rows := OnEntity(db.outbox, op.key);
    assert op.id in rows;
    WithoutOne(db.outbox, op.key, op.id);
    if OnEntity(rest, op.key) == map[] {
      assert rows == map[op.id := op];
    }
    if rows == map[op.id := op] {
      assert rows - {op.id} == map[];
    }
  }

  /** Where no two changes of the entity have the same version, the row at a change's
      version is what the log shows just when that change is the last one and the row
      agrees with it. */
  lemma ShowsIsLast(e: Entity, p: Position, head: nat, own: Change, k: Key)
    requires LogOk(p.log, head) && own in p.log && own.key == k && own.sequence <= p.cursor
    requires forall x, y | x in p.log && y in p.log && x.key == y.key == k && x.serverVersion == y.serverVersion :: x == y
    ensures Shows(e.(serverVersion := own.serverVersion), p, k)
            <==> Last(p.log, k, p.cursor) == Some(own) && Matches(e.(serverVersion := own.serverVersion), own)
  {
    LastIs(p.log, head, k, p.cursor);
  }

  /** Taking over the remote side of a conflict without telling the server leaves the entity
      off the log if and only if its acknowledgements are passed and the conflict is not
      current: its remote version, digest and deletion are not those of the last change. */
  lemma SilentAcceptanceIff(w: World, r: Resilience.Request)
    requires Conserved(w.s) && LogOk(w.log, w.head) && Accepts(w.s, Resolve(r))
    requires Resilience.Silent(w.s.db.conflicts[r.conflict], r) && Plain(w.s.db.conflicts[r.conflict].key)
    ensures var c, t := w.s.db.conflicts[r.conflict], Play(w, Client(Resolve(r)));
            LeftBehind(t.s.db.entities, Stand(t, {}), c.key)
            <==> AcksPassed(w.s.history, c.key, Cursor(w.s.db)) && !Current(c, Stand(w, {}))
  {
    var t := Play(w, Client(Resolve(r)));
    AcksStay(w.s, Resolve(r));
    SameAcksPassed(w.s.history, t.s.history);
    LocalKeepsSync(w.s, Resolve(r));
    AcceptedShows(w.s.db, r, Stand(t, {}), w.head);
  }

  // A whole answer

  /** The entity is on the way to being left behind: everything queued on it is a
      repeat, in order, and the last of them does not end well. */
  ghost predicate Trail(entities: map<Key, Entity>, rows: map<OpId, Op>, p: Position, k: Key)
  {
    && k in entities && AcksPassed(p.history, k, p.cursor)
    && if rows == map[] then entities[k].status.Clean? && !Shows(entities[k], p, k)
       else Repeats(rows, p) && Linked(rows, k) && !EndsWell(entities[k], rows, p, k)
  }

  lemma TrailElsewhere(db: Db, p: Position, op: Op, r: OpResult, k: Key)
    requires Plain(k) && op.key != k && InOutbox(db.outbox, op) && StillQueued(p.history, op) && r.Acked?
    requires Trail(db.entities, OnEntity(db.outbox, k), p, k)
    ensures Trail(Push.Ack(db, op, r.serverVersion).entities, OnEntity(db.outbox - {op.id}, k), Convergence.Settled(p, op, r), k)
  {
    var q, rows := Convergence.Settled(p, op, r), OnEntity(db.outbox, k);
    AckLeavesOthers(db, op, r.serverVersion, k);
    forall id | id in q.history && q.history[id].fate.Acknowledged? && q.history[id].fate.key == k
      ensures q.history[id].fate.sequence <= q.cursor
    {
      assert q.history[id] == p.history[id];
    }
    SameEnd(db.entities[k], rows, p, q, k);
  }

  lemma SameEnd(e: Entity, rows: map<OpId, Op>, p: Position, q: Position, k: Key)
    requires q == p.(history := q.history)
    ensures EndsWell(e, rows, q, k) <==> EndsWell(e, rows, p, k)
  {
    forall f: Entity
      ensures Shows(f, p, k) <==> Shows(f, q, k)
    {
    }
  }

  lemma OnlyOne(outbox: map<OpId, Op>, op: Op)
    requires InOutbox(outbox, op) && OnEntity(outbox - {op.id}, op.key) == map[]
    ensures OnEntity(outbox, op.key) == map[op.id := op] && Latest(OnEntity(outbox, op.key)) == Some(op.id)
  {
    var rows := OnEntity(outbox, op.key);
    assert op.id in rows;
    WithoutOne(outbox, op.key, op.id);
    assert rows == map[op.id := op];
  }

  lemma LastRepeatEnds(db: Db, p: Position, head: nat, op: Op, r: OpResult)
    requires LogOk(p.log, head) && Plain(op.key) && InOutbox(db.outbox, op) && StillQueued(p.history, op)
    requires r.Acked? && Honest(p.log, op, r)
    requires Trail(db.entities, OnEntity(db.outbox, op.key), p, op.key)
    requires OnEntity(db.outbox - {op.id}, op.key) == map[]
    ensures Trail(Push.Ack(db, op, r.serverVersion).entities, map[], Convergence.Settled(p, op, r), op.key)
  {
    var rows := OnEntity(db.outbox, op.key);
    OnlyOne(db.outbox, op);
    var own :| own in p.log && own.op == op.id && !Shows(db.entities[op.key].(serverVersion := own.serverVersion), p, op.key);
    var ch :| ch in p.log && ch.op == op.id && ch.sequence == r.sequence && ch.serverVersion == r.serverVersion;
    LastUnique(p.log, head, own, ch);
    RepeatedAckIff(db, p, head, op, r);
  }

  lemma OldestRepeatLeaves(db: Db, p: Position, head: nat, op: Op, r: OpResult)
    requires Keyed(db.outbox) && LogOk(p.log, head) && Plain(op.key) && InOutbox(db.outbox, op) && StillQueued(p.history, op)
    requires r.Acked? && Honest(p.log, op, r)
    requires Trail(db.entities, OnEntity(db.outbox, op.key), p, op.key)
    requires forall x | x in OnEntity(db.outbox, op.key) :: !Before(db.outbox[x], op)
    requires OnEntity(db.outbox - {op.id}, op.key) != map[]
    ensures Trail(Push.Ack(db, op, r.serverVersion).entities, OnEntity(db.outbox - {op.id}, op.key), Convergence.Settled(p, op, r), op.key)
  {
    var rows, q, t := OnEntity(db.outbox, op.key), Convergence.Settled(p, op, r), Push.Ack(db, op, r.serverVersion);
    var rest := OnEntity(db.outbox - {op.id}, op.key);
    assert op.id in rows;
    WithoutOne(db.outbox, op.key, op.id);
    OldestLeaves(rows, op.key, op);
    RepeatPassed(p, head, op, r);
    AckedRow(db, op, r.serverVersion);
    StillEndsBadly(db.entities[op.key], t.entities[op.key], rows, rest, p, q, op.key);
  }

  lemma StillEndsBadly(e: Entity, after: Entity, rows: map<OpId, Op>, rest: map<OpId, Op>, p: Position, q: Position, k: Key)
    requires Latest(rest) == Latest(rows) && q == p.(history := q.history)
    requires after == e.(serverVersion := after.serverVersion, status := after.status)
    requires !EndsWell(e, rows, p, k)
    ensures !EndsWell(after, rest, q, k)
  {
    if EndsWell(after, rest, q, k) {
      SameEnd(after, rest, p, q, k);
      EndIsAhead(after, e, rest, p, k);
    }
  }

  lemma TrailStep(db: Db, p: Position, head: nat, op: Op, r: OpResult, k: Key)
    requires Keyed(db.outbox) && LogOk(p.log, head) && Plain(k) && InOutbox(db.outbox, op) && StillQueued(p.history, op)
    requires r.Acked? && Honest(p.log, op, r) && Trail(db.entities, OnEntity(db.outbox, k), p, k)
    requires op.key == k ==> forall x | x in OnEntity(db.outbox, k) :: !Before(db.outbox[x], op)
    ensures Trail(Push.Ack(db, op, r.serverVersion).entities, OnEntity(db.outbox - {op.id}, k), Convergence.Settled(p, op, r), k)
  {
    if op.key != k {
      TrailElsewhere(db, p, op, r, k);
    } else if OnEntity(db.outbox - {op.id}, k) == map[] {
      LastRepeatEnds(db, p, head, op, r);
    } else {
      OldestRepeatLeaves(db, p, head, op, r);
    }
  }

  lemma FrontInLine(outbox: map<OpId, Op>, batch: seq<Op>, k: Key, n: nat)
    requires InLine(outbox, batch, k) && n <= |batch|
    ensures InLine(outbox, batch[..n], k)
  {
    forall j, x | 0 <= j < n && batch[..n][j].key == k && x in OnEntity(outbox, k) && Before(OnEntity(outbox, k)[x], batch[..n][j])
      ensures Scheduler.Within(batch[..n], j, x)
    {
      assert batch[..n][j] == batch[j] && Scheduler.Within(batch, j, x);
      var i :| 0 <= i < j && batch[i].id == x;
      assert batch[..n][i].id == x;
    }
  }

  lemma WithinFront(batch: seq<Op>, n: nat, x: OpId)
    requires n <= |batch|
    ensures Scheduler.Within(batch, n, x) ==> Scheduler.Within(batch[..n], n, x)
  {
    if Scheduler.Within(batch, n, x) {
      var i :| 0 <= i < n && batch[i].id == x;
      assert batch[..n][i].id == x;
    }
  }

  /** Once what is older has been acknowledged, the next operation is the oldest. */
  lemma {:induction false} NextLeavesFirst(outbox: map<OpId, Op>, batch: seq<Op>, k: Key, n: nat)
    requires InLine(outbox, batch, k) && n < |batch| && batch[n].key == k
    ensures var rest := OnEntity(Draining.Without(outbox, batch[..n]), k);
            forall x | x in rest :: !Before(rest[x], batch[n])
  {
    var rest := OnEntity(Draining.Without(outbox, batch[..n]), k);
    Scheduler.IdsAreMembers(batch[..n]);
    forall x | x in rest
      ensures !Before(rest[x], batch[n])
    {
      assert x in OnEntity(outbox, k) && outbox[x] == rest[x];
      WithinFront(batch, n, x);
    }
  }

  lemma {:induction false} TrailFold(db: Db, p: Position, head: nat, batch: seq<Op>, results: seq<OpResult>, k: Key)
    requires Keyed(db.outbox) && LogOk(p.log, head) && Plain(k) && Scheduler.Distinct(batch)
    requires Draining.AllAcked(batch, results) && AllHonest(p.log, batch, results)
    requires forall i | 0 <= i < |batch| :: InOutbox(db.outbox, batch[i]) && StillQueued(p.history, batch[i])
    requires InLine(db.outbox, batch, k) && Trail(db.entities, OnEntity(db.outbox, k), p, k)
    ensures Push.Fold(db, batch, results).Ok? && Push.Fold(db, batch, results).value.outbox == Draining.Without(db.outbox, batch)
    ensures Trail(Push.Fold(db, batch, results).value.entities, OnEntity(Draining.Without(db.outbox, batch), k),
                  Answered(p, batch, results), k)
    decreases |batch|
  {
    Draining.AllAckedRemovesBatch(db, batch, results);
    if batch == [] {
      assert Draining.Without(db.outbox, batch) == db.outbox;
    } else {
      var n := |batch| - 1;
      FrontInLine(db.outbox, batch, k, n);
      TrailFold(db, p, head, batch[..n], results[..n], k);
      TrailAnswer(db, p, head, batch, results, k, n);
    }
  }

  lemma TrailAnswer(db: Db, p: Position, head: nat, batch: seq<Op>, results: seq<OpResult>, k: Key, n: nat)
    requires Keyed(db.outbox) && LogOk(p.log, head) && Plain(k) && Scheduler.Distinct(batch) && |batch| == n + 1
    requires Draining.AllAcked(batch, results) && AllHonest(p.log, batch, results)
    requires InOutbox(db.outbox, batch[n]) && StillQueued(p.history, batch[n]) && InLine(db.outbox, batch, k)
    requires Push.Fold(db, batch[..n], results[..n]).Ok?
    requires Push.Fold(db, batch[..n], results[..n]).value.outbox == Draining.Without(db.outbox, batch[..n])
    requires Trail(Push.Fold(db, batch[..n], results[..n]).value.entities, OnEntity(Draining.Without(db.outbox, batch[..n]), k),
                   Answered(p, batch[..n], results[..n]), k)
    ensures Trail(Push.Fold(db, batch, results).value.entities, OnEntity(Draining.Without(db.outbox, batch), k),
                  Answered(p, batch, results), k)
  {
    var before := Push.Fold(db, batch[..n], results[..n]).value;
    NextIsThere(db, p, batch, results, n);
    if batch[n].key == k { NextLeavesFirst(db.outbox, batch, k, n); }
    assert Honest(p.log, batch[n], results[n]);
    TrailStep(before, Answered(p, batch[..n], results[..n]), head, batch[n], results[n], k);
    WithoutLast(db.outbox, batch, n);
  }

  lemma WithoutLast(outbox: map<OpId, Op>, batch: seq<Op>, n: nat)
    requires |batch| == n + 1
    ensures Draining.Without(outbox, batch) == Draining.Without(outbox, batch[..n]) - {batch[n].id}
  {
  }

  // Runs: what suffices

  /** The operations that no push of the device can send as things stand. */
  ghost function Unready(outbox: map<OpId, Op>, device: DeviceId): set<OpId> {
    outbox.Keys - Scheduler.ReadyRows(Scheduler.DeviceRows(outbox, device)).Keys
  }

  lemma UnreadyIsStuck(outbox: map<OpId, Op>, p: Position)
    requires p.stuck == Unready(outbox, p.device) && p.stuck <= p.history.Keys
    ensures Stuck(outbox, p)
  {
    var rows := Scheduler.DeviceRows(outbox, p.device);
    forall x | x in p.stuck && x in outbox && outbox[x].state.Waiting? && outbox[x].device == p.device
      ensures StuckBehind(outbox, p, x)
    {
      assert x in rows && Held(rows, x);
      var y :| DependsOn(rows, x, y) && !rows[y].state.Waiting?;
      var d :| Edge(rows, x, d) && Reaches(rows, d, y);
      ReachesCases(rows, d, y);
      assert !IsReady(rows, d);
    }
  }

  /** Between requests, and synchronized as far as that shows. */
  ghost predicate Poised(w: World) {
    && Steady(w, {})
    && w.s.sent.None? && Pull.CanResume(w.s.db.sync, Device(w.s))
    && ConflictsBacked(w.s.db.entities, w.s.db.outbox)
    && Converged(w.s.db.entities, Stand(w, {}))
    && NothingMissed(w.s.db.entities, Stand(w, {}))
  }

  /** Every snapshot that is taken over leaves a replica poised. */
  lemma SnapshotPoises(w: World, c: Chunk)
    requires Steady(w, {}) && ConflictsBacked(w.s.db.entities, w.s.db.outbox)
    requires Plays(w, Client(StageChunk(c))) && Activates(w.s.db, c, c.device)
    ensures Poised(Play(w, Client(StageChunk(c))))
  {
    ClientSteady(w, StageChunk(c), {});
    ServedChunk(w.published, w.log, w.head, c);
    StageSwitches(w.s.db, w.published, w.log, w.head, c);
    SwitchShows(w, Play(w, Client(StageChunk(c))), w.published[c.snapshot]);
  }

  lemma SwitchShows(w: World, w': World, chunks: seq<Chunk>)
    requires LogOk(w.log, w.head) && SnapshotOf(chunks, w.log) && w'.log == w.log && w'.s.history == w.s.history
    requires ConflictsBacked(w.s.db.entities, w.s.db.outbox)
    requires var v := After(w.s.db, chunks); Visible(w'.s.db, v.entities, v.outbox, v.sync)
    ensures Pull.CanResume(w'.s.db.sync, Device(w'.s)) && ConflictsBacked(w'.s.db.entities, w'.s.db.outbox)
    ensures Converged(w'.s.db.entities, Stand(w', {})) && NothingMissed(w'.s.db.entities, Stand(w', {}))
  {
    SwitchConverges(w.s.db, Stand(w', {}), w.head, chunks);
    SwitchBacksConflicts(w.s.db, chunks);
  }

  /** No repeat that can be sent does harm. */
  ghost predicate Steers(w: World)
  {
    OnCourse(w.s.db.entities, w.s.db.outbox, Stand(w, Unready(w.s.db.outbox, Device(w.s))))
  }

  lemma PoisedInv(w: World)
    requires Poised(w) && Steers(w)
    ensures WorldInv(w, Unready(w.s.db.outbox, Device(w.s)))
  {
    UnreadyIsStuck(w.s.db.outbox, Stand(w, Unready(w.s.db.outbox, Device(w.s))));
  }

  /** On course, a replica is converged at the end of whatever comes next, as long as that
      keeps it on course. */
  lemma OnCourseConverges(w: World, moves: seq<Move>, w': World)
    requires Poised(w) && Steers(w)
    requires Unfolds(w, moves, w') && AllOnCourse(w, moves, Unready(w.s.db.outbox, Device(w.s)))
    ensures Converged(w'.s.db.entities, Stand(w', {}))
  {
    PoisedInv(w);
    WorldKeepsInv(w, moves, w', Unready(w.s.db.outbox, Device(w.s)));
  }

  /** Everything queued on the entity is ready, in the log already, and does not end well. */
  ghost predicate Doomed(w: World, k: Key)
  {
    && Plain(k)
    && Trail(w.s.db.entities, OnEntity(w.s.db.outbox, k), Stand(w, {}), k)
    && AllReady(w.s.db.outbox, Device(w.s), k)
  }

  ghost predicate AllReady(outbox: map<OpId, Op>, device: DeviceId, k: Key) {
    forall id | id in OnEntity(outbox, k) :: id in Scheduler.ReadyRows(Scheduler.DeviceRows(outbox, device))
  }

  lemma RiskIsReady(w: World, k: Key)
    requires AtRisk(w.s.db.outbox, Stand(w, Unready(w.s.db.outbox, Device(w.s))), k)
    ensures AllReady(w.s.db.outbox, Device(w.s), k)
    ensures AtRisk(w.s.db.outbox, Stand(w, {}), k)
    ensures forall id | id in OnEntity(w.s.db.outbox, k) :: w.s.db.outbox[id].device == Device(w.s)
  {
    var rows := OnEntity(w.s.db.outbox, k);
    forall id | id in rows
      ensures id in Scheduler.ReadyRows(Scheduler.DeviceRows(w.s.db.outbox, Device(w.s)))
    {
      assert id !in Unready(w.s.db.outbox, Device(w.s));
    }
  }

  lemma RiskIsMarked(db: Db, p: Position, k: Key)
    requires DirtyWork.Work(db) && AtRisk(db.outbox, p, k)
    ensures k in db.entities && !db.entities[k].status.Clean?
  {
    var id :| id in OnEntity(db.outbox, k);
    assert OnEntity(db.outbox, k)[id].state.Waiting?;
    assert DirtyWork.Marked(db.entities, Owner(db.outbox[id].key));
  }

  lemma StuckAside(e: Entity, rows: map<OpId, Op>, p: Position, q: Position, k: Key)
    requires q == p.(stuck := q.stuck)
    ensures EndsWell(e, rows, q, k) <==> EndsWell(e, rows, p, k)
  {
    forall f: Entity
      ensures Shows(f, p, k) <==> Shows(f, q, k)
    {
    }
  }

  lemma RiskDooms(w: World, k: Key)
    requires Poised(w) && Linked(w.s.db.outbox, k)
    requires AtRisk(w.s.db.outbox, Stand(w, Unready(w.s.db.outbox, Device(w.s))), k)
    requires !Harmless(w.s.db.entities, OnEntity(w.s.db.outbox, k), Stand(w, Unready(w.s.db.outbox, Device(w.s))), k)
    ensures Doomed(w, k)
  {
    var outbox, p := w.s.db.outbox, Stand(w, Unready(w.s.db.outbox, Device(w.s)));
    var rows := OnEntity(outbox, k);
    RiskIsReady(w, k);
    UntouchedLinked(outbox, rows, k);
    RiskIsMarked(w.s.db, p, k);
    StuckAside(w.s.db.entities[k], rows, p, Stand(w, {}), k);
  }

  lemma DoomRisks(w: World, k: Key)
    requires Poised(w) && Doomed(w, k)
    ensures AtRisk(w.s.db.outbox, Stand(w, Unready(w.s.db.outbox, Device(w.s))), k)
    ensures !Harmless(w.s.db.entities, OnEntity(w.s.db.outbox, k), Stand(w, Unready(w.s.db.outbox, Device(w.s))), k)
  {
    var outbox, p := w.s.db.outbox, Stand(w, Unready(w.s.db.outbox, Device(w.s)));
    var rows := OnEntity(outbox, k);
    assert rows != map[];
    StuckAside(w.s.db.entities[k], rows, p, Stand(w, {}), k);
  }

  /** Where operations are linked, a replica is on course if and only if there is no
      entity with only repeats queued, all of them ready, that do not end well. */
  lemma OffCourseIsDoom(w: World)
    requires Poised(w) && forall k | Plain(k) :: Linked(w.s.db.outbox, k)
    ensures Steers(w) <==> forall k :: !Doomed(w, k)
  {
    if k :| Doomed(w, k) {
      DoomRisks(w, k);
    }
    if !Steers(w) {
      var p := Stand(w, Unready(w.s.db.outbox, Device(w.s)));
      var k :| AtRisk(w.s.db.outbox, p, k) && !Harmless(w.s.db.entities, OnEntity(w.s.db.outbox, k), p, k);
      RiskDooms(w, k);
    }
  }

  // Runs: what happens otherwise

  ghost predicate Known(log: seq<Change>, id: OpId) {
    exists ch :: ch in log && ch.op == id
  }

  function RowOf(log: seq<Change>, id: OpId): (r: Option<Change>)
    ensures r.Some? <==> Known(log, id)
    ensures r.Some? ==> r.value in log && r.value.op == id
  {
    if log == [] then None
    else if log[|log| - 1].op == id then Some(log[|log| - 1])
    else
      assert log == log[..|log| - 1] + [log[|log| - 1]];
      RowOf(log[..|log| - 1], id)
  }

  /** What the server logs when it applies an operation: the body of the digest sent. */
  function Applied(op: Op, sequence: nat): Change {
    Change(sequence, op.id, op.key, op.baseVersion + 1, op.occurredAt, op.kind.Delete?,
           if op.kind.Delete? then Some(op.occurredAt) else None, op.payloadHash.payload, op.payloadHash)
  }

  predicate Pushing(m: Move) {
    m.Append? || (m.Client? && (m.event.SendPush? || m.event.PushAnswered?))
  }

  predicate OnlyPushes(moves: seq<Move>) {
    forall i | 0 <= i < |moves| :: Pushing(moves[i])
  }

  lemma {:induction false} UnfoldsOn(w: World, moves: seq<Move>, mid: World, m: Move, end: World)
    requires Unfolds(w, moves, mid) && Unfolds(mid, [m], end)
    ensures Unfolds(w, moves + [m], end)
    decreases |moves|
  {
    if moves == [] {
      assert moves + [m] == [m];
    } else {
      UnfoldsOn(Play(w, moves[0]), moves[1..], mid, m, end);
      UnfoldsFirst(w, moves[0], moves[1..] + [m], end);
      assert moves + [m] == [moves[0]] + (moves[1..] + [m]);
    }
  }

  lemma UnfoldsFirst(w: World, m: Move, rest: seq<Move>, end: World)
    requires Plays(w, m) && Unfolds(Play(w, m), rest, end)
    ensures Unfolds(w, [m] + rest, end)
  {
    assert ([m] + rest)[1..] == rest;
  }

  lemma UnfoldsOne(w: World, m: Move)
    requires Plays(w, m)
    ensures Unfolds(w, [m], Play(w, m))
  {
    assert [m][1..] == [];
  }

  lemma AppendedTrail(entities: map<Key, Entity>, outbox: map<OpId, Op>, p: Position, ch: Change, k: Key)
    requires Plain(k) && p.cursor < ch.sequence && Trail(entities, OnEntity(outbox, k), p, k)
    requires forall other | other in p.log :: other.op != ch.op
    ensures Trail(entities, OnEntity(outbox, k), p.(log := p.log + [ch]), k)
  {
    var q, rows := p.(log := p.log + [ch]), OnEntity(outbox, k);
    AppendedLast(p.log, ch, k, p.cursor);
    if rows != map[] {
      AppendedRisk(outbox, p, ch, k);
      var newest := Latest(rows).value;
      assert Logged(p.log, newest, p.cursor);
      assert forall own :: own in q.log && own.op == newest <==> own in p.log && own.op == newest;
      EndsAlike(entities[k], rows, p, q, k);
    }
  }

  ghost predicate InQueue(outbox: map<OpId, Op>, batch: seq<Op>) {
    forall i | 0 <= i < |batch| :: batch[i].id in outbox && outbox[batch[i].id] == batch[i]
  }

  /** A run of pushes and of what the server applies for them. */
  ghost predicate PushesTo(w: World, moves: seq<Move>, end: World) {
    Unfolds(w, moves, end) && OnlyPushes(moves)
  }

  lemma PushesOn(w: World, moves: seq<Move>, mid: World, m: Move)
    requires PushesTo(w, moves, mid) && Pushing(m) && Keyed(mid.s.db.outbox) && Plays(mid, m)
    ensures PushesTo(w, moves + [m], Play(mid, m))
  {
    UnfoldsOne(mid, m);
    UnfoldsOn(w, moves, mid, m, Play(mid, m));
  }

  ghost predicate OnTrail(w: World, k: Key) {
    Steady(w, {}) && Plain(k) && Trail(w.s.db.entities, OnEntity(w.s.db.outbox, k), Stand(w, {}), k)
  }

  /** The world once the server has applied an operation. */
  function Served(w: World, op: Op): World {
    w.(log := w.log + [Applied(op, w.head + 1)], head := w.head + 1)
  }

  lemma ServePlays(w: World, op: Op)
    requires op.id in w.s.db.outbox && w.s.db.outbox[op.id] == op && op.id in w.requested && !Known(w.log, op.id)
    ensures Plays(w, Append(Applied(op, w.head + 1))) && Play(w, Append(Applied(op, w.head + 1))) == Served(w, op)
  {
  }

  lemma ServeSteady(w: World, op: Op)
    requires Steady(w, {}) && op.id in w.s.db.outbox && w.s.db.outbox[op.id] == op && op.id in w.requested && !Known(w.log, op.id)
    ensures Steady(Served(w, op), {})
  {
    ServePlays(w, op);
    AppendSteady(w, Applied(op, w.head + 1), {});
  }

  lemma ServeTrail(w: World, op: Op, k: Key)
    requires Plain(k) && Cursor(w.s.db) <= w.head && !Known(w.log, op.id)
    requires Trail(w.s.db.entities, OnEntity(w.s.db.outbox, k), Stand(w, {}), k)
    ensures Trail(w.s.db.entities, OnEntity(w.s.db.outbox, k), Stand(Served(w, op), {}), k)
  {
    AppendedTrail(w.s.db.entities, w.s.db.outbox, Stand(w, {}), Applied(op, w.head + 1), k);
  }

  lemma ServeOne(w: World, op: Op, k: Key)
    requires OnTrail(w, k) && op.id in w.s.db.outbox && w.s.db.outbox[op.id] == op && op.id in w.requested && !Known(w.log, op.id)
    ensures OnTrail(Served(w, op), k)
  {
    ServeSteady(w, op);
    ServeTrail(w, op, k);
  }

  lemma PushesServe(w: World, moves: seq<Move>, mid: World, op: Op)
    requires PushesTo(w, moves, mid)
    requires Keyed(mid.s.db.outbox) && op.id in mid.s.db.outbox && mid.s.db.outbox[op.id] == op && op.id in mid.requested && !Known(mid.log, op.id)
    ensures PushesTo(w, moves + [Append(Applied(op, mid.head + 1))], Served(mid, op))
  {
    ServePlays(mid, op);
    PushesOn(w, moves, mid, Append(Applied(op, mid.head + 1)));
  }

  ghost predicate HasRows(log: seq<Change>, batch: seq<Op>, n: nat)
    requires n <= |batch|
  {
    forall i | 0 <= i < n :: Known(log, batch[i].id)
  }

  ghost predicate AllRequested(requested: set<OpId>, batch: seq<Op>) {
    forall i | 0 <= i < |batch| :: batch[i].id in requested
  }

  /** Of a batch that was sent, the first n operations are in the log. */
  ghost predicate Serving(w: World, sent: System, batch: seq<Op>, k: Key, n: nat, moves: seq<Move>, end: World) {
    && PushesTo(w, moves, end) && OnTrail(end, k) && end.s == sent && InQueue(sent.db.outbox, batch)
    && AllRequested(end.requested, batch) && n <= |batch| && HasRows(end.log, batch, n)
  }

  lemma {:induction false} ServesNext(w: World, sent: System, batch: seq<Op>, k: Key, n: nat, moves: seq<Move>, end: World)
    requires Serving(w, sent, batch, k, n, moves, end) && n < |batch| && !Known(end.log, batch[n].id)
    ensures Serving(w, sent, batch, k, n + 1, moves + [Append(Applied(batch[n], end.head + 1))], Served(end, batch[n]))
  {
    ServeOne(end, batch[n], k);
    PushesServe(w, moves, end, batch[n]);
    RowsStay(end.log, Applied(batch[n], end.head + 1), batch, n);
  }

  lemma {:induction false} ServesKnown(w: World, sent: System, batch: seq<Op>, k: Key, n: nat, moves: seq<Move>, end: World)
    requires Serving(w, sent, batch, k, n, moves, end) && n < |batch| && Known(end.log, batch[n].id)
    ensures Serving(w, sent, batch, k, n + 1, moves, end)
  {
  }

  /** The server applies what it has not applied before, in order. */
  method Serve(w: World, moves: seq<Move>, mid: World, batch: seq<Op>, ghost k: Key) returns (more: seq<Move>, end: World)
    requires Serving(w, mid.s, batch, k, 0, moves, mid)
    ensures Serving(w, mid.s, batch, k, |batch|, more, end)
  {
    more, end := moves, mid;
    var n := 0;
    while n < |batch|
      invariant n <= |batch| && Serving(w, mid.s, batch, k, n, more, end)
    {
      if RowOf(end.log, batch[n].id).None? {
        ServesNext(w, mid.s, batch, k, n, more, end);
        more, end := more + [Append(Applied(batch[n], end.head + 1))], Served(end, batch[n]);
      } else {
        ServesKnown(w, mid.s, batch, k, n, more, end);
      }
      n := n + 1;
    }
  }

  lemma {:induction false} RowsStay(log: seq<Change>, ch: Change, batch: seq<Op>, n: nat)
    requires n < |batch| && ch.op == batch[n].id && HasRows(log, batch, n)
    ensures HasRows(log + [ch], batch, n + 1)
  {
    forall i | 0 <= i <= n
      ensures Known(log + [ch], batch[i].id)
    {
      if i == n {
        assert ch in log + [ch];
      } else {
        assert Known(log, batch[i].id);
        var row :| row in log && row.op == batch[i].id;
        assert row in log + [ch];
      }
    }
  }

  /** Every operation of the batch is acknowledged with its row. */
  function Answers(log: seq<Change>, batch: seq<Op>): (r: seq<OpResult>)
    requires HasRows(log, batch, |batch|)
    ensures Draining.AllAcked(batch, r)
  {
    seq(|batch|, i requires 0 <= i < |batch| =>
      var row := RowOf(log, batch[i].id).value; Acked(batch[i].id, true, row.serverVersion, row.sequence))
  }

  lemma AnswersAreHonest(outbox: map<OpId, Op>, log: seq<Change>, batch: seq<Op>)
    requires InQueue(outbox, batch) && SameSubject(outbox, log)
    requires HasRows(log, batch, |batch|)
    ensures AllHonest(log, batch, Answers(log, batch))
  {
    forall i | 0 <= i < |batch|
      ensures Honest(log, batch[i], Answers(log, batch)[i])
    {
      var row := RowOf(log, batch[i].id).value;
      assert row.key == outbox[batch[i].id].key;
    }
  }

  /** What an answer that acknowledges the whole request leaves. */
  lemma AnsweredTables(s: System, results: seq<OpResult>)
    requires s.sent.Some? && Draining.AllAcked(s.sent.value.batch, results)
    requires Pull.CanResume(s.db.sync, Device(s))
    ensures var t := Next(s, PushAnswered(results));
            var folded := Push.Fold(s.db.(vault := Push.SealRemotes(s.db.vault, results)), s.sent.value.batch, results);
            && folded.Ok? && t.db.entities == folded.value.entities
            && t.db.outbox == Draining.Without(s.db.outbox, s.sent.value.batch)
            && t.history == SettleAcked(s.history, s.sent.value.batch, results)
            && t.sent.None? && Pull.CanResume(t.db.sync, Device(t)) && Device(t) == Device(s)
            && Cursor(t.db) == Cursor(s.db)
  {
    var sealed := s.db.(vault := Push.SealRemotes(s.db.vault, results));
    Draining.AllAckedRemovesBatch(sealed, s.sent.value.batch, results);
    FoldSync(sealed, s.sent.value.batch, results);
  }

  lemma AnsweredTrail(w: World, listing: seq<Op>, results: seq<OpResult>, k: Key)
    requires Steady(w, {}) && w.s.sent == Some(Request(w.s, listing)) && Doomed(w, k)
    requires Scheduler.ReadyListing(Scheduler.DeviceRows(w.s.db.outbox, Device(w.s)), listing)
    requires Draining.AllAcked(Batch(listing), results) && AllHonest(w.log, Batch(listing), results)
    ensures var sealed := w.s.db.(vault := Push.SealRemotes(w.s.db.vault, results));
            && Push.Fold(sealed, Batch(listing), results).Ok?
            && Keyed(OnEntity(Draining.Without(w.s.db.outbox, Batch(listing)), k))
            && Trail(Push.Fold(sealed, Batch(listing), results).value.entities,
                     OnEntity(Draining.Without(w.s.db.outbox, Batch(listing)), k),
                     Answered(Stand(w, {}), Batch(listing), results), k)
  {
    RequestLines(w, listing, k);
    TrailFold(w.s.db.(vault := Push.SealRemotes(w.s.db.vault, results)), Stand(w, {}), w.head, Batch(listing), results, k);
  }

  /** The entity stays on its way while a batch of ready operations is acknowledged. */
  lemma AnswerKeepsDoom(w: World, listing: seq<Op>, results: seq<OpResult>, k: Key)
    requires Steady(w, {}) && w.s.sent == Some(Request(w.s, listing)) && Pull.CanResume(w.s.db.sync, Device(w.s))
    requires Scheduler.ReadyListing(Scheduler.DeviceRows(w.s.db.outbox, Device(w.s)), listing) && Doomed(w, k)
    requires Draining.AllAcked(Batch(listing), results) && AllHonest(w.log, Batch(listing), results)
    ensures var t := Next(w.s, PushAnswered(results));
            && Keyed(t.db.outbox) && t.db.outbox == Draining.Without(w.s.db.outbox, Batch(listing))
            && t.sent.None? && Pull.CanResume(t.db.sync, Device(t)) && Device(t) == Device(w.s)
            && Doomed(w.(s := t), k)
  {
    AnsweredTables(w.s, results);
    AnsweredTrail(w, listing, results, k);
    StaysReady(w.s.db.outbox, Device(w.s), listing, k);
    SamePlace(w, Next(w.s, PushAnswered(results)), Batch(listing), results);
  }

  lemma SamePlace(w: World, t: System, batch: seq<Op>, results: seq<OpResult>)
    requires |batch| == |results| && t.history == SettleAcked(w.s.history, batch, results)
    requires Cursor(t.db) == Cursor(w.s.db) && Device(t) == Device(w.s)
    ensures Stand(w.(s := t), {}) == Answered(Stand(w, {}), batch, results)
  {
  }

  lemma RequestLines(w: World, listing: seq<Op>, k: Key)
    requires Steady(w, {}) && w.s.sent == Some(Request(w.s, listing)) && Doomed(w, k)
    requires Scheduler.ReadyListing(Scheduler.DeviceRows(w.s.db.outbox, Device(w.s)), listing)
    ensures Scheduler.Distinct(Batch(listing)) && InLine(w.s.db.outbox, Batch(listing), k)
    ensures forall i | 0 <= i < |Batch(listing)| ::
              InOutbox(w.s.db.outbox, Batch(listing)[i]) && StillQueued(w.s.history, Batch(listing)[i])
  {
    var rows := OnEntity(w.s.db.outbox, k);
    if rows != map[] {
      forall id | id in rows
        ensures w.s.db.outbox[id].device == Device(w.s)
      {
        assert id in Scheduler.ReadyRows(Scheduler.DeviceRows(w.s.db.outbox, Device(w.s)));
      }
      ListingIsInLine(w.s.db.outbox, Stand(w, {}), listing, k);
    }
    forall i | 0 <= i < |Batch(listing)|
      ensures InOutbox(w.s.db.outbox, Batch(listing)[i]) && StillQueued(w.s.history, Batch(listing)[i])
    {
      assert w.s.sent.value.batch[i] == Batch(listing)[i];
      assert w.s.db.outbox[Batch(listing)[i].id] == Batch(listing)[i];
    }
  }

  lemma StaysReady(outbox: map<OpId, Op>, device: DeviceId, listing: seq<Op>, k: Key)
    requires Scheduler.ReadyListing(Scheduler.DeviceRows(outbox, device), listing) && AllReady(outbox, device, k)
    ensures AllReady(Draining.Without(outbox, Batch(listing)), device, k)
  {
    var rows := Scheduler.DeviceRows(outbox, device);
    Draining.DeviceRowsWithout(outbox, device, Batch(listing));
    Draining.RoundReady(rows, listing);
    forall id | id in OnEntity(Draining.Without(outbox, Batch(listing)), k)
      ensures id in Scheduler.ReadyRows(rows - Scheduler.Ids(Batch(listing)))
    {
      assert id in OnEntity(outbox, k);
    }
  }

  /** Ready to push, and on the way to being left behind. */
  ghost predicate Underway(w: World, k: Key) {
    OnTrail(w, k) && w.s.sent.None? && Pull.CanResume(w.s.db.sync, Device(w.s)) && AllReady(w.s.db.outbox, Device(w.s), k)
  }

  lemma SendStaysOnTrail(w: World, listing: seq<Op>, k: Key)
    requires Underway(w, k) && listing != []
    requires Scheduler.ReadyListing(Scheduler.DeviceRows(w.s.db.outbox, Device(w.s)), listing)
    ensures Plays(w, Client(SendPush(listing)))
    ensures var sent := Play(w, Client(SendPush(listing)));
            OnTrail(sent, k) && sent.s.db == w.s.db && sent.s.sent == Some(Request(w.s, listing))
  {
    ClientSteady(w, SendPush(listing), {});
  }

  lemma AnswerStaysUnderway(w: World, listing: seq<Op>, results: seq<OpResult>, k: Key)
    requires OnTrail(w, k) && w.s.sent == Some(Request(w.s, listing)) && Pull.CanResume(w.s.db.sync, Device(w.s))
    requires Scheduler.ReadyListing(Scheduler.DeviceRows(w.s.db.outbox, Device(w.s)), listing)
    requires AllReady(w.s.db.outbox, Device(w.s), k)
    requires Draining.AllAcked(Batch(listing), results) && AllHonest(w.log, Batch(listing), results)
    ensures Plays(w, Client(PushAnswered(results)))
    ensures var end := Play(w, Client(PushAnswered(results)));
            Underway(end, k) && end.s.db.outbox == Draining.Without(w.s.db.outbox, Batch(listing))
  {
    AnswerKeepsDoom(w, listing, results, k);
    ClientSteady(w, PushAnswered(results), {});
  }

  lemma SendServes(w: World, moves: seq<Move>, mid: World, listing: seq<Op>, k: Key)
    requires PushesTo(w, moves, mid) && Underway(mid, k) && OnEntity(mid.s.db.outbox, k) != map[]
    requires Scheduler.ReadyListing(Scheduler.DeviceRows(mid.s.db.outbox, Device(mid.s)), listing)
    ensures Plays(mid, Client(SendPush(listing))) && listing != []
    ensures var sent := Play(mid, Client(SendPush(listing)));
            && sent.s.db == mid.s.db && sent.s.sent == Some(Request(mid.s, listing))
            && Serving(w, sent.s, Batch(listing), k, 0, moves + [Client(SendPush(listing))], sent)
  {
    ListingIsFull(mid, listing, k);
    SendStaysOnTrail(mid, listing, k);
    PushesOn(w, moves, mid, Client(SendPush(listing)));
  }

  lemma AnswerEnds(w: World, moves: seq<Move>, served: World, listing: seq<Op>, k: Key, m: Move)
    requires Serving(w, served.s, Batch(listing), k, |Batch(listing)|, moves, served) && listing != []
    requires served.s.sent == Some(Request(served.s, listing)) && Pull.CanResume(served.s.db.sync, Device(served.s))
    requires Scheduler.ReadyListing(Scheduler.DeviceRows(served.s.db.outbox, Device(served.s)), listing)
    requires AllReady(served.s.db.outbox, Device(served.s), k)
    requires m == Client(PushAnswered(Answers(served.log, Batch(listing))))
    ensures Plays(served, m)
    ensures PushesTo(w, moves + [m], Play(served, m)) && Underway(Play(served, m), k)
    ensures |Play(served, m).s.db.outbox| < |served.s.db.outbox|
  {
    AnswersAreHonest(served.s.db.outbox, served.log, Batch(listing));
    AnswerStaysUnderway(served, listing, m.event.results, k);
    PushesOn(w, moves, served, m);
    BatchLeaves(served.s.db.outbox, listing);
  }

  /** One push, answered by a server that acknowledges everything. */
  method PushOnce(w: World, moves: seq<Move>, mid: World, k: Key) returns (more: seq<Move>, end: World)
    requires PushesTo(w, moves, mid) && Underway(mid, k) && OnEntity(mid.s.db.outbox, k) != map[]
    ensures PushesTo(w, more, end) && Underway(end, k)
    ensures |end.s.db.outbox| < |mid.s.db.outbox|
  {
    QueueIsAcyclic(mid.s, Device(mid.s));
    var ready := Scheduler.ListReady(mid.s.db.outbox, Device(mid.s));
    var send := Client(SendPush(ready.value));
    SendServes(w, moves, mid, ready.value, k);
    more, end := Serve(w, moves + [send], Play(mid, send), Batch(ready.value), k);
    var answer := Client(PushAnswered(Answers(end.log, Batch(ready.value))));
    AnswerEnds(w, more, end, ready.value, k, answer);
    more, end := more + [answer], Play(end, answer);
  }

  lemma ListingIsFull(w: World, listing: seq<Op>, k: Key)
    requires AllReady(w.s.db.outbox, Device(w.s), k) && OnEntity(w.s.db.outbox, k) != map[]
    requires Scheduler.ReadyListing(Scheduler.DeviceRows(w.s.db.outbox, Device(w.s)), listing)
    ensures listing != [] && InQueue(w.s.db.outbox, Batch(listing))
  {
    var id :| id in OnEntity(w.s.db.outbox, k);
    assert id in Scheduler.Ids(listing);
    forall i | 0 <= i < |Batch(listing)|
      ensures Batch(listing)[i].id in w.s.db.outbox && w.s.db.outbox[Batch(listing)[i].id] == Batch(listing)[i]
    {
      assert Batch(listing)[i] == listing[i];
    }
  }

  lemma BatchLeaves(outbox: map<OpId, Op>, listing: seq<Op>)
    requires InQueue(outbox, Batch(listing)) && listing != []
    ensures |Draining.Without(outbox, Batch(listing))| < |outbox|
  {
    var batch := Batch(listing);
    Scheduler.IdsAreMembers(batch);
    assert Scheduler.Within(batch, |batch|, batch[0].id);
    assert batch[0].id in outbox.Keys;
    assert Draining.Without(outbox, batch).Keys < outbox.Keys;
    assert |Draining.Without(outbox, batch).Keys| < |outbox.Keys|;
  }

  /** Push after push, against a server that acknowledges everything, such an entity
      ends up clean and off the log. */
  method FindDivergence(w: World, k: Key) returns (moves: seq<Move>, end: World)
    requires Poised(w) && Doomed(w, k)
    ensures Unfolds(w, moves, end) && OnlyPushes(moves)
    ensures LeftBehind(end.s.db.entities, Stand(end, {}), k)
    ensures !Converged(end.s.db.entities, Stand(end, {}))
  {
    moves, end := [], w;
    while OnEntity(end.s.db.outbox, k) != map[]
      invariant Underway(end, k) && PushesTo(w, moves, end)
      decreases |end.s.db.outbox|
    {
      moves, end := PushOnce(w, moves, end, k);
    }
  }
}
