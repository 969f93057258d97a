/**
 One transaction after the other, a replica that pushes and pulls stays on the
 server's log: clean rows show the last change below the cursor.

 What can lead it astray is an operation that is sent although the log below the
 cursor has it already, because its first answer was lost and the cursor has moved
 past it since. A replica is on course when no such repeat can do harm.
 */
module Convergence {
  import opened Types
  import opened Repository
  import opened Runs
  import opened DirtyWork
  import opened Chains
  import opened ServerLog
  import Outbox
  import Push
  import Pull
  import NoteEdits
  import Pages
  import LocalRepository
  import Scheduler

  /** Where the replica stands: what became of its operations, the log and how much of
      it has been seen, the device, and operations known never to be sent again. */
  datatype Position = Position(
    history: map<OpId, Entry>,
    log: seq<Change>,
    cursor: nat,
    device: DeviceId,
    stuck: set<OpId>)

  /** The entity shows the change. A protected body is held by reference. */
  predicate Matches(e: Entity, ch: Change) {
    && e.serverVersion == ch.serverVersion
    && e.payloadHash == ch.payloadHash
    && e.deletedAt == ch.deletedAt
    && (e.payload == ch.payload || (Protected(ch.key.kind) && e.payload.Reference?))
  }

  ghost predicate Shows(e: Entity, p: Position, k: Key) {
    Last(p.log, k, p.cursor).Some? && Matches(e, Last(p.log, k, p.cursor).value)
  }

  predicate ConflictQueued(outbox: map<OpId, Op>, k: Key) {
    exists id | id in outbox :: outbox[id].key == k && outbox[id].state.InConflict?
  }

  /** A conflicted entity has an operation in conflict, or nothing queued. */
  ghost predicate ConflictsBacked(entities: map<Key, Entity>, outbox: map<OpId, Op>) {
    forall k, id | k in entities && Plain(k) && entities[k].status.Conflicted? && id in outbox && outbox[id].key == k ::
      ConflictQueued(outbox, k)
  }

  /** Clean entities whose acknowledgements the cursor has passed show the log. */
  ghost predicate Converged(entities: map<Key, Entity>, p: Position) {
    forall k | k in entities && Plain(k) && entities[k].status.Clean? && AcksPassed(p.history, k, p.cursor) ::
      Shows(entities[k], p, k)
  }

  ghost predicate NothingMissed(entities: map<Key, Entity>, p: Position) {
    forall k | Plain(k) && Last(p.log, k, p.cursor).Some? :: k in entities
  }

  // Repeats

  /** Everything queued on the entity may be sent and is in the log already. */
  ghost predicate Repeats(rows: map<OpId, Op>, p: Position) {
    rows != map[] && forall id | id in rows :: rows[id].state.Waiting? && Logged(p.log, id, p.cursor) && id !in p.stuck
  }

  ghost predicate AtRisk(outbox: map<OpId, Op>, p: Position, k: Key) {
    Plain(k) && AcksPassed(p.history, k, p.cursor) && Repeats(OnEntity(outbox, k), p)
  }

  /** With the version of the newest operation the row shows the log. */
  ghost predicate EndsWell(e: Entity, rows: map<OpId, Op>, p: Position, k: Key)
  {
    var newest := Latest(rows);
    newest.Some? && forall own | own in p.log && own.op == newest.value :: Shows(e.(serverVersion := own.serverVersion), p, k)
  }

  /** The repeats will be sent in order, and the last of them ends well. */
  ghost predicate Harmless(entities: map<Key, Entity>, rows: map<OpId, Op>, p: Position, k: Key)
  {
    && k in entities && Linked(rows, k)
    && (forall id | id in rows :: rows[id].device == p.device)
    && EndsWell(entities[k], rows, p, k)
  }

  ghost predicate OnCourse(entities: map<Key, Entity>, outbox: map<OpId, Op>, p: Position)
  {
    forall k | AtRisk(outbox, p, k) :: Harmless(entities, OnEntity(outbox, k), p, k)
  }

  ghost predicate Data(db: Db, p: Position)
  {
    && OnCourse(db.entities, db.outbox, p)
    && ConflictsBacked(db.entities, db.outbox)
    && Converged(db.entities, p)
    && NothingMissed(db.entities, p)
  }

  /** Logged operations are the queued ones, as far as they share an id. */
  ghost predicate SameSubject(outbox: map<OpId, Op>, log: seq<Change>) {
    forall id, ch | id in outbox && ch in log && ch.op == id :: ch.key == outbox[id].key
  }

  ghost predicate Sound(db: Db, p: Position, head: nat) {
    && Keyed(db.outbox) && Work(db) && LogOk(p.log, head)
    && SameSubject(db.outbox, p.log) && AcksLogged(p.history, p.log)
  }

  lemma RiskIsAbout(outbox: map<OpId, Op>, after: map<OpId, Op>, p: Position, q: Position, k: Key)
    requires OnEntity(after, k) == OnEntity(outbox, k)
    requires q == p.(history := q.history, cursor := q.cursor)
    requires AtRisk(after, q, k)
    requires AcksPassed(q.history, k, q.cursor) ==> AcksPassed(p.history, k, p.cursor)
    requires forall id | id in OnEntity(outbox, k) && Logged(p.log, id, q.cursor) :: Logged(p.log, id, p.cursor)
    ensures AtRisk(outbox, p, k)
  {
  }

  lemma HarmlessStays(entities: map<Key, Entity>, after: map<Key, Entity>, rows: map<OpId, Op>, p: Position, q: Position, k: Key)
    requires Harmless(entities, rows, p, k)
    requires k in after && after[k] == entities[k] && q == p.(history := q.history, cursor := q.cursor)
    requires Last(p.log, k, q.cursor) == Last(p.log, k, p.cursor)
    ensures Harmless(after, rows, q, k)
  {
  }

  // Pull

  function At(p: Position, cursor: nat): Position {
    p.(cursor := cursor)
  }

  lemma StepShowsChange(db: Db, device: DeviceId, ch: Change)
    requires Plain(ch.key)
    ensures var t := Pull.Step(db, device, ch);
            ch.key in t.entities && (t.entities[ch.key].status.Clean? ==> Matches(t.entities[ch.key], ch))
  {
    Pages.StepWrites(db, device, ch);
  }

  lemma StepLeavesOthers(db: Db, device: DeviceId, ch: Change, k: Key)
    requires Plain(k) && k != ch.key
    ensures var t := Pull.Step(db, device, ch);
            && (k in t.entities <==> k in db.entities) && (k in t.entities ==> t.entities[k] == db.entities[k])
            && OnEntity(t.outbox, k) == OnEntity(db.outbox, k)
  {
    Pages.StepWrites(db, device, ch);
    HoldLeavesOthers(db.outbox, ch.key, k);
  }

  lemma HoldLeavesOthers(outbox: map<OpId, Op>, held: Key, k: Key)
    requires Plain(k) && k != held
    ensures OnEntity(Pull.HoldRelated(outbox, held), k) == OnEntity(outbox, k)
  {
  }

  /** A cursor that moves over a stretch without changes to k. */
  lemma ConvergedFor(entities: map<Key, Entity>, p: Position, head: nat, next: nat, k: Key)
    requires LogOk(p.log, head) && AcksLogged(p.history, p.log) && p.cursor <= next
    requires Converged(entities, p) && k in entities && Plain(k) && entities[k].status.Clean?
    requires forall ch | ch in p.log && p.cursor < ch.sequence <= next :: ch.key != k
    requires AcksPassed(p.history, k, next)
    ensures Shows(entities[k], At(p, next), k)
  {
    LastKept(p.log, head, k, p.cursor, next);
    PassedBefore(p.history, p.log, p.cursor, next, k);
  }

  lemma StepConverges(db: Db, p: Position, head: nat, ch: Change)
    requires Sound(db, p, head) && Converged(db.entities, p) && NextInLog(p.log, p.cursor, ch)
    ensures Converged(Pull.Step(db, p.device, ch).entities, At(p, ch.sequence))
  {
    var t := Pull.Step(db, p.device, ch);
    forall k | k in t.entities && Plain(k) && t.entities[k].status.Clean? && AcksPassed(p.history, k, ch.sequence)
      ensures Shows(t.entities[k], At(p, ch.sequence), k)
    {
      if k == ch.key {
        LastMoves(p.log, head, ch);
        StepShowsChange(db, p.device, ch);
      } else {
        StepLeavesOthers(db, p.device, ch, k);
        ConvergedFor(db.entities, p, head, ch.sequence, k);
      }
    }
  }

  lemma StepMissesNothing(db: Db, p: Position, head: nat, ch: Change)
    requires Sound(db, p, head) && NothingMissed(db.entities, p) && NextInLog(p.log, p.cursor, ch)
    ensures NothingMissed(Pull.Step(db, p.device, ch).entities, At(p, ch.sequence))
  {
    forall k | Plain(k) && Last(p.log, k, ch.sequence).Some?
      ensures k in Pull.Step(db, p.device, ch).entities
    {
      if k == ch.key {
        StepShowsChange(db, p.device, ch);
      } else {
        LastKept(p.log, head, k, p.cursor, ch.sequence);
        StepLeavesOthers(db, p.device, ch, k);
      }
    }
  }

  lemma StepKeepsConflictQueued(db: Db, device: DeviceId, ch: Change, k: Key)
    requires ConflictQueued(db.outbox, k)
    ensures ConflictQueued(Pull.Step(db, device, ch).outbox, k)
  {
    var t := Pull.Step(db, device, ch);
    Pages.StepWrites(db, device, ch);
    var other :| other in db.outbox && db.outbox[other].key == k && db.outbox[other].state.InConflict?;
    assert t.outbox[other].key == k && t.outbox[other].state.InConflict?;
  }

  lemma StepBacksConflicts(db: Db, device: DeviceId, ch: Change)
    requires Work(db) && ConflictsBacked(db.entities, db.outbox)
    ensures ConflictsBacked(Pull.Step(db, device, ch).entities, Pull.Step(db, device, ch).outbox)
  {
    var t := Pull.Step(db, device, ch);
    Pages.StepWrites(db, device, ch);
    forall k, id | k in t.entities && Plain(k) && t.entities[k].status.Conflicted? && id in t.outbox && t.outbox[id].key == k
      ensures ConflictQueued(t.outbox, k)
    {
      if k == ch.key {
        if Pull.Raises(db, ch) {
          assert t.outbox[id].state.InConflict?;
        }
      } else {
        StepLeavesOthers(db, device, ch, k);
        assert id in OnEntity(t.outbox, k);
        StepKeepsConflictQueued(db, device, ch, k);
      }
    }
  }

  /** An entity that a change has just reached is not at risk: work on it is held back. */
  lemma PulledIsHeld(db: Db, p: Position, ch: Change)
    requires Work(db) && ConflictsBacked(db.entities, db.outbox) && Plain(ch.key)
    ensures !Repeats(OnEntity(Pull.Step(db, p.device, ch).outbox, ch.key), At(p, ch.sequence))
  {
    var rows := OnEntity(Pull.Step(db, p.device, ch).outbox, ch.key);
    if id :| id in rows && rows[id].state.Waiting? {
      WaitingIsBesideConflict(db, p.device, ch, id);
      var other :| other in rows && rows[other].state.InConflict?;
    }
  }

  lemma WaitingIsBesideConflict(db: Db, device: DeviceId, ch: Change, id: OpId)
    requires Work(db) && ConflictsBacked(db.entities, db.outbox) && Plain(ch.key)
    requires id in OnEntity(Pull.Step(db, device, ch).outbox, ch.key)
    requires OnEntity(Pull.Step(db, device, ch).outbox, ch.key)[id].state.Waiting?
    ensures exists other :: other in OnEntity(Pull.Step(db, device, ch).outbox, ch.key)
                            && OnEntity(Pull.Step(db, device, ch).outbox, ch.key)[other].state.InConflict?
  {
    var t := Pull.Step(db, device, ch);
    StepRaisesOrLeaves(db, device, ch);
    assert id in t.outbox && t.outbox[id].key == ch.key;
    assert t.outbox == db.outbox;
    assert Marked(db.entities, Owner(db.outbox[id].key));
    var other :| other in db.outbox && db.outbox[other].key == ch.key && db.outbox[other].state.InConflict?;
    assert other in OnEntity(t.outbox, ch.key);
  }

  /** A change either holds the operations of its entity, or leaves the outbox alone;
      then its entity has no pending work. */
  lemma StepRaisesOrLeaves(db: Db, device: DeviceId, ch: Change)
    requires Plain(ch.key)
    ensures var t := Pull.Step(db, device, ch);
            || (t.outbox == db.outbox && (ch.key in db.entities ==> !db.entities[ch.key].status.Pending?))
            || forall id | id in t.outbox && t.outbox[id].key == ch.key :: !t.outbox[id].state.Waiting?
  {
    var t := Pull.Step(db, device, ch);
    if t.outbox != db.outbox {
      Pages.StepWrites(db, device, ch);
    }
  }

  lemma StepKeepsCourse(db: Db, p: Position, head: nat, ch: Change)
    requires Sound(db, p, head) && Data(db, p) && NextInLog(p.log, p.cursor, ch)
    ensures OnCourse(Pull.Step(db, p.device, ch).entities, Pull.Step(db, p.device, ch).outbox, At(p, ch.sequence))
  {
    var t, q := Pull.Step(db, p.device, ch), At(p, ch.sequence);
    if Plain(ch.key) {
      PulledIsHeld(db, p, ch);
    }
    forall k | AtRisk(t.outbox, q, k)
      ensures Harmless(t.entities, OnEntity(t.outbox, k), q, k)
    {
      assert k != ch.key;
      StepLeavesOthers(db, p.device, ch, k);
      PassedBefore(p.history, p.log, p.cursor, ch.sequence, k);
      LastKept(p.log, head, k, p.cursor, ch.sequence);
      RiskIsAbout(db.outbox, t.outbox, p, q, k);
      HarmlessStays(db.entities, t.entities, OnEntity(db.outbox, k), p, q, k);
    }
  }

  lemma StepIsSound(db: Db, p: Position, head: nat, ch: Change)
    requires Sound(db, p, head) && Data(db, p) && NextInLog(p.log, p.cursor, ch)
    ensures Sound(Pull.Step(db, p.device, ch), At(p, ch.sequence), head)
    ensures Data(Pull.Step(db, p.device, ch), At(p, ch.sequence))
  {
    Outbox.PullStepOutbox(db, p.device, ch);
    PullStepWork(db, p.device, ch);
    StepConverges(db, p, head, ch);
    StepMissesNothing(db, p, head, ch);
    StepBacksConflicts(db, p.device, ch);
    StepKeepsCourse(db, p, head, ch);
  }

  /** A cursor that runs past the last change of a page. */
  lemma DataAdvances(db: Db, p: Position, head: nat, next: nat)
    requires Sound(db, p, head) && Data(db, p) && p.cursor <= next
    requires forall ch | ch in p.log :: !(p.cursor < ch.sequence <= next)
    ensures Data(db, At(p, next))
  {
    var q := At(p, next);
    forall k | k in db.entities && Plain(k) && db.entities[k].status.Clean? && AcksPassed(p.history, k, next)
      ensures Shows(db.entities[k], q, k)
    {
      ConvergedFor(db.entities, p, head, next, k);
    }
    forall k
      ensures Last(p.log, k, next) == Last(p.log, k, p.cursor)
    {
      LastKept(p.log, head, k, p.cursor, next);
    }
    forall k | AtRisk(db.outbox, q, k)
      ensures Harmless(db.entities, OnEntity(db.outbox, k), q, k)
    {
      PassedBefore(p.history, p.log, p.cursor, next, k);
      RiskIsAbout(db.outbox, db.outbox, p, q, k);
      HarmlessStays(db.entities, db.entities, OnEntity(db.outbox, k), p, q, k);
    }
  }

  lemma {:induction false} PullConverges(db: Db, p: Position, head: nat, next: nat, changes: seq<Change>)
    requires Sound(db, p, head) && Data(db, p) && IsWindow(p.log, p.cursor, next, changes)
    ensures Sound(Pull.Fold(db, p.device, changes), At(p, next), head)
    ensures Data(Pull.Fold(db, p.device, changes), At(p, next))
    decreases |changes|
  {
    if changes == [] {
      assert forall ch | ch in p.log :: ch in changes <==> p.cursor < ch.sequence <= next;
      DataAdvances(db, p, head, next);
    } else {
      var n := |changes| - 1;
      var mid := Mid(p.cursor, changes);
      WindowFront(p.log, p.cursor, next, changes);
      WindowLast(p.log, p.cursor, next, changes);
      PullConverges(db, p, head, mid, changes[..n]);
      var before := Pull.Fold(db, p.device, changes[..n]);
      StepIsSound(before, At(p, mid), head, changes[n]);
      DataAdvances(Pull.Step(before, p.device, changes[n]), At(p, changes[n].sequence), head, next);
    }
  }

  // Push

  /** The answer about an operation: an acknowledgement names its row in the log, and
      repeats the version of that row. */
  ghost predicate Honest(log: seq<Change>, op: Op, r: OpResult) {
    && (r.Acked? ==> exists ch :: ch in log && ch.op == op.id && ch.key == op.key
                                  && ch.sequence == r.sequence && ch.serverVersion == r.serverVersion)
    && (r.Refused? ==> r.conflict.key == op.key || r.conflict.key == Owner(op.key))
  }

  ghost predicate InOutbox(outbox: map<OpId, Op>, op: Op) {
    op.id in outbox && outbox[op.id] == op && op.state.Waiting?
  }

  ghost predicate StillQueued(history: map<OpId, Entry>, op: Op) {
    op.id in history && history[op.id].fate.Queued?
  }

  function SettledOne(history: map<OpId, Entry>, op: Op, r: OpResult): map<OpId, Entry> {
    if r.Acked? then Settle(history, op.id, Acknowledged(op.key, r.sequence)) else history
  }

  function Settled(p: Position, op: Op, r: OpResult): Position {
    p.(history := SettledOne(p.history, op, r))
  }

  /** Of the operations at risk the oldest is answered first. */
  ghost predicate OldestFirst(outbox: map<OpId, Op>, p: Position, op: Op) {
    op.id !in p.stuck
    && (AtRisk(outbox, p, op.key) ==> forall x | x in OnEntity(outbox, op.key) :: !Before(outbox[x], op))
  }

  lemma AckSiblings(outbox: map<OpId, Op>, op: Op, k: Key)
    requires InOutbox(outbox, op)
    ensures ConflictQueued(outbox - {op.id}, k) <==> ConflictQueued(outbox, k)
  {
    if ConflictQueued(outbox, k) {
      var id :| id in outbox && outbox[id].key == k && outbox[id].state.InConflict?;
      assert id in outbox - {op.id};
    }
  }

  lemma AckLeavesOthers(db: Db, op: Op, version: nat, k: Key)
    requires Plain(k) && k != op.key
    ensures var t := Push.Ack(db, op, version);
            && (k in t.entities <==> k in db.entities) && (k in t.entities ==> t.entities[k] == db.entities[k])
            && (InOutbox(db.outbox, op) ==> OnEntity(t.outbox, k) == OnEntity(db.outbox, k))
  {
  }

  lemma PassedUnsettled(p: Position, op: Op, r: OpResult, k: Key)
    requires StillQueued(p.history, op) && AcksPassed(SettledOne(p.history, op, r), k, p.cursor)
    ensures AcksPassed(p.history, k, p.cursor)
  {
    forall id | id in p.history && p.history[id].fate.Acknowledged? && p.history[id].fate.key == k
      ensures p.history[id].fate.sequence <= p.cursor
    {
      assert SettledOne(p.history, op, r)[id] == p.history[id];
    }
  }

  /** If the cursor has passed all acknowledgements, the acknowledged operation was a
      repeat, and what was queued beside it decides whether its entity was at risk. */
  lemma AckedWasAtRisk(db: Db, p: Position, op: Op, r: OpResult)
    requires InOutbox(db.outbox, op) && StillQueued(p.history, op) && r.Acked? && Honest(p.log, op, r)
    requires Plain(op.key) && op.id !in p.stuck && AcksPassed(SettledOne(p.history, op, r), op.key, p.cursor)
    requires OnEntity(db.outbox - {op.id}, op.key) == map[] || Repeats(OnEntity(db.outbox - {op.id}, op.key), p)
    ensures AtRisk(db.outbox, p, op.key)
  {
    PassedUnsettled(p, op, r, op.key);
    assert SettledOne(p.history, op, r)[op.id].fate == Acknowledged(op.key, r.sequence);
    var rows := OnEntity(db.outbox, op.key);
    assert op.id in rows;
    forall id | id in rows
      ensures rows[id].state.Waiting? && Logged(p.log, id, p.cursor) && id !in p.stuck
    {
      assert id != op.id ==> id in OnEntity(db.outbox - {op.id}, op.key);
    }
  }

  lemma NothingElseQueued(outbox: map<OpId, Op>, op: Op)
    requires InOutbox(outbox, op) && Plain(op.key) && Related(outbox - {op.id}, op.key) == map[]
    ensures OnEntity(outbox - {op.id}, op.key) == map[] && OnEntity(outbox, op.key) == map[op.id := op]
  {
    assert forall id | id in outbox - {op.id} && outbox[id].key == op.key :: id in Related(outbox - {op.id}, op.key);
  }

  /** An acknowledgement that leaves its entity clean behind the cursor has brought it
      where the log is. */
  lemma AckedShows(db: Db, p: Position, head: nat, op: Op, r: OpResult)
    requires Sound(db, p, head) && Data(db, p)
    requires InOutbox(db.outbox, op) && StillQueued(p.history, op) && op.id !in p.stuck
    requires r.Acked? && Honest(p.log, op, r) && Plain(op.key)
    requires op.key in Push.Ack(db, op, r.serverVersion).entities
    requires Push.Ack(db, op, r.serverVersion).entities[op.key].status.Clean?
    requires AcksPassed(SettledOne(p.history, op, r), op.key, p.cursor)
    ensures Shows(Push.Ack(db, op, r.serverVersion).entities[op.key], p, op.key)
  {
    NothingElseQueued(db.outbox, op);
    AckedWasAtRisk(db, p, op, r);
    var rows := OnEntity(db.outbox, op.key);
    assert Latest(rows) == Some(op.id);
    var ch :| ch in p.log && ch.op == op.id && ch.key == op.key && ch.sequence == r.sequence && ch.serverVersion == r.serverVersion;
    assert Shows(db.entities[op.key].(serverVersion := ch.serverVersion), p, op.key);
  }

  lemma AckConverges(db: Db, p: Position, head: nat, op: Op, r: OpResult)
    requires Sound(db, p, head) && Data(db, p) && op.id !in p.stuck
    requires InOutbox(db.outbox, op) && StillQueued(p.history, op) && r.Acked? && Honest(p.log, op, r)
    ensures Converged(Push.Ack(db, op, r.serverVersion).entities, Settled(p, op, r))
  {
    var t, q := Push.Ack(db, op, r.serverVersion), Settled(p, op, r);
    forall k | k in t.entities && Plain(k) && t.entities[k].status.Clean? && AcksPassed(q.history, k, q.cursor)
      ensures Shows(t.entities[k], q, k)
    {
      if k == op.key {
        AckedShows(db, p, head, op, r);
      } else {
        AckLeavesOthers(db, op, r.serverVersion, k);
        PassedUnsettled(p, op, r, k);
      }
    }
  }

  /** When the oldest operation leaves, the rest stays linked and keeps its newest. */
  lemma OldestLeaves(rows: map<OpId, Op>, k: Key, op: Op)
    requires Keyed(rows) && Linked(rows, k) && op.id in rows && rows[op.id] == op
    requires forall x | x in rows :: rows[x].key == k && !Before(rows[x], op)
    requires rows - {op.id} != map[]
    ensures Linked(rows - {op.id}, k) && Latest(rows - {op.id}) == Latest(rows)
  {
    var rest := rows - {op.id};
    forall a, b | InOrder(rest, k, a, b) && Between(rest, k, a, b) == {}
      ensures a in rest[b].deps
    {
      assert forall x | x in Between(rows, k, a, b) :: x in Between(rest, k, a, b);
    }
    var top := Latest(rest).value;
    forall other | other in rows
      ensures !Before(rows[top], rows[other])
    {
      assert other != op.id ==> other in rest;
      assert Before(op, rows[top]);
    }
    LocalRepository.LatestIsUnique(rows, top);
  }

  lemma AckKeepsCourse(db: Db, p: Position, head: nat, op: Op, r: OpResult)
    requires Sound(db, p, head) && Data(db, p) && OldestFirst(db.outbox, p, op)
    requires InOutbox(db.outbox, op) && StillQueued(p.history, op) && r.Acked? && Honest(p.log, op, r)
    ensures Keyed(Push.Ack(db, op, r.serverVersion).outbox)
    ensures OnCourse(Push.Ack(db, op, r.serverVersion).entities, Push.Ack(db, op, r.serverVersion).outbox, Settled(p, op, r))
  {
    var t, q := Push.Ack(db, op, r.serverVersion), Settled(p, op, r);
    forall k | AtRisk(t.outbox, q, k)
      ensures Harmless(t.entities, OnEntity(t.outbox, k), q, k)
    {
      PassedUnsettled(p, op, r, k);
      if k == op.key {
        AckedWasAtRisk(db, p, op, r);
        AckedStaysHarmless(db, p, q, op, r.serverVersion);
      } else {
        AckLeavesOthers(db, op, r.serverVersion, k);
        RiskIsAbout(db.outbox, t.outbox, p, q, k);
        HarmlessStays(db.entities, t.entities, OnEntity(db.outbox, k), p, q, k);
      }
    }
  }

  lemma AckedStaysHarmless(db: Db, p: Position, q: Position, op: Op, version: nat)
    requires Keyed(db.outbox) && OnCourse(db.entities, db.outbox, p) && OldestFirst(db.outbox, p, op)
    requires InOutbox(db.outbox, op) && AtRisk(db.outbox, p, op.key) && q == p.(history := q.history)
    requires OnEntity(db.outbox - {op.id}, op.key) != map[]
    ensures Harmless(Push.Ack(db, op, version).entities, OnEntity(db.outbox - {op.id}, op.key), q, op.key)
  {
    var rows := OnEntity(db.outbox, op.key);
    assert OnEntity(db.outbox - {op.id}, op.key) == rows - {op.id};
    OldestLeaves(rows, op.key, op);
    assert Harmless(db.entities, rows, p, op.key);
    AckedRow(db, op, version);
    EndIsAhead(db.entities[op.key], Push.Ack(db, op, version).entities[op.key], rows, p, op.key);
  }

  lemma AckedRow(db: Db, op: Op, version: nat)
    requires Plain(op.key) && op.key in db.entities
    ensures var t := Push.Ack(db, op, version);
            && op.key in t.entities && t.entities[op.key].serverVersion == version
            && t.entities[op.key] == db.entities[op.key].(serverVersion := version, status := t.entities[op.key].status)
  {
  }

  /** Where an entity ends does not depend on its present version or status. */
  lemma EndIsAhead(e: Entity, after: Entity, rows: map<OpId, Op>, p: Position, k: Key)
    requires EndsWell(e, rows, p, k)
    requires after == e.(serverVersion := after.serverVersion, status := after.status)
    ensures EndsWell(after, rows, p, k)
  {
    forall own | own in p.log && own.op == Latest(rows).value
      ensures Shows(after.(serverVersion := own.serverVersion), p, k)
    {
      assert Shows(e.(serverVersion := own.serverVersion), p, k);
    }
  }

  lemma AckData(db: Db, p: Position, head: nat, op: Op, r: OpResult)
    requires Sound(db, p, head) && Data(db, p) && OldestFirst(db.outbox, p, op)
    requires InOutbox(db.outbox, op) && StillQueued(p.history, op) && r.Acked? && Honest(p.log, op, r)
    ensures Keyed(Push.Ack(db, op, r.serverVersion).outbox)
    ensures Data(Push.Ack(db, op, r.serverVersion), Settled(p, op, r))
  {
    var t := Push.Ack(db, op, r.serverVersion);
    AckConverges(db, p, head, op, r);
    AckKeepsCourse(db, p, head, op, r);
    forall k, id | k in t.entities && Plain(k) && t.entities[k].status.Conflicted? && id in t.outbox && t.outbox[id].key == k
      ensures ConflictQueued(t.outbox, k)
    {
      AckSiblings(db.outbox, op, k);
      if k == op.key {
        var other :| other in Related(t.outbox, k) && t.outbox[other].state.InConflict?;
        assert t.outbox[other].key == k;
      } else {
        AckLeavesOthers(db, op, r.serverVersion, k);
      }
    }
    forall k | Plain(k) && Last(p.log, k, p.cursor).Some?
      ensures k in t.entities
    {
      if k != op.key { AckLeavesOthers(db, op, r.serverVersion, k); }
    }
  }

  /** An operation that was refused in any way will not be sent again, so its entity is
      not at risk; other entities are not touched. */
  lemma MarkKeepsCourse(db: Db, t: Db, p: Position, op: Op)
    requires OnCourse(db.entities, db.outbox, p)
    requires InOutbox(db.outbox, op) && op.id in t.outbox && t.outbox[op.id].key == op.key && !t.outbox[op.id].state.Waiting?
    requires t.outbox.Keys == db.outbox.Keys && forall id | id in db.outbox && id != op.id :: t.outbox[id] == db.outbox[id]
    requires forall k | k in db.entities && Plain(k) && k != op.key :: k in t.entities && t.entities[k] == db.entities[k]
    ensures OnCourse(t.entities, t.outbox, p)
  {
    assert op.id in OnEntity(t.outbox, op.key);
    assert !AtRisk(t.outbox, p, op.key);
    forall k | AtRisk(t.outbox, p, k)
      ensures Harmless(t.entities, OnEntity(t.outbox, k), p, k)
    {
      assert k != op.key;
      assert OnEntity(t.outbox, k) == OnEntity(db.outbox, k);
      HarmlessStays(db.entities, t.entities, OnEntity(db.outbox, k), p, p, k);
    }
  }

  lemma MarkSiblings(outbox: map<OpId, Op>, op: Op, state: OutboxState, error: SyncError)
    requires Keyed(outbox) && InOutbox(outbox, op) && !state.Waiting?
    ensures var t := Push.SetState(outbox, op.id, state, error);
            && Keyed(t) && t.Keys == outbox.Keys
            && (forall k | ConflictQueued(outbox, k) :: ConflictQueued(t, k))
            && (forall id | id in t && id != op.id :: t[id] == outbox[id])
            && t[op.id] == op.(state := state, lastError := Some(error))
  {
    var t := Push.SetState(outbox, op.id, state, error);
    forall k | ConflictQueued(outbox, k)
      ensures ConflictQueued(t, k)
    {
      var id :| id in outbox && outbox[id].key == k && outbox[id].state.InConflict?;
      assert t[id].key == k && t[id].state.InConflict?;
    }
  }

  lemma RefuseData(db: Db, p: Position, head: nat, op: Op, c: ServerConflict)
    requires Sound(db, p, head) && Data(db, p)
    requires InOutbox(db.outbox, op) && Push.Refuse(db, op, c).Ok?
    ensures Keyed(Push.Refuse(db, op, c).value.outbox)
    ensures Data(Push.Refuse(db, op, c).value, p)
  {
    var t := Push.Refuse(db, op, c).value;
    MarkSiblings(db.outbox, op, InConflict, SyncConflict);
    MarkKeepsCourse(db, t, p, op);
    assert t.outbox[op.id].state.InConflict?;
  }

  lemma FailData(db: Db, p: Position, head: nat, op: Op, error: nat)
    requires Sound(db, p, head) && Data(db, p)
    requires InOutbox(db.outbox, op)
    ensures Keyed(Push.Fail(db, op, error).outbox)
    ensures Data(Push.Fail(db, op, error), p)
  {
    MarkSiblings(db.outbox, op, Blocked, Reported(error));
    MarkKeepsCourse(db, Push.Fail(db, op, error), p, op);
  }

  lemma SettledLogged(p: Position, op: Op, r: OpResult)
    requires AcksLogged(p.history, p.log) && Honest(p.log, op, r)
    ensures AcksLogged(SettledOne(p.history, op, r), p.log)
  {
    var settled := SettledOne(p.history, op, r);
    forall id | id in settled && settled[id].fate.Acknowledged?
      ensures exists ch :: ch in p.log && ch.sequence == settled[id].fate.sequence && ch.key == settled[id].fate.key
    {
      if id == op.id && r.Acked? {
        var ch :| ch in p.log && ch.op == op.id && ch.key == op.key && ch.sequence == r.sequence;
        assert ch.sequence == r.sequence;
      }
    }
  }

  lemma ResultData(db: Db, p: Position, head: nat, op: Op, r: OpResult)
    requires Sound(db, p, head) && Data(db, p) && OldestFirst(db.outbox, p, op)
    requires InOutbox(db.outbox, op) && StillQueued(p.history, op) && Honest(p.log, op, r) && Push.Step(db, op, r).Ok?
    ensures Sound(Push.Step(db, op, r).value, Settled(p, op, r), head)
    ensures Data(Push.Step(db, op, r).value, Settled(p, op, r))
  {
    match r {
      case Acked(_, _, _, _) => AckData(db, p, head, op, r);
      case Refused(_, c) => RefuseData(db, p, head, op, c);
      case Failed(_, _, error) => FailData(db, p, head, op, error);
    }
    SettledLogged(p, op, r);
    StepWork(db, op, r);
    Outbox.StepOutbox(db, op, r);
  }

  // A whole answer

  lemma RestStays(db: Db, op: Op, r: OpResult, other: Op)
    requires InOutbox(db.outbox, other) && other.id != op.id && Push.Step(db, op, r).Ok?
    ensures InOutbox(Push.Step(db, op, r).value.outbox, other)
  {
  }

  /** What was answered is gone or will not be sent again. */
  lemma {:induction false} AnsweredIsDone(db: Db, batch: seq<Op>, results: seq<OpResult>)
    requires Keyed(db.outbox) && |batch| == |results| && Push.Fold(db, batch, results).Ok?
    ensures forall i | 0 <= i < |batch| && batch[i].id in Push.Fold(db, batch, results).value.outbox ::
              !Push.Fold(db, batch, results).value.outbox[batch[i].id].state.Waiting?
  {
    if batch != [] {
      var n := |batch| - 1;
      AnsweredIsDone(db, batch[..n], results[..n]);
      Outbox.FoldOutbox(db, batch[..n], results[..n]);
      var before := Push.Fold(db, batch[..n], results[..n]).value;
      Outbox.StepOutbox(before, batch[n], results[n]);
      forall i | 0 <= i < n
        ensures batch[i] == batch[..n][i]
      {
      }
    }
  }

  lemma {:induction false} SettledSequence(history: map<OpId, Entry>, batch: seq<Op>, results: seq<OpResult>, i: nat)
    requires |batch| == |results| && i < |batch| && results[i].Acked? && batch[i].id in history
    requires Scheduler.Distinct(batch)
    ensures var after := SettleAcked(history, batch, results);
            batch[i].id in after && after[batch[i].id].fate == Acknowledged(batch[i].key, results[i].sequence)
  {
    var n := |batch| - 1;
    Outbox.SettledAcked(history, batch[..n], results[..n], batch[i].id);
    if i < n {
      SettledSequence(history, batch[..n], results[..n], i);
    }
  }

  /** An older operation on an entity at risk stands earlier in the request. */
  ghost predicate InLine(outbox: map<OpId, Op>, batch: seq<Op>, k: Key) {
    forall j, x | 0 <= j < |batch| && batch[j].key == k && x in OnEntity(outbox, k) && Before(outbox[x], batch[j]) ::
      Scheduler.Within(batch, j, x)
  }

  /** What a request under way must be like. */
  ghost predicate Sendable(outbox: map<OpId, Op>, p: Position, batch: seq<Op>) {
    && Scheduler.Distinct(batch)
    && (forall i | 0 <= i < |batch| :: InOutbox(outbox, batch[i]) && StillQueued(p.history, batch[i]) && batch[i].id !in p.stuck)
    && (forall k | AtRisk(outbox, p, k) :: InLine(outbox, batch, k))
  }

  function Answered(p: Position, batch: seq<Op>, results: seq<OpResult>): Position
    requires |batch| == |results|
  {
    p.(history := SettleAcked(p.history, batch, results))
  }

  ghost predicate AllHonest(log: seq<Change>, batch: seq<Op>, results: seq<OpResult>)
    requires |batch| == |results|
  {
    forall i | 0 <= i < |batch| :: Honest(log, batch[i], results[i])
  }

  /** An entity that is at risk after some answers was so before: what has been
      acknowledged in between was a repeat as well. */
  lemma RiskWasThere(db: Db, p: Position, batch: seq<Op>, results: seq<OpResult>, k: Key)
    requires Keyed(db.outbox) && Sendable(db.outbox, p, batch) && |batch| == |results| && AllHonest(p.log, batch, results)
    requires Push.Fold(db, batch, results).Ok?
    requires AtRisk(Push.Fold(db, batch, results).value.outbox, Answered(p, batch, results), k)
    ensures AtRisk(db.outbox, p, k)
  {
    var t, q := Push.Fold(db, batch, results).value, Answered(p, batch, results);
    Outbox.FoldOutbox(db, batch, results);
    forall id | id in p.history && p.history[id].fate.Acknowledged? && p.history[id].fate.key == k
      ensures p.history[id].fate.sequence <= p.cursor
    {
      Outbox.SettledAcked(p.history, batch, results, id);
      Outbox.AckedInBatch(batch, results);
      assert q.history[id] == p.history[id];
    }
    var rows := OnEntity(db.outbox, k);
    assert rows != map[] by {
      var id :| id in OnEntity(t.outbox, k);
      assert id in rows;
    }
    forall id | id in rows
      ensures rows[id].state.Waiting? && Logged(p.log, id, p.cursor) && id !in p.stuck
    {
      if id in t.outbox {
        assert id in OnEntity(t.outbox, k);
      } else {
        GoneWasRepeat(db, p, batch, results, k, id);
      }
    }
  }

  lemma GoneWasRepeat(db: Db, p: Position, batch: seq<Op>, results: seq<OpResult>, k: Key, id: OpId)
    requires Keyed(db.outbox) && Sendable(db.outbox, p, batch) && |batch| == |results| && AllHonest(p.log, batch, results)
    requires Push.Fold(db, batch, results).Ok? && AcksPassed(Answered(p, batch, results).history, k, p.cursor)
    requires id in db.outbox && db.outbox[id].key == k && id !in Push.Fold(db, batch, results).value.outbox
    ensures db.outbox[id].state.Waiting? && Logged(p.log, id, p.cursor) && id !in p.stuck
  {
    Outbox.FoldOutbox(db, batch, results);
    Outbox.AckedInBatch(batch, results);
    var i :| 0 <= i < |batch| && batch[i].id == id && results[i].Acked?;
    assert InOutbox(db.outbox, batch[i]) && Honest(p.log, batch[i], results[i]);
    SettledSequence(p.history, batch, results, i);
    var ch :| ch in p.log && ch.op == id && ch.key == batch[i].key && ch.sequence == results[i].sequence;
    assert ch.sequence <= p.cursor;
  }

  /** So the answers come in order where it matters. */
  lemma NextIsOldest(db: Db, p: Position, batch: seq<Op>, results: seq<OpResult>, op: Op)
    requires Keyed(db.outbox) && Sendable(db.outbox, p, batch + [op]) && |batch| == |results| && AllHonest(p.log, batch, results)
    requires Push.Fold(db, batch, results).Ok? && Sendable(db.outbox, p, batch)
    ensures OldestFirst(Push.Fold(db, batch, results).value.outbox, Answered(p, batch, results), op)
  {
    var t, q := Push.Fold(db, batch, results).value, Answered(p, batch, results);
    assert (batch + [op])[|batch|] == op;
    if AtRisk(t.outbox, q, op.key) {
      RiskWasThere(db, p, batch, results, op.key);
      Outbox.FoldOutbox(db, batch, results);
      AnsweredIsDone(db, batch, results);
      forall x | x in OnEntity(t.outbox, op.key)
        ensures !Before(t.outbox[x], op)
      {
        assert x in OnEntity(db.outbox, op.key);
        assert forall i | 0 <= i < |batch| :: (batch + [op])[i] == batch[i];
        assert !Scheduler.Within(batch + [op], |batch|, x);
      }
    }
  }

  lemma FrontIsSendable(outbox: map<OpId, Op>, p: Position, batch: seq<Op>, n: nat)
    requires Sendable(outbox, p, batch) && n <= |batch|
    ensures Sendable(outbox, p, batch[..n])
  {
    forall k | AtRisk(outbox, p, k)
      ensures InLine(outbox, batch[..n], k)
    {
      forall j, x | 0 <= j < n && batch[..n][j].key == k && x in OnEntity(outbox, k) && Before(outbox[x], batch[..n][j])
        ensures Scheduler.Within(batch[..n], j, x)
      {
        assert batch[..n][j] == batch[j] && Scheduler.Within(batch, j, x);
        var i :| 0 <= i < j && batch[i].id == x;
        assert batch[..n][i].id == x;
      }
    }
  }

  lemma {:induction false} PushConverges(db: Db, p: Position, head: nat, batch: seq<Op>, results: seq<OpResult>)
    requires Sound(db, p, head) && Data(db, p) && Sendable(db.outbox, p, batch)
    requires |batch| == |results| && AllHonest(p.log, batch, results) && Push.Fold(db, batch, results).Ok?
    ensures Sound(Push.Fold(db, batch, results).value, Answered(p, batch, results), head)
    ensures Data(Push.Fold(db, batch, results).value, Answered(p, batch, results))
    decreases |batch|
  {
    if batch != [] {
      var n := |batch| - 1;
      FrontIsSendable(db.outbox, p, batch, n);
      PushConverges(db, p, head, batch[..n], results[..n]);
      PushStep(db, p, head, batch, results, n);
    }
  }

  lemma PushStep(db: Db, p: Position, head: nat, batch: seq<Op>, results: seq<OpResult>, n: nat)
    requires Keyed(db.outbox) && Sendable(db.outbox, p, batch) && |batch| == |results| == n + 1
    requires AllHonest(p.log, batch, results) && Push.Fold(db, batch, results).Ok?
    requires Sound(Push.Fold(db, batch[..n], results[..n]).value, Answered(p, batch[..n], results[..n]), head)
    requires Data(Push.Fold(db, batch[..n], results[..n]).value, Answered(p, batch[..n], results[..n]))
    ensures Sound(Push.Fold(db, batch, results).value, Answered(p, batch, results), head)
    ensures Data(Push.Fold(db, batch, results).value, Answered(p, batch, results))
  {
    FrontIsSendable(db.outbox, p, batch, n);
    assert batch[..n] + [batch[n]] == batch;
    NextIsOldest(db, p, batch[..n], results[..n], batch[n]);
    NextIsThere(db, p, batch, results, n);
    ResultData(Push.Fold(db, batch[..n], results[..n]).value, Answered(p, batch[..n], results[..n]), head, batch[n], results[n]);
  }

  /** The next operation of a request waits unchanged until its answer is applied. */
  lemma {:induction false} NextIsThere(db: Db, p: Position, batch: seq<Op>, results: seq<OpResult>, n: nat)
    requires |batch| == |results| && n < |batch| && Scheduler.Distinct(batch)
    requires Push.Fold(db, batch[..n], results[..n]).Ok?
    requires InOutbox(db.outbox, batch[n]) && StillQueued(p.history, batch[n])
    ensures InOutbox(Push.Fold(db, batch[..n], results[..n]).value.outbox, batch[n])
    ensures StillQueued(SettleAcked(p.history, batch[..n], results[..n]), batch[n])
  {
    StaysUnanswered(db, batch[..n], results[..n], batch[n]);
    Outbox.SettledAcked(p.history, batch[..n], results[..n], batch[n].id);
    Outbox.AckedInBatch(batch[..n], results[..n]);
  }

  lemma {:induction false} StaysUnanswered(db: Db, batch: seq<Op>, results: seq<OpResult>, other: Op)
    requires |batch| == |results| && Push.Fold(db, batch, results).Ok?
    requires InOutbox(db.outbox, other) && forall i | 0 <= i < |batch| :: batch[i].id != other.id
    ensures InOutbox(Push.Fold(db, batch, results).value.outbox, other)
  {
    if batch != [] {
      var n := |batch| - 1;
      StaysUnanswered(db, batch[..n], results[..n], other);
      RestStays(Push.Fold(db, batch[..n], results[..n]).value, batch[n], results[n], other);
    }
  }

  // Local steps

  /** A commit under an id the log does not have, or one that was queued already. */
  lemma QueueData(db: Db, t: Db, p: Position, q: Position, op: OpId)
    requires Data(db, p) && q == p.(history := q.history)
    requires forall id | id in db.outbox :: id in t.outbox && t.outbox[id] == db.outbox[id]
    requires forall id | id in t.outbox && id !in db.outbox ::
               id == op && (forall ch | ch in p.log :: ch.op != op)
               && (Plain(t.outbox[op].key) ==> t.outbox[op].key in t.entities && t.entities[t.outbox[op].key].status.Pending?)
    requires forall k | k in db.entities && Plain(k) :: k in t.entities
    requires forall k | k in t.entities && Plain(k) ::
               (k in db.entities && t.entities[k] == db.entities[k])
               || (t.entities[k].status.Pending? && op in t.outbox && op !in db.outbox && t.outbox[op].key == k)
    requires forall k | AcksPassed(q.history, k, q.cursor) :: AcksPassed(p.history, k, p.cursor)
    ensures Data(t, q)
  {
    forall k | ConflictQueued(db.outbox, k)
      ensures ConflictQueued(t.outbox, k)
    {
      var id :| id in db.outbox && db.outbox[id].key == k && db.outbox[id].state.InConflict?;
      assert t.outbox[id].key == k;
    }
    forall k | AtRisk(t.outbox, q, k)
      ensures Harmless(t.entities, OnEntity(t.outbox, k), q, k)
    {
      assert op in t.outbox && op !in db.outbox && t.outbox[op].key == k ==> op in OnEntity(t.outbox, k);
      assert OnEntity(t.outbox, k) == OnEntity(db.outbox, k);
      assert AtRisk(db.outbox, p, k);
      HarmlessStays(db.entities, t.entities, OnEntity(db.outbox, k), p, q, k);
    }
  }

  lemma CommitData(db: Db, m: Mutation, p: Position, q: Position)
    requires Keyed(db.outbox) && Data(db, p) && q == p.(history := q.history)
    requires m.op in db.outbox || forall ch | ch in p.log :: ch.op != m.op
    requires forall k | AcksPassed(q.history, k, q.cursor) :: AcksPassed(p.history, k, p.cursor)
    ensures Keyed(Or(Commit(db, m), db).outbox) && Data(Or(Commit(db, m), db), q)
  {
    if Commit(db, m).Ok? && m.op !in db.outbox {
      CommitCases(db, m);
      AddedData(db, m, CommitDeps(db, m).value, p, q);
    } else {
      if Commit(db, m).Ok? { CommitCases(db, m); }
      QueueData(db, db, p, q, m.op);
    }
  }

  lemma AddedData(db: Db, m: Mutation, deps: seq<OpId>, p: Position, q: Position)
    requires Keyed(db.outbox) && Data(db, p) && q == p.(history := q.history) && m.op !in db.outbox
    requires forall ch | ch in p.log :: ch.op != m.op
    requires forall k | AcksPassed(q.history, k, q.cursor) :: AcksPassed(p.history, k, p.cursor)
    ensures Keyed(Added(db, m, deps).outbox) && Data(Added(db, m, deps), q)
  {
    QueueData(db, Added(db, m, deps), p, q, m.op);
  }

  lemma ProtectedData(db: Db, m: Mutation, body: Payload, p: Position, q: Position)
    requires Keyed(db.outbox) && Data(db, p) && q == p.(history := q.history)
    requires m.op in db.outbox || forall ch | ch in p.log :: ch.op != m.op
    requires forall k | AcksPassed(q.history, k, q.cursor) :: AcksPassed(p.history, k, p.cursor)
    ensures Keyed(ProtectedCommit(db, m, body).0.outbox) && Data(ProtectedCommit(db, m, body).0, q)
  {
    var slot := OfOp(m.op);
    var sealed := m.(payload := Reference(slot), payloadHash := Sha(body), slot := Some(slot));
    if m.kind.Delete? {
      CommitData(db, m, p, q);
    } else if m.op in db.outbox {
      CommitData(db, sealed, p, q);
    } else {
      CommitData(db.(vault := db.vault[slot := body]), sealed, p, q);
    }
  }

  lemma EditData(db: Db, e: NoteEdits.Prepared, p: Position, q: Position)
    requires Keyed(db.outbox) && Data(db, p) && q == p.(history := q.history) && e.op.key == Key(DocUpdate, e.note)
    requires e.op.id in db.outbox || forall ch | ch in p.log :: ch.op != e.op.id
    requires forall k | AcksPassed(q.history, k, q.cursor) :: AcksPassed(p.history, k, p.cursor)
    ensures Keyed(Or(NoteEdits.CommitEdit(db, e), db).outbox) && Data(Or(NoteEdits.CommitEdit(db, e), db), q)
  {
    QueueData(db, Or(NoteEdits.CommitEdit(db, e), db), p, q, e.op.id);
  }
}
