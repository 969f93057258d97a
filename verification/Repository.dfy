/**
 Local mutations: one entity row and one queued operation, written together
 (packages/offline/src/repository.ts:33-222, protected-repository.ts:21-46).
 A function returns the tables after the transaction; an error means the
 transaction rolled back.
 */
module Repository {
  import opened Types

  datatype Mutation = Mutation(
    op: OpId,
    device: DeviceId,
    key: Key,
    kind: OpKind,
    baseVersion: nat,
    localRevision: nat,
    occurredAt: Time,
    createdAt: Time,
    updatedAt: Time,
    deletedAt: Option<Time>,
    createdBy: ActorId,
    updatedBy: ActorId,
    payload: Payload,
    payloadHash: Hash,
    slot: Option<SlotId>,
    deps: seq<OpId>)

  const MAX_DEPENDENCIES := 100

  /** The order the outbox is read in, by the ids the rows are stored under. */
  predicate ReadBefore(ops: map<OpId, Op>, a: OpId, b: OpId)
    requires a in ops && b in ops
  {
    ops[a].queuedAt < ops[b].queuedAt || (ops[a].queuedAt == ops[b].queuedAt && a < b)
  }

  predicate IsLatest(ops: map<OpId, Op>, ids: set<OpId>, id: OpId)
    requires ids <= ops.Keys && id in ids
  {
    forall other | other in ids :: !ReadBefore(ops, id, other)
  }

  lemma {:induction false} LatestAmong(ops: map<OpId, Op>, ids: set<OpId>)
    requires ids <= ops.Keys && ids != {}
    ensures exists id :: id in ids && IsLatest(ops, ids, id)
  {
    var id :| id in ids;
    var rest := ids - {id};
    if rest == {} {
      assert ids == {id} && IsLatest(ops, ids, id);
    } else {
      LatestAmong(ops, rest);
      var top :| top in rest && IsLatest(ops, rest, top);
      var best := if ReadBefore(ops, top, id) then id else top;
      forall other | other in ids
        ensures !ReadBefore(ops, best, other)
      {
        assert other == id || !ReadBefore(ops, top, other);
      }
      assert IsLatest(ops, ids, best);
    }
  }

  /** The last row in queue order. */
  function Latest(ops: map<OpId, Op>): (r: Option<OpId>)
    ensures r.None? <==> |ops| == 0
    ensures r.Some? ==> r.value in ops && forall other | other in ops :: !ReadBefore(ops, r.value, other)
    ensures r.Some? && Keyed(ops) ==> forall other | other in ops :: !Before(ops[r.value], ops[other])
  {
    if |ops| == 0 then None else
      assert ops.Keys != {};
      LatestAmong(ops, ops.Keys);
      var id :| id in ops && IsLatest(ops, ops.Keys, id);
      Some(id)
  }

  /** The part of validateMutation that the transaction relies on. */
  predicate ValidMutation(m: Mutation) {
    && m.op !in m.deps
    && (forall i, j | 0 <= i < j < |m.deps| :: m.deps[i] != m.deps[j])
    && |m.deps| <= MAX_DEPENDENCIES
    && 1 <= m.localRevision
    && (m.kind.Delete? <==> m.deletedAt.Some?)
    && m.createdAt <= m.updatedAt
    && (m.kind.Delete? ==> m.payload.Empty?)
  }

  predicate SameOperation(a: Op, b: Op) {
    && a.payloadHash == b.payloadHash
    && a.device == b.device
    && a.key == b.key
    && a.kind == b.kind
    && a.baseVersion == b.baseVersion
    && a.occurredAt == b.occurredAt
    && a.resolution == b.resolution
  }

  predicate ValidTransition(m: Mutation, entities: map<Key, Entity>) {
    if m.kind.Create? then
      m.key !in entities && m.baseVersion == 0 && m.localRevision == 1
    else
      && m.key in entities
      && var existing := entities[m.key];
      && !existing.status.Conflicted?
      && m.baseVersion == existing.serverVersion
      && m.localRevision == existing.localRevision + 1
      && m.createdAt == existing.createdAt
      && m.createdBy == existing.createdBy
      && (m.kind.Restore? <==> existing.deletedAt.Some?)
  }

  /** A mutation has to wait for the operations on the same entity, and the
      deletion of a note also for the updates of its document. */
  predicate WaitsFor(m: Mutation, opKey: Key) {
    opKey == m.key || (m.kind.Delete? && Touches(m.key, opKey))
  }

  function RelatedTo(outbox: map<OpId, Op>, m: Mutation): map<OpId, Op> {
    outbox - (set id | id in outbox && !WaitsFor(m, outbox[id].key))
  }

  function Predecessor(outbox: map<OpId, Op>, m: Mutation): Option<OpId>
  {
    Latest(RelatedTo(outbox, m) - {m.op})
  }

  function WithPredecessor(deps: seq<OpId>, predecessor: Option<OpId>): Result<seq<OpId>> {
    if predecessor.None? || predecessor.value in deps then Ok(deps)
    else if |deps| >= MAX_DEPENDENCIES then Err(InputInvalid)
    else Ok(deps + [predecessor.value])
  }

  function QueuedOp(m: Mutation, deps: seq<OpId>): Op {
    Op(m.op, m.device, m.key, m.kind, m.baseVersion, m.occurredAt, m.payload, m.payloadHash, m.slot, deps,
       None, Waiting, 0, None, m.occurredAt)
  }

  /** A deletion keeps the current body so that it can be restored if refused. */
  function EditedEntity(m: Mutation, entities: map<Key, Entity>): Entity {
    var keep := m.kind.Delete? && m.key in entities;
    Entity(m.baseVersion, m.localRevision, m.createdAt, m.updatedAt, m.deletedAt, m.createdBy, m.updatedBy,
           if keep then entities[m.key].payload else m.payload,
           if keep then entities[m.key].payloadHash else m.payloadHash,
           SyncStatus.Pending)
  }

  predicate DeleteAllowed(outbox: map<OpId, Op>, m: Mutation) {
    forall id | id in RelatedTo(outbox, m) ::
      !(outbox[id].state.InConflict? || outbox[id].state.Blocked? || outbox[id].state.Isolated?)
  }

  function CommitDeps(db: Db, m: Mutation): Result<seq<OpId>>
  {
    WithPredecessor(m.deps, Predecessor(db.outbox, m))
  }

  function Added(db: Db, m: Mutation, deps: seq<OpId>): Db {
    db.(entities := db.entities[m.key := EditedEntity(m, db.entities)],
        outbox := db.outbox[m.op := QueuedOp(m, deps)])
  }

  /** commitMutation. Committing a queued operation again changes nothing. */
  function Commit(db: Db, m: Mutation): Result<Db>
  {
    if !ValidMutation(m) then Err(InputInvalid)
    else if m.op in db.outbox then
      if !SameOperation(db.outbox[m.op], QueuedOp(m, m.deps)) then Err(OperationHashMismatch)
      else if m.key !in db.entities then Err(TransactionFailed)
      else Ok(db)
    else
      var deps :- CommitDeps(db, m);
      if !ValidTransition(m, db.entities) then Err(InputInvalid)
      else if m.kind.Delete? && !DeleteAllowed(db.outbox, m) then Err(InputInvalid)
      else Ok(Added(db, m, deps))
  }

  /** The protected wrapper seals the body under the operation id first, and
      removes that slot again when the commit fails. Returns the tables and
      whether the commit succeeded. */
  function ProtectedCommit(db: Db, m: Mutation, body: Payload): (Db, Result<()>)
  {
    var slot := OfOp(m.op);
    var sealed := m.(payload := Reference(slot), payloadHash := Sha(body), slot := Some(slot));
    if m.kind.Delete? then
      var r := Commit(db, m);
      if r.Ok? then (r.value, Ok(())) else (db, Err(r.code))
    else if m.op in db.outbox then
      var r := Commit(db, sealed);
      if r.Ok? then (r.value, Ok(())) else (db, Err(r.code))
    else
      var put := db.(vault := db.vault[slot := body]);
      var r := Commit(put, sealed);
      if r.Ok? then (r.value, Ok(())) else (put.(vault := put.vault - {slot}), Err(r.code))
  }

  lemma CommitIs(db: Db, m: Mutation, deps: seq<OpId>)
    requires ValidMutation(m) && m.op !in db.outbox && CommitDeps(db, m) == Ok(deps)
    requires ValidTransition(m, db.entities) && (m.kind.Delete? ==> DeleteAllowed(db.outbox, m))
    ensures Commit(db, m) == Ok(Added(db, m, deps))
  {
  }

  lemma CommitCases(db: Db, m: Mutation)
    requires Commit(db, m).Ok?
    ensures if m.op in db.outbox then Commit(db, m).value == db
            else CommitDeps(db, m).Ok? && Commit(db, m).value == Added(db, m, CommitDeps(db, m).value)
  {
  }

  lemma AddedKeys(db: Db, m: Mutation)
    requires Keyed(db.outbox)
    ensures forall deps :: var after := Added(db, m, deps);
              Keyed(after.outbox) && after.outbox.Keys == db.outbox.Keys + {m.op}
  {
  }

  lemma CommitOutcome(db: Db, m: Mutation)
    requires Commit(db, m).Ok?
    ensures var after := Commit(db, m).value;
            && after.vault == db.vault
            && (m.op in db.outbox ==> after == db)
            && (m.op !in db.outbox ==>
                  && m.key in after.entities
                  && after.entities == db.entities[m.key := after.entities[m.key]]
                  && (m.key in db.entities ==>
                        after.entities[m.key].localRevision == db.entities[m.key].localRevision + 1)
                  && (if m.kind.Delete? then
                        m.key in db.entities && after.entities[m.key].payload == db.entities[m.key].payload
                      else after.entities[m.key].payload == m.payload))
  {
    CommitCases(db, m);
    if m.op !in db.outbox { CommitAdvances(db, m); }
  }

  lemma CommitAdvances(db: Db, m: Mutation)
    requires Commit(db, m).Ok? && m.op !in db.outbox
    ensures if m.kind.Create? then m.key !in db.entities
            else m.key in db.entities && m.localRevision == db.entities[m.key].localRevision + 1
  {
  }

  ghost predicate QueuesOn(db: Db, t: Db, m: Mutation) {
    && m.op !in db.outbox && m.op in t.outbox && t.outbox == db.outbox[m.op := t.outbox[m.op]]
    && t.outbox[m.op].key == m.key
    && m.key in t.entities && t.entities == db.entities[m.key := t.entities[m.key]] && t.entities[m.key].status.Pending?
    && (m.key in db.entities ==> !db.entities[m.key].status.Conflicted?)
  }

  lemma CommitQueuesOn(db: Db, m: Mutation)
    requires Commit(db, m).Ok?
    ensures Commit(db, m).value == db || QueuesOn(db, Commit(db, m).value, m)
  {
    CommitCases(db, m);
    if m.op !in db.outbox {
      CommitNeedsPeace(db, m);
      AddedQueuesOn(db, m, CommitDeps(db, m).value);
    }
  }

  lemma AddedQueuesOn(db: Db, m: Mutation, deps: seq<OpId>)
    requires m.op !in db.outbox && (m.key in db.entities ==> !db.entities[m.key].status.Conflicted?)
    ensures QueuesOn(db, Added(db, m, deps), m)
  {
  }

  lemma CommitNeedsPeace(db: Db, m: Mutation)
    requires Commit(db, m).Ok? && m.op !in db.outbox
    ensures m.key in db.entities ==>
              !db.entities[m.key].status.Conflicted? && m.baseVersion == db.entities[m.key].serverVersion
  {
  }

  /** A commit leaves the tables alone, or adds one row on an entity not in conflict. */
  lemma QueuedOrNot(db: Db, m: Mutation, body: Payload)
    ensures var t := ProtectedCommit(db, m, body).0;
            (t.entities == db.entities && t.outbox == db.outbox) || QueuesOn(db, t, m)
  {
    var sealed := m.(payload := Reference(OfOp(m.op)), payloadHash := Sha(body), slot := Some(OfOp(m.op)));
    if m.kind.Delete? {
      if Commit(db, m).Ok? { CommitQueuesOn(db, m); }
    } else if m.op !in db.outbox {
      var put := db.(vault := db.vault[OfOp(m.op) := body]);
      if Commit(put, sealed).Ok? { CommitQueuesOn(put, sealed); }
    }
  }

  /** A protected commit moves at most one entity, by exactly one revision, and
      touches no slot but the operation's own. */
  lemma ProtectedOutcome(db: Db, m: Mutation, body: Payload)
    ensures var after := ProtectedCommit(db, m, body).0;
            && (forall slot | slot != OfOp(m.op) ::
                  (slot in after.vault <==> slot in db.vault) &&
                  (slot in db.vault ==> after.vault[slot] == db.vault[slot]))
            && (m.op in db.outbox ==> after == db)
            && (after.entities != db.entities ==>
                  && m.key in after.entities
                  && after.entities == db.entities[m.key := after.entities[m.key]]
                  && (m.key in db.entities ==>
                        after.entities[m.key].localRevision == db.entities[m.key].localRevision + 1)
                  && (if m.kind.Delete? then
                        m.key in db.entities && after.entities[m.key].payload == db.entities[m.key].payload
                      else after.entities[m.key].payload == Reference(OfOp(m.op))))
  {
    var slot := OfOp(m.op);
    var sealed := m.(payload := Reference(slot), payloadHash := Sha(body), slot := Some(slot));
    var put := db.(vault := db.vault[slot := body]);
    if m.kind.Delete? {
      if Commit(db, m).Ok? { CommitOutcome(db, m); }
    } else if m.op in db.outbox {
      if Commit(db, sealed).Ok? { CommitOutcome(db, sealed); }
    } else {
      if Commit(put, sealed).Ok? { CommitOutcome(put, sealed); }
    }
  }

  /** As long as its operation is queued, in whatever state, a mutation can be committed
      again: that changes nothing. No different mutation is accepted under its id. */
  lemma CommitAgain(db: Db, m: Mutation, later: Db)
    requires Commit(db, m).Ok? && m.op !in db.outbox
    requires m.op in later.outbox && m.key in later.entities
    requires var op := Commit(db, m).value.outbox[m.op];
             later.outbox[m.op] == op.(state := later.outbox[m.op].state, lastError := later.outbox[m.op].lastError)
    ensures Commit(later, m) == Ok(later)
    ensures forall other: Mutation | Commit(later, other).Ok? && other.op == m.op ::
              && other.key == m.key && other.kind == m.kind && other.baseVersion == m.baseVersion
              && other.payloadHash == m.payloadHash && other.occurredAt == m.occurredAt && other.device == m.device
  {
  }

  lemma CommitOutbox(db: Db, m: Mutation)
    requires Keyed(db.outbox) && Commit(db, m).Ok?
    ensures var after := Commit(db, m).value;
            && Keyed(after.outbox)
            && (after.outbox == db.outbox || after.outbox.Keys == db.outbox.Keys + {m.op})
  {
    CommitCases(db, m);
    AddedKeys(db, m);
  }

  lemma ProtectedOutbox(db: Db, m: Mutation, body: Payload)
    requires Keyed(db.outbox)
    ensures var after := ProtectedCommit(db, m, body).0;
            && Keyed(after.outbox)
            && (after.outbox == db.outbox || after.outbox.Keys == db.outbox.Keys + {m.op})
  {
    var slot := OfOp(m.op);
    var sealed := m.(payload := Reference(slot), payloadHash := Sha(body), slot := Some(slot));
    var put := db.(vault := db.vault[slot := body]);
    if m.kind.Delete? {
      if Commit(db, m).Ok? { CommitOutbox(db, m); }
    } else if m.op in db.outbox {
      if Commit(db, sealed).Ok? { CommitOutbox(db, sealed); }
    } else {
      if Commit(put, sealed).Ok? { CommitOutbox(put, sealed); }
    }
  }

  /** Commits only write entities, the outbox and their own slot. */
  lemma CommitFrame(db: Db, m: Mutation)
    requires Commit(db, m).Ok?
    ensures var after := Commit(db, m).value;
            after == db.(entities := after.entities, outbox := after.outbox)
  {
  }

  lemma ProtectedFrame(db: Db, m: Mutation, body: Payload)
    ensures var after := ProtectedCommit(db, m, body).0;
            after == db.(entities := after.entities, outbox := after.outbox, vault := after.vault)
  {
    var slot := OfOp(m.op);
    var sealed := m.(payload := Reference(slot), payloadHash := Sha(body), slot := Some(slot));
    var put := db.(vault := db.vault[slot := body]);
    if m.kind.Delete? {
      if Commit(db, m).Ok? { CommitFrame(db, m); }
    } else if m.op in db.outbox {
      if Commit(db, sealed).Ok? { CommitFrame(db, sealed); }
    } else if Commit(put, sealed).Ok? {
      CommitFrame(put, sealed);
    }
  }
}
