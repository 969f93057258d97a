/**
 The replica as a state machine: every event is one transaction, and between a
 push request and its answer local work goes on. The server is free to answer
 anything well formed. Bookkeeping beside the tables records what happened.
 */
module Runs {
  import opened Types
  import opened Repository
  import Scheduler
  import Push
  import Pull
  import Bootstrap
  import Resilience
  import NoteEdits

  /** A push request that is waiting for its answer. */
  datatype Sent = Sent(batch: seq<Op>, device: DeviceId, epoch: Epoch)

  /** What became of an operation: still in the outbox, acknowledged by the server
      at a place in its log, or removed by the resolution of a conflict. */
  datatype Fate =
    | Queued
    | Acknowledged(key: Key, sequence: nat)
    | Removed(conflict: Key)

  /** `rank` orders operations by when they were queued. */
  datatype Entry = Entry(rank: nat, epoch: Option<Epoch>, fate: Fate)

  /**
   - `history` has an entry for every operation ever queued;
   - `clock` counts events;
   - `gated` holds from a demand for a new snapshot until one is activated.
   */
  datatype System = System(
    db: Db,
    sent: Option<Sent>,
    history: map<OpId, Entry>,
    clock: nat,
    gated: bool)

  datatype Event =
    | Mutate(mutation: Mutation)
    | MutateProtected(protected: Mutation, body: Payload)
    | EditNote(prepared: NoteEdits.Prepared)
    | Resolve(request: Resilience.Request)
    | DismissConflict(conflict: ConflictId)
    | RecordConflict(id: ConflictId, row: ConflictRow)
    | SendPush(listing: seq<Op>)
    | PushAnswered(results: seq<OpResult>)
    | PushLost
    | PushControl(pushAction: Control)
    | PullAnswered(page: Page)
    | PullControl(pullAction: Control)
    | StageChunk(chunk: Chunk)
    | PrepareDevice(first: Chunk, unlocked: bool, attachments: nat)
    | DiscardStaging(snapshot: SnapshotId, owner: DeviceId)

  function CurrentEpoch(db: Db): Option<Epoch> {
    if db.sync.Some? then db.sync.value.epoch else None
  }

  /** A client of the local tables never queues an operation id twice. */
  predicate Fresh(s: System, op: OpId) {
    op in s.db.outbox || op !in s.history
  }

  predicate OrdinaryType(kind: EntityType) {
    !kind.DocState? && !kind.DocUpdate?
  }

  predicate MutationAllowed(s: System, m: Mutation) {
    OrdinaryType(m.key.kind) && Fresh(s, m.op) && forall d | d in m.deps :: d in s.history
  }

  /** What every edit handed over by NoteEdits.Prepare looks like. */
  predicate EditAllowed(s: System, p: NoteEdits.Prepared) {
    && Fresh(s, p.op.id)
    && (forall d | d in p.op.deps :: d in s.history && (d in s.db.outbox ==> s.db.outbox[d].key == p.op.key))
    && p.op.key == Key(DocUpdate, p.note) && p.op.kind.Update?
    && p.op.state.Waiting? && p.op.resolution.None?
  }

  /** The server reports a conflict about the entity the operation is about. */
  predicate ResultsAllowed(batch: seq<Op>, results: seq<OpResult>) {
    forall i | 0 <= i < |results| && i < |batch| && results[i].Refused? ::
      results[i].conflict.key == batch[i].key || results[i].conflict.key == Owner(batch[i].key)
  }

  predicate RecordAllowed(s: System, c: ConflictRow) {
    && OrdinaryType(c.key.kind)
    && c.resolutionOp.None?
    && (c.sourceOp.Some? ==>
          && c.sourceOp.value in s.history
          && (c.sourceOp.value in s.db.outbox ==> !s.db.outbox[c.sourceOp.value].state.Waiting?))
  }

  function Device(s: System): DeviceId {
    if s.db.sync.Some? then s.db.sync.value.device else 0
  }

  /** Sync cycles, snapshots and device changes do not overlap; local work may
      happen at any time. */
  ghost predicate Allowed(s: System, e: Event) {
    match e
    case Mutate(m) => MutationAllowed(s, m)
    case MutateProtected(m, _) => MutationAllowed(s, m)
    case EditNote(p) => EditAllowed(s, p)
    case Resolve(r) => Fresh(s, r.op)
    case DismissConflict(_) => true
    case RecordConflict(_, c) => RecordAllowed(s, c)
    case SendPush(listing) =>
      && s.sent.None? && Pull.CanResume(s.db.sync, Device(s)) && listing != []
      && Scheduler.ReadyListing(Scheduler.DeviceRows(s.db.outbox, Device(s)), listing)
    case PushAnswered(results) => s.sent.Some? && ResultsAllowed(s.sent.value.batch, results)
    case PushLost => s.sent.Some?
    case PushControl(_) => s.sent.Some?
    case PullAnswered(_) => s.sent.None? && Pull.CanResume(s.db.sync, Device(s))
    case PullControl(_) => s.sent.None? && Pull.CanResume(s.db.sync, Device(s))
    case StageChunk(_) => s.sent.None?
    case PrepareDevice(_, _, _) => s.sent.None?
    case DiscardStaging(_, _) => true
  }

  function Or<T>(r: Result<T>, default: T): T {
    if r.Ok? then r.value else default
  }

  /** The system once the tables have changed to `db`, where `op` may have been queued. */
  function Issue(s: System, db: Db, op: OpId): System {
    if op in db.outbox && op !in s.history then
      s.(db := db, history := s.history[op := Entry(s.clock, CurrentEpoch(s.db), Queued)])
    else s.(db := db)
  }

  function Request(s: System, listing: seq<Op>): Sent {
    Sent(Batch(listing), Device(s), if CurrentEpoch(s.db).Some? then CurrentEpoch(s.db).value else 0)
  }

  function Batch(listing: seq<Op>): seq<Op> {
    if |listing| <= Push.BATCH then listing else listing[..Push.BATCH]
  }

  function Settle(history: map<OpId, Entry>, id: OpId, fate: Fate): map<OpId, Entry> {
    if id in history then history[id := history[id].(fate := fate)] else history
  }

  function SettleAcked(history: map<OpId, Entry>, batch: seq<Op>, results: seq<OpResult>): map<OpId, Entry>
    requires |batch| == |results|
  {
    if batch == [] then history else
      var n := |batch| - 1;
      var before := SettleAcked(history, batch[..n], results[..n]);
      if results[n].Acked? then
        Settle(before, batch[n].id, Acknowledged(batch[n].key, results[n].sequence))
      else before
  }

  function Answer(s: System, results: seq<OpResult>): System {
    if s.sent.None? then s else
      var batch := s.sent.value.batch;
      var sealed := s.db.(vault := Push.SealRemotes(s.db.vault, results));
      s.(db := Push.Receive(s.db, batch, results),
         history := if Push.Reply(sealed, batch, results).Ok? then SettleAcked(s.history, batch, results) else s.history,
         sent := None)
  }

  function Demand(s: System, action: Control): System {
    s.(db := Pull.ApplyControl(s.db, action), sent := None, gated := s.gated || !action.UpgradeControl?)
  }

  function SettleRemoved(s: System, r: Resilience.Request): map<OpId, Entry> {
    if Resilience.Resolve(s.db, r).Ok? then
      var c := s.db.conflicts[r.conflict];
      map id | id in s.history ::
        if id in s.db.outbox && Resilience.Discarded(c, s.db.outbox[id]) then s.history[id].(fate := Removed(c.key))
        else s.history[id]
    else s.history
  }

  /** The chunk completed its snapshot and was activated. */
  predicate Activates(db: Db, c: Chunk, device: DeviceId) {
    && Bootstrap.Verify(c, device).Ok?
    && var sealed := db.(vault := Bootstrap.SealRecords(db.vault, c.records));
    && Bootstrap.Persist(sealed, c).Ok?
    && Bootstrap.Admit(sealed, c) == Ok(false)
    && |Bootstrap.NextManifest(Bootstrap.Previous(sealed, c), c).received| == c.count
  }

  function Effect(s: System, e: Event): System
  {
    match e
    case Mutate(m) => Issue(s, Or(Commit(s.db, m), s.db), m.op)
    case MutateProtected(m, body) => Issue(s, ProtectedCommit(s.db, m, body).0, m.op)
    case EditNote(p) => Issue(s, Or(NoteEdits.CommitEdit(s.db, p), s.db), p.op.id)
    case Resolve(r) => Issue(s.(history := SettleRemoved(s, r)), Or(Resilience.Resolve(s.db, r), s.db), r.op)
    case DismissConflict(id) => s.(db := Or(Resilience.DismissConflict(s.db, id), s.db))
    case RecordConflict(id, c) => s.(db := Or(Resilience.RecordConflict(s.db, id, c), s.db))
    case SendPush(listing) => s.(sent := Some(Request(s, listing)))
    case PushAnswered(results) => Answer(s, results)
    case PushLost => s.(sent := None)
    case PushControl(action) => Demand(s, action)
    case PullAnswered(page) => s.(db := Or(Pull.Receive(s.db, Device(s), page), s.db))
    case PullControl(action) => Demand(s, action)
    case StageChunk(c) =>
      s.(db := Bootstrap.Stage(s.db, c, c.device), gated := s.gated && !Activates(s.db, c, c.device))
    case PrepareDevice(c, unlocked, attachments) =>
      var db := Or(Bootstrap.PrepareDevice(s.db, c, c.device, unlocked, attachments), s.db);
      s.(db := db, gated := s.gated || db.sync != s.db.sync)
    case DiscardStaging(snapshot, owner) => s.(db := Or(Bootstrap.Discard(s.db, snapshot, owner), s.db))
  }

  function Next(s: System, e: Event): System
  {
    Effect(s, e).(clock := s.clock + 1)
  }

  // How the outbox may change

  /** Rows that stay keep everything but their state and last error, and a row
      that is no longer waiting never waits again. */
  ghost predicate Evolves(before: map<OpId, Op>, after: map<OpId, Op>) {
    forall id | id in before && id in after ::
      && after[id] == before[id].(state := after[id].state, lastError := after[id].lastError)
      && (after[id].state.Waiting? ==> after[id] == before[id])
  }

  lemma EvolvesTrans(a: map<OpId, Op>, b: map<OpId, Op>, c: map<OpId, Op>)
    requires Evolves(a, b) && Evolves(b, c) && c.Keys <= b.Keys
    ensures Evolves(a, c)
  {
    forall id | id in a && id in c
      ensures c[id] == a[id].(state := c[id].state, lastError := c[id].lastError)
      ensures c[id].state.Waiting? ==> c[id] == a[id]
    {
      assert id in b;
    }
  }
}
