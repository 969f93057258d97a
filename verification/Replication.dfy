/**
 The replica beside its server: all that commits, pushes, pulls, snapshots and
 resolutions can do to what it shows of the log.
 */
module Replication {
  import opened Types
  import opened Graph
  import opened Repository
  import opened Runs
  import opened Ledger
  import opened Safety
  import opened Guarantees
  import opened DirtyWork
  import opened Chains
  import opened ServerLog
  import opened Convergence
  import opened Manifests
  import opened Rebootstrap
  import Outbox
  import Push
  import Pull
  import Bootstrap
  import Resilience
  import NoteEdits
  import Scheduler
  import EntityOrder
  import Draining

  /** `head` is the server's last sequence; changes the device may not see advance
      it without appearing in the log. `requested` has every operation ever sent. */
  datatype World = World(s: System, log: seq<Change>, head: nat, published: Published, requested: set<OpId>)

  datatype Move =
    | Client(event: Event)
    | Append(change: Change)
    | Unseen(head: nat)
    | Publish(chunks: seq<Chunk>)

  function Cursor(db: Db): nat {
    if db.sync.Some? then db.sync.value.cursor else 0
  }

  function Stand(w: World, stuck: set<OpId>): Position {
    Position(w.s.history, w.log, Cursor(w.s.db), Device(w.s), stuck)
  }

  ghost predicate Unlogged(w: World, op: OpId) {
    op in w.s.db.outbox || forall ch | ch in w.log :: ch.op != op
  }

  /** An honest server: acknowledgements (also of operations applied earlier, whose
      answer was lost) name the log, pages are cut from it, and chunks belong to
      snapshots of it. Ids of new operations are not logged yet, and only what was sent
      is logged. */
  ghost predicate Honestly(w: World, e: Event) {
    match e
    case Mutate(m) => Unlogged(w, m.op)
    case MutateProtected(m, _) => Unlogged(w, m.op)
    case EditNote(p) => Unlogged(w, p.op.id)
    case Resolve(r) => Unlogged(w, r.op)
    case PushAnswered(results) =>
      w.s.sent.Some? && forall i | 0 <= i < |results| && i < |w.s.sent.value.batch| :: Honest(w.log, w.s.sent.value.batch[i], results[i])
    case PullAnswered(page) =>
      page.next <= w.head && (page.from == Cursor(w.s.db) ==> IsWindow(w.log, page.from, page.next, page.changes))
    case StageChunk(c) => IsServed(w.published, c)
    case RecordConflict(_, _) => false
    case PrepareDevice(_, _, _) => false
    case _ => true
  }

  ghost predicate Plays(w: World, m: Move) {
    match m
    case Append(ch) =>
      && ch.sequence > w.head
      && (forall other | other in w.log :: other.op != ch.op)
      && ch.payloadHash == Sha(ch.payload)
      && (ch.op in w.s.db.outbox ==> w.s.db.outbox[ch.op].key == ch.key && ch.op in w.requested)
    case Unseen(head) => head >= w.head
    case Publish(chunks) =>
      SnapshotOf(chunks, w.log) && chunks[0].cursor <= w.head && chunks[0].snapshot !in w.published
    case Client(e) => Allowed(w.s, e) && Honestly(w, e)
  }

  function Play(w: World, m: Move): World {
    match m
    case Client(e) =>
      w.(s := Next(w.s, e),
         requested := if e.SendPush? then w.requested + (set op | op in Batch(e.listing) :: op.id) else w.requested)
    case Append(ch) => w.(log := w.log + [ch], head := ch.sequence)
    case Unseen(head) => w.(head := head)
    case Publish(chunks) => if chunks == [] then w else w.(published := w.published[chunks[0].snapshot := chunks])
  }

  ghost predicate Unfolds(w: World, moves: seq<Move>, w': World)
    decreases |moves|
  {
    if moves == [] then w' == w
    else Plays(w, moves[0]) && Unfolds(Play(w, moves[0]), moves[1..], w')
  }

  // What can lead a replica astray

  predicate RemoteIs(c: ConflictRow, ch: Change) {
    c.remoteVersion == ch.serverVersion && c.remoteHash == ch.payloadHash && c.remoteDeletedAt == ch.deletedAt
  }

  /** The remote side of the conflict is the last change of its entity. */
  ghost predicate Current(c: ConflictRow, p: Position) {
    Last(p.log, c.key, p.cursor).Some? && RemoteIs(c, Last(p.log, c.key, p.cursor).value)
  }

  /** What taking over the remote side of a conflict without telling the server needs:
      nothing else is queued, and the conflict is current. */
  ghost predicate MayAccept(w: World, c: ConflictRow) {
    && Disposes(w.s.db, c)
    && (Plain(c.key) && AcksPassed(w.s.history, c.key, Cursor(w.s.db)) ==> Current(c, Stand(w, {})))
  }

  predicate Accepts(s: System, e: Event) {
    e.Resolve? && Resilience.Resolve(s.db, e.request).Ok?
  }

  /** Resolutions may set operations free: afterwards nothing is known to be stuck. */
  ghost predicate SafeUnstuck(w: World) {
    && OnCourse(w.s.db.entities, w.s.db.outbox, Stand(w, {}))
    && (w.s.sent.Some? ==> LinedUp(w.s.db.outbox, Stand(w, {}), w.s.sent.value.batch))
  }

  function StillStuck(w: World, m: Move, stuck: set<OpId>): set<OpId> {
    if m.Client? && Accepts(w.s, m.event) then {} else stuck
  }

  /** Two kinds of moves need care: taking over the remote side of a conflict without
      telling the server, and taking over a snapshot. */
  ghost predicate StaysOnCourse(w: World, m: Move, stuck: set<OpId>) {
    match m
    case Client(Resolve(r)) =>
      Resilience.Resolve(w.s.db, r).Ok? ==>
        var c := w.s.db.conflicts[r.conflict];
        (stuck == {} || SafeUnstuck(w)) && (Resilience.Silent(c, r) ==> MayAccept(w, c))
    case Client(StageChunk(c)) =>
      var t := Play(w, m);
      Activates(w.s.db, c, c.device) ==> OnCourse(t.s.db.entities, t.s.db.outbox, Stand(t, stuck))
    case _ => true
  }

  ghost predicate AllOnCourse(w: World, moves: seq<Move>, stuck: set<OpId>)
    decreases |moves|
  {
    moves != [] ==>
      && Plays(w, moves[0]) && StaysOnCourse(w, moves[0], stuck)
      && AllOnCourse(Play(w, moves[0]), moves[1..], StillStuck(w, moves[0], stuck))
  }

  // The invariant

  /** Operations that can never be sent: no longer waiting, another device's, or
      dependent on one that can never be sent. */
  ghost predicate Stuck(outbox: map<OpId, Op>, p: Position) {
    && p.stuck <= p.history.Keys
    && forall x | x in p.stuck && x in outbox ::
         !outbox[x].state.Waiting? || outbox[x].device != p.device || StuckBehind(outbox, p, x)
  }

  ghost predicate StuckBehind(outbox: map<OpId, Op>, p: Position, x: OpId)
    requires x in outbox
  {
    exists d :: d in outbox[x].deps && d in p.stuck && d in outbox && outbox[d].device == p.device
  }

  /** A request leaves out what is stuck, and where there is a risk keeps the order. */
  ghost predicate LinedUp(outbox: map<OpId, Op>, p: Position, batch: seq<Op>) {
    && (forall i | 0 <= i < |batch| :: batch[i].id !in p.stuck)
    && (forall k | AtRisk(outbox, p, k) :: InLine(outbox, batch, k))
  }

  ghost predicate StoreInv(w: World) {
    && LogOk(w.log, w.head)
    && AllPublished(w.published, w.log, w.head)
    && StagingOk(w.s.db)
    && Served(w.s.db.manifests, w.published)
  }

  /** The part of the invariant that does not depend on being on course. */
  ghost predicate Steady(w: World, stuck: set<OpId>) {
    && Inv(w.s) && StoreInv(w)
    && Sound(w.s.db, Stand(w, stuck), w.head)
    && Cursor(w.s.db) <= w.head
    && Stuck(w.s.db.outbox, Stand(w, stuck))
    && (stuck != {} ==> w.s.db.sync.Some?)
  }

  ghost predicate WorldInv(w: World, stuck: set<OpId>) {
    && Steady(w, stuck)
    && Data(w.s.db, Stand(w, stuck))
    && (w.s.sent.Some? ==> LinedUp(w.s.db.outbox, Stand(w, stuck), w.s.sent.value.batch))
  }

  // The server moves

  lemma AppendedLast(log: seq<Change>, ch: Change, k: Key, cursor: nat)
    requires cursor < ch.sequence
    ensures Last(log + [ch], k, cursor) == Last(log, k, cursor)
  {
    assert (log + [ch])[..|log|] == log;
  }

  lemma AppendedPublished(published: Published, log: seq<Change>, head: nat, ch: Change)
    requires AllPublished(published, log, head) && head < ch.sequence
    ensures AllPublished(published, log + [ch], ch.sequence)
  {
    forall id | id in published
      ensures SnapshotOf(published[id], log + [ch])
    {
      forall k
        ensures Last(log + [ch], k, published[id][0].cursor) == Last(log, k, published[id][0].cursor)
      {
        AppendedLast(log, ch, k, published[id][0].cursor);
      }
    }
  }

  lemma AppendedAcks(history: map<OpId, Entry>, log: seq<Change>, ch: Change)
    requires AcksLogged(history, log)
    ensures AcksLogged(history, log + [ch])
  {
    forall id | id in history && history[id].fate.Acknowledged?
      ensures exists x :: x in log + [ch] && x.sequence == history[id].fate.sequence && x.key == history[id].fate.key
    {
      var x :| x in log && x.sequence == history[id].fate.sequence && x.key == history[id].fate.key;
      assert x in log + [ch];
    }
  }

  lemma AppendedLogged(log: seq<Change>, ch: Change, id: OpId, cursor: nat)
    requires cursor < ch.sequence
    ensures Logged(log + [ch], id, cursor) <==> Logged(log, id, cursor)
  {
    if Logged(log, id, cursor) {
      var x :| x in log && x.op == id && x.sequence <= cursor;
      assert x in log + [ch];
    }
  }

  /** What lies above the cursor makes no difference. */
  lemma AppendedRisk(outbox: map<OpId, Op>, p: Position, ch: Change, k: Key)
    requires p.cursor < ch.sequence
    ensures AtRisk(outbox, p.(log := p.log + [ch]), k) <==> AtRisk(outbox, p, k)
  {
    forall id
      ensures Logged(p.log + [ch], id, p.cursor) <==> Logged(p.log, id, p.cursor)
    {
      AppendedLogged(p.log, ch, id, p.cursor);
    }
  }

  lemma AppendedHarmless(entities: map<Key, Entity>, outbox: map<OpId, Op>, p: Position, ch: Change, k: Key)
    requires p.cursor < ch.sequence && AtRisk(outbox, p, k)
    requires forall other | other in p.log :: other.op != ch.op
    ensures Harmless(entities, OnEntity(outbox, k), p.(log := p.log + [ch]), k)
            <==> Harmless(entities, OnEntity(outbox, k), p, k)
  {
    var q, rows := p.(log := p.log + [ch]), OnEntity(outbox, k);
    AppendedLast(p.log, ch, k, p.cursor);
    if k in entities && Latest(rows).Some? {
      var newest := Latest(rows).value;
      assert Logged(p.log, newest, p.cursor);
      assert forall own :: own in q.log && own.op == newest <==> own in p.log && own.op == newest;
      EndsAlike(entities[k], rows, p, q, k);
    }
  }

  lemma EndsAlike(e: Entity, rows: map<OpId, Op>, p: Position, q: Position, k: Key)
    requires Latest(rows).Some? && Last(q.log, k, q.cursor) == Last(p.log, k, p.cursor)
    requires forall own :: own in q.log && own.op == Latest(rows).value <==> own in p.log && own.op == Latest(rows).value
    ensures EndsWell(e, rows, q, k) <==> EndsWell(e, rows, p, k)
  {
    forall f: Entity
      ensures Convergence.Shows(f, p, k) <==> Convergence.Shows(f, q, k)
    {
    }
  }

  lemma AppendedData(db: Db, p: Position, ch: Change)
    requires Data(db, p) && p.cursor < ch.sequence
    requires forall other | other in p.log :: other.op != ch.op
    ensures Data(db, p.(log := p.log + [ch]))
  {
    var q := p.(log := p.log + [ch]);
    forall k
      ensures Last(q.log, k, q.cursor) == Last(p.log, k, p.cursor)
    {
      AppendedLast(p.log, ch, k, p.cursor);
    }
    forall k | AtRisk(db.outbox, q, k)
      ensures Harmless(db.entities, OnEntity(db.outbox, k), q, k)
    {
      AppendedRisk(db.outbox, p, ch, k);
      AppendedHarmless(db.entities, db.outbox, p, ch, k);
    }
  }

  lemma AppendedLine(outbox: map<OpId, Op>, p: Position, ch: Change, batch: seq<Op>)
    requires LinedUp(outbox, p, batch) && p.cursor < ch.sequence
    ensures LinedUp(outbox, p.(log := p.log + [ch]), batch)
  {
    forall k | AtRisk(outbox, p.(log := p.log + [ch]), k)
      ensures InLine(outbox, batch, k)
    {
      AppendedRisk(outbox, p, ch, k);
    }
  }

  lemma AppendSteady(w: World, ch: Change, stuck: set<OpId>)
    requires Steady(w, stuck) && Plays(w, Append(ch))
    ensures Steady(Play(w, Append(ch)), stuck)
  {
    assert forall x | x in w.log + [ch] :: x in w.log || x == ch;
    AppendedPublished(w.published, w.log, w.head, ch);
    AppendedAcks(w.s.history, w.log, ch);
  }

  lemma AppendKeeps(w: World, ch: Change, stuck: set<OpId>)
    requires WorldInv(w, stuck) && Plays(w, Append(ch))
    ensures WorldInv(Play(w, Append(ch)), stuck)
  {
    AppendSteady(w, ch, stuck);
    AppendedData(w.s.db, Stand(w, stuck), ch);
    if w.s.sent.Some? {
      AppendedLine(w.s.db.outbox, Stand(w, stuck), ch, w.s.sent.value.batch);
    }
  }

  lemma PublishKeeps(w: World, chunks: seq<Chunk>, stuck: set<OpId>)
    requires WorldInv(w, stuck) && Plays(w, Publish(chunks))
    ensures WorldInv(Play(w, Publish(chunks)), stuck)
  {
    var w' := Play(w, Publish(chunks));
    assert w' == w.(published := w.published[chunks[0].snapshot := chunks]);
    assert Stand(w', stuck) == Stand(w, stuck);
  }

  lemma UnseenKeeps(w: World, head: nat, stuck: set<OpId>)
    requires WorldInv(w, stuck) && Plays(w, Unseen(head))
    ensures WorldInv(Play(w, Unseen(head)), stuck)
  {
  }

  // The client moves: the staging area

  lemma LeavesStaging(s: System, e: Event)
    requires (e.PushAnswered? ==> s.sent.Some?)
    requires !e.StageChunk? && !e.DiscardStaging? && !e.PrepareDevice?
    ensures Effect(s, e).db.manifests == s.db.manifests && Effect(s, e).db.staged == s.db.staged
  {
    if IsLocal(e) {
      LocalLeavesStaging(s, e);
    } else if e.PushAnswered? || e.PullAnswered? {
      RemoteLeavesStaging(s, e);
    } else {
      OthersLeaveStaging(s, e);
    }
  }

  lemma DiscardKeepsServed(db: Db, published: Published, snapshot: SnapshotId, owner: DeviceId)
    requires Served(db.manifests, published)
    ensures Served(Or(Bootstrap.Discard(db, snapshot, owner), db).manifests, published)
  {
  }

  lemma ClientStore(w: World, e: Event)
    requires StoreInv(w) && Plays(w, Client(e))
    ensures StoreInv(Play(w, Client(e)))
  {
    EventKeepsStaging(w.s, e);
    if e.StageChunk? {
      StageKeepsServed(w.s.db, w.published, w.log, w.head, e.chunk);
    } else if e.DiscardStaging? {
      DiscardKeepsServed(w.s.db, w.published, e.snapshot, e.owner);
    } else {
      LeavesStaging(w.s, e);
    }
  }

  // What is queued

  lemma StaysCareful(w: World, e: Event, stuck: set<OpId>)
    requires Plays(w, Client(e)) && StaysOnCourse(w, Client(e), stuck)
    ensures Careful(w.s, e)
  {
  }

  /** Only a commit or a resolution queues a new operation, under its own id. */
  lemma NewIsUnlogged(w: World, e: Event, id: OpId)
    requires Inv(w.s) && Plays(w, Client(e)) && id in Effect(w.s, e).db.outbox && id !in w.s.db.outbox
    ensures forall ch | ch in w.log :: ch.op != id
  {
    if e.PushAnswered? || e.PullAnswered? || e.StageChunk? {
      EntityOrder.NothingAdded(w.s, e);
    } else if Outbox.IsCommit(e) {
      Outbox.CommitEventGains(w.s, e);
    } else if e.Resolve? {
      ResolveQueuesItself(w.s.db, e.request, id);
    } else {
      OutboxUntouched(w.s, e);
    }
  }

  lemma ResolveQueuesItself(db: Db, r: Resilience.Request, id: OpId)
    requires id in Or(Resilience.Resolve(db, r), db).outbox && id !in db.outbox
    ensures id == r.op
  {
  }

  lemma SubjectKept(w: World, e: Event)
    requires Inv(w.s) && SameSubject(w.s.db.outbox, w.log) && Plays(w, Client(e)) && Advances(w.s, Next(w.s, e))
    ensures SameSubject(Next(w.s, e).db.outbox, w.log)
  {
    var t := Next(w.s, e);
    forall id, ch | id in t.db.outbox && ch in w.log && ch.op == id
      ensures ch.key == t.db.outbox[id].key
    {
      if id in w.s.db.outbox {
        assert t.db.outbox[id].key == w.s.db.outbox[id].key;
      } else {
        NewIsUnlogged(w, e, id);
      }
    }
  }

  lemma StuckMoves(before: map<OpId, Op>, p: Position, after: map<OpId, Op>, q: Position)
    requires Stuck(before, p) && q.stuck == p.stuck && q.device == p.device && p.history.Keys <= q.history.Keys
    requires forall x | x in p.stuck && x in after :: x in before
    requires forall x | x in p.stuck && x in before ::
               && x in after && after[x].deps == before[x].deps && after[x].device == before[x].device
               && (after[x].state.Waiting? ==> before[x].state.Waiting?)
    ensures Stuck(after, q)
  {
    forall x | x in q.stuck && x in after
      ensures !after[x].state.Waiting? || after[x].device != q.device || StuckBehind(after, q, x)
    {
      if StuckBehind(before, p, x) {
        var d :| d in before[x].deps && d in p.stuck && d in before && before[d].device == p.device;
        assert d in after[x].deps && d in after && after[d].device == q.device;
      }
    }
  }

  /** Stuck operations leave the queue neither by answers nor by anything else. */
  lemma {:induction false} StuckKept(w: World, e: Event, stuck: set<OpId>)
    requires Inv(w.s) && Plays(w, Client(e)) && !Accepts(w.s, e)
    requires Advances(w.s, Next(w.s, e)) && Device(Next(w.s, e)) == Device(w.s)
    requires Stuck(w.s.db.outbox, Stand(w, stuck))
    requires w.s.sent.Some? ==> forall i | 0 <= i < |w.s.sent.value.batch| :: w.s.sent.value.batch[i].id !in stuck
    ensures Stuck(Next(w.s, e).db.outbox, Stand(Play(w, Client(e)), stuck))
  {
    forall x | x in stuck && x in w.s.db.outbox
      ensures x in Next(w.s, e).db.outbox
    {
      StuckStays(w, e, stuck, x);
    }
    StuckMoves(w.s.db.outbox, Stand(w, stuck), Next(w.s, e).db.outbox, Stand(Play(w, Client(e)), stuck));
  }

  lemma {:induction false} StuckStays(w: World, e: Event, stuck: set<OpId>, d: OpId)
    requires Inv(w.s) && Plays(w, Client(e)) && !Accepts(w.s, e)
    requires d in stuck && d in w.s.db.outbox
    requires w.s.sent.Some? ==> forall i | 0 <= i < |w.s.sent.value.batch| :: w.s.sent.value.batch[i].id !in stuck
    ensures d in Next(w.s, e).db.outbox
  {
    if d !in Next(w.s, e).db.outbox {
      OnlyAcksAndResolutionsRemove(w.s, e, d);
    }
  }

  // What is acknowledged

  ghost predicate SameAcks(before: map<OpId, Entry>, after: map<OpId, Entry>) {
    && (forall id | id in before && before[id].fate.Acknowledged? :: id in after && after[id] == before[id])
    && (forall id | id in after && after[id].fate.Acknowledged? :: id in before && before[id] == after[id])
  }

  lemma SameAcksPassed(before: map<OpId, Entry>, after: map<OpId, Entry>)
    requires SameAcks(before, after)
    ensures forall k, cursor :: AcksPassed(after, k, cursor) <==> AcksPassed(before, k, cursor)
  {
    forall k, cursor
      ensures AcksPassed(after, k, cursor) <==> AcksPassed(before, k, cursor)
    {
      if AcksPassed(before, k, cursor) { OneWay(before, after, k, cursor); }
      if AcksPassed(after, k, cursor) { OneWay(after, before, k, cursor); }
    }
  }

  lemma OneWay(before: map<OpId, Entry>, after: map<OpId, Entry>, k: Key, cursor: nat)
    requires SameAcks(before, after) && AcksPassed(before, k, cursor)
    ensures AcksPassed(after, k, cursor)
  {
    forall id | id in after && after[id].fate.Acknowledged? && after[id].fate.key == k
      ensures after[id].fate.sequence <= cursor
    {
      assert before[id] == after[id];
    }
  }

  lemma SameAcksLogged(before: map<OpId, Entry>, after: map<OpId, Entry>, log: seq<Change>)
    requires SameAcks(before, after) && AcksLogged(before, log)
    ensures AcksLogged(after, log)
  {
    forall id | id in after && after[id].fate.Acknowledged?
      ensures exists ch :: ch in log && ch.sequence == after[id].fate.sequence && ch.key == after[id].fate.key
    {
      assert before[id] == after[id];
    }
  }

  lemma IssueAcks(s: System, db: Db, op: OpId)
    ensures SameAcks(s.history, Issue(s, db, op).history)
  {
  }

  lemma ResolveAcks(s: System, r: Resilience.Request)
    requires Conserved(s)
    ensures SameAcks(s.history, Effect(s, Resolve(r)).history)
  {
    var removed := SettleRemoved(s, r);
    assert SameAcks(s.history, removed);
    IssueAcks(s.(history := removed), Or(Resilience.Resolve(s.db, r), s.db), r.op);
  }

  /** Only an answer to a push acknowledges anything. */
  lemma AcksStay(s: System, e: Event)
    requires Conserved(s) && !e.PushAnswered?
    ensures SameAcks(s.history, Effect(s, e).history)
  {
    if e.Resolve? {
      ResolveAcks(s, e.request);
    } else if Outbox.IsCommit(e) {
      CommitAcksStay(s, e);
    } else {
      HistoryStays(s, e);
    }
  }

  lemma CommitAcksStay(s: System, e: Event)
    requires Outbox.IsCommit(e)
    ensures SameAcks(s.history, Effect(s, e).history)
  {
    if e.Mutate? {
      IssueAcks(s, Or(Commit(s.db, e.mutation), s.db), e.mutation.op);
    } else if e.MutateProtected? {
      IssueAcks(s, ProtectedCommit(s.db, e.protected, e.body).0, e.protected.op);
    } else {
      IssueAcks(s, Or(NoteEdits.CommitEdit(s.db, e.prepared), s.db), e.prepared.op.id);
    }
  }

  lemma HistoryStays(s: System, e: Event)
    requires !IsLocal(e) && !e.PushAnswered?
    ensures Effect(s, e).history == s.history
  {
  }

  lemma {:induction false} AnswerAcks(history: map<OpId, Entry>, log: seq<Change>, batch: seq<Op>, results: seq<OpResult>)
    requires |batch| == |results| && AllHonest(log, batch, results) && AcksLogged(history, log)
    ensures AcksLogged(SettleAcked(history, batch, results), log)
  {
    if batch != [] {
      var n := |batch| - 1;
      AnswerAcks(history, log, batch[..n], results[..n]);
      assert Honest(log, batch[n], results[n]);
      SettledLogged(Position(SettleAcked(history, batch[..n], results[..n]), log, 0, 0, {}), batch[n], results[n]);
    }
  }

  lemma AcksStayLogged(w: World, e: Event)
    requires Conserved(w.s) && Plays(w, Client(e)) && AcksLogged(w.s.history, w.log)
    ensures AcksLogged(Effect(w.s, e).history, w.log)
  {
    if e.PushAnswered? {
      var batch := w.s.sent.value.batch;
      if |batch| == |e.results| {
        AnswerAcks(w.s.history, w.log, batch, e.results);
      }
    } else {
      AcksStay(w.s, e);
      SameAcksLogged(w.s.history, Effect(w.s, e).history, w.log);
    }
  }

  // The cursor

  /** The cursor never passes the end of the log, and the device stays the same once known. */
  lemma CursorStays(w: World, e: Event, stuck: set<OpId>)
    requires Steady(w, stuck) && Plays(w, Client(e))
    ensures Cursor(Effect(w.s, e).db) <= w.head
    ensures w.s.db.sync.Some? ==> Effect(w.s, e).db.sync.Some? && Device(Effect(w.s, e)) == Device(w.s)
  {
    if IsLocal(e) {
      LocalKeepsSync(w.s, e);
    } else if e.StageChunk? {
      ServedChunk(w.published, w.log, w.head, e.chunk);
      StageSwitches(w.s.db, w.published, w.log, w.head, e.chunk);
    } else if e.PullAnswered? {
      PullSync(w.s.db.(vault := Pull.SealChanges(w.s.db.vault, e.page.changes)), Device(w.s), e.page.changes);
    } else if e.PushAnswered? {
      AnswerSync(w.s, e.results);
    } else {
      OthersKeepCursor(w.s, e);
    }
  }

  lemma AnswerSync(s: System, results: seq<OpResult>)
    requires s.sent.Some?
    ensures Cursor(Effect(s, PushAnswered(results)).db) == Cursor(s.db)
    ensures Device(Effect(s, PushAnswered(results))) == Device(s)
    ensures Effect(s, PushAnswered(results)).db.sync.Some? == s.db.sync.Some?
  {
    var sealed := s.db.(vault := Push.SealRemotes(s.db.vault, results));
    if Push.Reply(sealed, s.sent.value.batch, results).Ok? {
      FoldSync(sealed, s.sent.value.batch, results);
    }
  }

  lemma OthersKeepCursor(s: System, e: Event)
    requires !IsLocal(e) && !e.StageChunk? && !e.PullAnswered? && !e.PushAnswered? && !e.PrepareDevice?
    ensures Cursor(Effect(s, e).db) == Cursor(s.db) && Device(Effect(s, e)) == Device(s)
    ensures Effect(s, e).db.sync.Some? == s.db.sync.Some?
  {
  }

  lemma ClientSteady(w: World, e: Event, stuck: set<OpId>)
    requires Steady(w, stuck) && Plays(w, Client(e)) && Careful(w.s, e)
    requires stuck == {} || !Accepts(w.s, e)
    requires stuck != {} && w.s.sent.Some? ==> LinedUp(w.s.db.outbox, Stand(w, stuck), w.s.sent.value.batch)
    ensures Steady(Play(w, Client(e)), stuck)
  {
    EventKeepsInv(w.s, e);
    EventKeepsWork(w.s, e);
    SubjectKept(w, e);
    AcksStayLogged(w, e);
    CursorStays(w, e, stuck);
    ClientStore(w, e);
    if stuck != {} {
      StuckKept(w, e, stuck);
    }
  }

  // The client moves: what is shown of the log

  /** What is at risk afterwards was so before, with the same operations. */
  ghost predicate RisksKept(before: map<OpId, Op>, p: Position, after: map<OpId, Op>, q: Position) {
    forall k | AtRisk(after, q, k) :: AtRisk(before, p, k) && OnEntity(after, k) == OnEntity(before, k)
  }

  lemma LineKept(before: map<OpId, Op>, p: Position, after: map<OpId, Op>, q: Position, batch: seq<Op>)
    requires LinedUp(before, p, batch) && RisksKept(before, p, after, q) && q.stuck == p.stuck
    ensures LinedUp(after, q, batch)
  {
    forall k | AtRisk(after, q, k)
      ensures InLine(after, batch, k)
    {
      forall j, x | 0 <= j < |batch| && batch[j].key == k && x in OnEntity(after, k) && Before(OnEntity(after, k)[x], batch[j])
        ensures Scheduler.Within(batch, j, x)
      {
        assert x in OnEntity(before, k) && before[x] == after[x];
      }
    }
  }

  /** New operations are not in the log, so what they belong to is not at risk. */
  lemma GainsKeepRisks(before: map<OpId, Op>, after: map<OpId, Op>, p: Position, q: Position, op: OpId, known: set<OpId>)
    requires Outbox.Gains(before, after, op, known)
    requires op in before || forall ch | ch in p.log :: ch.op != op
    requires q == p.(history := q.history) && forall k | AcksPassed(q.history, k, q.cursor) :: AcksPassed(p.history, k, p.cursor)
    ensures RisksKept(before, p, after, q)
  {
    forall k | AtRisk(after, q, k)
      ensures AtRisk(before, p, k) && OnEntity(after, k) == OnEntity(before, k)
    {
      var rows := OnEntity(after, k);
      assert forall id | id in rows :: Logged(p.log, id, p.cursor);
      assert op !in before ==> op !in rows;
      assert OnEntity(after, k) == OnEntity(before, k);
    }
  }

  lemma CommitAcks(s: System, e: Event, p: Position, q: Position)
    requires Conserved(s) && Outbox.IsCommit(e) && p.history == s.history
    requires q == p.(history := Effect(s, e).history)
    ensures forall k | AcksPassed(q.history, k, q.cursor) :: AcksPassed(p.history, k, p.cursor)
  {
    AcksStay(s, e);
    SameAcksPassed(p.history, q.history);
  }

  lemma CommitRisks(w: World, e: Event, p: Position, q: Position)
    requires Plays(w, Client(e)) && Outbox.IsCommit(e) && p.log == w.log
    requires q == p.(history := q.history) && forall k | AcksPassed(q.history, k, q.cursor) :: AcksPassed(p.history, k, p.cursor)
    ensures RisksKept(w.s.db.outbox, p, Effect(w.s, e).db.outbox, q)
  {
    Outbox.CommitEventGains(w.s, e);
    GainsKeepRisks(w.s.db.outbox, Effect(w.s, e).db.outbox, p, q, Outbox.NewId(e), Outbox.NewDeps(e));
  }

  lemma CommitsData(w: World, e: Event, stuck: set<OpId>)
    requires WorldInv(w, stuck) && Plays(w, Client(e)) && Outbox.IsCommit(e) && Keyed(Effect(w.s, e).db.outbox)
    ensures var t := Effect(w.s, e);
            Data(t.db, Stand(w, stuck).(history := t.history))
            && RisksKept(w.s.db.outbox, Stand(w, stuck), t.db.outbox, Stand(w, stuck).(history := t.history))
  {
    var p := Stand(w, stuck);
    var q := p.(history := Effect(w.s, e).history);
    CommitAcks(w.s, e, p, q);
    CommitRisks(w, e, p, q);
    CommitsQueue(w, e, p, q);
  }

  lemma CommitsQueue(w: World, e: Event, p: Position, q: Position)
    requires Keyed(w.s.db.outbox) && Data(w.s.db, p) && q == p.(history := q.history) && p.log == w.log
    requires Plays(w, Client(e)) && Outbox.IsCommit(e) && Keyed(Effect(w.s, e).db.outbox)
    requires forall k | AcksPassed(q.history, k, q.cursor) :: AcksPassed(p.history, k, p.cursor)
    ensures Data(Effect(w.s, e).db, q)
  {
    if e.Mutate? {
      CommitData(w.s.db, e.mutation, p, q);
    } else if e.MutateProtected? {
      ProtectedData(w.s.db, e.protected, e.body, p, q);
    } else {
      EditData(w.s.db, e.prepared, p, q);
    }
  }

  lemma SealedData(db: Db, p: Position, head: nat, vault: map<SlotId, Payload>, sync: Option<SyncRow>)
    requires Sound(db, p, head) && Data(db, p)
    ensures Sound(db.(vault := vault, sync := sync), p, head)
    ensures Data(db.(vault := vault, sync := sync), p)
  {
  }

  lemma RequestIsSendable(w: World, stuck: set<OpId>)
    requires Inv(w.s) && w.s.sent.Some? && LinedUp(w.s.db.outbox, Stand(w, stuck), w.s.sent.value.batch)
    ensures Sendable(w.s.db.outbox, Stand(w, stuck), w.s.sent.value.batch)
  {
    var batch := w.s.sent.value.batch;
    forall i | 0 <= i < |batch|
      ensures InOutbox(w.s.db.outbox, batch[i]) && StillQueued(w.s.history, batch[i])
    {
      assert w.s.db.outbox[batch[i].id] == batch[i];
    }
  }

  lemma AnswerData(w: World, results: seq<OpResult>, stuck: set<OpId>)
    requires WorldInv(w, stuck) && Plays(w, Client(PushAnswered(results)))
    ensures var t := Effect(w.s, PushAnswered(results));
            Keyed(t.db.outbox) && Data(t.db, Stand(w, stuck).(history := t.history))
  {
    var batch, p := w.s.sent.value.batch, Stand(w, stuck);
    var sealed := w.s.db.(vault := Push.SealRemotes(w.s.db.vault, results));
    SealedData(w.s.db, p, w.head, sealed.vault, w.s.db.sync);
    RequestIsSendable(w, stuck);
    if Push.Reply(sealed, batch, results).Ok? {
      PushConverges(sealed, p, w.head, batch, results);
      var folded := Push.Fold(sealed, batch, results).value;
      FoldSync(sealed, batch, results);
      SealedData(folded, Answered(p, batch, results), w.head, folded.vault, Push.SetBootstrap(folded.sync, Ready));
    }
  }

  lemma ReceivedData(db: Db, p: Position, head: nat, page: Page)
    requires Sound(db, p, head) && Data(db, p) && Pull.Receive(db, p.device, page).Ok?
    requires page.from == p.cursor && IsWindow(p.log, p.cursor, page.next, page.changes)
    ensures var t := Pull.Receive(db, p.device, page).value;
            Keyed(t.outbox) && Data(t, At(p, page.next)) && Cursor(t) == page.next
  {
    var sealed := db.(vault := Pull.SealChanges(db.vault, page.changes));
    SealedData(db, p, head, sealed.vault, db.sync);
    PullConverges(sealed, p, head, page.next, page.changes);
    var folded := Pull.Fold(sealed, p.device, page.changes);
    PullSync(sealed, p.device, page.changes);
    SealedData(folded, At(p, page.next), head, folded.vault, Pull.Advance(folded.sync, page.next));
  }

  lemma PageData(w: World, page: Page, stuck: set<OpId>)
    requires WorldInv(w, stuck) && Plays(w, Client(PullAnswered(page)))
    ensures var t := Effect(w.s, PullAnswered(page));
            Keyed(t.db.outbox) && Data(t.db, At(Stand(w, stuck), Cursor(t.db)))
  {
    if Pull.Receive(w.s.db, Device(w.s), page).Ok? {
      ReceivedData(w.s.db, Stand(w, stuck), w.head, page);
    }
  }

  /** An event that settles one entity and leaves the others alone. */
  lemma SettledData(db: Db, t: Db, p: Position, q: Position, settled: Key)
    requires Data(db, p) && q == p.(history := q.history)
    requires forall k | AcksPassed(q.history, k, q.cursor) :: AcksPassed(p.history, k, p.cursor)
    requires forall k | Plain(k) && k != settled ::
               && (k in t.entities <==> k in db.entities) && (k in t.entities ==> t.entities[k] == db.entities[k])
               && OnEntity(t.outbox, k) == OnEntity(db.outbox, k)
    requires settled in t.entities && !t.entities[settled].status.Conflicted?
    requires Plain(settled) ==> !Repeats(OnEntity(t.outbox, settled), q)
    requires Plain(settled) && t.entities[settled].status.Clean? && AcksPassed(q.history, settled, q.cursor) ==>
               Convergence.Shows(t.entities[settled], q, settled)
    ensures Data(t, q) && RisksKept(db.outbox, p, t.outbox, q)
  {
    forall k | AtRisk(t.outbox, q, k)
      ensures AtRisk(db.outbox, p, k) && Harmless(t.entities, OnEntity(t.outbox, k), q, k)
    {
      assert k != settled;
      RiskIsAbout(db.outbox, t.outbox, p, q, k);
      HarmlessStays(db.entities, t.entities, OnEntity(db.outbox, k), p, q, k);
    }
    forall k, id | k in t.entities && Plain(k) && t.entities[k].status.Conflicted? && id in t.outbox && t.outbox[id].key == k
      ensures ConflictQueued(t.outbox, k)
    {
      assert k != settled;
      assert id in OnEntity(t.outbox, k) && id in OnEntity(db.outbox, k);
      assert ConflictQueued(db.outbox, k);
      var other :| other in db.outbox && db.outbox[other].key == k && db.outbox[other].state.InConflict?;
      assert other in OnEntity(db.outbox, k) && other in OnEntity(t.outbox, k);
    }
  }

  lemma ResolveLeavesOthers(db: Db, r: Resilience.Request, k: Key)
    requires Resilience.Resolve(db, r).Ok? && Plain(k) && k != db.conflicts[r.conflict].key
    ensures var t := Resilience.Resolve(db, r).value;
            && (k in t.entities <==> k in db.entities) && (k in t.entities ==> t.entities[k] == db.entities[k])
            && OnEntity(t.outbox, k) == OnEntity(db.outbox, k)
  {
  }

  /** A resolution sent to the server queues an operation the log does not have. */
  lemma RequeuedIsNoRepeat(db: Db, r: Resilience.Request, p: Position)
    requires Resilience.Resolve(db, r).Ok? && !Resilience.Silent(db.conflicts[r.conflict], r)
    requires r.op in db.outbox || forall ch | ch in p.log :: ch.op != r.op
    ensures var t, k := Resilience.Resolve(db, r).value, db.conflicts[r.conflict].key;
            !Repeats(OnEntity(t.outbox, k), p) && k in t.entities && t.entities[k].status.Pending?
  {
    var t := Resilience.Resolve(db, r).value;
    assert r.op in OnEntity(t.outbox, db.conflicts[r.conflict].key);
  }

  /** After a silent one nothing is queued any more that could be sent. */
  lemma AcceptedIsNoRepeat(db: Db, r: Resilience.Request, p: Position)
    requires Keyed(db.outbox) && Resilience.Resolve(db, r).Ok? && Resilience.Silent(db.conflicts[r.conflict], r)
    requires Disposes(db, db.conflicts[r.conflict])
    ensures var t, k := Resilience.Resolve(db, r).value, db.conflicts[r.conflict].key;
            (Plain(k) ==> !Repeats(OnEntity(t.outbox, k), p)) && k in t.entities && t.entities[k].status.Clean?
  {
    var t, k := Resilience.Resolve(db, r).value, db.conflicts[r.conflict].key;
    if id :| id in OnEntity(t.outbox, k) {
      assert t.outbox[id] == db.outbox[id] && Touches(k, db.outbox[id].key);
      assert !OnEntity(t.outbox, k)[id].state.Waiting?;
    }
  }

  /** The entity shows the log if and only if the conflict that was accepted was current. */
  lemma AcceptedShows(db: Db, r: Resilience.Request, p: Position, head: nat)
    requires Resilience.Resolve(db, r).Ok? && Resilience.Silent(db.conflicts[r.conflict], r)
    requires LogOk(p.log, head) && Plain(db.conflicts[r.conflict].key)
    ensures var t, c := Resilience.Resolve(db, r).value, db.conflicts[r.conflict];
            && c.key in t.entities && t.entities[c.key].status.Clean?
            && (Convergence.Shows(t.entities[c.key], p, c.key) <==> Current(c, p))
  {
    LastIs(p.log, head, db.conflicts[r.conflict].key, p.cursor);
  }

  lemma ResolvedData(w: World, r: Resilience.Request, p: Position, q: Position)
    requires Keyed(w.s.db.outbox) && Data(w.s.db, p) && p == Stand(w, {}) && q == p.(history := q.history)
    requires forall k | AcksPassed(q.history, k, q.cursor) :: AcksPassed(p.history, k, p.cursor)
    requires LogOk(w.log, w.head) && Unlogged(w, r.op) && Resilience.Resolve(w.s.db, r).Ok? && Keyed(Resilience.Resolve(w.s.db, r).value.outbox)
    requires var c := w.s.db.conflicts[r.conflict];
             Resilience.Silent(c, r) ==> MayAccept(w, c)
    ensures Data(Resilience.Resolve(w.s.db, r).value, q)
    ensures RisksKept(w.s.db.outbox, p, Resilience.Resolve(w.s.db, r).value.outbox, q)
  {
    var t, k := Resilience.Resolve(w.s.db, r).value, w.s.db.conflicts[r.conflict].key;
    forall other | Plain(other) && other != k
      ensures (other in t.entities <==> other in w.s.db.entities)
              && (other in t.entities ==> t.entities[other] == w.s.db.entities[other])
              && OnEntity(t.outbox, other) == OnEntity(w.s.db.outbox, other)
    {
      ResolveLeavesOthers(w.s.db, r, other);
    }
    if Resilience.Silent(w.s.db.conflicts[r.conflict], r) {
      AcceptedIsNoRepeat(w.s.db, r, q);
      if Plain(k) { AcceptedShows(w.s.db, r, q, w.head); }
    } else {
      RequeuedIsNoRepeat(w.s.db, r, q);
    }
    SettledData(w.s.db, t, p, q, k);
  }

  lemma ResolveData(w: World, r: Resilience.Request)
    requires WorldInv(w, {}) && Plays(w, Client(Resolve(r))) && StaysOnCourse(w, Client(Resolve(r)), {})
    requires Resilience.Resolve(w.s.db, r).Ok? && Keyed(Resilience.Resolve(w.s.db, r).value.outbox)
    ensures var t := Effect(w.s, Resolve(r));
            && t.db == Resilience.Resolve(w.s.db, r).value
            && Data(t.db, Stand(w, {}).(history := t.history))
            && RisksKept(w.s.db.outbox, Stand(w, {}), t.db.outbox, Stand(w, {}).(history := t.history))
  {
    var p := Stand(w, {});
    var q := p.(history := Effect(w.s, Resolve(r)).history);
    AcksStay(w.s, Resolve(r));
    SameAcksPassed(p.history, q.history);
    ResolvedData(w, r, p, q);
  }

  // Snapshots

  lemma ChunkData(w: World, c: Chunk, stuck: set<OpId>)
    requires WorldInv(w, stuck) && Plays(w, Client(StageChunk(c))) && StaysOnCourse(w, Client(StageChunk(c)), stuck)
    requires Keyed(Play(w, Client(StageChunk(c))).s.db.outbox)
    ensures var w' := Play(w, Client(StageChunk(c))); Data(w'.s.db, Stand(w', stuck))
  {
    var w' := Play(w, Client(StageChunk(c)));
    ServedChunk(w.published, w.log, w.head, c);
    StageSwitches(w.s.db, w.published, w.log, w.head, c);
    var chunks := w.published[c.snapshot];
    if Activates(w.s.db, c, c.device) {
      SwitchKeepsData(w.s.db, Stand(w', stuck), w.head, chunks);
    }
  }

  // Every move

  lemma LocalMove(w: World, e: Event, stuck: set<OpId>)
    requires WorldInv(w, stuck) && Plays(w, Client(e)) && StaysOnCourse(w, Client(e), stuck) && IsLocal(e)
    requires Keyed(Effect(w.s, e).db.outbox)
    requires stuck == {} || !Accepts(w.s, e)
    ensures var t, p := Effect(w.s, e), Stand(w, stuck);
            && Data(t.db, p.(history := t.history))
            && RisksKept(w.s.db.outbox, p, t.db.outbox, p.(history := t.history))
  {
    if Outbox.IsCommit(e) {
      CommitsData(w, e, stuck);
    } else if Resilience.Resolve(w.s.db, e.request).Ok? {
      ResolveData(w, e.request);
    } else {
      assert Effect(w.s, e).db == w.s.db && Effect(w.s, e).history == SettleRemoved(w.s, e.request);
    }
  }

  lemma OthersKeepData(s: System, e: Event)
    requires !IsLocal(e) && !e.PushAnswered? && !e.PullAnswered? && !e.StageChunk?
    requires !e.RecordConflict? && !e.PrepareDevice?
    ensures var t := Effect(s, e);
            && t.db.entities == s.db.entities && t.db.outbox == s.db.outbox && t.history == s.history
            && (e.SendPush? || t.sent.None? || t.sent == s.sent)
  {
    OthersKeepCursor(s, e);
  }

  // Sending

  /** No operation of a listing is stuck: the first such one would depend on an earlier one. */
  lemma {:induction false} ReadyIsFree(outbox: map<OpId, Op>, p: Position, listing: seq<Op>, i: nat)
    requires Stuck(outbox, p) && Scheduler.ReadyListing(Scheduler.DeviceRows(outbox, p.device), listing) && i < |listing|
    ensures listing[i].id !in p.stuck
    decreases i
  {
    var rows, x := Scheduler.DeviceRows(outbox, p.device), listing[i].id;
    if x in p.stuck {
      Draining.ListedIsReady(rows, listing, i);
      assert StuckBehind(outbox, p, x);
      var d :| d in outbox[x].deps && d in p.stuck && d in outbox && outbox[d].device == p.device;
      assert Edge(rows, x, d);
      assert Scheduler.Within(listing, i, d);
      var j :| 0 <= j < i && listing[j].id == d;
      ReadyIsFree(outbox, p, listing, j);
    }
  }

  lemma ListingIsInLine(outbox: map<OpId, Op>, p: Position, listing: seq<Op>, k: Key)
    requires Keyed(outbox) && Scheduler.ReadyListing(Scheduler.DeviceRows(outbox, p.device), listing)
    requires Linked(OnEntity(outbox, k), k) && forall id | id in OnEntity(outbox, k) :: outbox[id].device == p.device
    ensures InLine(outbox, Batch(listing), k)
  {
    var batch := Batch(listing);
    UntouchedLinked(OnEntity(outbox, k), outbox, k);
    forall j, x | 0 <= j < |batch| && batch[j].key == k && x in OnEntity(outbox, k) && Before(OnEntity(outbox, k)[x], batch[j])
      ensures Scheduler.Within(batch, j, x)
    {
      assert batch[j] == listing[j];
      Draining.ListedIsReady(Scheduler.DeviceRows(outbox, p.device), listing, j);
      assert InOrder(outbox, k, x, listing[j].id);
      LinkedIsEarlier(outbox, k, p.device, listing, x, j);
      var i :| 0 <= i < j && listing[i].id == x;
      assert batch[i] == listing[i];
    }
  }

  lemma ListingIsLinedUp(entities: map<Key, Entity>, outbox: map<OpId, Op>, p: Position, listing: seq<Op>)
    requires Keyed(outbox) && OnCourse(entities, outbox, p) && Stuck(outbox, p)
    requires Scheduler.ReadyListing(Scheduler.DeviceRows(outbox, p.device), listing)
    ensures LinedUp(outbox, p, Batch(listing))
  {
    var batch := Batch(listing);
    forall i | 0 <= i < |batch|
      ensures batch[i].id !in p.stuck
    {
      assert batch[i] == listing[i];
      ReadyIsFree(outbox, p, listing, i);
    }
    forall k | AtRisk(outbox, p, k)
      ensures InLine(outbox, batch, k)
    {
      assert Harmless(entities, OnEntity(outbox, k), p, k);
      ListingIsInLine(outbox, p, listing, k);
    }
  }

  lemma SendLine(w: World, listing: seq<Op>, stuck: set<OpId>)
    requires WorldInv(w, stuck) && Plays(w, Client(SendPush(listing)))
    ensures LinedUp(w.s.db.outbox, Stand(w, stuck), Batch(listing))
  {
    ListingIsLinedUp(w.s.db.entities, w.s.db.outbox, Stand(w, stuck), listing);
  }

  // The invariant is kept

  lemma ClientData(w: World, e: Event, stuck: set<OpId>)
    requires WorldInv(w, stuck) && Plays(w, Client(e)) && StaysOnCourse(w, Client(e), stuck)
    requires Keyed(Effect(w.s, e).db.outbox)
    requires stuck == {} || !Accepts(w.s, e)
    ensures Data(Play(w, Client(e)).s.db, Stand(Play(w, Client(e)), stuck))
  {
    if IsLocal(e) {
      LocalKeepsSync(w.s, e);
      LocalMove(w, e, stuck);
    } else if e.PushAnswered? {
      AnswerSync(w.s, e.results);
      AnswerData(w, e.results, stuck);
    } else if e.PullAnswered? {
      CursorStays(w, e, stuck);
      PageData(w, e.page, stuck);
    } else if e.StageChunk? {
      ChunkData(w, e.chunk, stuck);
    } else {
      OthersKeepCursor(w.s, e);
      OthersKeepData(w.s, e);
    }
  }

  lemma ClientLine(w: World, e: Event, stuck: set<OpId>)
    requires WorldInv(w, stuck) && Plays(w, Client(e)) && StaysOnCourse(w, Client(e), stuck)
    requires Keyed(Effect(w.s, e).db.outbox) && Effect(w.s, e).sent.Some?
    requires stuck == {} || !Accepts(w.s, e)
    ensures LinedUp(Effect(w.s, e).db.outbox, Stand(Play(w, Client(e)), stuck), Effect(w.s, e).sent.value.batch)
  {
    if IsLocal(e) {
      LocalKeepsSync(w.s, e);
      LocalMove(w, e, stuck);
      LineKept(w.s.db.outbox, Stand(w, stuck), Effect(w.s, e).db.outbox, Stand(Play(w, Client(e)), stuck), w.s.sent.value.batch);
    } else {
      OthersKeepData(w.s, e);
      OthersKeepCursor(w.s, e);
      if e.SendPush? {
        SendLine(w, e.listing, stuck);
      }
    }
  }

  lemma ClientKeeps(w: World, e: Event, stuck: set<OpId>)
    requires WorldInv(w, stuck) && Plays(w, Client(e)) && StaysOnCourse(w, Client(e), stuck)
    requires stuck == {} || !Accepts(w.s, e)
    ensures WorldInv(Play(w, Client(e)), stuck)
  {
    StaysCareful(w, e, stuck);
    ClientSteady(w, e, stuck);
    ClientData(w, e, stuck);
    if Effect(w.s, e).sent.Some? {
      ClientLine(w, e, stuck);
    }
  }

  lemma UnstuckInv(w: World, stuck: set<OpId>)
    requires WorldInv(w, stuck) && SafeUnstuck(w)
    ensures WorldInv(w, {})
  {
  }

  lemma MoveKeepsInv(w: World, m: Move, stuck: set<OpId>)
    requires WorldInv(w, stuck) && Plays(w, m) && StaysOnCourse(w, m, stuck)
    ensures WorldInv(Play(w, m), StillStuck(w, m, stuck))
  {
    if m.Client? {
      if stuck != {} && Accepts(w.s, m.event) { UnstuckInv(w, stuck); }
      ClientKeeps(w, m.event, StillStuck(w, m, stuck));
    } else if m.Append? {
      AppendKeeps(w, m.change, stuck);
    } else if m.Unseen? {
      UnseenKeeps(w, m.head, stuck);
    } else {
      PublishKeeps(w, m.chunks, stuck);
    }
  }

  lemma {:induction false} WorldKeepsInv(w: World, moves: seq<Move>, w': World, stuck: set<OpId>)
    requires WorldInv(w, stuck) && Unfolds(w, moves, w') && AllOnCourse(w, moves, stuck)
    ensures WorldInv(w', stuck) || WorldInv(w', {})
    decreases |moves|
  {
    if moves != [] {
      MoveKeepsInv(w, moves[0], stuck);
      WorldKeepsInv(Play(w, moves[0]), moves[1..], w', StillStuck(w, moves[0], stuck));
    }
  }

  // The theorem

  /** A database nothing has ever been written to. */
  ghost predicate Blank(w: World) {
    && Untouched(w.s) && w.s.db.sync.None?
    && w.s.db.entities == map[] && w.s.db.manifests == map[] && w.s.db.staged == map[] && w.requested == {}
    && LogOk(w.log, w.head) && AllPublished(w.published, w.log, w.head)
  }

  lemma BlankInv(w: World)
    requires Blank(w)
    ensures WorldInv(w, {})
  {
    forall k
      ensures Last(w.log, k, 0).None?
    {
      LastIs(w.log, w.head, k, 0);
    }
  }

  /** Convergence: whatever is committed, pushed, lost, pushed again, pulled, staged
      and resolved from the very beginning, a clean entity whose acknowledgements lie
      at or below the cursor shows the last change of the log at or below the cursor,
      and no entity of the log is missing, as long as the replica stays on course. */
  lemma ReplicaConverges(w: World, moves: seq<Move>, w': World, k: Key)
    requires Blank(w) && Unfolds(w, moves, w') && AllOnCourse(w, moves, {}) && Plain(k)
    ensures var cursor := Cursor(w'.s.db);
            && (Last(w'.log, k, cursor).Some? ==> k in w'.s.db.entities)
            && (k in w'.s.db.entities && w'.s.db.entities[k].status.Clean? && AcksPassed(w'.s.history, k, cursor) ==>
                  Last(w'.log, k, cursor).Some? && Matches(w'.s.db.entities[k], Last(w'.log, k, cursor).value))
  {
    BlankInv(w);
    WorldKeepsInv(w, moves, w', {});
  }
}
