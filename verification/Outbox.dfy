/**
 What each transaction may do to the outbox.
 */
module Outbox {
  import opened Types
  import opened Repository
  import opened Runs
  import Push
  import Pull
  import Bootstrap
  import Resilience
  import NoteEdits

  /** At most one row is added, waiting, and its dependencies are known. */
  ghost predicate Gains(before: map<OpId, Op>, after: map<OpId, Op>, op: OpId, known: set<OpId>) {
    && (forall id | id in before :: id in after && after[id] == before[id])
    && (forall id | id in after && id !in before :: id == op && Enters(after[id], op, before, known))
  }

  ghost predicate Enters(row: Op, op: OpId, before: map<OpId, Op>, known: set<OpId>) {
    row.id == op && row.state.Waiting? && forall d | d in row.deps :: d in known || d in before
  }

  lemma CommitGains(db: Db, m: Mutation)
    ensures Gains(db.outbox, Or(Commit(db, m), db).outbox, m.op, set d | d in m.deps)
  {
    if Commit(db, m).Ok? {
      CommitCases(db, m);
      if m.op !in db.outbox { AddedGains(db, m); }
    }
  }

  lemma AddedGains(db: Db, m: Mutation)
    requires m.op !in db.outbox && CommitDeps(db, m).Ok?
    ensures Gains(db.outbox, Added(db, m, CommitDeps(db, m).value).outbox, m.op, set d | d in m.deps)
  {
    DepsQueued(db, m);
    var deps := CommitDeps(db, m).value;
    var after := Added(db, m, deps).outbox;
    assert after == db.outbox[m.op := QueuedOp(m, deps)];
    assert Enters(QueuedOp(m, deps), m.op, db.outbox, set d | d in m.deps);
  }

  lemma DepsQueued(db: Db, m: Mutation)
    requires CommitDeps(db, m).Ok?
    ensures forall d | d in CommitDeps(db, m).value :: d in m.deps || d in db.outbox
  {
    var p := Predecessor(db.outbox, m);
    if p.Some? { assert p.value in RelatedTo(db.outbox, m) - {m.op}; }
  }

  lemma ProtectedGains(db: Db, m: Mutation, body: Payload)
    ensures Gains(db.outbox, ProtectedCommit(db, m, body).0.outbox, m.op, set d | d in m.deps)
  {
    var slot := OfOp(m.op);
    var sealed := m.(payload := Reference(slot), payloadHash := Sha(body), slot := Some(slot));
    if m.kind.Delete? {
      CommitGains(db, m);
    } else if m.op !in db.outbox {
      CommitGains(db.(vault := db.vault[slot := body]), sealed);
    } else if Commit(db, sealed).Ok? {
      CommitCases(db, sealed);
    }
  }

  lemma EditGains(db: Db, p: NoteEdits.Prepared)
    requires p.op.state.Waiting?
    ensures Gains(db.outbox, Or(NoteEdits.CommitEdit(db, p), db).outbox, p.op.id, set d | d in p.op.deps)
  {
  }

  /** A resolution discards the rows it names and queues at most one without dependencies. */
  lemma ResolveOutbox(db: Db, r: Resilience.Request)
    requires Resilience.Resolve(db, r).Ok?
    ensures r.conflict in db.conflicts
    ensures Gains(Resilience.RemoveRelated(db.outbox, db.conflicts[r.conflict]),
                  Resilience.Resolve(db, r).value.outbox, r.op, {})
  {
  }

  // Push

  function AckedIds(batch: seq<Op>, results: seq<OpResult>): set<OpId>
    requires |batch| == |results|
  {
    if batch == [] then {} else
      var n := |batch| - 1;
      AckedIds(batch[..n], results[..n]) + if results[n].Acked? then {batch[n].id} else {}
  }

  ghost predicate Shrinks(before: map<OpId, Op>, after: map<OpId, Op>, gone: set<OpId>) {
    && Keyed(after)
    && Evolves(before, after)
    && after.Keys == before.Keys - gone
  }

  lemma StepOutbox(db: Db, op: Op, r: OpResult)
    requires Keyed(db.outbox) && Push.Step(db, op, r).Ok?
    ensures Shrinks(db.outbox, Push.Step(db, op, r).value.outbox, if r.Acked? then {op.id} else {})
  {
  }

  lemma {:induction false} FoldOutbox(db: Db, batch: seq<Op>, results: seq<OpResult>)
    requires Keyed(db.outbox) && |batch| == |results| && Push.Fold(db, batch, results).Ok?
    ensures Shrinks(db.outbox, Push.Fold(db, batch, results).value.outbox, AckedIds(batch, results))
  {
    if batch != [] {
      var n := |batch| - 1;
      FoldOutbox(db, batch[..n], results[..n]);
      var before := Push.Fold(db, batch[..n], results[..n]).value;
      StepOutbox(before, batch[n], results[n]);
      EvolvesTrans(db.outbox, before.outbox, Push.Fold(db, batch, results).value.outbox);
    }
  }

  lemma {:induction false} SettledAcked(history: map<OpId, Entry>, batch: seq<Op>, results: seq<OpResult>, id: OpId)
    requires |batch| == |results|
    ensures var after := SettleAcked(history, batch, results);
            && (id in after <==> id in history)
            && (id in history ==>
                  && after[id] == history[id].(fate := after[id].fate)
                  && (if id in AckedIds(batch, results) then after[id].fate.Acknowledged?
                      else after[id] == history[id]))
  {
    if batch != [] {
      SettledAcked(history, batch[..|batch| - 1], results[..|batch| - 1], id);
    }
  }

  lemma {:induction false} AckedInBatch(batch: seq<Op>, results: seq<OpResult>)
    requires |batch| == |results|
    ensures forall id | id in AckedIds(batch, results) ::
              exists i :: 0 <= i < |batch| && batch[i].id == id && results[i].Acked?
  {
    if batch != [] {
      var n := |batch| - 1;
      AckedInBatch(batch[..n], results[..n]);
      forall id | id in AckedIds(batch, results)
        ensures exists i :: 0 <= i < |batch| && batch[i].id == id && results[i].Acked?
      {
        if id in AckedIds(batch[..n], results[..n]) {
          var i :| 0 <= i < n && batch[..n][i].id == id && results[..n][i].Acked?;
          assert batch[i].id == id && results[i].Acked?;
        } else {
          assert batch[n].id == id;
        }
      }
    }
  }

  // Pull and activation keep every row

  lemma HoldOutbox(outbox: map<OpId, Op>, key: Key)
    requires Keyed(outbox)
    ensures Shrinks(outbox, Pull.HoldRelated(outbox, key), {})
  {
  }

  lemma PullStepOutbox(db: Db, device: DeviceId, ch: Change)
    requires Keyed(db.outbox)
    ensures Shrinks(db.outbox, Pull.Step(db, device, ch).outbox, {})
  {
    HoldOutbox(db.outbox, ch.key);
    assert Shrinks(db.outbox, db.outbox, {});
    assert Pull.Step(db, device, ch).outbox in {db.outbox, Pull.HoldRelated(db.outbox, ch.key)};
  }

  lemma {:induction false} PullOutbox(db: Db, device: DeviceId, changes: seq<Change>)
    requires Keyed(db.outbox)
    ensures Shrinks(db.outbox, Pull.Fold(db, device, changes).outbox, {})
  {
    if changes != [] {
      var n := |changes| - 1;
      PullOutbox(db, device, changes[..n]);
      var before := Pull.Fold(db, device, changes[..n]);
      PullStepOutbox(before, device, changes[n]);
      EvolvesTrans(db.outbox, before.outbox, Pull.Fold(db, device, changes).outbox);
    }
  }

  lemma IsolateOutbox(outbox: map<OpId, Op>)
    requires Keyed(outbox)
    ensures Shrinks(outbox, Bootstrap.Isolate(outbox), {})
  {
  }

  lemma StageOutbox(db: Db, c: Chunk, device: DeviceId)
    requires Keyed(db.outbox)
    ensures Shrinks(db.outbox, Bootstrap.Stage(db, c, device).outbox, {})
  {
    IsolateOutbox(db.outbox);
    assert Shrinks(db.outbox, db.outbox, {});
    assert Bootstrap.Stage(db, c, device).outbox in {db.outbox, Bootstrap.Isolate(db.outbox)};
  }

  // The same, event by event

  predicate IsCommit(e: Event) {
    e.Mutate? || e.MutateProtected? || e.EditNote?
  }

  /** The id a commit queues its operation under, and what that names. */
  function NewId(e: Event): OpId
    requires IsCommit(e)
  {
    match e case Mutate(m) => m.op case MutateProtected(m, _) => m.op case EditNote(p) => p.op.id
  }

  function NewDeps(e: Event): set<OpId>
    requires IsCommit(e)
  {
    var deps := match e case Mutate(m) => m.deps case MutateProtected(m, _) => m.deps case EditNote(p) => p.op.deps;
    set d | d in deps
  }

  lemma CommitEventGains(s: System, e: Event)
    requires IsCommit(e) && (e.EditNote? ==> e.prepared.op.state.Waiting?)
    ensures Gains(s.db.outbox, Effect(s, e).db.outbox, NewId(e), NewDeps(e))
  {
    match e {
      case Mutate(m) => CommitGains(s.db, m);
      case MutateProtected(m, body) => ProtectedGains(s.db, m, body);
      case EditNote(p) => EditGains(s.db, p);
    }
  }

  lemma PageShrinks(s: System, page: Page)
    requires Keyed(s.db.outbox)
    ensures Shrinks(s.db.outbox, Effect(s, PullAnswered(page)).db.outbox, {})
  {
    PullOutbox(s.db.(vault := Pull.SealChanges(s.db.vault, page.changes)), Device(s), page.changes);
  }

  lemma ChunkShrinks(s: System, c: Chunk)
    requires Keyed(s.db.outbox)
    ensures Shrinks(s.db.outbox, Effect(s, StageChunk(c)).db.outbox, {})
  {
    StageOutbox(s.db, c, c.device);
  }
}
