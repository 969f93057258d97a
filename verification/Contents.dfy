/**
 What a protected entity shows is not only the right digest: the vault holds the body
 that belongs to it, in every run that converges.
 */
module Contents {
  import opened Types
  import opened Repository
  import opened Runs
  import opened ServerLog
  import opened Rebootstrap
  import opened Replication
  import opened PulledBodies
  import Push
  import Pull
  import Bootstrap
  import Resilience
  import NoteEdits
  import Snapshots
  import Bodies
  import Safety

  /** The row's body is in the slot of the operation that wrote it, and the log has no
      other body for that operation. */
  ghost predicate Held(e: Entity, vault: map<SlotId, Payload>, log: seq<Change>) {
    e.payload.Reference? && e.payload.slot.OfOp? ==>
      && e.payload.slot in vault && Sha(vault[e.payload.slot]) == e.payloadHash
      && forall ch | ch in log && ch.op == e.payload.slot.op && SealedChange(ch) :: ch.payloadHash == e.payloadHash
  }

  predicate Guarded(k: Key) {
    Plain(k) && Protected(k.kind)
  }

  ghost predicate AllHeld(entities: map<Key, Entity>, vault: map<SlotId, Payload>, log: seq<Change>) {
    forall k | k in entities && Guarded(k) :: Held(entities[k], vault, log)
  }

  /** Bodies in the log are bodies. */
  ghost predicate LogTrue(log: seq<Change>) {
    forall ch | ch in log :: !ch.payload.Reference?
  }

  predicate NewSlot(w: World, op: OpId) {
    OfOp(op) !in w.s.db.vault
  }

  /** An operation has one body, no slot is used for two operations, and notes keep their
      own slots. */
  ghost predicate Truthful(w: World, m: Move) {
    match m
    case Append(ch) =>
      && !ch.payload.Reference?
      && (SealedChange(ch) && OfOp(ch.op) in w.s.db.vault ==> Sha(w.s.db.vault[OfOp(ch.op)]) == ch.payloadHash)
    case Client(e) =>
      (match e
       case Mutate(m) => Guarded(m.key) && !m.kind.Delete? ==> !m.payload.Reference?
       case MutateProtected(m, _) => m.op in w.s.db.outbox || NewSlot(w, m.op)
       case Resolve(r) => r.op !in w.s.db.outbox && NewSlot(w, r.op)
       case EditNote(p) =>
         && (p.op.id in w.s.db.outbox || NewSlot(w, p.op.id))
         && forall k | k in w.s.db.entities && Guarded(k) ::
              w.s.db.entities[k].payload != Reference(p.noteSlot) && w.s.db.entities[k].payload != Reference(p.docSlot)
       case _ => true)
    case _ => true
  }

  /** Rows that keep payload and digest, over slots that keep their bodies. */
  lemma HeldStays(before: map<Key, Entity>, vault: map<SlotId, Payload>, after: map<Key, Entity>, vault': map<SlotId, Payload>,
                  log: seq<Change>)
    requires AllHeld(before, vault, log)
    requires forall k | k in after && Guarded(k) ::
               || (k in before && after[k].payload == before[k].payload && after[k].payloadHash == before[k].payloadHash)
               || Held(after[k], vault', log)
    requires forall k | k in before && Guarded(k) && before[k].payload.Reference? ::
               var slot := before[k].payload.slot;
               slot.OfOp? && slot in vault ==> slot in vault' && vault'[slot] == vault[slot]
    ensures AllHeld(after, vault', log)
  {
    forall k | k in after && Guarded(k)
      ensures Held(after[k], vault', log)
    {
      if k in before && after[k].payload == before[k].payload && after[k].payloadHash == before[k].payloadHash {
        assert Held(before[k], vault, log);
      }
    }
  }

  lemma MutateHeld(w: World, m: Mutation)
    requires AllHeld(w.s.db.entities, w.s.db.vault, w.log)
    requires Truthful(w, Client(Mutate(m)))
    ensures var t := Or(Commit(w.s.db, m), w.s.db); AllHeld(t.entities, t.vault, w.log)
  {
    if Commit(w.s.db, m).Ok? {
      CommitCases(w.s.db, m);
      if m.op !in w.s.db.outbox { CommitAdvances(w.s.db, m); }
    }
  }

  lemma ProtectedHeld(w: World, m: Mutation, body: Payload)
    requires Keyed(w.s.db.outbox) && AllHeld(w.s.db.entities, w.s.db.vault, w.log)
    requires Unlogged(w, m.op) && (m.op in w.s.db.outbox || NewSlot(w, m.op))
    ensures var t := ProtectedCommit(w.s.db, m, body).0; AllHeld(t.entities, t.vault, w.log)
  {
    if m.kind.Delete? {
      MutateHeld(w, m);
    } else if m.op in w.s.db.outbox {
      ProtectedOutcome(w.s.db, m, body);
    } else if ProtectedCommit(w.s.db, m, body).1.Ok? {
      SealedHeld(w, m, body);
    } else {
      assert ProtectedCommit(w.s.db, m, body).0.vault == w.s.db.vault;
    }
  }

  lemma SealedHeld(w: World, m: Mutation, body: Payload)
    requires Keyed(w.s.db.outbox) && AllHeld(w.s.db.entities, w.s.db.vault, w.log)
    requires !m.kind.Delete? && m.op !in w.s.db.outbox && NewSlot(w, m.op) && forall ch | ch in w.log :: ch.op != m.op
    requires ProtectedCommit(w.s.db, m, body).1.Ok?
    ensures var t := ProtectedCommit(w.s.db, m, body).0; AllHeld(t.entities, t.vault, w.log)
  {
    var db, t := w.s.db, ProtectedCommit(w.s.db, m, body).0;
    Bodies.CommittedOnce(db, m, body);
    HeldStays(db.entities, db.vault, t.entities, t.vault, w.log);
  }

  lemma EditHeld(w: World, p: NoteEdits.Prepared)
    requires AllHeld(w.s.db.entities, w.s.db.vault, w.log) && Truthful(w, Client(EditNote(p)))
    ensures var t := Or(NoteEdits.CommitEdit(w.s.db, p), w.s.db); AllHeld(t.entities, t.vault, w.log)
  {
    if NoteEdits.CommitEdit(w.s.db, p).Ok? {
      var t := NoteEdits.CommitEdit(w.s.db, p).value;
      HeldStays(w.s.db.entities, w.s.db.vault, t.entities, t.vault, w.log);
    }
  }

  lemma ResolveHeld(w: World, r: Resilience.Request)
    requires AllHeld(w.s.db.entities, w.s.db.vault, w.log)
    requires r.op !in w.s.db.outbox && NewSlot(w, r.op) && forall ch | ch in w.log :: ch.op != r.op
    ensures var t := Or(Resilience.Resolve(w.s.db, r), w.s.db); AllHeld(t.entities, t.vault, w.log)
  {
    if Resilience.Resolve(w.s.db, r).Ok? {
      var t := Resilience.Resolve(w.s.db, r).value;
      HeldStays(w.s.db.entities, w.s.db.vault, t.entities, t.vault, w.log);
    }
  }

  // Push

  ghost predicate SamePayloads(before: map<Key, Entity>, after: map<Key, Entity>) {
    forall k | k in after ::
      k in before && after[k].payload == before[k].payload && after[k].payloadHash == before[k].payloadHash
  }

  lemma {:induction false} FoldKeepsPayloads(db: Db, batch: seq<Op>, results: seq<OpResult>)
    requires |batch| == |results| && Push.Fold(db, batch, results).Ok?
    ensures SamePayloads(db.entities, Push.Fold(db, batch, results).value.entities)
    ensures Push.Fold(db, batch, results).value.vault == db.vault
  {
    if batch != [] {
      var n := |batch| - 1;
      FoldKeepsPayloads(db, batch[..n], results[..n]);
      StepKeepsPayloads(Push.Fold(db, batch[..n], results[..n]).value, batch[n], results[n]);
    }
  }

  lemma StepKeepsPayloads(db: Db, op: Op, r: OpResult)
    requires Push.Step(db, op, r).Ok?
    ensures SamePayloads(db.entities, Push.Step(db, op, r).value.entities) && Push.Step(db, op, r).value.vault == db.vault
  {
  }

  lemma {:induction false} RemotesAside(vault: map<SlotId, Payload>, results: seq<OpResult>)
    ensures forall slot: SlotId | slot in vault && slot.OfOp? ::
              slot in Push.SealRemotes(vault, results) && Push.SealRemotes(vault, results)[slot] == vault[slot]
  {
    if results != [] {
      RemotesAside(vault, results[..|results| - 1]);
    }
  }

  lemma AnswerHeld(s: System, results: seq<OpResult>, log: seq<Change>)
    requires s.sent.Some? && AllHeld(s.db.entities, s.db.vault, log)
    ensures var t := Effect(s, PushAnswered(results)).db; AllHeld(t.entities, t.vault, log)
  {
    var sealed := s.db.(vault := Push.SealRemotes(s.db.vault, results));
    RemotesAside(s.db.vault, results);
    if Push.Reply(sealed, s.sent.value.batch, results).Ok? {
      FoldKeepsPayloads(sealed, s.sent.value.batch, results);
    }
  }

  // Pull

  /** A slot is as it was, or holds the body of the one change that belongs in it. */
  lemma {:induction false} BodiesOfLog(vault: map<SlotId, Payload>, log: seq<Change>, head: nat, changes: seq<Change>)
    requires LogOk(log, head) && forall ch | ch in changes :: ch in log
    ensures var sealed := Pull.SealChanges(vault, changes);
            && (forall slot | slot in vault ::
                  && slot in sealed
                  && (sealed[slot] == vault[slot]
                      || exists ch :: ch in changes && SealedChange(ch) && slot == OfOp(ch.op) && sealed[slot] == ch.payload))
            && (forall ch | ch in changes && SealedChange(ch) :: OfOp(ch.op) in sealed && sealed[OfOp(ch.op)] == ch.payload)
  {
    if changes != [] {
      var n := |changes| - 1;
      var last := changes[n];
      assert last in log;
      BodiesOfLog(vault, log, head, changes[..n]);
      assert forall ch | ch in changes :: ch in changes[..n] || ch == last;
      forall ch | ch in changes && ch.op == last.op
        ensures ch == last
      {
        LastUnique(log, head, ch, last);
      }
    }
  }

  lemma PageHeld(entities: map<Key, Entity>, vault: map<SlotId, Payload>, log: seq<Change>, head: nat, changes: seq<Change>)
    requires LogOk(log, head) && LogTrue(log) && AllHeld(entities, vault, log) && forall ch | ch in changes :: ch in log
    ensures AllHeld(entities, Pull.SealChanges(vault, changes), log)
  {
    var sealed := Pull.SealChanges(vault, changes);
    BodiesOfLog(vault, log, head, changes);
    forall k | k in entities && Guarded(k)
      ensures Held(entities[k], sealed, log)
    {
      assert Held(entities[k], vault, log);
    }
  }

  lemma WrittenHeld(db: Db, device: DeviceId, log: seq<Change>, head: nat, ch: Change)
    requires LogOk(log, head) && LogTrue(log) && ch in log && Guarded(ch.key)
    requires SealedChange(ch) ==> OfOp(ch.op) in db.vault && db.vault[OfOp(ch.op)] == ch.payload
    ensures Held(Pull.RemoteEntity(db.entities, device, ch), db.vault, log)
  {
    forall other | other in log && other.op == ch.op
      ensures other == ch
    {
      LastUnique(log, head, other, ch);
    }
  }

  lemma StepHeld(db: Db, device: DeviceId, log: seq<Change>, head: nat, ch: Change)
    requires LogOk(log, head) && LogTrue(log) && ch in log
    requires AllHeld(db.entities, db.vault, log)
    requires SealedChange(ch) ==> OfOp(ch.op) in db.vault && db.vault[OfOp(ch.op)] == ch.payload
    ensures AllHeld(Pull.Step(db, device, ch).entities, db.vault, log) && Pull.Step(db, device, ch).vault == db.vault
  {
    if Pull.Raises(db, ch) {
      assert SamePayloads(db.entities, Pull.Raise(db, ch).entities);
      HeldStays(db.entities, db.vault, Pull.Raise(db, ch).entities, db.vault, log);
    } else {
      OverwriteHeld(db, device, log, head, ch);
    }
  }

  lemma OverwriteHeld(db: Db, device: DeviceId, log: seq<Change>, head: nat, ch: Change)
    requires LogOk(log, head) && LogTrue(log) && ch in log && AllHeld(db.entities, db.vault, log)
    requires SealedChange(ch) ==> OfOp(ch.op) in db.vault && db.vault[OfOp(ch.op)] == ch.payload
    ensures AllHeld(Pull.Overwrite(db.entities, device, ch), db.vault, log)
  {
    if Guarded(ch.key) { WrittenHeld(db, device, log, head, ch); }
    HeldStays(db.entities, db.vault, Pull.Overwrite(db.entities, device, ch), db.vault, log);
  }

  lemma {:induction false} FoldHeld(db: Db, device: DeviceId, log: seq<Change>, head: nat, changes: seq<Change>)
    requires LogOk(log, head) && LogTrue(log) && AllHeld(db.entities, db.vault, log)
    requires forall ch | ch in changes ::
               ch in log && (SealedChange(ch) ==> OfOp(ch.op) in db.vault && db.vault[OfOp(ch.op)] == ch.payload)
    ensures AllHeld(Pull.Fold(db, device, changes).entities, db.vault, log) && Pull.Fold(db, device, changes).vault == db.vault
  {
    if changes != [] {
      var n := |changes| - 1;
      assert changes[n] in changes;
      FoldHeld(db, device, log, head, changes[..n]);
      StepHeld(Pull.Fold(db, device, changes[..n]), device, log, head, changes[n]);
    }
  }

  lemma PulledHeld(w: World, page: Page)
    requires LogOk(w.log, w.head) && LogTrue(w.log) && AllHeld(w.s.db.entities, w.s.db.vault, w.log)
    requires Plays(w, Client(PullAnswered(page)))
    ensures var t := Effect(w.s, PullAnswered(page)).db; AllHeld(t.entities, t.vault, w.log)
  {
    if Pull.Receive(w.s.db, Device(w.s), page).Ok? {
      var sealed := w.s.db.(vault := Pull.SealChanges(w.s.db.vault, page.changes));
      PageHeld(w.s.db.entities, w.s.db.vault, w.log, w.head, page.changes);
      BodiesOfLog(w.s.db.vault, w.log, w.head, page.changes);
      FoldHeld(sealed, Device(w.s), w.log, w.head, page.changes);
    }
  }

  // Snapshots

  lemma {:induction false} RecordsAside(vault: map<SlotId, Payload>, records: seq<Record>)
    ensures forall slot: SlotId | slot in vault && slot.OfOp? ::
              slot in Bootstrap.SealRecords(vault, records) && Bootstrap.SealRecords(vault, records)[slot] == vault[slot]
  {
    if records != [] {
      RecordsAside(vault, records[..|records| - 1]);
    }
  }

  lemma StageVault(db: Db, c: Chunk)
    ensures Bootstrap.Stage(db, c, c.device).vault == db.vault
            || Bootstrap.Stage(db, c, c.device).vault == Bootstrap.SealRecords(db.vault, c.records)
  {
  }

  /** A snapshot's own rows refer to slots of entities, and say nothing of operations. */
  lemma {:induction false} SwitchHeld(entities: map<Key, Entity>, changed: bool, chunks: seq<Chunk>, vault: map<SlotId, Payload>, log: seq<Change>)
    requires Snapshots.ValidSnapshot(chunks) && AllHeld(entities, vault, log)
    ensures AllHeld(Snapshots.Described(chunks) + Bootstrap.Preserved(entities, changed), vault, log)
  {
    var after := Snapshots.Described(chunks) + Bootstrap.Preserved(entities, changed);
    forall k | k in after && Guarded(k)
      ensures Held(after[k], vault, log)
    {
      if k !in Bootstrap.Preserved(entities, changed) {
        DescribedIsSealed(chunks, k);
      }
    }
  }

  lemma {:induction false} DescribedIsSealed(chunks: seq<Chunk>, k: Key)
    requires Snapshots.ValidSnapshot(chunks) && k in Snapshots.DescribedKeys(chunks) && Guarded(k)
    ensures Snapshots.Described(chunks)[k].payload == Reference(OfEntity(k.id))
  {
    var p :| p in Snapshots.Positions(chunks) && chunks[p.0].records[p.1].key == k
             && Snapshots.RecordOf(chunks, k) == chunks[p.0].records[p.1];
  }

  lemma StageKeepsHeld(db: Db, c: Chunk, log: seq<Change>)
    requires AllHeld(db.entities, db.vault, log)
    ensures AllHeld(db.entities, Bootstrap.Stage(db, c, c.device).vault, log)
  {
    RecordsAside(db.vault, c.records);
    StageVault(db, c);
    HeldStays(db.entities, db.vault, db.entities, Bootstrap.Stage(db, c, c.device).vault, log);
  }

  lemma StageHeld(w: World, c: Chunk)
    requires StoreInv(w) && AllHeld(w.s.db.entities, w.s.db.vault, w.log) && IsServed(w.published, c)
    ensures var t := Bootstrap.Stage(w.s.db, c, c.device); AllHeld(t.entities, t.vault, w.log)
  {
    var t := Bootstrap.Stage(w.s.db, c, c.device);
    StageKeepsHeld(w.s.db, c, w.log);
    StageSwitches(w.s.db, w.published, w.log, w.head, c);
    if Activates(w.s.db, c, c.device) {
      SwitchHeld(w.s.db.entities, Bootstrap.EpochChanged(w.s.db.sync, c.epoch), w.published[c.snapshot], t.vault, w.log);
      ServedChunk(w.published, w.log, w.head, c);
    }
  }

  // Every move

  lemma OthersHold(s: System, e: Event)
    requires !Safety.IsLocal(e) && !e.PushAnswered? && !e.PullAnswered? && !e.StageChunk?
    requires !e.RecordConflict? && !e.PrepareDevice?
    ensures Effect(s, e).db.entities == s.db.entities && Effect(s, e).db.vault == s.db.vault
  {
  }

  lemma ClientHeld(w: World, e: Event)
    requires Keyed(w.s.db.outbox) && StoreInv(w) && LogTrue(w.log) && AllHeld(w.s.db.entities, w.s.db.vault, w.log)
    requires Plays(w, Client(e)) && Truthful(w, Client(e))
    ensures var t := Effect(w.s, e).db; AllHeld(t.entities, t.vault, w.log)
  {
    if e.Mutate? {
      MutateHeld(w, e.mutation);
    } else if e.MutateProtected? {
      ProtectedHeld(w, e.protected, e.body);
    } else if e.EditNote? {
      EditHeld(w, e.prepared);
    } else if e.Resolve? {
      ResolveHeld(w, e.request);
    } else if e.PushAnswered? {
      AnswerHeld(w.s, e.results, w.log);
    } else if e.PullAnswered? {
      PulledHeld(w, e.page);
    } else if e.StageChunk? {
      StageHeld(w, e.chunk);
    } else {
      OthersHold(w.s, e);
    }
  }

  lemma AppendHeld(entities: map<Key, Entity>, vault: map<SlotId, Payload>, log: seq<Change>, ch: Change)
    requires AllHeld(entities, vault, log)
    requires SealedChange(ch) && OfOp(ch.op) in vault ==> Sha(vault[OfOp(ch.op)]) == ch.payloadHash
    ensures AllHeld(entities, vault, log + [ch])
  {
    forall k | k in entities && Guarded(k)
      ensures Held(entities[k], vault, log + [ch])
    {
      assert Held(entities[k], vault, log);
    }
  }

  ghost predicate AllTruthful(w: World, moves: seq<Move>)
    decreases |moves|
  {
    moves != [] ==>
      Plays(w, moves[0]) && Truthful(w, moves[0]) && AllTruthful(Play(w, moves[0]), moves[1..])
  }

  ghost predicate ContentsInv(w: World) {
    LogTrue(w.log) && AllHeld(w.s.db.entities, w.s.db.vault, w.log)
  }

  lemma MoveHeld(w: World, m: Move)
    requires Keyed(w.s.db.outbox) && StoreInv(w) && ContentsInv(w) && Plays(w, m) && Truthful(w, m)
    ensures ContentsInv(Play(w, m))
  {
    if m.Client? {
      ClientHeld(w, m.event);
    } else if m.Append? {
      AppendHeld(w.s.db.entities, w.s.db.vault, w.log, m.change);
    }
  }

  lemma {:induction false} RunHeld(w: World, moves: seq<Move>, w': World)
    requires WorldInv(w, {}) && ContentsInv(w)
    requires Unfolds(w, moves, w') && AllOnCourse(w, moves, {}) && AllTruthful(w, moves)
    ensures WorldInv(w', {}) && ContentsInv(w')
    decreases |moves|
  {
    if moves != [] {
      MoveHeld(w, moves[0]);
      MoveKeepsInv(w, moves[0], {});
      RunHeld(Play(w, moves[0]), moves[1..], w');
    }
  }

  /** Where an entity's clean row was last written by a change or a commit, what the user
      sees is the body of the last change in the log. */
  lemma BodiesConverge(w: World, moves: seq<Move>, w': World, k: Key)
    requires Blank(w) && LogTrue(w.log)
    requires Unfolds(w, moves, w') && AllOnCourse(w, moves, {}) && AllTruthful(w, moves)
    requires Guarded(k) && k in w'.s.db.entities && w'.s.db.entities[k].status.Clean?
    requires AcksPassed(w'.s.history, k, Cursor(w'.s.db))
    requires w'.s.db.entities[k].payload.Reference? && w'.s.db.entities[k].payload.slot.OfOp?
    ensures Last(w'.log, k, Cursor(w'.s.db)).Some?
    ensures Resilience.Body(w'.s.db.vault, k.kind, w'.s.db.entities[k].payload)
            == Some(Last(w'.log, k, Cursor(w'.s.db)).value.payload)
  {
    BlankInv(w);
    RunHeld(w, moves, w');
    ReplicaConverges(w, moves, w', k);
    LastIs(w'.log, w'.head, k, Cursor(w'.s.db));
    assert Held(w'.s.db.entities[k], w'.s.db.vault, w'.log);
  }
}
