/**
 What holds in every state a run can reach.
 */
module Safety {
  import opened Types
  import opened Graph
  import opened Repository
  import opened Runs
  import opened Outbox
  import opened Ledger
  import Scheduler
  import Push
  import Pull
  import Bootstrap
  import Resilience
  import NoteEdits

  /** Dependencies lead to operations queued earlier. */
  ghost predicate Ordered(s: System) {
    && (forall id | id in s.history :: s.history[id].rank < s.clock)
    && (forall id | id in s.db.outbox :: id in s.history)
    && (forall id, d | id in s.db.outbox && d in s.db.outbox[id].deps ::
          d in s.history && s.history[d].rank < s.history[id].rank)
  }

  /** What may still be sent was queued under the current epoch, or before the
      replica had one. */
  ghost predicate EpochsMatch(s: System) {
    forall id | id in s.db.outbox && s.db.outbox[id].state.Waiting? ::
      id in s.history && (s.history[id].epoch.None? || s.history[id].epoch == CurrentEpoch(s.db))
  }

  /** A demanded snapshot is still outstanding and no request is under way. */
  ghost predicate Gate(s: System) {
    s.gated ==> s.sent.None? && s.db.sync.Some? && s.db.sync.value.bootstrap.RebootstrapRequired?
  }

  /** The operation a conflict was raised from is known and waits no more, and
      each resolution operation belongs to one conflict. */
  ghost predicate Settled(conflicts: map<ConflictId, ConflictRow>, outbox: map<OpId, Op>, history: map<OpId, Entry>) {
    && (forall c | c in conflicts && conflicts[c].sourceOp.Some? ::
          var op := conflicts[c].sourceOp.value;
          op in history && (op in outbox ==> !outbox[op].state.Waiting?))
    && (forall c | c in conflicts && conflicts[c].resolutionOp.Some? :: conflicts[c].resolutionOp.value in history)
    && (forall c, c' | c in conflicts && c' in conflicts && c != c' && conflicts[c].resolutionOp.Some? ::
          conflicts[c].resolutionOp != conflicts[c'].resolutionOp)
  }

  ghost predicate Inv(s: System) {
    && Conserved(s)
    && SentIntact(s)
    && Ordered(s)
    && EpochsMatch(s)
    && Gate(s)
    && Settled(s.db.conflicts, s.db.outbox, s.history)
  }

  // Order

  lemma OrderKept(s: System, t: System)
    requires Conserved(s) && Ordered(s) && Advances(s, t) && t.clock == s.clock + 1
    ensures Ordered(t)
  {
    forall id, d | id in t.db.outbox && d in t.db.outbox[id].deps
      ensures d in t.history && t.history[d].rank < t.history[id].rank
    {
      DependencyIsOlder(s, t, id, d);
    }
  }

  lemma DependencyIsOlder(s: System, t: System, id: OpId, d: OpId)
    requires Conserved(s) && Ordered(s) && Advances(s, t)
    requires id in t.db.outbox && d in t.db.outbox[id].deps
    ensures d in t.history && t.history[d].rank < t.history[id].rank
  {
    if id in s.history {
      assert t.db.outbox[id].deps == s.db.outbox[id].deps;
    }
  }

  // The sync row

  /** Staging leaves the sync row alone unless it activates the snapshot. */
  lemma StageSync(db: Db, c: Chunk)
    ensures var t := Bootstrap.Stage(db, c, c.device);
            if Activates(db, c, c.device) then
              && t.sync.Some? && t.sync.value.bootstrap.Ready?
              && t.sync.value.epoch == Some(c.epoch) && t.sync.value.cursor == c.cursor
              && t.outbox == (if Bootstrap.EpochChanged(db.sync, c.epoch) then Bootstrap.Isolate(db.outbox) else db.outbox)
            else t.sync == db.sync
  {
  }

  lemma {:induction false} FoldSync(db: Db, batch: seq<Op>, results: seq<OpResult>)
    requires |batch| == |results| && Push.Fold(db, batch, results).Ok?
    ensures Push.Fold(db, batch, results).value.sync == db.sync
  {
    if batch != [] {
      FoldSync(db, batch[..|batch| - 1], results[..|batch| - 1]);
    }
  }

  lemma {:induction false} PullSync(db: Db, device: DeviceId, changes: seq<Change>)
    ensures Pull.Fold(db, device, changes).sync == db.sync
  {
    if changes != [] {
      PullSync(db, device, changes[..|changes| - 1]);
    }
  }

  /** How an event may move the sync row: snapshots set it anew, a device change
      clears the cursor, everything else keeps epoch and device and never moves
      the cursor back. */
  ghost predicate SyncMoves(s: System, t: System, e: Event) {
    || t.db.sync == s.db.sync
    || (e.StageChunk? && Activates(s.db, e.chunk, e.chunk.device))
    || (e.PrepareDevice? && s.db.sync.Some? && t.gated && t.db.sync.Some?
        && t.db.sync.value == s.db.sync.value.(device := t.db.sync.value.device, cursor := 0, bootstrap := RebootstrapRequired))
    || (&& (e.PushAnswered? || e.PushControl? || e.PullAnswered? || e.PullControl?)
        && s.db.sync.Some? && t.db.sync.Some?
        && t.db.sync.value == s.db.sync.value.(cursor := t.db.sync.value.cursor, bootstrap := t.db.sync.value.bootstrap)
        && s.db.sync.value.cursor <= t.db.sync.value.cursor
        && t.sent.None?
        && (t.gated ==> s.gated || t.db.sync.value.bootstrap.RebootstrapRequired?))
  }

  lemma RemoteSyncMoves(s: System, e: Event)
    requires Inv(s) && Allowed(s, e) && (e.PushAnswered? || e.PushControl? || e.PullAnswered? || e.PullControl?)
    ensures SyncMoves(s, Effect(s, e), e)
  {
    match e {
      case PushAnswered(results) =>
        var batch := s.sent.value.batch;
        var sealed := s.db.(vault := Push.SealRemotes(s.db.vault, results));
        if Push.Reply(sealed, batch, results).Ok? {
          FoldSync(sealed, batch, results);
        }
      case PullAnswered(page) =>
        PullSync(s.db.(vault := Pull.SealChanges(s.db.vault, page.changes)), Device(s), page.changes);
      case _ =>
    }
  }

  predicate IsLocal(e: Event) {
    e.Mutate? || e.MutateProtected? || e.EditNote? || e.Resolve?
  }

  predicate IsQuiet(e: Event) {
    e.DismissConflict? || e.RecordConflict? || e.SendPush? || e.PushLost? || e.DiscardStaging?
  }

  lemma LocalKeepsSync(s: System, e: Event)
    requires IsLocal(e)
    ensures Effect(s, e).db.sync == s.db.sync && Effect(s, e).sent == s.sent && Effect(s, e).gated == s.gated
  {
    match e {
      case Mutate(m) => assert Or(Commit(s.db, m), s.db).sync == s.db.sync;
      case MutateProtected(m, body) => ProtectedFrame(s.db, m, body);
      case EditNote(p) => assert Or(NoteEdits.CommitEdit(s.db, p), s.db).sync == s.db.sync;
      case Resolve(r) => assert Or(Resilience.Resolve(s.db, r), s.db).sync == s.db.sync;
    }
  }

  lemma QuietKeepsSync(s: System, e: Event)
    requires IsQuiet(e)
    ensures Effect(s, e).db.sync == s.db.sync && Effect(s, e).gated == s.gated
  {
  }

  lemma EventMovesSync(s: System, e: Event)
    requires Inv(s) && Allowed(s, e)
    ensures SyncMoves(s, Effect(s, e), e)
  {
    if IsLocal(e) {
      LocalKeepsSync(s, e);
    } else if IsQuiet(e) {
      QuietKeepsSync(s, e);
    } else if e.StageChunk? {
      StageSync(s.db, e.chunk);
    } else if e.PrepareDevice? {
    } else {
      RemoteSyncMoves(s, e);
    }
  }

  // Epochs

  lemma EpochsKept(s: System, e: Event)
    requires Inv(s) && Allowed(s, e) && Advances(s, Effect(s, e))
    ensures EpochsMatch(Effect(s, e))
  {
    var t := Effect(s, e);
    EventMovesSync(s, e);
    if e.StageChunk? {
      StageSync(s.db, e.chunk);
    }
    forall id | id in t.db.outbox && t.db.outbox[id].state.Waiting?
      ensures id in t.history && (t.history[id].epoch.None? || t.history[id].epoch == CurrentEpoch(t.db))
    {
      if id in s.history {
        assert t.db.outbox[id] == s.db.outbox[id];
      }
    }
  }

  // The gate

  lemma GateKept(s: System, e: Event)
    requires Inv(s) && Allowed(s, e)
    ensures Gate(Effect(s, e))
  {
    EventMovesSync(s, e);
    if IsLocal(e) {
      LocalKeepsSync(s, e);
    } else if IsQuiet(e) {
      QuietKeepsSync(s, e);
    }
  }

  // Requests under way

  lemma SentKept(s: System, t: System)
    requires Conserved(s) && SentIntact(s) && Advances(s, t) && t.sent == s.sent && t.db.sync == s.db.sync
    requires forall id | id in s.db.outbox && s.db.outbox[id].state.Waiting? ::
               id in t.db.outbox && t.db.outbox[id].state.Waiting?
    ensures SentIntact(t)
  {
    if s.sent.Some? {
      var batch := s.sent.value.batch;
      forall i | 0 <= i < |batch|
        ensures batch[i].id in t.db.outbox && t.db.outbox[batch[i].id] == batch[i]
      {
        assert s.db.outbox[batch[i].id] == batch[i];
      }
    }
  }

  lemma SendIntact(s: System, listing: seq<Op>)
    requires Conserved(s) && Allowed(s, SendPush(listing))
    ensures SentIntact(Effect(s, SendPush(listing)))
  {
    var rows := Scheduler.DeviceRows(s.db.outbox, Device(s));
    Scheduler.IdsAreMembers(listing);
    forall i | 0 <= i < |listing|
      ensures listing[i].state.Waiting? && listing[i].id in s.db.outbox && s.db.outbox[listing[i].id] == listing[i]
    {
      assert Scheduler.Within(listing, |listing|, listing[i].id);
      assert IsReady(rows, listing[i].id);
    }
  }

  /** A resolution only removes operations that wait no more. */
  lemma RemoveKeepsWaiting(outbox: map<OpId, Op>, c: ConflictRow)
    requires Keyed(outbox)
    requires c.sourceOp.Some? && c.sourceOp.value in outbox ==> !outbox[c.sourceOp.value].state.Waiting?
    ensures forall id | id in outbox && outbox[id].state.Waiting? ::
              id in Resilience.RemoveRelated(outbox, c) && Resilience.RemoveRelated(outbox, c)[id] == outbox[id]
  {
  }

  lemma ResolveKeepsWaiting(s: System, r: Resilience.Request)
    requires Inv(s) && Resilience.Resolve(s.db, r).Ok?
    ensures var t := Resilience.Resolve(s.db, r).value;
            forall id | id in s.db.outbox && s.db.outbox[id].state.Waiting? ::
              id in t.outbox && t.outbox[id].state.Waiting?
  {
    ResolveOutbox(s.db, r);
    RemoveKeepsWaiting(s.db.outbox, s.db.conflicts[r.conflict]);
  }

  /** Queueing leaves the rows that wait as they are. */
  lemma LocalKeepsWaiting(s: System, e: Event)
    requires Inv(s) && Allowed(s, e) && IsLocal(e)
    ensures forall id | id in s.db.outbox && s.db.outbox[id].state.Waiting? ::
              id in Effect(s, e).db.outbox && Effect(s, e).db.outbox[id].state.Waiting?
  {
    if e.Resolve? {
      if Resilience.Resolve(s.db, e.request).Ok? {
        ResolveKeepsWaiting(s, e.request);
      }
    } else {
      CommitEventGains(s, e);
    }
  }

  lemma SentKeptBy(s: System, e: Event)
    requires Inv(s) && Allowed(s, e) && Advances(s, Effect(s, e))
    ensures SentIntact(Effect(s, e))
  {
    if IsLocal(e) {
      LocalKeepsSync(s, e);
      LocalKeepsWaiting(s, e);
      SentKept(s, Effect(s, e));
    } else if e.SendPush? {
      SendIntact(s, e.listing);
    } else if e.DismissConflict? || e.RecordConflict? || e.DiscardStaging? {
      QuietKeepsSync(s, e);
      SentKept(s, Effect(s, e));
    }
  }

  // Conflicts

  /** Conflict rows that stay keep where they came from and what settles them, and
      rows of the outbox do not return to waiting. */
  lemma SettledKept(conflicts: map<ConflictId, ConflictRow>, outbox: map<OpId, Op>, history: map<OpId, Entry>,
                    conflicts': map<ConflictId, ConflictRow>, outbox': map<OpId, Op>, history': map<OpId, Entry>)
    requires Settled(conflicts, outbox, history)
    requires forall c | c in conflicts' ::
               c in conflicts && conflicts'[c].sourceOp == conflicts[c].sourceOp
               && conflicts'[c].resolutionOp == conflicts[c].resolutionOp
    requires forall id | id in history :: id in history'
    requires forall id | id in outbox' && id in history && outbox'[id].state.Waiting? ::
               id in outbox && outbox[id].state.Waiting?
    ensures Settled(conflicts', outbox', history')
  {
  }

  /** A new row without a resolution, raised from an operation that waits no more. */
  lemma SettledWith(conflicts: map<ConflictId, ConflictRow>, outbox: map<OpId, Op>, history: map<OpId, Entry>,
                    id: ConflictId, row: ConflictRow)
    requires Settled(conflicts, outbox, history) && row.resolutionOp.None?
    requires row.sourceOp.Some? ==>
               row.sourceOp.value in history
               && (row.sourceOp.value in outbox ==> !outbox[row.sourceOp.value].state.Waiting?)
    ensures Settled(conflicts[id := row], outbox, history)
  {
  }

  lemma StepSettled(db: Db, history: map<OpId, Entry>, op: Op, r: OpResult)
    requires Settled(db.conflicts, db.outbox, history) && op.id in history
    requires Push.Step(db, op, r).Ok?
    ensures Settled(Push.Step(db, op, r).value.conflicts, Push.Step(db, op, r).value.outbox, history)
  {
    var t := Push.Step(db, op, r).value;
    match r {
      case Acked(_, _, _, _) => SettledKept(db.conflicts, db.outbox, history, t.conflicts, t.outbox, history);
      case Failed(_, _, _) => SettledKept(db.conflicts, db.outbox, history, t.conflicts, t.outbox, history);
      case Refused(_, c) =>
        var row := Push.RecordedConflict(c, op, db.entities[Owner(op.key)]);
        SettledKept(db.conflicts, db.outbox, history, db.conflicts, t.outbox, history);
        SettledWith(db.conflicts, t.outbox, history, c.id, row);
        SettledKept(db.conflicts[c.id := row], t.outbox, history, t.conflicts, t.outbox, history);
    }
  }

  lemma {:induction false} FoldSettled(db: Db, history: map<OpId, Entry>, batch: seq<Op>, results: seq<OpResult>)
    requires Keyed(db.outbox) && Settled(db.conflicts, db.outbox, history)
    requires |batch| == |results| && Push.Fold(db, batch, results).Ok?
    requires forall i | 0 <= i < |batch| :: batch[i].id in history
    ensures Settled(Push.Fold(db, batch, results).value.conflicts, Push.Fold(db, batch, results).value.outbox, history)
  {
    if batch != [] {
      var n := |batch| - 1;
      FoldSettled(db, history, batch[..n], results[..n]);
      FoldOutbox(db, batch[..n], results[..n]);
      StepSettled(Push.Fold(db, batch[..n], results[..n]).value, history, batch[n], results[n]);
    }
  }

  lemma RaiseSettled(db: Db, history: map<OpId, Entry>, ch: Change)
    requires ch.key in db.entities && Settled(db.conflicts, db.outbox, history)
    requires forall id | id in db.outbox :: id in history
    ensures Settled(Pull.Raise(db, ch).conflicts, Pull.Raise(db, ch).outbox, history)
  {
    var t := Pull.Raise(db, ch);
    var id := Pulled(ch.op, ch.key);
    SettledKept(db.conflicts, db.outbox, history, db.conflicts, t.outbox, history);
    SettledWith(db.conflicts, t.outbox, history, id, t.conflicts[id]);
  }

  lemma RefreshSettled(db: Db, history: map<OpId, Entry>, ch: Change)
    requires Settled(db.conflicts, db.outbox, history)
    ensures Settled(Pull.Refresh(db.conflicts, ch), db.outbox, history)
  {
    SettledKept(db.conflicts, db.outbox, history, Pull.Refresh(db.conflicts, ch), db.outbox, history);
  }

  lemma PullStepSettled(db: Db, history: map<OpId, Entry>, device: DeviceId, ch: Change)
    requires Settled(db.conflicts, db.outbox, history)
    requires forall id | id in db.outbox :: id in history
    ensures Settled(Pull.Step(db, device, ch).conflicts, Pull.Step(db, device, ch).outbox, history)
  {
    if Pull.Raises(db, ch) {
      RaiseSettled(db, history, ch);
    } else {
      RefreshSettled(db, history, ch);
    }
  }

  lemma {:induction false} PullSettled(db: Db, history: map<OpId, Entry>, device: DeviceId, changes: seq<Change>)
    requires Keyed(db.outbox) && Settled(db.conflicts, db.outbox, history)
    requires forall id | id in db.outbox :: id in history
    ensures Settled(Pull.Fold(db, device, changes).conflicts, Pull.Fold(db, device, changes).outbox, history)
  {
    if changes != [] {
      var n := |changes| - 1;
      PullSettled(db, history, device, changes[..n]);
      PullOutbox(db, device, changes[..n]);
      PullStepSettled(Pull.Fold(db, device, changes[..n]), history, device, changes[n]);
    }
  }

  lemma SettledResolving(conflicts: map<ConflictId, ConflictRow>, outbox: map<OpId, Op>, history: map<OpId, Entry>,
                         id: ConflictId, op: OpId, row: ConflictRow)
    requires Settled(conflicts, outbox, history) && id in conflicts && op in history
    requires row.sourceOp == conflicts[id].sourceOp && row.resolutionOp == Some(op)
    requires forall c | c in conflicts :: conflicts[c].resolutionOp != Some(op)
    ensures Settled(conflicts[id := row], outbox, history)
  {
  }

  lemma AcceptSettled(db: Db, history: map<OpId, Entry>, history': map<OpId, Entry>, r: Resilience.Request, chosen: Payload)
    requires Settled(db.conflicts, db.outbox, history) && Resilience.Admissible(db, r)
    requires forall id | id in history :: id in history'
    ensures var t := Resilience.AcceptRemote(db, db.conflicts[r.conflict], r, chosen);
            Settled(t.conflicts, t.outbox, history')
  {
    var t := Resilience.AcceptRemote(db, db.conflicts[r.conflict], r, chosen);
    SettledKept(db.conflicts, db.outbox, history, t.conflicts, t.outbox, history');
  }

  lemma RequeueSettled(db: Db, history: map<OpId, Entry>, history': map<OpId, Entry>, r: Resilience.Request, chosen: Payload)
    requires Settled(db.conflicts, db.outbox, history) && Resilience.Admissible(db, r)
    requires r.op !in history && r.op in history'
    requires forall id | id in history :: id in history'
    ensures var t := Resilience.Requeue(db, db.conflicts[r.conflict], r, chosen);
            Settled(t.conflicts, t.outbox, history')
  {
    var t := Resilience.Requeue(db, db.conflicts[r.conflict], r, chosen);
    SettledKept(db.conflicts, db.outbox, history, db.conflicts, t.outbox, history');
    SettledResolving(db.conflicts, t.outbox, history', r.conflict, r.op, t.conflicts[r.conflict]);
  }

  lemma ResolveSettled(s: System, r: Resilience.Request)
    requires Settled(s.db.conflicts, s.db.outbox, s.history)
    requires Fresh(s, r.op) && Resilience.Resolve(s.db, r).Ok? && forall id | id in s.db.outbox :: id in s.history
    ensures var t := Effect(s, Resolve(r)); Settled(t.db.conflicts, t.db.outbox, t.history)
  {
    var t := Effect(s, Resolve(r));
    var chosen := Resilience.Selected(s.db, r).value;
    if Resilience.Silent(s.db.conflicts[r.conflict], r) {
      AcceptSettled(s.db, s.history, t.history, r, chosen);
    } else {
      RequeueSettled(s.db, s.history, t.history, r, chosen);
    }
  }

  lemma LocalSettled(s: System, e: Event)
    requires Inv(s) && Allowed(s, e) && IsLocal(e) && Advances(s, Effect(s, e))
    ensures Settled(Effect(s, e).db.conflicts, Effect(s, e).db.outbox, Effect(s, e).history)
  {
    var t := Effect(s, e);
    if e.Resolve? && Resilience.Resolve(s.db, e.request).Ok? {
      ResolveSettled(s, e.request);
    } else {
      LocalKeepsConflicts(s, e);
      SettledKept(s.db.conflicts, s.db.outbox, s.history, t.db.conflicts, t.db.outbox, t.history);
    }
  }

  lemma MutateFrame(s: System, m: Mutation)
    ensures var t := Effect(s, Mutate(m)).db; t == s.db.(entities := t.entities, outbox := t.outbox)
  {
    if Commit(s.db, m).Ok? { CommitFrame(s.db, m); }
  }

  lemma MutateProtectedFrame(s: System, m: Mutation, body: Payload)
    ensures var t := Effect(s, MutateProtected(m, body)).db;
            t == s.db.(entities := t.entities, outbox := t.outbox, vault := t.vault)
  {
    ProtectedFrame(s.db, m, body);
  }

  lemma EditNoteFrame(s: System, p: NoteEdits.Prepared)
    ensures var t := Effect(s, EditNote(p)).db;
            t == s.db.(entities := t.entities, outbox := t.outbox, vault := t.vault)
  {
  }

  /** Commits and edits of notes only write entities, the outbox and the vault. */
  lemma LocalFrame(s: System, e: Event)
    requires (e.Mutate? || e.MutateProtected? || e.EditNote?)
    ensures var t := Effect(s, e).db;
            t == s.db.(entities := t.entities, outbox := t.outbox, vault := t.vault)
  {
    if e.Mutate? {
      MutateFrame(s, e.mutation);
    } else if e.MutateProtected? {
      MutateProtectedFrame(s, e.protected, e.body);
    } else {
      EditNoteFrame(s, e.prepared);
    }
  }

  lemma LocalKeepsConflicts(s: System, e: Event)
    requires IsLocal(e)
    requires e.Resolve? ==> Resilience.Resolve(s.db, e.request).Err?
    ensures Effect(s, e).db.conflicts == s.db.conflicts
  {
    if !e.Resolve? { LocalFrame(s, e); }
  }

  /** Settling entries does not disturb what is known about conflicts. */
  lemma SettledThrough(conflicts: map<ConflictId, ConflictRow>, outbox: map<OpId, Op>,
                       history: map<OpId, Entry>, history': map<OpId, Entry>)
    requires Settled(conflicts, outbox, history) && forall id | id in history :: id in history'
    ensures Settled(conflicts, outbox, history')
  {
  }

  lemma RemoteSettled(s: System, e: Event)
    requires Inv(s) && Allowed(s, e) && Advances(s, Effect(s, e))
    requires e.PushAnswered? || e.PullAnswered? || e.StageChunk?
    ensures Settled(Effect(s, e).db.conflicts, Effect(s, e).db.outbox, Effect(s, e).history)
  {
    var t := Effect(s, e);
    match e {
      case PushAnswered(results) =>
        var batch := s.sent.value.batch;
        var sealed := s.db.(vault := Push.SealRemotes(s.db.vault, results));
        if Push.Reply(sealed, batch, results).Ok? {
          FoldSettled(sealed, s.history, batch, results);
        }
        SettledThrough(t.db.conflicts, t.db.outbox, s.history, t.history);
      case PullAnswered(page) =>
        PullSettled(s.db.(vault := Pull.SealChanges(s.db.vault, page.changes)), s.history, Device(s), page.changes);
      case StageChunk(c) =>
        StageKeepsConflicts(s.db, c);
        SettledKept(s.db.conflicts, s.db.outbox, s.history, t.db.conflicts, t.db.outbox, t.history);
    }
  }

  lemma StageKeepsConflicts(db: Db, c: Chunk)
    ensures Bootstrap.Stage(db, c, c.device).conflicts == db.conflicts
  {
  }

  lemma RecordSettled(s: System, id: ConflictId, row: ConflictRow)
    requires Inv(s) && RecordAllowed(s, row)
    ensures Settled(Effect(s, RecordConflict(id, row)).db.conflicts, s.db.outbox, s.history)
  {
    if row.status.OpenConflict? {
      SettledWith(s.db.conflicts, s.db.outbox, s.history, id, row);
    }
  }

  lemma DismissSettled(db: Db, history: map<OpId, Entry>, id: ConflictId)
    requires Settled(db.conflicts, db.outbox, history)
    ensures Settled(Or(Resilience.DismissConflict(db, id), db).conflicts, db.outbox, history)
  {
    var t := Or(Resilience.DismissConflict(db, id), db);
    SettledKept(db.conflicts, db.outbox, history, t.conflicts, db.outbox, history);
  }

  lemma OthersSettled(s: System, e: Event)
    requires Inv(s) && Allowed(s, e)
    requires !IsLocal(e) && !e.PushAnswered? && !e.PullAnswered? && !e.StageChunk? && !e.DismissConflict? && !e.RecordConflict?
    ensures Settled(Effect(s, e).db.conflicts, Effect(s, e).db.outbox, Effect(s, e).history)
  {
  }

  // All events

  lemma EventSettled(s: System, e: Event)
    requires Inv(s) && Allowed(s, e) && Advances(s, Effect(s, e))
    ensures Settled(Effect(s, e).db.conflicts, Effect(s, e).db.outbox, Effect(s, e).history)
  {
    if IsLocal(e) {
      LocalSettled(s, e);
    } else if e.PushAnswered? || e.PullAnswered? || e.StageChunk? {
      RemoteSettled(s, e);
    } else if e.DismissConflict? {
      DismissSettled(s.db, s.history, e.conflict);
    } else if e.RecordConflict? {
      RecordSettled(s, e.id, e.row);
    } else {
      OthersSettled(s, e);
    }
  }

  /** Every event keeps every invariant. */
  lemma EventKeepsInv(s: System, e: Event)
    requires Inv(s) && Allowed(s, e)
    ensures Inv(Next(s, e))
    ensures Advances(s, Next(s, e)) && SyncMoves(s, Next(s, e), e)
  {
    EffectKeeps(s, e);
    Ticked(s, Effect(s, e), Next(s, e), e);
  }

  lemma EffectKeeps(s: System, e: Event)
    requires Inv(s) && Allowed(s, e)
    ensures var t := Effect(s, e);
            && Advances(s, t) && SyncMoves(s, t, e) && t.clock == s.clock
            && EpochsMatch(t) && Gate(t) && SentIntact(t) && Settled(t.db.conflicts, t.db.outbox, t.history)
  {
    EventAdvances(s, e);
    EventMovesSync(s, e);
    EpochsKept(s, e);
    GateKept(s, e);
    SentKeptBy(s, e);
    EventSettled(s, e);
  }

  /** The clock moves with every event. */
  lemma Ticked(s: System, t: System, n: System, e: Event)
    requires Inv(s) && Advances(s, t) && SyncMoves(s, t, e) && t.clock == s.clock
    requires EpochsMatch(t) && Gate(t) && SentIntact(t) && Settled(t.db.conflicts, t.db.outbox, t.history)
    requires n == t.(clock := t.clock + 1)
    ensures Inv(n) && Advances(s, n) && SyncMoves(s, n, e)
  {
    OrderKept(s, n);
  }
}
