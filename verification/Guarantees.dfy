/**
 Safety over whole runs, in terms of what a user of the replica sees.
 */
module Guarantees {
  import opened Types
  import opened Graph
  import opened Runs
  import opened Safety
  import Scheduler
  import Push
  import Resilience
  import Outbox

  /** `t` is reached from `s` by these events. */
  ghost predicate RunsTo(s: System, events: seq<Event>, t: System)
    decreases |events|
  {
    if events == [] then t == s else
      Allowed(s, events[0]) && RunsTo(Next(s, events[0]), events[1..], t)
  }

  /** A replica nothing has been queued in. */
  ghost predicate Untouched(s: System) {
    s.db.outbox == map[] && s.db.conflicts == map[] && s.history == map[] && s.sent.None? && !s.gated
  }

  lemma UntouchedInv(s: System)
    requires Untouched(s)
    ensures Inv(s)
  {
  }

  lemma {:induction false} RunKeepsInv(s: System, events: seq<Event>, t: System)
    requires Inv(s) && RunsTo(s, events, t)
    ensures Inv(t)
    decreases |events|
  {
    if events != [] {
      EventKeepsInv(s, events[0]);
      RunKeepsInv(Next(s, events[0]), events[1..], t);
    }
  }

  // The scheduler

  lemma QueueIsAcyclic(s: System, device: DeviceId)
    requires Inv(s)
    ensures !Cyclic(WaitingRows(Scheduler.DeviceRows(s.db.outbox, device)))
  {
    var rows := WaitingRows(Scheduler.DeviceRows(s.db.outbox, device));
    var rank := map id | id in s.history :: s.history[id].rank;
    forall id | id in rows
      ensures id in rank && forall d | d in rows[id].deps :: d in rank && rank[d] < rank[id]
    {
      assert rows[id] == s.db.outbox[id];
    }
    RankedIsAcyclic(rows, rank);
  }

  /** In every reachable state the dependencies of the queue form no cycle. */
  lemma RunIsAcyclic(s: System, events: seq<Event>, t: System, device: DeviceId)
    requires Untouched(s) && RunsTo(s, events, t)
    ensures !Cyclic(WaitingRows(Scheduler.DeviceRows(t.db.outbox, device)))
  {
    UntouchedInv(s);
    RunKeepsInv(s, events, t);
    QueueIsAcyclic(t, device);
  }

  /** So asking for the ready operations of a reachable state never fails. */
  method ReadyInEveryRun(ghost s: System, ghost events: seq<Event>, t: System, device: DeviceId)
    returns (ready: seq<Op>)
    requires Untouched(s) && RunsTo(s, events, t) && Keyed(t.db.outbox)
    ensures Scheduler.ReadyListing(Scheduler.DeviceRows(t.db.outbox, device), ready)
  {
    RunIsAcyclic(s, events, t, device);
    var r := Scheduler.ListReady(t.db.outbox, device);
    ready := r.value;
  }

  // Conservation

  lemma {:induction false} HistoryGrows(s: System, events: seq<Event>, t: System, id: OpId)
    requires Inv(s) && RunsTo(s, events, t) && id in s.history
    ensures id in t.history && t.history[id] == s.history[id].(fate := t.history[id].fate)
    ensures !s.history[id].fate.Queued? ==> t.history[id] == s.history[id]
    decreases |events|
  {
    if events != [] {
      EventKeepsInv(s, events[0]);
      HistoryGrows(Next(s, events[0]), events[1..], t, id);
    }
  }

  /** Whatever was queued at some point of a run is from then on exactly one of:
      still in the outbox, acknowledged, removed by a resolution; and once it is
      acknowledged or removed it stays so. */
  lemma WorkIsConserved(s: System, events: seq<Event>, mid: System, later: seq<Event>, t: System, id: OpId)
    requires Untouched(s) && RunsTo(s, events, mid) && RunsTo(mid, later, t) && id in mid.db.outbox
    ensures id in t.history
    ensures id in t.db.outbox <==> t.history[id].fate.Queued?
  {
    UntouchedInv(s);
    RunKeepsInv(s, events, mid);
    RunKeepsInv(mid, later, t);
    HistoryGrows(mid, later, t, id);
  }

  /** Only an acknowledgement of the operation itself, or a resolution of a
      conflict on its entity, takes an operation out of the outbox. */
  lemma {:induction false} OnlyAcksAndResolutionsRemove(s: System, e: Event, id: OpId)
    requires Inv(s) && Allowed(s, e) && id in s.db.outbox && id !in Next(s, e).db.outbox
    ensures id in Next(s, e).history
    ensures || (e.PushAnswered? && |e.results| == |s.sent.value.batch|
                && exists i :: 0 <= i < |e.results| && s.sent.value.batch[i].id == id && e.results[i].Acked?)
            || (e.Resolve? && Resilience.Resolve(s.db, e.request).Ok?
                && var c := s.db.conflicts[e.request.conflict];
                   Touches(c.key, s.db.outbox[id].key)
                   && (c.sourceOp == Some(id) || s.db.outbox[id].state.InConflict?)
                   && Next(s, e).history[id].fate == Removed(c.key))
  {
    EventKeepsInv(s, e);
    if e.PushAnswered? {
      AnswerRemoves(s, e.results, id);
    } else if e.Resolve? {
      ResolveRemoves(s, e.request, id);
    } else {
      OthersRemoveNothing(s, e, id);
    }
  }

  lemma {:induction false} AnswerRemoves(s: System, results: seq<OpResult>, id: OpId)
    requires Inv(s) && Allowed(s, PushAnswered(results)) && id in s.db.outbox
    requires id !in Effect(s, PushAnswered(results)).db.outbox
    ensures |results| == |s.sent.value.batch|
    ensures exists i :: 0 <= i < |results| && s.sent.value.batch[i].id == id && results[i].Acked?
  {
    var batch := s.sent.value.batch;
    var sealed := s.db.(vault := Push.SealRemotes(s.db.vault, results));
    if Push.Reply(sealed, batch, results).Ok? {
      Outbox.FoldOutbox(sealed, batch, results);
      Outbox.AckedInBatch(batch, results);
    }
  }

  lemma ResolveRemoves(s: System, r: Resilience.Request, id: OpId)
    requires Inv(s) && Allowed(s, Resolve(r)) && id in s.db.outbox && id !in Effect(s, Resolve(r)).db.outbox
    ensures Resilience.Resolve(s.db, r).Ok?
    ensures Resilience.Discarded(s.db.conflicts[r.conflict], s.db.outbox[id])
    ensures id in Effect(s, Resolve(r)).history
    ensures Effect(s, Resolve(r)).history[id].fate == Removed(s.db.conflicts[r.conflict].key)
  {
    if Resilience.Resolve(s.db, r).Ok? {
      Outbox.ResolveOutbox(s.db, r);
    }
  }

  lemma OthersRemoveNothing(s: System, e: Event, id: OpId)
    requires Inv(s) && Allowed(s, e) && !e.PushAnswered? && !e.Resolve? && id in s.db.outbox
    ensures id in Effect(s, e).db.outbox
  {
    if e.PullAnswered? {
      Outbox.PageShrinks(s, e.page);
    } else if e.StageChunk? {
      Outbox.ChunkShrinks(s, e.chunk);
    } else if Outbox.IsCommit(e) {
      Outbox.CommitEventGains(s, e);
    } else {
      OutboxUntouched(s, e);
    }
  }

  lemma OutboxUntouched(s: System, e: Event)
    requires !IsLocal(e) && !e.PushAnswered? && !e.PullAnswered? && !e.StageChunk?
    ensures Effect(s, e).db.outbox == s.db.outbox
  {
  }

  // Epochs

  /** An operation that left the waiting state never waits again. */
  lemma {:induction false} NeverWaitsAgain(s: System, events: seq<Event>, t: System, id: OpId)
    requires Inv(s) && RunsTo(s, events, t)
    requires id in s.history && (id in s.db.outbox ==> !s.db.outbox[id].state.Waiting?)
    ensures id in t.db.outbox ==> !t.db.outbox[id].state.Waiting?
    decreases |events|
  {
    if events != [] {
      EventKeepsInv(s, events[0]);
      NeverWaitsAgain(Next(s, events[0]), events[1..], t, id);
    }
  }

  /** What a push request carries: operations queued under the request's own epoch
      (or before the replica had one), none of which depends on a queued operation
      of the device that is not waiting, such as an isolated one. */
  lemma RequestsStayInEpoch(s: System, events: seq<Event>, t: System, listing: seq<Op>, i: nat)
    requires Untouched(s) && RunsTo(s, events, t) && Allowed(t, SendPush(listing))
    requires i < |Batch(listing)|
    ensures var op, request := Batch(listing)[i], Request(t, listing);
            && request.batch[i] == op
            && op.id in t.history
            && (t.history[op.id].epoch.None? || t.history[op.id].epoch == Some(request.epoch))
            && !Held(Scheduler.DeviceRows(t.db.outbox, request.device), op.id)
  {
    UntouchedInv(s);
    RunKeepsInv(s, events, t);
    EventKeepsInv(t, SendPush(listing));
    var op := Batch(listing)[i];
    assert Next(t, SendPush(listing)).sent == Some(Request(t, listing));
    Scheduler.IdsAreMembers(listing);
    assert Scheduler.Within(listing, |listing|, op.id);
  }

  // The resume gate

  /** From a demand for a new snapshot on, nothing is pushed or pulled, and only
      the activation of a complete snapshot ends this. */
  lemma GateHolds(s: System, e: Event)
    requires Inv(s) && Allowed(s, e) && s.gated
    ensures !e.SendPush? && !e.PullAnswered? && !e.PullControl? && !e.PushAnswered?
    ensures Next(s, e).gated || (e.StageChunk? && Activates(s.db, e.chunk, e.chunk.device))
  {
    if IsLocal(e) {
      LocalKeepsSync(s, e);
    }
  }

  /** The event demands a new snapshot: a control message, or a device change. */
  predicate DemandsSnapshot(s: System, e: Event) {
    || (e.PushControl? && !e.pushAction.UpgradeControl?)
    || (e.PullControl? && !e.pullAction.UpgradeControl?)
    || (e.PrepareDevice? && Effect(s, e).db.sync != s.db.sync)
  }

  /** A run in which no snapshot is activated. */
  ghost predicate Awaits(s: System, events: seq<Event>, t: System)
    decreases |events|
  {
    if events == [] then t == s else
      && Allowed(s, events[0])
      && !(events[0].StageChunk? && Activates(s.db, events[0].chunk, events[0].chunk.device))
      && Awaits(Next(s, events[0]), events[1..], t)
  }

  lemma {:induction false} NothingSentWhileGated(s: System, events: seq<Event>, t: System)
    requires Inv(s) && Awaits(s, events, t) && s.gated
    ensures t.gated
    ensures forall i | 0 <= i < |events| :: !events[i].SendPush? && !events[i].PullAnswered? && !events[i].PullControl?
    decreases |events|
  {
    if events != [] {
      GateHolds(s, events[0]);
      EventKeepsInv(s, events[0]);
      NothingSentWhileGated(Next(s, events[0]), events[1..], t);
      assert forall i | 1 <= i < |events| :: events[i] == events[1..][i - 1];
    }
  }

  /** After a demand for a new snapshot nothing is pushed or pulled until one has
      been activated, whatever else happens. */
  lemma {:induction false} NothingSentUntilSnapshot(s: System, e: Event, events: seq<Event>, t: System)
    requires Inv(s) && Allowed(s, e) && DemandsSnapshot(s, e)
    requires Awaits(Next(s, e), events, t)
    ensures forall i | 0 <= i < |events| :: !events[i].SendPush? && !events[i].PullAnswered? && !events[i].PullControl?
  {
    EventKeepsInv(s, e);
    NothingSentWhileGated(Next(s, e), events, t);
  }

  /** Only activating a snapshot or changing the device moves the cursor back. */
  lemma CursorOnlyAdvances(s: System, e: Event)
    requires Inv(s) && Allowed(s, e) && s.db.sync.Some?
    requires e.PrepareDevice? ==> Next(s, e).db.sync == s.db.sync
    requires e.StageChunk? ==> !Activates(s.db, e.chunk, e.chunk.device)
    ensures Next(s, e).db.sync.Some? && s.db.sync.value.cursor <= Next(s, e).db.sync.value.cursor
    ensures Next(s, e).db.sync.value.device == s.db.sync.value.device
    ensures Next(s, e).db.sync.value.epoch == s.db.sync.value.epoch
  {
    EventMovesSync(s, e);
  }
}
