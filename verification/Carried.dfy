/**
 The body a request carries is what is in the operation's slot when it is sent
 (packages/offline/src/sync-client.ts:670-686). When that is the body whose digest the
 operation has.
 */
module Carried {
  import opened Types
  import opened Repository
  import opened Runs
  import Bootstrap
  import Contents
  import NoteEdits
  import Outbox
  import Pages
  import Pull
  import PulledBodies
  import Push
  import Resilience
  import Safety
  import Scheduler

  ghost predicate Carries(outbox: map<OpId, Op>, vault: map<SlotId, Payload>) {
    forall id | id in outbox && outbox[id].slot.Some? ::
      outbox[id].slot.value in vault && Sha(vault[outbox[id].slot.value]) == outbox[id].payloadHash
  }

  /** Operations have their bodies in slots of their own. */
  predicate OwnSlots(outbox: map<OpId, Op>) {
    forall id | id in outbox && outbox[id].slot.Some? :: outbox[id].slot.value == OfOp(id)
  }

  lemma AddingCarries(outbox: map<OpId, Op>, vault: map<SlotId, Payload>, id: OpId, op: Op)
    requires Carries(outbox, vault) && OwnSlots(outbox)
    requires op.slot.Some? ==>
               op.slot.value == OfOp(id) && OfOp(id) in vault && Sha(vault[OfOp(id)]) == op.payloadHash
    ensures Carries(outbox[id := op], vault) && OwnSlots(outbox[id := op])
  {
  }

  lemma PlainCarries(db: Db, m: Mutation)
    requires Commit(db, m).Ok? && Carries(db.outbox, db.vault) && OwnSlots(db.outbox)
    requires m.slot.Some? ==>
               m.slot.value == OfOp(m.op) && OfOp(m.op) in db.vault && Sha(db.vault[OfOp(m.op)]) == m.payloadHash
    ensures var t := Commit(db, m).value; t.vault == db.vault && Carries(t.outbox, t.vault) && OwnSlots(t.outbox)
  {
    CommitCases(db, m);
    if m.op !in db.outbox {
      AddingCarries(db.outbox, db.vault, m.op, QueuedOp(m, CommitDeps(db, m).value));
    }
  }

  lemma SealingCarries(outbox: map<OpId, Op>, vault: map<SlotId, Payload>, id: OpId, body: Payload)
    requires Carries(outbox, vault) && OwnSlots(outbox) && id !in outbox
    ensures Carries(outbox, vault[OfOp(id) := body]) && Carries(outbox, vault[OfOp(id) := body] - {OfOp(id)})
  {
  }

  /** A commit keeps that so. */
  lemma CommitCarries(db: Db, m: Mutation, body: Payload)
    requires Carries(db.outbox, db.vault) && OwnSlots(db.outbox) && (m.kind.Delete? ==> m.slot.None?)
    ensures var t := ProtectedCommit(db, m, body).0; Carries(t.outbox, t.vault) && OwnSlots(t.outbox)
  {
    var sealed := m.(payload := Reference(OfOp(m.op)), payloadHash := Sha(body), slot := Some(OfOp(m.op)));
    if m.kind.Delete? {
      if Commit(db, m).Ok? { PlainCarries(db, m); }
    } else if m.op in db.outbox {
      if Commit(db, sealed).Ok? { CommitCases(db, sealed); }
    } else {
      var put := db.(vault := db.vault[OfOp(m.op) := body]);
      SealingCarries(db.outbox, db.vault, m.op, body);
      if Commit(put, sealed).Ok? { PlainCarries(put, sealed); }
    }
  }

  /** No queued operation has its body where the edit writes, unless the new text is that body. */
  ghost predicate EditSpares(outbox: map<OpId, Op>, p: NoteEdits.Prepared) {
    forall id | id in outbox && outbox[id].slot.Some? ::
      && (outbox[id].slot.value == p.noteSlot ==> outbox[id].payloadHash == Sha(p.nextNote))
      && (outbox[id].slot.value == p.docSlot ==> outbox[id].payloadHash == Sha(p.nextDoc))
  }

  predicate OwnUpdate(p: NoteEdits.Prepared) {
    && p.op.slot == Some(OfOp(p.op.id)) && p.op.payloadHash == Sha(p.update)
    && p.noteSlot != p.docSlot && p.noteSlot != OfOp(p.op.id) && p.docSlot != OfOp(p.op.id)
  }

  /** The edit of a note writes over the slots that its rows refer to. */
  lemma EditCarries(db: Db, p: NoteEdits.Prepared)
    requires Carries(db.outbox, db.vault) && OwnSlots(db.outbox) && NoteEdits.CommitEdit(db, p).Ok? && OwnUpdate(p)
    ensures var t := NoteEdits.CommitEdit(db, p).value;
            OwnSlots(t.outbox) && (Carries(t.outbox, t.vault) <==> EditSpares(db.outbox, p))
  {
    var t := NoteEdits.CommitEdit(db, p).value;
    forall id | id in db.outbox && db.outbox[id].slot.Some?
      ensures id in t.outbox && t.outbox[id] == db.outbox[id]
    {
    }
  }

  /** No change brings another body for a queued operation. */
  ghost predicate PageSpares(outbox: map<OpId, Op>, changes: seq<Change>) {
    forall id, ch | id in outbox && ch in changes && PulledBodies.SealedChange(ch) && outbox[id].slot == Some(OfOp(ch.op)) ::
      outbox[id].payloadHash == Sha(ch.payload)
  }

  /** A page seals its bodies over the slots of its operations. */
  lemma PullCarries(db: Db, device: DeviceId, next: nat, changes: seq<Change>)
    requires Keyed(db.outbox) && Carries(db.outbox, db.vault) && OwnSlots(db.outbox) && PulledBodies.DistinctOps(changes)
    ensures var t := Pull.Applied(db, device, next, changes);
            OwnSlots(t.outbox) && (Carries(t.outbox, t.vault) <==> PageSpares(db.outbox, changes))
  {
    Pages.AppliedIs(db, device, next, changes);
    PulledBodies.SealedSlots(db.vault, changes);
    Outbox.PullOutbox(db, device, changes);
    var t := Pull.Applied(db, device, next, changes);
    forall id | id in db.outbox && db.outbox[id].slot.Some? && !PulledBodies.Brings(changes, db.outbox[id].slot.value)
      ensures t.outbox[id].slot.value in t.vault && Sha(t.vault[t.outbox[id].slot.value]) == t.outbox[id].payloadHash
    {
    }
  }

  /** A decision is sealed like a commit, and what it discards is not sent any more. */
  lemma ResolveCarries(db: Db, r: Resilience.Request)
    requires Carries(db.outbox, db.vault) && OwnSlots(db.outbox) && r.op !in db.outbox && Resilience.Resolve(db, r).Ok?
    ensures var t := Resilience.Resolve(db, r).value; Carries(t.outbox, t.vault) && OwnSlots(t.outbox)
  {
  }

  /** Rows that leave or change their state, beside a vault that keeps the slots of operations. */
  lemma ShrunkCarries(outbox: map<OpId, Op>, vault: map<SlotId, Payload>, t: map<OpId, Op>, after: map<SlotId, Payload>, gone: set<OpId>)
    requires Carries(outbox, vault) && OwnSlots(outbox) && Outbox.Shrinks(outbox, t, gone)
    requires forall slot: SlotId | slot.OfOp? && slot in vault :: slot in after && after[slot] == vault[slot]
    ensures Carries(t, after) && OwnSlots(t)
  {
    forall id | id in t
      ensures id in outbox && t[id].slot == outbox[id].slot && t[id].payloadHash == outbox[id].payloadHash
    {
    }
  }

  lemma {:induction false} RemotesAside(vault: map<SlotId, Payload>, results: seq<OpResult>)
    ensures var sealed := Push.SealRemotes(vault, results);
            forall slot: SlotId | slot.OfOp? && slot in vault :: slot in sealed && sealed[slot] == vault[slot]
  {
    if results != [] { RemotesAside(vault, results[..|results| - 1]); }
  }

  lemma AnswersCarry(db: Db, batch: seq<Op>, results: seq<OpResult>)
    requires Keyed(db.outbox) && Carries(db.outbox, db.vault) && OwnSlots(db.outbox)
    ensures var t := Push.Receive(db, batch, results); Carries(t.outbox, t.vault) && OwnSlots(t.outbox)
  {
    if |batch| == |results| {
      var sealed := db.(vault := Push.SealRemotes(db.vault, results));
      RemotesAside(db.vault, results);
      ShrunkCarries(db.outbox, db.vault, db.outbox, sealed.vault, {});
      if Push.Reply(sealed, batch, results).Ok? {
        var folded := Push.Fold(sealed, batch, results).value;
        Outbox.FoldOutbox(sealed, batch, results);
        FoldLeavesVault(sealed, batch, results);
        ShrunkCarries(db.outbox, db.vault, folded.outbox, folded.vault, Outbox.AckedIds(batch, results));
      }
    }
  }

  lemma {:induction false} FoldLeavesVault(db: Db, batch: seq<Op>, results: seq<OpResult>)
    requires |batch| == |results| && Push.Fold(db, batch, results).Ok?
    ensures Push.Fold(db, batch, results).value.vault == db.vault
  {
    if batch != [] { FoldLeavesVault(db, batch[..|batch| - 1], results[..|batch| - 1]); }
  }

  lemma ChunkCarries(db: Db, c: Chunk)
    requires Keyed(db.outbox) && Carries(db.outbox, db.vault) && OwnSlots(db.outbox)
    ensures var t := Bootstrap.Stage(db, c, c.device); Carries(t.outbox, t.vault) && OwnSlots(t.outbox)
  {
    Outbox.StageOutbox(db, c, c.device);
    Contents.StageVault(db, c);
    Contents.RecordsAside(db.vault, c.records);
    ShrunkCarries(db.outbox, db.vault, Bootstrap.Stage(db, c, c.device).outbox, Bootstrap.Stage(db, c, c.device).vault, {});
  }

  // Runs

  /** Ids are new, unprotected operations have no slot, and a page has an operation once. */
  ghost predicate Formed(s: System, e: Event) {
    match e
    case Mutate(m) => m.slot.None?
    case MutateProtected(m, _) => m.kind.Delete? ==> m.slot.None?
    case EditNote(p) => OwnUpdate(p)
    case Resolve(r) => r.op !in s.db.outbox
    case PullAnswered(page) => PulledBodies.DistinctOps(page.changes)
    case _ => true
  }

  ghost predicate Faithful(s: System, e: Event) {
    match e
    case EditNote(p) => NoteEdits.CommitEdit(s.db, p).Ok? ==> EditSpares(s.db.outbox, p)
    case PullAnswered(page) => Pull.Receive(s.db, Device(s), page).Ok? ==> PageSpares(s.db.outbox, page.changes)
    case _ => true
  }

  /** Every queued operation carries its own body after an event if and only if that is not
      an edit or a page that writes another one over it. */
  lemma EventCarries(s: System, e: Event)
    requires Keyed(s.db.outbox) && Allowed(s, e) && Formed(s, e) && Carries(s.db.outbox, s.db.vault) && OwnSlots(s.db.outbox)
    ensures var t := Next(s, e).db; OwnSlots(t.outbox) && (Carries(t.outbox, t.vault) <==> Faithful(s, e))
  {
    if Outbox.IsCommit(e) {
      LocalCarries(s, e);
    } else if e.Resolve? {
      if Resilience.Resolve(s.db, e.request).Ok? { ResolveCarries(s.db, e.request); }
    } else if e.PushAnswered? {
      AnswersCarry(s.db, s.sent.value.batch, e.results);
    } else if e.PullAnswered? {
      if Pull.Receive(s.db, Device(s), e.page).Ok? { PullCarries(s.db, Device(s), e.page.next, e.page.changes); }
    } else if e.StageChunk? {
      ChunkCarries(s.db, e.chunk);
    } else {
      OthersCarry(s, e);
    }
  }

  lemma LocalCarries(s: System, e: Event)
    requires Outbox.IsCommit(e) && Formed(s, e) && Carries(s.db.outbox, s.db.vault) && OwnSlots(s.db.outbox)
    ensures var t := Effect(s, e).db; OwnSlots(t.outbox) && (Carries(t.outbox, t.vault) <==> Faithful(s, e))
  {
    CommittedTables(s, e);
    if e.Mutate? {
      if Commit(s.db, e.mutation).Ok? { PlainCarries(s.db, e.mutation); }
    } else if e.MutateProtected? {
      CommitCarries(s.db, e.protected, e.body);
    } else if NoteEdits.CommitEdit(s.db, e.prepared).Ok? {
      EditCarries(s.db, e.prepared);
    }
  }

  lemma CommittedTables(s: System, e: Event)
    requires Outbox.IsCommit(e)
    ensures Effect(s, e).db == if e.Mutate? then Or(Commit(s.db, e.mutation), s.db)
                               else if e.MutateProtected? then ProtectedCommit(s.db, e.protected, e.body).0
                               else Or(NoteEdits.CommitEdit(s.db, e.prepared), s.db)
  {
  }

  lemma OthersCarry(s: System, e: Event)
    requires !Outbox.IsCommit(e) && !e.Resolve? && !e.PushAnswered? && !e.PullAnswered? && !e.StageChunk?
    ensures Effect(s, e).db.vault == s.db.vault && Effect(s, e).db.outbox == s.db.outbox
  {
  }

  ghost predicate FaithfulRun(s: System, events: seq<Event>, t: System)
    decreases |events|
  {
    if events == [] then t == s else
      && Allowed(s, events[0]) && Formed(s, events[0]) && Faithful(s, events[0])
      && FaithfulRun(Next(s, events[0]), events[1..], t)
  }

  /** Along such runs every request carries, for each of its operations, the body whose digest
      the operation has. */
  lemma {:induction false} RequestsCarry(s: System, events: seq<Event>, t: System, listing: seq<Op>)
    requires Safety.Inv(s) && Carries(s.db.outbox, s.db.vault) && OwnSlots(s.db.outbox)
    requires FaithfulRun(s, events, t) && Allowed(t, SendPush(listing))
    ensures var r := Next(t, SendPush(listing));
            r.sent.Some? && forall op | op in r.sent.value.batch && op.slot.Some? ::
              op.slot.value in r.db.vault && Sha(r.db.vault[op.slot.value]) == op.payloadHash
    decreases |events|
  {
    if events != [] {
      EventCarries(s, events[0]);
      Safety.EventKeepsInv(s, events[0]);
      RequestsCarry(Next(s, events[0]), events[1..], t, listing);
    } else {
      forall op | op in Batch(listing)
        ensures op.id in t.db.outbox && t.db.outbox[op.id] == op
      {
        assert op in listing;
        var i :| 0 <= i < |listing| && listing[i] == op;
        assert op.id in Scheduler.DeviceRows(t.db.outbox, Device(t));
      }
    }
  }
}
