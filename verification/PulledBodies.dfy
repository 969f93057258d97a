/**
 What a page of changes does to the bodies in the vault: they are sealed under the ids of
 their operations, over whatever is there.
 */
module PulledBodies {
  import opened Types
  import opened Pull
  import opened Pages
  import opened Resolutions
  import Bodies
  import Resilience
  import Runs

  predicate SealedChange(ch: Change) {
    Protected(ch.key.kind) && !ch.tombstone
  }

  /** An operation is in the list once, as far as it brings a body. */
  predicate DistinctOps(changes: seq<Change>) {
    forall i, j | 0 <= i < j < |changes| && SealedChange(changes[i]) && SealedChange(changes[j]) ::
      changes[i].op != changes[j].op
  }

  /** The list brings a body into the slot. */
  predicate Brings(changes: seq<Change>, slot: SlotId) {
    exists ch | ch in changes :: SealedChange(ch) && slot == OfOp(ch.op)
  }

  lemma {:induction false} SealedSlots(vault: map<SlotId, Payload>, changes: seq<Change>)
    requires DistinctOps(changes)
    ensures var sealed := SealChanges(vault, changes);
            && (forall ch | ch in changes && SealedChange(ch) :: OfOp(ch.op) in sealed && sealed[OfOp(ch.op)] == ch.payload)
            && (forall slot | !Brings(changes, slot) ::
                  (slot in sealed <==> slot in vault) && (slot in vault ==> sealed[slot] == vault[slot]))
  {
    if changes != [] {
      var n := |changes| - 1;
      SealedSlots(vault, changes[..n]);
      forall ch | ch in changes[..n] && SealedChange(ch) && SealedChange(changes[n])
        ensures ch.op != changes[n].op
      {
        var i :| 0 <= i < n && changes[i] == ch;
      }
      assert forall ch | ch in changes :: ch in changes[..n] || ch == changes[n];
      assert changes[n] in changes;
    }
  }

  /** A page spares the bodies of all rows if and only if it has no other body for a slot
      that one of them refers to. */
  lemma PullingSpares(entities: map<Key, Entity>, vault: map<SlotId, Payload>, changes: seq<Change>)
    requires DistinctOps(changes)
    ensures Bodies.SparesBodies(entities, vault, SealChanges(vault, changes))
            <==> forall ch | ch in changes && SealedChange(ch) ::
                   OfOp(ch.op) in vault && Bodies.RefersTo(entities, OfOp(ch.op)) ==> vault[OfOp(ch.op)] == ch.payload
  {
    SealedSlots(vault, changes);
  }

  // An entity with local work

  /** The page has no other body for what the user sees. */
  ghost predicate KeepsBody(db: Db, changes: seq<Change>, k: Key)
    requires k in db.entities
  {
    forall ch | ch in changes && SealedChange(ch) ::
      Protected(k.kind) && db.entities[k].payload == Reference(OfOp(ch.op)) ==> Seen(db, k) == Some(ch.payload)
  }

  lemma BodyAfter(vault: map<SlotId, Payload>, changes: seq<Change>, kind: EntityType, payload: Payload)
    requires DistinctOps(changes)
    ensures Resilience.Body(SealChanges(vault, changes), kind, payload) == Resilience.Body(vault, kind, payload)
            <==> forall ch | ch in changes && SealedChange(ch) ::
                   Protected(kind) && payload == Reference(OfOp(ch.op)) ==> Resilience.Body(vault, kind, payload) == Some(ch.payload)
  {
    SealedSlots(vault, changes);
    if payload.Reference? && Brings(changes, payload.slot) {
      var ch :| ch in changes && SealedChange(ch) && payload.slot == OfOp(ch.op);
    }
  }

  /** What the user sees of an entity with local work stays the same over a page if and only
      if the page has no other body for it. */
  lemma LocalBodySurvives(db: Db, device: DeviceId, next: nat, changes: seq<Change>, k: Key)
    requires Runs.OrdinaryType(k.kind) && k in db.entities && !db.entities[k].status.Clean? && DistinctOps(changes)
    ensures Seen(Applied(db, device, next, changes), k) == Seen(db, k) <==> KeepsBody(db, changes, k)
  {
    AppliedIs(db, device, next, changes);
    LocalEditsSurvive(db, device, changes, k);
    BodyAfter(db.vault, changes, k.kind, db.entities[k].payload);
  }

  /** The conflict that a page raises shows the body the user saw if and only if the page has
      no other body for it, and always the body of the highest version it brings. */
  lemma RaisedConflictShowsBodies(db: Db, device: DeviceId, next: nat, changes: seq<Change>, k: Key)
    requires Runs.OrdinaryType(k.kind) && DistinctOps(changes)
    requires k in db.entities && db.entities[k].status.Pending? && First(changes, k).Some?
    ensures Highest(changes, k).Some?
    ensures var t, id, top := Applied(db, device, next, changes), Pulled(First(changes, k).value.op, k), Highest(changes, k).value;
            && id in t.conflicts && ShowsBothSides(t.conflicts[id], k, db.entities[k], top)
            && (Resilience.Body(t.vault, k.kind, t.conflicts[id].localPayload) == Seen(db, k) <==> KeepsBody(db, changes, k))
            && (!top.tombstone ==> Resilience.Body(t.vault, k.kind, t.conflicts[id].remotePayload) == Some(top.payload))
  {
    AppliedIs(db, device, next, changes);
    RaisedConflictShowsHighest(db, device, changes, k);
    HighestIsHighest(changes, k);
    BodyAfter(db.vault, changes, k.kind, db.entities[k].payload);
    SealedSlots(db.vault, changes);
  }

  /** Where a page has brought another body than the digest of the row is of, the local side
      of the conflict can no longer be kept. */
  lemma EchoBarsKeepLocal(db: Db, device: DeviceId, next: nat, changes: seq<Change>, k: Key, r: Resilience.Request, ch: Change)
    requires Runs.OrdinaryType(k.kind) && Protected(k.kind) && DistinctOps(changes)
    requires k in db.entities && db.entities[k].status.Pending? && First(changes, k).Some?
    requires ch in changes && SealedChange(ch) && db.entities[k].payload == Reference(OfOp(ch.op))
    requires Sha(ch.payload) != db.entities[k].payloadHash
    requires r.conflict == Pulled(First(changes, k).value.op, k) && r.choice.KeepLocal?
    ensures Resilience.Resolve(Applied(db, device, next, changes), r).Err?
  {
    RaisedConflictShowsBodies(db, device, next, changes, k);
    SealedSlots(db.vault, changes);
    AppliedIs(db, device, next, changes);
  }
}
