/**
 A dismissed conflict leaves its entity marked. What gets it out of that state again.
 */
module Dismissal {
  import opened Types
  import opened Repository
  import opened Runs
  import opened Safety
  import Pull
  import Resilience
  import NoteEdits

  /** The entity is in conflict, but none of its conflicts is open. */
  ghost predicate Closed(db: Db, k: Key) {
    && k in db.entities && db.entities[k].status.Conflicted?
    && forall c | c in db.conflicts :: db.conflicts[c].key == k ==> !db.conflicts[c].status.OpenConflict?
  }

  /** Dismissing the last open conflict of an entity is how it gets there. */
  lemma DismissingCloses(db: Db, id: ConflictId)
    requires Resilience.DismissConflict(db, id).Ok?
    requires db.conflicts[id].key in db.entities && db.entities[db.conflicts[id].key].status.Conflicted?
    ensures Closed(Resilience.DismissConflict(db, id).value, db.conflicts[id].key)
            <==> forall c | c in db.conflicts && c != id ::
                   db.conflicts[c].key == db.conflicts[id].key ==> !db.conflicts[c].status.OpenConflict?
  {
    var t, k := Resilience.DismissConflict(db, id).value, db.conflicts[id].key;
    if c :| c in db.conflicts && c != id && db.conflicts[c].key == k && db.conflicts[c].status.OpenConflict? {
      assert t.conflicts[c] == db.conflicts[c];
    }
  }

  ghost predicate Stays(db: Db, t: Db, k: Key) {
    Closed(t, k) && k in db.entities && t.entities[k] == db.entities[k]
  }

  lemma CommitStays(db: Db, m: Mutation, k: Key)
    requires Closed(db, k)
    ensures Stays(db, Or(Commit(db, m), db), k)
  {
    if Commit(db, m).Ok? { CommitCases(db, m); }
  }

  lemma ProtectedStays(db: Db, m: Mutation, body: Payload, k: Key)
    requires Closed(db, k)
    ensures Stays(db, ProtectedCommit(db, m, body).0, k)
  {
    var sealed := m.(payload := Reference(OfOp(m.op)), payloadHash := Sha(body), slot := Some(OfOp(m.op)));
    if m.kind.Delete? {
      CommitStays(db, m, k);
    } else if m.op in db.outbox {
      CommitStays(db, sealed, k);
    } else {
      CommitStays(db.(vault := db.vault[OfOp(m.op) := body]), sealed, k);
    }
  }

  lemma ResolveStays(db: Db, r: Resilience.Request, k: Key)
    requires Closed(db, k) && OrdinaryType(k.kind)
    ensures Stays(db, Or(Resilience.Resolve(db, r), db), k)
  {
  }

  lemma StepStays(db: Db, device: DeviceId, ch: Change, k: Key)
    requires Closed(db, k) && OrdinaryType(k.kind)
    ensures Stays(db, Pull.Step(db, device, ch), k)
  {
    if Pull.Raises(db, ch) {
      RaiseStays(db, ch, k);
    } else {
      RefreshStays(db.conflicts, ch, k);
    }
  }

  lemma RaiseStays(db: Db, ch: Change, k: Key)
    requires Closed(db, k) && Pull.Raises(db, ch)
    ensures Stays(db, Pull.Raise(db, ch), k)
  {
  }

  lemma RefreshStays(conflicts: map<ConflictId, ConflictRow>, ch: Change, k: Key)
    requires forall c | c in conflicts :: conflicts[c].key == k ==> !conflicts[c].status.OpenConflict?
    ensures forall c | c in Pull.Refresh(conflicts, ch) :: Pull.Refresh(conflicts, ch)[c].key == k ==>
              !Pull.Refresh(conflicts, ch)[c].status.OpenConflict?
  {
  }

  lemma {:induction false} FoldStays(db: Db, device: DeviceId, changes: seq<Change>, k: Key)
    requires Closed(db, k) && OrdinaryType(k.kind)
    ensures Stays(db, Pull.Fold(db, device, changes), k)
  {
    if changes != [] {
      var n := |changes| - 1;
      FoldStays(db, device, changes[..n], k);
      StepStays(Pull.Fold(db, device, changes[..n]), device, changes[n], k);
    }
  }

  lemma PageStays(s: System, page: Page, k: Key)
    requires Closed(s.db, k) && OrdinaryType(k.kind)
    ensures Stays(s.db, Effect(s, PullAnswered(page)).db, k)
  {
    FoldStays(s.db.(vault := Pull.SealChanges(s.db.vault, page.changes)), Device(s), page.changes, k);
  }

  lemma OthersStay(s: System, e: Event, k: Key)
    requires Closed(s.db, k)
    requires !IsLocal(e) && !e.PushAnswered? && !e.PullAnswered? && !e.StageChunk? && !e.RecordConflict?
    ensures Stays(s.db, Effect(s, e).db, k)
  {
  }

  /** From then on no commit, no edit, no decision and no pull changes the entity or opens
      a conflict about it: only the answer to a push, a snapshot, or a conflict recorded
      anew does. */
  lemma DismissedStays(s: System, e: Event, k: Key)
    requires Closed(s.db, k) && OrdinaryType(k.kind)
    requires !e.PushAnswered? && !e.StageChunk? && !e.RecordConflict?
    ensures Stays(s.db, Next(s, e).db, k)
  {
    if e.Mutate? {
      CommitStays(s.db, e.mutation, k);
    } else if e.MutateProtected? {
      ProtectedStays(s.db, e.protected, e.body, k);
    } else if e.EditNote? {
      assert Stays(s.db, Or(NoteEdits.CommitEdit(s.db, e.prepared), s.db), k);
    } else if e.Resolve? {
      ResolveStays(s.db, e.request, k);
    } else if e.PullAnswered? {
      PageStays(s, e.page, k);
    } else {
      OthersStay(s, e, k);
    }
  }
}
