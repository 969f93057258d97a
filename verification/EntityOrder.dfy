/**
 The operations queued on one entity stand in commit order in every request,
 because each of them names the one before it as a dependency.
 */
module EntityOrder {
  import opened Types
  import opened Graph
  import opened Repository
  import opened Runs
  import opened Safety
  import opened Guarantees
  import opened Chains
  import Outbox
  import Push
  import Resilience
  import NoteEdits

  // Commits

  /** The mutation is younger than everything queued on its entity. */
  predicate Younger(outbox: map<OpId, Op>, m: Mutation) {
    m.op in outbox || forall id | id in outbox && outbox[id].key == m.key :: outbox[id].queuedAt < m.occurredAt
  }

  function NewestOn(outbox: map<OpId, Op>, k: Key): Option<OpId>
  {
    Latest(OnEntity(outbox, k))
  }

  /** Whether a deletion of this note finds an update of its document to wait for that
      is newer than `newest`, the newest operation on the note itself. */
  predicate DocumentIsNewer(outbox: map<OpId, Op>, m: Mutation, newest: OpId)
    requires newest in outbox
  {
    && m.key.kind.Note? && m.kind.Delete?
    && exists u | u in outbox :: outbox[u].key == Key(DocUpdate, m.key.id) && Before(outbox[newest], outbox[u])
  }

  /** The caller names the newest operation on the entity, or can leave that to the commit. */
  predicate NamesNewest(outbox: map<OpId, Op>, m: Mutation)
  {
    var newest := NewestOn(outbox, m.key);
    newest.Some? ==> newest.value in m.deps || !DocumentIsNewer(outbox, m, newest.value)
  }

  /** The same, where the caller's dependencies only have to lead there. */
  ghost predicate LeadsToNewest(outbox: map<OpId, Op>, m: Mutation)
  {
    var newest := NewestOn(outbox, m.key);
    newest.Some? ==>
      || !DocumentIsNewer(outbox, m, newest.value)
      || exists d :: d in m.deps && d in outbox && Reaches(outbox, d, newest.value)
  }

  /** Which operation the commit adds as a dependency. */
  lemma PredecessorIs(outbox: map<OpId, Op>, m: Mutation)
    requires Keyed(outbox) && m.op !in outbox && NewestOn(outbox, m.key).Some?
    ensures var newest, p := NewestOn(outbox, m.key).value, Predecessor(outbox, m);
            && p.Some? && p.value in outbox
            && if DocumentIsNewer(outbox, m, newest) then outbox[p.value].key == Key(DocUpdate, m.key.id)
               else p.value == newest
  {
    var newest, p := NewestOn(outbox, m.key).value, Predecessor(outbox, m);
    var related := RelatedTo(outbox, m) - {m.op};
    assert newest in OnEntity(outbox, m.key) && newest in related;
    assert p == Latest(related);
    assert outbox[p.value].key == m.key ==> p.value in OnEntity(outbox, m.key);
    assert !Before(outbox[p.value], outbox[newest]);
    if DocumentIsNewer(outbox, m, newest) {
      var u :| u in outbox && outbox[u].key == Key(DocUpdate, m.key.id) && Before(outbox[newest], outbox[u]);
      assert u in related && !Before(outbox[p.value], outbox[u]);
    }
  }

  /** The last dependency is the predecessor, unless it was named already. */
  lemma StoredDeps(db: Db, m: Mutation)
    requires CommitDeps(db, m).Ok?
    ensures forall d :: d in CommitDeps(db, m).value <==> d in m.deps || Predecessor(db.outbox, m) == Some(d)
  {
  }

  /** A commit under a fresh id keeps the operations on its entity linked if and only
      if it is not the deletion of a note whose document was edited last, or the
      caller names the newest operation on the note. */
  lemma CommitKeepsLinks(db: Db, m: Mutation)
    requires Keyed(db.outbox) && Linked(db.outbox, m.key) && Younger(db.outbox, m)
    requires Commit(db, m).Ok? && m.op !in db.outbox
    ensures Linked(Commit(db, m).value.outbox, m.key) <==> NamesNewest(db.outbox, m)
  {
    var row := QueuedOp(m, CommitDeps(db, m).value);
    assert Commit(db, m).value.outbox == db.outbox[row.id := row];
    AdditionLinked(db.outbox, row);
    StoredDeps(db, m);
    if NewestOn(db.outbox, m.key).Some? {
      PredecessorIs(db.outbox, m);
      assert NewestOn(db.outbox, m.key).value in OnEntity(db.outbox, m.key);
    }
  }

  lemma CommitLinked(db: Db, m: Mutation, k: Key)
    requires Keyed(db.outbox) && Linked(db.outbox, k) && (m.key == k ==> Younger(db.outbox, m) && NamesNewest(db.outbox, m))
    ensures Linked(Or(Commit(db, m), db).outbox, k)
  {
    if Commit(db, m).Ok? && m.op !in db.outbox {
      if m.key == k {
        CommitKeepsLinks(db, m);
      } else {
        OtherAdditionLinked(db.outbox, QueuedOp(m, CommitDeps(db, m).value), k);
      }
    }
  }

  lemma ProtectedLinked(db: Db, m: Mutation, body: Payload, k: Key)
    requires Keyed(db.outbox) && Linked(db.outbox, k) && (m.key == k ==> Younger(db.outbox, m) && NamesNewest(db.outbox, m))
    ensures Linked(ProtectedCommit(db, m, body).0.outbox, k)
  {
    var slot := OfOp(m.op);
    var sealed := m.(payload := Reference(slot), payloadHash := Sha(body), slot := Some(slot));
    if m.kind.Delete? {
      CommitLinked(db, m, k);
    } else if m.op in db.outbox {
      CommitLinked(db, sealed, k);
    } else {
      CommitLinked(db.(vault := db.vault[slot := body]), sealed, k);
    }
  }

  lemma EditLinked(db: Db, p: NoteEdits.Prepared, k: Key)
    requires Linked(db.outbox, k) && OrdinaryType(k.kind) && p.op.key == Key(DocUpdate, p.note)
    ensures Linked(Or(NoteEdits.CommitEdit(db, p), db).outbox, k)
  {
    if NoteEdits.CommitEdit(db, p).Ok? {
      OtherAdditionLinked(db.outbox, p.op, k);
    }
  }

  // Document updates

  /** Updates of documents only wait for other updates. */
  ghost predicate DocumentsLeadToDocuments(outbox: map<OpId, Op>) {
    forall a, b | Edge(outbox, a, b) && outbox[a].key.kind.DocUpdate? :: outbox[b].key.kind.DocUpdate?
  }

  lemma {:induction false} DocumentsReachDocuments(outbox: map<OpId, Op>, path: seq<OpId>)
    requires DocumentsLeadToDocuments(outbox) && IsPath(outbox, path) && outbox[path[0]].key.kind.DocUpdate?
    ensures outbox[path[|path| - 1]].key.kind.DocUpdate?
    decreases |path|
  {
    if |path| > 1 {
      assert Edge(outbox, path[0], path[1]);
      PathTail(outbox, path);
      DocumentsReachDocuments(outbox, path[1..]);
    }
  }

  /** The row an event may add. */
  lemma AddedRow(s: System, e: Event, id: OpId)
    requires Inv(s) && Allowed(s, e) && id in Effect(s, e).db.outbox && id !in s.db.outbox
    ensures var row := Effect(s, e).db.outbox[id];
            row.key.kind.DocUpdate? ==> forall d | d in row.deps && d in s.db.outbox :: s.db.outbox[d].key.kind.DocUpdate?
  {
    if e.Mutate? {
      CommitAdds(s.db, e.mutation, id);
    } else if e.MutateProtected? {
      ProtectedAdds(s.db, e.protected, e.body, id);
    } else if e.EditNote? {
      EditAdds(s.db, e.prepared, id);
    } else if e.Resolve? {
      ResolutionAdds(s.db, e.request, id);
    } else if e.PushAnswered? || e.PullAnswered? || e.StageChunk? {
      NothingAdded(s, e);
    } else {
      OutboxUntouched(s, e);
    }
  }

  lemma CommitAdds(db: Db, m: Mutation, id: OpId)
    requires id !in db.outbox && id in Or(Commit(db, m), db).outbox
    ensures Or(Commit(db, m), db).outbox[id].key == m.key
  {
    if Commit(db, m).Ok? { CommitCases(db, m); }
  }

  lemma ProtectedAdds(db: Db, m: Mutation, body: Payload, id: OpId)
    requires id !in db.outbox && id in ProtectedCommit(db, m, body).0.outbox
    ensures ProtectedCommit(db, m, body).0.outbox[id].key == m.key
  {
    var slot := OfOp(m.op);
    var sealed := m.(payload := Reference(slot), payloadHash := Sha(body), slot := Some(slot));
    if m.kind.Delete? {
      CommitAdds(db, m, id);
    } else if m.op !in db.outbox {
      CommitAdds(db.(vault := db.vault[slot := body]), sealed, id);
    }
  }

  lemma EditAdds(db: Db, p: NoteEdits.Prepared, id: OpId)
    requires id !in db.outbox && id in Or(NoteEdits.CommitEdit(db, p), db).outbox
    ensures Or(NoteEdits.CommitEdit(db, p), db).outbox[id] == p.op
  {
  }

  lemma ResolutionAdds(db: Db, r: Resilience.Request, id: OpId)
    requires id !in db.outbox && id in Or(Resilience.Resolve(db, r), db).outbox
    ensures Or(Resilience.Resolve(db, r), db).outbox[id].deps == []
  {
  }

  lemma NothingAdded(s: System, e: Event)
    requires Inv(s) && Allowed(s, e) && (e.PushAnswered? || e.PullAnswered? || e.StageChunk?)
    ensures Effect(s, e).db.outbox.Keys <= s.db.outbox.Keys
  {
    match e {
      case PushAnswered(results) =>
        var sealed := s.db.(vault := Push.SealRemotes(s.db.vault, results));
        if Push.Reply(sealed, s.sent.value.batch, results).Ok? {
          Outbox.FoldOutbox(sealed, s.sent.value.batch, results);
        }
      case PullAnswered(page) => Outbox.PageShrinks(s, page);
      case StageChunk(c) => Outbox.ChunkShrinks(s, c);
    }
  }

  lemma EventKeepsDocuments(s: System, e: Event)
    requires Inv(s) && Allowed(s, e) && DocumentsLeadToDocuments(s.db.outbox)
    ensures DocumentsLeadToDocuments(Next(s, e).db.outbox)
  {
    var t := Next(s, e);
    EventKeepsInv(s, e);
    forall a, b | Edge(t.db.outbox, a, b) && t.db.outbox[a].key.kind.DocUpdate?
      ensures t.db.outbox[b].key.kind.DocUpdate?
    {
      if a in s.db.outbox {
        assert t.db.outbox[a].deps == s.db.outbox[a].deps;
        assert b in s.history && b in s.db.outbox;
        assert Edge(s.db.outbox, a, b);
      } else {
        AddedRow(s, e, a);
        assert b in s.history ==> b in s.db.outbox;
      }
    }
  }

  /** Updates of documents wait only for updates, in every run. */
  lemma {:induction false} RunKeepsDocuments(s: System, events: seq<Event>, t: System)
    requires Inv(s) && DocumentsLeadToDocuments(s.db.outbox) && RunsTo(s, events, t)
    ensures Inv(t) && DocumentsLeadToDocuments(t.db.outbox)
    decreases |events|
  {
    if events != [] {
      EventKeepsInv(s, events[0]);
      EventKeepsDocuments(s, events[0]);
      RunKeepsDocuments(Next(s, events[0]), events[1..], t);
    }
  }

  /** A path that starts at an old row stays among old rows when nothing leads to the new one. */
  lemma OldPath(outbox: map<OpId, Op>, row: Op, d: OpId, id: OpId)
    requires row.id !in outbox && d in outbox && Reaches(outbox[row.id := row], d, id)
    requires row.id !in row.deps && forall x | x in outbox :: row.id !in outbox[x].deps
    ensures Reaches(outbox, d, id)
  {
    var after := outbox[row.id := row];
    var path :| IsPath(after, path) && path[0] == d && path[|path| - 1] == id;
    forall i | 0 <= i < |path|
      ensures path[i] in outbox
    {
      assert i > 0 ==> Edge(after, path[i - 1], path[i]);
    }
    forall i | 0 <= i < |path| - 1
      ensures Edge(outbox, path[i], path[i + 1])
    {
      assert Edge(after, path[i], path[i + 1]);
    }
    assert IsPath(outbox, path);
  }

  /** A row that is younger than all on its entity keeps the chain if and only if one
      of its dependencies leads to the newest of them. */
  lemma AdditionChained(outbox: map<OpId, Op>, row: Op)
    requires Keyed(outbox) && Chained(outbox, row.key) && row.id !in outbox
    requires row.id !in row.deps && forall x | x in outbox :: row.id !in outbox[x].deps
    requires forall id | id in OnEntity(outbox, row.key) :: Before(outbox[id], row)
    requires NewestOn(outbox, row.key).Some?
    ensures Chained(outbox[row.id := row], row.key) <==>
            exists d :: d in row.deps && d in outbox && Reaches(outbox, d, NewestOn(outbox, row.key).value)
  {
    var after, newest := outbox[row.id := row], NewestOn(outbox, row.key).value;
    assert newest in OnEntity(outbox, row.key) && InOrder(after, row.key, newest, row.id);
    if d :| d in row.deps && d in outbox && Reaches(outbox, d, newest) {
      forall a, b | InOrder(after, row.key, a, b)
        ensures DependsOn(after, b, a)
      {
        assert a in OnEntity(outbox, row.key);
        if b == row.id {
          NewestLeadsTo(outbox, row.key, d, newest, a);
          SubgraphReaches(outbox, after, d, a);
          assert Edge(after, b, d);
        } else {
          assert InOrder(outbox, row.key, a, b);
          SubgraphDepends(outbox, after, b, a);
        }
      }
    } else if DependsOn(after, row.id, newest) {
      var d :| Edge(after, row.id, d) && Reaches(after, d, newest);
      OldPath(outbox, row, d, newest);
    }
  }

  lemma NewestLeadsTo(outbox: map<OpId, Op>, k: Key, d: OpId, newest: OpId, a: OpId)
    requires Keyed(outbox) && Chained(outbox, k) && NewestOn(outbox, k) == Some(newest)
    requires a in OnEntity(outbox, k) && Reaches(outbox, d, newest)
    ensures Reaches(outbox, d, a)
  {
    if a != newest {
      assert InOrder(outbox, k, a, newest);
      DependsReaches(outbox, newest, a);
      ReachesTrans(outbox, d, newest, a);
    }
  }

  /** A commit under a fresh id keeps the chain of its entity if and only if it is not
      the deletion of a note whose document was edited last, or what the caller names
      leads to the newest operation on the note. */
  lemma CommitKeepsChain(db: Db, m: Mutation)
    requires Keyed(db.outbox) && Chained(db.outbox, m.key) && Younger(db.outbox, m)
    requires Commit(db, m).Ok? && m.op !in db.outbox && forall x | x in db.outbox :: m.op !in db.outbox[x].deps
    requires DocumentsLeadToDocuments(db.outbox) && OrdinaryType(m.key.kind)
    ensures Chained(Commit(db, m).value.outbox, m.key) <==> LeadsToNewest(db.outbox, m)
  {
    CommitCases(db, m);
    AddedChained(db, m);
  }

  lemma AddedChained(db: Db, m: Mutation)
    requires Keyed(db.outbox) && Chained(db.outbox, m.key) && Younger(db.outbox, m)
    requires CommitDeps(db, m).Ok? && m.op !in db.outbox && forall x | x in db.outbox :: m.op !in db.outbox[x].deps
    requires m.op !in m.deps && DocumentsLeadToDocuments(db.outbox) && OrdinaryType(m.key.kind)
    ensures Chained(Added(db, m, CommitDeps(db, m).value).outbox, m.key) <==> LeadsToNewest(db.outbox, m)
  {
    var row := QueuedOp(m, CommitDeps(db, m).value);
    assert Added(db, m, row.deps).outbox == db.outbox[row.id := row];
    if NewestOn(db.outbox, m.key).Some? {
      StoredDeps(db, m);
      AdditionChained(db.outbox, row);
      DepsLeadToNewest(db, m);
    } else {
      FirstIsChained(db.outbox, row);
    }
  }

  lemma FirstIsChained(outbox: map<OpId, Op>, row: Op)
    requires NewestOn(outbox, row.key).None?
    ensures Chained(outbox[row.id := row], row.key)
  {
    assert forall id | id in outbox && outbox[id].key == row.key :: id in OnEntity(outbox, row.key);
  }

  /** The stored dependencies lead to the newest operation just when the caller's do
      or the predecessor is not a document update. */
  lemma DepsLeadToNewest(db: Db, m: Mutation)
    requires Keyed(db.outbox) && CommitDeps(db, m).Ok? && m.op !in db.outbox
    requires NewestOn(db.outbox, m.key).Some?
    requires DocumentsLeadToDocuments(db.outbox) && OrdinaryType(m.key.kind)
    ensures (exists d :: d in CommitDeps(db, m).value && d in db.outbox
                         && Reaches(db.outbox, d, NewestOn(db.outbox, m.key).value))
            <==> LeadsToNewest(db.outbox, m)
  {
    var newest := NewestOn(db.outbox, m.key).value;
    assert newest in OnEntity(db.outbox, m.key);
    PredecessorIs(db.outbox, m);
    StoredDeps(db, m);
    var p := Predecessor(db.outbox, m).value;
    if DocumentIsNewer(db.outbox, m, newest) {
      DocumentsMissNotes(db.outbox, p, newest);
    } else {
      ReachesSelf(db.outbox, p);
    }
  }

  lemma DocumentsMissNotes(outbox: map<OpId, Op>, u: OpId, id: OpId)
    requires DocumentsLeadToDocuments(outbox) && u in outbox && outbox[u].key.kind.DocUpdate?
    requires id in outbox && !outbox[id].key.kind.DocUpdate?
    ensures !Reaches(outbox, u, id)
  {
    forall path | IsPath(outbox, path) && path[0] == u
      ensures path[|path| - 1] != id
    {
      DocumentsReachDocuments(outbox, path);
    }
  }

  // Answers

  /** The server applies an operation only after those it depends on. */
  ghost predicate Respects(outbox: map<OpId, Op>, batch: seq<Op>, results: seq<OpResult>)
    requires |batch| == |results|
  {
    Closed(outbox, Outbox.AckedIds(batch, results))
  }

  lemma AnswerLinked(s: System, results: seq<OpResult>, k: Key)
    requires Inv(s) && s.sent.Some? && Linked(s.db.outbox, k)
    requires |results| == |s.sent.value.batch| ==> Respects(s.db.outbox, s.sent.value.batch, results)
    ensures Linked(Answer(s, results).db.outbox, k)
  {
    var batch := s.sent.value.batch;
    var sealed := s.db.(vault := Push.SealRemotes(s.db.vault, results));
    if Push.Reply(sealed, batch, results).Ok? {
      var gone := Outbox.AckedIds(batch, results);
      Outbox.FoldOutbox(sealed, batch, results);
      RemovalLinked(s.db.outbox, gone, k);
      SameGraphLinked(s.db.outbox - gone, Answer(s, results).db.outbox, k);
    }
  }

  lemma ShrinksIsSameGraph(before: map<OpId, Op>, after: map<OpId, Op>, k: Key)
    requires Outbox.Shrinks(before, after, {}) && Linked(before, k)
    ensures Linked(after, k)
  {
    SameGraphLinked(before, after, k);
  }

  // Resolutions

  /** The operations a resolution leaves on the entity are neighbours already, or the
      later names the earlier. */
  predicate ClosesUp(outbox: map<OpId, Op>, c: ConflictRow) {
    forall a, b | a in outbox && b in outbox && InOrder(outbox, c.key, a, b)
                  && !Resilience.Discarded(c, outbox[a]) && !Resilience.Discarded(c, outbox[b])
                  && (forall x | x in Between(outbox, c.key, a, b) :: Resilience.Discarded(c, outbox[x])) ::
      Between(outbox, c.key, a, b) == {} || a in outbox[b].deps
  }

  /** Taking the remote side silently keeps the rest linked if and only if it does not
      take an operation out from between two that stay, or the later of these names
      the earlier. */
  lemma AcceptanceKeepsLinks(outbox: map<OpId, Op>, c: ConflictRow)
    requires Linked(outbox, c.key)
    ensures Linked(Resilience.RemoveRelated(outbox, c), c.key) <==> ClosesUp(outbox, c)
  {
    var gone := set id | id in outbox && Resilience.Discarded(c, outbox[id]);
    assert Resilience.RemoveRelated(outbox, c) == outbox - gone;
    RemovalLinkedExactly(outbox, gone, c.key);
  }

  /** A resolution of another entity's conflict does not touch the entity. */
  lemma OtherResolutionLinked(s: System, r: Resilience.Request, k: Key)
    requires Inv(s) && Fresh(s, r.op) && Resilience.Resolve(s.db, r).Ok? && OrdinaryType(k.kind)
    requires Linked(s.db.outbox, k) && s.db.conflicts[r.conflict].key != k
    ensures Linked(Resilience.Resolve(s.db, r).value.outbox, k)
  {
    var after := Resilience.Resolve(s.db, r).value.outbox;
    Outbox.ResolveOutbox(s.db, r);
    OthersKeep(s.db.outbox, s.db.conflicts[r.conflict], k);
    if r.op in after && r.op !in s.db.outbox {
      OtherAdditionLinked(Resilience.RemoveRelated(s.db.outbox, s.db.conflicts[r.conflict]), after[r.op], k);
      assert after == Resilience.RemoveRelated(s.db.outbox, s.db.conflicts[r.conflict])[r.op := after[r.op]];
    } else {
      assert after == Resilience.RemoveRelated(s.db.outbox, s.db.conflicts[r.conflict]);
    }
  }

  lemma OthersKeep(outbox: map<OpId, Op>, c: ConflictRow, k: Key)
    requires OrdinaryType(k.kind) && c.key != k && Linked(outbox, k)
    ensures Linked(Resilience.RemoveRelated(outbox, c), k)
  {
    assert OnEntity(Resilience.RemoveRelated(outbox, c), k) == OnEntity(outbox, k);
    UntouchedLinked(outbox, Resilience.RemoveRelated(outbox, c), k);
  }

  /** Nothing but what the resolution discards is queued on the entity. */
  predicate DiscardsAll(outbox: map<OpId, Op>, c: ConflictRow) {
    forall id | id in outbox && outbox[id].key == c.key :: Resilience.Discarded(c, outbox[id])
  }

  /** What a resolution of the entity's own conflict must find. */
  predicate KeepsLinks(outbox: map<OpId, Op>, c: ConflictRow, r: Resilience.Request) {
    if Resilience.Silent(c, r) then ClosesUp(outbox, c) else DiscardsAll(outbox, c)
  }

  lemma OwnResolutionLinked(db: Db, r: Resilience.Request)
    requires Resilience.Resolve(db, r).Ok? && Linked(db.outbox, db.conflicts[r.conflict].key)
    requires KeepsLinks(db.outbox, db.conflicts[r.conflict], r)
    ensures Linked(Resilience.Resolve(db, r).value.outbox, db.conflicts[r.conflict].key)
  {
    var c, after := db.conflicts[r.conflict], Resilience.Resolve(db, r).value.outbox;
    if Resilience.Silent(c, r) {
      AcceptanceKeepsLinks(db.outbox, c);
    } else {
      assert forall a | a in after && after[a].key == c.key :: a == r.op;
    }
  }

  /** Queueing a resolution keeps the chain, and the links, if and only if nothing else stays queued
      on the entity: the new operation depends on nothing, and nothing depends on it. */
  lemma ResolutionStartsNewChain(s: System, r: Resilience.Request, chosen: Payload)
    requires Inv(s) && Resilience.Admissible(s.db, r) && r.op !in s.history
    ensures var c := s.db.conflicts[r.conflict];
            var t := Resilience.Requeue(s.db, c, r, chosen);
            && (Chained(t.outbox, c.key) <==> DiscardsAll(s.db.outbox, c))
            && (Linked(t.outbox, c.key) <==> DiscardsAll(s.db.outbox, c))
  {
    var c := s.db.conflicts[r.conflict];
    var t := Resilience.Requeue(s.db, c, r, chosen);
    if id :| id in s.db.outbox && s.db.outbox[id].key == c.key && !Resilience.Discarded(c, s.db.outbox[id]) {
      assert id in t.outbox && t.outbox[id] == s.db.outbox[id];
      NothingDependsOn(s, t.outbox, r.op, id);
      UnlinkedIsNoChain(t.outbox, c.key, id, r.op);
      if Linked(t.outbox, c.key) { AllLinkedIsChained(t.outbox, c.key); }
    } else {
      assert forall id | id in t.outbox && t.outbox[id].key == c.key :: id == r.op;
    }
  }

  lemma UnlinkedIsNoChain(outbox: map<OpId, Op>, k: Key, a: OpId, b: OpId)
    requires a in outbox && b in outbox && a != b && outbox[a].key == k && outbox[b].key == k
    requires outbox[a].id == a && outbox[b].id == b
    requires outbox[b].deps == [] && !DependsOn(outbox, a, b)
    ensures !Chained(outbox, k)
  {
    assert forall d :: !Edge(outbox, b, d);
    assert InOrder(outbox, k, a, b) || InOrder(outbox, k, b, a);
  }

  lemma NothingDependsOn(s: System, outbox: map<OpId, Op>, op: OpId, id: OpId)
    requires Inv(s) && op !in s.history && op in outbox && outbox[op].deps == []
    requires forall x | x in outbox && x != op :: x in s.db.outbox && outbox[x] == s.db.outbox[x]
    ensures !DependsOn(outbox, id, op)
  {
    assert forall x :: !Edge(outbox, x, op);
    forall d, path | Edge(outbox, id, d) && IsPath(outbox, path) && path[0] == d
      ensures path[|path| - 1] != op
    {
      if |path| > 1 {
        assert Edge(outbox, path[|path| - 2], path[|path| - 1]);
      }
    }
  }

  // Runs

  /** Mutations of the entity grow younger and name what NamesNewest asks for, answers
      respect dependencies, and conflicts of the entity itself are resolved when that
      leaves no gap. Conflicts of other entities may be resolved in any way. */
  ghost predicate Orderly(s: System, e: Event, k: Key)
  {
    match e
    case Mutate(m) => m.key == k ==> Younger(s.db.outbox, m) && NamesNewest(s.db.outbox, m)
    case MutateProtected(m, _) => m.key == k ==> Younger(s.db.outbox, m) && NamesNewest(s.db.outbox, m)
    case PushAnswered(results) =>
      s.sent.Some? && |results| == |s.sent.value.batch| ==> Respects(s.db.outbox, s.sent.value.batch, results)
    case Resolve(r) =>
      Resilience.Resolve(s.db, r).Ok? && s.db.conflicts[r.conflict].key == k ==>
        KeepsLinks(s.db.outbox, s.db.conflicts[r.conflict], r)
    case _ => true
  }

  lemma LocalKeepsLinks(s: System, e: Event, k: Key)
    requires Inv(s) && Allowed(s, e) && Orderly(s, e, k) && OrdinaryType(k.kind) && Linked(s.db.outbox, k) && IsLocal(e)
    ensures Linked(Effect(s, e).db.outbox, k)
  {
    if e.Mutate? {
      CommitLinked(s.db, e.mutation, k);
      MutateOutbox(s, e.mutation);
    } else if e.MutateProtected? {
      ProtectedLinked(s.db, e.protected, e.body, k);
      MutateProtectedOutbox(s, e.protected, e.body);
    } else if e.EditNote? {
      EditLinked(s.db, e.prepared, k);
      EditOutbox(s, e.prepared);
    } else {
      ResolveKeepsLinks(s, e.request, k);
      ResolveOutbox(s, e.request);
    }
  }

  lemma MutateOutbox(s: System, m: Mutation)
    ensures Effect(s, Mutate(m)).db.outbox == Or(Commit(s.db, m), s.db).outbox
  {
    IssuesTables(s, Or(Commit(s.db, m), s.db), m.op);
  }

  lemma IssuesTables(s: System, db: Db, op: OpId)
    ensures Issue(s, db, op).db == db
  {
  }

  lemma MutateProtectedOutbox(s: System, m: Mutation, body: Payload)
    ensures Effect(s, MutateProtected(m, body)).db.outbox == ProtectedCommit(s.db, m, body).0.outbox
  {
    IssuesTables(s, ProtectedCommit(s.db, m, body).0, m.op);
  }

  lemma EditOutbox(s: System, p: NoteEdits.Prepared)
    ensures Effect(s, EditNote(p)).db.outbox == Or(NoteEdits.CommitEdit(s.db, p), s.db).outbox
  {
    IssuesTables(s, Or(NoteEdits.CommitEdit(s.db, p), s.db), p.op.id);
  }

  lemma ResolveOutbox(s: System, r: Resilience.Request)
    ensures Effect(s, Resolve(r)).db.outbox == Or(Resilience.Resolve(s.db, r), s.db).outbox
  {
    IssuesTables(s.(history := SettleRemoved(s, r)), Or(Resilience.Resolve(s.db, r), s.db), r.op);
  }

  lemma ResolveKeepsLinks(s: System, r: Resilience.Request, k: Key)
    requires Inv(s) && Allowed(s, Resolve(r)) && Orderly(s, Resolve(r), k) && OrdinaryType(k.kind) && Linked(s.db.outbox, k)
    ensures Linked(Or(Resilience.Resolve(s.db, r), s.db).outbox, k)
  {
    if Resilience.Resolve(s.db, r).Ok? {
      if s.db.conflicts[r.conflict].key == k {
        OwnResolutionLinked(s.db, r);
      } else {
        OtherResolutionLinked(s, r, k);
      }
    }
  }

  lemma EventKeepsLinks(s: System, e: Event, k: Key)
    requires Inv(s) && Allowed(s, e) && Orderly(s, e, k) && OrdinaryType(k.kind) && Linked(s.db.outbox, k)
    ensures Linked(Next(s, e).db.outbox, k)
  {
    if IsLocal(e) {
      LocalKeepsLinks(s, e, k);
    } else if e.PushAnswered? {
      AnswerLinked(s, e.results, k);
    } else if e.PullAnswered? {
      Outbox.PageShrinks(s, e.page);
      ShrinksIsSameGraph(s.db.outbox, Effect(s, e).db.outbox, k);
    } else if e.StageChunk? {
      Outbox.ChunkShrinks(s, e.chunk);
      ShrinksIsSameGraph(s.db.outbox, Effect(s, e).db.outbox, k);
    } else {
      OutboxUntouched(s, e);
    }
  }

  ghost predicate OrderlyRun(s: System, events: seq<Event>, t: System, k: Key)
    decreases |events|
  {
    if events == [] then t == s else
      Allowed(s, events[0]) && Orderly(s, events[0], k) && OrderlyRun(Next(s, events[0]), events[1..], t, k)
  }

  lemma {:induction false} RunKeepsLinks(s: System, events: seq<Event>, t: System, k: Key)
    requires Inv(s) && OrdinaryType(k.kind) && Linked(s.db.outbox, k) && OrderlyRun(s, events, t, k)
    ensures Inv(t) && Linked(t.db.outbox, k)
    decreases |events|
  {
    if events != [] {
      EventKeepsInv(s, events[0]);
      EventKeepsLinks(s, events[0], k);
      RunKeepsLinks(Next(s, events[0]), events[1..], t, k);
    }
  }

  /** Every request lists the operations of an entity in commit order: of two of them
      the older stands first, provided the device owns those queued between them. */
  lemma RequestsKeepEntityOrder(s: System, events: seq<Event>, t: System, k: Key, listing: seq<Op>, i: nat, j: nat)
    requires Untouched(s) && OrdinaryType(k.kind) && OrderlyRun(s, events, t, k)
    requires Allowed(t, SendPush(listing)) && i < |Batch(listing)| && j < |Batch(listing)|
    requires InOrder(t.db.outbox, k, Batch(listing)[i].id, Batch(listing)[j].id)
    requires forall x | x in Between(t.db.outbox, k, Batch(listing)[i].id, Batch(listing)[j].id) ::
               t.db.outbox[x].device == Device(t)
    ensures i < j
  {
    UntouchedInv(s);
    RunKeepsLinks(s, events, t, k);
    var a, b := Batch(listing)[i], Batch(listing)[j];
    assert a == listing[i] && b == listing[j];
    LinkedIsEarlier(t.db.outbox, k, Device(t), listing, a.id, j);
    var i' :| 0 <= i' < j && listing[i'].id == a.id;
    assert i' == i;
  }
}
