/**
 Every operation ever queued is accounted for, and dependencies only lead to
 operations queued earlier.
 */
module Ledger {
  import opened Types
  import opened Repository
  import opened Runs
  import opened Outbox
  import Scheduler
  import Push
  import Pull
  import Resilience
  import NoteEdits

  /** An operation is in the outbox exactly when its entry says so. */
  ghost predicate Conserved(s: System) {
    && Keyed(s.db.outbox)
    && forall id :: id in s.db.outbox <==> id in s.history && s.history[id].fate.Queued?
  }

  /** The operations of an unanswered request are queued and waiting, unchanged. */
  ghost predicate SentIntact(s: System) {
    s.sent.Some? ==>
      var sent := s.sent.value;
      && Pull.CanResume(s.db.sync, sent.device) && CurrentEpoch(s.db) == Some(sent.epoch)
      && Scheduler.Distinct(sent.batch)
      && forall i | 0 <= i < |sent.batch| ::
           sent.batch[i].state.Waiting? && sent.batch[i].id in s.db.outbox
           && s.db.outbox[sent.batch[i].id] == sent.batch[i]
  }

  /** The entry of a new operation, and what it may depend on. */
  ghost predicate Recorded(s: System, entry: Entry, row: Op) {
    && entry == Entry(s.clock, CurrentEpoch(s.db), Queued)
    && row.state.Waiting?
    && forall d | d in row.deps :: d in s.history
  }

  /** Entries are never lost and settled ones never change. */
  ghost predicate Remembers(s: System, t: System) {
    && (forall id | id in s.history ::
          && id in t.history
          && t.history[id] == s.history[id].(fate := t.history[id].fate)
          && (!s.history[id].fate.Queued? ==> t.history[id] == s.history[id]))
    && (forall id | id in t.history && id !in s.history ::
          id in t.db.outbox && Recorded(s, t.history[id], t.db.outbox[id]))
  }

  /** A row that stays keeps its contents and never waits again. */
  ghost predicate KeepsRows(s: System, t: System) {
    && (forall id | id in t.db.outbox && id in s.history :: id in s.db.outbox)
    && Evolves(s.db.outbox, t.db.outbox)
  }

  ghost predicate Advances(s: System, t: System) {
    Conserved(t) && Remembers(s, t) && KeepsRows(s, t)
  }

  lemma QueueingConserves(base: System, db: Db, op: OpId, known: set<OpId>)
    requires Conserved(base)
    requires Gains(base.db.outbox, db.outbox, op, known)
    requires op in db.outbox && op !in base.db.outbox ==> op !in base.history
    ensures Conserved(Issue(base, db, op))
  {
  }

  lemma QueueingAdvances(s: System, db: Db, op: OpId, known: set<OpId>)
    requires Conserved(s) && known <= s.history.Keys
    requires Gains(s.db.outbox, db.outbox, op, known)
    requires op in s.db.outbox || op !in s.history
    ensures Advances(s, Issue(s, db, op))
  {
    QueueingConserves(s, db, op, known);
  }

  /** Rows only change state, and the history stays. */
  lemma QuietAdvances(s: System, t: System)
    requires Conserved(s) && t.history == s.history && Shrinks(s.db.outbox, t.db.outbox, {})
    ensures Advances(s, t)
  {
    assert forall id :: id in t.db.outbox <==> id in s.db.outbox;
  }

  lemma AnswerAdvances(s: System, results: seq<OpResult>)
    requires Conserved(s) && SentIntact(s) && s.sent.Some?
    ensures Advances(s, Answer(s, results))
  {
    var batch := s.sent.value.batch;
    var sealed := s.db.(vault := Push.SealRemotes(s.db.vault, results));
    var t := Answer(s, results);
    if Push.Reply(sealed, batch, results).Ok? {
      FoldOutbox(sealed, batch, results);
      AckedInBatch(batch, results);
      assert Shrinks(s.db.outbox, t.db.outbox, AckedIds(batch, results));
      forall id
        ensures id in t.history <==> id in s.history
        ensures id in s.history ==> t.history[id] == s.history[id].(fate := t.history[id].fate)
        ensures id in AckedIds(batch, results) ==> id in s.db.outbox
        ensures id in s.history ==> if id in AckedIds(batch, results) then t.history[id].fate.Acknowledged?
                                    else t.history[id] == s.history[id]
      {
        SettledAcked(s.history, batch, results, id);
      }
      SettlingAdvances(s, t, AckedIds(batch, results));
    } else {
      QuietAdvances(s, t);
    }
  }

  /** Rows leave, and their entries are settled. */
  lemma SettlingAdvances(s: System, t: System, gone: set<OpId>)
    requires Conserved(s) && Shrinks(s.db.outbox, t.db.outbox, gone)
    requires forall id :: id in t.history <==> id in s.history
    requires forall id | id in s.history :: t.history[id] == s.history[id].(fate := t.history[id].fate)
    requires forall id | id in gone :: id in s.db.outbox
    requires forall id | id in s.history ::
               if id in gone then !t.history[id].fate.Queued? else t.history[id] == s.history[id]
    ensures Advances(s, t)
  {
    assert forall id :: id in t.db.outbox <==> id in s.db.outbox && id !in gone;
  }

  lemma RemovalAdvances(s: System, r: Resilience.Request)
    requires Conserved(s) && Resilience.Resolve(s.db, r).Ok?
    ensures var c := s.db.conflicts[r.conflict];
            Advances(s, s.(db := s.db.(outbox := Resilience.RemoveRelated(s.db.outbox, c)),
                           history := SettleRemoved(s, r)))
  {
    var c := s.db.conflicts[r.conflict];
    var t := s.(db := s.db.(outbox := Resilience.RemoveRelated(s.db.outbox, c)), history := SettleRemoved(s, r));
    var gone := set id | id in s.db.outbox && Resilience.Discarded(c, s.db.outbox[id]);
    assert forall id :: id in t.db.outbox <==> id in s.db.outbox && id !in gone;
    SettlingAdvances(s, t, gone);
  }

  lemma AdvancesTrans(a: System, b: System, c: System)
    requires Conserved(a) && Advances(a, b) && Advances(b, c)
    requires b.clock == a.clock && CurrentEpoch(b.db) == CurrentEpoch(a.db)
    requires forall id :: id in b.history <==> id in a.history
    ensures Advances(a, c)
  {
    forall id | id in a.db.outbox && id in c.db.outbox
      ensures id in b.db.outbox
    {
      assert id in b.history;
    }
  }

  lemma ResolveAdvances(s: System, r: Resilience.Request)
    requires Conserved(s) && Fresh(s, r.op) && Resilience.Resolve(s.db, r).Ok?
    ensures Advances(s, Effect(s, Resolve(r)))
  {
    var c := s.db.conflicts[r.conflict];
    var base := s.(db := s.db.(outbox := Resilience.RemoveRelated(s.db.outbox, c)), history := SettleRemoved(s, r));
    RemovalAdvances(s, r);
    var db := Resilience.Resolve(s.db, r).value;
    ResolveOutbox(s.db, r);
    var t := Effect(s, Resolve(r));
    assert t == Issue(base, db, r.op);
    if r.op in s.db.outbox {
      assert db.outbox == base.db.outbox;
      QuietAdvances(base, t);
    } else {
      QueueingAdvances(base, db, r.op, {});
    }
    AdvancesTrans(s, base, t);
  }

  lemma LocalAdvances(s: System, e: Event)
    requires Conserved(s) && Allowed(s, e)
    requires e.Mutate? || e.MutateProtected? || e.EditNote? || e.Resolve?
    ensures Advances(s, Effect(s, e))
  {
    match e {
      case Mutate(m) =>
        CommitGains(s.db, m);
        QueueingAdvances(s, Or(Commit(s.db, m), s.db), m.op, set d | d in m.deps);
      case MutateProtected(m, body) =>
        ProtectedGains(s.db, m, body);
        QueueingAdvances(s, ProtectedCommit(s.db, m, body).0, m.op, set d | d in m.deps);
      case EditNote(p) =>
        EditGains(s.db, p);
        QueueingAdvances(s, Or(NoteEdits.CommitEdit(s.db, p), s.db), p.op.id, set d | d in p.op.deps);
      case Resolve(r) =>
        if Resilience.Resolve(s.db, r).Ok? {
          ResolveAdvances(s, r);
        } else {
          QueueingAdvances(s, s.db, r.op, {});
        }
    }
  }

  lemma PageAdvances(s: System, page: Page)
    requires Conserved(s)
    ensures Advances(s, Effect(s, PullAnswered(page)))
  {
    PageShrinks(s, page);
    QuietAdvances(s, Effect(s, PullAnswered(page)));
  }

  lemma ChunkAdvances(s: System, c: Chunk)
    requires Conserved(s)
    ensures Advances(s, Effect(s, StageChunk(c)))
  {
    ChunkShrinks(s, c);
    QuietAdvances(s, Effect(s, StageChunk(c)));
  }

  lemma RemoteAdvances(s: System, e: Event)
    requires Conserved(s) && SentIntact(s) && Allowed(s, e)
    requires e.PushAnswered? || e.PullAnswered? || e.StageChunk? || e.PrepareDevice? || e.DiscardStaging?
    ensures Advances(s, Effect(s, e))
  {
    match e {
      case PushAnswered(results) => AnswerAdvances(s, results);
      case PullAnswered(page) => PageAdvances(s, page);
      case StageChunk(c) => ChunkAdvances(s, c);
      case PrepareDevice(_, _, _) => QuietAdvances(s, Effect(s, e));
      case DiscardStaging(_, _) => QuietAdvances(s, Effect(s, e));
    }
  }

  lemma QuietEventAdvances(s: System, e: Event)
    requires Conserved(s)
    requires e.DismissConflict? || e.RecordConflict? || e.SendPush? || e.PushLost? || e.PushControl? || e.PullControl?
    ensures Advances(s, Effect(s, e))
  {
    QuietAdvances(s, Effect(s, e));
  }

  /** One event in the life of the outbox, whatever the event. */
  lemma EventAdvances(s: System, e: Event)
    requires Conserved(s) && SentIntact(s) && Allowed(s, e)
    ensures Advances(s, Effect(s, e))
  {
    if e.Mutate? || e.MutateProtected? || e.EditNote? || e.Resolve? {
      LocalAdvances(s, e);
    } else if e.PushAnswered? || e.PullAnswered? || e.StageChunk? || e.PrepareDevice? || e.DiscardStaging? {
      RemoteAdvances(s, e);
    } else {
      QuietEventAdvances(s, e);
    }
  }
}
