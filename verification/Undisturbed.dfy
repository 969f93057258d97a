/**
 Runs that need no care: commits, edits, pushes with lost and repeated answers, pulls,
 resolutions told to the server, and snapshots as far as they are the first one or of a
 new epoch.
 */
module Undisturbed {
  import opened Types
  import opened Runs
  import opened Chains
  import opened ServerLog
  import opened Convergence
  import opened Rebootstrap
  import opened Replication
  import Bootstrap
  import Manifests
  import Resilience

  predicate Undisturbing(w: World, m: Move) {
    match m
    case Client(Resolve(r)) =>
      Resilience.Resolve(w.s.db, r).Ok? ==> !Resilience.Silent(w.s.db.conflicts[r.conflict], r)
    case Client(StageChunk(c)) =>
      Activates(w.s.db, c, c.device) ==> w.s.db.sync.None? || Bootstrap.EpochChanged(w.s.db.sync, c.epoch)
    case _ => true
  }

  predicate AllUndisturbing(w: World, moves: seq<Move>)
    decreases |moves|
  {
    moves != [] ==> Undisturbing(w, moves[0]) && AllUndisturbing(Play(w, moves[0]), moves[1..])
  }

  /** What is queued and in the log has been sent, and nothing is sent before the first snapshot. */
  ghost predicate SentFirst(w: World) {
    && (w.s.db.sync.None? ==> w.requested == {})
    && forall id, ch | id in w.s.db.outbox && ch in w.log && ch.op == id :: id in w.requested
  }

  lemma SentFirstStays(w: World, m: Move)
    requires WorldInv(w, {}) && SentFirst(w) && Plays(w, m)
    ensures SentFirst(Play(w, m))
  {
    if m.Client? {
      CursorStays(w, m.event, {});
      forall id, ch | id in Effect(w.s, m.event).db.outbox && ch in w.log && ch.op == id
        ensures id in w.requested
      {
        if id !in w.s.db.outbox { NewIsUnlogged(w, m.event, id); }
      }
    }
  }

  /** Nothing that is queued when the first snapshot is taken over has been sent. */
  lemma FirstSwitchIsSafe(w: World, c: Chunk)
    requires WorldInv(w, {}) && SentFirst(w) && Plays(w, Client(StageChunk(c))) && w.s.db.sync.None?
    ensures var t := Play(w, Client(StageChunk(c))); OnCourse(t.s.db.entities, t.s.db.outbox, Stand(t, {}))
  {
    var t := Play(w, Client(StageChunk(c)));
    ServedChunk(w.published, w.log, w.head, c);
    StageSwitches(w.s.db, w.published, w.log, w.head, c);
    NoneLogged(w);
    UnloggedIsSafe(t.s.db.entities, t.s.db.outbox, Stand(t, {}));
  }

  lemma NoneLogged(w: World)
    requires SentFirst(w) && w.s.db.sync.None?
    ensures forall id, cursor | id in w.s.db.outbox :: !Logged(w.log, id, cursor)
  {
  }

  lemma UnloggedIsSafe(entities: map<Key, Entity>, outbox: map<OpId, Op>, p: Position)
    requires forall id | id in outbox :: !Logged(p.log, id, p.cursor)
    ensures OnCourse(entities, outbox, p)
  {
    forall k
      ensures !AtRisk(outbox, p, k)
    {
      if id :| id in OnEntity(outbox, k) {
        assert !Logged(p.log, id, p.cursor);
      }
    }
  }

  lemma EpochSwitchIsSafe(w: World, c: Chunk)
    requires StoreInv(w) && Keyed(w.s.db.outbox) && Plays(w, Client(StageChunk(c)))
    requires Activates(w.s.db, c, c.device) && Bootstrap.EpochChanged(w.s.db.sync, c.epoch)
    ensures var t := Play(w, Client(StageChunk(c))); OnCourse(t.s.db.entities, t.s.db.outbox, Stand(t, {}))
  {
    EpochIsSafe(w.s.db, w.published, w.log, w.head, c, Stand(Play(w, Client(StageChunk(c))), {}));
  }

  lemma EpochIsSafe(db: Db, published: Published, log: seq<Change>, head: nat, c: Chunk, p: Position)
    requires Keyed(db.outbox) && Manifests.StagingOk(db) && Served(db.manifests, published)
    requires AllPublished(published, log, head) && IsServed(published, c)
    requires Activates(db, c, c.device) && Bootstrap.EpochChanged(db.sync, c.epoch)
    ensures OnCourse(Bootstrap.Stage(db, c, c.device).entities, Bootstrap.Stage(db, c, c.device).outbox, p)
  {
    ServedChunk(published, log, head, c);
    StageSwitches(db, published, log, head, c);
    NewEpochIsSafe(db, p, published[c.snapshot]);
  }

  lemma UndisturbingStays(w: World, m: Move)
    requires WorldInv(w, {}) && SentFirst(w) && Plays(w, m) && Undisturbing(w, m)
    ensures StaysOnCourse(w, m, {})
  {
    if m.Client? && m.event.StageChunk? && Activates(w.s.db, m.event.chunk, m.event.chunk.device) {
      if w.s.db.sync.None? {
        FirstSwitchIsSafe(w, m.event.chunk);
      } else {
        EpochSwitchIsSafe(w, m.event.chunk);
      }
    }
  }

  lemma {:induction false} UndisturbedIsOnCourse(w: World, moves: seq<Move>, w': World)
    requires WorldInv(w, {}) && SentFirst(w) && Unfolds(w, moves, w') && AllUndisturbing(w, moves)
    ensures AllOnCourse(w, moves, {})
    decreases |moves|
  {
    if moves != [] {
      UndisturbingStays(w, moves[0]);
      MoveKeepsInv(w, moves[0], {});
      SentFirstStays(w, moves[0]);
      UndisturbedIsOnCourse(Play(w, moves[0]), moves[1..], w');
    }
  }

  /** Such a replica converges from a blank database, whatever was queued before its first
      snapshot: nothing is asked of the replica's state at any time. */
  lemma UndisturbedConverges(w: World, moves: seq<Move>, w': World, k: Key)
    requires Blank(w) && Unfolds(w, moves, w') && AllUndisturbing(w, moves) && Plain(k)
    ensures var cursor := Cursor(w'.s.db);
            && (Last(w'.log, k, cursor).Some? ==> k in w'.s.db.entities)
            && (k in w'.s.db.entities && w'.s.db.entities[k].status.Clean? && AcksPassed(w'.s.history, k, cursor) ==>
                  Last(w'.log, k, cursor).Some? && Matches(w'.s.db.entities[k], Last(w'.log, k, cursor).value))
  {
    BlankInv(w);
    UndisturbedIsOnCourse(w, moves, w');
    ReplicaConverges(w, moves, w', k);
  }
}
