/**
 Snapshots a server publishes of its log, and what taking one over does to a
 replica that has work queued.
 */
module Rebootstrap {
  import opened Types
  import opened Bootstrap
  import opened ServerLog
  import opened Convergence
  import opened Manifests
  import opened Snapshots
  import Runs
  import Chains

  type Published = map<SnapshotId, seq<Chunk>>

  predicate DescribesChange(r: Record, ch: Change) {
    && r.version == ch.serverVersion && r.payloadHash == ch.payloadHash
    && r.deletedAt == ch.deletedAt && r.payload == ch.payload
  }

  /** A snapshot that shows the log as it is at the snapshot's cursor. */
  ghost predicate SnapshotOf(chunks: seq<Chunk>, log: seq<Change>) {
    && ValidSnapshot(chunks)
    && (forall k | Plain(k) :: k in DescribedKeys(chunks) <==> Last(log, k, chunks[0].cursor).Some?)
    && (forall k | k in DescribedKeys(chunks) && Plain(k) ::
          DescribesChange(RecordOf(chunks, k), Last(log, k, chunks[0].cursor).value))
  }

  /** Snapshots keep their id, and lie at or below the end of the log. */
  ghost predicate AllPublished(published: Published, log: seq<Change>, head: nat) {
    forall id | id in published ::
      SnapshotOf(published[id], log) && published[id][0].snapshot == id && published[id][0].cursor <= head
  }

  ghost predicate From(r: Received, chunks: seq<Chunk>) {
    r.index < |chunks| && r == Received(r.index, chunks[r.index].chunkChecksum)
  }

  /** What is being staged comes from the published snapshots. */
  ghost predicate Served(manifests: map<SnapshotId, Manifest>, published: Published) {
    forall id | id in manifests && !manifests[id].complete ::
      && id in published && manifests[id].count == |published[id]|
      && forall r | r in manifests[id].received :: From(r, published[id])
  }

  predicate IsServed(published: Published, c: Chunk) {
    c.snapshot in published && c in published[c.snapshot]
  }

  lemma {:induction false} ServedChunk(published: Published, log: seq<Change>, head: nat, c: Chunk)
    requires AllPublished(published, log, head) && IsServed(published, c)
    ensures var chunks := published[c.snapshot];
            && ValidSnapshot(chunks) && c.index < |chunks| && chunks[c.index] == c && c.count == |chunks|
            && c.snapshot == chunks[0].snapshot && c.device == chunks[0].device && c.epoch == chunks[0].epoch
            && c.cursor == chunks[0].cursor && Verify(c, c.device).Ok?
  {
    var chunks := published[c.snapshot];
    var i :| 0 <= i < |chunks| && chunks[i] == c;
    assert SameSnapshot(chunks, i);
  }

  /** The received list of a snapshot that has just become full is that of the server. */
  lemma {:induction false} FullIsSums(received: seq<Received>, chunks: seq<Chunk>)
    requires StrictlySorted(received) && |received| == |chunks|
    requires forall r | r in received :: From(r, chunks)
    ensures received == Sums(chunks)
  {
    assert Below(received, |chunks|) by {
      assert forall i | 0 <= i < |received| :: received[i] in received;
    }
    forall i | 0 <= i < |chunks|
      ensures received[i] == Sums(chunks)[i]
    {
      Pigeonhole(received, |chunks|, i);
      assert received[i] in received;
    }
  }

  lemma NextIsServed(db: Db, published: Published, c: Chunk)
    requires Admitted(db, c) && Served(db.manifests, published) && IsServed(published, c)
    requires From(Received(c.index, c.chunkChecksum), published[c.snapshot])
    ensures forall r | r in NextManifest(Previous(db, c), c).received :: From(r, published[c.snapshot])
  {
    AdmittedBefore(db, c);
    InsertSorts(ReceivedSoFar(db, c), Received(c.index, c.chunkChecksum));
  }

  /** The staged rows of a snapshot that has just become full are its records. */
  lemma FullDescribes(db: Db, published: Published, log: seq<Change>, head: nat, c: Chunk)
    requires Admitted(db, c) && Served(db.manifests, published)
    requires AllPublished(published, log, head) && IsServed(published, c)
    requires |NextManifest(Previous(db, c), c).received| == c.count
    ensures Snapshot(db.staged + StagedRows(c), c.snapshot) == Described(published[c.snapshot])
  {
    var chunks := published[c.snapshot];
    ServedChunk(published, log, head, c);
    NextIsServed(db, published, c);
    AdmittedBefore(db, c);
    StoredManifest(db, c);
    FullIsSums(NextManifest(Previous(db, c), c).received, chunks);
    StoredRows(db, c);
    StagedDescribe(db.staged + StagedRows(c), chunks);
  }

  /** The tables of a view, as far as they are visible. */
  predicate Visible(db: Db, entities: map<Key, Entity>, outbox: map<OpId, Op>, sync: Option<SyncRow>) {
    db.entities == entities && db.outbox == outbox && db.sync == sync
  }

  ghost function After(db: Db, chunks: seq<Chunk>): View
    requires ValidSnapshot(chunks)
  {
    Switched(View(db.entities, db.outbox, db.sync, {}), chunks)
  }

  lemma PersistSwitches(db: Db, published: Published, log: seq<Change>, head: nat, c: Chunk)
    requires StagingOk(db) && Served(db.manifests, published)
    requires AllPublished(published, log, head) && IsServed(published, c)
    requires Persist(db, c).Ok? && Admit(db, c) == Ok(false) && |NextManifest(Previous(db, c), c).received| == c.count
    ensures ValidSnapshot(published[c.snapshot])
    ensures var v := After(db, published[c.snapshot]);
            Visible(Persist(db, c).value, v.entities, v.outbox, v.sync)
  {
    ServedChunk(published, log, head, c);
    FullDescribes(db, published, log, head, c);
    PersistActivates(db, c);
  }

  lemma PersistActivates(db: Db, c: Chunk)
    requires Persist(db, c).Ok?
    requires Admit(db, c) == Ok(false) && |NextManifest(Previous(db, c), c).received| == c.count
    ensures var t := Activate(db, c, db.staged + StagedRows(c));
            Visible(Persist(db, c).value, t.entities, t.outbox, t.sync)
  {
  }

  lemma PersistWaits(db: Db, c: Chunk)
    requires Persist(db, c).Ok?
    requires Admit(db, c) == Ok(true) || |NextManifest(Previous(db, c), c).received| != c.count
    ensures Visible(Persist(db, c).value, db.entities, db.outbox, db.sync)
  {
  }

  /** Staging a published chunk changes nothing visible, or switches to its snapshot. */
  lemma StageSwitches(db: Db, published: Published, log: seq<Change>, head: nat, c: Chunk)
    requires StagingOk(db) && Served(db.manifests, published)
    requires AllPublished(published, log, head) && IsServed(published, c)
    ensures ValidSnapshot(published[c.snapshot])
    ensures var t, v := Stage(db, c, c.device), After(db, published[c.snapshot]);
            if Runs.Activates(db, c, c.device) then Visible(t, v.entities, v.outbox, v.sync)
            else Visible(t, db.entities, db.outbox, db.sync)
  {
    ServedChunk(published, log, head, c);
    var sealed := db.(vault := SealRecords(db.vault, c.records));
    StagingOnly(db, sealed);
    if Persist(sealed, c).Ok? {
      if Runs.Activates(db, c, c.device) {
        PersistSwitches(sealed, published, log, head, c);
      } else {
        PersistWaits(sealed, c);
      }
    }
  }

  lemma PersistKeepsServed(db: Db, published: Published, log: seq<Change>, head: nat, c: Chunk)
    requires StagingOk(db) && Served(db.manifests, published)
    requires AllPublished(published, log, head) && IsServed(published, c) && Persist(db, c).Ok?
    ensures Served(Persist(db, c).value.manifests, published)
  {
    ServedChunk(published, log, head, c);
    if Admit(db, c) == Ok(false) {
      NextIsServed(db, published, c);
      PersistManifests(db, c);
    }
  }

  lemma PersistManifests(db: Db, c: Chunk)
    requires Persist(db, c).Ok? && Admit(db, c) == Ok(false)
    ensures var m, t := NextManifest(Previous(db, c), c), Persist(db, c).value.manifests;
            t == db.manifests[c.snapshot := m] || t == Finished(db.manifests, c, m)
  {
  }

  lemma StageKeepsServed(db: Db, published: Published, log: seq<Change>, head: nat, c: Chunk)
    requires StagingOk(db) && Served(db.manifests, published)
    requires AllPublished(published, log, head) && IsServed(published, c)
    ensures Served(Stage(db, c, c.device).manifests, published)
  {
    ServedChunk(published, log, head, c);
    var sealed := db.(vault := SealRecords(db.vault, c.records));
    StagingOnly(db, sealed);
    if Persist(sealed, c).Ok? {
      PersistKeepsServed(sealed, published, log, head, c);
    }
  }

  // Taking over a snapshot of the log

  lemma {:induction false} DescribedMatches(chunks: seq<Chunk>, log: seq<Change>, head: nat, k: Key)
    requires SnapshotOf(chunks, log) && LogOk(log, head) && Plain(k) && k in Described(chunks)
    ensures Last(log, k, chunks[0].cursor).Some?
    ensures Described(chunks)[k].status.Clean?
    ensures Matches(Described(chunks)[k], Last(log, k, chunks[0].cursor).value)
  {
    LastIs(log, head, k, chunks[0].cursor);
    var p :| p in Positions(chunks) && chunks[p.0].records[p.1].key == k && RecordOf(chunks, k) == chunks[p.0].records[p.1];
  }

  lemma {:induction false} SwitchConverges(db: Db, p: Position, head: nat, chunks: seq<Chunk>)
    requires LogOk(p.log, head) && SnapshotOf(chunks, p.log)
    ensures Converged(After(db, chunks).entities, At(p, chunks[0].cursor))
    ensures NothingMissed(After(db, chunks).entities, At(p, chunks[0].cursor))
  {
    forall k | k in After(db, chunks).entities && Plain(k) && After(db, chunks).entities[k].status.Clean?
      ensures Convergence.Shows(After(db, chunks).entities[k], At(p, chunks[0].cursor), k)
    {
      DescribedMatches(chunks, p.log, head, k);
    }
  }

  lemma {:induction false} SwitchBacksConflicts(db: Db, chunks: seq<Chunk>)
    requires ValidSnapshot(chunks) && ConflictsBacked(db.entities, db.outbox)
    ensures ConflictsBacked(After(db, chunks).entities, After(db, chunks).outbox)
  {
    var t := After(db, chunks);
    forall k, id | k in t.entities && Plain(k) && t.entities[k].status.Conflicted? && id in t.outbox && t.outbox[id].key == k
      ensures ConflictQueued(t.outbox, k)
    {
      assert k in DescribedKeys(chunks) ==> Described(chunks)[k].status.Clean?;
    }
  }

  /** A snapshot of a new epoch isolates everything queued: nothing is at risk. */
  lemma {:induction false} NewEpochIsSafe(db: Db, p: Position, chunks: seq<Chunk>)
    requires Keyed(db.outbox) && ValidSnapshot(chunks) && EpochChanged(db.sync, chunks[0].epoch)
    ensures Keyed(After(db, chunks).outbox)
    ensures OnCourse(After(db, chunks).entities, After(db, chunks).outbox, p)
  {
    var t := After(db, chunks);
    forall k
      ensures !AtRisk(t.outbox, p, k)
    {
      if id :| id in Chains.OnEntity(t.outbox, k) {
        assert !t.outbox[id].state.Waiting?;
      }
    }
  }

  /** Within an epoch nothing visible in the outbox changes. */
  lemma {:induction false} SwitchKeepsData(db: Db, p: Position, head: nat, chunks: seq<Chunk>)
    requires LogOk(p.log, head) && SnapshotOf(chunks, p.log) && ConflictsBacked(db.entities, db.outbox)
    requires OnCourse(After(db, chunks).entities, After(db, chunks).outbox, At(p, chunks[0].cursor))
    ensures var v := After(db, chunks);
            forall t: Db | Visible(t, v.entities, v.outbox, v.sync) :: Data(t, At(p, chunks[0].cursor))
  {
    SwitchConverges(db, p, head, chunks);
    SwitchBacksConflicts(db, chunks);
  }
}
