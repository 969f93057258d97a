/**
 Staging and activating snapshots on the database itself
 (packages/offline/src/bootstrap.ts:107-609).
 */
module BootstrapClient {
  import opened Types
  import opened Bootstrap
  import opened Tables

  /** The loops over a chunk's records: no entity twice, every digest right. */
  method CheckRecords(records: seq<Record>) returns (r: Result<()>)
    ensures (exists i, j | 0 <= i < j < |records| :: records[i].key == records[j].key) ==> r == Err(DuplicateEntity)
    ensures (forall i, j | 0 <= i < j < |records| :: records[i].key != records[j].key) ==>
              r == if forall i | 0 <= i < |records| :: records[i].payloadHash == Sha(records[i].payload) then Ok(())
                   else Err(RecordHashMismatch)
  {
    var seen: set<Key> := {};
    for n := 0 to |records|
      invariant forall i | 0 <= i < n :: records[i].key in seen
      invariant forall k | k in seen :: exists i :: 0 <= i < n && records[i].key == k
      invariant forall i, j | 0 <= i < j < n :: records[i].key != records[j].key
    {
      if records[n].key in seen {
        return Err(DuplicateEntity);
      }
      seen := seen + {records[n].key};
    }
    for n := 0 to |records|
      invariant forall i | 0 <= i < n :: records[i].payloadHash == Sha(records[i].payload)
    {
      if records[n].payloadHash != Sha(records[n].payload) {
        return Err(RecordHashMismatch);
      }
    }
    return Ok(());
  }

  method CheckChunk(c: Chunk, device: DeviceId) returns (r: Result<()>)
    ensures r == Verify(c, device)
  {
    if c.device != device || c.count <= c.index {
      return Err(ContextMismatch);
    }
    if c.chunkChecksum != ChunkSum(c.records) {
      return Err(ChunkHashMismatch);
    }
    r := CheckRecords(c.records);
    assert (exists x | x in c.records :: x.payloadHash != Sha(x.payload))
      <==> !forall i | 0 <= i < |c.records| :: c.records[i].payloadHash == Sha(c.records[i].payload);
  }

  lemma {:induction false} InsertedAt(received: seq<Received>, entry: Received, at: nat)
    requires at <= |received| && (forall i | 0 <= i < at :: received[i].index <= entry.index)
    requires at < |received| ==> entry.index < received[at].index
    ensures InsertReceived(received, entry) == received[..at] + [entry] + received[at..]
    decreases at
  {
    if at > 0 {
      var rest := received[1..];
      InsertedAt(rest, entry, at - 1);
      assert received[..at] == [received[0]] + rest[..at - 1];
      assert rest[at - 1..] == received[at..];
    }
  }

  /** Appending an entry and sorting: the entry moves left past every larger index. */
  method AddReceived(received: seq<Received>, entry: Received) returns (r: seq<Received>)
    ensures r == InsertReceived(received, entry)
  {
    var at := 0;
    while at < |received| && received[at].index <= entry.index
      invariant at <= |received| && forall i | 0 <= i < at :: received[i].index <= entry.index
    {
      at := at + 1;
    }
    InsertedAt(received, entry, at);
    r := received[..at] + [entry] + received[at..];
  }

  /** The loop that looks for a gap in the received chunks. */
  method CheckGaps(received: seq<Received>) returns (r: Result<()>)
    ensures r == if Gapless(received) then Ok(()) else Err(BootstrapInvalid)
  {
    for n := 0 to |received|
      invariant forall i | 0 <= i < n :: received[i].index == i
    {
      if received[n].index != n {
        return Err(BootstrapInvalid);
      }
    }
    return Ok(());
  }

  /** The staged rows that no local row stands in the way of. */
  function Arriving(staged: map<StagedKey, Staged>, snapshot: SnapshotId, preserved: map<Key, Entity>): map<Key, Entity> {
    map s | s in staged && s.snapshot == snapshot && s.key !in preserved :: s.key := ToEntity(staged[s].record)
  }

  lemma ArrivingIsEnough(staged: map<StagedKey, Staged>, snapshot: SnapshotId, preserved: map<Key, Entity>)
    ensures Arriving(staged, snapshot, preserved) + preserved == Snapshot(staged, snapshot) + preserved
  {
    var a, b := Arriving(staged, snapshot, preserved) + preserved, Snapshot(staged, snapshot) + preserved;
    forall k
      ensures k in a <==> k in b
      ensures k in a ==> a[k] == b[k]
    {
      if k in Snapshot(staged, snapshot) {
        assert StagedKey(snapshot, k) in staged;
      }
    }
  }

  lemma ActivateWrites(db: Db, c: Chunk)
    ensures var changed := EpochChanged(db.sync, c.epoch);
            var preserved := Preserved(db.entities, changed);
            Activate(db, c, db.staged) ==
            db.(entities := Arriving(db.staged, c.snapshot, preserved) + preserved,
                outbox := if changed then Isolate(db.outbox) else db.outbox,
                sync := Some(SyncRow(c.device, Some(c.epoch), c.cursor, Ready,
                                     if changed then Some(EpochMismatch)
                                     else if db.sync.Some? then db.sync.value.isolation else None)))
  {
    ArrivingIsEnough(db.staged, c.snapshot, Preserved(db.entities, EpochChanged(db.sync, c.epoch)));
  }

  /** What the last chunk writes does not depend on its manifest having been stored
      as incomplete first. */
  lemma FinishIsPersist(before: Db, stored: Db, c: Chunk, m: Manifest)
    requires !m.complete
    requires stored == before.(staged := stored.staged, manifests := before.manifests[c.snapshot := m])
    ensures Complete(stored, c, m) == Complete(before, c, m)
    ensures Finished(stored.manifests, c, m) == Finished(before.manifests, c, m)
    ensures Activate(stored, c, stored.staged) ==
            Activate(before, c, stored.staged).(staged := stored.staged, manifests := stored.manifests)
  {
  }

  class BootstrapRepository {
    const database: Database

    constructor (database: Database)
      ensures this.database == database
    {
      this.database := database;
    }

    method SealBodies(records: seq<Record>)
      modifies database`vault
      ensures database.vault == SealRecords(old(database.vault), records)
    {
      for n := 0 to |records|
        invariant database.vault == SealRecords(old(database.vault), records[..n])
      {
        assert records[..n + 1][..n] == records[..n];
        if Protected(records[n].key.kind) {
          database.vault := database.vault[OfEntity(records[n].key.id) := records[n].payload];
        }
      }
      assert records[..|records|] == records;
    }

    method AddStaged(c: Chunk)
      modifies database`staged
      ensures database.staged == old(database.staged) + StagedRows(c)
    {
      for n := 0 to |c.records|
        invariant database.staged == old(database.staged) + RowsUpTo(c, n)
      {
        var r := c.records[n];
        database.staged := database.staged[StagedKey(c.snapshot, r.key) := Staged(c.index, n, r)];
      }
    }

    method RemoveStaged(snapshot: SnapshotId)
      modifies database`staged
      ensures database.staged == Unstaged(old(database.staged), snapshot)
    {
      database.staged := Unstaged(database.staged, snapshot);
    }

    /** The snapshot is complete; older complete ones are forgotten one by one. */
    method CompleteManifest(c: Chunk, m: Manifest)
      modifies database`manifests
      ensures database.manifests == Finished(old(database.manifests), c, m)
    {
      var before := database.manifests[c.snapshot := m.(complete := true)];
      database.manifests := before;
      var todo := before.Keys;
      while todo != {}
        invariant todo <= before.Keys
        invariant database.manifests ==
                  before - (set s | s in before && s !in todo && s != c.snapshot && before[s].complete)
        decreases todo
      {
        var id :| id in todo;
        todo := todo - {id};
        if id != c.snapshot && before[id].complete {
          database.manifests := database.manifests - {id};
        }
      }
    }

    /** The rows of a complete snapshot take the place of the entities, except for
        local work; an epoch change isolates the outbox and keeps no local rows. */
    method ReplaceEntities(c: Chunk)
      modifies database
      ensures database.View() == Activate(old(database.View()), c, old(database.staged))
    {
      ghost var before := database.View();
      var epochChanged := EpochChanged(database.sync, c.epoch);
      var preserved := Preserved(database.entities, epochChanged);
      var activated := Arriving(database.staged, c.snapshot, preserved);
      var isolation := if database.sync.Some? then database.sync.value.isolation else None;
      if epochChanged {
        database.outbox := Isolate(database.outbox);
        isolation := Some(EpochMismatch);
      }
      database.entities := activated + preserved;
      database.sync := Some(SyncRow(c.device, Some(c.epoch), c.cursor, Ready, isolation));
      ActivateWrites(before, c);
    }

    /** The checks once the last chunk has arrived. */
    method CheckComplete(c: Chunk, m: Manifest) returns (r: Result<()>)
      ensures r == Complete(database.View(), c, m)
    {
      var gaps :- CheckGaps(m.received);
      if SnapshotSum(m.received) != c.snapshotChecksum {
        return Err(SnapshotHashMismatch);
      }
      if exists id | id in database.outbox :: database.outbox[id].device != c.device {
        return Err(ContextMismatch);
      }
      return Ok(());
    }

    /** Switching over to the snapshot. */
    method SwitchOver(c: Chunk, m: Manifest)
      modifies database
      ensures database.View() == Activate(old(database.View()), c, old(database.staged)).(
                manifests := Finished(old(database.manifests), c, m),
                staged := Unstaged(old(database.staged), c.snapshot))
    {
      ReplaceEntities(c);
      CompleteManifest(c, m);
      RemoveStaged(c.snapshot);
    }

    method PersistVerifiedChunk(c: Chunk) returns (r: Result<()>)
      modifies database
      ensures match Persist(old(database.View()), c)
              case Ok(after) => r.Ok? && database.View() == after
              case Err(code) => r == Err(code) && database.View() == old(database.View())
    {
      var before := database.View();
      var replay :- Admit(before, c);
      if replay {
        return Ok(());
      }
      var previous := Previous(before, c);
      AddStaged(c);
      var received := AddReceived(if previous.Some? then previous.value.received else [],
                                  Received(c.index, c.chunkChecksum));
      var m := Manifest(c.device, c.epoch, c.count, c.cursor, c.snapshotChecksum, c.createdAt, received,
                        (if previous.Some? then previous.value.receivedRecords else 0) + |c.records|, false);
      database.manifests := database.manifests[c.snapshot := m];
      if |received| != c.count {
        return Ok(());
      }
      FinishIsPersist(before, database.View(), c, m);
      r := CheckComplete(c, m);
      if r.Err? {
        database.Restore(before);
        return;
      }
      SwitchOver(c, m);
    }

    /** stageChunk: checks first, then bodies are sealed, then the transaction. */
    method StageChunk(c: Chunk, device: DeviceId) returns (r: Result<()>)
      modifies database
      ensures database.View() == Stage(old(database.View()), c, device)
      ensures Verify(c, device).Err? ==> r == Verify(c, device)
      ensures r.Ok? ==> Persist(old(database.View()).(vault := database.vault), c) == Ok(database.View())
    {
      var verified :- CheckChunk(c, device);
      SealBodies(c.records);
      ghost var sealed := database.View();
      r := PersistVerifiedChunk(c);
      PersistKeepsVault(sealed, c);
    }
  }

  lemma PersistKeepsVault(db: Db, c: Chunk)
    ensures Persist(db, c).Ok? ==> Persist(db, c).value.vault == db.vault
  {
  }
}
