/**
 Getting out of a snapshot that stays incomplete, and moving a replica to another
 device: what is undone, and what is carried over.
 */
module Devices {
  import opened Types
  import opened Bootstrap
  import opened Manifests
  import opened Snapshots

  // Discarding what was staged

  /** `t` is `db` with some chunks of one snapshot staged. */
  ghost predicate StagedOn(db: Db, t: Db, snapshot: SnapshotId) {
    && t == db.(vault := t.vault, manifests := t.manifests, staged := t.staged)
    && t.manifests - {snapshot} == db.manifests && Unstaged(t.staged, snapshot) == db.staged
  }

  lemma {:induction false} StepStagesOn(db: Db, t: Db, chunks: seq<Chunk>, v: View, i: nat)
    requires ValidSnapshot(chunks) && Snapshots.Shows(t, chunks, v) && StagedOn(db, t, chunks[0].snapshot)
    requires i < |chunks| && v.have + {i} != All(|chunks|)
    ensures StagedOn(db, Stage(t, chunks[i], chunks[i].device), chunks[0].snapshot)
  {
    var c := chunks[i];
    var sealed := t.(vault := SealRecords(t.vault, c.records));
    assert SameSnapshot(chunks, i);
    SealedShows(t, chunks, v, sealed.vault);
    if i in v.have {
      assert v.have == v.have + {i};
      assert Received(i, c.chunkChecksum) in ReceivedSoFar(sealed, chunks[0]);
      ReplayAdmitted(sealed, chunks, i);
    } else {
      NewChunkAdmitted(sealed, chunks, v.have, i);
      ReceivedGrows(ReceivedSoFar(sealed, chunks[0]), chunks, v.have, i);
      ReceivedAll(InsertReceived(ReceivedSoFar(sealed, chunks[0]), Received(i, c.chunkChecksum)), chunks, v.have + {i});
      RowsUpToAre(c, |c.records|);
      RowsAside(t.staged, StagedRows(c), c.snapshot);
    }
  }

  lemma RowsAside(staged: map<StagedKey, Staged>, rows: map<StagedKey, Staged>, snapshot: SnapshotId)
    requires forall k | k in rows :: k.snapshot == snapshot
    ensures Unstaged(staged + rows, snapshot) == Unstaged(staged, snapshot)
  {
  }

  lemma {:induction false} RunStagesOn(db: Db, t: Db, chunks: seq<Chunk>, v: View, arrivals: seq<Arrival>)
    requires ValidSnapshot(chunks) && Snapshots.Shows(t, chunks, v) && StagedOn(db, t, chunks[0].snapshot)
    requires OnlyDeliveries(arrivals) && v.have + Delivered(arrivals, |chunks|) != All(|chunks|)
    ensures StagedOn(db, DbRun(t, chunks, arrivals), chunks[0].snapshot)
    ensures exists w :: Snapshots.Shows(DbRun(t, chunks, arrivals), chunks, w) && w.have != All(|chunks|)
    decreases |arrivals|
  {
    DeliveredSplitsAll(arrivals, |chunks|);
    if arrivals == [] {
      assert Snapshots.Shows(DbRun(t, chunks, arrivals), chunks, v);
    } else {
      var i := arrivals[0].index;
      NotYetAll(v.have, arrivals, |chunks|);
      ArrivalShows(t, chunks, v, arrivals[0]);
      if i < |chunks| { StepStagesOn(db, t, chunks, v, i); }
      RunStagesOn(db, DbStep(t, chunks, arrivals[0]), chunks, ViewStep(v, chunks, arrivals[0]), arrivals[1..]);
    }
  }

  lemma DeliveredSplitsAll(arrivals: seq<Arrival>, n: nat)
    requires OnlyDeliveries(arrivals)
    ensures Delivered(arrivals, n) <= All(n)
    ensures arrivals != [] ==>
              && OnlyDeliveries(arrivals[1..])
              && Delivered(arrivals, n) == Delivered(arrivals[1..], n) + if arrivals[0].index < n then {arrivals[0].index} else {}
  {
    if arrivals != [] { DeliveredSplits(arrivals, n); }
  }

  lemma NotYetAll(have: set<nat>, arrivals: seq<Arrival>, n: nat)
    requires OnlyDeliveries(arrivals) && arrivals != [] && have <= All(n) && have + Delivered(arrivals, n) != All(n)
    ensures var i := arrivals[0].index;
            i < n ==> have + {i} != All(n) && (have + {i}) + Delivered(arrivals[1..], n) != All(n)
    ensures have + Delivered(arrivals[1..], n) != All(n)
  {
    DeliveredSplits(arrivals, n);
    var i := arrivals[0].index;
    var missing :| missing in All(n) && missing !in have + Delivered(arrivals, n);
    assert missing !in have + Delivered(arrivals[1..], n);
    if i < n {
      assert missing !in have + {i};
      assert missing !in (have + {i}) + Delivered(arrivals[1..], n);
    }
  }

  /** Whatever has arrived of a snapshot, in any order and with any replays, as long as
      it is not all there: discarding it restores the tables, but not the vault. */
  lemma {:induction false} DiscardUndoesStaging(db: Db, chunks: seq<Chunk>, arrivals: seq<Arrival>)
    requires ValidSnapshot(chunks) && Snapshots.Shows(db, chunks, View(db.entities, db.outbox, db.sync, {}))
    requires chunks[0].snapshot !in db.manifests
    requires OnlyDeliveries(arrivals) && Delivered(arrivals, |chunks|) != All(|chunks|)
    ensures var t := DbRun(db, chunks, arrivals);
            Discard(t, chunks[0].snapshot, chunks[0].device) == Ok(db.(vault := t.vault))
  {
    var t, s := DbRun(db, chunks, arrivals), chunks[0].snapshot;
    assert 0 in All(|chunks|);
    NothingStagedYet(db, chunks);
    assert {} + Delivered(arrivals, |chunks|) == Delivered(arrivals, |chunks|);
    RunStagesOn(db, db, chunks, View(db.entities, db.outbox, db.sync, {}), arrivals);
    DiscardRemoves(db, t, s, chunks[0].device);
  }

  lemma {:induction false} NothingStagedYet(db: Db, chunks: seq<Chunk>)
    requires ValidSnapshot(chunks) && Holding(db, chunks, {}) && chunks[0].snapshot !in db.manifests
    ensures StagedOn(db, db, chunks[0].snapshot)
  {
    assert ReceivedSoFar(db, chunks[0]) == [];
    assert forall k | k in db.staged :: k.snapshot != chunks[0].snapshot;
    assert Unstaged(db.staged, chunks[0].snapshot) == db.staged;
  }

  lemma DiscardRemoves(db: Db, t: Db, snapshot: SnapshotId, device: DeviceId)
    requires StagedOn(db, t, snapshot) && snapshot !in db.manifests
    requires snapshot in t.manifests ==> t.manifests[snapshot].device == device && !t.manifests[snapshot].complete
    requires snapshot !in t.manifests ==> t.staged == db.staged
    ensures Discard(t, snapshot, device) == Ok(db.(vault := t.vault))
  {
    if snapshot !in t.manifests {
      assert t.manifests - {snapshot} == t.manifests;
    }
  }

  // Moving to another device

  /** A device change that is allowed loses no row, operation or body; and once it has
      happened, all chunks of a snapshot for the new device, in any order, complete it:
      the replica holds the snapshot and whatever the user had created before. */
  lemma {:induction false} DeviceChangeCompletes(db: Db, c: Chunk, device: DeviceId, unlocked: bool, attachments: nat,
                              chunks: seq<Chunk>, arrivals: seq<Arrival>)
    requires PrepareDevice(db, c, device, unlocked, attachments).Ok?
    requires PrepareDevice(db, c, device, unlocked, attachments).value != db
    requires ValidSnapshot(chunks) && chunks[0].device == device && chunks[0].epoch == c.epoch
    requires OnlyDeliveries(arrivals) && Delivered(arrivals, |chunks|) == All(|chunks|)
    ensures var moved := PrepareDevice(db, c, device, unlocked, attachments).value;
            && moved.entities == db.entities && moved.outbox == db.outbox && moved.vault == db.vault
            && var t := DbRun(moved, chunks, arrivals);
            && t.outbox == db.outbox
            && t.entities == Described(chunks) + Preserved(db.entities, false)
            && t.sync == Some(SyncRow(device, Some(c.epoch), chunks[0].cursor, Ready, None))
  {
    var moved := PrepareDevice(db, c, device, unlocked, attachments).value;
    MovedIsEmpty(moved, chunks);
    OrderOfArrivalDoesNotMatter(moved, chunks, arrivals, arrivals);
  }

  lemma {:induction false} MovedIsEmpty(db: Db, chunks: seq<Chunk>)
    requires ValidSnapshot(chunks) && db.manifests == map[] && |db.staged| == 0
    requires db.sync.Some? && db.sync.value.device == chunks[0].device
    ensures Snapshots.Shows(db, chunks, View(db.entities, db.outbox, db.sync, {}))
  {
    assert db.staged == map[];
    assert 0 in All(|chunks|);
  }
}
