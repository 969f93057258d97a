/**
 Staging refines a machine that only remembers which chunks have arrived: until
 the last one nothing visible changes, and then everything does at once.
 */
module Snapshots {
  import opened Types
  import opened Bootstrap
  import opened Manifests

  /** The chunks of one snapshot, in order, as a server sends them. */
  ghost predicate ValidSnapshot(chunks: seq<Chunk>) {
    && |chunks| > 0
    && (forall i | 0 <= i < |chunks| :: SameSnapshot(chunks, i) && Verify(chunks[i], chunks[i].device).Ok?)
    && (forall i, j, a, b | 0 <= i < j < |chunks| && 0 <= a < |chunks[i].records| && 0 <= b < |chunks[j].records| ::
          chunks[i].records[a].key != chunks[j].records[b].key)
    && chunks[0].snapshotChecksum == SnapshotSum(Sums(chunks))
  }

  ghost predicate SameSnapshot(chunks: seq<Chunk>, i: nat)
    requires i < |chunks|
  {
    && chunks[i].index == i && chunks[i].count == |chunks|
    && chunks[i].device == chunks[0].device && chunks[i].snapshot == chunks[0].snapshot
    && chunks[i].epoch == chunks[0].epoch && chunks[i].cursor == chunks[0].cursor
    && chunks[i].snapshotChecksum == chunks[0].snapshotChecksum && chunks[i].createdAt == chunks[0].createdAt
  }

  function Sums(chunks: seq<Chunk>): seq<Received> {
    seq(|chunks|, i requires 0 <= i < |chunks| => Received(i, chunks[i].chunkChecksum))
  }

  /** The chunk indexes below n. */
  function All(n: nat): (r: set<nat>)
    ensures forall i :: i in r <==> 0 <= i < n
  {
    if n == 0 then {} else All(n - 1) + {n - 1}
  }

  function Positions(chunks: seq<Chunk>): set<(nat, nat)> {
    set i, j | 0 <= i < |chunks| && 0 <= j < |chunks[i].records| :: (i, j)
  }

  lemma {:induction false} KeyHasOnePosition(chunks: seq<Chunk>, p: (nat, nat), q: (nat, nat))
    requires ValidSnapshot(chunks) && p in Positions(chunks) && q in Positions(chunks)
    requires chunks[p.0].records[p.1].key == chunks[q.0].records[q.1].key
    ensures p == q
  {
    assert SameSnapshot(chunks, p.0) && SameSnapshot(chunks, q.0);
    assert DistinctKeys(chunks[p.0]);
  }

  /** The entities a snapshot describes. */
  ghost function Described(chunks: seq<Chunk>): map<Key, Entity>
    requires ValidSnapshot(chunks)
  {
    map k | k in DescribedKeys(chunks) :: ToEntity(RecordOf(chunks, k))
  }

  ghost function DescribedKeys(chunks: seq<Chunk>): set<Key> {
    set p | p in Positions(chunks) :: chunks[p.0].records[p.1].key
  }

  ghost function RecordOf(chunks: seq<Chunk>, k: Key): Record
    requires k in DescribedKeys(chunks)
  {
    var p :| p in Positions(chunks) && chunks[p.0].records[p.1].key == k;
    chunks[p.0].records[p.1]
  }

  // The simple machine

  /** What is visible, and which chunks have arrived. */
  datatype View = View(entities: map<Key, Entity>, outbox: map<OpId, Op>, sync: Option<SyncRow>, have: set<nat>)

  /** Chunks arrive, and in between local work, pushes and pulls go on: they change
      every table but the staging area, and keep the device. */
  datatype Arrival =
    | Deliver(index: nat)
    | Meanwhile(entities: map<Key, Entity>, outbox: map<OpId, Op>, conflicts: map<ConflictId, ConflictRow>,
                vault: map<SlotId, Payload>, sync: Option<SyncRow>)

  predicate KeepsDevice(a: Arrival, device: DeviceId) {
    a.Meanwhile? && a.sync.Some? ==> a.sync.value.device == device
  }

  predicate Foreign(outbox: map<OpId, Op>, device: DeviceId) {
    exists id | id in outbox :: outbox[id].device != device
  }

  /** The switch to the snapshot: its records, except that local work is kept
      within an epoch; a new epoch isolates the queue instead. */
  ghost function Switched(v: View, chunks: seq<Chunk>): View
    requires ValidSnapshot(chunks)
  {
    var changed := EpochChanged(v.sync, chunks[0].epoch);
    View(Described(chunks) + Preserved(v.entities, changed),
         if changed then Isolate(v.outbox) else v.outbox,
         Some(SyncRow(chunks[0].device, Some(chunks[0].epoch), chunks[0].cursor, Ready,
                      if changed then Some(EpochMismatch)
                      else if v.sync.Some? then v.sync.value.isolation else None)),
         All(|chunks|))
  }

  ghost function ViewStep(v: View, chunks: seq<Chunk>, a: Arrival): View
    requires ValidSnapshot(chunks)
  {
    match a
    case Meanwhile(entities, outbox, _, _, sync) => v.(entities := entities, outbox := outbox, sync := sync)
    case Deliver(i) =>
      if i >= |chunks| || i in v.have then v
      else if v.have + {i} != All(|chunks|) then v.(have := v.have + {i})
      else if Foreign(v.outbox, chunks[0].device) then v
      else Switched(v, chunks)
  }

  ghost function ViewRun(v: View, chunks: seq<Chunk>, arrivals: seq<Arrival>): View
    requires ValidSnapshot(chunks)
    decreases |arrivals|
  {
    if arrivals == [] then v else ViewRun(ViewStep(v, chunks, arrivals[0]), chunks, arrivals[1..])
  }

  // The replica

  function DbStep(db: Db, chunks: seq<Chunk>, a: Arrival): Db {
    match a
    case Meanwhile(entities, outbox, conflicts, vault, sync) =>
      db.(entities := entities, outbox := outbox, conflicts := conflicts, vault := vault, sync := sync)
    case Deliver(i) => if i < |chunks| then Stage(db, chunks[i], chunks[i].device) else db
  }

  function DbRun(db: Db, chunks: seq<Chunk>, arrivals: seq<Arrival>): Db
    decreases |arrivals|
  {
    if arrivals == [] then db else DbRun(DbStep(db, chunks, arrivals[0]), chunks, arrivals[1..])
  }

  /** The received list is the sorted list of the arrived chunks. */
  ghost predicate ReceivedAre(received: seq<Received>, chunks: seq<Chunk>, have: set<nat>) {
    && StrictlySorted(received)
    && (forall r | r in received :: r.index in have && r.index < |chunks| && r == Received(r.index, chunks[r.index].chunkChecksum))
    && (forall i | i in have :: i < |chunks| && Received(i, chunks[i].chunkChecksum) in received)
  }

  ghost predicate SameDevice(db: Db, device: DeviceId) {
    && (forall s | s in db.manifests :: db.manifests[s].device == device)
    && (db.sync.Some? ==> db.sync.value.device == device)
  }

  /** Some chunks, but not all, are staged. */
  ghost predicate Holding(db: Db, chunks: seq<Chunk>, have: set<nat>)
    requires |chunks| > 0
  {
    && (forall s | s in db.manifests && s != chunks[0].snapshot :: db.manifests[s].complete)
    && (chunks[0].snapshot in db.manifests ==>
          SameManifest(db.manifests[chunks[0].snapshot], chunks[0]) && !db.manifests[chunks[0].snapshot].complete)
    && ReceivedAre(ReceivedSoFar(db, chunks[0]), chunks, have)
    && RowsMatch(db.staged, chunks[0].snapshot, ReceivedSoFar(db, chunks[0]))
  }

  /** The snapshot has been activated. */
  ghost predicate Done(db: Db, chunks: seq<Chunk>)
    requires |chunks| > 0
  {
    && (forall s | s in db.manifests :: db.manifests[s].complete)
    && chunks[0].snapshot in db.manifests
    && SameManifest(db.manifests[chunks[0].snapshot], chunks[0])
    && ReceivedAre(db.manifests[chunks[0].snapshot].received, chunks, All(|chunks|))
  }

  ghost predicate Shows(db: Db, chunks: seq<Chunk>, v: View)
    requires |chunks| > 0
  {
    && db.entities == v.entities && db.outbox == v.outbox && db.sync == v.sync
    && SameDevice(db, chunks[0].device)
    && v.have <= All(|chunks|)
    && (if v.have == All(|chunks|) then Done(db, chunks) else Holding(db, chunks, v.have))
  }

  lemma {:induction false} ReceivedCount(received: seq<Received>, chunks: seq<Chunk>, have: set<nat>)
    requires ReceivedAre(received, chunks, have)
    ensures |received| == |have|
    decreases |received|
  {
    if received == [] {
      assert have == {};
    } else {
      var front, last := received[..|received| - 1], received[|received| - 1];
      assert received == front + [last];
      assert last in received;
      forall r | r in front
        ensures r.index != last.index
      {
        var i :| 0 <= i < |front| && front[i] == r;
        assert received[i] == r;
      }
      assert ReceivedAre(front, chunks, have - {last.index});
      ReceivedCount(front, chunks, have - {last.index});
    }
  }

  lemma {:induction false} AllCount(n: nat)
    ensures |All(n)| == n
  {
    if n > 0 {
      AllCount(n - 1);
      assert All(n) == All(n - 1) + {n - 1};
    }
  }

  lemma {:induction false} ReceivedAll(received: seq<Received>, chunks: seq<Chunk>, have: set<nat>)
    requires ReceivedAre(received, chunks, have) && have <= All(|chunks|)
    ensures |received| == |chunks| <==> have == All(|chunks|)
    ensures have == All(|chunks|) ==> received == Sums(chunks) && Gapless(received)
  {
    ReceivedCount(received, chunks, have);
    AllCount(|chunks|);
    if |received| == |chunks| {
      assert Below(received, |chunks|) by {
        assert forall i | 0 <= i < |received| :: received[i] in received;
      }
      forall i | 0 <= i < |chunks|
        ensures received[i] == Sums(chunks)[i] && i in have
      {
        Pigeonhole(received, |chunks|, i);
        assert received[i] in received;
      }
    }
  }

  lemma {:induction false} ReceivedGrows(received: seq<Received>, chunks: seq<Chunk>, have: set<nat>, i: nat)
    requires ReceivedAre(received, chunks, have) && i < |chunks| && i !in have
    ensures !HasChunk(received, i)
    ensures ReceivedAre(InsertReceived(received, Received(i, chunks[i].chunkChecksum)), chunks, have + {i})
  {
    InsertSorts(received, Received(i, chunks[i].chunkChecksum));
  }

  lemma {:induction false} ChunksApart(chunks: seq<Chunk>, i: nat, a: nat, j: nat, b: nat)
    requires ValidSnapshot(chunks) && i < |chunks| && j < |chunks| && i != j
    requires a < |chunks[i].records| && b < |chunks[j].records|
    ensures chunks[i].records[a].key != chunks[j].records[b].key
  {
  }

  /** A row staged from another chunk never has a key of this one. */
  lemma {:induction false} NoDuplicates(db: Db, chunks: seq<Chunk>, have: set<nat>, i: nat)
    requires ValidSnapshot(chunks) && Holding(db, chunks, have) && i < |chunks| && i !in have
    ensures forall r | r in chunks[i].records :: StagedKey(chunks[i].snapshot, r.key) !in db.staged
  {
    assert SameSnapshot(chunks, i);
    forall k, b | k in db.staged && k.snapshot == chunks[0].snapshot && 0 <= b < |chunks[i].records|
      ensures k.key != chunks[i].records[b].key
    {
      var x :| x in ReceivedSoFar(db, chunks[0]) && RowFrom(db.staged[k], x, k.key);
      assert SameSnapshot(chunks, x.index);
      assert x.checksum == ChunkSum(chunks[x.index].records);
      ChunksApart(chunks, x.index, db.staged[k].index, i, b);
    }
  }

  lemma {:induction false} NewChunkAdmitted(db: Db, chunks: seq<Chunk>, have: set<nat>, i: nat)
    requires ValidSnapshot(chunks) && Holding(db, chunks, have) && SameDevice(db, chunks[0].device)
    requires i < |chunks| && i !in have
    ensures Admit(db, chunks[i]) == Ok(false)
    ensures ReceivedSoFar(db, chunks[i]) == ReceivedSoFar(db, chunks[0])
    ensures NextManifest(Previous(db, chunks[i]), chunks[i]).received
            == InsertReceived(ReceivedSoFar(db, chunks[0]), Received(i, chunks[i].chunkChecksum))
  {
    assert SameSnapshot(chunks, i);
    NoDuplicates(db, chunks, have, i);
    ReceivedGrows(ReceivedSoFar(db, chunks[0]), chunks, have, i);
  }

  /** A chunk that is in the received list of its manifest is a replay. */
  lemma {:induction false} ReplayAdmitted(db: Db, chunks: seq<Chunk>, i: nat)
    requires ValidSnapshot(chunks) && SameDevice(db, chunks[0].device) && i < |chunks|
    requires forall s | s in db.manifests && s != chunks[0].snapshot :: db.manifests[s].complete
    requires chunks[0].snapshot in db.manifests && SameManifest(db.manifests[chunks[0].snapshot], chunks[0])
    requires Received(i, chunks[i].chunkChecksum) in db.manifests[chunks[0].snapshot].received
    ensures Admit(db, chunks[i]) == Ok(true)
  {
    assert SameSnapshot(chunks, i);
  }

  lemma {:induction false} RowsAfter(db: Db, chunks: seq<Chunk>, have: set<nat>, i: nat)
    requires ValidSnapshot(chunks) && Holding(db, chunks, have) && i < |chunks| && i !in have
    ensures RowsMatch(db.staged + StagedRows(chunks[i]), chunks[0].snapshot,
                      InsertReceived(ReceivedSoFar(db, chunks[0]), Received(i, chunks[i].chunkChecksum)))
  {
    var c, r := chunks[i], Received(i, chunks[i].chunkChecksum);
    assert SameSnapshot(chunks, i);
    NoDuplicates(db, chunks, have, i);
    ReceivedGrows(ReceivedSoFar(db, chunks[0]), chunks, have, i);
    InsertSorts(ReceivedSoFar(db, chunks[0]), r);
    ChunkRows(c);
    forall k | k in StagedRows(c)
      ensures k !in db.staged
    {
      assert c.records[StagedRows(c)[k].index] in c.records;
    }
    RowsMatchExtends(db.staged, StagedRows(c), c.snapshot, ReceivedSoFar(db, chunks[0]), r,
                     InsertReceived(ReceivedSoFar(db, chunks[0]), r));
  }

  /** All rows staged: the entities are those the snapshot describes. */
  lemma {:induction false} PositionIsStaged(staged: map<StagedKey, Staged>, chunks: seq<Chunk>, p: (nat, nat))
    requires ValidSnapshot(chunks) && RowsMatch(staged, chunks[0].snapshot, Sums(chunks)) && p in Positions(chunks)
    ensures var k := StagedKey(chunks[0].snapshot, chunks[p.0].records[p.1].key);
            k in staged && staged[k].record == chunks[p.0].records[p.1]
  {
    assert SameSnapshot(chunks, p.0);
    assert Sums(chunks)[p.0] in Sums(chunks);
  }

  lemma {:induction false} StagedIsDescribed(staged: map<StagedKey, Staged>, chunks: seq<Chunk>, k: StagedKey)
    requires ValidSnapshot(chunks) && RowsMatch(staged, chunks[0].snapshot, Sums(chunks))
    requires k in staged && k.snapshot == chunks[0].snapshot
    ensures k.key in DescribedKeys(chunks) && staged[k].record == RecordOf(chunks, k.key)
  {
    var x :| x in Sums(chunks) && RowFrom(staged[k], x, k.key);
    assert SameSnapshot(chunks, x.index);
    var p := (x.index, staged[k].index);
    assert p in Positions(chunks) && chunks[p.0].records[p.1] == staged[k].record;
    var q :| q in Positions(chunks) && chunks[q.0].records[q.1].key == k.key && RecordOf(chunks, k.key) == chunks[q.0].records[q.1];
    KeyHasOnePosition(chunks, p, q);
  }

  lemma {:induction false} DescribedIsStaged(staged: map<StagedKey, Staged>, chunks: seq<Chunk>, k: Key)
    requires ValidSnapshot(chunks) && RowsMatch(staged, chunks[0].snapshot, Sums(chunks)) && k in DescribedKeys(chunks)
    ensures StagedKey(chunks[0].snapshot, k) in staged
  {
    var p :| p in Positions(chunks) && chunks[p.0].records[p.1].key == k;
    PositionIsStaged(staged, chunks, p);
  }

  lemma SnapshotIs(staged: map<StagedKey, Staged>, snapshot: SnapshotId, described: map<Key, Entity>)
    requires forall k | k in staged && k.snapshot == snapshot ::
               k.key in described && described[k.key] == ToEntity(staged[k].record)
    requires forall k | k in described :: StagedKey(snapshot, k) in staged
    ensures Snapshot(staged, snapshot) == described
  {
  }

  lemma {:induction false} StagedDescribe(staged: map<StagedKey, Staged>, chunks: seq<Chunk>)
    requires ValidSnapshot(chunks) && RowsMatch(staged, chunks[0].snapshot, Sums(chunks))
    ensures Snapshot(staged, chunks[0].snapshot) == Described(chunks)
  {
    var described := Described(chunks);
    forall k | k in staged && k.snapshot == chunks[0].snapshot
      ensures k.key in described && described[k.key] == ToEntity(staged[k].record)
    {
      StagedIsDescribed(staged, chunks, k);
    }
    forall k | k in described
      ensures StagedKey(chunks[0].snapshot, k) in staged
    {
      DescribedIsStaged(staged, chunks, k);
    }
    SnapshotIs(staged, chunks[0].snapshot, described);
  }

  // One arrival

  lemma {:induction false} SealedShows(db: Db, chunks: seq<Chunk>, v: View, vault: map<SlotId, Payload>)
    requires ValidSnapshot(chunks) && Shows(db, chunks, v)
    ensures Shows(db.(vault := vault), chunks, v)
  {
  }

  lemma {:induction false} ReplayShows(db: Db, chunks: seq<Chunk>, v: View, i: nat)
    requires ValidSnapshot(chunks) && Shows(db, chunks, v) && i < |chunks| && i in v.have
    ensures Shows(Stage(db, chunks[i], chunks[i].device), chunks, v)
  {
    var sealed := db.(vault := SealRecords(db.vault, chunks[i].records));
    SealedShows(db, chunks, v, sealed.vault);
    assert Received(i, chunks[i].chunkChecksum) in ReceivedSoFar(sealed, chunks[0]);
    ReplayAdmitted(sealed, chunks, i);
  }

  lemma {:induction false} PartShows(db: Db, chunks: seq<Chunk>, v: View, i: nat)
    requires ValidSnapshot(chunks) && Shows(db, chunks, v) && i < |chunks| && i !in v.have
    requires v.have + {i} != All(|chunks|)
    ensures Shows(Stage(db, chunks[i], chunks[i].device), chunks, v.(have := v.have + {i}))
  {
    var c := chunks[i];
    var sealed := db.(vault := SealRecords(db.vault, c.records));
    assert SameSnapshot(chunks, i);
    SealedShows(db, chunks, v, sealed.vault);
    NewChunkAdmitted(sealed, chunks, v.have, i);
    RowsAfter(sealed, chunks, v.have, i);
    var received := InsertReceived(ReceivedSoFar(sealed, chunks[0]), Received(i, c.chunkChecksum));
    ReceivedGrows(ReceivedSoFar(sealed, chunks[0]), chunks, v.have, i);
    ReceivedAll(received, chunks, v.have + {i});
    var t := Stage(db, c, c.device);
    assert t == sealed.(staged := sealed.staged + StagedRows(c),
                        manifests := sealed.manifests[c.snapshot := NextManifest(Previous(sealed, c), c)]);
    assert ReceivedSoFar(t, chunks[0]) == received;
  }

  lemma {:induction false} LastChunkCompletes(db: Db, chunks: seq<Chunk>, v: View, i: nat)
    requires ValidSnapshot(chunks) && Shows(db, chunks, v) && i < |chunks| && i !in v.have
    requires v.have + {i} == All(|chunks|)
    ensures var c := chunks[i];
            var m := NextManifest(Previous(db, c), c);
            && Admit(db, c) == Ok(false) && |m.received| == c.count && m.received == Sums(chunks)
            && Gapless(m.received) && SnapshotSum(m.received) == c.snapshotChecksum
            && Snapshot(db.staged + StagedRows(c), c.snapshot) == Described(chunks)
  {
    assert SameSnapshot(chunks, i);
    NewChunkAdmitted(db, chunks, v.have, i);
    RowsAfter(db, chunks, v.have, i);
    ReceivedGrows(ReceivedSoFar(db, chunks[0]), chunks, v.have, i);
    ReceivedAll(InsertReceived(ReceivedSoFar(db, chunks[0]), Received(i, chunks[i].chunkChecksum)), chunks, v.have + {i});
    StagedDescribe(db.staged + StagedRows(chunks[i]), chunks);
  }

  lemma {:induction false} SumsAre(chunks: seq<Chunk>)
    ensures ReceivedAre(Sums(chunks), chunks, All(|chunks|))
  {
    forall i | i in All(|chunks|)
      ensures Received(i, chunks[i].chunkChecksum) in Sums(chunks)
    {
      assert Sums(chunks)[i] == Received(i, chunks[i].chunkChecksum);
    }
  }

  /** The tables after the last chunk has been taken in. */
  function AfterLast(db: Db, c: Chunk): Db {
    var staged := db.staged + StagedRows(c);
    Activate(db, c, staged).(
      manifests := Finished(db.manifests, c, NextManifest(Previous(db, c), c)),
      staged := Unstaged(staged, c.snapshot))
  }

  lemma {:induction false} LastChunkPersists(db: Db, chunks: seq<Chunk>, v: View, i: nat)
    requires ValidSnapshot(chunks) && Shows(db, chunks, v) && i < |chunks| && i !in v.have
    requires v.have + {i} == All(|chunks|)
    ensures Persist(db, chunks[i]) == if Foreign(v.outbox, chunks[0].device) then Err(ContextMismatch)
                                      else Ok(AfterLast(db, chunks[i]))
  {
    assert SameSnapshot(chunks, i);
    LastChunkCompletes(db, chunks, v, i);
    PersistsLast(db, chunks[i]);
  }

  lemma PersistsLast(db: Db, c: Chunk)
    requires Admit(db, c) == Ok(false)
    requires var m := NextManifest(Previous(db, c), c);
             |m.received| == c.count && Gapless(m.received) && SnapshotSum(m.received) == c.snapshotChecksum
    ensures Persist(db, c) == if Foreign(db.outbox, c.device) then Err(ContextMismatch) else Ok(AfterLast(db, c))
  {
  }

  lemma {:induction false} AfterLastVisible(db: Db, chunks: seq<Chunk>, v: View, i: nat)
    requires ValidSnapshot(chunks) && Shows(db, chunks, v) && i < |chunks| && i !in v.have
    requires v.have + {i} == All(|chunks|)
    ensures var t, w := AfterLast(db, chunks[i]), Switched(v, chunks);
            t.entities == w.entities && t.outbox == w.outbox && t.sync == w.sync
  {
    assert SameSnapshot(chunks, i);
    LastChunkCompletes(db, chunks, v, i);
  }

  lemma {:induction false} FinishedIs(db: Db, chunks: seq<Chunk>, have: set<nat>, c: Chunk, m: Manifest)
    requires ValidSnapshot(chunks) && Holding(db, chunks, have) && c.snapshot == chunks[0].snapshot
    ensures Finished(db.manifests, c, m) == map[c.snapshot := m.(complete := true)]
  {
  }

  lemma {:induction false} AfterLastDone(db: Db, chunks: seq<Chunk>, v: View, i: nat)
    requires ValidSnapshot(chunks) && Shows(db, chunks, v) && i < |chunks| && i !in v.have
    requires v.have + {i} == All(|chunks|)
    ensures Done(AfterLast(db, chunks[i]), chunks) && SameDevice(AfterLast(db, chunks[i]), chunks[0].device)
  {
    assert SameSnapshot(chunks, i);
    var m := NextManifest(Previous(db, chunks[i]), chunks[i]);
    assert m.received == Sums(chunks) by { LastChunkCompletes(db, chunks, v, i); }
    FinishedIs(db, chunks, v.have, chunks[i], m);
    OnlyManifestDone(AfterLast(db, chunks[i]), chunks, m.(complete := true));
  }

  lemma {:induction false} OnlyManifestDone(db: Db, chunks: seq<Chunk>, m: Manifest)
    requires |chunks| > 0 && db.manifests == map[chunks[0].snapshot := m]
    requires m.complete && m.received == Sums(chunks) && SameManifest(m, chunks[0])
    requires db.sync.Some? && db.sync.value.device == chunks[0].device
    ensures Done(db, chunks) && SameDevice(db, chunks[0].device)
  {
    SumsAre(chunks);
  }

  lemma {:induction false} AfterLastShows(db: Db, chunks: seq<Chunk>, v: View, i: nat)
    requires ValidSnapshot(chunks) && Shows(db, chunks, v) && i < |chunks| && i !in v.have
    requires v.have + {i} == All(|chunks|)
    ensures Shows(AfterLast(db, chunks[i]), chunks, Switched(v, chunks))
  {
    AfterLastVisible(db, chunks, v, i);
    AfterLastDone(db, chunks, v, i);
  }

  lemma {:induction false} FinalShows(db: Db, chunks: seq<Chunk>, v: View, i: nat)
    requires ValidSnapshot(chunks) && Shows(db, chunks, v) && i < |chunks| && i !in v.have
    requires v.have + {i} == All(|chunks|)
    ensures Shows(Stage(db, chunks[i], chunks[i].device), chunks, ViewStep(v, chunks, Deliver(i)))
  {
    var sealed := db.(vault := SealRecords(db.vault, chunks[i].records));
    SealedShows(db, chunks, v, sealed.vault);
    LastChunkPersists(sealed, chunks, v, i);
    AfterLastShows(sealed, chunks, v, i);
  }

  lemma {:induction false} ArrivalShows(db: Db, chunks: seq<Chunk>, v: View, a: Arrival)
    requires ValidSnapshot(chunks) && Shows(db, chunks, v) && KeepsDevice(a, chunks[0].device)
    ensures Shows(DbStep(db, chunks, a), chunks, ViewStep(v, chunks, a))
  {
    match a {
      case Meanwhile(_, _, _, _, _) =>
      case Deliver(i) =>
        if i < |chunks| {
          if i in v.have {
            ReplayShows(db, chunks, v, i);
          } else if v.have + {i} != All(|chunks|) {
            PartShows(db, chunks, v, i);
          } else {
            FinalShows(db, chunks, v, i);
          }
        }
    }
  }

  /** The replica behaves like the simple machine for every order of arrival, with
      any replays, local work, pushes and pulls in between. */
  lemma {:induction false} StagingRefinesView(db: Db, chunks: seq<Chunk>, v: View, arrivals: seq<Arrival>)
    requires ValidSnapshot(chunks) && Shows(db, chunks, v)
    requires forall i | 0 <= i < |arrivals| :: KeepsDevice(arrivals[i], chunks[0].device)
    ensures Shows(DbRun(db, chunks, arrivals), chunks, ViewRun(v, chunks, arrivals))
    decreases |arrivals|
  {
    if arrivals != [] {
      ArrivalShows(db, chunks, v, arrivals[0]);
      StagingRefinesView(DbStep(db, chunks, arrivals[0]), chunks, ViewStep(v, chunks, arrivals[0]), arrivals[1..]);
    }
  }

  // Order of arrival

  ghost predicate OnlyDeliveries(arrivals: seq<Arrival>) {
    forall i | 0 <= i < |arrivals| :: arrivals[i].Deliver?
  }

  ghost function Delivered(arrivals: seq<Arrival>, n: nat): set<nat> {
    set i | 0 <= i < |arrivals| && arrivals[i].Deliver? && arrivals[i].index < n :: arrivals[i].index
  }

  lemma {:induction false} ViewOfDeliveries(v: View, chunks: seq<Chunk>, arrivals: seq<Arrival>)
    requires ValidSnapshot(chunks) && OnlyDeliveries(arrivals) && v.have <= All(|chunks|)
    requires !Foreign(v.outbox, chunks[0].device) && v.have != All(|chunks|)
    ensures ViewRun(v, chunks, arrivals) ==
            if v.have + Delivered(arrivals, |chunks|) == All(|chunks|) then Switched(v, chunks)
            else v.(have := v.have + Delivered(arrivals, |chunks|))
    decreases |arrivals|
  {
    if arrivals != [] {
      var next, rest := ViewStep(v, chunks, arrivals[0]), arrivals[1..];
      var i := arrivals[0].index;
      DeliveredSplits(arrivals, |chunks|);
      if next.have == All(|chunks|) {
        SwitchedStays(next, chunks, rest);
        assert v.have + Delivered(arrivals, |chunks|) == All(|chunks|);
      } else {
        ViewOfDeliveries(next, chunks, rest);
        assert next.have + Delivered(rest, |chunks|) == v.have + Delivered(arrivals, |chunks|);
      }
    }
  }

  lemma DeliveredSplits(arrivals: seq<Arrival>, n: nat)
    requires arrivals != [] && OnlyDeliveries(arrivals)
    ensures OnlyDeliveries(arrivals[1..])
    ensures Delivered(arrivals, n) == Delivered(arrivals[1..], n) + if arrivals[0].index < n then {arrivals[0].index} else {}
    ensures Delivered(arrivals, n) <= All(n)
  {
    forall x | x in Delivered(arrivals, n)
      ensures x in Delivered(arrivals[1..], n) || x == arrivals[0].index
    {
      var i :| 0 <= i < |arrivals| && arrivals[i].index == x;
      assert i > 0 ==> arrivals[1..][i - 1].index == x;
    }
    forall x | x in Delivered(arrivals[1..], n)
      ensures x in Delivered(arrivals, n)
    {
      var i :| 0 <= i < |arrivals[1..]| && arrivals[1..][i].index == x;
      assert arrivals[i + 1].index == x;
    }
  }

  lemma {:induction false} SwitchedStays(v: View, chunks: seq<Chunk>, arrivals: seq<Arrival>)
    requires ValidSnapshot(chunks) && OnlyDeliveries(arrivals) && v.have == All(|chunks|)
    ensures ViewRun(v, chunks, arrivals) == v
    decreases |arrivals|
  {
    if arrivals != [] {
      SwitchedStays(ViewStep(v, chunks, arrivals[0]), chunks, arrivals[1..]);
    }
  }

  /** Two orders in which all chunks arrive, with whatever replays, leave the same
      entities, outbox and sync row: those of the snapshot. */
  lemma {:induction false} OrderOfArrivalDoesNotMatter(db: Db, chunks: seq<Chunk>, a: seq<Arrival>, b: seq<Arrival>)
    requires ValidSnapshot(chunks) && Shows(db, chunks, View(db.entities, db.outbox, db.sync, {}))
    requires !Foreign(db.outbox, chunks[0].device)
    requires OnlyDeliveries(a) && OnlyDeliveries(b)
    requires Delivered(a, |chunks|) == All(|chunks|) == Delivered(b, |chunks|)
    ensures var s, t, w := DbRun(db, chunks, a), DbRun(db, chunks, b), Switched(View(db.entities, db.outbox, db.sync, {}), chunks);
            && s.entities == t.entities == w.entities
            && s.outbox == t.outbox == w.outbox
            && s.sync == t.sync == w.sync
  {
    var v := View(db.entities, db.outbox, db.sync, {});
    assert 0 in All(|chunks|);
    StagingRefinesView(db, chunks, v, a);
    StagingRefinesView(db, chunks, v, b);
    ViewOfDeliveries(v, chunks, a);
    ViewOfDeliveries(v, chunks, b);
    assert {} + All(|chunks|) == All(|chunks|);
  }

  /** Whatever chunk arrives, local work survives it: within an epoch its entity
      row, and across epochs its operation, isolated. */
  lemma LocalWorkSurvivesStaging(db: Db, c: Chunk, k: Key, id: OpId)
    requires k in db.entities && !db.entities[k].status.Clean? && id in db.outbox
    ensures var t := Stage(db, c, c.device);
            && (!EpochChanged(db.sync, c.epoch) ==> k in t.entities && t.entities[k] == db.entities[k] && t.outbox == db.outbox)
            && id in t.outbox
            && (t.outbox[id] == db.outbox[id]
                || t.outbox[id] == db.outbox[id].(state := Isolated, lastError := Some(EpochMismatch)))
            && (t.sync != db.sync && EpochChanged(db.sync, c.epoch) ==> t.outbox[id].state.Isolated?)
  {
    var sealed := db.(vault := SealRecords(db.vault, c.records));
    if Verify(c, c.device).Ok? {
      PersistSpares(sealed, c, k);
    }
  }

  lemma PersistSpares(db: Db, c: Chunk, k: Key)
    requires k in db.entities && !db.entities[k].status.Clean?
    ensures Persist(db, c).Ok? ==>
              var t := Persist(db, c).value;
              && (t == db.(manifests := t.manifests, staged := t.staged)
                  || (t.sync.Some? && t.sync != db.sync && EpochChanged(db.sync, c.epoch) && t.outbox == Isolate(db.outbox))
                  || (!EpochChanged(db.sync, c.epoch) && t.outbox == db.outbox
                      && k in t.entities && t.entities[k] == db.entities[k]))
  {
    assert k in Preserved(db.entities, false) && Preserved(db.entities, false)[k] == db.entities[k];
  }
}
