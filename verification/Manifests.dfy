/**
 The staging area: what is stored of a snapshot while its chunks arrive.
 */
module Manifests {
  import opened Types
  import opened Bootstrap
  import opened Runs
  import opened Safety
  import opened Guarantees
  import Push
  import Pull
  import Resilience

  ghost predicate StrictlySorted(received: seq<Received>) {
    forall i, j | 0 <= i < j < |received| :: received[i].index < received[j].index
  }

  ghost predicate Below(received: seq<Received>, count: nat) {
    forall i | 0 <= i < |received| :: received[i].index < count
  }

  /** Chunk indexes below the count that are all different fill it without gaps. */
  lemma {:induction false} Pigeonhole(received: seq<Received>, count: nat, i: nat)
    requires StrictlySorted(received) && Below(received, count) && |received| == count && i < count
    ensures received[i].index == i
  {
    AtLeast(received, i);
    AtMost(received, count, i);
  }

  lemma {:induction false} AtLeast(received: seq<Received>, i: nat)
    requires StrictlySorted(received) && i < |received|
    ensures i <= received[i].index
  {
    if i > 0 {
      AtLeast(received, i - 1);
    }
  }

  lemma {:induction false} AtMost(received: seq<Received>, count: nat, i: nat)
    requires StrictlySorted(received) && Below(received, count) && i < |received|
    ensures received[i].index + (|received| - i) <= count
    decreases |received| - i
  {
    if i + 1 < |received| {
      AtMost(received, count, i + 1);
    }
  }

  lemma {:induction false} InsertSorts(received: seq<Received>, r: Received)
    requires StrictlySorted(received) && !HasChunk(received, r.index)
    ensures StrictlySorted(InsertReceived(received, r))
    ensures |InsertReceived(received, r)| == |received| + 1
    ensures forall x :: x in InsertReceived(received, r) <==> x == r || x in received
  {
    if received != [] && received[0].index <= r.index {
      var rest := received[1..];
      assert received == [received[0]] + rest;
      InsertSorts(rest, r);
      var inserted := InsertReceived(rest, r);
      forall j | 0 <= j < |inserted|
        ensures received[0].index < inserted[j].index
      {
        assert inserted[j] in inserted;
      }
    }
  }

  // The staging invariant

  ghost predicate RowFrom(row: Staged, r: Received, key: Key) {
    && row.chunk == r.index && row.index < |r.checksum.records|
    && row.record == r.checksum.records[row.index] && row.record.key == key
  }

  /** The staged rows of a snapshot are exactly the records of the received chunks. */
  ghost predicate RowsMatch(staged: map<StagedKey, Staged>, s: SnapshotId, received: seq<Received>) {
    && (forall r, j | r in received && 0 <= j < |r.checksum.records| ::
          var k := StagedKey(s, r.checksum.records[j].key);
          k in staged && staged[k] == Staged(r.index, j, r.checksum.records[j]))
    && (forall k | k in staged && k.snapshot == s :: exists r :: r in received && RowFrom(staged[k], r, k.key))
  }

  ghost function RowKeys(staged: map<StagedKey, Staged>, s: SnapshotId): set<StagedKey> {
    set k | k in staged && k.snapshot == s
  }

  ghost predicate ManifestOk(m: Manifest) {
    && StrictlySorted(m.received) && Below(m.received, m.count)
    && (m.complete ==> |m.received| == m.count)
  }

  ghost predicate StagingOk(db: Db) {
    && (forall s | s in db.manifests :: ManifestOk(db.manifests[s]))
    && (forall s, s' | s in db.manifests && s' in db.manifests && s != s' ::
          db.manifests[s].complete != db.manifests[s'].complete)
    && (forall s | s in db.manifests && !db.manifests[s].complete ::
          RowsMatch(db.staged, s, db.manifests[s].received)
          && |RowKeys(db.staged, s)| == db.manifests[s].receivedRecords)
    && (forall k | k in db.staged :: k.snapshot in db.manifests && !db.manifests[k.snapshot].complete)
  }

  // One chunk

  predicate DistinctKeys(c: Chunk) {
    forall i, j | 0 <= i < j < |c.records| :: c.records[i].key != c.records[j].key
  }

  lemma {:induction false} RowsUpToAre(c: Chunk, n: nat)
    requires DistinctKeys(c) && n <= |c.records|
    ensures forall j | 0 <= j < n ::
              var k := StagedKey(c.snapshot, c.records[j].key);
              k in RowsUpTo(c, n) && RowsUpTo(c, n)[k] == Staged(c.index, j, c.records[j])
    ensures forall k | k in RowsUpTo(c, n) :: k.snapshot == c.snapshot && RowsUpTo(c, n)[k].index < n
              && c.records[RowsUpTo(c, n)[k].index].key == k.key
              && RowsUpTo(c, n)[k] == Staged(c.index, RowsUpTo(c, n)[k].index, c.records[RowsUpTo(c, n)[k].index])
  {
    if n > 0 {
      RowsUpToAre(c, n - 1);
    }
  }

  lemma {:induction false} RowsUpToSize(c: Chunk, n: nat)
    requires DistinctKeys(c) && n <= |c.records|
    ensures |RowsUpTo(c, n).Keys| == n
  {
    if n > 0 {
      RowsUpToAre(c, n - 1);
      RowsUpToSize(c, n - 1);
      var k := StagedKey(c.snapshot, c.records[n - 1].key);
      assert k !in RowsUpTo(c, n - 1);
      assert RowsUpTo(c, n).Keys == RowsUpTo(c, n - 1).Keys + {k};
    }
  }

  /** A chunk that passed the first checks, about to be stored. */
  ghost predicate Admitted(db: Db, c: Chunk) {
    && StagingOk(db)
    && Verify(c, c.device).Ok?
    && Admit(db, c) == Ok(false)
  }

  ghost function ReceivedSoFar(db: Db, c: Chunk): seq<Received> {
    if c.snapshot in db.manifests then db.manifests[c.snapshot].received else []
  }

  lemma AdmittedBefore(db: Db, c: Chunk)
    requires Admitted(db, c)
    ensures DistinctKeys(c) && c.chunkChecksum == ChunkSum(c.records)
    ensures !HasChunk(ReceivedSoFar(db, c), c.index) && StrictlySorted(ReceivedSoFar(db, c)) && Below(ReceivedSoFar(db, c), c.count)
    ensures RowsMatch(db.staged, c.snapshot, ReceivedSoFar(db, c))
    ensures forall s | s in db.manifests && s != c.snapshot :: db.manifests[s].complete
    ensures c.snapshot in db.manifests ==> !db.manifests[c.snapshot].complete && db.manifests[c.snapshot].count == c.count
    ensures forall r | r in c.records :: StagedKey(c.snapshot, r.key) !in db.staged
    ensures NextManifest(Previous(db, c), c).received == InsertReceived(ReceivedSoFar(db, c), Received(c.index, c.chunkChecksum))
  {
  }

  /** Rows of one chunk, all of them and nothing else. */
  ghost predicate RowsOf(rows: map<StagedKey, Staged>, s: SnapshotId, r: Received) {
    && (forall j | 0 <= j < |r.checksum.records| ::
          var k := StagedKey(s, r.checksum.records[j].key);
          k in rows && rows[k] == Staged(r.index, j, r.checksum.records[j]))
    && (forall k | k in rows :: k.snapshot == s && RowFrom(rows[k], r, k.key))
  }

  lemma RowsMatchExtends(staged: map<StagedKey, Staged>, rows: map<StagedKey, Staged>, s: SnapshotId,
                         before: seq<Received>, r: Received, after: seq<Received>)
    requires RowsMatch(staged, s, before) && RowsOf(rows, s, r)
    requires forall x :: x in after <==> x == r || x in before
    requires forall k | k in rows :: k !in staged
    ensures RowsMatch(staged + rows, s, after)
  {
    forall k | k in staged + rows && k.snapshot == s
      ensures exists x :: x in after && RowFrom((staged + rows)[k], x, k.key)
    {
      if k in rows {
        assert RowFrom(rows[k], r, k.key);
      } else {
        var x :| x in before && RowFrom(staged[k], x, k.key);
      }
    }
  }

  lemma ChunkRows(c: Chunk)
    requires DistinctKeys(c) && c.chunkChecksum == ChunkSum(c.records)
    ensures RowsOf(StagedRows(c), c.snapshot, Received(c.index, c.chunkChecksum))
    ensures |StagedRows(c).Keys| == |c.records|
  {
    RowsUpToAre(c, |c.records|);
    RowsUpToSize(c, |c.records|);
  }

  lemma StoredRows(db: Db, c: Chunk)
    requires Admitted(db, c)
    ensures RowsMatch(db.staged + StagedRows(c), c.snapshot,
                      InsertReceived(ReceivedSoFar(db, c), Received(c.index, c.chunkChecksum)))
  {
    AdmittedBefore(db, c);
    ChunkRows(c);
    var r := Received(c.index, c.chunkChecksum);
    InsertSorts(ReceivedSoFar(db, c), r);
    NewRowsAreNew(db, c);
    RowsMatchExtends(db.staged, StagedRows(c), c.snapshot, ReceivedSoFar(db, c), r, InsertReceived(ReceivedSoFar(db, c), r));
  }

  lemma NewRowsAreNew(db: Db, c: Chunk)
    requires Admitted(db, c)
    ensures forall k | k in StagedRows(c) :: k !in db.staged
  {
    AdmittedBefore(db, c);
    ChunkRows(c);
    forall k | k in StagedRows(c)
      ensures k !in db.staged
    {
      assert c.records[StagedRows(c)[k].index] in c.records;
    }
  }

  lemma CountBefore(db: Db, c: Chunk)
    requires Admitted(db, c)
    ensures |RowKeys(db.staged, c.snapshot)| ==
            if c.snapshot in db.manifests then db.manifests[c.snapshot].receivedRecords else 0
  {
    if c.snapshot !in db.manifests {
      assert RowKeys(db.staged, c.snapshot) == {};
    }
  }

  lemma JoinedCount(staged: map<StagedKey, Staged>, rows: map<StagedKey, Staged>, snapshot: SnapshotId)
    requires forall k | k in rows :: k.snapshot == snapshot && k !in staged
    ensures |RowKeys(staged + rows, snapshot)| == |RowKeys(staged, snapshot)| + |rows.Keys|
  {
    var there := RowKeys(staged, snapshot);
    assert RowKeys(staged + rows, snapshot) == there + rows.Keys;
    assert there !! rows.Keys;
  }

  lemma StoredCount(db: Db, c: Chunk)
    requires Admitted(db, c)
    ensures |RowKeys(db.staged + StagedRows(c), c.snapshot)| == NextManifest(Previous(db, c), c).receivedRecords
  {
    CountBefore(db, c);
    AdmittedBefore(db, c);
    ChunkRows(c);
    NewRowsAreNew(db, c);
    JoinedCount(db.staged, StagedRows(c), c.snapshot);
  }

  lemma StoredManifest(db: Db, c: Chunk)
    requires Admitted(db, c)
    ensures var m := NextManifest(Previous(db, c), c);
            && StrictlySorted(m.received) && Below(m.received, m.count) && m.count == c.count && !m.complete
            && (|m.received| == c.count ==> Gapless(m.received))
            && |m.received| == |ReceivedSoFar(db, c)| + 1
  {
    AdmittedBefore(db, c);
    InsertSorts(ReceivedSoFar(db, c), Received(c.index, c.chunkChecksum));
    var m := NextManifest(Previous(db, c), c);
    forall i | 0 <= i < |m.received|
      ensures m.received[i].index < c.count
    {
      assert m.received[i] in m.received;
    }
    if |m.received| == c.count {
      forall i | 0 <= i < |m.received|
        ensures m.received[i].index == i
      {
        Pigeonhole(m.received, c.count, i);
      }
    }
  }

  lemma StoreKeepsStaging(db: Db, c: Chunk)
    requires Admitted(db, c)
    ensures StagingOk(db.(staged := db.staged + StagedRows(c),
                          manifests := db.manifests[c.snapshot := NextManifest(Previous(db, c), c)]))
  {
    AdmittedBefore(db, c);
    StoredRows(db, c);
    StoredCount(db, c);
    StoredManifest(db, c);
    ChunkRows(c);
    OnlyStaging(db, db.staged + StagedRows(c), c.snapshot, NextManifest(Previous(db, c), c));
  }

  /** Staging one snapshot beside complete ones. */
  lemma OnlyStaging(db: Db, staged: map<StagedKey, Staged>, s: SnapshotId, m: Manifest)
    requires StagingOk(db)
    requires forall s' | s' in db.manifests && s' != s :: db.manifests[s'].complete
    requires s in db.manifests ==> !db.manifests[s].complete
    requires !m.complete && ManifestOk(m) && RowsMatch(staged, s, m.received) && |RowKeys(staged, s)| == m.receivedRecords
    requires forall k | k in staged :: k.snapshot == s
    ensures StagingOk(db.(staged := staged, manifests := db.manifests[s := m]))
  {
  }

  lemma FinishKeepsStaging(db: Db, c: Chunk, m: Manifest)
    requires Admitted(db, c) && m == NextManifest(Previous(db, c), c) && |m.received| == c.count
    ensures StagingOk(db.(
              manifests := Finished(db.manifests, c, m),
              staged := Unstaged(db.staged + StagedRows(c), c.snapshot)))
  {
    AdmittedBefore(db, c);
    StoredManifest(db, c);
    ChunkRows(c);
    var manifests := Finished(db.manifests, c, m);
    assert forall s | s in manifests :: s == c.snapshot;
    assert forall k | k in db.staged + StagedRows(c) :: k.snapshot == c.snapshot;
  }

  lemma PersistKeepsStaging(db: Db, c: Chunk)
    requires StagingOk(db) && Verify(c, c.device).Ok? && Persist(db, c).Ok?
    ensures StagingOk(Persist(db, c).value)
  {
    if Admit(db, c) == Ok(false) {
      StoreKeepsStaging(db, c);
      var m := NextManifest(Previous(db, c), c);
      if |m.received| == c.count {
        FinishKeepsStaging(db, c, m);
        var t := Persist(db, c).value;
        StagingOnly(db.(manifests := t.manifests, staged := t.staged), t);
      }
    }
  }

  lemma StagingOnly(db: Db, t: Db)
    requires StagingOk(db) && t.manifests == db.manifests && t.staged == db.staged
    ensures StagingOk(t)
  {
  }

  /** The two throws that the counting rules out: a gap among all chunks, and a new
      chunk of a snapshot that is complete. */
  lemma ImpossibleThrows(db: Db, c: Chunk)
    requires StagingOk(db) && Verify(c, c.device).Ok?
    ensures var m := NextManifest(Previous(db, c), c);
            Admit(db, c) == Ok(false) && |m.received| == c.count ==> Gapless(m.received)
    ensures c.snapshot in db.manifests && db.manifests[c.snapshot].complete && SameManifest(db.manifests[c.snapshot], c)
            ==> HasChunk(db.manifests[c.snapshot].received, c.index)
  {
    if Admit(db, c) == Ok(false) {
      StoredManifest(db, c);
    }
    if c.snapshot in db.manifests && db.manifests[c.snapshot].complete && SameManifest(db.manifests[c.snapshot], c) {
      var received := db.manifests[c.snapshot].received;
      Pigeonhole(received, c.count, c.index);
      assert received[c.index] in received;
    }
  }

  // All events

  lemma StageKeepsStaging(db: Db, c: Chunk)
    requires StagingOk(db)
    ensures StagingOk(Stage(db, c, c.device))
  {
    var sealed := db.(vault := SealRecords(db.vault, c.records));
    StagingOnly(db, sealed);
    if Verify(c, c.device).Ok? && Persist(sealed, c).Ok? {
      PersistKeepsStaging(sealed, c);
    }
  }

  lemma DiscardKeepsStaging(db: Db, s: SnapshotId, owner: DeviceId)
    requires StagingOk(db)
    ensures StagingOk(Or(Discard(db, s, owner), db))
  {
    if Discard(db, s, owner).Ok? && s in db.manifests {
      var t := Discard(db, s, owner).value;
      assert forall s' | s' in t.manifests :: t.manifests[s'].complete;
    }
  }

  lemma PrepareKeepsStaging(db: Db, c: Chunk, unlocked: bool, attachments: nat)
    requires StagingOk(db)
    ensures StagingOk(Or(Bootstrap.PrepareDevice(db, c, c.device, unlocked, attachments), db))
  {
  }

  lemma {:induction false} FoldKeepsStaging(db: Db, batch: seq<Op>, results: seq<OpResult>)
    requires |batch| == |results| && Push.Fold(db, batch, results).Ok?
    ensures Push.Fold(db, batch, results).value.manifests == db.manifests
    ensures Push.Fold(db, batch, results).value.staged == db.staged
  {
    if batch != [] {
      FoldKeepsStaging(db, batch[..|batch| - 1], results[..|batch| - 1]);
    }
  }

  lemma {:induction false} PullKeepsStaging(db: Db, device: DeviceId, changes: seq<Change>)
    ensures Pull.Fold(db, device, changes).manifests == db.manifests && Pull.Fold(db, device, changes).staged == db.staged
  {
    if changes != [] {
      PullKeepsStaging(db, device, changes[..|changes| - 1]);
    }
  }

  lemma ResolveLeavesStaging(db: Db, r: Resilience.Request)
    ensures var t := Or(Resilience.Resolve(db, r), db); t.manifests == db.manifests && t.staged == db.staged
  {
  }

  lemma LocalLeavesStaging(s: System, e: Event)
    requires IsLocal(e)
    ensures Effect(s, e).db.manifests == s.db.manifests && Effect(s, e).db.staged == s.db.staged
  {
    if e.Resolve? {
      ResolveLeavesStaging(s.db, e.request);
    } else {
      LocalFrame(s, e);
    }
  }

  lemma RemoteLeavesStaging(s: System, e: Event)
    requires (e.PushAnswered? ==> s.sent.Some?)
    requires e.PushAnswered? || e.PullAnswered?
    ensures Effect(s, e).db.manifests == s.db.manifests && Effect(s, e).db.staged == s.db.staged
  {
    match e {
      case PushAnswered(results) =>
        var sealed := s.db.(vault := Push.SealRemotes(s.db.vault, results));
        if Push.Reply(sealed, s.sent.value.batch, results).Ok? {
          FoldKeepsStaging(sealed, s.sent.value.batch, results);
        }
      case PullAnswered(page) =>
        PullKeepsStaging(s.db.(vault := Pull.SealChanges(s.db.vault, page.changes)), Device(s), page.changes);
    }
  }

  lemma OthersLeaveStaging(s: System, e: Event)
    requires !IsLocal(e) && !e.PushAnswered? && !e.PullAnswered?
    requires !e.StageChunk? && !e.DiscardStaging? && !e.PrepareDevice?
    ensures Effect(s, e).db.manifests == s.db.manifests && Effect(s, e).db.staged == s.db.staged
  {
  }

  lemma EventKeepsStaging(s: System, e: Event)
    requires Allowed(s, e) && StagingOk(s.db)
    ensures StagingOk(Next(s, e).db)
  {
    match e {
      case StageChunk(c) => StageKeepsStaging(s.db, c);
      case DiscardStaging(snapshot, owner) => DiscardKeepsStaging(s.db, snapshot, owner);
      case PrepareDevice(c, unlocked, attachments) => PrepareKeepsStaging(s.db, c, unlocked, attachments);
      case _ =>
        if IsLocal(e) {
          LocalLeavesStaging(s, e);
        } else if e.PushAnswered? || e.PullAnswered? {
          RemoteLeavesStaging(s, e);
        } else {
          OthersLeaveStaging(s, e);
        }
        StagingOnly(s.db, Effect(s, e).db);
    }
  }

  /** The staging area is sound in every state a run reaches. */
  lemma {:induction false} RunKeepsStaging(s: System, events: seq<Event>, t: System)
    requires StagingOk(s.db) && RunsTo(s, events, t)
    ensures StagingOk(t.db)
    decreases |events|
  {
    if events != [] {
      EventKeepsStaging(s, events[0]);
      RunKeepsStaging(Next(s, events[0]), events[1..], t);
    }
  }
}
