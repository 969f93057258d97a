/**
 What pulling does, whatever the pages: cutting the change list differently
 changes nothing, and local edits survive.
 */
module Pages {
  import opened Types
  import opened Pull
  import Runs

  // Page boundaries

  /** The same tables beside another vault and sync row. */
  function Beside(db: Db, vault: map<SlotId, Payload>, sync: Option<SyncRow>): Db {
    db.(vault := vault, sync := sync)
  }

  lemma RaiseFrame(db: Db, vault: map<SlotId, Payload>, sync: Option<SyncRow>, ch: Change)
    requires ch.key in db.entities
    ensures Raise(Beside(db, vault, sync), ch) == Beside(Raise(db, ch), vault, sync)
  {
  }

  /** One step, as the tables it writes. */
  lemma StepWrites(db: Db, device: DeviceId, ch: Change)
    ensures Step(db, device, ch) ==
            if Raises(db, ch) then Raise(db, ch)
            else if Skipped(db.entities, ch) then db
            else if ch.key in db.entities && db.entities[ch.key].status.Conflicted? then
              db.(conflicts := Refresh(db.conflicts, ch))
            else db.(entities := Overwrite(db.entities, device, ch))
  {
  }

  lemma QuietFrame(db: Db, vault: map<SlotId, Payload>, sync: Option<SyncRow>, device: DeviceId, ch: Change)
    requires !Raises(db, ch)
    ensures Step(Beside(db, vault, sync), device, ch) == Beside(Step(db, device, ch), vault, sync)
  {
    StepWrites(db, device, ch);
    StepWrites(Beside(db, vault, sync), device, ch);
  }

  lemma StepFrame(db: Db, vault: map<SlotId, Payload>, sync: Option<SyncRow>, device: DeviceId, ch: Change)
    ensures Step(Beside(db, vault, sync), device, ch) == Beside(Step(db, device, ch), vault, sync)
  {
    if Raises(db, ch) {
      StepWrites(db, device, ch);
      StepWrites(Beside(db, vault, sync), device, ch);
      RaiseFrame(db, vault, sync, ch);
    } else {
      QuietFrame(db, vault, sync, device, ch);
    }
  }

  lemma StepKeeps(db: Db, device: DeviceId, ch: Change)
    ensures Step(db, device, ch).vault == db.vault && Step(db, device, ch).sync == db.sync
  {
    StepWrites(db, device, ch);
  }

  /** The fold neither reads nor writes the vault and the sync row. */
  lemma {:induction false} FoldFrame(db: Db, vault: map<SlotId, Payload>, sync: Option<SyncRow>,
                                     device: DeviceId, changes: seq<Change>)
    ensures Fold(Beside(db, vault, sync), device, changes) == Beside(Fold(db, device, changes), vault, sync)
    ensures Fold(db, device, changes).vault == db.vault && Fold(db, device, changes).sync == db.sync
    decreases |changes|
  {
    if changes != [] {
      var n := |changes| - 1;
      FoldFrame(db, vault, sync, device, changes[..n]);
      var before := Fold(db, device, changes[..n]);
      StepFrame(before, vault, sync, device, changes[n]);
      StepKeeps(before, device, changes[n]);
      assert Fold(db, device, changes) == Step(before, device, changes[n]);
      assert Fold(Beside(db, vault, sync), device, changes) == Step(Beside(before, vault, sync), device, changes[n]);
    }
  }

  lemma {:induction false} FoldJoins(db: Db, device: DeviceId, a: seq<Change>, b: seq<Change>)
    ensures Fold(db, device, a + b) == Fold(Fold(db, device, a), device, b)
    decreases |b|
  {
    if b == [] {
      assert a + b == a;
    } else {
      var n := |b| - 1;
      assert (a + b)[..|a + b| - 1] == a + b[..n];
      FoldJoins(db, device, a, b[..n]);
    }
  }

  lemma {:induction false} SealJoins(vault: map<SlotId, Payload>, a: seq<Change>, b: seq<Change>)
    ensures SealChanges(vault, a + b) == SealChanges(SealChanges(vault, a), b)
    decreases |b|
  {
    if b == [] {
      assert a + b == a;
    } else {
      var n := |b| - 1;
      assert (a + b)[..|a + b| - 1] == a + b[..n];
      SealJoins(vault, a, b[..n]);
    }
  }

  lemma AppliedIs(db: Db, device: DeviceId, next: nat, changes: seq<Change>)
    ensures Applied(db, device, next, changes)
            == Beside(Fold(db, device, changes), SealChanges(db.vault, changes), Advance(db.sync, next))
  {
    var v := SealChanges(db.vault, changes);
    FoldFrame(db, v, db.sync, device, changes);
    assert db.(vault := v) == Beside(db, v, db.sync);
  }

  lemma AppliedJoins(db: Db, device: DeviceId, mid: nat, next: nat, a: seq<Change>, b: seq<Change>)
    ensures Applied(Applied(db, device, mid, a), device, next, b) == Applied(db, device, next, a + b)
  {
    var first := Applied(db, device, mid, a);
    AppliedIs(db, device, mid, a);
    AppliedIs(first, device, next, b);
    AppliedIs(db, device, next, a + b);
    SealJoins(db.vault, a, b);
    FoldJoins(db, device, a, b);
    FoldFrame(Fold(db, device, a), first.vault, first.sync, device, b);
  }

  /** Pages that continue each other from a cursor. */
  ghost predicate Consecutive(device: DeviceId, epoch: Epoch, cursor: nat, pages: seq<Page>)
    decreases |pages|
  {
    pages != [] ==>
      && pages[0].device == device && pages[0].epoch == epoch && pages[0].from == cursor
      && InSequence(cursor, pages[0].next, pages[0].changes)
      && Consecutive(device, epoch, pages[0].next, pages[1..])
  }

  function Joined(pages: seq<Page>): seq<Change> {
    if pages == [] then [] else pages[0].changes + Joined(pages[1..])
  }

  function LastCursor(cursor: nat, pages: seq<Page>): nat
    decreases |pages|
  {
    if pages == [] then cursor else LastCursor(pages[0].next, pages[1..])
  }

  /** Receiving pages one after the other. */
  function ReceiveAll(db: Db, device: DeviceId, pages: seq<Page>): Result<Db>
    decreases |pages|
  {
    if pages == [] then Ok(db) else
      match Receive(db, device, pages[0])
      case Err(code) => Err(code)
      case Ok(after) => ReceiveAll(after, device, pages[1..])
  }

  lemma {:induction false} JoinedInSequence(device: DeviceId, epoch: Epoch, cursor: nat, pages: seq<Page>)
    requires Consecutive(device, epoch, cursor, pages)
    ensures InSequence(cursor, LastCursor(cursor, pages), Joined(pages))
    decreases |pages|
  {
    if pages != [] {
      JoinedInSequence(device, epoch, pages[0].next, pages[1..]);
    }
  }

  /** However the server cuts a change list into pages, applying them in turn is
      applying the whole list at once. */
  lemma {:induction false} PageBoundariesDoNotMatter(db: Db, device: DeviceId, epoch: Epoch, pages: seq<Page>)
    requires CanResume(db.sync, device) && db.sync.value.epoch == Some(epoch) && pages != []
    requires Consecutive(device, epoch, db.sync.value.cursor, pages)
    ensures var cursor := db.sync.value.cursor;
            && ReceiveAll(db, device, pages).Ok?
            && ReceiveAll(db, device, pages)
               == Receive(db, device, Page(device, epoch, cursor, LastCursor(cursor, pages), false, Joined(pages)))
    decreases |pages|
  {
    var cursor := db.sync.value.cursor;
    JoinedInSequence(device, epoch, cursor, pages);
    AppliedSync(db, device, pages[0].next, pages[0].changes);
    var after := Applied(db, device, pages[0].next, pages[0].changes);
    if |pages| == 1 {
      assert Joined(pages) == pages[0].changes + [];
      assert pages[0].changes + [] == pages[0].changes;
      assert ReceiveAll(after, device, pages[1..]) == Ok(after);
    } else {
      PageBoundariesDoNotMatter(after, device, epoch, pages[1..]);
      AppliedJoins(db, device, pages[0].next, LastCursor(cursor, pages), pages[0].changes, Joined(pages[1..]));
      JoinedInSequence(device, epoch, pages[0].next, pages[1..]);
    }
  }

  lemma AppliedSync(db: Db, device: DeviceId, next: nat, changes: seq<Change>)
    ensures Applied(db, device, next, changes).sync == Advance(db.sync, next)
  {
    AppliedIs(db, device, next, changes);
    FoldFrame(db, db.vault, db.sync, device, changes);
  }

  // Local edits

  /** The row of an entity with local work keeps everything but its status. */
  ghost predicate Spares(db: Db, t: Db, ch: Change, k: Key)
    requires k in db.entities
  {
    && k in t.entities && !t.entities[k].status.Clean?
    && t.entities[k] == db.entities[k].(status := t.entities[k].status)
    && (db.entities[k].status.Conflicted? || ch.key == k ==> t.entities[k].status.Conflicted?)
    && (ch.key != k ==> t.entities[k] == db.entities[k])
  }

  lemma OverwriteSpares(db: Db, device: DeviceId, ch: Change, k: Key)
    requires Runs.OrdinaryType(k.kind) && k in db.entities && k != ch.key
    ensures k in Overwrite(db.entities, device, ch) && Overwrite(db.entities, device, ch)[k] == db.entities[k]
  {
  }

  lemma StepSpares(db: Db, device: DeviceId, ch: Change, k: Key)
    requires Runs.OrdinaryType(k.kind)
    requires k in db.entities && !db.entities[k].status.Clean?
    ensures Spares(db, Step(db, device, ch), ch, k)
  {
    if Skipped(db.entities, ch) {
    } else if Raises(db, ch) {
      assert Step(db, device, ch).entities == db.entities[ch.key := db.entities[ch.key].(status := Conflicted)];
    } else if ch.key in db.entities && db.entities[ch.key].status.Conflicted? {
    } else {
      OverwriteSpares(db, device, ch, k);
    }
  }

  lemma {:induction false} LocalEditsSurvive(db: Db, device: DeviceId, changes: seq<Change>, k: Key)
    requires Runs.OrdinaryType(k.kind)
    requires k in db.entities && !db.entities[k].status.Clean?
    ensures var t := Fold(db, device, changes);
            && k in t.entities && !t.entities[k].status.Clean?
            && t.entities[k] == db.entities[k].(status := t.entities[k].status)
            && (t.entities[k].status.Conflicted? <==>
                  db.entities[k].status.Conflicted? || exists i :: 0 <= i < |changes| && changes[i].key == k)
  {
    if changes != [] {
      var n := |changes| - 1;
      LocalEditsSurvive(db, device, changes[..n], k);
      StepSpares(Fold(db, device, changes[..n]), device, changes[n], k);
      if exists i :: 0 <= i < |changes[..n]| && changes[..n][i].key == k {
        var i :| 0 <= i < |changes[..n]| && changes[..n][i].key == k;
        assert changes[i].key == k;
      }
      if exists i :: 0 <= i < |changes| && changes[i].key == k {
        var i :| 0 <= i < |changes| && changes[i].key == k;
        assert i < n ==> changes[..n][i].key == k;
      }
    }
  }

  /** The first change to an entity. */
  function First(changes: seq<Change>, k: Key): Option<Change> {
    if changes == [] then None
    else
      var before := First(changes[..|changes| - 1], k);
      if before.Some? then before
      else if changes[|changes| - 1].key == k then Some(changes[|changes| - 1]) else None
  }

  /** The change to an entity with the highest version, the earliest of several. */
  function Highest(changes: seq<Change>, k: Key): Option<Change> {
    if changes == [] then None
    else
      var before, ch := Highest(changes[..|changes| - 1], k), changes[|changes| - 1];
      if ch.key == k && (before.None? || before.value.serverVersion < ch.serverVersion) then Some(ch) else before
  }

  lemma {:induction false} HighestIsHighest(changes: seq<Change>, k: Key)
    ensures First(changes, k).Some? <==> Highest(changes, k).Some?
    ensures Highest(changes, k).Some? ==> Highest(changes, k).value in changes && Highest(changes, k).value.key == k
    ensures forall i | 0 <= i < |changes| && changes[i].key == k ::
              Highest(changes, k).Some? && changes[i].serverVersion <= Highest(changes, k).value.serverVersion
  {
    if changes != [] {
      HighestIsHighest(changes[..|changes| - 1], k);
      assert forall i | 0 <= i < |changes| - 1 :: changes[i] == changes[..|changes| - 1][i];
    }
  }

  /** An open conflict that shows both sides of an entity. */
  ghost predicate ShowsBothSides(c: ConflictRow, k: Key, local: Entity, remote: Change) {
    && c.key == k && c.status.OpenConflict? && !c.serverRecorded
    && c.localPayload == local.payload && c.localHash == local.payloadHash && c.baseVersion == local.serverVersion
    && c.remoteVersion == remote.serverVersion && c.remotePayload == Stored(remote)
    && c.remoteHash == remote.payloadHash && c.remoteDeletedAt == remote.deletedAt
  }

  /** Every pending entity a page touches ends up conflicted, with an open record
      of the local body and of the highest remote version in the page. */
  lemma {:induction false} RaisedConflictShowsHighest(db: Db, device: DeviceId, changes: seq<Change>, k: Key)
    requires Runs.OrdinaryType(k.kind)
    requires k in db.entities && db.entities[k].status.Pending? && First(changes, k).Some?
    ensures var t := Fold(db, device, changes);
            var id := Pulled(First(changes, k).value.op, k);
            && Highest(changes, k).Some?
            && k in t.entities && t.entities[k].status.Conflicted?
            && id in t.conflicts && ShowsBothSides(t.conflicts[id], k, db.entities[k], Highest(changes, k).value)
  {
    var n := |changes| - 1;
    HighestIsHighest(changes, k);
    HighestIsHighest(changes[..n], k);
    LocalEditsSurvive(db, device, changes[..n], k);
    LocalEditsSurvive(db, device, changes, k);
    if First(changes[..n], k).Some? {
      RaisedConflictShowsHighest(db, device, changes[..n], k);
      StepKeepsRecord(Fold(db, device, changes[..n]), device, changes[n], k, db.entities[k],
                      Pulled(First(changes, k).value.op, k), Highest(changes[..n], k).value);
    } else {
      NoneTouched(changes[..n], k);
    }
  }

  lemma {:induction false} NoneTouched(changes: seq<Change>, k: Key)
    requires First(changes, k).None?
    ensures forall i | 0 <= i < |changes| :: changes[i].key != k
  {
    if changes != [] {
      NoneTouched(changes[..|changes| - 1], k);
      assert forall i | 0 <= i < |changes| - 1 :: changes[i] == changes[..|changes| - 1][i];
    }
  }

  lemma RefreshKeepsRecord(c: ConflictRow, ch: Change, k: Key, local: Entity, top: Change)
    requires ShowsBothSides(c, k, local, top)
    ensures ShowsBothSides(RefreshedRow(c, ch), k, local,
                           if ch.key == k && top.serverVersion < ch.serverVersion then ch else top)
  {
  }

  lemma StepKeepsRecord(db: Db, device: DeviceId, ch: Change, k: Key, local: Entity, id: ConflictId, top: Change)
    requires Runs.OrdinaryType(k.kind)
    requires k in db.entities && db.entities[k].status.Conflicted?
    requires id in db.conflicts && ShowsBothSides(db.conflicts[id], k, local, top) && id.Pulled? && id.key == k
    ensures var t := Step(db, device, ch);
            var top' := if ch.key == k && top.serverVersion < ch.serverVersion then ch else top;
            id in t.conflicts && ShowsBothSides(t.conflicts[id], k, local, top')
  {
    RefreshKeepsRecord(db.conflicts[id], ch, k, local, top);
    if ch.key == k {
      assert Step(db, device, ch).conflicts == Refresh(db.conflicts, ch);
    } else if Raises(db, ch) {
      assert id != Pulled(ch.op, ch.key);
    }
  }
}
