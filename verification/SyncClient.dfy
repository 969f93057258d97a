/**
 The sync cycle on the database itself (packages/offline/src/sync-client.ts):
 the loops over results, changes and pages that update the tables in place.
 */
module SyncClient {
  import opened Types
  import opened Tables
  import opened Graph
  import LocalRepository
  import Scheduler
  import Push
  import Pull
  import Pages
  import Runs

  datatype PushAnswer =
    | PushResponse(device: DeviceId, epoch: Epoch, results: seq<OpResult>)
    | PushControl(action: Control)

  datatype PullAnswer = PullResponse(page: Page) | PullControl(action: Control)

  /** What a cycle reports: how much was moved, and a control message if any. */
  datatype Outcome = Outcome(count: nat, hasMore: bool, control: Option<Control>)

  const MAX_PAGES := 1000

  // Prefixes of the pages that were applied

  function Changes(pages: seq<Page>): nat {
    if pages == [] then 0 else Changes(pages[..|pages| - 1]) + |pages[|pages| - 1].changes|
  }

  lemma {:induction false} ReceiveAllStep(db: Db, device: DeviceId, pages: seq<Page>, page: Page)
    requires Pages.ReceiveAll(db, device, pages).Ok?
    ensures Pages.ReceiveAll(db, device, pages + [page])
            == Pull.Receive(Pages.ReceiveAll(db, device, pages).value, device, page)
    decreases |pages|
  {
    if pages == [] {
      assert [page][1..] == [];
      if Pull.Receive(db, device, page).Ok? {
        assert Pages.ReceiveAll(Pull.Receive(db, device, page).value, device, []) == Pull.Receive(db, device, page);
      }
    } else {
      assert (pages + [page])[1..] == pages[1..] + [page];
      ReceiveAllStep(Pull.Receive(db, device, pages[0]).value, device, pages[1..], page);
    }
  }

  /** The first answers were these pages. */
  ghost predicate Taken(answers: seq<PullAnswer>, pages: seq<Page>) {
    |pages| <= |answers| && forall i | 0 <= i < |pages| :: answers[i] == PullResponse(pages[i])
  }

  ghost predicate AllMore(pages: seq<Page>) {
    forall i | 0 <= i < |pages| :: pages[i].more
  }

  lemma OneMoreTaken(answers: seq<PullAnswer>, pages: seq<Page>, page: Page)
    requires Taken(answers, pages) && |pages| < |answers| && answers[|pages|] == PullResponse(page)
    ensures Taken(answers, pages + [page]) && (pages + [page])[..|pages|] == pages
    ensures page.more && AllMore(pages) ==> AllMore(pages + [page])
  {
  }

  lemma OneMorePage(db: Db, device: DeviceId, pages: seq<Page>, page: Page)
    requires Pages.ReceiveAll(db, device, pages).Ok?
    requires Pull.Receive(Pages.ReceiveAll(db, device, pages).value, device, page).Ok?
    ensures Pages.ReceiveAll(db, device, pages + [page])
            == Pull.Receive(Pages.ReceiveAll(db, device, pages).value, device, page)
    ensures Changes(pages + [page]) == Changes(pages) + |page.changes|
  {
    ReceiveAllStep(db, device, pages, page);
    ReceiveAllStep(db, device, pages + [page], page);
    assert (pages + [page])[..|pages|] == pages;
  }

  /** The sequence a page has reached: the variable `expected`. */
  function Reached(from: nat, changes: seq<Change>): nat {
    if changes == [] then from else changes[|changes| - 1].sequence
  }

  lemma {:induction false} InSequenceStep(from: nat, next: nat, changes: seq<Change>, n: nat)
    requires n < |changes| && Pull.InSequence(from, Reached(from, changes[..n]), changes[..n])
    ensures changes[n].sequence > Reached(from, changes[..n]) ==>
              Pull.InSequence(from, Reached(from, changes[..n + 1]), changes[..n + 1])
    ensures changes[n].sequence <= Reached(from, changes[..n]) || changes[n].sequence > next ==>
              !Pull.InSequence(from, next, changes)
  {
    if n > 0 {
      assert changes[..n][n - 1] == changes[n - 1];
    }
    forall i | 0 <= i < n
      ensures changes[i].sequence <= Reached(from, changes[..n])
    {
      assert changes[..n][i] == changes[i];
    }
  }

  class Client {
    const database: Database

    constructor (database: Database)
      ensures this.database == database
    {
      this.database := database;
    }

    method ApplyControl(action: Control)
      modifies database
      ensures database.View() == Pull.ApplyControl(old(database.View()), action)
    {
      if database.sync.Some? {
        var state := if action.UpgradeControl? then UpgradeRequired else RebootstrapRequired;
        database.sync := Some(database.sync.value.(bootstrap := state));
      }
    }

    // Push

    /** The first hundred ready operations. */
    method PrepareBatch(device: DeviceId) returns (r: Result<seq<Op>>)
      requires Keyed(database.outbox)
      ensures r.Ok? ==> exists listing :: Scheduler.ReadyListing(Scheduler.DeviceRows(database.outbox, device), listing)
                                          && r.value == Runs.Batch(listing)
      ensures r.Err? ==> r.code == DependencyCycle && Cyclic(WaitingRows(Scheduler.DeviceRows(database.outbox, device)))
    {
      var ready :- Scheduler.ListReady(database.outbox, device);
      return Ok(if |ready| <= Push.BATCH then ready else ready[..Push.BATCH]);
    }

    method SetConflictStatus(id: ConflictId, status: ConflictStatus)
      modifies database`conflicts
      ensures database.conflicts == Push.SetStatus(old(database.conflicts), id, status)
    {
      if id in database.conflicts {
        database.conflicts := database.conflicts[id := database.conflicts[id].(status := status)];
      }
    }

    method SetOperation(id: OpId, state: OutboxState, error: SyncError)
      modifies database`outbox
      ensures database.outbox == Push.SetState(old(database.outbox), id, state, error)
    {
      if id in database.outbox {
        database.outbox := database.outbox[id := database.outbox[id].(state := state, lastError := Some(error))];
      }
    }

    method AcknowledgeEntity(op: Op, version: nat)
      modifies database`entities
      ensures database.entities == Push.AckEntities(old(database.entities), database.outbox, op, version)
    {
      var owner := Owner(op.key);
      if owner in database.entities {
        var remaining := Related(database.outbox, owner);
        var status := SyncStatus.Clean;
        if exists id | id in remaining :: remaining[id].state.InConflict? {
          status := Conflicted;
        } else if |remaining| > 0 {
          status := SyncStatus.Pending;
        }
        database.entities :=
          database.entities[owner := database.entities[owner].(serverVersion := version, status := status)];
        var document := Key(DocState, DocStateOf(op.key.id));
        if op.key.kind.DocUpdate? && document in database.entities {
          database.entities :=
            database.entities[document := database.entities[document].(serverVersion := version, status := Clean)];
        }
      }
    }

    /** An applied operation, or one the server had applied before. */
    method Acknowledge(op: Op, version: nat)
      modifies database
      ensures database.View() == Push.Ack(old(database.View()), op, version)
    {
      database.outbox := database.outbox - {op.id};
      AcknowledgeEntity(op, version);
      if op.resolution.Some? && !op.resolution.value.choice.Dismiss? {
        SetConflictStatus(op.resolution.value.conflict, Push.Resolved(op.resolution.value.choice));
      } else {
        database.conflicts := map id | id in database.conflicts ::
          var c := database.conflicts[id];
          if Push.AwaitsOp(c, op.id) then c.(status := Push.Resolved(c.requested.value)) else c;
      }
    }

    method RefuseWithConflict(op: Op, c: ServerConflict) returns (r: Result<()>)
      modifies database
      ensures match Push.Refuse(old(database.View()), op, c)
              case Ok(after) => r.Ok? && database.View() == after
              case Err(code) => r == Err(code)
    {
      var owner := Owner(op.key);
      if owner !in database.entities {
        return Err(TransactionFailed);
      }
      var local := database.entities[owner];
      var remote := if Protected(c.key.kind) then Reference(OfConflict(c.id)) else c.remotePayload;
      database.conflicts := database.conflicts[c.id := ConflictRow(
        c.key, OpenConflict, c.kind, c.baseVersion, local.payload, c.localHash, c.remoteVersion, remote,
        c.remoteHash, c.remoteDeletedAt, c.options, Some(op.id), Some(op.device), None, None, true, c.createdAt)];
      if op.resolution.Some? {
        SetConflictStatus(op.resolution.value.conflict, Dismissed);
      }
      database.entities := database.entities[owner := local.(status := Conflicted)];
      SetOperation(op.id, InConflict, SyncConflict);
      return Ok(());
    }

    method Reject(op: Op, error: nat)
      modifies database
      ensures database.View() == Push.Fail(old(database.View()), op, error)
    {
      SetOperation(op.id, Blocked, Reported(error));
      if op.kind.Delete? && op.key in database.entities {
        database.entities :=
          database.entities[op.key := database.entities[op.key].(deletedAt := None, status := SyncStatus.Pending)];
      }
    }

    method ApplyResult(op: Op, result: OpResult) returns (r: Result<()>)
      modifies database
      ensures match Push.Step(old(database.View()), op, result)
              case Ok(after) => r.Ok? && database.View() == after
              case Err(code) => r == Err(code)
    {
      if result.op != op.id {
        return Err(TransactionFailed);
      }
      match result {
        case Acked(_, _, version, _) => Acknowledge(op, version); r := Ok(());
        case Refused(_, conflict) => r := RefuseWithConflict(op, conflict);
        case Failed(_, _, error) => Reject(op, error); r := Ok(());
      }
    }

    /** The bodies of protected conflicts go to the vault before the transaction. */
    method SealConflicts(results: seq<OpResult>)
      modifies database`vault
      ensures database.vault == Push.SealRemotes(old(database.vault), results)
    {
      for n := 0 to |results|
        invariant database.vault == Push.SealRemotes(old(database.vault), results[..n])
      {
        assert results[..n + 1][..n] == results[..n];
        var result := results[n];
        if result.Refused? && Protected(result.conflict.key.kind) {
          database.vault := database.vault[OfConflict(result.conflict.id) := result.conflict.remotePayload];
        }
      }
      assert results[..|results|] == results;
    }

    /** The transaction over all results. */
    method ApplyResults(batch: seq<Op>, results: seq<OpResult>) returns (r: Result<()>)
      requires |batch| == |results|
      modifies database
      ensures match Push.Reply(old(database.View()), batch, results)
              case Ok(after) => r.Ok? && database.View() == after
              case Err(code) => r == Err(code) && database.View() == old(database.View())
    {
      var before := database.View();
      for n := 0 to |batch|
        invariant Push.Fold(before, batch[..n], results[..n]) == Ok(database.View())
      {
        assert batch[..n + 1][..n] == batch[..n] && results[..n + 1][..n] == results[..n];
        var step := ApplyResult(batch[n], results[n]);
        if step.Err? {
          FoldStopsAt(before, batch, results, n + 1);
          database.Restore(before);
          return step;
        }
      }
      assert batch[..|batch|] == batch && results[..|results|] == results;
      if database.sync.Some? {
        database.sync := Some(database.sync.value.(bootstrap := Ready));
      }
      return Ok(());
    }

    /** Everything pushReady does with the answer to the request it sent in `state`. */
    method PushAnswered(state: SyncRow, batch: seq<Op>, answer: PushAnswer) returns (r: Result<Outcome>)
      modifies database
      ensures answer.PushControl? ==>
                && database.View() == Pull.ApplyControl(old(database.View()), answer.action)
                && r == Ok(Outcome(0, false, Some(answer.action)))
      ensures answer.PushResponse? && (answer.device != state.device || Some(answer.epoch) != state.epoch) ==>
                database.View() == old(database.View()) && r == Err(ContextMismatch)
      ensures answer.PushResponse? && answer.device == state.device && Some(answer.epoch) == state.epoch ==>
                database.View() == Push.Receive(old(database.View()), batch, answer.results)
      ensures answer.PushResponse? && answer.device == state.device && Some(answer.epoch) == state.epoch ==>
                var sealed := old(database.View()).(vault := Push.SealRemotes(old(database.vault), answer.results));
                match Push.Reply(sealed, batch, answer.results)
                case Ok(after) => r == Ok(Outcome(|batch|, false, None)) && database.View() == after
                case Err(code) => r == Err(code)
    {
      if answer.PushControl? {
        ApplyControl(answer.action);
        return Ok(Outcome(0, false, Some(answer.action)));
      }
      if answer.device != state.device || Some(answer.epoch) != state.epoch || |answer.results| != |batch| {
        return Err(ContextMismatch);
      }
      SealConflicts(answer.results);
      ghost var sealed := database.View();
      var applied :- ApplyResults(batch, answer.results);
      FoldKeepsVault(sealed, batch, answer.results);
      return Ok(Outcome(|batch|, false, None));
    }

    // Pull

    /** Conflicts still open on the entity take over the newer remote side. */
    method RefreshConflicts(ch: Change)
      modifies database`conflicts
      ensures database.conflicts == Pull.Refresh(old(database.conflicts), ch)
    {
      var before := database.conflicts;
      var todo := set id | id in before && before[id].key == ch.key && before[id].status.OpenConflict?;
      while todo != {}
        invariant todo <= before.Keys
        invariant database.conflicts.Keys == before.Keys
        invariant forall id | id in before ::
                    database.conflicts[id] == if id in todo then before[id] else Pull.RefreshedRow(before[id], ch)
        decreases todo
      {
        var id :| id in todo;
        todo := todo - {id};
        var conflict := database.conflicts[id];
        if conflict.remoteVersion < ch.serverVersion {
          conflict := conflict.(remoteVersion := ch.serverVersion, remotePayload := Pull.Stored(ch),
                                remoteHash := ch.payloadHash, remoteDeletedAt := ch.deletedAt, serverRecorded := false);
          if ch.tombstone {
            conflict := conflict.(kind := DeleteUpdate, options := {KeepRemote, Dismiss});
          }
          database.conflicts := database.conflicts[id := conflict];
        }
      }
    }

    method DescribeConflict(existing: Entity, ch: Change, source: Option<OpId>) returns (row: ConflictRow)
      requires source.Some? ==> source.value in database.outbox
      ensures row == Pull.RaisedConflict(existing, ch, source, database.outbox)
    {
      var kind, options := StatusConflict, {KeepRemote, Choice.Dismiss};
      if ch.tombstone || existing.deletedAt.Some? {
        kind := DeleteUpdate;
      } else {
        if Pull.HasContent(ch.key.kind) {
          kind := ContentConflict;
        }
        if ch.key.kind.Note? || ch.key.kind.Resource? {
          options := {KeepLocal, KeepRemote, Merge, Choice.Dismiss};
        } else if ch.key.kind.Topic? || ch.key.kind.QuizItem? {
          options := {KeepLocal, KeepRemote, Choice.Dismiss};
        }
      }
      var device := if source.Some? then Some(database.outbox[source.value].device) else None;
      row := ConflictRow(
        ch.key, OpenConflict, kind, existing.serverVersion, existing.payload, existing.payloadHash,
        ch.serverVersion, Pull.Stored(ch), ch.payloadHash, ch.deletedAt, options, source, device, None, None, false,
        ch.occurredAt);
    }

    lemma HeldIsHeld(before: map<OpId, Op>, related: map<OpId, Op>, after: map<OpId, Op>, key: Key)
      requires related == Related(before, key) && after.Keys == before.Keys
      requires forall id | id in before ::
                 after[id] == if id in related then before[id].(state := InConflict, lastError := Some(SyncConflict)) else before[id]
      ensures after == Pull.HoldRelated(before, key)
    {
    }

    lemma NothingToHold(outbox: map<OpId, Op>, key: Key)
      requires Related(outbox, key) == map[]
      ensures Pull.HoldRelated(outbox, key) == outbox
    {
      assert forall id | id in outbox :: Touches(key, outbox[id].key) ==> id in Related(outbox, key);
    }

    method HoldBack(related: map<OpId, Op>)
      modifies database`outbox
      ensures database.outbox.Keys == old(database.outbox).Keys
      ensures forall id | id in database.outbox ::
                database.outbox[id] == if id in related then old(database.outbox)[id].(state := InConflict, lastError := Some(SyncConflict))
                                       else old(database.outbox)[id]
    {
      database.outbox := map id | id in database.outbox ::
        if id in related then database.outbox[id].(state := InConflict, lastError := Some(SyncConflict))
        else database.outbox[id];
    }

    /** A change that meets local work: record the conflict, hold the work back. */
    method RaiseConflict(ch: Change)
      requires ch.key in database.entities
      modifies database
      ensures database.View() == Pull.Raise(old(database.View()), ch)
    {
      var existing := database.entities[ch.key];
      var related := Related(database.outbox, ch.key);
      var source := LocalRepository.Newest(related);
      var row := DescribeConflict(existing, ch, source);
      database.conflicts := database.conflicts[Pulled(ch.op, ch.key) := row];
      ghost var before := database.outbox;
      if source.Some? {
        HoldBack(related);
        HeldIsHeld(before, related, database.outbox, ch.key);
      } else {
        NothingToHold(before, ch.key);
      }
      database.entities := database.entities[ch.key := existing.(status := Conflicted)];
    }

    method TakeOver(device: DeviceId, ch: Change)
      modifies database`entities
      ensures database.entities == Pull.Overwrite(old(database.entities), device, ch)
    {
      var actor, revision, createdAt, createdBy := device, 0, ch.occurredAt, device;
      if ch.key in database.entities {
        var existing := database.entities[ch.key];
        actor, revision := existing.updatedBy, existing.localRevision;
        createdAt, createdBy := existing.createdAt, existing.createdBy;
      }
      database.entities := database.entities[ch.key := Entity(
        ch.serverVersion, revision, createdAt, ch.occurredAt, ch.deletedAt, createdBy, actor, Pull.Stored(ch),
        ch.payloadHash, Clean)];
      if ch.key.kind.Note? && ch.tombstone {
        database.entities := database.entities - {Key(DocState, DocStateOf(ch.key.id))};
        database.entities := database.entities - {Key(DocUpdate, ch.key.id)};
      }
    }

    method ApplyChange(device: DeviceId, ch: Change)
      modifies database
      ensures database.View() == Pull.Step(old(database.View()), device, ch)
    {
      var note := Pull.NoteOf(ch);
      if note.Some? && Key(Note, note.value) in database.entities {
        var row := database.entities[Key(Note, note.value)];
        if !row.status.Clean? || row.deletedAt.Some? {
          return;
        }
      }
      if ch.key in database.entities && database.entities[ch.key].status.Conflicted? {
        RefreshConflicts(ch);
      } else if ch.key in database.entities && database.entities[ch.key].status.Pending? {
        RaiseConflict(ch);
      } else {
        TakeOver(device, ch);
      }
    }

    method SealBodies(changes: seq<Change>) returns (vault: map<SlotId, Payload>)
      ensures vault == Pull.SealChanges(database.vault, changes)
    {
      vault := database.vault;
      for n := 0 to |changes|
        invariant vault == Pull.SealChanges(database.vault, changes[..n])
      {
        assert changes[..n + 1][..n] == changes[..n];
        if Protected(changes[n].key.kind) && !changes[n].tombstone {
          vault := vault[OfOp(changes[n].op) := changes[n].payload];
        }
      }
      assert changes[..|changes|] == changes;
    }

    /** One page, as one transaction. The order of the changes is checked on the way,
        and a page that is out of order leaves nothing behind. */
    method ApplyPull(device: DeviceId, page: Page) returns (r: Result<()>)
      modifies database
      ensures r.Ok? <==> Pull.InSequence(page.from, page.next, page.changes)
      ensures r.Ok? ==> database.View() == Pull.Applied(old(database.View()), device, page.next, page.changes)
      ensures r.Err? ==> r.code == TransactionFailed && database.View() == old(database.View())
    {
      var before := database.View();
      database.vault := SealBodies(page.changes);
      ghost var sealed := database.View();
      var expected := page.from;
      for n := 0 to |page.changes|
        invariant database.View() == Pull.Fold(sealed, device, page.changes[..n])
        invariant expected == Reached(page.from, page.changes[..n])
        invariant n == 0 || expected <= page.next
        invariant Pull.InSequence(page.from, expected, page.changes[..n])
      {
        assert page.changes[..n + 1][..n] == page.changes[..n];
        InSequenceStep(page.from, page.next, page.changes, n);
        if page.changes[n].sequence <= expected || page.changes[n].sequence > page.next {
          database.Restore(before);
          return Err(TransactionFailed);
        }
        expected := page.changes[n].sequence;
        ApplyChange(device, page.changes[n]);
      }
      assert page.changes[..|page.changes|] == page.changes;
      if page.next < expected || page.next < page.from {
        database.Restore(before);
        return Err(TransactionFailed);
      }
      if database.sync.Some? {
        database.sync := Some(database.sync.value.(cursor := page.next, bootstrap := Ready));
      }
      return Ok(());
    }

    method ReceivePage(device: DeviceId, page: Page) returns (r: Result<()>)
      modifies database
      ensures match Pull.Receive(old(database.View()), device, page)
              case Ok(after) => r.Ok? && database.View() == after
              case Err(code) => r == Err(code) && database.View() == old(database.View())
    {
      if !Pull.CanResume(database.sync, device) || !Pull.Answers(page, database.sync.value) {
        return Err(ContextMismatch);
      }
      r := ApplyPull(device, page);
    }

    /** pullPages: page after page until the server has no more, sends a control
        message, or `MAX_PAGES` were taken. `taken` pages were applied, and the
        tables are those that applying these pages alone leaves behind. */
    method PullPages(device: DeviceId, answers: seq<PullAnswer>) returns (r: Result<Outcome>, ghost pages: seq<Page>)
      requires |answers| == MAX_PAGES
      modifies database
      ensures Taken(answers, pages)
      ensures pages != [] ==> AllMore(pages[..|pages| - 1])
      ensures Pages.ReceiveAll(old(database.View()), device, pages).Ok?
      ensures r.Ok? ==> r.value.count == Changes(pages)
      ensures r.Ok? && r.value.control.None? ==>
                && database.View() == Pages.ReceiveAll(old(database.View()), device, pages).value
                && (if r.value.hasMore then |pages| == MAX_PAGES && pages[|pages| - 1].more
                    else pages != [] && !pages[|pages| - 1].more)
      ensures r.Ok? && r.value.control.Some? ==>
                && |pages| < MAX_PAGES && answers[|pages|] == PullControl(r.value.control.value)
                && database.View() == Pull.ApplyControl(Pages.ReceiveAll(old(database.View()), device, pages).value,
                                                        r.value.control.value)
      ensures r.Err? ==>
                && |pages| < MAX_PAGES
                && database.View() == Pages.ReceiveAll(old(database.View()), device, pages).value
                && (!Pull.CanResume(database.sync, device)
                    || (answers[|pages|].PullResponse?
                        && Pull.Receive(database.View(), device, answers[|pages|].page) == Err(r.code)))
    {
      var pulled := 0;
      pages := [];
      for n := 0 to MAX_PAGES
        invariant |pages| == n && Taken(answers, pages) && AllMore(pages)
        invariant Pages.ReceiveAll(old(database.View()), device, pages) == Ok(database.View())
        invariant pulled == Changes(pages)
      {
        if !Pull.CanResume(database.sync, device) {
          return Err(ContextMismatch), pages;
        }
        match answers[n] {
          case PullControl(action) =>
            ApplyControl(action);
            return Ok(Outcome(pulled, false, Some(action))), pages;
          case PullResponse(page) =>
            var received := ReceivePage(device, page);
            if received.Err? {
              return Err(received.code), pages;
            }
            OneMorePage(old(database.View()), device, pages, page);
            OneMoreTaken(answers, pages, page);
            pages := pages + [page];
            pulled := pulled + |page.changes|;
            if !page.more {
              return Ok(Outcome(pulled, false, None)), pages;
            }
        }
      }
      assert AllMore(pages[..MAX_PAGES - 1]) && pages[MAX_PAGES - 1].more;
      return Ok(Outcome(pulled, true, None)), pages;
    }
  }

  lemma {:induction false} FoldKeepsVault(db: Db, batch: seq<Op>, results: seq<OpResult>)
    requires |batch| == |results| && Push.Fold(db, batch, results).Ok?
    ensures Push.Fold(db, batch, results).value.vault == db.vault
  {
    if batch != [] {
      var n := |batch| - 1;
      FoldKeepsVault(db, batch[..n], results[..n]);
    }
  }

  lemma {:induction false} FoldStopsAt(db: Db, batch: seq<Op>, results: seq<OpResult>, n: nat)
    requires |batch| == |results| && n <= |batch| && Push.Fold(db, batch[..n], results[..n]).Err?
    ensures Push.Fold(db, batch, results) == Push.Fold(db, batch[..n], results[..n])
    decreases |batch|
  {
    if n == |batch| {
      assert batch[..n] == batch && results[..n] == results;
    } else {
      var m := |batch| - 1;
      assert batch[..m][..n] == batch[..n] && results[..m][..n] == results[..n];
      FoldStopsAt(db, batch[..m], results[..m], n);
    }
  }
}
