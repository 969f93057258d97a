# The offline replica

A model of the offline-first client store of Logion (`packages/offline`): a
database of entities and an outbox of operations not yet sent, kept in step with
a server's log by pushing, pulling and loading snapshots. The transactions of
the TypeScript code are modelled, and what the client promises its user is proved
over whole runs of transactions.

Check it with `dafny verify dfyconfig.toml` (Dafny 4.11).

## How it is built

* **Rows and messages.** `Types` holds the rows of the database and the sync-v1
  messages. Identifiers and times are natural numbers with their order, digests
  are free constructors (equal exactly when what they digest is), and the vault is
  a map from slots to bodies.
* **Transactions as functions.** `Repository`, `Push`, `Pull`, `Bootstrap`,
  `Resilience` and `NoteEdits` give each transaction as a function from tables to
  tables or an error, branch by branch, one module per source file (two for the
  sync client).
* **Transactions as code.** `Tables.Database` is the database as an object with
  one field per table. `LocalRepository`, `SyncClient`, `BootstrapClient`,
  `ConflictClient` and `NoteClient` work on it in place, with the loops of the
  original and with rollback, and each method is proved equal to the function.
  The two depth-first searches of the scheduler and the text splice are imperative
  in `Scheduler` and `Splice`. Handlers without a loop or a rollback of their own
  are only the link between the two, and have no row below.
* **Runs.** `Runs` makes the replica a state machine with fifteen kinds of event.
  A push is two events, request and answer, with local work in between; the server
  may answer anything well formed, or nothing. A history beside the tables records
  when each operation was queued, under which epoch, and what became of it.
* **The world.** `ServerLog` is the log as the client sees it. `Replication` puts
  the replica beside it: the log grows, snapshots of it are published, and the
  server answers honestly.
* **What holds.** `Ledger` and `Safety` are the invariants, `Guarantees` what they
  mean for a user. `DirtyWork`, `Chains` and `EntityOrder`, `Draining`, `Manifests`,
  `Snapshots`, `Devices`, `Pages`, `Deletion`, `Dismissal`, `Resolutions`,
  `NoteSessions`, `Bodies`, `PulledBodies` and `Carried` are one theme each.
  `Convergence`, `Rebootstrap`, `Replication`, `Contents` and `Divergence` are about
  agreement with the log: one transaction, one snapshot, whole runs, the bodies, and
  what happens otherwise. `Undisturbed` and `OpenConflicts` are the runs on which
  nothing has to be assumed of the log for that. `Limits`, `NoteLimits`,
  `SnapshotLimits`, `ConflictLimits` and `BodyLimits` are runs on which a property
  fails.

Maps are filtered by subtracting keys, and inductions over sequences of rows are
spelled out: Dafny 4.11 may conclude too much from an equality of two filtering map
comprehensions, and from automatic induction over sequences whose elements are
taken apart.

## What the proofs found

Ten properties one would expect do not hold of the code on every input. For each
there is an exact condition, and an input on which it fails.

1. *A clean entity has no live work.* Taking the remote side of a conflict without
   telling the server (`resilience.ts:154-191`) marks the entity clean but removes
   only the source operation and those in conflict (`resilience.ts:287-303`). Another
   pending or blocked operation on the entity stays queued behind a clean row.
   `DirtyWork.AcceptRemoteWork` and `DirtyWork.EventKeepsWork` say exactly when;
   the run is `Limits.SilentAcceptanceHidesWork`.
2. *Snapshots keep the replica converging.* If an answer to a push was lost and the
   device then loads a snapshot of the same epoch that already contains the
   operation, the operation is sent again and answered "duplicate" with its old
   version. That is harmless as long as the row, at that version, is what the log
   shows, and leaves a clean row behind the log otherwise: `Divergence.RepeatedAckIff`
   for one answer. For runs, `Divergence.OffCourseIsDoom` is the condition,
   `Divergence.OnCourseConverges` and `Divergence.FindDivergence` its two halves, and
   `SnapshotLimits.SnapshotStrandsEdit` the run. The first snapshot and those of a new
   epoch are never at risk: `Undisturbed.UndisturbedConverges`.
3. *An open conflict shows the remote side as it is.* Pulls keep it so
   (`sync-client.ts:472-502`), but a snapshot moves the cursor past newer changes and
   leaves open conflicts as they are (`bootstrap.ts:538-588`), and an entity that
   stops being in conflict while a conflict about it stays open takes newer changes
   over without telling that conflict. Taking the remote side of such a conflict
   silently (`resilience.ts:154-191`) leaves a clean row behind the log:
   `Divergence.SilentAcceptanceIff` for one acceptance. `OpenConflicts` says of every
   transaction exactly when it keeps all open conflicts current, and
   `OpenConflicts.WatchfulConverges` what follows for runs. The run is
   `ConflictLimits.AcceptanceStrandsEntity`: the queue is empty, and only the old
   conflict was accepted.
4. *The operations of an entity form one chain.* The deletion of a note depends on
   the newest operation on the note or its document (`repository.ts:155-188`); if that
   is an update of the document, the deletion does not depend on earlier operations
   on the note. `EntityOrder.CommitKeepsChain` is the condition,
   `NoteLimits.DeletionBreaksChain` the run.
5. *The same for resolutions.* A queued resolution has no dependencies
   (`resilience.ts:192-221`), so anything else left on the entity is not ordered
   against it: `EntityOrder.ResolutionStartsNewChain`, and
   `Limits.ResolutionBreaksChain` for the run.
6. *A refused resolution leaves an open conflict.* Recording the server's new conflict
   comes before dismissing the one that was being resolved (`sync-client.ts:283-306`),
   so a conflict that keeps its id is dismissed at once:
   `Resolutions.RefusedDecisionReopens`, and `Limits.RefusedDecisionIsDismissed`. The
   repository's own server derives the id of a conflict from the operation, so it
   never sends such a message; the schema of the message allows it.
7. *What a row shows is what its digest is of.* There are two ways out. The bodies of a
   chunk are sealed into slots named after entities when the chunk is staged
   (`bootstrap.ts:170-194`), before the snapshot is activated and even if it never is:
   `Bodies.StagingSpares` is the condition, `BodyLimits.DiscardKeepsNewerBody` the run.
   And the bodies of a page are sealed into slots named after operations
   (`sync-client.ts:413-435`), the device's own among them, which the server sends back
   (`apps/api/src/logion_api/sync/read.py:94-106`); the editor has written newer text
   into the same slot if a renaming was queued before (`yjs-notes.ts:226`).
   `PulledBodies.PullingSpares` is the condition, `PulledBodies.LocalBodySurvives` and
   `PulledBodies.RaisedConflictShowsBodies` what it means for an entity with local
   work, and `NoteLimits.EchoOverwritesText` the run: the text the user typed is gone
   from the note, and the conflict has the older text on both sides.
8. *A request carries what was committed.* The body of an operation is read from its slot
   when the request is made (`sync-client.ts:670-686`), and the server rejects a body
   whose digest is not the operation's (`apps/api/src/logion_api/sync/push.py:348`). An
   edit of a note and a pulled page may write over the slot of a queued operation:
   `Carried.EventCarries` is the condition, transaction by transaction,
   `Carried.RequestsCarry` what it means for requests, and
   `NoteLimits.RenamingCarriesOtherText` the run.
9. *A commit can be repeated.* While the operation is queued it can
   (`Repository.CommitAgain`). A protected commit repeated after its acknowledgement
   seals again, fails, and deletes the body the entity refers to
   (`protected-repository.ts:39-44`): `Bodies.FailedCommitSpares`,
   `Bodies.RepeatAfterAckLosesBody` for every such repetition, and
   `BodyLimits.RepetitionLosesBody` for one. (Runs exclude it: ids are fresh there.)
10. *Note and document change together.* The commit half of an edit looks again at the
    note only (`yjs-notes.ts:268-277`). If the stored document was pulled in between, the
    edit lands in a slot no row refers to: `NoteSessions.NoLostEdit`, and
    `NoteLimits.DocumentFallsBehind`.

Where code and documentation differ the model follows the code:

* `docs/sync/sync-v1-compatibility.md` says a repeated pull page is ignored
  idempotently; the code refuses a page whose `from_cursor` is not the stored cursor
  (`sync-client.ts:386-394`).
* It says an expired cursor isolates the outbox; the code isolates only when a
  snapshot of another epoch is activated (`bootstrap.ts:560-568`).
* It says a jump in the sequence stops application; the code only requires sequences
  to increase (`sync-client.ts:438-444`), which is what pages filtered for a device
  need.
* A comment in the pull code says remote records never overwrite the vault slot of a
  local edit (`sync-client.ts:413`); they do if the record is the device's own operation
  and the slot has been edited since (finding 7).

## Assumptions

* One workspace. A transaction is one atomic step. Sync cycles are single-flight:
  pulls, snapshots and device changes do not overlap a push that waits for its
  answer. Local work may happen at any time.
* Local ids are fresh, and a mutation names as dependencies only ids issued earlier;
  an update of a document names only updates of the same document. Mutations are of
  the types the commit API accepts, that is not of the two document types.
* Messages have passed the schema validator. A server's conflict names the entity
  its operation is about.
* For the order of an entity's operations only: the server acknowledges an operation
  no earlier than those it depends on (`EntityOrder.Respects`).
* For convergence only: the server's log is append-only, sequences start at one and
  increase, rows do not change and an operation is logged once, as the ledger
  migration enforces (`apps/api/migrations/versions/0009_sync_ledger.py:189-245`);
  an operation the device has queued is logged only once it has been sent, and digests in
  the log are those of the bodies; acknowledgements name the log and repeat the version
  of their row; pages are windows of the log, and chunks belong to snapshots that show
  it at their cursor. Changes the device may not see only advance the head.
* For open conflicts only: the versions of an entity increase along the log.
* For the bodies that converge only: an operation is logged with the body the device has
  under its id, and an id is not used for two bodies.
* For the bodies of pages and requests only: a page brings an operation once, queued
  operations have their bodies in slots named after them, and decisions have new ids.
* For editing sessions only: a change or an acknowledgement that a note takes over
  brings a higher version than the note has, and an operation id names one entity.

## Model

| member | source | states |
|---|---|---|
| `Scheduler.ReadinessSearch.DependsOnUnready` | packages/offline/src/repository.ts:285-307 | The readiness search says true only for an operation with a transitive queued dependency that is not pending, false only when nothing reachable is held, on a cycle or on the search path, and throws only when pending operations form a cycle; the path set is as before, and the rows not on it are the termination measure |
| `Scheduler.FilterReady` | packages/offline/src/repository.ts:237-241 | The filter keeps exactly the pending rows without a non-pending transitive dependency, none of them on a cycle, and throws only on a cycle of pending rows |
| `Scheduler.SortIsOrdered` | packages/offline/src/repository.ts:242-246 | Sorting leaves no row before one that was queued earlier (ties by id) |
| `Scheduler.TopologicalSort.Visit` | packages/offline/src/repository.ts:317-330 | One depth-first visit appends the operation last, preceded only by operations it reaches, keeps every listed dependency earlier, and throws only on a cycle |
| `Scheduler.TopologicalOrder` | packages/offline/src/repository.ts:309-334 | The result lists all given operations once, each after its dependencies; given queue order, an operation overtakes an older one only for the sake of a dependent that is not younger than the overtaken one |
| `Scheduler.ReadyRowsAcyclic` | packages/offline/src/repository.ts:237-247 | After the filter the sort's own cycle check cannot fire: the ready rows are acyclic as soon as the search has passed over each of them |
| `Scheduler.ListReady` | packages/offline/src/repository.ts:224-248 | The result is a duplicate-free listing of exactly the ready operations of the device, dependencies first; it throws only when pending operations form a cycle |
| `Scheduler.PrefixIsClosed` | packages/offline/src/sync-client.ts:100-105 | Every prefix of a listing, in particular the batch that is sent, contains all queued transitive dependencies of its operations |
| `Scheduler.DependencyIsEarlier` | packages/offline/src/repository.ts:323-329 | A queued transitive dependency of a listed operation stands strictly earlier in the listing |
| `Scheduler.ListingRefutesCycles` | packages/offline/src/repository.ts:290-292 | If a listing was returned, every cycle left in the queue is held up by an operation that is not pending; on any other cycle the scheduler must throw |
| `Graph.RemovalKeepsDepends` | packages/offline/src/repository.ts:294-296 | Taking out a set of operations closed under dependencies keeps every dependency path between the others |
| `LocalRepository.Newest` | packages/offline/src/repository.ts:170-179 | Filtering, sorting and taking the last row gives the newest row in queue order |
| `LocalRepository.OfflineRepository.Dependencies` | packages/offline/src/repository.ts:151-188 | The stored dependencies are the caller's plus the newest queued operation on the entity (for a note's deletion also counting updates of its document), or the limit of 100 is reported |
| `LocalRepository.OfflineRepository.CommitMutation` | packages/offline/src/repository.ts:83-222 | A committed mutation changes the tables as the transaction specification `Repository.Commit` says, a duplicate changes nothing, and every refusal leaves them as they were with the code's error |
| `Repository.ProtectedOutcome` | packages/offline/src/protected-repository.ts:24-45 | A protected commit moves at most one entity, by exactly one revision, touches no vault slot but the operation's own, and is a no-op for a queued id |
| `Repository.CommitAgain` | packages/offline/src/repository.ts:132-150 | As long as its operation is queued, in whatever state, a mutation can be committed again and changes nothing, and no mutation that differs in entity, kind, base version, digest, time or device is accepted under its id; for the time after that see `Bodies.RepeatAfterAckLosesBody` |
| `Bodies.FailedCommitSpares` | packages/offline/src/protected-repository.ts:24-45 | A protected commit that fails spares the body of every row if and only if it sealed nothing, or no row refers to the slot of its own operation |
| `Bodies.RepeatAfterAckLosesBody` | packages/offline/src/protected-repository.ts:36-45 | Committed, acknowledged and committed once more under the same id, a protected mutation fails on its base version and deletes the body the acknowledged entity refers to |
| `BodyLimits.RepetitionLosesBody` | packages/offline/src/protected-repository.ts:36-45 | A concrete commit, acknowledged and repeated, after which the body of the entity can no longer be opened |
| `SyncClient.Client.PrepareBatch` | packages/offline/src/sync-client.ts:96-106 | A request carries the first hundred operations of a ready listing of the device |
| `Resolutions.CleanWhenLast` | packages/offline/src/sync-client.ts:182-205 | The status an acknowledgement leaves is clean if and only if no other queued operation touches the entity |
| `SyncClient.Client.SealConflicts` | packages/offline/src/sync-client.ts:137-155 | The bodies of protected conflicts are sealed under the conflict's id before the transaction |
| `SyncClient.Client.ApplyResults` | packages/offline/src/sync-client.ts:156-350 | The loop over the results is the fold of the single results, in order, and all or nothing: a result for another operation, or a conflict without an entity, rolls every table back |
| `SyncClient.Client.PushAnswered` | packages/offline/src/sync-client.ts:117-152 | An answer from another device or epoch changes nothing; a control message only changes the bootstrap state; otherwise success, error code and tables are those of `Push.Reply` on the sealed tables, and after an error only the sealed bodies stay behind |
| `Outbox.FoldOutbox` | packages/offline/src/sync-client.ts:163-345 | Folding results removes exactly the acknowledged operations and changes nothing of the others but state and last error |
| `Outbox.AckedInBatch` | packages/offline/src/sync-client.ts:172-173 | Only operations of the batch that were answered applied or duplicate count as acknowledged |
| `SyncClient.Client.RefreshConflicts` | packages/offline/src/sync-client.ts:472-502 | Open conflicts of the entity take over the remote side if its version is higher, and only then; a tombstone narrows the options |
| `SyncClient.Client.RaiseConflict` | packages/offline/src/sync-client.ts:503-594 | A change that meets pending work records both sides, names the newest queued operation as source, and holds all queued work of the entity back |
| `SyncClient.Client.ApplyChange` | packages/offline/src/sync-client.ts:445-625 | One change: skipped, refreshing conflicts, raising one, or overwriting a clean or missing row, decided as the loop body does |
| `SyncClient.Client.ApplyPull` | packages/offline/src/sync-client.ts:402-640 | A page is applied if and only if its sequences strictly increase within (from, next]; then the tables are the fold of its changes with the cursor at next, otherwise they are untouched although the check happens on the way |
| `SyncClient.Client.ReceivePage` | packages/offline/src/sync-client.ts:386-395 | A page that does not continue the stored cursor, or is for another device or epoch, is refused unchanged |
| `SyncClient.Client.PullPages` | packages/offline/src/sync-client.ts:354-400 | Pages are taken until the server has no more, sends a control message, or a thousand were taken; the tables are those that the taken pages alone leave, also when a later page fails; the count is the number of changes applied |
| `Pages.PageBoundariesDoNotMatter` | packages/offline/src/sync-client.ts:359-399 | For any consecutive pages, whatever mix of clean, pending and conflicted rows they meet, receiving them one by one leaves the same tables as receiving one page with all their changes |
| `Pages.LocalEditsSurvive` | packages/offline/src/sync-client.ts:472-594 | The row of an entity with local work keeps everything but its status over any list of changes, and the entity ends conflicted if and only if it was or some change names it; the body behind the row is the subject of `PulledBodies.LocalBodySurvives` |
| `Pages.HighestIsHighest` | packages/offline/src/sync-client.ts:483-484 | The reference definition of the highest remote version of a list: it is among the changes to the entity and none is higher |
| `Pages.RaisedConflictShowsHighest` | packages/offline/src/sync-client.ts:483-594 | A pending entity touched by a list of changes ends with an open conflict, named after the first change to it, that shows the local reference and digest, and the remote version, reference, digest and deletion of the highest version in the list |
| `PulledBodies.PullingSpares` | packages/offline/src/sync-client.ts:402-437 | Sealing the bodies of a page spares the bodies of all rows if and only if the page has no other body for a slot that one of them refers to |
| `PulledBodies.LocalBodySurvives` | packages/offline/src/sync-client.ts:402-437 | What the user sees of an entity with local work is the same before and after a page if and only if the page has no other body for the operation its row refers to |
| `PulledBodies.RaisedConflictShowsBodies` | packages/offline/src/sync-client.ts:402-594 | The conflict a page raises opens to the body of the highest remote version in it, and to the body the user saw under the same condition and no other |
| `PulledBodies.EchoBarsKeepLocal` | packages/offline/src/resilience.ts:131-139 | Where the page has brought another body than the row's digest is of, keeping the local side of that conflict is always refused |
| `NoteLimits.EchoOverwritesText` | packages/offline/src/yjs-notes.ts:222-228 | A run in which a note is renamed, its text edited while the renaming is sent, and the renaming pulled back: the note shows the older text under the newer digest, both sides of the conflict are the older text, and the local side cannot be kept |
| `Carried.EventCarries` | packages/offline/src/sync-client.ts:670-686 | Every queued operation has the body of its digest in its slot after a transaction, if it had before, exactly when the transaction is not an edit or a page that writes another body over such a slot |
| `Carried.RequestsCarry` | packages/offline/src/sync-client.ts:107-116 | Along any run of such transactions every request carries, for each of its operations, the body whose digest the operation has |
| `Carried.EditCarries` | packages/offline/src/yjs-notes.ts:217-228 | An edit of a note keeps that so if and only if no queued operation has its body in a slot the edit writes, or has the very body that is written |
| `NoteLimits.RenamingCarriesOtherText` | packages/offline/src/sync-client.ts:670-686 | A run of a renaming and an edit after which the renaming waits to be sent with a text its digest is not of |
| `BootstrapClient.CheckRecords` | packages/offline/src/bootstrap.ts:141-168 | The loops reject a repeated entity, then a wrong digest, and accept exactly the chunks without either |
| `BootstrapClient.CheckChunk` | packages/offline/src/bootstrap.ts:122-168 | All checks of a chunk before anything is stored, in the code's order |
| `BootstrapClient.AddReceived` | packages/offline/src/bootstrap.ts:468-474 | Appending and sorting puts the new entry behind every smaller or equal index |
| `BootstrapClient.CheckGaps` | packages/offline/src/bootstrap.ts:494-498 | The loop accepts exactly the lists whose i-th entry has index i |
| `BootstrapClient.BootstrapRepository.ReplaceEntities` | packages/offline/src/bootstrap.ts:523-588 | Filtering out records that meet preserved rows and writing the rest gives the snapshot overlaid with the preserved rows; a new epoch preserves none and isolates the whole outbox |
| `BootstrapClient.BootstrapRepository.CompleteManifest` | packages/offline/src/bootstrap.ts:589-605 | The snapshot's manifest is complete and the loop has removed exactly the other complete ones |
| `BootstrapClient.BootstrapRepository.PersistVerifiedChunk` | packages/offline/src/bootstrap.ts:371-609 | Storing a chunk is all or nothing, and on success is the transaction specification `Bootstrap.Persist` |
| `BootstrapClient.BootstrapRepository.StageChunk` | packages/offline/src/bootstrap.ts:107-199 | A chunk that fails a check changes nothing; one that fails in the transaction leaves only its sealed bodies behind |
| `Manifests.Pigeonhole` | packages/offline/src/bootstrap.ts:491-498 | Strictly sorted chunk indexes below the count, as many as the count, are 0, 1, 2, ... |
| `Manifests.ImpossibleThrows` | packages/offline/src/bootstrap.ts:434-436 | The throw for a new chunk of a complete snapshot, and the one for a gap once all chunks are there, cannot fire |
| `Manifests.PersistKeepsStaging` | packages/offline/src/bootstrap.ts:415-605 | Storing a chunk keeps the staging area sound: at most one staging and one complete manifest, sorted indexes below the count, staged rows exactly those of the received chunks, and their number |
| `Manifests.EventKeepsStaging` | packages/offline/src/bootstrap.ts:387-605 | Every transaction of the replica keeps the staging area sound |
| `Manifests.RunKeepsStaging` | packages/offline/src/bootstrap.ts:387-605 | The staging area is sound in every state of every run |
| `Snapshots.LastChunkPersists` | packages/offline/src/bootstrap.ts:491-606 | The last missing chunk is accepted and switches the replica over, unless an operation of another device is queued |
| `Snapshots.StagingRefinesView` | packages/offline/src/bootstrap.ts:407-606 | For any order of arrival, with replays, local work, pushes and pulls in between, the replica behaves like a machine that only remembers which chunks arrived: nothing visible changes because of a chunk until the last one, and then everything does at once |
| `Snapshots.OrderOfArrivalDoesNotMatter` | packages/offline/src/bootstrap.ts:407-606 | Any two orders in which all chunks arrive end in the same entities, outbox and sync row, given by the set of chunks and the local state |
| `Snapshots.LocalWorkSurvivesStaging` | packages/offline/src/bootstrap.ts:523-573 | No chunk changes the row of an entity with local work within an epoch, and none removes an operation; a switch to a new epoch isolates it |
| `Bodies.StagingSpares` | packages/offline/src/bootstrap.ts:170-194 | Staging a chunk spares the bodies of the rows still shown if and only if the chunk has no other body for a slot that one of them refers to |
| `BodyLimits.DiscardKeepsNewerBody` | packages/offline/src/bootstrap.ts:170-194 | A run in which one chunk is staged and its snapshot discarded, after which the tables are as before but an entity shows a body its digest is not of |
| `Devices.DiscardUndoesStaging` | packages/offline/src/bootstrap.ts:331-369 | Whatever part of a snapshot has arrived, in any order and with any replays: discarding it restores every table, and only the vault differs |
| `Devices.DeviceChangeCompletes` | packages/offline/src/bootstrap.ts:203-307 | An accepted device change loses no row, operation or body, and can always be completed: the chunks of any snapshot for the new device, in any order, leave the snapshot overlaid with the work carried over, still queued |
| `ConflictClient.ConflictRepository.RemoveRelatedOperations` | packages/offline/src/resilience.ts:287-303 | Exactly the source operation and the operations in conflict on the entity are removed |
| `ConflictClient.ConflictRepository.QueueResolution` | packages/offline/src/resilience.ts:64-260 | A resolution either takes the remote side silently or queues one operation, as `Resilience.Resolve` specifies, or is refused and changes nothing |
| `Dismissal.DismissingCloses` | packages/offline/src/resilience.ts:262-278 | A dismissal leaves an entity in conflict without an open conflict if and only if it was the last open one |
| `Dismissal.DismissedStays` | packages/offline/src/resilience.ts:262-278 | From then on no commit, edit, decision or pull changes the entity or opens a conflict about it; only an answer to a push, a snapshot or a newly recorded conflict can |
| `Resolutions.RefusalKeepsBothBodies` | packages/offline/src/sync-client.ts:272-327 | A refused operation leaves an open conflict with the body the user saw and the body the server sent, and the entity still shows the former |
| `Resolutions.DecisionShowsChoice` | packages/offline/src/resilience.ts:122-256 | After a decision is queued, entity and operation both hold the chosen body, on the remote version the user saw, or the deletion the remote side made |
| `Resolutions.DecisionIsAccepted` | packages/offline/src/resilience.ts:83-139 | A decision about a conflict the server has just reported is accepted if and only if it is an option, made on the refused operation's device, with a merged body exactly when it says so, the local body opens, the side it keeps has the digest the server named, and its id is new |
| `Resolutions.NewerWorkBarsKeepLocal` | packages/offline/src/resilience.ts:131-139 | Where the server names the digest of the refused operation and the user has gone on writing, keeping the local side is always refused |
| `Resolutions.AcknowledgedDecision` | packages/offline/src/sync-client.ts:223-270 | Acknowledging a decision closes its conflict as decided, whether the server or only the device knew of it, and leaves the chosen body; the entity is clean if and only if nothing else is queued on it |
| `Resolutions.ConflictIsSettled` | packages/offline/src/resilience.ts:64-260 | From refusal over decision to acknowledgement: both operations are gone, the conflict is closed as decided, and the entity shows the local, remote or merged body the user chose, at the acknowledged version |
| `Resolutions.RefusedDecisionReopens` | packages/offline/src/sync-client.ts:297-306 | A refused decision dismisses the old conflict and leaves the new one open, with the chosen body, if and only if the new one has an id of its own |
| `Resolutions.AcceptedPullShowsHighest` | packages/offline/src/resilience.ts:154-191 | When changes meet pending work and the user takes the remote side, the entity becomes clean with version, digest and deletion of the highest version among the changes, and a body of that digest |
| `DirtyWork.AcceptRemoteWork` | packages/offline/src/resilience.ts:154-191 | Silently taking the remote side keeps work visible if and only if every live operation on the entity is the source or in conflict |
| `DirtyWork.RaisedConflictDisposes` | packages/offline/src/sync-client.ts:515-594 | A conflict that a pull has just raised meets that condition |
| `Limits.SilentAcceptanceHidesWork` | packages/offline/src/resilience.ts:154-191 | A run from a synchronized replica, two edits, a refusal, a pull and a resolution, after which an entity is clean while an edit of it still waits to be sent |
| `Limits.RefusedDecisionIsDismissed` | packages/offline/src/sync-client.ts:283-306 | A run in which the server refuses a decision with a conflict of the same id: the entity is in conflict and no conflict is open |
| `EntityOrder.ResolutionStartsNewChain` | packages/offline/src/resilience.ts:192-221 | Queueing a resolution keeps the entity's chain, and its links, if and only if nothing else stays queued on the entity |
| `Limits.ResolutionBreaksChain` | packages/offline/src/resilience.ts:192-221 | A run in which a decision is queued beside a later edit: the operations of the entity were a chain and no longer are |
| `Splice.PrefixIsLongest` | packages/offline/src/yjs-notes.ts:79-86 | No shared beginning is longer than what the first loop counts |
| `Splice.SuffixIsLongest` | packages/offline/src/yjs-notes.ts:87-94 | No shared end is longer than what the second loop counts |
| `Splice.ScanPrefix` | packages/offline/src/yjs-notes.ts:79-86 | The first loop counts the common prefix |
| `Splice.ScanSuffix` | packages/offline/src/yjs-notes.ts:87-94 | The second loop counts the common suffix that does not reach into the prefix |
| `Splice.SpliceIsMinimal` | packages/offline/src/yjs-notes.ts:95-98 | No single deletion and insertion at one place that yields the new text removes or inserts fewer units |
| `Splice.ReplaceMarkdown` | packages/offline/src/yjs-notes.ts:78-99 | The text becomes the new one, by the reported edit, which no other single edit beats in units removed or inserted |
| `NoteClient.NoteRepository.PrepareMarkdown` | packages/offline/src/yjs-notes.ts:116-260 | The read half checks what the code checks and hands over exactly what the commit half needs; the edited document text is the text asked for |
| `NoteSessions.PreparedIsAnchored` | packages/offline/src/yjs-notes.ts:137-208 | What the read half hands over was computed from the note's current text, and both stored texts become the new one |
| `NoteSessions.FirstCommitWins` | packages/offline/src/yjs-notes.ts:268-277 | Of several edits prepared on one note, the first commit aborts the others |
| `NoteSessions.MutationAbortsEdits` | packages/offline/src/yjs-notes.ts:268-277 | A mutation of the note aborts every edit prepared before it |
| `NoteSessions.NoLostEdit` | packages/offline/src/yjs-notes.ts:137-304 | In any interleaving of read halves, commit halves, mutations, pulled changes and answers, an edit that commits was computed from the text the note has at that moment, and the note shows it; the document shows it if and only if its row still has the slot that was read, and otherwise keeps showing what was pulled. Answers are acknowledgements, conflicts and rejections |
| `NoteEdits.EditShows` | packages/offline/src/yjs-notes.ts:262-304 | Whatever happened before: a commit that succeeds shows the edit in the note, and in the document, if and only if the row still refers to the slot that was read |
| `NoteLimits.DocumentFallsBehind` | packages/offline/src/yjs-notes.ts:262-304 | A run in which the stored document is pulled between the halves of an edit: the edit is committed, note and document differ, and the note cannot be edited any more |
| `NoteSessions.EditsFollowEachOther` | packages/offline/src/yjs-notes.ts:229-254 | In the same sessions the predecessor read before the transaction is still the newest queued update of the note when the edit commits |
| `Safety.EventKeepsInv` | packages/offline/src/sync-client.ts:72-94 | Every transaction, whatever a well-formed server answers and whatever local work happens between a request and its answer, keeps all invariants: conservation, the request in flight intact, dependencies older than dependents, epochs, the resume gate, and conflicts naming settled operations |
| `Guarantees.RunIsAcyclic` | packages/offline/src/repository.ts:151-188 | In every reachable state the pending operations form no cycle, if ids are fresh and mutations name only ids issued earlier |
| `Guarantees.ReadyInEveryRun` | packages/offline/src/repository.ts:224-248 | So the scheduler succeeds in every reachable state |
| `Guarantees.WorkIsConserved` | packages/offline/src/sync-client.ts:163-345 | Whatever was queued at some point of a run is from then on in the outbox exactly as long as it was neither acknowledged nor removed by a resolution |
| `Guarantees.OnlyAcksAndResolutionsRemove` | packages/offline/src/resilience.ts:287-303 | An operation leaves the outbox only by its own acknowledgement or by a resolution of a conflict on its entity; no pull, snapshot, refusal or control message removes one |
| `Guarantees.NeverWaitsAgain` | packages/offline/src/bootstrap.ts:560-568 | An operation that has left the pending state is never pending again |
| `Guarantees.RequestsStayInEpoch` | packages/offline/src/sync-client.ts:107-116 | Every operation in a request was committed under the request's epoch (or before the replica had one) and depends on no queued operation that is not pending, such as an isolated one |
| `Guarantees.GateHolds` | packages/offline/src/sync-client.ts:48-59 | While a snapshot is demanded nothing is pushed or pulled, and only the activation of a complete snapshot ends that |
| `Guarantees.NothingSentUntilSnapshot` | packages/offline/src/sync-client.ts:642-668 | After a control message or a device change that demands a snapshot, no push or pull happens until one is activated, whatever else does |
| `Guarantees.CursorOnlyAdvances` | packages/offline/src/sync-client.ts:627-637 | Only activating a snapshot or changing the device moves the cursor back |
| `DirtyWork.EventKeepsWork` | packages/offline/src/sync-client.ts:195-205 | Every transaction keeps queued work visible on its entity if and only if it is not a silent acceptance beside other live work |
| `DirtyWork.RunKeepsWork` | packages/offline/src/repository.ts:194-216 | A clean entity never has live work queued, in any run whose silent acceptances are careful |
| `EntityOrder.PredecessorIs` | packages/offline/src/repository.ts:151-188 | The predecessor a commit finds is the newest operation on the entity, unless a note's deletion finds an update of its document newer, and then it is such an update |
| `EntityOrder.CommitKeepsChain` | packages/offline/src/repository.ts:170-188 | A younger mutation under a fresh id keeps the chain of its entity if and only if it is not the deletion of a note whose document was edited last, or something the caller names leads to the newest operation on the note |
| `EntityOrder.CommitKeepsLinks` | packages/offline/src/repository.ts:170-188 | A younger mutation keeps each operation of its entity naming the one before it if and only if it is not such a deletion, or the caller names the newest operation itself |
| `EntityOrder.RunKeepsDocuments` | packages/offline/src/yjs-notes.ts:229-254 | In every run the dependencies of document updates lead to document updates only |
| `NoteLimits.DeletionBreaksChain` | packages/offline/src/repository.ts:155-188 | A run in which a note is renamed, its text edited by the editor and the note deleted: the deletion does not depend on the renaming |
| `EntityOrder.AcceptanceKeepsLinks` | packages/offline/src/resilience.ts:287-303 | Taking the remote side silently keeps what is left on the entity linked if and only if it takes no operation out from between two that stay, unless the later of these names the earlier |
| `EntityOrder.RunKeepsLinks` | packages/offline/src/repository.ts:151-188 | Each operation of an entity names the one before it, in every run whose mutations of the entity grow younger and link up, whose answers respect dependencies and whose resolutions of the entity's own conflicts leave no gap; conflicts of other entities are resolved in any way |
| `Chains.LinkedIsChained` | packages/offline/src/repository.ts:285-307 | Then of any two operations on the entity the later one depends on the earlier one |
| `EntityOrder.RequestsKeepEntityOrder` | packages/offline/src/repository.ts:309-334 | Then every request lists two operations of an entity in commit order, whatever other dependencies callers add, as long as the device owns those queued between the two |
| `Draining.AllAckedRemovesBatch` | packages/offline/src/sync-client.ts:172-173 | Acknowledging a whole batch takes exactly its operations out of the outbox |
| `Draining.ReadinessKept` | packages/offline/src/repository.ts:285-307 | Removing a sent batch changes the readiness of no other operation |
| `Draining.QueueDrains` | packages/offline/src/sync-client.ts:96-106 | Pushes in the state machine, each answered by acknowledging the whole batch, leave n - 100 r of n ready operations after r of them, none after n/100 rounded up, and change no operation that was not ready |
| `Deletion.RefusedDeleteRestores` | packages/offline/src/sync-client.ts:318-343 | A deletion refused without conflict restores body, digest, deletion mark, version and creation fields, one revision later, and stays queued as blocked |
| `Deletion.RefusalPreventsDelete` | packages/offline/src/repository.ts:199-209 | While a refused operation is queued on an entity, its deletion is not accepted |
| `Convergence.PullConverges` | packages/offline/src/sync-client.ts:437-637 | Applying a window of the log keeps clean rows on the last change below the moving cursor, and the replica on course |
| `Convergence.PushConverges` | packages/offline/src/sync-client.ts:163-345 | Applying honest results, the operations at risk oldest first, keeps the same: an acknowledged row is ahead of the cursor until the cursor passes it, or was a harmless repeat |
| `Rebootstrap.StageSwitches` | packages/offline/src/bootstrap.ts:407-606 | Staging a chunk the server has published changes nothing visible, or switches the replica to exactly that snapshot, depending on whether the chunk was the last one missing |
| `Rebootstrap.SwitchConverges` | packages/offline/src/bootstrap.ts:538-588 | After a switch to a snapshot of the log, clean rows show the log at the snapshot's cursor and no entity of the log is missing |
| `Rebootstrap.NewEpochIsSafe` | packages/offline/src/bootstrap.ts:560-573 | A snapshot of a new epoch leaves nothing that could be sent again |
| `Replication.WorldKeepsInv` | apps/api/migrations/versions/0009_sync_ledger.py:189-245 | Every interleaving of commits, edits, pushes, lost answers, pulls, chunks, discards, resolutions, dismissals and control messages with the server's log growing and snapshots being published keeps the replica on course, as long as each snapshot that is taken over leaves it so, and each conflict accepted silently is current and finds nothing else queued |
| `Replication.ReplicaConverges` | packages/offline/src/sync-client.ts:172-205 | In any such run from a blank database, a clean entity other than a note, whose acknowledgements lie at or below the cursor, shows version, digest and deletion of the last log change at or below the cursor (and its body, as `Contents.BodiesConverge` says), and no logged entity is missing |
| `Contents.BodiesConverge` | packages/offline/src/sync-client.ts:402-437 | In the same runs, where the log has the bodies the device sent, the vault holds, for a protected entity whose row was last written by a change, a commit or a decision, the very body of the last change in the log |
| `Divergence.RepeatedAckIff` | packages/offline/src/sync-client.ts:172-205 | An operation that is sent again although the log has it below the cursor, and is acknowledged, leaves its entity clean and off the log if and only if nothing else is queued on the entity, its acknowledgements are passed, and the row at the repeated version is not what the log shows |
| `Divergence.SilentAcceptanceIff` | packages/offline/src/resilience.ts:154-191 | Taking over the remote side of a conflict silently leaves its entity clean and off the log if and only if its acknowledgements are passed and version, digest or deletion of the conflict's remote side are not those of the last change at the cursor |
| `Divergence.ShowsIsLast` | packages/offline/src/sync-client.ts:172-205 | Where every change of an entity has its own version, that last condition says: the row of the repeated operation is not the last one at the cursor, or does not agree with what the entity shows |
| `Divergence.SnapshotPoises` | packages/offline/src/bootstrap.ts:538-588 | Every switch to a published snapshot, whatever was queued, leaves the replica in a state to which the next three rows apply |
| `Divergence.OnCourseConverges` | packages/offline/src/sync-client.ts:163-345 | If no repeat that can be sent does harm, the replica is converged at the end of every continuation in which later snapshots keep it so, silently accepted conflicts are current, and resolutions set nothing free that would do harm |
| `Divergence.OffCourseIsDoom` | packages/offline/src/sync-client.ts:96-106 | Otherwise, and only then, there is an entity on which everything queued is ready to be sent, is in the log below the cursor, and does not end well |
| `Divergence.FindDivergence` | packages/offline/src/sync-client.ts:96-205 | For such an entity, pushing again and again to a server that applies and acknowledges everything reaches a state in which the entity is clean and off the log |
| `SnapshotLimits.HomeIsPoised` | packages/offline/src/sync-client.ts:627-637 | The replica the next run starts from is converged and on course |
| `SnapshotLimits.SnapshotStrandsEdit` | packages/offline/src/bootstrap.ts:538-573 | A run from a converged replica: an edit is applied, its answer lost, another device goes on, a snapshot is taken over and the edit sent again; it ends clean at version 2 where the log below the cursor has version 3 |
| `Undisturbed.FirstSwitchIsSafe` | packages/offline/src/bootstrap.ts:538-588 | Whatever is queued when the first snapshot is taken over has not been sent, so no repeat of it can do harm |
| `Undisturbed.UndisturbedConverges` | packages/offline/src/sync-client.ts:163-640 | From a blank database through its first snapshot, whatever is queued before, a replica converges over commits, edits, pushes with lost and repeated answers, pulls, resolutions told to the server and snapshots of new epochs, in any interleaving and with nothing assumed of its state at any time |
| `OpenConflicts.PullKeepsCurrent` | packages/offline/src/sync-client.ts:472-594 | A pull keeps every open conflict the server has not recorded current: its remote side is the last change of its entity at the moving cursor |
| `OpenConflicts.ResultKeepsCurrent` | packages/offline/src/sync-client.ts:163-345 | A result keeps it so if and only if it is not the rejected deletion of an entity with such a conflict |
| `OpenConflicts.ResolveKeepsCurrent` | packages/offline/src/resilience.ts:154-256 | A resolution keeps it so if and only if no other such conflict of its entity stays open |
| `OpenConflicts.SwitchKeepsCurrent` | packages/offline/src/bootstrap.ts:538-588 | Taking over a snapshot keeps it so if and only if the epoch stays and no change to an entity with such a conflict lies between the cursors |
| `OpenConflicts.WatchfulIsOnCourse` | packages/offline/src/resilience.ts:154-191 | In runs of transactions that keep it so every conflict on offer can be accepted, and the replica stays on course |
| `OpenConflicts.WatchfulConverges` | packages/offline/src/resilience.ts:154-191 | So from a blank database such a replica converges although conflicts are accepted without asking the server, and every open conflict is current in the end |
| `ConflictLimits.AcceptanceStrandsEntity` | packages/offline/src/bootstrap.ts:538-588 | A run from a converged replica: an edit meets another device's change, a snapshot with a still newer one is taken over, and the conflict accepted; the queue is empty, and the entity clean at version 2 where the log below the cursor has version 3 |

## Left out

- Replication.ReplicaConverges: notes and their documents are not covered, because document changes are skipped while their note has local work; conflicts recorded by hand and device changes are not among its moves, because the former mark an entity without a reason in the queue and the latter move the cursor away from what the rows show until the next snapshot (`Devices.DeviceChangeCompletes` covers that).
- Divergence.OnCourseConverges: where some operations could not be sent, an accepted resolution is covered if no repeat does harm even should all of them be sent, because it may set any of them free.
- Divergence.OffCourseIsDoom: assumes that each operation on an entity names the one before it, which `EntityOrder.RunKeepsLinks` shows of runs, because without that the order in which repeats are acknowledged is open.
- Contents.BodiesConverge: rows last written by a snapshot are not covered, because the slots they refer to are overwritten by the next one (finding 7).
- EntityOrder.RunKeepsLinks: a resolution of the entity's own conflict that leaves a gap is excluded, because the property then fails; `EntityOrder.ResolutionStartsNewChain` and `EntityOrder.AcceptanceKeepsLinks` give the exact conditions.
- EntityOrder.RequestsKeepEntityOrder: the operations queued between two of a request must belong to the current device, because the scheduler sees only these.
- NoteSessions.NoLostEdit: the rejected deletion of a note that is in conflict is not among the answers, because it ends the conflict without a new revision or version, and the body of a conflicted note may have been overwritten in the meantime (finding 7).
- Pages.LocalEditsSurvive: says nothing of bodies, which a page may overwrite (`PulledBodies.LocalBodySurvives` says when the body survives); stored documents of notes are excepted, because a note's tombstone deletes them whatever their status.
- Pages.RaisedConflictShowsHighest: compares references and digests; `PulledBodies.RaisedConflictShowsBodies` says when the bodies behind them are shown.
- SyncClient.Client.PullPages: the transport is assumed to answer every request; a transport that throws is a run that stops between two pages.
- SyncClient.Client.PrepareBatch: opening vault slots to fill in the bodies of a request, and failing when one is missing, is not part of the event; requests carry the queued rows, and `Carried.RequestsCarry` says what their slots hold.
- SyncClient.Client.PushAnswered: An acknowledgement closes all conflicts waiting for the operation where the code closes the first one; `Safety.EventKeepsInv` keeps resolution operations distinct, so there is at most one.
- ConflictClient.ConflictRepository.QueueResolution: its reads before the transaction and the transaction are one step, so an interleaving in between is not modelled.
- LocalRepository.OfflineRepository.CommitMutation: the code pushes the predecessor onto the caller's own dependency array; that aliasing is not modelled, nor are the checks of payload shape and identifiers.
- BootstrapClient.BootstrapRepository.StageChunk: the parallel sealing of bodies is modelled in record order, and size limits are not modelled.
- NoteClient.NoteRepository.PrepareMarkdown: the Yjs document is its text, its encoding and size limit a given flag; space and generation fields are not modelled.
- `setOperationState` (`repository.ts:250-282`) may set any state and is not an event; `in_flight` exists as a state but no modelled transaction enters it.
- Wall-clock fields (last_sync_at, resolved_at, outbox_isolated_at) and progress reports.
- Vault locking and encryption, SHA-256, JSON canonicalization, UUID derivation, base64: free constructors and maps instead.
- Dexie and IndexedDB mechanics, schema upgrades, and scheduling of asynchronous calls.
- The schema validator for messages; attachments, form drafts and search, which would only add small state machines.
- The server: only what is listed under Assumptions is modelled of it.
