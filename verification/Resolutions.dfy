/**
 What becomes of a conflict from the moment it is raised until it is settled:
 the body the user chose is the body that is kept, sent and acknowledged.
 */
module Resolutions {
  import opened Types
  import opened Resilience
  import Push
  import Pull
  import Pages
  import Runs

  /** The plain body of an entity, as the user sees it. */
  function Seen(db: Db, k: Key): Option<Payload> {
    if k in db.entities then Body(db.vault, k.kind, db.entities[k].payload) else None
  }

  /** The body a decision stands for. */
  function Wanted(r: Request, local: Option<Payload>, remote: Option<Payload>): Option<Payload> {
    match r.choice
    case KeepLocal => local
    case KeepRemote => remote
    case _ => r.merged
  }

  // The server refuses an operation

  /** The tables once the server's conflict is sealed and recorded. */
  function Refused(db: Db, op: Op, c: ServerConflict): Result<Db> {
    var vault := if Protected(c.key.kind) then db.vault[OfConflict(c.id) := c.remotePayload] else db.vault;
    Push.Refuse(db.(vault := vault), op, c)
  }

  /** The conflict is about the operation's entity, under an id the entity does not use. */
  predicate Reported(db: Db, op: Op, c: ServerConflict) {
    && op.id in db.outbox && db.outbox[op.id] == op
    && c.key == Owner(op.key) && c.key in db.entities
    && db.entities[c.key].payload != Reference(OfConflict(c.id))
    && (op.resolution.Some? ==> op.resolution.value.conflict != c.id)
  }

  /** Nothing the user wrote is lost by a refusal: the record holds what the user saw
      and what the server sent, and the entity still shows the former. */
  lemma RefusalKeepsBothBodies(db: Db, op: Op, c: ServerConflict)
    requires Reported(db, op, c)
    ensures Refused(db, op, c).Ok?
    ensures var t := Refused(db, op, c).value;
            && c.id in t.conflicts && t.conflicts[c.id].status.OpenConflict?
            && t.conflicts[c.id].key == c.key && t.conflicts[c.id].sourceOp == Some(op.id)
            && t.conflicts[c.id].remoteVersion == c.remoteVersion && t.conflicts[c.id].serverRecorded
            && Body(t.vault, c.key.kind, t.conflicts[c.id].localPayload) == Seen(db, c.key)
            && Body(t.vault, c.key.kind, t.conflicts[c.id].remotePayload) == Some(c.remotePayload)
            && Seen(t, c.key) == Seen(db, c.key) && t.entities[c.key].status.Conflicted?
            && t.outbox == db.outbox[op.id := op.(state := InConflict, lastError := Some(SyncConflict))]
  {
  }

  // The user decides

  /** A queued decision: the entity shows the chosen body, and so does the operation
      that tells the server, based on the version the user saw. */
  lemma DecisionShowsChoice(db: Db, r: Request)
    requires Resolve(db, r).Ok? && !Silent(db.conflicts[r.conflict], r)
    ensures var c := db.conflicts[r.conflict];
            var t := Resolve(db, r).value;
            var wanted := Wanted(r, Body(db.vault, c.key.kind, c.localPayload), Body(db.vault, c.key.kind, c.remotePayload));
            && wanted.Some? && Seen(t, c.key) == wanted
            && t.entities[c.key].status.Pending? && t.entities[c.key].deletedAt == RemoteDeletion(c, r)
            && r.op in t.outbox && r.op !in db.outbox
            && var op := t.outbox[r.op];
            && op.id == r.op && op.key == c.key && op.state.Waiting? && op.baseVersion == c.remoteVersion
            && op.payloadHash == Sha(wanted.value)
            && (op.kind.Delete? <==> RemoteDeletion(c, r).Some?)
            && (!op.kind.Delete? ==> Body(t.vault, c.key.kind, op.payload) == wanted)
            && (c.serverRecorded ==> op.resolution == Some(Resolution(r.conflict, r.choice, c.remoteVersion)))
            && (!c.serverRecorded ==> op.resolution.None?)
            && t.conflicts[r.conflict].status.Resolving? && t.conflicts[r.conflict].resolutionOp == Some(r.op)
            && t.conflicts[r.conflict].requested == Some(r.choice)
  {
  }

  /** Exactly the operations the decision replaces leave the outbox. */
  lemma DecisionReplaces(db: Db, r: Request, id: OpId)
    requires Resolve(db, r).Ok? && id in db.outbox
    ensures id in Resolve(db, r).value.outbox <==> !Discarded(db.conflicts[r.conflict], db.outbox[id])
    ensures id in Resolve(db, r).value.outbox ==> Resolve(db, r).value.outbox[id] == db.outbox[id]
  {
  }

  // The server accepts the decision

  lemma CleanWhenLast(outbox: map<OpId, Op>, op: OpId, k: Key)
    ensures Push.StatusAfterAck(Related(outbox - {op}, k)).Clean?
            <==> forall id | id in outbox && id != op :: !Touches(k, outbox[id].key)
  {
    var rest := Related(outbox - {op}, k);
    if forall id | id in outbox && id != op :: !Touches(k, outbox[id].key) {
      assert rest == map[];
    } else {
      var id :| id in outbox && id != op && Touches(k, outbox[id].key);
      assert id in rest;
    }
  }

  /** Acknowledging a queued decision closes its conflict as decided, whether the
      server or only this device knew of it, and leaves the chosen body in place. */
  lemma AcknowledgedDecision(db: Db, r: Request, op: Op, version: nat)
    requires r.conflict in db.conflicts && op.key == db.conflicts[r.conflict].key && !op.key.kind.DocUpdate?
    requires op.key in db.entities && op.id == r.op && !r.choice.Dismiss?
    requires || op.resolution == Some(Resolution(r.conflict, r.choice, op.baseVersion))
             || (op.resolution.None? && db.conflicts[r.conflict].status.Resolving?
                 && db.conflicts[r.conflict].resolutionOp == Some(r.op)
                 && db.conflicts[r.conflict].requested == Some(r.choice))
    ensures var t := Push.Ack(db, op, version);
            && r.op !in t.outbox
            && r.conflict in t.conflicts && t.conflicts[r.conflict].status == Push.Resolved(r.choice)
            && op.key in t.entities && t.entities[op.key].serverVersion == version
            && t.entities[op.key].deletedAt == db.entities[op.key].deletedAt
            && Seen(t, op.key) == Seen(db, op.key)
            && (t.entities[op.key].status.Clean? <==>
                  forall id | id in db.outbox && id != r.op :: !Touches(op.key, db.outbox[id].key))
  {
    CleanWhenLast(db.outbox, op.id, op.key);
  }

  /** A decision about a conflict that the server has just reported is accepted if and
      only if it is one of the options and made on the device the refused operation is
      from, comes with a merged body exactly when it says so, the body on the device can
      be opened, the side it keeps has the digest the server named, and its own id is new. */
  lemma DecisionIsAccepted(db: Db, op: Op, c: ServerConflict, r: Request)
    requires Reported(db, op, c) && r.conflict == c.id
    ensures Refused(db, op, c).Ok?
    ensures Resolve(Refused(db, op, c).value, r).Ok?
            <==> && !r.choice.Dismiss? && r.choice in c.options && r.device == op.device
                 && (r.choice.Merge? <==> r.merged.Some?)
                 && Seen(db, c.key).Some?
                 && (r.choice.KeepLocal? ==> Sha(Seen(db, c.key).value) == c.localHash)
                 && (r.choice.KeepRemote? ==> Sha(c.remotePayload) == c.remoteHash)
                 && r.op !in db.outbox
  {
    RefusalKeepsBothBodies(db, op, c);
  }

  /** The server names the digest of what it refused. Once the user has gone on writing,
      the body on the device is another one, and keeping the local side is refused. */
  lemma NewerWorkBarsKeepLocal(db: Db, op: Op, c: ServerConflict, r: Request)
    requires Reported(db, op, c) && r.conflict == c.id && r.choice.KeepLocal? && c.localHash == op.payloadHash
    requires Seen(db, c.key).Some? && Sha(Seen(db, c.key).value) != op.payloadHash
    ensures Resolve(Refused(db, op, c).value, r).Err?
  {
    DecisionIsAccepted(db, op, c, r);
  }

  /** From refusal to settlement. The server refuses an operation, the user decides,
      and the server accepts the decision: the refused operation and the decision are
      gone, the conflict is closed as decided, and the entity shows the body the user
      chose at the version the server gave it. It is clean unless other work is queued
      on it. */
  lemma ConflictIsSettled(db: Db, op: Op, c: ServerConflict, r: Request, version: nat)
    requires Reported(db, op, c) && r.conflict == c.id && !r.choice.Dismiss?
    requires Refused(db, op, c).Ok? && Resolve(Refused(db, op, c).value, r).Ok?
    ensures var decided := Resolve(Refused(db, op, c).value, r).value;
            && r.op in decided.outbox
            && var t := Push.Ack(decided, decided.outbox[r.op], version);
            && op.id !in t.outbox && r.op !in t.outbox
            && c.id in t.conflicts && t.conflicts[c.id].status == Push.Resolved(r.choice)
            && Seen(t, c.key).Some? && Seen(t, c.key) == Wanted(r, Seen(db, c.key), Some(c.remotePayload))
            && c.key in t.entities && t.entities[c.key].serverVersion == version
            && t.entities[c.key].deletedAt == (if r.choice.KeepRemote? then c.remoteDeletedAt else None)
  {
    RefusalKeepsBothBodies(db, op, c);
    var refused := Refused(db, op, c).value;
    DecisionShowsChoice(refused, r);
    DecisionReplaces(refused, r, op.id);
    var decided := Resolve(refused, r).value;
    AcknowledgedDecision(decided, r, decided.outbox[r.op], version);
  }

  // The server refuses the decision

  /** If the entity has moved on again, the decision is refused with a new conflict.
      The new conflict is open, and holds the chosen body, if and only if it has an id
      of its own; the old one is dismissed. */
  lemma RefusedDecisionReopens(db: Db, op: Op, c: ServerConflict)
    requires op.id in db.outbox && db.outbox[op.id] == op && op.resolution.Some?
    requires c.key == Owner(op.key) && c.key in db.entities && op.resolution.value.conflict in db.conflicts
    requires db.entities[c.key].payload != Reference(OfConflict(c.id))
    ensures Refused(db, op, c).Ok?
    ensures var former, t := op.resolution.value.conflict, Refused(db, op, c).value;
            && former in t.conflicts && t.conflicts[former].status.Dismissed?
            && c.id in t.conflicts && (t.conflicts[c.id].status.OpenConflict? <==> c.id != former)
            && Body(t.vault, c.key.kind, t.conflicts[c.id].localPayload) == Seen(db, c.key)
            && Seen(t, c.key) == Seen(db, c.key) && t.entities[c.key].status.Conflicted?
            && op.id in t.outbox && t.outbox[op.id].state.InConflict?
  {
  }

  // A pull meets local work

  /** From pull to acceptance. Changes meet pending work on an entity, and the user
      takes the remote side of the conflict this raises: without asking the server the
      entity becomes clean, with version, digest and deletion of the highest version
      among the changes and a body of that digest. */
  lemma AcceptedPullShowsHighest(db: Db, device: DeviceId, changes: seq<Change>, k: Key, r: Request)
    requires Runs.OrdinaryType(k.kind)
    requires k in db.entities && db.entities[k].status.Pending? && Pages.First(changes, k).Some?
    requires r.conflict == Pulled(Pages.First(changes, k).value.op, k) && r.choice.KeepRemote?
    requires Resolve(Pull.Fold(db, device, changes), r).Ok?
    ensures Pages.Highest(changes, k).Some?
    ensures var t := Resolve(Pull.Fold(db, device, changes), r).value;
            var top := Pages.Highest(changes, k).value;
            && k in t.entities && t.entities[k].status.Clean?
            && t.entities[k].serverVersion == top.serverVersion && t.entities[k].deletedAt == top.deletedAt
            && t.entities[k].payloadHash == top.payloadHash
            && Seen(t, k).Some? && Sha(Seen(t, k).value) == top.payloadHash
            && r.conflict in t.conflicts && t.conflicts[r.conflict].status.ResolvedRemote?
  {
    Pages.RaisedConflictShowsHighest(db, device, changes, k);
    AcceptanceShowsRemote(Pull.Fold(db, device, changes), r);
  }

  lemma AcceptanceShowsRemote(db: Db, r: Request)
    requires Resolve(db, r).Ok? && Silent(db.conflicts[r.conflict], r)
    ensures var c, t := db.conflicts[r.conflict], Resolve(db, r).value;
            && c.key in t.entities && t.entities[c.key].status.Clean?
            && t.entities[c.key].serverVersion == c.remoteVersion && t.entities[c.key].deletedAt == c.remoteDeletedAt
            && t.entities[c.key].payloadHash == c.remoteHash
            && Seen(t, c.key) == Body(db.vault, c.key.kind, c.remotePayload)
            && Seen(t, c.key).Some? && Sha(Seen(t, c.key).value) == c.remoteHash
            && r.conflict in t.conflicts && t.conflicts[r.conflict].status.ResolvedRemote?
  {
    var c := db.conflicts[r.conflict];
    assert c.key != Key(DocState, DocStateOf(c.key.id)) || !c.key.kind.Note?;
  }
}
