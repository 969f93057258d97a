/**
 Against a server that applies everything, repeated pushes empty the ready part
 of the queue, a hundred operations at a time.
 */
module Draining {
  import opened Types
  import opened Graph
  import opened Scheduler
  import opened Runs
  import opened Safety
  import opened Guarantees
  import Push

  /** The rows of a device after some of its operations were acknowledged. */
  ghost function Without(outbox: map<OpId, Op>, batch: seq<Op>): map<OpId, Op> {
    outbox - Ids(batch)
  }

  /** Acknowledging a whole batch takes exactly its operations out of the outbox. */
  lemma {:induction false} AllAckedRemovesBatch(db: Db, batch: seq<Op>, results: seq<OpResult>)
    requires |batch| == |results|
    requires forall i | 0 <= i < |batch| :: results[i].Acked? && results[i].op == batch[i].id
    ensures Push.Fold(db, batch, results).Ok?
    ensures Push.Fold(db, batch, results).value.outbox == Without(db.outbox, batch)
    decreases |batch|
  {
    if batch != [] {
      var n := |batch| - 1;
      AllAckedRemovesBatch(db, batch[..n], results[..n]);
    } else {
      assert Without(db.outbox, batch) == db.outbox;
    }
  }

  lemma {:induction false} ListedIsReady(rows: map<OpId, Op>, listing: seq<Op>, i: nat)
    requires ReadyListing(rows, listing) && i < |listing|
    ensures listing[i].id in rows && rows[listing[i].id] == listing[i] && IsReady(rows, listing[i].id)
  {
    IdsAreMembers(listing);
    assert Within(listing, |listing|, listing[i].id);
  }

  lemma BatchIsClosed(rows: map<OpId, Op>, listing: seq<Op>)
    requires ReadyListing(rows, listing)
    ensures Closed(rows, Ids(Batch(listing)))
    ensures forall id | id in Ids(Batch(listing)) :: IsReady(rows, id)
  {
    var batch := Batch(listing);
    IdsAreMembers(batch);
    IdsAreMembers(listing);
    forall a, b | a in Ids(batch) && Edge(rows, a, b)
      ensures b in Ids(batch)
    {
      var i :| 0 <= i < |batch| && batch[i].id == a;
      assert batch[i] == listing[i] && Within(listing, i, b);
      var j :| 0 <= j < i && listing[j].id == b;
      assert batch[j] == listing[j];
    }
    forall id | id in Ids(batch)
      ensures IsReady(rows, id)
    {
      var i :| 0 <= i < |batch| && batch[i].id == id;
      assert listing[i].id == id;
      assert Within(listing, |listing|, id);
    }
  }

  /** Removing a sent batch changes the readiness of no other operation. */
  lemma ReadinessKept(rows: map<OpId, Op>, listing: seq<Op>, id: OpId)
    requires ReadyListing(rows, listing) && id in rows && id !in Ids(Batch(listing))
    ensures IsReady(rows - Ids(Batch(listing)), id) <==> IsReady(rows, id)
  {
    var gone := Ids(Batch(listing));
    BatchIsClosed(rows, listing);
    if Held(rows, id) {
      var x :| DependsOn(rows, id, x) && !rows[x].state.Waiting?;
      RemovalKeepsDepends(rows, gone, id, x);
      DependsReaches(rows, id, x);
      assert (rows - gone)[x] == rows[x];
    }
    if Held(rows - gone, id) {
      var x :| DependsOn(rows - gone, id, x) && !(rows - gone)[x].state.Waiting?;
      DependsReaches(rows - gone, id, x);
      SubgraphDepends(rows - gone, rows, id, x);
    }
  }

  lemma {:induction false} DistinctCount(ops: seq<Op>)
    requires Distinct(ops)
    ensures |Ids(ops)| == |ops|
    decreases |ops|
  {
    if ops != [] {
      var front := ops[..|ops| - 1];
      DistinctCount(front);
      IdsAreMembers(front);
      assert ops[|ops| - 1].id !in Ids(front) by {
        forall j | 0 <= j < |front|
          ensures front[j].id != ops[|ops| - 1].id
        {
          assert front[j] == ops[j];
        }
      }
    }
  }

  /** A device's rows lose exactly the batch. */
  lemma DeviceRowsWithout(outbox: map<OpId, Op>, device: DeviceId, batch: seq<Op>)
    ensures DeviceRows(Without(outbox, batch), device) == DeviceRows(outbox, device) - Ids(batch)
  {
  }

  lemma RoundReady(rows: map<OpId, Op>, listing: seq<Op>)
    requires ReadyListing(rows, listing)
    ensures ReadyRows(rows - Ids(Batch(listing))) == ReadyRows(rows) - Ids(Batch(listing))
    ensures Ids(Batch(listing)) <= ReadyRows(rows).Keys
  {
    var after := rows - Ids(Batch(listing));
    BatchIsClosed(rows, listing);
    forall id | id in after
      ensures IsReady(after, id) <==> IsReady(rows, id)
    {
      ReadinessKept(rows, listing, id);
    }
  }

  lemma BatchDistinct(listing: seq<Op>)
    requires Distinct(listing)
    ensures Distinct(Batch(listing))
  {
    var batch := Batch(listing);
    forall i, j | 0 <= i < j < |batch|
      ensures batch[i].id != batch[j].id
    {
      assert batch[i] == listing[i] && batch[j] == listing[j];
    }
  }

  lemma RoundCount(rows: map<OpId, Op>, listing: seq<Op>)
    requires ReadyListing(rows, listing)
    ensures var after := rows - Ids(Batch(listing));
            && ReadyRows(after) == ReadyRows(rows) - Ids(Batch(listing))
            && |ReadyRows(rows)| == |listing|
            && |ReadyRows(after)| == |listing| - |Batch(listing)|
            && forall id | id in rows && !IsReady(rows, id) :: id in after && after[id] == rows[id]
  {
    RoundReady(rows, listing);
    DistinctCount(listing);
    BatchDistinct(listing);
    DistinctCount(Batch(listing));
    assert ReadyRows(rows).Keys == Ids(listing);
    CountWithout(ReadyRows(rows), Ids(Batch(listing)));
  }

  lemma CountWithout(rows: map<OpId, Op>, gone: set<OpId>)
    requires gone <= rows.Keys
    ensures |rows - gone| == |rows| - |gone|
  {
    assert (rows - gone).Keys == rows.Keys - gone;
  }

  lemma UnreadyStays(outbox: map<OpId, Op>, device: DeviceId, listing: seq<Op>, id: OpId)
    requires ReadyListing(DeviceRows(outbox, device), listing)
    requires id in outbox && !IsReady(DeviceRows(outbox, device), id)
    ensures var next := Without(outbox, Batch(listing));
            id in next && next[id] == outbox[id] && !IsReady(DeviceRows(next, device), id)
  {
    var rows, batch := DeviceRows(outbox, device), Batch(listing);
    BatchIsClosed(rows, listing);
    DeviceRowsWithout(outbox, device, batch);
    if id in rows { ReadinessKept(rows, listing, id); }
  }

  /** The server applied, or had already applied, every operation of the batch. */
  ghost predicate AllAcked(batch: seq<Op>, results: seq<OpResult>) {
    && |results| == |batch|
    && forall i | 0 <= i < |batch| :: results[i].Acked? && results[i].op == batch[i].id
  }

  /** Push after push, each answered before the next one is sent. */
  function Pushes(listings: seq<seq<Op>>, answers: seq<seq<OpResult>>): seq<Event>
    requires |listings| == |answers|
  {
    if listings == [] then [] else
      [SendPush(listings[0]), PushAnswered(answers[0])] + Pushes(listings[1..], answers[1..])
  }

  /** How many of n ready operations are left after some rounds. */
  function Left(n: nat, rounds: nat): nat {
    if n <= rounds * Push.BATCH then 0 else n - rounds * Push.BATCH
  }

  function Pushed(s: System, listing: seq<Op>, results: seq<OpResult>): System
  {
    Next(Next(s, SendPush(listing)), PushAnswered(results))
  }

  lemma PushedOutbox(s: System, listing: seq<Op>, results: seq<OpResult>)
    requires AllAcked(Batch(listing), results)
    ensures Pushed(s, listing, results).db.outbox == Without(s.db.outbox, Batch(listing))
    ensures Device(Pushed(s, listing, results)) == Device(s)
  {
    var sealed := s.db.(vault := Push.SealRemotes(s.db.vault, results));
    AllAckedRemovesBatch(sealed, Batch(listing), results);
    FoldSync(sealed, Batch(listing), results);
  }

  lemma PushesUnfold(s: System, listings: seq<seq<Op>>, answers: seq<seq<OpResult>>, t: System)
    requires |listings| == |answers| && listings != [] && RunsTo(s, Pushes(listings, answers), t)
    requires AllAcked(Batch(listings[0]), answers[0])
    ensures ReadyListing(DeviceRows(s.db.outbox, Device(s)), listings[0])
    ensures RunsTo(Pushed(s, listings[0], answers[0]), Pushes(listings[1..], answers[1..]), t)
  {
    var events := Pushes(listings, answers);
    assert events[0] == SendPush(listings[0]) && events[1..][0] == PushAnswered(answers[0]);
    assert events[1..][1..] == Pushes(listings[1..], answers[1..]);
    var s1 := Next(s, events[0]);
    assert RunsTo(s1, events[1..], t);
    assert RunsTo(Next(s1, events[1..][0]), events[1..][1..], t);
  }

  lemma RoundDrains(outbox: map<OpId, Op>, device: DeviceId, listing: seq<Op>, rounds: nat)
    requires ReadyListing(DeviceRows(outbox, device), listing) && rounds > 0
    ensures var next := Without(outbox, Batch(listing));
            Left(|ReadyRows(DeviceRows(next, device))|, rounds - 1) == Left(|ReadyRows(DeviceRows(outbox, device))|, rounds)
  {
    RoundCount(DeviceRows(outbox, device), listing);
    DeviceRowsWithout(outbox, device, Batch(listing));
  }

  /** Each push whose operations are all acknowledged takes a hundred ready ones
      (or all that are left) out of the queue, so n of them are gone after n/100
      pushes, rounded up, and not before; operations that were not ready are
      neither sent nor changed. */
  lemma {:induction false} QueueDrains(s: System, listings: seq<seq<Op>>, answers: seq<seq<OpResult>>, t: System)
    requires |listings| == |answers| && RunsTo(s, Pushes(listings, answers), t)
    requires forall i | 0 <= i < |listings| :: AllAcked(Batch(listings[i]), answers[i])
    ensures Device(t) == Device(s)
    ensures |ReadyRows(DeviceRows(t.db.outbox, Device(s)))|
            == Left(|ReadyRows(DeviceRows(s.db.outbox, Device(s)))|, |listings|)
    ensures forall id | id in s.db.outbox && !IsReady(DeviceRows(s.db.outbox, Device(s)), id) ::
              id in t.db.outbox && t.db.outbox[id] == s.db.outbox[id]
    decreases |listings|
  {
    if listings != [] {
      var next := Pushed(s, listings[0], answers[0]);
      PushesUnfold(s, listings, answers, t);
      PushedOutbox(s, listings[0], answers[0]);
      QueueDrains(next, listings[1..], answers[1..], t);
      RoundDrains(s.db.outbox, Device(s), listings[0], |listings|);
      AllUnreadyStay(s.db.outbox, Device(s), listings[0]);
      assert next.db.outbox == Without(s.db.outbox, Batch(listings[0]));
    }
  }

  lemma AllUnreadyStay(outbox: map<OpId, Op>, device: DeviceId, listing: seq<Op>)
    requires ReadyListing(DeviceRows(outbox, device), listing)
    ensures var next := Without(outbox, Batch(listing));
            forall id | id in outbox && !IsReady(DeviceRows(outbox, device), id) ::
              id in next && next[id] == outbox[id] && !IsReady(DeviceRows(next, device), id)
  {
    forall id | id in outbox && !IsReady(DeviceRows(outbox, device), id)
      ensures var next := Without(outbox, Batch(listing));
              id in next && next[id] == outbox[id] && !IsReady(DeviceRows(next, device), id)
    {
      UnreadyStays(outbox, device, listing, id);
    }
  }
}
