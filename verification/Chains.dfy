/**
 The operations queued on one entity, in queue order: when each names the one
 before it, all of them form a dependency chain, and every listing of ready
 operations keeps their order.
 */
module Chains {
  import opened Types
  import opened Graph
  import opened Repository
  import Scheduler

  function OnEntity(outbox: map<OpId, Op>, k: Key): map<OpId, Op> {
    outbox - (set id | id in outbox && outbox[id].key != k)
  }

  lemma WithoutOne(outbox: map<OpId, Op>, k: Key, id: OpId)
    ensures OnEntity(outbox - {id}, k) == OnEntity(outbox, k) - {id}
  {
  }

  /** Strictly between two operations on the entity. */
  function Between(outbox: map<OpId, Op>, k: Key, a: OpId, b: OpId): set<OpId>
    requires a in outbox && b in outbox
  {
    set x | x in outbox && outbox[x].key == k && Before(outbox[a], outbox[x]) && Before(outbox[x], outbox[b])
  }

  predicate InOrder(outbox: map<OpId, Op>, k: Key, a: OpId, b: OpId) {
    a in outbox && b in outbox && outbox[a].key == k && outbox[b].key == k && Before(outbox[a], outbox[b])
  }

  /** Each operation on the entity names the one queued before it. */
  ghost predicate Linked(outbox: map<OpId, Op>, k: Key) {
    forall a, b | InOrder(outbox, k, a, b) && Between(outbox, k, a, b) == {} :: a in outbox[b].deps
  }

  /** Later operations on the entity depend on the earlier ones. */
  ghost predicate Chained(outbox: map<OpId, Op>, k: Key) {
    forall a, b | InOrder(outbox, k, a, b) :: DependsOn(outbox, b, a)
  }

  lemma BetweenShrinks(outbox: map<OpId, Op>, k: Key, a: OpId, x: OpId, b: OpId)
    requires InOrder(outbox, k, a, b) && x in Between(outbox, k, a, b)
    ensures InOrder(outbox, k, a, x) && InOrder(outbox, k, x, b)
    ensures Between(outbox, k, a, x) < Between(outbox, k, a, b)
    ensures Between(outbox, k, x, b) < Between(outbox, k, a, b)
  {
    assert x !in Between(outbox, k, a, x) && x !in Between(outbox, k, x, b);
  }

  lemma {:induction false} LinkedIsChained(outbox: map<OpId, Op>, k: Key, a: OpId, b: OpId)
    requires Linked(outbox, k) && InOrder(outbox, k, a, b)
    ensures DependsOn(outbox, b, a)
    decreases Between(outbox, k, a, b)
  {
    if Between(outbox, k, a, b) == {} {
      assert Edge(outbox, b, a);
      ReachesSelf(outbox, a);
    } else {
      var x :| x in Between(outbox, k, a, b);
      BetweenShrinks(outbox, k, a, x, b);
      LinkedIsChained(outbox, k, a, x);
      LinkedIsChained(outbox, k, x, b);
      DependsReaches(outbox, x, a);
      DependsTrans(outbox, b, x, a);
    }
  }

  lemma AllLinkedIsChained(outbox: map<OpId, Op>, k: Key)
    requires Linked(outbox, k)
    ensures Chained(outbox, k)
  {
    forall a, b | InOrder(outbox, k, a, b)
      ensures DependsOn(outbox, b, a)
    {
      LinkedIsChained(outbox, k, a, b);
    }
  }

  /** In a listing an older operation on the entity stands earlier, as long as the
      device that lists owns it and those between. */
  lemma {:induction false} LinkedIsEarlier(outbox: map<OpId, Op>, k: Key, device: DeviceId, ops: seq<Op>, a: OpId, j: nat)
    requires Linked(outbox, k) && Keyed(outbox)
    requires Scheduler.ReadyListing(Scheduler.DeviceRows(outbox, device), ops) && j < |ops|
    requires InOrder(outbox, k, a, ops[j].id) && outbox[a].device == device
    requires forall x | x in Between(outbox, k, a, ops[j].id) :: outbox[x].device == device
    ensures Scheduler.Within(ops, j, a)
    decreases Between(outbox, k, a, ops[j].id)
  {
    var b := ops[j].id;
    if Between(outbox, k, a, b) == {} {
      assert a in ops[j].deps;
    } else {
      var x :| x in Between(outbox, k, a, b);
      BetweenShrinks(outbox, k, a, x, b);
      LinkedIsEarlier(outbox, k, device, ops, x, j);
      var i :| 0 <= i < j && ops[i].id == x;
      LinkedIsEarlier(outbox, k, device, ops, a, i);
      var h :| 0 <= h < i && ops[h].id == a;
    }
  }

  // What happens to the links

  /** The same rows, as far as the graph is concerned. */
  ghost predicate SameGraph(before: map<OpId, Op>, after: map<OpId, Op>) {
    && before.Keys == after.Keys
    && forall id | id in before :: after[id].deps == before[id].deps && after[id].key == before[id].key
         && after[id].queuedAt == before[id].queuedAt && after[id].id == before[id].id
  }

  lemma SameGraphLinked(before: map<OpId, Op>, after: map<OpId, Op>, k: Key)
    requires SameGraph(before, after) && Linked(before, k)
    ensures Linked(after, k)
  {
    forall a, b | InOrder(after, k, a, b) && Between(after, k, a, b) == {}
      ensures a in after[b].deps
    {
      assert Between(before, k, a, b) == Between(after, k, a, b);
    }
  }

  /** Nothing on the entity changes. */
  lemma UntouchedLinked(before: map<OpId, Op>, after: map<OpId, Op>, k: Key)
    requires Linked(before, k) && OnEntity(after, k) == OnEntity(before, k)
    ensures Linked(after, k)
  {
    forall a, b | InOrder(after, k, a, b) && Between(after, k, a, b) == {}
      ensures a in after[b].deps
    {
      assert a in OnEntity(after, k) && b in OnEntity(after, k);
      forall x | x in Between(before, k, a, b)
        ensures x in Between(after, k, a, b)
      {
        assert x in OnEntity(before, k);
      }
    }
  }

  /** The next operation after `a` on the way to `b`. */
  lemma {:induction false} NextOne(outbox: map<OpId, Op>, k: Key, a: OpId, b: OpId) returns (y: OpId)
    requires InOrder(outbox, k, a, b)
    ensures InOrder(outbox, k, a, y) && Between(outbox, k, a, y) == {}
    ensures y == b || y in Between(outbox, k, a, b)
    decreases Between(outbox, k, a, b)
  {
    if Between(outbox, k, a, b) == {} {
      y := b;
    } else {
      var x :| x in Between(outbox, k, a, b);
      BetweenShrinks(outbox, k, a, x, b);
      y := NextOne(outbox, k, a, x);
    }
  }

  /** Rows may leave once everything they depend on leaves with them. */
  lemma RemovalLinked(outbox: map<OpId, Op>, gone: set<OpId>, k: Key)
    requires Linked(outbox, k) && Closed(outbox, gone)
    ensures Linked(outbox - gone, k)
  {
    var rest := outbox - gone;
    forall a, b | InOrder(rest, k, a, b) && Between(rest, k, a, b) == {}
      ensures a in rest[b].deps
    {
      var y := NextOne(outbox, k, a, b);
      assert Edge(outbox, y, a) && y !in gone;
      assert forall x | x in Between(outbox, k, a, b) && x !in gone :: x in Between(rest, k, a, b);
    }
  }

  lemma NoneLeft(ids: set<OpId>, gone: set<OpId>)
    ensures ids - gone == {} <==> ids <= gone
  {
    assert forall id | id in ids && id !in gone :: id in ids - gone;
  }

  /** Whatever rows on the entity leave, the rest stays linked if and only if those
      that become neighbours were so before, or the later names the earlier anyway. */
  lemma RemovalLinkedExactly(outbox: map<OpId, Op>, gone: set<OpId>, k: Key)
    requires Linked(outbox, k)
    ensures Linked(outbox - gone, k) <==>
            forall a, b | InOrder(outbox, k, a, b) && a !in gone && b !in gone && Between(outbox, k, a, b) <= gone ::
              Between(outbox, k, a, b) == {} || a in outbox[b].deps
  {
    var rest := outbox - gone;
    forall a, b | InOrder(outbox, k, a, b) && a !in gone && b !in gone
      ensures Between(rest, k, a, b) == {} <==> Between(outbox, k, a, b) <= gone
    {
      assert Between(rest, k, a, b) == Between(outbox, k, a, b) - gone;
      NoneLeft(Between(outbox, k, a, b), gone);
    }
    if Linked(rest, k) {
      forall a, b | InOrder(outbox, k, a, b) && a !in gone && b !in gone && Between(outbox, k, a, b) <= gone
        ensures a in outbox[b].deps
      {
        assert InOrder(rest, k, a, b) && Between(rest, k, a, b) == {};
      }
    }
  }

  /** A row that is younger than all on its entity keeps the links if and only if it
      names the newest of them. */
  lemma OthersStayLinked(outbox: map<OpId, Op>, row: Op)
    requires Linked(outbox, row.key) && row.id !in outbox
    requires forall id | id in OnEntity(outbox, row.key) :: Before(outbox[id], row)
    ensures var after := outbox[row.id := row];
            forall a, b | InOrder(after, row.key, a, b) && Between(after, row.key, a, b) == {} && b != row.id ::
              a in after[b].deps
  {
    var after, k := outbox[row.id := row], row.key;
    forall a, b | InOrder(after, k, a, b) && Between(after, k, a, b) == {} && b != row.id
      ensures a in after[b].deps
    {
      assert a in OnEntity(outbox, k) || a == row.id;
      assert b in OnEntity(outbox, k);
      assert Between(outbox, k, a, b) <= Between(after, k, a, b);
    }
  }

  lemma AdditionLinked(outbox: map<OpId, Op>, row: Op)
    requires Keyed(outbox) && Linked(outbox, row.key) && row.id !in outbox
    requires forall id | id in OnEntity(outbox, row.key) :: Before(outbox[id], row)
    ensures var newest := Latest(OnEntity(outbox, row.key));
            Linked(outbox[row.id := row], row.key) <==> (newest.Some? ==> newest.value in row.deps)
  {
    var after, k, newest := outbox[row.id := row], row.key, Latest(OnEntity(outbox, row.key));
    if newest.Some? {
      assert newest.value in OnEntity(outbox, k);
      assert forall x | x in OnEntity(outbox, k) :: !Before(outbox[newest.value], outbox[x]);
      assert forall x | x in Between(after, k, newest.value, row.id) :: x in OnEntity(outbox, k);
      assert Between(after, k, newest.value, row.id) == {};
      assert InOrder(after, k, newest.value, row.id);
    }
    OthersStayLinked(outbox, row);
    forall a | InOrder(after, k, a, row.id) && Between(after, k, a, row.id) == {}
      ensures newest == Some(a)
    {
      assert a in OnEntity(outbox, k);
      assert newest.value !in Between(after, k, a, row.id);
    }
  }

  lemma OtherAdditionLinked(outbox: map<OpId, Op>, row: Op, k: Key)
    requires Linked(outbox, k) && row.id !in outbox && row.key != k
    ensures Linked(outbox[row.id := row], k)
  {
    assert OnEntity(outbox[row.id := row], k) == OnEntity(outbox, k);
    UntouchedLinked(outbox, outbox[row.id := row], k);
  }
}
