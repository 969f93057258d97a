/**
 Which queued operations may be sent, and in what order
 (packages/offline/src/repository.ts:224-248 and 285-334).
 */
module Scheduler {
  import opened Types
  import opened Graph

  function DeviceRows(outbox: map<OpId, Op>, device: DeviceId): map<OpId, Op> {
    outbox - (set id | id in outbox && outbox[id].device != device)
  }

  ghost predicate Lists(rows: map<OpId, Op>, ops: seq<Op>) {
    forall i | 0 <= i < |ops| :: ops[i].id in rows && rows[ops[i].id] == ops[i]
  }

  ghost predicate Distinct(ops: seq<Op>) {
    forall i, j | 0 <= i < j < |ops| :: ops[i].id != ops[j].id
  }

  ghost function Ids(ops: seq<Op>): set<OpId> {
    if ops == [] then {} else Ids(ops[..|ops| - 1]) + {ops[|ops| - 1].id}
  }

  lemma {:induction false} IdsAreMembers(ops: seq<Op>)
    ensures forall id :: id in Ids(ops) <==> Within(ops, |ops|, id)
  {
    if ops != [] {
      var front := ops[..|ops| - 1];
      IdsAreMembers(front);
      forall id
        ensures id in Ids(ops) <==> Within(ops, |ops|, id)
      {
        if Within(ops, |ops|, id) {
          var j :| 0 <= j < |ops| && ops[j].id == id;
          assert j < |front| ==> front[j].id == id;
        }
        if id in Ids(front) {
          var j :| 0 <= j < |front| && front[j].id == id;
          assert ops[j].id == id;
        }
      }
    }
  }

  lemma {:induction false} IdsGrow(before: seq<Op>, after: seq<Op>)
    requires before <= after
    ensures Ids(before) <= Ids(after)
    decreases |after|
  {
    if before != after {
      IdsGrow(before, after[..|after| - 1]);
    } 
  }

  /** The id stands among the first n operations of the list. */
  ghost predicate Within(ops: seq<Op>, n: nat, id: OpId)
    requires n <= |ops|
  {
    exists j :: 0 <= j < n && ops[j].id == id
  }

  ghost predicate InQueueOrder(ops: seq<Op>) {
    forall i, j | 0 <= i < j < |ops| :: !Before(ops[j], ops[i])
  }

  /** Every dependency among `rows` stands earlier in the list. */
  ghost predicate DependenciesFirst(rows: map<OpId, Op>, ops: seq<Op>) {
    forall i, d | 0 <= i < |ops| && d in ops[i].deps && d in rows :: Within(ops, i, d)
  }

  /** The operation at k was placed for the sake of a seed that stands at or
      after it, and every earlier seed stands before it. */
  ghost predicate PlacedFor(rows: map<OpId, Op>, seeds: seq<Op>, ops: seq<Op>, k: nat, r: nat, m: nat) {
    && k < |ops|
    && r < |seeds| && k <= m < |ops| && ops[m] == seeds[r]
    && Reaches(rows, seeds[r].id, ops[k].id)
    && forall s | 0 <= s < r :: Within(ops, k, seeds[s].id)
  }

  ghost predicate Placed(rows: map<OpId, Op>, seeds: seq<Op>, ops: seq<Op>, k: nat) {
    exists r: nat, m: nat :: PlacedFor(rows, seeds, ops, k, r, m)
  }

  /** An operation overtakes one queued before it only for the sake of a
      dependent that was queued no later than the overtaken one. */
  ghost predicate OvertakesOnlyForDependents(rows: map<OpId, Op>, ops: seq<Op>) {
    forall i, j | 0 <= i < j < |ops| && Before(ops[j], ops[i]) ::
      exists m :: i < m < |ops| && !Before(ops[j], ops[m]) && DependsOn(rows, ops[m].id, ops[i].id)
  }

  /** A list built by appending operations whose dependencies are listed already. */
  ghost predicate Built(rows: map<OpId, Op>, ops: seq<Op>) {
    ops == [] ||
    var front, op := ops[..|ops| - 1], ops[|ops| - 1];
    && Built(rows, front)
    && op.id in rows && rows[op.id] == op
    && op.id !in Ids(front)
    && forall d | d in op.deps && d in rows :: d in Ids(front)
  }

  lemma {:induction false} BuiltIsOrdered(rows: map<OpId, Op>, ops: seq<Op>)
    requires Built(rows, ops)
    ensures Lists(rows, ops) && Distinct(ops) && DependenciesFirst(rows, ops)
  {
    if ops != [] {
      var front, op := ops[..|ops| - 1], ops[|ops| - 1];
      BuiltIsOrdered(rows, front);
      IdsAreMembers(front);
      forall i, d | 0 <= i < |ops| && d in ops[i].deps && d in rows
        ensures Within(ops, i, d)
      {
        assert i < |front| ==> Within(front, i, d);
        assert i == |front| ==> Within(front, |front|, d);
        var j :| 0 <= j < i && front[j].id == d;
        assert ops[j].id == d;
      }
      forall j | 0 <= j < |front|
        ensures ops[j].id != op.id
      {
        assert front[j].id == ops[j].id;
      }
    }
  }

  /** What listReadyOperations promises about its result. */
  ghost predicate ReadyListing(rows: map<OpId, Op>, ops: seq<Op>) {
    && Lists(rows, ops)
    && Distinct(ops)
    && (forall id :: id in Ids(ops) <==> IsReady(rows, id))
    && DependenciesFirst(rows, ops)
    && OvertakesOnlyForDependents(rows, ops)
  }

  // Array.prototype.sort with the queue comparator

  function Insert(x: Op, ops: seq<Op>): (r: seq<Op>)
    ensures multiset(r) == multiset(ops) + multiset{x}
  {
    if ops == [] then [x]
    else if Before(ops[0], x) then
      assert ops == [ops[0]] + ops[1..];
      [ops[0]] + Insert(x, ops[1..])
    else [x] + ops
  }

  function SortByQueue(ops: seq<Op>): (r: seq<Op>)
    ensures multiset(r) == multiset(ops)
  {
    if ops == [] then [] else
      assert ops == [ops[0]] + ops[1..];
      Insert(ops[0], SortByQueue(ops[1..]))
  }

  lemma {:induction false} InsertKeepsOrder(x: Op, ops: seq<Op>)
    requires InQueueOrder(ops)
    ensures InQueueOrder(Insert(x, ops))
  {
    if ops != [] && Before(ops[0], x) {
      InsertKeepsOrder(x, ops[1..]);
      var rest := Insert(x, ops[1..]);
      assert ops == [ops[0]] + ops[1..];
      forall j | 0 <= j < |rest|
        ensures !Before(rest[j], ops[0])
      {
        assert rest[j] in multiset(rest);
        assert rest[j] == x || rest[j] in ops[1..];
      }
    }
  }

  lemma {:induction false} SortIsOrdered(ops: seq<Op>)
    ensures InQueueOrder(SortByQueue(ops))
  {
    if ops != [] {
      SortIsOrdered(ops[1..]);
      InsertKeepsOrder(ops[0], SortByQueue(ops[1..]));
    }
  }

  /** One more step extends every dependency that leads to `op`. */
  lemma PathGrows(rows: map<OpId, Op>, visiting: set<OpId>, op: OpId, d: OpId)
    requires Edge(rows, op, d)
    requires forall v | v in visiting && v != op :: v in rows && DependsOn(rows, v, op)
    ensures Reaches(rows, op, d)
    ensures forall v | v in visiting :: v in rows && DependsOn(rows, v, d)
  {
    ReachesSelf(rows, d);
    ReachesStep(rows, op, d, d);
    forall v | v in visiting && v != op
      ensures DependsOn(rows, v, d)
    {
      DependsTrans(rows, v, op, d);
    }
  }

  lemma ReachedThrough(rows: map<OpId, Op>, op: OpId, d: OpId, mid: seq<Op>, after: seq<Op>)
    requires Edge(rows, op, d) && mid <= after
    requires forall k | |mid| <= k < |after| :: Reaches(rows, d, after[k].id)
    ensures forall k | |mid| <= k < |after| :: Reaches(rows, op, after[k].id)
  {
    forall k | |mid| <= k < |after|
      ensures Reaches(rows, op, after[k].id)
    {
      ReachesStep(rows, op, d, after[k].id);
    }
  }

  // The readiness search

  /** Nothing reachable from `start` is held, on a cycle, or among `avoid`. */
  ghost predicate Clear(rows: map<OpId, Op>, start: OpId, avoid: set<OpId>) {
    forall x | Reaches(rows, start, x) ::
      rows[x].state.Waiting? && x !in avoid && !DependsOn(rows, x, x)
  }

  lemma ClearFromDependencies(rows: map<OpId, Op>, op: OpId, avoid: set<OpId>)
    requires op in rows && rows[op].state.Waiting? && op !in avoid
    requires forall d | d in rows[op].deps && d in rows :: Clear(rows, d, avoid + {op})
    ensures Clear(rows, op, avoid)
  {
    forall x | Reaches(rows, op, x)
      ensures rows[x].state.Waiting? && x !in avoid && !DependsOn(rows, x, x)
    {
      if DependsOn(rows, op, x) {
        var d :| Edge(rows, op, d) && Reaches(rows, d, x);
        assert Clear(rows, d, avoid + {op});
      } else {
        ReachesCases(rows, op, x);
      }
    }
  }

  class ReadinessSearch {
    var visiting: set<OpId>

    constructor ()
      ensures visiting == {}
    {
      visiting := {};
    }

    /** dependsOnUnreadyOperation: true when something not waiting is reached. */
    method DependsOnUnready(op: Op, rows: map<OpId, Op>) returns (r: Result<bool>)
      requires Keyed(rows) && op.id in rows && rows[op.id] == op && op.state.Waiting?
      requires forall v | v in visiting :: v in rows && DependsOn(WaitingRows(rows), v, op.id)
      modifies this
      ensures r.Ok? ==> visiting == old(visiting)
      ensures r == Ok(true) ==> Held(rows, op.id)
      ensures r == Ok(false) ==> Clear(rows, op.id, visiting)
      ensures r.Err? ==> r.code == DependencyCycle && Cyclic(WaitingRows(rows))
      decreases rows.Keys - visiting
    {
      ghost var waiting := WaitingRows(rows);
      if op.id in visiting {
        return Err(DependencyCycle);
      }
      ghost var before := visiting;
      visiting := visiting + {op.id};
      for i := 0 to |op.deps|
        invariant visiting == before + {op.id}
        invariant forall j | 0 <= j < i && op.deps[j] in rows :: Clear(rows, op.deps[j], visiting)
      {
        var d := op.deps[i];
        if d in rows {
          var unready := !rows[d].state.Waiting?;
          if unready {
            ReachesSelf(rows, d);
            assert Edge(rows, op.id, d);
          } else {
            assert Edge(waiting, op.id, d);
            PathGrows(waiting, visiting, op.id, d);
            var deeper := DependsOnUnready(rows[d], rows);
            if deeper.Err? {
              return deeper;
            }
            unready := deeper.value;
            if unready {
              ghost var x :| DependsOn(rows, d, x) && !rows[x].state.Waiting?;
              DependsReaches(rows, d, x);
              assert Edge(rows, op.id, d);
            }
          }
          if unready {
            visiting := visiting - {op.id};
            return Ok(true);
          }
        }
      }
      visiting := visiting - {op.id};
      ClearFromDependencies(rows, op.id, before);
      return Ok(false);
    }
  }

  // The topological sort

  class TopologicalSort {
    const byId: map<OpId, Op>
    var visited: set<OpId>
    var visiting: set<OpId>
    var result: seq<Op>

    constructor (rows: map<OpId, Op>)
      requires Keyed(rows)
      ensures byId == rows && Valid() && visited == {} && visiting == {} && result == []
    {
      byId := rows;
      visited, visiting, result := {}, {}, [];
    }

    ghost predicate Valid()
      reads this
    {
      && Keyed(byId)
      && visited == Ids(result)
      && visiting !! visited
      && Built(byId, result)
    }

    method Visit(op: Op) returns (r: Result<()>)
      requires Valid() && op.id in byId && byId[op.id] == op
      requires forall v | v in visiting :: v in byId && DependsOn(byId, v, op.id)
      modifies this
      ensures r.Err? ==> r.code == DependencyCycle && Cyclic(byId)
      ensures r.Ok? ==> Valid() && visiting == old(visiting) && op.id in visited
      ensures r.Ok? ==> old(result) <= result && old(visited) <= visited
      ensures r.Ok? ==> forall k | |old(result)| <= k < |result| :: Reaches(byId, op.id, result[k].id)
      ensures r.Ok? ==> if op.id in old(visited) then result == old(result)
                        else |old(result)| < |result| && result[|result| - 1] == op
      decreases byId.Keys - visiting
    {
      if op.id in visited { return Ok(()); }
      if op.id in visiting { return Err(DependencyCycle); }
      ghost var before := visiting;
      ghost var start := result;
      visiting := visiting + {op.id};
      for i := 0 to |op.deps|
        invariant Valid() && visiting == before + {op.id} && start <= result && old(visited) <= visited
        invariant forall k | |start| <= k < |result| :: Reaches(byId, op.id, result[k].id)
        invariant forall j | 0 <= j < i && op.deps[j] in byId :: op.deps[j] in visited
      {
        var d := op.deps[i];
        if d in byId {
          assert Edge(byId, op.id, d);
          PathGrows(byId, visiting, op.id, d);
          ghost var mid := result;
          var deeper := Visit(byId[d]);
          if deeper.Err? { return deeper; }
          ReachedThrough(byId, op.id, d, mid, result);
        }
      }
      ReachesSelf(byId, op.id);
      Emit(op);
      return Ok(());
    }

    /** The last three statements of the visit: leave the path, mark, append. */
    method Emit(op: Op)
      requires Valid() && op.id in byId && byId[op.id] == op && op.id in visiting
      requires forall d | d in op.deps && d in byId :: d in visited
      modifies this
      ensures Valid() && visiting == old(visiting) - {op.id} && visited == old(visited) + {op.id}
      ensures result == old(result) + [op]
    {
      visiting := visiting - {op.id};
      visited := visited + {op.id};
      result := result + [op];
      assert result[..|result| - 1] == old(result);
    }
  }

  lemma {:induction false} AbsentFromPrefix(ops: seq<Op>, i: nat, j: nat)
    requires Distinct(ops) && i <= j < |ops|
    ensures !Within(ops, i, ops[j].id)
  {
  }

  lemma OrderFromPlacement(rows: map<OpId, Op>, seeds: seq<Op>, ops: seq<Op>)
    requires InQueueOrder(seeds) && Distinct(ops)
    requires forall k | 0 <= k < |ops| :: Placed(rows, seeds, ops, k)
    requires Lists(rows, ops) && Lists(rows, seeds) && Ids(ops) <= Ids(seeds)
    ensures OvertakesOnlyForDependents(rows, ops)
  {
    forall i, j | 0 <= i < j < |ops| && Before(ops[j], ops[i])
      ensures exists m :: i < m < |ops| && !Before(ops[j], ops[m]) && DependsOn(rows, ops[m].id, ops[i].id)
    {
      assert Placed(rows, seeds, ops, i);
      var r: nat, m: nat :| PlacedFor(rows, seeds, ops, i, r, m);
      IdsAreMembers(ops);
      IdsAreMembers(seeds);
      assert ops[j].id in Ids(seeds);
      var t :| 0 <= t < |seeds| && seeds[t] == ops[j];
      AbsentFromPrefix(ops, i, j);
      assert !Before(ops[j], ops[m]);
      assert m != i;
      ReachesCases(rows, ops[m].id, ops[i].id);
    }
  }

  /** new Map(operations.map((operation) => [operation.operation_id, operation])) */
  function ById(ops: seq<Op>): map<OpId, Op> {
    if ops == [] then map[] else ById(ops[..|ops| - 1])[ops[|ops| - 1].id := ops[|ops| - 1]]
  }

  lemma {:induction false} ByIdListed(rows: map<OpId, Op>, ops: seq<Op>)
    requires Lists(rows, ops)
    ensures ById(ops).Keys == Ids(ops)
    ensures forall id | id in ById(ops) :: id in rows && ById(ops)[id] == rows[id]
  {
    if ops != [] {
      ByIdListed(rows, ops[..|ops| - 1]);
    }
  }

  lemma ByIdRestores(rows: map<OpId, Op>, ops: seq<Op>)
    requires Lists(rows, ops) && Ids(ops) == rows.Keys
    ensures ById(ops) == rows
  {
    ByIdListed(rows, ops);
  }

  lemma {:induction false} SeedsCover(rows: map<OpId, Op>, seeds: seq<Op>, ops: seq<Op>)
    requires Lists(rows, seeds) && Lists(rows, ops) && Ids(seeds) == rows.Keys
    requires forall s | 0 <= s < |seeds| :: seeds[s].id in Ids(ops)
    ensures Ids(ops) == rows.Keys
  {
    IdsAreMembers(seeds);
    IdsAreMembers(ops);
    forall id | id in rows
      ensures id in Ids(ops)
    {
      assert Within(seeds, |seeds|, id);
    }
  }

  /** topologicalOrder: a depth-first listing of the operations in the given order. */
  method TopologicalOrder(ops: seq<Op>, ghost rows: map<OpId, Op>) returns (r: Result<seq<Op>>)
    requires Keyed(rows) && Lists(rows, ops) && Ids(ops) == rows.Keys
    ensures r.Err? ==> r.code == DependencyCycle && Cyclic(rows)
    ensures r.Ok? ==> Built(rows, r.value) && Ids(r.value) == rows.Keys
    ensures r.Ok? && InQueueOrder(ops) ==> OvertakesOnlyForDependents(rows, r.value)
  {
    var byId := ById(ops);
    ByIdRestores(rows, ops);
    var sort := new TopologicalSort(byId);
    for n := 0 to |ops|
      invariant sort.Valid() && sort.visiting == {} && sort.byId == byId
      invariant forall s | 0 <= s < n :: ops[s].id in sort.visited
      invariant forall k | 0 <= k < |sort.result| :: Placed(rows, ops, sort.result, k)
    {
      ghost var before := sort.result;
      var visit := sort.Visit(ops[n]);
      if visit.Err? { return Err(visit.code); }
      PlacementExtends(rows, ops, before, sort.result, n);
    }
    r := Ok(sort.result);
    BuiltIsOrdered(rows, r.value);
    SeedsCover(rows, ops, r.value);
    if InQueueOrder(ops) {
      OrderFromPlacement(rows, ops, r.value);
    }
  }

  lemma {:induction false} PlacementExtends(rows: map<OpId, Op>, seeds: seq<Op>, before: seq<Op>, after: seq<Op>, n: nat)
    requires n < |seeds| && before <= after
    requires seeds[n].id in Ids(before) ==> before == after
    requires forall k | 0 <= k < |before| :: Placed(rows, seeds, before, k)
    requires forall s | 0 <= s < n :: seeds[s].id in Ids(before)
    requires forall k | |before| <= k < |after| :: Reaches(rows, seeds[n].id, after[k].id)
    requires before != after ==> after[|after| - 1] == seeds[n]
    ensures forall k | 0 <= k < |after| :: Placed(rows, seeds, after, k)
  {
    IdsAreMembers(before);
    forall k | 0 <= k < |after|
      ensures Placed(rows, seeds, after, k)
    {
      if k < |before| {
        assert Placed(rows, seeds, before, k);
        var r: nat, m: nat :| PlacedFor(rows, seeds, before, k, r, m);
        forall s | 0 <= s < r
          ensures Within(after, k, seeds[s].id)
        {
          assert Within(before, k, seeds[s].id);
          var t :| 0 <= t < k && before[t].id == seeds[s].id;
          assert after[t] == before[t];
        }
        assert PlacedFor(rows, seeds, after, k, r, m);
      } else {
        forall s | 0 <= s < n
          ensures Within(after, k, seeds[s].id)
        {
          assert Within(before, |before|, seeds[s].id);
          var t :| 0 <= t < |before| && before[t].id == seeds[s].id;
          assert after[t] == before[t];
        }
        assert PlacedFor(rows, seeds, after, k, n, |after| - 1);
      }
    }
  }

  // listReadyOperations

  ghost function ReadyRows(rows: map<OpId, Op>): map<OpId, Op> {
    rows - (set id | id in rows && !IsReady(rows, id))
  }

  lemma ClearIsReady(rows: map<OpId, Op>, id: OpId)
    requires id in rows && Clear(rows, id, {})
    ensures IsReady(rows, id) && !DependsOn(rows, id, id)
  {
    ReachesSelf(rows, id);
    forall x | DependsOn(rows, id, x)
      ensures rows[x].state.Waiting?
    {
      DependsReaches(rows, id, x);
    }
  }

  lemma SortedSame(rows: map<OpId, Op>, a: seq<Op>, b: seq<Op>)
    requires multiset(a) == multiset(b) && Lists(rows, a)
    ensures Lists(rows, b) && Ids(a) == Ids(b)
  {
    IdsAreMembers(a);
    IdsAreMembers(b);
    forall i | 0 <= i < |b|
      ensures b[i] in a
    {
      assert b[i] in multiset(b);
      assert b[i] in multiset(a);
    }
    forall i | 0 <= i < |a|
      ensures a[i] in b
    {
      assert a[i] in multiset(a);
      assert a[i] in multiset(b);
    }
    forall id
      ensures id in Ids(a) <==> id in Ids(b)
    {
      if Within(a, |a|, id) {
        var i :| 0 <= i < |a| && a[i].id == id;
        var j :| 0 <= j < |b| && b[j] == a[i];
      }
      if Within(b, |b|, id) {
        var i :| 0 <= i < |b| && b[i].id == id;
        var j :| 0 <= j < |a| && a[j] == b[i];
      }
    }
  }

  /** The sort cannot fail once unready operations are filtered out. */
  lemma ReadyRowsAcyclic(rows: map<OpId, Op>)
    requires forall id | id in ReadyRows(rows) :: !DependsOn(rows, id, id)
    ensures !Cyclic(ReadyRows(rows))
  {
    forall a | DependsOn(ReadyRows(rows), a, a)
      ensures false
    {
      DependsReaches(ReadyRows(rows), a, a);
      SubgraphDepends(ReadyRows(rows), rows, a, a);
    }
  }

  lemma ListingOfReadyRows(rows: map<OpId, Op>, ops: seq<Op>)
    requires Built(ReadyRows(rows), ops) && Ids(ops) == ReadyRows(rows).Keys
    requires OvertakesOnlyForDependents(ReadyRows(rows), ops)
    ensures ReadyListing(rows, ops)
  {
    var ready := ReadyRows(rows);
    BuiltIsOrdered(ready, ops);
    forall i, d | 0 <= i < |ops| && d in ops[i].deps && d in rows
      ensures Within(ops, i, d)
    {
      assert Edge(rows, ops[i].id, d);
      ReachesSelf(rows, d);
      ReadyIsClosed(rows, ops[i].id, d);
    }
    forall i, j | 0 <= i < j < |ops| && Before(ops[j], ops[i])
      ensures exists m :: i < m < |ops| && !Before(ops[j], ops[m]) && DependsOn(rows, ops[m].id, ops[i].id)
    {
      var m :| i < m < |ops| && !Before(ops[j], ops[m]) && DependsOn(ready, ops[m].id, ops[i].id);
      SubgraphDepends(ready, rows, ops[m].id, ops[i].id);
    }
  }

  lemma AppendedIds(ops: seq<Op>, op: Op)
    ensures Ids(ops + [op]) == Ids(ops) + {op.id}
  {
    assert (ops + [op])[..|ops|] == ops;
  }

  /** The pending rows that pass the readiness search. */
  method FilterReady(rows: map<OpId, Op>) returns (r: Result<seq<Op>>)
    requires Keyed(rows)
    ensures r.Ok? ==> Lists(rows, r.value) && Ids(r.value) == ReadyRows(rows).Keys
    ensures r.Ok? ==> forall id | id in ReadyRows(rows) :: !DependsOn(rows, id, id)
    ensures r.Err? ==> r.code == DependencyCycle && Cyclic(WaitingRows(rows))
  {
    ghost var ready := ReadyRows(rows);
    var todo := rows.Keys;
    var pending: seq<Op> := [];
    while todo != {}
      invariant todo <= rows.Keys && Lists(rows, pending)
      invariant Ids(pending) == ready.Keys - todo
      invariant forall id | id in ready && id !in todo :: !DependsOn(rows, id, id)
      decreases todo
    {
      var id :| id in todo;
      todo := todo - {id};
      if rows[id].state.Waiting? {
        var search := new ReadinessSearch();
        var unready := search.DependsOnUnready(rows[id], rows);
        if unready.Err? { return Err(unready.code); }
        if !unready.value {
          ClearIsReady(rows, id);
          AppendedIds(pending, rows[id]);
          pending := pending + [rows[id]];
        }
      }
    }
    return Ok(pending);
  }

  method ListReady(outbox: map<OpId, Op>, device: DeviceId) returns (r: Result<seq<Op>>)
    requires Keyed(outbox)
    ensures r.Ok? ==> ReadyListing(DeviceRows(outbox, device), r.value)
    ensures r.Err? ==> r.code == DependencyCycle && Cyclic(WaitingRows(DeviceRows(outbox, device)))
  {
    var rows := DeviceRows(outbox, device);
    var pending :- FilterReady(rows);
    ghost var ready := ReadyRows(rows);
    ReadyRowsAcyclic(rows);
    var sorted := SortByQueue(pending);
    SortIsOrdered(pending);
    SortedSame(rows, pending, sorted);
    ReadyListed(rows, sorted);
    r := TopologicalOrder(sorted, ready);
    ListingOfReadyRows(rows, r.value);
  }

  lemma ReadyListed(rows: map<OpId, Op>, ops: seq<Op>)
    requires Lists(rows, ops) && Ids(ops) == ReadyRows(rows).Keys
    ensures Lists(ReadyRows(rows), ops)
  {
    IdsAreMembers(ops);
    forall i | 0 <= i < |ops|
      ensures ops[i].id in ReadyRows(rows)
    {
      assert Within(ops, |ops|, ops[i].id);
    }
  }

  // What a listing means for the requests cut from it

  /** Every prefix is closed under dependencies. */
  lemma {:induction false} PrefixIsClosed(rows: map<OpId, Op>, ops: seq<Op>, n: nat, path: seq<OpId>)
    requires ReadyListing(rows, ops) && n <= |ops|
    requires IsPath(rows, path) && Within(ops, n, path[0])
    ensures Within(ops, n, path[|path| - 1])
    decreases |path|
  {
    if |path| > 1 {
      var i :| 0 <= i < n && ops[i].id == path[0];
      assert Edge(rows, path[0], path[1]);
      assert Within(ops, i, path[1]);
      var j :| 0 <= j < i && ops[j].id == path[1];
      PathTail(rows, path);
      PrefixIsClosed(rows, ops, n, path[1..]);
    }
  }

  /** A transitive dependency that is still queued stands strictly earlier. */
  lemma {:induction false} DependencyIsEarlier(rows: map<OpId, Op>, ops: seq<Op>, i: nat, x: OpId)
    requires ReadyListing(rows, ops) && i < |ops| && DependsOn(rows, ops[i].id, x)
    ensures Within(ops, i, x)
  {
    var d :| Edge(rows, ops[i].id, d) && Reaches(rows, d, x);
    assert Within(ops, i, d);
    var path :| IsPath(rows, path) && path[0] == d && path[|path| - 1] == x;
    PrefixIsClosed(rows, ops, i, path);
  }

  /** A returned listing refutes every cycle but those held up by an operation
      that is not waiting: on any other cycle the scheduler must throw. */
  lemma ListingRefutesCycles(rows: map<OpId, Op>, ops: seq<Op>, a: OpId)
    requires ReadyListing(rows, ops) && DependsOn(rows, a, a)
    ensures !IsReady(rows, a)
  {
    if IsReady(rows, a) {
      IdsAreMembers(ops);
      assert Within(ops, |ops|, a);
      var i :| 0 <= i < |ops| && ops[i].id == a;
      AbsentFromPrefix(ops, i, i);
      DependencyIsEarlier(rows, ops, i, a);
    }
  }
}
