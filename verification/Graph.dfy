/**
 The dependency graph of the outbox: an edge leads from a queued operation to
 a dependency that is queued as well. Dependencies that have left the outbox
 are not part of the graph.
 */
module Graph {
  import opened Types

  predicate Edge(rows: map<OpId, Op>, a: OpId, b: OpId) {
    a in rows && b in rows && b in rows[a].deps
  }

  ghost predicate IsPath(rows: map<OpId, Op>, path: seq<OpId>) {
    && 0 < |path|
    && (forall i | 0 <= i < |path| :: path[i] in rows)
    && (forall i | 0 <= i < |path| - 1 :: Edge(rows, path[i], path[i + 1]))
  }

  /** Zero or more dependency steps. */
  ghost predicate Reaches(rows: map<OpId, Op>, a: OpId, b: OpId) {
    exists path :: IsPath(rows, path) && path[0] == a && path[|path| - 1] == b
  }

  /** One or more dependency steps. */
  ghost predicate DependsOn(rows: map<OpId, Op>, a: OpId, b: OpId) {
    exists d :: Edge(rows, a, d) && Reaches(rows, d, b)
  }

  ghost predicate Cyclic(rows: map<OpId, Op>) {
    exists a :: DependsOn(rows, a, a)
  }

  function WaitingRows(rows: map<OpId, Op>): map<OpId, Op> {
    rows - (set id | id in rows && !rows[id].state.Waiting?)
  }

  /** Some transitive dependency is queued but not waiting. */
  ghost predicate Held(rows: map<OpId, Op>, a: OpId) {
    exists x :: DependsOn(rows, a, x) && !rows[x].state.Waiting?
  }

  ghost predicate IsReady(rows: map<OpId, Op>, a: OpId) {
    a in rows && rows[a].state.Waiting? && !Held(rows, a)
  }

  lemma ReachesSelf(rows: map<OpId, Op>, a: OpId)
    requires a in rows
    ensures Reaches(rows, a, a)
  {
    assert IsPath(rows, [a]);
  }

  lemma ReachesStep(rows: map<OpId, Op>, a: OpId, d: OpId, b: OpId)
    requires Edge(rows, a, d) && Reaches(rows, d, b)
    ensures Reaches(rows, a, b) && DependsOn(rows, a, b)
  {
    var path :| IsPath(rows, path) && path[0] == d && path[|path| - 1] == b;
    var longer := [a] + path;
    assert forall i | 0 <= i < |longer| - 1 :: i > 0 ==> longer[i] == path[i - 1] && longer[i + 1] == path[i];
    assert IsPath(rows, longer) && longer[0] == a && longer[|longer| - 1] == b;
  }

  lemma PathTail(rows: map<OpId, Op>, path: seq<OpId>)
    requires IsPath(rows, path) && |path| > 1
    ensures IsPath(rows, path[1..])
  {
    var tail := path[1..];
    forall i | 0 <= i < |tail| - 1
      ensures Edge(rows, tail[i], tail[i + 1])
    {
      assert Edge(rows, path[i + 1], path[i + 2]);
    }
  }

  lemma ReachesCases(rows: map<OpId, Op>, a: OpId, b: OpId)
    requires Reaches(rows, a, b)
    ensures a in rows && b in rows
    ensures a == b || DependsOn(rows, a, b)
  {
    var path :| IsPath(rows, path) && path[0] == a && path[|path| - 1] == b;
    if |path| > 1 {
      PathTail(rows, path);
      assert Edge(rows, path[0], path[1]);
      assert Reaches(rows, path[1], b);
    }
  }

  lemma {:induction false} PathJoins(rows: map<OpId, Op>, path: seq<OpId>, c: OpId)
    requires IsPath(rows, path) && Reaches(rows, path[|path| - 1], c)
    ensures Reaches(rows, path[0], c)
    decreases |path|
  {
    if |path| > 1 {
      PathTail(rows, path);
      PathJoins(rows, path[1..], c);
      ReachesStep(rows, path[0], path[1], c);
    }
  }

  lemma ReachesTrans(rows: map<OpId, Op>, a: OpId, b: OpId, c: OpId)
    requires Reaches(rows, a, b) && Reaches(rows, b, c)
    ensures Reaches(rows, a, c)
  {
    var path :| IsPath(rows, path) && path[0] == a && path[|path| - 1] == b;
    PathJoins(rows, path, c);
  }

  lemma DependsTrans(rows: map<OpId, Op>, a: OpId, b: OpId, c: OpId)
    requires DependsOn(rows, a, b) && Reaches(rows, b, c)
    ensures DependsOn(rows, a, c)
  {
    var d :| Edge(rows, a, d) && Reaches(rows, d, b);
    ReachesTrans(rows, d, b, c);
  }

  lemma DependsReaches(rows: map<OpId, Op>, a: OpId, b: OpId)
    requires DependsOn(rows, a, b)
    ensures a in rows && b in rows && Reaches(rows, a, b)
  {
    var d :| Edge(rows, a, d) && Reaches(rows, d, b);
    ReachesStep(rows, a, d, b);
    ReachesCases(rows, d, b);
  }

  /** Whatever connects two operations in part of the outbox connects them in all of it. */
  lemma SubgraphReaches(part: map<OpId, Op>, rows: map<OpId, Op>, a: OpId, b: OpId)
    requires forall id | id in part :: id in rows && rows[id].deps == part[id].deps
    requires Reaches(part, a, b)
    ensures Reaches(rows, a, b)
  {
    var path :| IsPath(part, path) && path[0] == a && path[|path| - 1] == b;
    assert forall i | 0 <= i < |path| - 1 :: Edge(part, path[i], path[i + 1]);
    assert IsPath(rows, path);
  }

  lemma SubgraphDepends(part: map<OpId, Op>, rows: map<OpId, Op>, a: OpId, b: OpId)
    requires forall id | id in part :: id in rows && rows[id].deps == part[id].deps
    requires DependsOn(part, a, b)
    ensures DependsOn(rows, a, b)
  {
    var d :| Edge(part, a, d) && Reaches(part, d, b);
    SubgraphReaches(part, rows, d, b);
    assert Edge(rows, a, d);
  }

  /** Dependencies of a ready operation are ready. */
  lemma ReadyIsClosed(rows: map<OpId, Op>, a: OpId, b: OpId)
    requires IsReady(rows, a) && DependsOn(rows, a, b)
    ensures IsReady(rows, b)
  {
    DependsReaches(rows, a, b);
    forall x | DependsOn(rows, b, x)
      ensures rows[x].state.Waiting?
    {
      DependsReaches(rows, b, x);
      DependsTrans(rows, a, b, x);
    }
  }

  /** The set contains every dependency of its members. */
  ghost predicate Closed(rows: map<OpId, Op>, gone: set<OpId>) {
    forall a, b | a in gone && Edge(rows, a, b) :: b in gone
  }

  lemma {:induction false} ClosedReaches(rows: map<OpId, Op>, gone: set<OpId>, path: seq<OpId>)
    requires Closed(rows, gone) && IsPath(rows, path) && path[|path| - 1] !in gone
    ensures forall i | 0 <= i < |path| :: path[i] !in gone
    decreases |path|
  {
    if |path| > 1 {
      PathTail(rows, path);
      ClosedReaches(rows, gone, path[1..]);
      assert path[1..][0] == path[1] && Edge(rows, path[0], path[1]);
      forall i | 0 <= i < |path|
        ensures path[i] !in gone
      {
        if i > 0 { assert path[1..][i - 1] == path[i]; }
      }
    }
  }

  /** Removing a set that contains its own dependencies cuts no connection between
      the operations that stay. */
  lemma RemovalKeepsReaches(rows: map<OpId, Op>, gone: set<OpId>, a: OpId, b: OpId)
    requires Closed(rows, gone) && Reaches(rows, a, b) && b !in gone
    ensures Reaches(rows - gone, a, b)
  {
    var path :| IsPath(rows, path) && path[0] == a && path[|path| - 1] == b;
    ClosedReaches(rows, gone, path);
    assert forall i | 0 <= i < |path| - 1 :: Edge(rows, path[i], path[i + 1]);
    assert IsPath(rows - gone, path);
  }

  lemma RemovalKeepsDepends(rows: map<OpId, Op>, gone: set<OpId>, a: OpId, b: OpId)
    requires Closed(rows, gone) && DependsOn(rows, a, b) && b !in gone
    ensures a !in gone && DependsOn(rows - gone, a, b)
  {
    var d :| Edge(rows, a, d) && Reaches(rows, d, b);
    RemovalKeepsReaches(rows, gone, d, b);
    ReachesCases(rows - gone, d, b);
    assert Edge(rows - gone, a, d);
  }

  /** When operations only depend on ones issued before them, there is no cycle. */
  ghost predicate Ranked(rows: map<OpId, Op>, rank: map<OpId, nat>) {
    forall id | id in rows ::
      id in rank && forall d | d in rows[id].deps :: d in rank && rank[d] < rank[id]
  }

  lemma {:induction false} RankDecreases(rows: map<OpId, Op>, rank: map<OpId, nat>, path: seq<OpId>)
    requires Ranked(rows, rank) && IsPath(rows, path)
    ensures rank[path[|path| - 1]] <= rank[path[0]]
    decreases |path|
  {
    if |path| > 1 {
      PathTail(rows, path);
      assert Edge(rows, path[0], path[1]);
      RankDecreases(rows, rank, path[1..]);
    }
  }

  lemma RankedIsAcyclic(rows: map<OpId, Op>, rank: map<OpId, nat>)
    requires Ranked(rows, rank)
    ensures !Cyclic(rows)
  {
    forall a | DependsOn(rows, a, a)
      ensures false
    {
      var d :| Edge(rows, a, d) && Reaches(rows, d, a);
      var path :| IsPath(rows, path) && path[0] == d && path[|path| - 1] == a;
      RankDecreases(rows, rank, path);
    }
  }
}
