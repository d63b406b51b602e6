/**
  Next hops read off the parent tree (Routing::buildRoutingTable).
 */
module RoutingTable {
  import opened PathAlgebra
  import opened Wires
  import opened Dijkstra

  /** The search's tree: every node's parent, and the order in which the nodes were settled. */
  datatype Tree = Tree(parent: seq<int>, rank: seq<nat>)

  /** Going to the parent goes to a node settled earlier. */
  predicate Climbs(t: Tree)
  {
    && |t.parent| == |t.rank|
    && forall v :: 0 <= v < |t.parent| && t.parent[v] >= 0 ==> t.parent[v] < |t.parent| && t.rank[t.parent[v]] < t.rank[v]
  }

  /** The way down the tree to a node. */
  function TreePath(t: Tree, v: nat): (path: seq<nat>)
    requires Climbs(t) && v < |t.parent|
    ensures path != [] && path[|path| - 1] == v
    ensures forall i :: 0 <= i < |path| ==> path[i] < |t.parent|
    decreases t.rank[v]
  {
    if t.parent[v] < 0 then [v] else TreePath(t, t.parent[v]) + [v]
  }

  datatype Route = Route(destination: nat, nextHop: int, distance: Cost)

  function Distances(table: seq<Route>): seq<Cost> { seq(|table|, i requires 0 <= i < |table| => table[i].distance) }

  ghost predicate Reachable(net: Network, u: nat, d: nat)
  {
    exists walk :: IsWalk(net, u, walk, d)
  }

  /** Does some best walk from src to d leave over a link to next? */
  ghost predicate StartsBestWalk(net: Network, m: Metric, src: nat, next: int, d: nat, distance: Cost)
  {
    exists walk :: StartsWith(net, m, src, next, d, distance, walk)
  }

  ghost predicate StartsWith(net: Network, m: Metric, src: nat, next: int, d: nat, distance: Cost, walk: seq<Hop>)
  {
    && IsWalk(net, src, walk, d) && WalkCost(m, walk) == distance
    && walk != [] && walk[0].from == src && Usable(net, walk[0]) && Other(walk[0].link.wire, src) == next
  }

  /** What a row for destination d must say. */
  ghost predicate RightRoute(net: Network, m: Metric, src: nat, d: nat, r: Route)
  {
    && r.destination == d
    && (r.nextHop == -1 <==> d == src || !Reachable(net, src, d))
    && (r.nextHop != -1 ==> StartsBestWalk(net, m, src, r.nextHop, d, r.distance))
  }

  ghost predicate RightTable(net: Network, m: Metric, src: nat, table: seq<Route>)
  {
    && |table| == |net| && Optimal(net, m, src, Distances(table))
    && (src < |net| ==> Distances(table)[src] == Best(m))
    && forall d: nat :: d < |table| ==> RightRoute(net, m, src, d, table[d])
  }

  /** A right table whose next hops are the first steps down the tree of one search. */
  ghost predicate BuiltTable(net: Network, m: Metric, src: nat, table: seq<Route>, t: Tree)
  {
    && RightTable(net, m, src, table) && |net| == |t.parent|
    && SearchTree(net, m, src, Distances(table), t.parent, t.rank) && Climbs(t)
    && forall d: nat :: d < |table| && table[d].nextHop != -1 ==> FirstStep(t, d, table[d].nextHop)
  }

  predicate FirstStep(t: Tree, d: nat, next: int)
    requires Climbs(t) && d < |t.parent|
  {
    |TreePath(t, d)| >= 2 && TreePath(t, d)[1] == next
  }

  lemma RootedClimbs(net: Network, m: Metric, src: nat, dist: seq<Cost>, t: Tree)
    requires Rooted(net, m, src, dist, t.parent, t.rank)
    ensures Climbs(t)
  {
    forall v | 0 <= v < |t.parent| && t.parent[v] >= 0
      ensures t.parent[v] < |t.parent| && t.rank[t.parent[v]] < t.rank[v]
    {
      assert Rung(net, m, src, dist, t.parent, t.rank, v);
    }
  }

  /** The test the code uses for "unreachable". */
  predicate Unreached(m: Metric, distance: Cost)
  {
    if Maximised(m) then distance.Fin? && distance.value <= 0.0 else distance == Infinity
  }

  /** The code's test is exact: it singles out the nodes no walk reaches. */
  lemma UnreachedIffNoWalk(net: Network, m: Metric, src: nat, dist: seq<Cost>, d: nat)
    requires WellFormed(net) && Optimal(net, m, src, dist) && d < |net| && NonNegative(dist[d])
    ensures Unreached(m, dist[d]) <==> !Reachable(net, src, d)
    ensures Unreached(m, dist[d]) <==> dist[d] == Worst(m)
  {
    if walk :| IsWalk(net, src, walk, d) {
      WalkBeatsWorst(net, m, src, walk, d);
    }
  }

  /** A walk continued from a path of a given cost, with a hop put in front. */
  lemma {:induction false} WalkPrepends(net: Network, m: Metric, h: Hop, v: nat, walk: seq<Hop>, d: int, start: Cost)
    requires Usable(net, h) && Other(h.link.wire, h.from) == v && IsWalk(net, v, walk, d)
    ensures IsWalk(net, h.from, [h] + walk, d)
    ensures CostFrom(m, start, [h] + walk) == CostFrom(m, Combine(m, start, LinkCost(m, h.link)), walk)
  {
    var whole := [h] + walk;
    if walk == [] {
      assert whole[..0] == [] && whole[0] == h;
      assert IsWalk(net, h.from, whole[..0], h.from);
    } else {
      var last := |walk| - 1;
      assert whole[..last + 1] == [h] + walk[..last] && whole[last + 1] == walk[last];
      WalkPrepends(net, m, h, v, walk[..last], walk[last].from, start);
    }
  }

  /** The chain of parents from d has been followed back to current. */
  ghost predicate Traced(net: Network, m: Metric, dist: seq<Cost>, current: nat, d: nat, walk: seq<Hop>)
  {
    current < |dist| && d < |dist| && IsWalk(net, current, walk, d) && CostFrom(m, dist[current], walk) == dist[d]
  }

  lemma TraceBack(net: Network, m: Metric, dist: seq<Cost>, p: nat, current: nat, d: nat, walk: seq<Hop>)
    returns (longer: seq<Hop>)
    requires |net| == |dist| && p < |net| && Traced(net, m, dist, current, d, walk) && Tight(net, m, dist, p, current)
    ensures longer != [] && longer[0].from == p && Usable(net, longer[0]) && Other(longer[0].link.wire, p) == current
    ensures Traced(net, m, dist, p, d, longer)
  {
    var i :| 0 <= i < |net[p]| && net[p][i].up && Other(net[p][i].wire, p) == current
      && dist[current] == Combine(m, dist[p], LinkCost(m, net[p][i]));
    var h := Hop(p, net[p][i]);
    WalkPrepends(net, m, h, current, walk, d, dist[p]);
    longer := [h] + walk;
  }

  /** The walk up the parents; its "no parent" fallback is never taken for a reachable destination. */
  method NextHop(net: Network, m: Metric, src: nat, dist: seq<Cost>, parent: seq<int>, ghost rank: seq<nat>, d: nat)
    returns (current: int)
    requires WellFormed(net) && src < |net| && Rooted(net, m, src, dist, parent, rank)
    requires d < |net| && d != src && dist[d] != Worst(m) && dist[src] == Best(m)
    ensures StartsBestWalk(net, m, src, current, d, dist[d])
    ensures Climbs(Tree(parent, rank)) && FirstStep(Tree(parent, rank), d, current)
  {
    ghost var t := Tree(parent, rank);
    RootedClimbs(net, m, src, dist, t);
    current := d;
    ghost var walk: seq<Hop> := [];
    while parent[current] != src
      invariant 0 <= current < |net| && current != src && dist[current] != Worst(m)
      invariant TreePath(t, current) <= TreePath(t, d)
      invariant Traced(net, m, dist, current, d, walk)
      decreases rank[current]
    {
      assert Rung(net, m, src, dist, parent, rank, current);
      walk := TraceBack(net, m, dist, parent[current], current, d, walk);
      current := parent[current];
      if current == -1 { assert false; }
    }
    assert Rung(net, m, src, dist, parent, rank, current) && Rung(net, m, src, dist, parent, rank, src);
    assert TreePath(t, current) == [src, current];
    walk := TraceBack(net, m, dist, src, current, d, walk);
    assert StartsWith(net, m, src, current, d, dist[d], walk);
  }

  lemma StartLandsInside(net: Network, m: Metric, src: nat, next: int, d: nat, distance: Cost)
    requires WellFormed(net) && StartsBestWalk(net, m, src, next, d, distance)
    ensures 0 <= next < |net| && next != src && Reachable(net, src, d)
  {
    var walk: seq<Hop> :| StartsWith(net, m, src, next, d, distance, walk);
    UsableHop(net, m, walk[0]);
  }

  method BuildRoutingTable(net: Network, src: nat, m: Metric) returns (table: seq<Route>, ghost t: Tree)
    requires WellFormed(net) && src < |net|
    ensures BuiltTable(net, m, src, table, t)
  {
    var dist, parent := BuildDijkstra(net, src, m);
    ghost var rank :| SearchTree(net, m, src, dist, parent, rank);
    t := Tree(parent, rank);
    RootedClimbs(net, m, src, dist, t);
    table := [];
    for d := 0 to |net|
      invariant |table| == d
      invariant forall i: nat :: i < d && table[i].nextHop != -1 ==> FirstStep(t, i, table[i].nextHop)
      invariant forall i: nat :: i < d ==> table[i].distance == dist[i] && RightRoute(net, m, src, i, table[i])
    {
      UnreachedIffNoWalk(net, m, src, dist, d);
      if d == src || Unreached(m, dist[d]) {
        table := table + [Route(d, -1, dist[d])];
      } else {
        var next := NextHop(net, m, src, dist, parent, rank, d);
        StartLandsInside(net, m, src, next, d, dist[d]);
        table := table + [Route(d, next, dist[d])];
      }
    }
    assert Distances(table) == dist;
  }
}
