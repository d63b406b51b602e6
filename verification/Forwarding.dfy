/**
  Hop-by-hop forwarding (SimulationEngine::getNextHop, PacketUtils): every node consults its own table,
  and each table comes from a search of its own.
 */
module Forwarding {
  import opened PathAlgebra
  import opened Wires
  import opened Dijkstra
  import opened RoutingTable

  type Tables = seq<seq<Route>>

  /** Every node has a right table for its own root. */
  ghost predicate RightTables(net: Network, m: Metric, tables: Tables)
  {
    && WellFormed(net) && |tables| == |net|
    && forall u: nat :: u < |net| ==> RightTable(net, m, u, tables[u])
  }

  /** The tables one search for every node leads to, with the trees of the searches. */
  ghost predicate BuiltFrom(net: Network, m: Metric, tables: Tables, trees: seq<Tree>)
  {
    && WellFormed(net) && |tables| == |trees| == |net|
    && forall u: nat :: u < |net| ==> BuiltTable(net, m, u, tables[u], trees[u])
  }

  ghost predicate BuiltTables(net: Network, m: Metric, tables: Tables)
  {
    exists trees: seq<Tree> :: BuiltFrom(net, m, tables, trees)
  }

  method RebuildRoutingTables(net: Network, m: Metric) returns (tables: Tables)
    requires WellFormed(net)
    ensures BuiltTables(net, m, tables) && RightTables(net, m, tables)
  {
    tables := [];
    ghost var trees: seq<Tree> := [];
    for u := 0 to |net|
      invariant |tables| == |trees| == u
      invariant forall i: nat :: i < u ==> BuiltTable(net, m, i, tables[i], trees[i])
    {
      var table, t := BuildRoutingTable(net, u, m);
      tables, trees := tables + [table], trees + [t];
    }
    assert BuiltFrom(net, m, tables, trees);
  }

  /** -1 for any node that does not exist. */
  function GetNextHop(tables: Tables, current: int, destination: int): int
  {
    if current < 0 || current >= |tables| then -1
    else if destination < 0 || destination >= |tables[current]| then -1
    else tables[current][destination].nextHop
  }

  /** The first up link of the node that leads to next, as sendPacketThroughTopology picks it. */
  method SelectLink(links: seq<Edge>, node: nat, next: int) returns (selected: int)
    ensures selected == -1 <==> forall i :: 0 <= i < |links| && links[i].up ==> Other(links[i].wire, node) != next
    ensures selected != -1 ==> 0 <= selected < |links| && links[selected].up && Other(links[selected].wire, node) == next
    ensures forall i :: 0 <= i < selected && links[i].up ==> Other(links[i].wire, node) != next
  {
    selected := 0;
    while selected < |links|
      invariant 0 <= selected <= |links|
      invariant forall i :: 0 <= i < selected && links[i].up ==> Other(links[i].wire, node) != next
    {
      if links[selected].up && Other(links[selected].wire, node) == next { return; }
      selected := selected + 1;
    }
    selected := -1;
  }

  /** A packet somewhere other than its destination is dropped for want of a route exactly when there is none. */
  lemma ForwardedIffReachable(net: Network, m: Metric, tables: Tables, u: nat, d: nat)
    requires RightTables(net, m, tables) && u < |net| && d < |net| && u != d
    ensures GetNextHop(tables, u, d) != -1 <==> Reachable(net, u, d)
    ensures GetNextHop(tables, u, d) != -1 ==>
              exists i :: 0 <= i < |net[u]| && net[u][i].up && Other(net[u][i].wire, u) == GetNextHop(tables, u, d)
  {
    assert RightTable(net, m, u, tables[u]);
    assert RightRoute(net, m, u, d, tables[u][d]);
    if GetNextHop(tables, u, d) != -1 {
      var walk: seq<Hop> :| StartsWith(net, m, u, tables[u][d].nextHop, d, tables[u][d].distance, walk);
      var i :| 0 <= i < |net[u]| && net[u][i] == walk[0].link;
      assert net[u][i].up;
    }
  }

  // ---- hops get closer ----

  /** A cost that adds up, with no free links. */
  ghost predicate PositiveSums(net: Network, m: Metric)
  {
    && !Maximised(m)
    && forall u, i :: 0 <= u < |net| && 0 <= i < |net[u]| && net[u][i].up ==> Less(Fin(0.0), LinkCost(m, net[u][i]))
  }

  function DistanceTo(tables: Tables, u: nat, d: nat): Cost
    requires u < |tables| && d < |tables[u]|
  {
    tables[u][d].distance
  }

  /** Sums: the cost of a continued walk is what was spent plus the cost of the rest. */
  lemma {:induction false} SumsSplit(m: Metric, start: Cost, walk: seq<Hop>)
    requires !Maximised(m)
    ensures CostFrom(m, start, walk) == Plus(start, WalkCost(m, walk))
  {
    if walk != [] {
      SumsSplit(m, start, walk[..|walk| - 1]);
    }
  }

  lemma {:induction false} FirstHopOff(net: Network, src: nat, walk: seq<Hop>, d: int, v: int)
    requires walk != [] && IsWalk(net, src, walk, d)
    requires v == Other(walk[0].link.wire, src) && v >= 0
    ensures walk[0].from == src && IsWalk(net, v, walk[1..], d)
  {
    var last := |walk| - 1;
    if last == 0 {
      assert walk[..0] == [] && walk[1..] == [];
    } else {
      FirstHopOff(net, src, walk[..last], walk[last].from, v);
      assert walk[1..][..last - 1] == walk[..last][1..] && walk[1..][last - 1] == walk[last];
    }
  }

  /** A best walk from u costs its first, positive link and then a walk from the next node. */
  lemma FirstHopSpent(net: Network, m: Metric, u: nat, v: nat, d: nat, far: Cost, walk: seq<Hop>)
    requires WellFormed(net) && PositiveSums(net, m) && StartsWith(net, m, u, v, d, far, walk)
    ensures
      var rest, edge := walk[1..], LinkCost(m, walk[0].link);
      && IsWalk(net, v, rest, d) && WalkCost(m, rest).Fin? && edge.Fin? && Less(Fin(0.0), edge)
      && far == Plus(Plus(Fin(0.0), edge), WalkCost(m, rest))
  {
    var rest, edge := walk[1..], LinkCost(m, walk[0].link);
    FirstHopOff(net, u, walk, d, v);
    WalkPrepends(net, m, walk[0], v, rest, d, Best(m));
    assert walk == [walk[0]] + rest;
    SumsSplit(m, Combine(m, Best(m), edge), rest);
    WalkBeatsWorst(net, m, v, rest, d);
    var i :| 0 <= i < |net[u]| && net[u][i] == walk[0].link;
    assert net[u][i].up;
    LinkCostNonNegative(m, net[u][i]);
  }

  /**
    The next hop is strictly closer, by the next hop's own table, although that table was built by another
    search from another root.
   */
  lemma HopsGetCloser(net: Network, m: Metric, tables: Tables, u: nat, d: nat)
    requires RightTables(net, m, tables) && PositiveSums(net, m) && u < |net| && d < |net| && u != d
    requires Reachable(net, u, d)
    ensures
      var v := GetNextHop(tables, u, d);
      && 0 <= v < |net| && Reachable(net, v, d)
      && Less(DistanceTo(tables, v, d), DistanceTo(tables, u, d))
  {
    ForwardedIffReachable(net, m, tables, u, d);
    var v, far := GetNextHop(tables, u, d), DistanceTo(tables, u, d);
    assert RightRoute(net, m, u, d, tables[u][d]);
    var walk: seq<Hop> :| StartsWith(net, m, u, v, d, far, walk);
    StartLandsInside(net, m, u, v, d, far);
    FirstHopSpent(net, m, u, v, d, far, walk);
    var near := Distances(tables[v])[d];
    assert Unbeaten(net, m, v, d, near);
    assert near == DistanceTo(tables, v, d);
    AddedUp(LinkCost(m, walk[0].link), WalkCost(m, walk[1..]), near, far);
  }

  lemma AddedUp(edge: Cost, rest: Cost, near: Cost, far: Cost)
    requires Less(Fin(0.0), edge) && edge.Fin? && rest.Fin? && far == Plus(Plus(Fin(0.0), edge), rest)
    requires !Less(rest, near)
    ensures Less(near, far)
  {
  }

  // ---- arrival ----

  /** Where a packet for d is after k hops; it stays put once it has arrived or has no route. */
  function Follow(tables: Tables, u: int, d: int, k: nat): int
    decreases k
  {
    if k == 0 || u == d || GetNextHop(tables, u, d) == -1 then u
    else Follow(tables, GetNextHop(tables, u, d), d, k - 1)
  }

  /** The k-th node hop-by-hop forwarding leads to, the destination left out of account; -1 if there is none. */
  function Stop(tables: Tables, u: int, d: int, k: nat): int
  {
    if k == 0 then u else GetNextHop(tables, Stop(tables, u, d, k - 1), d)
  }

  /** The nodes whose own tables put them closer to d than u. */
  ghost function Closer(tables: Tables, u: nat, d: nat): set<nat>
    requires u < |tables| && forall x :: 0 <= x < |tables| ==> d < |tables[x]|
  {
    set x: nat | x < |tables| && Less(DistanceTo(tables, x, d), DistanceTo(tables, u, d))
  }

  lemma {:induction false} ArrivesInside(net: Network, m: Metric, tables: Tables, u: nat, d: nat)
    requires RightTables(net, m, tables) && PositiveSums(net, m) && u < |net| && d < |net|
    requires Reachable(net, u, d)
    ensures forall x :: 0 <= x < |tables| ==> |tables[x]| == |net|
    ensures exists k: nat :: k <= |Closer(tables, u, d)| && Follow(tables, u, d, k) == d
    decreases |Closer(tables, u, d)|
  {
    assert forall x: nat :: x < |net| ==> RightTable(net, m, x, tables[x]);
    if u == d {
      assert Follow(tables, u, d, 0) == d;
    } else {
      HopsGetCloser(net, m, tables, u, d);
      var v: nat := GetNextHop(tables, u, d);
      var near, here := Closer(tables, v, d), Closer(tables, u, d);
      assert v in here && v !in near && near <= here;
      Smaller(near, here, v);
      ArrivesInside(net, m, tables, v, d);
      var k: nat :| k <= |near| && Follow(tables, v, d, k) == d;
      assert Follow(tables, u, d, k + 1) == d;
    }
  }

  lemma Smaller(a: set<nat>, b: set<nat>, x: nat)
    requires a <= b && x in b && x !in a
    ensures |a| < |b|
  {
    assert a <= b - {x};
    Contained(a, b - {x});
  }

  lemma {:induction false} Contained(a: set<nat>, b: set<nat>)
    requires a <= b
    ensures |a| <= |b|
  {
    if a != {} {
      var x :| x in a;
      Contained(a - {x}, b - {x});
    }
  }

  /**
    With positive costs any right tables will do, whatever ties they break how: from any node that can reach d,
    following them gets there in at most n - 1 hops.
   */
  lemma ForwardingArrives(net: Network, m: Metric, tables: Tables, u: nat, d: nat)
    requires RightTables(net, m, tables) && PositiveSums(net, m) && u < |net| && d < |net|
    requires Reachable(net, u, d)
    ensures exists k: nat :: k <= |net| - 1 && Follow(tables, u, d, k) == d
  {
    ArrivesInside(net, m, tables, u, d);
    var near := Closer(tables, u, d);
    Crowd(near + {u}, |net|);
    assert |near + {u}| == |near| + 1;
  }

  /** How many hops a packet for d makes from u before it stops, if it does within so many. */
  function Hops(tables: Tables, u: int, d: int, within: nat): (h: nat)
    ensures h <= within
    decreases within
  {
    if within == 0 || u == d || GetNextHop(tables, u, d) == -1 then 0
    else 1 + Hops(tables, GetNextHop(tables, u, d), d, within - 1)
  }

  lemma {:induction false} HopsOfArrival(tables: Tables, u: int, d: int, k: nat, within: nat)
    requires Follow(tables, u, d, k) == d && k <= within
    ensures Hops(tables, u, d, within) == Hops(tables, u, d, k)
    decreases k
  {
    if !(k == 0 || u == d || GetNextHop(tables, u, d) == -1) {
      HopsOfArrival(tables, GetNextHop(tables, u, d), d, k - 1, within - 1);
    }
  }

  /** A hop leaves one hop less to go. */
  lemma HopCounted(tables: Tables, u: int, d: int, k: nat, within: nat)
    requires Follow(tables, u, d, k) == d && k < within && u != d && GetNextHop(tables, u, d) != -1
    ensures Hops(tables, GetNextHop(tables, u, d), d, within) < Hops(tables, u, d, within) < within
  {
    HopsOfArrival(tables, u, d, k, within);
    HopsOfArrival(tables, GetNextHop(tables, u, d), d, k - 1, within);
  }

  /** Without a route the packet never moves: it is lost where it is. */
  lemma StrandedStays(net: Network, m: Metric, tables: Tables, u: nat, d: nat, k: nat)
    requires RightTables(net, m, tables) && u < |net| && d < |net| && !Reachable(net, u, d)
    ensures Follow(tables, u, d, k) == u && u != d
  {
    if u == d {
      var walk: seq<Hop> := [];
      assert IsWalk(net, u, walk, d);
    } else {
      ForwardedIffReachable(net, m, tables, u, d);
    }
  }
}
