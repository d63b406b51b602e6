/**
  What the four metrics mean on a whole path, in plain numbers: total delay, narrowest bandwidth, number of links, and
  total of delay over bandwidth. The rows of a table say which path is best in those terms.
 */
module RouteMeaning {
  import opened Wires
  import opened PathAlgebra
  import opened Dijkstra
  import opened RoutingTable

  function WireAt(walk: seq<Hop>, i: nat): Wire
    requires i < |walk|
  {
    walk[i].link.wire
  }

  /** Sum of a quantity of each link of a walk. */
  function Total(walk: seq<Hop>, quantity: Wire -> real): real
  {
    if walk == [] then 0.0 else Total(walk[..|walk| - 1], quantity) + quantity(WireAt(walk, |walk| - 1))
  }

  function DelayOf(w: Wire): real { w.delay }

  /** The wire's bandwidth is never zero, so this is a number. */
  function DelayPerBandwidth(w: Wire): real { w.delay / w.bandwidth }

  lemma {:induction false} DelayIsTotal(walk: seq<Hop>)
    ensures WalkCost(Delay, walk) == Fin(Total(walk, DelayOf))
  {
    if walk != [] { DelayIsTotal(walk[..|walk| - 1]); }
  }

  lemma {:induction false} DelayBandwidthIsTotal(walk: seq<Hop>)
    ensures WalkCost(DelayBandwidth, walk) == Fin(Total(walk, DelayPerBandwidth))
  {
    if walk != [] { DelayBandwidthIsTotal(walk[..|walk| - 1]); }
  }

  /** The number to be kept small under the other metrics. */
  function Length(m: Metric, walk: seq<Hop>): real
    requires !m.Bandwidth?
  {
    match m
    case Delay => Total(walk, DelayOf)
    case HopCount => |walk| as real
    case DelayBandwidth => Total(walk, DelayPerBandwidth)
  }

  lemma CostIsLength(m: Metric, walk: seq<Hop>)
    requires !m.Bandwidth?
    ensures WalkCost(m, walk) == Fin(Length(m, walk))
  {
    match m
    case Delay => DelayIsTotal(walk);
    case HopCount => HopCountIsLength(walk);
    case DelayBandwidth => DelayBandwidthIsTotal(walk);
  }

  /** Every link of a walk carries at least so much. */
  predicate Carries(walk: seq<Hop>, bandwidth: real)
  {
    forall i :: 0 <= i < |walk| ==> WireAt(walk, i).bandwidth >= bandwidth
  }

  /** A walk over the next hop of a row: empty for the source itself, which has none. */
  predicate Follows(net: Network, src: nat, d: nat, next: int, walk: seq<Hop>)
  {
    && IsWalk(net, src, walk, d)
    && if next == -1 then walk == [] && d == src
       else walk != [] && walk[0].from == src && Usable(net, walk[0]) && Other(WireAt(walk, 0), src) == next
  }

  /** A best walk behind a row, if there is any walk. */
  lemma BestWalk(net: Network, m: Metric, src: nat, table: seq<Route>, d: nat) returns (walk: seq<Hop>)
    requires RightTable(net, m, src, table) && src < |net| && d < |net| && Reachable(net, src, d)
    ensures Follows(net, src, d, table[d].nextHop, walk) && WalkCost(m, walk) == table[d].distance
  {
    assert RightRoute(net, m, src, d, table[d]);
    if d == src {
      walk := [];
      assert Distances(table)[src] == table[src].distance;
    } else {
      walk :| StartsWith(net, m, src, table[d].nextHop, d, table[d].distance, walk);
    }
  }

  /**
    Main result: in a table for delay, hop count or delay over bandwidth the distance of a node some walk reaches is
    the length of a walk over the row's next hop, and no walk at all is shorter; for the others it is infinite.
   */
  lemma TableIsShortest(net: Network, m: Metric, src: nat, table: seq<Route>, d: nat)
    requires RightTable(net, m, src, table) && src < |net| && d < |net| && !m.Bandwidth?
    ensures Reachable(net, src, d) <==> table[d].distance.Fin?
    ensures Reachable(net, src, d) ==> exists walk :: Follows(net, src, d, table[d].nextHop, walk) && Length(m, walk) == table[d].distance.value
    ensures forall walk :: IsWalk(net, src, walk, d) ==> table[d].distance.value <= Length(m, walk)
  {
    assert Distances(table)[d] == table[d].distance;
    if Reachable(net, src, d) {
      var best := BestWalk(net, m, src, table, d);
      CostIsLength(m, best);
      forall walk | IsWalk(net, src, walk, d) ensures table[d].distance.value <= Length(m, walk) {
        CostIsLength(m, walk);
        assert !Better(m, WalkCost(m, walk), Distances(table)[d]);
      }
    }
  }

  /**
    Main result: in a table for bandwidth the distance of another node that some walk reaches is a bandwidth that a walk
    over the row's next hop carries on every link, and every walk has a link that carries no more; for the rest it is 0.
   */
  lemma TableIsWidest(net: Network, src: nat, table: seq<Route>, d: nat)
    requires WellFormed(net) && RightTable(net, Bandwidth, src, table) && src < |net| && d < |net| && d != src
    ensures table[d].distance.Fin? && (Reachable(net, src, d) <==> table[d].distance.value > 0.0)
    ensures Reachable(net, src, d) ==>
      exists walk :: Follows(net, src, d, table[d].nextHop, walk) && Carries(walk, table[d].distance.value)
    ensures forall walk :: IsWalk(net, src, walk, d) ==>
      exists i :: 0 <= i < |walk| && WireAt(walk, i).bandwidth <= table[d].distance.value
  {
    assert Distances(table)[d] == table[d].distance;
    if Reachable(net, src, d) {
      var best := BestWalk(net, Bandwidth, src, table, d);
      BandwidthIsNarrowest(best);
      var n :| 0 <= n < |best| && WalkCost(Bandwidth, best) == Fin(best[n].link.wire.bandwidth);
      assert Carries(best, table[d].distance.value);
      forall walk: seq<Hop> | IsWalk(net, src, walk, d)
        ensures exists i :: 0 <= i < |walk| && WireAt(walk, i).bandwidth <= table[d].distance.value
      {
        BandwidthIsNarrowest(walk);
        assert !Better(Bandwidth, WalkCost(Bandwidth, walk), Distances(table)[d]);
        var i :| 0 <= i < |walk| && WalkCost(Bandwidth, walk) == Fin(walk[i].link.wire.bandwidth);
        assert WireAt(walk, i).bandwidth <= table[d].distance.value;
      }
    }
  }
}
