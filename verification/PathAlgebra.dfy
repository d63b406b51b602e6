/**
  The path costs behind the routing metrics (Routing.cpp): sums to be minimised, and bottleneck
  bandwidths to be maximised. Everything the shortest-path search relies on is one of the laws below.
 */
module PathAlgebra {
  import opened Wires

  datatype Metric = Delay | Bandwidth | HopCount | DelayBandwidth

  /** A double used as a path cost: finite, or positive infinity. */
  datatype Cost = Fin(value: real) | Infinity

  /** A link as the search sees it. */
  datatype Edge = Edge(wire: Wire, up: bool)

  predicate Maximised(m: Metric) { m.Bandwidth? }

  predicate Less(x: Cost, y: Cost)
  {
    match (x, y)
    case (Fin(p), Fin(q)) => p < q
    case (Fin(_), Infinity) => true
    case (Infinity, _) => false
  }

  /** Is the candidate strictly better than the current value? */
  predicate Better(m: Metric, candidate: Cost, current: Cost)
  {
    if Maximised(m) then Less(current, candidate) else Less(candidate, current)
  }

  function Worst(m: Metric): Cost { if Maximised(m) then Fin(0.0) else Infinity }

  function Best(m: Metric): Cost { if Maximised(m) then Infinity else Fin(0.0) }

  function LinkCost(m: Metric, e: Edge): Cost
  {
    match m
    case Delay => Fin(e.wire.delay)
    case Bandwidth => Fin(e.wire.bandwidth)
    case HopCount => Fin(1.0)
    case DelayBandwidth => if e.wire.bandwidth > 0.0 then Fin(e.wire.delay / e.wire.bandwidth) else Infinity
  }

  function Plus(x: Cost, y: Cost): Cost
  {
    if x.Fin? && y.Fin? then Fin(x.value + y.value) else Infinity
  }

  function Combine(m: Metric, path: Cost, edge: Cost): Cost
  {
    if Maximised(m) then (if Less(edge, path) then edge else path) else Plus(path, edge)
  }

  predicate NonNegative(x: Cost) { x.Fin? ==> x.value >= 0.0 }

  lemma LinkCostNonNegative(m: Metric, e: Edge)
    ensures NonNegative(LinkCost(m, e))
    ensures !Maximised(m) ==> LinkCost(m, e).Fin?
    ensures Maximised(m) ==> Better(m, LinkCost(m, e), Worst(m))
  {
    if m.DelayBandwidth? { QuotientSign(e.wire.delay, e.wire.bandwidth); }
  }

  lemma QuotientSign(x: real, y: real)
    requires x >= 0.0 && y > 0.0
    ensures x / y >= 0.0
    ensures x > 0.0 ==> x / y > 0.0
  {
    var q := x / y;
    assert q * y == x;
    if q < 0.0 { NegativeTimesPositive(q, y); }
    if q == 0.0 { assert q * y == 0.0; }
  }

  lemma NegativeTimesPositive(q: real, y: real)
    requires q < 0.0 && y > 0.0
    ensures q * y < 0.0
  {
  }

  // ---- the laws ----

  lemma BetterIsStrictOrder(m: Metric, x: Cost, y: Cost, z: Cost)
    ensures !Better(m, x, x)
    ensures Better(m, x, y) && !Better(m, z, y) ==> Better(m, x, z)
    ensures !Better(m, x, y) && !Better(m, y, z) ==> !Better(m, x, z)
    ensures !Better(m, x, y) && !Better(m, y, x) ==> x == y
  {
  }

  /** Going further never improves a path. */
  lemma CombineExtends(m: Metric, path: Cost, edge: Cost)
    requires NonNegative(edge)
    ensures !Better(m, Combine(m, path, edge), path)
    ensures NonNegative(path) ==> NonNegative(Combine(m, path, edge))
  {
  }

  /** A path that is no better stays no better over the same edge. */
  lemma CombineMonotone(m: Metric, p: Cost, q: Cost, edge: Cost)
    requires !Better(m, p, q)
    ensures !Better(m, Combine(m, p, edge), Combine(m, q, edge))
  {
  }

  lemma WorstIsWorst(m: Metric, x: Cost)
    requires NonNegative(x)
    ensures !Better(m, Worst(m), x)
    ensures !Better(m, x, Best(m))
    ensures x != Worst(m) ==> Better(m, x, Worst(m))
    ensures NonNegative(Worst(m)) && NonNegative(Best(m)) && Better(m, Best(m), Worst(m))
  {
  }
}
