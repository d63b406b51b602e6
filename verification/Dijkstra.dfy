/**
  Single-source best paths with a lazy-deletion heap (Routing::buildDijkstra), once for all metrics.
 */
module Dijkstra {
  import opened PathAlgebra
  import opened Wires

  /** For every node, its links in insertion order (Topology::getLinksFromNode). */
  type Network = seq<seq<Edge>>

  predicate WellFormed(net: Network)
  {
    forall u, i :: 0 <= u < |net| && 0 <= i < |net[u]| ==>
      net[u][i].wire.a < |net| && net[u][i].wire.b < |net| && Touches(net[u][i].wire, u)
  }

  datatype Hop = Hop(from: nat, link: Edge)

  /** Can the hop be taken: an up link at its node? */
  predicate Usable(net: Network, h: Hop)
  {
    h.from < |net| && h.link in net[h.from] && h.link.up
  }

  predicate IsWalk(net: Network, src: nat, walk: seq<Hop>, dst: int)
  {
    if walk == [] then dst == src
    else
      var last := walk[|walk| - 1];
      Usable(net, last) && Other(last.link.wire, last.from) == dst && IsWalk(net, src, walk[..|walk| - 1], last.from)
  }

  /** The cost of a walk continued from a path of the given cost. */
  function CostFrom(m: Metric, start: Cost, walk: seq<Hop>): Cost
  {
    if walk == [] then start
    else Combine(m, CostFrom(m, start, walk[..|walk| - 1]), LinkCost(m, walk[|walk| - 1].link))
  }

  function WalkCost(m: Metric, walk: seq<Hop>): Cost { CostFrom(m, Best(m), walk) }

  ghost predicate Attained(net: Network, m: Metric, src: nat, dst: nat, c: Cost)
  {
    exists walk :: IsWalk(net, src, walk, dst) && WalkCost(m, walk) == c
  }

  ghost predicate Unbeaten(net: Network, m: Metric, src: nat, dst: nat, c: Cost)
  {
    forall walk :: IsWalk(net, src, walk, dst) ==> !Better(m, WalkCost(m, walk), c)
  }

  // ---- the heap ----

  datatype Entry = Entry(key: Cost, node: nat)

  /** std::pair order on (encoded key, node): the better key first, then the smaller node. */
  predicate Before(m: Metric, x: Entry, y: Entry)
  {
    Better(m, x.key, y.key) || (x.key == y.key && x.node <= y.node)
  }

  predicate HeapOrdered(m: Metric, pq: seq<Entry>)
  {
    forall i, j :: 0 <= i < j < |pq| ==> Before(m, pq[i], pq[j])
  }

  lemma BeforeIsTotalOrder(m: Metric, x: Entry, y: Entry, z: Entry)
    ensures Before(m, x, y) || Before(m, y, x)
    ensures Before(m, x, y) && Before(m, y, z) ==> Before(m, x, z)
  {
    BetterIsStrictOrder(m, x.key, y.key, z.key);
    BetterIsStrictOrder(m, z.key, y.key, x.key);
  }

  /** Strictly ahead in the heap. */
  predicate Sooner(m: Metric, x: Entry, y: Entry)
  {
    Better(m, x.key, y.key) || (x.key == y.key && x.node < y.node)
  }

  /** The priority queue as the sorted list of its contents. */
  function Pushed(m: Metric, pq: seq<Entry>, e: Entry): (r: seq<Entry>)
    ensures |r| == |pq| + 1
    ensures forall x :: x in r <==> x == e || x in pq
  {
    if pq == [] || Before(m, e, pq[0]) then [e] + pq
    else
      var rest := Pushed(m, pq[1..], e);
      assert pq == [pq[0]] + pq[1..];
      [pq[0]] + rest
  }

  lemma {:induction false} PushedOrdered(m: Metric, pq: seq<Entry>, e: Entry)
    requires HeapOrdered(m, pq)
    ensures HeapOrdered(m, Pushed(m, pq, e))
  {
    if pq == [] || Before(m, e, pq[0]) {
      var r := Pushed(m, pq, e);
      forall j | 0 < j < |r| ensures Before(m, r[0], r[j]) {
        assert r[j] == pq[j - 1];
        if j > 1 { BeforeIsTotalOrder(m, e, pq[0], r[j]); }
      }
      assert forall i :: 0 < i < |r| ==> r[i] == pq[i - 1];
    } else {
      PushedOrdered(m, pq[1..], e);
      var rest, r := Pushed(m, pq[1..], e), Pushed(m, pq, e);
      forall j | 0 < j < |r| ensures Before(m, r[0], r[j]) {
        assert r[j] == rest[j - 1] && rest[j - 1] in rest;
        assert r[j] == e || r[j] in pq[1..];
        BeforeIsTotalOrder(m, e, pq[0], e);
      }
      assert forall i :: 0 < i < |r| ==> r[i] == rest[i - 1];
    }
  }

  // ---- walks ----

  /** Extending a walk by one usable hop. */
  lemma WalkExtends(net: Network, m: Metric, src: nat, walk: seq<Hop>, h: Hop)
    requires IsWalk(net, src, walk, h.from) && Usable(net, h)
    ensures IsWalk(net, src, walk + [h], Other(h.link.wire, h.from))
    ensures WalkCost(m, walk + [h]) == Combine(m, WalkCost(m, walk), LinkCost(m, h.link))
  {
    assert (walk + [h])[..|walk|] == walk;
  }

  lemma UsableHop(net: Network, m: Metric, h: Hop)
    requires WellFormed(net) && Usable(net, h)
    ensures NonNegative(LinkCost(m, h.link))
    ensures 0 <= Other(h.link.wire, h.from) < |net| && Other(h.link.wire, h.from) != h.from
  {
    var i :| 0 <= i < |net[h.from]| && net[h.from][i] == h.link;
    LinkCostNonNegative(m, h.link);
  }

  /** Any walk at all beats "unreachable", so the worst cost really marks the unreachable nodes. */
  lemma {:induction false} WalkBeatsWorst(net: Network, m: Metric, src: nat, walk: seq<Hop>, dst: int)
    requires WellFormed(net) && IsWalk(net, src, walk, dst)
    ensures NonNegative(WalkCost(m, walk)) && Better(m, WalkCost(m, walk), Worst(m))
  {
    WorstIsWorst(m, Best(m));
    if walk != [] {
      var last := walk[|walk| - 1];
      WalkBeatsWorst(net, m, src, walk[..|walk| - 1], last.from);
      UsableHop(net, m, last);
      LinkCostNonNegative(m, last.link);
    }
  }

  /** Under the bandwidth metric a walk costs what its narrowest link carries. */
  lemma {:induction false} BandwidthIsNarrowest(walk: seq<Hop>)
    requires walk != []
    ensures forall i :: 0 <= i < |walk| ==> !Less(Fin(walk[i].link.wire.bandwidth), WalkCost(Bandwidth, walk))
    ensures exists i :: 0 <= i < |walk| && WalkCost(Bandwidth, walk) == Fin(walk[i].link.wire.bandwidth)
  {
    var last, before := |walk| - 1, walk[..|walk| - 1];
    if before == [] {
      assert WalkCost(Bandwidth, before) == Infinity;
      assert WalkCost(Bandwidth, walk) == Fin(walk[last].link.wire.bandwidth);
    } else {
      BandwidthIsNarrowest(before);
      var i :| 0 <= i < |before| && WalkCost(Bandwidth, before) == Fin(before[i].link.wire.bandwidth);
      assert before[i] == walk[i];
      forall j | 0 <= j < |walk| ensures !Less(Fin(walk[j].link.wire.bandwidth), WalkCost(Bandwidth, walk)) {
        if j < last { assert before[j] == walk[j]; }
      }
    }
  }

  /** Under the hop-count metric a walk costs its length. */
  lemma {:induction false} HopCountIsLength(walk: seq<Hop>)
    ensures WalkCost(HopCount, walk) == Fin(|walk| as real)
  {
    if walk != [] { HopCountIsLength(walk[..|walk| - 1]); }
  }

  // ---- what the search keeps ----

  predicate Shape(net: Network, m: Metric, src: nat, dist: seq<Cost>, parent: seq<int>)
  {
    && src < |net| == |dist| == |parent|
    && dist[src] == Best(m) && parent[src] == -1
    && (forall v :: 0 <= v < |dist| ==> NonNegative(dist[v]))
  }

  ghost predicate Reached(net: Network, m: Metric, src: nat, dist: seq<Cost>)
  {
    forall v :: 0 <= v < |dist| && dist[v] != Worst(m) ==> Attained(net, m, src, v, dist[v])
  }

  predicate Pending(m: Metric, dist: seq<Cost>, pq: seq<Entry>)
  {
    && HeapOrdered(m, pq)
    && forall e :: e in pq ==> e.node < |dist| && e.key != Worst(m) && !Better(m, e.key, dist[e.node])
  }

  predicate Queued(m: Metric, dist: seq<Cost>, pq: seq<Entry>, settled: set<nat>)
  {
    forall v: nat :: v < |dist| && v !in settled && dist[v] != Worst(m) ==> Entry(dist[v], v) in pq
  }

  predicate Frontier(m: Metric, dist: seq<Cost>, pq: seq<Entry>, settled: set<nat>)
  {
    && (forall s :: s in settled ==> s < |dist| && dist[s] != Worst(m))
    && forall e, s :: e in pq && s in settled ==> !Better(m, e.key, dist[s])
  }

  /** The first k links of a node offer nobody a better path. */
  predicate Relaxed(net: Network, m: Metric, dist: seq<Cost>, u: nat, k: nat)
    requires WellFormed(net) && u < |net| == |dist| && k <= |net[u]|
  {
    forall i :: 0 <= i < k && net[u][i].up ==>
      !Better(m, Combine(m, dist[u], LinkCost(m, net[u][i])), dist[Other(net[u][i].wire, u)])
  }

  /** The parent's link is up and gives exactly the child's distance. */
  predicate Tight(net: Network, m: Metric, dist: seq<Cost>, p: nat, v: nat)
    requires p < |net| == |dist| && v < |dist|
  {
    exists i :: 0 <= i < |net[p]| && net[p][i].up && Other(net[p][i].wire, p) == v
      && dist[v] == Combine(m, dist[p], LinkCost(m, net[p][i]))
  }

  predicate Branch(net: Network, m: Metric, src: nat, dist: seq<Cost>, parent: seq<int>,
                   settled: set<nat>, rank: seq<nat>, v: nat)
    requires v < |net| == |dist| == |parent| == |rank|
  {
    && (parent[v] < 0 ==> parent[v] == -1 && (v == src || dist[v] == Worst(m)))
    && (parent[v] >= 0 ==>
          && dist[v] != Worst(m)
          && parent[v] in settled && parent[v] < |net| && Tight(net, m, dist, parent[v], v)
          && (v in settled ==> rank[parent[v]] < rank[v]))
  }

  predicate Forest(net: Network, m: Metric, src: nat, dist: seq<Cost>, parent: seq<int>,
                   settled: set<nat>, rank: seq<nat>)
  {
    && |net| == |dist| == |parent| == |rank|
    && (forall s :: s in settled ==> s < |rank| && rank[s] < |settled|)
    && forall v: nat :: v < |net| ==> Branch(net, m, src, dist, parent, settled, rank, v)
  }

  /** What node s offers over its i-th link. */
  function Offer(net: Network, m: Metric, dist: seq<Cost>, s: nat, i: nat): (e: Entry)
    requires WellFormed(net) && s < |net| == |dist| && i < |net[s]|
    ensures e.node < |net|
  {
    Entry(Combine(m, dist[s], LinkCost(m, net[s][i])), Other(net[s][i].wire, s))
  }

  /** An up link of a node settled before another one. */
  ghost predicate EarlierLink(net: Network, settled: set<nat>, rank: seq<nat>, s: nat, i: nat, y: nat)
  {
    s in settled && s < |net| == |rank| && y < |rank| && rank[s] < rank[y] && i < |net[s]| && net[s][i].up
  }

  /** When y was settled, nothing offered by then to a node not yet settled was ahead of it. */
  ghost predicate ChosenRightly(net: Network, m: Metric, dist: seq<Cost>, settled: set<nat>, rank: seq<nat>, y: nat)
    requires WellFormed(net) && |net| == |dist| == |rank| && y < |net|
  {
    forall s: nat, i: nat :: EarlierLink(net, settled, rank, s, i, y) ==>
      var o := Offer(net, m, dist, s, i);
      (o.node !in settled || rank[o.node] > rank[y]) ==> Sooner(m, Entry(dist[y], y), o)
  }

  /** The parent is the first settled node to offer the distance: everything settled before it offers worse. */
  ghost predicate FirstOffered(net: Network, m: Metric, dist: seq<Cost>, parent: seq<int>, settled: set<nat>, rank: seq<nat>, v: nat)
    requires WellFormed(net) && |net| == |dist| == |parent| == |rank| && v < |net|
  {
    0 <= parent[v] < |net| ==>
      forall s: nat, i: nat :: EarlierLink(net, settled, rank, s, i, parent[v]) && Offer(net, m, dist, s, i).node == v ==>
        Better(m, dist[v], Offer(net, m, dist, s, i).key)
  }

  /** The order of settling: one node at a time, always the best offer, ties by number. */
  ghost predicate Disciplined(net: Network, m: Metric, dist: seq<Cost>, parent: seq<int>, settled: set<nat>, rank: seq<nat>)
    requires WellFormed(net) && |net| == |dist| == |parent| == |rank|
  {
    && (forall s, t :: s in settled && t in settled && s < |rank| && t < |rank| && s != t ==> rank[s] != rank[t])
    && (forall y: nat :: y in settled && y < |net| ==> ChosenRightly(net, m, dist, settled, rank, y))
    && (forall v: nat :: v < |net| ==> FirstOffered(net, m, dist, parent, settled, rank, v))
  }

  ghost predicate Searching(net: Network, m: Metric, src: nat, dist: seq<Cost>, parent: seq<int>,
                            pq: seq<Entry>, settled: set<nat>, rank: seq<nat>)
  {
    && WellFormed(net) && Shape(net, m, src, dist, parent)
    && Reached(net, m, src, dist)
    && Pending(m, dist, pq) && Queued(m, dist, pq, settled) && Frontier(m, dist, pq, settled)
    && Forest(net, m, src, dist, parent, settled, rank)
    && Disciplined(net, m, dist, parent, settled, rank)
  }

  /** The newest settled node is the farthest. */
  predicate Farthest(m: Metric, dist: seq<Cost>, settled: set<nat>, u: nat)
  {
    && u in settled && u < |dist|
    && forall s :: s in settled ==> s < |dist| && !Better(m, dist[u], dist[s])
  }

  // ---- one improvement ----

  /** Relaxing link i of the farthest settled node u found a better path. */
  predicate Improving(net: Network, m: Metric, dist: seq<Cost>, settled: set<nat>, u: nat, i: nat)
  {
    && WellFormed(net) && u < |net| == |dist| && i < |net[u]| && net[u][i].up
    && Farthest(m, dist, settled, u)
    && Better(m, Combine(m, dist[u], LinkCost(m, net[u][i])), dist[Other(net[u][i].wire, u)])
  }

  /** Only an unsettled node can be improved, and only by a path no better than the farthest settled one. */
  lemma ImprovedIsUnsettled(net: Network, m: Metric, dist: seq<Cost>, settled: set<nat>, u: nat, i: nat)
    requires Improving(net, m, dist, settled, u, i) && NonNegative(dist[u])
    requires NonNegative(dist[Other(net[u][i].wire, u)])
    ensures
      var v, c := Other(net[u][i].wire, u), Combine(m, dist[u], LinkCost(m, net[u][i]));
      && NonNegative(c) && c != Worst(m) && v !in settled && dist[v] != Best(m)
      && dist[u] != Worst(m)
      && forall s :: s in settled ==> !Better(m, c, dist[s])
  {
    var l := net[u][i];
    var v, c := Other(l.wire, u), Combine(m, dist[u], LinkCost(m, l));
    LinkCostNonNegative(m, l);
    CombineExtends(m, dist[u], LinkCost(m, l));
    WorstIsWorst(m, dist[v]);
    WorstIsWorst(m, c);
    BetterIsStrictOrder(m, c, dist[v], Worst(m));
    BetterIsStrictOrder(m, c, dist[u], Worst(m));
    forall s | s in settled ensures !Better(m, c, dist[s]) {
      BetterIsStrictOrder(m, c, dist[u], dist[s]);
    }
  }

  lemma ImproveReached(net: Network, m: Metric, src: nat, dist: seq<Cost>, u: nat, i: nat, v: nat, c: Cost)
    requires WellFormed(net) && |dist| == |net| && u < |net| && i < |net[u]| && net[u][i].up
    requires Reached(net, m, src, dist) && dist[u] != Worst(m)
    requires v == Other(net[u][i].wire, u) < |dist| && c == Combine(m, dist[u], LinkCost(m, net[u][i]))
    ensures Reached(net, m, src, dist[v := c])
  {
    var walk :| IsWalk(net, src, walk, u) && WalkCost(m, walk) == dist[u];
    var h := Hop(u, net[u][i]);
    WalkExtends(net, m, src, walk, h);
    assert Attained(net, m, src, v, c);
  }

  lemma ImproveQueue(m: Metric, dist: seq<Cost>, pq: seq<Entry>, settled: set<nat>, v: nat, c: Cost)
    requires Pending(m, dist, pq) && Queued(m, dist, pq, settled) && Frontier(m, dist, pq, settled)
    requires v < |dist| && v !in settled && Better(m, c, dist[v]) && c != Worst(m)
    requires forall s :: s in settled ==> !Better(m, c, dist[s])
    ensures
      var d, q := dist[v := c], Pushed(m, pq, Entry(c, v));
      Pending(m, d, q) && Queued(m, d, q, settled) && Frontier(m, d, q, settled)
  {
    PushedOrdered(m, pq, Entry(c, v));
    var q := Pushed(m, pq, Entry(c, v));
    forall e | e in q ensures !Better(m, e.key, dist[v := c][e.node]) {
      BetterIsStrictOrder(m, c, c, c);
      BetterIsStrictOrder(m, e.key, dist[v], c);
      BetterIsStrictOrder(m, c, dist[v], e.key);
    }
  }

  lemma ImproveForest(net: Network, m: Metric, src: nat, dist: seq<Cost>, parent: seq<int>,
                      settled: set<nat>, rank: seq<nat>, u: nat, i: nat, v: nat, c: Cost)
    requires WellFormed(net) && Forest(net, m, src, dist, parent, settled, rank)
    requires u in settled && u < |net| && i < |net[u]| && net[u][i].up && v == Other(net[u][i].wire, u)
    requires v < |net| && v !in settled && c == Combine(m, dist[u], LinkCost(m, net[u][i])) && c != Worst(m)
    ensures Forest(net, m, src, dist[v := c], parent[v := u], settled, rank)
  {
    var d, p := dist[v := c], parent[v := u];
    forall w: nat | w < |net| ensures Branch(net, m, src, d, p, settled, rank, w) {
      assert Branch(net, m, src, dist, parent, settled, rank, w);
      if w == v {
        assert net[u][i].up && d[v] == Combine(m, d[u], LinkCost(m, net[u][i]));
      } else if parent[w] >= 0 {
        TightStays(net, m, dist, parent[w], w, v, c);
      }
    }
  }

  lemma TightStays(net: Network, m: Metric, dist: seq<Cost>, p: nat, w: nat, v: nat, c: Cost)
    requires p < |net| == |dist| && w < |dist| && v < |dist| && v != p && v != w
    requires Tight(net, m, dist, p, w)
    ensures Tight(net, m, dist[v := c], p, w)
  {
    var i :| 0 <= i < |net[p]| && net[p][i].up && Other(net[p][i].wire, p) == w
      && dist[w] == Combine(m, dist[p], LinkCost(m, net[p][i]));
    var d := dist[v := c];
    assert net[p][i].up && d[w] == Combine(m, d[p], LinkCost(m, net[p][i]));
  }

  lemma ImproveRelaxed(net: Network, m: Metric, dist: seq<Cost>, s: nat, k: nat, v: nat, c: Cost)
    requires WellFormed(net) && s < |net| == |dist| && k <= |net[s]| && v < |dist| && v != s
    requires Better(m, c, dist[v]) && Relaxed(net, m, dist, s, k)
    ensures Relaxed(net, m, dist[v := c], s, k)
  {
    forall i | 0 <= i < k && net[s][i].up
      ensures !Better(m, Combine(m, dist[s], LinkCost(m, net[s][i])), dist[v := c][Other(net[s][i].wire, s)])
    {
      var x := Combine(m, dist[s], LinkCost(m, net[s][i]));
      BetterIsStrictOrder(m, c, dist[v], x);
      BetterIsStrictOrder(m, x, dist[v], c);
      BetterIsStrictOrder(m, x, c, dist[v]);
    }
  }

  lemma ImproveChoice(net: Network, m: Metric, dist: seq<Cost>, settled: set<nat>, rank: seq<nat>, v: nat, c: Cost, y: nat)
    requires WellFormed(net) && |net| == |dist| == |rank| && v < |net| && v !in settled && y in settled && y < |net|
    requires ChosenRightly(net, m, dist, settled, rank, y)
    ensures ChosenRightly(net, m, dist[v := c], settled, rank, y)
  {
    var d := dist[v := c];
    forall s: nat, i: nat | EarlierLink(net, settled, rank, s, i, y)
      ensures var o := Offer(net, m, d, s, i);
        (o.node !in settled || rank[o.node] > rank[y]) ==> Sooner(m, Entry(d[y], y), o)
    {
      assert Offer(net, m, d, s, i) == Offer(net, m, dist, s, i);
    }
  }

  /** A strictly better offer from the newest node makes it the first to offer the distance. */
  lemma ImproveFirst(net: Network, m: Metric, dist: seq<Cost>, parent: seq<int>, settled: set<nat>, rank: seq<nat>,
                     u: nat, v: nat, c: Cost, w: nat)
    requires WellFormed(net) && |net| == |dist| == |parent| == |rank|
    requires u in settled && u < |net| && v < |net| && v !in settled && Better(m, c, dist[v]) && w < |net|
    requires AllRelaxed(net, m, dist, settled - {u}) && FirstOffered(net, m, dist, parent, settled, rank, w)
    ensures FirstOffered(net, m, dist[v := c], parent[v := u], settled, rank, w)
  {
    var d, p := dist[v := c], parent[v := u];
    if 0 <= p[w] < |net| {
      forall s: nat, i: nat | EarlierLink(net, settled, rank, s, i, p[w]) && Offer(net, m, d, s, i).node == w
        ensures Better(m, d[w], Offer(net, m, d, s, i).key)
      {
        assert Offer(net, m, d, s, i) == Offer(net, m, dist, s, i);
        if w == v {
          assert Relaxed(net, m, dist, s, |net[s]|);
          BetterIsStrictOrder(m, c, dist[v], Offer(net, m, dist, s, i).key);
        }
      }
    }
  }

  lemma ImproveDisciplined(net: Network, m: Metric, dist: seq<Cost>, parent: seq<int>,
                           settled: set<nat>, rank: seq<nat>, u: nat, v: nat, c: Cost)
    requires WellFormed(net) && |net| == |dist| == |parent| == |rank| && Disciplined(net, m, dist, parent, settled, rank)
    requires u in settled && u < |net| && v < |net| && v !in settled && Better(m, c, dist[v])
    requires AllRelaxed(net, m, dist, settled - {u})
    ensures Disciplined(net, m, dist[v := c], parent[v := u], settled, rank)
  {
    var d, p := dist[v := c], parent[v := u];
    forall y: nat | y in settled && y < |net| ensures ChosenRightly(net, m, d, settled, rank, y) {
      ImproveChoice(net, m, dist, settled, rank, v, c, y);
    }
    forall w: nat | w < |net| ensures FirstOffered(net, m, d, p, settled, rank, w) {
      ImproveFirst(net, m, dist, parent, settled, rank, u, v, c, w);
    }
  }

  /** Recording the better path keeps the whole search state in order. */
  lemma ImproveKeeps(net: Network, m: Metric, src: nat, dist: seq<Cost>, parent: seq<int>, pq: seq<Entry>,
                     settled: set<nat>, rank: seq<nat>, u: nat, i: nat)
    requires Searching(net, m, src, dist, parent, pq, settled, rank)
    requires Improving(net, m, dist, settled, u, i)
    requires AllRelaxed(net, m, dist, settled - {u}) && Relaxed(net, m, dist, u, i)
    ensures
      var v, c := Other(net[u][i].wire, u), Combine(m, dist[u], LinkCost(m, net[u][i]));
      var d, p, q := dist[v := c], parent[v := u], Pushed(m, pq, Entry(c, v));
      && Searching(net, m, src, d, p, q, settled, rank)
      && Farthest(m, d, settled, u)
      && AllRelaxed(net, m, d, settled - {u}) && Relaxed(net, m, d, u, i + 1)
  {
    ImprovedIsUnsettled(net, m, dist, settled, u, i);
    var v, c := Other(net[u][i].wire, u), Combine(m, dist[u], LinkCost(m, net[u][i]));
    ImproveReached(net, m, src, dist, u, i, v, c);
    ImproveQueue(m, dist, pq, settled, v, c);
    ImproveForest(net, m, src, dist, parent, settled, rank, u, i, v, c);
    ImproveDisciplined(net, m, dist, parent, settled, rank, u, v, c);
    forall s | s in settled - {u} ensures Relaxed(net, m, dist[v := c], s, |net[s]|) {
      ImproveRelaxed(net, m, dist, s, |net[s]|, v, c);
    }
    ImproveRelaxed(net, m, dist, u, i, v, c);
    BetterIsStrictOrder(m, c, c, c);
  }

  ghost predicate AllRelaxed(net: Network, m: Metric, dist: seq<Cost>, nodes: set<nat>)
    requires WellFormed(net) && |net| == |dist|
  {
    forall s :: s in nodes && s < |net| ==> Relaxed(net, m, dist, s, |net[s]|)
  }

  // ---- one pop ----

  lemma TailIn(m: Metric, pq: seq<Entry>)
    requires pq != [] && HeapOrdered(m, pq)
    ensures HeapOrdered(m, pq[1..])
    ensures forall e :: e in pq <==> e == pq[0] || e in pq[1..]
    ensures forall e :: e in pq[1..] ==> Before(m, pq[0], e) && !Better(m, e.key, pq[0].key)
  {
    assert pq == [pq[0]] + pq[1..];
    forall e | e in pq[1..] ensures Before(m, pq[0], e) && !Better(m, e.key, pq[0].key) {
      var j :| 0 <= j < |pq[1..]| && pq[1..][j] == e;
      assert e == pq[j + 1];
      BetterIsStrictOrder(m, pq[0].key, e.key, pq[0].key);
    }
  }

  /** A stale entry can be thrown away: the node's own entry is another one. */
  lemma DropStale(net: Network, m: Metric, src: nat, dist: seq<Cost>, parent: seq<int>, pq: seq<Entry>,
                  settled: set<nat>, rank: seq<nat>)
    requires pq != [] && Searching(net, m, src, dist, parent, pq, settled, rank)
    requires pq[0].key != dist[pq[0].node]
    ensures Searching(net, m, src, dist, parent, pq[1..], settled, rank)
  {
    TailIn(m, pq);
  }

  /** Everything offered to a node still to be settled is behind the entry on top of the heap. */
  lemma TopIsSoonest(net: Network, m: Metric, src: nat, dist: seq<Cost>, parent: seq<int>, pq: seq<Entry>,
                     settled: set<nat>, rank: seq<nat>, s: nat, i: nat)
    requires pq != [] && Searching(net, m, src, dist, parent, pq, settled, rank)
    requires pq[0].key == dist[pq[0].node] && pq[0].node !in settled
    requires AllRelaxed(net, m, dist, settled)
    requires s in settled && s < |net| && i < |net[s]| && net[s][i].up
    requires Offer(net, m, dist, s, i).node !in settled && Offer(net, m, dist, s, i).node != pq[0].node
    ensures Sooner(m, pq[0], Offer(net, m, dist, s, i))
  {
    var o, e := Offer(net, m, dist, s, i), Entry(dist[Offer(net, m, dist, s, i).node], Offer(net, m, dist, s, i).node);
    assert Relaxed(net, m, dist, s, |net[s]|);
    LinkCostNonNegative(m, net[s][i]);
    BetterIsStrictOrder(m, o.key, e.key, o.key);
    WorstIsWorst(m, dist[s]);
    assert o.key != Worst(m) && NonNegative(o.key);
    WorstIsWorst(m, o.key);
    assert dist[o.node] != Worst(m);
    assert e in pq;
    TailIn(m, pq);
    assert e in pq[1..];
    BetterIsStrictOrder(m, pq[0].key, e.key, o.key);
  }

  lemma SettledChoices(net: Network, m: Metric, src: nat, dist: seq<Cost>, parent: seq<int>, pq: seq<Entry>,
                       settled: set<nat>, rank: seq<nat>, u: nat, y: nat)
    requires pq != [] && Searching(net, m, src, dist, parent, pq, settled, rank) && AllRelaxed(net, m, dist, settled)
    requires u == pq[0].node < |net| && pq[0].key == dist[u] && u !in settled && y in settled + {u} && y < |net|
    ensures ChosenRightly(net, m, dist, settled + {u}, rank[u := |settled|], y)
  {
    var settled', rank' := settled + {u}, rank[u := |settled|];
    forall s: nat, i: nat | EarlierLink(net, settled', rank', s, i, y)
      ensures var o := Offer(net, m, dist, s, i);
        (o.node !in settled' || rank'[o.node] > rank'[y]) ==> Sooner(m, Entry(dist[y], y), o)
    {
      var o := Offer(net, m, dist, s, i);
      assert s != u;
      if o.node !in settled' || rank'[o.node] > rank'[y] {
        if y == u {
          TopIsSoonest(net, m, src, dist, parent, pq, settled, rank, s, i);
        } else {
          assert ChosenRightly(net, m, dist, settled, rank, y);
          assert EarlierLink(net, settled, rank, s, i, y);
        }
      }
    }
  }

  lemma SettledFirst(net: Network, m: Metric, src: nat, dist: seq<Cost>, parent: seq<int>,
                     settled: set<nat>, rank: seq<nat>, u: nat, v: nat)
    requires WellFormed(net) && Forest(net, m, src, dist, parent, settled, rank)
    requires u < |net| && u !in settled && v < |net| && FirstOffered(net, m, dist, parent, settled, rank, v)
    ensures FirstOffered(net, m, dist, parent, settled + {u}, rank[u := |settled|], v)
  {
    var settled', rank' := settled + {u}, rank[u := |settled|];
    assert Branch(net, m, src, dist, parent, settled, rank, v);
    if 0 <= parent[v] < |net| {
      forall s: nat, i: nat | EarlierLink(net, settled', rank', s, i, parent[v]) && Offer(net, m, dist, s, i).node == v
        ensures Better(m, dist[v], Offer(net, m, dist, s, i).key)
      {
        assert EarlierLink(net, settled, rank, s, i, parent[v]);
      }
    }
  }

  lemma SettledDisciplined(net: Network, m: Metric, src: nat, dist: seq<Cost>, parent: seq<int>, pq: seq<Entry>,
                           settled: set<nat>, rank: seq<nat>, u: nat)
    requires pq != [] && Searching(net, m, src, dist, parent, pq, settled, rank) && AllRelaxed(net, m, dist, settled)
    requires u == pq[0].node < |net| && pq[0].key == dist[u] && u !in settled
    ensures Disciplined(net, m, dist, parent, settled + {u}, rank[u := |settled|])
  {
    var settled', rank' := settled + {u}, rank[u := |settled|];
    forall y: nat | y in settled' && y < |net| ensures ChosenRightly(net, m, dist, settled', rank', y) {
      SettledChoices(net, m, src, dist, parent, pq, settled, rank, u, y);
    }
    forall v: nat | v < |net| ensures FirstOffered(net, m, dist, parent, settled', rank', v) {
      SettledFirst(net, m, src, dist, parent, settled, rank, u, v);
    }
  }

  /** A live entry settles its node, which no later entry can beat. */
  lemma Settle(net: Network, m: Metric, src: nat, dist: seq<Cost>, parent: seq<int>, pq: seq<Entry>,
               settled: set<nat>, rank: seq<nat>, u: nat)
    requires pq != [] && Searching(net, m, src, dist, parent, pq, settled, rank)
    requires u == pq[0].node && pq[0].key == dist[u] && AllRelaxed(net, m, dist, settled)
    ensures
      var rank' := if u in settled then rank else rank[u := |settled|];
      && Searching(net, m, src, dist, parent, pq[1..], settled + {u}, rank')
      && Farthest(m, dist, settled + {u}, u)
  {
    TailIn(m, pq);
    BetterIsStrictOrder(m, dist[u], dist[u], dist[u]);
    assert pq[0] in pq;
    assert Queued(m, dist, pq[1..], settled + {u}) by {
      forall v: nat | v < |dist| && v !in settled + {u} && dist[v] != Worst(m) ensures Entry(dist[v], v) in pq[1..] {
        assert Entry(dist[v], v) in pq;
      }
    }
    if u in settled {
      assert settled + {u} == settled;
    } else {
      SettledForest(net, m, src, dist, parent, settled, rank, u);
      SettledDisciplined(net, m, src, dist, parent, pq, settled, rank, u);
    }
  }

  lemma SettledForest(net: Network, m: Metric, src: nat, dist: seq<Cost>, parent: seq<int>,
                      settled: set<nat>, rank: seq<nat>, u: nat)
    requires Forest(net, m, src, dist, parent, settled, rank) && u < |rank| && u !in settled
    ensures Forest(net, m, src, dist, parent, settled + {u}, rank[u := |settled|])
  {
    var settled', rank' := settled + {u}, rank[u := |settled|];
    assert |settled'| == |settled| + 1;
    forall v: nat | v < |net| ensures Branch(net, m, src, dist, parent, settled', rank', v) {
      assert Branch(net, m, src, dist, parent, settled, rank, v);
    }
  }

  lemma {:induction false} Crowd(nodes: set<nat>, n: nat)
    requires forall s :: s in nodes ==> s < n
    ensures |nodes| <= n
  {
    if n > 0 {
      Crowd(nodes - {n - 1}, n - 1);
      if n - 1 in nodes { assert |nodes - {n - 1}| == |nodes| - 1; } else { assert nodes - {n - 1} == nodes; }
    }
  }

  // ---- the search ----

  /** The parent array is a tree rooted at the source: ranks fall along it, over links that are tight. */
  predicate Rooted(net: Network, m: Metric, src: nat, dist: seq<Cost>, parent: seq<int>, rank: seq<nat>)
  {
    && |net| == |dist| == |parent| == |rank|
    && forall v: nat :: v < |net| ==> Rung(net, m, src, dist, parent, rank, v)
  }

  predicate Rung(net: Network, m: Metric, src: nat, dist: seq<Cost>, parent: seq<int>, rank: seq<nat>, v: nat)
    requires v < |net| == |dist| == |parent| == |rank|
  {
    if v == src || dist[v] == Worst(m) then parent[v] == -1
    else (
      && 0 <= parent[v] < |net| && dist[parent[v]] != Worst(m)
      && rank[parent[v]] < rank[v] && Tight(net, m, dist, parent[v], v))
  }

  function ReachedNodes(m: Metric, dist: seq<Cost>): set<nat>
  {
    set v: nat | v < |dist| && dist[v] != Worst(m)
  }

  /** The tree the search leaves: tight links, and every node settled in its turn by the first best offer. */
  ghost predicate SearchTree(net: Network, m: Metric, src: nat, dist: seq<Cost>, parent: seq<int>, rank: seq<nat>)
  {
    && WellFormed(net) && Rooted(net, m, src, dist, parent, rank)
    && Disciplined(net, m, dist, parent, ReachedNodes(m, dist), rank)
  }

  /** Is dist the table of best costs over all walks from src, the worst cost marking nodes no walk reaches? */
  ghost predicate Optimal(net: Network, m: Metric, src: nat, dist: seq<Cost>)
  {
    && |dist| == |net|
    && forall v: nat :: v < |net| ==>
         && Unbeaten(net, m, src, v, dist[v])
         && (dist[v] == Worst(m) || Attained(net, m, src, v, dist[v]))
  }

  /** When nothing is pending every walk has been accounted for. */
  lemma {:induction false} NothingBeats(net: Network, m: Metric, src: nat, dist: seq<Cost>, parent: seq<int>,
                                        settled: set<nat>, rank: seq<nat>, walk: seq<Hop>, v: nat)
    requires Searching(net, m, src, dist, parent, [], settled, rank) && AllRelaxed(net, m, dist, settled)
    requires IsWalk(net, src, walk, v) && v < |net|
    ensures !Better(m, WalkCost(m, walk), dist[v])
  {
    BetterIsStrictOrder(m, Best(m), Best(m), Best(m));
    if walk != [] {
      var h, before := walk[|walk| - 1], walk[..|walk| - 1];
      var edge := LinkCost(m, h.link);
      NothingBeats(net, m, src, dist, parent, settled, rank, before, h.from);
      WalkBeatsWorst(net, m, src, before, h.from);
      assert h.from in settled;
      var i :| 0 <= i < |net[h.from]| && net[h.from][i] == h.link;
      assert net[h.from][i].up;
      CombineMonotone(m, WalkCost(m, before), dist[h.from], edge);
      BetterIsStrictOrder(m, WalkCost(m, walk), Combine(m, dist[h.from], edge), dist[v]);
    }
  }

  lemma SearchDone(net: Network, m: Metric, src: nat, dist: seq<Cost>, parent: seq<int>,
                   settled: set<nat>, rank: seq<nat>)
    requires Searching(net, m, src, dist, parent, [], settled, rank) && AllRelaxed(net, m, dist, settled)
    ensures Optimal(net, m, src, dist) && SearchTree(net, m, src, dist, parent, rank)
  {
    assert settled == ReachedNodes(m, dist);
    forall v: nat, walk | v < |net| && IsWalk(net, src, walk, v) ensures !Better(m, WalkCost(m, walk), dist[v]) {
      NothingBeats(net, m, src, dist, parent, settled, rank, walk, v);
    }
    forall v: nat | v < |net| ensures Rung(net, m, src, dist, parent, rank, v) {
      assert Branch(net, m, src, dist, parent, settled, rank, v);
      WorstIsWorst(m, Best(m));
    }
  }

  /** One pop, live or stale. */
  lemma PopKeeps(net: Network, m: Metric, src: nat, dist: seq<Cost>, parent: seq<int>, pq: seq<Entry>,
                 settled: set<nat>, rank: seq<nat>)
    requires pq != [] && Searching(net, m, src, dist, parent, pq, settled, rank)
    requires AllRelaxed(net, m, dist, settled)
    ensures
      var top, u := pq[0], pq[0].node;
      && u < |net|
      && (if Better(m, top.key, dist[u]) || top.key == dist[u] then
            var rank' := if u in settled then rank else rank[u := |settled|];
            && Relaxing(net, m, src, dist, parent, pq[1..], settled + {u}, rank', u, 0)
            && (if u in settled then settled + {u} == settled && Relaxed(net, m, dist, u, |net[u]|)
                else |settled| < |settled + {u}| <= |net|)
          else Searching(net, m, src, dist, parent, pq[1..], settled, rank))
  {
    var u := pq[0].node;
    assert pq[0] in pq;
    if pq[0].key == dist[u] {
      Settle(net, m, src, dist, parent, pq, settled, rank, u);
      Crowd(settled + {u}, |net|);
    } else {
      DropStale(net, m, src, dist, parent, pq, settled, rank);
    }
  }

  /** The inner loop has offered the first i links of u. */
  ghost predicate Relaxing(net: Network, m: Metric, src: nat, dist: seq<Cost>, parent: seq<int>, pq: seq<Entry>,
                           settled: set<nat>, rank: seq<nat>, u: nat, i: nat)
  {
    && Searching(net, m, src, dist, parent, pq, settled, rank)
    && Farthest(m, dist, settled, u) && AllRelaxed(net, m, dist, settled - {u})
    && i <= |net[u]| && Relaxed(net, m, dist, u, i)
  }

  /** What the inner loop does with link i, and what that keeps. */
  lemma RelaxOne(net: Network, m: Metric, src: nat, dist: seq<Cost>, parent: seq<int>, pq: seq<Entry>,
                 settled: set<nat>, rank: seq<nat>, u: nat, i: nat)
    requires Relaxing(net, m, src, dist, parent, pq, settled, rank, u, i) && i < |net[u]|
    ensures
      var l := net[u][i];
      var v, c := Other(l.wire, u), Combine(m, dist[u], LinkCost(m, l));
      && 0 <= v < |dist|
      && (if l.up && Better(m, c, dist[v]) then
            Relaxing(net, m, src, dist[v := c], parent[v := u], Pushed(m, pq, Entry(c, v)), settled, rank, u, i + 1)
          else Relaxing(net, m, src, dist, parent, pq, settled, rank, u, i + 1))
  {
    var l := net[u][i];
    if l.up && Better(m, Combine(m, dist[u], LinkCost(m, l)), dist[Other(l.wire, u)]) {
      ImproveKeeps(net, m, src, dist, parent, pq, settled, rank, u, i);
    }
  }

  lemma RelaxingBounds(net: Network, m: Metric, src: nat, dist: seq<Cost>, parent: seq<int>, pq: seq<Entry>,
                       settled: set<nat>, rank: seq<nat>, u: nat, i: nat)
    requires Relaxing(net, m, src, dist, parent, pq, settled, rank, u, i)
    ensures WellFormed(net) && u < |net| == |dist| == |parent| && i <= |net[u]|
    ensures i == |net[u]| ==> AllRelaxed(net, m, dist, settled)
  {
  }

  /** Once a node is relaxed its links improve nothing. */
  lemma RelaxedIsQuiet(net: Network, m: Metric, dist: seq<Cost>, u: nat, i: nat)
    requires WellFormed(net) && u < |net| == |dist| && i < |net[u]| && Relaxed(net, m, dist, u, |net[u]|)
    ensures !(net[u][i].up && Better(m, Combine(m, dist[u], LinkCost(m, net[u][i])), dist[Other(net[u][i].wire, u)]))
  {
  }

  /** The inner loop: offer every neighbour over an up link the path through u. */
  method RelaxNode(net: Network, m: Metric, ghost src: nat, u: nat, dist0: seq<Cost>, parent0: seq<int>, pq0: seq<Entry>,
                   ghost settled: set<nat>, ghost rank: seq<nat>)
    returns (dist: seq<Cost>, parent: seq<int>, pq: seq<Entry>)
    requires Relaxing(net, m, src, dist0, parent0, pq0, settled, rank, u, 0)
    ensures Relaxing(net, m, src, dist, parent, pq, settled, rank, u, |net[u]|)
    ensures Relaxed(net, m, dist0, u, |net[u]|) ==> pq == pq0
  {
    dist, parent, pq := dist0, parent0, pq0;
    for i := 0 to |net[u]|
      invariant Relaxing(net, m, src, dist, parent, pq, settled, rank, u, i)
      invariant Relaxed(net, m, dist0, u, |net[u]|) ==> dist == dist0 && pq == pq0
    {
      RelaxOne(net, m, src, dist, parent, pq, settled, rank, u, i);
      if Relaxed(net, m, dist0, u, |net[u]|) { RelaxedIsQuiet(net, m, dist0, u, i); }
      var l := net[u][i];
      if l.up {
        var v, newDist := Other(l.wire, u), Combine(m, dist[u], LinkCost(m, l));
        if Better(m, newDist, dist[v]) {
          dist, parent := dist[v := newDist], parent[v := u];
          pq := Pushed(m, pq, Entry(newDist, v));
        }
      }
    }
  }

  /** Routing::buildDijkstra: lazy deletion, so a node may be in the heap many times. */
  method BuildDijkstra(net: Network, src: nat, m: Metric) returns (dist: seq<Cost>, parent: seq<int>)
    requires WellFormed(net) && src < |net|
    ensures Optimal(net, m, src, dist)
    ensures exists rank :: SearchTree(net, m, src, dist, parent, rank)
    ensures dist[src] == Best(m) && forall v :: 0 <= v < |dist| ==> NonNegative(dist[v])
  {
    dist := seq(|net|, _ => Worst(m));
    parent := seq(|net|, _ => -1);
    dist := dist[src := Best(m)];
    var pq := Pushed(m, [], Entry(dist[src], src));
    ghost var settled: set<nat>, rank: seq<nat> := {}, seq(|net|, _ => 0);
    SearchStarts(net, m, src, dist, parent, pq, rank);
    while pq != []
      invariant Searching(net, m, src, dist, parent, pq, settled, rank)
      invariant AllRelaxed(net, m, dist, settled)
      decreases |net| - |settled|, |pq|
    {
      var top, u := pq[0], pq[0].node;
      PopKeeps(net, m, src, dist, parent, pq, settled, rank);
      pq := pq[1..];
      if Better(m, top.key, dist[u]) || top.key == dist[u] {
        rank := if u in settled then rank else rank[u := |settled|];
        settled := settled + {u};
        dist, parent, pq := RelaxNode(net, m, src, u, dist, parent, pq, settled, rank);
        RelaxingBounds(net, m, src, dist, parent, pq, settled, rank, u, |net[u]|);
      }
    }
    SearchDone(net, m, src, dist, parent, settled, rank);
  }

  lemma SearchStarts(net: Network, m: Metric, src: nat, dist: seq<Cost>, parent: seq<int>, pq: seq<Entry>, rank: seq<nat>)
    requires WellFormed(net) && src < |net| == |dist| == |parent| == |rank|
    requires forall v :: 0 <= v < |net| ==> dist[v] == (if v == src then Best(m) else Worst(m)) && parent[v] == -1
    requires pq == [Entry(Best(m), src)]
    ensures Searching(net, m, src, dist, parent, pq, {}, rank)
  {
    WorstIsWorst(m, Best(m));
    BetterIsStrictOrder(m, Best(m), Best(m), Best(m));
    var walk: seq<Hop> := [];
    assert IsWalk(net, src, walk, src) && WalkCost(m, walk) == Best(m);
    assert Attained(net, m, src, src, Best(m));
  }
}
