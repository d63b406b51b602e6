/**
  The tables the simulator builds never send a packet round in circles, for any metric and with links that cost
  nothing. Every table comes from a search of its own; what makes them fit together is that each search settles the
  best offer first and breaks ties by node number, so along a loop the worst node on the way would have to be the
  same for everybody, and the loop would lead to it as well.
 */
module LoopFreedom {
  import opened PathAlgebra
  import opened Wires
  import opened Dijkstra
  import opened RoutingTable
  import opened Forwarding

  // ---- one search ----

  /** Best distances, and the tree one search from src built for them. */
  ghost predicate Searched(net: Network, m: Metric, src: nat, dist: seq<Cost>, t: Tree)
  {
    && src < |net| == |dist| == |t.parent| && Climbs(t) && Optimal(net, m, src, dist)
    && SearchTree(net, m, src, dist, t.parent, t.rank)
  }

  lemma {:induction false} TreePathShape(net: Network, m: Metric, src: nat, dist: seq<Cost>, t: Tree, v: nat)
    requires Searched(net, m, src, dist, t) && v < |net| && dist[v] != Worst(m)
    ensures var path := TreePath(t, v);
      && path[0] == src
      && (forall i :: 0 <= i < |path| ==> dist[path[i]] != Worst(m))
      && (forall i :: 0 < i < |path| ==> t.parent[path[i]] == path[i - 1])
      && (forall i, j :: 0 <= i < j < |path| ==> t.rank[path[i]] < t.rank[path[j]])
    decreases t.rank[v]
  {
    assert Rung(net, m, src, dist, t.parent, t.rank, v);
    if t.parent[v] >= 0 {
      var path := TreePath(t, t.parent[v]);
      TreePathShape(net, m, src, dist, t, t.parent[v]);
      assert TreePath(t, v) == path + [v] && path[|path| - 1] == t.parent[v];
    }
  }

  /** The way to a node on the way is the beginning of the way. */
  lemma {:induction false} TreePathPrefix(t: Tree, v: nat, j: nat)
    requires Climbs(t) && v < |t.parent| && j < |TreePath(t, v)|
    ensures TreePath(t, TreePath(t, v)[j]) == TreePath(t, v)[..j + 1]
    decreases t.rank[v]
  {
    var path := TreePath(t, v);
    if j == |path| - 1 {
      assert path[..j + 1] == path;
    } else {
      var before := TreePath(t, t.parent[v]);
      assert path == before + [v];
      TreePathPrefix(t, t.parent[v], j);
      assert path[..j + 1] == before[..j + 1];
    }
  }

  lemma ReachedNonNegative(net: Network, m: Metric, src: nat, dist: seq<Cost>, t: Tree, v: nat)
    requires Searched(net, m, src, dist, t) && v < |net| && dist[v] != Worst(m)
    ensures NonNegative(dist[v]) && Reachable(net, src, v)
  {
    var walk :| IsWalk(net, src, walk, v) && WalkCost(m, walk) == dist[v];
    WalkBeatsWorst(net, m, src, walk, v);
  }

  /** The walk that follows a tree path from its second node on. */
  ghost predicate FollowsTree(net: Network, m: Metric, dist: seq<Cost>, path: seq<nat>, walk: seq<Hop>)
  {
    && |path| >= 2 && |walk| == |path| - 2
    && (forall i :: 0 <= i < |path| ==> path[i] < |dist|)
    && (forall i :: 0 <= i < |walk| ==> walk[i].from == path[i + 1])
    && forall i :: 0 <= i <= |walk| ==>
         && IsWalk(net, path[1], walk[..i], path[i + 1])
         && !Better(m, dist[path[i + 1]], WalkCost(m, walk[..i]))
  }

  /** Leaving out the first hop makes no distance along the path worse. */
  lemma {:induction false} TreeWalk(net: Network, m: Metric, src: nat, dist: seq<Cost>, t: Tree, v: nat) returns (walk: seq<Hop>)
    requires Searched(net, m, src, dist, t) && v < |net| && dist[v] != Worst(m) && v != src
    ensures FollowsTree(net, m, dist, TreePath(t, v), walk)
    decreases t.rank[v]
  {
    var path, p := TreePath(t, v), t.parent[v];
    assert Rung(net, m, src, dist, t.parent, t.rank, v) && Rung(net, m, src, dist, t.parent, t.rank, src);
    if p == src {
      walk := [];
      ReachedNonNegative(net, m, src, dist, t, v);
      WorstIsWorst(m, dist[v]);
    } else {
      var before := TreeWalk(net, m, src, dist, t, p);
      var i :| 0 <= i < |net[p]| && net[p][i].up && Other(net[p][i].wire, p) == v
        && dist[v] == Combine(m, dist[p], LinkCost(m, net[p][i]));
      walk := TreeWalkOn(net, m, dist, TreePath(t, p), before, v, i);
    }
  }

  lemma TreeWalkOn(net: Network, m: Metric, dist: seq<Cost>, path: seq<nat>, before: seq<Hop>, v: nat, i: nat)
    returns (walk: seq<Hop>)
    requires WellFormed(net) && |dist| == |net| && v < |net| && FollowsTree(net, m, dist, path, before)
    requires var p := path[|path| - 1];
      && i < |net[p]| && net[p][i].up && Other(net[p][i].wire, p) == v
      && dist[v] == Combine(m, dist[p], LinkCost(m, net[p][i]))
    ensures FollowsTree(net, m, dist, path + [v], walk)
  {
    var p, last := path[|path| - 1], |before|;
    var hop := Hop(p, net[p][i]);
    walk := before + [hop];
    assert before[..last] == before;
    WalkExtends(net, m, path[1], before, hop);
    CombineMonotone(m, dist[p], WalkCost(m, before), LinkCost(m, net[p][i]));
    var longer := path + [v];
    forall k | 0 <= k <= |walk|
      ensures IsWalk(net, longer[1], walk[..k], longer[k + 1]) && !Better(m, dist[longer[k + 1]], WalkCost(m, walk[..k]))
    {
      if k <= last {
        assert walk[..k] == before[..k] && longer[k + 1] == path[k + 1];
      } else {
        assert walk[..k] == walk;
      }
    }
  }

  // ---- the worst node on the way ----

  /** A node on the way and its distance, as the heap compares them. */
  function Label(dist: seq<Cost>, v: nat): Entry
    requires v < |dist|
  {
    Entry(dist[v], v)
  }

  /** A node before the last one of a walk, with what the walk has cost there. */
  function Passed(m: Metric, walk: seq<Hop>, i: nat): Entry
    requires i < |walk|
  {
    Entry(WalkCost(m, walk[..i]), walk[i].from)
  }

  /** Along a walk that passes only nodes ahead of y, every node is settled before y. */
  lemma StepStaysAhead(net: Network, m: Metric, src: nat, dist: seq<Cost>, t: Tree, y: nat, walk: seq<Hop>, h: Hop, x: nat)
    requires Searched(net, m, src, dist, t) && y < |net| && dist[y] != Worst(m)
    requires IsWalk(net, src, walk, h.from) && Usable(net, h) && Other(h.link.wire, h.from) == x
    requires t.rank[h.from] < t.rank[y]
    requires Sooner(m, Entry(WalkCost(m, walk + [h]), x), Label(dist, y))
    ensures x < |net| && dist[x] != Worst(m) && t.rank[x] < t.rank[y]
  {
    var i :| 0 <= i < |net[h.from]| && net[h.from][i] == h.link;
    WalkExtends(net, m, src, walk, h);
    WalkBeatsWorst(net, m, src, walk, h.from);
    WalkBeatsWorst(net, m, src, walk + [h], x);
    UsableHop(net, m, h);
    var reached, o := ReachedNodes(m, dist), Offer(net, m, dist, h.from, i);
    assert !Better(m, WalkCost(m, walk), dist[h.from]) && !Better(m, WalkCost(m, walk + [h]), dist[x]);
    CombineMonotone(m, WalkCost(m, walk), dist[h.from], LinkCost(m, h.link));
    assert EarlierLink(net, reached, t.rank, h.from, i, y);
    assert ChosenRightly(net, m, dist, reached, t.rank, y);
    BetterIsStrictOrder(m, dist[y], o.key, WalkCost(m, walk + [h]));
    BetterIsStrictOrder(m, WalkCost(m, walk + [h]), dist[y], WalkCost(m, walk + [h]));
  }

  /** Is the i-th node a walk passes, before its last one, ahead of y in the heap? */
  predicate PassesAhead(m: Metric, dist: seq<Cost>, walk: seq<Hop>, y: nat, i: nat)
    requires y < |dist| && i < |walk|
  {
    Sooner(m, Passed(m, walk, i), Label(dist, y))
  }

  lemma {:induction false} AllSettledBefore(net: Network, m: Metric, src: nat, dist: seq<Cost>, t: Tree, y: nat,
                                            walk: seq<Hop>, d: nat, k: nat)
    requires Searched(net, m, src, dist, t) && y < |net| && dist[y] != Worst(m) && t.rank[src] < t.rank[y]
    requires IsWalk(net, src, walk, d) && k < |walk|
    requires forall i :: 0 < i < |walk| ==> PassesAhead(m, dist, walk, y, i)
    ensures walk[k].from < |net| && IsWalk(net, src, walk[..k], walk[k].from)
    ensures t.rank[walk[k].from] < t.rank[y] && dist[walk[k].from] != Worst(m)
  {
    WalkPrefix(net, src, walk, d, k);
    if k == 0 {
      assert walk[..0] == [];
      assert IsWalk(net, src, walk[..0], src);
      WorstIsWorst(m, Best(m));
      var empty: seq<Hop> := [];
      assert IsWalk(net, src, empty, src) && WalkCost(m, empty) == Best(m);
      assert !Better(m, WalkCost(m, empty), dist[src]);
    } else {
      AllSettledBefore(net, m, src, dist, t, y, walk, d, k - 1);
      assert PassesAhead(m, dist, walk, y, k);
      assert walk[..k] == walk[..k - 1] + [walk[k - 1]];
      StepStaysAhead(net, m, src, dist, t, y, walk[..k - 1], walk[k - 1], walk[k].from);
    }
  }

  lemma {:induction false} WalkPrefix(net: Network, src: nat, walk: seq<Hop>, d: int, k: nat)
    requires IsWalk(net, src, walk, d) && k < |walk|
    ensures IsWalk(net, src, walk[..k], walk[k].from) && Usable(net, walk[k])
    ensures Other(walk[k].link.wire, walk[k].from) == if k + 1 < |walk| then walk[k + 1].from else d
    decreases |walk|
  {
    if k + 1 < |walk| {
      var before := walk[..|walk| - 1];
      WalkPrefix(net, src, before, walk[|walk| - 1].from, k);
      assert before[..k] == walk[..k];
    }
  }

  /**
    The search is greedy about the worst node on the way: a walk as good as the tree path passes some node, before its
    last one, that is no further ahead in the heap than any given node on the tree path.
   */
  lemma TreePathIsCautious(net: Network, m: Metric, src: nat, dist: seq<Cost>, t: Tree, d: nat, j: nat, walk: seq<Hop>)
    requires Searched(net, m, src, dist, t) && d < |net| && dist[d] != Worst(m)
    requires 0 < j < |TreePath(t, d)| - 1
    requires IsWalk(net, src, walk, d) && !Better(m, dist[d], WalkCost(m, walk))
    ensures exists i :: 0 < i < |walk| && !PassesAhead(m, dist, walk, TreePath(t, d)[j], i)
  {
    var path, y := TreePath(t, d), TreePath(t, d)[j];
    TreePathShape(net, m, src, dist, t, d);
    if forall i :: 0 < i < |walk| ==> PassesAhead(m, dist, walk, y, i) {
      assert walk != [];
      var k := |walk| - 1;
      AllSettledBefore(net, m, src, dist, t, y, walk, d, k);
      WalkPrefix(net, src, walk, d, k);
      LastHopIsNoTie(net, m, src, dist, t, d, walk, path[|path| - 2]);
    }
  }

  /** A last hop from a node settled before the parent would have made that node the parent. */
  lemma LastHopIsNoTie(net: Network, m: Metric, src: nat, dist: seq<Cost>, t: Tree, d: nat, walk: seq<Hop>, p: nat)
    requires Searched(net, m, src, dist, t) && d < |net| && p < |net| && t.parent[d] == p && dist[p] != Worst(m)
    requires walk != [] && IsWalk(net, src, walk, d)
    requires var h := walk[|walk| - 1];
      h.from < |net| && dist[h.from] != Worst(m) && t.rank[h.from] < t.rank[p] && IsWalk(net, src, walk[..|walk| - 1], h.from)
    ensures Better(m, dist[d], WalkCost(m, walk))
  {
    var h, before := walk[|walk| - 1], walk[..|walk| - 1];
    var i :| 0 <= i < |net[h.from]| && net[h.from][i] == h.link;
    var reached, o := ReachedNodes(m, dist), Offer(net, m, dist, h.from, i);
    assert EarlierLink(net, reached, t.rank, h.from, i, p);
    assert FirstOffered(net, m, dist, t.parent, reached, t.rank, d);
    assert !Better(m, WalkCost(m, before), dist[h.from]);
    CombineMonotone(m, WalkCost(m, before), dist[h.from], LinkCost(m, h.link));
    BetterIsStrictOrder(m, dist[d], o.key, WalkCost(m, walk));
  }

  lemma NoWorseNoFurtherAhead(m: Metric, mine: Entry, passed: Entry, theirs: Entry)
    requires passed.node == mine.node && !Better(m, mine.key, passed.key) && !Sooner(m, passed, theirs)
    ensures !Sooner(m, mine, theirs)
  {
    BetterIsStrictOrder(m, mine.key, theirs.key, passed.key);
    BetterIsStrictOrder(m, passed.key, mine.key, theirs.key);
    BetterIsStrictOrder(m, passed.key, theirs.key, mine.key);
  }

  lemma NodeMatched(m: Metric, dist: seq<Cost>, way: seq<nat>, walk: seq<Hop>, net: Network, i: nat, theirs: Entry)
    requires FollowsTree(net, m, dist, way, walk) && i < |walk| && !Sooner(m, Passed(m, walk, i), theirs)
    ensures !Sooner(m, Label(dist, way[i + 1]), theirs)
  {
    NoWorseNoFurtherAhead(m, Label(dist, way[i + 1]), Passed(m, walk, i), theirs);
  }

  /** The same between two searches: what lies between v and d on v's tree is matched on a walk from u's tree. */
  lemma MatchedOnWalk(net: Network, m: Metric, v: nat, dist: seq<Cost>, t: Tree, d: nat, j: nat,
                      before: seq<Cost>, way: seq<nat>, walk: seq<Hop>) returns (k: nat)
    requires Searched(net, m, v, dist, t) && d < |net| && dist[d] != Worst(m) && 0 < j < |TreePath(t, d)| - 1
    requires FollowsTree(net, m, before, way, walk)
    requires IsWalk(net, v, walk, d) && !Better(m, dist[d], WalkCost(m, walk))
    ensures 2 <= k < |way| - 1 && !Sooner(m, Label(before, way[k]), Label(dist, TreePath(t, d)[j]))
  {
    TreePathIsCautious(net, m, v, dist, t, d, j, walk);
    var i: nat :| 0 < i < |walk| && !PassesAhead(m, dist, walk, TreePath(t, d)[j], i);
    k := i + 1;
    NodeMatched(m, before, way, walk, net, i, Label(dist, TreePath(t, d)[j]));
  }

  // ---- the tables together ----

  function DistFrom(tables: Tables, u: nat): seq<Cost>
    requires u < |tables|
  {
    Distances(tables[u])
  }

  lemma BuiltIsSearched(net: Network, m: Metric, tables: Tables, trees: seq<Tree>, u: nat)
    requires BuiltFrom(net, m, tables, trees) && u < |net|
    ensures Searched(net, m, u, DistFrom(tables, u), trees[u])
  {
    assert BuiltTable(net, m, u, tables[u], trees[u]);
  }

  /** The way to d as u's own search sees it. */
  function Way(trees: seq<Tree>, u: nat, d: nat): (path: seq<nat>)
    requires u < |trees| && Climbs(trees[u]) && d < |trees[u].parent|
    ensures forall i :: 0 <= i < |path| ==> path[i] < |trees[u].parent|
    ensures path != []
  {
    TreePath(trees[u], d)
  }

  ghost predicate Fit(net: Network, m: Metric, tables: Tables, trees: seq<Tree>, u: nat, d: nat)
  {
    BuiltFrom(net, m, tables, trees) && u < |net| && d < |net| && u != d && Reachable(net, u, d)
    && Searched(net, m, u, DistFrom(tables, u), trees[u])
  }

  /** The hop taken at u is the first step of u's way. */
  lemma FirstHop(net: Network, m: Metric, tables: Tables, trees: seq<Tree>, u: nat, d: nat)
    requires BuiltFrom(net, m, tables, trees) && u < |net| && d < |net| && u != d && Reachable(net, u, d)
    ensures Fit(net, m, tables, trees, u, d) && DistFrom(tables, u)[d] != Worst(m)
    ensures var path := Way(trees, u, d);
      |path| >= 2 && path[0] == u && path[|path| - 1] == d && GetNextHop(tables, u, d) == path[1]
  {
    BuiltIsSearched(net, m, tables, trees, u);
    assert BuiltTable(net, m, u, tables[u], trees[u]) && RightRoute(net, m, u, d, tables[u][d]);
    var walk :| IsWalk(net, u, walk, d);
    WalkBeatsWorst(net, m, u, walk, d);
    TreePathShape(net, m, u, DistFrom(tables, u), trees[u], d);
    assert FirstStep(trees[u], d, tables[u][d].nextHop);
  }

  /** Going on from the next hop costs no more, and the rest of the way is a walk from there. */
  lemma RestOfTheWay(net: Network, m: Metric, tables: Tables, trees: seq<Tree>, u: nat, d: nat) returns (walk: seq<Hop>)
    requires BuiltFrom(net, m, tables, trees) && u < |net| && d < |net| && u != d && Reachable(net, u, d)
    ensures Fit(net, m, tables, trees, u, d)
    ensures var v := GetNextHop(tables, u, d);
      && 0 <= v < |net| && Reachable(net, v, d) && IsWalk(net, v, walk, d)
      && FollowsTree(net, m, DistFrom(tables, u), Way(trees, u, d), walk)
      && !Better(m, DistFrom(tables, u)[d], WalkCost(m, walk)) && Searched(net, m, v, DistFrom(tables, v), trees[v])
      && !Better(m, WalkCost(m, walk), DistFrom(tables, v)[d])
  {
    FirstHop(net, m, tables, trees, u, d);
    walk := TreeWalk(net, m, u, DistFrom(tables, u), trees[u], d);
    assert walk[..|walk|] == walk;
    BuiltIsSearched(net, m, tables, trees, Way(trees, u, d)[1]);
  }

  /** The next hop is no farther away, by its own table. */
  lemma NoFarther(net: Network, m: Metric, tables: Tables, trees: seq<Tree>, u: nat, d: nat)
    requires BuiltFrom(net, m, tables, trees) && u < |net| && d < |net| && u != d && Reachable(net, u, d)
    ensures Fit(net, m, tables, trees, u, d)
    ensures var v := GetNextHop(tables, u, d);
      && 0 <= v < |net| && Reachable(net, v, d) && Searched(net, m, v, DistFrom(tables, v), trees[v])
      && !Better(m, DistFrom(tables, u)[d], DistFrom(tables, v)[d])
  {
    var walk := RestOfTheWay(net, m, tables, trees, u, d);
    BetterIsStrictOrder(m, DistFrom(tables, u)[d], WalkCost(m, walk), DistFrom(tables, GetNextHop(tables, u, d))[d]);
  }

  /** The label of a node on u's way to d. */
  function LabelOn(tables: Tables, trees: seq<Tree>, u: nat, d: nat, j: nat): Entry
    requires u < |tables| && u < |trees| && Climbs(trees[u]) && d < |trees[u].parent|
    requires j < |Way(trees, u, d)| && |trees[u].parent| == |DistFrom(tables, u)|
  {
    Label(DistFrom(tables, u), Way(trees, u, d)[j])
  }

  /**
    When the next hop v is just as far from d, every node between v and d on v's way is matched by one on u's way
    beyond v that is no further ahead in the heap.
   */
  lemma MatchedBeyond(net: Network, m: Metric, tables: Tables, trees: seq<Tree>, u: nat, v: nat, d: nat, j: nat)
    returns (k: nat)
    requires Fit(net, m, tables, trees, u, d) && Fit(net, m, tables, trees, v, d) && v == GetNextHop(tables, u, d)
    requires DistFrom(tables, u)[d] == DistFrom(tables, v)[d] && 0 < j < |Way(trees, v, d)| - 1
    ensures 2 <= k < |Way(trees, u, d)| - 1
    ensures !Sooner(m, LabelOn(tables, trees, u, d, k), LabelOn(tables, trees, v, d, j))
  {
    var walk := RestOfTheWay(net, m, tables, trees, u, d);
    FirstHop(net, m, tables, trees, v, d);
    k := MatchedOnWalk(net, m, v, DistFrom(tables, v), trees[v], d, j, DistFrom(tables, u), Way(trees, u, d), walk);
  }

  // ---- loops ----

  /** The place of the node on a path, from the second to the n-th, that no other is behind. */
  function Rearmost(m: Metric, dist: seq<Cost>, path: seq<nat>, n: nat): (j: nat)
    requires 1 <= n < |path| && forall i :: 0 <= i < |path| ==> path[i] < |dist|
    ensures 1 <= j <= n
    ensures forall i :: 1 <= i <= n ==> Before(m, Label(dist, path[i]), Label(dist, path[j]))
  {
    var last := Label(dist, path[n]);
    BeforeIsTotalOrder(m, last, last, last);
    if n == 1 then 1
    else
      var j := Rearmost(m, dist, path, n - 1);
      var worst := Label(dist, path[j]);
      BeforeIsTotalOrder(m, worst, last, last);
      assert Before(m, worst, last) ==> forall i :: 1 <= i < n ==> Before(m, Label(dist, path[i]), last) by {
        forall i | Before(m, worst, last) && 1 <= i < n ensures Before(m, Label(dist, path[i]), last) {
          BeforeIsTotalOrder(m, Label(dist, path[i]), worst, last);
        }
      }
      if Before(m, worst, last) then n else j
  }

  /** Entries that go round without ever falling behind are all the same. */
  lemma {:induction false} RoundIsConstant(m: Metric, labels: seq<Entry>, i: nat)
    requires labels != [] && labels[|labels| - 1] == labels[0] && i < |labels|
    requires forall k :: 0 <= k < |labels| - 1 ==> Before(m, labels[k + 1], labels[k])
    ensures labels[i] == labels[0]
  {
    NeverFallsBehind(m, labels, 0, i);
    NeverFallsBehind(m, labels, i, |labels| - 1);
    BetterIsStrictOrder(m, labels[i].key, labels[0].key, labels[i].key);
  }

  lemma {:induction false} NeverFallsBehind(m: Metric, labels: seq<Entry>, i: nat, j: nat)
    requires i <= j < |labels|
    requires forall k :: 0 <= k < |labels| - 1 ==> Before(m, labels[k + 1], labels[k])
    ensures Before(m, labels[j], labels[i])
    decreases j
  {
    if i < j {
      NeverFallsBehind(m, labels, i, j - 1);
      assert Before(m, labels[j - 1 + 1], labels[j - 1]);
      BeforeIsTotalOrder(m, labels[j], labels[j - 1], labels[i]);
    }
  }

  /** A round trip by the tables for d that never gets to d. */
  ghost predicate Loop(net: Network, tables: Tables, d: nat, cycle: seq<nat>)
  {
    && |cycle| >= 2 && cycle[|cycle| - 1] == cycle[0]
    && (forall i :: 0 <= i < |cycle| ==> cycle[i] < |net| && cycle[i] != d && Reachable(net, cycle[i], d))
    && forall i :: 0 <= i < |cycle| - 1 ==> GetNextHop(tables, cycle[i], d) == cycle[i + 1]
  }

  /** How far d is, as an entry, so that what is said of entries can be said of it. */
  function FarFrom(tables: Tables, u: nat, d: nat): Entry
  {
    Entry(if u < |tables| && d < |tables[u]| then DistanceTo(tables, u, d) else Infinity, 0)
  }

  lemma FarOnward(net: Network, m: Metric, tables: Tables, trees: seq<Tree>, u: nat, d: nat)
    requires BuiltFrom(net, m, tables, trees) && u < |net| && d < |net| && u != d && Reachable(net, u, d)
    ensures var v := GetNextHop(tables, u, d); 0 <= v < |net| && Before(m, FarFrom(tables, v, d), FarFrom(tables, u, d))
  {
    NoFarther(net, m, tables, trees, u, d);
    var x, y := FarFrom(tables, u, d), FarFrom(tables, GetNextHop(tables, u, d), d);
    BetterIsStrictOrder(m, x.key, y.key, x.key);
  }

  lemma FarIsDistance(net: Network, m: Metric, tables: Tables, trees: seq<Tree>, u: nat, d: nat)
    requires Fit(net, m, tables, trees, u, d)
    ensures FarFrom(tables, u, d).key == DistFrom(tables, u)[d]
  {
  }

  /** Around a loop everybody is equally far from d. */
  lemma LoopFarLevel(net: Network, m: Metric, tables: Tables, trees: seq<Tree>, d: nat, cycle: seq<nat>, i: nat)
    requires BuiltFrom(net, m, tables, trees) && d < |net| && Loop(net, tables, d, cycle) && i < |cycle|
    ensures FarFrom(tables, cycle[i], d) == FarFrom(tables, cycle[0], d)
  {
    var far := seq(|cycle|, k requires 0 <= k < |cycle| => FarFrom(tables, cycle[k], d));
    forall k | 0 <= k < |far| - 1 ensures Before(m, far[k + 1], far[k]) {
      FarOnward(net, m, tables, trees, cycle[k], d);
    }
    RoundIsConstant(m, far, i);
  }

  lemma LoopIsLevel(net: Network, m: Metric, tables: Tables, trees: seq<Tree>, d: nat, cycle: seq<nat>, i: nat)
    requires BuiltFrom(net, m, tables, trees) && d < |net| && Loop(net, tables, d, cycle) && i < |cycle|
    ensures Fit(net, m, tables, trees, cycle[i], d) && Fit(net, m, tables, trees, cycle[0], d)
    ensures DistFrom(tables, cycle[i])[d] == DistFrom(tables, cycle[0])[d]
  {
    LoopFits(net, m, tables, trees, d, cycle);
    LoopFarLevel(net, m, tables, trees, d, cycle, i);
    FarIsDistance(net, m, tables, trees, cycle[i], d);
    FarIsDistance(net, m, tables, trees, cycle[0], d);
  }

  lemma LoopFits(net: Network, m: Metric, tables: Tables, trees: seq<Tree>, d: nat, cycle: seq<nat>)
    requires BuiltFrom(net, m, tables, trees) && d < |net| && Loop(net, tables, d, cycle)
    ensures forall k :: 0 <= k < |cycle| ==> Fit(net, m, tables, trees, cycle[k], d)
  {
    forall k | 0 <= k < |cycle| ensures Fit(net, m, tables, trees, cycle[k], d) {
      BuiltIsSearched(net, m, tables, trees, cycle[k]);
    }
  }

  /** No way around a loop is a single hop, since d is not in it. */
  lemma LoopWays(net: Network, m: Metric, tables: Tables, trees: seq<Tree>, d: nat, cycle: seq<nat>, i: nat)
    requires BuiltFrom(net, m, tables, trees) && d < |net| && Loop(net, tables, d, cycle) && i < |cycle| - 1
    ensures Fit(net, m, tables, trees, cycle[i], d) && |Way(trees, cycle[i], d)| >= 3
  {
    FirstHop(net, m, tables, trees, cycle[i], d);
    assert GetNextHop(tables, cycle[i], d) == cycle[i + 1];
  }

  ghost predicate LongWay(net: Network, m: Metric, tables: Tables, trees: seq<Tree>, u: nat, d: nat)
  {
    Fit(net, m, tables, trees, u, d) && |Way(trees, u, d)| >= 3
  }

  /** The place of the worst node between the ends of the way. */
  ghost function HurdleIndex(net: Network, m: Metric, tables: Tables, trees: seq<Tree>, u: nat, d: nat): (j: nat)
    requires LongWay(net, m, tables, trees, u, d)
    ensures 0 < j < |Way(trees, u, d)| - 1
  {
    Rearmost(m, DistFrom(tables, u), Way(trees, u, d), |Way(trees, u, d)| - 2)
  }

  ghost function Hurdle(net: Network, m: Metric, tables: Tables, trees: seq<Tree>, u: nat, d: nat): Entry
    requires LongWay(net, m, tables, trees, u, d)
  {
    LabelOn(tables, trees, u, d, HurdleIndex(net, m, tables, trees, u, d))
  }

  /** The worst node on the way is never behind the worst one as the previous node sees it; if level, it lies beyond. */
  lemma HurdleOnward(net: Network, m: Metric, tables: Tables, trees: seq<Tree>, u: nat, v: nat, d: nat) returns (k: nat)
    requires LongWay(net, m, tables, trees, u, d) && LongWay(net, m, tables, trees, v, d) && v == GetNextHop(tables, u, d)
    requires DistFrom(tables, u)[d] == DistFrom(tables, v)[d]
    ensures Before(m, Hurdle(net, m, tables, trees, v, d), Hurdle(net, m, tables, trees, u, d))
    ensures 2 <= k < |Way(trees, u, d)| - 1
    ensures Hurdle(net, m, tables, trees, v, d) == Hurdle(net, m, tables, trees, u, d) ==>
      LabelOn(tables, trees, u, d, k) == Hurdle(net, m, tables, trees, u, d)
  {
    var j := HurdleIndex(net, m, tables, trees, v, d);
    k := MatchedBeyond(net, m, tables, trees, u, v, d, j);
    NoneBehindHurdle(net, m, tables, trees, u, d, k);
    Squeezed(m, Hurdle(net, m, tables, trees, v, d), LabelOn(tables, trees, u, d, k), Hurdle(net, m, tables, trees, u, d));
  }

  lemma NoneBehindHurdle(net: Network, m: Metric, tables: Tables, trees: seq<Tree>, u: nat, d: nat, j: nat)
    requires LongWay(net, m, tables, trees, u, d) && 0 < j < |Way(trees, u, d)| - 1
    ensures Before(m, LabelOn(tables, trees, u, d, j), Hurdle(net, m, tables, trees, u, d))
  {
    var way, dist := Way(trees, u, d), DistFrom(tables, u);
    var worst := Rearmost(m, dist, way, |way| - 2);
    assert Before(m, Label(dist, way[j]), Label(dist, way[worst]));
  }

  lemma Squeezed(m: Metric, low: Entry, middle: Entry, high: Entry)
    requires !Sooner(m, middle, low) && Before(m, middle, high)
    ensures Before(m, low, high) && (low == high ==> middle == high)
  {
    BetterIsStrictOrder(m, middle.key, low.key, middle.key);
    BeforeIsTotalOrder(m, low, middle, high);
    BetterIsStrictOrder(m, middle.key, high.key, middle.key);
  }

  /** The worst node on the way as u sees it, if there is any. */
  ghost function HurdleOf(net: Network, m: Metric, tables: Tables, trees: seq<Tree>, u: nat, d: nat): Entry
  {
    if LongWay(net, m, tables, trees, u, d) then Hurdle(net, m, tables, trees, u, d) else Entry(Infinity, 0)
  }

  lemma LoopLongWays(net: Network, m: Metric, tables: Tables, trees: seq<Tree>, d: nat, cycle: seq<nat>)
    requires BuiltFrom(net, m, tables, trees) && d < |net| && Loop(net, tables, d, cycle)
    ensures forall i: nat :: i < |cycle| ==> LongWay(net, m, tables, trees, cycle[i], d)
  {
    forall i: nat | i < |cycle| ensures LongWay(net, m, tables, trees, cycle[i], d) {
      LoopWays(net, m, tables, trees, d, cycle, if i == |cycle| - 1 then 0 else i);
    }
  }

  /** The worst nodes as those around the cycle see them. */
  ghost function Hurdles(net: Network, m: Metric, tables: Tables, trees: seq<Tree>, d: nat, cycle: seq<nat>): (r: seq<Entry>)
    ensures |r| == |cycle| && forall k :: 0 <= k < |r| ==> r[k] == HurdleOf(net, m, tables, trees, cycle[k], d)
  {
    seq(|cycle|, k requires 0 <= k < |cycle| => HurdleOf(net, m, tables, trees, cycle[k], d))
  }

  lemma HurdleStep(net: Network, m: Metric, tables: Tables, trees: seq<Tree>, d: nat, cycle: seq<nat>, k: nat)
    requires BuiltFrom(net, m, tables, trees) && d < |net| && Loop(net, tables, d, cycle) && k < |cycle| - 1
    ensures Before(m, HurdleOf(net, m, tables, trees, cycle[k + 1], d), HurdleOf(net, m, tables, trees, cycle[k], d))
  {
    LoopLongWays(net, m, tables, trees, d, cycle);
    var _ := OnwardAt(net, m, tables, trees, d, cycle, k);
  }

  /** Around a loop everybody sees the same worst node on the way to d. */
  lemma LoopHurdleLevel(net: Network, m: Metric, tables: Tables, trees: seq<Tree>, d: nat, cycle: seq<nat>, i: nat)
    requires BuiltFrom(net, m, tables, trees) && d < |net| && Loop(net, tables, d, cycle) && i < |cycle|
    ensures HurdleOf(net, m, tables, trees, cycle[i], d) == HurdleOf(net, m, tables, trees, cycle[0], d)
  {
    var hurdles := Hurdles(net, m, tables, trees, d, cycle);
    forall k | 0 <= k < |hurdles| - 1 ensures Before(m, hurdles[k + 1], hurdles[k]) {
      HurdleStep(net, m, tables, trees, d, cycle, k);
    }
    RoundIsConstant(m, hurdles, i);
  }

  /** And everybody sees it beyond the next hop. */
  lemma CommonHurdle(net: Network, m: Metric, tables: Tables, trees: seq<Tree>, d: nat, cycle: seq<nat>, i: nat)
    requires BuiltFrom(net, m, tables, trees) && d < |net| && Loop(net, tables, d, cycle) && i < |cycle| - 1
    ensures LiesBeyond(net, m, tables, trees, cycle[i], d, HurdleOf(net, m, tables, trees, cycle[0], d))
  {
    LoopLongWays(net, m, tables, trees, d, cycle);
    LoopHurdleLevel(net, m, tables, trees, d, cycle, i);
    LoopHurdleLevel(net, m, tables, trees, d, cycle, i + 1);
    var k := OnwardAt(net, m, tables, trees, d, cycle, i);
    assert BeyondAt(net, m, tables, trees, cycle[i], d, HurdleOf(net, m, tables, trees, cycle[0], d), k);
  }

  lemma OnwardAt(net: Network, m: Metric, tables: Tables, trees: seq<Tree>, d: nat, cycle: seq<nat>, i: nat) returns (k: nat)
    requires BuiltFrom(net, m, tables, trees) && d < |net| && Loop(net, tables, d, cycle) && i < |cycle| - 1
    requires LongWay(net, m, tables, trees, cycle[i], d) && LongWay(net, m, tables, trees, cycle[i + 1], d)
    ensures Before(m, Hurdle(net, m, tables, trees, cycle[i + 1], d), Hurdle(net, m, tables, trees, cycle[i], d))
    ensures Hurdle(net, m, tables, trees, cycle[i + 1], d) == Hurdle(net, m, tables, trees, cycle[i], d) ==>
      BeyondAt(net, m, tables, trees, cycle[i], d, Hurdle(net, m, tables, trees, cycle[i], d), k)
  {
    LoopIsLevel(net, m, tables, trees, d, cycle, i);
    LoopIsLevel(net, m, tables, trees, d, cycle, i + 1);
    k := HurdleOnward(net, m, tables, trees, cycle[i], cycle[i + 1], d);
  }

  ghost predicate BeyondAt(net: Network, m: Metric, tables: Tables, trees: seq<Tree>, u: nat, d: nat, e: Entry, k: nat)
  {
    Fit(net, m, tables, trees, u, d) && 2 <= k < |Way(trees, u, d)| - 1 && LabelOn(tables, trees, u, d, k) == e
  }

  ghost predicate LiesBeyond(net: Network, m: Metric, tables: Tables, trees: seq<Tree>, u: nat, d: nat, e: Entry)
  {
    exists k: nat :: BeyondAt(net, m, tables, trees, u, d, e, k)
  }

  /** A node beyond the next hop on the way to d is reached over the same next hop, by a shorter way. */
  lemma SameHopTowards(net: Network, m: Metric, tables: Tables, trees: seq<Tree>, u: nat, d: nat, k: nat)
    requires Fit(net, m, tables, trees, u, d) && 2 <= k < |Way(trees, u, d)| - 1
    ensures var y := Way(trees, u, d)[k];
      && y < |net| && y != u && Reachable(net, u, y) && GetNextHop(tables, u, y) == GetNextHop(tables, u, d)
      && |Way(trees, u, y)| < |Way(trees, u, d)|
  {
    var way, y := Way(trees, u, d), Way(trees, u, d)[k];
    FirstHop(net, m, tables, trees, u, d);
    TreePathShape(net, m, u, DistFrom(tables, u), trees[u], d);
    TreePathPrefix(trees[u], d, k);
    ReachedNonNegative(net, m, u, DistFrom(tables, u), trees[u], y);
    assert trees[u].rank[way[0]] < trees[u].rank[way[k]];
    FirstHop(net, m, tables, trees, u, y);
    assert Way(trees, u, y)[1] == way[1];
  }

  lemma HurdleLeads(net: Network, m: Metric, tables: Tables, trees: seq<Tree>, d: nat, cycle: seq<nat>, i: nat)
    requires BuiltFrom(net, m, tables, trees) && d < |net| && Loop(net, tables, d, cycle) && i < |cycle| - 1
    ensures LeadsTo(net, m, tables, trees, cycle[i], d, HurdleOf(net, m, tables, trees, cycle[0], d).node)
  {
    var e := HurdleOf(net, m, tables, trees, cycle[0], d);
    CommonHurdle(net, m, tables, trees, d, cycle, i);
    var k: nat :| BeyondAt(net, m, tables, trees, cycle[i], d, e, k);
    SameHopTowards(net, m, tables, trees, cycle[i], d, k);
  }

  /** The loop for d is a loop for anything all its ways to d go by. */
  lemma LoopMoves(net: Network, m: Metric, tables: Tables, trees: seq<Tree>, d: nat, cycle: seq<nat>, y: nat)
    requires Loop(net, tables, d, cycle)
    requires forall i: nat :: i < |cycle| - 1 ==> LeadsTo(net, m, tables, trees, cycle[i], d, y)
    ensures y < |net| && Loop(net, tables, y, cycle)
  {
    forall i: nat | i < |cycle| ensures y < |net| && cycle[i] != y && Reachable(net, cycle[i], y) {
      assert LeadsTo(net, m, tables, trees, cycle[if i == |cycle| - 1 then 0 else i], d, y);
    }
    forall i: nat | i < |cycle| - 1 ensures GetNextHop(tables, cycle[i], y) == cycle[i + 1] {
      assert LeadsTo(net, m, tables, trees, cycle[i], d, y);
    }
  }

  /** There is no loop: it would lead to its own hurdle as well, and that is nearer in the first node's tree. */
  lemma {:induction false} NoLoop(net: Network, m: Metric, tables: Tables, trees: seq<Tree>, d: nat, cycle: seq<nat>)
    requires BuiltFrom(net, m, tables, trees) && d < |net| && Loop(net, tables, d, cycle)
    requires Fit(net, m, tables, trees, cycle[0], d)
    ensures false
    decreases |Way(trees, cycle[0], d)|
  {
    var y := HurdleOf(net, m, tables, trees, cycle[0], d).node;
    forall i: nat | i < |cycle| - 1 ensures LeadsTo(net, m, tables, trees, cycle[i], d, y) {
      HurdleLeads(net, m, tables, trees, d, cycle, i);
    }
    assert LeadsTo(net, m, tables, trees, cycle[0], d, y);
    LoopMoves(net, m, tables, trees, d, cycle, y);
    NoLoop(net, m, tables, trees, y, cycle);
  }

  /** From u the way to d goes by way of y, which is nearer. */
  ghost predicate LeadsTo(net: Network, m: Metric, tables: Tables, trees: seq<Tree>, u: nat, d: nat, y: nat)
  {
    && Fit(net, m, tables, trees, u, d) && Fit(net, m, tables, trees, u, y)
    && GetNextHop(tables, u, y) == GetNextHop(tables, u, d) && |Way(trees, u, y)| < |Way(trees, u, d)|
  }

  /** Main result: for every metric and every network, the built tables never lead round in a circle. */
  lemma LoopFree(net: Network, m: Metric, tables: Tables, d: nat, cycle: seq<nat>)
    requires BuiltTables(net, m, tables) && d < |net|
    ensures !Loop(net, tables, d, cycle)
  {
    if Loop(net, tables, d, cycle) {
      var trees: seq<Tree> :| BuiltFrom(net, m, tables, trees);
      BuiltIsSearched(net, m, tables, trees, cycle[0]);
      NoLoop(net, m, tables, trees, d, cycle);
    }
  }

  // ---- arrival ----

  /** Nodes visited one after the other on the way to d, no node twice. */
  ghost predicate Trail(net: Network, tables: Tables, d: nat, path: seq<nat>)
  {
    && path != []
    && (forall i :: 0 <= i < |path| ==> path[i] < |net| && Reachable(net, path[i], d))
    && (forall i :: 0 <= i < |path| - 1 ==> path[i] != d && GetNextHop(tables, path[i], d) == path[i + 1])
    && forall i, j :: 0 <= i < j < |path| ==> path[i] != path[j]
  }

  lemma {:induction false} DistinctFit(path: seq<nat>, n: nat)
    requires forall i :: 0 <= i < |path| ==> path[i] < n
    requires forall i, j :: 0 <= i < j < |path| ==> path[i] != path[j]
    ensures |path| <= n
  {
    var nodes := set i | 0 <= i < |path| :: path[i];
    DistinctCount(path);
    Crowd(nodes, n);
  }

  lemma {:induction false} DistinctCount(path: seq<nat>)
    requires forall i, j :: 0 <= i < j < |path| ==> path[i] != path[j]
    ensures |set i | 0 <= i < |path| :: path[i]| == |path|
  {
    var nodes := set i | 0 <= i < |path| :: path[i];
    if path != [] {
      var before := path[..|path| - 1];
      var fewer := set i | 0 <= i < |before| :: before[i];
      DistinctCount(before);
      assert nodes == fewer + {path[|path| - 1]};
    }
  }

  lemma HopInside(net: Network, m: Metric, tables: Tables, u: nat, d: nat)
    requires BuiltTables(net, m, tables) && u < |net| && d < |net| && u != d && Reachable(net, u, d)
    ensures 0 <= GetNextHop(tables, u, d) < |net| && Reachable(net, GetNextHop(tables, u, d), d)
  {
    var trees: seq<Tree> :| BuiltFrom(net, m, tables, trees);
    NoFarther(net, m, tables, trees, u, d);
  }

  /** A trail that comes back to one of its nodes closes a loop. */
  lemma TrailClosed(net: Network, tables: Tables, d: nat, path: seq<nat>, i: nat)
    requires Trail(net, tables, d, path) && i < |path| && path[|path| - 1] != d
    requires GetNextHop(tables, path[|path| - 1], d) == path[i]
    ensures Loop(net, tables, d, path[i..] + [path[i]])
  {
    var cycle := path[i..] + [path[i]];
    assert forall k :: 0 <= k < |cycle| - 1 ==> cycle[k] == path[i + k];
  }

  lemma NeverBack(net: Network, m: Metric, tables: Tables, d: nat, path: seq<nat>, v: nat)
    requires BuiltTables(net, m, tables) && d < |net| && Trail(net, tables, d, path)
    requires path[|path| - 1] != d && GetNextHop(tables, path[|path| - 1], d) == v
    ensures v !in path
  {
    if v in path {
      var i :| 0 <= i < |path| && path[i] == v;
      TrailClosed(net, tables, d, path, i);
      LoopFree(net, m, tables, d, path[i..] + [path[i]]);
    }
  }

  lemma TrailGrows(net: Network, tables: Tables, d: nat, path: seq<nat>, v: nat)
    requires Trail(net, tables, d, path) && v !in path && v < |net| && Reachable(net, v, d)
    requires path[|path| - 1] != d && GetNextHop(tables, path[|path| - 1], d) == v
    ensures Trail(net, tables, d, path + [v])
  {
    assert forall i :: 0 <= i < |path| ==> path[i] in path;
  }

  lemma TrailFits(net: Network, tables: Tables, d: nat, path: seq<nat>)
    requires Trail(net, tables, d, path)
    ensures |path| <= |net|
  {
    DistinctFit(path, |net|);
  }

  lemma FollowOn(tables: Tables, u: nat, v: nat, d: nat, k: nat)
    requires u != d && GetNextHop(tables, u, d) == v && Follow(tables, v, d, k) == d
    ensures Follow(tables, u, d, k + 1) == d
  {
  }

  /** Following the tables from the end of a trail arrives before the nodes run out. */
  lemma {:induction false} TrailArrives(net: Network, m: Metric, tables: Tables, d: nat, path: seq<nat>) returns (k: nat)
    requires BuiltTables(net, m, tables) && d < |net| && Trail(net, tables, d, path) && |path| <= |net|
    ensures k + |path| <= |net| && Follow(tables, path[|path| - 1], d, k) == d
    decreases |net| - |path|
  {
    var u := path[|path| - 1];
    if u == d {
      k := 0;
    } else {
      HopInside(net, m, tables, u, d);
      var v: nat := GetNextHop(tables, u, d);
      NeverBack(net, m, tables, d, path, v);
      TrailGrows(net, tables, d, path, v);
      TrailFits(net, tables, d, path + [v]);
      k := TrailArrives(net, m, tables, d, path + [v]);
      FollowOn(tables, u, v, d, k);
      k := k + 1;
    }
  }

  /**
    Main result: for every metric, links that cost nothing included, a packet forwarded by the tables the simulator
    builds gets from any node that can reach d to d in at most n - 1 hops.
   */
  lemma BuiltTablesArrive(net: Network, m: Metric, tables: Tables, u: nat, d: nat)
    requires BuiltTables(net, m, tables) && u < |net| && d < |net| && Reachable(net, u, d)
    ensures exists k: nat :: k <= |net| - 1 && Follow(tables, u, d, k) == d
  {
    var k := TrailArrives(net, m, tables, d, [u]);
  }

  lemma BuiltAreRight(net: Network, m: Metric, tables: Tables)
    requires BuiltTables(net, m, tables)
    ensures RightTables(net, m, tables)
  {
    var trees: seq<Tree> :| BuiltFrom(net, m, tables, trees);
    forall u: nat | u < |net| ensures RightTable(net, m, u, tables[u]) { assert BuiltTable(net, m, u, tables[u], trees[u]); }
  }

  /** A hop leaves one hop less to go, and nobody is more than n - 1 hops away. */
  lemma {:induction false} HopTowards(net: Network, m: Metric, tables: Tables, u: int, d: int)
    requires BuiltTables(net, m, tables) && GetNextHop(tables, u, d) != -1
    ensures Hops(tables, GetNextHop(tables, u, d), d, |net|) < Hops(tables, u, d, |net|) < |net|
  {
    BuiltAreRight(net, m, tables);
    assert RightTable(net, m, u, tables[u]) && RightRoute(net, m, u, d, tables[u][d]);
    BuiltTablesArrive(net, m, tables, u, d);
    var k: nat :| k <= |net| - 1 && Follow(tables, u, d, k) == d;
    HopCounted(tables, u, d, k, |net|);
  }
}
