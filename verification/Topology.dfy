/**
  The topology: one list of links, and the adjacency lists and interfaces that must stay in step with it
  (core/src/network/Topology.cpp). Links are shared objects, so a link toggled here is toggled everywhere.
 */
module Topologies {
  import opened Common
  import opened Links
  import opened Wires
  import PathAlgebra
  import Dijkstra

  datatype Refusal = NegativeNode | SelfLoop | BandwidthNotPositive | NegativeDelay | BadLossProbability

  datatype Interface = Interface(node: int, linkId: nat)

  /** The links at a node, oldest first: what its adjacency list must be. */
  function Touching(links: seq<Link>, node: int): (r: seq<Link>)
    ensures forall l :: l in r ==> l in links && Touches(l.wire, node)
    ensures forall l :: l in links && Touches(l.wire, node) ==> l in r
  {
    if links == [] then []
    else
      assert links == [links[0]] + links[1..];
      var rest := Touching(links[1..], node);
      if Touches(links[0].wire, node) then [links[0]] + rest else rest
  }

  /** Two interfaces for every link: what the interface list must be. */
  function Attached(links: seq<Link>): seq<Interface>
  {
    if links == [] then []
    else [Interface(links[0].wire.a, links[0].wire.id), Interface(links[0].wire.b, links[0].wire.id)] + Attached(links[1..])
  }

  /** std::remove on a vector of links. */
  function Except(links: seq<Link>, x: Link): (r: seq<Link>)
    ensures forall l :: l in r ==> l in links && l != x
    ensures forall l :: l in links && l != x ==> l in r
  {
    if links == [] then []
    else
      assert links == [links[0]] + links[1..];
      var rest := Except(links[1..], x);
      if links[0] == x then rest else [links[0]] + rest
  }

  function ExceptId(interfaces: seq<Interface>, id: nat): seq<Interface>
  {
    if interfaces == [] then []
    else
      var rest := ExceptId(interfaces[1..], id);
      if interfaces[0].linkId == id then rest else [interfaces[0]] + rest
  }

  predicate DistinctIds(links: seq<Link>)
  {
    forall i, j :: 0 <= i < j < |links| ==> links[i].wire.id != links[j].wire.id
  }

  // ---- filtering commutes ----

  lemma {:induction false} TouchingExcept(links: seq<Link>, x: Link, node: int)
    ensures Touching(Except(links, x), node) == Except(Touching(links, node), x)
  {
    if links != [] { TouchingExcept(links[1..], x, node); }
  }

  lemma {:induction false} ExceptAbsent(links: seq<Link>, x: Link)
    requires x !in links
    ensures Except(links, x) == links
  {
    if links != [] { ExceptAbsent(links[1..], x); }
  }

  lemma {:induction false} TouchingAppend(links: seq<Link>, x: Link, node: int)
    ensures Touching(links + [x], node) == Touching(links, node) + if Touches(x.wire, node) then [x] else []
  {
    if links == [] {
      assert links + [x] == [x] && [x][1..] == [];
    } else {
      assert (links + [x])[1..] == links[1..] + [x];
      TouchingAppend(links[1..], x, node);
    }
  }

  lemma {:induction false} AttachedAppend(links: seq<Link>, x: Link)
    ensures Attached(links + [x]) == Attached(links) + [Interface(x.wire.a, x.wire.id), Interface(x.wire.b, x.wire.id)]
  {
    if links == [] {
      assert links + [x] == [x] && [x][1..] == [];
      assert Attached([x]) == Attached([]) + [Interface(x.wire.a, x.wire.id), Interface(x.wire.b, x.wire.id)];
    } else {
      assert (links + [x])[1..] == links[1..] + [x];
      AttachedAppend(links[1..], x);
    }
  }

  lemma {:induction false} AttachedExcept(links: seq<Link>, x: Link)
    requires forall l :: l in links && l.wire.id == x.wire.id ==> l == x
    ensures Attached(Except(links, x)) == ExceptId(Attached(links), x.wire.id)
  {
    if links != [] {
      var l, rest := links[0], Attached(links[1..]);
      assert l in links;
      AttachedExcept(links[1..], x);
      ExceptIdPair(Interface(l.wire.a, l.wire.id), Interface(l.wire.b, l.wire.id), rest, x.wire.id);
    }
  }

  lemma ExceptIdPair(a: Interface, b: Interface, rest: seq<Interface>, id: nat)
    requires a.linkId == b.linkId
    ensures ExceptId([a, b] + rest, id) == if a.linkId == id then ExceptId(rest, id) else [a, b] + ExceptId(rest, id)
  {
    assert ([a, b] + rest)[1..] == [b] + rest && ([b] + rest)[1..] == rest;
  }

  lemma {:induction false} ExceptKeepsDistinct(links: seq<Link>, x: Link)
    requires DistinctIds(links)
    ensures DistinctIds(Except(links, x))
  {
    if links != [] {
      ExceptKeepsDistinct(links[1..], x);
      var rest := Except(links[1..], x);
      forall j | 0 <= j < |rest| ensures links[0].wire.id != rest[j].wire.id {
        assert rest[j] in links[1..];
        var k :| 0 <= k < |links[1..]| && links[1..][k] == rest[j];
        assert links[k + 1] == rest[j];
      }
    }
  }

  lemma SameIdSameLink(links: seq<Link>, x: Link)
    requires DistinctIds(links) && x in links
    ensures forall l :: l in links && l.wire.id == x.wire.id ==> l == x
  {
    var i :| 0 <= i < |links| && links[i] == x;
    forall l | l in links && l.wire.id == x.wire.id ensures l == x {
      var j :| 0 <= j < |links| && links[j] == l;
    }
  }

  // ---- links, adjacency lists and interfaces in step ----

  ghost predicate InStep(links: seq<Link>, adjacency: seq<seq<Link>>, interfaces: seq<Interface>, nextId: nat)
  {
    && DistinctIds(links)
    && (forall l :: l in links ==> l.wire.id < nextId && l.wire.a < |adjacency| && l.wire.b < |adjacency|)
    && (forall u :: 0 <= u < |adjacency| ==> adjacency[u] == Touching(links, u))
    && interfaces == Attached(links)
  }

  /** Nodes appended without links. */
  function WithNodes(adjacency: seq<seq<Link>>, size: nat): (r: seq<seq<Link>>)
    ensures |r| == (if size > |adjacency| then size else |adjacency|)
    ensures forall u :: 0 <= u < |r| ==> r[u] == if u < |adjacency| then adjacency[u] else []
  {
    if size <= |adjacency| then adjacency else adjacency + seq(size - |adjacency|, _ => [])
  }

  lemma GrowKeepsStep(links: seq<Link>, adjacency: seq<seq<Link>>, interfaces: seq<Interface>, nextId: nat, size: nat)
    requires InStep(links, adjacency, interfaces, nextId)
    ensures InStep(links, WithNodes(adjacency, size), interfaces, nextId)
  {
    forall u | |adjacency| <= u < size ensures Touching(links, u) == [] { NothingTouching(links, u); }
  }

  lemma AttachKeepsStep(links: seq<Link>, adjacency: seq<seq<Link>>, interfaces: seq<Interface>, nextId: nat, x: Link)
    requires InStep(links, adjacency, interfaces, nextId) && x.wire.id == nextId
    requires x.wire.a < |adjacency| && x.wire.b < |adjacency|
    ensures
      var a, b := x.wire.a, x.wire.b;
      InStep(links + [x], adjacency[a := adjacency[a] + [x]][b := adjacency[b] + [x]],
             interfaces + [Interface(a, x.wire.id), Interface(b, x.wire.id)], nextId + 1)
  {
    AttachedAppend(links, x);
    forall u | 0 <= u < |adjacency|
      ensures Touching(links + [x], u) == adjacency[u] + if u == x.wire.a || u == x.wire.b then [x] else []
    {
      TouchingAppend(links, x, u);
    }
  }

  lemma DetachKeepsStep(links: seq<Link>, adjacency: seq<seq<Link>>, interfaces: seq<Interface>, nextId: nat, x: Link)
    requires InStep(links, adjacency, interfaces, nextId) && x in links
    ensures
      var a, b := x.wire.a, x.wire.b;
      InStep(Except(links, x), adjacency[a := Except(adjacency[a], x)][b := Except(adjacency[b], x)],
             ExceptId(interfaces, x.wire.id), nextId)
  {
    SameIdSameLink(links, x);
    ExceptKeepsDistinct(links, x);
    AttachedExcept(links, x);
    forall u | 0 <= u < |adjacency|
      ensures Touching(Except(links, x), u) == if u == x.wire.a || u == x.wire.b then Except(adjacency[u], x) else adjacency[u]
    {
      TouchingExcept(links, x, u);
      if u != x.wire.a && u != x.wire.b { ExceptAbsent(adjacency[u], x); }
    }
  }

  // ---- the object ----

  class Topology {
    var links: seq<Link>
    var adjacency: seq<seq<Link>>
    var active: seq<bool>
    var interfaces: seq<Interface>
    var nextId: nat

    /** Links, adjacency lists and interfaces describe the same network. */
    ghost predicate Valid()
      reads this
    {
      |active| == |adjacency| && InStep(links, adjacency, interfaces, nextId)
    }

    constructor (nodes: nat)
      ensures Valid() && links == [] && |adjacency| == nodes && nextId == 0
      ensures active == seq(nodes, _ => true)
    {
      links, interfaces, nextId := [], [], 0;
      adjacency := seq(nodes, _ => []);
      active := seq(nodes, _ => true);
    }

    /** A copy has lists of its own, but the links in them are the same objects. */
    constructor Copy(t: Topology)
      requires t.Valid()
      ensures Valid() && links == t.links && adjacency == t.adjacency && active == t.active
      ensures interfaces == t.interfaces && nextId == t.nextId
    {
      links, adjacency, active, interfaces, nextId := t.links, t.adjacency, t.active, t.interfaces, t.nextId;
    }

    function Refused(a: int, b: int, bandwidth: real, delay: real, lossProb: real): Result<(), Refusal>
    {
      if a < 0 || b < 0 then Err(NegativeNode)
      else if a == b then Err(SelfLoop)
      else if bandwidth <= 0.0 then Err(BandwidthNotPositive)
      else if delay < 0.0 then Err(NegativeDelay)
      else if lossProb < 0.0 || lossProb > 1.0 then Err(BadLossProbability)
      else Ok(())
    }

    /** A refused link changes nothing; an accepted one is last everywhere, and missing nodes are created. */
    method AddLinkPtr(a: int, b: int, bandwidth: real, delay: real, lossProb: real, mode: Mode) returns (r: Result<Link, Refusal>)
      requires Valid()
      modifies this
      ensures Valid()
      ensures var refused := Refused(a, b, bandwidth, delay, lossProb);
        if refused.Err? then
          r == Err(refused.error) && links == old(links) && adjacency == old(adjacency) && active == old(active) &&
          nextId == old(nextId)
        else
          && r.Ok? && fresh(r.value) && links == old(links) + [r.value]
          && r.value.State() == NewLink(Wire(old(nextId), a, b, bandwidth, delay, mode)) && nextId == old(nextId) + 1
          && |adjacency| == (if a < old(|adjacency|) && b < old(|adjacency|) then old(|adjacency|) else if a > b then a + 1 else b + 1)
          && active == old(active) + seq(|active| - old(|active|), _ => true)
    {
      var refused := Refused(a, b, bandwidth, delay, lossProb);
      if refused.Err? { return Err(refused.error); }
      var wire: Wire := Wire(nextId, a, b, bandwidth, delay, mode);
      var link := new Link(wire);
      Grow(if a > b then a else b);
      Attach(link);
      r := Ok(link);
    }

    /** Create nodes up to a given one. */
    method Grow(maxNode: nat)
      requires Valid()
      modifies this
      ensures Valid()
      ensures links == old(links) && nextId == old(nextId)
      ensures |adjacency| == if maxNode < old(|adjacency|) then old(|adjacency|) else maxNode + 1
      ensures active == old(active) + seq(|active| - old(|active|), _ => true)
    {
      if maxNode >= |adjacency| {
        GrowKeepsStep(links, adjacency, interfaces, nextId, maxNode + 1);
        active := active + seq(maxNode + 1 - |adjacency|, _ => true);
        adjacency := WithNodes(adjacency, maxNode + 1);
      }
    }

    /** List a fresh link everywhere it belongs. */
    method Attach(link: Link)
      requires Valid() && link.wire.id == nextId && link.wire.a < |adjacency| && link.wire.b < |adjacency|
      modifies this
      ensures Valid() && links == old(links) + [link] && nextId == old(nextId) + 1
      ensures |adjacency| == old(|adjacency|) && active == old(active)
    {
      var a, b := link.wire.a, link.wire.b;
      AttachKeepsStep(links, adjacency, interfaces, nextId, link);
      nextId := nextId + 1;
      links := links + [link];
      adjacency := adjacency[a := adjacency[a] + [link]];
      adjacency := adjacency[b := adjacency[b] + [link]];
      interfaces := interfaces + [Interface(a, link.wire.id), Interface(b, link.wire.id)];
    }

    method AddNode() returns (id: nat)
      requires Valid()
      modifies this
      ensures Valid() && id == old(|adjacency|) && |adjacency| == id + 1
      ensures links == old(links) && active == old(active) + [true] && nextId == old(nextId)
    {
      id := |adjacency|;
      GrowKeepsStep(links, adjacency, interfaces, nextId, id + 1);
      assert adjacency + [[]] == WithNodes(adjacency, id + 1);
      adjacency := adjacency + [[]];
      active := active + [true];
    }

    /** Take one link out of the list, both adjacency lists and the interfaces. */
    method Detach(link: Link)
      requires Valid() && link in links
      modifies this
      ensures Valid() && links == Except(old(links), link)
      ensures |adjacency| == old(|adjacency|) && active == old(active) && nextId == old(nextId)
    {
      var a, b := link.wire.a, link.wire.b;
      DetachKeepsStep(links, adjacency, interfaces, nextId, link);
      links := Except(links, link);
      adjacency := adjacency[a := Except(adjacency[a], link)];
      adjacency := adjacency[b := Except(adjacency[b], link)];
      interfaces := ExceptId(interfaces, link.wire.id);
    }

    /** The node keeps its index but loses all its links; other links keep their order. */
    method RemoveNode(id: int) returns (ok: bool)
      requires Valid()
      modifies this
      ensures Valid() && ok == (0 <= id < old(|adjacency|))
      ensures |adjacency| == old(|adjacency|) && nextId == old(nextId)
      ensures links == if ok then WithoutNode(old(links), LinkWire, id) else old(links)
      ensures active == if ok then old(active)[id := false] else old(active)
      ensures ok ==> adjacency[id] == []
    {
      if id < 0 || id >= |adjacency| { return false; }
      var toRemove := Touching(links, id);
      TouchingDistinct(links, id);
      SparedNone(links);
      var i := 0;
      while i < |toRemove|
        invariant 0 <= i <= |toRemove|
        invariant Valid() && |adjacency| == old(|adjacency|) && active == old(active) && nextId == old(nextId)
        invariant toRemove == Touching(old(links), id)
        invariant links == Spared(old(links), toRemove[..i])
      {
        SparedNext(old(links), toRemove, i);
        NextStillThere(old(links), toRemove, i);
        Detach(toRemove[i]);
        i := i + 1;
      }
      assert toRemove[..i] == toRemove;
      SparedTouching(old(links), toRemove, id);
      adjacency := adjacency[id := []];
      active := active[id := false];
      NothingTouching(links, id);
      ok := true;
    }

    /** The loop that looks for the oldest link between two nodes. */
    method Locate(a: int, b: int) returns (i: int)
      ensures i == FindJoin(links, LinkWire, a, b)
    {
      var k := 0;
      while k < |links| && !Joins(links[k].wire, a, b)
        invariant 0 <= k <= |links| && forall j :: 0 <= j < k ==> !Joins(links[j].wire, a, b)
      {
        k := k + 1;
      }
      FindJoinUnique(links, LinkWire, a, b, k);
      i := if k == |links| then -1 else k;
    }

    /** The oldest link between the two nodes, if any, goes. */
    method RemoveLink(a: int, b: int) returns (ok: bool)
      requires Valid()
      modifies this
      ensures Valid() && |adjacency| == old(|adjacency|) && active == old(active) && nextId == old(nextId)
      ensures ok == (FindJoin(old(links), LinkWire, a, b) != -1)
      ensures links == if ok then Except(old(links), old(links)[FindJoin(old(links), LinkWire, a, b)]) else old(links)
    {
      var i := Locate(a, b);
      if i == -1 { return false; }
      Detach(links[i]);
      ok := true;
    }

    /** The oldest link between the two nodes is set up or down; its adjacency entries are the same object. */
    method SetLinkUp(a: int, b: int, up: bool) returns (ok: bool)
      requires Valid()
      modifies links
      ensures Valid() && ok == (FindJoin(links, LinkWire, a, b) != -1)
      ensures ok ==> var l := links[FindJoin(links, LinkWire, a, b)]; l.State() == old(l.State()).(up := up)
      ensures forall l :: l in links && !(ok && l == links[FindJoin(links, LinkWire, a, b)]) ==> unchanged(l)
    {
      var i := Locate(a, b);
      if i == -1 { return false; }
      links[i].SetUp(up);
      ok := true;
    }
  }

  lemma {:induction false} NothingTouching(links: seq<Link>, node: int)
    requires forall l :: l in links ==> !Touches(l.wire, node)
    ensures Touching(links, node) == []
  {
    if links != [] {
      assert links[0] in links;
      NothingTouching(links[1..], node);
    }
  }

  /** The links outside a list of condemned ones. */
  function Spared(links: seq<Link>, gone: seq<Link>): (r: seq<Link>)
    ensures forall l :: l in r ==> l in links && l !in gone
    ensures forall l :: l in links && l !in gone ==> l in r
  {
    if links == [] then []
    else
      assert links == [links[0]] + links[1..];
      var rest := Spared(links[1..], gone);
      if links[0] in gone then rest else [links[0]] + rest
  }

  lemma {:induction false} SparedNext(links: seq<Link>, gone: seq<Link>, i: nat)
    requires i < |gone|
    ensures Spared(links, gone[..i + 1]) == Except(Spared(links, gone[..i]), gone[i])
  {
    assert gone[..i + 1] == gone[..i] + [gone[i]];
    if links != [] { SparedNext(links[1..], gone, i); }
  }

  lemma {:induction false} SparedNone(links: seq<Link>)
    ensures Spared(links, []) == links
  {
    if links != [] { SparedNone(links[1..]); }
  }

  /** Removing the links at a node one by one is the same as filtering them out. */
  lemma {:induction false} SparedTouching(links: seq<Link>, gone: seq<Link>, node: int)
    requires forall l :: l in links ==> (l in gone <==> Touches(l.wire, node))
    ensures Spared(links, gone) == WithoutNode(links, LinkWire, node)
  {
    if links != [] {
      assert links[0] in links;
      SparedTouching(links[1..], gone, node);
    }
  }

  lemma {:induction false} TouchingDistinct(links: seq<Link>, node: int)
    requires DistinctIds(links)
    ensures DistinctIds(Touching(links, node))
  {
    if links != [] {
      TouchingDistinct(links[1..], node);
      var rest := Touching(links[1..], node);
      forall j | 0 <= j < |rest| ensures links[0].wire.id != rest[j].wire.id {
        assert rest[j] in links[1..];
        var k :| 0 <= k < |links[1..]| && links[1..][k] == rest[j];
        assert links[k + 1] == rest[j];
      }
    }
  }

  lemma NextStillThere(links: seq<Link>, gone: seq<Link>, i: nat)
    requires DistinctIds(gone) && i < |gone| && forall l :: l in gone ==> l in links
    ensures gone[i] in Spared(links, gone[..i])
  {
    assert forall k :: 0 <= k < i ==> gone[..i][k] == gone[k] && gone[k].wire.id != gone[i].wire.id;
  }

  // ---- what the rest of the program sees ----

  /** The oldest link of a list that is in use and leads from node to next. */
  function OldestTo(links: seq<Link>, usable: set<Link>, node: int, next: int): (r: seq<Link>)
    ensures |r| <= 1
  {
    if links == [] then []
    else if links[0] in usable && Other(links[0].wire, node) == next then [links[0]]
    else OldestTo(links[1..], usable, node, next)
  }

  /** Searching a node's adjacency list finds the same link as searching the whole list. */
  lemma {:induction false} AdjacencyFindsOldest(links: seq<Link>, usable: set<Link>, node: int, next: int)
    requires next != -1
    ensures OldestTo(Touching(links, node), usable, node, next) == OldestTo(links, usable, node, next)
  {
    if links != [] { AdjacencyFindsOldest(links[1..], usable, node, next); }
  }

  /** The routing view of a link. */
  function RoutingLink(l: Link): PathAlgebra.Edge
    reads l
  {
    PathAlgebra.Edge(l.wire, l.up)
  }

  function RoutingLinks(links: seq<Link>): (r: seq<PathAlgebra.Edge>)
    reads links
    ensures |r| == |links| && forall i :: 0 <= i < |links| ==> r[i] == RoutingLink(links[i])
  {
    if links == [] then [] else [RoutingLink(links[0])] + RoutingLinks(links[1..])
  }

  function RoutingView(adjacency: seq<seq<Link>>): (net: Dijkstra.Network)
    reads set u, i | 0 <= u < |adjacency| && 0 <= i < |adjacency[u]| :: adjacency[u][i]
    ensures |net| == |adjacency| && forall u :: 0 <= u < |net| ==> net[u] == RoutingLinks(adjacency[u])
  {
    if adjacency == [] then [] else [RoutingLinks(adjacency[0])] + RoutingView(adjacency[1..])
  }

  /** A topology kept in step is one the route computation accepts, and every link can be taken from both its ends. */
  lemma RoutingAccepts(t: Topology)
    requires t.Valid()
    ensures Dijkstra.WellFormed(RoutingView(t.adjacency))
    ensures forall l :: l in t.links ==>
      RoutingLink(l) in RoutingView(t.adjacency)[l.wire.a] && RoutingLink(l) in RoutingView(t.adjacency)[l.wire.b]
  {
    var net: seq<seq<PathAlgebra.Edge>> := RoutingView(t.adjacency);
    forall u, i | 0 <= u < |net| && 0 <= i < |net[u]|
      ensures net[u][i].wire.a < |net| && net[u][i].wire.b < |net| && Touches(net[u][i].wire, u)
    {
      assert t.adjacency[u][i] in Touching(t.links, u);
    }
    forall l | l in t.links ensures RoutingLink(l) in net[l.wire.a] && RoutingLink(l) in net[l.wire.b] {
      ListedAt(t, l, l.wire.a);
      ListedAt(t, l, l.wire.b);
    }
  }

  lemma ListedAt(t: Topology, l: Link, u: nat)
    requires t.Valid() && l in t.links && Touches(l.wire, u)
    ensures u < |t.adjacency| && RoutingLink(l) in RoutingView(t.adjacency)[u]
  {
    assert l in t.adjacency[u];
    var i :| 0 <= i < |t.adjacency[u]| && t.adjacency[u][i] == l;
    assert RoutingView(t.adjacency)[u][i] == RoutingLink(l);
  }
}
