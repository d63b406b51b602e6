/**
  Routing under topology change: every accepted change is followed by a rebuild, so as long as rebuilds are right
  the tables always fit the topology as it is, and a packet is forwarded exactly when there is a way to go on.
 */
module EngineRoutes {
  import opened Common
  import opened EventQueues
  import opened Wires
  import opened Links
  import opened Dijkstra
  import opened RouteMeaning
  import opened RoutingTable
  import opened Forwarding
  import opened LoopFreedom
  import opened Engine
  import opened EngineSafety
  import PathAlgebra

  // ---- the network of a topology ----

  lemma {:induction false} EdgesAreLinks(links: seq<LinkState>, node: int, e: PathAlgebra.Edge)
    ensures e in EdgesAt(links, node) <==> Touches(e.wire, node) && exists l :: l in links && EdgeOf(l) == e
  {
    if links != [] {
      assert links == [links[0]] + links[1..];
      EdgesAreLinks(links[1..], node, e);
      assert links[0] in links;
      assert forall l :: l in links[1..] ==> l in links;
    }
  }

  /** Busy times and queues do not concern the routes. */
  predicate SameEdges(a: seq<LinkState>, b: seq<LinkState>)
  {
    |a| == |b| && forall i :: 0 <= i < |a| ==> EdgeOf(a[i]) == EdgeOf(b[i])
  }

  lemma {:induction false} SameEdgesAt(a: seq<LinkState>, b: seq<LinkState>, node: int)
    requires SameEdges(a, b)
    ensures EdgesAt(a, node) == EdgesAt(b, node)
  {
    if a != [] {
      SameEdgesAt(a[1..], b[1..], node);
      assert EdgeOf(a[0]) == EdgeOf(b[0]);
    }
  }

  lemma SameNetwork(a: seq<LinkState>, b: seq<LinkState>, nodes: nat)
    requires SameEdges(a, b)
    ensures NetworkOf(a, nodes) == NetworkOf(b, nodes)
  {
    forall u | 0 <= u < nodes ensures NetworkOf(a, nodes)[u] == NetworkOf(b, nodes)[u] { SameEdgesAt(a, b, u); }
  }

  /** What decides about routes is as it was. */
  predicate SameRoutes(w: World, w': World)
  {
    SameEdges(w.links, w'.links) && w'.nodes == w.nodes && w'.metric == w.metric && w'.tables == w.tables
  }

  lemma SameRoutesRouted(w: World, w': World)
    requires SameRoutes(w, w') && Routed(w)
    ensures Routed(w')
  {
    SameNetwork(w.links, w'.links, w.nodes);
  }

  // ---- what leaves the routes alone ----

  lemma ReservedKeepsEdge(l: LinkState, from: int, to: int, until: real)
    ensures EdgeOf(Reserved(l, from, to, until)) == EdgeOf(l)
  {
    SlotsAgree(l, from, to, 0.0, until);
  }

  lemma CarriedKeepsEdge(l: LinkState, t: Transmission)
    ensures EdgeOf(Carried(l, t)) == EdgeOf(l)
  {
    ReservedKeepsEdge(l, t.from, t.to, t.arrival);
  }

  lemma SendKeepsRoutes(w: World, p: Packet, drop: bool)
    ensures SameRoutes(w, SendThrough(w, p, drop).0)
  {
    var next := GetNextHop(w.tables, p.current, p.destination);
    var i := FindUp(w.links, p.current, next);
    if next != -1 && 0 <= p.current < w.nodes && i != -1 {
      var l := w.links[i];
      if CanQueue(l, p.current, Other(l.wire, p.current)) {
        var t := Journey(l, p, w.now);
        ReservedKeepsEdge(l, t.from, t.to, t.arrival);
        CarriedKeepsEdge(l, t);
      }
    }
  }

  lemma ReleaseKeepsRoutes(w: World, p: Packet)
    ensures SameRoutes(w, Release(w, p))
  {
  }

  lemma SameRoutesChain(a: World, b: World, c: World)
    requires SameRoutes(a, b) && SameRoutes(b, c)
    ensures SameRoutes(a, c)
  {
  }

  lemma BegunKeepsRoutes(w: World, drop: bool)
    requires w.pending != []
    ensures SameRoutes(w, Begun(w, drop))
  {
    match w.pending[0].event
    case Arrival(p) =>
      var released := Release(Popped(w), p);
      ReleaseKeepsRoutes(Popped(w), p);
      SendKeepsRoutes(released, p, drop);
      SameRoutesChain(w, released, SendThrough(released, p, drop).0);
    case Reaction(_) =>
  }

  // ---- every run ----

  ghost predicate AllRebuildRightly(w: World, actions: seq<Action>)
  {
    actions == [] || (AllRebuildRightly(w, actions[..|actions| - 1]) &&
                      RebuildsRightly(ActAll(w, actions[..|actions| - 1]), actions[|actions| - 1]))
  }

  ghost predicate StepRebuildsRightly(w: World, input: Input)
  {
    match input
    case ProcessEvent(drop, reactions) =>
      w.pending == [] || AllRebuildRightly(Begun(w, drop), Following(w, reactions))
    case Outside(action) => RebuildsRightly(w, action)
  }

  ghost predicate RunRebuildsRightly(w: World, inputs: seq<Input>)
  {
    inputs == [] || (RunRebuildsRightly(w, inputs[..|inputs| - 1]) &&
                     StepRebuildsRightly(Run(w, inputs[..|inputs| - 1]), inputs[|inputs| - 1]))
  }

  lemma ActKeepsRouted(w: World, action: Action)
    requires Routed(w) && RebuildsRightly(w, action)
    ensures Routed(Act(w, action))
  {
    match action
    case Send(source, destination, size, tag, drop) =>
      var p := Packet(source, destination, source, -1, 0, 0, size, 0.0, 0.0, tag);
      SendKeepsRoutes(w, p, drop);
      SameRoutesRouted(w, SendThrough(w, p, drop).0);
    case Build(_, _) =>
    case Schedule(_) =>
    case Reshape(_, _) =>
  }

  lemma {:induction false} ActAllKeepsRouted(w: World, actions: seq<Action>)
    requires Routed(w) && AllRebuildRightly(w, actions)
    ensures Routed(ActAll(w, actions))
  {
    if actions != [] {
      ActAllKeepsRouted(w, actions[..|actions| - 1]);
      ActKeepsRouted(ActAll(w, actions[..|actions| - 1]), actions[|actions| - 1]);
    }
  }

  lemma {:induction false} RunKeepsRouted(w: World, inputs: seq<Input>)
    requires Initial(w) && RunRebuildsRightly(w, inputs)
    ensures Routed(Run(w, inputs))
  {
    if inputs != [] {
      var before, input := Run(w, inputs[..|inputs| - 1]), inputs[|inputs| - 1];
      RunKeepsRouted(w, inputs[..|inputs| - 1]);
      match input {
        case Outside(action) => ActKeepsRouted(before, action);
        case ProcessEvent(drop, reactions) =>
          if before.pending != [] {
            BegunKeepsRoutes(before, drop);
            SameRoutesRouted(before, Begun(before, drop));
            ActAllKeepsRouted(Begun(before, drop), Following(before, reactions));
          }
      }
    }
  }

  /** A next hop in the table is there to be taken. */
  lemma HopIsUp(w: World, u: nat, d: nat)
    requires Routed(w) && u < w.nodes && d < w.nodes && u != d && GetNextHop(w.tables, u, d) != -1
    ensures FindUp(w.links, u, GetNextHop(w.tables, u, d)) != -1
  {
    var net: seq<seq<PathAlgebra.Edge>>, next := NetworkOf(w.links, w.nodes), GetNextHop(w.tables, u, d);
    BuiltAreRight(net, w.metric, w.tables);
    ForwardedIffReachable(net, w.metric, w.tables, u, d);
    var i :| 0 <= i < |net[u]| && net[u][i].up && Other(net[u][i].wire, u) == next;
    EdgesAreLinks(w.links, u, net[u][i]);
    var l :| l in w.links && EdgeOf(l) == net[u][i];
    var k :| 0 <= k < |w.links| && w.links[k] == l;
    assert w.links[k].up && Other(w.links[k].wire, u) == next;
  }

  /** The link a packet would be sent over next. */
  function NextLink(w: World, p: Packet): int { FindUp(w.links, p.current, GetNextHop(w.tables, p.current, p.destination)) }

  /**
    Main result: in every run whose rebuilds are right, whatever the topology has become, a packet away from its
    destination is sent on if and only if some walk of up links leads there, the next link has room, and the link
    does not drop it.
   */
  lemma {:induction false} ForwardedIffPossible(w: World, inputs: seq<Input>, p: Packet, drop: bool)
    requires Initial(w) && RunRebuildsRightly(w, inputs)
    requires var w' := Run(w, inputs); 0 <= p.current < w'.nodes && 0 <= p.destination < w'.nodes && p.current != p.destination
    ensures var w' := Run(w, inputs);
      var reachable := Reachable(NetworkOf(w'.links, w'.nodes), p.current, p.destination);
      && (reachable ==> NextLink(w', p) != -1)
      && (SendThrough(w', p, drop).1 <==>
            && reachable && !drop
            && CanQueue(w'.links[NextLink(w', p)], p.current, GetNextHop(w'.tables, p.current, p.destination)))
  {
    RunKeepsRouted(w, inputs);
    var w' := Run(w, inputs);
    BuiltAreRight(NetworkOf(w'.links, w'.nodes), w'.metric, w'.tables);
    ForwardedIffReachable(NetworkOf(w'.links, w'.nodes), w'.metric, w'.tables, p.current, p.destination);
    if GetNextHop(w'.tables, p.current, p.destination) != -1 {
      HopIsUp(w', p.current, p.destination);
      assert w'.links[NextLink(w', p)].up;
    }
  }

  /** And whatever the topology has become, the tables lead from any node to any other it can reach in nodes - 1 hops. */
  lemma RoutesArrive(w: World, inputs: seq<Input>, u: nat, d: nat)
    requires Initial(w) && RunRebuildsRightly(w, inputs)
    requires var w' := Run(w, inputs); u < w'.nodes && d < w'.nodes && Reachable(NetworkOf(w'.links, w'.nodes), u, d)
    ensures var w' := Run(w, inputs); exists k: nat :: k <= w'.nodes - 1 && Follow(w'.tables, u, d, k) == d
  {
    RunKeepsRouted(w, inputs);
    var w' := Run(w, inputs);
    BuiltTablesArrive(NetworkOf(w'.links, w'.nodes), w'.metric, w'.tables, u, d);
  }

  /**
    Under every metric but bandwidth they lead over the start of a walk of up links that no other walk is shorter than,
    by delay, number of links, or delay over bandwidth.
   */
  lemma RoutesAreShortest(w: World, inputs: seq<Input>, u: nat, d: nat)
    requires Initial(w) && RunRebuildsRightly(w, inputs)
    requires var w' := Run(w, inputs); u < w'.nodes && d < w'.nodes && !w'.metric.Bandwidth?
    ensures var w' := Run(w, inputs); var net := NetworkOf(w'.links, w'.nodes);
      Reachable(net, u, d) ==>
        exists best :: Follows(net, u, d, GetNextHop(w'.tables, u, d), best)
                       && forall walk :: IsWalk(net, u, walk, d) ==> Length(w'.metric, best) <= Length(w'.metric, walk)
  {
    RunKeepsRouted(w, inputs);
    var w' := Run(w, inputs);
    var net := NetworkOf(w'.links, w'.nodes);
    if Reachable(net, u, d) {
      var trees :| BuiltFrom(net, w'.metric, w'.tables, trees);
      assert BuiltTable(net, w'.metric, u, w'.tables[u], trees[u]);
      TableIsShortest(net, w'.metric, u, w'.tables[u], d);
      var best :| Follows(net, u, d, w'.tables[u][d].nextHop, best) && Length(w'.metric, best) == w'.tables[u][d].distance.value;
      assert Follows(net, u, d, GetNextHop(w'.tables, u, d), best);
    }
  }

  // ---- what a change comes to ----

  /** An up link of the topology between two nodes. */
  ghost predicate Adjacent(w: World, u: int, v: int)
  {
    exists l :: l in w.links && l.up && Touches(l.wire, u) && Other(l.wire, u) == v
  }

  /** Every hop of a walk goes over an up link of the topology. */
  lemma HopIsLink(w: World, h: Hop)
    requires Usable(NetworkOf(w.links, w.nodes), h)
    ensures Adjacent(w, h.from, Other(h.link.wire, h.from))
  {
    EdgesAreLinks(w.links, h.from, h.link);
    var l :| l in w.links && EdgeOf(l) == h.link;
    assert l.up && Touches(l.wire, h.from) && Other(l.wire, h.from) == Other(h.link.wire, h.from);
  }

  /** A next hop is a neighbour over an up link. */
  lemma NextHopIsAdjacent(w: World, u: nat, d: nat)
    requires Routed(w) && u < w.nodes && d < w.nodes && GetNextHop(w.tables, u, d) != -1
    ensures Adjacent(w, u, GetNextHop(w.tables, u, d))
  {
    var net := NetworkOf(w.links, w.nodes);
    var trees :| BuiltFrom(net, w.metric, w.tables, trees);
    assert BuiltTable(net, w.metric, u, w.tables[u], trees[u]);
    assert RightRoute(net, w.metric, u, d, w.tables[u][d]);
    var walk :| StartsWith(net, w.metric, u, w.tables[u][d].nextHop, d, w.tables[u][d].distance, walk);
    HopIsLink(w, walk[0]);
  }

  /** A node without up links is reached from nowhere else. */
  lemma Unreached(w: World, u: nat, v: nat)
    requires u != v && forall x :: !Adjacent(w, x, v)
    ensures !Reachable(NetworkOf(w.links, w.nodes), u, v)
  {
    forall walk | IsWalk(NetworkOf(w.links, w.nodes), u, walk, v) ensures false {
      HopIsLink(w, walk[|walk| - 1]);
    }
  }

  lemma NoWayNoHop(w: World, u: nat, d: nat)
    requires Routed(w) && u < w.nodes && d < w.nodes
    ensures !Reachable(NetworkOf(w.links, w.nodes), u, d) ==> GetNextHop(w.tables, u, d) == -1
  {
    var net := NetworkOf(w.links, w.nodes);
    var trees :| BuiltFrom(net, w.metric, w.tables, trees);
    assert BuiltTable(net, w.metric, u, w.tables[u], trees[u]);
    assert RightRoute(net, w.metric, u, d, w.tables[u][d]);
  }

  /** The engine after a change it accepts and the rebuild that follows. */
  ghost predicate Reshaped(w: World, change: Change, rebuilt: Tables, w': World)
  {
    && Accepts(w, change) && w' == Act(w, Reshape(change, rebuilt))
    && BuiltTables(NetworkOf(w'.links, w'.nodes), w'.metric, rebuilt)
  }

  /** A node that is removed is cut off: nobody reaches it or goes through it, and no other link is lost. */
  lemma RemovedNodeIsCutOff(w: World, node: nat, rebuilt: Tables, w': World, u: nat, d: nat)
    requires Reshaped(w, DeleteNode(node), rebuilt, w') && u < w.nodes && d < w.nodes && u != node
    ensures !Reachable(NetworkOf(w'.links, w'.nodes), u, node)
    ensures GetNextHop(w'.tables, u, d) != node && (d == node ==> GetNextHop(w'.tables, u, d) == -1)
    ensures forall l :: l in w.links && !Touches(l.wire, node) ==> l in w'.links
  {
    forall x ensures !Adjacent(w', x, node) {}
    Unreached(w', u, node);
    if GetNextHop(w'.tables, u, d) != -1 { NextHopIsAdjacent(w', u, d); }
    NoWayNoHop(w', u, d);
  }

  /** No two links join the same ends. */
  predicate OnlyJoin(links: seq<LinkState>, a: int, b: int)
  {
    forall i, j :: 0 <= i < j < |links| && Joins(links[i].wire, a, b) ==> !Joins(links[j].wire, a, b)
  }

  lemma ToggledOnly(w: World, a: nat, b: nat, up: bool, i: nat)
    requires Accepts(w, ToggleLink(a, b, up)) && OnlyJoin(w.links, a, b) && i < |w.links|
    ensures Changed(w, ToggleLink(a, b, up)).links[i] == if Joins(w.links[i].wire, a, b) then w.links[i].(up := up) else w.links[i]
  {
    var k := FindJoin(w.links, StateWire, a, b);
    assert Joins(StateWire(w.links[k]), a, b);
    assert i < k ==> !Joins(StateWire(w.links[i]), a, b);
    assert k < i ==> !Joins(w.links[i].wire, a, b);
  }

  lemma NoUpLink(w: World, a: int, b: int)
    requires forall i :: 0 <= i < |w.links| && Joins(w.links[i].wire, a, b) ==> !w.links[i].up
    ensures !Adjacent(w, a, b)
  {
    forall l | l in w.links && Touches(l.wire, a) && Other(l.wire, a) == b ensures !l.up {
      var i :| 0 <= i < |w.links| && w.links[i] == l;
      assert Joins(l.wire, a, b);
    }
  }

  /** A link that is taken down, the only one between its ends, is a next hop no more; the others stay as they are. */
  lemma DownLinkIsAvoided(w: World, a: nat, b: nat, rebuilt: Tables, w': World, d: nat)
    requires Reshaped(w, ToggleLink(a, b, false), rebuilt, w') && OnlyJoin(w.links, a, b) && a < w.nodes && d < w.nodes
    ensures GetNextHop(w'.tables, a, d) != b
    ensures |w'.links| == |w.links| && forall i :: 0 <= i < |w.links| ==>
      w'.links[i] == if Joins(w.links[i].wire, a, b) then w.links[i].(up := false) else w.links[i]
  {
    forall i | 0 <= i < |w.links|
      ensures w'.links[i] == if Joins(w.links[i].wire, a, b) then w.links[i].(up := false) else w.links[i]
    {
      ToggledOnly(w, a, b, false, i);
    }
    NoUpLink(w', a, b);
    if GetNextHop(w'.tables, a, d) != -1 { NextHopIsAdjacent(w', a, d); }
  }

  /** The two ends of an up link reach each other at once. */
  lemma UpLinkJoins(w: World, l: LinkState)
    requires l in w.links && l.up && l.wire.a < w.nodes && l.wire.b < w.nodes
    ensures Reachable(NetworkOf(w.links, w.nodes), l.wire.a, l.wire.b) && Reachable(NetworkOf(w.links, w.nodes), l.wire.b, l.wire.a)
  {
    var net := NetworkOf(w.links, w.nodes);
    EdgesAreLinks(w.links, l.wire.a, EdgeOf(l));
    EdgesAreLinks(w.links, l.wire.b, EdgeOf(l));
    var there, back := [Hop(l.wire.a, EdgeOf(l))], [Hop(l.wire.b, EdgeOf(l))];
    assert there[..0] == [] && back[..0] == [];
    assert IsWalk(net, l.wire.a, there, l.wire.b) && IsWalk(net, l.wire.b, back, l.wire.a);
  }

  /** A link created or brought up joins its ends from then on, and leaves the other links as they are. */
  lemma NewLinkJoins(w: World, a: nat, b: nat, bandwidth: real, delay: real, lossProb: real, mode: Mode, rebuilt: Tables, w': World)
    requires Reshaped(w, CreateLink(a, b, bandwidth, delay, lossProb, mode), rebuilt, w')
    ensures Reachable(NetworkOf(w'.links, w'.nodes), a, b) && Reachable(NetworkOf(w'.links, w'.nodes), b, a)
    ensures |w'.links| == |w.links| + 1 && w'.links[..|w.links|] == w.links
  {
    UpLinkJoins(w', w'.links[|w.links|]);
  }

  lemma RaisedLinkJoins(w: World, a: nat, b: nat, rebuilt: Tables, w': World)
    requires Reshaped(w, ToggleLink(a, b, true), rebuilt, w') && a < w.nodes && b < w.nodes
    ensures Reachable(NetworkOf(w'.links, w'.nodes), a, b) && Reachable(NetworkOf(w'.links, w'.nodes), b, a)
  {
    UpLinkJoins(w', w'.links[FindJoin(w.links, StateWire, a, b)]);
  }

  /** A link that is removed is gone, and only that one, the oldest between its ends. */
  lemma RemovedLinkIsGone(w: World, a: nat, b: nat, rebuilt: Tables, w': World)
    requires Reshaped(w, DeleteLink(a, b), rebuilt, w')
    ensures exists i :: 0 <= i < |w.links| && Joins(w.links[i].wire, a, b) && w'.links == w.links[..i] + w.links[i + 1..]
                        && forall k :: 0 <= k < i ==> !Joins(w.links[k].wire, a, b)
  {
    var i := FindJoin(w.links, StateWire, a, b);
    assert Joins(StateWire(w.links[i]), a, b) && forall k :: 0 <= k < i ==> !Joins(StateWire(w.links[k]), a, b);
  }
}
