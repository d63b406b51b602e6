/**
  Simulations keep order. Every packet under way is on the road its session's tables lead over, and the engine's links
  carry packets in the order they were sent, so a session's packets reach every node in that order; therefore no SYN is
  left when a server is established, and a server that has closed stays closed.
 */
module SimulationOrder {
  import opened Common
  import opened EventQueues
  import opened Forwarding
  import opened Links
  import opened Simulations
  import opened SimulationRuns
  import opened SimulationResults
  import E = Engine
  import S = Session
  import EngineRoutes
  import EngineRuns
  import SessionDeeds
  import SessionDrain
  import SessionLastAck
  import SessionOrder
  import TS = TcpState

  // ---- on the road ----

  /** The link a packet takes from u to v. */
  function RoadId(links: seq<LinkState>, u: int, v: int): int
  {
    var i := E.FindUp(links, u, v);
    if i == -1 then -1 else links[i].wire.id
  }

  lemma SameEdgesSameRoad(a: seq<LinkState>, b: seq<LinkState>, u: int, v: int)
    requires EngineRoutes.SameEdges(a, b)
    ensures RoadId(a, u, v) == RoadId(b, u, v)
  {
    var i, k := E.FindUp(a, u, v), E.FindUp(b, u, v);
    if i != -1 { assert E.EdgeOf(a[i]) == E.EdgeOf(b[i]); }
    if k != -1 { assert E.EdgeOf(a[k]) == E.EdgeOf(b[k]); }
  }

  /** The packet is between the k-th node of its way and the next, on the link that leads there. */
  predicate Between(ew: E.World, p: E.Packet, k: nat)
  {
    && p.previous == Stop(ew.tables, p.source, p.destination, k)
    && p.current == Stop(ew.tables, p.source, p.destination, k + 1) != -1
    && p.linkId == RoadId(ew.links, p.previous, p.current)
  }

  ghost predicate OnRoad(ew: E.World, p: E.Packet) { exists k: nat :: Between(ew, p, k) }

  ghost predicate AllOnRoad(ew: E.World)
  {
    && (forall x :: x in ew.pending && x.event.Arrival? ==> OnRoad(ew, x.event.packet))
    && (forall x :: x in ew.built ==> x.event.Reaction?)
  }

  /** The roads do not depend on what is on them. */
  lemma SameRoutesOnRoad(ew: E.World, ew': E.World, p: E.Packet)
    requires EngineRoutes.SameRoutes(ew, ew') && OnRoad(ew, p)
    ensures OnRoad(ew', p)
  {
    var k: nat :| Between(ew, p, k);
    SameEdgesSameRoad(ew.links, ew'.links, p.previous, p.current);
    assert Between(ew', p, k);
  }

  lemma SameRoutesAllOnRoad(ew: E.World, ew': E.World)
    requires EngineRoutes.SameRoutes(ew, ew') && AllOnRoad(ew)
    requires (forall x :: x in ew'.pending ==> x in ew.pending) && ew'.built == ew.built
    ensures AllOnRoad(ew')
  {
    forall x | x in ew'.pending && x.event.Arrival? ensures OnRoad(ew', x.event.packet) {
      SameRoutesOnRoad(ew, ew', x.event.packet);
    }
  }

  lemma SentIsBetween(ew: E.World, p: E.Packet, drop: bool, k: nat)
    requires p.current == Stop(ew.tables, p.source, p.destination, k) && E.SendThrough(ew, p, drop).1
    ensures Between(ew, OnLink(ew, p, drop), k)
  {
  }

  lemma SendStaysOnRoad(ew: E.World, p: E.Packet, drop: bool, k: nat)
    requires AllOnRoad(ew) && p.current == Stop(ew.tables, p.source, p.destination, k)
    ensures AllOnRoad(E.SendThrough(ew, p, drop).0)
  {
    var (ew', ok) := E.SendThrough(ew, p, drop);
    EngineRoutes.SendKeepsRoutes(ew, p, drop);
    SendEffect(ew, p, drop);
    if ok {
      SentIsBetween(ew, p, drop, k);
      assert OnRoad(ew, OnLink(ew, p, drop));
    }
    forall x | x in ew'.pending && x.event.Arrival? ensures OnRoad(ew', x.event.packet) {
      SameRoutesOnRoad(ew, ew', x.event.packet);
    }
  }

  lemma ActStaysOnRoad(ew: E.World, action: E.Action)
    requires AllOnRoad(ew) && !action.Reshape?
    ensures AllOnRoad(E.Act(ew, action))
  {
    match action
    case Send(source, destination, size, tag, drop) =>
      SendStaysOnRoad(ew, E.Packet(source, destination, source, -1, 0, 0, size, 0.0, 0.0, tag), drop, 0);
    case Build(_, _) => SameRoutesStay(ew, E.Act(ew, action));
    case Schedule(which) => SameRoutesStay(ew, E.Act(ew, action));
  }

  lemma SameRoutesStay(ew: E.World, ew': E.World)
    requires AllOnRoad(ew) && ew'.links == ew.links && ew'.nodes == ew.nodes && ew'.metric == ew.metric && ew'.tables == ew.tables
    requires forall x :: x in ew'.pending ==> x in ew.pending || x.event.Reaction?
    requires forall x :: x in ew'.built ==> x.event.Reaction?
    ensures AllOnRoad(ew')
  {
    forall x | x in ew'.pending && x.event.Arrival? ensures OnRoad(ew', x.event.packet) {
      SameRoutesOnRoad(ew, ew', x.event.packet);
    }
  }

  /** Nobody changes the topology. */
  predicate Calm(actions: seq<E.Action>) { forall a :: a in actions ==> !a.Reshape? }

  lemma {:induction false} ActAllStaysOnRoad(ew: E.World, actions: seq<E.Action>)
    requires AllOnRoad(ew) && Calm(actions)
    ensures AllOnRoad(E.ActAll(ew, actions))
  {
    if actions != [] {
      ActAllStaysOnRoad(ew, actions[..|actions| - 1]);
      ActStaysOnRoad(E.ActAll(ew, actions[..|actions| - 1]), actions[|actions| - 1]);
    }
  }

  lemma ReleaseStaysOnRoad(ew: E.World, p: E.Packet)
    requires AllOnRoad(ew)
    ensures AllOnRoad(E.Release(ew, p)) && E.Release(ew, p).tables == ew.tables
  {
    EngineRoutes.ReleaseKeepsRoutes(ew, p);
    SameRoutesAllOnRoad(ew, E.Release(ew, p));
  }

  lemma ArriveStaysOnRoad(ew: E.World, p: E.Packet, drop: bool, k: nat)
    requires AllOnRoad(ew) && p.current == Stop(ew.tables, p.source, p.destination, k)
    ensures AllOnRoad(E.Arrive(ew, p, drop))
  {
    var released := E.Release(ew, p);
    ReleaseStaysOnRoad(ew, p);
    if p.current == p.destination {
      SameRoutesStay(released, E.Arrive(ew, p, drop));
    } else {
      SendStaysOnRoad(released, p, drop, k);
      SameRoutesStay(E.SendThrough(released, p, drop).0, E.Arrive(ew, p, drop));
    }
  }

  lemma BegunStaysOnRoad(ew: E.World, drop: bool)
    requires ew.pending != [] && AllOnRoad(ew)
    ensures AllOnRoad(E.Begun(ew, drop))
  {
    assert ew.pending[0] in ew.pending;
    SameRoutesStay(ew, E.Popped(ew));
    match ew.pending[0].event
    case Arrival(p) =>
      var k: nat :| Between(ew, p, k);
      ArriveStaysOnRoad(E.Popped(ew), p, drop, k + 1);
    case Reaction(_) =>
  }

  predicate CalmInput(input: E.Input)
  {
    match input
    case ProcessEvent(_, reactions) => Calm(reactions)
    case Outside(action) => !action.Reshape?
  }

  lemma {:induction false} RunStaysOnRoad(ew: E.World, inputs: seq<E.Input>)
    requires AllOnRoad(ew) && forall x :: x in inputs ==> CalmInput(x)
    ensures AllOnRoad(E.Run(ew, inputs))
  {
    if inputs != [] {
      var before, input := E.Run(ew, inputs[..|inputs| - 1]), inputs[|inputs| - 1];
      RunStaysOnRoad(ew, inputs[..|inputs| - 1]);
      assert input in inputs;
      match input
      case Outside(action) => ActStaysOnRoad(before, action);
      case ProcessEvent(drop, reactions) =>
        if before.pending != [] {
          BegunStaysOnRoad(before, drop);
          ActAllStaysOnRoad(E.Begun(before, drop), E.Following(before, reactions));
        }
    }
  }

  // ---- simulations leave the topology alone ----

  lemma {:induction false} OrdersAreCalm(now: real, site: S.Site, deeds: seq<SessionDeeds.Deed>, size: nat, tag: nat, drops: seq<bool>)
    ensures Calm(Orders(now, site, deeds, size, tag, drops))
    decreases |deeds|
  {
    if deeds != [] { OrdersAreCalm(now, site, deeds[1..], size, tag, if deeds[0].Sends? then Others(drops) else drops); }
  }

  lemma {:induction false} InputsAreCalm(j: Joint, turns: seq<Turn>)
    ensures forall x :: x in Inputs(j, turns) ==> CalmInput(x)
  {
    if turns != [] {
      InputsAreCalm(j, turns[..|turns| - 1]);
      var w, t := Run(j, turns[..|turns| - 1]), turns[|turns| - 1];
      if Ready(w, t) {
        OrdersAreCalm(w.engine.pending[0].time, Woken(w, t).site, DeedsOf(w, t), t.size, Next(w, t).session, t.drops);
      }
    }
  }

  lemma {:induction false} OpeningIsCalm(ew: E.World, routes: seq<Route>)
    ensures forall x :: x in OpeningInputs(ew, routes) ==> CalmInput(x)
  {
    if routes != [] { OpeningIsCalm(ew, routes[..|routes| - 1]); }
  }

  // ---- sessions keep order ----

  lemma {:induction false} ProjectedFrom(q: seq<Timed<E.Event>>, ledger: map<nat, Note>, i: nat, y: Timed<S.Event>) returns (x: Timed<E.Event>)
    requires y in Project(q, ledger, i)
    ensures x in q && x.id in ledger && ledger[x.id].session == i && y == Noted(x, ledger[x.id])
  {
    if q[0].id in ledger && ledger[q[0].id].session == i && y == Noted(q[0], ledger[q[0].id]) {
      x := q[0];
    } else {
      x := ProjectedFrom(q[1..], ledger, i, y);
    }
  }

  /** The two ends exchanged. */
  function TurnedRound(site: S.Site): S.Site { S.Site(site.tables, site.server, site.client, site.begin) }

  lemma TurnedShortens(site: S.Site)
    requires SessionDrain.Shortens(site)
    ensures SessionDrain.Shortens(TurnedRound(site))
  {
    var turned := TurnedRound(site);
    forall p: S.Packet | S.NextNode(turned, p) != -1
      ensures SessionDrain.HopsToGo(turned, p.(at := S.NextNode(turned, p))) < SessionDrain.HopsToGo(turned, p) < |turned.tables|
    {
      assert S.NextNode(site, p.(toServer := !p.toServer)) == S.NextNode(turned, p);
    }
  }

  lemma StopsApart(site: S.Site, toServer: bool, i: nat, k: nat)
    requires SessionDrain.Shortens(site) && i < k
    requires Stop(site.tables, S.Home(site, !toServer), S.Home(site, toServer), k) != -1
    ensures Stop(site.tables, S.Home(site, !toServer), S.Home(site, toServer), k)
         != Stop(site.tables, S.Home(site, !toServer), S.Home(site, toServer), i)
  {
    if toServer { SessionOrder.PlacesApart(site, i, k); }
    else {
      TurnedShortens(site);
      SessionOrder.PlacesApart(TurnedRound(site), i, k);
    }
  }

  /** Two packets of one end on their way to one node are on the same link. */
  lemma SameRoadSameWay(ew: E.World, site: S.Site, toServer: bool, x: Timed<E.Event>, y: Timed<E.Event>)
    requires SessionDrain.Shortens(site) && site.tables == ew.tables
    requires x.event.Arrival? && y.event.Arrival? && OnRoad(ew, x.event.packet) && OnRoad(ew, y.event.packet)
    requires x.event.packet.source == y.event.packet.source == S.Home(site, !toServer)
    requires x.event.packet.destination == y.event.packet.destination == S.Home(site, toServer)
    requires x.event.packet.current == y.event.packet.current
    ensures EngineRuns.SameWay(x, y)
  {
    var i: nat :| Between(ew, x.event.packet, i);
    var k: nat :| Between(ew, y.event.packet, k);
    if i < k { StopsApart(site, toServer, i + 1, k + 1); }
    if k < i { StopsApart(site, toServer, k + 1, i + 1); }
  }

  lemma SessionKeepsOrder(j: Joint, i: nat)
    requires Tied(j) && EngineRuns.KeepsOrder(j.engine.pending) && AllOnRoad(j.engine)
    requires i < |j.sessions| && SessionDrain.Shortens(j.sessions[i].site)
    ensures SessionOrder.KeepsOrder(j.sessions[i].pending)
  {
    var q, ledger, site := j.engine.pending, j.ledger, j.sessions[i].site;
    assert Linked(j, i);
    forall a, b | a in j.sessions[i].pending && b in j.sessions[i].pending && SessionOrder.SameRoad(a, b) && a.id < b.id
      ensures Earlier(a, b)
    {
      var x := ProjectedFrom(q, ledger, i, a);
      var y := ProjectedFrom(q, ledger, i, b);
      assert Known(j, x) && Known(j, y) && InStep(ledger, y, x);
      SameRoadSameWay(j.engine, site, a.event.packet.toServer, x, y);
      assert !EngineRuns.Overtakes(y, x);
    }
  }

  /** All that a simulation keeps of its queue. */
  lemma {:induction false} SimulationKeepsRoads(ew: E.World, routes: seq<Route>, turns: seq<Turn>)
    requires E.Initial(ew)
    ensures var r := Run(Opening(ew, routes), turns);
      Tied(r) && EngineRuns.KeepsOrder(r.engine.pending) && AllOnRoad(r.engine)
  {
    var j, inputs := Opening(ew, routes), OpeningInputs(ew, routes) + Inputs(Opening(ew, routes), turns);
    OpeningTied(ew, routes);
    OpeningRuns(ew, routes);
    RunSplits(j, turns);
    EngineRuns.RunsJoin(ew, OpeningInputs(ew, routes), Inputs(j, turns));
    EngineRuns.NothingOvertakes(ew, inputs);
    InputsAreCalm(j, turns);
    OpeningIsCalm(ew, routes);
    RunStaysOnRoad(ew, inputs);
  }

  /**
    Main result: in every simulation, of two packets of a session for the same end on their way to the same node, the
    one sent first arrives first.
   */
  lemma {:induction false} SessionsKeepOrder(ew: E.World, routes: seq<Route>, turns: seq<Turn>, i: nat)
    requires E.Initial(ew) && i < |routes|
    ensures SessionOrder.OrderKept(S.Start(SiteOf(ew, routes, i), TS.CLOSED), Choices(Opening(ew, routes), turns, i))
  {
    var j, site := Opening(ew, routes), SiteOf(ew, routes, i);
    SimulationsSplit(ew, routes, turns);
    SimulationKeepsRoads(ew, routes, turns);
    SessionDrain.TablesShorten(E.NetworkOf(ew.links, ew.nodes), ew.metric, site);
    SiteStays(site, Choices(j, turns, i));
    SessionKeepsOrder(Run(j, turns), i);
    if turns != [] {
      var before, t := turns[..|turns| - 1], turns[|turns| - 1];
      SessionsKeepOrder(ew, routes, before, i);
      if Serves(Run(j, before), t, i) { LastOf(Choices(j, before, i), ChoiceOf(Run(j, before), t)); }
      else { assert Choices(j, turns, i) == Choices(j, before, i); }
    }
  }

  lemma {:induction false} SiteStays(site: S.Site, choices: seq<S.Choice>)
    ensures S.Run(S.Start(site, TS.CLOSED), choices).site == site
  {
    if choices != [] {
      SiteStays(site, choices[..|choices| - 1]);
      SessionDeeds.StepStays(S.Run(S.Start(site, TS.CLOSED), choices[..|choices| - 1]), choices[|choices| - 1]);
    }
  }

  /**
    Main result: in every simulation a server in LAST_ACK that takes the acknowledgement of its FIN is closed from then
    on, whatever its session does next, and it waits in LAST_ACK until it does.
   */
  lemma {:induction false} ServersCloseForGood(ew: E.World, routes: seq<Route>, turns: seq<Turn>, i: nat, rest: seq<S.Choice>)
    requires E.Initial(ew) && i < |routes| && Run(Opening(ew, routes), turns).sessions[i].server.state.LAST_ACK?
    ensures var w := Run(Opening(ew, routes), turns).sessions[i]; var server := S.Run(w, rest).server;
      if SessionLastAck.FinAcknowledged(w, rest) then server.state.CLOSED? else server.state.LAST_ACK?
  {
    var site, choices := SiteOf(ew, routes, i), Choices(Opening(ew, routes), turns, i);
    SimulationsSplit(ew, routes, turns);
    SessionsKeepOrder(ew, routes, turns, i);
    SessionDrain.TablesShorten(E.NetworkOf(ew.links, ew.nodes), ew.metric, site);
    SessionOrder.NoSynOnceMet(site, TS.CLOSED, choices);
    SessionLastAck.ServerClosesForGood(site, TS.CLOSED, choices, rest);
  }
}
