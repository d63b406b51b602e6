/**
  The engine as the object that is updated in place, over the topology, link and event queue objects. Every method
  takes the state to the one Engine.dfy specifies, so the theorems about runs are theorems about this object; what
  the specification takes as an input, the rebuilt tables, is computed here.
 */
module SimulationEngines {
  import opened Common
  import opened EventQueues
  import opened Wires
  import opened Links
  import opened Topologies
  import opened Forwarding
  import opened EngineSafety
  import Engine
  import EngineRoutes
  import PathAlgebra
  import Dijkstra

  // ---- what the link objects say ----

  /** The links of a topology as values. */
  ghost function States(links: seq<Link>): (r: seq<LinkState>)
    reads links
    ensures |r| == |links| && forall i :: 0 <= i < |links| ==> r[i] == links[i].State()
  {
    if links == [] then [] else [links[0].State()] + States(links[1..])
  }

  /** A link in use that leads from a node to the next. */
  predicate Leads(l: Link, node: int, next: int)
    reads l
  {
    l.up && Other(l.wire, node) == next
  }

  /** Looking through a list for the first usable link to next. */
  lemma {:induction false} OldestToAt(links: seq<Link>, usable: set<Link>, node: int, next: int, k: nat)
    requires k <= |links| && forall j :: 0 <= j < k ==> !(links[j] in usable && Other(links[j].wire, node) == next)
    requires k < |links| ==> links[k] in usable && Other(links[k].wire, node) == next
    ensures OldestTo(links, usable, node, next) == if k == |links| then [] else [links[k]]
  {
    if k > 0 { OldestToAt(links[1..], usable, node, next, k - 1); }
  }

  /** The first link of the node's own list that leads to next is the first of all links that does. */
  lemma OldestUp(links: seq<Link>, node: int, next: int, k: nat)
    requires next != -1 && k <= |Touching(links, node)|
    requires forall j :: 0 <= j < k ==> !Leads(Touching(links, node)[j], node, next)
    requires k < |Touching(links, node)| ==> Leads(Touching(links, node)[k], node, next)
    ensures var i := Engine.FindUp(States(links), node, next);
      if k == |Touching(links, node)| then i == -1 else i >= 0 && links[i] == Touching(links, node)[k]
  {
    var usable := set l | l in links && l.up;
    var near, i := Touching(links, node), Engine.FindUp(States(links), node, next);
    assert forall j :: 0 <= j < |near| ==> near[j] in links;
    OldestToAt(near, usable, node, next, k);
    OldestToAt(links, usable, node, next, if i == -1 then |links| else i);
    AdjacencyFindsOldest(links, usable, node, next);
  }

  /** Identities are distinct, so the link of the node's own list that has one is the link that has it. */
  lemma WithId(links: seq<Link>, node: int, id: nat, k: nat)
    requires DistinctIds(links) && k <= |Touching(links, node)|
    requires forall j :: 0 <= j < k ==> Touching(links, node)[j].wire.id != id
    requires k < |Touching(links, node)| ==> Touching(links, node)[k].wire.id == id
    ensures var i := Engine.FindId(States(links), node, id);
      if k == |Touching(links, node)| then i == -1 else i >= 0 && links[i] == Touching(links, node)[k]
  {
    var i, near := Engine.FindId(States(links), node, id), Touching(links, node);
    if i != -1 {
      assert links[i] in near;
    }
    if k < |near| {
      var j :| 0 <= j < |links| && links[j] == near[k];
      assert States(links)[j] in States(links);
    }
  }

  lemma {:induction false} StatesWithoutNode(links: seq<Link>, node: int)
    ensures States(WithoutNode(links, LinkWire, node)) == WithoutNode(States(links), StateWire, node)
  {
    if links != [] { StatesWithoutNode(links[1..], node); }
  }

  lemma {:induction false} ExceptAt(links: seq<Link>, i: nat)
    requires i < |links| && DistinctIds(links)
    ensures Except(links, links[i]) == links[..i] + links[i + 1..]
  {
    if i == 0 {
      assert forall j :: 0 < j < |links| ==> links[j].wire.id != links[0].wire.id;
      ExceptAbsent(links[1..], links[0]);
    } else {
      ExceptAt(links[1..], i - 1);
      assert links[..i] == [links[0]] + links[1..][..i - 1] && links[i + 1..] == links[1..][i..];
    }
  }

  lemma StatesJoin(links: seq<Link>, a: int, b: int)
    ensures FindJoin(States(links), StateWire, a, b) == FindJoin(links, LinkWire, a, b)
  {
    var i, j := FindJoin(States(links), StateWire, a, b), FindJoin(links, LinkWire, a, b);
    assert forall k :: 0 <= k < |links| ==> States(links)[k].wire == links[k].wire;
    assert j >= 0 ==> Joins(States(links)[j].wire, a, b);
    assert i >= 0 ==> Joins(links[i].wire, a, b);
  }

  lemma {:induction false} StatesAppend(a: seq<Link>, b: seq<Link>)
    ensures States(a + b) == States(a) + States(b)
  {
    if a == [] {
      assert a + b == b;
    } else {
      assert (a + b)[1..] == a[1..] + b;
      StatesAppend(a[1..], b);
    }
  }

  lemma StatesNext(links: seq<Link>, l: Link)
    ensures States(links + [l]) == States(links) + [l.State()]
  {
    StatesAppend(links, [l]);
  }

  lemma StatesCut(links: seq<Link>, i: nat)
    requires i < |links|
    ensures States(links[..i] + links[i + 1..]) == States(links)[..i] + States(links)[i + 1..]
  {
    StatesAppend(links[..i], links[i + 1..]);
    StatesAppend(links[..i], links[i..]);
    StatesAppend(links[..i + 1], links[i + 1..]);
    assert links == links[..i] + links[i..] == links[..i + 1] + links[i + 1..];
  }

  /** Removing the oldest link between two nodes cuts its value out. */
  lemma LinkCut(links: seq<Link>, a: int, b: int)
    requires DistinctIds(links)
    ensures var i := FindJoin(States(links), StateWire, a, b);
      && i == FindJoin(links, LinkWire, a, b)
      && (i != -1 ==> States(Except(links, links[i])) == States(links)[..i] + States(links)[i + 1..])
  {
    StatesJoin(links, a, b);
    var i := FindJoin(links, LinkWire, a, b);
    if i != -1 {
      ExceptAt(links, i);
      StatesCut(links, i);
    }
  }

  /** The routing view of the topology's adjacency lists is the network of its links. */
  lemma {:induction false} ViewAt(links: seq<Link>, node: int)
    ensures RoutingLinks(Touching(links, node)) == Engine.EdgesAt(States(links), node)
  {
    if links != [] { ViewAt(links[1..], node); }
  }

  lemma ViewIsNetwork(t: Topology)
    requires t.Valid()
    ensures RoutingView(t.adjacency) == Engine.NetworkOf(States(t.links), |t.adjacency|)
  {
    forall u | 0 <= u < |t.adjacency|
      ensures RoutingView(t.adjacency)[u] == Engine.NetworkOf(States(t.links), |t.adjacency|)[u]
    {
      ViewAt(t.links, u);
    }
  }

  /** What a transmission already reserved leaves in a link, the transit list and the queue. */
  function Recorded(w: Engine.World, p: Engine.Packet, i: nat, t: Transmission): Engine.World
    requires i < |w.links|
  {
    var id := w.links[i].wire.id;
    Engine.ScheduledEvent(
      w.(links := w.links[i := Enqueued(w.links[i], t)], transit := w.transit + [Engine.Travel(id, t)]),
      t.arrival, Engine.Arrival(Engine.Stamped(p, id, t)))
  }

  lemma ReservedKeepsWire(l: LinkState, from: int, to: int, until: real)
    ensures Reserved(l, from, to, until).wire == l.wire
  {
    SlotsAgree(l, from, to, until, until);
  }

  /** What a transmission does whether or not the packet is dropped. */
  function Departed(w: Engine.World, p: Engine.Packet, i: nat, t: Transmission): (r: Engine.World)
    requires i < |w.links|
    ensures |r.links| == |w.links|
  {
    w.(links := w.links[i := Reserved(w.links[i], t.from, t.to, t.arrival)],
       sent := w.sent + if p.hops == 0 then 1 else 0)
  }

  /** Departing and then being recorded is what sendPacket does with a packet that is not dropped. */
  lemma SentInTwo(w: Engine.World, p: Engine.Packet, i: nat, drop: bool)
    requires i < |w.links| && CanQueue(w.links[i], p.current, Other(w.links[i].wire, p.current))
    ensures var departed := Departed(w, p, i, Engine.Journey(w.links[i], p, w.now));
      Engine.SendPacket(w, p, i, drop) ==
      if drop then (departed.(lost := w.lost + 1), false)
      else (Recorded(departed, p, i, Engine.Journey(w.links[i], p, w.now)), true)
  {
    var t := Engine.Journey(w.links[i], p, w.now);
    var r := Reserved(w.links[i], t.from, t.to, t.arrival);
    ReservedKeepsWire(w.links[i], t.from, t.to, t.arrival);
    assert w.links[i := r][i := Enqueued(r, t)] == w.links[i := Enqueued(r, t)];
  }

  // ---- the object ----

  class SimulationEngine {
    const topology: Topology
    const queue: EventQueue<Engine.Event>
    var now: real
    var metric: PathAlgebra.Metric
    var tables: Tables
    var built: seq<Timed<Engine.Event>>
    var nextEvent: nat
    var transit: seq<Engine.Travel>
    var sent: nat
    var delivered: nat
    var lost: nat
    ghost var executed: seq<Timed<Engine.Event>>

    /** The engine and the objects it updates. */
    ghost function Repr(): set<object>
      reads topology
    {
      {this, queue, topology} + set l | l in topology.links
    }

    ghost predicate Valid()
      reads this, topology, queue
    {
      topology.Valid() && queue.Valid() && Identified(queue.events, built, nextEvent)
    }

    ghost function State(): Engine.World
      reads this, topology, queue, topology.links
    {
      Engine.World(now, |topology.adjacency|, States(topology.links), topology.nextId, metric, tables,
                   queue.events, built, nextEvent, transit, sent, delivered, lost, executed)
    }

    /** The engine works on a copy of the topology, whose links are the caller's own objects. */
    constructor (network: Topology, m: PathAlgebra.Metric)
      requires network.Valid()
      ensures Valid() && fresh(topology) && fresh(queue) && topology.links == network.links
      ensures State() == Engine.World(0.0, |network.adjacency|, States(network.links), network.nextId, m, tables,
                                      [], [], 0, [], 0, 0, 0, [])
      ensures Engine.Routed(State())
    {
      topology := new Topology.Copy(network);
      queue := new EventQueue();
      now, metric, tables, built, nextEvent, transit, executed := 0.0, m, [], [], 0, [], [];
      sent, delivered, lost := 0, 0, 0;
      new;
      Rebuild();
    }

    method ComputeTables() returns (r: Tables)
      requires Valid()
      ensures BuiltTables(Engine.NetworkOf(States(topology.links), |topology.adjacency|), metric, r)
    {
      RoutingAccepts(topology);
      ViewIsNetwork(topology);
      r := RebuildRoutingTables(RoutingView(topology.adjacency), metric);
    }

    /** One table for every node, for the topology as it is. */
    method Rebuild()
      requires Valid()
      modifies this`tables
      ensures Valid() && State() == old(State()).(tables := tables) && Engine.Routed(State())
    {
      tables := ComputeTables();
    }

    method ScheduleNew(at: real, e: Engine.Event)
      requires Valid()
      modifies this`nextEvent, queue
      ensures Valid() && State() == Engine.ScheduledEvent(old(State()), at, e)
    {
      FreshIdentified(queue.events, built, nextEvent, Timed(at, nextEvent, e));
      queue.Schedule(Timed(at, nextEvent, e));
      nextEvent := nextEvent + 1;
    }

    method CountLoss()
      requires Valid()
      modifies this`lost
      ensures Valid() && State() == old(State()).(lost := old(lost) + 1)
    {
      lost := lost + 1;
    }

    method CountFirstHop(p: Engine.Packet)
      requires Valid()
      modifies this`sent
      ensures Valid() && State() == old(State()).(sent := old(sent) + if p.hops == 0 then 1 else 0)
    {
      if p.hops == 0 { sent := sent + 1; }
    }

    method CountDelivery()
      requires Valid()
      modifies this`delivered
      ensures Valid() && State() == old(State()).(delivered := old(delivered) + 1)
    {
      delivered := delivered + 1;
    }

    method AddPacketInTransit(t: Engine.Travel)
      requires Valid()
      modifies this`transit
      ensures Valid() && State() == old(State()).(transit := old(transit) + [t])
    {
      transit := transit + [t];
    }

    method Reserve(link: Link, from: int, to: int, until: real, ghost i: nat)
      requires Valid() && i < |topology.links| && topology.links[i] == link
      modifies link
      ensures Valid()
      ensures State() == old(State()).(links := old(State()).links[i := Reserved(old(link.State()), from, to, until)])
    {
      ghost var before := States(topology.links);
      link.ReserveTransmission(from, to, until);
      OneLinkChanged(topology.links, before, i);
    }

    method Enqueue(link: Link, t: Transmission, ghost i: nat)
      requires Valid() && i < |topology.links| && topology.links[i] == link
      modifies link
      ensures Valid()
      ensures State() == old(State()).(links := old(State()).links[i := Enqueued(old(link.State()), t)])
    {
      ghost var before := States(topology.links);
      link.EnqueueTransmission(t);
      OneLinkChanged(topology.links, before, i);
    }

    /** A packet taken by a link whose time is reserved: recorded there, in the transit list and in the queue. */
    method Launch(p: Engine.Packet, link: Link, t: Transmission, ghost i: nat)
      requires Valid() && i < |topology.links| && topology.links[i] == link
      modifies this`nextEvent, this`transit, queue, link
      ensures Valid() && State() == Recorded(old(State()), p, i, t)
    {
      Enqueue(link, t, i);
      AddPacketInTransit(Engine.Travel(link.wire.id, t));
      ScheduleNew(t.arrival, Engine.Arrival(Engine.Stamped(p, link.wire.id, t)));
    }

    /** The link's time is reserved, and a first hop counted, even for a packet that is then dropped. */
    method Depart(p: Engine.Packet, link: Link, t: Transmission, ghost i: nat)
      requires Valid() && i < |topology.links| && topology.links[i] == link
      modifies this`sent, link
      ensures Valid() && State() == Departed(old(State()), p, i, t)
    {
      Reserve(link, t.from, t.to, t.arrival, i);
      CountFirstHop(p);
    }

    method Transmit(p: Engine.Packet, link: Link, t: Transmission, drop: bool, ghost i: nat)
      requires Valid() && i < |topology.links| && topology.links[i] == link
      modifies this, queue, link
      ensures Valid()
      ensures var w := Departed(old(State()), p, i, t);
        State() == if drop then w.(lost := w.lost + 1) else Recorded(w, p, i, t)
    {
      Depart(p, link, t, i);
      if drop {
        CountLoss();
      } else {
        Launch(p, link, t, i);
      }
    }

    method SendPacket(p: Engine.Packet, link: Link, drop: bool, ghost i: nat) returns (ok: bool)
      requires Valid() && i < |topology.links| && topology.links[i] == link
      modifies this, queue, link
      ensures Valid() && (State(), ok) == Engine.SendPacket(old(State()), p, i, drop)
    {
      if !link.up { return false; }
      var next := Other(link.wire, p.current);
      if next == -1 { return false; }
      if !CanQueue(link.State(), p.current, next) {
        CountLoss();
        return false;
      }
      SentInTwo(State(), p, i, drop);
      Transmit(p, link, Engine.Journey(link.State(), p, now), drop, i);
      ok := !drop;
    }

    /** The link a node sends over to a neighbour, from the node's own list. */
    method PickLink(node: nat, next: int) returns (r: Option<Link>)
      requires Valid() && node < |topology.adjacency| && next != -1
      ensures var i := Engine.FindUp(States(topology.links), node, next);
        if i == -1 then r == None else r == Some(topology.links[i])
    {
      var links := topology.adjacency[node];
      var selected := SelectLink(RoutingLinks(links), node, next);
      OldestUp(topology.links, node, next, if selected == -1 then |links| else selected);
      r := if selected == -1 then None else Some(links[selected]);
    }

    /** The next hop comes from the table, the link from the node's own list. */
    method SendThroughTopology(p: Engine.Packet, drop: bool) returns (ok: bool)
      requires Valid()
      modifies this, queue, topology.links
      ensures Valid() && (State(), ok) == Engine.SendThrough(old(State()), p, drop)
    {
      var next := GetNextHop(tables, p.current, p.destination);
      if next == -1 { return false; }
      if p.current < 0 || p.current >= |topology.adjacency| { return false; }
      var link := PickLink(p.current, next);
      if link == None { return false; }
      ok := SendPacket(p, link.value, drop, Engine.FindUp(States(topology.links), p.current, next));
    }

    /** Only the oldest matching record goes. */
    method RemovePacketInTransit(t: Engine.Travel) returns (found: bool)
      requires Valid()
      modifies this`transit
      ensures Valid() && State() == old(State()).(transit := WithoutFirst(old(transit), t))
      ensures found == (t in old(transit))
    {
      var i := 0;
      while i < |transit| && transit[i] != t
        invariant 0 <= i <= |transit| && t !in transit[..i]
      {
        i := i + 1;
      }
      WithoutFirstAt(transit, t, i);
      if i == |transit| { return false; }
      transit := transit[..i] + transit[i + 1..];
      found := true;
    }

    /** The link of a node with a given identity, from the node's own list. */
    method FindLink(node: nat, id: nat) returns (r: Option<Link>, ghost i: int)
      requires Valid() && node < |topology.adjacency|
      ensures i == Engine.FindId(States(topology.links), node, id)
      ensures if i == -1 then r == None else r == Some(topology.links[i])
    {
      var links, k := topology.adjacency[node], 0;
      while k < |links| && links[k].wire.id != id
        invariant 0 <= k <= |links| && forall j :: 0 <= j < k ==> links[j].wire.id != id
      {
        k := k + 1;
      }
      WithId(topology.links, node, id, k);
      i := Engine.FindId(States(topology.links), node, id);
      r := if k == |links| then None else Some(links[k]);
    }

    method Dequeue(link: Link, t: Transmission, ghost i: nat)
      requires Valid() && i < |topology.links| && topology.links[i] == link
      modifies link
      ensures Valid() && State() == old(State()).(links := old(State()).links[i := Dequeued(old(link.State()), t)])
    {
      ghost var before := States(topology.links);
      var _ := link.DequeueTransmission(t);
      OneLinkChanged(topology.links, before, i);
    }

    /** The slot is freed if the link is still there. */
    method FreeSlot(p: Engine.Packet)
      requires Valid() && p.previous >= 0
      modifies topology.links
      ensures Valid()
      ensures State() == old(State()).(links := Engine.ReleasedLinks(old(State()).links, |topology.adjacency|, p))
    {
      if p.previous >= |topology.adjacency| { return; }
      var link, i := FindLink(p.previous, p.linkId);
      if link.Some? { Dequeue(link.value, Engine.TravelOf(p).hop, i); }
    }

    method ReleasePacket(p: Engine.Packet) returns (ok: bool)
      requires Valid()
      modifies this`transit, topology.links
      ensures Valid() && State() == Engine.Release(old(State()), p) && ok == (p.previous >= 0)
    {
      if p.previous < 0 { return false; }
      FreeSlot(p);
      var _ := RemovePacketInTransit(Engine.TravelOf(p));
      ok := true;
    }

    /** A packet that cannot be sent on is lost. */
    method Forward(p: Engine.Packet, drop: bool)
      requires Valid()
      modifies this, queue, topology.links
      ensures Valid()
      ensures var (w', ok) := Engine.SendThrough(old(State()), p, drop);
        State() == if ok then w' else w'.(lost := w'.lost + 1)
    {
      var ok := SendThroughTopology(p, drop);
      if !ok { CountLoss(); }
    }

    method ReceivePacket(p: Engine.Packet, drop: bool)
      requires Valid()
      modifies this, queue, topology.links
      ensures Valid() && State() == Engine.Arrive(old(State()), p, drop)
    {
      var _ := ReleasePacket(p);
      if p.current != p.destination {
        Forward(p, drop);
      } else {
        CountDelivery();
      }
    }

    // ---- topology changes ----

    method AddNode()
      requires Valid()
      modifies topology
      ensures Valid() && Repr() == old(Repr())
      ensures State() == Engine.Changed(old(State()), Engine.CreateNode)
    {
      var _ := topology.AddNode();
    }

    method RemoveNode(node: int) returns (ok: bool)
      requires Valid()
      modifies topology
      ensures Valid() && ok == Engine.Accepts(old(State()), Engine.DeleteNode(node))
      ensures Repr() <= old(Repr())
      ensures State() == if ok then Engine.Changed(old(State()), Engine.DeleteNode(node)) else old(State())
    {
      ghost var links, before := topology.links, States(topology.links);
      ok := topology.RemoveNode(node);
      assert States(links) == before;
      StatesWithoutNode(links, node);
    }

    method AddLink(a: int, b: int, bandwidth: real, delay: real, lossProb: real, mode: Mode) returns (ok: bool)
      requires Valid()
      modifies topology
      ensures Valid() && fresh(Repr() - old(Repr())) && ok == Engine.Acceptable(a, b, bandwidth, delay, lossProb)
      ensures ok ==>
        && |topology.adjacency| == Max(old(|topology.adjacency|), Max(a, b) + 1)
        && topology.nextId == old(topology.nextId) + 1
        && States(topology.links) ==
           old(States(topology.links)) + [NewLink(Wire(old(topology.nextId), a, b, bandwidth, delay, mode))]
      ensures !ok ==> State() == old(State())
    {
      ghost var links, before := topology.links, States(topology.links);
      var r := topology.AddLinkPtr(a, b, bandwidth, delay, lossProb, mode);
      ok := r.Ok?;
      assert States(links) == before;
      if ok { StatesNext(links, r.value); }
    }

    method CreateLink(a: int, b: int, bandwidth: real, delay: real, lossProb: real, mode: Mode) returns (ok: bool)
      requires Valid()
      modifies topology
      ensures Valid() && fresh(Repr() - old(Repr()))
      ensures ok == Engine.Accepts(old(State()), Engine.CreateLink(a, b, bandwidth, delay, lossProb, mode))
      ensures State() == if ok then Engine.Changed(old(State()), Engine.CreateLink(a, b, bandwidth, delay, lossProb, mode))
                         else old(State())
    {
      ok := AddLink(a, b, bandwidth, delay, lossProb, mode);
    }

    method RemoveLink(a: int, b: int) returns (ok: bool)
      requires Valid()
      modifies topology
      ensures Valid() && ok == Engine.Accepts(old(State()), Engine.DeleteLink(a, b))
      ensures Repr() <= old(Repr())
      ensures State() == if ok then Engine.Changed(old(State()), Engine.DeleteLink(a, b)) else old(State())
    {
      ghost var links, before := topology.links, States(topology.links);
      ok := topology.RemoveLink(a, b);
      assert States(links) == before;
      LinkCut(links, a, b);
    }

    method SetLinkUp(a: int, b: int, up: bool) returns (ok: bool)
      requires Valid()
      modifies topology.links
      ensures Valid() && Repr() == old(Repr())
      ensures var links := old(State()).links;
        var i := FindJoin(links, StateWire, a, b);
        ok == (i != -1) && State() == if ok then old(State()).(links := links[i := links[i].(up := up)]) else old(State())
    {
      ghost var links, before := topology.links, States(topology.links);
      StatesJoin(links, a, b);
      ok := topology.SetLinkUp(a, b, up);
      ghost var i := FindJoin(links, LinkWire, a, b);
      forall k | 0 <= k < |links|
        ensures links[k].State() == if i != -1 && links[k] == links[i] then before[k].(up := up) else before[k]
      {
        assert links[k] in links;
      }
      OldestToggled(links, before, a, b, up);
    }

    method ChangeTopology(change: Engine.Change) returns (ok: bool)
      requires Valid()
      modifies this`metric, topology, topology.links
      ensures Valid() && ok == Engine.Accepts(old(State()), change)
      ensures fresh(Repr() - old(Repr()))
      ensures State() == if ok then Engine.Changed(old(State()), change) else old(State())
    {
      match change
      case CreateNode =>
        AddNode();
        ok := true;
      case DeleteNode(node) => ok := RemoveNode(node);
      case CreateLink(a, b, bandwidth, delay, lossProb, mode) => ok := CreateLink(a, b, bandwidth, delay, lossProb, mode);
      case DeleteLink(a, b) => ok := RemoveLink(a, b);
      case ToggleLink(a, b, up) => ok := SetLinkUp(a, b, up);
      case SetMetric(m) =>
        metric := m;
        ok := true;
    }

    /** A change the topology takes is followed by new routing tables. */
    method Reshape(change: Engine.Change) returns (ok: bool)
      requires Valid()
      modifies this`metric, this`tables, topology, topology.links
      ensures Valid() && ok == Engine.Accepts(old(State()), change) && fresh(Repr() - old(Repr()))
      ensures ok ==> State() == Engine.Changed(old(State()), change).(tables := tables) && Engine.Routed(State())
      ensures !ok ==> State() == old(State())
    {
      ok := ChangeTopology(change);
      if ok { Rebuild(); }
    }

    // ---- events ----

    /** An event gets its identifier when it is built. */
    method BuildEvent(at: real, tag: nat)
      requires Valid()
      modifies this`built, this`nextEvent
      ensures Valid() && State() == Engine.Act(old(State()), Engine.Build(at, tag))
    {
      FreshIdentified(queue.events, built, nextEvent, Timed(at, nextEvent, Engine.Reaction(tag)));
      built := built + [Timed(at, nextEvent, Engine.Reaction(tag))];
      nextEvent := nextEvent + 1;
    }

    method ScheduleBuilt(which: nat)
      requires Valid()
      modifies this`built, queue
      ensures Valid() && State() == Engine.Act(old(State()), Engine.Schedule(which))
    {
      if which >= |built| { return; }
      KeptIdentified(queue.events, built, nextEvent, which);
      queue.Schedule(built[which]);
      built := built[..which] + built[which + 1..];
    }

    /** The action as it is carried out, with the tables computed if it rebuilds them. */
    method Perform(action: Engine.Action) returns (ghost done: Engine.Action)
      requires Valid()
      modifies Repr()
      ensures Valid() && SameRequest(action, done)
      ensures fresh(Repr() - old(Repr()))
      ensures State() == Engine.Act(old(State()), done) && Engine.RebuildsRightly(old(State()), done)
    {
      done := action;
      match action
      case Send(source, destination, size, tag, drop) =>
        var _ := SendThroughTopology(Engine.Packet(source, destination, source, -1, 0, 0, size, 0.0, 0.0, tag), drop);
      case Build(at, tag) => BuildEvent(at, tag);
      case Schedule(which) => ScheduleBuilt(which);
      case Reshape(change, _) =>
        var ok := Reshape(change);
        done := Engine.Reshape(change, tables);
        Reshaped(old(State()), change, tables, State());
    }

    method PerformAll(actions: seq<Engine.Action>) returns (ghost done: seq<Engine.Action>)
      requires Valid()
      modifies Repr()
      ensures Valid() && SameRequests(actions, done) && fresh(Repr() - old(Repr()))
      ensures CarriedOut(old(State()), done, State())
    {
      if actions == [] { return []; }
      ghost var before := State();
      ghost var earlier := PerformAll(actions[..|actions| - 1]);
      ghost var between := State();
      ghost var last := Perform(actions[|actions| - 1]);
      CarriedOutNext(before, actions, earlier, between, last, State());
      done := earlier + [last];
    }

    /** The head event leaves the queue and the clock is set to its time. */
    method TakeHead() returns (e: Timed<Engine.Event>)
      requires Valid() && queue.events != []
      modifies this`now, this`executed, queue
      ensures Valid() && State() == Engine.Popped(old(State())) && e == old(queue.events)[0]
    {
      PopKeepsIdentified(queue.events, built, nextEvent);
      var head := queue.Next();
      e := head.value;
      now := e.time;
      executed := executed + [e];
    }

    /** The head event and what the engine itself does with it. */
    method Begin(drop: bool) returns (reacts: bool)
      requires Valid() && queue.events != []
      modifies this, queue, topology.links
      ensures Valid() && State() == Engine.Begun(old(State()), drop)
      ensures reacts == Engine.Reacts(old(queue.events)[0].event)
    {
      var head := TakeHead();
      reacts := Engine.Reacts(head.event);
      if head.event.Arrival? { ReceivePacket(head.event.packet, drop); }
    }

    /** Take the next event, move the clock to it, and run its body. */
    method ProcessEvent(drop: bool, reactions: seq<Engine.Action>) returns (ran: bool, ghost done: seq<Engine.Action>)
      requires Valid()
      modifies Repr()
      ensures Valid() && SameRequests(reactions, done) && ran == (old(queue.events) != [])
      ensures State() == Engine.Step(old(State()), Engine.ProcessEvent(drop, done))
      ensures EngineRoutes.StepRebuildsRightly(old(State()), Engine.ProcessEvent(drop, done))
    {
      if queue.events == [] { return false, reactions; }
      var reacts := Begin(drop);
      done := reactions;
      if reacts { done := PerformAll(reactions); }
      ran := true;
    }
  }

  /** The same action, whatever tables a rebuild computed. */
  predicate SameRequest(x: Engine.Action, y: Engine.Action)
  {
    if x.Reshape? && y.Reshape? then x.change == y.change else x == y
  }

  /** The actions take one state to the other, every rebuild among them being right. */
  ghost predicate CarriedOut(w: Engine.World, done: seq<Engine.Action>, w': Engine.World)
  {
    w' == Engine.ActAll(w, done) && EngineRoutes.AllRebuildRightly(w, done)
  }

  lemma CarriedOutNext(w: Engine.World, actions: seq<Engine.Action>, done: seq<Engine.Action>, w1: Engine.World,
                       one: Engine.Action, w2: Engine.World)
    requires actions != [] && SameRequests(actions[..|actions| - 1], done) && SameRequest(actions[|actions| - 1], one)
    requires CarriedOut(w, done, w1) && w2 == Engine.Act(w1, one) && Engine.RebuildsRightly(w1, one)
    ensures SameRequests(actions, done + [one]) && CarriedOut(w, done + [one], w2)
  {
    assert (done + [one])[..|done|] == done;
  }

  predicate SameRequests(xs: seq<Engine.Action>, ys: seq<Engine.Action>)
  {
    |xs| == |ys| && forall i :: 0 <= i < |xs| ==> SameRequest(xs[i], ys[i])
  }

  /** A change and the rebuild after it are one action. */
  lemma Reshaped(w: Engine.World, change: Engine.Change, tables: Tables, w': Engine.World)
    requires if Engine.Accepts(w, change) then w' == Engine.Changed(w, change).(tables := tables) && Engine.Routed(w')
             else w' == w
    ensures w' == Engine.Act(w, Engine.Reshape(change, tables))
    ensures Engine.RebuildsRightly(w, Engine.Reshape(change, tables))
  {
  }

  /** Links are distinct objects, so updating one updates one value. */
  lemma OneLinkChanged(links: seq<Link>, before: seq<LinkState>, i: nat)
    requires DistinctIds(links) && |before| == |links| && i < |links|
    requires forall k :: 0 <= k < |links| && links[k] != links[i] ==> links[k].State() == before[k]
    ensures States(links) == before[i := links[i].State()]
  {
    assert forall k :: 0 <= k < |links| && k != i ==> links[k].wire.id != links[i].wire.id;
  }

  /** Toggling the oldest link between two nodes toggles one value. */
  lemma OldestToggled(links: seq<Link>, before: seq<LinkState>, a: int, b: int, up: bool)
    requires DistinctIds(links) && |before| == |links|
    requires var i := FindJoin(links, LinkWire, a, b);
      forall k :: 0 <= k < |links| ==>
        links[k].State() == if i != -1 && links[k] == links[i] then before[k].(up := up) else before[k]
    ensures var i := FindJoin(links, LinkWire, a, b);
      States(links) == if i == -1 then before else before[i := before[i].(up := up)]
  {
    var i := FindJoin(links, LinkWire, a, b);
    if i != -1 { OneLinkChanged(links, before, i); }
  }
}
