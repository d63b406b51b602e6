/**
  The simulation engine: sending, forwarding, releasing and delivering packets by the routing tables, the events
  it runs, and the topology changes allowed during a run, each followed by a rebuild of the tables
  (SimulationEngine.cpp, PacketUtils.cpp, the first half of PacketReceivedEvent.cpp). A random drop is an input.
 */
module Engine {
  import opened Common
  import opened EventQueues
  import opened Wires
  import opened Links
  import opened Forwarding
  import PathAlgebra
  import Dijkstra

  datatype Packet = Packet(
    source: int, destination: int, current: int, previous: int, linkId: nat,
    hops: nat, size: nat, departure: real, arrival: real, tag: nat)

  /** A packet-arrival event, or any other kind: only what it does matters, and that comes with the step. */
  datatype Event = Arrival(packet: Packet) | Reaction(tag: nat)

  /** An entry of packets_in_transit, reduced to the five fields it is looked up by. */
  datatype Travel = Travel(linkId: nat, hop: Transmission)

  /**
    The engine's state. An event gets its identifier when it is built and waits in `built` until it is
    scheduled; executed lists the events run so far and exists only to be spoken about.
   */
  datatype World = World(
    now: real,
    nodes: nat, links: seq<LinkState>, nextLink: nat,
    metric: PathAlgebra.Metric, tables: Tables,
    pending: seq<Timed<Event>>, built: seq<Timed<Event>>, nextEvent: nat,
    transit: seq<Travel>,
    sent: nat, delivered: nat, lost: nat,
    executed: seq<Timed<Event>>)

  /** The calls after which the engine rebuilds its routing tables. */
  datatype Change =
    | CreateNode
    | DeleteNode(node: int)
    | CreateLink(a: int, b: int, bandwidth: real, delay: real, lossProb: real, mode: Mode)
    | DeleteLink(a: int, b: int)
    | ToggleLink(a: int, b: int, up: bool)
    | SetMetric(metric: PathAlgebra.Metric)

  /** Everything an event body, or a user between two events, can do to the engine. */
  datatype Action =
    | Send(source: int, destination: int, size: nat, tag: nat, drop: bool)
    | Build(at: real, tag: nat)
    | Schedule(which: nat)
    | Reshape(change: Change, rebuilt: Tables)

  /** One event processed, with its drop and reactions, or one outside call. */
  datatype Input =
    | ProcessEvent(drop: bool, reactions: seq<Action>)
    | Outside(action: Action)

  function TravelOf(p: Packet): Travel
  {
    Travel(p.linkId, Transmission(p.previous, p.current, p.departure, p.arrival))
  }

  // ---- the network the routes are computed on ----

  function EdgeOf(l: LinkState): PathAlgebra.Edge { PathAlgebra.Edge(l.wire, l.up) }

  /** The links of a node, in insertion order. */
  function EdgesAt(links: seq<LinkState>, node: int): seq<PathAlgebra.Edge>
  {
    if links == [] then []
    else (if Touches(links[0].wire, node) then [EdgeOf(links[0])] else []) + EdgesAt(links[1..], node)
  }

  function NetworkOf(links: seq<LinkState>, nodes: nat): Dijkstra.Network
  {
    seq(nodes, u requires 0 <= u < nodes => EdgesAt(links, u))
  }

  // ---- sending ----

  /** The first up link of the node leading to next, or -1. */
  function FindUp(links: seq<LinkState>, node: int, next: int): (i: int)
    ensures -1 <= i < |links|
    ensures i >= 0 ==> links[i].up && Other(links[i].wire, node) == next
    ensures forall k :: 0 <= k < |links| && (i == -1 || k < i) ==> !(links[k].up && Other(links[k].wire, node) == next)
  {
    FirstIndex(links, (l: LinkState) => l.up && Other(l.wire, node) == next)
  }

  function TransmissionTime(size: nat, bandwidth: real): (r: real)
    requires bandwidth > 0.0
    ensures r >= 0.0
  {
    (size as real * 8.0) / (bandwidth * 1000000.0)
  }

  /** An event built now and scheduled at once. */
  function ScheduledEvent(w: World, at: real, e: Event): World
  {
    w.(pending := Scheduled(w.pending, Timed(at, w.nextEvent, e)), nextEvent := w.nextEvent + 1)
  }

  /** The transmission a packet makes over a link that has room: it leaves when its direction is next free. */
  function Journey(l: LinkState, p: Packet, now: real): (t: Transmission)
    requires CanQueue(l, p.current, Other(l.wire, p.current))
    ensures Timely(l, t, now) && t.departure >= now
    ensures t.from == p.current && t.to == Other(l.wire, p.current)
  {
    var next := Other(l.wire, p.current);
    SlotsAgree(l, p.current, next, now, now);
    var departure := NextAvailable(l, p.current, next, now).time;
    Transmission(p.current, next, departure,
                 departure + TransmissionTime(p.size, l.wire.bandwidth) + l.wire.delay / 1000.0)
  }

  /** SimulationEngine::compute_arrival_time: the arrival of a packet that leaves at once. */
  function ComputeArrivalTime(p: Packet, l: LinkState, now: real): real
  {
    now + l.wire.delay / 1000.0 + TransmissionTime(p.size, l.wire.bandwidth)
  }

  /** The forecast is a lower bound, exact precisely when the direction's slot is idle. */
  lemma ForecastIffIdle(l: LinkState, p: Packet, now: real)
    requires CanQueue(l, p.current, Other(l.wire, p.current))
    ensures
      var t := Journey(l, p, now);
      && ComputeArrivalTime(p, l, now) <= t.arrival
      && (ComputeArrivalTime(p, l, now) == t.arrival <==> BusyFor(l, QueueSlot(l.wire, t.from, t.to)) <= now)
  {
    SlotsAgree(l, p.current, Other(l.wire, p.current), now, now);
  }

  /** The packet as its arrival event will carry it. */
  function Stamped(p: Packet, linkId: nat, t: Transmission): Packet
  {
    p.(current := t.to, previous := t.from, linkId := linkId, hops := p.hops + 1,
       departure := t.departure, arrival := t.arrival)
  }

  function Launched(w: World, p: Packet, i: nat, t: Transmission): World
    requires i < |w.links|
  {
    var id := w.links[i].wire.id;
    ScheduledEvent(w.(links := w.links[i := Carried(w.links[i], t)], transit := w.transit + [Travel(id, t)]),
                   t.arrival, Arrival(Stamped(p, id, t)))
  }

  /** SimulationEngine::sendPacket over link i; the second result is its return value. */
  function SendPacket(w: World, p: Packet, i: nat, drop: bool): (World, bool)
    requires i < |w.links|
  {
    var l := w.links[i];
    var next := Other(l.wire, p.current);
    if !l.up || next == -1 then (w, false)
    else if !CanQueue(l, p.current, next) then (w.(lost := w.lost + 1), false)
    else
      var t := Journey(l, p, w.now);
      var w' := if p.hops == 0 then w.(sent := w.sent + 1) else w;
      if drop then
        (w'.(links := w.links[i := Reserved(l, t.from, t.to, t.arrival)], lost := w.lost + 1), false)
      else (Launched(w', p, i, t), true)
  }

  /** PacketUtils::sendPacketThroughTopology: one hop by the routing table. */
  function SendThrough(w: World, p: Packet, drop: bool): (World, bool)
  {
    var next := GetNextHop(w.tables, p.current, p.destination);
    if next == -1 || p.current < 0 || p.current >= w.nodes then (w, false)
    else
      var i := FindUp(w.links, p.current, next);
      if i == -1 then (w, false)
      else SendPacket(w, p, i, drop)
  }

  // ---- releasing ----

  /** The link of a node with a given identity, or -1. */
  function FindId(links: seq<LinkState>, node: int, id: nat): (i: int)
    ensures -1 <= i < |links|
    ensures i >= 0 ==> links[i].wire.id == id && Touches(links[i].wire, node)
    ensures i == -1 ==> forall l :: l in links && l.wire.id == id ==> !Touches(l.wire, node)
  {
    FirstIndex(links, (l: LinkState) => l.wire.id == id && Touches(l.wire, node))
  }

  function ReleasedLinks(links: seq<LinkState>, nodes: nat, p: Packet): seq<LinkState>
  {
    var i := FindId(links, p.previous, p.linkId);
    if p.previous >= nodes || i == -1 then links
    else links[i := Dequeued(links[i], TravelOf(p).hop)]
  }

  /** PacketUtils::releasePacketThroughTopology. */
  function Release(w: World, p: Packet): World
  {
    if p.previous < 0 then w
    else w.(links := ReleasedLinks(w.links, w.nodes, p), transit := WithoutFirst(w.transit, TravelOf(p)))
  }

  // ---- topology changes ----

  /** What addLinkPtr asks of a new link. */
  predicate Acceptable(a: int, b: int, bandwidth: real, delay: real, lossProb: real)
  {
    a >= 0 && b >= 0 && a != b && bandwidth > 0.0 && delay >= 0.0 && 0.0 <= lossProb <= 1.0
  }

  /** Does the topology take the change, rather than refuse it? */
  predicate Accepts(w: World, change: Change)
  {
    match change
    case CreateNode => true
    case DeleteNode(node) => 0 <= node < w.nodes
    case CreateLink(a, b, bandwidth, delay, lossProb, _) => Acceptable(a, b, bandwidth, delay, lossProb)
    case DeleteLink(a, b) => FindJoin(w.links, StateWire, a, b) != -1
    case ToggleLink(a, b, _) => FindJoin(w.links, StateWire, a, b) != -1
    case SetMetric(_) => true
  }

  /** The topology after a change it takes. */
  function Changed(w: World, change: Change): World
    requires Accepts(w, change)
  {
    match change
    case CreateNode => w.(nodes := w.nodes + 1)
    case DeleteNode(node) => w.(links := WithoutNode(w.links, StateWire, node))
    case CreateLink(a, b, bandwidth, delay, lossProb, mode) =>
      w.(nodes := Max(w.nodes, Max(a, b) + 1),
         links := w.links + [NewLink(Wire(w.nextLink, a, b, bandwidth, delay, mode))], nextLink := w.nextLink + 1)
    case DeleteLink(a, b) =>
      var i := FindJoin(w.links, StateWire, a, b);
      w.(links := w.links[..i] + w.links[i + 1..])
    case ToggleLink(a, b, up) =>
      var i := FindJoin(w.links, StateWire, a, b);
      w.(links := w.links[i := w.links[i].(up := up)])
    case SetMetric(metric) => w.(metric := metric)
  }

  /** One action; a call the code refuses changes nothing. */
  function Act(w: World, action: Action): World
  {
    match action
    case Send(source, destination, size, tag, drop) =>
      SendThrough(w, Packet(source, destination, source, -1, 0, 0, size, 0.0, 0.0, tag), drop).0
    case Build(at, tag) => w.(built := w.built + [Timed(at, w.nextEvent, Reaction(tag))], nextEvent := w.nextEvent + 1)
    case Schedule(which) =>
      if which >= |w.built| then w
      else w.(pending := Scheduled(w.pending, w.built[which]), built := w.built[..which] + w.built[which + 1..])
    case Reshape(change, rebuilt) => if Accepts(w, change) then Changed(w, change).(tables := rebuilt) else w
  }

  function ActAll(w: World, actions: seq<Action>): World
  {
    if actions == [] then w else Act(ActAll(w, actions[..|actions| - 1]), actions[|actions| - 1])
  }

  // ---- running ----

  /** The head event leaves the queue and the clock is set to its time. */
  function Popped(w: World): World
    requires w.pending != []
  {
    var e := w.pending[0];
    w.(now := e.time, pending := w.pending[1..], executed := w.executed + [e])
  }

  /** PacketReceivedEvent::execute up to the protocol reaction: release, then forward or deliver. */
  function Arrive(w: World, p: Packet, drop: bool): World
  {
    var released := Release(w, p);
    if p.current != p.destination then
      var (w', ok) := SendThrough(released, p, drop);
      if ok then w' else w'.(lost := w'.lost + 1)
    else released.(delivered := released.delivered + 1)
  }

  /** A forwarded packet sets nothing else off. */
  predicate Reacts(e: Event) { e.Arrival? ==> e.packet.current == e.packet.destination }

  /** The head event taken, and what the engine itself does with it. */
  function Begun(w: World, drop: bool): World
    requires w.pending != []
  {
    var e := w.pending[0].event;
    if e.Arrival? then Arrive(Popped(w), e.packet, drop) else Popped(w)
  }

  /** The actions that really follow the head event. */
  function Following(w: World, reactions: seq<Action>): seq<Action>
    requires w.pending != []
  {
    if Reacts(w.pending[0].event) then reactions else []
  }

  function Step(w: World, input: Input): World
  {
    match input
    case ProcessEvent(drop, reactions) =>
      if w.pending == [] then w else ActAll(Begun(w, drop), Following(w, reactions))
    case Outside(action) => Act(w, action)
  }

  function Run(w: World, inputs: seq<Input>): World
  {
    if inputs == [] then w else Step(Run(w, inputs[..|inputs| - 1]), inputs[|inputs| - 1])
  }

  /** The tables are those the route computation builds for the topology as it is. */
  ghost predicate Routed(w: World)
  {
    BuiltTables(NetworkOf(w.links, w.nodes), w.metric, w.tables)
  }

  /** An engine just built over some topology. */
  ghost predicate Initial(w: World)
  {
    && w.pending == [] && w.built == [] && w.transit == [] && w.executed == []
    && w.sent == 0 && w.delivered == 0 && w.lost == 0
    && (forall i :: 0 <= i < |w.links| ==>
          && w.links[i] == NewLink(w.links[i].wire).(up := w.links[i].up)
          && w.links[i].wire.id < w.nextLink && w.links[i].wire.a < w.nodes && w.links[i].wire.b < w.nodes)
    && (forall i, j :: 0 <= i < j < |w.links| ==> w.links[i].wire.id != w.links[j].wire.id)
    && Routed(w)
  }

  /** A rebuild in this step computes the tables of the changed topology. */
  ghost predicate RebuildsRightly(w: World, action: Action)
  {
    action.Reshape? && Accepts(w, action.change) ==>
      var w' := Changed(w, action.change);
      BuiltTables(NetworkOf(w'.links, w'.nodes), w'.metric, action.rebuilt)
  }
}
