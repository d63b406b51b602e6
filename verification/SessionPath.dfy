/**
  A session over a path of two links, client - relay - server, as links carry it: every packet takes time on every
  link, and each direction of a link is first in, first out, one packet at a time. Here the handshake is followed
  over such a path, for every initial sequence number; further runs are built on it.
 */
module SessionPath {
  import opened Common
  import opened Word32
  import opened Connection
  import opened Session
  import opened Forwarding
  import opened SessionWaves
  import EventQueues
  import TS = TcpState
  import RB = ReceiveBuffer
  import SB = SendBuffer
  import RT = RetransmissionTimer
  import Reassembly
  import Dijkstra
  import PathAlgebra
  import Wires
  import RoutingTable

  function At(time: real, id: nat, e: Event): Due { EventQueues.Timed(time, id, e) }

  /** The two ends are two hops apart, and the session begins at time 0. */
  ghost predicate Relayed(site: Site, relay: nat)
  {
    && relay != site.client && relay != site.server && site.client != site.server && site.begin == 0.0
    && GetNextHop(site.tables, site.client, site.server) == relay && GetNextHop(site.tables, relay, site.server) == site.server
    && GetNextHop(site.tables, site.server, site.client) == relay && GetNextHop(site.tables, relay, site.client) == site.client
  }

  // ---- what links allow ----

  /** Two packets over the same link in the same direction. */
  predicate SameWay(x: Event, y: Event)
  {
    x.Arrival? && y.Arrival? && x.packet.toServer == y.packet.toServer && x.packet.at == y.packet.at
  }

  /** What is sent later over a link arrives later, by at least the time a packet takes. */
  ghost predicate Spaced(q: seq<Due>, hop: real)
  {
    forall x, y :: x in q && y in q && SameWay(x.event, y.event) && x.id < y.id ==> x.time + hop <= y.time
  }

  /** Nothing sent in this step arrives before it has crossed the link. */
  ghost predicate Departs(w: World, c: Choice, hop: real)
  {
    w.pending != [] &&
    forall x :: x in Step(w, c).pending && x.event.Arrival? && x !in w.pending ==> x.time >= w.pending[0].time + hop
  }

  /** A run in which every link takes at least this time for a packet, one at a time in each direction. */
  ghost predicate Physical(w: World, choices: seq<Choice>, hop: real)
  {
    choices == [] ||
    var before := choices[..|choices| - 1];
    && Physical(w, before, hop) && Departs(Run(w, before), choices[|choices| - 1], hop)
    && Spaced(Run(w, choices).pending, hop)
  }

  lemma RunNext(w: World, choices: seq<Choice>, c: Choice)
    ensures Run(w, choices + [c]) == Step(Run(w, choices), c)
  {
    assert (choices + [c])[..|choices|] == choices;
  }

  lemma PhysicalNext(w: World, choices: seq<Choice>, c: Choice, hop: real)
    requires Physical(w, choices, hop) && Departs(Run(w, choices), c, hop) && Spaced(Step(Run(w, choices), c).pending, hop)
    ensures Physical(w, choices + [c], hop) && Run(w, choices + [c]) == Step(Run(w, choices), c)
  {
    RunNext(w, choices, c);
    assert (choices + [c])[..|choices|] == choices;
  }

  /** The network takes what it is given and carries it over by some time. */
  function By(arrival: real, isn: u32, payload: seq<byte>): Choice
  {
    Choice(Offer(true, arrival), Offer(true, arrival), isn, payload)
  }

  /** The network refuses or drops what it is given. */
  function Loss(at: real): Choice { Choice(Offer(false, at), Offer(false, at), 0, [0]) }

  // ---- what is next, and the timers behind it ----

  /** Packets are quick: forty hops and a delayed acknowledgement pass before any other timer. */
  predicate Quick(hop: real) { 0.0 < hop <= 0.01 }

  function Horizon(hop: real): real { 0.2 + 40.0 * hop }

  predicate SlowTimer(e: Event) { e.HandshakeTimeout? || e.Timeout? }

  ghost predicate Later(q: seq<Due>, t: real) { forall x :: x in q ==> x.time > t && SlowTimer(x.event) }

  /** These events are next; what waits behind them are timers beyond the horizon. */
  ghost predicate Waits(w: World, fore: seq<Due>, hop: real)
  {
    && |fore| <= |w.pending| && w.pending[..|fore|] == fore && Later(w.pending[|fore|..], Horizon(hop))
    && (forall x :: x in fore ==> x.time <= Horizon(hop) && x.id < w.nextId)
    && forall x :: x in w.pending ==> x.id < w.nextId
  }

  lemma {:induction false} ScheduledFront(fore: seq<Due>, rest: seq<Due>, e: Due, t: real)
    requires Later(rest, t) && e.time <= t
    ensures EventQueues.Scheduled(fore + rest, e) == EventQueues.Scheduled(fore, e) + rest
  {
    if fore == [] {
      assert fore + rest == rest && (rest != [] ==> rest[0] in rest);
    } else if !EventQueues.Earlier(e, fore[0]) {
      assert (fore + rest)[1..] == fore[1..] + rest;
      ScheduledFront(fore[1..], rest, e, t);
    } else {
      assert [e] + (fore + rest) == ([e] + fore) + rest;
    }
  }

  lemma {:induction false} ScheduledBehind(fore: seq<Due>, rest: seq<Due>, e: Due, t: real)
    requires (forall x :: x in fore ==> x.time <= t) && e.time > t
    ensures EventQueues.Scheduled(fore + rest, e) == fore + EventQueues.Scheduled(rest, e)
  {
    if fore == [] {
      assert fore + rest == rest;
    } else {
      assert fore[0] in fore && forall x :: x in fore[1..] ==> x in fore;
      assert (fore + rest)[1..] == fore[1..] + rest;
      ScheduledBehind(fore[1..], rest, e, t);
    }
  }

  lemma WaitsFront(w: World, fore: seq<Due>, hop: real, e: Event, at: real)
    requires Waits(w, fore, hop) && at <= Horizon(hop)
    ensures Waits(ScheduledAt(w, e, at), EventQueues.Scheduled(fore, At(at, w.nextId, e)), hop)
  {
    var rest, x := w.pending[|fore|..], At(at, w.nextId, e);
    assert w.pending == fore + rest;
    ScheduledFront(fore, rest, x, Horizon(hop));
    var fore' := EventQueues.Scheduled(fore, x);
    assert (fore' + rest)[..|fore'|] == fore' && (fore' + rest)[|fore'|..] == rest;
  }

  lemma WaitsBehind(w: World, fore: seq<Due>, hop: real, e: Event, at: real)
    requires Waits(w, fore, hop) && at > Horizon(hop) && SlowTimer(e)
    ensures Waits(ScheduledAt(w, e, at), fore, hop)
  {
    var rest, x := w.pending[|fore|..], At(at, w.nextId, e);
    assert w.pending == fore + rest;
    ScheduledBehind(fore, rest, x, Horizon(hop));
    var rest' := EventQueues.Scheduled(rest, x);
    assert (fore + rest')[..|fore|] == fore && (fore + rest')[|fore|..] == rest';
  }

  lemma WaitsPopped(w: World, fore: seq<Due>, hop: real)
    requires Waits(w, fore, hop) && fore != []
    ensures w.pending != [] && w.pending[0] == fore[0] && Popped(w).now == fore[0].time
    ensures Waits(Popped(w), fore[1..], hop)
  {
    var rest := w.pending[|fore|..];
    assert w.pending == fore + rest;
    assert w.pending[1..] == fore[1..] + rest;
    assert forall x :: x in fore[1..] ==> x in fore;
    assert forall x :: x in w.pending[1..] ==> x in w.pending;
  }

  lemma WaitsSame(w: World, w': World, fore: seq<Due>, hop: real)
    requires Waits(w, fore, hop) && w'.pending == w.pending && w'.nextId == w.nextId
    ensures Waits(w', fore, hop)
  {
  }

  /** Putting an event at its place in the queue. */
  lemma Placed(q: seq<Due>, e: Due, i: nat)
    requires i <= |q| && (forall k :: 0 <= k < i ==> !EventQueues.Earlier(e, q[k])) && (i < |q| ==> EventQueues.Earlier(e, q[i]))
    ensures EventQueues.Scheduled(q, e) == q[..i] + [e] + q[i..]
  {
    EventQueues.ScheduledAt(q, e, i);
  }

  /** A step whose foreground is known is physical when that is. */
  lemma WaitsPhysical(w: World, c: Choice, fore: seq<Due>, fore': seq<Due>, hop: real)
    requires Waits(w, fore, hop) && fore != [] && Waits(Step(w, c), fore', hop) && Spaced(fore', hop)
    requires forall x :: x in fore' && x.event.Arrival? && x !in fore ==> x.time >= fore[0].time + hop
    ensures Departs(w, c, hop) && Spaced(Step(w, c).pending, hop)
  {
    var rest, rest' := w.pending[|fore|..], Step(w, c).pending[|fore'|..];
    assert w.pending == fore + rest && Step(w, c).pending == fore' + rest';
    assert w.pending[0] == fore[0];
    forall x | x in Step(w, c).pending && x.event.Arrival? ensures x in fore' { assert x !in rest'; }
  }

  // ---- one packet over the relay ----

  /** One packet is about to arrive, nothing else is next. */
  ghost predicate OneOut(w: World, hop: real, t: real, p: Packet, fore: seq<Due>)
  {
    w.pending != [] && w.pending[0] == At(t, w.pending[0].id, Arrival(p)) && Waits(w, [w.pending[0]] + fore, hop)
  }

  /** What a run must go on to be of the same kind. */
  ghost predicate GoesOn(w: World, c: Choice, hop: real)
  {
    Enabled(w, c) && Departs(w, c, hop) && Spaced(Step(w, c).pending, hop)
  }

  lemma OneSpaced(x: Due, hop: real)
    ensures Spaced([x], hop)
  {
  }

  /** The relay sends a packet on. */
  lemma Relays(w: World, relay: nat, hop: real, t: real, p: Packet, c: Choice)
    requires Quick(hop) && Relayed(w.site, relay) && OneOut(w, hop, t, p, []) && p.at == relay
    requires c.payload != [] && c.offer == c.offer2 == Offer(true, c.offer.arrival)
    requires t + hop <= c.offer.arrival <= Horizon(hop)
    ensures GoesOn(w, c, hop)
    ensures var p' := p.(at := Home(w.site, p.toServer));
      Step(w, c) == ScheduledAt(Popped(w), Arrival(p'), c.offer.arrival) && OneOut(Step(w, c), hop, c.offer.arrival, p', [])
  {
    var p' := p.(at := Home(w.site, p.toServer));
    var x := w.pending[0];
    assert [x] + [] == [x] && [x][1..] == [];
    WaitsPopped(w, [x], hop);
    WaitsFront(Popped(w), [], hop, Arrival(p'), c.offer.arrival);
    var x' := At(c.offer.arrival, w.nextId, Arrival(p'));
    assert Step(w, c) == ScheduledAt(Popped(w), Arrival(p'), c.offer.arrival);
    OneNext(Step(w, c), hop, x', p');
    WaitsPhysical(w, c, [x], [x'], hop);
  }

  lemma OneNext(w: World, hop: real, x: Due, p: Packet)
    requires Waits(w, [x], hop) && x.event == Arrival(p)
    ensures OneOut(w, hop, x.time, p, []) && w.pending[0] == x
  {
    assert w.pending[..1] == [x] && [x] + [] == [x];
  }

  // ---- the handshake ----

  function Syn(isn: u32, at: int): Packet { Packet(true, SYN, isn, 0, [], at) }

  function SynAck(isn: u32, at: int): Packet { Packet(false, SYN_ACK, 0, Wrap(isn + 1), [], at) }

  function Ack(isn: u32, at: int): Packet { Packet(true, ACK, Wrap(isn + 1), 1, [], at) }

  /** No traffic yet. */
  ghost predicate AtRest(w: World, site: Site)
  {
    w.site == site && !w.trafficGenerated && !w.closeRequested && w.delivered == [] && w.sent == w.total == 0
  }

  ghost predicate Opener(client: Endpoint, isn: u32)
  {
    && client.state.SYN_SENT? && client.seqNum == isn && client.window == DEFAULT_WINDOW
    && client.sendBuffer == [] && client.timer == RT.FreshTimer
  }

  /** The server as the SYN leaves it. */
  ghost predicate Answering(server: Endpoint, isn: u32)
  {
    && server.state.SYN_RECEIVED? && server.seqNum == 0 && server.expectedAck == Wrap(isn + 1)
    && !server.delayedAck && server.receiveBuffer == RB.Buffer([], Wrap(isn + 1), DEFAULT_WINDOW, 0)
    && server.sendBuffer == [] && server.detector.duplicates == 0
  }

  /** The client as the SYN-ACK leaves it, with nothing sent yet. */
  ghost predicate Ready(client: Endpoint, isn: u32)
  {
    && client.state.ESTABLISHED? && client.seqNum == client.unacknowledged == Wrap(isn + 1)
    && client.window == DEFAULT_WINDOW && client.sendBuffer == [] && client.timer == RT.FreshTimer
  }

  /** The server established, with nothing received yet. */
  ghost predicate Listening(server: Endpoint, isn: u32)
  {
    && server.state.ESTABLISHED? && server.expectedAck == Wrap(isn + 1)
    && !server.delayedAck && server.receiveBuffer == RB.Buffer([], Wrap(isn + 1), DEFAULT_WINDOW, 0)
  }

  ghost predicate SynOut(w: World, site: Site, isn: u32)
  {
    AtRest(w, site) && Opener(w.client, isn) && w.server == NewEndpoint(TS.CLOSED, 0, 0, FreshControl())
  }

  ghost predicate SynAckOut(w: World, site: Site, isn: u32)
  {
    AtRest(w, site) && Opener(w.client, isn) && Answering(w.server, isn)
  }

  ghost predicate AckOut(w: World, site: Site, isn: u32)
  {
    && AtRest(w, site) && Ready(w.client, isn) && w.stream == Reassembly.Partition(Wrap(isn + 1), [])
    && Answering(w.server, isn)
  }

  /** Both ends established, the first generation due. */
  ghost predicate ReadyToSend(w: World, site: Site, isn: u32)
  {
    && w.site == site && w.delivered == [] && w.sent == 0 && w.total == PACKETS_PER_ROUTE
    && w.trafficGenerated && !w.closeRequested
    && Ready(w.client, isn) && Listening(w.server, isn) && w.stream == Reassembly.Partition(Wrap(isn + 1), [])
  }

  /** The session just started, with its SYN sent and not yet timed. */
  function Opened(site: Site, relay: nat, hop: real, isn: u32): World
  {
    var w := Start(site, TS.CLOSED);
    ScheduledAt(w.(client := SendSyn(w.client, isn).ep, pending := []), Arrival(Syn(isn, relay)), hop)
  }

  lemma OpensWithSyn(site: Site, relay: nat, hop: real, isn: u32)
    requires Quick(hop) && Relayed(site, relay)
    ensures Step(Start(site, TS.CLOSED), By(hop, isn, [0])) == Scheduled(Opened(site, relay, hop, isn), HandshakeTimeout, SYN_TIMEOUT)
    ensures SynOut(Scheduled(Opened(site, relay, hop, isn), HandshakeTimeout, SYN_TIMEOUT), site, isn)
  {
    var w := Start(site, TS.CLOSED);
    assert w.pending[1..] == [];
  }

  lemma SendsSyn(site: Site, relay: nat, hop: real, isn: u32)
    requires Quick(hop) && Relayed(site, relay)
    ensures var w, c := Start(site, TS.CLOSED), By(hop, isn, [0]);
      GoesOn(w, c, hop) && SynOut(Step(w, c), site, isn) && OneOut(Step(w, c), hop, hop, Syn(isn, relay), [])
  {
    var w, c, w1 := Start(site, TS.CLOSED), By(hop, isn, [0]), Opened(site, relay, hop, isn);
    var x, x' := At(0.0, 0, Handshake), At(hop, 1, Arrival(Syn(isn, relay)));
    assert w.pending == [x] && w1.pending == [x'];
    OpensWithSyn(site, relay, hop, isn);
    assert Waits(w, [x], hop) && Waits(w1, [x'], hop);
    WaitsBehind(w1, [x'], hop, HandshakeTimeout, SYN_TIMEOUT);
    OneNext(Step(w, c), hop, x', Syn(isn, relay));
    WaitsPhysical(w, c, [x], [x'], hop);
  }

  /** The single packet at the head arrives; a reply goes the other way. */
  lemma Replies(w: World, hop: real, t: real, p: Packet, w1: World, q: Packet, c: Choice)
    requires Quick(hop) && OneOut(w, hop, t, p, []) && w1.pending == Popped(w).pending && w1.nextId == w.nextId
    requires Enabled(w, c) && Step(w, c) == ScheduledAt(w1, Arrival(q), c.offer.arrival)
    requires t + hop <= c.offer.arrival <= Horizon(hop)
    ensures GoesOn(w, c, hop) && OneOut(Step(w, c), hop, c.offer.arrival, q, [])
  {
    var x := w.pending[0];
    assert [x] + [] == [x] && [x][1..] == [];
    WaitsPopped(w, [x], hop);
    WaitsSame(Popped(w), w1, [], hop);
    WaitsFront(w1, [], hop, Arrival(q), c.offer.arrival);
    var x' := At(c.offer.arrival, w1.nextId, Arrival(q));
    OneNext(Step(w, c), hop, x', q);
    WaitsPhysical(w, c, [x], [x'], hop);
  }

  lemma AnswersSyn(w: World, relay: nat, hop: real, t: real, isn: u32)
    requires Quick(hop) && Relayed(w.site, relay) && SynOut(w, w.site, isn) && OneOut(w, hop, t, Syn(isn, w.site.server), [])
    requires t + hop <= Horizon(hop)
    ensures var c := By(t + hop, isn, [0]);
      GoesOn(w, c, hop) && SynAckOut(Step(w, c), w.site, isn) && OneOut(Step(w, c), hop, t + hop, SynAck(isn, relay), [])
  {
    var c, p := By(t + hop, isn, [0]), Syn(isn, w.site.server);
    var w1 := Popped(w).(server := ReceiveSyn(w.server, isn).ep);
    assert Step(w, c) == ScheduledAt(w1, Arrival(SynAck(isn, relay)), t + hop);
    Replies(w, hop, t, p, w1, SynAck(isn, relay), c);
  }

  lemma TakesSynAck(w: World, relay: nat, hop: real, t: real, isn: u32)
    requires Quick(hop) && Relayed(w.site, relay) && SynAckOut(w, w.site, isn) && OneOut(w, hop, t, SynAck(isn, w.site.client), [])
    requires t + hop <= Horizon(hop)
    ensures var c := By(t + hop, isn, [0]);
      GoesOn(w, c, hop) && AckOut(Step(w, c), w.site, isn) && OneOut(Step(w, c), hop, t + hop, Ack(isn, relay), [])
  {
    var c, p := By(t + hop, isn, [0]), SynAck(isn, w.site.client);
    var ep := ReceiveSynAck(w.client, p.seqNo, p.ack).ep;
    var w1 := Popped(w).(client := ep, stream := Reassembly.Partition(ep.seqNum, []));
    assert Step(w, c) == ScheduledAt(w1, Arrival(Ack(isn, relay)), t + hop);
    Replies(w, hop, t, p, w1, Ack(isn, relay), c);
  }

  /** The first generation is next, at the instant the server was established. */
  lemma TakesAck(w: World, hop: real, t: real, isn: u32)
    requires Quick(hop) && AckOut(w, w.site, isn) && OneOut(w, hop, t, Ack(isn, w.site.server), []) && t <= Horizon(hop)
    ensures var c := By(t, isn, [0]);
      && GoesOn(w, c, hop) && ReadyToSend(Step(w, c), w.site, isn) && Step(w, c).now == t
      && Waits(Step(w, c), [At(t, w.nextId, Generate)], hop) && Step(w, c).nextId == w.nextId + 1
  {
    var c, p, x := By(t, isn, [0]), Ack(isn, w.site.server), w.pending[0];
    assert [x] + [] == [x] && [x][1..] == [];
    WaitsPopped(w, [x], hop);
    var server := Acknowledging(w.server, p.ack, t).ep;
    var w1 := Popped(w).(server := server, total := PACKETS_PER_ROUTE, trafficGenerated := true);
    assert Step(w, c) == Scheduled(w1, Generate, 0.0);
    WaitsSame(Popped(w), w1, [], hop);
    WaitsFront(w1, [], hop, Generate, t + 0.0);
    WaitsPhysical(w, c, [x], [At(t, w.nextId, Generate)], hop);
  }

  // ---- runs ----

  /** A physical run leads from one state to another. */
  ghost predicate Leads(w0: World, choices: seq<Choice>, w: World, hop: real)
  {
    Physical(w0, choices, hop) && Run(w0, choices) == w
  }

  lemma LeadsOn(w0: World, choices: seq<Choice>, w: World, c: Choice, hop: real) returns (longer: seq<Choice>)
    requires Leads(w0, choices, w, hop) && GoesOn(w, c, hop)
    ensures Leads(w0, longer, Step(w, c), hop)
  {
    longer := choices + [c];
    PhysicalNext(w0, choices, c, hop);
  }

  /** Time has passed and packets have moved on, nothing else. */
  ghost predicate Moved(w: World, w': World) { w' == w.(pending := w'.pending, nextId := w'.nextId, now := w'.now) }

  /** The relay's turn in a run. */
  lemma RelayLeg(w0: World, choices: seq<Choice>, w: World, relay: nat, hop: real, t: real, p: Packet)
    returns (longer: seq<Choice>, w': World)
    requires Leads(w0, choices, w, hop) && Quick(hop) && Relayed(w.site, relay) && OneOut(w, hop, t, p, []) && p.at == relay
    requires t + hop <= Horizon(hop)
    ensures Leads(w0, longer, w', hop) && Moved(w, w') && OneOut(w', hop, t + hop, p.(at := Home(w.site, p.toServer)), [])
  {
    var c := By(t + hop, 0, [0]);
    Relays(w, relay, hop, t, p, c);
    longer := LeadsOn(w0, choices, w, c, hop);
    w' := Step(w, c);
  }

  lemma SynLeg(w0: World, choices: seq<Choice>, w: World, relay: nat, hop: real, t: real, isn: u32)
    returns (longer: seq<Choice>, w': World)
    requires Leads(w0, choices, w, hop) && Quick(hop) && Relayed(w.site, relay) && SynOut(w, w.site, isn)
    requires OneOut(w, hop, t, Syn(isn, w.site.server), []) && t + hop <= Horizon(hop)
    ensures Leads(w0, longer, w', hop) && SynAckOut(w', w.site, isn) && OneOut(w', hop, t + hop, SynAck(isn, relay), [])
  {
    AnswersSyn(w, relay, hop, t, isn);
    longer := LeadsOn(w0, choices, w, By(t + hop, isn, [0]), hop);
    w' := Step(w, By(t + hop, isn, [0]));
  }

  lemma SynAckLeg(w0: World, choices: seq<Choice>, w: World, relay: nat, hop: real, t: real, isn: u32)
    returns (longer: seq<Choice>, w': World)
    requires Leads(w0, choices, w, hop) && Quick(hop) && Relayed(w.site, relay) && SynAckOut(w, w.site, isn)
    requires OneOut(w, hop, t, SynAck(isn, w.site.client), []) && t + hop <= Horizon(hop)
    ensures Leads(w0, longer, w', hop) && AckOut(w', w.site, isn) && OneOut(w', hop, t + hop, Ack(isn, relay), [])
  {
    TakesSynAck(w, relay, hop, t, isn);
    longer := LeadsOn(w0, choices, w, By(t + hop, isn, [0]), hop);
    w' := Step(w, By(t + hop, isn, [0]));
  }

  /** Both ends established, the first generation next. */
  ghost predicate Poised(w: World, site: Site, isn: u32, hop: real)
  {
    ReadyToSend(w, site, isn) && w.now == 6.0 * hop && 0 < w.nextId && Waits(w, [At(6.0 * hop, w.nextId - 1, Generate)], hop)
  }

  lemma AckLeg(w0: World, choices: seq<Choice>, w: World, hop: real, isn: u32) returns (longer: seq<Choice>, w': World)
    requires Leads(w0, choices, w, hop) && Quick(hop) && AckOut(w, w.site, isn)
    requires OneOut(w, hop, 6.0 * hop, Ack(isn, w.site.server), [])
    ensures Leads(w0, longer, w', hop) && Poised(w', w.site, isn, hop)
  {
    TakesAck(w, hop, 6.0 * hop, isn);
    longer := LeadsOn(w0, choices, w, By(6.0 * hop, isn, [0]), hop);
    w' := Step(w, By(6.0 * hop, isn, [0]));
  }

  lemma OpeningLeg(site: Site, relay: nat, hop: real, isn: u32) returns (choices: seq<Choice>, w: World)
    requires Quick(hop) && Relayed(site, relay)
    ensures Leads(Start(site, TS.CLOSED), choices, w, hop) && SynOut(w, site, isn) && OneOut(w, hop, hop, Syn(isn, relay), [])
  {
    SendsSyn(site, relay, hop, isn);
    choices := LeadsOn(Start(site, TS.CLOSED), [], Start(site, TS.CLOSED), By(hop, isn, [0]), hop);
    w := Step(Start(site, TS.CLOSED), By(hop, isn, [0]));
  }

  /** For every initial number there is such a run that establishes both ends, in six hops. */
  lemma HandshakeCompletes(site: Site, relay: nat, hop: real, isn: u32) returns (choices: seq<Choice>, w: World)
    requires Quick(hop) && Relayed(site, relay)
    ensures Leads(Start(site, TS.CLOSED), choices, w, hop) && Poised(w, site, isn, hop)
  {
    choices, w := OpeningLeg(site, relay, hop, isn);
    choices, w := FromSyn(Start(site, TS.CLOSED), choices, w, relay, hop, isn);
  }

  lemma FromSyn(w0: World, before: seq<Choice>, w1: World, relay: nat, hop: real, isn: u32) returns (choices: seq<Choice>, w: World)
    requires Quick(hop) && Relayed(w1.site, relay)
    requires Leads(w0, before, w1, hop) && SynOut(w1, w1.site, isn) && OneOut(w1, hop, hop, Syn(isn, relay), [])
    ensures Leads(w0, choices, w, hop) && Poised(w, w1.site, isn, hop)
  {
    choices, w := RelayLeg(w0, before, w1, relay, hop, hop, Syn(isn, relay));
    choices, w := SynLeg(w0, choices, w, relay, hop, 2.0 * hop, isn);
    choices, w := RelayLeg(w0, choices, w, relay, hop, 3.0 * hop, SynAck(isn, relay));
    choices, w := SynAckLeg(w0, choices, w, relay, hop, 4.0 * hop, isn);
    choices, w := RelayLeg(w0, choices, w, relay, hop, 5.0 * hop, Ack(isn, relay));
    choices, w := AckLeg(w0, choices, w, hop, isn);
  }
}
