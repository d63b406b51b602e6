/**
  The session results are not about nothing, and the failures they leave room for happen, over a path of two links
  that carry packets as links do: for every initial sequence number a run hands the first payload over; the
  acknowledgement that comes back for it, and a segment that arrives after the one before it was lost at the relay,
  are refused exactly when the numbers run past 2^32.
 */
module SessionWitness {
  import opened Common
  import opened Word32
  import opened Connection
  import opened Session
  import opened Forwarding
  import opened SessionStream
  import opened SessionWaves
  import opened SessionPath
  import opened SessionBatch
  import EventQueues
  import TS = TcpState
  import RB = ReceiveBuffer
  import SB = SendBuffer
  import RT = RetransmissionTimer
  import Reassembly
  import Dijkstra
  import PathAlgebra
  import Wires
  import RoutingTable

  // ---- losses ----

  lemma LosesHead(w: World, t: real)
    requires w.pending != [] && w.pending[0].time == t
    requires w.pending[0].event.Generate? || (w.pending[0].event.Arrival? && w.pending[0].event.packet.at != Home(w.site, w.pending[0].event.packet.toServer))
    ensures Enabled(w, Loss(t)) && Step(w, Loss(t)) == Popped(w)
  {
  }

  /** What is to be sent next is lost, at the client's link or at the relay's. */
  lemma LossLeg(w0: World, before: seq<Choice>, w: World, fore: seq<Due>, hop: real) returns (choices: seq<Choice>)
    requires Leads(w0, before, w, hop) && Waits(w, fore, hop) && fore != [] && Spaced(fore, hop)
    requires var e := fore[0].event; e.Generate? || (e.Arrival? && e.packet.at != Home(w.site, e.packet.toServer))
    ensures Leads(w0, choices, Popped(w), hop) && Waits(Popped(w), fore[1..], hop) && Spaced(fore[1..], hop)
  {
    WaitsPopped(w, fore, hop);
    LosesHead(w, fore[0].time);
    assert forall x :: x in fore[1..] ==> x in fore;
    WaitsPhysical(w, Loss(fore[0].time), fore, fore[1..], hop);
    choices := LeadsOn(w0, before, w, Loss(fore[0].time), hop);
  }

  /** A data packet or an acknowledgement that has reached its end. */
  lemma PacketReaches(w: World, c: Choice, p: Packet)
    requires Enabled(w, c) && w.pending[0].event == Arrival(p) && p.at == Home(w.site, p.toServer)
    ensures p.kind.DATA? ==> Step(w, c) == OnData(Popped(w), p, c)
    ensures p.kind.ACK? ==> Step(w, c) == OnAck(Popped(w), p)
  {
  }

  // ---- the first payload ----

  /** The segment of a batch of one, about to reach the server. */
  ghost predicate Alone(w: World, b: Plan)
    requires b.pieces != []
  {
    Held(w, b, 1) && OneOut(w, b.hop, 8.0 * b.hop, Segment(b.isn, b.ack, b.pieces, b.s, 0, b.site.server), [])
  }

  lemma OneLeaves(w0: World, before: seq<Choice>, w1: World, b: Plan) returns (choices: seq<Choice>, w: World)
    requires Fits(b) && |b.pieces| == 1 && Sending(w1, b, 1) && Leads(w0, before, w1, b.hop)
    ensures Leads(w0, choices, w, b.hop) && Held(w, b, 1) && w.site == b.site
    ensures OneOut(w, b.hop, 7.0 * b.hop, Segment(b.isn, b.ack, b.pieces, b.s, 0, b.relay), [])
  {
    AheadSpaced(b, 1);
    choices := LossLeg(w0, before, w1, Ahead(b, 1), b.hop);
    w := Popped(w1);
    var x := Leg(b.relay, b.isn, b.ack, b.pieces, b.s, b.hop, b.n, 0);
    assert Ahead(b, 1)[1..] == [x];
    OneNext(w, b.hop, x, x.event.packet);
  }

  lemma OneRelayed(w0: World, before: seq<Choice>, w1: World, b: Plan) returns (choices: seq<Choice>, w: World)
    requires Fits(b) && |b.pieces| == 1 && Relayed(b.site, b.relay) && Leads(w0, before, w1, b.hop) && Held(w1, b, 1)
    requires OneOut(w1, b.hop, 7.0 * b.hop, Segment(b.isn, b.ack, b.pieces, b.s, 0, b.relay), [])
    ensures Leads(w0, choices, w, b.hop) && Alone(w, b)
  {
    choices, w := RelayLeg(w0, before, w1, b.relay, b.hop, 7.0 * b.hop, Segment(b.isn, b.ack, b.pieces, b.s, 0, b.relay));
  }

  /** Only the first payload has been taken by the network, and it has reached the server's node. */
  lemma FirstLeg(site: Site, relay: nat, hop: real, isn: u32, payload: seq<byte>)
    returns (choices: seq<Choice>, w: World, b: Plan)
    requires payload != [] && |payload| <= DEFAULT_WINDOW && Quick(hop) && Relayed(site, relay)
    ensures b.site == site && b.relay == relay && b.isn == isn && b.pieces == [payload] && b.s == |payload| && b.hop == hop
    ensures Leads(Start(site, TS.CLOSED), choices, w, hop) && Alone(w, b)
  {
    choices, w, b := BatchLeaves(site, relay, isn, [payload], |payload|, hop);
    choices, w := OneLeaves(Start(site, TS.CLOSED), choices, w, b);
    choices, w := OneRelayed(Start(site, TS.CLOSED), choices, w, b);
  }

  lemma DrainsOne(isn: u32, payload: seq<byte>)
    requires payload != [] && |payload| <= DEFAULT_WINDOW
    ensures var b, s := RB.Buffer([], Wrap(isn + 1), DEFAULT_WINDOW, 0), RB.Segment(Wrap(isn + 1), payload);
      && RB.Admits(b, s) && RB.DrainedBytes(RB.Pushed(b, s)) == payload
      && RB.Drained(RB.Pushed(b, s)).next == Wrap(isn + 1 + |payload|)
  {
    var b, s := RB.Buffer([], Wrap(isn + 1), DEFAULT_WINDOW, 0), RB.Segment(Wrap(isn + 1), payload);
    assert RB.Inserted([], s) == [s];
    RB.DrainTurn(s, [], DEFAULT_WINDOW, |payload|);
    assert RB.Pushed(b, s) == RB.Buffer([s] + [], Wrap(isn + 1), DEFAULT_WINDOW, |payload|);
    WrapSum(isn + 1, |payload|);
  }

  /** The first of k segments handed over. */
  ghost predicate HandedOver(w: World, b: Plan, k: nat)
    requires 0 < k <= |b.pieces|
  {
    && w.site == b.site && Holds(w.client, b, k) && w.stream == Reassembly.Partition(Wrap(b.isn + 1), b.pieces[..k])
    && w.server.state.ESTABLISHED? && w.delivered == b.pieces[0] && w.server.expectedAck == Number(b.isn, b.s, 1)
    && w.trafficGenerated && w.sent == k && w.total == PACKETS_PER_ROUTE && !w.closeRequested
  }

  /** A server that has seen nothing but the SYN takes what comes next, and hands it over. */
  lemma ListeningTakes(w: World, isn: u32, p: Packet)
    requires Listening(w.server, isn) && p.toServer && p.seqNo == Wrap(isn + 1) && p.payload != [] && |p.payload| <= DEFAULT_WINDOW
    ensures var w' := DataTaken(w, p);
      && ReceiveData(w.server, p.seqNo, p.payload).ok && w'.server.expectedAck == Wrap(isn + 1 + |p.payload|)
      && w'.server.state == w.server.state && w'.server.delayedAck == w.server.delayedAck
      && w' == w.(server := w'.server, delivered := w.delivered + p.payload)
  {
    DrainsOne(isn, p.payload);
  }

  /** The server takes the first segment in order and puts its acknowledgement off. */
  lemma ServerTakesFirst(w: World, b: Plan, k: nat, p: Packet)
    requires Fits(b) && 0 < k <= |b.pieces| && Held(w, b, k) && p == Segment(b.isn, b.ack, b.pieces, b.s, 0, b.site.server)
    ensures var w' := DataTaken(w, p);
      && ReceiveData(w.server, p.seqNo, p.payload).ok && p.seqNo == w.server.expectedAck && !w'.server.delayedAck
      && HandedOver(w', b, k) && w' == w.(server := w'.server, delivered := w'.delivered)
  {
    NumberZero(b.isn, b.s);
    NumberOne(b.isn, b.s);
    FirstSize(b);
    ListeningTakes(w, b.isn, p);
    assert [] + b.pieces[0] == b.pieces[0];
    HeldHandedOver(w, DataTaken(w, p), b, k);
  }

  lemma FirstSize(b: Plan)
    requires Fits(b) && b.pieces != []
    ensures 0 < |b.pieces[0]| == b.s <= DEFAULT_WINDOW
  {
  }

  lemma HeldHandedOver(w: World, w': World, b: Plan, k: nat)
    requires 0 < k <= |b.pieces| && Held(w, b, k) && w' == w.(server := w'.server, delivered := b.pieces[0])
    requires w'.server.state.ESTABLISHED? && w'.server.expectedAck == Number(b.isn, b.s, 1)
    ensures HandedOver(w', b, k)
  {
  }

  lemma TakesFirst(w: World, b: Plan, k: nat, t: real)
    requires Fits(b) && 0 < k <= |b.pieces| && Held(w, b, k) && t + 0.2 <= Horizon(b.hop)
    requires OneOut(w, b.hop, t, Segment(b.isn, b.ack, b.pieces, b.s, 0, b.site.server), [])
    ensures var w' := Step(w, By(t, 0, [0]));
      && GoesOn(w, By(t, 0, [0]), b.hop) && HandedOver(w', b, k) && w'.server.delayedAck
      && Waits(w', [At(t + 0.2, w.nextId, DelayedAck(true, w'.server.expectedAck))], b.hop)
  {
    var x, c := w.pending[0], By(t, 0, [0]);
    var p := x.event.packet;
    assert [x] + [] == [x] && [x][1..] == [];
    WaitsPopped(w, [x], b.hop);
    PacketReaches(w, c, p);
    ServerTakesFirst(Popped(w), b, k, p);
    var w1 := DataTaken(Popped(w), p);
    var w2 := w1.(server := w1.server.(delayedAck := true));
    WaitsSame(Popped(w), w2, [], b.hop);
    WaitsFront(w2, [], b.hop, DelayedAck(true, w1.server.expectedAck), w2.now + ACK_DELAY);
    assert Step(w, c) == Scheduled(w2, DelayedAck(true, w1.server.expectedAck), ACK_DELAY);
    WaitsPhysical(w, c, [x], [At(t + 0.2, w.nextId, DelayedAck(true, w1.server.expectedAck))], b.hop);
  }

  /** The acknowledgement of the first segment, at some node. */
  function Reply(w: World, b: Plan, at: int): Packet
  {
    Packet(false, ACK, w.server.seqNum, Number(b.isn, b.s, 1), [], at)
  }

  lemma AcksLater(w: World, b: Plan, k: nat, t: real, id: nat)
    requires Fits(b) && Relayed(b.site, b.relay) && 0 < k <= |b.pieces| && HandedOver(w, b, k) && w.server.delayedAck
    requires Waits(w, [At(t, id, DelayedAck(true, w.server.expectedAck))], b.hop) && t + b.hop <= Horizon(b.hop)
    ensures var c := By(t + b.hop, 0, [0]);
      GoesOn(w, c, b.hop) && HandedOver(Step(w, c), b, k) && OneOut(Step(w, c), b.hop, t + b.hop, Reply(Step(w, c), b, b.relay), [])
  {
    var x, c := At(t, id, DelayedAck(true, w.server.expectedAck)), By(t + b.hop, 0, [0]);
    assert [x][1..] == [];
    WaitsPopped(w, [x], b.hop);
    var w1 := Popped(w).(server := w.server.(delayedAck := false));
    var q := Reply(w, b, b.relay);
    assert Step(w, c) == ScheduledAt(w1, Arrival(q), t + b.hop);
    WaitsSame(Popped(w), w1, [], b.hop);
    WaitsFront(w1, [], b.hop, Arrival(q), t + b.hop);
    OneNext(Step(w, c), b.hop, At(t + b.hop, w1.nextId, Arrival(q)), q);
    WaitsPhysical(w, c, [x], [At(t + b.hop, w1.nextId, Arrival(q))], b.hop);
  }

  lemma HandedMoved(w: World, w': World, b: Plan, k: nat)
    requires 0 < k <= |b.pieces| && HandedOver(w, b, k) && Moved(w, w')
    ensures HandedOver(w', b, k) && w'.server == w.server
  {
  }

  /** The acknowledgement of the first segment has come back to the client's node. */
  ghost predicate AckBack(w: World, b: Plan, k: nat, t: real)
    requires 0 < k <= |b.pieces|
  {
    HandedOver(w, b, k) && OneOut(w, b.hop, t, Reply(w, b, b.site.client), [])
  }

  /** From the first segment's arrival at the server to the return of its acknowledgement. */
  lemma FirstAckLeg(w0: World, before: seq<Choice>, w1: World, b: Plan, k: nat, t: real) returns (choices: seq<Choice>, w: World)
    requires Fits(b) && Relayed(b.site, b.relay) && 0 < k <= |b.pieces| && Held(w1, b, k) && Leads(w0, before, w1, b.hop)
    requires OneOut(w1, b.hop, t, Segment(b.isn, b.ack, b.pieces, b.s, 0, b.site.server), []) && t + 0.2 + b.hop + b.hop <= Horizon(b.hop)
    ensures Leads(w0, choices, w, b.hop) && AckBack(w, b, k, t + 0.2 + b.hop + b.hop)
  {
    TakesFirst(w1, b, k, t);
    choices := LeadsOn(w0, before, w1, By(t, 0, [0]), b.hop);
    choices, w := SecondHalf(w0, choices, Step(w1, By(t, 0, [0])), b, k, t + 0.2, w1.nextId);
  }

  lemma SecondHalf(w0: World, before: seq<Choice>, w1: World, b: Plan, k: nat, t: real, id: nat) returns (choices: seq<Choice>, w: World)
    requires Fits(b) && Relayed(b.site, b.relay) && 0 < k <= |b.pieces| && HandedOver(w1, b, k) && w1.server.delayedAck
    requires Waits(w1, [At(t, id, DelayedAck(true, w1.server.expectedAck))], b.hop) && t + b.hop + b.hop <= Horizon(b.hop)
    requires Leads(w0, before, w1, b.hop)
    ensures Leads(w0, choices, w, b.hop) && AckBack(w, b, k, t + b.hop + b.hop)
  {
    AcksLater(w1, b, k, t, id);
    var c := By(t + b.hop, 0, [0]);
    choices := LeadsOn(w0, before, w1, c, b.hop);
    var w2 := Step(w1, c);
    choices, w := RelayLeg(w0, choices, w2, b.relay, b.hop, t + b.hop, Reply(w2, b, b.relay));
    HandedMoved(w2, w, b, k);
  }

  /** Both ends established and the payload, all that was sent, handed over. */
  ghost predicate Delivered(w: World, isn: u32, payload: seq<byte>)
  {
    BothEstablished(w) && w.delivered == payload && w.stream == Reassembly.Partition(Wrap(isn + 1), [payload])
  }

  lemma FirstStep(w0: World, before: seq<Choice>, w1: World, b: Plan) returns (choices: seq<Choice>, w: World)
    requires Fits(b) && |b.pieces| == 1 && Alone(w1, b) && Leads(w0, before, w1, b.hop)
    ensures Leads(w0, choices, w, b.hop) && Delivered(w, b.isn, b.pieces[0])
  {
    var t := 8.0 * b.hop;
    TakesFirst(w1, b, 1, t);
    choices := LeadsOn(w0, before, w1, By(t, 0, [0]), b.hop);
    w := Step(w1, By(t, 0, [0]));
    assert b.pieces[..1] == [b.pieces[0]];
  }

  /** For every initial number, at the top of the sequence space or not, some run hands the first payload over. */
  lemma FirstDataArrives(site: Site, relay: nat, hop: real, isn: u32, payload: seq<byte>) returns (choices: seq<Choice>, w: World)
    requires payload != [] && |payload| <= DEFAULT_WINDOW && Quick(hop) && Relayed(site, relay)
    ensures Leads(Start(site, TS.CLOSED), choices, w, hop) && Delivered(w, isn, payload)
  {
    var b;
    choices, w, b := FirstLeg(site, relay, hop, isn, payload);
    choices, w := FirstStep(Start(site, TS.CLOSED), choices, w, b);
  }

  // ---- the acknowledgement that comes back ----

  lemma FlightIsPayload(isn: u32, s: nat)
    requires s <= DEFAULT_WINDOW
    ensures Wrap(Wrap(isn + 1 + s) - Wrap(isn + 1)) == s
  {
  }

  /** The sender's own view of the acknowledgement of its only segment. */
  lemma WholeFlightTaken(ep: Endpoint, isn: u32, payload: seq<byte>, now: real)
    requires payload != [] && |payload| <= DEFAULT_WINDOW && ep.state.ESTABLISHED?
    requires ep.unacknowledged == Wrap(isn + 1) && ep.seqNum == Wrap(isn + 1 + |payload|)
    requires |ep.sendBuffer| == 1 && ep.sendBuffer[0].seqNo == Wrap(isn + 1) && ep.sendBuffer[0].payload == payload
    ensures var ep' := Acknowledging(ep, ep.seqNum, now).ep;
      if Wrap(isn + 1) + |payload| <= MAX_WORD then ep'.sendBuffer == [] && ep'.unacknowledged == ep'.seqNum
      else ep'.sendBuffer == ep.sendBuffer && ep'.unacknowledged == ep.unacknowledged
  {
    FlightIsPayload(isn, |payload|);
    WholeFlightAcknowledgedIff(ep, now);
  }

  lemma ReactionsKeepStore(w: World, advanced: bool)
    ensures var client := Advanced(AckReactions(w, false, advanced)).client;
      client.sendBuffer == w.client.sendBuffer && client.unacknowledged == w.client.unacknowledged && client.seqNum == w.client.seqNum
  {
  }

  /** What the client makes of the acknowledgement. */
  ghost predicate AcceptedIff(before: Endpoint, after: Endpoint, accepted: bool)
  {
    if accepted then after.sendBuffer == [] && after.unacknowledged == after.seqNum
    else after.sendBuffer == before.sendBuffer != [] && after.unacknowledged == before.unacknowledged
  }

  lemma TakesAckBack(w: World, b: Plan, t: real)
    requires Fits(b) && |b.pieces| == 1 && AckBack(w, b, 1, t)
    ensures AcceptedIff(w.client, Step(w, By(t, 0, [0])).client, Wrap(b.isn + 1) + |b.pieces[0]| <= MAX_WORD)
  {
    var c := By(t, 0, [0]);
    NumberZero(b.isn, b.s);
    NumberOne(b.isn, b.s);
    WholeFlightTaken(w.client, b.isn, b.pieces[0], t);
    var out := Acknowledging(w.client, w.client.seqNum, t);
    PacketReaches(w, c, w.pending[0].event.packet);
    ReactionsKeepStore(Popped(w).(client := out.ep), out.ok);
  }

  /** The whole payload has been handed over, and the acknowledgement of all that was sent has come back. */
  ghost predicate AckReturned(w: World, isn: u32, payload: seq<byte>)
  {
    && w.delivered == payload && w.client.unacknowledged == Wrap(isn + 1) && w.client.seqNum == Wrap(isn + 1 + |payload|)
    && w.pending != []
    && w.pending[0].event == Arrival(Packet(false, ACK, w.server.seqNum, w.client.seqNum, [], w.site.client))
  }

  lemma AckBackReturned(w: World, b: Plan, t: real)
    requires Fits(b) && |b.pieces| == 1 && AckBack(w, b, 1, t)
    ensures AckReturned(w, b.isn, b.pieces[0]) && w.pending[0].time == t
  {
    NumberOne(b.isn, b.s);
  }

  /**
    When the network takes only the first payload, and that arrives, its acknowledgement comes back and is accepted
    exactly when the payload does not run past the last sequence number; otherwise the client goes on storing it.
   */
  lemma FirstAckAcceptedIff(site: Site, relay: nat, hop: real, isn: u32, payload: seq<byte>) returns (choices: seq<Choice>, w: World)
    requires payload != [] && |payload| <= DEFAULT_WINDOW && Quick(hop) && Relayed(site, relay)
    ensures Leads(Start(site, TS.CLOSED), choices, w, hop) && AckReturned(w, isn, payload)
    ensures AcceptedIff(w.client, Step(w, By(w.pending[0].time, 0, [0])).client, Wrap(isn + 1) + |payload| <= MAX_WORD)
  {
    var b;
    choices, w, b := FirstLeg(site, relay, hop, isn, payload);
    choices, w := FirstAckLeg(Start(site, TS.CLOSED), choices, w, b, 1, 8.0 * hop);
    AckBackReturned(w, b, 8.0 * hop + 0.2 + hop + hop);
    TakesAckBack(w, b, 8.0 * hop + 0.2 + hop + hop);
  }

  /** The acknowledgement 1 of a payload numbered 2^32 - 1 changes nothing at the client. */
  ghost predicate RefusedAtTheTop(w: World, payload: seq<byte>)
  {
    && w.delivered == payload && w.client.unacknowledged == MAX_WORD && w.client.seqNum == 1
    && w.pending != [] && w.pending[0].event == Arrival(Packet(false, ACK, w.server.seqNum, 1, [], w.site.client))
    && Step(w, By(w.pending[0].time, 0, [0])).client.sendBuffer == w.client.sendBuffer != []
  }

  lemma RefusedThere(w: World, payload: seq<byte>)
    requires |payload| == 2 && AckReturned(w, MAX_WORD - 1, payload)
    requires AcceptedIff(w.client, Step(w, By(w.pending[0].time, 0, [0])).client, false)
    ensures RefusedAtTheTop(w, payload)
  {
  }

  /** For instance: initial number 2^32 - 2 and two bytes. */
  lemma AckRefusedAtTheTop(site: Site, relay: nat, hop: real, payload: seq<byte>) returns (choices: seq<Choice>, w: World)
    requires |payload| == 2 && Quick(hop) && Relayed(site, relay)
    ensures Leads(Start(site, TS.CLOSED), choices, w, hop) && RefusedAtTheTop(w, payload)
  {
    choices, w := FirstAckAcceptedIff(site, relay, hop, MAX_WORD - 1, payload);
    RefusedThere(w, payload);
  }

  // ---- a segment whose predecessor was lost ----

  /** The second segment has reached the server, the first was lost at the relay. */
  ghost predicate FirstLost(w: World, b: Plan)
    requires |b.pieces| == 2
  {
    && Held(w, b, 2) && w.pending != []
    && w.pending[0].event == Arrival(Segment(b.isn, b.ack, b.pieces, b.s, 1, b.site.server))
  }

  lemma LostLeg(site: Site, relay: nat, hop: real, isn: u32, pieces: seq<seq<byte>>, s: nat)
    returns (choices: seq<Choice>, w: World, b: Plan)
    requires |pieces| == 2 && Batch(pieces, s) && Quick(hop) && Relayed(site, relay)
    ensures b.site == site && b.relay == relay && b.isn == isn && b.pieces == pieces && b.s == s && b.hop == hop
    ensures Leads(Start(site, TS.CLOSED), choices, w, hop) && FirstLost(w, b)
  {
    choices, w, b := BatchLeaves(site, relay, isn, pieces, s, hop);
    AheadSpaced(b, 2);
    choices := LossLeg(Start(site, TS.CLOSED), choices, w, Ahead(b, 2), hop);
    w := Popped(w);
    assert Ahead(b, 2)[1..] == Out(b, 2);
    choices, w := RelayLoses(Start(site, TS.CLOSED), choices, w, b);
  }

  lemma RelayLoses(w0: World, before: seq<Choice>, w1: World, b: Plan) returns (choices: seq<Choice>, w: World)
    requires Fits(b) && Relayed(b.site, b.relay) && |b.pieces| == 2 && Held(w1, b, 2)
    requires Leads(w0, before, w1, b.hop) && Waits(w1, Out(b, 2), b.hop) && Spaced(Out(b, 2), b.hop)
    ensures Leads(w0, choices, w, b.hop) && FirstLost(w, b)
  {
    choices := LossLeg(w0, before, w1, Out(b, 2), b.hop);
    var x := Out(b, 2)[1];
    assert Out(b, 2)[1..] == [x];
    OneNext(Popped(w1), b.hop, x, x.event.packet);
    choices, w := SecondRelayed(w0, choices, Popped(w1), b);
  }

  lemma SecondRelayed(w0: World, before: seq<Choice>, w1: World, b: Plan) returns (choices: seq<Choice>, w: World)
    requires Fits(b) && Relayed(b.site, b.relay) && |b.pieces| == 2 && Held(w1, b, 2) && Leads(w0, before, w1, b.hop)
    requires OneOut(w1, b.hop, Tick(8, b.hop), Segment(b.isn, b.ack, b.pieces, b.s, 1, b.relay), [])
    ensures Leads(w0, choices, w, b.hop) && FirstLost(w, b)
  {
    TickNext(8, b.hop);
    TickBelow(9, b.hop);
    choices, w := RelayLeg(w0, before, w1, b.relay, b.hop, Tick(8, b.hop), Segment(b.isn, b.ack, b.pieces, b.s, 1, b.relay));
  }

  /** The receiver's own view of that segment. */
  lemma SecondTaken(server: Endpoint, b: Plan)
    requires Fits(b) && |b.pieces| == 2 && Listening(server, b.isn)
    ensures var s := RB.Segment(Number(b.isn, b.s, 1), b.pieces[1]); var out := ReceiveData(server, s.seqNo, s.payload);
      if Wrap(b.isn + 1) + b.s <= MAX_WORD then out.ok && out.ep.receiveBuffer.entries == [s] else !out.ok
  {
    var s := RB.Segment(Number(b.isn, b.s, 1), b.pieces[1]);
    NumberOne(b.isn, b.s);
    WrapSum(b.isn + 1, b.s);
    assert RB.Inserted([], s) == [s];
  }

  lemma ReactingKeepsStored(w: World, inOrder: bool, c: Choice)
    ensures DataReactions(w, true, inOrder, c).server.receiveBuffer == w.server.receiveBuffer
  {
  }

  /** The client has sent two segments; the server has neither, and the second is about to reach it. */
  ghost predicate SecondAlone(w: World, isn: u32, first: seq<byte>, second: seq<byte>)
  {
    && BothEstablished(w) && w.stream == Reassembly.Partition(Wrap(isn + 1), [first, second])
    && w.delivered == [] && w.server.receiveBuffer.entries == [] && w.server.expectedAck == Wrap(isn + 1)
    && w.pending != []
    && w.pending[0].event == Arrival(Packet(true, DATA, Wrap(isn + 1 + |first|), w.client.expectedAck, second, w.site.server))
  }

  /** What the server makes of it. */
  ghost predicate StoredIff(w: World, isn: u32, first: seq<byte>, second: seq<byte>)
    requires SecondAlone(w, isn, first, second)
  {
    var rb := Step(w, By(w.pending[0].time, 0, [0])).server.receiveBuffer;
    if Wrap(isn + 1) + |first| <= MAX_WORD then rb.entries == [RB.Segment(Wrap(isn + 1 + |first|), second)]
    else rb == w.server.receiveBuffer
  }

  lemma FirstLostAlone(w: World, b: Plan)
    requires Fits(b) && |b.pieces| == 2 && FirstLost(w, b)
    ensures SecondAlone(w, b.isn, b.pieces[0], b.pieces[1])
  {
    assert b.pieces[..2] == [b.pieces[0], b.pieces[1]];
    NumberOne(b.isn, b.s);
  }

  lemma TakesSecond(w: World, b: Plan)
    requires Fits(b) && |b.pieces| == 2 && FirstLost(w, b)
    ensures SecondAlone(w, b.isn, b.pieces[0], b.pieces[1]) && StoredIff(w, b.isn, b.pieces[0], b.pieces[1])
  {
    FirstLostAlone(w, b);
    var c := By(w.pending[0].time, 0, [0]);
    SecondTaken(w.server, b);
    PacketReaches(w, c, w.pending[0].event.packet);
    ReactingKeepsStored(DataTaken(Popped(w), w.pending[0].event.packet), false, c);
    NumberOne(b.isn, b.s);
  }

  /**
    Two segments of one size leave, the relay loses the first, and the second reaches a server that has neither:
    it is stored exactly when its number does not lie past the top of the sequence space; otherwise the server
    refuses a segment it does not have.
   */
  lemma AfterLossAdmittedIff(site: Site, relay: nat, hop: real, isn: u32, first: seq<byte>, second: seq<byte>)
    returns (choices: seq<Choice>, w: World)
    requires 1 <= |first| == |second| && |first| + |second| <= DEFAULT_WINDOW && Quick(hop) && Relayed(site, relay)
    ensures Leads(Start(site, TS.CLOSED), choices, w, hop)
    ensures SecondAlone(w, isn, first, second) && StoredIff(w, isn, first, second)
  {
    var b;
    choices, w, b := LostLeg(site, relay, hop, isn, [first, second], |first|);
    TakesSecond(w, b);
  }

  // ---- such paths exist ----

  /** When the relay is the only neighbour of both ends, tables that count hops lead over it. */
  lemma LineIsRelayed(net: Dijkstra.Network, site: Site, relay: nat, i: nat, j: nat)
    requires Forwarding.RightTables(net, PathAlgebra.HopCount, site.tables)
    requires site.client < |net| && relay < |net| && site.server < |net|
    requires relay != site.client && relay != site.server && site.client != site.server
    requires OnlyNeighbour(net, site.client, relay) && OnlyNeighbour(net, site.server, relay)
    requires i < |net[relay]| && net[relay][i].up && Wires.Other(net[relay][i].wire, relay) == site.client
    requires j < |net[relay]| && net[relay][j].up && Wires.Other(net[relay][j].wire, relay) == site.server
    ensures Relayed(site.(begin := 0.0), relay)
  {
    NeighbourIsNext(net, site.tables, relay, site.client, i);
    NeighbourIsNext(net, site.tables, relay, site.server, j);
    OverRelay(net, site.tables, site.client, relay, site.server, j);
    OverRelay(net, site.tables, site.server, relay, site.client, i);
  }

  /** A node has an up link to the relay and to nobody else. */
  ghost predicate OnlyNeighbour(net: Dijkstra.Network, u: nat, relay: nat)
    requires u < |net|
  {
    && (exists k :: 0 <= k < |net[u]| && net[u][k].up && Wires.Other(net[u][k].wire, u) == relay)
    && forall k :: 0 <= k < |net[u]| && net[u][k].up ==> Wires.Other(net[u][k].wire, u) == relay
  }

  lemma OverRelay(net: Dijkstra.Network, tables: Tables, u: nat, relay: nat, d: nat, j: nat)
    requires RightTables(net, PathAlgebra.HopCount, tables) && u < |net| && relay < |net| && d < |net| && u != d
    requires OnlyNeighbour(net, u, relay)
    requires j < |net[relay]| && net[relay][j].up && Wires.Other(net[relay][j].wire, relay) == d
    ensures GetNextHop(tables, u, d) == relay
  {
    var k :| 0 <= k < |net[u]| && net[u][k].up && Wires.Other(net[u][k].wire, u) == relay;
    var one, walk := [Dijkstra.Hop(u, net[u][k])], [Dijkstra.Hop(u, net[u][k]), Dijkstra.Hop(relay, net[relay][j])];
    assert one[..0] == [] && Dijkstra.IsWalk(net, u, one[..0], u) && Dijkstra.IsWalk(net, u, one, relay);
    assert walk[..1] == one && Dijkstra.IsWalk(net, u, walk, d);
    ForwardedIffReachable(net, PathAlgebra.HopCount, tables, u, d);
  }

  lemma NeighbourIsNext(net: Dijkstra.Network, tables: Tables, u: nat, d: nat, i: nat)
    requires RightTables(net, PathAlgebra.HopCount, tables) && u < |net| && d < |net| && u != d
    requires i < |net[u]| && net[u][i].up && Wires.Other(net[u][i].wire, u) == d
    ensures GetNextHop(tables, u, d) == d
  {
    var m, hop := PathAlgebra.HopCount, [Dijkstra.Hop(u, net[u][i])];
    assert hop[..0] == [] && Dijkstra.IsWalk(net, u, hop[..0], u);
    assert Dijkstra.IsWalk(net, u, hop, d);
    assert RoutingTable.RightTable(net, m, u, tables[u]) && RoutingTable.RightRoute(net, m, u, d, tables[u][d]);
    var far := RoutingTable.Distances(tables[u])[d];
    var walk: seq<Dijkstra.Hop> :| RoutingTable.StartsWith(net, m, u, tables[u][d].nextHop, d, far, walk);
    Dijkstra.HopCountIsLength(hop);
    Dijkstra.HopCountIsLength(walk);
    assert |walk| == 1;
    assert walk[..0] == [];
  }
}
