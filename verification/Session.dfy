/**
  One TCP session as a system of timed events: the two endpoints, the packets under way and the pending
  timers, over a network with fixed routing tables. Each event body (PacketReceivedEvent, TCPTimeoutEvent,
  TCPRetransmissionEvent, TCPFastRetransmitEvent, PacketGenerationEvent, TCPDelayedAckEvent, the handshake
  and close events) is a function of the session. Packets follow the tables hop by hop; whether a link takes
  a packet, and when it then arrives, is a choice made at every hop.
 */
module Session {
  import opened Common
  import opened Word32
  import opened Connection
  import opened EventQueues
  import opened Forwarding
  import TS = TcpState
  import RB = ReceiveBuffer
  import SB = SendBuffer
  import CC = CongestionControl
  import RT = RetransmissionTimer
  import opened Reassembly

  const PACKETS_PER_ROUTE: nat := 20
  const SYN_TIMEOUT := 1.0
  const ACK_DELAY := 0.2
  const TIME_WAIT_DELAY := 0.1

  datatype Kind = SYN | SYN_ACK | ACK | DATA | FIN | RST

  /** `at` is the node a packet is at, or will be at when it arrives. */
  datatype Packet = Packet(toServer: bool, kind: Kind, seqNo: u32, ack: u32, payload: seq<byte>, at: int)

  datatype Event =
    | Arrival(packet: Packet)
    | Handshake
    | HandshakeTimeout
    | Generate
    | DelayedAck(atServer: bool, number: u32)
    | Timeout(seqNo: u32)
    | Retransmission(seqNo: u32)
    | FastRetransmission
    | Close
    | TimeWaitTimeout

  datatype Transmission = Transmission(seqNo: u32, at: real)

  /** The routing tables a session uses, its two end nodes, and the time its handshake is scheduled for. */
  datatype Site = Site(tables: Tables, client: nat, server: nat, begin: real)

  /**
    `stream`, `delivered` and `log` are history: the segments the client has queued, the bytes the
    server has taken out of its receive buffer, and every transmission of a data segment.
   */
  datatype World = World(
    client: Endpoint,
    server: Endpoint,
    total: nat,
    sent: nat,
    trafficGenerated: bool,
    closeRequested: bool,
    pending: seq<Timed<Event>>,
    nextId: nat,
    now: real,
    site: Site,
    stream: Partition,
    delivered: seq<byte>,
    log: seq<Transmission>)

  /** What the first link does with a packet: refuse or drop it, or carry it to its end by some time. */
  datatype Offer = Offer(accepted: bool, arrival: real)

  /** What chance and the network make of one event. */
  datatype Choice = Choice(offer: Offer, offer2: Offer, isn: u32, payload: seq<byte>)

  function Start(site: Site, serverState: TS.State): World
  {
    World(NewEndpoint(TS.CLOSED, 0, 0, FreshControl()), NewEndpoint(serverState, 0, 0, FreshControl()),
          0, 0, false, false, [Timed(site.begin, 0, Handshake)], 1, site.begin, site, Partition(0, []), [], [])
  }

  function End(w: World, server: bool): Endpoint { if server then w.server else w.client }

  function WithEnd(w: World, server: bool, ep: Endpoint): World
  {
    if server then w.(server := ep) else w.(client := ep)
  }

  function Home(site: Site, server: bool): nat { if server then site.server else site.client }

  // ---- scheduling and sending ----

  function ScheduledAt(w: World, e: Event, at: real): World
  {
    w.(pending := EventQueues.Scheduled(w.pending, Timed(at, w.nextId, e)), nextId := w.nextId + 1)
  }

  function Scheduled(w: World, e: Event, delay: real): World { ScheduledAt(w, e, w.now + delay) }

  function NextNode(site: Site, p: Packet): int { GetNextHop(site.tables, p.at, Home(site, p.toServer)) }

  /** Does a send succeed: there is a next hop, and the link to it takes the packet? */
  predicate Taken(w: World, p: Packet, o: Offer)
  {
    o.accepted && NextNode(w.site, p) != -1
  }

  function Sent(w: World, p: Packet, o: Offer): World
  {
    if Taken(w, p, o) then ScheduledAt(w, Arrival(p.(at := NextNode(w.site, p))), o.arrival) else w
  }

  predicate BothEstablished(w: World)
  {
    w.client.state.ESTABLISHED? && w.server.state.ESTABLISHED?
  }

  // ---- segments as the endpoints build them, still at their own node ----

  function SynPacket(site: Site, ep: Endpoint): Packet { Packet(true, SYN, ep.seqNum, 0, [], site.client) }

  function PlainPacket(site: Site, kind: Kind, toServer: bool, ep: Endpoint): Packet
  {
    Packet(toServer, kind, ep.seqNum, ep.expectedAck, [], Home(site, !toServer))
  }

  function DataPacket(site: Site, seqNo: u32, ack: u32, payload: seq<byte>): Packet
  {
    Packet(true, DATA, seqNo, ack, payload, site.client)
  }

  // ---- event bodies ----

  /** A SYN on the wire, and its timer if the network took it. */
  function SynSent(w: World, c: Choice): World
  {
    var syn := SynPacket(w.site, w.client);
    var w1 := Sent(w, syn, c.offer);
    if Taken(w, syn, c.offer) then Scheduled(w1, HandshakeTimeout, SYN_TIMEOUT) else w1
  }

  function OnHandshake(w: World, c: Choice): World
  {
    var out := SendSyn(w.client, c.isn);
    if !out.ok then w else SynSent(w.(client := out.ep), c)
  }

  /** One more SYN counted. */
  function Retried(w: World): World { w.(client := w.client.(synRetries := Wrap(w.client.synRetries + 1))) }

  function OnHandshakeTimeout(w: World, c: Choice): World
  {
    if !w.client.state.SYN_SENT? || w.client.synRetries >= MAX_SYN_RETRIES then w
    else SynSent(Retried(w), c)
  }

  function OnSyn(w: World, p: Packet, c: Choice): World
  {
    var out := ReceiveSyn(End(w, p.toServer), p.seqNo);
    if !out.ok then w
    else Sent(WithEnd(w, p.toServer, out.ep), PlainPacket(w.site, SYN_ACK, !p.toServer, out.ep), c.offer)
  }

  /** A SYN-ACK is always given to the client; the stream starts at the number it leaves there. */
  function OnSynAck(w: World, p: Packet, c: Choice): World
  {
    var out := ReceiveSynAck(w.client, p.seqNo, p.ack);
    if !out.ok then w
    else Sent(w.(client := out.ep, stream := Partition(out.ep.seqNum, [])),
              PlainPacket(w.site, ACK, true, out.ep), c.offer)
  }

  /** Start the traffic once both ends are established; request the close once all of it is sent. */
  function Advanced(w: World): World
  {
    var w1 :=
      if BothEstablished(w) && !w.trafficGenerated then
        Scheduled(w.(total := PACKETS_PER_ROUTE, trafficGenerated := true), Generate, 0.0)
      else w;
    if BothEstablished(w1) && w1.trafficGenerated && w1.sent == w1.total && !w1.closeRequested then
      Scheduled(w1.(closeRequested := true), Close, 0.0)
    else w1
  }

  /** The receiver of an acknowledgement, before the timers it sets off. */
  function Acknowledging(ep: Endpoint, ack: u32, now: real): Outcome
  {
    var out := ReceiveAck(ep, ack, now);
    Outcome(out.ep.(congestion := CC.OnDuplicateAck(out.ep.congestion)), out.ok)
  }

  function Rto(ep: Endpoint): real { RT.CurrentRto(ep.timer) }

  /** The timer an acknowledgement re-arms for the oldest segment. */
  function Rearmed(w: World, toServer: bool, advanced: bool): World
  {
    var ep := End(w, toServer);
    if advanced && Oldest(ep).Some? then Scheduled(w, Timeout(Oldest(ep).value), Rto(ep)) else w
  }

  /** The fast retransmission set off if enough duplicates were seen. */
  function DuplicatesSeen(w: World, toServer: bool): World
  {
    var ep := End(w, toServer);
    if SB.ShouldFastRetransmit(ep.detector) then
      Scheduled(WithEnd(w, toServer, DetectionReset(ep)), FastRetransmission, 0.0)
    else w
  }

  function AckReactions(w: World, toServer: bool, advanced: bool): World
  {
    DuplicatesSeen(Rearmed(w, toServer, advanced), toServer)
  }

  function OnAck(w: World, p: Packet): World
  {
    var out := Acknowledging(End(w, p.toServer), p.ack, w.now);
    Advanced(AckReactions(WithEnd(w, p.toServer, out.ep), p.toServer, out.ok))
  }

  /** The receiver's side of a data segment, and the bytes the server hands over because of it. */
  function DataTaken(w: World, p: Packet): World
  {
    var before := End(w, p.toServer);
    var out := ReceiveData(before, p.seqNo, p.payload);
    if !out.ok then w
    else
      var bytes := RB.DrainedBytes(RB.Pushed(before.receiveBuffer, RB.Segment(p.seqNo, p.payload)));
      WithEnd(if p.toServer then w.(delivered := w.delivered + bytes) else w, p.toServer, out.ep)
  }

  /** An immediate acknowledgement out of order or when one is pending already, otherwise a delayed one. */
  function DataReactions(w: World, toServer: bool, inOrder: bool, c: Choice): World
  {
    var ep := End(w, toServer);
    if !inOrder || ep.delayedAck then
      Sent(WithEnd(w, toServer, ep.(delayedAck := false)), PlainPacket(w.site, ACK, !toServer, ep), c.offer)
    else
      Scheduled(WithEnd(w, toServer, ep.(delayedAck := true)), DelayedAck(toServer, ep.expectedAck), ACK_DELAY)
  }

  function OnData(w: World, p: Packet, c: Choice): World
  {
    if !ReceiveData(End(w, p.toServer), p.seqNo, p.payload).ok then w
    else DataReactions(DataTaken(w, p), p.toServer, p.seqNo == End(w, p.toServer).expectedAck, c)
  }

  /** The receiving side closes too, at once. */
  function FinAnswered(w: World, toServer: bool, c: Choice): World
  {
    var fin := SendFin(End(w, toServer)).ep;
    Sent(WithEnd(w, toServer, fin), PlainPacket(w.site, FIN, !toServer, fin), c.offer2)
  }

  /** The last timer of a client that has reached TIME_WAIT. */
  function LastTimer(w: World): World
  {
    if w.client.state.TIME_WAIT? then Scheduled(w, TimeWaitTimeout, TIME_WAIT_DELAY) else w
  }

  function FinAcked(w: World, toServer: bool, c: Choice): World
  {
    Sent(LastTimer(w), PlainPacket(w.site, ACK, !toServer, End(w, toServer)), c.offer)
  }

  function FinReactions(w: World, toServer: bool, c: Choice): World
  {
    var w' := FinAcked(w, toServer, c);
    if End(w, toServer).state.CLOSE_WAIT? then FinAnswered(w', toServer, c) else w'
  }

  function OnFin(w: World, p: Packet, c: Choice): World
  {
    var out := ReceiveFin(End(w, p.toServer), p.seqNo);
    if !out.ok then w else FinReactions(WithEnd(w, p.toServer, out.ep), p.toServer, c)
  }

  /** A packet that is not yet where it is going is sent on; what arrives is for the protocol. */
  function OnArrival(w: World, p: Packet, c: Choice): World
  {
    if p.at != Home(w.site, p.toServer) then Sent(w, p, c.offer)
    else
      match p.kind
      case SYN => OnSyn(w, p, c)
      case SYN_ACK => OnSynAck(w, p, c)
      case ACK => OnAck(w, p)
      case DATA => OnData(w, p, c)
      case FIN => OnFin(w, p, c)
      case RST => w
  }

  /** The client's side of a generation: the segment queued, counted and remembered. */
  function Queued(w: World, payload: seq<byte>): World
  {
    var out := QueueSent(w.client, w.client.seqNum, w.client.expectedAck, payload, w.now);
    w.(client := out.ep, sent := w.sent + 1, stream := w.stream.(pieces := w.stream.pieces + [payload]),
       log := w.log + [Transmission(w.client.seqNum, w.now)])
  }

  /** The first outstanding segment arms the timer; more to send keeps the generator going. */
  function Continued(w: World, seqNo: u32, first: bool): World
  {
    var w1 := if first then Scheduled(w, Timeout(seqNo), Rto(w.client)) else w;
    if w1.sent != w1.total then Scheduled(w1, Generate, 0.0) else w1
  }

  /** The segment goes to the network first and is stored after. */
  function Generated(w: World, c: Choice): World
  {
    var client := w.client;
    var packet := DataPacket(w.site, client.seqNum, client.expectedAck, c.payload);
    if !QueueSent(client, client.seqNum, client.expectedAck, c.payload, w.now).ok then Sent(w, packet, c.offer)
    else Continued(Queued(Sent(w, packet, c.offer), c.payload), client.seqNum, client.sendBuffer == [])
  }

  function OnGenerate(w: World, c: Choice): World
  {
    var packet := DataPacket(w.site, w.client.seqNum, w.client.expectedAck, c.payload);
    if !BothEstablished(w) || w.sent == w.total || !CanSend(w.client, |c.payload|) || !Taken(w, packet, c.offer) then w
    else Generated(w, c)
  }

  function OnDelayedAck(w: World, atServer: bool, number: u32, c: Choice): World
  {
    var ep := End(w, atServer);
    if !ep.state.ESTABLISHED? || !ep.delayedAck then w
    else
      var w1 := WithEnd(w, atServer, ep.(delayedAck := false));
      if ep.expectedAck != number then w1
      else Sent(w1, PlainPacket(w.site, ACK, !atServer, ep), c.offer)
  }

  function OnTimeout(w: World, seqNo: u32): World
  {
    if !SB.Contains(w.client.sendBuffer, seqNo) || Oldest(w.client) != Some(seqNo) then w
    else if !CanRetransmit(w.client, seqNo) then w.(client := FailRetransmission(w.client))
    else
      var client := SendTimeout(w.client);
      if !client.state.ESTABLISHED? then w.(client := client)
      else Scheduled(w.(client := client), Retransmission(seqNo), 0.0)
  }

  /** Mark the stored segment, put it on the wire again and re-arm its timer. */
  function Resent(w: World, seqNo: u32, c: Choice): World
  {
    var i := SB.Find(w.client.sendBuffer, seqNo);
    if i == |w.client.sendBuffer| then w
    else
      var e := w.client.sendBuffer[i];
      var packet := DataPacket(w.site, seqNo, e.ack, e.payload);
      var w1 := w.(client := MarkRetransmitted(w.client, seqNo, w.now),
                   log := w.log + [Transmission(seqNo, w.now)]);
      if Taken(w1, packet, c.offer) then Scheduled(Sent(w1, packet, c.offer), Timeout(seqNo), Rto(w1.client)) else w1
  }

  function OnRetransmission(w: World, seqNo: u32, c: Choice): World
  {
    if !SB.Contains(w.client.sendBuffer, seqNo) || !w.client.state.ESTABLISHED? then w
    else if !CanRetransmit(w.client, seqNo) then w.(client := FailRetransmission(w.client))
    else Resent(w, seqNo, c)
  }

  function OnFastRetransmission(w: World, c: Choice): World
  {
    if !w.client.state.ESTABLISHED? || w.client.sendBuffer == [] then w
    else
      var seqNo := w.client.sendBuffer[0].seqNo;
      if !CanRetransmit(w.client, seqNo) then w.(client := FailRetransmission(w.client))
      else
        var client := w.client.(congestion := CC.OnFastRetransmit(w.client.congestion, FlightSize(w.client)));
        Resent(w.(client := client), seqNo, c)
  }

  function OnClose(w: World, c: Choice): World
  {
    if !w.client.state.ESTABLISHED? then w
    else
      var out := SendFin(w.client);
      Sent(w.(client := out.ep), PlainPacket(w.site, FIN, true, out.ep), c.offer)
  }

  function OnTimeWaitTimeout(w: World): World
  {
    w.(client := ExpireTimeWait(w.client).ep)
  }

  function Execute(w: World, e: Event, c: Choice): World
  {
    match e
    case Arrival(p) => OnArrival(w, p, c)
    case Handshake => OnHandshake(w, c)
    case HandshakeTimeout => OnHandshakeTimeout(w, c)
    case Generate => OnGenerate(w, c)
    case DelayedAck(atServer, number) => OnDelayedAck(w, atServer, number, c)
    case Timeout(seqNo) => OnTimeout(w, seqNo)
    case Retransmission(seqNo) => OnRetransmission(w, seqNo, c)
    case FastRetransmission => OnFastRetransmission(w, c)
    case Close => OnClose(w, c)
    case TimeWaitTimeout => OnTimeWaitTimeout(w)
  }

  // ---- runs ----

  /** There is an event to run, nothing arrives before it is sent, and segments are not empty. */
  predicate Enabled(w: World, c: Choice)
  {
    && w.pending != [] && c.payload != []
    && c.offer.arrival >= w.pending[0].time && c.offer2.arrival >= w.pending[0].time
  }

  /** The world with the earliest event taken off the queue and the clock set to it. */
  function Popped(w: World): World
    requires w.pending != []
  {
    w.(pending := w.pending[1..], now := w.pending[0].time)
  }

  function Step(w: World, c: Choice): World
  {
    if Enabled(w, c) then Execute(Popped(w), w.pending[0].event, c) else w
  }

  function Run(w: World, choices: seq<Choice>): World
  {
    if choices == [] then w else Step(Run(w, choices[..|choices| - 1]), choices[|choices| - 1])
  }
}
