/**
  A session as an object holding its two connections and the event queue. Each event body works on them step
  by step and is shown to take the session to the state Session.dfy specifies, so what is proved there about
  runs holds of this object; the bytes handed over are those the server's receive buffer gave up.
 */
module TcpSessions {
  import opened Common
  import opened Word32
  import opened Connection
  import opened Session
  import opened TcpConnections
  import EventQueues
  import Forwarding
  import TS = TcpState
  import RB = ReceiveBuffer
  import SB = SendBuffer
  import CC = CongestionControl
  import Reassembly

  /** The queue of a session that is about to start its handshake. */
  method NewQueue(begin: real) returns (queue: EventQueues.EventQueue<Event>)
    ensures fresh(queue) && queue.Valid() && queue.events == [EventQueues.Timed(begin, 0, Handshake)]
  {
    queue := new EventQueues.EventQueue();
    queue.Schedule(EventQueues.Timed(begin, 0, Handshake));
  }

  /** The two connections of a session, which share nothing. */
  method NewEnds(serverState: TS.State) returns (client: TcpConnection, server: TcpConnection)
    ensures client.Valid() && server.Valid() && fresh(client.Repr()) && fresh(server.Repr()) && client.Repr() !! server.Repr()
    ensures client.State() == NewEndpoint(TS.CLOSED, 0, 0, FreshControl())
    ensures server.State() == NewEndpoint(serverState, 0, 0, FreshControl()) && server.receiveBuffer.consumed == []
  {
    client := new TcpConnection(TS.CLOSED, 0, 0, FreshControl());
    server := new TcpConnection(serverState, 0, 0, FreshControl());
  }

  class TcpSession {
    const client: TcpConnection
    const server: TcpConnection
    const queue: EventQueues.EventQueue<Event>
    const site: Site
    var nextId: nat
    var total: nat
    var sent: nat
    var trafficGenerated: bool
    var closeRequested: bool
    var now: real
    ghost var stream: Reassembly.Partition
    ghost var log: seq<Transmission>

    ghost function Repr(): set<object> { {this, queue} + client.Repr() + server.Repr() }

    /** Three objects that share nothing, and no identifier in the queue that is still to be given. */
    ghost predicate Valid()
      reads Repr()
    {
      && client.Valid() && server.Valid() && queue.Valid()
      && client.Repr() !! server.Repr() && {this, queue} !! client.Repr() + server.Repr()
      && forall x :: x in queue.events ==> x.id < nextId
    }

    ghost function State(): World
      reads Repr()
    {
      World(client.State(), server.State(), total, sent, trafficGenerated, closeRequested, queue.events, nextId, now,
            site, stream, server.receiveBuffer.consumed, log)
    }

    constructor (site: Site, serverState: TS.State)
      ensures Valid() && fresh(client.Repr()) && fresh(server.Repr()) && fresh(queue)
      ensures State() == Start(site, serverState)
    {
      var waiting := NewQueue(site.begin);
      var first, second := NewEnds(serverState);
      client, server, queue := first, second, waiting;
      this.site, nextId, total, sent, trafficGenerated, closeRequested := site, 1, 0, 0, false, false;
      now := site.begin;
      stream, log := Reassembly.Partition(0, []), [];
    }

    method ScheduleEvent(e: Event, at: real)
      requires Valid()
      modifies this`nextId, queue
      ensures Valid() && State() == ScheduledAt(old(State()), e, at)
    {
      queue.Schedule(EventQueues.Timed(at, nextId, e));
      nextId := nextId + 1;
    }

    method ScheduleIn(e: Event, delay: real)
      requires Valid()
      modifies this`nextId, queue
      ensures Valid() && State() == Scheduled(old(State()), e, delay)
    {
      ScheduleEvent(e, now + delay);
    }

    /** The retransmission timer of one end's segment. */
    method ArmTimer(sender: TcpConnection, atServer: bool, seqNo: u32)
      requires Valid() && sender == (if atServer then server else client)
      modifies this`nextId, queue
      ensures Valid() && State() == Scheduled(old(State()), Timeout(seqNo), Rto(End(old(State()), atServer)))
    {
      ScheduleIn(Timeout(seqNo), sender.rto.Current());
    }

    /** One hop: the routing table picks the neighbour, the network decides the rest. */
    method Transmit(p: Packet, o: Offer) returns (ok: bool)
      requires Valid()
      modifies this`nextId, queue
      ensures Valid() && State() == Session.Sent(old(State()), p, o) && ok == Taken(old(State()), p, o)
    {
      var next := Forwarding.GetNextHop(site.tables, p.at, Home(site, p.toServer));
      if next == -1 || !o.accepted { return false; }
      ScheduleEvent(Arrival(p.(at := next)), o.arrival);
      ok := true;
    }

    /** A SYN on the wire, and its timer if the network took it. */
    method TransmitSyn(c: Choice)
      requires Valid()
      modifies this`nextId, queue
      ensures Valid() && State() == SynSent(old(State()), c)
    {
      var taken := Transmit(Packet(true, SYN, client.seqNum, 0, [], site.client), c.offer);
      if taken { ScheduleIn(HandshakeTimeout, SYN_TIMEOUT); }
    }

    method HandshakeEvent(c: Choice)
      requires Valid()
      modifies Repr()
      ensures Valid() && State() == OnHandshake(old(State()), c)
    {
      var ok := client.SendSyn(c.isn);
      if !ok { return; }
      TransmitSyn(c);
    }

    method HandshakeTimeoutEvent(c: Choice)
      requires Valid()
      modifies Repr()
      ensures Valid() && State() == OnHandshakeTimeout(old(State()), c)
    {
      if !client.machine.state.SYN_SENT? || client.synRetries >= MAX_SYN_RETRIES { return; }
      CountRetry();
      TransmitSyn(c);
    }

    method CountRetry()
      requires Valid()
      modifies client
      ensures Valid()
      ensures var w := old(State()); State() == Retried(w)
    {
      client.synRetries := Wrap(client.synRetries + 1);
    }

    method SynReceived(p: Packet, c: Choice)
      requires Valid()
      modifies Repr()
      ensures Valid() && State() == OnSyn(old(State()), p, c)
    {
      var receiver := if p.toServer then server else client;
      var ok := receiver.ReceiveSyn(p.seqNo);
      if !ok { return; }
      var synAck := Packet(!p.toServer, SYN_ACK, receiver.seqNum, receiver.expectedAck, [], Home(site, p.toServer));
      var _ := Transmit(synAck, c.offer);
    }

    method SynAckReceived(p: Packet, c: Choice)
      requires Valid()
      modifies Repr()
      ensures Valid() && State() == OnSynAck(old(State()), p, c)
    {
      var ok := client.ReceiveSynAck(p.seqNo, p.ack);
      if !ok { return; }
      stream := Reassembly.Partition(client.seqNum, []);
      var _ := Transmit(Packet(true, ACK, client.seqNum, client.expectedAck, [], site.client), c.offer);
    }

    method StartTraffic()
      requires Valid()
      modifies this, queue
      ensures Valid()
      ensures var w := old(State());
        State() == if BothEstablished(w) && !w.trafficGenerated
                   then Scheduled(w.(total := PACKETS_PER_ROUTE, trafficGenerated := true), Generate, 0.0) else w
    {
      if client.machine.state.ESTABLISHED? && server.machine.state.ESTABLISHED? && !trafficGenerated {
        total := PACKETS_PER_ROUTE;
        trafficGenerated := true;
        ScheduleIn(Generate, 0.0);
      }
    }

    /** Start the traffic once both ends are established; request the close once all of it is sent. */
    method Advance()
      requires Valid()
      modifies this, queue
      ensures Valid() && State() == Advanced(old(State()))
    {
      StartTraffic();
      var established := client.machine.state.ESTABLISHED? && server.machine.state.ESTABLISHED?;
      if established && trafficGenerated && sent == total && !closeRequested {
        closeRequested := true;
        ScheduleIn(Close, 0.0);
      }
    }

    method Rearm(receiver: TcpConnection, toServer: bool, advanced: bool)
      requires Valid() && receiver == (if toServer then server else client)
      modifies this`nextId, queue
      ensures Valid() && State() == Rearmed(old(State()), toServer, advanced)
    {
      if advanced && receiver.sendBuffer.entries != [] {
        ArmTimer(receiver, toServer, receiver.sendBuffer.entries[0].seqNo);
      }
    }

    method CheckDuplicates(receiver: TcpConnection, toServer: bool)
      requires Valid() && receiver == (if toServer then server else client)
      modifies this`nextId, queue, receiver.detector
      ensures Valid() && State() == DuplicatesSeen(old(State()), toServer)
    {
      if SB.ShouldFastRetransmit(receiver.detector.State()) { StartFastRetransmission(receiver, toServer); }
    }

    method StartFastRetransmission(receiver: TcpConnection, toServer: bool)
      requires Valid() && receiver == (if toServer then server else client)
      modifies this`nextId, queue, receiver.detector
      ensures Valid()
      ensures var w := old(State());
        State() == Scheduled(WithEnd(w, toServer, DetectionReset(End(w, toServer))), FastRetransmission, 0.0)
    {
      ScheduleIn(FastRetransmission, 0.0);
      receiver.ResetLossDetection();
    }

    method ReactToAck(receiver: TcpConnection, toServer: bool, advanced: bool)
      requires Valid() && receiver == (if toServer then server else client)
      modifies this`nextId, queue, receiver.detector
      ensures Valid() && State() == AckReactions(old(State()), toServer, advanced)
    {
      Rearm(receiver, toServer, advanced);
      CheckDuplicates(receiver, toServer);
    }

    method TakeAck(receiver: TcpConnection, toServer: bool, ack: u32) returns (ok: bool)
      requires Valid() && receiver == (if toServer then server else client)
      modifies receiver.Repr()
      ensures Valid()
      ensures var out := Acknowledging(End(old(State()), toServer), ack, old(now));
        State() == WithEnd(old(State()), toServer, out.ep) && ok == out.ok
    {
      ok := receiver.ReceiveAck(ack, now);
      receiver.congestion := CC.OnDuplicateAck(receiver.congestion);
    }

    method AckReceived(p: Packet)
      requires Valid()
      modifies Repr()
      ensures Valid() && State() == OnAck(old(State()), p)
    {
      var receiver := if p.toServer then server else client;
      var acknowledged := TakeAck(receiver, p.toServer, p.ack);
      ReactToAck(receiver, p.toServer, acknowledged);
      Advance();
    }

    method SetDelayedAck(receiver: TcpConnection, toServer: bool, pending: bool)
      requires Valid() && receiver == (if toServer then server else client)
      modifies receiver`delayedAck
      ensures Valid()
      ensures var w := old(State()); State() == WithEnd(w, toServer, End(w, toServer).(delayedAck := pending))
    {
      receiver.delayedAck := pending;
    }

    method AcknowledgeNow(receiver: TcpConnection, toServer: bool, c: Choice)
      requires Valid() && receiver == (if toServer then server else client)
      modifies this`nextId, queue, receiver`delayedAck
      ensures Valid()
      ensures var ep := End(old(State()), toServer);
        State() == Session.Sent(WithEnd(old(State()), toServer, ep.(delayedAck := false)),
                                PlainPacket(site, ACK, !toServer, ep), c.offer)
    {
      var ack := Packet(!toServer, ACK, receiver.seqNum, receiver.expectedAck, [], Home(site, toServer));
      SetDelayedAck(receiver, toServer, false);
      var _ := Transmit(ack, c.offer);
    }

    method AcknowledgeLater(receiver: TcpConnection, toServer: bool)
      requires Valid() && receiver == (if toServer then server else client)
      modifies this`nextId, queue, receiver`delayedAck
      ensures Valid()
      ensures var ep := End(old(State()), toServer);
        State() == Scheduled(WithEnd(old(State()), toServer, ep.(delayedAck := true)),
                             DelayedAck(toServer, ep.expectedAck), ACK_DELAY)
    {
      var number := receiver.expectedAck;
      SetDelayedAck(receiver, toServer, true);
      ScheduleIn(DelayedAck(toServer, number), ACK_DELAY);
    }

    /** Out of order, or second in order: acknowledge now. First in order: after the delay. */
    method ReactToData(receiver: TcpConnection, toServer: bool, inOrder: bool, c: Choice)
      requires Valid() && receiver == (if toServer then server else client)
      modifies this`nextId, queue, receiver`delayedAck
      ensures Valid() && State() == DataReactions(old(State()), toServer, inOrder, c)
    {
      if !inOrder || receiver.delayedAck {
        AcknowledgeNow(receiver, toServer, c);
      } else {
        AcknowledgeLater(receiver, toServer);
      }
    }

    method TakeData(receiver: TcpConnection, p: Packet) returns (ok: bool)
      requires Valid() && receiver == (if p.toServer then server else client)
      modifies receiver.Repr()
      ensures Valid() && State() == DataTaken(old(State()), p)
      ensures ok == ReceiveData(End(old(State()), p.toServer), p.seqNo, p.payload).ok
    {
      ok := receiver.ReceiveData(p.seqNo, p.payload);
    }

    method DataReceived(p: Packet, c: Choice)
      requires Valid()
      modifies Repr()
      ensures Valid() && State() == OnData(old(State()), p, c)
    {
      var receiver := if p.toServer then server else client;
      var expectedBefore := receiver.expectedAck;
      var ok := TakeData(receiver, p);
      if ok { ReactToData(receiver, p.toServer, p.seqNo == expectedBefore, c); }
    }

    /** The receiving side's own FIN, when it is waiting to close. */
    method AnswerWithFin(receiver: TcpConnection, toServer: bool, c: Choice)
      requires Valid() && receiver == (if toServer then server else client) && receiver.machine.state.CLOSE_WAIT?
      modifies Repr()
      ensures Valid() && State() == FinAnswered(old(State()), toServer, c)
    {
      var finSent := receiver.SendFin();
      if !finSent { return; }
      var fin := Packet(!toServer, FIN, receiver.seqNum, receiver.expectedAck, [], Home(site, toServer));
      var _ := Transmit(fin, c.offer2);
    }

    method AcknowledgeFin(receiver: TcpConnection, toServer: bool, c: Choice)
      requires Valid() && receiver == (if toServer then server else client)
      modifies this`nextId, queue
      ensures Valid() && State() == FinAcked(old(State()), toServer, c)
    {
      var ack := Packet(!toServer, ACK, receiver.seqNum, receiver.expectedAck, [], Home(site, toServer));
      if client.machine.state.TIME_WAIT? { ScheduleIn(TimeWaitTimeout, TIME_WAIT_DELAY); }
      var _ := Transmit(ack, c.offer);
    }

    method ReactToFin(receiver: TcpConnection, toServer: bool, c: Choice)
      requires Valid() && receiver == (if toServer then server else client)
      modifies Repr()
      ensures Valid() && State() == FinReactions(old(State()), toServer, c)
    {
      AcknowledgeFin(receiver, toServer, c);
      if receiver.machine.state.CLOSE_WAIT? { AnswerWithFin(receiver, toServer, c); }
    }

    method FinReceived(p: Packet, c: Choice)
      requires Valid()
      modifies Repr()
      ensures Valid() && State() == OnFin(old(State()), p, c)
    {
      var receiver := if p.toServer then server else client;
      var ok := receiver.ReceiveFin(p.seqNo);
      if ok { ReactToFin(receiver, p.toServer, c); }
    }

    /** Send while the window allows; the segment is stored only after the network took it. */
    method PacketGenerationEvent(c: Choice)
      requires Valid()
      modifies Repr()
      ensures Valid() && State() == OnGenerate(old(State()), c)
    {
      if !client.machine.state.ESTABLISHED? || !server.machine.state.ESTABLISHED? { return; }
      if sent == total { return; }
      var room := client.HasRoom(|c.payload|);
      if !room { return; }
      GeneratePacket(c);
    }

    method GeneratePacket(c: Choice)
      requires Valid()
      modifies Repr()
      ensures Valid()
      ensures var w := old(State());
        State() == if Taken(w, DataPacket(w.site, w.client.seqNum, w.client.expectedAck, c.payload), c.offer)
                   then Generated(w, c) else w
    {
      var seqNo, ack, first := client.seqNum, client.expectedAck, client.sendBuffer.entries == [];
      var taken := Transmit(Packet(true, DATA, seqNo, ack, c.payload, site.client), c.offer);
      if !taken { return; }
      var queued := QueueSegment(c.payload);
      if queued { ContinueGeneration(seqNo, first); }
    }

    /** The first outstanding segment arms the timer; more to send keeps the generator going. */
    method ContinueGeneration(seqNo: u32, first: bool)
      requires Valid()
      modifies this`nextId, queue
      ensures Valid() && State() == Continued(old(State()), seqNo, first)
    {
      if first { ArmTimer(client, false, seqNo); }
      if sent != total { ScheduleIn(Generate, 0.0); }
    }

    method QueueSegment(payload: seq<byte>) returns (ok: bool)
      requires Valid()
      modifies Repr()
      ensures Valid()
      ensures ok == QueueSent(old(client.State()), old(client.seqNum), old(client.expectedAck), payload, old(now)).ok
      ensures State() == if ok then Queued(old(State()), payload) else old(State())
    {
      var seqNo := client.seqNum;
      ok := client.QueueSentSegment(seqNo, client.expectedAck, payload, now);
      if ok {
        sent := sent + 1;
        stream := stream.(pieces := stream.pieces + [payload]);
        log := log + [Transmission(seqNo, now)];
      }
    }

    method DelayedAckEvent(atServer: bool, number: u32, c: Choice)
      requires Valid()
      modifies Repr()
      ensures Valid() && State() == OnDelayedAck(old(State()), atServer, number, c)
    {
      var receiver := if atServer then server else client;
      if !receiver.machine.state.ESTABLISHED? { return; }
      if !receiver.delayedAck { return; }
      if receiver.expectedAck != number {
        receiver.delayedAck := false;
        return;
      }
      AcknowledgeNow(receiver, atServer, c);
    }

    /** Only the oldest segment times out; past the cap the connection fails. */
    method TimeoutEvent(seqNo: u32)
      requires Valid()
      modifies Repr()
      ensures Valid() && State() == OnTimeout(old(State()), seqNo)
    {
      var i := client.sendBuffer.IndexOf(seqNo);
      if i == |client.sendBuffer.entries| { return; }
      if client.sendBuffer.entries[0].seqNo != seqNo { return; }
      if client.sendBuffer.entries[i].count >= MAX_DATA_RETRANSMISSIONS {
        var _ := client.FailRetransmission();
        return;
      }
      client.OnSendTimeout();
      if !client.machine.state.ESTABLISHED? { return; }
      ScheduleIn(Retransmission(seqNo), 0.0);
    }

    method Resend(seqNo: u32, c: Choice)
      requires Valid()
      modifies Repr()
      ensures Valid() && State() == Resent(old(State()), seqNo, c)
    {
      var i := client.sendBuffer.IndexOf(seqNo);
      if i == |client.sendBuffer.entries| { return; }
      var e := client.sendBuffer.entries[i];
      var _ := client.MarkSegmentRetransmitted(seqNo, now);
      log := log + [Transmission(seqNo, now)];
      var taken := Transmit(Packet(true, DATA, seqNo, e.ack, e.payload, site.client), c.offer);
      if taken { ArmTimer(client, false, seqNo); }
    }

    method RetransmissionEvent(seqNo: u32, c: Choice)
      requires Valid()
      modifies Repr()
      ensures Valid() && State() == OnRetransmission(old(State()), seqNo, c)
    {
      var i := client.sendBuffer.IndexOf(seqNo);
      if i == |client.sendBuffer.entries| { return; }
      if !client.machine.state.ESTABLISHED? { return; }
      if client.sendBuffer.entries[i].count >= MAX_DATA_RETRANSMISSIONS {
        var _ := client.FailRetransmission();
        return;
      }
      Resend(seqNo, c);
    }

    method CutWindow()
      requires Valid()
      modifies client
      ensures Valid()
      ensures var ep := old(State()).client;
        State() == old(State()).(client := ep.(congestion := CC.OnFastRetransmit(ep.congestion, FlightSize(ep))))
    {
      client.congestion := CC.OnFastRetransmit(client.congestion, Wrap(client.seqNum - client.unacknowledged));
    }

    method FastRetransmitEvent(c: Choice)
      requires Valid()
      modifies Repr()
      ensures Valid() && State() == OnFastRetransmission(old(State()), c)
    {
      if !client.machine.state.ESTABLISHED? { return; }
      if client.sendBuffer.entries == [] { return; }
      var seqNo := client.sendBuffer.entries[0].seqNo;
      if client.sendBuffer.entries[0].count >= MAX_DATA_RETRANSMISSIONS {
        var _ := client.FailRetransmission();
        return;
      }
      CutWindow();
      Resend(seqNo, c);
    }

    method CloseEvent(c: Choice)
      requires Valid()
      modifies Repr()
      ensures Valid() && State() == OnClose(old(State()), c)
    {
      if !client.machine.state.ESTABLISHED? { return; }
      var _ := client.SendFin();
      var _ := Transmit(Packet(true, FIN, client.seqNum, client.expectedAck, [], site.client), c.offer);
    }

    method TimeWaitTimeoutEvent()
      requires Valid()
      modifies Repr()
      ensures Valid() && State() == OnTimeWaitTimeout(old(State()))
    {
      var _ := client.ExpireTimeWait();
    }

    method PacketReceivedEvent(p: Packet, c: Choice)
      requires Valid()
      modifies Repr()
      ensures Valid() && State() == OnArrival(old(State()), p, c)
    {
      if p.at != Home(site, p.toServer) {
        var _ := Transmit(p, c.offer);
        return;
      }
      match p.kind
      case SYN => SynReceived(p, c);
      case SYN_ACK => SynAckReceived(p, c);
      case ACK => AckReceived(p);
      case DATA => DataReceived(p, c);
      case FIN => FinReceived(p, c);
      case RST =>
    }

    method ExecuteEvent(e: Event, c: Choice)
      requires Valid()
      modifies Repr()
      ensures Valid() && State() == Execute(old(State()), e, c)
    {
      match e
      case Arrival(p) => PacketReceivedEvent(p, c);
      case Handshake => HandshakeEvent(c);
      case HandshakeTimeout => HandshakeTimeoutEvent(c);
      case Generate => PacketGenerationEvent(c);
      case DelayedAck(atServer, number) => DelayedAckEvent(atServer, number, c);
      case Timeout(seqNo) => TimeoutEvent(seqNo);
      case Retransmission(seqNo) => RetransmissionEvent(seqNo, c);
      case FastRetransmission => FastRetransmitEvent(c);
      case Close => CloseEvent(c);
      case TimeWaitTimeout => TimeWaitTimeoutEvent();
    }

    /** The earliest event taken from the queue and run at its time. */
    method ProcessEvent(c: Choice) returns (ran: bool)
      requires Valid()
      modifies Repr()
      ensures Valid() && State() == Step(old(State()), c) && ran == Enabled(old(State()), c)
    {
      if queue.events == [] || c.payload == [] { return false; }
      if c.offer.arrival < queue.events[0].time || c.offer2.arrival < queue.events[0].time { return false; }
      var head := queue.Next();
      now := head.value.time;
      ExecuteEvent(head.value.event, c);
      ran := true;
    }
  }
}
