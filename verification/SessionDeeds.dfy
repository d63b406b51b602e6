/**
  What every event body asks of the engine: the packets it sends and the timers it sets, in order. The bodies of
  Session are shown to do exactly that to the queue, whatever becomes of the packets.
 */
module SessionDeeds {
  import opened Common
  import opened Word32
  import opened Connection
  import opened Session
  import EventQueues
  import TS = TcpState
  import SB = SendBuffer
  import CC = CongestionControl

  datatype Deed = Sends(packet: Packet, offer: Offer) | Times(event: Event, delay: real)

  function DoneBy(w: World, d: Deed): World
  {
    match d
    case Sends(p, o) => Sent(w, p, o)
    case Times(e, delay) => Scheduled(w, e, delay)
  }

  /** The queue after some deeds. */
  function Done(w: World, deeds: seq<Deed>): World
    decreases |deeds|
  {
    if deeds == [] then w else Done(DoneBy(w, deeds[0]), deeds[1..])
  }

  function When(b: bool, d: Deed): seq<Deed> { if b then [d] else [] }

  function SynDeeds(w: World, c: Choice): seq<Deed>
  {
    [Sends(SynPacket(w.site, w.client), c.offer)]
    + When(Taken(w, SynPacket(w.site, w.client), c.offer), Times(HandshakeTimeout, SYN_TIMEOUT))
  }

  /** Timers set off by an acknowledgement at one end. */
  function ReactionDeeds(w: World, toServer: bool, advanced: bool): seq<Deed>
  {
    var ep := Session.End(w, toServer);
    When(advanced && Oldest(ep).Some?, Times(Timeout(if Oldest(ep).Some? then Oldest(ep).value else 0), Rto(ep)))
    + When(SB.ShouldFastRetransmit(ep.detector), Times(FastRetransmission, 0.0))
  }

  function AdvanceDeeds(w: World): seq<Deed>
  {
    var starts := BothEstablished(w) && !w.trafficGenerated;
    When(starts, Times(Generate, 0.0))
    + When(BothEstablished(w) && (starts || w.trafficGenerated) && w.sent == (if starts then PACKETS_PER_ROUTE else w.total)
           && !w.closeRequested, Times(Close, 0.0))
  }

  function AckDeeds(w: World, p: Packet): seq<Deed>
  {
    var out := Acknowledging(Session.End(w, p.toServer), p.ack, w.now);
    var w1 := WithEnd(w, p.toServer, out.ep);
    ReactionDeeds(w1, p.toServer, out.ok) + AdvanceDeeds(w1)
  }

  function DataDeeds(w: World, p: Packet, c: Choice): seq<Deed>
  {
    if !ReceiveData(Session.End(w, p.toServer), p.seqNo, p.payload).ok then []
    else
      var ep := Session.End(DataTaken(w, p), p.toServer);
      if p.seqNo != Session.End(w, p.toServer).expectedAck || ep.delayedAck
      then [Sends(PlainPacket(w.site, ACK, !p.toServer, ep), c.offer)]
      else [Times(DelayedAck(p.toServer, ep.expectedAck), ACK_DELAY)]
  }

  function FinDeeds(w: World, p: Packet, c: Choice): seq<Deed>
  {
    var out := ReceiveFin(Session.End(w, p.toServer), p.seqNo);
    if !out.ok then []
    else
      var w1 := WithEnd(w, p.toServer, out.ep);
      When(w1.client.state.TIME_WAIT?, Times(TimeWaitTimeout, TIME_WAIT_DELAY))
      + [Sends(PlainPacket(w.site, ACK, !p.toServer, out.ep), c.offer)]
      + When(out.ep.state.CLOSE_WAIT?, Sends(PlainPacket(w.site, FIN, !p.toServer, SendFin(out.ep).ep), c.offer2))
  }

  function ArrivalDeeds(w: World, p: Packet, c: Choice): seq<Deed>
  {
    if p.at != Home(w.site, p.toServer) then [Sends(p, c.offer)]
    else
      match p.kind
      case SYN =>
        var out := ReceiveSyn(Session.End(w, p.toServer), p.seqNo);
        When(out.ok, Sends(PlainPacket(w.site, SYN_ACK, !p.toServer, out.ep), c.offer))
      case SYN_ACK =>
        var out := ReceiveSynAck(w.client, p.seqNo, p.ack);
        When(out.ok, Sends(PlainPacket(w.site, ACK, true, out.ep), c.offer))
      case ACK => AckDeeds(w, p)
      case DATA => DataDeeds(w, p, c)
      case FIN => FinDeeds(w, p, c)
      case RST => []
  }

  function GenerateDeeds(w: World, c: Choice): seq<Deed>
  {
    var packet := DataPacket(w.site, w.client.seqNum, w.client.expectedAck, c.payload);
    if !BothEstablished(w) || w.sent == w.total || !CanSend(w.client, |c.payload|) then []
    else if !Taken(w, packet, c.offer) || c.payload == [] then [Sends(packet, c.offer)]
    else
      var client := QueueSent(w.client, w.client.seqNum, w.client.expectedAck, c.payload, w.now).ep;
      [Sends(packet, c.offer)]
      + When(w.client.sendBuffer == [], Times(Timeout(w.client.seqNum), Rto(client)))
      + When(w.sent + 1 != w.total, Times(Generate, 0.0))
  }

  function ResendDeeds(w: World, seqNo: u32, c: Choice): seq<Deed>
  {
    var i := SB.Find(w.client.sendBuffer, seqNo);
    if i == |w.client.sendBuffer| then []
    else
      var packet := DataPacket(w.site, seqNo, w.client.sendBuffer[i].ack, w.client.sendBuffer[i].payload);
      [Sends(packet, c.offer)] + When(Taken(w, packet, c.offer), Times(Timeout(seqNo), Rto(w.client)))
  }

  /** Everything an event body asks for. */
  function Deeds(w: World, e: Event, c: Choice): seq<Deed>
  {
    match e
    case Arrival(p) => ArrivalDeeds(w, p, c)
    case Handshake =>
      var out := SendSyn(w.client, c.isn);
      if out.ok then SynDeeds(w.(client := out.ep), c) else []
    case HandshakeTimeout =>
      if !w.client.state.SYN_SENT? || w.client.synRetries >= MAX_SYN_RETRIES then [] else SynDeeds(w, c)
    case Generate => GenerateDeeds(w, c)
    case DelayedAck(atServer, number) =>
      var ep := Session.End(w, atServer);
      When(ep.state.ESTABLISHED? && ep.delayedAck && ep.expectedAck == number,
           Sends(PlainPacket(w.site, ACK, !atServer, ep), c.offer))
    case Timeout(seqNo) =>
      When(SB.Contains(w.client.sendBuffer, seqNo) && Oldest(w.client) == Some(seqNo) && CanRetransmit(w.client, seqNo)
           && w.client.state.ESTABLISHED?, Times(Retransmission(seqNo), 0.0))
    case Retransmission(seqNo) =>
      if SB.Contains(w.client.sendBuffer, seqNo) && w.client.state.ESTABLISHED? && CanRetransmit(w.client, seqNo)
      then ResendDeeds(w, seqNo, c) else []
    case FastRetransmission =>
      if w.client.state.ESTABLISHED? && w.client.sendBuffer != [] && CanRetransmit(w.client, w.client.sendBuffer[0].seqNo)
      then ResendDeeds(w, w.client.sendBuffer[0].seqNo, c) else []
    case Close =>
      When(w.client.state.ESTABLISHED?, Sends(PlainPacket(w.site, FIN, true, SendFin(w.client).ep), c.offer))
    case TimeWaitTimeout => []
  }

  // ---- the bodies do exactly that ----

  /** The same queue, clock and place. */
  ghost predicate SameQueue(w: World, w': World)
  {
    w'.pending == w.pending && w'.nextId == w.nextId && w'.now == w.now && w'.site == w.site
  }

  lemma {:induction false} DoneSame(w: World, w': World, deeds: seq<Deed>)
    requires SameQueue(w, w')
    ensures SameQueue(Done(w, deeds), Done(w', deeds))
    decreases |deeds|
  {
    if deeds != [] { DoneSame(DoneBy(w, deeds[0]), DoneBy(w', deeds[0]), deeds[1..]); }
  }

  lemma {:induction false} DoneThen(w: World, a: seq<Deed>, b: seq<Deed>)
    ensures Done(w, a + b) == Done(Done(w, a), b)
    decreases |a|
  {
    if a == [] {
      assert a + b == b;
    } else {
      assert (a + b)[1..] == a[1..] + b && (a + b)[0] == a[0];
      DoneThen(DoneBy(w, a[0]), a[1..], b);
    }
  }

  lemma DoneOne(w: World, d: Deed)
    ensures Done(w, [d]) == DoneBy(w, d)
  {
    assert [d][1..] == [];
  }

  /** From one state a body's deeds lead to the queue of another. */
  ghost predicate Leaves(w: World, deeds: seq<Deed>, w': World) { SameQueue(Done(w, deeds), w') }

  lemma LeavesNone(w: World, w': World)
    requires SameQueue(w, w')
    ensures Leaves(w, [], w')
  {
  }

  lemma LeavesSends(w: World, w1: World, p: Packet, o: Offer)
    requires SameQueue(w, w1)
    ensures Leaves(w, [Sends(p, o)], Sent(w1, p, o))
  {
    DoneOne(w, Sends(p, o));
  }

  lemma LeavesTimes(w: World, w1: World, e: Event, delay: real)
    requires SameQueue(w, w1)
    ensures Leaves(w, [Times(e, delay)], Scheduled(w1, e, delay))
  {
    DoneOne(w, Times(e, delay));
  }

  lemma LeavesThen(w: World, a: seq<Deed>, w1: World, b: seq<Deed>, w2: World)
    requires Leaves(w, a, w1) && Leaves(w1, b, w2)
    ensures Leaves(w, a + b, w2)
  {
    DoneThen(w, a, b);
    DoneSame(Done(w, a), w1, b);
  }

  lemma LeavesFrom(w: World, w1: World, deeds: seq<Deed>, w2: World)
    requires SameQueue(w, w1) && Leaves(w1, deeds, w2)
    ensures Leaves(w, deeds, w2)
  {
    DoneSame(w, w1, deeds);
  }

  lemma LeavesWhen(w: World, b: bool, d: Deed, w': World)
    requires if b then SameQueue(DoneBy(w, d), w') else SameQueue(w, w')
    ensures Leaves(w, When(b, d), w')
  {
    if b { DoneOne(w, d); }
  }

  lemma SynLeaves(w: World, w1: World, c: Choice)
    requires SameQueue(w, w1)
    ensures Leaves(w, SynDeeds(w1, c), SynSent(w1, c))
  {
    var syn := SynPacket(w1.site, w1.client);
    LeavesSends(w, w1, syn, c.offer);
    LeavesWhen(Sent(w1, syn, c.offer), Taken(w1, syn, c.offer), Times(HandshakeTimeout, SYN_TIMEOUT), SynSent(w1, c));
    LeavesThen(w, [Sends(syn, c.offer)], Sent(w1, syn, c.offer),
               When(Taken(w1, syn, c.offer), Times(HandshakeTimeout, SYN_TIMEOUT)), SynSent(w1, c));
  }

  lemma HandshakeLeaves(w: World, e: Event, c: Choice)
    requires e.Handshake? || e.HandshakeTimeout?
    ensures Leaves(w, Deeds(w, e, c), Execute(w, e, c))
  {
    match e
    case Handshake =>
      var out := SendSyn(w.client, c.isn);
      if out.ok { SynLeaves(w, w.(client := out.ep), c); }
    case HandshakeTimeout =>
      if w.client.state.SYN_SENT? && w.client.synRetries < MAX_SYN_RETRIES {
        assert SynPacket(w.site, Retried(w).client) == SynPacket(w.site, w.client);
        assert SynDeeds(Retried(w), c) == SynDeeds(w, c);
        SynLeaves(w, Retried(w), c);
      }
  }

  lemma ReactionsLeave(w: World, toServer: bool, advanced: bool)
    ensures Leaves(w, ReactionDeeds(w, toServer, advanced), AckReactions(w, toServer, advanced))
  {
    var ep, w1 := Session.End(w, toServer), Rearmed(w, toServer, advanced);
    var rearms := advanced && Oldest(ep).Some?;
    var timer := Times(Timeout(if Oldest(ep).Some? then Oldest(ep).value else 0), Rto(ep));
    LeavesWhen(w, rearms, timer, w1);
    var resends := SB.ShouldFastRetransmit(ep.detector);
    assert Session.End(w1, toServer) == ep;
    LeavesWhen(w1, resends, Times(FastRetransmission, 0.0), DuplicatesSeen(w1, toServer));
    LeavesThen(w, When(rearms, timer), w1, When(resends, Times(FastRetransmission, 0.0)), DuplicatesSeen(w1, toServer));
  }

  lemma AdvanceLeaves(w: World)
    ensures Leaves(w, AdvanceDeeds(w), Advanced(w))
  {
    var starts := BothEstablished(w) && !w.trafficGenerated;
    var w1 := if starts then Scheduled(w.(total := PACKETS_PER_ROUTE, trafficGenerated := true), Generate, 0.0) else w;
    LeavesWhen(w, starts, Times(Generate, 0.0), w1);
    var closes := BothEstablished(w) && (starts || w.trafficGenerated) && w.sent == (if starts then PACKETS_PER_ROUTE else w.total)
                  && !w.closeRequested;
    LeavesWhen(w1, closes, Times(Close, 0.0), Advanced(w));
    LeavesThen(w, When(starts, Times(Generate, 0.0)), w1, When(closes, Times(Close, 0.0)), Advanced(w));
  }

  /** Reactions change nothing the advance looks at. */
  lemma ReactionsAdvance(w: World, toServer: bool, advanced: bool)
    ensures AdvanceDeeds(AckReactions(w, toServer, advanced)) == AdvanceDeeds(w)
  {
  }

  lemma AckLeaves(w: World, p: Packet)
    ensures Leaves(w, AckDeeds(w, p), OnAck(w, p))
  {
    var out := Acknowledging(Session.End(w, p.toServer), p.ack, w.now);
    var w1 := WithEnd(w, p.toServer, out.ep);
    var w2 := AckReactions(w1, p.toServer, out.ok);
    ReactionsLeave(w1, p.toServer, out.ok);
    LeavesFrom(w, w1, ReactionDeeds(w1, p.toServer, out.ok), w2);
    ReactionsAdvance(w1, p.toServer, out.ok);
    AdvanceLeaves(w2);
    LeavesThen(w, ReactionDeeds(w1, p.toServer, out.ok), w2, AdvanceDeeds(w1), OnAck(w, p));
  }

  lemma DataLeaves(w: World, p: Packet, c: Choice)
    ensures Leaves(w, DataDeeds(w, p, c), OnData(w, p, c))
  {
    if ReceiveData(Session.End(w, p.toServer), p.seqNo, p.payload).ok {
      var w1 := DataTaken(w, p);
      var ep := Session.End(w1, p.toServer);
      assert SameQueue(w, w1);
      LeavesSends(w, WithEnd(w1, p.toServer, ep.(delayedAck := false)), PlainPacket(w.site, ACK, !p.toServer, ep), c.offer);
      LeavesTimes(w, WithEnd(w1, p.toServer, ep.(delayedAck := true)), DelayedAck(p.toServer, ep.expectedAck), ACK_DELAY);
    }
  }

  lemma FinAckedLeaves(w: World, toServer: bool, c: Choice)
    ensures Leaves(w, When(w.client.state.TIME_WAIT?, Times(TimeWaitTimeout, TIME_WAIT_DELAY))
                      + [Sends(PlainPacket(w.site, ACK, !toServer, Session.End(w, toServer)), c.offer)], FinAcked(w, toServer, c))
  {
    var last, ack := Times(TimeWaitTimeout, TIME_WAIT_DELAY), PlainPacket(w.site, ACK, !toServer, Session.End(w, toServer));
    LeavesWhen(w, w.client.state.TIME_WAIT?, last, LastTimer(w));
    LeavesSends(LastTimer(w), LastTimer(w), ack, c.offer);
    LeavesThen(w, When(w.client.state.TIME_WAIT?, last), LastTimer(w), [Sends(ack, c.offer)], FinAcked(w, toServer, c));
  }

  lemma FinLeaves(w: World, p: Packet, c: Choice)
    ensures Leaves(w, FinDeeds(w, p, c), OnFin(w, p, c))
  {
    var out := ReceiveFin(Session.End(w, p.toServer), p.seqNo);
    if out.ok {
      var w1 := WithEnd(w, p.toServer, out.ep);
      var w2 := FinAcked(w1, p.toServer, c);
      var first := When(w1.client.state.TIME_WAIT?, Times(TimeWaitTimeout, TIME_WAIT_DELAY))
                   + [Sends(PlainPacket(w.site, ACK, !p.toServer, out.ep), c.offer)];
      FinAckedLeaves(w1, p.toServer, c);
      LeavesFrom(w, w1, first, w2);
      var fin := PlainPacket(w.site, FIN, !p.toServer, SendFin(out.ep).ep);
      AnswerLeaves(w2, p.toServer, c);
      LeavesThen(w, first, w2, When(out.ep.state.CLOSE_WAIT?, Sends(fin, c.offer2)), OnFin(w, p, c));
    }
  }

  lemma AnswerLeaves(w: World, toServer: bool, c: Choice)
    ensures var ep := Session.End(w, toServer);
      Leaves(w, When(ep.state.CLOSE_WAIT?, Sends(PlainPacket(w.site, FIN, !toServer, SendFin(ep).ep), c.offer2)),
             if ep.state.CLOSE_WAIT? then FinAnswered(w, toServer, c) else w)
  {
    var ep := Session.End(w, toServer);
    LeavesWhen(w, ep.state.CLOSE_WAIT?, Sends(PlainPacket(w.site, FIN, !toServer, SendFin(ep).ep), c.offer2),
               if ep.state.CLOSE_WAIT? then FinAnswered(w, toServer, c) else w);
  }

  lemma ArrivalLeaves(w: World, p: Packet, c: Choice)
    ensures Leaves(w, ArrivalDeeds(w, p, c), OnArrival(w, p, c))
  {
    if p.at != Home(w.site, p.toServer) { LeavesSends(w, w, p, c.offer); }
    else {
      match p.kind {
        case SYN =>
          var out := ReceiveSyn(Session.End(w, p.toServer), p.seqNo);
          LeavesSends(w, WithEnd(w, p.toServer, out.ep), PlainPacket(w.site, SYN_ACK, !p.toServer, out.ep), c.offer);
        case SYN_ACK =>
          var out := ReceiveSynAck(w.client, p.seqNo, p.ack);
          LeavesSends(w, w.(client := out.ep, stream := OnSynAck(w, p, c).stream), PlainPacket(w.site, ACK, true, out.ep), c.offer);
        case ACK => AckLeaves(w, p);
        case DATA => DataLeaves(w, p, c);
        case FIN => FinLeaves(w, p, c);
        case RST =>
      }
    }
  }

  lemma ContinuedLeaves(w: World, seqNo: u32, first: bool)
    ensures Leaves(w, When(first, Times(Timeout(seqNo), Rto(w.client))) + When(w.sent != w.total, Times(Generate, 0.0)),
                   Continued(w, seqNo, first))
  {
    var w1 := if first then Scheduled(w, Timeout(seqNo), Rto(w.client)) else w;
    LeavesWhen(w, first, Times(Timeout(seqNo), Rto(w.client)), w1);
    LeavesWhen(w1, w.sent != w.total, Times(Generate, 0.0), Continued(w, seqNo, first));
    LeavesThen(w, When(first, Times(Timeout(seqNo), Rto(w.client))), w1, When(w.sent != w.total, Times(Generate, 0.0)),
               Continued(w, seqNo, first));
  }

  lemma GenerateLeaves(w: World, c: Choice)
    ensures Leaves(w, GenerateDeeds(w, c), OnGenerate(w, c))
  {
    var packet := DataPacket(w.site, w.client.seqNum, w.client.expectedAck, c.payload);
    LeavesSends(w, w, packet, c.offer);
    if BothEstablished(w) && w.sent != w.total && CanSend(w.client, |c.payload|) && Taken(w, packet, c.offer) && c.payload != [] {
      var w1 := Queued(Sent(w, packet, c.offer), c.payload);
      assert QueueSent(w.client, w.client.seqNum, w.client.expectedAck, c.payload, w.now).ok;
      ContinuedLeaves(w1, w.client.seqNum, w.client.sendBuffer == []);
      var more := When(w.client.sendBuffer == [], Times(Timeout(w.client.seqNum), Rto(w1.client)))
                  + When(w.sent + 1 != w.total, Times(Generate, 0.0));
      LeavesFrom(Sent(w, packet, c.offer), w1, more, OnGenerate(w, c));
      LeavesThen(w, [Sends(packet, c.offer)], Sent(w, packet, c.offer), more, OnGenerate(w, c));
      SplitDeeds([Sends(packet, c.offer)], When(w.client.sendBuffer == [], Times(Timeout(w.client.seqNum), Rto(w1.client))),
                 When(w.sent + 1 != w.total, Times(Generate, 0.0)));
    }
  }

  lemma SplitDeeds(a: seq<Deed>, b: seq<Deed>, c: seq<Deed>)
    ensures (a + b) + c == a + (b + c)
  {
  }

  lemma ResentLeaves(w: World, w1: World, seqNo: u32, c: Choice)
    requires SameQueue(w, w1) && w1.client.sendBuffer == w.client.sendBuffer && w1.client.timer == w.client.timer
    ensures Leaves(w, ResendDeeds(w, seqNo, c), Resent(w1, seqNo, c))
  {
    var i := SB.Find(w.client.sendBuffer, seqNo);
    if i < |w.client.sendBuffer| {
      var e := w.client.sendBuffer[i];
      var packet := DataPacket(w.site, seqNo, e.ack, e.payload);
      var w2 := w1.(client := MarkRetransmitted(w1.client, seqNo, w1.now), log := w1.log + [Transmission(seqNo, w1.now)]);
      LeavesSends(w, w2, packet, c.offer);
      LeavesWhen(Sent(w2, packet, c.offer), Taken(w2, packet, c.offer), Times(Timeout(seqNo), Rto(w2.client)), Resent(w1, seqNo, c));
      LeavesThen(w, [Sends(packet, c.offer)], Sent(w2, packet, c.offer),
                 When(Taken(w2, packet, c.offer), Times(Timeout(seqNo), Rto(w2.client))), Resent(w1, seqNo, c));
    }
  }

  lemma TimersLeave(w: World, e: Event, c: Choice)
    requires !e.Arrival? && !e.Handshake? && !e.HandshakeTimeout?
    ensures Leaves(w, Deeds(w, e, c), Execute(w, e, c))
  {
    match e
    case Generate => GenerateLeaves(w, c);
    case DelayedAck(atServer, number) =>
      var ep := Session.End(w, atServer);
      LeavesSends(w, WithEnd(w, atServer, ep.(delayedAck := false)), PlainPacket(w.site, ACK, !atServer, ep), c.offer);
    case Timeout(seqNo) => LeavesTimes(w, w.(client := SendTimeout(w.client)), Retransmission(seqNo), 0.0);
    case Retransmission(seqNo) => ResentLeaves(w, w, seqNo, c);
    case FastRetransmission =>
      if w.client.sendBuffer != [] {
        var client := w.client.(congestion := CC.OnFastRetransmit(w.client.congestion, FlightSize(w.client)));
        ResentLeaves(w, w.(client := client), w.client.sendBuffer[0].seqNo, c);
      }
    case Close =>
      LeavesSends(w, w.(client := SendFin(w.client).ep), PlainPacket(w.site, FIN, true, SendFin(w.client).ep), c.offer);
    case TimeWaitTimeout =>
  }

  /** Every event body leaves exactly the queue its deeds lead to, for every choice of what becomes of its packets. */
  lemma BodiesAreDeeds(w: World, e: Event, c: Choice)
    ensures Leaves(w, Deeds(w, e, c), Execute(w, e, c))
  {
    match e
    case Arrival(p) => ArrivalLeaves(w, p, c);
    case Handshake => HandshakeLeaves(w, e, c);
    case HandshakeTimeout => HandshakeLeaves(w, e, c);
    case _ => TimersLeave(w, e, c);
  }

  // ---- the packets do not depend on what becomes of them ----

  function Packets(deeds: seq<Deed>): seq<Packet>
  {
    if deeds == [] then []
    else (if deeds[0].Sends? then [deeds[0].packet] else []) + Packets(deeds[1..])
  }

  function Offers(deeds: seq<Deed>): seq<Offer>
  {
    if deeds == [] then []
    else (if deeds[0].Sends? then [deeds[0].offer] else []) + Offers(deeds[1..])
  }

  lemma {:induction false} PacketsThen(a: seq<Deed>, b: seq<Deed>)
    ensures Packets(a + b) == Packets(a) + Packets(b)
  {
    if a == [] {
      assert a + b == b;
    } else {
      var head := if a[0].Sends? then [a[0].packet] else [];
      assert (a + b)[1..] == a[1..] + b;
      PacketsThen(a[1..], b);
      assert head + (Packets(a[1..]) + Packets(b)) == (head + Packets(a[1..])) + Packets(b);
    }
  }

  lemma {:induction false} OffersThen(a: seq<Deed>, b: seq<Deed>)
    ensures Offers(a + b) == Offers(a) + Offers(b)
  {
    if a == [] {
      assert a + b == b;
    } else {
      var head := if a[0].Sends? then [a[0].offer] else [];
      assert (a + b)[1..] == a[1..] + b;
      OffersThen(a[1..], b);
      assert head + (Offers(a[1..]) + Offers(b)) == (head + Offers(a[1..])) + Offers(b);
    }
  }

  /** The packets of some deeds, and what is offered to them. */
  ghost predicate Mails(deeds: seq<Deed>, packets: seq<Packet>, offers: seq<Offer>)
  {
    Packets(deeds) == packets && Offers(deeds) == offers
  }

  lemma MailsWhen(b: bool, d: Deed)
    ensures Mails(When(b, d), if b && d.Sends? then [d.packet] else [], if b && d.Sends? then [d.offer] else [])
  {
  }

  lemma MailsOne(d: Deed)
    ensures Mails([d], if d.Sends? then [d.packet] else [], if d.Sends? then [d.offer] else [])
  {
    assert [d][1..] == [];
  }

  lemma MailsThen(a: seq<Deed>, p: seq<Packet>, o: seq<Offer>, b: seq<Deed>, q: seq<Packet>, r: seq<Offer>)
    requires Mails(a, p, o) && Mails(b, q, r)
    ensures Mails(a + b, p + q, o + r)
  {
    PacketsThen(a, b);
    OffersThen(a, b);
  }

  /** A packet and timers after it. */
  lemma MailsFirst(p: Packet, o: Offer, b: bool, d: Deed)
    requires d.Times?
    ensures Mails([Sends(p, o)] + When(b, d), [p], [o])
  {
    MailsOne(Sends(p, o));
    MailsWhen(b, d);
    MailsThen([Sends(p, o)], [p], [o], When(b, d), [], []);
    assert [p] + [] == [p] && [o] + [] == [o];
  }

  lemma MailsTimers(a: seq<Deed>, b: seq<Deed>)
    requires Mails(a, [], []) && Mails(b, [], [])
    ensures Mails(a + b, [], [])
  {
    MailsThen(a, [], [], b, [], []);
  }

  /** The packets an event body wants to send. */
  function Wanted(w: World, e: Event, isn: u32, payload: seq<byte>): seq<Packet>
  {
    Packets(Deeds(w, e, Choice(Offer(false, 0.0), Offer(false, 0.0), isn, payload)))
  }

  /** At most two packets, the same whatever becomes of them: the first is offered the first, the second the second. */
  ghost predicate WantsOnly(deeds: seq<Deed>, deeds': seq<Deed>, c: Choice)
  {
    && Packets(deeds) == Packets(deeds') && |Packets(deeds)| <= 2
    && Offers(deeds) == [c.offer, c.offer2][..|Packets(deeds)|]
  }

  lemma WantsOne(deeds: seq<Deed>, deeds': seq<Deed>, c: Choice, p: Packet, o: Offer)
    requires Mails(deeds, [p], [c.offer]) && Mails(deeds', [p], [o])
    ensures WantsOnly(deeds, deeds', c)
  {
    assert [c.offer, c.offer2][..1] == [c.offer];
  }

  lemma WantsNone(deeds: seq<Deed>, deeds': seq<Deed>, c: Choice)
    requires Mails(deeds, [], []) && Mails(deeds', [], [])
    ensures WantsOnly(deeds, deeds', c)
  {
    assert [c.offer, c.offer2][..0] == [];
  }

  lemma SynWants(w: World, c: Choice, c': Choice)
    ensures WantsOnly(SynDeeds(w, c), SynDeeds(w, c'), c)
  {
    var syn, t := SynPacket(w.site, w.client), Times(HandshakeTimeout, SYN_TIMEOUT);
    MailsFirst(syn, c.offer, Taken(w, syn, c.offer), t);
    MailsFirst(syn, c'.offer, Taken(w, syn, c'.offer), t);
    WantsOne(SynDeeds(w, c), SynDeeds(w, c'), c, syn, c'.offer);
  }

  lemma WhenWants(b: bool, p: Packet, c: Choice, c': Choice)
    ensures WantsOnly(When(b, Sends(p, c.offer)), When(b, Sends(p, c'.offer)), c)
  {
    MailsWhen(b, Sends(p, c.offer));
    MailsWhen(b, Sends(p, c'.offer));
    if b { WantsOne(When(b, Sends(p, c.offer)), When(b, Sends(p, c'.offer)), c, p, c'.offer); }
    else { WantsNone(When(b, Sends(p, c.offer)), When(b, Sends(p, c'.offer)), c); }
  }

  lemma AckMails(w: World, p: Packet)
    ensures Mails(AckDeeds(w, p), [], [])
  {
    var out := Acknowledging(Session.End(w, p.toServer), p.ack, w.now);
    var w1 := WithEnd(w, p.toServer, out.ep);
    ReactionMails(w1, p.toServer, out.ok);
    AdvanceMails(w1);
    MailsTimers(ReactionDeeds(w1, p.toServer, out.ok), AdvanceDeeds(w1));
  }

  lemma ReactionMails(w: World, toServer: bool, advanced: bool)
    ensures Mails(ReactionDeeds(w, toServer, advanced), [], [])
  {
    var ep := Session.End(w, toServer);
    var b, t := advanced && Oldest(ep).Some?, Times(Timeout(if Oldest(ep).Some? then Oldest(ep).value else 0), Rto(ep));
    MailsWhen(b, t);
    MailsWhen(SB.ShouldFastRetransmit(ep.detector), Times(FastRetransmission, 0.0));
    MailsTimers(When(b, t), When(SB.ShouldFastRetransmit(ep.detector), Times(FastRetransmission, 0.0)));
  }

  lemma AdvanceMails(w: World)
    ensures Mails(AdvanceDeeds(w), [], [])
  {
    var starts := BothEstablished(w) && !w.trafficGenerated;
    var closes := BothEstablished(w) && (starts || w.trafficGenerated) && w.sent == (if starts then PACKETS_PER_ROUTE else w.total)
                  && !w.closeRequested;
    MailsWhen(starts, Times(Generate, 0.0));
    MailsWhen(closes, Times(Close, 0.0));
    MailsTimers(When(starts, Times(Generate, 0.0)), When(closes, Times(Close, 0.0)));
  }

  lemma DataWants(w: World, p: Packet, c: Choice, c': Choice)
    ensures WantsOnly(DataDeeds(w, p, c), DataDeeds(w, p, c'), c)
  {
    var d, d' := DataDeeds(w, p, c), DataDeeds(w, p, c');
    if d == [] { WantsNone(d, d', c); }
    else {
      MailsOne(d[0]);
      MailsOne(d'[0]);
      assert d == [d[0]] && d' == [d'[0]];
      if d[0].Sends? { WantsOne(d, d', c, d[0].packet, c'.offer); } else { WantsNone(d, d', c); }
    }
  }

  lemma FinMails(w: World, p: Packet, c: Choice)
    ensures var out := ReceiveFin(Session.End(w, p.toServer), p.seqNo);
      var ack, fin := PlainPacket(w.site, ACK, !p.toServer, out.ep), PlainPacket(w.site, FIN, !p.toServer, SendFin(out.ep).ep);
      if !out.ok then Mails(FinDeeds(w, p, c), [], [])
      else if out.ep.state.CLOSE_WAIT? then Mails(FinDeeds(w, p, c), [ack, fin], [c.offer, c.offer2])
      else Mails(FinDeeds(w, p, c), [ack], [c.offer])
  {
    var out := ReceiveFin(Session.End(w, p.toServer), p.seqNo);
    if out.ok {
      var w1 := WithEnd(w, p.toServer, out.ep);
      var ack, fin := PlainPacket(w.site, ACK, !p.toServer, out.ep), PlainPacket(w.site, FIN, !p.toServer, SendFin(out.ep).ep);
      var a, b := When(w1.client.state.TIME_WAIT?, Times(TimeWaitTimeout, TIME_WAIT_DELAY)), [Sends(ack, c.offer)];
      var d := When(out.ep.state.CLOSE_WAIT?, Sends(fin, c.offer2));
      MailsWhen(w1.client.state.TIME_WAIT?, Times(TimeWaitTimeout, TIME_WAIT_DELAY));
      MailsOne(Sends(ack, c.offer));
      MailsThen(a, [], [], b, [ack], [c.offer]);
      MailsWhen(out.ep.state.CLOSE_WAIT?, Sends(fin, c.offer2));
      assert [] + [ack] == [ack] && [] + [c.offer] == [c.offer];
      if out.ep.state.CLOSE_WAIT? { MailsThen(a + b, [ack], [c.offer], d, [fin], [c.offer2]); }
      else { MailsThen(a + b, [ack], [c.offer], d, [], []); }
    }
  }

  lemma FinWants(w: World, p: Packet, c: Choice, c': Choice)
    ensures WantsOnly(FinDeeds(w, p, c), FinDeeds(w, p, c'), c)
  {
    FinMails(w, p, c);
    FinMails(w, p, c');
    assert [c.offer, c.offer2][..2] == [c.offer, c.offer2] && [c.offer, c.offer2][..1] == [c.offer] && [c.offer, c.offer2][..0] == [];
  }

  lemma ArrivalWants(w: World, p: Packet, c: Choice, c': Choice)
    ensures WantsOnly(ArrivalDeeds(w, p, c), ArrivalDeeds(w, p, c'), c)
  {
    if p.at != Home(w.site, p.toServer) { WhenWants(true, p, c, c'); }
    else {
      match p.kind {
        case SYN =>
          var out := ReceiveSyn(Session.End(w, p.toServer), p.seqNo);
          WhenWants(out.ok, PlainPacket(w.site, SYN_ACK, !p.toServer, out.ep), c, c');
        case SYN_ACK =>
          var out := ReceiveSynAck(w.client, p.seqNo, p.ack);
          WhenWants(out.ok, PlainPacket(w.site, ACK, true, out.ep), c, c');
        case ACK => AckMails(w, p); WantsNone(AckDeeds(w, p), AckDeeds(w, p), c);
        case DATA => DataWants(w, p, c, c');
        case FIN => FinWants(w, p, c, c');
        case RST => WantsNone([], [], c);
      }
    }
  }

  lemma GenerateMails(w: World, c: Choice)
    ensures var packet := DataPacket(w.site, w.client.seqNum, w.client.expectedAck, c.payload);
      if !BothEstablished(w) || w.sent == w.total || !CanSend(w.client, |c.payload|) then Mails(GenerateDeeds(w, c), [], [])
      else Mails(GenerateDeeds(w, c), [packet], [c.offer])
  {
    var packet := DataPacket(w.site, w.client.seqNum, w.client.expectedAck, c.payload);
    MailsOne(Sends(packet, c.offer));
    var client := QueueSent(w.client, w.client.seqNum, w.client.expectedAck, c.payload, w.now).ep;
    var first, again := Times(Timeout(w.client.seqNum), Rto(client)), Times(Generate, 0.0);
    MailsFirst(packet, c.offer, w.client.sendBuffer == [], first);
    MailsWhen(w.sent + 1 != w.total, again);
    MailsThen([Sends(packet, c.offer)] + When(w.client.sendBuffer == [], first), [packet], [c.offer], When(w.sent + 1 != w.total, again), [], []);
    assert [packet] + [] == [packet] && [c.offer] + [] == [c.offer];
  }

  lemma GenerateWants(w: World, c: Choice, c': Choice)
    requires c'.payload == c.payload
    ensures WantsOnly(GenerateDeeds(w, c), GenerateDeeds(w, c'), c)
  {
    GenerateMails(w, c);
    GenerateMails(w, c');
    assert [c.offer, c.offer2][..1] == [c.offer] && [c.offer, c.offer2][..0] == [];
  }

  lemma ResendWants(w: World, seqNo: u32, c: Choice, c': Choice)
    ensures WantsOnly(ResendDeeds(w, seqNo, c), ResendDeeds(w, seqNo, c'), c)
  {
    var i := SB.Find(w.client.sendBuffer, seqNo);
    if i == |w.client.sendBuffer| { WantsNone([], [], c); }
    else {
      var packet, t := DataPacket(w.site, seqNo, w.client.sendBuffer[i].ack, w.client.sendBuffer[i].payload), Times(Timeout(seqNo), Rto(w.client));
      MailsFirst(packet, c.offer, Taken(w, packet, c.offer), t);
      MailsFirst(packet, c'.offer, Taken(w, packet, c'.offer), t);
      WantsOne(ResendDeeds(w, seqNo, c), ResendDeeds(w, seqNo, c'), c, packet, c'.offer);
    }
  }

  lemma TimersWant(w: World, e: Event, c: Choice, c': Choice)
    requires c'.payload == c.payload && c'.isn == c.isn && !e.Arrival?
    ensures WantsOnly(Deeds(w, e, c), Deeds(w, e, c'), c)
  {
    WantsNone([], [], c);
    match e
    case Handshake => SynWants(w.(client := SendSyn(w.client, c.isn).ep), c, c');
    case HandshakeTimeout => SynWants(w, c, c');
    case Generate => GenerateWants(w, c, c');
    case DelayedAck(atServer, number) =>
      var ep := Session.End(w, atServer);
      WhenWants(ep.state.ESTABLISHED? && ep.delayedAck && ep.expectedAck == number, PlainPacket(w.site, ACK, !atServer, ep), c, c');
    case Timeout(seqNo) =>
      var d := Deeds(w, e, c);
      MailsWhen(SB.Contains(w.client.sendBuffer, seqNo) && Oldest(w.client) == Some(seqNo) && CanRetransmit(w.client, seqNo)
                && w.client.state.ESTABLISHED?, Times(Retransmission(seqNo), 0.0));
      WantsNone(d, d, c);
    case Retransmission(seqNo) => ResendWants(w, seqNo, c, c');
    case FastRetransmission => if w.client.sendBuffer != [] { ResendWants(w, w.client.sendBuffer[0].seqNo, c, c'); }
    case Close => WhenWants(w.client.state.ESTABLISHED?, PlainPacket(w.site, FIN, true, SendFin(w.client).ep), c, c');
    case TimeWaitTimeout =>
  }

  /** What is to be sent is settled before the network is asked. */
  lemma DeedsWant(w: World, e: Event, c: Choice)
    ensures var deeds := Deeds(w, e, c);
      && Packets(deeds) == Wanted(w, e, c.isn, c.payload) && |Packets(deeds)| <= 2
      && Offers(deeds) == [c.offer, c.offer2][..|Packets(deeds)|]
  {
    var c' := Choice(Offer(false, 0.0), Offer(false, 0.0), c.isn, c.payload);
    if e.Arrival? { ArrivalWants(w, e.packet, c, c'); } else { TimersWant(w, e, c, c'); }
  }

  // ---- where packets come from ----

  /** What is sent starts at the end that sends it, and no timer stands for an arrival. */
  predicate FromHome(site: Site, deeds: seq<Deed>)
  {
    forall d :: d in deeds ==>
      (d.Sends? ==> d.packet.at == Home(site, !d.packet.toServer)) && (d.Times? ==> !d.event.Arrival?)
  }

  lemma FinFromHome(w: World, p: Packet, c: Choice)
    ensures FromHome(w.site, FinDeeds(w, p, c))
  {
  }

  lemma TimersFromHome(w: World, toServer: bool, advanced: bool)
    ensures FromHome(w.site, ReactionDeeds(w, toServer, advanced)) && FromHome(w.site, AdvanceDeeds(w))
  {
  }

  lemma AckFromHome(w: World, p: Packet)
    ensures FromHome(w.site, AckDeeds(w, p))
  {
    var out := Acknowledging(Session.End(w, p.toServer), p.ack, w.now);
    TimersFromHome(WithEnd(w, p.toServer, out.ep), p.toServer, out.ok);
  }

  lemma ArrivalFromHome(w: World, p: Packet, c: Choice)
    requires p.at == Home(w.site, p.toServer)
    ensures FromHome(w.site, ArrivalDeeds(w, p, c))
  {
    match p.kind
    case ACK => AckFromHome(w, p);
    case FIN => FinFromHome(w, p, c);
    case _ =>
  }

  lemma GenerateFromHome(w: World, c: Choice)
    ensures FromHome(w.site, GenerateDeeds(w, c))
  {
  }

  lemma ResendFromHome(w: World, seqNo: u32, c: Choice)
    ensures FromHome(w.site, ResendDeeds(w, seqNo, c))
  {
  }

  predicate AtItsEnd(site: Site, e: Event) { e.Arrival? ==> e.packet.at == Home(site, e.packet.toServer) }

  /** Only a send makes a packet arrive, and only a forwarded packet is sent from anywhere but its own end. */
  lemma BodiesSendFromHome(w: World, e: Event, c: Choice)
    requires AtItsEnd(w.site, e)
    ensures FromHome(w.site, Deeds(w, e, c))
  {
    match e
    case Arrival(p) => ArrivalFromHome(w, p, c);
    case Generate => GenerateFromHome(w, c);
    case Retransmission(seqNo) => ResendFromHome(w, seqNo, c);
    case FastRetransmission => if w.client.sendBuffer != [] { ResendFromHome(w, w.client.sendBuffer[0].seqNo, c); }
    case _ =>
  }

  lemma {:induction false} DoneStays(w: World, deeds: seq<Deed>)
    ensures Done(w, deeds).site == w.site && Done(w, deeds).now == w.now
    decreases |deeds|
  {
    if deeds != [] { DoneStays(DoneBy(w, deeds[0]), deeds[1..]); }
  }

  lemma StepStays(w: World, c: Choice)
    ensures Step(w, c).site == w.site
  {
    if Enabled(w, c) {
      BodiesAreDeeds(Popped(w), w.pending[0].event, c);
      DoneStays(Popped(w), Deeds(Popped(w), w.pending[0].event, c));
    }
  }

  // ---- counting ----

  /** How many events of a kind wait. */
  function Waiting(q: seq<EventQueues.Timed<Event>>, kind: Event -> bool): nat
  {
    if q == [] then 0 else (if kind(q[0].event) then 1 else 0) + Waiting(q[1..], kind)
  }

  lemma {:induction false} WaitingScheduled(q: seq<EventQueues.Timed<Event>>, x: EventQueues.Timed<Event>, kind: Event -> bool)
    ensures Waiting(EventQueues.Scheduled(q, x), kind) == Waiting(q, kind) + if kind(x.event) then 1 else 0
  {
    if q == [] || EventQueues.Earlier(x, q[0]) {
      assert ([x] + q)[1..] == q;
    } else {
      WaitingScheduled(q[1..], x, kind);
      assert ([q[0]] + EventQueues.Scheduled(q[1..], x))[1..] == EventQueues.Scheduled(q[1..], x);
    }
  }

  /** How many timers of a kind some deeds set. */
  function Asks(deeds: seq<Deed>, kind: Event -> bool): nat
  {
    if deeds == [] then 0 else (if deeds[0].Times? && kind(deeds[0].event) then 1 else 0) + Asks(deeds[1..], kind)
  }

  lemma {:induction false} AsksThen(a: seq<Deed>, b: seq<Deed>, kind: Event -> bool)
    ensures Asks(a + b, kind) == Asks(a, kind) + Asks(b, kind)
  {
    if a == [] {
      assert a + b == b;
    } else {
      assert (a + b)[1..] == a[1..] + b;
      AsksThen(a[1..], b, kind);
    }
  }

  lemma AsksWhen(b: bool, d: Deed, kind: Event -> bool)
    ensures Asks(When(b, d), kind) == if b && d.Times? && kind(d.event) then 1 else 0
  {
    if b { assert [d][1..] == []; }
  }

  predicate AsksNo(deeds: seq<Deed>, kind: Event -> bool) { forall d :: d in deeds && d.Times? ==> !kind(d.event) }

  lemma {:induction false} NoneAsked(deeds: seq<Deed>, kind: Event -> bool)
    requires AsksNo(deeds, kind)
    ensures Asks(deeds, kind) == 0
  {
    if deeds != [] {
      assert deeds[0] in deeds && forall d :: d in deeds[1..] ==> d in deeds;
      NoneAsked(deeds[1..], kind);
    }
  }

  /** Packets are no timers, so what waits afterwards is what waited and what was set. */
  lemma {:induction false} DoneWaiting(w: World, deeds: seq<Deed>, kind: Event -> bool)
    requires forall p :: !kind(Arrival(p))
    ensures Waiting(Done(w, deeds).pending, kind) == Waiting(w.pending, kind) + Asks(deeds, kind)
    decreases |deeds|
  {
    if deeds != [] {
      DoneWaiting(DoneBy(w, deeds[0]), deeds[1..], kind);
      match deeds[0]
      case Sends(p, o) => WaitingScheduled(w.pending, EventQueues.Timed(o.arrival, w.nextId, Arrival(p.(at := NextNode(w.site, p)))), kind);
      case Times(e, delay) => WaitingScheduled(w.pending, EventQueues.Timed(w.now + delay, w.nextId, e), kind);
    }
  }

  /** What waits after a step. */
  lemma StepWaiting(w: World, c: Choice, kind: Event -> bool)
    requires Enabled(w, c) && forall p :: !kind(Arrival(p))
    ensures Waiting(Step(w, c).pending, kind)
         == Waiting(w.pending[1..], kind) + Asks(Deeds(Popped(w), w.pending[0].event, c), kind)
  {
    BodiesAreDeeds(Popped(w), w.pending[0].event, c);
    DoneWaiting(Popped(w), Deeds(Popped(w), w.pending[0].event, c), kind);
  }
}
