/**
  The end of a session. Once the client has sent its FIN, what becomes of it is decided by which comes first: the
  acknowledgement of that FIN or the server's own. If the acknowledgement is lost the client ends in CLOSING, which
  nothing leaves but a failed retransmission. The server, for as long as it is established, goes on reading a prefix.
 */
module SessionClosing {
  import opened Common
  import opened Word32
  import opened Connection
  import opened Session
  import opened SessionStream
  import opened SessionSafety
  import opened SessionResults
  import opened SessionStore
  import opened SessionWaves
  import opened Reassembly
  import EventQueues
  import TS = TcpState
  import RB = ReceiveBuffer
  import SB = SendBuffer

  // ---- the server, whatever has become of the client ----

  /** The server has handed over exactly the first k pieces, and what is under way to it are pieces. */
  ghost predicate ServerAt(w: World, k: nat)
  {
    var rb := w.server.receiveBuffer;
    && Modest(w.stream) && k <= |w.stream.pieces|
    && RB.Valid(rb) && AllStored(w.stream, rb.entries, k) && w.server.expectedAck == rb.next == Word(w.stream, k)
    && w.delivered == Joined(w.stream.pieces[..k])
    && forall x :: x in w.pending ==> PieceEvent(w.stream, x.event)
  }

  ghost predicate PieceEvent(stream: Partition, e: Event)
  {
    IsData(e) ==> PieceFrom(stream, e.packet.seqNo, e.packet.payload, 0)
  }

  lemma OpenServer(w: World, k: nat)
    requires OpenAt(w, k)
    ensures ServerAt(w, k)
  {
    forall x | x in w.pending ensures PieceEvent(w.stream, x.event) {
      assert FlowEvent(w.stream, k, x.event);
      if IsData(x.event) {
        var i: nat :| IsPiece(w.stream, x.event.packet.seqNo, x.event.packet.payload, i);
        assert IsPiece(w.stream, x.event.packet.seqNo, x.event.packet.payload, i) && i >= 0;
      }
    }
  }

  ghost predicate SameServer(w: World, w': World)
  {
    && w'.server.receiveBuffer == w.server.receiveBuffer && w'.server.expectedAck == w.server.expectedAck
    && w'.stream == w.stream && w'.delivered == w.delivered
  }

  lemma ServerSame(w: World, w': World, k: nat)
    requires ServerAt(w, k) && SameServer(w, w') && w'.pending == w.pending
    ensures ServerAt(w', k)
  {
  }

  lemma ServerSchedules(w: World, k: nat, e: Event, at: real)
    requires ServerAt(w, k) && PieceEvent(w.stream, e)
    ensures ServerAt(ScheduledAt(w, e, at), k)
  {
  }

  lemma ServerSends(w: World, k: nat, p: Packet, o: Offer)
    requires ServerAt(w, k) && PieceEvent(w.stream, Arrival(p))
    ensures ServerAt(Sent(w, p, o), k)
  {
    if Taken(w, p, o) { ServerSchedules(w, k, Arrival(p.(at := NextNode(w.site, p))), o.arrival); }
  }

  lemma ServerPlain(w: World, k: nat, kind: Kind, toServer: bool, ep: Endpoint, o: Offer)
    requires ServerAt(w, k) && !kind.DATA?
    ensures ServerAt(Sent(w, PlainPacket(w.site, kind, toServer, ep), o), k)
  {
    ServerSends(w, k, PlainPacket(w.site, kind, toServer, ep), o);
  }

  lemma ServerReactions(w: World, k: nat, toServer: bool, advanced: bool)
    requires ServerAt(w, k)
    ensures ServerAt(AckReactions(w, toServer, advanced), k)
  {
    var ep, w1 := Session.End(w, toServer), Rearmed(w, toServer, advanced);
    if advanced && Oldest(ep).Some? { ServerSchedules(w, k, Timeout(Oldest(ep).value), w.now + Rto(ep)); }
    var reset := WithEnd(w1, toServer, DetectionReset(Session.End(w1, toServer)));
    ServerSame(w1, reset, k);
    ServerSchedules(reset, k, FastRetransmission, w1.now + 0.0);
  }

  lemma AcknowledgingReceives(ep: Endpoint, ack: u32, now: real)
    ensures var ep' := Acknowledging(ep, ack, now).ep;
      ep'.receiveBuffer == ep.receiveBuffer && ep'.expectedAck == ep.expectedAck
  {
  }

  lemma ServerAck(w: World, k: nat, p: Packet)
    requires ServerAt(w, k) && Over(w)
    ensures ServerAt(OnAck(w, p), k)
  {
    var out := Acknowledging(Session.End(w, p.toServer), p.ack, w.now);
    AcknowledgingReceives(Session.End(w, p.toServer), p.ack, w.now);
    var w1 := WithEnd(w, p.toServer, out.ep);
    OverSame(w, w1);
    ServerSame(w, w1, k);
    ServerReactions(w1, k, p.toServer, out.ok);
    OverReactions(w1, p.toServer, out.ok);
    var w2 := AckReactions(w1, p.toServer, out.ok);
    assert Advanced(w2) == w2;
  }

  lemma ServerTakes(w: World, k: nat, p: Packet) returns (k': nat)
    requires ServerAt(w, k) && PieceEvent(w.stream, Arrival(p)) && p.kind.DATA?
    ensures ServerAt(DataTaken(w, p), k')
  {
    k' := k;
    if p.toServer && ReceiveData(w.server, p.seqNo, p.payload).ok {
      var i: nat :| IsPiece(w.stream, p.seqNo, p.payload, i) && i >= 0;
      k' := ReceiverTakes(w.stream, w.server, k, i);
    }
  }

  lemma ServerData(w: World, k: nat, p: Packet, c: Choice) returns (k': nat)
    requires ServerAt(w, k) && PieceEvent(w.stream, Arrival(p)) && p.kind.DATA?
    ensures ServerAt(OnData(w, p, c), k')
  {
    k' := ServerTakes(w, k, p);
    if ReceiveData(Session.End(w, p.toServer), p.seqNo, p.payload).ok {
      ServerReacts(DataTaken(w, p), k', p.toServer, p.seqNo == Session.End(w, p.toServer).expectedAck, c);
    } else {
      k' := k;
    }
  }

  lemma ServerReacts(w: World, k: nat, toServer: bool, inOrder: bool, c: Choice)
    requires ServerAt(w, k)
    ensures ServerAt(DataReactions(w, toServer, inOrder, c), k)
  {
    var ep := Session.End(w, toServer);
    var prompt := WithEnd(w, toServer, ep.(delayedAck := false));
    var later := WithEnd(w, toServer, ep.(delayedAck := true));
    ServerSame(w, prompt, k);
    ServerPlain(prompt, k, ACK, !toServer, ep, c.offer);
    ServerSame(w, later, k);
    ServerSchedules(later, k, DelayedAck(toServer, ep.expectedAck), w.now + ACK_DELAY);
  }

  lemma ServerFin(w: World, k: nat, p: Packet, c: Choice)
    requires ServerAt(w, k) && !p.toServer
    ensures ServerAt(OnFin(w, p, c), k)
  {
    var w1 := w.(client := ReceiveFin(w.client, p.seqNo).ep);
    ServerSame(w, w1, k);
    ServerAcksFin(w1, k, c);
    ServerAnswers(FinAcked(w1, false, c), k, c);
    assert OnFin(w, p, c) == w || OnFin(w, p, c) == FinReactions(w1, false, c);
  }

  lemma ServerAcksFin(w: World, k: nat, c: Choice)
    requires ServerAt(w, k)
    ensures ServerAt(FinAcked(w, false, c), k)
  {
    ServerSchedules(w, k, TimeWaitTimeout, w.now + TIME_WAIT_DELAY);
    ServerPlain(LastTimer(w), k, ACK, true, w.client, c.offer);
  }

  lemma ServerAnswers(w: World, k: nat, c: Choice)
    requires ServerAt(w, k)
    ensures ServerAt(FinAnswered(w, false, c), k)
  {
    var fin := SendFin(w.client).ep;
    ServerSame(w, w.(client := fin), k);
    ServerPlain(w.(client := fin), k, FIN, true, fin, c.offer2);
  }

  lemma ServerTimers(w: World, k: nat, e: Event, c: Choice)
    requires Over(w) && ServerAt(w, k) && OverEvent(e) && !e.Arrival?
    ensures ServerAt(Execute(w, e, c), k)
  {
    match e
    case DelayedAck(atServer, number) =>
      var ep := Session.End(w, atServer);
      var w1 := WithEnd(w, atServer, ep.(delayedAck := false));
      ServerSame(w, w1, k);
      ServerPlain(w1, k, ACK, !atServer, ep, c.offer);
    case Timeout(seqNo) => ServerTimeout(w, k, seqNo);
    case HandshakeTimeout => assert Execute(w, e, c) == w;
    case Retransmission(seqNo) => assert Execute(w, e, c) == w;
    case FastRetransmission => assert Execute(w, e, c) == w;
    case Close => assert Execute(w, e, c) == w;
    case Generate => assert Execute(w, e, c) == w;
    case TimeWaitTimeout => ServerSame(w, Execute(w, e, c), k);
    case _ =>
  }

  lemma ServerTimeout(w: World, k: nat, seqNo: u32)
    requires ServerAt(w, k)
    ensures ServerAt(OnTimeout(w, seqNo), k)
  {
    ServerSame(w, w.(client := FailRetransmission(w.client)), k);
    ServerSame(w, w.(client := SendTimeout(w.client)), k);
    ServerSchedules(w.(client := SendTimeout(w.client)), k, Retransmission(seqNo), w.now + 0.0);
  }

  /** An event after the client has left, up to the server's taking a FIN. */
  lemma ServerExecutes(w: World, k: nat, e: Event, c: Choice) returns (k': nat)
    requires Over(w) && ServerAt(w, k) && OverEvent(e) && PieceEvent(w.stream, e) && w.server.state.ESTABLISHED?
    ensures Execute(w, e, c).server.state.ESTABLISHED? ==> ServerAt(Execute(w, e, c), k')
  {
    k' := k;
    if !e.Arrival? { ServerTimers(w, k, e, c); }
    else {
      var p := e.packet;
      if p.at != Home(w.site, p.toServer) { ServerSends(w, k, p, c.offer); }
      else {
        match p.kind {
          case SYN => assert OnSyn(w, p, c) == w;
          case SYN_ACK => OverSynHandshake(w, p, c);
          case ACK => ServerAck(w, k, p);
          case DATA => k' := ServerData(w, k, p, c);
          case FIN => if !p.toServer { ServerFin(w, k, p, c); } else { ServerTakesFin(w, p, c); }
          case RST =>
        }
      }
    }
  }

  lemma ServerTakesFin(w: World, p: Packet, c: Choice)
    requires w.server.state.ESTABLISHED? && p.toServer
    ensures !OnFin(w, p, c).server.state.ESTABLISHED?
  {
    var w1 := w.(server := ReceiveFin(w.server, p.seqNo).ep);
    assert FinAcked(w1, true, c).server == w1.server;
  }

  /** What the client's leaving may leave behind. */
  ghost predicate OpenOrLeft(w: World, k: nat) { Open(w) || (Over(w) && ServerAt(w, k)) }

  lemma FailureLeaves(w: World, k: nat)
    requires OpenAt(w, k)
    ensures OpenOrLeft(w.(client := FailRetransmission(w.client)), k)
  {
    OpenServer(w, k);
    OpenFails(w, k);
    ServerSame(w, w.(client := FailRetransmission(w.client)), k);
  }

  lemma ResendingLeaves(w: World, k: nat, seqNo: u32, c: Choice)
    requires OpenAt(w, k)
    ensures OpenOrLeft(OnRetransmission(w, seqNo, c), k) && OpenOrLeft(OnFastRetransmission(w, c), k)
  {
    FailureLeaves(w, k);
    OpenResent(w, k, seqNo, c);
    SameFlowOpen(w, Cut(w), k);
    if w.client.sendBuffer != [] { OpenResent(Cut(w), k, w.client.sendBuffer[0].seqNo, c); }
  }

  lemma ClosingLeaves(w: World, k: nat, c: Choice)
    requires OpenAt(w, k)
    ensures OpenOrLeft(OnClose(w, c), k)
  {
    OpenServer(w, k);
    OpenClose(w, k, c);
    ServerSame(w, w.(client := SendFin(w.client).ep), k);
    ServerPlain(w.(client := SendFin(w.client).ep), k, FIN, true, SendFin(w.client).ep, c.offer);
  }

  /** The client leaves without touching the server. */
  lemma LeavingKeepsServer(w: World, k: nat, e: Event, c: Choice)
    requires OpenAt(w, k) && OpenEvent(e) && FlowEvent(w.stream, k, e) && c.payload != []
    ensures OpenOrLeft(Execute(w, e, c), k)
  {
    match e
    case Timeout(seqNo) =>
      OpenTimeout(w, k, seqNo);
      LeftByTimeout(w, k, seqNo);
    case Retransmission(seqNo) => ResendingLeaves(w, k, seqNo, c);
    case FastRetransmission => ResendingLeaves(w, k, 0, c);
    case Close => ClosingLeaves(w, k, c);
    case Arrival(p) => OpenArrival(w, k, p, c);
    case Generate => OpenGenerate(w, k, c);
    case DelayedAck(atServer, number) => OpenDelayedAck(w, k, atServer, number, c);
    case HandshakeTimeout => assert Execute(w, e, c) == w;
    case TimeWaitTimeout => assert Execute(w, e, c) == w;
    case Handshake =>
  }

  lemma LeftByTimeout(w: World, k: nat, seqNo: u32)
    requires OpenAt(w, k)
    ensures ServerAt(OnTimeout(w, seqNo), k)
  {
    OpenServer(w, k);
    ServerTimeout(w, k, seqNo);
  }

  ghost predicate Reads(w: World) { Open(w) || (Over(w) && exists k: nat :: ServerAt(w, k)) }

  lemma StepReads(w: World, c: Choice)
    requires Reads(w) && w.server.state.ESTABLISHED? && Step(w, c).server.state.ESTABLISHED?
    ensures Reads(Step(w, c))
  {
    if Enabled(w, c) {
      var w1, e := Popped(w), w.pending[0].event;
      assert w.pending[0] in w.pending;
      if Open(w) {
        var k: nat :| OpenAt(w, k);
        PoppedOpen(w, k);
        LeavingKeepsServer(w1, k, e, c);
      } else {
        var k: nat :| ServerAt(w, k);
        PoppedOver(w);
        OverStep(w, c);
        ServerSame(w.(pending := w.pending[1..]), w1, k);
        var k' := ServerExecutes(w1, k, e, c);
      }
    }
  }

  lemma {:induction false} RunReads(w: World, rest: seq<Choice>)
    requires Reads(w) && forall i :: 0 <= i <= |rest| ==> Run(w, rest[..i]).server.state.ESTABLISHED?
    ensures Reads(Run(w, rest))
  {
    if rest != [] {
      var before := rest[..|rest| - 1];
      forall i | 0 <= i <= |before| ensures Run(w, before[..i]).server.state.ESTABLISHED? { assert before[..i] == rest[..i]; }
      RunReads(w, before);
      assert rest[..|rest|] == rest && before == rest[..|rest| - 1];
      StepReads(Run(w, before), rest[|rest| - 1]);
    }
  }

  /** What the server has handed over are the first k pieces, and RCV.NXT is the number of the next. */
  ghost predicate HandedOver(w: World, k: nat)
  {
    k <= |w.stream.pieces| && w.server.expectedAck == Word(w.stream, k) && w.delivered == Joined(w.stream.pieces[..k])
  }

  /**
    Whatever has become of the client, its FIN sent or its connection failed: from any moment at which both ends
    are established and for as long as the server remains so, what it has handed over is a prefix of the stream.
   */
  lemma {:induction false} ServerReadsOn(site: Site, serverState: TS.State, choices: seq<Choice>, rest: seq<Choice>)
    requires Fresh(serverState)
    requires var w := Run(Session.Start(site, serverState), choices);
      w.client.state.ESTABLISHED? && forall i :: 0 <= i <= |rest| ==> Run(w, rest[..i]).server.state.ESTABLISHED?
    ensures var w := Run(Session.Start(site, serverState), choices); exists k: nat :: HandedOver(Run(w, rest), k)
  {
    var k := EstablishedIsOpen(site, serverState, choices);
    var w := Run(Session.Start(site, serverState), choices);
    RunReads(w, rest);
    var w' := Run(w, rest);
    if Open(w') {
      var j: nat :| OpenAt(w', j);
      OpenServer(w', j);
      assert HandedOver(w', j);
    } else {
      var j: nat :| ServerAt(w', j);
      assert HandedOver(w', j);
    }
  }

  // ---- the client, once its FIN is out ----

  /** What an event means to the state of a client that has left the established state. */
  function TriggerOf(site: Site, client: Endpoint, e: Event): Option<TS.Trigger>
  {
    match e
    case Arrival(p) =>
      if p.toServer || p.at != site.client then None
      else if p.kind.ACK? && p.ack == Wrap(client.seqNum + 1) then Some(TS.FinAcked)
      else if p.kind.FIN? then Some(TS.PeerFin)
      else None
    case Timeout(n) =>
      if SB.Contains(client.sendBuffer, n) && Oldest(client) == Some(n) && !CanRetransmit(client, n)
      then Some(TS.RetransmissionFailure) else None
    case TimeWaitTimeout => Some(TS.TimeWaitDone)
    case _ => None
  }

  function StepTrigger(w: World, c: Choice): Option<TS.Trigger>
  {
    if Enabled(w, c) then TriggerOf(w.site, w.client, w.pending[0].event) else None
  }

  /** The triggers of a continuation, in order: the acknowledgement of the FIN, the server's FIN, and the timers. */
  function Triggers(w: World, rest: seq<Choice>): seq<TS.Trigger>
  {
    if rest == [] then []
    else
      var earlier := rest[..|rest| - 1];
      var t := StepTrigger(Run(w, earlier), rest[|rest| - 1]);
      Triggers(w, earlier) + if t.Some? then [t.value] else []
  }

  function Driven(s: TS.State, t: Option<TS.Trigger>): TS.State { if t.Some? then TS.Next(s, t.value) else s }

  /** What became of the client's state in an event that touched only its books. */
  ghost predicate SameState(w: World, w': World)
  {
    w'.client.state == w.client.state && w'.client.seqNum == w.client.seqNum
  }

  /** An acknowledgement at an end that is no longer opening, established or listening. */
  lemma ClosingAcknowledges(ep: Endpoint, ack: u32, now: real)
    requires OverState(ep.state)
    ensures var ep' := Acknowledging(ep, ack, now).ep;
      && ep'.seqNum == ep.seqNum
      && ep'.state == if ack == Wrap(ep.seqNum + 1) then TS.Next(ep.state, TS.FinAcked) else ep.state
  {
  }

  lemma ReactionsState(w: World, toServer: bool, advanced: bool)
    ensures SameState(w, AckReactions(w, toServer, advanced))
  {
    var w1 := Rearmed(w, toServer, advanced);
    assert SameState(w, w1);
    assert SameState(w1, DuplicatesSeen(w1, toServer));
  }

  /** Without an established client no traffic is started or closed. */
  lemma AdvancedIdle(w: World)
    requires !w.client.state.ESTABLISHED?
    ensures Advanced(w) == w
  {
  }

  lemma ReactedState(w: World, toServer: bool, advanced: bool)
    requires !w.client.state.ESTABLISHED?
    ensures SameState(w, Advanced(AckReactions(w, toServer, advanced)))
  {
    ReactionsState(w, toServer, advanced);
    AdvancedIdle(AckReactions(w, toServer, advanced));
  }

  lemma ClosingAck(w: World, p: Packet)
    requires Over(w)
    ensures OnAck(w, p).client.seqNum == w.client.seqNum
    ensures OnAck(w, p).client.state ==
      if !p.toServer && p.ack == Wrap(w.client.seqNum + 1) then TS.Next(w.client.state, TS.FinAcked) else w.client.state
  {
    var out := Acknowledging(Session.End(w, p.toServer), p.ack, w.now);
    if p.toServer {
      ReactedState(w.(server := out.ep), true, out.ok);
    } else {
      ClosingAcknowledges(w.client, p.ack, w.now);
      ReactedState(w.(client := out.ep), false, out.ok);
    }
  }

  lemma FinAckedState(w: World, toServer: bool, c: Choice)
    ensures SameState(w, FinAcked(w, toServer, c)) && FinAcked(w, toServer, c).server == w.server
  {
  }

  lemma ClosingFin(w: World, p: Packet, c: Choice)
    requires Over(w) && !w.client.state.CLOSE_WAIT?
    ensures OnFin(w, p, c).client.seqNum == w.client.seqNum
    ensures OnFin(w, p, c).client.state == if p.toServer then w.client.state else TS.Next(w.client.state, TS.PeerFin)
  {
    FinAckedState(WithEnd(w, p.toServer, ReceiveFin(Session.End(w, p.toServer), p.seqNo).ep), p.toServer, c);
  }

  lemma DataReactionsState(w: World, toServer: bool, inOrder: bool, c: Choice)
    ensures SameState(w, DataReactions(w, toServer, inOrder, c))
  {
  }

  lemma ClosingData(w: World, p: Packet, c: Choice)
    ensures SameState(w, OnData(w, p, c))
  {
    assert SameState(w, DataTaken(w, p));
    DataReactionsState(DataTaken(w, p), p.toServer, p.seqNo == Session.End(w, p.toServer).expectedAck, c);
  }

  lemma ClosingArrival(w: World, p: Packet, c: Choice)
    requires Over(w) && OverEvent(Arrival(p)) && !w.client.state.CLOSE_WAIT?
    ensures var w' := OnArrival(w, p, c);
      && w'.client.seqNum == w.client.seqNum
      && w'.client.state == Driven(w.client.state, TriggerOf(w.site, w.client, Arrival(p)))
  {
    if p.at == Home(w.site, p.toServer) {
      match p.kind {
        case SYN => assert p.toServer;
        case SYN_ACK => OverSynHandshake(w, p, c);
        case ACK => ClosingAck(w, p);
        case DATA => ClosingData(w, p, c);
        case FIN => ClosingFin(w, p, c);
        case RST =>
      }
    }
  }

  /** The states a client passes through once it has sent its FIN. */
  predicate Finishing(s: TS.State) { s.FIN_WAIT_1? || s.FIN_WAIT_2? || s.CLOSING? || s.TIME_WAIT? || s.CLOSED? }

  lemma FinishingTimer(w: World, e: Event, c: Choice)
    requires Over(w) && Finishing(w.client.state) && OverEvent(e) && !e.Arrival?
    ensures Execute(w, e, c).client.state == Driven(w.client.state, TriggerOf(w.site, w.client, e))
  {
    match e
    case Timeout(_) =>
    case HandshakeTimeout =>
    case DelayedAck(_, _) =>
    case Generate => assert OnGenerate(w, c) == w;
    case Retransmission(_) => assert Execute(w, e, c) == w;
    case FastRetransmission => assert Execute(w, e, c) == w;
    case Close => assert Execute(w, e, c) == w;
    case TimeWaitTimeout =>
    case _ =>
  }

  lemma FinishingEvent(w: World, e: Event, c: Choice)
    requires Over(w) && Finishing(w.client.state) && OverEvent(e)
    ensures Execute(w, e, c).client.state == Driven(w.client.state, TriggerOf(w.site, w.client, e))
  {
    if e.Arrival? { ClosingArrival(w, e.packet, c); } else { FinishingTimer(w, e, c); }
  }

  lemma FinishingStep(w: World, c: Choice)
    requires Over(w) && Finishing(w.client.state)
    ensures Over(Step(w, c)) && Step(w, c).client.state == Driven(w.client.state, StepTrigger(w, c))
    ensures StepTrigger(w, c).Some? ==> TS.Late(StepTrigger(w, c).value)
  {
    OverStep(w, c);
    if Enabled(w, c) {
      PoppedOver(w);
      FinishingEvent(Popped(w), w.pending[0].event, c);
    }
  }

  lemma DrivenNext(s: TS.State, ts: seq<TS.Trigger>, t: Option<TS.Trigger>)
    ensures TS.Driven(s, ts + if t.Some? then [t.value] else []) == Driven(TS.Driven(s, ts), t)
  {
    if t.Some? { assert (ts + [t.value])[..|ts|] == ts; } else { assert ts + [] == ts; }
  }

  lemma FinishingNext(s: TS.State, t: Option<TS.Trigger>)
    requires Finishing(s) && (t.Some? ==> TS.Late(t.value))
    ensures Finishing(Driven(s, t))
  {
  }

  /** The state such a client is in is what the triggers make of it, and only late triggers occur. */
  lemma {:induction false} FinishingRun(w: World, rest: seq<Choice>)
    requires Over(w) && Finishing(w.client.state)
    ensures Over(Run(w, rest)) && Finishing(Run(w, rest).client.state)
    ensures Run(w, rest).client.state == TS.Driven(w.client.state, Triggers(w, rest))
    ensures forall t :: t in Triggers(w, rest) ==> TS.Late(t)
  {
    if rest != [] {
      var earlier, c := rest[..|rest| - 1], rest[|rest| - 1];
      var w' := Run(w, earlier);
      FinishingRun(w, earlier);
      FinishingStep(w', c);
      FinishingNext(w'.client.state, StepTrigger(w', c));
      DrivenNext(w.client.state, Triggers(w, earlier), StepTrigger(w', c));
    }
  }

  /** At some point of a continuation the client is in this state. */
  ghost predicate Visits(w: World, rest: seq<Choice>, s: TS.State)
  {
    Run(w, rest).client.state == s || (rest != [] && Visits(w, rest[..|rest| - 1], s))
  }

  lemma {:induction false} VisitsIff(w: World, rest: seq<Choice>, s: TS.State)
    requires Over(w) && Finishing(w.client.state)
    ensures Visits(w, rest, s) <==> TS.Passes(w.client.state, Triggers(w, rest), s)
  {
    FinishingRun(w, rest);
    if rest != [] {
      var earlier := rest[..|rest| - 1];
      VisitsIff(w, earlier, s);
      FinishingRun(w, earlier);
      PassesNext(w.client.state, Triggers(w, earlier), Triggers(w, rest), s);
    }
  }

  lemma PassesNext(s: TS.State, ts: seq<TS.Trigger>, us: seq<TS.Trigger>, target: TS.State)
    requires us == ts || (|us| == |ts| + 1 && us[..|ts|] == ts)
    ensures TS.Passes(s, us, target) <==> TS.Driven(s, us) == target || TS.Passes(s, ts, target)
  {
  }

  /** A client that has sent its FIN has left for good. */
  lemma FinWaitIsOver(site: Site, serverState: TS.State, choices: seq<Choice>)
    requires Fresh(serverState)
    ensures var w := Run(Session.Start(site, serverState), choices); w.client.state.FIN_WAIT_1? ==> Over(w)
  {
    RunKeepsInv(site, serverState, choices);
  }

  /**
    Main result on the close: in every run, a client that has sent its FIN gets to TIME_WAIT, in whatever follows, if
    and only if an acknowledgement of that FIN reaches it before the server's FIN does, the server's FIN reaches it
    too, and no retransmission fails before that. It stands in CLOSING if and only if the server's FIN came first and
    no retransmission has failed; nothing else leads on from there.
   */
  lemma {:induction false} CloseCompletesIff(site: Site, serverState: TS.State, choices: seq<Choice>, rest: seq<Choice>)
    requires Fresh(serverState) && Run(Session.Start(site, serverState), choices).client.state.FIN_WAIT_1?
    ensures var w := Run(Session.Start(site, serverState), choices); var ts := Triggers(w, rest);
      && (Visits(w, rest, TS.TIME_WAIT) <==> TS.ClosesCleanly(ts))
      && (Run(w, rest).client.state.CLOSING? <==> TS.Before(ts, TS.PeerFin, TS.FinAcked) && TS.RetransmissionFailure !in ts)
  {
    FinWaitIsOver(site, serverState, choices);
    var w := Run(Session.Start(site, serverState), choices);
    FinishingRun(w, rest);
    VisitsIff(w, rest, TS.TIME_WAIT);
    TS.TimeWaitIff(Triggers(w, rest));
    TS.AfterFin(Triggers(w, rest));
  }

  /** From CLOSING nothing that can still happen leads on, but a retransmission that fails. */
  lemma {:induction false} ClosingIsFinal(w: World, rest: seq<Choice>)
    requires Over(w) && w.client.state.CLOSING?
    ensures Run(w, rest).client.state == if TS.RetransmissionFailure in Triggers(w, rest) then TS.CLOSED else TS.CLOSING
  {
    FinishingRun(w, rest);
    StuckInClosing(Triggers(w, rest));
  }

  lemma {:induction false} StuckInClosing(ts: seq<TS.Trigger>)
    requires forall t :: t in ts ==> TS.Late(t)
    ensures TS.Driven(TS.CLOSING, ts) == if TS.RetransmissionFailure in ts then TS.CLOSED else TS.CLOSING
  {
    if ts != [] {
      var earlier, t := ts[..|ts| - 1], ts[|ts| - 1];
      assert ts == earlier + [t] && t in ts;
      StuckInClosing(earlier);
    }
  }
}
