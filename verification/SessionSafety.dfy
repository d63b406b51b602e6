/**
  What every run of a session keeps, up to the first FIN or the first failed retransmission: the handshake
  leaves the ends in agreement, and the server's view is always a prefix of the client's stream, for every
  initial sequence number.
 */
module SessionSafety {
  import opened Common
  import opened Word32
  import opened Connection
  import opened Session
  import opened SessionStream
  import opened Reassembly
  import EventQueues
  import TS = TcpState
  import RB = ReceiveBuffer
  import SB = SendBuffer
  import CC = CongestionControl

  // ---- phases of a session ----

  ghost predicate Unopened(ep: Endpoint)
  {
    (ep.state.CLOSED? || ep.state.LISTEN?) && ep == NewEndpoint(ep.state, 0, 0, FreshControl())
  }

  ghost predicate Idle(w: World)
  {
    Unopened(w.client) && Unopened(w.server) && w == Session.Start(w.site, w.server.state)
  }

  /** Nothing has been sent or buffered on this side. */
  ghost predicate Untouched(ep: Endpoint)
  {
    && ep.sendBuffer == [] && ep.unacknowledged == ep.seqNum && ep.window == DEFAULT_WINDOW
    && ep.receiveBuffer.entries == [] && ep.receiveBuffer.buffered == 0 && ep.receiveBuffer.capacity == DEFAULT_WINDOW
  }

  ghost predicate HasSeenSyn(server: Endpoint, isn: u32)
  {
    && server.state.SYN_RECEIVED? && Untouched(server)
    && server.expectedAck == Wrap(isn + 1) == server.receiveBuffer.next
  }

  ghost predicate OpeningEvent(isn: u32, server: Endpoint, e: Event)
  {
    match e
    case HandshakeTimeout => true
    case Arrival(p) =>
      || (p.kind.SYN? && p.toServer && p.seqNo == isn)
      || (p.kind.SYN_ACK? && !p.toServer && HasSeenSyn(server, isn) && p.seqNo == server.seqNum && p.ack == Wrap(isn + 1))
    case _ => false
  }

  ghost predicate Opening(w: World)
  {
    && w.client.state.SYN_SENT? && Untouched(w.client)
    && (Unopened(w.server) || HasSeenSyn(w.server, w.client.seqNum))
    && (forall e :: e in w.pending ==> OpeningEvent(w.client.seqNum, w.server, e.event))
    && !w.trafficGenerated && !w.closeRequested && w.sent == w.total == 0
    && w.log == [] && w.delivered == [] && w.stream.pieces == []
  }

  /** Nothing under way that could reopen or close the connection. */
  ghost predicate OpenEvent(e: Event)
  {
    && !e.Handshake?
    && (e.Arrival? ==>
          var p := e.packet;
          && !p.kind.FIN?
          && (p.kind.SYN? || p.kind.DATA? ==> p.toServer)
          && (p.kind.SYN_ACK? ==> !p.toServer))
  }

  ghost predicate ServerAgrees(w: World)
  {
    && w.server.sendBuffer == [] && w.server.unacknowledged == w.server.seqNum
    && (|| (w.server.state.SYN_RECEIVED? && w.client.expectedAck == Wrap(w.server.seqNum + 1))
        || (w.server.state.ESTABLISHED? && w.client.expectedAck == w.server.seqNum))
  }

  /** The client has left the established state for good. */
  ghost predicate Over(w: World)
  {
    && OverState(w.client.state)
    && forall e :: e in w.pending ==> OverEvent(e.event)
  }

  predicate OverState(s: TS.State) { !s.SYN_SENT? && !s.SYN_RECEIVED? && !s.ESTABLISHED? && !s.LISTEN? }

  ghost predicate OverEvent(e: Event)
  {
    && !e.Handshake?
    && (e.Arrival? && e.packet.kind.SYN? ==> e.packet.toServer)
  }

  // ---- the data phase ----

  /** The segments queued so far are the pieces of the stream. */
  ghost predicate Numbered(w: World)
  {
    Modest(w.stream) && |w.stream.pieces| == w.sent <= w.total <= PACKETS_PER_ROUTE
  }

  /** The piece SND.UNA stands at: everything from there on is still stored. */
  function Una(w: World): int { |w.stream.pieces| - |w.client.sendBuffer| }

  /** The client stores exactly the pieces from SND.UNA to SND.NXT; SND.UNA never passes the top of the sequence space. */
  ghost predicate Sending(w: World)
  {
    var n, j := |w.stream.pieces|, Una(w);
    && Tail(w.stream, w.client.sendBuffer) && w.client.window == DEFAULT_WINDOW
    && w.client.seqNum == Word(w.stream, n)
    && Plain(w.stream, j) && w.client.unacknowledged == w.stream.base + Offset(w.stream.pieces, j)
    && Offset(w.stream.pieces, n) - Offset(w.stream.pieces, j) <= DEFAULT_WINDOW
  }

  /** The server has handed over exactly the first k pieces and stores some others. */
  ghost predicate Receiving(w: World, k: nat)
  {
    var rb := w.server.receiveBuffer;
    && Una(w) <= k <= |w.stream.pieces|
    && RB.Valid(rb) && rb.capacity == DEFAULT_WINDOW && AllStored(w.stream, rb.entries, k)
    && w.server.expectedAck == rb.next == Word(w.stream, k)
    && w.delivered == Joined(w.stream.pieces[..k])
  }

  /** Every data packet carries a piece of the stream; every acknowledgement is one the server has reached. */
  ghost predicate FlowEvent(stream: Partition, k: nat, e: Event)
    requires k <= |stream.pieces|
  {
    && (e.Arrival? && e.packet.kind.DATA? ==> exists i: nat :: IsPiece(stream, e.packet.seqNo, e.packet.payload, i))
    && (e.Arrival? && e.packet.kind.ACK? && !e.packet.toServer ==> exists i: nat :: Reached(stream, k, e.packet.ack, i))
  }

  predicate Reached(stream: Partition, k: nat, ack: u32, i: nat)
    requires k <= |stream.pieces|
  {
    i <= k && ack == Word(stream, i)
  }

  /** Established, with the first k pieces handed over. */
  ghost predicate OpenAt(w: World, k: nat)
  {
    && w.client.state.ESTABLISHED?
    && ServerAgrees(w) && Numbered(w) && Sending(w) && Receiving(w, k)
    && forall e :: e in w.pending ==> OpenEvent(e.event) && FlowEvent(w.stream, k, e.event)
  }

  lemma OpenFromParts(w: World, k: nat)
    requires w.client.state.ESTABLISHED? && ServerAgrees(w) && Numbered(w) && Sending(w) && Receiving(w, k)
    requires forall e :: e in w.pending ==> OpenEvent(e.event) && FlowEvent(w.stream, k, e.event)
    ensures OpenAt(w, k)
  {
  }

  ghost predicate Open(w: World) { exists k: nat :: OpenAt(w, k) }

  ghost predicate Inv(w: World)
  {
    Idle(w) || Opening(w) || Open(w) || Over(w)
  }

  // ---- opening ----

  lemma IdleStep(w: World, c: Choice)
    requires Idle(w)
    ensures Idle(Step(w, c)) || Opening(Step(w, c))
  {
  }

  lemma OpeningSchedules(w: World, e: Event, at: real)
    requires Opening(w) && OpeningEvent(w.client.seqNum, w.server, e)
    ensures Opening(ScheduledAt(w, e, at))
  {
  }

  lemma OpeningSends(w: World, p: Packet, o: Offer)
    requires Opening(w) && OpeningEvent(w.client.seqNum, w.server, Arrival(p))
    ensures Opening(Sent(w, p, o))
  {
    if Taken(w, p, o) { OpeningSchedules(w, Arrival(p.(at := NextNode(w.site, p))), o.arrival); }
  }

  lemma OpeningSynSent(w: World, c: Choice)
    requires Opening(w)
    ensures Opening(SynSent(w, c))
  {
    var syn := SynPacket(w.site, w.client);
    OpeningSends(w, syn, c.offer);
    OpeningSchedules(Sent(w, syn, c.offer), HandshakeTimeout, w.now + SYN_TIMEOUT);
  }

  lemma OpeningRetried(w: World)
    requires Opening(w)
    ensures Opening(Retried(w))
  {
  }

  lemma OpeningTimer(w: World, c: Choice)
    requires Opening(w)
    ensures Opening(OnHandshakeTimeout(w, c))
  {
    if w.client.synRetries < MAX_SYN_RETRIES {
      OpeningRetried(w);
      OpeningSynSent(Retried(w), c);
    }
  }

  lemma OpeningSyn(w: World, p: Packet, c: Choice)
    requires Opening(w) && OpeningEvent(w.client.seqNum, w.server, Arrival(p)) && p.kind.SYN?
    ensures Opening(OnSyn(w, p, c))
  {
    var out := ReceiveSyn(w.server, p.seqNo);
    if out.ok {
      var w1 := w.(server := out.ep);
      assert Unopened(w.server) && HasSeenSyn(out.ep, w.client.seqNum);
      forall e | e in w1.pending ensures OpeningEvent(w1.client.seqNum, w1.server, e.event) {
        assert OpeningEvent(w.client.seqNum, w.server, e.event);
      }
      OpeningSends(w1, PlainPacket(w.site, SYN_ACK, false, out.ep), c.offer);
    }
  }

  /** What was under way in the handshake carries no data and no acknowledgement for the client. */
  lemma OpeningEventsFit(w: World, stream: Partition)
    requires Opening(w)
    ensures forall e :: e in w.pending ==> OpenEvent(e.event) && FlowEvent(stream, 0, e.event)
  {
    forall e | e in w.pending ensures OpenEvent(e.event) && FlowEvent(stream, 0, e.event) {
      assert OpeningEvent(w.client.seqNum, w.server, e.event);
    }
  }

  /** The world with the SYN-ACK taken in and not yet acknowledged. */
  function Opened(w: World, p: Packet): World
  {
    var ep := ReceiveSynAck(w.client, p.seqNo, p.ack).ep;
    w.(client := ep, stream := Partition(ep.seqNum, []))
  }

  lemma OpeningSynAck(w: World, p: Packet, c: Choice)
    requires Opening(w) && OpeningEvent(w.client.seqNum, w.server, Arrival(p)) && p.kind.SYN_ACK?
    ensures OpenAt(OnSynAck(w, p, c), 0)
  {
    OpeningOpens(w, p);
    OpenSends(Opened(w, p), 0, PlainPacket(w.site, ACK, true, Opened(w, p).client), c.offer);
  }

  /** The SYN-ACK leaves the client established, and the ends in agreement, at the start of an empty stream. */
  lemma OpenedAgrees(w: World, p: Packet)
    requires Opening(w) && OpeningEvent(w.client.seqNum, w.server, Arrival(p)) && p.kind.SYN_ACK?
    ensures ReceiveSynAck(w.client, p.seqNo, p.ack).ok
    ensures var w1 := Opened(w, p);
      && w1.client.state.ESTABLISHED? && Untouched(w1.client) && Untouched(w1.server) && ServerAgrees(w1)
      && w1.server.expectedAck == w1.server.receiveBuffer.next == w1.client.seqNum
  {
  }

  lemma OpeningOpens(w: World, p: Packet)
    requires Opening(w) && OpeningEvent(w.client.seqNum, w.server, Arrival(p)) && p.kind.SYN_ACK?
    ensures ReceiveSynAck(w.client, p.seqNo, p.ack).ok && OpenAt(Opened(w, p), 0)
  {
    OpenedAgrees(w, p);
    OpeningEventsFit(w, Opened(w, p).stream);
    NothingSent(Opened(w, p));
    NothingReceived(Opened(w, p));
    OpenFromParts(Opened(w, p), 0);
  }

  /** Both ends stand at the start of an empty stream. */
  lemma NothingSent(w: World)
    requires Untouched(w.client) && w.stream == Partition(w.client.seqNum, []) && w.sent == w.total == 0
    ensures Numbered(w) && Sending(w) && Una(w) == 0
  {
  }

  lemma NothingReceived(w: World)
    requires Untouched(w.client) && Untouched(w.server) && w.stream == Partition(w.client.seqNum, []) && w.delivered == []
    requires w.server.expectedAck == w.server.receiveBuffer.next == w.client.seqNum
    ensures Receiving(w, 0)
  {
    assert Word(w.stream, 0) == w.client.seqNum;
    assert w.stream.pieces[..0] == [];
  }

  lemma PoppedOpening(w: World)
    requires Opening(w) && w.pending != []
    ensures Opening(Popped(w)) && OpeningEvent(w.client.seqNum, w.server, w.pending[0].event)
  {
    assert w.pending[0] in w.pending;
  }

  lemma OpeningStep(w: World, c: Choice)
    requires Opening(w)
    ensures Opening(Step(w, c)) || Open(Step(w, c))
  {
    if Enabled(w, c) {
      PoppedOpening(w);
      var w1, e := Popped(w), w.pending[0].event;
      if e.HandshakeTimeout? { OpeningTimer(w1, c); }
      else if e.packet.at != Home(w1.site, e.packet.toServer) { OpeningSends(w1, e.packet, c.offer); }
      else if e.packet.kind.SYN? { OpeningSyn(w1, e.packet, c); }
      else { OpeningSynAck(w1, e.packet, c); }
    }
  }

  // ---- open: steps that leave both ends' sequence state alone ----

  lemma PoppedOpen(w: World, k: nat)
    requires OpenAt(w, k) && w.pending != []
    ensures OpenAt(Popped(w), k)
    ensures OpenEvent(w.pending[0].event) && FlowEvent(w.stream, k, w.pending[0].event)
  {
    assert w.pending[0] in w.pending;
  }

  lemma OpenSchedules(w: World, k: nat, e: Event, at: real)
    requires OpenAt(w, k) && OpenEvent(e) && FlowEvent(w.stream, k, e)
    ensures OpenAt(ScheduledAt(w, e, at), k)
  {
  }

  lemma OpenSends(w: World, k: nat, p: Packet, o: Offer)
    requires OpenAt(w, k) && OpenEvent(Arrival(p)) && FlowEvent(w.stream, k, Arrival(p))
    ensures OpenAt(Sent(w, p, o), k)
  {
    if Taken(w, p, o) {
      OpenSchedules(w, k, Arrival(p.(at := NextNode(w.site, p))), o.arrival);
    }
  }

  ghost predicate SameSender(a: Endpoint, b: Endpoint)
  {
    && a.state == b.state && a.seqNum == b.seqNum && a.expectedAck == b.expectedAck
    && a.unacknowledged == b.unacknowledged && a.window == b.window && a.sendBuffer == b.sendBuffer
  }

  /** Same sequence state, same history: only timers, windows and flags may differ. */
  ghost predicate SameFlow(w: World, w': World)
  {
    && SameSender(w.client, w'.client) && SameSender(w.server, w'.server)
    && w.server.receiveBuffer == w'.server.receiveBuffer
    && w.stream == w'.stream && w.delivered == w'.delivered
    && w.sent == w'.sent && w.pending == w'.pending
    && (w'.total == w.total || w'.total == PACKETS_PER_ROUTE)
  }

  lemma SameFlowOpen(w: World, w': World, k: nat)
    requires OpenAt(w, k) && SameFlow(w, w')
    ensures OpenAt(w', k)
  {
  }

  /** Late handshake packets and timers, resets and expiries find nothing to do. */
  lemma OpenIdleEvents(w: World, k: nat, p: Packet, c: Choice)
    requires OpenAt(w, k) && OpenEvent(Arrival(p))
    ensures OnHandshakeTimeout(w, c) == w
    ensures p.kind.SYN? ==> OnSyn(w, p, c) == w
    ensures p.kind.SYN_ACK? ==> OnSynAck(w, p, c) == w
    ensures OnTimeWaitTimeout(w) == w
  {
  }

  /** Either end may acknowledge what it has reached at any time. */
  lemma OpenAck(w: World, k: nat, fromServer: bool, o: Offer)
    requires OpenAt(w, k)
    ensures OpenAt(Sent(w, PlainPacket(w.site, ACK, !fromServer, Session.End(w, fromServer)), o), k)
  {
    var ack := PlainPacket(w.site, ACK, !fromServer, Session.End(w, fromServer));
    assert fromServer ==> Reached(w.stream, k, ack.ack, k);
    OpenSends(w, k, ack, o);
  }

  lemma OpenDelayedAck(w: World, k: nat, atServer: bool, number: u32, c: Choice)
    requires OpenAt(w, k)
    ensures OpenAt(OnDelayedAck(w, atServer, number, c), k)
  {
    var ep := Session.End(w, atServer);
    if ep.state.ESTABLISHED? && ep.delayedAck {
      var cleared := WithEnd(w, atServer, ep.(delayedAck := false));
      SameFlowOpen(w, cleared, k);
      OpenAck(cleared, k, atServer, c.offer);
    }
  }

  lemma OpenOver(w: World, k: nat, client: Endpoint)
    requires OpenAt(w, k) && OverState(client.state)
    ensures Over(w.(client := client))
  {
  }

  lemma OpenClose(w: World, k: nat, c: Choice)
    requires OpenAt(w, k)
    ensures Over(OnClose(w, c))
  {
    var out := SendFin(w.client);
    OpenOver(w, k, out.ep);
    OverSends(w.(client := out.ep), PlainPacket(w.site, FIN, true, out.ep), c.offer);
  }

  lemma OpenFails(w: World, k: nat)
    requires OpenAt(w, k)
    ensures Over(w.(client := FailRetransmission(w.client)))
  {
    OpenOver(w, k, FailRetransmission(w.client));
  }

  lemma OpenTimeout(w: World, k: nat, seqNo: u32)
    requires OpenAt(w, k)
    ensures OpenAt(OnTimeout(w, seqNo), k) || Over(OnTimeout(w, seqNo))
  {
    OpenFails(w, k);
    var w1 := w.(client := SendTimeout(w.client));
    SameFlowOpen(w, w1, k);
    OpenSchedules(w1, k, Retransmission(seqNo), w1.now + 0.0);
  }

  // ---- open: retransmission ----

  lemma TailMarked(p: Partition, entries: seq<SB.Entry>, seqNo: u32, now: real)
    requires Tail(p, entries)
    ensures Tail(p, SB.MarkedAt(entries, seqNo, now)) && |SB.MarkedAt(entries, seqNo, now)| == |entries|
  {
    var xs := SB.MarkedAt(entries, seqNo, now);
    assert forall m: nat :: m < |entries| ==> xs[m].seqNo == entries[m].seqNo && xs[m].payload == entries[m].payload;
  }

  lemma OpenMarked(w: World, k: nat, seqNo: u32)
    requires OpenAt(w, k)
    ensures OpenAt(w.(client := MarkRetransmitted(w.client, seqNo, w.now), log := w.log + [Transmission(seqNo, w.now)]), k)
  {
    TailMarked(w.stream, w.client.sendBuffer, seqNo, w.now);
  }

  lemma OpenSentWithTimer(w: World, k: nat, packet: Packet, seqNo: u32, o: Offer)
    requires OpenAt(w, k) && OpenEvent(Arrival(packet)) && FlowEvent(w.stream, k, Arrival(packet))
    ensures OpenAt(Scheduled(Sent(w, packet, o), Timeout(seqNo), Rto(w.client)), k)
  {
    OpenSends(w, k, packet, o);
    OpenSchedules(Sent(w, packet, o), k, Timeout(seqNo), w.now + Rto(w.client));
  }

  lemma OpenResent(w: World, k: nat, seqNo: u32, c: Choice)
    requires OpenAt(w, k)
    ensures OpenAt(Resent(w, seqNo, c), k)
  {
    var entries, i := w.client.sendBuffer, SB.Find(w.client.sendBuffer, seqNo);
    if i < |entries| {
      var w1 := w.(client := MarkRetransmitted(w.client, seqNo, w.now), log := w.log + [Transmission(seqNo, w.now)]);
      OpenMarked(w, k, seqNo);
      var packet := DataPacket(w.site, seqNo, entries[i].ack, entries[i].payload);
      StoredIsPiece(w, k, i);
      OpenSentWithTimer(w1, k, packet, seqNo, c.offer);
    }
  }

  lemma StoredIsPiece(w: World, k: nat, i: nat)
    requires OpenAt(w, k) && i < |w.client.sendBuffer|
    ensures IsPiece(w.stream, w.client.sendBuffer[i].seqNo, w.client.sendBuffer[i].payload, Una(w) + i)
  {
  }

  lemma OpenRetransmission(w: World, k: nat, seqNo: u32, c: Choice)
    requires OpenAt(w, k)
    ensures OpenAt(OnRetransmission(w, seqNo, c), k) || Over(OnRetransmission(w, seqNo, c))
  {
    OpenResent(w, k, seqNo, c);
    OpenFails(w, k);
  }

  /** The window cut before a fast retransmission. */
  function Cut(w: World): World
  {
    w.(client := w.client.(congestion := CC.OnFastRetransmit(w.client.congestion, FlightSize(w.client))))
  }

  lemma OpenFastRetransmission(w: World, k: nat, c: Choice)
    requires OpenAt(w, k)
    ensures OpenAt(OnFastRetransmission(w, c), k) || Over(OnFastRetransmission(w, c))
  {
    SameFlowOpen(w, Cut(w), k);
    if w.client.sendBuffer != [] { OpenResent(Cut(w), k, w.client.sendBuffer[0].seqNo, c); }
    OpenFails(w, k);
  }

  // ---- open: acknowledgements ----

  /** An acknowledgement the client accepts finds no number of the flight past the top of the sequence space. */
  lemma AcceptedIsPlain(p: Partition, j: nat, k: nat, i: nat)
    requires Modest(p) && j <= k <= |p.pieces| && i <= k && Plain(p, j)
    requires p.base + Offset(p.pieces, j) < Word(p, i) <= Word(p, |p.pieces|)
    ensures j < i && Plain(p, |p.pieces|) && Plain(p, i)
  {
    var n := |p.pieces|;
    WordValue(p, n);
    WordValue(p, i);
    WordValue(p, j);
    if i < n { OffsetsApart(p, i, n); }
    if i < j { OffsetsApart(p, i, j); }
  }

  lemma PlainBelow(p: Partition, i: nat)
    requires Modest(p) && Plain(p, |p.pieces|) && i <= |p.pieces|
    ensures Plain(p, i) && Word(p, i) == p.base + Offset(p.pieces, i)
  {
    if i < |p.pieces| { OffsetsApart(p, i, |p.pieces|); }
    WordValue(p, i);
  }

  /** In a plain stream the numbers are in the order of the pieces. */
  lemma PlainOrder(p: Partition, i: nat, j: nat)
    requires Modest(p) && Plain(p, |p.pieces|) && i <= |p.pieces| && j <= |p.pieces|
    ensures Word(p, i) <= Word(p, j) <==> i <= j
  {
    PlainBelow(p, i);
    PlainBelow(p, j);
    if i < j { OffsetsApart(p, i, j); }
    if j < i { OffsetsApart(p, j, i); }
  }

  /** An acknowledgement takes exactly the pieces below it out of the send buffer. */
  lemma AckCovers(p: Partition, entries: seq<SB.Entry>, i: nat)
    requires Modest(p) && Tail(p, entries) && Plain(p, |p.pieces|) && |p.pieces| - |entries| <= i <= |p.pieces|
    ensures SB.Covered(entries, Word(p, i)) == i - (|p.pieces| - |entries|)
  {
    var d := |p.pieces| - |entries|;
    forall m: nat | m < |entries| ensures SB.End(entries[m]) <= Word(p, i) <==> d + m + 1 <= i {
      AckCoversEntry(p, entries, i, m);
    }
    SB.CoveredUnique(entries, Word(p, i), i - d);
  }

  lemma AckCoversEntry(p: Partition, entries: seq<SB.Entry>, i: nat, m: nat)
    requires Modest(p) && Tail(p, entries) && Plain(p, |p.pieces|) && i <= |p.pieces| && m < |entries|
    ensures SB.End(entries[m]) <= Word(p, i) <==> |p.pieces| - |entries| + m + 1 <= i
  {
    var at := |p.pieces| - |entries| + m;
    assert IsPiece(p, entries[m].seqNo, entries[m].payload, at);
    WordNext(p, at);
    PlainOrder(p, at + 1, i);
  }

  /** The sender after an acknowledgement it accepts: the pieces from i on, SND.UNA at i. */
  lemma AckAccepted(w: World, k: nat, i: nat)
    requires OpenAt(w, k) && i <= k && w.client.unacknowledged < Word(w.stream, i) <= w.client.seqNum
    ensures Una(w) < i && Plain(w.stream, i) && Word(w.stream, i) == w.stream.base + Offset(w.stream.pieces, i)
    ensures Offset(w.stream.pieces, Una(w)) <= Offset(w.stream.pieces, i)
    ensures SB.Covered(w.client.sendBuffer, Word(w.stream, i)) == i - Una(w)
  {
    AcceptedIsPlain(w.stream, Una(w), k, i);
    AckCovers(w.stream, w.client.sendBuffer, i);
    WordValue(w.stream, i);
    OffsetsApart(w.stream, Una(w), i);
  }

  /** What an established endpoint makes of an acknowledgement between SND.UNA and SND.NXT. */
  lemma AckAdvances(ep: Endpoint, ack: u32, now: real)
    requires ep.state.ESTABLISHED? && ep.unacknowledged < ack <= ep.seqNum
    ensures var ep' := Acknowledging(ep, ack, now).ep;
      && ep'.sendBuffer == ep.sendBuffer[SB.Covered(ep.sendBuffer, ack)..] && ep'.unacknowledged == ack
      && ep'.state == ep.state && ep'.seqNum == ep.seqNum && ep'.window == ep.window
      && ep'.expectedAck == ep.expectedAck
  {
  }

  /** A client that drops its stored pieces below i and stands at i. */
  lemma MovedOpen(w: World, k: nat, i: nat, ep: Endpoint)
    requires OpenAt(w, k) && Una(w) <= i <= k && Plain(w.stream, i)
    requires Offset(w.stream.pieces, Una(w)) <= Offset(w.stream.pieces, i)
    requires ep.sendBuffer == w.client.sendBuffer[i - Una(w)..]
    requires ep.unacknowledged == w.stream.base + Offset(w.stream.pieces, i)
    requires ep.state == w.client.state && ep.seqNum == w.client.seqNum && ep.window == w.client.window
    requires ep.expectedAck == w.client.expectedAck
    ensures OpenAt(w.(client := ep), k)
  {
    TailDrops(w.stream, w.client.sendBuffer, i - Una(w));
  }

  lemma OpenAckAccepted(w: World, k: nat, i: nat)
    requires OpenAt(w, k) && i <= k && w.client.unacknowledged < Word(w.stream, i) <= w.client.seqNum
    ensures OpenAt(w.(client := Acknowledging(w.client, Word(w.stream, i), w.now).ep), k)
  {
    AckAccepted(w, k, i);
    AckAdvances(w.client, Word(w.stream, i), w.now);
    MovedOpen(w, k, i, Acknowledging(w.client, Word(w.stream, i), w.now).ep);
  }

  lemma TailDrops(p: Partition, entries: seq<SB.Entry>, n: nat)
    requires Tail(p, entries) && n <= |entries|
    ensures Tail(p, entries[n..])
  {
    var rest := entries[n..];
    forall m: nat | m < |rest| ensures IsPiece(p, rest[m].seqNo, rest[m].payload, |p.pieces| - |rest| + m) {
      assert rest[m] == entries[n + m];
    }
  }

  lemma OpenAckClient(w: World, k: nat, ack: u32)
    requires OpenAt(w, k) && exists i: nat :: Reached(w.stream, k, ack, i)
    ensures OpenAt(w.(client := Acknowledging(w.client, ack, w.now).ep), k)
  {
    var i: nat :| Reached(w.stream, k, ack, i);
    if w.client.unacknowledged < ack <= w.client.seqNum { OpenAckAccepted(w, k, i); }
    else { SameFlowOpen(w, w.(client := Acknowledging(w.client, ack, w.now).ep), k); }
  }

  lemma OpenAckServer(w: World, k: nat, ack: u32)
    requires OpenAt(w, k)
    ensures OpenAt(w.(server := Acknowledging(w.server, ack, w.now).ep), k)
  {
  }

  lemma OpenRearmed(w: World, k: nat, toServer: bool, advanced: bool)
    requires OpenAt(w, k)
    ensures OpenAt(Rearmed(w, toServer, advanced), k)
  {
    var ep := Session.End(w, toServer);
    if advanced && Oldest(ep).Some? { OpenSchedules(w, k, Timeout(Oldest(ep).value), w.now + Rto(ep)); }
  }

  lemma OpenDuplicates(w: World, k: nat, toServer: bool)
    requires OpenAt(w, k)
    ensures OpenAt(DuplicatesSeen(w, toServer), k)
  {
    var reset := WithEnd(w, toServer, DetectionReset(Session.End(w, toServer)));
    SameFlowOpen(w, reset, k);
    OpenSchedules(reset, k, FastRetransmission, w.now + 0.0);
  }

  lemma OpenReactions(w: World, k: nat, toServer: bool, advanced: bool)
    requires OpenAt(w, k)
    ensures OpenAt(AckReactions(w, toServer, advanced), k)
  {
    OpenRearmed(w, k, toServer, advanced);
    OpenDuplicates(Rearmed(w, toServer, advanced), k, toServer);
  }

  lemma OpenAdvanced(w: World, k: nat)
    requires OpenAt(w, k)
    ensures OpenAt(Advanced(w), k)
  {
    var w1 := w;
    if BothEstablished(w) && !w.trafficGenerated {
      var started := w.(total := PACKETS_PER_ROUTE, trafficGenerated := true);
      SameFlowOpen(w, started, k);
      OpenSchedules(started, k, Generate, w.now + 0.0);
      w1 := Scheduled(started, Generate, 0.0);
    }
    SameFlowOpen(w1, w1.(closeRequested := true), k);
    OpenSchedules(w1.(closeRequested := true), k, Close, w1.now + 0.0);
  }

  lemma OpenAcknowledgement(w: World, k: nat, p: Packet)
    requires OpenAt(w, k) && p.kind.ACK? && FlowEvent(w.stream, k, Arrival(p))
    ensures OpenAt(OnAck(w, p), k)
  {
    var out := Acknowledging(Session.End(w, p.toServer), p.ack, w.now);
    if p.toServer { OpenAckServer(w, k, p.ack); } else { OpenAckClient(w, k, p.ack); }
    var w1 := WithEnd(w, p.toServer, out.ep);
    OpenReactions(w1, k, p.toServer, out.ok);
    OpenAdvanced(AckReactions(w1, p.toServer, out.ok), k);
  }

  // ---- open: data ----

  lemma FlowGoesOn(stream: Partition, k: nat, k': nat, e: Event)
    requires k <= k' <= |stream.pieces| && FlowEvent(stream, k, e)
    ensures FlowEvent(stream, k', e)
  {
    if e.Arrival? && e.packet.kind.ACK? && !e.packet.toServer {
      var i: nat :| Reached(stream, k, e.packet.ack, i);
      assert Reached(stream, k', e.packet.ack, i);
    }
  }

  lemma TakenReceives(w: World, k: nat, p: Packet) returns (k': nat)
    requires OpenAt(w, k) && p.kind.DATA? && p.toServer && FlowEvent(w.stream, k, Arrival(p))
    requires ReceiveData(w.server, p.seqNo, p.payload).ok
    ensures k <= k' && Receiving(DataTaken(w, p), k')
  {
    var i: nat :| IsPiece(w.stream, p.seqNo, p.payload, i);
    k' := ReceiverTakes(w.stream, w.server, k, i);
  }

  lemma TakenLeavesRest(w: World, k: nat, p: Packet)
    requires OpenAt(w, k) && p.toServer
    ensures var w' := DataTaken(w, p);
      && w'.client == w.client && w'.stream == w.stream && w'.pending == w.pending && w'.sent == w.sent
      && ServerAgrees(w') && Numbered(w') && Sending(w')
  {
  }

  /** The server has taken in a data packet and not yet acknowledged it. */
  lemma OpenTaken(w: World, k: nat, p: Packet) returns (k': nat)
    requires OpenAt(w, k) && p.kind.DATA? && p.toServer && FlowEvent(w.stream, k, Arrival(p))
    requires ReceiveData(w.server, p.seqNo, p.payload).ok
    ensures OpenAt(DataTaken(w, p), k')
  {
    k' := TakenReceives(w, k, p);
    TakenLeavesRest(w, k, p);
    FlowsGoOn(w.stream, k, k', w.pending);
    OpenFromParts(DataTaken(w, p), k');
  }

  lemma FlowsGoOn(stream: Partition, k: nat, k': nat, pending: seq<EventQueues.Timed<Event>>)
    requires k <= k' <= |stream.pieces| && forall e :: e in pending ==> FlowEvent(stream, k, e.event)
    ensures forall e :: e in pending ==> FlowEvent(stream, k', e.event)
  {
    forall e | e in pending ensures FlowEvent(stream, k', e.event) { FlowGoesOn(stream, k, k', e.event); }
  }

  lemma OpenDataReactions(w: World, k: nat, inOrder: bool, c: Choice)
    requires OpenAt(w, k)
    ensures OpenAt(DataReactions(w, true, inOrder, c), k)
  {
    if !inOrder || w.server.delayedAck {
      var prompt := w.(server := w.server.(delayedAck := false));
      SameFlowOpen(w, prompt, k);
      OpenAck(prompt, k, true, c.offer);
    } else {
      var later := w.(server := w.server.(delayedAck := true));
      SameFlowOpen(w, later, k);
      OpenSchedules(later, k, DelayedAck(true, w.server.expectedAck), w.now + ACK_DELAY);
    }
  }

  lemma OpenData(w: World, k: nat, p: Packet, c: Choice)
    requires OpenAt(w, k) && p.kind.DATA? && p.toServer && FlowEvent(w.stream, k, Arrival(p))
    ensures Open(OnData(w, p, c))
  {
    if ReceiveData(w.server, p.seqNo, p.payload).ok {
      var k' := OpenTaken(w, k, p);
      OpenDataReactions(DataTaken(w, p), k', p.seqNo == w.server.expectedAck, c);
    }
  }

  // ---- open: new data ----

  lemma FlowGrown(stream: Partition, piece: seq<byte>, k: nat, e: Event)
    requires k <= |stream.pieces| && FlowEvent(stream, k, e)
    ensures FlowEvent(Grown(stream, piece), k, e)
  {
    if e.Arrival? && e.packet.kind.DATA? {
      var i: nat :| IsPiece(stream, e.packet.seqNo, e.packet.payload, i);
      PieceGrown(stream, piece, e.packet.seqNo, e.packet.payload, i);
    }
    if e.Arrival? && e.packet.kind.ACK? && !e.packet.toServer {
      var i: nat :| Reached(stream, k, e.packet.ack, i);
      WordGrown(stream, piece, i);
      assert Reached(Grown(stream, piece), k, e.packet.ack, i);
    }
  }

  /** The window's test on words is the test on the bytes really in flight. */
  lemma FlightInBytes(w: World, k: nat)
    requires OpenAt(w, k)
    ensures Wrap(w.client.seqNum - w.client.unacknowledged)
         == Offset(w.stream.pieces, |w.stream.pieces|) - Offset(w.stream.pieces, Una(w))
  {
    var p, n, j := w.stream, |w.stream.pieces|, Una(w);
    WordValue(p, n);
    if j < n { OffsetsApart(p, j, n); }
    if !Plain(p, n) { WrapShift(Offset(p.pieces, n) - Offset(p.pieces, j) - MODULUS, 1); }
  }

  /** The stream with one more piece, and the offsets that do not change. */
  lemma GrownOffsets(p: Partition, payload: seq<byte>, j: nat)
    requires j <= |p.pieces|
    ensures var p', n := Grown(p, payload), |p.pieces|;
      && |p'.pieces| == n + 1 && Offset(p'.pieces, n + 1) == Offset(p.pieces, n) + |payload|
      && Offset(p'.pieces, j) == Offset(p.pieces, j)
      && Word(p', n) == Word(p, n) && Word(p', n + 1) == Wrap(Word(p, n) + |payload|)
      && (Plain(p', j) <==> Plain(p, j))
  {
    var n := |p.pieces|;
    OffsetGrown(p.pieces, payload, n);
    OffsetGrown(p.pieces, payload, j);
    WordGrown(p, payload, n);
    WordNext(Grown(p, payload), n);
  }

  lemma QueuedClient(ep: Endpoint, payload: seq<byte>, now: real)
    requires payload != [] && CanSend(ep, |payload|)
    ensures var out := QueueSent(ep, ep.seqNum, ep.expectedAck, payload, now);
      && out.ok && out.ep.sendBuffer == ep.sendBuffer + [SB.Entry(ep.seqNum, ep.expectedAck, payload, now, false, 0)]
      && out.ep.seqNum == Wrap(ep.seqNum + |payload|) && out.ep.unacknowledged == ep.unacknowledged
      && out.ep.window == ep.window && out.ep.state == ep.state
  {
  }

  lemma QueuedSending(w: World, k: nat, payload: seq<byte>)
    requires OpenAt(w, k) && payload != [] && CanSend(w.client, |payload|) && w.sent < w.total
    ensures Sending(Queued(w, payload)) && Numbered(Queued(w, payload)) && Una(Queued(w, payload)) == Una(w)
    ensures IsPiece(Grown(w.stream, payload), w.client.seqNum, payload, |w.stream.pieces|)
  {
    QueuedClient(w.client, payload, w.now);
    FlightInBytes(w, k);
    GrownOffsets(w.stream, payload, Una(w));
    TailGrown(w.stream, payload, w.client.sendBuffer, SB.Entry(w.client.seqNum, w.client.expectedAck, payload, w.now, false, 0));
  }

  lemma QueuedReceiving(w: World, k: nat, payload: seq<byte>)
    requires OpenAt(w, k) && QueueSent(w.client, w.client.seqNum, w.client.expectedAck, payload, w.now).ok
    ensures Receiving(Queued(w, payload), k)
  {
    StoredGrown(w.stream, payload, w.server.receiveBuffer.entries, k);
    WordGrown(w.stream, payload, k);
    assert (w.stream.pieces + [payload])[..k] == w.stream.pieces[..k];
  }

  lemma OpenQueued(w: World, k: nat, payload: seq<byte>)
    requires OpenAt(w, k) && payload != [] && CanSend(w.client, |payload|) && w.sent < w.total
    ensures OpenAt(Queued(w, payload), k)
    ensures IsPiece(Grown(w.stream, payload), w.client.seqNum, payload, |w.stream.pieces|)
  {
    QueuedSending(w, k, payload);
    QueuedReceiving(w, k, payload);
    forall e | e in w.pending ensures FlowEvent(Grown(w.stream, payload), k, e.event) {
      FlowGrown(w.stream, payload, k, e.event);
    }
  }

  /** The code sends the packet before it stores the segment; the order makes no difference to the session. */
  lemma SendThenQueue(w: World, p: Packet, o: Offer, payload: seq<byte>)
    ensures Queued(Sent(w, p, o), payload) == Sent(Queued(w, payload), p, o)
  {
  }

  lemma OpenContinued(w: World, k: nat, seqNo: u32, first: bool)
    requires OpenAt(w, k)
    ensures OpenAt(Continued(w, seqNo, first), k)
  {
    var w1 := w;
    if first {
      OpenSchedules(w, k, Timeout(seqNo), w.now + Rto(w.client));
      w1 := Scheduled(w, Timeout(seqNo), Rto(w.client));
    }
    OpenSchedules(w1, k, Generate, w1.now + 0.0);
  }

  lemma OpenGenerate(w: World, k: nat, c: Choice)
    requires OpenAt(w, k) && c.payload != []
    ensures OpenAt(OnGenerate(w, c), k)
  {
    if CanSend(w.client, |c.payload|) && w.sent != w.total {
      var packet := DataPacket(w.site, w.client.seqNum, w.client.expectedAck, c.payload);
      OpenQueued(w, k, c.payload);
      SendThenQueue(w, packet, c.offer, c.payload);
      OpenSends(Queued(w, c.payload), k, packet, c.offer);
      OpenContinued(Sent(Queued(w, c.payload), packet, c.offer), k, w.client.seqNum, w.client.sendBuffer == []);
    }
  }

  // ---- every step while open ----

  lemma OpenArrival(w: World, k: nat, p: Packet, c: Choice)
    requires OpenAt(w, k) && OpenEvent(Arrival(p)) && FlowEvent(w.stream, k, Arrival(p))
    ensures Open(OnArrival(w, p, c))
  {
    if p.at != Home(w.site, p.toServer) { OpenSends(w, k, p, c.offer); }
    else {
      OpenIdleEvents(w, k, p, c);
      if p.kind.ACK? { OpenAcknowledgement(w, k, p); }
      if p.kind.DATA? { OpenData(w, k, p, c); }
    }
  }

  lemma OpenExecute(w: World, k: nat, e: Event, c: Choice)
    requires OpenAt(w, k) && OpenEvent(e) && FlowEvent(w.stream, k, e) && c.payload != []
    ensures Open(Execute(w, e, c)) || Over(Execute(w, e, c))
  {
    match e
    case Arrival(p) => OpenArrival(w, k, p, c);
    case Handshake =>
    case HandshakeTimeout => assert Execute(w, e, c) == w;
    case Generate => OpenGenerate(w, k, c);
    case DelayedAck(atServer, number) => OpenDelayedAck(w, k, atServer, number, c);
    case Timeout(seqNo) => OpenTimeout(w, k, seqNo);
    case Retransmission(seqNo) => OpenRetransmission(w, k, seqNo, c);
    case FastRetransmission => OpenFastRetransmission(w, k, c);
    case Close => OpenClose(w, k, c);
    case TimeWaitTimeout => assert Execute(w, e, c) == w;
  }

  lemma OpenStep(w: World, k: nat, c: Choice)
    requires OpenAt(w, k)
    ensures Open(Step(w, c)) || Over(Step(w, c))
  {
    if Enabled(w, c) {
      PoppedOpen(w, k);
      OpenExecute(Popped(w), k, w.pending[0].event, c);
    }
  }

  // ---- over ----

  lemma OverSchedules(w: World, e: Event, at: real)
    requires Over(w) && OverEvent(e)
    ensures Over(ScheduledAt(w, e, at))
  {
  }

  lemma OverSends(w: World, p: Packet, o: Offer)
    requires Over(w) && OverEvent(Arrival(p))
    ensures Over(Sent(w, p, o))
  {
    if Taken(w, p, o) { OverSchedules(w, Arrival(p.(at := NextNode(w.site, p))), o.arrival); }
  }

  lemma OverSame(w: World, w': World)
    requires Over(w) && w'.pending == w.pending && OverState(w'.client.state)
    ensures Over(w')
  {
  }

  lemma OverSynHandshake(w: World, p: Packet, c: Choice)
    requires Over(w) && OverEvent(Arrival(p))
    ensures p.kind.SYN? ==> Over(OnSyn(w, p, c))
    ensures p.kind.SYN_ACK? ==> OnSynAck(w, p, c) == w
    ensures OnHandshakeTimeout(w, c) == w
  {
    if p.kind.SYN? {
      var ep := ReceiveSyn(w.server, p.seqNo).ep;
      OverSame(w, w.(server := ep));
      OverSends(w.(server := ep), PlainPacket(w.site, SYN_ACK, false, ep), c.offer);
    }
  }

  lemma OverReactions(w: World, toServer: bool, advanced: bool)
    requires Over(w)
    ensures Over(AckReactions(w, toServer, advanced))
  {
    var ep, w1 := Session.End(w, toServer), Rearmed(w, toServer, advanced);
    if advanced && Oldest(ep).Some? { OverSchedules(w, Timeout(Oldest(ep).value), w.now + Rto(ep)); }
    var reset := WithEnd(w1, toServer, DetectionReset(Session.End(w1, toServer)));
    OverSame(w1, reset);
    OverSchedules(reset, FastRetransmission, w1.now + 0.0);
  }

  lemma OverAck(w: World, p: Packet)
    requires Over(w)
    ensures Over(OnAck(w, p))
  {
    var out := Acknowledging(Session.End(w, p.toServer), p.ack, w.now);
    var w1 := WithEnd(w, p.toServer, out.ep);
    OverSame(w, w1);
    OverReactions(w1, p.toServer, out.ok);
    var w2 := AckReactions(w1, p.toServer, out.ok);
    assert Advanced(w2) == w2;
  }

  lemma OverDataReactions(w: World, toServer: bool, inOrder: bool, c: Choice)
    requires Over(w)
    ensures Over(DataReactions(w, toServer, inOrder, c))
  {
    var ep := Session.End(w, toServer);
    var prompt := WithEnd(w, toServer, ep.(delayedAck := false));
    var later := WithEnd(w, toServer, ep.(delayedAck := true));
    OverSame(w, prompt);
    OverSends(prompt, PlainPacket(w.site, ACK, !toServer, ep), c.offer);
    OverSame(w, later);
    OverSchedules(later, DelayedAck(toServer, ep.expectedAck), w.now + ACK_DELAY);
  }

  lemma OverData(w: World, p: Packet, c: Choice)
    requires Over(w)
    ensures Over(OnData(w, p, c))
  {
    OverSame(w, DataTaken(w, p));
    OverDataReactions(DataTaken(w, p), p.toServer, p.seqNo == Session.End(w, p.toServer).expectedAck, c);
  }

  lemma OverFinAnswered(w: World, toServer: bool, c: Choice)
    requires Over(w) && Session.End(w, toServer).state.CLOSE_WAIT?
    ensures Over(FinAnswered(w, toServer, c))
  {
    var fin := SendFin(Session.End(w, toServer)).ep;
    OverSame(w, WithEnd(w, toServer, fin));
    OverSends(WithEnd(w, toServer, fin), PlainPacket(w.site, FIN, !toServer, fin), c.offer2);
  }

  lemma OverFinReactions(w: World, toServer: bool, c: Choice)
    requires Over(w)
    ensures Over(FinReactions(w, toServer, c))
  {
    var ep := Session.End(w, toServer);
    var w1 := w;
    if w.client.state.TIME_WAIT? {
      OverSchedules(w, TimeWaitTimeout, w.now + TIME_WAIT_DELAY);
      w1 := Scheduled(w, TimeWaitTimeout, TIME_WAIT_DELAY);
    }
    var ack := PlainPacket(w.site, ACK, !toServer, ep);
    OverSends(w1, ack, c.offer);
    if ep.state.CLOSE_WAIT? { OverFinAnswered(Sent(w1, ack, c.offer), toServer, c); }
  }

  lemma OverFin(w: World, p: Packet, c: Choice)
    requires Over(w)
    ensures Over(OnFin(w, p, c))
  {
    var out := ReceiveFin(Session.End(w, p.toServer), p.seqNo);
    OverSame(w, WithEnd(w, p.toServer, out.ep));
    OverFinReactions(WithEnd(w, p.toServer, out.ep), p.toServer, c);
  }

  lemma OverTimers(w: World, e: Event, c: Choice)
    requires Over(w) && !e.Arrival? && !e.Handshake? && !e.HandshakeTimeout?
    ensures Over(Execute(w, e, c))
  {
    match e
    case DelayedAck(atServer, number) =>
      var ep := Session.End(w, atServer);
      var w1 := WithEnd(w, atServer, ep.(delayedAck := false));
      OverSame(w, w1);
      OverSends(w1, PlainPacket(w.site, ACK, !atServer, ep), c.offer);
    case Timeout(seqNo) => OverSame(w, OnTimeout(w, seqNo));
    case Retransmission(seqNo) => assert OnRetransmission(w, seqNo, c) == w;
    case FastRetransmission => assert OnFastRetransmission(w, c) == w;
    case Close => assert OnClose(w, c) == w;
    case TimeWaitTimeout => OverSame(w, OnTimeWaitTimeout(w));
    case Generate => assert OnGenerate(w, c) == w;
  }

  lemma PoppedOver(w: World)
    requires Over(w) && w.pending != []
    ensures Over(Popped(w)) && OverEvent(w.pending[0].event)
  {
    assert w.pending[0] in w.pending;
  }

  lemma OverStep(w: World, c: Choice)
    requires Over(w)
    ensures Over(Step(w, c))
  {
    if Enabled(w, c) {
      PoppedOver(w);
      var w1, e := Popped(w), w.pending[0].event;
      match e
      case Arrival(p) =>
        if p.at != Home(w1.site, p.toServer) {
          OverSends(w1, p, c.offer);
        } else {
          OverSynHandshake(w1, p, c);
          OverAck(w1, p);
          OverData(w1, p, c);
          OverFin(w1, p, c);
        }
      case HandshakeTimeout => assert Step(w, c) == w1;
      case _ => OverTimers(w1, e, c);
    }
  }

  // ---- every run ----

  lemma {:induction false} StepKeepsInv(w: World, c: Choice)
    requires Inv(w)
    ensures Inv(Step(w, c))
  {
    if Idle(w) { IdleStep(w, c); }
    else if Opening(w) { OpeningStep(w, c); }
    else if Open(w) {
      var k: nat :| OpenAt(w, k);
      OpenStep(w, k, c);
    }
    else { OverStep(w, c); }
  }

  lemma {:induction false} RunKeepsInv(site: Site, serverState: TS.State, choices: seq<Choice>)
    requires serverState.CLOSED? || serverState.LISTEN?
    ensures Inv(Run(Session.Start(site, serverState), choices))
  {
    if choices != [] {
      RunKeepsInv(site, serverState, choices[..|choices| - 1]);
      StepKeepsInv(Run(Session.Start(site, serverState), choices[..|choices| - 1]), choices[|choices| - 1]);
    }
  }
}
