/**
  What an end answers: the acknowledgement of a segment, at once or put off, and of a FIN, and its own FIN.
 */
module SessionReplies {
  import opened Common
  import opened Word32
  import opened Connection
  import opened Session
  import EventQueues
  import TS = TcpState

  // ---- a FIN taken ----

  /** The acknowledgement of a FIN with some number, still at the end that took it. */
  function FinAck(w: World, p: Packet): Packet
  {
    Packet(!p.toServer, ACK, Session.End(w, p.toServer).seqNum, Wrap(p.seqNo + 1), [], Home(w.site, p.toServer))
  }

  ghost predicate UnderWay(w: World, p: Packet, arrival: real)
  {
    exists id: nat :: EventQueues.Timed(arrival, id, Arrival(p)) in w.pending
  }

  lemma SentUnderWay(w: World, p: Packet, o: Offer)
    requires Taken(w, p, o)
    ensures UnderWay(Sent(w, p, o), p.(at := NextNode(w.site, p)), o.arrival)
  {
    assert EventQueues.Timed(o.arrival, w.nextId, Arrival(p.(at := NextNode(w.site, p)))) in Sent(w, p, o).pending;
  }

  lemma LaterUnderWay(w: World, p: Packet, o: Offer, q: Packet, arrival: real)
    requires UnderWay(w, q, arrival)
    ensures UnderWay(Sent(w, p, o), q, arrival)
  {
    var id: nat :| EventQueues.Timed(arrival, id, Arrival(q)) in w.pending;
    assert EventQueues.Timed(arrival, id, Arrival(q)) in Sent(w, p, o).pending;
  }

  /**
    Main result: an end that takes a FIN expects the number after it and says so: if the network takes it, an
    acknowledgement with exactly the number the sender of the FIN waits for is under way.
   */
  lemma FinIsAcknowledged(w: World, c: Choice)
    requires Enabled(w, c) && w.pending[0].event.Arrival?
    requires var p := w.pending[0].event.packet;
      && p.kind.FIN? && p.at == Home(w.site, p.toServer) && TS.Accepts(Session.End(w, p.toServer).state, TS.PeerFin)
      && Taken(w, FinAck(w, p), c.offer)
    ensures var p := w.pending[0].event.packet; var ack := FinAck(w, p);
      && Session.End(Step(w, c), p.toServer).expectedAck == ack.ack
      && UnderWay(Step(w, c), ack.(at := NextNode(w.site, ack)), c.offer.arrival)
      && (p.seqNo == Session.End(w, !p.toServer).seqNum ==> ack.ack == Wrap(Session.End(w, !p.toServer).seqNum + 1))
  {
    var w1, p := Popped(w), w.pending[0].event.packet;
    FinReaches(w, c);
    TakesFin(w1, p, c);
  }

  lemma FinReaches(w: World, c: Choice)
    requires Enabled(w, c) && w.pending[0].event.Arrival?
    requires var p := w.pending[0].event.packet; p.kind.FIN? && p.at == Home(w.site, p.toServer)
    ensures var w1, p := Popped(w), w.pending[0].event.packet;
      Step(w, c) == OnFin(w1, p, c) && FinAck(w1, p) == FinAck(w, p) && OwnFin(w1, p) == OwnFin(w, p)
  {
  }

  lemma TakesFin(w: World, p: Packet, c: Choice)
    requires TS.Accepts(Session.End(w, p.toServer).state, TS.PeerFin) && Taken(w, FinAck(w, p), c.offer)
    ensures var w' := OnFin(w, p, c); var ack := FinAck(w, p);
      Session.End(w', p.toServer).expectedAck == ack.ack && UnderWay(w', ack.(at := NextNode(w.site, ack)), c.offer.arrival)
  {
    var ep := ReceiveFin(Session.End(w, p.toServer), p.seqNo).ep;
    var w1 := WithEnd(w, p.toServer, ep);
    assert PlainPacket(w1.site, ACK, !p.toServer, ep) == FinAck(w, p);
    SentUnderWay(LastTimer(w1), FinAck(w, p), c.offer);
    FinAckGoes(w1, p.toServer, FinAck(w, p), c);
  }

  /**
    An established end that takes a FIN closes too, at once: it waits in LAST_ACK, and if the network takes it its own FIN
    is under way under the number whose successor closes it.
   */
  lemma FinIsAnswered(w: World, c: Choice)
    requires Enabled(w, c) && w.pending[0].event.Arrival?
    requires var p := w.pending[0].event.packet;
      p.kind.FIN? && p.at == Home(w.site, p.toServer) && Session.End(w, p.toServer).state.ESTABLISHED?
    ensures var p := w.pending[0].event.packet; var w' := Step(w, c); var fin := OwnFin(w, p);
      && Session.End(w', p.toServer).state.LAST_ACK? && Session.End(w', p.toServer).seqNum == fin.seqNo
      && (Taken(w, fin, c.offer2) ==> UnderWay(w', fin.(at := NextNode(w.site, fin)), c.offer2.arrival))
  {
    var w1, p := Popped(w), w.pending[0].event.packet;
    FinReaches(w, c);
    AnswersFin(w1, p, c);
  }

  /** The FIN of the end that a FIN has reached. */
  function OwnFin(w: World, p: Packet): Packet
  {
    Packet(!p.toServer, FIN, Session.End(w, p.toServer).seqNum, Wrap(p.seqNo + 1), [], Home(w.site, p.toServer))
  }

  lemma AnswersFin(w: World, p: Packet, c: Choice)
    requires Session.End(w, p.toServer).state.ESTABLISHED?
    ensures var w' := OnFin(w, p, c); var fin := OwnFin(w, p);
      && Session.End(w', p.toServer).state.LAST_ACK? && Session.End(w', p.toServer).seqNum == fin.seqNo
      && (Taken(w, fin, c.offer2) ==> UnderWay(w', fin.(at := NextNode(w.site, fin)), c.offer2.arrival))
  {
    var ep := ReceiveFin(Session.End(w, p.toServer), p.seqNo).ep;
    var w2 := FinAcked(WithEnd(w, p.toServer, ep), p.toServer, c);
    assert Session.End(w2, p.toServer) == ep;
    var last := SendFin(ep).ep;
    assert PlainPacket(w2.site, FIN, !p.toServer, last) == OwnFin(w, p);
    if Taken(w, OwnFin(w, p), c.offer2) { SentUnderWay(WithEnd(w2, p.toServer, last), OwnFin(w, p), c.offer2); }
  }

  lemma FinAckGoes(w: World, toServer: bool, ack: Packet, c: Choice)
    requires ack == PlainPacket(w.site, ACK, !toServer, Session.End(w, toServer))
    requires UnderWay(Sent(LastTimer(w), ack, c.offer), ack.(at := NextNode(w.site, ack)), c.offer.arrival)
    ensures var w' := FinReactions(w, toServer, c);
      UnderWay(w', ack.(at := NextNode(w.site, ack)), c.offer.arrival)
      && Session.End(w', toServer).expectedAck == Session.End(w, toServer).expectedAck
  {
    var w1 := FinAcked(w, toServer, c);
    assert w1 == Sent(LastTimer(w), ack, c.offer);
    var fin := SendFin(Session.End(w1, toServer)).ep;
    var w2 := WithEnd(w1, toServer, fin);
    assert UnderWay(w2, ack.(at := NextNode(w.site, ack)), c.offer.arrival);
    LaterUnderWay(w2, PlainPacket(w.site, FIN, !toServer, fin), c.offer2, ack.(at := NextNode(w.site, ack)), c.offer.arrival);
  }

  // ---- data taken ----

  /** The acknowledgement of everything an end has taken in order, still at that end. */
  function DataAck(w: World, server: bool, number: u32): Packet
  {
    Packet(!server, ACK, Session.End(w, server).seqNum, number, [], Home(w.site, server))
  }

  /** Acknowledged at once, or 0.2 later. */
  ghost predicate Acknowledges(w: World, w': World, server: bool, later: bool, o: Offer)
  {
    var ep' := Session.End(w', server);
    && ep'.delayedAck == later
    && (later ==> EventQueues.Timed(w'.now + 0.2, w.nextId, DelayedAck(server, ep'.expectedAck)) in w'.pending)
    && var ack := DataAck(w, server, ep'.expectedAck);
       !later && Taken(w, ack, o) ==> UnderWay(w', ack.(at := NextNode(w.site, ack)), o.arrival)
  }

  /**
    A segment that an end takes is acknowledged with the number the end now expects: 0.2 later if it was the next one
    and no acknowledgement is being put off, and at once if it was not or one is.
   */
  lemma DataIsAcknowledged(w: World, c: Choice)
    requires Enabled(w, c) && w.pending[0].event.Arrival?
    requires var p := w.pending[0].event.packet;
      && p.kind.DATA? && p.at == Home(w.site, p.toServer) && ReceiveData(Session.End(w, p.toServer), p.seqNo, p.payload).ok
    ensures var p := w.pending[0].event.packet; var ep := Session.End(w, p.toServer);
      && Session.End(Step(w, c), p.toServer).expectedAck == ReceiveData(ep, p.seqNo, p.payload).ep.expectedAck
      && Acknowledges(w, Step(w, c), p.toServer, p.seqNo == ep.expectedAck && !ep.delayedAck, c.offer)
  {
    var w1, p := Popped(w), w.pending[0].event.packet;
    var w2 := DataTaken(w1, p);
    DataReaches(w, c);
    DataReactionsAcknowledge(w2, p.toServer, p.seqNo == Session.End(w1, p.toServer).expectedAck, c);
  }

  lemma DataReaches(w: World, c: Choice)
    requires Enabled(w, c) && w.pending[0].event.Arrival?
    requires var p := w.pending[0].event.packet;
      && p.kind.DATA? && p.at == Home(w.site, p.toServer) && ReceiveData(Session.End(w, p.toServer), p.seqNo, p.payload).ok
    ensures var p := w.pending[0].event.packet; var w2 := DataTaken(Popped(w), p);
      && Step(w, c) == DataReactions(w2, p.toServer, p.seqNo == Session.End(w, p.toServer).expectedAck, c)
      && w2.nextId == w.nextId && w2.site == w.site && Session.End(w2, p.toServer).seqNum == Session.End(w, p.toServer).seqNum
      && Session.End(w2, p.toServer).delayedAck == Session.End(w, p.toServer).delayedAck
  {
  }

  lemma DataReactionsAcknowledge(w: World, server: bool, inOrder: bool, c: Choice)
    ensures var w' := DataReactions(w, server, inOrder, c); var ep := Session.End(w, server);
      Session.End(w', server).expectedAck == ep.expectedAck && Acknowledges(w, w', server, inOrder && !ep.delayedAck, c.offer)
  {
    var ep := Session.End(w, server);
    var w1 := WithEnd(w, server, ep.(delayedAck := false));
    if (!inOrder || ep.delayedAck) && Taken(w, DataAck(w, server, ep.expectedAck), c.offer) {
      SentUnderWay(w1, DataAck(w, server, ep.expectedAck), c.offer);
    }
  }

  /**
    An acknowledgement that was put off goes out exactly if its end is still established, still owes one and expects no
    other number meanwhile; otherwise nothing does.
   */
  lemma DelayedAckGoesIff(w: World, c: Choice)
    requires Enabled(w, c) && w.pending[0].event.DelayedAck?
    ensures var server, number := w.pending[0].event.atServer, w.pending[0].event.number;
      var ep, ack := Session.End(w, server), DataAck(w, server, number);
      if ep.state.ESTABLISHED? && ep.delayedAck && ep.expectedAck == number then
        && !Session.End(Step(w, c), server).delayedAck
        && (Taken(w, ack, c.offer) ==> UnderWay(Step(w, c), ack.(at := NextNode(w.site, ack)), c.offer.arrival))
      else Step(w, c).pending == w.pending[1..]
  {
    var server, number := w.pending[0].event.atServer, w.pending[0].event.number;
    var ep, ack := Session.End(w, server), DataAck(w, server, number);
    if ep.state.ESTABLISHED? && ep.delayedAck && ep.expectedAck == number && Taken(w, ack, c.offer) {
      SentUnderWay(WithEnd(Popped(w), server, ep.(delayedAck := false)), ack, c.offer);
    }
  }
}
