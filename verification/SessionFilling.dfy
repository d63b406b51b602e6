/**
  While the traffic is generated nothing is sent twice. All segments are generated at one instant: timers take longer,
  and before the next segment restarts the count of duplicates at most one acknowledgement reaches the client, so
  there is no fast retransmission either. Only pieces still unacknowledged after the last generation are ever
  sent again, and everything the server may be made to store lies, together, within one window.
 */
module SessionFilling {
  import opened Common
  import opened Word32
  import opened Connection
  import opened Session
  import opened SessionStream
  import opened SessionSafety
  import opened SessionWaves
  import opened SessionStore
  import opened Reassembly
  import SessionClock
  import EventQueues
  import TS = TcpState
  import RB = ReceiveBuffer
  import SB = SendBuffer

  // ---- before the traffic ----

  ghost predicate SilentEvent(server: Endpoint, e: Event)
  {
    match e
    case Arrival(p) =>
      || p.kind.SYN? || p.kind.SYN_ACK?
      || (p.kind.ACK? && p.toServer && p.ack == Wrap(server.seqNum + 1))
    case HandshakeTimeout => true
    case _ => false
  }

  predicate IsAck(e: Event) { e.Arrival? && e.packet.kind.ACK? }

  /** Nothing is under way but the handshake, and the last packet of that once. */
  ghost predicate Silent(w: World)
  {
    && w.stream.pieces == [] && w.sent == 0 && !w.trafficGenerated && w.server.state.SYN_RECEIVED?
    && w.server.receiveBuffer.entries == [] && w.client.detector.duplicates == 0
    && (forall x :: x in w.pending ==> SilentEvent(w.server, x.event))
    && forall x, y :: x in w.pending && y in w.pending && IsAck(x.event) && IsAck(y.event) ==> x == y
  }

  // ---- while the traffic is generated ----

  /** A piece on its way to the server for the first time. */
  ghost predicate OnItsWay(w: World, k: nat, p: Packet)
  {
    p.toServer && !RB.Stores(w.server.receiveBuffer.entries, p.seqNo) && PieceFrom(w.stream, p.seqNo, p.payload, k)
  }

  ghost predicate EarlyEvent(w: World, k: nat, gid: nat, x: Due)
  {
    match x.event
    case Arrival(p) => !p.kind.FIN? && (p.kind.ACK? ==> !p.toServer) && (p.kind.DATA? ==> OnItsWay(w, k, p))
    case HandshakeTimeout => true
    case Timeout(_) => x.time > w.now
    case DelayedAck(_, _) => x.time > w.now
    case Generate => x.id == gid && x.time == w.now
    case _ => false
  }

  /** The server has handed over k pieces and stores later ones; what is under way is there for the first time. */
  ghost predicate Loose(w: World, k: nat, gid: nat)
  {
    && k <= |w.stream.pieces| && w.server.receiveBuffer.next == Word(w.stream, k)
    && StoredFrom(w.stream, w.server.receiveBuffer.entries, k)
    && Waves(w.site, w.now, gid, w.pending)
    && forall x :: x in w.pending ==> EarlyEvent(w, k, gid, x)
  }

  predicate AtClient(site: Site, e: Event) { IsReply(e) && e.packet.at == site.client }

  /** At most one duplicate has been seen, and none if an acknowledgement is yet to reach the client. */
  ghost predicate Calm(w: World, gid: nat)
  {
    && w.client.detector.duplicates <= 1
    && forall x :: x in w.pending && AtClient(w.site, x.event) && x.time == w.now && x.id < gid ==>
         w.client.detector.duplicates == 0
  }

  ghost predicate Filling(w: World, k: nat, gen: Due)
  {
    && gen in w.pending && gen.event.Generate? && gen.time == w.now
    && w.trafficGenerated && w.sent != w.total && Calm(w, gen.id) && Loose(w, k, gen.id)
  }

  // ---- after the traffic ----

  ghost predicate SettledEvent(stream: Partition, lo: nat, e: Event)
  {
    !e.Generate? && (e.Arrival? && e.packet.kind.DATA? ==> PieceFrom(stream, e.packet.seqNo, e.packet.payload, lo))
  }

  /** Nothing is generated any more, and no piece before lo is under way or stored. */
  ghost predicate Settled(w: World, lo: nat)
  {
    && w.trafficGenerated && lo <= Una(w)
    && Offset(w.stream.pieces, |w.stream.pieces|) - Offset(w.stream.pieces, lo) <= DEFAULT_WINDOW
    && StoredFrom(w.stream, w.server.receiveBuffer.entries, lo)
    && forall x :: x in w.pending ==> SettledEvent(w.stream, lo, x.event)
  }

  // ---- the handshake ----

  /** The acknowledgement that completes the handshake is the only one. */
  lemma OpensSilent(w: World, p: Packet, c: Choice)
    requires Opening(w) && OpeningEvent(w.client.seqNum, w.server, Arrival(p)) && p.kind.SYN_ACK?
    ensures Silent(OnSynAck(w, p, c))
  {
    OpenedAgrees(w, p);
    var w1 := Opened(w, p);
    forall x | x in w1.pending ensures SilentEvent(w1.server, x.event) && !IsAck(x.event) {
      assert OpeningEvent(w.client.seqNum, w.server, x.event);
    }
  }

  lemma SilentSends(w: World, p: Packet, o: Offer)
    requires Silent(w) && SilentEvent(w.server, Arrival(p)) && (IsAck(Arrival(p)) ==> forall x :: x in w.pending ==> !IsAck(x.event))
    ensures Silent(Sent(w, p, o))
  {
  }

  lemma SilentPopped(w: World)
    requires Silent(w) && SessionClock.OnTime(w) && w.pending != []
    ensures Silent(Popped(w)) && SilentEvent(w.server, w.pending[0].event)
    ensures IsAck(w.pending[0].event) ==> forall x :: x in Popped(w).pending ==> !IsAck(x.event)
  {
    HeadOnce(w.pending);
  }

  /** The server's side of the last handshake packet. */
  lemma ServerOpens(w: World, p: Packet)
    requires OpenAt(w, 0) && Silent(w) && SilentEvent(w.server, Arrival(p)) && p.kind.ACK?
    ensures var out := Acknowledging(w.server, p.ack, w.now);
      && out.ep.state.ESTABLISHED? && out.ep.receiveBuffer == w.server.receiveBuffer && Oldest(out.ep).None?
      && !SB.ShouldFastRetransmit(out.ep.detector)
  {
  }

  lemma NoneLive(w: World, gid: nat, q: seq<Due>)
    requires forall x :: x in q ==> !IsData(x.event) && !IsReply(x.event)
    ensures Waves(w.site, w.now, gid, q)
  {
  }

  lemma TrafficStarts(w: World, p: Packet) returns (gen: Due)
    requires OpenAt(w, 0) && Silent(w) && SilentEvent(w.server, Arrival(p)) && p.kind.ACK?
    requires forall x :: x in w.pending ==> !IsAck(x.event)
    ensures Filling(OnAck(w, p), 0, gen)
    ensures var w' := OnAck(w, p);
      && BothEstablished(w') && w'.stream == w.stream && w'.client == w.client && w'.sent == 0 && w'.total == PACKETS_PER_ROUTE
      && forall x :: x in w'.pending ==> !IsData(x.event) && !IsReply(x.event)
  {
    ServerOpens(w, p);
    var server := Acknowledging(w.server, p.ack, w.now).ep;
    var w1 := w.(server := server, total := PACKETS_PER_ROUTE, trafficGenerated := true);
    assert OnAck(w, p) == Scheduled(w1, Generate, 0.0);
    gen := EventQueues.Timed(w.now + 0.0, w.nextId, Generate);
    var w2 := Scheduled(w1, Generate, 0.0);
    forall x | x in w2.pending ensures EarlyEvent(w2, 0, gen.id, x) && !IsData(x.event) && !IsReply(x.event) {
      if x != gen { assert SilentEvent(w.server, x.event); }
    }
    NoneLive(w2, gen.id, w2.pending);
  }

  lemma SilentStep(w: World, c: Choice)
    requires OpenAt(w, 0) && Silent(w) && SessionClock.OnTime(w) && Enabled(w, c)
    ensures Silent(Step(w, c)) || exists gen: Due :: Filling(Step(w, c), 0, gen)
  {
    PoppedOpen(w, 0);
    SilentPopped(w);
    var w1, e := Popped(w), w.pending[0].event;
    if e.Arrival? {
      var p := e.packet;
      if p.at != Home(w1.site, p.toServer) { SilentSends(w1, p, c.offer); }
      else {
        OpenIdleEvents(w1, 0, p, c);
        if p.kind.ACK? { var gen := TrafficStarts(w1, p); }
      }
    }
  }

  // ---- the traffic: an event before the next generation ----

  /** Something other than the generation is next. */
  ghost predicate Front(w: World, k: nat, gen: Due)
  {
    OpenAt(w, k) && SessionClock.OnTime(w) && Filling(w, k, gen) && w.pending != [] && w.pending[0] != gen
  }

  lemma FrontFacts(w: World, k: nat, gen: Due)
    requires Front(w, k, gen)
    ensures w.pending[0].time == w.now && w.pending[0].id < gen.id && w.pending[0] !in w.pending[1..]
    ensures Filling(Popped(w), k, gen) && Popped(w).now == w.now
    ensures OpenAt(Popped(w), k) && SessionClock.OnTime(Popped(w))
    ensures EarlyEvent(w, k, gen.id, w.pending[0]) && !w.pending[0].event.Generate?
  {
    HeadOnce(w.pending);
    PoppedOpen(w, k);
    SessionClock.PoppedAhead(w);
    WavesPopped(w.site, w.now, gen.id, w.pending);
    assert w.pending[0] in w.pending && gen in w.pending[1..];
    assert EventQueues.Earlier(w.pending[0], gen);
    assert EarlyEvent(w, k, gen.id, w.pending[0]);
    var w1 := Popped(w);
    forall x | x in w1.pending ensures EarlyEvent(w1, k, gen.id, x) { assert EarlyEvent(w, k, gen.id, x); }
  }

  /** What an event behind the generation does not disturb. */
  lemma FillingSchedules(w: World, k: nat, gen: Due, e: Event, at: real)
    requires Filling(w, k, gen) && gen.id < w.nextId
    requires var x := EventQueues.Timed(at, w.nextId, e);
      EarlyEvent(w, k, gen.id, x) && Waves(w.site, w.now, gen.id, EventQueues.Scheduled(w.pending, x))
    ensures Filling(ScheduledAt(w, e, at), k, gen)
  {
    var w1 := ScheduledAt(w, e, at);
    forall x | x in w1.pending ensures EarlyEvent(w1, k, gen.id, x) {
      if x in w.pending { assert EarlyEvent(w, k, gen.id, x); }
    }
  }

  lemma FillingTimer(w: World, k: nat, gen: Due, e: Event, at: real)
    requires Filling(w, k, gen) && gen.id < w.nextId && (e.Timeout? || e.DelayedAck?) && at > w.now
    ensures Filling(ScheduledAt(w, e, at), k, gen)
  {
    WavesTimer(w.site, w.now, gen.id, w.pending, EventQueues.Timed(at, w.nextId, e));
    FillingSchedules(w, k, gen, e, at);
  }

  /** What the packet at the head leaves behind. */
  lemma FillingHeir(w: World, k: nat, gen: Due, w1: World, k1: nat, e: Event, at: real)
    requires Front(w, k, gen) && Filling(w1, k1, gen)
    requires w1.pending == w.pending[1..] && w1.now == w.now && w1.site == w.site && w1.nextId == w.nextId
    requires var x := EventQueues.Timed(at, w.nextId, e);
      Heir(w.site, w.now, w.pending[0], x) && EarlyEvent(w1, k1, gen.id, x)
    ensures Filling(ScheduledAt(w1, e, at), k1, gen)
  {
    FrontFacts(w, k, gen);
    WavesHeir(w.site, w.now, gen.id, w.pending, EventQueues.Timed(at, w.nextId, e));
    FillingSchedules(w1, k1, gen, e, at);
  }

  lemma FillingForwards(w: World, k: nat, gen: Due, p: Packet, o: Offer)
    requires Front(w, k, gen) && w.pending[0].event == Arrival(p) && p.at != Home(w.site, p.toServer)
    ensures Filling(Sent(Popped(w), p, o), k, gen)
  {
    FrontFacts(w, k, gen);
    var w1 := Popped(w);
    if Taken(w1, p, o) {
      ForwardRank(w.site, p);
      var e := Arrival(p.(at := NextNode(w.site, p)));
      assert EarlyEvent(w1, k, gen.id, w.pending[0]);
      assert EarlyEvent(w1, k, gen.id, EventQueues.Timed(o.arrival, w.nextId, e));
      FillingHeir(w, k, gen, w1, k, e, o.arrival);
    }
  }

  // ---- the traffic: an acknowledgement ----

  /** The acknowledgement at the head is the only one to reach the client before the next generation. */
  lemma LastReply(w: World, k: nat, gen: Due)
    requires Front(w, k, gen) && AtClient(w.site, w.pending[0].event)
    ensures w.client.detector.duplicates == 0
    ensures forall x :: x in w.pending[1..] && x.time == w.now && x.id < gen.id ==> !AtClient(w.site, x.event)
  {
    FrontFacts(w, k, gen);
    HeadOnce(w.pending);
    assert w.pending[0] in w.pending;
    forall x | x in w.pending[1..] && x.time == w.now && x.id < gen.id ensures !AtClient(w.site, x.event) {
      if IsReply(x.event) { OneReply(w.site, w.now, gen.id, w.pending, w.pending[0], x); }
    }
  }

  /** One acknowledgement sets off no fast retransmission. */
  lemma OneDuplicate(ep: Endpoint, ack: u32, now: real)
    requires ep.detector.duplicates == 0
    ensures Acknowledging(ep, ack, now).ep.detector.duplicates <= 1
    ensures !SB.ShouldFastRetransmit(Acknowledging(ep, ack, now).ep.detector)
  {
  }

  lemma FillingClient(w: World, k: nat, gen: Due, client: Endpoint)
    requires Filling(w, k, gen) && client.detector.duplicates <= 1
    requires forall x :: x in w.pending && x.time == w.now && x.id < gen.id ==> !AtClient(w.site, x.event)
    ensures Filling(w.(client := client), k, gen)
  {
    var w1 := w.(client := client);
    forall x | x in w1.pending ensures EarlyEvent(w1, k, gen.id, x) { assert EarlyEvent(w, k, gen.id, x); }
  }

  lemma FillingRearmed(w: World, k: nat, gen: Due, advanced: bool)
    requires Filling(w, k, gen) && gen.id < w.nextId && SessionClock.Sane(w.client.timer)
    ensures Filling(Rearmed(w, false, advanced), k, gen)
  {
    SessionClock.TimerTakesTime(w.client);
    if advanced && Oldest(w.client).Some? { FillingTimer(w, k, gen, Timeout(Oldest(w.client).value), w.now + Rto(w.client)); }
  }

  lemma FillingAcked(w: World, k: nat, gen: Due, p: Packet)
    requires Front(w, k, gen) && w.pending[0].event == Arrival(p) && AtClient(w.site, Arrival(p))
    ensures Filling(OnAck(Popped(w), p), k, gen)
  {
    FrontFacts(w, k, gen);
    LastReply(w, k, gen);
    var w1 := Popped(w);
    var out := Acknowledging(w1.client, p.ack, w1.now);
    OneDuplicate(w1.client, p.ack, w1.now);
    SessionClock.AcknowledgingSane(w1.client, p.ack, w1.now);
    var w2 := w1.(client := out.ep);
    FillingClient(w1, k, gen, out.ep);
    FillingRearmed(w2, k, gen, out.ok);
    assert OnAck(w1, p) == Rearmed(w2, false, out.ok);
  }

  // ---- the traffic: a segment at the server ----

  /** The server takes a segment in; what else is under way is still there for the first time. */
  lemma TakenLoose(w: World, k: nat, gen: Due, p: Packet) returns (k': nat)
    requires OpenAt(w, k) && Filling(w, k, gen) && OnItsWay(w, k, p)
    requires forall x :: x in w.pending && IsData(x.event) ==> x.event.packet.seqNo != p.seqNo
    ensures Filling(DataTaken(w, p), k', gen)
  {
    var b, s := w.server.receiveBuffer, RB.Segment(p.seqNo, p.payload);
    k' := k;
    if ReceiveData(w.server, p.seqNo, p.payload).ok {
      var pushed := RB.Pushed(b, s);
      PushedFrom(w.stream, b, s, k);
      RB.PushKeepsValid(b, s);
      k' := DrainTakes(w.stream, pushed, k);
      var w1 := DataTaken(w, p);
      forall x | x in w1.pending ensures EarlyEvent(w1, k', gen.id, x) {
        assert EarlyEvent(w, k, gen.id, x);
        if IsData(x.event) { StaysOnItsWay(w, k, p, x.event.packet, k'); }
      }
    }
  }

  /** A segment not stored is neither drained nor stored by the arrival of another. */
  lemma StaysOnItsWay(w: World, k: nat, p: Packet, other: Packet, k': nat)
    requires OnItsWay(w, k, other) && other.seqNo != p.seqNo
    requires PieceFrom(w.stream, p.seqNo, p.payload, k) && StoredFrom(w.stream, w.server.receiveBuffer.entries, k)
    requires ReceiveData(w.server, p.seqNo, p.payload).ok
    requires var pushed := RB.Pushed(w.server.receiveBuffer, RB.Segment(p.seqNo, p.payload));
      && (forall s :: s in RB.Drained(pushed).entries ==> s in pushed.entries)
      && k' <= |w.stream.pieces| && forall i: nat :: k <= i < k' ==> RB.Stores(pushed.entries, Word(w.stream, i))
    ensures OnItsWay(DataTaken(w, p), k', other)
  {
    var pushed := RB.Pushed(w.server.receiveBuffer, RB.Segment(p.seqNo, p.payload));
    var drained := RB.Drained(pushed).entries;
    PushedFrom(w.stream, w.server.receiveBuffer, RB.Segment(p.seqNo, p.payload), k);
    var i: nat :| IsPiece(w.stream, other.seqNo, other.payload, i) && i >= k;
    assert i >= k';
    forall m | 0 <= m < |drained| ensures drained[m].seqNo != other.seqNo { assert drained[m] in drained; }
  }

  /** The acknowledgement a segment sets off is its heir. */
  lemma ReplyIsHeir(w: World, x: Due, ack: Packet, o: Offer, id: nat)
    requires IsData(x.event) && x.event.packet.at == Home(w.site, true) && x.time == w.now
    requires ack.kind.ACK? && !ack.toServer && ack.at == w.site.server && Taken(w, ack, o)
    ensures Heir(w.site, w.now, x, EventQueues.Timed(o.arrival, id, Arrival(ack.(at := NextNode(w.site, ack)))))
  {
    HomeRank(w.site, x.event.packet);
  }

  lemma FillingServer(w: World, k: nat, gen: Due, delayed: bool)
    requires Filling(w, k, gen)
    ensures Filling(w.(server := w.server.(delayedAck := delayed)), k, gen)
  {
    var w1 := w.(server := w.server.(delayedAck := delayed));
    forall x | x in w1.pending ensures EarlyEvent(w1, k, gen.id, x) { assert EarlyEvent(w, k, gen.id, x); }
  }

  /** Only a segment at the head changes the server and the client's history before it reacts. */
  ghost predicate Reacting(w: World, k: nat, gen: Due, w1: World, k1: nat)
  {
    && Front(w, k, gen) && Filling(w1, k1, gen)
    && w1.pending == w.pending[1..] && w1.now == w.now && w1.site == w.site && w1.nextId == w.nextId
    && IsData(w.pending[0].event) && w.pending[0].event.packet.at == w.site.server
  }

  lemma FillingReplies(w: World, k: nat, gen: Due, w1: World, k1: nat, ack: Packet, o: Offer)
    requires Reacting(w, k, gen, w1, k1) && ack.kind.ACK? && !ack.toServer && ack.at == w.site.server
    ensures Filling(Sent(w1, ack, o), k1, gen)
  {
    FrontFacts(w, k, gen);
    if Taken(w1, ack, o) {
      ReplyIsHeir(w, w.pending[0], ack, o, w.nextId);
      FillingHeir(w, k, gen, w1, k1, Arrival(ack.(at := NextNode(w.site, ack))), o.arrival);
    }
  }

  lemma FillingReacts(w: World, k: nat, gen: Due, w1: World, k1: nat, inOrder: bool, c: Choice)
    requires Reacting(w, k, gen, w1, k1)
    ensures Filling(DataReactions(w1, true, inOrder, c), k1, gen)
  {
    if !inOrder || w1.server.delayedAck {
      FillingServer(w1, k1, gen, false);
      var ack := PlainPacket(w1.site, ACK, false, w1.server);
      FillingReplies(w, k, gen, w1.(server := w1.server.(delayedAck := false)), k1, ack, c.offer);
    } else {
      FillingServer(w1, k1, gen, true);
      FillingDelays(w, k, gen, w1.(server := w1.server.(delayedAck := true)), k1);
    }
  }

  lemma FillingDelays(w: World, k: nat, gen: Due, w1: World, k1: nat)
    requires Reacting(w, k, gen, w1, k1)
    ensures Filling(Scheduled(w1, DelayedAck(true, w1.server.expectedAck), ACK_DELAY), k1, gen)
  {
    FillingTimer(w1, k1, gen, DelayedAck(true, w1.server.expectedAck), w1.now + ACK_DELAY);
  }

  lemma FillingData(w: World, k: nat, gen: Due, p: Packet, c: Choice) returns (k': nat)
    requires Front(w, k, gen) && w.pending[0].event == Arrival(p) && p.kind.DATA? && p.at == Home(w.site, p.toServer)
    ensures Filling(OnData(Popped(w), p, c), k', gen)
  {
    FrontFacts(w, k, gen);
    var w1 := Popped(w);
    HeadOnce(w.pending);
    forall x | x in w1.pending && IsData(x.event) ensures x.event.packet.seqNo != p.seqNo {
      assert Apart(w.site, w.now, gen.id, w.pending[0], x);
    }
    k' := TakenLoose(w1, k, gen, p);
    if ReceiveData(w1.server, p.seqNo, p.payload).ok {
      FillingReacts(w, k, gen, DataTaken(w1, p), k', p.seqNo == w1.server.expectedAck, c);
    }
  }

  lemma FrontStep(w: World, k: nat, gen: Due, c: Choice) returns (k': nat)
    requires Front(w, k, gen) && Enabled(w, c)
    ensures Filling(Step(w, c), k', gen)
  {
    FrontFacts(w, k, gen);
    k' := k;
    var w1, e := Popped(w), w.pending[0].event;
    if e.Arrival? {
      var p := e.packet;
      PoppedOpen(w, k);
      if p.at != Home(w.site, p.toServer) { FillingForwards(w, k, gen, p, c.offer); }
      else {
        OpenIdleEvents(w1, k, p, c);
        if p.kind.ACK? { FillingAcked(w, k, gen, p); }
        if p.kind.DATA? { k' := FillingData(w, k, gen, p, c); }
      }
    }
  }

  // ---- the traffic: a generation ----

  lemma LooseSettles(w: World, k: nat, gid: nat)
    requires OpenAt(w, k) && Loose(w, k, gid) && w.trafficGenerated && forall x :: x in w.pending ==> !x.event.Generate?
    ensures Settled(w, Una(w))
  {
    var lo := Una(w);
    forall s | s in w.server.receiveBuffer.entries ensures PieceFrom(w.stream, s.seqNo, s.payload, lo) {
      assert PieceFrom(w.stream, s.seqNo, s.payload, k);
    }
    forall x | x in w.pending ensures SettledEvent(w.stream, lo, x.event) {
      assert EarlyEvent(w, k, gid, x);
      if x.event.Arrival? && x.event.packet.kind.DATA? {
        assert PieceFrom(w.stream, x.event.packet.seqNo, x.event.packet.payload, k);
      }
    }
  }

  /** With the generation at the head taken off, no other is left and everything else of this instant is younger. */
  lemma GenerationPopped(w: World, k: nat, gen: Due)
    requires OpenAt(w, k) && SessionClock.OnTime(w) && Filling(w, k, gen) && w.pending[0] == gen
    ensures var w1 := Popped(w);
      && w1.now == w.now && OpenAt(w1, k) && SessionClock.OnTime(w1) && Loose(w1, k, gen.id)
      && forall x :: x in w1.pending ==> !x.event.Generate? && x.id < w.nextId && (x.time == w.now ==> gen.id < x.id)
  {
    HeadOnce(w.pending);
    PoppedOpen(w, k);
    SessionClock.PoppedAhead(w);
    WavesPopped(w.site, w.now, gen.id, w.pending);
    var w1 := Popped(w);
    forall x | x in w1.pending ensures EarlyEvent(w1, k, gen.id, x) && !x.event.Generate? {
      assert EarlyEvent(w, k, gen.id, x) && EventQueues.Earlier(gen, x);
    }
  }

  lemma FromGrown(p: Partition, piece: seq<byte>, seqNo: u32, payload: seq<byte>, lo: nat)
    requires PieceFrom(p, seqNo, payload, lo)
    ensures PieceFrom(Grown(p, piece), seqNo, payload, lo)
  {
    var i: nat :| IsPiece(p, seqNo, payload, i) && i >= lo;
    PieceGrown(p, piece, seqNo, payload, i);
  }

  /** The next turn, with the segment queued and not yet sent. */
  lemma LooseQueued(w: World, k: nat, gid: nat, next: nat, payload: seq<byte>)
    requires OpenAt(w, k) && payload != [] && CanSend(w.client, |payload|) && w.sent < w.total && Loose(w, k, gid)
    requires forall x :: x in w.pending ==> !x.event.Generate? && x.id < next && (x.time == w.now ==> gid < x.id)
    ensures Loose(Queued(w, payload), k, next)
    ensures forall x :: x in w.pending && Live(w.site, w.now, x) ==> Turn(w.site, next, x) < TopRank(w.site) - 1
  {
    var w1 := Queued(w, payload);
    QueuedClient(w.client, payload, w.now);
    WordGrown(w.stream, payload, k);
    WavesTurn(w.site, w.now, gid, next, w.pending);
    forall s | s in w1.server.receiveBuffer.entries ensures PieceFrom(w1.stream, s.seqNo, s.payload, k) {
      FromGrown(w.stream, payload, s.seqNo, s.payload, k);
    }
    forall x | x in w1.pending ensures EarlyEvent(w1, k, next, x) {
      assert EarlyEvent(w, k, gid, x);
      if IsData(x.event) { FromGrown(w.stream, payload, x.event.packet.seqNo, x.event.packet.payload, k); }
    }
  }

  /** The number of a new segment is not that of any stored or under way. */
  lemma NumberIsNew(w: World, k: nat, gid: nat)
    requires OpenAt(w, k) && Loose(w, k, gid)
    ensures !RB.Stores(w.server.receiveBuffer.entries, w.client.seqNum)
    ensures forall x :: x in w.pending && IsData(x.event) ==> x.event.packet.seqNo != w.client.seqNum
  {
    var p, entries := w.stream, w.server.receiveBuffer.entries;
    forall m | 0 <= m < |entries| ensures entries[m].seqNo != w.client.seqNum {
      assert entries[m] in entries;
      var i: nat :| IsPiece(p, entries[m].seqNo, entries[m].payload, i) && i >= k;
      WordsDiffer(p, i, |p.pieces|);
    }
    forall x | x in w.pending && IsData(x.event) ensures x.event.packet.seqNo != w.client.seqNum {
      assert EarlyEvent(w, k, gid, x);
      var i: nat :| IsPiece(p, x.event.packet.seqNo, x.event.packet.payload, i) && i >= k;
      WordsDiffer(p, i, |p.pieces|);
    }
  }

  lemma LooseSchedules(w: World, k: nat, gid: nat, e: Event, at: real)
    requires Loose(w, k, gid)
    requires var x := EventQueues.Timed(at, w.nextId, e);
      EarlyEvent(w, k, gid, x) && Waves(w.site, w.now, gid, EventQueues.Scheduled(w.pending, x))
    ensures Loose(ScheduledAt(w, e, at), k, gid)
  {
    var w1 := ScheduledAt(w, e, at);
    forall x | x in w1.pending ensures EarlyEvent(w1, k, gid, x) {
      if x in w.pending { assert EarlyEvent(w, k, gid, x); }
    }
  }

  lemma LooseTimer(w: World, k: nat, gid: nat, e: Event, at: real)
    requires Loose(w, k, gid) && ((e.Timeout? && at > w.now) || (e.Generate? && w.nextId == gid && at == w.now))
    ensures Loose(ScheduledAt(w, e, at), k, gid)
  {
    WavesTimer(w.site, w.now, gid, w.pending, EventQueues.Timed(at, w.nextId, e));
    LooseSchedules(w, k, gid, e, at);
  }

  /** The new segment on its way. */
  lemma LooseSends(w: World, k: nat, gid: nat, packet: Packet, o: Offer)
    requires Loose(w, k, gid) && packet.kind.DATA? && packet.toServer && packet.at == w.site.client && w.nextId < gid
    requires OnItsWay(w, k, packet) && Taken(w, packet, o)
    requires forall x :: x in w.pending && IsData(x.event) ==> x.event.packet.seqNo != packet.seqNo
    requires forall x :: x in w.pending && Live(w.site, w.now, x) ==> Turn(w.site, gid, x) < TopRank(w.site) - 1
    ensures Loose(Sent(w, packet, o), k, gid)
  {
    var e := Arrival(packet.(at := NextNode(w.site, packet)));
    WavesFresh(w.site, w.now, gid, w.pending, EventQueues.Timed(o.arrival, w.nextId, e));
    LooseSchedules(w, k, gid, e, o.arrival);
  }

  /** Queued and sent. */
  lemma LooseGenerated(w: World, k: nat, gid: nat, next: nat, c: Choice)
    requires OpenAt(w, k) && c.payload != [] && CanSend(w.client, |c.payload|) && w.sent < w.total && Loose(w, k, gid)
    requires forall x :: x in w.pending ==> !x.event.Generate? && x.id < next && (x.time == w.now ==> gid < x.id)
    requires w.nextId < next
    requires var packet := DataPacket(w.site, w.client.seqNum, w.client.expectedAck, c.payload); Taken(w, packet, c.offer)
    ensures var packet := DataPacket(w.site, w.client.seqNum, w.client.expectedAck, c.payload);
      && OpenAt(Sent(Queued(w, c.payload), packet, c.offer), k) && Loose(Sent(Queued(w, c.payload), packet, c.offer), k, next)
      && forall x :: x in Sent(Queued(w, c.payload), packet, c.offer).pending ==> !x.event.Generate?
  {
    var packet := DataPacket(w.site, w.client.seqNum, w.client.expectedAck, c.payload);
    var w1 := Queued(w, c.payload);
    NumberIsNew(w, k, gid);
    OpenQueued(w, k, c.payload);
    LooseQueued(w, k, gid, next, c.payload);
    assert IsPiece(w1.stream, packet.seqNo, packet.payload, |w.stream.pieces|);
    LooseSends(w1, k, next, packet, c.offer);
    OpenSends(w1, k, packet, c.offer);
  }

  ghost predicate FillingOrSettled(w: World, k: nat)
  {
    (exists gen: Due :: Filling(w, k, gen)) || exists lo: nat :: Settled(w, lo)
  }

  /** The timer of the first outstanding segment, and the next generation or the end of it. */
  lemma GoesOn(w: World, k: nat, next: nat, seqNo: u32, first: bool)
    requires OpenAt(w, k) && Loose(w, k, next) && next == w.nextId + (if first then 1 else 0)
    requires SessionClock.Sane(w.client.timer) && w.client.detector.duplicates == 0 && w.trafficGenerated
    requires forall x :: x in w.pending ==> !x.event.Generate?
    ensures FillingOrSettled(Continued(w, seqNo, first), k)
  {
    var w1 := w;
    if first {
      SessionClock.TimerTakesTime(w.client);
      LooseTimer(w, k, next, Timeout(seqNo), w.now + Rto(w.client));
      OpenSchedules(w, k, Timeout(seqNo), w.now + Rto(w.client));
      w1 := Scheduled(w, Timeout(seqNo), Rto(w.client));
    }
    if w1.sent != w1.total { Regenerates(w1, k, next); }
    else { LooseSettles(w1, k, next); }
  }

  lemma Regenerates(w: World, k: nat, next: nat)
    requires Loose(w, k, next) && next == w.nextId && w.client.detector.duplicates == 0 && w.trafficGenerated && w.sent != w.total
    ensures Filling(Scheduled(w, Generate, 0.0), k, EventQueues.Timed(w.now + 0.0, next, Generate))
  {
    LooseTimer(w, k, next, Generate, w.now + 0.0);
  }

  lemma Generates(w: World, k: nat, gen: Due, c: Choice)
    requires OpenAt(w, k) && SessionClock.OnTime(w) && Filling(w, k, gen) && w.pending[0] == gen && Enabled(w, c)
    ensures FillingOrSettled(Step(w, c), k)
  {
    GenerationPopped(w, k, gen);
    var w1 := Popped(w);
    var packet := DataPacket(w1.site, w1.client.seqNum, w1.client.expectedAck, c.payload);
    LooseSettles(w1, k, gen.id);
    if BothEstablished(w1) && CanSend(w1.client, |c.payload|) && Taken(w1, packet, c.offer) {
      var first := w1.client.sendBuffer == [];
      var next := w.nextId + 1 + if first then 1 else 0;
      var w2 := Sent(Queued(w1, c.payload), packet, c.offer);
      QueuedClient(w1.client, c.payload, w1.now);
      LooseGenerated(w1, k, gen.id, next, c);
      SendThenQueue(w1, packet, c.offer, c.payload);
      SentCounts(w1, packet, c);
      GoesOn(w2, k, next, w1.client.seqNum, first);
      assert Step(w, c) == Continued(w2, w1.client.seqNum, first);
    }
  }

  /** A new segment restarts the count of duplicates and leaves the timer alone. */
  lemma SentCounts(w: World, packet: Packet, c: Choice)
    requires c.payload != [] && CanSend(w.client, |c.payload|) && Taken(w, packet, c.offer)
    ensures var w' := Sent(Queued(w, c.payload), packet, c.offer);
      && w'.client.detector.duplicates == 0 && w'.client.timer == w.client.timer
      && w'.trafficGenerated == w.trafficGenerated && w'.nextId == w.nextId + 1
  {
  }

  lemma FillingStep(w: World, k: nat, gen: Due, c: Choice) returns (k': nat)
    requires OpenAt(w, k) && SessionClock.OnTime(w) && Filling(w, k, gen) && Enabled(w, c)
    ensures FillingOrSettled(Step(w, c), k')
  {
    k' := k;
    if w.pending[0] == gen { Generates(w, k, gen, c); }
    else { k' := FrontStep(w, k, gen, c); }
  }
}
