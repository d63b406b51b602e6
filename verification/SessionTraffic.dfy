/**
  Who keeps the traffic going. Only a successful generation schedules the next one, and only complete traffic is
  closed; so the first segment refused, by the window or by the network, ends a session's traffic for good, and the
  connection is never closed.
 */
module SessionTraffic {
  import opened Common
  import Word32
  import opened Connection
  import opened Session
  import SessionClock
  import EventQueues
  import TS = TcpState
  import SB = SendBuffer
  import CC = CongestionControl

  /** Beside the generation itself, no event touches the traffic or schedules a generation. */
  ghost predicate SameTraffic(w: World, w': World)
  {
    && w'.sent == w.sent && w'.total == w.total
    && w'.trafficGenerated == w.trafficGenerated && w'.closeRequested == w.closeRequested
    && forall x :: x in w'.pending && x.event.Generate? ==> x in w.pending
  }

  lemma SameSends(w: World, p: Packet, o: Offer)
    ensures SameTraffic(w, Sent(w, p, o))
  {
  }

  lemma SameSchedules(w: World, e: Event, at: real)
    requires !e.Generate?
    ensures SameTraffic(w, ScheduledAt(w, e, at))
  {
  }

  lemma SameThen(w: World, w1: World, w2: World)
    requires SameTraffic(w, w1) && SameTraffic(w1, w2)
    ensures SameTraffic(w, w2)
  {
  }

  lemma SameSynSent(w: World, c: Choice)
    ensures SameTraffic(w, SynSent(w, c))
  {
    var syn := SynPacket(w.site, w.client);
    SameSends(w, syn, c.offer);
    SameSchedules(Sent(w, syn, c.offer), HandshakeTimeout, w.now + SYN_TIMEOUT);
  }

  lemma SameHandshake(w: World, c: Choice)
    ensures SameTraffic(w, OnHandshake(w, c)) && SameTraffic(w, OnHandshakeTimeout(w, c))
  {
    SameSynSent(w.(client := SendSyn(w.client, c.isn).ep), c);
    SameSynSent(Retried(w), c);
  }

  lemma SameSyn(w: World, p: Packet, c: Choice)
    ensures SameTraffic(w, OnSyn(w, p, c))
  {
    var ep := ReceiveSyn(Session.End(w, p.toServer), p.seqNo).ep;
    SameSends(WithEnd(w, p.toServer, ep), PlainPacket(w.site, SYN_ACK, !p.toServer, ep), c.offer);
  }

  lemma SameSynAck(w: World, p: Packet, c: Choice)
    ensures SameTraffic(w, OnSynAck(w, p, c))
  {
    var ep := ReceiveSynAck(w.client, p.seqNo, p.ack).ep;
    SameSends(w.(client := ep, stream := OnSynAck(w, p, c).stream), PlainPacket(w.site, ACK, true, ep), c.offer);
  }

  lemma SameReactions(w: World, toServer: bool, advanced: bool)
    ensures SameTraffic(w, AckReactions(w, toServer, advanced))
  {
    var ep, w1 := Session.End(w, toServer), Rearmed(w, toServer, advanced);
    if advanced && Oldest(ep).Some? { SameSchedules(w, Timeout(Oldest(ep).value), w.now + Rto(ep)); }
    var reset := WithEnd(w1, toServer, DetectionReset(Session.End(w1, toServer)));
    SameSchedules(reset, FastRetransmission, w1.now + 0.0);
  }

  lemma SameDataReactions(w: World, toServer: bool, inOrder: bool, c: Choice)
    ensures SameTraffic(w, DataReactions(w, toServer, inOrder, c))
  {
    var ep := Session.End(w, toServer);
    SameSends(WithEnd(w, toServer, ep.(delayedAck := false)), PlainPacket(w.site, ACK, !toServer, ep), c.offer);
    SameSchedules(WithEnd(w, toServer, ep.(delayedAck := true)), DelayedAck(toServer, ep.expectedAck), w.now + ACK_DELAY);
  }

  lemma SameData(w: World, p: Packet, c: Choice)
    ensures SameTraffic(w, OnData(w, p, c))
  {
    assert SameTraffic(w, DataTaken(w, p));
    SameDataReactions(DataTaken(w, p), p.toServer, p.seqNo == Session.End(w, p.toServer).expectedAck, c);
  }

  lemma SameFin(w: World, p: Packet, c: Choice)
    ensures SameTraffic(w, OnFin(w, p, c))
  {
    var out := ReceiveFin(Session.End(w, p.toServer), p.seqNo);
    var w1 := WithEnd(w, p.toServer, out.ep);
    var w2 := LastTimer(w1);
    var w3 := FinAcked(w1, p.toServer, c);
    SameSchedules(w1, TimeWaitTimeout, w1.now + TIME_WAIT_DELAY);
    SameSends(w2, PlainPacket(w2.site, ACK, !p.toServer, Session.End(w1, p.toServer)), c.offer);
    var fin := SendFin(Session.End(w3, p.toServer)).ep;
    SameSends(WithEnd(w3, p.toServer, fin), PlainPacket(w3.site, FIN, !p.toServer, fin), c.offer2);
  }

  lemma SameResent(w: World, seqNo: Word32.u32, c: Choice)
    ensures SameTraffic(w, Resent(w, seqNo, c))
  {
    var i := SB.Find(w.client.sendBuffer, seqNo);
    if i < |w.client.sendBuffer| {
      var e := w.client.sendBuffer[i];
      var w1 := w.(client := MarkRetransmitted(w.client, seqNo, w.now), log := w.log + [Transmission(seqNo, w.now)]);
      var packet := DataPacket(w.site, seqNo, e.ack, e.payload);
      SameSends(w1, packet, c.offer);
      SameSchedules(Sent(w1, packet, c.offer), Timeout(seqNo), w1.now + Rto(w1.client));
    }
  }

  lemma SameDelayedAck(w: World, atServer: bool, number: Word32.u32, c: Choice)
    ensures SameTraffic(w, OnDelayedAck(w, atServer, number, c))
  {
    SameSends(WithEnd(w, atServer, Session.End(w, atServer).(delayedAck := false)),
              PlainPacket(w.site, ACK, !atServer, Session.End(w, atServer)), c.offer);
  }

  lemma SameClose(w: World, c: Choice)
    ensures SameTraffic(w, OnClose(w, c))
  {
    var fin := SendFin(w.client).ep;
    SameSends(w.(client := fin), PlainPacket(w.site, FIN, true, fin), c.offer);
  }

  lemma SameTimers(w: World, e: Event, c: Choice)
    requires !e.Arrival? && !e.Generate?
    ensures SameTraffic(w, Execute(w, e, c))
  {
    match e
    case Handshake => SameHandshake(w, c);
    case HandshakeTimeout => SameHandshake(w, c);
    case DelayedAck(atServer, number) => SameDelayedAck(w, atServer, number, c);
    case Timeout(seqNo) => SameSchedules(w.(client := SendTimeout(w.client)), Retransmission(seqNo), w.now + 0.0);
    case Retransmission(seqNo) => SameResent(w, seqNo, c);
    case FastRetransmission =>
      if w.client.sendBuffer != [] {
        var client := w.client.(congestion := CC.OnFastRetransmit(w.client.congestion, FlightSize(w.client)));
        SameResent(w.(client := client), w.client.sendBuffer[0].seqNo, c);
      }
    case Close => SameClose(w, c);
    case TimeWaitTimeout =>
  }

  // ---- what every run keeps ----

  /** A generation is scheduled while, and only while, there is more to send; traffic is closed when complete. */
  ghost predicate Going(w: World)
  {
    && (!w.trafficGenerated ==> w.sent == 0 && !w.closeRequested && forall x :: x in w.pending ==> !x.event.Generate?)
    && (forall x :: x in w.pending && x.event.Generate? ==> w.sent != w.total && !w.closeRequested)
    && forall x, y :: x in w.pending && y in w.pending && x.event.Generate? && y.event.Generate? ==> x == y
  }

  /** The traffic has started, is not complete, and nothing is left that could continue it. */
  ghost predicate Stuck(w: World)
  {
    w.trafficGenerated && w.sent != w.total && !w.closeRequested && forall x :: x in w.pending ==> !x.event.Generate?
  }

  lemma SameKeepsGoing(w: World, w': World)
    requires SameTraffic(w, w')
    ensures Going(w) ==> Going(w')
    ensures Stuck(w) ==> Stuck(w')
  {
  }

  lemma AdvancedKeepsGoing(w: World)
    ensures Going(w) ==> Going(Advanced(w))
    ensures Stuck(w) ==> Advanced(w) == w
  {
    if Going(w) && BothEstablished(w) {
      if w.trafficGenerated {
        SameSchedules(w.(closeRequested := true), Close, w.now + 0.0);
      } else {
        var w1 := w.(total := PACKETS_PER_ROUTE, trafficGenerated := true);
        assert Advanced(w) == Scheduled(w1, Generate, 0.0);
      }
    }
  }

  lemma AckKeepsGoing(w: World, p: Packet)
    ensures Going(w) ==> Going(OnAck(w, p))
    ensures Stuck(w) ==> Stuck(OnAck(w, p)) && OnAck(w, p).sent == w.sent
  {
    var out := Acknowledging(Session.End(w, p.toServer), p.ack, w.now);
    var w1 := WithEnd(w, p.toServer, out.ep);
    var w2 := AckReactions(w1, p.toServer, out.ok);
    SameReactions(w1, p.toServer, out.ok);
    SameThen(w, w1, w2);
    SameKeepsGoing(w, w2);
    AdvancedKeepsGoing(w2);
  }

  lemma SameArrival(w: World, p: Packet, c: Choice)
    requires p.at != Home(w.site, p.toServer) || !p.kind.ACK?
    ensures SameTraffic(w, OnArrival(w, p, c))
  {
    if p.at != Home(w.site, p.toServer) { SameSends(w, p, c.offer); }
    else {
      match p.kind {
        case SYN => SameSyn(w, p, c);
        case SYN_ACK => SameSynAck(w, p, c);
        case DATA => SameData(w, p, c);
        case FIN => SameFin(w, p, c);
        case RST =>
      }
    }
  }

  lemma ArrivalKeepsGoing(w: World, p: Packet, c: Choice)
    ensures Going(w) ==> Going(OnArrival(w, p, c))
    ensures Stuck(w) ==> Stuck(OnArrival(w, p, c)) && OnArrival(w, p, c).sent == w.sent
  {
    if p.at != Home(w.site, p.toServer) || !p.kind.ACK? {
      SameArrival(w, p, c);
      SameKeepsGoing(w, OnArrival(w, p, c));
    } else {
      AckKeepsGoing(w, p);
    }
  }

  /** What the generation needs to go on: an open connection, room in the window, and a link that takes the segment. */
  predicate Generating(w: World, c: Choice)
  {
    && BothEstablished(w) && CanSend(w.client, |c.payload|)
    && Taken(w, DataPacket(w.site, w.client.seqNum, w.client.expectedAck, c.payload), c.offer)
  }

  lemma ContinuedTraffic(w: World, seqNo: Word32.u32, first: bool)
    ensures var w' := Continued(w, seqNo, first);
      && w'.sent == w.sent && w'.total == w.total && w'.trafficGenerated == w.trafficGenerated
      && w'.closeRequested == w.closeRequested
      && forall x :: x in w'.pending && x.event.Generate? ==>
           x in w.pending || (w.sent != w.total && x == EventQueues.Timed(w.now + 0.0, w'.nextId - 1, Generate))
  {
    if first { SameSchedules(w, Timeout(seqNo), w.now + Rto(w.client)); }
  }

  lemma GenerateKeepsGoing(w: World, c: Choice)
    requires c.payload != [] && w.trafficGenerated && w.sent != w.total && !w.closeRequested
    requires forall x :: x in w.pending ==> !x.event.Generate?
    ensures Going(OnGenerate(w, c))
    ensures if Generating(w, c) then OnGenerate(w, c).sent == w.sent + 1 else Stuck(OnGenerate(w, c)) && OnGenerate(w, c).sent == w.sent
  {
    if Generating(w, c) {
      var packet := DataPacket(w.site, w.client.seqNum, w.client.expectedAck, c.payload);
      assert QueueSent(w.client, w.client.seqNum, w.client.expectedAck, c.payload, w.now).ok;
      SameSends(w, packet, c.offer);
      ContinuedTraffic(Queued(Sent(w, packet, c.offer), c.payload), w.client.seqNum, w.client.sendBuffer == []);
    }
  }

  lemma PoppedGoing(w: World)
    requires SessionClock.OnTime(w) && w.pending != []
    ensures SameTraffic(w, Popped(w))
    ensures Going(w) ==> Going(Popped(w))
    ensures Stuck(w) ==> Stuck(Popped(w)) && !w.pending[0].event.Generate?
    ensures Going(w) && w.pending[0].event.Generate? ==> Stuck(Popped(w))
  {
    var rest := w.pending[1..];
    assert w.pending[0] in w.pending;
    forall x | x in rest ensures x in w.pending && x != w.pending[0] {
      var i :| 0 <= i < |rest| && rest[i] == x;
      assert w.pending[i + 1] == x && EventQueues.Earlier(w.pending[0], w.pending[i + 1]);
    }
    SameKeepsGoing(w, Popped(w));
  }

  lemma StepKeepsGoing(w: World, c: Choice)
    requires SessionClock.OnTime(w)
    ensures Going(w) ==> Going(Step(w, c))
    ensures Stuck(w) ==> Stuck(Step(w, c)) && Step(w, c).sent == w.sent
  {
    if Enabled(w, c) {
      PoppedGoing(w);
      var w1, e := Popped(w), w.pending[0].event;
      if e.Arrival? { ArrivalKeepsGoing(w1, e.packet, c); }
      else if e.Generate? {
        if Going(w) { GenerateKeepsGoing(w1, c); }
      } else {
        SameTimers(w1, e, c);
        SameKeepsGoing(w1, Step(w, c));
      }
    }
  }

  lemma {:induction false} RunKeepsGoing(site: Site, serverState: TS.State, choices: seq<Choice>)
    ensures Going(Run(Session.Start(site, serverState), choices))
  {
    if choices != [] {
      RunKeepsGoing(site, serverState, choices[..|choices| - 1]);
      SessionClock.RunOnTime(site, serverState, choices[..|choices| - 1]);
      StepKeepsGoing(Run(Session.Start(site, serverState), choices[..|choices| - 1]), choices[|choices| - 1]);
    }
  }

  lemma StepOnTime(w: World, c: Choice)
    requires SessionClock.OnTime(w)
    ensures SessionClock.OnTime(Step(w, c))
  {
    if Enabled(w, c) { SessionClock.FiredAhead(w, c); }
  }

  lemma {:induction false} StaysStuck(w: World, rest: seq<Choice>)
    requires SessionClock.OnTime(w) && Stuck(w)
    ensures var w' := Run(w, rest); SessionClock.OnTime(w') && Stuck(w') && w'.sent == w.sent
  {
    if rest != [] {
      StaysStuck(w, rest[..|rest| - 1]);
      StepOnTime(Run(w, rest[..|rest| - 1]), rest[|rest| - 1]);
      StepKeepsGoing(Run(w, rest[..|rest| - 1]), rest[|rest| - 1]);
    }
  }

  /** Nothing more is ever sent, and the connection is never closed for being complete. */
  ghost predicate EndsUnfinished(w: World)
  {
    forall rest: seq<Choice> :: var w' := Run(w, rest); w'.sent == w.sent != w'.total && !w'.closeRequested
  }

  /**
    Main result: in every run, when a generation is due, the session ends unfinished unless that very generation
    finds both ends established, room in the window and a link that takes the segment. There is no second try.
   */
  lemma {:induction false} RefusalIsFinal(site: Site, serverState: TS.State, choices: seq<Choice>, c: Choice)
    requires var w := Run(Session.Start(site, serverState), choices); Enabled(w, c) && w.pending[0].event.Generate?
    ensures var w := Run(Session.Start(site, serverState), choices);
      if Generating(Popped(w), c) then Step(w, c).sent == w.sent + 1
      else Step(w, c).sent == w.sent && EndsUnfinished(Step(w, c))
  {
    var w := Run(Session.Start(site, serverState), choices);
    RunKeepsGoing(site, serverState, choices);
    SessionClock.RunOnTime(site, serverState, choices);
    PoppedGoing(w);
    GenerateKeepsGoing(Popped(w), c);
    StepOnTime(w, c);
    if !Generating(Popped(w), c) {
      forall rest: seq<Choice>
        ensures var w' := Run(Step(w, c), rest); w'.sent == w.sent != w'.total && !w'.closeRequested
      {
        StaysStuck(Step(w, c), rest);
      }
    }
  }
}
