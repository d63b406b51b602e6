/**
  How long the client waits before it sends a segment again: every retransmission timer of a run is armed with the
  timeout its history calls for, and the oldest segment is never left without one unless the network refuses a resend.
 */
module SessionBackoff {
  import opened Common
  import opened Word32
  import opened Connection
  import opened Session
  import opened SessionHistory
  import opened SessionResults
  import opened SessionSafety
  import EventQueues
  import TS = TcpState
  import SB = SendBuffer
  import CC = CongestionControl
  import RT = RetransmissionTimer

  /** A timer is due after the client's timeout, and the server, which sends no data, has none. */
  ghost predicate Arms(w: World, w': World)
  {
    && w'.server.sendBuffer == w.server.sendBuffer && w'.now == w.now
    && forall x :: x in w'.pending && x !in w.pending && x.event.Timeout? ==> x.time == w'.now + Rto(w'.client)
  }

  lemma ArmsThen(w: World, w1: World, w2: World)
    requires Arms(w, w1) && Arms(w1, w2) && Rto(w2.client) == Rto(w1.client)
    ensures Arms(w, w2)
  {
  }

  /** Nothing new is scheduled that is a retransmission timer. */
  ghost predicate NoTimers(w: World, w': World)
  {
    && w'.server.sendBuffer == w.server.sendBuffer && w'.now == w.now
    && forall x :: x in w'.pending && x.event.Timeout? ==> x in w.pending
  }

  lemma NoTimersThen(w: World, w1: World, w2: World)
    requires NoTimers(w, w1) && NoTimers(w1, w2)
    ensures NoTimers(w, w2)
  {
  }

  lemma SentNoTimers(w: World, p: Packet, o: Offer)
    ensures NoTimers(w, Sent(w, p, o))
  {
  }

  lemma OtherNoTimers(w: World, e: Event, delay: real)
    requires !e.Timeout?
    ensures NoTimers(w, Scheduled(w, e, delay))
  {
  }

  lemma RearmedArms(w: World, toServer: bool, advanced: bool)
    requires w.server.sendBuffer == []
    ensures Arms(w, Rearmed(w, toServer, advanced)) && Rearmed(w, toServer, advanced).client == w.client
  {
  }

  lemma SeenNoTimers(w: World, toServer: bool)
    ensures NoTimers(w, DuplicatesSeen(w, toServer)) && Rto(DuplicatesSeen(w, toServer).client) == Rto(w.client)
  {
    OtherNoTimers(WithEnd(w, toServer, DetectionReset(Session.End(w, toServer))), FastRetransmission, 0.0);
  }

  lemma AdvancedNoTimers(w: World)
    ensures NoTimers(w, Advanced(w)) && Advanced(w).client == w.client
  {
    var w1 := w.(total := PACKETS_PER_ROUTE, trafficGenerated := true);
    OtherNoTimers(w1, Generate, 0.0);
    OtherNoTimers(Scheduled(w1, Generate, 0.0).(closeRequested := true), Close, 0.0);
    OtherNoTimers(w.(closeRequested := true), Close, 0.0);
  }

  lemma SeenArms(w: World, toServer: bool)
    ensures NoTimers(w, Advanced(DuplicatesSeen(w, toServer))) && Rto(Advanced(DuplicatesSeen(w, toServer)).client) == Rto(w.client)
  {
    SeenNoTimers(w, toServer);
    AdvancedNoTimers(DuplicatesSeen(w, toServer));
    NoTimersThen(w, DuplicatesSeen(w, toServer), Advanced(DuplicatesSeen(w, toServer)));
  }

  lemma AckArms(w: World, p: Packet)
    requires w.server.sendBuffer == []
    ensures Arms(w, OnAck(w, p))
  {
    var out := Acknowledging(Session.End(w, p.toServer), p.ack, w.now);
    var w1 := WithEnd(w, p.toServer, out.ep);
    RearmedArms(w1, p.toServer, out.ok);
    SeenArms(Rearmed(w1, p.toServer, out.ok), p.toServer);
  }

  lemma DataReactionsArm(w: World, toServer: bool, inOrder: bool, c: Choice)
    ensures NoTimers(w, DataReactions(w, toServer, inOrder, c))
  {
    var ep := Session.End(w, toServer);
    SentNoTimers(WithEnd(w, toServer, ep.(delayedAck := false)), PlainPacket(w.site, ACK, !toServer, ep), c.offer);
    OtherNoTimers(WithEnd(w, toServer, ep.(delayedAck := true)), DelayedAck(toServer, ep.expectedAck), ACK_DELAY);
  }

  lemma DataArms(w: World, p: Packet, c: Choice)
    ensures NoTimers(w, OnData(w, p, c))
  {
    DataReactionsArm(DataTaken(w, p), p.toServer, p.seqNo == Session.End(w, p.toServer).expectedAck, c);
  }

  lemma FinAckedNoTimers(w: World, toServer: bool, c: Choice)
    ensures NoTimers(w, FinAcked(w, toServer, c))
  {
    OtherNoTimers(w, TimeWaitTimeout, TIME_WAIT_DELAY);
    SentNoTimers(LastTimer(w), PlainPacket(w.site, ACK, !toServer, Session.End(w, toServer)), c.offer);
    NoTimersThen(w, LastTimer(w), FinAcked(w, toServer, c));
  }

  lemma FinReactionsArm(w: World, toServer: bool, c: Choice)
    ensures NoTimers(w, FinReactions(w, toServer, c))
  {
    var w1 := FinAcked(w, toServer, c);
    FinAckedNoTimers(w, toServer, c);
    var fin := SendFin(Session.End(w1, toServer)).ep;
    SentNoTimers(WithEnd(w1, toServer, fin), PlainPacket(w1.site, FIN, !toServer, fin), c.offer2);
    NoTimersThen(w, w1, FinReactions(w, toServer, c));
  }

  lemma FinArms(w: World, p: Packet, c: Choice)
    ensures NoTimers(w, OnFin(w, p, c))
  {
    var out := ReceiveFin(Session.End(w, p.toServer), p.seqNo);
    FinReactionsArm(WithEnd(w, p.toServer, out.ep), p.toServer, c);
  }

  lemma ArrivalArms(w: World, p: Packet, c: Choice)
    requires w.server.sendBuffer == []
    ensures Arms(w, OnArrival(w, p, c))
  {
    if p.at == Home(w.site, p.toServer) {
      match p.kind {
        case ACK => AckArms(w, p);
        case DATA => DataArms(w, p, c);
        case FIN => FinArms(w, p, c);
        case _ =>
      }
    }
  }

  lemma ResentArms(w: World, seqNo: u32, c: Choice)
    ensures Arms(w, Resent(w, seqNo, c))
  {
  }

  lemma GenerateArms(w: World, c: Choice)
    ensures Arms(w, OnGenerate(w, c))
  {
  }

  lemma HandshakeArms(w: World, e: Event, c: Choice)
    requires e.Handshake? || e.HandshakeTimeout?
    ensures NoTimers(w, Execute(w, e, c))
  {
    var w1 := if e.Handshake? then w.(client := SendSyn(w.client, c.isn).ep) else Retried(w);
    var syn := SynPacket(w1.site, w1.client);
    SentNoTimers(w1, syn, c.offer);
    OtherNoTimers(Sent(w1, syn, c.offer), HandshakeTimeout, SYN_TIMEOUT);
  }

  lemma FastArms(w: World, c: Choice)
    ensures Arms(w, OnFastRetransmission(w, c))
  {
    if w.client.sendBuffer != [] {
      var client := w.client.(congestion := CC.OnFastRetransmit(w.client.congestion, FlightSize(w.client)));
      ResentArms(w.(client := client), w.client.sendBuffer[0].seqNo, c);
    }
  }

  lemma QuietArms(w: World, e: Event, c: Choice)
    requires e.DelayedAck? || e.Timeout? || e.Close? || e.TimeWaitTimeout?
    ensures NoTimers(w, Execute(w, e, c))
  {
  }

  lemma FiredArms(w: World, e: Event, c: Choice)
    requires !e.Arrival?
    ensures Arms(w, Execute(w, e, c))
  {
    match e
    case Generate => GenerateArms(w, c);
    case Retransmission(seqNo) => ResentArms(w, seqNo, c);
    case FastRetransmission => FastArms(w, c);
    case Handshake => HandshakeArms(w, e, c);
    case HandshakeTimeout => HandshakeArms(w, e, c);
    case _ => QuietArms(w, e, c);
  }

  lemma StepArms(w: World, c: Choice)
    requires Enabled(w, c) && w.server.sendBuffer == []
    ensures Arms(Popped(w), Step(w, c))
  {
    if w.pending[0].event.Arrival? { ArrivalArms(Popped(w), w.pending[0].event.packet, c); }
    else { FiredArms(Popped(w), w.pending[0].event, c); }
  }

  lemma {:induction false} ServerStoresNothing(site: Site, serverState: TS.State, choices: seq<Choice>)
    ensures Run(Session.Start(site, serverState), choices).server.sendBuffer == []
  {
    if choices != [] {
      var w := Run(Session.Start(site, serverState), choices[..|choices| - 1]);
      ServerStoresNothing(site, serverState, choices[..|choices| - 1]);
      if Enabled(w, choices[|choices| - 1]) { StepArms(w, choices[|choices| - 1]); }
    }
  }

  /** Doubled with every time-out in a row, up to 64 times, and at most a minute. */
  function BackedOff(rto: real, timeouts: nat): real
  {
    MinReal(rto * RT.Pow2(if timeouts <= 6 then timeouts else 6), 60.0)
  }

  lemma TimeoutIs(t: RT.Timer, rto: real, timeouts: nat)
    requires t.estimator.rto == rto && t.backoff == RT.Pow2(RT.Capped(timeouts))
    ensures RT.CurrentRto(t) == BackedOff(rto, timeouts)
  {
  }

  /** The timeout after a history. */
  lemma TimeoutAfter(history: seq<RT.TimerOp>)
    ensures RT.CurrentRto(RT.After(history)) == BackedOff(RT.After(RT.Settled(history)).estimator.rto, RT.Streak(history))
  {
    RT.BackoffCountsTheStreak(history);
    TimeoutIs(RT.After(history), RT.After(RT.Settled(history)).estimator.rto, RT.Streak(history));
  }

  /**
    Main result: in every run, a retransmission timer set by some event is due after the timeout estimated from the
    samples so far, doubled for every time-out of the oldest segment since the last sample: min(60, rto 2^min(k, 6)).
   */
  lemma {:induction false} TimersBackOff(site: Site, serverState: TS.State, choices: seq<Choice>, c: Choice, x: EventQueues.Timed<Event>)
    requires var w := Run(Session.Start(site, serverState), choices);
      Enabled(w, c) && x in Step(w, c).pending && x !in w.pending && x.event.Timeout?
    ensures var w0 := Session.Start(site, serverState);
      var history := TimerHistory(w0, choices + [c]);
      x.time == Step(Run(w0, choices), c).now
                + BackedOff(RT.After(RT.Settled(history)).estimator.rto, RT.Streak(history))
  {
    var w0 := Session.Start(site, serverState);
    var w, history := Run(w0, choices), TimerHistory(w0, choices + [c]);
    assert (choices + [c])[..|choices|] == choices;
    ServerStoresNothing(site, serverState, choices);
    StepArms(w, c);
    TimerFollowsHistory(site, serverState, choices + [c]);
    TimeoutAfter(history);
  }

  // ---- the oldest segment is guarded ----

  /** The event will see to the segment. */
  predicate Guards(e: Event, seqNo: u32) { e == Timeout(seqNo) || e == Retransmission(seqNo) }

  /** Something waits that will. */
  ghost predicate Guarded(w: World, seqNo: u32) { exists x :: x in w.pending && Guards(x.event, seqNo) }

  /** While established, the oldest stored segment is seen to. */
  ghost predicate OldestGuarded(w: World)
  {
    w.client.state.ESTABLISHED? && w.client.sendBuffer != [] ==> Guarded(w, w.client.sendBuffer[0].seqNo)
  }

  /** The event about to fire resends the segment, and the network does not take it. */
  predicate ResendRefused(w: World, c: Choice)
  {
    && Enabled(w, c) && w.pending[0].event.Retransmission?
    && var seqNo := w.pending[0].event.seqNo; var i := SB.Find(w.client.sendBuffer, seqNo);
       && Resendable(w.client, seqNo) && CanRetransmit(w.client, seqNo)
       && !Taken(Popped(w), DataPacket(w.site, seqNo, w.client.sendBuffer[i].ack, w.client.sendBuffer[i].payload), c.offer)
  }

  /** Nothing that waited has gone, and the oldest segment is still the oldest. */
  ghost predicate Keeps(w: World, w': World)
  {
    && (forall x :: x in w.pending ==> x in w'.pending)
    && (w'.client.sendBuffer != [] ==> w.client.sendBuffer != [] && w'.client.sendBuffer[0].seqNo == w.client.sendBuffer[0].seqNo)
  }

  /** A step of an event that guards something else, or nothing. */
  lemma KeepsGuarded(w: World, w': World)
    requires OldestGuarded(w) && w.pending != [] && w.client.state.ESTABLISHED?
    requires w.client.sendBuffer != [] ==> !Guards(w.pending[0].event, w.client.sendBuffer[0].seqNo)
    requires Keeps(Popped(w), w')
    ensures OldestGuarded(w')
  {
    if w'.client.state.ESTABLISHED? && w'.client.sendBuffer != [] {
      var x :| x in w.pending && Guards(x.event, w.client.sendBuffer[0].seqNo);
      assert x in Popped(w).pending;
    }
  }

  lemma SentKeeps(w: World, p: Packet, o: Offer)
    ensures Keeps(w, Sent(w, p, o))
  {
  }

  lemma ScheduledKeeps(w: World, e: Event, delay: real)
    ensures Keeps(w, Scheduled(w, e, delay))
  {
  }

  lemma KeepsThen(w: World, w1: World, w2: World)
    requires Keeps(w, w1) && Keeps(w1, w2)
    ensures Keeps(w, w2)
  {
  }

  lemma ReactionsKeepAll(w: World, toServer: bool, advanced: bool)
    ensures Keeps(w, AckReactions(w, toServer, advanced))
  {
    var w1 := Rearmed(w, toServer, advanced);
    var w2 := WithEnd(w1, toServer, DetectionReset(Session.End(w1, toServer)));
    ScheduledKeeps(w2, FastRetransmission, 0.0);
    assert Keeps(w, w1);
  }

  lemma AdvancedKeeps(w: World)
    ensures Keeps(w, Advanced(w))
  {
  }

  lemma AckOnKeeps(w: World, toServer: bool, advanced: bool)
    ensures Keeps(w, Advanced(AckReactions(w, toServer, advanced)))
  {
    ReactionsKeepAll(w, toServer, advanced);
    AdvancedKeeps(AckReactions(w, toServer, advanced));
    KeepsThen(w, AckReactions(w, toServer, advanced), Advanced(AckReactions(w, toServer, advanced)));
  }

  /** An advance re-arms the timer for the oldest segment left. */
  lemma AdvanceGuards(w: World)
    ensures var w' := Advanced(AckReactions(w, false, true));
      w'.client.sendBuffer == w.client.sendBuffer && (w.client.sendBuffer != [] ==> Guarded(w', w.client.sendBuffer[0].seqNo))
  {
    RearmedStays(w);
    if w.client.sendBuffer != [] {
      var x := EventQueues.Timed(w.now + Rto(w.client), w.nextId, Timeout(w.client.sendBuffer[0].seqNo));
      assert x in Rearmed(w, false, true).pending;
      assert x in Advanced(AckReactions(w, false, true)).pending && Guards(x.event, w.client.sendBuffer[0].seqNo);
    }
  }

  lemma UnadvancedStores(ep: Endpoint, ack: u32, now: real)
    ensures var out := Acknowledging(ep, ack, now);
      out.ok || out.ep.sendBuffer == ep.sendBuffer
  {
  }

  /** An acknowledgement that does not advance the client keeps everything. */
  lemma AckGuards(w: World, p: Packet)
    requires OldestGuarded(w) && w.pending != [] && w.pending[0].event == Arrival(p) && w.client.state.ESTABLISHED? && p.kind.ACK?
    ensures OldestGuarded(OnAck(Popped(w), p))
  {
    var w1 := Popped(w);
    var out := Acknowledging(Session.End(w1, p.toServer), p.ack, w1.now);
    var w2 := WithEnd(w1, p.toServer, out.ep);
    if !p.toServer && out.ok {
      AdvanceGuards(w2);
    } else {
      UnadvancedStores(Session.End(w1, p.toServer), p.ack, w1.now);
      AckOnKeeps(w2, p.toServer, out.ok);
      assert Keeps(w1, w2);
      KeepsThen(w1, w2, OnAck(w1, p));
      KeepsGuarded(w, OnAck(w1, p));
    }
  }

  lemma RearmedStays(w: World)
    ensures Keeps(Rearmed(w, false, true), Advanced(AckReactions(w, false, true)))
    ensures Advanced(AckReactions(w, false, true)).client.sendBuffer == w.client.sendBuffer
  {
    var w1 := Rearmed(w, false, true);
    var w2 := WithEnd(w1, false, DetectionReset(w1.client));
    ScheduledKeeps(w2, FastRetransmission, 0.0);
    AdvancedKeeps(AckReactions(w, false, true));
    KeepsThen(w1, AckReactions(w, false, true), Advanced(AckReactions(w, false, true)));
  }

  lemma DataKeeps(w: World, p: Packet, c: Choice)
    ensures Keeps(w, OnData(w, p, c))
  {
    var w1 := DataTaken(w, p);
    var ep := Session.End(w1, p.toServer);
    assert Keeps(w, w1);
    SentKeeps(WithEnd(w1, p.toServer, ep.(delayedAck := false)), PlainPacket(w1.site, ACK, !p.toServer, ep), c.offer);
    ScheduledKeeps(WithEnd(w1, p.toServer, ep.(delayedAck := true)), DelayedAck(p.toServer, ep.expectedAck), ACK_DELAY);
  }

  lemma ArrivalGuards(w: World, k: nat, c: Choice)
    requires OpenAt(w, k) && OldestGuarded(w) && Enabled(w, c) && w.pending[0].event.Arrival?
    ensures OldestGuarded(Step(w, c))
  {
    var w1, p := Popped(w), w.pending[0].event.packet;
    assert w.pending[0] in w.pending && OpenEvent(w.pending[0].event);
    if p.at != Home(w.site, p.toServer) {
      SentKeeps(w1, p, c.offer);
      KeepsGuarded(w, Step(w, c));
    } else if p.kind.ACK? {
      AckGuards(w, p);
    } else {
      OtherArrivalKeeps(w1, p, c);
      KeepsGuarded(w, Step(w, c));
    }
  }

  lemma OtherArrivalKeeps(w: World, p: Packet, c: Choice)
    requires !p.kind.ACK? && !p.kind.FIN? && w.client.state.ESTABLISHED? && p.at == Home(w.site, p.toServer)
    ensures Keeps(w, OnArrival(w, p, c))
  {
    match p.kind {
      case SYN =>
        var out := ReceiveSyn(Session.End(w, p.toServer), p.seqNo);
        SentKeeps(WithEnd(w, p.toServer, out.ep), PlainPacket(w.site, SYN_ACK, !p.toServer, out.ep), c.offer);
      case DATA => DataKeeps(w, p, c);
      case _ =>
    }
  }

  /** The first segment stored is given a timer; later ones keep the one there is. */
  lemma ContinuedGuards(w: World, seqNo: u32, first: bool)
    ensures var w' := Continued(w, seqNo, first); Keeps(w, w') && w'.client == w.client && (first ==> Guarded(w', seqNo))
  {
    var w', x := Continued(w, seqNo, first), EventQueues.Timed(w.now + Rto(w.client), w.nextId, Timeout(seqNo));
    ScheduledKeeps(w, Timeout(seqNo), Rto(w.client));
    var w1 := if first then Scheduled(w, Timeout(seqNo), Rto(w.client)) else w;
    ScheduledKeeps(w1, Generate, 0.0);
    if first { assert x in w1.pending && x in w'.pending && Guards(x.event, seqNo); }
  }

  lemma QueuedStores(w: World, payload: seq<byte>)
    requires payload != [] && CanSend(w.client, |payload|)
    ensures var buffer := Queued(w, payload).client.sendBuffer;
      |buffer| == |w.client.sendBuffer| + 1 && Queued(w, payload).pending == w.pending
      && buffer[0].seqNo == if w.client.sendBuffer == [] then w.client.seqNum else w.client.sendBuffer[0].seqNo
  {
  }

  lemma GenerateGuards(w: World, c: Choice)
    requires OldestGuarded(w) && Enabled(w, c) && w.pending[0].event.Generate? && w.client.state.ESTABLISHED?
    ensures OldestGuarded(Step(w, c))
  {
    var w1, w' := Popped(w), Step(w, c);
    var packet := DataPacket(w1.site, w1.client.seqNum, w1.client.expectedAck, c.payload);
    if !BothEstablished(w1) || w1.sent == w1.total || !CanSend(w1.client, |c.payload|) || !Taken(w1, packet, c.offer) {
      KeepsGuarded(w, w');
    } else {
      var sent := Sent(w1, packet, c.offer);
      var w2, first := Queued(sent, c.payload), w1.client.sendBuffer == [];
      SentKeeps(w1, packet, c.offer);
      QueuedStores(sent, c.payload);
      assert w' == Continued(w2, w1.client.seqNum, first);
      ContinuedGuards(w2, w1.client.seqNum, first);
      if !first {
        assert Keeps(sent, w2);
        KeepsThen(w1, sent, w2);
        KeepsThen(w1, w2, w');
        KeepsGuarded(w, w');
      }
    }
  }

  /** A resend keeps everything, and if the network takes it a timer follows. */
  lemma ResentGuards(w: World, seqNo: u32, c: Choice)
    ensures Keeps(w, Resent(w, seqNo, c)) && Resent(w, seqNo, c).client.state == w.client.state
    ensures var i := SB.Find(w.client.sendBuffer, seqNo);
      i < |w.client.sendBuffer| && Taken(w, DataPacket(w.site, seqNo, w.client.sendBuffer[i].ack, w.client.sendBuffer[i].payload), c.offer) ==>
        Guarded(Resent(w, seqNo, c), seqNo)
    ensures var i := SB.Find(w.client.sendBuffer, seqNo);
      i < |w.client.sendBuffer| && !Taken(w, DataPacket(w.site, seqNo, w.client.sendBuffer[i].ack, w.client.sendBuffer[i].payload), c.offer) ==>
        Resent(w, seqNo, c).pending == w.pending
  {
    var w', i := Resent(w, seqNo, c), SB.Find(w.client.sendBuffer, seqNo);
    if i < |w.client.sendBuffer| {
      var packet := DataPacket(w.site, seqNo, w.client.sendBuffer[i].ack, w.client.sendBuffer[i].payload);
      var w1 := w.(client := MarkRetransmitted(w.client, seqNo, w.now), log := w.log + [Transmission(seqNo, w.now)]);
      SentKeeps(w1, packet, c.offer);
      if Taken(w1, packet, c.offer) {
        var w2 := Sent(w1, packet, c.offer);
        var x := EventQueues.Timed(w2.now + Rto(w1.client), w2.nextId, Timeout(seqNo));
        assert x in w'.pending && Guards(x.event, seqNo);
      }
    }
  }

  lemma OldestIsFirst(entries: seq<SB.Entry>)
    requires entries != []
    ensures SB.Find(entries, entries[0].seqNo) == 0
  {
  }

  /** The timers of the oldest segment hand it on to each other, unless the network refuses the resend. */
  lemma TimersGuard(w: World, c: Choice)
    requires OldestGuarded(w) && Enabled(w, c) && w.client.state.ESTABLISHED? && w.client.sendBuffer != []
    requires Guards(w.pending[0].event, w.client.sendBuffer[0].seqNo)
    ensures OldestGuarded(Step(w, c)) <==> !ResendRefused(w, c) || Guarded(Popped(w), w.client.sendBuffer[0].seqNo)
  {
    var w1, w', seqNo := Popped(w), Step(w, c), w.client.sendBuffer[0].seqNo;
    OldestIsFirst(w.client.sendBuffer);
    if w.pending[0].event.Timeout? {
      if CanRetransmit(w.client, seqNo) {
        var x := EventQueues.Timed(w1.now + 0.0, w1.nextId, Retransmission(seqNo));
        assert x in w'.pending && Guards(x.event, seqNo);
      }
    } else if CanRetransmit(w.client, seqNo) {
      assert w' == Resent(w1, seqNo, c);
      ResentGuards(w1, seqNo, c);
    }
  }

  lemma OtherTimersKeep(w: World, e: Event, c: Choice)
    requires w.client.state.ESTABLISHED? && !e.Arrival? && !e.Generate? && !e.Handshake?
    requires w.client.sendBuffer != [] ==> !Guards(e, w.client.sendBuffer[0].seqNo)
    ensures Keeps(w, Execute(w, e, c)) || !Execute(w, e, c).client.state.ESTABLISHED?
  {
    match e
    case Retransmission(seqNo) => ResentGuards(w, seqNo, c);
    case FastRetransmission =>
      if w.client.sendBuffer != [] {
        var client := w.client.(congestion := CC.OnFastRetransmit(w.client.congestion, FlightSize(w.client)));
        ResentGuards(w.(client := client), w.client.sendBuffer[0].seqNo, c);
      }
    case _ => QuietKeeps(w, e, c);
  }

  lemma QuietKeeps(w: World, e: Event, c: Choice)
    requires w.client.state.ESTABLISHED? && (e.HandshakeTimeout? || e.DelayedAck? || e.Timeout? || e.Close? || e.TimeWaitTimeout?)
    requires w.client.sendBuffer != [] ==> !Guards(e, w.client.sendBuffer[0].seqNo)
    ensures Keeps(w, Execute(w, e, c)) || !Execute(w, e, c).client.state.ESTABLISHED?
  {
    if e.DelayedAck? {
      var ep := Session.End(w, e.atServer);
      SentKeeps(WithEnd(w, e.atServer, ep.(delayedAck := false)), PlainPacket(w.site, ACK, !e.atServer, ep), c.offer);
    }
  }

  /** Is the oldest segment left without anything to see to it by this step? */
  ghost predicate LosesGuard(w: World, c: Choice)
  {
    && ResendRefused(w, c) && w.pending[0].event.seqNo == w.client.sendBuffer[0].seqNo
    && !Guarded(Popped(w), w.client.sendBuffer[0].seqNo)
  }

  lemma OpenGuards(w: World, k: nat, c: Choice)
    requires OpenAt(w, k) && OldestGuarded(w) && Enabled(w, c)
    ensures OldestGuarded(Step(w, c)) <==> !LosesGuard(w, c)
  {
    var e := w.pending[0].event;
    assert w.pending[0] in w.pending && OpenEvent(e);
    if e.Arrival? { ArrivalGuards(w, k, c); }
    else if e.Generate? { GenerateGuards(w, c); }
    else if w.client.sendBuffer != [] && Guards(e, w.client.sendBuffer[0].seqNo) { TimersGuard(w, c); }
    else {
      OtherTimersKeep(Popped(w), e, c);
      if Step(w, c).client.state.ESTABLISHED? { KeepsGuarded(w, Step(w, c)); }
    }
  }

  lemma OpeningStoresNothing(w: World, c: Choice)
    requires Opening(w)
    ensures Step(w, c).client.sendBuffer == []
  {
    if Enabled(w, c) {
      assert w.pending[0] in w.pending && OpeningEvent(w.client.seqNum, w.server, w.pending[0].event);
    }
  }

  /**
    Main step: an oldest segment that something will see to stays so, unless exactly this happens: its resend is due,
    the network refuses it, and no other timer of it waits.
   */
  lemma StepGuardsIff(w: World, c: Choice)
    requires Inv(w) && OldestGuarded(w)
    ensures OldestGuarded(Step(w, c)) <==> !(w.client.state.ESTABLISHED? && LosesGuard(w, c))
  {
    if Enabled(w, c) {
      if Open(w) {
        var k: nat :| OpenAt(w, k);
        OpenGuards(w, k, c);
      } else if Opening(w) {
        OpeningStoresNothing(w, c);
      } else if Idle(w) {
        IdleStep(w, c);
      } else {
        OverStep(w, c);
      }
    }
  }

  predicate NoResendRefused(w: World, choices: seq<Choice>)
  {
    choices == [] ||
    (NoResendRefused(w, choices[..|choices| - 1]) && !ResendRefused(Run(w, choices[..|choices| - 1]), choices[|choices| - 1]))
  }

  /**
    Main result: in every run in which the network refuses no resend, the oldest segment a client has stored always has
    a timer or its resend waiting, so it is acknowledged or sent again or the connection is given up.
   */
  lemma {:induction false} OldestIsGuarded(site: Site, serverState: TS.State, choices: seq<Choice>)
    requires Fresh(serverState) && NoResendRefused(Session.Start(site, serverState), choices)
    ensures OldestGuarded(Run(Session.Start(site, serverState), choices))
  {
    if choices != [] {
      OldestIsGuarded(site, serverState, choices[..|choices| - 1]);
      RunKeepsInv(site, serverState, choices[..|choices| - 1]);
      StepGuardsIff(Run(Session.Start(site, serverState), choices[..|choices| - 1]), choices[|choices| - 1]);
    }
  }

  // ---- the SYN ----

  /** The event about to fire sends a SYN, for the first time or again. */
  predicate OffersSyn(w: World)
  {
    && w.pending != []
    && ( || (w.pending[0].event.Handshake? && TS.Accepts(w.client.state, TS.SynSent))
         || (w.pending[0].event.HandshakeTimeout? && w.client.state.SYN_SENT? && w.client.synRetries < MAX_SYN_RETRIES))
  }

  /** How many times a SYN is offered to the network in a run. */
  function Syns(w: World, choices: seq<Choice>): nat
  {
    if choices == [] then 0
    else
      var before := Run(w, choices[..|choices| - 1]);
      Syns(w, choices[..|choices| - 1]) + if Enabled(before, choices[|choices| - 1]) && OffersSyn(before) then 1 else 0
  }

  function SynOf(w: World, number: u32): Packet { Packet(true, SYN, number, 0, [], w.site.client) }

  /** A SYN the network takes is on its way, and a second later its timer fires. */
  lemma SynGoesOut(w: World, c: Choice)
    requires Enabled(w, c) && OffersSyn(w)
    ensures var w' := Step(w, c); var syn := SynOf(w, w'.client.seqNum);
      && w'.client.state.SYN_SENT? && (w.client.state.SYN_SENT? ==> w'.client.seqNum == w.client.seqNum)
      && (Taken(w, syn, c.offer) ==>
            && EventQueues.Timed(c.offer.arrival, w.nextId, Arrival(syn.(at := NextNode(w.site, syn)))) in w'.pending
            && EventQueues.Timed(w'.now + 1.0, w.nextId + 1, HandshakeTimeout) in w'.pending)
  {
    var w1 := Popped(w);
    var w2 := if w.pending[0].event.Handshake? then w1.(client := SendSyn(w1.client, c.isn).ep) else Retried(w1);
    var syn := SynPacket(w2.site, w2.client);
    assert Step(w, c) == SynSent(w2, c);
    assert syn == SynOf(w, w2.client.seqNum);
    if Taken(w2, syn, c.offer) { assert SynSent(w2, c) == Scheduled(Sent(w2, syn, c.offer), HandshakeTimeout, SYN_TIMEOUT); }
  }

  /** What a run has tried so far to open the connection. */
  ghost predicate Tried(w: World, syns: nat)
  {
    && (Idle(w) ==> syns == 0) && syns <= 1 + 5
    && (w.client.state.SYN_SENT? ==> syns == 1 + w.client.synRetries)
  }

  lemma OverIsNotIdle(w: World)
    requires Over(w)
    ensures !Idle(w)
  {
    if |w.pending| > 0 { assert w.pending[0] in w.pending; }
  }

  lemma IdleTries(w: World, c: Choice)
    requires Idle(w) && Enabled(w, c)
    ensures OffersSyn(w) && Step(w, c).client.synRetries == 0 && Step(w, c).client.state.SYN_SENT?
  {
  }

  lemma OpeningTries(w: World, c: Choice)
    requires Opening(w) && Enabled(w, c)
    ensures var ep' := Step(w, c).client;
      && (OffersSyn(w) ==> ep'.state.SYN_SENT?) && (ep'.state.SYN_SENT? || ep'.state.ESTABLISHED?)
      && (ep'.state.SYN_SENT? ==> ep'.synRetries == w.client.synRetries + if OffersSyn(w) then 1 else 0)
  {
    assert w.pending[0] in w.pending && OpeningEvent(w.client.seqNum, w.server, w.pending[0].event);
  }

  lemma LaterTries(w: World, c: Choice)
    requires (Open(w) || Over(w)) && Enabled(w, c)
    ensures !OffersSyn(w) && !Step(w, c).client.state.SYN_SENT? && !Idle(Step(w, c))
  {
    assert w.pending[0] in w.pending;
    if Open(w) {
      var k: nat :| OpenAt(w, k);
      OpenStep(w, k, c);
    } else {
      OverStep(w, c);
    }
    if Over(Step(w, c)) { OverIsNotIdle(Step(w, c)); }
  }

  lemma StepTries(w: World, c: Choice, syns: nat)
    requires Inv(w) && Tried(w, syns) && Enabled(w, c)
    ensures Tried(Step(w, c), syns + if OffersSyn(w) then 1 else 0)
  {
    if Idle(w) { IdleTries(w, c); }
    else if Opening(w) { OpeningTries(w, c); }
    else { LaterTries(w, c); }
  }

  /** Main result: in every run the client offers its SYN at most 1 + 5 times, and is counting while it waits. */
  lemma {:induction false} AtMostSixSyns(site: Site, serverState: TS.State, choices: seq<Choice>)
    requires Fresh(serverState)
    ensures var w0 := Session.Start(site, serverState); Tried(Run(w0, choices), Syns(w0, choices))
  {
    if choices != [] {
      var w0, before, c := Session.Start(site, serverState), choices[..|choices| - 1], choices[|choices| - 1];
      AtMostSixSyns(site, serverState, before);
      RunKeepsInv(site, serverState, before);
      if Enabled(Run(w0, before), c) { StepTries(Run(w0, before), c, Syns(w0, before)); }
    }
  }
}
