/**
  The session's clock. No timer is shorter than the least retransmission timeout, no delay is negative and
  nothing arrives before it is sent, so every event body schedules at or after the time it runs: events are
  executed strictly in the order of their times and identifiers, and the clock never goes back.
 */
module SessionClock {
  import opened Common
  import opened Word32
  import opened Connection
  import opened Session
  import EventQueues
  import TS = TcpState
  import SB = SendBuffer
  import CC = CongestionControl
  import RT = RetransmissionTimer

  type Due = EventQueues.Timed<Event>

  /** The retransmission timeout lies where the estimator keeps it, and backing off only lengthens it. */
  predicate Sane(t: RT.Timer) { RT.MIN_RTO <= t.estimator.rto <= RT.MAX_RTO && t.backoff >= 1.0 }

  predicate TimersSane(w: World) { Sane(w.client.timer) && Sane(w.server.timer) }

  /** The queue is in order and holds nothing from the past and no identifier that is still to come. */
  ghost predicate OnTime(w: World)
  {
    && TimersSane(w) && EventQueues.Sorted(w.pending)
    && forall x :: x in w.pending ==> x.time >= w.now && x.id < w.nextId
  }

  /** All that waits, and all that is still to be scheduled, comes after this event. */
  ghost predicate Ahead(w: World, last: Due)
  {
    && OnTime(w) && last.time <= w.now && last.id < w.nextId
    && forall x :: x in w.pending ==> EventQueues.Earlier(last, x)
  }

  // ---- timers ----

  lemma OpKeepsSane(t: RT.Timer, op: RT.TimerOp)
    requires Sane(t)
    ensures Sane(RT.Apply(t, op))
  {
  }

  /** RFC 6298 rounds every timeout up to a minimum: no retransmission timer expires at once. */
  lemma TimerTakesTime(ep: Endpoint)
    requires Sane(ep.timer)
    ensures 0.2 <= Rto(ep) <= 60.0
  {
    RT.CurrentInRange(ep.timer);
  }

  lemma AcknowledgedSane(ep: Endpoint, ack: u32, now: real)
    requires Sane(ep.timer)
    ensures Sane(Acknowledged(ep, ack, now).timer)
  {
    var sample := AckSample(ep, ack, now);
    if sample.Some? { OpKeepsSane(ep.timer, RT.Sample(sample.value)); }
  }

  lemma AcknowledgingSane(ep: Endpoint, ack: u32, now: real)
    requires Sane(ep.timer)
    ensures Sane(Acknowledging(ep, ack, now).ep.timer)
  {
    AcknowledgedSane(ep.(detector := SB.Observed(ep.detector, ack)), ack, now);
  }

  // ---- what keeps the queue ahead ----

  lemma SchedulesAhead(w: World, last: Due, e: Event, at: real)
    requires Ahead(w, last) && at >= w.now
    ensures Ahead(ScheduledAt(w, e, at), last)
  {
    EventQueues.ScheduledSorted(w.pending, EventQueues.Timed(at, w.nextId, e));
  }

  lemma SendsAhead(w: World, last: Due, p: Packet, o: Offer)
    requires Ahead(w, last) && o.arrival >= w.now
    ensures Ahead(Sent(w, p, o), last)
  {
    if Taken(w, p, o) { SchedulesAhead(w, last, Arrival(p.(at := NextNode(w.site, p))), o.arrival); }
  }

  lemma EndAhead(w: World, last: Due, server: bool, ep: Endpoint)
    requires Ahead(w, last) && Sane(ep.timer)
    ensures Ahead(WithEnd(w, server, ep), last)
  {
  }

  /** Clock and queue apart, anything may change. */
  lemma SameQueueAhead(w: World, w': World, last: Due)
    requires Ahead(w, last) && TimersSane(w')
    requires w'.pending == w.pending && w'.nextId == w.nextId && w'.now == w.now
    ensures Ahead(w', last)
  {
  }

  // ---- event bodies ----

  lemma SynSentAhead(w: World, last: Due, c: Choice)
    requires Ahead(w, last) && c.offer.arrival >= w.now
    ensures Ahead(SynSent(w, c), last)
  {
    var syn := SynPacket(w.site, w.client);
    SendsAhead(w, last, syn, c.offer);
    SchedulesAhead(Sent(w, syn, c.offer), last, HandshakeTimeout, w.now + SYN_TIMEOUT);
  }

  lemma HandshakeAhead(w: World, last: Due, c: Choice)
    requires Ahead(w, last) && c.offer.arrival >= w.now
    ensures Ahead(OnHandshake(w, c), last)
  {
    ClientAhead(w, last, SendSyn(w.client, c.isn).ep);
    SynSentAhead(w.(client := SendSyn(w.client, c.isn).ep), last, c);
  }

  lemma HandshakeTimeoutAhead(w: World, last: Due, c: Choice)
    requires Ahead(w, last) && c.offer.arrival >= w.now
    ensures Ahead(OnHandshakeTimeout(w, c), last)
  {
    if w.client.state.SYN_SENT? && w.client.synRetries < MAX_SYN_RETRIES {
      SameQueueAhead(w, Retried(w), last);
      SynSentAhead(Retried(w), last, c);
    }
  }

  lemma SynAhead(w: World, last: Due, p: Packet, c: Choice)
    requires Ahead(w, last) && c.offer.arrival >= w.now
    ensures Ahead(OnSyn(w, p, c), last) && Ahead(OnSynAck(w, p, c), last)
  {
    var syn, synAck := ReceiveSyn(Session.End(w, p.toServer), p.seqNo).ep, ReceiveSynAck(w.client, p.seqNo, p.ack).ep;
    EndAhead(w, last, p.toServer, syn);
    SendsAhead(WithEnd(w, p.toServer, syn), last, PlainPacket(w.site, SYN_ACK, !p.toServer, syn), c.offer);
    var w1 := w.(client := synAck, stream := OnSynAck(w, p, c).stream);
    SameQueueAhead(w, w1, last);
    SendsAhead(w1, last, PlainPacket(w.site, ACK, true, synAck), c.offer);
  }

  lemma AdvancedAhead(w: World, last: Due)
    requires Ahead(w, last)
    ensures Ahead(Advanced(w), last)
  {
    var w0 := w.(total := PACKETS_PER_ROUTE, trafficGenerated := true);
    SchedulesAhead(w0, last, Generate, w.now);
    var w1 := if BothEstablished(w) && !w.trafficGenerated then Scheduled(w0, Generate, 0.0) else w;
    SchedulesAhead(w1.(closeRequested := true), last, Close, w.now);
  }

  lemma RearmedAhead(w: World, last: Due, toServer: bool, advanced: bool)
    requires Ahead(w, last)
    ensures Ahead(Rearmed(w, toServer, advanced), last)
  {
    var ep := Session.End(w, toServer);
    TimerTakesTime(ep);
    if advanced && Oldest(ep).Some? { SchedulesAhead(w, last, Timeout(Oldest(ep).value), w.now + Rto(ep)); }
  }

  lemma AckReactionsAhead(w: World, last: Due, toServer: bool, advanced: bool)
    requires Ahead(w, last)
    ensures Ahead(AckReactions(w, toServer, advanced), last)
  {
    var w1 := Rearmed(w, toServer, advanced);
    var reset := WithEnd(w1, toServer, DetectionReset(Session.End(w1, toServer)));
    RearmedAhead(w, last, toServer, advanced);
    EndAhead(w1, last, toServer, DetectionReset(Session.End(w1, toServer)));
    SchedulesAhead(reset, last, FastRetransmission, w1.now);
  }

  lemma AckAhead(w: World, last: Due, p: Packet)
    requires Ahead(w, last)
    ensures Ahead(OnAck(w, p), last)
  {
    var out := Acknowledging(Session.End(w, p.toServer), p.ack, w.now);
    AcknowledgingSane(Session.End(w, p.toServer), p.ack, w.now);
    EndAhead(w, last, p.toServer, out.ep);
    AckReactionsAhead(WithEnd(w, p.toServer, out.ep), last, p.toServer, out.ok);
    AdvancedAhead(AckReactions(WithEnd(w, p.toServer, out.ep), p.toServer, out.ok), last);
  }

  lemma DataReactionsAhead(w: World, last: Due, toServer: bool, inOrder: bool, c: Choice)
    requires Ahead(w, last) && c.offer.arrival >= w.now
    ensures Ahead(DataReactions(w, toServer, inOrder, c), last)
  {
    var ep := Session.End(w, toServer);
    var now, later := WithEnd(w, toServer, ep.(delayedAck := false)), WithEnd(w, toServer, ep.(delayedAck := true));
    SendsAhead(now, last, PlainPacket(w.site, ACK, !toServer, ep), c.offer);
    SchedulesAhead(later, last, DelayedAck(toServer, ep.expectedAck), w.now + ACK_DELAY);
  }

  lemma DataAhead(w: World, last: Due, p: Packet, c: Choice)
    requires Ahead(w, last) && c.offer.arrival >= w.now
    ensures Ahead(OnData(w, p, c), last)
  {
    SameQueueAhead(w, DataTaken(w, p), last);
    DataReactionsAhead(DataTaken(w, p), last, p.toServer, p.seqNo == Session.End(w, p.toServer).expectedAck, c);
  }

  lemma FinAnsweredAhead(w: World, last: Due, toServer: bool, c: Choice)
    requires Ahead(w, last) && c.offer2.arrival >= w.now
    ensures Ahead(FinAnswered(w, toServer, c), last)
  {
    var fin := SendFin(Session.End(w, toServer)).ep;
    SendsAhead(WithEnd(w, toServer, fin), last, PlainPacket(w.site, FIN, !toServer, fin), c.offer2);
  }

  lemma FinAhead(w: World, last: Due, p: Packet, c: Choice)
    requires Ahead(w, last) && c.offer.arrival >= w.now && c.offer2.arrival >= w.now
    ensures Ahead(OnFin(w, p, c), last)
  {
    var ep := ReceiveFin(Session.End(w, p.toServer), p.seqNo).ep;
    var w0 := WithEnd(w, p.toServer, ep);
    var w1 := if w0.client.state.TIME_WAIT? then Scheduled(w0, TimeWaitTimeout, TIME_WAIT_DELAY) else w0;
    SchedulesAhead(w0, last, TimeWaitTimeout, w.now + TIME_WAIT_DELAY);
    SendsAhead(w1, last, PlainPacket(w.site, ACK, !p.toServer, ep), c.offer);
    FinAnsweredAhead(Sent(w1, PlainPacket(w.site, ACK, !p.toServer, ep), c.offer), last, p.toServer, c);
  }

  lemma ArrivalAhead(w: World, last: Due, p: Packet, c: Choice)
    requires Ahead(w, last) && c.offer.arrival >= w.now && c.offer2.arrival >= w.now
    ensures Ahead(OnArrival(w, p, c), last)
  {
    if p.at != Home(w.site, p.toServer) {
      SendsAhead(w, last, p, c.offer);
    } else {
      match p.kind {
        case SYN => SynAhead(w, last, p, c);
        case SYN_ACK => SynAhead(w, last, p, c);
        case ACK => AckAhead(w, last, p);
        case DATA => DataAhead(w, last, p, c);
        case FIN => FinAhead(w, last, p, c);
        case RST =>
      }
    }
  }

  lemma ContinuedAhead(w: World, last: Due, seqNo: u32, first: bool)
    requires Ahead(w, last)
    ensures Ahead(Continued(w, seqNo, first), last)
  {
    TimerTakesTime(w.client);
    var w1 := if first then Scheduled(w, Timeout(seqNo), Rto(w.client)) else w;
    SchedulesAhead(w, last, Timeout(seqNo), w.now + Rto(w.client));
    SchedulesAhead(w1, last, Generate, w.now);
  }

  lemma GenerateAhead(w: World, last: Due, c: Choice)
    requires Ahead(w, last) && c.offer.arrival >= w.now
    ensures Ahead(OnGenerate(w, c), last)
  {
    var w1 := Sent(w, DataPacket(w.site, w.client.seqNum, w.client.expectedAck, c.payload), c.offer);
    SendsAhead(w, last, DataPacket(w.site, w.client.seqNum, w.client.expectedAck, c.payload), c.offer);
    SameQueueAhead(w1, Queued(w1, c.payload), last);
    ContinuedAhead(Queued(w1, c.payload), last, w.client.seqNum, w.client.sendBuffer == []);
  }

  lemma DelayedAckAhead(w: World, last: Due, atServer: bool, number: u32, c: Choice)
    requires Ahead(w, last) && c.offer.arrival >= w.now
    ensures Ahead(OnDelayedAck(w, atServer, number, c), last)
  {
    var ep := Session.End(w, atServer);
    var w1 := WithEnd(w, atServer, ep.(delayedAck := false));
    SendsAhead(w1, last, PlainPacket(w.site, ACK, !atServer, ep), c.offer);
  }

  lemma ClientAhead(w: World, last: Due, client: Endpoint)
    requires Ahead(w, last) && Sane(client.timer)
    ensures Ahead(w.(client := client), last)
  {
  }

  lemma TimeoutAhead(w: World, last: Due, seqNo: u32)
    requires Ahead(w, last)
    ensures Ahead(OnTimeout(w, seqNo), last)
  {
    ClientAhead(w, last, FailRetransmission(w.client));
    ClientAhead(w, last, SendTimeout(w.client));
    SchedulesAhead(w.(client := SendTimeout(w.client)), last, Retransmission(seqNo), w.now);
  }

  lemma ResentAhead(w: World, last: Due, seqNo: u32, c: Choice)
    requires Ahead(w, last) && c.offer.arrival >= w.now
    ensures Ahead(Resent(w, seqNo, c), last)
  {
    var i := SB.Find(w.client.sendBuffer, seqNo);
    if i < |w.client.sendBuffer| {
      var e := w.client.sendBuffer[i];
      var packet := DataPacket(w.site, seqNo, e.ack, e.payload);
      var w1 := w.(client := MarkRetransmitted(w.client, seqNo, w.now), log := w.log + [Transmission(seqNo, w.now)]);
      SameQueueAhead(w, w1, last);
      SendsAhead(w1, last, packet, c.offer);
      TimerTakesTime(w1.client);
      SchedulesAhead(Sent(w1, packet, c.offer), last, Timeout(seqNo), w.now + Rto(w1.client));
    }
  }

  lemma RetransmissionsAhead(w: World, last: Due, seqNo: u32, c: Choice)
    requires Ahead(w, last) && c.offer.arrival >= w.now
    ensures Ahead(OnRetransmission(w, seqNo, c), last) && Ahead(OnFastRetransmission(w, c), last)
  {
    ClientAhead(w, last, FailRetransmission(w.client));
    ResentAhead(w, last, seqNo, c);
    if w.client.sendBuffer != [] {
      var client := w.client.(congestion := CC.OnFastRetransmit(w.client.congestion, FlightSize(w.client)));
      ClientAhead(w, last, client);
      ResentAhead(w.(client := client), last, w.client.sendBuffer[0].seqNo, c);
    }
  }

  lemma ClosesAhead(w: World, last: Due, c: Choice)
    requires Ahead(w, last) && c.offer.arrival >= w.now
    ensures Ahead(OnClose(w, c), last) && Ahead(OnTimeWaitTimeout(w), last)
  {
    var out := SendFin(w.client);
    ClientAhead(w, last, out.ep);
    SendsAhead(w.(client := out.ep), last, PlainPacket(w.site, FIN, true, out.ep), c.offer);
    ClientAhead(w, last, ExpireTimeWait(w.client).ep);
  }

  /** Every event body schedules at or after the time it runs, with identifiers not used before. */
  lemma BodiesScheduleAhead(w: World, last: Due, e: Event, c: Choice)
    requires Ahead(w, last) && c.offer.arrival >= w.now && c.offer2.arrival >= w.now
    ensures Ahead(Execute(w, e, c), last)
  {
    match e
    case Arrival(p) => ArrivalAhead(w, last, p, c);
    case Handshake => HandshakeAhead(w, last, c);
    case HandshakeTimeout => HandshakeTimeoutAhead(w, last, c);
    case Generate => GenerateAhead(w, last, c);
    case DelayedAck(atServer, number) => DelayedAckAhead(w, last, atServer, number, c);
    case Timeout(seqNo) => TimeoutAhead(w, last, seqNo);
    case Retransmission(seqNo) => RetransmissionsAhead(w, last, seqNo, c);
    case FastRetransmission => RetransmissionsAhead(w, last, 0, c);
    case Close => ClosesAhead(w, last, c);
    case TimeWaitTimeout => ClosesAhead(w, last, c);
  }

  // ---- runs ----

  lemma PoppedAhead(w: World)
    requires OnTime(w) && w.pending != []
    ensures Ahead(Popped(w), w.pending[0])
  {
    var rest := w.pending[1..];
    assert w.pending[0] in w.pending;
    assert forall i :: 0 <= i < |rest| ==> rest[i] == w.pending[i + 1] && rest[i] in w.pending;
  }

  lemma PoppedStaysAhead(w: World, last: Due)
    requires Ahead(w, last) && w.pending != []
    ensures Ahead(Popped(w), last)
  {
    assert w.pending[0] in w.pending;
    PoppedAhead(w);
  }

  lemma FiredAhead(w: World, c: Choice)
    requires OnTime(w) && Enabled(w, c)
    ensures Ahead(Step(w, c), w.pending[0])
  {
    PoppedAhead(w);
    BodiesScheduleAhead(Popped(w), w.pending[0], w.pending[0].event, c);
  }

  lemma StepKeepsAhead(w: World, last: Due, c: Choice)
    requires Ahead(w, last)
    ensures Ahead(Step(w, c), last)
  {
    if Enabled(w, c) {
      PoppedStaysAhead(w, last);
      BodiesScheduleAhead(Popped(w), last, w.pending[0].event, c);
    }
  }

  lemma {:induction false} RunOnTime(site: Site, serverState: TS.State, choices: seq<Choice>)
    ensures OnTime(Run(Session.Start(site, serverState), choices))
  {
    if choices != [] {
      var before := choices[..|choices| - 1];
      RunOnTime(site, serverState, before);
      if Enabled(Run(Session.Start(site, serverState), before), choices[|choices| - 1]) {
        FiredAhead(Run(Session.Start(site, serverState), before), choices[|choices| - 1]);
      }
    }
  }

  /** The event the i-th choice of a run executes, if any. */
  function Fired(w: World, choices: seq<Choice>, i: nat): Option<Due>
    requires i < |choices|
  {
    var before := Run(w, choices[..i]);
    if Enabled(before, choices[i]) then Some(before.pending[0]) else None
  }

  lemma {:induction false} LaterIsAhead(site: Site, serverState: TS.State, choices: seq<Choice>, i: nat, j: nat)
    requires i < j <= |choices| && Fired(Session.Start(site, serverState), choices, i).Some?
    ensures Ahead(Run(Session.Start(site, serverState), choices[..j]), Fired(Session.Start(site, serverState), choices, i).value)
    decreases j
  {
    var w, last := Session.Start(site, serverState), Fired(Session.Start(site, serverState), choices, i).value;
    assert choices[..j][..j - 1] == choices[..j - 1];
    if j == i + 1 {
      RunOnTime(site, serverState, choices[..i]);
      FiredAhead(Run(w, choices[..i]), choices[i]);
    } else {
      LaterIsAhead(site, serverState, choices, i, j - 1);
      StepKeepsAhead(Run(w, choices[..j - 1]), last, choices[j - 1]);
    }
  }

  /**
    Main result: whatever the network does and whatever the round trips are, a session's events run strictly in
    the order of their times and identifiers, nothing is ever due in the past, and the clock never goes back.
   */
  lemma {:induction false} SessionRunsInOrder(site: Site, serverState: TS.State, choices: seq<Choice>, i: nat, j: nat)
    requires i < j < |choices|
    ensures var w := Session.Start(site, serverState);
      && (Fired(w, choices, i).Some? && Fired(w, choices, j).Some? ==>
            EventQueues.Earlier(Fired(w, choices, i).value, Fired(w, choices, j).value))
      && (forall x :: x in Run(w, choices[..j]).pending ==> x.time >= Run(w, choices[..j]).now)
      && (Fired(w, choices, i).Some? ==> Fired(w, choices, i).value.time <= Run(w, choices[..j]).now)
  {
    RunOnTime(site, serverState, choices[..j]);
    if Fired(Session.Start(site, serverState), choices, i).Some? {
      LaterIsAhead(site, serverState, choices, i, j);
      var w' := Run(Session.Start(site, serverState), choices[..j]);
      if w'.pending != [] { assert w'.pending[0] in w'.pending; }
    }
  }
}
