/**
  Fast retransmission over whole runs: each end counts exactly the acknowledgements that repeat its SND.UNA, the third
  in a row schedules the resend, and the resend puts the oldest stored segment on the wire.
 */
module SessionDuplicates {
  import opened Common
  import opened Word32
  import opened Connection
  import opened Session
  import opened SessionDeeds
  import opened SessionHistory
  import EventQueues
  import TS = TcpState
  import SB = SendBuffer
  import CC = CongestionControl
  import RT = RetransmissionTimer

  /** The end stands where it stood: established, nothing acknowledged and nothing queued since. */
  predicate Stands(ep: Endpoint, ep': Endpoint)
  {
    ep.state.ESTABLISHED? && ep'.state.ESTABLISHED? && ep'.unacknowledged == ep.unacknowledged && ep'.seqNum == ep.seqNum
  }

  /**
    How many acknowledgements have repeated SND.UNA since SND.UNA or SND.NXT last moved, counting anew after every
    third.
   */
  function Repeated(w: World, choices: seq<Choice>, server: bool): nat
  {
    if choices == [] then 0
    else
      var before, c := choices[..|choices| - 1], choices[|choices| - 1];
      var w1 := Run(w, before);
      if !Stands(Session.End(w1, server), Session.End(Step(w1, c), server)) then 0
      else if Enabled(w1, c) && Repeats(w1, server) then (if Repeated(w, before, server) == 2 then 0 else Repeated(w, before, server) + 1)
      else Repeated(w, before, server)
  }

  /** The event about to fire is the third repetition. */
  predicate Third(w: World, choices: seq<Choice>, server: bool)
  {
    Repeats(Run(w, choices), server) && Repeated(w, choices, server) == 2
  }

  /** An established end has seen SND.UNA so many times more; no end is left with three. */
  ghost predicate Counts(ep: Endpoint, n: nat)
  {
    && ep.detector.duplicates <= 2
    && (ep.state.ESTABLISHED? ==> n <= 2 && ep.detector == SB.Detector(ep.unacknowledged, n, true))
  }

  /** The part of an end the count is about. */
  ghost predicate SameCount(ep: Endpoint, ep': Endpoint)
  {
    ep'.detector == ep.detector && ep'.unacknowledged == ep.unacknowledged && ep'.seqNum == ep.seqNum
    && (ep'.state.ESTABLISHED? ==> ep.state.ESTABLISHED?)
  }

  /** A count starts when an end becomes established, queues a segment or takes an acknowledgement. */
  ghost predicate FreshCount(ep: Endpoint, ep': Endpoint)
  {
    !Stands(ep, ep') && Counts(ep', 0)
  }

  /** What an event other than a repetition does to an end. */
  ghost predicate Recounts(ep: Endpoint, ep': Endpoint) { SameCount(ep, ep') || FreshCount(ep, ep') }

  // ---- acknowledgements ----

  /** What an acknowledgement does to an end that has counted n. */
  lemma AckCounts(ep: Endpoint, n: nat, ack: u32, now: real)
    requires Counts(ep, n)
    ensures var ep' := AckedEnd(ep, ack, now);
      if ep.state.ESTABLISHED? && ack == ep.unacknowledged <= ep.seqNum
      then Stands(ep, ep') && Counts(ep', if n == 2 then 0 else n + 1) else Recounts(ep, ep')
    ensures SB.ShouldFastRetransmit(Acknowledging(ep, ack, now).ep.detector) <==>
      ep.state.ESTABLISHED? && ack == ep.unacknowledged <= ep.seqNum && n == 2
  {
  }

  // ---- other events ----

  lemma SynAckCounts(ep: Endpoint, seqNo: u32, ack: u32)
    requires ep.detector.duplicates <= 2
    ensures Recounts(ep, ReceiveSynAck(ep, seqNo, ack).ep)
  {
  }

  /** Neither end's count is touched. */
  ghost predicate SameCounts(w: World, w': World) { SameCount(w.client, w'.client) && SameCount(w.server, w'.server) }

  lemma DataReactionsCount(w: World, toServer: bool, inOrder: bool, c: Choice)
    ensures SameCounts(w, DataReactions(w, toServer, inOrder, c))
  {
  }

  lemma DataTakenCounts(w: World, p: Packet)
    ensures SameCounts(w, DataTaken(w, p))
  {
  }

  lemma SameCountsThen(w: World, w1: World, w2: World)
    requires SameCounts(w, w1) && SameCounts(w1, w2)
    ensures SameCounts(w, w2)
  {
  }

  lemma DataCounts(w: World, p: Packet, c: Choice)
    ensures SameCounts(w, OnData(w, p, c))
  {
    DataTakenCounts(w, p);
    DataReactionsCount(DataTaken(w, p), p.toServer, p.seqNo == Session.End(w, p.toServer).expectedAck, c);
    SameCountsThen(w, DataTaken(w, p), DataReactions(DataTaken(w, p), p.toServer, p.seqNo == Session.End(w, p.toServer).expectedAck, c));
  }

  lemma FinReactionsCount(w: World, toServer: bool, c: Choice)
    ensures SameCounts(w, FinReactions(w, toServer, c))
  {
    var w1 := FinAcked(w, toServer, c);
    assert w1.client == w.client && w1.server == w.server;
    var fin := SendFin(Session.End(w1, toServer)).ep;
    assert SameCount(Session.End(w1, toServer), fin);
  }

  lemma FinCounts(w: World, p: Packet, c: Choice)
    ensures SameCounts(w, OnFin(w, p, c))
  {
    var out := ReceiveFin(Session.End(w, p.toServer), p.seqNo);
    var w1 := WithEnd(w, p.toServer, out.ep);
    FinReactionsCount(w1, p.toServer, c);
    assert SameCounts(w, w1);
    SameCountsThen(w, w1, FinReactions(w1, p.toServer, c));
  }

  lemma SynCounts(w: World, p: Packet, c: Choice)
    ensures SameCounts(w, OnSyn(w, p, c))
  {
  }

  lemma OnSynAckCounts(w: World, p: Packet, c: Choice)
    requires w.client.detector.duplicates <= 2
    ensures Recounts(w.client, OnSynAck(w, p, c).client) && OnSynAck(w, p, c).server == w.server
  {
    SynAckCounts(w.client, p.seqNo, p.ack);
  }

  lemma OtherArrivalCounts(w: World, c: Choice, server: bool, n: nat)
    requires Enabled(w, c) && w.pending[0].event.Arrival? && !AckReaches(w, server) && Counts(Session.End(w, server), n)
    ensures Recounts(Session.End(w, server), Session.End(Step(w, c), server))
  {
    var w1, p := Popped(w), w.pending[0].event.packet;
    if AckReaches(w, !server) { AckEnds(w, !server, c); }
    else if p.at == Home(w1.site, p.toServer) {
      match p.kind {
        case SYN => SynCounts(w1, p, c);
        case SYN_ACK => if server { OnSynAckServer(w1, p, c); } else { OnSynAckCounts(w1, p, c); }
        case DATA => DataCounts(w1, p, c);
        case FIN => FinCounts(w1, p, c);
        case _ =>
      }
    }
  }

  lemma OnSynAckServer(w: World, p: Packet, c: Choice)
    ensures OnSynAck(w, p, c).server == w.server
  {
  }

  lemma GenerateCounts(w: World, c: Choice)
    requires w.client.detector.duplicates <= 2 && c.payload != []
    ensures Recounts(w.client, OnGenerate(w, c).client) && OnGenerate(w, c).server == w.server
  {
    var packet := DataPacket(w.site, w.client.seqNum, w.client.expectedAck, c.payload);
    if BothEstablished(w) && w.sent != w.total && CanSend(w.client, |c.payload|) && Taken(w, packet, c.offer) {
      QueuedCounts(Sent(w, packet, c.offer), c.payload);
    }
  }

  /** A segment queued moves SND.NXT, for it is not empty and no longer than the window. */
  lemma QueuedCounts(w: World, payload: seq<byte>)
    requires payload != [] && CanSend(w.client, |payload|)
    ensures FreshCount(w.client, Queued(w, payload).client)
  {
    assert 1 <= |payload| <= w.client.window < 0x1_0000_0000;
    assert Wrap(w.client.seqNum + |payload|) != w.client.seqNum;
  }

  lemma FailureCounts(ep: Endpoint)
    requires ep.detector.duplicates <= 2
    ensures Recounts(ep, FailRetransmission(ep))
  {
  }

  lemma TimeoutCounts(ep: Endpoint, ep': Endpoint)
    requires ep.detector.duplicates <= 2 && (ep' == ep || ep' == SendTimeout(ep) || ep' == FailRetransmission(ep))
    ensures Recounts(ep, ep')
  {
    FailureCounts(ep);
  }

  lemma ResendCounts(w: World, e: Event, c: Choice)
    requires (e.Timeout? || e.Retransmission? || e.FastRetransmission?) && w.client.detector.duplicates <= 2
    ensures Recounts(w.client, Execute(w, e, c).client)
  {
    match e
    case Timeout(seqNo) =>
      TimeoutControl(w, seqNo);
      TimeoutCounts(w.client, OnTimeout(w, seqNo).client);
    case Retransmission(seqNo) =>
      ResendKeeps(w, seqNo, c);
      FailureCounts(w.client);
    case FastRetransmission =>
      FastControl(w, c);
      FailureCounts(w.client);
  }

  lemma HandshakeCounts(w: World, e: Event, c: Choice)
    requires (e.Handshake? || e.HandshakeTimeout?) && w.client.detector.duplicates <= 2
    ensures Recounts(w.client, Execute(w, e, c).client) && Execute(w, e, c).server == w.server
  {
  }

  lemma QuietCounts(w: World, e: Event, c: Choice)
    requires e.DelayedAck? || e.Close? || e.TimeWaitTimeout?
    ensures SameCounts(w, Execute(w, e, c))
  {
  }

  lemma GenerateServer(w: World, c: Choice)
    ensures OnGenerate(w, c).server == w.server
  {
  }

  lemma FiredServer(w: World, e: Event, c: Choice)
    requires !e.Arrival? && !e.DelayedAck?
    ensures Execute(w, e, c).server == w.server
  {
    if e.Generate? { GenerateServer(w, c); }
    if e.Retransmission? { ResendKeeps(w, e.seqNo, c); }
    if e.FastRetransmission? && w.client.sendBuffer != [] {
      var client := w.client.(congestion := CC.OnFastRetransmit(w.client.congestion, FlightSize(w.client)));
      ResendKeeps(w.(client := client), w.client.sendBuffer[0].seqNo, c);
    }
  }

  lemma FiredCounts(w: World, c: Choice, server: bool, n: nat)
    requires Enabled(w, c) && !w.pending[0].event.Arrival? && Counts(Session.End(w, server), n)
    ensures Recounts(Session.End(w, server), Session.End(Step(w, c), server))
  {
    var w1, e := Popped(w), w.pending[0].event;
    if e.DelayedAck? || e.Close? || e.TimeWaitTimeout? { QuietCounts(w1, e, c); }
    else if server { FiredServer(w1, e, c); }
    else if e.Generate? { GenerateCounts(w1, c); }
    else if e.Handshake? || e.HandshakeTimeout? { HandshakeCounts(w1, e, c); }
    else { ResendCounts(w1, e, c); }
  }

  // ---- every run ----

  lemma StepCounts(w: World, c: Choice, server: bool, n: nat)
    requires Enabled(w, c) && Counts(Session.End(w, server), n)
    ensures var ep, ep' := Session.End(w, server), Session.End(Step(w, c), server);
      if Repeats(w, server) then Stands(ep, ep') && Counts(ep', if n == 2 then 0 else n + 1) else Recounts(ep, ep')
  {
    if AckReaches(w, server) {
      AckEnds(w, server, c);
      AckCounts(Session.End(w, server), n, AckNumber(w, server), w.pending[0].time);
    } else if w.pending[0].event.Arrival? {
      OtherArrivalCounts(w, c, server, n);
    } else {
      FiredCounts(w, c, server, n);
    }
  }

  /**
    Main result: in every run the detector of an established end has counted exactly the acknowledgements that
    repeated its SND.UNA since SND.UNA or SND.NXT last moved, counting anew after every third.
   */
  lemma {:induction false} DuplicatesAreCounted(site: Site, serverState: TS.State, choices: seq<Choice>, server: bool)
    requires serverState.CLOSED? || serverState.LISTEN?
    ensures var w0 := Session.Start(site, serverState);
      Counts(Session.End(Run(w0, choices), server), Repeated(w0, choices, server))
  {
    if choices != [] {
      var w0, before, c := Session.Start(site, serverState), choices[..|choices| - 1], choices[|choices| - 1];
      DuplicatesAreCounted(site, serverState, before, server);
      var w := Run(w0, before);
      if Enabled(w, c) { StepCounts(w, c, server, Repeated(w0, before, server)); }
    }
  }

  // ---- the third sets off a fast retransmission ----

  predicate IsFast(e: Event) { e.FastRetransmission? }

  /** Fast retransmissions waiting. */
  function Fasts(q: seq<EventQueues.Timed<Event>>): nat { Waiting(q, IsFast) }

  lemma AckAsks(w: World, p: Packet)
    ensures Asks(AckDeeds(w, p), IsFast)
         == if SB.ShouldFastRetransmit(Acknowledging(Session.End(w, p.toServer), p.ack, w.now).ep.detector) then 1 else 0
  {
    var out := Acknowledging(Session.End(w, p.toServer), p.ack, w.now);
    var w1 := WithEnd(w, p.toServer, out.ep);
    ReactionAsks(w1, p.toServer, out.ok);
    assert Session.End(w1, p.toServer) == out.ep;
    NoneAsked(AdvanceDeeds(w1), IsFast);
    AsksThen(ReactionDeeds(w1, p.toServer, out.ok), AdvanceDeeds(w1), IsFast);
  }

  lemma ReactionAsks(w: World, toServer: bool, advanced: bool)
    ensures Asks(ReactionDeeds(w, toServer, advanced), IsFast)
         == if SB.ShouldFastRetransmit(Session.End(w, toServer).detector) then 1 else 0
  {
    var ep := Session.End(w, toServer);
    var b, t := advanced && Oldest(ep).Some?, Times(Timeout(if Oldest(ep).Some? then Oldest(ep).value else 0), Rto(ep));
    AsksWhen(b, t, IsFast);
    AsksWhen(SB.ShouldFastRetransmit(ep.detector), Times(FastRetransmission, 0.0), IsFast);
    AsksThen(When(b, t), When(SB.ShouldFastRetransmit(ep.detector), Times(FastRetransmission, 0.0)), IsFast);
  }

  lemma OthersAskNothing(w: World, e: Event, c: Choice)
    requires !(e.Arrival? && e.packet.kind.ACK? && e.packet.at == Home(w.site, e.packet.toServer))
    ensures AsksNo(Deeds(w, e, c), IsFast)
  {
    match e
    case Arrival(p) => if p.at == Home(w.site, p.toServer) && p.kind.FIN? { FinAsksNothing(w, p, c); }
    case Generate => GenerateAsksNothing(w, c);
    case Retransmission(seqNo) => ResendAsksNothing(w, seqNo, c);
    case FastRetransmission => if w.client.sendBuffer != [] { ResendAsksNothing(w, w.client.sendBuffer[0].seqNo, c); }
    case _ =>
  }

  lemma FinAsksNothing(w: World, p: Packet, c: Choice)
    ensures AsksNo(FinDeeds(w, p, c), IsFast)
  {
  }

  lemma GenerateAsksNothing(w: World, c: Choice)
    ensures AsksNo(GenerateDeeds(w, c), IsFast)
  {
  }

  lemma ResendAsksNothing(w: World, seqNo: u32, c: Choice)
    ensures AsksNo(ResendDeeds(w, seqNo, c), IsFast)
  {
  }

  /** An event schedules a fast retransmission exactly if it is an acknowledgement that fills a detector. */
  lemma StepAsks(w: World, c: Choice)
    requires Enabled(w, c)
    ensures Fasts(Step(w, c).pending) == Fasts(w.pending[1..])
      + if exists server: bool :: AckReaches(w, server)
             && SB.ShouldFastRetransmit(Acknowledging(Session.End(w, server), AckNumber(w, server), w.pending[0].time).ep.detector)
        then 1 else 0
  {
    var w1, e := Popped(w), w.pending[0].event;
    StepWaiting(w, c, IsFast);
    if e.Arrival? && e.packet.kind.ACK? && e.packet.at == Home(w.site, e.packet.toServer) {
      assert AckReaches(w, e.packet.toServer);
      AckAsks(w1, e.packet);
    } else {
      OthersAskNothing(w1, e, c);
      NoneAsked(Deeds(w1, e, c), IsFast);
    }
  }

  /**
    Main result: in every run, an event puts one fast retransmission into the queue if it is the third repetition of
    SND.UNA at an established end, and none otherwise.
   */
  lemma {:induction false} ThirdResends(site: Site, serverState: TS.State, choices: seq<Choice>, c: Choice)
    requires serverState.CLOSED? || serverState.LISTEN?
    requires Enabled(Run(Session.Start(site, serverState), choices), c)
    ensures var w0 := Session.Start(site, serverState); var w := Run(w0, choices);
      Fasts(Step(w, c).pending) == Fasts(w.pending[1..]) + if Third(w0, choices, false) || Third(w0, choices, true) then 1 else 0
  {
    var w0 := Session.Start(site, serverState);
    var w := Run(w0, choices);
    StepAsks(w, c);
    forall server: bool | AckReaches(w, server)
      ensures SB.ShouldFastRetransmit(Acknowledging(Session.End(w, server), AckNumber(w, server), w.pending[0].time).ep.detector)
              <==> Third(w0, choices, server)
    {
      DuplicatesAreCounted(site, serverState, choices, server);
      AckCounts(Session.End(w, server), Repeated(w0, choices, server), AckNumber(w, server), w.pending[0].time);
    }
  }

  // ---- the resend ----

  /** The stored segment whose resend is about to run, if it may be sent again. */
  predicate ResendDue(w: World, i: nat)
  {
    && w.pending != [] && w.client.state.ESTABLISHED? && i < |w.client.sendBuffer|
    && CanRetransmit(w.client, w.client.sendBuffer[i].seqNo)
    && match w.pending[0].event
       case FastRetransmission => i == 0
       case Retransmission(seqNo) => i == SB.Find(w.client.sendBuffer, seqNo)
       case _ => false
  }

  /** The segment as it was stored. */
  function Copy(w: World, i: nat): Packet
    requires i < |w.client.sendBuffer|
  {
    var e := w.client.sendBuffer[i];
    Packet(true, DATA, e.seqNo, e.ack, e.payload, w.site.client)
  }

  /** It is on its way to the next hop, its timer runs, and its entry remembers the resend; no other entry changes. */
  ghost predicate GoesOut(w: World, w': World, i: nat, arrival: real)
    requires i < |w.client.sendBuffer|
  {
    var e := w.client.sendBuffer[i];
    && e.count < MAX_DATA_RETRANSMISSIONS
    && EventQueues.Timed(arrival, w.nextId, Arrival(Copy(w, i).(at := NextNode(w.site, Copy(w, i))))) in w'.pending
    && EventQueues.Timed(w'.now + Rto(w'.client), w.nextId + 1, Timeout(e.seqNo)) in w'.pending
    && w'.client.sendBuffer == w.client.sendBuffer[i := e.(sentAt := w'.now, retransmitted := true, count := e.count + 1)]
    && w'.log == w.log + [Transmission(e.seqNo, w'.now)]
  }

  /** Main result: a resend that is due puts the segment on the wire if the network takes it; a fast one, the oldest. */
  lemma DueResendGoesOut(w: World, c: Choice, i: nat)
    requires Enabled(w, c) && ResendDue(w, i) && Taken(w, Copy(w, i), c.offer)
    ensures GoesOut(w, Step(w, c), i, c.offer.arrival)
  {
    var w1, w' := Popped(w), Step(w, c);
    if w.pending[0].event.Retransmission? {
      RetransmissionGoesOut(w1, w.pending[0].event.seqNo, c);
    } else {
      FastGoesOut(w1, c);
    }
    PoppedGoesOut(w, w', i, c.offer.arrival);
  }

  lemma PoppedGoesOut(w: World, w': World, i: nat, arrival: real)
    requires w.pending != [] && i < |w.client.sendBuffer| && GoesOut(Popped(w), w', i, arrival)
    ensures GoesOut(w, w', i, arrival)
  {
    assert Copy(Popped(w), i) == Copy(w, i);
  }

  lemma RetransmissionGoesOut(w: World, seqNo: u32, c: Choice)
    requires w.client.state.ESTABLISHED? && SB.Find(w.client.sendBuffer, seqNo) < |w.client.sendBuffer| && CanRetransmit(w.client, seqNo)
    requires Taken(w, Copy(w, SB.Find(w.client.sendBuffer, seqNo)), c.offer)
    ensures GoesOut(w, OnRetransmission(w, seqNo, c), SB.Find(w.client.sendBuffer, seqNo), c.offer.arrival)
  {
    ResentGoesOut(w, c, SB.Find(w.client.sendBuffer, seqNo));
  }

  lemma FastGoesOut(w: World, c: Choice)
    requires w.client.state.ESTABLISHED? && w.client.sendBuffer != [] && CanRetransmit(w.client, w.client.sendBuffer[0].seqNo)
    requires Taken(w, Copy(w, 0), c.offer)
    ensures GoesOut(w, OnFastRetransmission(w, c), 0, c.offer.arrival)
  {
    var w1 := w.(client := w.client.(congestion := CC.OnFastRetransmit(w.client.congestion, FlightSize(w.client))));
    FirstFound(w.client.sendBuffer);
    assert OnFastRetransmission(w, c) == Resent(w1, w.client.sendBuffer[0].seqNo, c);
    ResentGoesOut(w1, c, 0);
    WindowGoesOut(w, w1, OnFastRetransmission(w, c), c.offer.arrival);
  }

  /** The window has no part in it. */
  lemma WindowGoesOut(w: World, w1: World, w': World, arrival: real)
    requires w.client.sendBuffer != [] && w1 == w.(client := w.client.(congestion := w1.client.congestion)) && GoesOut(w1, w', 0, arrival)
    ensures GoesOut(w, w', 0, arrival)
  {
    assert Copy(w1, 0) == Copy(w, 0);
  }

  lemma FirstFound(entries: seq<SB.Entry>)
    requires entries != []
    ensures SB.Find(entries, entries[0].seqNo) == 0
  {
  }

  lemma ResentGoesOut(w: World, c: Choice, i: nat)
    requires i < |w.client.sendBuffer| && i == SB.Find(w.client.sendBuffer, w.client.sendBuffer[i].seqNo)
    requires CanRetransmit(w.client, w.client.sendBuffer[i].seqNo) && Taken(w, Copy(w, i), c.offer)
    ensures GoesOut(w, Resent(w, w.client.sendBuffer[i].seqNo, c), i, c.offer.arrival)
  {
    var seqNo := w.client.sendBuffer[i].seqNo;
    var w1 := w.(client := MarkRetransmitted(w.client, seqNo, w.now), log := w.log + [Transmission(seqNo, w.now)]);
    assert Copy(w, i) == DataPacket(w.site, seqNo, w.client.sendBuffer[i].ack, w.client.sendBuffer[i].payload);
    assert Resent(w, seqNo, c) == Scheduled(Sent(w1, Copy(w, i), c.offer), Timeout(seqNo), Rto(w1.client));
  }
}
