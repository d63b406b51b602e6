/**
  A segment that is neither sent again nor given up: over the same path of two links, the relay loses the only segment
  and the client's own link refuses its resend. No timer follows a resend that is refused, so the session stops with the
  segment stored and both ends established.
 */
module SessionStranded {
  import opened Common
  import opened Word32
  import opened Connection
  import opened Session
  import opened SessionBatch
  import opened SessionDeeds
  import opened SessionHistory
  import opened SessionPath
  import opened SessionResults
  import opened SessionSafety
  import EventQueues
  import opened SessionWaves
  import SW = SessionWitness
  import SA = SessionBackoff
  import TS = TcpState
  import SB = SendBuffer
  import CC = CongestionControl

  predicate IsGuard(e: Event) { e.Timeout? || e.Retransmission? }

  // ---- no more timers than segments and resends ----

  function Resends(entries: seq<SB.Entry>): nat
  {
    if entries == [] then 0 else entries[0].count + Resends(entries[1..])
  }

  lemma {:induction false} ResendsMarked(entries: seq<SB.Entry>, seqNo: u32, now: real)
    requires SB.Contains(entries, seqNo) && entries[SB.Find(entries, seqNo)].count < MAX_WORD
    ensures Resends(SB.MarkedAt(entries, seqNo, now)) == Resends(entries) + 1
  {
    var i, marked := SB.Find(entries, seqNo), SB.MarkedAt(entries, seqNo, now);
    if i == 0 {
      assert marked[1..] == entries[1..];
    } else {
      ResendsMarked(entries[1..], seqNo, now);
      assert marked[1..] == SB.MarkedAt(entries[1..], seqNo, now);
    }
  }

  lemma {:induction false} ResendsAppend(entries: seq<SB.Entry>, e: SB.Entry)
    ensures Resends(entries + [e]) == Resends(entries) + e.count
  {
    if entries == [] {
      assert [e][1..] == [] && entries + [e] == [e];
    } else {
      ResendsAppend(entries[1..], e);
      assert (entries + [e])[1..] == entries[1..] + [e];
    }
  }

  /** While nothing has been acknowledged, one timer for the first segment and one for every resend. */
  ghost predicate FewGuards(w: World)
  {
    && (Idle(w) || Opening(w) ==> Waiting(w.pending, IsGuard) == 0)
    && (w.client.state.ESTABLISHED? && w.client.unacknowledged == w.stream.base ==>
          Waiting(w.pending, IsGuard) <= (if w.client.sendBuffer == [] then 0 else 1) + Resends(w.client.sendBuffer))
  }

  lemma OpeningAsksNoGuard(w: World, c: Choice)
    requires (Idle(w) || Opening(w)) && Enabled(w, c)
    ensures Asks(Deeds(Popped(w), w.pending[0].event, c), IsGuard) == 0 && Step(w, c).client.sendBuffer == []
  {
    assert w.pending[0] in w.pending;
    NoneAsked(Deeds(Popped(w), w.pending[0].event, c), IsGuard);
  }

  lemma WaitingTail(q: seq<Due>, kind: Event -> bool)
    requires q != []
    ensures Waiting(q[1..], kind) == Waiting(q, kind) - if kind(q[0].event) then 1 else 0
  {
  }

  /** An event of the data phase asks for a guard only in place of one, for a first segment, or with a resend. */
  ghost predicate Balanced(w: World, w': World, e: Event, asked: nat)
  {
    w'.client.state.ESTABLISHED? && w'.client.unacknowledged == w.client.unacknowledged ==>
      && w'.stream.base == w.stream.base
      && asked + (if w.client.sendBuffer == [] then 0 else 1) + Resends(w.client.sendBuffer)
         <= (if IsGuard(e) then 1 else 0) + (if w'.client.sendBuffer == [] then 0 else 1) + Resends(w'.client.sendBuffer)
  }

  lemma AckAsksGuard(w: World, p: Packet)
    requires w.server.sendBuffer == []
    ensures Asks(AckDeeds(w, p), IsGuard) <= if !p.toServer && ReceiveAck(w.client, p.ack, w.now).ok then 1 else 0
  {
    var out := Acknowledging(Session.End(w, p.toServer), p.ack, w.now);
    var w1 := WithEnd(w, p.toServer, out.ep);
    var ep := Session.End(w1, p.toServer);
    var b, t := out.ok && Oldest(ep).Some?, Times(Timeout(if Oldest(ep).Some? then Oldest(ep).value else 0), Rto(ep));
    AsksWhen(b, t, IsGuard);
    AsksWhen(SB.ShouldFastRetransmit(ep.detector), Times(FastRetransmission, 0.0), IsGuard);
    AsksThen(When(b, t), When(SB.ShouldFastRetransmit(ep.detector), Times(FastRetransmission, 0.0)), IsGuard);
    NoneAsked(AdvanceDeeds(w1), IsGuard);
    AsksThen(ReactionDeeds(w1, p.toServer, out.ok), AdvanceDeeds(w1), IsGuard);
    if p.toServer { assert out.ep.sendBuffer == []; }
  }

  /** What an acknowledgement does to the client's store and SND.UNA. */
  lemma AckStore(ep: Endpoint, ack: u32, now: real)
    requires ep.state.ESTABLISHED?
    ensures var ep' := AckedEnd(ep, ack, now);
      if ReceiveAck(ep, ack, now).ok then ep'.unacknowledged > ep.unacknowledged
      else ep'.unacknowledged == ep.unacknowledged && ep'.sendBuffer == ep.sendBuffer
  {
  }

  lemma ArrivalBalanced(w: World, k: nat, c: Choice)
    requires OpenAt(w, k) && Enabled(w, c) && w.pending[0].event.Arrival?
    ensures Balanced(w, Step(w, c), w.pending[0].event, Asks(Deeds(Popped(w), w.pending[0].event, c), IsGuard))
  {
    var w1, p := Popped(w), w.pending[0].event.packet;
    assert w.pending[0] in w.pending && OpenEvent(w.pending[0].event);
    if AckReaches(w, p.toServer) {
      AckEnds(w, p.toServer, c);
      AckAsksGuard(w1, p);
      AckStream(w1, p);
      if !p.toServer { AckStore(w.client, p.ack, w1.now); }
    } else {
      OtherStore(w1, p, c);
      NoneAsked(ArrivalDeeds(w1, p, c), IsGuard);
    }
  }

  lemma AckStream(w: World, p: Packet)
    ensures OnAck(w, p).stream == w.stream
  {
  }

  ghost predicate SameStore(w: World, w': World) { w'.client.sendBuffer == w.client.sendBuffer && w'.stream == w.stream }

  lemma DataStore(w: World, p: Packet, c: Choice)
    ensures SameStore(w, OnData(w, p, c))
  {
  }

  lemma DataAsksNo(w: World, p: Packet, c: Choice)
    ensures AsksNo(DataDeeds(w, p, c), IsGuard)
  {
  }

  lemma SynStore(w: World, p: Packet, c: Choice)
    ensures SameStore(w, OnSyn(w, p, c))
    ensures w.client.state.ESTABLISHED? ==> OnSynAck(w, p, c) == w
  {
  }

  lemma OtherStore(w: World, p: Packet, c: Choice)
    requires w.client.state.ESTABLISHED? && !p.kind.FIN? && (p.kind.ACK? ==> p.at != Home(w.site, p.toServer))
    ensures SameStore(w, OnArrival(w, p, c)) && AsksNo(ArrivalDeeds(w, p, c), IsGuard)
  {
    if p.at == Home(w.site, p.toServer) {
      match p.kind {
        case SYN => SynStore(w, p, c);
        case SYN_ACK => SynStore(w, p, c);
        case DATA => DataStore(w, p, c); DataAsksNo(w, p, c);
        case _ =>
      }
    }
  }

  lemma GenerateBalanced(w: World, c: Choice)
    requires c.payload != []
    ensures Balanced(w, OnGenerate(w, c), Generate, Asks(GenerateDeeds(w, c), IsGuard))
  {
    var packet := DataPacket(w.site, w.client.seqNum, w.client.expectedAck, c.payload);
    MailsOne(Sends(packet, c.offer));
    if BothEstablished(w) && w.sent != w.total && CanSend(w.client, |c.payload|) {
      assert [Sends(packet, c.offer)][1..] == [];
      if Taken(w, packet, c.offer) {
        var client := QueueSent(w.client, w.client.seqNum, w.client.expectedAck, c.payload, w.now).ep;
        var a, b := When(w.client.sendBuffer == [], Times(Timeout(w.client.seqNum), Rto(client))), When(w.sent + 1 != w.total, Times(Generate, 0.0));
        AsksWhen(w.client.sendBuffer == [], Times(Timeout(w.client.seqNum), Rto(client)), IsGuard);
        AsksWhen(w.sent + 1 != w.total, Times(Generate, 0.0), IsGuard);
        AsksThen([Sends(packet, c.offer)], a, IsGuard);
        AsksThen([Sends(packet, c.offer)] + a, b, IsGuard);
        ResendsAppend(w.client.sendBuffer, SB.Entry(w.client.seqNum, w.client.expectedAck, c.payload, w.now, false, 0));
        GenerateStore(w, c);
      }
    }
  }

  lemma GenerateStore(w: World, c: Choice)
    requires BothEstablished(w) && w.sent != w.total && CanSend(w.client, |c.payload|) && c.payload != []
    requires Taken(w, DataPacket(w.site, w.client.seqNum, w.client.expectedAck, c.payload), c.offer)
    ensures var w' := OnGenerate(w, c);
      w'.client.sendBuffer == w.client.sendBuffer + [SB.Entry(w.client.seqNum, w.client.expectedAck, c.payload, w.now, false, 0)]
      && w'.stream.base == w.stream.base
  {
  }

  lemma ResendBalanced(w: World, seqNo: u32, c: Choice, e: Event)
    requires CanRetransmit(w.client, seqNo) && (e == Retransmission(seqNo) || e == FastRetransmission)
    ensures Balanced(w, Resent(w, seqNo, c), e, Asks(ResendDeeds(w, seqNo, c), IsGuard))
  {
    var i := SB.Find(w.client.sendBuffer, seqNo);
    if i < |w.client.sendBuffer| {
      var packet := DataPacket(w.site, seqNo, w.client.sendBuffer[i].ack, w.client.sendBuffer[i].payload);
      assert [Sends(packet, c.offer)][1..] == [];
      AsksWhen(Taken(w, packet, c.offer), Times(Timeout(seqNo), Rto(w.client)), IsGuard);
      AsksThen([Sends(packet, c.offer)], When(Taken(w, packet, c.offer), Times(Timeout(seqNo), Rto(w.client))), IsGuard);
      ResendsMarked(w.client.sendBuffer, seqNo, w.now);
    }
  }

  lemma FiredBalanced(w: World, k: nat, c: Choice)
    requires OpenAt(w, k) && Enabled(w, c) && !w.pending[0].event.Arrival?
    ensures Balanced(w, Step(w, c), w.pending[0].event, Asks(Deeds(Popped(w), w.pending[0].event, c), IsGuard))
  {
    var w1, e := Popped(w), w.pending[0].event;
    assert w.pending[0] in w.pending && OpenEvent(e);
    if e.Generate? {
      GenerateBalanced(w1, c);
    } else if e.Retransmission? || e.FastRetransmission? {
      ResendingBalanced(w1, e, c);
    } else if e.Timeout? {
      TimeoutControl(w1, e.seqNo);
      TimeoutAsks(w1, e.seqNo, c);
    } else {
      QuietBalanced(w1, e, c);
    }
  }

  lemma ResendingBalanced(w: World, e: Event, c: Choice)
    requires w.client.state.ESTABLISHED? && (e.Retransmission? || e.FastRetransmission?)
    ensures Balanced(w, Execute(w, e, c), e, Asks(Deeds(w, e, c), IsGuard))
  {
    if e.Retransmission? {
      if CanRetransmit(w.client, e.seqNo) { ResendBalanced(w, e.seqNo, c, e); }
    } else if w.client.sendBuffer != [] && CanRetransmit(w.client, w.client.sendBuffer[0].seqNo) {
      var w1 := w.(client := w.client.(congestion := CC.OnFastRetransmit(w.client.congestion, FlightSize(w.client))));
      ResendBalanced(w1, w.client.sendBuffer[0].seqNo, c, e);
      assert ResendDeeds(w1, w.client.sendBuffer[0].seqNo, c) == ResendDeeds(w, w.client.sendBuffer[0].seqNo, c);
    }
  }

  lemma TimeoutAsks(w: World, seqNo: u32, c: Choice)
    ensures Asks(Deeds(w, Timeout(seqNo), c), IsGuard) <= 1
  {
    var b := SB.Contains(w.client.sendBuffer, seqNo) && Oldest(w.client) == Some(seqNo) && CanRetransmit(w.client, seqNo)
             && w.client.state.ESTABLISHED?;
    AsksWhen(b, Times(Retransmission(seqNo), 0.0), IsGuard);
  }

  lemma QuietBalanced(w: World, e: Event, c: Choice)
    requires w.client.state.ESTABLISHED? && (e.HandshakeTimeout? || e.DelayedAck? || e.Close? || e.TimeWaitTimeout?)
    ensures Balanced(w, Execute(w, e, c), e, Asks(Deeds(w, e, c), IsGuard))
  {
    NoneAsked(Deeds(w, e, c), IsGuard);
  }

  /** SND.UNA never comes back to where the stream began. */
  lemma UnaStays(w: World, k: nat, c: Choice)
    requires OpenAt(w, k) && Enabled(w, c) && Step(w, c).client.state.ESTABLISHED?
    requires Step(w, c).client.unacknowledged == Step(w, c).stream.base
    ensures w.client.unacknowledged == w.stream.base && Step(w, c).stream.base == w.stream.base
  {
    var w1, e := Popped(w), w.pending[0].event;
    assert w.pending[0] in w.pending && OpenEvent(e);
    if e.Arrival? {
      if AckReaches(w, e.packet.toServer) {
        AckEnds(w, e.packet.toServer, c);
        AckStream(w1, e.packet);
        if !e.packet.toServer { AckStore(w.client, e.packet.ack, w1.now); }
      } else {
        OtherUna(w1, e.packet, c);
      }
    } else {
      FiredUna(w1, e, c);
    }
  }

  lemma OtherUna(w: World, p: Packet, c: Choice)
    requires w.client.state.ESTABLISHED? && !p.kind.FIN? && (p.kind.ACK? ==> p.at != Home(w.site, p.toServer))
    ensures OnArrival(w, p, c).client.unacknowledged == w.client.unacknowledged && OnArrival(w, p, c).stream == w.stream
  {
    OtherStore(w, p, c);
    if p.at == Home(w.site, p.toServer) {
      match p.kind {
        case SYN => SynUna(w, p, c);
        case SYN_ACK => SynStore(w, p, c);
        case DATA => DataUna(w, p, c);
        case _ =>
      }
    }
  }

  lemma DataUna(w: World, p: Packet, c: Choice)
    ensures OnData(w, p, c).client.unacknowledged == w.client.unacknowledged
  {
  }

  lemma SynUna(w: World, p: Packet, c: Choice)
    ensures OnSyn(w, p, c).client.unacknowledged == w.client.unacknowledged
  {
  }

  lemma FiredUna(w: World, e: Event, c: Choice)
    requires !e.Arrival? && !e.Handshake?
    ensures Execute(w, e, c).client.unacknowledged == w.client.unacknowledged && Execute(w, e, c).stream.base == w.stream.base
  {
    if e.Generate? { GenerateUna(w, c); }
    else if e.Retransmission? { ResentUna(w, e.seqNo, c); }
    else if e.FastRetransmission? && w.client.sendBuffer != [] {
      ResentUna(w.(client := w.client.(congestion := CC.OnFastRetransmit(w.client.congestion, FlightSize(w.client)))),
                w.client.sendBuffer[0].seqNo, c);
    }
  }

  lemma GenerateUna(w: World, c: Choice)
    ensures OnGenerate(w, c).client.unacknowledged == w.client.unacknowledged && OnGenerate(w, c).stream.base == w.stream.base
  {
  }

  lemma ResentUna(w: World, seqNo: u32, c: Choice)
    ensures Resent(w, seqNo, c).client.unacknowledged == w.client.unacknowledged && Resent(w, seqNo, c).stream == w.stream
  {
  }

  lemma StepFewGuards(w: World, c: Choice)
    requires Inv(w) && FewGuards(w) && Enabled(w, c)
    ensures FewGuards(Step(w, c))
  {
    StepWaiting(w, c, IsGuard);
    WaitingTail(w.pending, IsGuard);
    if Idle(w) || Opening(w) {
      OpeningAsksNoGuard(w, c);
    } else {
      SA.LaterTries(w, c);
      if Open(w) {
        var k: nat :| OpenAt(w, k);
        OpenFewGuards(w, k, c);
      } else {
        OverStep(w, c);
      }
    }
  }

  lemma OpenFewGuards(w: World, k: nat, c: Choice)
    requires OpenAt(w, k) && FewGuards(w) && Enabled(w, c)
    ensures var w' := Step(w, c); w'.client.state.ESTABLISHED? && w'.client.unacknowledged == w'.stream.base ==>
      Waiting(w'.pending, IsGuard) <= (if w'.client.sendBuffer == [] then 0 else 1) + Resends(w'.client.sendBuffer)
  {
    var w' := Step(w, c);
    if w'.client.state.ESTABLISHED? && w'.client.unacknowledged == w'.stream.base {
      UnaStays(w, k, c);
      StepWaiting(w, c, IsGuard);
      WaitingTail(w.pending, IsGuard);
      if w.pending[0].event.Arrival? { ArrivalBalanced(w, k, c); } else { FiredBalanced(w, k, c); }
    }
  }

  lemma {:induction false} RunFewGuards(site: Site, serverState: TS.State, choices: seq<Choice>)
    requires Fresh(serverState)
    ensures FewGuards(Run(Session.Start(site, serverState), choices))
  {
    if choices == [] {
      assert Session.Start(site, serverState).pending[1..] == [];
    } else {
      RunFewGuards(site, serverState, choices[..|choices| - 1]);
      RunKeepsInv(site, serverState, choices[..|choices| - 1]);
      var w := Run(Session.Start(site, serverState), choices[..|choices| - 1]);
      if Enabled(w, choices[|choices| - 1]) { StepFewGuards(w, choices[|choices| - 1]); }
    }
  }

  // ---- the run ----

  /** Only timers wait, too few to wear out the one segment stored. */
  ghost predicate Hushed(w: World, payload: seq<byte>)
  {
    && w.client.state.ESTABLISHED? && |w.client.sendBuffer| == 1 && w.client.sendBuffer[0].payload == payload
    && w.client.sendBuffer[0].count + Waiting(w.pending, IsGuard) <= 4
    && forall x :: x in w.pending ==> x.event.HandshakeTimeout? || IsGuard(x.event)
  }

  function IsTimeout(): Event -> bool { (e: Event) => e.Timeout? }

  /** One fewer timer to wait for. */
  ghost predicate Quieter(w: World, w': World)
  {
    |w'.pending| + Waiting(w'.pending, IsTimeout()) < |w.pending| + Waiting(w.pending, IsTimeout())
  }

  lemma HushedFires(w: World, payload: seq<byte>)
    requires Hushed(w, payload) && w.pending != []
    ensures var w' := Step(w, Loss(w.pending[0].time));
      Hushed(w', payload) && w'.delivered == w.delivered && Quieter(w, w')
  {
    var c, w1, e := Loss(w.pending[0].time), Popped(w), w.pending[0].event;
    assert w.pending[0] in w.pending && forall y :: y in w1.pending ==> y in w.pending;
    WaitingTail(w.pending, IsGuard);
    WaitingTail(w.pending, IsTimeout());
    if e.Timeout? { HushedTimeout(w1, e.seqNo, payload, c); }
    else if e.Retransmission? { HushedResend(w1, e.seqNo, payload, c); }
    else { assert Step(w, c) == w1; }
  }

  /** Every timer that fires into a network that takes nothing leaves less to wait for. */
  lemma HushedStep(w: World, payload: seq<byte>, hop: real)
    requires Hushed(w, payload) && w.pending != []
    ensures var c := Loss(w.pending[0].time); var w' := Step(w, c);
      GoesOn(w, c, hop) && Hushed(w', payload) && w'.delivered == w.delivered && Quieter(w, w')
  {
    HushedFires(w, payload);
  }

  lemma HushedTimeout(w: World, seqNo: u32, payload: seq<byte>, c: Choice)
    requires w.client.state.ESTABLISHED? && |w.client.sendBuffer| == 1 && w.client.sendBuffer[0].payload == payload
    requires w.client.sendBuffer[0].count + Waiting(w.pending, IsGuard) <= 3
    requires forall x :: x in w.pending ==> x.event.HandshakeTimeout? || IsGuard(x.event)
    ensures var w' := OnTimeout(w, seqNo);
      && Hushed(w', payload) && w'.delivered == w.delivered && |w'.pending| <= |w.pending| + 1
      && Waiting(w'.pending, IsTimeout()) == Waiting(w.pending, IsTimeout())
  {
    var x := EventQueues.Timed(w.now + 0.0, w.nextId, Retransmission(seqNo));
    WaitingScheduled(w.pending, x, IsGuard);
    WaitingScheduled(w.pending, x, IsTimeout());
  }

  lemma HushedResend(w: World, seqNo: u32, payload: seq<byte>, c: Choice)
    requires w.client.state.ESTABLISHED? && |w.client.sendBuffer| == 1 && w.client.sendBuffer[0].payload == payload
    requires w.client.sendBuffer[0].count + Waiting(w.pending, IsGuard) <= 3 && !c.offer.accepted
    requires forall x :: x in w.pending ==> x.event.HandshakeTimeout? || IsGuard(x.event)
    ensures var w' := OnRetransmission(w, seqNo, c); Hushed(w', payload) && w'.delivered == w.delivered && w'.pending == w.pending
  {
  }

  lemma {:induction false} HushedEnds(w0: World, before: seq<Choice>, w1: World, payload: seq<byte>, hop: real)
    returns (choices: seq<Choice>, w: World)
    requires Leads(w0, before, w1, hop) && Hushed(w1, payload)
    ensures Leads(w0, choices, w, hop) && Hushed(w, payload) && w.pending == [] && w.delivered == w1.delivered
    decreases |w1.pending| + Waiting(w1.pending, IsTimeout())
  {
    choices, w := before, w1;
    if w1.pending != [] {
      HushedStep(w1, payload, hop);
      choices := LeadsOn(w0, before, w1, Loss(w1.pending[0].time), hop);
      choices, w := HushedEnds(w0, choices, Step(w1, Loss(w1.pending[0].time)), payload, hop);
    }
  }

  /** Lost at the relay: what is left to wait for are timers. */
  lemma RelayLosesOnly(w0: World, before: seq<Choice>, w1: World, b: Plan) returns (choices: seq<Choice>, w: World)
    requires Fits(b) && |b.pieces| == 1 && Relayed(b.site, b.relay) && Leads(w0, before, w1, b.hop) && Held(w1, b, 1)
    requires OneOut(w1, b.hop, 7.0 * b.hop, Segment(b.isn, b.ack, b.pieces, b.s, 0, b.relay), [])
    ensures Leads(w0, choices, w, b.hop) && Held(w, b, 1) && Later(w.pending, Horizon(b.hop))
  {
    var x := w1.pending[0];
    assert [x] + [] == [x];
    OneSpaced(x, b.hop);
    choices := SW.LossLeg(w0, before, w1, [x], b.hop);
    w := Popped(w1);
    assert [x][1..] == [] && w.pending[0..] == w.pending;
  }

  /**
    Main result: for every initial number and every first payload that fits the window, in some run over a path of two
    links the relay loses the only segment, the client's link refuses its resend, and then nothing waits any more:
    whatever follows, both the segment and its connection stay as they are.
   */
  lemma RefusedResendStrands(site: Site, relay: nat, hop: real, isn: u32, payload: seq<byte>) returns (choices: seq<Choice>, w: World)
    requires payload != [] && |payload| <= DEFAULT_WINDOW && Quick(hop) && Relayed(site, relay)
    ensures Leads(Session.Start(site, TS.CLOSED), choices, w, hop)
    ensures w.client.state.ESTABLISHED? && |w.client.sendBuffer| == 1 && w.client.sendBuffer[0].payload == payload && w.delivered == []
    ensures w.pending == [] && forall rest :: Run(w, rest) == w
  {
    var w0 := Session.Start(site, TS.CLOSED);
    var b: Plan;
    choices, w, b := BatchLeaves(site, relay, isn, [payload], |payload|, hop);
    choices, w := SW.OneLeaves(w0, choices, w, b);
    choices, w := RelayLosesOnly(w0, choices, w, b);
    RunFewGuards(site, TS.CLOSED, choices);
    HeldHushed(w, b);
    choices, w := HushedEnds(w0, choices, w, payload, hop);
    forall rest ensures Run(w, rest) == w { NothingRuns(w, rest); }
  }

  lemma HeldHushed(w: World, b: Plan)
    requires Fits(b) && |b.pieces| == 1 && Held(w, b, 1) && Later(w.pending, Horizon(b.hop)) && FewGuards(w)
    ensures Hushed(w, b.pieces[0])
  {
    assert Stores(w.client.sendBuffer[0], b, 0);
    assert w.client.sendBuffer[1..] == [] && Resends(w.client.sendBuffer) == 0;
  }

  lemma {:induction false} NothingRuns(w: World, rest: seq<Choice>)
    requires w.pending == []
    ensures Run(w, rest) == w
  {
    if rest != [] { NothingRuns(w, rest[..|rest| - 1]); }
  }
}
