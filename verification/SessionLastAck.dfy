/**
  The server's side of the close. A server that has sent its FIN waits in LAST_ACK for exactly the acknowledgement of
  that FIN and is closed from then on, unless a SYN reaches it.
 */
module SessionLastAck {
  import opened Common
  import opened Word32
  import opened Connection
  import opened Session
  import opened SessionClosing
  import opened SessionDeeds
  import opened SessionDuplicates
  import opened SessionHistory
  import opened SessionSafety
  import opened SessionResults
  import EventQueues
  import TS = TcpState
  import CC = CongestionControl

  predicate FinAckReaches(w: World)
  {
    AckReaches(w, true) && AckNumber(w, true) == Wrap(w.server.seqNum + 1)
  }

  predicate SynReaches(w: World)
  {
    && w.pending != [] && w.pending[0].event.Arrival?
    && var p := w.pending[0].event.packet; p.kind.SYN? && p.toServer && p.at == Home(w.site, true)
  }

  /** An acknowledgement of the server's FIN reaches it in these steps. */
  predicate FinAcknowledged(w: World, rest: seq<Choice>)
  {
    rest != [] &&
    var before, c := rest[..|rest| - 1], rest[|rest| - 1];
    FinAcknowledged(w, before) || (Enabled(Run(w, before), c) && FinAckReaches(Run(w, before)))
  }

  /** A SYN reaches it after that. */
  predicate SynFollows(w: World, rest: seq<Choice>)
  {
    rest != [] &&
    var before, c := rest[..|rest| - 1], rest[|rest| - 1];
    SynFollows(w, before) || (FinAcknowledged(w, before) && Enabled(Run(w, before), c) && SynReaches(Run(w, before)))
  }

  /** At every moment since, the server is closed. */
  predicate ClosedSince(w: World, rest: seq<Choice>)
  {
    && (FinAcknowledged(w, rest) ==> Run(w, rest).server.state.CLOSED?)
    && (rest != [] ==> ClosedSince(w, rest[..|rest| - 1]))
  }

  // ---- one event ----

  lemma AckedState(ep: Endpoint, ack: u32, now: real)
    requires ep.state.LAST_ACK? || ep.state.CLOSED?
    ensures var ep' := AckedEnd(ep, ack, now);
      && ep'.seqNum == ep.seqNum
      && ep'.state == if ep.state.LAST_ACK? && ack == Wrap(ep.seqNum + 1) then TS.CLOSED else ep.state
  {
  }

  /** The server's state and number. */
  ghost predicate SameServerState(w: World, w': World)
  {
    w'.server.state == w.server.state && w'.server.seqNum == w.server.seqNum
  }

  lemma DataReactionsServer(w: World, toServer: bool, inOrder: bool, c: Choice)
    ensures SameServerState(w, DataReactions(w, toServer, inOrder, c))
  {
  }

  /** The client's answer to a FIN. */
  lemma FinAtClient(w: World, c: Choice)
    ensures FinReactions(w, false, c).server == w.server
  {
  }

  lemma FinServer(w: World, p: Packet, c: Choice)
    requires w.server.state.LAST_ACK? || w.server.state.CLOSED?
    ensures SameServerState(w, OnFin(w, p, c))
  {
    if p.toServer {
      assert !ReceiveFin(w.server, p.seqNo).ok;
    } else {
      FinAtClient(w.(client := ReceiveFin(w.client, p.seqNo).ep), c);
    }
  }

  lemma SynServer(w: World, p: Packet, c: Choice)
    requires w.server.state.LAST_ACK? || w.server.state.CLOSED?
    ensures OnSyn(w, p, c).server.seqNum == w.server.seqNum
    ensures OnSyn(w, p, c).server.state == if p.toServer && w.server.state.CLOSED? then TS.SYN_RECEIVED else w.server.state
  {
  }

  lemma ArrivalServer(w: World, c: Choice)
    requires Enabled(w, c) && w.pending[0].event.Arrival? && (w.server.state.LAST_ACK? || w.server.state.CLOSED?)
    ensures Step(w, c).server.state
      == if w.server.state.LAST_ACK? then (if FinAckReaches(w) then TS.CLOSED else TS.LAST_ACK)
         else if SynReaches(w) then TS.SYN_RECEIVED else TS.CLOSED
    ensures Step(w, c).server.seqNum == w.server.seqNum
  {
    var w1, p := Popped(w), w.pending[0].event.packet;
    if AckReaches(w, true) {
      AckEnds(w, true, c);
      AckedState(w.server, AckNumber(w, true), w.pending[0].time);
    } else if AckReaches(w, false) {
      AckEnds(w, false, c);
    } else if p.at == Home(w1.site, p.toServer) && p.kind.SYN? {
      SynServer(w1, p, c);
    } else {
      OtherServer(w1, p, c);
    }
  }

  lemma OtherServer(w: World, p: Packet, c: Choice)
    requires w.server.state.LAST_ACK? || w.server.state.CLOSED?
    requires p.at == Home(w.site, p.toServer) ==> !p.kind.SYN? && !p.kind.ACK?
    ensures SameServerState(w, OnArrival(w, p, c))
  {
    if p.at == Home(w.site, p.toServer) {
      match p.kind {
        case DATA => DataReactionsServer(DataTaken(w, p), p.toServer, p.seqNo == Session.End(w, p.toServer).expectedAck, c);
        case FIN => FinServer(w, p, c);
        case _ =>
      }
    }
  }

  lemma FiredServerState(w: World, e: Event, c: Choice)
    requires !e.Arrival?
    ensures SameServerState(w, Execute(w, e, c))
  {
    if !e.DelayedAck? { FiredServer(w, e, c); }
  }

  /** A server in LAST_ACK waits for the acknowledgement of its FIN; a closed one for a SYN. */
  predicate Moves(w: World, w': World)
  {
    w'.server.state == (if w.server.state.LAST_ACK? then (if FinAckReaches(w) then TS.CLOSED else TS.LAST_ACK)
                        else if SynReaches(w) then TS.SYN_RECEIVED else TS.CLOSED)
  }

  lemma StepServer(w: World, c: Choice)
    requires Enabled(w, c) && (w.server.state.LAST_ACK? || w.server.state.CLOSED?)
    ensures Moves(w, Step(w, c))
  {
    if w.pending[0].event.Arrival? { ArrivalServer(w, c); } else { FiredServerState(Popped(w), w.pending[0].event, c); }
  }

  // ---- every continuation ----

  /** In LAST_ACK until the acknowledgement, closed from there until a SYN. */
  predicate StandsAs(server: Endpoint, acknowledged: bool, syn: bool)
  {
    && (!acknowledged ==> server.state.LAST_ACK?)
    && (acknowledged && !syn ==> server.state.CLOSED?)
  }

  lemma MovesStands(w: World, w': World, acknowledged: bool, syn: bool)
    requires StandsAs(w.server, acknowledged, syn) && (syn ==> acknowledged)
    requires !syn ==> Moves(w, w')
    ensures StandsAs(w'.server, acknowledged || FinAckReaches(w), syn || (acknowledged && SynReaches(w)))
  {
  }

  lemma {:induction false} SynFollowsLate(w: World, rest: seq<Choice>)
    ensures SynFollows(w, rest) ==> FinAcknowledged(w, rest)
  {
    if rest != [] { SynFollowsLate(w, rest[..|rest| - 1]); }
  }

  lemma {:induction false} StandsSince(w: World, rest: seq<Choice>)
    requires w.server.state.LAST_ACK?
    ensures StandsAs(Run(w, rest).server, FinAcknowledged(w, rest), SynFollows(w, rest))
  {
    if rest != [] {
      var before, c := rest[..|rest| - 1], rest[|rest| - 1];
      StandsSince(w, before);
      SynFollowsLate(w, before);
      var w1, w2 := Run(w, before), Run(w, rest);
      if Enabled(w1, c) {
        if !SynFollows(w, before) { StepServer(w1, c); }
        MovesStands(w1, w2, FinAcknowledged(w, before), SynFollows(w, before));
      }
    }
  }

  /** The SYN opens the server again. */
  lemma SynOpens(w: World, before: seq<Choice>, c: Choice)
    requires w.server.state.LAST_ACK? && FinAcknowledged(w, before) && !SynFollows(w, before)
    requires Enabled(Run(w, before), c) && SynReaches(Run(w, before))
    ensures Step(Run(w, before), c).server.state.SYN_RECEIVED?
  {
    StandsSince(w, before);
    StepServer(Run(w, before), c);
  }

  /**
    Main result: a server in LAST_ACK is closed by an acknowledgement of its FIN and by nothing else, and it is closed
    at every moment from then on if and only if no SYN reaches it.
   */
  lemma {:induction false} LastAckClosesIff(w: World, rest: seq<Choice>)
    requires w.server.state.LAST_ACK?
    ensures !FinAcknowledged(w, rest) ==> Run(w, rest).server.state.LAST_ACK?
    ensures ClosedSince(w, rest) <==> !SynFollows(w, rest)
  {
    StandsSince(w, rest);
    if rest != [] {
      var before, c := rest[..|rest| - 1], rest[|rest| - 1];
      LastAckClosesIff(w, before);
      if SynFollows(w, rest) && !SynFollows(w, before) { SynOpens(w, before, c); }
    }
  }

  // ---- no SYN left ----

  predicate NoSyn(pending: seq<EventQueues.Timed<Event>>)
  {
    forall x :: x in pending && x.event.Arrival? ==> !x.event.packet.kind.SYN?
  }

  predicate SendsNoSyn(deeds: seq<Deed>)
  {
    forall d :: d in deeds ==> (d.Sends? ==> !d.packet.kind.SYN?) && (d.Times? ==> !d.event.Arrival?)
  }

  lemma {:induction false} DoneNoSyn(w: World, deeds: seq<Deed>)
    requires NoSyn(w.pending) && SendsNoSyn(deeds)
    ensures NoSyn(Done(w, deeds).pending)
    decreases |deeds|
  {
    if deeds != [] {
      assert deeds[0] in deeds && forall d :: d in deeds[1..] ==> d in deeds;
      DoneNoSyn(DoneBy(w, deeds[0]), deeds[1..]);
    }
  }

  lemma FinSendsNoSyn(w: World, p: Packet, c: Choice)
    ensures SendsNoSyn(FinDeeds(w, p, c))
  {
  }

  lemma ReactionsSendNoSyn(w: World, toServer: bool, advanced: bool)
    ensures SendsNoSyn(ReactionDeeds(w, toServer, advanced))
  {
  }

  lemma AdvanceSendsNoSyn(w: World)
    ensures SendsNoSyn(AdvanceDeeds(w))
  {
  }

  lemma AckSendsNoSyn(w: World, p: Packet)
    ensures SendsNoSyn(AckDeeds(w, p))
  {
    var out := Acknowledging(Session.End(w, p.toServer), p.ack, w.now);
    ReactionsSendNoSyn(WithEnd(w, p.toServer, out.ep), p.toServer, out.ok);
    AdvanceSendsNoSyn(WithEnd(w, p.toServer, out.ep));
  }

  lemma ArrivalSendsNoSyn(w: World, p: Packet, c: Choice)
    requires p.kind.SYN? ==> p.at == Home(w.site, p.toServer)
    ensures SendsNoSyn(ArrivalDeeds(w, p, c))
  {
    if p.at == Home(w.site, p.toServer) {
      match p.kind {
        case ACK => AckSendsNoSyn(w, p);
        case FIN => FinSendsNoSyn(w, p, c);
        case _ =>
      }
    }
  }

  lemma ResendSendsNoSyn(w: World, seqNo: u32, c: Choice)
    ensures SendsNoSyn(ResendDeeds(w, seqNo, c))
  {
  }

  lemma GenerateSendsNoSyn(w: World, c: Choice)
    ensures SendsNoSyn(GenerateDeeds(w, c))
  {
  }

  /** Only a client that waits for the answer to its SYN sends one. */
  lemma BodySendsNoSyn(w: World, e: Event, c: Choice)
    requires !e.Handshake? && (e.HandshakeTimeout? ==> !w.client.state.SYN_SENT?)
    requires e.Arrival? && e.packet.kind.SYN? ==> e.packet.at == Home(w.site, e.packet.toServer)
    ensures SendsNoSyn(Deeds(w, e, c))
  {
    match e
    case Arrival(p) => ArrivalSendsNoSyn(w, p, c);
    case Generate => GenerateSendsNoSyn(w, c);
    case Retransmission(seqNo) => ResendSendsNoSyn(w, seqNo, c);
    case FastRetransmission => if w.client.sendBuffer != [] { ResendSendsNoSyn(w, w.client.sendBuffer[0].seqNo, c); }
    case _ =>
  }

  lemma {:induction false} OverRunNoSyn(w: World, rest: seq<Choice>)
    requires Over(w) && NoSyn(w.pending)
    ensures Over(Run(w, rest)) && NoSyn(Run(w, rest).pending)
  {
    if rest != [] {
      var before, c := rest[..|rest| - 1], rest[|rest| - 1];
      OverRunNoSyn(w, before);
      var w1 := Run(w, before);
      OverStep(w1, c);
      if Enabled(w1, c) {
        var e := w1.pending[0].event;
        assert w1.pending[0] in w1.pending && OverEvent(e);
        BodySendsNoSyn(Popped(w1), e, c);
        BodiesAreDeeds(Popped(w1), e, c);
        DoneNoSyn(Popped(w1), Deeds(Popped(w1), e, c));
      }
    }
  }

  lemma {:induction false} NoSynNoneFollows(w: World, rest: seq<Choice>)
    requires Over(w) && NoSyn(w.pending)
    ensures !SynFollows(w, rest)
  {
    if rest != [] {
      NoSynNoneFollows(w, rest[..|rest| - 1]);
      OverRunNoSyn(w, rest[..|rest| - 1]);
      var w1 := Run(w, rest[..|rest| - 1]);
      if w1.pending != [] { assert w1.pending[0] in w1.pending; }
    }
  }

  /**
    Main result: in every run, once no copy of the SYN is under way any more, a server in LAST_ACK that takes the
    acknowledgement of its FIN is closed from then on, whatever follows.
   */
  lemma {:induction false} ServerClosesForGood(site: Site, serverState: TS.State, choices: seq<Choice>, rest: seq<Choice>)
    requires Fresh(serverState)
    requires var w := Run(Session.Start(site, serverState), choices); w.server.state.LAST_ACK? && NoSyn(w.pending)
    ensures var w := Run(Session.Start(site, serverState), choices);
      if FinAcknowledged(w, rest) then Run(w, rest).server.state.CLOSED? else Run(w, rest).server.state.LAST_ACK?
  {
    var w := Run(Session.Start(site, serverState), choices);
    RunKeepsInv(site, serverState, choices);
    assert Over(w);
    NoSynNoneFollows(w, rest);
    StandsSince(w, rest);
  }

  // ---- the client's last timer ----

  lemma {:induction false} DoneGrows(w: World, deeds: seq<Deed>)
    ensures forall x :: x in w.pending ==> x in Done(w, deeds).pending
    decreases |deeds|
  {
    if deeds != [] { DoneGrows(DoneBy(w, deeds[0]), deeds[1..]); }
  }

  /** Nothing leaves the queue but the event that fires. */
  lemma StepGrows(w: World, c: Choice)
    requires Enabled(w, c)
    ensures forall x :: x in w.pending && x != w.pending[0] ==> x in Step(w, c).pending
  {
    BodiesAreDeeds(Popped(w), w.pending[0].event, c);
    DoneGrows(Popped(w), Deeds(Popped(w), w.pending[0].event, c));
    assert w.pending == [w.pending[0]] + w.pending[1..];
  }

  ghost predicate LastTimerWaits(w: World) { exists x :: x in w.pending && x.event.TimeWaitTimeout? }

  /** It has just been set. */
  ghost predicate LastTimerSet(w: World) { exists x :: x in w.pending && x.event.TimeWaitTimeout? && x.time == w.now + 0.1 }

  lemma FinSetsTimer(w: World, p: Packet, c: Choice)
    requires w.client.state.FIN_WAIT_2? && !p.toServer
    ensures LastTimerSet(OnFin(w, p, c))
  {
    var w1 := w.(client := ReceiveFin(w.client, p.seqNo).ep);
    var x := EventQueues.Timed(w1.now + TIME_WAIT_DELAY, w1.nextId, TimeWaitTimeout);
    assert x in LastTimer(w1).pending;
    FinAckedGrows(w1, c, x);
  }

  lemma DrivenToTimeWait(s: TS.State, t: Option<TS.Trigger>)
    requires !s.TIME_WAIT? && SessionClosing.Driven(s, t).TIME_WAIT? && (t.Some? ==> TS.Late(t.value))
    ensures t == Some(TS.PeerFin) && s.FIN_WAIT_2?
  {
  }

  lemma FinTriggers(site: Site, client: Endpoint, e: Event)
    requires TriggerOf(site, client, e) == Some(TS.PeerFin)
    ensures e.Arrival? && e.packet.kind.FIN? && !e.packet.toServer && e.packet.at == site.client
  {
  }

  /** Only a FIN leads into TIME_WAIT. */
  lemma TimeWaitByFin(w: World, c: Choice)
    requires Over(w) && Finishing(w.client.state) && !w.client.state.TIME_WAIT? && Step(w, c).client.state.TIME_WAIT?
    ensures Enabled(w, c) && w.pending[0].event.Arrival? && w.client.state.FIN_WAIT_2?
    ensures var p := w.pending[0].event.packet; p.kind.FIN? && !p.toServer && p.at == w.site.client
  {
    FinishingStep(w, c);
    DrivenToTimeWait(w.client.state, StepTrigger(w, c));
    FinTriggers(w.site, w.client, w.pending[0].event);
  }

  /** A client enters TIME_WAIT with its timer set for 0.1 from now. */
  lemma EntersTimed(w: World, c: Choice)
    requires Over(w) && Finishing(w.client.state) && !w.client.state.TIME_WAIT? && Step(w, c).client.state.TIME_WAIT?
    ensures LastTimerSet(Step(w, c))
  {
    TimeWaitByFin(w, c);
    FinSetsTimer(Popped(w), w.pending[0].event.packet, c);
  }

  lemma FinAckedGrows(w: World, c: Choice, x: EventQueues.Timed<Event>)
    requires x in LastTimer(w).pending
    ensures x in FinReactions(w, false, c).pending && FinReactions(w, false, c).now == w.now
  {
  }

  lemma StepTimed(w: World, c: Choice)
    requires Over(w) && Finishing(w.client.state) && (w.client.state.TIME_WAIT? ==> LastTimerWaits(w))
    ensures Step(w, c).client.state.TIME_WAIT? ==> LastTimerWaits(Step(w, c))
  {
    if Enabled(w, c) && Step(w, c).client.state.TIME_WAIT? {
      if w.client.state.TIME_WAIT? {
        FinishingStep(w, c);
        StepGrows(w, c);
        var x :| x in w.pending && x.event.TimeWaitTimeout?;
        assert x != w.pending[0];
      } else {
        EntersTimed(w, c);
      }
    }
  }

  /**
    Main result: in every continuation of a run whose client has sent its FIN, a client in TIME_WAIT has its last timer
    waiting, so it is closed by the time nothing waits any more.
   */
  lemma {:induction false} TimeWaitEnds(site: Site, serverState: TS.State, choices: seq<Choice>, rest: seq<Choice>)
    requires Fresh(serverState) && Run(Session.Start(site, serverState), choices).client.state.FIN_WAIT_1?
    ensures var w := Run(Run(Session.Start(site, serverState), choices), rest);
      w.client.state.TIME_WAIT? ==> LastTimerWaits(w) && w.pending != []
  {
    FinWaitIsOver(site, serverState, choices);
    var w := Run(Session.Start(site, serverState), choices);
    FinishingRun(w, rest);
    if rest != [] {
      var before, c := rest[..|rest| - 1], rest[|rest| - 1];
      TimeWaitEnds(site, serverState, choices, before);
      FinishingRun(w, before);
      StepTimed(Run(w, before), c);
    }
  }
}
