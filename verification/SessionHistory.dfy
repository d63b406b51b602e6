/**
  The client's timer, window and detector as a record of what has happened to it. Each is what the operations of its own
  module make of a history that can be read off the run: which acknowledgements came, which timers fired, what was
  given up.
 */
module SessionHistory {
  import opened Common
  import opened Word32
  import opened Connection
  import opened Session
  import EventQueues
  import TS = TcpState
  import SB = SendBuffer
  import CC = CongestionControl
  import RT = RetransmissionTimer

  // ---- the event about to fire ----

  /** An acknowledgement has got to the end it is meant for. */
  predicate AckReaches(w: World, server: bool)
  {
    && w.pending != [] && w.pending[0].event.Arrival?
    && var p := w.pending[0].event.packet; p.kind.ACK? && p.toServer == server && p.at == Home(w.site, server)
  }

  function AckNumber(w: World, server: bool): u32
    requires AckReaches(w, server)
  {
    w.pending[0].event.packet.ack
  }

  /** It is above SND.UNA and not above SND.NXT. */
  predicate Advances(w: World)
  {
    AckReaches(w, false) && w.client.state.ESTABLISHED? && w.client.unacknowledged < AckNumber(w, false) <= w.client.seqNum
  }

  /** It is SND.UNA once more. */
  predicate Repeats(w: World, server: bool)
  {
    && AckReaches(w, server) && Session.End(w, server).state.ESTABLISHED?
    && AckNumber(w, server) == Session.End(w, server).unacknowledged <= Session.End(w, server).seqNum
  }

  /** The segment some event is about to send again is stored and has resends left, or none. */
  predicate Resendable(ep: Endpoint, seqNo: u32) { ep.state.ESTABLISHED? && SB.Contains(ep.sendBuffer, seqNo) }

  predicate OldestTimesOut(w: World)
  {
    w.pending != [] && w.pending[0].event.Timeout? && Oldest(w.client) == Some(w.pending[0].event.seqNo)
  }

  /** A time-out that backs off: the oldest segment, with resends left. */
  predicate BacksOff(w: World)
  {
    OldestTimesOut(w) && CanRetransmit(w.client, w.pending[0].event.seqNo)
  }

  /** The oldest segment is due to be sent again at once. */
  predicate FastDue(w: World)
  {
    w.pending != [] && w.pending[0].event.FastRetransmission? && w.client.state.ESTABLISHED? && w.client.sendBuffer != []
  }

  /** The connection is given up: a segment is due again that has no resends left. */
  predicate GivesUp(w: World)
  {
    && w.pending != [] && !w.client.state.CLOSED?
    && match w.pending[0].event
       case Timeout(seqNo) => Oldest(w.client) == Some(seqNo) && !CanRetransmit(w.client, seqNo)
       case Retransmission(seqNo) => Resendable(w.client, seqNo) && !CanRetransmit(w.client, seqNo)
       case FastRetransmission => FastDue(w) && !CanRetransmit(w.client, w.client.sendBuffer[0].seqNo)
       case _ => false
  }

  // ---- what it is to the timer ----

  /** One time-out of the oldest segment, one clean sample, or a failure; nothing else. */
  function TimerOps(w: World): seq<RT.TimerOp>
  {
    if BacksOff(w) then [RT.Timeout]
    else if GivesUp(w) then [RT.Reset]
    else if Advances(w) then
      var sample := AckSample(w.client, AckNumber(w, false), w.pending[0].time);
      if sample.Some? then [RT.Sample(sample.value)] else []
    else []
  }

  function TimerHistory(w: World, choices: seq<Choice>): seq<RT.TimerOp>
  {
    if choices == [] then []
    else
      var before := Run(w, choices[..|choices| - 1]);
      TimerHistory(w, choices[..|choices| - 1]) + if Enabled(before, choices[|choices| - 1]) then TimerOps(before) else []
  }

  function Timed(t: RT.Timer, ops: seq<RT.TimerOp>): RT.Timer
    requires |ops| <= 1
  {
    if ops == [] then t else RT.Apply(t, ops[0])
  }

  lemma AfterOne(ops: seq<RT.TimerOp>, more: seq<RT.TimerOp>)
    requires |more| <= 1
    ensures RT.After(ops + more) == Timed(RT.After(ops), more)
  {
    if more == [] { assert ops + more == ops; } else { assert (ops + more)[..|ops|] == ops; }
  }

  lemma ReactionsKeep(w: World, toServer: bool, advanced: bool)
    ensures var w' := Advanced(AckReactions(w, toServer, advanced));
      && w'.client == (if toServer then w.client else if SB.ShouldFastRetransmit(w.client.detector) then DetectionReset(w.client) else w.client)
      && w'.server == (if toServer && SB.ShouldFastRetransmit(w.server.detector) then DetectionReset(w.server) else w.server)
      && w'.now == w.now
  {
  }

  /** What an acknowledgement leaves of the end it reaches. */
  function AckedEnd(ep: Endpoint, ack: u32, now: real): Endpoint
  {
    var acked := Acknowledging(ep, ack, now).ep;
    if SB.ShouldFastRetransmit(acked.detector) then DetectionReset(acked) else acked
  }

  lemma AckEnds(w: World, server: bool, c: Choice)
    requires Enabled(w, c) && AckReaches(w, server)
    ensures var w' := Step(w, c);
      && Session.End(w', server) == AckedEnd(Session.End(w, server), AckNumber(w, server), w.pending[0].time)
      && Session.End(w', !server) == Session.End(w, !server)
  {
    var w1, p := Popped(w), w.pending[0].event.packet;
    var out := Acknowledging(Session.End(w1, server), p.ack, w1.now);
    ReactionsKeep(WithEnd(w1, server, out.ep), server, out.ok);
  }

  /** The parts of an end that only acknowledgements and timers change. */
  ghost predicate SameControl(ep: Endpoint, ep': Endpoint) { ep'.timer == ep.timer && ep'.congestion == ep.congestion }

  lemma DataControl(w: World, p: Packet, c: Choice)
    ensures SameControl(w.client, OnData(w, p, c).client)
  {
  }

  lemma FinReactionsControl(w: World, toServer: bool, c: Choice)
    ensures SameControl(w.client, FinReactions(w, toServer, c).client)
  {
  }

  lemma FinControl(w: World, p: Packet, c: Choice)
    ensures SameControl(w.client, OnFin(w, p, c).client)
  {
    var out := ReceiveFin(Session.End(w, p.toServer), p.seqNo);
    FinReactionsControl(WithEnd(w, p.toServer, out.ep), p.toServer, c);
  }

  lemma OtherArrivalControl(w: World, c: Choice)
    requires Enabled(w, c) && w.pending[0].event.Arrival? && !AckReaches(w, false)
    ensures SameControl(w.client, Step(w, c).client)
  {
    var w1, p := Popped(w), w.pending[0].event.packet;
    if AckReaches(w, true) { AckEnds(w, true, c); }
    else if p.at == Home(w1.site, p.toServer) {
      match p.kind {
        case DATA => DataControl(w1, p, c);
        case FIN => FinControl(w1, p, c);
        case _ =>
      }
    }
  }

  lemma AckedTimer(ep: Endpoint, ack: u32, now: real)
    ensures var sample := AckSample(ep, ack, now);
      AckedEnd(ep, ack, now).timer
      == if ep.state.ESTABLISHED? && ep.unacknowledged < ack <= ep.seqNum && sample.Some?
         then RT.Apply(ep.timer, RT.Sample(sample.value)) else ep.timer
  {
  }

  lemma ArrivalTimes(w: World, c: Choice)
    requires Enabled(w, c) && w.pending[0].event.Arrival?
    ensures Step(w, c).client.timer == Timed(w.client.timer, TimerOps(w))
  {
    if AckReaches(w, false) {
      AckEnds(w, false, c);
      AckedTimer(w.client, AckNumber(w, false), w.pending[0].time);
    } else {
      OtherArrivalControl(w, c);
    }
  }

  lemma ResendKeeps(w: World, seqNo: u32, c: Choice)
    ensures var w' := Resent(w, seqNo, c);
      w'.client == w.client.(sendBuffer := w'.client.sendBuffer) && w'.server == w.server && w'.now == w.now
  {
  }

  lemma GenerateKeeps(w: World, c: Choice)
    ensures var w' := OnGenerate(w, c);
      w'.client.timer == w.client.timer && w'.client.congestion == w.client.congestion && w'.server == w.server && w'.now == w.now
  {
  }

  /** What a timer that fires leaves of the client's timer and window. */
  lemma FiredControl(w: World, c: Choice)
    requires Enabled(w, c) && !w.pending[0].event.Arrival?
    ensures Step(w, c).client.timer
      == if BacksOff(w) then RT.Apply(w.client.timer, RT.Timeout) else if GivesUp(w) then RT.FreshTimer else w.client.timer
    ensures Step(w, c).client.congestion
      == if BacksOff(w) then CC.OnLoss(w.client.congestion)
         else if FastDue(w) && CanRetransmit(w.client, w.client.sendBuffer[0].seqNo)
         then CC.OnFastRetransmit(w.client.congestion, FlightSize(w.client)) else w.client.congestion
  {
    var w1, e := Popped(w), w.pending[0].event;
    if e.Timeout? { TimeoutControl(w1, e.seqNo); }
    else if e.Retransmission? { RetransmissionControl(w1, e.seqNo, c); }
    else if e.FastRetransmission? { FastControl(w1, c); }
    else { QuietControl(w1, e, c); }
  }

  lemma QuietControl(w: World, e: Event, c: Choice)
    requires !e.Arrival? && !e.Timeout? && !e.Retransmission? && !e.FastRetransmission?
    ensures SameControl(w.client, Execute(w, e, c).client)
  {
    if e.Generate? { GenerateKeeps(w, c); }
    if e.Handshake? || e.HandshakeTimeout? { HandshakeControl(w, c); }
  }

  lemma HandshakeControl(w: World, c: Choice)
    ensures SameControl(w.client, OnHandshake(w, c).client) && SameControl(w.client, OnHandshakeTimeout(w, c).client)
  {
  }

  lemma TimeoutControl(w: World, seqNo: u32)
    ensures var ep, ep' := w.client, OnTimeout(w, seqNo).client;
      if Oldest(ep) != Some(seqNo) then ep' == ep
      else if CanRetransmit(ep, seqNo) then ep' == SendTimeout(ep) else ep' == FailRetransmission(ep)
  {
  }

  lemma RetransmissionControl(w: World, seqNo: u32, c: Choice)
    ensures var ep, ep' := w.client, OnRetransmission(w, seqNo, c).client;
      if !Resendable(ep, seqNo) then ep' == ep
      else if CanRetransmit(ep, seqNo) then SameControl(ep, ep') else ep' == FailRetransmission(ep)
  {
    ResendKeeps(w, seqNo, c);
  }

  lemma FastControl(w: World, c: Choice)
    ensures var ep, ep' := w.client, OnFastRetransmission(w, c).client;
      if !ep.state.ESTABLISHED? || ep.sendBuffer == [] then ep' == ep
      else if CanRetransmit(ep, ep.sendBuffer[0].seqNo)
      then ep' == ep.(sendBuffer := ep'.sendBuffer, congestion := CC.OnFastRetransmit(ep.congestion, FlightSize(ep)))
      else ep' == FailRetransmission(ep)
  {
    if w.client.sendBuffer != [] {
      var client := w.client.(congestion := CC.OnFastRetransmit(w.client.congestion, FlightSize(w.client)));
      ResendKeeps(w.(client := client), w.client.sendBuffer[0].seqNo, c);
    }
  }

  lemma StepTimes(w: World, c: Choice)
    requires Enabled(w, c)
    ensures Step(w, c).client.timer == Timed(w.client.timer, TimerOps(w))
  {
    if w.pending[0].event.Arrival? { ArrivalTimes(w, c); } else { FiredControl(w, c); }
  }

  /**
    Main result: in every run the client's timer is what the timer's own operations make of its history: one time-out
    for each time-out of the oldest segment with resends left, one sample for each acknowledgement that advances
    SND.UNA over a segment sent once, and one reset when the connection is given up.
   */
  lemma {:induction false} TimerFollowsHistory(site: Site, serverState: TS.State, choices: seq<Choice>)
    ensures var w0 := Session.Start(site, serverState); Run(w0, choices).client.timer == RT.After(TimerHistory(w0, choices))
  {
    if choices != [] {
      var w0, before, c := Session.Start(site, serverState), choices[..|choices| - 1], choices[|choices| - 1];
      TimerFollowsHistory(site, serverState, before);
      var w := Run(w0, before);
      if Enabled(w, c) {
        StepTimes(w, c);
        AfterOne(TimerHistory(w0, before), TimerOps(w));
      } else {
        AfterOne(TimerHistory(w0, before), []);
      }
    }
  }

  // ---- what it is to the window ----

  /** What receiveAck asks of the controller. */
  function AckOps(w: World): seq<CC.Op>
    requires AckReaches(w, false)
  {
    if Advances(w) then [CC.Ack(AckNumber(w, false) - w.client.unacknowledged)]
    else if Repeats(w, false) then [CC.DuplicateAck]
    else []
  }

  /** The controller's calls: one more duplicate for every acknowledgement, a loss, a fast retransmission. */
  function WindowOps(w: World): seq<CC.Op>
  {
    if AckReaches(w, false) then AckOps(w) + [CC.DuplicateAck]
    else if BacksOff(w) then [CC.Loss]
    else if FastDue(w) && CanRetransmit(w.client, w.client.sendBuffer[0].seqNo) then [CC.FastRetransmit(FlightSize(w.client))]
    else []
  }

  function WindowHistory(w: World, choices: seq<Choice>): seq<CC.Op>
  {
    if choices == [] then []
    else
      var before := Run(w, choices[..|choices| - 1]);
      WindowHistory(w, choices[..|choices| - 1]) + if Enabled(before, choices[|choices| - 1]) then WindowOps(before) else []
  }

  lemma {:induction false} WindowThen(c: CC.Control, a: seq<CC.Op>, b: seq<CC.Op>)
    requires CC.Workable(c)
    ensures CC.After(c, a + b) == CC.After(CC.After(c, a), b)
  {
    if b == [] {
      assert a + b == a;
    } else {
      assert (a + b)[..|a + b| - 1] == a + b[..|b| - 1];
      WindowThen(c, a, b[..|b| - 1]);
    }
  }

  lemma WindowOne(c: CC.Control, op: CC.Op)
    requires CC.Workable(c)
    ensures CC.After(c, [op]) == CC.Apply(c, op)
  {
    assert [op][..0] == [];
  }

  lemma AdvanceWindow(ep: Endpoint, ack: u32, now: real)
    requires ep.unacknowledged < ack
    ensures Acknowledged(ep, ack, now).congestion == CC.OnAck(ep.congestion, ack - ep.unacknowledged)
  {
    assert Wrap(ack - ep.unacknowledged) == ack - ep.unacknowledged;
  }

  /** The controller after receiveAck. */
  lemma ReceivedWindow(ep: Endpoint, ack: u32, now: real)
    ensures var cc := ep.congestion;
      ReceiveAck(ep, ack, now).ep.congestion
      == if !ep.state.ESTABLISHED? || !(ep.unacknowledged <= ack <= ep.seqNum) then cc
         else if ack == ep.unacknowledged then CC.OnDuplicateAck(cc) else CC.OnAck(cc, ack - ep.unacknowledged)
  {
    if ep.state.ESTABLISHED? && ep.unacknowledged < ack <= ep.seqNum {
      AdvanceWindow(ep.(detector := SB.Observed(ep.detector, ack)), ack, now);
    }
  }

  lemma AckedWindow(ep: Endpoint, ack: u32, now: real)
    ensures AckedEnd(ep, ack, now).congestion == CC.OnDuplicateAck(ReceiveAck(ep, ack, now).ep.congestion)
  {
  }

  lemma AckGrows(w: World)
    requires AckReaches(w, false) && CC.Workable(w.client.congestion)
    ensures CC.After(w.client.congestion, AckOps(w)) == ReceiveAck(w.client, AckNumber(w, false), w.pending[0].time).ep.congestion
  {
    ReceivedWindow(w.client, AckNumber(w, false), w.pending[0].time);
    if Advances(w) { WindowOne(w.client.congestion, CC.Ack(AckNumber(w, false) - w.client.unacknowledged)); }
    else if Repeats(w, false) { WindowOne(w.client.congestion, CC.DuplicateAck); }
  }

  lemma AckWindows(w: World, c: Choice)
    requires Enabled(w, c) && AckReaches(w, false) && CC.Workable(w.client.congestion)
    ensures Step(w, c).client.congestion == CC.After(w.client.congestion, WindowOps(w))
  {
    AckEnds(w, false, c);
    AckedWindow(w.client, AckNumber(w, false), w.pending[0].time);
    AckGrows(w);
    WindowThen(w.client.congestion, AckOps(w), [CC.DuplicateAck]);
    WindowOne(CC.After(w.client.congestion, AckOps(w)), CC.DuplicateAck);
  }

  lemma FiredOps(w: World)
    requires !AckReaches(w, false) && CC.Workable(w.client.congestion)
    ensures CC.After(w.client.congestion, WindowOps(w))
      == if BacksOff(w) then CC.OnLoss(w.client.congestion)
         else if FastDue(w) && CanRetransmit(w.client, w.client.sendBuffer[0].seqNo)
         then CC.OnFastRetransmit(w.client.congestion, FlightSize(w.client)) else w.client.congestion
  {
    WindowOne(w.client.congestion, CC.Loss);
    WindowOne(w.client.congestion, CC.FastRetransmit(FlightSize(w.client)));
  }

  lemma StepWindows(w: World, c: Choice)
    requires Enabled(w, c) && CC.Workable(w.client.congestion)
    ensures Step(w, c).client.congestion == CC.After(w.client.congestion, WindowOps(w))
  {
    if AckReaches(w, false) {
      AckWindows(w, c);
    } else {
      FiredOps(w);
      if w.pending[0].event.Arrival? { OtherArrivalControl(w, c); } else { FiredControl(w, c); }
    }
  }

  /** Main result: in every run the client's window is what the controller's own calls make of its history. */
  lemma {:induction false} WindowFollowsHistory(site: Site, serverState: TS.State, choices: seq<Choice>)
    ensures var w0 := Session.Start(site, serverState);
      Run(w0, choices).client.congestion == CC.After(CC.Create(CC.Reno, 65535, 65535).value, WindowHistory(w0, choices))
  {
    var w0 := Session.Start(site, serverState);
    if choices != [] {
      var before, c := choices[..|choices| - 1], choices[|choices| - 1];
      WindowFollowsHistory(site, serverState, before);
      var w := Run(w0, before);
      if Enabled(w, c) {
        StepWindows(w, c);
        WindowThen(FreshControl(), WindowHistory(w0, before), WindowOps(w));
      } else {
        WindowThen(FreshControl(), WindowHistory(w0, before), []);
        assert WindowHistory(w0, choices) == WindowHistory(w0, before);
      }
    }
  }
}
