/**
  A close that never completes. The client has sent its twenty segments and its FIN; the server's link drops the
  acknowledgement of that FIN and carries the server's own FIN, which it sends at once. The client ends in CLOSING
  and stays there.
 */
module SessionLostAck {
  import opened Common
  import opened Word32
  import opened Connection
  import opened Session
  import SessionSafety
  import opened SessionWaves
  import opened SessionPath
  import opened SessionBatch
  import opened SessionWitness
  import SessionClock
  import SessionFilling
  import SessionClosing
  import EventQueues
  import TS = TcpState
  import SB = SendBuffer

  // ---- the relay carries the first segment and loses the others ----

  /** Segments from i on still on their way to the relay, the first one on its way to the server. */
  function Rest(b: Plan, i: nat, x: Due): seq<Due>
    requires i <= |b.pieces|
  {
    Out(b, |b.pieces|)[i..] + [x]
  }

  /** The first segment as a slower link carries it to the server. */
  function Slow(b: Plan, id: nat): Due
    requires b.pieces != []
  {
    At(30.0 * b.hop, id, Arrival(Segment(b.isn, b.ack, b.pieces, b.s, 0, b.site.server)))
  }

  lemma RestSpaced(b: Plan, i: nat, id: nat)
    requires Fits(b) && b.pieces != [] && i <= |b.pieces| && b.site.server != b.relay
    ensures Spaced(Rest(b, i, Slow(b, id)), b.hop)
  {
    FlightSpaced(b.relay, b.isn, b.ack, b.pieces, b.s, b.hop, b.n, |b.pieces|);
    var q, x := Out(b, |b.pieces|), Slow(b, id);
    forall y | y in Rest(b, i, x) && y != x ensures y in q && y.event.packet.at == b.relay {
      var j :| 0 <= j < |q[i..]| && q[i..][j] == y;
      assert q[i + j] == y;
    }
  }

  lemma SlowLast(b: Plan, id: nat)
    requires Fits(b) && |b.pieces| == PACKETS_PER_ROUTE
    ensures EventQueues.Scheduled(Out(b, |b.pieces|)[1..], Slow(b, id)) == Rest(b, 1, Slow(b, id))
  {
    var q := Out(b, |b.pieces|)[1..];
    forall i | 0 <= i < |q| ensures !EventQueues.Earlier(Slow(b, id), q[i]) {
      assert q[i] == Out(b, |b.pieces|)[i + 1];
      TickGrows(8 + i, 30, b.hop);
    }
    Placed(q, Slow(b, id), |q|);
    assert q[..|q|] + [Slow(b, id)] + q[|q|..] == Rest(b, 1, Slow(b, id));
  }

  /** The head of the foreground, at the relay, is carried on by some time. */
  lemma HeadRelayed(w: World, b: Plan, fore: seq<Due>, p: Packet, at: real)
    requires Fits(b) && Relayed(b.site, b.relay) && w.site == b.site && Waits(w, fore, b.hop) && fore != []
    requires fore[0].event == Arrival(p) && p.at == b.relay && fore[0].time <= at <= Horizon(b.hop)
    ensures var c := By(at, 0, [0]);
      && Enabled(w, c) && Moved(w, Step(w, c))
      && Waits(Step(w, c), EventQueues.Scheduled(fore[1..], At(at, w.nextId, Arrival(p.(at := Home(b.site, p.toServer))))), b.hop)
  {
    WaitsPopped(w, fore, b.hop);
    WaitsFront(Popped(w), fore[1..], b.hop, Arrival(p.(at := Home(b.site, p.toServer))), at);
  }

  /** The first segment reaches the relay long before. */
  lemma SlowIsLater(b: Plan)
    requires Fits(b) && b.pieces != []
    ensures var x := Out(b, |b.pieces|)[0];
      x.event == Arrival(Segment(b.isn, b.ack, b.pieces, b.s, 0, b.relay)) && x.time + b.hop <= 30.0 * b.hop <= Horizon(b.hop)
  {
  }

  lemma SlowIs(b: Plan, id: nat)
    requires b.pieces != []
    ensures var p := Segment(b.isn, b.ack, b.pieces, b.s, 0, b.relay);
      p.at == b.relay && Slow(b, id) == At(30.0 * b.hop, id, Arrival(p.(at := Home(b.site, p.toServer))))
  {
  }

  lemma SlowCarried(w: World, b: Plan)
    requires Fits(b) && Relayed(b.site, b.relay) && |b.pieces| == PACKETS_PER_ROUTE && w.site == b.site && Waits(w, Out(b, |b.pieces|), b.hop)
    ensures var c := By(30.0 * b.hop, 0, [0]);
      Enabled(w, c) && Moved(w, Step(w, c)) && Waits(Step(w, c), Rest(b, 1, Slow(b, w.nextId)), b.hop)
  {
    SlowIsLater(b);
    SlowIs(b, w.nextId);
    SlowLast(b, w.nextId);
    HeadRelayed(w, b, Out(b, |b.pieces|), Segment(b.isn, b.ack, b.pieces, b.s, 0, b.relay), 30.0 * b.hop);
  }

  lemma HeldPassed(w: World, w': World, b: Plan)
    requires Held(w, b, |b.pieces|) && Moved(w, w')
    ensures Held(w', b, |b.pieces|)
  {
  }

  lemma OnlySlowIsNew(b: Plan, id: nat, x: Due)
    requires Fits(b) && |b.pieces| == PACKETS_PER_ROUTE && x in Rest(b, 1, Slow(b, id)) && x !in Out(b, |b.pieces|)
    ensures x == Slow(b, id)
  {
  }

  lemma FirstSlow(w: World, b: Plan)
    requires Fits(b) && Relayed(b.site, b.relay) && |b.pieces| == PACKETS_PER_ROUTE && Held(w, b, |b.pieces|) && Waits(w, Out(b, |b.pieces|), b.hop)
    ensures GoesOn(w, By(30.0 * b.hop, 0, [0]), b.hop)
  {
    var fore, fore' := Out(b, |b.pieces|), Rest(b, 1, Slow(b, w.nextId));
    SlowCarried(w, b);
    SlowIsLater(b);
    RestSpaced(b, 1, w.nextId);
    forall x | x in fore' && x.event.Arrival? && x !in fore ensures x.time >= fore[0].time + b.hop {
      OnlySlowIsNew(b, w.nextId, x);
    }
    WaitsPhysical(w, By(30.0 * b.hop, 0, [0]), fore, fore', b.hop);
  }

  lemma SlowLeg(w0: World, before: seq<Choice>, w1: World, b: Plan) returns (choices: seq<Choice>, w: World)
    requires Fits(b) && Relayed(b.site, b.relay) && |b.pieces| == PACKETS_PER_ROUTE
    requires Held(w1, b, |b.pieces|) && Waits(w1, Out(b, |b.pieces|), b.hop) && Leads(w0, before, w1, b.hop)
    ensures Leads(w0, choices, w, b.hop) && Held(w, b, |b.pieces|) && Waits(w, Rest(b, 1, Slow(b, w1.nextId)), b.hop)
  {
    SlowCarried(w1, b);
    HeldPassed(w1, Step(w1, By(30.0 * b.hop, 0, [0])), b);
    FirstSlow(w1, b);
    choices := LeadsOn(w0, before, w1, By(30.0 * b.hop, 0, [0]), b.hop);
    w := Step(w1, By(30.0 * b.hop, 0, [0]));
  }

  /** The relay loses every segment but the first. */
  lemma {:induction false} RestLost(w0: World, before: seq<Choice>, w1: World, b: Plan, i: nat, id: nat)
    returns (choices: seq<Choice>, w: World)
    requires Fits(b) && Relayed(b.site, b.relay) && |b.pieces| == PACKETS_PER_ROUTE && i <= |b.pieces|
    requires Leads(w0, before, w1, b.hop) && Held(w1, b, |b.pieces|) && Waits(w1, Rest(b, i, Slow(b, id)), b.hop)
    ensures Leads(w0, choices, w, b.hop) && Held(w, b, |b.pieces|)
    ensures OneOut(w, b.hop, 30.0 * b.hop, Segment(b.isn, b.ack, b.pieces, b.s, 0, b.site.server), [])
    decreases |b.pieces| - i
  {
    if i == |b.pieces| {
      choices, w := before, w1;
      assert Rest(b, |b.pieces|, Slow(b, id)) == [Slow(b, id)];
      OneNext(w, b.hop, Slow(b, id), Slow(b, id).event.packet);
    } else {
      choices := OneLost(w0, before, w1, b, i, id);
      choices, w := RestLost(w0, choices, Popped(w1), b, i + 1, id);
    }
  }

  lemma OneLost(w0: World, before: seq<Choice>, w: World, b: Plan, i: nat, id: nat) returns (choices: seq<Choice>)
    requires Fits(b) && Relayed(b.site, b.relay) && |b.pieces| == PACKETS_PER_ROUTE && i < |b.pieces|
    requires Leads(w0, before, w, b.hop) && Held(w, b, |b.pieces|) && Waits(w, Rest(b, i, Slow(b, id)), b.hop)
    ensures w.pending != [] && Leads(w0, choices, Popped(w), b.hop)
    ensures Held(Popped(w), b, |b.pieces|) && Waits(Popped(w), Rest(b, i + 1, Slow(b, id)), b.hop)
  {
    var fore := Rest(b, i, Slow(b, id));
    RestSpaced(b, i, id);
    assert fore[0] == Out(b, |b.pieces|)[i] && fore[1..] == Rest(b, i + 1, Slow(b, id));
    choices := LossLeg(w0, before, w, fore, b.hop);
  }

  // ---- the close ----

  /** The client has asked for the close. */
  ghost predicate ClosingDue(w: World, b: Plan)
  {
    && w.site == b.site && w.client.state.ESTABLISHED? && w.server.state.ESTABLISHED?
    && w.pending != [] && w.pending[0] == At(w.now, w.pending[0].id, Close) && w.now == 32.0 * b.hop + 0.2
    && Waits(w, [w.pending[0]], b.hop)
  }

  lemma RearmedWaits(w: World, fore: seq<Due>, hop: real, advanced: bool)
    requires Quick(hop) && Waits(w, fore, hop) && w.now >= 32.0 * hop + 0.2 && SessionClock.Sane(w.client.timer)
    ensures Waits(Rearmed(w, false, advanced), fore, hop)
  {
    SessionClock.TimerTakesTime(w.client);
    if advanced && Oldest(w.client).Some? {
      WaitsBehind(w, fore, hop, Timeout(Oldest(w.client).value), w.now + Rto(w.client));
    }
  }

  lemma AckingStaysOpen(ep: Endpoint, ack: u32, now: real)
    requires ep.state.ESTABLISHED?
    ensures Acknowledging(ep, ack, now).ep.state.ESTABLISHED?
  {
  }

  /** With all its traffic out, the client answers the first acknowledgement by asking for the close. */
  lemma AckAdvances(w: World, ack: u32)
    requires w.client.state.ESTABLISHED? && w.server.state.ESTABLISHED? && w.client.detector.duplicates == 0
    requires w.trafficGenerated && w.sent == w.total && !w.closeRequested
    ensures var out := Acknowledging(w.client, ack, w.now);
      var w1 := Rearmed(w.(client := out.ep), false, out.ok);
      && out.ep.state.ESTABLISHED? && w1.client == out.ep && w1.server == w.server && w1.site == w.site && w1.now == w.now
      && Advanced(AckReactions(w.(client := out.ep), false, out.ok)) == Scheduled(w1.(closeRequested := true), Close, 0.0)
  {
    AckingStaysOpen(w.client, ack, w.now);
    SessionFilling.OneDuplicate(w.client, ack, w.now);
  }

  lemma AsksForClose(w: World, b: Plan, t: real)
    requires Fits(b) && |b.pieces| == PACKETS_PER_ROUTE && AckBack(w, b, |b.pieces|, t) && t == 32.0 * b.hop + 0.2
    ensures GoesOn(w, By(t, 0, [0]), b.hop) && ClosingDue(Step(w, By(t, 0, [0])), b)
  {
    var x, c := w.pending[0], By(t, 0, [0]);
    var p := x.event.packet;
    assert [x] + [] == [x] && [x][1..] == [];
    WaitsPopped(w, [x], b.hop);
    PacketReaches(w, c, p);
    var w1 := Popped(w);
    var out := Acknowledging(w1.client, p.ack, t);
    AckAdvances(w1, p.ack);
    SessionClock.AcknowledgingSane(w1.client, p.ack, t);
    WaitsSame(w1, w1.(client := out.ep), [], b.hop);
    RearmedWaits(w1.(client := out.ep), [], b.hop, out.ok);
    var w2 := Rearmed(w1.(client := out.ep), false, out.ok).(closeRequested := true);
    WaitsSame(Rearmed(w1.(client := out.ep), false, out.ok), w2, [], b.hop);
    WaitsFront(w2, [], b.hop, Close, t + 0.0);
    var y := At(t + 0.0, w2.nextId, Close);
    assert Step(w, c) == Scheduled(w2, Close, 0.0);
    assert Step(w, c).pending[..1] == [y];
    WaitsPhysical(w, c, [x], [y], b.hop);
  }

  /** The client's FIN, and the server's. */
  function Fin(toServer: bool, ep: Endpoint, at: int): Packet { Packet(toServer, FIN, ep.seqNum, ep.expectedAck, [], at) }

  /** The client has sent its FIN, which is on its way. */
  ghost predicate FinOut(w: World, b: Plan, t: real, at: int)
  {
    && w.site == b.site && w.client.state.FIN_WAIT_1? && w.server.state.ESTABLISHED?
    && OneOut(w, b.hop, t, Fin(true, w.client, at), [])
  }

  lemma SendsFin(w: World, b: Plan)
    requires Fits(b) && Relayed(b.site, b.relay) && ClosingDue(w, b)
    ensures var c := By(33.0 * b.hop + 0.2, 0, [0]);
      GoesOn(w, c, b.hop) && FinOut(Step(w, c), b, 33.0 * b.hop + 0.2, b.relay)
  {
    var x, c := w.pending[0], By(33.0 * b.hop + 0.2, 0, [0]);
    assert [x][1..] == [];
    WaitsPopped(w, [x], b.hop);
    var w1 := Popped(w).(client := Connection.SendFin(w.client).ep);
    var q := Fin(true, w1.client, b.relay);
    assert Step(w, c) == ScheduledAt(w1, Arrival(q), c.offer.arrival);
    WaitsSame(Popped(w), w1, [], b.hop);
    WaitsFront(w1, [], b.hop, Arrival(q), c.offer.arrival);
    OneNext(Step(w, c), b.hop, At(c.offer.arrival, w1.nextId, Arrival(q)), q);
    WaitsPhysical(w, c, [x], [At(c.offer.arrival, w1.nextId, Arrival(q))], b.hop);
  }

  /** The server's link drops the acknowledgement it sends first and carries the FIN it sends next. */
  function AckDropped(arrival: real): Choice { Choice(Offer(false, arrival), Offer(true, arrival), 0, [0]) }

  /** The server's FIN on its way to a client that still waits for the acknowledgement of its own. */
  ghost predicate FinBack(w: World, b: Plan, t: real, at: int)
  {
    w.site == b.site && w.client.state.FIN_WAIT_1? && OneOut(w, b.hop, t, Fin(false, w.server, at), [])
  }

  lemma LosesFinAck(w: World, b: Plan, t: real)
    requires Fits(b) && Relayed(b.site, b.relay) && FinOut(w, b, t, b.site.server) && t + b.hop <= Horizon(b.hop)
    ensures var c := AckDropped(t + b.hop); GoesOn(w, c, b.hop) && FinBack(Step(w, c), b, t + b.hop, b.relay)
  {
    var x, c := w.pending[0], AckDropped(t + b.hop);
    var p := x.event.packet;
    assert [x] + [] == [x] && [x][1..] == [];
    WaitsPopped(w, [x], b.hop);
    var taken := ReceiveFin(w.server, p.seqNo).ep;
    var w1 := Popped(w).(server := Connection.SendFin(taken).ep);
    var q := Fin(false, w1.server, b.relay);
    FinAnswer(Popped(w), b, p, c);
    WaitsSame(Popped(w), w1, [], b.hop);
    WaitsFront(w1, [], b.hop, Arrival(q), t + b.hop);
    OneNext(Step(w, c), b.hop, At(t + b.hop, w1.nextId, Arrival(q)), q);
    WaitsPhysical(w, c, [x], [At(t + b.hop, w1.nextId, Arrival(q))], b.hop);
  }

  lemma FinAnswer(w: World, b: Plan, p: Packet, c: Choice)
    requires Relayed(b.site, b.relay) && w.site == b.site && w.client.state.FIN_WAIT_1? && w.server.state.ESTABLISHED?
    requires p.toServer && p.kind.FIN? && p.at == b.site.server && !c.offer.accepted && c.offer2.accepted
    ensures var w1 := w.(server := Connection.SendFin(ReceiveFin(w.server, p.seqNo).ep).ep);
      Execute(w, Arrival(p), c) == ScheduledAt(w1, Arrival(Fin(false, w1.server, b.relay)), c.offer2.arrival)
  {
  }

  /** The FIN finds the client waiting, which ends in CLOSING. */
  lemma EndsInClosing(w: World, b: Plan, t: real)
    requires Fits(b) && Relayed(b.site, b.relay) && FinBack(w, b, t, b.site.client) && t + b.hop <= Horizon(b.hop)
    ensures var c := By(t + b.hop, 0, [0]); GoesOn(w, c, b.hop) && Step(w, c).client.state.CLOSING?
  {
    var c, p := By(t + b.hop, 0, [0]), w.pending[0].event.packet;
    var ep := ReceiveFin(w.client, p.seqNo).ep;
    var q := Packet(true, ACK, ep.seqNum, ep.expectedAck, [], b.relay);
    assert Step(w, c) == ScheduledAt(Popped(w).(client := ep), Arrival(q), t + b.hop);
    Replies(w, b.hop, t, p, Popped(w).(client := ep), q, c);
  }

  // ---- the run ----

  lemma AllAhead(b: Plan)
    requires |b.pieces| == PACKETS_PER_ROUTE
    ensures Ahead(b, |b.pieces|) == Out(b, |b.pieces|)
  {
  }

  /** One segment on its way to the server, the others lost. */
  ghost predicate FirstOnly(w: World, b: Plan, t: real)
    requires b.pieces != []
  {
    Held(w, b, |b.pieces|) && OneOut(w, b.hop, t, Segment(b.isn, b.ack, b.pieces, b.s, 0, b.site.server), [])
  }

  lemma DataLeg(w0: World, before: seq<Choice>, w1: World, b: Plan) returns (choices: seq<Choice>, w: World)
    requires Fits(b) && Relayed(b.site, b.relay) && |b.pieces| == PACKETS_PER_ROUTE
    requires Sending(w1, b, |b.pieces|) && Leads(w0, before, w1, b.hop)
    ensures Leads(w0, choices, w, b.hop) && FirstOnly(w, b, 30.0 * b.hop)
  {
    AllAhead(b);
    choices, w := SlowLeg(w0, before, w1, b);
    choices, w := RestLost(w0, choices, w, b, 1, w1.nextId);
  }

  lemma ReplyLeg(w0: World, before: seq<Choice>, w1: World, b: Plan) returns (choices: seq<Choice>, w: World)
    requires Fits(b) && Relayed(b.site, b.relay) && |b.pieces| == PACKETS_PER_ROUTE
    requires FirstOnly(w1, b, 30.0 * b.hop) && Leads(w0, before, w1, b.hop)
    ensures Leads(w0, choices, w, b.hop) && AckBack(w, b, |b.pieces|, 32.0 * b.hop + 0.2)
  {
    var t := 30.0 * b.hop;
    assert t + 0.2 + b.hop + b.hop == 32.0 * b.hop + 0.2;
    choices, w := FirstAckLeg(w0, before, w1, b, |b.pieces|, t);
  }

  lemma FinLeg(w0: World, before: seq<Choice>, w1: World, b: Plan) returns (choices: seq<Choice>, w: World)
    requires Fits(b) && Relayed(b.site, b.relay) && ClosingDue(w1, b) && Leads(w0, before, w1, b.hop)
    ensures Leads(w0, choices, w, b.hop) && FinOut(w, b, 34.0 * b.hop + 0.2, b.site.server)
  {
    SendsFin(w1, b);
    var c := By(33.0 * b.hop + 0.2, 0, [0]);
    choices := LeadsOn(w0, before, w1, c, b.hop);
    var w2 := Step(w1, c);
    choices, w := RelayLeg(w0, choices, w2, b.relay, b.hop, 33.0 * b.hop + 0.2, Fin(true, w2.client, b.relay));
  }

  lemma FinBackLeg(w0: World, before: seq<Choice>, w1: World, b: Plan) returns (choices: seq<Choice>, w: World)
    requires Fits(b) && Relayed(b.site, b.relay) && FinOut(w1, b, 34.0 * b.hop + 0.2, b.site.server) && Leads(w0, before, w1, b.hop)
    ensures Leads(w0, choices, w, b.hop) && FinBack(w, b, 36.0 * b.hop + 0.2, b.site.client)
  {
    var t := 34.0 * b.hop + 0.2;
    LosesFinAck(w1, b, t);
    choices := LeadsOn(w0, before, w1, AckDropped(t + b.hop), b.hop);
    var w2 := Step(w1, AckDropped(t + b.hop));
    choices, w := RelayLeg(w0, choices, w2, b.relay, b.hop, t + b.hop, Fin(false, w2.server, b.relay));
  }

  lemma CloseLeg(w0: World, before: seq<Choice>, w1: World, b: Plan) returns (choices: seq<Choice>, w: World)
    requires Fits(b) && Relayed(b.site, b.relay) && |b.pieces| == PACKETS_PER_ROUTE
    requires AckBack(w1, b, |b.pieces|, 32.0 * b.hop + 0.2) && Leads(w0, before, w1, b.hop)
    ensures Leads(w0, choices, w, b.hop) && FinBack(w, b, 36.0 * b.hop + 0.2, b.site.client)
  {
    var t := 32.0 * b.hop + 0.2;
    AsksForClose(w1, b, t);
    choices := LeadsOn(w0, before, w1, By(t, 0, [0]), b.hop);
    choices, w := FinLeg(w0, choices, Step(w1, By(t, 0, [0])), b);
    choices, w := FinBackLeg(w0, choices, w, b);
  }

  lemma ClosingLeg(w0: World, before: seq<Choice>, w1: World, b: Plan, t: real) returns (choices: seq<Choice>, w: World)
    requires Fits(b) && Relayed(b.site, b.relay) && FinBack(w1, b, t, b.site.client) && Leads(w0, before, w1, b.hop)
    requires t + b.hop <= Horizon(b.hop)
    ensures Leads(w0, choices, w, b.hop) && w.client.state.CLOSING?
  {
    EndsInClosing(w1, b, t);
    choices := LeadsOn(w0, before, w1, By(t + b.hop, 0, [0]), b.hop);
    w := Step(w1, By(t + b.hop, 0, [0]));
  }

  /** The client never gets to TIME_WAIT from here: it stays in CLOSING, or fails a retransmission. */
  ghost predicate Stranded(w: World)
  {
    && w.client.state.CLOSING?
    && forall rest: seq<Choice> :: Run(w, rest).client.state.CLOSING? || Run(w, rest).client.state.CLOSED?
  }

  lemma ClosingStrands(site: Site, choices: seq<Choice>, w: World)
    requires w == Run(Start(site, TS.CLOSED), choices) && w.client.state.CLOSING?
    ensures Stranded(w)
  {
    SessionSafety.RunKeepsInv(site, TS.CLOSED, choices);
    forall rest: seq<Choice> ensures Run(w, rest).client.state.CLOSING? || Run(w, rest).client.state.CLOSED? {
      SessionClosing.ClosingIsFinal(w, rest);
    }
  }

  /**
    For every initial number and any twenty equal segments that fit the window there is a run that strands the
    client: the one packet that matters, the acknowledgement of its FIN, is dropped by the first link on its way.
   */
  lemma LostAckStrands(site: Site, relay: nat, hop: real, isn: u32, pieces: seq<seq<byte>>, s: nat)
    returns (choices: seq<Choice>, w: World)
    requires |pieces| == PACKETS_PER_ROUTE && Batch(pieces, s) && Quick(hop) && Relayed(site, relay)
    ensures Leads(Start(site, TS.CLOSED), choices, w, hop) && Stranded(w)
  {
    var b;
    choices, w, b := BatchLeaves(site, relay, isn, pieces, s, hop);
    choices, w := FromBatch(Start(site, TS.CLOSED), choices, w, b);
    ClosingStrands(site, choices, w);
  }

  lemma FromBatch(w0: World, before: seq<Choice>, w1: World, b: Plan) returns (choices: seq<Choice>, w: World)
    requires Fits(b) && Relayed(b.site, b.relay) && |b.pieces| == PACKETS_PER_ROUTE && Sending(w1, b, |b.pieces|) && Leads(w0, before, w1, b.hop)
    ensures Leads(w0, choices, w, b.hop) && w.client.state.CLOSING?
  {
    choices, w := DataLeg(w0, before, w1, b);
    choices, w := ReplyLeg(w0, choices, w, b);
    choices, w := CloseLeg(w0, choices, w, b);
    choices, w := ClosingLeg(w0, choices, w, b, 36.0 * b.hop + 0.2);
  }
}
