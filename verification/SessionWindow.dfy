/**
  Flow control over whole runs: the window turns a missing piece away only because of its number, never for want of
  room. Once the traffic is generated only what is unacknowledged is sent again, so all the server may be made to
  store lies within one window of the stream.
 */
module SessionWindow {
  import opened Common
  import opened Word32
  import opened Connection
  import opened Session
  import opened SessionStream
  import opened SessionSafety
  import opened SessionResults
  import opened SessionStore
  import opened SessionFilling
  import opened SessionWaves
  import opened Reassembly
  import SessionClock
  import TS = TcpState
  import RB = ReceiveBuffer
  import SB = SendBuffer

  // ---- after the traffic ----

  lemma SettledSchedules(w: World, lo: nat, e: Event, at: real)
    requires Settled(w, lo) && SettledEvent(w.stream, lo, e)
    ensures Settled(ScheduledAt(w, e, at), lo)
  {
  }

  lemma SettledSends(w: World, lo: nat, p: Packet, o: Offer)
    requires Settled(w, lo) && SettledEvent(w.stream, lo, Arrival(p))
    ensures Settled(Sent(w, p, o), lo)
  {
    if Taken(w, p, o) { SettledSchedules(w, lo, Arrival(p.(at := NextNode(w.site, p))), o.arrival); }
  }

  /** The send buffer may only shrink. */
  lemma SettledSame(w: World, w': World, lo: nat)
    requires Settled(w, lo) && w'.pending == w.pending && w'.stream == w.stream && w'.trafficGenerated
    requires w'.server.receiveBuffer.entries == w.server.receiveBuffer.entries
    requires |w'.client.sendBuffer| <= |w.client.sendBuffer|
    ensures Settled(w', lo)
  {
  }

  lemma SettledEnd(w: World, lo: nat, server: bool, ep: Endpoint)
    requires Settled(w, lo) && |ep.sendBuffer| <= |Session.End(w, server).sendBuffer|
    requires ep.receiveBuffer == Session.End(w, server).receiveBuffer
    ensures Settled(WithEnd(w, server, ep), lo)
  {
    SettledSame(w, WithEnd(w, server, ep), lo);
  }

  lemma SettledReactions(w: World, lo: nat, toServer: bool, advanced: bool)
    requires Settled(w, lo)
    ensures Settled(AckReactions(w, toServer, advanced), lo)
  {
    var ep, w1 := Session.End(w, toServer), Rearmed(w, toServer, advanced);
    if advanced && Oldest(ep).Some? { SettledSchedules(w, lo, Timeout(Oldest(ep).value), w.now + Rto(ep)); }
    var reset := DetectionReset(Session.End(w1, toServer));
    SettledEnd(w1, lo, toServer, reset);
    SettledSchedules(WithEnd(w1, toServer, reset), lo, FastRetransmission, w1.now + 0.0);
  }

  /** The traffic is not started twice. */
  lemma SettledAdvanced(w: World, lo: nat)
    requires Settled(w, lo)
    ensures Settled(Advanced(w), lo)
  {
    SettledSame(w, w.(closeRequested := true), lo);
    SettledSchedules(w.(closeRequested := true), lo, Close, w.now + 0.0);
  }

  lemma ReleasedShrinks(ep: Endpoint, ack: u32, now: real)
    ensures var ep' := Acknowledging(ep, ack, now).ep;
      |ep'.sendBuffer| <= |ep.sendBuffer| && ep'.receiveBuffer == ep.receiveBuffer
  {
  }

  lemma SettledAck(w: World, lo: nat, p: Packet)
    requires Settled(w, lo)
    ensures Settled(OnAck(w, p), lo)
  {
    var out := Acknowledging(Session.End(w, p.toServer), p.ack, w.now);
    ReleasedShrinks(Session.End(w, p.toServer), p.ack, w.now);
    SettledEnd(w, lo, p.toServer, out.ep);
    var w1 := WithEnd(w, p.toServer, out.ep);
    SettledReactions(w1, lo, p.toServer, out.ok);
    SettledAdvanced(AckReactions(w1, p.toServer, out.ok), lo);
  }

  lemma SettledTaken(w: World, lo: nat, p: Packet)
    requires Settled(w, lo) && p.toServer && PieceFrom(w.stream, p.seqNo, p.payload, lo)
    ensures Settled(DataTaken(w, p), lo)
  {
    var b, s := w.server.receiveBuffer, RB.Segment(p.seqNo, p.payload);
    PushedFrom(w.stream, b, s, lo);
    DrainedWithin(RB.Pushed(b, s));
  }

  lemma SettledPlain(w: World, lo: nat, kind: Kind, server: bool, o: Offer)
    requires Settled(w, lo) && !kind.DATA?
    ensures Settled(Sent(w, PlainPacket(w.site, kind, !server, Session.End(w, server)), o), lo)
  {
    SettledSends(w, lo, PlainPacket(w.site, kind, !server, Session.End(w, server)), o);
  }

  lemma SettledData(w: World, lo: nat, p: Packet, c: Choice)
    requires Settled(w, lo) && p.toServer && PieceFrom(w.stream, p.seqNo, p.payload, lo)
    ensures Settled(OnData(w, p, c), lo)
  {
    SettledTaken(w, lo, p);
    var w1 := DataTaken(w, p);
    var prompt, later := w1.(server := w1.server.(delayedAck := false)), w1.(server := w1.server.(delayedAck := true));
    SettledSame(w1, prompt, lo);
    SettledPlain(prompt, lo, ACK, true, c.offer);
    SettledSame(w1, later, lo);
    SettledSchedules(later, lo, DelayedAck(true, w1.server.expectedAck), w1.now + ACK_DELAY);
  }

  lemma SettledDelayedAck(w: World, lo: nat, atServer: bool, number: u32, c: Choice)
    requires Settled(w, lo)
    ensures Settled(OnDelayedAck(w, atServer, number, c), lo)
  {
    var w1 := WithEnd(w, atServer, Session.End(w, atServer).(delayedAck := false));
    SettledEnd(w, lo, atServer, Session.End(w, atServer).(delayedAck := false));
    SettledPlain(w1, lo, ACK, atServer, c.offer);
  }

  lemma SettledClient(w: World, lo: nat, client: Endpoint)
    requires Settled(w, lo) && |client.sendBuffer| <= |w.client.sendBuffer|
    ensures Settled(w.(client := client), lo)
  {
    SettledSame(w, w.(client := client), lo);
  }

  lemma SettledTimeout(w: World, lo: nat, seqNo: u32)
    requires Settled(w, lo)
    ensures Settled(OnTimeout(w, seqNo), lo)
  {
    SettledClient(w, lo, FailRetransmission(w.client));
    SettledClient(w, lo, SendTimeout(w.client));
    SettledSchedules(w.(client := SendTimeout(w.client)), lo, Retransmission(seqNo), w.now + 0.0);
  }

  /** Only what is still unacknowledged is sent again. */
  lemma SettledResent(w: World, k: nat, lo: nat, seqNo: u32, c: Choice)
    requires OpenAt(w, k) && Settled(w, lo)
    ensures Settled(Resent(w, seqNo, c), lo)
  {
    var entries, i := w.client.sendBuffer, SB.Find(w.client.sendBuffer, seqNo);
    if i < |entries| {
      var w1 := w.(client := MarkRetransmitted(w.client, seqNo, w.now), log := w.log + [Transmission(seqNo, w.now)]);
      SettledSame(w, w1, lo);
      StoredIsPiece(w, k, i);
      assert PieceFrom(w.stream, seqNo, entries[i].payload, lo);
      var packet := DataPacket(w.site, seqNo, entries[i].ack, entries[i].payload);
      SettledSends(w1, lo, packet, c.offer);
      SettledSchedules(Sent(w1, packet, c.offer), lo, Timeout(seqNo), w1.now + Rto(w1.client));
    }
  }

  lemma SettledRetransmissions(w: World, k: nat, lo: nat, seqNo: u32, c: Choice)
    requires OpenAt(w, k) && Settled(w, lo)
    ensures Settled(OnRetransmission(w, seqNo, c), lo) && Settled(OnFastRetransmission(w, c), lo)
  {
    SettledClient(w, lo, FailRetransmission(w.client));
    SettledResent(w, k, lo, seqNo, c);
    if w.client.sendBuffer != [] {
      SameFlowOpen(w, Cut(w), k);
      SettledClient(w, lo, Cut(w).client);
      SettledResent(Cut(w), k, lo, w.client.sendBuffer[0].seqNo, c);
    }
  }

  lemma SettledClose(w: World, lo: nat, c: Choice)
    requires Settled(w, lo)
    ensures Settled(OnClose(w, c), lo)
  {
    var out := SendFin(w.client);
    SettledClient(w, lo, out.ep);
    SettledPlain(w.(client := out.ep), lo, FIN, false, c.offer);
  }

  lemma SettledArrival(w: World, k: nat, lo: nat, p: Packet, c: Choice)
    requires OpenAt(w, k) && Settled(w, lo) && OpenEvent(Arrival(p)) && SettledEvent(w.stream, lo, Arrival(p))
    ensures Settled(OnArrival(w, p, c), lo)
  {
    if p.at != Home(w.site, p.toServer) { SettledSends(w, lo, p, c.offer); }
    else {
      OpenIdleEvents(w, k, p, c);
      if p.kind.ACK? { SettledAck(w, lo, p); }
      if p.kind.DATA? { SettledData(w, lo, p, c); }
    }
  }

  lemma SettledExecute(w: World, k: nat, lo: nat, e: Event, c: Choice)
    requires OpenAt(w, k) && Settled(w, lo) && OpenEvent(e) && SettledEvent(w.stream, lo, e)
    ensures Settled(Execute(w, e, c), lo)
  {
    match e
    case Arrival(p) => SettledArrival(w, k, lo, p, c);
    case HandshakeTimeout => assert Execute(w, e, c) == w;
    case DelayedAck(atServer, number) => SettledDelayedAck(w, lo, atServer, number, c);
    case Timeout(seqNo) => SettledTimeout(w, lo, seqNo);
    case Retransmission(seqNo) => SettledRetransmissions(w, k, lo, seqNo, c);
    case FastRetransmission => SettledRetransmissions(w, k, lo, 0, c);
    case Close => SettledClose(w, lo, c);
    case TimeWaitTimeout => assert Execute(w, e, c) == w;
    case _ =>
  }

  lemma SettledStep(w: World, k: nat, lo: nat, c: Choice)
    requires OpenAt(w, k) && Settled(w, lo) && Enabled(w, c)
    ensures Settled(Step(w, c), lo)
  {
    PoppedOpen(w, k);
    assert w.pending[0] in w.pending;
    SettledSame(w.(pending := w.pending[1..]), Popped(w), lo);
    SettledExecute(Popped(w), k, lo, w.pending[0].event, c);
  }

  // ---- every run ----

  ghost predicate Phase(w: World, k: nat)
  {
    OpenAt(w, k) && (Silent(w) || FillingOrSettled(w, k))
  }

  ghost predicate Phased(w: World)
  {
    Idle(w) || Opening(w) || Over(w) || exists k: nat :: Phase(w, k)
  }

  /** The server stands at one piece only. */
  lemma OneStand(w: World, k: nat, j: nat)
    requires OpenAt(w, k) && j <= |w.stream.pieces| && w.server.receiveBuffer.next == Word(w.stream, j)
    ensures j == k
  {
    if j != k { WordsDiffer(w.stream, j, k); }
  }

  lemma PhaseAt(w: World, k: nat, j: nat)
    requires OpenAt(w, k) && FillingOrSettled(w, j)
    ensures Phase(w, k)
  {
    if gen: Due :| Filling(w, j, gen) { OneStand(w, k, j); }
  }

  lemma PhaseStep(w: World, k: nat, c: Choice)
    requires Phase(w, k) && SessionClock.OnTime(w) && Enabled(w, c)
    ensures Phased(Step(w, c))
  {
    OpenStep(w, k, c);
    var j := k;
    if Silent(w) { SilentStep(w, c); }
    else if gen: Due :| Filling(w, k, gen) { j := FillingStep(w, k, gen, c); }
    else {
      var lo: nat :| Settled(w, lo);
      SettledStep(w, k, lo, c);
    }
    if Open(Step(w, c)) {
      var i: nat :| OpenAt(Step(w, c), i);
      if FillingOrSettled(Step(w, c), j) { PhaseAt(Step(w, c), i, j); }
      assert Phase(Step(w, c), i);
    }
  }

  lemma OpeningPhases(w: World, c: Choice)
    requires Opening(w)
    ensures Phased(Step(w, c))
  {
    OpeningStep(w, c);
    if Enabled(w, c) {
      PoppedOpening(w);
      var w1, e := Popped(w), w.pending[0].event;
      if e.Arrival? && e.packet.kind.SYN_ACK? && e.packet.at == Home(w1.site, false) {
        OpensSilent(w1, e.packet, c);
        OpeningSynAck(w1, e.packet, c);
        assert Phase(Step(w, c), 0);
      } else {
        OpeningStays(w, c);
      }
    }
  }

  lemma OpeningStays(w: World, c: Choice)
    requires Opening(w) && Enabled(w, c)
    requires var e := w.pending[0].event; e.Arrival? && e.packet.kind.SYN_ACK? ==> e.packet.at != w.site.client
    ensures Opening(Step(w, c))
  {
    PoppedOpening(w);
    var w1, e := Popped(w), w.pending[0].event;
    if e.HandshakeTimeout? { OpeningTimer(w1, c); }
    else if e.packet.at != Home(w1.site, e.packet.toServer) { OpeningSends(w1, e.packet, c.offer); }
    else { OpeningSyn(w1, e.packet, c); }
  }

  lemma {:induction false} RunKeepsPhased(site: Site, serverState: TS.State, choices: seq<Choice>)
    requires serverState.CLOSED? || serverState.LISTEN?
    ensures Phased(Run(Session.Start(site, serverState), choices))
  {
    if choices != [] {
      var before, c := choices[..|choices| - 1], choices[|choices| - 1];
      var w := Run(Session.Start(site, serverState), before);
      RunKeepsPhased(site, serverState, before);
      SessionClock.RunOnTime(site, serverState, before);
      StepKeepsPhased(w, c);
    }
  }

  lemma StepKeepsPhased(w: World, c: Choice)
    requires Phased(w) && SessionClock.OnTime(w)
    ensures Phased(Step(w, c))
  {
    if Idle(w) { IdleStep(w, c); }
    else if Opening(w) { OpeningPhases(w, c); }
    else if Over(w) { OverStep(w, c); }
    else if Enabled(w, c) {
      var k: nat :| Phase(w, k);
      PhaseStep(w, k, c);
    }
  }

  // ---- main results ----

  /** What the server stores, with all that is still to come, lies in one window's worth of the stream. */
  lemma StoredInWindow(w: World, k: nat) returns (lo: nat)
    requires Phase(w, k)
    ensures lo <= Una(w) && StoredFrom(w.stream, w.server.receiveBuffer.entries, lo)
    ensures Offset(w.stream.pieces, |w.stream.pieces|) - Offset(w.stream.pieces, lo) <= DEFAULT_WINDOW
  {
    lo := Una(w);
    if gen: Due :| Filling(w, k, gen) {
      forall s | s in w.server.receiveBuffer.entries ensures PieceFrom(w.stream, s.seqNo, s.payload, lo) {
        assert PieceFrom(w.stream, s.seqNo, s.payload, k);
      }
    } else if !Silent(w) {
      lo :| Settled(w, lo);
    }
  }

  /** There is always room for a missing piece. */
  lemma RoomForMissing(w: World, k: nat, i: nat)
    requires Phase(w, k) && i < |w.stream.pieces| && Missing(w.stream, w.server.receiveBuffer, k, i)
    ensures |w.stream.pieces[i]| <= RB.Available(w.server.receiveBuffer)
  {
    var lo := StoredInWindow(w, k);
    MissingFits(w.stream, w.server.receiveBuffer, k, lo, i);
  }

  /** The server has handed over k pieces and admits piece i, if it is missing, exactly for its number. */
  ghost predicate AdmitsByNumber(w: World, k: nat, i: nat)
    requires i < |w.stream.pieces|
  {
    var p, s := w.stream, RB.Segment(Word(w.stream, i), w.stream.pieces[i]);
    && ReadUpTo(w, Una(w), k)
    && (Missing(p, w.server.receiveBuffer, k, i) ==>
          && (RB.Admits(w.server.receiveBuffer, s) <==> s.seqNo >= w.server.expectedAck)
          && (s.seqNo >= w.server.expectedAck <==> Plain(p, i) || !Plain(p, k)))
  }

  /**
    Flow control, for every run and every initial number: a piece of the stream that the server has neither handed
    over nor stored is admitted exactly when its 32-bit number is not below RCV.NXT, which fails exactly when the
    piece, and not yet RCV.NXT, lies past the top of the sequence space. Room is never the reason.
   */
  lemma {:induction false} MissingAdmittedIff(site: Site, serverState: TS.State, choices: seq<Choice>, i: nat)
    requires Fresh(serverState)
    ensures var w := Run(Session.Start(site, serverState), choices);
      w.client.state.ESTABLISHED? && i < |w.stream.pieces| ==> exists k: nat :: AdmitsByNumber(w, k, i)
  {
    RunKeepsPhased(site, serverState, choices);
    var w := Run(Session.Start(site, serverState), choices);
    if w.client.state.ESTABLISHED? && i < |w.stream.pieces| {
      var k: nat :| Phase(w, k);
      OpenReads(w, k);
      if Missing(w.stream, w.server.receiveBuffer, k, i) {
        NotBefore(w.stream, k, i);
        RoomForMissing(w, k, i);
      }
      assert AdmitsByNumber(w, k, i);
    }
  }

  /** Below 2^32 the window refuses exactly what has been handed over or stored, so data never blocks the missing piece. */
  lemma {:induction false} WindowNeverRejects(site: Site, serverState: TS.State, choices: seq<Choice>, i: nat)
    requires Fresh(serverState)
    ensures var w := Run(Session.Start(site, serverState), choices);
      w.client.state.ESTABLISHED? && NoWrap(w) && i < |w.stream.pieces| ==>
        exists k: nat :: ReadUpTo(w, Una(w), k) &&
          RB.Admits(w.server.receiveBuffer, RB.Segment(Word(w.stream, i), w.stream.pieces[i]))
            == Missing(w.stream, w.server.receiveBuffer, k, i)
  {
    RunKeepsPhased(site, serverState, choices);
    var w := Run(Session.Start(site, serverState), choices);
    if w.client.state.ESTABLISHED? && NoWrap(w) && i < |w.stream.pieces| {
      var k: nat :| Phase(w, k);
      OpenReads(w, k);
      PlainOrder(w.stream, k, i);
      if Missing(w.stream, w.server.receiveBuffer, k, i) { RoomForMissing(w, k, i); }
    }
  }
}
