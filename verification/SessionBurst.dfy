/**
  What is known before a session starts. When packets take time, no acknowledgement arrives during the instant in
  which the traffic is generated; so with equal segments the window decides in advance how many get out.
 */
module SessionBurst {
  import opened Common
  import opened Word32
  import opened Connection
  import opened Session
  import opened SessionStream
  import opened SessionSafety
  import opened SessionResults
  import opened SessionWaves
  import opened SessionFilling
  import opened SessionWindow
  import opened SessionTraffic
  import opened Reassembly
  import SessionClock
  import EventQueues
  import TS = TcpState

  predicate Pending(w: World) { exists x :: x in w.pending && x.event.Generate? }

  /** Segments all of one size, and links that take time. */
  predicate Plain(w: World, c: Choice, s: nat)
  {
    |c.payload| == s && (Enabled(w, c) ==> c.offer.arrival > w.pending[0].time && c.offer2.arrival > w.pending[0].time)
  }

  predicate Uniform(w: World, choices: seq<Choice>, s: nat)
  {
    choices == [] ||
    (Uniform(w, choices[..|choices| - 1], s) && Plain(Run(w, choices[..|choices| - 1]), choices[|choices| - 1], s))
  }

  /** The client's link refuses a new segment. */
  predicate Refuses(w: World, c: Choice)
  {
    && Enabled(w, c) && w.pending[0].event.Generate?
    && !Taken(Popped(w), DataPacket(w.site, w.client.seqNum, w.client.expectedAck, c.payload), c.offer)
  }

  predicate NeverRefused(w: World, choices: seq<Choice>)
  {
    choices == [] ||
    (NeverRefused(w, choices[..|choices| - 1]) && !Refuses(Run(w, choices[..|choices| - 1]), choices[|choices| - 1]))
  }

  // ---- the burst ----

  /** All that has been generated is still stored, and nothing generated or acknowledged arrives yet. */
  ghost predicate Bursting(w: World, s: nat)
  {
    && BothEstablished(w) && |w.client.sendBuffer| == |w.stream.pieces|
    && (forall i :: 0 <= i < |w.stream.pieces| ==> |w.stream.pieces[i]| == s)
    && forall x :: x in w.pending && (IsData(x.event) || IsReply(x.event)) ==> x.time > w.now
  }

  ghost predicate Burst(w: World, s: nat) { Pending(w) ==> Bursting(w, s) }

  lemma SilentHasNone(w: World)
    requires Silent(w)
    ensures !Pending(w)
  {
    forall x | x in w.pending ensures !x.event.Generate? { assert SilentEvent(w.server, x.event); }
  }

  lemma SettledHasNone(w: World, lo: nat)
    requires Settled(w, lo)
    ensures !Pending(w)
  {
    forall x | x in w.pending ensures !x.event.Generate? { assert SettledEvent(w.stream, lo, x.event); }
  }

  /** A pending generation is the one the traffic phase knows of. */
  lemma BurstFills(w: World, s: nat) returns (k: nat, gen: Due)
    requires Phased(w) && Pending(w) && Bursting(w, s)
    ensures OpenAt(w, k) && Filling(w, k, gen)
  {
    k :| Phase(w, k);
    forall lo: nat ensures !Settled(w, lo) { if Settled(w, lo) { SettledHasNone(w, lo); } }
    if Silent(w) { SilentHasNone(w); }
    gen :| Filling(w, k, gen);
  }

  lemma {:induction false} UniformOffset(pieces: seq<seq<byte>>, s: nat, n: nat)
    requires n <= |pieces| && forall i :: 0 <= i < |pieces| ==> |pieces[i]| == s
    ensures Offset(pieces, n) == n * s
  {
    if n > 0 {
      UniformOffset(pieces, s, n - 1);
      assert n * s == (n - 1) * s + s;
    }
  }

  lemma RoomTest(ep: Endpoint, flight: nat, s: nat)
    requires ep.window == DEFAULT_WINDOW && Wrap(ep.seqNum - ep.unacknowledged) == flight
    ensures CanSend(ep, s) <==> flight + s <= DEFAULT_WINDOW
  {
  }

  lemma OneMore(n: nat, s: nat)
    ensures (n + 1) * s == n * s + s
  {
  }

  /** In the burst the window has room exactly while all that was sent fits it. */
  lemma RoomIff(w: World, k: nat, s: nat)
    requires OpenAt(w, k) && Bursting(w, s)
    ensures CanSend(w.client, s) <==> (w.sent + 1) * s <= DEFAULT_WINDOW
  {
    var pieces, n := w.stream.pieces, |w.stream.pieces|;
    FlightInBytes(w, k);
    UniformOffset(pieces, s, n);
    RoomTest(w.client, Offset(pieces, n), s);
    OneMore(n, s);
  }

  // ---- an event before the next generation ----

  /** The head taken off, with nothing of the burst in it. */
  lemma FrontPopped(w: World, k: nat, gen: Due, s: nat)
    requires Front(w, k, gen) && Bursting(w, s)
    ensures Bursting(Popped(w), s) && Popped(w).sent == w.sent && Popped(w).total == w.total
  {
    FrontFacts(w, k, gen);
    HeadOnce(w.pending);
    assert w.pending[0] in w.pending;
  }

  /** Late handshake packets move on or find nothing to do. */
  lemma FrontIsLate(w: World, k: nat, gen: Due, s: nat, c: Choice)
    requires Front(w, k, gen) && Bursting(w, s) && Enabled(w, c)
    ensures Bursting(Step(w, c), s) && Step(w, c).sent == w.sent && Step(w, c).total == w.total
  {
    FrontFacts(w, k, gen);
    FrontPopped(w, k, gen, s);
    PoppedOpen(w, k);
    var w1, e := Popped(w), w.pending[0].event;
    assert w.pending[0] in w.pending && !IsData(e) && !IsReply(e);
    if e.Arrival? {
      OpenIdleEvents(w1, k, e.packet, c);
      SameSends(w1, e.packet, c.offer);
    }
  }

  // ---- a generation ----

  lemma GenerationBursts(w: World, k: nat, gen: Due, s: nat, c: Choice)
    requires OpenAt(w, k) && SessionClock.OnTime(w) && Filling(w, k, gen) && w.pending[0] == gen && Bursting(w, s)
    requires Enabled(w, c) && Plain(w, c, s) && Generating(Popped(w), c)
    ensures Bursting(Step(w, c), s) && (Pending(Step(w, c)) <==> w.sent + 1 != w.total)
    ensures Step(w, c).sent == w.sent + 1 && Step(w, c).total == w.total && Step(w, c).trafficGenerated
  {
    GenerationPopped(w, k, gen);
    HeadOnce(w.pending);
    var w1 := Popped(w);
    var packet := DataPacket(w1.site, w1.client.seqNum, w1.client.expectedAck, c.payload);
    QueuedClient(w1.client, c.payload, w1.now);
    SendThenQueue(w1, packet, c.offer, c.payload);
    var w2 := Sent(Queued(w1, c.payload), packet, c.offer);
    assert Step(w, c) == Continued(w2, w1.client.seqNum, w1.client.sendBuffer == []);
    assert Bursting(w2, s) && !Pending(w2);
    ContinuedBursts(w2, s, w1.client.seqNum, w1.client.sendBuffer == []);
  }

  lemma ContinuedBursts(w: World, s: nat, seqNo: u32, first: bool)
    requires Bursting(w, s) && !Pending(w)
    ensures var w' := Continued(w, seqNo, first);
      && Bursting(w', s) && (Pending(w') <==> w.sent != w.total)
      && w'.sent == w.sent && w'.total == w.total && w'.trafficGenerated == w.trafficGenerated
  {
    var w1 := if first then Scheduled(w, Timeout(seqNo), Rto(w.client)) else w;
    assert !Pending(w1);
    if w.sent != w.total {
      var x := EventQueues.Timed(w1.now + 0.0, w1.nextId, Generate);
      assert x in Scheduled(w1, Generate, 0.0).pending;
    }
  }

  // ---- without a generation ----

  /** What a step without a generation may do to the traffic: nothing, or start it. */
  ghost predicate Goes(w: World, w': World, s: nat)
  {
    && w'.sent == w.sent && (w.trafficGenerated ==> w'.trafficGenerated && w'.total == w.total && !Pending(w'))
    && (w'.trafficGenerated && !w.trafficGenerated ==> Pending(w') && w'.total == PACKETS_PER_ROUTE)
    && Burst(w', s)
  }

  lemma SameGoes(w: World, w': World, s: nat)
    requires SameTraffic(w, w') && !Pending(w)
    ensures Goes(w, w', s)
  {
  }

  predicate AckHome(w: World, e: Event) { e.Arrival? && e.packet.kind.ACK? && e.packet.at == Home(w.site, e.packet.toServer) }

  lemma AdvancedGoes(w: World, s: nat)
    requires !Pending(w) && (w.trafficGenerated || !BothEstablished(w))
    ensures Goes(w, Advanced(w), s)
  {
    SameSchedules(w.(closeRequested := true), Close, w.now + 0.0);
  }

  lemma GoesThen(w: World, w1: World, w2: World, s: nat)
    requires SameTraffic(w, w1) && !Pending(w) && Goes(w1, w2, s)
    ensures Goes(w, w2, s)
  {
  }

  /** An acknowledgement that finds the traffic under way or an end not established. */
  lemma AckGoes(w: World, p: Packet, s: nat)
    requires !Pending(w) && (w.trafficGenerated || !BothEstablished(OnAck(w, p)))
    ensures Goes(w, OnAck(w, p), s)
  {
    var out := Acknowledging(Session.End(w, p.toServer), p.ack, w.now);
    var w1 := WithEnd(w, p.toServer, out.ep);
    var w2 := AckReactions(w1, p.toServer, out.ok);
    SameReactions(w1, p.toServer, out.ok);
    SameThen(w, w1, w2);
    SameGoes(w, w2, s);
    AdvancedGoes(w2, s);
    GoesThen(w, w2, Advanced(w2), s);
  }

  lemma AckStarts(w: World, p: Packet, s: nat)
    requires OpenAt(w, 0) && Silent(w) && SilentEvent(w.server, Arrival(p)) && p.kind.ACK?
    requires forall x :: x in w.pending ==> !IsAck(x.event)
    ensures Goes(w, OnAck(w, p), s)
  {
    var gen := TrafficStarts(w, p);
    assert gen in OnAck(w, p).pending;
  }

  lemma ClientStaysOver(w: World, p: Packet)
    requires Over(w)
    ensures !BothEstablished(OnAck(w, p))
  {
    OverAck(w, p);
  }

  lemma SilentAtZero(w: World, k: nat)
    requires OpenAt(w, k) && Silent(w)
    ensures OpenAt(w, 0)
  {
  }

  lemma AckStep(w: World, c: Choice, s: nat)
    requires Phased(w) && SessionClock.OnTime(w) && !Pending(w) && Enabled(w, c) && AckHome(w, w.pending[0].event)
    ensures Goes(w, Step(w, c), s)
  {
    var p := w.pending[0].event.packet;
    assert w.pending[0] in w.pending;
    PoppedPends(w);
    if Over(w) {
      PoppedOver(w);
      ClientStaysOver(Popped(w), p);
      AckGoes(Popped(w), p, s);
    } else if w.trafficGenerated {
      AckGoes(Popped(w), p, s);
    } else {
      assert !Idle(w) && !Opening(w) by { OpeningHasNoAck(w); }
      var k: nat :| Phase(w, k);
      SilentUnlessStarted(w, k);
      SilentAtZero(w, k);
      PoppedOpen(w, 0);
      SilentPopped(w);
      AckStarts(Popped(w), p, s);
    }
  }

  lemma PoppedPends(w: World)
    requires w.pending != [] && !Pending(w)
    ensures !Pending(Popped(w))
  {
    assert forall x :: x in w.pending[1..] ==> x in w.pending;
  }

  lemma OpeningHasNoAck(w: World)
    requires w.pending != [] && IsAck(w.pending[0].event)
    ensures !Idle(w) && !Opening(w)
  {
    assert w.pending[0] in w.pending;
  }

  lemma SilentUnlessStarted(w: World, k: nat)
    requires Phase(w, k) && !w.trafficGenerated
    ensures Silent(w)
  {
  }

  lemma QuietStep(w: World, c: Choice, s: nat)
    requires Phased(w) && SessionClock.OnTime(w) && !Pending(w) && Enabled(w, c)
    ensures Goes(w, Step(w, c), s)
  {
    var w1, e := Popped(w), w.pending[0].event;
    assert w.pending[0] in w.pending;
    PoppedPends(w);
    if AckHome(w, e) { AckStep(w, c, s); }
    else {
      if e.Arrival? { SameArrival(w1, e.packet, c); } else { SameTimers(w1, e, c); }
      SameGoes(w1, Step(w, c), s);
    }
  }

  // ---- every run ----

  /** How many segments are out, and whether the traffic has ended. */
  ghost predicate Counted(w: World, s: nat, refused: bool)
  {
    && Burst(w, s) && w.sent * s <= DEFAULT_WINDOW
    && (w.trafficGenerated ==> w.total == PACKETS_PER_ROUTE)
    && (!w.trafficGenerated || Pending(w) ==> !refused)
    && (w.trafficGenerated && !Pending(w) ==> (w.sent == PACKETS_PER_ROUTE <==> !refused && PACKETS_PER_ROUTE * s <= DEFAULT_WINDOW))
  }

  lemma QuietCounts(w: World, c: Choice, s: nat, refused: bool)
    requires Phased(w) && Going(w) && SessionClock.OnTime(w) && !Pending(w) && Enabled(w, c) && Counted(w, s, refused)
    ensures Counted(Step(w, c), s, refused) && !Refuses(w, c)
  {
    assert w.pending[0] in w.pending;
    QuietStep(w, c, s);
  }

  lemma FrontCounts(w: World, k: nat, gen: Due, c: Choice, s: nat, refused: bool)
    requires Front(w, k, gen) && Pending(w) && Enabled(w, c) && Counted(w, s, refused)
    ensures Counted(Step(w, c), s, refused) && !Refuses(w, c)
  {
    FrontFacts(w, k, gen);
    FrontIsLate(w, k, gen, s, c);
    var k' := FrontStep(w, k, gen, c);
  }

  lemma NotAll(n: nat, s: nat)
    requires n < PACKETS_PER_ROUTE && (n + 1) * s > DEFAULT_WINDOW
    ensures PACKETS_PER_ROUTE * s > DEFAULT_WINDOW
  {
    assert PACKETS_PER_ROUTE * s == (n + 1) * s + (PACKETS_PER_ROUTE - (n + 1)) * s;
  }

  lemma GenerationCounts(w: World, k: nat, gen: Due, c: Choice, s: nat, refused: bool)
    requires OpenAt(w, k) && SessionClock.OnTime(w) && Filling(w, k, gen) && w.pending[0] == gen && Going(w)
    requires Enabled(w, c) && Plain(w, c, s) && Pending(w) && Counted(w, s, refused)
    ensures Counted(Step(w, c), s, refused || Refuses(w, c))
  {
    var w1 := Popped(w);
    PoppedOpen(w, k);
    PoppedGoing(w);
    GenerateKeepsGoing(w1, c);
    RoomIff(w, k, s);
    if Generating(w1, c) { GenerationBursts(w, k, gen, s, c); }
    else if !CanSend(w1.client, s) { NotAll(w.sent, s); }
  }

  lemma StepCounts(w: World, c: Choice, s: nat, refused: bool)
    requires Phased(w) && Going(w) && SessionClock.OnTime(w) && Plain(w, c, s) && Counted(w, s, refused)
    ensures Counted(Step(w, c), s, refused || Refuses(w, c))
  {
    if Enabled(w, c) {
      if !Pending(w) { QuietCounts(w, c, s, refused); }
      else {
        var k, gen := BurstFills(w, s);
        if w.pending[0] == gen { GenerationCounts(w, k, gen, c, s, refused); } else { FrontCounts(w, k, gen, c, s, refused); }
      }
    }
  }

  lemma {:induction false} RunCounts(site: Site, serverState: TS.State, choices: seq<Choice>, s: nat)
    requires Fresh(serverState) && Uniform(Session.Start(site, serverState), choices, s)
    ensures var w0 := Session.Start(site, serverState); Counted(Run(w0, choices), s, !NeverRefused(w0, choices))
  {
    if choices != [] {
      var before, w0 := choices[..|choices| - 1], Session.Start(site, serverState);
      RunCounts(site, serverState, before, s);
      RunKeepsPhased(site, serverState, before);
      RunKeepsGoing(site, serverState, before);
      SessionClock.RunOnTime(site, serverState, before);
      StepCounts(Run(w0, before), choices[|choices| - 1], s, !NeverRefused(w0, before));
    }
  }

  /**
    Main result: in every run in which packets take time and all segments have the same size, no more is ever sent
    than one window; and when the traffic has ended, all twenty segments were sent if and only if they fit the
    window together and the client's own link refused none of them.
   */
  lemma {:induction false} AllSentIff(site: Site, serverState: TS.State, choices: seq<Choice>, s: nat)
    requires Fresh(serverState) && Uniform(Session.Start(site, serverState), choices, s)
    ensures var w0 := Session.Start(site, serverState); var w := Run(w0, choices);
      && w.sent * s <= 65535
      && (w.trafficGenerated && !Pending(w) ==>
            (w.sent == 20 <==> 20 * s <= 65535 && NeverRefused(w0, choices)))
  {
    RunCounts(site, serverState, choices, s);
  }
}
