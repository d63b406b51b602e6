/**
  The client sends a number of equal segments over a path of two links: all leave at one instant, and the first link
  carries them one after the other.
 */
module SessionBatch {
  import opened Common
  import opened Word32
  import opened Connection
  import opened Session
  import opened SessionStream
  import opened SessionWaves
  import opened SessionPath
  import EventQueues
  import SessionClock
  import TS = TcpState
  import RB = ReceiveBuffer
  import SB = SendBuffer
  import RT = RetransmissionTimer
  import Reassembly

  // ---- the segments under way to the relay ----

  function Tick(k: nat, hop: real): real { (k as real) * hop }

  lemma TickNext(k: nat, hop: real)
    requires hop > 0.0
    ensures Tick(k + 1, hop) == Tick(k, hop) + hop
  {
  }

  lemma {:induction false} TickGrows(i: nat, j: nat, hop: real)
    requires hop > 0.0 && i < j
    ensures Tick(i, hop) + hop <= Tick(j, hop)
    decreases j - i
  {
    TickNext(j - 1, hop);
    if i < j - 1 { TickGrows(i, j - 1, hop); }
  }

  lemma TickBelow(k: nat, hop: real)
    requires hop > 0.0 && k <= 40
    ensures Tick(k, hop) <= 40.0 * hop
  {
    if k < 40 { TickGrows(k, 40, hop); }
  }

  /** As many segments, none empty and all of one size, as fit the window. */
  predicate Batch(pieces: seq<seq<byte>>, s: nat)
  {
    && s >= 1 && |pieces| <= PACKETS_PER_ROUTE && |pieces| * s <= DEFAULT_WINDOW
    && forall i :: 0 <= i < |pieces| ==> |pieces[i]| == s
  }

  function Number(isn: u32, s: nat, i: nat): u32 { Wrap(isn + 1 + i * s) }

  /** Identifiers when that of the first generation is n: each segment is followed by the next generation. */
  function SegmentId(n: nat, i: nat): nat { if i == 0 then n + 1 else n + 2 + 2 * i }

  function GenerationId(n: nat, i: nat): nat { if i == 0 then n else n + 1 + 2 * i }

  function Segment(isn: u32, ack: u32, pieces: seq<seq<byte>>, s: nat, i: nat, at: int): Packet
    requires i < |pieces|
  {
    Packet(true, DATA, Number(isn, s, i), ack, pieces[i], at)
  }

  /** Segment i on its way to the relay. */
  function Leg(relay: nat, isn: u32, ack: u32, pieces: seq<seq<byte>>, s: nat, hop: real, n: nat, i: nat): Due
    requires i < |pieces|
  {
    At(Tick(7 + i, hop), SegmentId(n, i), Arrival(Segment(isn, ack, pieces, s, i, relay)))
  }

  function Flight(relay: nat, isn: u32, ack: u32, pieces: seq<seq<byte>>, s: nat, hop: real, n: nat, k: nat): (r: seq<Due>)
    requires k <= |pieces|
    ensures |r| == k && forall i :: 0 <= i < k ==> r[i] == Leg(relay, isn, ack, pieces, s, hop, n, i)
  {
    seq(k, i requires 0 <= i < k => Leg(relay, isn, ack, pieces, s, hop, n, i))
  }

  lemma FlightSpaced(relay: nat, isn: u32, ack: u32, pieces: seq<seq<byte>>, s: nat, hop: real, n: nat, k: nat)
    requires k <= |pieces| && hop > 0.0
    ensures Spaced(Flight(relay, isn, ack, pieces, s, hop, n, k), hop)
  {
    var q := Flight(relay, isn, ack, pieces, s, hop, n, k);
    forall x, y | x in q && y in q && SameWay(x.event, y.event) && x.id < y.id ensures x.time + hop <= y.time {
      var i :| 0 <= i < |q| && q[i] == x;
      var j :| 0 <= j < |q| && q[j] == y;
      TickGrows(7 + i, 7 + j, hop);
    }
  }

  /** The segments of a batch, the parameters of its run, and how many are out. */
  datatype Plan = Plan(site: Site, relay: nat, isn: u32, ack: u32, pieces: seq<seq<byte>>, s: nat, hop: real, n: nat)

  predicate Fits(b: Plan) { Batch(b.pieces, b.s) && Quick(b.hop) }

  function Out(b: Plan, k: nat): seq<Due>
    requires k <= |b.pieces|
  {
    Flight(b.relay, b.isn, b.ack, b.pieces, b.s, b.hop, b.n, k)
  }

  /** Segment i as it was stored, never sent again. */
  predicate Stores(e: SB.Entry, b: Plan, i: nat)
    requires i < |b.pieces|
  {
    e.seqNo == Number(b.isn, b.s, i) && e.payload == b.pieces[i] && e.count == 0
  }

  /** The client with the first k segments stored and none acknowledged. */
  ghost predicate Holds(client: Endpoint, b: Plan, k: nat)
    requires k <= |b.pieces|
  {
    && client.state.ESTABLISHED? && client.unacknowledged == Wrap(b.isn + 1) && client.window == DEFAULT_WINDOW
    && client.seqNum == Number(b.isn, b.s, k) && client.expectedAck == b.ack && client.timer == RT.FreshTimer
    && |client.sendBuffer| == k && (k > 0 ==> client.detector.duplicates == 0)
    && forall i :: 0 <= i < k ==> Stores(client.sendBuffer[i], b, i)
  }

  /** The first k segments have been sent, nothing has arrived. */
  ghost predicate Held(w: World, b: Plan, k: nat)
    requires k <= |b.pieces|
  {
    && w.site == b.site && w.delivered == [] && w.sent == k && w.total == PACKETS_PER_ROUTE
    && w.trafficGenerated && !w.closeRequested
    && Holds(w.client, b, k) && Listening(w.server, b.isn) && w.stream == Reassembly.Partition(Wrap(b.isn + 1), b.pieces[..k])
  }

  /** The foreground when k segments are out: the next generation, if there is one, and the segments. */
  function Ahead(b: Plan, k: nat): seq<Due>
    requires k <= |b.pieces|
  {
    (if k < PACKETS_PER_ROUTE then [At(6.0 * b.hop, GenerationId(b.n, k), Generate)] else []) + Out(b, k)
  }

  /** k segments are out, and the next generation is due if it is not the last. */
  ghost predicate Sending(w: World, b: Plan, k: nat)
    requires k <= |b.pieces|
  {
    Held(w, b, k) && w.now == 6.0 * b.hop && Waits(w, Ahead(b, k), b.hop) && (k < PACKETS_PER_ROUTE ==> w.nextId == GenerationId(b.n, k) + 1)
  }

  lemma NumberZero(isn: u32, s: nat)
    ensures Number(isn, s, 0) == Wrap(isn + 1)
  {
  }

  lemma NumberOne(isn: u32, s: nat)
    ensures Number(isn, s, 1) == Wrap(isn + 1 + s)
  {
    assert 1 * s == s;
  }

  /** A session ready to send is generating, nothing being out yet. */
  lemma ReadyGenerates(w: World, relay: nat, isn: u32, pieces: seq<seq<byte>>, s: nat, hop: real)
    requires Poised(w, w.site, isn, hop)
    ensures Sending(w, Plan(w.site, relay, isn, w.client.expectedAck, pieces, s, hop, w.nextId - 1), 0)
  {
    var b := Plan(w.site, relay, isn, w.client.expectedAck, pieces, s, hop, w.nextId - 1);
    NumberZero(isn, s);
    assert [At(6.0 * hop, w.nextId - 1, Generate)] + Out(b, 0) == [At(6.0 * hop, w.nextId - 1, Generate)];
    assert pieces[..0] == [];
  }

  // ---- one more segment ----

  lemma NumberNext(isn: u32, s: nat, i: nat)
    ensures Wrap(Number(isn, s, i) + s) == Number(isn, s, i + 1)
  {
    assert (i + 1) * s == i * s + s;
    WrapSum(isn + 1 + i * s, s);
  }

  lemma InFlight(isn: u32, s: nat, k: nat)
    requires k * s <= DEFAULT_WINDOW
    ensures Wrap(Number(isn, s, k) - Wrap(isn + 1)) == k * s
  {
  }

  lemma RoomFor(b: Plan, k: nat)
    requires Fits(b) && k < |b.pieces|
    ensures k * b.s + b.s <= DEFAULT_WINDOW
  {
    assert (k + 1) * b.s <= |b.pieces| * b.s;
    assert (k + 1) * b.s == k * b.s + b.s;
  }

  lemma QueuesNext(client: Endpoint, b: Plan, k: nat, now: real)
    requires Fits(b) && k < |b.pieces| && Holds(client, b, k)
    ensures CanSend(client, b.s)
    ensures var out := QueueSent(client, client.seqNum, client.expectedAck, b.pieces[k], now);
      out.ok && Holds(out.ep, b, k + 1)
  {
    RoomFor(b, k);
    InFlight(b.isn, b.s, k);
    NumberNext(b.isn, b.s, k);
  }

  lemma FirstTimer(client: Endpoint, b: Plan, k: nat)
    requires k <= |b.pieces| && Holds(client, b, k)
    ensures Rto(client) == 1.0
  {
  }

  /** The new segment goes behind the others. */
  lemma OutNext(b: Plan, k: nat)
    requires Fits(b) && k < |b.pieces|
    ensures EventQueues.Scheduled(Out(b, k), Leg(b.relay, b.isn, b.ack, b.pieces, b.s, b.hop, b.n, k)) == Out(b, k + 1)
  {
    var q, x := Out(b, k), Leg(b.relay, b.isn, b.ack, b.pieces, b.s, b.hop, b.n, k);
    forall i | 0 <= i < |q| ensures !EventQueues.Earlier(x, q[i]) { TickGrows(7 + i, 7 + k, b.hop); }
    Placed(q, x, k);
    assert q[..k] + [x] + q[k..] == Out(b, k + 1);
  }

  /** The next generation is due before anything arrives. */
  lemma GenerationFirst(b: Plan, k: nat, x: Due)
    requires Fits(b) && k <= |b.pieces| && x.time == 6.0 * b.hop
    ensures EventQueues.Scheduled(Out(b, k), x) == [x] + Out(b, k)
  {
    if k > 0 { TickGrows(6, 7, b.hop); }
    Placed(Out(b, k), x, 0);
    assert Out(b, k)[..0] + [x] + Out(b, k)[0..] == [x] + Out(b, k);
  }

  /** The segment as the first link carries it, stored by the client and not yet followed by anything. */
  function Next(w: World, b: Plan, k: nat): World
    requires k < |b.pieces| && w.pending != []
  {
    Queued(ScheduledAt(Popped(w), Arrival(Segment(b.isn, b.ack, b.pieces, b.s, k, b.relay)), Tick(7 + k, b.hop)), b.pieces[k])
  }

  lemma GenerationSends(w: World, b: Plan, k: nat)
    requires Fits(b) && Relayed(b.site, b.relay) && k < |b.pieces| && Held(w, b, k)
    requires w.pending != [] && w.pending[0].event == Generate && w.pending[0].time <= Tick(7 + k, b.hop)
    ensures var c := By(Tick(7 + k, b.hop), 0, b.pieces[k]);
      Enabled(w, c) && Step(w, c) == Continued(Next(w, b, k), w.client.seqNum, k == 0)
  {
    var c, w1 := By(Tick(7 + k, b.hop), 0, b.pieces[k]), Popped(w);
    var packet := DataPacket(w.site, w.client.seqNum, w.client.expectedAck, b.pieces[k]);
    QueuesNext(w.client, b, k, w1.now);
    assert packet.(at := b.relay) == Segment(b.isn, b.ack, b.pieces, b.s, k, b.relay);
    assert NextNode(w.site, packet) == b.relay && Taken(w1, packet, c.offer);
    assert Step(w, c) == Generated(w1, c);
  }

  /** What the client holds afterwards. */
  lemma NextHolds(w: World, b: Plan, k: nat)
    requires Fits(b) && k < |b.pieces| && Held(w, b, k) && w.pending != [] && w.pending[0].time == 6.0 * b.hop
    ensures var w' := Next(w, b, k); Held(w', b, k + 1) && w'.now == 6.0 * b.hop && w'.nextId == w.nextId + 1
  {
    QueuesNext(w.client, b, k, w.pending[0].time);
    assert b.pieces[..k] + [b.pieces[k]] == b.pieces[..k + 1];
  }

  lemma NextWaits(w: World, b: Plan, k: nat)
    requires Fits(b) && k < |b.pieces| && Sending(w, b, k)
    ensures Waits(Next(w, b, k), Out(b, k + 1), b.hop) && w.pending[0] == At(6.0 * b.hop, GenerationId(b.n, k), Generate)
  {
    var gen, e := At(6.0 * b.hop, GenerationId(b.n, k), Generate), Arrival(Segment(b.isn, b.ack, b.pieces, b.s, k, b.relay));
    assert ([gen] + Out(b, k))[1..] == Out(b, k);
    WaitsPopped(w, [gen] + Out(b, k), b.hop);
    TickBelow(7 + k, b.hop);
    WaitsFront(Popped(w), Out(b, k), b.hop, e, Tick(7 + k, b.hop));
    OutNext(b, k);
    var w2 := ScheduledAt(Popped(w), e, Tick(7 + k, b.hop));
    WaitsSame(w2, Queued(w2, b.pieces[k]), Out(b, k + 1), b.hop);
  }

  /** The timer of the first segment waits beyond the horizon. */
  lemma TimerWaits(w: World, b: Plan, k: nat, seqNo: u32)
    requires Fits(b) && k <= |b.pieces| && Waits(w, Out(b, k), b.hop) && Rto(w.client) == 1.0 && w.now == 6.0 * b.hop
    ensures Waits(Scheduled(w, Timeout(seqNo), Rto(w.client)), Out(b, k), b.hop)
  {
    WaitsBehind(w, Out(b, k), b.hop, Timeout(seqNo), w.now + Rto(w.client));
  }

  lemma GenerationWaits(w: World, b: Plan, k: nat)
    requires Fits(b) && k <= |b.pieces| && k < PACKETS_PER_ROUTE && Waits(w, Out(b, k), b.hop)
    requires w.now == 6.0 * b.hop && w.nextId == GenerationId(b.n, k)
    ensures Waits(Scheduled(w, Generate, 0.0), Ahead(b, k), b.hop)
  {
    WaitsFront(w, Out(b, k), b.hop, Generate, w.now + 0.0);
    GenerationFirst(b, k, At(6.0 * b.hop, GenerationId(b.n, k), Generate));
  }

  lemma ContinuedWaits(w: World, b: Plan, k: nat, seqNo: u32)
    requires Fits(b) && 0 < k <= |b.pieces| && Waits(w, Out(b, k), b.hop) && Rto(w.client) == 1.0
    requires w.sent == k && w.total == PACKETS_PER_ROUTE && w.now == 6.0 * b.hop
    requires w.nextId == GenerationId(b.n, k) - if k == 1 then 1 else 0
    ensures Waits(Continued(w, seqNo, k == 1), Ahead(b, k), b.hop)
  {
    var w1 := w;
    if k == 1 {
      TimerWaits(w, b, k, seqNo);
      w1 := Scheduled(w, Timeout(seqNo), Rto(w.client));
    }
    if k < PACKETS_PER_ROUTE { GenerationWaits(w1, b, k); } else { assert [] + Out(b, k) == Out(b, k); }
  }

  /** What continuing leaves alone. */
  lemma ContinuedSame(w: World, seqNo: u32, first: bool)
    ensures var w' := Continued(w, seqNo, first);
      && w' == w.(pending := w'.pending, nextId := w'.nextId)
      && w'.nextId == w.nextId + (if first then 1 else 0) + if w.sent != w.total then 1 else 0
  {
  }

  lemma HeldMoved(w: World, w': World, b: Plan, k: nat)
    requires k <= |b.pieces| && Held(w, b, k) && w' == w.(pending := w'.pending, nextId := w'.nextId)
    ensures Held(w', b, k)
  {
  }

  /** The segment stored, its timer and the next generation scheduled. */
  lemma NextContinues(w: World, b: Plan, k: nat, seqNo: u32)
    requires Fits(b) && 0 < k <= |b.pieces| && Held(w, b, k) && w.now == 6.0 * b.hop && Waits(w, Out(b, k), b.hop)
    requires w.nextId == GenerationId(b.n, k) - if k == 1 then 1 else 0
    ensures var w' := Continued(w, seqNo, k == 1);
      Held(w', b, k) && w'.now == w.now && Waits(w', Ahead(b, k), b.hop) && (k < PACKETS_PER_ROUTE ==> w'.nextId == GenerationId(b.n, k) + 1)
  {
    FirstTimer(w.client, b, k);
    ContinuedWaits(w, b, k, seqNo);
    ContinuedSame(w, seqNo, k == 1);
    HeldMoved(w, Continued(w, seqNo, k == 1), b, k);
  }

  lemma SegmentSent(w: World, b: Plan, k: nat)
    requires Fits(b) && Relayed(b.site, b.relay) && k < |b.pieces| && Sending(w, b, k)
    ensures var c := By(Tick(7 + k, b.hop), 0, b.pieces[k]); Enabled(w, c) && Sending(Step(w, c), b, k + 1)
  {
    NextWaits(w, b, k);
    NextHolds(w, b, k);
    TickGrows(6, 7 + k, b.hop);
    GenerationSends(w, b, k);
    NextContinues(Next(w, b, k), b, k + 1, w.client.seqNum);
  }

  lemma AheadSpaced(b: Plan, k: nat)
    requires Fits(b) && k <= |b.pieces|
    ensures Spaced(Ahead(b, k), b.hop)
  {
    FlightSpaced(b.relay, b.isn, b.ack, b.pieces, b.s, b.hop, b.n, k);
    assert forall x :: x in Ahead(b, k) ==> x in Out(b, k) || !x.event.Arrival?;
  }

  lemma NewInFlight(b: Plan, k: nat, x: Due)
    requires Fits(b) && k < |b.pieces| && x in Ahead(b, k + 1) && x.event.Arrival?
    ensures x in Ahead(b, k) || x.time == Tick(7 + k, b.hop)
  {
    assert x in Out(b, k + 1);
    var i :| 0 <= i < k + 1 && Out(b, k + 1)[i] == x;
    if i < k { assert Out(b, k)[i] in Out(b, k); }
  }

  lemma SegmentGoesOn(w: World, b: Plan, k: nat)
    requires Fits(b) && Relayed(b.site, b.relay) && k < |b.pieces| && Sending(w, b, k)
    ensures GoesOn(w, By(Tick(7 + k, b.hop), 0, b.pieces[k]), b.hop)
  {
    var c := By(Tick(7 + k, b.hop), 0, b.pieces[k]);
    SegmentSent(w, b, k);
    AheadSpaced(b, k + 1);
    TickGrows(6, 7 + k, b.hop);
    forall x | x in Ahead(b, k + 1) && x.event.Arrival? && x !in Ahead(b, k) ensures x.time >= 6.0 * b.hop + b.hop { NewInFlight(b, k, x); }
    WaitsPhysical(w, c, Ahead(b, k), Ahead(b, k + 1), b.hop);
  }

  /** All the segments of a batch leave at one instant. */
  lemma {:induction false} BatchLeg(w0: World, before: seq<Choice>, w1: World, b: Plan, k: nat) returns (choices: seq<Choice>, w: World)
    requires Fits(b) && Relayed(b.site, b.relay) && k <= |b.pieces| && Leads(w0, before, w1, b.hop) && Sending(w1, b, k)
    ensures Leads(w0, choices, w, b.hop) && Sending(w, b, |b.pieces|)
    decreases |b.pieces| - k
  {
    choices, w := before, w1;
    if k < |b.pieces| {
      SegmentSent(w1, b, k);
      SegmentGoesOn(w1, b, k);
      choices := LeadsOn(w0, before, w1, By(Tick(7 + k, b.hop), 0, b.pieces[k]), b.hop);
      choices, w := BatchLeg(w0, choices, Step(w1, By(Tick(7 + k, b.hop), 0, b.pieces[k])), b, k + 1);
    }
  }

  /** A session over a path of two links, its batch of segments under way to the relay. */
  lemma BatchLeaves(site: Site, relay: nat, isn: u32, pieces: seq<seq<byte>>, s: nat, hop: real)
    returns (choices: seq<Choice>, w: World, b: Plan)
    requires Batch(pieces, s) && Quick(hop) && Relayed(site, relay)
    ensures b.site == site && b.relay == relay && b.isn == isn && b.pieces == pieces && b.s == s && b.hop == hop
    ensures Leads(Start(site, TS.CLOSED), choices, w, hop) && Sending(w, b, |pieces|)
  {
    choices, w := HandshakeCompletes(site, relay, hop, isn);
    ReadyGenerates(w, relay, isn, pieces, s, hop);
    b := Plan(site, relay, isn, w.client.expectedAck, pieces, s, hop, w.nextId - 1);
    choices, w := BatchLeg(Start(site, TS.CLOSED), choices, w, b, 0);
  }
}
