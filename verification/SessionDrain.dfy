/**
  Every session drains: a natural number decreases at every event, so the chains of timeouts, retransmissions and
  acknowledgements cannot run forever, and a whole session, from its first SYN to its last timer, executes a number
  of events bounded linearly in the number of nodes.
 */
module SessionDrain {
  import opened Common
  import opened Arithmetic
  import opened Word32
  import opened Connection
  import EventQueues
  import opened Session
  import opened Forwarding
  import Dijkstra
  import opened LoopFreedom
  import opened PathAlgebra
  import opened Reassembly
  import TS = TcpState
  import SB = SendBuffer
  import RB = ReceiveBuffer
  import CC = CongestionControl

  // ---- routes ----

  /** How far a packet still is from where it is going, by the tables it will be forwarded with. */
  function HopsToGo(site: Site, p: Packet): nat
  {
    Hops(site.tables, p.at, Home(site, p.toServer), |site.tables|)
  }

  /** Every hop leaves a hop less to go, and nobody is farther away than all other nodes in a line. */
  ghost predicate Shortens(site: Site)
  {
    forall p: Packet :: NextNode(site, p) != -1 ==>
      HopsToGo(site, p.(at := NextNode(site, p))) < HopsToGo(site, p) < |site.tables|
  }

  /** The most hops left after the first one. */
  function Reach(site: Site): nat { Max(|site.tables| - 2, 0) }

  lemma TablesShorten(net: Dijkstra.Network, m: Metric, site: Site)
    requires BuiltTables(net, m, site.tables)
    ensures Shortens(site)
  {
    forall p: Packet | NextNode(site, p) != -1
      ensures HopsToGo(site, p.(at := NextNode(site, p))) < HopsToGo(site, p) < |site.tables|
    {
      HopTowards(net, m, site.tables, p.at, Home(site, p.toServer));
    }
  }

  lemma HopTaken(w: World, p: Packet, o: Offer)
    requires Shortens(w.site) && Taken(w, p, o)
    ensures var q := p.(at := NextNode(w.site, p));
      HopsToGo(w.site, q) < HopsToGo(w.site, p) && HopsToGo(w.site, q) <= Reach(w.site)
  {
  }

  // ---- what each pending event may still cause, when at most d hops are left after the first ----

  function AckMax(d: nat): nat { 4 + d }
  function DataMax(d: nat): nat { AckMax(d) + 2 + d }
  function ResendCost(d: nat): nat { DataMax(d) + 2 }
  function SegmentCost(d: nat): nat { DataMax(d) + 2 + 5 * ResendCost(d) + 1 }
  function FinMax(d: nat): nat { 1 + d }
  function StateCost(d: nat): nat { AckMax(d) + 1 + FinMax(d) }
  function SynAckMax(d: nat): nat { AckMax(d) + 1 + d }
  function SynMax(d: nat): nat { 4 * StateCost(d) + SynAckMax(d) + 1 + d }
  function RetryCost(d: nat): nat { SynMax(d) + 1 }

  /** What the arrival of a packet may cause. */
  function KindWeight(d: nat, kind: Kind): nat
  {
    match kind
    case SYN => 4 * StateCost(d) + SynAckMax(d) + 1
    case SYN_ACK => AckMax(d) + 1
    case ACK => 4
    case DATA => AckMax(d) + 2
    case FIN => 1
    case RST => 1
  }

  function PacketWeight(site: Site, p: Packet): nat { HopsToGo(site, p) + KindWeight(Reach(site), p.kind) }

  /** What one event may cause, apart from a packet's hops. */
  function TimerWeight(d: nat, e: Event): nat
  {
    match e
    case Arrival(p) => KindWeight(d, p.kind)
    case Handshake => 4 * StateCost(d) + 5 * RetryCost(d) + SynMax(d) + 2
    case HandshakeTimeout => 1
    case Generate => 1
    case DelayedAck(_, _) => AckMax(d) + 1
    case Timeout(_) => 2
    case Retransmission(_) => 1
    case FastRetransmission => 1
    case Close => FinMax(d) + 1
    case TimeWaitTimeout => 1
  }

  function Weight(site: Site, e: Event): nat
  {
    TimerWeight(Reach(site), e) + if e.Arrival? then HopsToGo(site, e.packet) else 0
  }

  function Weigh(site: Site, q: seq<EventQueues.Timed<Event>>): nat
  {
    if q == [] then 0 else Weight(site, q[0].event) + Weigh(site, q[1..])
  }

  // ---- what the session's own state may still cause ----

  /** How many more times a state can be left by the closing exchange. */
  function StatePotential(d: nat, s: TS.State): nat
  {
    match s
    case CLOSED => 0
    case LISTEN => 0
    case SYN_SENT => 4 * StateCost(d)
    case SYN_RECEIVED => 4 * StateCost(d)
    case ESTABLISHED => 4 * StateCost(d)
    case FIN_WAIT_1 => 3 * StateCost(d)
    case FIN_WAIT_2 => 2 * StateCost(d)
    case CLOSE_WAIT => 2 * StateCost(d)
    case CLOSING => StateCost(d)
    case LAST_ACK => StateCost(d)
    case TIME_WAIT => StateCost(d)
  }

  function RetryPotential(d: nat, ep: Endpoint): nat
  {
    if !ep.state.SYN_SENT? || ep.synRetries >= 5 then 0
    else if ep.synRetries == 0 then 5 * RetryCost(d)
    else if ep.synRetries == 1 then 4 * RetryCost(d)
    else if ep.synRetries == 2 then 3 * RetryCost(d)
    else if ep.synRetries == 3 then 2 * RetryCost(d)
    else RetryCost(d)
  }

  /** The retransmissions a stored segment still has in its budget. */
  function EntryPotential(d: nat, e: SB.Entry): nat
  {
    if e.count >= 5 then 0
    else if e.count == 0 then 5 * ResendCost(d)
    else if e.count == 1 then 4 * ResendCost(d)
    else if e.count == 2 then 3 * ResendCost(d)
    else if e.count == 3 then 2 * ResendCost(d)
    else ResendCost(d)
  }

  function Budget(d: nat, entries: seq<SB.Entry>): nat
  {
    if entries == [] then 0 else EntryPotential(d, entries[0]) + Budget(d, entries[1..])
  }

  function EndPotential(d: nat, client: Endpoint, server: Endpoint): nat
  {
    StatePotential(d, client.state) + StatePotential(d, server.state)
    + RetryPotential(d, client) + Budget(d, client.sendBuffer)
  }

  function TrafficPotential(w: World): nat
  {
    var d := Reach(w.site);
    (if w.trafficGenerated then 0 else PACKETS_PER_ROUTE * SegmentCost(d) + 2)
    + Times(if w.total >= w.sent then w.total - w.sent else 0, SegmentCost(d))
    + (if w.closeRequested then 0 else FinMax(d) + 2)
  }

  function Potential(w: World): nat
  {
    EndPotential(Reach(w.site), w.client, w.server) + TrafficPotential(w)
  }

  function Total(w: World): nat
  {
    Weigh(w.site, w.pending) + Potential(w)
  }

  /** No more segments are counted as sent than were asked for, and none before the traffic starts. */
  predicate Counted(w: World)
  {
    w.sent <= w.total && (!w.trafficGenerated ==> w.total == 0)
  }

  // ---- bookkeeping ----

  lemma {:induction false} WeighScheduled(site: Site, q: seq<EventQueues.Timed<Event>>, e: EventQueues.Timed<Event>)
    ensures Weigh(site, EventQueues.Scheduled(q, e)) == Weigh(site, q) + Weight(site, e.event)
  {
    if q == [] || EventQueues.Earlier(e, q[0]) {
      assert ([e] + q)[1..] == q;
    } else {
      var rest := EventQueues.Scheduled(q[1..], e);
      assert ([q[0]] + rest)[1..] == rest;
      WeighScheduled(site, q[1..], e);
    }
  }

  lemma ScheduledTotal(w: World, e: Event, at: real)
    ensures Total(ScheduledAt(w, e, at)) == Total(w) + Weight(w.site, e)
  {
    WeighScheduled(w.site, w.pending, EventQueues.Timed(at, w.nextId, e));
  }

  lemma PoppedTotal(w: World)
    requires w.pending != []
    ensures Total(w) == Total(Popped(w)) + Weight(w.site, w.pending[0].event)
  {
  }

  /** A send adds at most what the arrival may cause and the hops left after the first, and less than the packet had. */
  lemma SentTotal(w: World, p: Packet, o: Offer)
    requires Shortens(w.site)
    ensures Total(Sent(w, p, o)) <= Total(w) + KindWeight(Reach(w.site), p.kind) + Reach(w.site)
    ensures Total(Sent(w, p, o)) < Total(w) + PacketWeight(w.site, p)
    ensures Sent(w, p, o).site == w.site
  {
    if Taken(w, p, o) {
      HopTaken(w, p, o);
      ScheduledTotal(w, Arrival(p.(at := NextNode(w.site, p))), o.arrival);
    }
  }

  lemma {:induction false} BudgetDrop(d: nat, entries: seq<SB.Entry>, n: nat)
    requires n <= |entries|
    ensures Budget(d, entries[n..]) <= Budget(d, entries)
    decreases n
  {
    if n > 0 {
      BudgetDrop(d, entries[1..], n - 1);
      assert entries[1..][n - 1..] == entries[n..];
    } else {
      assert entries[0..] == entries;
    }
  }

  lemma {:induction false} BudgetAppend(d: nat, entries: seq<SB.Entry>, e: SB.Entry)
    ensures Budget(d, entries + [e]) == Budget(d, entries) + EntryPotential(d, e)
  {
    if entries == [] {
      assert entries + [e] == [e];
    } else {
      assert (entries + [e])[1..] == entries[1..] + [e];
      BudgetAppend(d, entries[1..], e);
    }
  }

  /** Marking a segment that may still be sent again uses up one resend. */
  lemma {:induction false} BudgetMark(d: nat, entries: seq<SB.Entry>, i: nat, now: real)
    requires i < |entries| && entries[i].count < 5
    ensures Budget(d, entries[i := SB.Marked(entries[i], now)]) + ResendCost(d) == Budget(d, entries)
  {
    var marked := entries[i := SB.Marked(entries[i], now)];
    if i > 0 {
      BudgetMark(d, entries[1..], i - 1, now);
      assert marked[1..] == entries[1..][i - 1 := SB.Marked(entries[1..][i - 1], now)];
    } else {
      assert marked[1..] == entries[1..];
    }
  }

  // ---- every event costs more than it causes ----

  /** The event's own weight pays for everything its execution adds. */
  ghost predicate Pays(w: World, w': World, cost: nat)
  {
    w'.site == w.site && Total(w') < Total(w) + cost
  }

  lemma PaysThrough(w: World, w1: World, w2: World, first: nat, second: nat, cost: nat)
    requires w2.site == w1.site == w.site
    requires Total(w1) <= Total(w) + first && Total(w2) <= Total(w1) + second && first + second < cost
    ensures Pays(w, w2, cost)
  {
  }

  /** A change of state, then a packet. */
  lemma ChangedThenSent(w: World, w1: World, p: Packet, o: Offer, change: nat, most: nat)
    requires Shortens(w.site) && w1.site == w.site && Total(w1) <= Total(w) + change
    requires change + KindWeight(Reach(w.site), p.kind) + Reach(w.site) <= most
    ensures Sent(w1, p, o).site == w.site && Total(Sent(w1, p, o)) <= Total(w) + most
  {
    SentTotal(w1, p, o);
  }

  lemma PaySynSent(w: World, c: Choice)
    requires Shortens(w.site)
    ensures SynSent(w, c).site == w.site && Total(SynSent(w, c)) <= Total(w) + SynMax(Reach(w.site)) + 1
  {
    var syn := SynPacket(w.site, w.client);
    SentTotal(w, syn, c.offer);
    ScheduledTotal(Sent(w, syn, c.offer), HandshakeTimeout, w.now + SYN_TIMEOUT);
  }

  lemma SynState(w: World, isn: u32)
    ensures Total(w.(client := SendSyn(w.client, isn).ep))
         <= Total(w) + 4 * StateCost(Reach(w.site)) + 5 * RetryCost(Reach(w.site))
  {
  }

  lemma PayHandshake(w: World, c: Choice)
    requires Shortens(w.site)
    ensures Pays(w, OnHandshake(w, c), Weight(w.site, Handshake))
  {
    var out := SendSyn(w.client, c.isn);
    if out.ok {
      SynState(w, c.isn);
      PaySynSent(w.(client := out.ep), c);
    }
  }

  lemma RetryState(w: World)
    requires w.client.state.SYN_SENT? && w.client.synRetries < MAX_SYN_RETRIES
    ensures Total(Retried(w)) + RetryCost(Reach(w.site)) == Total(w)
  {
  }

  lemma RetryPays(w: World, w1: World, w2: World)
    requires w2.site == w1.site == w.site && Total(w1) + RetryCost(Reach(w.site)) == Total(w)
    requires Total(w2) <= Total(w1) + SynMax(Reach(w.site)) + 1
    ensures Pays(w, w2, Weight(w.site, HandshakeTimeout))
  {
  }

  lemma PayHandshakeTimeout(w: World, c: Choice)
    requires Shortens(w.site)
    ensures Pays(w, OnHandshakeTimeout(w, c), Weight(w.site, HandshakeTimeout))
  {
    if w.client.state.SYN_SENT? && w.client.synRetries < MAX_SYN_RETRIES {
      RetryState(w);
      var w1 := Retried(w);
      PaySynSent(w1, c);
      RetryPays(w, w1, SynSent(w1, c));
    }
  }

  lemma SynReceivedState(w: World, p: Packet)
    ensures var out := ReceiveSyn(End(w, p.toServer), p.seqNo);
      out.ok ==> Total(WithEnd(w, p.toServer, out.ep)) <= Total(w) + 4 * StateCost(Reach(w.site))
  {
  }

  lemma PaySyn(w: World, p: Packet, c: Choice)
    requires Shortens(w.site) && p.kind.SYN?
    ensures Pays(w, OnSyn(w, p, c), PacketWeight(w.site, p))
  {
    var out := ReceiveSyn(End(w, p.toServer), p.seqNo);
    if out.ok {
      var w1 := WithEnd(w, p.toServer, out.ep);
      SynReceivedState(w, p);
      var synAck, most := PlainPacket(w.site, SYN_ACK, !p.toServer, out.ep), PacketWeight(w.site, p) - 1;
      ChangedThenSent(w, w1, synAck, c.offer, 4 * StateCost(Reach(w.site)), most);
    }
  }

  lemma SynAckState(w: World, p: Packet)
    ensures var out := ReceiveSynAck(w.client, p.seqNo, p.ack);
      out.ok ==> Total(w.(client := out.ep, stream := Partition(out.ep.seqNum, []))) <= Total(w)
  {
  }

  lemma PaySynAck(w: World, p: Packet, c: Choice)
    requires Shortens(w.site) && p.kind.SYN_ACK?
    ensures Pays(w, OnSynAck(w, p, c), PacketWeight(w.site, p))
  {
    var out := ReceiveSynAck(w.client, p.seqNo, p.ack);
    if out.ok {
      var w1 := w.(client := out.ep, stream := Partition(out.ep.seqNum, []));
      SynAckState(w, p);
      ChangedThenSent(w, w1, PlainPacket(w.site, ACK, true, out.ep), c.offer, 0, AckMax(Reach(w.site)));
    }
  }

  /** The traffic that may start is paid for segment by segment once it has. */
  lemma TrafficStarts(w: World)
    requires Counted(w) && !w.trafficGenerated
    ensures var w' := Scheduled(w.(total := PACKETS_PER_ROUTE, trafficGenerated := true), Generate, 0.0);
      Total(w') < Total(w) && Counted(w') && w'.site == w.site
  {
    var w0 := w.(total := PACKETS_PER_ROUTE, trafficGenerated := true);
    ScheduledTotal(w0, Generate, w.now);
    TimesIsProduct(w0.total - w0.sent, SegmentCost(Reach(w.site)));
  }

  lemma CloseRequested(w: World)
    requires Counted(w) && !w.closeRequested
    ensures var w' := Scheduled(w.(closeRequested := true), Close, 0.0);
      Total(w') <= Total(w) && Counted(w') && w'.site == w.site
  {
    ScheduledTotal(w.(closeRequested := true), Close, w.now);
  }

  lemma PayAdvanced(w: World)
    requires Counted(w)
    ensures Total(Advanced(w)) <= Total(w) && Advanced(w).site == w.site && Counted(Advanced(w))
  {
    var w1 := if BothEstablished(w) && !w.trafficGenerated then
                Scheduled(w.(total := PACKETS_PER_ROUTE, trafficGenerated := true), Generate, 0.0) else w;
    if !w.trafficGenerated { TrafficStarts(w); }
    if !w1.closeRequested { CloseRequested(w1); }
  }

  lemma AckPotential(d: nat, ep: Endpoint, ack: u32, now: real)
    ensures var ep' := Acknowledging(ep, ack, now).ep;
      && StatePotential(d, ep'.state) <= StatePotential(d, ep.state)
      && RetryPotential(d, ep') <= RetryPotential(d, ep)
      && Budget(d, ep'.sendBuffer) <= Budget(d, ep.sendBuffer)
  {
    BudgetDrop(d, ep.sendBuffer, SB.Covered(ep.sendBuffer, ack));
  }

  lemma ResetState(w: World, server: bool)
    ensures Total(WithEnd(w, server, DetectionReset(End(w, server)))) == Total(w)
  {
  }

  lemma PayDuplicates(w: World, toServer: bool)
    ensures var w' := DuplicatesSeen(w, toServer);
      Total(w') <= Total(w) + 1 && w'.site == w.site
  {
    ResetState(w, toServer);
    ScheduledTotal(WithEnd(w, toServer, DetectionReset(End(w, toServer))), FastRetransmission, w.now);
  }

  lemma PayRearmed(w: World, toServer: bool, advanced: bool)
    ensures var w' := Rearmed(w, toServer, advanced);
      Total(w') <= Total(w) + 2 && w'.site == w.site && End(w', toServer) == End(w, toServer)
  {
    var ep := End(w, toServer);
    if advanced && Oldest(ep).Some? {
      ScheduledTotal(w, Timeout(Oldest(ep).value), w.now + Rto(ep));
    }
  }

  lemma PayReactions(w: World, toServer: bool, advanced: bool)
    ensures var w' := AckReactions(w, toServer, advanced);
      Total(w') <= Total(w) + 3 && w'.site == w.site
  {
    PayRearmed(w, toServer, advanced);
    PayDuplicates(Rearmed(w, toServer, advanced), toServer);
  }

  lemma ReactionsCounted(w: World, toServer: bool, advanced: bool)
    requires Counted(w)
    ensures Counted(AckReactions(w, toServer, advanced))
  {
  }

  /** Taking an acknowledgement in causes nothing by itself. */
  lemma AckingIsFree(w: World, p: Packet)
    ensures Total(WithEnd(w, p.toServer, Acknowledging(End(w, p.toServer), p.ack, w.now).ep)) <= Total(w)
  {
    AckPotential(Reach(w.site), End(w, p.toServer), p.ack, w.now);
  }

  lemma PayAckReactions(w: World, toServer: bool, advanced: bool)
    requires Counted(w)
    ensures var w' := Advanced(AckReactions(w, toServer, advanced));
      w'.site == w.site && Total(w') <= Total(w) + 3 && Counted(w')
  {
    PayReactions(w, toServer, advanced);
    ReactionsCounted(w, toServer, advanced);
    PayAdvanced(AckReactions(w, toServer, advanced));
  }

  lemma PayAck(w: World, p: Packet)
    requires Counted(w) && p.kind.ACK?
    ensures Pays(w, OnAck(w, p), PacketWeight(w.site, p)) && Counted(OnAck(w, p))
  {
    AckingIsFree(w, p);
    var out := Acknowledging(End(w, p.toServer), p.ack, w.now);
    var w1 := WithEnd(w, p.toServer, out.ep);
    PayAckReactions(w1, p.toServer, out.ok);
    PaysThrough(w, w1, Advanced(AckReactions(w1, p.toServer, out.ok)), 0, 3, PacketWeight(w.site, p));
  }

  /** Taking data in is no cause of further events. */
  lemma TakingIsFree(w: World, p: Packet)
    ensures Total(DataTaken(w, p)) == Total(w) && DataTaken(w, p).site == w.site
  {
  }

  /** Nor is whether an acknowledgement is delayed. */
  lemma DelayingIsFree(w: World, toServer: bool, delayed: bool)
    ensures Total(WithEnd(w, toServer, End(w, toServer).(delayedAck := delayed))) == Total(w)
  {
  }

  lemma PayAckNow(w: World, toServer: bool, c: Choice)
    requires Shortens(w.site)
    ensures var ep := End(w, toServer);
      var w' := Sent(WithEnd(w, toServer, ep.(delayedAck := false)), PlainPacket(w.site, ACK, !toServer, ep), c.offer);
      w'.site == w.site && Total(w') <= Total(w) + AckMax(Reach(w.site))
  {
    var ep := End(w, toServer);
    DelayingIsFree(w, toServer, false);
    ChangedThenSent(w, WithEnd(w, toServer, ep.(delayedAck := false)), PlainPacket(w.site, ACK, !toServer, ep), c.offer,
                    0, AckMax(Reach(w.site)));
  }

  lemma PayDataReactions(w: World, toServer: bool, inOrder: bool, c: Choice)
    requires Shortens(w.site)
    ensures var w' := DataReactions(w, toServer, inOrder, c);
      w'.site == w.site && Total(w') <= Total(w) + AckMax(Reach(w.site)) + 1
  {
    var ep := End(w, toServer);
    if !inOrder || ep.delayedAck {
      PayAckNow(w, toServer, c);
    } else {
      DelayingIsFree(w, toServer, true);
      ScheduledTotal(WithEnd(w, toServer, ep.(delayedAck := true)), DelayedAck(toServer, ep.expectedAck), w.now + ACK_DELAY);
    }
  }

  lemma PayData(w: World, p: Packet, c: Choice)
    requires Shortens(w.site) && p.kind.DATA?
    ensures Pays(w, OnData(w, p, c), PacketWeight(w.site, p))
  {
    TakingIsFree(w, p);
    PayDataReactions(DataTaken(w, p), p.toServer, p.seqNo == End(w, p.toServer).expectedAck, c);
  }

  /** A FIN that is accepted moves its receiver at least one state towards the end. */
  lemma FinState(w: World, p: Packet)
    ensures var out := ReceiveFin(End(w, p.toServer), p.seqNo);
      out.ok ==> Total(WithEnd(w, p.toServer, out.ep)) + StateCost(Reach(w.site)) <= Total(w)
  {
  }

  lemma SendFinState(w: World, server: bool)
    ensures Total(WithEnd(w, server, SendFin(End(w, server)).ep)) <= Total(w)
  {
  }

  lemma PayAnswer(w: World, toServer: bool, c: Choice)
    requires Shortens(w.site)
    ensures var w' := FinAnswered(w, toServer, c);
      w'.site == w.site && Total(w') <= Total(w) + FinMax(Reach(w.site))
  {
    var fin := SendFin(End(w, toServer)).ep;
    SendFinState(w, toServer);
    ChangedThenSent(w, WithEnd(w, toServer, fin), PlainPacket(w.site, FIN, !toServer, fin), c.offer2,
                    0, FinMax(Reach(w.site)));
  }

  lemma PayLastTimer(w: World)
    ensures LastTimer(w).site == w.site && Total(LastTimer(w)) <= Total(w) + 1
  {
    ScheduledTotal(w, TimeWaitTimeout, w.now + TIME_WAIT_DELAY);
  }

  lemma PayFinAcked(w: World, toServer: bool, c: Choice)
    requires Shortens(w.site)
    ensures var w' := FinAcked(w, toServer, c);
      w'.site == w.site && Total(w') <= Total(w) + 1 + AckMax(Reach(w.site))
  {
    PayLastTimer(w);
    ChangedThenSent(w, LastTimer(w), PlainPacket(w.site, ACK, !toServer, End(w, toServer)), c.offer,
                    1, 1 + AckMax(Reach(w.site)));
  }

  lemma PayFinReactions(w: World, toServer: bool, c: Choice)
    requires Shortens(w.site)
    ensures var w' := FinReactions(w, toServer, c);
      w'.site == w.site && Total(w') <= Total(w) + StateCost(Reach(w.site))
  {
    PayFinAcked(w, toServer, c);
    PayAnswer(FinAcked(w, toServer, c), toServer, c);
  }

  /** The states a FIN still has to move its receiver through pay for all it causes. */
  lemma FinCauses(w: World, p: Packet, c: Choice)
    requires Shortens(w.site)
    ensures OnFin(w, p, c).site == w.site && Total(OnFin(w, p, c)) <= Total(w)
  {
    var out := ReceiveFin(End(w, p.toServer), p.seqNo);
    if out.ok {
      FinState(w, p);
      PayFinReactions(WithEnd(w, p.toServer, out.ep), p.toServer, c);
    }
  }

  lemma CausesNothing(w: World, w': World, cost: nat)
    requires w'.site == w.site && Total(w') <= Total(w) && cost > 0
    ensures Pays(w, w', cost)
  {
  }

  lemma PayFin(w: World, p: Packet, c: Choice)
    requires Shortens(w.site) && p.kind.FIN?
    ensures Pays(w, OnFin(w, p, c), PacketWeight(w.site, p))
  {
    FinCauses(w, p, c);
    CausesNothing(w, OnFin(w, p, c), PacketWeight(w.site, p));
  }

  /** Queueing a segment trades the cost of one unsent segment for a fresh budget of resends. */
  lemma QueuedState(w: World, payload: seq<byte>)
    requires Counted(w) && w.sent != w.total && payload != [] && CanSend(w.client, |payload|)
    ensures Total(Queued(w, payload)) + SegmentCost(Reach(w.site)) == Total(w) + 5 * ResendCost(Reach(w.site))
    ensures Counted(Queued(w, payload))
  {
    BudgetAppend(Reach(w.site), w.client.sendBuffer, SB.Entry(w.client.seqNum, w.client.expectedAck, payload, w.now, false, 0));
  }

  lemma PayGenerate(w: World, c: Choice)
    requires Counted(w) && Shortens(w.site) && c.payload != []
    ensures Pays(w, OnGenerate(w, c), Weight(w.site, Generate)) && Counted(OnGenerate(w, c))
  {
    if w.sent != w.total && CanSend(w.client, |c.payload|) {
      PayNewSegment(w, c);
      NewSegmentCounted(w, c);
    }
  }

  lemma NewSegmentCounted(w: World, c: Choice)
    requires Counted(w) && w.sent != w.total
    ensures Counted(Generated(w, c))
  {
  }

  lemma PayTimer(w: World, seqNo: u32, first: bool)
    ensures var w' := if first then Scheduled(w, Timeout(seqNo), Rto(w.client)) else w;
      w'.site == w.site && Total(w') <= Total(w) + 2
  {
    ScheduledTotal(w, Timeout(seqNo), w.now + Rto(w.client));
  }

  lemma PayContinued(w: World, seqNo: u32, first: bool)
    ensures Continued(w, seqNo, first).site == w.site && Total(Continued(w, seqNo, first)) <= Total(w) + 3
  {
    PayTimer(w, seqNo, first);
    ScheduledTotal(if first then Scheduled(w, Timeout(seqNo), Rto(w.client)) else w, Generate, w.now);
  }

  /** The price of an unsent segment covers its packet, its timer, the next generation and all its resends. */
  lemma PayNewSegment(w: World, c: Choice)
    requires Counted(w) && Shortens(w.site) && c.payload != [] && w.sent != w.total && CanSend(w.client, |c.payload|)
    ensures Generated(w, c).site == w.site && Total(Generated(w, c)) <= Total(w)
  {
    var w1 := Sent(w, DataPacket(w.site, w.client.seqNum, w.client.expectedAck, c.payload), c.offer);
    SentTotal(w, DataPacket(w.site, w.client.seqNum, w.client.expectedAck, c.payload), c.offer);
    assert SameCounts(w, w1) && w1.client == w.client;
    QueuedState(w1, c.payload);
    PayContinued(Queued(w1, c.payload), w.client.seqNum, w.client.sendBuffer == []);
  }

  lemma PayDelayedAck(w: World, atServer: bool, number: u32, c: Choice)
    requires Shortens(w.site)
    ensures Pays(w, OnDelayedAck(w, atServer, number, c), Weight(w.site, DelayedAck(atServer, number)))
  {
    DelayingIsFree(w, atServer, false);
    PayAckNow(w, atServer, c);
  }

  lemma FailurePotential(w: World)
    ensures Total(w.(client := FailRetransmission(w.client))) <= Total(w)
  {
  }

  lemma TimeoutState(w: World)
    ensures Total(w.(client := SendTimeout(w.client))) == Total(w)
  {
  }

  lemma PayTimeout(w: World, seqNo: u32)
    ensures Pays(w, OnTimeout(w, seqNo), Weight(w.site, Timeout(seqNo)))
  {
    FailurePotential(w);
    TimeoutState(w);
    ScheduledTotal(w.(client := SendTimeout(w.client)), Retransmission(seqNo), w.now);
  }

  lemma MarkedState(w: World, i: nat)
    requires i < |w.client.sendBuffer| && i == SB.Find(w.client.sendBuffer, w.client.sendBuffer[i].seqNo)
    requires CanRetransmit(w.client, w.client.sendBuffer[i].seqNo)
    ensures var seqNo := w.client.sendBuffer[i].seqNo;
      Total(w.(client := MarkRetransmitted(w.client, seqNo, w.now), log := w.log + [Transmission(seqNo, w.now)]))
      + ResendCost(Reach(w.site)) == Total(w)
  {
    BudgetMark(Reach(w.site), w.client.sendBuffer, i, w.now);
  }

  lemma PaySentAgain(w: World, seqNo: u32, packet: Packet, c: Choice)
    requires Shortens(w.site) && packet.kind.DATA?
    ensures var w' := if Taken(w, packet, c.offer) then Scheduled(Sent(w, packet, c.offer), Timeout(seqNo), Rto(w.client)) else w;
      w'.site == w.site && Total(w') <= Total(w) + ResendCost(Reach(w.site))
  {
    SentTotal(w, packet, c.offer);
    ScheduledTotal(Sent(w, packet, c.offer), Timeout(seqNo), w.now + Rto(w.client));
  }

  lemma PayResent(w: World, seqNo: u32, c: Choice)
    requires Shortens(w.site) && CanRetransmit(w.client, seqNo)
    ensures Total(Resent(w, seqNo, c)) <= Total(w) && Resent(w, seqNo, c).site == w.site
  {
    var i := SB.Find(w.client.sendBuffer, seqNo);
    if i < |w.client.sendBuffer| {
      var e := w.client.sendBuffer[i];
      MarkedState(w, i);
      var w1 := w.(client := MarkRetransmitted(w.client, seqNo, w.now), log := w.log + [Transmission(seqNo, w.now)]);
      PaySentAgain(w1, seqNo, DataPacket(w.site, seqNo, e.ack, e.payload), c);
    }
  }

  lemma PayRetransmission(w: World, seqNo: u32, c: Choice)
    requires Shortens(w.site)
    ensures Pays(w, OnRetransmission(w, seqNo, c), Weight(w.site, Retransmission(seqNo)))
  {
    FailurePotential(w);
    if CanRetransmit(w.client, seqNo) { PayResent(w, seqNo, c); }
  }

  lemma WindowState(w: World, congestion: CC.Controller)
    ensures Total(w.(client := w.client.(congestion := congestion))) == Total(w)
  {
  }

  lemma PayFastRetransmission(w: World, c: Choice)
    requires Shortens(w.site)
    ensures Pays(w, OnFastRetransmission(w, c), Weight(w.site, FastRetransmission))
  {
    FailurePotential(w);
    if w.client.sendBuffer != [] && CanRetransmit(w.client, w.client.sendBuffer[0].seqNo) {
      var congestion := CC.OnFastRetransmit(w.client.congestion, FlightSize(w.client));
      WindowState(w, congestion);
      PayResent(w.(client := w.client.(congestion := congestion)), w.client.sendBuffer[0].seqNo, c);
    }
  }

  lemma CloseCauses(w: World, c: Choice)
    requires Shortens(w.site)
    ensures OnClose(w, c).site == w.site && Total(OnClose(w, c)) <= Total(w) + FinMax(Reach(w.site))
  {
    if w.client.state.ESTABLISHED? {
      var out := SendFin(w.client);
      SendFinState(w, false);
      ChangedThenSent(w, WithEnd(w, false, out.ep), PlainPacket(w.site, FIN, true, out.ep), c.offer, 0, FinMax(Reach(w.site)));
    }
  }

  lemma PayClose(w: World, c: Choice)
    requires Shortens(w.site)
    ensures Pays(w, OnClose(w, c), Weight(w.site, Close))
  {
    CloseCauses(w, c);
    PaysThrough(w, w, OnClose(w, c), 0, FinMax(Reach(w.site)), Weight(w.site, Close));
  }

  lemma PayTimeWait(w: World)
    ensures Pays(w, OnTimeWaitTimeout(w), Weight(w.site, TimeWaitTimeout))
  {
  }

  lemma DataReactionsCounted(w: World, toServer: bool, inOrder: bool, c: Choice)
    ensures SameCounts(w, DataReactions(w, toServer, inOrder, c))
  {
  }

  lemma DataCounted(w: World, p: Packet, c: Choice)
    requires Counted(w)
    ensures Counted(OnData(w, p, c))
  {
    assert SameCounts(w, DataTaken(w, p));
    DataReactionsCounted(DataTaken(w, p), p.toServer, p.seqNo == End(w, p.toServer).expectedAck, c);
  }

  lemma OtherArrivalsCounted(w: World, p: Packet, c: Choice)
    requires Counted(w) && (p.at != Home(w.site, p.toServer) || !p.kind.ACK?)
    ensures Counted(OnArrival(w, p, c))
  {
    if p.at == Home(w.site, p.toServer) {
      match p.kind {
        case SYN =>
        case SYN_ACK =>
        case DATA => DataCounted(w, p, c);
        case FIN => FinCounted(w, p, c);
        case RST =>
      }
    }
  }

  ghost predicate SameCounts(w: World, w': World)
  {
    w'.total == w.total && w'.sent == w.sent && w'.trafficGenerated == w.trafficGenerated
  }

  lemma FinAckedCounted(w: World, toServer: bool, c: Choice)
    ensures SameCounts(w, FinAcked(w, toServer, c))
  {
  }

  lemma FinReactionsCounted(w: World, toServer: bool, c: Choice)
    ensures SameCounts(w, FinReactions(w, toServer, c))
  {
    FinAckedCounted(w, toServer, c);
  }

  lemma FinCounted(w: World, p: Packet, c: Choice)
    requires Counted(w)
    ensures Counted(OnFin(w, p, c))
  {
    var out := ReceiveFin(End(w, p.toServer), p.seqNo);
    if out.ok { FinReactionsCounted(WithEnd(w, p.toServer, out.ep), p.toServer, c); }
  }

  lemma PayArrival(w: World, p: Packet, c: Choice)
    requires Counted(w) && Shortens(w.site)
    ensures Pays(w, OnArrival(w, p, c), PacketWeight(w.site, p)) && Counted(OnArrival(w, p, c))
  {
    if p.at != Home(w.site, p.toServer) || !p.kind.ACK? { OtherArrivalsCounted(w, p, c); }
    if p.at != Home(w.site, p.toServer) {
      SentTotal(w, p, c.offer);
    } else {
      match p.kind {
        case SYN => PaySyn(w, p, c);
        case SYN_ACK => PaySynAck(w, p, c);
        case ACK => PayAck(w, p);
        case DATA => PayData(w, p, c);
        case FIN => PayFin(w, p, c);
        case RST =>
      }
    }
  }

  lemma ResentCounted(w: World, seqNo: u32, c: Choice)
    ensures SameCounts(w, Resent(w, seqNo, c))
  {
  }

  lemma HandshakesCounted(w: World, c: Choice)
    ensures SameCounts(w, OnHandshake(w, c)) && SameCounts(w, OnHandshakeTimeout(w, c))
  {
  }

  lemma RetransmissionsCounted(w: World, seqNo: u32, c: Choice)
    ensures SameCounts(w, OnRetransmission(w, seqNo, c)) && SameCounts(w, OnFastRetransmission(w, c))
  {
    ResentCounted(w, seqNo, c);
    if w.client.sendBuffer != [] {
      var client := w.client.(congestion := CC.OnFastRetransmit(w.client.congestion, FlightSize(w.client)));
      ResentCounted(w.(client := client), w.client.sendBuffer[0].seqNo, c);
    }
  }

  lemma OtherTimersCounted(w: World, e: Event, c: Choice)
    requires Counted(w) && !e.Arrival? && !e.Generate?
    ensures Counted(Execute(w, e, c))
  {
    match e {
      case Handshake => HandshakesCounted(w, c);
      case HandshakeTimeout => HandshakesCounted(w, c);
      case Retransmission(seqNo) => RetransmissionsCounted(w, seqNo, c);
      case FastRetransmission => RetransmissionsCounted(w, 0, c);
      case _ =>
    }
  }

  lemma PayExecuted(w: World, e: Event, c: Choice)
    requires Counted(w) && Shortens(w.site) && c.payload != []
    ensures Pays(w, Execute(w, e, c), Weight(w.site, e)) && Counted(Execute(w, e, c))
  {
    if !e.Arrival? && !e.Generate? { OtherTimersCounted(w, e, c); }
    match e {
      case Arrival(p) => PayArrival(w, p, c);
      case Handshake => PayHandshake(w, c);
      case HandshakeTimeout => PayHandshakeTimeout(w, c);
      case Generate => PayGenerate(w, c);
      case DelayedAck(atServer, number) => PayDelayedAck(w, atServer, number, c);
      case Timeout(seqNo) => PayTimeout(w, seqNo);
      case Retransmission(seqNo) => PayRetransmission(w, seqNo, c);
      case FastRetransmission => PayFastRetransmission(w, c);
      case Close => PayClose(w, c);
      case TimeWaitTimeout => PayTimeWait(w);
    }
  }

  /** Main step: every event that fires makes the total strictly smaller. */
  lemma {:induction false} EveryEventDrains(w: World, c: Choice)
    requires Counted(w) && Shortens(w.site) && Enabled(w, c)
    ensures Total(Step(w, c)) < Total(w) && Counted(Step(w, c)) && Step(w, c).site == w.site
  {
    PoppedTotal(w);
    PayExecuted(Popped(w), w.pending[0].event, c);
  }

  /** Every choice of the run fires an event. */
  predicate AllFire(w: World, choices: seq<Choice>)
  {
    choices == []
    || (AllFire(w, choices[..|choices| - 1])
        && Enabled(Run(w, choices[..|choices| - 1]), choices[|choices| - 1]))
  }

  lemma {:induction false} RunDrains(w: World, choices: seq<Choice>)
    requires Counted(w) && Shortens(w.site) && AllFire(w, choices)
    ensures var w' := Run(w, choices);
      |choices| + Total(w') <= Total(w) && Counted(w') && w'.site == w.site
  {
    if choices != [] {
      var before := choices[..|choices| - 1];
      RunDrains(w, before);
      EveryEventDrains(Run(w, before), choices[|choices| - 1]);
    }
  }

  lemma StartTotal(site: Site, serverState: TS.State)
    requires serverState.CLOSED? || serverState.LISTEN?
    ensures Total(Session.Start(site, serverState)) <= 1196 + 315 * Reach(site)
  {
    var w := Session.Start(site, serverState);
    assert w.pending[1..] == [];
    assert Weigh(site, w.pending) == Weight(site, Handshake);
  }

  /**
    Main result: over the tables the simulator builds for a network, a session executes at most
    1196 + 315 (n - 2) events, whatever is lost, delayed or reordered, and a run that cannot go on
    has emptied its queue.
   */
  lemma {:induction false} SessionsAreBounded(net: Dijkstra.Network, m: Metric, site: Site, serverState: TS.State,
                                              choices: seq<Choice>)
    requires BuiltTables(net, m, site.tables)
    requires serverState.CLOSED? || serverState.LISTEN?
    requires AllFire(Session.Start(site, serverState), choices)
    ensures |choices| <= 1196 + 315 * Max(|net| - 2, 0)
    ensures (forall c :: !Enabled(Run(Session.Start(site, serverState), choices), c)) <==>
            Run(Session.Start(site, serverState), choices).pending == []
  {
    var w := Session.Start(site, serverState);
    TablesShorten(net, m, site);
    StartTotal(site, serverState);
    RunDrains(w, choices);
    var w' := Run(w, choices);
    if w'.pending != [] {
      var offer := Offer(false, w'.pending[0].time);
      assert Enabled(w', Choice(offer, offer, 0, [0]));
    }
  }
}
