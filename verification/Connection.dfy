/**
  One endpoint of a connection (TCPConnection.cpp). The functions on Endpoint say what each
  operation does to the whole state; the class performs it field by field.
 */
module Connection {
  import opened Common
  import opened Word32
  import TS = TcpState
  import RB = ReceiveBuffer
  import SB = SendBuffer
  import CC = CongestionControl
  import RT = RetransmissionTimer

  const MAX_SYN_RETRIES: nat := 5
  const MAX_DATA_RETRANSMISSIONS: nat := 5
  const DEFAULT_WINDOW: nat := 65535

  datatype Endpoint = Endpoint(
    state: TS.State,
    seqNum: u32,               // SND.NXT once established
    expectedAck: u32,          // RCV.NXT
    unacknowledged: u32,       // SND.UNA
    window: u32,
    synRetries: u32,
    sendBuffer: seq<SB.Entry>,
    receiveBuffer: RB.Buffer,
    detector: SB.Detector,
    delayedAck: bool,
    congestion: CC.Controller,
    timer: RT.Timer)

  /** The state after an operation and the boolean it returns. */
  datatype Outcome = Outcome(ep: Endpoint, ok: bool)

  const DEFAULT_MSS: u32 := 65535

  /** What a connection gets when no controller is asked for. */
  function FreshControl(): CC.Controller
  {
    CC.Create(CC.Reno, DEFAULT_MSS, 65535).value
  }

  function NewEndpoint(state: TS.State, seqNum: u32, expectedAck: u32, congestion: CC.Controller): Endpoint
  {
    Endpoint(state, seqNum, expectedAck, seqNum, DEFAULT_WINDOW, 0, [],
             RB.Buffer([], expectedAck, DEFAULT_WINDOW, 0), SB.Observed(SB.FreshDetector, seqNum),
             false, congestion, RT.FreshTimer)
  }

  /** The duplicate-acknowledgement streak restarts with SND.UNA as its baseline. */
  function DetectionReset(ep: Endpoint): Endpoint
  {
    ep.(detector := SB.Observed(SB.FreshDetector, ep.unacknowledged))
  }

  function ReceiveSyn(ep: Endpoint, remoteSeq: u32): Outcome
  {
    if !TS.Accepts(ep.state, TS.SynReceived) then Outcome(ep, false)
    else
      var expected := Wrap(remoteSeq + 1);
      Outcome(ep.(state := TS.Next(ep.state, TS.SynReceived), expectedAck := expected,
                  receiveBuffer := ep.receiveBuffer.(next := expected)), true)
  }

  function ReceiveSynAck(ep: Endpoint, remoteSeq: u32, remoteAck: u32): Outcome
  {
    if !ep.state.SYN_SENT? || remoteAck != Wrap(ep.seqNum + 1) then Outcome(ep, false)
    else
      var expected := Wrap(remoteSeq + 1);
      Outcome(DetectionReset(ep.(state := TS.ESTABLISHED, expectedAck := expected,
                                 receiveBuffer := ep.receiveBuffer.(next := expected),
                                 seqNum := remoteAck, unacknowledged := remoteAck, synRetries := 0)), true)
  }

  /** The sample the round-trip estimator would be fed for this acknowledgement. */
  function AckSample(ep: Endpoint, ack: u32, now: real): Option<real>
  {
    SB.RttSample(ep.sendBuffer, SB.Covered(ep.sendBuffer, ack), now)
  }

  /** Covered segments leave the buffer, and SND.UNA moves on to an acknowledgement above it. */
  function Released(ep: Endpoint, ack: u32): Endpoint
  {
    ep.(sendBuffer := ep.sendBuffer[SB.Covered(ep.sendBuffer, ack)..],
        unacknowledged := if ack > ep.unacknowledged then ack else ep.unacknowledged)
  }

  /** The congestion controller grows by acknowledged bytes; the timer learns from a clean sample. */
  function Learned(ep: Endpoint, bytes: u32, sample: Option<real>): Endpoint
  {
    ep.(congestion := if bytes > 0 then CC.OnAck(ep.congestion, bytes) else ep.congestion,
        timer := if sample.Some? then RT.Apply(ep.timer, RT.Sample(sample.value)) else ep.timer)
  }

  /** onAcknowledged. */
  function Acknowledged(ep: Endpoint, ack: u32, now: real): Endpoint
  {
    Learned(Released(ep, ack), Wrap(ack - ep.unacknowledged), AckSample(ep, ack, now))
  }

  function ReceiveAck(ep: Endpoint, ack: u32, now: real): Outcome
  {
    if ep.state.SYN_RECEIVED? && ack == Wrap(ep.seqNum + 1) then
      Outcome(DetectionReset(ep.(state := TS.ESTABLISHED, seqNum := ack, unacknowledged := ack, synRetries := 0)), true)
    else if (ep.state.FIN_WAIT_1? || ep.state.LAST_ACK?) && ack == Wrap(ep.seqNum + 1) then
      Outcome(ep.(state := TS.Next(ep.state, TS.FinAcked)), true)
    else if !ep.state.ESTABLISHED? then Outcome(ep, false)
    else if ack > ep.seqNum then Outcome(ep, false)
    else if ack < ep.unacknowledged then Outcome(ep, false)
    else if ack == ep.unacknowledged then
      Outcome(ep.(detector := SB.Observed(ep.detector, ack), congestion := CC.OnDuplicateAck(ep.congestion)), false)
    else
      Outcome(Acknowledged(ep.(detector := SB.Observed(ep.detector, ack)), ack, now), true)
  }

  function ReceiveFin(ep: Endpoint, remoteSeq: u32): Outcome
  {
    if !TS.Accepts(ep.state, TS.PeerFin) then Outcome(ep, false)
    else
      var expected := Wrap(remoteSeq + 1);
      Outcome(ep.(state := TS.Next(ep.state, TS.PeerFin), expectedAck := expected,
                  receiveBuffer := ep.receiveBuffer.(next := expected)), true)
  }

  /** `isn` is the random initial sequence number drawn if the state is entered now. */
  function SendSyn(ep: Endpoint, isn: u32): Outcome
  {
    if ep.state.SYN_SENT? then Outcome(ep, true)
    else if !TS.Accepts(ep.state, TS.SynSent) then Outcome(ep, false)
    else Outcome(DetectionReset(ep.(state := TS.SYN_SENT, seqNum := isn, unacknowledged := isn)), true)
  }

  function SendFin(ep: Endpoint): Outcome
  {
    Outcome(ep.(state := TS.Next(ep.state, TS.FinSent)), TS.Accepts(ep.state, TS.FinSent))
  }

  function ExpireTimeWait(ep: Endpoint): Outcome
  {
    Outcome(ep.(state := TS.Next(ep.state, TS.TimeWaitDone)), TS.Accepts(ep.state, TS.TimeWaitDone))
  }

  predicate CanSend(ep: Endpoint, size: nat)
  {
    size <= ep.window && Wrap(ep.seqNum - ep.unacknowledged) <= Wrap(ep.window - size)
  }

  function QueueSent(ep: Endpoint, seqNo: u32, ack: u32, payload: seq<byte>, now: real): Outcome
  {
    if payload == [] || seqNo != ep.seqNum || !CanSend(ep, |payload|) then Outcome(ep, false)
    else
      Outcome(DetectionReset(ep.(sendBuffer := ep.sendBuffer + [SB.Entry(seqNo, ack, payload, now, false, 0)],
                                 seqNum := Wrap(ep.seqNum + |payload|))), true)
  }

  function ReceiveData(ep: Endpoint, seqNo: u32, payload: seq<byte>): Outcome
  {
    var s := RB.Segment(seqNo, payload);
    if payload == [] || !RB.Admits(ep.receiveBuffer, s) then Outcome(ep, false)
    else
      var rb := RB.Drained(RB.Pushed(ep.receiveBuffer, s));
      Outcome(ep.(receiveBuffer := rb, expectedAck := rb.next), true)
  }

  function Oldest(ep: Endpoint): Option<u32>
  {
    if ep.sendBuffer == [] then None else Some(ep.sendBuffer[0].seqNo)
  }

  function RetransmissionCount(ep: Endpoint, seqNo: u32): u32
  {
    var i := SB.Find(ep.sendBuffer, seqNo);
    if i < |ep.sendBuffer| then ep.sendBuffer[i].count else 0
  }

  predicate CanRetransmit(ep: Endpoint, seqNo: u32)
  {
    RetransmissionCount(ep, seqNo) < MAX_DATA_RETRANSMISSIONS
  }

  function MarkRetransmitted(ep: Endpoint, seqNo: u32, now: real): Endpoint
  {
    ep.(sendBuffer := SB.MarkedAt(ep.sendBuffer, seqNo, now))
  }

  function SendTimeout(ep: Endpoint): Endpoint
  {
    ep.(timer := RT.Apply(ep.timer, RT.Timeout), congestion := CC.OnLoss(ep.congestion))
  }

  function FailRetransmission(ep: Endpoint): Endpoint
  {
    if ep.state.CLOSED? then ep
    else
      DetectionReset(ep.(state := TS.CLOSED, sendBuffer := [],
                         receiveBuffer := ep.receiveBuffer.(entries := [], buffered := 0),
                         timer := RT.Apply(ep.timer, RT.Reset), delayedAck := false))
  }

  function FlightSize(ep: Endpoint): u32 { Wrap(ep.seqNum - ep.unacknowledged) }

  // ---- the send buffer as a chain ----

  /** Consecutive entries touch, with plain integer arithmetic. */
  predicate Chained(entries: seq<SB.Entry>)
  {
    && (forall i :: 0 <= i < |entries| ==> entries[i].payload != [] && entries[i].seqNo + |entries[i].payload| <= MAX_WORD)
    && (forall i :: 0 <= i < |entries| - 1 ==> entries[i].seqNo + |entries[i].payload| == entries[i + 1].seqNo)
  }

  /**
    The entries cover exactly the range from una to next: they start at or below una, the first one
    ends above una, the last one ends at next, and they are empty only when the range is.
   */
  predicate Spans(entries: seq<SB.Entry>, una: int, next: int)
  {
    && una <= next <= MAX_WORD
    && Chained(entries)
    && (entries == [] <==> una == next)
    && (entries != [] ==>
          var first, last := entries[0], entries[|entries| - 1];
          && first.seqNo <= una < first.seqNo + |first.payload|
          && last.seqNo + |last.payload| == next)
  }

  predicate CoversFlight(ep: Endpoint)
  {
    && Spans(ep.sendBuffer, ep.unacknowledged, ep.seqNum)
    && ep.seqNum - ep.unacknowledged <= ep.window
  }

  /** What may happen to an established sender, in any order and with any arguments. */
  datatype SenderOp =
    | Queue(payload: seq<byte>, at: real)
    | Ack(number: u32, at: real)
    | Resend(seqNo: u32, at: real)
    | Expire
    | Data(seqNo: u32, payload: seq<byte>)

  function Perform(ep: Endpoint, op: SenderOp): Endpoint
  {
    match op
    case Queue(payload, at) => QueueSent(ep, ep.seqNum, ep.expectedAck, payload, at).ep
    case Ack(number, at) => ReceiveAck(ep, number, at).ep
    case Resend(seqNo, at) => MarkRetransmitted(ep, seqNo, at)
    case Expire => SendTimeout(ep)
    case Data(seqNo, payload) => ReceiveData(ep, seqNo, payload).ep
  }

  function PerformAll(ep: Endpoint, ops: seq<SenderOp>): Endpoint
  {
    if ops == [] then ep else Perform(PerformAll(ep, ops[..|ops| - 1]), ops[|ops| - 1])
  }

  /** The bytes a history of operations puts into the buffer: refused payloads do not count. */
  function Accepted(ep: Endpoint, ops: seq<SenderOp>): nat
  {
    if ops == [] then 0
    else Accepted(ep, ops[..|ops| - 1]) + Adds(PerformAll(ep, ops[..|ops| - 1]), ops[|ops| - 1])
  }

  function Adds(ep: Endpoint, op: SenderOp): nat
  {
    if op.Queue? && QueueSent(ep, ep.seqNum, ep.expectedAck, op.payload, op.at).ok then |op.payload| else 0
  }

  lemma AppendSpans(entries: seq<SB.Entry>, una: int, next: int, e: SB.Entry)
    requires Spans(entries, una, next) && e.seqNo == next && e.payload != [] && next + |e.payload| <= MAX_WORD
    ensures Spans(entries + [e], una, next + |e.payload|)
  {
    var more := entries + [e];
    assert forall i :: 0 <= i < |entries| ==> more[i] == entries[i];
  }

  lemma QueueKeepsChain(ep: Endpoint, payload: seq<byte>, now: real)
    requires CoversFlight(ep)
    ensures var r := QueueSent(ep, ep.seqNum, ep.expectedAck, payload, now);
      && (r.ok <==> payload != [] && ep.seqNum + |payload| - ep.unacknowledged <= ep.window)
      && (CoversFlight(r.ep) <==> (r.ok ==> ep.seqNum + |payload| <= MAX_WORD))
      && (r.ok && ep.seqNum + |payload| <= MAX_WORD ==> r.ep.seqNum == ep.seqNum + |payload|)
  {
    if payload != [] && ep.seqNum + |payload| <= MAX_WORD {
      AppendSpans(ep.sendBuffer, ep.unacknowledged, ep.seqNum, SB.Entry(ep.seqNum, ep.expectedAck, payload, now, false, 0));
    }
  }

  lemma TailSpans(entries: seq<SB.Entry>, una: int, next: int)
    requires Spans(entries, una, next) && entries != []
    ensures Spans(entries[1..], entries[0].seqNo + |entries[0].payload|, next)
  {
    var rest := entries[1..];
    assert forall i :: 0 <= i < |rest| ==> rest[i] == entries[i + 1];
    if rest != [] { EndsInside(entries, 1); }
  }

  lemma {:induction false} EndsInside(entries: seq<SB.Entry>, i: nat)
    requires Chained(entries) && i < |entries|
    ensures entries[i].seqNo + |entries[i].payload| <= entries[|entries| - 1].seqNo + |entries[|entries| - 1].payload|
    decreases |entries| - i
  {
    if i < |entries| - 1 { EndsInside(entries, i + 1); }
  }

  /** A cumulative acknowledgement inside the range leaves entries that cover what is above it. */
  lemma {:induction false} AckSpans(entries: seq<SB.Entry>, una: int, next: int, ack: u32)
    requires Spans(entries, una, next) && una <= ack <= next
    ensures Spans(entries[SB.Covered(entries, ack)..], ack, next)
    decreases |entries|
  {
    if entries != [] && SB.End(entries[0]) <= ack {
      TailSpans(entries, una, next);
      AckSpans(entries[1..], entries[0].seqNo + |entries[0].payload|, next, ack);
      assert entries[1..][SB.Covered(entries[1..], ack)..] == entries[SB.Covered(entries, ack)..];
    } else {
      assert entries[0..] == entries;
      if entries != [] { EndsInside(entries, 0); }
    }
  }

  lemma {:induction false} AckKeepsChain(ep: Endpoint, ack: u32, now: real)
    requires CoversFlight(ep) && ep.state.ESTABLISHED?
    ensures CoversFlight(ReceiveAck(ep, ack, now).ep)
    ensures var r := ReceiveAck(ep, ack, now);
      && (r.ok <==> ep.unacknowledged < ack <= ep.seqNum)
      && r.ep.unacknowledged == (if r.ok then ack else ep.unacknowledged)
  {
    if ep.unacknowledged < ack <= ep.seqNum {
      AckSpans(ep.sendBuffer, ep.unacknowledged, ep.seqNum, ack);
    }
  }

  lemma MarkKeepsChain(ep: Endpoint, seqNo: u32, now: real)
    requires CoversFlight(ep)
    ensures CoversFlight(MarkRetransmitted(ep, seqNo, now))
  {
    var xs, ys := ep.sendBuffer, SB.MarkedAt(ep.sendBuffer, seqNo, now);
    assert forall i :: 0 <= i < |xs| ==> ys[i].seqNo == xs[i].seqNo && ys[i].payload == xs[i].payload;
  }

  lemma PerformKeepsChain(ep: Endpoint, op: SenderOp)
    requires CoversFlight(ep) && ep.state.ESTABLISHED? && ep.seqNum + Adds(ep, op) <= MAX_WORD
    ensures var ep' := Perform(ep, op);
      CoversFlight(ep') && ep'.state.ESTABLISHED? && ep'.seqNum == ep.seqNum + Adds(ep, op)
  {
    match op
    case Queue(payload, at) => QueueKeepsChain(ep, payload, at);
    case Ack(number, at) => AckKeepsChain(ep, number, at);
    case Resend(seqNo, at) => MarkKeepsChain(ep, seqNo, at);
    case Expire =>
    case Data(_, _) =>
  }

  /**
    Main result: until failure or close, and as long as the accepted bytes stay below 2^32, the send buffer
    covers exactly the unacknowledged range, whatever acknowledgement numbers arrive, including ones inside
    a segment, below SND.UNA or beyond SND.NXT.
   */
  lemma {:induction false} SendBufferCoversFlight(seqNum: u32, expectedAck: u32, congestion: CC.Controller, ops: seq<SenderOp>)
    requires seqNum + Accepted(NewEndpoint(TS.ESTABLISHED, seqNum, expectedAck, congestion), ops) <= MAX_WORD
    ensures var start := NewEndpoint(TS.ESTABLISHED, seqNum, expectedAck, congestion);
      var ep := PerformAll(start, ops);
      CoversFlight(ep) && ep.state.ESTABLISHED? && ep.seqNum == seqNum + Accepted(start, ops)
  {
    if ops != [] {
      var before, op := ops[..|ops| - 1], ops[|ops| - 1];
      SendBufferCoversFlight(seqNum, expectedAck, congestion, before);
      PerformKeepsChain(PerformAll(NewEndpoint(TS.ESTABLISHED, seqNum, expectedAck, congestion), before), op);
    }
  }

  /** An acknowledgement that is not for what an endpoint has sent changes nothing (RFC 793 section 3.9). */
  lemma StraysChangeNothing(ep: Endpoint, seqNo: u32, ack: u32, now: real)
    ensures !ep.state.SYN_SENT? || ack != Wrap(ep.seqNum + 1) ==> ReceiveSynAck(ep, seqNo, ack) == Outcome(ep, false)
    ensures ep.state.ESTABLISHED? && !(ep.unacknowledged <= ack <= ep.seqNum) ==> ReceiveAck(ep, ack, now) == Outcome(ep, false)
    ensures !ep.state.ESTABLISHED? && ack != Wrap(ep.seqNum + 1) ==> ReceiveAck(ep, ack, now) == Outcome(ep, false)
  {
  }

  /**
    Where the 32-bit comparisons stop working: the acknowledgement of everything in flight is accepted if and
    only if the flight does not run past the last sequence number.
   */
  lemma WholeFlightAcknowledgedIff(ep: Endpoint, now: real)
    requires ep.state.ESTABLISHED? && FlightSize(ep) > 0
    ensures ReceiveAck(ep, ep.seqNum, now).ok <==> ep.unacknowledged + FlightSize(ep) <= MAX_WORD
    ensures ep.unacknowledged + FlightSize(ep) > MAX_WORD ==> ReceiveAck(ep, ep.seqNum, now).ep == ep
  {
    assert ep.seqNum == Wrap(ep.unacknowledged + FlightSize(ep));
  }
}
