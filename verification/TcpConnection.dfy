/**
  The connection as an object built from its parts (TCPConnection.cpp): each method drives the state machine,
  the two buffers, the loss detector and the timer, and takes the whole to the state Connection.dfy specifies.
 */
module TcpConnections {
  import opened Common
  import opened Word32
  import opened Connection
  import TS = TcpState
  import RB = ReceiveBuffer
  import SB = SendBuffer
  import CC = CongestionControl
  import RT = RetransmissionTimer

  class TcpConnection {
    const machine: TS.TcpStateMachine
    const sendBuffer: SB.TcpSendBuffer
    const receiveBuffer: RB.TcpReceiveBuffer
    const detector: SB.TcpLossDetector
    const rto: RT.RtoManager
    var seqNum: u32
    var expectedAck: u32
    var unacknowledged: u32
    var window: u32
    var synRetries: u32
    var delayedAck: bool
    var congestion: CC.Controller

    /** The connection and everything it owns. */
    ghost function Repr(): set<object>
    {
      {this, machine, sendBuffer, receiveBuffer, detector, rto, rto.estimator}
    }

    ghost predicate Valid()
      reads Repr()
    {
      RB.Valid(receiveBuffer.State()) && sendBuffer.capacity == 0
    }

    ghost function State(): Endpoint
      reads Repr()
    {
      Endpoint(machine.state, seqNum, expectedAck, unacknowledged, window, synRetries, sendBuffer.entries,
               receiveBuffer.State(), detector.State(), delayedAck, congestion, rto.State())
    }

    constructor (state: TS.State, seqNum: u32, expectedAck: u32, controller: CC.Controller)
      ensures Valid() && fresh(Repr())
      ensures State() == NewEndpoint(state, seqNum, expectedAck, controller) && receiveBuffer.consumed == []
    {
      machine := new TS.TcpStateMachine(state);
      sendBuffer := new SB.TcpSendBuffer(0);
      receiveBuffer := new RB.TcpReceiveBuffer(expectedAck, DEFAULT_WINDOW);
      detector := new SB.TcpLossDetector();
      rto := new RT.RtoManager();
      this.seqNum, this.expectedAck, this.unacknowledged := seqNum, expectedAck, seqNum;
      window, synRetries, delayedAck := DEFAULT_WINDOW, 0, false;
      congestion := controller;
      new;
      var _ := detector.ObserveAck(seqNum);
    }

    method ResetLossDetection()
      requires Valid()
      modifies detector
      ensures Valid() && State() == DetectionReset(old(State()))
    {
      detector.Reset();
      var _ := detector.ObserveAck(unacknowledged);
    }

    method ReceiveSyn(remoteSeq: u32) returns (ok: bool)
      requires Valid()
      modifies Repr()
      ensures receiveBuffer.consumed == old(receiveBuffer.consumed)
      ensures Valid() && Outcome(State(), ok) == Connection.ReceiveSyn(old(State()), remoteSeq)
    {
      ok := machine.OnSynReceived();
      if ok {
        expectedAck := Wrap(remoteSeq + 1);
        receiveBuffer.SetNextSequence(expectedAck);
      }
    }

    method ReceiveSynAck(remoteSeq: u32, remoteAck: u32) returns (ok: bool)
      requires Valid()
      modifies Repr()
      ensures receiveBuffer.consumed == old(receiveBuffer.consumed)
      ensures Valid() && Outcome(State(), ok) == Connection.ReceiveSynAck(old(State()), remoteSeq, remoteAck)
    {
      if !machine.state.SYN_SENT? { return false; }
      if remoteAck != Wrap(seqNum + 1) { return false; }
      ok := machine.OnEstablished();
      if !ok { return; }
      expectedAck := Wrap(remoteSeq + 1);
      receiveBuffer.SetNextSequence(expectedAck);
      seqNum := remoteAck;
      unacknowledged := remoteAck;
      synRetries := 0;
      ResetLossDetection();
    }

    /** The congestion controller grows by acknowledged bytes; the timer learns from a clean sample. */
    method LearnFromAck(bytes: u32, sample: Option<real>)
      requires Valid()
      modifies this`congestion, rto, rto.estimator
      ensures Valid() && State() == Learned(old(State()), bytes, sample)
    {
      if bytes > 0 { congestion := CC.OnAck(congestion, bytes); }
      if sample.Some? { rto.OnAcknowledgement(sample.value); }
    }

    /** Acknowledged segments leave the buffer and SND.UNA moves up. */
    method TakeAcknowledged(ack: u32, now: real) returns (sample: Option<real>)
      requires Valid()
      modifies this`unacknowledged, sendBuffer
      ensures Valid() && sample == AckSample(old(State()), ack, now)
      ensures State() == Released(old(State()), ack)
    {
      sample := sendBuffer.AcknowledgeAndGetRtt(ack, now);
      if ack > unacknowledged { unacknowledged := ack; }
    }

    method OnAcknowledged(ack: u32, now: real)
      requires Valid()
      modifies Repr()
      ensures receiveBuffer.consumed == old(receiveBuffer.consumed)
      ensures Valid() && State() == Acknowledged(old(State()), ack, now)
    {
      var previous := unacknowledged;
      var sample := TakeAcknowledged(ack, now);
      assert State() == Released(old(State()), ack);
      LearnFromAck(Wrap(ack - previous), sample);
    }

    method ReceiveAck(ack: u32, now: real) returns (ok: bool)
      requires Valid()
      modifies Repr()
      ensures receiveBuffer.consumed == old(receiveBuffer.consumed)
      ensures Valid() && Outcome(State(), ok) == Connection.ReceiveAck(old(State()), ack, now)
    {
      if machine.state.SYN_RECEIVED? && ack == Wrap(seqNum + 1) {
        ok := machine.OnEstablished();
        if !ok { return; }
        seqNum := ack;
        unacknowledged := ack;
        synRetries := 0;
        ResetLossDetection();
        return;
      }
      if (machine.state.FIN_WAIT_1? || machine.state.LAST_ACK?) && ack == Wrap(seqNum + 1) {
        ok := machine.OnFinAcked();
        return;
      }
      if !machine.state.ESTABLISHED? { return false; }
      if ack > seqNum { return false; }
      if ack < unacknowledged { return false; }
      var _ := detector.ObserveAck(ack);
      if ack == unacknowledged {
        congestion := CC.OnDuplicateAck(congestion);
        return false;
      }
      OnAcknowledged(ack, now);
      ok := true;
    }

    method ReceiveFin(remoteSeq: u32) returns (ok: bool)
      requires Valid()
      modifies Repr()
      ensures receiveBuffer.consumed == old(receiveBuffer.consumed)
      ensures Valid() && Outcome(State(), ok) == Connection.ReceiveFin(old(State()), remoteSeq)
    {
      ok := machine.OnPeerFin();
      if ok {
        expectedAck := Wrap(remoteSeq + 1);
        receiveBuffer.SetNextSequence(expectedAck);
      }
    }

    method SendSyn(isn: u32) returns (ok: bool)
      requires Valid()
      modifies Repr()
      ensures receiveBuffer.consumed == old(receiveBuffer.consumed)
      ensures Valid() && Outcome(State(), ok) == Connection.SendSyn(old(State()), isn)
    {
      if machine.state.SYN_SENT? { return true; }
      ok := machine.OnSynSent();
      if !ok { return; }
      seqNum := isn;
      unacknowledged := isn;
      ResetLossDetection();
    }

    method SendFin() returns (ok: bool)
      requires Valid()
      modifies Repr()
      ensures receiveBuffer.consumed == old(receiveBuffer.consumed)
      ensures Valid() && Outcome(State(), ok) == Connection.SendFin(old(State()))
    {
      ok := machine.OnFinSent();
    }

    method ExpireTimeWait() returns (ok: bool)
      requires Valid()
      modifies Repr()
      ensures receiveBuffer.consumed == old(receiveBuffer.consumed)
      ensures Valid() && Outcome(State(), ok) == Connection.ExpireTimeWait(old(State()))
    {
      ok := machine.OnTimeWaitDone();
    }

    /** The send window's test: the segment fits, and fits beside what is already in flight. */
    method HasRoom(size: nat) returns (ok: bool)
      ensures ok == CanSend(State(), size)
    {
      var inFlight := Wrap(seqNum - unacknowledged);
      if size > window { return false; }
      if inFlight > Wrap(window - size) { return false; }
      ok := true;
    }

    /** A segment is kept for retransmission only if it is the next in sequence and fits the send window. */
    method QueueSentSegment(seqNo: u32, ack: u32, payload: seq<byte>, sentAt: real) returns (ok: bool)
      requires Valid()
      modifies Repr()
      ensures receiveBuffer.consumed == old(receiveBuffer.consumed)
      ensures Valid() && Outcome(State(), ok) == QueueSent(old(State()), seqNo, ack, payload, sentAt)
    {
      if |payload| == 0 { return false; }
      if seqNo != seqNum { return false; }
      var room := HasRoom(|payload|);
      if !room { return false; }
      ok := sendBuffer.Push(SB.Entry(seqNo, ack, payload, sentAt, false, 0));
      if !ok { return; }
      seqNum := Wrap(seqNum + |payload|);
      ResetLossDetection();
    }

    /** Accepted bytes reach the application in order, as soon as the gap before them is closed. */
    method ReceiveData(seqNo: u32, payload: seq<byte>) returns (ok: bool)
      requires Valid()
      modifies Repr()
      ensures Valid() && Outcome(State(), ok) == Connection.ReceiveData(old(State()), seqNo, payload)
      ensures receiveBuffer.consumed == old(receiveBuffer.consumed) +
        if ok then RB.DrainedBytes(RB.Pushed(old(receiveBuffer.State()), RB.Segment(seqNo, payload))) else []
    {
      if |payload| == 0 { return false; }
      ok := receiveBuffer.Push(RB.Segment(seqNo, payload));
      if !ok { return; }
      var _ := receiveBuffer.ConsumeContiguous();
      expectedAck := receiveBuffer.next;
    }

    method GetRetransmissionCount(seqNo: u32) returns (count: u32)
      ensures count == RetransmissionCount(State(), seqNo)
    {
      var i := sendBuffer.IndexOf(seqNo);
      count := if i < |sendBuffer.entries| then sendBuffer.entries[i].count else 0;
    }

    method MarkSegmentRetransmitted(seqNo: u32, now: real) returns (ok: bool)
      requires Valid()
      modifies Repr()
      ensures receiveBuffer.consumed == old(receiveBuffer.consumed)
      ensures Valid() && State() == MarkRetransmitted(old(State()), seqNo, now)
      ensures ok == SB.Contains(old(sendBuffer.entries), seqNo)
    {
      ok := sendBuffer.MarkRetransmitted(seqNo, now);
    }

    method OnSendTimeout()
      requires Valid()
      modifies Repr()
      ensures receiveBuffer.consumed == old(receiveBuffer.consumed)
      ensures Valid() && State() == SendTimeout(old(State()))
    {
      var _ := rto.OnTimeout();
      congestion := CC.OnLoss(congestion);
    }

    method FailRetransmission() returns (ok: bool)
      requires Valid()
      modifies Repr()
      ensures receiveBuffer.consumed == old(receiveBuffer.consumed)
      ensures Valid() && State() == Connection.FailRetransmission(old(State()))
      ensures ok == !old(machine.state).CLOSED?
    {
      ok := machine.OnRetransmissionFailure();
      if !ok { return; }
      sendBuffer.Clear();
      receiveBuffer.Clear();
      rto.Clear();
      ResetLossDetection();
      delayedAck := false;
    }
  }
}
