/** The eleven connection states and the tests guarding each transition (TCPStateMachine.hpp). */
module TcpState {

  datatype State =
    | CLOSED | LISTEN | SYN_SENT | SYN_RECEIVED | ESTABLISHED
    | FIN_WAIT_1 | FIN_WAIT_2 | CLOSE_WAIT | CLOSING | LAST_ACK | TIME_WAIT

  datatype Trigger =
    | Listen | SynSent | SynReceived | Established | FinSent | FinAcked
    | PeerFin | TimeWaitDone | RetransmissionFailure

  /** The state a trigger leads to; a rejected trigger leaves the state alone. */
  function Next(s: State, t: Trigger): State
  {
    match t
    case Listen => if s.CLOSED? then LISTEN else s
    case SynSent => if s.CLOSED? || s.LISTEN? then SYN_SENT else s
    case SynReceived => if s.CLOSED? || s.LISTEN? || s.SYN_SENT? then SYN_RECEIVED else s
    case Established =>
      if s.SYN_SENT? || s.SYN_RECEIVED? || s.FIN_WAIT_1? || s.FIN_WAIT_2? || s.CLOSE_WAIT? then ESTABLISHED else s
    case FinSent => if s.ESTABLISHED? then FIN_WAIT_1 else if s.CLOSE_WAIT? then LAST_ACK else s
    case FinAcked => if s.FIN_WAIT_1? then FIN_WAIT_2 else if s.LAST_ACK? then CLOSED else s
    case PeerFin =>
      if s.ESTABLISHED? then CLOSE_WAIT
      else if s.FIN_WAIT_1? then CLOSING
      else if s.FIN_WAIT_2? then TIME_WAIT else s
    case TimeWaitDone => if s.TIME_WAIT? then CLOSED else s
    case RetransmissionFailure => CLOSED
  }

  /** A trigger is accepted when it changes the state; listening again is accepted too. */
  predicate Accepts(s: State, t: Trigger)
  {
    Next(s, t) != s || (s.LISTEN? && t.Listen?)
  }

  /** CLOSING is the one state that no trigger but a failure leaves; every other state has a way on. */
  lemma OnlyClosingIsStuck(s: State)
    ensures (forall t: Trigger :: Accepts(s, t) ==> t.RetransmissionFailure?) <==> s.CLOSING?
  {
    if !s.CLOSING? {
      var way := match s
        case CLOSED => Listen
        case LISTEN => SynSent
        case SYN_SENT => SynReceived
        case SYN_RECEIVED => Established
        case ESTABLISHED => FinSent
        case FIN_WAIT_1 => FinAcked
        case FIN_WAIT_2 => PeerFin
        case CLOSE_WAIT => FinSent
        case LAST_ACK => FinAcked
        case TIME_WAIT => TimeWaitDone;
      assert Accepts(s, way);
    }
  }

  // ---- the diagram ----

  /** The connection state diagram of RFC 793 (figure 6). */
  predicate Diagram(s: State, s': State)
  {
    match s
    case CLOSED => s'.LISTEN? || s'.SYN_SENT?
    case LISTEN => s'.SYN_RECEIVED? || s'.SYN_SENT? || s'.CLOSED?
    case SYN_SENT => s'.SYN_RECEIVED? || s'.ESTABLISHED? || s'.CLOSED?
    case SYN_RECEIVED => s'.ESTABLISHED? || s'.FIN_WAIT_1?
    case ESTABLISHED => s'.FIN_WAIT_1? || s'.CLOSE_WAIT?
    case FIN_WAIT_1 => s'.FIN_WAIT_2? || s'.CLOSING?
    case FIN_WAIT_2 => s'.TIME_WAIT?
    case CLOSE_WAIT => s'.LAST_ACK?
    case CLOSING => s'.TIME_WAIT?
    case LAST_ACK => s'.CLOSED?
    case TIME_WAIT => s'.CLOSED?
  }

  /** What the machine leaves out of it: closing before the connection is established, and the way out of CLOSING. */
  predicate LeftOut(s: State, s': State)
  {
    (s.LISTEN? && s'.CLOSED?) || (s.SYN_SENT? && s'.CLOSED?) || (s.SYN_RECEIVED? && s'.FIN_WAIT_1?) || s.CLOSING?
  }

  /** What it adds: a SYN opens a closed end, and a closing one can be established again. */
  predicate Added(s: State, s': State)
  {
    (s.CLOSED? && s'.SYN_RECEIVED?) || ((s.FIN_WAIT_1? || s.FIN_WAIT_2? || s.CLOSE_WAIT?) && s'.ESTABLISHED?)
  }

  /** Failures apart, the machine moves exactly along the diagram of RFC 793, but for these. */
  lemma MovesByTheDiagram(s: State, s': State)
    requires s != s'
    ensures (exists t: Trigger :: !t.RetransmissionFailure? && Next(s, t) == s')
            <==> (Diagram(s, s') && !LeftOut(s, s')) || Added(s, s')
  {
    if (Diagram(s, s') && !LeftOut(s, s')) || Added(s, s') {
      var way := match s'
        case CLOSED => if s.TIME_WAIT? then TimeWaitDone else FinAcked
        case LISTEN => Listen
        case SYN_SENT => SynSent
        case SYN_RECEIVED => SynReceived
        case ESTABLISHED => Established
        case FIN_WAIT_1 => FinSent
        case FIN_WAIT_2 => FinAcked
        case CLOSE_WAIT => PeerFin
        case CLOSING => PeerFin
        case LAST_ACK => FinSent
        case TIME_WAIT => PeerFin;
      assert Next(s, way) == s';
    }
  }

  // ---- closing ----

  /** The state after some triggers, one after another. */
  function Driven(s: State, ts: seq<Trigger>): State
  {
    if ts == [] then s else Next(Driven(s, ts[..|ts| - 1]), ts[|ts| - 1])
  }

  /** What can happen to an end that has sent its FIN. */
  predicate Late(t: Trigger) { t.FinAcked? || t.PeerFin? || t.TimeWaitDone? || t.RetransmissionFailure? }

  /** At some point one trigger happens before the other has. */
  predicate Before(ts: seq<Trigger>, first: Trigger, other: Trigger)
  {
    ts != [] &&
    var earlier := ts[..|ts| - 1];
    Before(earlier, first, other) || (ts[|ts| - 1] == first && other !in earlier)
  }

  /** Of two triggers the one that comes first comes first alone. */
  lemma {:induction false} OneIsFirst(ts: seq<Trigger>, a: Trigger, b: Trigger)
    requires a != b
    ensures a in ts || b in ts <==> Before(ts, a, b) || Before(ts, b, a)
    ensures !(Before(ts, a, b) && Before(ts, b, a))
    ensures (Before(ts, a, b) ==> a in ts) && (Before(ts, b, a) ==> b in ts)
  {
    if ts != [] {
      assert ts == ts[..|ts| - 1] + [ts[|ts| - 1]];
      OneIsFirst(ts[..|ts| - 1], a, b);
    }
  }

  /** Where an end that has sent its FIN stands, after whatever can still happen to it. */
  lemma {:induction false} AfterFin(ts: seq<Trigger>)
    requires forall t :: t in ts ==> Late(t)
    ensures var s := Driven(FIN_WAIT_1, ts);
      && (s.FIN_WAIT_1? <==> RetransmissionFailure !in ts && FinAcked !in ts && PeerFin !in ts)
      && (s.FIN_WAIT_2? <==> RetransmissionFailure !in ts && Before(ts, FinAcked, PeerFin) && PeerFin !in ts)
      && (s.CLOSING? <==> RetransmissionFailure !in ts && Before(ts, PeerFin, FinAcked))
      && (s.TIME_WAIT? || s.CLOSED? || s.FIN_WAIT_1? || s.FIN_WAIT_2? || s.CLOSING?)
  {
    if ts != [] {
      var earlier, t := ts[..|ts| - 1], ts[|ts| - 1];
      assert ts == earlier + [t] && t in ts;
      AfterFin(earlier);
      OneIsFirst(earlier, FinAcked, PeerFin);
    }
  }

  /** At some point the peer's FIN comes, one's own acknowledged before it, and no retransmission has failed. */
  predicate ClosesCleanly(ts: seq<Trigger>)
  {
    ts != [] &&
    var earlier := ts[..|ts| - 1];
    || ClosesCleanly(earlier)
    || (ts[|ts| - 1].PeerFin? && Before(earlier, FinAcked, PeerFin) && RetransmissionFailure !in earlier)
  }

  /** At some point the state is this one. */
  predicate Passes(s: State, ts: seq<Trigger>, target: State)
  {
    Driven(s, ts) == target || (ts != [] && Passes(s, ts[..|ts| - 1], target))
  }

  /**
    An end that has sent its FIN gets to TIME_WAIT if and only if the acknowledgement comes before the peer's FIN,
    that FIN comes too, and no retransmission fails before it.
   */
  lemma {:induction false} TimeWaitIff(ts: seq<Trigger>)
    requires forall t :: t in ts ==> Late(t)
    ensures Passes(FIN_WAIT_1, ts, TIME_WAIT) <==> ClosesCleanly(ts)
  {
    if ts != [] {
      var earlier, t := ts[..|ts| - 1], ts[|ts| - 1];
      assert ts == earlier + [t];
      TimeWaitIff(earlier);
      AfterFin(earlier);
      ToTimeWait(earlier, t);
    }
  }

  /** One enters TIME_WAIT from FIN_WAIT_2, or has been there before. */
  lemma ToTimeWait(earlier: seq<Trigger>, t: Trigger)
    requires Late(t) && (forall u :: u in earlier ==> Late(u)) && (Passes(FIN_WAIT_1, earlier, TIME_WAIT) <==> ClosesCleanly(earlier))
    ensures Passes(FIN_WAIT_1, earlier, TIME_WAIT) || Next(Driven(FIN_WAIT_1, earlier), t) == TIME_WAIT <==>
      ClosesCleanly(earlier) || (t.PeerFin? && Before(earlier, FinAcked, PeerFin) && RetransmissionFailure !in earlier)
  {
    AfterFin(earlier);
    if PeerFin in earlier && Before(earlier, FinAcked, PeerFin) && RetransmissionFailure !in earlier { CleanOnce(earlier); }
  }

  /** A second FIN finds the close done. */
  lemma {:induction false} CleanOnce(ts: seq<Trigger>)
    requires Before(ts, FinAcked, PeerFin) && PeerFin in ts && RetransmissionFailure !in ts
    ensures ClosesCleanly(ts)
  {
    var earlier, t := ts[..|ts| - 1], ts[|ts| - 1];
    assert ts == earlier + [t];
    if PeerFin in earlier { CleanOnce(earlier); }
  }

  /** TCPStateMachine. */
  class TcpStateMachine {
    var state: State

    constructor (initial: State)
      ensures state == initial
    {
      state := initial;
    }

    method OnListen() returns (ok: bool)
      modifies this
      ensures state == Next(old(state), Listen) && ok == Accepts(old(state), Listen)
    {
      if state.CLOSED? { state := LISTEN; return true; }
      return state.LISTEN?;
    }

    method OnSynSent() returns (ok: bool)
      modifies this
      ensures state == Next(old(state), SynSent) && ok == Accepts(old(state), SynSent)
    {
      if state.CLOSED? || state.LISTEN? { state := SYN_SENT; return true; }
      return false;
    }

    method OnSynReceived() returns (ok: bool)
      modifies this
      ensures state == Next(old(state), SynReceived) && ok == Accepts(old(state), SynReceived)
    {
      if state.CLOSED? || state.LISTEN? || state.SYN_SENT? { state := SYN_RECEIVED; return true; }
      return false;
    }

    method OnEstablished() returns (ok: bool)
      modifies this
      ensures state == Next(old(state), Established) && ok == Accepts(old(state), Established)
    {
      if state.SYN_SENT? || state.SYN_RECEIVED? || state.FIN_WAIT_1? || state.FIN_WAIT_2? || state.CLOSE_WAIT? {
        state := ESTABLISHED;
        return true;
      }
      return false;
    }

    method OnFinSent() returns (ok: bool)
      modifies this
      ensures state == Next(old(state), FinSent) && ok == Accepts(old(state), FinSent)
    {
      if state.ESTABLISHED? { state := FIN_WAIT_1; return true; }
      if state.CLOSE_WAIT? { state := LAST_ACK; return true; }
      return false;
    }

    method OnFinAcked() returns (ok: bool)
      modifies this
      ensures state == Next(old(state), FinAcked) && ok == Accepts(old(state), FinAcked)
    {
      if state.FIN_WAIT_1? { state := FIN_WAIT_2; return true; }
      if state.LAST_ACK? { state := CLOSED; return true; }
      return false;
    }

    method OnPeerFin() returns (ok: bool)
      modifies this
      ensures state == Next(old(state), PeerFin) && ok == Accepts(old(state), PeerFin)
    {
      if state.ESTABLISHED? { state := CLOSE_WAIT; return true; }
      if state.FIN_WAIT_1? { state := CLOSING; return true; }
      if state.FIN_WAIT_2? { state := TIME_WAIT; return true; }
      return false;
    }

    method OnTimeWaitDone() returns (ok: bool)
      modifies this
      ensures state == Next(old(state), TimeWaitDone) && ok == Accepts(old(state), TimeWaitDone)
    {
      if state.TIME_WAIT? { state := CLOSED; return true; }
      return false;
    }

    method OnRetransmissionFailure() returns (ok: bool)
      modifies this
      ensures state == Next(old(state), RetransmissionFailure) && ok == Accepts(old(state), RetransmissionFailure)
    {
      if state.CLOSED? { return false; }
      state := CLOSED;
      return true;
    }
  }
}
