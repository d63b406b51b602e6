/**
  A connection that is given up for want of resends, and what that leaves behind for good.
 */
module SessionGivenUp {
  import opened Common
  import opened Word32
  import opened Connection
  import opened Session
  import opened SessionClosing
  import opened SessionHistory
  import opened SessionResults
  import opened SessionSafety
  import opened SessionKarn
  import EventQueues
  import TS = TcpState
  import SB = SendBuffer
  import CC = CongestionControl
  import RT = RetransmissionTimer

  // ---- giving up ----

  /** Closed, with nothing stored and a timer as new. */
  predicate Cleared(ep: Endpoint)
  {
    ep.state.CLOSED? && ep.sendBuffer == [] && ep.timer == RT.FreshTimer && ep.receiveBuffer.entries == [] && !ep.delayedAck
  }

  lemma FailureClears(ep: Endpoint)
    requires !ep.state.CLOSED?
    ensures Cleared(FailRetransmission(ep))
  {
  }

  lemma GivingUpClears(w: World, c: Choice)
    requires Enabled(w, c) && GivesUp(w)
    ensures Cleared(Step(w, c).client) && Step(w, c).pending == w.pending[1..] && Step(w, c).log == w.log
  {
    var w1, e := Popped(w), w.pending[0].event;
    FailureClears(w.client);
    if e.Timeout? { TimeoutControl(w1, e.seqNo); }
    else if e.Retransmission? { RetransmissionControl(w1, e.seqNo, c); }
    else { FastControl(w1, c); }
  }

  lemma BegunIsNotIdle(w: World)
    requires forall x :: x in w.pending ==> !x.event.Handshake?
    ensures !Idle(w)
  {
    if |w.pending| > 0 { assert w.pending[0] in w.pending; }
  }

  lemma GivingUpIsOver(w: World, c: Choice)
    requires Inv(w) && Enabled(w, c) && GivesUp(w)
    ensures Over(Step(w, c))
  {
    StepKeepsInv(w, c);
    GivingUpClears(w, c);
    var w' := Step(w, c);
    assert w.pending[0] in w.pending;
    assert forall x :: x in w'.pending ==> x in w.pending && !x.event.Handshake?;
    BegunIsNotIdle(w');
  }

  /** The client's store. */
  ghost predicate StaysEmpty(w: World, w': World) { w.client.sendBuffer == [] ==> w'.client.sendBuffer == [] }

  lemma FinStaysEmpty(w: World, p: Packet, c: Choice)
    ensures StaysEmpty(w, OnFin(w, p, c))
  {
    var out := ReceiveFin(Session.End(w, p.toServer), p.seqNo);
    FinReactionsStayEmpty(WithEnd(w, p.toServer, out.ep), p.toServer, c);
  }

  lemma FinReactionsStayEmpty(w: World, toServer: bool, c: Choice)
    ensures StaysEmpty(w, FinReactions(w, toServer, c))
  {
  }

  lemma DataStaysEmpty(w: World, p: Packet, c: Choice)
    ensures StaysEmpty(w, OnData(w, p, c))
  {
  }

  lemma ArrivalStaysEmpty(w: World, c: Choice)
    requires Enabled(w, c) && w.pending[0].event.Arrival?
    ensures StaysEmpty(w, Step(w, c))
  {
    var w1, p := Popped(w), w.pending[0].event.packet;
    if AckReaches(w, false) { AckEnds(w, false, c); }
    else if AckReaches(w, true) { AckEnds(w, true, c); }
    else if p.at == Home(w1.site, p.toServer) {
      match p.kind {
        case DATA => DataStaysEmpty(w1, p, c);
        case FIN => FinStaysEmpty(w1, p, c);
        case _ =>
      }
    }
  }

  lemma FiredStaysEmpty(w: World, e: Event, c: Choice)
    requires !e.Arrival? && !w.client.state.ESTABLISHED?
    ensures StaysEmpty(w, Execute(w, e, c))
  {
    if e.Generate? { assert OnGenerate(w, c) == w; }
  }

  predicate Gone(ep: Endpoint) { ep.state.CLOSED? && ep.sendBuffer == [] }

  lemma GoneStays(w: World, c: Choice)
    requires Over(w) && Gone(w.client)
    ensures var w' := Step(w, c); Over(w') && Gone(w'.client) && w'.log == w.log
  {
    FinishingStep(w, c);
    OverSendsNothing(w, c);
    if Enabled(w, c) {
      if w.pending[0].event.Arrival? { ArrivalStaysEmpty(w, c); } else { FiredStaysEmpty(Popped(w), w.pending[0].event, c); }
    }
  }

  lemma {:induction false} GoneRun(w: World, rest: seq<Choice>)
    requires Over(w) && Gone(w.client)
    ensures var w' := Run(w, rest); Over(w') && Gone(w'.client) && w'.log == w.log
  {
    if rest != [] {
      GoneRun(w, rest[..|rest| - 1]);
      GoneStays(Run(w, rest[..|rest| - 1]), rest[|rest| - 1]);
    }
  }

  /**
    Main result: a connection given up for want of resends leaves nothing stored, a timer as new, and nothing waiting
    that was not waiting before; and it never stores or sends a segment again.
   */
  lemma {:induction false} GivenUpForGood(site: Site, serverState: TS.State, choices: seq<Choice>, c: Choice, rest: seq<Choice>)
    requires Fresh(serverState)
    requires var w := Run(Session.Start(site, serverState), choices); Enabled(w, c) && GivesUp(w)
    ensures var w := Run(Session.Start(site, serverState), choices); var w' := Step(w, c);
      && Cleared(w'.client) && w'.pending == w.pending[1..]
      && Gone(Run(w', rest).client) && Run(w', rest).log == w.log
  {
    RunKeepsInv(site, serverState, choices);
    var w := Run(Session.Start(site, serverState), choices);
    GivingUpClears(w, c);
    GivingUpIsOver(w, c);
    GoneRun(Step(w, c), rest);
  }
}
