/**
  A simulation as a run of the engine that is, session by session, a run of Session: the network of a session is what
  the engine's links do with its packets.
 */
module SimulationRuns {
  import opened Common
  import opened Word32
  import opened EventQueues
  import opened Session
  import opened SessionDeeds
  import opened Simulations
  import E = Engine
  import EngineRuns
  import EngineSafety
  import SessionDrain
  import TS = TcpState

  /** What chance makes of one event: a drop when it forwards, drops of what it sends, and what the session draws. */
  datatype Turn = Turn(drop: bool, drops: seq<bool>, size: nat, isn: u32, payload: seq<byte>)

  /** There is an event to run, it is somebody's, and segments are not empty. */
  predicate Ready(j: Joint, t: Turn)
  {
    && j.engine.pending != [] && t.payload != [] && j.engine.pending[0].id in j.ledger
    && var n := j.ledger[j.engine.pending[0].id];
       n.session < |j.sessions| && j.sessions[n.session].pending != []
  }

  function Next(j: Joint, t: Turn): Note
    requires Ready(j, t)
  {
    j.ledger[j.engine.pending[0].id]
  }

  /** The session whose event it is, with the event taken off its queue. */
  function Woken(j: Joint, t: Turn): World
    requires Ready(j, t)
  {
    Session.Popped(j.sessions[Next(j, t).session])
  }

  function Offered(offers: seq<Offer>, t: Turn, now: real): Choice
  {
    Choice(if |offers| > 0 then offers[0] else Offer(false, now), if |offers| > 1 then offers[1] else Offer(false, now),
           t.isn, t.payload)
  }

  /** What the engine's links do with the packets of the event: the choice the session is run with. */
  function ChoiceOf(j: Joint, t: Turn): Choice
    requires Ready(j, t)
  {
    var x, n, w := j.engine.pending[0], Next(j, t), Woken(j, t);
    if E.Reacts(x.event) then
      Offered(Answers(E.Begun(j.engine, t.drop), w.site, Wanted(w, n.event, t.isn, t.payload), t.size, n.session, t.drops), t, x.time)
    else
      Offered([Answer(E.Release(E.Popped(j.engine), x.event.packet), x.event.packet, t.drop)], t, x.time)
  }

  function DeedsOf(j: Joint, t: Turn): seq<Deed>
    requires Ready(j, t)
  {
    Deeds(Woken(j, t), Next(j, t).event, ChoiceOf(j, t))
  }

  /** What the event asks of the engine: the input the engine is run with. */
  function InputOf(j: Joint, t: Turn): E.Input
    requires Ready(j, t)
  {
    E.ProcessEvent(t.drop, Orders(j.engine.pending[0].time, Woken(j, t).site, DeedsOf(j, t), t.size, Next(j, t).session, t.drops))
  }

  /** The event taken off both queues, and what the engine does before the session's own body. */
  function Woke(j: Joint, t: Turn, ew: E.World): Joint
    requires Ready(j, t)
  {
    With(j, ew, Next(j, t).session, Woken(j, t), j.ledger)
  }

  function LedgerOf(j: Joint, t: Turn): map<nat, Note>
    requires Ready(j, t)
  {
    var x, n := j.engine.pending[0], Next(j, t);
    if E.Reacts(x.event) then Played(Woke(j, t, E.Begun(j.engine, t.drop)), n.session, DeedsOf(j, t), t.size, t.drops).ledger
    else if !n.event.Arrival? then j.ledger
    else Handed(Woke(j, t, E.Release(E.Popped(j.engine), x.event.packet)), n.session, x.event.packet, n.event.packet,
                ChoiceOf(j, t).offer, t.drop).ledger
  }

  /** One event of the simulation: a step of the engine and a step of the session it belongs to. */
  function Turned(j: Joint, t: Turn): Joint
  {
    if !Ready(j, t) then j
    else
      var i := Next(j, t).session;
      With(j, E.Step(j.engine, InputOf(j, t)), i, Session.Step(j.sessions[i], ChoiceOf(j, t)), LedgerOf(j, t))
  }

  // ---- one event ----

  /** The head of the engine's queue is the head of its session's. */
  lemma HeadsAgree(j: Joint, t: Turn)
    requires Tied(j) && Ready(j, t)
    ensures j.sessions[Next(j, t).session].pending[0] == Noted(j.engine.pending[0], Next(j, t))
    ensures Tied(Woke(j, t, E.Popped(j.engine))) && Woken(j, t).now == j.engine.pending[0].time
    ensures Alike(Woken(j, t).site, j.engine.pending[0].event, Next(j, t).event)
  {
    var q, i, j' := j.engine.pending, Next(j, t).session, Woke(j, t, E.Popped(j.engine));
    assert Known(j, q[0]) && Linked(j, i);
    assert forall x :: x in q[1..] ==> x in q;
    forall x | x in q[1..] ensures Known(j', x) { assert Known(j, x); }
    forall k | 0 <= k < |j'.sessions| ensures Linked(j', k) { assert Linked(j, k); }
  }

  lemma ReadyIff(j: Joint, t: Turn)
    requires Tied(j)
    ensures Ready(j, t) <==> j.engine.pending != [] && t.payload != []
  {
    if j.engine.pending != [] {
      assert Known(j, j.engine.pending[0]);
      assert Linked(j, j.ledger[j.engine.pending[0].id].session);
    }
  }

  lemma {:induction false} AnswersLate(ew: E.World, site: Site, packets: seq<Packet>, size: nat, tag: nat, drops: seq<bool>)
    ensures var a := Answers(ew, site, packets, size, tag, drops);
      |a| == |packets| && forall o :: o in a ==> o.arrival >= ew.now
    decreases |packets|
  {
    if packets != [] {
      var envelope := Envelope(site, packets[0], size, tag);
      SendEffect(ew, envelope, First(drops));
      AnswersLate(E.SendThrough(ew, envelope, First(drops)).0, site, packets[1..], size, tag, Others(drops));
    }
  }

  lemma TurnEnabled(j: Joint, t: Turn)
    requires Tied(j) && Ready(j, t)
    ensures Enabled(j.sessions[Next(j, t).session], ChoiceOf(j, t))
  {
    var x, n, w := j.engine.pending[0], Next(j, t), Woken(j, t);
    HeadsAgree(j, t);
    BegunNow(j.engine, t.drop);
    if E.Reacts(x.event) {
      AnswersLate(E.Begun(j.engine, t.drop), w.site, Wanted(w, n.event, t.isn, t.payload), t.size, n.session, t.drops);
    } else {
      SendEffect(E.Release(E.Popped(j.engine), x.event.packet), x.event.packet, t.drop);
    }
  }

  lemma BegunNow(ew: E.World, drop: bool)
    requires ew.pending != []
    ensures E.Begun(ew, drop).now == ew.pending[0].time
    ensures E.Reacts(ew.pending[0].event) ==> SameEvents(E.Popped(ew), E.Begun(ew, drop))
    ensures ew.pending[0].event.Arrival? ==> SameEvents(E.Popped(ew), E.Release(E.Popped(ew), ew.pending[0].event.packet))
    ensures ew.pending[0].event.Arrival? ==> E.Release(E.Popped(ew), ew.pending[0].event.packet).now == ew.pending[0].time
  {
    if !E.Reacts(ew.pending[0].event) {
      SendEffect(E.Release(E.Popped(ew), ew.pending[0].event.packet), ew.pending[0].event.packet, drop);
    }
  }

  /** A forwarded packet takes its next hop in the engine and in its session. */
  lemma ForwardTied(j: Joint, t: Turn)
    requires Tied(j) && Ready(j, t) && !E.Reacts(j.engine.pending[0].event)
    ensures Tied(Turned(j, t))
  {
    var x, n, w := j.engine.pending[0], Next(j, t), Woken(j, t);
    var i, p, c := n.session, x.event.packet, ChoiceOf(j, t);
    HeadsAgree(j, t);
    TurnEnabled(j, t);
    BegunNow(j.engine, t.drop);
    var released := E.Release(E.Popped(j.engine), p);
    TiedSame(Woke(j, t, E.Popped(j.engine)), released, i, w);
    assert j.sessions[i := w][i := w] == j.sessions[i := w];
    var j1 := Woke(j, t, released);
    HandedTied(j1, i, p, n.event.packet, c.offer, t.drop);
    var j2 := Handed(j1, i, p, n.event.packet, c.offer, t.drop);
    TiedSame(j2, E.Begun(j.engine, t.drop), i, j2.sessions[i]);
    assert Session.Step(j.sessions[i], c) == j2.sessions[i];
    assert j2.sessions[i := j2.sessions[i]] == j.sessions[i := Session.Step(j.sessions[i], c)];
  }

  lemma HonestChoice(j: Joint, t: Turn)
    requires Tied(j) && Ready(j, t) && E.Reacts(j.engine.pending[0].event)
    ensures Honest(Woke(j, t, E.Begun(j.engine, t.drop)), Next(j, t).session, DeedsOf(j, t), t.size, t.drops)
  {
    var n, w, c := Next(j, t), Woken(j, t), ChoiceOf(j, t);
    var answers := Answers(E.Begun(j.engine, t.drop), w.site, Wanted(w, n.event, t.isn, t.payload), t.size, n.session, t.drops);
    HeadsAgree(j, t);
    BodiesSendFromHome(w, n.event, c);
    DeedsWant(w, n.event, c);
    AnswersLate(E.Begun(j.engine, t.drop), w.site, Wanted(w, n.event, t.isn, t.payload), t.size, n.session, t.drops);
    assert [c.offer, c.offer2][..|answers|] == answers;
  }

  /** The session's body and the engine's actions for it leave the queues tied. */
  lemma ReactionTied(j: Joint, t: Turn)
    requires Tied(j) && Ready(j, t) && E.Reacts(j.engine.pending[0].event)
    ensures Tied(Turned(j, t))
  {
    var n, w, c := Next(j, t), Woken(j, t), ChoiceOf(j, t);
    var i := n.session;
    HeadsAgree(j, t);
    TurnEnabled(j, t);
    BegunNow(j.engine, t.drop);
    TiedSame(Woke(j, t, E.Popped(j.engine)), E.Begun(j.engine, t.drop), i, w);
    assert j.sessions[i := w][i := w] == j.sessions[i := w];
    var j1 := Woke(j, t, E.Begun(j.engine, t.drop));
    HonestChoice(j, t);
    PlayedIsRight(j1, i, DeedsOf(j, t), t.size, t.drops);
    var j2 := Played(j1, i, DeedsOf(j, t), t.size, t.drops);
    BodiesAreDeeds(w, n.event, c);
    TiedSame(j2, j2.engine, i, Execute(w, n.event, c));
    assert j2.sessions[i := Execute(w, n.event, c)] == j.sessions[i := Session.Step(j.sessions[i], c)];
  }

  /** Main step: after every event of the simulation each session's queue is still its part of the engine's. */
  lemma TurnKeepsTied(j: Joint, t: Turn)
    requires Tied(j)
    ensures Tied(Turned(j, t))
  {
    if Ready(j, t) {
      if E.Reacts(j.engine.pending[0].event) { ReactionTied(j, t); } else { ForwardTied(j, t); }
    }
  }
}
