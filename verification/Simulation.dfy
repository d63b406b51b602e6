/**
  The engine and the sessions in it as one system. Each event of the engine belongs to a session; a packet goes over
  the engine's links, and what becomes of it there is what the session's network does with it. Every session in a
  simulation makes a run of Session, and the simulation makes a run of Engine, so what is proved of either holds here.
 */
module Simulations {
  import opened Common
  import opened EventQueues
  import opened Wires
  import opened Links
  import opened Forwarding
  import opened Session
  import opened SessionDeeds
  import E = Engine
  import EngineSafety
  import TS = TcpState

  // ---- whose event is it ----

  /** What an event of the engine is to a session: whose it is, and its identifier and meaning there. */
  datatype Note = Note(session: nat, id: nat, event: Event)

  function Noted(x: Timed<E.Event>, n: Note): Timed<Event> { Timed(x.time, n.id, n.event) }

  /** The part of the engine's queue that belongs to a session, as the session sees it. */
  function Project(q: seq<Timed<E.Event>>, ledger: map<nat, Note>, i: nat): seq<Timed<Event>>
  {
    if q == [] then []
    else
      var rest := Project(q[1..], ledger, i);
      if q[0].id in ledger && ledger[q[0].id].session == i then [Noted(q[0], ledger[q[0].id])] + rest else rest
  }

  lemma ProjectNext(x: Timed<E.Event>, rest: seq<Timed<E.Event>>, ledger: map<nat, Note>, i: nat)
    requires x.id in ledger
    ensures Project([x] + rest, ledger, i)
         == (if ledger[x.id].session == i then [Noted(x, ledger[x.id])] else []) + Project(rest, ledger, i)
  {
    assert ([x] + rest)[1..] == rest;
  }

  /** A ledger that says the same of every waiting event projects the same. */
  lemma {:induction false} ProjectSame(q: seq<Timed<E.Event>>, ledger: map<nat, Note>, ledger': map<nat, Note>, i: nat)
    requires forall x :: x in q ==> x.id in ledger && x.id in ledger' && ledger'[x.id] == ledger[x.id]
    ensures Project(q, ledger', i) == Project(q, ledger, i)
  {
    if q != [] {
      assert q[0] in q && forall x :: x in q[1..] ==> x in q;
      ProjectSame(q[1..], ledger, ledger', i);
    }
  }

  /** A new event comes last of its time, in the engine as in its session. */
  predicate Newest(q: seq<Timed<E.Event>>, ledger: map<nat, Note>, e: Timed<E.Event>)
  {
    && e.id in ledger
    && forall x :: x in q ==>
         && x.id in ledger && x.id < e.id
         && (ledger[x.id].session == ledger[e.id].session ==> ledger[x.id].id < ledger[e.id].id)
  }

  /** Nothing that belongs to the session waits for a time before that of the first event. */
  lemma {:induction false} ProjectLater(q: seq<Timed<E.Event>>, ledger: map<nat, Note>, i: nat, t: real)
    requires forall x :: x in q ==> x.time >= t
    ensures forall y :: y in Project(q, ledger, i) ==> y.time >= t
  {
    if q != [] {
      assert q[0] in q && forall x :: x in q[1..] ==> x in q;
      ProjectLater(q[1..], ledger, i, t);
    }
  }

  lemma SortedFrom(q: seq<Timed<E.Event>>)
    requires Sorted(q) && q != []
    ensures Sorted(q[1..]) && forall x :: x in q ==> x.time >= q[0].time
  {
    forall x | x in q ensures x.time >= q[0].time {
      var k :| 0 <= k < |q| && q[k] == x;
      assert k > 0 ==> Earlier(q[0], q[k]);
    }
  }

  lemma FirstPlace(q: seq<Timed<Event>>, e: Timed<Event>)
    requires q != [] ==> Earlier(e, q[0])
    ensures EventQueues.Scheduled(q, e) == [e] + q
  {
  }

  lemma {:induction false} ProjectScheduled(q: seq<Timed<E.Event>>, e: Timed<E.Event>, ledger: map<nat, Note>, i: nat)
    requires Sorted(q) && Newest(q, ledger, e)
    ensures Project(EventQueues.Scheduled(q, e), ledger, i)
         == if ledger[e.id].session == i then EventQueues.Scheduled(Project(q, ledger, i), Noted(e, ledger[e.id])) else Project(q, ledger, i)
  {
    if q == [] || Earlier(e, q[0]) {
      ProjectNext(e, q, ledger, i);
      if q != [] {
        assert q[0] in q;
        SortedFrom(q);
        ProjectLater(q, ledger, i, q[0].time);
      }
      var mine := Project(q, ledger, i);
      if mine != [] { assert mine[0] in mine; }
      FirstPlace(mine, Noted(e, ledger[e.id]));
    } else {
      var rest := q[1..];
      assert q == [q[0]] + rest && q[0] in q && forall x :: x in rest ==> x in q;
      SortedFrom(q);
      ProjectScheduled(rest, e, ledger, i);
      ProjectNext(q[0], rest, ledger, i);
      ProjectNext(q[0], EventQueues.Scheduled(rest, e), ledger, i);
      BehindHead(q[0], rest, e, ledger, i);
    }
  }

  /** The new event goes behind an event of the same session that it goes behind in the engine. */
  lemma BehindHead(x: Timed<E.Event>, rest: seq<Timed<E.Event>>, e: Timed<E.Event>, ledger: map<nat, Note>, i: nat)
    requires x.id in ledger && e.id in ledger && !Earlier(e, x) && x.id < e.id
    requires ledger[x.id].session == ledger[e.id].session ==> ledger[x.id].id < ledger[e.id].id
    ensures var mine, n := Project(rest, ledger, i), Noted(e, ledger[e.id]);
      ledger[x.id].session == ledger[e.id].session == i ==>
        EventQueues.Scheduled([Noted(x, ledger[x.id])] + mine, n) == [Noted(x, ledger[x.id])] + EventQueues.Scheduled(mine, n)
  {
    var y, mine := Noted(x, ledger[x.id]), Project(rest, ledger, i);
    assert ([y] + mine)[1..] == mine;
  }

  // ---- the joint state ----

  /** The engine, its sessions, and what its events mean to them. */
  datatype Joint = Joint(engine: E.World, sessions: seq<World>, ledger: map<nat, Note>)

  /** A packet is at the same node, on its way between the same nodes, in both views. */
  predicate Alike(site: Site, x: E.Event, y: Event)
  {
    && (x.Arrival? <==> y.Arrival?)
    && (x.Arrival? ==>
          && x.packet.current == y.packet.at
          && x.packet.source == Home(site, !y.packet.toServer) && x.packet.destination == Home(site, y.packet.toServer))
  }

  predicate Known(j: Joint, x: Timed<E.Event>)
  {
    && x.id < j.engine.nextEvent && x.id in j.ledger
    && var n := j.ledger[x.id];
       && n.session < |j.sessions| && n.id < j.sessions[n.session].nextId
       && Alike(j.sessions[n.session].site, x.event, n.event)
  }

  predicate Linked(j: Joint, i: nat)
    requires i < |j.sessions|
  {
    && j.sessions[i].pending == Project(j.engine.pending, j.ledger, i)
    && j.sessions[i].site.tables == j.engine.tables
  }

  /** Events of one session get their identifiers there in the order they get the engine's. */
  predicate InStep(ledger: map<nat, Note>, x: Timed<E.Event>, y: Timed<E.Event>)
  {
    x.id in ledger && y.id in ledger && ledger[x.id].session == ledger[y.id].session && x.id < y.id ==>
      ledger[x.id].id < ledger[y.id].id
  }

  /** Every session's queue is its part of the engine's, and everybody uses the same tables. */
  ghost predicate Tied(j: Joint)
  {
    && j.engine.built == [] && Sorted(j.engine.pending)
    && (forall x :: x in j.engine.pending ==> Known(j, x))
    && (forall x, y :: x in j.engine.pending && y in j.engine.pending ==> InStep(j.ledger, x, y))
    && forall i :: 0 <= i < |j.sessions| ==> Linked(j, i)
  }

  /** One session and the engine change, and the ledger may say more. */
  function With(j: Joint, engine: E.World, i: nat, w: World, ledger: map<nat, Note>): Joint
    requires i < |j.sessions|
  {
    Joint(engine, j.sessions[i := w], ledger)
  }

  /** The same queue and tables, as far as events go. */
  ghost predicate SameEvents(ew: E.World, ew': E.World)
  {
    ew'.pending == ew.pending && ew'.nextEvent == ew.nextEvent && ew'.built == ew.built && ew'.tables == ew.tables
  }

  lemma TiedSame(j: Joint, ew: E.World, i: nat, w: World)
    requires Tied(j) && i < |j.sessions| && SameEvents(j.engine, ew)
    requires w.pending == j.sessions[i].pending && w.nextId == j.sessions[i].nextId && w.site == j.sessions[i].site
    ensures Tied(With(j, ew, i, w, j.ledger))
  {
    var j' := With(j, ew, i, w, j.ledger);
    forall x | x in ew.pending ensures Known(j', x) { assert Known(j, x); }
    forall k | 0 <= k < |j'.sessions| ensures Linked(j', k) { assert Linked(j, k); }
  }

  /** An event enters both queues. */
  ghost predicate Enters(j: Joint, ew: E.World, i: nat, w: World, x: Timed<E.Event>, n: Note)
    requires i < |j.sessions|
  {
    && x.id == j.engine.nextEvent && n.session == i && n.id == j.sessions[i].nextId && Alike(w.site, x.event, n.event)
    && ew.pending == EventQueues.Scheduled(j.engine.pending, x) && ew.nextEvent == j.engine.nextEvent + 1
    && ew.built == j.engine.built && ew.tables == j.engine.tables
    && w.pending == EventQueues.Scheduled(j.sessions[i].pending, Noted(x, n)) && w.nextId == j.sessions[i].nextId + 1
    && w.site == j.sessions[i].site
  }

  lemma EntersNewest(j: Joint, ew: E.World, i: nat, w: World, x: Timed<E.Event>, n: Note)
    requires Tied(j) && i < |j.sessions| && Enters(j, ew, i, w, x, n)
    ensures Newest(j.engine.pending, j.ledger[x.id := n], x)
    ensures forall k :: Project(j.engine.pending, j.ledger[x.id := n], k) == Project(j.engine.pending, j.ledger, k)
  {
    var ledger := j.ledger[x.id := n];
    forall y | y in j.engine.pending
      ensures y.id in j.ledger && y.id in ledger && ledger[y.id] == j.ledger[y.id] && y.id < x.id
      ensures ledger[y.id].session == i ==> ledger[y.id].id < n.id
    {
      assert Known(j, y);
    }
    forall k ensures Project(j.engine.pending, ledger, k) == Project(j.engine.pending, j.ledger, k) {
      ProjectSame(j.engine.pending, j.ledger, ledger, k);
    }
  }

  lemma TiedEnters(j: Joint, ew: E.World, i: nat, w: World, x: Timed<E.Event>, n: Note)
    requires Tied(j) && i < |j.sessions| && Enters(j, ew, i, w, x, n)
    ensures Tied(With(j, ew, i, w, j.ledger[x.id := n]))
  {
    var ledger := j.ledger[x.id := n];
    var j' := With(j, ew, i, w, ledger);
    EntersNewest(j, ew, i, w, x, n);
    ScheduledSorted(j.engine.pending, x);
    forall y | y in ew.pending ensures Known(j', y) {
      if y != x { assert Known(j, y); }
    }
    forall a, b | a in ew.pending && b in ew.pending ensures InStep(ledger, a, b) {
      if a != x && b != x { assert InStep(j.ledger, a, b) && Known(j, a) && Known(j, b); }
      else if a != x { assert Known(j, a); }
    }
    forall k | 0 <= k < |j'.sessions| ensures Linked(j', k) {
      assert Linked(j, k);
      ProjectScheduled(j.engine.pending, x, ledger, k);
    }
  }

  // ---- one deed ----

  /** A fresh packet as the engine is given it. */
  function Envelope(site: Site, p: Packet, size: nat, tag: nat): E.Packet
  {
    E.Packet(p.at, Home(site, p.toServer), p.at, -1, 0, 0, size, 0.0, 0.0, tag)
  }

  /** The link a packet would take next. */
  function LinkFor(ew: E.World, p: E.Packet): int
  {
    E.FindUp(ew.links, p.current, GetNextHop(ew.tables, p.current, p.destination))
  }

  /** What the engine's links do with a packet. */
  function Answer(ew: E.World, p: E.Packet, drop: bool): Offer
  {
    if E.SendThrough(ew, p, drop).1 then Offer(true, E.Journey(ew.links[LinkFor(ew, p)], p, ew.now).arrival)
    else Offer(false, ew.now)
  }

  /** The packet as it will arrive. */
  function OnLink(ew: E.World, p: E.Packet, drop: bool): E.Packet
    requires E.SendThrough(ew, p, drop).1
  {
    var l := ew.links[LinkFor(ew, p)];
    E.Stamped(p, l.wire.id, E.Journey(l, p, ew.now))
  }

  /** Its arrival is scheduled, at the next hop. */
  predicate OnItsWay(ew: E.World, p: E.Packet, drop: bool, pending: seq<Timed<E.Event>>)
    requires E.SendThrough(ew, p, drop).1
  {
    var q := OnLink(ew, p, drop);
    && pending == EventQueues.Scheduled(ew.pending, Timed(Answer(ew, p, drop).arrival, ew.nextEvent, E.Arrival(q)))
    && q.current == GetNextHop(ew.tables, p.current, p.destination) != -1
    && q.source == p.source && q.destination == p.destination
  }

  lemma SendEffect(ew: E.World, p: E.Packet, drop: bool)
    ensures var (ew', ok) := E.SendThrough(ew, p, drop); var o := Answer(ew, p, drop);
      && ew'.now == ew.now && ew'.tables == ew.tables && ew'.built == ew.built && o.accepted == ok && o.arrival >= ew.now
      && (!ok ==> SameEvents(ew, ew'))
      && (ok ==> ew'.nextEvent == ew.nextEvent + 1 && OnItsWay(ew, p, drop, ew'.pending))
  {
  }

  function NoteOf(w: World, i: nat, e: Event): Note { Note(i, w.nextId, e) }

  /** A packet of a session handed to the engine. */
  function Handed(j: Joint, i: nat, envelope: E.Packet, p: Packet, o: Offer, drop: bool): Joint
    requires i < |j.sessions|
  {
    var w := j.sessions[i];
    With(j, E.SendThrough(j.engine, envelope, drop).0, i, Sent(w, p, o),
         if Taken(w, p, o) then j.ledger[j.engine.nextEvent := NoteOf(w, i, Arrival(p.(at := NextNode(w.site, p))))] else j.ledger)
  }

  lemma HandedTied(j: Joint, i: nat, envelope: E.Packet, p: Packet, o: Offer, drop: bool)
    requires Tied(j) && i < |j.sessions| && o == Answer(j.engine, envelope, drop)
    requires envelope.current == p.at
    requires envelope.source == Home(j.sessions[i].site, !p.toServer) && envelope.destination == Home(j.sessions[i].site, p.toServer)
    ensures Tied(Handed(j, i, envelope, p, o, drop))
    ensures Taken(j.sessions[i], p, o) == E.SendThrough(j.engine, envelope, drop).1
  {
    var w := j.sessions[i];
    assert Linked(j, i);
    SendEffect(j.engine, envelope, drop);
    var (ew, ok) := E.SendThrough(j.engine, envelope, drop);
    if ok {
      var x := Timed(o.arrival, j.engine.nextEvent, E.Arrival(OnLink(j.engine, envelope, drop)));
      var n := NoteOf(w, i, Arrival(p.(at := NextNode(w.site, p))));
      TiedEnters(j, ew, i, Sent(w, p, o), x, n);
    } else {
      TiedSame(j, ew, i, Sent(w, p, o));
    }
  }

  /** A timer of a session set in the engine: built, and scheduled at once. */
  function Clocked(ew: E.World, at: real, tag: nat): E.World { E.ActAll(ew, Setting(at, tag)) }

  function Setting(at: real, tag: nat): seq<E.Action> { [E.Build(at, tag), E.Schedule(0)] }

  lemma ActsOne(ew: E.World, a: E.Action)
    ensures E.ActAll(ew, [a]) == E.Act(ew, a)
  {
    assert [a][..0] == [];
  }

  lemma ActsTwo(ew: E.World, a: E.Action, b: E.Action)
    ensures E.ActAll(ew, [a, b]) == E.Act(E.Act(ew, a), b)
  {
    assert [a, b][..1] == [a];
    ActsOne(ew, a);
  }

  lemma ClockedEffect(ew: E.World, at: real, tag: nat)
    requires ew.built == []
    ensures var ew' := Clocked(ew, at, tag);
      && ew'.pending == EventQueues.Scheduled(ew.pending, Timed(at, ew.nextEvent, E.Reaction(tag)))
      && ew'.nextEvent == ew.nextEvent + 1 && ew'.built == [] && ew'.tables == ew.tables && ew'.now == ew.now
      && ew'.links == ew.links && ew'.nodes == ew.nodes
  {
    ActsTwo(ew, E.Build(at, tag), E.Schedule(0));
    assert E.Act(ew, E.Build(at, tag)).built == [Timed(at, ew.nextEvent, E.Reaction(tag))];
  }

  function SetTimer(j: Joint, i: nat, e: Event, delay: real, tag: nat): Joint
    requires i < |j.sessions|
  {
    var w := j.sessions[i];
    With(j, Clocked(j.engine, j.engine.now + delay, tag), i, Session.Scheduled(w, e, delay),
         j.ledger[j.engine.nextEvent := NoteOf(w, i, e)])
  }

  lemma TimerTied(j: Joint, i: nat, e: Event, delay: real, tag: nat)
    requires Tied(j) && i < |j.sessions| && !e.Arrival? && j.sessions[i].now == j.engine.now
    ensures Tied(SetTimer(j, i, e, delay, tag))
  {
    var w, at := j.sessions[i], j.engine.now + delay;
    ClockedEffect(j.engine, at, tag);
    TiedEnters(j, Clocked(j.engine, at, tag), i, Session.Scheduled(w, e, delay),
               Timed(at, j.engine.nextEvent, E.Reaction(tag)), NoteOf(w, i, e));
  }

  // ---- all the deeds of a body ----

  function First(drops: seq<bool>): bool { drops != [] && drops[0] }

  function Others(drops: seq<bool>): seq<bool> { if drops == [] then [] else drops[1..] }

  /** What the engine is asked to do, in its own terms. */
  function Orders(now: real, site: Site, deeds: seq<Deed>, size: nat, tag: nat, drops: seq<bool>): seq<E.Action>
  {
    if deeds == [] then []
    else if deeds[0].Sends? then
      [E.Send(deeds[0].packet.at, Home(site, deeds[0].packet.toServer), size, tag, First(drops))]
      + Orders(now, site, deeds[1..], size, tag, Others(drops))
    else
      Setting(now + deeds[0].delay, tag) + Orders(now, site, deeds[1..], size, tag, drops)
  }

  /** What the links do with some packets, one after another. */
  function Answers(ew: E.World, site: Site, packets: seq<Packet>, size: nat, tag: nat, drops: seq<bool>): seq<Offer>
    decreases |packets|
  {
    if packets == [] then []
    else
      var envelope := Envelope(site, packets[0], size, tag);
      [Answer(ew, envelope, First(drops))]
      + Answers(E.SendThrough(ew, envelope, First(drops)).0, site, packets[1..], size, tag, Others(drops))
  }

  /** The deeds done by the engine and in the session, side by side. */
  function Played(j: Joint, i: nat, deeds: seq<Deed>, size: nat, drops: seq<bool>): (r: Joint)
    requires i < |j.sessions|
    ensures |r.sessions| == |j.sessions|
    decreases |deeds|
  {
    if deeds == [] then j
    else if deeds[0].Sends? then
      var envelope := Envelope(j.sessions[i].site, deeds[0].packet, size, i);
      Played(Handed(j, i, envelope, deeds[0].packet, deeds[0].offer, First(drops)), i, deeds[1..], size, Others(drops))
    else
      Played(SetTimer(j, i, deeds[0].event, deeds[0].delay, i), i, deeds[1..], size, drops)
  }

  /** What routes and carries packets. */
  ghost predicate SameRoads(ew: E.World, ew': E.World)
  {
    ew'.links == ew.links && ew'.tables == ew.tables && ew'.nodes == ew.nodes && ew'.now == ew.now
  }

  lemma SendsAlike(ew: E.World, ew': E.World, p: E.Packet, drop: bool)
    requires SameRoads(ew, ew')
    ensures Answer(ew', p, drop) == Answer(ew, p, drop)
    ensures SameRoads(E.SendThrough(ew, p, drop).0, E.SendThrough(ew', p, drop).0)
  {
  }

  lemma {:induction false} AnswersAlike(ew: E.World, ew': E.World, site: Site, packets: seq<Packet>, size: nat, tag: nat, drops: seq<bool>)
    requires SameRoads(ew, ew')
    ensures Answers(ew', site, packets, size, tag, drops) == Answers(ew, site, packets, size, tag, drops)
    decreases |packets|
  {
    if packets != [] {
      var envelope := Envelope(site, packets[0], size, tag);
      SendsAlike(ew, ew', envelope, First(drops));
      AnswersAlike(E.SendThrough(ew, envelope, First(drops)).0, E.SendThrough(ew', envelope, First(drops)).0, site, packets[1..],
                   size, tag, Others(drops));
    }
  }

  lemma {:induction false} ActAllThen(ew: E.World, a: seq<E.Action>, b: seq<E.Action>)
    ensures E.ActAll(ew, a + b) == E.ActAll(E.ActAll(ew, a), b)
  {
    if b == [] {
      assert a + b == a;
    } else {
      assert (a + b)[..|a + b| - 1] == a + b[..|b| - 1];
      ActAllThen(ew, a, b[..|b| - 1]);
    }
  }

  /** Offers to the packets of some deeds are the engine's own answers. */
  ghost predicate Honest(j: Joint, i: nat, deeds: seq<Deed>, size: nat, drops: seq<bool>)
    requires i < |j.sessions|
  {
    && FromHome(j.sessions[i].site, deeds)
    && Offers(deeds) == Answers(j.engine, j.sessions[i].site, Packets(deeds), size, i, drops)
  }

  /** What playing deeds comes to. */
  ghost predicate PlayedRight(j: Joint, i: nat, deeds: seq<Deed>, size: nat, drops: seq<bool>)
    requires i < |j.sessions|
  {
    var w, r := j.sessions[i], Played(j, i, deeds, size, drops);
    && Tied(r) && r.sessions == j.sessions[i := Done(w, deeds)]
    && r.engine == E.ActAll(j.engine, Orders(j.engine.now, w.site, deeds, size, i, drops))
  }

  lemma HonestSends(j: Joint, i: nat, deeds: seq<Deed>, size: nat, drops: seq<bool>)
    requires i < |j.sessions| && Tied(j) && Honest(j, i, deeds, size, drops) && deeds != [] && deeds[0].Sends?
    ensures var envelope := Envelope(j.sessions[i].site, deeds[0].packet, size, i);
      var j' := Handed(j, i, envelope, deeds[0].packet, deeds[0].offer, First(drops));
      && deeds[0].offer == Answer(j.engine, envelope, First(drops)) && Honest(j', i, deeds[1..], size, Others(drops))
      && j'.engine == E.Act(j.engine, E.Send(deeds[0].packet.at, Home(j.sessions[i].site, deeds[0].packet.toServer), size, i, First(drops)))
      && j'.engine.now == j.engine.now
  {
    var envelope := Envelope(j.sessions[i].site, deeds[0].packet, size, i);
    SendEffect(j.engine, envelope, First(drops));
    assert forall d :: d in deeds[1..] ==> d in deeds;
    var rest := Answers(E.SendThrough(j.engine, envelope, First(drops)).0, j.sessions[i].site, Packets(deeds[1..]), size, i, Others(drops));
    assert Packets(deeds)[1..] == Packets(deeds[1..]);
    assert [deeds[0].offer] + Offers(deeds[1..]) == [Answer(j.engine, envelope, First(drops))] + rest;
    assert ([deeds[0].offer] + Offers(deeds[1..]))[1..] == Offers(deeds[1..]);
  }

  /** A timer uses up nothing of the network. */
  lemma HonestAfter(j: Joint, j': Joint, i: nat, deeds: seq<Deed>, size: nat, drops: seq<bool>)
    requires i < |j.sessions| == |j'.sessions| && Honest(j, i, deeds, size, drops) && deeds != [] && deeds[0].Times?
    requires SameRoads(j.engine, j'.engine) && j'.sessions[i].site == j.sessions[i].site
    ensures !deeds[0].event.Arrival? && Honest(j', i, deeds[1..], size, drops)
  {
    assert deeds[0] in deeds && forall d :: d in deeds[1..] ==> d in deeds;
    AnswersAlike(j.engine, j'.engine, j.sessions[i].site, Packets(deeds), size, i, drops);
    assert [] + Packets(deeds[1..]) == Packets(deeds[1..]) && [] + Offers(deeds[1..]) == Offers(deeds[1..]);
  }

  lemma {:induction false} PlayedIsRight(j: Joint, i: nat, deeds: seq<Deed>, size: nat, drops: seq<bool>)
    requires i < |j.sessions| && Tied(j) && j.sessions[i].now == j.engine.now && Honest(j, i, deeds, size, drops)
    ensures PlayedRight(j, i, deeds, size, drops)
    decreases |deeds|
  {
    if deeds != [] {
      if deeds[0].Sends? { PlaysSends(j, i, deeds, size, drops); } else { PlaysTimes(j, i, deeds, size, drops); }
    }
  }

  /** The first deed done, and then the others. */
  lemma Continues(j: Joint, j': Joint, i: nat, deeds: seq<Deed>, order: seq<E.Action>, size: nat, drops: seq<bool>, drops': seq<bool>)
    requires i < |j.sessions| && deeds != [] && j'.sessions == j.sessions[i := DoneBy(j.sessions[i], deeds[0])]
    requires j'.engine == E.ActAll(j.engine, order) && j'.engine.now == j.engine.now
    requires DoneBy(j.sessions[i], deeds[0]).site == j.sessions[i].site
    requires PlayedRight(j', i, deeds[1..], size, drops') && Played(j, i, deeds, size, drops) == Played(j', i, deeds[1..], size, drops')
    requires Orders(j.engine.now, j.sessions[i].site, deeds, size, i, drops)
          == order + Orders(j.engine.now, j.sessions[i].site, deeds[1..], size, i, drops')
    ensures PlayedRight(j, i, deeds, size, drops)
  {
    ActAllThen(j.engine, order, Orders(j.engine.now, j.sessions[i].site, deeds[1..], size, i, drops'));
  }

  lemma DeedStays(w: World, d: Deed)
    ensures DoneBy(w, d).site == w.site && DoneBy(w, d).now == w.now
  {
  }

  lemma {:induction false} PlaysSends(j: Joint, i: nat, deeds: seq<Deed>, size: nat, drops: seq<bool>)
    requires i < |j.sessions| && Tied(j) && j.sessions[i].now == j.engine.now && Honest(j, i, deeds, size, drops)
    requires deeds != [] && deeds[0].Sends?
    ensures PlayedRight(j, i, deeds, size, drops)
    decreases |deeds|, 0
  {
    var w, p, o := j.sessions[i], deeds[0].packet, deeds[0].offer;
    var envelope, order := Envelope(w.site, p, size, i), E.Send(p.at, Home(w.site, p.toServer), size, i, First(drops));
    HonestSends(j, i, deeds, size, drops);
    HandedTied(j, i, envelope, p, o, First(drops));
    DeedStays(w, deeds[0]);
    var j' := Handed(j, i, envelope, p, o, First(drops));
    PlayedIsRight(j', i, deeds[1..], size, Others(drops));
    ActsOne(j.engine, order);
    Continues(j, j', i, deeds, [order], size, drops, Others(drops));
  }

  /** What is needed of a timer before the other deeds. */
  lemma TimerSet(j: Joint, i: nat, deeds: seq<Deed>, size: nat, drops: seq<bool>) returns (j': Joint, order: seq<E.Action>)
    requires i < |j.sessions| && Tied(j) && j.sessions[i].now == j.engine.now && Honest(j, i, deeds, size, drops)
    requires deeds != [] && deeds[0].Times?
    ensures j'.sessions == j.sessions[i := DoneBy(j.sessions[i], deeds[0])]
    ensures Tied(j') && Honest(j', i, deeds[1..], size, drops)
    ensures j'.engine == E.ActAll(j.engine, order) && j'.engine.now == j.engine.now
    ensures Played(j, i, deeds, size, drops) == Played(j', i, deeds[1..], size, drops)
    ensures Orders(j.engine.now, j.sessions[i].site, deeds, size, i, drops)
         == order + Orders(j.engine.now, j.sessions[i].site, deeds[1..], size, i, drops)
  {
    var at := j.engine.now + deeds[0].delay;
    j', order := SetTimer(j, i, deeds[0].event, deeds[0].delay, i), Setting(at, i);
    ClockedEffect(j.engine, at, i);
    HonestAfter(j, j', i, deeds, size, drops);
    TimerTied(j, i, deeds[0].event, deeds[0].delay, i);
  }

  lemma {:induction false} PlaysTimes(j: Joint, i: nat, deeds: seq<Deed>, size: nat, drops: seq<bool>)
    requires i < |j.sessions| && Tied(j) && j.sessions[i].now == j.engine.now && Honest(j, i, deeds, size, drops)
    requires deeds != [] && deeds[0].Times?
    ensures PlayedRight(j, i, deeds, size, drops)
    decreases |deeds|, 0
  {
    var j', order := TimerSet(j, i, deeds, size, drops);
    DeedStays(j.sessions[i], deeds[0]);
    PlayedIsRight(j', i, deeds[1..], size, drops);
    Continues(j, j', i, deeds, order, size, drops, drops);
  }
}
