/**
  How long packets take and how much a link carries. A packet under way, or ever delivered over a link that is still
  there, arrives one propagation delay and 8 bits a byte after it left; so a direction never carries more than its
  bandwidth.
 */
module EngineCapacity {
  import opened Common
  import opened EventQueues
  import opened Wires
  import opened Links
  import opened Forwarding
  import opened Engine
  import opened EngineSafety

  /** Bits a second; bandwidths are given in megabits. */
  function Rate(wire: Wire): real { wire.bandwidth * 1000000.0 }

  /** The packet arrives a propagation delay, given in milliseconds, and its bits after it left. */
  predicate TakesItsTime(p: Packet, wire: Wire)
  {
    (p.arrival - p.departure - wire.delay / 1000.0) * Rate(wire) == 8.0 * p.size as real
  }

  /** Everything that has run and everything that waits. */
  function Story(w: World): seq<Timed<Event>> { w.executed + w.pending }

  /** Packets of one slot leave after the one before has arrived. */
  predicate Serial(q: seq<Timed<Event>>, wire: Wire, slot: Slot)
  {
    forall i, j :: 0 <= i < j < |q| && Rides(q[i], wire, slot) && Rides(q[j], wire, slot) ==>
      q[i].event.packet.arrival <= q[j].event.packet.departure
  }

  predicate Within(x: Timed<Event>, wire: Wire, slot: Slot, busy: real)
  {
    Rides(x, wire, slot) ==> TakesItsTime(x.event.packet, wire) && x.event.packet.arrival <= busy
  }

  /** Every packet of the slot took its time, one after another, and none arrives after the slot's busy time. */
  predicate Serves(q: seq<Timed<Event>>, wire: Wire, slot: Slot, busy: real)
  {
    Serial(q, wire, slot) && forall x :: x in q ==> Within(x, wire, slot, busy)
  }

  /** A packet that names the link goes along it. */
  predicate Along(x: Timed<Event>, wire: Wire)
  {
    x.event.Arrival? && x.event.packet.linkId == wire.id ==> QueueSlot(wire, x.event.packet.previous, x.event.packet.current) != Invalid
  }

  predicate LinkServes(q: seq<Timed<Event>>, l: LinkState)
  {
    && (forall x :: x in q ==> Along(x, l.wire))
    && forall slot: Slot :: slot != Invalid ==> Serves(q, l.wire, slot, BusyFor(l, slot))
  }

  /** No packet names a link that does not exist yet. */
  predicate Named(q: seq<Timed<Event>>, nextLink: nat)
  {
    forall x :: x in q && x.event.Arrival? ==> x.event.packet.linkId < nextLink
  }

  predicate AllServe(w: World)
  {
    Named(Story(w), w.nextLink) && forall i :: 0 <= i < |w.links| ==> LinkServes(Story(w), w.links[i])
  }

  lemma StartServes(w: World)
    requires Initial(w)
    ensures AllServe(w)
  {
  }

  /** The same story, with links on the same wires that are busy at least as long. */
  predicate Busier(a: LinkState, b: LinkState)
  {
    a.wire == b.wire && forall slot: Slot :: slot != Invalid ==> BusyFor(a, slot) <= BusyFor(b, slot)
  }

  lemma BusierServes(q: seq<Timed<Event>>, a: LinkState, b: LinkState)
    requires LinkServes(q, a) && Busier(a, b)
    ensures LinkServes(q, b)
  {
    forall slot: Slot | slot != Invalid ensures Serves(q, b.wire, slot, BusyFor(b, slot)) {
      assert Serves(q, a.wire, slot, BusyFor(a, slot));
      forall x | x in q ensures Within(x, b.wire, slot, BusyFor(b, slot)) { assert Within(x, a.wire, slot, BusyFor(a, slot)); }
    }
  }

  /** The link continues one of these. */
  predicate Continues(l: LinkState, links: seq<LinkState>)
  {
    exists k :: 0 <= k < |links| && Busier(links[k], l)
  }

  lemma ContinuedServes(w: World, w': World)
    requires AllServe(w) && Story(w') == Story(w) && w'.nextLink >= w.nextLink
    requires forall i :: 0 <= i < |w'.links| ==> Continues(w'.links[i], w.links)
    ensures AllServe(w')
  {
    forall i | 0 <= i < |w'.links| ensures LinkServes(Story(w'), w'.links[i]) {
      var k :| 0 <= k < |w.links| && Busier(w.links[k], w'.links[i]);
      BusierServes(Story(w), w.links[k], w'.links[i]);
    }
  }

  // ---- an event enters the queue ----

  /** Where an event goes in the queue: everything behind it comes later. */
  lemma {:induction false} Place(q: seq<Timed<Event>>, e: Timed<Event>) returns (k: nat)
    requires Sorted(q)
    ensures k <= |q| && Scheduled(q, e) == q[..k] + [e] + q[k..]
    ensures forall x :: x in q[k..] ==> !Earlier(x, e)
  {
    if q == [] || Earlier(e, q[0]) {
      k := 0;
      AllLater(q, e);
      assert q[0..] == q;
    } else {
      var rest := Place(q[1..], e);
      k := rest + 1;
      assert q[..k] == [q[0]] + q[1..][..rest] && q[k..] == q[1..][rest..];
    }
  }

  /** An event that comes after everything of its slot continues the slot's story. */
  lemma InsertServes(done: seq<Timed<Event>>, q: seq<Timed<Event>>, e: Timed<Event>, wire: Wire, slot: Slot, busy: real, until: real)
    requires Sorted(q) && Serves(done + q, wire, slot, busy) && busy <= until
    requires Rides(e, wire, slot) ==> TakesItsTime(e.event.packet, wire) && busy <= e.event.packet.departure && e.event.packet.arrival <= until
    requires Rides(e, wire, slot) ==> forall x :: x in q && Rides(x, wire, slot) ==> Earlier(x, e)
    ensures Serves(done + Scheduled(q, e), wire, slot, until)
  {
    var k := Place(q, e);
    var n, before, after := |done| + k, done + q, done + Scheduled(q, e);
    assert forall i :: 0 <= i < |after| ==> after[i] == if i < n then before[i] else if i == n then e else before[i - 1];
    forall x | x in after ensures Within(x, wire, slot, until) {
      if x != e { assert x in before && Within(x, wire, slot, busy); }
    }
    if Rides(e, wire, slot) {
      forall j | n < j < |after| ensures !Rides(after[j], wire, slot) {
        assert after[j] == before[j - 1] == q[k..][j - 1 - n] && after[j] in q[k..];
      }
    }
    forall i, j | 0 <= i < j < |after| && i != n && Rides(after[i], wire, slot) && Rides(after[j], wire, slot)
      ensures after[i].event.packet.arrival <= after[j].event.packet.departure
    {
      if j == n {
        assert before[i] in before && Within(before[i], wire, slot, busy);
      } else {
        var a, b := if i < n then i else i - 1, if j < n then j else j - 1;
        assert after[i] == before[a] && after[j] == before[b];
      }
    }
  }

  /** An event other than an arrival is in nobody's story. */
  lemma ReactionServes(w: World, e: Timed<Event>, w': World)
    requires AllServe(w) && Sorted(w.pending) && e.event.Reaction?
    requires w'.executed == w.executed && w'.pending == Scheduled(w.pending, e) && w'.links == w.links && w'.nextLink == w.nextLink
    ensures AllServe(w')
  {
    forall i | 0 <= i < |w.links| ensures LinkServes(Story(w'), w.links[i]) {
      assert LinkServes(Story(w), w.links[i]);
      forall x | x in Story(w') ensures Along(x, w.links[i].wire) {
        if x != e { assert x in Story(w) && Along(x, w.links[i].wire); }
      }
      forall slot: Slot | slot != Invalid ensures Serves(Story(w'), w.links[i].wire, slot, BusyFor(w.links[i], slot)) {
        InsertServes(w.executed, w.pending, e, w.links[i].wire, slot, BusyFor(w.links[i], slot), BusyFor(w.links[i], slot));
      }
    }
  }

  // ---- sending ----

  lemma CancelRate(bits: real, rate: real)
    requires rate > 0.0
    ensures (bits / rate) * rate == bits
  {
  }

  /** A packet taken by a link takes its time, and leaves when the direction is free. */
  lemma JourneyTakesItsTime(l: LinkState, p: Packet, now: real)
    requires CanQueue(l, p.current, Other(l.wire, p.current))
    ensures var t := Journey(l, p, now); var slot := QueueSlot(l.wire, t.from, t.to);
      && TakesItsTime(Stamped(p, l.wire.id, t), l.wire)
      && slot != Invalid && BusyFor(l, slot) <= t.departure && now <= t.departure
  {
    SlotsAgree(l, p.current, Other(l.wire, p.current), now, now);
    CancelRate(p.size as real * 8.0, Rate(l.wire));
  }

  /** The packet as a link with room for it takes it now. */
  function Onward(w: World, p: Packet, i: nat): Packet
    requires i < |w.links| && CanQueue(w.links[i], p.current, Other(w.links[i].wire, p.current))
  {
    Stamped(p, w.links[i].wire.id, Journey(w.links[i], p, w.now))
  }

  /** From when the slot is free until the packet has taken its time, the slot is busy. */
  predicate Occupies(l: LinkState, l': LinkState, q: Packet, now: real)
  {
    var slot := QueueSlot(l.wire, q.previous, q.current);
    && slot != Invalid && TakesItsTime(q, l.wire)
    && q.departure == MaxReal(now, BusyFor(l, slot)) && BusyFor(l', slot) == q.arrival
  }

  /** A packet that is dropped occupies its link as long as one that is not. */
  lemma SendOccupies(w: World, p: Packet, i: nat, drop: bool)
    requires i < |w.links| && CanQueue(w.links[i], p.current, Other(w.links[i].wire, p.current))
    ensures var w' := SendPacket(w, p, i, drop).0;
      Occupies(w.links[i], w'.links[i], Onward(w, p, i), w.now) && SendPacket(w, p, i, drop).1 == !drop
    ensures !drop ==> Timed(Onward(w, p, i).arrival, w.nextEvent, Arrival(Onward(w, p, i))) in SendPacket(w, p, i, drop).0.pending
  {
    var l, t := w.links[i], Journey(w.links[i], p, w.now);
    JourneyTakesItsTime(l, p, w.now);
    SlotsAgree(l, t.from, t.to, w.now, t.arrival);
    CarriedBusy(l, t, w.now);
    CarriedUntil(l, t, w.now);
  }

  lemma CarriedUntil(l: LinkState, t: Transmission, now: real)
    requires CanQueue(l, t.from, t.to) && Timely(l, t, now)
    ensures var slot := QueueSlot(l.wire, t.from, t.to);
      BusyFor(Carried(l, t), slot) == MaxReal(BusyFor(l, slot), t.arrival)
  {
    SlotsAgree(l, t.from, t.to, now, t.arrival);
    var r, slot := Reserved(l, t.from, t.to, t.arrival), QueueSlot(l.wire, t.from, t.to);
    SlotsAgree(r, t.from, t.to, now, t.arrival);
    QueuesApart(r, slot, QueueFor(r, slot) + [t], slot);
  }

  lemma CarriedBusy(l: LinkState, t: Transmission, now: real)
    requires CanQueue(l, t.from, t.to) && Timely(l, t, now)
    ensures Busier(l, Carried(l, t)) && BusyFor(Carried(l, t), QueueSlot(l.wire, t.from, t.to)) >= t.arrival
  {
    SlotsAgree(l, t.from, t.to, now, t.arrival);
    var r := Reserved(l, t.from, t.to, t.arrival);
    SlotsAgree(r, t.from, t.to, now, t.arrival);
    var slot := QueueSlot(l.wire, t.from, t.to);
    forall s: Slot | s != Invalid ensures BusyFor(Carried(l, t), s) == BusyFor(r, s) {
      QueuesApart(r, slot, QueueFor(r, slot) + [t], s);
    }
  }

  lemma ReservedBusy(l: LinkState, from: int, to: int, until: real)
    ensures Busier(l, Reserved(l, from, to, until))
  {
    SlotsAgree(l, from, to, until, until);
  }

  /** The new packet joins the story of its link only. */
  lemma LaunchServesLink(w: World, p: Packet, i: nat, k: nat)
    requires Coherent(w) && AllServe(w) && i < |w.links| && k < |w.links| && p.current >= 0
    requires CanQueue(w.links[i], p.current, Other(w.links[i].wire, p.current))
    ensures var w' := Launched(w, p, i, Journey(w.links[i], p, w.now)); LinkServes(Story(w'), w'.links[k])
  {
    var l, t := w.links[i], Journey(w.links[i], p, w.now);
    var e := Timed(t.arrival, w.nextEvent, Arrival(Stamped(p, l.wire.id, t)));
    var w' := Launched(w, p, i, t);
    JourneyTakesItsTime(l, p, w.now);
    CarriedBusy(l, t, w.now);
    assert LinkServes(Story(w), w.links[k]) && w'.links[k].wire == w.links[k].wire;
    forall x | x in Story(w') ensures Along(x, w'.links[k].wire) {
      if x != e { assert x in Story(w) && Along(x, w.links[k].wire); }
    }
    forall slot: Slot | slot != Invalid ensures Serves(Story(w'), w'.links[k].wire, slot, BusyFor(w'.links[k], slot)) {
      if Rides(e, w.links[k].wire, slot) {
        assert k == i;
        forall x | x in w.pending && Rides(x, l.wire, slot) ensures Earlier(x, e) {
          CarriedIsLast(w.links, w.nextLink, w.nodes, w.pending, i, e, t, w.now, x);
        }
      }
      InsertServes(w.executed, w.pending, e, w.links[k].wire, slot, BusyFor(w.links[k], slot), BusyFor(w'.links[k], slot));
    }
  }

  lemma LaunchServes(w: World, p: Packet, i: nat)
    requires Coherent(w) && AllServe(w) && i < |w.links| && p.current >= 0
    requires CanQueue(w.links[i], p.current, Other(w.links[i].wire, p.current))
    ensures AllServe(Launched(w, p, i, Journey(w.links[i], p, w.now)))
  {
    var w' := Launched(w, p, i, Journey(w.links[i], p, w.now));
    forall x | x in Story(w') && x.event.Arrival? ensures x.event.packet.linkId < w'.nextLink {
      if x !in Story(w) { assert x.event.packet.linkId == w.links[i].wire.id; }
    }
    forall k | 0 <= k < |w'.links| ensures LinkServes(Story(w'), w'.links[k]) { LaunchServesLink(w, p, i, k); }
  }

  lemma SendServes(w: World, p: Packet, drop: bool)
    requires Coherent(w) && AllServe(w)
    ensures AllServe(SendThrough(w, p, drop).0)
  {
    var next := GetNextHop(w.tables, p.current, p.destination);
    if next != -1 && 0 <= p.current < w.nodes {
      var i := FindUp(w.links, p.current, next);
      if i != -1 && CanQueue(w.links[i], p.current, next) {
        var w1 := w.(sent := if p.hops == 0 then w.sent + 1 else w.sent);
        if drop {
          var t := Journey(w.links[i], p, w.now);
          ReservedBusy(w.links[i], t.from, t.to, t.arrival);
          assert forall k :: 0 <= k < |w.links| ==> Busier(w.links[k], w.links[i := Reserved(w.links[i], t.from, t.to, t.arrival)][k]);
          ContinuedServes(w, SendThrough(w, p, drop).0);
        } else {
          LaunchServes(w1, p, i);
        }
      } else {
        SameServes(w, SendThrough(w, p, drop).0);
      }
    }
  }

  lemma SameServes(w: World, w': World)
    requires AllServe(w) && w'.executed == w.executed && w'.pending == w.pending && w'.links == w.links && w'.nextLink == w.nextLink
    ensures AllServe(w')
  {
  }

  // ---- the other steps ----

  lemma PopServes(w: World)
    requires AllServe(w) && w.pending != []
    ensures AllServe(Popped(w)) && Story(Popped(w)) == Story(w)
  {
    assert Story(Popped(w)) == Story(w);
  }

  lemma ReleaseServes(w: World, p: Packet)
    requires AllServe(w)
    ensures AllServe(Release(w, p))
  {
    var w' := Release(w, p);
    forall i | 0 <= i < |w'.links| ensures Continues(w'.links[i], w.links) {
      var t := TravelOf(p).hop;
      var slot := QueueSlot(w.links[i].wire, t.from, t.to);
      if slot != Invalid {
        forall s: Slot | s != Invalid ensures BusyFor(Dequeued(w.links[i], t), s) == BusyFor(w.links[i], s) {
          QueuesApart(w.links[i], slot, WithoutFirst(QueueFor(w.links[i], slot), t), s);
        }
      }
      assert Busier(w.links[i], w'.links[i]);
    }
    ContinuedServes(w, w');
  }

  lemma BegunServes(w: World, drop: bool)
    requires Inv(w) && AllServe(w) && w.pending != []
    ensures Inv(Begun(w, drop)) && AllServe(Begun(w, drop))
  {
    PopServes(w);
    match w.pending[0].event {
      case Arrival(p) =>
        ReleaseKeepsCoherent(w, p);
        ArriveKeepsInv(w, p, drop);
        ReleaseServes(Popped(w), p);
        var released := Release(Popped(w), p);
        SendServes(released, p, drop);
        SameServes(if p.current != p.destination then SendThrough(released, p, drop).0 else released, Begun(w, drop));
      case Reaction(_) => PopKeepsInv(w);
    }
  }

  lemma FewerServe(w: World, w': World)
    requires AllServe(w) && Story(w') == Story(w) && w'.nextLink == w.nextLink && forall l :: l in w'.links ==> l in w.links
    ensures AllServe(w')
  {
    forall i | 0 <= i < |w'.links| ensures Continues(w'.links[i], w.links) {
      assert w'.links[i] in w'.links;
      var k :| 0 <= k < |w.links| && w.links[k] == w'.links[i];
      assert Busier(w.links[k], w'.links[i]);
    }
    ContinuedServes(w, w');
  }

  lemma NewLinkServes(w: World, wire: Wire, nodes: nat)
    requires AllServe(w) && wire.id == w.nextLink
    ensures AllServe(w.(nodes := nodes, links := w.links + [NewLink(wire)], nextLink := w.nextLink + 1))
  {
    var w' := w.(nodes := nodes, links := w.links + [NewLink(wire)], nextLink := w.nextLink + 1);
    forall i | 0 <= i < |w'.links| ensures LinkServes(Story(w'), w'.links[i]) {
      if i < |w.links| { assert w'.links[i] == w.links[i]; }
      else {
        assert forall x, slot: Slot :: x in Story(w) ==> !Rides(x, wire, slot);
      }
    }
  }

  lemma ChangeServes(w: World, change: Change)
    requires Coherent(w) && AllServe(w) && Accepts(w, change)
    ensures AllServe(Changed(w, change))
  {
    match change
    case CreateNode => SameServes(w, Changed(w, change));
    case DeleteNode(node) => FewerServe(w, Changed(w, change));
    case CreateLink(a, b, bandwidth, delay, lossProb, mode) =>
      NewLinkServes(w, Wire(w.nextLink, a, b, bandwidth, delay, mode), Changed(w, change).nodes);
    case DeleteLink(a, b) =>
      CutKeepsWired(w.links, w.nextLink, w.nodes, FindJoin(w.links, StateWire, a, b));
      FewerServe(w, Changed(w, change));
    case ToggleLink(a, b, up) =>
      assert forall k :: 0 <= k < |w.links| ==> Busier(w.links[k], Changed(w, change).links[k]);
      ContinuedServes(w, Changed(w, change));
    case SetMetric(_) => SameServes(w, Changed(w, change));
  }

  lemma ActServes(w: World, action: Action)
    requires Inv(w) && AllServe(w)
    ensures AllServe(Act(w, action))
  {
    match action
    case Send(source, destination, size, tag, drop) =>
      SendServes(w, Packet(source, destination, source, -1, 0, 0, size, 0.0, 0.0, tag), drop);
    case Build(at, tag) => SameServes(w, Act(w, action));
    case Schedule(which) => if which < |w.built| { ReactionServes(w, w.built[which], Act(w, action)); }
    case Reshape(change, rebuilt) =>
      if Accepts(w, change) {
        ChangeServes(w, change);
        SameServes(Changed(w, change), Act(w, action));
      }
  }

  lemma {:induction false} ActAllServes(w: World, actions: seq<Action>)
    requires Inv(w) && AllServe(w)
    ensures AllServe(ActAll(w, actions))
  {
    if actions != [] {
      var before := actions[..|actions| - 1];
      ActAllServes(w, before);
      ActAllKeepsInv(w, before);
      ActServes(ActAll(w, before), actions[|actions| - 1]);
    }
  }

  lemma {:induction false} RunServes(w: World, inputs: seq<Input>)
    requires Initial(w)
    ensures AllServe(Run(w, inputs))
  {
    if inputs == [] {
      StartServes(w);
    } else {
      var before := Run(w, inputs[..|inputs| - 1]);
      RunServes(w, inputs[..|inputs| - 1]);
      RunKeepsInv(w, inputs[..|inputs| - 1]);
      match inputs[|inputs| - 1]
      case Outside(action) => ActServes(before, action);
      case ProcessEvent(drop, reactions) =>
        if before.pending != [] {
          BegunServes(before, drop);
          ActAllServes(Begun(before, drop), Following(before, reactions));
        }
    }
  }

  // ---- what follows ----

  /**
    Main result: in every run, under any topology changes, every packet under way or ever arrived took over a link that
    is still there exactly its propagation delay and its bits at the link's rate.
   */
  lemma {:induction false} PacketsTakeTheirTime(w: World, inputs: seq<Input>, x: Timed<Event>, l: LinkState)
    requires Initial(w) && x in Story(Run(w, inputs)) && x.event.Arrival? && l in Run(w, inputs).links
    requires x.event.packet.linkId == l.wire.id
    ensures TakesItsTime(x.event.packet, l.wire)
  {
    RunServes(w, inputs);
    var slot := QueueSlot(l.wire, x.event.packet.previous, x.event.packet.current);
    assert LinkServes(Story(Run(w, inputs)), l) && Along(x, l.wire);
    assert Serves(Story(Run(w, inputs)), l.wire, slot, BusyFor(l, slot));
    assert Within(x, l.wire, slot, BusyFor(l, slot));
  }

  // ---- the three modes ----

  predicate OverLink(x: Timed<Event>, wire: Wire) { x.event.Arrival? && x.event.packet.linkId == wire.id }

  /** The two packets share what they go over: the whole of a half-duplex link, otherwise its direction. */
  predicate Contend(p: Packet, q: Packet, wire: Wire) { wire.mode.HalfDuplex? || p.previous == q.previous }

  /**
    Main result: in every run, under any topology changes, packets go over a link from one end to the other, over a
    simplex link only the one way; and of two in one direction, or in either over a half-duplex link, the later arrival
    has not left before the earlier.
   */
  lemma {:induction false} LinksKeepTheirMode(w: World, inputs: seq<Input>, l: LinkState, i: nat, j: nat)
    requires Initial(w) && l in Run(w, inputs).links && i < j < |Story(Run(w, inputs))|
    requires OverLink(Story(Run(w, inputs))[i], l.wire) && OverLink(Story(Run(w, inputs))[j], l.wire)
    ensures var p, q := Story(Run(w, inputs))[i].event.packet, Story(Run(w, inputs))[j].event.packet;
      && (if p.previous == l.wire.a then p.current == l.wire.b else p.previous == l.wire.b && p.current == l.wire.a)
      && (l.wire.mode.Simplex? ==> p.previous == l.wire.a)
      && (Contend(p, q, l.wire) ==> p.arrival <= q.departure)
  {
    var story := Story(Run(w, inputs));
    var slot := QueueSlot(l.wire, story[i].event.packet.previous, story[i].event.packet.current);
    RunServes(w, inputs);
    assert LinkServes(story, l) && Along(story[i], l.wire) && Along(story[j], l.wire);
    assert Serves(story, l.wire, slot, BusyFor(l, slot));
  }

  /** What the link would do with a packet now. */
  predicate SameJourney(l: LinkState, l': LinkState, p: Packet, now: real)
  {
    var next := Other(l.wire, p.current);
    && l'.wire == l.wire && (CanQueue(l', p.current, next) <==> CanQueue(l, p.current, next))
    && (CanQueue(l, p.current, next) ==> Journey(l', p, now) == Journey(l, p, now))
  }

  /**
    A transmission is nothing to the traffic against it on a full-duplex link, keeps it waiting on a half-duplex one,
    and on a simplex link there is none.
   */
  lemma OppositeTraffic(l: LinkState, t: Transmission, now: real, p: Packet, later: real)
    requires CanQueue(l, t.from, t.to) && Timely(l, t, now) && p.current == t.to
    ensures var l' := Carried(l, t);
      && (l.wire.mode.FullDuplex? ==> SameJourney(l, l', p, later))
      && (l.wire.mode.HalfDuplex? && CanQueue(l', p.current, t.from) ==> Other(l'.wire, p.current) == t.from && t.arrival <= Journey(l', p, later).departure)
      && (l.wire.mode.Simplex? ==> !CanQueue(l, p.current, t.from) && t.from == l.wire.a)
  {
    SlotsAgree(l, t.from, t.to, now, t.arrival);
    CarriedUntil(l, t, now);
    CarriedElsewhere(l, t, now);
    SlotsAgree(l, p.current, Other(l.wire, p.current), later, later);
    SlotsAgree(Carried(l, t), p.current, Other(l.wire, p.current), later, later);
  }

  lemma CarriedElsewhere(l: LinkState, t: Transmission, now: real)
    requires CanQueue(l, t.from, t.to) && Timely(l, t, now)
    ensures Carried(l, t).wire == l.wire && Carried(l, t).up == l.up
    ensures forall s: Slot :: s != Invalid && s != QueueSlot(l.wire, t.from, t.to) ==>
      QueueFor(Carried(l, t), s) == QueueFor(l, s) && BusyFor(Carried(l, t), s) == BusyFor(l, s)
  {
    SlotsAgree(l, t.from, t.to, now, t.arrival);
    var r, slot := Reserved(l, t.from, t.to, t.arrival), QueueSlot(l.wire, t.from, t.to);
    SlotsAgree(r, t.from, t.to, now, t.arrival);
    forall s: Slot | s != Invalid && s != slot
      ensures QueueFor(Carried(l, t), s) == QueueFor(l, s) && BusyFor(Carried(l, t), s) == BusyFor(l, s)
    {
      QueuesApart(r, slot, QueueFor(r, slot) + [t], s);
    }
  }

  /** Does the packet use the slot, leaving and arriving within a span? */
  predicate Counts(x: Timed<Event>, wire: Wire, slot: Slot, from: real, to: real)
  {
    Rides(x, wire, slot) && from <= x.event.packet.departure && x.event.packet.arrival <= to
  }

  /** The packets that use the slot within a span. */
  function Passing(q: seq<Timed<Event>>, wire: Wire, slot: Slot, from: real, to: real): seq<Packet>
  {
    if q == [] then []
    else
      var x := q[|q| - 1];
      Passing(q[..|q| - 1], wire, slot, from, to) + if Counts(x, wire, slot, from, to) then [x.event.packet] else []
  }

  function Bits(packets: seq<Packet>): real
  {
    if packets == [] then 0.0 else Bits(packets[..|packets| - 1]) + 8.0 * packets[|packets| - 1].size as real
  }

  function OnWire(p: Packet): real { p.arrival - p.departure }

  /** The time some packets are on the wire, one after another. */
  function Usage(packets: seq<Packet>): real
  {
    if packets == [] then 0.0 else Usage(packets[..|packets| - 1]) + OnWire(packets[|packets| - 1])
  }

  /** One after another, within a span. */
  predicate InTurn(packets: seq<Packet>, from: real, to: real)
  {
    && (forall i :: 0 <= i < |packets| ==> from <= packets[i].departure <= packets[i].arrival <= to)
    && forall i, j :: 0 <= i < j < |packets| ==> packets[i].arrival <= packets[j].departure
  }

  lemma {:induction false} PassingInTurn(q: seq<Timed<Event>>, wire: Wire, slot: Slot, from: real, to: real)
    requires Serial(q, wire, slot) && forall x :: x in q && Rides(x, wire, slot) ==> OnWire(x.event.packet) >= 0.0
    ensures InTurn(Passing(q, wire, slot, from, to), from, to)
    ensures forall p :: p in Passing(q, wire, slot, from, to) ==> exists i :: 0 <= i < |q| && Rides(q[i], wire, slot) && q[i].event.packet == p
  {
    if q != [] {
      var before, x := q[..|q| - 1], q[|q| - 1];
      assert x in q && forall y :: y in before ==> y in q;
      PassingInTurn(before, wire, slot, from, to);
      forall p | p in Passing(before, wire, slot, from, to)
        ensures exists i :: 0 <= i < |q| && Rides(q[i], wire, slot) && q[i].event.packet == p
        ensures Rides(x, wire, slot) ==> p.arrival <= x.event.packet.departure
      {
        var i :| 0 <= i < |before| && Rides(before[i], wire, slot) && before[i].event.packet == p;
        assert q[i] == before[i] && q[|q| - 1] == x;
      }
    }
  }

  /** One after another, they are on the wire no longer than the span. */
  lemma {:induction false} UsageFits(packets: seq<Packet>, from: real, to: real)
    requires InTurn(packets, from, to) && from <= to
    ensures Usage(packets) <= to - from
  {
    if packets != [] { UsageFits(packets[..|packets| - 1], from, packets[|packets| - 1].departure); }
  }

  /** A packet's bits fit the time it is on the wire. */
  predicate Fits(p: Packet, rate: real)
  {
    8.0 * p.size as real <= rate * OnWire(p)
  }

  lemma OwnBits(own: real, d: real, rate: real, bits: real)
    requires rate > 0.0 && d >= 0.0 && bits >= 0.0 && (own - d) * rate == bits
    ensures own >= 0.0 && bits <= rate * own
  {
    if own - d < 0.0 { assert (d - own) * rate > 0.0; }
    assert rate * own == (own - d) * rate + rate * d;
  }

  lemma TimelyFits(p: Packet, wire: Wire, rate: real)
    requires TakesItsTime(p, wire) && rate == Rate(wire)
    ensures Fits(p, rate) && OnWire(p) >= 0.0
  {
    OwnBits(OnWire(p), wire.delay / 1000.0, rate, 8.0 * p.size as real);
  }

  lemma BitsAdd(rate: real, a: real, b: real, x: real, y: real)
    requires x <= rate * a && y <= rate * b
    ensures x + y <= rate * (a + b)
  {
  }

  lemma {:induction false} BitsTakeTime(packets: seq<Packet>, rate: real)
    requires forall p :: p in packets ==> Fits(p, rate)
    ensures Bits(packets) <= rate * Usage(packets)
  {
    if packets != [] {
      var before, p := packets[..|packets| - 1], packets[|packets| - 1];
      assert p in packets && Fits(p, rate);
      BitsTakeTime(before, rate);
      BitsAdd(rate, Usage(before), OnWire(p), Bits(before), 8.0 * p.size as real);
    }
  }

  lemma LongerCarriesMore(rate: real, a: real, b: real, bits: real)
    requires rate > 0.0 && a <= b && bits <= rate * a
    ensures bits <= rate * b
  {
  }

  lemma BitsFit(packets: seq<Packet>, rate: real, from: real, span: real)
    requires InTurn(packets, from, from + span) && span >= 0.0 && rate > 0.0 && forall p :: p in packets ==> Fits(p, rate)
    ensures Bits(packets) <= rate * span
  {
    UsageFits(packets, from, from + span);
    BitsTakeTime(packets, rate);
    LongerCarriesMore(rate, Usage(packets), span, Bits(packets));
  }

  /** The packets of a slot within a span come one after another and fit the wire. */
  lemma StoryFits(q: seq<Timed<Event>>, wire: Wire, slot: Slot, busy: real, rate: real, from: real, span: real)
    requires Serves(q, wire, slot, busy) && rate == Rate(wire) && span >= 0.0
    ensures Bits(Passing(q, wire, slot, from, from + span)) <= rate * span
  {
    var packets := Passing(q, wire, slot, from, from + span);
    forall x | x in q && Rides(x, wire, slot) ensures Fits(x.event.packet, rate) && OnWire(x.event.packet) >= 0.0 {
      assert Within(x, wire, slot, busy);
      TimelyFits(x.event.packet, wire, rate);
    }
    PassingInTurn(q, wire, slot, from, from + span);
    assert forall p :: p in packets ==> Fits(p, rate);
    BitsFit(packets, rate, from, span);
  }

  /**
    Main result: in every run, in any span of time, all packets that leave and arrive over one slot of a link have no
    more bits together than the link's bandwidth, in bits a second, times the span.
   */
  lemma {:induction false} LinksKeepTheirRate(w: World, inputs: seq<Input>, l: LinkState, slot: Slot, rate: real, from: real, span: real)
    requires Initial(w) && l in Run(w, inputs).links && slot != Invalid && span >= 0.0
    requires rate == l.wire.bandwidth * 1000000.0
    ensures Bits(Passing(Story(Run(w, inputs)), l.wire, slot, from, from + span)) <= rate * span
  {
    RunServes(w, inputs);
    var w' := Run(w, inputs);
    assert LinkServes(Story(w'), l);
    StoryFits(Story(w'), l.wire, slot, BusyFor(l, slot), rate, from, span);
  }
}
