/**
  What every reachable engine state satisfies: the transit index, the pending arrivals and the link queues
  describe the same packets; links carry one transmission at a time in order; events keep distinct identifiers;
  packets are accounted for.
 */
module EngineSafety {
  import opened Common
  import opened EventQueues
  import opened Wires
  import opened Links
  import opened Engine
  import opened Forwarding

  // ---- the two views of a packet on the wire ----

  /** Is the pending event the arrival of a transmission in this slot of this wire? */
  predicate Rides(e: Timed<Event>, wire: Wire, slot: Slot)
  {
    e.event.Arrival? && e.event.packet.linkId == wire.id
    && QueueSlot(wire, e.event.packet.previous, e.event.packet.current) == slot
  }

  /** The pending arrivals of one slot, in the order they will happen. */
  function Lane(pending: seq<Timed<Event>>, wire: Wire, slot: Slot): seq<Transmission>
  {
    if pending == [] then []
    else
      var rest := Lane(pending[1..], wire, slot);
      if Rides(pending[0], wire, slot) then [TravelOf(pending[0].event.packet).hop] + rest else rest
  }

  /** The keys of all pending arrivals. */
  function Flying(pending: seq<Timed<Event>>): multiset<Travel>
  {
    if pending == [] then multiset{}
    else
      var rest := Flying(pending[1..]);
      if pending[0].event.Arrival? then multiset{TravelOf(pending[0].event.packet)} + rest else rest
  }

  lemma {:induction false} ScheduledFlying(pending: seq<Timed<Event>>, e: Timed<Event>)
    ensures Flying(Scheduled(pending, e))
         == Flying(pending) + if e.event.Arrival? then multiset{TravelOf(e.event.packet)} else multiset{}
  {
    if pending == [] || Earlier(e, pending[0]) {
      assert ([e] + pending)[1..] == pending;
    } else {
      var rest := Scheduled(pending[1..], e);
      assert ([pending[0]] + rest)[1..] == rest;
      ScheduledFlying(pending[1..], e);
    }
  }

  lemma {:induction false} EmptyLane(pending: seq<Timed<Event>>, wire: Wire, slot: Slot)
    requires forall e :: e in pending ==> !Rides(e, wire, slot)
    ensures Lane(pending, wire, slot) == []
  {
    if pending != [] {
      assert pending[0] in pending;
      assert forall e :: e in pending[1..] ==> e in pending;
      EmptyLane(pending[1..], wire, slot);
    }
  }

  lemma AllLater(pending: seq<Timed<Event>>, e: Timed<Event>)
    requires Sorted(pending) && (pending != [] ==> Earlier(e, pending[0]))
    ensures forall x :: x in pending ==> !Earlier(x, e)
  {
    forall x | x in pending ensures !Earlier(x, e) {
      var i :| 0 <= i < |pending| && pending[i] == x;
      assert i > 0 ==> Earlier(pending[0], pending[i]);
    }
  }

  lemma LaneFront(pending: seq<Timed<Event>>, e: Timed<Event>, wire: Wire, slot: Slot)
    requires Sorted(pending) && (pending != [] ==> Earlier(e, pending[0]))
    requires Rides(e, wire, slot) ==> forall x :: x in pending && Rides(x, wire, slot) ==> Earlier(x, e)
    ensures Lane([e] + pending, wire, slot)
         == Lane(pending, wire, slot) + if Rides(e, wire, slot) then [TravelOf(e.event.packet).hop] else []
  {
    assert ([e] + pending)[1..] == pending;
    if Rides(e, wire, slot) {
      AllLater(pending, e);
      EmptyLane(pending, wire, slot);
    }
  }

  lemma LaneNext(x: Timed<Event>, rest: seq<Timed<Event>>, wire: Wire, slot: Slot)
    ensures Lane([x] + rest, wire, slot)
         == (if Rides(x, wire, slot) then [TravelOf(x.event.packet).hop] else []) + Lane(rest, wire, slot)
  {
    assert ([x] + rest)[1..] == rest;
  }

  /** An event goes last in its lane when nothing in the lane comes after it, and changes no other lane. */
  lemma {:induction false} ScheduledLane(pending: seq<Timed<Event>>, e: Timed<Event>, wire: Wire, slot: Slot)
    requires Sorted(pending)
    requires Rides(e, wire, slot) ==> forall x :: x in pending && Rides(x, wire, slot) ==> Earlier(x, e)
    ensures Lane(Scheduled(pending, e), wire, slot)
         == Lane(pending, wire, slot) + if Rides(e, wire, slot) then [TravelOf(e.event.packet).hop] else []
  {
    if pending == [] || Earlier(e, pending[0]) {
      LaneFront(pending, e, wire, slot);
    } else {
      var rest := pending[1..];
      assert pending == [pending[0]] + rest;
      LaneNext(pending[0], rest, wire, slot);
      LaneNext(pending[0], Scheduled(rest, e), wire, slot);
      ScheduledLane(rest, e, wire, slot);
    }
  }

  lemma {:induction false} InLane(pending: seq<Timed<Event>>, e: Timed<Event>, wire: Wire, slot: Slot)
    requires e in pending && Rides(e, wire, slot)
    ensures TravelOf(e.event.packet).hop in Lane(pending, wire, slot)
  {
    if pending[0] != e {
      assert e in pending[1..];
      InLane(pending[1..], e, wire, slot);
    }
  }

  // ---- the invariant ----

  /** The queue is in order, and every event built so far has an identifier of its own. */
  predicate Identified(pending: seq<Timed<Event>>, built: seq<Timed<Event>>, nextEvent: nat)
  {
    && Sorted(pending)
    && (forall e :: e in pending ==> e.id < nextEvent)
    && (forall i :: 0 <= i < |built| ==> built[i].id < nextEvent && built[i].event.Reaction?)
    && (forall i, j :: 0 <= i < j < |built| ==> built[i].id != built[j].id)
    && forall e, i :: e in pending && 0 <= i < |built| ==> e.id != built[i].id
  }

  /** A pending arrival is stamped as sendPacket stamps it, and fits the link it names if that is still there. */
  predicate Fits(links: seq<LinkState>, nextLink: nat, e: Timed<Event>)
  {
    e.event.Arrival? ==>
      var p := e.event.packet;
      && p.arrival == e.time && p.hops >= 1 && p.previous >= 0 && p.linkId < nextLink
      && forall i :: 0 <= i < |links| && links[i].wire.id == p.linkId ==>
           QueueSlot(links[i].wire, p.previous, p.current) != Invalid
  }

  predicate AllFit(links: seq<LinkState>, nextLink: nat, pending: seq<Timed<Event>>)
  {
    forall e :: e in pending ==> Fits(links, nextLink, e)
  }

  predicate Wired(links: seq<LinkState>, nextLink: nat, nodes: nat)
  {
    && (forall i :: 0 <= i < |links| ==>
          Sane(links[i]) && links[i].wire.id < nextLink && links[i].wire.a < nodes && links[i].wire.b < nodes)
    && forall i, j :: 0 <= i < j < |links| ==> links[i].wire.id != links[j].wire.id
  }

  /** The queue of every slot of a link is the lane of the pending arrivals. */
  predicate Mirrors(l: LinkState, pending: seq<Timed<Event>>)
  {
    forall slot: Slot :: slot != Invalid ==> QueueFor(l, slot) == Lane(pending, l.wire, slot)
  }

  predicate AllMirror(links: seq<LinkState>, pending: seq<Timed<Event>>)
  {
    forall i :: 0 <= i < |links| ==> Mirrors(links[i], pending)
  }

  /** The transit index, the pending arrivals and the link queues tell one story. */
  predicate Coherent(w: World)
  {
    && Identified(w.pending, w.built, w.nextEvent)
    && Wired(w.links, w.nextLink, w.nodes)
    && AllFit(w.links, w.nextLink, w.pending)
    && AllMirror(w.links, w.pending)
    && multiset(w.transit) == Flying(w.pending)
  }

  /** Delivered and travelling packets were sent; whatever else was sent is lost. */
  predicate Counted(w: World)
  {
    w.delivered + |w.transit| <= w.sent <= w.delivered + |w.transit| + w.lost
  }

  predicate Inv(w: World) { Coherent(w) && Counted(w) }

  lemma InitialInv(w: World)
    requires Initial(w)
    ensures Inv(w)
  {
    forall i | 0 <= i < |w.links| ensures Sane(w.links[i]) && Mirrors(w.links[i], w.pending) {
      var l := w.links[i];
      assert l == NewLink(l.wire).(up := l.up);
      forall slot: Slot | slot != Invalid ensures SaneSlot(l, slot) && QueueFor(l, slot) == [] {
        match slot { case AB => case BA => case Shared => }
      }
    }
  }

  // ---- sending ----

  /** A fresh identifier, for an event that is queued at once or kept. */
  lemma FreshIdentified(pending: seq<Timed<Event>>, built: seq<Timed<Event>>, nextEvent: nat, e: Timed<Event>)
    requires Identified(pending, built, nextEvent) && e.id == nextEvent
    ensures Identified(Scheduled(pending, e), built, nextEvent + 1)
    ensures e.event.Reaction? ==> Identified(pending, built + [e], nextEvent + 1)
  {
    ScheduledSorted(pending, e);
  }

  /** An event that was kept is queued under the identifier it was built with. */
  lemma KeptIdentified(pending: seq<Timed<Event>>, built: seq<Timed<Event>>, nextEvent: nat, i: nat)
    requires Identified(pending, built, nextEvent) && i < |built|
    ensures Identified(Scheduled(pending, built[i]), built[..i] + built[i + 1..], nextEvent)
  {
    ScheduledSorted(pending, built[i]);
    var rest := built[..i] + built[i + 1..];
    assert forall k :: 0 <= k < |rest| ==> rest[k] == built[if k < i then k else k + 1];
  }

  predicate SameWires(a: seq<LinkState>, b: seq<LinkState>)
  {
    |a| == |b| && forall i :: 0 <= i < |a| ==> a[i].wire == b[i].wire
  }

  lemma FitOnSameWires(a: seq<LinkState>, b: seq<LinkState>, nextLink: nat, pending: seq<Timed<Event>>)
    requires SameWires(a, b) && AllFit(a, nextLink, pending)
    ensures AllFit(b, nextLink, pending)
  {
    forall e | e in pending ensures Fits(b, nextLink, e) {
      assert Fits(a, nextLink, e);
    }
  }

  /** Replacing one link by a sane one on the same wire. */
  lemma WiredUpdate(links: seq<LinkState>, nextLink: nat, nodes: nat, i: nat, l: LinkState)
    requires Wired(links, nextLink, nodes) && i < |links| && l.wire == links[i].wire && Sane(l)
    ensures Wired(links[i := l], nextLink, nodes) && SameWires(links, links[i := l])
  {
  }

  /** The event sendPacket schedules for a transmission over link i. */
  predicate Carries(links: seq<LinkState>, i: nat, e: Timed<Event>, t: Transmission, now: real)
  {
    && i < |links| && CanQueue(links[i], t.from, t.to) && Timely(links[i], t, now)
    && e.event.Arrival? && e.time == t.arrival && t.from >= 0
    && e.event.packet.hops >= 1 && TravelOf(e.event.packet) == Travel(links[i].wire.id, t)
  }

  /** Everything already travelling in the slot arrives before the new transmission does. */
  lemma CarriedIsLast(links: seq<LinkState>, nextLink: nat, nodes: nat, pending: seq<Timed<Event>>,
                      i: nat, e: Timed<Event>, t: Transmission, now: real, x: Timed<Event>)
    requires Wired(links, nextLink, nodes) && AllFit(links, nextLink, pending) && AllMirror(links, pending)
    requires Carries(links, i, e, t, now) && x in pending && x.id < e.id
    requires Rides(x, links[i].wire, QueueSlot(links[i].wire, t.from, t.to))
    ensures Earlier(x, e)
  {
    var l, slot := links[i], QueueSlot(links[i].wire, t.from, t.to);
    CarryKeepsSane(l, t, now);
    InLane(pending, x, l.wire, slot);
    assert Fits(links, nextLink, x);
    assert Mirrors(l, pending);
    var k :| 0 <= k < |QueueFor(l, slot)| && QueueFor(l, slot)[k] == TravelOf(x.event.packet).hop;
  }

  lemma CarryKeepsMirrors(links: seq<LinkState>, nextLink: nat, nodes: nat, pending: seq<Timed<Event>>,
                          i: nat, e: Timed<Event>, t: Transmission, now: real)
    requires Wired(links, nextLink, nodes) && AllFit(links, nextLink, pending) && AllMirror(links, pending)
    requires Carries(links, i, e, t, now) && Sorted(pending) && forall x :: x in pending ==> x.id < e.id
    ensures AllMirror(links[i := Carried(links[i], t)], Scheduled(pending, e))
  {
    var after := links[i := Carried(links[i], t)];
    CarryKeepsSane(links[i], t, now);
    forall j | 0 <= j < |after| ensures Mirrors(after[j], Scheduled(pending, e)) {
      var wire := links[j].wire;
      assert Mirrors(links[j], pending);
      forall slot: Slot | slot != Invalid
        ensures QueueFor(after[j], slot) == Lane(Scheduled(pending, e), wire, slot)
      {
        if Rides(e, wire, slot) {
          forall x | x in pending && Rides(x, wire, slot) ensures Earlier(x, e) {
            CarriedIsLast(links, nextLink, nodes, pending, i, e, t, now, x);
          }
        }
        ScheduledLane(pending, e, wire, slot);
      }
    }
  }

  lemma CarryKeepsLinks(links: seq<LinkState>, nextLink: nat, nodes: nat, pending: seq<Timed<Event>>,
                        i: nat, e: Timed<Event>, t: Transmission, now: real)
    requires Wired(links, nextLink, nodes) && AllFit(links, nextLink, pending) && AllMirror(links, pending)
    requires Carries(links, i, e, t, now) && Sorted(pending) && forall x :: x in pending ==> x.id < e.id
    ensures
      var links' := links[i := Carried(links[i], t)];
      && Wired(links', nextLink, nodes) && AllFit(links', nextLink, Scheduled(pending, e))
      && AllMirror(links', Scheduled(pending, e))
  {
    var links' := links[i := Carried(links[i], t)];
    CarryKeepsSane(links[i], t, now);
    WiredUpdate(links, nextLink, nodes, i, Carried(links[i], t));
    FitOnSameWires(links, links', nextLink, pending);
    CarryKeepsMirrors(links, nextLink, nodes, pending, i, e, t, now);
  }

  lemma ReserveKeepsLinks(links: seq<LinkState>, nextLink: nat, nodes: nat, pending: seq<Timed<Event>>,
                          i: nat, from: int, to: int, until: real)
    requires Wired(links, nextLink, nodes) && AllFit(links, nextLink, pending) && AllMirror(links, pending)
    requires i < |links|
    ensures
      var links' := links[i := Reserved(links[i], from, to, until)];
      Wired(links', nextLink, nodes) && AllFit(links', nextLink, pending) && AllMirror(links', pending)
  {
    var l := Reserved(links[i], from, to, until);
    ReserveKeepsSane(links[i], from, to, until);
    WiredUpdate(links, nextLink, nodes, i, l);
    FitOnSameWires(links, links[i := l], nextLink, pending);
    assert Mirrors(links[i], pending);
  }

  lemma LaunchKeepsCoherent(w: World, p: Packet, i: nat, t: Transmission)
    requires Coherent(w) && i < |w.links| && p.current >= 0
    requires CanQueue(w.links[i], p.current, Other(w.links[i].wire, p.current)) && t == Journey(w.links[i], p, w.now)
    ensures Coherent(Launched(w, p, i, t))
  {
    var e := Timed(t.arrival, w.nextEvent, Arrival(Stamped(p, w.links[i].wire.id, t)));
    CarryKeepsLinks(w.links, w.nextLink, w.nodes, w.pending, i, e, t, w.now);
    FreshIdentified(w.pending, w.built, w.nextEvent, e);
    ScheduledFlying(w.pending, e);
  }

  lemma SendKeepsCoherent(w: World, p: Packet, i: nat, drop: bool)
    requires Coherent(w) && i < |w.links|
    ensures Coherent(SendPacket(w, p, i, drop).0)
  {
    var l, next := w.links[i], Other(w.links[i].wire, p.current);
    if l.up && next != -1 && CanQueue(l, p.current, next) {
      var t := Journey(l, p, w.now);
      if drop {
        ReserveKeepsLinks(w.links, w.nextLink, w.nodes, w.pending, i, t.from, t.to, t.arrival);
      } else {
        LaunchKeepsCoherent(w.(sent := if p.hops == 0 then w.sent + 1 else w.sent), p, i, t);
      }
    }
  }

  // ---- an arrival ----

  /** A transmission in flight is the head of its link's queue when its arrival is the next event. */
  lemma HeadOfQueue(links: seq<LinkState>, nextLink: nat, pending: seq<Timed<Event>>, i: nat)
    requires AllFit(links, nextLink, pending) && AllMirror(links, pending)
    requires pending != [] && pending[0].event.Arrival? && i < |links|
    requires links[i].wire.id == pending[0].event.packet.linkId
    ensures
      var t := TravelOf(pending[0].event.packet).hop;
      var slot := QueueSlot(links[i].wire, t.from, t.to);
      && slot != Invalid && Rides(pending[0], links[i].wire, slot)
      && QueueFor(links[i], slot) == [t] + Lane(pending[1..], links[i].wire, slot)
      && (links[i].wire.a == t.from || links[i].wire.b == t.from)
  {
    assert Fits(links, nextLink, pending[0]);
    assert Mirrors(links[i], pending);
  }

  lemma ReleaseKeepsMirrors(links: seq<LinkState>, nextLink: nat, nodes: nat, pending: seq<Timed<Event>>, p: Packet)
    requires Wired(links, nextLink, nodes) && AllFit(links, nextLink, pending) && AllMirror(links, pending)
    requires pending != [] && pending[0].event == Arrival(p)
    ensures AllMirror(ReleasedLinks(links, nodes, p), pending[1..])
    ensures Wired(ReleasedLinks(links, nodes, p), nextLink, nodes) && SameWires(links, ReleasedLinks(links, nodes, p))
  {
    var after, k := ReleasedLinks(links, nodes, p), FindId(links, p.previous, p.linkId);
    var t := TravelOf(p).hop;
    assert Fits(links, nextLink, pending[0]);
    if k >= 0 && p.previous < nodes {
      assert links[k].wire.id == p.linkId;
      HeadOfQueue(links, nextLink, pending, k);
      ReleaseHead(links[k], t);
      WiredUpdate(links, nextLink, nodes, k, Dequeued(links[k], t));
    }
    forall j | 0 <= j < |links| ensures Mirrors(after[j], pending[1..]) {
      assert Mirrors(links[j], pending);
      if links[j].wire.id == p.linkId {
        HeadOfQueue(links, nextLink, pending, j);
        assert links[j] in links;
        assert j == k;
      }
    }
  }

  lemma OneFewer(before: multiset<Travel>, t: Travel)
    requires t in before
    ensures |before - multiset{t}| == |before| - 1
  {
    assert before == (before - multiset{t}) + multiset{t};
  }

  lemma FitsTail(links: seq<LinkState>, nextLink: nat, pending: seq<Timed<Event>>)
    requires pending != [] && AllFit(links, nextLink, pending)
    ensures AllFit(links, nextLink, pending[1..])
  {
    assert forall e :: e in pending[1..] ==> e in pending;
  }

  lemma PopKeepsIdentified(pending: seq<Timed<Event>>, built: seq<Timed<Event>>, nextEvent: nat)
    requires Identified(pending, built, nextEvent) && pending != []
    ensures Identified(pending[1..], built, nextEvent)
  {
    assert forall e :: e in pending[1..] ==> e in pending;
  }

  /** Popping an arrival and releasing its packet take it out of all three places at once. */
  lemma ReleaseKeepsCoherent(w: World, p: Packet)
    requires Coherent(w) && w.pending != [] && w.pending[0].event == Arrival(p)
    ensures Coherent(Release(Popped(w), p))
    ensures |Release(Popped(w), p).transit| == |w.transit| - 1 && p.hops >= 1
  {
    PopKeepsIdentified(w.pending, w.built, w.nextEvent);
    assert w.pending[0] in w.pending;
    assert Fits(w.links, w.nextLink, w.pending[0]);
    ReleaseKeepsMirrors(w.links, w.nextLink, w.nodes, w.pending, p);
    FitsTail(w.links, w.nextLink, w.pending);
    FitOnSameWires(w.links, ReleasedLinks(w.links, w.nodes, p), w.nextLink, w.pending[1..]);
    WithoutFirstCounts(w.transit, TravelOf(p));
    OneFewer(multiset(w.transit), TravelOf(p));
    assert |multiset(WithoutFirst(w.transit, TravelOf(p)))| == |WithoutFirst(w.transit, TravelOf(p))|;
    assert Flying(w.pending) - multiset{TravelOf(p)} == Flying(w.pending[1..]);
  }

  // ---- topology changes ----

  /** The links left are some of the links there were. */
  lemma {:induction false} WithoutNodeKeeps(links: seq<LinkState>, nextLink: nat, nodes: nat, node: int)
    requires Wired(links, nextLink, nodes)
    ensures Wired(WithoutNode(links, StateWire, node), nextLink, nodes)
  {
    if links != [] {
      WithoutNodeKeeps(links[1..], nextLink, nodes, node);
      var rest := WithoutNode(links[1..], StateWire, node);
      if !Touches(links[0].wire, node) { FirstIsNew(links, rest); }
    }
  }

  /** The first of some distinct links is none of the others. */
  lemma FirstIsNew(links: seq<LinkState>, rest: seq<LinkState>)
    requires links != [] && forall i, j :: 0 <= i < j < |links| ==> links[i].wire.id != links[j].wire.id
    requires forall l :: l in rest ==> l in links[1..]
    ensures forall j :: 0 <= j < |rest| ==> links[0].wire.id != rest[j].wire.id
  {
    forall j | 0 <= j < |rest| ensures links[0].wire.id != rest[j].wire.id {
      assert rest[j] in links[1..];
      var k :| 0 <= k < |links[1..]| && links[1..][k] == rest[j];
      assert links[k + 1] == rest[j];
    }
  }

  lemma FewerLinks(links: seq<LinkState>, fewer: seq<LinkState>, nextLink: nat, pending: seq<Timed<Event>>)
    requires AllFit(links, nextLink, pending) && AllMirror(links, pending)
    requires forall l :: l in fewer ==> l in links
    ensures AllFit(fewer, nextLink, pending) && AllMirror(fewer, pending)
  {
    forall i | 0 <= i < |fewer| ensures Mirrors(fewer[i], pending) {
      assert fewer[i] in fewer;
      var k :| 0 <= k < |links| && links[k] == fewer[i];
      assert Mirrors(links[k], pending);
    }
    forall e | e in pending ensures Fits(fewer, nextLink, e) {
      assert Fits(links, nextLink, e);
      if e.event.Arrival? {
        forall i | 0 <= i < |fewer| && fewer[i].wire.id == e.event.packet.linkId
          ensures QueueSlot(fewer[i].wire, e.event.packet.previous, e.event.packet.current) != Invalid
        {
          assert fewer[i] in fewer;
          var k :| 0 <= k < |links| && links[k] == fewer[i];
        }
      }
    }
  }

  lemma CutKeepsWired(links: seq<LinkState>, nextLink: nat, nodes: nat, i: nat)
    requires Wired(links, nextLink, nodes) && i < |links|
    ensures Wired(links[..i] + links[i + 1..], nextLink, nodes)
    ensures forall l :: l in links[..i] + links[i + 1..] ==> l in links
  {
    var cut := links[..i] + links[i + 1..];
    assert forall k :: 0 <= k < |cut| ==> cut[k] == links[if k < i then k else k + 1];
  }

  /** A new link has a fresh identity, so nothing pending can be mistaken for its traffic. */
  lemma NewLinkKeeps(links: seq<LinkState>, nextLink: nat, nodes: nat, pending: seq<Timed<Event>>, wire: Wire, more: nat)
    requires Wired(links, nextLink, nodes) && AllFit(links, nextLink, pending) && AllMirror(links, pending)
    requires wire.id == nextLink && nodes <= more && wire.a < more && wire.b < more
    ensures
      var links' := links + [NewLink(wire)];
      Wired(links', nextLink + 1, more) && AllFit(links', nextLink + 1, pending) && AllMirror(links', pending)
  {
    var l, links' := NewLink(wire), links + [NewLink(wire)];
    forall e | e in pending ensures Fits(links', nextLink + 1, e) && (e.event.Arrival? ==> e.event.packet.linkId != wire.id) {
      assert Fits(links, nextLink, e);
    }
    forall slot: Slot | slot != Invalid ensures QueueFor(l, slot) == Lane(pending, wire, slot) && SaneSlot(l, slot) {
      EmptyLane(pending, wire, slot);
      match slot { case AB => case BA => case Shared => }
    }
    forall i | 0 <= i < |links'| ensures Mirrors(links'[i], pending) {
      if i < |links| { assert Mirrors(links[i], pending); }
    }
  }

  lemma ToggleKeeps(links: seq<LinkState>, nextLink: nat, nodes: nat, pending: seq<Timed<Event>>, i: nat, up: bool)
    requires Wired(links, nextLink, nodes) && AllFit(links, nextLink, pending) && AllMirror(links, pending)
    requires i < |links|
    ensures
      var links' := links[i := links[i].(up := up)];
      Wired(links', nextLink, nodes) && AllFit(links', nextLink, pending) && AllMirror(links', pending)
  {
    var l := links[i].(up := up);
    assert forall slot: Slot :: QueueFor(l, slot) == QueueFor(links[i], slot) && BusyFor(l, slot) == BusyFor(links[i], slot);
    forall slot: Slot | slot != Invalid ensures SaneSlot(l, slot) { assert SaneSlot(links[i], slot); }
    WiredUpdate(links, nextLink, nodes, i, l);
    FitOnSameWires(links, links[i := l], nextLink, pending);
    assert Mirrors(links[i], pending);
  }

  lemma {:induction false} ChangeKeepsCoherent(w: World, change: Change)
    requires Coherent(w) && Accepts(w, change)
    ensures Coherent(Changed(w, change))
  {
    match change
    case CreateNode =>
    case DeleteNode(node) =>
      WithoutNodeKeeps(w.links, w.nextLink, w.nodes, node);
      FewerLinks(w.links, WithoutNode(w.links, StateWire, node), w.nextLink, w.pending);
    case CreateLink(a, b, bandwidth, delay, lossProb, mode) =>
      NewLinkKeeps(w.links, w.nextLink, w.nodes, w.pending, Wire(w.nextLink, a, b, bandwidth, delay, mode),
                   Max(w.nodes, Max(a, b) + 1));
    case DeleteLink(a, b) =>
      var i := FindJoin(w.links, StateWire, a, b);
      CutKeepsWired(w.links, w.nextLink, w.nodes, i);
      FewerLinks(w.links, w.links[..i] + w.links[i + 1..], w.nextLink, w.pending);
    case ToggleLink(a, b, up) =>
      ToggleKeeps(w.links, w.nextLink, w.nodes, w.pending, FindJoin(w.links, StateWire, a, b), up);
    case SetMetric(_) =>
  }

  // ---- every run ----

  lemma SendThroughKeeps(w: World, p: Packet, drop: bool)
    requires Coherent(w)
    ensures var (w', ok) := SendThrough(w, p, drop);
      && Coherent(w')
      && w'.delivered == w.delivered && w.sent <= w'.sent && (p.hops > 0 ==> w'.sent == w.sent)
      && (ok ==> |w'.transit| == |w.transit| + 1 && w'.lost == w.lost && w'.sent == w.sent + if p.hops == 0 then 1 else 0)
      && (!ok ==> w'.transit == w.transit && w'.sent - w.sent <= w'.lost - w.lost)
  {
    var next := GetNextHop(w.tables, p.current, p.destination);
    if next != -1 && 0 <= p.current < w.nodes {
      var i := FindUp(w.links, p.current, next);
      if i != -1 { SendKeepsCoherent(w, p, i, drop); }
    }
  }

  lemma ActKeepsInv(w: World, action: Action)
    requires Inv(w)
    ensures Inv(Act(w, action))
  {
    match action
    case Send(source, destination, size, tag, drop) =>
      SendThroughKeeps(w, Packet(source, destination, source, -1, 0, 0, size, 0.0, 0.0, tag), drop);
    case Build(at, tag) =>
      FreshIdentified(w.pending, w.built, w.nextEvent, Timed(at, w.nextEvent, Reaction(tag)));
    case Schedule(which) =>
      if which < |w.built| {
        KeptIdentified(w.pending, w.built, w.nextEvent, which);
        ScheduleKeepsViews(w, w.built[which]);
      }
    case Reshape(change, _) =>
      if Accepts(w, change) { ChangeKeepsCoherent(w, change); }
  }

  /** An event other than an arrival is in nobody's lane. */
  lemma ScheduleKeepsViews(w: World, e: Timed<Event>)
    requires Coherent(w) && e.event.Reaction?
    ensures
      var q := Scheduled(w.pending, e);
      AllFit(w.links, w.nextLink, q) && AllMirror(w.links, q) && Flying(q) == Flying(w.pending)
  {
    ScheduledFlying(w.pending, e);
    forall i | 0 <= i < |w.links| ensures Mirrors(w.links[i], Scheduled(w.pending, e)) {
      assert Mirrors(w.links[i], w.pending);
      forall slot: Slot | slot != Invalid
        ensures QueueFor(w.links[i], slot) == Lane(Scheduled(w.pending, e), w.links[i].wire, slot)
      {
        ScheduledLane(w.pending, e, w.links[i].wire, slot);
      }
    }
  }

  lemma {:induction false} ActAllKeepsInv(w: World, actions: seq<Action>)
    requires Inv(w)
    ensures Inv(ActAll(w, actions))
  {
    if actions != [] {
      var before := actions[..|actions| - 1];
      ActAllKeepsInv(w, before);
      ActKeepsInv(ActAll(w, before), actions[|actions| - 1]);
    }
  }

  lemma ArriveKeepsInv(w: World, p: Packet, drop: bool)
    requires Inv(w) && w.pending != [] && w.pending[0].event == Arrival(p)
    ensures Inv(Arrive(Popped(w), p, drop))
  {
    ReleaseKeepsCoherent(w, p);
    SendThroughKeeps(Release(Popped(w), p), p, drop);
  }

  lemma PopKeepsInv(w: World)
    requires Inv(w) && w.pending != [] && w.pending[0].event.Reaction?
    ensures Inv(Popped(w))
  {
    PopKeepsIdentified(w.pending, w.built, w.nextEvent);
    FitsTail(w.links, w.nextLink, w.pending);
    forall i | 0 <= i < |w.links| ensures Mirrors(w.links[i], w.pending[1..]) {
      assert Mirrors(w.links[i], w.pending);
    }
  }

  lemma {:induction false} StepKeepsInv(w: World, input: Input)
    requires Inv(w)
    ensures Inv(Step(w, input))
  {
    match input
    case Outside(action) => ActKeepsInv(w, action);
    case ProcessEvent(drop, reactions) =>
      if w.pending != [] {
        match w.pending[0].event {
          case Arrival(p) => ArriveKeepsInv(w, p, drop);
          case Reaction(_) => PopKeepsInv(w);
        }
        ActAllKeepsInv(Begun(w, drop), Following(w, reactions));
      }
  }

  lemma {:induction false} RunKeepsInv(w: World, inputs: seq<Input>)
    requires Initial(w)
    ensures Inv(Run(w, inputs))
  {
    if inputs == [] {
      InitialInv(w);
    } else {
      var before := inputs[..|inputs| - 1];
      RunKeepsInv(w, before);
      StepKeepsInv(Run(w, before), inputs[|inputs| - 1]);
    }
  }
}
