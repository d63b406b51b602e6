/**
  Sessions over a network that keeps order: of packets for one end on their way to the same node, the one sent first
  arrives first. There no packet of the client ever gets past a SYN, so none is left once the server is established,
  and a server that has closed is never opened again.
 */
module SessionOrder {
  import opened Common
  import opened Session
  import opened SessionDeeds
  import opened SessionSafety
  import opened SessionResults
  import opened SessionLastAck
  import opened Forwarding
  import opened EventQueues
  import SessionClock
  import SessionDrain
  import TS = TcpState

  type Due = SessionClock.Due

  /** Two packets for the same end on their way to the same node. */
  predicate SameRoad(x: Due, y: Due)
  {
    && x.event.Arrival? && y.event.Arrival?
    && x.event.packet.toServer == y.event.packet.toServer && x.event.packet.at == y.event.packet.at
  }

  predicate KeepsOrder(pending: seq<Due>)
  {
    forall x, y :: x in pending && y in pending && SameRoad(x, y) && x.id < y.id ==> Earlier(x, y)
  }

  /** At every moment of the run. */
  predicate OrderKept(w: World, choices: seq<Choice>)
  {
    KeepsOrder(Run(w, choices).pending) && (choices != [] ==> OrderKept(w, choices[..|choices| - 1]))
  }

  // ---- the way to the server ----

  /** Where a packet of the client is after k hops. */
  function Place(site: Site, k: nat): int
  {
    Stop(site.tables, site.client, site.server, k)
  }

  ghost predicate OnPath(site: Site, at: int) { at != -1 && exists k: nat :: k > 0 && Place(site, k) == at }

  function ToGo(site: Site, at: int): nat { Hops(site.tables, at, site.server, |site.tables|) }

  lemma HopIsShorter(site: Site, at: int)
    requires SessionDrain.Shortens(site) && GetNextHop(site.tables, at, site.server) != -1
    ensures ToGo(site, GetNextHop(site.tables, at, site.server)) < ToGo(site, at)
  {
    var p := Packet(true, RST, 0, 0, [], at);
    assert NextNode(site, p) != -1;
  }

  lemma {:induction false} PlacesApart(site: Site, i: nat, k: nat)
    requires SessionDrain.Shortens(site) && i < k && Place(site, k) != -1
    ensures ToGo(site, Place(site, k)) < ToGo(site, Place(site, i))
  {
    HopIsShorter(site, Place(site, k - 1));
    if i < k - 1 { PlacesApart(site, i, k - 1); }
  }

  /** A node on the way lies beyond a place on it, at it, or before it. */
  lemma PathOrder(site: Site, k: nat, b: int)
    requires SessionDrain.Shortens(site) && OnPath(site, b) && Place(site, k) != -1
    ensures ToGo(site, b) == ToGo(site, Place(site, k)) ==> b == Place(site, k)
    ensures ToGo(site, b) < ToGo(site, Place(site, k)) || k == 0 ==>
              Place(site, k + 1) != -1 && (b == Place(site, k + 1) || ToGo(site, b) < ToGo(site, Place(site, k + 1)))
  {
    var i: nat :| i > 0 && Place(site, i) == b;
    if i < k { PlacesApart(site, i, k); }
    if i > k {
      PlacesApart(site, k, i);
      PlaceBefore(site, k + 1, i);
      if i > k + 1 { PlacesApart(site, k + 1, i); }
    }
  }

  lemma {:induction false} PlaceBefore(site: Site, i: nat, k: nat)
    requires i <= k && Place(site, k) != -1
    ensures Place(site, i) != -1
  {
    if i < k { PlaceBefore(site, i, k - 1); }
  }

  // ---- the line of the client's packets ----

  predicate ForServer(x: Due) { x.event.Arrival? && x.event.packet.toServer }

  predicate IsSyn(x: Due) { ForServer(x) && x.event.packet.kind.SYN? }

  predicate IsLater(x: Due) { ForServer(x) && !x.event.packet.kind.SYN? }

  /** Nearer to the server, or on the same road and sent before. */
  predicate Leads(site: Site, x: Due, y: Due)
    requires ForServer(x) && ForServer(y)
  {
    var a, b := x.event.packet.at, y.event.packet.at;
    ToGo(site, a) < ToGo(site, b) || (a == b && x.id < y.id)
  }

  ghost predicate Travelling(w: World)
  {
    forall x :: x in w.pending ==> x.id < w.nextId && (ForServer(x) ==> OnPath(w.site, x.event.packet.at))
  }

  predicate SynsLead(w: World)
  {
    forall x, y :: x in w.pending && y in w.pending && IsSyn(x) && IsLater(y) ==> Leads(w.site, x, y)
  }

  ghost predicate Lined(w: World) { Travelling(w) && SynsLead(w) }

  /** A packet of the client starts at the client or goes on from its path. */
  lemma SentTravels(w: World, p: Packet, o: Offer)
    requires Travelling(w) && (p.toServer ==> p.at == w.site.client || OnPath(w.site, p.at))
    ensures Travelling(Sent(w, p, o))
  {
    if Taken(w, p, o) && p.toServer {
      var k: nat := 0;
      if p.at != w.site.client { k :| k > 0 && Place(w.site, k) == p.at; }
      assert Place(w.site, k) == p.at && Place(w.site, k + 1) == NextNode(w.site, p);
    }
  }

  /** Whatever the client sends after its SYN goes behind it. */
  lemma SentLined(w: World, p: Packet, o: Offer)
    requires SessionDrain.Shortens(w.site) && Lined(w)
    requires p.toServer ==> p.at == w.site.client && !p.kind.SYN?
    ensures Lined(Sent(w, p, o))
  {
    SentTravels(w, p, o);
    if Taken(w, p, o) && p.toServer {
      assert Place(w.site, 0) == p.at && Place(w.site, 1) == NextNode(w.site, p);
      forall x | x in w.pending && IsSyn(x)
        ensures x.event.packet.at == Place(w.site, 1) || ToGo(w.site, x.event.packet.at) < ToGo(w.site, Place(w.site, 1))
      {
        PathOrder(w.site, 0, x.event.packet.at);
      }
    }
  }

  /** A packet that waits before the others on its road is not led by any of them. */
  lemma HeadLeads(w: World, x: Due)
    requires w.pending != [] && SessionClock.OnTime(w) && KeepsOrder(w.pending) && x in w.pending
    ensures SameRoad(x, w.pending[0]) ==> x.id >= w.pending[0].id
  {
    SessionClock.PoppedAhead(w);
    assert w.pending == [w.pending[0]] + w.pending[1..] && w.pending[0] in w.pending;
    if x != w.pending[0] { assert Earlier(w.pending[0], x); }
  }

  lemma PoppedLined(w: World)
    requires Lined(w) && w.pending != []
    ensures Lined(Popped(w))
  {
    assert forall x :: x in w.pending[1..] ==> x in w.pending;
  }

  /** A SYN that goes on stays ahead of what is behind it; what is behind a SYN does not get past it. */
  lemma HopKeepsLead(w: World, x: Due, k: nat)
    requires w.pending != [] && ForServer(w.pending[0]) && SessionDrain.Shortens(w.site) && Lined(w)
    requires SessionClock.OnTime(w) && KeepsOrder(w.pending) && x in w.pending && ForServer(x)
    requires k > 0 && Place(w.site, k) == w.pending[0].event.packet.at && Place(w.site, k + 1) != -1
    ensures IsSyn(w.pending[0]) && IsLater(x) ==> ToGo(w.site, Place(w.site, k + 1)) < ToGo(w.site, x.event.packet.at)
    ensures IsSyn(x) && IsLater(w.pending[0]) ==>
              x.event.packet.at == Place(w.site, k + 1) || ToGo(w.site, x.event.packet.at) < ToGo(w.site, Place(w.site, k + 1))
  {
    assert w.pending[0] in w.pending;
    PlacesApart(w.site, k, k + 1);
    HeadLeads(w, x);
    PathOrder(w.site, k, x.event.packet.at);
  }

  /** The first packet goes on without getting past a SYN. */
  lemma ForwardLined(w: World, o: Offer)
    requires w.pending != [] && ForServer(w.pending[0]) && SessionDrain.Shortens(w.site) && Lined(w)
    requires SessionClock.OnTime(w) && KeepsOrder(w.pending)
    ensures Lined(Sent(Popped(w), w.pending[0].event.packet, o))
  {
    var p, w1 := w.pending[0].event.packet, Popped(w);
    assert w.pending[0] in w.pending;
    PoppedLined(w);
    SentTravels(w1, p, o);
    if Taken(w1, p, o) {
      var k: nat :| k > 0 && Place(w.site, k) == p.at;
      assert Place(w.site, k + 1) == NextNode(w.site, p);
      forall x | x in w1.pending && ForServer(x)
        ensures IsSyn(w.pending[0]) && IsLater(x) ==> ToGo(w.site, Place(w.site, k + 1)) < ToGo(w.site, x.event.packet.at)
        ensures IsSyn(x) && IsLater(w.pending[0]) ==>
                  x.event.packet.at == Place(w.site, k + 1) || ToGo(w.site, x.event.packet.at) < ToGo(w.site, Place(w.site, k + 1))
      {
        assert x in w.pending;
        HopKeepsLead(w, x, k);
      }
    }
  }

  // ---- event bodies ----

  lemma {:induction false} DoneLined(w: World, deeds: seq<Deed>)
    requires SessionDrain.Shortens(w.site) && Lined(w) && SendsNoSyn(deeds) && FromHome(w.site, deeds)
    ensures Lined(Done(w, deeds))
    decreases |deeds|
  {
    if deeds != [] {
      assert deeds[0] in deeds && forall d :: d in deeds[1..] ==> d in deeds;
      if deeds[0].Sends? { SentLined(w, deeds[0].packet, deeds[0].offer); }
      DoneLined(DoneBy(w, deeds[0]), deeds[1..]);
    }
  }

  lemma {:induction false} DoneTravels(w: World, deeds: seq<Deed>)
    requires Travelling(w) && FromHome(w.site, deeds)
    ensures Travelling(Done(w, deeds))
    decreases |deeds|
  {
    if deeds != [] {
      assert deeds[0] in deeds && forall d :: d in deeds[1..] ==> d in deeds;
      if deeds[0].Sends? { SentTravels(w, deeds[0].packet, deeds[0].offer); }
      DoneTravels(DoneBy(w, deeds[0]), deeds[1..]);
    }
  }

  /** In the handshake nothing but a SYN is on its way to the server. */
  lemma OpeningLined(w: World)
    requires Opening(w) && Travelling(w)
    ensures Lined(w)
  {
    forall y | y in w.pending ensures !IsLater(y) { assert OpeningEvent(w.client.seqNum, w.server, y.event); }
  }

  /** The client sends another SYN only while it waits for the answer to the first. */
  lemma SynOnlyInHandshake(w: World, c: Choice)
    requires Inv(w) && Enabled(w, c) && AtItsEnd(w.site, w.pending[0].event)
    ensures SendsNoSyn(Deeds(Popped(w), w.pending[0].event, c)) || Opening(Step(w, c))
  {
    var w1, e := Popped(w), w.pending[0].event;
    assert w.pending[0] in w.pending;
    if Idle(w) {
      IdleStep(w, c);
    } else if Opening(w) && e.HandshakeTimeout? {
      PoppedOpening(w);
      OpeningTimer(w1, c);
    } else {
      assert !e.Handshake? && (e.HandshakeTimeout? ==> !w.client.state.SYN_SENT?);
      BodySendsNoSyn(w1, e, c);
    }
  }

  lemma StepLined(w: World, c: Choice)
    requires Inv(w) && SessionDrain.Shortens(w.site) && SessionClock.OnTime(w) && KeepsOrder(w.pending) && Lined(w)
    ensures Lined(Step(w, c))
  {
    if Enabled(w, c) {
      var w1, e := Popped(w), w.pending[0].event;
      PoppedLined(w);
      if AtItsEnd(w.site, e) {
        var deeds := Deeds(w1, e, c);
        BodiesAreDeeds(w1, e, c);
        BodiesSendFromHome(w1, e, c);
        DoneStays(w1, deeds);
        SynOnlyInHandshake(w, c);
        if SendsNoSyn(deeds) { DoneLined(w1, deeds); }
        else {
          DoneTravels(w1, deeds);
          OpeningLined(Step(w, c));
        }
      } else if e.packet.toServer {
        ForwardLined(w, c.offer);
      } else {
        SentLined(w1, e.packet, c.offer);
      }
    }
  }

  // ---- the server is met ----

  predicate Met(s: TS.State) { !s.CLOSED? && !s.LISTEN? && !s.SYN_RECEIVED? }

  /** Whatever reaches the client leaves the server as it is. */
  lemma ClientsArrival(w: World, p: Packet, c: Choice)
    requires !p.toServer || p.at != Home(w.site, p.toServer)
    ensures OnArrival(w, p, c).server == w.server
  {
    if p.at == Home(w.site, p.toServer) {
      match p.kind {
        case ACK => ClientAcked(w, p);
        case _ =>
      }
    }
  }

  lemma ClientAcked(w: World, p: Packet)
    requires !p.toServer
    ensures OnAck(w, p).server == w.server
  {
  }

  lemma SynMeetsNot(w: World, p: Packet, c: Choice)
    requires p.kind.SYN?
    ensures OnSyn(w, p, c).server.state == w.server.state || OnSyn(w, p, c).server.state.SYN_RECEIVED?
  {
  }

  /** The server meets the client by a packet that is no SYN. */
  lemma MetBy(w: World, e: Event, c: Choice)
    requires !Met(w.server.state) && Met(Execute(w, e, c).server.state)
    ensures e.Arrival? && e.packet.toServer && !e.packet.kind.SYN? && e.packet.at == w.site.server
  {
    if !e.Arrival? { FiredServerState(w, e, c); }
    else {
      var p := e.packet;
      if !p.toServer || p.at != Home(w.site, p.toServer) { ClientsArrival(w, p, c); }
      else if p.kind.SYN? { SynMeetsNot(w, p, c); }
    }
  }

  lemma SynsAreForServer(w: World, x: Due)
    requires Inv(w) && x in w.pending && x.event.Arrival? && x.event.packet.kind.SYN?
    ensures IsSyn(x)
  {
    if Opening(w) { assert OpeningEvent(w.client.seqNum, w.server, x.event); }
  }

  /** When it does, every SYN has arrived. */
  lemma MeetingFindsNoSyn(w: World)
    requires Inv(w) && SessionClock.OnTime(w) && KeepsOrder(w.pending) && Lined(w)
    requires w.pending != [] && IsLater(w.pending[0]) && w.pending[0].event.packet.at == w.site.server
    ensures NoSyn(w.pending)
  {
    var y := w.pending[0];
    assert y in w.pending;
    forall x | x in w.pending && x.event.Arrival? ensures !x.event.packet.kind.SYN? {
      if x.event.packet.kind.SYN? {
        SynsAreForServer(w, x);
        assert Leads(w.site, x, y) && ToGo(w.site, w.site.server) == 0;
        HeadLeads(w, x);
      }
    }
  }

  /** Once no SYN is under way, and the client waits for no answer to one, there is none again. */
  lemma StaysWithoutSyn(w: World, c: Choice)
    requires Enabled(w, c) && NoSyn(w.pending) && !w.client.state.SYN_SENT? && !w.pending[0].event.Handshake?
    ensures NoSyn(Step(w, c).pending)
  {
    var w1, e := Popped(w), w.pending[0].event;
    assert w.pending[0] in w.pending && forall x :: x in w.pending[1..] ==> x in w.pending;
    BodySendsNoSyn(w1, e, c);
    BodiesAreDeeds(w1, e, c);
    DoneNoSyn(w1, Deeds(w1, e, c));
  }

  lemma StepMet(w: World, c: Choice)
    requires Inv(w) && SessionClock.OnTime(w) && KeepsOrder(w.pending) && Lined(w)
    requires Met(w.server.state) ==> NoSyn(w.pending)
    ensures Met(Step(w, c).server.state) ==> NoSyn(Step(w, c).pending)
  {
    if Enabled(w, c) && Met(Step(w, c).server.state) {
      assert w.pending[0] in w.pending;
      if !Met(w.server.state) {
        MetBy(Popped(w), w.pending[0].event, c);
        MeetingFindsNoSyn(w);
        assert Opening(w) ==> OpeningEvent(w.client.seqNum, w.server, w.pending[0].event);
      }
      StaysWithoutSyn(w, c);
    }
  }

  // ---- every run ----

  /** In every run over a network that keeps order no SYN is under way once the server is established. */
  lemma {:induction false} NoSynOnceMet(site: Site, serverState: TS.State, choices: seq<Choice>)
    requires Fresh(serverState) && SessionDrain.Shortens(site) && OrderKept(Session.Start(site, serverState), choices)
    ensures var w := Run(Session.Start(site, serverState), choices);
      Lined(w) && w.site == site && (Met(w.server.state) ==> NoSyn(w.pending))
  {
    if choices != [] {
      var before, c := choices[..|choices| - 1], choices[|choices| - 1];
      NoSynOnceMet(site, serverState, before);
      RunKeepsInv(site, serverState, before);
      SessionClock.RunOnTime(site, serverState, before);
      var w := Run(Session.Start(site, serverState), before);
      StepLined(w, c);
      StepMet(w, c);
      StepStays(w, c);
    }
  }
}
