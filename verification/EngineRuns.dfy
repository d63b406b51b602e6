/**
  The engine's promises over whole runs: for any topology, any event bodies, any routing tables, drops and
  topology changes.
 */
module EngineRuns {
  import opened EventQueues
  import opened Wires
  import opened Links
  import opened Forwarding
  import opened Engine
  import opened EngineSafety

  /**
    A packet on the wire is in three places at once: packets_in_transit, a pending arrival, and, while its link
    is still in the topology, the queue of its slot. Once the event queue has drained, all are empty.
   */
  lemma {:induction false} TransitAgrees(w: World, inputs: seq<Input>)
    requires Initial(w)
    ensures
      var w' := Run(w, inputs);
      && multiset(w'.transit) == Flying(w'.pending)
      && (forall l, slot: Slot :: l in w'.links && slot != Invalid ==> QueueFor(l, slot) == Lane(w'.pending, l.wire, slot))
      && (w'.pending == [] ==> w'.transit == [])
      && (forall l, slot: Slot :: w'.pending == [] && l in w'.links && slot != Invalid ==> QueueFor(l, slot) == [])
  {
    RunKeepsInv(w, inputs);
    var w' := Run(w, inputs);
    forall l, slot: Slot | l in w'.links && slot != Invalid
      ensures QueueFor(l, slot) == Lane(w'.pending, l.wire, slot)
    {
      var i :| 0 <= i < |w'.links| && w'.links[i] == l;
      assert Mirrors(w'.links[i], w'.pending);
    }
    assert |multiset(w'.transit)| == |w'.transit|;
  }

  /**
    In every mode a slot carries one transmission at a time, first in first out, at most 32 of them, none
    arriving after the slot's busy time; and the transmission whose arrival comes next is at its head.
   */
  lemma {:induction false} WireIsFifo(w: World, inputs: seq<Input>, l: LinkState, slot: Slot)
    requires Initial(w) && l in Run(w, inputs).links && slot != Invalid
    ensures
      var w', q := Run(w, inputs), QueueFor(l, slot);
      && InOrder(q) && |q| <= 32
      && (forall t :: t in q ==> t.arrival <= BusyFor(l, slot) && QueueSlot(l.wire, t.from, t.to) == slot)
      && (w'.pending != [] && Rides(w'.pending[0], l.wire, slot) ==>
            q != [] && q[0] == TravelOf(w'.pending[0].event.packet).hop)
  {
    RunKeepsInv(w, inputs);
    var w' := Run(w, inputs);
    var i :| 0 <= i < |w'.links| && w'.links[i] == l;
    assert SaneSlot(l, slot) && Mirrors(l, w'.pending);
  }

  /** Two arrivals over the same link in the same direction. */
  predicate SameWay(x: Timed<Event>, y: Timed<Event>)
  {
    && x.event.Arrival? && y.event.Arrival?
    && x.event.packet.linkId == y.event.packet.linkId
    && x.event.packet.previous == y.event.packet.previous && x.event.packet.current == y.event.packet.current
  }

  predicate Overtakes(y: Timed<Event>, x: Timed<Event>) { SameWay(x, y) && x.id < y.id && !Earlier(x, y) }

  /** Of the pending arrivals over one link in one direction, the packet sent first arrives first. */
  predicate KeepsOrder(pending: seq<Timed<Event>>)
  {
    forall x, y :: x in pending && y in pending ==> !Overtakes(y, x)
  }

  lemma LaunchKeepsOrder(w: World, p: Packet, i: nat, t: Transmission)
    requires Coherent(w) && KeepsOrder(w.pending) && i < |w.links| && p.current >= 0
    requires CanQueue(w.links[i], p.current, Other(w.links[i].wire, p.current)) && t == Journey(w.links[i], p, w.now)
    ensures KeepsOrder(Launched(w, p, i, t).pending)
  {
    var e := Timed(t.arrival, w.nextEvent, Arrival(Stamped(p, w.links[i].wire.id, t)));
    forall x | x in w.pending ensures !Overtakes(e, x) && !Overtakes(x, e) {
      if SameWay(x, e) { CarriedIsLast(w.links, w.nextLink, w.nodes, w.pending, i, e, t, w.now, x); }
    }
  }

  lemma SendKeepsOrder(w: World, p: Packet, drop: bool)
    requires Coherent(w) && KeepsOrder(w.pending)
    ensures KeepsOrder(SendThrough(w, p, drop).0.pending)
  {
    var next := GetNextHop(w.tables, p.current, p.destination);
    if next != -1 && 0 <= p.current < w.nodes {
      var i := FindUp(w.links, p.current, next);
      if i != -1 && CanQueue(w.links[i], p.current, Other(w.links[i].wire, p.current)) {
        var w' := if p.hops == 0 then w.(sent := w.sent + 1) else w;
        LaunchKeepsOrder(w', p, i, Journey(w.links[i], p, w.now));
      }
    }
  }

  lemma ActKeepsOrder(w: World, action: Action)
    requires Inv(w) && KeepsOrder(w.pending)
    ensures KeepsOrder(Act(w, action).pending)
  {
    match action
    case Send(source, destination, size, tag, drop) =>
      SendKeepsOrder(w, Packet(source, destination, source, -1, 0, 0, size, 0.0, 0.0, tag), drop);
    case _ =>
  }

  lemma {:induction false} ActAllKeepsOrder(w: World, actions: seq<Action>)
    requires Inv(w) && KeepsOrder(w.pending)
    ensures KeepsOrder(ActAll(w, actions).pending)
  {
    if actions != [] {
      var before := actions[..|actions| - 1];
      ActAllKeepsOrder(w, before);
      ActAllKeepsInv(w, before);
      ActKeepsOrder(ActAll(w, before), actions[|actions| - 1]);
    }
  }

  lemma BegunKeepsOrder(w: World, drop: bool)
    requires Inv(w) && w.pending != [] && KeepsOrder(w.pending)
    ensures Inv(Begun(w, drop)) && KeepsOrder(Begun(w, drop).pending)
  {
    assert forall x :: x in w.pending[1..] ==> x in w.pending;
    match w.pending[0].event {
      case Arrival(p) =>
        ReleaseKeepsCoherent(w, p);
        ArriveKeepsInv(w, p, drop);
        SendKeepsOrder(Release(Popped(w), p), p, drop);
      case Reaction(_) => PopKeepsInv(w);
    }
  }

  /** In every run, whatever changes in the topology, no packet overtakes another on a link in its direction. */
  lemma {:induction false} NothingOvertakes(w: World, inputs: seq<Input>)
    requires Initial(w)
    ensures KeepsOrder(Run(w, inputs).pending)
  {
    if inputs != [] {
      var before := Run(w, inputs[..|inputs| - 1]);
      NothingOvertakes(w, inputs[..|inputs| - 1]);
      RunKeepsInv(w, inputs[..|inputs| - 1]);
      match inputs[|inputs| - 1]
      case Outside(action) => ActKeepsOrder(before, action);
      case ProcessEvent(drop, reactions) =>
        if before.pending != [] {
          BegunKeepsOrder(before, drop);
          ActAllKeepsOrder(Begun(before, drop), Following(before, reactions));
        }
    }
  }

  // ---- the order of events ----

  /** What has run and what waits, as one list, is in order. */
  predicate Ordered(w: World) { Sorted(w.executed + w.pending) }

  predicate AfterLast(executed: seq<Timed<Event>>, e: Timed<Event>)
  {
    executed == [] || Earlier(executed[|executed| - 1], e)
  }

  /** An event that was built earlier is only queued if it comes after the last event run. */
  predicate ActsAhead(w: World, action: Action)
  {
    action.Schedule? && action.which < |w.built| ==> AfterLast(w.executed, w.built[action.which])
  }

  predicate AllActAhead(w: World, actions: seq<Action>)
  {
    actions == [] || (AllActAhead(w, actions[..|actions| - 1]) &&
                      ActsAhead(ActAll(w, actions[..|actions| - 1]), actions[|actions| - 1]))
  }

  predicate StepsAhead(w: World, input: Input)
  {
    match input
    case ProcessEvent(drop, reactions) => w.pending == [] || AllActAhead(Begun(w, drop), Following(w, reactions))
    case Outside(action) => ActsAhead(w, action)
  }

  predicate RunsAhead(w: World, inputs: seq<Input>)
  {
    inputs == [] || (RunsAhead(w, inputs[..|inputs| - 1]) &&
                     StepsAhead(Run(w, inputs[..|inputs| - 1]), inputs[|inputs| - 1]))
  }

  /** The clock shows the time of the last event run, whose identifier is not the newest. */
  predicate Paced(w: World)
  {
    w.executed != [] ==> var last := w.executed[|w.executed| - 1]; w.now == last.time && last.id < w.nextEvent
  }

  lemma SortedSplit(a: seq<Timed<Event>>, b: seq<Timed<Event>>)
    ensures Sorted(a + b) <==> Sorted(a) && Sorted(b) && forall x, y :: x in a && y in b ==> Earlier(x, y)
  {
    var c := a + b;
    assert forall i :: 0 <= i < |a| ==> c[i] == a[i];
    assert forall i :: 0 <= i < |b| ==> c[|a| + i] == b[i];
    if Sorted(c) {
      forall x, y | x in a && y in b ensures Earlier(x, y) {
        var i :| 0 <= i < |a| && a[i] == x;
        var j :| 0 <= j < |b| && b[j] == y;
        assert Earlier(c[i], c[|a| + j]);
      }
      forall i, j | 0 <= i < j < |b| ensures Earlier(b[i], b[j]) {
        assert Earlier(c[|a| + i], c[|a| + j]);
      }
    }
    if Sorted(a) && Sorted(b) && forall x, y :: x in a && y in b ==> Earlier(x, y) {
      forall i, j | 0 <= i < j < |c| ensures Earlier(c[i], c[j]) {
        if i < |a| && j >= |a| {
          assert c[i] in a && c[j] in b;
        } else if i >= |a| {
          assert c[i] == b[i - |a|] && c[j] == b[j - |a|];
        }
      }
    }
  }

  /** Queueing one more event keeps the order exactly when it comes after the last event run. */
  lemma OrderedScheduled(executed: seq<Timed<Event>>, pending: seq<Timed<Event>>, e: Timed<Event>)
    requires Sorted(pending) && forall x :: x in pending ==> x.id != e.id
    ensures Sorted(executed + Scheduled(pending, e)) <==> Sorted(executed + pending) && AfterLast(executed, e)
  {
    SortedSplit(executed, pending);
    SortedSplit(executed, Scheduled(pending, e));
    ScheduledSorted(pending, e);
    if executed != [] { assert executed[|executed| - 1] in executed; }
    if Sorted(executed) && AfterLast(executed, e) {
      forall x | x in executed ensures Earlier(x, e) {
        var i :| 0 <= i < |executed| && executed[i] == x;
      }
    }
  }

  /** A packet is never due before the time it is sent, and its event is the newest. */
  lemma SendOrder(w: World, p: Packet, drop: bool)
    requires Coherent(w) && Paced(w)
    ensures var w' := SendThrough(w, p, drop).0;
      && w'.executed == w.executed && w'.now == w.now && w'.nextEvent >= w.nextEvent && (Ordered(w') <==> Ordered(w))
  {
    var next := GetNextHop(w.tables, p.current, p.destination);
    var i := FindUp(w.links, p.current, next);
    if next != -1 && 0 <= p.current < w.nodes && i != -1 {
      var l := w.links[i];
      if CanQueue(l, p.current, Other(l.wire, p.current)) {
        var t := Journey(l, p, w.now);
        var e := Timed(t.arrival, w.nextEvent, Arrival(Stamped(p, l.wire.id, t)));
        OrderedScheduled(w.executed, w.pending, e);
      }
    }
  }

  lemma ActOrder(w: World, action: Action)
    requires Inv(w) && Paced(w)
    ensures var w' := Act(w, action);
      && w'.executed == w.executed && Paced(w') && (Ordered(w') <==> Ordered(w) && ActsAhead(w, action))
  {
    match action
    case Send(source, destination, size, tag, drop) =>
      SendOrder(w, Packet(source, destination, source, -1, 0, 0, size, 0.0, 0.0, tag), drop);
    case Build(_, _) =>
    case Schedule(which) =>
      if which < |w.built| { OrderedScheduled(w.executed, w.pending, w.built[which]); }
    case Reshape(_, _) =>
  }

  lemma {:induction false} ActAllOrder(w: World, actions: seq<Action>)
    requires Inv(w) && Paced(w)
    ensures var w' := ActAll(w, actions);
      && w'.executed == w.executed && Paced(w') && (Ordered(w') <==> Ordered(w) && AllActAhead(w, actions))
  {
    if actions != [] {
      var before := actions[..|actions| - 1];
      ActAllOrder(w, before);
      ActAllKeepsInv(w, before);
      ActOrder(ActAll(w, before), actions[|actions| - 1]);
    }
  }

  /** Taking the head off moves it from what waits to what has run. */
  lemma PopOrder(w: World)
    requires Inv(w) && w.pending != []
    ensures Paced(Popped(w)) && (Ordered(Popped(w)) <==> Ordered(w))
  {
    assert w.pending[0] in w.pending;
    assert w.executed + w.pending == (w.executed + [w.pending[0]]) + w.pending[1..];
  }

  lemma ArriveOrder(w: World, p: Packet, drop: bool)
    requires Paced(w) && Coherent(Release(w, p))
    ensures var w' := Arrive(w, p, drop);
      && w'.executed == w.executed && Paced(w') && (Ordered(w') <==> Ordered(w))
  {
    if p.current != p.destination { SendOrder(Release(w, p), p, drop); }
  }

  lemma BegunOrder(w: World, drop: bool)
    requires Inv(w) && w.pending != []
    ensures Inv(Begun(w, drop)) && Begun(w, drop).executed == w.executed + [w.pending[0]] && Paced(Begun(w, drop))
    ensures Ordered(Begun(w, drop)) <==> Ordered(w)
  {
    PopOrder(w);
    match w.pending[0].event
    case Arrival(p) =>
      ArriveKeepsInv(w, p, drop);
      ReleaseKeepsCoherent(w, p);
      ArriveOrder(Popped(w), p, drop);
    case Reaction(_) => PopKeepsInv(w);
  }

  lemma StepOrder(w: World, input: Input)
    requires Inv(w) && Paced(w)
    ensures var w' := Step(w, input);
      && w.executed <= w'.executed && Paced(w') && (Ordered(w') <==> Ordered(w) && StepsAhead(w, input))
  {
    match input
    case Outside(action) => ActOrder(w, action);
    case ProcessEvent(drop, reactions) =>
      if w.pending != [] {
        BegunOrder(w, drop);
        ActAllOrder(Begun(w, drop), Following(w, reactions));
      }
  }

  /**
    Main result: what has run and what waits are in strict (timestamp, identifier) order if and only if every
    event that was queued later than it was built came after the last event run by then. Packets always do.
   */
  lemma {:induction false} EventsRunInOrder(w: World, inputs: seq<Input>)
    requires Initial(w)
    ensures var w' := Run(w, inputs); (Sorted(w'.executed + w'.pending) <==> RunsAhead(w, inputs)) && Paced(w')
  {
    if inputs != [] {
      var before := inputs[..|inputs| - 1];
      EventsRunInOrder(w, before);
      RunKeepsInv(w, before);
      StepOrder(Run(w, before), inputs[|inputs| - 1]);
    }
  }

  lemma {:induction false} RunExtends(w: World, inputs: seq<Input>, n: nat)
    requires Initial(w) && n <= |inputs|
    ensures Run(w, inputs[..n]).executed <= Run(w, inputs).executed
  {
    if n < |inputs| {
      var before := inputs[..|inputs| - 1];
      assert before[..n] == inputs[..n];
      RunExtends(w, before, n);
      RunKeepsInv(w, before);
      EventsRunInOrder(w, before);
      StepOrder(Run(w, before), inputs[|inputs| - 1]);
    } else {
      assert inputs[..n] == inputs;
    }
  }

  /** Of two ordered, paced states, the one that has run more shows the later time. */
  lemma LaterShowsLater(here: World, there: World)
    requires Paced(here) && Paced(there) && Ordered(there)
    requires here.executed != [] && here.executed <= there.executed
    ensures here.now <= there.now
  {
    var i, j := |here.executed| - 1, |there.executed| - 1;
    assert (there.executed + there.pending)[i] == here.executed[i];
    assert (there.executed + there.pending)[j] == there.executed[j];
  }

  /** So in such a run the clock, once an event has run, never moves back. */
  lemma {:induction false} ClockAdvances(w: World, inputs: seq<Input>, n: nat)
    requires Initial(w) && n <= |inputs| && RunsAhead(w, inputs)
    ensures Run(w, inputs[..n]).executed != [] ==> Run(w, inputs[..n]).now <= Run(w, inputs).now
  {
    RunExtends(w, inputs, n);
    EventsRunInOrder(w, inputs);
    EventsRunInOrder(w, inputs[..n]);
    if Run(w, inputs[..n]).executed != [] { LaterShowsLater(Run(w, inputs[..n]), Run(w, inputs)); }
  }

  /** A reaction built for a time and scheduled at once, as scheduleLinkFailure does, and the queue's head run. */
  function FailureAt(time: real): seq<Input>
  {
    [Outside(Build(time, 0)), Outside(Schedule(0)), ProcessEvent(false, [])]
  }

  lemma FailureRuns(w: World, time: real)
    requires w.pending == [] && w.built == []
    ensures var w' := Run(w, FailureAt(time));
      && w'.pending == [] && w'.built == [] && w'.now == time && w'.nextEvent == w.nextEvent + 1
      && w'.executed == w.executed + [Timed(time, w.nextEvent, Reaction(0))]
  {
    var inputs, e := FailureAt(time), Timed(time, w.nextEvent, Reaction(0));
    assert inputs[..2] == [inputs[0], inputs[1]] && inputs[..2][..1] == [inputs[0]] && [inputs[0]][..0] == [];
    var w1 := Act(w, Build(time, 0));
    assert Run(w, [inputs[0]]) == w1;
    assert w1.built == [e];
    assert Run(w, inputs[..2]) == Act(w1, Schedule(0));
    assert Act(w1, Schedule(0)).pending == [e];
  }

  lemma {:induction false} RunsJoin(w: World, a: seq<Input>, b: seq<Input>)
    ensures Run(w, a + b) == Run(Run(w, a), b)
  {
    if b == [] {
      assert a + b == a;
    } else {
      assert (a + b)[..|a + b| - 1] == a + b[..|b| - 1];
      RunsJoin(w, a, b[..|b| - 1]);
    }
  }

  /** A run after which something earlier has been executed last. */
  lemma Backwards(w: World, inputs: seq<Input>, x: Timed<Event>, y: Timed<Event>)
    requires Initial(w) && Run(w, inputs).executed == [x] + [y] && y.time < x.time
    ensures !Ordered(Run(w, inputs)) && !RunsAhead(w, inputs)
  {
    EventsRunInOrder(w, inputs);
    SortedSplit([x] + [y], Run(w, inputs).pending);
    SortedSplit([x], [y]);
    assert x in [x] && y in [y] && !Earlier(x, y);
  }

  /**
    Over any topology there is a run that is out of order: a failure scheduled for a time already past is accepted,
    runs after a later event, and takes the clock back.
   */
  lemma PastFailureBreaksOrder(w: World, later: real, earlier: real) returns (before: seq<Input>, inputs: seq<Input>)
    requires Initial(w) && earlier < later
    ensures before <= inputs && Run(w, before).now == later && Run(w, inputs).now == earlier
    ensures !Ordered(Run(w, inputs)) && !RunsAhead(w, inputs)
  {
    before := FailureAt(later);
    FailureRuns(w, later);
    var w1 := Run(w, before);
    var more := FailureAt(earlier);
    FailureRuns(w1, earlier);
    RunsJoin(w, before, more);
    inputs := before + more;
    Backwards(w, inputs, Timed(later, w.nextEvent, Reaction(0)), Timed(earlier, w1.nextEvent, Reaction(0)));
  }

  // ---- accounting ----

  /** Losses the code counts beyond the packet itself: a refusal at hop 0, or a second count further on. */
  function SendOver(w: World, p: Packet, drop: bool): nat
  {
    var next := GetNextHop(w.tables, p.current, p.destination);
    if next == -1 || p.current < 0 || p.current >= w.nodes then 0
    else
      var i := FindUp(w.links, p.current, next);
      if i == -1 || Other(w.links[i].wire, p.current) == -1 then 0
      else if !CanQueue(w.links[i], p.current, Other(w.links[i].wire, p.current)) then 1
      else if drop && p.hops > 0 then 1
      else 0
  }

  function ActOver(w: World, action: Action): nat
  {
    match action
    case Send(source, destination, size, tag, drop) =>
      SendOver(w, Packet(source, destination, source, -1, 0, 0, size, 0.0, 0.0, tag), drop)
    case _ => 0
  }

  function ActAllOver(w: World, actions: seq<Action>): nat
  {
    if actions == [] then 0
    else
      var before := actions[..|actions| - 1];
      ActAllOver(w, before) + ActOver(ActAll(w, before), actions[|actions| - 1])
  }

  function StepOver(w: World, input: Input): nat
  {
    match input
    case Outside(action) => ActOver(w, action)
    case ProcessEvent(drop, reactions) =>
      if w.pending == [] then 0
      else
        var e := w.pending[0].event;
        (if Reacts(e) then 0 else SendOver(Release(Popped(w), e.packet), e.packet, drop))
        + ActAllOver(Begun(w, drop), Following(w, reactions))
  }

  /** How often a run counted a loss that is not the one loss of a sent packet. */
  function RunOver(w: World, inputs: seq<Input>): nat
  {
    if inputs == [] then 0
    else
      var before := inputs[..|inputs| - 1];
      RunOver(w, before) + StepOver(Run(w, before), inputs[|inputs| - 1])
  }

  function Balance(w: World): int { w.delivered + |w.transit| + w.lost - w.sent }

  lemma SendBalance(w: World, p: Packet, drop: bool)
    ensures var (w', ok) := SendThrough(w, p, drop);
      Balance(w') == Balance(w) + SendOver(w, p, drop) + if ok && p.hops > 0 then 1 else 0
  {
  }

  lemma ActBalance(w: World, action: Action)
    ensures Balance(Act(w, action)) == Balance(w) + ActOver(w, action)
  {
    match action
    case Send(source, destination, size, tag, drop) =>
      SendBalance(w, Packet(source, destination, source, -1, 0, 0, size, 0.0, 0.0, tag), drop);
    case _ =>
  }

  lemma {:induction false} ActAllBalance(w: World, actions: seq<Action>)
    ensures Balance(ActAll(w, actions)) == Balance(w) + ActAllOver(w, actions)
  {
    if actions != [] {
      var before := actions[..|actions| - 1];
      ActAllBalance(w, before);
      ActBalance(ActAll(w, before), actions[|actions| - 1]);
    }
  }

  lemma StepBalance(w: World, input: Input)
    requires Inv(w)
    ensures Balance(Step(w, input)) == Balance(w) + StepOver(w, input)
  {
    match input
    case Outside(action) => ActBalance(w, action);
    case ProcessEvent(drop, reactions) =>
      if w.pending != [] {
        if w.pending[0].event.Arrival? {
          var p := w.pending[0].event.packet;
          ReleaseKeepsCoherent(w, p);
          SendBalance(Release(Popped(w), p), p, drop);
        }
        ActAllBalance(Begun(w, drop), Following(w, reactions));
      }
  }

  lemma {:induction false} RunBalance(w: World, inputs: seq<Input>)
    requires Initial(w)
    ensures Balance(Run(w, inputs)) == RunOver(w, inputs)
  {
    if inputs != [] {
      var before := inputs[..|inputs| - 1];
      RunBalance(w, before);
      RunKeepsInv(w, before);
      StepBalance(Run(w, before), inputs[|inputs| - 1]);
    }
  }

  /** Packets are conserved: exactly, once the surplus loss counts are named, and within bounds without them. */
  lemma {:induction false} PacketsAccounted(w: World, inputs: seq<Input>)
    requires Initial(w)
    ensures
      var w' := Run(w, inputs);
      && w'.sent + RunOver(w, inputs) == w'.delivered + |w'.transit| + w'.lost
      && w'.delivered + |w'.transit| <= w'.sent <= w'.delivered + |w'.transit| + w'.lost
  {
    RunKeepsInv(w, inputs);
    RunBalance(w, inputs);
  }

  /** The traffic verdict of SimulationEngine::validateSimulation. */
  predicate TrafficOk(w: World)
  {
    w.sent > 0 && w.delivered == w.sent && w.lost == 0 && w.transit == []
  }

  /** On a drained run the verdict says no more and no less than: something was sent and no loss was counted. */
  lemma {:induction false} VerdictMeansNoLoss(w: World, inputs: seq<Input>)
    requires Initial(w) && Run(w, inputs).pending == []
    ensures
      var w' := Run(w, inputs);
      TrafficOk(w') <==> w'.sent > 0 && w'.lost == 0
  {
    TransitAgrees(w, inputs);
    PacketsAccounted(w, inputs);
  }

  /**
    Why there is a surplus: whenever a link drops a packet it was forwarding, one packet leaves the wire and
    two losses are counted, so losses alone never say how many packets are missing.
   */
  lemma ForwardedDropCountsTwice(w: World, p: Packet, reactions: seq<Action>)
    requires Inv(w) && w.pending != [] && w.pending[0].event == Arrival(p) && p.current != p.destination
    requires
      var r, next := Release(Popped(w), p), GetNextHop(w.tables, p.current, p.destination);
      var i := FindUp(r.links, p.current, next);
      next != -1 && 0 <= p.current < w.nodes && i != -1 && CanQueue(r.links[i], p.current, next)
    ensures
      var w' := Step(w, ProcessEvent(true, reactions));
      && w'.lost == w.lost + 2 && w'.sent == w.sent && w'.delivered == w.delivered
      && |w'.transit| == |w.transit| - 1
      && StepOver(w, ProcessEvent(true, reactions)) == 1
  {
    ReleaseKeepsCoherent(w, p);
  }
}
