/**
  A link: when each direction is next free, and the transmissions still on the wire (core/src/network/Link.cpp).
 */
module Links {

  import opened Common
  import opened Wires

  datatype Slot = AB | BA | Shared | Invalid

  /** A point in time, or the infinity the code returns for a direction the link does not carry. */
  datatype Moment = At(time: real) | Never

  datatype Transmission = Transmission(from: int, to: int, departure: real, arrival: real)

  datatype LinkState = LinkState(
    wire: Wire, up: bool,
    busyAb: real, busyBa: real, busyShared: real,
    queueAb: seq<Transmission>, queueBa: seq<Transmission>, queueShared: seq<Transmission>)

  function StateWire(l: LinkState): Wire { l.wire }

  const QUEUE_CAPACITY := 32

  function NewLink(w: Wire): LinkState { LinkState(w, true, 0.0, 0.0, 0.0, [], [], []) }

  function DirectionSlot(w: Wire, from: int, to: int): Slot
  {
    if from == w.a && to == w.b then AB
    else if from == w.b && to == w.a then BA
    else Invalid
  }

  function QueueSlot(w: Wire, from: int, to: int): Slot
  {
    var direction := DirectionSlot(w, from, to);
    match w.mode
    case FullDuplex => direction
    case HalfDuplex => if direction == AB || direction == BA then Shared else Invalid
    case Simplex => if direction == AB then AB else Invalid
  }

  function QueueFor(l: LinkState, slot: Slot): seq<Transmission>
  {
    match slot
    case AB => l.queueAb
    case BA => l.queueBa
    case Shared => l.queueShared
    case Invalid => l.queueShared
  }

  function WithQueue(l: LinkState, slot: Slot, q: seq<Transmission>): LinkState
  {
    match slot
    case AB => l.(queueAb := q)
    case BA => l.(queueBa := q)
    case Shared => l.(queueShared := q)
    case Invalid => l.(queueShared := q)
  }

  function NextAvailable(l: LinkState, from: int, to: int, now: real): Moment
  {
    var slot := DirectionSlot(l.wire, from, to);
    match l.wire.mode
    case FullDuplex =>
      if slot == AB then At(MaxReal(now, l.busyAb))
      else if slot == BA then At(MaxReal(now, l.busyBa))
      else Never
    case HalfDuplex => if slot == Invalid then Never else At(MaxReal(now, l.busyShared))
    case Simplex => if slot != AB then Never else At(MaxReal(now, l.busyAb))
  }

  function Reserved(l: LinkState, from: int, to: int, until: real): LinkState
  {
    var slot := DirectionSlot(l.wire, from, to);
    match l.wire.mode
    case FullDuplex =>
      if slot == AB then l.(busyAb := MaxReal(l.busyAb, until))
      else if slot == BA then l.(busyBa := MaxReal(l.busyBa, until))
      else l
    case HalfDuplex => if slot != Invalid then l.(busyShared := MaxReal(l.busyShared, until)) else l
    case Simplex => if slot == AB then l.(busyAb := MaxReal(l.busyAb, until)) else l
  }

  predicate CanQueue(l: LinkState, from: int, to: int)
  {
    var slot := QueueSlot(l.wire, from, to);
    l.up &&
    match l.wire.mode
    case FullDuplex =>
      if slot == AB then |l.queueAb| < QUEUE_CAPACITY
      else if slot == BA then |l.queueBa| < QUEUE_CAPACITY
      else false
    case HalfDuplex => slot != Invalid && |l.queueShared| < QUEUE_CAPACITY
    case Simplex => slot == AB && |l.queueAb| < QUEUE_CAPACITY
  }

  function Enqueued(l: LinkState, t: Transmission): LinkState
  {
    if !CanQueue(l, t.from, t.to) then l
    else
      var slot := QueueSlot(l.wire, t.from, t.to);
      WithQueue(l, slot, QueueFor(l, slot) + [t])
  }

  function Dequeued(l: LinkState, t: Transmission): LinkState
  {
    var slot := QueueSlot(l.wire, t.from, t.to);
    if slot == Invalid then l else WithQueue(l, slot, WithoutFirst(QueueFor(l, slot), t))
  }

  // ---- one busy time per queue ----

  function BusyFor(l: LinkState, slot: Slot): real
  {
    match slot
    case AB => l.busyAb
    case BA => l.busyBa
    case Shared => l.busyShared
    case Invalid => l.busyShared
  }

  /**
    The code chooses the busy time and the queue by separate case analyses; in every mode they agree, so a
    slot's queue holds exactly the traffic its busy time was moved by.
   */
  lemma SlotsAgree(l: LinkState, from: int, to: int, now: real, until: real)
    ensures
      var slot := QueueSlot(l.wire, from, to);
      && NextAvailable(l, from, to, now) == (if slot == Invalid then Never else At(MaxReal(now, BusyFor(l, slot))))
      && (CanQueue(l, from, to) <==> l.up && slot != Invalid && |QueueFor(l, slot)| < 32)
      && var r := Reserved(l, from, to, until);
         && r == l.(busyAb := r.busyAb, busyBa := r.busyBa, busyShared := r.busyShared)
         && forall s: Slot :: s != Invalid ==>
              BusyFor(r, s) == if s == slot then MaxReal(BusyFor(l, s), until) else BusyFor(l, s)
  {
    var slot := QueueSlot(l.wire, from, to);
    match l.wire.mode {
      case FullDuplex => match slot { case AB => case BA => case Shared => case Invalid => }
      case HalfDuplex => match slot { case AB => case BA => case Shared => case Invalid => }
      case Simplex => match slot { case AB => case BA => case Shared => case Invalid => }
    }
  }

  lemma QueuesApart(l: LinkState, slot: Slot, q: seq<Transmission>, s: Slot)
    requires slot != Invalid && s != Invalid
    ensures QueueFor(WithQueue(l, slot, q), s) == if s == slot then q else QueueFor(l, s)
    ensures BusyFor(WithQueue(l, slot, q), s) == BusyFor(l, s)
  {
  }

  // ---- the wire is used one transmission at a time ----

  /** First in, first out, and never two at once: each departs no sooner than the one before arrived. */
  predicate InOrder(q: seq<Transmission>)
  {
    && (forall i :: 0 <= i < |q| ==> q[i].departure <= q[i].arrival)
    && forall i, j :: 0 <= i < j < |q| ==> q[i].arrival <= q[j].departure
  }

  predicate SaneSlot(l: LinkState, slot: Slot)
  {
    var q := QueueFor(l, slot);
    && InOrder(q) && |q| <= QUEUE_CAPACITY
    && (forall i :: 0 <= i < |q| ==> q[i].arrival <= BusyFor(l, slot))
    && forall i :: 0 <= i < |q| ==> QueueSlot(l.wire, q[i].from, q[i].to) == slot
  }

  predicate Sane(l: LinkState)
  {
    forall slot: Slot :: slot != Invalid ==> SaneSlot(l, slot)
  }

  /** A transmission that leaves when the link says it is free and takes some time, recorded as sendPacket does. */
  function Carried(l: LinkState, t: Transmission): LinkState
  {
    Enqueued(Reserved(l, t.from, t.to, t.arrival), t)
  }

  predicate Timely(l: LinkState, t: Transmission, now: real)
  {
    NextAvailable(l, t.from, t.to, now) == At(t.departure) && t.departure <= t.arrival
  }

  lemma ReserveKeepsSane(l: LinkState, from: int, to: int, until: real)
    requires Sane(l)
    ensures Sane(Reserved(l, from, to, until))
    ensures Reserved(l, from, to, until).wire == l.wire
    ensures forall s: Slot :: QueueFor(Reserved(l, from, to, until), s) == QueueFor(l, s)
  {
    SlotsAgree(l, from, to, 0.0, until);
    var r := Reserved(l, from, to, until);
    forall slot: Slot | slot != Invalid ensures SaneSlot(r, slot) {
      assert SaneSlot(l, slot);
      assert QueueFor(r, slot) == QueueFor(l, slot);
    }
  }

  /** Appending to one slot's queue keeps that slot in order and touches no other. */
  lemma AppendKeepsSane(l: LinkState, slot: Slot, t: Transmission)
    requires Sane(l) && slot != Invalid && QueueSlot(l.wire, t.from, t.to) == slot
    requires |QueueFor(l, slot)| < QUEUE_CAPACITY && t.departure <= t.arrival <= BusyFor(l, slot)
    requires forall i :: 0 <= i < |QueueFor(l, slot)| ==> QueueFor(l, slot)[i].arrival <= t.departure
    ensures Sane(WithQueue(l, slot, QueueFor(l, slot) + [t]))
  {
    var after := WithQueue(l, slot, QueueFor(l, slot) + [t]);
    forall s: Slot | s != Invalid ensures SaneSlot(after, s) {
      QueuesApart(l, slot, QueueFor(l, slot) + [t], s);
      assert SaneSlot(l, s);
    }
  }

  /** A new transmission goes last in its own slot's queue and leaves the other slots alone. */
  lemma CarryKeepsSane(l: LinkState, t: Transmission, now: real)
    requires Sane(l) && CanQueue(l, t.from, t.to) && Timely(l, t, now)
    ensures
      var slot := QueueSlot(l.wire, t.from, t.to);
      && Sane(Carried(l, t)) && Carried(l, t).wire == l.wire && slot != Invalid
      && (forall s: Slot :: s != Invalid ==>
            QueueFor(Carried(l, t), s) == QueueFor(l, s) + if s == slot then [t] else [])
      && forall i :: 0 <= i < |QueueFor(l, slot)| ==> QueueFor(l, slot)[i].arrival <= t.departure
  {
    SlotsAgree(l, t.from, t.to, now, t.arrival);
    ReserveKeepsSane(l, t.from, t.to, t.arrival);
    var r, slot := Reserved(l, t.from, t.to, t.arrival), QueueSlot(l.wire, t.from, t.to);
    assert CanQueue(r, t.from, t.to) by { SlotsAgree(r, t.from, t.to, now, t.arrival); }
    assert SaneSlot(l, slot);
    AppendKeepsSane(r, slot, t);
    forall s: Slot | s != Invalid
      ensures QueueFor(Carried(l, t), s) == QueueFor(l, s) + if s == slot then [t] else []
    {
      QueuesApart(r, slot, QueueFor(r, slot) + [t], s);
    }
  }

  /** Releasing the head of a queue leaves the rest of it, and the other queues, as they were. */
  lemma ReleaseHead(l: LinkState, t: Transmission)
    requires Sane(l)
    requires var slot := QueueSlot(l.wire, t.from, t.to);
      slot != Invalid && QueueFor(l, slot) != [] && QueueFor(l, slot)[0] == t
    ensures
      var slot := QueueSlot(l.wire, t.from, t.to);
      && Sane(Dequeued(l, t)) && Dequeued(l, t).wire == l.wire
      && forall s: Slot :: s != Invalid ==>
           QueueFor(Dequeued(l, t), s) == if s == slot then QueueFor(l, s)[1..] else QueueFor(l, s)
  {
    var slot := QueueSlot(l.wire, t.from, t.to);
    forall s: Slot | s != Invalid
      ensures SaneSlot(Dequeued(l, t), s)
      ensures QueueFor(Dequeued(l, t), s) == if s == slot then QueueFor(l, s)[1..] else QueueFor(l, s)
    {
      QueuesApart(l, slot, QueueFor(l, slot)[1..], s);
      assert SaneSlot(l, s);
    }
  }

  // ---- the object ----

  class Link {
    const wire: Wire
    var up: bool
    var busyAb: real
    var busyBa: real
    var busyShared: real
    var queueAb: seq<Transmission>
    var queueBa: seq<Transmission>
    var queueShared: seq<Transmission>

    function State(): LinkState
      reads this
    {
      LinkState(wire, up, busyAb, busyBa, busyShared, queueAb, queueBa, queueShared)
    }

    constructor (w: Wire)
      ensures State() == NewLink(w)
    {
      wire, up := w, true;
      busyAb, busyBa, busyShared := 0.0, 0.0, 0.0;
      queueAb, queueBa, queueShared := [], [], [];
    }

    method SetUp(value: bool)
      modifies this
      ensures State() == old(State()).(up := value)
    {
      up := value;
    }

    method ReserveTransmission(from: int, to: int, until: real)
      modifies this
      ensures State() == Reserved(old(State()), from, to, until)
    {
      var slot := DirectionSlot(wire, from, to);
      match wire.mode {
        case FullDuplex =>
          if slot == AB {
            busyAb := MaxReal(busyAb, until);
          } else if slot == BA {
            busyBa := MaxReal(busyBa, until);
          }
        case HalfDuplex =>
          if slot != Invalid {
            busyShared := MaxReal(busyShared, until);
          }
        case Simplex =>
          if slot == AB {
            busyAb := MaxReal(busyAb, until);
          }
      }
    }

    method EnqueueTransmission(t: Transmission)
      modifies this
      ensures State() == Enqueued(old(State()), t)
    {
      if CanQueue(State(), t.from, t.to) {
        match QueueSlot(wire, t.from, t.to) {
          case AB => queueAb := queueAb + [t];
          case BA => queueBa := queueBa + [t];
          case Shared => queueShared := queueShared + [t];
          case Invalid =>
        }
      }
    }

    /** True exactly when an entry was found; only the oldest match goes. */
    method DequeueTransmission(t: Transmission) returns (found: bool)
      modifies this
      ensures State() == Dequeued(old(State()), t)
      ensures found == (QueueSlot(wire, t.from, t.to) != Invalid &&
                        t in QueueFor(old(State()), QueueSlot(wire, t.from, t.to)))
    {
      var slot := QueueSlot(wire, t.from, t.to);
      if slot == Invalid { return false; }
      var q := QueueFor(State(), slot);
      var i := 0;
      while i < |q| && q[i] != t
        invariant 0 <= i <= |q| && t !in q[..i]
      {
        i := i + 1;
      }
      WithoutFirstAt(q, t, i);
      if i == |q| { return false; }
      var rest := q[..i] + q[i + 1..];
      match slot {
        case AB => queueAb := rest;
        case BA => queueBa := rest;
        case Shared => queueShared := rest;
        case Invalid =>
      }
      found := true;
    }
  }

  function LinkWire(l: Link): Wire { l.wire }
}
