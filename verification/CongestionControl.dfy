/**
  Window control: Tahoe, Reno and NewReno (the congestion directory; RFC 5681 sections 3.1 and 3.2,
  RFC 6582 section 3.2). Every addition that the source performs on 32-bit words is written
  with Wrap, so that the absence of wrap-around is something proved here and not assumed.
 */
module CongestionControl {
  import opened Arithmetic
  import opened Common
  import opened Word32

  datatype Algorithm = Tahoe | Reno | NewReno

  datatype Control = Control(
    algorithm: Algorithm,
    mss: u32,
    initialSsthresh: u32,
    cwnd: u32,
    ssthresh: u32,
    recoverySsthresh: u32,
    fastRecovery: bool,
    partialAckObserved: bool)

  /** The calls of the CongestionControl interface. */
  datatype Op =
    | Ack(bytes: u32)
    | Loss
    | FastRetransmit(flight: u32)
    | DuplicateAck
    | RecoveryAck(bytes: u32, complete: bool)
    | Restart

  datatype Refusal = InvalidArgument

  /** What the windows keep whenever three segments fit in a 32-bit word. */
  predicate Sound(c: Control)
  {
    && 1 <= c.mss && 3 * c.mss <= MAX_WORD
    && c.mss <= c.cwnd
    && 2 * c.mss <= c.ssthresh
    && (c.algorithm.NewReno? && c.fastRecovery ==> c.recoverySsthresh == c.ssthresh)
    && (c.algorithm.Tahoe? ==> !c.fastRecovery)
  }

  /** Nothing the handlers do divides by zero; Tahoe has no recovery phase. */
  predicate Defined(c: Control)
  {
    1 <= c.mss && 1 <= c.cwnd && (c.algorithm.Tahoe? ==> !c.fastRecovery)
  }

  type Controller = c: Control | Defined(c)
    witness Control(Reno, 1, 2, 1, 2, 0, false, false)

  function Create(algorithm: Algorithm, mss: u32, initialSsthresh: u32): (r: Result<Control, Refusal>)
    ensures r.Err? <==> mss == 0
    ensures r.Ok? ==> Defined(r.value)
    ensures r.Ok? && 3 * mss <= MAX_WORD ==> Sound(r.value)
  {
    if mss == 0 then Err(InvalidArgument)
    else Ok(Control(algorithm, mss, initialSsthresh, mss, Max(initialSsthresh, Wrap(2 * mss)), 0, false, false))
  }

  /** Saturating addition, as every handler writes it. */
  function Saturate(x: u32, increase: u32): (r: u32)
    ensures r == Min(MAX_WORD, x + increase)
  {
    if x > Wrap(MAX_WORD - increase) then MAX_WORD else Wrap(x + increase)
  }

  /** Slow start below ssthresh, congestion avoidance from ssthresh on. */
  function Grown(cwnd: u32, ssthresh: u32, mss: u32, bytes: u32): (r: u32)
    requires cwnd >= 1
    ensures cwnd <= r && (1 <= mss <= cwnd ==> r <= cwnd + mss)
    ensures cwnd < ssthresh ==> r == Min(MAX_WORD, cwnd + Min(bytes, mss))
    ensures cwnd >= ssthresh ==> r == Min(MAX_WORD, cwnd + Max(1, mss * mss / cwnd))
  {
    if cwnd < ssthresh then Saturate(cwnd, Min(bytes, mss))
    else
      AvoidanceStep(mss, cwnd);
      var increase := Max(1, mss * mss / cwnd);
      if increase >= MAX_WORD - cwnd then MAX_WORD else Wrap(cwnd + increase)
  }

  lemma AvoidanceStep(mss: nat, cwnd: nat)
    requires cwnd >= 1
    ensures 1 <= mss <= cwnd ==> 1 <= Max(1, mss * mss / cwnd) <= mss
  {
    if 1 <= mss <= cwnd { AvoidanceBound(mss, cwnd); }
  }

  lemma AvoidanceBound(mss: nat, cwnd: nat)
    requires 1 <= mss <= cwnd
    ensures 1 <= Max(1, mss * mss / cwnd) <= mss
  {
    MulMonotone(mss, cwnd, mss);
    assert cwnd * (mss + 1) == cwnd * mss + cwnd;
    DivBound(mss * mss, cwnd, mss);
  }

  function OnAck(c: Control, bytes: u32): (r: Control)
    requires c.cwnd >= 1
    ensures (Sound(c) ==> Sound(r)) && (Defined(c) ==> Defined(r))
    ensures c.cwnd <= r.cwnd && (1 <= c.mss <= c.cwnd ==> r.cwnd <= c.cwnd + c.mss)
    ensures r == c.(cwnd := r.cwnd)
    ensures c.algorithm.NewReno? && c.fastRecovery ==> r == c
  {
    if bytes == 0 then c
    else if c.algorithm.NewReno? && c.fastRecovery then c
    else c.(cwnd := Grown(c.cwnd, c.ssthresh, c.mss, bytes))
  }

  function OnLoss(c: Control): (r: Control)
    ensures (Sound(c) ==> Sound(r)) && (Defined(c) ==> Defined(r))
    ensures r.cwnd == c.mss && (c.algorithm.Tahoe? || !r.fastRecovery)
    ensures Sound(c) ==>
      r.ssthresh == if c.algorithm.NewReno? && c.fastRecovery then c.ssthresh else Max(2 * c.mss, c.cwnd / 2)
  {
    var floor := Wrap(2 * c.mss);
    match c.algorithm
    case Tahoe => c.(ssthresh := Max(floor, c.cwnd / 2), cwnd := c.mss)
    case Reno => c.(ssthresh := Max(floor, c.cwnd / 2), cwnd := c.mss, fastRecovery := false)
    case NewReno =>
      c.(ssthresh := if c.fastRecovery then Max(floor, c.recoverySsthresh) else Max(floor, c.cwnd / 2),
         cwnd := c.mss, fastRecovery := false, partialAckObserved := false)
  }

  function OnFastRetransmit(c: Control, flight: u32): (r: Control)
    ensures (Sound(c) ==> Sound(r)) && (Defined(c) ==> Defined(r))
    ensures !c.algorithm.Tahoe? ==> r.fastRecovery
    ensures c.algorithm.Tahoe? && Sound(c) ==> r == c.(cwnd := c.mss, ssthresh := Max(2 * c.mss, c.cwnd / 2))
    ensures !c.algorithm.Tahoe? && 3 * c.mss <= MAX_WORD ==>
      && r.ssthresh == Max(2 * c.mss, flight / 2)
      && r.cwnd == Min(MAX_WORD, r.ssthresh + 3 * c.mss)
  {
    var ssthresh := Max(Wrap(2 * c.mss), flight / 2);
    var inflated := Saturate(ssthresh, Wrap(3 * c.mss));
    match c.algorithm
    case Tahoe => OnLoss(c)
    case Reno => c.(ssthresh := ssthresh, cwnd := inflated, fastRecovery := true)
    case NewReno =>
      c.(ssthresh := ssthresh, recoverySsthresh := ssthresh, cwnd := inflated,
         fastRecovery := true, partialAckObserved := false)
  }

  function OnDuplicateAck(c: Control): (r: Control)
    ensures (Sound(c) ==> Sound(r)) && (Defined(c) ==> Defined(r))
    ensures r.cwnd == if c.fastRecovery && !c.algorithm.Tahoe? then Min(MAX_WORD, c.cwnd + c.mss) else c.cwnd
  {
    if c.algorithm.Tahoe? || !c.fastRecovery then c
    else c.(cwnd := Saturate(c.cwnd, c.mss))
  }

  /** A partial acknowledgement deflates the window by what it covers and gives one segment back. */
  function Deflated(cwnd: u32, mss: u32, bytes: u32): (r: u32)
    requires mss >= 1
    ensures mss <= r <= Max(cwnd, 2 * mss)
    ensures r == if bytes >= cwnd then (if bytes >= mss then Min(MAX_WORD, 2 * mss) else mss)
                 else if bytes >= mss then cwnd - bytes + mss
                 else Max(mss, cwnd - bytes)
  {
    var shrunk: u32 := if bytes >= cwnd then mss else Wrap(cwnd - bytes);
    var restored := if bytes >= mss then Saturate(shrunk, mss) else shrunk;
    if restored < mss then mss else restored
  }

  function OnRecoveryAck(c: Control, bytes: u32, complete: bool): (r: Control)
    requires c.mss >= 1
    ensures Sound(c) ==> Sound(r)
    ensures r.cwnd <= Max(Max(c.cwnd, 2 * c.mss), c.ssthresh)
    ensures !c.algorithm.Tahoe? ==> (r.fastRecovery <==> c.fastRecovery && !complete)
    ensures !c.algorithm.Tahoe? && c.fastRecovery && complete ==> r.cwnd == c.ssthresh
    ensures !c.algorithm.NewReno? && !complete ==> r == c
    ensures Defined(c) ==> (Defined(r) <==> !(c.fastRecovery && complete && c.ssthresh == 0))
  {
    if c.algorithm.Tahoe? || !c.fastRecovery then c
    else if complete then c.(cwnd := c.ssthresh, fastRecovery := false,
                             partialAckObserved := if c.algorithm.NewReno? then false else c.partialAckObserved)
    else if c.algorithm.Reno? || bytes == 0 then c
    else c.(cwnd := Deflated(c.cwnd, c.mss, bytes), partialAckObserved := true)
  }

  function Restarted(c: Control): (r: Control)
    requires c.mss >= 1
    ensures (Sound(c) ==> Sound(r)) && (Defined(c) ==> Defined(r))
    ensures Create(c.algorithm, c.mss, c.initialSsthresh) == Ok(r)
            || (c.algorithm != NewReno && (c.recoverySsthresh != 0 || c.partialAckObserved))
  {
    var restarted := c.(cwnd := c.mss, ssthresh := Max(c.initialSsthresh, Wrap(2 * c.mss)), fastRecovery := false);
    if c.algorithm.NewReno? then restarted.(partialAckObserved := false, recoverySsthresh := 0) else restarted
  }

  function Apply(c: Control, op: Op): (r: Control)
    requires c.mss >= 1 && (op.Ack? ==> c.cwnd >= 1)
    ensures r.mss == c.mss && r.algorithm == c.algorithm
    ensures Sound(c) ==> Sound(r)
  {
    match op
    case Ack(n) => OnAck(c, n)
    case Loss => OnLoss(c)
    case FastRetransmit(f) => OnFastRetransmit(c, f)
    case DuplicateAck => OnDuplicateAck(c)
    case RecoveryAck(n, complete) => OnRecoveryAck(c, n, complete)
    case Restart => Restarted(c)
  }

  /** Any segment size but half of 2^32 keeps both windows away from zero. */
  predicate Workable(c: Control)
  {
    Defined(c) && c.mss != 0x8000_0000 && 1 <= c.ssthresh
  }

  lemma ApplyKeepsWorkable(c: Control, op: Op)
    requires Workable(c)
    ensures Workable(Apply(c, op))
  {
    match op
    case Ack(n) => assert OnAck(c, n) == c.(cwnd := OnAck(c, n).cwnd);
    case Loss =>
    case FastRetransmit(f) =>
    case DuplicateAck =>
    case RecoveryAck(n, complete) =>
    case Restart =>
  }

  function After(c: Control, ops: seq<Op>): (r: Control)
    requires Workable(c)
    ensures Workable(r) && (Sound(c) ==> Sound(r))
    ensures r.mss == c.mss && r.algorithm == c.algorithm
  {
    if ops == [] then c
    else
      ApplyKeepsWorkable(After(c, ops[..|ops| - 1]), ops[|ops| - 1]);
      Apply(After(c, ops[..|ops| - 1]), ops[|ops| - 1])
  }

  /** Main result: over every call sequence the windows keep their floors and the algorithm its parameters. */
  lemma {:induction false} WindowsKeepTheirFloors(algorithm: Algorithm, mss: u32, initial: u32, ops: seq<Op>)
    requires mss >= 1 && 3 * mss <= MAX_WORD
    ensures var c := After(Create(algorithm, mss, initial).value, ops);
      && c.mss == mss <= c.cwnd && 2 * mss <= c.ssthresh && c.algorithm == algorithm
      && (algorithm.NewReno? && c.fastRecovery ==> c.recoverySsthresh == c.ssthresh)
  {
    if ops != [] {
      WindowsKeepTheirFloors(algorithm, mss, initial, ops[..|ops| - 1]);
    }
  }

  /** For every segment size but 0 and 2^31 no call sequence ever divides by zero. */
  lemma NeverDividesByZero(algorithm: Algorithm, mss: u32, initial: u32, ops: seq<Op>)
    requires mss != 0 && mss != 0x8000_0000
    ensures After(Create(algorithm, mss, initial).value, ops).cwnd >= 1
  {
    var c := Create(algorithm, mss, initial).value;
    assert Workable(c);
  }

  /** A recovery that ends with nothing in flight leaves a window of zero exactly for segments of 2^31 bytes. */
  lemma RecoveryEndsAtZeroIff(c: Control, flight: u32, bytes: u32)
    requires Defined(c) && !c.algorithm.Tahoe?
    ensures OnRecoveryAck(OnFastRetransmit(c, flight), bytes, true).cwnd == 0 <==> c.mss == 0x8000_0000 && flight < 2
  {
  }

  /** The window after k acknowledgements of some size each. */
  function Acked(c: Control, bytes: u32, k: nat): (r: Control)
    requires Sound(c)
    ensures Sound(r)
  {
    if k == 0 then c else OnAck(Acked(c, bytes, k - 1), bytes)
  }

  lemma AckedGrows(c: Control, bytes: u32)
    requires Sound(c) && bytes >= 1 && c.cwnd < c.ssthresh && !(c.algorithm.NewReno? && c.fastRecovery)
    requires c.cwnd + Min(bytes, c.mss) <= MAX_WORD
    ensures OnAck(c, bytes) == c.(cwnd := c.cwnd + Min(bytes, c.mss))
  {
  }

  /**
    Slow start (RFC 5681 section 3.1): below ssthresh every acknowledgement adds what it acknowledges, but no more than
    a segment; so k full acknowledgements add k segments, and a window of them doubles the window.
   */
  lemma {:induction false} SlowStart(c: Control, bytes: u32, k: nat)
    requires Sound(c) && bytes >= 1 && !(c.algorithm.NewReno? && c.fastRecovery)
    requires c.cwnd + Times(k, Min(bytes, c.mss)) <= c.ssthresh
    ensures Acked(c, bytes, k) == c.(cwnd := c.cwnd + Times(k, Min(bytes, c.mss)))
    ensures bytes >= c.mss && k * c.mss == c.cwnd ==> Acked(c, bytes, k).cwnd == 2 * c.cwnd
  {
    if k > 0 {
      SlowStart(c, bytes, k - 1);
      AckedGrows(Acked(c, bytes, k - 1), bytes);
    }
    TimesIsProduct(k, Min(bytes, c.mss));
  }

  predicate InAvoidance(c: Control)
  {
    Sound(c) && c.cwnd >= c.ssthresh && !(c.algorithm.NewReno? && c.fastRecovery)
  }

  /** What one acknowledgement adds at a window of w bytes. */
  function Increment(mss: nat, w: nat): nat
    requires w >= 1
  {
    Max(1, mss * mss / w)
  }

  /** The window alone, after k acknowledgements. */
  function Windows(mss: nat, w: nat, k: nat): (r: nat)
    requires 1 <= w <= MAX_WORD
    ensures w <= r <= MAX_WORD
  {
    if k == 0 then w
    else var v := Windows(mss, w, k - 1); Min(MAX_WORD, v + Increment(mss, v))
  }

  lemma {:induction false} AvoidingWindows(c: Control, k: nat)
    requires InAvoidance(c)
    ensures Acked(c, 1, k) == c.(cwnd := Windows(c.mss, c.cwnd, k)) && InAvoidance(Acked(c, 1, k))
  {
    if k > 0 { AvoidingWindows(c, k - 1); }
  }

  lemma {:induction false} WindowGrowth(mss: nat, w: nat, k: nat, step: nat)
    requires 1 <= w <= MAX_WORD && step == Increment(mss, w)
    ensures Min(MAX_WORD, w + k) <= Windows(mss, w, k) <= w + Times(k, step)
    ensures step == 1 ==> Windows(mss, w, k) == Min(MAX_WORD, w + k)
  {
    if k > 0 {
      WindowGrowth(mss, w, k - 1, step);
      DivAntitone(mss * mss, w, Windows(mss, w, k - 1));
    }
  }

  /**
    Main result: one window's worth of acknowledgements, floor(cwnd / mss) of them, adds at most one
    segment (RFC 5681 section 3.1) exactly when cwnd / mss <= mss, or the window is within a segment of
    the largest 32-bit number. Otherwise the increment of at least one byte per acknowledgement adds more.
   */
  lemma {:induction false} OneSegmentPerRoundTrip(c: Control)
    requires InAvoidance(c)
    ensures Acked(c, 1, c.cwnd / c.mss).cwnd - c.cwnd <= c.mss <==>
              c.cwnd / c.mss <= c.mss || MAX_WORD - c.cwnd <= c.mss
  {
    AvoidingWindows(c, c.cwnd / c.mss);
    WindowGrowth(c.mss, c.cwnd, c.cwnd / c.mss, Increment(c.mss, c.cwnd));
    TimesIsProduct(c.cwnd / c.mss, Increment(c.mss, c.cwnd));
    RoundTripProduct(c.mss, c.cwnd, c.cwnd / c.mss, Increment(c.mss, c.cwnd));
  }

  /** With k acknowledgements, each worth s bytes: a segment at most, or one byte each. */
  lemma RoundTripProduct(m: nat, w: nat, k: nat, s: nat)
    requires 1 <= m <= w && k == w / m && s == Increment(m, w)
    ensures w <= m * m ==> k * s <= m && k <= m
    ensures w > m * m ==> s == 1
  {
    DivBound(m * m, w, 0);
    if w <= m * m {
      assert w < m * (m + 1) by { assert m * (m + 1) == m * m + m; }
      DivBound(w, m, m);
      DivBound(m * m, w, s);
      ProductChain(k, s, m, w);
    }
  }

  /** The calls of one fast recovery: k more duplicates, and the acknowledgement that ends it. */
  function Recovery(flight: u32, k: nat): seq<Op>
  {
    if k == 0 then [FastRetransmit(flight)] else Recovery(flight, k - 1) + [DuplicateAck]
  }

  lemma RecoveryGoesOn(c: Control, flight: u32, k: nat)
    requires Workable(c)
    ensures After(c, Recovery(flight, k))
         == if k == 0 then OnFastRetransmit(c, flight) else OnDuplicateAck(After(c, Recovery(flight, k - 1)))
  {
    var ops := Recovery(flight, k);
    if k == 0 { assert ops[..|ops| - 1] == []; } else { assert ops[..|ops| - 1] == Recovery(flight, k - 1); }
  }

  /** In recovery with some threshold, after k duplicates. */
  predicate Recovering(c: Control, mss: u32, algorithm: Algorithm, half: u32, k: nat)
  {
    && c.mss == mss && c.algorithm == algorithm && c.fastRecovery && c.ssthresh == half
    && c.cwnd == Min(MAX_WORD, half + 3 * mss + Times(k, mss))
  }

  lemma EntersRecovery(c: Control, flight: u32)
    requires Sound(c) && !c.algorithm.Tahoe?
    ensures Recovering(OnFastRetransmit(c, flight), c.mss, c.algorithm, Max(2 * c.mss, flight / 2), 0)
  {
  }

  lemma StaysInRecovery(c: Control, mss: u32, algorithm: Algorithm, half: u32, k: nat)
    requires Recovering(c, mss, algorithm, half, k) && !algorithm.Tahoe?
    ensures Recovering(OnDuplicateAck(c), mss, algorithm, half, k + 1)
  {
  }

  /** The acknowledgement of everything leaves half of what was in flight. */
  lemma LeavesRecovery(c: Control, mss: u32, algorithm: Algorithm, half: u32, k: nat, bytes: u32)
    requires Recovering(c, mss, algorithm, half, k) && !algorithm.Tahoe? && mss >= 1
    ensures OnRecoveryAck(c, bytes, true).cwnd == half && !OnRecoveryAck(c, bytes, true).fastRecovery
  {
  }

  lemma {:induction false} Recovers(c: Control, flight: u32, k: nat)
    requires Sound(c) && Workable(c) && !c.algorithm.Tahoe?
    ensures Recovering(After(c, Recovery(flight, k)), c.mss, c.algorithm, Max(2 * c.mss, flight / 2), k)
  {
    RecoveryGoesOn(c, flight, k);
    if k == 0 {
      EntersRecovery(c, flight);
    } else {
      Recovers(c, flight, k - 1);
      StaysInRecovery(After(c, Recovery(flight, k - 1)), c.mss, c.algorithm, Max(2 * c.mss, flight / 2), k - 1);
    }
  }

  /**
    Fast recovery (RFC 5681 section 3.2, RFC 6582 section 3.2): the window is half of what was in flight, three segments,
    and one for every further duplicate; when everything is acknowledged it is half of what was in flight.
   */
  lemma FastRecovery(c: Control, flight: u32, k: nat, bytes: u32)
    requires Sound(c) && Workable(c) && !c.algorithm.Tahoe?
    ensures var half, r := Max(2 * c.mss, flight / 2), After(c, Recovery(flight, k));
      && Recovering(r, c.mss, c.algorithm, half, k)
      && OnRecoveryAck(r, bytes, true).cwnd == half && !OnRecoveryAck(r, bytes, true).fastRecovery
  {
    Recovers(c, flight, k);
    LeavesRecovery(After(c, Recovery(flight, k)), c.mss, c.algorithm, Max(2 * c.mss, flight / 2), k, bytes);
  }

  /** TahoeCongestionControl. */
  class TahoeCongestionControl {
    const mss: u32
    const initialSsthresh: u32
    var cwnd: u32
    var ssthresh: u32

    function State(): Control
      reads this
    {
      Control(Tahoe, mss, initialSsthresh, cwnd, ssthresh, 0, false, false)
    }

    constructor (mss: u32, initialSsthresh: u32)
      requires mss != 0
      ensures Create(Tahoe, mss, initialSsthresh) == Ok(State())
    {
      this.mss, this.initialSsthresh := mss, initialSsthresh;
      cwnd, ssthresh := mss, Max(initialSsthresh, Wrap(2 * mss));
    }

    method OnAck(bytes: u32)
      requires Defined(State())
      modifies this
      ensures State() == Apply(old(State()), Ack(bytes))
    {
      if bytes == 0 { return; }
      if cwnd < ssthresh {
        cwnd := Saturate(cwnd, Min(bytes, mss));
        return;
      }
      AvoidanceStep(mss, cwnd);
      var increase := Max(1, mss * mss / cwnd);
      if increase >= MAX_WORD - cwnd {
        cwnd := MAX_WORD;
      } else {
        cwnd := Wrap(cwnd + increase);
      }
    }

    method OnLoss()
      requires Defined(State())
      modifies this
      ensures State() == Apply(old(State()), Loss)
      ensures State() == Apply(old(State()), FastRetransmit(0))
    {
      var reduced := cwnd / 2;
      ssthresh := Max(Wrap(2 * mss), reduced);
      cwnd := mss;
    }

    method Reset()
      requires Defined(State())
      modifies this
      ensures State() == Apply(old(State()), Restart)
    {
      cwnd := mss;
      ssthresh := Max(initialSsthresh, Wrap(2 * mss));
    }
  }

  /** RenoCongestionControl. */
  class RenoCongestionControl {
    const mss: u32
    const initialSsthresh: u32
    var cwnd: u32
    var ssthresh: u32
    var fastRecovery: bool

    function State(): Control
      reads this
    {
      Control(Reno, mss, initialSsthresh, cwnd, ssthresh, 0, fastRecovery, false)
    }

    constructor (mss: u32, initialSsthresh: u32)
      requires mss != 0
      ensures Create(Reno, mss, initialSsthresh) == Ok(State())
    {
      this.mss, this.initialSsthresh := mss, initialSsthresh;
      cwnd, ssthresh, fastRecovery := mss, Max(initialSsthresh, Wrap(2 * mss)), false;
    }

    method OnAck(bytes: u32)
      requires Defined(State())
      modifies this
      ensures State() == Apply(old(State()), Ack(bytes))
    {
      if bytes == 0 { return; }
      if cwnd < ssthresh {
        cwnd := Saturate(cwnd, Min(bytes, mss));
        return;
      }
      AvoidanceStep(mss, cwnd);
      var increase := Max(1, mss * mss / cwnd);
      if increase >= MAX_WORD - cwnd {
        cwnd := MAX_WORD;
      } else {
        cwnd := Wrap(cwnd + increase);
      }
    }

    method OnLoss()
      requires Defined(State())
      modifies this
      ensures State() == Apply(old(State()), Loss)
    {
      ssthresh := Max(Wrap(2 * mss), cwnd / 2);
      cwnd := mss;
      fastRecovery := false;
    }

    method OnFastRetransmit(flight: u32)
      requires Defined(State())
      modifies this
      ensures State() == Apply(old(State()), FastRetransmit(flight))
    {
      var reduced := flight / 2;
      ssthresh := Max(Wrap(2 * mss), reduced);
      cwnd := Saturate(ssthresh, Wrap(3 * mss));
      fastRecovery := true;
    }

    method OnDuplicateAck()
      requires Defined(State())
      modifies this
      ensures State() == Apply(old(State()), DuplicateAck)
    {
      if !fastRecovery { return; }
      cwnd := Saturate(cwnd, mss);
    }

    method OnRecoveryAck(bytes: u32, complete: bool)
      requires Defined(State())
      modifies this
      ensures State() == Apply(old(State()), RecoveryAck(bytes, complete))
    {
      if !fastRecovery { return; }
      if !complete { return; }
      cwnd := ssthresh;
      fastRecovery := false;
    }

    method Reset()
      requires Defined(State())
      modifies this
      ensures State() == Apply(old(State()), Restart)
    {
      cwnd := mss;
      ssthresh := Max(initialSsthresh, Wrap(2 * mss));
      fastRecovery := false;
    }
  }

  /** NewRenoCongestionControl. */
  class NewRenoCongestionControl {
    const mss: u32
    const initialSsthresh: u32
    var cwnd: u32
    var ssthresh: u32
    var recoverySsthresh: u32
    var fastRecovery: bool
    var partialAckObserved: bool

    function State(): Control
      reads this
    {
      Control(NewReno, mss, initialSsthresh, cwnd, ssthresh, recoverySsthresh, fastRecovery, partialAckObserved)
    }

    constructor (mss: u32, initialSsthresh: u32)
      requires mss != 0
      ensures Create(NewReno, mss, initialSsthresh) == Ok(State())
    {
      this.mss, this.initialSsthresh := mss, initialSsthresh;
      cwnd, ssthresh, recoverySsthresh := mss, Max(initialSsthresh, Wrap(2 * mss)), 0;
      fastRecovery, partialAckObserved := false, false;
    }

    method OnAck(bytes: u32)
      requires Defined(State())
      modifies this
      ensures State() == Apply(old(State()), Ack(bytes))
    {
      if bytes == 0 { return; }
      if fastRecovery { return; }
      if cwnd < ssthresh {
        cwnd := Saturate(cwnd, Min(bytes, mss));
        return;
      }
      AvoidanceStep(mss, cwnd);
      var increase := Max(1, mss * mss / cwnd);
      if increase >= MAX_WORD - cwnd {
        cwnd := MAX_WORD;
      } else {
        cwnd := Wrap(cwnd + increase);
      }
    }

    method OnLoss()
      requires Defined(State())
      modifies this
      ensures State() == Apply(old(State()), Loss)
    {
      var floor := Wrap(2 * mss);
      if fastRecovery {
        ssthresh := Max(floor, recoverySsthresh);
      } else {
        ssthresh := Max(floor, cwnd / 2);
      }
      cwnd := mss;
      fastRecovery := false;
      partialAckObserved := false;
    }

    method OnFastRetransmit(flight: u32)
      requires Defined(State())
      modifies this
      ensures State() == Apply(old(State()), FastRetransmit(flight))
    {
      ssthresh := Max(Wrap(2 * mss), flight / 2);
      recoverySsthresh := ssthresh;
      cwnd := Saturate(ssthresh, Wrap(3 * mss));
      fastRecovery := true;
      partialAckObserved := false;
    }

    method OnDuplicateAck()
      requires Defined(State())
      modifies this
      ensures State() == Apply(old(State()), DuplicateAck)
    {
      if !fastRecovery { return; }
      cwnd := Saturate(cwnd, mss);
    }

    method OnRecoveryAck(bytes: u32, complete: bool)
      requires Defined(State())
      modifies this
      ensures State() == Apply(old(State()), RecoveryAck(bytes, complete))
    {
      if !fastRecovery { return; }
      if complete {
        cwnd := ssthresh;
        fastRecovery := false;
        partialAckObserved := false;
        return;
      }
      if bytes == 0 { return; }
      if bytes >= cwnd {
        cwnd := mss;
      } else {
        cwnd := Wrap(cwnd - bytes);
      }
      if bytes >= mss {
        cwnd := Saturate(cwnd, mss);
      }
      if cwnd < mss {
        cwnd := mss;
      }
      partialAckObserved := true;
    }

    method Reset()
      requires Defined(State())
      modifies this
      ensures State() == Apply(old(State()), Restart)
    {
      cwnd := mss;
      ssthresh := Max(initialSsthresh, Wrap(2 * mss));
      fastRecovery := false;
      partialAckObserved := false;
      recoverySsthresh := 0;
    }
  }
}
