/**
  Round-trip-time estimation and the retransmission timeout
  (RTTEstimator.cpp, RTOManager.cpp; RFC 6298 sections 2 and 5.5).
  Doubles are modelled as exact reals.
 */
module RetransmissionTimer {
  import opened Arithmetic
  import opened Common

  const INITIAL_RTO := 1.0
  const MIN_RTO := 0.2
  const MAX_RTO := 60.0
  const MAX_BACKOFF := 64.0

  datatype Estimator = Estimator(srtt: real, rttvar: real, rto: real, initialized: bool)

  datatype Timer = Timer(estimator: Estimator, backoff: real)

  /** What a connection can do to its timer. */
  datatype TimerOp = Timeout | Sample(rtt: real) | Reset

  const FreshEstimator := Estimator(0.0, 0.0, INITIAL_RTO, false)
  const FreshTimer := Timer(FreshEstimator, 1.0)

  function AbsReal(a: real): real { if a < 0.0 then -a else a }

  function Clamp(x: real): (r: real)
    ensures MIN_RTO <= r <= MAX_RTO
    ensures MIN_RTO <= x <= MAX_RTO ==> r == x
  {
    MaxReal(MIN_RTO, MinReal(MAX_RTO, x))
  }

  /** One measured round trip folded into the estimate; non-positive measurements are ignored. */
  function Updated(e: Estimator, m: real): Estimator
  {
    if m <= 0.0 then e
    else if !e.initialized then
      Estimator(m, m / 2.0, Clamp(m + 4.0 * (m / 2.0)), true)
    else
      var rttvar := 0.75 * e.rttvar + 0.25 * AbsReal(e.srtt - m);
      var srtt := 0.875 * e.srtt + 0.125 * m;
      Estimator(srtt, rttvar, Clamp(srtt + 4.0 * rttvar), true)
  }

  function CurrentRto(t: Timer): real
  {
    MinReal(t.estimator.rto * t.backoff, MAX_RTO)
  }

  function Apply(t: Timer, op: TimerOp): Timer
  {
    match op
    case Timeout => t.(backoff := MinReal(t.backoff * 2.0, MAX_BACKOFF))
    case Sample(m) => Timer(Updated(t.estimator, m), 1.0)
    case Reset => FreshTimer
  }

  /** The timer after a whole history of operations, newest last. */
  function After(ops: seq<TimerOp>): Timer
  {
    if ops == [] then FreshTimer else Apply(After(ops[..|ops| - 1]), ops[|ops| - 1])
  }

  /** Timeouts since the last sample or reset. */
  function Streak(ops: seq<TimerOp>): nat
  {
    if ops == [] || !ops[|ops| - 1].Timeout? then 0 else 1 + Streak(ops[..|ops| - 1])
  }

  /** The history with its trailing timeouts removed. */
  function Settled(ops: seq<TimerOp>): seq<TimerOp>
  {
    if ops == [] || !ops[|ops| - 1].Timeout? then ops else Settled(ops[..|ops| - 1])
  }

  function Pow2(k: nat): real
  {
    if k == 0 then 1.0 else 2.0 * Pow2(k - 1)
  }

  predicate SamplesWithin(ops: seq<TimerOp>, lo: real, hi: real)
  {
    forall i :: 0 <= i < |ops| && ops[i].Sample? ==> lo <= ops[i].rtt <= hi
  }

  /** What every history with samples in [lo, hi] keeps. */
  predicate EstimateWithin(e: Estimator, lo: real, hi: real)
  {
    && MIN_RTO <= e.rto <= MAX_RTO
    && (e.initialized ==>
        && lo <= e.srtt <= hi
        && 0.0 <= e.rttvar <= MaxReal(hi / 2.0, hi - lo)
        && e.rto == Clamp(e.srtt + 4.0 * e.rttvar))
    && (!e.initialized ==> e == FreshEstimator)
  }

  lemma UpdateKeepsBounds(e: Estimator, m: real, lo: real, hi: real)
    requires EstimateWithin(e, lo, hi) && 0.0 < lo <= m <= hi
    ensures EstimateWithin(Updated(e, m), lo, hi) && Updated(e, m).initialized
  {
    if e.initialized {
      var bound := MaxReal(hi / 2.0, hi - lo);
      assert AbsReal(e.srtt - m) <= hi - lo;
      assert 0.75 * e.rttvar + 0.25 * AbsReal(e.srtt - m) <= 0.75 * bound + 0.25 * bound;
    }
  }

  /** Main result: bounds of the estimate over every history of samples, timeouts and resets. */
  lemma {:induction false} EstimateStaysInSampleRange(ops: seq<TimerOp>, lo: real, hi: real)
    requires 0.0 < lo <= hi && SamplesWithin(ops, lo, hi)
    ensures EstimateWithin(After(ops).estimator, lo, hi)
  {
    if ops != [] {
      var before := ops[..|ops| - 1];
      EstimateStaysInSampleRange(before, lo, hi);
      var op := ops[|ops| - 1];
      if op.Sample? { UpdateKeepsBounds(After(before).estimator, op.rtt, lo, hi); }
    }
  }

  lemma {:induction false} Pow2Monotone(j: nat, k: nat)
    requires j <= k
    ensures 1.0 <= Pow2(j) <= Pow2(k)
    decreases k
  {
    if j < k {
      Pow2Monotone(j, k - 1);
    } else if k > 0 {
      Pow2Monotone(j - 1, k - 1);
    }
  }

  lemma Pow2Six()
    ensures Pow2(6) == 64.0
  {
    assert Pow2(3) == 8.0;
    assert Pow2(6) == 2.0 * (2.0 * (2.0 * Pow2(3)));
  }

  function Capped(k: nat): nat { if k <= 6 then k else 6 }

  /** Backoff doubles with each timeout of the current streak and stops at 64; the estimate is untouched. */
  lemma {:induction false} BackoffCountsTheStreak(ops: seq<TimerOp>)
    ensures After(ops).backoff == Pow2(Capped(Streak(ops)))
    ensures After(ops).estimator == After(Settled(ops)).estimator
  {
    if ops != [] && ops[|ops| - 1].Timeout? {
      var before := ops[..|ops| - 1];
      BackoffCountsTheStreak(before);
      Pow2Six();
      Pow2Monotone(Capped(Streak(before)), 6);
      if Streak(before) < 6 { Pow2Monotone(Streak(ops), 6); }
    }
  }

  /** Main result: the timeout in force after any history, in closed form, and its range. */
  lemma TimeoutClosedForm(ops: seq<TimerOp>)
    ensures CurrentRto(After(ops))
         == CurrentRto(Timer(After(Settled(ops)).estimator, Pow2(Capped(Streak(ops)))))
    ensures MIN_RTO <= CurrentRto(After(ops)) <= MAX_RTO
  {
    BackoffCountsTheStreak(ops);
    RtoInRange(Settled(ops));
    Pow2Monotone(0, Capped(Streak(ops)));
    var t := After(ops);
    assert t == Timer(After(Settled(ops)).estimator, Pow2(Capped(Streak(ops))));
    CurrentInRange(t);
  }

  lemma CurrentInRange(t: Timer)
    requires MIN_RTO <= t.estimator.rto <= MAX_RTO && t.backoff >= 1.0
    ensures MIN_RTO <= CurrentRto(t) <= MAX_RTO
  {
    ScalingUp(t.estimator.rto, t.backoff);
  }

  lemma {:induction false} RtoInRange(ops: seq<TimerOp>)
    ensures MIN_RTO <= After(ops).estimator.rto <= MAX_RTO
  {
    if ops != [] { RtoInRange(ops[..|ops| - 1]); }
  }

  function Repeat(r: real, n: nat): seq<TimerOp>
  {
    if n == 0 then [] else Repeat(r, n - 1) + [Sample(r)]
  }

  function ThreeQuarters(k: nat): real
  {
    if k == 0 then 1.0 else 0.75 * ThreeQuarters(k - 1)
  }

  lemma RepeatNext(r: real, n: nat)
    ensures After(Repeat(r, n + 1)) == Apply(After(Repeat(r, n)), Sample(r))
  {
    var ops := Repeat(r, n + 1);
    assert ops[..|ops| - 1] == Repeat(r, n) && ops[|ops| - 1] == Sample(r);
  }

  /** The estimate on a path of round trip r: exact, with variance q times half of it. */
  predicate Steady(e: Estimator, r: real, q: real)
  {
    e.initialized && e.srtt == r && e.rttvar == (r / 2.0) * q
  }

  /** On a path whose round trip never varies the estimate is exact and the variance decays geometrically. */
  lemma {:induction false} SteadyPathConverges(r: real, n: nat)
    requires r > 0.0 && n >= 1
    ensures Steady(After(Repeat(r, n)).estimator, r, ThreeQuarters(n - 1))
  {
    RepeatNext(r, n - 1);
    if n == 1 {
      SteadyFirst(r);
    } else {
      SteadyPathConverges(r, n - 1);
      SteadyUpdate(After(Repeat(r, n - 1)).estimator, r, ThreeQuarters(n - 2));
      assert ThreeQuarters(n - 1) == 0.75 * ThreeQuarters(n - 2);
    }
  }

  lemma SteadyFirst(r: real)
    requires r > 0.0
    ensures Steady(Updated(After(Repeat(r, 0)).estimator, r), r, ThreeQuarters(0))
  {
    assert Repeat(r, 0) == [] && ThreeQuarters(0) == 1.0;
  }

  lemma SteadyUpdate(e: Estimator, r: real, q: real)
    requires r > 0.0 && Steady(e, r, q)
    ensures Steady(Updated(e, r), r, 0.75 * q)
  {
    Regroup(r / 2.0, q);
  }

  lemma Regroup(x: real, q: real)
    ensures 0.75 * (x * q) == x * (0.75 * q)
  {
  }

  // ---- the weights of a sample ----

  function SevenEighths(k: nat): real
  {
    if k == 0 then 1.0 else 0.875 * SevenEighths(k - 1)
  }

  lemma {:induction false} AfterThen(ops: seq<TimerOp>, r: real, n: nat)
    ensures After(ops + Repeat(r, n + 1)) == Apply(After(ops + Repeat(r, n)), Sample(r))
  {
    var longer := ops + Repeat(r, n + 1);
    assert longer[..|longer| - 1] == ops + Repeat(r, n) && longer[|longer| - 1] == Sample(r);
  }

  /** A gap that shrinks by an eighth n times. */
  function Shrunk(gap: real, n: nat): real
  {
    if n == 0 then gap else 0.875 * Shrunk(gap, n - 1)
  }

  lemma {:induction false} ShrunkIsPower(gap: real, n: nat)
    ensures Shrunk(gap, n) == SevenEighths(n) * gap
  {
    if n > 0 {
      ShrunkIsPower(gap, n - 1);
      Reorder(SevenEighths(n - 1), gap);
    }
  }

  lemma Reorder(q: real, x: real)
    ensures 0.875 * (q * x) == (0.875 * q) * x
  {
  }

  /** The estimate still has a gap to go that has shrunk n times. */
  predicate Approaches(e: Estimator, s: real, gap: real, n: nat)
  {
    e.initialized && e.srtt - s == Shrunk(gap, n)
  }

  lemma OneEighth(e: Estimator, s: real, gap: real, n: nat)
    requires s > 0.0 && Approaches(e, s, gap, n)
    ensures Approaches(Updated(e, s), s, gap, n + 1)
  {
  }

  /** The estimate after n equal samples. */
  function Sampled(e: Estimator, s: real, n: nat): Estimator
  {
    if n == 0 then e else Updated(Sampled(e, s, n - 1), s)
  }

  lemma {:induction false} AfterRepeat(ops: seq<TimerOp>, s: real, n: nat)
    ensures After(ops + Repeat(s, n)).estimator == Sampled(After(ops).estimator, s, n)
  {
    if n == 0 {
      assert ops + Repeat(s, 0) == ops;
    } else {
      AfterRepeat(ops, s, n - 1);
      AfterThen(ops, s, n - 1);
    }
  }

  lemma {:induction false} GapShrinks(e: Estimator, s: real, gap: real, n: nat)
    requires s > 0.0 && Approaches(e, s, gap, 0)
    ensures Approaches(Sampled(e, s, n), s, gap, n)
  {
    if n > 0 {
      GapShrinks(e, s, gap, n - 1);
      OneEighth(Sampled(e, s, n - 1), s, gap, n - 1);
    }
  }

  /**
    RFC 6298 section 2.3: whatever the history and whatever gap it leaves to a new round trip s, n samples of s leave
    (7/8)^n of that gap, so the newest sample weighs an eighth.
   */
  lemma EstimateMovesByEighths(ops: seq<TimerOp>, s: real, gap: real, n: nat)
    requires s > 0.0 && After(ops).estimator.initialized && After(ops).estimator.srtt - s == gap
    ensures After(ops + Repeat(s, n)).estimator.srtt - s == SevenEighths(n) * gap
  {
    AfterRepeat(ops, s, n);
    GapShrinks(After(ops).estimator, s, gap, n);
    ShrunkIsPower(gap, n);
  }

  /** What a further sample makes of the variance, measured against the estimate as it was before that sample. */
  predicate Spreads(before: Estimator, after: Estimator, s: real)
  {
    && 4.0 * after.rttvar == 3.0 * before.rttvar + MaxReal(before.srtt - s, s - before.srtt)
    && after.rto == Clamp(after.srtt + 4.0 * after.rttvar)
  }

  /** RFC 6298 section 2.3, the order of the two updates: the variance is taken before the estimate moves. */
  lemma SpreadBeforeMove(ops: seq<TimerOp>, s: real)
    requires s > 0.0 && After(ops).estimator.initialized
    ensures Spreads(After(ops).estimator, After(ops + [Sample(s)]).estimator, s)
    ensures After(ops + [Sample(s)]).backoff == 1.0
  {
    assert (ops + [Sample(s)])[..|ops|] == ops;
  }

  /** RFC 6298 section 2.2: the first sample is the estimate, half of it the variance; what came before is forgotten. */
  lemma FirstSampleSets(ops: seq<TimerOp>, s: real)
    requires s > 0.0 && !After(ops).estimator.initialized
    ensures var e := After(ops + [Sample(s)]).estimator;
      e.initialized && e.srtt == s && 2.0 * e.rttvar == s && e.rto == MaxReal(0.2, MinReal(60.0, 3.0 * s))
  {
    assert (ops + [Sample(s)])[..|ops|] == ops;
  }

  /** A sample that is no time at all is no sample, but it ends the backoff. */
  lemma NoTimeNoSample(ops: seq<TimerOp>, s: real)
    requires s <= 0.0
    ensures After(ops + [Sample(s)]) == Timer(After(ops).estimator, 1.0)
  {
    assert (ops + [Sample(s)])[..|ops|] == ops;
  }

  /** Nothing before a reset counts, and without a sample the timeout is a second (RFC 6298 section 2.1), doubled by time-outs. */
  lemma {:induction false} ResetForgets(ops: seq<TimerOp>, later: seq<TimerOp>)
    ensures After(ops + [Reset] + later) == After(later)
    ensures (forall op :: op in later ==> !op.Sample?) ==> After(later).estimator.rto == 1.0
  {
    var all := ops + [Reset] + later;
    if later == [] {
      assert all[..|all| - 1] == ops && all[|all| - 1] == Reset;
    } else {
      assert all[..|all| - 1] == ops + [Reset] + later[..|later| - 1];
      ResetForgets(ops, later[..|later| - 1]);
    }
  }

  /** RTTEstimator: the fields the source updates in place. */
  class RttEstimator {
    var srtt: real
    var rttvar: real
    var rto: real
    var initialized: bool

    function State(): Estimator
      reads this
    {
      Estimator(srtt, rttvar, rto, initialized)
    }

    constructor ()
      ensures State() == FreshEstimator
    {
      srtt, rttvar, rto, initialized := 0.0, 0.0, INITIAL_RTO, false;
    }

    method Update(measured: real)
      modifies this
      ensures State() == Updated(old(State()), measured)
    {
      if measured <= 0.0 {
        return;
      }
      if !initialized {
        srtt := measured;
        rttvar := measured / 2.0;
        rto := srtt + 4.0 * rttvar;
        rto := Clamp(rto);
        initialized := true;
        return;
      }
      rttvar := (1.0 - 1.0 / 4.0) * rttvar + 1.0 / 4.0 * AbsReal(srtt - measured);
      srtt := (1.0 - 1.0 / 8.0) * srtt + 1.0 / 8.0 * measured;
      rto := srtt + 4.0 * rttvar;
      rto := Clamp(rto);
    }

    method Clear()
      modifies this
      ensures State() == FreshEstimator
    {
      srtt, rttvar := 0.0, 0.0;
      rto := INITIAL_RTO;
      initialized := false;
    }
  }

  /** RTOManager: an estimator and the exponential backoff applied to it. */
  class RtoManager {
    const estimator: RttEstimator
    var backoff: real

    function State(): Timer
      reads this, estimator
    {
      Timer(estimator.State(), backoff)
    }

    constructor ()
      ensures State() == FreshTimer && fresh(estimator)
    {
      estimator := new RttEstimator();
      backoff := 1.0;
    }

    function Current(): real
      reads this, estimator
    {
      MinReal(estimator.rto * backoff, MAX_RTO)
    }

    method OnTimeout() returns (rto: real)
      modifies this
      ensures State() == Apply(old(State()), Timeout)
      ensures rto == CurrentRto(State())
    {
      backoff := MinReal(backoff * 2.0, MAX_BACKOFF);
      rto := Current();
    }

    method OnAcknowledgement(measured: real)
      modifies this, estimator
      ensures State() == Apply(old(State()), Sample(measured))
    {
      estimator.Update(measured);
      backoff := 1.0;
    }

    method Clear()
      modifies this, estimator
      ensures State() == Apply(old(State()), Reset)
    {
      estimator.Clear();
      backoff := 1.0;
    }
  }
}
