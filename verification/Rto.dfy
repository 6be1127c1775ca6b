/** The retransmission timer: Jacobson's estimator (RFC 6298, section 2) with a clamp. */
module Rto {
  import opened Wire

  const DEFAULT_RTO_US := 200_000
  const MIN_RTO_US := 50_000
  const MAX_RTO_US := 2_000_000

  datatype RtoState = RtoState(srttUs: real, rttvarUs: real, initialized: bool)

  const FRESH: RtoState := RtoState(0.0, 0.0, false)

  function Abs(x: real): real { if x < 0.0 then -x else x }

  function Sample(s: RtoState, us: int): RtoState {
    var r := (if us < 1 then 1 else us) as real;
    if !s.initialized then RtoState(r, r / 2.0, true)
    else
      var err := r - s.srttUs;
      RtoState(s.srttUs + 0.125 * err, s.rttvarUs + 0.25 * (Abs(err) - s.rttvarUs), true)
  }

  /** The current timeout in microseconds. */
  function Current(s: RtoState): (rto: int)
    ensures MIN_RTO_US <= rto <= MAX_RTO_US
  {
    if !s.initialized then DEFAULT_RTO_US else
    var rto := (s.srttUs + 4.0 * s.rttvarUs).Floor;
    if rto < MIN_RTO_US then MIN_RTO_US else if rto > MAX_RTO_US then MAX_RTO_US else rto
  }

  class RtoEstimator {
    var srttUs: real
    var rttvarUs: real
    var initialized: bool

    function State(): RtoState
      reads this
    {
      RtoState(srttUs, rttvarUs, initialized)
    }

    constructor ()
      ensures State() == FRESH
    {
      srttUs, rttvarUs, initialized := 0.0, 0.0, false;
    }

    method OnRttSample(us: int)
      modifies this
      ensures State() == Sample(old(State()), us)
    {
      var r := (if us < 1 then 1 else us) as real;
      if !initialized {
        srttUs := r;
        rttvarUs := r / 2.0;
        initialized := true;
        return;
      }
      var err := r - srttUs;
      srttUs := srttUs + 0.125 * err;
      rttvarUs := rttvarUs + 0.25 * (Abs(err) - rttvarUs);
    }
  }

  // ---------------------------------------------------------------- one sample

  /** The first sample is the mean, and half of it the deviation. */
  lemma FirstSample(s: RtoState, us: nat)
    requires !s.initialized
    ensures var t, r := Sample(s, us), (if us == 0 then 1 else us) as real;
      t.initialized && t.srttUs == r && 2.0 * t.rttvarUs == r
  {
  }

  /** A later one moves the mean by an eighth of the way, and the deviation by a quarter of the way to
      its distance from the old mean. */
  lemma LaterSample(s: RtoState, us: nat)
    requires s.initialized
    ensures var t, r := Sample(s, us), (if us == 0 then 1 else us) as real;
      t.initialized && 8.0 * t.srttUs == 7.0 * s.srttUs + r &&
      4.0 * t.rttvarUs == 3.0 * s.rttvarUs + (if r < s.srttUs then s.srttUs - r else r - s.srttUs)
  {
  }

  /** A fresh timer waits 200 ms; any other the whole microseconds of mean and four deviations, but
      not under 50 ms nor over 2 s. */
  lemma TimeoutIs(s: RtoState)
    ensures !s.initialized ==> Current(s) == 200_000
    ensures s.initialized ==> var x := s.srttUs + 4.0 * s.rttvarUs;
      if x < 50_000.0 then Current(s) == 50_000
      else if x >= 2_000_000.0 then Current(s) == 2_000_000
      else Current(s) as real <= x < (Current(s) + 1) as real
  {
  }

  // ---------------------------------------------------------------- the envelope

  function Samples(s: RtoState, us: seq<int>): RtoState
    decreases |us|
  {
    if us == [] then s else Samples(Sample(s, us[0]), us[1..])
  }

  ghost predicate Within(us: seq<int>, lo: int, hi: int) {
    forall k :: 0 <= k < |us| ==> lo <= us[k] <= hi
  }

  function SpreadBound(lo: int, hi: int): real {
    if hi as real / 2.0 < (hi - lo) as real then (hi - lo) as real else hi as real / 2.0
  }

  ghost predicate InEnvelope(s: RtoState, lo: int, hi: int) {
    s.initialized && lo as real <= s.srttUs <= hi as real && 0.0 <= s.rttvarUs <= SpreadBound(lo, hi)
  }

  lemma SampleInEnvelope(s: RtoState, us: int, lo: int, hi: int)
    requires 1 <= lo <= us <= hi && (s.initialized ==> InEnvelope(s, lo, hi))
    ensures InEnvelope(Sample(s, us), lo, hi)
  {
    var r := us as real;
    assert lo as real <= r <= hi as real;
    if s.initialized {
      var err := r - s.srttUs;
      assert -((hi - lo) as real) <= err <= (hi - lo) as real;
    }
  }

  /** Samples inside a band keep the mean in the band and the deviation under the bound. */
  lemma {:induction false} Envelope(s: RtoState, us: seq<int>, lo: int, hi: int)
    requires 1 <= lo && Within(us, lo, hi) && us != []
    requires s == FRESH || InEnvelope(s, lo, hi)
    ensures InEnvelope(Samples(s, us), lo, hi)
    decreases |us|
  {
    SampleInEnvelope(s, us[0], lo, hi);
    if |us| > 1 {
      forall k | 0 <= k < |us[1..]| ensures lo <= us[1..][k] <= hi {
        assert us[1..][k] == us[k + 1];
      }
      Envelope(Sample(s, us[0]), us[1..], lo, hi);
    } else {
      assert us[1..] == [];
    }
  }

  function ThreeQuarters(n: nat): real {
    if n == 0 then 1.0 else 0.75 * ThreeQuarters(n - 1)
  }

  /** `n` samples of the same value. */
  function Steady(r: int, n: nat): RtoState {
    if n == 0 then FRESH else Sample(Steady(r, n - 1), r)
  }

  /** Constant samples: the mean is exact and the deviation decays geometrically. */
  lemma {:induction false} SteadyForm(r: int, n: nat)
    requires r >= 1 && n >= 1
    ensures Steady(r, n) == RtoState(r as real, r as real / 2.0 * ThreeQuarters(n - 1), true)
  {
    if n > 1 {
      SteadyForm(r, n - 1);
      var h, q := r as real / 2.0, ThreeQuarters(n - 2);
      assert h * (0.75 * q) == 0.75 * (h * q);
    } else {
      assert Steady(r, 1) == Sample(FRESH, r);
    }
  }

  lemma CurrentMonotone(a: RtoState, b: RtoState)
    requires a.initialized && b.initialized && a.srttUs + 4.0 * a.rttvarUs <= b.srttUs + 4.0 * b.rttvarUs
    ensures Current(a) <= Current(b)
  {
    FloorMono(a.srttUs + 4.0 * a.rttvarUs, b.srttUs + 4.0 * b.rttvarUs);
  }

  lemma {:induction false} SteadyInEnvelope(r: int, n: nat)
    requires r >= 1 && n >= 1
    ensures InEnvelope(Steady(r, n), r, r)
  {
    if n > 1 { SteadyInEnvelope(r, n - 1); }
    SampleInEnvelope(Steady(r, n - 1), r, r, r);
  }

  /** On a steady path the timeout never grows, and never falls under the round trip time. */
  lemma SteadyTimeout(r: int, n: nat)
    requires r >= 1 && n >= 1
    ensures Current(Steady(r, n + 1)) <= Current(Steady(r, n))
    ensures Current(Steady(r, n)) >= if r <= MAX_RTO_US then r else MAX_RTO_US
  {
    SteadyInEnvelope(r, n);
    var s := Steady(r, n);
    assert Steady(r, n + 1) == Sample(s, r);
    CurrentMonotone(Sample(s, r), s);
    CurrentMonotone(RtoState(r as real, 0.0, true), s);
  }

  lemma FloorMono(a: real, b: real)
    requires a <= b
    ensures a.Floor <= b.Floor
  {
  }
}
