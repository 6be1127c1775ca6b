/** The sender's rate: a token bucket, and a rate that backs off on loss and on a rising
    round trip time and recovers by five percent a step. Doubles are modelled as reals. */
module RateControl {
  import opened Wire
  import opened Clock

  const MIN_RATE := 100_000
  const MAX_RATE := 100_000_000
  const INITIAL_RATE := 1_000_000
  const RTT_WINDOW := 32
  const TREND_US := 10_000

  datatype Reason = NoSignal | HighLoss | RttIncreasing

  /** `consumed` and `credit` are totals kept for the conformance theorem: bytes taken out
      of the bucket, and bytes the ticks were entitled to put in. */
  datatype RateState = RateState(
    rateBps: int, tokens: real, lastRefill: Time, reason: Reason,
    samples: seq<uint64>, baseline: uint64, rttInitialized: bool, acked: nat, lost: nat,
    consumed: int, credit: real)

  function Clamp(r: int): int {
    if r < MIN_RATE then MIN_RATE else if r > MAX_RATE then MAX_RATE else r
  }

  function Burst(rate: int): real { rate as real / 8.0 * 0.05 }

  function Fresh(initial: uint32): RateState {
    RateState(Clamp(initial), Burst(Clamp(initial)), 0, NoSignal, [], 0, false, 0, 0, 0, 0.0)
  }

  function Min(a: real, b: real): real { if a < b then a else b }

  /** Bytes that `us` microseconds are worth. */
  function Worth(bytesPerUs: real, us: real): real { bytesPerUs * us }

  /** Bytes the current rate is worth from the last refill to `now`. */
  function Earned(r: RateState, now: Time): real {
    Worth(r.rateBps as real / 8_000_000.0, UsBetween(r.lastRefill, now) as real)
  }

  function AfterTick(r: RateState, now: Time): RateState {
    if r.lastRefill == 0 then r.(lastRefill := now)
    else r.(tokens := Min(r.tokens + Earned(r, now), r.rateBps as real / 8.0), lastRefill := now,
            credit := r.credit + Earned(r, now))
  }

  function Available(r: RateState): int { r.tokens.Floor }

  function Taken(r: RateState, bytes: nat): int {
    if bytes < Available(r) then bytes else Available(r)
  }

  function AfterConsume(r: RateState, bytes: nat): RateState {
    r.(tokens := r.tokens - Taken(r, bytes) as real, consumed := r.consumed + Taken(r, bytes))
  }

  function LossRatio(r: RateState): real {
    if r.acked > 0 then r.lost as real / r.acked as real else 0.0
  }

  function Sum(s: seq<uint64>): int {
    if s == [] then 0 else s[0] as int + Sum(s[1..])
  }

  function Average4(s: seq<uint64>): int { U64(Sum(s)) / 4 }

  /** The four newest samples average more than 10 ms above the four oldest. */
  predicate Rising(s: seq<uint64>) {
    |s| >= 8 && Average4(s[|s| - 4..]) > U64(Average4(s[..4]) + TREND_US)
  }

  function Scale(rate: int, factor: real): int { (rate as real * factor).Floor }

  function Adapt(r: RateState): RateState {
    if LossRatio(r) > 0.05 then
      r.(rateBps := if Scale(r.rateBps, 0.8) < MIN_RATE then MIN_RATE else Scale(r.rateBps, 0.8), reason := HighLoss)
    else if Rising(r.samples) then
      r.(rateBps := if Scale(r.rateBps, 0.9) < MIN_RATE then MIN_RATE else Scale(r.rateBps, 0.9), reason := RttIncreasing)
    else if LossRatio(r) < 0.01 && r.rateBps < MAX_RATE then
      r.(rateBps := if Scale(r.rateBps, 1.05) > MAX_RATE then MAX_RATE else Scale(r.rateBps, 1.05), reason := NoSignal)
    else r.(reason := NoSignal)
  }

  function Push(s: seq<uint64>, x: uint64): seq<uint64> {
    if |s| + 1 > RTT_WINDOW then (s + [x])[1..] else s + [x]
  }

  function Trend(r: RateState, rttUs: int): RateState {
    r.(baseline := if r.rttInitialized then r.baseline else U64(rttUs), rttInitialized := true,
       samples := Push(r.samples, U64(rttUs)))
  }

  function AfterAck(r: RateState, rttUs: int): RateState {
    Adapt(Trend(r.(acked := r.acked + 1), rttUs))
  }

  function AfterLoss(r: RateState): RateState { Adapt(r.(lost := r.lost + 1)) }

  class RateController {
    var rateBps: int
    var tokens: real
    var lastRefill: Time
    var reason: Reason
    var samples: seq<uint64>
    var baseline: uint64
    var rttInitialized: bool
    var acked: nat
    var lost: nat
    ghost var consumed: int
    ghost var credit: real

    ghost function State(): RateState
      reads this
    {
      RateState(rateBps, tokens, lastRefill, reason, samples, baseline, rttInitialized, acked, lost, consumed, credit)
    }

    constructor (initial: uint32)
      ensures State() == Fresh(initial)
    {
      rateBps := Clamp(initial);
      tokens := Clamp(initial) as real / 8.0 * 0.05;
      lastRefill, reason, samples, baseline, rttInitialized := 0, NoSignal, [], 0, false;
      acked, lost := 0, 0;
      consumed, credit := 0, 0.0;
    }

    method OnTick(now: Time)
      modifies this
      ensures State() == AfterTick(old(State()), now)
    {
      if lastRefill == 0 {
        lastRefill := now;
        return;
      }
      var elapsed := UsBetween(lastRefill, now);
      var bytesPerUs := rateBps as real / 8_000_000.0;
      tokens := tokens + bytesPerUs * elapsed as real;
      credit := credit + bytesPerUs * elapsed as real;
      var maxTokens := rateBps as real / 8.0;
      tokens := Min(tokens, maxTokens);
      lastRefill := now;
    }

    method OnAck(rttUs: int)
      modifies this
      ensures State() == AfterAck(old(State()), rttUs)
    {
      acked := acked + 1;
      UpdateRttTrend(rttUs);
      AdaptRate();
    }

    method OnLoss()
      modifies this
      ensures State() == AfterLoss(old(State()))
    {
      lost := lost + 1;
      AdaptRate();
    }

    function AvailableTokens(): (n: int)
      reads this
      ensures n == Available(State())
    {
      tokens.Floor
    }

    method ConsumeTokens(bytes: nat) returns (n: int)
      modifies this
      ensures n == Taken(old(State()), bytes) && State() == AfterConsume(old(State()), bytes)
    {
      n := if bytes < AvailableTokens() then bytes else AvailableTokens();
      tokens := tokens - n as real;
      consumed := consumed + n;
    }

    method UpdateRttTrend(rttUs: int)
      modifies this
      ensures State() == Trend(old(State()), rttUs)
    {
      if !rttInitialized {
        baseline := U64(rttUs);
        rttInitialized := true;
      }
      samples := samples + [U64(rttUs)];
      if |samples| > RTT_WINDOW {
        samples := samples[1..];
      }
    }

    /** The sum of `s[from..to]`, added up one sample at a time in 64 bits. */
    static method SumRange(s: seq<uint64>, from: nat, to: nat) returns (sum: uint64)
      requires from <= to <= |s|
      ensures sum == U64(Sum(s[from..to]))
    {
      sum := 0;
      for i := from to to
        invariant sum == U64(Sum(s[from..i]))
      {
        SumSnoc(s[from..i], s[i]);
        assert s[from..i + 1] == s[from..i] + [s[i]];
        var total: int := sum as int + s[i] as int;
        sum := U64(total);
      }
    }

    /** The comparison of old and recent averages. */
    method RttIncreased() returns (rising: bool)
      ensures rising == Climbing(samples) == Rising(samples)
    {
      rising := false;
      RisingIsClimbing(samples);
      if |samples| >= 8 {
        var recentSum := SumRange(samples, |samples| - 4, |samples|);
        var oldSum := SumRange(samples, 0, 4);
        assert samples[|samples| - 4..|samples|] == samples[|samples| - 4..];
        assert samples[0..4] == samples[..4];
        var oldAvg: int := oldSum / 4;
        if recentSum / 4 > U64(oldAvg + TREND_US) {
          rising := true;
        }
      }
    }

    method AdaptRate()
      modifies this
      ensures State() == Adapt(old(State()))
      ensures RateInRange(old(State())) ==> (rateBps, reason) == RateFor(old(rateBps), lost, acked, samples)
    {
      ghost var was := State();
      if RateInRange(was) { AdaptsTo(was); }
      var lossRatio := 0.0;
      if acked > 0 {
        lossRatio := lost as real / acked as real;
      }
      var rttIncreasing := RttIncreased();
      var oldRate := rateBps;
      reason := NoSignal;
      if lossRatio > 0.05 {
        var backoff := Scale(rateBps, 0.8);
        rateBps := if backoff < MIN_RATE then MIN_RATE else backoff;
        reason := HighLoss;
      } else if rttIncreasing {
        var backoff := Scale(rateBps, 0.9);
        rateBps := if backoff < MIN_RATE then MIN_RATE else backoff;
        reason := RttIncreasing;
      } else if lossRatio < 0.01 && !rttIncreasing && oldRate < MAX_RATE {
        var raised := Scale(rateBps, 1.05);
        rateBps := if raised > MAX_RATE then MAX_RATE else raised;
      }
    }
  }

  lemma {:induction false} SumSnoc(s: seq<uint64>, x: uint64)
    ensures Sum(s + [x]) == Sum(s) + x as int
  {
    if s == [] {
      assert s + [x] == [x] && [x][1..] == [];
    } else {
      assert (s + [x])[1..] == s[1..] + [x];
      SumSnoc(s[1..], x);
    }
  }

  // ---------------------------------------------------------------- conformance

  datatype Op = TickOp(now: Time) | AckOp(rttUs: int) | LossOp | ConsumeOp(bytes: nat)

  function Apply(r: RateState, op: Op): RateState {
    match op
    case TickOp(now) => AfterTick(r, now)
    case AckOp(rtt) => AfterAck(r, rtt)
    case LossOp => AfterLoss(r)
    case ConsumeOp(bytes) => AfterConsume(r, bytes)
  }

  /** The clock does not run backwards. */
  predicate OnTime(r: RateState, op: Op) { op.TickOp? ==> r.lastRefill <= op.now }

  predicate RateInRange(r: RateState) { MIN_RATE <= r.rateBps <= MAX_RATE }

  /** The bucket holds between nothing and a second's worth at the top rate, and what was
      taken out never exceeds the first burst plus what the ticks earned. */
  predicate Conforms(r: RateState, burst: real) {
    RateInRange(r) && 0.0 <= r.tokens <= 12_500_000.0 && 0 <= r.consumed &&
    r.tokens + r.consumed as real <= burst + r.credit
  }

  lemma FreshConforms(initial: uint32)
    ensures Conforms(Fresh(initial), Burst(Clamp(initial)))
  {
  }

  lemma ScaleBounds(rate: int)
    requires MIN_RATE <= rate <= MAX_RATE
    ensures 0 <= Scale(rate, 0.8) <= rate * 4 / 5
    ensures 0 <= Scale(rate, 0.9) < rate < Scale(rate, 1.05)
    ensures Scale(rate, 0.8) < rate
  {
  }

  lemma AdaptKeeps(r: RateState, burst: real)
    requires Conforms(r, burst)
    ensures Conforms(Adapt(r), burst)
    ensures Adapt(r).tokens == r.tokens && Adapt(r).consumed == r.consumed && Adapt(r).credit == r.credit
    ensures Adapt(r).lastRefill == r.lastRefill
  {
    ScaleBounds(r.rateBps);
  }

  lemma EarnedBounds(r: RateState, now: Time)
    requires RateInRange(r) && r.lastRefill <= now
    ensures 0.0 <= Earned(r, now) <= 12.5 * UsBetween(r.lastRefill, now) as real
  {
    WorthBounds(r.rateBps as real / 8_000_000.0, UsBetween(r.lastRefill, now) as real);
  }

  lemma WorthBounds(bytesPerUs: real, us: real)
    requires 0.0 <= bytesPerUs <= 12.5 && 0.0 <= us
    ensures 0.0 <= Worth(bytesPerUs, us) <= 12.5 * us
  {
    Grows(0.0, bytesPerUs, us);
    Grows(bytesPerUs, 12.5, us);
  }

  lemma TickConforms(r: RateState, now: Time, burst: real)
    requires Conforms(r, burst) && r.lastRefill <= now
    ensures Conforms(AfterTick(r, now), burst)
  {
    if r.lastRefill != 0 { EarnedBounds(r, now); }
  }

  /** Every operation keeps the bucket conformant. */
  lemma ApplyConforms(r: RateState, op: Op, burst: real)
    requires Conforms(r, burst) && OnTime(r, op)
    ensures Conforms(Apply(r, op), burst)
  {
    match op {
      case TickOp(now) => TickConforms(r, now, burst);
      case AckOp(rtt) => AdaptKeeps(Trend(r.(acked := r.acked + 1), rtt), burst);
      case LossOp => AdaptKeeps(r.(lost := r.lost + 1), burst);
      case ConsumeOp(bytes) =>
    }
  }

  function Run(r: RateState, ops: seq<Op>): RateState
    decreases |ops|
  {
    if ops == [] then r else Run(Apply(r, ops[0]), ops[1..])
  }

  predicate Timely(r: RateState, ops: seq<Op>)
    decreases |ops|
  {
    ops == [] || (OnTime(r, ops[0]) && Timely(Apply(r, ops[0]), ops[1..]))
  }

  /** What the ticks of a run are worth: at each closing tick, rate / 8 times elapsed time. */
  function Entitled(r: RateState, ops: seq<Op>): real
    decreases |ops|
  {
    if ops == [] then 0.0 else
    (if ops[0].TickOp? && r.lastRefill != 0 then Earned(r, ops[0].now) else 0.0) +
    Entitled(Apply(r, ops[0]), ops[1..])
  }

  lemma ApplyCredit(r: RateState, op: Op)
    ensures Apply(r, op).credit ==
      r.credit + if op.TickOp? && r.lastRefill != 0 then Earned(r, op.now) else 0.0
  {
  }

  /** Over any interleaving of operations, consumption stays under the burst plus the
      entitlement, and the bucket within its bounds. */
  lemma {:induction false} Conformance(r: RateState, ops: seq<Op>, burst: real)
    requires Conforms(r, burst) && Timely(r, ops)
    ensures Conforms(Run(r, ops), burst)
    ensures Run(r, ops).consumed as real <= burst + r.credit + Entitled(r, ops)
    ensures Run(r, ops).credit == r.credit + Entitled(r, ops)
    decreases |ops|
  {
    if ops != [] {
      ApplyConforms(r, ops[0], burst);
      ApplyCredit(r, ops[0]);
      Conformance(Apply(r, ops[0]), ops[1..], burst);
    }
  }

  // ---------------------------------------------------------------- the rate in integers

  /** Four samples added up. */
  function Four(s: seq<uint64>, i: nat): int
    requires i + 4 <= |s|
  {
    s[i] as int + s[i + 1] as int + s[i + 2] as int + s[i + 3] as int
  }

  /** The four newest round trip times average more than 10 ms above the four oldest, sums and
      averages in 64 bits. */
  predicate Climbing(s: seq<uint64>) {
    |s| >= 8 && Four(s, |s| - 4) % TWO_64 / 4 > (Four(s, 0) % TWO_64 / 4 + 10_000) % TWO_64
  }

  lemma NoWrap(x: int)
    requires 0 <= x < TWO_64
    ensures x % TWO_64 == x
  {
  }

  /** The same without wrap-around, for times under 2^61 microseconds. */
  lemma ClimbingPlain(s: seq<uint64>)
    requires |s| >= 8 && forall k :: 0 <= k < |s| ==> s[k] < 0x2000_0000_0000_0000
    ensures Climbing(s) <==> Four(s, |s| - 4) / 4 > Four(s, 0) / 4 + 10_000
  {
    NoWrap(Four(s, |s| - 4));
    NoWrap(Four(s, 0));
    NoWrap(Four(s, 0) / 4 + 10_000);
  }

  lemma SumOfFour(s: seq<uint64>, i: nat)
    requires i + 4 <= |s|
    ensures Sum(s[i..i + 4]) == Four(s, i)
  {
    var t := s[i..i + 4];
    SumSnoc([], t[0]);
    SumSnoc([t[0]], t[1]);
    SumSnoc([t[0], t[1]], t[2]);
    SumSnoc([t[0], t[1], t[2]], t[3]);
    assert [] + [t[0]] == [t[0]] && [t[0]] + [t[1]] == [t[0], t[1]] && [t[0], t[1]] + [t[2]] == [t[0], t[1], t[2]];
    assert [t[0], t[1], t[2]] + [t[3]] == t;
  }

  lemma RisingIsClimbing(s: seq<uint64>)
    ensures Rising(s) <==> Climbing(s)
  {
    if |s| >= 8 {
      SumOfFour(s, |s| - 4);
      SumOfFour(s, 0);
      assert s[|s| - 4..] == s[|s| - 4..|s| - 4 + 4] && s[..4] == s[0..0 + 4];
    }
  }

  /** More than five percent of the acknowledged packets count as lost; less than one percent. */
  predicate TooLossy(lost: nat, acked: nat) { acked > 0 && 20 * lost > acked }

  predicate Calm(lost: nat, acked: nat) { acked == 0 || 100 * lost < acked }

  /** The rate in integers: down to four fifths for loss, to nine tenths for a climbing round trip
      time, up by a twentieth in calm, between 100 kbps and 100 Mbps. */
  function RateFor(rate: int, lost: nat, acked: nat, s: seq<uint64>): (int, Reason) {
    if TooLossy(lost, acked) then (if rate * 4 / 5 < 100_000 then 100_000 else rate * 4 / 5, HighLoss)
    else if Climbing(s) then (if rate * 9 / 10 < 100_000 then 100_000 else rate * 9 / 10, RttIncreasing)
    else if Calm(lost, acked) then (if rate * 21 / 20 > 100_000_000 then 100_000_000 else rate * 21 / 20, NoSignal)
    else (rate, NoSignal)
  }

  lemma ScaleIs(rate: int)
    requires rate >= 0
    ensures Scale(rate, 0.8) == rate * 4 / 5 && Scale(rate, 0.9) == rate * 9 / 10 && Scale(rate, 1.05) == rate * 21 / 20
  {
  }

  lemma RatioUnder(r: RateState)
    ensures LossRatio(r) < 0.01 <==> Calm(r.lost, r.acked)
  {
    if r.acked > 0 {
      QuotientUnder(LossRatio(r), r.lost as real, r.acked as real);
    }
  }

  lemma QuotientUnder(q: real, a: real, b: real)
    requires b > 0.0 && q == a / b
    ensures q < 0.01 <==> 100.0 * a < b
  {
    assert a == q * b;
    if q < 0.01 {
      assert (0.01 - q) * b > 0.0;
    } else {
      assert (q - 0.01) * b >= 0.0;
    }
  }

  lemma AdaptsTo(r: RateState)
    requires RateInRange(r)
    ensures var q := Adapt(r);
      (q.rateBps, q.reason) == RateFor(r.rateBps, r.lost, r.acked, r.samples) &&
      q == r.(rateBps := q.rateBps, reason := q.reason)
  {
    ScaleIs(r.rateBps);
    RatioOver(r);
    RatioUnder(r);
    RisingIsClimbing(r.samples);
  }

  /** The window with one more sample. */
  lemma TrendIs(r: RateState, rttUs: uint64)
    ensures var t := Trend(r, rttUs);
      t == r.(samples := t.samples, baseline := t.baseline, rttInitialized := true) &&
      t.samples == if |r.samples| >= 32 then r.samples[1..] + [rttUs] else r.samples + [rttUs]
  {
    if |r.samples| >= 32 { assert (r.samples + [rttUs])[1..] == r.samples[1..] + [rttUs]; }
  }

  /** An acknowledgement: one more counted, its round trip time the newest of at most 32 samples,
      and the rate and its reason those of the integers. */
  lemma AckRate(r: RateState, rttUs: uint64)
    requires RateInRange(r)
    ensures var q := AfterAck(r, rttUs);
      q.samples == (if |r.samples| >= 32 then r.samples[1..] + [rttUs] else r.samples + [rttUs]) &&
      q.acked == r.acked + 1 && q.lost == r.lost && q.tokens == r.tokens && q.lastRefill == r.lastRefill &&
      (q.rateBps, q.reason) == RateFor(r.rateBps, r.lost, r.acked + 1, q.samples)
  {
    TrendIs(r.(acked := r.acked + 1), rttUs);
    AdaptsTo(Trend(r.(acked := r.acked + 1), rttUs));
  }

  /** A loss: one more counted, and the rate and its reason those of the integers. */
  lemma LossRate(r: RateState)
    requires RateInRange(r)
    ensures var q := AfterLoss(r);
      q.samples == r.samples && q.acked == r.acked && q.lost == r.lost + 1 && q.tokens == r.tokens &&
      q.lastRefill == r.lastRefill && (q.rateBps, q.reason) == RateFor(r.rateBps, r.lost + 1, r.acked, r.samples)
  {
    AdaptsTo(r.(lost := r.lost + 1));
  }

  /** A new controller keeps its first rate between 100 kbit/s and 100 Mbit/s, and its bucket holds what
      50 ms of that are worth. */
  lemma FreshIs(initial: uint32)
    ensures var r := Fresh(initial);
      r.rateBps == (if initial < 100_000 then 100_000 else if initial > 100_000_000 then 100_000_000 else initial) &&
      160.0 * r.tokens == r.rateBps as real && r.acked == 0 && r.lost == 0 && r.samples == [] && r.lastRefill == 0
  {
  }

  /** A later tick adds an eighth of the rate for each second, up to that of one second. */
  lemma TickTokens(r: RateState, now: Time)
    requires r.lastRefill != 0 && r.lastRefill <= now
    ensures var q, us := AfterTick(r, now), (now - r.lastRefill) / 1000;
      var filled := r.tokens + r.rateBps as real * us as real / 8_000_000.0;
      q.tokens == (if filled < r.rateBps as real / 8.0 then filled else r.rateBps as real / 8.0) && q.lastRefill == now &&
      q.rateBps == r.rateBps && q.consumed == r.consumed
  {
    assert r.rateBps as real / 8_000_000.0 * ((now - r.lastRefill) / 1000) as real ==
      r.rateBps as real * ((now - r.lastRefill) / 1000) as real / 8_000_000.0;
  }

  // ---------------------------------------------------------------- direction of the rate

  /** A lost packet lowers the rate exactly when acknowledgements are there to compare with
      and the ratio is over five percent, or the round trip time is climbing. */
  lemma LossDirection(r: RateState)
    requires RateInRange(r) && r.rateBps > MIN_RATE
    ensures AfterLoss(r).rateBps < r.rateBps <==> TooLossy(r.lost + 1, r.acked) || Climbing(r.samples)
  {
    LossRate(r);
  }

  lemma RatioOver(r: RateState)
    ensures LossRatio(r) > 0.05 <==> r.acked > 0 && 20 * r.lost > r.acked
  {
    if r.acked > 0 {
      QuotientOver(LossRatio(r), r.lost as real, r.acked as real);
    }
  }

  lemma QuotientOver(q: real, a: real, b: real)
    requires b > 0.0 && q == a / b
    ensures q > 0.05 <==> 20.0 * a > b
  {
    assert a == q * b;
    if q > 0.05 {
      assert (q - 0.05) * b > 0.0;
    } else {
      assert (0.05 - q) * b >= 0.0;
    }
  }

  /** Before the first acknowledgement every loss raises the rate. */
  lemma EarlyLossRaises(r: RateState)
    requires RateInRange(r) && r.acked == 0 && r.samples == [] && r.rateBps < MAX_RATE
    ensures AfterLoss(r).rateBps > r.rateBps
  {
    ScaleBounds(r.rateBps);
  }

  ghost predicate InBand(s: seq<uint64>, lo: int) {
    forall k :: 0 <= k < |s| ==> lo <= s[k] <= lo + TREND_US
  }

  lemma {:induction false} SumInBand(s: seq<uint64>, lo: int)
    requires InBand(s, lo)
    ensures |s| * lo <= Sum(s) <= |s| * (lo + TREND_US)
  {
    if s != [] {
      forall k | 0 <= k < |s[1..]| ensures lo <= s[1..][k] <= lo + TREND_US {
        assert s[1..][k] == s[k + 1];
      }
      SumInBand(s[1..], lo);
      assert |s| * lo == lo + |s[1..]| * lo;
      assert |s| * (lo + TREND_US) == lo + TREND_US + |s[1..]| * (lo + TREND_US);
    }
  }

  lemma AverageInBand(s: seq<uint64>, lo: int)
    requires |s| == 4 && InBand(s, lo) && 0 <= lo && lo + TREND_US < TWO_64 / 8
    ensures lo <= Average4(s) <= lo + TREND_US
  {
    SumInBand(s, lo);
  }

  lemma BandNotRising(s: seq<uint64>, lo: int)
    requires InBand(s, lo) && 0 <= lo && lo + TREND_US < TWO_64 / 8
    ensures !Rising(s)
  {
    if |s| >= 8 {
      AverageInBand(s[|s| - 4..], lo);
      AverageInBand(s[..4], lo);
    }
  }

  predicate Lossless(ops: seq<Op>) {
    forall k :: 0 <= k < |ops| ==> !ops[k].LossOp?
  }

  ghost predicate AcksInBand(ops: seq<Op>, lo: int) {
    forall k :: 0 <= k < |ops| && ops[k].AckOp? ==> lo <= ops[k].rttUs <= lo + TREND_US
  }

  lemma CalmStep(r: RateState, op: Op, lo: int)
    requires RateInRange(r) && r.lost == 0 && InBand(r.samples, lo)
    requires !op.LossOp? && (op.AckOp? ==> lo <= op.rttUs <= lo + TREND_US)
    requires 0 <= lo && lo + TREND_US < TWO_64 / 8
    ensures var q := Apply(r, op);
      RateInRange(q) && q.lost == 0 && InBand(q.samples, lo) && q.rateBps >= r.rateBps &&
      (op.AckOp? && r.rateBps < MAX_RATE ==> q.rateBps > r.rateBps)
  {
    match op {
      case AckOp(rtt) => CalmAck(r, rtt, lo);
      case _ =>
    }
  }

  lemma CalmAck(r: RateState, rttUs: int, lo: int)
    requires RateInRange(r) && r.lost == 0 && InBand(r.samples, lo) && lo <= rttUs <= lo + TREND_US
    requires 0 <= lo && lo + TREND_US < TWO_64 / 8
    ensures var q := AfterAck(r, rttUs);
      RateInRange(q) && q.lost == 0 && InBand(q.samples, lo) && q.rateBps >= r.rateBps &&
      (r.rateBps < MAX_RATE ==> q.rateBps > r.rateBps)
  {
    var t := Trend(r.(acked := r.acked + 1), rttUs);
    PushInBand(r.samples, rttUs, lo);
    BandNotRising(t.samples, lo);
    NoLoss(t);
    CalmAdapt(t);
  }

  lemma PushInBand(s: seq<uint64>, x: uint64, lo: int)
    requires InBand(s, lo) && lo <= x <= lo + TREND_US
    ensures InBand(Push(s, x), lo)
  {
  }

  lemma NoLoss(t: RateState)
    requires t.lost == 0
    ensures LossRatio(t) == 0.0
  {
  }

  lemma CalmAdapt(t: RateState)
    requires RateInRange(t) && LossRatio(t) == 0.0 && !Rising(t.samples)
    ensures RateInRange(Adapt(t)) && Adapt(t).rateBps >= t.rateBps
    ensures Adapt(t).lost == t.lost && Adapt(t).samples == t.samples
    ensures t.rateBps < MAX_RATE ==> Adapt(t).rateBps > t.rateBps
  {
    ScaleBounds(t.rateBps);
  }

  /** Without loss and within a 10 ms band of round trip times the rate never falls, and
      every acknowledgement raises it until the cap. */
  lemma {:induction false} CalmRun(r: RateState, ops: seq<Op>, lo: int)
    requires RateInRange(r) && r.lost == 0 && InBand(r.samples, lo)
    requires Lossless(ops) && AcksInBand(ops, lo) && 0 <= lo && lo + TREND_US < TWO_64 / 8
    ensures MAX_RATE >= Run(r, ops).rateBps >= r.rateBps
    ensures r.rateBps + Acks(ops) <= Run(r, ops).rateBps || Run(r, ops).rateBps == MAX_RATE
    decreases |ops|
  {
    if ops != [] {
      CalmStep(r, ops[0], lo);
      var rest := ops[1..];
      forall k | 0 <= k < |rest|
        ensures !rest[k].LossOp? && (rest[k].AckOp? ==> lo <= rest[k].rttUs <= lo + TREND_US)
      {
        assert rest[k] == ops[k + 1];
      }
      CalmRun(Apply(r, ops[0]), rest, lo);
    }
  }

  function Acks(ops: seq<Op>): nat {
    if ops == [] then 0 else (if ops[0].AckOp? then 1 else 0) + Acks(ops[1..])
  }

  // ---------------------------------------------------------------- down to the floor

  function BackOnce(rate: int): int {
    if Scale(rate, 0.8) < MIN_RATE then MIN_RATE else Scale(rate, 0.8)
  }

  /** The rate after `n` consecutive backoffs for loss. */
  function Backoff(rate: int, n: nat): int
    decreases n
  {
    if n == 0 then rate else Backoff(BackOnce(rate), n - 1)
  }

  function FourFifths(n: nat): real {
    if n == 0 then 1.0 else 0.8 * FourFifths(n - 1)
  }

  lemma {:induction false} BackoffBound(rate: int, n: nat)
    requires MIN_RATE <= rate <= MAX_RATE
    ensures MIN_RATE <= Backoff(rate, n)
    ensures Backoff(rate, n) == MIN_RATE || Backoff(rate, n) as real <= rate as real * FourFifths(n)
    decreases n
  {
    if n > 0 {
      var r := BackOnce(rate);
      ScaleBounds(rate);
      BackoffBound(r, n - 1);
      var f := FourFifths(n - 1);
      Positive(n - 1);
      if r > MIN_RATE {
        Grows(r as real, 0.8 * rate as real, f);
        assert 0.8 * rate as real * f == rate as real * (0.8 * f);
      } else {
        AtFloor(n - 1);
      }
    }
  }

  lemma {:induction false} Positive(n: nat)
    ensures FourFifths(n) > 0.0
  {
    if n > 0 { Positive(n - 1); }
  }

  lemma {:induction false} AtFloor(n: nat)
    ensures Backoff(MIN_RATE, n) == MIN_RATE
  {
    if n > 0 { AtFloor(n - 1); }
  }

  lemma {:induction false} BackoffSplit(rate: int, m: nat, n: nat)
    ensures Backoff(rate, m + n) == Backoff(Backoff(rate, m), n)
    decreases m
  {
    if m > 0 { BackoffSplit(BackOnce(rate), m - 1, n); }
  }

  lemma FourMore(n: nat)
    ensures FourFifths(n + 4) == 0.4096 * FourFifths(n)
  {
    assert FourFifths(n + 4) == 0.8 * FourFifths(n + 3) == 0.64 * FourFifths(n + 2);
    assert FourFifths(n + 2) == 0.8 * FourFifths(n + 1) == 0.64 * FourFifths(n);
  }

  lemma PowersUsed()
    ensures FourFifths(31) < 0.001 && FourFifths(30) > 0.0012
  {
    FourMore(0);
    FourMore(4);
    FourMore(8);
    FourMore(12);
    FourMore(16);
    FourMore(20);
    FourMore(24);
    assert FourFifths(30) == 0.8 * FourFifths(29) == 0.64 * FourFifths(28);
    assert FourFifths(31) == 0.8 * FourFifths(30);
  }

  /** Steps after each of which more than five percent counts as lost. */
  predicate Lossy(r: RateState, ops: seq<Op>)
    decreases |ops|
  {
    ops == [] ||
    ((ops[0].LossOp? || ops[0].AckOp?) && LossRatio(Apply(r, ops[0])) > 0.05 && Lossy(Apply(r, ops[0]), ops[1..]))
  }

  lemma {:induction false} LossyIsBackoff(r: RateState, ops: seq<Op>)
    requires Lossy(r, ops)
    ensures Run(r, ops).rateBps == Backoff(r.rateBps, |ops|)
    decreases |ops|
  {
    if ops != [] {
      LossyIsBackoff(Apply(r, ops[0]), ops[1..]);
    }
  }

  /** Thirty-one lossy steps in a row take any rate to the floor, where it stays; from the
      top rate thirty are not enough. */
  lemma ThirtyOneToFloor(r: RateState, ops: seq<Op>)
    requires RateInRange(r) && Lossy(r, ops)
    ensures |ops| >= 31 ==> Run(r, ops).rateBps == MIN_RATE
    ensures r.rateBps == MAX_RATE && |ops| <= 30 ==> Run(r, ops).rateBps > MIN_RATE
  {
    LossyIsBackoff(r, ops);
    if |ops| >= 31 {
      ThirtyOneReach(r.rateBps, |ops|);
    } else if r.rateBps == MAX_RATE {
      ThirtyNotEnough(|ops|);
    }
  }

  lemma FloorReached(rate: int, n: nat)
    requires MIN_RATE <= rate <= MAX_RATE && FourFifths(n) < 0.001
    ensures Backoff(rate, n) == MIN_RATE
  {
    BackoffBound(rate, n);
    Positive(n);
    Grows(rate as real, 100_000_000.0, FourFifths(n));
    var b := rate as real * FourFifths(n);
    assert b < 100_000.0;
  }

  lemma ThirtyOneReach(rate: int, n: nat)
    requires MIN_RATE <= rate <= MAX_RATE && n >= 31
    ensures Backoff(rate, n) == MIN_RATE
  {
    PowersUsed();
    FloorReached(rate, 31);
    BackoffSplit(rate, 31, n - 31);
    AtFloor(n - 31);
  }

  lemma ThirtyNotEnough(n: nat)
    requires n <= 30
    ensures Backoff(MAX_RATE, n) > MIN_RATE
  {
    BackoffSplit(MAX_RATE, n, 30 - n);
    ThirtyFromTop();
    BackoffNonNegative(MAX_RATE, n);
    if Backoff(MAX_RATE, n) <= MIN_RATE { FloorBelow(Backoff(MAX_RATE, n), 30 - n); }
  }

  lemma {:induction false} BackoffNonNegative(rate: int, n: nat)
    requires 0 <= rate
    ensures 0 <= Backoff(rate, n)
    decreases n
  {
    if n > 0 { BackoffNonNegative(BackOnce(rate), n - 1); }
  }

  lemma FloorBelow(rate: int, n: nat)
    requires 0 <= rate <= MIN_RATE
    ensures Backoff(rate, n) <= MIN_RATE
  {
    if n > 0 {
      assert BackOnce(rate) == MIN_RATE;
      AtFloor(n - 1);
    }
  }

  lemma BackOnceLower(rate: int)
    requires 0 <= rate
    ensures 0.8 * (rate + 5) as real <= (BackOnce(rate) + 5) as real
  {
  }

  /** Truncation costs less than five in total, however many steps are taken. */
  lemma {:induction false} BackoffLower(rate: int, n: nat)
    requires 0 <= rate
    ensures (Backoff(rate, n) + 5) as real >= (rate + 5) as real * FourFifths(n)
    decreases n
  {
    if n > 0 {
      var r := BackOnce(rate);
      BackoffLower(r, n - 1);
      Positive(n - 1);
      BackOnceLower(rate);
      LowerStill((rate + 5) as real, (r + 5) as real, (Backoff(rate, n) + 5) as real, FourFifths(n - 1));
    }
  }

  lemma LowerStill(a: real, b: real, c: real, f: real)
    requires 0.8 * a <= b && b * f <= c && f >= 0.0
    ensures a * (0.8 * f) <= c
  {
    Grows(0.8 * a, b, f);
    assert a * (0.8 * f) == 0.8 * a * f;
  }

  lemma Grows(a: real, b: real, f: real)
    requires a <= b && f >= 0.0
    ensures a * f <= b * f
  {
    assert (b - a) * f >= 0.0;
  }

  lemma ThirtyFromTop()
    ensures Backoff(MAX_RATE, 30) > MIN_RATE
  {
    BackoffLower(MAX_RATE, 30);
    PowersUsed();
    Grows(0.0012, FourFifths(30), (MAX_RATE + 5) as real);
  }
}
