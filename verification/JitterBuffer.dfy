/** The receiver's jitter buffer: 256 packets, and eviction of the oldest packet of the
    lowest priority when a packet of higher priority needs its place. */
module Jitter {
  import opened Wire

  const MAX_BUFFER := 256
  const MAX_WINDOW := 32

  datatype Buffered = Buffered(sequenceNumber: uint32, arrivalUs: uint64, payloadSize: uint16, priority: byte)

  datatype JitterState = JitterState(
    targetMs: uint32, buffer: seq<Buffered>, window: seq<uint64>, lastArrivalUs: uint64,
    nextExpected: uint32, initialized: bool)

  function Fresh(targetMs: uint32): JitterState { JitterState(targetMs, [], [], 0, 0, false) }

  /** Order of eviction: priority first, then arrival time. */
  predicate Before(a: Buffered, b: Buffered) {
    a.priority < b.priority || (a.priority == b.priority && a.arrivalUs < b.arrivalUs)
  }

  /** The index of the first least element in the order of eviction. */
  function Victim(b: seq<Buffered>): (i: nat)
    requires b != []
    ensures i < |b| && forall k :: 0 <= k < |b| ==> !Before(b[k], b[i])
    ensures forall k :: 0 <= k < i ==> Before(b[i], b[k])
  {
    if |b| == 1 then 0 else
    var n := |b| - 1;
    var i := Victim(b[..n]);
    if Before(b[n], b[i]) then n else i
  }

  method FindVictim(b: seq<Buffered>) returns (i: nat)
    requires b != []
    ensures i < |b| && i == Victim(b)
  {
    i := 0;
    assert b[..1] == [b[0]];
    for k := 1 to |b|
      invariant i < k && i == Victim(b[..k])
    {
      assert b[..k + 1][..k] == b[..k];
      if Before(b[k], b[i]) {
        i := k;
      }
    }
    assert b[..|b|] == b;
  }

  function Without(b: seq<Buffered>, i: nat): seq<Buffered>
    requires i < |b|
  {
    b[..i] + b[i + 1..]
  }

  /** A window with one time more, the oldest of more than 32 left out. */
  function Slide(w: seq<uint64>, x: uint64): seq<uint64> {
    if |w| + 1 > MAX_WINDOW then (w + [x])[1..] else w + [x]
  }

  /** The window of inter-arrival times after an arrival. */
  function Window(s: JitterState, arrivalUs: uint64): seq<uint64> {
    if s.lastArrivalUs == 0 then s.window else Slide(s.window, U64(arrivalUs - s.lastArrivalUs))
  }

  predicate HasRoom(b: seq<Buffered>, priority: byte) {
    |b| < MAX_BUFFER || b[Victim(b)].priority < priority
  }

  /** The buffer with `p` taken in, provided there is or can be made room. */
  function Insert(b: seq<Buffered>, p: Buffered): seq<Buffered> {
    if |b| < MAX_BUFFER then b + [p]
    else if b[Victim(b)].priority < p.priority then Without(b, Victim(b)) + [p]
    else b
  }

  function AfterPush(s: JitterState, p: Buffered): JitterState {
    JitterState(s.targetMs, Insert(s.buffer, p), Window(s, p.arrivalUs), p.arrivalUs,
                if s.initialized then s.nextExpected else p.sequenceNumber, true)
  }

  /** The front packet is due: held for the target depth, or alone. */
  predicate Due(s: JitterState, nowUs: uint64) {
    s.buffer != [] && (U64(nowUs - s.buffer[0].arrivalUs) >= s.targetMs * 1000 || |s.buffer| == 1)
  }

  function AfterPop(s: JitterState, nowUs: uint64): JitterState {
    if Due(s, nowUs) then s.(buffer := s.buffer[1..], nextExpected := U32(s.buffer[0].sequenceNumber + 1)) else s
  }

  class JitterBuffer {
    const targetMs: uint32
    var buffer: seq<Buffered>
    var window: seq<uint64>
    var lastArrivalUs: uint64
    var nextExpected: uint32
    var initialized: bool

    function State(): JitterState
      reads this
    {
      JitterState(targetMs, buffer, window, lastArrivalUs, nextExpected, initialized)
    }

    constructor (targetMs: uint32)
      ensures State() == Fresh(targetMs)
    {
      this.targetMs := targetMs;
      buffer, window, lastArrivalUs, nextExpected, initialized := [], [], 0, 0, false;
    }

    method Push(seqNo: uint32, arrivalUs: uint64, payloadSize: uint16, priority: byte) returns (accepted: bool)
      modifies this
      ensures accepted == HasRoom(old(buffer), priority)
      ensures State() == AfterPush(old(State()), Buffered(seqNo, arrivalUs, payloadSize, priority))
    {
      if !initialized {
        nextExpected := seqNo;
        initialized := true;
      }
      UpdateJitterEstimate(arrivalUs);
      lastArrivalUs := arrivalUs;
      if |buffer| >= MAX_BUFFER {
        var i := FindVictim(buffer);
        if buffer[i].priority < priority {
          buffer := Without(buffer, i);
        } else {
          return false;
        }
      }
      buffer := buffer + [Buffered(seqNo, arrivalUs, payloadSize, priority)];
      accepted := true;
    }

    method Pop(nowUs: uint64) returns (p: Option<Buffered>)
      modifies this
      ensures p == if Due(old(State()), nowUs) then Some(old(buffer)[0]) else None
      ensures State() == AfterPop(old(State()), nowUs)
    {
      if buffer == [] {
        return None;
      }
      var front := buffer[0];
      var bufferedUs := U64(nowUs - front.arrivalUs);
      var targetUs := targetMs * 1000;
      if bufferedUs >= targetUs || |buffer| == 1 {
        buffer := buffer[1..];
        nextExpected := U32(front.sequenceNumber + 1);
        return Some(front);
      }
      return None;
    }

    method UpdateJitterEstimate(arrivalUs: uint64)
      modifies this`window
      ensures window == Window(old(State()), arrivalUs)
    {
      if lastArrivalUs == 0 {
        return;
      }
      window := window + [U64(arrivalUs - lastArrivalUs)];
      if |window| > MAX_WINDOW {
        window := window[1..];
      }
    }
  }

  // ---------------------------------------------------------------- one push and one pop

  /** Index `i` is that of the oldest packet of the lowest priority, the first of several. */
  predicate IsVictim(b: seq<Buffered>, i: nat) {
    i < |b| &&
    (forall k :: 0 <= k < |b| ==>
      b[k].priority > b[i].priority || (b[k].priority == b[i].priority && b[k].arrivalUs >= b[i].arrivalUs)) &&
    forall k :: 0 <= k < i ==> b[k].priority > b[i].priority || b[k].arrivalUs > b[i].arrivalUs
  }

  /** A push appends while fewer than 256 packets are held; then it takes the place of the victim, if
      that is of lower priority, and otherwise changes nothing. */
  lemma InsertIs(b: seq<Buffered>, p: Buffered, i: nat)
    requires |b| < 256 || IsVictim(b, i)
    ensures Insert(b, p) ==
      if |b| < 256 then b + [p] else if b[i].priority < p.priority then b[..i] + b[i + 1..] + [p] else b
    ensures HasRoom(b, p.priority) <==> |b| < 256 || b[i].priority < p.priority
  {
    if |b| >= 256 {
      var v := Victim(b);
      assert !Before(b[v], b[i]) && !Before(b[i], b[v]);
      assert v == i;
    }
  }

  /** A pop takes the front packet when it has been held for the target depth or is alone. */
  lemma PopIs(s: JitterState, nowUs: uint64)
    requires forall k :: 0 <= k < |s.buffer| ==> s.buffer[k].arrivalUs <= nowUs
    ensures Due(s, nowUs) <==>
      s.buffer != [] && (nowUs - s.buffer[0].arrivalUs >= s.targetMs * 1000 || |s.buffer| == 1)
    ensures AfterPop(s, nowUs) ==
      if Due(s, nowUs) then s.(buffer := s.buffer[1..], nextExpected := (s.buffer[0].sequenceNumber + 1) % TWO_32) else s
  {
    if s.buffer != [] { assert s.buffer[0].arrivalUs <= nowUs; }
  }

  /** The last 32 of a sequence. */
  function Last32(d: seq<uint64>): seq<uint64> { if |d| <= 32 then d else d[|d| - 32..] }

  /** The times from one arrival to the next. */
  function Gaps(last: uint64, ps: seq<Buffered>): seq<uint64>
    decreases |ps|
  {
    if ps == [] then [] else [U64(ps[0].arrivalUs - last)] + Gaps(ps[0].arrivalUs, ps[1..])
  }

  lemma DropAppend(v: seq<uint64>, d: seq<uint64>, k: nat)
    requires k <= |v|
    ensures v[k..] + d == (v + d)[k..]
  {
  }

  lemma DropDrop(t: seq<uint64>, k: nat, m: nat)
    requires k + m <= |t|
    ensures t[k..][m..] == t[k + m..]
  {
  }

  /** What is before the last 32 plays no part. */
  lemma LastLast(v: seq<uint64>, d: seq<uint64>)
    ensures Last32(Last32(v) + d) == Last32(v + d)
  {
    if |v| > 32 {
      DropAppend(v, d, |v| - 32);
      DropDrop(v + d, |v| - 32, |d|);
      assert |v| - 32 + |d| == |v + d| - 32 && |(v + d)[|v| - 32..]| - 32 == |d|;
    }
  }

  lemma LastMore(w: seq<uint64>, x: uint64, v: seq<uint64>, rest: seq<uint64>, all: seq<uint64>)
    requires v == Last32(w + [x]) && all == [x] + rest
    ensures Last32(v + rest) == Last32(w + all)
  {
    LastLast(w + [x], rest);
    Assoc(w, [x], rest);
  }

  /** The window, one gap at a time. */
  function Slid(w: seq<uint64>, last: uint64, ps: seq<Buffered>): seq<uint64>
    decreases |ps|
  {
    if ps == [] then w else Slid(Slide(w, U64(ps[0].arrivalUs - last)), ps[0].arrivalUs, ps[1..])
  }

  lemma {:induction false} PushesSlide(s: JitterState, ps: seq<Buffered>)
    requires s.lastArrivalUs > 0 && forall k :: 0 <= k < |ps| ==> ps[k].arrivalUs > 0
    ensures Pushes(s, ps).window == Slid(s.window, s.lastArrivalUs, ps)
    decreases |ps|
  {
    if ps != [] { PushesSlide(AfterPush(s, ps[0]), ps[1..]); }
  }

  lemma SlideIs(w: seq<uint64>, x: uint64)
    requires |w| <= 32
    ensures Slide(w, x) == Last32(w + [x]) && |Slide(w, x)| <= 32
  {
  }

  lemma {:induction false} SlidIs(w: seq<uint64>, last: uint64, ps: seq<Buffered>)
    requires |w| <= 32
    ensures Slid(w, last, ps) == Last32(w + Gaps(last, ps))
    decreases |ps|
  {
    if ps == [] {
      assert w + [] == w;
    } else {
      var x := U64(ps[0].arrivalUs - last);
      SlideIs(w, x);
      SlidIs(Slide(w, x), ps[0].arrivalUs, ps[1..]);
      LastMore(w, x, Slide(w, x), Gaps(ps[0].arrivalUs, ps[1..]), Gaps(last, ps));
    }
  }

  /** After any pushes with a running clock the window holds the last 32 times between arrivals. */
  lemma WindowIsGaps(s: JitterState, ps: seq<Buffered>)
    requires s.lastArrivalUs > 0 && |s.window| <= 32 && forall k :: 0 <= k < |ps| ==> ps[k].arrivalUs > 0
    ensures Pushes(s, ps).window == Last32(s.window + Gaps(s.lastArrivalUs, ps))
  {
    PushesSlide(s, ps);
    SlidIs(s.window, s.lastArrivalUs, ps);
  }

  /** The first arrival makes no gap, and gives the first number to expect. */
  lemma FirstPush(targetMs: uint32, p: Buffered)
    ensures AfterPush(Fresh(targetMs), p) == JitterState(targetMs, [p], [], p.arrivalUs, p.sequenceNumber, true)
  {
  }

  // ---------------------------------------------------------------- retention

  predicate Sized(s: JitterState) { |s.buffer| <= MAX_BUFFER && |s.window| <= MAX_WINDOW }

  predicate TwoLevels(b: seq<Buffered>) { forall k :: 0 <= k < |b| ==> b[k].priority <= 1 }

  /** The packets of high priority, in order. */
  function Highs(b: seq<Buffered>): (h: seq<Buffered>)
    ensures |h| <= |b|
  {
    if b == [] then [] else (if b[0].priority >= 1 then [b[0]] else []) + Highs(b[1..])
  }

  lemma {:induction false} HighsAppend(a: seq<Buffered>, b: seq<Buffered>)
    ensures Highs(a + b) == Highs(a) + Highs(b)
  {
    if a == [] {
      assert a + b == b;
    } else {
      HighsAppend(a[1..], b);
      assert (a + b)[1..] == a[1..] + b && (a + b)[0] == a[0];
      Assoc(if a[0].priority >= 1 then [a[0]] else [], Highs(a[1..]), Highs(b));
    }
  }

  lemma HighsOne(p: Buffered)
    ensures Highs([p]) == if p.priority >= 1 then [p] else []
  {
    assert Highs([p][1..]) == [];
  }

  lemma {:induction false} WithoutLow(b: seq<Buffered>, i: nat)
    requires i < |b| && b[i].priority == 0
    ensures Highs(Without(b, i)) == Highs(b)
  {
    assert b == b[..i] + ([b[i]] + b[i + 1..]);
    HighsAppend(b[..i], [b[i]] + b[i + 1..]);
    HighsAppend([b[i]], b[i + 1..]);
    HighsOne(b[i]);
    HighsAppend(b[..i], b[i + 1..]);
  }

  lemma {:induction false} AllHigh(b: seq<Buffered>)
    requires forall k :: 0 <= k < |b| ==> b[k].priority >= 1
    ensures Highs(b) == b
  {
    if b != [] {
      AllHigh(b[1..]);
      HeadTail(b);
    }
  }

  lemma EvictLow(b: seq<Buffered>, i: nat, p: Buffered)
    requires i < |b| <= MAX_BUFFER && TwoLevels(b) && b[i].priority < p.priority <= 1
    ensures Highs(Without(b, i) + [p]) == Highs(b) + [p] && |Highs(b)| < MAX_BUFFER
  {
    WithoutLow(b, i);
    HighsAppend(Without(b, i), [p]);
    HighsOne(p);
    assert |Highs(Without(b, i))| <= |Without(b, i)| == |b| - 1;
  }

  /** When the packet to evict is of high priority, all are. */
  lemma VictimHigh(b: seq<Buffered>, i: nat)
    requires i < |b| && b[i].priority >= 1 && forall k :: 0 <= k < |b| ==> !Before(b[k], b[i])
    ensures Highs(b) == b
  {
    forall k | 0 <= k < |b| ensures b[k].priority >= 1 {
      assert !Before(b[k], b[i]);
    }
    AllHigh(b);
  }

  lemma InsertSized(b: seq<Buffered>, p: Buffered)
    requires |b| <= MAX_BUFFER && TwoLevels(b) && p.priority <= 1
    ensures |Insert(b, p)| <= MAX_BUFFER && TwoLevels(Insert(b, p))
  {
  }

  lemma InsertLast(b: seq<Buffered>, p: Buffered)
    requires |b| < MAX_BUFFER && p.priority <= 1
    ensures Highs(Insert(b, p)) == if p.priority == 1 then Highs(b) + [p] else Highs(b)
  {
    HighsOne(p);
    HighsAppend(b, [p]);
    assert Highs(b) + [] == Highs(b);
  }

  /** A push never evicts a packet of high priority, and takes in a new one whenever fewer
      than 256 of them are held. */
  lemma InsertHighs(b: seq<Buffered>, p: Buffered)
    requires |b| <= MAX_BUFFER && TwoLevels(b) && p.priority <= 1
    ensures |Insert(b, p)| <= MAX_BUFFER && TwoLevels(Insert(b, p))
    ensures Highs(Insert(b, p)) == if p.priority == 1 && |Highs(b)| < MAX_BUFFER then Highs(b) + [p] else Highs(b)
  {
    InsertSized(b, p);
    if |b| < MAX_BUFFER {
      InsertLast(b, p);
    } else {
      var i := Victim(b);
      if b[i].priority < p.priority {
        EvictLow(b, i, p);
      } else if p.priority == 1 {
        VictimHigh(b, i);
      }
    }
  }

  function Pushes(s: JitterState, ps: seq<Buffered>): JitterState
    decreases |ps|
  {
    if ps == [] then s else Pushes(AfterPush(s, ps[0]), ps[1..])
  }

  function Cap(h: seq<Buffered>): seq<Buffered> { if |h| <= MAX_BUFFER then h else h[..MAX_BUFFER] }

  lemma CapSnoc(g: seq<Buffered>, p: Buffered)
    ensures Cap(g + [p]) == if |Cap(g)| < MAX_BUFFER then Cap(g) + [p] else Cap(g)
  {
  }

  lemma CapCap(g: seq<Buffered>, h: seq<Buffered>)
    ensures Cap(Cap(g) + h) == Cap(g + h)
  {
  }

  /** After any run of pushes the buffer holds exactly the first 256 packets of high
      priority that were pushed, in order. */
  lemma {:induction false} PushOnly(s: JitterState, ps: seq<Buffered>)
    requires Sized(s) && TwoLevels(s.buffer) && TwoLevels(ps)
    ensures Sized(Pushes(s, ps)) && TwoLevels(Pushes(s, ps).buffer)
    ensures Highs(Pushes(s, ps).buffer) == Cap(Highs(s.buffer) + Highs(ps))
    decreases |ps|
  {
    if ps == [] {
      assert Highs(s.buffer) + [] == Highs(s.buffer);
    } else {
      var p, rest := ps[0], ps[1..];
      var one := if p.priority == 1 then [p] else [];
      InsertHighs(s.buffer, p);
      var t := AfterPush(s, p);
      CapSnoc(Highs(s.buffer), p);
      assert Highs(t.buffer) == Cap(Highs(s.buffer) + one);
      assert TwoLevels(rest) by {
        forall k | 0 <= k < |rest| ensures rest[k].priority <= 1 { assert rest[k] == ps[k + 1]; }
      }
      PushOnly(t, rest);
      CapCap(Highs(s.buffer) + one, Highs(rest));
      Assoc(Highs(s.buffer), one, Highs(rest));
    }
  }

  // ---------------------------------------------------------------- order

  datatype Op = PushOp(p: Buffered) | PopOp(nowUs: uint64)

  /** A run, with what was taken in and what came out. */
  datatype History = History(state: JitterState, accepted: seq<Buffered>, popped: seq<Buffered>)

  function Step(h: History, op: Op): History {
    match op
    case PushOp(p) =>
      History(AfterPush(h.state, p), if HasRoom(h.state.buffer, p.priority) then h.accepted + [p] else h.accepted, h.popped)
    case PopOp(now) =>
      History(AfterPop(h.state, now), h.accepted, if Due(h.state, now) then h.popped + [h.state.buffer[0]] else h.popped)
  }

  function Run(h: History, ops: seq<Op>): History
    decreases |ops|
  {
    if ops == [] then h else Run(Step(h, ops[0]), ops[1..])
  }

  /** `f` picks the elements of `a` out of `b`, in order. */
  ghost predicate Picks(f: seq<nat>, a: seq<Buffered>, b: seq<Buffered>) {
    |f| == |a| && (forall i :: 0 <= i < |f| ==> f[i] < |b| && a[i] == b[f[i]]) &&
    forall i, j :: 0 <= i < j < |f| ==> f[i] < f[j]
  }

  ghost predicate Subsequence(a: seq<Buffered>, b: seq<Buffered>) { exists f: seq<nat> :: Picks(f, a, b) }

  lemma SubsequenceSnoc(a: seq<Buffered>, b: seq<Buffered>, p: Buffered)
    requires Subsequence(a, b)
    ensures Subsequence(a + [p], b + [p])
  {
    var f: seq<nat> :| Picks(f, a, b);
    var last: nat := |b|;
    assert Picks(f + [last], a + [p], b + [p]);
  }

  lemma SubsequenceCut(a: seq<Buffered>, b: seq<Buffered>, n: nat)
    requires Subsequence(a, b) && n < |a|
    ensures Subsequence(a[..n] + a[n + 1..], b)
  {
    var f: seq<nat> :| Picks(f, a, b);
    assert Picks(f[..n] + f[n + 1..], a[..n] + a[n + 1..], b);
  }

  ghost predicate Ordered(h: History) {
    Sized(h.state) && Subsequence(h.popped + h.state.buffer, h.accepted)
  }

  lemma InsertOrdered(popped: seq<Buffered>, b: seq<Buffered>, accepted: seq<Buffered>, p: Buffered)
    requires |b| <= MAX_BUFFER && Subsequence(popped + b, accepted)
    ensures |Insert(b, p)| <= MAX_BUFFER
    ensures HasRoom(b, p.priority) ==> Subsequence(popped + Insert(b, p), accepted + [p])
    ensures !HasRoom(b, p.priority) ==> Insert(b, p) == b
  {
    if |b| < MAX_BUFFER {
      SubsequenceSnoc(popped + b, accepted, p);
      Assoc(popped, b, [p]);
    } else if b[Victim(b)].priority < p.priority {
      var i := Victim(b);
      SubsequenceCut(popped + b, accepted, |popped| + i);
      var c := Without(b, i);
      assert (popped + b)[..|popped| + i] + (popped + b)[|popped| + i + 1..] == popped + c;
      SubsequenceSnoc(popped + c, accepted, p);
      Assoc(popped, c, [p]);
    }
  }

  lemma StepOrdered(h: History, op: Op)
    requires Ordered(h)
    ensures Ordered(Step(h, op))
  {
    var b := h.state.buffer;
    match op {
      case PopOp(now) =>
        if Due(h.state, now) {
          assert (h.popped + [b[0]]) + b[1..] == h.popped + b;
        }
      case PushOp(p) =>
        InsertOrdered(h.popped, b, h.accepted, p);
    }
  }

  /** Over any interleaving, what is popped and what is still held were accepted, in that
      order, and the buffer and the window keep their bounds. */
  lemma {:induction false} RunOrdered(h: History, ops: seq<Op>)
    requires Ordered(h)
    ensures Ordered(Run(h, ops))
    decreases |ops|
  {
    if ops != [] {
      StepOrdered(h, ops[0]);
      RunOrdered(Step(h, ops[0]), ops[1..]);
    }
  }
}
