/** What a tick does to the packets in flight, said slot by slot and without the scan. */
module TimeoutScan {
  import opened Wire
  import opened Clock
  import opened PacketCodec
  import opened SessionSpec
  import opened Sender
  import opened Filling
  import opened Feedback
  import R = RateControl
  import Rto

  // ---------------------------------------------------------------- the slots

  /** The slot was last sent a timeout ago or longer. */
  predicate Tardy(s: Sending, slot: InFlight, now: Time) { now - slot.lastSent >= Rto.Current(s.rto) * 1000 }

  /** Of the slots `todo`, those that are sent again and those that are given up. */
  ghost function Repeated(s: Sending, todo: set<int>, now: Time): set<int>
    requires todo <= s.inFlight.Keys
  {
    set n | n in todo && Tardy(s, s.inFlight[n], now) && InTime(s, s.inFlight[n], now)
  }

  ghost function TooLate(s: Sending, todo: set<int>, now: Time): set<int>
    requires todo <= s.inFlight.Keys
  {
    set n | n in todo && Tardy(s, s.inFlight[n], now) && !InTime(s, s.inFlight[n], now)
  }

  /** Some slot is tardy and was sent again twenty times. */
  ghost predicate Exhausted(s: Sending, todo: set<int>, now: Time)
    requires todo <= s.inFlight.Keys
  {
    exists n :: n in todo && Tardy(s, s.inFlight[n], now) && s.inFlight[n].retries >= 20
  }

  ghost predicate AllPlausible(s: Sending, todo: set<int>, now: Time)
    requires todo <= s.inFlight.Keys
  {
    forall n :: n in todo ==> Plausible(s, s.inFlight[n], now)
  }

  /** The packets of the slots `again`, once each, in the order of their numbers. */
  ghost predicate Lists(out: seq<Packet>, s: Sending, again: set<int>) {
    |out| == |again| &&
    (forall k :: 0 <= k < |out| ==>
      out[k].header.sequenceNumber as int in again && out[k].header.sequenceNumber as int in s.inFlight &&
      out[k] == s.inFlight[out[k].header.sequenceNumber as int].packet) &&
    forall j, k :: 0 <= j < k < |out| ==> out[j].header.sequenceNumber < out[k].header.sequenceNumber
  }

  /** The rate after `k` losses. */
  function Losses(r: R.RateState, k: nat): R.RateState
    decreases k
  {
    if k == 0 then r else Losses(R.AfterLoss(r), k - 1)
  }

  /** A slot that was sent `again`, or not. */
  function After(slot: InFlight, again: bool, now: Time): InFlight {
    if again then InFlight(slot.packet, now, slot.retries + 1) else slot
  }

  /** Slots after the scan: late ones are gone, the other tardy ones were sent now and once more, and
      the rest is as it was. */
  ghost predicate Slotted(s: Sending, t: Sending, todo: set<int>, now: Time)
    requires todo <= s.inFlight.Keys
  {
    (forall n :: n in t.inFlight <==> n in s.inFlight && n !in TooLate(s, todo, now)) &&
    forall n :: n in s.inFlight && n in t.inFlight ==>
      t.inFlight[n] == After(s.inFlight[n], n in Repeated(s, todo, now), now)
  }

  /** And the rest of the sender. */
  ghost predicate Tallied(s: Sending, t: Sending, todo: set<int>, now: Time)
    requires todo <= s.inFlight.Keys
  {
    t == s.(inFlight := t.inFlight, retransmits := s.retransmits + |Repeated(s, todo, now)|,
            deadlineDrops := s.deadlineDrops + |TooLate(s, todo, now)|, rate := Losses(s.rate, |Repeated(s, todo, now)|))
  }

  // ---------------------------------------------------------------- one slot of the scan

  /** Nothing changed that the verdict on a slot hangs on. */
  predicate SameVerdicts(s: Sending, t: Sending) {
    t.mediaMode == s.mediaMode && t.streamStartSet == s.streamStartSet && t.streamStartUs == s.streamStartUs &&
    t.rto == s.rto
  }

  lemma RestSame(s: Sending, t: Sending, todo: set<int>, m: int, now: Time)
    requires todo <= s.inFlight.Keys && m in todo && todo - {m} <= t.inFlight.Keys && SameVerdicts(s, t)
    requires forall n :: n in todo - {m} ==> t.inFlight[n] == s.inFlight[n]
    ensures Repeated(t, todo - {m}, now) == Repeated(s, todo, now) - {m}
    ensures TooLate(t, todo - {m}, now) == TooLate(s, todo, now) - {m}
    ensures Exhausted(t, todo - {m}, now) <==> Exhausted(s, todo - {m}, now)
    ensures AllPlausible(s, todo, now) ==> AllPlausible(t, todo - {m}, now)
  {
    forall n | n in todo - {m}
      ensures Tardy(t, t.inFlight[n], now) == Tardy(s, s.inFlight[n], now)
      ensures InTime(t, t.inFlight[n], now) == InTime(s, s.inFlight[n], now)
      ensures Plausible(t, t.inFlight[n], now) == Plausible(s, s.inFlight[n], now)
    {
      assert t.inFlight[n] == s.inFlight[n];
    }
    forall n ensures n in Repeated(t, todo - {m}, now) <==> n in Repeated(s, todo, now) - {m} {
    }
    forall n ensures n in TooLate(t, todo - {m}, now) <==> n in TooLate(s, todo, now) - {m} {
    }
  }

  lemma WithOne(a: set<int>, m: int)
    requires m in a
    ensures |a| == |a - {m}| + 1
  {
    assert a == (a - {m}) + {m};
  }

  lemma WithoutNone(a: set<int>, m: int)
    requires m !in a
    ensures a - {m} == a
  {
  }

  lemma {:induction false} DeadIff(s: Sending, todo: set<int>, now: Time, rtoUs: int)
    requires todo <= s.inFlight.Keys && rtoUs == Rto.Current(s.rto)
    ensures Sweep(s, todo, now, rtoUs).dead <==> Exhausted(s, todo, now)
    decreases |todo|
  {
    if todo != {} {
      var m := Least(todo);
      var slot := s.inFlight[m];
      var rest := todo - {m};
      assert Exhausted(s, todo, now) <==> Exhausted(s, rest, now) || (Tardy(s, slot, now) && slot.retries >= 20);
      if !TimedOut(slot.lastSent, now, rtoUs) {
        DeadIff(s, rest, now, rtoUs);
      } else if slot.retries + 1 <= MAX_RETRIES {
        var t := if ShouldRetransmit(s, slot, now) then Resent(s, m, now, slot.retries + 1) else Dropped(s, m);
        RestSame(s, t, todo, m, now);
        DeadIff(t, rest, now, rtoUs);
      }
    }
  }

  // ---------------------------------------------------------------- the scan

  ghost predicate Scanned(s: Sending, t: Sending, out: seq<Packet>, todo: set<int>, now: Time)
    requires todo <= s.inFlight.Keys
  {
    Slotted(s, t, todo, now) && Tallied(s, t, todo, now) && Lists(out, s, Repeated(s, todo, now))
  }

  lemma ScannedNone(s: Sending, now: Time)
    ensures Scanned(s, s, [], {}, now)
  {
  }

  /** A slot that has not timed out. */
  lemma ScannedPast(s: Sending, u: Sending, out: seq<Packet>, todo: set<int>, m: int, now: Time)
    requires todo <= s.inFlight.Keys && m in todo && !Tardy(s, s.inFlight[m], now)
    requires Scanned(s, u, out, todo - {m}, now)
    ensures Scanned(s, u, out, todo, now)
  {
    RestSame(s, s, todo, m, now);
    WithoutNone(Repeated(s, todo, now), m);
    WithoutNone(TooLate(s, todo, now), m);
  }

  lemma SlottedLate(s: Sending, t: Sending, u: Sending, todo: set<int>, m: int, now: Time)
    requires todo <= s.inFlight.Keys && m in todo && m in TooLate(s, todo, now) && t.inFlight == s.inFlight - {m}
    requires todo - {m} <= t.inFlight.Keys && Slotted(t, u, todo - {m}, now)
    requires Repeated(t, todo - {m}, now) == Repeated(s, todo, now) - {m}
    requires TooLate(t, todo - {m}, now) == TooLate(s, todo, now) - {m}
    ensures Slotted(s, u, todo, now)
  {
    forall n ensures n in u.inFlight <==> n in s.inFlight && n !in TooLate(s, todo, now) {
      assert n in t.inFlight <==> n in s.inFlight && n != m;
    }
  }

  /** One that is given up. */
  lemma ScannedLate(s: Sending, u: Sending, out: seq<Packet>, todo: set<int>, m: int, now: Time)
    requires todo <= s.inFlight.Keys && m in todo && Tardy(s, s.inFlight[m], now) && !InTime(s, s.inFlight[m], now)
    requires todo - {m} <= GivenUp(s, m).inFlight.Keys && Scanned(GivenUp(s, m), u, out, todo - {m}, now)
    ensures Scanned(s, u, out, todo, now)
  {
    var t := GivenUp(s, m);
    RestSame(s, t, todo, m, now);
    WithoutNone(Repeated(s, todo, now), m);
    WithOne(TooLate(s, todo, now), m);
    SlottedLate(s, t, u, todo, m, now);
    ListsFor(out, t, s, Repeated(s, todo, now));
  }

  lemma ListsFor(out: seq<Packet>, t: Sending, s: Sending, again: set<int>)
    requires Lists(out, t, again) && forall n :: n in t.inFlight ==> n in s.inFlight && s.inFlight[n] == t.inFlight[n]
    ensures Lists(out, s, again)
  {
  }

  lemma ListsMore(s: Sending, t: Sending, p: Packet, out: seq<Packet>, again: set<int>, m: int)
    requires m in again && m in s.inFlight && p == s.inFlight[m].packet && p.header.sequenceNumber == m
    requires Lists(out, t, again - {m}) && forall n :: n in again ==> m <= n
    requires forall n :: n in t.inFlight && n != m ==> n in s.inFlight && t.inFlight[n] == s.inFlight[n]
    ensures Lists([p] + out, s, again)
  {
    WithOne(again, m);
    forall k | 0 <= k < |[p] + out|
      ensures ([p] + out)[k].header.sequenceNumber as int in again
      ensures ([p] + out)[k].header.sequenceNumber as int in s.inFlight
      ensures ([p] + out)[k] == s.inFlight[([p] + out)[k].header.sequenceNumber as int].packet
    {
      if k > 0 { assert ([p] + out)[k] == out[k - 1]; }
    }
  }

  lemma SlottedAgain(s: Sending, t: Sending, u: Sending, todo: set<int>, m: int, now: Time)
    requires todo <= s.inFlight.Keys && m in todo && m in Repeated(s, todo, now) && m !in TooLate(s, todo, now)
    requires t.inFlight == s.inFlight[m := InFlight(s.inFlight[m].packet, now, s.inFlight[m].retries + 1)]
    requires todo - {m} <= t.inFlight.Keys && Slotted(t, u, todo - {m}, now)
    requires Repeated(t, todo - {m}, now) == Repeated(s, todo, now) - {m}
    requires TooLate(t, todo - {m}, now) == TooLate(s, todo, now)
    ensures Slotted(s, u, todo, now)
  {
  }

  lemma TalliedAgain(s: Sending, t: Sending, u: Sending, todo: set<int>, m: int, now: Time)
    requires todo <= s.inFlight.Keys && m in s.inFlight && t == Again(s, m, now) && todo - {m} <= t.inFlight.Keys
    requires |Repeated(s, todo, now)| == |Repeated(t, todo - {m}, now)| + 1
    requires TooLate(t, todo - {m}, now) == TooLate(s, todo, now) && Tallied(t, u, todo - {m}, now)
    ensures Tallied(s, u, todo, now)
  {
  }

  /** One that is sent again. */
  lemma ScannedAgain(s: Sending, u: Sending, p: Packet, out: seq<Packet>, todo: set<int>, m: int, now: Time)
    requires todo <= s.inFlight.Keys && m in todo && Tardy(s, s.inFlight[m], now) && InTime(s, s.inFlight[m], now)
    requires p == s.inFlight[m].packet && p.header.sequenceNumber == m && forall n :: n in todo ==> m <= n
    requires todo - {m} <= Again(s, m, now).inFlight.Keys && Scanned(Again(s, m, now), u, out, todo - {m}, now)
    ensures Scanned(s, u, [p] + out, todo, now)
  {
    var t := Again(s, m, now);
    RestSame(s, t, todo, m, now);
    WithOne(Repeated(s, todo, now), m);
    WithoutNone(TooLate(s, todo, now), m);
    SlottedAgain(s, t, u, todo, m, now);
    TalliedAgain(s, t, u, todo, m, now);
    ListsMore(s, t, p, out, Repeated(s, todo, now), m);
  }

  ghost predicate OwnNumbers(s: Sending) {
    forall n :: n in s.inFlight ==> s.inFlight[n].packet.header.sequenceNumber == n
  }

  /** The scan's first step, one case each. */
  lemma SweepPast(s: Sending, todo: set<int>, now: Time, rtoUs: int, m: int)
    requires todo <= s.inFlight.Keys && rtoUs == Rto.Current(s.rto) && todo != {} && m == Least(todo)
    requires !Tardy(s, s.inFlight[m], now)
    ensures Sweep(s, todo, now, rtoUs) == Sweep(s, todo - {m}, now, rtoUs)
  {
  }

  lemma SweepAgain(s: Sending, todo: set<int>, now: Time, rtoUs: int, m: int)
    requires todo <= s.inFlight.Keys && rtoUs == Rto.Current(s.rto) && todo != {} && m == Least(todo)
    requires Tardy(s, s.inFlight[m], now) && InTime(s, s.inFlight[m], now) && s.inFlight[m].retries < 20
    requires Plausible(s, s.inFlight[m], now)
    ensures var r := Sweep(Again(s, m, now), todo - {m}, now, rtoUs);
      Sweep(s, todo, now, rtoUs) == Swept(r.s, [s.inFlight[m].packet] + r.out, r.dead)
  {
    InTimeIff(s, s.inFlight[m], now);
  }

  lemma SweepLate(s: Sending, todo: set<int>, now: Time, rtoUs: int, m: int)
    requires todo <= s.inFlight.Keys && rtoUs == Rto.Current(s.rto) && todo != {} && m == Least(todo)
    requires Tardy(s, s.inFlight[m], now) && !InTime(s, s.inFlight[m], now) && s.inFlight[m].retries < 20
    requires Plausible(s, s.inFlight[m], now)
    ensures Sweep(s, todo, now, rtoUs) == Sweep(GivenUp(s, m), todo - {m}, now, rtoUs)
  {
    InTimeIff(s, s.inFlight[m], now);
  }

  lemma LeastIn(todo: set<int>, m: int)
    requires todo != {} && m == Least(todo)
    ensures m in todo && forall n :: n in todo ==> m <= n
  {
  }

  /** The scan over slots none of which is exhausted. */
  lemma {:induction false} SweepScans(s: Sending, todo: set<int>, now: Time, rtoUs: int)
    requires todo <= s.inFlight.Keys && rtoUs == Rto.Current(s.rto) && OwnNumbers(s)
    requires AllPlausible(s, todo, now) && !Exhausted(s, todo, now)
    ensures var r := Sweep(s, todo, now, rtoUs); Scanned(s, r.s, r.out, todo, now)
    decreases |todo|, 1
  {
    if todo == {} {
      ScannedNone(s, now);
    } else {
      var m := Least(todo);
      LeastIn(todo, m);
      if !Tardy(s, s.inFlight[m], now) {
        RestSame(s, s, todo, m, now);
        SweepScans(s, todo - {m}, now, rtoUs);
        SweepPast(s, todo, now, rtoUs, m);
        ScannedPast(s, Sweep(s, todo, now, rtoUs).s, Sweep(s, todo, now, rtoUs).out, todo, m, now);
      } else {
        SweepScansTardy(s, todo, now, rtoUs, m);
      }
    }
  }

  lemma {:induction false} SweepScansTardy(s: Sending, todo: set<int>, now: Time, rtoUs: int, m: int)
    requires todo <= s.inFlight.Keys && rtoUs == Rto.Current(s.rto) && OwnNumbers(s) && todo != {} && m == Least(todo)
    requires AllPlausible(s, todo, now) && !Exhausted(s, todo, now) && Tardy(s, s.inFlight[m], now)
    ensures var r := Sweep(s, todo, now, rtoUs); Scanned(s, r.s, r.out, todo, now)
    decreases |todo|, 0
  {
    LeastIn(todo, m);
    var t := if InTime(s, s.inFlight[m], now) then Again(s, m, now) else GivenUp(s, m);
    RestSame(s, t, todo, m, now);
    SweepScans(t, todo - {m}, now, rtoUs);
    var r := Sweep(t, todo - {m}, now, rtoUs);
    if InTime(s, s.inFlight[m], now) {
      SweepAgain(s, todo, now, rtoUs, m);
      ScannedAgain(s, r.s, s.inFlight[m].packet, r.out, todo, m, now);
    } else {
      SweepLate(s, todo, now, rtoUs, m);
      ScannedLate(s, r.s, r.out, todo, m, now);
    }
  }

  // ---------------------------------------------------------------- the tick

  lemma OwnNumbersOf(s: Sending)
    requires SenderOk(s)
    ensures OwnNumbers(s)
  {
    forall n | n in s.inFlight ensures s.inFlight[n].packet.header.sequenceNumber == n {
      assert s.inFlight[n].packet == s.sent[n];
    }
  }

  /** A tick of an open initiator, when some slot is exhausted. */
  lemma TickGivesUp(e: Endpoint, now: Time)
    requires e.role == Initiator && Open(e) && Exhausted(e.snd, e.snd.inFlight.Keys, now)
    ensures var r := OnTick(e, now); r.out == [] && r.e.failed && r.e.state == Closed
  {
    var t := Refill(e.snd, now);
    ExhaustedStill(e.snd, t, now);
    DeadIff(t, t.inFlight.Keys, now, Rto.Current(t.rto));
  }

  lemma ExhaustedStill(s: Sending, t: Sending, now: Time)
    requires t == s.(rate := t.rate)
    ensures Exhausted(t, t.inFlight.Keys, now) <==> Exhausted(s, s.inFlight.Keys, now)
    ensures AllPlausible(t, t.inFlight.Keys, now) <==> AllPlausible(s, s.inFlight.Keys, now)
    ensures Repeated(t, t.inFlight.Keys, now) == Repeated(s, s.inFlight.Keys, now)
    ensures TooLate(t, t.inFlight.Keys, now) == TooLate(s, s.inFlight.Keys, now)
  {
    forall n ensures n in Repeated(t, t.inFlight.Keys, now) <==> n in Repeated(s, s.inFlight.Keys, now) {
    }
    forall n ensures n in TooLate(t, t.inFlight.Keys, now) <==> n in TooLate(s, s.inFlight.Keys, now) {
    }
  }

  lemma OpenTickIs(e: Endpoint, now: Time, r: Swept)
    requires e.role == Initiator && Open(e) && !r.dead
    requires var t := Refill(e.snd, now); r == Sweep(t, t.inFlight.Keys, now, Rto.Current(t.rto))
    ensures var f := FillWindow(e.(snd := r.s), now); OnTick(e, now) == Reply(f.e, r.out + f.out)
  {
  }

  /** What the tick leaves of the slots that were there, and what it counts; `u` is the sender after
      the scan and before new packets. */
  lemma TickScans(e: Endpoint, now: Time) returns (u: Sending, again: seq<Packet>)
    requires SenderOk(e.snd) && e.role == Initiator && Open(e)
    requires !Exhausted(e.snd, e.snd.inFlight.Keys, now) && AllPlausible(e.snd, e.snd.inFlight.Keys, now)
    ensures Scanned(Refill(e.snd, now), u, again, e.snd.inFlight.Keys, now) && SenderOk(u)
    ensures var f := FillWindow(e.(snd := u), now); OnTick(e, now) == Reply(f.e, again + f.out)
  {
    var t := Refill(e.snd, now);
    Retuned(e.snd, t);
    ExhaustedStill(e.snd, t, now);
    OwnNumbersOf(t);
    DeadIff(t, t.inFlight.Keys, now, Rto.Current(t.rto));
    SweepScans(t, t.inFlight.Keys, now, Rto.Current(t.rto));
    SweepKeeps(t, t.inFlight.Keys, now, Rto.Current(t.rto));
    var r := Sweep(t, t.inFlight.Keys, now, Rto.Current(t.rto));
    OpenTickIs(e, now, r);
    u, again := r.s, r.out;
  }

  /** The slots that were in flight at the tick, after it. */
  ghost predicate Served(s: Sending, t: Sending, now: Time) {
    forall n :: n in s.inFlight ==>
      (n in t.inFlight <==> n !in TooLate(s, s.inFlight.Keys, now)) &&
      (n in t.inFlight ==> t.inFlight[n] == After(s.inFlight[n], n in Repeated(s, s.inFlight.Keys, now), now))
  }

  /** Counters and timer after it, and the rate: as many losses as packets were sent again. */
  ghost predicate Counts(s: Sending, t: Sending, now: Time) {
    var again, late := |Repeated(s, s.inFlight.Keys, now)|, |TooLate(s, s.inFlight.Keys, now)|;
    t.retransmits == s.retransmits + again && t.deadlineDrops == s.deadlineDrops + late && t.rto == s.rto &&
    t.acked == s.acked && t.rate.rateBps == Losses(s.rate, again).rateBps && t.rate.lost == s.rate.lost + again &&
    t.rate.acked == s.rate.acked && t.rate.samples == s.rate.samples
  }

  lemma {:induction false} LossesCount(r: R.RateState, k: nat)
    ensures var q := Losses(r, k); q.lost == r.lost + k && q.acked == r.acked && q.samples == r.samples
    decreases k
  {
    if k > 0 { LossesCount(R.AfterLoss(r), k - 1); }
  }

  /** Tokens have no say in the rate. */
  lemma {:induction false} LossesAlike(a: R.RateState, b: R.RateState, k: nat)
    requires a.rateBps == b.rateBps && a.lost == b.lost && a.acked == b.acked && a.samples == b.samples
    ensures Losses(a, k).rateBps == Losses(b, k).rateBps
    decreases k
  {
    if k > 0 { LossesAlike(R.AfterLoss(a), R.AfterLoss(b), k - 1); }
  }

  lemma ScannedServes(s: Sending, u: Sending, out: seq<Packet>, now: Time)
    requires Scanned(Refill(s, now), u, out, s.inFlight.Keys, now)
    ensures Served(s, u, now) && Counts(s, u, now) && u.sent == s.sent
    ensures Lists(out, s, Repeated(s, s.inFlight.Keys, now))
  {
    var k := |Repeated(s, s.inFlight.Keys, now)|;
    ExhaustedStill(s, Refill(s, now), now);
    LossesCount(R.AfterTick(s.rate, now), k);
    LossesAlike(s.rate, R.AfterTick(s.rate, now), k);
  }

  lemma FilledServed(s: Sending, u: Sending, t: Sending, out: seq<Packet>, now: Time)
    requires SenderOk(s) && Served(s, u, now) && Counts(s, u, now) && Adds(Refill(u, now), t, out, now) && u.sent == s.sent
    ensures Served(s, t, now) && Counts(s, t, now)
  {
    forall n | n in s.inFlight && n in TooLate(s, s.inFlight.Keys, now) ensures n !in t.inFlight {
      assert n < |s.sent|;
    }
  }

  lemma {:induction false} LossesTimely(r: R.RateState, k: nat)
    ensures Losses(r, k).tokens == r.tokens && Losses(r, k).lastRefill == r.lastRefill
    ensures r.rateBps >= 0 ==> Losses(r, k).rateBps >= 0
    decreases k
  {
    if k > 0 { LossesTimely(R.AfterLoss(r), k - 1); }
  }

  /** The bucket is that of a tick. */
  predicate Refilled(a: R.RateState, b: R.RateState, now: Time) {
    b.tokens == R.AfterTick(a, now).tokens && b.lastRefill == now
  }

  lemma ScannedTimely(s: Sending, u: Sending, out: seq<Packet>, now: Time)
    requires Timely(s, now) && Scanned(Refill(s, now), u, out, s.inFlight.Keys, now)
    ensures Timely(u, now)
  {
    RefillTimely(s, now);
    LossesTimely(R.AfterTick(s.rate, now), |Repeated(Refill(s, now), s.inFlight.Keys, now)|);
  }

  /** A tick of an open initiator none of whose slots is exhausted: every tardy packet that is in time
      is sent again, in the order of the numbers and before new ones, every late one is given up, the
      other slots stay as they are, and of new packets as many follow as can go out, or none when it is
      closing. */
  lemma TickReaction(e: Endpoint, now: Time)
    requires SenderOk(e.snd) && e.role == Initiator && Open(e)
    requires !Exhausted(e.snd, e.snd.inFlight.Keys, now) && AllPlausible(e.snd, e.snd.inFlight.Keys, now)
    ensures var r, again := OnTick(e, now), Repeated(e.snd, e.snd.inFlight.Keys, now);
      Served(e.snd, r.e.snd, now) && Counts(e.snd, r.e.snd, now) && r.e == e.(snd := r.e.snd) &&
      e.snd.sent <= r.e.snd.sent && |r.out| == |again| + |r.e.snd.sent| - |e.snd.sent| &&
      Lists(r.out[..|again|], e.snd, again) && r.out[|again|..] == r.e.snd.sent[|e.snd.sent|..] &&
      (Timely(e.snd, now) ==> if e.state == Active then Full(r.e.snd, now) else |r.out| == |again|)
  {
    var u, out := TickScans(e, now);
    ScannedServes(e.snd, u, out, now);
    if Timely(e.snd, now) { ScannedTimely(e.snd, u, out, now); }
    SendsOn(e.(snd := u), now);
    FillServes(e, u, now);
    OutParts(out, FillWindow(e.(snd := u), now).out);
  }

  lemma OutParts(a: seq<Packet>, b: seq<Packet>)
    ensures (a + b)[..|a|] == a && (a + b)[|a|..] == b
  {
  }

  lemma FillServes(e: Endpoint, u: Sending, now: Time)
    requires SenderOk(e.snd) && SenderOk(u) && u.sent == e.snd.sent && e.role == Initiator
    requires Served(e.snd, u, now) && Counts(e.snd, u, now)
    ensures var t := FillWindow(e.(snd := u), now).e.snd; Served(e.snd, t, now) && Counts(e.snd, t, now)
  {
    if e.state == Active {
      var f := FillWindow(e.(snd := u), now);
      FillWindowAdds(e.(snd := u), now);
      FilledServed(e.snd, u, f.e.snd, f.out, now);
    }
  }

  /** While it closes a tick fills the bucket all the same. */
  lemma ClosingTick(e: Endpoint, now: Time)
    requires SenderOk(e.snd) && e.role == Initiator && e.state == Closing
    requires !Exhausted(e.snd, e.snd.inFlight.Keys, now) && AllPlausible(e.snd, e.snd.inFlight.Keys, now)
    ensures Refilled(e.snd.rate, OnTick(e, now).e.snd.rate, now)
  {
    var u, out := TickScans(e, now);
    LossesTimely(R.AfterTick(e.snd.rate, now), |Repeated(Refill(e.snd, now), e.snd.inFlight.Keys, now)|);
  }
}
