/** What acknowledgements do to a sender: how they set its timer and its rate, and when a negative one
    brings a packet back. */
module Feedback {
  import opened Wire
  import opened Clock
  import opened PacketCodec
  import opened SessionSpec
  import opened Sender
  import opened Receiver
  import opened Network
  import opened Reliability
  import opened Pacing
  import opened Filling
  import R = RateControl
  import Rto

  // ---------------------------------------------------------------- negative acknowledgements

  /** A stream's packet is in time while a timeout from now, and 50 ms, still lie before its playback
      time. Dummy packets are always in time, and so is every packet before the stream clock runs. */
  predicate InTime(s: Sending, slot: InFlight, now: Time) {
    s.mediaMode && s.streamStartSet ==>
      now / 1000 - s.streamStartUs + Rto.Current(s.rto) + 50_000 < slot.packet.header.timestampUs
  }

  /** The stream did not start after `now`, and the playback time is less than 2^63. */
  predicate Plausible(s: Sending, slot: InFlight, now: Time) {
    s.mediaMode && s.streamStartSet ==>
      s.streamStartUs <= now / 1000 && slot.packet.header.timestampUs < 0x8000_0000_0000_0000
  }

  lemma InTimeIff(s: Sending, slot: InFlight, now: Time)
    requires Plausible(s, slot, now)
    ensures ShouldRetransmit(s, slot, now) <==> InTime(s, slot, now)
  {
    if s.mediaMode && s.streamStartSet { DeadlineIff(s, slot, now); }
  }

  /** The sender with one packet sent again. */
  function Again(s: Sending, n: int, now: Time): Sending
    requires n in s.inFlight
  {
    var slot := s.inFlight[n];
    s.(inFlight := s.inFlight[n := InFlight(slot.packet, now, slot.retries + 1)], retransmits := s.retransmits + 1,
       rate := R.AfterLoss(s.rate))
  }

  /** The sender without a packet it has given up. */
  function GivenUp(s: Sending, n: int): Sending {
    s.(inFlight := s.inFlight - {n}, deadlineDrops := s.deadlineDrops + 1)
  }

  /** A negative acknowledgement of a packet in flight: in time it is sent again, at once and alone, and
      its slot stays, sent now and once more; too late it is dropped, counted, and nothing is sent. */
  lemma NackReaction(e: Endpoint, p: Packet, now: Time, n: int)
    requires Open(e) && p.header.packetType == Nack && n == p.header.sequenceNumber && n in e.snd.inFlight
    requires Plausible(e.snd, e.snd.inFlight[n], now)
    ensures var r, slot := OnPacket(e, p, now), e.snd.inFlight[n];
      if InTime(e.snd, slot, now) then r == Reply(e.(snd := Again(e.snd, n, now)), [slot.packet])
      else r == Reply(e.(snd := GivenUp(e.snd, n)), [])
  {
    InTimeIff(e.snd, e.snd.inFlight[n], now);
  }

  /** Any other does nothing. */
  lemma NackIgnored(e: Endpoint, p: Packet, now: Time)
    requires p.header.packetType == Nack && (!Open(e) || p.header.sequenceNumber as int !in e.snd.inFlight)
    ensures OnPacket(e, p, now) == Reply(e, [])
  {
  }

  // ---------------------------------------------------------------- acknowledgements

  /** The timer after a sample of `us` microseconds. */
  predicate Timed(a: Rto.RtoState, b: Rto.RtoState, us: nat) {
    var r := (if us == 0 then 1 else us) as real;
    b.initialized &&
    if a.initialized then
      8.0 * b.srttUs == 7.0 * a.srttUs + r &&
      4.0 * b.rttvarUs == 3.0 * a.rttvarUs + (if r < a.srttUs then a.srttUs - r else r - a.srttUs)
    else b.srttUs == r && 2.0 * b.rttvarUs == r
  }

  /** The rate after that sample. */
  predicate Rated(a: R.RateState, b: R.RateState, us: nat) {
    b.acked == a.acked + 1 && b.lost == a.lost &&
    (var x: int := us; x < TWO_64 ==>
      b.samples == if |a.samples| >= 32 then a.samples[1..] + [x] else a.samples + [x]) &&
    (R.RateInRange(a) ==> (b.rateBps, b.reason) == R.RateFor(a.rateBps, a.lost, a.acked + 1, b.samples))
  }

  /** What becomes of the window but for new packets: number `n` is gone, the rest is as it was. */
  ghost predicate TakenOut(s: Sending, t: Sending, n: int) {
    n !in t.inFlight && t.acked == s.acked + 1 && t.retransmits == s.retransmits && t.deadlineDrops == s.deadlineDrops &&
    s.sent <= t.sent && forall m :: m in s.inFlight && m != n ==> m in t.inFlight && t.inFlight[m] == s.inFlight[m]
  }

  /** Whole microseconds since the slot was last sent. */
  function Answered(slot: InFlight, now: Time): nat
    requires slot.lastSent <= now
  {
    (now - slot.lastSent) / 1000
  }

  lemma TimedAck(a: Rto.RtoState, us: nat)
    ensures Timed(a, Rto.Sample(a, us), us)
  {
    if a.initialized { Rto.LaterSample(a, us); } else { Rto.FirstSample(a, us); }
  }

  lemma AckSettles(s: Sending, n: int, now: Time)
    requires SenderOk(s) && n in s.inFlight && s.inFlight[n].lastSent <= now
    ensures var t, us := Acked(s, n, now), Answered(s.inFlight[n], now);
      Timed(s.rto, t.rto, us) && Rated(s.rate, t.rate, us) && TakenOut(s, t, n) && SenderOk(t) && t.sent == s.sent
  {
    var us := Answered(s.inFlight[n], now);
    AckedKeeps(s, n, now);
    TimedAck(s.rto, us);
    RatedAck(s.rate, us);
  }

  lemma RatedAck(a: R.RateState, us: nat)
    ensures Rated(a, R.AfterAck(a, us), us)
  {
    var x: int := us;
    if x < TWO_64 { R.TrendIs(a.(acked := a.acked + 1), x); }
    if R.RateInRange(a) { R.AdaptsTo(R.Trend(a.(acked := a.acked + 1), us)); }
  }

  /** New packets change neither timer nor rate nor what is settled. */
  lemma AddsAfter(s: Sending, a: Sending, t: Sending, out: seq<Packet>, n: int, us: nat, now: Time)
    requires Timed(s.rto, a.rto, us) && Rated(s.rate, a.rate, us) && TakenOut(s, a, n) && n < |a.sent|
    requires Adds(Refill(a, now), t, out, now)
    ensures Timed(s.rto, t.rto, us) && Rated(s.rate, t.rate, us) && TakenOut(s, t, n)
  {
    forall m | m in s.inFlight && m != n ensures m in t.inFlight && t.inFlight[m] == s.inFlight[m] {
      assert m in a.inFlight && a.inFlight[m] == s.inFlight[m];
    }
  }

  /** The acknowledgement of a packet in flight hands its round trip time to timer and rate, takes the
      slot out and leaves the others; a drained initiator then says FIN, once, and any other sends on. */
  lemma AckReaction(e: Endpoint, p: Packet, now: Time, n: int)
    requires SenderOk(e.snd) && e.role == Initiator && Open(e) && p.header.packetType == Ack
    requires n == p.header.sequenceNumber && n in e.snd.inFlight && e.snd.inFlight[n].lastSent <= now
    ensures var r, us := OnPacket(e, p, now), Answered(e.snd.inFlight[n], now);
      Timed(e.snd.rto, r.e.snd.rto, us) && Rated(e.snd.rate, r.e.snd.rate, us) && TakenOut(e.snd, r.e.snd, n)
  {
    var a := e.(snd := Acked(e.snd, n, now));
    var us := Answered(e.snd.inFlight[n], now);
    AckSettles(e.snd, n, now);
    if !(IsComplete(a) && !a.finSent) && a.state == Active {
      FillWindowAdds(a, now);
      AddsAfter(e.snd, a.snd, FillWindow(a, now).e.snd, FillWindow(a, now).out, n, us, now);
    }
  }

  /** With the acknowledgement of `n` nothing is in flight and nothing is left to send. */
  predicate Finishes(e: Endpoint, n: int) {
    !e.failed && e.snd.inFlight.Keys <= {n} &&
    if e.snd.mediaMode then e.snd.source.Some? && e.snd.source.value.eof else e.snd.remaining == 0
  }

  lemma DrainsIff(e: Endpoint, n: int, now: Time)
    requires e.role == Initiator && Open(e)
    ensures IsComplete(e.(snd := Acked(e.snd, n, now))) <==> Finishes(e, n)
  {
    var t := Acked(e.snd, n, now);
    assert t.inFlight == map[] <==> t.inFlight.Keys == {};
    assert t.inFlight.Keys == e.snd.inFlight.Keys - {n};
  }

  lemma AckTimely(s: Sending, n: int, now: Time)
    requires Timely(s, now)
    ensures Timely(Acked(s, n, now), now)
  {
  }

  /** An initiator answers the acknowledgement that finishes its transfer with FIN, once, and any other
      with new packets, as many as can go out, or with none when it is closing. */
  lemma AckAnswer(e: Endpoint, p: Packet, now: Time)
    requires SenderOk(e.snd) && e.role == Initiator && Open(e) && p.header.packetType == Ack
    ensures var r := OnPacket(e, p, now);
      if Finishes(e, p.header.sequenceNumber) && !e.finSent then
        r.out == [HandshakePacket(e.streamId, 4)] && r.e == e.(snd := r.e.snd, state := Closing, finSent := true) &&
        r.e.snd.inFlight == map[]
      else
        r.e == e.(snd := r.e.snd) && e.snd.sent <= r.e.snd.sent && r.out == r.e.snd.sent[|e.snd.sent|..] &&
        (Timely(e.snd, now) ==> if e.state == Active then Full(r.e.snd, now) else r.out == [])
  {
    var a := e.(snd := Acked(e.snd, p.header.sequenceNumber, now));
    DrainsIff(e, p.header.sequenceNumber, now);
    AckedKeeps(e.snd, p.header.sequenceNumber, now);
    SendsOn(a, now);
    if Timely(e.snd, now) { AckTimely(e.snd, p.header.sequenceNumber, now); }
  }

  /** Timer, and what the rate knows of acknowledgements. */
  predicate NoSample(s: Sending, t: Sending) {
    t.rto == s.rto && t.acked == s.acked && t.rate.samples == s.rate.samples && t.rate.acked == s.rate.acked
  }

  lemma ProceedTakesNoSample(e: Endpoint, now: Time)
    requires SenderOk(e.snd) && e.role == Initiator
    ensures NoSample(e.snd, Proceed(e, now).e.snd) && Proceed(e, now).e.snd.rate.rateBps == e.snd.rate.rateBps
  {
    if !(IsComplete(e) && !e.finSent) && e.state == Active { FillWindowAdds(e, now); }
  }

  /** An acknowledgement of anything else is no sample. */
  lemma AckOfNothing(e: Endpoint, p: Packet, now: Time)
    requires SenderOk(e.snd) && e.role == Initiator && p.header.packetType == Ack
    requires p.header.sequenceNumber as int !in e.snd.inFlight
    ensures var t := OnPacket(e, p, now).e.snd; NoSample(e.snd, t) && t.rate.rateBps == e.snd.rate.rateBps
  {
    assert Acked(e.snd, p.header.sequenceNumber, now) == e.snd;
    ProceedTakesNoSample(e, now);
  }

  // ---------------------------------------------------------------- the timer over whole runs

  /** A packet that settles a slot comes `lo` to `hi` whole microseconds after its last sending. */
  predicate AnswersWithin(e: Endpoint, p: Packet, now: Time, lo: nat, hi: nat) {
    var n: int := p.header.sequenceNumber;
    p.header.packetType == Ack && Open(e) && n in e.snd.inFlight ==>
      lo * 1000 <= now - e.snd.inFlight[n].lastSent < (hi + 1) * 1000
  }

  predicate StepWithin(w: World, s: Step, lo: nat, hi: nat) {
    s.DeliverI? && s.i < |w.toI| && Decode(w.toI[s.i]).Some? ==>
      AnswersWithin(w.init, Decode(w.toI[s.i]).value, s.now, lo, hi)
  }

  /** So in every step of a run. */
  ghost predicate Within(w: World, run: seq<Step>, lo: nat, hi: nat)
    requires Legal(w, run)
    decreases |run|
  {
    run == [] || (StepWithin(w, run[0], lo, hi) && Within(Next(w, run[0]), run[1..], lo, hi))
  }

  /** The timer before and after the first acknowledgement of a slot. */
  ghost predicate Follows(s: Sending, lo: nat, hi: nat) {
    if s.acked == 0 then s.rto == Rto.FRESH else Rto.InEnvelope(s.rto, lo, hi)
  }

  lemma AckFollows(e: Endpoint, p: Packet, now: Time, lo: nat, hi: nat)
    requires SenderOk(e.snd) && e.role == Initiator && Open(e) && p.header.packetType == Ack
    requires AnswersWithin(e, p, now, lo, hi) && Follows(e.snd, lo, hi) && 1 <= lo <= hi
    ensures Follows(OnPacket(e, p, now).e.snd, lo, hi)
  {
    var n: int := p.header.sequenceNumber;
    var a := e.(snd := Acked(e.snd, n, now));
    AckedKeeps(e.snd, n, now);
    ProceedTakesNoSample(a, now);
    if n in e.snd.inFlight {
      Rto.SampleInEnvelope(e.snd.rto, UsBetween(e.snd.inFlight[n].lastSent, now), lo, hi);
    }
  }

  lemma NackTakesNoSample(e: Endpoint, p: Packet, now: Time)
    requires p.header.packetType == Nack
    ensures var t := OnPacket(e, p, now).e.snd; t.rto == e.snd.rto && t.acked == e.snd.acked
  {
  }

  lemma FillTakesNoSample(e: Endpoint, now: Time)
    requires SenderOk(e.snd) && e.role == Initiator
    ensures NoSample(e.snd, FillWindow(e, now).e.snd)
  {
    if e.state == Active { FillWindowAdds(e, now); }
  }

  lemma SynAckTakesNoSample(e: Endpoint, streamId: uint32, now: Time)
    requires SenderOk(e.snd) && e.role == Initiator
    ensures NoSample(e.snd, OnSynAck(e, streamId, now).e.snd)
  {
    FillTakesNoSample(e.(streamId := streamId, state := Active), now);
  }

  lemma OtherGreetings(e: Endpoint, p: Packet, now: Time)
    requires e.role == Initiator && !IsSynAck(p.header.flags)
    ensures OnHandshake(e, p, now).e.snd == e.snd
  {
  }

  lemma HandshakeTakesNoSample(e: Endpoint, p: Packet, now: Time)
    requires SenderOk(e.snd) && e.role == Initiator && p.header.packetType == Handshake
    ensures NoSample(e.snd, OnPacket(e, p, now).e.snd)
  {
    if IsSynAck(p.header.flags) {
      SynAckTakesNoSample(e, p.header.streamId, now);
    } else {
      OtherGreetings(e, p, now);
    }
  }

  lemma PacketFollows(e: Endpoint, p: Packet, now: Time, lo: nat, hi: nat)
    requires SenderOk(e.snd) && e.role == Initiator && AnswersWithin(e, p, now, lo, hi)
    requires Follows(e.snd, lo, hi) && 1 <= lo <= hi
    ensures Follows(OnPacket(e, p, now).e.snd, lo, hi)
  {
    match p.header.packetType {
      case Handshake => HandshakeTakesNoSample(e, p, now);
      case Ack => if Open(e) { AckFollows(e, p, now, lo, hi); }
      case Nack => NackTakesNoSample(e, p, now);
      case _ =>
    }
  }

  lemma {:induction false} SweepTakesNoSample(s: Sending, todo: set<int>, now: Time, rtoUs: int)
    requires todo <= s.inFlight.Keys
    ensures var t := Sweep(s, todo, now, rtoUs).s; t.rto == s.rto && t.acked == s.acked
    decreases |todo|
  {
    if todo != {} {
      var n := Least(todo);
      var slot := s.inFlight[n];
      if !TimedOut(slot.lastSent, now, rtoUs) {
        SweepTakesNoSample(s, todo - {n}, now, rtoUs);
      } else if slot.retries + 1 <= MAX_RETRIES {
        if ShouldRetransmit(s, slot, now) {
          SweepTakesNoSample(Resent(s, n, now, slot.retries + 1), todo - {n}, now, rtoUs);
        } else {
          SweepTakesNoSample(Dropped(s, n), todo - {n}, now, rtoUs);
        }
      }
    }
  }

  lemma OpenTickTakesNoSample(e: Endpoint, now: Time)
    requires SenderOk(e.snd) && e.role == Initiator
    ensures var t := OpenTick(e, now).e.snd; t.rto == e.snd.rto && t.acked == e.snd.acked
  {
    var rto := Rto.Current(e.snd.rto);
    var s := Sweep(e.snd, e.snd.inFlight.Keys, now, rto);
    SweepTakesNoSample(e.snd, e.snd.inFlight.Keys, now, rto);
    SweepKeeps(e.snd, e.snd.inFlight.Keys, now, rto);
    FillTakesNoSample(e.(snd := s.s), now);
  }

  lemma ShutTickTakesNoSample(e: Endpoint, now: Time)
    requires !Open(e)
    ensures OnTick(e, now).e.snd == Refill(e.snd, now)
  {
  }

  lemma TickTakesNoSample(e: Endpoint, now: Time)
    requires SenderOk(e.snd) && e.role == Initiator
    ensures var t := OnTick(e, now).e.snd; t.rto == e.snd.rto && t.acked == e.snd.acked
  {
    if Open(e) {
      Retuned(e.snd, Refill(e.snd, now));
      OpenTickTakesNoSample(e.(snd := Refill(e.snd, now)), now);
    } else {
      ShutTickTakesNoSample(e, now);
    }
  }

  lemma StepFollows(w: World, s: Step, lo: nat, hi: nat)
    requires Inv(w) && Enabled(w, s) && StepWithin(w, s, lo, hi) && Follows(w.init.snd, lo, hi) && 1 <= lo <= hi
    ensures Follows(Next(w, s).init.snd, lo, hi)
  {
    match s {
      case DeliverI(i, now) =>
        if Decode(w.toI[i]).Some? { PacketFollows(w.init, Decode(w.toI[i]).value, now, lo, hi); }
      case TickI(now) => TickTakesNoSample(w.init, now);
      case _ =>
    }
  }

  lemma {:induction false} RunFollows(w: World, run: seq<Step>, lo: nat, hi: nat)
    requires Inv(w) && Legal(w, run) && Within(w, run, lo, hi) && Follows(w.init.snd, lo, hi) && 1 <= lo <= hi
    ensures Follows(After(w, run).init.snd, lo, hi)
    decreases |run|
  {
    if run != [] {
      StepFollows(w, run[0], lo, hi);
      StepKeeps(w, run[0]);
      RunFollows(Next(w, run[0]), run[1..], lo, hi);
    }
  }

  /** Over every run from a beginning: when each acknowledgement that settles a slot comes `lo` to `hi`
      microseconds after its last sending, the timer is fresh until the first of them, and from then on
      its mean is in that band, its deviation at most the larger of `hi` / 2 and `hi` - `lo`, and its
      timeout no shorter than `lo` or 2 s. */
  lemma TimerFollowsPath(e: Endpoint, hasSink: bool, run: seq<Step>, lo: nat, hi: nat)
    requires Unstarted(e) && e.snd.rto == Rto.FRESH && 1 <= lo <= hi
    requires Legal(Beginning(e, hasSink), run) && Within(Beginning(e, hasSink), run, lo, hi)
    ensures var s := After(Beginning(e, hasSink), run).init.snd;
      if s.acked == 0 then s.rto == Rto.FRESH
      else
        s.rto.initialized && lo as real <= s.rto.srttUs <= hi as real &&
        0.0 <= s.rto.rttvarUs <= (if hi as real / 2.0 < (hi - lo) as real then (hi - lo) as real else hi as real / 2.0) &&
        Rto.Current(s.rto) >= if lo < 2_000_000 then lo else 2_000_000
  {
    BeginningInv(e, hasSink);
    RunFollows(Beginning(e, hasSink), run, lo, hi);
    var s := After(Beginning(e, hasSink), run).init.snd;
    if s.acked > 0 { Rto.FloorMono(lo as real, s.rto.srttUs + 4.0 * s.rto.rttvarUs); }
  }
}
