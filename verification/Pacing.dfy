/** Pacing within a session: the token bucket bounds what is first transmitted, a chunk the
    bucket cannot pay for is lost, and the deadline decides what is retransmitted. */
module Pacing {
  import opened Wire
  import opened Clock
  import opened FrameCapture
  import opened Source
  import opened PacketCodec
  import opened SessionSpec
  import opened Sender
  import opened Receiver
  import opened Network
  import opened Reliability
  import opened MediaTransfer
  import R = RateControl
  import Rto

  // ---------------------------------------------------------------- the bucket

  const BURST := R.Burst(R.INITIAL_RATE)

  /** The bucket conforms, and the ticks so far were worth at most 100 Mbps. */
  ghost predicate RateOk(r: R.RateState, now: Time) {
    R.Conforms(r, BURST) && r.lastRefill <= now && r.credit <= 12.5 * (r.lastRefill as real / 1000.0)
  }

  lemma RefillOk(r: R.RateState, now: Time)
    requires RateOk(r, now)
    ensures RateOk(R.AfterTick(r, now), now)
  {
    R.TickConforms(r, now, BURST);
    if r.lastRefill != 0 {
      R.EarnedBounds(r, now);
      var us := UsBetween(r.lastRefill, now);
      assert us as real <= (now - r.lastRefill) as real / 1000.0;
    }
  }

  lemma AdaptOk(r: R.RateState, now: Time)
    requires RateOk(r, now)
    ensures RateOk(R.Adapt(r), now)
  {
    R.AdaptKeeps(r, BURST);
  }

  lemma LossOk(r: R.RateState, now: Time)
    requires RateOk(r, now)
    ensures RateOk(R.AfterLoss(r), now)
  {
    AdaptOk(r.(lost := r.lost + 1), now);
  }

  lemma AckOk(r: R.RateState, rttUs: int, now: Time)
    requires RateOk(r, now)
    ensures RateOk(R.AfterAck(r, rttUs), now)
  {
    AdaptOk(R.Trend(r.(acked := r.acked + 1), rttUs), now);
  }

  lemma {:induction false} FillDummyRate(s: Sending, streamId: uint32, now: Time)
    ensures FillDummy(s, streamId, now).s.rate == s.rate
    decreases s.remaining
  {
    if |s.inFlight| < SEND_WINDOW && s.remaining > 0 { FillDummyRate(SendDummy(s, streamId, now), streamId, now); }
  }

  lemma {:induction false} FillMediaRate(s: Sending, streamId: uint32, now: Time)
    requires s.source.Some? && RateOk(s.rate, now)
    ensures RateOk(FillMedia(s, streamId, now).s.rate, now)
    decreases |s.source.value.pending| - s.source.value.cursor
  {
    if MayTake(s, now) {
      var a, c := Advance(s), NextChunk(s);
      if !Starved(a, c) {
        FillMediaRate(SendChunk(a, streamId, c, now), streamId, now);
      }
    }
  }

  lemma FillWindowRate(e: Endpoint, now: Time)
    requires RateOk(e.snd.rate, now)
    ensures RateOk(FillWindow(e, now).e.snd.rate, now)
  {
    if e.role == Initiator && e.state == Active {
      var t := Refill(e.snd, now);
      RefillOk(e.snd.rate, now);
      if t.mediaMode && t.source.Some? {
        FillMediaRate(t, e.streamId, now);
      } else {
        FillDummyRate(t, e.streamId, now);
      }
    }
  }

  lemma {:induction false} SweepRate(s: Sending, todo: set<int>, now: Time, rtoUs: int)
    requires todo <= s.inFlight.Keys && RateOk(s.rate, now)
    ensures RateOk(Sweep(s, todo, now, rtoUs).s.rate, now)
    decreases |todo|
  {
    if todo != {} {
      var n := Least(todo);
      var slot := s.inFlight[n];
      LossOk(s.rate, now);
      if !TimedOut(slot.lastSent, now, rtoUs) {
        SweepRate(s, todo - {n}, now, rtoUs);
      } else if slot.retries + 1 <= MAX_RETRIES {
        if ShouldRetransmit(s, slot, now) {
          SweepRate(Resent(s, n, now, slot.retries + 1), todo - {n}, now, rtoUs);
        } else {
          SweepRate(Dropped(s, n), todo - {n}, now, rtoUs);
        }
      }
    }
  }

  lemma OpenTickRate(e: Endpoint, now: Time)
    requires RateOk(e.snd.rate, now)
    ensures RateOk(OpenTick(e, now).e.snd.rate, now)
  {
    var r := Sweep(e.snd, e.snd.inFlight.Keys, now, Rto.Current(e.snd.rto));
    SweepRate(e.snd, e.snd.inFlight.Keys, now, Rto.Current(e.snd.rto));
    if !r.dead { FillWindowRate(e.(snd := r.s), now); }
  }

  lemma TickRate(e: Endpoint, now: Time)
    requires RateOk(e.snd.rate, now)
    ensures RateOk(OnTick(e, now).e.snd.rate, now)
  {
    var t := e.(snd := Refill(e.snd, now));
    RefillOk(e.snd.rate, now);
    if Open(t) { OpenTickRate(t, now); }
  }

  lemma OnAckRate(e: Endpoint, p: Packet, now: Time)
    requires RateOk(e.snd.rate, now)
    ensures RateOk(OnAck(e, p, now).e.snd.rate, now)
  {
    var n: int := p.header.sequenceNumber;
    var a := e.(snd := Acked(e.snd, n, now));
    if n in e.snd.inFlight { AckOk(e.snd.rate, UsBetween(e.snd.inFlight[n].lastSent, now), now); }
    FillWindowRate(a, now);
  }

  lemma OnHandshakeRate(e: Endpoint, p: Packet, now: Time)
    requires RateOk(e.snd.rate, now)
    ensures RateOk(OnHandshake(e, p, now).e.snd.rate, now)
  {
    if e.role == Initiator && IsSynAck(p.header.flags) && e.state == Handshaking {
      FillWindowRate(e.(streamId := p.header.streamId, state := Active), now);
    }
  }

  lemma OnPacketRate(e: Endpoint, p: Packet, now: Time)
    requires RateOk(e.snd.rate, now)
    ensures RateOk(OnPacket(e, p, now).e.snd.rate, now)
  {
    match p.header.packetType {
      case Handshake => OnHandshakeRate(e, p, now);
      case Ack => if Open(e) { OnAckRate(e, p, now); }
      case Nack => LossOk(e.snd.rate, now);
      case _ =>
    }
  }

  lemma StepRate(w: World, s: Step)
    requires RateOk(w.init.snd.rate, w.clock) && Enabled(w, s)
    ensures RateOk(Next(w, s).init.snd.rate, Next(w, s).clock)
  {
    match s {
      case DeliverI(i, now) =>
        if Decode(w.toI[i]).Some? { OnPacketRate(w.init, Decode(w.toI[i]).value, now); }
      case TickI(now) => TickRate(w.init, now);
      case _ =>
    }
  }

  lemma {:induction false} RunRate(w: World, run: seq<Step>)
    requires RateOk(w.init.snd.rate, w.clock) && Legal(w, run)
    ensures RateOk(After(w, run).init.snd.rate, After(w, run).clock)
    decreases |run|
  {
    if run != [] {
      StepRate(w, run[0]);
      RunRate(Next(w, run[0]), run[1..]);
    }
  }

  /** In every run the bytes of the first transmissions, headers included, stay under the first
      burst plus what the ticks earned, and so under 6250 bytes and 12.5 for each microsecond. */
  lemma FirstTransmissionsBounded(video: seq<byte>, fps: uint32, tapped: bool, hasSink: bool, run: seq<Step>)
    requires |FileQueue(video, fps)| < TWO_32 && Legal(MediaStart(video, fps, tapped, hasSink), run)
    ensures var w := Streamed(video, fps, tapped, hasSink, run);
      WireBytes(w.init.snd.sent) as real <= BURST + w.init.snd.rate.credit &&
      WireBytes(w.init.snd.sent) as real <= 6250.0 + 12.5 * (w.clock as real / 1000.0)
  {
    StreamedOk(video, fps, tapped, hasSink, run);
    R.FreshConforms(R.INITIAL_RATE);
    RunRate(MediaStart(video, fps, tapped, hasSink), run);
  }

  // ---------------------------------------------------------------- starved chunks

  /** Chunks taken from the source and never sent. */
  function Skipped(s: Sending): int {
    (if s.source.Some? then s.source.value.cursor else 0) - |s.sent|
  }

  /** Free slots of the window. */
  function FreeSlots(s: Sending): nat {
    if |s.inFlight| < SEND_WINDOW then SEND_WINDOW - |s.inFlight| else 0
  }

  /** The latest playback time the timeline admits at `now`. */
  function Horizon(s: Sending, now: Time): int {
    if s.streamStartSet then
      var elapsed: int := U64(SteadyUs(now) - s.streamStartUs);
      U64(elapsed + SEND_AHEAD_US)
    else SEND_AHEAD_US
  }

  /** Wire bytes of the first chunks of a queue, as many as there is room for and the horizon
      admits; with `free` the first one is admitted whatever its time. */
  function DueFrom(q: seq<MediaChunk>, room: nat, horizon: int, free: bool): nat
    decreases |q|
  {
    if q == [] || room == 0 || (!free && q[0].ptsUs > horizon) then 0
    else WireSize(q[0]) + DueFrom(q[1..], room - 1, horizon, false)
  }

  /** Bytes that window and timeline admit at `now`, whatever the bucket holds. */
  function Due(s: Sending, now: Time): nat
    requires s.source.Some?
  {
    DueFrom(s.source.value.pending[s.source.value.cursor..], FreeSlots(s), Horizon(s, now), !s.streamStartSet)
  }

  /** The next number is fresh, and so are all that the rest of the queue will need. */
  ghost predicate Orderly(s: Sending) {
    s.source.Some? && s.nextSeq <= s.source.value.cursor && |s.source.value.pending| < TWO_32 &&
    forall n :: n in s.inFlight ==> n < s.nextSeq
  }

  lemma LaunchOne(inFlight: map<int, InFlight>, n: int, p: Packet, now: Time)
    requires forall k :: k in inFlight ==> k < n
    ensures |Launch(inFlight, n, p, now)| == |inFlight| + 1
    ensures forall k :: k in Launch(inFlight, n, p, now) ==> k < n + 1
  {
  }

  /** Nothing is due exactly when the loop would not take a chunk. */
  lemma NothingDue(s: Sending, now: Time)
    requires s.source.Some? && !MayTake(s, now)
    ensures Due(s, now) == 0
  {
  }

  lemma OrderlySent(s: Sending, streamId: uint32, now: Time)
    requires Orderly(s) && MayTake(s, now)
    ensures var t := SendChunk(Advance(s), streamId, NextChunk(s), now); Orderly(t) && FreeSlots(s) == FreeSlots(t) + 1
  {
    U32Small(s.nextSeq + 1);
    LaunchOne(s.inFlight, s.nextSeq, MediaPacket(Advance(s), streamId, NextChunk(s)), now);
  }

  lemma HorizonStays(s: Sending, streamId: uint32, now: Time)
    requires Orderly(s) && MayTake(s, now)
    ensures var t := SendChunk(Advance(s), streamId, NextChunk(s), now);
      Horizon(t, now) == Horizon(s, now) && t.streamStartSet
  {
  }

  /** What is due begins with the chunk taken next. */
  lemma DueSent(s: Sending, streamId: uint32, now: Time)
    requires Orderly(s) && MayTake(s, now)
    ensures Due(s, now) == WireSize(NextChunk(s)) + Due(SendChunk(Advance(s), streamId, NextChunk(s), now), now)
  {
    var q, cursor := s.source.value.pending, s.source.value.cursor;
    OrderlySent(s, streamId, now);
    HorizonStays(s, streamId, now);
    assert q[cursor..][0] == q[cursor] && q[cursor..][1..] == q[cursor + 1..];
  }

  lemma PaidInFull(s: Sending, chunk: MediaChunk)
    requires !Starved(s, chunk)
    ensures R.Available(R.AfterConsume(s.rate, WireSize(chunk))) == R.Available(s.rate) - WireSize(chunk)
  {
  }

  /** A filling loses a chunk exactly when the bucket holds less than what is due at its
      beginning, and then it loses one. In every run the numbers are orderly and the bucket is
      never negative. */
  lemma {:induction false} SkipsIffStarved(s: Sending, streamId: uint32, now: Time)
    requires Orderly(s) && R.Available(s.rate) >= 0
    ensures Skipped(FillMedia(s, streamId, now).s) == Skipped(s) + if R.Available(s.rate) < Due(s, now) then 1 else 0
    decreases |s.source.value.pending| - s.source.value.cursor
  {
    if MayTake(s, now) {
      var a, c := Advance(s), NextChunk(s);
      OrderlySent(s, streamId, now);
      DueSent(s, streamId, now);
      if !Starved(a, c) {
        PaidInFull(a, c);
        SkipsIffStarved(SendChunk(a, streamId, c, now), streamId, now);
      }
    } else {
      NothingDue(s, now);
    }
  }

  lemma {:induction false} DueBound(q: seq<MediaChunk>, room: nat, horizon: int, free: bool)
    requires Cut(q)
    ensures DueFrom(q, room, horizon, free) <= room * (HEADER_SIZE + MAX_PAYLOAD)
    decreases |q|
  {
    if q != [] && room > 0 && (free || q[0].ptsUs <= horizon) {
      assert forall k :: 0 <= k < |q[1..]| ==> q[1..][k] == q[k + 1];
      DueBound(q[1..], room - 1, horizon, false);
      OneMoreSlot(room, HEADER_SIZE + MAX_PAYLOAD);
    }
  }

  lemma OneMoreSlot(room: nat, size: nat)
    requires room > 0
    ensures room * size == size + (room - 1) * size
  {
  }

  /** Tokens for every slot the window has free rule starvation out. */
  lemma EnoughTokens(s: Sending, streamId: uint32, now: Time)
    requires Orderly(s) && Cut(s.source.value.pending)
    requires R.Available(s.rate) >= FreeSlots(s) * (HEADER_SIZE + MAX_PAYLOAD)
    ensures Skipped(FillMedia(s, streamId, now).s) == Skipped(s)
  {
    DueBound(s.source.value.pending[s.source.value.cursor..], FreeSlots(s), Horizon(s, now), !s.streamStartSet);
    SkipsIffStarved(s, streamId, now);
  }

  /** From the source's position on, `n` full-sized chunks with time 0. */
  ghost predicate FullChunks(s: Sending, n: nat)
    requires s.source.Some?
  {
    var c, q := s.source.value.cursor, s.source.value.pending;
    c + n <= |q| && forall j :: c <= j < c + n ==> |q[j].payload| == MAX_PAYLOAD && q[j].ptsUs == 0
  }

  /** Room in the window and fresh numbers for `n` more packets. */
  ghost predicate Room(s: Sending, n: nat) {
    |s.inFlight| + n < SEND_WINDOW && s.nextSeq + n < TWO_32 && forall k :: k in s.inFlight ==> k < s.nextSeq
  }

  lemma FullChunkSent(s: Sending, streamId: uint32, now: Time, k: nat)
    requires s.source.Some? && k > 0 && FullChunks(s, k + 1) && Room(s, k) && 1232.0 <= s.rate.tokens
    ensures MayTake(s, now) && !Starved(Advance(s), NextChunk(s))
    ensures var t := SendChunk(Advance(s), streamId, NextChunk(s), now);
      FullChunks(t, k) && Room(t, k - 1) && t.rate.tokens == s.rate.tokens - 1232.0 && |t.sent| == |s.sent| + 1
  {
    U32Small(s.nextSeq + 1);
    LaunchOne(s.inFlight, s.nextSeq, MediaPacket(Advance(s), streamId, NextChunk(s)), now);
  }

  /** With tokens for just `k` full chunks, the chunk after them is lost. */
  lemma {:induction false} RunsDry(s: Sending, streamId: uint32, now: Time, k: nat)
    requires s.source.Some? && FullChunks(s, k + 1) && Room(s, k)
    requires 1232.0 * k as real <= s.rate.tokens < 1232.0 * (k + 1) as real
    ensures var t := FillMedia(s, streamId, now).s;
      |t.sent| == |s.sent| + k && t.source.value.cursor == s.source.value.cursor + k + 1
    decreases k
  {
    if k > 0 {
      FullChunkSent(s, streamId, now, k);
      RunsDry(SendChunk(Advance(s), streamId, NextChunk(s), now), streamId, now, k - 1);
    }
  }

  /** The first burst pays for five full chunks: a file that begins with a unit of six or more
      loses its sixth chunk, unless a tick came first. */
  lemma FirstBurstLosesChunk(e: Endpoint, source: OpenSource, tapped: bool, streamId: uint32, now: Time)
    requires e.role == Initiator && e.state == Handshaking
    requires e.snd == WithMedia(FreshEndpoint(Initiator), source, tapped).snd && FullChunks(e.snd, 6)
    ensures var t := OnSynAck(e, streamId, now).e.snd;
      |t.sent| == 5 && t.source.value.cursor == source.cursor + 6
  {
    var s := Refill(e.snd, now);
    assert FullChunks(s, 6);
    RunsDry(s, streamId, now, 5);
  }

  // ---------------------------------------------------------------- deadlines

  /** A packet is sent again exactly when one timeout from now still lies before its playback
      time less the safety margin. */
  lemma DeadlineIff(s: Sending, slot: InFlight, now: Time)
    requires s.mediaMode && s.streamStartSet && s.streamStartUs <= SteadyUs(now)
    requires slot.packet.header.timestampUs < TWO_64 / 2
    ensures ShouldRetransmit(s, slot, now) <==>
      SteadyUs(now) - s.streamStartUs + Rto.Current(s.rto) + SAFETY_US < slot.packet.header.timestampUs
  {
    assert SteadyUs(now) - s.streamStartUs < TWO_64 / 1000;
  }
}
