/** A schedule under which every file arrives: the packets in order, each answered a second after
    the last, and a tick when the next chunk is not due yet. */
module Schedule {
  import opened Wire
  import opened Clock
  import opened AnnexB
  import opened FrameCapture
  import opened Source
  import opened PacketCodec
  import opened SessionSpec
  import opened Sender
  import opened Receiver
  import opened Network
  import opened Reliability
  import opened Termination
  import opened Completion
  import opened MediaTransfer
  import opened Pacing
  import opened Starvation
  import opened StreamCompletion
  import opened Opening
  import opened Lockstep
  import R = RateControl
  import Rto

  const SECOND := 1_000_000_000

  // ---------------------------------------------------------------- the bucket

  /** A second's worth at the lowest rate: it pays for a whole window of full chunks. */
  const PLENTY := 12_500.0

  lemma SecondIsPlenty(r: R.RateState)
    requires R.RateInRange(r)
    ensures r.rateBps as real / 8.0 >= PLENTY
  {
    assert r.rateBps as real >= R.MIN_RATE as real;
  }

  /** What `us` microseconds are worth at `rate` bits a second. */
  lemma WorthASecond(rate: int, us: int)
    requires rate > 0 && us >= 1_000_000
    ensures R.Worth(rate as real / 8_000_000.0, us as real) >= rate as real / 8.0
  {
    var perUs := rate as real / 8_000_000.0;
    R.Grows(1_000_000.0, us as real, perUs);
    assert 1_000_000.0 * perUs == rate as real / 8.0;
    assert perUs * us as real == us as real * perUs;
  }

  lemma SecondRefills(r: R.RateState, now: Time)
    requires RateOk(r, now) && 0 < r.lastRefill && r.lastRefill + SECOND <= now
    ensures R.AfterTick(r, now).tokens >= PLENTY
  {
    SecondIsPlenty(r);
    WorthASecond(r.rateBps, UsBetween(r.lastRefill, now));
  }

  lemma PlentyStays(r: R.RateState, now: Time)
    requires RateOk(r, now) && r.tokens >= PLENTY
    ensures R.AfterTick(r, now).tokens >= PLENTY
  {
    SecondIsPlenty(r);
    R.EarnedBounds(r, now);
  }

  // ---------------------------------------------------------------- one filling

  /** The stream clock runs from the instant `startUs` on. */
  predicate Runs(s: Sending, startUs: uint64) { s.streamStartSet && s.streamStartUs == startUs }

  /** New packets only, at the source's pace: nothing is taken from the window, no refill is
      forgotten, and the stream clock, once it runs, stays. */
  ghost predicate Extends(s: Sending, t: Sending, out: seq<Packet>) {
    t.sent == s.sent + out && t.deadlineDrops == s.deadlineDrops && t.rate.lastRefill == s.rate.lastRefill &&
    (out == [] ==> t.rate == s.rate) && (s.streamStartSet ==> Runs(t, s.streamStartUs)) &&
    forall n :: n in t.inFlight ==> n in s.inFlight || n >= |s.sent|
  }

  lemma ChunkExtends(s: Sending, t: Sending, u: Sending, p: Packet, out: seq<Packet>, streamId: uint32, now: Time)
    requires SenderOk(s) && s.source.Some? && !s.source.value.eof
    requires p == MediaPacket(Advance(s), streamId, NextChunk(s)) && t == SendChunk(Advance(s), streamId, NextChunk(s), now)
    requires Extends(t, u, out)
    ensures Extends(s, u, [p] + out)
  {
    Assoc(s.sent, [p], out);
  }

  lemma {:induction false} FillMediaExtends(s: Sending, streamId: uint32, now: Time)
    requires SenderOk(s) && s.mediaMode
    ensures var r := FillMedia(s, streamId, now); Extends(s, r.s, r.out)
    decreases |s.source.value.pending| - s.source.value.cursor
  {
    if MayTake(s, now) {
      var a, c := Advance(s), NextChunk(s);
      if !Starved(a, c) {
        var t := SendChunk(a, streamId, c, now);
        AdvanceKeeps(s);
        SendChunkKeeps(a, streamId, c, now);
        FillMediaExtends(t, streamId, now);
        ChunkExtends(s, t, FillMedia(t, streamId, now).s, MediaPacket(a, streamId, c), FillMedia(t, streamId, now).out,
                     streamId, now);
      }
    }
  }

  lemma AffordsWindow(s: Sending)
    requires s.rate.tokens >= PLENTY
    ensures R.Available(s.rate) >= FreeSlots(s) * (HEADER_SIZE + MAX_PAYLOAD)
    ensures R.Available(s.rate) >= HEADER_SIZE + MAX_PAYLOAD
  {
    assert FreeSlots(s) <= SEND_WINDOW;
  }

  /** A filling that takes a chunk and can pay for it sends it. */
  lemma FirstChunkSent(s: Sending, streamId: uint32, now: Time)
    requires SenderOk(s) && s.mediaMode && MayTake(s, now) && !Starved(Advance(s), NextChunk(s))
    ensures var r := FillMedia(s, streamId, now);
      r.out != [] && Runs(r.s, if s.streamStartSet then s.streamStartUs else SteadyUs(now))
  {
    var a, c := Advance(s), NextChunk(s);
    AdvanceKeeps(s);
    SendChunkKeeps(a, streamId, c, now);
    FillMediaExtends(SendChunk(a, streamId, c, now), streamId, now);
  }

  /** A filling from a bucket of plenty. */
  lemma PlentyFills(s: Sending, streamId: uint32, now: Time)
    requires SenderOk(s) && s.mediaMode && Skipped(s) == 0 && s.rate.tokens >= PLENTY
    ensures var r := FillMedia(s, streamId, now); Extends(s, r.s, r.out) && Skipped(r.s) == 0
    ensures MayTake(s, now) ==>
      FillMedia(s, streamId, now).out != [] &&
      Runs(FillMedia(s, streamId, now).s, if s.streamStartSet then s.streamStartUs else SteadyUs(now))
  {
    OrderlySender(s);
    AffordsWindow(s);
    EnoughTokens(s, streamId, now);
    FillMediaExtends(s, streamId, now);
    if MayTake(s, now) {
      AdvanceKeeps(s);
      FirstChunkSent(s, streamId, now);
    }
  }

  /** A sender that has sent every chunk taken so far. */
  ghost predicate Unskipped(s: Sending, now: Time) {
    SenderOk(s) && s.mediaMode && Skipped(s) == 0 && RateOk(s.rate, now)
  }

  /** What filling the window from a bucket of plenty makes of a sender. */
  ghost predicate Fills(s: Sending, t: Sending, out: seq<Packet>, now: Time) {
    Unskipped(t, now) && Extends(Refill(s, now), t, out) && Plan(t) == Plan(s) &&
    (AtEof(s) ==> AtEof(t)) && (out == [] ==> t.rate.tokens >= PLENTY) &&
    (MayTake(Refill(s, now), now) ==> out != [] && Runs(t, if s.streamStartSet then s.streamStartUs else SteadyUs(now)))
  }

  lemma EofStays(s: Sending, streamId: uint32, now: Time)
    requires AtEof(s)
    ensures FillMedia(s, streamId, now) == SendReply(s, [])
  {
  }

  lemma FlushedToo(s: Sending, t: Sending, out: seq<Packet>)
    requires Extends(s, t, out) && t.source.Some?
    ensures Extends(s, FlushAtEof(t), out) && Skipped(FlushAtEof(t)) == Skipped(t)
  {
  }

  lemma WindowFills(e: Endpoint, now: Time)
    requires e.role == Initiator && e.state == Active && Unskipped(e.snd, now)
    requires R.AfterTick(e.snd.rate, now).tokens >= PLENTY
    ensures var r := FillWindow(e, now); Fills(e.snd, r.e.snd, r.out, now)
  {
    var t := Refill(e.snd, now);
    var r := FillMedia(t, e.streamId, now);
    Retuned(e.snd, t);
    PlentyFills(t, e.streamId, now);
    FillWindowKeeps(e, now);
    FillWindowRate(e, now);
    if AtEof(e.snd) { EofStays(t, e.streamId, now); }
    WindowIsFilled(e, now);
    FlushedToo(t, r.s, r.out);
  }

  // ---------------------------------------------------------------- the timetable

  /** When the initiator starts, and when the handshake is done. */
  const START: Time := SECOND
  const OPENED: Time := 2 * SECOND

  /** The stream clock starts with the first chunk, at the end of the handshake. */
  const STREAM_START: uint64 := SteadyUs(OPENED)

  /** Playback times of at most a second for each chunk. */
  ghost predicate Timed(q: seq<MediaChunk>) {
    |q| + SEND_WINDOW <= TWO_32 && forall k :: 0 <= k < |q| ==> q[k].ptsUs <= 1_000_000 * |q|
  }

  /** A streaming initiator that keeps to the timetable, `k` of its packets settled. */
  ghost predicate OnTime(s: Sending, k: int, now: Time) {
    Unskipped(s, now) && 0 < s.rate.lastRefill && Timed(s.source.value.pending) &&
    (AtEof(s) || Runs(s, STREAM_START)) && (k == |s.sent| ==> s.rate.tokens >= PLENTY) &&
    OPENED <= now <= OPENED + (|s.source.value.pending| + k) * SECOND
  }

  /** In step, and on time. */
  ghost predicate Punctual(w: World, k: int) { Aligned(w, k) && OnTime(w.init.snd, k, w.clock) }

  /** The sender after a filling is on time. */
  lemma StaysOnTime(s: Sending, t: Sending, out: seq<Packet>, k: int, now: Time)
    requires Unskipped(s, now) && Timed(s.source.value.pending) && (AtEof(s) || Runs(s, STREAM_START))
    requires Fills(s, t, out, now) && 0 <= k <= |s.sent|
    requires OPENED <= now <= OPENED + (|s.source.value.pending| + k) * SECOND
    ensures OnTime(t, k, now)
  {
  }

  // ---------------------------------------------------------------- one packet

  lemma AckedUnskipped(s: Sending, k: int, now: Time, later: Time)
    requires Unskipped(s, now) && now <= later
    ensures var t := Acked(s, k, later);
      Unskipped(t, later) && t.source == s.source && t.rate.lastRefill == s.rate.lastRefill &&
      t.streamStartSet == s.streamStartSet && t.streamStartUs == s.streamStartUs && t.deadlineDrops == s.deadlineDrops
  {
    AckedKeeps(s, k, later);
    if k in s.inFlight { AckOk(s.rate, UsBetween(s.inFlight[k].lastSent, later), later); }
  }

  /** A second later the acknowledgement of packet `k` lets new packets follow. */
  lemma AckOnTime(e: Endpoint, p: Packet, k: int, now: Time, later: Time)
    requires e.role == Initiator && e.state == Active && !e.finSent && !e.failed && e.snd.deadlineDrops == 0
    requires OnTime(e.snd, k, now) && now + SECOND == later && k in e.snd.inFlight
    requires (forall n :: n in e.snd.inFlight ==> n >= k) && p.header.packetType == Ack && p.header.sequenceNumber == k
    requires !Drained(Acked(e.snd, k, later))
    ensures var r := OnPacket(e, p, later); InStep(e, r, k) && OnTime(r.e.snd, k + 1, later)
  {
    var a := e.(snd := Acked(e.snd, k, later));
    AckedLeaves(e.snd, k, later);
    AckedUnskipped(e.snd, k, now, later);
    SecondRefills(a.snd.rate, later);
    WindowFills(a, later);
    AckFills(e, p, a, later);
    FillWindowStatus(a, later);
    StaysOnTime(a.snd, FillWindow(a, later).e.snd, FillWindow(a, later).out, k + 1, later);
  }

  lemma TimeForOneMore(s: Sending, k: int, now: Time)
    requires OnTime(s, k, now) && k < |s.sent|
    ensures now + SECOND < 0x8000_0000_0000_0000
  {
  }

  /** The transfer is complete, nothing was dropped and every chunk was sent. */
  ghost predicate AllSent(w: World) {
    IsComplete(w.init) && w.init.snd.deadlineDrops == 0 && Skipped(w.init.snd) == 0
  }

  /** More is to come: the exchange goes on, on time. */
  lemma NextOnTime(w: World, k: int, l: Reply, r: Reply, later: Time)
    requires Punctual(w, k) && k < |w.init.snd.sent| && later == w.clock + SECOND && k in w.init.snd.inFlight
    requires r == OnPacket(w.init, Normalise(AckPacket(w.lstn.streamId, k)), later)
    requires l.e.state == Active && l.e.rcv.reorder == map[] && l.e.rcv.nextExpected == k + 1
    requires Inv(Exchanged(w, k, l, r, later)) && !Drained(Acked(w.init.snd, k, later))
    ensures Punctual(Exchanged(w, k, l, r, later), k + 1)
  {
    AckOnTime(w.init, Normalise(AckPacket(w.lstn.streamId, k)), k, w.clock, later);
    ExchangeAligns(w, k, l, r, later);
  }

  /** That was the last packet. */
  lemma LastOfAll(w: World, k: int, r: Reply, later: Time)
    requires Punctual(w, k) && w.clock <= later && 0 <= k < TWO_32
    requires r == OnPacket(w.init, Normalise(AckPacket(w.lstn.streamId, k)), later)
    requires Drained(Acked(w.init.snd, k, later))
    ensures IsComplete(r.e) && r.e.snd.deadlineDrops == 0 && Skipped(r.e.snd) == 0
  {
    AckedUnskipped(w.init.snd, k, w.clock, later);
    LastAnswer(w.init, Normalise(AckPacket(w.lstn.streamId, k)), k, later);
  }

  /** Packet `k` is delivered, and a second later its answer. */
  lemma OnePacket(w: World, k: int, later: Time) returns (u: World)
    requires Punctual(w, k) && k < |w.init.snd.sent| && later == w.clock + SECOND
    ensures Leads(w, OneExchange(w, later), u) && (AllSent(u) || Punctual(u, k + 1))
  {
    AlignedSettles(w, k);
    var l, r := Exchange(w, k, later);
    u := Exchanged(w, k, l, r, later);
    if Drained(Acked(w.init.snd, k, later)) {
      LastOfAll(w, k, r, later);
    } else {
      NextOnTime(w, k, l, r, later);
    }
  }

  predicate LossFree(run: seq<Step>) { forall k :: 0 <= k < |run| ==> Gentle(run[k]) }

  lemma Onwards(w: World, first: seq<Step>, v: World, rest: seq<Step>, u: World) returns (run: seq<Step>)
    requires Leads(w, first, v) && LossFree(first) && Leads(v, rest, u) && LossFree(rest)
    ensures Leads(w, run, u) && LossFree(run)
  {
    LeadsOn(w, first, v, rest, u);
    run := first + rest;
  }

  // ---------------------------------------------------------------- one tick

  /** The instant the next chunk is due, or now. */
  function DueAt(s: Sending, now: Time): int
    requires s.source.Some?
  {
    if AtEof(s) then now else
    var due := (STREAM_START + NextChunk(s).ptsUs) * NS_PER_US;
    if due > now then due else now
  }

  lemma DueInTime(s: Sending, now: Time)
    requires OnTime(s, |s.sent|, now) && !AtEof(s)
    ensures now <= DueAt(s, now) <= OPENED + (|s.source.value.pending| + |s.sent|) * SECOND < 0x8000_0000_0000_0000
  {
    assert NextChunk(s).ptsUs <= 1_000_000 * |s.source.value.pending|;
  }

  lemma DueIsTaken(s: Sending, now: Time, later: Time)
    requires OnTime(s, |s.sent|, now) && !AtEof(s) && later == DueAt(s, now) && |s.inFlight| == 0
    ensures MayTake(s, later)
  {
    DueInTime(s, now);
  }

  /** With nothing in flight a tick only fills the window. */
  lemma IdleTick(e: Endpoint, now: Time)
    requires e.role == Initiator && e.state == Active && |e.snd.inFlight| == 0
    ensures OnTick(e, now) == FillWindow(e.(snd := Refill(e.snd, now)), now)
  {
    var t := e.(snd := Refill(e.snd, now));
    assert t.snd.inFlight.Keys == {};
    assert [] + FillWindow(t, now).out == FillWindow(t, now).out;
  }

  lemma RefilledOnTime(s: Sending, now: Time, later: Time)
    requires OnTime(s, |s.sent|, now) && now <= later
    ensures var t := Refill(s, later);
      Unskipped(t, later) && t.rate.tokens >= PLENTY && R.AfterTick(t.rate, later).tokens >= PLENTY
  {
    assert RateOk(s.rate, later);
    RefillOk(s.rate, later);
    Retuned(s, Refill(s, later));
    PlentyStays(s.rate, later);
    PlentyStays(R.AfterTick(s.rate, later), later);
  }

  lemma RefillTakes(s: Sending, now: Time)
    requires MayTake(s, now)
    ensures MayTake(Refill(Refill(s, now), now), now)
  {
  }

  /** An idle tick that may take a chunk, from a bucket of plenty. */
  lemma TickFills(e: Endpoint, now: Time)
    requires e.role == Initiator && e.state == Active && |e.snd.inFlight| == 0 && MayTake(e.snd, now)
    requires var t := Refill(e.snd, now); Unskipped(t, now) && R.AfterTick(t.rate, now).tokens >= PLENTY
    ensures var r := OnTick(e, now); Fills(Refill(e.snd, now), r.e.snd, r.out, now) && r.out != []
  {
    var t := e.(snd := Refill(e.snd, now));
    RefillTakes(e.snd, now);
    WindowFills(t, now);
    IdleTick(e, now);
  }

  /** The tick at the instant the next chunk is due sends it. */
  lemma TickOnTime(e: Endpoint, now: Time, later: Time)
    requires e.role == Initiator && e.state == Active && OnTime(e.snd, |e.snd.sent|, now) && !AtEof(e.snd)
    requires |e.snd.inFlight| == 0 && later == DueAt(e.snd, now)
    ensures var r := OnTick(e, later);
      OnTime(r.e.snd, |e.snd.sent|, later) && Extends(Refill(Refill(e.snd, later), later), r.e.snd, r.out) && r.out != []
  {
    var r := OnTick(e, later);
    DueInTime(e.snd, now);
    DueIsTaken(e.snd, now, later);
    RefilledOnTime(e.snd, now, later);
    TickFills(e, later);
    StaysOnTime(Refill(e.snd, later), r.e.snd, r.out, |e.snd.sent|, later);
  }

  /** In the world: new packets are under way, and the exchange stays in step. */
  lemma TickAligns(w: World, k: int, r: Reply, later: Time)
    requires Aligned(w, k) && k == |w.init.snd.sent| && w.clock <= later && r == OnTick(w.init, later)
    requires Extends(Refill(Refill(w.init.snd, later), later), r.e.snd, r.out)
    requires r.e.state == Active && !r.e.finSent && !r.e.failed && |w.init.snd.inFlight| == 0
    ensures Leads(w, [TickI(later)], FromI(w, r, later)) && Aligned(FromI(w, r, later), k)
  {
    LeadsStep(w, TickI(later));
    StepKeeps(w, TickI(later));
    WiresFrom(w.init.snd.sent, r.out, k);
  }

  lemma IdleStatus(e: Endpoint, now: Time)
    requires e.role == Initiator && e.state == Active && |e.snd.inFlight| == 0
    ensures var f := OnTick(e, now).e; f.state == Active && f.finSent == e.finSent && f.failed == e.failed
  {
    IdleTick(e, now);
  }

  /** The tick and its instant. */
  lemma TickComes(w: World, k: int) returns (later: Time, r: Reply)
    requires Punctual(w, k) && k == |w.init.snd.sent| && !AtEof(w.init.snd)
    ensures w.clock <= later && r == OnTick(w.init, later) && r.out != [] && |w.init.snd.inFlight| == 0
    ensures r.e.state == Active && !r.e.finSent && !r.e.failed && OnTime(r.e.snd, k, later)
    ensures Extends(Refill(Refill(w.init.snd, later), later), r.e.snd, r.out)
  {
    Nothing(w.init.snd, k);
    DueInTime(w.init.snd, w.clock);
    later := DueAt(w.init.snd, w.clock);
    r := OnTick(w.init, later);
    TickOnTime(w.init, w.clock, later);
    IdleStatus(w.init, later);
  }

  lemma OneTick(w: World, k: int) returns (u: World, run: seq<Step>)
    requires Punctual(w, k) && k == |w.init.snd.sent| && !AtEof(w.init.snd)
    ensures Leads(w, run, u) && LossFree(run) && Punctual(u, k) && k < |u.init.snd.sent|
  {
    var later, r := TickComes(w, k);
    TickAligns(w, k, r, later);
    u, run := FromI(w, r, later), [TickI(later)];
  }

  // ---------------------------------------------------------------- to the end

  /** The numbers still to settle, and one more if a tick comes next. */
  function Left(w: World, k: int): nat {
    if k >= TWO_32 then 0 else 2 * (TWO_32 - k) + if k == |w.init.snd.sent| then 1 else 0
  }

  lemma EofIsAllSent(w: World, k: int)
    requires Punctual(w, k) && k == |w.init.snd.sent| && AtEof(w.init.snd)
    ensures AllSent(w)
  {
    Nothing(w.init.snd, k);
  }

  lemma NumberFits(w: World, k: int)
    requires Punctual(w, k)
    ensures 0 <= k <= |w.init.snd.sent| < TWO_32
  {
  }

  lemma PacketIsOneLess(w: World, v: World, k: int)
    requires 0 <= k < |w.init.snd.sent| < TWO_32
    ensures Left(v, k + 1) < Left(w, k)
  {
  }

  lemma TickIsOneLess(w: World, v: World, k: int)
    requires 0 <= k == |w.init.snd.sent| < TWO_32 && k < |v.init.snd.sent|
    ensures Left(v, k) < Left(w, k)
  {
  }

  lemma ExchangeIsGentle(w: World, later: Time)
    ensures LossFree(OneExchange(w, later))
  {
  }

  lemma PacketMove(w: World, k: int) returns (v: World, run: seq<Step>)
    requires Punctual(w, k) && k < |w.init.snd.sent|
    ensures Leads(w, run, v) && LossFree(run)
    ensures AllSent(v) || (Punctual(v, k + 1) && Left(v, k + 1) < Left(w, k))
  {
    TimeForOneMore(w.init.snd, k, w.clock);
    NumberFits(w, k);
    var later := w.clock + SECOND;
    v := OnePacket(w, k, later);
    PacketIsOneLess(w, v, k);
    ExchangeIsGentle(w, later);
    run := OneExchange(w, later);
  }

  lemma TickMove(w: World, k: int) returns (v: World, run: seq<Step>)
    requires Punctual(w, k) && k == |w.init.snd.sent| && !AtEof(w.init.snd)
    ensures Leads(w, run, v) && LossFree(run) && Punctual(v, k) && Left(v, k) < Left(w, k)
  {
    NumberFits(w, k);
    v, run := OneTick(w, k);
    TickIsOneLess(w, v, k);
  }

  /** A packet and its answer, or a tick: the transfer is at its end or nearer to it. */
  lemma OneMove(w: World, k: int) returns (v: World, j: int, run: seq<Step>)
    requires Punctual(w, k) && (k < |w.init.snd.sent| || (k == |w.init.snd.sent| && !AtEof(w.init.snd)))
    ensures Leads(w, run, v) && LossFree(run)
    ensures AllSent(v) || (Punctual(v, j) && Left(v, j) < Left(w, k))
  {
    if k < |w.init.snd.sent| {
      v, run := PacketMove(w, k);
      j := k + 1;
    } else {
      v, run := TickMove(w, k);
      j := k;
    }
  }

  lemma {:induction false} ToTheEnd(w: World, k: int, left: nat) returns (u: World, run: seq<Step>)
    requires (Punctual(w, k) && Left(w, k) <= left) || AllSent(w)
    ensures Leads(w, run, u) && LossFree(run) && AllSent(u)
    decreases left
  {
    if AllSent(w) {
      LeadsNowhere(w);
      u, run := w, [];
    } else if k == |w.init.snd.sent| && AtEof(w.init.snd) {
      EofIsAllSent(w, k);
    } else {
      NumberFits(w, k);
      var v, j, move := OneMove(w, k);
      u, run := ToTheEnd(v, j, left - 1);
      run := Onwards(w, move, v, run, u);
    }
  }

  // ---------------------------------------------------------------- from the start

  /** A streaming initiator about to hear the SYN|ACK, its bucket ticked once. */
  ghost predicate AboutToStream(e: Endpoint) {
    e.role == Initiator && e.state == Handshaking && !e.finSent && !e.failed && Unskipped(e.snd, OPENED) &&
    Timed(e.snd.source.value.pending) && e.snd.sent == [] && |e.snd.inFlight| == 0 && e.snd.deadlineDrops == 0 &&
    !e.snd.streamStartSet && e.snd.rate.lastRefill == START
  }

  /** The SYN|ACK starts the stream. */
  lemma StreamStarts(e: Endpoint)
    requires AboutToStream(e)
    ensures var r := OnSynAck(e, LISTENER_STREAM, OPENED);
      r.out == [HandshakePacket(LISTENER_STREAM, FLAG_ACK)] + r.e.snd.sent && r.e.state == Active && !r.e.finSent &&
      !r.e.failed && r.e.snd.deadlineDrops == 0 && OnTime(r.e.snd, 0, OPENED)
  {
    var a := e.(streamId := LISTENER_STREAM, state := Active);
    var r := FillWindow(a, OPENED);
    SecondRefills(e.snd.rate, OPENED);
    WindowFills(a, OPENED);
    FillWindowStatus(a, OPENED);
    assert [] + r.out == r.out;
    assert !AtEof(e.snd) ==> MayTake(Refill(e.snd, OPENED), OPENED);
  }

  /** The initiator once it has said SYN and its bucket was ticked. */
  function Ticked(e: Endpoint): Endpoint { e.(lastHandshake := START, snd := Refill(e.snd, START)) }

  lemma FirstTick(e: Endpoint)
    requires e.role == Initiator && e.state == Handshaking
    ensures OnTick(e.(lastHandshake := START), START) == Reply(Ticked(e), [])
  {
  }

  lemma FirstTickLeads(e: Endpoint, w: World, v: World)
    requires e.role == Initiator && e.state == Handshaking && w.init == e.(lastHandshake := START) && w.clock == START
    requires w.toI == [] && v == World(Ticked(e), w.lstn, w.toL, [], START)
    ensures Leads(w, [TickI(START)], v)
  {
    FirstTick(e);
    assert w.toL + Wires([]) == w.toL;
    LeadsStep(w, TickI(START));
  }

  /** SYN and SYN|ACK. */
  lemma SynAndAnswer(w: World, streamId: uint32) returns (o: World, run: seq<Step>)
    requires w.init.role == Initiator && w.init.state == Handshaking && w.lstn.role == Listener && w.clock <= OPENED
    requires w.toL == [Encode(HandshakePacket(streamId, FLAG_SYN))] && w.toI == [] && w.lstn.rcv.nextExpected == 0
    ensures Leads(w, run, o) && LossFree(run)
    ensures var r := OnSynAck(w.init, LISTENER_STREAM, OPENED);
      o == World(r.e, Restarted(w.lstn, OPENED), Wires(r.out), [], OPENED)
  {
    var v := World(w.init, Restarted(w.lstn, OPENED), [], [Encode(SYN_ACK)], OPENED);
    var r := OnSynAck(w.init, LISTENER_STREAM, OPENED);
    SynLeads(w, streamId, OPENED);
    SynAckLeads(v, OPENED);
    o := World(r.e, v.lstn, Wires(r.out), [], OPENED);
    run := Onwards(w, [DeliverL(0, OPENED)], v, [DeliverI(0, OPENED)], o);
  }

  /** The world with the SYN under way, once the initiator has ticked. */
  lemma FirstTickOf(e: Endpoint) returns (v: World)
    requires e.role == Initiator && e.state == Handshaking
    ensures v == World(Ticked(e), Beginning(e, true).lstn, [Encode(HandshakePacket(e.streamId, FLAG_SYN))], [], START)
    ensures Leads(FromI(Beginning(e, true), Start(e, START), START), [TickI(START)], v)
  {
    var w := FromI(Beginning(e, true), Start(e, START), START);
    StartedIs(e, true, START);
    v := World(Ticked(e), w.lstn, w.toL, [], START);
    FirstTickLeads(e, w, v);
  }

  lemma HandshakeLeads(e: Endpoint) returns (o: World, run: seq<Step>)
    requires e.role == Initiator && e.state == Handshaking
    ensures Leads(FromI(Beginning(e, true), Start(e, START), START), run, o) && LossFree(run)
    ensures var r := OnSynAck(Ticked(e), LISTENER_STREAM, OPENED);
      o == World(r.e, Restarted(Beginning(e, true).lstn, OPENED), Wires(r.out), [], OPENED)
  {
    var v := FirstTickOf(e);
    o, run := SynAndAnswer(v, e.streamId);
    run := Onwards(FromI(Beginning(e, true), Start(e, START), START), [TickI(START)], v, run, o);
  }

  /** The SYN|ACK has arrived at `e`, and nothing else has happened. */
  ghost predicate Greeted(o: World, e: Endpoint) {
    var r := OnSynAck(e, LISTENER_STREAM, OPENED);
    o.init == r.e && o.toL == Wires(r.out) && o.toI == [] && o.clock == OPENED && o.lstn.state == Handshaking &&
    o.lstn.streamId == LISTENER_STREAM && o.lstn.rcv.nextExpected == 0 && o.lstn.rcv.reorder == map[]
  }

  /** The ACK of the handshake arrives: the exchange is in step and on time. */
  lemma LastHelloOnTime(o: World, e: Endpoint) returns (u: World)
    requires AboutToStream(e) && Inv(o) && Greeted(o, e)
    ensures Leads(o, [DeliverL(0, OPENED)], u) && Punctual(u, 0)
  {
    StreamStarts(e);
    IsLastHello(LISTENER_STREAM);
    LastHelloAligns(o, HandshakePacket(LISTENER_STREAM, FLAG_ACK));
    u := World(o.init, o.lstn.(state := Active), Wires(o.init.snd.sent), [], OPENED);
  }

  // ---------------------------------------------------------------- every file

  lemma {:induction false} WrapTimes(pieces: seq<seq<byte>>, ft: FrameType, pts: uint64)
    ensures |Wrap(pieces, ft, pts)| == |pieces|
    ensures forall k :: 0 <= k < |pieces| ==> Wrap(pieces, ft, pts)[k].ptsUs == pts
  {
    if pieces != [] { WrapTimes(pieces[1..], ft, pts); }
  }

  lemma PictureTime(u: seq<byte>, index: nat, duration: nat)
    requires duration <= 1_000_000
    ensures UnitPts(u, index, duration) <= 1_000_000 * index
  {
    assert index * duration <= index * 1_000_000;
    assert U64(index * duration) <= index * duration;
  }

  /** Of `n` units the queue has `n` chunks or more, each of a time within the first `n` pictures. */
  lemma {:induction false} QueueTimes(us: seq<seq<byte>>, index: nat, duration: nat)
    requires duration <= 1_000_000
    ensures |Queue(us, index, duration)| >= |us|
    ensures forall k :: 0 <= k < |Queue(us, index, duration)| ==>
      Queue(us, index, duration)[k].ptsUs <= 1_000_000 * (index + |us|)
    decreases |us|
  {
    if us != [] {
      PictureTime(us[0], index, duration);
      WrapTimes(Chunks(START_CODE + us[0]), UnitType(us[0]), UnitPts(us[0], index, duration));
      QueueTimes(us[1..], NextIndex(us[0], index), duration);
    }
  }

  lemma FileTimed(video: seq<byte>, fps: uint32)
    requires |FileQueue(video, fps)| + SEND_WINDOW <= TWO_32
    ensures Timed(FileQueue(video, fps))
  {
    QueueTimes(Units(video), 0, Duration(fps));
  }

  function Streamer(video: seq<byte>, fps: uint32, tapped: bool): Endpoint {
    WithMedia(FreshEndpoint(Initiator), Loaded(video, fps), tapped)
  }

  lemma FileAboutToStream(video: seq<byte>, fps: uint32, tapped: bool)
    requires |FileQueue(video, fps)| + SEND_WINDOW <= TWO_32
    ensures AboutToStream(Ticked(Streamer(video, fps, tapped)))
  {
    MediaStartOk(video, fps, tapped, true);
    Retuned(Streamer(video, fps, tapped).snd, Ticked(Streamer(video, fps, tapped)).snd);
    R.FreshConforms(R.INITIAL_RATE);
    FileTimed(video, fps);
  }

  /** The handshake of a file. */
  lemma FileGreets(video: seq<byte>, fps: uint32, tapped: bool) returns (e: Endpoint, o: World, run: seq<Step>)
    requires |FileQueue(video, fps)| + SEND_WINDOW <= TWO_32
    ensures Leads(OnAir(video, fps, tapped, START), run, o) && LossFree(run)
    ensures AboutToStream(e) && Inv(o) && Greeted(o, e)
  {
    var w := OnAir(video, fps, tapped, START);
    e := Ticked(Streamer(video, fps, tapped));
    o, run := HandshakeLeads(Streamer(video, fps, tapped));
    LeadsTo(w, run, o);
    OnAirOk(video, fps, tapped, START);
    RunKeeps(w, run);
    FileAboutToStream(video, fps, tapped);
  }

  /** From the handshake to the end. */
  lemma StreamLeads(w: World, first: seq<Step>, o: World, e: Endpoint) returns (u: World, run: seq<Step>)
    requires Leads(w, first, o) && LossFree(first) && AboutToStream(e) && Inv(o) && Greeted(o, e)
    ensures Leads(w, run, u) && LossFree(run) && AllSent(u)
  {
    var v := LastHelloOnTime(o, e);
    run := Onwards(w, first, o, [DeliverL(0, OPENED)], v);
    var more;
    u, more := ToTheEnd(v, 0, Left(v, 0));
    run := Onwards(w, run, v, more, u);
  }

  lemma FileLeads(video: seq<byte>, fps: uint32, tapped: bool) returns (u: World, run: seq<Step>)
    requires |FileQueue(video, fps)| + SEND_WINDOW <= TWO_32
    ensures Leads(OnAir(video, fps, tapped, START), run, u) && LossFree(run) && AllSent(u)
  {
    var e, o, first := FileGreets(video, fps, tapped);
    u, run := StreamLeads(OnAir(video, fps, tapped, START), first, o, e);
  }

  /** All sent and settled, nothing dropped: the sink is the file. */
  lemma AllSentFills(w: World, q: seq<MediaChunk>, tapped: bool)
    requires MediaInv(w, q, tapped, true) && Filled(q) && AllSent(w)
    ensures w.lstn.rcv.sink == Flatten(Payloads(q))
  {
    DrainedIsDelivered(w);
    SettledIsFile(w, q, tapped);
  }

  /** Every file whose last window of numbers does not wrap can be brought over: a run that loses
      nothing in which the transfer completes, no chunk is dropped or left out, and the sink is the
      input with every start code normalised. */
  lemma FileCanArrive(video: seq<byte>, fps: uint32, tapped: bool) returns (run: seq<Step>)
    requires |FileQueue(video, fps)| + SEND_WINDOW <= TWO_32
    ensures LossFree(run) && Legal(OnAir(video, fps, tapped, START), run)
    ensures var w := After(OnAir(video, fps, tapped, START), run);
      AllSent(w) && w.lstn.rcv.sink == Print(Units(video)) && Units(w.lstn.rcv.sink) == Units(video)
  {
    var u;
    u, run := FileLeads(video, fps, tapped);
    LeadsTo(OnAir(video, fps, tapped, START), run, u);
    OnAirOk(video, fps, tapped, START);
    RunMedia(OnAir(video, fps, tapped, START), run, FileQueue(video, fps), tapped, true);
    QueueIsPrint(Units(video), 0, Duration(fps));
    QueueFilled(Units(video), 0, Duration(fps));
    AllSentFills(u, FileQueue(video, fps), tapped);
    NormaliseKeepsUnits(video);
  }
}
