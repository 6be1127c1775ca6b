/** Starvation over whole runs: which fillings of the window cost a chunk, and that a file
    arrives exactly when none did. */
module Starvation {
  import opened Wire
  import opened Clock
  import opened AnnexB
  import opened FrameCapture
  import opened Source
  import opened PacketCodec
  import opened SessionSpec
  import opened Sender
  import opened Receiver
  import opened Network
  import opened Reliability
  import opened MediaTransfer
  import opened Pacing
  import R = RateControl
  import Rto

  // ---------------------------------------------------------------- one filling

  /** The bucket, refilled, holds less than what window and timeline admit. */
  predicate Short(e: Endpoint, now: Time) {
    e.role == Initiator && e.state == Active && e.snd.mediaMode && e.snd.source.Some? &&
    R.Available(R.AfterTick(e.snd.rate, now)) < Due(e.snd, now)
  }

  lemma OrderlySender(s: Sending)
    requires SenderOk(s) && s.mediaMode
    ensures Orderly(s)
  {
    assert forall n :: n in s.inFlight ==> n < |s.sent|;
  }

  lemma RefillOwes(s: Sending, now: Time)
    requires Orderly(s)
    ensures var t := Refill(s, now); Orderly(t) && Due(t, now) == Due(s, now) && Skipped(t) == Skipped(s)
  {
  }

  lemma FlushSkips(s: Sending)
    requires s.source.Some?
    ensures Skipped(FlushAtEof(s)) == Skipped(s)
  {
  }

  lemma FillSkips(s: Sending, streamId: uint32, now: Time)
    requires Orderly(s) && s.mediaMode && RateOk(s.rate, now)
    ensures Skipped(Fill(s, streamId, now).s) ==
      Skipped(s) + if R.Available(R.AfterTick(s.rate, now)) < Due(s, now) then 1 else 0
  {
    var t := Refill(s, now);
    RefillOk(s.rate, now);
    RefillOwes(s, now);
    SkipsIffStarved(t, streamId, now);
    FlushSkips(FillMedia(t, streamId, now).s);
  }

  lemma FillWindowSkips(e: Endpoint, now: Time)
    requires SenderOk(e.snd) && e.snd.mediaMode && RateOk(e.snd.rate, now)
    ensures Skipped(FillWindow(e, now).e.snd) == Skipped(e.snd) + if Short(e, now) then 1 else 0
  {
    OrderlySender(e.snd);
    if e.role == Initiator && e.state == Active { FillSkips(e.snd, e.streamId, now); }
  }

  /** An initiator says FIN instead of filling its window. */
  predicate Leaves(e: Endpoint) { e.role == Initiator && IsComplete(e) && !e.finSent }

  /** The initiator as it is when a packet makes it fill its window. */
  function PacketFilling(e: Endpoint, p: Packet, now: Time): Option<Endpoint> {
    match p.header.packetType
    case Handshake =>
      if e.role == Initiator && IsSynAck(p.header.flags) && e.state == Handshaking then
        Some(e.(streamId := p.header.streamId, state := Active))
      else None
    case Ack =>
      var a := e.(snd := Acked(e.snd, p.header.sequenceNumber, now));
      if !Open(e) || Leaves(a) then None else Some(a)
    case _ => None
  }

  /** The initiator as it is when a tick makes it fill its window: refilled and swept. */
  ghost function SweptFilling(e: Endpoint, now: Time): Option<Endpoint> {
    var s := Sweep(e.snd, e.snd.inFlight.Keys, now, Rto.Current(e.snd.rto));
    if s.dead then None else Some(e.(snd := s.s))
  }

  ghost function TickFilling(e: Endpoint, now: Time): Option<Endpoint> {
    var t := e.(snd := Refill(e.snd, now));
    if !Open(t) then None else SweptFilling(t, now)
  }

  /** Chunks lost to a filling that begins so. */
  function Lost(f: Option<Endpoint>, now: Time): nat {
    if f.Some? && Short(f.value, now) then 1 else 0
  }

  lemma ProceedSkips(e: Endpoint, now: Time)
    requires SenderOk(e.snd) && e.snd.mediaMode && RateOk(e.snd.rate, now)
    ensures Skipped(Proceed(e, now).e.snd) == Skipped(e.snd) + if !Leaves(e) && Short(e, now) then 1 else 0
  {
    if !Leaves(e) { FillWindowSkips(e, now); }
  }

  lemma AckSkips(e: Endpoint, p: Packet, now: Time)
    requires SenderOk(e.snd) && e.snd.mediaMode && RateOk(e.snd.rate, now) && p.header.packetType == Ack && Open(e)
    ensures Skipped(OnAck(e, p, now).e.snd) == Skipped(e.snd) + Lost(PacketFilling(e, p, now), now)
  {
    var n: int := p.header.sequenceNumber;
    var a := e.(snd := Acked(e.snd, n, now));
    AckedKeeps(e.snd, n, now);
    if n in e.snd.inFlight { AckOk(e.snd.rate, UsBetween(e.snd.inFlight[n].lastSent, now), now); }
    ProceedSkips(a, now);
  }

  lemma SynAckSkips(e: Endpoint, p: Packet, now: Time)
    requires SenderOk(e.snd) && e.snd.mediaMode && RateOk(e.snd.rate, now) && p.header.packetType == Handshake
    requires e.role == Initiator
    ensures Skipped(OnHandshake(e, p, now).e.snd) == Skipped(e.snd) + Lost(PacketFilling(e, p, now), now)
  {
    if IsSynAck(p.header.flags) && e.state == Handshaking {
      FillWindowSkips(e.(streamId := p.header.streamId, state := Active), now);
    }
  }

  lemma NackSkips(e: Endpoint, p: Packet, now: Time)
    ensures Skipped(OnNack(e, p, now).e.snd) == Skipped(e.snd)
  {
  }

  lemma PacketSkips(e: Endpoint, p: Packet, now: Time)
    requires SenderOk(e.snd) && e.snd.mediaMode && RateOk(e.snd.rate, now) && e.role == Initiator && !IsData(p)
    ensures Skipped(OnPacket(e, p, now).e.snd) == Skipped(e.snd) + Lost(PacketFilling(e, p, now), now)
  {
    match p.header.packetType {
      case Handshake => SynAckSkips(e, p, now);
      case Ack => if Open(e) { AckSkips(e, p, now); }
      case Nack => NackSkips(e, p, now);
      case _ =>
    }
  }

  lemma OpenTickSkips(e: Endpoint, now: Time)
    requires SenderOk(e.snd) && e.snd.mediaMode && RateOk(e.snd.rate, now) && Open(e)
    ensures Skipped(OpenTick(e, now).e.snd) == Skipped(e.snd) + Lost(SweptFilling(e, now), now)
  {
    var rto := Rto.Current(e.snd.rto);
    var s := Sweep(e.snd, e.snd.inFlight.Keys, now, rto);
    SweepAside(e.snd, e.snd.inFlight.Keys, now, rto);
    SweepKeeps(e.snd, e.snd.inFlight.Keys, now, rto);
    SweepRate(e.snd, e.snd.inFlight.Keys, now, rto);
    if !s.dead { FillWindowSkips(e.(snd := s.s), now); }
  }

  lemma HandshakeTickSkips(e: Endpoint, now: Time)
    ensures HandshakeTick(e, now).e.snd == e.snd
  {
  }

  lemma TickSkips(e: Endpoint, now: Time)
    requires SenderOk(e.snd) && e.snd.mediaMode && RateOk(e.snd.rate, now)
    ensures Skipped(OnTick(e, now).e.snd) == Skipped(e.snd) + Lost(TickFilling(e, now), now)
  {
    var t := e.(snd := Refill(e.snd, now));
    Retuned(e.snd, t.snd);
    RefillOk(e.snd.rate, now);
    if t.state == Handshaking {
      HandshakeTickSkips(t, now);
    } else if Open(t) {
      OpenTickSkips(t, now);
    }
  }

  // ---------------------------------------------------------------- every run

  /** Chunks lost in a step. */
  ghost function LostIn(w: World, s: Step): nat
    requires Enabled(w, s)
  {
    match s
    case TickI(now) => Lost(TickFilling(w.init, now), now)
    case DeliverI(i, now) =>
      var p := Decode(w.toI[i]);
      if p.None? then 0 else Lost(PacketFilling(w.init, p.value, now), now)
    case _ => 0
  }

  /** How many fillings of the window began with less in the bucket than was due. */
  ghost function StarvedFillings(w: World, run: seq<Step>): nat
    requires Legal(w, run)
    decreases |run|
  {
    if run == [] then 0 else LostIn(w, run[0]) + StarvedFillings(Next(w, run[0]), run[1..])
  }

  lemma StepSkips(w: World, s: Step)
    requires Inv(w) && w.init.snd.mediaMode && RateOk(w.init.snd.rate, w.clock) && Enabled(w, s)
    ensures Skipped(Next(w, s).init.snd) == Skipped(w.init.snd) + LostIn(w, s)
  {
    match s {
      case TickI(now) => TickSkips(w.init, now);
      case DeliverI(i, now) =>
        var p := Decode(w.toI[i]);
        assert Honest(w.toI[i], w.lstn.rcv.nextExpected);
        if p.Some? { PacketSkips(w.init, p.value, now); }
      case _ =>
    }
  }

  /** In every run, the chunks taken and never sent are as many as the fillings that began
      starved. */
  lemma {:induction false} RunSkips(w: World, run: seq<Step>)
    requires Inv(w) && w.init.snd.mediaMode && RateOk(w.init.snd.rate, w.clock) && Legal(w, run)
    ensures Skipped(After(w, run).init.snd) == Skipped(w.init.snd) + StarvedFillings(w, run)
    decreases |run|
  {
    if run != [] {
      StepSkips(w, run[0]);
      StepKeeps(w, run[0]);
      StepRate(w, run[0]);
      RunSkips(Next(w, run[0]), run[1..]);
    }
  }

  lemma ChunksLost(video: seq<byte>, fps: uint32, tapped: bool, hasSink: bool, run: seq<Step>)
    requires |FileQueue(video, fps)| < TWO_32 && Legal(MediaStart(video, fps, tapped, hasSink), run)
    ensures Skipped(Streamed(video, fps, tapped, hasSink, run).init.snd) ==
      StarvedFillings(MediaStart(video, fps, tapped, hasSink), run)
  {
    MediaStartOk(video, fps, tapped, hasSink);
    R.FreshConforms(R.INITIAL_RATE);
    RunSkips(MediaStart(video, fps, tapped, hasSink), run);
  }

  /** File to file: a transfer that completed without deadline drops wrote the input, every
      start code normalised, exactly when no filling of the window began starved; then the sink
      has the same units as the input. */
  lemma FileToFile(video: seq<byte>, fps: uint32, tapped: bool, run: seq<Step>)
    requires |FileQueue(video, fps)| < TWO_32 && Legal(MediaStart(video, fps, tapped, true), run)
    requires var w := Streamed(video, fps, tapped, true, run);
      IsComplete(w.init) && w.init.snd.deadlineDrops == 0
    ensures var starved := StarvedFillings(MediaStart(video, fps, tapped, true), run);
      var sink := Streamed(video, fps, tapped, true, run).lstn.rcv.sink;
      (sink == Print(Units(video)) <==> starved == 0) && (starved == 0 ==> Units(sink) == Units(video))
  {
    StreamedOk(video, fps, tapped, true, run);
    ChunksLost(video, fps, tapped, true, run);
    AllSentIsFile(video, fps, tapped, run);
    NormaliseKeepsUnits(video);
  }

  /** At end of file, with no filling starved on the way, there is one frame for each unit of
      the file, exactly when the last unit is not torn by the cutting. */
  lemma FramesOfFile(video: seq<byte>, fps: uint32, hasSink: bool, run: seq<Step>)
    requires |FileQueue(video, fps)| < TWO_32 && Legal(MediaStart(video, fps, true, hasSink), run)
    requires AtEof(Streamed(video, fps, true, hasSink, run).init.snd)
    requires StarvedFillings(MediaStart(video, fps, true, hasSink), run) == 0
    ensures var us := Units(video);
      (Streamed(video, fps, true, hasSink, run).init.snd.capture.frames == UnitFrames(us, 0, Duration(fps))) <==>
      (us == [] || !Torn(us[|us| - 1]))
  {
    StreamedOk(video, fps, true, hasSink, run);
    ChunksLost(video, fps, true, hasSink, run);
    FramesAtEof(video, fps, hasSink, run);
  }
}
