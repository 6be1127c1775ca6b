/** A media file from one end to the other: what the sender takes from its source, what it
    captures and what it may consume, in every run of an epoch. */
module MediaTransfer {
  import opened Wire
  import opened Clock
  import opened AnnexB
  import opened FrameCapture
  import opened Source
  import opened PacketCodec
  import opened SessionSpec
  import opened Sender
  import opened Receiver
  import opened Network
  import opened Reliability
  import RateControl
  import Rto

  // ---------------------------------------------------------------- chunks and packets

  /** The chunk a media packet was made from. */
  function ChunkOf(p: Packet): MediaChunk { MediaChunk(p.payload, p.header.frameType, p.header.timestampUs) }

  function ChunksOf(sent: seq<Packet>): (q: seq<MediaChunk>)
    ensures |q| == |sent|
  {
    seq(|sent|, i requires 0 <= i < |sent| => ChunkOf(sent[i]))
  }

  /** `a` is `b` with some elements left out. */
  ghost predicate Subsequence(a: seq<MediaChunk>, b: seq<MediaChunk>)
    decreases |b|
  {
    if a == [] then true
    else if b == [] then false
    else (a[|a| - 1] == b[|b| - 1] && Subsequence(a[..|a| - 1], b[..|b| - 1])) || Subsequence(a, b[..|b| - 1])
  }

  lemma SubsequenceSkip(a: seq<MediaChunk>, b: seq<MediaChunk>, x: MediaChunk)
    requires Subsequence(a, b)
    ensures Subsequence(a, b + [x])
  {
    assert (b + [x])[..|b|] == b;
  }

  lemma SubsequenceTake(a: seq<MediaChunk>, b: seq<MediaChunk>, x: MediaChunk)
    requires Subsequence(a, b)
    ensures Subsequence(a + [x], b + [x])
  {
    assert (b + [x])[..|b|] == b && (a + [x])[..|a|] == a;
  }

  /** Nothing was left out exactly when the lengths agree. */
  lemma {:induction false} SubsequenceWhole(a: seq<MediaChunk>, b: seq<MediaChunk>)
    requires Subsequence(a, b)
    ensures |a| <= |b| && (a == b <==> |a| == |b|)
    decreases |b|
  {
    if a != [] {
      var a', b' := a[..|a| - 1], b[..|b| - 1];
      if a[|a| - 1] == b[|b| - 1] && Subsequence(a', b') {
        SubsequenceWhole(a', b');
        if |a| == |b| { assert a == a' + [a[|a| - 1]] && b == b' + [b[|b| - 1]]; }
      } else {
        SubsequenceWhole(a, b');
      }
    }
  }

  /** Every chunk carries something. */
  ghost predicate Filled(q: seq<MediaChunk>) { forall k :: 0 <= k < |q| ==> |q[k].payload| > 0 }

  lemma FlattenSnoc(q: seq<MediaChunk>)
    requires q != []
    ensures Flatten(Payloads(q)) == Flatten(Payloads(q[..|q| - 1])) + q[|q| - 1].payload
  {
    var most, last := q[..|q| - 1], q[|q| - 1];
    assert q == most + [last];
    PayloadsAppend(most, [last]);
    assert [last][1..] == [];
    assert Payloads([last]) == [last.payload];
    FlattenAppend(Payloads(most), [last.payload]);
    assert [last.payload][1..] == [];
    assert last.payload + [] == last.payload;
  }

  /** Leaving out a chunk leaves out bytes. */
  lemma {:induction false} SubsequenceShorter(a: seq<MediaChunk>, b: seq<MediaChunk>)
    requires Subsequence(a, b) && Filled(b)
    ensures |Flatten(Payloads(a))| + |b| <= |Flatten(Payloads(b))| + |a|
    decreases |b|
  {
    if b != [] {
      var b' := b[..|b| - 1];
      FlattenSnoc(b);
      assert |b[|b| - 1].payload| > 0;
      if a != [] && a[|a| - 1] == b[|b| - 1] && Subsequence(a[..|a| - 1], b') {
        FlattenSnoc(a);
        SubsequenceShorter(a[..|a| - 1], b');
      } else {
        assert Subsequence(a, b');
        SubsequenceShorter(a, b');
      }
    }
  }

  lemma {:induction false} WrapFilled(pieces: seq<seq<byte>>, ft: FrameType, pts: uint64)
    requires forall k :: 0 <= k < |pieces| ==> 0 < |pieces[k]| <= MAX_PAYLOAD
    ensures Filled(Wrap(pieces, ft, pts)) && Cut(Wrap(pieces, ft, pts))
  {
    if pieces != [] {
      WrapFilled(pieces[1..], ft, pts);
    }
  }

  lemma {:induction false} ChunksFilled(s: seq<byte>)
    ensures forall k :: 0 <= k < |Chunks(s)| ==> 0 < |Chunks(s)[k]| <= MAX_PAYLOAD
    decreases |s|
  {
    if |s| > MAX_PAYLOAD {
      ChunksFilled(s[MAX_PAYLOAD..]);
    }
  }

  /** The queue's chunks are neither empty nor too large for a packet. */
  lemma {:induction false} QueueFilled(us: seq<seq<byte>>, index: nat, duration: nat)
    ensures Filled(Queue(us, index, duration)) && Cut(Queue(us, index, duration))
    decreases |us|
  {
    if us != [] {
      ChunksFilled(START_CODE + us[0]);
      WrapFilled(Chunks(START_CODE + us[0]), UnitType(us[0]), UnitPts(us[0], index, duration));
      QueueFilled(us[1..], NextIndex(us[0], index), duration);
    }
  }

  // ---------------------------------------------------------------- what the sender keeps

  /** Bytes of the first transmissions, headers included. */
  function WireBytes(sent: seq<Packet>): nat {
    if sent == [] then 0 else WireBytes(sent[..|sent| - 1]) + HEADER_SIZE + |sent[|sent| - 1].payload|
  }

  /** The capture after sending the packets. */
  function CaptureOf(sent: seq<Packet>, tapped: bool): Capture {
    TakeAll(IDLE.(tapped := tapped), ChunksOf(sent))
  }

  /** What was sent comes from the source in order, and was paid for. */
  ghost predicate Sourced(s: Sending, q: seq<MediaChunk>) {
    s.mediaMode && s.source.Some? && s.source.value.pending == q &&
    Subsequence(ChunksOf(s.sent), q[..s.source.value.cursor]) && s.rate.consumed == WireBytes(s.sent)
  }

  /** The capture saw exactly the first transmissions and is flushed at end of file. */
  ghost predicate MediaOk(s: Sending, q: seq<MediaChunk>, tapped: bool) {
    Sourced(s, q) &&
    s.capture == if s.source.value.eof then Flush(CaptureOf(s.sent, tapped)) else CaptureOf(s.sent, tapped)
  }

  /** In the middle of filling the window nothing is flushed yet. */
  ghost predicate Midway(s: Sending, q: seq<MediaChunk>, tapped: bool) {
    Sourced(s, q) && s.capture == CaptureOf(s.sent, tapped)
  }

  lemma ChunksOfSnoc(sent: seq<Packet>, p: Packet)
    ensures ChunksOf(sent + [p]) == ChunksOf(sent) + [ChunkOf(p)]
  {
  }

  lemma CaptureSnoc(sent: seq<Packet>, p: Packet, tapped: bool)
    ensures CaptureOf(sent + [p], tapped) == Take(CaptureOf(sent, tapped), ChunkOf(p))
  {
    ChunksOfSnoc(sent, p);
    TakeAllAppend(IDLE.(tapped := tapped), ChunksOf(sent), [ChunkOf(p)]);
    assert [ChunkOf(p)][1..] == [];
  }

  lemma WireBytesSnoc(sent: seq<Packet>, p: Packet)
    ensures WireBytes(sent + [p]) == WireBytes(sent) + HEADER_SIZE + |p.payload|
  {
    assert (sent + [p])[..|sent|] == sent;
  }

  /** A chunk taken and sent. */
  lemma TakenAndSent(s: Sending, streamId: uint32, now: Time, q: seq<MediaChunk>, tapped: bool)
    requires Midway(s, q, tapped) && !s.source.value.eof && !Starved(Advance(s), NextChunk(s))
    ensures Midway(SendChunk(Advance(s), streamId, NextChunk(s), now), q, tapped)
  {
    var c, cursor := NextChunk(s), s.source.value.cursor;
    var p := MediaPacket(Advance(s), streamId, c);
    assert q[..cursor + 1] == q[..cursor] + [c];
    SubsequenceTake(ChunksOf(s.sent), q[..cursor], c);
    ChunksOfSnoc(s.sent, p);
    CaptureSnoc(s.sent, p, tapped);
    WireBytesSnoc(s.sent, p);
  }

  /** A chunk taken and not sent. */
  lemma TakenInVain(s: Sending, q: seq<MediaChunk>, tapped: bool)
    requires Midway(s, q, tapped) && !s.source.value.eof
    ensures Midway(Advance(s), q, tapped)
  {
    var c, cursor := NextChunk(s), s.source.value.cursor;
    assert q[..cursor + 1] == q[..cursor] + [c];
    SubsequenceSkip(ChunksOf(s.sent), q[..cursor], c);
  }

  lemma {:induction false} FillMediaMidway(s: Sending, streamId: uint32, now: Time, q: seq<MediaChunk>, tapped: bool)
    requires Midway(s, q, tapped)
    ensures Midway(FillMedia(s, streamId, now).s, q, tapped)
    decreases |s.source.value.pending| - s.source.value.cursor
  {
    if MayTake(s, now) {
      var a, c := Advance(s), NextChunk(s);
      if Starved(a, c) {
        TakenInVain(s, q, tapped);
      } else {
        TakenAndSent(s, streamId, now, q, tapped);
        FillMediaMidway(SendChunk(a, streamId, c, now), streamId, now, q, tapped);
      }
    }
  }

  lemma FillMediaOk(s: Sending, streamId: uint32, now: Time, q: seq<MediaChunk>, tapped: bool)
    requires MediaOk(s, q, tapped)
    ensures MediaOk(Fill(s, streamId, now).s, q, tapped)
  {
    var t := Refill(s, now);
    if !s.source.value.eof { FillMediaMidway(t, streamId, now, q, tapped); }
  }

  /** Source, first transmissions, capture and consumption are as before. */
  ghost predicate Aside(s: Sending, t: Sending) {
    t.mediaMode == s.mediaMode && t.source == s.source && t.sent == s.sent && t.capture == s.capture &&
    t.rate.consumed == s.rate.consumed
  }

  lemma AsideOk(s: Sending, t: Sending, q: seq<MediaChunk>, tapped: bool)
    requires MediaOk(s, q, tapped) && Aside(s, t)
    ensures MediaOk(t, q, tapped)
  {
  }

  lemma FillWindowOk(e: Endpoint, now: Time, q: seq<MediaChunk>, tapped: bool)
    requires MediaOk(e.snd, q, tapped)
    ensures MediaOk(FillWindow(e, now).e.snd, q, tapped)
  {
    if e.role == Initiator && e.state == Active { FillMediaOk(e.snd, e.streamId, now, q, tapped); }
  }

  lemma {:induction false} SweepAside(s: Sending, todo: set<int>, now: Time, rtoUs: int)
    requires todo <= s.inFlight.Keys
    ensures Aside(s, Sweep(s, todo, now, rtoUs).s)
    decreases |todo|
  {
    if todo != {} {
      var n := Least(todo);
      var slot := s.inFlight[n];
      if !TimedOut(slot.lastSent, now, rtoUs) {
        SweepAside(s, todo - {n}, now, rtoUs);
      } else if slot.retries + 1 <= MAX_RETRIES {
        if ShouldRetransmit(s, slot, now) {
          SweepAside(Resent(s, n, now, slot.retries + 1), todo - {n}, now, rtoUs);
        } else {
          SweepAside(Dropped(s, n), todo - {n}, now, rtoUs);
        }
      }
    }
  }

  lemma OpenTickOk(e: Endpoint, now: Time, q: seq<MediaChunk>, tapped: bool)
    requires MediaOk(e.snd, q, tapped)
    ensures MediaOk(OpenTick(e, now).e.snd, q, tapped)
  {
    var r := Sweep(e.snd, e.snd.inFlight.Keys, now, Rto.Current(e.snd.rto));
    SweepAside(e.snd, e.snd.inFlight.Keys, now, Rto.Current(e.snd.rto));
    AsideOk(e.snd, r.s, q, tapped);
    if !r.dead { FillWindowOk(e.(snd := r.s), now, q, tapped); }
  }

  lemma TickOk(e: Endpoint, now: Time, q: seq<MediaChunk>, tapped: bool)
    requires MediaOk(e.snd, q, tapped)
    ensures MediaOk(OnTick(e, now).e.snd, q, tapped)
  {
    var t := e.(snd := Refill(e.snd, now));
    AsideOk(e.snd, t.snd, q, tapped);
    if Open(t) { OpenTickOk(t, now, q, tapped); }
  }

  lemma OnAckOk(e: Endpoint, p: Packet, now: Time, q: seq<MediaChunk>, tapped: bool)
    requires MediaOk(e.snd, q, tapped)
    ensures MediaOk(OnAck(e, p, now).e.snd, q, tapped)
  {
    var a := e.(snd := Acked(e.snd, p.header.sequenceNumber, now));
    AsideOk(e.snd, a.snd, q, tapped);
    FillWindowOk(a, now, q, tapped);
  }

  lemma OnHandshakeOk(e: Endpoint, p: Packet, now: Time, q: seq<MediaChunk>, tapped: bool)
    requires MediaOk(e.snd, q, tapped) && e.role == Initiator
    ensures MediaOk(OnHandshake(e, p, now).e.snd, q, tapped)
  {
    if IsSynAck(p.header.flags) && e.state == Handshaking {
      FillWindowOk(e.(streamId := p.header.streamId, state := Active), now, q, tapped);
    }
  }

  lemma OnPacketOk(e: Endpoint, p: Packet, now: Time, q: seq<MediaChunk>, tapped: bool)
    requires MediaOk(e.snd, q, tapped) && e.role == Initiator && !IsData(p)
    ensures MediaOk(OnPacket(e, p, now).e.snd, q, tapped)
  {
    match p.header.packetType {
      case Handshake => OnHandshakeOk(e, p, now, q, tapped);
      case Ack => if Open(e) { OnAckOk(e, p, now, q, tapped); }
      case Nack => AsideOk(e.snd, Nudged(e.snd, p.header.sequenceNumber, now).s, q, tapped);
      case _ =>
    }
  }

  // ---------------------------------------------------------------- what the listener writes

  /** The payloads of the packets, one after the other. */
  function Written(d: seq<Packet>): seq<byte> { Flatten(Payloads(ChunksOf(d))) }

  /** The sink holds the payloads of the packets delivered. */
  ghost predicate SinkOk(r: Receiving, hasSink: bool) {
    r.hasSink == hasSink && (hasSink ==> r.sink == Written(r.delivered))
  }

  lemma WrittenSnoc(d: seq<Packet>, p: Packet)
    ensures Written(d + [p]) == Written(d) + p.payload
  {
    ChunksOfSnoc(d, p);
    FlattenSnoc(ChunksOf(d) + [ChunkOf(p)]);
    assert (ChunksOf(d) + [ChunkOf(p)])[..|d|] == ChunksOf(d);
  }

  lemma {:induction false} AcceptAllSink(r: Receiving, streamId: uint32, now: Time, hasSink: bool)
    requires SinkOk(r, hasSink)
    ensures SinkOk(AcceptAll(r, streamId, now).r, hasSink)
    decreases |r.reorder|
  {
    if r.nextExpected as int in r.reorder {
      var a := Accept(r, now);
      assert r.reorder.Keys == a.reorder.Keys + {r.nextExpected as int};
      WrittenSnoc(r.delivered, r.reorder[r.nextExpected as int]);
      AcceptAllSink(a, streamId, now, hasSink);
    }
  }

  lemma ReceiveSink(r: Receiving, streamId: uint32, p: Packet, now: Time, hasSink: bool)
    requires SinkOk(r, hasSink)
    ensures SinkOk(Receive(r, streamId, p, now).r, hasSink)
  {
    AcceptAllSink(Stored(r, p), streamId, now, hasSink);
  }

  lemma OnHandshakeSink(e: Endpoint, p: Packet, now: Time, hasSink: bool)
    requires SinkOk(e.rcv, hasSink) && e.role == Listener
    ensures SinkOk(OnHandshake(e, p, now).e.rcv, hasSink)
  {
  }

  lemma OnPacketSink(e: Endpoint, p: Packet, now: Time, hasSink: bool)
    requires SinkOk(e.rcv, hasSink) && e.role == Listener
    ensures SinkOk(OnPacket(e, p, now).e.rcv, hasSink)
  {
    match p.header.packetType {
      case Handshake => OnHandshakeSink(e, p, now, hasSink);
      case Data =>
        var w := if e.state == Handshaking then e.(state := Active) else e;
        ReceiveSink(e.rcv, w.streamId, p, now, hasSink);
      case _ =>
    }
  }

  lemma TickSink(e: Endpoint, now: Time, hasSink: bool)
    requires SinkOk(e.rcv, hasSink)
    ensures SinkOk(OnTick(e, now).e.rcv, hasSink)
  {
    TickReceives(e, now);
  }

  // ---------------------------------------------------------------- every run

  ghost predicate MediaInv(w: World, q: seq<MediaChunk>, tapped: bool, hasSink: bool) {
    Inv(w) && MediaOk(w.init.snd, q, tapped) && SinkOk(w.lstn.rcv, hasSink)
  }

  lemma DeliverIMedia(w: World, i: nat, now: Time, q: seq<MediaChunk>, tapped: bool)
    requires Inv(w) && MediaOk(w.init.snd, q, tapped) && Enabled(w, DeliverI(i, now))
    ensures MediaOk(OnDatagram(w.init, w.toI[i], now).e.snd, q, tapped)
  {
    var d := w.toI[i];
    assert Honest(d, w.lstn.rcv.nextExpected);
    if Decode(d).Some? { OnPacketOk(w.init, Decode(d).value, now, q, tapped); }
  }

  lemma DeliverLSink(w: World, i: nat, now: Time, hasSink: bool)
    requires Inv(w) && SinkOk(w.lstn.rcv, hasSink) && Enabled(w, DeliverL(i, now))
    ensures SinkOk(OnDatagram(w.lstn, w.toL[i], now).e.rcv, hasSink)
  {
    var d := w.toL[i];
    if Decode(d).Some? { OnPacketSink(w.lstn, Decode(d).value, now, hasSink); }
  }

  lemma StepSends(w: World, s: Step, q: seq<MediaChunk>, tapped: bool)
    requires Inv(w) && MediaOk(w.init.snd, q, tapped) && Enabled(w, s)
    ensures MediaOk(Next(w, s).init.snd, q, tapped)
  {
    match s {
      case DeliverI(i, now) => DeliverIMedia(w, i, now, q, tapped);
      case TickI(now) => TickOk(w.init, now, q, tapped);
      case _ =>
    }
  }

  lemma StepWrites(w: World, s: Step, hasSink: bool)
    requires Inv(w) && SinkOk(w.lstn.rcv, hasSink) && Enabled(w, s)
    ensures SinkOk(Next(w, s).lstn.rcv, hasSink)
  {
    match s {
      case DeliverL(i, now) => DeliverLSink(w, i, now, hasSink);
      case TickL(now) => TickSink(w.lstn, now, hasSink);
      case _ =>
    }
  }

  lemma StepMedia(w: World, s: Step, q: seq<MediaChunk>, tapped: bool, hasSink: bool)
    requires MediaInv(w, q, tapped, hasSink) && Enabled(w, s) && SameEpoch(w, s)
    ensures MediaInv(Next(w, s), q, tapped, hasSink)
  {
    StepKeeps(w, s);
    StepSends(w, s, q, tapped);
    StepWrites(w, s, hasSink);
  }

  lemma {:induction false} RunMedia(w: World, run: seq<Step>, q: seq<MediaChunk>, tapped: bool, hasSink: bool)
    requires MediaInv(w, q, tapped, hasSink) && Legal(w, run)
    ensures MediaInv(After(w, run), q, tapped, hasSink)
    decreases |run|
  {
    if run != [] {
      StepMedia(w, run[0], q, tapped, hasSink);
      RunMedia(Next(w, run[0]), run[1..], q, tapped, hasSink);
    }
  }

  /** A sender about to stream a file, before anything was sent. */
  function MediaStart(video: seq<byte>, fps: uint32, tapped: bool, hasSink: bool): World {
    Beginning(WithMedia(FreshEndpoint(Initiator), Loaded(video, fps), tapped), hasSink)
  }

  /** The chunk queue of the file. */
  function FileQueue(video: seq<byte>, fps: uint32): seq<MediaChunk> { Loaded(video, fps).pending }

  lemma MediaStartOk(video: seq<byte>, fps: uint32, tapped: bool, hasSink: bool)
    requires |FileQueue(video, fps)| < TWO_32
    ensures MediaInv(MediaStart(video, fps, tapped, hasSink), FileQueue(video, fps), tapped, hasSink)
  {
    var q := FileQueue(video, fps);
    QueueFilled(Units(video), 0, Duration(fps));
    MediaUnstarted(Loaded(video, fps), tapped);
    BeginningInv(WithMedia(FreshEndpoint(Initiator), Loaded(video, fps), tapped), hasSink);
    assert ChunksOf([]) == [];
  }

  /** The world after a run that streams a file. */
  ghost function Streamed(video: seq<byte>, fps: uint32, tapped: bool, hasSink: bool, run: seq<Step>): World
    requires Legal(MediaStart(video, fps, tapped, hasSink), run)
  {
    After(MediaStart(video, fps, tapped, hasSink), run)
  }

  lemma StreamedOk(video: seq<byte>, fps: uint32, tapped: bool, hasSink: bool, run: seq<Step>)
    requires |FileQueue(video, fps)| < TWO_32 && Legal(MediaStart(video, fps, tapped, hasSink), run)
    ensures MediaInv(Streamed(video, fps, tapped, hasSink, run), FileQueue(video, fps), tapped, hasSink)
  {
    MediaStartOk(video, fps, tapped, hasSink);
    RunMedia(MediaStart(video, fps, tapped, hasSink), run, FileQueue(video, fps), tapped, hasSink);
  }

  /** Delivered packets carry the same chunks as those sent. */
  lemma SameChunks(d: seq<Packet>, sent: seq<Packet>)
    requires Delivered(d, sent) && |d| <= |sent|
    ensures ChunksOf(d) == ChunksOf(sent[..|d|])
  {
    forall k | 0 <= k < |d| ensures ChunkOf(d[k]) == ChunkOf(sent[k]) {
      assert Carries(d[k], sent, k);
    }
  }

  lemma {:induction false} WrittenPrefix(sent: seq<Packet>, n: nat)
    requires n <= |sent|
    ensures Written(sent[..n]) <= Written(sent)
    decreases |sent| - n
  {
    if n < |sent| {
      assert sent[..n + 1] == sent[..n] + [sent[n]];
      WrittenSnoc(sent[..n], sent[n]);
      WrittenPrefix(sent, n + 1);
    } else {
      assert sent[..n] == sent;
    }
  }

  lemma PrefixOfSent(w: World, q: seq<MediaChunk>, tapped: bool)
    requires MediaInv(w, q, tapped, true)
    ensures w.lstn.rcv.sink <= Written(w.init.snd.sent)
  {
    DeliveredBound(w.lstn.rcv.delivered, w.init.snd.sent);
    SameChunks(w.lstn.rcv.delivered, w.init.snd.sent);
    WrittenPrefix(w.init.snd.sent, |w.lstn.rcv.delivered|);
  }

  /** At every moment the sink is a prefix of what the sender sent, and that is the file's
      chunks in order with some possibly left out. */
  lemma SinkIsPrefix(video: seq<byte>, fps: uint32, tapped: bool, run: seq<Step>)
    requires |FileQueue(video, fps)| < TWO_32 && Legal(MediaStart(video, fps, tapped, true), run)
    ensures var w := Streamed(video, fps, tapped, true, run);
      w.lstn.rcv.sink <= Written(w.init.snd.sent) && Sourced(w.init.snd, FileQueue(video, fps))
  {
    StreamedOk(video, fps, tapped, true, run);
    PrefixOfSent(Streamed(video, fps, tapped, true, run), FileQueue(video, fps), tapped);
  }

  /** Complete without deadline drops, the sink holds all that was sent. */
  lemma SinkIsSent(w: World, q: seq<MediaChunk>, tapped: bool)
    requires MediaInv(w, q, tapped, true) && IsComplete(w.init) && w.init.snd.deadlineDrops == 0
    ensures w.lstn.rcv.sink == Flatten(Payloads(ChunksOf(w.init.snd.sent)))
    ensures Subsequence(ChunksOf(w.init.snd.sent), q)
  {
    DrainedIsDelivered(w);
    SameChunks(w.lstn.rcv.delivered, w.init.snd.sent);
    assert w.init.snd.sent[..|w.init.snd.sent|] == w.init.snd.sent;
    assert q[..|q|] == q;
  }

  /** A transfer that completed without deadline drops wrote the input, every start code
      normalised, exactly when it sent as many packets as the file has chunks. */
  lemma AllSentIsFile(video: seq<byte>, fps: uint32, tapped: bool, run: seq<Step>)
    requires |FileQueue(video, fps)| < TWO_32 && Legal(MediaStart(video, fps, tapped, true), run)
    requires var w := Streamed(video, fps, tapped, true, run);
      IsComplete(w.init) && w.init.snd.deadlineDrops == 0
    ensures var w := Streamed(video, fps, tapped, true, run);
      w.lstn.rcv.sink == Print(Units(video)) <==> |w.init.snd.sent| == |FileQueue(video, fps)|
  {
    var q := FileQueue(video, fps);
    var w := Streamed(video, fps, tapped, true, run);
    StreamedOk(video, fps, tapped, true, run);
    SinkIsSent(w, q, tapped);
    QueueIsPrint(Units(video), 0, Duration(fps));
    QueueFilled(Units(video), 0, Duration(fps));
    SubsequenceWhole(ChunksOf(w.init.snd.sent), q);
    SubsequenceShorter(ChunksOf(w.init.snd.sent), q);
  }

  // ---------------------------------------------------------------- captured frames

  /** In every run, the frames captured and the one pending are together exactly the payloads
      of the first transmissions. */
  lemma CaptureIsSent(video: seq<byte>, fps: uint32, hasSink: bool, run: seq<Step>)
    requires |FileQueue(video, fps)| < TWO_32 && Legal(MediaStart(video, fps, true, hasSink), run)
    ensures var w := Streamed(video, fps, true, hasSink, run);
      Bytes(w.init.snd.capture) == Written(w.init.snd.sent)
  {
    StreamedOk(video, fps, true, hasSink, run);
    CapturedBytes(Streamed(video, fps, true, hasSink, run).init.snd, FileQueue(video, fps));
  }

  lemma CapturedBytes(s: Sending, q: seq<MediaChunk>)
    requires MediaOk(s, q, true)
    ensures Bytes(s.capture) == Written(s.sent)
  {
    TakeAllKeepsBytes(IDLE, ChunksOf(s.sent));
    FlushKeepsBytes(CaptureOf(s.sent, true));
    assert Bytes(IDLE) == [];
    assert [] + Written(s.sent) == Written(s.sent);
  }

  /** The source has handed out its last chunk. */
  predicate AtEof(s: Sending) { s.source.Some? && s.source.value.eof }

  lemma {:induction false} WholeQueueCaptured(s: Sending, q: seq<MediaChunk>, tapped: bool)
    requires MediaOk(s, q, tapped) && AtEof(s) && |s.sent| == |q|
    ensures s.capture == Flush(TakeAll(IDLE.(tapped := tapped), q))
  {
    SubsequenceWhole(ChunksOf(s.sent), q[..s.source.value.cursor]);
    assert q[..|q|] == q;
  }

  lemma UnitsPrintable(video: seq<byte>)
    ensures Printable(Units(video))
  {
    ScanTiles(video, 0);
    ScanPrintable(video, NextCode(video, 0), ScanFrom(video, 0));
  }

  /** At end of file, with no chunk left out, there is one frame for each unit of the file,
      exactly when the last unit is not torn by the cutting. */
  lemma FramesAtEof(video: seq<byte>, fps: uint32, hasSink: bool, run: seq<Step>)
    requires |FileQueue(video, fps)| < TWO_32 && Legal(MediaStart(video, fps, true, hasSink), run)
    requires var s := Streamed(video, fps, true, hasSink, run).init.snd;
      AtEof(s) && s.dataSent == |FileQueue(video, fps)|
    ensures var us := Units(video);
      (Streamed(video, fps, true, hasSink, run).init.snd.capture.frames == UnitFrames(us, 0, Duration(fps))) <==>
      (us == [] || !Torn(us[|us| - 1]))
  {
    StreamedOk(video, fps, true, hasSink, run);
    WholeQueueCaptured(Streamed(video, fps, true, hasSink, run).init.snd, FileQueue(video, fps), true);
    UnitsPrintable(video);
    FramesIff(Units(video), 0, Duration(fps));
  }
}
