/** Concrete inputs for what the code does not promise: a file that loses a chunk, and a file
    captured with a frame too many. */
module Counterexamples {
  import opened Wire
  import opened Clock
  import opened AnnexB
  import opened FrameCapture
  import opened Source
  import opened PacketCodec
  import opened SessionSpec
  import opened Sender
  import opened Network
  import opened Reliability
  import opened Termination
  import opened Completion
  import opened MediaTransfer
  import opened Pacing
  import opened Starvation
  import opened Opening
  import opened Lockstep
  import opened EndOfNumbers
  import opened LostFin
  import opened Holes
  import LossyStart
  import R = RateControl

  // ---------------------------------------------------------------- a file that loses a chunk

  function Filler(n: nat): seq<byte> { seq(n, _ => 0xFF) }

  /** A sequence parameter set (type 7) of `n` + 1 bytes. */
  function ParameterSet(n: nat): seq<byte> { [0x67] + Filler(n) }

  /** The file that consists of that unit. */
  function LongFile(n: nat): seq<byte> { Print([ParameterSet(n)]) }

  lemma LongFileUnits(n: nat)
    ensures Units(LongFile(n)) == [ParameterSet(n)]
  {
    RoundTripIff([ParameterSet(n)]);
  }

  lemma {:induction false} FullPieces(s: seq<byte>, k: nat)
    requires |s| >= MAX_PAYLOAD * k
    ensures |Chunks(s)| >= k && forall j :: 0 <= j < k ==> |Chunks(s)[j]| == MAX_PAYLOAD
    decreases k
  {
    if k > 0 {
      FullPieces(s[MAX_PAYLOAD..], k - 1);
      if |s| == MAX_PAYLOAD { assert s[..MAX_PAYLOAD] == s; }
    }
  }

  lemma OneUnitQueue(u: seq<byte>, duration: nat)
    ensures Queue([u], 0, duration) == UnitChunks(u, 0, duration)
  {
    assert [u][1..] == [];
    assert UnitChunks(u, 0, duration) + [] == UnitChunks(u, 0, duration);
  }

  /** The file begins with six full chunks of time 0. */
  lemma LongFileChunks(n: nat, fps: uint32, tapped: bool)
    requires n + 5 >= MAX_PAYLOAD * 6
    ensures FullChunks(WithMedia(FreshEndpoint(Initiator), Loaded(LongFile(n), fps), tapped).snd, 6)
  {
    var u := ParameterSet(n);
    var pieces := Chunks(START_CODE + u);
    LongFileUnits(n);
    OneUnitQueue(u, Duration(fps));
    FullPieces(START_CODE + u, 6);
    forall j | 0 <= j < 6
      ensures Loaded(LongFile(n), fps).pending[j] == MediaChunk(pieces[j], Control, 0) && |pieces[j]| == MAX_PAYLOAD
    {
      WrapIs(pieces, Control, 0, j);
    }
  }

  /** An initiator about to stream the file, once it said SYN. */
  function Streaming(video: seq<byte>, fps: uint32, tapped: bool, now: Time): Endpoint {
    WithMedia(FreshEndpoint(Initiator), Loaded(video, fps), tapped).(lastHandshake := now)
  }

  lemma StreamOpens(video: seq<byte>, fps: uint32, tapped: bool, hasSink: bool, now: Time)
    ensures Legal(MediaStart(video, fps, tapped, hasSink), OpeningRun(now))
    ensures Streamed(video, fps, tapped, hasSink, OpeningRun(now)).init ==
      OnSynAck(Streaming(video, fps, tapped, now), LISTENER_STREAM, now).e
  {
    Opens(WithMedia(FreshEndpoint(Initiator), Loaded(video, fps), tapped), hasSink, now);
  }

  /** A file with one parameter set of 7196 bytes or more loses its sixth chunk in the run that
      only opens the exchange. */
  lemma LongFileLosesChunk(n: nat, fps: uint32, tapped: bool, hasSink: bool, now: Time)
    requires n + 5 >= MAX_PAYLOAD * 6
    ensures Legal(MediaStart(LongFile(n), fps, tapped, hasSink), OpeningRun(now))
    ensures var s := Streamed(LongFile(n), fps, tapped, hasSink, OpeningRun(now)).init.snd;
      |s.sent| == 5 && s.source.Some? && s.source.value.cursor == 6
  {
    StreamOpens(LongFile(n), fps, tapped, hasSink, now);
    LongFileChunks(n, fps, tapped);
    FirstBurstLosesChunk(Streaming(LongFile(n), fps, tapped, now), Loaded(LongFile(n), fps), tapped, LISTENER_STREAM, now);
  }

  // ---------------------------------------------------------------- a torn file

  /** A unit of `n` filler bytes that ends in 00 00 01. */
  function TailUnit(n: nat): seq<byte> { Filler(n) + [0, 0, 1] }

  lemma TailUnitTorn(n: nat)
    requires n % MAX_PAYLOAD == MAX_PAYLOAD - 4
    ensures Torn(TailUnit(n)) && SealedLast(TailUnit(n))
  {
    var u := TailUnit(n);
    assert u[n] == 0 && u[n + 1] == 0 && u[n + 2] == 1;
    assert forall j :: 0 <= j < n ==> u[j] == 0xFF;
  }

  /** The file that consists of that unit. */
  function TornFile(n: nat): seq<byte> { Print([TailUnit(n)]) }

  lemma {:induction false} FewPieces(s: seq<byte>, k: nat)
    requires |s| <= MAX_PAYLOAD * k
    ensures |Chunks(s)| <= k
    decreases k
  {
    if |s| > MAX_PAYLOAD { FewPieces(s[MAX_PAYLOAD..], k - 1); }
  }

  /** Its queue is short, and of time 0. */
  lemma TornFileChunks(n: nat, fps: uint32)
    requires n % MAX_PAYLOAD == MAX_PAYLOAD - 4 && n < MAX_PAYLOAD * 4
    ensures Units(TornFile(n)) == [TailUnit(n)] && |FileQueue(TornFile(n), fps)| <= 5
    ensures Cut(FileQueue(TornFile(n), fps)) && forall k :: 0 <= k < |FileQueue(TornFile(n), fps)| ==>
      FileQueue(TornFile(n), fps)[k].ptsUs == 0
  {
    var u := TailUnit(n);
    TailUnitTorn(n);
    RoundTripIff([u]);
    OneUnitQueue(u, Duration(fps));
    FewPieces(START_CODE + u, 5);
    QueueFilled([u], 0, Duration(fps));
    forall k | 0 <= k < |FileQueue(TornFile(n), fps)| ensures FileQueue(TornFile(n), fps)[k].ptsUs == 0 {
      WrapIs(Chunks(START_CODE + u), UnitType(u), UnitPts(u, 0, Duration(fps)), k);
    }
  }

  /** What fits window, timeline and bucket is taken to the end of the file and sent. */
  lemma {:induction false} TakesAll(s: Sending, streamId: uint32, now: Time)
    requires Orderly(s) && Cut(s.source.value.pending)
    requires forall k :: 0 <= k < |s.source.value.pending| ==> s.source.value.pending[k].ptsUs == 0
    requires var left := |s.source.value.pending| - s.source.value.cursor;
      left <= FreeSlots(s) && (HEADER_SIZE + MAX_PAYLOAD) * left <= R.Available(s.rate)
    ensures var t := FillMedia(s, streamId, now).s; AtEof(t) && Skipped(t) == Skipped(s)
    decreases |s.source.value.pending| - s.source.value.cursor
  {
    if MayTake(s, now) {
      var a, c := Advance(s), NextChunk(s);
      OrderlySent(s, streamId, now);
      PaidInFull(a, c);
      TakesAll(SendChunk(a, streamId, c, now), streamId, now);
    }
  }

  lemma TornFileSent(n: nat, fps: uint32, now: Time)
    requires n % MAX_PAYLOAD == MAX_PAYLOAD - 4 && n < MAX_PAYLOAD * 4
    ensures var s := OnSynAck(Streaming(TornFile(n), fps, true, now), LISTENER_STREAM, now).e.snd;
      AtEof(s) && Skipped(s) == 0
  {
    var e := Streaming(TornFile(n), fps, true, now);
    var t := Refill(e.snd, now);
    TornFileChunks(n, fps);
    TakesAll(t, LISTENER_STREAM, now);
    FlushSkips(FillMedia(t, LISTENER_STREAM, now).s);
  }

  /** A file of one unit whose last chunk is just 00 00 01 is, at its end and with every chunk
      sent, not captured as its units. */
  lemma TornFileFrames(n: nat, fps: uint32, hasSink: bool, now: Time)
    requires n % MAX_PAYLOAD == MAX_PAYLOAD - 4 && n < MAX_PAYLOAD * 4
    ensures Legal(MediaStart(TornFile(n), fps, true, hasSink), OpeningRun(now))
    ensures var s := Streamed(TornFile(n), fps, true, hasSink, OpeningRun(now)).init.snd;
      AtEof(s) && |s.sent| == |FileQueue(TornFile(n), fps)| && |Units(TornFile(n))| == 1 && |s.capture.frames| == 2
  {
    StreamOpens(TornFile(n), fps, true, hasSink, now);
    TailUnitTorn(n);
    TornFileChunks(n, fps);
    TornFileSent(n, fps, now);
    StreamedOk(TornFile(n), fps, true, hasSink, OpeningRun(now));
    var s := Streamed(TornFile(n), fps, true, hasSink, OpeningRun(now)).init.snd;
    WholeQueueCaptured(s, FileQueue(TornFile(n), fps), true);
    TornCount(IDLE, [TailUnit(n)], 0, Duration(fps));
  }

  // ---------------------------------------------------------------- a hole

  /** The first chunk of a file has time 0, whatever its unit is. */
  lemma FirstChunkTime(us: seq<seq<byte>>, duration: nat)
    requires us != []
    ensures Queue(us, 0, duration) != [] && Queue(us, 0, duration)[0].ptsUs == 0
  {
    var pieces := Chunks(START_CODE + us[0]);
    assert pieces != [];
    WrapIs(pieces, UnitType(us[0]), UnitPts(us[0], 0, duration), 0);
  }

  /** What a filling of the window keeps: what is sent, and that the stream has started. */
  lemma {:induction false} FillMediaOnward(s: Sending, streamId: uint32, now: Time)
    requires s.source.Some?
    ensures var t := FillMedia(s, streamId, now).s;
      s.sent <= t.sent && t.mediaMode == s.mediaMode && (s.streamStartSet ==> t.streamStartSet)
    decreases |s.source.value.pending| - s.source.value.cursor
  {
    if MayTake(s, now) && !Starved(Advance(s), NextChunk(s)) {
      FillMediaOnward(SendChunk(Advance(s), streamId, NextChunk(s), now), streamId, now);
    }
  }

  lemma FirstChunkStarts(s: Sending, streamId: uint32, now: Time)
    requires MayTake(s, now) && !Starved(Advance(s), NextChunk(s)) && s.sent == [] && s.mediaMode
    ensures var t := FillMedia(s, streamId, now).s;
      |t.sent| > 0 && t.sent[0].header.timestampUs == NextChunk(s).ptsUs && t.streamStartSet && t.mediaMode
  {
    FillMediaOnward(SendChunk(Advance(s), streamId, NextChunk(s), now), streamId, now);
  }

  /** The SYN|ACK makes the initiator send the first packet, past its deadline already. */
  lemma FirstIsLate(e: Endpoint, video: seq<byte>, fps: uint32, tapped: bool, now: Time)
    requires e == Streaming(video, fps, tapped, now) && FileQueue(video, fps) != []
    ensures Hopeless(OnSynAck(e, LISTENER_STREAM, now).e.snd, 0, now)
  {
    var s := Refill(e.snd, now);
    FirstChunkTime(Units(video), Duration(fps));
    QueueFilled(Units(video), 0, Duration(fps));
    FirstChunkStarts(s, LISTENER_STREAM, now);
  }

  /** In the world after the handshake, with everything under way lost, number 0 is lost. */
  lemma FirstIsLost(w: World)
    requires Inv(w) && Hopeless(w.init.snd, 0, w.clock) && w.lstn.rcv.nextExpected == 0 && w.lstn.rcv.reorder == map[]
    requires w.toL == []
    ensures Holes.Lost(w, 0)
  {
  }

  /** Of every file the network can lose the first packet for good: a run after which nothing is
      ever delivered. */
  lemma AnyFileCanBeLost(video: seq<byte>, fps: uint32, tapped: bool, hasSink: bool, now: Time) returns (run: seq<Step>)
    requires 0 < |FileQueue(video, fps)| < TWO_32
    ensures Legal(MediaStart(video, fps, tapped, hasSink), run)
    ensures Holes.Lost(Streamed(video, fps, tapped, hasSink, run), 0)
  {
    var w := MediaStart(video, fps, tapped, hasSink);
    var e := WithMedia(FreshEndpoint(Initiator), Loaded(video, fps), tapped);
    var o := Opened(e, hasSink, now);
    var u := o.(toL := [], toI := []);
    OpeningLeads(e, hasSink, now);
    var drops := LossyStart.DropAll(o);
    LeadsOn(w, OpeningRun(now), o, drops, u);
    run := OpeningRun(now) + drops;
    LeadsTo(w, run, u);
    StreamedOk(video, fps, tapped, hasSink, run);
    FirstIsLate(Streaming(video, fps, tapped, now), video, fps, tapped, now);
    FirstIsLost(u);
  }

  // ---------------------------------------------------------------- a lost FIN

  lemma LastDrained(s: Sending, k: int, now: Time)
    requires SenderOk(s) && !s.mediaMode && k in s.inFlight && k + 1 == PlanSize(s)
    requires forall n :: n in s.inFlight ==> n >= k
    ensures Drained(Acked(s, k, now))
  {
    forall n ensures n !in Acked(s, k, now).inFlight.Keys {
      assert n in s.inFlight ==> n < |s.sent|;
    }
    NoElements(Acked(s, k, now).inFlight.Keys);
  }

  /** The last packet and its answer: FIN is all there is in the network. */
  lemma LastExchange(w: World, k: int) returns (u: World)
    requires Dummies(w, k) && k + 1 == PlanSize(w.init.snd) && k + SEND_WINDOW < TWO_32
    ensures Leads(w, OneExchange(w, w.clock), u) && Inv(u) && Ended(u.init) && |u.toL| == 1 && u.toI == []
  {
    var q, sent := Normalise(AckPacket(w.lstn.streamId, k)), w.init.snd.sent;
    NextInFlight(w, k);
    LastDrained(w.init.snd, k, w.clock);
    LastAnswer(w.init, q, k, w.clock);
    var l, r := Exchange(w, k, w.clock);
    u := Exchanged(w, k, l, r, w.clock);
    WiresOne(HandshakePacket(w.init.streamId, FLAG_FIN));
    assert sent[k + 1..] == [];
  }

  lemma NoneUnderWay(w: World)
    requires Inv(w) && Ended(w.init) && w.toL == [] && w.toI == []
    ensures Waits(w)
  {
  }

  /** No run closes the initiator. */
  ghost predicate NeverCloses(w: World) { forall run :: Legal(w, run) ==> After(w, run).init.state == Closing }

  lemma WaitsForEver(w: World)
    requires Waits(w)
    ensures NeverCloses(w)
  {
    forall run | Legal(w, run) ensures After(w, run).init.state == Closing {
      ClosingForEver(w, run);
    }
  }

  /** All is delivered up to the FIN. */
  lemma OnlyFinIsLeft(count: uint32, size: uint16, hasSink: bool, now: Time) returns (u: World, run: seq<Step>)
    requires 0 < count && count + SEND_WINDOW <= TWO_32
    ensures AllDeliver(run) && Leads(Started(count, size, hasSink, now), run, u)
    ensures Inv(u) && Ended(u.init) && |u.toL| == 1 && u.toI == []
  {
    var v, first := Reaches(count, size, hasSink, now, count - 1);
    u := LastExchange(v, count - 1);
    ExchangeDelivers(v, v.clock);
    run := Follow(Started(count, size, hasSink, now), first, v, OneExchange(v, v.clock), u);
  }

  /** Every transfer can lose its FIN, and nothing else: the deliveries up to it, and the one loss
      after which no run closes the initiator. */
  lemma FinCanBeLost(count: uint32, size: uint16, hasSink: bool, now: Time) returns (run: seq<Step>)
    requires 0 < count && count + SEND_WINDOW <= TWO_32
    ensures AllDeliver(run) && Legal(Started(count, size, hasSink, now), run + [DropL(0)])
    ensures NeverCloses(After(Started(count, size, hasSink, now), run + [DropL(0)]))
  {
    var u;
    u, run := OnlyFinIsLeft(count, size, hasSink, now);
    DroppedLeads(Started(count, size, hasSink, now), run, u);
    WaitsForEver(u.(toL := []));
  }

  lemma DroppedLeads(w: World, run: seq<Step>, u: World)
    requires Leads(w, run, u) && Inv(u) && Ended(u.init) && |u.toL| == 1 && u.toI == []
    ensures Legal(w, run + [DropL(0)]) && After(w, run + [DropL(0)]) == u.(toL := []) && Waits(u.(toL := []))
  {
    assert Without(u.toL, 0) == [];
    LeadsStep(u, DropL(0));
    LeadsOn(w, run, u, [DropL(0)], u.(toL := []));
    LeadsTo(w, run + [DropL(0)], u.(toL := []));
    ChannelLKeeps(u, DropL(0));
    NoneUnderWay(u.(toL := []));
  }

  // ---------------------------------------------------------------- a SYN that comes twice

  /** A run that need not stay within one epoch. */
  ghost predicate Possible(w: World, run: seq<Step>)
    decreases |run|
  {
    run == [] || (Enabled(w, run[0]) && Possible(Next(w, run[0]), run[1..]))
  }

  ghost function Final(w: World, run: seq<Step>): World
    requires Possible(w, run)
    decreases |run|
  {
    if run == [] then w else Final(Next(w, run[0]), run[1..])
  }

  lemma PossibleStep(w: World, s: Step, rest: seq<Step>)
    requires Enabled(w, s) && Possible(Next(w, s), rest)
    ensures Possible(w, [s] + rest) && Final(w, [s] + rest) == Final(Next(w, s), rest)
  {
    assert ([s] + rest)[1..] == rest;
  }

  lemma DeliveredL(w: World, i: nat, p: Packet, now: Time)
    requires i < |w.toL| && Fits(p) && w.toL[i] == Encode(p) && w.clock <= now
    ensures var r := OnPacket(w.lstn, Normalise(p), now);
      Next(w, DeliverL(i, now)) == FromL(w.(toL := Without(w.toL, i)), r, now)
  {
    OverTheWire(w.lstn, p, now);
    DeliverLIs(w, i, now, OnDatagram(w.lstn, w.toL[i], now));
  }

  /** A listener that waits for number 0. */
  predicate Waiting(e: Endpoint) {
    e.role == Listener && e.state == Handshaking && e.rcv.nextExpected == 0 && e.rcv.reorder == map[]
  }

  predicate Greets(syn: Packet) {
    Fits(syn) && syn.header.packetType == Handshake && syn.header.flags == FLAG_SYN
  }

  predicate First(p: Packet) { IsData(p) && p.header.sequenceNumber == 0 && Fits(p) }

  /** One packet was sent, and it was delivered twice. */
  predicate SentOnceDeliveredTwice(w: World) {
    var d := w.lstn.rcv.delivered;
    |w.init.snd.sent| == 1 && |d| == 2 && d[0] == d[1]
  }

  /** The copy of packet 0 arrives. */
  lemma CopyArrives(w: World, p: Packet, now: Time)
    requires Waiting(w.lstn) && First(p) && |w.toL| > 1 && w.toL[1] == Encode(p) && w.clock <= now
    ensures var run := [DeliverL(1, now)];
      Possible(w, run) && Final(w, run).init == w.init &&
      Final(w, run).lstn.rcv.delivered == w.lstn.rcv.delivered + [Normalise(p)]
  {
    DeliveredL(w, 1, p, now);
    RedeliversZero(w.lstn, Normalise(p), now);
    PossibleStep(w, DeliverL(1, now), []);
    assert [DeliverL(1, now)] + [] == [DeliverL(1, now)];
  }

  /** The second SYN arrives, and then the copy of packet 0. */
  lemma SynThenCopy(w: World, syn: Packet, a: Datagram, p: Packet, now: Time)
    requires w.lstn.role == Listener && Greets(syn) && First(p) && w.clock <= now
    requires w.toL == [Encode(syn), a, Encode(p)]
    ensures var run := [DeliverL(0, now)] + [DeliverL(1, now)];
      Possible(w, run) && Final(w, run).init == w.init &&
      Final(w, run).lstn.rcv.delivered == w.lstn.rcv.delivered + [Normalise(p)]
  {
    DeliveredL(w, 0, syn, now);
    SynReply(w.lstn, Normalise(syn), now);
    assert Without(w.toL, 0) == [a, Encode(p)];
    CopyArrives(Next(w, DeliverL(0, now)), p, now);
    PossibleStep(w, DeliverL(0, now), [DeliverL(1, now)]);
  }

  function ReplayTail(now: Time): seq<Step> { [DeliverL(2, now)] + ([DeliverL(0, now)] + [DeliverL(1, now)]) }

  /** Packet 0 arrives, the second SYN, and the copy. */
  lemma TwiceDelivered(w: World, syn: Packet, a: Datagram, p: Packet, now: Time)
    requires Waiting(w.lstn) && Greets(syn) && First(p) && w.clock <= now
    requires w.toL == [Encode(syn), a, Encode(p), Encode(p)]
    ensures Possible(w, ReplayTail(now)) && Final(w, ReplayTail(now)).init == w.init
    ensures Final(w, ReplayTail(now)).lstn.rcv.delivered == w.lstn.rcv.delivered + [Normalise(p), Normalise(p)]
  {
    var v := Next(w, DeliverL(2, now));
    ZeroArrives(w, p, now);
    assert v.toL == [Encode(syn), a, Encode(p)];
    SynThenCopy(v, syn, a, p, now);
    PossibleStep(w, DeliverL(2, now), [DeliverL(0, now)] + [DeliverL(1, now)]);
  }

  lemma ZeroArrives(w: World, p: Packet, now: Time)
    requires Waiting(w.lstn) && First(p) && |w.toL| > 2 && w.toL[2] == Encode(p) && w.clock <= now
    ensures var v := Next(w, DeliverL(2, now));
      v.init == w.init && v.toL == Without(w.toL, 2) && v.clock == now && v.lstn.role == Listener &&
      v.lstn.rcv.delivered == w.lstn.rcv.delivered + [Normalise(p)]
  {
    DeliveredL(w, 2, p, now);
    RedeliversZero(w.lstn, Normalise(p), now);
    StaysListener(w.lstn, Normalise(p), now);
  }

  lemma StaysListener(e: Endpoint, p: Packet, now: Time)
    ensures OnPacket(e, p, now).e.role == e.role
  {
  }

  /** The first SYN|ACK arrives while a copy of the SYN is under way: the initiator sends ACK and
      packet 0, and the network copies the latter. */
  lemma SentAndCopied(w: World, syn: Packet, size: uint16, now: Time)
    requires w.init == WithDummy(FreshEndpoint(Initiator), 1, size).(lastHandshake := now)
    requires Waiting(w.lstn) && w.lstn.rcv.delivered == [] && Greets(syn) && w.clock <= now
    requires w.toL == [Encode(syn)] && w.toI == [Encode(SYN_ACK)]
    ensures var run := [DeliverI(0, now)] + ([DuplicateL(2)] + ReplayTail(now));
      Possible(w, run) && SentOnceDeliveredTwice(Final(w, run))
  {
    var p := DummyPacket(w.init.snd, LISTENER_STREAM, now);
    OneDummy(w.init, size, now);
    SynAckMeans(w.init, now);
    AnswerThenCopies(w, OnSynAck(w.init, LISTENER_STREAM, now), syn, HandshakePacket(LISTENER_STREAM, FLAG_ACK), p, now);
  }

  lemma AnswerThenCopies(w: World, r: Reply, syn: Packet, ack: Packet, p: Packet, now: Time)
    requires w.init.role == Initiator && w.init.state == Handshaking && r == OnPacket(w.init, Normalise(SYN_ACK), now)
    requires r.out == [ack, p] && |r.e.snd.sent| == 1 && Fits(ack) && First(p)
    requires Waiting(w.lstn) && w.lstn.rcv.delivered == [] && Greets(syn) && w.clock <= now
    requires w.toL == [Encode(syn)] && w.toI == [Encode(SYN_ACK)]
    ensures var run := [DeliverI(0, now)] + ([DuplicateL(2)] + ReplayTail(now));
      Possible(w, run) && SentOnceDeliveredTwice(Final(w, run))
  {
    SynAckDelivered(w, r, now);
    TwoWires(ack, p);
    assert [Encode(syn)] + [Encode(ack), Encode(p)] == [Encode(syn), Encode(ack), Encode(p)];
    CopiedThenTwice(World(r.e, w.lstn, [Encode(syn), Encode(ack), Encode(p)], [], now), syn, Encode(ack), p, now);
    PossibleStep(w, DeliverI(0, now), [DuplicateL(2)] + ReplayTail(now));
  }

  lemma CopiedThenTwice(w: World, syn: Packet, a: Datagram, p: Packet, now: Time)
    requires Waiting(w.lstn) && Greets(syn) && First(p) && w.clock <= now
    requires w.toL == [Encode(syn), a, Encode(p)]
    ensures Possible(w, [DuplicateL(2)] + ReplayTail(now))
    ensures Final(w, [DuplicateL(2)] + ReplayTail(now)).init == w.init
    ensures Final(w, [DuplicateL(2)] + ReplayTail(now)).lstn.rcv.delivered ==
      w.lstn.rcv.delivered + [Normalise(p), Normalise(p)]
  {
    var v := Next(w, DuplicateL(2));
    assert v.toL == [Encode(syn), a, Encode(p), Encode(p)];
    TwiceDelivered(v, syn, a, p, now);
    PossibleStep(w, DuplicateL(2), ReplayTail(now));
  }

  lemma TwoWires(p: Packet, q: Packet)
    requires Fits(p) && Fits(q)
    ensures Wires([p, q]) == [Encode(p), Encode(q)]
  {
    assert [p, q][1..] == [q];
    WiresOne(q);
  }

  lemma LastDummy(s: Sending, streamId: uint32, now: Time)
    requires s.remaining == 1 && |s.inFlight| < SEND_WINDOW
    ensures var r := FillDummy(s, streamId, now);
      r.out == [DummyPacket(s, streamId, now)] && |r.s.sent| == |s.sent| + 1
  {
    var t := SendDummy(s, streamId, now);
    assert FillDummy(t, streamId, now) == SendReply(t, []);
  }

  /** A sender of one dummy packet answers the SYN|ACK with ACK and that packet. */
  lemma OneDummy(e: Endpoint, size: uint16, now: Time)
    requires e == WithDummy(FreshEndpoint(Initiator), 1, size).(lastHandshake := now)
    ensures var p := DummyPacket(e.snd, LISTENER_STREAM, now);
      First(p) && OnSynAck(e, LISTENER_STREAM, now).out == [HandshakePacket(LISTENER_STREAM, FLAG_ACK), p] &&
      |OnSynAck(e, LISTENER_STREAM, now).e.snd.sent| == 1
  {
    LastDummy(Refill(e.snd, now), LISTENER_STREAM, now);
  }

  /** The run in which the network copies the SYN and packet 0. */
  function ReplayRun(now: Time): seq<Step> {
    [StartUp(now)] + ([DuplicateL(0)] + ([DeliverL(0, now)] + ([DeliverI(0, now)] + ([DuplicateL(2)] + ReplayTail(now)))))
  }

  /** There the one packet sent is delivered twice. */
  lemma SynReplayDeliversTwice(size: uint16, hasSink: bool, now: Time)
    ensures var w := Beginning(WithDummy(FreshEndpoint(Initiator), 1, size), hasSink);
      Possible(w, ReplayRun(now)) && SentOnceDeliveredTwice(Final(w, ReplayRun(now)))
  {
    var e := WithDummy(FreshEndpoint(Initiator), 1, size);
    var w := Beginning(e, hasSink);
    var rest := [DeliverI(0, now)] + ([DuplicateL(2)] + ReplayTail(now));
    StartedIs(e, hasSink, now);
    SynCopied(Next(w, StartUp(now)), HandshakePacket(e.streamId, FLAG_SYN), size, now);
    PossibleStep(w, StartUp(now), [DuplicateL(0)] + ([DeliverL(0, now)] + rest));
  }

  lemma SynCopied(w: World, syn: Packet, size: uint16, now: Time)
    requires w.init == WithDummy(FreshEndpoint(Initiator), 1, size).(lastHandshake := now)
    requires Waiting(w.lstn) && w.lstn.rcv.delivered == [] && Greets(syn) && w.clock <= now
    requires w.toL == [Encode(syn)] && w.toI == []
    ensures var run := [DuplicateL(0)] + ([DeliverL(0, now)] + ([DeliverI(0, now)] + ([DuplicateL(2)] + ReplayTail(now))));
      Possible(w, run) && SentOnceDeliveredTwice(Final(w, run))
  {
    var v := Next(w, DuplicateL(0));
    assert v.toL == [Encode(syn), Encode(syn)];
    FirstSynArrives(v, syn, size, now);
    PossibleStep(w, DuplicateL(0), [DeliverL(0, now)] + ([DeliverI(0, now)] + ([DuplicateL(2)] + ReplayTail(now))));
  }

  lemma FirstSynArrives(w: World, syn: Packet, size: uint16, now: Time)
    requires w.init == WithDummy(FreshEndpoint(Initiator), 1, size).(lastHandshake := now)
    requires Waiting(w.lstn) && w.lstn.rcv.delivered == [] && Greets(syn) && w.clock <= now
    requires w.toL == [Encode(syn), Encode(syn)] && w.toI == []
    ensures var run := [DeliverL(0, now)] + ([DeliverI(0, now)] + ([DuplicateL(2)] + ReplayTail(now)));
      Possible(w, run) && SentOnceDeliveredTwice(Final(w, run))
  {
    DeliveredL(w, 0, syn, now);
    SynReply(w.lstn, Normalise(syn), now);
    WiresOne(SYN_ACK);
    assert Without(w.toL, 0) == [Encode(syn)];
    assert [] + [Encode(SYN_ACK)] == [Encode(SYN_ACK)];
    SentAndCopied(Next(w, DeliverL(0, now)), syn, size, now);
    PossibleStep(w, DeliverL(0, now), [DeliverI(0, now)] + ([DuplicateL(2)] + ReplayTail(now)));
  }
}
