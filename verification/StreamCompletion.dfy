/** A stream that loses nothing: whatever the order of deliveries and ticks, once it has run dry
    everything sent is delivered. */
module StreamCompletion {
  import opened Wire
  import opened Clock
  import opened AnnexB
  import opened FrameCapture
  import opened Source
  import opened PacketCodec
  import opened SessionSpec
  import opened Sender
  import opened Receiver
  import opened Network
  import opened Reliability
  import opened Termination
  import opened Completion
  import opened Recovery
  import opened MediaTransfer
  import opened Pacing
  import opened Starvation
  import opened Deliverable
  import R = RateControl
  import Rto

  // ---------------------------------------------------------------- ticks of the exchange

  /** A tick of the initiator, seen from a number in flight afterwards. */
  lemma TickChases(w: World, r: Reply, now: Time, n: int)
    requires Lossless(w) && Launches(w.init.snd, r.e.snd, r.out, -1) && n in r.e.snd.inFlight
    ensures Chased(FromI(w, r, now), n)
  {
    if Carrying(r.out, n) {
      CarryingUnderWay(w.toL, r.out, n);
    } else {
      assert Chased(w, n);
      if DataUnderWay(w.toL, n) { DataStays(w.toL, Wires(r.out), n); }
    }
  }

  lemma TickLetters(w: World, r: Reply)
    requires Exchanging(w) && PoliteL(r.out, r.e.finSent) && r.e.finSent == w.init.finSent
    ensures Letters(w.toL + Wires(r.out), w.toI, r.e.finSent)
  {
    WiresPoliteL(r.out, r.e.finSent);
  }

  lemma TickIFlows(w: World, now: Time)
    requires Lossless(w) && Enabled(w, TickI(now))
    requires !Next(w, TickI(now)).init.failed && Next(w, TickI(now)).init.snd.deadlineDrops == 0
    ensures Lossless(Next(w, TickI(now)))
  {
    var r := OnTick(w.init, now);
    ModestKeeps(w, TickI(now));
    TickReacts(w.init, now);
    TickLetters(w, r);
    forall n | n in r.e.snd.inFlight ensures Chased(FromI(w, r, now), n) {
      TickChases(w, r, now, n);
    }
  }

  lemma TickLFlows(w: World, now: Time)
    requires Lossless(w) && Enabled(w, TickL(now)) && Next(w, TickL(now)).lstn.state != Closed
    ensures Lossless(Next(w, TickL(now)))
  {
    var r := OnTick(w.lstn, now);
    TickLExchanges(w, now);
    TickReceives(w.lstn, now);
    forall n | n in w.init.snd.inFlight ensures Chased(FromL(w, r, now), n) {
      assert Chased(w, n);
      if AckUnderWay(w.toI, n) { AckStays(w.toI, Wires(r.out), n); }
    }
  }

  // ---------------------------------------------------------------- ticks of the handshake

  /** A tick that repeats no greeting. */
  lemma KnockWaits(e: Endpoint, now: Time)
    requires e.role == Initiator && e.state == Handshaking && !OnTick(e, now).e.failed
    requires OnTick(e, now).e.handshakeRetries <= e.handshakeRetries
    ensures OnTick(e, now) == Reply(e.(snd := Refill(e.snd, now)), [])
  {
  }

  lemma ListenerWaits(e: Endpoint, now: Time)
    requires e.role == Listener && e.state != Closed && e.snd.inFlight == map[]
    requires OnTick(e, now).e.handshakeRetries <= e.handshakeRetries
    ensures var r := OnTick(e, now); r.out == [] && r.e.state == e.state
  {
    var t := e.(snd := Refill(e.snd, now));
    assert t.snd.inFlight.Keys == {};
  }

  lemma TickIWaits(w: World, now: Time)
    requires Greeting(w) && Enabled(w, TickI(now)) && !Next(w, TickI(now)).init.failed
    requires Next(w, TickI(now)).init.handshakeRetries <= w.init.handshakeRetries
    ensures Greeting(Next(w, TickI(now)))
  {
    ModestKeeps(w, TickI(now));
    KnockWaits(w.init, now);
    assert w.toL + Wires([]) == w.toL;
  }

  lemma TickLWaits(w: World, now: Time)
    requires Greeting(w) && Enabled(w, TickL(now)) && Next(w, TickL(now)).lstn.handshakeRetries <= w.lstn.handshakeRetries
    ensures Greeting(Next(w, TickL(now)))
  {
    ModestKeeps(w, TickL(now));
    ListenerWaits(w.lstn, now);
    TickReceives(w.lstn, now);
    assert w.toI + Wires([]) == w.toI;
  }

  // ---------------------------------------------------------------- every order

  /** A delivery or a tick. */
  predicate Gentle(s: Step) { Delivers(s) || s.TickI? || s.TickL? }

  /** From `w` to `v` no greeting was repeated for want of an answer, nothing was dropped at its
      deadline, and nobody gave up. */
  predicate Calm(w: World, v: World) {
    Alive(v) && v.init.snd.deadlineDrops == 0 &&
    (w.init.state == Handshaking ==>
      v.init.handshakeRetries <= w.init.handshakeRetries && v.lstn.handshakeRetries <= w.lstn.handshakeRetries)
  }

  /** The network loses nothing, and no timer disturbs the exchange. */
  ghost predicate Smooth(w: World, run: seq<Step>)
    requires Legal(w, run)
    decreases |run|
  {
    run == [] || (Gentle(run[0]) && Calm(w, Next(w, run[0])) && Smooth(Next(w, run[0]), run[1..]))
  }

  lemma TickGoesOn(w: World, s: Step)
    requires Unbroken(w) && Enabled(w, s) && (s.TickI? || s.TickL?) && Calm(w, Next(w, s))
    ensures Unbroken(Next(w, s))
  {
    match s {
      case TickI(now) => if Greeting(w) { TickIWaits(w, now); } else { TickIFlows(w, now); }
      case TickL(now) => if Greeting(w) { TickLWaits(w, now); } else { TickLFlows(w, now); }
    }
  }

  lemma {:induction false} SmoothGoesOn(w: World, run: seq<Step>)
    requires Unbroken(w) && Legal(w, run) && Smooth(w, run)
    ensures Unbroken(After(w, run))
    decreases |run|
  {
    if run != [] {
      if Delivers(run[0]) { UnbrokenGoesOn(w, run[0]); } else { TickGoesOn(w, run[0]); }
      SmoothGoesOn(Next(w, run[0]), run[1..]);
    }
  }

  // ---------------------------------------------------------------- from the start

  /** The world once a stream was started. */
  ghost function OnAir(video: seq<byte>, fps: uint32, tapped: bool, start: Time): World {
    var w := MediaStart(video, fps, tapped, true);
    FromI(w, Start(w.init, start), start)
  }

  lemma OnAirIsUnbroken(video: seq<byte>, fps: uint32, tapped: bool, start: Time)
    requires |FileQueue(video, fps)| + SEND_WINDOW <= TWO_32
    ensures Unbroken(OnAir(video, fps, tapped, start))
  {
    var w := MediaStart(video, fps, tapped, true);
    MediaStartOk(video, fps, tapped, true);
    StartUpKeeps(w, start);
    StartGreets(w.init, true, Start(w.init, start).e, HandshakePacket(w.init.streamId, FLAG_SYN), start);
  }

  lemma OnAirOk(video: seq<byte>, fps: uint32, tapped: bool, start: Time)
    requires |FileQueue(video, fps)| < TWO_32
    ensures var w := OnAir(video, fps, tapped, start);
      MediaInv(w, FileQueue(video, fps), tapped, true) && RateOk(w.init.snd.rate, w.clock) && Skipped(w.init.snd) == 0
  {
    MediaStartOk(video, fps, tapped, true);
    R.FreshConforms(R.INITIAL_RATE);
    StepMedia(MediaStart(video, fps, tapped, true), StartUp(start), FileQueue(video, fps), tapped, true);
  }

  /** With everything sent delivered, the sink is the queue exactly when the source is at its end and
      no chunk was skipped. */
  lemma SettledIsFile(w: World, q: seq<MediaChunk>, tapped: bool)
    requires MediaInv(w, q, tapped, true) && Filled(q) && |w.lstn.rcv.delivered| == |w.init.snd.sent|
    requires Skipped(w.init.snd) >= 0
    ensures w.lstn.rcv.sink == Flatten(Payloads(q)) <==> AtEof(w.init.snd) && Skipped(w.init.snd) == 0
  {
    SinkIsQueueIff(w, q, tapped);
    Counts(w, q, tapped);
  }

  /** Whatever the order of deliveries and ticks: when a stream of which the network lost nothing and
      the timers disturbed nothing has run dry, everything sent is delivered, the transfer is complete
      exactly at the end of the file, and the sink is the input, every start code normalised, exactly
      there and when no filling of the window began starved. */
  lemma StreamCompletes(video: seq<byte>, fps: uint32, tapped: bool, start: Time, run: seq<Step>)
    requires |FileQueue(video, fps)| + SEND_WINDOW <= TWO_32
    requires Legal(OnAir(video, fps, tapped, start), run) && Smooth(OnAir(video, fps, tapped, start), run)
    requires var w := After(OnAir(video, fps, tapped, start), run); w.toL == [] && w.toI == []
    ensures var w := After(OnAir(video, fps, tapped, start), run);
      |w.lstn.rcv.delivered| == |w.init.snd.sent| && (IsComplete(w.init) <==> AtEof(w.init.snd)) &&
      (w.lstn.rcv.sink == Print(Units(video)) <==>
        AtEof(w.init.snd) && StarvedFillings(OnAir(video, fps, tapped, start), run) == 0)
  {
    var o := OnAir(video, fps, tapped, start);
    var q := FileQueue(video, fps);
    OnAirIsUnbroken(video, fps, tapped, start);
    SmoothGoesOn(o, run);
    QuietIsSettled(After(o, run));
    OnAirOk(video, fps, tapped, start);
    RunMedia(o, run, q, tapped, true);
    RunSkips(o, run);
    QueueIsPrint(Units(video), 0, Duration(fps));
    QueueFilled(Units(video), 0, Duration(fps));
    SettledIsFile(After(o, run), q, tapped);
  }
}
