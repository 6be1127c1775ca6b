/** What a deadline drop costs: a packet dropped by the sender and lost by the network is a
    hole the listener never gets past. */
module Holes {
  import opened Wire
  import opened Clock
  import opened PacketCodec
  import opened SessionSpec
  import opened Sender
  import opened Receiver
  import opened Network
  import opened Reliability
  import opened Completion
  import opened Termination
  import opened Pacing
  import opened Source
  import Rto

  /** The stream has started and number `n` is too late for any timeout: its playback time is 0,
      as that of control units is, or less than the least timeout and the margin away. */
  ghost predicate Hopeless(s: Sending, n: int, now: Time) {
    0 <= n < |s.sent| && s.mediaMode && s.streamStartSet &&
    var playback: int := s.sent[n].header.timestampUs;
    playback == 0 ||
    (s.streamStartUs <= SteadyUs(now) &&
     playback <= SteadyUs(now) - s.streamStartUs + SAFETY_US + Rto.MIN_RTO_US)
  }

  lemma HopelessLater(s: Sending, n: int, now: Time, later: Time)
    requires Hopeless(s, n, now) && now <= later
    ensures Hopeless(s, n, later)
  {
    assert SteadyUs(now) <= SteadyUs(later);
  }

  /** The receiver is at or below `n` and does not hold it. */
  predicate Below(r: Receiving, n: int) { r.nextExpected <= n && n !in r.reorder }

  /** Number `n` was sent, is not delivered, no copy of it is under way, and the sender has
      dropped it or is bound to. */
  ghost predicate Lost(w: World, n: int) {
    Inv(w) && 0 <= n < |w.init.snd.sent| && (n in w.init.snd.inFlight ==> Hopeless(w.init.snd, n, w.clock)) &&
    Below(w.lstn.rcv, n) && !DataUnderWay(w.toL, n)
  }

  // ---------------------------------------------------------------- the sender

  predicate Free(out: seq<Packet>, n: int) {
    forall k :: 0 <= k < |out| ==> !(IsData(out[k]) && out[k].header.sequenceNumber == n)
  }

  /** Number `n` is not sent, and is in flight only past its deadline. */
  ghost predicate Shuns(t: Sending, out: seq<Packet>, n: int, now: Time) {
    SenderOk(t) && 0 <= n < |t.sent| && (n in t.inFlight ==> Hopeless(t, n, now)) && Free(out, n)
  }

  lemma PastDeadline(s: Sending, n: int, now: Time)
    requires SenderOk(s) && n in s.inFlight && Hopeless(s, n, now)
    ensures !ShouldRetransmit(s, s.inFlight[n], now)
  {
    assert s.inFlight[n].packet == s.sent[n];
    TooLate(s, s.inFlight[n], now);
  }

  lemma TooLate(s: Sending, slot: InFlight, now: Time)
    requires s.mediaMode && s.streamStartSet
    requires slot.packet.header.timestampUs == 0 ||
      (s.streamStartUs <= SteadyUs(now) &&
       slot.packet.header.timestampUs <= SteadyUs(now) - s.streamStartUs + SAFETY_US + Rto.MIN_RTO_US)
    ensures !ShouldRetransmit(s, slot, now)
  {
    if slot.packet.header.timestampUs != 0 {
      assert SteadyUs(now) - s.streamStartUs < TWO_64 / 1000;
    }
  }

  lemma FreeJoin(a: seq<Packet>, b: seq<Packet>, n: int)
    requires Free(a, n) && Free(b, n)
    ensures Free(a + b, n)
  {
  }

  lemma {:induction false} FillDummyShuns(s: Sending, streamId: uint32, now: Time, n: int)
    requires Shuns(s, [], n, now) && !s.mediaMode
    ensures var r := FillDummy(s, streamId, now); Shuns(r.s, r.out, n, now)
    decreases s.remaining
  {
    if |s.inFlight| < SEND_WINDOW && s.remaining > 0 {
      SendDummyKeeps(s, streamId, now);
      var t := SendDummy(s, streamId, now);
      FillDummyShuns(t, streamId, now, n);
      FreeJoin([DummyPacket(s, streamId, now)], FillDummy(t, streamId, now).out, n);
    }
  }

  lemma {:induction false} FillMediaShuns(s: Sending, streamId: uint32, now: Time, n: int)
    requires Shuns(s, [], n, now) && s.mediaMode
    ensures var r := FillMedia(s, streamId, now); Shuns(r.s, r.out, n, now)
    decreases |s.source.value.pending| - s.source.value.cursor
  {
    if MayTake(s, now) {
      var a, c := Advance(s), NextChunk(s);
      AdvanceKeeps(s);
      if !Starved(a, c) {
        var t := SendChunk(a, streamId, c, now);
        SendChunkKeeps(a, streamId, c, now);
        FillMediaShuns(t, streamId, now, n);
        FreeJoin([MediaPacket(a, streamId, c)], FillMedia(t, streamId, now).out, n);
      }
    }
  }

  lemma FillShuns(s: Sending, streamId: uint32, now: Time, n: int)
    requires Shuns(s, [], n, now)
    ensures var r := Fill(s, streamId, now); Shuns(r.s, r.out, n, now)
  {
    var t := Refill(s, now);
    Retuned(s, t);
    if t.mediaMode {
      FillMediaShuns(t, streamId, now, n);
      var r := FillMedia(t, streamId, now);
      Retuned(r.s, FlushAtEof(r.s));
    } else {
      FillDummyShuns(t, streamId, now, n);
    }
  }

  lemma FillWindowShuns(e: Endpoint, now: Time, n: int)
    requires Shuns(e.snd, [], n, now)
    ensures var r := FillWindow(e, now); Shuns(r.e.snd, r.out, n, now)
  {
    if e.role == Initiator && e.state == Active { FillShuns(e.snd, e.streamId, now, n); }
  }

  lemma ResentShuns(s: Sending, m: int, now: Time, n: int)
    requires Shuns(s, [], n, now) && m in s.inFlight && ShouldRetransmit(s, s.inFlight[m], now)
    ensures Shuns(Resent(s, m, now, s.inFlight[m].retries + 1), [s.inFlight[m].packet], n, now)
  {
    if m == n { PastDeadline(s, n, now); }
    ResentKeeps(s, m, now, s.inFlight[m].retries + 1);
    assert s.inFlight[m].packet == s.sent[m];
  }

  lemma BuriedShuns(s: Sending, m: int, now: Time, n: int)
    requires Shuns(s, [], n, now) && m in s.inFlight
    ensures Shuns(Buried(s, m), [], n, now)
  {
    BuriedKeeps(s, m);
  }

  lemma {:induction false} SweepShuns(s: Sending, todo: set<int>, now: Time, rtoUs: int, n: int)
    requires Shuns(s, [], n, now) && todo <= s.inFlight.Keys
    ensures var r := Sweep(s, todo, now, rtoUs); Shuns(r.s, r.out, n, now)
    decreases |todo|, 0
  {
    if todo != {} {
      var m := Least(todo);
      var slot := s.inFlight[m];
      if !TimedOut(slot.lastSent, now, rtoUs) {
        SweepShuns(s, todo - {m}, now, rtoUs, n);
      } else if slot.retries + 1 > MAX_RETRIES {
        BuriedShuns(s, m, now, n);
      } else if ShouldRetransmit(s, slot, now) {
        SweepResentShuns(s, m, todo - {m}, now, rtoUs, n);
      } else {
        SweepDroppedShuns(s, m, todo - {m}, now, rtoUs, n);
      }
    }
  }

  lemma {:induction false} SweepDroppedShuns(s: Sending, m: int, rest: set<int>, now: Time, rtoUs: int, n: int)
    requires Shuns(s, [], n, now) && s.mediaMode && m in s.inFlight && rest <= s.inFlight.Keys - {m}
    ensures var r := Sweep(Dropped(s, m), rest, now, rtoUs); Shuns(r.s, r.out, n, now)
    decreases |rest|, 1
  {
    DroppedKeeps(s, m);
    SweepShuns(Dropped(s, m), rest, now, rtoUs, n);
  }

  lemma {:induction false} SweepResentShuns(s: Sending, m: int, rest: set<int>, now: Time, rtoUs: int, n: int)
    requires Shuns(s, [], n, now) && m in s.inFlight && rest <= s.inFlight.Keys && ShouldRetransmit(s, s.inFlight[m], now)
    ensures var slot := s.inFlight[m];
      var r := Sweep(Resent(s, m, now, slot.retries + 1), rest, now, rtoUs);
      Shuns(r.s, [slot.packet] + r.out, n, now)
    decreases |rest|, 1
  {
    var slot := s.inFlight[m];
    var t := Resent(s, m, now, slot.retries + 1);
    ResentShuns(s, m, now, n);
    SweepShuns(t, rest, now, rtoUs, n);
    FreeJoin([slot.packet], Sweep(t, rest, now, rtoUs).out, n);
  }

  lemma OpenTickShuns(e: Endpoint, now: Time, n: int)
    requires Shuns(e.snd, [], n, now)
    ensures var r := OpenTick(e, now); Shuns(r.e.snd, r.out, n, now)
  {
    var s := Sweep(e.snd, e.snd.inFlight.Keys, now, Rto.Current(e.snd.rto));
    SweepShuns(e.snd, e.snd.inFlight.Keys, now, Rto.Current(e.snd.rto), n);
    if !s.dead {
      var f := e.(snd := s.s);
      FillWindowShuns(f, now, n);
      FreeJoin(s.out, FillWindow(f, now).out, n);
    }
  }

  lemma HandshakeTickShuns(e: Endpoint, now: Time, n: int)
    requires Shuns(e.snd, [], n, now)
    ensures var r := HandshakeTick(e, now); Shuns(r.e.snd, r.out, n, now)
  {
  }

  lemma TickShuns(e: Endpoint, now: Time, n: int)
    requires Shuns(e.snd, [], n, now)
    ensures var r := OnTick(e, now); Shuns(r.e.snd, r.out, n, now)
  {
    var t := e.(snd := Refill(e.snd, now));
    Retuned(e.snd, t.snd);
    if t.state == Handshaking {
      HandshakeTickShuns(t, now, n);
    } else if Open(t) {
      OpenTickShuns(t, now, n);
    }
  }

  lemma OnAckShuns(e: Endpoint, p: Packet, now: Time, n: int)
    requires Shuns(e.snd, [], n, now)
    ensures var r := OnAck(e, p, now); Shuns(r.e.snd, r.out, n, now)
  {
    var a := e.(snd := Acked(e.snd, p.header.sequenceNumber, now));
    AckedKeeps(e.snd, p.header.sequenceNumber, now);
    FillWindowShuns(a, now, n);
  }

  lemma NudgedShuns(s: Sending, m: int, now: Time, n: int)
    requires Shuns(s, [], n, now)
    ensures var r := Nudged(s, m, now); Shuns(r.s, r.out, n, now)
  {
    if m in s.inFlight {
      if ShouldRetransmit(s, s.inFlight[m], now) { ResentShuns(s, m, now, n); } else { DroppedKeeps(s, m); }
    }
  }

  lemma OnHandshakeShuns(e: Endpoint, p: Packet, now: Time, n: int)
    requires Shuns(e.snd, [], n, now) && e.role == Initiator
    ensures var r := OnHandshake(e, p, now); Shuns(r.e.snd, r.out, n, now)
  {
    if IsSynAck(p.header.flags) && e.state == Handshaking {
      var b := e.(streamId := p.header.streamId, state := Active);
      FillWindowShuns(b, now, n);
      FreeJoin([HandshakePacket(p.header.streamId, FLAG_ACK)], FillWindow(b, now).out, n);
    }
  }

  lemma PacketShuns(e: Endpoint, p: Packet, now: Time, n: int)
    requires Shuns(e.snd, [], n, now) && e.role == Initiator && !IsData(p)
    ensures var r := OnPacket(e, p, now); Shuns(r.e.snd, r.out, n, now)
  {
    match p.header.packetType {
      case Handshake => OnHandshakeShuns(e, p, now, n);
      case Ack => if Open(e) { OnAckShuns(e, p, now, n); }
      case Nack => if Open(e) { NudgedShuns(e.snd, p.header.sequenceNumber, now, n); }
      case _ =>
    }
  }

  // ---------------------------------------------------------------- the receiver

  lemma {:induction false} AcceptAllStops(r: Receiving, streamId: uint32, now: Time, n: int)
    requires Below(r, n)
    ensures Below(AcceptAll(r, streamId, now).r, n)
    decreases |r.reorder|
  {
    if r.nextExpected as int in r.reorder {
      var a := Accept(r, now);
      assert r.reorder.Keys == a.reorder.Keys + {r.nextExpected as int};
      NextUp(r.nextExpected);
      AcceptAllStops(a, streamId, now, n);
    }
  }

  lemma NextUp(x: uint32)
    ensures U32(x + 1) <= x + 1
  {
  }

  lemma ReceiveStops(r: Receiving, streamId: uint32, p: Packet, now: Time, n: int)
    requires Below(r, n) && p.header.sequenceNumber != n
    ensures Below(Receive(r, streamId, p, now).r, n)
  {
    AcceptAllStops(Stored(r, p), streamId, now, n);
  }

  lemma PacketStops(e: Endpoint, p: Packet, now: Time, n: int)
    requires Below(e.rcv, n) && e.role == Listener && n >= 0 && e.snd.inFlight == map[]
    requires IsData(p) ==> p.header.sequenceNumber != n
    ensures Below(OnPacket(e, p, now).e.rcv, n)
  {
    match p.header.packetType {
      case Handshake =>
      case Data =>
        var w := if e.state == Handshaking then e.(state := Active) else e;
        ReceiveStops(e.rcv, w.streamId, p, now, n);
      case _ =>
    }
  }

  lemma TickStops(e: Endpoint, now: Time, n: int)
    requires Below(e.rcv, n)
    ensures Below(OnTick(e, now).e.rcv, n)
  {
    TickReceives(e, now);
  }

  // ---------------------------------------------------------------- every step and every run

  lemma {:induction false} FreeWires(out: seq<Packet>, n: int)
    requires Free(out, n)
    ensures forall i :: 0 <= i < |Wires(out)| ==> !IsDataFor(Wires(out)[i], n)
  {
    if out != [] {
      assert forall k :: 0 <= k < |out[1..]| ==> out[1..][k] == out[k + 1];
      FreeWires(out[1..], n);
      if Fits(out[0]) { DecodeEncode(out[0]); }
    }
  }

  /** The initiator's step keeps the hole. */
  lemma InitiatorLeavesHole(w: World, r: Reply, now: Time, n: int)
    requires Lost(w, n) && Shuns(r.e.snd, r.out, n, now) && Inv(FromI(w, r, now))
    ensures Lost(FromI(w, r, now), n)
  {
    FreeWires(r.out, n);
  }

  /** What is too late stays too late. */
  lemma LostLater(w: World, n: int, now: Time)
    requires Lost(w, n) && w.clock <= now
    ensures n in w.init.snd.inFlight ==> Hopeless(w.init.snd, n, now)
  {
    if n in w.init.snd.inFlight { HopelessLater(w.init.snd, n, w.clock, now); }
  }

  lemma ListenerLeavesHole(w: World, r: Reply, now: Time, n: int)
    requires Lost(w, n) && Below(r.e.rcv, n) && Inv(FromL(w, r, now)) && w.clock <= now
    ensures Lost(FromL(w, r, now), n)
  {
    LostLater(w, n, now);
  }

  lemma NoneLeft(net: seq<Datagram>, i: nat, n: int)
    requires i < |net| && !DataUnderWay(net, n)
    ensures !DataUnderWay(Without(net, i), n)
  {
    forall k | 0 <= k < |Without(net, i)| ensures !IsDataFor(Without(net, i)[k], n) {
      var j := if k < i then k else k + 1;
      assert Without(net, i)[k] == net[j];
      assert !IsDataFor(net[j], n);
    }
  }

  lemma DeliverILeavesHole(w: World, i: nat, now: Time, n: int)
    requires Lost(w, n) && Enabled(w, DeliverI(i, now))
    ensures Lost(Next(w, DeliverI(i, now)), n)
  {
    var d := w.toI[i];
    var r := OnDatagram(w.init, d, now);
    DeliverIKeeps(w, i, now);
    DeliverIIs(w, i, now, r);
    assert Honest(d, w.lstn.rcv.nextExpected);
    LostLater(w, n, now);
    if Decode(d).Some? { PacketShuns(w.init, Decode(d).value, now, n); }
    WithoutHonest(w.toI, i, w.lstn.rcv.nextExpected);
    InitiatorLeavesHole(w.(toI := Without(w.toI, i)), r, now, n);
  }

  lemma DeliverLLeavesHole(w: World, i: nat, now: Time, n: int)
    requires Lost(w, n) && Enabled(w, DeliverL(i, now)) && SameEpoch(w, DeliverL(i, now))
    ensures Lost(Next(w, DeliverL(i, now)), n)
  {
    var d := w.toL[i];
    var r := OnDatagram(w.lstn, d, now);
    DeliverLKeeps(w, i, now);
    DeliverLIs(w, i, now, r);
    assert !IsDataFor(d, n);
    if Decode(d).Some? { PacketStops(w.lstn, Decode(d).value, now, n); }
    NoneLeft(w.toL, i, n);
    WithoutGenuine(w.toL, i, w.init.snd.sent);
    ListenerLeavesHole(w.(toL := Without(w.toL, i)), r, now, n);
  }

  lemma ChannelLeavesHole(w: World, s: Step, n: int)
    requires Lost(w, n) && Enabled(w, s) && (s.DropL? || s.DuplicateL? || s.DamageL? || s.DropI? || s.DuplicateI? || s.DamageI?)
    ensures !DataUnderWay(Next(w, s).toL, n) && Next(w, s).init == w.init && Next(w, s).lstn == w.lstn
  {
    match s {
      case DropL(i) => NoneLeft(w.toL, i, n);
      case DuplicateL(i) => assert !IsDataFor(w.toL[i], n);
      case DamageL(i, d) => DamageUnreadable(w.toL[i], d);
      case _ =>
    }
  }

  lemma TimerLeavesHole(w: World, s: Step, n: int)
    requires Lost(w, n) && Enabled(w, s) && (s.StartUp? || s.TickI? || s.TickL?)
    ensures Lost(Next(w, s), n)
  {
    StepKeeps(w, s);
    LostLater(w, n, s.now);
    match s {
      case StartUp(now) => InitiatorLeavesHole(w, Start(w.init, now), now, n);
      case TickI(now) => TickShuns(w.init, now, n); InitiatorLeavesHole(w, OnTick(w.init, now), now, n);
      case TickL(now) => TickStops(w.lstn, now, n); ListenerLeavesHole(w, OnTick(w.lstn, now), now, n);
    }
  }

  lemma StepLeavesHole(w: World, s: Step, n: int)
    requires Lost(w, n) && Enabled(w, s) && SameEpoch(w, s)
    ensures Lost(Next(w, s), n)
  {
    StepKeeps(w, s);
    match s {
      case DeliverL(i, now) => DeliverLLeavesHole(w, i, now, n);
      case DeliverI(i, now) => DeliverILeavesHole(w, i, now, n);
      case CloseI =>
      case CloseL =>
      case _ => if s.StartUp? || s.TickI? || s.TickL? { TimerLeavesHole(w, s, n); } else { ChannelLeavesHole(w, s, n); }
    }
  }

  /** Once lost, always lost: no run of the epoch delivers packet `n` or any after it. */
  lemma {:induction false} HoleForEver(w: World, run: seq<Step>, n: int)
    requires Lost(w, n) && Legal(w, run)
    ensures Lost(After(w, run), n) && |After(w, run).lstn.rcv.delivered| <= n < |After(w, run).init.snd.sent|
    decreases |run|
  {
    if run != [] {
      StepLeavesHole(w, run[0], n);
      HoleForEver(Next(w, run[0]), run[1..], n);
    }
  }

  // ---------------------------------------------------------------- what is too late

  /** Once the stream has started, no packet and no tick makes the initiator send a control unit,
      or any other that is too late, again. */
  lemma LateIsNeverResent(e: Endpoint, p: Packet, now: Time, n: int)
    requires SenderOk(e.snd) && e.role == Initiator && !IsData(p) && Hopeless(e.snd, n, now)
    ensures Free(OnPacket(e, p, now).out, n) && Free(OnTick(e, now).out, n)
  {
    PacketShuns(e, p, now, n);
    TickShuns(e, now, n);
  }

  /** A unit that is too late and of which the network has lost every copy is a hole: whether a
      negative acknowledgement, a timeout or nothing follows, no run delivers it. */
  lemma LateIsHole(w: World, run: seq<Step>, n: int)
    requires Inv(w) && Hopeless(w.init.snd, n, w.clock) && Below(w.lstn.rcv, n) && !DataUnderWay(w.toL, n) && Legal(w, run)
    ensures |After(w, run).lstn.rcv.delivered| <= n
  {
    HoleForEver(w, run, n);
  }
}
