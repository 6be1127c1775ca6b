/** What the handshake and closing packets do, flag by flag, and what a tick does to a handshake. */
module Greetings {
  import opened Wire
  import opened Clock
  import opened PacketCodec
  import opened SessionSpec
  import opened Source
  import opened Sender
  import opened Filling
  import R = RateControl
  import Rto

  predicate Syn(p: Packet) { p.header.flags % 2 == 1 }

  predicate Acking(p: Packet) { p.header.flags / 2 % 2 == 1 }

  predicate Fin(p: Packet) { p.header.flags / 4 % 2 == 1 }

  /** A handshake packet with these flags and nothing else in it. */
  predicate Says(p: Packet, streamId: uint32, flags: byte) {
    p.header.packetType == Handshake && p.header.frameType == Control && p.header.streamId == streamId &&
    p.header.flags == flags && p.header.sequenceNumber == 0 && p.header.timestampUs == 0 && p.payload == []
  }

  // ---------------------------------------------------------------- opening

  /** A SYN alone makes a listener start again, whatever it was doing; only its statistics, its jitter
      buffer and what it has written stay. */
  lemma SynAlone(e: Endpoint, p: Packet, now: Time)
    requires p.header.packetType == Handshake && e.role == Listener && Syn(p) && !Acking(p) && !Fin(p)
    ensures var r := OnPacket(e, p, now);
      |r.out| == 1 && Says(r.out[0], 1, 3) &&
      r.e == Endpoint(Listener, 1, Handshaking, false, false, false, 0, now,
                      e.snd.(nextSeq := 0, inFlight := map[]), e.rcv.(nextExpected := 0, reorder := map[]))
  {
  }

  /** A SYN|ACK gives an initiator its stream number and is acknowledged; in the handshake it also makes
      the initiator active, and the first packets follow, as many as can go out. */
  lemma SynAndAck(e: Endpoint, p: Packet, now: Time)
    requires p.header.packetType == Handshake && e.role == Initiator && Syn(p) && Acking(p) && !Fin(p)
    requires SenderOk(e.snd)
    ensures var r := OnPacket(e, p, now);
      r.out != [] && Says(r.out[0], p.header.streamId, 2) && e.snd.sent <= r.e.snd.sent &&
      r.out[1..] == r.e.snd.sent[|e.snd.sent|..] &&
      if e.state == Handshaking then
        r.e == e.(streamId := p.header.streamId, state := Active, snd := r.e.snd) &&
        (Timely(e.snd, now) ==> Full(r.e.snd, now))
      else r.e == e.(streamId := p.header.streamId)
  {
    if e.state == Handshaking {
      var a := e.(streamId := p.header.streamId, state := Active);
      SendsOn(a, now);
      AnsweredFirst(HandshakePacket(p.header.streamId, FLAG_ACK), FillWindow(a, now).out);
    }
  }

  lemma AnsweredFirst(p: Packet, out: seq<Packet>)
    ensures ([p] + out)[0] == p && ([p] + out)[1..] == out
  {
  }

  /** The ACK of its own stream number makes a listener in the handshake active; it is not answered. */
  lemma AckAlone(e: Endpoint, p: Packet, now: Time)
    requires p.header.packetType == Handshake && e.role == Listener && !Syn(p) && Acking(p) && !Fin(p)
    ensures OnPacket(e, p, now) ==
      Reply(if e.state == Handshaking && p.header.streamId == e.streamId then e.(state := Active) else e, [])
  {
  }

  // ---------------------------------------------------------------- closing

  /** A FIN|ACK closes either side for good and is never answered. */
  lemma FinAndAck(e: Endpoint, p: Packet, now: Time)
    requires p.header.packetType == Handshake && Fin(p) && Acking(p)
    ensures OnPacket(e, p, now) == Reply(e.(finReceived := true, state := Closed), [])
  {
  }

  /** The first FIN is answered by FIN|ACK; any later one by nothing. */
  lemma FinAlone(e: Endpoint, p: Packet, now: Time)
    requires p.header.packetType == Handshake && Fin(p) && !Acking(p)
    ensures var r := OnPacket(e, p, now);
      if e.finReceived then r == Reply(e, [])
      else |r.out| == 1 && Says(r.out[0], e.streamId, 6) && r.e == e.(finReceived := true, state := Closing)
  {
  }

  /** All other handshake packets, and packets of no use to a session, are ignored. */
  lemma Ignored(e: Endpoint, p: Packet, now: Time)
    requires p.header.packetType == Handshake ==>
      !Fin(p) && if e.role == Listener then !(Syn(p) && !Acking(p)) && !(Acking(p) && !Syn(p)) else !(Syn(p) && Acking(p))
    requires p.header.packetType == Handshake || p.header.packetType == Keepalive || p.header.packetType == ReceiverReport
    ensures OnPacket(e, p, now) == Reply(e, [])
  {
  }

  // ---------------------------------------------------------------- ticks

  /** In the handshake a tick repeats the greeting a timeout after the last one, twenty times, and then
      gives up; an endpoint that has greeted nobody waits. */
  lemma HandshakeTicks(e: Endpoint, now: Time)
    requires e.state == Handshaking
    ensures var r, t := OnTick(e, now), e.(snd := Refill(e.snd, now));
      if e.lastHandshake == 0 || now - e.lastHandshake < Rto.Current(e.snd.rto) * 1000 then r == Reply(t, [])
      else if e.handshakeRetries >= 20 then
        r == Reply(t.(handshakeRetries := e.handshakeRetries + 1, failed := true, state := Closed), [])
      else
        r.e == t.(handshakeRetries := e.handshakeRetries + 1, lastHandshake := now) && |r.out| == 1 &&
        Says(r.out[0], e.streamId, if e.role == Initiator then 1 else 3)
  {
  }

  /** Once closed a tick only fills the bucket. */
  lemma ClosedTicks(e: Endpoint, now: Time)
    requires e.state == Closed
    ensures OnTick(e, now) == Reply(e.(snd := e.snd.(rate := R.AfterTick(e.snd.rate, now))), [])
  {
  }

  // ---------------------------------------------------------------- what the owner calls

  /** `start`, `begin_close` and `is_complete`. */
  lemma Called(e: Endpoint, now: Time)
    ensures e.role == Initiator ==>
      Start(e, now).e == e.(lastHandshake := now) && |Start(e, now).out| == 1 && Says(Start(e, now).out[0], e.streamId, 1)
    ensures e.role == Listener ==> Start(e, now) == Reply(e, [])
    ensures BeginClose(e) == if e.finSent || e.state == Closed then e else e.(state := Closing, finSent := true)
    ensures IsComplete(e) <==>
      e.role == Initiator && !e.failed && e.state != Handshaking && |e.snd.inFlight| == 0 &&
      (if e.snd.mediaMode then e.snd.source.Some? && e.snd.source.value.eof else e.snd.remaining == 0)
  {
    assert |e.snd.inFlight| == 0 ==> e.snd.inFlight == map[];
  }

  /** A new session, and what its owner sets up: dummy packets of 4 to 1200 bytes, or a source. */
  lemma SetUp(role: Role, count: uint32, size: uint16, source: OpenSource, tapped: bool)
    ensures var e := FreshEndpoint(role);
      e.role == role && e.streamId == (if role == Listener then 1 else 0) && e.state == Handshaking && !e.failed &&
      !e.finSent && !e.finReceived && e.lastHandshake == 0 && e.handshakeRetries == 0 && e.snd.inFlight == map[] &&
      e.snd.nextSeq == 0 && e.snd.remaining == 0 && e.snd.payloadSize == 64 && !e.snd.streamStartSet &&
      e.snd.rto == Rto.FRESH && e.snd.rate.rateBps == 1_000_000 && e.snd.rate.tokens == 6_250.0 &&
      e.rcv.nextExpected == 0 && e.rcv.reorder == map[] && e.rcv.jitter.targetMs == 50 && e.rcv.jitter.buffer == []
    ensures var d := WithDummy(FreshEndpoint(role), count, size).snd;
      !d.mediaMode && d.remaining == count && d.payloadSize == (if size < 4 then 4 else if size > 1200 then 1200 else size) &&
      d == FreshEndpoint(role).snd.(remaining := d.remaining, payloadSize := d.payloadSize)
    ensures var m := WithMedia(FreshEndpoint(role), source, tapped).snd;
      m.mediaMode && m.source == Some(source) && m.remaining == 0 && m.capture.tapped == tapped && m.capture.frames == []
  {
  }
}
