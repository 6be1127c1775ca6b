/** What a session does, as functions from an endpoint's state to its next state and the
    packets it sends. The class `Session` is proved to do exactly this. */
module SessionSpec {
  import opened Wire
  import opened Clock
  import opened FrameCapture
  import opened Source
  import AnnexB
  import Rto
  import RateControl
  import Jitter

  const SEND_WINDOW := 8
  const MAX_RETRIES := 20
  const LISTENER_STREAM: uint32 := 1
  const SAFETY_US := 50_000
  const SEND_AHEAD_US := 250_000
  const JITTER_DEPTH_MS: uint32 := 50

  datatype Role = Listener | Initiator

  datatype SessionState = Handshaking | Active | Closing | Closed

  datatype InFlight = InFlight(packet: Packet, lastSent: Time, retries: nat)

  /** The sending half of a session. The keys of `inFlight` are 32-bit sequence numbers;
      `sent` records the first transmissions. */
  datatype Sending = Sending(
    mediaMode: bool, streamStartUs: uint64, streamStartSet: bool, nextSeq: uint32,
    remaining: nat, payloadSize: nat, inFlight: map<int, InFlight>,
    source: Option<OpenSource>, capture: Capture,
    rto: Rto.RtoState, rate: RateControl.RateState,
    dataSent: nat, acked: nat, retransmits: nat, deadlineDrops: nat, sent: seq<Packet>)

  /** The receiving half. The keys of `reorder` are 32-bit sequence numbers; `sink` is what
      was written to the media sink, and `delivered` records the packets accepted in order. */
  datatype Receiving = Receiving(
    nextExpected: uint32, reorder: map<int, Packet>, hasSink: bool, sink: seq<byte>,
    jitter: Jitter.JitterState, dataReceived: nat, nacksSent: nat, delivered: seq<Packet>)

  datatype Endpoint = Endpoint(
    role: Role, streamId: uint32, state: SessionState, failed: bool, finSent: bool, finReceived: bool,
    handshakeRetries: nat, lastHandshake: Time, snd: Sending, rcv: Receiving)

  datatype Reply = Reply(e: Endpoint, out: seq<Packet>)

  datatype SendReply = SendReply(s: Sending, out: seq<Packet>)

  datatype ReceiveReply = ReceiveReply(r: Receiving, out: seq<Packet>)

  const FRESH_SENDING: Sending :=
    Sending(false, 0, false, 0, 0, 64, map[], None, Capture(false, [], [], false, 0), Rto.FRESH,
            RateControl.Fresh(RateControl.INITIAL_RATE), 0, 0, 0, 0, [])

  const FRESH_RECEIVING: Receiving :=
    Receiving(0, map[], false, [], Jitter.Fresh(JITTER_DEPTH_MS), 0, 0, [])

  function FreshEndpoint(role: Role): Endpoint {
    Endpoint(role, if role == Listener then LISTENER_STREAM else 0, Handshaking, false, false, false, 0, 0,
             FRESH_SENDING, FRESH_RECEIVING)
  }

  /** `set_dummy_send`: `count` packets of a payload between 4 and 1200 bytes. */
  function WithDummy(e: Endpoint, count: uint32, size: uint16): Endpoint {
    e.(snd := e.snd.(mediaMode := false, remaining := count,
                     payloadSize := if size < 4 then 4 else if size > MAX_PAYLOAD then MAX_PAYLOAD else size))
  }

  /** `set_media_send`, with or without a callback for captured frames. */
  function WithMedia(e: Endpoint, source: OpenSource, tapped: bool): Endpoint {
    e.(snd := e.snd.(mediaMode := true, source := Some(source), remaining := 0,
                     capture := e.snd.capture.(tapped := tapped)))
  }

  // ---------------------------------------------------------------- packets

  function BlankHeader(t: PacketType, ft: FrameType, streamId: uint32, seqNo: uint32): Header {
    Header(PACKET_MAGIC, PROTOCOL_VERSION, t, ft, 0, streamId, seqNo, 0, 0, 0, 0)
  }

  function ControlPacket(t: PacketType, streamId: uint32, seqNo: uint32, flags: byte): Packet {
    Packet(BlankHeader(t, Control, streamId, seqNo).(flags := flags), [])
  }

  function HandshakePacket(streamId: uint32, flags: byte): Packet {
    ControlPacket(Handshake, streamId, 0, flags)
  }

  function AckPacket(streamId: uint32, seqNo: uint32): Packet { ControlPacket(Ack, streamId, seqNo, 0) }

  function NackPacket(streamId: uint32, seqNo: uint32): Packet { ControlPacket(Nack, streamId, seqNo, 0) }

  function DummyByte(seqNo: uint32, i: nat): byte {
    if i == 0 then seqNo / 0x100_0000
    else if i == 1 then seqNo / 0x1_0000 % 0x100
    else if i == 2 then seqNo / 0x100 % 0x100
    else if i == 3 then seqNo % 0x100
    else 0xA5
  }

  function DummyPayload(seqNo: uint32, size: nat): (p: seq<byte>)
    ensures |p| == size
  {
    seq(size, i requires 0 <= i => DummyByte(seqNo, i))
  }

  function DummyPacket(s: Sending, streamId: uint32, now: Time): Packet {
    Packet(BlankHeader(Data, Control, streamId, s.nextSeq).(timestampUs := SteadyUs(now)),
           DummyPayload(s.nextSeq, s.payloadSize))
  }

  function MediaPacket(s: Sending, streamId: uint32, chunk: MediaChunk): Packet {
    Packet(BlankHeader(Data, chunk.frameType, streamId, s.nextSeq).(timestampUs := chunk.ptsUs), chunk.payload)
  }

  // ---------------------------------------------------------------- predicates

  /** Nothing is left to send and everything sent is settled. */
  predicate Drained(s: Sending) {
    s.inFlight == map[] && if s.mediaMode then s.source.Some? && s.source.value.eof else s.remaining == 0
  }

  predicate IsComplete(e: Endpoint) {
    !e.failed && e.role == Initiator && e.state != Handshaking && Drained(e.snd)
  }

  predicate Open(e: Endpoint) { e.state == Active || e.state == Closing }

  /** The conversion of an unsigned 64-bit integer to a signed one. */
  function I64(x: uint64): int { if x < TWO_64 / 2 then x else x - TWO_64 }

  predicate ShouldRetransmit(s: Sending, slot: InFlight, now: Time) {
    if !s.mediaMode || !s.streamStartSet then true else
    var streamNow: int := U64(SteadyUs(now) - s.streamStartUs);
    var playback: int := slot.packet.header.timestampUs;
    if playback <= U64(streamNow + SAFETY_US) then false
    else Rto.Current(s.rto) < I64(U64(playback - streamNow - SAFETY_US))
  }

  /** `now - since >= rto`, the clock in nanoseconds and the timeout in microseconds. */
  predicate TimedOut(since: Time, now: Time, rtoUs: int) { now - since >= rtoUs * NS_PER_US }

  function JitterPriority(ft: FrameType): byte { if ft == Keyframe || ft == Audio then 1 else 0 }

  // ---------------------------------------------------------------- sending

  function Launch(inFlight: map<int, InFlight>, seqNo: int, p: Packet, now: Time): map<int, InFlight> {
    if seqNo in inFlight then inFlight else inFlight[seqNo := InFlight(p, now, 0)]
  }

  /** The packet goes out for the first time, under the next number. */
  function Emit(s: Sending, p: Packet, now: Time): Sending {
    s.(nextSeq := U32(s.nextSeq + 1), inFlight := Launch(s.inFlight, s.nextSeq, p, now),
       dataSent := s.dataSent + 1, sent := s.sent + [p])
  }

  function SendDummy(s: Sending, streamId: uint32, now: Time): Sending
    requires s.remaining > 0
  {
    Emit(s.(remaining := s.remaining - 1), DummyPacket(s, streamId, now), now)
  }

  function FillDummy(s: Sending, streamId: uint32, now: Time): SendReply
    decreases s.remaining
  {
    if |s.inFlight| >= SEND_WINDOW || s.remaining == 0 then SendReply(s, []) else
    var r := FillDummy(SendDummy(s, streamId, now), streamId, now);
    SendReply(r.s, [DummyPacket(s, streamId, now)] + r.out)
  }

  /** The next chunk's playback time is too far ahead of the stream clock. */
  predicate TooEarly(s: Sending, q: OpenSource, now: Time)
    requires !q.eof
  {
    var elapsed: int := U64(SteadyUs(now) - s.streamStartUs);
    s.streamStartSet && q.pending[q.cursor].ptsUs > U64(elapsed + SEND_AHEAD_US)
  }

  predicate MayTake(s: Sending, now: Time) {
    s.source.Some? && |s.inFlight| < SEND_WINDOW && !s.source.value.eof && !TooEarly(s, s.source.value, now)
  }

  function NextChunk(s: Sending): MediaChunk
    requires s.source.Some? && !s.source.value.eof
  {
    s.source.value.pending[s.source.value.cursor]
  }

  /** The source with one chunk taken. */
  function Advance(s: Sending): Sending
    requires s.source.Some?
  {
    s.(source := Some(NextState(s.source.value, 1)))
  }

  function WireSize(chunk: MediaChunk): nat { HEADER_SIZE + |chunk.payload| }

  predicate Starved(s: Sending, chunk: MediaChunk) { RateControl.Available(s.rate) < WireSize(chunk) }

  /** Tokens, stream clock and capture when a chunk is sent. */
  function Charge(s: Sending, chunk: MediaChunk, now: Time): Sending {
    s.(rate := RateControl.AfterConsume(s.rate, WireSize(chunk)),
       streamStartUs := if s.streamStartSet then s.streamStartUs else SteadyUs(now), streamStartSet := true,
       capture := Take(s.capture, chunk))
  }

  function SendChunk(s: Sending, streamId: uint32, chunk: MediaChunk, now: Time): Sending {
    Emit(Charge(s, chunk, now), MediaPacket(s, streamId, chunk), now)
  }

  /** The chunk is taken from the source before the tokens are looked at. */
  function FillMedia(s: Sending, streamId: uint32, now: Time): (r: SendReply)
    requires s.source.Some?
    ensures r.s.source.Some?
    decreases |s.source.value.pending| - s.source.value.cursor
  {
    if !MayTake(s, now) then SendReply(s, []) else
    var chunk, a := NextChunk(s), Advance(s);
    if Starved(a, chunk) then SendReply(a, []) else
    var r := FillMedia(SendChunk(a, streamId, chunk, now), streamId, now);
    SendReply(r.s, [MediaPacket(a, streamId, chunk)] + r.out)
  }

  function FlushAtEof(s: Sending): Sending
    requires s.source.Some?
  {
    if s.source.value.eof then s.(capture := Flush(s.capture)) else s
  }

  function Refill(s: Sending, now: Time): Sending { s.(rate := RateControl.AfterTick(s.rate, now)) }

  /** The window of an active initiator filled up. */
  function Fill(s: Sending, streamId: uint32, now: Time): SendReply {
    var t := Refill(s, now);
    if t.mediaMode && t.source.Some? then
      var r := FillMedia(t, streamId, now);
      SendReply(FlushAtEof(r.s), r.out)
    else FillDummy(t, streamId, now)
  }

  function FillWindow(e: Endpoint, now: Time): Reply {
    if e.role != Initiator || e.state != Active then Reply(e, []) else
    var r := Fill(e.snd, e.streamId, now);
    Reply(e.(snd := r.s), r.out)
  }

  // ---------------------------------------------------------------- receiving

  function Drain(j: Jitter.JitterState, nowUs: uint64): Jitter.JitterState
    decreases |j.buffer|
  {
    if Jitter.Due(j, nowUs) then Drain(Jitter.AfterPop(j, nowUs), nowUs) else j
  }

  function DrainJitter(r: Receiving, now: Time): Receiving {
    if r.hasSink then r.(jitter := Drain(r.jitter, SteadyUs(now))) else r
  }

  function Arrival(r: Receiving, p: Packet, now: Time): Jitter.Buffered {
    Jitter.Buffered(r.nextExpected, SteadyUs(now), |p.payload| % 0x1_0000, JitterPriority(p.header.frameType))
  }

  /** Hands the packet with the expected number to the application. */
  function Accept(r: Receiving, now: Time): Receiving
    requires r.nextExpected as int in r.reorder
  {
    var p := r.reorder[r.nextExpected as int];
    r.(dataReceived := r.dataReceived + 1, sink := if r.hasSink then r.sink + p.payload else r.sink,
       jitter := Jitter.AfterPush(r.jitter, Arrival(r, p, now)),
       reorder := r.reorder - {r.nextExpected as int}, nextExpected := U32(r.nextExpected + 1),
       delivered := r.delivered + [p])
  }

  function AcceptAll(r: Receiving, streamId: uint32, now: Time): ReceiveReply
    decreases |r.reorder|
  {
    if r.nextExpected as int !in r.reorder then ReceiveReply(r, []) else
    var a := Accept(r, now);
    assert r.reorder.Keys == a.reorder.Keys + {r.nextExpected as int};
    var q := AcceptAll(a, streamId, now);
    ReceiveReply(q.r, [AckPacket(streamId, r.nextExpected)] + q.out)
  }

  lemma AcceptShrinks(r: Receiving, now: Time)
    requires r.nextExpected as int in r.reorder
    ensures |Accept(r, now).reorder| < |r.reorder|
  {
    assert r.reorder.Keys == Accept(r, now).reorder.Keys + {r.nextExpected as int};
  }

  function DeliverInOrder(r: Receiving, streamId: uint32, now: Time): ReceiveReply {
    var q := AcceptAll(r, streamId, now);
    ReceiveReply(DrainJitter(q.r, now), q.out)
  }

  function Nacked(r: Receiving, streamId: uint32): ReceiveReply {
    ReceiveReply(r.(nacksSent := r.nacksSent + 1), [NackPacket(streamId, r.nextExpected)])
  }

  function Stored(r: Receiving, p: Packet): Receiving {
    var s: int := p.header.sequenceNumber;
    if s in r.reorder then r else r.(reorder := r.reorder[s := p])
  }

  predicate BeyondWindow(r: Receiving, seqNo: uint32) { seqNo >= U32(r.nextExpected + SEND_WINDOW) }

  /** A data packet reaching an open session. */
  function Receive(r: Receiving, streamId: uint32, p: Packet, now: Time): ReceiveReply {
    var s := p.header.sequenceNumber;
    if s < r.nextExpected then ReceiveReply(r, [AckPacket(streamId, s)])
    else if BeyondWindow(r, s) then Nacked(r, streamId)
    else if s == r.nextExpected then DeliverInOrder(Stored(r, p), streamId, now)
    else Nacked(Stored(r, p), streamId)
  }

  function OnData(e: Endpoint, p: Packet, now: Time): Reply {
    var w := if e.role == Listener && e.state == Handshaking then e.(state := Active) else e;
    if !Open(w) then Reply(w, []) else
    var q := Receive(w.rcv, w.streamId, p, now);
    Reply(w.(rcv := q.r), q.out)
  }

  // ---------------------------------------------------------------- handshake and feedback

  predicate IsSyn(f: byte) { HasSyn(f) && !HasAck(f) && !HasFin(f) }

  predicate IsSynAck(f: byte) { HasSyn(f) && HasAck(f) && !HasFin(f) }

  predicate IsPlainAck(f: byte) { HasAck(f) && !HasSyn(f) && !HasFin(f) }

  /** A SYN makes the listener forget everything it received. */
  function Restarted(e: Endpoint, now: Time): Endpoint {
    e.(failed := false, finSent := false, finReceived := false, handshakeRetries := 0, state := Handshaking,
       streamId := LISTENER_STREAM, lastHandshake := now,
       snd := e.snd.(nextSeq := 0, inFlight := map[]), rcv := e.rcv.(nextExpected := 0, reorder := map[]))
  }

  function OnFin(e: Endpoint, f: byte): Reply {
    if HasAck(f) then Reply(e.(finReceived := true, state := Closed), [])
    else if !e.finReceived then
      Reply(e.(finReceived := true, state := Closing), [HandshakePacket(e.streamId, FLAG_FIN + FLAG_ACK)])
    else Reply(e, [])
  }

  function OnSynAck(e: Endpoint, streamId: uint32, now: Time): Reply {
    var a := e.(streamId := streamId);
    if a.state == Handshaking then
      var r := FillWindow(a.(state := Active), now);
      Reply(r.e, [HandshakePacket(streamId, FLAG_ACK)] + r.out)
    else Reply(a, [HandshakePacket(streamId, FLAG_ACK)])
  }

  function OnHandshake(e: Endpoint, p: Packet, now: Time): Reply {
    var f := p.header.flags;
    if e.role == Listener && IsSyn(f) then
      Reply(Restarted(e, now), [HandshakePacket(LISTENER_STREAM, FLAG_SYN + FLAG_ACK)])
    else if e.role == Initiator && IsSynAck(f) then OnSynAck(e, p.header.streamId, now)
    else if e.role == Listener && IsPlainAck(f) && e.state == Handshaking then
      Reply(if p.header.streamId == e.streamId then e.(state := Active) else e, [])
    else if HasFin(f) then OnFin(e, f)
    else Reply(e, [])
  }

  /** The slot an acknowledgement names is taken out and timed. */
  function Acked(s: Sending, n: int, now: Time): Sending {
    if n !in s.inFlight then s else
    var rtt := UsBetween(s.inFlight[n].lastSent, now);
    s.(rto := Rto.Sample(s.rto, rtt), rate := RateControl.AfterAck(s.rate, rtt), inFlight := s.inFlight - {n},
       acked := s.acked + 1)
  }

  /** A complete initiator says FIN, once; any other sends on. */
  function Proceed(e: Endpoint, now: Time): Reply {
    if e.role == Initiator && IsComplete(e) && !e.finSent then
      Reply(e.(finSent := true, state := Closing), [HandshakePacket(e.streamId, FLAG_FIN)])
    else FillWindow(e, now)
  }

  function OnAck(e: Endpoint, p: Packet, now: Time): Reply {
    Proceed(e.(snd := Acked(e.snd, p.header.sequenceNumber, now)), now)
  }

  function Resent(s: Sending, n: int, now: Time, retries: nat): Sending
    requires n in s.inFlight
  {
    s.(rate := RateControl.AfterLoss(s.rate), inFlight := s.inFlight[n := InFlight(s.inFlight[n].packet, now, retries)],
       retransmits := s.retransmits + 1)
  }

  function Dropped(s: Sending, n: int): Sending {
    s.(inFlight := s.inFlight - {n}, deadlineDrops := s.deadlineDrops + 1)
  }

  function Nudged(s: Sending, n: int, now: Time): SendReply {
    if n !in s.inFlight then SendReply(s, [])
    else if ShouldRetransmit(s, s.inFlight[n], now) then
      SendReply(Resent(s, n, now, s.inFlight[n].retries + 1), [s.inFlight[n].packet])
    else SendReply(Dropped(s, n), [])
  }

  function OnNack(e: Endpoint, p: Packet, now: Time): Reply {
    var r := Nudged(e.snd, p.header.sequenceNumber, now);
    Reply(e.(snd := r.s), r.out)
  }

  function OnPacket(e: Endpoint, p: Packet, now: Time): Reply {
    match p.header.packetType
    case Handshake => OnHandshake(e, p, now)
    case Data => OnData(e, p, now)
    case Ack => if Open(e) then OnAck(e, p, now) else Reply(e, [])
    case Nack => if Open(e) then OnNack(e, p, now) else Reply(e, [])
    case _ => Reply(e, [])
  }

  // ---------------------------------------------------------------- time

  /** The least of a non-empty set of sequence numbers. */
  ghost function Least(s: set<int>): (m: int)
    requires s != {}
    ensures m in s && forall x | x in s :: m <= x
  {
    LeastExists(s);
    var m :| m in s && forall x | x in s :: m <= x;
    m
  }

  lemma NoElements(s: set<int>)
    requires forall x :: x !in s
    ensures s == {}
  {
    var t: set<int> := {};
    assert forall x: int :: x in s <==> x in t;
  }

  lemma AnyOf(s: set<int>) returns (y: int)
    requires s != {}
    ensures y in s
  {
    if x :| x in s {
      y := x;
    } else {
      NoElements(s);
    }
  }

  lemma {:induction false} LeastExists(s: set<int>)
    requires s != {}
    ensures exists m :: m in s && forall x | x in s :: m <= x
    decreases |s|
  {
    var y := AnyOf(s);
    if s != {y} {
      var t := s - {y};
      assert y !in t && s == t + {y};
      assert t != {};
      LeastExists(t);
      var m :| m in t && forall x | x in t :: m <= x;
      var least := if y < m then y else m;
      assert least in s && forall x | x in s :: least <= x;
    }
  }

  datatype Swept = Swept(s: Sending, out: seq<Packet>, dead: bool)

  /** The slot would be retransmitted once more than allowed. */
  function Buried(s: Sending, n: int): Sending
    requires n in s.inFlight
  {
    var slot := s.inFlight[n];
    s.(rate := RateControl.AfterLoss(s.rate),
       inFlight := s.inFlight[n := InFlight(slot.packet, slot.lastSent, slot.retries + 1)])
  }

  /** The timeout scan over the slots `todo`, in ascending order. */
  ghost function Sweep(s: Sending, todo: set<int>, now: Time, rtoUs: int): Swept
    requires todo <= s.inFlight.Keys
    decreases |todo|
  {
    if todo == {} then Swept(s, [], false) else
    var n := Least(todo);
    var rest := todo - {n};
    var slot := s.inFlight[n];
    if !TimedOut(slot.lastSent, now, rtoUs) then Sweep(s, rest, now, rtoUs)
    else if slot.retries + 1 > MAX_RETRIES then Swept(Buried(s, n), [], true)
    else if ShouldRetransmit(s, slot, now) then
      var r := Sweep(Resent(s, n, now, slot.retries + 1), rest, now, rtoUs);
      Swept(r.s, [slot.packet] + r.out, r.dead)
    else Sweep(Dropped(s, n), rest, now, rtoUs)
  }

  function HandshakeTick(e: Endpoint, now: Time): Reply {
    if e.lastHandshake == 0 || !TimedOut(e.lastHandshake, now, Rto.Current(e.snd.rto)) then Reply(e, [])
    else
      var retries := e.handshakeRetries + 1;
      if retries > MAX_RETRIES then Reply(e.(handshakeRetries := retries, failed := true, state := Closed), [])
      else Reply(e.(handshakeRetries := retries, lastHandshake := now),
                 [HandshakePacket(e.streamId, if e.role == Initiator then FLAG_SYN else FLAG_SYN + FLAG_ACK)])
  }

  /** Sends on, and lets a listener play out what is due. */
  function Serve(e: Endpoint, now: Time): Reply {
    var r := FillWindow(e, now);
    Reply(if e.role == Listener then r.e.(rcv := DrainJitter(r.e.rcv, now)) else r.e, r.out)
  }

  ghost function OpenTick(e: Endpoint, now: Time): Reply {
    var s := Sweep(e.snd, e.snd.inFlight.Keys, now, Rto.Current(e.snd.rto));
    if s.dead then Reply(e.(snd := s.s, failed := true, state := Closed), []) else
    var r := Serve(e.(snd := s.s), now);
    Reply(r.e, s.out + r.out)
  }

  ghost function OnTick(e: Endpoint, now: Time): Reply {
    var t := e.(snd := Refill(e.snd, now));
    if t.state == Handshaking then HandshakeTick(t, now)
    else if Open(t) then OpenTick(t, now)
    else Reply(t, [])
  }

  /** `start()`: a SYN from an initiator, nothing from a listener. */
  function Start(e: Endpoint, now: Time): Reply {
    if e.role != Initiator then Reply(e, [])
    else Reply(e.(lastHandshake := now), [HandshakePacket(e.streamId, FLAG_SYN)])
  }

  function BeginClose(e: Endpoint): Endpoint {
    if e.finSent || e.state == Closed then e else e.(state := Closing, finSent := true)
  }
}
