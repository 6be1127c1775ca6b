/** The sending side: what every operation of an initiator keeps. */
module Sender {
  import opened Wire
  import opened Clock
  import opened FrameCapture
  import opened Source
  import opened PacketCodec
  import opened SessionSpec

  predicate IsData(p: Packet) { p.header.packetType == Data }

  /** First transmissions carry the numbers 0, 1, 2, ... and fit a datagram. */
  ghost predicate Numbered(sent: seq<Packet>) {
    forall k :: 0 <= k < |sent| ==> IsData(sent[k]) && sent[k].header.sequenceNumber == k && Fits(sent[k])
  }

  /** Every slot in flight holds the packet first sent under its number. */
  ghost predicate Slots(sent: seq<Packet>, inFlight: map<int, InFlight>) {
    forall k :: k in inFlight ==> 0 <= k < |sent| && inFlight[k].packet == sent[k]
  }

  ghost predicate Cut(q: seq<MediaChunk>) { forall k :: 0 <= k < |q| ==> |q[k].payload| <= MAX_PAYLOAD }

  /** Every packet sent carries the dummy payload of its number. */
  ghost predicate DummyOnly(sent: seq<Packet>, size: nat) {
    |sent| <= TWO_32 && forall k :: 0 <= k < |sent| ==> sent[k].payload == DummyPayload(k, size)
  }

  /** What is left to send keeps the sequence numbers within 32 bits. */
  ghost predicate Budget(s: Sending) {
    if s.mediaMode then
      s.source.Some? && |s.sent| <= s.source.value.cursor && |s.source.value.pending| < TWO_32 && Cut(s.source.value.pending)
    else |s.sent| + s.remaining < TWO_32 && s.payloadSize <= MAX_PAYLOAD && DummyOnly(s.sent, s.payloadSize)
  }

  /** All that is or will be sent: a number of dummy packets, or a queue of chunks. */
  function Plan(s: Sending): (bool, int, nat, seq<MediaChunk>) {
    (s.mediaMode, if s.mediaMode then 0 else |s.sent| + s.remaining, s.payloadSize,
     if s.source.Some? then s.source.value.pending else [])
  }

  /** Every packet first sent is acknowledged, dropped at its deadline, or one of at most
      eight in flight. */
  ghost predicate Ledger(s: Sending) {
    |s.inFlight| <= SEND_WINDOW && s.dataSent == |s.sent| &&
    |s.sent| == s.acked + s.deadlineDrops + |s.inFlight| && (!s.mediaMode ==> s.deadlineDrops == 0)
  }

  ghost predicate SenderOk(s: Sending) {
    s.nextSeq == |s.sent| && Numbered(s.sent) && Slots(s.sent, s.inFlight) && Budget(s) && Ledger(s)
  }

  /** Every data packet sent is the one first sent under its number. */
  ghost predicate Replays(sent: seq<Packet>, out: seq<Packet>) {
    forall k :: 0 <= k < |out| && IsData(out[k]) ==>
      out[k].header.sequenceNumber < |sent| && out[k] == sent[out[k].header.sequenceNumber]
  }

  /** From `s` to `t` nothing sent is forgotten, and unless a deadline drop happened only
      the number `a` left the window. */
  ghost predicate Keeps(s: Sending, t: Sending, a: int) {
    s.sent <= t.sent && s.deadlineDrops <= t.deadlineDrops && Plan(s) == Plan(t) &&
    (s.deadlineDrops == t.deadlineDrops ==>
      forall k :: 0 <= k < |t.sent| && k !in t.inFlight && k != a ==> k < |s.sent| && k !in s.inFlight)
  }

  /** What an initiator's operation promises: `a` is the number an acknowledgement may have
      taken out of the window, or -1. */
  ghost predicate Good(s: Sending, t: Sending, out: seq<Packet>, a: int) {
    SenderOk(t) && Keeps(s, t, a) && Replays(t.sent, out)
  }

  lemma KeepsTrans(s: Sending, t: Sending, u: Sending, a: int)
    requires Keeps(s, t, a) && Keeps(t, u, -1)
    ensures Keeps(s, u, a)
  {
  }

  lemma ReplaysThen(sent: seq<Packet>, more: seq<Packet>, out1: seq<Packet>, out2: seq<Packet>)
    requires Replays(sent, out1) && sent <= more && Replays(more, out2)
    ensures Replays(more, out1 + out2)
  {
  }

  /** One good operation after another. */
  lemma Then(s: Sending, t: Sending, u: Sending, a: int, out1: seq<Packet>, out2: seq<Packet>)
    requires Good(s, t, out1, a) && Good(t, u, out2, -1)
    ensures Good(s, u, out1 + out2, a)
  {
    KeepsTrans(s, t, u, a);
    ReplaysThen(t.sent, u.sent, out1, out2);
  }

  /** After a step that sends nothing. */
  lemma Quietly(s: Sending, t: Sending, u: Sending, a: int, out: seq<Packet>)
    requires Good(s, t, [], a) && Good(t, u, out, -1)
    ensures Good(s, u, out, a)
  {
    Then(s, t, u, a, [], out);
    assert [] + out == out;
  }

  /** Packets other than data may be sent at any time, and what was to be sent withheld. */
  lemma OtherOut(s: Sending, t: Sending, out: seq<Packet>, out2: seq<Packet>, a: int)
    requires Good(s, t, out, a) && forall k :: 0 <= k < |out2| ==> !IsData(out2[k])
    ensures Good(s, t, out2, a)
  {
  }

  lemma Idle(s: Sending, a: int)
    requires SenderOk(s)
    ensures Good(s, s, [], a)
  {
  }

  /** Only the timer, the rate, the capture or the stream clock changed. */
  lemma Retuned(s: Sending, t: Sending)
    requires SenderOk(s)
    requires t == s.(rto := t.rto, rate := t.rate, capture := t.capture, streamStartUs := t.streamStartUs,
                     streamStartSet := t.streamStartSet, retransmits := t.retransmits)
    ensures Good(s, t, [], -1)
  {
  }

  // ---------------------------------------------------------------- filling the window

  lemma LaunchKeeps(sent: seq<Packet>, inFlight: map<int, InFlight>, p: Packet, now: Time)
    requires Numbered(sent) && Slots(sent, inFlight)
    requires IsData(p) && p.header.sequenceNumber == |sent| && Fits(p)
    ensures Numbered(sent + [p]) && Slots(sent + [p], Launch(inFlight, |sent|, p, now))
    ensures |Launch(inFlight, |sent|, p, now)| == |inFlight| + 1
    ensures Launch(inFlight, |sent|, p, now).Keys == inFlight.Keys + {|sent|}
  {
  }

  lemma EmitKeeps(s: Sending, p: Packet, now: Time)
    requires SenderOk(s) && Budget(Emit(s, p, now)) && |s.inFlight| < SEND_WINDOW && |s.sent| + 1 < TWO_32
    requires IsData(p) && p.header.sequenceNumber == |s.sent| && Fits(p)
    ensures SenderOk(Emit(s, p, now)) && Replays(Emit(s, p, now).sent, [p])
    ensures Emit(s, p, now).inFlight.Keys == s.inFlight.Keys + {|s.sent|}
  {
    U32Small(s.nextSeq + 1);
    LaunchKeeps(s.sent, s.inFlight, p, now);
  }

  lemma SendDummyKeeps(s: Sending, streamId: uint32, now: Time)
    requires SenderOk(s) && !s.mediaMode && s.remaining > 0 && |s.inFlight| < SEND_WINDOW
    ensures Good(s, SendDummy(s, streamId, now), [DummyPacket(s, streamId, now)], -1)
  {
    var t := s.(remaining := s.remaining - 1);
    EmitKeeps(t, DummyPacket(s, streamId, now), now);
  }

  lemma {:induction false} FillDummyKeeps(s: Sending, streamId: uint32, now: Time)
    requires SenderOk(s) && !s.mediaMode
    ensures Good(s, FillDummy(s, streamId, now).s, FillDummy(s, streamId, now).out, -1)
    decreases s.remaining
  {
    if |s.inFlight| >= SEND_WINDOW || s.remaining == 0 {
      Idle(s, -1);
    } else {
      var t := SendDummy(s, streamId, now);
      SendDummyKeeps(s, streamId, now);
      FillDummyKeeps(t, streamId, now);
      var r := FillDummy(t, streamId, now);
      Then(s, t, r.s, -1, [DummyPacket(s, streamId, now)], r.out);
    }
  }

  lemma AdvanceKeeps(s: Sending)
    requires SenderOk(s) && s.mediaMode && !s.source.value.eof
    ensures Good(s, Advance(s), [], -1) && |s.sent| < Advance(s).source.value.cursor
    ensures |NextChunk(s).payload| <= MAX_PAYLOAD
  {
    assert Advance(s).source.value.cursor == s.source.value.cursor + 1;
  }

  lemma SendChunkKeeps(s: Sending, streamId: uint32, c: MediaChunk, now: Time)
    requires SenderOk(s) && s.mediaMode && |s.inFlight| < SEND_WINDOW
    requires |s.sent| < s.source.value.cursor && |c.payload| <= MAX_PAYLOAD
    ensures Good(s, SendChunk(s, streamId, c, now), [MediaPacket(s, streamId, c)], -1)
  {
    EmitKeeps(Charge(s, c, now), MediaPacket(s, streamId, c), now);
  }

  lemma {:induction false} FillMediaKeeps(s: Sending, streamId: uint32, now: Time)
    requires SenderOk(s) && s.mediaMode
    ensures Good(s, FillMedia(s, streamId, now).s, FillMedia(s, streamId, now).out, -1)
    decreases |s.source.value.pending| - s.source.value.cursor
  {
    if !MayTake(s, now) {
      Idle(s, -1);
    } else {
      var a, c := Advance(s), NextChunk(s);
      AdvanceKeeps(s);
      if !Starved(a, c) {
        var t := SendChunk(a, streamId, c, now);
        SendChunkKeeps(a, streamId, c, now);
        FillMediaKeeps(t, streamId, now);
        var r := FillMedia(t, streamId, now);
        Then(a, t, r.s, -1, [MediaPacket(a, streamId, c)], r.out);
        Quietly(s, a, r.s, -1, [MediaPacket(a, streamId, c)] + r.out);
      }
    }
  }

  lemma FillKeeps(s: Sending, streamId: uint32, now: Time)
    requires SenderOk(s)
    ensures Good(s, Fill(s, streamId, now).s, Fill(s, streamId, now).out, -1)
  {
    var t := Refill(s, now);
    Retuned(s, t);
    if s.mediaMode {
      var r := FillMedia(t, streamId, now);
      FillMediaKeeps(t, streamId, now);
      Quietly(s, t, r.s, -1, r.out);
      Retuned(r.s, FlushAtEof(r.s));
      Then(s, r.s, FlushAtEof(r.s), -1, r.out, []);
      assert r.out + [] == r.out;
    } else {
      FillDummyKeeps(t, streamId, now);
      Quietly(s, t, FillDummy(t, streamId, now).s, -1, FillDummy(t, streamId, now).out);
    }
  }

  lemma FillWindowKeeps(e: Endpoint, now: Time)
    requires SenderOk(e.snd)
    ensures Good(e.snd, FillWindow(e, now).e.snd, FillWindow(e, now).out, -1)
  {
    if e.role != Initiator || e.state != Active {
      Idle(e.snd, -1);
    } else {
      FillKeeps(e.snd, e.streamId, now);
    }
  }

  // ---------------------------------------------------------------- feedback

  lemma AckedKeeps(s: Sending, n: int, now: Time)
    requires SenderOk(s)
    ensures Good(s, Acked(s, n, now), [], n)
  {
    if n in s.inFlight {
      assert s.inFlight.Keys == (s.inFlight - {n}).Keys + {n};
    }
  }

  lemma OnAckKeeps(e: Endpoint, p: Packet, now: Time)
    requires SenderOk(e.snd)
    ensures Good(e.snd, OnAck(e, p, now).e.snd, OnAck(e, p, now).out, p.header.sequenceNumber)
  {
    var n := p.header.sequenceNumber;
    var a := e.(snd := Acked(e.snd, n, now));
    AckedKeeps(e.snd, n, now);
    if a.role == Initiator && IsComplete(a) && !a.finSent {
      OtherOut(e.snd, a.snd, [], [HandshakePacket(a.streamId, FLAG_FIN)], n);
    } else {
      FillWindowKeeps(a, now);
      Quietly(e.snd, a.snd, FillWindow(a, now).e.snd, n, FillWindow(a, now).out);
    }
  }

  lemma ResentKeeps(s: Sending, n: int, now: Time, retries: nat)
    requires SenderOk(s) && n in s.inFlight
    ensures Good(s, Resent(s, n, now, retries), [s.inFlight[n].packet], -1)
  {
    assert s.inFlight.Keys == Resent(s, n, now, retries).inFlight.Keys;
  }

  lemma DroppedKeeps(s: Sending, n: int)
    requires SenderOk(s) && n in s.inFlight && s.mediaMode
    ensures Good(s, Dropped(s, n), [], -1)
  {
    assert s.inFlight.Keys == (s.inFlight - {n}).Keys + {n};
  }

  lemma NudgedKeeps(s: Sending, n: int, now: Time)
    requires SenderOk(s)
    ensures Good(s, Nudged(s, n, now).s, Nudged(s, n, now).out, -1)
  {
    if n !in s.inFlight {
      Idle(s, -1);
    } else if ShouldRetransmit(s, s.inFlight[n], now) {
      ResentKeeps(s, n, now, s.inFlight[n].retries + 1);
    } else {
      DroppedKeeps(s, n);
    }
  }

  lemma OnSynAckKeeps(e: Endpoint, streamId: uint32, now: Time)
    requires SenderOk(e.snd)
    ensures Good(e.snd, OnSynAck(e, streamId, now).e.snd, OnSynAck(e, streamId, now).out, -1)
  {
    var hello := [HandshakePacket(streamId, FLAG_ACK)];
    Idle(e.snd, -1);
    OtherOut(e.snd, e.snd, [], hello, -1);
    if e.state == Handshaking {
      var b := e.(streamId := streamId, state := Active);
      FillWindowKeeps(b, now);
      Then(e.snd, e.snd, FillWindow(b, now).e.snd, -1, hello, FillWindow(b, now).out);
    }
  }

  lemma OnHandshakeKeeps(e: Endpoint, p: Packet, now: Time)
    requires SenderOk(e.snd) && e.role == Initiator
    ensures Good(e.snd, OnHandshake(e, p, now).e.snd, OnHandshake(e, p, now).out, -1)
  {
    if IsSynAck(p.header.flags) {
      OnSynAckKeeps(e, p.header.streamId, now);
    } else {
      Idle(e.snd, -1);
      OtherOut(e.snd, e.snd, [], [HandshakePacket(e.streamId, FLAG_FIN + FLAG_ACK)], -1);
    }
  }

  /** The number an acknowledgement names; -1 for any other packet. */
  function AckedNumber(p: Packet): int {
    if p.header.packetType == Ack then p.header.sequenceNumber else -1
  }

  /** Any packet but data, at an initiator. */
  lemma InitiatorKeeps(e: Endpoint, p: Packet, now: Time)
    requires SenderOk(e.snd) && e.role == Initiator && !IsData(p)
    ensures Good(e.snd, OnPacket(e, p, now).e.snd, OnPacket(e, p, now).out, AckedNumber(p))
  {
    match p.header.packetType {
      case Handshake => OnHandshakeKeeps(e, p, now);
      case Ack => if Open(e) { OnAckKeeps(e, p, now); } else { Idle(e.snd, AckedNumber(p)); }
      case Nack => if Open(e) { NudgedKeeps(e.snd, p.header.sequenceNumber, now); } else { Idle(e.snd, -1); }
      case _ => Idle(e.snd, -1);
    }
  }

  // ---------------------------------------------------------------- time

  lemma BuriedKeeps(s: Sending, n: int)
    requires SenderOk(s) && n in s.inFlight
    ensures Good(s, Buried(s, n), [], -1)
  {
    assert s.inFlight.Keys == Buried(s, n).inFlight.Keys;
  }

  lemma {:induction false} SweepKeeps(s: Sending, todo: set<int>, now: Time, rtoUs: int)
    requires SenderOk(s) && todo <= s.inFlight.Keys
    ensures Good(s, Sweep(s, todo, now, rtoUs).s, Sweep(s, todo, now, rtoUs).out, -1)
    decreases |todo|, 0
  {
    if todo == {} {
      Idle(s, -1);
    } else {
      var n := Least(todo);
      var rest := todo - {n};
      var slot := s.inFlight[n];
      if !TimedOut(slot.lastSent, now, rtoUs) {
        SweepKeeps(s, rest, now, rtoUs);
      } else if slot.retries + 1 > MAX_RETRIES {
        BuriedKeeps(s, n);
      } else if ShouldRetransmit(s, slot, now) {
        SweepResentKeeps(s, n, rest, now, rtoUs);
      } else {
        SweepDroppedKeeps(s, n, rest, now, rtoUs);
      }
    }
  }

  lemma {:induction false} SweepResentKeeps(s: Sending, n: int, rest: set<int>, now: Time, rtoUs: int)
    requires SenderOk(s) && n in s.inFlight && rest <= s.inFlight.Keys
    ensures var slot := s.inFlight[n];
      var r := Sweep(Resent(s, n, now, slot.retries + 1), rest, now, rtoUs);
      Good(s, r.s, [slot.packet] + r.out, -1)
    decreases |rest|, 1
  {
    var slot := s.inFlight[n];
    var t := Resent(s, n, now, slot.retries + 1);
    ResentKeeps(s, n, now, slot.retries + 1);
    SweepKeeps(t, rest, now, rtoUs);
    Then(s, t, Sweep(t, rest, now, rtoUs).s, -1, [slot.packet], Sweep(t, rest, now, rtoUs).out);
  }

  lemma {:induction false} SweepDroppedKeeps(s: Sending, n: int, rest: set<int>, now: Time, rtoUs: int)
    requires SenderOk(s) && n in s.inFlight && s.mediaMode && rest <= s.inFlight.Keys - {n}
    ensures Good(s, Sweep(Dropped(s, n), rest, now, rtoUs).s, Sweep(Dropped(s, n), rest, now, rtoUs).out, -1)
    decreases |rest|, 1
  {
    var t := Dropped(s, n);
    DroppedKeeps(s, n);
    SweepKeeps(t, rest, now, rtoUs);
    Quietly(s, t, Sweep(t, rest, now, rtoUs).s, -1, Sweep(t, rest, now, rtoUs).out);
  }

  lemma OpenTickKeeps(e: Endpoint, now: Time)
    requires SenderOk(e.snd)
    ensures Good(e.snd, OpenTick(e, now).e.snd, OpenTick(e, now).out, -1)
  {
    var s := Sweep(e.snd, e.snd.inFlight.Keys, now, Rto.Current(e.snd.rto));
    SweepKeeps(e.snd, e.snd.inFlight.Keys, now, Rto.Current(e.snd.rto));
    if s.dead {
      OtherOut(e.snd, s.s, s.out, [], -1);
    } else {
      var f := e.(snd := s.s);
      FillWindowKeeps(f, now);
      var r := FillWindow(f, now);
      Then(e.snd, s.s, r.e.snd, -1, s.out, r.out);
    }
  }

  lemma OnTickKeeps(e: Endpoint, now: Time)
    requires SenderOk(e.snd)
    ensures Good(e.snd, OnTick(e, now).e.snd, OnTick(e, now).out, -1)
  {
    var t := e.(snd := Refill(e.snd, now));
    Retuned(e.snd, t.snd);
    if t.state == Handshaking {
      OtherOut(e.snd, t.snd, [], HandshakeTick(t, now).out, -1);
    } else if Open(t) {
      OpenTickKeeps(t, now);
      Quietly(e.snd, t.snd, OpenTick(t, now).e.snd, -1, OpenTick(t, now).out);
    }
  }
}
