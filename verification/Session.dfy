/** The session as the object it is: fields updated in place by loops. Every method is proved
    to do what `SessionSpec` says, so the theorems about runs hold of it. The fields are held
    in three objects, for sending, for receiving and for the connection. */
module SessionObject {
  import opened Wire
  import opened Clock
  import opened FrameCapture
  import opened Source
  import opened SessionSpec
  import AnnexB
  import Rto
  import RateControl
  import Jitter

  /** The frame being put together from the chunks sent; `frames` is what the callback got. */
  class FrameTap {
    var tapped: bool
    var frames: seq<Frame>
    var pending: seq<byte>
    var isKey: bool
    var lastPts: uint64

    ghost function State(): Capture
      reads this
    {
      Capture(tapped, frames, pending, isKey, lastPts)
    }

    constructor ()
      ensures State() == Capture(false, [], [], false, 0)
    {
      tapped, frames, pending, isKey, lastPts := false, [], [], false, 0;
    }

    method Flush()
      modifies this`frames, this`pending
      ensures State() == FrameCapture.Flush(old(State()))
    {
      if pending != [] {
        if tapped {
          frames := frames + [Frame(pending, lastPts, isKey)];
        }
        pending := [];
      }
    }

    method Take(chunk: MediaChunk)
      modifies this
      ensures State() == FrameCapture.Take(old(State()), chunk)
    {
      var starts := AnnexB.StartsWithCode(chunk.payload);
      if starts {
        Flush();
        isKey := chunk.frameType == Keyframe;
      }
      pending := pending + chunk.payload;
      lastPts := chunk.ptsUs;
    }
  }

  class SendHalf {
    const rto: Rto.RtoEstimator
    const rate: RateControl.RateController
    const tap: FrameTap

    var mediaMode: bool
    var streamStartUs: uint64
    var streamStartSet: bool
    var nextSeq: uint32
    var remaining: nat
    var payloadSize: nat
    var inFlight: map<int, InFlight>
    var source: MediaSource?
    var dataSent: nat
    var acked: nat
    var retransmits: nat
    var deadlineDrops: nat
    ghost var sent: seq<Packet>

    /** A session is only ever given an opened source. */
    predicate Valid()
      reads this`source, source
    {
      source != null ==> source.Valid() && source.isOpen
    }

    ghost function SourceState(): Option<OpenSource>
      requires Valid()
      reads this`source, source
    {
      if source == null then None else Some(source.State())
    }

    ghost function State(): Sending
      requires Valid()
      reads this, rto, rate, tap, source
    {
      Sending(mediaMode, streamStartUs, streamStartSet, nextSeq, remaining, payloadSize, inFlight, SourceState(),
              tap.State(), rto.State(), rate.State(), dataSent, acked, retransmits, deadlineDrops, sent)
    }

    constructor ()
      ensures Valid() && State() == FRESH_SENDING && source == null
      ensures fresh(rto) && fresh(rate) && fresh(tap)
    {
      rto := new Rto.RtoEstimator();
      rate := new RateControl.RateController(RateControl.INITIAL_RATE);
      tap := new FrameTap();
      mediaMode, streamStartUs, streamStartSet, nextSeq, remaining, payloadSize := false, 0, false, 0, 0, 64;
      inFlight, source := map[], null;
      dataSent, acked, retransmits, deadlineDrops, sent := 0, 0, 0, 0, [];
    }

    method Forget()
      requires Valid()
      modifies this`nextSeq, this`inFlight
      ensures Valid() && State() == old(State()).(nextSeq := 0, inFlight := map[])
    {
      nextSeq := 0;
      inFlight := map[];
    }

    /** The packet goes out for the first time. */
    method Emit(p: Packet, now: Time)
      modifies this`nextSeq, this`inFlight, this`dataSent, this`sent
      ensures nextSeq == U32(old(nextSeq) + 1) && inFlight == Launch(old(inFlight), old(nextSeq), p, now)
      ensures dataSent == old(dataSent) + 1 && sent == old(sent) + [p]
    {
      var seqNo: int := nextSeq;
      nextSeq := U32(nextSeq + 1);
      if seqNo !in inFlight {
        inFlight := inFlight[seqNo := InFlight(p, now, 0)];
      }
      dataSent := dataSent + 1;
      sent := sent + [p];
    }

    method MakeData(streamId: uint32, now: Time) returns (p: Packet)
      requires Valid()
      ensures p == DummyPacket(State(), streamId, now)
    {
      p := Packet(BlankHeader(Data, Control, streamId, nextSeq).(timestampUs := SteadyUs(now)),
                  DummyPayload(nextSeq, payloadSize));
    }

    method SendOneDummy(streamId: uint32, now: Time) returns (p: Packet)
      requires Valid() && remaining > 0
      modifies this`nextSeq, this`inFlight, this`dataSent, this`sent, this`remaining
      ensures Valid() && State() == SendDummy(old(State()), streamId, now)
      ensures p == DummyPacket(old(State()), streamId, now)
    {
      p := MakeData(streamId, now);
      remaining := remaining - 1;
      Emit(p, now);
    }

    method FillDummies(streamId: uint32, now: Time) returns (out: seq<Packet>)
      requires Valid()
      modifies this`nextSeq, this`inFlight, this`dataSent, this`sent, this`remaining
      ensures Valid() && SendReply(State(), out) == FillDummy(old(State()), streamId, now)
    {
      out := [];
      ghost var whole := FillDummy(State(), streamId, now);
      while |inFlight| < SEND_WINDOW && remaining > 0
        invariant Valid()
        invariant whole == SendReply(FillDummy(State(), streamId, now).s, out + FillDummy(State(), streamId, now).out)
        decreases remaining
      {
        var p := SendOneDummy(streamId, now);
        Assoc(out, [p], FillDummy(State(), streamId, now).out);
        out := out + [p];
      }
      assert out + [] == out;
    }

    /** The next chunk leaves the source. */
    method TakeChunk() returns (chunk: MediaChunk)
      requires Valid() && source != null && !source.eof
      modifies source
      ensures Valid() && source.isOpen && State() == Advance(old(State())) && chunk == NextChunk(old(State()))
    {
      var chunks := source.NextChunks(1);
      chunk := chunks[0];
    }

    /** Tokens, stream clock and capture when a chunk is sent. */
    method Charge(chunk: MediaChunk, now: Time)
      requires Valid()
      modifies rate, tap, this`streamStartUs, this`streamStartSet
      ensures Valid() && State() == SessionSpec.Charge(old(State()), chunk, now)
    {
      var taken := rate.ConsumeTokens(WireSize(chunk));
      if !streamStartSet {
        streamStartUs := SteadyUs(now);
        streamStartSet := true;
      }
      tap.Take(chunk);
    }

    method SendOneChunk(streamId: uint32, chunk: MediaChunk, now: Time) returns (p: Packet)
      requires Valid()
      modifies rate, tap, this`streamStartUs, this`streamStartSet, this`nextSeq, this`inFlight, this`dataSent, this`sent
      ensures Valid() && State() == SendChunk(old(State()), streamId, chunk, now)
      ensures p == MediaPacket(old(State()), streamId, chunk)
    {
      p := Packet(BlankHeader(Data, chunk.frameType, streamId, nextSeq).(timestampUs := chunk.ptsUs), chunk.payload);
      Charge(chunk, now);
      Emit(p, now);
    }

    /** Takes a chunk, and sends it if the tokens suffice. */
    method TryChunk(streamId: uint32, now: Time) returns (p: Option<Packet>)
      requires Valid() && source != null && !source.eof
      modifies rate, tap, source, this`streamStartUs, this`streamStartSet, this`nextSeq, this`inFlight, this`dataSent, this`sent
      ensures Valid()
      ensures p.None? <==> Starved(Advance(old(State())), NextChunk(old(State())))
      ensures State() == if p.None? then Advance(old(State()))
                         else SendChunk(Advance(old(State())), streamId, NextChunk(old(State())), now)
      ensures p.Some? ==> p.value == MediaPacket(old(State()), streamId, NextChunk(old(State())))
    {
      var chunk := TakeChunk();
      if rate.AvailableTokens() < WireSize(chunk) {
        return None;
      }
      var q := SendOneChunk(streamId, chunk, now);
      p := Some(q);
    }

    predicate IsTooEarly(now: Time)
      requires Valid() && source != null && !source.eof
      reads this`streamStartUs, this`streamStartSet, this`source, source
    {
      streamStartSet &&
      (var elapsed: int := U64(SteadyUs(now) - streamStartUs);
       source.pending[source.pendingCursor].ptsUs > U64(elapsed + SEND_AHEAD_US))
    }

    predicate CanTake(now: Time)
      requires Valid() && source != null
      reads this, rto, rate, tap, source
      ensures CanTake(now) == MayTake(State(), now)
    {
      |inFlight| < SEND_WINDOW && !source.eof && !IsTooEarly(now)
    }

    method FillChunks(streamId: uint32, now: Time) returns (out: seq<Packet>)
      requires Valid() && source != null
      modifies rate, tap, source, this`streamStartUs, this`streamStartSet, this`nextSeq, this`inFlight, this`dataSent, this`sent
      ensures Valid() && SendReply(State(), out) == FillMedia(old(State()), streamId, now)
    {
      out := [];
      ghost var whole := FillMedia(State(), streamId, now);
      while CanTake(now)
        invariant Valid() && State().source.Some?
        invariant whole == Behind(out, FillMedia(State(), streamId, now))
        decreases |source.pending| - source.pendingCursor
      {
        ghost var before := State();
        var p := TryChunk(streamId, now);
        if p.None? {
          FillMediaStarved(before, streamId, now);
          break;
        }
        FillMediaSent(before, streamId, now);
        BehindMore(out, p.value, FillMedia(State(), streamId, now));
        out := out + [p.value];
      }
      assert whole == Behind(out, SendReply(State(), []));
      BehindNone(out, State());
    }

    /** Fills the window from the source, and flushes the last frame at end of file. */
    method FillPaced(streamId: uint32, now: Time) returns (out: seq<Packet>)
      requires Valid() && source != null
      modifies rate, tap, source, this`streamStartUs, this`streamStartSet, this`nextSeq, this`inFlight, this`dataSent, this`sent
      ensures Valid()
      ensures var r := FillMedia(old(State()), streamId, now); State() == FlushAtEof(r.s) && out == r.out
    {
      out := FillChunks(streamId, now);
      if source.eof {
        tap.Flush();
      }
    }

    /** Fills the window, paced and paid for in media mode. */
    method Fill(streamId: uint32, now: Time) returns (out: seq<Packet>)
      requires Valid()
      modifies rate, tap, source, this`streamStartUs, this`streamStartSet, this`nextSeq, this`inFlight, this`dataSent
      modifies this`sent, this`remaining
      ensures Valid() && SendReply(State(), out) == SessionSpec.Fill(old(State()), streamId, now)
    {
      rate.OnTick(now);
      if mediaMode && source != null {
        out := FillPaced(streamId, now);
      } else {
        out := FillDummies(streamId, now);
      }
    }

    /** An acknowledgement of number `n`. */
    method Settle(n: int, now: Time)
      requires Valid()
      modifies rto, rate, this`inFlight, this`acked
      ensures Valid() && State() == Acked(old(State()), n, now)
    {
      if n in inFlight {
        var rtt := UsBetween(inFlight[n].lastSent, now);
        rto.OnRttSample(rtt);
        rate.OnAck(rtt);
        inFlight := inFlight - {n};
        acked := acked + 1;
      }
    }

    predicate WorthResending(slot: InFlight, now: Time)
      requires Valid()
      reads this, rto, rate, tap, source
      ensures WorthResending(slot, now) == ShouldRetransmit(State(), slot, now)
    {
      if !mediaMode || !streamStartSet then true else
      var streamNow: int := U64(SteadyUs(now) - streamStartUs);
      var playback: int := slot.packet.header.timestampUs;
      if playback <= U64(streamNow + SAFETY_US) then false
      else Rto.Current(rto.State()) < I64(U64(playback - streamNow - SAFETY_US))
    }

    method Resend(n: int, now: Time) returns (p: Packet)
      requires Valid() && n in inFlight
      modifies rate, this`inFlight, this`retransmits
      ensures Valid() && State() == Resent(old(State()), n, now, old(inFlight)[n].retries + 1)
      ensures p == old(inFlight)[n].packet
    {
      p := inFlight[n].packet;
      rate.OnLoss();
      inFlight := inFlight[n := InFlight(p, now, inFlight[n].retries + 1)];
      retransmits := retransmits + 1;
    }

    method Drop(n: int)
      requires Valid() && n in inFlight
      modifies this`inFlight, this`deadlineDrops
      ensures Valid() && State() == Dropped(old(State()), n)
    {
      inFlight := inFlight - {n};
      deadlineDrops := deadlineDrops + 1;
    }

    /** A negative acknowledgement of number `n`. */
    method Nudge(n: int, now: Time) returns (out: seq<Packet>)
      requires Valid()
      modifies rate, this`inFlight, this`retransmits, this`deadlineDrops
      ensures Valid() && SendReply(State(), out) == Nudged(old(State()), n, now)
    {
      out := [];
      if n in inFlight {
        if WorthResending(inFlight[n], now) {
          var p := Resend(n, now);
          out := [p];
        } else {
          Drop(n);
        }
      }
    }

    method GiveUp(n: int)
      requires Valid() && n in inFlight
      modifies rate, this`inFlight
      ensures Valid() && State() == Buried(old(State()), n)
    {
      var slot := inFlight[n];
      inFlight := inFlight[n := InFlight(slot.packet, slot.lastSent, slot.retries + 1)];
      rate.OnLoss();
    }

    /** The timeout scan's look at one slot. */
    method Visit(n: int, now: Time, rtoUs: int) returns (out: seq<Packet>, dead: bool)
      requires Valid() && n in inFlight
      modifies rate, this`inFlight, this`retransmits, this`deadlineDrops
      ensures Valid() && Swept(State(), out, dead) == Visited(old(State()), n, now, rtoUs)
    {
      out, dead := [], false;
      var slot := inFlight[n];
      if TimedOut(slot.lastSent, now, rtoUs) {
        if slot.retries + 1 > MAX_RETRIES {
          GiveUp(n);
          dead := true;
        } else if WorthResending(slot, now) {
          var p := Resend(n, now);
          out := [p];
        } else {
          Drop(n);
        }
      }
    }

    /** The timeout scan, in ascending order of sequence numbers. */
    method Scan(now: Time, rtoUs: int) returns (out: seq<Packet>, dead: bool)
      requires Valid()
      modifies rate, this`inFlight, this`retransmits, this`deadlineDrops
      ensures Valid()
      ensures var r := Sweep(old(State()), old(inFlight).Keys, now, rtoUs);
        State() == r.s && dead == r.dead && (!dead ==> out == r.out)
    {
      out, dead := [], false;
      var todo := inFlight.Keys;
      ghost var whole := Sweep(State(), todo, now, rtoUs);
      while todo != {}
        invariant Valid() && todo <= inFlight.Keys && !dead
        invariant whole == SweptBehind(out, Sweep(State(), todo, now, rtoUs))
        decreases |todo|
      {
        LeastExists(todo);
        var n :| n in todo && forall x | x in todo :: n <= x;
        ghost var before := State();
        assert n == Least(todo);
        SweepStep(before, todo, now, rtoUs);
        var more, last := Visit(n, now, rtoUs);
        if last {
          return [], true;
        }
        todo := todo - {n};
        SweptMore(out, more, Sweep(State(), todo, now, rtoUs));
        out := out + more;
      }
    }
  }

  class ReceiveHalf {
    const jitter: Jitter.JitterBuffer

    var nextExpected: uint32
    var reorder: map<int, Packet>
    var hasSink: bool
    var sink: seq<byte>
    var dataReceived: nat
    var nacksSent: nat
    ghost var delivered: seq<Packet>

    ghost function State(): Receiving
      reads this, jitter
    {
      Receiving(nextExpected, reorder, hasSink, sink, jitter.State(), dataReceived, nacksSent, delivered)
    }

    constructor ()
      ensures State() == FRESH_RECEIVING && fresh(jitter)
    {
      jitter := new Jitter.JitterBuffer(JITTER_DEPTH_MS);
      nextExpected, reorder, hasSink, sink, dataReceived, nacksSent, delivered := 0, map[], false, [], 0, 0, [];
    }

    method Forget()
      modifies this`nextExpected, this`reorder
      ensures State() == old(State()).(nextExpected := 0, reorder := map[])
    {
      nextExpected := 0;
      reorder := map[];
    }

    /** Takes everything due out of the jitter buffer, which holds no payloads. */
    method DeliverFromJitter(now: Time)
      modifies jitter
      ensures State() == DrainJitter(old(State()), now)
    {
      if !hasSink {
        return;
      }
      var nowUs := SteadyUs(now);
      ghost var whole := Drain(jitter.State(), nowUs);
      while true
        invariant whole == Drain(jitter.State(), nowUs)
        decreases |jitter.buffer|
      {
        var p := jitter.Pop(nowUs);
        if p.None? {
          break;
        }
      }
    }

    /** Counts the expected packet, writes it to the sink and moves on. */
    method PassOn()
      requires nextExpected as int in reorder
      modifies this`nextExpected, this`reorder, this`sink, this`dataReceived, this`delivered
      ensures nextExpected == U32(old(nextExpected) + 1) && reorder == old(reorder) - {old(nextExpected) as int}
      ensures dataReceived == old(dataReceived) + 1 && delivered == old(delivered) + [old(reorder)[old(nextExpected) as int]]
      ensures sink == if hasSink then old(sink) + old(reorder)[old(nextExpected) as int].payload else old(sink)
    {
      var p := reorder[nextExpected as int];
      dataReceived := dataReceived + 1;
      if hasSink {
        sink := sink + p.payload;
      }
      reorder := reorder - {nextExpected as int};
      nextExpected := U32(nextExpected + 1);
      delivered := delivered + [p];
    }

    /** Hands the expected packet to the application. */
    method AcceptNext(now: Time)
      requires nextExpected as int in reorder
      modifies this`nextExpected, this`reorder, this`sink, this`dataReceived, this`delivered, jitter
      ensures State() == Accept(old(State()), now)
    {
      var p := reorder[nextExpected as int];
      var pushed := jitter.Push(nextExpected, SteadyUs(now), |p.payload| % 0x1_0000, JitterPriority(p.header.frameType));
      PassOn();
    }

    method AcceptReady(streamId: uint32, now: Time) returns (acks: seq<Packet>)
      modifies this`nextExpected, this`reorder, this`sink, this`dataReceived, this`delivered, jitter
      ensures ReceiveReply(State(), acks) == AcceptAll(old(State()), streamId, now)
    {
      acks := [];
      ghost var whole := AcceptAll(State(), streamId, now);
      while nextExpected as int in reorder
        invariant whole == Acknowledged(acks, AcceptAll(State(), streamId, now))
        decreases |reorder|
      {
        AcceptAllStep(State(), streamId, now);
        AcknowledgedMore(acks, AckPacket(streamId, nextExpected), AcceptAll(Accept(State(), now), streamId, now));
        acks := acks + [AckPacket(streamId, nextExpected)];
        AcceptNext(now);
      }
      assert acks + [] == acks;
    }

    method DeliverInOrder(streamId: uint32, now: Time) returns (acks: seq<Packet>)
      modifies this`nextExpected, this`reorder, this`sink, this`dataReceived, this`delivered, jitter
      ensures ReceiveReply(State(), acks) == SessionSpec.DeliverInOrder(old(State()), streamId, now)
    {
      acks := AcceptReady(streamId, now);
      DeliverFromJitter(now);
    }

    /** A data packet reaching an open session. */
    method Receive(streamId: uint32, p: Packet, now: Time) returns (out: seq<Packet>)
      modifies this`nextExpected, this`reorder, this`sink, this`dataReceived, this`nacksSent, this`delivered, jitter
      ensures ReceiveReply(State(), out) == SessionSpec.Receive(old(State()), streamId, p, now)
    {
      var s := p.header.sequenceNumber;
      if s < nextExpected {
        return [AckPacket(streamId, s)];
      }
      if s >= U32(nextExpected + SEND_WINDOW) {
        nacksSent := nacksSent + 1;
        return [NackPacket(streamId, nextExpected)];
      }
      if s as int !in reorder {
        reorder := reorder[s as int := p];
      }
      if s == nextExpected {
        out := DeliverInOrder(streamId, now);
      } else {
        nacksSent := nacksSent + 1;
        out := [NackPacket(streamId, nextExpected)];
      }
    }
  }

  class Session {
    const role: Role
    const snd: SendHalf
    const rcv: ReceiveHalf

    var streamId: uint32
    var state: SessionState
    var failed: bool
    var finSent: bool
    var finReceived: bool
    var handshakeRetries: nat
    var lastHandshake: Time

    predicate Valid()
      reads snd`source, snd.source
    {
      snd.Valid()
    }

    ghost function View(): Endpoint
      requires Valid()
      reads this, snd, snd.rto, snd.rate, snd.tap, snd.source, rcv, rcv.jitter
    {
      Endpoint(role, streamId, state, failed, finSent, finReceived, handshakeRetries, lastHandshake, snd.State(), rcv.State())
    }

    constructor (role: Role)
      ensures Valid() && View() == FreshEndpoint(role)
      ensures fresh(snd) && fresh(rcv) && fresh(snd.rto) && fresh(snd.rate) && fresh(snd.tap) && fresh(rcv.jitter)
    {
      this.role := role;
      snd := new SendHalf();
      rcv := new ReceiveHalf();
      streamId := if role == Listener then LISTENER_STREAM else 0;
      state, failed, finSent, finReceived, handshakeRetries, lastHandshake := Handshaking, false, false, false, 0, 0;
    }

    method SetDummySend(count: uint32, size: uint16)
      requires Valid()
      modifies snd`mediaMode, snd`remaining, snd`payloadSize
      ensures Valid() && View() == WithDummy(old(View()), count, size)
    {
      snd.mediaMode := false;
      snd.remaining := count;
      var atLeast := if size < 4 then 4 else size;
      snd.payloadSize := if atLeast > MAX_PAYLOAD then MAX_PAYLOAD else atLeast;
    }

    method SetMediaSend(source: MediaSource)
      requires Valid() && source.Valid() && source.isOpen
      modifies snd`mediaMode, snd`source, snd`remaining
      ensures Valid() && snd.source == source && View() == WithMedia(old(View()), source.State(), snd.tap.tapped)
    {
      snd.mediaMode := true;
      snd.source := source;
      snd.remaining := 0;
    }

    method SetMediaReceive()
      requires Valid()
      modifies rcv`hasSink
      ensures Valid() && View() == old(View()).(rcv := old(View()).rcv.(hasSink := true))
    {
      rcv.hasSink := true;
    }

    predicate IsComplete()
      requires Valid()
      reads this, snd, snd.rto, snd.rate, snd.tap, snd.source, rcv, rcv.jitter
      ensures IsComplete() == SessionSpec.IsComplete(View())
    {
      if failed || role != Initiator then false
      else if snd.mediaMode then
        state != Handshaking && snd.source != null && snd.source.eof && snd.inFlight == map[]
      else state != Handshaking && snd.remaining == 0 && snd.inFlight == map[]
    }

    method Start(now: Time) returns (out: seq<Packet>)
      requires Valid()
      modifies this`lastHandshake
      ensures Valid() && Reply(View(), out) == SessionSpec.Start(old(View()), now)
    {
      if role != Initiator {
        return [];
      }
      lastHandshake := now;
      out := [HandshakePacket(streamId, FLAG_SYN)];
    }

    method BeginClose()
      requires Valid()
      modifies this`state, this`finSent
      ensures Valid() && View() == SessionSpec.BeginClose(old(View()))
    {
      if finSent || state == Closed {
        return;
      }
      state := Closing;
      finSent := true;
    }

    method FillWindow(now: Time) returns (out: seq<Packet>)
      requires Valid()
      modifies snd, snd.rate, snd.tap, snd.source
      ensures Valid() && Reply(View(), out) == SessionSpec.FillWindow(old(View()), now)
    {
      if role != Initiator || state != Active {
        return [];
      }
      out := snd.Fill(streamId, now);
    }

    // ---------------------------------------------------------------- packets

    /** A new initiator: everything about the old one is forgotten. */
    method Restart(now: Time)
      requires Valid()
      modifies this, snd`nextSeq, snd`inFlight, rcv`nextExpected, rcv`reorder
      ensures Valid() && View() == Restarted(old(View()), now)
    {
      Reconnect(now);
      snd.Forget();
      rcv.Forget();
    }

    /** The connection as before any handshake. */
    method Reconnect(now: Time)
      modifies this
      ensures !failed && !finSent && !finReceived && handshakeRetries == 0
      ensures state == Handshaking && streamId == LISTENER_STREAM && lastHandshake == now
    {
      failed, finSent, finReceived, handshakeRetries := false, false, false, 0;
      state, streamId, lastHandshake := Handshaking, LISTENER_STREAM, now;
    }

    /** The peer is given up. */
    method Die()
      requires Valid()
      modifies this`failed, this`state
      ensures Valid() && View() == old(View()).(failed := true, state := Closed)
    {
      failed := true;
      state := Closed;
    }

    method OnSynAck(stream: uint32, now: Time) returns (out: seq<Packet>)
      requires Valid()
      modifies this`streamId, this`state, snd, snd.rate, snd.tap, snd.source
      ensures Valid() && Reply(View(), out) == SessionSpec.OnSynAck(old(View()), stream, now)
    {
      streamId := stream;
      out := [HandshakePacket(streamId, FLAG_ACK)];
      if state == Handshaking {
        state := Active;
        var data := FillWindow(now);
        out := out + data;
      }
    }

    method OnFin(f: byte) returns (out: seq<Packet>)
      requires Valid()
      modifies this`finReceived, this`state
      ensures Valid() && Reply(View(), out) == SessionSpec.OnFin(old(View()), f)
    {
      out := [];
      if HasAck(f) {
        finReceived := true;
        state := Closed;
      } else if !finReceived {
        finReceived := true;
        out := [HandshakePacket(streamId, FLAG_FIN + FLAG_ACK)];
        state := Closing;
      }
    }

    method OnHandshake(p: Packet, now: Time) returns (out: seq<Packet>)
      requires Valid()
      modifies this, snd, snd.rate, snd.tap, snd.source, rcv
      ensures Valid() && Reply(View(), out) == SessionSpec.OnHandshake(old(View()), p, now)
    {
      var f := p.header.flags;
      if role == Listener && IsSyn(f) {
        Restart(now);
        return [HandshakePacket(streamId, FLAG_SYN + FLAG_ACK)];
      }
      if role == Initiator && IsSynAck(f) {
        out := OnSynAck(p.header.streamId, now);
        return;
      }
      if role == Listener && IsPlainAck(f) && state == Handshaking {
        if p.header.streamId == streamId {
          state := Active;
        }
        return [];
      }
      if HasFin(f) {
        out := OnFin(f);
        return;
      }
      out := [];
    }

    method OnData(p: Packet, now: Time) returns (out: seq<Packet>)
      requires Valid()
      modifies this`state, rcv, rcv.jitter
      ensures Valid() && Reply(View(), out) == SessionSpec.OnData(old(View()), p, now)
    {
      if role == Listener && state == Handshaking {
        state := Active;
      }
      if state != Active && state != Closing {
        return [];
      }
      out := rcv.Receive(streamId, p, now);
    }

    method Proceed(now: Time) returns (out: seq<Packet>)
      requires Valid()
      modifies this`finSent, this`state, snd, snd.rate, snd.tap, snd.source
      ensures Valid() && Reply(View(), out) == SessionSpec.Proceed(old(View()), now)
    {
      if role == Initiator && IsComplete() && !finSent {
        finSent := true;
        state := Closing;
        out := [HandshakePacket(streamId, FLAG_FIN)];
      } else {
        out := FillWindow(now);
      }
    }

    method OnAck(p: Packet, now: Time) returns (out: seq<Packet>)
      requires Valid()
      modifies this`finSent, this`state, snd, snd.rto, snd.rate, snd.tap, snd.source
      ensures Valid() && Reply(View(), out) == SessionSpec.OnAck(old(View()), p, now)
    {
      snd.Settle(p.header.sequenceNumber, now);
      out := Proceed(now);
    }

    method OnPacket(p: Packet, now: Time) returns (out: seq<Packet>)
      requires Valid()
      modifies this, snd, snd.rto, snd.rate, snd.tap, snd.source, rcv, rcv.jitter
      ensures Valid() && Reply(View(), out) == SessionSpec.OnPacket(old(View()), p, now)
    {
      out := [];
      match p.header.packetType {
        case Handshake => out := OnHandshake(p, now);
        case Data => out := OnData(p, now);
        case Ack =>
          if state == Active || state == Closing {
            out := OnAck(p, now);
          }
        case Nack =>
          if state == Active || state == Closing {
            out := snd.Nudge(p.header.sequenceNumber, now);
          }
        case _ =>
      }
    }

    // ---------------------------------------------------------------- time

    method HandshakeTick(now: Time) returns (out: seq<Packet>)
      requires Valid()
      modifies this`handshakeRetries, this`failed, this`state, this`lastHandshake
      ensures Valid() && Reply(View(), out) == SessionSpec.HandshakeTick(old(View()), now)
    {
      out := [];
      if lastHandshake == 0 || !TimedOut(lastHandshake, now, Rto.Current(snd.rto.State())) {
        return;
      }
      handshakeRetries := handshakeRetries + 1;
      if handshakeRetries > MAX_RETRIES {
        Die();
        return;
      }
      lastHandshake := now;
      out := [HandshakePacket(streamId, if role == Initiator then FLAG_SYN else FLAG_SYN + FLAG_ACK)];
    }

    method Serve(now: Time) returns (out: seq<Packet>)
      requires Valid()
      modifies snd, snd.rate, snd.tap, snd.source, rcv.jitter
      ensures Valid() && Reply(View(), out) == SessionSpec.Serve(old(View()), now)
    {
      out := FillWindow(now);
      if role == Listener {
        rcv.DeliverFromJitter(now);
      }
    }

    method OpenTick(now: Time) returns (out: seq<Packet>)
      requires Valid()
      modifies this`failed, this`state, snd, snd.rate, snd.tap, snd.source, rcv.jitter
      ensures Valid() && Reply(View(), out) == SessionSpec.OpenTick(old(View()), now)
    {
      var dead;
      out, dead := snd.Scan(now, Rto.Current(snd.rto.State()));
      if dead {
        Die();
        return [];
      }
      var more := Serve(now);
      out := out + more;
    }

    method OnTick(now: Time) returns (out: seq<Packet>)
      requires Valid()
      modifies this, snd, snd.rate, snd.tap, snd.source, rcv.jitter
      ensures Valid() && Reply(View(), out) == SessionSpec.OnTick(old(View()), now)
    {
      out := [];
      snd.rate.OnTick(now);
      if state == Handshaking {
        out := HandshakeTick(now);
      } else if state == Active || state == Closing {
        out := OpenTick(now);
      }
    }
  }

  // ---------------------------------------------------------------- loops, step by step

  function Acknowledged(acks: seq<Packet>, q: ReceiveReply): ReceiveReply { ReceiveReply(q.r, acks + q.out) }

  lemma AcceptAllStep(r: Receiving, streamId: uint32, now: Time)
    requires r.nextExpected as int in r.reorder
    ensures AcceptAll(r, streamId, now) ==
      Acknowledged([AckPacket(streamId, r.nextExpected)], AcceptAll(Accept(r, now), streamId, now))
    ensures |Accept(r, now).reorder| < |r.reorder|
  {
    assert r.reorder.Keys == Accept(r, now).reorder.Keys + {r.nextExpected as int};
  }

  lemma AcknowledgedMore(acks: seq<Packet>, ack: Packet, q: ReceiveReply)
    ensures Acknowledged(acks, Acknowledged([ack], q)) == Acknowledged(acks + [ack], q)
  {
    Assoc(acks, [ack], q.out);
  }

  ghost function Visited(s: Sending, n: int, now: Time, rtoUs: int): Swept
    requires n in s.inFlight
  {
    var slot := s.inFlight[n];
    if !TimedOut(slot.lastSent, now, rtoUs) then Swept(s, [], false)
    else if slot.retries + 1 > MAX_RETRIES then Swept(Buried(s, n), [], true)
    else if ShouldRetransmit(s, slot, now) then Swept(Resent(s, n, now, slot.retries + 1), [slot.packet], false)
    else Swept(Dropped(s, n), [], false)
  }

  function SweptBehind(out: seq<Packet>, r: Swept): Swept { Swept(r.s, out + r.out, r.dead) }

  lemma SweepStep(s: Sending, todo: set<int>, now: Time, rtoUs: int)
    requires todo != {} && todo <= s.inFlight.Keys
    ensures var n := Least(todo); var v := Visited(s, n, now, rtoUs);
      if v.dead then Sweep(s, todo, now, rtoUs) == v
      else todo - {n} <= v.s.inFlight.Keys &&
           Sweep(s, todo, now, rtoUs) == SweptBehind(v.out, Sweep(v.s, todo - {n}, now, rtoUs))
  {
    var n := Least(todo);
    var v := Visited(s, n, now, rtoUs);
    if !v.dead {
      var r := Sweep(v.s, todo - {n}, now, rtoUs);
      assert [] + r.out == r.out;
    }
  }

  lemma SweptMore(out: seq<Packet>, more: seq<Packet>, r: Swept)
    ensures SweptBehind(out, SweptBehind(more, r)) == SweptBehind(out + more, r)
  {
    Assoc(out, more, r.out);
  }

  lemma FillMediaStarved(s: Sending, streamId: uint32, now: Time)
    requires s.source.Some? && MayTake(s, now) && Starved(Advance(s), NextChunk(s))
    ensures FillMedia(s, streamId, now) == SendReply(Advance(s), [])
  {
  }

  lemma FillMediaSent(s: Sending, streamId: uint32, now: Time)
    requires s.source.Some? && MayTake(s, now) && !Starved(Advance(s), NextChunk(s))
    ensures FillMedia(s, streamId, now) ==
      Behind([MediaPacket(s, streamId, NextChunk(s))], FillMedia(SendChunk(Advance(s), streamId, NextChunk(s), now), streamId, now))
  {
  }

  function Behind(out: seq<Packet>, r: SendReply): SendReply { SendReply(r.s, out + r.out) }

  lemma BehindMore(out: seq<Packet>, p: Packet, r: SendReply)
    ensures Behind(out, Behind([p], r)) == Behind(out + [p], r)
  {
    Assoc(out, [p], r.out);
  }

  lemma BehindNone(out: seq<Packet>, s: Sending)
    ensures Behind(out, SendReply(s, [])) == SendReply(s, out)
  {
    assert out + [] == out;
  }
}
