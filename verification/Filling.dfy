/** What filling the window sends, said without the filling loops: how many packets, which, and what
    stays as it was. */
module Filling {
  import opened Wire
  import opened Clock
  import opened FrameCapture
  import opened Source
  import opened PacketCodec
  import opened SessionSpec
  import opened Sender
  import opened MediaTransfer
  import R = RateControl

  // ---------------------------------------------------------------- what stays

  /** From number `k` on the packets sent are in flight since `now`, and the slots before are as they were. */
  ghost predicate Joined(was: map<int, InFlight>, slots: map<int, InFlight>, k: int, sent: seq<Packet>, now: Time)
    requires 0 <= k
  {
    (forall n :: n in slots <==> n in was || k <= n < |sent|) && (forall n :: n in was ==> n < k && slots[n] == was[n]) &&
    forall n :: k <= n < |sent| ==> slots[n] == InFlight(sent[n], now, 0)
  }

  /** New packets only; timer, counters and rate are untouched. */
  ghost predicate Adds(s: Sending, t: Sending, out: seq<Packet>, now: Time) {
    t.sent == s.sent + out && Joined(s.inFlight, t.inFlight, |s.sent|, t.sent, now) && t.nextSeq == |t.sent| &&
    t.dataSent == s.dataSent + |out| && Counted(s, t) && SameRate(s.rate, t.rate)
  }

  /** Mode, timer and the counters of feedback are the same. */
  predicate Counted(s: Sending, t: Sending) {
    t.mediaMode == s.mediaMode && t.payloadSize == s.payloadSize && t.rto == s.rto && t.acked == s.acked &&
    t.retransmits == s.retransmits && t.deadlineDrops == s.deadlineDrops
  }

  /** The same but for tokens and what was consumed. */
  predicate SameRate(a: R.RateState, b: R.RateState) {
    b == a.(tokens := b.tokens, consumed := b.consumed)
  }

  lemma AddsNothing(s: Sending, t: Sending, now: Time)
    requires SenderOk(s) && t == s.(source := t.source)
    ensures Adds(s, t, [], now)
  {
  }

  lemma JoinsOne(was: map<int, InFlight>, slots: map<int, InFlight>, k: nat, sent: seq<Packet>, now: Time)
    requires k < |sent| && (forall n :: n in was ==> n < k)
    requires Joined(Launch(was, k, sent[k], now), slots, k + 1, sent, now)
    ensures Joined(was, slots, k, sent, now)
  {
    var mid := Launch(was, k, sent[k], now);
    assert k in mid && mid[k] == InFlight(sent[k], now, 0);
    forall n | n in was ensures slots[n] == was[n] {
      assert n in mid && mid[n] == was[n];
    }
    forall n ensures n in slots <==> n in was || k <= n < |sent| {
      assert n in mid <==> n in was || n == k;
    }
  }

  /** One packet more in front. */
  lemma AddsOne(s: Sending, t: Sending, u: Sending, p: Packet, out: seq<Packet>, now: Time)
    requires Slots(s.sent, s.inFlight) && Adds(t, u, out, now)
    requires t.sent == s.sent + [p] && t.inFlight == Launch(s.inFlight, |s.sent|, p, now) && t.dataSent == s.dataSent + 1
    requires Counted(s, t) && SameRate(s.rate, t.rate)
    ensures Adds(s, u, [p] + out, now)
  {
    Assoc(s.sent, [p], out);
    assert u.sent[|s.sent|] == p;
    JoinsOne(s.inFlight, u.inFlight, |s.sent|, u.sent, now);
  }

  lemma {:induction false} FillDummyAdds(s: Sending, streamId: uint32, now: Time)
    requires SenderOk(s) && !s.mediaMode
    ensures var r := FillDummy(s, streamId, now); Adds(s, r.s, r.out, now)
    decreases s.remaining
  {
    if |s.inFlight| < SEND_WINDOW && s.remaining > 0 {
      var t, r := SendDummy(s, streamId, now), FillDummy(SendDummy(s, streamId, now), streamId, now);
      SendDummyKeeps(s, streamId, now);
      FillDummyAdds(t, streamId, now);
      AddsOne(s, t, r.s, DummyPacket(s, streamId, now), r.out, now);
    } else {
      AddsNothing(s, s, now);
    }
  }

  lemma {:induction false} FillMediaAdds(s: Sending, streamId: uint32, now: Time)
    requires SenderOk(s) && s.mediaMode
    ensures var r := FillMedia(s, streamId, now); Adds(s, r.s, r.out, now)
    decreases |s.source.value.pending| - s.source.value.cursor
  {
    if !MayTake(s, now) {
      AddsNothing(s, s, now);
    } else {
      var a, c := Advance(s), NextChunk(s);
      AdvanceKeeps(s);
      if Starved(a, c) {
        AddsNothing(s, a, now);
      } else {
        var t := SendChunk(a, streamId, c, now);
        SendChunkKeeps(a, streamId, c, now);
        FillMediaAdds(t, streamId, now);
        AddsOne(s, t, FillMedia(t, streamId, now).s, MediaPacket(a, streamId, c), FillMedia(t, streamId, now).out, now);
      }
    }
  }

  /** The whole filling of an active initiator: beyond that the bucket is refilled. */
  lemma FillWindowAdds(e: Endpoint, now: Time)
    requires SenderOk(e.snd) && e.role == Initiator && e.state == Active
    ensures var r := FillWindow(e, now); Adds(Refill(e.snd, now), r.e.snd, r.out, now) && r.e == e.(snd := r.e.snd)
  {
    var t := Refill(e.snd, now);
    Retuned(e.snd, t);
    if t.mediaMode {
      FillMediaAdds(t, e.streamId, now);
    } else {
      FillDummyAdds(t, e.streamId, now);
    }
  }

  // ---------------------------------------------------------------- dummy packets

  /** The dummy packet of number `n`: its payload is the number, most significant byte first, and
      filler. */
  predicate IsDummy(p: Packet, n: int, size: nat, streamId: uint32, now: Time) {
    p.header.packetType == Data && p.header.frameType == Control && p.header.flags == 0 &&
    p.header.streamId == streamId && p.header.sequenceNumber == n && p.header.timestampUs == now / 1000 &&
    |p.payload| == size && (forall i :: 4 <= i < size ==> p.payload[i] == 0xA5) &&
    (size >= 4 ==> Word32(p.payload[0], p.payload[1], p.payload[2], p.payload[3]) == n)
  }

  lemma DummyIs(s: Sending, streamId: uint32, now: Time)
    ensures IsDummy(DummyPacket(s, streamId, now), s.nextSeq, s.payloadSize, streamId, now)
  {
    var v := s.nextSeq;
    assert v / 0x100 == v / 0x1_0000 * 0x100 + v / 0x100 % 0x100;
    assert v / 0x1_0000 == v / 0x100_0000 * 0x100 + v / 0x1_0000 % 0x100;
  }

  function Lesser(a: nat, b: nat): nat { if a < b then a else b }

  function Room(s: Sending): nat { if |s.inFlight| < 8 then 8 - |s.inFlight| else 0 }

  /** As many dummy packets as the window has room for and are left, under consecutive numbers. */
  ghost predicate SendsDummies(s: Sending, t: Sending, out: seq<Packet>, streamId: uint32, now: Time) {
    |out| == Lesser(Room(s), s.remaining) && t.remaining == s.remaining - |out| &&
    forall k :: 0 <= k < |out| ==> IsDummy(out[k], |s.sent| + k, s.payloadSize, streamId, now)
  }

  lemma DummiesMore(s: Sending, t: Sending, u: Sending, p: Packet, out: seq<Packet>, streamId: uint32, now: Time)
    requires s.remaining > 0 && |s.inFlight| < 8 && |t.inFlight| == |s.inFlight| + 1 && t.remaining == s.remaining - 1
    requires |t.sent| == |s.sent| + 1 && t.payloadSize == s.payloadSize
    requires IsDummy(p, |s.sent|, s.payloadSize, streamId, now) && SendsDummies(t, u, out, streamId, now)
    ensures SendsDummies(s, u, [p] + out, streamId, now)
  {
    forall k | 0 <= k < |[p] + out| ensures IsDummy(([p] + out)[k], |s.sent| + k, s.payloadSize, streamId, now) {
      if k > 0 { assert ([p] + out)[k] == out[k - 1]; }
    }
  }

  lemma {:induction false} FillDummySends(s: Sending, streamId: uint32, now: Time)
    requires SenderOk(s) && !s.mediaMode
    ensures var r := FillDummy(s, streamId, now); SendsDummies(s, r.s, r.out, streamId, now)
    decreases s.remaining
  {
    if |s.inFlight| < SEND_WINDOW && s.remaining > 0 {
      var t := SendDummy(s, streamId, now);
      SendDummyKeeps(s, streamId, now);
      LaunchKeeps(s.sent, s.inFlight, DummyPacket(s, streamId, now), now);
      FillDummySends(t, streamId, now);
      DummyIs(s, streamId, now);
      DummiesMore(s, t, FillDummy(t, streamId, now).s, DummyPacket(s, streamId, now), FillDummy(t, streamId, now).out,
                  streamId, now);
    }
  }

  /** An active initiator of dummy packets fills its window. */
  lemma DummyWindow(e: Endpoint, now: Time)
    requires SenderOk(e.snd) && !e.snd.mediaMode && e.role == Initiator && e.state == Active
    ensures var r := FillWindow(e, now); SendsDummies(e.snd, r.e.snd, r.out, e.streamId, now)
  {
    Retuned(e.snd, Refill(e.snd, now));
    FillDummySends(Refill(e.snd, now), e.streamId, now);
  }

  // ---------------------------------------------------------------- chunks

  /** The packet of a chunk, under number `n`. */
  predicate IsChunk(p: Packet, c: MediaChunk, n: int, streamId: uint32) {
    p.header.packetType == Data && p.header.frameType == c.frameType && p.header.flags == 0 &&
    p.header.streamId == streamId && p.header.sequenceNumber == n && p.header.timestampUs == c.ptsUs &&
    p.payload == c.payload
  }

  function WireTotal(q: seq<MediaChunk>): nat { if q == [] then 0 else 32 + |q[0].payload| + WireTotal(q[1..]) }

  /** The stream clock: it starts with the first chunk. */
  function StartAt(s: Sending, now: Time): int { if s.streamStartSet then s.streamStartUs else now / 1000 }

  /** A chunk is due at most 250 ms ahead of the stream clock, and the first one at once. */
  predicate DueBy(s: Sending, c: MediaChunk, first: bool, now: Time) {
    (first && !s.streamStartSet) || c.ptsUs <= now / 1000 - StartAt(s, now) + 250_000
  }

  /** The chunks `q` go out, in order, each of them due and all paid for. */
  ghost predicate SendsChunks(s: Sending, t: Sending, q: seq<MediaChunk>, out: seq<Packet>, streamId: uint32, now: Time) {
    |out| == |q| <= Room(s) && t.rate.tokens == s.rate.tokens - WireTotal(q) as real >= 0.0 &&
    (forall k :: 0 <= k < |q| ==> IsChunk(out[k], q[k], |s.sent| + k, streamId) && DueBy(s, q[k], k == 0, now)) &&
    (if q == [] then t.streamStartSet == s.streamStartSet && t.streamStartUs == s.streamStartUs
     else t.streamStartSet && t.streamStartUs == StartAt(s, now))
  }

  /** Why no more goes out: the window is full, the source at its end, the next chunk not due yet, or
      the next chunk is taken and lost because the tokens left do not pay for it. */
  ghost predicate StopsAt(s: Sending, t: Sending, q: seq<MediaChunk>, c: nat, now: Time)
    requires s.source.Some? && t.source.Some?
  {
    var all := s.source.value.pending;
    c <= |all| && t.source.value.pending == all &&
    if t.source.value.cursor == c then |q| == Room(s) || c == |all| || !DueBy(s, all[c], q == [], now)
    else
      t.source.value.cursor == c + 1 <= |all| && t.rate.tokens < (32 + |all[c].payload|) as real &&
      |q| < Room(s) && DueBy(s, all[c], q == [], now)
  }

  /** A filling of a stream up to chunk `k`, said in full. */
  ghost predicate StreamsTo(s: Sending, t: Sending, k: nat, out: seq<Packet>, streamId: uint32, now: Time)
    requires s.source.Some? && t.source.Some?
  {
    var c, all := s.source.value.cursor, s.source.value.pending;
    c <= k <= |all| && SendsChunks(s, t, all[c..k], out, streamId, now) && StopsAt(s, t, all[c..k], k, now)
  }

  ghost predicate Streams(s: Sending, t: Sending, out: seq<Packet>, streamId: uint32, now: Time)
    requires s.source.Some? && t.source.Some?
  {
    StreamsTo(s, t, s.source.value.cursor + |out|, out, streamId, now)
  }

  lemma MayTakeIff(s: Sending, now: Time)
    requires s.source.Some? && (s.streamStartSet ==> s.streamStartUs <= now / 1000)
    ensures var q := s.source.value;
      MayTake(s, now) <==> Room(s) > 0 && q.cursor < |q.pending| && DueBy(s, q.pending[q.cursor], true, now)
  {
  }

  lemma StarvedIff(s: Sending, c: MediaChunk)
    ensures Starved(s, c) <==> s.rate.tokens < (32 + |c.payload|) as real
  {
  }

  /** Once the clock runs nothing goes out for being the first. */
  lemma DueLater(s: Sending, t: Sending, c: MediaChunk, first: bool, now: Time)
    requires t.streamStartSet && t.streamStartUs == StartAt(s, now)
    ensures DueBy(t, c, first, now) <==> DueBy(s, c, false, now)
  {
  }

  /** The sender after one chunk more. */
  ghost predicate OneSent(s: Sending, t: Sending, c: MediaChunk, p: Packet, streamId: uint32, now: Time) {
    |t.sent| == |s.sent| + 1 && Room(s) == Room(t) + 1 && t.streamStartSet && t.streamStartUs == StartAt(s, now) &&
    IsChunk(p, c, |s.sent|, streamId) && DueBy(s, c, true, now) &&
    t.rate.tokens == s.rate.tokens - (32 + |c.payload|) as real
  }

  lemma SendsMore(s: Sending, t: Sending, u: Sending, c: MediaChunk, q: seq<MediaChunk>, p: Packet, out: seq<Packet>,
                  streamId: uint32, now: Time)
    requires OneSent(s, t, c, p, streamId, now) && SendsChunks(t, u, q, out, streamId, now)
    ensures SendsChunks(s, u, [c] + q, [p] + out, streamId, now)
  {
    var r := [c] + q;
    assert r[1..] == q;
    forall k | 0 <= k < |r| ensures IsChunk(([p] + out)[k], r[k], |s.sent| + k, streamId) && DueBy(s, r[k], k == 0, now) {
      if k > 0 {
        assert ([p] + out)[k] == out[k - 1] && r[k] == q[k - 1];
        DueLater(s, t, q[k - 1], k - 1 == 0, now);
      }
    }
  }

  lemma StopsMore(s: Sending, t: Sending, u: Sending, q: seq<MediaChunk>, x: MediaChunk, c: nat, now: Time)
    requires s.source.Some? && t.source.Some? && u.source.Some? && t.source.value.pending == s.source.value.pending
    requires t.streamStartSet && t.streamStartUs == StartAt(s, now) && Room(s) == Room(t) + 1
    requires StopsAt(t, u, q, c, now)
    ensures StopsAt(s, u, [x] + q, c, now)
  {
    if c < |s.source.value.pending| { DueLater(s, t, s.source.value.pending[c], q == [], now); }
  }

  lemma FrontSlice(all: seq<MediaChunk>, c: nat, k: nat)
    requires c < k <= |all|
    ensures all[c..k] == [all[c]] + all[c + 1..k]
  {
  }

  /** A chunk in front of the rest. */
  lemma ChunkMore(s: Sending, t: Sending, u: Sending, c: MediaChunk, k: nat, p: Packet, out: seq<Packet>, streamId: uint32,
                  now: Time)
    requires s.source.Some? && t.source.Some? && u.source.Some? && s.source.value.cursor < |s.source.value.pending|
    requires t.source.value.pending == s.source.value.pending && t.source.value.cursor == s.source.value.cursor + 1
    requires c == s.source.value.pending[s.source.value.cursor] && OneSent(s, t, c, p, streamId, now)
    requires StreamsTo(t, u, k, out, streamId, now)
    ensures StreamsTo(s, u, k, [p] + out, streamId, now)
  {
    var all, i := s.source.value.pending, s.source.value.cursor;
    FrontSlice(all, i, k);
    SendsMore(s, t, u, c, all[i + 1..k], p, out, streamId, now);
    StopsMore(s, t, u, all[i + 1..k], c, k, now);
  }

  lemma StreamsMore(s: Sending, t: Sending, u: Sending, c: MediaChunk, p: Packet, out: seq<Packet>, streamId: uint32,
                    now: Time)
    requires s.source.Some? && t.source.Some? && u.source.Some? && s.source.value.cursor < |s.source.value.pending|
    requires t.source.value.pending == s.source.value.pending && t.source.value.cursor == s.source.value.cursor + 1
    requires c == s.source.value.pending[s.source.value.cursor] && OneSent(s, t, c, p, streamId, now)
    requires Streams(t, u, out, streamId, now)
    ensures Streams(s, u, [p] + out, streamId, now)
  {
    ChunkMore(s, t, u, c, t.source.value.cursor + |out|, p, out, streamId, now);
    assert t.source.value.cursor + |out| == s.source.value.cursor + |[p] + out|;
  }

  /** Nothing goes out: nothing may be taken, or the one chunk taken is lost. */
  lemma NothingSent(s: Sending, t: Sending, streamId: uint32, now: Time)
    requires s.source.Some? && s.rate.tokens >= 0.0 && (s.streamStartSet ==> s.streamStartUs <= now / 1000)
    requires (t == s && !MayTake(s, now)) || (MayTake(s, now) && t == Advance(s) && Starved(t, NextChunk(s)))
    ensures Streams(s, t, [], streamId, now)
  {
    var c, all := s.source.value.cursor, s.source.value.pending;
    assert all[c..c + 0] == [];
    MayTakeIff(s, now);
    if t != s { StarvedIff(t, NextChunk(s)); }
  }

  lemma ChunkSent(s: Sending, streamId: uint32, now: Time)
    requires SenderOk(s) && s.mediaMode && MayTake(s, now) && !Starved(Advance(s), NextChunk(s))
    requires s.streamStartSet ==> s.streamStartUs <= now / 1000
    ensures var t := SendChunk(Advance(s), streamId, NextChunk(s), now);
      OneSent(s, t, NextChunk(s), MediaPacket(Advance(s), streamId, NextChunk(s)), streamId, now) &&
      t.rate.tokens >= 0.0
  {
    var c := NextChunk(s);
    MayTakeIff(s, now);
    StarvedIff(Advance(s), c);
    AdvanceKeeps(s);
    LaunchKeeps(s.sent, s.inFlight, MediaPacket(Advance(s), streamId, c), now);
  }

  lemma {:induction false} FillMediaStreams(s: Sending, streamId: uint32, now: Time)
    requires SenderOk(s) && s.mediaMode && s.rate.tokens >= 0.0 && (s.streamStartSet ==> s.streamStartUs <= now / 1000)
    ensures var r := FillMedia(s, streamId, now); Streams(s, r.s, r.out, streamId, now)
    decreases |s.source.value.pending| - s.source.value.cursor
  {
    if MayTake(s, now) && !Starved(Advance(s), NextChunk(s)) {
      var a, c := Advance(s), NextChunk(s);
      var t := SendChunk(a, streamId, c, now);
      AdvanceKeeps(s);
      SendChunkKeeps(a, streamId, c, now);
      ChunkSent(s, streamId, now);
      FillMediaStreams(t, streamId, now);
      StreamsMore(s, t, FillMedia(t, streamId, now).s, c, MediaPacket(a, streamId, c), FillMedia(t, streamId, now).out,
                  streamId, now);
    } else {
      NothingSent(s, FillMedia(s, streamId, now).s, streamId, now);
    }
  }

  lemma FlushStreams(s: Sending, t: Sending, out: seq<Packet>, streamId: uint32, now: Time)
    requires s.source.Some? && t.source.Some? && Streams(s, t, out, streamId, now)
    ensures Streams(s, FlushAtEof(t), out, streamId, now)
  {
  }

  lemma MediaWindowIs(e: Endpoint, now: Time)
    requires e.role == Initiator && e.state == Active && e.snd.mediaMode && e.snd.source.Some?
    ensures var r := FillMedia(Refill(e.snd, now), e.streamId, now);
      FillWindow(e, now).e.snd == FlushAtEof(r.s) && FillWindow(e, now).out == r.out
  {
  }

  /** An active initiator of a stream fills its window from the refilled bucket. */
  lemma MediaWindow(e: Endpoint, now: Time)
    requires SenderOk(e.snd) && e.snd.mediaMode && e.role == Initiator && e.state == Active
    requires Timely(e.snd, now)
    ensures var r := FillWindow(e, now);
      r.e.snd.source.Some? && Streams(Refill(e.snd, now), r.e.snd, r.out, e.streamId, now)
  {
    var t := Refill(e.snd, now);
    var r := FillMedia(t, e.streamId, now);
    Retuned(e.snd, t);
    RefillTimely(e.snd, now);
    FillMediaStreams(t, e.streamId, now);
    FlushStreams(t, r.s, r.out, e.streamId, now);
    MediaWindowIs(e, now);
  }

  // ---------------------------------------------------------------- nothing more could go out

  /** Neither clock is ahead of `now`, and the bucket is not overdrawn. */
  predicate Timely(s: Sending, now: Time) {
    (s.streamStartSet ==> s.streamStartUs <= now / 1000) && s.rate.lastRefill <= now && s.rate.tokens >= 0.0 &&
    s.rate.rateBps >= 0
  }

  lemma RefillTimely(s: Sending, now: Time)
    requires Timely(s, now)
    ensures Timely(Refill(s, now), now)
  {
    NotNegative(s.rate.rateBps as real / 8_000_000.0, UsBetween(s.rate.lastRefill, now) as real);
  }

  lemma NotNegative(a: real, b: real)
    requires 0.0 <= a && 0.0 <= b
    ensures 0.0 <= R.Worth(a, b)
  {
  }

  /** The window is full or nothing is left to send; or, for a stream, the next chunk is not due, or the
      tokens did not pay for the last one. */
  predicate Full(s: Sending, now: Time) {
    |s.inFlight| >= 8 ||
    if s.mediaMode && s.source.Some? then
      var c, all := s.source.value.cursor, s.source.value.pending;
      c == |all| || !DueBy(s, all[c], true, now) || (c > 0 && s.rate.tokens < (32 + |all[c - 1].payload|) as real)
    else s.remaining == 0
  }

  lemma {:induction false} DummiesFill(s: Sending, streamId: uint32, now: Time)
    requires SenderOk(s) && !s.mediaMode
    ensures Full(FillDummy(s, streamId, now).s, now)
    decreases s.remaining
  {
    if |s.inFlight| < SEND_WINDOW && s.remaining > 0 {
      SendDummyKeeps(s, streamId, now);
      FillDummyAdds(s, streamId, now);
      DummiesFill(SendDummy(s, streamId, now), streamId, now);
    }
  }

  lemma {:induction false} ChunksFill(s: Sending, streamId: uint32, now: Time)
    requires SenderOk(s) && s.mediaMode && Timely(s, now)
    ensures Full(FillMedia(s, streamId, now).s, now)
    decreases |s.source.value.pending| - s.source.value.cursor
  {
    MayTakeIff(s, now);
    if MayTake(s, now) {
      var a, c := Advance(s), NextChunk(s);
      StarvedIff(a, c);
      if !Starved(a, c) {
        AdvanceKeeps(s);
        SendChunkKeeps(a, streamId, c, now);
        ChunkSent(s, streamId, now);
        ChunksFill(SendChunk(a, streamId, c, now), streamId, now);
      }
    }
  }

  /** An active initiator sends until no more can go out, any other sends nothing. */
  lemma WindowFilled(e: Endpoint, now: Time)
    requires SenderOk(e.snd) && e.role == Initiator && Timely(e.snd, now)
    ensures if e.state == Active then Full(FillWindow(e, now).e.snd, now) else FillWindow(e, now) == Reply(e, [])
  {
    if e.state == Active {
      var t := Refill(e.snd, now);
      Retuned(e.snd, t);
      RefillTimely(e.snd, now);
      if t.mediaMode {
        ChunksFill(t, e.streamId, now);
        MediaWindowIs(e, now);
      } else {
        DummiesFill(t, e.streamId, now);
      }
    }
  }

  /** An open initiator sends on: no more could go out then, or it is closing and sends nothing. */
  lemma SendsOn(a: Endpoint, now: Time)
    requires SenderOk(a.snd) && a.role == Initiator && Open(a)
    ensures var r := FillWindow(a, now);
      r.e == a.(snd := r.e.snd) && a.snd.sent <= r.e.snd.sent && r.out == r.e.snd.sent[|a.snd.sent|..] &&
      (Timely(a.snd, now) ==> if a.state == Active then Full(r.e.snd, now) else r.out == [])
  {
    if Timely(a.snd, now) { WindowFilled(a, now); }
    if a.state == Active { FillWindowAdds(a, now); }
  }
}
