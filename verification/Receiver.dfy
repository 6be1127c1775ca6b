/** The receiving side: a reorder buffer that accepts each number once and delivers in order. */
module Receiver {
  import opened Wire
  import opened Clock
  import opened PacketCodec
  import opened SessionSpec
  import opened Sender

  /** `p` is what the wire makes of the packet first sent under number `k`. */
  ghost predicate Carries(p: Packet, sent: seq<Packet>, k: int) {
    0 <= k < |sent| && Fits(sent[k]) && p == Normalise(sent[k])
  }

  ghost predicate Delivered(d: seq<Packet>, sent: seq<Packet>) {
    forall k :: 0 <= k < |d| ==> Carries(d[k], sent, k)
  }

  /** Everything buffered is a packet of the sender, at or above `low` and below `high`. */
  ghost predicate Buffered(b: map<int, Packet>, sent: seq<Packet>, low: int, high: int) {
    forall k :: k in b ==> low <= k < high && Carries(b[k], sent, k)
  }

  /** Delivered are exactly the first `nextExpected` packets; buffered are later ones, all
      within the window. */
  ghost predicate ReceiverOk(r: Receiving, sent: seq<Packet>) {
    |r.delivered| == r.nextExpected && Delivered(r.delivered, sent) &&
    Buffered(r.reorder, sent, r.nextExpected + 1, r.nextExpected + SEND_WINDOW)
  }

  /** In the middle of a delivery the expected packet itself may be buffered. */
  ghost predicate ReceiverMid(r: Receiving, sent: seq<Packet>, high: int) {
    |r.delivered| == r.nextExpected && Delivered(r.delivered, sent) && |sent| < TWO_32 &&
    Buffered(r.reorder, sent, r.nextExpected, high) && high <= r.nextExpected + SEND_WINDOW
  }

  predicate Answers(p: Packet, next: int) {
    !IsData(p) && (p.header.packetType == Ack ==> p.header.sequenceNumber < next) &&
    (p.header.packetType == Nack ==> p.header.sequenceNumber <= next)
  }

  /** Feedback names only numbers already delivered, or the one expected. */
  ghost predicate Feedback(out: seq<Packet>, next: int) {
    forall k :: 0 <= k < |out| ==> Answers(out[k], next)
  }

  lemma DeliveredBound(d: seq<Packet>, sent: seq<Packet>)
    requires Delivered(d, sent)
    ensures |d| <= |sent|
  {
    if |d| > 0 { assert Carries(d[|d| - 1], sent, |d| - 1); }
  }

  lemma DeliveredSnoc(d: seq<Packet>, sent: seq<Packet>, p: Packet)
    requires Delivered(d, sent) && Carries(p, sent, |d|)
    ensures Delivered(d + [p], sent)
  {
  }

  lemma BufferedCut(b: map<int, Packet>, sent: seq<Packet>, low: int, high: int)
    requires Buffered(b, sent, low, high)
    ensures Buffered(b - {low}, sent, low + 1, high)
  {
    forall k | k in b - {low} ensures Carries((b - {low})[k], sent, k) {
      assert Carries(b[k], sent, k);
    }
  }

  lemma BufferedAdd(b: map<int, Packet>, sent: seq<Packet>, low: int, high: int, k: int, p: Packet)
    requires Buffered(b, sent, low, high) && low <= k < high && Carries(p, sent, k)
    ensures Buffered(b[k := p], sent, low, high)
  {
    var c := b[k := p];
    forall j | j in c ensures Carries(c[j], sent, j) {
      assert j != k ==> Carries(b[j], sent, j);
    }
  }

  lemma AcceptKeeps(r: Receiving, sent: seq<Packet>, high: int, now: Time)
    requires ReceiverMid(r, sent, high) && r.nextExpected as int in r.reorder
    ensures ReceiverMid(Accept(r, now), sent, high) && Accept(r, now).nextExpected == r.nextExpected + 1
  {
    var k: int := r.nextExpected;
    var p := r.reorder[k];
    assert Carries(p, sent, k);
    U32Small(k + 1);
    DeliveredSnoc(r.delivered, sent, p);
    BufferedCut(r.reorder, sent, k, high);
  }

  lemma FeedbackCons(p: Packet, out: seq<Packet>, next: int)
    requires Feedback(out, next) && p.header.packetType == Ack && p.header.sequenceNumber < next
    ensures Feedback([p] + out, next)
  {
  }

  lemma {:induction false} AcceptAllKeeps(r: Receiving, sent: seq<Packet>, high: int, streamId: uint32, now: Time)
    requires ReceiverMid(r, sent, high)
    ensures var q := AcceptAll(r, streamId, now);
      ReceiverMid(q.r, sent, high) && q.r.nextExpected as int !in q.r.reorder &&
      r.nextExpected <= q.r.nextExpected && Feedback(q.out, q.r.nextExpected)
    decreases |r.reorder|
  {
    if r.nextExpected as int in r.reorder {
      var a := Accept(r, now);
      AcceptKeeps(r, sent, high, now);
      assert r.reorder.Keys == a.reorder.Keys + {r.nextExpected as int};
      AcceptAllKeeps(a, sent, high, streamId, now);
      var q := AcceptAll(a, streamId, now);
      FeedbackCons(AckPacket(streamId, r.nextExpected), q.out, q.r.nextExpected);
    }
  }

  lemma MidIsOk(r: Receiving, sent: seq<Packet>, high: int)
    requires ReceiverMid(r, sent, high) && r.nextExpected as int !in r.reorder
    ensures ReceiverOk(r, sent)
  {
    forall k | k in r.reorder ensures r.nextExpected + 1 <= k < r.nextExpected + SEND_WINDOW && Carries(r.reorder[k], sent, k) {
      assert r.nextExpected <= k < high;
    }
  }

  /** A number the window admits lies less than eight above the expected one. */
  lemma WindowInRange(r: Receiving, s: uint32)
    requires r.nextExpected <= s && !BeyondWindow(r, s)
    ensures s < r.nextExpected + SEND_WINDOW
  {
    if r.nextExpected + SEND_WINDOW < TWO_32 { U32Small(r.nextExpected + SEND_WINDOW); }
  }

  lemma StoredKeeps(r: Receiving, sent: seq<Packet>, p: Packet)
    requires ReceiverOk(r, sent) && |sent| < TWO_32 && Carries(p, sent, p.header.sequenceNumber)
    requires r.nextExpected <= p.header.sequenceNumber && !BeyondWindow(r, p.header.sequenceNumber)
    ensures ReceiverMid(Stored(r, p), sent, r.nextExpected + SEND_WINDOW)
  {
    var low: int := r.nextExpected;
    WindowInRange(r, p.header.sequenceNumber);
    BufferedWider(r.reorder, sent, low + 1, low + SEND_WINDOW, low);
    BufferedAdd(r.reorder, sent, low, low + SEND_WINDOW, p.header.sequenceNumber, p);
  }

  lemma BufferedWider(b: map<int, Packet>, sent: seq<Packet>, low: int, high: int, lower: int)
    requires Buffered(b, sent, low, high) && lower <= low
    ensures Buffered(b, sent, lower, high)
  {
  }

  /** A data packet of the sender, at a receiver in good order. */
  lemma ReceiveKeeps(r: Receiving, sent: seq<Packet>, streamId: uint32, p: Packet, now: Time)
    requires ReceiverOk(r, sent) && |sent| < TWO_32 && Carries(p, sent, p.header.sequenceNumber)
    ensures var q := Receive(r, streamId, p, now);
      ReceiverOk(q.r, sent) && r.nextExpected <= q.r.nextExpected && Feedback(q.out, q.r.nextExpected)
  {
    var s := p.header.sequenceNumber;
    if r.nextExpected <= s && !BeyondWindow(r, s) {
      var t := Stored(r, p);
      StoredKeeps(r, sent, p);
      if s == r.nextExpected {
        var q := AcceptAll(t, streamId, now);
        AcceptAllKeeps(t, sent, r.nextExpected + SEND_WINDOW, streamId, now);
        MidIsOk(q.r, sent, r.nextExpected + SEND_WINDOW);
      } else {
        MidIsOk(t, sent, r.nextExpected + SEND_WINDOW);
      }
    }
  }

  /** A tick lets at most what is due out of the jitter buffer. */
  lemma OpenTickReceives(e: Endpoint, now: Time)
    ensures OpenTick(e, now).e.rcv == e.rcv || OpenTick(e, now).e.rcv == DrainJitter(e.rcv, now)
  {
  }

  lemma TickReceives(e: Endpoint, now: Time)
    ensures OnTick(e, now).e.rcv == e.rcv || OnTick(e, now).e.rcv == DrainJitter(e.rcv, now)
  {
    var t := e.(snd := Refill(e.snd, now));
    if Open(t) { OpenTickReceives(t, now); }
  }

  lemma ReceiverGrows(r: Receiving, sent: seq<Packet>, more: seq<Packet>)
    requires ReceiverOk(r, sent) && sent <= more
    ensures ReceiverOk(r, more)
  {
    forall k | 0 <= k < |r.delivered| ensures Carries(r.delivered[k], more, k) {
      assert Carries(r.delivered[k], sent, k);
    }
    forall k | k in r.reorder ensures Carries(r.reorder[k], more, k) {
      assert Carries(r.reorder[k], sent, k);
    }
  }
}
