/** What a listener does with data, said without its delivery loop, and how a gap is repaired: the
    negative acknowledgement it causes brings the missing packet back. */
module GapRepair {
  import opened Wire
  import opened Clock
  import opened PacketCodec
  import opened SessionSpec
  import opened Sender
  import opened Receiver
  import opened Network
  import opened Reliability
  import opened Termination
  import opened Completion
  import opened Feedback
  import Deliverable
  import Jitter

  // ---------------------------------------------------------------- data above, below and beyond

  /** An open session, and a listener still in its handshake, which data opens. */
  predicate Attends(e: Endpoint) {
    e.state == Active || e.state == Closing || (e.role == Listener && e.state == Handshaking)
  }

  function Opened(e: Endpoint): Endpoint { if e.state == Handshaking then e.(state := Active) else e }

  /** An acknowledgement, positive or negative, of number `n`. */
  predicate Replies(p: Packet, t: PacketType, streamId: uint32, n: int) {
    p.header.packetType == t && p.header.frameType == Control && p.header.flags == 0 && p.header.streamId == streamId &&
    p.header.sequenceNumber == n && p.header.timestampUs == 0 && p.payload == []
  }

  lemma GapReceived(r: Receiving, streamId: uint32, p: Packet, now: Time)
    requires r.nextExpected < p.header.sequenceNumber < r.nextExpected + 8 && r.nextExpected + 8 < TWO_32
    ensures var n := p.header.sequenceNumber as int;
      Receive(r, streamId, p, now) ==
      ReceiveReply(r.(nacksSent := r.nacksSent + 1, reorder := if n in r.reorder then r.reorder else r.reorder[n := p]),
                   [NackPacket(streamId, r.nextExpected)])
  {
    U32Small(r.nextExpected + SEND_WINDOW);
  }

  lemma DataReceived(e: Endpoint, p: Packet, now: Time)
    requires Attends(e) && IsData(p)
    ensures var q := Receive(e.rcv, e.streamId, p, now); OnPacket(e, p, now) == Reply(Opened(e).(rcv := q.r), q.out)
  {
  }

  lemma NackIs(streamId: uint32, n: uint32)
    ensures Replies(NackPacket(streamId, n), Nack, streamId, n) && Replies(AckPacket(streamId, n), Ack, streamId, n)
  {
  }

  /** Data in the window but not expected: it is kept, unless its number is held already, and the
      expected number is asked for. */
  lemma GapReported(e: Endpoint, p: Packet, now: Time)
    requires Attends(e) && IsData(p) && e.rcv.nextExpected < p.header.sequenceNumber < e.rcv.nextExpected + 8
    requires e.rcv.nextExpected + 8 < TWO_32
    ensures var r, n := OnPacket(e, p, now), p.header.sequenceNumber as int;
      r.out == [NackPacket(e.streamId, e.rcv.nextExpected)] && Replies(r.out[0], Nack, e.streamId, e.rcv.nextExpected) &&
      r.e == Opened(e).(rcv := e.rcv.(nacksSent := e.rcv.nacksSent + 1,
                                      reorder := if n in e.rcv.reorder then e.rcv.reorder else e.rcv.reorder[n := p]))
  {
    GapReceived(e.rcv, e.streamId, p, now);
    DataReceived(e, p, now);
    NackIs(e.streamId, e.rcv.nextExpected);
  }

  /** Data beyond the window is not kept, and the expected number is asked for. */
  lemma BeyondReported(e: Endpoint, p: Packet, now: Time)
    requires Attends(e) && IsData(p) && p.header.sequenceNumber >= e.rcv.nextExpected + 8
    ensures var r := OnPacket(e, p, now);
      r.out == [NackPacket(e.streamId, e.rcv.nextExpected)] &&
      r.e == Opened(e).(rcv := e.rcv.(nacksSent := e.rcv.nacksSent + 1))
  {
    U32Small(e.rcv.nextExpected + SEND_WINDOW);
  }

  /** Data delivered already is acknowledged once more. */
  lemma OldAcknowledged(e: Endpoint, p: Packet, now: Time)
    requires Attends(e) && IsData(p) && p.header.sequenceNumber < e.rcv.nextExpected
    ensures var r := OnPacket(e, p, now);
      r == Reply(Opened(e), [AckPacket(e.streamId, p.header.sequenceNumber)]) &&
      Replies(r.out[0], Ack, e.streamId, p.header.sequenceNumber)
  {
  }

  /** A closed session, and an initiator in its handshake, ignore data. */
  lemma DataIgnored(e: Endpoint, p: Packet, now: Time)
    requires !Attends(e) && IsData(p)
    ensures OnPacket(e, p, now) == Reply(e, [])
  {
  }

  // ---------------------------------------------------------------- the expected packet

  /** The packets `d` are delivered: numbers `next`, `next` + 1, ... as they are held, up to the first
      that is missing. */
  ghost predicate Run(r: Receiving, d: seq<Packet>) {
    (forall k :: 0 <= k < |d| ==> HeldAs(r, k, d[k])) && r.nextExpected + |d| !in r.reorder
  }

  /** The packet is held `k` numbers above the expected one. */
  predicate HeldAs(r: Receiving, k: nat, p: Packet) {
    r.nextExpected + k in r.reorder && p == r.reorder[r.nextExpected + k]
  }

  function Payload(d: seq<Packet>): seq<byte> { if d == [] then [] else d[0].payload + Payload(d[1..]) }

  /** What the jitter buffer is told of one packet, and of all. */
  function OneArrival(next: uint32, p: Packet, now: Time): Jitter.Buffered {
    Jitter.Buffered(next, now / 1000, |p.payload| % 0x1_0000,
                    if p.header.frameType == Keyframe || p.header.frameType == Audio then 1 else 0)
  }

  function Arrivals(next: int, d: seq<Packet>, now: Time): (a: seq<Jitter.Buffered>)
    requires 0 <= next && next + |d| <= TWO_32
    decreases |d|
  {
    if d == [] then [] else [OneArrival(next, d[0], now)] + Arrivals(next + 1, d[1..], now)
  }

  /** The receiver once they are delivered. */
  ghost predicate Took(r: Receiving, q: Receiving, d: seq<Packet>, now: Time)
    requires r.nextExpected + |d| < TWO_32
  {
    q == r.(nextExpected := r.nextExpected + |d|, delivered := r.delivered + d, dataReceived := r.dataReceived + |d|,
            sink := if r.hasSink then r.sink + Payload(d) else r.sink, reorder := q.reorder,
            jitter := Jitter.Pushes(r.jitter, Arrivals(r.nextExpected, d, now))) &&
    forall n :: (n in q.reorder <==> n in r.reorder && !(r.nextExpected <= n < r.nextExpected + |d|)) &&
      (n in q.reorder ==> q.reorder[n] == r.reorder[n])
  }

  /** Each is acknowledged, in order. */
  ghost predicate AcksAll(out: seq<Packet>, next: int, count: nat, streamId: uint32) {
    |out| == count && forall k :: 0 <= k < count ==> Replies(out[k], Ack, streamId, next + k)
  }

  /** One packet taken. */
  lemma TakesOne(r: Receiving, now: Time)
    requires r.nextExpected as int in r.reorder && r.nextExpected + 1 < TWO_32
    ensures Took(r, Accept(r, now), [r.reorder[r.nextExpected as int]], now)
  {
    var p := r.reorder[r.nextExpected as int];
    U32Small(r.nextExpected + 1);
    assert [p][1..] == [];
    assert Payload([p]) == p.payload;
    assert Arrivals(r.nextExpected, [p], now) == [Arrival(r, p, now)];
  }

  lemma {:induction false} PayloadJoin(a: seq<Packet>, b: seq<Packet>)
    ensures Payload(a + b) == Payload(a) + Payload(b)
  {
    if a == [] {
      assert a + b == b;
    } else {
      assert (a + b)[1..] == a[1..] + b;
      PayloadJoin(a[1..], b);
      Assoc(a[0].payload, Payload(a[1..]), Payload(b));
    }
  }

  /** One taken and then the others. */
  lemma TookMore(r: Receiving, a: Receiving, q: Receiving, p: Packet, d: seq<Packet>, now: Time)
    requires r.nextExpected + 1 + |d| < TWO_32 && Took(r, a, [p], now) && Took(a, q, d, now)
    ensures Took(r, q, [p] + d, now)
  {
    PayloadJoin([p], d);
    Assoc(r.sink, Payload([p]), Payload(d));
    Assoc(r.delivered, [p], d);
    assert ([p] + d)[1..] == d;
    ArrivalsMore(r, p, d, now);
  }

  lemma PushesMore(j: Jitter.JitterState, a: Jitter.Buffered, rest: seq<Jitter.Buffered>)
    ensures Jitter.Pushes(j, [a] + rest) == Jitter.Pushes(Jitter.Pushes(j, [a]), rest)
  {
    assert ([a] + rest)[1..] == rest && [a][1..] == [];
    assert Jitter.Pushes(j, [a]) == Jitter.AfterPush(j, a);
  }

  lemma ArrivalsFront(next: uint32, p: Packet, d: seq<Packet>, now: Time)
    requires next + 1 + |d| < TWO_32
    ensures Arrivals(next, [p] + d, now) == [OneArrival(next, p, now)] + Arrivals(next + 1, d, now)
    ensures Arrivals(next, [p], now) == [OneArrival(next, p, now)]
  {
    assert ([p] + d)[1..] == d && [p][1..] == [];
  }

  lemma ArrivalsMore(r: Receiving, p: Packet, d: seq<Packet>, now: Time)
    requires r.nextExpected + 1 + |d| < TWO_32
    ensures Jitter.Pushes(r.jitter, Arrivals(r.nextExpected, [p] + d, now)) ==
      Jitter.Pushes(Jitter.Pushes(r.jitter, Arrivals(r.nextExpected, [p], now)), Arrivals(r.nextExpected + 1, d, now))
  {
    ArrivalsFront(r.nextExpected, p, d, now);
    PushesMore(r.jitter, OneArrival(r.nextExpected, p, now), Arrivals(r.nextExpected + 1, d, now));
  }

  lemma AcksMore(out: seq<Packet>, next: uint32, count: nat, streamId: uint32)
    requires AcksAll(out, next + 1, count, streamId)
    ensures AcksAll([AckPacket(streamId, next)] + out, next, count + 1, streamId)
  {
    var all := [AckPacket(streamId, next)] + out;
    NackIs(streamId, next);
    forall k | 0 <= k < count + 1 ensures Replies(all[k], Ack, streamId, next + k) {
      if k > 0 { assert all[k] == out[k - 1]; }
    }
  }

  lemma RunMore(r: Receiving, a: Receiving, d: seq<Packet>)
    requires r.nextExpected as int in r.reorder && a.nextExpected == r.nextExpected + 1 && Run(a, d)
    requires forall n :: n > r.nextExpected ==> (n in a.reorder <==> n in r.reorder)
    requires forall n :: n in a.reorder ==> n in r.reorder && a.reorder[n] == r.reorder[n]
    ensures Run(r, [r.reorder[r.nextExpected as int]] + d)
  {
    var all := [r.reorder[r.nextExpected as int]] + d;
    forall k | 0 <= k < |all| ensures HeldAs(r, k, all[k]) {
      if k > 0 { assert HeldAs(a, k - 1, d[k - 1]) && all[k] == d[k - 1]; }
    }
    assert r.nextExpected + |all| == a.nextExpected + |d|;
  }

  /** The delivery loop: what is held from the expected number on, up to the first gap. */
  lemma {:induction false} TakesRun(r: Receiving, streamId: uint32, now: Time, high: int) returns (d: seq<Packet>)
    requires r.nextExpected <= high < TWO_32 && forall n :: n in r.reorder ==> n < high
    ensures Run(r, d) && r.nextExpected + |d| <= high
    ensures var q := AcceptAll(r, streamId, now);
      Took(r, q.r, d, now) && AcksAll(q.out, r.nextExpected, |d|, streamId)
    decreases |r.reorder|
  {
    if r.nextExpected as int !in r.reorder {
      d := [];
      assert r.sink + [] == r.sink && r.delivered + [] == r.delivered;
    } else {
      var p, a := r.reorder[r.nextExpected as int], Accept(r, now);
      AcceptShrinks(r, now);
      TakesOne(r, now);
      var rest := TakesRun(a, streamId, now, high);
      RunMore(r, a, rest);
      TookMore(r, a, AcceptAll(a, streamId, now).r, p, rest, now);
      AcksMore(AcceptAll(a, streamId, now).out, r.nextExpected, |rest|, streamId);
      d := [p] + rest;
    }
  }

  // ---------------------------------------------------------------- what is played out

  /** Held for the target depth. */
  predicate Ripe(j: Jitter.JitterState, b: Jitter.Buffered, nowUs: int) { nowUs - b.arrivalUs >= j.targetMs * 1000 }

  ghost predicate Arrived(j: Jitter.JitterState, nowUs: int) {
    forall k :: 0 <= k < |j.buffer| ==> j.buffer[k].arrivalUs <= nowUs
  }

  /** The first `k` packets of the jitter buffer have left it, each ripe or the last one; the next is
      neither. */
  ghost predicate Played(a: Jitter.JitterState, b: Jitter.JitterState, k: nat, nowUs: int) {
    k <= |a.buffer| && b == a.(buffer := a.buffer[k..], nextExpected := b.nextExpected) &&
    (if k == 0 then b.nextExpected == a.nextExpected
     else b.nextExpected == (a.buffer[k - 1].sequenceNumber + 1) % TWO_32) &&
    (forall i :: 0 <= i < k ==> Ripe(a, a.buffer[i], nowUs) || i == |a.buffer| - 1) &&
    (k < |a.buffer| ==> k < |a.buffer| - 1 && !Ripe(a, a.buffer[k], nowUs))
  }

  lemma DueIff(j: Jitter.JitterState, nowUs: uint64)
    requires Arrived(j, nowUs)
    ensures Jitter.Due(j, nowUs) <==> j.buffer != [] && (Ripe(j, j.buffer[0], nowUs) || |j.buffer| == 1)
  {
    if j.buffer != [] { assert j.buffer[0].arrivalUs <= nowUs; }
  }

  lemma PlayedMore(a: Jitter.JitterState, b: Jitter.JitterState, k: nat, nowUs: uint64)
    requires Arrived(a, nowUs) && Jitter.Due(a, nowUs) && Played(Jitter.AfterPop(a, nowUs), b, k, nowUs)
    ensures Played(a, b, k + 1, nowUs)
  {
    DueIff(a, nowUs);
    var m := Jitter.AfterPop(a, nowUs);
    assert m.buffer[k..] == a.buffer[k + 1..];
    forall i | 0 <= i < k + 1 ensures Ripe(a, a.buffer[i], nowUs) || i == |a.buffer| - 1 {
      if i > 0 { assert m.buffer[i - 1] == a.buffer[i]; }
    }
  }

  /** The playing loop. */
  lemma {:induction false} DrainPlays(j: Jitter.JitterState, nowUs: uint64) returns (k: nat)
    requires Arrived(j, nowUs)
    ensures Played(j, Drain(j, nowUs), k, nowUs)
    decreases |j.buffer|
  {
    DueIff(j, nowUs);
    if Jitter.Due(j, nowUs) {
      k := DrainPlays(Jitter.AfterPop(j, nowUs), nowUs);
      PlayedMore(j, Drain(j, nowUs), k, nowUs);
      k := k + 1;
    } else {
      k := 0;
      assert j.buffer[0..] == j.buffer;
    }
  }

  /** From a sink's jitter buffer what is ripe has been played. */
  ghost predicate Plays(r: Receiving, q: Receiving, now: Time) {
    q == r.(jitter := q.jitter) &&
    if !r.hasSink then q.jitter == r.jitter
    else Arrived(r.jitter, now / 1000) ==> exists k: nat :: Played(r.jitter, q.jitter, k, now / 1000)
  }

  lemma DrainedPlays(r: Receiving, now: Time)
    ensures Plays(r, DrainJitter(r, now), now)
  {
    if r.hasSink && Arrived(r.jitter, now / 1000) {
      var k := DrainPlays(r.jitter, now / 1000);
    }
  }

  lemma IdleTick(e: Endpoint, now: Time)
    requires e.role == Listener && Open(e) && e.snd.inFlight == map[]
    ensures OnTick(e, now) == Reply(e.(snd := Refill(e.snd, now), rcv := DrainJitter(e.rcv, now)), [])
  {
    assert Refill(e.snd, now).inFlight.Keys == {};
  }

  /** A tick of an open listener sends nothing; besides filling its bucket it plays what is ripe. */
  lemma ListenerTicks(e: Endpoint, now: Time)
    requires e.role == Listener && Open(e) && e.snd.inFlight == map[]
    ensures var r := OnTick(e, now);
      r == Reply(e.(snd := Refill(e.snd, now), rcv := r.e.rcv), []) && Plays(e.rcv, r.e.rcv, now)
  {
    IdleTick(e, now);
    DrainedPlays(e.rcv, now);
  }

  // ---------------------------------------------------------------- the expected packet arrives

  /** The receiver with a packet held under the expected number. */
  function Holding(r: Receiving, p: Packet): Receiving { r.(reorder := r.reorder[r.nextExpected as int := p]) }

  lemma NextReceived(r: Receiving, streamId: uint32, p: Packet, now: Time) returns (d: seq<Packet>, q: Receiving)
    requires p.header.sequenceNumber == r.nextExpected && r.nextExpected + 8 < TWO_32
    requires forall n :: n in r.reorder ==> r.nextExpected < n < r.nextExpected + 8
    ensures d != [] && d[0] == p && |d| <= 8 && Run(Holding(r, p), d) && Took(Holding(r, p), q, d, now)
    ensures var t := Receive(r, streamId, p, now); AcksAll(t.out, r.nextExpected, |d|, streamId) && t.r == DrainJitter(q, now)
  {
    U32Small(r.nextExpected + SEND_WINDOW);
    assert Stored(r, p) == Holding(r, p);
    d := TakesRun(Holding(r, p), streamId, now, r.nextExpected + 8);
    q := AcceptAll(Holding(r, p), streamId, now).r;
    if |d| > 0 { assert HeldAs(Holding(r, p), 0, d[0]); }
  }

  /** The expected packet: it and all held behind it without a gap are delivered in order, written and
      acknowledged, `q` is the receiver then, and from a sink's jitter buffer what is ripe is played. */
  lemma ExpectedDelivered(e: Endpoint, p: Packet, now: Time) returns (d: seq<Packet>, q: Receiving)
    requires Attends(e) && IsData(p) && p.header.sequenceNumber == e.rcv.nextExpected && e.rcv.nextExpected + 8 < TWO_32
    requires forall n :: n in e.rcv.reorder ==> e.rcv.nextExpected < n < e.rcv.nextExpected + 8
    ensures d != [] && d[0] == p && |d| <= 8 && Run(Holding(e.rcv, p), d) && Took(Holding(e.rcv, p), q, d, now)
    ensures var r := OnPacket(e, p, now);
      AcksAll(r.out, e.rcv.nextExpected, |d|, e.streamId) && r.e == Opened(e).(rcv := r.e.rcv) && Plays(q, r.e.rcv, now)
  {
    d, q := NextReceived(e.rcv, e.streamId, p, now);
    DataReceived(e, p, now);
    DrainedPlays(q, now);
  }

  // ---------------------------------------------------------------- a gap is repaired

  predicate IsNackFor(d: Datagram, n: int) {
    Decode(d).Some? && Decode(d).value.header.packetType == Nack && Decode(d).value.header.sequenceNumber == n
  }

  lemma NackOnWire(streamId: uint32, n: uint32)
    ensures Wires([NackPacket(streamId, n)]) == [Encode(NackPacket(streamId, n))]
    ensures IsNackFor(Encode(NackPacket(streamId, n)), n)
  {
    WiresOne(NackPacket(streamId, n));
    DecodeEncode(NackPacket(streamId, n));
  }

  /** The datagram carries data above the expected number and inside the window. */
  predicate InGap(r: Receiving, d: Datagram) {
    Decode(d).Some? && IsData(Decode(d).value) &&
    r.nextExpected < Decode(d).value.header.sequenceNumber < r.nextExpected + 8 < TWO_32
  }

  /** It arrives: it is held, and the expected number is asked for. */
  lemma GapAsks(w: World, i: nat, now: Time)
    requires Attends(w.lstn) && Enabled(w, DeliverL(i, now)) && InGap(w.lstn.rcv, w.toL[i])
    ensures var v := Next(w, DeliverL(i, now));
      SameEpoch(w, DeliverL(i, now)) && v.init == w.init && v.clock == now && v.toL == Network.Without(w.toL, i) &&
      |v.toI| == |w.toI| + 1 && v.toI[..|w.toI|] == w.toI && IsNackFor(v.toI[|w.toI|], w.lstn.rcv.nextExpected) &&
      v.lstn.rcv.nextExpected == w.lstn.rcv.nextExpected && v.lstn.state != Closed &&
      Decode(w.toL[i]).value.header.sequenceNumber as int in v.lstn.rcv.reorder
  {
    var p := Decode(w.toL[i]).value;
    GapReported(w.lstn, p, now);
    NackOnWire(w.lstn.streamId, w.lstn.rcv.nextExpected);
    DeliverLIs(w, i, now, OnPacket(w.lstn, p, now));
  }

  /** The sender has number `n` in flight and would send it again at `now`. */
  predicate WillResend(e: Endpoint, n: int, now: Time) {
    Open(e) && n in e.snd.inFlight && Plausible(e.snd, e.snd.inFlight[n], now) && InTime(e.snd, e.snd.inFlight[n], now)
  }

  lemma Resends(e: Endpoint, p: Packet, now: Time, n: int)
    requires SenderOk(e.snd) && p.header.packetType == Nack && p.header.sequenceNumber == n && WillResend(e, n, now)
    ensures var r, q := OnPacket(e, p, now), e.snd.inFlight[n].packet;
      r == Reply(e.(snd := Again(e.snd, n, now)), [q]) && Fits(q) && IsData(q) && q.header.sequenceNumber == n
  {
    NackReaction(e, p, now, n);
    assert e.snd.inFlight[n].packet == e.snd.sent[n];
  }

  lemma OneUnderWay(net: seq<Datagram>, q: Packet)
    requires Fits(q) && IsData(q)
    ensures DataUnderWay(net + Wires([q]), q.header.sequenceNumber)
  {
    DataSent([q], 0);
    DataComes(net, Wires([q]), q.header.sequenceNumber);
  }

  /** The request arrives: the packet is under way again. */
  lemma NackBrings(w: World, i: nat, now: Time, n: int)
    requires Inv(w) && Enabled(w, DeliverI(i, now)) && IsNackFor(w.toI[i], n) && WillResend(w.init, n, now)
    ensures var v := Next(w, DeliverI(i, now));
      DataUnderWay(v.toL, n) && v.lstn == w.lstn && v.clock == now && v.init == w.init.(snd := Again(w.init.snd, n, now))
  {
    var q := w.init.snd.inFlight[n].packet;
    var r := Reply(w.init.(snd := Again(w.init.snd, n, now)), [q]);
    Resends(w.init, Decode(w.toI[i]).value, now, n);
    DeliverIIs(w, i, now, r);
    OneUnderWay(w.toL, q);
  }

  /** Request and packet: the two deliveries that follow the one that shows the gap. */
  lemma RepairComes(w: World, i: nat, now: Time, later: Time) returns (v: World)
    requires Inv(w) && Attends(w.lstn) && Enabled(w, DeliverL(i, now)) && InGap(w.lstn.rcv, w.toL[i]) && now <= later
    requires WillResend(w.init, w.lstn.rcv.nextExpected, later)
    ensures Leads(w, [DeliverL(i, now)] + [DeliverI(|w.toI|, later)], v) && Inv(v) && v.clock == later
    ensures DataUnderWay(v.toL, w.lstn.rcv.nextExpected) && v.lstn.rcv.nextExpected == w.lstn.rcv.nextExpected
    ensures v.lstn.state != Closed && Decode(w.toL[i]).value.header.sequenceNumber as int in v.lstn.rcv.reorder
  {
    var u := Next(w, DeliverL(i, now));
    GapAsks(w, i, now);
    LeadsStep(w, DeliverL(i, now));
    DeliverLKeeps(w, i, now);
    NackBrings(u, |w.toI|, later, w.lstn.rcv.nextExpected);
    LeadsStep(u, DeliverI(|w.toI|, later));
    DeliverIKeeps(u, |w.toI|, later);
    v := Next(u, DeliverI(|w.toI|, later));
    LeadsOn(w, [DeliverL(i, now)], u, [DeliverI(|w.toI|, later)], v);
  }

  /** The packet itself. */
  lemma RepairArrives(v: World, held: int) returns (s: Step)
    requires Inv(v) && v.lstn.state != Closed && v.lstn.rcv.nextExpected + 8 < TWO_32
    requires DataUnderWay(v.toL, v.lstn.rcv.nextExpected) && held in v.lstn.rcv.reorder
    ensures s.DeliverL? && s.now == v.clock && Enabled(v, s) && SameEpoch(v, s)
    ensures var u := Next(v, s).lstn.rcv; u.nextExpected > v.lstn.rcv.nextExpected && (held in u.reorder || held < u.nextExpected)
  {
    var i: nat :| 0 <= i < |v.toL| && IsDataFor(v.toL[i], v.lstn.rcv.nextExpected);
    var r := OnDatagram(v.lstn, v.toL[i], v.clock);
    s := DeliverL(i, v.clock);
    Deliverable.ExpectedArrives(v, i, r);
    DeliverLIs(v, i, v.clock, r);
  }

  lemma OneMore(w: World, a: Step, b: Step, v: World, c: Step) returns (run: seq<Step>)
    requires Leads(w, [a] + [b], v) && Enabled(v, c) && SameEpoch(v, c)
    ensures run == [a, b, c] && Legal(w, run) && After(w, run) == Next(v, c)
  {
    run := [a, b, c];
    assert run == [a] + [b] + [c];
    LeadsStep(v, c);
    LeadsOn(w, [a] + [b], v, [c], Next(v, c));
    LeadsTo(w, run, Next(v, c));
  }

  /** A gap is repaired in three deliveries: the packet behind it arrives, the request it causes, and
      the packet the request brings, for as long as that is in flight and in time. The listener is
      then past the first missing number, and has kept or delivered the packet behind it. */
  lemma GapIsRepaired(w: World, i: nat, now: Time, later: Time, n: int) returns (j: nat, u: World)
    requires Inv(w) && Attends(w.lstn) && Enabled(w, DeliverL(i, now)) && InGap(w.lstn.rcv, w.toL[i]) && now <= later
    requires n == Decode(w.toL[i]).value.header.sequenceNumber && WillResend(w.init, w.lstn.rcv.nextExpected, later)
    ensures var run := [DeliverL(i, now), DeliverI(|w.toI|, later), DeliverL(j, later)];
      Legal(w, run) && After(w, run) == u
    ensures u.lstn.rcv.nextExpected > w.lstn.rcv.nextExpected && (n in u.lstn.rcv.reorder || n < u.lstn.rcv.nextExpected)
  {
    var v := RepairComes(w, i, now, later);
    var s := RepairArrives(v, n);
    var run := OneMore(w, DeliverL(i, now), DeliverI(|w.toI|, later), v, s);
    j, u := s.i, Next(v, s);
  }
}
