/** Exchanges in step, in both modes: one packet is delivered and answered at a time. */
module Lockstep {
  import opened Wire
  import opened Clock
  import opened PacketCodec
  import opened SessionSpec
  import opened Sender
  import opened Receiver
  import opened Network
  import opened Reliability
  import opened Termination
  import opened Completion
  import opened Opening

  /** Packets 0 to `k` - 1 are settled, and all the others sent are under way, in order. */
  ghost predicate Aligned(w: World, k: int) {
    Inv(w) && w.init.state == Active && !w.init.finSent && !w.init.failed && w.init.snd.deadlineDrops == 0 &&
    (forall n :: n in w.init.snd.inFlight ==> n >= k) &&
    w.lstn.state == Active && w.lstn.rcv.nextExpected == k && w.lstn.rcv.reorder == map[] &&
    0 <= k <= |w.init.snd.sent| && w.toL == Wires(w.init.snd.sent[k..]) && w.toI == []
  }

  /** All that is sent from number `k` on is in flight. */
  ghost predicate Settles(s: Sending, k: int) { forall n :: k <= n < |s.sent| ==> n in s.inFlight }

  lemma AlignedSettles(w: World, k: int)
    requires Aligned(w, k)
    ensures Settles(w.init.snd, k)
  {
  }

  // ---------------------------------------------------------------- the packet

  lemma AcceptsOne(r: Receiving, p: Packet, streamId: uint32, now: Time)
    requires r.nextExpected + SEND_WINDOW < TWO_32 && r.reorder == map[r.nextExpected as int := p]
    ensures var q := AcceptAll(r, streamId, now);
      q.out == [AckPacket(streamId, r.nextExpected)] && q.r.reorder == map[] && q.r.nextExpected == r.nextExpected + 1
  {
    var a := Accept(r, now);
    U32Small(r.nextExpected + 1);
    assert a.reorder == map[];
    assert AcceptAll(a, streamId, now) == ReceiveReply(a, []);
  }

  lemma ReceivesNext(r: Receiving, p: Packet, streamId: uint32, now: Time)
    requires r.nextExpected + SEND_WINDOW < TWO_32 && r.reorder == map[] && p.header.sequenceNumber == r.nextExpected
    ensures var q := Receive(r, streamId, p, now);
      q.out == [AckPacket(streamId, r.nextExpected)] && q.r.reorder == map[] && q.r.nextExpected == r.nextExpected + 1
  {
    U32Small(r.nextExpected + SEND_WINDOW);
    AcceptsOne(Stored(r, p), p, streamId, now);
  }

  lemma ListenerAccepts(e: Endpoint, p: Packet, now: Time)
    requires e.role == Listener && e.state == Active && e.rcv.reorder == map[]
    requires IsData(p) && p.header.sequenceNumber == e.rcv.nextExpected && e.rcv.nextExpected + SEND_WINDOW < TWO_32
    ensures var r := OnPacket(e, p, now);
      r.out == [AckPacket(e.streamId, e.rcv.nextExpected)] && r.e.state == Active && r.e.rcv.reorder == map[] &&
      r.e.rcv.nextExpected == e.rcv.nextExpected + 1
  {
    ReceivesNext(e.rcv, p, e.streamId, now);
  }

  lemma WiresHead(ps: seq<Packet>, k: nat)
    requires k < |ps| && Fits(ps[k])
    ensures Wires(ps[k..]) == [Encode(ps[k])] + Wires(ps[k + 1..])
  {
    assert ps[k..][0] == ps[k] && ps[k..][1..] == ps[k + 1..];
  }

  lemma FirstAnswered(w: World, p: Packet, rest: seq<Datagram>, r: Reply, q: Packet)
    requires Fits(p) && Fits(q) && w.toL == [Encode(p)] + rest && w.toI == []
    requires r == OnPacket(w.lstn, Normalise(p), w.clock) && r.out == [q]
    ensures Next(w, DeliverL(0, w.clock)) == World(w.init, r.e, rest, [Encode(q)], w.clock)
  {
    OverTheWire(w.lstn, p, w.clock);
    DeliverLIs(w, 0, w.clock, r);
    WiresOne(q);
    assert Without(w.toL, 0) == rest;
    assert [] + [Encode(q)] == [Encode(q)];
  }

  /** The first packet under way is answered. */
  lemma PacketIsAcked(w: World, k: int, r: Reply)
    requires Aligned(w, k) && k < |w.init.snd.sent| && k + SEND_WINDOW < TWO_32
    requires r == OnPacket(w.lstn, Normalise(w.init.snd.sent[k]), w.clock)
    ensures r.out == [AckPacket(w.lstn.streamId, k)]
    ensures r.e.state == Active && r.e.rcv.reorder == map[] && r.e.rcv.nextExpected == k + 1
  {
    ListenerAccepts(w.lstn, Normalise(w.init.snd.sent[k]), w.clock);
  }

  /** It is delivered, and nothing else changes. */
  lemma PacketArrives(w: World, k: int, p: Packet, r: Reply, q: Packet)
    requires Aligned(w, k) && k < |w.init.snd.sent| && p == w.init.snd.sent[k] && Fits(q)
    requires r == OnPacket(w.lstn, Normalise(p), w.clock) && r.out == [q]
    ensures Enabled(w, DeliverL(0, w.clock)) && SameEpoch(w, DeliverL(0, w.clock))
    ensures Next(w, DeliverL(0, w.clock)) == World(w.init, r.e, Wires(w.init.snd.sent[k + 1..]), [Encode(q)], w.clock)
  {
    WiresHead(w.init.snd.sent, k);
    NotASyn(p);
    FirstAnswered(w, p, Wires(w.init.snd.sent[k + 1..]), r, q);
  }

  // ---------------------------------------------------------------- its answer

  lemma {:induction false} WiresAppend(a: seq<Packet>, b: seq<Packet>)
    ensures Wires(a + b) == Wires(a) + Wires(b)
  {
    if a == [] {
      assert a + b == b;
    } else {
      var head := if Fits(a[0]) then [Encode(a[0])] else [];
      assert (a + b)[0] == a[0] && (a + b)[1..] == a[1..] + b;
      WiresAppend(a[1..], b);
      Assoc(head, Wires(a[1..]), Wires(b));
    }
  }

  /** What is under way, and what is sent after it. */
  lemma WiresFrom(sent: seq<Packet>, out: seq<Packet>, k: nat)
    requires k <= |sent|
    ensures Wires((sent + out)[k..]) == Wires(sent[k..]) + Wires(out)
  {
    WiresAppend(sent[k..], out);
    assert (sent + out)[k..] == sent[k..] + out;
  }

  /** The answer is delivered. */
  lemma AnswerArrives(w: World, q: Packet, r: Reply, now: Time)
    requires Fits(q) && w.toI == [Encode(q)] && r == OnPacket(w.init, Normalise(q), now) && w.clock <= now
    ensures Next(w, DeliverI(0, now)) == World(r.e, w.lstn, w.toL + Wires(r.out), [], now)
  {
    OverTheWire(w.init, q, now);
    DeliverIIs(w, 0, now, r);
    assert Without(w.toI, 0) == [];
  }

  /** The world after one packet and its answer. */
  function Exchanged(w: World, k: nat, l: Reply, r: Reply, now: Time): World
    requires k < |w.init.snd.sent|
  {
    World(r.e, l.e, Wires(w.init.snd.sent[k + 1..]) + Wires(r.out), [], now)
  }

  function OneExchange(w: World, now: Time): seq<Step> { [DeliverL(0, w.clock)] + [DeliverI(0, now)] }

  /** The world with packet `k` delivered and its answer under way. */
  function Answering(w: World, k: nat, l: Reply, q: Packet): World
    requires k < |w.init.snd.sent| && Fits(q)
  {
    World(w.init, l.e, Wires(w.init.snd.sent[k + 1..]), [Encode(q)], w.clock)
  }

  lemma PacketLeads(w: World, k: int, p: Packet, l: Reply, q: Packet, v: World)
    requires Aligned(w, k) && k < |w.init.snd.sent| && p == w.init.snd.sent[k] && Fits(q)
    requires l == OnPacket(w.lstn, Normalise(p), w.clock) && l.out == [q] && v == Answering(w, k, l, q)
    ensures Leads(w, [DeliverL(0, w.clock)], v) && Inv(v) && Onward(w, v)
  {
    PacketArrives(w, k, p, l, q);
    LeadsStep(w, DeliverL(0, w.clock));
    DeliverLKeeps(w, 0, w.clock);
  }

  lemma AnswerLeads(w: World, q: Packet, r: Reply, now: Time)
    requires Inv(w) && Fits(q) && w.toI == [Encode(q)] && r == OnPacket(w.init, Normalise(q), now) && w.clock <= now
    ensures var v := World(r.e, w.lstn, w.toL + Wires(r.out), [], now);
      Leads(w, [DeliverI(0, now)], v) && Inv(v) && Onward(w, v)
  {
    AnswerArrives(w, q, r, now);
    LeadsStep(w, DeliverI(0, now));
    DeliverIKeeps(w, 0, now);
  }

  lemma OnwardTwice(w: World, v: World, u: World)
    requires Onward(w, v) && Onward(v, u)
    ensures Onward(w, u)
  {
  }

  /** Packet `k` and its answer are delivered. */
  lemma ExchangeLeads(w: World, k: int, l: Reply, r: Reply, now: Time)
    requires Aligned(w, k) && k < |w.init.snd.sent| && k + SEND_WINDOW < TWO_32 && w.clock <= now
    requires l == OnPacket(w.lstn, Normalise(w.init.snd.sent[k]), w.clock)
    requires r == OnPacket(w.init, Normalise(AckPacket(w.lstn.streamId, k)), now)
    ensures Leads(w, OneExchange(w, now), Exchanged(w, k, l, r, now)) && Inv(Exchanged(w, k, l, r, now))
    ensures Onward(w, Exchanged(w, k, l, r, now))
    ensures l.e.state == Active && l.e.rcv.reorder == map[] && l.e.rcv.nextExpected == k + 1
  {
    var q := AckPacket(w.lstn.streamId, k);
    var v, u := Answering(w, k, l, q), Exchanged(w, k, l, r, now);
    PacketIsAcked(w, k, l);
    PacketLeads(w, k, w.init.snd.sent[k], l, q, v);
    AnswerLeads(v, q, r, now);
    OnwardTwice(w, v, u);
    LeadsOn(w, [DeliverL(0, w.clock)], v, [DeliverI(0, now)], u);
  }

  /** The replies of both sides when packet `k` and its answer are delivered. */
  lemma Exchange(w: World, k: int, now: Time) returns (l: Reply, r: Reply)
    requires Aligned(w, k) && k < |w.init.snd.sent| && k + SEND_WINDOW < TWO_32 && w.clock <= now
    ensures r == OnPacket(w.init, Normalise(AckPacket(w.lstn.streamId, k)), now)
    ensures Leads(w, OneExchange(w, now), Exchanged(w, k, l, r, now)) && Inv(Exchanged(w, k, l, r, now))
    ensures Onward(w, Exchanged(w, k, l, r, now))
    ensures l.e.state == Active && l.e.rcv.reorder == map[] && l.e.rcv.nextExpected == k + 1
  {
    l := OnPacket(w.lstn, Normalise(w.init.snd.sent[k]), w.clock);
    r := OnPacket(w.init, Normalise(AckPacket(w.lstn.streamId, k)), now);
    ExchangeLeads(w, k, l, r, now);
  }

  /** What the initiator's reaction to the answer must be to keep step. */
  ghost predicate InStep(e: Endpoint, r: Reply, k: int) {
    r.e.state == Active && !r.e.finSent && !r.e.failed && r.e.snd.deadlineDrops == 0 &&
    r.e.snd.sent == e.snd.sent + r.out && forall n :: n in r.e.snd.inFlight ==> n >= k + 1
  }

  lemma ExchangeAligns(w: World, k: int, l: Reply, r: Reply, now: Time)
    requires Aligned(w, k) && k < |w.init.snd.sent| && InStep(w.init, r, k) && Inv(Exchanged(w, k, l, r, now))
    requires l.e.state == Active && l.e.rcv.reorder == map[] && l.e.rcv.nextExpected == k + 1
    ensures Aligned(Exchanged(w, k, l, r, now), k + 1)
  {
    WiresFrom(w.init.snd.sent, r.out, k + 1);
  }

  // ---------------------------------------------------------------- its acknowledgement

  /** The acknowledgement of the oldest packet takes it out of the window. */
  lemma AckedLeaves(s: Sending, k: int, now: Time)
    requires SenderOk(s) && k in s.inFlight && (forall n :: n in s.inFlight ==> n >= k)
    ensures var t := Acked(s, k, now);
      SenderOk(t) && t.sent == s.sent && t.mediaMode == s.mediaMode && forall n :: n in t.inFlight ==> n >= k + 1
  {
    AckedKeeps(s, k, now);
  }

  lemma AckFills(e: Endpoint, p: Packet, a: Endpoint, now: Time)
    requires Open(e) && p.header.packetType == Ack && a == e.(snd := Acked(e.snd, p.header.sequenceNumber, now))
    requires !Drained(a.snd)
    ensures OnPacket(e, p, now) == FillWindow(a, now)
  {
  }

  /** In step with everything sent acknowledged, nothing is in flight. */
  lemma Nothing(s: Sending, k: int)
    requires Slots(s.sent, s.inFlight) && k == |s.sent| && (forall n :: n in s.inFlight ==> n >= k)
    ensures |s.inFlight| == 0
  {
    forall n ensures n !in s.inFlight.Keys {
      assert n in s.inFlight ==> 0 <= n < |s.sent|;
    }
    NoElements(s.inFlight.Keys);
  }

  // ---------------------------------------------------------------- the last packet

  /** The acknowledgement of the last packet: the initiator says FIN. */
  lemma LastAnswer(e: Endpoint, p: Packet, k: int, now: Time)
    requires SenderOk(e.snd) && e.role == Initiator && e.state == Active && !e.finSent && !e.failed
    requires p.header.packetType == Ack && p.header.sequenceNumber == k && Drained(Acked(e.snd, k, now))
    ensures OnPacket(e, p, now) == Reply(e.(snd := Acked(e.snd, k, now), finSent := true, state := Closing),
                                         [HandshakePacket(e.streamId, FLAG_FIN)])
  {
  }

  // ---------------------------------------------------------------- the end of the handshake

  lemma PlainAckOpens(e: Endpoint, p: Packet, now: Time)
    requires e.role == Listener && e.state == Handshaking && p.header.packetType == Handshake
    requires IsPlainAck(p.header.flags) && p.header.streamId == e.streamId
    ensures OnPacket(e, p, now) == Reply(e.(state := Active), [])
  {
  }

  /** The ACK an initiator sends on a SYN|ACK. */
  predicate LastHello(p: Packet, streamId: uint32) {
    Fits(p) && p.header.packetType == Handshake && IsPlainAck(p.header.flags) && p.header.streamId == streamId
  }

  lemma IsLastHello(streamId: uint32)
    ensures LastHello(HandshakePacket(streamId, FLAG_ACK), streamId)
  {
  }

  lemma LastHelloOpens(e: Endpoint, p: Packet, now: Time)
    requires e.role == Listener && e.state == Handshaking && LastHello(p, e.streamId)
    ensures OnDatagram(e, Encode(p), now) == Reply(e.(state := Active), []) && !IsSynDatagram(Encode(p))
  {
    DecodeEncode(p);
    PlainAckOpens(e, Normalise(p), now);
  }

  /** The first datagram arrives and is not answered. */
  lemma FirstUnanswered(w: World, d: Datagram, rest: seq<Datagram>, f: Endpoint)
    requires w.toL == [d] + rest && OnDatagram(w.lstn, d, w.clock) == Reply(f, []) && !IsSynDatagram(d)
    ensures SameEpoch(w, DeliverL(0, w.clock))
    ensures Next(w, DeliverL(0, w.clock)) == World(w.init, f, rest, w.toI, w.clock)
  {
    assert Without(w.toL, 0) == rest;
    DeliverLIs(w, 0, w.clock, Reply(f, []));
    assert w.toI + Wires([]) == w.toI;
  }

  /** The ACK that ends the handshake arrives. */
  lemma LastHelloLeads(w: World, p: Packet, rest: seq<Datagram>, u: World)
    requires Inv(w) && w.lstn.state == Handshaking && LastHello(p, w.lstn.streamId) && w.toL == [Encode(p)] + rest
    requires u == World(w.init, w.lstn.(state := Active), rest, w.toI, w.clock)
    ensures Leads(w, [DeliverL(0, w.clock)], u) && Inv(u)
  {
    LastHelloOpens(w.lstn, p, w.clock);
    FirstUnanswered(w, Encode(p), rest, w.lstn.(state := Active));
    LeadsStep(w, DeliverL(0, w.clock));
    DeliverLKeeps(w, 0, w.clock);
  }

  /** From there the exchange is in step. */
  lemma LastHelloAligns(w: World, p: Packet)
    requires Inv(w) && w.init.state == Active && !w.init.finSent && !w.init.failed && w.init.snd.deadlineDrops == 0
    requires w.lstn.state == Handshaking && LastHello(p, w.lstn.streamId)
    requires w.lstn.rcv.nextExpected == 0 && w.lstn.rcv.reorder == map[]
    requires w.toL == Wires([p] + w.init.snd.sent) && w.toI == []
    ensures var u := World(w.init, w.lstn.(state := Active), Wires(w.init.snd.sent), [], w.clock);
      Leads(w, [DeliverL(0, w.clock)], u) && Aligned(u, 0)
  {
    WiresOne(p);
    WiresAppend([p], w.init.snd.sent);
    LastHelloLeads(w, p, Wires(w.init.snd.sent), World(w.init, w.lstn.(state := Active), Wires(w.init.snd.sent), [], w.clock));
    assert w.init.snd.sent[0..] == w.init.snd.sent;
    NumbersFromZero(w.init.snd);
  }

  lemma NumbersFromZero(s: Sending)
    requires Slots(s.sent, s.inFlight)
    ensures forall n :: n in s.inFlight ==> n >= 0
  {
  }
}
