/** Why a SYN in the way spoils recovery: a run in which nothing is lost, one timeout comes early, and
    the deliveries run dry with a packet missing. */
module StraySyn {
  import opened Wire
  import opened Clock
  import opened PacketCodec
  import opened SessionSpec
  import opened Sender
  import opened Receiver
  import opened Network
  import opened Reliability
  import opened Termination
  import opened Completion
  import opened Opening
  import opened Lockstep
  import opened EndOfNumbers
  import opened Counterexamples
  import opened LossyStart
  import Rto

  // ---------------------------------------------------------------- single deliveries

  /** A datagram arrives at the listener and is answered by one packet. */
  lemma ArrivesL(w: World, i: nat, p: Packet, r: Reply, q: Packet, toL: seq<Datagram>, toI: seq<Datagram>)
    requires i < |w.toL| && Fits(p) && w.toL[i] == Encode(p) && r == OnPacket(w.lstn, Normalise(p), w.clock)
    requires r.out == [q] && Fits(q) && toL == Without(w.toL, i) && toI == w.toI + [Encode(q)]
    requires p.header.packetType == Handshake && IsSyn(p.header.flags) ==> w.lstn.rcv.nextExpected == 0
    ensures Leads(w, [DeliverL(i, w.clock)], World(w.init, r.e, toL, toI, w.clock))
  {
    WiresOne(q);
    DecodeEncode(p);
    DeliveredL(w, i, p, w.clock);
    LeadsStep(w, DeliverL(i, w.clock));
  }

  /** A datagram arrives at the listener and is ignored. */
  lemma IgnoredL(w: World, i: nat, p: Packet, toL: seq<Datagram>)
    requires i < |w.toL| && Fits(p) && w.toL[i] == Encode(p) && OnPacket(w.lstn, Normalise(p), w.clock) == Reply(w.lstn, [])
    requires toL == Without(w.toL, i)
    requires p.header.packetType == Handshake && IsSyn(p.header.flags) ==> w.lstn.rcv.nextExpected == 0
    ensures Leads(w, [DeliverL(i, w.clock)], World(w.init, w.lstn, toL, w.toI, w.clock))
  {
    assert w.toI + Wires([]) == w.toI;
    DecodeEncode(p);
    DeliveredL(w, i, p, w.clock);
    LeadsStep(w, DeliverL(i, w.clock));
  }

  /** A datagram arrives at the initiator. */
  lemma ArrivesI(w: World, i: nat, p: Packet, r: Reply, toL: seq<Datagram>, toI: seq<Datagram>)
    requires i < |w.toI| && Fits(p) && w.toI[i] == Encode(p) && r == OnPacket(w.init, Normalise(p), w.clock)
    requires toI == Without(w.toI, i) && toL == w.toL + Wires(r.out)
    ensures Leads(w, [DeliverI(i, w.clock)], World(r.e, w.lstn, toL, toI, w.clock))
  {
    OverTheWire(w.init, p, w.clock);
    DeliverIIs(w, i, w.clock, r);
    LeadsStep(w, DeliverI(i, w.clock));
  }

  // ---------------------------------------------------------------- the listener

  predicate Numbered(p: Packet, n: int) { Fits(p) && IsData(p) && p.header.sequenceNumber == n }

  /** Packet 1 before packet 0: it is buffered, and 0 is asked for. */
  lemma EarlyPacket(e: Endpoint, p: Packet, now: Time)
    requires Waiting(e) && IsData(p) && p.header.sequenceNumber == 1
    ensures var r := OnPacket(e, p, now);
      r.out == [NackPacket(e.streamId, 0)] && r.e.role == Listener && r.e.rcv.nextExpected == 0
  {
  }

  /** Packet 0 at a listener that waits for it and has buffered nothing. */
  lemma FirstPacket(e: Endpoint, p: Packet, now: Time)
    requires Waiting(e) && IsData(p) && p.header.sequenceNumber == 0
    ensures var r := OnPacket(e, p, now);
      r.out == [AckPacket(e.streamId, 0)] && r.e.role == Listener && r.e.state == Active && r.e.rcv.nextExpected == 1
  {
    ReceivesNext(e.rcv, p, e.streamId, now);
  }

  lemma LateHello(e: Endpoint, p: Packet, now: Time)
    requires e.role == Listener && e.state == Active && p.header.packetType == Handshake && IsPlainAck(p.header.flags)
    ensures OnPacket(e, p, now) == Reply(e, [])
  {
  }

  // ---------------------------------------------------------------- the initiator

  /** Two packets sent, the first `acked` of them acknowledged, none left to send. */
  ghost predicate TwoSent(e: Endpoint, acked: int) {
    e.role == Initiator && e.state == Active && !e.finSent && !e.snd.mediaMode && e.snd.remaining == 0 &&
    1 in e.snd.inFlight && (0 in e.snd.inFlight <==> acked == 0)
  }

  lemma FirstAnswer(e: Endpoint, p: Packet, now: Time)
    requires TwoSent(e, 0) && p.header.packetType == Ack && p.header.sequenceNumber == 0
    ensures var r := OnPacket(e, p, now); r.out == [] && TwoSent(r.e, 1)
  {
    var t := Refill(Acked(e.snd, 0, now), now);
    assert 1 in t.inFlight;
    assert FillDummy(t, e.streamId, now) == SendReply(t, []);
  }

  lemma LateRequest(e: Endpoint, p: Packet, now: Time)
    requires TwoSent(e, 1) && p.header.packetType == Nack && p.header.sequenceNumber == 0
    ensures OnPacket(e, p, now) == Reply(e, [])
  {
  }

  lemma LateSynAck(e: Endpoint, now: Time)
    requires TwoSent(e, 1)
    ensures var r := OnPacket(e, Normalise(SYN_ACK), now);
      r.out == [HandshakePacket(LISTENER_STREAM, FLAG_ACK)] && TwoSent(r.e, 1)
  {
    SynAckFlags();
  }

  // ---------------------------------------------------------------- the steps

  predicate Hello(p: Packet) { Fits(p) && p.header.packetType == Handshake && IsPlainAck(p.header.flags) }

  predicate Requests(p: Packet, n: int) { Fits(p) && p.header.packetType == Nack && p.header.sequenceNumber == n }

  predicate Answered(p: Packet, n: int) { Fits(p) && p.header.packetType == Ack && p.header.sequenceNumber == n }

  lemma PacketOneArrives(w: World, p: Packet) returns (v: World, nack: Packet)
    requires Waiting(w.lstn) && Numbered(p, 1) && |w.toL| == 4 && w.toL[3] == Encode(p) && w.toI == []
    ensures Leads(w, [DeliverL(3, w.clock)], v) && Requests(nack, 0)
    ensures v.init == w.init && v.clock == w.clock && v.lstn.role == Listener && v.lstn.rcv.nextExpected == 0
    ensures v.toL == w.toL[..3] && v.toI == [Encode(nack)]
  {
    var r := OnPacket(w.lstn, Normalise(p), w.clock);
    nack := NackPacket(w.lstn.streamId, 0);
    EarlyPacket(w.lstn, Normalise(p), w.clock);
    ArrivesL(w, 3, p, r, nack, w.toL[..3], [Encode(nack)]);
    v := World(w.init, r.e, w.toL[..3], [Encode(nack)], w.clock);
  }

  lemma SynArrivesAgain(w: World, syn: Packet) returns (v: World)
    requires w.lstn.role == Listener && w.lstn.rcv.nextExpected == 0 && Greets(syn)
    requires |w.toL| == 3 && w.toL[0] == Encode(syn) && |w.toI| == 1
    ensures Leads(w, [DeliverL(0, w.clock)], v) && v.init == w.init && v.clock == w.clock && Waiting(v.lstn)
    ensures v.toL == w.toL[1..] && v.toI == [w.toI[0], Encode(SYN_ACK)]
  {
    var f, toI := Restarted(w.lstn, w.clock), [w.toI[0], Encode(SYN_ACK)];
    SynReply(w.lstn, Normalise(syn), w.clock);
    assert Without(w.toL, 0) == w.toL[1..];
    ArrivesL(w, 0, syn, Reply(f, [SYN_ACK]), SYN_ACK, w.toL[1..], toI);
    v := World(w.init, f, w.toL[1..], toI, w.clock);
  }

  /** The listener has delivered packet 0 and buffers nothing. */
  predicate HasFirst(e: Endpoint) { e.role == Listener && e.state == Active && e.rcv.nextExpected == 1 }

  lemma PacketZeroArrives(w: World, p: Packet) returns (v: World, ack: Packet)
    requires Waiting(w.lstn) && Numbered(p, 0) && |w.toL| == 2 && w.toL[1] == Encode(p) && |w.toI| == 2
    ensures Leads(w, [DeliverL(1, w.clock)], v) && Answered(ack, 0)
    ensures v.init == w.init && v.clock == w.clock && HasFirst(v.lstn)
    ensures v.toL == [w.toL[0]] && v.toI == [w.toI[0], w.toI[1], Encode(ack)]
  {
    var r := OnPacket(w.lstn, Normalise(p), w.clock);
    ack := AckPacket(w.lstn.streamId, 0);
    FirstPacket(w.lstn, Normalise(p), w.clock);
    ArrivesL(w, 1, p, r, ack, [w.toL[0]], [w.toI[0], w.toI[1], Encode(ack)]);
    v := World(w.init, r.e, [w.toL[0]], [w.toI[0], w.toI[1], Encode(ack)], w.clock);
  }

  lemma HelloIgnored(w: World, p: Packet) returns (v: World)
    requires HasFirst(w.lstn) && Hello(p) && |w.toL| > 0 && w.toL[0] == Encode(p)
    ensures Leads(w, [DeliverL(0, w.clock)], v) && v == World(w.init, w.lstn, w.toL[1..], w.toI, w.clock)
  {
    LateHello(w.lstn, Normalise(p), w.clock);
    assert Without(w.toL, 0) == w.toL[1..];
    IgnoredL(w, 0, p, w.toL[1..]);
    v := World(w.init, w.lstn, w.toL[1..], w.toI, w.clock);
  }

  lemma AnswerSettles(w: World, p: Packet) returns (v: World)
    requires TwoSent(w.init, 0) && Answered(p, 0) && |w.toI| == 3 && w.toI[2] == Encode(p)
    ensures Leads(w, [DeliverI(2, w.clock)], v) && TwoSent(v.init, 1)
    ensures v.lstn == w.lstn && v.toL == w.toL && v.toI == w.toI[..2] && v.clock == w.clock
  {
    var r := OnPacket(w.init, Normalise(p), w.clock);
    FirstAnswer(w.init, Normalise(p), w.clock);
    assert w.toL + Wires([]) == w.toL;
    ArrivesI(w, 2, p, r, w.toL, w.toI[..2]);
    v := World(r.e, w.lstn, w.toL, w.toI[..2], w.clock);
  }

  lemma RequestIgnored(w: World, p: Packet) returns (v: World)
    requires TwoSent(w.init, 1) && Requests(p, 0) && |w.toI| == 2 && w.toI[0] == Encode(p)
    ensures Leads(w, [DeliverI(0, w.clock)], v) && v == World(w.init, w.lstn, w.toL, [w.toI[1]], w.clock)
  {
    LateRequest(w.init, Normalise(p), w.clock);
    assert w.toL + Wires([]) == w.toL;
    ArrivesI(w, 0, p, Reply(w.init, []), w.toL, [w.toI[1]]);
    v := World(w.init, w.lstn, w.toL, [w.toI[1]], w.clock);
  }

  lemma SynAckAnswered(w: World) returns (v: World, hello: Packet)
    requires TwoSent(w.init, 1) && w.toI == [Encode(SYN_ACK)] && w.toL == []
    ensures Leads(w, [DeliverI(0, w.clock)], v) && Hello(hello) && TwoSent(v.init, 1)
    ensures v.lstn == w.lstn && v.toL == [Encode(hello)] && v.toI == [] && v.clock == w.clock
  {
    var r := OnPacket(w.init, Normalise(SYN_ACK), w.clock);
    hello := HandshakePacket(LISTENER_STREAM, FLAG_ACK);
    IsLastHello(LISTENER_STREAM);
    LateSynAck(w.init, w.clock);
    WiresOne(hello);
    ArrivesI(w, 0, SYN_ACK, r, [Encode(hello)], []);
    v := World(r.e, w.lstn, [Encode(hello)], [], w.clock);
  }

  // ---------------------------------------------------------------- the run

  /** Nothing is under way, and packet 1 is neither delivered nor settled. */
  ghost predicate Dry(u: World) { Silent(u) && 1 in u.init.snd.inFlight && u.lstn.rcv.nextExpected == 1 }

  /** The listener has packet 0 and has forgotten packet 1: nothing under way helps. */
  lemma RunsDry(w: World, hello: Packet, nack: Packet, ack: Packet) returns (run: seq<Step>, u: World)
    requires TwoSent(w.init, 0) && HasFirst(w.lstn) && Hello(hello) && Requests(nack, 0) && Answered(ack, 0)
    requires w.toL == [Encode(hello)] && w.toI == [Encode(nack), Encode(SYN_ACK), Encode(ack)]
    ensures Leads(w, run, u) && AllDeliver(run) && Dry(u)
  {
    var a := HelloIgnored(w, hello);
    var b := AnswerSettles(a, ack);
    run := Follow(w, [DeliverL(0, w.clock)], a, [DeliverI(2, a.clock)], b);
    var last;
    last, u := NothingHelps(b, nack);
    run := Follow(w, run, b, last, u);
  }

  lemma NothingHelps(w: World, nack: Packet) returns (run: seq<Step>, u: World)
    requires TwoSent(w.init, 1) && HasFirst(w.lstn) && Requests(nack, 0)
    requires w.toL == [] && w.toI == [Encode(nack), Encode(SYN_ACK)]
    ensures Leads(w, run, u) && AllDeliver(run) && Dry(u)
  {
    var hello;
    var a := RequestIgnored(w, nack);
    u, hello := SynAckAnswered(a);
    run := Follow(w, [DeliverI(0, w.clock)], a, [DeliverI(0, a.clock)], u);
    var b := HelloIgnored(u, hello);
    run := Follow(w, run, u, [DeliverL(0, u.clock)], b);
    u := b;
  }

  /** The second SYN arrives between packet 1 and packet 0. */
  lemma SynInBetween(w: World, syn: Packet, hello: Packet, p0: Packet, p1: Packet) returns (run: seq<Step>, u: World)
    requires TwoSent(w.init, 0) && Waiting(w.lstn) && Greets(syn) && Hello(hello) && Numbered(p0, 0) && Numbered(p1, 1)
    requires w.toL == [Encode(syn), Encode(hello), Encode(p0), Encode(p1)] && w.toI == []
    ensures Leads(w, run, u) && AllDeliver(run) && Dry(u)
  {
    var a, nack := PacketOneArrives(w, p1);
    var b := SynArrivesAgain(a, syn);
    run := Follow(w, [DeliverL(3, w.clock)], a, [DeliverL(0, a.clock)], b);
    var c, ack := PacketZeroArrives(b, p0);
    run := Follow(w, run, b, [DeliverL(1, b.clock)], c);
    var last;
    last, u := RunsDry(c, hello, nack, ack);
    run := Follow(w, run, c, last, u);
  }

  // ---------------------------------------------------------------- how it comes to that

  /** An initiator of two packets that waits for the answer to its SYN. */
  ghost predicate KnocksForTwo(e: Endpoint) {
    e.role == Initiator && Knocks(e) && !e.snd.mediaMode && e.snd.remaining == 2 && e.snd.nextSeq == 0 &&
    e.snd.payloadSize <= MAX_PAYLOAD
  }

  lemma TwoDummies(s: Sending, streamId: uint32, now: Time) returns (p0: Packet, p1: Packet)
    requires s.remaining == 2 && s.inFlight == map[] && s.nextSeq == 0 && s.payloadSize <= MAX_PAYLOAD
    ensures Numbered(p0, 0) && Numbered(p1, 1)
    ensures var r := FillDummy(s, streamId, now);
      r.out == [p0, p1] && r.s.remaining == 0 && r.s.mediaMode == s.mediaMode && 0 in r.s.inFlight && 1 in r.s.inFlight
  {
    var t := SendDummy(s, streamId, now);
    var u := SendDummy(t, streamId, now);
    p0, p1 := DummyPacket(s, streamId, now), DummyPacket(t, streamId, now);
    assert t.inFlight.Keys == {0} && t.nextSeq == 1;
    assert |t.inFlight| == |t.inFlight.Keys|;
    assert FillDummy(u, streamId, now) == SendReply(u, []);
  }

  /** The SYN|ACK makes it send both. */
  lemma SendsBoth(e: Endpoint, now: Time) returns (hello: Packet, p0: Packet, p1: Packet)
    requires KnocksForTwo(e)
    ensures Hello(hello) && Numbered(p0, 0) && Numbered(p1, 1)
    ensures var r := OnSynAck(e, LISTENER_STREAM, now); r.out == [hello, p0, p1] && TwoSent(r.e, 0)
  {
    hello := HandshakePacket(LISTENER_STREAM, FLAG_ACK);
    IsLastHello(LISTENER_STREAM);
    p0, p1 := TwoDummies(Refill(e.snd, now), LISTENER_STREAM, now);
  }

  lemma ThreeWires(p: Packet, q: Packet, r: Packet)
    requires Fits(p) && Fits(q) && Fits(r)
    ensures Wires([p, q, r]) == [Encode(p), Encode(q), Encode(r)]
  {
    assert [p, q, r][1..] == [q, r];
    TwoWires(q, r);
  }

  lemma ThreeFollow(w: World, r: Reply, a: Datagram, p: Packet, q: Packet, s: Packet)
    requires w.toL == [a] && w.toI == [Encode(SYN_ACK)] && r == OnPacket(w.init, Normalise(SYN_ACK), w.clock)
    requires r.out == [p, q, s] && Fits(p) && Fits(q) && Fits(s)
    ensures Leads(w, [DeliverI(0, w.clock)], World(r.e, w.lstn, [a, Encode(p), Encode(q), Encode(s)], [], w.clock))
  {
    ThreeWires(p, q, s);
    ArrivesI(w, 0, SYN_ACK, r, [a, Encode(p), Encode(q), Encode(s)], []);
  }

  /** The SYN|ACK arrives while a SYN is under way. */
  lemma SynAckThenBoth(w: World, a: Datagram) returns (v: World, hello: Packet, p0: Packet, p1: Packet)
    requires KnocksForTwo(w.init) && w.toL == [a] && w.toI == [Encode(SYN_ACK)]
    ensures Leads(w, [DeliverI(0, w.clock)], v) && TwoSent(v.init, 0) && v.lstn == w.lstn
    ensures Hello(hello) && Numbered(p0, 0) && Numbered(p1, 1)
    ensures v.toL == [a, Encode(hello), Encode(p0), Encode(p1)] && v.toI == []
  {
    var r := OnSynAck(w.init, LISTENER_STREAM, w.clock);
    hello, p0, p1 := SendsBoth(w.init, w.clock);
    SynAckMeans(w.init, w.clock);
    ThreeFollow(w, r, a, hello, p0, p1);
    v := World(r.e, w.lstn, [a, Encode(hello), Encode(p0), Encode(p1)], [], w.clock);
  }

  lemma FirstSynAnswered(w: World, syn: Packet) returns (v: World)
    requires w.lstn.role == Listener && w.lstn.rcv.nextExpected == 0 && Greets(syn)
    requires w.toL == [Encode(syn), Encode(syn)] && w.toI == []
    ensures Leads(w, [DeliverL(0, w.clock)], v) && v.init == w.init && Waiting(v.lstn)
    ensures v.toL == [Encode(syn)] && v.toI == [Encode(SYN_ACK)]
  {
    var f := Restarted(w.lstn, w.clock);
    SynReply(w.lstn, Normalise(syn), w.clock);
    assert Without(w.toL, 0) == [Encode(syn)];
    ArrivesL(w, 0, syn, Reply(f, [SYN_ACK]), SYN_ACK, [Encode(syn)], [Encode(SYN_ACK)]);
    v := World(w.init, f, [Encode(syn)], [Encode(SYN_ACK)], w.clock);
  }

  /** Two SYNs under way, and a run of deliveries that ends with packet 1 missing. */
  lemma TwoSynsRunDry(w: World, syn: Packet) returns (run: seq<Step>, u: World)
    requires KnocksForTwo(w.init) && w.lstn.role == Listener && w.lstn.rcv.nextExpected == 0 && Greets(syn)
    requires w.toL == [Encode(syn), Encode(syn)] && w.toI == []
    ensures Leads(w, run, u) && AllDeliver(run) && Dry(u)
  {
    var a := FirstSynAnswered(w, syn);
    var b, hello, p0, p1 := SynAckThenBoth(a, Encode(syn));
    run := Follow(w, [DeliverL(0, w.clock)], a, [DeliverI(0, a.clock)], b);
    var last;
    last, u := SynInBetween(b, syn, hello, p0, p1);
    run := Follow(w, run, b, last, u);
  }

  /** The timeout repeats the SYN while the first is still under way. */
  lemma SynTwice(w: World, syn: Packet, now: Time)
    requires KnocksForTwo(w.init) && TimerFires(w.init, now) && syn == HandshakePacket(w.init.streamId, FLAG_SYN)
    requires w.toL == [Encode(syn)] && w.clock <= now
    ensures var v := Next(w, TickI(now));
      KnocksForTwo(v.init) && v.lstn == w.lstn && v.toL == [Encode(syn), Encode(syn)] && v.toI == w.toI
  {
    KnocksAgain(w.init, now);
    WiresOne(syn);
  }

  /** The timeout of the first SYN comes before its answer, and nothing is ever lost: the second SYN
      makes the listener forget packet 1, which it had buffered, and the deliveries run dry. So
      `Unhindered` is what `AnyOrderRecovers` needs. */
  lemma StraySynSpoils(size: uint16, hasSink: bool, start: Time, now: Time) returns (run: seq<Step>)
    requires start > 0 && TimedOut(start, now, Rto.Current(Rto.FRESH))
    ensures var w := Started(2, size, hasSink, start);
      Loose(w) && !Unhindered(w) && Enabled(w, TickI(now)) && TimerFires(w.init, now) &&
      Legal(Next(w, TickI(now)), run) && AllDeliver(run) && Dry(After(Next(w, TickI(now)), run))
  {
    var w := Started(2, size, hasSink, start);
    var syn := HandshakePacket(w.init.streamId, FLAG_SYN);
    StartedLoose(2, size, hasSink, start);
    StartedIs(WithDummy(FreshEndpoint(Initiator), 2, size), hasSink, start);
    SynTwice(w, syn, now);
    var u;
    run, u := TwoSynsRunDry(Next(w, TickI(now)), syn);
    LeadsTo(Next(w, TickI(now)), run, u);
  }
}
