/** No packet storm: without ticks and without duplication by the network every exchange runs
    dry, and the number of deliveries it can take is bounded in advance. */
module Termination {
  import opened Wire
  import opened Clock
  import opened PacketCodec
  import opened SessionSpec
  import opened Sender
  import opened Receiver
  import opened Network
  import opened Reliability
  import opened Window

  // ---------------------------------------------------------------- weights

  predicate IsBareFin(p: Packet) {
    p.header.packetType == Handshake && HasFin(p.header.flags) && !HasAck(p.header.flags)
  }

  predicate IsSynPacket(p: Packet) { p.header.packetType == Handshake && IsSyn(p.header.flags) }

  predicate IsSynAckPacket(p: Packet) { p.header.packetType == Handshake && IsSynAck(p.header.flags) }

  /** What a packet to the listener can still cause, the listener expecting `next`: data out
      of order most, then data in order or old. */
  function WeightL(p: Packet, next: int): (n: nat)
    ensures 1 <= n <= 4
  {
    if IsData(p) then (if p.header.sequenceNumber > next then 4 else 2)
    else if IsSynPacket(p) then 3
    else if IsBareFin(p) then 2
    else 1
  }

  function WeightI(p: Packet): (n: nat)
    ensures 1 <= n <= 3
  {
    if p.header.packetType == Nack then 3
    else if IsSynAckPacket(p) || IsBareFin(p) then 2
    else 1
  }

  function MassL(d: Datagram, next: int): (n: nat)
    ensures 1 <= n
  {
    if Decode(d).None? then 1 else WeightL(Decode(d).value, next)
  }

  function MassI(d: Datagram): (n: nat)
    ensures 1 <= n
  {
    if Decode(d).None? then 1 else WeightI(Decode(d).value)
  }

  function SumL(net: seq<Datagram>, next: int): nat {
    if net == [] then 0 else MassL(net[0], next) + SumL(net[1..], next)
  }

  function SumI(net: seq<Datagram>): nat {
    if net == [] then 0 else MassI(net[0]) + SumI(net[1..])
  }

  /** First transmissions still to come: dummy packets, or chunks left in the source. */
  function Left(s: Sending): nat {
    if !s.mediaMode then s.remaining
    else if s.source.Some? then |s.source.value.pending| - s.source.value.cursor
    else 0
  }

  /** How many packets the whole transfer can have. */
  function PlanSize(s: Sending): nat {
    if !s.mediaMode then |s.sent| + s.remaining
    else if s.source.Some? then |s.source.value.pending|
    else 0
  }

  /** An upper bound on the deliveries still to come. */
  function Energy(w: World): int {
    4 * Left(w.init.snd) + (PlanSize(w.init.snd) - w.lstn.rcv.nextExpected) +
    (if w.init.finSent then 0 else 2) + SumL(w.toL, w.lstn.rcv.nextExpected) + SumI(w.toI)
  }

  lemma {:induction false} SumLJoin(a: seq<Datagram>, b: seq<Datagram>, next: int)
    ensures SumL(a + b, next) == SumL(a, next) + SumL(b, next)
  {
    if a == [] {
      assert a + b == b;
    } else {
      SumLJoin(a[1..], b, next);
      assert (a + b)[1..] == a[1..] + b;
    }
  }

  lemma {:induction false} SumIJoin(a: seq<Datagram>, b: seq<Datagram>)
    ensures SumI(a + b) == SumI(a) + SumI(b)
  {
    if a == [] {
      assert a + b == b;
    } else {
      SumIJoin(a[1..], b);
      assert (a + b)[1..] == a[1..] + b;
    }
  }

  lemma {:induction false} SumLWithout(net: seq<Datagram>, i: nat, next: int)
    requires i < |net|
    ensures SumL(Without(net, i), next) == SumL(net, next) - MassL(net[i], next)
  {
    if i == 0 {
      assert Without(net, i) == net[1..];
    } else {
      SumLWithout(net[1..], i - 1, next);
      assert Without(net, i) == [net[0]] + Without(net[1..], i - 1);
      assert Without(net, i)[1..] == Without(net[1..], i - 1);
    }
  }

  lemma {:induction false} SumIWithout(net: seq<Datagram>, i: nat)
    requires i < |net|
    ensures SumI(Without(net, i)) == SumI(net) - MassI(net[i])
  {
    if i == 0 {
      assert Without(net, i) == net[1..];
    } else {
      SumIWithout(net[1..], i - 1);
      assert Without(net, i) == [net[0]] + Without(net[1..], i - 1);
      assert Without(net, i)[1..] == Without(net[1..], i - 1);
    }
  }

  /** Progress of the listener only makes data in transit lighter. */
  lemma {:induction false} SumLFalls(net: seq<Datagram>, next: int, later: int)
    requires next <= later
    ensures SumL(net, later) <= SumL(net, next)
  {
    if net != [] { SumLFalls(net[1..], next, later); }
  }

  function PacketsL(ps: seq<Packet>, next: int): nat {
    if ps == [] then 0 else WeightL(ps[0], next) + PacketsL(ps[1..], next)
  }

  function PacketsI(ps: seq<Packet>): nat {
    if ps == [] then 0 else WeightI(ps[0]) + PacketsI(ps[1..])
  }

  lemma NormaliseWeightL(p: Packet, next: int)
    requires Fits(p)
    ensures WeightL(Normalise(p), next) == WeightL(p, next)
  {
    var h := Normalise(p).header;
    assert h.packetType == p.header.packetType && h.flags == p.header.flags;
    assert h.sequenceNumber == p.header.sequenceNumber;
  }

  lemma WireMassL(p: Packet, next: int)
    requires Fits(p)
    ensures MassL(Encode(p), next) == WeightL(p, next)
  {
    NormaliseWeightL(p, next);
    DecodeEncode(p);
  }

  lemma NormaliseWeightI(p: Packet)
    requires Fits(p)
    ensures WeightI(Normalise(p)) == WeightI(p)
  {
    var h := Normalise(p).header;
    assert h.packetType == p.header.packetType && h.flags == p.header.flags;
  }

  lemma WireMassI(p: Packet)
    requires Fits(p)
    ensures MassI(Encode(p)) == WeightI(p)
  {
    NormaliseWeightI(p);
    DecodeEncode(p);
  }

  lemma {:induction false} WiresL(ps: seq<Packet>, next: int)
    ensures SumL(Wires(ps), next) <= PacketsL(ps, next)
  {
    if ps != [] {
      WiresL(ps[1..], next);
      if Fits(ps[0]) {
        WireMassL(ps[0], next);
        assert Wires(ps)[1..] == Wires(ps[1..]);
      } else {
        assert Wires(ps) == Wires(ps[1..]);
      }
    }
  }

  lemma {:induction false} WiresI(ps: seq<Packet>)
    ensures SumI(Wires(ps)) <= PacketsI(ps)
  {
    if ps != [] {
      WiresI(ps[1..]);
      if Fits(ps[0]) {
        WireMassI(ps[0]);
        assert Wires(ps)[1..] == Wires(ps[1..]);
      } else {
        assert Wires(ps) == Wires(ps[1..]);
      }
    }
  }

  // ---------------------------------------------------------------- the initiator spends

  lemma PacketsLCons(p: Packet, ps: seq<Packet>, next: int)
    ensures PacketsL([p] + ps, next) == WeightL(p, next) + PacketsL(ps, next)
  {
    assert ([p] + ps)[1..] == ps;
  }

  lemma {:induction false} FillDummySpends(s: Sending, streamId: uint32, now: Time, next: int)
    requires !s.mediaMode
    ensures var r := FillDummy(s, streamId, now);
      PacketsL(r.out, next) + 4 * Left(r.s) <= 4 * Left(s) && PlanSize(r.s) == PlanSize(s)
    decreases s.remaining
  {
    if |s.inFlight| < SEND_WINDOW && s.remaining > 0 {
      var t := SendDummy(s, streamId, now);
      FillDummySpends(t, streamId, now, next);
      PacketsLCons(DummyPacket(s, streamId, now), FillDummy(t, streamId, now).out, next);
    }
  }

  lemma {:induction false} FillMediaSpends(s: Sending, streamId: uint32, now: Time, next: int)
    requires s.mediaMode && s.source.Some?
    ensures var r := FillMedia(s, streamId, now);
      PacketsL(r.out, next) + 4 * Left(r.s) <= 4 * Left(s) && PlanSize(r.s) == PlanSize(s)
    decreases |s.source.value.pending| - s.source.value.cursor
  {
    if MayTake(s, now) {
      var a, c := Advance(s), NextChunk(s);
      assert Left(a) == Left(s) - 1;
      if !Starved(a, c) {
        var t := SendChunk(a, streamId, c, now);
        FillMediaSpends(t, streamId, now, next);
        PacketsLCons(MediaPacket(a, streamId, c), FillMedia(t, streamId, now).out, next);
      }
    }
  }

  /** Bound on the initiator's part of the energy after an operation. */
  ghost predicate Spends(e: Endpoint, f: Endpoint, out: seq<Packet>, next: int, allowance: int) {
    PacketsL(out, next) + 4 * Left(f.snd) + (if f.finSent then 0 else 2)
      <= 4 * Left(e.snd) + (if e.finSent then 0 else 2) + allowance &&
    PlanSize(f.snd) == PlanSize(e.snd)
  }

  /** In media mode a session has a source. */
  predicate HasSource(s: Sending) { s.mediaMode ==> s.source.Some? }

  lemma MediaWindowSpends(e: Endpoint, now: Time, next: int)
    requires HasSource(e.snd) && e.snd.mediaMode && e.role == Initiator && e.state == Active
    ensures Spends(e, FillWindow(e, now).e, FillWindow(e, now).out, next, 0)
  {
    FillMediaSpends(Refill(e.snd, now), e.streamId, now, next);
  }

  lemma DummyWindowSpends(e: Endpoint, now: Time, next: int)
    requires !e.snd.mediaMode && e.role == Initiator && e.state == Active
    ensures Spends(e, FillWindow(e, now).e, FillWindow(e, now).out, next, 0)
  {
    FillDummySpends(Refill(e.snd, now), e.streamId, now, next);
  }

  lemma FillWindowSpends(e: Endpoint, now: Time, next: int)
    requires HasSource(e.snd)
    ensures Spends(e, FillWindow(e, now).e, FillWindow(e, now).out, next, 0)
  {
    if e.role == Initiator && e.state == Active {
      if e.snd.mediaMode { MediaWindowSpends(e, now, next); } else { DummyWindowSpends(e, now, next); }
    }
  }

  lemma ProceedSpends(e: Endpoint, now: Time, next: int)
    requires HasSource(e.snd)
    ensures Spends(e, Proceed(e, now).e, Proceed(e, now).out, next, 0)
  {
    if e.role == Initiator && IsComplete(e) && !e.finSent {
      PacketsLCons(HandshakePacket(e.streamId, FLAG_FIN), [], next);
      assert [HandshakePacket(e.streamId, FLAG_FIN)] + [] == [HandshakePacket(e.streamId, FLAG_FIN)];
    } else {
      FillWindowSpends(e, now, next);
    }
  }

  lemma OnAckSpends(e: Endpoint, p: Packet, now: Time, next: int)
    requires HasSource(e.snd)
    ensures Spends(e, OnAck(e, p, now).e, OnAck(e, p, now).out, next, 0)
  {
    ProceedSpends(e.(snd := Acked(e.snd, p.header.sequenceNumber, now)), now, next);
  }

  lemma OneL(p: Packet, next: int)
    ensures PacketsL([p], next) == WeightL(p, next)
  {
    assert [p][1..] == [];
  }

  lemma OneI(p: Packet)
    ensures PacketsI([p]) == WeightI(p)
  {
    assert [p][1..] == [];
  }

  lemma OnNackSpends(e: Endpoint, p: Packet, now: Time, next: int)
    requires SenderOk(e.snd) && p.header.sequenceNumber <= next
    ensures Spends(e, OnNack(e, p, now).e, OnNack(e, p, now).out, next, 2)
  {
    var n: int := p.header.sequenceNumber;
    if n in e.snd.inFlight {
      OneL(e.snd.inFlight[n].packet, next);
    }
  }

  lemma OnSynAckSpends(e: Endpoint, streamId: uint32, now: Time, next: int)
    requires HasSource(e.snd)
    ensures Spends(e, OnSynAck(e, streamId, now).e, OnSynAck(e, streamId, now).out, next, 1)
  {
    var hello := HandshakePacket(streamId, FLAG_ACK);
    OneL(hello, next);
    if e.state == Handshaking {
      var b := e.(streamId := streamId, state := Active);
      FillWindowSpends(b, now, next);
      PacketsLCons(hello, FillWindow(b, now).out, next);
    }
  }

  lemma InitiatorHandshakeSpends(e: Endpoint, p: Packet, now: Time, next: int)
    requires e.role == Initiator && HasSource(e.snd) && p.header.packetType == Handshake
    ensures Spends(e, OnHandshake(e, p, now).e, OnHandshake(e, p, now).out, next, WeightI(p) - 1)
  {
    if IsSynAck(p.header.flags) {
      OnSynAckSpends(e, p.header.streamId, now, next);
    } else if HasFin(p.header.flags) {
      OneL(HandshakePacket(e.streamId, FLAG_FIN + FLAG_ACK), next);
    }
  }

  /** A packet at the initiator causes less than it weighs. */
  lemma InitiatorSpends(e: Endpoint, p: Packet, now: Time, next: int)
    requires SenderOk(e.snd) && e.role == Initiator && Answers(p, next)
    ensures Spends(e, OnPacket(e, p, now).e, OnPacket(e, p, now).out, next, WeightI(p) - 1)
  {
    match p.header.packetType {
      case Handshake => InitiatorHandshakeSpends(e, p, now, next);
      case Ack => if Open(e) { OnAckSpends(e, p, now, next); }
      case Nack => if Open(e) { OnNackSpends(e, p, now, next); }
      case _ =>
    }
  }

  // ---------------------------------------------------------------- the listener answers

  lemma PacketsICons(p: Packet, ps: seq<Packet>)
    ensures PacketsI([p] + ps) == WeightI(p) + PacketsI(ps)
  {
    assert ([p] + ps)[1..] == ps;
  }

  /** Every number delivered costs one acknowledgement. */
  lemma {:induction false} AcceptAllAnswers(r: Receiving, sent: seq<Packet>, high: int, streamId: uint32, now: Time)
    requires ReceiverMid(r, sent, high)
    ensures var q := AcceptAll(r, streamId, now);
      PacketsI(q.out) == q.r.nextExpected - r.nextExpected
    decreases |r.reorder|
  {
    if r.nextExpected as int in r.reorder {
      var a := Accept(r, now);
      AcceptKeeps(r, sent, high, now);
      AcceptShrinks(r, now);
      AcceptAllAnswers(a, sent, high, streamId, now);
      PacketsICons(AckPacket(streamId, r.nextExpected), AcceptAll(a, streamId, now).out);
    }
  }

  lemma ReceiveAnswers(r: Receiving, sent: seq<Packet>, streamId: uint32, p: Packet, now: Time)
    requires ReceiverOk(r, sent) && |sent| < TWO_32 && Carries(p, sent, p.header.sequenceNumber) && IsData(p)
    requires p.header.sequenceNumber == r.nextExpected ==> !BeyondWindow(r, p.header.sequenceNumber)
    ensures var q := Receive(r, streamId, p, now);
      PacketsI(q.out) < WeightL(p, r.nextExpected) + q.r.nextExpected - r.nextExpected
  {
    var s := p.header.sequenceNumber;
    OneI(AckPacket(streamId, s));
    OneI(NackPacket(streamId, r.nextExpected));
    if s == r.nextExpected {
      StoredKeeps(r, sent, p);
      AcceptAllAnswers(Stored(r, p), sent, r.nextExpected + SEND_WINDOW, streamId, now);
    }
  }

  lemma HandshakeAnswers(e: Endpoint, p: Packet, now: Time)
    requires e.role == Listener && p.header.packetType == Handshake
    requires IsSyn(p.header.flags) ==> e.rcv.nextExpected == 0
    ensures var r := OnHandshake(e, p, now);
      PacketsI(r.out) < WeightL(p, e.rcv.nextExpected) && r.e.rcv.nextExpected == e.rcv.nextExpected
  {
    OneI(HandshakePacket(LISTENER_STREAM, FLAG_SYN + FLAG_ACK));
    OneI(HandshakePacket(e.streamId, FLAG_FIN + FLAG_ACK));
  }

  /** Feedback at an endpoint with nothing in flight that is not an initiator. */
  lemma FeedbackIgnored(e: Endpoint, p: Packet, now: Time)
    requires e.role == Listener && e.snd.inFlight == map[] && (p.header.packetType == Ack || p.header.packetType == Nack)
    ensures OnPacket(e, p, now).out == [] && OnPacket(e, p, now).e.rcv == e.rcv
  {
  }

  /** A packet at the listener causes less than it weighs and what it makes deliverable. */
  lemma ListenerAnswers(e: Endpoint, p: Packet, sent: seq<Packet>, now: Time)
    requires e.role == Listener && e.snd.inFlight == map[] && ReceiverOk(e.rcv, sent) && |sent| < TWO_32
    requires IsData(p) ==> Carries(p, sent, p.header.sequenceNumber)
    requires IsData(p) && p.header.sequenceNumber == e.rcv.nextExpected ==> !BeyondWindow(e.rcv, p.header.sequenceNumber)
    requires IsSynPacket(p) ==> e.rcv.nextExpected == 0
    ensures var r := OnPacket(e, p, now);
      PacketsI(r.out) < WeightL(p, e.rcv.nextExpected) + r.e.rcv.nextExpected - e.rcv.nextExpected
  {
    match p.header.packetType {
      case Handshake => HandshakeAnswers(e, p, now);
      case Data =>
        var w := if e.state == Handshaking then e.(state := Active) else e;
        if Open(w) { ReceiveAnswers(e.rcv, sent, w.streamId, p, now); }
      case Ack => FeedbackIgnored(e, p, now);
      case Nack => FeedbackIgnored(e, p, now);
      case _ =>
    }
  }

  // ---------------------------------------------------------------- every step

  /** A transfer whose numbers, and the window above them, fit 32 bits. */
  ghost predicate Modest(w: World) { Inv(w) && PlanSize(w.init.snd) + SEND_WINDOW <= TWO_32 }

  lemma ModestKeeps(w: World, s: Step)
    requires Modest(w) && Enabled(w, s) && SameEpoch(w, s)
    ensures Modest(Next(w, s)) && Next(w, s).init.snd.mediaMode == w.init.snd.mediaMode
  {
    StepKeeps(w, s);
  }

  lemma EnergyIsPositive(w: World)
    requires Modest(w)
    ensures Energy(w) >= 0
  {
    DeliveredBound(w.lstn.rcv.delivered, w.init.snd.sent);
  }

  /** The packet the listener waits for is never out of its window. */
  lemma InWindow(w: World, p: Packet)
    requires Modest(w) && Carries(p, w.init.snd.sent, w.lstn.rcv.nextExpected)
    ensures !BeyondWindow(w.lstn.rcv, w.lstn.rcv.nextExpected)
  {
    U32Small(w.lstn.rcv.nextExpected + SEND_WINDOW);
  }

  lemma DeliverLSpends(w: World, i: nat, now: Time)
    requires Modest(w) && Enabled(w, DeliverL(i, now)) && SameEpoch(w, DeliverL(i, now))
    ensures var r := OnDatagram(w.lstn, w.toL[i], now);
      w.lstn.rcv.nextExpected <= r.e.rcv.nextExpected &&
      PacketsI(r.out) < MassL(w.toL[i], w.lstn.rcv.nextExpected) + r.e.rcv.nextExpected - w.lstn.rcv.nextExpected
  {
    var d := w.toL[i];
    if Decode(d).Some? {
      var p := Decode(d).value;
      assert Genuine(d, w.init.snd.sent);
      if IsData(p) && p.header.sequenceNumber == w.lstn.rcv.nextExpected { InWindow(w, p); }
      ListenerAttends(w.lstn, p, w.init.snd.sent, now);
      ListenerAnswers(w.lstn, p, w.init.snd.sent, now);
    }
  }

  lemma DeliverLFalls(w: World, i: nat, now: Time)
    requires Modest(w) && Enabled(w, DeliverL(i, now)) && SameEpoch(w, DeliverL(i, now))
    ensures Energy(Next(w, DeliverL(i, now))) < Energy(w)
  {
    var r := OnDatagram(w.lstn, w.toL[i], now);
    var next, later := w.lstn.rcv.nextExpected, r.e.rcv.nextExpected;
    DeliverLSpends(w, i, now);
    SumLWithout(w.toL, i, next);
    SumLFalls(Without(w.toL, i), next, later);
    SumIJoin(w.toI, Wires(r.out));
    WiresI(r.out);
  }

  lemma DeliverIFalls(w: World, i: nat, now: Time)
    requires Modest(w) && Enabled(w, DeliverI(i, now))
    ensures Energy(Next(w, DeliverI(i, now))) < Energy(w)
  {
    var d, next := w.toI[i], w.lstn.rcv.nextExpected;
    var r := OnDatagram(w.init, d, now);
    if Decode(d).Some? {
      assert Honest(d, next);
      InitiatorSpends(w.init, Decode(d).value, now, next);
    }
    SumIWithout(w.toI, i);
    SumLJoin(w.toL, Wires(r.out), next);
    WiresL(r.out, next);
  }

  lemma {:induction false} SumLDamaged(net: seq<Datagram>, i: nat, d: Datagram, next: int)
    requires i < |net| && Decode(d).None?
    ensures SumL(net[i := d], next) <= SumL(net, next)
  {
    if i > 0 {
      SumLDamaged(net[1..], i - 1, d, next);
      assert net[i := d][1..] == net[1..][i - 1 := d];
    } else {
      assert net[i := d][1..] == net[1..];
    }
  }

  lemma {:induction false} SumIDamaged(net: seq<Datagram>, i: nat, d: Datagram)
    requires i < |net| && Decode(d).None?
    ensures SumI(net[i := d]) <= SumI(net)
  {
    if i > 0 {
      SumIDamaged(net[1..], i - 1, d);
      assert net[i := d][1..] == net[1..][i - 1 := d];
    } else {
      assert net[i := d][1..] == net[1..];
    }
  }

  /** A datagram leaves the network. */
  predicate Removes(s: Step) { s.DeliverL? || s.DeliverI? || s.DropL? || s.DropI? }

  /** The timers are silent, the network does not duplicate, nothing is started again. */
  predicate Quiet(s: Step) { Removes(s) || s.DamageL? || s.DamageI? || s.CloseI? || s.CloseL? }

  predicate AllQuiet(run: seq<Step>) { forall k :: 0 <= k < |run| ==> Quiet(run[k]) }

  /** How many datagrams the run takes out of the network. */
  function Removed(run: seq<Step>): nat {
    if run == [] then 0 else (if Removes(run[0]) then 1 else 0) + Removed(run[1..])
  }

  lemma ChannelFalls(w: World, s: Step)
    requires Modest(w) && Enabled(w, s) && (s.DropL? || s.DropI? || s.DamageL? || s.DamageI?)
    ensures Energy(Next(w, s)) + (if Removes(s) then 1 else 0) <= Energy(w)
  {
    match s {
      case DropL(i) => SumLWithout(w.toL, i, w.lstn.rcv.nextExpected);
      case DropI(i) => SumIWithout(w.toI, i);
      case DamageL(i, d) => DamageUnreadable(w.toL[i], d); SumLDamaged(w.toL, i, d, w.lstn.rcv.nextExpected);
      case DamageI(i, d) => DamageUnreadable(w.toI[i], d); SumIDamaged(w.toI, i, d);
    }
  }

  lemma QuietFalls(w: World, s: Step)
    requires Modest(w) && Enabled(w, s) && SameEpoch(w, s) && Quiet(s)
    ensures Energy(Next(w, s)) + (if Removes(s) then 1 else 0) <= Energy(w)
  {
    match s {
      case DeliverL(i, now) => DeliverLFalls(w, i, now);
      case DeliverI(i, now) => DeliverIFalls(w, i, now);
      case CloseI =>
      case CloseL =>
      case _ => ChannelFalls(w, s);
    }
  }

  /** From every state of an epoch, whatever the order of deliveries, losses and damage:
      without ticks and duplication only a bounded number of datagrams ever moves. */
  lemma {:induction false} NoStorm(w: World, run: seq<Step>)
    requires Modest(w) && Legal(w, run) && AllQuiet(run)
    ensures Removed(run) + Energy(After(w, run)) <= Energy(w) && Energy(After(w, run)) >= 0
    decreases |run|
  {
    if run == [] {
      EnergyIsPositive(w);
    } else {
      assert Quiet(run[0]);
      QuietFalls(w, run[0]);
      ModestKeeps(w, run[0]);
      NoStorm(Next(w, run[0]), run[1..]);
    }
  }

  /** A whole exchange of `n` dummy packets or chunks, started once, moves at most 5 `n` + 5
      datagrams. */
  lemma ExchangeBound(e: Endpoint, hasSink: bool, now: Time, run: seq<Step>)
    requires Unstarted(e) && !e.finSent && PlanSize(e.snd) + SEND_WINDOW <= TWO_32
    requires Legal(FromI(Beginning(e, hasSink), Start(e, now), now), run) && AllQuiet(run)
    ensures Removed(run) <= 5 * PlanSize(e.snd) + 5
  {
    BeginningInv(e, hasSink);
    StartUpKeeps(Beginning(e, hasSink), now);
    StartEnergy(e, hasSink, now);
    NoStorm(FromI(Beginning(e, hasSink), Start(e, now), now), run);
  }

  lemma OneMore(w: World, f: Endpoint, p: Packet, now: Time)
    requires Fits(p) && w.toL == [] && f.snd == w.init.snd && f.finSent == w.init.finSent
    ensures Energy(FromI(w, Reply(f, [p]), now)) == Energy(w) + WeightL(p, w.lstn.rcv.nextExpected)
  {
    WireMassL(p, w.lstn.rcv.nextExpected);
    assert [p][1..] == [];
    assert Wires([p]) == [Encode(p)];
    assert w.toL + Wires([p]) == [Encode(p)];
    assert [Encode(p)][1..] == [];
  }

  lemma SynWeight(streamId: uint32)
    ensures WeightL(HandshakePacket(streamId, FLAG_SYN), 0) == 3
  {
  }

  lemma StartEnergy(e: Endpoint, hasSink: bool, now: Time)
    requires Unstarted(e) && !e.finSent
    ensures Energy(FromI(Beginning(e, hasSink), Start(e, now), now)) <= 5 * PlanSize(e.snd) + 5
  {
    var w, r, syn := Beginning(e, hasSink), Start(e, now), HandshakePacket(e.streamId, FLAG_SYN);
    SynWeight(e.streamId);
    OneMore(w, r.e, syn, now);
    StartSends(e, now);
    RestingEnergy(w);
  }

  lemma StartSends(e: Endpoint, now: Time)
    requires e.role == Initiator
    ensures Start(e, now) == Reply(Start(e, now).e, [HandshakePacket(e.streamId, FLAG_SYN)])
  {
  }

  lemma RestingEnergy(w: World)
    requires w.init.snd.sent == [] && !w.init.finSent && w.lstn.rcv.nextExpected == 0 && w.toL == [] && w.toI == []
    ensures Energy(w) <= 5 * PlanSize(w.init.snd) + 2
  {
  }

  // ---------------------------------------------------------------- where the bound ends

  /** The sender at the end of the 32-bit numbers: packet `n` is in flight. */
  ghost predicate Holds(e: Endpoint, n: int, p: Packet) {
    e.role == Initiator && Open(e) && !e.snd.mediaMode && n in e.snd.inFlight && e.snd.inFlight[n].packet == p
  }

  predicate Stuck(e: Endpoint, n: int) {
    Open(e) && e.rcv.nextExpected == n && n + SEND_WINDOW >= TWO_32
  }

  predicate Asks(q: Packet, n: int) { q.header.packetType == Nack && q.header.sequenceNumber == n }

  predicate Numbers(p: Packet, n: int) { IsData(p) && p.header.sequenceNumber == n }

  /** The packet the listener waits for is all there is in the network. */
  ghost predicate AtTheEnd(w: World, n: int, p: Packet) {
    Holds(w.init, n, p) && Stuck(w.lstn, n) && Numbers(p, n) && Fits(p) && w.toL == [Encode(p)] && w.toI == []
  }

  lemma TurnedAway(e: Endpoint, p: Packet, n: int, now: Time)
    requires Stuck(e, n) && Numbers(p, n)
    ensures var r := OnPacket(e, p, now);
      r.out == [NackPacket(e.streamId, e.rcv.nextExpected)] && Stuck(r.e, n)
  {
    WrappedWindow(e.rcv.nextExpected);
  }

  lemma Requested(e: Endpoint, q: Packet, n: int, p: Packet, now: Time)
    requires Holds(e, n, p) && Asks(q, n)
    ensures var r := OnPacket(e, q, now); r.out == [p] && Holds(r.e, n, p)
  {
  }

  lemma OverTheWire(e: Endpoint, p: Packet, now: Time)
    requires Fits(p)
    ensures OnDatagram(e, Encode(p), now) == OnPacket(e, Normalise(p), now)
  {
    DecodeEncode(p);
  }

  lemma WiresOne(p: Packet)
    requires Fits(p)
    ensures Wires([p]) == [Encode(p)]
  {
    assert [p][1..] == [];
  }

  /** The only datagram is delivered and answered by one packet. */
  lemma AnsweredByL(w: World, d: Datagram, r: Reply, q: Packet, now: Time)
    requires w.toL == [d] && w.toI == [] && r.out == [q] && Fits(q)
    ensures FromL(w.(toL := Without(w.toL, 0)), r, now) == World(w.init, r.e, [], [Encode(q)], now)
  {
    WiresOne(q);
    assert Without(w.toL, 0) == [];
    assert [] + [Encode(q)] == [Encode(q)];
  }

  lemma AnsweredByI(w: World, d: Datagram, r: Reply, q: Packet, now: Time)
    requires w.toI == [d] && w.toL == [] && r.out == [q] && Fits(q)
    ensures FromI(w.(toI := Without(w.toI, 0)), r, now) == World(r.e, w.lstn, [Encode(q)], [], now)
  {
    WiresOne(q);
    assert Without(w.toI, 0) == [];
    assert [] + [Encode(q)] == [Encode(q)];
  }

  lemma NotASyn(p: Packet)
    requires Fits(p) && IsData(p)
    ensures !IsSynDatagram(Encode(p))
  {
    DecodeEncode(p);
  }

  lemma DeliverLIs(w: World, i: nat, now: Time, r: Reply)
    requires Enabled(w, DeliverL(i, now)) && r == OnDatagram(w.lstn, w.toL[i], now)
    ensures Next(w, DeliverL(i, now)) == FromL(w.(toL := Without(w.toL, i)), r, now)
  {
  }

  lemma DeliverIIs(w: World, i: nat, now: Time, r: Reply)
    requires Enabled(w, DeliverI(i, now)) && r == OnDatagram(w.init, w.toI[i], now)
    ensures Next(w, DeliverI(i, now)) == FromI(w.(toI := Without(w.toI, i)), r, now)
  {
  }

  /** Data and negative acknowledgement: the world is as before. */
  lemma OneRound(w: World, n: int, p: Packet) returns (v: World)
    requires AtTheEnd(w, n, p)
    ensures v == Next(w, DeliverL(0, w.clock)) && |v.toI| == 1 && v.clock == w.clock
    ensures SameEpoch(w, DeliverL(0, w.clock)) && AtTheEnd(Next(v, DeliverI(0, v.clock)), n, p)
  {
    var q := NackPacket(w.lstn.streamId, w.lstn.rcv.nextExpected);
    var r := OnPacket(w.lstn, Normalise(p), w.clock);
    TurnedAway(w.lstn, Normalise(p), n, w.clock);
    OverTheWire(w.lstn, p, w.clock);
    DeliverLIs(w, 0, w.clock, r);
    AnsweredByL(w, Encode(p), r, q, w.clock);
    NotASyn(p);
    v := World(w.init, r.e, [], [Encode(q)], w.clock);
    SecondHalf(v, n, p, q);
  }

  lemma SecondHalf(v: World, n: int, p: Packet, q: Packet)
    requires Holds(v.init, n, p) && Stuck(v.lstn, n) && Numbers(p, n) && Fits(p) && Asks(q, n) && Fits(q)
    requires v.toL == [] && v.toI == [Encode(q)]
    ensures AtTheEnd(Next(v, DeliverI(0, v.clock)), n, p)
  {
    var r := OnPacket(v.init, Normalise(q), v.clock);
    Requested(v.init, Normalise(q), n, p, v.clock);
    OverTheWire(v.init, q, v.clock);
    DeliverIIs(v, 0, v.clock, r);
    AnsweredByI(v, Encode(q), r, p, v.clock);
  }

  lemma Prepend(w: World, s: Step, rest: seq<Step>) returns (run: seq<Step>)
    requires Enabled(w, s) && SameEpoch(w, s) && Legal(Next(w, s), rest) && Removes(s) && AllQuiet(rest)
    ensures Legal(w, run) && After(w, run) == After(Next(w, s), rest)
    ensures AllQuiet(run) && Removed(run) == 1 + Removed(rest)
  {
    run := [s] + rest;
    assert run[1..] == rest;
  }

  /** There data and negative acknowledgement chase each other for ever. */
  lemma {:induction false} StormAtTheEnd(w: World, n: int, p: Packet, k: nat) returns (run: seq<Step>)
    requires AtTheEnd(w, n, p)
    ensures Legal(w, run) && AllQuiet(run) && Removed(run) == 2 * k && AtTheEnd(After(w, run), n, p)
    decreases k
  {
    if k == 0 {
      run := [];
    } else {
      var v := OneRound(w, n, p);
      var back := DeliverI(0, v.clock);
      run := StormAtTheEnd(Next(v, back), n, p, k - 1);
      run := Prepend(v, back, run);
      run := Prepend(w, DeliverL(0, w.clock), run);
    }
  }
}
