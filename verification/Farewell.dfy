/** The FIN exchange: a loss-free transfer does not only complete, it is closed on both sides. */
module Farewell {
  import opened Wire
  import opened Clock
  import opened PacketCodec
  import opened SessionSpec
  import opened Sender
  import opened Receiver
  import opened Network
  import opened Reliability
  import opened Termination
  import opened Completion

  // ---------------------------------------------------------------- FIN and FIN|ACK under way

  predicate IsFinish(p: Packet, ack: bool) {
    p.header.packetType == Handshake && HasFin(p.header.flags) && HasAck(p.header.flags) == ack
  }

  predicate Finishes(d: Datagram, ack: bool) { Decode(d).Some? && IsFinish(Decode(d).value, ack) }

  ghost predicate UnderWay(net: seq<Datagram>, ack: bool) { exists i :: 0 <= i < |net| && Finishes(net[i], ack) }

  ghost predicate Among(out: seq<Packet>, ack: bool) {
    exists k :: 0 <= k < |out| && Fits(out[k]) && IsFinish(out[k], ack)
  }

  lemma StillUnderWay(net: seq<Datagram>, i: nat, ack: bool)
    requires i < |net| && UnderWay(net, ack) && !Finishes(net[i], ack)
    ensures UnderWay(Without(net, i), ack)
  {
    var j: nat :| 0 <= j < |net| && Finishes(net[j], ack);
    var k := StillThere(net, i, j);
    assert Finishes(Without(net, i)[k], ack);
  }

  lemma Came(net: seq<Datagram>, i: nat, k: nat) returns (j: nat)
    requires i < |net| && k < |Without(net, i)|
    ensures j < |net| && net[j] == Without(net, i)[k]
  {
    j := if k < i then k else k + 1;
  }

  lemma NoneAppears(net: seq<Datagram>, i: nat, ack: bool)
    requires i < |net| && UnderWay(Without(net, i), ack)
    ensures UnderWay(net, ack)
  {
    var k: nat :| k < |Without(net, i)| && Finishes(Without(net, i)[k], ack);
    var j := Came(net, i, k);
    assert Finishes(net[j], ack);
  }

  lemma FinishWire(p: Packet, ack: bool)
    requires Fits(p)
    ensures Finishes(Encode(p), ack) <==> IsFinish(p, ack)
  {
    DecodeEncode(p);
  }

  lemma {:induction false} WiresFinish(out: seq<Packet>, ack: bool)
    ensures UnderWay(Wires(out), ack) <==> Among(out, ack)
  {
    if out != [] {
      var p, rest := out[0], out[1..];
      WiresFinish(rest, ack);
      AmongCons(p, rest, ack);
      assert out == [p] + rest;
      if Fits(p) {
        FinishWire(p, ack);
        UnderWayJoin([Encode(p)], Wires(rest), ack);
        assert [Encode(p)][0] == Encode(p);
      } else {
        assert Wires(out) == Wires(rest);
      }
    }
  }

  lemma AmongCons(p: Packet, rest: seq<Packet>, ack: bool)
    ensures Among([p] + rest, ack) <==> (Fits(p) && IsFinish(p, ack)) || Among(rest, ack)
  {
    var out := [p] + rest;
    assert out[0] == p && forall k :: 0 <= k < |rest| ==> out[k + 1] == rest[k];
    if k :| 0 <= k < |out| && Fits(out[k]) && IsFinish(out[k], ack) {
      assert k > 0 ==> rest[k - 1] == out[k];
    }
    if k :| 0 <= k < |rest| && Fits(rest[k]) && IsFinish(rest[k], ack) {
      assert out[k + 1] == rest[k];
    }
  }

  lemma UnderWayJoin(a: seq<Datagram>, b: seq<Datagram>, ack: bool)
    ensures UnderWay(a + b, ack) <==> UnderWay(a, ack) || UnderWay(b, ack)
  {
    if i :| 0 <= i < |a + b| && Finishes((a + b)[i], ack) {
      assert (a + b)[i] == if i < |a| then a[i] else b[i - |a|];
    }
    if i :| 0 <= i < |a| && Finishes(a[i], ack) { assert (a + b)[i] == a[i]; }
    if i :| 0 <= i < |b| && Finishes(b[i], ack) { assert (a + b)[|a| + i] == b[i]; }
  }

  // ---------------------------------------------------------------- the invariant

  /** Where the farewell stands: the initiator's FIN is on its way, or answered and the answer
      on its way, or the initiator is closed; and a drained initiator has said FIN, unless it
      never had anything to send. */
  ghost predicate Parting(init: Endpoint, lstn: Endpoint, fin: bool, finAck: bool) {
    (lstn.finReceived ==> init.finSent && lstn.state == Closing) && (finAck ==> lstn.finReceived) &&
    (init.finSent && !lstn.finReceived ==> fin && init.state == Closing) &&
    (lstn.finReceived ==> (finAck && init.state == Closing) || (init.state == Closed && init.finReceived)) &&
    (init.state == Active && Drained(init.snd) ==> init.snd.sent == [])
  }

  ghost predicate Leaving(w: World) {
    Flowing(w) && Parting(w.init, w.lstn, UnderWay(w.toL, false), UnderWay(w.toI, true))
  }

  /** When nothing is under way any more, both sides have closed. */
  lemma QuietIsClosed(w: World)
    requires Leaving(w) && w.toL == [] && w.toI == [] && w.init.snd.sent != []
    ensures w.init.state == Closed && w.init.finReceived && w.lstn.state == Closing && w.lstn.finReceived
  {
    QuietIsComplete(w);
  }

  // ---------------------------------------------------------------- the listener

  lemma FeedbackHasNone(out: seq<Packet>, ack: bool)
    requires forall k :: 0 <= k < |out| ==> out[k].header.packetType == Ack || out[k].header.packetType == Nack
    ensures !Among(out, ack)
  {
  }

  lemma ReceiveHasNone(r: Receiving, streamId: uint32, p: Packet, now: Time, ack: bool)
    ensures !Among(Receive(r, streamId, p, now).out, ack)
  {
    AcceptAllFeedback(Stored(r, p), streamId, now);
    FeedbackHasNone(Receive(r, streamId, p, now).out, ack);
  }

  /** The listener answers the first FIN with FIN|ACK, and sends none otherwise. */
  lemma HandshakeParts(e: Endpoint, p: Packet, now: Time)
    requires e.role == Listener && p.header.packetType == Handshake && !HasSyn(p.header.flags)
    requires HasFin(p.header.flags) ==> !HasAck(p.header.flags)
    ensures var r := OnHandshake(e, p, now);
      (Among(r.out, true) <==> IsFinish(p, false) && !e.finReceived) &&
      (r.e.finReceived <==> e.finReceived || IsFinish(p, false)) &&
      (IsFinish(p, false) && !e.finReceived ==> r.e.state == Closing) &&
      (e.state == Closing ==> r.e.state == Closing)
  {
    var answer := HandshakePacket(e.streamId, FLAG_FIN + FLAG_ACK);
    if IsFinish(p, false) && !e.finReceived { assert [answer][0] == answer; }
  }

  lemma ListenerParts(e: Endpoint, p: Packet, now: Time)
    requires e.role == Listener && e.snd.inFlight == map[]
    requires p.header.packetType == Handshake ==> !HasSyn(p.header.flags)
    requires p.header.packetType == Handshake && HasFin(p.header.flags) ==> !HasAck(p.header.flags)
    ensures var r := OnPacket(e, p, now);
      (Among(r.out, true) <==> IsFinish(p, false) && !e.finReceived) &&
      (r.e.finReceived <==> e.finReceived || IsFinish(p, false)) &&
      (IsFinish(p, false) && !e.finReceived ==> r.e.state == Closing) &&
      (e.state == Closing ==> r.e.state == Closing)
  {
    match p.header.packetType {
      case Handshake => HandshakeParts(e, p, now);
      case Data =>
        var w := if e.state == Handshaking then e.(state := Active) else e;
        ReceiveHasNone(e.rcv, w.streamId, p, now, true);
      case Ack => FeedbackIgnored(e, p, now); ListenerStays(e, p, now);
      case Nack => FeedbackIgnored(e, p, now); ListenerStays(e, p, now);
      case _ =>
    }
  }

  lemma ListenerStays(e: Endpoint, p: Packet, now: Time)
    requires e.role == Listener && (p.header.packetType == Ack || p.header.packetType == Nack)
    ensures OnPacket(e, p, now).e.state == e.state && OnPacket(e, p, now).e.finReceived == e.finReceived
  {
  }

  /** A datagram at the listener, seen from the farewell. */
  lemma DatagramParts(w: World, i: nat, now: Time)
    requires Flowing(w) && Enabled(w, DeliverL(i, now))
    ensures var d, r := w.toL[i], OnDatagram(w.lstn, w.toL[i], now);
      (Among(r.out, true) <==> Finishes(d, false) && !w.lstn.finReceived) &&
      (r.e.finReceived <==> w.lstn.finReceived || Finishes(d, false)) &&
      (Finishes(d, false) && !w.lstn.finReceived ==> r.e.state == Closing) &&
      (w.lstn.state == Closing ==> r.e.state == Closing) && (Finishes(d, false) ==> w.init.finSent)
  {
    var d := w.toL[i];
    assert LetterL(d, w.init.finSent);
    if Decode(d).Some? { ListenerParts(w.lstn, Decode(d).value, now); }
  }

  lemma DeliverLLeaves(w: World, i: nat, now: Time)
    requires Leaving(w) && Enabled(w, DeliverL(i, now))
    ensures Leaving(Next(w, DeliverL(i, now)))
  {
    var d := w.toL[i];
    var r := OnDatagram(w.lstn, d, now);
    DeliverLFlows(w, i, now);
    DeliverLIs(w, i, now, r);
    DatagramParts(w, i, now);
    UnderWayJoin(w.toI, Wires(r.out), true);
    WiresFinish(r.out, true);
    if UnderWay(w.toL, false) && !Finishes(d, false) { StillUnderWay(w.toL, i, false); }
  }

  // ---------------------------------------------------------------- the initiator

  /** What an initiator's reaction does to the farewell. */
  ghost predicate Bids(e: Endpoint, r: Reply, answered: bool) {
    (r.e.finSent <==> e.finSent || Among(r.out, false)) && (e.finSent ==> r.e.finSent) &&
    (!e.finSent && r.e.finSent ==> r.e.state == Closing) &&
    (e.finSent && !answered ==> r.e.state == e.state && r.e.finReceived == e.finReceived) &&
    (answered ==> r.e.state == Closed && r.e.finReceived && r.e.finSent == e.finSent) &&
    (r.e.state == Active && Drained(r.e.snd) ==> r.e.snd.sent == [])
  }

  lemma {:induction false} DummiesHaveNone(s: Sending, streamId: uint32, now: Time)
    ensures !Among(FillDummy(s, streamId, now).out, false)
    decreases s.remaining
  {
    if |s.inFlight| < SEND_WINDOW && s.remaining > 0 {
      var t := SendDummy(s, streamId, now);
      DummiesHaveNone(t, streamId, now);
      AmongCons(DummyPacket(s, streamId, now), FillDummy(t, streamId, now).out, false);
    }
  }

  /** Filling the window of a sender that has something left leaves something in flight. */
  lemma {:induction false} FillDummyBusy(s: Sending, streamId: uint32, now: Time)
    requires SenderOk(s) && !s.mediaMode
    ensures Drained(FillDummy(s, streamId, now).s) ==> Drained(s) && FillDummy(s, streamId, now).s == s
    decreases s.remaining
  {
    if |s.inFlight| < SEND_WINDOW && s.remaining > 0 {
      var t := SendDummy(s, streamId, now);
      SendDummyKeeps(s, streamId, now);
      FillDummyBusy(t, streamId, now);
      assert s.nextSeq as int in t.inFlight;
    }
  }

  lemma FillWindowBids(e: Endpoint, now: Time)
    requires SenderOk(e.snd) && !e.snd.mediaMode && e.role == Initiator
    ensures var r := FillWindow(e, now);
      !Among(r.out, false) && (Drained(r.e.snd) ==> Drained(e.snd) && r.e.snd.sent == e.snd.sent) &&
      r.e.finReceived == e.finReceived
  {
    if e.state == Active {
      var t := Refill(e.snd, now);
      Retuned(e.snd, t);
      DummiesHaveNone(t, e.streamId, now);
      FillDummyBusy(t, e.streamId, now);
    }
  }

  lemma ProceedBids(e: Endpoint, now: Time)
    requires SenderOk(e.snd) && !e.snd.mediaMode && e.role == Initiator && !e.failed && e.state != Handshaking
    requires e.state == Active <==> !e.finSent
    ensures Bids(e, Proceed(e, now), false)
  {
    if IsComplete(e) && !e.finSent {
      var fin := HandshakePacket(e.streamId, FLAG_FIN);
      assert [fin][0] == fin;
    } else {
      FillWindowBids(e, now);
      FillWindowStatus(e, now);
    }
  }

  lemma AckBids(e: Endpoint, p: Packet, now: Time)
    requires SenderOk(e.snd) && !e.snd.mediaMode && e.role == Initiator && Sends(e)
    ensures Bids(e, OnAck(e, p, now), false)
  {
    var n: int := p.header.sequenceNumber;
    var a := e.(snd := Acked(e.snd, n, now));
    AckedKeeps(e.snd, n, now);
    ProceedBids(a, now);
  }

  lemma NackBids(e: Endpoint, p: Packet, now: Time)
    requires SenderOk(e.snd) && !e.snd.mediaMode && e.role == Initiator && Sends(e)
    requires e.state == Active && Drained(e.snd) ==> e.snd.sent == []
    ensures Bids(e, OnNack(e, p, now), false)
  {
    var n: int := p.header.sequenceNumber;
    if n in e.snd.inFlight {
      var t := Nudged(e.snd, n, now).s;
      assert t.inFlight.Keys == e.snd.inFlight.Keys && n in t.inFlight;
      assert e.snd.inFlight[n].packet == e.snd.sent[n];
    }
  }

  lemma HandshakeBids(e: Endpoint, p: Packet, now: Time)
    requires e.role == Initiator && Sends(e) && p.header.packetType == Handshake
    requires HasFin(p.header.flags) ==> HasAck(p.header.flags)
    requires e.state == Active && Drained(e.snd) ==> e.snd.sent == []
    ensures Bids(e, OnHandshake(e, p, now), IsFinish(p, true))
  {
  }

  lemma PacketBids(e: Endpoint, p: Packet, now: Time)
    requires SenderOk(e.snd) && !e.snd.mediaMode && e.role == Initiator && Sends(e) && !IsData(p)
    requires p.header.packetType == Handshake && HasFin(p.header.flags) ==> HasAck(p.header.flags)
    requires e.state == Active && Drained(e.snd) ==> e.snd.sent == []
    ensures Bids(e, OnPacket(e, p, now), IsFinish(p, true))
  {
    match p.header.packetType {
      case Handshake => HandshakeBids(e, p, now);
      case Ack => if Open(e) { AckBids(e, p, now); }
      case Nack => if Open(e) { NackBids(e, p, now); }
      case _ =>
    }
  }

  lemma DatagramBids(w: World, i: nat, now: Time)
    requires Leaving(w) && Enabled(w, DeliverI(i, now))
    ensures Bids(w.init, OnDatagram(w.init, w.toI[i], now), Finishes(w.toI[i], true))
  {
    var d := w.toI[i];
    assert Honest(d, w.lstn.rcv.nextExpected) && LetterI(d, w.init.finSent);
    if Decode(d).Some? { PacketBids(w.init, Decode(d).value, now); }
  }

  lemma DeliverILeaves(w: World, i: nat, now: Time)
    requires Leaving(w) && Enabled(w, DeliverI(i, now))
    ensures Leaving(Next(w, DeliverI(i, now)))
  {
    var d := w.toI[i];
    var r := OnDatagram(w.init, d, now);
    DummiesStay(w, DeliverI(i, now));
    DeliverIFlows(w, i, now);
    DeliverIIs(w, i, now, r);
    DatagramBids(w, i, now);
    UnderWayJoin(w.toL, Wires(r.out), false);
    WiresFinish(r.out, false);
    if Finishes(d, true) { assert UnderWay(w.toI, true); }
    if UnderWay(w.toI, true) && !Finishes(d, true) { StillUnderWay(w.toI, i, true); }
    if UnderWay(Without(w.toI, i), true) { NoneAppears(w.toI, i, true); }
  }

  // ---------------------------------------------------------------- every order of delivery

  ghost predicate Hello(w: World) { Greeting(w) && !w.init.snd.mediaMode && !w.lstn.finReceived }

  ghost predicate Civil(w: World) { Hello(w) || Leaving(w) }

  lemma SynForgets(e: Endpoint, p: Packet, now: Time)
    requires e.role == Listener && p.header.packetType == Handshake && p.header.flags == FLAG_SYN
    ensures !OnPacket(e, p, now).e.finReceived
  {
  }

  lemma HelloToL(w: World, i: nat, now: Time)
    requires Hello(w) && Enabled(w, DeliverL(i, now))
    ensures Hello(Next(w, DeliverL(i, now)))
  {
    assert i == 0;
    SynArrives(w, now);
    SynForgets(w.lstn, Decode(w.toL[0]).value, now);
    DeliverLIs(w, 0, now, OnDatagram(w.lstn, w.toL[0], now));
  }

  /** The initiator becomes active with its window filled, or with nothing to send. */
  lemma SynAckBids(e: Endpoint, p: Packet, now: Time)
    requires SenderOk(e.snd) && !e.snd.mediaMode && e.role == Initiator && e.state == Handshaking && !e.finSent
    requires p.header.packetType == Handshake && p.header.flags == FLAG_SYN + FLAG_ACK && e.snd.sent == []
    ensures var f := OnPacket(e, p, now).e; !f.finSent && (Drained(f.snd) ==> f.snd.sent == [])
  {
    var b := e.(streamId := p.header.streamId, state := Active);
    FillWindowBids(b, now);
    FillWindowStatus(b, now);
    SynAckReply(e, p, now);
  }

  lemma HelloToI(w: World, i: nat, now: Time)
    requires Hello(w) && Enabled(w, DeliverI(i, now))
    ensures Leaving(Next(w, DeliverI(i, now)))
  {
    assert i == 0;
    var r := OnDatagram(w.init, w.toI[0], now);
    DummiesStay(w, DeliverI(0, now));
    SynAckArrives(w, now);
    SynAckBids(w.init, Decode(w.toI[0]).value, now);
    DeliverIIs(w, 0, now, r);
    assert Without(w.toI, 0) == [];
  }

  lemma StepIsCivil(w: World, s: Step)
    requires Civil(w) && Enabled(w, s) && Delivers(s)
    ensures Civil(Next(w, s))
  {
    match s {
      case DeliverL(i, now) => if Hello(w) { HelloToL(w, i, now); } else { DeliverLLeaves(w, i, now); }
      case DeliverI(i, now) => if Hello(w) { HelloToI(w, i, now); } else { DeliverILeaves(w, i, now); }
    }
  }

  lemma {:induction false} RunIsCivil(w: World, run: seq<Step>)
    requires Civil(w) && Legal(w, run) && forall k :: 0 <= k < |run| ==> Delivers(run[k])
    ensures Civil(After(w, run))
    decreases |run|
  {
    if run != [] {
      assert Delivers(run[0]);
      StepIsCivil(w, run[0]);
      RunIsCivil(Next(w, run[0]), run[1..]);
    }
  }

  lemma StartedIsHello(count: uint32, size: uint16, hasSink: bool, now: Time)
    requires count + SEND_WINDOW <= TWO_32
    ensures Hello(Started(count, size, hasSink, now))
  {
    StartedUnderway(count, size, hasSink, now);
  }

  // ---------------------------------------------------------------- nothing to send

  /** An initiator that has nothing to send and has not said FIN: FIN is said on an
      acknowledgement only. */
  ghost predicate Mute(w: World) {
    Civil(w) && PlanSize(w.init.snd) == 0 && !w.init.finSent && !w.init.failed &&
    (w.init.state == Handshaking || w.init.state == Active)
  }

  lemma NoSlots(s: Sending)
    requires Slots(s.sent, s.inFlight) && s.sent == []
    ensures s.inFlight == map[]
  {
    forall k ensures k !in s.inFlight.Keys {
      assert k in s.inFlight ==> 0 <= k < |s.sent|;
    }
    NoElements(s.inFlight.Keys);
  }

  lemma NothingSent(w: World)
    requires Mute(w)
    ensures w.init.snd.sent == [] && w.init.snd.inFlight == map[] && w.lstn.rcv.nextExpected == 0
  {
    DeliveredBound(w.lstn.rcv.delivered, w.init.snd.sent);
    NoSlots(w.init.snd);
  }

  lemma MutePacket(e: Endpoint, p: Packet, now: Time)
    requires e.role == Initiator && !e.finSent && !e.failed && (e.state == Handshaking || e.state == Active)
    requires e.snd.inFlight == map[] && p.header.packetType != Ack && !IsData(p)
    requires p.header.packetType == Handshake ==> !HasFin(p.header.flags)
    ensures var f := OnPacket(e, p, now).e; !f.finSent && !f.failed && (f.state == Handshaking || f.state == Active)
  {
    if p.header.packetType == Handshake && IsSynAck(p.header.flags) {
      FillWindowStatus(e.(streamId := p.header.streamId, state := Active), now);
    }
  }

  lemma SynAckHasNoFin()
    ensures !HasFin(FLAG_SYN + FLAG_ACK)
  {
  }

  lemma SynAckIsPolite(d: Datagram)
    requires IsGreeting(d, FLAG_SYN + FLAG_ACK)
    ensures LetterI(d, false)
  {
    SynAckHasNoFin();
  }

  /** No FIN reaches it. */
  lemma GreetingLetter(w: World, i: nat)
    requires Greeting(w) && i < |w.toI|
    ensures LetterI(w.toI[i], false)
  {
    assert i == 0;
    SynAckIsPolite(w.toI[0]);
  }

  lemma MuteLetter(w: World, i: nat)
    requires Mute(w) && i < |w.toI|
    ensures LetterI(w.toI[i], false)
  {
    if Hello(w) { GreetingLetter(w, i); }
  }

  /** With nothing delivered there is no acknowledgement. */
  lemma NoAnswerYet(p: Packet)
    requires Answers(p, 0)
    ensures p.header.packetType != Ack && !IsData(p)
  {
  }

  lemma MuteDatagram(w: World, i: nat, now: Time)
    requires Mute(w) && Enabled(w, DeliverI(i, now))
    ensures var f := OnDatagram(w.init, w.toI[i], now).e;
      !f.finSent && !f.failed && (f.state == Handshaking || f.state == Active)
  {
    var d := Decode(w.toI[i]);
    NothingSent(w);
    MuteLetter(w, i);
    assert Honest(w.toI[i], w.lstn.rcv.nextExpected);
    if d.Some? {
      NoAnswerYet(d.value);
      MutePacket(w.init, d.value, now);
    }
  }

  lemma StepIsQuiet(w: World, s: Step)
    requires Mute(w) && Enabled(w, s) && Delivers(s)
    ensures var f := Next(w, s).init; !f.finSent && !f.failed && (f.state == Handshaking || f.state == Active)
  {
    match s {
      case DeliverI(i, now) =>
        MuteDatagram(w, i, now);
        DeliverIIs(w, i, now, OnDatagram(w.init, w.toI[i], now));
      case DeliverL(i, now) =>
        DeliverLIs(w, i, now, OnDatagram(w.lstn, w.toL[i], now));
    }
  }

  lemma StepIsMute(w: World, s: Step)
    requires Mute(w) && Enabled(w, s) && SameEpoch(w, s) && Delivers(s)
    ensures Mute(Next(w, s))
  {
    StepIsCivil(w, s);
    StepKeeps(w, s);
    StepIsQuiet(w, s);
  }

  lemma {:induction false} RunIsMute(w: World, run: seq<Step>)
    requires Mute(w) && Legal(w, run) && forall k :: 0 <= k < |run| ==> Delivers(run[k])
    ensures Mute(After(w, run))
    decreases |run|
  {
    if run != [] {
      assert Delivers(run[0]);
      StepIsMute(w, run[0]);
      RunIsMute(Next(w, run[0]), run[1..]);
    }
  }

  // ---------------------------------------------------------------- the end of an exchange

  /** Both sides have taken their leave. */
  predicate Parted(w: World) {
    w.init.state == Closed && w.init.finReceived && !w.init.failed && w.lstn.state == Closing && w.lstn.finReceived
  }

  lemma SomethingParts(count: uint32, size: uint16, hasSink: bool, now: Time, run: seq<Step>)
    requires 0 < count && count + SEND_WINDOW <= TWO_32 && Legal(Started(count, size, hasSink, now), run)
    requires forall k :: 0 <= k < |run| ==> Delivers(run[k])
    requires var w := After(Started(count, size, hasSink, now), run); w.toL == [] && w.toI == []
    ensures Parted(After(Started(count, size, hasSink, now), run))
  {
    var w := After(Started(count, size, hasSink, now), run);
    StartedIsHello(count, size, hasSink, now);
    RunIsCivil(Started(count, size, hasSink, now), run);
    LossFreeCompletes(count, size, hasSink, now, run);
    QuietIsComplete(w);
    QuietIsClosed(w);
  }

  lemma NothingStays(size: uint16, hasSink: bool, now: Time, run: seq<Step>)
    requires Legal(Started(0, size, hasSink, now), run) && forall k :: 0 <= k < |run| ==> Delivers(run[k])
    requires var w := After(Started(0, size, hasSink, now), run); w.toL == [] && w.toI == []
    ensures var w := After(Started(0, size, hasSink, now), run);
      IsComplete(w.init) && w.init.state == Active && !w.init.finSent
  {
    StartedIsHello(0, size, hasSink, now);
    RunIsMute(Started(0, size, hasSink, now), run);
    QuietIsComplete(After(Started(0, size, hasSink, now), run));
  }

  /** Whatever the order of deliveries: when a loss-free exchange has run dry, the initiator is
      closed by the listener's FIN|ACK and the listener is closing, exactly when there was a packet
      to send; otherwise the initiator is complete and has said no FIN. */
  lemma LossFreeCloses(count: uint32, size: uint16, hasSink: bool, now: Time, run: seq<Step>)
    requires count + SEND_WINDOW <= TWO_32 && Legal(Started(count, size, hasSink, now), run)
    requires forall k :: 0 <= k < |run| ==> Delivers(run[k])
    requires var w := After(Started(count, size, hasSink, now), run); w.toL == [] && w.toI == []
    ensures var w := After(Started(count, size, hasSink, now), run);
      (Parted(w) <==> count > 0) && (count == 0 <==> IsComplete(w.init) && w.init.state == Active && !w.init.finSent)
  {
    if count > 0 { SomethingParts(count, size, hasSink, now, run); } else { NothingStays(size, hasSink, now, run); }
  }
}
