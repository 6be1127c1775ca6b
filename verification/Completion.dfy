/** An exchange that loses nothing completes: with the timers silent and every datagram
    delivered once, in any order, the transfer runs to its end. */
module Completion {
  import opened Wire
  import opened Clock
  import opened PacketCodec
  import opened SessionSpec
  import opened Sender
  import opened Receiver
  import opened Network
  import opened Reliability
  import opened Window
  import opened Termination

  // ---------------------------------------------------------------- what is under way

  predicate IsDataFor(d: Datagram, n: int) {
    Decode(d).Some? && IsData(Decode(d).value) && Decode(d).value.header.sequenceNumber == n
  }

  predicate IsAckFor(d: Datagram, n: int) {
    Decode(d).Some? && Decode(d).value.header.packetType == Ack && Decode(d).value.header.sequenceNumber == n
  }

  ghost predicate DataUnderWay(net: seq<Datagram>, n: int) { exists i :: 0 <= i < |net| && IsDataFor(net[i], n) }

  ghost predicate AckUnderWay(net: seq<Datagram>, n: int) { exists i :: 0 <= i < |net| && IsAckFor(net[i], n) }

  /** Number `n` is on its way, on its way back, or waits in the reorder buffer. */
  ghost predicate Chased(w: World, n: int) {
    DataUnderWay(w.toL, n) || AckUnderWay(w.toI, n) || n in w.lstn.rcv.reorder
  }

  /** Handshake packets to the listener: no SYN, no FIN|ACK, and a FIN only once it was sent. */
  predicate LetterL(d: Datagram, finSent: bool) {
    Decode(d).Some? && Decode(d).value.header.packetType == Handshake ==>
      !HasSyn(Decode(d).value.header.flags) &&
      (HasFin(Decode(d).value.header.flags) ==> !HasAck(Decode(d).value.header.flags) && finSent)
  }

  /** Handshake packets to the initiator: a FIN only in answer to its own. */
  predicate LetterI(d: Datagram, finSent: bool) {
    Decode(d).Some? && Decode(d).value.header.packetType == Handshake && HasFin(Decode(d).value.header.flags) ==>
      HasAck(Decode(d).value.header.flags) && finSent
  }

  ghost predicate LettersToL(net: seq<Datagram>, finSent: bool) {
    forall i :: 0 <= i < |net| ==> LetterL(net[i], finSent)
  }

  ghost predicate LettersToI(net: seq<Datagram>, finSent: bool) {
    forall i :: 0 <= i < |net| ==> LetterI(net[i], finSent)
  }

  ghost predicate Letters(toL: seq<Datagram>, toI: seq<Datagram>, finSent: bool) {
    LettersToL(toL, finSent) && LettersToI(toI, finSent)
  }

  /** An initiator past its handshake: it says FIN when and only when it is drained, and
      before that its window is full or it has nothing left to send. */
  ghost predicate Sends(e: Endpoint) {
    e.state != Handshaking && !e.failed && (e.state == Active <==> !e.finSent) && (e.finSent ==> Drained(e.snd)) &&
    (e.state == Active ==> Full(e.snd))
  }

  /** The window is full or no dummy packet is left. */
  predicate Full(s: Sending) { !s.mediaMode && |s.inFlight| < SEND_WINDOW ==> s.remaining == 0 }

  /** Numbers, and the window above them, fit 32 bits, and nothing was dropped at its deadline. */
  ghost predicate Undropped(w: World) { Modest(w) && w.init.snd.deadlineDrops == 0 }

  /** An exchange of dummy packets, which have no deadline. */
  ghost predicate Plain(w: World) { Modest(w) && !w.init.snd.mediaMode }

  /** In both modes, the exchange after the handshake, whatever the network lost. */
  ghost predicate Exchanging(w: World) {
    Undropped(w) && Sends(w.init) && w.lstn.state != Closed && Letters(w.toL, w.toI, w.init.finSent)
  }

  /** In both modes, the exchange after the handshake, with nothing lost. */
  ghost predicate Lossless(w: World) {
    Exchanging(w) && forall n :: n in w.init.snd.inFlight ==> Chased(w, n)
  }

  /** The exchange of dummy packets after the handshake, whatever the network lost. */
  ghost predicate Steady(w: World) { Exchanging(w) && !w.init.snd.mediaMode }

  /** The exchange of dummy packets after the handshake, with nothing lost. */
  ghost predicate Flowing(w: World) { Lossless(w) && !w.init.snd.mediaMode }

  predicate IsGreeting(d: Datagram, flags: byte) {
    Decode(d).Some? && Decode(d).value.header.packetType == Handshake && Decode(d).value.header.flags == flags
  }

  /** The exchange so far is a SYN under way, or its answer. */
  ghost predicate Greeting(w: World) {
    Undropped(w) && w.init.state == Handshaking && !w.init.failed && !w.init.finSent && w.init.snd.sent == [] &&
    w.init.snd.inFlight == map[] && w.lstn.rcv.nextExpected == 0 && w.lstn.state != Closed &&
    ((w.toI == [] && |w.toL| == 1 && IsGreeting(w.toL[0], FLAG_SYN)) ||
     (w.toL == [] && |w.toI| == 1 && IsGreeting(w.toI[0], FLAG_SYN + FLAG_ACK)))
  }

  /** An exchange, of either mode, that has lost nothing so far. */
  ghost predicate Unbroken(w: World) { Greeting(w) || Lossless(w) }

  ghost predicate Underway(w: World) { Unbroken(w) && !w.init.snd.mediaMode }

  // ---------------------------------------------------------------- the end

  lemma NoGap(s: set<int>, r: set<int>, next: int, top: int)
    requires s <= r && forall n :: n in r ==> next < n < top
    requires forall n :: next <= n < top ==> n in s
    ensures s == {} && top <= next
  {
    assert next !in s;
    assert top <= next;
    forall n ensures n !in r {
      assert n in r ==> next < n < top;
    }
    assert r == {};
  }

  lemma NothingIsMissing(s: Sending, r: Receiving)
    requires SenderOk(s) && ReceiverOk(r, s.sent) && Settled(s, r.nextExpected) && s.deadlineDrops == 0
    requires forall n :: n in s.inFlight ==> n in r.reorder
    ensures s.inFlight == map[] && r.nextExpected == |s.sent| == |r.delivered|
  {
    forall n | n in r.reorder ensures r.nextExpected < n < |s.sent| {
      assert Carries(r.reorder[n], s.sent, n);
    }
    forall n | n in s.inFlight.Keys ensures n in r.reorder.Keys {
      assert n in s.inFlight;
    }
    NoGap(s.inFlight.Keys, r.reorder.Keys, r.nextExpected, |s.sent|);
    DeliveredBound(r.delivered, s.sent);
  }

  /** When nothing is under way any more, everything sent is settled and delivered. */
  lemma QuietIsSettled(w: World)
    requires Unbroken(w) && w.toL == [] && w.toI == []
    ensures w.init.state != Handshaking && !w.init.failed && w.init.snd.inFlight == map[]
    ensures w.lstn.rcv.nextExpected == |w.init.snd.sent| == |w.lstn.rcv.delivered|
  {
    assert Lossless(w);
    forall n | n in w.init.snd.inFlight ensures n in w.lstn.rcv.reorder {
      assert Chased(w, n);
    }
    NothingIsMissing(w.init.snd, w.lstn.rcv);
  }

  /** An exchange of dummy packets is complete then. */
  lemma QuietIsComplete(w: World)
    requires Underway(w) && w.toL == [] && w.toI == []
    ensures IsComplete(w.init) && w.lstn.rcv.nextExpected == |w.init.snd.sent| == |w.lstn.rcv.delivered|
  {
    QuietIsSettled(w);
  }

  // ---------------------------------------------------------------- channels

  lemma DataStays(a: seq<Datagram>, b: seq<Datagram>, n: int)
    requires DataUnderWay(a, n)
    ensures DataUnderWay(a + b, n)
  {
    var i :| 0 <= i < |a| && IsDataFor(a[i], n);
    assert (a + b)[i] == a[i];
  }

  lemma DataComes(a: seq<Datagram>, b: seq<Datagram>, n: int)
    requires DataUnderWay(b, n)
    ensures DataUnderWay(a + b, n)
  {
    var i :| 0 <= i < |b| && IsDataFor(b[i], n);
    assert (a + b)[|a| + i] == b[i];
  }

  lemma AckStays(a: seq<Datagram>, b: seq<Datagram>, n: int)
    requires AckUnderWay(a, n)
    ensures AckUnderWay(a + b, n)
  {
    var i :| 0 <= i < |a| && IsAckFor(a[i], n);
    assert (a + b)[i] == a[i];
  }

  lemma AckComes(a: seq<Datagram>, b: seq<Datagram>, n: int)
    requires AckUnderWay(b, n)
    ensures AckUnderWay(a + b, n)
  {
    var i :| 0 <= i < |b| && IsAckFor(b[i], n);
    assert (a + b)[|a| + i] == b[i];
  }

  lemma StillThere(net: seq<Datagram>, i: nat, j: nat) returns (k: nat)
    requires i < |net| && j < |net| && i != j
    ensures k < |Without(net, i)| && Without(net, i)[k] == net[j]
  {
    k := if j < i then j else j - 1;
  }

  lemma DataWithout(net: seq<Datagram>, i: nat, n: int)
    requires i < |net| && DataUnderWay(net, n) && !IsDataFor(net[i], n)
    ensures DataUnderWay(Without(net, i), n)
  {
    var j: nat :| 0 <= j < |net| && IsDataFor(net[j], n);
    var k := StillThere(net, i, j);
    assert IsDataFor(Without(net, i)[k], n);
  }

  lemma AckWithout(net: seq<Datagram>, i: nat, n: int)
    requires i < |net| && AckUnderWay(net, n) && !IsAckFor(net[i], n)
    ensures AckUnderWay(Without(net, i), n)
  {
    var j: nat :| 0 <= j < |net| && IsAckFor(net[j], n);
    var k := StillThere(net, i, j);
    assert IsAckFor(Without(net, i)[k], n);
  }

  lemma EncodedData(p: Packet)
    requires Fits(p) && IsData(p)
    ensures IsDataFor(Encode(p), p.header.sequenceNumber)
  {
    DecodeEncode(p);
  }

  lemma EncodedAck(p: Packet)
    requires Fits(p) && p.header.packetType == Ack
    ensures IsAckFor(Encode(p), p.header.sequenceNumber)
  {
    DecodeEncode(p);
  }

  /** A data packet sent is under way. */
  lemma {:induction false} DataSent(out: seq<Packet>, k: nat)
    requires k < |out| && IsData(out[k]) && Fits(out[k])
    ensures DataUnderWay(Wires(out), out[k].header.sequenceNumber)
  {
    var n := out[k].header.sequenceNumber;
    if k == 0 {
      EncodedData(out[0]);
      assert Wires(out)[0] == Encode(out[0]);
    } else {
      DataSent(out[1..], k - 1);
      DataComes(if Fits(out[0]) then [Encode(out[0])] else [], Wires(out[1..]), n);
    }
  }

  lemma {:induction false} AckSent(out: seq<Packet>, k: nat)
    requires k < |out| && out[k].header.packetType == Ack && Fits(out[k])
    ensures AckUnderWay(Wires(out), out[k].header.sequenceNumber)
  {
    var n := out[k].header.sequenceNumber;
    if k == 0 {
      EncodedAck(out[0]);
      assert Wires(out)[0] == Encode(out[0]);
    } else {
      AckSent(out[1..], k - 1);
      AckComes(if Fits(out[0]) then [Encode(out[0])] else [], Wires(out[1..]), n);
    }
  }

  // ---------------------------------------------------------------- the listener's part

  /** The packets contain an acknowledgement, or the data, of number `n`. */
  ghost predicate Acks(out: seq<Packet>, n: int) {
    exists k :: 0 <= k < |out| && out[k].header.packetType == Ack && Fits(out[k]) && out[k].header.sequenceNumber == n
  }

  ghost predicate Carrying(out: seq<Packet>, n: int) {
    exists k :: 0 <= k < |out| && IsData(out[k]) && Fits(out[k]) && out[k].header.sequenceNumber == n
  }

  lemma AcksCons(p: Packet, out: seq<Packet>, n: int)
    requires Acks(out, n)
    ensures Acks([p] + out, n)
  {
    var k :| 0 <= k < |out| && out[k].header.packetType == Ack && Fits(out[k]) && out[k].header.sequenceNumber == n;
    assert ([p] + out)[k + 1] == out[k];
  }

  /** What leaves the reorder buffer is acknowledged. */
  lemma {:induction false} AcceptAllAcks(r: Receiving, streamId: uint32, now: Time, n: int)
    requires n in r.reorder
    ensures var q := AcceptAll(r, streamId, now); n in q.r.reorder || Acks(q.out, n)
    decreases |r.reorder|
  {
    if r.nextExpected as int in r.reorder {
      var a := Accept(r, now);
      assert r.reorder.Keys == a.reorder.Keys + {r.nextExpected as int};
      var q := AcceptAll(a, streamId, now);
      if n == r.nextExpected {
        assert ([AckPacket(streamId, r.nextExpected)] + q.out)[0].header.sequenceNumber == n;
      } else {
        AcceptAllAcks(a, streamId, now, n);
        if Acks(q.out, n) { AcksCons(AckPacket(streamId, r.nextExpected), q.out, n); }
      }
    }
  }

  /** A data packet in the window, or one buffered before it, is buffered or acknowledged. */
  lemma ReceiveAcks(r: Receiving, streamId: uint32, p: Packet, now: Time, n: int)
    requires n in r.reorder || n == p.header.sequenceNumber
    requires n !in r.reorder && p.header.sequenceNumber >= r.nextExpected ==> !BeyondWindow(r, p.header.sequenceNumber)
    ensures var q := Receive(r, streamId, p, now); n in q.r.reorder || Acks(q.out, n)
  {
    var s := p.header.sequenceNumber;
    if s < r.nextExpected {
      assert [AckPacket(streamId, s)][0].header.sequenceNumber == s;
    } else if s == r.nextExpected && !BeyondWindow(r, s) {
      AcceptAllAcks(Stored(r, p), streamId, now, n);
    }
  }

  lemma DataAcks(e: Endpoint, p: Packet, now: Time, n: int)
    requires e.role == Listener && e.state != Closed && IsData(p)
    requires n in e.rcv.reorder || n == p.header.sequenceNumber
    requires n !in e.rcv.reorder && p.header.sequenceNumber >= e.rcv.nextExpected ==> !BeyondWindow(e.rcv, p.header.sequenceNumber)
    ensures var r := OnPacket(e, p, now); n in r.e.rcv.reorder || Acks(r.out, n)
  {
    var w := if e.state == Handshaking then e.(state := Active) else e;
    ReceiveAcks(e.rcv, w.streamId, p, now, n);
  }

  lemma OtherKeepsBuffer(e: Endpoint, p: Packet, now: Time)
    requires e.role == Listener && e.snd.inFlight == map[] && !IsData(p)
    requires p.header.packetType == Handshake ==> !HasSyn(p.header.flags)
    ensures OnPacket(e, p, now).e.rcv == e.rcv
  {
  }

  lemma AcksUnderWay(net: seq<Datagram>, out: seq<Packet>, n: int)
    requires Acks(out, n)
    ensures AckUnderWay(net + Wires(out), n)
  {
    var k :| 0 <= k < |out| && out[k].header.packetType == Ack && Fits(out[k]) && out[k].header.sequenceNumber == n;
    AckSent(out, k);
    AckComes(net, Wires(out), n);
  }

  /** One delivery to the listener, seen from a number in flight. */
  lemma ListenerChases(w: World, i: nat, now: Time, n: int)
    requires Lossless(w) && Enabled(w, DeliverL(i, now)) && n in w.init.snd.inFlight
    ensures Chased(FromL(w.(toL := Without(w.toL, i)), OnDatagram(w.lstn, w.toL[i], now), now), n)
  {
    var d := w.toL[i];
    var r := OnDatagram(w.lstn, d, now);
    assert Chased(w, n) && LetterL(d, w.init.finSent);
    if DataUnderWay(w.toL, n) && !IsDataFor(d, n) {
      DataWithout(w.toL, i, n);
    } else if AckUnderWay(w.toI, n) {
      AckStays(w.toI, Wires(r.out), n);
    } else {
      AnsweredOrKept(w, i, now, n);
      if Acks(r.out, n) { AcksUnderWay(w.toI, r.out, n); }
    }
  }

  /** No data packet is out of the listener's window. */
  lemma InWindowAll(w: World, i: nat)
    requires Undropped(w) && i < |w.toL| && Decode(w.toL[i]).Some? && IsData(Decode(w.toL[i]).value)
    requires Decode(w.toL[i]).value.header.sequenceNumber >= w.lstn.rcv.nextExpected
    ensures !BeyondWindow(w.lstn.rcv, Decode(w.toL[i]).value.header.sequenceNumber)
  {
    assert Genuine(w.toL[i], w.init.snd.sent);
    TurnedAwayIff(w, w.toL[i]);
  }

  lemma PacketAnswered(w: World, p: Packet, now: Time, n: int)
    requires Undropped(w) && w.lstn.state != Closed && (n in w.lstn.rcv.reorder || (IsData(p) && n == p.header.sequenceNumber))
    requires IsData(p) && p.header.sequenceNumber >= w.lstn.rcv.nextExpected ==>
      !BeyondWindow(w.lstn.rcv, p.header.sequenceNumber)
    requires p.header.packetType == Handshake ==> !HasSyn(p.header.flags)
    ensures var r := OnPacket(w.lstn, p, now); n in r.e.rcv.reorder || Acks(r.out, n)
  {
    if IsData(p) { DataAcks(w.lstn, p, now, n); } else { OtherKeepsBuffer(w.lstn, p, now); }
  }

  lemma AnsweredOrKept(w: World, i: nat, now: Time, n: int)
    requires Lossless(w) && Enabled(w, DeliverL(i, now)) && (n in w.lstn.rcv.reorder || IsDataFor(w.toL[i], n))
    ensures var r := OnDatagram(w.lstn, w.toL[i], now); n in r.e.rcv.reorder || Acks(r.out, n)
  {
    var p := Decode(w.toL[i]);
    assert LetterL(w.toL[i], w.init.finSent);
    if p.Some? {
      if IsData(p.value) && p.value.header.sequenceNumber >= w.lstn.rcv.nextExpected { InWindowAll(w, i); }
      PacketAnswered(w, p.value, now, n);
    }
  }

  /** What the listener answers: feedback, a greeting, or FIN|ACK to a FIN. */
  ghost predicate PoliteI(out: seq<Packet>, finSent: bool) {
    forall k :: 0 <= k < |out| ==>
      (out[k].header.packetType == Handshake && HasFin(out[k].header.flags) ==> HasAck(out[k].header.flags) && finSent)
  }

  ghost predicate PoliteL(out: seq<Packet>, finSent: bool) {
    forall k :: 0 <= k < |out| ==>
      (out[k].header.packetType == Handshake ==>
        !HasSyn(out[k].header.flags) && (HasFin(out[k].header.flags) ==> !HasAck(out[k].header.flags) && finSent))
  }

  lemma WirePoliteI(p: Packet, finSent: bool)
    requires Fits(p) && PoliteI([p], finSent)
    ensures LetterI(Encode(p), finSent)
  {
    DecodeEncode(p);
    assert [p][0] == p;
  }

  lemma WirePoliteL(p: Packet, finSent: bool)
    requires Fits(p) && PoliteL([p], finSent)
    ensures LetterL(Encode(p), finSent)
  {
    DecodeEncode(p);
    assert [p][0] == p;
  }

  lemma {:induction false} WiresPoliteI(out: seq<Packet>, finSent: bool)
    requires PoliteI(out, finSent)
    ensures LettersToI(Wires(out), finSent)
  {
    if out != [] {
      var p := out[0];
      assert forall k :: 0 <= k < |out[1..]| ==> out[1..][k] == out[k + 1];
      WiresPoliteI(out[1..], finSent);
      if Fits(p) { WirePoliteI(p, finSent); }
    }
  }

  lemma {:induction false} WiresPoliteL(out: seq<Packet>, finSent: bool)
    requires PoliteL(out, finSent)
    ensures LettersToL(Wires(out), finSent)
  {
    if out != [] {
      var p := out[0];
      assert forall k :: 0 <= k < |out[1..]| ==> out[1..][k] == out[k + 1];
      WiresPoliteL(out[1..], finSent);
      if Fits(p) { WirePoliteL(p, finSent); }
    }
  }

  lemma FeedbackIsPolite(out: seq<Packet>, finSent: bool)
    requires forall k :: 0 <= k < |out| ==> out[k].header.packetType == Ack || out[k].header.packetType == Nack
    ensures PoliteI(out, finSent)
  {
  }

  lemma {:induction false} AcceptAllFeedback(r: Receiving, streamId: uint32, now: Time)
    ensures forall k :: 0 <= k < |AcceptAll(r, streamId, now).out| ==> AcceptAll(r, streamId, now).out[k].header.packetType == Ack
    decreases |r.reorder|
  {
    if r.nextExpected as int in r.reorder {
      var a := Accept(r, now);
      assert r.reorder.Keys == a.reorder.Keys + {r.nextExpected as int};
      AcceptAllFeedback(a, streamId, now);
    }
  }

  lemma ReceivePolite(r: Receiving, streamId: uint32, p: Packet, now: Time, finSent: bool)
    ensures PoliteI(Receive(r, streamId, p, now).out, finSent)
  {
    AcceptAllFeedback(Stored(r, p), streamId, now);
    FeedbackIsPolite(Receive(r, streamId, p, now).out, finSent);
  }

  lemma HandshakePolite(e: Endpoint, p: Packet, now: Time, finSent: bool)
    requires e.role == Listener && e.state != Closed && p.header.packetType == Handshake && !HasSyn(p.header.flags)
    requires HasFin(p.header.flags) ==> !HasAck(p.header.flags) && finSent
    ensures var r := OnHandshake(e, p, now); r.e.state != Closed && PoliteI(r.out, finSent)
  {
  }

  lemma ListenerPolite(e: Endpoint, p: Packet, now: Time, finSent: bool)
    requires e.role == Listener && e.state != Closed && e.snd.inFlight == map[]
    requires p.header.packetType == Handshake ==> !HasSyn(p.header.flags)
    requires p.header.packetType == Handshake && HasFin(p.header.flags) ==> !HasAck(p.header.flags) && finSent
    ensures var r := OnPacket(e, p, now); r.e.state != Closed && PoliteI(r.out, finSent)
  {
    match p.header.packetType {
      case Handshake => HandshakePolite(e, p, now, finSent);
      case Data =>
        var w := if e.state == Handshaking then e.(state := Active) else e;
        ReceivePolite(e.rcv, w.streamId, p, now, finSent);
      case Ack => FeedbackIgnored(e, p, now); ListenerStateStays(e, p, now);
      case Nack => FeedbackIgnored(e, p, now); ListenerStateStays(e, p, now);
      case _ =>
    }
  }

  lemma ListenerStateStays(e: Endpoint, p: Packet, now: Time)
    requires e.role == Listener && (p.header.packetType == Ack || p.header.packetType == Nack)
    ensures OnPacket(e, p, now).e.state == e.state
  {
  }

  lemma LettersL(net: seq<Datagram>, i: nat, finSent: bool)
    requires i < |net| && LettersToL(net, finSent)
    ensures LettersToL(Without(net, i), finSent)
  {
    forall k | 0 <= k < |Without(net, i)| ensures LetterL(Without(net, i)[k], finSent) {
      assert Without(net, i)[k] == if k < i then net[k] else net[k + 1];
    }
  }

  lemma LettersI(net: seq<Datagram>, i: nat, finSent: bool)
    requires i < |net| && LettersToI(net, finSent)
    ensures LettersToI(Without(net, i), finSent)
  {
    forall k | 0 <= k < |Without(net, i)| ensures LetterI(Without(net, i)[k], finSent) {
      assert Without(net, i)[k] == if k < i then net[k] else net[k + 1];
    }
  }

  /** The listener does not close, and its answers are letters. */
  lemma ListenerLetters(w: World, i: nat, now: Time)
    requires Exchanging(w) && Enabled(w, DeliverL(i, now))
    ensures var r := OnDatagram(w.lstn, w.toL[i], now);
      r.e.state != Closed && Letters(Without(w.toL, i), w.toI + Wires(r.out), w.init.finSent)
  {
    var d := w.toL[i];
    var r := OnDatagram(w.lstn, d, now);
    assert LetterL(d, w.init.finSent);
    if Decode(d).Some? {
      ListenerPolite(w.lstn, Decode(d).value, now, w.init.finSent);
    }
    WiresPoliteI(r.out, w.init.finSent);
    LettersL(w.toL, i, w.init.finSent);
  }

  lemma SteadyEpoch(w: World, i: nat, now: Time)
    requires Exchanging(w) && Enabled(w, DeliverL(i, now))
    ensures SameEpoch(w, DeliverL(i, now))
  {
    assert LetterL(w.toL[i], w.init.finSent);
  }

  lemma DeliverLFlows(w: World, i: nat, now: Time)
    requires Lossless(w) && Enabled(w, DeliverL(i, now))
    ensures SameEpoch(w, DeliverL(i, now)) && Lossless(Next(w, DeliverL(i, now)))
  {
    var r := OnDatagram(w.lstn, w.toL[i], now);
    var v := FromL(w.(toL := Without(w.toL, i)), r, now);
    SteadyEpoch(w, i, now);
    DeliverLIs(w, i, now, r);
    ModestKeeps(w, DeliverL(i, now));
    ListenerLetters(w, i, now);
    forall n | n in v.init.snd.inFlight ensures Chased(v, n) {
      ListenerChases(w, i, now, n);
    }
  }

  // ---------------------------------------------------------------- the initiator's part

  /** Every number in flight afterwards was in flight before and is not `a`, or its data is
      among the packets sent. */
  ghost predicate Launches(s: Sending, t: Sending, out: seq<Packet>, a: int) {
    forall n :: n in t.inFlight ==> (n in s.inFlight && n != a) || Carrying(out, n)
  }

  lemma CarryingCons(p: Packet, out: seq<Packet>, n: int)
    requires Carrying(out, n)
    ensures Carrying([p] + out, n)
  {
    var k :| 0 <= k < |out| && IsData(out[k]) && Fits(out[k]) && out[k].header.sequenceNumber == n;
    assert ([p] + out)[k + 1] == out[k];
  }

  lemma CarryingFirst(p: Packet, out: seq<Packet>)
    requires IsData(p) && Fits(p)
    ensures Carrying([p] + out, p.header.sequenceNumber)
  {
    assert ([p] + out)[0] == p;
  }

  lemma {:induction false} FillDummyLaunches(s: Sending, streamId: uint32, now: Time)
    requires SenderOk(s) && !s.mediaMode
    ensures var r := FillDummy(s, streamId, now); Launches(s, r.s, r.out, -1) && Full(r.s)
    decreases s.remaining
  {
    if |s.inFlight| < SEND_WINDOW && s.remaining > 0 {
      var p, t := DummyPacket(s, streamId, now), SendDummy(s, streamId, now);
      var r := FillDummy(t, streamId, now);
      SendDummyKeeps(s, streamId, now);
      FillDummyLaunches(t, streamId, now);
      CarryingFirst(p, r.out);
      forall n | n in r.s.inFlight ensures n in s.inFlight || Carrying([p] + r.out, n) {
        if Carrying(r.out, n) { CarryingCons(p, r.out, n); }
      }
    }
  }

  lemma {:induction false} FillMediaLaunches(s: Sending, streamId: uint32, now: Time)
    requires SenderOk(s) && s.mediaMode
    ensures var r := FillMedia(s, streamId, now); Launches(s, r.s, r.out, -1)
    decreases |s.source.value.pending| - s.source.value.cursor
  {
    if MayTake(s, now) {
      var a, c := Advance(s), NextChunk(s);
      if !Starved(a, c) {
        var p, t := MediaPacket(a, streamId, c), SendChunk(a, streamId, c, now);
        AdvanceKeeps(s);
        SendChunkKeeps(a, streamId, c, now);
        FillMediaLaunches(t, streamId, now);
        LaunchesOneMore(s, t, FillMedia(t, streamId, now).s, p, FillMedia(t, streamId, now).out);
      }
    }
  }

  lemma LaunchesOneMore(s: Sending, t: Sending, u: Sending, p: Packet, out: seq<Packet>)
    requires IsData(p) && Fits(p) && Launches(t, u, out, -1)
    requires forall n :: n in t.inFlight ==> n in s.inFlight || n == p.header.sequenceNumber
    requires forall n :: n in s.inFlight ==> n >= 0
    ensures Launches(s, u, [p] + out, -1)
  {
    CarryingFirst(p, out);
    forall n | n in u.inFlight ensures (n in s.inFlight && n != -1) || Carrying([p] + out, n) {
      if Carrying(out, n) { CarryingCons(p, out, n); }
    }
  }

  /** Filling the window of a streaming initiator. */
  lemma WindowIsFilled(e: Endpoint, now: Time)
    requires e.role == Initiator && e.state == Active && e.snd.mediaMode && e.snd.source.Some?
    ensures var r := FillMedia(Refill(e.snd, now), e.streamId, now);
      FillWindow(e, now) == Reply(e.(snd := FlushAtEof(r.s)), r.out)
  {
  }

  lemma MediaWindowLaunches(e: Endpoint, now: Time)
    requires SenderOk(e.snd) && e.snd.mediaMode && e.role == Initiator && e.state == Active
    ensures var r := FillWindow(e, now); Launches(e.snd, r.e.snd, r.out, -1) && r.e.snd.mediaMode
  {
    var t := Refill(e.snd, now);
    Retuned(e.snd, t);
    FillMediaKeeps(t, e.streamId, now);
    FillMediaLaunches(t, e.streamId, now);
    WindowIsFilled(e, now);
  }

  lemma FillWindowLaunches(e: Endpoint, now: Time)
    requires SenderOk(e.snd) && e.role == Initiator
    ensures var r := FillWindow(e, now);
      Launches(e.snd, r.e.snd, r.out, -1) && (e.state == Active ==> Full(r.e.snd)) && (e.state != Active ==> r == Reply(e, []))
  {
    if e.state == Active && e.snd.mediaMode {
      MediaWindowLaunches(e, now);
    } else if e.state == Active {
      var t := Refill(e.snd, now);
      Retuned(e.snd, t);
      FillDummyLaunches(t, e.streamId, now);
    }
  }

  /** What an initiator's reaction in a flowing exchange promises. */
  ghost predicate Reacts(e: Endpoint, r: Reply, a: int) {
    Sends(r.e) && Launches(e.snd, r.e.snd, r.out, a) && PoliteL(r.out, r.e.finSent) && (e.finSent ==> r.e.finSent)
  }

  lemma {:induction false} DummiesPolite(s: Sending, streamId: uint32, now: Time, finSent: bool)
    ensures PoliteL(FillDummy(s, streamId, now).out, finSent)
    decreases s.remaining
  {
    if |s.inFlight| < SEND_WINDOW && s.remaining > 0 {
      DummiesPolite(SendDummy(s, streamId, now), streamId, now, finSent);
    }
  }

  lemma {:induction false} ChunksPolite(s: Sending, streamId: uint32, now: Time, finSent: bool)
    requires s.source.Some?
    ensures PoliteL(FillMedia(s, streamId, now).out, finSent)
    decreases |s.source.value.pending| - s.source.value.cursor
  {
    if MayTake(s, now) && !Starved(Advance(s), NextChunk(s)) {
      ChunksPolite(SendChunk(Advance(s), streamId, NextChunk(s), now), streamId, now, finSent);
    }
  }

  lemma FillWindowPolite(e: Endpoint, now: Time, finSent: bool)
    ensures PoliteL(FillWindow(e, now).out, finSent)
  {
    if e.role == Initiator && e.state == Active {
      var t := Refill(e.snd, now);
      DummiesPolite(t, e.streamId, now, finSent);
      if t.source.Some? { ChunksPolite(t, e.streamId, now, finSent); }
    }
  }

  lemma FillWindowStatus(e: Endpoint, now: Time)
    ensures var f := FillWindow(e, now).e;
      f.state == e.state && f.failed == e.failed && f.finSent == e.finSent && f.role == e.role
  {
  }

  lemma ProceedReacts(e: Endpoint, now: Time)
    requires SenderOk(e.snd) && e.role == Initiator
    requires e.state != Handshaking && !e.failed && (e.state == Active <==> !e.finSent) && (e.finSent ==> Drained(e.snd))
    ensures Reacts(e, Proceed(e, now), -1)
  {
    if !(IsComplete(e) && !e.finSent) {
      FillWindowLaunches(e, now);
      FillWindowPolite(e, now, e.finSent);
      FillWindowStatus(e, now);
    }
  }

  lemma AckReacts(e: Endpoint, p: Packet, now: Time)
    requires SenderOk(e.snd) && e.role == Initiator && Sends(e)
    ensures Reacts(e, OnAck(e, p, now), p.header.sequenceNumber)
  {
    var n: int := p.header.sequenceNumber;
    var a := e.(snd := Acked(e.snd, n, now));
    AckedKeeps(e.snd, n, now);
    ProceedReacts(a, now);
  }

  lemma NackReacts(e: Endpoint, p: Packet, now: Time)
    requires SenderOk(e.snd) && e.role == Initiator && Sends(e)
    ensures Reacts(e, OnNack(e, p, now), -1)
  {
    var n: int := p.header.sequenceNumber;
    if n in e.snd.inFlight {
      var t := Nudged(e.snd, n, now).s;
      assert t.inFlight.Keys <= e.snd.inFlight.Keys;
      if !e.snd.mediaMode { assert t.inFlight.Keys == e.snd.inFlight.Keys; }
      assert e.snd.inFlight[n].packet == e.snd.sent[n];
    }
  }

  lemma HandshakeReacts(e: Endpoint, p: Packet, now: Time)
    requires SenderOk(e.snd) && e.role == Initiator && Sends(e) && (HasFin(p.header.flags) ==> HasAck(p.header.flags) && e.finSent)
    ensures Reacts(e, OnHandshake(e, p, now), -1)
  {
  }

  lemma PacketReacts(e: Endpoint, p: Packet, now: Time)
    requires SenderOk(e.snd) && e.role == Initiator && Sends(e) && !IsData(p)
    requires p.header.packetType == Handshake && HasFin(p.header.flags) ==> HasAck(p.header.flags) && e.finSent
    ensures Reacts(e, OnPacket(e, p, now), AckedNumber(p))
  {
    match p.header.packetType {
      case Handshake => HandshakeReacts(e, p, now);
      case Ack => if Open(e) { AckReacts(e, p, now); }
      case Nack => if Open(e) { NackReacts(e, p, now); }
      case _ =>
    }
  }

  lemma CarryingUnderWay(net: seq<Datagram>, out: seq<Packet>, n: int)
    requires Carrying(out, n)
    ensures DataUnderWay(net + Wires(out), n)
  {
    var k :| 0 <= k < |out| && IsData(out[k]) && Fits(out[k]) && out[k].header.sequenceNumber == n;
    DataSent(out, k);
    DataComes(net, Wires(out), n);
  }

  /** One delivery to the initiator, seen from a number in flight afterwards. */
  lemma InitiatorChases(w: World, i: nat, r: Reply, a: int, now: Time, n: int)
    requires Lossless(w) && i < |w.toI| && Launches(w.init.snd, r.e.snd, r.out, a) && n in r.e.snd.inFlight
    requires forall m :: IsAckFor(w.toI[i], m) ==> m == a
    ensures Chased(FromI(w.(toI := Without(w.toI, i)), r, now), n)
  {
    if Carrying(r.out, n) {
      CarryingUnderWay(w.toL, r.out, n);
    } else {
      assert Chased(w, n);
      if DataUnderWay(w.toL, n) {
        DataStays(w.toL, Wires(r.out), n);
      } else if AckUnderWay(w.toI, n) {
        AckWithout(w.toI, i, n);
      }
    }
  }

  lemma LaterLetters(net: seq<Datagram>, before: bool, after: bool)
    requires (before ==> after) && LettersToL(net, before)
    ensures LettersToL(net, after)
  {
  }

  lemma LaterLettersI(net: seq<Datagram>, before: bool, after: bool)
    requires (before ==> after) && LettersToI(net, before)
    ensures LettersToI(net, after)
  {
  }

  lemma InitiatorLetters(w: World, i: nat, r: Reply)
    requires Exchanging(w) && i < |w.toI| && PoliteL(r.out, r.e.finSent) && (w.init.finSent ==> r.e.finSent)
    ensures Letters(w.toL + Wires(r.out), Without(w.toI, i), r.e.finSent)
  {
    WiresPoliteL(r.out, r.e.finSent);
    LettersI(w.toI, i, w.init.finSent);
    LaterLetters(w.toL, w.init.finSent, r.e.finSent);
    LaterLettersI(Without(w.toI, i), w.init.finSent, r.e.finSent);
  }

  /** The number the datagram acknowledges, or -1. */
  function AckedBy(d: Datagram): int { if Decode(d).Some? then AckedNumber(Decode(d).value) else -1 }

  lemma DatagramReacts(w: World, i: nat, now: Time)
    requires Exchanging(w) && Enabled(w, DeliverI(i, now))
    ensures Reacts(w.init, OnDatagram(w.init, w.toI[i], now), AckedBy(w.toI[i]))
  {
    var d := w.toI[i];
    assert Honest(d, w.lstn.rcv.nextExpected) && LetterI(d, w.init.finSent);
    if Decode(d).Some? {
      PacketReacts(w.init, Decode(d).value, now);
    }
  }

  lemma DeliverIFlows(w: World, i: nat, now: Time)
    requires Lossless(w) && Enabled(w, DeliverI(i, now)) && Next(w, DeliverI(i, now)).init.snd.deadlineDrops == 0
    ensures Lossless(Next(w, DeliverI(i, now)))
  {
    var r := OnDatagram(w.init, w.toI[i], now);
    var v := FromI(w.(toI := Without(w.toI, i)), r, now);
    DatagramReacts(w, i, now);
    DeliverIIs(w, i, now, r);
    ModestKeeps(w, DeliverI(i, now));
    InitiatorLetters(w, i, r);
    forall n | n in v.init.snd.inFlight ensures Chased(v, n) {
      InitiatorChases(w, i, r, AckedBy(w.toI[i]), now, n);
    }
  }

  // ---------------------------------------------------------------- the greeting

  lemma SynAnswered(e: Endpoint, p: Packet, now: Time)
    requires e.role == Listener && p.header.packetType == Handshake && p.header.flags == FLAG_SYN
    ensures var r := OnPacket(e, p, now);
      r.out == [HandshakePacket(LISTENER_STREAM, FLAG_SYN + FLAG_ACK)] && r.e.state == Handshaking && r.e.rcv.nextExpected == 0
  {
  }

  /** The SYN arrives. */
  lemma SynArrives(w: World, now: Time)
    requires Greeting(w) && w.toI == [] && |w.toL| == 1 && IsGreeting(w.toL[0], FLAG_SYN) && w.clock <= now
    ensures SameEpoch(w, DeliverL(0, now)) && Greeting(Next(w, DeliverL(0, now)))
  {
    var d := w.toL[0];
    var r := OnDatagram(w.lstn, d, now);
    var answer := HandshakePacket(LISTENER_STREAM, FLAG_SYN + FLAG_ACK);
    SynAnswered(w.lstn, Decode(d).value, now);
    ModestKeeps(w, DeliverL(0, now));
    DeliverLIs(w, 0, now, r);
    WiresOne(answer);
    GreetingWire(answer);
    assert Without(w.toL, 0) == [];
    assert [] + Wires(r.out) == Wires(r.out);
  }

  lemma GreetingWire(p: Packet)
    requires Fits(p) && p.header.packetType == Handshake
    ensures IsGreeting(Encode(p), p.header.flags)
  {
    DecodeEncode(p);
  }

  lemma SynAckStarts(e: Endpoint, p: Packet, now: Time)
    requires SenderOk(e.snd) && e.role == Initiator && e.state == Handshaking && !e.failed && !e.finSent
    requires p.header.packetType == Handshake && IsSynAck(p.header.flags)
    ensures Reacts(e, OnPacket(e, p, now), -1)
  {
    var id := p.header.streamId;
    var b := e.(streamId := id, state := Active);
    var r := FillWindow(b, now);
    FillWindowLaunches(b, now);
    FillWindowPolite(b, now, false);
    FillWindowStatus(b, now);
    forall n | n in r.e.snd.inFlight ensures n in e.snd.inFlight || Carrying([HandshakePacket(id, FLAG_ACK)] + r.out, n) {
      if Carrying(r.out, n) { CarryingCons(HandshakePacket(id, FLAG_ACK), r.out, n); }
    }
    SynAckReply(e, p, now);
  }

  lemma SynAckReply(e: Endpoint, p: Packet, now: Time)
    requires e.role == Initiator && e.state == Handshaking
    requires p.header.packetType == Handshake && IsSynAck(p.header.flags)
    ensures OnPacket(e, p, now) == OnSynAck(e, p.header.streamId, now)
  {
  }

  lemma LaunchedUnderWay(s: Sending, t: Sending, out: seq<Packet>, w: World)
    requires s.inFlight == map[] && Launches(s, t, out, -1) && w.toL == Wires(out)
    ensures forall n :: n in t.inFlight ==> Chased(w, n)
  {
    forall n | n in t.inFlight ensures Chased(w, n) {
      CarryingUnderWay([], out, n);
      assert [] + Wires(out) == Wires(out);
    }
  }

  lemma SynAckFlags()
    ensures IsSynAck(FLAG_SYN + FLAG_ACK)
  {
  }

  /** The SYN|ACK arrives: data flows. */
  lemma SynAckArrives(w: World, now: Time)
    requires Greeting(w) && w.toL == [] && |w.toI| == 1 && IsGreeting(w.toI[0], FLAG_SYN + FLAG_ACK) && w.clock <= now
    requires Next(w, DeliverI(0, now)).init.snd.deadlineDrops == 0
    ensures Lossless(Next(w, DeliverI(0, now)))
  {
    var d := w.toI[0];
    var r := OnDatagram(w.init, d, now);
    var v := FromI(w.(toI := Without(w.toI, 0)), r, now);
    SynAckFlags();
    SynAckStarts(w.init, Decode(d).value, now);
    ModestKeeps(w, DeliverI(0, now));
    DeliverIIs(w, 0, now, r);
    WiresPoliteL(r.out, r.e.finSent);
    assert v.toI == [];
    assert v.toL == Wires(r.out);
    LaunchedUnderWay(w.init.snd, r.e.snd, r.out, v);
  }

  // ---------------------------------------------------------------- every order of delivery

  /** A delivery to either side; nothing is lost and no timer runs. */
  predicate Delivers(s: Step) { s.DeliverL? || s.DeliverI? }

  lemma FlowGoesOn(w: World, s: Step)
    requires Lossless(w) && Enabled(w, s) && Delivers(s) && Next(w, s).init.snd.deadlineDrops == 0
    ensures SameEpoch(w, s) && Lossless(Next(w, s))
  {
    match s {
      case DeliverL(i, now) => DeliverLFlows(w, i, now);
      case DeliverI(i, now) => DeliverIFlows(w, i, now);
    }
  }

  lemma GreetingGoesOn(w: World, s: Step)
    requires Greeting(w) && Enabled(w, s) && Delivers(s) && Next(w, s).init.snd.deadlineDrops == 0
    ensures SameEpoch(w, s) && Unbroken(Next(w, s))
  {
    assert s.i == 0;
    if s.DeliverL? { SynArrives(w, s.now); } else { SynAckArrives(w, s.now); }
  }

  /** In both modes a delivery loses nothing, unless a packet is dropped at its deadline. */
  lemma UnbrokenGoesOn(w: World, s: Step)
    requires Unbroken(w) && Enabled(w, s) && Delivers(s) && Next(w, s).init.snd.deadlineDrops == 0
    ensures SameEpoch(w, s) && Unbroken(Next(w, s))
  {
    if Lossless(w) { FlowGoesOn(w, s); } else { GreetingGoesOn(w, s); }
  }

  /** Dummy packets have no deadline. */
  lemma DummiesStay(w: World, s: Step)
    requires Modest(w) && !w.init.snd.mediaMode && Enabled(w, s) && Delivers(s)
    ensures !Next(w, s).init.snd.mediaMode && Next(w, s).init.snd.deadlineDrops == 0
  {
    if s.DeliverI? { ModestKeeps(w, s); }
  }

  lemma StepGoesOn(w: World, s: Step)
    requires Underway(w) && Enabled(w, s) && Delivers(s)
    ensures SameEpoch(w, s) && Underway(Next(w, s))
  {
    DummiesStay(w, s);
    UnbrokenGoesOn(w, s);
  }

  lemma {:induction false} RunGoesOn(w: World, run: seq<Step>)
    requires Underway(w) && Legal(w, run) && forall k :: 0 <= k < |run| ==> Delivers(run[k])
    ensures Underway(After(w, run))
    decreases |run|
  {
    if run != [] {
      assert Delivers(run[0]);
      StepGoesOn(w, run[0]);
      RunGoesOn(Next(w, run[0]), run[1..]);
    }
  }

  /** The world once a dummy-mode transfer of `count` packets was started. */
  ghost function Started(count: uint32, size: uint16, hasSink: bool, now: Time): World {
    var e := WithDummy(FreshEndpoint(Initiator), count, size);
    FromI(Beginning(e, hasSink), Start(e, now), now)
  }

  lemma StartedUnderway(count: uint32, size: uint16, hasSink: bool, now: Time)
    requires count + SEND_WINDOW <= TWO_32
    ensures Underway(Started(count, size, hasSink, now))
  {
    var e := WithDummy(FreshEndpoint(Initiator), count, size);
    var syn := HandshakePacket(e.streamId, FLAG_SYN);
    DummyUnstarted(count, size);
    BeginningInv(e, hasSink);
    StartUpKeeps(Beginning(e, hasSink), now);
    StartSends(e, now);
    StartGreets(e, hasSink, Start(e, now).e, syn, now);
  }

  lemma StartGreets(e: Endpoint, hasSink: bool, f: Endpoint, syn: Packet, now: Time)
    requires Unstarted(e) && e.state == Handshaking && !e.failed && !e.finSent && f == e.(lastHandshake := now)
    requires Fits(syn) && syn.header.packetType == Handshake && syn.header.flags == FLAG_SYN
    requires Undropped(FromI(Beginning(e, hasSink), Reply(f, [syn]), now))
    ensures Greeting(FromI(Beginning(e, hasSink), Reply(f, [syn]), now))
  {
    WiresOne(syn);
    GreetingWire(syn);
    assert [] + [Encode(syn)] == [Encode(syn)];
  }

  /** As long as a datagram is in the network, any one of them may be delivered next. */
  lemma CanGoOn(w: World, s: Step)
    requires Underway(w) && Delivers(s) && s.now >= w.clock
    requires (s.DeliverL? ==> s.i < |w.toL|) && (s.DeliverI? ==> s.i < |w.toI|)
    ensures Legal(w, [s])
  {
    StepGoesOn(w, s);
    assert [s][1..] == [];
  }

  /** Whatever the order of deliveries: when a loss-free exchange without ticks has run dry,
      which it does after at most 5 * `count` + 5 deliveries, the initiator is complete and the
      listener has delivered exactly the packets 0 to `count` - 1. */
  lemma LossFreeCompletes(count: uint32, size: uint16, hasSink: bool, now: Time, run: seq<Step>)
    requires count + SEND_WINDOW <= TWO_32 && Legal(Started(count, size, hasSink, now), run)
    requires forall k :: 0 <= k < |run| ==> Delivers(run[k])
    requires var w := After(Started(count, size, hasSink, now), run); w.toL == [] && w.toI == []
    ensures var w := After(Started(count, size, hasSink, now), run);
      IsComplete(w.init) && |w.lstn.rcv.delivered| == count &&
      AllDummies(w.lstn.rcv.delivered, WithDummy(FreshEndpoint(Initiator), count, size).snd.payloadSize)
  {
    StartedUnderway(count, size, hasSink, now);
    RunGoesOn(Started(count, size, hasSink, now), run);
    QuietIsComplete(After(Started(count, size, hasSink, now), run));
    var e := WithDummy(FreshEndpoint(Initiator), count, size);
    var whole := [StartUp(now)] + run;
    assert whole[1..] == run;
    assert Next(Beginning(e, hasSink), StartUp(now)) == Started(count, size, hasSink, now);
    CompleteIsDelivered(count, size, hasSink, whole);
  }
}
