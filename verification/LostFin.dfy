/** The FIN exchange over a lossy network: from which states an initiator that has said FIN can
    still be closed. The code never says FIN twice. */
module LostFin {
  import opened Wire
  import opened Clock
  import opened PacketCodec
  import opened SessionSpec
  import opened Sender
  import opened Receiver
  import opened Network
  import opened Reliability
  import opened Window
  import opened Termination
  import opened Completion
  import opened Farewell
  import Rto

  /** An initiator that has said FIN and has nothing in flight. */
  predicate Ended(e: Endpoint) {
    e.role == Initiator && e.state == Closing && e.finSent && e.snd.inFlight == map[]
  }

  /** An answer to a FIN is under way, or a FIN that the listener would still answer: it has
      seen none, or has delivered nothing, so that a new SYN makes it forget. */
  ghost predicate CanClose(w: World) {
    UnderWay(w.toI, true) ||
    (UnderWay(w.toL, false) && (!w.lstn.finReceived || w.lstn.rcv.nextExpected == 0))
  }

  ghost predicate Waits(w: World) { Inv(w) && Ended(w.init) && !CanClose(w) }

  // ---------------------------------------------------------------- the initiator

  /** What keeps an ended initiator so, and says no FIN. */
  ghost predicate Holds(r: Reply) { Ended(r.e) && !Among(r.out, false) }

  lemma NoFinish(out: seq<Packet>, ack: bool)
    requires forall k :: 0 <= k < |out| ==> !IsFinish(out[k], ack)
    ensures !Among(out, ack)
  {
  }

  lemma HandshakeHolds(e: Endpoint, p: Packet, now: Time)
    requires Ended(e) && !IsFinish(p, true) && p.header.packetType == Handshake
    ensures Holds(OnHandshake(e, p, now))
  {
    NoFinish(OnHandshake(e, p, now).out, false);
  }

  lemma FeedbackHolds(e: Endpoint, p: Packet, now: Time)
    requires Ended(e) && (p.header.packetType == Ack || p.header.packetType == Nack)
    ensures OnPacket(e, p, now) == Reply(e, [])
  {
  }

  lemma PacketHolds(e: Endpoint, p: Packet, now: Time)
    requires Ended(e) && !IsFinish(p, true) && !IsData(p)
    ensures Holds(OnPacket(e, p, now))
  {
    match p.header.packetType {
      case Handshake => HandshakeHolds(e, p, now);
      case Ack => FeedbackHolds(e, p, now);
      case Nack => FeedbackHolds(e, p, now);
      case _ =>
    }
  }

  /** A scan without slots. */
  lemma SweepNothing(s: Sending, now: Time, rtoUs: int)
    requires s.inFlight == map[]
    ensures Sweep(s, s.inFlight.Keys, now, rtoUs) == Swept(s, [], false)
  {
    assert s.inFlight.Keys == {};
  }

  lemma TickHolds(e: Endpoint, now: Time)
    requires Ended(e)
    ensures Holds(OnTick(e, now)) && OnTick(e, now).out == []
  {
    var t := e.(snd := Refill(e.snd, now));
    SweepNothing(t.snd, now, Rto.Current(t.snd.rto));
  }

  /** Only the answer to its FIN closes an ended initiator. */
  lemma AnswerCloses(e: Endpoint, p: Packet, now: Time)
    requires Ended(e) && IsFinish(p, true)
    ensures OnPacket(e, p, now).e.state == Closed
  {
  }

  // ---------------------------------------------------------------- the listener

  /** The listener answers only a FIN it has not seen, and forgets only on a SYN. */
  lemma ListenerAnswersFin(e: Endpoint, p: Packet, now: Time)
    requires e.role == Listener && e.snd.inFlight == map[]
    ensures var r := OnPacket(e, p, now);
      (Among(r.out, true) ==> IsFinish(p, false) && !e.finReceived) &&
      (e.finReceived && !(p.header.packetType == Handshake && IsSyn(p.header.flags)) ==> r.e.finReceived)
  {
    match p.header.packetType {
      case Handshake => HandshakeAnswersFin(e, p, now);
      case Data =>
        var w := if e.state == Handshaking then e.(state := Active) else e;
        ReceiveHasNone(e.rcv, w.streamId, p, now, true);
      case Ack => FeedbackIgnored(e, p, now); ListenerStays(e, p, now);
      case Nack => FeedbackIgnored(e, p, now); ListenerStays(e, p, now);
      case _ =>
    }
  }

  lemma HandshakeAnswersFin(e: Endpoint, p: Packet, now: Time)
    requires e.role == Listener && p.header.packetType == Handshake
    ensures var r := OnHandshake(e, p, now);
      (Among(r.out, true) ==> IsFinish(p, false) && !e.finReceived) &&
      (e.finReceived && !IsSyn(p.header.flags) ==> r.e.finReceived)
  {
    if !(IsFinish(p, false) && !e.finReceived) { NoFinish(OnHandshake(e, p, now).out, true); }
  }

  lemma ListenerTicks(e: Endpoint, now: Time)
    requires e.role == Listener && e.snd.inFlight == map[]
    ensures !Among(OnTick(e, now).out, true) && OnTick(e, now).e.finReceived == e.finReceived
  {
    var t := e.(snd := Refill(e.snd, now));
    SweepNothing(t.snd, now, Rto.Current(t.snd.rto));
    NoFinish(OnTick(e, now).out, true);
  }

  // ---------------------------------------------------------------- no way back

  lemma InitiatorWaits(w: World, net: seq<Datagram>, r: Reply, now: Time)
    requires Waits(w) && Holds(r) && Inv(FromI(w.(toI := net), r, now)) && (UnderWay(net, true) ==> UnderWay(w.toI, true))
    ensures Waits(FromI(w.(toI := net), r, now))
  {
    UnderWayJoin(w.toL, Wires(r.out), false);
    WiresFinish(r.out, false);
  }

  lemma DeliverIWaits(w: World, i: nat, now: Time)
    requires Waits(w) && Enabled(w, DeliverI(i, now))
    ensures Waits(Next(w, DeliverI(i, now)))
  {
    var d := w.toI[i];
    var r := OnDatagram(w.init, d, now);
    DeliverIKeeps(w, i, now);
    DeliverIIs(w, i, now, r);
    assert Honest(d, w.lstn.rcv.nextExpected) && !Finishes(d, true);
    if Decode(d).Some? { PacketHolds(w.init, Decode(d).value, now); } else { NoFinish([], false); }
    if UnderWay(Without(w.toI, i), true) { NoneAppears(w.toI, i, true); }
    InitiatorWaits(w, Without(w.toI, i), r, now);
  }

  lemma ListenerWaits(w: World, net: seq<Datagram>, r: Reply, now: Time)
    requires Waits(w) && Inv(FromL(w.(toL := net), r, now)) && !Among(r.out, true)
    requires UnderWay(net, false) ==> UnderWay(w.toL, false)
    requires UnderWay(w.toL, false) ==> r.e.finReceived && r.e.rcv.nextExpected > 0
    ensures Waits(FromL(w.(toL := net), r, now))
  {
    UnderWayJoin(w.toI, Wires(r.out), true);
    WiresFinish(r.out, true);
  }

  lemma DeliverLWaits(w: World, i: nat, now: Time)
    requires Waits(w) && Enabled(w, DeliverL(i, now)) && SameEpoch(w, DeliverL(i, now))
    ensures Waits(Next(w, DeliverL(i, now)))
  {
    var d := w.toL[i];
    var r := OnDatagram(w.lstn, d, now);
    DeliverLKeeps(w, i, now);
    DeliverLIs(w, i, now, r);
    assert Finishes(d, false) ==> UnderWay(w.toL, false);
    if Decode(d).Some? { ListenerAnswersFin(w.lstn, Decode(d).value, now); } else { NoFinish([], true); }
    if UnderWay(Without(w.toL, i), false) { NoneAppears(w.toL, i, false); }
    ListenerWaits(w, Without(w.toL, i), r, now);
  }

  /** The channel after a step of the network alone. */
  lemma NoneMade(net: seq<Datagram>, i: nat, e: Datagram, ack: bool)
    requires i < |net| && !UnderWay(net, ack)
    ensures !UnderWay(Without(net, i), ack) && !UnderWay(net + [net[i]], ack)
    ensures Damaged(net[i], e) ==> !UnderWay(net[i := e], ack)
  {
    if UnderWay(Without(net, i), ack) { NoneAppears(net, i, ack); }
    assert !Finishes(net[i], ack);
    if Damaged(net[i], e) { DamageUnreadable(net[i], e); }
  }

  lemma ChannelWaits(w: World, s: Step)
    requires Waits(w) && Enabled(w, s)
    requires s.DropL? || s.DuplicateL? || s.DamageL? || s.DropI? || s.DuplicateI? || s.DamageI?
    ensures !CanClose(Next(w, s)) && Next(w, s).init == w.init
  {
    match s {
      case DropL(i) => if !UnderWay(w.toL, false) { NoneMade(w.toL, i, [], false); }
      case DuplicateL(i) => if !UnderWay(w.toL, false) { NoneMade(w.toL, i, [], false); }
      case DamageL(i, d) => if !UnderWay(w.toL, false) { NoneMade(w.toL, i, d, false); }
      case DropI(i) => NoneMade(w.toI, i, [], true);
      case DuplicateI(i) => NoneMade(w.toI, i, [], true);
      case DamageI(i, d) => NoneMade(w.toI, i, d, true);
    }
  }

  lemma StartWaits(w: World, now: Time)
    requires Waits(w) && Enabled(w, StartUp(now))
    ensures Waits(Next(w, StartUp(now)))
  {
    StartUpKeeps(w, now);
    assert w.(toI := w.toI) == w;
    NoFinish(Start(w.init, now).out, false);
    InitiatorWaits(w, w.toI, Start(w.init, now), now);
  }

  lemma TickIWaits(w: World, now: Time)
    requires Waits(w) && Enabled(w, TickI(now))
    ensures Waits(Next(w, TickI(now)))
  {
    TickIKeeps(w, now);
    assert w.(toI := w.toI) == w;
    TickHolds(w.init, now);
    InitiatorWaits(w, w.toI, OnTick(w.init, now), now);
  }

  lemma TickLWaits(w: World, now: Time)
    requires Waits(w) && Enabled(w, TickL(now))
    ensures Waits(Next(w, TickL(now)))
  {
    TickLKeeps(w, now);
    assert w.(toL := w.toL) == w;
    ListenerTicks(w.lstn, now);
    TickLeavesReceiver(w.lstn, now);
    ListenerWaits(w, w.toL, OnTick(w.lstn, now), now);
  }

  lemma StepWaits(w: World, s: Step)
    requires Waits(w) && Enabled(w, s) && SameEpoch(w, s)
    ensures Waits(Next(w, s))
  {
    match s {
      case DeliverL(i, now) => DeliverLWaits(w, i, now);
      case DeliverI(i, now) => DeliverIWaits(w, i, now);
      case StartUp(now) => StartWaits(w, now);
      case TickI(now) => TickIWaits(w, now);
      case TickL(now) => TickLWaits(w, now);
      case CloseI =>
      case CloseL => StepKeeps(w, s);
      case _ => StepKeeps(w, s); ChannelWaits(w, s);
    }
  }

  /** Once nothing can close it any more, the initiator stays closing in every run. */
  lemma {:induction false} ClosingForEver(w: World, run: seq<Step>)
    requires Waits(w) && Legal(w, run)
    ensures Waits(After(w, run)) && After(w, run).init.state == Closing
    decreases |run|
  {
    if run != [] {
      StepWaits(w, run[0]);
      ClosingForEver(Next(w, run[0]), run[1..]);
    }
  }

  // ---------------------------------------------------------------- a way to close

  ghost predicate Closes(w: World, run: seq<Step>) { Legal(w, run) && After(w, run).init.state == Closed }

  lemma ClosesAfter(w: World, s: Step, rest: seq<Step>)
    requires Enabled(w, s) && SameEpoch(w, s) && Closes(Next(w, s), rest)
    ensures Closes(w, [s] + rest)
  {
    FirstStep(w, s, rest);
  }

  /** The answer arrives. */
  lemma ByAnswer(w: World) returns (run: seq<Step>)
    requires Ended(w.init) && UnderWay(w.toI, true)
    ensures Closes(w, run)
  {
    var i: nat :| 0 <= i < |w.toI| && Finishes(w.toI[i], true);
    var s := DeliverI(i, w.clock);
    AnswerCloses(w.init, Decode(w.toI[i]).value, w.clock);
    DeliverIIs(w, i, w.clock, OnDatagram(w.init, w.toI[i], w.clock));
    run := [s] + [];
    ClosesAfter(w, s, []);
  }

  lemma FinAnswered(e: Endpoint, p: Packet, now: Time)
    requires e.role == Listener && !e.finReceived && IsFinish(p, false)
    ensures Among(OnPacket(e, p, now).out, true)
  {
    var answer := HandshakePacket(e.streamId, FLAG_FIN + FLAG_ACK);
    assert OnPacket(e, p, now).out == [answer] && [answer][0] == answer;
  }

  /** The FIN arrives, and then the answer. */
  lemma ByFin(w: World) returns (run: seq<Step>)
    requires Ended(w.init) && w.lstn.role == Listener && UnderWay(w.toL, false) && !w.lstn.finReceived
    ensures Closes(w, run)
  {
    var i: nat :| 0 <= i < |w.toL| && Finishes(w.toL[i], false);
    var s := DeliverL(i, w.clock);
    var r := OnDatagram(w.lstn, w.toL[i], w.clock);
    FinAnswered(w.lstn, Decode(w.toL[i]).value, w.clock);
    DeliverLIs(w, i, w.clock, r);
    WiresFinish(r.out, true);
    UnderWayJoin(w.toI, Wires(r.out), true);
    run := ByAnswer(Next(w, s));
    ClosesAfter(w, s, run);
    run := [s] + run;
  }

  /** A SYN under way makes the listener forget, and then the FIN arrives. */
  lemma BySyn(w: World, syn: Packet) returns (run: seq<Step>)
    requires Ended(w.init) && w.lstn.role == Listener && w.lstn.rcv.nextExpected == 0
    requires Fits(syn) && syn.header.packetType == Handshake && syn.header.flags == FLAG_SYN
    requires |w.toL| > 0 && w.toL[|w.toL| - 1] == Encode(syn) && UnderWay(w.toL, false)
    ensures Closes(w, run)
  {
    var i := |w.toL| - 1;
    var s := DeliverL(i, w.clock);
    OverTheWire(w.lstn, syn, w.clock);
    DeliverLIs(w, i, w.clock, OnDatagram(w.lstn, w.toL[i], w.clock));
    FinishWire(syn, false);
    StillUnderWay(w.toL, i, false);
    SynForgets(w.lstn, Normalise(syn), w.clock);
    StaysRole(w.lstn, Normalise(syn), w.clock);
    run := ByFin(Next(w, s));
    ClosesAfter(w, s, run);
    run := [s] + run;
  }

  lemma StaysRole(e: Endpoint, p: Packet, now: Time)
    ensures OnPacket(e, p, now).e.role == e.role
  {
  }

  /** The initiator is started again: its SYN makes the listener forget. */
  lemma ByRestart(w: World) returns (run: seq<Step>)
    requires Ended(w.init) && w.lstn.role == Listener && w.lstn.rcv.nextExpected == 0 && UnderWay(w.toL, false)
    ensures Closes(w, run)
  {
    var syn := HandshakePacket(w.init.streamId, FLAG_SYN);
    var s := StartUp(w.clock);
    WiresOne(syn);
    UnderWayJoin(w.toL, [Encode(syn)], false);
    run := BySyn(Next(w, s), syn);
    ClosesAfter(w, s, run);
    run := [s] + run;
  }

  /** An initiator that has said FIN and is drained can still be closed exactly when an answer,
      or a FIN the listener would still answer, is under way. */
  lemma ClosesIff(w: World)
    requires Inv(w) && Ended(w.init)
    ensures CanClose(w) <==> exists run :: Closes(w, run)
  {
    if CanClose(w) {
      if UnderWay(w.toI, true) {
        var run := ByAnswer(w);
      } else if !w.lstn.finReceived {
        var run := ByFin(w);
      } else {
        var run := ByRestart(w);
      }
    } else {
      forall run | Legal(w, run) ensures !Closes(w, run) {
        ClosingForEver(w, run);
      }
    }
  }

  /** A loss-free exchange whose one FIN the network drops: the initiator never closes. */
  lemma DroppedFin(w: World, i: nat, run: seq<Step>)
    requires Leaving(w) && w.init.finSent && !w.lstn.finReceived && i < |w.toL| && !UnderWay(Without(w.toL, i), false)
    requires Legal(Next(w, DropL(i)), run)
    ensures After(Next(w, DropL(i)), run).init.state == Closing
  {
    ChannelLKeeps(w, DropL(i));
    ClosingForEver(Next(w, DropL(i)), run);
  }
}
