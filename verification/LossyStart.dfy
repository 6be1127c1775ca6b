/** Recovery from the first packet on: the handshake too may be lost. Whatever a lossy network did
    to a started exchange, one timeout brings it to its end while neither side has given up. */
module LossyStart {
  import opened Wire
  import opened Clock
  import opened PacketCodec
  import opened SessionSpec
  import opened Sender
  import opened Receiver
  import opened Network
  import opened Reliability
  import opened Termination
  import opened Completion
  import opened Recovery
  import Rto

  // ---------------------------------------------------------------- what loss leaves standing

  /** Handshake packets to the listener, the initiator's SYN among them. */
  predicate Proper(p: Packet, finSent: bool) {
    p.header.packetType == Handshake ==>
      IsSyn(p.header.flags) ||
      (!HasSyn(p.header.flags) && (HasFin(p.header.flags) ==> !HasAck(p.header.flags) && finSent))
  }

  predicate ProperL(d: Datagram, finSent: bool) { Decode(d).Some? ==> Proper(Decode(d).value, finSent) }

  ghost predicate AllProper(net: seq<Datagram>, finSent: bool) {
    forall i :: 0 <= i < |net| ==> ProperL(net[i], finSent)
  }

  ghost predicate ProperOut(out: seq<Packet>, finSent: bool) {
    forall k :: 0 <= k < |out| ==> Proper(out[k], finSent)
  }

  /** An initiator that waits for the answer to its SYN. */
  ghost predicate Knocks(e: Endpoint) {
    e.state == Handshaking && !e.failed && !e.finSent && e.snd.sent == [] && e.snd.inFlight == map[]
  }

  /** A started exchange, whatever the network lost. */
  ghost predicate Loose(w: World) {
    Plain(w) && (Knocks(w.init) || Sends(w.init)) && w.lstn.state != Closed &&
    AllProper(w.toL, w.init.finSent) && LettersToI(w.toI, w.init.finSent)
  }

  // ---------------------------------------------------------------- channels

  lemma ProperWire(p: Packet, finSent: bool)
    requires Fits(p) && Proper(p, finSent)
    ensures ProperL(Encode(p), finSent)
  {
    DecodeEncode(p);
  }

  lemma {:induction false} ProperWires(out: seq<Packet>, finSent: bool)
    requires ProperOut(out, finSent)
    ensures AllProper(Wires(out), finSent)
  {
    if out != [] {
      assert forall k :: 0 <= k < |out[1..]| ==> out[1..][k] == out[k + 1];
      ProperWires(out[1..], finSent);
      if Fits(out[0]) { ProperWire(out[0], finSent); }
    }
  }

  lemma PoliteIsProper(out: seq<Packet>, finSent: bool)
    requires PoliteL(out, finSent)
    ensures ProperOut(out, finSent)
  {
  }

  lemma ProperWithout(net: seq<Datagram>, i: nat, finSent: bool)
    requires i < |net| && AllProper(net, finSent)
    ensures AllProper(Without(net, i), finSent)
  {
    forall k | 0 <= k < |Without(net, i)| ensures ProperL(Without(net, i)[k], finSent) {
      assert Without(net, i)[k] == if k < i then net[k] else net[k + 1];
    }
  }

  lemma ProperLater(net: seq<Datagram>, before: bool, after: bool)
    requires (before ==> after) && AllProper(net, before)
    ensures AllProper(net, after)
  {
  }

  // ---------------------------------------------------------------- every lossy step

  lemma LooseListener(e: Endpoint, p: Packet, now: Time, finSent: bool)
    requires e.role == Listener && e.state != Closed && e.snd.inFlight == map[] && Proper(p, finSent)
    ensures var r := OnPacket(e, p, now); r.e.state != Closed && PoliteI(r.out, finSent)
  {
    if p.header.packetType == Handshake && IsSyn(p.header.flags) {
      SynReplied(e, p, now);
    } else {
      ListenerPolite(e, p, now, finSent);
    }
  }

  lemma SynReplied(e: Endpoint, p: Packet, now: Time)
    requires e.role == Listener && p.header.packetType == Handshake && IsSyn(p.header.flags)
    ensures OnPacket(e, p, now) == Reply(Restarted(e, now), [HandshakePacket(LISTENER_STREAM, FLAG_SYN + FLAG_ACK)])
  {
  }

  lemma DeliverLLoose(w: World, i: nat, now: Time)
    requires Loose(w) && Enabled(w, DeliverL(i, now)) && SameEpoch(w, DeliverL(i, now))
    ensures Loose(Next(w, DeliverL(i, now)))
  {
    var d := w.toL[i];
    var r := OnDatagram(w.lstn, d, now);
    DeliverLIs(w, i, now, r);
    ModestKeeps(w, DeliverL(i, now));
    assert ProperL(d, w.init.finSent);
    if Decode(d).Some? { LooseListener(w.lstn, Decode(d).value, now, w.init.finSent); }
    WiresPoliteI(r.out, w.init.finSent);
    ProperWithout(w.toL, i, w.init.finSent);
  }

  /** An initiator's reaction in a started exchange. */
  ghost predicate Responds(e: Endpoint, r: Reply) {
    (Knocks(r.e) || Sends(r.e)) && ProperOut(r.out, r.e.finSent) && (e.finSent ==> r.e.finSent)
  }

  lemma KnockAnswered(e: Endpoint, p: Packet, now: Time)
    requires SenderOk(e.snd) && !e.snd.mediaMode && e.role == Initiator && Knocks(e) && !IsData(p)
    requires p.header.packetType == Handshake ==> !HasFin(p.header.flags)
    ensures Responds(e, OnPacket(e, p, now))
  {
    if p.header.packetType == Handshake && IsSynAck(p.header.flags) {
      SynAckStarts(e, p, now);
      PoliteIsProper(OnPacket(e, p, now).out, OnPacket(e, p, now).e.finSent);
    } else {
      KnockIgnores(e, p, now);
    }
  }

  lemma KnockIgnores(e: Endpoint, p: Packet, now: Time)
    requires e.role == Initiator && e.state == Handshaking && !IsData(p)
    requires p.header.packetType == Handshake ==> !IsSynAck(p.header.flags) && !HasFin(p.header.flags)
    ensures OnPacket(e, p, now) == Reply(e, [])
  {
  }

  lemma DatagramResponds(w: World, i: nat, now: Time)
    requires Loose(w) && Enabled(w, DeliverI(i, now))
    ensures Responds(w.init, OnDatagram(w.init, w.toI[i], now))
  {
    var d := w.toI[i];
    assert Honest(d, w.lstn.rcv.nextExpected) && LetterI(d, w.init.finSent);
    if Decode(d).Some? {
      var p := Decode(d).value;
      if Knocks(w.init) {
        KnockAnswered(w.init, p, now);
      } else {
        PacketReacts(w.init, p, now);
        PoliteIsProper(OnPacket(w.init, p, now).out, OnPacket(w.init, p, now).e.finSent);
      }
    }
  }

  lemma InitiatorLoose(w: World, net: seq<Datagram>, r: Reply, now: Time)
    requires Loose(w) && Responds(w.init, r) && Plain(FromI(w.(toI := net), r, now)) && LettersToI(net, w.init.finSent)
    ensures Loose(FromI(w.(toI := net), r, now))
  {
    ProperWires(r.out, r.e.finSent);
    ProperLater(w.toL, w.init.finSent, r.e.finSent);
    LaterLettersI(net, w.init.finSent, r.e.finSent);
  }

  lemma DeliverILoose(w: World, i: nat, now: Time)
    requires Loose(w) && Enabled(w, DeliverI(i, now))
    ensures Loose(Next(w, DeliverI(i, now)))
  {
    var r := OnDatagram(w.init, w.toI[i], now);
    DatagramResponds(w, i, now);
    DeliverIIs(w, i, now, r);
    ModestKeeps(w, DeliverI(i, now));
    LettersI(w.toI, i, w.init.finSent);
    InitiatorLoose(w, Without(w.toI, i), r, now);
  }

  lemma KnockTicks(e: Endpoint, now: Time)
    requires e.role == Initiator && Knocks(e) && !OnTick(e, now).e.failed
    ensures Responds(e, OnTick(e, now))
  {
  }

  lemma TickILoose(w: World, now: Time)
    requires Loose(w) && Enabled(w, TickI(now)) && !OnTick(w.init, now).e.failed
    ensures Loose(Next(w, TickI(now)))
  {
    var r := OnTick(w.init, now);
    ModestKeeps(w, TickI(now));
    if Knocks(w.init) {
      KnockTicks(w.init, now);
    } else {
      TickReacts(w.init, now);
      PoliteIsProper(r.out, r.e.finSent);
    }
    assert w.(toI := w.toI) == w;
    InitiatorLoose(w, w.toI, r, now);
  }

  lemma TickLLoose(w: World, now: Time)
    requires Loose(w) && Enabled(w, TickL(now)) && OnTick(w.lstn, now).e.state != Closed
    ensures Loose(Next(w, TickL(now)))
  {
    var r := OnTick(w.lstn, now);
    ModestKeeps(w, TickL(now));
    ListenerTickPolite(w.lstn, now, w.init.finSent);
    WiresPoliteI(r.out, w.init.finSent);
  }

  /** What the network does to one datagram makes no other kind of letter. */
  lemma StaysProper(net: seq<Datagram>, i: nat, d: Datagram, finSent: bool)
    requires i < |net| && AllProper(net, finSent)
    ensures AllProper(Without(net, i), finSent) && AllProper(net + [net[i]], finSent)
    ensures Damaged(net[i], d) ==> AllProper(net[i := d], finSent)
  {
    ProperWithout(net, i, finSent);
    assert ProperL(net[i], finSent);
    if Damaged(net[i], d) { DamageUnreadable(net[i], d); }
  }

  lemma ChannelLoose(w: World, s: Step)
    requires Loose(w) && Enabled(w, s)
    requires s.DropL? || s.DuplicateL? || s.DamageL? || s.DropI? || s.DuplicateI? || s.DamageI?
    ensures AllProper(Next(w, s).toL, w.init.finSent) && LettersToI(Next(w, s).toI, w.init.finSent)
  {
    match s {
      case DropL(i) => StaysProper(w.toL, i, [], w.init.finSent);
      case DuplicateL(i) => StaysProper(w.toL, i, [], w.init.finSent);
      case DamageL(i, d) => StaysProper(w.toL, i, d, w.init.finSent);
      case DropI(i) => StaysLetterI(w.toI, i, [], w.init.finSent);
      case DuplicateI(i) => StaysLetterI(w.toI, i, [], w.init.finSent);
      case DamageI(i, d) => StaysLetterI(w.toI, i, d, w.init.finSent);
    }
  }

  /** Loss, duplication, damage and timeouts leave a started exchange loose as long as neither
      side gives up. */
  lemma LossyLoose(w: World, s: Step)
    requires Loose(w) && Enabled(w, s) && SameEpoch(w, s) && Lossy(s) && Alive(Next(w, s))
    ensures Loose(Next(w, s))
  {
    match s {
      case DeliverL(i, now) => DeliverLLoose(w, i, now);
      case DeliverI(i, now) => DeliverILoose(w, i, now);
      case TickL(now) => TickLLoose(w, now);
      case TickI(now) => TickILoose(w, now);
      case _ => ModestKeeps(w, s); ChannelLoose(w, s);
    }
  }

  lemma {:induction false} RunLoose(w: World, run: seq<Step>)
    requires Loose(w) && Legal(w, run) && Survives(w, run)
    ensures Loose(After(w, run))
    decreases |run|
  {
    if run != [] {
      LossyLoose(w, run[0]);
      RunLoose(Next(w, run[0]), run[1..]);
    }
  }

  lemma SynIsProper(d: Datagram)
    requires IsGreeting(d, FLAG_SYN)
    ensures ProperL(d, false)
  {
  }

  lemma OneProper(net: seq<Datagram>)
    requires |net| == 1 && ProperL(net[0], false)
    ensures AllProper(net, false)
  {
    forall i | 0 <= i < |net| ensures ProperL(net[i], false) {
      assert i == 0;
    }
  }

  lemma GreetingLoose(w: World)
    requires Greeting(w) && !w.init.snd.mediaMode && w.toI == []
    ensures Loose(w)
  {
    SynIsProper(w.toL[0]);
    OneProper(w.toL);
    assert Knocks(w.init) && LettersToI(w.toI, false);
  }

  lemma StartedLoose(count: uint32, size: uint16, hasSink: bool, now: Time)
    requires count + SEND_WINDOW <= TWO_32
    ensures Loose(Started(count, size, hasSink, now))
  {
    StartedUnderway(count, size, hasSink, now);
    GreetingLoose(Started(count, size, hasSink, now));
  }

  // ---------------------------------------------------------------- one timeout

  predicate Silent(w: World) { w.toL == [] && w.toI == [] }

  predicate NoSyn(net: seq<Datagram>) { forall i :: 0 <= i < |net| ==> !IsSynDatagram(net[i]) }

  /** No SYN can make the listener forget what it buffers: the network is silent, or the initiator
      is past its handshake and none is under way. */
  predicate Unhindered(w: World) { Silent(w) || (w.init.state != Handshaking && NoSyn(w.toL)) }

  /** The next tick of the initiator at `now` sends again what is missing. */
  ghost predicate TimerFires(e: Endpoint, now: Time) {
    if e.state == Handshaking then
      e.lastHandshake != 0 && TimedOut(e.lastHandshake, now, Rto.Current(e.snd.rto)) && e.handshakeRetries < MAX_RETRIES
    else Open(e) && Overdue(e.snd, e.snd.inFlight.Keys, now, Rto.Current(e.snd.rto))
  }

  /** The SYN goes out again. */
  lemma KnocksAgain(e: Endpoint, now: Time)
    requires e.role == Initiator && e.state == Handshaking && TimerFires(e, now)
    ensures var r := OnTick(e, now);
      r.out == [HandshakePacket(e.streamId, FLAG_SYN)] && r.e.state == Handshaking && r.e.failed == e.failed &&
      r.e.finSent == e.finSent && r.e.snd.sent == e.snd.sent && r.e.snd.inFlight == e.snd.inFlight
  {
  }

  lemma KnockGreets(w: World, now: Time)
    requires Loose(w) && Knocks(w.init) && Silent(w) && Enabled(w, TickI(now)) && TimerFires(w.init, now)
    ensures Greeting(Next(w, TickI(now)))
  {
    var syn := HandshakePacket(w.init.streamId, FLAG_SYN);
    KnocksAgain(w.init, now);
    ModestKeeps(w, TickI(now));
    WiresOne(syn);
    GreetingWire(syn);
    DeliveredBound(w.lstn.rcv.delivered, w.init.snd.sent);
    assert [] + [Encode(syn)] == [Encode(syn)];
  }

  lemma ProperIsLetter(d: Datagram, finSent: bool)
    requires ProperL(d, finSent) && !IsSynDatagram(d)
    ensures LetterL(d, finSent)
  {
  }

  lemma LooseIsSteady(w: World)
    requires Loose(w) && w.init.state != Handshaking && NoSyn(w.toL)
    ensures Steady(w)
  {
    forall i | 0 <= i < |w.toL| ensures LetterL(w.toL[i], w.init.finSent) {
      assert ProperL(w.toL[i], w.init.finSent);
      ProperIsLetter(w.toL[i], w.init.finSent);
    }
  }

  /** With no SYN in the way, one timeout puts everything that is missing on its way again. */
  lemma TickRelaunches(w: World, now: Time)
    requires Loose(w) && Unhindered(w) && Enabled(w, TickI(now)) && TimerFires(w.init, now)
    ensures Underway(Next(w, TickI(now)))
  {
    if w.init.state == Handshaking {
      KnockGreets(w, now);
    } else {
      LooseIsSteady(w);
      TickRevives(w, now);
    }
  }

  /** Everything there was to send is delivered. */
  ghost predicate Done(w: World, count: nat, size: nat) {
    IsComplete(w.init) && |w.lstn.rcv.delivered| == count && AllDummies(w.lstn.rcv.delivered, size)
  }

  lemma QuietIsDone(w: World)
    requires Underway(w) && Silent(w)
    ensures Done(w, PlanSize(w.init.snd), w.init.snd.payloadSize)
  {
    QuietIsComplete(w);
    CompleteWorld(w);
  }

  lemma StartedJob(count: uint32, size: uint16, hasSink: bool, now: Time)
    ensures var s := Started(count, size, hasSink, now).init.snd;
      PlanSize(s) == count && s.payloadSize == WithDummy(FreshEndpoint(Initiator), count, size).snd.payloadSize
  {
  }

  /** Whatever a lossy network did to a started exchange, from its first SYN on: if neither side
      gave up and no SYN is in the way, one timeout followed by deliveries in any order until nothing
      is under way completes the transfer and delivers every packet. */
  lemma AnyOrderRecovers(w: World, lossy: seq<Step>, now: Time, run: seq<Step>)
    requires Loose(w) && Legal(w, lossy) && Survives(w, lossy)
    requires var v := After(w, lossy);
      Unhindered(v) && Enabled(v, TickI(now)) && TimerFires(v.init, now) && Legal(Next(v, TickI(now)), run)
    requires forall k :: 0 <= k < |run| ==> Delivers(run[k])
    requires Silent(After(Next(After(w, lossy), TickI(now)), run))
    ensures Done(After(Next(After(w, lossy), TickI(now)), run), PlanSize(w.init.snd), w.init.snd.payloadSize)
  {
    var v := After(w, lossy);
    var u := Next(v, TickI(now));
    RunLoose(w, lossy);
    TickRelaunches(v, now);
    RunGoesOn(u, run);
    QuietIsDone(After(u, run));
    RunKeeps(w, lossy);
    StepKeeps(v, TickI(now));
    RunKeeps(u, run);
  }

  // ---------------------------------------------------------------- a way out always exists

  /** Everything under way is lost. */
  lemma {:induction false} DropAll(w: World) returns (run: seq<Step>)
    ensures Leads(w, run, w.(toL := [], toI := []))
    decreases |w.toL| + |w.toI|
  {
    if w.toL == [] && w.toI == [] {
      assert w.(toL := [], toI := []) == w;
      LeadsNowhere(w);
      run := [];
    } else {
      var s := if w.toL != [] then DropL(0) else DropI(0);
      var v := if w.toL != [] then w.(toL := Without(w.toL, 0)) else w.(toI := Without(w.toI, 0));
      assert v.(toL := [], toI := []) == w.(toL := [], toI := []);
      run := DropAll(v);
      LeadsStep(w, s);
      LeadsOn(w, [s], v, run, w.(toL := [], toI := []));
      run := [s] + run;
    }
  }

  /** An exchange under way can be delivered to its end. */
  lemma {:induction false} DeliverAll(w: World) returns (run: seq<Step>)
    requires Underway(w)
    ensures Legal(w, run) && Underway(After(w, run)) && Silent(After(w, run))
    decreases Energy(w) + 1
  {
    if Silent(w) {
      run := [];
    } else {
      var s := if w.toL != [] then DeliverL(0, w.clock) else DeliverI(0, w.clock);
      StepGoesOn(w, s);
      QuietFalls(w, s);
      EnergyIsPositive(w);
      EnergyIsPositive(Next(w, s));
      run := DeliverAll(Next(w, s));
      FirstStep(w, s, run);
      run := [s] + run;
    }
  }

  lemma EmptiedLoose(w: World)
    requires Loose(w)
    ensures Loose(w.(toL := [], toI := []))
  {
    ToLKeeps(w, []);
    ToIKeeps(w.(toL := []), []);
  }

  /** From every such state, and at every time its timer fires, there is a run that completes the
      transfer: a lossy handshake or exchange is never beyond recovery while both sides live. */
  lemma CanAlwaysRecover(w: World, lossy: seq<Step>, now: Time) returns (run: seq<Step>)
    requires Loose(w) && Legal(w, lossy) && Survives(w, lossy)
    requires var v := After(w, lossy); v.clock <= now && (v.init.state != Closed ==> TimerFires(v.init, now))
    ensures Legal(After(w, lossy), run)
    ensures Done(After(After(w, lossy), run), PlanSize(w.init.snd), w.init.snd.payloadSize)
  {
    var v := After(w, lossy);
    RunLoose(w, lossy);
    RunKeeps(w, lossy);
    if v.init.state == Closed {
      run := [];
      CompleteWorld(v);
    } else {
      run := RecoverFrom(v, now);
    }
  }

  /** From silence. */
  lemma RecoverInSilence(u: World, now: Time) returns (run: seq<Step>)
    requires Loose(u) && Silent(u) && u.clock <= now && TimerFires(u.init, now)
    ensures Legal(u, run) && Done(After(u, run), PlanSize(u.init.snd), u.init.snd.payloadSize)
  {
    TickRelaunches(u, now);
    var x := Next(u, TickI(now));
    var rest := DeliverAll(x);
    QuietIsDone(After(x, rest));
    StepKeeps(u, TickI(now));
    RunKeeps(x, rest);
    FirstStep(u, TickI(now), rest);
    run := [TickI(now)] + rest;
  }

  lemma RecoverFrom(v: World, now: Time) returns (run: seq<Step>)
    requires Loose(v) && v.clock <= now && TimerFires(v.init, now)
    ensures Legal(v, run) && Done(After(v, run), PlanSize(v.init.snd), v.init.snd.payloadSize)
  {
    EmptiedLoose(v);
    var rest := RecoverInSilence(v.(toL := [], toI := []), now);
    var drops := DropAll(v);
    run := drops + rest;
  }

  /** From the first SYN on. */
  lemma RecoversFromStart(count: uint32, size: uint16, hasSink: bool, start: Time, lossy: seq<Step>, now: Time)
    returns (run: seq<Step>)
    requires count + SEND_WINDOW <= TWO_32
    requires Legal(Started(count, size, hasSink, start), lossy) && Survives(Started(count, size, hasSink, start), lossy)
    requires var v := After(Started(count, size, hasSink, start), lossy);
      v.clock <= now && (v.init.state != Closed ==> TimerFires(v.init, now))
    ensures var v := After(Started(count, size, hasSink, start), lossy);
      Legal(v, run) && Done(After(v, run), count, WithDummy(FreshEndpoint(Initiator), count, size).snd.payloadSize)
  {
    StartedLoose(count, size, hasSink, start);
    StartedJob(count, size, hasSink, start);
    run := CanAlwaysRecover(Started(count, size, hasSink, start), lossy, now);
  }
}
