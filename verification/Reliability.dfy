/** End-to-end reliability: the joint invariant of sender, receiver and network, and what it
    means for every run. */
module Reliability {
  import opened Wire
  import opened Clock
  import opened PacketCodec
  import opened SessionSpec
  import opened Sender
  import opened Receiver
  import opened Source
  import opened Network

  /** Data on its way to the listener is what the sender first sent under its number. */
  ghost predicate Genuine(d: Datagram, sent: seq<Packet>) {
    Decode(d).Some? && IsData(Decode(d).value) ==>
      Carries(Decode(d).value, sent, Decode(d).value.header.sequenceNumber)
  }

  ghost predicate Honest(d: Datagram, next: int) {
    Decode(d).Some? ==> Answers(Decode(d).value, next)
  }

  ghost predicate AllGenuine(net: seq<Datagram>, sent: seq<Packet>) {
    forall i :: 0 <= i < |net| ==> Genuine(net[i], sent)
  }

  ghost predicate AllHonest(net: seq<Datagram>, next: int) {
    forall i :: 0 <= i < |net| ==> Honest(net[i], next)
  }

  /** Unless something was dropped at its deadline, what is sent and no longer in flight has
      been delivered. */
  ghost predicate Settled(s: Sending, next: int) {
    s.deadlineDrops == 0 ==> forall k :: 0 <= k < |s.sent| && k !in s.inFlight ==> k < next
  }

  ghost predicate Inv(w: World) {
    w.init.role == Initiator && w.lstn.role == Listener && w.lstn.snd.inFlight == map[] &&
    SenderOk(w.init.snd) && |w.init.snd.sent| < TWO_32 && ReceiverOk(w.lstn.rcv, w.init.snd.sent) &&
    AllGenuine(w.toL, w.init.snd.sent) && AllHonest(w.toI, w.lstn.rcv.nextExpected) &&
    Settled(w.init.snd, w.lstn.rcv.nextExpected)
  }

  // ---------------------------------------------------------------- channels

  lemma GenuineWire(p: Packet, sent: seq<Packet>)
    requires Fits(p) && Replays(sent, [p])
    ensures Genuine(Encode(p), sent)
  {
    DecodeEncode(p);
    assert [p][0] == p;
  }

  lemma {:induction false} GenuineWires(ps: seq<Packet>, sent: seq<Packet>)
    requires Replays(sent, ps)
    ensures AllGenuine(Wires(ps), sent)
  {
    if ps != [] {
      assert Replays(sent, [ps[0]]) by { assert [ps[0]][0] == ps[0]; }
      assert Replays(sent, ps[1..]);
      GenuineWires(ps[1..], sent);
      if Fits(ps[0]) { GenuineWire(ps[0], sent); }
    }
  }

  lemma {:induction false} HonestWires(ps: seq<Packet>, next: int)
    requires Feedback(ps, next)
    ensures AllHonest(Wires(ps), next)
  {
    if ps != [] {
      assert Answers(ps[0], next);
      HonestWires(ps[1..], next);
      if Fits(ps[0]) { HonestWire(ps[0], next); }
    }
  }

  lemma HonestWire(p: Packet, next: int)
    requires Fits(p) && Answers(p, next)
    ensures Honest(Encode(p), next)
  {
    DecodeEncode(p);
  }

  lemma GenuineGrows(net: seq<Datagram>, sent: seq<Packet>, more: seq<Packet>)
    requires AllGenuine(net, sent) && sent <= more
    ensures AllGenuine(net, more)
  {
    forall i | 0 <= i < |net| ensures Genuine(net[i], more) {
      assert Genuine(net[i], sent);
    }
  }

  lemma HonestGrows(net: seq<Datagram>, next: int, later: int)
    requires AllHonest(net, next) && next <= later
    ensures AllHonest(net, later)
  {
    forall i | 0 <= i < |net| ensures Honest(net[i], later) {
      assert Honest(net[i], next);
    }
  }

  lemma GenuineJoin(a: seq<Datagram>, b: seq<Datagram>, sent: seq<Packet>)
    requires AllGenuine(a, sent) && AllGenuine(b, sent)
    ensures AllGenuine(a + b, sent)
  {
  }

  lemma HonestJoin(a: seq<Datagram>, b: seq<Datagram>, next: int)
    requires AllHonest(a, next) && AllHonest(b, next)
    ensures AllHonest(a + b, next)
  {
  }

  /** What no step undoes: the plan of what to send, what was sent, what was delivered. */
  ghost predicate Onward(w: World, v: World) {
    Plan(w.init.snd) == Plan(v.init.snd) && w.init.snd.sent <= v.init.snd.sent &&
    w.lstn.rcv.nextExpected <= v.lstn.rcv.nextExpected && w.init.snd.deadlineDrops <= v.init.snd.deadlineDrops
  }

  // ---------------------------------------------------------------- the initiator's steps

  lemma SettledKeeps(s: Sending, t: Sending, a: int, next: int)
    requires Settled(s, next) && Keeps(s, t, a) && a < next
    ensures Settled(t, next)
  {
  }

  lemma InitiatorStep(w: World, r: Reply, a: int, now: Time)
    requires Inv(w) && r.e.role == Initiator && Good(w.init.snd, r.e.snd, r.out, a) && a < w.lstn.rcv.nextExpected
    requires |r.e.snd.sent| < TWO_32
    ensures Inv(FromI(w, r, now)) && Onward(w, FromI(w, r, now))
  {
    var sent, more := w.init.snd.sent, r.e.snd.sent;
    ReceiverGrows(w.lstn.rcv, sent, more);
    GenuineGrows(w.toL, sent, more);
    GenuineWires(r.out, more);
    GenuineJoin(w.toL, Wires(r.out), more);
    SettledKeeps(w.init.snd, r.e.snd, a, w.lstn.rcv.nextExpected);
  }

  lemma SentInRange(s: Sending)
    requires SenderOk(s)
    ensures |s.sent| < TWO_32
  {
  }

  // ---------------------------------------------------------------- the listener's steps

  /** What a listener's operation promises. */
  ghost predicate Attends(e: Endpoint, f: Endpoint, out: seq<Packet>, sent: seq<Packet>) {
    f.role == Listener && f.snd.inFlight == map[] && ReceiverOk(f.rcv, sent) &&
    e.rcv.nextExpected <= f.rcv.nextExpected && Feedback(out, f.rcv.nextExpected)
  }

  lemma ListenerStep(w: World, r: Reply, now: Time)
    requires Inv(w) && Attends(w.lstn, r.e, r.out, w.init.snd.sent)
    ensures Inv(FromL(w, r, now)) && Onward(w, FromL(w, r, now))
  {
    var next, later := w.lstn.rcv.nextExpected, r.e.rcv.nextExpected;
    HonestGrows(w.toI, next, later);
    HonestWires(r.out, later);
    HonestJoin(w.toI, Wires(r.out), later);
  }

  lemma OnDataAttends(e: Endpoint, p: Packet, sent: seq<Packet>, now: Time)
    requires e.role == Listener && e.snd.inFlight == map[] && ReceiverOk(e.rcv, sent) && |sent| < TWO_32
    requires Carries(p, sent, p.header.sequenceNumber)
    ensures Attends(e, OnData(e, p, now).e, OnData(e, p, now).out, sent)
  {
    var w := if e.role == Listener && e.state == Handshaking then e.(state := Active) else e;
    ReceiveKeeps(e.rcv, sent, w.streamId, p, now);
  }

  lemma OnHandshakeAttends(e: Endpoint, p: Packet, sent: seq<Packet>, now: Time)
    requires e.role == Listener && e.snd.inFlight == map[] && ReceiverOk(e.rcv, sent)
    requires IsSyn(p.header.flags) ==> e.rcv.nextExpected == 0
    ensures Attends(e, OnHandshake(e, p, now).e, OnHandshake(e, p, now).out, sent)
  {
  }

  /** Any packet at a listener, within one epoch. */
  lemma ListenerAttends(e: Endpoint, p: Packet, sent: seq<Packet>, now: Time)
    requires e.role == Listener && e.snd.inFlight == map[] && ReceiverOk(e.rcv, sent) && |sent| < TWO_32
    requires IsData(p) ==> Carries(p, sent, p.header.sequenceNumber)
    requires p.header.packetType == Handshake && IsSyn(p.header.flags) ==> e.rcv.nextExpected == 0
    ensures Attends(e, OnPacket(e, p, now).e, OnPacket(e, p, now).out, sent)
  {
    match p.header.packetType {
      case Handshake => OnHandshakeAttends(e, p, sent, now);
      case Data => OnDataAttends(e, p, sent, now);
      case _ =>
    }
  }

  lemma TickAttends(e: Endpoint, sent: seq<Packet>, now: Time)
    requires e.role == Listener && e.snd.inFlight == map[] && ReceiverOk(e.rcv, sent)
    ensures Attends(e, OnTick(e, now).e, OnTick(e, now).out, sent)
  {
    var t := e.(snd := Refill(e.snd, now));
    assert t.snd.inFlight.Keys == {};
    if Open(t) { OpenTickAttends(t, sent, now); }
  }

  lemma OpenTickAttends(e: Endpoint, sent: seq<Packet>, now: Time)
    requires e.role == Listener && e.snd.inFlight == map[] && ReceiverOk(e.rcv, sent)
    ensures Attends(e, OpenTick(e, now).e, OpenTick(e, now).out, sent)
  {
    assert e.snd.inFlight.Keys == {};
    var s := Sweep(e.snd, e.snd.inFlight.Keys, now, Rto.Current(e.snd.rto));
    assert s == Swept(e.snd, [], false);
    var f := DrainJitter(e.rcv, now);
    assert f.reorder == e.rcv.reorder && f.nextExpected == e.rcv.nextExpected && f.delivered == e.rcv.delivered;
  }

  // ---------------------------------------------------------------- every step

  lemma DeliverLKeeps(w: World, i: nat, now: Time)
    requires Inv(w) && Enabled(w, DeliverL(i, now)) && SameEpoch(w, DeliverL(i, now))
    ensures Inv(Next(w, DeliverL(i, now))) && Onward(w, Next(w, DeliverL(i, now)))
  {
    var d := w.toL[i];
    var v := w.(toL := Without(w.toL, i));
    assert Genuine(d, w.init.snd.sent);
    WithoutGenuine(w.toL, i, w.init.snd.sent);
    var r := OnDatagram(w.lstn, d, now);
    if Decode(d).Some? {
      ListenerAttends(w.lstn, Decode(d).value, w.init.snd.sent, now);
    }
    ListenerStep(v, r, now);
  }

  lemma WithoutGenuine(net: seq<Datagram>, i: nat, sent: seq<Packet>)
    requires i < |net| && AllGenuine(net, sent)
    ensures AllGenuine(Without(net, i), sent)
  {
    forall j | 0 <= j < |net| - 1 ensures Genuine(Without(net, i)[j], sent) {
      assert Without(net, i)[j] == if j < i then net[j] else net[j + 1];
    }
  }

  lemma WithoutHonest(net: seq<Datagram>, i: nat, next: int)
    requires i < |net| && AllHonest(net, next)
    ensures AllHonest(Without(net, i), next)
  {
    forall j | 0 <= j < |net| - 1 ensures Honest(Without(net, i)[j], next) {
      assert Without(net, i)[j] == if j < i then net[j] else net[j + 1];
    }
  }

  lemma DeliverIKeeps(w: World, i: nat, now: Time)
    requires Inv(w) && Enabled(w, DeliverI(i, now))
    ensures Inv(Next(w, DeliverI(i, now))) && Onward(w, Next(w, DeliverI(i, now)))
  {
    var d := w.toI[i];
    var v := w.(toI := Without(w.toI, i));
    assert Honest(d, w.lstn.rcv.nextExpected);
    WithoutHonest(w.toI, i, w.lstn.rcv.nextExpected);
    var r := OnDatagram(w.init, d, now);
    if Decode(d).Some? {
      var p := Decode(d).value;
      InitiatorKeeps(w.init, p, now);
      InitiatorRole(w.init, p, now);
      SentInRange(r.e.snd);
      InitiatorStep(v, r, AckedNumber(p), now);
    } else {
      Idle(w.init.snd, -1);
      InitiatorStep(v, r, -1, now);
    }
  }

  lemma InitiatorRole(e: Endpoint, p: Packet, now: Time)
    ensures OnPacket(e, p, now).e.role == e.role
  {
  }

  lemma DamageUnreadable(d: Datagram, e: Datagram)
    requires Damaged(d, e)
    ensures Decode(e).None?
  {
    if OnlyChecksumDiffers(d, e) {
      ChecksumDamageRejected(d, e);
    } else {
      var k :| BurstAway(d, e, k);
      BurstRejected(d, e, k);
    }
  }

  /** Only the channel to the listener changed, and its data is still genuine. */
  lemma ToLKeeps(w: World, net: seq<Datagram>)
    requires Inv(w) && AllGenuine(net, w.init.snd.sent)
    ensures Inv(w.(toL := net)) && Onward(w, w.(toL := net))
  {
  }

  lemma ToIKeeps(w: World, net: seq<Datagram>)
    requires Inv(w) && AllHonest(net, w.lstn.rcv.nextExpected)
    ensures Inv(w.(toI := net)) && Onward(w, w.(toI := net))
  {
  }

  /** What the network does to one datagram makes nothing new. */
  lemma StaysGenuine(net: seq<Datagram>, i: nat, d: Datagram, sent: seq<Packet>)
    requires i < |net| && AllGenuine(net, sent)
    ensures AllGenuine(Without(net, i), sent) && AllGenuine(net + [net[i]], sent)
    ensures Damaged(net[i], d) ==> AllGenuine(net[i := d], sent)
  {
    WithoutGenuine(net, i, sent);
    assert Genuine(net[i], sent);
    if Damaged(net[i], d) { DamageUnreadable(net[i], d); }
  }

  lemma StaysHonest(net: seq<Datagram>, i: nat, d: Datagram, next: int)
    requires i < |net| && AllHonest(net, next)
    ensures AllHonest(Without(net, i), next) && AllHonest(net + [net[i]], next)
    ensures Damaged(net[i], d) ==> AllHonest(net[i := d], next)
  {
    WithoutHonest(net, i, next);
    assert Honest(net[i], next);
    if Damaged(net[i], d) { DamageUnreadable(net[i], d); }
  }

  /** What happens inside the network keeps the invariant. */
  lemma ChannelLKeeps(w: World, s: Step)
    requires Inv(w) && Enabled(w, s) && (s.DropL? || s.DuplicateL? || s.DamageL?)
    ensures Inv(Next(w, s)) && Onward(w, Next(w, s))
  {
    StaysGenuine(w.toL, s.i, if s.DamageL? then s.d else [], w.init.snd.sent);
    ToLKeeps(w, Next(w, s).toL);
  }

  lemma ChannelIKeeps(w: World, s: Step)
    requires Inv(w) && Enabled(w, s) && (s.DropI? || s.DuplicateI? || s.DamageI?)
    ensures Inv(Next(w, s)) && Onward(w, Next(w, s))
  {
    StaysHonest(w.toI, s.i, if s.DamageI? then s.d else [], w.lstn.rcv.nextExpected);
    ToIKeeps(w, Next(w, s).toI);
  }

  lemma StartUpKeeps(w: World, now: Time)
    requires Inv(w)
    ensures var v := FromI(w, Start(w.init, now), now); Inv(v) && Onward(w, v)
  {
    Idle(w.init.snd, -1);
    OtherOut(w.init.snd, w.init.snd, [], Start(w.init, now).out, -1);
    InitiatorStep(w, Start(w.init, now), -1, now);
  }

  lemma TickIKeeps(w: World, now: Time)
    requires Inv(w)
    ensures var v := FromI(w, OnTick(w.init, now), now); Inv(v) && Onward(w, v)
  {
    OnTickKeeps(w.init, now);
    TickRole(w.init, now);
    SentInRange(OnTick(w.init, now).e.snd);
    InitiatorStep(w, OnTick(w.init, now), -1, now);
  }

  lemma TickLKeeps(w: World, now: Time)
    requires Inv(w)
    ensures var v := FromL(w, OnTick(w.lstn, now), now); Inv(v) && Onward(w, v)
  {
    TickAttends(w.lstn, w.init.snd.sent, now);
    ListenerStep(w, OnTick(w.lstn, now), now);
  }

  lemma TickRole(e: Endpoint, now: Time)
    ensures OnTick(e, now).e.role == e.role
  {
  }

  /** The joint invariant is kept by every step of an epoch. */
  lemma StepKeeps(w: World, s: Step)
    requires Inv(w) && Enabled(w, s) && SameEpoch(w, s)
    ensures Inv(Next(w, s)) && Onward(w, Next(w, s))
  {
    match s {
      case DeliverL(i, now) => DeliverLKeeps(w, i, now);
      case DeliverI(i, now) => DeliverIKeeps(w, i, now);
      case StartUp(now) => StartUpKeeps(w, now);
      case CloseI =>
      case CloseL =>
      case TickI(now) => TickIKeeps(w, now);
      case TickL(now) => TickLKeeps(w, now);
      case _ => if s.DropL? || s.DuplicateL? || s.DamageL? { ChannelLKeeps(w, s); } else { ChannelIKeeps(w, s); }
    }
  }

  // ---------------------------------------------------------------- every run

  lemma {:induction false} RunKeeps(w: World, run: seq<Step>)
    requires Inv(w) && Legal(w, run)
    ensures Inv(After(w, run)) && Onward(w, After(w, run))
    decreases |run|
  {
    if run != [] {
      StepKeeps(w, run[0]);
      RunKeeps(Next(w, run[0]), run[1..]);
    }
  }

  /** A sender that has sent nothing and whose sequence numbers will not run out. */
  ghost predicate Unstarted(e: Endpoint) {
    e.role == Initiator && e.snd.sent == [] && e.snd.nextSeq == 0 && e.snd.inFlight == map[] && Budget(e.snd) &&
    e.snd.dataSent == e.snd.acked == e.snd.deadlineDrops == 0
  }

  lemma DummyUnstarted(count: uint32, size: uint16)
    ensures Unstarted(WithDummy(FreshEndpoint(Initiator), count, size))
  {
  }

  lemma MediaUnstarted(source: OpenSource, tapped: bool)
    requires |source.pending| < TWO_32 && Cut(source.pending)
    ensures Unstarted(WithMedia(FreshEndpoint(Initiator), source, tapped))
  {
  }

  lemma BeginningInv(e: Endpoint, hasSink: bool)
    requires Unstarted(e)
    ensures Inv(Beginning(e, hasSink))
  {
  }

  /** In every run of an epoch, over a network that drops, duplicates, reorders and damages
      datagrams, what the listener delivered is a prefix of what was sent: each packet once,
      in order, as the wire carries it. */
  lemma DeliveredPrefix(e: Endpoint, hasSink: bool, run: seq<Step>)
    requires Unstarted(e) && Legal(Beginning(e, hasSink), run)
    ensures var w := After(Beginning(e, hasSink), run);
      |w.lstn.rcv.delivered| == w.lstn.rcv.nextExpected <= |w.init.snd.sent| &&
      forall k :: 0 <= k < |w.lstn.rcv.delivered| ==> Carries(w.lstn.rcv.delivered[k], w.init.snd.sent, k)
  {
    BeginningInv(e, hasSink);
    RunKeeps(Beginning(e, hasSink), run);
    var w := After(Beginning(e, hasSink), run);
    DeliveredBound(w.lstn.rcv.delivered, w.init.snd.sent);
  }

  /** A drained sender without deadline drops has everything delivered. */
  lemma DrainedIsDelivered(w: World)
    requires Inv(w) && Drained(w.init.snd) && w.init.snd.deadlineDrops == 0
    ensures w.lstn.rcv.nextExpected == |w.init.snd.sent| == |w.lstn.rcv.delivered|
  {
    var n := |w.init.snd.sent|;
    DeliveredBound(w.lstn.rcv.delivered, w.init.snd.sent);
    if n > 0 {
      assert n - 1 !in w.init.snd.inFlight;
    }
  }

  /** Packet `k` has number `k` and the dummy payload of `k`. */
  ghost predicate AllDummies(d: seq<Packet>, size: nat) {
    |d| <= TWO_32 && forall k :: 0 <= k < |d| ==>
      d[k].header.sequenceNumber == k && d[k].payload == DummyPayload(k, size)
  }

  /** A complete sender of dummies has everything delivered, payloads and all. */
  lemma CompleteWorld(w: World)
    requires Inv(w) && IsComplete(w.init) && !w.init.snd.mediaMode
    ensures |w.lstn.rcv.delivered| == |w.init.snd.sent| && AllDummies(w.lstn.rcv.delivered, w.init.snd.payloadSize)
  {
    DrainedIsDelivered(w);
    forall k | 0 <= k < |w.lstn.rcv.delivered|
      ensures w.lstn.rcv.delivered[k].header.sequenceNumber == k
      ensures w.lstn.rcv.delivered[k].payload == DummyPayload(k, w.init.snd.payloadSize)
    {
      assert Carries(w.lstn.rcv.delivered[k], w.init.snd.sent, k);
    }
  }

  /** When a dummy-mode initiator reports completion, the listener has delivered exactly the
      packets 0 to `count` - 1, each with its own payload. */
  lemma CompleteIsDelivered(count: uint32, size: uint16, hasSink: bool, run: seq<Step>)
    requires Legal(Beginning(WithDummy(FreshEndpoint(Initiator), count, size), hasSink), run)
    ensures var start := WithDummy(FreshEndpoint(Initiator), count, size);
      var w := After(Beginning(start, hasSink), run);
      IsComplete(w.init) ==> |w.lstn.rcv.delivered| == count && AllDummies(w.lstn.rcv.delivered, start.snd.payloadSize)
  {
    var start := WithDummy(FreshEndpoint(Initiator), count, size);
    DummyUnstarted(count, size);
    BeginningInv(start, hasSink);
    RunKeeps(Beginning(start, hasSink), run);
    var w := After(Beginning(start, hasSink), run);
    if IsComplete(w.init) { CompleteWorld(w); }
  }

  // ---------------------------------------------------------------- the epoch hypothesis

  /** Delivering a SYN keeps the invariant exactly when nothing was delivered before. */
  lemma RestartKeepsIff(w: World, i: nat, now: Time)
    requires Inv(w) && Enabled(w, DeliverL(i, now)) && IsSynDatagram(w.toL[i])
    ensures Inv(Next(w, DeliverL(i, now))) <==> w.lstn.rcv.nextExpected == 0
  {
    if w.lstn.rcv.nextExpected == 0 {
      DeliverLKeeps(w, i, now);
    } else {
      SynRewinds(w.lstn, Decode(w.toL[i]).value, now);
    }
  }

  /** The listener waits for number 0 again and still has what it delivered. */
  lemma SynRewinds(e: Endpoint, p: Packet, now: Time)
    requires e.role == Listener && p.header.packetType == Handshake && IsSyn(p.header.flags)
    ensures OnPacket(e, p, now).e.rcv == e.rcv.(nextExpected := 0, reorder := map[])
  {
  }

  lemma AcceptsFirst(r: Receiving, p: Packet, streamId: uint32, now: Time)
    requires r.nextExpected == 0 && r.reorder == map[0 := p]
    ensures AcceptAll(r, streamId, now).r.delivered == r.delivered + [p]
  {
    var a := Accept(r, now);
    assert a.reorder == map[];
    assert AcceptAll(a, streamId, now).r == a;
  }

  /** Why: after the SYN a copy of the first packet is delivered a second time. */
  lemma RestartRedelivers(e: Endpoint, sent: seq<Packet>, syn: Packet, p: Packet, now: Time)
    requires e.role == Listener && ReceiverOk(e.rcv, sent) && e.rcv.nextExpected > 0
    requires syn.header.packetType == Handshake && IsSyn(syn.header.flags)
    requires Carries(p, sent, 0) && IsData(p) && p.header.sequenceNumber == 0
    ensures var d := OnPacket(OnPacket(e, syn, now).e, p, now).e.rcv.delivered;
      d == e.rcv.delivered + [p] && e.rcv.delivered[0] == p
  {
    assert Carries(e.rcv.delivered[0], sent, 0);
    var f := Restarted(e, now);
    assert OnPacket(e, syn, now).e == f;
    RedeliversZero(f, p, now);
  }

  lemma RedeliversZero(f: Endpoint, p: Packet, now: Time)
    requires f.role == Listener && f.state == Handshaking && f.rcv.nextExpected == 0 && f.rcv.reorder == map[]
    requires IsData(p) && p.header.sequenceNumber == 0
    ensures OnPacket(f, p, now).e.rcv.delivered == f.rcv.delivered + [p]
  {
    AcceptsFirst(Stored(f.rcv, p), p, f.streamId, now);
  }
}
