/** The handshake over a network that loses nothing: the run that opens every exchange. */
module Opening {
  import opened Wire
  import opened Clock
  import opened PacketCodec
  import opened SessionSpec
  import opened Network
  import opened Termination
  import opened Completion

  const SYN_ACK: Packet := HandshakePacket(LISTENER_STREAM, FLAG_SYN + FLAG_ACK)

  /** The SYN arrives, and so does the answer. */
  function Greetings(now: Time): seq<Step> { [DeliverL(0, now)] + [DeliverI(0, now)] }

  /** The initiator starts, and the handshake follows. */
  function OpeningRun(now: Time): seq<Step> { [StartUp(now)] + Greetings(now) }

  /** The world once the handshake is done: what the initiator sends on the SYN|ACK is under way. */
  function Opened(e: Endpoint, hasSink: bool, now: Time): World {
    var r := OnSynAck(e.(lastHandshake := now), LISTENER_STREAM, now);
    World(r.e, Restarted(Beginning(e, hasSink).lstn, now), Wires(r.out), [], now)
  }

  lemma StartedIs(e: Endpoint, hasSink: bool, now: Time)
    requires e.role == Initiator
    ensures FromI(Beginning(e, hasSink), Start(e, now), now) ==
      World(e.(lastHandshake := now), Beginning(e, hasSink).lstn, [Encode(HandshakePacket(e.streamId, FLAG_SYN))], [], now)
  {
    WiresOne(HandshakePacket(e.streamId, FLAG_SYN));
    assert [] + [Encode(HandshakePacket(e.streamId, FLAG_SYN))] == [Encode(HandshakePacket(e.streamId, FLAG_SYN))];
  }

  lemma SynReply(e: Endpoint, p: Packet, now: Time)
    requires e.role == Listener && p.header.packetType == Handshake && p.header.flags == FLAG_SYN
    ensures OnPacket(e, p, now) == Reply(Restarted(e, now), [SYN_ACK])
  {
  }

  /** The SYN at the listener. */
  lemma SynDelivered(w: World, streamId: uint32, now: Time)
    requires w.lstn.role == Listener && w.clock <= now
    requires w.toL == [Encode(HandshakePacket(streamId, FLAG_SYN))] && w.toI == [] && w.lstn.rcv.nextExpected == 0
    ensures SameEpoch(w, DeliverL(0, now))
    ensures Next(w, DeliverL(0, now)) == World(w.init, Restarted(w.lstn, now), [], [Encode(SYN_ACK)], now)
  {
    var syn := HandshakePacket(streamId, FLAG_SYN);
    var r := Reply(Restarted(w.lstn, now), [SYN_ACK]);
    OverTheWire(w.lstn, syn, now);
    SynReply(w.lstn, Normalise(syn), now);
    DeliverLIs(w, 0, now, r);
    AnsweredByL(w, w.toL[0], r, SYN_ACK, now);
  }

  /** The SYN|ACK at the initiator. */
  lemma SynAckDelivered(w: World, r: Reply, now: Time)
    requires w.init.role == Initiator && w.init.state == Handshaking && w.clock <= now
    requires w.toI == [Encode(SYN_ACK)] && r == OnPacket(w.init, Normalise(SYN_ACK), now)
    ensures Next(w, DeliverI(0, now)) == World(r.e, w.lstn, w.toL + Wires(r.out), [], now)
  {
    OverTheWire(w.init, SYN_ACK, now);
    DeliverIIs(w, 0, now, r);
    assert Without(w.toI, 0) == [];
  }

  lemma SynAckMeans(e: Endpoint, now: Time)
    requires e.role == Initiator && e.state == Handshaking
    ensures OnPacket(e, Normalise(SYN_ACK), now) == OnSynAck(e, LISTENER_STREAM, now)
  {
    SynAckFlags();
    SynAckReply(e, Normalise(SYN_ACK), now);
  }

  lemma SynLeads(w: World, streamId: uint32, now: Time)
    requires w.lstn.role == Listener && w.clock <= now
    requires w.toL == [Encode(HandshakePacket(streamId, FLAG_SYN))] && w.toI == [] && w.lstn.rcv.nextExpected == 0
    ensures Leads(w, [DeliverL(0, now)], World(w.init, Restarted(w.lstn, now), [], [Encode(SYN_ACK)], now))
  {
    SynDelivered(w, streamId, now);
    LeadsStep(w, DeliverL(0, now));
  }

  lemma SynAckLeads(w: World, now: Time)
    requires w.init.role == Initiator && w.init.state == Handshaking && w.clock <= now
    requires w.toL == [] && w.toI == [Encode(SYN_ACK)]
    ensures var r := OnSynAck(w.init, LISTENER_STREAM, now);
      Leads(w, [DeliverI(0, now)], World(r.e, w.lstn, Wires(r.out), [], now))
  {
    var r := OnSynAck(w.init, LISTENER_STREAM, now);
    SynAckMeans(w.init, now);
    SynAckDelivered(w, r, now);
    assert [] + Wires(r.out) == Wires(r.out);
    LeadsStep(w, DeliverI(0, now));
  }

  /** From the world in which the initiator has said SYN. */
  lemma GreetingsLead(e: Endpoint, hasSink: bool, now: Time)
    requires e.role == Initiator && e.state == Handshaking
    ensures Leads(FromI(Beginning(e, hasSink), Start(e, now), now), Greetings(now), Opened(e, hasSink, now))
  {
    var w := FromI(Beginning(e, hasSink), Start(e, now), now);
    var v := World(w.init, Restarted(w.lstn, now), [], [Encode(SYN_ACK)], now);
    StartedIs(e, hasSink, now);
    SynLeads(w, e.streamId, now);
    SynAckLeads(v, now);
    LeadsOn(w, [DeliverL(0, now)], v, [DeliverI(0, now)], Opened(e, hasSink, now));
  }

  lemma StartLeads(e: Endpoint, hasSink: bool, now: Time)
    ensures Leads(Beginning(e, hasSink), [StartUp(now)], FromI(Beginning(e, hasSink), Start(e, now), now))
  {
    LeadsStep(Beginning(e, hasSink), StartUp(now));
  }

  lemma OpeningLeads(e: Endpoint, hasSink: bool, now: Time)
    requires e.role == Initiator && e.state == Handshaking
    ensures Leads(Beginning(e, hasSink), OpeningRun(now), Opened(e, hasSink, now))
  {
    StartLeads(e, hasSink, now);
    GreetingsLead(e, hasSink, now);
    LeadsOn(Beginning(e, hasSink), [StartUp(now)], FromI(Beginning(e, hasSink), Start(e, now), now), Greetings(now),
            Opened(e, hasSink, now));
  }

  lemma Opens(e: Endpoint, hasSink: bool, now: Time)
    requires e.role == Initiator && e.state == Handshaking
    ensures Legal(Beginning(e, hasSink), OpeningRun(now))
    ensures After(Beginning(e, hasSink), OpeningRun(now)) == Opened(e, hasSink, now)
  {
    OpeningLeads(e, hasSink, now);
    LeadsTo(Beginning(e, hasSink), OpeningRun(now), Opened(e, hasSink, now));
  }
}
