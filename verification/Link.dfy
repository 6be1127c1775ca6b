/** Two session objects and the datagrams between them: what is proved of every run of the model
    holds of the objects. Dummy mode, so that the sessions share no source. */
module Link {
  import opened Wire
  import opened Clock
  import opened PacketCodec
  import opened SessionSpec
  import opened SessionObject
  import opened Network
  import opened Reliability
  import opened Termination
  import Rto

  /** The objects a session is made of. */
  function Parts(s: Session): set<object> {
    {s, s.snd, s.snd.rto, s.snd.rate, s.snd.tap, s.rcv, s.rcv.jitter}
  }

  // ---------------------------------------------------------------- no source appears

  lemma {:induction false} FillDummySource(s: Sending, streamId: uint32, now: Time)
    ensures FillDummy(s, streamId, now).s.source == s.source
    decreases s.remaining
  {
    if |s.inFlight| < SEND_WINDOW && s.remaining > 0 { FillDummySource(SendDummy(s, streamId, now), streamId, now); }
  }

  lemma FillWindowSource(e: Endpoint, now: Time)
    requires e.snd.source.None?
    ensures FillWindow(e, now).e.snd.source.None?
  {
    FillDummySource(Refill(e.snd, now), e.streamId, now);
  }

  lemma HandshakeSource(e: Endpoint, p: Packet, now: Time)
    requires e.snd.source.None?
    ensures OnHandshake(e, p, now).e.snd.source.None?
  {
    FillWindowSource(e.(streamId := p.header.streamId, state := Active), now);
  }

  lemma AckSource(e: Endpoint, p: Packet, now: Time)
    requires e.snd.source.None?
    ensures OnAck(e, p, now).e.snd.source.None?
  {
    FillWindowSource(e.(snd := Acked(e.snd, p.header.sequenceNumber, now)), now);
  }

  lemma NackSource(e: Endpoint, p: Packet, now: Time)
    ensures OnNack(e, p, now).e.snd.source == e.snd.source
  {
  }

  lemma PacketSource(e: Endpoint, p: Packet, now: Time)
    requires e.snd.source.None?
    ensures OnPacket(e, p, now).e.snd.source.None?
  {
    match p.header.packetType {
      case Handshake => HandshakeSource(e, p, now);
      case Ack => AckSource(e, p, now);
      case Nack => NackSource(e, p, now);
      case _ =>
    }
  }

  lemma {:induction false} SweepSource(s: Sending, todo: set<int>, now: Time, rtoUs: int)
    requires todo <= s.inFlight.Keys
    ensures Sweep(s, todo, now, rtoUs).s.source == s.source
    decreases |todo|
  {
    if todo != {} {
      var n := Least(todo);
      var slot := s.inFlight[n];
      if !TimedOut(slot.lastSent, now, rtoUs) {
        SweepSource(s, todo - {n}, now, rtoUs);
      } else if slot.retries + 1 <= MAX_RETRIES {
        if ShouldRetransmit(s, slot, now) {
          SweepSource(Resent(s, n, now, slot.retries + 1), todo - {n}, now, rtoUs);
        } else {
          SweepSource(Dropped(s, n), todo - {n}, now, rtoUs);
        }
      }
    }
  }

  lemma TickSource(e: Endpoint, now: Time)
    requires e.snd.source.None?
    ensures OnTick(e, now).e.snd.source.None?
  {
    var t := e.(snd := Refill(e.snd, now));
    var s := Sweep(t.snd, t.snd.inFlight.Keys, now, Rto.Current(t.snd.rto));
    SweepSource(t.snd, t.snd.inFlight.Keys, now, Rto.Current(t.snd.rto));
    FillWindowSource(t.(snd := s.s), now);
  }

  // ---------------------------------------------------------------- the objects

  /** The transport decodes a datagram and hands an intact packet to the session. */
  method Hand(s: Session, d: Datagram, now: Time) returns (out: seq<Packet>)
    requires s.snd.source == null
    modifies Parts(s)
    ensures s.snd.source == null && Reply(s.View(), out) == OnDatagram(old(s.View()), d, now)
  {
    var p := Decode(d);
    if p.None? {
      return [];
    }
    PacketSource(s.View(), p.value, now);
    out := s.OnPacket(p.value, now);
  }

  method Tick(s: Session, now: Time) returns (out: seq<Packet>)
    requires s.snd.source == null
    modifies Parts(s)
    ensures s.snd.source == null && Reply(s.View(), out) == OnTick(old(s.View()), now)
  {
    TickSource(s.View(), now);
    out := s.OnTick(now);
  }

  /** A session that will send `count` dummies. */
  method NewSender(count: uint32, size: uint16) returns (s: Session)
    ensures fresh(Parts(s)) && s.snd.source == null
    ensures s.View() == WithDummy(FreshEndpoint(Initiator), count, size)
  {
    s := new Session(Initiator);
    assert s.View().snd.source.None?;
    s.SetDummySend(count, size);
  }

  method NewReceiver(hasSink: bool) returns (s: Session)
    ensures fresh(Parts(s)) && s.snd.source == null
    ensures var l := FreshEndpoint(Listener); s.View() == l.(rcv := l.rcv.(hasSink := hasSink))
  {
    s := new Session(Listener);
    assert s.View().snd.source.None?;
    if hasSink {
      s.SetMediaReceive();
    }
  }

  class Link {
    const init: Session
    const lstn: Session
    var toL: seq<Datagram>
    var toI: seq<Datagram>
    var clock: Time

    ghost predicate Valid()
      reads this, Parts(init), Parts(lstn)
    {
      init.snd.source == null && lstn.snd.source == null && Parts(init) !! Parts(lstn) &&
      this !in Parts(init) && this !in Parts(lstn)
    }

    ghost function AsWorld(): World
      requires Valid()
      reads this, Parts(init), Parts(lstn)
    {
      World(init.View(), lstn.View(), toL, toI, clock)
    }

    constructor (i: Session, l: Session)
      requires i.snd.source == null && l.snd.source == null && Parts(i) !! Parts(l)
      ensures init == i && lstn == l && Valid() && AsWorld() == World(i.View(), l.View(), [], [], 0)
    {
      init, lstn, toL, toI, clock := i, l, [], [], 0;
    }

    method DeliverToListener(i: nat, now: Time)
      requires Valid() && i < |toL| && clock <= now
      modifies this, Parts(lstn)
      ensures Valid() && AsWorld() == Next(old(AsWorld()), DeliverL(i, now))
    {
      DeliverLIs(AsWorld(), i, now, OnDatagram(lstn.View(), toL[i], now));
      var out := Hand(lstn, toL[i], now);
      toL, toI, clock := Without(toL, i), toI + Wires(out), now;
    }

    method DeliverToInitiator(i: nat, now: Time)
      requires Valid() && i < |toI| && clock <= now
      modifies this, Parts(init)
      ensures Valid() && AsWorld() == Next(old(AsWorld()), DeliverI(i, now))
    {
      DeliverIIs(AsWorld(), i, now, OnDatagram(init.View(), toI[i], now));
      var out := Hand(init, toI[i], now);
      toI, toL, clock := Without(toI, i), toL + Wires(out), now;
    }

    method TickInitiator(now: Time)
      requires Valid() && clock <= now
      modifies this, Parts(init)
      ensures Valid() && AsWorld() == Next(old(AsWorld()), TickI(now))
    {
      var out := Tick(init, now);
      toL, clock := toL + Wires(out), now;
    }

    method TickListener(now: Time)
      requires Valid() && clock <= now
      modifies this, Parts(lstn)
      ensures Valid() && AsWorld() == Next(old(AsWorld()), TickL(now))
    {
      var out := Tick(lstn, now);
      toI, clock := toI + Wires(out), now;
    }

    method StartInitiator(now: Time)
      requires Valid() && clock <= now
      modifies this, Parts(init)
      ensures Valid() && AsWorld() == Next(old(AsWorld()), StartUp(now))
    {
      var out := init.Start(now);
      toL, clock := toL + Wires(out), now;
    }

    method CloseInitiator()
      requires Valid()
      modifies Parts(init)
      ensures Valid() && AsWorld() == Next(old(AsWorld()), CloseI)
    {
      init.BeginClose();
    }

    method CloseListener()
      requires Valid()
      modifies Parts(lstn)
      ensures Valid() && AsWorld() == Next(old(AsWorld()), CloseL)
    {
      lstn.BeginClose();
    }

    /** What the network does to the channel to the listener. */
    method DisturbL(s: Step)
      requires Valid() && Enabled(AsWorld(), s) && (s.DropL? || s.DuplicateL? || s.DamageL?)
      modifies this`toL
      ensures Valid() && AsWorld() == Next(old(AsWorld()), s)
    {
      match s {
        case DropL(i) => toL := Without(toL, i);
        case DuplicateL(i) => toL := toL + [toL[i]];
        case DamageL(i, d) => toL := toL[i := d];
      }
    }

    method DisturbI(s: Step)
      requires Valid() && Enabled(AsWorld(), s) && (s.DropI? || s.DuplicateI? || s.DamageI?)
      modifies this`toI
      ensures Valid() && AsWorld() == Next(old(AsWorld()), s)
    {
      match s {
        case DropI(i) => toI := Without(toI, i);
        case DuplicateI(i) => toI := toI + [toI[i]];
        case DamageI(i, d) => toI := toI[i := d];
      }
    }

    /** One step of the world, taken by the objects. */
    method Take(s: Step)
      requires Valid() && Enabled(AsWorld(), s)
      modifies this, Parts(init), Parts(lstn)
      ensures Valid() && AsWorld() == Next(old(AsWorld()), s)
    {
      match s {
        case StartUp(now) => StartInitiator(now);
        case CloseI => CloseInitiator();
        case CloseL => CloseListener();
        case TickI(now) => TickInitiator(now);
        case TickL(now) => TickListener(now);
        case DeliverL(i, now) => DeliverToListener(i, now);
        case DeliverI(i, now) => DeliverToInitiator(i, now);
        case DropL(i) => DisturbL(s);
        case DuplicateL(i) => DisturbL(s);
        case DamageL(i, d) => DisturbL(s);
        case _ => DisturbI(s);
      }
    }

    /** A whole run of them. */
    method Run(steps: seq<Step>)
      requires Valid() && Legal(AsWorld(), steps)
      modifies this, Parts(init), Parts(lstn)
      ensures Valid() && AsWorld() == After(old(AsWorld()), steps)
    {
      ghost var start := AsWorld();
      for k := 0 to |steps|
        invariant Valid() && Legal(AsWorld(), steps[k..])
        invariant After(AsWorld(), steps[k..]) == After(start, steps)
      {
        FirstOfRest(AsWorld(), steps, k);
        Take(steps[k]);
      }
    }
  }

  /** The rest of a run is a step and what comes after it. */
  lemma FirstOfRest(w: World, steps: seq<Step>, k: nat)
    requires k < |steps| && Legal(w, steps[k..])
    ensures Enabled(w, steps[k]) && Legal(Next(w, steps[k]), steps[k + 1..])
    ensures After(Next(w, steps[k]), steps[k + 1..]) == After(w, steps[k..])
  {
    assert steps[k..][0] == steps[k] && steps[k..][1..] == steps[k + 1..];
  }

  /** A dummy transfer between two session objects, in any run of an epoch: when the sending object
      reports completion, the receiving one has delivered every packet with its payload. */
  method Transfer(count: uint32, size: uint16, hasSink: bool, steps: seq<Step>) returns (l: Link)
    requires Legal(Beginning(WithDummy(FreshEndpoint(Initiator), count, size), hasSink), steps)
    ensures l.Valid() && (l.init.IsComplete() ==>
      |l.lstn.rcv.delivered| == count &&
      AllDummies(l.lstn.rcv.delivered, WithDummy(FreshEndpoint(Initiator), count, size).snd.payloadSize))
  {
    var i := NewSender(count, size);
    var r := NewReceiver(hasSink);
    l := new Link(i, r);
    l.Run(steps);
    CompleteIsDelivered(count, size, hasSink, steps);
  }
}
