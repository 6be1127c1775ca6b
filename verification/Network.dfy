/** One initiator and one listener over a network that drops, duplicates, reorders and
    damages datagrams. The order of a channel's sequence carries no meaning: any datagram
    in it may be delivered next. */
module Network {
  import opened Wire
  import opened Clock
  import opened PacketCodec
  import opened SessionSpec

  type Datagram = seq<byte>

  datatype World = World(init: Endpoint, lstn: Endpoint, toL: seq<Datagram>, toI: seq<Datagram>, clock: Time)

  datatype Step =
    | StartUp(now: Time)
    | CloseI
    | CloseL
    | TickI(now: Time)
    | TickL(now: Time)
    | DeliverL(i: nat, now: Time)
    | DeliverI(i: nat, now: Time)
    | DropL(i: nat)
    | DropI(i: nat)
    | DuplicateL(i: nat)
    | DuplicateI(i: nat)
    | DamageL(i: nat, d: Datagram)
    | DamageI(i: nat, d: Datagram)

  /** The datagrams of a list of packets; a packet too large to encode is not sent. */
  function Wires(ps: seq<Packet>): seq<Datagram> {
    if ps == [] then [] else (if Fits(ps[0]) then [Encode(ps[0])] else []) + Wires(ps[1..])
  }

  function Without(net: seq<Datagram>, i: nat): seq<Datagram>
    requires i < |net|
  {
    net[..i] + net[i + 1..]
  }

  /** Damage the checksum is there for: to an intact datagram, within four consecutive bytes
      outside the checksum field or inside that field only. */
  ghost predicate Damaged(d: Datagram, e: Datagram) {
    d != e && Decode(d).Some? && (OnlyChecksumDiffers(d, e) || exists k :: BurstAway(d, e, k))
  }

  ghost predicate Enabled(w: World, s: Step) {
    match s
    case StartUp(now) => w.clock <= now
    case CloseI => true
    case CloseL => true
    case TickI(now) => w.clock <= now
    case TickL(now) => w.clock <= now
    case DeliverL(i, now) => i < |w.toL| && w.clock <= now
    case DeliverI(i, now) => i < |w.toI| && w.clock <= now
    case DropL(i) => i < |w.toL|
    case DropI(i) => i < |w.toI|
    case DuplicateL(i) => i < |w.toL|
    case DuplicateI(i) => i < |w.toI|
    case DamageL(i, d) => i < |w.toL| && Damaged(w.toL[i], d)
    case DamageI(i, d) => i < |w.toI| && Damaged(w.toI[i], d)
  }

  /** The transport decodes a datagram and hands an intact packet to the session. */
  function OnDatagram(e: Endpoint, d: Datagram, now: Time): Reply {
    var p := Decode(d);
    if p.None? then Reply(e, []) else OnPacket(e, p.value, now)
  }

  function FromI(w: World, r: Reply, now: Time): World {
    w.(init := r.e, toL := w.toL + Wires(r.out), clock := now)
  }

  function FromL(w: World, r: Reply, now: Time): World {
    w.(lstn := r.e, toI := w.toI + Wires(r.out), clock := now)
  }

  ghost function Next(w: World, s: Step): World
    requires Enabled(w, s)
  {
    match s
    case StartUp(now) => FromI(w, Start(w.init, now), now)
    case CloseI => w.(init := BeginClose(w.init))
    case CloseL => w.(lstn := BeginClose(w.lstn))
    case TickI(now) => FromI(w, OnTick(w.init, now), now)
    case TickL(now) => FromL(w, OnTick(w.lstn, now), now)
    case DeliverL(i, now) => FromL(w.(toL := Without(w.toL, i)), OnDatagram(w.lstn, w.toL[i], now), now)
    case DeliverI(i, now) => FromI(w.(toI := Without(w.toI, i)), OnDatagram(w.init, w.toI[i], now), now)
    case DropL(i) => w.(toL := Without(w.toL, i))
    case DropI(i) => w.(toI := Without(w.toI, i))
    case DuplicateL(i) => w.(toL := w.toL + [w.toL[i]])
    case DuplicateI(i) => w.(toI := w.toI + [w.toI[i]])
    case DamageL(i, d) => w.(toL := w.toL[i := d])
    case DamageI(i, d) => w.(toI := w.toI[i := d])
  }

  predicate IsSynDatagram(d: Datagram) {
    Decode(d).Some? && Decode(d).value.header.packetType == Handshake && IsSyn(Decode(d).value.header.flags)
  }

  /** No SYN reaches the listener once it has accepted data. */
  predicate SameEpoch(w: World, s: Step) {
    s.DeliverL? && s.i < |w.toL| && IsSynDatagram(w.toL[s.i]) ==> w.lstn.rcv.nextExpected == 0
  }

  /** A legal run within one epoch. */
  ghost predicate Legal(w: World, run: seq<Step>)
    decreases |run|
  {
    run == [] || (Enabled(w, run[0]) && SameEpoch(w, run[0]) && Legal(Next(w, run[0]), run[1..]))
  }

  ghost function After(w: World, run: seq<Step>): World
    requires Legal(w, run)
    decreases |run|
  {
    if run == [] then w else After(Next(w, run[0]), run[1..])
  }

  /** A step and then a run. */
  lemma FirstStep(w: World, s: Step, rest: seq<Step>)
    requires Enabled(w, s) && SameEpoch(w, s) && Legal(Next(w, s), rest)
    ensures Legal(w, [s] + rest) && After(w, [s] + rest) == After(Next(w, s), rest)
  {
    assert ([s] + rest)[1..] == rest;
  }

  /** The run takes `w` to `u`, whatever comes after it. */
  ghost predicate Leads(w: World, run: seq<Step>, u: World) {
    forall rest :: Legal(u, rest) ==> Legal(w, run + rest) && After(w, run + rest) == After(u, rest)
  }

  lemma LeadsNowhere(w: World)
    ensures Leads(w, [], w)
  {
    forall rest | Legal(w, rest) ensures Legal(w, [] + rest) && After(w, [] + rest) == After(w, rest) {
      assert [] + rest == rest;
    }
  }

  lemma LeadsStep(w: World, s: Step)
    requires Enabled(w, s) && SameEpoch(w, s)
    ensures Leads(w, [s], Next(w, s))
  {
    forall rest | Legal(Next(w, s), rest)
      ensures Legal(w, [s] + rest) && After(w, [s] + rest) == After(Next(w, s), rest)
    {
      FirstStep(w, s, rest);
    }
  }

  lemma LeadsOn(w: World, a: seq<Step>, u: World, b: seq<Step>, v: World)
    requires Leads(w, a, u) && Leads(u, b, v)
    ensures Leads(w, a + b, v)
  {
    forall rest | Legal(v, rest) ensures Legal(w, a + b + rest) && After(w, a + b + rest) == After(v, rest) {
      assert Legal(u, b + rest) && After(u, b + rest) == After(v, rest);
      assert a + (b + rest) == a + b + rest;
    }
  }

  lemma LeadsTo(w: World, run: seq<Step>, u: World)
    requires Leads(w, run, u)
    ensures Legal(w, run) && After(w, run) == u
  {
    assert Legal(u, []);
    assert run + [] == run;
  }

  /** A world in which nothing has been sent: an initiator with something to send, and a
      fresh listener with or without a sink. */
  function Beginning(init: Endpoint, hasSink: bool): World {
    var l := FreshEndpoint(Listener);
    World(init, l.(rcv := l.rcv.(hasSink := hasSink)), [], [], 0)
  }
}
