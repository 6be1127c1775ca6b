/** Giving up: a peer that stays silent is noticed after a fixed number of timeouts, and no
    packet is retransmitted on timeout more often than that. */
module DeadPeer {
  import opened Wire
  import opened Clock
  import opened SessionSpec
  import opened Sender
  import opened Reliability
  import Rto

  // ---------------------------------------------------------------- silence

  /** The endpoint after ticks at the given times and nothing else. */
  ghost function Ticked(e: Endpoint, ticks: seq<Time>): Endpoint
    decreases |ticks|
  {
    if ticks == [] then e else Ticked(OnTick(e, ticks[0]).e, ticks[1..])
  }

  /** Every tick comes a full timeout after the one before. */
  predicate Spaced(since: Time, ticks: seq<Time>, rtoUs: int)
    decreases |ticks|
  {
    ticks == [] || (TimedOut(since, ticks[0], rtoUs) && Spaced(ticks[0], ticks[1..], rtoUs))
  }

  predicate Dead(e: Endpoint) { e.failed && e.state == Closed }

  /** The slot `n` was last sent at `at` and retransmitted `retries` times. */
  predicate Waits(s: Sending, n: int, retries: nat, at: Time) {
    !s.mediaMode && n in s.inFlight && s.inFlight[n].retries == retries && s.inFlight[n].lastSent == at
  }

  lemma {:induction false} FillDummySpares(s: Sending, streamId: uint32, now: Time, n: int)
    requires n in s.inFlight
    ensures var t := FillDummy(s, streamId, now).s;
      n in t.inFlight && t.inFlight[n] == s.inFlight[n] && t.rto == s.rto && t.mediaMode == s.mediaMode
    decreases s.remaining
  {
    if |s.inFlight| < SEND_WINDOW && s.remaining > 0 {
      FillDummySpares(SendDummy(s, streamId, now), streamId, now, n);
    }
  }

  lemma FillWindowSpares(e: Endpoint, now: Time, n: int)
    requires n in e.snd.inFlight && !e.snd.mediaMode
    ensures var t := FillWindow(e, now).e.snd;
      n in t.inFlight && t.inFlight[n] == e.snd.inFlight[n] && t.rto == e.snd.rto && !t.mediaMode
  {
    if e.role == Initiator && e.state == Active {
      FillDummySpares(Refill(e.snd, now), e.streamId, now, n);
    }
  }

  /** The scan leaves slots it does not visit alone. */
  lemma {:induction false} SweepSpares(s: Sending, todo: set<int>, now: Time, rtoUs: int, n: int)
    requires !s.mediaMode && todo <= s.inFlight.Keys && n in s.inFlight && n !in todo
    ensures var t := Sweep(s, todo, now, rtoUs).s;
      n in t.inFlight && t.inFlight[n] == s.inFlight[n] && t.rto == s.rto && !t.mediaMode
    decreases |todo|
  {
    if todo != {} {
      var m := Least(todo);
      var slot := s.inFlight[m];
      if !TimedOut(slot.lastSent, now, rtoUs) {
        SweepSpares(s, todo - {m}, now, rtoUs, n);
      } else if slot.retries + 1 <= MAX_RETRIES {
        SweepSpares(Resent(s, m, now, slot.retries + 1), todo - {m}, now, rtoUs, n);
      }
    }
  }

  /** A timed-out slot the scan visits is retransmitted once more, or the scan gives up. */
  lemma {:induction false} SweepAges(s: Sending, todo: set<int>, now: Time, rtoUs: int, n: int)
    requires !s.mediaMode && todo <= s.inFlight.Keys && n in todo && TimedOut(s.inFlight[n].lastSent, now, rtoUs)
    ensures var r := Sweep(s, todo, now, rtoUs);
      r.dead || (Waits(r.s, n, s.inFlight[n].retries + 1, now) && r.s.inFlight[n].retries <= MAX_RETRIES && r.s.rto == s.rto)
    decreases |todo|
  {
    var m := Least(todo);
    var slot := s.inFlight[m];
    if !TimedOut(slot.lastSent, now, rtoUs) {
      SweepAges(s, todo - {m}, now, rtoUs, n);
    } else if slot.retries + 1 <= MAX_RETRIES {
      var t := Resent(s, m, now, slot.retries + 1);
      if m == n {
        SweepSpares(t, todo - {m}, now, rtoUs, n);
      } else {
        SweepAges(t, todo - {m}, now, rtoUs, n);
      }
    }
  }

  lemma OpenTickAges(e: Endpoint, n: int, now: Time)
    requires Open(e) && !e.snd.mediaMode && n in e.snd.inFlight
    requires TimedOut(e.snd.inFlight[n].lastSent, now, Rto.Current(e.snd.rto))
    ensures var f := OpenTick(e, now).e;
      Dead(f) || (Open(f) && Waits(f.snd, n, e.snd.inFlight[n].retries + 1, now) &&
                  f.snd.inFlight[n].retries <= MAX_RETRIES && f.snd.rto == e.snd.rto)
  {
    var r := Sweep(e.snd, e.snd.inFlight.Keys, now, Rto.Current(e.snd.rto));
    SweepAges(e.snd, e.snd.inFlight.Keys, now, Rto.Current(e.snd.rto), n);
    if !r.dead { FillWindowSpares(e.(snd := r.s), now, n); }
  }

  lemma {:induction false} DeadStaysDead(e: Endpoint, ticks: seq<Time>)
    requires Dead(e)
    ensures Dead(Ticked(e, ticks))
    decreases |ticks|
  {
    if ticks != [] { DeadStaysDead(OnTick(e, ticks[0]).e, ticks[1..]); }
  }

  /** A dummy-mode sender with a packet in flight that hears nothing is dead after as many
      spaced ticks as the packet has retransmissions left, and one. */
  lemma {:induction false} SilentPeerIsDead(e: Endpoint, n: int, ticks: seq<Time>)
    requires Open(e) && !e.snd.mediaMode && n in e.snd.inFlight
    requires Spaced(e.snd.inFlight[n].lastSent, ticks, Rto.Current(e.snd.rto))
    requires |ticks| > 0 && e.snd.inFlight[n].retries + |ticks| > MAX_RETRIES
    ensures Dead(Ticked(e, ticks))
    decreases |ticks|
  {
    var t := e.(snd := Refill(e.snd, ticks[0]));
    OpenTickAges(t, n, ticks[0]);
    var f := OnTick(e, ticks[0]).e;
    if Dead(f) {
      DeadStaysDead(f, ticks[1..]);
    } else {
      SilentPeerIsDead(f, n, ticks[1..]);
    }
  }

  /** Twenty-one spaced ticks always suffice. */
  lemma DeadAfterTwentyOne(e: Endpoint, n: int, ticks: seq<Time>)
    requires Open(e) && !e.snd.mediaMode && n in e.snd.inFlight && |ticks| == MAX_RETRIES + 1
    requires Spaced(e.snd.inFlight[n].lastSent, ticks, Rto.Current(e.snd.rto))
    ensures Dead(Ticked(e, ticks))
  {
    SilentPeerIsDead(e, n, ticks);
  }

  /** An endpoint that has begun its handshake and hears nothing is dead likewise. */
  lemma {:induction false} UnansweredHandshakeIsDead(e: Endpoint, ticks: seq<Time>)
    requires e.state == Handshaking && e.lastHandshake != 0
    requires Spaced(e.lastHandshake, ticks, Rto.Current(e.snd.rto))
    requires |ticks| > 0 && e.handshakeRetries + |ticks| > MAX_RETRIES
    ensures Dead(Ticked(e, ticks))
    decreases |ticks|
  {
    var f := OnTick(e, ticks[0]).e;
    if Dead(f) {
      DeadStaysDead(f, ticks[1..]);
    } else {
      UnansweredHandshakeIsDead(f, ticks[1..]);
    }
  }

  lemma StartedIsDead(e: Endpoint, now: Time, ticks: seq<Time>)
    requires e.role == Initiator && e.state == Handshaking && now != 0 && |ticks| == MAX_RETRIES + 1
    requires Spaced(now, ticks, Rto.Current(e.snd.rto))
    ensures Dead(Ticked(Start(e, now).e, ticks))
  {
    UnansweredHandshakeIsDead(Start(e, now).e, ticks);
  }

  /** A timeout during the handshake repeats the greeting the endpoint began with. */
  lemma GreetingRepeated(e: Endpoint, syn: Packet, now: Time)
    requires e.state == Handshaking && e.lastHandshake != 0 && e.handshakeRetries < MAX_RETRIES
    requires TimedOut(e.lastHandshake, now, Rto.Current(e.snd.rto))
    requires syn.header.packetType == Handshake && IsSyn(syn.header.flags)
    ensures OnTick(e, now).e.lastHandshake == now && OnTick(e, now).e.state == Handshaking
    ensures e.role == Initiator ==> OnTick(e, now).out == Start(e, now).out
    ensures e.role == Listener && e.streamId == LISTENER_STREAM ==> OnTick(e, now).out == OnPacket(e, syn, now).out
  {
  }

  // ---------------------------------------------------------------- no earlier

  /** Every slot has at least `left` retransmissions left. */
  predicate Spared(s: Sending, left: int) {
    !s.mediaMode && forall n :: n in s.inFlight ==> s.inFlight[n].retries + left <= MAX_RETRIES
  }

  /** Midway through a scan, the slots still to be visited have one more left. */
  predicate SparedBut(s: Sending, todo: set<int>, left: int) {
    Spared(s, left) && forall n :: n in s.inFlight && n in todo ==> s.inFlight[n].retries + left < MAX_RETRIES
  }

  lemma {:induction false} SweepSurvives(s: Sending, todo: set<int>, now: Time, rtoUs: int, left: int)
    requires todo <= s.inFlight.Keys && SparedBut(s, todo, left) && left >= 0
    ensures var r := Sweep(s, todo, now, rtoUs); !r.dead && Spared(r.s, left)
    decreases |todo|
  {
    if todo != {} {
      var m := Least(todo);
      var slot := s.inFlight[m];
      if !TimedOut(slot.lastSent, now, rtoUs) {
        SweepSurvives(s, todo - {m}, now, rtoUs, left);
      } else {
        SweepSurvives(Resent(s, m, now, slot.retries + 1), todo - {m}, now, rtoUs, left);
      }
    }
  }

  lemma {:induction false} FillDummySpared(s: Sending, streamId: uint32, now: Time, left: int)
    requires Spared(s, left) && left <= MAX_RETRIES
    ensures Spared(FillDummy(s, streamId, now).s, left)
    decreases s.remaining
  {
    if |s.inFlight| < SEND_WINDOW && s.remaining > 0 {
      FillDummySpared(SendDummy(s, streamId, now), streamId, now, left);
    }
  }

  lemma FillWindowSpared(e: Endpoint, now: Time, left: int)
    requires Spared(e.snd, left) && left <= MAX_RETRIES
    ensures Spared(FillWindow(e, now).e.snd, left)
  {
    if e.role == Initiator && e.state == Active {
      FillDummySpared(Refill(e.snd, now), e.streamId, now, left);
    }
  }

  /** No slot is given up before its twentieth retransmission has timed out: with fresh slots
      twenty ticks kill nothing. */
  lemma {:induction false} AliveAfterTwenty(e: Endpoint, ticks: seq<Time>)
    requires Open(e) && !e.failed && Spared(e.snd, |ticks|) && |ticks| <= MAX_RETRIES
    ensures var f := Ticked(e, ticks); Open(f) && !f.failed
    decreases |ticks|
  {
    if ticks != [] {
      var now, left := ticks[0], |ticks| - 1;
      var t := e.(snd := Refill(e.snd, now));
      var r := Sweep(t.snd, t.snd.inFlight.Keys, now, Rto.Current(t.snd.rto));
      SweepSurvives(t.snd, t.snd.inFlight.Keys, now, Rto.Current(t.snd.rto), left);
      FillWindowSpared(t.(snd := r.s), now, left);
      AliveAfterTwenty(OnTick(e, now).e, ticks[1..]);
    }
  }

  // ---------------------------------------------------------------- timeouts of one packet

  /** How often number `n` is among the packets. */
  function Count(out: seq<Packet>, n: int): nat {
    if out == [] then 0 else (if out[0].header.sequenceNumber == n then 1 else 0) + Count(out[1..], n)
  }

  /** Timeout retransmissions number `n` may still have. */
  function Patience(s: Sending, n: int): nat {
    if n in s.inFlight then (if s.inFlight[n].retries < MAX_RETRIES then MAX_RETRIES - s.inFlight[n].retries else 0)
    else if n >= |s.sent| then MAX_RETRIES else 0
  }

  lemma CountCons(p: Packet, out: seq<Packet>, n: int)
    ensures Count([p] + out, n) == (if p.header.sequenceNumber == n then 1 else 0) + Count(out, n)
  {
    assert ([p] + out)[1..] == out;
  }

  lemma ResentPatience(s: Sending, m: int, now: Time, n: int)
    requires SenderOk(s) && m in s.inFlight && s.inFlight[m].retries + 1 <= MAX_RETRIES
    ensures var slot := s.inFlight[m];
      Patience(Resent(s, m, now, slot.retries + 1), n) +
        (if slot.packet.header.sequenceNumber == n then 1 else 0) <= Patience(s, n)
  {
    assert s.inFlight[m].packet == s.sent[m];
  }

  lemma DroppedPatience(s: Sending, m: int, n: int)
    requires SenderOk(s) && m in s.inFlight
    ensures Patience(Dropped(s, m), n) <= Patience(s, n)
  {
  }

  lemma BuriedPatience(s: Sending, m: int, n: int)
    requires m in s.inFlight
    ensures Patience(Buried(s, m), n) <= Patience(s, n)
  {
  }

  lemma {:induction false} SweepPatience(s: Sending, todo: set<int>, now: Time, rtoUs: int, n: int)
    requires SenderOk(s) && todo <= s.inFlight.Keys
    ensures var r := Sweep(s, todo, now, rtoUs);
      Patience(r.s, n) + Count(r.out, n) <= Patience(s, n)
    decreases |todo|, 0
  {
    if todo != {} {
      var m := Least(todo);
      var slot := s.inFlight[m];
      if !TimedOut(slot.lastSent, now, rtoUs) {
        SweepPatience(s, todo - {m}, now, rtoUs, n);
      } else if slot.retries + 1 > MAX_RETRIES {
        BuriedPatience(s, m, n);
      } else if ShouldRetransmit(s, slot, now) {
        SweepResentPatience(s, m, todo - {m}, now, rtoUs, n);
      } else {
        DroppedKeeps(s, m);
        DroppedPatience(s, m, n);
        SweepPatience(Dropped(s, m), todo - {m}, now, rtoUs, n);
      }
    }
  }

  lemma {:induction false} SweepResentPatience(s: Sending, m: int, rest: set<int>, now: Time, rtoUs: int, n: int)
    requires SenderOk(s) && m in s.inFlight && rest <= s.inFlight.Keys && s.inFlight[m].retries + 1 <= MAX_RETRIES
    ensures var slot := s.inFlight[m];
      var r := Sweep(Resent(s, m, now, slot.retries + 1), rest, now, rtoUs);
      Patience(r.s, n) + Count([slot.packet] + r.out, n) <= Patience(s, n)
    decreases |rest|, 1
  {
    var slot := s.inFlight[m];
    var t := Resent(s, m, now, slot.retries + 1);
    ResentKeeps(s, m, now, slot.retries + 1);
    ResentPatience(s, m, now, n);
    SweepPatience(t, rest, now, rtoUs, n);
    CountCons(slot.packet, Sweep(t, rest, now, rtoUs).out, n);
  }

  // ---------------------------------------------------------------- whole runs of a sender

  datatype Event = Incoming(p: Packet, now: Time) | Ticking(now: Time)

  ghost function Handle(e: Endpoint, v: Event): Endpoint {
    match v
    case Incoming(p, now) => OnPacket(e, p, now).e
    case Ticking(now) => OnTick(e, now).e
  }

  /** The retransmissions of `n` the timeout scan of this event causes. */
  ghost function TimeoutsNow(e: Endpoint, v: Event, n: int): nat {
    if v.Ticking? && Open(e) then
      var r := Sweep(Refill(e.snd, v.now), e.snd.inFlight.Keys, v.now, Rto.Current(e.snd.rto));
      if r.dead then 0 else Count(r.out, n)
    else 0
  }

  ghost function Timeouts(e: Endpoint, run: seq<Event>, n: int): nat
    decreases |run|
  {
    if run == [] then 0 else TimeoutsNow(e, run[0], n) + Timeouts(Handle(e, run[0]), run[1..], n)
  }

  // An operation that only launches fresh packets costs no patience.

  lemma EmitPatience(s: Sending, p: Packet, now: Time, n: int)
    requires s.nextSeq == |s.sent|
    ensures Patience(Emit(s, p, now), n) <= Patience(s, n)
  {
  }

  lemma {:induction false} FillDummyPatience(s: Sending, streamId: uint32, now: Time, n: int)
    requires SenderOk(s) && !s.mediaMode
    ensures Patience(FillDummy(s, streamId, now).s, n) <= Patience(s, n)
    decreases s.remaining
  {
    if |s.inFlight| < SEND_WINDOW && s.remaining > 0 {
      var t := s.(remaining := s.remaining - 1);
      EmitPatience(t, DummyPacket(s, streamId, now), now, n);
      SendDummyKeeps(s, streamId, now);
      FillDummyPatience(SendDummy(s, streamId, now), streamId, now, n);
    }
  }

  lemma {:induction false} FillMediaPatience(s: Sending, streamId: uint32, now: Time, n: int)
    requires SenderOk(s) && s.mediaMode
    ensures Patience(FillMedia(s, streamId, now).s, n) <= Patience(s, n)
    decreases |s.source.value.pending| - s.source.value.cursor
  {
    if MayTake(s, now) {
      var a, c := Advance(s), NextChunk(s);
      AdvanceKeeps(s);
      if !Starved(a, c) {
        EmitPatience(Charge(a, c, now), MediaPacket(a, streamId, c), now, n);
        SendChunkKeeps(a, streamId, c, now);
        FillMediaPatience(SendChunk(a, streamId, c, now), streamId, now, n);
      }
    }
  }

  lemma FillWindowPatience(e: Endpoint, now: Time, n: int)
    requires SenderOk(e.snd)
    ensures Patience(FillWindow(e, now).e.snd, n) <= Patience(e.snd, n)
  {
    if e.role == Initiator && e.state == Active {
      var t := Refill(e.snd, now);
      Retuned(e.snd, t);
      if t.mediaMode {
        FillMediaPatience(t, e.streamId, now, n);
      } else {
        FillDummyPatience(t, e.streamId, now, n);
      }
    }
  }

  lemma OnAckPatience(e: Endpoint, p: Packet, now: Time, n: int)
    requires SenderOk(e.snd)
    ensures Patience(OnAck(e, p, now).e.snd, n) <= Patience(e.snd, n)
  {
    var a := e.(snd := Acked(e.snd, p.header.sequenceNumber, now));
    AckedKeeps(e.snd, p.header.sequenceNumber, now);
    FillWindowPatience(a, now, n);
  }

  lemma NudgedPatience(s: Sending, m: int, now: Time, n: int)
    requires SenderOk(s)
    ensures Patience(Nudged(s, m, now).s, n) <= Patience(s, n)
  {
  }

  lemma HandshakePatience(e: Endpoint, p: Packet, now: Time, n: int)
    requires SenderOk(e.snd) && e.role == Initiator
    ensures Patience(OnHandshake(e, p, now).e.snd, n) <= Patience(e.snd, n)
  {
    if IsSynAck(p.header.flags) && e.state == Handshaking {
      FillWindowPatience(e.(streamId := p.header.streamId, state := Active), now, n);
    }
  }

  lemma PacketPatience(e: Endpoint, p: Packet, now: Time, n: int)
    requires SenderOk(e.snd) && e.role == Initiator
    ensures Patience(OnPacket(e, p, now).e.snd, n) <= Patience(e.snd, n)
  {
    match p.header.packetType {
      case Handshake => HandshakePatience(e, p, now, n);
      case Data => DataLeavesSender(e, p, now);
      case Ack => if Open(e) { OnAckPatience(e, p, now, n); }
      case Nack => if Open(e) { NudgedPatience(e.snd, p.header.sequenceNumber, now, n); }
      case _ =>
    }
  }

  lemma OpenTickPatience(e: Endpoint, now: Time, n: int)
    requires SenderOk(e.snd)
    ensures var r := Sweep(e.snd, e.snd.inFlight.Keys, now, Rto.Current(e.snd.rto));
      Patience(OpenTick(e, now).e.snd, n) + Count(r.out, n) <= Patience(e.snd, n)
  {
    var r := Sweep(e.snd, e.snd.inFlight.Keys, now, Rto.Current(e.snd.rto));
    SweepPatience(e.snd, e.snd.inFlight.Keys, now, Rto.Current(e.snd.rto), n);
    SweepKeeps(e.snd, e.snd.inFlight.Keys, now, Rto.Current(e.snd.rto));
    if !r.dead { FillWindowPatience(e.(snd := r.s), now, n); }
  }

  lemma HandshakeTickLeaves(e: Endpoint, now: Time)
    ensures HandshakeTick(e, now).e.snd == e.snd
  {
  }

  lemma TickPatience(e: Endpoint, now: Time, n: int)
    requires SenderOk(e.snd)
    ensures Patience(OnTick(e, now).e.snd, n) + TimeoutsNow(e, Ticking(now), n) <= Patience(e.snd, n)
  {
    var t := e.(snd := Refill(e.snd, now));
    Retuned(e.snd, t.snd);
    if t.state == Handshaking {
      HandshakeTickLeaves(t, now);
    } else if Open(t) {
      OpenTickPatience(t, now, n);
    }
  }

  lemma DataLeavesSender(e: Endpoint, p: Packet, now: Time)
    requires IsData(p)
    ensures OnPacket(e, p, now).e.snd == e.snd && OnPacket(e, p, now).e.role == e.role
  {
  }

  lemma HandleKeeps(e: Endpoint, v: Event)
    requires SenderOk(e.snd) && e.role == Initiator
    ensures SenderOk(Handle(e, v).snd) && Handle(e, v).role == Initiator
  {
    match v {
      case Incoming(p, now) => PacketKeeps(e, p, now);
      case Ticking(now) => OnTickKeeps(e, now); TickRole(e, now);
    }
  }

  lemma PacketKeeps(e: Endpoint, p: Packet, now: Time)
    requires SenderOk(e.snd) && e.role == Initiator
    ensures SenderOk(OnPacket(e, p, now).e.snd) && OnPacket(e, p, now).e.role == Initiator
  {
    if IsData(p) {
      DataLeavesSender(e, p, now);
    } else {
      InitiatorKeeps(e, p, now);
      InitiatorRole(e, p, now);
    }
  }

  /** In any run of an initiator, whatever arrives and whenever the timer ticks, a packet is
      retransmitted on timeout at most twenty times. */
  lemma {:induction false} TimeoutLimit(e: Endpoint, run: seq<Event>, n: int)
    requires SenderOk(e.snd) && e.role == Initiator
    ensures Timeouts(e, run, n) <= Patience(e.snd, n) <= MAX_RETRIES
    decreases |run|
  {
    if run != [] {
      match run[0] {
        case Incoming(p, now) => PacketPatience(e, p, now, n);
        case Ticking(now) => TickPatience(e, now, n);
      }
      HandleKeeps(e, run[0]);
      TimeoutLimit(Handle(e, run[0]), run[1..], n);
    }
  }
}
