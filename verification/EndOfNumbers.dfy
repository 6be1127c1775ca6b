/** Dummy exchanges in step: how far the 32-bit numbers let them get. A transfer can always be
    completed exactly when its last window does not wrap. */
module EndOfNumbers {
  import opened Wire
  import opened Clock
  import opened PacketCodec
  import opened SessionSpec
  import opened Sender
  import opened Receiver
  import opened Network
  import opened Reliability
  import opened Window
  import opened Termination
  import opened Completion
  import opened Opening
  import opened Lockstep
  import LossyStart

  /** A dummy exchange in step, its window full as long as there is something left. */
  ghost predicate Dummies(w: World, k: int) { Aligned(w, k) && !w.init.snd.mediaMode && Full(w.init.snd) }

  // ---------------------------------------------------------------- one number

  /** The packet the listener waits for is in flight. */
  lemma NextInFlight(w: World, k: int)
    requires Dummies(w, k) && k < PlanSize(w.init.snd)
    ensures k < |w.init.snd.sent| && k in w.init.snd.inFlight
  {
    AlignedSettles(w, k);
    if k == |w.init.snd.sent| { Nothing(w.init.snd, k); }
  }

  /** The dummy loop sends new packets only. */
  lemma {:induction false} FillDummyNew(s: Sending, streamId: uint32, now: Time)
    requires SenderOk(s) && !s.mediaMode
    ensures var r := FillDummy(s, streamId, now);
      r.s.sent == s.sent + r.out && forall n :: n in r.s.inFlight ==> n in s.inFlight || n >= |s.sent|
    decreases s.remaining
  {
    if |s.inFlight| < SEND_WINDOW && s.remaining > 0 {
      var t := SendDummy(s, streamId, now);
      SendDummyKeeps(s, streamId, now);
      FillDummyNew(t, streamId, now);
      Assoc(s.sent, [DummyPacket(s, streamId, now)], FillDummy(t, streamId, now).out);
    }
  }

  lemma FillWindowNew(e: Endpoint, now: Time)
    requires SenderOk(e.snd) && !e.snd.mediaMode && e.role == Initiator && e.state == Active
    ensures var r := FillWindow(e, now);
      r.e.snd.sent == e.snd.sent + r.out && Full(r.e.snd) &&
      forall n :: n in r.e.snd.inFlight ==> n in e.snd.inFlight || n >= |e.snd.sent|
  {
    var t := Refill(e.snd, now);
    Retuned(e.snd, t);
    FillDummyNew(t, e.streamId, now);
    FillDummyLaunches(t, e.streamId, now);
  }

  /** There is something left to settle: more packets are planned than acknowledged. */
  lemma NotYetDrained(s: Sending, t: Sending, k: int, now: Time)
    requires SenderOk(s) && !s.mediaMode && k in s.inFlight && t == Acked(s, k, now) && k + 1 < PlanSize(s)
    requires Settles(s, k)
    ensures !Drained(t)
  {
    if k + 1 < |s.sent| { assert k + 1 in t.inFlight; }
  }

  /** The acknowledgement of the oldest packet lets new ones follow. */
  lemma AckAdvances(e: Endpoint, p: Packet, k: int, now: Time)
    requires SenderOk(e.snd) && !e.snd.mediaMode && e.role == Initiator && e.state == Active && !e.finSent && !e.failed
    requires k in e.snd.inFlight && (forall n :: n in e.snd.inFlight ==> n >= k) && k + 1 < PlanSize(e.snd)
    requires Settles(e.snd, k) && p.header.packetType == Ack && p.header.sequenceNumber == k
    ensures var r := OnPacket(e, p, now); InStep(e, r, k) && Full(r.e.snd)
  {
    var a := e.(snd := Acked(e.snd, k, now));
    AckedLeaves(e.snd, k, now);
    NotYetDrained(e.snd, a.snd, k, now);
    FillWindowNew(a, now);
    FillWindowStatus(a, now);
    FillWindowKeeps(a, now);
    AckFills(e, p, a, now);
  }

  predicate AllDeliver(run: seq<Step>) { forall k :: 0 <= k < |run| ==> Delivers(run[k]) }

  /** One run of deliveries after another. */
  lemma Follow(w: World, first: seq<Step>, v: World, rest: seq<Step>, u: World) returns (run: seq<Step>)
    requires Leads(w, first, v) && AllDeliver(first) && Leads(v, rest, u) && AllDeliver(rest)
    ensures Leads(w, run, u) && AllDeliver(run)
  {
    LeadsOn(w, first, v, rest, u);
    run := first + rest;
  }

  /** The world stays in step through packet `k` and its answer. */
  lemma ExchangedDummies(w: World, k: int, l: Reply, r: Reply, now: Time)
    requires Dummies(w, k) && k < |w.init.snd.sent| && InStep(w.init, r, k) && Full(r.e.snd)
    requires Inv(Exchanged(w, k, l, r, now)) && Onward(w, Exchanged(w, k, l, r, now))
    requires l.e.state == Active && l.e.rcv.reorder == map[] && l.e.rcv.nextExpected == k + 1
    ensures Dummies(Exchanged(w, k, l, r, now), k + 1)
    ensures PlanSize(Exchanged(w, k, l, r, now).init.snd) == PlanSize(w.init.snd)
  {
    ExchangeAligns(w, k, l, r, now);
  }

  /** Packet `k` and its answer are delivered, and new packets follow. */
  lemma DummyExchange(w: World, k: int) returns (l: Reply, r: Reply)
    requires Dummies(w, k) && k + 1 < PlanSize(w.init.snd) && k + SEND_WINDOW < TWO_32
    ensures k < |w.init.snd.sent| && InStep(w.init, r, k) && Full(r.e.snd)
    ensures var u := Exchanged(w, k, l, r, w.clock); Leads(w, OneExchange(w, w.clock), u) && Inv(u) && Onward(w, u)
    ensures l.e.state == Active && l.e.rcv.reorder == map[] && l.e.rcv.nextExpected == k + 1
  {
    NextInFlight(w, k);
    AlignedSettles(w, k);
    AckAdvances(w.init, Normalise(AckPacket(w.lstn.streamId, k)), k, w.clock);
    l, r := Exchange(w, k, w.clock);
  }

  lemma ExchangeDelivers(w: World, now: Time)
    ensures AllDeliver(OneExchange(w, now))
  {
  }

  /** Two deliveries take the exchange one number on. */
  lemma OneNumber(w: World, k: int) returns (u: World, two: seq<Step>)
    requires Dummies(w, k) && k + 1 < PlanSize(w.init.snd) && k + SEND_WINDOW < TWO_32
    ensures Leads(w, two, u) && AllDeliver(two) && Dummies(u, k + 1) && PlanSize(u.init.snd) == PlanSize(w.init.snd)
  {
    var l, r := DummyExchange(w, k);
    ExchangedDummies(w, k, l, r, w.clock);
    u := Exchanged(w, k, l, r, w.clock);
    two := OneExchange(w, w.clock);
    ExchangeDelivers(w, w.clock);
  }

  /** From number `k` on to number `n`. */
  lemma {:induction false} March(w: World, k: int, n: int) returns (u: World, run: seq<Step>)
    requires Dummies(w, k) && k <= n < PlanSize(w.init.snd) && n + SEND_WINDOW <= TWO_32
    ensures Leads(w, run, u) && AllDeliver(run) && Dummies(u, n) && PlanSize(u.init.snd) == PlanSize(w.init.snd)
    decreases n - k
  {
    if k == n {
      LeadsNowhere(w);
      u, run := w, [];
    } else {
      var v, two := OneNumber(w, k);
      u, run := March(v, k + 1, n);
      run := Follow(w, two, v, run, u);
    }
  }

  // ---------------------------------------------------------------- from the start

  lemma SynAckFills(e: Endpoint, now: Time)
    requires Unstarted(e) && !e.snd.mediaMode && e.state == Handshaking && !e.finSent
    ensures var r := OnSynAck(e, LISTENER_STREAM, now);
      r.out == [HandshakePacket(LISTENER_STREAM, FLAG_ACK)] + r.e.snd.sent && r.e.state == Active && !r.e.finSent &&
      Full(r.e.snd) && !r.e.snd.mediaMode && PlanSize(r.e.snd) == PlanSize(e.snd)
  {
    var a := e.(streamId := LISTENER_STREAM, state := Active);
    FillWindowNew(a, now);
    FillWindowStatus(a, now);
    FillWindowKeeps(a, now);
    assert [] + FillWindow(a, now).out == FillWindow(a, now).out;
  }

  lemma OpenedInStep(e: Endpoint, hasSink: bool, now: Time) returns (u: World, run: seq<Step>)
    requires Unstarted(e) && !e.snd.mediaMode && e.state == Handshaking && !e.finSent && !e.failed
    ensures Leads(Opened(e, hasSink, now), run, u) && AllDeliver(run) && Dummies(u, 0)
    ensures PlanSize(u.init.snd) == PlanSize(e.snd)
  {
    var w := Opened(e, hasSink, now);
    SynAckFills(e.(lastHandshake := now), now);
    BeginningInv(e, hasSink);
    Opens(e, hasSink, now);
    RunKeeps(Beginning(e, hasSink), OpeningRun(now));
    IsLastHello(LISTENER_STREAM);
    LastHelloAligns(w, HandshakePacket(LISTENER_STREAM, FLAG_ACK));
    u := World(w.init, w.lstn.(state := Active), Wires(w.init.snd.sent), [], w.clock);
    run := [DeliverL(0, w.clock)];
  }

  /** In step up to number `n`, once the handshake is done. */
  lemma MarchFrom(w: World, first: seq<Step>, o: World, second: seq<Step>, v: World, n: int)
    returns (u: World, run: seq<Step>)
    requires Leads(w, first, o) && AllDeliver(first) && Leads(o, second, v) && AllDeliver(second)
    requires Dummies(v, 0) && 0 <= n < PlanSize(v.init.snd) && n + SEND_WINDOW <= TWO_32
    ensures Leads(w, run, u) && AllDeliver(run) && Dummies(u, n) && PlanSize(u.init.snd) == PlanSize(v.init.snd)
  {
    u, run := March(v, 0, n);
    run := Follow(o, second, v, run, u);
    run := Follow(w, first, o, run, u);
  }

  lemma HandshakeInStep(count: uint32, size: uint16, hasSink: bool, now: Time)
    returns (o: World, v: World, run: seq<Step>)
    ensures Leads(Started(count, size, hasSink, now), Greetings(now), o)
    ensures Leads(o, run, v) && AllDeliver(run) && Dummies(v, 0) && PlanSize(v.init.snd) == count
  {
    var e := WithDummy(FreshEndpoint(Initiator), count, size);
    DummyUnstarted(count, size);
    GreetingsLead(e, hasSink, now);
    o := Opened(e, hasSink, now);
    v, run := OpenedInStep(e, hasSink, now);
  }

  /** A started transfer, delivered in order up to number `n`. */
  lemma Reaches(count: uint32, size: uint16, hasSink: bool, now: Time, n: int) returns (u: World, run: seq<Step>)
    requires 0 <= n < count && n + SEND_WINDOW <= TWO_32
    ensures Leads(Started(count, size, hasSink, now), run, u) && AllDeliver(run) && Dummies(u, n)
    ensures PlanSize(u.init.snd) == count
  {
    var o, v, more := HandshakeInStep(count, size, hasSink, now);
    u, run := MarchFrom(Started(count, size, hasSink, now), Greetings(now), o, more, v, n);
  }

  // ---------------------------------------------------------------- where the window wraps

  const LAST_WINDOW := TWO_32 - SEND_WINDOW

  lemma NeverComplete(w: World, run: seq<Step>)
    requires Inv(w) && !w.init.snd.mediaMode && w.lstn.rcv.nextExpected < PlanSize(w.init.snd)
    requires w.lstn.rcv.nextExpected + SEND_WINDOW >= TWO_32 && Legal(w, run)
    ensures !IsComplete(After(w, run).init)
  {
    StalledForEver(w, run);
    RunKeeps(w, run);
    if IsComplete(After(w, run).init) { DrainedIsDelivered(After(w, run)); }
  }

  /** Some run completes the transfer. */
  ghost predicate CanFinish(w: World) { exists more :: Legal(w, more) && IsComplete(After(w, more).init) }

  lemma DryFinishes(count: uint32, size: uint16, hasSink: bool, now: Time, run: seq<Step>)
    requires count + SEND_WINDOW <= TWO_32 && Legal(Started(count, size, hasSink, now), run) && AllDeliver(run)
    ensures CanFinish(After(Started(count, size, hasSink, now), run))
  {
    var w := After(Started(count, size, hasSink, now), run);
    StartedUnderway(count, size, hasSink, now);
    RunGoesOn(Started(count, size, hasSink, now), run);
    var more := LossyStart.DeliverAll(w);
    QuietIsComplete(After(w, more));
  }

  lemma WrappedNeverFinishes(u: World)
    requires Dummies(u, LAST_WINDOW) && LAST_WINDOW < PlanSize(u.init.snd)
    ensures !CanFinish(u)
  {
    forall more | Legal(u, more) ensures !IsComplete(After(u, more).init) {
      NeverComplete(u, more);
    }
  }

  /** Every loss-free run of deliveries of a transfer leaves it completable, exactly when the window
      above its last packet does not wrap. */
  lemma CompletableIff(count: uint32, size: uint16, hasSink: bool, now: Time)
    ensures (forall run :: Legal(Started(count, size, hasSink, now), run) && AllDeliver(run) ==>
               CanFinish(After(Started(count, size, hasSink, now), run))) <==>
            count + SEND_WINDOW <= TWO_32
  {
    if count + SEND_WINDOW <= TWO_32 {
      forall run | Legal(Started(count, size, hasSink, now), run) && AllDeliver(run)
        ensures CanFinish(After(Started(count, size, hasSink, now), run))
      {
        DryFinishes(count, size, hasSink, now, run);
      }
    } else {
      var u, run := Reaches(count, size, hasSink, now, LAST_WINDOW);
      LeadsTo(Started(count, size, hasSink, now), run, u);
      WrappedNeverFinishes(u);
    }
  }

  // ---------------------------------------------------------------- the storm

  /** All but the first datagram are lost. */
  lemma {:induction false} KeepsFirst(w: World) returns (run: seq<Step>)
    requires |w.toL| > 0
    ensures Leads(w, run, w.(toL := [w.toL[0]]))
    decreases |w.toL|
  {
    if |w.toL| == 1 {
      assert w.(toL := [w.toL[0]]) == w;
      LeadsNowhere(w);
      run := [];
    } else {
      var v := w.(toL := Without(w.toL, 1));
      run := KeepsFirst(v);
      LeadsStep(w, DropL(1));
      LeadsOn(w, [DropL(1)], v, run, w.(toL := [w.toL[0]]));
      run := [DropL(1)] + run;
    }
  }

  /** In step at the last window, with everything but one packet lost, the world is at the end. */
  lemma StuckThere(w: World, v: World)
    requires Dummies(w, LAST_WINDOW) && LAST_WINDOW < |w.init.snd.sent| && LAST_WINDOW in w.init.snd.inFlight
    requires |w.toL| > 0 && v == w.(toL := [w.toL[0]])
    ensures AtTheEnd(v, LAST_WINDOW, w.init.snd.sent[LAST_WINDOW])
  {
    WiresHead(w.init.snd.sent, LAST_WINDOW);
    assert w.init.snd.inFlight[LAST_WINDOW].packet == w.init.snd.sent[LAST_WINDOW];
  }

  lemma Halt(w: World) returns (u: World, run: seq<Step>, p: Packet)
    requires Dummies(w, LAST_WINDOW) && LAST_WINDOW < PlanSize(w.init.snd)
    ensures Leads(w, run, u) && AtTheEnd(u, LAST_WINDOW, p)
  {
    NextInFlight(w, LAST_WINDOW);
    WiresHead(w.init.snd.sent, LAST_WINDOW);
    p := w.init.snd.sent[LAST_WINDOW];
    run := KeepsFirst(w);
    u := w.(toL := [w.toL[0]]);
    StuckThere(w, u);
  }

  /** Every transfer whose last window wraps can get to the end of the numbers: there the listener
      turns the last packets away for ever, and data and negative acknowledgement chase each other. */
  lemma EndIsReached(count: uint32, size: uint16, hasSink: bool, now: Time) returns (run: seq<Step>, p: Packet)
    requires count + SEND_WINDOW > TWO_32
    ensures Legal(Started(count, size, hasSink, now), run)
    ensures AtTheEnd(After(Started(count, size, hasSink, now), run), LAST_WINDOW, p)
  {
    var w := Started(count, size, hasSink, now);
    var v, u, last;
    v, run := Reaches(count, size, hasSink, now, LAST_WINDOW);
    u, last, p := Halt(v);
    LeadsOn(w, run, v, last, u);
    LeadsTo(w, run + last, u);
    run := run + last;
  }
}
