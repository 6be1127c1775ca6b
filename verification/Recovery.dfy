/** Recovery: whatever the network lost, one timeout puts every missing packet on its way again,
    and from there a loss-free network completes the transfer. */
module Recovery {
  import opened Wire
  import opened Clock
  import opened PacketCodec
  import opened SessionSpec
  import opened Sender
  import opened Receiver
  import opened Network
  import opened Reliability
  import opened Termination
  import opened Completion
  import Rto

  // ---------------------------------------------------------------- one timeout

  /** Every slot has timed out and may be retransmitted once more. */
  ghost predicate Overdue(s: Sending, todo: set<int>, now: Time, rtoUs: int) {
    forall n :: n in todo && n in s.inFlight ==>
      TimedOut(s.inFlight[n].lastSent, now, rtoUs) && s.inFlight[n].retries < MAX_RETRIES
  }

  lemma CarryingMore(a: seq<Packet>, b: seq<Packet>, n: int)
    requires Carrying(b, n)
    ensures Carrying(a + b, n)
  {
    var k :| 0 <= k < |b| && IsData(b[k]) && Fits(b[k]) && b[k].header.sequenceNumber == n;
    assert (a + b)[|a| + k] == b[k];
  }

  lemma CarryingStays(a: seq<Packet>, b: seq<Packet>, n: int)
    requires Carrying(a, n)
    ensures Carrying(a + b, n)
  {
    var k :| 0 <= k < |a| && IsData(a[k]) && Fits(a[k]) && a[k].header.sequenceNumber == n;
    assert (a + b)[k] == a[k];
  }

  /** Every slot holds a data packet of its number. */
  ghost predicate Ready(s: Sending) {
    forall n :: n in s.inFlight ==>
      IsData(s.inFlight[n].packet) && Fits(s.inFlight[n].packet) && s.inFlight[n].packet.header.sequenceNumber == n
  }

  lemma SenderIsReady(s: Sending)
    requires SenderOk(s)
    ensures Ready(s)
  {
    forall n | n in s.inFlight
      ensures IsData(s.inFlight[n].packet) && Fits(s.inFlight[n].packet) && s.inFlight[n].packet.header.sequenceNumber == n
    {
      assert s.inFlight[n].packet == s.sent[n];
    }
  }

  lemma ResentOverdue(s: Sending, m: int, todo: set<int>, now: Time, rtoUs: int)
    requires Ready(s) && m in todo && todo <= s.inFlight.Keys && Overdue(s, todo, now, rtoUs)
    ensures var t := Resent(s, m, now, s.inFlight[m].retries + 1);
      Ready(t) && t.mediaMode == s.mediaMode && t.inFlight.Keys == s.inFlight.Keys && t.remaining == s.remaining && Overdue(t, todo - {m}, now, rtoUs)
  {
  }

  ghost predicate AllCarried(out: seq<Packet>, todo: set<int>) { forall n :: n in todo ==> Carrying(out, n) }

  lemma AllCarriedCons(p: Packet, out: seq<Packet>, todo: set<int>, m: int)
    requires IsData(p) && Fits(p) && p.header.sequenceNumber == m && AllCarried(out, todo - {m})
    ensures AllCarried([p] + out, todo)
  {
    CarryingFirst(p, out);
    forall n | n in todo ensures Carrying([p] + out, n) {
      if n != m {
        assert n in todo - {m};
        CarryingCons(p, out, n);
      }
    }
  }

  /** The scan changes nothing but when and how often the slots were sent. */
  ghost predicate Revived(s: Sending, r: Swept, todo: set<int>) {
    !r.dead && r.s.inFlight.Keys == s.inFlight.Keys && r.s.remaining == s.remaining && AllCarried(r.out, todo)
  }

  /** The scan's first step over overdue slots. */
  lemma SweepHead(s: Sending, todo: set<int>, now: Time, rtoUs: int, m: int)
    requires !s.mediaMode && todo != {} && todo <= s.inFlight.Keys && Overdue(s, todo, now, rtoUs) && m == Least(todo)
    ensures var r := Sweep(Resent(s, m, now, s.inFlight[m].retries + 1), todo - {m}, now, rtoUs);
      Sweep(s, todo, now, rtoUs) == Swept(r.s, [s.inFlight[m].packet] + r.out, r.dead)
  {
  }

  /** The scan sends every overdue packet again. */
  lemma {:induction false} SweepResends(s: Sending, todo: set<int>, now: Time, rtoUs: int)
    requires Ready(s) && !s.mediaMode && todo <= s.inFlight.Keys && Overdue(s, todo, now, rtoUs)
    ensures Revived(s, Sweep(s, todo, now, rtoUs), todo)
    decreases |todo|
  {
    if todo != {} {
      var m := Least(todo);
      var slot := s.inFlight[m];
      var t := Resent(s, m, now, slot.retries + 1);
      ResentOverdue(s, m, todo, now, rtoUs);
      SweepResends(t, todo - {m}, now, rtoUs);
      SweepHead(s, todo, now, rtoUs, m);
      AllCarriedCons(slot.packet, Sweep(t, todo - {m}, now, rtoUs).out, todo, m);
    }
  }

  /** What the scan sends is data. */
  lemma {:induction false} SweepPolite(s: Sending, todo: set<int>, now: Time, rtoUs: int, finSent: bool)
    requires Ready(s) && todo <= s.inFlight.Keys
    ensures PoliteL(Sweep(s, todo, now, rtoUs).out, finSent)
    decreases |todo|
  {
    if todo != {} {
      var m := Least(todo);
      var slot := s.inFlight[m];
      if !TimedOut(slot.lastSent, now, rtoUs) {
        SweepPolite(s, todo - {m}, now, rtoUs, finSent);
      } else if slot.retries + 1 <= MAX_RETRIES {
        if ShouldRetransmit(s, slot, now) {
          var t := Resent(s, m, now, slot.retries + 1);
          SweepPolite(t, todo - {m}, now, rtoUs, finSent);
          PoliteJoin([slot.packet], Sweep(t, todo - {m}, now, rtoUs).out, finSent);
        } else {
          SweepPolite(Dropped(s, m), todo - {m}, now, rtoUs, finSent);
        }
      }
    }
  }

  lemma PoliteJoin(a: seq<Packet>, b: seq<Packet>, finSent: bool)
    requires PoliteL(a, finSent) && PoliteL(b, finSent)
    ensures PoliteL(a + b, finSent)
  {
  }

  /** One timeout tick of an endpoint past its handshake: everything in flight is sent. */
  lemma OpenTickResends(e: Endpoint, now: Time)
    requires SenderOk(e.snd) && !e.snd.mediaMode && e.role == Initiator && Sends(e) && Open(e)
    requires Overdue(e.snd, e.snd.inFlight.Keys, now, Rto.Current(e.snd.rto))
    ensures var r := OpenTick(e, now);
      Sends(r.e) && r.e.finSent == e.finSent && PoliteL(r.out, e.finSent) &&
      AllCarried(r.out, r.e.snd.inFlight.Keys)
  {
    var rto := Rto.Current(e.snd.rto);
    var s := Sweep(e.snd, e.snd.inFlight.Keys, now, rto);
    SenderIsReady(e.snd);
    SweepResends(e.snd, e.snd.inFlight.Keys, now, rto);
    SweepKeeps(e.snd, e.snd.inFlight.Keys, now, rto);
    SweepPolite(e.snd, e.snd.inFlight.Keys, now, rto, e.finSent);
    var f := e.(snd := s.s);
    var r := FillWindow(f, now);
    FillWindowLaunches(f, now);
    FillWindowPolite(f, now, e.finSent);
    FillWindowStatus(f, now);
    PoliteJoin(s.out, r.out, e.finSent);
    AllLaunched(s.s, r.e.snd, s.out, r.out);
  }

  lemma AllLaunched(s: Sending, t: Sending, a: seq<Packet>, b: seq<Packet>)
    requires AllCarried(a, s.inFlight.Keys) && Launches(s, t, b, -1)
    ensures AllCarried(a + b, t.inFlight.Keys)
  {
    forall n | n in t.inFlight.Keys ensures Carrying(a + b, n) {
      assert n in t.inFlight;
      if Carrying(b, n) {
        CarryingMore(a, b, n);
      } else {
        assert n in s.inFlight.Keys;
        CarryingStays(a, b, n);
      }
    }
  }

  // ---------------------------------------------------------------- what loss leaves standing

  /** A step of a lossy network or of a timer; the endpoints are neither started nor closed
      from outside. */
  predicate Lossy(s: Step) { !s.StartUp? && !s.CloseI? && !s.CloseL? }

  /** Neither side has given up. */
  predicate Alive(w: World) { !w.init.failed && w.lstn.state != Closed }

  lemma DeliverISteady(w: World, i: nat, now: Time)
    requires Steady(w) && Enabled(w, DeliverI(i, now))
    ensures Steady(Next(w, DeliverI(i, now)))
  {
    var r := OnDatagram(w.init, w.toI[i], now);
    DatagramReacts(w, i, now);
    DeliverIIs(w, i, now, r);
    ModestKeeps(w, DeliverI(i, now));
    InitiatorLetters(w, i, r);
  }

  lemma DeliverLSteady(w: World, i: nat, now: Time)
    requires Steady(w) && Enabled(w, DeliverL(i, now))
    ensures Steady(Next(w, DeliverL(i, now)))
  {
    var r := OnDatagram(w.lstn, w.toL[i], now);
    SteadyEpoch(w, i, now);
    DeliverLIs(w, i, now, r);
    ModestKeeps(w, DeliverL(i, now));
    ListenerLetters(w, i, now);
  }

  /** What the network does to one datagram makes no other letter. */
  lemma StaysLetterL(net: seq<Datagram>, i: nat, d: Datagram, finSent: bool)
    requires i < |net| && LettersToL(net, finSent)
    ensures LettersToL(Without(net, i), finSent) && LettersToL(net + [net[i]], finSent)
    ensures Damaged(net[i], d) ==> LettersToL(net[i := d], finSent)
  {
    LettersL(net, i, finSent);
    assert LetterL(net[i], finSent);
    if Damaged(net[i], d) { DamageUnreadable(net[i], d); }
  }

  lemma StaysLetterI(net: seq<Datagram>, i: nat, d: Datagram, finSent: bool)
    requires i < |net| && LettersToI(net, finSent)
    ensures LettersToI(Without(net, i), finSent) && LettersToI(net + [net[i]], finSent)
    ensures Damaged(net[i], d) ==> LettersToI(net[i := d], finSent)
  {
    LettersI(net, i, finSent);
    assert LetterI(net[i], finSent);
    if Damaged(net[i], d) { DamageUnreadable(net[i], d); }
  }

  lemma ChannelLSteady(w: World, s: Step)
    requires Steady(w) && Enabled(w, s) && SameEpoch(w, s) && (s.DropL? || s.DuplicateL? || s.DamageL?)
    ensures Steady(Next(w, s))
  {
    ModestKeeps(w, s);
    StaysLetterL(w.toL, s.i, if s.DamageL? then s.d else [], w.init.finSent);
  }

  lemma ChannelISteady(w: World, s: Step)
    requires Steady(w) && Enabled(w, s) && SameEpoch(w, s) && (s.DropI? || s.DuplicateI? || s.DamageI?)
    ensures Steady(Next(w, s))
  {
    ModestKeeps(w, s);
    StaysLetterI(w.toI, s.i, if s.DamageI? then s.d else [], w.init.finSent);
  }

  /** A tick of the listener sends at most a greeting. */
  lemma ListenerTickPolite(e: Endpoint, now: Time, finSent: bool)
    requires e.role == Listener && e.snd.inFlight == map[]
    ensures PoliteI(OnTick(e, now).out, finSent)
  {
    var t := e.(snd := Refill(e.snd, now));
    assert t.snd.inFlight.Keys == {};
  }

  lemma TickLExchanges(w: World, now: Time)
    requires Exchanging(w) && Enabled(w, TickL(now)) && Next(w, TickL(now)).lstn.state != Closed
    ensures Exchanging(Next(w, TickL(now)))
  {
    var r := OnTick(w.lstn, now);
    ModestKeeps(w, TickL(now));
    ListenerTickPolite(w.lstn, now, w.init.finSent);
    WiresPoliteI(r.out, w.init.finSent);
  }

  /** The scan puts nothing new in flight. */
  lemma {:induction false} SweepHolds(s: Sending, todo: set<int>, now: Time, rtoUs: int)
    requires todo <= s.inFlight.Keys
    ensures var t := Sweep(s, todo, now, rtoUs).s;
      t.inFlight.Keys <= s.inFlight.Keys && t.mediaMode == s.mediaMode && t.source == s.source && t.remaining == s.remaining
    decreases |todo|
  {
    if todo != {} {
      var m := Least(todo);
      var slot := s.inFlight[m];
      if !TimedOut(slot.lastSent, now, rtoUs) {
        SweepHolds(s, todo - {m}, now, rtoUs);
      } else if slot.retries + 1 > MAX_RETRIES {
        assert Buried(s, m).inFlight.Keys == s.inFlight.Keys;
      } else if ShouldRetransmit(s, slot, now) {
        var t := Resent(s, m, now, slot.retries + 1);
        assert t.inFlight.Keys == s.inFlight.Keys;
        SweepHolds(t, todo - {m}, now, rtoUs);
      } else {
        SweepHolds(Dropped(s, m), todo - {m}, now, rtoUs);
      }
    }
  }

  lemma HeldLaunches(s: Sending, f: Sending, t: Sending, a: seq<Packet>, b: seq<Packet>)
    requires f.inFlight.Keys <= s.inFlight.Keys && Launches(f, t, b, -1) && forall n :: n in s.inFlight ==> n >= 0
    ensures Launches(s, t, a + b, -1)
  {
    forall n | n in t.inFlight ensures (n in s.inFlight && n != -1) || Carrying(a + b, n) {
      if Carrying(b, n) {
        CarryingMore(a, b, n);
      } else {
        assert n in f.inFlight.Keys;
      }
    }
  }

  /** In both modes, a tick after which the initiator lives on. */
  lemma OpenTickReacts(e: Endpoint, now: Time)
    requires SenderOk(e.snd) && e.role == Initiator && Sends(e) && Open(e) && !OpenTick(e, now).e.failed
    ensures Reacts(e, OpenTick(e, now), -1) && OpenTick(e, now).e.finSent == e.finSent
  {
    var rto := Rto.Current(e.snd.rto);
    var s := Sweep(e.snd, e.snd.inFlight.Keys, now, rto);
    var f := e.(snd := s.s);
    var r := FillWindow(f, now);
    SenderIsReady(e.snd);
    SweepHolds(e.snd, e.snd.inFlight.Keys, now, rto);
    SweepKeeps(e.snd, e.snd.inFlight.Keys, now, rto);
    SweepPolite(e.snd, e.snd.inFlight.Keys, now, rto, e.finSent);
    FillWindowLaunches(f, now);
    FillWindowPolite(f, now, e.finSent);
    FillWindowStatus(f, now);
    PoliteJoin(s.out, r.out, e.finSent);
    HeldLaunches(e.snd, f.snd, r.e.snd, s.out, r.out);
  }

  lemma TickReacts(e: Endpoint, now: Time)
    requires SenderOk(e.snd) && e.role == Initiator && Sends(e) && !OnTick(e, now).e.failed
    ensures Reacts(e, OnTick(e, now), -1) && OnTick(e, now).e.finSent == e.finSent
  {
    var t := e.(snd := Refill(e.snd, now));
    Retuned(e.snd, t.snd);
    if Open(t) { OpenTickReacts(t, now); }
  }

  lemma TickISteady(w: World, now: Time)
    requires Steady(w) && Enabled(w, TickI(now)) && !Next(w, TickI(now)).init.failed
    ensures Steady(Next(w, TickI(now)))
  {
    ModestKeeps(w, TickI(now));
    TickReacts(w.init, now);
    RepliedSteady(w, OnTick(w.init, now), now);
  }

  /** Loss, duplication, damage and timeouts leave the exchange steady as long as neither side
      gives up. */
  lemma LossySteady(w: World, s: Step)
    requires Steady(w) && Enabled(w, s) && SameEpoch(w, s) && Lossy(s) && Alive(Next(w, s))
    ensures Steady(Next(w, s))
  {
    match s {
      case DeliverL(i, now) => DeliverLSteady(w, i, now);
      case DeliverI(i, now) => DeliverISteady(w, i, now);
      case TickL(now) => TickLExchanges(w, now);
      case TickI(now) => TickISteady(w, now);
      case _ => if s.DropL? || s.DuplicateL? || s.DamageL? { ChannelLSteady(w, s); } else { ChannelISteady(w, s); }
    }
  }

  /** Every step of the run is lossy at worst, and nobody gives up. */
  ghost predicate Survives(w: World, run: seq<Step>)
    requires Legal(w, run)
    decreases |run|
  {
    run == [] || (Lossy(run[0]) && Alive(Next(w, run[0])) && Survives(Next(w, run[0]), run[1..]))
  }

  lemma {:induction false} RunSteady(w: World, run: seq<Step>)
    requires Steady(w) && Legal(w, run) && Survives(w, run)
    ensures Steady(After(w, run))
    decreases |run|
  {
    if run != [] {
      LossySteady(w, run[0]);
      RunSteady(Next(w, run[0]), run[1..]);
    }
  }

  // ---------------------------------------------------------------- recovery

  lemma TickResends(e: Endpoint, now: Time)
    requires SenderOk(e.snd) && !e.snd.mediaMode && e.role == Initiator && Sends(e) && Open(e)
    requires Overdue(e.snd, e.snd.inFlight.Keys, now, Rto.Current(e.snd.rto))
    ensures var r := OnTick(e, now);
      Sends(r.e) && r.e.finSent == e.finSent && PoliteL(r.out, e.finSent) && AllCarried(r.out, r.e.snd.inFlight.Keys)
  {
    var t := e.(snd := Refill(e.snd, now));
    Retuned(e.snd, t.snd);
    OpenTickResends(t, now);
  }

  lemma RepliedSteady(w: World, r: Reply, now: Time)
    requires Steady(w) && Plain(FromI(w, r, now)) && Sends(r.e) && r.e.finSent == w.init.finSent
    requires PoliteL(r.out, w.init.finSent)
    ensures Steady(FromI(w, r, now))
  {
    WiresPoliteL(r.out, w.init.finSent);
  }

  lemma ResendingFlows(w: World, r: Reply, now: Time)
    requires Steady(w) && Plain(FromI(w, r, now)) && Sends(r.e) && r.e.finSent == w.init.finSent
    requires PoliteL(r.out, w.init.finSent) && AllCarried(r.out, r.e.snd.inFlight.Keys)
    ensures Flowing(FromI(w, r, now))
  {
    RepliedSteady(w, r, now);
    AllUnderWay(w, r, now);
  }

  /** A tick at which every slot is overdue puts everything in flight on its way again. */
  lemma TickRevives(w: World, now: Time)
    requires Steady(w) && Enabled(w, TickI(now)) && Open(w.init)
    requires Overdue(w.init.snd, w.init.snd.inFlight.Keys, now, Rto.Current(w.init.snd.rto))
    ensures Flowing(Next(w, TickI(now)))
  {
    TickResends(w.init, now);
    ModestKeeps(w, TickI(now));
    ResendingFlows(w, OnTick(w.init, now), now);
  }

  lemma AllUnderWay(w: World, r: Reply, now: Time)
    requires AllCarried(r.out, r.e.snd.inFlight.Keys)
    ensures forall n :: n in r.e.snd.inFlight ==> Chased(FromI(w, r, now), n)
  {
    forall n | n in r.e.snd.inFlight ensures Chased(FromI(w, r, now), n) {
      assert n in r.e.snd.inFlight.Keys;
      CarryingUnderWay(w.toL, r.out, n);
    }
  }

  /** Whatever a lossy network did to an exchange past its handshake: if neither side gave up,
      one tick with every slot overdue, followed by deliveries in any order until nothing is
      under way, completes the transfer and delivers everything sent. */
  lemma RecoversFromLoss(w: World, lossy: seq<Step>, now: Time, run: seq<Step>)
    requires Steady(w) && Legal(w, lossy) && Survives(w, lossy)
    requires var v := After(w, lossy);
      Enabled(v, TickI(now)) && Open(v.init) && Overdue(v.init.snd, v.init.snd.inFlight.Keys, now, Rto.Current(v.init.snd.rto)) &&
      Legal(Next(v, TickI(now)), run)
    requires forall k :: 0 <= k < |run| ==> Delivers(run[k])
    requires var u := After(Next(After(w, lossy), TickI(now)), run); u.toL == [] && u.toI == []
    ensures var u := After(Next(After(w, lossy), TickI(now)), run);
      IsComplete(u.init) && |u.lstn.rcv.delivered| == |u.init.snd.sent| == PlanSize(w.init.snd)
  {
    RunSteady(w, lossy);
    var v := After(w, lossy);
    TickRevives(v, now);
    RunGoesOn(Next(v, TickI(now)), run);
    QuietIsComplete(After(Next(v, TickI(now)), run));
    PlanStays(w, lossy, now, run);
  }

  lemma PlanStays(w: World, lossy: seq<Step>, now: Time, run: seq<Step>)
    requires Inv(w) && Legal(w, lossy) && Enabled(After(w, lossy), TickI(now))
    requires Legal(Next(After(w, lossy), TickI(now)), run)
    ensures Plan(After(Next(After(w, lossy), TickI(now)), run).init.snd) == Plan(w.init.snd)
  {
    var v := After(w, lossy);
    RunKeeps(w, lossy);
    StepKeeps(v, TickI(now));
    RunKeeps(Next(v, TickI(now)), run);
  }
}
