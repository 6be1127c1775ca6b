/** The sender limits how many packets are in flight, the receiver which numbers it admits:
    why the one implies the other, and where 32-bit numbers end it. */
module Window {
  import opened Wire
  import opened Clock
  import opened PacketCodec
  import opened SessionSpec
  import opened Sender
  import opened Receiver
  import opened Network
  import opened Reliability

  lemma {:induction false} RangeInside(lo: int, hi: int, s: set<int>)
    requires forall k :: lo <= k < hi ==> k in s
    ensures hi - lo <= |s|
    decreases hi - lo
  {
    if lo < hi {
      var t := s - {hi - 1};
      assert s == t + {hi - 1};
      RangeInside(lo, hi - 1, t);
    }
  }

  /** Without deadline drops the sender is never more than eight numbers ahead of what the
      listener delivered, however many acknowledgements were lost. */
  lemma CountWindowIsRangeWindow(w: World)
    requires Inv(w) && w.init.snd.deadlineDrops == 0
    ensures |w.init.snd.sent| <= w.lstn.rcv.nextExpected + SEND_WINDOW
  {
    RangeInside(w.lstn.rcv.nextExpected, |w.init.snd.sent|, w.init.snd.inFlight.Keys);
  }

  /** In such a run the listener turns data away as out of its window only because its
      window has run off the end of the 32-bit numbers. */
  lemma TurnedAwayIff(w: World, d: Datagram)
    requires Inv(w) && w.init.snd.deadlineDrops == 0 && d in w.toL
    requires Decode(d).Some? && IsData(Decode(d).value)
    requires Decode(d).value.header.sequenceNumber >= w.lstn.rcv.nextExpected
    ensures BeyondWindow(w.lstn.rcv, Decode(d).value.header.sequenceNumber)
       <==> w.lstn.rcv.nextExpected + SEND_WINDOW >= TWO_32
  {
    var s, next := Decode(d).value.header.sequenceNumber, w.lstn.rcv.nextExpected;
    var i :| 0 <= i < |w.toL| && w.toL[i] == d;
    assert Genuine(w.toL[i], w.init.snd.sent);
    CountWindowIsRangeWindow(w);
    BeyondIff(w.lstn.rcv, s);
  }

  lemma BeyondIff(r: Receiving, s: uint32)
    requires r.nextExpected <= s < r.nextExpected + SEND_WINDOW
    ensures BeyondWindow(r, s) <==> r.nextExpected + SEND_WINDOW >= TWO_32
  {
    if r.nextExpected + SEND_WINDOW < TWO_32 {
      U32Small(r.nextExpected + SEND_WINDOW);
    } else {
      WrappedWindow(r.nextExpected);
    }
  }

  lemma WrappedWindow(next: uint32)
    requires next + SEND_WINDOW >= TWO_32
    ensures U32(next + SEND_WINDOW) <= next
  {
  }

  // ---------------------------------------------------------------- the end of the numbers

  /** A receiver eight short of the last number turns every new packet away. */
  lemma ReceiveStalls(r: Receiving, streamId: uint32, p: Packet, now: Time)
    requires r.nextExpected + SEND_WINDOW >= TWO_32
    ensures Receive(r, streamId, p, now).r.nextExpected == r.nextExpected
    ensures Receive(r, streamId, p, now).r.delivered == r.delivered
  {
    WrappedWindow(r.nextExpected);
  }

  lemma PacketStalls(e: Endpoint, p: Packet, now: Time)
    requires e.rcv.nextExpected + SEND_WINDOW >= TWO_32
    requires p.header.packetType == Handshake ==> !IsSyn(p.header.flags)
    ensures OnPacket(e, p, now).e.rcv.nextExpected == e.rcv.nextExpected
  {
    if p.header.packetType == Data {
      ReceiveStalls(e.rcv, e.streamId, p, now);
    }
  }

  lemma TickLeavesReceiver(e: Endpoint, now: Time)
    ensures OnTick(e, now).e.rcv.nextExpected == e.rcv.nextExpected
  {
    TickReceives(e, now);
  }

  lemma StepStalls(w: World, s: Step)
    requires w.lstn.rcv.nextExpected + SEND_WINDOW >= TWO_32
    requires Enabled(w, s) && SameEpoch(w, s)
    ensures Next(w, s).lstn.rcv.nextExpected == w.lstn.rcv.nextExpected
  {
    match s {
      case TickL(now) => TickLeavesReceiver(w.lstn, now);
      case DeliverL(i, now) =>
        var d := w.toL[i];
        if Decode(d).Some? { PacketStalls(w.lstn, Decode(d).value, now); }
      case _ =>
    }
  }

  /** From there no run of the epoch delivers anything more: a transfer that still has
      packets to come never completes. */
  lemma {:induction false} StalledForEver(w: World, run: seq<Step>)
    requires w.lstn.rcv.nextExpected + SEND_WINDOW >= TWO_32 && Legal(w, run)
    ensures After(w, run).lstn.rcv.nextExpected == w.lstn.rcv.nextExpected
    decreases |run|
  {
    if run != [] {
      StepStalls(w, run[0]);
      StalledForEver(Next(w, run[0]), run[1..]);
    }
  }
}
