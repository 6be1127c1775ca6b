/** When everything sent can still be delivered: exactly when no packet is lost. */
module Deliverable {
  import opened Wire
  import opened Clock
  import opened AnnexB
  import opened FrameCapture
  import opened Source
  import opened PacketCodec
  import opened SessionSpec
  import opened Sender
  import opened Receiver
  import opened Network
  import opened Reliability
  import opened Termination
  import opened Completion
  import opened MediaTransfer
  import opened Pacing
  import opened Starvation
  import opened Holes
  import R = RateControl

  // ---------------------------------------------------------------- what is still there

  /** Number `n` is delivered, buffered, or under way. */
  ghost predicate Present(w: World, n: int) {
    n < w.lstn.rcv.nextExpected || n in w.lstn.rcv.reorder || DataUnderWay(w.toL, n)
  }

  /** No slot will bring back a packet of which there is no copy left: those in flight are
      present or too late. */
  ghost predicate Spent(w: World) {
    forall n :: n in w.init.snd.inFlight ==> Hopeless(w.init.snd, n, w.clock) || Present(w, n)
  }

  ghost predicate AllPresent(w: World) { forall n :: 0 <= n < |w.init.snd.sent| ==> Present(w, n) }

  ghost predicate NoneLost(w: World) { forall n :: 0 <= n < |w.init.snd.sent| ==> !Holes.Lost(w, n) }

  lemma PresentOrLost(w: World)
    requires Inv(w) && Spent(w)
    ensures AllPresent(w) <==> NoneLost(w)
  {
    forall n | 0 <= n < |w.init.snd.sent| ensures Present(w, n) <==> !Holes.Lost(w, n) {
    }
  }

  // ---------------------------------------------------------------- the next packet

  /** What is buffered stays so or is delivered. */
  lemma {:induction false} AcceptAllKeepsRest(r: Receiving, streamId: uint32, now: Time, sent: seq<Packet>, high: int, n: int)
    requires ReceiverMid(r, sent, high) && n in r.reorder
    ensures var q := AcceptAll(r, streamId, now).r; n in q.reorder || n < q.nextExpected
    decreases |r.reorder|
  {
    if r.nextExpected as int in r.reorder {
      AcceptShrinks(r, now);
      AcceptKeeps(r, sent, high, now);
      AcceptAllKeeps(Accept(r, now), sent, high, streamId, now);
      if n != r.nextExpected { AcceptAllKeepsRest(Accept(r, now), streamId, now, sent, high, n); }
    }
  }

  lemma NextReceives(r: Receiving, streamId: uint32, p: Packet, now: Time)
    requires p.header.sequenceNumber == r.nextExpected && !BeyondWindow(r, r.nextExpected)
    ensures var q := AcceptAll(Stored(r, p), streamId, now).r;
      var t := Receive(r, streamId, p, now).r;
      t.nextExpected == q.nextExpected && t.reorder == q.reorder
  {
  }

  /** The expected packet arrives: it is delivered, and nothing buffered is forgotten. */
  lemma NextReceived(r: Receiving, sent: seq<Packet>, streamId: uint32, p: Packet, now: Time)
    requires ReceiverOk(r, sent) && |sent| < TWO_32 && Carries(p, sent, p.header.sequenceNumber)
    requires p.header.sequenceNumber == r.nextExpected && !BeyondWindow(r, r.nextExpected)
    ensures var q := Receive(r, streamId, p, now).r; q.nextExpected > r.nextExpected && Kept(r, q)
  {
    StoredKeeps(r, sent, p);
    var t, high := Stored(r, p), r.nextExpected + SEND_WINDOW;
    AcceptAllKeeps(t, sent, high, streamId, now);
    AcceptAllKept(t, streamId, now, sent, high);
    GrowsPast(r, t, AcceptAll(t, streamId, now).r);
    NextReceives(r, streamId, p, now);
  }

  /** Everything in `a` is in `b` or delivered by then. */
  ghost predicate Kept(a: Receiving, b: Receiving) {
    forall n :: n in a.reorder ==> n in b.reorder || n < b.nextExpected
  }

  lemma AcceptAllKept(r: Receiving, streamId: uint32, now: Time, sent: seq<Packet>, high: int)
    requires ReceiverMid(r, sent, high)
    ensures Kept(r, AcceptAll(r, streamId, now).r)
  {
    forall n | n in r.reorder ensures var q := AcceptAll(r, streamId, now).r; n in q.reorder || n < q.nextExpected {
      AcceptAllKeepsRest(r, streamId, now, sent, high, n);
    }
  }

  lemma GrowsPast(r: Receiving, t: Receiving, q: Receiving)
    requires r.nextExpected as int in t.reorder && (forall n :: n in r.reorder ==> n in t.reorder) && Kept(t, q)
    requires r.nextExpected <= q.nextExpected && q.nextExpected as int !in q.reorder
    ensures q.nextExpected > r.nextExpected && Kept(r, q)
  {
  }

  lemma DataAttended(e: Endpoint, p: Packet, now: Time)
    requires e.role == Listener && e.state != Closed && IsData(p)
    ensures var f := OnPacket(e, p, now).e;
      f.state != Closed && f.rcv == Receive(e.rcv, e.streamId, p, now).r
  {
  }

  lemma NextAttended(e: Endpoint, sent: seq<Packet>, p: Packet, now: Time)
    requires e.role == Listener && e.state != Closed && ReceiverOk(e.rcv, sent) && |sent| < TWO_32
    requires IsData(p) && Carries(p, sent, p.header.sequenceNumber)
    requires p.header.sequenceNumber == e.rcv.nextExpected && e.rcv.nextExpected + SEND_WINDOW < TWO_32
    ensures var f := OnPacket(e, p, now).e;
      f.state != Closed && f.rcv.nextExpected > e.rcv.nextExpected && Kept(e.rcv, f.rcv)
  {
    U32Small(e.rcv.nextExpected + SEND_WINDOW);
    NextReceived(e.rcv, sent, e.streamId, p, now);
    DataAttended(e, p, now);
  }

  /** The datagram carries the packet the listener waits for. */
  lemma ExpectedArrives(w: World, i: nat, r: Reply)
    requires Inv(w) && w.lstn.state != Closed && w.lstn.rcv.nextExpected + SEND_WINDOW < TWO_32 && i < |w.toL|
    requires IsDataFor(w.toL[i], w.lstn.rcv.nextExpected) && r == OnDatagram(w.lstn, w.toL[i], w.clock)
    ensures SameEpoch(w, DeliverL(i, w.clock))
    ensures r.e.state != Closed && r.e.rcv.nextExpected > w.lstn.rcv.nextExpected && Kept(w.lstn.rcv, r.e.rcv)
  {
    assert Genuine(w.toL[i], w.init.snd.sent);
    NextAttended(w.lstn, w.init.snd.sent, Decode(w.toL[i]).value, w.clock);
  }

  /** The expected packet is under way: it is delivered, and all others stay present. */
  lemma DeliversNext(w: World) returns (s: Step)
    requires Inv(w) && w.lstn.state != Closed && |w.init.snd.sent| + SEND_WINDOW <= TWO_32
    requires AllPresent(w) && w.lstn.rcv.nextExpected < |w.init.snd.sent|
    ensures Enabled(w, s) && SameEpoch(w, s) && Next(w, s).init == w.init && Next(w, s).lstn.state != Closed
    ensures Inv(Next(w, s)) && AllPresent(Next(w, s)) && Next(w, s).lstn.rcv.nextExpected > w.lstn.rcv.nextExpected
  {
    var k: int := w.lstn.rcv.nextExpected;
    assert Present(w, k) && k !in w.lstn.rcv.reorder;
    var i: nat :| 0 <= i < |w.toL| && IsDataFor(w.toL[i], k);
    var r := OnDatagram(w.lstn, w.toL[i], w.clock);
    s := DeliverL(i, w.clock);
    ExpectedArrives(w, i, r);
    DeliverLKeeps(w, i, w.clock);
    DeliverLIs(w, i, w.clock, r);
    OthersStay(w, FromL(w.(toL := Without(w.toL, i)), r, w.clock), i);
  }

  lemma OthersStay(w: World, v: World, i: nat)
    requires AllPresent(w) && i < |w.toL| && v.init == w.init && v.toL == Without(w.toL, i)
    requires IsDataFor(w.toL[i], w.lstn.rcv.nextExpected) && v.lstn.rcv.nextExpected > w.lstn.rcv.nextExpected
    requires Kept(w.lstn.rcv, v.lstn.rcv)
    ensures AllPresent(v)
  {
    forall n | 0 <= n < |w.init.snd.sent| ensures Present(v, n) {
      assert Present(w, n);
      if DataUnderWay(w.toL, n) && n != w.lstn.rcv.nextExpected { DataWithout(w.toL, i, n); }
    }
  }

  /** With every packet present, deliveries alone bring all of them in. */
  lemma {:induction false} DeliversRest(w: World) returns (run: seq<Step>)
    requires Inv(w) && w.lstn.state != Closed && |w.init.snd.sent| + SEND_WINDOW <= TWO_32 && AllPresent(w)
    ensures Legal(w, run) && |After(w, run).lstn.rcv.delivered| >= |w.init.snd.sent|
    decreases |w.init.snd.sent| - w.lstn.rcv.nextExpected
  {
    if w.lstn.rcv.nextExpected >= |w.init.snd.sent| {
      run := [];
    } else {
      var s := DeliversNext(w);
      run := DeliversRest(Next(w, s));
      FirstStep(w, s, run);
      run := [s] + run;
    }
  }

  // ---------------------------------------------------------------- both directions

  /** The run delivers everything that is sent by now. */
  ghost predicate Completes(w: World, run: seq<Step>) {
    Legal(w, run) && |After(w, run).lstn.rcv.delivered| >= |w.init.snd.sent|
  }

  ghost predicate CanComplete(w: World) { exists run :: Completes(w, run) }

  /** Everything sent can still be delivered exactly when no packet is lost. */
  lemma DeliverableIff(w: World)
    requires Inv(w) && Spent(w) && w.lstn.state != Closed && |w.init.snd.sent| + SEND_WINDOW <= TWO_32
    ensures CanComplete(w) <==> NoneLost(w)
  {
    PresentOrLost(w);
    if AllPresent(w) {
      var run := DeliversRest(w);
      assert Completes(w, run);
    } else {
      var n :| 0 <= n < |w.init.snd.sent| && !Present(w, n);
      assert Holes.Lost(w, n);
      forall run | Legal(w, run) ensures !Completes(w, run) {
        HoleForEver(w, run, n);
      }
    }
  }

  // ---------------------------------------------------------------- a file with drops

  lemma {:induction false} SubsequencePrefix(a: seq<MediaChunk>, b: seq<MediaChunk>, n: nat)
    requires Subsequence(a, b) && n <= |a|
    ensures Subsequence(a[..n], b)
    decreases |b|
  {
    if n == |a| {
      assert a[..n] == a;
    } else if a[|a| - 1] == b[|b| - 1] && Subsequence(a[..|a| - 1], b[..|b| - 1]) {
      SubsequencePrefix(a[..|a| - 1], b[..|b| - 1], n);
      assert a[..|a| - 1][..n] == a[..n];
    } else {
      SubsequencePrefix(a, b[..|b| - 1], n);
    }
  }

  lemma {:induction false} SubsequenceWider(a: seq<MediaChunk>, b: seq<MediaChunk>, n: nat)
    requires n <= |b| && Subsequence(a, b[..n])
    ensures Subsequence(a, b)
    decreases |b| - n
  {
    if n == |b| {
      assert b[..n] == b;
    } else {
      SubsequenceSkip(a, b[..n], b[n]);
      assert b[..n + 1] == b[..n] + [b[n]];
      SubsequenceWider(a, b, n + 1);
    }
  }

  lemma DeliveredChunks(w: World, q: seq<MediaChunk>, tapped: bool)
    requires MediaInv(w, q, tapped, true)
    ensures Subsequence(ChunksOf(w.lstn.rcv.delivered), q)
  {
    var d, sent, cursor := w.lstn.rcv.delivered, w.init.snd.sent, w.init.snd.source.value.cursor;
    DeliveredBound(d, sent);
    SameChunks(d, sent);
    assert ChunksOf(sent[..|d|]) == ChunksOf(sent)[..|d|];
    SubsequencePrefix(ChunksOf(sent), q[..cursor], |d|);
    SubsequenceWider(ChunksOf(d), q, cursor);
  }

  /** The sink is the whole queue exactly when as many packets are delivered as it has chunks. */
  lemma SinkIsQueueIff(w: World, q: seq<MediaChunk>, tapped: bool)
    requires MediaInv(w, q, tapped, true) && Filled(q)
    ensures w.lstn.rcv.sink == Flatten(Payloads(q)) <==> |w.lstn.rcv.delivered| == |q|
  {
    DeliveredChunks(w, q, tapped);
    SubsequenceWhole(ChunksOf(w.lstn.rcv.delivered), q);
    SubsequenceShorter(ChunksOf(w.lstn.rcv.delivered), q);
  }

  /** No more was delivered than sent, nor sent than taken, nor taken than there is. */
  lemma Counts(w: World, q: seq<MediaChunk>, tapped: bool)
    requires MediaInv(w, q, tapped, true)
    ensures |w.lstn.rcv.delivered| <= |w.init.snd.sent| <= w.init.snd.source.value.cursor <= |q|
  {
    DeliveredBound(w.lstn.rcv.delivered, w.init.snd.sent);
    SubsequenceWhole(ChunksOf(w.init.snd.sent), q[..w.init.snd.source.value.cursor]);
  }

  ghost predicate BringsFile(w: World, run: seq<Step>, file: seq<byte>) {
    Legal(w, run) && After(w, run).lstn.rcv.sink == file
  }

  ghost predicate CanBring(w: World, file: seq<byte>) { exists run :: BringsFile(w, run, file) }

  /** A run that fills the sink delivers all that was sent, and nothing was skipped before. */
  lemma FilledIsWhole(w: World, run: seq<Step>, q: seq<MediaChunk>, tapped: bool)
    requires MediaInv(w, q, tapped, true) && RateOk(w.init.snd.rate, w.clock) && Filled(q) && AtEof(w.init.snd)
    requires BringsFile(w, run, Flatten(Payloads(q))) && Skipped(w.init.snd) >= 0
    ensures Skipped(w.init.snd) == 0 && Completes(w, run)
  {
    var v := After(w, run);
    RunMedia(w, run, q, tapped, true);
    SinkIsQueueIff(v, q, tapped);
    Counts(v, q, tapped);
    RunSkips(w, run);
  }

  /** A run that delivers all of an unskipped file fills the sink. */
  lemma WholeIsFilled(w: World, run: seq<Step>, q: seq<MediaChunk>, tapped: bool)
    requires MediaInv(w, q, tapped, true) && Filled(q) && AtEof(w.init.snd)
    requires Completes(w, run) && Skipped(w.init.snd) == 0
    ensures BringsFile(w, run, Flatten(Payloads(q)))
  {
    var v := After(w, run);
    RunMedia(w, run, q, tapped, true);
    SinkIsQueueIff(v, q, tapped);
    Counts(v, q, tapped);
  }

  lemma BringsOnly(w: World, q: seq<MediaChunk>, tapped: bool)
    requires MediaInv(w, q, tapped, true) && RateOk(w.init.snd.rate, w.clock) && Filled(q) && AtEof(w.init.snd)
    requires CanBring(w, Flatten(Payloads(q))) && Skipped(w.init.snd) >= 0
    ensures Skipped(w.init.snd) == 0 && CanComplete(w)
  {
    var run :| BringsFile(w, run, Flatten(Payloads(q)));
    FilledIsWhole(w, run, q, tapped);
  }

  lemma BringsToo(w: World, q: seq<MediaChunk>, tapped: bool)
    requires MediaInv(w, q, tapped, true) && Filled(q) && AtEof(w.init.snd)
    requires CanComplete(w) && Skipped(w.init.snd) == 0
    ensures CanBring(w, Flatten(Payloads(q)))
  {
    var run :| Completes(w, run);
    WholeIsFilled(w, run, q, tapped);
  }

  lemma FileWorldIff(w: World, q: seq<MediaChunk>, tapped: bool)
    requires MediaInv(w, q, tapped, true) && RateOk(w.init.snd.rate, w.clock) && Filled(q) && Skipped(w.init.snd) >= 0
    requires IsComplete(w.init) && w.lstn.state != Closed && |q| + SEND_WINDOW <= TWO_32
    ensures CanBring(w, Flatten(Payloads(q))) <==> Skipped(w.init.snd) == 0 && NoneLost(w)
  {
    Counts(w, q, tapped);
    DeliverableIff(w);
    if CanBring(w, Flatten(Payloads(q))) {
      BringsOnly(w, q, tapped);
    } else if Skipped(w.init.snd) == 0 && CanComplete(w) {
      BringsToo(w, q, tapped);
    }
  }

  /** File to file, whatever was dropped at its deadline: once the transfer has completed, some run
      makes the sink the input, every start code normalised, exactly when no filling of the window
      began starved and no packet is lost. */
  lemma FileIff(video: seq<byte>, fps: uint32, tapped: bool, run: seq<Step>)
    requires |FileQueue(video, fps)| + SEND_WINDOW <= TWO_32 && Legal(MediaStart(video, fps, tapped, true), run)
    requires var w := Streamed(video, fps, tapped, true, run); IsComplete(w.init) && w.lstn.state != Closed
    ensures var w := Streamed(video, fps, tapped, true, run);
      CanBring(w, Print(Units(video))) <==>
      (StarvedFillings(MediaStart(video, fps, tapped, true), run) == 0 && NoneLost(w))
  {
    StreamedOk(video, fps, tapped, true, run);
    ChunksLost(video, fps, tapped, true, run);
    R.FreshConforms(R.INITIAL_RATE);
    RunRate(MediaStart(video, fps, tapped, true), run);
    QueueIsPrint(Units(video), 0, Duration(fps));
    QueueFilled(Units(video), 0, Duration(fps));
    FileWorldIff(Streamed(video, fps, tapped, true, run), FileQueue(video, fps), tapped);
  }
}
