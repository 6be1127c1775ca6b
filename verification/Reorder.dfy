/** The reorder buffer refines a set: what a receiver holds is determined by which numbers it
    accepted, not by the order in which they arrived. */
module Reorder {
  import opened Wire
  import opened Clock
  import opened PacketCodec
  import opened SessionSpec
  import opened Sender
  import opened Receiver
  import opened Window

  // ---------------------------------------------------------------- the set

  /** The least number from `n` on that is not in `a`. */
  function MexFrom(a: set<int>, n: int): (m: int)
    ensures n <= m && m !in a
    ensures forall k :: n <= k < m ==> k in a
    decreases |a|
  {
    if n !in a then n else
    var m := MexFrom(a - {n}, n + 1);
    assert forall k :: n <= k < m ==> k in a by {
      forall k | n < k < m ensures k in a { assert k in a - {n}; }
    }
    m
  }

  /** The least number not accepted yet. */
  function Mex(a: set<int>): int { MexFrom(a, 0) }

  lemma {:induction false} MexFromIs(a: set<int>, n: int, m: int)
    requires n <= m && m !in a && forall k :: n <= k < m ==> k in a
    ensures MexFrom(a, n) == m
    decreases m - n
  {
    if n < m { MexFromIs(a - {n}, n + 1, m); }
  }

  lemma MexIs(a: set<int>, m: int)
    requires 0 <= m && m !in a && forall k :: 0 <= k < m ==> k in a
    ensures Mex(a) == m
  {
    MexFromIs(a, 0, m);
  }

  /** Accepted is a number less than eight above the least missing one. */
  function Admit(a: set<int>, s: int): set<int> {
    if s < Mex(a) + SEND_WINDOW then a + {s} else a
  }

  function Admitted(numbers: seq<int>): set<int> {
    if numbers == [] then {} else Admit(Admitted(numbers[..|numbers| - 1]), numbers[|numbers| - 1])
  }

  // ---------------------------------------------------------------- the receiver

  datatype Arriving = Arriving(packet: Packet, at: Time)

  /** A fresh receiver after the arrivals. */
  function Received(arrivals: seq<Arriving>, hasSink: bool, streamId: uint32): Receiving {
    if arrivals == [] then FRESH_RECEIVING.(hasSink := hasSink) else
    var last := arrivals[|arrivals| - 1];
    Receive(Received(arrivals[..|arrivals| - 1], hasSink, streamId), streamId, last.packet, last.at).r
  }

  function Numbers(arrivals: seq<Arriving>): seq<int> {
    seq(|arrivals|, i requires 0 <= i < |arrivals| => arrivals[i].packet.header.sequenceNumber)
  }

  /** All arrivals are packets of one sender whose numbers, and the window above them, fit 32 bits. */
  ghost predicate FromSender(arrivals: seq<Arriving>, sent: seq<Packet>) {
    |sent| + SEND_WINDOW <= TWO_32 &&
    forall i :: 0 <= i < |arrivals| ==> Carries(arrivals[i].packet, sent, arrivals[i].packet.header.sequenceNumber)
  }

  function Above(a: set<int>, n: int): set<int> { set k | k in a && k > n }

  /** The receiver holds just what the set `a` says. */
  ghost predicate Shows(r: Receiving, a: set<int>) {
    r.nextExpected == Mex(a) && r.reorder.Keys == Above(a, r.nextExpected)
  }

  /** In the middle of a delivery the expected number may be in the buffer. */
  ghost predicate ShowsMid(r: Receiving, a: set<int>) {
    (forall k :: 0 <= k < r.nextExpected ==> k in a) && r.reorder.Keys == Above(a, r.nextExpected - 1)
  }

  lemma KeysCut(b: map<int, Packet>, a: set<int>, n: int)
    requires b.Keys == Above(a, n - 1)
    ensures (b - {n}).Keys == Above(a, n)
    ensures n in b <==> n in a
  {
    assert n in b.Keys <==> n in Above(a, n - 1);
  }

  lemma AcceptShows(r: Receiving, a: set<int>, now: Time)
    requires ShowsMid(r, a) && r.nextExpected as int in r.reorder && Accept(r, now).nextExpected == r.nextExpected + 1
    ensures ShowsMid(Accept(r, now), a)
  {
    var n: int := r.nextExpected;
    KeysCut(r.reorder, a, n);
  }

  lemma {:induction false} AcceptAllShows(r: Receiving, a: set<int>, sent: seq<Packet>, high: int, streamId: uint32, now: Time)
    requires ReceiverMid(r, sent, high) && ShowsMid(r, a)
    ensures Shows(AcceptAll(r, streamId, now).r, a)
    decreases |r.reorder|
  {
    var n: int := r.nextExpected;
    if n in r.reorder {
      var b := Accept(r, now);
      AcceptKeeps(r, sent, high, now);
      AcceptShows(r, a, now);
      AcceptShrinks(r, now);
      AcceptAllShows(b, a, sent, high, streamId, now);
    } else {
      DoneShows(r, a);
    }
  }

  lemma DoneShows(r: Receiving, a: set<int>)
    requires ShowsMid(r, a) && r.nextExpected as int !in r.reorder
    ensures Shows(r, a)
  {
    var n: int := r.nextExpected;
    KeysCut(r.reorder, a, n);
    MexIs(a, n);
    assert r.reorder - {n} == r.reorder;
  }

  /** The window of the code is the window of the set. */
  lemma SameWindow(r: Receiving, sent: seq<Packet>, s: uint32)
    requires |sent| + SEND_WINDOW <= TWO_32 && r.nextExpected <= s < |sent|
    ensures BeyondWindow(r, s) <==> s >= r.nextExpected + SEND_WINDOW
  {
    U32Small(r.nextExpected + SEND_WINDOW);
  }

  lemma StoredShows(r: Receiving, a: set<int>, p: Packet)
    requires Shows(r, a) && p.header.sequenceNumber >= r.nextExpected
    ensures ShowsMid(Stored(r, p), a + {p.header.sequenceNumber as int})
    ensures p.header.sequenceNumber > r.nextExpected ==> Shows(Stored(r, p), a + {p.header.sequenceNumber as int})
  {
    var s: int, n: int := p.header.sequenceNumber, r.nextExpected;
    var b := a + {s};
    assert Stored(r, p).reorder.Keys == Above(a, n) + {s};
    assert Above(a, n) + {s} == Above(b, n - 1);
    if s > n {
      MexIs(b, n);
      assert Above(b, n) == Above(b, n - 1);
    }
  }

  /** One arrival: the receiver and the set move together. */
  lemma ReceiveShows(r: Receiving, a: set<int>, sent: seq<Packet>, streamId: uint32, p: Packet, now: Time)
    requires ReceiverOk(r, sent) && Shows(r, a) && |sent| + SEND_WINDOW <= TWO_32
    requires Carries(p, sent, p.header.sequenceNumber)
    ensures Shows(Receive(r, streamId, p, now).r, Admit(a, p.header.sequenceNumber))
  {
    var s: int, n: int := p.header.sequenceNumber, r.nextExpected;
    if s < n {
      assert a + {s} == a;
    } else {
      SameWindow(r, sent, s);
      if s < n + SEND_WINDOW {
        StoredShows(r, a, p);
        if s == n {
          StoredKeeps(r, sent, p);
          AcceptAllShows(Stored(r, p), a + {s}, sent, n + SEND_WINDOW, streamId, now);
        }
      }
    }
  }

  lemma {:induction false} RunShows(arrivals: seq<Arriving>, sent: seq<Packet>, hasSink: bool, streamId: uint32)
    requires FromSender(arrivals, sent)
    ensures ReceiverOk(Received(arrivals, hasSink, streamId), sent)
    ensures Shows(Received(arrivals, hasSink, streamId), Admitted(Numbers(arrivals)))
  {
    if arrivals == [] {
      assert Above({}, 0) == {};
    } else {
      var most, last := arrivals[..|arrivals| - 1], arrivals[|arrivals| - 1];
      RunShows(most, sent, hasSink, streamId);
      assert Numbers(arrivals)[..|arrivals| - 1] == Numbers(most);
      var r := Received(most, hasSink, streamId);
      ReceiveKeeps(r, sent, streamId, last.packet, last.at);
      ReceiveShows(r, Admitted(Numbers(most)), sent, streamId, last.packet, last.at);
    }
  }

  /** After any arrivals: expected is the least number not accepted, buffered are the accepted
      ones above it, at most seven and all in the window, and delivered and buffered packets
      are the sender's. */
  lemma RefinesSet(arrivals: seq<Arriving>, sent: seq<Packet>, hasSink: bool, streamId: uint32)
    requires FromSender(arrivals, sent)
    ensures var r, a := Received(arrivals, hasSink, streamId), Admitted(Numbers(arrivals));
      r.nextExpected == Mex(a) && r.reorder.Keys == Above(a, Mex(a)) && |r.reorder| <= SEND_WINDOW - 1 &&
      (forall k :: k in r.reorder ==> k < Mex(a) + SEND_WINDOW && Carries(r.reorder[k], sent, k)) &&
      |r.delivered| == Mex(a) && forall k :: 0 <= k < Mex(a) ==> Carries(r.delivered[k], sent, k)
  {
    RunShows(arrivals, sent, hasSink, streamId);
    var r := Received(arrivals, hasSink, streamId);
    AtMost(r.reorder.Keys, r.nextExpected + 1, r.nextExpected + SEND_WINDOW);
  }

  lemma {:induction false} AtMost(s: set<int>, lo: int, hi: int)
    requires lo <= hi && forall k :: k in s ==> lo <= k < hi
    ensures |s| <= hi - lo
    decreases hi - lo
  {
    if lo == hi {
      assert s == {};
    } else {
      AtMost(s - {lo}, lo + 1, hi);
      if lo in s { assert s == (s - {lo}) + {lo}; } else { assert s - {lo} == s; }
    }
  }

  /** Two arrival orders with the same accepted numbers leave the same packets delivered, the
      same buffered and the same number expected. */
  lemma {:induction false} OrderIsIrrelevant(x: seq<Arriving>, y: seq<Arriving>, sent: seq<Packet>, hasSink: bool, streamId: uint32)
    requires FromSender(x, sent) && FromSender(y, sent) && Admitted(Numbers(x)) == Admitted(Numbers(y))
    ensures var r, q := Received(x, hasSink, streamId), Received(y, hasSink, streamId);
      r.nextExpected == q.nextExpected && r.reorder == q.reorder && r.delivered == q.delivered
  {
    RefinesSet(x, sent, hasSink, streamId);
    RefinesSet(y, sent, hasSink, streamId);
    var r, q := Received(x, hasSink, streamId), Received(y, hasSink, streamId);
    forall k | 0 <= k < |r.delivered| ensures r.delivered[k] == q.delivered[k] {
      assert Carries(r.delivered[k], sent, k) && Carries(q.delivered[k], sent, k);
    }
    forall k | k in r.reorder ensures r.reorder[k] == q.reorder[k] {
      assert Carries(r.reorder[k], sent, k) && k in q.reorder.Keys && Carries(q.reorder[k], sent, k);
    }
  }
}
