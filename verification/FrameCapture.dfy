/** From units to transport chunks and back: the chunk queue a media source builds, and the
    frames a sender captures from the chunks it sends. */
module FrameCapture {
  import opened Wire
  import opened AnnexB

  datatype MediaChunk = MediaChunk(payload: seq<byte>, frameType: FrameType, ptsUs: uint64)

  datatype Frame = Frame(data: seq<byte>, ptsUs: uint64, isKeyframe: bool)

  // ---------------------------------------------------------------- the chunk queue

  function Wrap(pieces: seq<seq<byte>>, ft: FrameType, pts: uint64): (q: seq<MediaChunk>)
    ensures |q| == |pieces|
  {
    if pieces == [] then [] else [MediaChunk(pieces[0], ft, pts)] + Wrap(pieces[1..], ft, pts)
  }

  function UnitType(u: seq<byte>): FrameType { if u == [] then PFrame else Classify(u[0]) }

  predicate IsPicture(ft: FrameType) { ft == Keyframe || ft == PFrame }

  /** Pictures are timed by their index; every other unit has time 0. */
  function UnitPts(u: seq<byte>, index: nat, duration: nat): uint64 {
    if IsPicture(UnitType(u)) then U64(index * duration) else 0
  }

  function NextIndex(u: seq<byte>, index: nat): nat {
    if IsPicture(UnitType(u)) then index + 1 else index
  }

  function UnitChunks(u: seq<byte>, index: nat, duration: nat): seq<MediaChunk> {
    Wrap(Chunks(START_CODE + u), UnitType(u), UnitPts(u, index, duration))
  }

  /** The chunk queue of a list of units, the first picture having number `index`. */
  function Queue(us: seq<seq<byte>>, index: nat, duration: nat): seq<MediaChunk> {
    if us == [] then [] else
    UnitChunks(us[0], index, duration) + Queue(us[1..], NextIndex(us[0], index), duration)
  }

  function Payloads(q: seq<MediaChunk>): (p: seq<seq<byte>>)
    ensures |p| == |q|
  {
    if q == [] then [] else [q[0].payload] + Payloads(q[1..])
  }

  lemma {:induction false} PayloadsAppend(a: seq<MediaChunk>, b: seq<MediaChunk>)
    ensures Payloads(a + b) == Payloads(a) + Payloads(b)
  {
    if a == [] {
      assert a + b == b;
    } else {
      PayloadsAppend(a[1..], b);
      assert (a + b)[1..] == a[1..] + b && (a + b)[0] == a[0];
      Assoc([a[0].payload], Payloads(a[1..]), Payloads(b));
    }
  }

  lemma {:induction false} PayloadsWrap(pieces: seq<seq<byte>>, ft: FrameType, pts: uint64)
    ensures Payloads(Wrap(pieces, ft, pts)) == pieces
  {
    if pieces != [] {
      PayloadsWrap(pieces[1..], ft, pts);
      assert Wrap(pieces, ft, pts)[1..] == Wrap(pieces[1..], ft, pts);
      HeadTail(pieces);
    }
  }

  /** The queue carries exactly the normalised byte stream. */
  lemma {:induction false} QueueIsPrint(us: seq<seq<byte>>, index: nat, duration: nat)
    ensures Flatten(Payloads(Queue(us, index, duration))) == Print(us)
    decreases |us|
  {
    if us != [] {
      var nal := START_CODE + us[0];
      var head := UnitChunks(us[0], index, duration);
      var tail := Queue(us[1..], NextIndex(us[0], index), duration);
      QueueIsPrint(us[1..], NextIndex(us[0], index), duration);
      PayloadsAppend(head, tail);
      PayloadsWrap(Chunks(nal), UnitType(us[0]), UnitPts(us[0], index, duration));
      FlattenAppend(Payloads(head), Payloads(tail));
      FlattenChunks(nal);
    }
  }

  // ---------------------------------------------------------------- pieces and times

  /** So many pieces of 1200 bytes and a rest. */
  lemma {:induction false} PieceCount(s: seq<byte>)
    ensures |Chunks(s)| == (|s| + 1199) / 1200
    decreases |s|
  {
    if |s| > MAX_PAYLOAD {
      PieceCount(s[MAX_PAYLOAD..]);
      assert (|s| + 1199) / 1200 == 1 + (|s| - 1200 + 1199) / 1200;
    }
  }

  function PieceEnd(s: seq<byte>, k: nat): nat { if 1200 * (k + 1) < |s| then 1200 * (k + 1) else |s| }

  lemma {:induction false} PieceBounds(s: seq<byte>, k: nat)
    requires k < |Chunks(s)|
    ensures 1200 * k < |s|
  {
    PieceCount(s);
  }

  /** The pieces of a blob are its stretches of 1200 bytes, the last one what is left. */
  lemma {:induction false} PieceIs(s: seq<byte>, k: nat)
    requires k < |Chunks(s)|
    ensures 1200 * k < |s| && Chunks(s)[k] == s[1200 * k..PieceEnd(s, k)]
    decreases k
  {
    PieceBounds(s, k);
    if |s| > MAX_PAYLOAD && k > 0 {
      PieceIs(s[MAX_PAYLOAD..], k - 1);
      SliceOfRest(s, MAX_PAYLOAD, 1200 * (k - 1), PieceEnd(s[MAX_PAYLOAD..], k - 1));
    }
  }

  lemma SliceOfRest(s: seq<byte>, n: nat, a: nat, b: nat)
    requires n <= |s| && a <= b <= |s| - n
    ensures s[n..][a..b] == s[n + a..n + b]
  {
  }

  /** A unit by its first byte: an instantaneous picture, a unit that is no picture, or a picture. */
  predicate KeyUnit(u: seq<byte>) { u != [] && u[0] % 32 == 5 }

  predicate NoPicture(u: seq<byte>) { u != [] && 6 <= u[0] % 32 <= 9 }

  /** How many of the units are pictures. */
  function Pictures(us: seq<seq<byte>>): nat {
    if us == [] then 0 else (if NoPicture(us[0]) then 0 else 1) + Pictures(us[1..])
  }

  /** Where the chunks of unit `k` begin in the queue. */
  function ChunksBefore(us: seq<seq<byte>>, k: nat): nat
    requires k <= |us|
    decreases k
  {
    if k == 0 then 0 else |Chunks(START_CODE + us[0])| + ChunksBefore(us[1..], k - 1)
  }

  /** The chunk `c` is one of unit `u`, played with the picture of index `index`, control units at 0. */
  predicate ChunkOfUnit(c: MediaChunk, u: seq<byte>, piece: seq<byte>, index: nat, duration: nat) {
    c.payload == piece &&
    c.frameType == (if KeyUnit(u) then Keyframe else if NoPicture(u) then Control else PFrame) &&
    c.ptsUs == (if NoPicture(u) then 0 else index * duration % TWO_64)
  }

  lemma UnitChunkIs(u: seq<byte>, index: nat, duration: nat, j: nat)
    requires j < |Chunks(START_CODE + u)|
    ensures |UnitChunks(u, index, duration)| == |Chunks(START_CODE + u)|
    ensures ChunkOfUnit(UnitChunks(u, index, duration)[j], u, Chunks(START_CODE + u)[j], index, duration)
    ensures NextIndex(u, index) == if NoPicture(u) then index else index + 1
  {
    WrapIs(Chunks(START_CODE + u), UnitType(u), UnitPts(u, index, duration), j);
  }

  lemma {:induction false} WrapIs(pieces: seq<seq<byte>>, ft: FrameType, pts: uint64, j: nat)
    requires j < |pieces|
    ensures Wrap(pieces, ft, pts)[j] == MediaChunk(pieces[j], ft, pts)
  {
    if j > 0 { WrapIs(pieces[1..], ft, pts, j - 1); }
  }

  /** In the queue of a list of units the `j`-th chunk of unit `k` is the `j`-th piece of that unit with
      its start code, labelled by the unit's first byte and timed by the pictures before it. */
  lemma {:induction false} QueueAt(us: seq<seq<byte>>, index: nat, duration: nat, k: nat, j: nat)
    requires k < |us| && j < |Chunks(START_CODE + us[k])|
    ensures ChunksBefore(us, k) + j < |Queue(us, index, duration)|
    ensures ChunkOfUnit(Queue(us, index, duration)[ChunksBefore(us, k) + j], us[k], Chunks(START_CODE + us[k])[j],
                        index + Pictures(us[..k]), duration)
    decreases k
  {
    if k == 0 {
      UnitChunkIs(us[0], index, duration, j);
      assert us[..0] == [];
    } else {
      PieceCount(START_CODE + us[0]);
      UnitChunkIs(us[0], index, duration, 0);
      QueueAt(us[1..], NextIndex(us[0], index), duration, k - 1, j);
      assert us[..k][1..] == us[1..][..k - 1];
    }
  }

  // ---------------------------------------------------------------- capture

  /** Frames handed to the callback so far, and the one being put together. */
  datatype Capture = Capture(tapped: bool, frames: seq<Frame>, pending: seq<byte>, isKey: bool, lastPts: uint64)

  function Flush(c: Capture): Capture {
    if c.pending == [] then c else
    c.(frames := if c.tapped then c.frames + [Frame(c.pending, c.lastPts, c.isKey)] else c.frames, pending := [])
  }

  /** What sending one chunk for the first time does to the capture. */
  function Take(c: Capture, chunk: MediaChunk): Capture {
    var starts := StartsWithCode(chunk.payload);
    var d := if starts then Flush(c) else c;
    d.(isKey := if starts then chunk.frameType == Keyframe else d.isKey,
       pending := d.pending + chunk.payload, lastPts := chunk.ptsUs)
  }

  function TakeAll(c: Capture, q: seq<MediaChunk>): Capture
    decreases |q|
  {
    if q == [] then c else TakeAll(Take(c, q[0]), q[1..])
  }

  lemma {:induction false} TakeAllAppend(c: Capture, a: seq<MediaChunk>, b: seq<MediaChunk>)
    ensures TakeAll(c, a + b) == TakeAll(TakeAll(c, a), b)
    decreases |a|
  {
    if a == [] {
      assert a + b == b;
    } else {
      TakeAllAppend(Take(c, a[0]), a[1..], b);
      assert (a + b)[1..] == a[1..] + b;
    }
  }

  /** Without a callback nothing is captured. */
  lemma {:induction false} UntappedCaptures(c: Capture, q: seq<MediaChunk>)
    requires !c.tapped
    ensures !TakeAll(c, q).tapped && TakeAll(c, q).frames == c.frames && Flush(c).frames == c.frames
    decreases |q|
  {
    if q != [] { UntappedCaptures(Take(c, q[0]), q[1..]); }
  }

  function FrameData(fs: seq<Frame>): seq<byte> {
    if fs == [] then [] else FrameData(fs[..|fs| - 1]) + fs[|fs| - 1].data
  }

  /** All bytes that went through the capture, in order. */
  function Bytes(c: Capture): seq<byte> { FrameData(c.frames) + c.pending }

  lemma FlushKeepsBytes(c: Capture)
    requires c.tapped
    ensures Flush(c).tapped && Bytes(Flush(c)) == Bytes(c)
  {
    if c.pending != [] {
      assert Flush(c).frames[..|c.frames|] == c.frames;
    }
  }

  /** Capturing loses and adds nothing. */
  lemma TakeKeepsBytes(c: Capture, chunk: MediaChunk)
    requires c.tapped
    ensures Take(c, chunk).tapped && Bytes(Take(c, chunk)) == Bytes(c) + chunk.payload
  {
    FlushKeepsBytes(c);
    var d := if StartsWithCode(chunk.payload) then Flush(c) else c;
    Assoc(FrameData(d.frames), d.pending, chunk.payload);
  }

  lemma {:induction false} TakeAllKeepsBytes(c: Capture, q: seq<MediaChunk>)
    requires c.tapped
    ensures TakeAll(c, q).tapped && Bytes(TakeAll(c, q)) == Bytes(c) + Flatten(Payloads(q))
    decreases |q|
  {
    if q != [] {
      TakeKeepsBytes(c, q[0]);
      TakeAllKeepsBytes(Take(c, q[0]), q[1..]);
      Assoc(Bytes(c), q[0].payload, Flatten(Payloads(q[1..])));
      assert Payloads(q)[1..] == Payloads(q[1..]);
    }
  }

  // ---------------------------------------------------------------- one frame per unit

  function UnitFrame(u: seq<byte>, index: nat, duration: nat): Frame {
    Frame(START_CODE + u, UnitPts(u, index, duration), UnitType(u) == Keyframe)
  }

  function UnitFrames(us: seq<seq<byte>>, index: nat, duration: nat): (fs: seq<Frame>)
    ensures |fs| == |us|
  {
    if us == [] then [] else
    [UnitFrame(us[0], index, duration)] + UnitFrames(us[1..], NextIndex(us[0], index), duration)
  }

  /** Some chunk begins with a start code. */
  predicate Splits(pieces: seq<seq<byte>>) {
    pieces != [] && (StartsWithCode(pieces[0]) || Splits(pieces[1..]))
  }

  /** Continuation chunks without a start code only add to the pending frame. */
  lemma {:induction false} TakeContinuation(c: Capture, pieces: seq<seq<byte>>, ft: FrameType, pts: uint64)
    requires !Splits(pieces) && c.lastPts == pts
    ensures TakeAll(c, Wrap(pieces, ft, pts)) == c.(pending := c.pending + Flatten(pieces))
    decreases |pieces|
  {
    if pieces == [] {
      assert c.pending + [] == c.pending;
    } else {
      var d := Take(c, MediaChunk(pieces[0], ft, pts));
      assert Wrap(pieces, ft, pts)[1..] == Wrap(pieces[1..], ft, pts);
      TakeContinuation(d, pieces[1..], ft, pts);
      Assoc(c.pending, pieces[0], Flatten(pieces[1..]));
    }
  }

  /** What the capture makes of the chunks up to the next start code. */
  lemma {:induction false} RestTaken(c: Capture, rest: seq<MediaChunk>)
    requires forall k :: 0 <= k < |rest| ==> !StartsWithCode(rest[k].payload)
    ensures TakeAll(c, rest) ==
      c.(pending := c.pending + Flatten(Payloads(rest)), lastPts := if rest == [] then c.lastPts else rest[|rest| - 1].ptsUs)
    decreases |rest|
  {
    if rest == [] {
      assert c.pending + [] == c.pending;
    } else {
      RestTaken(Take(c, rest[0]), rest[1..]);
      Assoc(c.pending, rest[0].payload, Flatten(Payloads(rest[1..])));
    }
  }

  /** The bytes 00 00 01 or 00 00 00 01 in front. */
  predicate BeginsUnit(p: seq<byte>) {
    |p| >= 3 && p[0] == 0 && p[1] == 0 && (p[2] == 1 || (|p| >= 4 && p[2] == 0 && p[3] == 1))
  }

  lemma BeginsIff(p: seq<byte>)
    ensures BeginsUnit(p) <==> StartsWithCode(p)
  {
  }

  /** The frame handed out, if there is one. */
  function Before(c: Capture): seq<Frame> {
    if c.tapped && c.pending != [] then c.frames + [Frame(c.pending, c.lastPts, c.isKey)] else c.frames
  }

  lemma FirstTaken(c: Capture, first: MediaChunk)
    requires BeginsUnit(first.payload)
    ensures Take(c, first) == Capture(c.tapped, Before(c), first.payload, first.frameType == Keyframe, first.ptsUs)
  {
    BeginsIff(first.payload);
    assert [] + first.payload == first.payload;
  }

  lemma PayloadsHead(q: seq<MediaChunk>)
    requires q != []
    ensures Flatten(Payloads(q)) == q[0].payload + Flatten(Payloads(q[1..]))
  {
  }

  lemma NoneBegin(rest: seq<MediaChunk>)
    requires forall k :: 0 <= k < |rest| ==> !BeginsUnit(rest[k].payload)
    ensures forall k :: 0 <= k < |rest| ==> !StartsWithCode(rest[k].payload)
  {
    forall k | 0 <= k < |rest| ensures !StartsWithCode(rest[k].payload) {
      BeginsIff(rest[k].payload);
    }
  }

  /** Chunks from one start code up to the next, whatever chunks are missing: the frame before is handed
      out if there is one, and the new one has all their bytes, the type of the first chunk, and the
      time of the last. */
  lemma GroupTaken(c: Capture, q: seq<MediaChunk>)
    requires q != [] && BeginsUnit(q[0].payload) && forall k :: 0 < k < |q| ==> !BeginsUnit(q[k].payload)
    ensures TakeAll(c, q) ==
      Capture(c.tapped, Before(c), Flatten(Payloads(q)), q[0].frameType == Keyframe, q[|q| - 1].ptsUs)
  {
    FirstTaken(c, q[0]);
    NoneBegin(q[1..]);
    RestTaken(Take(c, q[0]), q[1..]);
    PayloadsHead(q);
  }

  /** The one way a unit is torn: its last chunk is exactly the three bytes 00 00 01. */
  predicate Torn(u: seq<byte>) { (|u| + 4) % MAX_PAYLOAD == 3 && |u| >= 3 && Start3(u, |u| - 3) }

  ghost predicate NoCode(s: seq<byte>) { forall j: nat :: !CodeAt(s, j) }

  /** The blob ends in 00 00 01, and cutting it leaves just those three bytes at the end. */
  predicate ShortTail(s: seq<byte>) { |s| % MAX_PAYLOAD == 3 && Start3(s, |s| - 3) }

  lemma ShortTailCut(s: seq<byte>)
    requires |s| > MAX_PAYLOAD
    ensures ShortTail(s[MAX_PAYLOAD..]) == ShortTail(s)
  {
    var rest := s[MAX_PAYLOAD..];
    assert |s| % MAX_PAYLOAD == |rest| % MAX_PAYLOAD;
    if |rest| >= 3 {
      var e := |rest| - 3;
      assert rest[e] == s[|s| - 3] && rest[e + 1] == s[|s| - 2] && rest[e + 2] == s[|s| - 1];
    }
  }

  lemma SplitsCons(p: seq<byte>, pieces: seq<seq<byte>>)
    ensures Splits([p] + pieces) == (StartsWithCode(p) || Splits(pieces))
  {
    assert ([p] + pieces)[1..] == pieces;
  }

  lemma NoCodeInFront(s: seq<byte>, n: nat)
    requires NoCode(s) && 3 < n <= |s|
    ensures !StartsWithCode(s[..n])
  {
    assert !CodeAt(s, 0);
  }

  /** Cutting a blob without start codes puts one in front only when three bytes remain. */
  lemma {:induction false} SplitsIff(s: seq<byte>)
    requires NoCode(s)
    ensures Splits(Chunks(s)) <==> ShortTail(s)
    decreases |s|
  {
    if |s| > MAX_PAYLOAD {
      NoCodeSuffix(s, MAX_PAYLOAD);
      NoCodeInFront(s, MAX_PAYLOAD);
      SplitsIff(s[MAX_PAYLOAD..]);
      SplitsCons(s[..MAX_PAYLOAD], Chunks(s[MAX_PAYLOAD..]));
      ShortTailCut(s);
    } else if |s| > 3 {
      NoCodeInFront(s, |s|);
      assert s[..|s|] == s;
      SplitsCons(s, []);
      assert [s] + [] == [s];
    }
  }

  lemma NoCodeSuffix(s: seq<byte>, n: nat)
    requires NoCode(s) && n <= |s|
    ensures NoCode(s[n..])
  {
    forall j: nat ensures !CodeAt(s[n..], j) {
      assert !CodeAt(s, n + j);
    }
  }

  function FirstCut(u: seq<byte>): (n: nat)
    ensures n <= |START_CODE + u|
  {
    if |u| + 4 <= MAX_PAYLOAD then |u| + 4 else MAX_PAYLOAD
  }

  function Head(u: seq<byte>): seq<byte> { (START_CODE + u)[..FirstCut(u)] }

  function Rest(u: seq<byte>): seq<byte> { (START_CODE + u)[FirstCut(u)..] }

  /** The first chunk of a unit, and what follows it. */
  lemma FirstChunk(u: seq<byte>)
    requires SealedLast(u)
    ensures StartsWithCode(Head(u)) && Head(u) != [] && Head(u) + Rest(u) == START_CODE + u
    ensures Chunks(START_CODE + u) == [Head(u)] + Chunks(Rest(u))
    ensures NoCode(Rest(u)) && (ShortTail(Rest(u)) <==> Torn(u))
  {
    var nal := START_CODE + u;
    if |nal| <= MAX_PAYLOAD {
      assert nal[..|nal|] == nal && nal[|nal|..] == [];
    } else {
      var rest := Rest(u);
      forall j: nat ensures !CodeAt(rest, j) {
        assert !CodeAt(u, MAX_PAYLOAD - 4 + j);
      }
      ShortTailCut(nal);
      assert ShortTail(nal) == Torn(u);
    }
  }

  lemma WrapCons(p: seq<byte>, pieces: seq<seq<byte>>, ft: FrameType, pts: uint64)
    ensures Wrap([p] + pieces, ft, pts) == [MediaChunk(p, ft, pts)] + Wrap(pieces, ft, pts)
  {
    assert ([p] + pieces)[1..] == pieces;
  }

  lemma TakeAllCons(c: Capture, x: MediaChunk, q: seq<MediaChunk>)
    ensures TakeAll(c, [x] + q) == TakeAll(Take(c, x), q)
  {
    assert ([x] + q)[1..] == q;
  }

  /** After the first chunk of a unit. */
  function Begun(c: Capture, u: seq<byte>, index: nat, duration: nat): Capture {
    Capture(c.tapped, Flush(c).frames, Head(u), UnitType(u) == Keyframe, UnitPts(u, index, duration))
  }

  lemma BeginUnit(c: Capture, u: seq<byte>, index: nat, duration: nat)
    requires SealedLast(u)
    ensures TakeAll(c, UnitChunks(u, index, duration)) ==
      TakeAll(Begun(c, u, index, duration), Wrap(Chunks(Rest(u)), UnitType(u), UnitPts(u, index, duration)))
  {
    var ft, pts := UnitType(u), UnitPts(u, index, duration);
    FirstChunk(u);
    WrapCons(Head(u), Chunks(Rest(u)), ft, pts);
    TakeAllCons(c, MediaChunk(Head(u), ft, pts), Wrap(Chunks(Rest(u)), ft, pts));
    TakeFirst(c, MediaChunk(Head(u), ft, pts));
  }

  lemma TakeFirst(c: Capture, chunk: MediaChunk)
    requires StartsWithCode(chunk.payload)
    ensures Take(c, chunk) == Capture(c.tapped, Flush(c).frames, chunk.payload, chunk.frameType == Keyframe, chunk.ptsUs)
  {
    assert Flush(c).pending == [] && [] + chunk.payload == chunk.payload;
  }

  /** The capture once a whole unit is in: it is pending, and the frame before it is out. */
  function Taken(c: Capture, u: seq<byte>, index: nat, duration: nat): Capture {
    Capture(c.tapped, Flush(c).frames, START_CODE + u, UnitType(u) == Keyframe, UnitPts(u, index, duration))
  }

  lemma TakeUnit(c: Capture, u: seq<byte>, index: nat, duration: nat)
    requires SealedLast(u) && !Torn(u)
    ensures TakeAll(c, UnitChunks(u, index, duration)) == Taken(c, u, index, duration)
  {
    BeginUnit(c, u, index, duration);
    FirstChunk(u);
    SplitsIff(Rest(u));
    TakeContinuation(Begun(c, u, index, duration), Chunks(Rest(u)), UnitType(u), UnitPts(u, index, duration));
    FlattenChunks(Rest(u));
  }

  lemma SealedIsWhole(u: seq<byte>)
    requires Sealed(u)
    ensures SealedLast(u) && !Torn(u)
  {
    forall j | 1 <= j ensures !CodeAt(u, j) {
      assert !Start3(u, j) && !Start3(u, j + 1);
    }
  }

  lemma TakeQueue(c: Capture, us: seq<seq<byte>>, index: nat, duration: nat)
    requires us != [] && SealedLast(us[0]) && !Torn(us[0])
    ensures TakeAll(c, Queue(us, index, duration))
      == TakeAll(Taken(c, us[0], index, duration), Queue(us[1..], NextIndex(us[0], index), duration))
    ensures Flush(Taken(c, us[0], index, duration)).frames ==
      if c.tapped then Flush(c).frames + [UnitFrame(us[0], index, duration)] else Flush(c).frames
  {
    TakeUnit(c, us[0], index, duration);
    TakeAllAppend(c, UnitChunks(us[0], index, duration), Queue(us[1..], NextIndex(us[0], index), duration));
  }

  /** Frames after the flush at end of file, when no unit is torn: one for each unit. */
  lemma {:induction false} OneFramePerUnit(c: Capture, us: seq<seq<byte>>, index: nat, duration: nat)
    requires c.tapped && Printable(us) && (us == [] || !Torn(us[|us| - 1]))
    ensures Flush(TakeAll(c, Queue(us, index, duration))).frames == Flush(c).frames + UnitFrames(us, index, duration)
    decreases |us|
  {
    if us == [] {
      assert Flush(c).frames + [] == Flush(c).frames;
    } else {
      var next := NextIndex(us[0], index);
      if |us| > 1 { SealedIsWhole(us[0]); }
      TakeQueue(c, us, index, duration);
      OneFramePerUnit(Taken(c, us[0], index, duration), us[1..], next, duration);
      Assoc(Flush(c).frames, [UnitFrame(us[0], index, duration)], UnitFrames(us[1..], next, duration));
    }
  }

  /** A torn unit costs one frame too many. */
  lemma {:induction false} TakeTorn(c: Capture, s: seq<byte>, ft: FrameType, pts: uint64)
    requires c.tapped && c.pending != [] && NoCode(s)
    requires ShortTail(s)
    ensures var d := TakeAll(c, Wrap(Chunks(s), ft, pts));
      d.tapped && |d.frames| == |c.frames| + 1 && d.pending != []
    decreases |s|
  {
    assert !CodeAt(s, 0);
    if |s| > MAX_PAYLOAD {
      var rest := s[MAX_PAYLOAD..];
      var d := Take(c, MediaChunk(s[..MAX_PAYLOAD], ft, pts));
      NoCodeSuffix(s, MAX_PAYLOAD);
      WrapCons(s[..MAX_PAYLOAD], Chunks(rest), ft, pts);
      assert Wrap(Chunks(s), ft, pts)[1..] == Wrap(Chunks(rest), ft, pts);
      ShortTailCut(s);
      TakeTorn(d, rest, ft, pts);
    } else {
      assert |s| == 3 && Chunks(s) == [s];
      WrapCons(s, [], ft, pts);
      assert Wrap([s], ft, pts)[1..] == [];
    }
  }

  lemma {:induction false} TornCount(c: Capture, us: seq<seq<byte>>, index: nat, duration: nat)
    requires c.tapped && Printable(us) && us != [] && Torn(us[|us| - 1])
    ensures |Flush(TakeAll(c, Queue(us, index, duration))).frames| == |Flush(c).frames| + |us| + 1
    decreases |us|
  {
    if |us| > 1 {
      SealedIsWhole(us[0]);
      TakeQueue(c, us, index, duration);
      TornCount(Taken(c, us[0], index, duration), us[1..], NextIndex(us[0], index), duration);
    } else {
      TornLast(c, us[0], index, duration);
      assert us[1..] == [];
      var q := UnitChunks(us[0], index, duration);
      assert q + [] == q;
    }
  }

  lemma TornLast(c: Capture, u: seq<byte>, index: nat, duration: nat)
    requires c.tapped && SealedLast(u) && Torn(u)
    ensures |Flush(TakeAll(c, UnitChunks(u, index, duration))).frames| == |Flush(c).frames| + 2
  {
    FirstChunk(u);
    BeginUnit(c, u, index, duration);
    TakeTorn(Begun(c, u, index, duration), Rest(u), UnitType(u), UnitPts(u, index, duration));
  }

  const IDLE: Capture := Capture(true, [], [], false, 0)

  /** The frames captured from a whole queue are one per unit exactly when the last unit is
      not torn. */
  lemma FramesIff(us: seq<seq<byte>>, index: nat, duration: nat)
    requires Printable(us)
    ensures Flush(TakeAll(IDLE, Queue(us, index, duration))).frames == UnitFrames(us, index, duration)
       <==> us == [] || !Torn(us[|us| - 1])
  {
    if us == [] || !Torn(us[|us| - 1]) {
      OneFramePerUnit(IDLE, us, index, duration);
      assert [] + UnitFrames(us, index, duration) == UnitFrames(us, index, duration);
    } else {
      TornCount(IDLE, us, index, duration);
    }
  }
}
