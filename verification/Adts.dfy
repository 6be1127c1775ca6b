/** Splitting an AAC elementary stream into ADTS frames (ISO/IEC 13818-7, clause 6.2). */
module Adts {
  import opened Wire

  datatype AudioChunk = AudioChunk(payload: seq<byte>, ptsUs: uint64, sampleRate: uint32, channels: nat)

  const SAMPLE_RATES: seq<uint32> :=
    [96000, 88200, 64000, 48000, 44100, 32000, 24000, 22050, 16000, 12000, 11025, 8000, 7350]

  function DurationUs(rate: uint32): nat {
    if rate == 0 then 21_333 else 1_024_000_000 / rate
  }

  predicate SyncAt(d: seq<byte>, i: nat)
    requires i + 7 <= |d|
  {
    d[i] == 0xFF && d[i + 1] / 16 == 15
  }

  function HeaderLength(d: seq<byte>, i: nat): nat
    requires i + 7 <= |d|
  {
    if d[i + 1] % 2 == 1 then 7 else 9
  }

  function RateIndex(d: seq<byte>, i: nat): nat
    requires i + 7 <= |d|
  {
    d[i + 2] / 4 % 16
  }

  function Channels(d: seq<byte>, i: nat): nat
    requires i + 7 <= |d|
  {
    var c: int := d[i + 2] % 2;
    var low: int := d[i + 3] / 64;
    if c * 4 + low > 0 then c * 4 + low else 2
  }

  /** The 13-bit frame length field. */
  function FrameLength(d: seq<byte>, i: nat): nat
    requires i + 7 <= |d|
  {
    var a: int, b: int, c: int := d[i + 3] % 4, d[i + 4], d[i + 5] / 32;
    a * 2048 + b * 8 + c
  }

  /** A frame header the splitter accepts at `i`. */
  predicate FrameAt(d: seq<byte>, i: nat) {
    i + 7 <= |d| && SyncAt(d, i) && RateIndex(d, i) < |SAMPLE_RATES| &&
    HeaderLength(d, i) <= FrameLength(d, i) && i + FrameLength(d, i) <= |d|
  }

  function ChunkAt(d: seq<byte>, i: nat, pts: nat): AudioChunk
    requires FrameAt(d, i)
  {
    AudioChunk(d[i..i + FrameLength(d, i)], U64(pts), SAMPLE_RATES[RateIndex(d, i)], Channels(d, i))
  }

  function SplitFrom(d: seq<byte>, i: nat, pts: nat): seq<AudioChunk>
    decreases |d| - i
  {
    if i + 7 > |d| then []
    else if FrameAt(d, i) then
      [ChunkAt(d, i, pts)] + SplitFrom(d, i + FrameLength(d, i), pts + DurationUs(SAMPLE_RATES[RateIndex(d, i)]))
    else SplitFrom(d, i + 1, pts)
  }

  function Split(d: seq<byte>): seq<AudioChunk> { SplitFrom(d, 0, 0) }

  /** With `q` split off, what is left of the data begins at `i`. */
  predicate Left(d: seq<byte>, q: seq<AudioChunk>, i: nat, pts: nat) { Split(d) == q + SplitFrom(d, i, pts) }

  lemma LeftSkips(d: seq<byte>, q: seq<AudioChunk>, i: nat, pts: nat)
    requires Left(d, q, i, pts) && !FrameAt(d, i) && i + 7 <= |d|
    ensures Left(d, q, i + 1, pts)
  {
  }

  lemma LeftTakes(d: seq<byte>, q: seq<AudioChunk>, i: nat, pts: nat)
    requires Left(d, q, i, pts) && FrameAt(d, i)
    ensures Left(d, q + [ChunkAt(d, i, pts)], i + FrameLength(d, i), Later(d, i, pts))
  {
    Assoc(q, [ChunkAt(d, i, pts)], SplitFrom(d, i + FrameLength(d, i), Later(d, i, pts)));
  }

  lemma LeftNone(d: seq<byte>, q: seq<AudioChunk>, i: nat, pts: nat)
    requires Left(d, q, i, pts) && i + 7 > |d|
    ensures q == Split(d)
  {
  }

  /** The time of the frame behind the one at `i`. */
  function Later(d: seq<byte>, i: nat, pts: nat): nat
    requires FrameAt(d, i)
  {
    pts + DurationUs(SAMPLE_RATES[RateIndex(d, i)])
  }

  method BuildAudioQueue(d: seq<byte>) returns (q: seq<AudioChunk>)
    ensures q == Split(d)
  {
    q := [];
    if |d| < 7 {
      return;
    }
    var pts: nat := 0;
    var i: nat := 0;
    while i + 7 <= |d|
      invariant Left(d, q, i, pts)
      decreases |d| - i
    {
      if d[i] != 0xFF || d[i + 1] / 16 != 15 {
        LeftSkips(d, q, i, pts);
        i := i + 1;
        continue;
      }
      var headerLength := if d[i + 1] % 2 == 1 then 7 else 9;
      var index := RateIndex(d, i);
      var frameLength := FrameLength(d, i);
      if index >= |SAMPLE_RATES| || frameLength < headerLength || i + frameLength > |d| {
        LeftSkips(d, q, i, pts);
        i := i + 1;
        continue;
      }
      LeftTakes(d, q, i, pts);
      q := q + [ChunkAt(d, i, pts)];
      pts := Later(d, i, pts);
      i := i + frameLength;
    }
    LeftNone(d, q, i, pts);
  }

  // ---------------------------------------------------------------- where the frames lie

  /** The positions of the frames found from `i` on. */
  function Offsets(d: seq<byte>, i: nat): seq<nat>
    decreases |d| - i
  {
    if i + 7 > |d| then []
    else if FrameAt(d, i) then [i] + Offsets(d, i + FrameLength(d, i))
    else Offsets(d, i + 1)
  }

  /** The chunk is the frame at this position. */
  predicate TakenAt(d: seq<byte>, at: nat, c: AudioChunk) {
    FrameAt(d, at) && c.payload == d[at..at + FrameLength(d, at)]
  }

  lemma {:induction false} FrameTaken(d: seq<byte>, i: nat, pts: nat, k: nat)
    requires k < |SplitFrom(d, i, pts)|
    ensures k < |Offsets(d, i)| && TakenAt(d, Offsets(d, i)[k], SplitFrom(d, i, pts)[k])
    decreases |d| - i
  {
    if !FrameAt(d, i) {
      FrameTaken(d, i + 1, pts, k);
    } else if k > 0 {
      FrameTaken(d, i + FrameLength(d, i), pts + DurationUs(SAMPLE_RATES[RateIndex(d, i)]), k - 1);
    }
  }

  lemma {:induction false} OffsetsOrdered(d: seq<byte>, i: nat, k: nat)
    requires k < |Offsets(d, i)|
    ensures i <= Offsets(d, i)[k] && FrameAt(d, Offsets(d, i)[k])
    ensures k + 1 < |Offsets(d, i)| ==> Offsets(d, i)[k] + FrameLength(d, Offsets(d, i)[k]) <= Offsets(d, i)[k + 1]
    decreases |d| - i
  {
    if FrameAt(d, i) {
      OffsetsMatch(d, i + FrameLength(d, i), 0);
      if k > 0 { OffsetsOrdered(d, i + FrameLength(d, i), k - 1); }
    } else {
      OffsetsOrdered(d, i + 1, k);
    }
  }

  /** The frames lie one behind the other inside the data, none overlapping the next, and each
      chunk is the bytes of its frame. */
  lemma FramesOrdered(d: seq<byte>, i: nat, pts: nat, k: nat)
    requires k < |SplitFrom(d, i, pts)|
    ensures |Offsets(d, i)| == |SplitFrom(d, i, pts)| && i <= Offsets(d, i)[k]
    ensures TakenAt(d, Offsets(d, i)[k], SplitFrom(d, i, pts)[k])
    ensures k + 1 < |Offsets(d, i)| ==> Offsets(d, i)[k] + FrameLength(d, Offsets(d, i)[k]) <= Offsets(d, i)[k + 1]
  {
    OffsetsMatch(d, i, pts);
    FrameTaken(d, i, pts, k);
    OffsetsOrdered(d, i, k);
  }

  lemma {:induction false} OffsetsMatch(d: seq<byte>, i: nat, pts: nat)
    ensures |Offsets(d, i)| == |SplitFrom(d, i, pts)|
    ensures Offsets(d, i) != [] ==> i <= Offsets(d, i)[0]
    decreases |d| - i
  {
    if i + 7 <= |d| {
      if FrameAt(d, i) {
        OffsetsMatch(d, i + FrameLength(d, i), pts + DurationUs(SAMPLE_RATES[RateIndex(d, i)]));
      } else {
        OffsetsMatch(d, i + 1, pts);
      }
    }
  }

  // ---------------------------------------------------------------- timing

  function Total(q: seq<AudioChunk>): nat {
    if q == [] then 0 else DurationUs(q[0].sampleRate) + Total(q[1..])
  }

  /** A chunk's time is the summed duration of the chunks before it. */
  lemma {:induction false} PtsIsSum(d: seq<byte>, i: nat, pts: nat, k: nat)
    requires k < |SplitFrom(d, i, pts)|
    ensures SplitFrom(d, i, pts)[k].ptsUs == U64(pts + Total(SplitFrom(d, i, pts)[..k]))
    decreases |d| - i
  {
    if FrameAt(d, i) {
      var j, later := i + FrameLength(d, i), pts + DurationUs(SAMPLE_RATES[RateIndex(d, i)]);
      if k > 0 {
        PtsIsSum(d, j, later, k - 1);
        assert SplitFrom(d, i, pts)[..k][1..] == SplitFrom(d, j, later)[..k - 1];
      }
    } else {
      PtsIsSum(d, i + 1, pts, k);
    }
  }

  lemma RateDuration(index: nat)
    requires index < |SAMPLE_RATES|
    ensures 10_666 <= DurationUs(SAMPLE_RATES[index]) <= 140_000
  {
  }

  lemma TotalHead(q: seq<AudioChunk>, k: nat)
    requires 0 < k <= |q|
    ensures Total(q[..k]) == DurationUs(q[0].sampleRate) + Total(q[1..][..k - 1])
  {
    assert q[..k][1..] == q[1..][..k - 1];
  }

  /** The first chunk lasts no longer than 20 ms for each of its bytes. */
  lemma FirstBound(d: seq<byte>, i: nat, pts: nat)
    requires FrameAt(d, i)
    ensures var q, n := SplitFrom(d, i, pts), FrameLength(d, i);
      q != [] && q[1..] == SplitFrom(d, i + n, pts + DurationUs(SAMPLE_RATES[RateIndex(d, i)])) && i + n <= |d| &&
      0 < DurationUs(q[0].sampleRate) <= 20_000 * n
  {
    RateDuration(RateIndex(d, i));
  }

  lemma {:induction false} TotalBound(d: seq<byte>, i: nat, pts: nat, j: nat, k: nat)
    requires j < k <= |SplitFrom(d, i, pts)|
    ensures Total(SplitFrom(d, i, pts)[..j]) < Total(SplitFrom(d, i, pts)[..k]) <= 20_000 * (|d| - i)
    decreases |d| - i
  {
    if FrameAt(d, i) {
      var q := SplitFrom(d, i, pts);
      FirstBound(d, i, pts);
      TotalHead(q, k);
      if j > 0 { TotalHead(q, j); }
      if k > 1 {
        TotalBound(d, i + FrameLength(d, i), Later(d, i, pts), if j > 0 then j - 1 else 0, k - 1);
      }
    } else {
      TotalBound(d, i + 1, pts, j, k);
    }
  }

  /** Times strictly increase from chunk to chunk. */
  lemma PtsIncreases(d: seq<byte>, i: nat, pts: nat, j: nat, k: nat)
    requires j < k < |SplitFrom(d, i, pts)| && pts + 20_000 * (|d| - i) < TWO_64
    ensures SplitFrom(d, i, pts)[j].ptsUs < SplitFrom(d, i, pts)[k].ptsUs
  {
    PtsIsSum(d, i, pts, j);
    PtsIsSum(d, i, pts, k);
    TotalBound(d, i, pts, j, k);
    U64Small(pts + Total(SplitFrom(d, i, pts)[..j]));
    U64Small(pts + Total(SplitFrom(d, i, pts)[..k]));
  }

  lemma U64Small(x: int)
    requires 0 <= x < TWO_64
    ensures U64(x) == x
  {
  }

  // ---------------------------------------------------------------- round trip

  /** One frame and nothing else. */
  predicate WellFormed(f: seq<byte>) { FrameAt(f, 0) && FrameLength(f, 0) == |f| }

  function Frames(q: seq<AudioChunk>): (fs: seq<seq<byte>>)
    ensures |fs| == |q|
  {
    if q == [] then [] else [q[0].payload] + Frames(q[1..])
  }

  /** A frame stands at `i` exactly when the bytes from there begin with a well-formed one. */
  lemma FrameMoved(d: seq<byte>, i: nat, f: seq<byte>)
    requires WellFormed(f) && i + |f| <= |d| && d[i..i + |f|] == f
    ensures FrameAt(d, i) && FrameLength(d, i) == |f|
  {
    assert forall k :: 0 <= k < 7 ==> d[i + k] == f[k];
  }

  lemma FrameCut(d: seq<byte>, i: nat)
    requires FrameAt(d, i)
    ensures WellFormed(d[i..i + FrameLength(d, i)])
  {
    var f := d[i..i + FrameLength(d, i)];
    assert forall k :: 0 <= k < 7 ==> f[k] == d[i + k];
  }

  lemma {:induction false} SplitWellFormed(d: seq<byte>, i: nat, pts: nat)
    ensures forall f :: f in Frames(SplitFrom(d, i, pts)) ==> WellFormed(f)
    decreases |d| - i
  {
    if i + 7 <= |d| {
      if FrameAt(d, i) {
        FrameCut(d, i);
        SplitWellFormed(d, i + FrameLength(d, i), pts + DurationUs(SAMPLE_RATES[RateIndex(d, i)]));
      } else {
        SplitWellFormed(d, i + 1, pts);
      }
    }
  }

  lemma Ahead(d: seq<byte>, i: nat, f: seq<byte>, rest: seq<byte>)
    requires i <= |d| && d[i..] == f + rest
    ensures i + |f| <= |d| && d[i..i + |f|] == f && d[i + |f|..] == rest
  {
    assert d[i..i + |f|] == d[i..][..|f|];
    assert d[i + |f|..] == d[i..][|f|..];
  }

  lemma {:induction false} SplitJoined(d: seq<byte>, i: nat, pts: nat, fs: seq<seq<byte>>)
    requires i <= |d| && d[i..] == Flatten(fs) && forall f :: f in fs ==> WellFormed(f)
    ensures Frames(SplitFrom(d, i, pts)) == fs
    decreases |fs|
  {
    if fs != [] {
      var f := fs[0];
      assert f in fs;
      Ahead(d, i, f, Flatten(fs[1..]));
      FrameMoved(d, i, f);
      SplitJoined(d, i + |f|, pts + DurationUs(SAMPLE_RATES[RateIndex(d, i)]), fs[1..]);
      HeadTail(fs);
    }
  }

  /** The splitter gives back a concatenation of byte strings piece by piece exactly when every
      piece is a well-formed frame. */
  lemma SplitsBackIff(fs: seq<seq<byte>>)
    ensures Frames(Split(Flatten(fs))) == fs <==> forall f :: f in fs ==> WellFormed(f)
  {
    SplitWellFormed(Flatten(fs), 0, 0);
    if forall f :: f in fs ==> WellFormed(f) {
      assert Flatten(fs)[0..] == Flatten(fs);
      SplitJoined(Flatten(fs), 0, 0, fs);
    }
  }

  // ---------------------------------------------------------------- nothing is missed

  /** Position `p` lies in the chunk of this frame. */
  predicate Covers(at: nat, c: AudioChunk, p: nat) { at <= p < at + |c.payload| }

  /** Position `p` lies in the frame at `at`. */
  predicate Spans(d: seq<byte>, at: nat, p: nat) { FrameAt(d, at) && at <= p < at + FrameLength(d, at) }

  lemma {:induction false} FrameSpanned(d: seq<byte>, i: nat, p: nat) returns (k: nat)
    requires i <= p && FrameAt(d, p)
    ensures k < |Offsets(d, i)| && Spans(d, Offsets(d, i)[k], p)
    decreases |d| - i
  {
    if !FrameAt(d, i) {
      k := FrameSpanned(d, i + 1, p);
    } else if Spans(d, i, p) {
      k := 0;
    } else {
      k := FrameSpanned(d, i + FrameLength(d, i), p);
      k := k + 1;
    }
  }

  /** Every frame in the data is taken, but for one that begins inside a frame taken: junk before,
      between and behind the frames is skipped byte by byte. */
  lemma NothingMissed(d: seq<byte>, p: nat, q: nat) returns (k: nat)
    requires p <= q <= |d| && WellFormed(d[p..q])
    ensures k < |Offsets(d, 0)| == |Split(d)| && Covers(Offsets(d, 0)[k], Split(d)[k], p)
  {
    FrameMoved(d, p, d[p..q]);
    OffsetsMatch(d, 0, 0);
    k := FrameSpanned(d, 0, p);
    FrameTaken(d, 0, 0, k);
  }

  // ---------------------------------------------------------------- the 13-bit length

  /** An ADTS header (without CRC) in front of a body, the length field cut to 13 bits. */
  function MakeFrame(index: nat, channels: nat, body: seq<byte>): seq<byte>
    requires index < 16 && channels < 8
  {
    var n := 7 + |body|;
    [0xFF, 0xF1, 64 + index * 4 + channels / 4, channels % 4 * 64 + n / 2048 % 4, n / 8 % 256, n % 8 * 32 + 31, 0xFC] + body
  }

  /** Such a frame is well formed exactly when its length fits the field and its sampling
      frequency is one of the thirteen defined. */
  lemma MadeIsWellFormedIff(index: nat, channels: nat, body: seq<byte>)
    requires index < 16 && channels < 8
    ensures WellFormed(MakeFrame(index, channels, body)) <==> 7 + |body| < 8192 && index < |SAMPLE_RATES|
  {
    MadeFields(index, channels, body);
    assert 7 <= (7 + |body|) % 8192 || 7 + |body| >= 8192;
  }

  lemma MadeFields(index: nat, channels: nat, body: seq<byte>)
    requires index < 16 && channels < 8
    ensures var f := MakeFrame(index, channels, body);
      |f| == 7 + |body| && SyncAt(f, 0) && HeaderLength(f, 0) == 7 && RateIndex(f, 0) == index &&
      FrameLength(f, 0) == (7 + |body|) % 8192
  {
    LengthField(7 + |body|);
    RateField(index, channels / 4);
    LowBits(channels % 4, (7 + |body|) / 2048 % 4);
  }

  lemma RateField(index: nat, c: nat)
    requires index < 16 && c < 2
    ensures (64 + index * 4 + c) / 4 % 16 == index
  {
  }

  lemma LowBits(c: nat, n: nat)
    requires c < 4 && n < 4
    ensures (c * 64 + n) % 4 == n
  {
  }

  lemma LengthField(n: nat)
    ensures n / 2048 % 4 * 2048 + n / 8 % 256 * 8 + n % 8 == n % 8192
  {
    assert n / 2048 == n / 8 / 256;
    assert n / 8192 == n / 2048 / 4;
    assert n == n / 8 * 8 + n % 8;
    assert n / 8 == n / 2048 * 256 + n / 8 % 256;
    assert n / 2048 == n / 8192 * 4 + n / 2048 % 4;
  }

  // ---------------------------------------------------------------- what a header says

  /** The sampling frequencies of the standard, by their index. */
  function RateOf(index: nat): int {
    match index
    case 0 => 96000 case 1 => 88200 case 2 => 64000 case 3 => 48000 case 4 => 44100 case 5 => 32000 case 6 => 24000
    case 7 => 22050 case 8 => 16000 case 9 => 12000 case 10 => 11025 case 11 => 8000 case 12 => 7350 case _ => 0
  }

  /** A frame lasts 1024 samples, in whole microseconds; without a frequency, that of 48 kHz. */
  lemma DurationIs(index: nat)
    requires index < 13
    ensures DurationUs(0) == DurationUs(48000) == 21_333
    ensures SAMPLE_RATES[index] == RateOf(index)
    ensures var us, rate := DurationUs(SAMPLE_RATES[index]), RateOf(index); us * rate <= 1_024_000_000 < (us + 1) * rate
  {
  }

  /** What is checked of a header: twelve one bits, a defined frequency, and a length of at least the
      header, which is two bytes longer when a checksum follows it. */
  lemma WellFormedIff(f: seq<byte>)
    ensures WellFormed(f) <==>
      |f| >= 7 && f[0] == 0xFF && f[1] >= 0xF0 && f[2] / 4 % 16 < 13 &&
      f[3] as int % 4 * 2048 + f[4] as int * 8 + f[5] as int / 32 == |f| && |f| >= if f[1] % 2 == 1 then 7 else 9
  {
  }

  /** Each chunk is one frame, with the frequency and the channels its own header gives. */
  lemma {:induction false} ChunkReads(d: seq<byte>, i: nat, pts: nat, k: nat)
    requires k < |SplitFrom(d, i, pts)|
    ensures var c := SplitFrom(d, i, pts)[k];
      WellFormed(c.payload) && c.sampleRate == RateOf(c.payload[2] as int / 4 % 16) &&
      var n := c.payload[2] as int % 2 * 4 + c.payload[3] as int / 64;
      c.channels == if n > 0 then n else 2
    decreases |d| - i
  {
    if FrameAt(d, i) {
      if k > 0 {
        ChunkReads(d, i + FrameLength(d, i), pts + DurationUs(SAMPLE_RATES[RateIndex(d, i)]), k - 1);
      } else {
        FrameCut(d, i);
        DurationIs(RateIndex(d, i));
        assert d[i..i + FrameLength(d, i)][2] == d[i + 2] && d[i..i + FrameLength(d, i)][3] == d[i + 3];
      }
    } else {
      ChunkReads(d, i + 1, pts, k);
    }
  }

  lemma ChannelField(index: nat, c: nat, n: nat)
    requires index < 16 && c < 8 && n < 4
    ensures (64 + index * 4 + c / 4) % 2 == c / 4 && (c % 4 * 64 + n) / 64 == c % 4
  {
  }

  lemma MadeChannels(index: nat, channels: nat, body: seq<byte>)
    requires index < 16 && channels < 8
    ensures |MakeFrame(index, channels, body)| >= 7
    ensures Channels(MakeFrame(index, channels, body), 0) == if channels > 0 then channels else 2
  {
    ChannelField(index, channels, (7 + |body|) / 2048 % 4);
  }

  /** A frame alone is split into one chunk: the whole frame at time 0, with the frequency of its index
      and its number of channels, two when the field is 0. */
  lemma MadeSplits(index: nat, channels: nat, body: seq<byte>)
    requires index < 13 && channels < 8 && 7 + |body| < 8192
    ensures var f := MakeFrame(index, channels, body);
      Split(f) == [AudioChunk(f, 0, RateOf(index), if channels > 0 then channels else 2)]
  {
    var f := MakeFrame(index, channels, body);
    MadeFields(index, channels, body);
    MadeIsWellFormedIff(index, channels, body);
    MadeChannels(index, channels, body);
    DurationIs(index);
    assert f[0..|f|] == f;
    assert SplitFrom(f, |f|, DurationUs(SAMPLE_RATES[index])) == [];
  }
}
