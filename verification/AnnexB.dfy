/** H.264 byte streams (ITU-T H.264, Annex B): scanning for start codes, classifying units,
    and cutting them into transport-sized chunks. */
module AnnexB {
  import opened Wire

  datatype NalUnit = NalUnit(offset: nat, length: nat, nalType: byte, frameType: FrameType)

  const START_CODE: seq<byte> := [0, 0, 0, 1]

  function Classify(hdr: byte): FrameType {
    var t := hdr % 32;
    if t == 5 then Keyframe
    else if t == 6 || t == 7 || t == 8 || t == 9 then Control
    else PFrame
  }

  predicate Start3(d: seq<byte>, p: nat) {
    p + 3 <= |d| && d[p] == 0 && d[p + 1] == 0 && d[p + 2] == 1
  }

  predicate Start4(d: seq<byte>, p: nat) {
    p + 4 <= |d| && d[p] == 0 && d[p + 1] == 0 && d[p + 2] == 0 && d[p + 3] == 1
  }

  /** A start code where the scanner looks for one: it always wants four bytes ahead. */
  predicate CodeAt(d: seq<byte>, p: nat) {
    p + 3 < |d| && (Start3(d, p) || Start4(d, p))
  }

  /** The first start code at or after `p`, or the end of the data. */
  function NextCode(d: seq<byte>, p: nat): (q: nat)
    requires p <= |d|
    ensures p <= q <= |d| && (q == |d| || CodeAt(d, q))
    decreases |d| - p
  {
    if p == |d| || CodeAt(d, p) then p else NextCode(d, p + 1)
  }

  lemma {:induction false} NextCodeSkips(d: seq<byte>, p: nat)
    requires p <= |d|
    ensures forall r :: p <= r < NextCode(d, p) ==> !CodeAt(d, r)
    decreases |d| - p
  {
    if p < |d| && !CodeAt(d, p) {
      NextCodeSkips(d, p + 1);
    }
  }

  lemma {:induction false} NextCodeIs(d: seq<byte>, p: nat, q: nat)
    requires p <= q <= |d| && (q == |d| || CodeAt(d, q))
    requires forall r :: p <= r < q ==> !CodeAt(d, r)
    ensures NextCode(d, p) == q
    decreases q - p
  {
    if p < q { NextCodeIs(d, p + 1, q); }
  }

  function CodeLength(d: seq<byte>, p: nat): nat { if Start4(d, p) then 4 else 3 }

  function UnitAt(d: seq<byte>, off: nat, next: nat): NalUnit
    requires off < next <= |d|
  {
    NalUnit(off, next - off, d[off] % 32, Classify(d[off]))
  }

  function End(u: NalUnit): nat { u.offset + u.length }

  /** The units found from position `i` on. */
  function ScanFrom(d: seq<byte>, i: nat): seq<NalUnit>
    requires i <= |d|
    decreases |d| - i, 1
  {
    if NextCode(d, i) == |d| then [] else ScanCode(d, NextCode(d, i))
  }

  /** The units found from the start code at `q` on. */
  function ScanCode(d: seq<byte>, q: nat): seq<NalUnit>
    requires CodeAt(d, q)
    decreases |d| - q, 0
  {
    var off := q + CodeLength(d, q);
    if off >= |d| then [] else
    var next := NextCode(d, off + 1);
    [UnitAt(d, off, next)] + ScanFrom(d, next)
  }

  /** The inner loop of the scanner: where the unit whose header is at `off` ends. */
  method UnitEnd(d: seq<byte>, off: nat) returns (next: nat)
    requires off < |d|
    ensures next == NextCode(d, off + 1)
  {
    next := off + 1;
    while next + 3 < |d|
      invariant off < next <= |d|
      invariant NextCode(d, off + 1) == NextCode(d, next)
    {
      if Start4(d, next) || Start3(d, next) {
        break;
      }
      next := next + 1;
    }
    if next + 3 >= |d| {
      NoCodeNearEnd(d, next);
      next := |d|;
    }
  }

  lemma {:induction false} NoCodeNearEnd(d: seq<byte>, i: nat)
    requires i <= |d| <= i + 3
    ensures NextCode(d, i) == |d|
    decreases |d| - i
  {
    if i < |d| { NoCodeNearEnd(d, i + 1); }
  }

  lemma ScanSkips(d: seq<byte>, i: nat)
    requires i < |d| && !CodeAt(d, i)
    ensures ScanFrom(d, i) == ScanFrom(d, i + 1)
  {
  }

  lemma ScanTakes(d: seq<byte>, i: nat, units: seq<NalUnit>)
    requires CodeAt(d, i)
    ensures var off := i + CodeLength(d, i);
      units + ScanFrom(d, i) ==
      if off >= |d| then units else
      units + [UnitAt(d, off, NextCode(d, off + 1))] + ScanFrom(d, NextCode(d, off + 1))
  {
    var off := i + CodeLength(d, i);
    if off < |d| { Assoc(units, [UnitAt(d, off, NextCode(d, off + 1))], ScanFrom(d, NextCode(d, off + 1))); }
  }

  method Scan(d: seq<byte>) returns (units: seq<NalUnit>)
    ensures units == ScanFrom(d, 0)
  {
    units := [];
    var i := 0;
    while i + 3 < |d|
      invariant i <= |d|
      invariant ScanFrom(d, 0) == units + ScanFrom(d, i)
    {
      var sc := 0;
      if Start4(d, i) {
        sc := 4;
      } else if Start3(d, i) {
        sc := 3;
      } else {
        ScanSkips(d, i);
        i := i + 1;
        continue;
      }
      ScanTakes(d, i, units);
      var off := i + sc;
      if off >= |d| {
        return;
      }
      var next := UnitEnd(d, off);
      units := units + [UnitAt(d, off, next)];
      i := next;
    }
    NoCodeNearEnd(d, i);
  }

  // ---------------------------------------------------------------- what a scan is

  /** `us` tiles the data from `at` on: a start code and a non-empty unit, repeated, with at
      most one bare four-byte start code left over. */
  ghost predicate Tiles(d: seq<byte>, at: nat, us: seq<NalUnit>)
    requires at <= |d|
    decreases |us|
  {
    if us == [] then at == |d| || d[at..] == START_CODE else
    var u := us[0];
    (Start3(d, at) || Start4(d, at)) && u.offset == at + CodeLength(d, at) &&
    0 < u.length && End(u) <= |d| && u == UnitAt(d, u.offset, End(u)) && Tiles(d, End(u), us[1..])
  }

  /** No start code begins inside a unit after its header byte. */
  ghost predicate NoCodeInside(d: seq<byte>, us: seq<NalUnit>) {
    forall u, p | u in us && u.offset < p < End(u) :: !CodeAt(d, p)
  }

  lemma TilesCons(d: seq<byte>, q: nat, u: NalUnit, rest: seq<NalUnit>)
    requires CodeAt(d, q) && u.offset == q + CodeLength(d, q) < |d| && 0 < u.length && End(u) <= |d|
    requires u == UnitAt(d, u.offset, End(u)) && Tiles(d, End(u), rest) && NoCodeInside(d, rest)
    requires forall r :: u.offset < r < End(u) ==> !CodeAt(d, r)
    ensures Tiles(d, q, [u] + rest) && NoCodeInside(d, [u] + rest)
  {
    assert ([u] + rest)[1..] == rest;
  }

  lemma BareCode(d: seq<byte>, q: nat)
    requires CodeAt(d, q) && q + CodeLength(d, q) >= |d|
    ensures d[q..] == START_CODE
  {
  }

  lemma {:induction false} ScanTiles(d: seq<byte>, i: nat)
    requires i <= |d|
    ensures Tiles(d, NextCode(d, i), ScanFrom(d, i)) && NoCodeInside(d, ScanFrom(d, i))
    decreases |d| - i, 1
  {
    if NextCode(d, i) < |d| { ScanCodeTiles(d, NextCode(d, i)); }
  }

  lemma {:induction false} ScanCodeTiles(d: seq<byte>, q: nat)
    requires CodeAt(d, q)
    ensures Tiles(d, q, ScanCode(d, q)) && NoCodeInside(d, ScanCode(d, q))
    decreases |d| - q, 0
  {
    var off := q + CodeLength(d, q);
    if off < |d| {
      var next := NextCode(d, off + 1);
      NextCodeSkips(d, off + 1);
      ScanTiles(d, next);
      TilesCons(d, q, UnitAt(d, off, next), ScanFrom(d, next));
    } else {
      BareCode(d, q);
    }
  }

  lemma TilesStart(d: seq<byte>, at: nat, us: seq<NalUnit>)
    requires at <= |d| && Tiles(d, at, us)
    ensures at == |d| || CodeAt(d, at)
  {
    if us == [] && at < |d| {
      assert |d[at..]| == 4;
      assert d[at..][0] == d[at] && d[at..][1] == d[at + 1] && d[at..][2] == d[at + 2] && d[at..][3] == d[at + 3];
    }
  }

  /** The tiling with no inner start code is the scan: there is no other. */
  lemma {:induction false} TilingIsScan(d: seq<byte>, at: nat, us: seq<NalUnit>)
    requires at <= |d| && Tiles(d, at, us) && NoCodeInside(d, us)
    ensures us == ScanFrom(d, at)
    decreases |us|
  {
    TilesStart(d, at, us);
    if at < |d| {
      assert ScanFrom(d, at) == ScanCode(d, at);
      if us != [] {
        var u := us[0];
        TilesStart(d, End(u), us[1..]);
        assert u in us;
        NextCodeIs(d, u.offset + 1, End(u));
        TilingIsScan(d, End(u), us[1..]);
        assert us == [u] + us[1..];
      }
    }
  }

  /** Units come in order, each at least a start code after the end of the one before. */
  lemma {:induction false} UnitsOrdered(d: seq<byte>, at: nat, us: seq<NalUnit>, j: nat, k: nat)
    requires at <= |d| && Tiles(d, at, us) && j <= k < |us|
    ensures at + 3 <= us[j].offset && (j < k ==> End(us[j]) + 3 <= us[k].offset)
    decreases |us|
  {
    if k > 0 {
      UnitsOrdered(d, End(us[0]), us[1..], if j == 0 then 0 else j - 1, k - 1);
      if j == 0 { UnitsOrdered(d, End(us[0]), us[1..], k - 1, k - 1); }
    }
  }

  // ---------------------------------------------------------------- the units in plain bytes

  /** 00 00 01 or 00 00 00 01 at `p`, with four bytes left from there. */
  predicate Begins(d: seq<byte>, p: nat) {
    p + 4 <= |d| && d[p] == 0 && d[p + 1] == 0 && (d[p + 2] == 1 || (d[p + 2] == 0 && d[p + 3] == 1))
  }

  lemma BeginsIff(d: seq<byte>, p: nat)
    ensures Begins(d, p) <==> CodeAt(d, p)
  {
  }

  /** Between `p` and `off` stands just a start code, of four bytes if it can be read so. */
  predicate Behind(d: seq<byte>, p: nat, off: nat) {
    off <= |d| && p + 3 <= off && d[p] == 0 && d[p + 1] == 0 &&
    if off == p + 4 then d[p + 2] == 0 && d[p + 3] == 1 else off == p + 3 && d[p + 2] == 1
  }

  /** A unit: not empty, inside the data, labelled by its first byte, and with no start code behind
      that. */
  ghost predicate IsUnit(d: seq<byte>, u: NalUnit) {
    0 < u.length && u.offset + u.length <= |d| && u.nalType as int == d[u.offset] as int % 32 &&
    u.frameType ==
      (if u.nalType == 5 then Keyframe else if 6 <= u.nalType <= 9 then Control else PFrame) &&
    forall p :: u.offset < p < u.offset + u.length ==> !Begins(d, p)
  }

  lemma UnitIs(d: seq<byte>, u: NalUnit, us: seq<NalUnit>, at: nat)
    requires us != [] && u == us[0] && at <= |d| && Tiles(d, at, us) && NoCodeInside(d, us)
    ensures IsUnit(d, u) && Behind(d, at, u.offset)
  {
    forall p | u.offset < p < u.offset + u.length ensures !Begins(d, p) {
      assert u in us && u.offset < p < End(u);
      BeginsIff(d, p);
    }
  }

  lemma {:induction false} UnitsAre(d: seq<byte>, at: nat, us: seq<NalUnit>, k: nat)
    requires at <= |d| && Tiles(d, at, us) && NoCodeInside(d, us) && k < |us|
    ensures IsUnit(d, us[k]) && Behind(d, if k == 0 then at else End(us[k - 1]), us[k].offset)
    ensures k + 1 == |us| ==> End(us[k]) == |d| || d[End(us[k])..] == [0, 0, 0, 1]
    decreases |us|
  {
    UnitIs(d, us[0], us, at);
    if k > 0 { UnitsAre(d, End(us[0]), us[1..], k - 1); }
  }

  /** What a scan finds, from the first start code on, byte by byte: each unit behind a start code
      that follows the unit before it, with nothing missed before, between or behind them but one bare
      start code at the end. */
  lemma ScanIs(d: seq<byte>, k: nat)
    requires k < |ScanFrom(d, 0)|
    ensures var us := ScanFrom(d, 0);
      IsUnit(d, us[k]) &&
      (k > 0 ==> Behind(d, us[k - 1].offset + us[k - 1].length, us[k].offset)) &&
      (k + 1 == |us| ==> us[k].offset + us[k].length == |d| || d[us[k].offset + us[k].length..] == [0, 0, 0, 1]) &&
      exists p: nat :: Behind(d, p, us[0].offset) && Begins(d, p) && forall q :: 0 <= q < p ==> !Begins(d, q)
  {
    var us, p := ScanFrom(d, 0), NextCode(d, 0);
    ScanTiles(d, 0);
    UnitsAre(d, p, us, k);
    UnitsAre(d, p, us, 0);
    NextCodeSkips(d, 0);
    BeginsIff(d, p);
    forall q | 0 <= q < p ensures !Begins(d, q) {
      BeginsIff(d, q);
    }
    assert Behind(d, p, us[0].offset) && Begins(d, p);
  }

  /** It finds nothing only where there is no start code but a bare one at the end. */
  lemma ScanOfNothing(d: seq<byte>, q: nat)
    requires ScanFrom(d, 0) == [] && Begins(d, q)
    ensures d[q..] == [0, 0, 0, 1]
  {
    var p := NextCode(d, 0);
    ScanTiles(d, 0);
    NextCodeSkips(d, 0);
    BeginsIff(d, q);
    if p < |d| { LastStart(d, p); }
  }

  /** A start code that ends the data is the last one. */
  lemma LastStart(d: seq<byte>, p: nat)
    requires p <= |d| && d[p..] == START_CODE
    ensures forall q :: p < q ==> !Begins(d, q)
  {
  }

  // ---------------------------------------------------------------- printing and rescanning

  /** The bytes of a unit; empty for one that does not lie inside the data. */
  function Slice(d: seq<byte>, u: NalUnit): seq<byte> {
    if End(u) <= |d| then d[u.offset..End(u)] else []
  }

  function Slices(d: seq<byte>, us: seq<NalUnit>): (s: seq<seq<byte>>)
    ensures |s| == |us|
  {
    if us == [] then [] else [Slice(d, us[0])] + Slices(d, us[1..])
  }

  /** The contents of the units of a byte stream. */
  function Units(d: seq<byte>): seq<seq<byte>> {
    Slices(d, ScanFrom(d, 0))
  }

  /** Every unit behind a four-byte start code. */
  function Print(us: seq<seq<byte>>): seq<byte> {
    if us == [] then [] else START_CODE + us[0] + Print(us[1..])
  }

  /** No start code behind the header byte, not even one that ends the unit. */
  ghost predicate Sealed(u: seq<byte>) {
    |u| > 0 && forall j :: 1 <= j ==> !Start3(u, j)
  }

  /** The last unit may end in 00 00 01: the scanner wants a byte after it. */
  ghost predicate SealedLast(u: seq<byte>) {
    |u| > 0 && forall j :: 1 <= j ==> !CodeAt(u, j)
  }

  ghost predicate Printable(us: seq<seq<byte>>) {
    us == [] || (if |us| == 1 then SealedLast(us[0]) else Sealed(us[0]) && Printable(us[1..]))
  }

  lemma SliceSealed(d: seq<byte>, off: nat, next: nat)
    requires off < next <= |d| && forall r :: off < r < next ==> !CodeAt(d, r)
    ensures SealedLast(d[off..next])
    ensures next + 3 < |d| ==> Sealed(d[off..next])
  {
    var u := d[off..next];
    forall j: nat | 1 <= j ensures !CodeAt(u, j) {
      assert off + j < next ==> !CodeAt(d, off + j);
    }
    if next + 3 < |d| {
      forall j: nat | 1 <= j ensures !Start3(u, j) {
        assert off + j < next ==> !CodeAt(d, off + j);
      }
    }
  }

  lemma {:induction false} ScanPrintable(d: seq<byte>, at: nat, us: seq<NalUnit>)
    requires at <= |d| && Tiles(d, at, us) && NoCodeInside(d, us)
    ensures Printable(Slices(d, us))
    decreases |us|
  {
    if us != [] {
      var u := us[0];
      assert u in us;
      SliceSealed(d, u.offset, End(u));
      TilesStart(d, End(u), us[1..]);
      ScanPrintable(d, End(u), us[1..]);
      assert Slices(d, us)[1..] == Slices(d, us[1..]);
    }
  }

  /** `u` stands at `off` with the printed rest `b` behind it. */
  ghost predicate Stands(d: seq<byte>, off: nat, u: seq<byte>, b: seq<byte>) {
    off + |u| + |b| == |d| && d[off..off + |u|] == u && d[off + |u|..] == b &&
    (b == [] ==> SealedLast(u)) && (b != [] ==> Sealed(u) && |b| > 4 && b[..4] == START_CODE)
  }

  lemma InsideUnit(d: seq<byte>, off: nat, u: seq<byte>, b: seq<byte>, r: nat)
    requires Stands(d, off, u, b) && off < r < off + |u|
    ensures !CodeAt(d, r)
  {
    var j := r - off;
    assert d[r] == d[off..off + |u|][j];
    assert j + 1 < |u| ==> d[r + 1] == d[off..off + |u|][j + 1];
    assert j + 2 < |u| ==> d[r + 2] == d[off..off + |u|][j + 2];
    assert j + 3 < |u| ==> d[r + 3] == d[off..off + |u|][j + 3];
    if b == [] {
      assert !CodeAt(u, j);
    } else {
      assert b[0] == b[..4][0] && b[1] == b[..4][1] && b[2] == b[..4][2];
      assert d[off + |u|] == b[0] && d[off + |u| + 1] == b[1] && d[off + |u| + 2] == b[2];
      assert !Start3(u, j) && !Start3(u, j + 1);
    }
  }

  /** Behind `u`, the next start code is the one the printer put there. */
  lemma NextPrinted(d: seq<byte>, off: nat, u: seq<byte>, b: seq<byte>)
    requires Stands(d, off, u, b)
    ensures |u| > 0 && NextCode(d, off + 1) == off + |u|
  {
    forall r | off + 1 <= r < off + |u| ensures !CodeAt(d, r) {
      InsideUnit(d, off, u, b, r);
    }
    if b != [] {
      assert b[0] == b[..4][0] && b[1] == b[..4][1] && b[2] == b[..4][2] && b[3] == b[..4][3];
      var end := off + |u|;
      assert d[end] == b[0] && d[end + 1] == b[1] && d[end + 2] == b[2] && d[end + 3] == b[3];
    }
    NextCodeIs(d, off + 1, off + |u|);
  }

  lemma {:induction false} ScanPrinted(d: seq<byte>, i: nat, u: seq<byte>, b: seq<byte>, off: nat, next: nat)
    requires off == i + 4 <= |d| && d[i..off] == START_CODE && Stands(d, off, u, b) && next == off + |u|
    ensures off < next <= |d| && ScanFrom(d, i) == [UnitAt(d, off, next)] + ScanFrom(d, next)
    ensures Slice(d, UnitAt(d, off, next)) == u && d[next..] == b
  {
    NextPrinted(d, off, u, b);
    assert d[i] == d[i..off][0] && d[i + 1] == d[i..off][1] && d[i + 2] == d[i..off][2] && d[i + 3] == d[i..off][3];
    assert CodeAt(d, i) && CodeLength(d, i) == 4;
    assert ScanFrom(d, i) == ScanCode(d, i);
  }

  lemma SlicesCons(d: seq<byte>, u: NalUnit, rest: seq<NalUnit>)
    ensures Slices(d, [u] + rest) == [Slice(d, u)] + Slices(d, rest)
  {
    assert ([u] + rest)[1..] == rest;
  }

  lemma PrintFront(us: seq<seq<byte>>)
    requires us != [] && |us[0]| > 0
    ensures |Print(us)| > 4 && Print(us)[..4] == START_CODE
  {
  }

  lemma PrintStands(d: seq<byte>, i: nat, us: seq<seq<byte>>)
    requires us != [] && Printable(us) && i <= |d| && d[i..] == Print(us)
    ensures i + 4 <= |d| && d[i..i + 4] == START_CODE
    ensures Stands(d, i + 4, us[0], Print(us[1..])) && Printable(us[1..])
  {
    var u, b := us[0], Print(us[1..]);
    assert d[i..] == START_CODE + u + b;
    assert d[i..i + 4] == d[i..][..4];
    assert d[i + 4..i + 4 + |u|] == d[i..][4..4 + |u|];
    assert d[i + 4 + |u|..] == d[i..][4 + |u|..];
    if |us| > 1 { PrintFront(us[1..]); }
  }

  lemma RescanHead(d: seq<byte>, i: nat, us: seq<seq<byte>>, next: nat)
    requires us != [] && Printable(us) && i <= |d| && d[i..] == Print(us) && next == i + 4 + |us[0]|
    ensures Printable(us[1..]) && next <= |d| && d[next..] == Print(us[1..])
    ensures Slices(d, ScanFrom(d, i)) == [us[0]] + Slices(d, ScanFrom(d, next))
  {
    PrintStands(d, i, us);
    var off := i + 4;
    ScanPrinted(d, i, us[0], Print(us[1..]), off, next);
    SlicesCons(d, UnitAt(d, off, next), ScanFrom(d, next));
  }

  /** Rescanning what was printed behind any prefix gives the units back. */
  lemma {:induction false} Rescan(d: seq<byte>, i: nat, us: seq<seq<byte>>)
    requires Printable(us) && i <= |d| && d[i..] == Print(us)
    ensures Slices(d, ScanFrom(d, i)) == us
    decreases |us|
  {
    if us == [] {
      assert i == |d|;
    } else {
      var next := i + 4 + |us[0]|;
      RescanHead(d, i, us, next);
      Rescan(d, next, us[1..]);
      HeadTail(us);
    }
  }

  /** Printing and scanning undo each other exactly on the printable lists of units. */
  lemma RoundTripIff(us: seq<seq<byte>>)
    ensures Units(Print(us)) == us <==> Printable(us)
  {
    if Printable(us) {
      Rescan(Print(us), 0, us);
    }
    ScanTiles(Print(us), 0);
    ScanPrintable(Print(us), NextCode(Print(us), 0), ScanFrom(Print(us), 0));
  }

  /** Normalising every start code to four bytes keeps every unit, for every byte string. */
  lemma NormaliseKeepsUnits(d: seq<byte>)
    ensures Units(Print(Units(d))) == Units(d)
  {
    ScanTiles(d, 0);
    ScanPrintable(d, NextCode(d, 0), ScanFrom(d, 0));
    RoundTripIff(Units(d));
  }

  // ---------------------------------------------------------------- chunking

  /** The blob cut every `MAX_PAYLOAD` bytes. */
  function Chunks(s: seq<byte>): seq<seq<byte>>
    decreases |s|
  {
    if s == [] then [] else
    if |s| <= MAX_PAYLOAD then [s] else [s[..MAX_PAYLOAD]] + Chunks(s[MAX_PAYLOAD..])
  }

  method ChunkPayload(s: seq<byte>) returns (chunks: seq<seq<byte>>)
    ensures chunks == Chunks(s)
  {
    chunks := [];
    var off := 0;
    while off < |s|
      invariant off <= |s|
      invariant Chunks(s) == chunks + Chunks(s[off..])
    {
      var n := if |s| - off < MAX_PAYLOAD then |s| - off else MAX_PAYLOAD;
      var rest := s[off..];
      var piece := s[off..off + n];
      assert piece == rest[..n] && s[off + n..] == rest[n..];
      if n == |rest| { assert piece == rest; }
      Assoc(chunks, [piece], Chunks(rest[n..]));
      chunks := chunks + [piece];
      off := off + n;
    }
  }

  /** Chunks put back together are the blob. */
  lemma {:induction false} FlattenChunks(s: seq<byte>)
    ensures Flatten(Chunks(s)) == s
    decreases |s|
  {
    if 0 < |s| <= MAX_PAYLOAD {
      assert Chunks(s)[1..] == [];
      assert s + [] == s;
    } else if |s| > MAX_PAYLOAD {
      FlattenChunks(s[MAX_PAYLOAD..]);
      assert Chunks(s)[1..] == Chunks(s[MAX_PAYLOAD..]);
    }
  }

  /** True of the first chunk of a unit, as opposed to a continuation. */
  predicate StartsWithCode(p: seq<byte>) { Start4(p, 0) || Start3(p, 0) }
}
