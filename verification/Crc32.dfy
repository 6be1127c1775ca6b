/** CRC-32 (RFC 1952, section 8): the table-driven loop, the bit-serial register it stands
    for, and what the checksum detects. */
module Crc32 {
  import opened Wire

  const POLY: uint32 := 0xEDB88320
  const ALL_ONES: uint32 := 0xFFFF_FFFF
  const TOP_BIT := 0x8000_0000

  // ---------------------------------------------------------------- exclusive or

  /** Bitwise exclusive or of two unsigned integers. */
  function Xor(a: nat, b: nat): nat
    decreases a + b
  {
    if a == 0 && b == 0 then 0 else (if a % 2 == b % 2 then 0 else 1) + 2 * Xor(a / 2, b / 2)
  }

  lemma XorUnfold(a: nat, b: nat)
    ensures Xor(a, b) % 2 == if a % 2 == b % 2 then 0 else 1
    ensures Xor(a, b) / 2 == Xor(a / 2, b / 2)
  {
    LowBit(if a % 2 == b % 2 then 0 else 1, Xor(a / 2, b / 2));
  }

  lemma LowBit(bit: nat, x: nat)
    requires bit < 2
    ensures (bit + 2 * x) % 2 == bit && (bit + 2 * x) / 2 == x
  {
  }

  /** A word is determined by its low bit and the rest. */
  lemma SameBits(x: nat, y: nat)
    requires x % 2 == y % 2 && x / 2 == y / 2
    ensures x == y
  {
  }

  lemma {:induction false} XorComm(a: nat, b: nat)
    ensures Xor(a, b) == Xor(b, a)
    decreases a + b
  {
    if a + b > 0 { XorComm(a / 2, b / 2); }
  }

  lemma {:induction false} XorAssoc(a: nat, b: nat, c: nat)
    ensures Xor(Xor(a, b), c) == Xor(a, Xor(b, c))
    decreases a + b + c
  {
    if a + b + c > 0 {
      XorAssoc(a / 2, b / 2, c / 2);
      XorUnfold(a, b);
      XorUnfold(b, c);
      XorUnfold(Xor(a, b), c);
      XorUnfold(a, Xor(b, c));
      SameBits(Xor(Xor(a, b), c), Xor(a, Xor(b, c)));
    }
  }

  lemma {:induction false} XorZero(a: nat)
    ensures Xor(a, 0) == a && Xor(0, a) == a
  {
    if a > 0 { XorZero(a / 2); }
  }

  lemma {:induction false} XorSelf(a: nat)
    ensures Xor(a, a) == 0
  {
    if a > 0 { XorSelf(a / 2); }
  }

  function Pow2(n: nat): nat {
    if n == 0 then 1 else 2 * Pow2(n - 1)
  }

  lemma {:induction false} XorBound(a: nat, b: nat, n: nat)
    requires a < Pow2(n) && b < Pow2(n)
    ensures Xor(a, b) < Pow2(n)
    decreases n
  {
    if n > 0 { XorBound(a / 2, b / 2, n - 1); }
  }

  /** Cancellation: exclusive or with a fixed word is injective. */
  lemma XorCancel(a: nat, b: nat, c: nat)
    requires Xor(a, c) == Xor(b, c)
    ensures a == b
  {
    XorAssoc(a, c, c);
    XorAssoc(b, c, c);
    XorSelf(c);
    XorZero(a);
    XorZero(b);
  }

  lemma Pow2_32()
    ensures Pow2(32) == TWO_32
  {
    assert Pow2(8) == 256;
    assert Pow2(16) == 65536;
    assert Pow2(24) == 16777216;
  }

  /** The `^` of the code: exclusive or on 32-bit words. */
  function Xor32(a: uint32, b: uint32): (r: uint32)
    ensures r == Xor(a, b)
  {
    Pow2_32();
    XorBound(a, b, 32);
    Xor(a, b)
  }

  // ---------------------------------------------------------------- bit-serial reference

  /** One clock of a reflected shift register with `bit` fed in at the low end. */
  function ClockWith(poly: uint32, c: uint32, bit: nat): uint32 {
    if c % 2 != bit % 2 then Xor32(poly, c / 2) else c / 2
  }

  function Clock(c: uint32, bit: nat): uint32 { ClockWith(POLY, c, bit) }

  /** Clocks in the `n` low bits of `b`, least significant first. */
  function ClockBits(c: uint32, b: nat, n: nat): uint32
    decreases n
  {
    if n == 0 then c else ClockBits(Clock(c, b % 2), b / 2, n - 1)
  }

  function ClockByte(c: uint32, b: byte): uint32 { ClockBits(c, b, 8) }

  /** The register after a whole message, `m` bits of every symbol clocked in. */
  function RegisterBy(c: uint32, data: seq<byte>, m: nat): uint32
    decreases |data|
  {
    if data == [] then c else RegisterBy(ClockBits(c, data[0], m), data[1..], m)
  }

  /** The register after a whole message, bit by bit. */
  function Register(c: uint32, data: seq<byte>): uint32 { RegisterBy(c, data, 8) }

  /** The checksum of RFC 1952: preset to all ones and complemented at the end. */
  function Checksum(data: seq<byte>): uint32 {
    Xor32(Register(ALL_ONES, data), ALL_ONES)
  }

  lemma {:induction false} RegisterByAppend(c: uint32, a: seq<byte>, b: seq<byte>, m: nat)
    ensures RegisterBy(c, a + b, m) == RegisterBy(RegisterBy(c, a, m), b, m)
    decreases |a|
  {
    if a == [] {
      assert a + b == b;
    } else {
      assert (a + b)[1..] == a[1..] + b;
      RegisterByAppend(ClockBits(c, a[0], m), a[1..], b, m);
    }
  }

  lemma RegisterByOne(c: uint32, b: byte, m: nat)
    ensures RegisterBy(c, [b], m) == ClockBits(c, b, m)
  {
    assert [b][1..] == [];
  }

  // ---------------------------------------------------------------- the table

  /** `n` clocks with no input: the inner loop of the table builder. */
  function Shift(c: uint32, n: nat): uint32
    decreases n
  {
    if n == 0 then c else Shift(Clock(c, 0), n - 1)
  }

  /** The first `size` words of the table for `n` clocks. */
  ghost predicate Entries(t: seq<uint32>, size: nat, n: nat) {
    size <= |t| <= 256 && forall k :: 0 <= k < size ==> t[k] == Shift(k, n)
  }

  ghost predicate IsTable(t: seq<uint32>) { |t| == 256 && Entries(t, 256, 8) }

  lemma {:induction false} ShiftSnoc(c: uint32, n: nat)
    ensures Shift(c, n + 1) == Clock(Shift(c, n), 0)
    decreases n
  {
    if n > 0 { ShiftSnoc(Clock(c, 0), n - 1); }
  }

  lemma EntriesMore(t: seq<uint32>, size: nat, n: nat)
    requires Entries(t, size, n) && size < |t|
    ensures Entries(t[size := Shift(size, n)], size + 1, n)
  {
  }

  method BuildTable() returns (t: array<uint32>)
    ensures fresh(t) && IsTable(t[..])
  {
    t := FillTable(8);
  }

  /** The outer loop of the table builder, for `bits` clocks a word. */
  method FillTable(bits: nat) returns (t: array<uint32>)
    ensures fresh(t) && t.Length == 256 && Entries(t[..], 256, bits)
  {
    t := new uint32[256];
    for i := 0 to 256
      invariant Entries(t[..], i, bits)
    {
      EntriesMore(t[..], i, bits);
      t[i] := TableEntry(i, bits);
    }
  }

  /** The inner loop of the table builder. */
  method TableEntry(i: uint32, bits: nat) returns (c: uint32)
    ensures c == Shift(i, bits)
  {
    c := i;
    for j := 0 to bits
      invariant c == Shift(i, j)
    {
      ShiftSnoc(i, j);
      c := if c % 2 == 1 then Xor32(POLY, c / 2) else c / 2;
    }
  }

  /** Feeding a bit is the same as first exclusive-oring it into the register. */
  lemma ClockXor(c: uint32, b: uint32)
    ensures Clock(Xor32(c, b), 0) == Xor32(Clock(c, b % 2), b / 2)
  {
    ClockWithXor(POLY, c, b);
  }

  lemma ClockWithXor(poly: uint32, c: uint32, b: uint32)
    ensures ClockWith(poly, Xor32(c, b), 0) == Xor32(ClockWith(poly, c, b % 2), b / 2)
  {
    XorUnfold(c, b);
    XorAssoc(poly, c / 2, b / 2);
  }

  lemma {:induction false} ShiftIsClockBits(c: uint32, b: uint32, n: nat)
    requires b < Pow2(n)
    ensures Shift(Xor32(c, b), n) == ClockBits(c, b, n)
    decreases n
  {
    if n == 0 {
      XorZero(c);
    } else {
      ClockXor(c, b);
      ShiftIsClockBits(Clock(c, b % 2), b / 2, n - 1);
    }
  }

  /** The shift register is linear over exclusive or. */
  lemma ClockLinear(a: uint32, b: uint32)
    ensures Clock(Xor32(a, b), 0) == Xor32(Clock(a, 0), Clock(b, 0))
  {
    ClockWithLinear(POLY, a, b);
  }

  lemma ClockWithLinear(poly: uint32, a: uint32, b: uint32)
    ensures ClockWith(poly, Xor32(a, b), 0) == Xor32(ClockWith(poly, a, 0), ClockWith(poly, b, 0))
  {
    XorUnfold(a, b);
    var x, y := a / 2, b / 2;
    XorAssoc(poly, x, y);
    XorAssoc(x, poly, y);
    XorComm(x, poly);
    XorAssoc(Xor(poly, x), poly, y);
    XorComm(Xor(poly, x), poly);
    XorAssoc(poly, poly, x);
    XorSelf(poly);
    XorZero(x);
  }

  lemma {:induction false} ShiftLinear(a: uint32, b: uint32, n: nat)
    ensures Shift(Xor32(a, b), n) == Xor32(Shift(a, n), Shift(b, n))
    decreases n
  {
    if n > 0 {
      ClockLinear(a, b);
      ShiftLinear(Clock(a, 0), Clock(b, 0), n - 1);
    }
  }

  /** `x` with `n` zero bits below it. */
  function Up(x: nat, n: nat): nat {
    if n == 0 then x else 2 * Up(x, n - 1)
  }

  /** A clock of an even register only shifts. */
  lemma ClockEven(x: nat)
    requires 2 * x < TWO_32
    ensures Clock(2 * x, 0) == x
  {
    LowBit(0, x);
  }

  lemma {:induction false} ShiftUp(h: uint32, n: nat)
    requires Up(h, n) < TWO_32
    ensures Shift(Up(h, n), n) == h
  {
    if n > 0 {
      ClockEven(Up(h, n - 1));
      ShiftUp(h, n - 1);
    }
  }

  lemma XorEven(l: nat, x: nat)
    ensures Xor(l, 2 * x) == l % 2 + 2 * Xor(l / 2, x)
  {
    LowBit(0, x);
  }

  /** Bits that do not overlap add up. */
  lemma {:induction false} XorUp(h: nat, l: nat, n: nat)
    requires l < Pow2(n)
    ensures Xor(l, Up(h, n)) == l + Up(h, n)
    decreases n
  {
    if n == 0 {
      XorZero(h);
    } else {
      XorUp(h, l / 2, n - 1);
      XorEven(l, Up(h, n - 1));
    }
  }

  /** `x` without its `n` lowest bits. */
  function Shr(x: nat, n: nat): nat {
    if n == 0 then x else Shr(x / 2, n - 1)
  }

  lemma {:induction false} XorShr(a: nat, b: nat, n: nat)
    ensures Shr(Xor(a, b), n) == Xor(Shr(a, n), Shr(b, n))
    decreases n
  {
    if n > 0 {
      XorUnfold(a, b);
      XorShr(a / 2, b / 2, n - 1);
    }
  }

  lemma {:induction false} ShrNothing(b: nat, n: nat)
    requires b < Pow2(n)
    ensures Shr(b, n) == 0
  {
    if n > 0 { ShrNothing(b / 2, n - 1); }
  }

  /** Exclusive or with `n` low bits leaves the bits above them alone. */
  lemma HighBits(c: nat, b: nat, n: nat)
    requires b < Pow2(n)
    ensures Shr(Xor(c, b), n) == Shr(c, n)
  {
    XorShr(c, b, n);
    ShrNothing(b, n);
    XorZero(Shr(c, n));
  }

  /** `n` clocks turn the low bits into a table word and leave the others shifted. */
  lemma ShiftSplit(x: uint32, l: uint32, h: uint32, n: nat)
    requires l < Pow2(n) && x == l + Up(h, n)
    ensures Shift(x, n) == Xor32(Shift(l, n), h)
  {
    XorUp(h, l, n);
    ShiftLinear(l, Up(h, n), n);
    ShiftUp(h, n);
  }

  lemma BytesOf(x: nat)
    ensures Shr(x, 8) == x / 256 && Up(x / 256, 8) == 256 * (x / 256) && Pow2(8) == 256
  {
    EightHalves(x);
    UpTwo(x / 256, 8);
    UpTwo(x / 256, 6);
    UpTwo(x / 256, 4);
    UpTwo(x / 256, 2);
    ShrTwo(x, 8);
    ShrTwo(x / 2 / 2, 6);
    ShrTwo(x / 2 / 2 / 2 / 2, 4);
    ShrTwo(x / 2 / 2 / 2 / 2 / 2 / 2, 2);
  }

  lemma UpTwo(x: nat, n: nat)
    requires n >= 2
    ensures Up(x, n) == 4 * Up(x, n - 2)
  {
    assert Up(x, n) == 2 * Up(x, n - 1) == 4 * Up(x, n - 2);
  }

  lemma ShrTwo(x: nat, n: nat)
    requires n >= 2
    ensures Shr(x, n) == Shr(x / 2 / 2, n - 2)
  {
    assert Shr(x, n) == Shr(x / 2, n - 1) == Shr(x / 2 / 2, n - 2);
  }

  lemma EightHalves(x: nat)
    ensures x / 2 / 2 / 2 / 2 / 2 / 2 / 2 / 2 == x / 256
  {
    assert x / 2 / 2 == x / 4;
    assert x / 4 / 2 / 2 == x / 16;
    assert x / 16 / 2 / 2 == x / 64;
  }

  /** One iteration of the byte loop is eight clocks of the register. */
  lemma TableStep(c: uint32, b: byte)
    ensures Xor32(Shift(Xor32(c, b) % 256, 8), c / 256) == ClockByte(c, b)
  {
    var x := Xor32(c, b);
    BytesOf(x);
    BytesOf(c);
    HighBits(c, b, 8);
    ShiftSplit(x, x % 256, x / 256, 8);
    ShiftIsClockBits(c, b, 8);
  }

  /** The byte loop of the code, on the table it uses. */
  method Compute(data: seq<byte>, t: array<uint32>) returns (sum: uint32)
    requires IsTable(t[..])
    ensures sum == Checksum(data)
  {
    var c := ALL_ONES;
    for i := 0 to |data|
      invariant c == Register(ALL_ONES, data[..i])
    {
      assert data[..i + 1] == data[..i] + [data[i]];
      RegisterByAppend(ALL_ONES, data[..i], [data[i]], 8);
      RegisterByOne(c, data[i], 8);
      TableStep(c, data[i]);
      c := Xor32(t[..][Xor32(c, data[i]) % 256], c / 256);
    }
    assert data[..|data|] == data;
    sum := Xor32(c, ALL_ONES);
  }

  // ---------------------------------------------------------------- detection

  /** A clock loses nothing: the feedback polynomial has its top bit set. */
  lemma ClockInjective(a: uint32, b: uint32)
    requires Clock(a, 0) == Clock(b, 0)
    ensures a == b
  {
    ClockWithInjective(POLY, a, b);
  }

  lemma ClockWithInjective(poly: uint32, a: uint32, b: uint32)
    requires poly >= TOP_BIT && ClockWith(poly, a, 0) == ClockWith(poly, b, 0)
    ensures a == b
  {
    var x, y := a / 2, b / 2;
    if a % 2 == b % 2 {
      if a % 2 == 1 {
        XorComm(poly, x);
        XorComm(poly, y);
        XorCancel(x, y, poly);
      }
      SameBits(a, b);
    } else if a % 2 == 1 {
      FeedbackVisible(poly, x, y);
    } else {
      FeedbackVisible(poly, y, x);
    }
  }

  lemma FeedbackVisible(poly: nat, x: nat, y: nat)
    requires x < TOP_BIT <= poly && y < TOP_BIT
    ensures Xor(poly, x) != y
  {
    if Xor(poly, x) == y {
      XorAssoc(poly, x, x);
      XorSelf(x);
      XorZero(poly);
      Pow2_32();
      assert Pow2(31) == TOP_BIT;
      XorBound(y, x, 31);
    }
  }

  lemma {:induction false} ShiftInjective(a: uint32, b: uint32, n: nat)
    requires Shift(a, n) == Shift(b, n)
    ensures a == b
    decreases n
  {
    if n > 0 {
      ShiftInjective(Clock(a, 0), Clock(b, 0), n - 1);
      ClockInjective(a, b);
    }
  }

  /** The register after `n` bits gives back the register before them. */
  lemma ClockBitsInjective(c: uint32, d: uint32, b: uint32, n: nat)
    requires b < Pow2(n) && ClockBits(c, b, n) == ClockBits(d, b, n)
    ensures c == d
  {
    ShiftIsClockBits(c, b, n);
    ShiftIsClockBits(d, b, n);
    ShiftInjective(Xor32(c, b), Xor32(d, b), n);
    XorCancel(c, d, b);
  }

  /** The register after `n` bits gives back the bits. */
  lemma BitsInjective(c: uint32, v: uint32, w: uint32, n: nat)
    requires v < Pow2(n) && w < Pow2(n) && ClockBits(c, v, n) == ClockBits(c, w, n)
    ensures v == w
  {
    ShiftIsClockBits(c, v, n);
    ShiftIsClockBits(c, w, n);
    ShiftInjective(Xor32(c, v), Xor32(c, w), n);
    XorComm(c, v);
    XorComm(c, w);
    XorCancel(v, w, c);
  }

  lemma {:induction false} RegisterInjective(c: uint32, d: uint32, data: seq<byte>, m: nat)
    requires Pow2(m) == 256 && RegisterBy(c, data, m) == RegisterBy(d, data, m)
    ensures c == d
    decreases |data|
  {
    if data != [] {
      RegisterInjective(ClockBits(c, data[0], m), ClockBits(d, data[0], m), data[1..], m);
      ClockBitsInjective(c, d, data[0], m);
    }
  }

  /** Clocking in `x` and then `y` is clocking in the two side by side. */
  lemma {:induction false} ClockBitsJoin(c: uint32, x: nat, m: nat, y: nat, n: nat)
    requires x < Pow2(m)
    ensures ClockBits(ClockBits(c, x, m), y, n) == ClockBits(c, x + Up(y, m), m + n)
    decreases m
  {
    if m > 0 {
      ClockBitsJoin(Clock(c, x % 2), x / 2, m - 1, y, n);
      AddEven(x, Up(y, m - 1));
    }
  }

  lemma AddEven(x: nat, half: nat)
    ensures (x + 2 * half) % 2 == x % 2 && (x + 2 * half) / 2 == x / 2 + half
  {
  }

  /** The bits of `d`, `m` to a symbol. */
  function Width(d: seq<byte>, m: nat): nat {
    if d == [] then 0 else m + Width(d[1..], m)
  }

  /** The symbols of `d` side by side, the first one lowest. */
  function LittleEndian(d: seq<byte>, m: nat): nat {
    if d == [] then 0 else d[0] + Up(LittleEndian(d[1..], m), m)
  }

  /** A byte string is clocked in as one little-endian word. */
  lemma {:induction false} RegisterIsWord(c: uint32, d: seq<byte>, m: nat)
    requires Pow2(m) == 256
    ensures RegisterBy(c, d, m) == ClockBits(c, LittleEndian(d, m), Width(d, m))
    decreases |d|
  {
    if d != [] {
      RegisterIsWord(ClockBits(c, d[0], m), d[1..], m);
      ClockBitsJoin(c, d[0], m, LittleEndian(d[1..], m), Width(d[1..], m));
    }
  }

  lemma {:induction false} JoinBound(x: nat, m: nat, y: nat, n: nat)
    requires x < Pow2(m) && y < Pow2(n)
    ensures x + Up(y, m) < Pow2(m + n)
    decreases m
  {
    if m > 0 { JoinBound(x / 2, m - 1, y, n); }
  }

  lemma {:induction false} LittleEndianBound(d: seq<byte>, m: nat)
    requires Pow2(m) == 256
    ensures LittleEndian(d, m) < Pow2(Width(d, m))
  {
    if d != [] {
      LittleEndianBound(d[1..], m);
      JoinBound(d[0], m, LittleEndian(d[1..], m), Width(d[1..], m));
    }
  }

  lemma {:induction false} LowSymbol(a: nat, b: nat, x: nat, y: nat, m: nat)
    requires a < Pow2(m) && b < Pow2(m) && a + Up(x, m) == b + Up(y, m)
    ensures a == b && x == y
    decreases m
  {
    if m > 0 {
      AddEven(a, Up(x, m - 1));
      AddEven(b, Up(y, m - 1));
      LowSymbol(a / 2, b / 2, x, y, m - 1);
      SameBits(a, b);
    }
  }

  lemma {:induction false} LittleEndianInjective(d: seq<byte>, e: seq<byte>, m: nat)
    requires Pow2(m) == 256 && |d| == |e| && LittleEndian(d, m) == LittleEndian(e, m)
    ensures d == e
  {
    if d != [] {
      LowSymbol(d[0], e[0], LittleEndian(d[1..], m), LittleEndian(e[1..], m), m);
      LittleEndianInjective(d[1..], e[1..], m);
      assert d == [d[0]] + d[1..] && e == [e[0]] + e[1..];
    }
  }

  lemma {:induction false} WidthByLength(d: seq<byte>, e: seq<byte>, m: nat)
    requires |d| == |e|
    ensures Width(d, m) == Width(e, m)
  {
    if d != [] { WidthByLength(d[1..], e[1..], m); }
  }

  /** As many bytes as the register is wide can be recovered from the register they lead to. */
  lemma WordInjective(c: uint32, d: seq<byte>, e: seq<byte>, m: nat)
    requires Pow2(m) == 256 && |d| == |e| && Pow2(Width(d, m)) <= TWO_32
    requires RegisterBy(c, d, m) == RegisterBy(c, e, m)
    ensures d == e
  {
    WidthByLength(d, e, m);
    LittleEndianBound(d, m);
    LittleEndianBound(e, m);
    RegisterIsWord(c, d, m);
    RegisterIsWord(c, e, m);
    BitsInjective(c, LittleEndian(d, m), LittleEndian(e, m), Width(d, m));
    LittleEndianInjective(d, e, m);
  }

  lemma FourBytes(d: seq<byte>, m: nat)
    requires |d| == 4
    ensures Width(d, m) == 4 * m
  {
    assert Width(d, m) == m + Width(d[1..], m) == 2 * m + Width(d[2..], m);
    assert Width(d[2..], m) == m + Width(d[3..], m) == 2 * m;
  }

  /** Four bytes in the middle of a message can be recovered from the register at its end. */
  lemma MiddleInjective(c: uint32, wa: seq<byte>, wb: seq<byte>, rest: seq<byte>)
    requires |wa| == |wb| == 4 && Register(c, wa + rest) == Register(c, wb + rest)
    ensures wa == wb
  {
    assert Pow2(8) == 256;
    Pow2_32();
    RegisterByAppend(c, wa, rest, 8);
    RegisterByAppend(c, wb, rest, 8);
    RegisterInjective(Register(c, wa), Register(c, wb), rest, 8);
    FourBytes(wa, 8);
    WordInjective(c, wa, wb, 8);
  }

  lemma BurstInjective(front: seq<byte>, wa: seq<byte>, wb: seq<byte>, rest: seq<byte>)
    requires |wa| == |wb| == 4 && Checksum(front + (wa + rest)) == Checksum(front + (wb + rest))
    ensures wa == wb
  {
    var c := Register(ALL_ONES, front);
    RegisterByAppend(ALL_ONES, front, wa + rest, 8);
    RegisterByAppend(ALL_ONES, front, wb + rest, 8);
    XorCancel(Register(c, wa + rest), Register(c, wb + rest), ALL_ONES);
    MiddleInjective(c, wa, wb, rest);
  }

  /** Every error confined to four consecutive bytes changes the checksum. */
  lemma BurstChangesChecksum(a: seq<byte>, b: seq<byte>, k: nat)
    requires |a| == |b| && k + 4 <= |a|
    requires a[..k] == b[..k] && a[k + 4..] == b[k + 4..]
    requires a != b
    ensures Checksum(a) != Checksum(b)
  {
    var wa, wb, rest := a[k..k + 4], b[k..k + 4], a[k + 4..];
    assert a == a[..k] + (wa + rest) && b == a[..k] + (wb + rest);
    if Checksum(a) == Checksum(b) { BurstInjective(a[..k], wa, wb, rest); }
  }

  // ---------------------------------------------------------------- check values

  /** The word of `n` one bits. */
  function OneBits(n: nat): nat { if n == 0 then 0 else 1 + 2 * OneBits(n - 1) }

  lemma {:induction false} OneBitsGrow(m: nat, n: nat)
    requires m <= n
    ensures OneBits(m) <= OneBits(n)
    decreases n - m
  {
    if m < n { OneBitsGrow(m, n - 1); }
  }

  lemma WordOfOnes()
    ensures OneBits(32) == ALL_ONES
  {
    assert OneBits(8) == 0xFF;
    assert OneBits(16) == 0xFFFF;
    assert OneBits(24) == 0xFF_FFFF;
  }

  /** Exclusive or with one bits complements. */
  lemma {:induction false} XorOnes(a: nat, n: nat)
    requires a <= OneBits(n)
    ensures Xor(a, OneBits(n)) == OneBits(n) - a
    decreases n
  {
    if n > 0 {
      LowBit(1, OneBits(n - 1));
      XorOnes(a / 2, n - 1);
      XorUnfold(a, OneBits(n));
      SameBits(Xor(a, OneBits(n)), OneBits(n) - a);
    }
  }

  lemma Complement(c: uint32)
    ensures Xor32(c, ALL_ONES) == ALL_ONES - c
  {
    WordOfOnes();
    XorOnes(c, 32);
  }

  /** A register of one bits, fed one bits, empties from the top. */
  lemma {:induction false} OnesOut(c: uint32, b: nat, m: nat, n: nat)
    requires c == OneBits(m + n) && b == OneBits(n)
    ensures ClockBits(c, b, n) == OneBits(m)
    decreases n
  {
    if n > 0 {
      LowBit(1, OneBits(m + n - 1));
      LowBit(1, OneBits(n - 1));
      OnesOut(c / 2, b / 2, m, n - 1);
    }
  }

  predicate Ones(d: seq<byte>) { forall k :: 0 <= k < |d| ==> d[k] == 0xFF }

  lemma {:induction false} OnesFed(c: uint32, d: seq<byte>)
    requires Ones(d) && c == OneBits(8 * |d|)
    ensures Register(c, d) == 0
    decreases |d|
  {
    if d != [] {
      assert OneBits(8) == 0xFF;
      OnesOut(c, d[0], 8 * |d| - 8, 8);
      OnesFed(ClockBits(c, d[0], 8), d[1..]);
    }
  }

  lemma LastBitFed()
    ensures ClockBits(0, 0x80, 8) == 0xEDB8_8320
  {
    XorZero(POLY);
    assert ClockBits(0, 0x80, 8) == ClockBits(0, 1, 1);
  }

  /** Check values of the standard checksum: nothing, four bytes FF, and these with 80 after them. */
  lemma CheckValues(d: seq<byte>)
    requires |d| == 4 && Ones(d)
    ensures Checksum([]) == 0 && Checksum(d) == 0xFFFF_FFFF && Checksum(d + [0x80]) == 0x1247_7CDF
  {
    WordOfOnes();
    Complement(ALL_ONES);
    OnesFed(ALL_ONES, d);
    Complement(0);
    RegisterByAppend(ALL_ONES, d, [0x80], 8);
    RegisterByOne(0, 0x80, 8);
    LastBitFed();
    Complement(0xEDB8_8320);
  }
}
