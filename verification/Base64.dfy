/** The base-64 encoder of the dashboard feed, against RFC 4648, section 4. Its accumulator is
    a 32-bit integer that is never masked and so overflows; only its low bits are used. */
module Base64 {
  import opened Wire

  // ---------------------------------------------------------------- the standard

  /** The character for a 6-bit value: table 1 of RFC 4648. */
  function Letter(v: int): char
    requires 0 <= v < 64
  {
    if v < 26 then 'A' + v as char
    else if v < 52 then 'a' + (v - 26) as char
    else if v < 62 then '0' + (v - 52) as char
    else if v == 62 then '+' else '/'
  }

  function ValueOf(c: char): Option<int> {
    if 'A' <= c <= 'Z' then Some(c as int - 'A' as int)
    else if 'a' <= c <= 'z' then Some(c as int - 'a' as int + 26)
    else if '0' <= c <= '9' then Some(c as int - '0' as int + 52)
    else if c == '+' then Some(62)
    else if c == '/' then Some(63)
    else None
  }

  lemma ValueOfLetter(v: int)
    requires 0 <= v < 64
    ensures ValueOf(Letter(v)) == Some(v) && Letter(v) != '='
  {
  }

  function Group(a: byte, b: byte, c: byte): string {
    [Letter(a / 4), Letter(a % 4 * 16 + b / 16), Letter(b % 16 * 4 + c / 64), Letter(c % 64)]
  }

  /** What is left of an incomplete group, padded. */
  function Tail(d: seq<byte>): string
    requires |d| < 3
  {
    if |d| == 0 then ""
    else if |d| == 1 then [Letter(d[0] / 4), Letter(d[0] % 4 * 16), '=', '=']
    else [Letter(d[0] / 4), Letter(d[0] % 4 * 16 + d[1] / 16), Letter(d[1] % 16 * 4), '=']
  }

  /** The encoding of RFC 4648, section 4: 24 bits at a time. */
  function Encoding(d: seq<byte>): string {
    if |d| < 3 then Tail(d) else Group(d[0], d[1], d[2]) + Encoding(d[3..])
  }

  /** How many groups of three bytes, complete or not. */
  function Groups(d: seq<byte>): nat {
    if |d| == 0 then 0 else if |d| < 3 then 1 else 1 + Groups(d[3..])
  }

  /** The encoding consists of whole groups of four characters. */
  lemma {:induction false} EncodingLength(d: seq<byte>)
    ensures |Encoding(d)| == 4 * Groups(d)
  {
    if |d| >= 3 { EncodingLength(d[3..]); }
  }

  function DecodeGroup(s: string): Option<seq<byte>>
    requires |s| == 4
  {
    var v, w := ValueOf(s[0]), ValueOf(s[1]);
    var x, y := ValueOf(s[2]), ValueOf(s[3]);
    if v.None? || w.None? then None
    else if x.None? then if s[2] == '=' && s[3] == '=' then Some([v.value * 4 + w.value / 16]) else None
    else if y.None? then
      if s[3] == '=' then Some([v.value * 4 + w.value / 16, w.value % 16 * 16 + x.value / 4]) else None
    else Some([v.value * 4 + w.value / 16, w.value % 16 * 16 + x.value / 4, x.value % 4 * 64 + y.value])
  }

  function Decoding(s: string): Option<seq<byte>> {
    if s == "" then Some([])
    else if |s| < 4 then None
    else
      var head, rest := DecodeGroup(s[..4]), Decoding(s[4..]);
      if head.None? || rest.None? then None else Some(head.value + rest.value)
  }

  lemma DecodeGroupGroup(a: byte, b: byte, c: byte)
    ensures DecodeGroup(Group(a, b, c)) == Some([a, b, c])
  {
    var x: int, y: int, z: int := a, b, c;
    assert x / 4 * 4 + (x % 4 * 16 + y / 16) / 16 == x;
    assert (x % 4 * 16 + y / 16) % 16 * 16 + (y % 16 * 4 + z / 64) / 4 == y;
    assert (y % 16 * 4 + z / 64) % 4 * 64 + z % 64 == z;
    ValueOfLetter(a / 4);
    ValueOfLetter(a % 4 * 16 + b / 16);
    ValueOfLetter(b % 16 * 4 + c / 64);
    ValueOfLetter(c % 64);
  }

  lemma DecodeOne(a: byte)
    ensures DecodeGroup([Letter(a / 4), Letter(a % 4 * 16), '=', '=']) == Some([a])
  {
    ValueOfLetter(a / 4);
    ValueOfLetter(a % 4 * 16);
    assert a / 4 * 4 + (a % 4 * 16) / 16 == a;
  }

  lemma DecodeTwo(a: byte, b: byte)
    ensures DecodeGroup([Letter(a / 4), Letter(a % 4 * 16 + b / 16), Letter(b % 16 * 4), '=']) == Some([a, b])
  {
    ValueOfLetter(a / 4);
    ValueOfLetter(a % 4 * 16 + b / 16);
    ValueOfLetter(b % 16 * 4);
    var x: int, y: int := a, b;
    assert x / 4 * 4 + (x % 4 * 16 + y / 16) / 16 == x;
    assert (x % 4 * 16 + y / 16) % 16 * 16 + (y % 16 * 4) / 4 == y;
  }

  lemma DecodeTail(d: seq<byte>)
    requires 0 < |d| < 3
    ensures |Tail(d)| == 4 && DecodeGroup(Tail(d)) == Some(d)
  {
    if |d| == 1 {
      DecodeOne(d[0]);
      assert d == [d[0]];
    } else {
      DecodeTwo(d[0], d[1]);
      assert d == [d[0], d[1]];
    }
  }

  /** Decoding undoes encoding for every byte string. */
  lemma {:induction false} DecodesBack(d: seq<byte>)
    ensures Decoding(Encoding(d)) == Some(d)
    decreases |d|
  {
    if |d| == 0 {
    } else if |d| < 3 {
      DecodeTail(d);
      assert Tail(d)[..4] == Tail(d) && Tail(d)[4..] == "";
      assert d + [] == d;
    } else {
      var g := Group(d[0], d[1], d[2]);
      DecodeGroupGroup(d[0], d[1], d[2]);
      DecodesBack(d[3..]);
      assert Encoding(d)[..4] == g && Encoding(d)[4..] == Encoding(d[3..]);
      assert [d[0], d[1], d[2]] + d[3..] == d;
    }
  }

  // ---------------------------------------------------------------- test vectors

  /** The bytes of "foobar". */
  const FOOBAR: seq<byte> := [0x66, 0x6F, 0x6F, 0x62, 0x61, 0x72]

  lemma ShortVectors()
    ensures Encoding(FOOBAR[..0]) == "" && Encoding(FOOBAR[..1]) == "Zg==" && Encoding(FOOBAR[..2]) == "Zm8="
    ensures Encoding(FOOBAR[..3]) == "Zm9v"
  {
    assert FOOBAR[..3][3..] == [];
  }

  lemma EndVectors()
    ensures Encoding(FOOBAR[3..4]) == "Yg==" && Encoding(FOOBAR[3..5]) == "YmE=" && Encoding(FOOBAR[3..6]) == "YmFy"
  {
    assert FOOBAR[3..6][3..] == [];
  }

  lemma FirstVector(k: nat)
    requires 3 <= k <= 6
    ensures Encoding(FOOBAR[..k]) == "Zm9v" + Encoding(FOOBAR[3..k])
  {
    assert FOOBAR[..k][3..] == FOOBAR[3..k];
  }

  /** The test vectors of RFC 4648, section 10. */
  lemma Vectors()
    ensures Encoding(FOOBAR[..0]) == "" && Encoding(FOOBAR[..1]) == "Zg==" && Encoding(FOOBAR[..2]) == "Zm8="
    ensures Encoding(FOOBAR[..3]) == "Zm9v" && Encoding(FOOBAR[..4]) == "Zm9vYg==" && Encoding(FOOBAR[..5]) == "Zm9vYmE="
    ensures Encoding(FOOBAR[..6]) == "Zm9vYmFy"
  {
    ShortVectors();
    EndVectors();
    FirstVector(4);
    FirstVector(5);
    FirstVector(6);
  }

  /** The alphabet in character codes: A to Z, a to z, 0 to 9, plus and slash. */
  lemma Alphabet(v: int)
    requires 0 <= v < 64
    ensures Letter(v) as int ==
      if v <= 25 then 65 + v else if v <= 51 then 97 + v - 26 else if v <= 61 then 48 + v - 52 else if v == 62 then 43 else 47
  {
  }

  // ---------------------------------------------------------------- the encoder

  /** `x >> n` of a signed integer, and `x << n` before it is cut to 32 bits. */
  function Shr(x: int, n: nat): int
    decreases n
  {
    if n == 0 then x else Shr(x / 2, n - 1)
  }

  function Shl(x: int, n: nat): int
    decreases n
  {
    if n == 0 then x else Shl(2 * x, n - 1)
  }

  lemma ShrIs(x: int)
    ensures Shr(x, 0) == x && Shr(x, 2) == x / 4 && Shr(x, 4) == x / 16 && Shr(x, 6) == x / 64
  {
    assert Shr(x, 2) == Shr(x / 2, 1) == x / 2 / 2;
    ShrTwo(x, 4);
    ShrTwo(x / 4, 2);
    ShrTwo(x, 6);
    ShrTwo(x / 4, 4);
    ShrTwo(x / 16, 2);
  }

  lemma ShrTwo(x: int, n: nat)
    requires n >= 2
    ensures Shr(x, n) == Shr(x / 4, n - 2)
  {
    assert Shr(x, n) == Shr(x / 2, n - 1) == Shr(x / 2 / 2, n - 2);
    assert x / 2 / 2 == x / 4;
  }

  /** A 32-bit two's complement integer. */
  function Wrap32(x: int): int {
    if x % TWO_32 < TWO_32 / 2 then x % TWO_32 else x % TWO_32 - TWO_32
  }

  /** Wrapping adds a multiple of 2^32. */
  lemma WrapIs(x: int) returns (k: int)
    ensures Wrap32(x) == x + k * TWO_32
  {
    k := -(x / TWO_32) - if x % TWO_32 < TWO_32 / 2 then 0 else 1;
  }

  /** The characters out once the bytes are read: the complete 6-bit groups. */
  function Emitted(d: seq<byte>): string {
    if |d| == 0 then ""
    else if |d| == 1 then [Letter(d[0] / 4)]
    else if |d| == 2 then [Letter(d[0] / 4), Letter(d[0] % 4 * 16 + d[1] / 16)]
    else Group(d[0], d[1], d[2]) + Emitted(d[3..])
  }

  /** What one more byte completes, `last` being the byte before it. */
  function Completed(r: nat, last: byte, c: byte): string
    requires r < 3
  {
    if r == 0 then [Letter(c / 4)]
    else if r == 1 then [Letter(last % 4 * 16 + c / 16)]
    else [Letter(last % 16 * 4 + c / 64), Letter(c % 64)]
  }

  lemma ThreeLess(n: nat)
    requires n >= 3
    ensures (n - 3) % 3 == n % 3
  {
  }

  lemma {:induction false} EmittedSnoc(d: seq<byte>, c: byte, r: nat, last: byte)
    requires r == |d| % 3 && (r > 0 ==> last == d[|d| - 1])
    ensures Emitted(d + [c]) == Emitted(d) + Completed(r, last, c)
    decreases |d|
  {
    if |d| >= 3 {
      ThreeLess(|d|);
    EmittedSnoc(d[3..], c, r, last);
      assert (d + [c])[3..] == d[3..] + [c];
      Assoc(Group(d[0], d[1], d[2]), Emitted(d[3..]), Completed(r, last, c));
    } else {
      EmittedFirst(d, c, r, last);
    }
  }

  lemma {:induction false} EmittedFirst(d: seq<byte>, c: byte, r: nat, last: byte)
    requires r == |d| < 3 && (r > 0 ==> last == d[|d| - 1])
    ensures Emitted(d + [c]) == Emitted(d) + Completed(r, last, c)
  {
    if r == 2 { assert (d + [c])[3..] == []; }
  }

  /** The last character and the padding. */
  function Ending(r: nat, last: byte): string
    requires r < 3
  {
    if r == 0 then "" else if r == 1 then [Letter(last % 4 * 16), '=', '='] else [Letter(last % 16 * 4), '=']
  }

  lemma {:induction false} EncodingEnds(d: seq<byte>, r: nat, last: byte)
    requires r == |d| % 3 && (r > 0 ==> last == d[|d| - 1])
    ensures Encoding(d) == Emitted(d) + Ending(r, last)
    decreases |d|
  {
    if |d| >= 3 {
      ThreeLess(|d|);
      EncodingEnds(d[3..], r, last);
      Assoc(Group(d[0], d[1], d[2]), Emitted(d[3..]), Ending(r, last));
    }
  }

  lemma EncodingWhole(d: seq<byte>, r: nat, last: byte)
    requires r == |d| % 3 && (r > 0 ==> last == d[|d| - 1])
    ensures Encoding(d) == Emitted(d) + Ending(r, last) && |Encoding(d)| % 4 == 0
  {
    EncodingEnds(d, r, last);
    EncodingLength(d);
    FourTimes(Groups(d));
  }

  lemma FourTimes(n: nat)
    ensures 4 * n % 4 == 0
  {
  }

  /** What `valb` bits of the accumulator give, six at a time. */
  function Drained(val: int, valb: nat): string {
    if valb < 6 then "" else [Letter(Shr(val, valb - 6) % 64)] + Drained(val, valb - 6)
  }

  /** After `r` bytes of a group the accumulator ends in the bits of the last not yet out. */
  predicate Holds(val: int, r: nat, last: byte) {
    (r == 1 ==> val % 4 == last % 4) && (r == 2 ==> val % 16 == last % 16)
  }

  /** The accumulator with a byte shifted in, in 32 bits. */
  function Shifted(val: int, c: byte): int { Wrap32(Wrap32(val * 256) + c) }

  /** Overflow does not reach the low 12 bits. */
  lemma ShiftedIs(val: int, c: byte) returns (m: int)
    ensures Shifted(val, c) == 4096 * m + val % 16 * 256 + c
  {
    var k := WrapIs(val * 256);
    var l := WrapIs(Wrap32(val * 256) + c);
    m := val / 16 + (k + l) * 0x10_0000;
    assert val == val / 16 * 16 + val % 16;
  }

  lemma FirstSextet(m: int, h: int, c: byte)
    ensures (4096 * m + h * 256 + c) / 4 % 64 == c / 4
    ensures (4096 * m + h * 256 + c) % 4 == c % 4
  {
    assert (4096 * m + h * 256 + c) / 4 == (16 * m + h) * 64 + c / 4;
  }

  lemma Sixteenth(q: int, r: int)
    requires 0 <= r < 16
    ensures (16 * q + r) / 16 == q && (16 * q + r) % 16 == r
  {
  }

  lemma SecondSextet(m: int, h: int, c: byte)
    ensures (4096 * m + h * 256 + c) / 16 % 64 == h % 4 * 16 + c / 16
    ensures (4096 * m + h * 256 + c) % 16 == c % 16
  {
    Sixteenth(256 * m + 16 * h + c / 16, c % 16);
    assert h == h / 4 * 4 + h % 4;
    Sixtyfourth(4 * m + h / 4, h % 4 * 16 + c / 16);
  }

  lemma Sixtyfourth(q: int, r: int)
    requires 0 <= r < 64
    ensures (64 * q + r) / 64 == q && (64 * q + r) % 64 == r
  {
  }

  lemma ThirdAndFourth(m: int, h: int, c: byte)
    requires 0 <= h < 16
    ensures (4096 * m + h * 256 + c) / 64 % 64 == h * 4 + c / 64
    ensures (4096 * m + h * 256 + c) % 64 == c % 64
  {
    Sixtyfourth(64 * m + 4 * h + c / 64, c % 64);
    Sixtyfourth(m, h * 4 + c / 64);
  }

  lemma DrainedAt(v: int)
    ensures Drained(v, 8) == [Letter(v / 4 % 64)] && Drained(v, 10) == [Letter(v / 16 % 64)]
    ensures Drained(v, 12) == [Letter(v / 64 % 64), Letter(v % 64)]
  {
    ShrIs(v);
    assert Drained(v, 2) == "" && Drained(v, 4) == "" && Drained(v, 0) == "";
    assert Drained(v, 6) == [Letter(v % 64)];
  }

  /** What is pending is in the low four bits. */
  lemma HoldsLow(val: int, r: nat, last: byte)
    ensures Holds(val, r, last) <==> Holds(val % 16, r, last)
  {
    ModMod(val);
  }

  lemma ModMod(x: int)
    ensures x % 16 % 4 == x % 4
  {
  }

  /** A byte shifted in completes just what the standard says, whatever overflowed. */
  lemma DrainedIs(h: int, v: int, m: int, r: nat, last: byte, c: byte)
    requires r < 3 && 0 <= h < 16 && Holds(h, r, last) && v == 4096 * m + h * 256 + c
    ensures Drained(v, 2 * r + 8) == Completed(r, last, c)
    ensures r < 2 ==> Holds(v, r + 1, c)
  {
    if r == 0 {
      assert 2 * r + 8 == 8;
      FirstDrained(m, h, last, c);
    } else if r == 1 {
      assert 2 * r + 8 == 10;
      SecondDrained(m, h, last, c);
    } else {
      assert 2 * r + 8 == 12;
      ThirdDrained(m, h, last, c);
    }
  }

  lemma FirstDrained(m: int, h: int, last: byte, c: byte)
    ensures Drained(4096 * m + h * 256 + c, 8) == Completed(0, last, c)
    ensures Holds(4096 * m + h * 256 + c, 1, c)
  {
    DrainedAt(4096 * m + h * 256 + c);
    FirstSextet(m, h, c);
  }

  lemma SecondDrained(m: int, h: int, last: byte, c: byte)
    requires h % 4 == last % 4
    ensures Drained(4096 * m + h * 256 + c, 10) == Completed(1, last, c)
    ensures Holds(4096 * m + h * 256 + c, 2, c)
  {
    DrainedAt(4096 * m + h * 256 + c);
    SecondSextet(m, h, c);
  }

  lemma ThirdDrained(m: int, h: int, last: byte, c: byte)
    requires h == last % 16
    ensures Drained(4096 * m + h * 256 + c, 12) == Completed(2, last, c)
  {
    DrainedAt(4096 * m + h * 256 + c);
    ThirdAndFourth(m, h, c);
  }

  /** The bits left at the end give the last character. */
  lemma {:induction false} LastLetter(val: int, r: nat, last: byte)
    requires 0 < r < 3 && Holds(val, r, last)
    ensures Letter(Wrap32(Shl(val, 6 - 2 * r)) % 64) == Ending(r, last)[0]
  {
    var k := WrapIs(Shl(val, 6 - 2 * r));
    if r == 1 {
      LastBits(val / 4, k, last % 4, 16);
      assert val == val / 4 * 4 + last % 4;
      assert Shl(val, 4) == Shl(2 * val, 3) == Shl(4 * val, 2) == Shl(8 * val, 1) == 16 * val;
    } else {
      LastBits(val / 16, k, last % 16, 4);
      assert val == val / 16 * 16 + last % 16;
      assert Shl(val, 2) == Shl(2 * val, 1) == 4 * val;
    }
  }

  lemma LastBits(q: int, k: int, low: int, times: int)
    requires (times == 16 && 0 <= low < 4) || (times == 4 && 0 <= low < 16)
    ensures (64 * q + times * low + k * TWO_32) % 64 == times * low
  {
    assert 64 * q + times * low + k * TWO_32 == 64 * (q + k * 0x400_0000) + times * low;
  }

  /** What is missing of the encoding is padding. */
  lemma PadsOut(front: string, ending: string, result: string)
    requires result == front + (if ending == "" then "" else [ending[0]])
    requires forall k :: 1 <= k < |ending| ==> ending[k] == '='
    requires |ending| <= 3
    ensures result <= front + ending && |front + ending| < |result| + 4
    ensures forall k :: |result| <= k < |front + ending| ==> (front + ending)[k] == '='
  {
  }

  method ShiftIn(val: int, c: byte) returns (v: int, ghost m: int)
    ensures v == Shifted(val, c) && v == 4096 * m + val % 16 * 256 + c
  {
    v := Shifted(val, c);
    m := ShiftedIs(val, c);
  }

  /** The inner loop: the complete 6-bit groups leave the accumulator. */
  lemma SixLess(b: nat)
    requires b >= 6
    ensures (b - 6) % 6 == b % 6
  {
  }

  method Drain(v: int, bits: nat) returns (b: nat, out: string)
    requires bits <= 12
    ensures b == bits % 6 && out == Drained(v, bits)
  {
    b := bits;
    out := "";
    ghost var whole := Drained(v, bits);
    while b >= 6
      invariant b % 6 == bits % 6
      invariant whole == out + Drained(v, b)
    {
      SixLess(b);
      b := b - 6;
      Assoc(out, [Letter(Shr(v, b) % 64)], Drained(v, b));
      out := out + [Letter(Shr(v, b) % 64)];
    }
    assert out + "" == out;
  }

  /** Accumulator and output after `d` was read: two bits are pending for each byte of an
      incomplete group. */
  predicate Pending(d: seq<byte>, val: int, valb: int, r: nat, last: byte) {
    r == |d| % 3 && valb == 2 * r && Holds(val, r, last) && (d != [] ==> last == d[|d| - 1])
  }

  function After(r: nat): nat { if r == 2 then 0 else r + 1 }

  lemma OneMore(n: nat, r: nat)
    requires r == n % 3
    ensures After(r) == (n + 1) % 3 && (2 * r + 8) % 6 == 2 * After(r)
  {
    NextThird(n / 3, r);
  }

  lemma NextThird(q: nat, r: nat)
    requires r < 3
    ensures (3 * q + r + 1) % 3 == After(r)
  {
  }

  lemma PendingMore(d: seq<byte>, r: nat, c: byte, v: int)
    requires r == |d| % 3 && (r < 2 ==> Holds(v, r + 1, c))
    ensures Pending(d + [c], v, (2 * r + 8) % 6, After(r), c)
  {
    OneMore(|d|, r);
  }

  lemma EmittedMore(d: seq<byte>, c: byte, r: nat, last: byte, out: string)
    requires r == |d| % 3 && (d != [] ==> last == d[|d| - 1]) && out == Completed(r, last, c)
    ensures Emitted(d + [c]) == Emitted(d) + out
  {
    EmittedSnoc(d, c, r, last);
  }

  /** One turn of the encoder's loop: a byte in, the complete 6-bit groups out. */
  method Feed(val: int, valb: nat, c: byte, ghost d: seq<byte>, ghost r: nat, ghost last: byte)
    returns (v: int, b: nat, out: string)
    requires Pending(d, val, valb, r, last)
    ensures Pending(d + [c], v, b, After(r), c) && Emitted(d + [c]) == Emitted(d) + out
  {
    ghost var m;
    v, m := ShiftIn(val, c);
    HoldsLow(val, r, last);
    DrainedIs(val % 16, v, m, r, last, c);
    PendingMore(d, r, c, v);
    b, out := Drain(v, valb + 8);
    EmittedMore(d, c, r, last, out);
  }

  method Base64Encode(data: seq<byte>) returns (result: string)
    ensures result == Encoding(data)
  {
    result := "";
    var val, valb := 0, 0;
    ghost var r: nat, last: byte := 0, 0;
    for i := 0 to |data|
      invariant Pending(data[..i], val, valb, r, last) && result == Emitted(data[..i])
    {
      var out;
      val, valb, out := Feed(val, valb, data[i], data[..i], r, last);
      assert data[..i + 1] == data[..i] + [data[i]];
      result := result + out;
      r, last := After(r), data[i];
    }
    assert data[..|data|] == data;
    EncodingWhole(data, r, last);
    result := Finish(result, val, valb, r, last);
  }

  /** The last character, from the bits left over, and the padding. */
  method Finish(s: string, val: int, valb: nat, ghost r: nat, ghost last: byte) returns (result: string)
    requires r < 3 && valb == 2 * r && Holds(val, r, last) && |s + Ending(r, last)| % 4 == 0
    ensures result == s + Ending(r, last)
  {
    result := s;
    if valb > 0 {
      LastLetter(val, r, last);
      result := result + [Letter(Wrap32(Shl(val, 6 - valb)) % 64)];
    }
    PadsOut(s, Ending(r, last), result);
    result := Pad(result, s + Ending(r, last));
  }

  /** Fills up with padding to a multiple of four. */
  method Pad(s: string, ghost whole: string) returns (result: string)
    requires s <= whole && |whole| < |s| + 4 && |whole| % 4 == 0
    requires forall k :: |s| <= k < |whole| ==> whole[k] == '='
    ensures result == whole
  {
    result := s;
    while |result| % 4 != 0
      invariant s <= result <= whole
      decreases |whole| - |result|
    {
      result := result + ['='];
    }
  }
}
