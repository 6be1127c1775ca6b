/** The packet codec: a 32-byte big-endian header, the payload, and a CRC-32 over both with
    the checksum field taken as zero. */
module PacketCodec {
  import opened Wire
  import Crc32

  // ---------------------------------------------------------------- big-endian fields

  /** Two and four bytes as a number, the most significant first. */
  function Word16(a: byte, b: byte): int { a * 256 + b }

  function Word32(a: byte, b: byte, c: byte, d: byte): int { a * 16_777_216 + b * 65_536 + c * 256 + d }

  function Put16(v: uint16): (s: seq<byte>)
    ensures |s| == 2
  {
    [v / 0x100, v % 0x100]
  }

  function Put32(v: uint32): (s: seq<byte>)
    ensures |s| == 4
  {
    [v / 0x100_0000, v / 0x1_0000 % 0x100, v / 0x100 % 0x100, v % 0x100]
  }

  function Put64(v: uint64): (s: seq<byte>)
    ensures |s| == 8
  {
    Put32(v / TWO_32) + Put32(v % TWO_32)
  }

  function Get16(a: byte, b: byte): uint16 { a as int * 0x100 + b as int }

  function Get32(s: seq<byte>): uint32
    requires |s| == 4
  {
    ((s[0] as int * 0x100 + s[1] as int) * 0x100 + s[2] as int) * 0x100 + s[3] as int
  }

  function Get64(s: seq<byte>): uint64
    requires |s| == 8
  {
    Get32(s[..4]) as int * TWO_32 + Get32(s[4..]) as int
  }

  lemma Get32Put32(v: uint32)
    ensures Get32(Put32(v)) == v == Word32(Put32(v)[0], Put32(v)[1], Put32(v)[2], Put32(v)[3])
  {
    assert v / 0x100 == v / 0x1_0000 * 0x100 + v / 0x100 % 0x100;
    assert v / 0x1_0000 == v / 0x100_0000 * 0x100 + v / 0x1_0000 % 0x100;
  }

  lemma FirstDigit(a: byte, r: nat)
    requires r < 0x100_0000
    ensures (a * 0x100_0000 + r) / 0x100_0000 == a
  {
  }

  lemma SecondDigit(q: nat, b: byte, r: nat)
    requires r < 0x1_0000
    ensures ((q * 0x100 + b) * 0x1_0000 + r) / 0x1_0000 % 0x100 == b
  {
    assert ((q * 0x100 + b) * 0x1_0000 + r) / 0x1_0000 == q * 0x100 + b;
  }

  lemma ThirdDigit(q: nat, c: byte, r: nat)
    requires r < 0x100
    ensures ((q * 0x100 + c) * 0x100 + r) / 0x100 % 0x100 == c
  {
    assert ((q * 0x100 + c) * 0x100 + r) / 0x100 == q * 0x100 + c;
  }

  lemma Put32Get32(s: seq<byte>)
    requires |s| == 4
    ensures Put32(Get32(s)) == s
  {
    var a: int, b: int, c: int, d: int := s[0], s[1], s[2], s[3];
    FirstDigit(a, b * 0x1_0000 + c * 0x100 + d);
    SecondDigit(a, b, c * 0x100 + d);
    ThirdDigit(a * 0x100 + b, c, d);
  }

  lemma Get64Put64(v: uint64)
    ensures Get64(Put64(v)) == v
  {
    Get32Put32(v / TWO_32);
    Get32Put32(v % TWO_32);
    assert Put64(v)[..4] == Put32(v / TWO_32) && Put64(v)[4..] == Put32(v % TWO_32);
  }

  lemma Put64Back(s: seq<byte>)
    requires |s| == 8
    ensures Put64(Get64(s)) == s
  {
    Put32Get32(s[..4]);
    Put32Get32(s[4..]);
    var hi: int, lo: int := Get32(s[..4]), Get32(s[4..]);
    assert (hi * TWO_32 + lo) / TWO_32 == hi && (hi * TWO_32 + lo) % TWO_32 == lo;
    assert s[..4] + s[4..] == s;
  }

  lemma Put64Get64(s: seq<byte>)
    requires |s| == 8
    ensures Put64(Get64(s)) == s
    ensures Get64(s) == Word32(s[0], s[1], s[2], s[3]) * TWO_32 + Word32(s[4], s[5], s[6], s[7])
  {
    Put64Back(s);
  }

  // ---------------------------------------------------------------- enumerations

  function PacketCode(t: PacketType): byte {
    match t
    case Data => 0
    case Ack => 1
    case Nack => 2
    case ReceiverReport => 3
    case Keepalive => 4
    case Handshake => 5
  }

  function PacketOf(v: byte): Option<PacketType> {
    if v == 0 then Some(Data)
    else if v == 1 then Some(Ack)
    else if v == 2 then Some(Nack)
    else if v == 3 then Some(ReceiverReport)
    else if v == 4 then Some(Keepalive)
    else if v == 5 then Some(PacketType.Handshake)
    else None
  }

  function FrameCode(t: FrameType): byte {
    match t
    case Keyframe => 0
    case PFrame => 1
    case Audio => 2
    case Control => 3
  }

  function FrameOf(v: byte): Option<FrameType> {
    if v == 0 then Some(Keyframe)
    else if v == 1 then Some(PFrame)
    else if v == 2 then Some(Audio)
    else if v == 3 then Some(Control)
    else None
  }

  // ---------------------------------------------------------------- the datagram

  /** Everything in front of the checksum field: bytes 0 to 27. */
  function Front(h: Header): (s: seq<byte>)
    ensures |s| == 28
  {
    Put32(h.magic) + [h.version, PacketCode(h.packetType), FrameCode(h.frameType), h.flags] +
    Put32(h.streamId) + Put32(h.sequenceNumber) + Put64(h.timestampUs) +
    Put16(h.payloadLength) + Put16(h.reserved)
  }

  function Image(h: Header, payload: seq<byte>): (s: seq<byte>)
    ensures |s| == HEADER_SIZE + |payload|
  {
    Front(h) + Put32(h.checksum) + payload
  }

  predicate Fits(p: Packet) { |p.payload| <= MAX_PAYLOAD }

  /** The packet with the fields the wire fixes: magic, version, length, reserved, checksum. */
  function Normalise(p: Packet): (q: Packet)
    requires Fits(p)
    ensures q.payload == p.payload
    ensures q.header.packetType == p.header.packetType && q.header.frameType == p.header.frameType
    ensures q.header.flags == p.header.flags && q.header.streamId == p.header.streamId
    ensures q.header.sequenceNumber == p.header.sequenceNumber
    ensures q.header.timestampUs == p.header.timestampUs
  {
    var h := p.header.(magic := PACKET_MAGIC, version := PROTOCOL_VERSION,
                       payloadLength := |p.payload|, reserved := 0, checksum := 0);
    Packet(h.(checksum := Crc32.Checksum(Image(h, p.payload))), p.payload)
  }

  function Encode(p: Packet): seq<byte>
    requires Fits(p)
  {
    Image(Normalise(p).header, p.payload)
  }

  /** The datagram with its checksum field cleared. */
  function Cleared(d: seq<byte>): (s: seq<byte>)
    requires |d| >= HEADER_SIZE
    ensures |s| == |d|
  {
    d[..28] + [0, 0, 0, 0] + d[HEADER_SIZE..]
  }

  /** The header fields of a datagram, before any check; `None` for an unknown type code. */
  function Fields(d: seq<byte>): Option<Header>
    requires |d| >= HEADER_SIZE
  {
    var t, f := PacketOf(d[5]), FrameOf(d[6]);
    if t.None? || f.None? then None
    else Some(Header(Get32(d[..4]), d[4], t.value, f.value, d[7], Get32(d[8..12]), Get32(d[12..16]),
                     Get64(d[16..24]), Get16(d[24], d[25]), Get16(d[26], d[27]), Get32(d[28..32])))
  }

  /** The magic number in front and nothing in the reserved field. */
  predicate Framed(d: seq<byte>)
    requires |d| >= HEADER_SIZE
  {
    d[..4] == Put32(PACKET_MAGIC) && d[26] == 0 && d[27] == 0
  }

  /** Four bytes are the image of a number exactly when they read as it. */
  lemma SameWord(s: seq<byte>, v: uint32)
    requires |s| == 4
    ensures s == Put32(v) <==> Get32(s) == v
  {
    Put32Get32(s);
    Get32Put32(v);
  }

  lemma FramedIs(d: seq<byte>, magic: uint32, reserved: uint16)
    requires |d| >= HEADER_SIZE && (d[..4] == Put32(PACKET_MAGIC) <==> magic == PACKET_MAGIC)
    requires reserved == Get16(d[26], d[27])
    ensures Framed(d) <==> magic == PACKET_MAGIC && reserved == 0
  {
  }

  predicate Passes(d: seq<byte>, h: Header)
    requires |d| >= HEADER_SIZE
  {
    Framed(d) && h.version == PROTOCOL_VERSION && h.payloadLength <= MAX_PAYLOAD && |d| == HEADER_SIZE + h.payloadLength
  }

  /** The checks of the code on the header of a datagram of `len` bytes. */
  predicate Acceptable(h: Header, len: nat) {
    h.magic == PACKET_MAGIC && h.version == PROTOCOL_VERSION && h.reserved == 0 &&
    h.payloadLength <= MAX_PAYLOAD && len == HEADER_SIZE + h.payloadLength
  }

  lemma PassesIs(d: seq<byte>, h: Header)
    requires |d| >= HEADER_SIZE && (Framed(d) <==> h.magic == PACKET_MAGIC && h.reserved == 0)
    ensures Passes(d, h) <==> Acceptable(h, |d|)
  {
  }

  /** The header of a datagram that passes every check but the checksum. */
  function Checked(d: seq<byte>): (h: Option<Header>)
    ensures h.Some? ==> |d| >= HEADER_SIZE
  {
    if |d| < HEADER_SIZE || Fields(d).None? || !Passes(d, Fields(d).value) then None else Fields(d)
  }

  function Decode(d: seq<byte>): Option<Packet> {
    var h := Checked(d);
    if h.None? || Crc32.Checksum(Cleared(d)) != h.value.checksum then None
    else Some(Packet(h.value, d[HEADER_SIZE..]))
  }

  // ---------------------------------------------------------------- round trips

  /** The fields of `h` lie where they belong. */
  predicate Laid(d: seq<byte>, h: Header)
    requires |d| >= HEADER_SIZE
  {
    d[..4] == Put32(h.magic) && d[4..8] == [h.version, PacketCode(h.packetType), FrameCode(h.frameType), h.flags] &&
    d[8..12] == Put32(h.streamId) && d[12..16] == Put32(h.sequenceNumber) && d[16..24] == Put64(h.timestampUs) &&
    d[24..26] == Put16(h.payloadLength) && d[26..28] == Put16(h.reserved) && d[28..32] == Put32(h.checksum)
  }

  lemma ImageLaid(h: Header, payload: seq<byte>)
    ensures Laid(Image(h, payload), h)
  {
  }

  lemma Get16Put16(v: uint16)
    ensures Get16(Put16(v)[0], Put16(v)[1]) == v
  {
  }

  lemma SmallFields(d: seq<byte>, h: Header)
    requires |d| >= HEADER_SIZE && Laid(d, h)
    ensures d[4] == h.version && d[5] == PacketCode(h.packetType) && d[6] == FrameCode(h.frameType) && d[7] == h.flags
    ensures Get16(d[24], d[25]) == h.payloadLength && Get16(d[26], d[27]) == h.reserved
  {
    assert d[4] == d[4..8][0] && d[5] == d[4..8][1] && d[6] == d[4..8][2] && d[7] == d[4..8][3];
    assert d[24] == d[24..26][0] && d[25] == d[24..26][1] && d[26] == d[26..28][0] && d[27] == d[26..28][1];
    Get16Put16(h.payloadLength);
    Get16Put16(h.reserved);
  }

  lemma FieldsOfImage(h: Header, payload: seq<byte>)
    ensures Fields(Image(h, payload)) == Some(h)
  {
    ImageLaid(h, payload);
    LaidFields(Image(h, payload), h);
  }

  lemma LaidFields(d: seq<byte>, h: Header)
    requires |d| >= HEADER_SIZE && Laid(d, h)
    ensures Fields(d) == Some(h)
  {
    SmallFields(d, h);
    Get32Put32(h.magic);
    Get32Put32(h.streamId);
    Get32Put32(h.sequenceNumber);
    Get64Put64(h.timestampUs);
    Get32Put32(h.checksum);
  }

  lemma FramedImage(h: Header, payload: seq<byte>)
    requires h.magic == PACKET_MAGIC && h.reserved == 0
    ensures Framed(Image(h, payload))
  {
    ImageLaid(h, payload);
    var d := Image(h, payload);
    assert d[26] == d[26..28][0] && d[27] == d[26..28][1];
  }

  /** Clearing the checksum field of an image. */
  lemma ClearedImage(h: Header, payload: seq<byte>)
    ensures Cleared(Image(h, payload)) == Image(h.(checksum := 0), payload)
  {
    var d := Image(h, payload);
    assert Put32(0) == [0, 0, 0, 0];
    assert Front(h.(checksum := 0)) == Front(h);
    assert d[..28] == Front(h);
    assert d[HEADER_SIZE..] == payload;
  }

  /** Decoding an encoded packet gives the packet back with the wire fields filled in. */
  lemma DecodeEncode(p: Packet)
    requires Fits(p)
    ensures Decode(Encode(p)) == Some(Normalise(p))
  {
    var h := Normalise(p).header;
    var d := Image(h, p.payload);
    FieldsOfImage(h, p.payload);
    ClearedImage(h, p.payload);
    assert d[HEADER_SIZE..] == p.payload;
    FramedImage(h, p.payload);
    DecodeByFields(d, h);
  }

  lemma DecodeByFields(d: seq<byte>, h: Header)
    requires |d| >= HEADER_SIZE && Fields(d) == Some(h)
    requires Framed(d) && h.version == PROTOCOL_VERSION
    requires h.payloadLength <= MAX_PAYLOAD && |d| == HEADER_SIZE + h.payloadLength
    requires Crc32.Checksum(Cleared(d)) == h.checksum
    ensures Decode(d) == Some(Packet(h, d[HEADER_SIZE..]))
  {
  }

  lemma PacketCodeOf(v: byte)
    ensures PacketOf(v).Some? ==> PacketCode(PacketOf(v).value) == v
    ensures FrameOf(v).Some? ==> FrameCode(FrameOf(v).value) == v
  {
  }

  lemma Put16Get16(d: seq<byte>, i: nat)
    requires i + 2 <= |d|
    ensures Put16(Get16(d[i], d[i + 1])) == d[i..i + 2]
  {
  }

  lemma FrontJoined(d: seq<byte>, h: Header)
    requires |d| >= 32 && d[..4] == Put32(h.magic)
    requires d[4..8] == [h.version, PacketCode(h.packetType), FrameCode(h.frameType), h.flags]
    requires d[8..12] == Put32(h.streamId) && d[12..16] == Put32(h.sequenceNumber) && d[16..24] == Put64(h.timestampUs)
    requires d[24..26] == Put16(h.payloadLength) && d[26..28] == Put16(h.reserved)
    ensures d[..28] == Front(h)
  {
    assert d[..28] == d[..4] + d[4..8] + d[8..12] + d[12..16] + d[16..24] + d[24..26] + d[26..28];
  }

  lemma FrontOfFields(d: seq<byte>)
    requires |d| >= HEADER_SIZE && Fields(d).Some?
    ensures Front(Fields(d).value) == d[..28]
  {
    var h := Fields(d).value;
    PacketCodeOf(d[5]);
    PacketCodeOf(d[6]);
    Put32Get32(d[..4]);
    Put32Get32(d[8..12]);
    Put32Get32(d[12..16]);
    Put64Back(d[16..24]);
    Put16Get16(d, 24);
    Put16Get16(d, 26);
    assert [h.version, PacketCode(h.packetType), FrameCode(h.frameType), h.flags] == d[4..8];
    FrontJoined(d, h);
  }

  lemma ImageOfFields(d: seq<byte>)
    requires |d| >= HEADER_SIZE && Fields(d).Some?
    ensures Image(Fields(d).value, d[HEADER_SIZE..]) == d
  {
    FrontOfFields(d);
    Put32Get32(d[28..32]);
    assert d == d[..28] + d[28..32] + d[HEADER_SIZE..];
  }

  /** Whatever the decoder accepts is, byte for byte, the encoding of what it returns. */
  lemma EncodeDecode(d: seq<byte>)
    requires Decode(d).Some?
    ensures Fits(Decode(d).value) && Encode(Decode(d).value) == d
    ensures Normalise(Decode(d).value) == Decode(d).value
  {
    var p := Decode(d).value;
    var h := p.header;
    SameWord(d[..4], PACKET_MAGIC);
    FramedIs(d, h.magic, h.reserved);
    ImageOfFields(d);
    ClearedImage(h, p.payload);
  }

  /** The decoder accepts exactly the encodings. */
  lemma AcceptedIffEncoded(d: seq<byte>)
    ensures Decode(d).Some? <==> exists p: Packet :: Fits(p) && Encode(p) == d
  {
    if Decode(d).Some? {
      EncodeDecode(d);
    }
    if p: Packet :| Fits(p) && Encode(p) == d {
      DecodeEncode(p);
    }
  }

  // ---------------------------------------------------------------- the bytes on the wire

  /** A header, byte by byte. */
  predicate HeaderOnWire(d: seq<byte>, h: Header)
    requires |d| >= 32
  {
    Word32(d[0], d[1], d[2], d[3]) == h.magic && d[4] == h.version &&
    d[5] == (match h.packetType case Data => 0 case Ack => 1 case Nack => 2 case ReceiverReport => 3 case Keepalive => 4
             case Handshake => 5) &&
    d[6] == (match h.frameType case Keyframe => 0 case PFrame => 1 case Audio => 2 case Control => 3) &&
    d[7] == h.flags && Word32(d[8], d[9], d[10], d[11]) == h.streamId &&
    Word32(d[12], d[13], d[14], d[15]) == h.sequenceNumber &&
    Word32(d[16], d[17], d[18], d[19]) * TWO_32 + Word32(d[20], d[21], d[22], d[23]) == h.timestampUs &&
    Word16(d[24], d[25]) == h.payloadLength && Word16(d[26], d[27]) == h.reserved &&
    Word32(d[28], d[29], d[30], d[31]) == h.checksum
  }

  /** The datagram of a packet: the header with its fixed fields, and the payload from byte 32 on. */
  predicate OnWire(d: seq<byte>, p: Packet) {
    |d| == 32 + |p.payload| <= 1232 && d[32..] == p.payload &&
    HeaderOnWire(d, p.header.(magic := 0x53435354, version := 1, payloadLength := |p.payload|, reserved := 0,
                              checksum := Crc32.Checksum(d[..28] + [0, 0, 0, 0] + d[32..])))
  }

  /** The header fields the wire fixes say what is on it. */
  predicate AsSent(p: Packet, sum: uint32) {
    p.header.magic == 0x53435354 && p.header.version == 1 && p.header.payloadLength == |p.payload| &&
    p.header.reserved == 0 && p.header.checksum == sum
  }

  /** A word of a datagram that is the image of a number reads as it. */
  lemma WordLaid(d: seq<byte>, k: nat, v: uint32)
    requires k + 4 <= |d| && d[k..k + 4] == Put32(v)
    ensures Word32(d[k], d[k + 1], d[k + 2], d[k + 3]) == v
  {
    Get32Put32(v);
    var s := d[k..k + 4];
    assert s[0] == d[k] && s[1] == d[k + 1] && s[2] == d[k + 2] && s[3] == d[k + 3];
  }

  lemma LongLaid(d: seq<byte>, k: nat, v: uint64)
    requires k + 8 <= |d| && d[k..k + 8] == Put64(v)
    ensures Word32(d[k], d[k + 1], d[k + 2], d[k + 3]) * TWO_32 + Word32(d[k + 4], d[k + 5], d[k + 6], d[k + 7]) == v
  {
    assert d[k..k + 4] == d[k..k + 8][..4] == Put32(v / TWO_32);
    assert d[k + 4..k + 8] == d[k..k + 8][4..] == Put32(v % TWO_32);
    WordLaid(d, k, v / TWO_32);
    WordLaid(d, k + 4, v % TWO_32);
  }

  lemma HalfLaid(d: seq<byte>, k: nat, v: uint16)
    requires k + 2 <= |d| && d[k..k + 2] == Put16(v)
    ensures Word16(d[k], d[k + 1]) == v
  {
    assert d[k] == d[k..k + 2][0] && d[k + 1] == d[k..k + 2][1];
  }

  lemma HeaderLaid(d: seq<byte>, h: Header)
    requires |d| >= 32 && Laid(d, h)
    ensures HeaderOnWire(d, h)
  {
    SmallFields(d, h);
    WordLaid(d, 0, h.magic);
    WordLaid(d, 8, h.streamId);
    WordLaid(d, 12, h.sequenceNumber);
    LongLaid(d, 16, h.timestampUs);
    HalfLaid(d, 24, h.payloadLength);
    HalfLaid(d, 26, h.reserved);
    WordLaid(d, 28, h.checksum);
  }

  /** The encoding of a packet lies so, behind the letters SCST. */
  lemma EncodedOnWire(p: Packet)
    requires Fits(p)
    ensures OnWire(Encode(p), p) && Encode(p)[..4] == [0x53, 0x43, 0x53, 0x54]
  {
    var h := p.header.(magic := PACKET_MAGIC, version := PROTOCOL_VERSION,
                       payloadLength := |p.payload|, reserved := 0, checksum := 0);
    var sum := Crc32.Checksum(Image(h, p.payload));
    ImageOnWire(h.(checksum := sum), p.payload);
    ClearedImage(h.(checksum := sum), p.payload);
    MagicBytes(Encode(p));
  }

  lemma ImageOnWire(h: Header, payload: seq<byte>)
    ensures HeaderOnWire(Image(h, payload), h) && Image(h, payload)[32..] == payload
    ensures Image(h, payload)[..4] == Put32(h.magic)
  {
    ImageLaid(h, payload);
    HeaderLaid(Image(h, payload), h);
  }

  lemma MagicBytes(d: seq<byte>)
    requires |d| >= 4 && d[..4] == Put32(PACKET_MAGIC)
    ensures d[..4] == [0x53, 0x43, 0x53, 0x54]
  {
  }

  lemma BytesOf32(s: seq<byte>, v: uint32)
    requires |s| == 4 && Word32(s[0], s[1], s[2], s[3]) == v
    ensures s == Put32(v)
  {
    Put32Get32(s);
  }

  lemma WordIsLaid(d: seq<byte>, k: nat, v: uint32)
    requires k + 4 <= |d| && Word32(d[k], d[k + 1], d[k + 2], d[k + 3]) == v
    ensures d[k..k + 4] == Put32(v)
  {
    BytesOf32(d[k..k + 4], v);
  }

  lemma LongIsLaid(d: seq<byte>, k: nat, v: uint64)
    requires k + 8 <= |d|
    requires Word32(d[k], d[k + 1], d[k + 2], d[k + 3]) * TWO_32 + Word32(d[k + 4], d[k + 5], d[k + 6], d[k + 7]) == v
    ensures d[k..k + 8] == Put64(v)
  {
    WordIsLaid(d, k, v / TWO_32);
    WordIsLaid(d, k + 4, v % TWO_32);
    assert d[k..k + 8] == d[k..k + 4] + d[k + 4..k + 8];
  }

  lemma HalfIsLaid(d: seq<byte>, k: nat, v: uint16)
    requires k + 2 <= |d| && Word16(d[k], d[k + 1]) == v
    ensures d[k..k + 2] == Put16(v)
  {
  }

  lemma CodesLaid(d: seq<byte>, h: Header)
    requires |d| >= 32 && HeaderOnWire(d, h)
    ensures d[4..8] == [h.version, PacketCode(h.packetType), FrameCode(h.frameType), h.flags]
  {
  }

  lemma FrontOnWire(d: seq<byte>, h: Header)
    requires |d| >= 32 && HeaderOnWire(d, h)
    ensures d[..28] == Front(h) && d[28..32] == Put32(h.checksum)
  {
    WordIsLaid(d, 0, h.magic);
    CodesLaid(d, h);
    WordIsLaid(d, 8, h.streamId);
    WordIsLaid(d, 12, h.sequenceNumber);
    LongIsLaid(d, 16, h.timestampUs);
    HalfIsLaid(d, 24, h.payloadLength);
    HalfIsLaid(d, 26, h.reserved);
    FrontJoined(d, h);
    WordIsLaid(d, 28, h.checksum);
  }

  lemma ImageJoined(d: seq<byte>, h: Header, payload: seq<byte>)
    requires |d| >= 32 && d[..28] == Front(h) && d[28..32] == Put32(h.checksum) && d[32..] == payload
    ensures d == Image(h, payload)
  {
    assert d == d[..28] + d[28..32] + d[32..];
  }

  /** A datagram of these bytes is the packet's encoding. */
  lemma OnWireIsEncoded(d: seq<byte>, p: Packet)
    requires OnWire(d, p)
    ensures Fits(p) && d == Encode(p)
  {
    var sum := Crc32.Checksum(d[..28] + [0, 0, 0, 0] + d[32..]);
    var h := p.header.(magic := PACKET_MAGIC, version := PROTOCOL_VERSION,
                       payloadLength := |p.payload|, reserved := 0, checksum := 0);
    FrontOnWire(d, h.(checksum := sum));
    assert Put32(0) == [0, 0, 0, 0];
    assert Front(h.(checksum := sum)) == Front(h);
    assert Image(h, p.payload) == d[..28] + [0, 0, 0, 0] + d[32..];
    ImageJoined(d, h.(checksum := sum), p.payload);
  }

  /** A packet comes out of the decoder exactly when the datagram holds, byte for byte, that packet
      with its fixed header fields. */
  lemma DecodedIff(d: seq<byte>, p: Packet)
    ensures Decode(d) == Some(p) <==>
      OnWire(d, p) && AsSent(p, Word32(d[28], d[29], d[30], d[31]))
  {
    if Decode(d) == Some(p) {
      EncodeDecode(d);
      EncodedOnWire(p);
      AsSentIs(d, p);
    } else if OnWire(d, p) && AsSent(p, Word32(d[28], d[29], d[30], d[31])) {
      OnWireIsEncoded(d, p);
      DecodeEncode(p);
      AsSentIsNormal(d, p);
    }
  }

  /** What the decoder's answer says about the bytes. */
  lemma DecodedMeans(d: seq<byte>)
    ensures Decode(d).Some? ==>
      OnWire(d, Decode(d).value) && AsSent(Decode(d).value, Word32(d[28], d[29], d[30], d[31]))
    ensures Decode(d).None? ==> forall p :: !OnWire(d, p)
  {
    if Decode(d).Some? {
      DecodedIff(d, Decode(d).value);
    } else {
      forall p ensures !OnWire(d, p) {
        if OnWire(d, p) {
          OnWireIsEncoded(d, p);
          DecodeEncode(p);
        }
      }
    }
  }

  lemma AsSentIs(d: seq<byte>, p: Packet)
    requires OnWire(d, p) && Fits(p) && Normalise(p) == p && d == Encode(p)
    ensures AsSent(p, Word32(d[28], d[29], d[30], d[31]))
  {
    ImageLaid(p.header, p.payload);
    WordLaid(d, 28, p.header.checksum);
  }

  lemma AsSentIsNormal(d: seq<byte>, p: Packet)
    requires OnWire(d, p) && Fits(p) && d == Encode(p) && AsSent(p, Word32(d[28], d[29], d[30], d[31]))
    ensures Normalise(p) == p
  {
    ImageLaid(Normalise(p).header, p.payload);
    WordLaid(d, 28, Normalise(p).header.checksum);
  }

  // ---------------------------------------------------------------- error detection

  /** The two datagrams agree outside `[k, k + 4)` and on the checksum field. */
  predicate BurstAway(d: seq<byte>, e: seq<byte>, k: nat) {
    |d| == |e| && HEADER_SIZE <= |d| && k + 4 <= |d| &&
    d[..k] == e[..k] && d[k + 4..] == e[k + 4..] && d[28..32] == e[28..32]
  }

  predicate OnlyChecksumDiffers(d: seq<byte>, e: seq<byte>) {
    |d| == |e| && HEADER_SIZE <= |d| && d[..28] == e[..28] && d[32..] == e[32..]
  }

  lemma ChecksumOfAccepted(d: seq<byte>)
    requires Decode(d).Some?
    ensures Crc32.Checksum(Cleared(d)) == Get32(d[28..32])
  {
  }

  /** A datagram is determined by its checksum field and the rest. */
  lemma Reassemble(d: seq<byte>, e: seq<byte>)
    requires |d| >= HEADER_SIZE && |e| >= HEADER_SIZE
    requires Cleared(d) == Cleared(e) && d[28..32] == e[28..32]
    ensures d == e
  {
    assert d[..28] == Cleared(d)[..28] && e[..28] == Cleared(e)[..28];
    assert d[32..] == Cleared(d)[32..] && e[32..] == Cleared(e)[32..];
    assert d == d[..28] + d[28..32] + d[32..];
    assert e == e[..28] + e[28..32] + e[32..];
  }

  /** Damage within four consecutive bytes outside the checksum is always rejected. */
  lemma BurstRejected(d: seq<byte>, e: seq<byte>, k: nat)
    requires Decode(d).Some? && BurstAway(d, e, k) && d != e
    ensures Decode(e).None?
  {
    if Decode(e).Some? {
      ChecksumOfAccepted(d);
      ChecksumOfAccepted(e);
      var a, b := Cleared(d), Cleared(e);
      if a == b { Reassemble(d, e); }
      ClearedAgrees(d, e, k);
      Crc32.BurstChangesChecksum(a, b, k);
    }
  }

  lemma ClearedAgrees(d: seq<byte>, e: seq<byte>, k: nat)
    requires BurstAway(d, e, k)
    ensures Cleared(d)[..k] == Cleared(e)[..k] && Cleared(d)[k + 4..] == Cleared(e)[k + 4..]
  {
    forall i | 0 <= i < k || k + 4 <= i < |d|
      ensures Cleared(d)[i] == Cleared(e)[i]
    {
      assert i < k ==> d[i] == d[..k][i] && e[i] == e[..k][i];
      assert i >= k + 4 ==> d[i] == d[k + 4..][i - k - 4] && e[i] == e[k + 4..][i - k - 4];
    }
  }

  /** Damage to the checksum field alone is always rejected. */
  lemma ChecksumDamageRejected(d: seq<byte>, e: seq<byte>)
    requires Decode(d).Some? && OnlyChecksumDiffers(d, e) && d != e
    ensures Decode(e).None?
  {
    if Decode(e).Some? {
      ChecksumOfAccepted(d);
      ChecksumOfAccepted(e);
      Put32Get32(d[28..32]);
      Put32Get32(e[28..32]);
      Reassemble(d, e);
    }
  }

  // ---------------------------------------------------------------- the buffers

  /** `buf` with `s` written over it at `at`. */
  function Written(buf: seq<byte>, at: nat, s: seq<byte>): (r: seq<byte>)
    requires at + |s| <= |buf|
    ensures |r| == |buf|
  {
    buf[..at] + s + buf[at + |s|..]
  }

  lemma WrittenInTurn(buf: seq<byte>, a: seq<byte>, b: seq<byte>)
    requires |a| + |b| <= |buf|
    ensures Written(Written(buf, 0, a), |a|, b) == Written(buf, 0, a + b)
  {
  }

  lemma OneWritten(buf: seq<byte>, at: nat, s: seq<byte>, i: nat)
    requires at + |s| <= |buf| && i < |s|
    ensures Written(buf, at, s[..i])[at + i := s[i]] == Written(buf, at, s[..i + 1])
  {
    assert s[..i + 1] == s[..i] + [s[i]];
  }

  method PutBytes(out: array<byte>, at: nat, s: seq<byte>)
    requires at + |s| <= out.Length
    modifies out
    ensures out[..] == Written(old(out[..]), at, s)
  {
    ghost var was := out[..];
    for i := 0 to |s|
      invariant out[..] == Written(was, at, s[..i])
    {
      OneWritten(was, at, s, i);
      out[at + i] := s[i];
    }
    assert s[..|s|] == s;
  }

  lemma WrittenHeader(buf: seq<byte>, h: Header)
    requires |buf| >= HEADER_SIZE
    ensures HeaderOnWire(Written(buf, 0, Front(h) + Put32(h.checksum)), h)
  {
    var d := Written(buf, 0, Front(h) + Put32(h.checksum));
    assert d == Image(h, buf[HEADER_SIZE..]);
    ImageLaid(h, buf[HEADER_SIZE..]);
    HeaderLaid(d, h);
  }

  method WriteHeader(out: array<byte>, h: Header)
    requires out.Length >= HEADER_SIZE
    modifies out
    ensures out[..] == Written(old(out[..]), 0, Front(h) + Put32(h.checksum)) && HeaderOnWire(out[..], h)
  {
    ghost var was := out[..];
    PutBytes(out, 0, Put32(h.magic));
    ghost var s := Put32(h.magic);
    var codes := [h.version, PacketCode(h.packetType), FrameCode(h.frameType), h.flags];
    PutBytes(out, 4, codes);
    WrittenInTurn(was, s, codes);
    s := s + codes;
    PutBytes(out, 8, Put32(h.streamId));
    WrittenInTurn(was, s, Put32(h.streamId));
    s := s + Put32(h.streamId);
    PutBytes(out, 12, Put32(h.sequenceNumber));
    WrittenInTurn(was, s, Put32(h.sequenceNumber));
    s := s + Put32(h.sequenceNumber);
    PutBytes(out, 16, Put64(h.timestampUs));
    WrittenInTurn(was, s, Put64(h.timestampUs));
    s := s + Put64(h.timestampUs);
    PutBytes(out, 24, Put16(h.payloadLength));
    WrittenInTurn(was, s, Put16(h.payloadLength));
    s := s + Put16(h.payloadLength);
    PutBytes(out, 26, Put16(h.reserved));
    WrittenInTurn(was, s, Put16(h.reserved));
    s := s + Put16(h.reserved);
    assert s == Front(h);
    PutBytes(out, 28, Put32(h.checksum));
    WrittenInTurn(was, s, Put32(h.checksum));
    WrittenHeader(was, h);
  }

  lemma WrittenPrefix(buf: seq<byte>, s: seq<byte>, n: nat)
    requires n == |s| <= |buf|
    ensures Written(buf, 0, s)[..n] == s
  {
  }

  /** Replacing the checksum field of an image. */
  lemma ChecksumWritten(buf: seq<byte>, h: Header, sum: uint32, payload: seq<byte>)
    requires HEADER_SIZE + |payload| <= |buf|
    ensures Written(Written(buf, 0, Image(h, payload)), 28, Put32(sum))
         == Written(buf, 0, Image(h.(checksum := sum), payload))
  {
    assert Front(h.(checksum := sum)) == Front(h);
  }

  /** Header and payload, the checksum still as the header has it. */
  method WriteImage(out: array<byte>, h: Header, payload: seq<byte>)
    requires HEADER_SIZE + |payload| <= out.Length
    modifies out
    ensures out[..] == Written(old(out[..]), 0, Image(h, payload))
  {
    ghost var was := out[..];
    WriteHeader(out, h);
    PutBytes(out, HEADER_SIZE, payload);
    WrittenInTurn(was, Front(h) + Put32(h.checksum), payload);
  }

  /** Writes the packet's encoding and returns its length, or 0 when it does not fit. */
  method Serialize(p: Packet, out: array<byte>, t: array<uint32>) returns (n: nat)
    requires Crc32.IsTable(t[..])
    modifies out
    ensures n == if Fits(p) && HEADER_SIZE + |p.payload| <= out.Length then HEADER_SIZE + |p.payload| else 0
    ensures n == 0 ==> out[..] == old(out[..])
    ensures n > 0 ==> out[..] == Written(old(out[..]), 0, Encode(p)) && OnWire(out[..n], p)
  {
    if |p.payload| > MAX_PAYLOAD {
      return 0;
    }
    n := HEADER_SIZE + |p.payload|;
    if out.Length < n {
      return 0;
    }
    ghost var was := out[..];
    var h := p.header.(magic := PACKET_MAGIC, version := PROTOCOL_VERSION,
                       payloadLength := |p.payload|, reserved := 0, checksum := 0);
    WriteImage(out, h, p.payload);
    WrittenPrefix(was, Image(h, p.payload), n);
    var sum := Crc32.Compute(out[..n], t);
    PutBytes(out, 28, Put32(sum));
    ChecksumWritten(was, h, sum, p.payload);
    EncodedOnWire(p);
    WrittenPrefix(was, Encode(p), n);
  }

  /** The checksum over a copy of the datagram with the checksum field zeroed. */
  method ClearedChecksum(d: array<byte>, len: nat, t: array<uint32>) returns (sum: uint32)
    requires HEADER_SIZE <= len <= d.Length && Crc32.IsTable(t[..])
    ensures sum == Crc32.Checksum(Cleared(d[..len]))
  {
    var scratch := new byte[len](i requires 0 <= i < len reads d => d[i]);
    assert scratch[..] == d[..len];
    scratch[28], scratch[29], scratch[30], scratch[31] := 0, 0, 0, 0;
    assert scratch[..] == Cleared(d[..len]);
    sum := Crc32.Compute(scratch[..], t);
  }

  /** The checks on the header, one field after the other. */
  method CheckHeader(d: array<byte>, len: nat) returns (h: Option<Header>)
    requires len <= d.Length
    ensures h == Checked(d[..len])
  {
    if len < HEADER_SIZE {
      return None;
    }
    h := Fields(d[..len]);
    if h.None? {
      return None;
    }
    SameWord(d[..len][..4], PACKET_MAGIC);
    FramedIs(d[..len], h.value.magic, h.value.reserved);
    PassesIs(d[..len], h.value);
    if h.value.magic != PACKET_MAGIC || h.value.version != PROTOCOL_VERSION {
      return None;
    }
    if h.value.reserved != 0 || h.value.payloadLength > MAX_PAYLOAD {
      return None;
    }
    if len != HEADER_SIZE + h.value.payloadLength {
      return None;
    }
  }

  /** Checks a datagram and takes it apart; the checksum is computed over a cleared copy. */
  method Deserialize(d: array<byte>, len: nat, t: array<uint32>) returns (p: Option<Packet>)
    requires len <= d.Length && Crc32.IsTable(t[..])
    ensures p == Decode(d[..len])
    ensures p.Some? ==> OnWire(d[..len], p.value) && AsSent(p.value, Word32(d[28], d[29], d[30], d[31]))
    ensures p.None? ==> forall q :: !OnWire(d[..len], q)
  {
    DecodedMeans(d[..len]);
    var h := CheckHeader(d, len);
    if h.None? {
      return None;
    }
    var sum := ClearedChecksum(d, len, t);
    if sum != h.value.checksum {
      return None;
    }
    return Some(Packet(h.value, d[HEADER_SIZE..len]));
  }
}
