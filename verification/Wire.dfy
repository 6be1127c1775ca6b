/** The on-wire vocabulary: machine integers, the packet header, and the packet itself. */
module Wire {
  type byte = b: int | 0 <= b < 256
  type uint16 = x: int | 0 <= x < 0x1_0000
  type uint32 = x: int | 0 <= x < 0x1_0000_0000
  type uint64 = x: int | 0 <= x < 0x1_0000_0000_0000_0000

  const TWO_32 := 0x1_0000_0000
  const TWO_64 := 0x1_0000_0000_0000_0000

  const PACKET_MAGIC: uint32 := 0x53435354
  const PROTOCOL_VERSION: byte := 1
  const HEADER_SIZE := 32
  const MAX_PAYLOAD := 1200

  const FLAG_SYN: byte := 1
  const FLAG_ACK: byte := 2
  const FLAG_FIN: byte := 4

  datatype Option<+T> = None | Some(value: T)

  datatype PacketType = Data | Ack | Nack | ReceiverReport | Keepalive | Handshake

  datatype FrameType = Keyframe | PFrame | Audio | Control

  datatype Header = Header(
    magic: uint32,
    version: byte,
    packetType: PacketType,
    frameType: FrameType,
    flags: byte,
    streamId: uint32,
    sequenceNumber: uint32,
    timestampUs: uint64,
    payloadLength: uint16,
    reserved: uint16,
    checksum: uint32)

  datatype Packet = Packet(header: Header, payload: seq<byte>)

  predicate HasSyn(flags: byte) { flags % 2 == 1 }

  predicate HasAck(flags: byte) { flags / 2 % 2 == 1 }

  predicate HasFin(flags: byte) { flags / 4 % 2 == 1 }

  /** Conversion to an unsigned 32-bit or 64-bit integer. */
  function U32(x: int): uint32 { x % TWO_32 }

  function U64(x: int): uint64 { x % TWO_64 }

  lemma U32Small(x: int)
    requires 0 <= x < TWO_32
    ensures U32(x) == x
  {
  }

  /** The concatenation of a sequence of byte strings. */
  function Flatten(parts: seq<seq<byte>>): seq<byte> {
    if parts == [] then [] else parts[0] + Flatten(parts[1..])
  }

  lemma Assoc<T>(a: seq<T>, b: seq<T>, c: seq<T>)
    ensures a + (b + c) == (a + b) + c
  {
  }

  lemma HeadTail<T>(s: seq<T>)
    requires s != []
    ensures s == [s[0]] + s[1..]
  {
  }

  lemma {:induction false} FlattenAppend(a: seq<seq<byte>>, b: seq<seq<byte>>)
    ensures Flatten(a + b) == Flatten(a) + Flatten(b)
  {
    if a == [] {
      assert a + b == b;
    } else {
      FlattenAppend(a[1..], b);
      assert (a + b)[1..] == a[1..] + b;
      Assoc(a[0], Flatten(a[1..]), Flatten(b));
    }
  }
}
