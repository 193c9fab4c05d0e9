/** Bytes, little-endian integers and the packet format: a 4-byte header (size, kind) before the payload. */
module Wire {

  type byte = x: int | 0 <= x < 0x100
  type uint16 = x: int | 0 <= x < 0x1_0000
  type uint32 = x: int | 0 <= x < 0x1_0000_0000
  type int32 = x: int | -0x8000_0000 <= x < 0x8000_0000

  datatype Option<+T> = None | Some(value: T)

  const HEADER_SIZE := 4

  datatype Packet = Packet(kind: uint16, payload: seq<byte>)

  function U16(v: uint16): (b: seq<byte>)
    ensures |b| == 2 && FromU16(b) == v
  {
    [v % 0x100, v / 0x100]
  }

  function FromU16(b: seq<byte>): uint16
    requires |b| == 2
  {
    (b[0] as int) + 0x100 * (b[1] as int)
  }

  function U32(v: uint32): (b: seq<byte>)
    ensures |b| == 4 && FromU32(b) == v
  {
    U16(v % 0x1_0000) + U16(v / 0x1_0000)
  }

  function FromU32(b: seq<byte>): uint32
    requires |b| == 4
  {
    (FromU16(b[..2]) as int) + 0x1_0000 * (FromU16(b[2..]) as int)
  }

  // Two's complement.
  function I32(v: int32): (b: seq<byte>)
    ensures |b| == 4 && FromI32(b) == v
  {
    U32(if v < 0 then v + 0x1_0000_0000 else v)
  }

  function FromI32(b: seq<byte>): int32
    requires |b| == 4
  {
    var u := FromU32(b);
    if u < 0x8000_0000 then u else u - 0x1_0000_0000
  }

  /** What a writer leaves in its buffer: the size field is a uint16, so a long packet's size wraps. */
  function Finished(p: Packet): seq<byte>
  {
    U16((HEADER_SIZE + |p.payload|) % 0x1_0000) + U16(p.kind) + p.payload
  }

  lemma LowBytes(n: nat)
    ensures n % 0x1_0000 % 0x100 == n % 0x100 && n % 0x1_0000 / 0x100 == n / 0x100 % 0x100
  {
  }

  /** On the wire the size comes first and the kind second, each with its low byte first, and then the payload. */
  lemma HeaderBytes(p: Packet, size: nat)
    requires size == HEADER_SIZE + |p.payload|
    ensures var b := Finished(p);
            && |b| == size
            && b[0] as int == size % 0x100 && b[1] as int == size / 0x100 % 0x100
            && b[2] as int == p.kind % 0x100 && b[3] as int == p.kind / 0x100
            && b[4..] == p.payload
  {
    LowBytes(size);
  }

  /** A 32-bit number goes out low byte first. */
  lemma NumberBytes(v: uint32)
    ensures var b := U32(v);
            && b[0] as int == v % 0x100 && b[1] as int == v / 0x100 % 0x100
            && b[2] as int == v / 0x1_0000 % 0x100 && b[3] as int == v / 0x100_0000
  {
    LowBytes(v);
    assert v / 0x1_0000 / 0x100 == v / 0x100_0000;
  }

  ghost predicate FitsHeader(p: Packet)
  {
    HEADER_SIZE + |p.payload| < 0x1_0000
  }

  lemma ConcatAssoc<T>(a: seq<T>, b: seq<T>, c: seq<T>)
    ensures (a + b) + c == a + (b + c)
  {
  }

  lemma SplitAt<T>(s: seq<T>, k: nat)
    requires k <= |s|
    ensures s == s[..k] + s[k..]
  {
  }

  lemma HeadTail<T>(s: seq<T>)
    requires s != []
    ensures [s[0]] + s[1..] == s
  {
  }

  lemma ConcatParts<T>(a: seq<T>, b: seq<T>)
    ensures (a + b)[..|a|] == a && (a + b)[|a|..] == b
  {
  }

  function Flatten(chunks: seq<seq<byte>>): seq<byte>
  {
    if chunks == [] then [] else chunks[0] + Flatten(chunks[1..])
  }
}
