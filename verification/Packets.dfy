/** PacketWriter and PacketReader: serialising values after a header, and reading them back. */
module Packets {
  import opened Wire

  class PacketWriter {
    const kind: uint16
    var buffer: seq<byte>

    ghost predicate Valid()
      reads this
    {
      |buffer| >= HEADER_SIZE
    }

    ghost function Payload(): seq<byte>
      requires Valid()
      reads this
    {
      buffer[HEADER_SIZE..]
    }

    constructor (kind: uint16)
      ensures Valid() && this.kind == kind && Payload() == []
    {
      this.kind := kind;
      buffer := [0, 0, 0, 0];
    }

    method Write(data: seq<byte>)
      requires Valid()
      modifies this
      ensures Valid() && Payload() == old(Payload()) + data
    {
      buffer := buffer + data;
    }

    // The length field is a uint16, and only that many bytes follow it.
    method WriteString(value: seq<byte>)
      requires Valid()
      modifies this
      ensures Valid() && Payload() == old(Payload()) + EncodeString(value)
    {
      var length := |value| % 0x1_0000;
      Write(U16(length));
      Write(value[..length]);
      ConcatAssoc(old(Payload()), U16(length), value[..length]);
    }

    /** Patches the header in place; the payload stays. */
    method Finish()
      requires Valid()
      modifies this
      ensures Valid() && Payload() == old(Payload())
      ensures buffer == Finished(Packet(kind, Payload()))
    {
      buffer := U16(|buffer| % 0x1_0000) + U16(kind) + buffer[HEADER_SIZE..];
    }
  }

  class PacketReader {
    const data: seq<byte>
    var offset: nat

    ghost predicate Valid()
      reads this
    {
      offset <= |data|
    }

    // The bytes not read yet.
    ghost function Rest(): seq<byte>
      requires Valid()
      reads this
    {
      data[offset..]
    }

    constructor (data: seq<byte>)
      ensures Valid() && Rest() == data
    {
      this.data, offset := data, 0;
    }

    // None stands for the overflow exception, which leaves the offset alone.
    method Read(size: nat) returns (r: Option<seq<byte>>)
      requires Valid()
      modifies this
      ensures Valid()
      ensures size <= |old(Rest())| ==> r == Some(old(Rest())[..size]) && Rest() == old(Rest())[size..]
      ensures size > |old(Rest())| ==> r == None && Rest() == old(Rest())
    {
      if offset + size > |data| {
        return None;
      }
      r := Some(data[offset..offset + size]);
      assert data[offset..][..size] == data[offset..offset + size];
      assert data[offset..][size..] == data[offset + size..];
      offset := offset + size;
    }

    // A string whose length field promises too much has that field consumed all the same.
    method ReadString() returns (r: Option<seq<byte>>)
      requires Valid()
      modifies this
      ensures Valid()
      ensures r == DecodeString(old(Rest())).0 && Rest() == DecodeString(old(Rest())).1
    {
      var head := Read(2);
      if head.None? { return None; }
      r := Read(FromU16(head.value));
    }
  }

  function EncodeString(value: seq<byte>): seq<byte>
  {
    U16(|value| % 0x1_0000) + value[..|value| % 0x1_0000]
  }

  // The string read from the front of `rest`, if it is all there, and what remains unread.
  function DecodeString(rest: seq<byte>): (Option<seq<byte>>, seq<byte>)
  {
    if |rest| < 2 then (None, rest)
    else
      var length, body := FromU16(rest[..2]), rest[2..];
      if |body| < length then (None, body) else (Some(body[..length]), body[length..])
  }

  /** A string survives exactly when its length fits the 16-bit length field. */
  lemma StringRoundTripIff(value: seq<byte>, tail: seq<byte>)
    ensures DecodeString(EncodeString(value) + tail) == (Some(value), tail) <==> |value| < 0x1_0000
  {
    var length := |value| % 0x1_0000;
    var all := EncodeString(value) + tail;
    assert all[..2] == U16(length);
    assert all[2..] == value[..length] + tail;
    assert all[2..][..length] == value[..length] && all[2..][length..] == tail;
    assert DecodeString(all) == (Some(value[..length]), tail);
    assert length == |value| ==> value[..length] == value;
  }
}
