/** Bytes received and not yet consumed. */
module ReceiveBuffers {
  import opened Wire

  class ReceiveBuffer {
    var buffer: seq<byte>

    constructor ()
      ensures buffer == []
    {
      buffer := [];
    }

    method Append(data: seq<byte>)
      modifies this
      ensures buffer == old(buffer) + data
    {
      buffer := buffer + data;
    }

    // Removing more than is there empties the buffer.
    method Remove(size: nat)
      modifies this
      ensures buffer == if size <= |old(buffer)| then old(buffer)[size..] else []
    {
      if size >= |buffer| {
        buffer := [];
        return;
      }
      buffer := buffer[size..];
    }
  }
}
