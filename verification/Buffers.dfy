/** A bytes.Buffer: writers append to it in place. */
module Buffers {
  import opened Utf8

  class Buffer {
    var content: seq<byte>

    constructor ()
      ensures content == []
    {
      content := [];
    }

    method Write(bytes: seq<byte>)
      modifies this
      ensures content == old(content) + bytes
    {
      content := content + bytes;
    }
  }
}
