/** The byte cursor the decoder reads through: an immutable buffer and one
    offset that every read moves forward. */
module Cursor {
  import opened SongTypes
  import opened Layout

  /** Converts a field's bytes to text by keeping the nonzero ones in order. */
  method IntToString(list: seq<byte>) returns (s: seq<byte>)
    ensures s == StripZeros(list)
  {
    s := [];
    for i := 0 to |list|
      invariant s == StripZeros(list[..i])
    {
      assert list[..i + 1][..i] == list[..i];
      if list[i] != 0 {
        s := s + [list[i]];
      }
    }
    assert list[..|list|] == list;
  }

  class ByteCursor {
    const buffer: seq<byte>
    var offset: nat

    constructor (buffer: seq<byte>)
      ensures this.buffer == buffer && offset == 0
    {
      this.buffer := buffer;
      offset := 0;
    }

    /** The byte at the offset, which then moves on by one; past the end of
        the buffer the read fails and the offset stays where it was. */
    method ReadByte() returns (r: Option<byte>)
      modifies this
      ensures old(offset) < |buffer| ==> r == Some(buffer[old(offset)]) && offset == old(offset) + 1
      ensures old(offset) >= |buffer| ==> r == None && offset == old(offset)
    {
      if offset >= |buffer| {
        return None;
      }
      r := Some(buffer[offset]);
      offset := offset + 1;
    }

    /** The `size`-byte window at the offset, clamped to the end of the
        buffer, with its zero bytes removed; the offset moves on by `size`
        whether or not the window was complete. */
    method ReadString(size: nat) returns (s: seq<byte>)
      modifies this
      ensures s == StripZeros(Slice(buffer, old(offset), size))
      ensures offset == old(offset) + size
    {
      var lo := if offset < |buffer| then offset else |buffer|;
      var hi := if offset + size < |buffer| then offset + size else |buffer|;
      s := IntToString(buffer[lo..hi]);
      offset := offset + size;
    }
  }
}
