/** What the decoder does with a shortened buffer `b[..k]`. A structure that
    ends with a single-byte read decodes to the same value when the prefix
    still holds all of it, and fails otherwise. Instruments end with a name
    read, which clamps instead of failing, so for them only the first half
    holds; the table read that follows them makes up for it. Together these
    give: a successful decode never looks past the bytes it consumed, and
    every prefix shorter than the bytes it consumed is rejected. */
module Truncation {
  import opened SongTypes
  import opened Layout

  lemma ChannelPrefix(b: seq<byte>, s: nat, k: nat)
    requires ChannelAt(b, s).Done? && k <= |b|
    ensures ChannelAt(b[..k], s) == if ChannelAt(b, s).next <= k then ChannelAt(b, s) else Truncated
  {
    if ChannelAt(b, s).next <= k {
      var n := b[s];
      assert b[..k][s + 1..s + 1 + n + 1] == b[s + 1..s + 1 + n + 1];
    }
  }

  lemma {:induction false} ChannelsPrefix(b: seq<byte>, s: nat, count: nat, k: nat)
    requires ChannelsAt(b, s, count).Done? && s <= k <= |b|
    ensures ChannelsAt(b[..k], s, count) == if ChannelsAt(b, s, count).next <= k then ChannelsAt(b, s, count) else Truncated
    decreases count
  {
    if count > 0 {
      ChannelsPrefix(b, s, count - 1, k);
      var e := ChannelsAt(b, s, count - 1).next;
      if e <= k {
        ChannelPrefix(b, e, k);
      }
    }
  }

  lemma {:induction false} SubtunesPrefix(b: seq<byte>, s: nat, count: nat, k: nat)
    requires SubtunesAt(b, s, count).Done? && s <= k <= |b|
    ensures SubtunesAt(b[..k], s, count) == if SubtunesAt(b, s, count).next <= k then SubtunesAt(b, s, count) else Truncated
    decreases count
  {
    if count > 0 {
      SubtunesPrefix(b, s, count - 1, k);
      var e := SubtunesAt(b, s, count - 1).next;
      if e <= k {
        ChannelsPrefix(b, e, 3, k);
      }
    }
  }

  lemma HeaderPrefix(b: seq<byte>, s: nat, k: nat)
    requires HeaderAt(b, s).Done? && k <= |b|
    ensures HeaderAt(b[..k], s) == if HeaderAt(b, s).next <= k then HeaderAt(b, s) else Truncated
  {
    if s + HeaderSize <= k {
      assert Slice(b[..k], s, 4) == Slice(b, s, 4);
      assert Slice(b[..k], s + 4, 32) == Slice(b, s + 4, 32);
      assert Slice(b[..k], s + 36, 32) == Slice(b, s + 36, 32);
      assert Slice(b[..k], s + 68, 32) == Slice(b, s + 68, 32);
    }
  }

  /** An instrument whose bytes all lie in the prefix reads the same. */
  lemma InstrumentPrefix(b: seq<byte>, s: nat, k: nat)
    requires InstrumentAt(b, s).Done? && InstrumentAt(b, s).next <= k <= |b|
    ensures InstrumentAt(b[..k], s) == InstrumentAt(b, s)
  {
    assert b[..k][s..s + 9] == b[s..s + 9];
    assert Slice(b[..k], s + 9, 16) == Slice(b, s + 9, 16);
  }

  /** A cut inside an instrument's name still reads the instrument, with the
      name taken from the bytes left before the cut, and ends where it did. */
  lemma InstrumentCutInName(b: seq<byte>, s: nat, k: nat)
    requires s + 9 <= k < s + InstrumentSize && k <= |b|
    ensures InstrumentAt(b[..k], s).Done? && InstrumentAt(b, s).Done?
    ensures InstrumentAt(b[..k], s).next == InstrumentAt(b, s).next
    ensures InstrumentAt(b[..k], s).value.name == StripZeros(b[s + 9..k])
  {
    assert Slice(b[..k], s + 9, 16) == b[s + 9..k];
  }

  lemma {:induction false} InstrumentListPrefix(b: seq<byte>, s: nat, count: nat, k: nat)
    requires InstrumentListAt(b, s, count).Done? && InstrumentListAt(b, s, count).next <= k <= |b|
    ensures InstrumentListAt(b[..k], s, count) == InstrumentListAt(b, s, count)
    decreases count
  {
    if count > 0 {
      InstrumentListPrefix(b, s, count - 1, k);
      InstrumentPrefix(b, InstrumentListAt(b, s, count - 1).next, k);
    }
  }

  /** The instrument block reads the same when the prefix holds all of it;
      otherwise it fails or still ends at the same offset. */
  lemma InstrumentsPrefix(b: seq<byte>, s: nat, k: nat)
    requires InstrumentsAt(b, s).Done? && k <= |b|
    ensures InstrumentsAt(b, s).next <= k ==> InstrumentsAt(b[..k], s) == InstrumentsAt(b, s)
    ensures InstrumentsAt(b[..k], s).Done? ==> InstrumentsAt(b[..k], s).next == InstrumentsAt(b, s).next
  {
    if InstrumentsAt(b, s).next <= k {
      InstrumentListPrefix(b, s + 1, b[s], k);
    }
  }

  lemma TablePrefix(b: seq<byte>, s: nat, k: nat)
    requires TableAt(b, s).Done? && k <= |b|
    ensures TableAt(b[..k], s) == if TableAt(b, s).next <= k then TableAt(b, s) else Truncated
  {
    if TableAt(b, s).next <= k {
      var n := b[s];
      assert b[..k][s + 1..s + 1 + n] == b[s + 1..s + 1 + n];
      assert b[..k][s + 1 + n..s + 1 + n + n] == b[s + 1 + n..s + 1 + n + n];
    }
  }

  lemma PatternPrefix(b: seq<byte>, s: nat, k: nat)
    requires PatternAt(b, s).Done? && k <= |b|
    ensures PatternAt(b[..k], s) == if PatternAt(b, s).next <= k then PatternAt(b, s) else Truncated
  {
    if PatternAt(b, s).next <= k && b[s] > 0 {
      var m := b[s];
      var rows := seq(m, i requires 0 <= i < m => RowAt(b, s + 1 + 4 * i));
      var rows' := seq(m, i requires 0 <= i < m => RowAt(b[..k], s + 1 + 4 * i));
      assert rows == rows';
    }
  }

  lemma {:induction false} PatternListPrefix(b: seq<byte>, s: nat, count: nat, k: nat)
    requires PatternListAt(b, s, count).Done? && s <= k <= |b|
    ensures PatternListAt(b[..k], s, count) == if PatternListAt(b, s, count).next <= k then PatternListAt(b, s, count) else Truncated
    decreases count
  {
    if count > 0 {
      PatternListPrefix(b, s, count - 1, k);
      var e := PatternListAt(b, s, count - 1).next;
      if e <= k {
        PatternPrefix(b, e, k);
      }
    }
  }

  lemma PatternsPrefix(b: seq<byte>, s: nat, k: nat)
    requires PatternsAt(b, s).Done? && k <= |b|
    ensures PatternsAt(b[..k], s) == if PatternsAt(b, s).next <= k then PatternsAt(b, s) else Truncated
  {
    if s < k {
      PatternListPrefix(b, s + 1, b[s], k);
    }
  }

  /** A song decodes the same from any prefix that holds all of it, and from
      no shorter one. */
  lemma SongPrefix(b: seq<byte>, s: nat, k: nat)
    requires SongAt(b, s).Done? && k <= |b|
    ensures SongAt(b[..k], s) == if SongAt(b, s).next <= k then SongAt(b, s) else Truncated
  {
    var b' := b[..k];
    HeaderPrefix(b, s, k);
    var header := HeaderAt(b, s).value;
    var e1 := HeaderAt(b, s).next;
    if k < e1 { return; }
    SubtunesPrefix(b, e1, header.subtunes, k);
    var e2 := SubtunesAt(b, e1, header.subtunes).next;
    if k < e2 { return; }
    InstrumentsPrefix(b, e2, k);
    var e3 := InstrumentsAt(b, e2).next;
    if k < e3 {
      assert TableAt(b', e3).Truncated?;
      return;
    }
    TablePrefix(b, e3, k);
    var e4 := TableAt(b, e3).next;
    if k < e4 { return; }
    TablePrefix(b, e4, k);
    var e5 := TableAt(b, e4).next;
    if k < e5 { return; }
    TablePrefix(b, e5, k);
    var e6 := TableAt(b, e5).next;
    if k < e6 { return; }
    TablePrefix(b, e6, k);
    var e7 := TableAt(b, e6).next;
    if k < e7 { return; }
    PatternsPrefix(b, e7, k);
  }

  /** Decoding never depends on bytes after the ones it consumed. */
  lemma DecodeIgnoresTrailingBytes(b: seq<byte>, k: nat)
    requires Decode(b).Done? && Decode(b).next <= k <= |b|
    ensures Decode(b[..k]) == Decode(b)
  {
    SongPrefix(b, 0, k);
  }

  /** Cutting a decodable file anywhere before its last consumed byte makes
      decoding fail: no truncated file yields a partial song. */
  lemma DecodeRejectsTruncation(b: seq<byte>, k: nat)
    requires Decode(b).Done? && k < Decode(b).next
    ensures Decode(b[..k]).Truncated?
  {
    SongPrefix(b, 0, k);
  }
}
