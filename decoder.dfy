/** The decoding half of the program's main routine: one forward pass over a
    `ByteCursor`, in the order header, order lists, instruments, four tables,
    patterns. Each method is proved to do what the corresponding `Layout`
    function describes, reading from the cursor's offset on. */
module Decoder {
  import opened SongTypes
  import opened Layout
  import opened Cursor

  /** The method's answer `r` and the cursor's final offset agree with the
      layout's parse `p`: the same value and end offset, or failure. */
  predicate Agrees<T(==)>(p: Parse<T>, r: Option<T>, offset: nat) {
    match p
    case Done(v, e) => r == Some(v) && offset == e
    case Truncated => r == None
  }

  /** `count` single-byte reads collected in order. */
  method ReadBytes(c: ByteCursor, count: nat) returns (r: Option<seq<byte>>)
    modifies c
    ensures Agrees(BytesAt(c.buffer, old(c.offset), count), r, c.offset)
    ensures c.offset >= old(c.offset)
  {
    var list := [];
    for i := 0 to count
      invariant c.offset == old(c.offset) + i && |list| == i
      invariant forall j :: 0 <= j < i ==> old(c.offset) + j < |c.buffer| && list[j] == c.buffer[old(c.offset) + j]
      invariant i > 0 ==> c.offset <= |c.buffer|
    {
      var x := c.ReadByte();
      if x.None? {
        return None;
      }
      list := list + [x.value];
    }
    assert count > 0 ==> list == c.buffer[old(c.offset)..old(c.offset) + count];
    return Some(list);
  }

  method ReadHeader(c: ByteCursor) returns (r: Option<Header>)
    modifies c
    ensures Agrees(HeaderAt(c.buffer, old(c.offset)), r, c.offset)
    ensures c.offset >= old(c.offset)
  {
    var id := c.ReadString(4);
    var name := c.ReadString(32);
    var author := c.ReadString(32);
    var copyright := c.ReadString(32);
    var subtunes := c.ReadByte();
    if subtunes.None? {
      return None;
    }
    return Some(Header(id, name, author, copyright, subtunes.value));
  }

  /** A length byte n and the n+1 order-list entries after it. */
  method ReadChannel(c: ByteCursor) returns (r: Option<Channel>)
    modifies c
    ensures Agrees(ChannelAt(c.buffer, old(c.offset)), r, c.offset)
    ensures c.offset >= old(c.offset)
  {
    var length := c.ReadByte();
    if length.None? {
      return None;
    }
    var entries := ReadBytes(c, length.value as nat + 1);
    if entries.None? {
      return None;
    }
    return Some(Channel(length.value, entries.value));
  }

  /** The three channels of one subtune. */
  method ReadSubtune(c: ByteCursor) returns (r: Option<seq<Channel>>)
    modifies c
    ensures Agrees(ChannelsAt(c.buffer, old(c.offset), 3), r, c.offset)
    ensures c.offset >= old(c.offset)
  {
    ghost var start := c.offset;
    var subtune := [];
    for k := 0 to 3
      invariant ChannelsAt(c.buffer, start, k) == Done(subtune, c.offset)
    {
      ghost var e := c.offset;
      var channel := ReadChannel(c);
      if channel.None? {
        ChannelsTruncatedStays(c.buffer, start, k + 1, 3);
        return None;
      }
      ChannelsAtStep(c.buffer, start, k, subtune, e, channel.value, c.offset);
      subtune := subtune + [channel.value];
    }
    return Some(subtune);
  }

  /** Channels 1, 2, 3 of the first subtune, then of the second, and so on. */
  method ReadOrderlists(c: ByteCursor, subtunes: byte) returns (r: Option<seq<seq<Channel>>>)
    modifies c
    ensures Agrees(SubtunesAt(c.buffer, old(c.offset), subtunes), r, c.offset)
    ensures c.offset >= old(c.offset)
  {
    ghost var start := c.offset;
    var orderlist := [];
    for j := 0 to subtunes
      invariant SubtunesAt(c.buffer, start, j) == Done(orderlist, c.offset)
    {
      ghost var e := c.offset;
      var subtune := ReadSubtune(c);
      if subtune.None? {
        SubtunesTruncatedStays(c.buffer, start, j + 1, subtunes);
        return None;
      }
      SubtunesAtStep(c.buffer, start, j, orderlist, e, subtune.value, c.offset);
      orderlist := orderlist + [subtune.value];
    }
    return Some(orderlist);
  }

  /** Nine parameter bytes in file order, then the 16-byte name. */
  method ReadInstrument(c: ByteCursor) returns (r: Option<Instrument>)
    modifies c
    ensures Agrees(InstrumentAt(c.buffer, old(c.offset)), r, c.offset)
    ensures c.offset >= old(c.offset)
  {
    var ad := c.ReadByte();
    if ad.None? { return None; }
    var sr := c.ReadByte();
    if sr.None? { return None; }
    var wave := c.ReadByte();
    if wave.None? { return None; }
    var pulse := c.ReadByte();
    if pulse.None? { return None; }
    var filter := c.ReadByte();
    if filter.None? { return None; }
    var vibratoParam := c.ReadByte();
    if vibratoParam.None? { return None; }
    var vibratoDelay := c.ReadByte();
    if vibratoDelay.None? { return None; }
    var gateoff := c.ReadByte();
    if gateoff.None? { return None; }
    var hardRestart := c.ReadByte();
    if hardRestart.None? { return None; }
    var name := c.ReadString(16);
    return Some(Instrument(ad.value, sr.value, wave.value, pulse.value, filter.value,
                           vibratoParam.value, vibratoDelay.value, gateoff.value,
                           hardRestart.value, name));
  }

  /** The instrument count and that many instruments (instrument 0 is not stored). */
  method ReadInstruments(c: ByteCursor) returns (r: Option<(byte, seq<Instrument>)>)
    modifies c
    ensures Agrees(InstrumentsAt(c.buffer, old(c.offset)), r, c.offset)
    ensures c.offset >= old(c.offset)
  {
    var amount := c.ReadByte();
    if amount.None? {
      return None;
    }
    ghost var start := c.offset;
    var entries := [];
    for i := 0 to amount.value
      invariant InstrumentListAt(c.buffer, start, i) == Done(entries, c.offset)
    {
      ghost var e := c.offset;
      var entry := ReadInstrument(c);
      if entry.None? {
        InstrumentsTruncatedStays(c.buffer, start, i + 1, amount.value);
        return None;
      }
      InstrumentListAtStep(c.buffer, start, i, entries, e, entry.value, c.offset);
      entries := entries + [entry.value];
    }
    return Some((amount.value, entries));
  }

  /** A length byte n, n left bytes, then n right bytes. */
  method ReadTable(c: ByteCursor) returns (r: Option<Table>)
    modifies c
    ensures Agrees(TableAt(c.buffer, old(c.offset)), r, c.offset)
    ensures c.offset >= old(c.offset)
  {
    var length := c.ReadByte();
    if length.None? {
      return None;
    }
    var left := ReadBytes(c, length.value);
    if left.None? {
      return None;
    }
    var right := ReadBytes(c, length.value);
    if right.None? {
      return None;
    }
    return Some(Table(length.value, left.value, right.value));
  }

  /** A row count m and m rows of note, instrument, command and data. */
  method ReadPattern(c: ByteCursor) returns (r: Option<Pattern>)
    modifies c
    ensures Agrees(PatternAt(c.buffer, old(c.offset)), r, c.offset)
    ensures c.offset >= old(c.offset)
  {
    var length := c.ReadByte();
    if length.None? {
      return None;
    }
    ghost var start := c.offset;
    var rows := [];
    for j := 0 to length.value
      invariant c.offset == start + 4 * j && |rows| == j
      invariant j > 0 ==> c.offset <= |c.buffer|
      invariant forall q :: 0 <= q < j ==> start + 4 * q + 4 <= |c.buffer| && rows[q] == RowAt(c.buffer, start + 4 * q)
    {
      var note := c.ReadByte();
      if note.None? { return None; }
      var instrument := c.ReadByte();
      if instrument.None? { return None; }
      var command := c.ReadByte();
      if command.None? { return None; }
      var data := c.ReadByte();
      if data.None? { return None; }
      rows := rows + [Row(note.value, instrument.value, command.value, data.value)];
    }
    assert length.value > 0 ==>
      rows == seq(length.value, i requires 0 <= i < length.value => RowAt(c.buffer, start + 4 * i));
    return Some(Pattern(length.value, rows));
  }

  /** The pattern count and that many patterns, from pattern 0 on. */
  method ReadPatterns(c: ByteCursor) returns (r: Option<(byte, seq<Pattern>)>)
    modifies c
    ensures Agrees(PatternsAt(c.buffer, old(c.offset)), r, c.offset)
    ensures c.offset >= old(c.offset)
  {
    var amount := c.ReadByte();
    if amount.None? {
      return None;
    }
    ghost var start := c.offset;
    var patterns := [];
    for i := 0 to amount.value
      invariant PatternListAt(c.buffer, start, i) == Done(patterns, c.offset)
    {
      ghost var e := c.offset;
      var pattern := ReadPattern(c);
      if pattern.None? {
        PatternsTruncatedStays(c.buffer, start, i + 1, amount.value);
        return None;
      }
      PatternListAtStep(c.buffer, start, i, patterns, e, pattern.value, c.offset);
      patterns := patterns + [pattern.value];
    }
    return Some((amount.value, patterns));
  }

  /** The whole song, read from the cursor's offset on. */
  method DecodeSong(c: ByteCursor) returns (r: Option<Song>)
    modifies c
    ensures Agrees(SongAt(c.buffer, old(c.offset)), r, c.offset)
    ensures c.offset >= old(c.offset)
  {
    var header := ReadHeader(c);
    if header.None? { return None; }
    var orderlists := ReadOrderlists(c, header.value.subtunes);
    if orderlists.None? { return None; }
    var instruments := ReadInstruments(c);
    if instruments.None? { return None; }
    var wave := ReadTable(c);
    if wave.None? { return None; }
    var pulse := ReadTable(c);
    if pulse.None? { return None; }
    var filter := ReadTable(c);
    if filter.None? { return None; }
    var speed := ReadTable(c);
    if speed.None? { return None; }
    var patterns := ReadPatterns(c);
    if patterns.None? { return None; }
    return Some(Song(header.value, orderlists.value, instruments.value.0, instruments.value.1,
                     wave.value, pulse.value, filter.value, speed.value,
                     patterns.value.0, patterns.value.1));
  }

  /** Decodes a whole file: a fresh cursor at offset 0 over its bytes. The
      result is a song exactly when the layout decodes one, and then it is
      that song, shaped by its count and length bytes. */
  method DecodeFile(buffer: seq<byte>) returns (r: Option<Song>)
    ensures r.Some? <==> Decode(buffer).Done?
    ensures r.Some? ==> r.value == Decode(buffer).value && WellFormed(r.value)
    ensures r.Some? ==> SongSize(r.value) <= |buffer|
  {
    var c := new ByteCursor(buffer);
    r := DecodeSong(c);
  }
}
