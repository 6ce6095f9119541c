/** The GTS5 layout written the other way round: the bytes a song occupies,
    with each string zero-padded to its field width. The program only reads
    this format; the encoder is here as the inverse the decoder is checked
    against: decoding the encoding of a song gives the song back, consuming
    exactly its bytes, wherever it sits in a buffer. */
module Encoding {
  import opened SongTypes
  import opened Layout

  function Zeros(n: nat): seq<byte> {
    seq(n, _ => 0)
  }

  /** A string stored in a fixed-width field, padded with zeros. */
  function Pad(s: seq<byte>, width: nat): (r: seq<byte>)
    requires |s| <= width
    ensures |r| == width
  {
    s + Zeros(width - |s|)
  }

  function EncodeHeader(h: Header): (r: seq<byte>)
    requires HeaderFits(h)
    ensures |r| == HeaderSize
  {
    Pad(h.id, 4) + Pad(h.name, 32) + Pad(h.author, 32) + Pad(h.copyright, 32) + [h.subtunes]
  }

  function EncodeChannel(c: Channel): seq<byte> {
    [c.length] + c.entries
  }

  function EncodeChannels(cs: seq<Channel>): seq<byte> {
    if cs == [] then [] else EncodeChannels(cs[..|cs| - 1]) + EncodeChannel(cs[|cs| - 1])
  }

  function EncodeOrderlists(subs: seq<seq<Channel>>): seq<byte> {
    if subs == [] then [] else EncodeOrderlists(subs[..|subs| - 1]) + EncodeChannels(subs[|subs| - 1])
  }

  function EncodeInstrument(ins: Instrument): (r: seq<byte>)
    requires |ins.name| <= 16
    ensures |r| == InstrumentSize
  {
    [ins.ad, ins.sr, ins.wave, ins.pulse, ins.filter,
     ins.vibratoParam, ins.vibratoDelay, ins.gateoff, ins.hardRestart] + Pad(ins.name, 16)
  }

  function EncodeInstruments(list: seq<Instrument>): (r: seq<byte>)
    requires NamesFit(list)
  {
    if list == [] then [] else EncodeInstruments(list[..|list| - 1]) + EncodeInstrument(list[|list| - 1])
  }

  function EncodeTable(t: Table): seq<byte> {
    [t.length] + t.left + t.right
  }

  function EncodeRow(row: Row): seq<byte> {
    [row.note, row.instrument, row.command, row.data]
  }

  /** Rows back to back, four bytes each. */
  function EncodeRows(rows: seq<Row>): (r: seq<byte>)
    ensures |r| == 4 * |rows|
  {
    seq(4 * |rows|, k requires 0 <= k < 4 * |rows| => EncodeRow(rows[k / 4])[k % 4])
  }

  function EncodePattern(p: Pattern): seq<byte> {
    [p.length] + EncodeRows(p.rows)
  }

  function EncodePatterns(ps: seq<Pattern>): seq<byte> {
    if ps == [] then [] else EncodePatterns(ps[..|ps| - 1]) + EncodePattern(ps[|ps| - 1])
  }

  /** The wave, pulse, filter and speed tables, in that order. */
  function EncodeTables(song: Song): seq<byte> {
    EncodeTable(song.wave) + EncodeTable(song.pulse) + EncodeTable(song.filter) + EncodeTable(song.speed)
  }

  function Encode(song: Song): seq<byte>
    requires WellFormed(song)
  {
    EncodeHeader(song.header)
    + EncodeOrderlists(song.orderlists)
    + ([song.instrumentCount] + EncodeInstruments(song.instruments))
    + EncodeTables(song)
    + ([song.patternCount] + EncodePatterns(song.patterns))
  }

  predicate NamesHaveNoZeros(list: seq<Instrument>) {
    forall i :: 0 <= i < |list| ==> NoZeros(list[i].name)
  }

  /** A song the decoder can give back exactly: shaped by its count bytes, and
      with strings that hold no zero byte (the decoder drops those). */
  predicate Encodable(song: Song) {
    && WellFormed(song)
    && NoZeros(song.header.id) && NoZeros(song.header.name)
    && NoZeros(song.header.author) && NoZeros(song.header.copyright)
    && NamesHaveNoZeros(song.instruments)
  }

  /** `x` occurs in `b` at offset `s`. */
  predicate Embeds(b: seq<byte>, s: nat, x: seq<byte>) {
    s + |x| <= |b| && b[s..s + |x|] == x
  }

  lemma EmbedsSplit(b: seq<byte>, s: nat, x: seq<byte>, y: seq<byte>)
    requires Embeds(b, s, x + y)
    ensures Embeds(b, s, x) && Embeds(b, s + |x|, y)
  {
    assert b[s..s + |x|] == (x + y)[..|x|];
    assert b[s + |x|..s + |x| + |y|] == (x + y)[|x|..];
  }

  // ---------------------------------------------------------------------------
  // Decoding each encoded structure gives it back.

  /** `x` occurring at `s` puts its `k`-th byte at `s + k`. */
  lemma EmbedsByte(b: seq<byte>, s: nat, x: seq<byte>, k: nat)
    requires Embeds(b, s, x) && k < |x|
    ensures b[s + k] == x[k]
  {
    assert b[s..s + |x|][k] == b[s + k];
  }

  lemma StringDecodes(b: seq<byte>, s: nat, str: seq<byte>, width: nat)
    requires |str| <= width && NoZeros(str) && Embeds(b, s, Pad(str, width))
    ensures StringAt(b, s, width) == Done(str, s + width)
  {
    var z := Zeros(width - |str|);
    assert Slice(b, s, width) == str + z;
    StripZerosAppend(str, z);
    StripZerosKeeps(str);
    StripZerosOfZeros(z);
    assert str + [] == str;
    assert StringAt(b, s, width).value == StripZeros(Slice(b, s, width));
  }

  lemma HeaderDecodes(b: seq<byte>, s: nat, h: Header)
    requires HeaderFits(h) && NoZeros(h.id) && NoZeros(h.name) && NoZeros(h.author) && NoZeros(h.copyright)
    requires Embeds(b, s, EncodeHeader(h))
    ensures HeaderAt(b, s) == Done(h, s + HeaderSize)
  {
    var p1, p2, p3, p4 := Pad(h.id, 4), Pad(h.name, 32), Pad(h.author, 32), Pad(h.copyright, 32);
    EmbedsByte(b, s, EncodeHeader(h), 100);
    EmbedsSplit(b, s, p1 + p2 + p3 + p4, [h.subtunes]);
    EmbedsSplit(b, s, p1 + p2 + p3, p4);
    EmbedsSplit(b, s, p1 + p2, p3);
    EmbedsSplit(b, s, p1, p2);
    StringDecodes(b, s, h.id, 4);
    StringDecodes(b, s + 4, h.name, 32);
    StringDecodes(b, s + 36, h.author, 32);
    StringDecodes(b, s + 68, h.copyright, 32);
  }

  lemma ChannelDecodes(b: seq<byte>, s: nat, c: Channel, e: nat)
    requires ChannelShaped(c) && Embeds(b, s, EncodeChannel(c)) && e == s + |EncodeChannel(c)|
    ensures ChannelAt(b, s) == Done(c, e)
  {
    EmbedsByte(b, s, EncodeChannel(c), 0);
    EmbedsSplit(b, s, [c.length], c.entries);
  }

  lemma {:induction false} ChannelsDecode(b: seq<byte>, s: nat, cs: seq<Channel>, n: nat, e: nat)
    requires ChannelsShaped(cs) && Embeds(b, s, EncodeChannels(cs))
    requires n == |cs| && e == s + |EncodeChannels(cs)|
    ensures ChannelsAt(b, s, n) == Done(cs, e)
    decreases n
  {
    if n > 0 {
      var init, last := cs[..n - 1], cs[n - 1];
      var e0 := s + |EncodeChannels(init)|;
      SplitLast(cs);
      EmbedsSplit(b, s, EncodeChannels(init), EncodeChannel(last));
      ChannelDecodes(b, e0, last, e);
      ChannelsDecode(b, s, init, n - 1, e0);
      ChannelsAtStep(b, s, n - 1, init, e0, last, e);
    }
  }

  /** The order lists of `n` subtunes, ending at `e`. */
  lemma {:induction false} SubtunesDecode(b: seq<byte>, s: nat, subs: seq<seq<Channel>>, n: nat, e: nat)
    requires OrderlistsShaped(subs) && Embeds(b, s, EncodeOrderlists(subs))
    requires n == |subs| && e == s + |EncodeOrderlists(subs)|
    ensures SubtunesAt(b, s, n) == Done(subs, e)
    decreases n
  {
    if n > 0 {
      var init, last := subs[..n - 1], subs[n - 1];
      var e0 := s + |EncodeOrderlists(init)|;
      SplitLast(subs);
      EmbedsSplit(b, s, EncodeOrderlists(init), EncodeChannels(last));
      ChannelsDecode(b, e0, last, 3, e);
      SubtunesDecode(b, s, init, n - 1, e0);
      SubtunesAtStep(b, s, n - 1, init, e0, last, e);
    }
  }

  lemma InstrumentDecodes(b: seq<byte>, s: nat, ins: Instrument)
    requires |ins.name| <= 16 && NoZeros(ins.name) && Embeds(b, s, EncodeInstrument(ins))
    ensures InstrumentAt(b, s) == Done(ins, s + InstrumentSize)
  {
    var p := [ins.ad, ins.sr, ins.wave, ins.pulse, ins.filter,
              ins.vibratoParam, ins.vibratoDelay, ins.gateoff, ins.hardRestart];
    EmbedsSplit(b, s, p, Pad(ins.name, 16));
    StringDecodes(b, s + 9, ins.name, 16);
  }

  lemma {:induction false} InstrumentListDecodes(b: seq<byte>, s: nat, list: seq<Instrument>, n: nat, e: nat)
    requires NamesFit(list) && NamesHaveNoZeros(list)
    requires Embeds(b, s, EncodeInstruments(list))
    requires n == |list| && e == s + |EncodeInstruments(list)|
    ensures InstrumentListAt(b, s, n) == Done(list, e)
    decreases n
  {
    if n > 0 {
      var init, last := list[..n - 1], list[n - 1];
      var e0 := s + |EncodeInstruments(init)|;
      SplitLast(list);
      EmbedsSplit(b, s, EncodeInstruments(init), EncodeInstrument(last));
      InstrumentDecodes(b, e0, last);
      InstrumentListDecodes(b, s, init, n - 1, e0);
      InstrumentListAtStep(b, s, n - 1, init, e0, last, e);
    }
  }

  lemma TableDecodes(b: seq<byte>, s: nat, t: Table, e: nat)
    requires TableShaped(t) && Embeds(b, s, EncodeTable(t)) && e == s + |EncodeTable(t)|
    ensures TableAt(b, s) == Done(t, e)
  {
    EmbedsByte(b, s, EncodeTable(t), 0);
    EmbedsSplit(b, s, [t.length] + t.left, t.right);
    EmbedsSplit(b, s, [t.length], t.left);
  }

  lemma RowDecodes(b: seq<byte>, s: nat, rows: seq<Row>, i: nat)
    requires i < |rows| && Embeds(b, s, EncodeRows(rows))
    ensures s + 4 * i + 4 <= |b| && RowAt(b, s + 4 * i) == rows[i]
  {
    var enc := EncodeRows(rows);
    EmbedsByte(b, s, enc, 4 * i);
    EmbedsByte(b, s, enc, 4 * i + 1);
    EmbedsByte(b, s, enc, 4 * i + 2);
    EmbedsByte(b, s, enc, 4 * i + 3);
    assert (4 * i + 1) / 4 == i && (4 * i + 2) / 4 == i && (4 * i + 3) / 4 == i;
  }

  lemma RowsDecode(b: seq<byte>, s: nat, rows: seq<Row>)
    requires Embeds(b, s, EncodeRows(rows))
    ensures RowsAt(b, s, |rows|) == Done(rows, s + |EncodeRows(rows)|)
  {
    if rows != [] {
      var r := RowsAt(b, s, |rows|);
      forall i | 0 <= i < |rows|
        ensures r.value[i] == rows[i]
      {
        RowDecodes(b, s, rows, i);
      }
      assert r.value == rows;
    }
  }

  lemma PatternDecodes(b: seq<byte>, s: nat, p: Pattern, e: nat)
    requires PatternShaped(p) && Embeds(b, s, EncodePattern(p)) && e == s + |EncodePattern(p)|
    ensures PatternAt(b, s) == Done(p, e)
  {
    EmbedsByte(b, s, EncodePattern(p), 0);
    EmbedsSplit(b, s, [p.length], EncodeRows(p.rows));
    RowsDecode(b, s + 1, p.rows);
  }

  lemma {:induction false} PatternListDecodes(b: seq<byte>, s: nat, ps: seq<Pattern>, n: nat, e: nat)
    requires PatternsShaped(ps) && Embeds(b, s, EncodePatterns(ps))
    requires n == |ps| && e == s + |EncodePatterns(ps)|
    ensures PatternListAt(b, s, n) == Done(ps, e)
    decreases n
  {
    if n > 0 {
      var init, last := ps[..n - 1], ps[n - 1];
      var e0 := s + |EncodePatterns(init)|;
      SplitLast(ps);
      EmbedsSplit(b, s, EncodePatterns(init), EncodePattern(last));
      PatternDecodes(b, e0, last, e);
      PatternListDecodes(b, s, init, n - 1, e0);
      PatternListAtStep(b, s, n - 1, init, e0, last, e);
    }
  }

  lemma InstrumentsDecode(b: seq<byte>, s: nat, count: byte, list: seq<Instrument>, e: nat)
    requires |list| == count
    requires NamesFit(list) && NamesHaveNoZeros(list)
    requires Embeds(b, s, [count] + EncodeInstruments(list)) && e == s + 1 + |EncodeInstruments(list)|
    ensures InstrumentsAt(b, s) == Done((count, list), e)
  {
    EmbedsByte(b, s, [count] + EncodeInstruments(list), 0);
    EmbedsSplit(b, s, [count], EncodeInstruments(list));
    InstrumentListDecodes(b, s + 1, list, count, e);
  }

  /** The pattern block: its count byte and the patterns, ending at `e`. */
  lemma PatternsDecode(b: seq<byte>, s: nat, count: byte, ps: seq<Pattern>, e: nat)
    requires |ps| == count && PatternsShaped(ps)
    requires Embeds(b, s, [count] + EncodePatterns(ps)) && e == s + 1 + |EncodePatterns(ps)|
    ensures PatternsAt(b, s) == Done((count, ps), e)
  {
    EmbedsByte(b, s, [count] + EncodePatterns(ps), 0);
    EmbedsSplit(b, s, [count], EncodePatterns(ps));
    PatternListDecodes(b, s + 1, ps, count, e);
  }

  /** The four tables decode one after the other from their encoding, the
      `k`-th ending at `ek`. */
  lemma TablesDecode(b: seq<byte>, s: nat, song: Song, e4: nat, e5: nat, e6: nat, e7: nat)
    requires TableShaped(song.wave) && TableShaped(song.pulse)
    requires TableShaped(song.filter) && TableShaped(song.speed)
    requires Embeds(b, s, EncodeTables(song))
    requires e4 == s + |EncodeTable(song.wave)| && e5 == e4 + |EncodeTable(song.pulse)|
    requires e6 == e5 + |EncodeTable(song.filter)| && e7 == s + |EncodeTables(song)|
    ensures TableAt(b, s) == Done(song.wave, e4) && TableAt(b, e4) == Done(song.pulse, e5)
    ensures TableAt(b, e5) == Done(song.filter, e6) && TableAt(b, e6) == Done(song.speed, e7)
  {
    var w, pu, f, sp := EncodeTable(song.wave), EncodeTable(song.pulse), EncodeTable(song.filter), EncodeTable(song.speed);
    EmbedsSplit(b, s, w + pu + f, sp);
    EmbedsSplit(b, s, w + pu, f);
    EmbedsSplit(b, s, w, pu);
    TableDecodes(b, s, song.wave, e4);
    TableDecodes(b, e4, song.pulse, e5);
    TableDecodes(b, e5, song.filter, e6);
    TableDecodes(b, e6, song.speed, e7);
  }

  /** Five byte strings embedded back to back are each embedded at their own offset. */
  lemma EmbedsFive(b: seq<byte>, s: nat, x1: seq<byte>, x2: seq<byte>, x3: seq<byte>, x4: seq<byte>,
                   x5: seq<byte>, e1: nat, e2: nat, e3: nat, e4: nat)
    requires Embeds(b, s, x1 + x2 + x3 + x4 + x5)
    requires e1 == s + |x1| && e2 == e1 + |x2| && e3 == e2 + |x3| && e4 == e3 + |x4|
    ensures Embeds(b, s, x1) && Embeds(b, e1, x2) && Embeds(b, e2, x3)
    ensures Embeds(b, e3, x4) && Embeds(b, e4, x5)
    ensures s + |x1 + x2 + x3 + x4 + x5| == e4 + |x5|
  {
    EmbedsSplit(b, s, x1 + x2 + x3 + x4, x5);
    EmbedsSplit(b, s, x1 + x2 + x3, x4);
    EmbedsSplit(b, s, x1 + x2, x3);
    EmbedsSplit(b, s, x1, x2);
  }

  /** The encoding of a song is its five blocks back to back, starting at
      `s`, `e1`, `e2`, `e3` and `e7`. */
  lemma EncodeBlocks(b: seq<byte>, s: nat, song: Song, e1: nat, e2: nat, e3: nat, e7: nat)
    requires WellFormed(song) && Embeds(b, s, Encode(song))
    requires e1 == s + HeaderSize && e2 == e1 + |EncodeOrderlists(song.orderlists)|
    requires e3 == e2 + 1 + |EncodeInstruments(song.instruments)| && e7 == e3 + |EncodeTables(song)|
    ensures Embeds(b, s, EncodeHeader(song.header))
    ensures Embeds(b, e1, EncodeOrderlists(song.orderlists))
    ensures Embeds(b, e2, [song.instrumentCount] + EncodeInstruments(song.instruments))
    ensures Embeds(b, e3, EncodeTables(song))
    ensures Embeds(b, e7, [song.patternCount] + EncodePatterns(song.patterns))
    ensures s + |Encode(song)| == e7 + 1 + |EncodePatterns(song.patterns)|
  {
    EmbedsFive(b, s, EncodeHeader(song.header), EncodeOrderlists(song.orderlists),
               [song.instrumentCount] + EncodeInstruments(song.instruments), EncodeTables(song),
               [song.patternCount] + EncodePatterns(song.patterns), e1, e2, e3, e7);
  }

  /** Decoding from `s` gives the song back when its five blocks lie back to
      back from `s` on. */
  lemma SongDecodes(b: seq<byte>, s: nat, song: Song, e1: nat, e2: nat, e3: nat, e7: nat, e8: nat)
    requires Encodable(song)
    requires e1 == s + HeaderSize && e2 == e1 + |EncodeOrderlists(song.orderlists)|
    requires e3 == e2 + 1 + |EncodeInstruments(song.instruments)| && e7 == e3 + |EncodeTables(song)|
    requires e8 == e7 + 1 + |EncodePatterns(song.patterns)|
    requires Embeds(b, s, EncodeHeader(song.header))
    requires Embeds(b, e1, EncodeOrderlists(song.orderlists))
    requires Embeds(b, e2, [song.instrumentCount] + EncodeInstruments(song.instruments))
    requires Embeds(b, e3, EncodeTables(song))
    requires Embeds(b, e7, [song.patternCount] + EncodePatterns(song.patterns))
    ensures SongAt(b, s) == Done(song, e8)
  {
    var e4 := e3 + |EncodeTable(song.wave)|;
    var e5 := e4 + |EncodeTable(song.pulse)|;
    var e6 := e5 + |EncodeTable(song.filter)|;
    HeaderDecodes(b, s, song.header);
    SubtunesDecode(b, e1, song.orderlists, song.header.subtunes, e2);
    InstrumentsDecode(b, e2, song.instrumentCount, song.instruments, e3);
    TablesDecode(b, e3, song, e4, e5, e6, e7);
    PatternsDecode(b, e7, song.patternCount, song.patterns, e8);
    SongAtParts(b, s, song, e1, e2, e3, e4, e5, e6, e7, e8);
  }

  /** Decoding is a left inverse of encoding, and the encoding of a song is
      exactly `SongSize` bytes long. */
  lemma DecodeEncode(song: Song, rest: seq<byte>)
    requires Encodable(song)
    ensures Decode(Encode(song) + rest) == Done(song, |Encode(song)|)
    ensures |Encode(song)| == SongSize(song)
  {
    var b := Encode(song) + rest;
    assert b[0..|Encode(song)|] == Encode(song);
    var e1 := HeaderSize;
    var e2 := e1 + |EncodeOrderlists(song.orderlists)|;
    var e3 := e2 + 1 + |EncodeInstruments(song.instruments)|;
    var e7 := e3 + |EncodeTables(song)|;
    EncodeBlocks(b, 0, song, e1, e2, e3, e7);
    SongDecodes(b, 0, song, e1, e2, e3, e7, |Encode(song)|);
  }
}
