/** The decoded form of a GoatTracker 2 song file (format GTS5): the values the
    decoder builds while it walks the file, and the shape and size rules that
    tie each structure to the length and count bytes it was read with. */
module SongTypes {

  /** One byte of the input file, as an unsigned value. */
  type byte = x: int | 0 <= x < 256

  datatype Option<+T> = None | Some(value: T)

  /** Identification, song name, author and copyright are zero-stripped strings
      (kept as byte values); `subtunes` is the subtune count byte. */
  datatype Header = Header(id: seq<byte>, name: seq<byte>, author: seq<byte>,
                           copyright: seq<byte>, subtunes: byte)

  /** One channel's order list: its length byte and the entries that follow it. */
  datatype Channel = Channel(length: byte, entries: seq<byte>)

  /** The nine parameter bytes of an instrument, in file order, and its name. */
  datatype Instrument = Instrument(ad: byte, sr: byte, wave: byte, pulse: byte, filter: byte,
                                   vibratoParam: byte, vibratoDelay: byte, gateoff: byte,
                                   hardRestart: byte, name: seq<byte>)

  /** One of the wave, pulse, filter and speed tables: two parallel columns. */
  datatype Table = Table(length: byte, left: seq<byte>, right: seq<byte>)

  /** One pattern row: note, instrument, command and command data. */
  datatype Row = Row(note: byte, instrument: byte, command: byte, data: byte)

  datatype Pattern = Pattern(length: byte, rows: seq<Row>)

  datatype Song = Song(header: Header,
                       orderlists: seq<seq<Channel>>,
                       instrumentCount: byte,
                       instruments: seq<Instrument>,
                       wave: Table, pulse: Table, filter: Table, speed: Table,
                       patternCount: byte,
                       patterns: seq<Pattern>)

  predicate NoZeros(s: seq<byte>) {
    forall i :: 0 <= i < |s| ==> s[i] != 0
  }

  // ---------------------------------------------------------------------------
  // Shape: how many records each count or length byte announces.

  predicate ChannelShaped(c: Channel) {
    |c.entries| == c.length + 1
  }

  predicate ChannelsShaped(cs: seq<Channel>) {
    forall i :: 0 <= i < |cs| ==> ChannelShaped(cs[i])
  }

  /** A subtune is exactly three channels, each shaped by its length byte. */
  predicate SubtuneShaped(sub: seq<Channel>) {
    |sub| == 3 && ChannelsShaped(sub)
  }

  predicate OrderlistsShaped(subs: seq<seq<Channel>>) {
    forall i :: 0 <= i < |subs| ==> SubtuneShaped(subs[i])
  }

  predicate TableShaped(t: Table) {
    |t.left| == t.length && |t.right| == t.length
  }

  predicate PatternShaped(p: Pattern) {
    |p.rows| == p.length
  }

  predicate PatternsShaped(ps: seq<Pattern>) {
    forall i :: 0 <= i < |ps| ==> PatternShaped(ps[i])
  }

  /** Every instrument name fits its 16-byte field. */
  predicate NamesFit(list: seq<Instrument>) {
    forall i :: 0 <= i < |list| ==> |list[i].name| <= 16
  }

  predicate HeaderFits(h: Header) {
    |h.id| <= 4 && |h.name| <= 32 && |h.author| <= 32 && |h.copyright| <= 32
  }

  predicate WellFormed(song: Song) {
    && HeaderFits(song.header)
    && |song.orderlists| == song.header.subtunes
    && OrderlistsShaped(song.orderlists)
    && |song.instruments| == song.instrumentCount
    && NamesFit(song.instruments)
    && TableShaped(song.wave) && TableShaped(song.pulse)
    && TableShaped(song.filter) && TableShaped(song.speed)
    && |song.patterns| == song.patternCount
    && PatternsShaped(song.patterns)
  }

  // ---------------------------------------------------------------------------
  // Size: the number of file bytes each structure occupies, computed from its
  // length and count bytes alone.

  /** A channel is its length byte n and n+1 entries. */
  function ChannelSize(c: Channel): nat {
    c.length + 2
  }

  function ChannelsSize(cs: seq<Channel>): nat {
    if cs == [] then 0 else ChannelsSize(cs[..|cs| - 1]) + ChannelSize(cs[|cs| - 1])
  }

  function OrderlistsSize(subs: seq<seq<Channel>>): nat {
    if subs == [] then 0 else OrderlistsSize(subs[..|subs| - 1]) + ChannelsSize(subs[|subs| - 1])
  }

  /** Nine parameter bytes and a 16-byte name. */
  const InstrumentSize: nat := 25

  /** A table is its length byte n, n left bytes and n right bytes. */
  function TableSize(t: Table): nat {
    1 + 2 * t.length
  }

  /** A pattern is its row count m and m rows of four bytes. */
  function PatternSize(p: Pattern): nat {
    1 + 4 * p.length
  }

  function PatternsSize(ps: seq<Pattern>): nat {
    if ps == [] then 0 else PatternsSize(ps[..|ps| - 1]) + PatternSize(ps[|ps| - 1])
  }

  /** Four identification bytes, three 32-byte strings and the subtune count. */
  const HeaderSize: nat := 101

  function SongSize(song: Song): nat {
    HeaderSize
    + OrderlistsSize(song.orderlists)
    + 1 + InstrumentSize * |song.instruments|
    + TableSize(song.wave) + TableSize(song.pulse) + TableSize(song.filter) + TableSize(song.speed)
    + 1 + PatternsSize(song.patterns)
  }

  /** Every song occupies at least the header, the instrument count, four
      table length bytes and the pattern count. */
  lemma SongSizeAtLeast(song: Song)
    ensures SongSize(song) >= 107
  {
  }
}
