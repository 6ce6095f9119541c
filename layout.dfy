/** The GTS5 file layout as pure functions: each `...At(b, s)` decodes one
    structure from buffer `b` starting at offset `s` and yields the value and
    the offset just past it, or `Truncated` when a single-byte read runs past
    the end of the buffer. This is the reference the imperative decoder is
    proved against. Lists are defined by their last element, in the order the
    decoder appends to them. */
module Layout {
  import opened SongTypes

  datatype Parse<+T> = Done(value: T, next: nat) | Truncated

  // ---------------------------------------------------------------------------
  // Strings

  /** The byte values of a fixed-width field with every zero removed, wherever
      it stands; the other bytes keep their order. */
  function StripZeros(s: seq<byte>): (r: seq<byte>)
    ensures |r| <= |s|
    ensures NoZeros(r)
  {
    if s == [] then []
    else if s[|s| - 1] == 0 then StripZeros(s[..|s| - 1])
    else StripZeros(s[..|s| - 1]) + [s[|s| - 1]]
  }

  lemma {:induction false} StripZerosAppend(a: seq<byte>, c: seq<byte>)
    ensures StripZeros(a + c) == StripZeros(a) + StripZeros(c)
    decreases |c|
  {
    if c == [] {
      assert a + c == a;
    } else {
      var c' := c[..|c| - 1];
      assert (a + c)[..|a + c| - 1] == a + c';
      StripZerosAppend(a, c');
    }
  }

  /** A field that holds no zero comes back unchanged. */
  lemma {:induction false} StripZerosKeeps(s: seq<byte>)
    requires NoZeros(s)
    ensures StripZeros(s) == s
    decreases |s|
  {
    if s != [] {
      StripZerosKeeps(s[..|s| - 1]);
    }
  }

  /** A field of zeros only comes back empty. */
  lemma {:induction false} StripZerosOfZeros(s: seq<byte>)
    requires forall i :: 0 <= i < |s| ==> s[i] == 0
    ensures StripZeros(s) == []
    decreases |s|
  {
    if s != [] {
      StripZerosOfZeros(s[..|s| - 1]);
    }
  }

  /** Every nonzero byte value occurs as often in the result as in the field,
      and zero does not occur at all. */
  lemma {:induction false} StripZerosCounts(s: seq<byte>)
    ensures forall x :: x != 0 ==> multiset(StripZeros(s))[x] == multiset(s)[x]
    ensures multiset(StripZeros(s))[0] == 0
    decreases |s|
  {
    if s != [] {
      var s' := s[..|s| - 1];
      assert s == s' + [s[|s| - 1]];
      StripZerosCounts(s');
    }
  }

  /** Zeros embedded between characters are dropped as well as trailing ones. */
  lemma StripZerosExample()
    ensures StripZeros([0x41, 0, 0x42, 0]) == [0x41, 0x42]
  {
    assert [0x41, 0, 0x42, 0][..3] == [0x41, 0, 0x42];
    assert [0x41, 0, 0x42][..2] == [0x41, 0];
    assert [0x41, 0][..1] == [0x41];
  }

  /** Python's `b[s:s+size]` for non-negative bounds: both ends are clamped to
      the length, so the window is shorter (possibly empty) near the end. */
  function Slice(b: seq<byte>, s: nat, size: nat): (r: seq<byte>)
    ensures |r| <= size
    ensures s + size <= |b| ==> r == b[s..s + size]
    ensures s < |b| < s + size ==> r == b[s..]
    ensures s >= |b| ==> r == []
  {
    var lo := if s < |b| then s else |b|;
    var hi := if s + size < |b| then s + size else |b|;
    b[lo..hi]
  }

  /** A non-empty list is its front followed by its last element. */
  lemma SplitLast<T>(xs: seq<T>)
    requires xs != []
    ensures xs[..|xs| - 1] + [xs[|xs| - 1]] == xs
  {
  }

  // ---------------------------------------------------------------------------
  // Primitive reads

  function ByteAt(b: seq<byte>, s: nat): (r: Parse<byte>)
    ensures r.Done? <==> s < |b|
    ensures r.Done? ==> r.value == b[s] && r.next == s + 1
  {
    if s < |b| then Done(b[s], s + 1) else Truncated
  }

  /** `count` single-byte reads in a row. */
  function BytesAt(b: seq<byte>, s: nat, count: nat): (r: Parse<seq<byte>>)
    ensures r.Done? <==> count == 0 || s + count <= |b|
    ensures r.Done? ==> r.next == s + count && |r.value| == count
    ensures r.Done? ==> forall i :: 0 <= i < count ==> r.value[i] == b[s + i]
  {
    if count == 0 then Done([], s)
    else if s + count <= |b| then Done(b[s..s + count], s + count)
    else Truncated
  }

  /** A fixed-width string read: it never fails, always moves `size` bytes on,
      and yields at most `size` bytes, none of them zero. */
  function StringAt(b: seq<byte>, s: nat, size: nat): (r: Parse<seq<byte>>)
    ensures r.Done? && r.next == s + size
    ensures |r.value| <= size && NoZeros(r.value)
  {
    Done(StripZeros(Slice(b, s, size)), s + size)
  }

  // ---------------------------------------------------------------------------
  // Header

  function HeaderAt(b: seq<byte>, s: nat): (r: Parse<Header>)
    ensures r.Done? <==> s + 100 < |b|
    ensures r.Done? ==> r.next == s + HeaderSize && HeaderFits(r.value)
    ensures r.Done? ==> r.value.subtunes == b[s + 100]
  {
    var id := StringAt(b, s, 4);
    var name := StringAt(b, id.next, 32);
    var author := StringAt(b, name.next, 32);
    var copyright := StringAt(b, author.next, 32);
    match ByteAt(b, copyright.next)
    case Truncated => Truncated
    case Done(subtunes, e) => Done(Header(id.value, name.value, author.value, copyright.value, subtunes), e)
  }

  // ---------------------------------------------------------------------------
  // Order lists

  function ChannelAt(b: seq<byte>, s: nat): (r: Parse<Channel>)
    ensures r.Done? ==> ChannelShaped(r.value) && r.next == s + ChannelSize(r.value)
    ensures r.Done? ==> r.next <= |b| && r.value.length == b[s]
    ensures r.Done? ==> forall i :: 0 <= i <= r.value.length ==> r.value.entries[i] == b[s + 1 + i]
  {
    match ByteAt(b, s)
    case Truncated => Truncated
    case Done(n, e) =>
      match BytesAt(b, e, n + 1)
      case Truncated => Truncated
      case Done(entries, e') => Done(Channel(n, entries), e')
  }

  function ChannelsAt(b: seq<byte>, s: nat, count: nat): (r: Parse<seq<Channel>>)
    ensures r.Done? ==> |r.value| == count && r.next == s + ChannelsSize(r.value)
    ensures r.Done? ==> ChannelsShaped(r.value)
    decreases count
  {
    if count == 0 then Done([], s)
    else
      match ChannelsAt(b, s, count - 1)
      case Truncated => Truncated
      case Done(cs, e) =>
        match ChannelAt(b, e)
        case Truncated => Truncated
        case Done(c, e') =>
          assert (cs + [c])[..|cs|] == cs;
          Done(cs + [c], e')
  }

  /** `count` subtunes of three channels each. */
  function SubtunesAt(b: seq<byte>, s: nat, count: nat): (r: Parse<seq<seq<Channel>>>)
    ensures r.Done? ==> |r.value| == count && r.next == s + OrderlistsSize(r.value)
    ensures r.Done? ==> OrderlistsShaped(r.value)
    decreases count
  {
    if count == 0 then Done([], s)
    else
      match SubtunesAt(b, s, count - 1)
      case Truncated => Truncated
      case Done(subs, e) =>
        match ChannelsAt(b, e, 3)
        case Truncated => Truncated
        case Done(sub, e') =>
          assert (subs + [sub])[..|subs|] == subs;
          Done(subs + [sub], e')
  }

  // ---------------------------------------------------------------------------
  // Instruments

  function InstrumentAt(b: seq<byte>, s: nat): (r: Parse<Instrument>)
    ensures r.Done? <==> s + 9 <= |b|
    ensures r.Done? ==> r.next == s + InstrumentSize && |r.value.name| <= 16
  {
    match BytesAt(b, s, 9)
    case Truncated => Truncated
    case Done(p, e) =>
      var name := StringAt(b, e, 16);
      Done(Instrument(p[0], p[1], p[2], p[3], p[4], p[5], p[6], p[7], p[8], name.value), name.next)
  }

  function InstrumentListAt(b: seq<byte>, s: nat, count: nat): (r: Parse<seq<Instrument>>)
    ensures r.Done? ==> |r.value| == count && r.next == s + InstrumentSize * count
    ensures r.Done? ==> NamesFit(r.value)
    decreases count
  {
    if count == 0 then Done([], s)
    else
      match InstrumentListAt(b, s, count - 1)
      case Truncated => Truncated
      case Done(list, e) =>
        match InstrumentAt(b, e)
        case Truncated => Truncated
        case Done(ins, e') => Done(list + [ins], e')
  }

  /** The instrument count byte and that many instruments. */
  function InstrumentsAt(b: seq<byte>, s: nat): (r: Parse<(byte, seq<Instrument>)>)
    ensures r.Done? ==> |r.value.1| == r.value.0 && r.next == s + 1 + InstrumentSize * r.value.0
    ensures r.Done? ==> s < |b| && r.value.0 == b[s] && NamesFit(r.value.1)
  {
    match ByteAt(b, s)
    case Truncated => Truncated
    case Done(count, e) =>
      match InstrumentListAt(b, e, count)
      case Truncated => Truncated
      case Done(list, e') => Done((count, list), e')
  }

  // ---------------------------------------------------------------------------
  // Tables

  /** A length byte n, then n left bytes, then n right bytes. */
  function TableAt(b: seq<byte>, s: nat): (r: Parse<Table>)
    ensures r.Done? <==> s < |b| && s + 1 + 2 * (b[s] as int) <= |b|
    ensures r.Done? ==> TableShaped(r.value) && r.next == s + TableSize(r.value)
    ensures r.Done? ==> r.value.length == b[s]
    ensures r.Done? ==> forall i :: 0 <= i < r.value.length ==>
      r.value.left[i] == b[s + 1 + i] && r.value.right[i] == b[s + 1 + r.value.length + i]
  {
    match ByteAt(b, s)
    case Truncated => Truncated
    case Done(n, e) =>
      match BytesAt(b, e, n)
      case Truncated => Truncated
      case Done(left, e') =>
        match BytesAt(b, e', n)
        case Truncated => Truncated
        case Done(right, e'') => Done(Table(n, left, right), e'')
  }

  // ---------------------------------------------------------------------------
  // Patterns

  function RowAt(b: seq<byte>, o: nat): Row
    requires o + 4 <= |b|
  {
    Row(b[o], b[o + 1], b[o + 2], b[o + 3])
  }

  /** Row `i` of `rows` is the four bytes at `s + 4i`. */
  predicate RowsRead(b: seq<byte>, s: nat, rows: seq<Row>) {
    forall i :: 0 <= i < |rows| ==> s + 4 * i + 4 <= |b| && rows[i] == RowAt(b, s + 4 * i)
  }

  /** `count` rows of four single-byte reads each. */
  function RowsAt(b: seq<byte>, s: nat, count: nat): (r: Parse<seq<Row>>)
    ensures r.Done? <==> count == 0 || s + 4 * count <= |b|
    ensures r.Done? ==> |r.value| == count && r.next == s + 4 * count
  {
    if count == 0 then Done([], s)
    else if s + 4 * count <= |b| then
      Done(seq(count, i requires 0 <= i < count => RowAt(b, s + 4 * i)), s + 4 * count)
    else Truncated
  }

  /** Each row `RowsAt` yields is the next four bytes, as note, instrument,
      command and data. (Kept out of `RowsAt`'s own contract, where it would
      weigh on every proof that unfolds a pattern read.) */
  lemma RowsAtRows(b: seq<byte>, s: nat, count: nat)
    requires RowsAt(b, s, count).Done?
    ensures RowsRead(b, s, RowsAt(b, s, count).value)
  {
  }

  function PatternAt(b: seq<byte>, s: nat): (r: Parse<Pattern>)
    ensures r.Done? <==> s < |b| && s + 1 + 4 * (b[s] as int) <= |b|
    ensures r.Done? ==> PatternShaped(r.value) && r.next == s + PatternSize(r.value)
    ensures r.Done? ==> r.value.length == b[s]
  {
    match ByteAt(b, s)
    case Truncated => Truncated
    case Done(m, e) =>
      match RowsAt(b, e, m)
      case Truncated => Truncated
      case Done(rows, e') => Done(Pattern(m, rows), e')
  }

  function PatternListAt(b: seq<byte>, s: nat, count: nat): (r: Parse<seq<Pattern>>)
    ensures r.Done? ==> |r.value| == count && r.next == s + PatternsSize(r.value)
    ensures r.Done? ==> PatternsShaped(r.value)
    ensures r.Done? && count > 0 ==> r.next <= |b|
    decreases count
  {
    if count == 0 then Done([], s)
    else
      match PatternListAt(b, s, count - 1)
      case Truncated => Truncated
      case Done(ps, e) =>
        match PatternAt(b, e)
        case Truncated => Truncated
        case Done(p, e') =>
          assert (ps + [p])[..|ps|] == ps;
          Done(ps + [p], e')
  }

  /** The pattern count byte and that many patterns, from pattern 0 on. */
  function PatternsAt(b: seq<byte>, s: nat): (r: Parse<(byte, seq<Pattern>)>)
    ensures r.Done? ==> |r.value.1| == r.value.0 && r.next == s + 1 + PatternsSize(r.value.1)
    ensures r.Done? ==> s < |b| && r.value.0 == b[s] && r.next <= |b|
    ensures r.Done? ==> PatternsShaped(r.value.1)
  {
    match ByteAt(b, s)
    case Truncated => Truncated
    case Done(count, e) =>
      match PatternListAt(b, e, count)
      case Truncated => Truncated
      case Done(ps, e') => Done((count, ps), e')
  }

  // ---------------------------------------------------------------------------
  // The whole song

  /** Header, order lists, instruments, the wave, pulse, filter and speed
      tables, and the patterns, in that order. A decoded song has the shape its
      count and length bytes announce, occupies exactly `SongSize` bytes, and
      lies wholly inside the buffer. */
  function SongAt(b: seq<byte>, s: nat): (r: Parse<Song>)
    ensures r.Done? ==> WellFormed(r.value) && r.next == s + SongSize(r.value) && r.next <= |b|
  {
    match HeaderAt(b, s)
    case Truncated => Truncated
    case Done(header, e1) =>
    match SubtunesAt(b, e1, header.subtunes)
    case Truncated => Truncated
    case Done(orderlists, e2) =>
    match InstrumentsAt(b, e2)
    case Truncated => Truncated
    case Done(instruments, e3) =>
    match TableAt(b, e3)
    case Truncated => Truncated
    case Done(wave, e4) =>
    match TableAt(b, e4)
    case Truncated => Truncated
    case Done(pulse, e5) =>
    match TableAt(b, e5)
    case Truncated => Truncated
    case Done(filter, e6) =>
    match TableAt(b, e6)
    case Truncated => Truncated
    case Done(speed, e7) =>
    match PatternsAt(b, e7)
    case Truncated => Truncated
    case Done(patterns, e8) =>
      Done(Song(header, orderlists, instruments.0, instruments.1,
                wave, pulse, filter, speed, patterns.0, patterns.1), e8)
  }

  /** How `SongAt` assembles a song from its eight successful parts. */
  lemma SongAtParts(b: seq<byte>, s: nat, song: Song, e1: nat, e2: nat, e3: nat, e4: nat,
                    e5: nat, e6: nat, e7: nat, e8: nat)
    requires HeaderAt(b, s) == Done(song.header, e1)
    requires SubtunesAt(b, e1, song.header.subtunes) == Done(song.orderlists, e2)
    requires InstrumentsAt(b, e2) == Done((song.instrumentCount, song.instruments), e3)
    requires TableAt(b, e3) == Done(song.wave, e4) && TableAt(b, e4) == Done(song.pulse, e5)
    requires TableAt(b, e5) == Done(song.filter, e6) && TableAt(b, e6) == Done(song.speed, e7)
    requires PatternsAt(b, e7) == Done((song.patternCount, song.patterns), e8)
    ensures SongAt(b, s) == Done(song, e8)
  {
  }

  /** A whole file is decoded from its first byte. */
  function Decode(b: seq<byte>): Parse<Song> {
    SongAt(b, 0)
  }

  // ---------------------------------------------------------------------------
  // A list read one element further.

  lemma ChannelsAtStep(b: seq<byte>, s: nat, n: nat, cs: seq<Channel>, e: nat, c: Channel, e': nat)
    requires ChannelsAt(b, s, n) == Done(cs, e) && ChannelAt(b, e) == Done(c, e')
    ensures ChannelsAt(b, s, n + 1) == Done(cs + [c], e')
  {
  }

  lemma SubtunesAtStep(b: seq<byte>, s: nat, n: nat, subs: seq<seq<Channel>>, e: nat,
                       sub: seq<Channel>, e': nat)
    requires SubtunesAt(b, s, n) == Done(subs, e) && ChannelsAt(b, e, 3) == Done(sub, e')
    ensures SubtunesAt(b, s, n + 1) == Done(subs + [sub], e')
  {
  }

  lemma InstrumentListAtStep(b: seq<byte>, s: nat, n: nat, list: seq<Instrument>, e: nat,
                             ins: Instrument, e': nat)
    requires InstrumentListAt(b, s, n) == Done(list, e) && InstrumentAt(b, e) == Done(ins, e')
    ensures InstrumentListAt(b, s, n + 1) == Done(list + [ins], e')
  {
  }

  lemma PatternListAtStep(b: seq<byte>, s: nat, n: nat, ps: seq<Pattern>, e: nat, p: Pattern, e': nat)
    requires PatternListAt(b, s, n) == Done(ps, e) && PatternAt(b, e) == Done(p, e')
    ensures PatternListAt(b, s, n + 1) == Done(ps + [p], e')
  {
  }

  // ---------------------------------------------------------------------------
  // Once a list fails, reading more of it fails too.

  lemma ChannelsTruncatedNext(b: seq<byte>, s: nat, n: nat)
    requires ChannelsAt(b, s, n).Truncated?
    ensures ChannelsAt(b, s, n + 1).Truncated?
  {
  }

  lemma {:induction false} ChannelsTruncatedStays(b: seq<byte>, s: nat, i: nat, j: nat)
    requires i <= j && ChannelsAt(b, s, i).Truncated?
    ensures ChannelsAt(b, s, j).Truncated?
    decreases j - i
  {
    if i < j {
      ChannelsTruncatedNext(b, s, i);
      ChannelsTruncatedStays(b, s, i + 1, j);
    }
  }

  lemma SubtunesTruncatedNext(b: seq<byte>, s: nat, n: nat)
    requires SubtunesAt(b, s, n).Truncated?
    ensures SubtunesAt(b, s, n + 1).Truncated?
  {
  }

  lemma {:induction false} SubtunesTruncatedStays(b: seq<byte>, s: nat, i: nat, j: nat)
    requires i <= j && SubtunesAt(b, s, i).Truncated?
    ensures SubtunesAt(b, s, j).Truncated?
    decreases j - i
  {
    if i < j {
      SubtunesTruncatedNext(b, s, i);
      SubtunesTruncatedStays(b, s, i + 1, j);
    }
  }

  lemma InstrumentsTruncatedNext(b: seq<byte>, s: nat, n: nat)
    requires InstrumentListAt(b, s, n).Truncated?
    ensures InstrumentListAt(b, s, n + 1).Truncated?
  {
  }

  lemma {:induction false} InstrumentsTruncatedStays(b: seq<byte>, s: nat, i: nat, j: nat)
    requires i <= j && InstrumentListAt(b, s, i).Truncated?
    ensures InstrumentListAt(b, s, j).Truncated?
    decreases j - i
  {
    if i < j {
      InstrumentsTruncatedNext(b, s, i);
      InstrumentsTruncatedStays(b, s, i + 1, j);
    }
  }

  lemma PatternsTruncatedNext(b: seq<byte>, s: nat, n: nat)
    requires PatternListAt(b, s, n).Truncated?
    ensures PatternListAt(b, s, n + 1).Truncated?
  {
  }

  lemma {:induction false} PatternsTruncatedStays(b: seq<byte>, s: nat, i: nat, j: nat)
    requires i <= j && PatternListAt(b, s, i).Truncated?
    ensures PatternListAt(b, s, j).Truncated?
    decreases j - i
  {
    if i < j {
      PatternsTruncatedNext(b, s, i);
      PatternsTruncatedStays(b, s, i + 1, j);
    }
  }

  // ---------------------------------------------------------------------------
  // Consequences for whole files

  /** A file shorter than 107 bytes cannot be decoded. */
  lemma ShortFileFails(b: seq<byte>)
    requires |b| < 107
    ensures Decode(b).Truncated?
  {
    if Decode(b).Done? {
      SongSizeAtLeast(Decode(b).value);
    }
  }

  /** The header's string reads clamp instead of failing, so a file that ends
      inside the header is rejected only by the subtune count read at offset
      100: the header parses exactly when the file has at least 101 bytes. */
  lemma HeaderNeedsSubtuneByte(b: seq<byte>)
    ensures HeaderAt(b, 0).Done? <==> |b| >= 101
  {
  }

  /** A file holding only the identification string fails. */
  lemma IdOnlyFails()
    ensures Decode([0x47, 0x54, 0x53, 0x35]).Truncated?
    ensures HeaderAt([0x47, 0x54, 0x53, 0x35], 0).Truncated?
  {
    ShortFileFails([0x47, 0x54, 0x53, 0x35]);
  }
}
