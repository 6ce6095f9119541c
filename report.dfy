/** The text report for the order lists, the four tables and the patterns.
    The report is a list of text pieces appended one after another. Each
    renderer is a method, proved to produce what a function of the decoded
    data describes; all but `RenderTables`, which calls `RenderTable` four
    times, build their pieces in a loop. Byte values are printed as two
    lower-case hex digits (`%02x`). The channel number is printed in decimal,
    and a zero-row pattern's length less one as "-1". The lemmas show which
    printed fields read back as the bytes they came from. */
module Report {
  import opened SongTypes
  import opened Notes

  // ---------------------------------------------------------------------------
  // Two-digit hex, as printed by a `%02x` conversion of a value below 256.

  function HexDigit(d: nat): (c: char)
    requires d < 16
  {
    if d < 10 then (48 + d) as char else (87 + d) as char
  }

  function HexDigitValue(c: char): (r: Option<nat>)
    ensures r.Some? ==> r.value < 16
  {
    if '0' <= c <= '9' then Some(c as int - 48)
    else if 'a' <= c <= 'f' then Some(c as int - 87)
    else None
  }

  function ParseHex2(s: string): (r: Option<nat>)
    ensures r.Some? ==> r.value < 256
  {
    if |s| == 2 && HexDigitValue(s[0]).Some? && HexDigitValue(s[1]).Some? then
      Some(16 * HexDigitValue(s[0]).value + HexDigitValue(s[1]).value)
    else None
  }

  /** `v` in two lower-case hex digits; reading them back gives `v`. */
  function Hex2(v: nat): (r: string)
    requires v < 256
    ensures |r| == 2 && ParseHex2(r) == Some(v)
  {
    [HexDigit(v / 16), HexDigit(v % 16)]
  }

  /** Distinct values print distinct digits. */
  lemma Hex2Injective(v: nat, w: nat)
    requires v < 256 && w < 256 && Hex2(v) == Hex2(w)
    ensures v == w
  {
    assert ParseHex2(Hex2(v)) == Some(v);
  }

  const Rule: string := "-------------------\n"

  lemma AppendAssoc(a: seq<string>, b: seq<string>, c: seq<string>)
    ensures a + b + c == a + (b + c)
  {
  }

  // ---------------------------------------------------------------------------
  // Order lists.

  /** One order-list entry, printed as `$xx ` ... */
  function EntryToken(x: byte): string {
    "$" + Hex2(x) + " "
  }

  /** ... and read back. */
  function ParseEntryToken(tok: string): (r: Option<nat>)
    ensures r.Some? ==> r.value < 256
  {
    if |tok| == 4 && tok[0] == '$' && tok[3] == ' ' then ParseHex2(tok[1..3]) else None
  }

  /** One token per entry, in order, each reading back as its entry. */
  function {:induction false} EntryTokens(xs: seq<byte>): (r: seq<string>)
    ensures |r| == |xs|
    ensures forall i :: 0 <= i < |xs| ==> ParseEntryToken(r[i]) == Some(xs[i])
  {
    if xs == [] then []
    else
      var init, last := xs[..|xs| - 1], xs[|xs| - 1];
      var tok := EntryToken(last);
      assert tok[1..3] == Hex2(last);
      EntryTokens(init) + [tok]
  }

  /** The pieces of the line for channel `j` (counted from 0) of a subtune:
      channel number and length byte, the entry tokens and the line end. */
  function ChannelLine(j: nat, c: Channel): seq<string>
    requires j < 3
  {
    ["channel: " + [(49 + j) as char] + " / ", "length: $" + Hex2(c.length) + ": "]
    + EntryTokens(c.entries) + ["\n"]
  }

  /** A channel line holds exactly n+1 entry tokens between its two leading
      pieces and its line end, and they read back as the channel's entries. */
  lemma ChannelLineTokens(j: nat, c: Channel)
    requires j < 3 && ChannelShaped(c)
    ensures |ChannelLine(j, c)| == c.length + 4
    ensures |ChannelLine(j, c)[1]| == 13 && ParseHex2(ChannelLine(j, c)[1][9..11]) == Some(c.length)
    ensures forall i :: 0 <= i <= c.length ==> ParseEntryToken(ChannelLine(j, c)[2 + i]) == Some(c.entries[i])
  {
    assert ChannelLine(j, c)[1][9..11] == Hex2(c.length);
    var line := ChannelLine(j, c);
    forall i | 0 <= i <= c.length
      ensures ParseEntryToken(line[2 + i]) == Some(c.entries[i])
    {
      assert line[2 + i] == EntryTokens(c.entries)[i];
    }
  }

  method RenderChannel(j: nat, c: Channel) returns (out: seq<string>)
    requires j < 3
    ensures out == ChannelLine(j, c)
  {
    var head := ["channel: " + [(49 + j) as char] + " / ", "length: $" + Hex2(c.length) + ": "];
    out := head;
    for k := 0 to |c.entries|
      invariant out == head + EntryTokens(c.entries[..k])
    {
      assert c.entries[..k + 1][..k] == c.entries[..k];
      out := out + [EntryToken(c.entries[k])];
    }
    assert c.entries[..|c.entries|] == c.entries;
    out := out + ["\n"];
  }

  /** The lines of the first `j` channels of a subtune. */
  function ChannelLines(sub: seq<Channel>, j: nat): seq<string>
    requires j <= |sub| <= 3
  {
    if j == 0 then [] else ChannelLines(sub, j - 1) + ChannelLine(j - 1, sub[j - 1])
  }

  /** Subtune `i` (counted from 0) is numbered from 1 in the report. */
  function SubtuneHead(i: nat): seq<string>
    requires i < 255
  {
    ["\n", "subtune: $" + Hex2(i + 1) + "\n"]
  }

  /** Subtune `i`: its number, then the lines of its three channels. */
  function SubtuneBlock(i: nat, sub: seq<Channel>): seq<string>
    requires i < 255 && |sub| == 3
  {
    SubtuneHead(i) + ChannelLines(sub, 3)
  }

  /** The blocks of the first `i` subtunes. */
  function SubtuneBlocks(subs: seq<seq<Channel>>, i: nat): seq<string>
    requires i <= |subs| <= 255 && OrderlistsShaped(subs)
  {
    if i == 0 then [] else SubtuneBlocks(subs, i - 1) + SubtuneBlock(i - 1, subs[i - 1])
  }

  method RenderSubtune(i: nat, sub: seq<Channel>) returns (out: seq<string>)
    requires i < 255 && |sub| == 3
    ensures out == SubtuneBlock(i, sub)
  {
    var head := SubtuneHead(i);
    out := head;
    for j := 0 to 3
      invariant out == head + ChannelLines(sub, j)
    {
      var line := RenderChannel(j, sub[j]);
      AppendAssoc(head, ChannelLines(sub, j), line);
      out := out + line;
    }
  }

  function OrderlistSection(subtunes: byte, subs: seq<seq<Channel>>): seq<string>
    requires |subs| == subtunes && OrderlistsShaped(subs)
  {
    ["subtunes: $" + Hex2(subtunes) + "\n"] + SubtuneBlocks(subs, subtunes) + [Rule, "\n"]
  }

  /** The order-list section: the subtune count, then per subtune its
      number and its three channel lines. */
  method RenderOrderlists(subtunes: byte, subs: seq<seq<Channel>>) returns (out: seq<string>)
    requires |subs| == subtunes && OrderlistsShaped(subs)
    ensures out == OrderlistSection(subtunes, subs)
  {
    var head := ["subtunes: $" + Hex2(subtunes) + "\n"];
    out := head;
    for i := 0 to subtunes
      invariant out == head + SubtuneBlocks(subs, i)
    {
      var block := RenderSubtune(i, subs[i]);
      AppendAssoc(head, SubtuneBlocks(subs, i), block);
      out := out + block;
    }
    out := out + [Rule, "\n"];
  }

  // ---------------------------------------------------------------------------
  // Tables.

  /** Row `i` of a table: index, left byte and right byte. */
  function TableLine(i: nat, left: byte, right: byte): (r: string)
    requires i < 256
  {
    Hex2(i) + ":" + Hex2(left) + " " + Hex2(right) + "\n"
  }

  function ParseTableLine(s: string): (r: Option<(nat, nat, nat)>) {
    if |s| == 9 && s[2] == ':' && s[5] == ' ' && s[8] == '\n'
       && ParseHex2(s[0..2]).Some? && ParseHex2(s[3..5]).Some? && ParseHex2(s[6..8]).Some? then
      Some((ParseHex2(s[0..2]).value, ParseHex2(s[3..5]).value, ParseHex2(s[6..8]).value))
    else None
  }

  /** The first `n` rows of a table, line `i` reading back as `i` and the
      two bytes of row `i`. */
  function {:induction false} TableLines(t: Table, n: nat): (r: seq<string>)
    requires TableShaped(t) && n <= t.length
    ensures |r| == n
    ensures forall i :: 0 <= i < n ==> ParseTableLine(r[i]) == Some((i, t.left[i], t.right[i]))
  {
    if n == 0 then []
    else
      var line := TableLine(n - 1, t.left[n - 1], t.right[n - 1]);
      assert line[0..2] == Hex2(n - 1) && line[3..5] == Hex2(t.left[n - 1]) && line[6..8] == Hex2(t.right[n - 1]);
      TableLines(t, n - 1) + [line]
  }

  function TableSection(title: string, t: Table): seq<string>
    requires TableShaped(t)
  {
    ["\n", title + " (length: $" + Hex2(t.length) + ")\n"] + TableLines(t, t.length) + [Rule]
  }

  /** A table section holds exactly n row lines after its two leading
      pieces, line `i` reading back as `i`, `left[i]` and `right[i]`. */
  lemma TableSectionRows(title: string, t: Table)
    requires TableShaped(t)
    ensures |TableSection(title, t)| == t.length + 3
    ensures forall i :: 0 <= i < t.length ==>
      ParseTableLine(TableSection(title, t)[2 + i]) == Some((i, t.left[i], t.right[i]))
  {
    var section := TableSection(title, t);
    forall i | 0 <= i < t.length
      ensures ParseTableLine(section[2 + i]) == Some((i, t.left[i], t.right[i]))
    {
      assert section[2 + i] == TableLines(t, t.length)[i];
    }
  }

  method RenderTable(title: string, t: Table) returns (out: seq<string>)
    requires TableShaped(t)
    ensures out == TableSection(title, t)
  {
    var head := ["\n", title + " (length: $" + Hex2(t.length) + ")\n"];
    out := head;
    for i := 0 to t.length
      invariant out == head + TableLines(t, i)
    {
      out := out + [TableLine(i, t.left[i], t.right[i])];
    }
    out := out + [Rule];
  }

  /** The four table sections, in the order the file stores the tables. */
  method RenderTables(song: Song) returns (out: seq<string>)
    requires TableShaped(song.wave) && TableShaped(song.pulse)
    requires TableShaped(song.filter) && TableShaped(song.speed)
    ensures out == TableSection("wavetable", song.wave) + TableSection("pulsetable", song.pulse)
                   + TableSection("filtertable", song.filter) + TableSection("speedtable", song.speed)
  {
    var wave := RenderTable("wavetable", song.wave);
    var pulse := RenderTable("pulsetable", song.pulse);
    var filter := RenderTable("filtertable", song.filter);
    var speed := RenderTable("speedtable", song.speed);
    out := wave + pulse + filter + speed;
  }

  // ---------------------------------------------------------------------------
  // Patterns.

  /** Row `k` of a pattern: index, note token, instrument, and command with
      its data byte run together. `None` when the note byte has no token. */
  function RowLine(k: nat, row: Row): (r: Option<string>)
    requires k < 256
    ensures r.Some? <==> ValueToNote(row.note).Some?
  {
    match ValueToNote(row.note)
    case None => None
    case Some(tok) => Some(RowText(Hex2(k), tok, Hex2(row.instrument), Hex2(row.command), Hex2(row.data)))
  }

  /** The `%02x: %s %02x %02x%02x` layout of a row line. */
  function RowText(index: string, note: string, ins: string, cmd: string, data: string): string {
    index + ": " + note + " " + ins + " " + cmd + data + "\n"
  }

  /** Where each field of a row line sits. */
  lemma RowTextFields(index: string, note: string, ins: string, cmd: string, data: string)
    requires |index| == 2 && |note| == 3 && |ins| == 2 && |cmd| == 2 && |data| == 2
    ensures var s := RowText(index, note, ins, cmd, data);
      && |s| == 16 && s[0..2] == index && s[2..4] == ": " && s[4..7] == note && s[7] == ' '
      && s[8..10] == ins && s[10] == ' ' && s[11..13] == cmd && s[13..15] == data && s[15] == '\n'
  {
    var s := RowText(index, note, ins, cmd, data);
    assert s == index + (": " + (note + (" " + (ins + (" " + (cmd + (data + "\n")))))));
  }

  function ParseRowLine(s: string): (r: Option<(nat, Row)>) {
    if |s| == 16 && s[2..4] == ": " && s[7] == ' ' && s[10] == ' ' && s[15] == '\n'
       && ParseHex2(s[0..2]).Some? && NoteValue(s[4..7]).Some? && ParseHex2(s[8..10]).Some?
       && ParseHex2(s[11..13]).Some? && ParseHex2(s[13..15]).Some? then
      Some((ParseHex2(s[0..2]).value,
            Row(NoteValue(s[4..7]).value, ParseHex2(s[8..10]).value,
                ParseHex2(s[11..13]).value, ParseHex2(s[13..15]).value)))
    else None
  }

  /** A row with a documented note prints a line that reads back as the row
      and its index. */
  lemma RowLineRoundTrip(k: nat, row: Row)
    requires k < 256
    requires 0x60 <= row.note <= 0xBF || row.note == 0xFF
    ensures RowLine(k, row).Some? && ParseRowLine(RowLine(k, row).value) == Some((k, row))
  {
    NoteRoundTrip(row.note);
    var tok := ValueToNote(row.note).value;
    RowTextFields(Hex2(k), tok, Hex2(row.instrument), Hex2(row.command), Hex2(row.data));
  }

  /** Every note among the first `n` rows has a token. */
  predicate NotesPrintable(rows: seq<Row>, n: nat)
    requires n <= |rows|
  {
    forall i :: 0 <= i < n ==> ValueToNote(rows[i].note).Some?
  }

  /** The lines of the first `n` rows, or `None` as soon as one of them has
      a note byte without a token. */
  function {:induction false} RowLines(rows: seq<Row>, n: nat): (r: Option<seq<string>>)
    requires n <= |rows| < 256
    ensures r.Some? <==> NotesPrintable(rows, n)
    ensures r.Some? ==> |r.value| == n
  {
    if n == 0 then Some([])
    else
      match RowLines(rows, n - 1)
      case None => None
      case Some(lines) =>
        match RowLine(n - 1, rows[n - 1])
        case None => None
        case Some(line) =>
          Some(lines + [line])
  }

  /** Line `i` of the row lines is the line of row `i`. */
  lemma {:induction false} RowLinesAt(rows: seq<Row>, n: nat, i: nat)
    requires i < n <= |rows| < 256 && RowLines(rows, n).Some?
    ensures Some(RowLines(rows, n).value[i]) == RowLine(i, rows[i])
  {
    var lines := RowLines(rows, n - 1).value;
    if i < n - 1 {
      RowLinesAt(rows, n - 1, i);
    }
  }

  /** How the header prints a length byte `m` less one: `%02x` of -1 is
      "-1", which no two-digit reading accepts. */
  function LengthText(m: byte): (r: string)
    ensures |r| == 2
    ensures m > 0 ==> ParseHex2(r) == Some(m - 1)
    ensures m == 0 ==> r == "-1" && ParseHex2(r).None?
  {
    if m == 0 then "-1" else Hex2(m - 1)
  }

  /** The header line of pattern `no`, printing its row count less the end
      mark row. */
  function PatternHeader(no: nat, length: byte): (r: string)
    requires no < 256
    ensures |r| == 25 && r[22..24] == LengthText(length)
    ensures length > 0 ==> ParseHex2(r[22..24]) == Some(length - 1)
  {
    var r := "pattern $" + Hex2(no) + ": length: $" + LengthText(length) + "\n";
    assert r[22..24] == LengthText(length);
    r
  }

  /** Headers of the same pattern differ exactly when the lengths do. */
  lemma PatternHeaderInjective(no: nat, m: byte, n: byte)
    requires no < 256
    ensures PatternHeader(no, m) == PatternHeader(no, n) <==> m == n
  {
    if PatternHeader(no, m) == PatternHeader(no, n) {
      assert LengthText(m) == LengthText(n);
    }
  }

  /** The header line as the loop writes it, with the length taken from the
      pattern at index `stale`, the value a loop variable kept from an
      earlier loop, rather than from pattern `no`; `None` is the IndexError
      when `stale` is past the last pattern. */
  function PatternHeaderAsWritten(no: nat, lengths: seq<byte>, stale: nat): (r: Option<string>)
    requires no < 256
    ensures r.Some? <==> stale < |lengths|
    ensures r.Some? ==> r.value == PatternHeader(no, lengths[stale])
  {
    if stale < |lengths| then Some(PatternHeader(no, lengths[stale])) else None
  }

  /** The row counts the pattern-reading loop collects, one per pattern. */
  function PatternLengths(ps: seq<Pattern>): (r: seq<byte>)
    ensures |r| == |ps| && forall q :: 0 <= q < |ps| ==> r[q] == ps[q].length
  {
    seq(|ps|, q requires 0 <= q < |ps| => ps[q].length)
  }

  /** The value the loop variable `i` still holds when the pattern headers
      are printed: the last index of the latest loop over `i` that ran. In
      program order the candidates are the pattern-reading loop, then the
      report's subtune, instrument, wave, pulse, filter and speed loops.
      `None` when none of them ran; that needs an empty pattern list, and
      then no header is printed at all. */
  function LeftoverIndex(song: Song): (r: Option<nat>)
    ensures song.patternCount > 0 ==> r.Some?
    ensures r.Some? ==> r.value < 255
  {
    if song.speed.length > 0 then Some(song.speed.length as nat - 1)
    else if song.filter.length > 0 then Some(song.filter.length as nat - 1)
    else if song.pulse.length > 0 then Some(song.pulse.length as nat - 1)
    else if song.wave.length > 0 then Some(song.wave.length as nat - 1)
    else if song.instrumentCount > 0 then Some(song.instrumentCount as nat - 1)
    else if song.header.subtunes > 0 then Some(song.header.subtunes as nat - 1)
    else if song.patternCount > 0 then Some(song.patternCount as nat - 1)
    else None
  }

  /** The header of pattern `no` as the program prints it for `song`: it
      fails exactly when the leftover index is past the last pattern, and
      otherwise prints the row count of the pattern at that index. */
  function SongPatternHeader(song: Song, no: nat): (r: Option<string>)
    requires WellFormed(song) && no < song.patternCount
    ensures r.Some? <==> LeftoverIndex(song).value < song.patternCount
    ensures r.Some? ==> r.value == PatternHeader(no, song.patterns[LeftoverIndex(song).value].length)
  {
    PatternHeaderAsWritten(no, PatternLengths(song.patterns), LeftoverIndex(song).value)
  }

  /** When the program does print a header, it is the right one exactly when
      the pattern at the leftover index has as many rows as pattern `no`. */
  lemma SongPatternHeaderRight(song: Song, no: nat)
    requires WellFormed(song) && no < song.patternCount && SongPatternHeader(song, no).Some?
    ensures SongPatternHeader(song, no) == Some(PatternHeader(no, song.patterns[no].length))
            <==> song.patterns[LeftoverIndex(song).value].length == song.patterns[no].length
  {
    PatternHeaderInjective(no, song.patterns[LeftoverIndex(song).value].length, song.patterns[no].length);
  }

  /** A song with empty strings, no subtunes, no instruments, empty wave,
      pulse and filter tables, a speed table of `speedRows` zero rows, and
      one pattern per entry of `lengths` with that many rest rows. */
  function ExampleSong(speedRows: byte, lengths: seq<byte>): (song: Song)
    requires |lengths| < 256
    ensures WellFormed(song)
    ensures song.speed.length == speedRows && song.patternCount as nat == |lengths|
    ensures PatternLengths(song.patterns) == lengths
  {
    var empty := Table(0, [], []);
    var zeros := seq(speedRows, _ => 0);
    var patterns := seq(|lengths|, q requires 0 <= q < |lengths| =>
      Pattern(lengths[q], seq(lengths[q], _ => Row(RestValue, 0, 0, 0))));
    Song(Header([], [], [], [], 0), [], 0, [], empty, empty, empty,
         Table(speedRows, zeros, zeros), |lengths| as byte, patterns)
  }

  /** With a speed table of one row the leftover index is 0, so the header of
      pattern 1 prints the row count of pattern 0 (length byte 1) where its
      own length byte is 5: "00" instead of "04". */
  lemma StaleIndexMislabels()
    ensures LeftoverIndex(ExampleSong(1, [1, 5])) == Some(0)
    ensures SongPatternHeader(ExampleSong(1, [1, 5]), 1) == Some(PatternHeader(1, 1))
    ensures PatternHeader(1, 1)[22..24] == "00" && PatternHeader(1, 5)[22..24] == "04"
    ensures SongPatternHeader(ExampleSong(1, [1, 5]), 1) != Some(PatternHeader(1, 5))
  {
    var song := ExampleSong(1, [1, 5]);
    assert song.patterns[0].length == 1;
    PatternHeaderInjective(1, 1, 5);
    assert LengthText(1) == Hex2(0) == "00" && LengthText(5) == Hex2(4) == "04";
  }

  /** With a speed table of three rows and two patterns the leftover index
      is 2, past the last pattern: the first header already raises
      IndexError, so no pattern section is written. */
  lemma StaleIndexCrashes()
    ensures LeftoverIndex(ExampleSong(3, [1, 5])) == Some(2)
    ensures SongPatternHeader(ExampleSong(3, [1, 5]), 0).None?
  {
  }

  /** Every note byte of the pattern has a token. */
  predicate PatternPrintable(p: Pattern) {
    NotesPrintable(p.rows, |p.rows|)
  }

  function PatternBlock(no: nat, p: Pattern): (r: Option<seq<string>>)
    requires no < 256 && PatternShaped(p)
    ensures r.Some? <==> PatternPrintable(p)
    ensures r.Some? ==> |r.value| == p.length + 2
  {
    match RowLines(p.rows, p.length)
    case None => None
    case Some(lines) => Some([PatternHeader(no, p.length)] + lines + ["\n"])
  }

  /** Line `1 + i` of a pattern block is the line of row `i`. */
  lemma PatternBlockRows(no: nat, p: Pattern)
    requires no < 256 && PatternShaped(p)
    ensures PatternBlock(no, p).Some? ==>
      forall i :: 0 <= i < p.length ==> Some(PatternBlock(no, p).value[1 + i]) == RowLine(i, p.rows[i])
  {
    if PatternBlock(no, p).Some? {
      var lines := RowLines(p.rows, p.length).value;
      var block := PatternBlock(no, p).value;
      forall i | 0 <= i < p.length
        ensures Some(block[1 + i]) == RowLine(i, p.rows[i])
      {
        assert block[1 + i] == lines[i];
        RowLinesAt(p.rows, p.length, i);
      }
    }
  }

  method RenderPattern(no: nat, p: Pattern) returns (r: Option<seq<string>>)
    requires no < 256 && PatternShaped(p)
    ensures r == PatternBlock(no, p)
  {
    var lines: seq<string> := [];
    for k := 0 to p.length
      invariant RowLines(p.rows, k) == Some(lines)
    {
      var line := RowLine(k, p.rows[k]);
      if line.None? {
        return None;
      }
      lines := lines + [line.value];
    }
    r := Some([PatternHeader(no, p.length)] + lines + ["\n"]);
  }

  /** The number of pieces the first `n` pattern blocks hold: a header,
      the rows and a blank line each. */
  function PatternLinesTotal(ps: seq<Pattern>, n: nat): nat
    requires n <= |ps|
  {
    if n == 0 then 0 else PatternLinesTotal(ps, n - 1) + ps[n - 1].length + 2
  }

  /** The blocks of the first `n` patterns, or `None` once one of them
      has a note byte without a token. */
  function {:induction false} PatternBlocks(ps: seq<Pattern>, n: nat): (r: Option<seq<string>>)
    requires n <= |ps| <= 255 && PatternsShaped(ps)
    ensures r.Some? <==> forall q :: 0 <= q < n ==> PatternPrintable(ps[q])
    ensures r.Some? ==> |r.value| == PatternLinesTotal(ps, n)
  {
    if n == 0 then Some([])
    else
      match PatternBlocks(ps, n - 1)
      case None => None
      case Some(before) =>
        match PatternBlock(n - 1, ps[n - 1])
        case None => None
        case Some(block) => Some(before + block)
  }

  /** The pattern section: the pattern count, then each pattern's block;
      it fails exactly when some note byte has no token. */
  function PatternSection(count: byte, ps: seq<Pattern>): (r: Option<seq<string>>)
    requires |ps| == count && PatternsShaped(ps)
    ensures r.Some? <==> forall q :: 0 <= q < count ==> PatternPrintable(ps[q])
    ensures r.Some? ==> |r.value| == 4 + PatternLinesTotal(ps, count)
  {
    match PatternBlocks(ps, count)
    case None => None
    case Some(blocks) => Some(["\n", "pattern (amount: $" + Hex2(count) + ")\n", "\n"] + blocks + [Rule])
  }

  method RenderPatterns(count: byte, ps: seq<Pattern>) returns (r: Option<seq<string>>)
    requires |ps| == count && PatternsShaped(ps)
    ensures r == PatternSection(count, ps)
  {
    var blocks: seq<string> := [];
    for no := 0 to count
      invariant PatternBlocks(ps, no) == Some(blocks)
    {
      var block := RenderPattern(no, ps[no]);
      if block.None? {
        return None;
      }
      blocks := blocks + block.value;
    }
    r := Some(["\n", "pattern (amount: $" + Hex2(count) + ")\n", "\n"] + blocks + [Rule]);
  }
}
