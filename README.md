# goatparser, modelled in Dafny

goatparser reads a GoatTracker 2 song file (".sng", format GTS5) and writes a
text dump of it. The file is a sequence of structures that must be read in
strict byte order, because each one's size comes from bytes read before it:

- a 101-byte header: identification, song name, author and copyright
  strings, and the subtune count;
- for every subtune, three channel order lists, each a length byte `n`
  followed by `n+1` entries;
- an instrument count, then 9 parameter bytes and a 16-byte name per
  instrument;
- the wave, pulse, filter and speed tables, each a length byte `n`, then
  `n` left bytes, then `n` right bytes;
- a pattern count, then per pattern a row count `m` and `m` four-byte rows
  (note, instrument, command, command data).

The program reads through one buffer with one offset. `_read_byte` takes
the byte at the offset. `_read_string` takes a fixed-width window and drops
every zero byte from it. The dump prints byte values with `%02x`, as two
lower-case hex digits, and note bytes as three-character tokens such as
`C#4`. There are exceptions: the channel number is printed in decimal, an
instrument's AD and SR bytes as one four-digit value, and a zero-row
pattern's length less one as "-1".

The model has these modules:

- `SongTypes` (types.dfy): the decoded values, the shape rules that tie
  every list to its count or length byte, and the number of bytes each
  structure occupies.
- `Layout` (layout.dfy): the file layout as pure functions. Each one says
  what a read starting at an offset yields and where it ends, or that the
  buffer ran out (`Truncated`). This is the reference the rest is checked
  against.
- `Cursor` (cursor.dfy): the buffer and its offset as a `ByteCursor`
  class, with `ReadByte` and `ReadString` as methods that move the offset.
  `IntToString` is the zero-dropping loop.
- `Decoder` (decoder.dfy): the decoding loops of the main routine, as
  methods over a cursor. Each is proved to return what the layout
  describes and to leave the offset where the layout ends.
- `Truncation` (truncation.dfy): decoding only looks at the bytes it
  consumes. Cutting a file short of them makes decoding fail.
- `Encoding` (encoding.dfy): the layout written the other way round. The
  program has no encoder; this one is the inverse the decoder is checked
  against. Decoding the encoding of any well-formed song whose strings hold
  no zero byte gives the song back and consumes exactly its bytes.
- `Notes` (notes.dfy): the note-byte lookup, with Python's indexing
  rules, a pitch-and-octave reference for its name table, and a reading of
  tokens back into note bytes.
- `Report` (report.dfy): the dump's order-list, table and pattern
  sections. Each section is built by a method, proved to produce what a
  function of the decoded song describes. The tables method calls the
  one-table method four times; the other methods are loops. Lemmas show
  that three kinds of value read back from the printed lines as the bytes
  they came from: the order-list entries and channel lengths, the table
  rows, and the rows whose note byte is one of the documented values
  (0x60..0xBF or 0xFF). Other note bytes can print the token of a
  different byte: 0x10 prints "E-1", the token of 0x70. The pattern
  header's length field reads back as the row count less one only for the
  corrected header and a non-empty pattern.

Where the code and the format description disagree, the model follows the
code:

- A string read uses a Python slice. The slice clamps at the end of the
  buffer, so a string read never fails. A buffer that holds only "GTS5"
  therefore fails at the subtune byte, at offset 100, and not at the song
  name.
- A note byte below 0x60 does not fail. It indexes the name table from its
  end.

## Model

| member | source | states |
|---|---|---|
| SongTypes.SongSizeAtLeast | goatparser.py:155-323 | every song occupies at least 107 bytes: the header, the instrument count, four table length bytes and the pattern count |
| Layout.StripZeros | goatparser.py:112-119 | the text of a field has no zero byte and is never longer than the field |
| Layout.StripZerosAppend | goatparser.py:115-119 | dropping zeros from two windows back to back is dropping them from each and joining the results |
| Layout.StripZerosKeeps | goatparser.py:116-118 | a window without zero bytes comes back unchanged |
| Layout.StripZerosOfZeros | goatparser.py:116-118 | an all-zero field, which is pure padding, gives empty text |
| Layout.StripZerosCounts | goatparser.py:116-118 | every nonzero byte keeps its number of occurrences and no zero is left, so zeros inside the text go as well as trailing ones |
| Layout.StripZerosExample | goatparser.py:116-118 | an embedded zero is dropped too: bytes 41 00 42 00 give 41 42 |
| Layout.Slice | goatparser.py:126 | the window is the `size` bytes at the offset when they are all there, the rest of the buffer when it ends inside the window, empty past the end, and never longer than `size` |
| Layout.ByteAt | goatparser.py:130-134 | a byte read succeeds exactly when the offset is inside the buffer, yields the byte there and moves one on |
| Layout.BytesAt | goatparser.py:188-189 | `count` byte reads succeed exactly when that many bytes remain, and yield them in order |
| Layout.StringAt | goatparser.py:122-128 | a string read never fails, always moves on by `size`, and yields at most `size` bytes with no zero among them |
| Layout.HeaderAt | goatparser.py:155-159 | the header reads exactly when byte `s+100` exists, consumes exactly 101 bytes, and its subtune count is that byte |
| Layout.ChannelAt | goatparser.py:183-191 | a channel is its length byte `n` and exactly `n+1` entries, entry `i` being the byte at `s+1+i`, consuming `n+2` bytes inside the buffer |
| Layout.ChannelsAt | goatparser.py:182-192 | reading `count` channels gives exactly `count`, each shaped by its length byte |
| Layout.SubtunesAt | goatparser.py:178-194 | the order lists are exactly `subtunes` records of exactly three shaped channels, consuming the sum of their sizes |
| Layout.InstrumentAt | goatparser.py:223-233 | an instrument reads exactly when its 9 parameter bytes are there (the name read clamps), consumes 25 bytes, and its name is at most 16 bytes |
| Layout.InstrumentListAt | goatparser.py:222-234 | `count` instruments, 25 bytes each |
| Layout.InstrumentsAt | goatparser.py:220-234 | the instrument count is the first byte and exactly that many instruments follow, `1 + 25n` bytes in all |
| Layout.TableAt | goatparser.py:249-255 | a table reads exactly when `1+2n` bytes remain; left is the `n` bytes after the length byte and right the next `n` |
| Layout.RowsAt | goatparser.py:316-322 | `m` rows read exactly when `4m` bytes remain, and then there are exactly `m` of them, consuming `4m` bytes |
| Layout.RowsAtRows | goatparser.py:316-322 | row `i` of a successful read is `RowAt` of the four bytes at `s+4i`: note, instrument, command and data in that order |
| Layout.PatternAt | goatparser.py:313-323 | a pattern reads exactly when `1+4m` bytes remain, has exactly `m` rows and consumes `1+4m` bytes |
| Layout.PatternListAt | goatparser.py:312-323 | `count` patterns in index order, each shaped by its row count |
| Layout.PatternsAt | goatparser.py:309-323 | the pattern count is the first byte and exactly that many patterns follow |
| Layout.SongAt | goatparser.py:155-323 | a decoded song is shaped by all its count and length bytes and consumes exactly its size, inside the buffer |
| Layout.SongAtParts | goatparser.py:155-323 | a song is its header, order lists, instruments, wave, pulse, filter and speed tables and patterns, read back to back in that order |
| Layout.ChannelsTruncatedStays | goatparser.py:182-192 | once a channel read fails, reading more channels fails too |
| Layout.SubtunesTruncatedStays | goatparser.py:179-194 | once a subtune read fails, reading more subtunes fails too |
| Layout.InstrumentsTruncatedStays | goatparser.py:222-234 | once an instrument read fails, reading more instruments fails too |
| Layout.PatternsTruncatedStays | goatparser.py:312-323 | once a pattern read fails, reading more patterns fails too |
| Layout.ShortFileFails | goatparser.py:155-323 | no file shorter than 107 bytes decodes |
| Layout.HeaderNeedsSubtuneByte | goatparser.py:155-159 | the header reads exactly when the file has at least 101 bytes |
| Layout.IdOnlyFails | goatparser.py:155-159 | a file holding only "GTS5" fails to decode, at the subtune byte and not at the name |
| Cursor.IntToString | goatparser.py:112-119 | the loop's text is the field with its zero bytes dropped |
| Cursor.ByteCursor.constructor | goatparser.py:31-32 | a new cursor holds the buffer with the offset at 0 |
| Cursor.ByteCursor.ReadByte | goatparser.py:130-134 | inside the buffer it yields `buffer[offset]` and moves one on; past the end it fails and leaves the offset |
| Cursor.ByteCursor.ReadString | goatparser.py:122-128 | yields the clamped window with zeros dropped and moves on by exactly `size` |
| Decoder.ReadBytes | goatparser.py:188-189 | the read loop yields what `BytesAt` describes and ends where it ends |
| Decoder.ReadHeader | goatparser.py:155-159 | yields the header `HeaderAt` describes, ending at its end; the offset never goes back |
| Decoder.ReadChannel | goatparser.py:183-191 | yields the channel `ChannelAt` describes |
| Decoder.ReadSubtune | goatparser.py:181-192 | the three-channel loop yields what `ChannelsAt` describes for 3 channels |
| Decoder.ReadOrderlists | goatparser.py:178-194 | the subtune loop yields what `SubtunesAt` describes |
| Decoder.ReadInstrument | goatparser.py:223-233 | the nine reads and the name read yield the instrument `InstrumentAt` describes |
| Decoder.ReadInstruments | goatparser.py:220-234 | yields the count and the instruments `InstrumentsAt` describes |
| Decoder.ReadTable | goatparser.py:249-255 | the two loops yield the table `TableAt` describes |
| Decoder.ReadPattern | goatparser.py:313-323 | the row loop yields the pattern `PatternAt` describes |
| Decoder.ReadPatterns | goatparser.py:309-323 | yields the count and the patterns `PatternsAt` describes |
| Decoder.DecodeSong | goatparser.py:155-323 | the whole pass yields the song `SongAt` describes and ends at its end, or fails exactly when it fails; the offset never goes back |
| Decoder.DecodeFile | goatparser.py:155-323 | a file yields a song exactly when the layout decodes one from offset 0 (`Decode`); then it is that song, shaped by its count bytes and no larger than the file |
| Truncation.ChannelPrefix | goatparser.py:183-191 | a channel reads the same from any prefix holding it and fails on a shorter one |
| Truncation.ChannelsPrefix | goatparser.py:182-192 | the same for a run of channels |
| Truncation.SubtunesPrefix | goatparser.py:178-194 | the same for the order lists |
| Truncation.HeaderPrefix | goatparser.py:155-159 | the same for the header |
| Truncation.InstrumentPrefix | goatparser.py:223-233 | an instrument reads the same from any prefix holding it |
| Truncation.InstrumentCutInName | goatparser.py:233 | a cut inside an instrument's name still reads the instrument, with the name taken from the bytes before the cut, ending where it did |
| Truncation.InstrumentListPrefix | goatparser.py:222-234 | the same for a run of instruments |
| Truncation.InstrumentsPrefix | goatparser.py:220-234 | the instrument block reads the same from a prefix holding it, and any success on a prefix ends where it does on the whole buffer |
| Truncation.TablePrefix | goatparser.py:249-255 | a table reads the same from any prefix holding it and fails on a shorter one |
| Truncation.PatternPrefix | goatparser.py:313-323 | the same for a pattern |
| Truncation.PatternListPrefix | goatparser.py:312-323 | the same for a run of patterns |
| Truncation.PatternsPrefix | goatparser.py:309-323 | the same for the pattern block |
| Truncation.SongPrefix | goatparser.py:155-323 | a song reads the same from any prefix holding it and fails on a shorter one |
| Truncation.DecodeIgnoresTrailingBytes | goatparser.py:155-323 | decoding never depends on bytes after the ones it consumed |
| Truncation.DecodeRejectsTruncation | goatparser.py:155-323 | a file cut before its last consumed byte fails to decode; no partial song comes out |
| Encoding.StringDecodes | goatparser.py:122-128 | a zero-padded string field with no zero in its text reads back as that text |
| Encoding.HeaderDecodes | goatparser.py:155-159 | an encoded header reads back as the header, consuming 101 bytes |
| Encoding.ChannelDecodes | goatparser.py:183-191 | an encoded channel reads back as the channel |
| Encoding.ChannelsDecode | goatparser.py:182-192 | encoded channels read back as the channels |
| Encoding.SubtunesDecode | goatparser.py:178-194 | encoded order lists read back as the order lists |
| Encoding.InstrumentDecodes | goatparser.py:223-233 | an encoded instrument reads back as the instrument |
| Encoding.InstrumentListDecodes | goatparser.py:222-234 | encoded instruments read back as the instruments |
| Encoding.InstrumentsDecode | goatparser.py:220-234 | the count byte and the encoded instruments read back as both |
| Encoding.TableDecodes | goatparser.py:249-255 | an encoded table reads back as the table |
| Encoding.TablesDecode | goatparser.py:249-279 | the four encoded tables read back in the order wave, pulse, filter, speed |
| Encoding.RowDecodes | goatparser.py:317-322 | the four bytes of a row read back as note, instrument, command and data |
| Encoding.RowsDecode | goatparser.py:316-322 | encoded rows read back as the rows |
| Encoding.PatternDecodes | goatparser.py:313-323 | an encoded pattern reads back as the pattern |
| Encoding.PatternListDecodes | goatparser.py:312-323 | encoded patterns read back as the patterns |
| Encoding.PatternsDecode | goatparser.py:309-323 | the count byte and the encoded patterns read back as both |
| Encoding.SongDecodes | goatparser.py:155-323 | the five encoded blocks, back to back, read back as the song |
| Encoding.DecodeEncode | goatparser.py:155-323 | decoding the encoding of a song, with any bytes after it, gives the song back and consumes exactly its size |
| Notes.NoteName | goatparser.py:56-65 | the name of semitone `k` is the pitch class of `k mod 12` and the octave digit `k div 12` |
| Notes.NamesAreNoteNames | goatparser.py:56-65 | entry `k` of the 96-entry table is the note `k` semitones above C-0 |
| Notes.PyIndex | goatparser.py:79 | Python indexing: in range from the start, negative from the end, anything else an IndexError |
| Notes.ValueToNote | goatparser.py:39-79 | a note byte has a token exactly when it is not 0xC0..0xFE, and every token is three characters |
| Notes.ValueToNoteDocumented | goatparser.py:43-79 | 0x60..0xBC print the notes C-0..G#7; 0xBD, 0xBE, 0xBF and 0xFF print `...`, `---`, `###` and `END` |
| Notes.ValueToNoteExamples | goatparser.py:56-79 | 0x60 prints C-0, 0x6C prints C-1 and 0xBC prints G#7 |
| Notes.ValueToNoteWraps | goatparser.py:78-79 | a byte `n` below 0x60 prints table entry `n`, the same token as `n+0x60` except for 0x5D..0x5F |
| Notes.NoteValue | goatparser.py:51-79 | a token that reads back as a note byte is the token that byte prints |
| Notes.UndocumentedNoteMisreads | goatparser.py:78-79 | the undocumented byte 0x10 prints "E-1", the token that reads back as 0x70 |
| Notes.NoteRoundTrip | goatparser.py:51-79 | every documented note byte prints a token that reads back as that byte, so no two of them print alike |
| Report.Hex2 | goatparser.py:350 | `%02x` of a byte is two characters that read back as the byte |
| Report.Hex2Injective | goatparser.py:350 | different bytes print different hex |
| Report.EntryTokens | goatparser.py:351-352 | one `$xx ` token per order-list entry, in order, each reading back as its entry |
| Report.ChannelLineTokens | goatparser.py:349-353 | the `length:` piece reads back as the channel's length byte, and the line holds exactly `n+1` entry tokens, which read back as the channel's entries |
| Report.RenderChannel | goatparser.py:349-353 | the loop builds the channel line |
| Report.RenderSubtune | goatparser.py:345-353 | the loop builds a subtune's number and its three channel lines |
| Report.RenderOrderlists | goatparser.py:342-355 | the nested loops build the order-list section for every subtune |
| Report.TableLines | goatparser.py:380-381 | line `i` of a table reads back as `i`, `left[i]` and `right[i]` |
| Report.TableSectionRows | goatparser.py:378-382 | a table section prints exactly `n` row lines, line `i` reading back as `i`, `left[i]`, `right[i]` |
| Report.RenderTable | goatparser.py:378-382 | the loop builds the table section |
| Report.RenderTables | goatparser.py:378-400 | the four sections are built in the order wave, pulse, filter, speed |
| Report.RowLine | goatparser.py:411 | a row line exists exactly when the row's note byte has a token |
| Report.RowLineRoundTrip | goatparser.py:411 | a row with a documented note prints a line that reads back as its index and the row |
| Report.RowLines | goatparser.py:410-411 | the row lines exist exactly when every note has a token, and there are exactly `m` of them |
| Report.RowLinesAt | goatparser.py:410-411 | line `i` is the line of row `i` |
| Report.LengthText | goatparser.py:409 | a length byte `m > 0` prints as two hex digits reading back as `m-1`; 0 prints `%02x` of -1, which is "-1" and reads back as no byte |
| Report.PatternHeader | goatparser.py:409 | the corrected header: pattern `no`'s own row count less one, at a fixed place in a 25-character line |
| Report.PatternHeaderInjective | goatparser.py:409 | headers of one pattern differ exactly when the lengths they print differ |
| Report.PatternHeaderAsWritten | goatparser.py:409 | the header as written prints the length at a given index into the length list, or raises IndexError past its end |
| Report.PatternLengths | goatparser.py:310-314 | the length list holds one row count per pattern, in pattern order |
| Report.LeftoverIndex | goatparser.py:312-409 | the value `i` holds at the header: the last index of the latest loop over `i` that ran (pattern reading, then the report's subtune, instrument and four table loops); it exists whenever there are patterns |
| Report.SongPatternHeader | goatparser.py:409 | the header the program prints for a song fails exactly when the leftover index is past the last pattern, and otherwise prints the row count of the pattern at that index |
| Report.SongPatternHeaderRight | goatparser.py:409 | a printed header is the right one exactly when the pattern at the leftover index has as many rows as pattern `no` |
| Report.StaleIndexMislabels | goatparser.py:398-409 | for a song with a one-row speed table and patterns of lengths 1 and 5, the leftover index is 0 and pattern 1 is headed "00" where its own length gives "04" |
| Report.StaleIndexCrashes | goatparser.py:398-409 | for a song with a three-row speed table and two patterns, the leftover index is 2 and the first header raises IndexError |
| Report.PatternBlock | goatparser.py:408-413 | a pattern block exists exactly when all its notes have tokens, and holds its header, `m` row lines and a blank line |
| Report.PatternBlockRows | goatparser.py:410-411 | line `1+i` of a pattern block is the line of row `i` |
| Report.RenderPattern | goatparser.py:408-413 | the row loop builds the pattern block, or fails on the first note without a token |
| Report.PatternBlocks | goatparser.py:408-413 | the blocks exist exactly when every pattern's notes have tokens, and hold every block's lines |
| Report.PatternSection | goatparser.py:404-414 | the section exists exactly when every note of every pattern has a token; it holds 4 pieces plus every block's lines |
| Report.RenderPatterns | goatparser.py:404-414 | the loop over patterns builds the pattern section, or fails as it does |

## Left out

- Reading the file into the buffer (goatparser.py:84-107): the buffer is a given sequence of byte values.
- The command line, output file naming and writing, and the progress messages (goatparser.py:419-462): I/O.
- The banner, the header text lines and the instrument section of the dump (goatparser.py:330-340, 358-375): they print the header strings and instrument names through `chr()`, and the model keeps strings as byte values.
- `chr()`: decoded strings are sequences of byte values, not text.
- Joining the dump's pieces into one text and writing it out: each section is modelled as its list of pieces.
- The module-level `REST_VALUE` and `OFFNOTE_VALUE` (goatparser.py:35-36): they are never used.
- Errors: an IndexError while decoding is `Truncated` or `None`, and one in the note lookup is `None`; the program's crash is not modelled beyond that.
- Notes.Names: the note-name table is written as eight twelve-name rows joined together, one per octave, where the source has a single tuple; the entries and their order are the same.
- Report.PatternBlock: prints the corrected header `PatternHeader(no, …)` with pattern `no`'s own length; the mislabel and the IndexError of goatparser.py:409 are modelled only by `Report.SongPatternHeader`.
- Report.RenderPattern: builds the block with the corrected header, so it has neither the mislabel nor the IndexError of goatparser.py:409 (see `Report.SongPatternHeader`).
- Report.PatternBlocks: its existence condition covers only note bytes without a token; it leaves out the IndexError goatparser.py:409 raises once the leftover index reaches the pattern count (see `Report.StaleIndexCrashes`).
- Report.PatternSection: "exists exactly when every note has a token" holds for the corrected header only; as written the section also fails whenever the leftover index is at least the pattern count, e.g. with a three-row speed table and two patterns (`Report.StaleIndexCrashes`).
- Report.RenderPatterns: succeeds with the corrected headers where the program raises IndexError at goatparser.py:409; that failure is modelled only by `Report.SongPatternHeader`.

## Findings

| source | as written | input that shows it | evidently intended | confidence | as-written member | corrected member |
|---|---|---|---|---|---|---|
| goatparser.py:409 | the header of pattern `no` prints `pattern_length[i]-1`, where `i` is left over from the last earlier loop over `i` | a speed table of one row, so `i` is 0, and two patterns with length bytes 1 and 5: pattern $01 is headed with length $00; with a three-row speed table and two patterns `i` is 2 and the program raises IndexError and writes nothing | `pattern_length[no]-1`, which gives $04 for pattern $01 and never fails | high, not executed | Report.SongPatternHeader | Report.PatternHeader |
