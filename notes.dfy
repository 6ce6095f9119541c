/** The note column of a pattern row, turned into the three-character token
    the report prints. */
module Notes {
  import opened SongTypes

  /** The note-name table, C-0 up to B-7, indexed from note value 0x60; one
      octave per row. */
  const Names: seq<string> :=
    ["C-0", "C#0", "D-0", "D#0", "E-0", "F-0", "F#0", "G-0", "G#0", "A-0", "A#0", "B-0"] +
    ["C-1", "C#1", "D-1", "D#1", "E-1", "F-1", "F#1", "G-1", "G#1", "A-1", "A#1", "B-1"] +
    ["C-2", "C#2", "D-2", "D#2", "E-2", "F-2", "F#2", "G-2", "G#2", "A-2", "A#2", "B-2"] +
    ["C-3", "C#3", "D-3", "D#3", "E-3", "F-3", "F#3", "G-3", "G#3", "A-3", "A#3", "B-3"] +
    ["C-4", "C#4", "D-4", "D#4", "E-4", "F-4", "F#4", "G-4", "G#4", "A-4", "A#4", "B-4"] +
    ["C-5", "C#5", "D-5", "D#5", "E-5", "F-5", "F#5", "G-5", "G#5", "A-5", "A#5", "B-5"] +
    ["C-6", "C#6", "D-6", "D#6", "E-6", "F-6", "F#6", "G-6", "G#6", "A-6", "A#6", "B-6"] +
    ["C-7", "C#7", "D-7", "D#7", "E-7", "F-7", "F#7", "G-7", "G#7", "A-7", "A#7", "B-7"]

  const RestValue: byte := 0xBD
  const KeyOffValue: byte := 0xBE
  const KeyOnValue: byte := 0xBF
  const PatternEndValue: byte := 0xFF

  // ---------------------------------------------------------------------------
  // A reference definition of the table: pitch class and octave.

  const Pitches: seq<string> := ["C-", "C#", "D-", "D#", "E-", "F-", "F#", "G-", "G#", "A-", "A#", "B-"]

  function OctaveDigit(octave: nat): (c: char)
    requires octave < 10
    ensures '0' <= c <= '9'
  {
    (48 + octave) as char
  }

  /** Semitone `k` above C-0, named by its pitch class and octave. */
  function NoteName(k: nat): (r: string)
    requires k < 96
    ensures |r| == 3 && r[..2] == Pitches[k % 12] && r[2] == OctaveDigit(k / 12)
  {
    var pitch := Pitches[k % 12];
    assert |pitch| == 2;
    [pitch[0], pitch[1], OctaveDigit(k / 12)]
  }

  // Each row of the table, checked entry by entry against `NoteName`.

  lemma NamesRow0(k: nat)
    requires 0 <= k < 12
    ensures Names[k] == NoteName(k)
  {
    match k
      case 0 =>
      case 1 =>
      case 2 =>
      case 3 =>
      case 4 =>
      case 5 =>
      case 6 =>
      case 7 =>
      case 8 =>
      case 9 =>
      case 10 =>
      case 11 =>
  }

  lemma NamesRow1(k: nat)
    requires 12 <= k < 24
    ensures Names[k] == NoteName(k)
  {
    match k
      case 12 =>
      case 13 =>
      case 14 =>
      case 15 =>
      case 16 =>
      case 17 =>
      case 18 =>
      case 19 =>
      case 20 =>
      case 21 =>
      case 22 =>
      case 23 =>
  }

  lemma NamesRow2(k: nat)
    requires 24 <= k < 36
    ensures Names[k] == NoteName(k)
  {
    match k
      case 24 =>
      case 25 =>
      case 26 =>
      case 27 =>
      case 28 =>
      case 29 =>
      case 30 =>
      case 31 =>
      case 32 =>
      case 33 =>
      case 34 =>
      case 35 =>
  }

  lemma NamesRow3(k: nat)
    requires 36 <= k < 48
    ensures Names[k] == NoteName(k)
  {
    match k
      case 36 =>
      case 37 =>
      case 38 =>
      case 39 =>
      case 40 =>
      case 41 =>
      case 42 =>
      case 43 =>
      case 44 =>
      case 45 =>
      case 46 =>
      case 47 =>
  }

  lemma NamesRow4(k: nat)
    requires 48 <= k < 60
    ensures Names[k] == NoteName(k)
  {
    match k
      case 48 =>
      case 49 =>
      case 50 =>
      case 51 =>
      case 52 =>
      case 53 =>
      case 54 =>
      case 55 =>
      case 56 =>
      case 57 =>
      case 58 =>
      case 59 =>
  }

  lemma NamesRow5(k: nat)
    requires 60 <= k < 72
    ensures Names[k] == NoteName(k)
  {
    match k
      case 60 =>
      case 61 =>
      case 62 =>
      case 63 =>
      case 64 =>
      case 65 =>
      case 66 =>
      case 67 =>
      case 68 =>
      case 69 =>
      case 70 =>
      case 71 =>
  }

  lemma NamesRow6(k: nat)
    requires 72 <= k < 84
    ensures Names[k] == NoteName(k)
  {
    match k
      case 72 =>
      case 73 =>
      case 74 =>
      case 75 =>
      case 76 =>
      case 77 =>
      case 78 =>
      case 79 =>
      case 80 =>
      case 81 =>
      case 82 =>
      case 83 =>
  }

  lemma NamesRow7(k: nat)
    requires 84 <= k < 96
    ensures Names[k] == NoteName(k)
  {
    match k
      case 84 =>
      case 85 =>
      case 86 =>
      case 87 =>
      case 88 =>
      case 89 =>
      case 90 =>
      case 91 =>
      case 92 =>
      case 93 =>
      case 94 =>
      case 95 =>
  }

  /** Entry `k` of the table is the note `k` semitones above C-0. */
  lemma NamesAreNoteNames(k: nat)
    requires k < 96
    ensures |Names| == 96 && Names[k] == NoteName(k)
  {
    if k < 12 { NamesRow0(k); }
    else if k < 24 { NamesRow1(k); }
    else if k < 36 { NamesRow2(k); }
    else if k < 48 { NamesRow3(k); }
    else if k < 60 { NamesRow4(k); }
    else if k < 72 { NamesRow5(k); }
    else if k < 84 { NamesRow6(k); }
    else { NamesRow7(k); }
  }

  // ---------------------------------------------------------------------------
  // The lookup.

  /** Python's `seq[i]`: a negative index counts from the end, and an index
      outside both ranges raises IndexError (here `None`). */
  function PyIndex<T>(s: seq<T>, i: int): (r: Option<T>)
    ensures r.Some? <==> -|s| <= i < |s|
    ensures 0 <= i < |s| ==> r == Some(s[i])
    ensures -|s| <= i < 0 ==> r == Some(s[|s| + i])
  {
    if 0 <= i < |s| then Some(s[i])
    else if -|s| <= i < 0 then Some(s[|s| + i])
    else None
  }

  /** The token for a note byte: the four special values first, then the
      table entry at `note - 0x60`; `None` stands for the IndexError the
      lookup raises. */
  function ValueToNote(note: byte): (r: Option<string>)
    ensures r.None? <==> 0xC0 <= note <= 0xFE
    ensures r.Some? ==> |r.value| == 3
  {
    if note == RestValue then Some("...")
    else if note == KeyOnValue then Some("###")
    else if note == KeyOffValue then Some("---")
    else if note == PatternEndValue then Some("END")
    else
      var k := note - 0x60;
      if 0 <= k < 96 then NamesAreNoteNames(k); PyIndex(Names, k)
      else if -96 <= k < 0 then NamesAreNoteNames(96 + k); PyIndex(Names, k)
      else PyIndex(Names, k)
  }

  /** The documented values: 0x60..0xBC are the notes C-0 to G#7, and the
      four special values print as rest, key-off, key-on and end marks. */
  lemma ValueToNoteDocumented(note: byte)
    ensures 0x60 <= note <= 0xBC ==> ValueToNote(note) == Some(NoteName(note - 0x60))
    ensures note == 0xBD ==> ValueToNote(note) == Some("...")
    ensures note == 0xBE ==> ValueToNote(note) == Some("---")
    ensures note == 0xBF ==> ValueToNote(note) == Some("###")
    ensures note == 0xFF ==> ValueToNote(note) == Some("END")
  {
    if 0x60 <= note <= 0xBC {
      NamesAreNoteNames(note - 0x60);
    }
  }

  lemma ValueToNoteExamples()
    ensures ValueToNote(0x60) == Some("C-0")
    ensures ValueToNote(0x6C) == Some("C-1")
    ensures ValueToNote(0xBC) == Some("G#7")
  {
    ValueToNoteDocumented(0x60);
    ValueToNoteDocumented(0x6C);
    ValueToNoteDocumented(0xBC);
  }

  /** Bytes below 0x60 index the table from its end, so byte `n` prints
      entry `n`; below 0x5D that is the token of the byte 0x60 above it,
      while 0x5D..0x5F print A-7, A#7 and B-7 where 0xBD..0xBF print the
      rest, key-off and key-on marks. */
  lemma ValueToNoteWraps(note: byte)
    requires note < 0x60
    ensures ValueToNote(note) == Some(NoteName(note))
    ensures note < 0x5D ==> ValueToNote(note) == ValueToNote(note + 0x60)
  {
    NamesAreNoteNames(note);
    if note < 0x5D {
      ValueToNoteDocumented(note + 0x60);
    }
  }

  // ---------------------------------------------------------------------------
  // Reading a token back.

  function PitchIndex(s: string): (r: Option<nat>)
    ensures r.Some? ==> r.value < 12 && Pitches[r.value] == s
  {
    if s == "C-" then Some(0) else if s == "C#" then Some(1)
    else if s == "D-" then Some(2) else if s == "D#" then Some(3)
    else if s == "E-" then Some(4) else if s == "F-" then Some(5)
    else if s == "F#" then Some(6) else if s == "G-" then Some(7)
    else if s == "G#" then Some(8) else if s == "A-" then Some(9)
    else if s == "A#" then Some(10) else if s == "B-" then Some(11)
    else None
  }

  /** The note byte a printed token stands for, when it is one of the tokens
      the documented values print (notes C-0 to G#7 and the four marks). */
  function NoteValue(tok: string): (r: Option<byte>)
    ensures r.Some? ==> ValueToNote(r.value) == Some(tok)
  {
    if tok == "..." then Some(RestValue)
    else if tok == "---" then Some(KeyOffValue)
    else if tok == "###" then Some(KeyOnValue)
    else if tok == "END" then Some(PatternEndValue)
    else if |tok| == 3 && PitchIndex(tok[..2]).Some? && '0' <= tok[2] <= '7'
            && 12 * (tok[2] as int - 48) + PitchIndex(tok[..2]).value <= 0x5C then
      var p, o := PitchIndex(tok[..2]).value, tok[2] as int - 48;
      var k := 12 * o + p;
      assert k % 12 == p && k / 12 == o;
      NamesAreNoteNames(k);
      assert NoteName(k) == tok;
      Some(0x60 + k)
    else None
  }

  lemma PitchIndexOfPitch(p: nat)
    requires p < 12
    ensures PitchIndex(Pitches[p]) == Some(p)
  {
  }

  /** An undocumented note byte can print the token of another byte: 0x10
      indexes the table from its end and prints "E-1", which is what 0x70
      prints. */
  lemma UndocumentedNoteMisreads()
    ensures ValueToNote(0x10) == Some("E-1")
    ensures NoteValue("E-1") == Some(0x70)
  {
    ValueToNoteWraps(0x10);
    NamesAreNoteNames(0x10);
    assert NoteName(0x10) == "E-1";
    PitchIndexOfPitch(4);
  }

  /** Every documented note value prints a token that reads back as the same
      value; so no two documented values print alike. */
  lemma NoteRoundTrip(note: byte)
    requires 0x60 <= note <= 0xBF || note == 0xFF
    ensures ValueToNote(note).Some? && NoteValue(ValueToNote(note).value) == Some(note)
  {
    if note <= 0xBC {
      var k := note - 0x60;
      ValueToNoteDocumented(note);
      var tok := NoteName(k);
      PitchIndexOfPitch(k % 12);
      assert tok[..2] == Pitches[k % 12];
      assert tok != "..." && tok != "---" && tok != "###" && tok != "END" by {
        assert '0' <= tok[2] <= '9';
      }
    }
  }
}
