// The note model of the original command-line program (note.py): NoteFactory
// numbers 34 spellings from 1 (B#, C, Dbb) to 12 (B, Cb), accepts octaves 0-7
// and builds a plain record of name, octave and value; there is no "Ax".
module RootNote {
  import opened Py
  import opened Spelling
  import opened NoteText
  import MusicNote

  /** _note_names: each spelling's position in the octave, counted from 1. */
  function NoteNumbers(name: string): Option<int>
  {
    match name
      case "B#" => Some(1)
      case "C" => Some(1)
      case "Dbb" => Some(1)
      case "Bx" => Some(2)
      case "C#" => Some(2)
      case "Db" => Some(2)
      case "Cx" => Some(3)
      case "D" => Some(3)
      case "Ebb" => Some(3)
      case "D#" => Some(4)
      case "Eb" => Some(4)
      case "Fbb" => Some(4)
      case "Dx" => Some(5)
      case "E" => Some(5)
      case "Fb" => Some(5)
      case "E#" => Some(6)
      case "F" => Some(6)
      case "Gbb" => Some(6)
      case "Ex" => Some(7)
      case "F#" => Some(7)
      case "Gb" => Some(7)
      case "Fx" => Some(8)
      case "G" => Some(8)
      case "Abb" => Some(8)
      case "G#" => Some(9)
      case "Ab" => Some(9)
      case "Gx" => Some(10)
      case "A" => Some(10)
      case "Bbb" => Some(10)
      case "A#" => Some(11)
      case "Bb" => Some(11)
      case "Cbb" => Some(11)
      case "B" => Some(12)
      case "Cb" => Some(12)
      case _ => None
  }

  /** The table is the shared pitch-class table shifted up by one, without "Ax". */
  lemma NoteNumbersShifted(name: string)
    ensures name == "Ax" ==> NoteNumbers(name) == None && NoteIndices(name) == Some(11)
    ensures name != "Ax" ==> NoteNumbers(name).Some? == NoteIndices(name).Some?
    ensures NoteNumbers(name).Some? ==> NoteNumbers(name).value == NoteIndices(name).value + 1
  {
  }

  /** _note_octaves: 0 to 7. */
  predicate IsOctave(octave: int)
  {
    0 <= octave <= 7
  }

  /** parse_note: at the first digit, the name before it with that digit as
      octave when both are allowed, else ('invalid', -1); no digit, invalid. */
  function ParseNote(s: string): (r: ParsedNote)
    ensures r.Parsed? ==> NoteNumbers(r.name).Some? && IsOctave(r.octave)
    ensures FirstDigit(s) < 0 ==> r == Invalid
  {
    var j := FirstDigit(s);
    if j >= 0 && NoteNumbers(s[..j]).Some? && IsOctave(DigitValue(s[j])) then Parsed(s[..j], DigitValue(s[j]))
    else Invalid
  }

  /** parse_note, with its character loop (returning at the first digit). */
  method ParseNoteScan(s: string) returns (r: ParsedNote)
    ensures r == ParseNote(s)
  {
    var j := 0;
    while j < |s|
      invariant 0 <= j <= |s|
      invariant forall k :: 0 <= k < j ==> !IsDigit(s[k])
    {
      if IsDigit(s[j]) {
        FirstDigitIsFirst(s, j);
        var name, octave := s[..j], DigitValue(s[j]);
        if NoteNumbers(name).Some? && IsOctave(octave) {
          return Parsed(name, octave);
        } else {
          return Invalid;
        }
      }
      j := j + 1;
    }
    return Invalid;
  }

  /** A spelling other than "Ax" followed by an octave 0-7 parses back to itself. */
  lemma ParseShown(name: string, octave: nat, rest: string)
    requires NoteNumbers(name).Some? && IsOctave(octave)
    ensures ParseNote(Show(name, octave) + rest) == Parsed(name, octave)
  {
    NoteNumbersShifted(name);
    NoteIndicesAreSpellings(name);
    FirstDigitOfShown(name, octave, rest);
  }

  /** "Ax4", a note the web version accepts, is refused here. */
  lemma DoubleSharpARejected()
    ensures ParseNote("Ax4") == Invalid
    ensures MusicNote.ParseNote("Ax4") == Parsed("Ax", 4)
  {
    NoteIndicesAreSpellings("Ax");
    FirstDigitOfShown("Ax", 4, []);
    assert Show("Ax", 4) + [] == "Ax4";
  }

  /** The dictionary create_note returns. */
  datatype NoteRecord = NoteRecord(name: string, octave: int, value: int)

  /** calculate_note_value: the spelling's number plus twelve per octave; KeyError off the table. */
  function NoteValue(name: string, octave: int): (r: Outcome<int>)
    ensures r.Ok? <==> NoteNumbers(name).Some?
    ensures r.Raise? ==> r.error == KeyError
    ensures r.Ok? && IsOctave(octave) ==> 1 <= r.value <= 96
    ensures r.Ok? ==> MusicNote.NoteValue(name, octave) == Ok(r.value - 1)
  {
    NoteNumbersShifted(name);
    match NoteNumbers(name)
      case Some(number) => Ok(number + octave * 12)
      case None => Raise(KeyError)
  }

  /** create_note: the record for a valid token, InvalidNoteError carrying the token otherwise. */
  function CreateNote(s: string): (r: Outcome<NoteRecord>)
    ensures r.Raise? <==> ParseNote(s).Invalid?
    ensures r.Raise? ==> r.error == InvalidNoteError(s)
    ensures r.Ok? ==> ParseNote(s) == Parsed(r.value.name, r.value.octave)
    ensures r.Ok? ==> IsOctave(r.value.octave) && 1 <= r.value.value <= 96
                      && r.value.value == NoteNumbers(r.value.name).value + 12 * r.value.octave
  {
    match ParseNote(s)
      case Invalid => Raise(InvalidNoteError(s))
      case Parsed(name, octave) => Ok(NoteRecord(name, octave, NoteValue(name, octave).value))
  }

  /** Where both versions create a note, they agree on name and octave and
      this value is one above the web version's. */
  lemma CreateAgrees(s: string)
    requires CreateNote(s).Ok?
    ensures MusicNote.CreateNote(s).Ok?
    ensures var n := MusicNote.CreateNote(s).value;
            var m := CreateNote(s).value;
            n.name == m.name && n.octave == m.octave && m.value == n.value + 1
  {
    NoteNumbersShifted(ParseNote(s).name);
  }

  /** Printing a created note and creating a note from the text gives the record back. */
  lemma CreateShowRoundTrip(s: string)
    requires CreateNote(s).Ok?
    ensures CreateNote(Show(CreateNote(s).value.name, CreateNote(s).value.octave)) == CreateNote(s)
  {
    var n := CreateNote(s).value;
    ParseShown(n.name, n.octave, []);
    assert Show(n.name, n.octave) + [] == Show(n.name, n.octave);
  }
}
