// The note model of the API package (api/musicInfo/note.py): the same parse
// at the first digit as the web version's, but octaves stop at 7 and an
// invalid token raises InvalidNoteError; get_interval has no octave option.
module ApiNote {
  import opened Py
  import opened Spelling
  import opened NoteText
  import MusicNote

  /** _note_octaves: 0 to 7. */
  predicate IsOctave(octave: int)
  {
    0 <= octave <= 7
  }

  /** parse_note: at the first digit, the name before it with that digit as
      octave when both are allowed, else ('invalid', -1); no digit, invalid. */
  function ParseNote(s: string): (r: ParsedNote)
    ensures r.Parsed? ==> NoteIndices(r.name).Some? && IsOctave(r.octave)
    ensures FirstDigit(s) < 0 ==> r == Invalid
  {
    var j := FirstDigit(s);
    if j >= 0 && NoteIndices(s[..j]).Some? && IsOctave(DigitValue(s[j])) then Parsed(s[..j], DigitValue(s[j]))
    else Invalid
  }

  /** parse_note, with its character loop (returning at the first digit). */
  method ParseNoteScan(s: string) returns (r: ParsedNote)
    ensures r == ParseNote(s)
  {
    var j := 0;
    while j < |s|
      invariant 0 <= j <= |s|
      invariant forall k :: 0 <= k < j ==> !IsDigit(s[k])
    {
      if IsDigit(s[j]) {
        FirstDigitIsFirst(s, j);
        var name, octave := s[..j], DigitValue(s[j]);
        if NoteIndices(name).Some? && IsOctave(octave) {
          return Parsed(name, octave);
        } else {
          return Invalid;
        }
      }
      j := j + 1;
    }
    return Invalid;
  }

  /** The two parsers agree except that octave 8 is refused here. */
  lemma ParseAgreesBelowEight(s: string)
    ensures ParseNote(s) == (if MusicNote.ParseNote(s).Parsed? && MusicNote.ParseNote(s).octave == 8 then Invalid
                             else MusicNote.ParseNote(s))
  {
  }

  /** A spelling followed by an octave 0-7 parses back to itself. */
  lemma ParseShown(name: string, octave: nat, rest: string)
    requires NoteIndices(name).Some? && IsOctave(octave)
    ensures ParseNote(Show(name, octave) + rest) == Parsed(name, octave)
  {
    NoteIndicesAreSpellings(name);
    FirstDigitOfShown(name, octave, rest);
  }

  /** Octave 8, accepted by the web version, is refused here. */
  lemma EighthOctaveInvalid(name: string)
    requires NoteIndices(name).Some?
    ensures ParseNote(name + "8") == Invalid
    ensures MusicNote.ParseNote(name + "8") == Parsed(name, 8)
  {
    NoteIndicesAreSpellings(name);
    FirstDigitOfShown(name, 8, []);
    assert Show(name, 8) + [] == name + "8";
  }

  /** calculate_note_value: pitch class plus twelve per octave; KeyError off the table. */
  function NoteValue(name: string, octave: int): (r: Outcome<int>)
    ensures r == MusicNote.NoteValue(name, octave)
    ensures r.Ok? && IsOctave(octave) ==> 0 <= r.value < 96
  {
    match NoteIndices(name)
      case Some(index) => NoteIndicesAreSpellings(name); Ok(index + octave * 12)
      case None => Raise(KeyError)
  }

  /** A note as create_note builds it, octave 0-7. */
  predicate WellFormed(n: Note)
  {
    MusicNote.WellFormed(n) && IsOctave(n.octave)
  }

  /** create_note: a Note for a valid token, InvalidNoteError carrying the token otherwise. */
  function CreateNote(s: string): (r: Outcome<Note>)
    ensures r.Raise? <==> ParseNote(s).Invalid?
    ensures r.Raise? ==> r.error == InvalidNoteError(s)
    ensures r.Ok? ==> ParseNote(s) == Parsed(r.value.name, r.value.octave) && WellFormed(r.value)
  {
    match ParseNote(s)
      case Invalid => Raise(InvalidNoteError(s))
      case Parsed(name, octave) =>
        var value := NoteValue(name, octave).value;
        Ok(Note(name, octave, value, NoteIndices(name).value))
  }

  /** Printing a created note and creating a note from the text gives the note back. */
  lemma CreateShowRoundTrip(s: string)
    requires CreateNote(s).Ok?
    ensures CreateNote(Show(CreateNote(s).value.name, CreateNote(s).value.octave)) == CreateNote(s)
  {
    var n := CreateNote(s).value;
    ParseShown(n.name, n.octave, []);
    assert Show(n.name, n.octave) + [] == Show(n.name, n.octave);
  }

  /** Where it creates a note, it is the note the web version creates. */
  lemma CreateAgrees(s: string)
    requires CreateNote(s).Ok?
    ensures MusicNote.CreateNote(s) == CreateNote(s)
  {
  }

  /** get_interval: the pitch-class distance up to the other note. */
  function Interval(a: Note, b: Note): (r: int)
    ensures 0 <= r < 12
    ensures r == MusicNote.Interval(a, b, false)
  {
    (b.index - a.index) % 12
  }
}
