// The note model of the web version (Music/music/note.py): NoteFactory parses
// a token such as "C#4" at its first digit, accepts one of the 35 spellings
// with an octave 0-8, and builds a Note whose index is the spelling's pitch
// class and whose value is index + 12 * octave; Note.get_interval measures
// the distance to another note in pitch classes or, on request, in semitones.
module MusicNote {
  import opened Py
  import opened Spelling
  import opened NoteText

  /** _note_octaves: 0 to 8. */
  predicate IsOctave(octave: int)
  {
    0 <= octave <= 8
  }

  /** parse_note: the name before the first digit and that digit as the octave
      when the name is in the table and the octave allowed, else ('invalid', -1). */
  function ParseNote(s: string): (r: ParsedNote)
    ensures r.Parsed? ==> NoteIndices(r.name).Some? && IsOctave(r.octave)
    ensures FirstDigit(s) < 0 ==> r == Invalid
  {
    var j := FirstDigit(s);
    if j >= 0 && NoteIndices(s[..j]).Some? && IsOctave(DigitValue(s[j])) then Parsed(s[..j], DigitValue(s[j]))
    else Invalid
  }

  /** parse_note, with its character loop (break at the first digit). */
  method ParseNoteScan(s: string) returns (r: ParsedNote)
    ensures r == ParseNote(s)
  {
    var name, octave := "invalid", -1;
    var j := 0;
    while j < |s|
      invariant 0 <= j <= |s|
      invariant forall k :: 0 <= k < j ==> !IsDigit(s[k])
      invariant name == "invalid" && octave == -1
    {
      if IsDigit(s[j]) {
        FirstDigitIsFirst(s, j);
        name, octave := s[..j], DigitValue(s[j]);
        break;
      }
      j := j + 1;
    }
    if NoteIndices(name).Some? && IsOctave(octave) {
      r := Parsed(name, octave);
    } else {
      r := Invalid;
    }
  }

  /** A spelling followed by an octave 0-8 parses back to itself, whatever follows the digit. */
  lemma ParseShown(name: string, octave: nat, rest: string)
    requires NoteIndices(name).Some? && IsOctave(octave)
    ensures ParseNote(Show(name, octave) + rest) == Parsed(name, octave)
  {
    NoteIndicesAreSpellings(name);
    FirstDigitOfShown(name, octave, rest);
  }

  /** Octave 9 is refused. */
  lemma NinthOctaveInvalid(name: string)
    requires NoteIndices(name).Some?
    ensures ParseNote(name + "9") == Invalid
  {
    NoteIndicesAreSpellings(name);
    FirstDigitOfShown(name, 9, []);
    assert Show(name, 9) + [] == name + "9";
  }

  /** calculate_note_value: the name's pitch class plus twelve per octave;
      KeyError for a name the table lacks. */
  function NoteValue(name: string, octave: int): (r: Outcome<int>)
    ensures r.Ok? <==> NoteIndices(name).Some?
    ensures r.Raise? ==> r.error == KeyError
    ensures r.Ok? && IsOctave(octave) ==> 0 <= r.value < 108 && r.value % 12 == NoteIndices(name).value && r.value / 12 == octave
  {
    match NoteIndices(name)
      case Some(index) => NoteIndicesAreSpellings(name); Ok(index + octave * 12)
      case None => Raise(KeyError)
  }

  /** create_note: a Note for a valid token, ValueError carrying the token otherwise. */
  function CreateNote(s: string): (r: Outcome<Note>)
    ensures r.Raise? <==> ParseNote(s).Invalid?
    ensures r.Raise? ==> r.error == ValueError(s)
    ensures r.Ok? ==> ParseNote(s) == Parsed(r.value.name, r.value.octave) && WellFormed(r.value)
  {
    match ParseNote(s)
      case Invalid => Raise(ValueError(s))
      case Parsed(name, octave) =>
        var value := NoteValue(name, octave).value;
        Ok(Note(name, octave, value, NoteIndices(name).value))
  }

  /** A note as create_note builds it: a spelling, an octave 0-8, its pitch class,
      and the value that pitch class and octave give. */
  predicate WellFormed(n: Note)
  {
    NoteIndices(n.name).Some? && IsOctave(n.octave)
    && n.index == NoteIndices(n.name).value && 0 <= n.index < 12
    && n.value == n.index + 12 * n.octave
  }

  /** Printing a created note and creating a note from the text gives the note back. */
  lemma CreateShowRoundTrip(s: string)
    requires CreateNote(s).Ok?
    ensures CreateNote(Show(CreateNote(s).value.name, CreateNote(s).value.octave)) == CreateNote(s)
  {
    var n := CreateNote(s).value;
    ParseShown(n.name, n.octave, []);
    assert Show(n.name, n.octave) + [] == Show(n.name, n.octave);
  }

  /** A note's value determines its pitch class and octave. */
  lemma ValueDeterminesNote(a: Note, b: Note)
    requires WellFormed(a) && WellFormed(b) && a.value == b.value
    ensures a.index == b.index && a.octave == b.octave
  {
  }

  /** Enharmonic spellings share a pitch class: B#, C and Dbb are all 0. */
  lemma EnharmonicSpellings()
    ensures CreateNote("B#4").Ok? && CreateNote("C4").Ok? && CreateNote("Dbb4").Ok?
    ensures CreateNote("B#4").value.index == CreateNote("C4").value.index == CreateNote("Dbb4").value.index == 0
    ensures CreateNote("B#4").value.value == CreateNote("C4").value.value == 48
  {
    ParseShown("B#", 4, []);
    ParseShown("C", 4, []);
    ParseShown("Dbb", 4, []);
    assert Show("B#", 4) + [] == "B#4" && Show("C", 4) + [] == "C4" && Show("Dbb", 4) + [] == "Dbb4";
  }

  /** get_interval: without use_octave the pitch-class distance up to the other
      note, with it the semitone distance either way. */
  function Interval(a: Note, b: Note, useOctave: bool): (r: int)
    ensures r >= 0
    ensures !useOctave ==> r < 12 && (r - (b.index - a.index)) % 12 == 0
  {
    if useOctave then (if b.value >= a.value then b.value - a.value else a.value - b.value)
    else (b.index - a.index) % 12
  }

  /** The positions of the notes at a pitch-class distance above a root, ascending. */
  function IntervalIndices(notes: seq<Note>, root: Note, interval: int): (r: seq<int>)
    ensures forall k :: 0 <= k < |r| ==> 0 <= r[k] < |notes| && Interval(root, notes[r[k]], false) == interval
    ensures forall i :: 0 <= i < |notes| && Interval(root, notes[i], false) == interval ==> i in r
    ensures forall k, m :: 0 <= k < m < |r| ==> r[k] < r[m]
  {
    if notes == [] then []
    else
      var init := IntervalIndices(notes[..|notes| - 1], root, interval);
      if Interval(root, notes[|notes| - 1], false) == interval then init + [|notes| - 1] else init
  }

  /** A note is at distance 0 from itself, and the semitone distance is symmetric. */
  lemma IntervalToSelf(a: Note, b: Note)
    ensures Interval(a, a, false) == 0 && Interval(a, a, true) == 0
    ensures Interval(a, b, true) == Interval(b, a, true)
  {
  }

  /** The pitch-class distances there and back make up whole octaves. */
  lemma IntervalThereAndBack(a: Note, b: Note)
    ensures (Interval(a, b, false) + Interval(b, a, false)) % 12 == 0
    ensures a.index % 12 != b.index % 12 ==> Interval(a, b, false) + Interval(b, a, false) == 12
  {
    var x, y := Interval(a, b, false), Interval(b, a, false);
    assert (x - (b.index - a.index)) % 12 == 0 && (y - (a.index - b.index)) % 12 == 0;
    ModSum(x - (b.index - a.index), y - (a.index - b.index));
  }

  lemma ModSum(p: int, q: int)
    requires p % 12 == 0 && q % 12 == 0
    ensures (p + q) % 12 == 0
  {
    var m, n := p / 12, q / 12;
    assert p == 12 * m && q == 12 * n;
    assert p + q == 12 * (m + n);
  }

  /** Between created notes, the pitch-class distance is the semitone distance up, reduced mod 12. */
  lemma IntervalFromValues(a: Note, b: Note)
    requires WellFormed(a) && WellFormed(b)
    ensures Interval(a, b, false) == (b.value - a.value) % 12
  {
    ModShift(b.index - a.index, b.octave - a.octave);
  }

  lemma ModShift(x: int, k: int)
    ensures (x + 12 * k) % 12 == x % 12
  {
    var q, r := x / 12, x % 12;
    assert x + 12 * k == 12 * (q + k) + r;
    ModUnique(x + 12 * k, q + k, r);
  }

  lemma ModUnique(n: int, q: int, r: int)
    requires 0 <= r < 12 && n == 12 * q + r
    ensures n % 12 == r
  {
  }
}
