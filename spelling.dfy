// The 35 note spellings the engine accepts and their pitch classes
// (C = 0 ... B = 11). The same table appears as NOTE_INDICES in each of the
// three music_info modules. The model looks a name up through NoteIndex, which
// reads the letter and the accidental; NoteIndicesAreSpellings shows that it
// agrees with the table entry by entry.
module Spelling {
  import opened Py

  /** NOTE_INDICES: the pitch class of each of the 35 spellings, None for any other string. */
  function NoteIndices(name: string): Option<int>
  {
    match name
      case "B#" => Some(0)
      case "C" => Some(0)
      case "Dbb" => Some(0)
      case "Bx" => Some(1)
      case "C#" => Some(1)
      case "Db" => Some(1)
      case "Cx" => Some(2)
      case "D" => Some(2)
      case "Ebb" => Some(2)
      case "D#" => Some(3)
      case "Eb" => Some(3)
      case "Fbb" => Some(3)
      case "Dx" => Some(4)
      case "E" => Some(4)
      case "Fb" => Some(4)
      case "E#" => Some(5)
      case "F" => Some(5)
      case "Gbb" => Some(5)
      case "Ex" => Some(6)
      case "F#" => Some(6)
      case "Gb" => Some(6)
      case "Fx" => Some(7)
      case "G" => Some(7)
      case "Abb" => Some(7)
      case "G#" => Some(8)
      case "Ab" => Some(8)
      case "Gx" => Some(9)
      case "A" => Some(9)
      case "Bbb" => Some(9)
      case "A#" => Some(10)
      case "Bb" => Some(10)
      case "Cbb" => Some(10)
      case "Ax" => Some(11)
      case "B" => Some(11)
      case "Cb" => Some(11)
      case _ => None
  }

  /** The pitch class of a natural letter. */
  function LetterValue(c: char): Option<int>
  {
    match c
      case 'C' => Some(0)
      case 'D' => Some(2)
      case 'E' => Some(4)
      case 'F' => Some(5)
      case 'G' => Some(7)
      case 'A' => Some(9)
      case 'B' => Some(11)
      case _ => None
  }

  /** The semitone shift of what follows the letter: nothing, 'b', 'bb', '#' or 'x'. */
  function AccidentalShift(name: string): (r: Option<int>)
    requires |name| > 0
    ensures r.Some? ==> -2 <= r.value <= 2
  {
    if |name| == 1 then Some(0)
    else if |name| == 2 then
      (if name[1] == 'b' then Some(-1)
       else if name[1] == '#' then Some(1)
       else if name[1] == 'x' then Some(2)
       else None)
    else if |name| == 3 && name[1] == 'b' && name[2] == 'b' then Some(-2)
    else None
  }

  /** A letter A-G followed by at most a double accidental. */
  predicate IsSpelling(name: string)
  {
    |name| >= 1 && LetterValue(name[0]).Some? && AccidentalShift(name).Some?
  }

  /** The pitch class a name spells: its letter moved by its accidental, mod 12;
      None for a string that is not a spelling. */
  function NoteIndex(name: string): (r: Option<int>)
    ensures r.Some? <==> IsSpelling(name)
    ensures r.Some? ==> 0 <= r.value < 12
  {
    if IsSpelling(name) then Some((LetterValue(name[0]).value + AccidentalShift(name).value) % 12) else None
  }

  /** NOTE_INDICES holds exactly the 35 letter-plus-accidental spellings, each at the value it spells. */
  lemma NoteIndicesAreSpellings(name: string)
    ensures NoteIndices(name) == NoteIndex(name)
  {
    if IsSpelling(name) {
      SpellingInTable(name);
    } else if NoteIndices(name).Some? {
      TableEntriesAreSpellings(name);
    }
  }

  lemma TableEntriesAreSpellings(name: string)
    requires NoteIndices(name).Some?
    ensures IsSpelling(name)
  {
    match name
      case "B#" =>
      case "C" =>
      case "Dbb" =>
      case "Bx" =>
      case "C#" =>
      case "Db" =>
      case "Cx" =>
      case "D" =>
      case "Ebb" =>
      case "D#" =>
      case "Eb" =>
      case "Fbb" =>
      case "Dx" =>
      case "E" =>
      case "Fb" =>
      case "E#" =>
      case "F" =>
      case "Gbb" =>
      case "Ex" =>
      case "F#" =>
      case "Gb" =>
      case "Fx" =>
      case "G" =>
      case "Abb" =>
      case "G#" =>
      case "Ab" =>
      case "Gx" =>
      case "A" =>
      case "Bbb" =>
      case "A#" =>
      case "Bb" =>
      case "Cbb" =>
      case "Ax" =>
      case "B" =>
      case "Cb" =>
  }

  lemma SpellingInTable(name: string)
    requires IsSpelling(name)
    ensures NoteIndices(name) == NoteIndex(name)
  {
    var l := name[0];
    if |name| == 1 {
      assert name == [l];
      NaturalInTable(l);
    } else if |name| == 2 {
      assert name == [l, name[1]];
      AlteredInTable(l, name[1]);
    } else {
      assert name == [l, 'b', 'b'];
      DoubleFlatInTable(l);
    }
  }

  lemma NaturalInTable(l: char)
    requires LetterValue(l).Some?
    ensures NoteIndices([l]) == NoteIndex([l])
  {
    if l == 'C' { assert [l] == "C"; }
    else if l == 'D' { assert [l] == "D"; }
    else if l == 'E' { assert [l] == "E"; }
    else if l == 'F' { assert [l] == "F"; }
    else if l == 'G' { assert [l] == "G"; }
    else if l == 'A' { assert [l] == "A"; }
    else { assert [l] == "B"; }
  }

  lemma AlteredInTable(l: char, a: char)
    requires LetterValue(l).Some? && (a == 'b' || a == '#' || a == 'x')
    ensures NoteIndices([l, a]) == NoteIndex([l, a])
  {
    if l == 'C' {
      if a == 'b' { assert [l, a] == "Cb"; }
      else if a == '#' { assert [l, a] == "C#"; }
      else { assert [l, a] == "Cx"; }
    }
    else if l == 'D' {
      if a == 'b' { assert [l, a] == "Db"; }
      else if a == '#' { assert [l, a] == "D#"; }
      else { assert [l, a] == "Dx"; }
    }
    else if l == 'E' {
      if a == 'b' { assert [l, a] == "Eb"; }
      else if a == '#' { assert [l, a] == "E#"; }
      else { assert [l, a] == "Ex"; }
    }
    else if l == 'F' {
      if a == 'b' { assert [l, a] == "Fb"; }
      else if a == '#' { assert [l, a] == "F#"; }
      else { assert [l, a] == "Fx"; }
    }
    else if l == 'G' {
      if a == 'b' { assert [l, a] == "Gb"; }
      else if a == '#' { assert [l, a] == "G#"; }
      else { assert [l, a] == "Gx"; }
    }
    else if l == 'A' {
      if a == 'b' { assert [l, a] == "Ab"; }
      else if a == '#' { assert [l, a] == "A#"; }
      else { assert [l, a] == "Ax"; }
    }
    else {
      if a == 'b' { assert [l, a] == "Bb"; }
      else if a == '#' { assert [l, a] == "B#"; }
      else { assert [l, a] == "Bx"; }
    }
  }

  lemma DoubleFlatInTable(l: char)
    requires LetterValue(l).Some?
    ensures NoteIndices([l, 'b', 'b']) == NoteIndex([l, 'b', 'b'])
  {
    if l == 'C' { assert [l, 'b', 'b'] == "Cbb"; }
    else if l == 'D' { assert [l, 'b', 'b'] == "Dbb"; }
    else if l == 'E' { assert [l, 'b', 'b'] == "Ebb"; }
    else if l == 'F' { assert [l, 'b', 'b'] == "Fbb"; }
    else if l == 'G' { assert [l, 'b', 'b'] == "Gbb"; }
    else if l == 'A' { assert [l, 'b', 'b'] == "Abb"; }
    else { assert [l, 'b', 'b'] == "Bbb"; }
  }

  /** A letter and a pitch class fix the spelling: two different spellings on one
      letter are different notes. */
  lemma SameLetterDifferentValue(x: string, y: string)
    requires IsSpelling(x) && IsSpelling(y) && x[0] == y[0] && x != y
    ensures NoteIndex(x) != NoteIndex(y)
  {
    if AccidentalShift(x) == AccidentalShift(y) {
      SameShiftSameSpelling(x, y);
    }
  }

  lemma SameShiftSameSpelling(x: string, y: string)
    requires IsSpelling(x) && IsSpelling(y) && x[0] == y[0] && AccidentalShift(x) == AccidentalShift(y)
    ensures x == y
  {
    if |x| == 1 {
      assert x == [x[0]] && y == [y[0]];
    } else if |x| == 2 {
      assert x == [x[0], x[1]] && y == [y[0], y[1]];
    } else {
      assert x == [x[0], 'b', 'b'] && y == [y[0], 'b', 'b'];
    }
  }

  /** A spelling is made of a letter and accidental characters only. */
  lemma SpellingChars(name: string)
    requires IsSpelling(name)
    ensures forall k :: 0 <= k < |name| ==> name[k] in "ABCDEFGb#x"
  {
  }
}
