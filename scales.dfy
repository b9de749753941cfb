// What the three music_info modules do once a key's scale row has been looked
// up: find a note's degree, build the plain numeral for a chord root with its
// accidental prefix, and compute the accidental a note needs in the key. The
// three modules share this logic word for word and differ only in their
// tables, which live in FlaskTheory, CliTheory and LegacyTheory.
module Scales {
  import opened Py
  import opened Spelling

  /** NUMERAL_STRINGS. */
  const NumeralStrings: seq<string> := ["I", "II", "III", "IV", "V", "VI", "VII"]

  /** ACCIDENTAL_STRINGS, in order of the shift they denote (-2 .. +2). */
  const AccidentalStrings: seq<string> := ["bb", "b", "n", "#", "x"]

  /** INVERSION_TRIAD_STRINGS and INVERSION_SEVENTH_STRINGS, by position. */
  const InversionTriadStrings: seq<string> := ["", "6", "6/4"]
  const InversionSeventhStrings: seq<string> := ["7", "6/5", "4/3", "4/2"]

  /** Semitones above the tonic of each degree of a major and of a natural minor scale. */
  const MajorSteps: seq<int> := [0, 2, 4, 5, 7, 9, 11]
  const MinorSteps: seq<int> := [0, 2, 3, 5, 7, 8, 10]

  const Letters: string := "CDEFGAB"

  /** Where a letter comes in C D E F G A B, or -1 for any other character. */
  function LetterPosition(c: char): (r: int)
    ensures -1 <= r < 7
    ensures r >= 0 <==> c in Letters
    ensures r >= 0 ==> Letters[r] == c
  {
    match c
      case 'C' => 0
      case 'D' => 1
      case 'E' => 2
      case 'F' => 3
      case 'G' => 4
      case 'A' => 5
      case 'B' => 6
      case _ => -1
  }

  /** The relation of a chord to a key, as the tables' string labels. */
  datatype Relation = Diatonic | Mixture | Chromatic | Applied | Other

  /** A scale row as the tables hold one: seven spelled notes. */
  predicate ValidRow(notes: seq<string>)
  {
    |notes| == 7 && forall k :: 0 <= k < 7 ==> NoteIndex(notes[k]).Some?
  }

  /** No two degrees of the row share a letter. */
  predicate OneLetterEach(notes: seq<string>)
  {
    forall i, j :: 0 <= i < j < |notes| && |notes[i]| > 0 && |notes[j]| > 0 ==> notes[i][0] != notes[j][0]
  }

  lemma ValidRowSpelled(notes: seq<string>, k: nat)
    requires ValidRow(notes) && k < 7
    ensures IsSpelling(notes[k]) && |notes[k]| > 0
    ensures 0 <= NoteIndex(notes[k]).value < 12
  {
  }

  /** The row spells the scale on `tonic` with the given steps: tonic first, one
      letter per degree in alphabetical order, each degree the right distance above the tonic. */
  predicate SpellsScale(tonic: string, notes: seq<string>, steps: seq<int>)
    requires |steps| == 7
  {
    ValidRow(notes) && notes[0] == tonic && |tonic| > 0 && tonic[0] in Letters
    && forall i :: 0 <= i < 7 ==> DegreeSpelled(tonic, notes, steps, i)
  }

  /** Every entry of a key table spells the scale with the given steps on its tonic. */
  predicate RowsSpell(table: map<string, seq<string>>, steps: seq<int>)
    requires |steps| == 7
  {
    forall t :: t in table ==> SpellsScale(t, table[t], steps)
  }

  /** Degree i of the row has the i-th letter after the tonic's and lies steps[i] semitones above it. */
  predicate DegreeSpelled(tonic: string, notes: seq<string>, steps: seq<int>, i: nat)
    requires |steps| == 7 && ValidRow(notes) && |tonic| > 0 && i < 7
  {
    DegreeLettered(tonic, notes, i)
    && NoteIndex(tonic).Some?
    && (NoteIndex(notes[i]).value - NoteIndex(tonic).value) % 12 == steps[i]
  }

  /** Degree i of the row has the i-th letter after the tonic's. */
  predicate DegreeLettered(tonic: string, notes: seq<string>, i: nat)
    requires |notes| == 7 && |tonic| > 0 && i < 7
  {
    |notes[i]| > 0 && notes[i][0] == Letters[(LetterPosition(tonic[0]) + i) % 7]
  }

  /** `note` is a spelling with the letter i places after the tonic's, lying `step` semitones above it. */
  predicate NoteAbove(tonic: string, note: string, i: nat, step: int)
    requires |tonic| > 0
  {
    IsSpelling(note) && IsSpelling(tonic)
    && note[0] == Letters[(LetterPosition(tonic[0]) + i) % 7]
    && (NoteIndex(note).value - NoteIndex(tonic).value) % 12 == step
  }

  /** SpellsScale checked one note at a time, the form a table row is checked in. */
  lemma SpellsScaleByDegrees(tonic: string, steps: seq<int>, n1: string, n2: string, n3: string,
                             n4: string, n5: string, n6: string)
    requires |steps| == 7 && steps[0] == 0 && |tonic| > 0 && tonic[0] in Letters
    requires NoteAbove(tonic, tonic, 0, 0) && NoteAbove(tonic, n1, 1, steps[1])
    requires NoteAbove(tonic, n2, 2, steps[2]) && NoteAbove(tonic, n3, 3, steps[3])
    requires NoteAbove(tonic, n4, 4, steps[4]) && NoteAbove(tonic, n5, 5, steps[5])
    requires NoteAbove(tonic, n6, 6, steps[6])
    ensures SpellsScale(tonic, [tonic, n1, n2, n3, n4, n5, n6], steps)
  {
    var notes := [tonic, n1, n2, n3, n4, n5, n6];
    forall i | 0 <= i < 7
      ensures DegreeSpelled(tonic, notes, steps, i)
    {
      assert NoteAbove(tonic, notes[i], i, steps[i]) by {
        assert i in {0, 1, 2, 3, 4, 5, 6};
      }
    }
  }

  /** The letter a scale row holds at degree i. */
  lemma DegreeLetter(tonic: string, notes: seq<string>, steps: seq<int>, i: nat)
    requires |steps| == 7 && SpellsScale(tonic, notes, steps) && i < 7
    ensures 0 <= LetterPosition(tonic[0]) < 7
    ensures DegreeLettered(tonic, notes, i)
  {
    assert DegreeSpelled(tonic, notes, steps, i);
  }

  /** Degree i of a row that spells a scale lies steps[i] semitones above the tonic. */
  lemma DegreeStep(tonic: string, notes: seq<string>, steps: seq<int>, i: nat)
    requires |steps| == 7 && SpellsScale(tonic, notes, steps) && i < 7
    ensures NoteIndex(tonic).Some? && NoteIndex(notes[i]).Some?
    ensures (NoteIndex(notes[i]).value - NoteIndex(tonic).value) % 12 == steps[i]
  {
    assert DegreeSpelled(tonic, notes, steps, i);
  }

  lemma LettersDistinct(x: nat, y: nat)
    requires x < 7 && y < 7 && x != y
    ensures Letters[x] != Letters[y]
  {
    assert x in {0, 1, 2, 3, 4, 5, 6} && y in {0, 1, 2, 3, 4, 5, 6};
  }

  lemma ModSeven(a: int)
    requires 0 <= a < 14
    ensures a % 7 == if a < 7 then a else a - 7
  {
  }

  /** In a row that spells a scale the seven degrees carry seven different letters. */
  lemma ScaleLettersDistinct(tonic: string, notes: seq<string>, steps: seq<int>)
    requires |steps| == 7 && SpellsScale(tonic, notes, steps)
    ensures OneLetterEach(notes)
    ensures forall i, j :: 0 <= i < j < 7 ==> notes[i] != notes[j]
  {
    var t := LetterPosition(tonic[0]);
    forall i, j | 0 <= i < j < |notes|
      ensures notes[i][0] != notes[j][0]
    {
      DegreeLetter(tonic, notes, steps, i);
      DegreeLetter(tonic, notes, steps, j);
      ModSeven(t + i);
      ModSeven(t + j);
      LettersDistinct((t + i) % 7, (t + j) % 7);
    }
  }

  /** Every letter names some degree of a row that spells a scale. */
  lemma ScaleHasEveryLetter(tonic: string, notes: seq<string>, steps: seq<int>, c: char)
    requires |steps| == 7 && SpellsScale(tonic, notes, steps) && c in Letters
    ensures FirstWithLetter(notes, c) >= 0
  {
    var t := LetterPosition(tonic[0]);
    DegreeLetter(tonic, notes, steps, 0);
    var m := LetterPosition(c);
    var i := if m >= t then m - t else m - t + 7;
    DegreeLetter(tonic, notes, steps, i);
    ModSeven(t + i);
    assert HasLetter(notes[i], c);
  }

  /** A degree's own spelling is found at that degree. */
  lemma ScaleNoteDegree(tonic: string, notes: seq<string>, steps: seq<int>, d: nat)
    requires |steps| == 7 && SpellsScale(tonic, notes, steps) && d < 7
    ensures DegreeIn(notes, notes[d]) == d
  {
    ScaleLettersDistinct(tonic, notes, steps);
  }

  /** The relation of a stripped numeral, given a key's diatonic and mixture numerals:
      diatonic first, then mixture, anything else chromatic. */
  function RelationIn(diatonic: seq<string>, mixture: seq<string>, stripped: string): (r: Relation)
    ensures r == Diatonic <==> stripped in diatonic
    ensures r == Mixture <==> stripped !in diatonic && stripped in mixture
    ensures r == Chromatic <==> stripped !in diatonic && stripped !in mixture
  {
    if stripped in diatonic then Diatonic
    else if stripped in mixture then Mixture
    else Chromatic
  }

  // ---------------------------------------------------------------------
  // Degree of a note (get_note_degree_in_key)

  /** The first degree (0-based) at which `name` is spelled in the row, or -1. */
  function DegreeIn(notes: seq<string>, name: string): (d: int)
    ensures -1 <= d < |notes|
    ensures d == -1 <==> name !in notes
    ensures d >= 0 ==> notes[d] == name && name !in notes[..d]
  {
    if notes == [] then -1
    else if notes[0] == name then 0
    else
      var d := DegreeIn(notes[1..], name);
      assert notes[1..] == notes[1..|notes|];
      if d == -1 then -1 else (assert notes[..d + 1] == [notes[0]] + notes[1..][..d]; d + 1)
  }

  /** The search loop of get_note_degree_in_key. */
  method FindDegree(notes: seq<string>, name: string) returns (d: int)
    ensures d == DegreeIn(notes, name)
  {
    var i := 0;
    while i < |notes|
      invariant 0 <= i <= |notes|
      invariant name !in notes[..i]
    {
      if notes[i] == name {
        return i;
      }
      assert notes[..i + 1] == notes[..i] + [notes[i]];
      i := i + 1;
    }
    assert notes[..i] == notes;
    return -1;
  }

  // ---------------------------------------------------------------------
  // Searching a row by letter

  predicate HasLetter(note: string, c: char) { |note| > 0 && note[0] == c }

  /** The first degree whose spelling starts with letter c, or -1. */
  function FirstWithLetter(notes: seq<string>, c: char): (k: int)
    ensures -1 <= k < |notes|
    ensures k >= 0 ==> HasLetter(notes[k], c)
    ensures k >= 0 ==> forall j :: 0 <= j < k ==> !HasLetter(notes[j], c)
    ensures k == -1 ==> forall j :: 0 <= j < |notes| ==> !HasLetter(notes[j], c)
  {
    if notes == [] then -1
    else if HasLetter(notes[0], c) then 0
    else
      var k := FirstWithLetter(notes[1..], c);
      if k == -1 then -1 else k + 1
  }

  /** The last degree whose spelling starts with letter c, or -1. */
  function LastWithLetter(notes: seq<string>, c: char): (k: int)
    ensures -1 <= k < |notes|
    ensures k >= 0 ==> HasLetter(notes[k], c)
    ensures k >= 0 ==> forall j :: k < j < |notes| ==> !HasLetter(notes[j], c)
    ensures k == -1 ==> forall j :: 0 <= j < |notes| ==> !HasLetter(notes[j], c)
  {
    if notes == [] then -1
    else if HasLetter(notes[|notes| - 1], c) then |notes| - 1
    else LastWithLetter(notes[..|notes| - 1], c)
  }

  /** When no letter repeats, the first and the last search agree. */
  lemma LetterSearchesAgree(notes: seq<string>, c: char)
    requires OneLetterEach(notes)
    ensures FirstWithLetter(notes, c) == LastWithLetter(notes, c)
  {
  }

  // ---------------------------------------------------------------------
  // Numeral of a chord root (steps 1-2 of identify_chord_numeral_for_key)

  /** The accidental prefix as the code chooses it: it compares the root's value
      with the same-letter scale note's value directly, without reducing mod 12. */
  function PrefixAsWritten(chromatic: int, diatonic: int): string
  {
    if chromatic == diatonic + 1 then "#"
    else if chromatic == diatonic + 2 then "x"
    else if chromatic == diatonic - 1 then "b"
    else "bb"
  }

  /** The accidental prefix computed on pitch classes, so that B# against B, or
      Cb against C, still counts as one semitone. */
  function Prefix(chromatic: int, diatonic: int): (p: string)
    ensures p == "#" <==> (chromatic - diatonic) % 12 == 1
    ensures p == "x" <==> (chromatic - diatonic) % 12 == 2
    ensures p == "b" <==> (chromatic - diatonic) % 12 == 11
    ensures p == "bb" <==> (chromatic - diatonic) % 12 !in {1, 2, 11}
  {
    var d := (chromatic - diatonic) % 12;
    if d == 1 then "#" else if d == 2 then "x" else if d == 11 then "b" else "bb"
  }

  /** Off the 0/11 boundary the two prefixes agree. */
  lemma PrefixAgrees(chromatic: int, diatonic: int)
    requires 0 <= chromatic < 12 && 0 <= diatonic < 12
    requires (chromatic != 0 && chromatic != 1 && chromatic != 10) || diatonic < 10
    requires diatonic != 0 || chromatic < 10
    ensures PrefixAsWritten(chromatic, diatonic) == Prefix(chromatic, diatonic)
  {
  }

  /** B# (0) against the B (11) of C major: the written comparison misses the raised note. */
  lemma PrefixWrapCounterexample()
    ensures PrefixAsWritten(0, 11) == "bb"
    ensures Prefix(0, 11) == "#"
  {
  }

  /** Which prefix rule a numeral is built with. */
  datatype PrefixRule = AsWrittenRule | PitchClassRule

  function PrefixBy(rule: PrefixRule, chromatic: int, diatonic: int): string
  {
    match rule
      case AsWrittenRule => PrefixAsWritten(chromatic, diatonic)
      case PitchClassRule => Prefix(chromatic, diatonic)
  }

  /** The numeral before any quality or inversion decoration: the degree's
      numeral when the root is in the row, otherwise the numeral of the
      same-letter degree behind an accidental prefix (degree I and value 0 when
      no degree has that letter). KeyError for a root that is not a spelling. */
  function NumeralBaseBy(rule: PrefixRule, notes: seq<string>, root: string): (r: Outcome<string>)
    requires ValidRow(notes)
  {
    if root in notes then Ok(NumeralStrings[DegreeIn(notes, root)])
    else if NoteIndex(root).None? then Raise(KeyError)
    else
      var k := FirstWithLetter(notes, root[0]);
      var degree := if k < 0 then 0 else k;
      var value := if k < 0 then 0 else NoteIndex(notes[k]).value;
      Ok(PrefixBy(rule, NoteIndex(root).value, value) + NumeralStrings[degree])
  }

  /** The numeral base the rest of the model uses: the pitch-class prefix. */
  function NumeralBase(notes: seq<string>, root: string): (r: Outcome<string>)
    requires ValidRow(notes)
    ensures r.Raise? <==> root !in notes && NoteIndex(root).None?
    ensures r.Raise? ==> r.error == KeyError
    ensures root in notes ==> r == Ok(NumeralStrings[DegreeIn(notes, root)])
  {
    NumeralBaseBy(PitchClassRule, notes, root)
  }

  /** The characters a numeral base can hold: an accidental prefix and a roman numeral, in either case. */
  predicate NumeralChars(s: string)
  {
    forall k :: 0 <= k < |s| ==> s[k] in "#xbIViv"
  }

  lemma NumeralCharsConcat(a: string, b: string)
    requires NumeralChars(a) && NumeralChars(b)
    ensures NumeralChars(a + b)
  {
    forall k | 0 <= k < |a + b|
      ensures (a + b)[k] in "#xbIViv"
    {
      if k < |a| { assert (a + b)[k] == a[k]; } else { assert (a + b)[k] == b[k - |a|]; }
    }
  }

  lemma NumeralStringChars(d: nat)
    requires d < 7
    ensures NumeralChars(NumeralStrings[d])
  {
    assert d in {0, 1, 2, 3, 4, 5, 6};
  }

  /** A numeral base is made of prefix and roman-numeral characters only. */
  lemma NumeralBaseChars(notes: seq<string>, root: string)
    requires ValidRow(notes) && NumeralBase(notes, root).Ok?
    ensures NumeralChars(NumeralBase(notes, root).value)
  {
    if root in notes {
      NumeralStringChars(DegreeIn(notes, root));
    } else {
      var k := FirstWithLetter(notes, root[0]);
      var degree := if k < 0 then 0 else k;
      var value := if k < 0 then 0 else NoteIndex(notes[k]).value;
      var p := Prefix(NoteIndex(root).value, value);
      assert p == "#" || p == "x" || p == "b" || p == "bb";
      assert NumeralChars(p);
      NumeralStringChars(degree);
      NumeralCharsConcat(p, NumeralStrings[degree]);
    }
  }

  /** A character outside the numeral alphabet does not occur in a numeral base. */
  lemma NumeralLacks(s: string, c: char)
    requires NumeralChars(s) && c !in "#xbIViv"
    ensures c !in s
  {
    forall k | 0 <= k < |s|
      ensures s[k] != c
    {
      assert s[k] in "#xbIViv";
    }
  }

  /** The lower-case forms of the seven numerals. */
  lemma LowerNumerals()
    ensures Lower("I") == "i" && Lower("II") == "ii" && Lower("III") == "iii" && Lower("IV") == "iv"
    ensures Lower("V") == "v" && Lower("VI") == "vi" && Lower("VII") == "vii"
  {
  }

  /** Lower-casing keeps a numeral base a numeral base. */
  lemma LowerNumeralChars(s: string)
    requires NumeralChars(s)
    ensures NumeralChars(Lower(s))
  {
    forall k | 0 <= k < |s|
      ensures Lower(s)[k] in "#xbIViv"
    {
      assert s[k] in "#xbIViv";
    }
  }

  /** The letter search of identify_chord_numeral_for_key (a loop with break). */
  method FindNumeralBase(notes: seq<string>, root: string) returns (r: Outcome<string>)
    requires ValidRow(notes)
    ensures r == NumeralBase(notes, root)
  {
    if root in notes {
      var d := FindDegree(notes, root);
      return Ok(NumeralStrings[d]);
    }
    var chromatic := NoteIndex(root);
    if chromatic.None? {
      return Raise(KeyError);
    }
    var degree, value := 0, 0;
    var i := 0;
    while i < |notes|
      invariant 0 <= i <= |notes|
      invariant forall j :: 0 <= j < i ==> !HasLetter(notes[j], root[0])
      invariant degree == 0 && value == 0
    {
      if root[0] == notes[i][0] {
        degree, value := i, NoteIndex(notes[i]).value;
        break;
      }
      i := i + 1;
    }
    return Ok(Prefix(chromatic.value, value) + NumeralStrings[degree]);
  }

  // ---------------------------------------------------------------------
  // Accidental of a note in a key (get_note_accidental_in_key)

  /** Where the sign of a scale note sits in AccidentalStrings, read off its spelling
      by substring tests in the order 'bb', 'b', '#', 'x'. */
  function AccidentalIndexOf(name: string): int
  {
    if Contains(name, "bb") then 0
    else if Contains(name, "b") then 1
    else if Contains(name, "#") then 3
    else if Contains(name, "x") then 4
    else 2
  }

  /** For a spelling, that index is the accidental's shift plus two. */
  lemma AccidentalIndexOfSpelling(name: string)
    requires IsSpelling(name)
    ensures AccidentalIndexOf(name) == AccidentalShift(name).value + 2
  {
    var l := name[0];
    assert l != 'b' && l != '#' && l != 'x';
    if |name| == 1 {
      assert name == [l];
      NotContainsChar(name, "bb", 0);
      NotContainsChar(name, "b", 0);
      NotContainsChar(name, "#", 0);
      NotContainsChar(name, "x", 0);
    } else if |name| == 3 {
      assert Contains(name, "bb") by { ContainsAt(name, "bb", 1); }
    } else {
      var a := name[1];
      assert name == [l, a];
      if a == 'b' {
        assert !Contains(name, "bb") by { NotContainsSameLength(name, "bb"); }
        assert Contains(name, "b") by { ContainsAt(name, "b", 1); }
      } else if a == '#' {
        NotContainsChar(name, "bb", 0);
        NotContainsChar(name, "b", 0);
        assert Contains(name, "#") by { ContainsAt(name, "#", 1); }
      } else {
        NotContainsChar(name, "bb", 0);
        NotContainsChar(name, "b", 0);
        NotContainsChar(name, "#", 0);
        assert Contains(name, "x") by { ContainsAt(name, "x", 1); }
      }
    }
  }

  lemma {:induction false} NotContainsShorter(s: string, sub: string)
    requires |s| < |sub|
    ensures !Contains(s, sub)
  {
    if |s| > 0 { NotContainsShorter(s[1..], sub); }
  }

  lemma NotContainsSameLength(s: string, sub: string)
    requires |s| == |sub| && s != sub
    ensures !Contains(s, sub)
  {
    if |s| > 0 { NotContainsShorter(s[1..], sub); }
  }

  /** The last part of get_note_accidental_in_key: the sign to print for a
      note `search` against the scale note with the same letter. */
  function ShiftAccidental(acc: int, keyValue: int, searchValue: int): Outcome<string>
  {
    if searchValue == keyValue + 2 || searchValue == keyValue - 10 then Index(AccidentalStrings, acc + 2)
    else if searchValue == keyValue + 1 || searchValue == keyValue - 11 then Index(AccidentalStrings, acc + 1)
    else if searchValue == keyValue - 1 || searchValue == keyValue + 11 then Index(AccidentalStrings, acc - 1)
    else if searchValue == keyValue - 2 || searchValue == keyValue + 10 then Index(AccidentalStrings, acc - 2)
    else Ok("")
  }

  /** get_note_accidental_in_key once the row is known. The loop keeps the LAST
      degree with the search note's letter; an empty name fails on `[0]`, a
      letter the row lacks leaves the loop's locals unbound, and a name that
      is not a spelling fails the table lookup. */
  function AccidentalIn(notes: seq<string>, search: string): (r: Outcome<string>)
    requires ValidRow(notes)
  {
    if |search| == 0 then Raise(IndexError)
    else
      var k := LastWithLetter(notes, search[0]);
      if k < 0 then Raise(UnboundLocalError)
      else if NoteIndex(search).None? then Raise(KeyError)
      else ShiftAccidental(AccidentalIndexOf(notes[k]), NoteIndex(notes[k]).value, NoteIndex(search).value)
  }

  /** The search loop of get_note_accidental_in_key (no break: the last match wins). */
  method FindAccidental(notes: seq<string>, search: string) returns (r: Outcome<string>)
    requires ValidRow(notes)
    ensures r == AccidentalIn(notes, search)
  {
    if |search| == 0 {
      return Raise(IndexError);
    }
    var found := -1;
    var i := 0;
    while i < |notes|
      invariant 0 <= i <= |notes|
      invariant found == LastWithLetter(notes[..i], search[0])
      invariant found >= 0 ==> NoteIndex(search).Some?
    {
      ValidRowSpelled(notes, i);
      assert notes[..i + 1][..i] == notes[..i];
      if notes[i][0] == search[0] {
        if NoteIndex(search).None? {
          return Raise(KeyError);
        }
        found := i;
      }
      i := i + 1;
    }
    assert notes[..i] == notes;
    if found < 0 {
      return Raise(UnboundLocalError);
    }
    r := ShiftAccidental(AccidentalIndexOf(notes[found]), NoteIndex(notes[found]).value, NoteIndex(search).value);
  }

  /** A note with the same value as its same-letter scale note needs no sign. */
  lemma AccidentalOfScaleValue(notes: seq<string>, search: string)
    requires ValidRow(notes) && |search| > 0 && NoteIndex(search).Some?
    requires LastWithLetter(notes, search[0]) >= 0
    requires NoteIndex(notes[LastWithLetter(notes, search[0])]) == NoteIndex(search)
    ensures AccidentalIn(notes, search) == Ok("")
  {
  }

  /** Against a same-letter scale note at most two accidental steps away, the
      printed sign is the search note's own accidental ('n' for a natural). */
  lemma AccidentalIsOwnSign(notes: seq<string>, search: string)
    requires ValidRow(notes) && IsSpelling(search)
    requires LastWithLetter(notes, search[0]) >= 0
    requires NoteIndex(notes[LastWithLetter(notes, search[0])]) != NoteIndex(search)
    requires IsSpelling(notes[LastWithLetter(notes, search[0])])
    requires -2 <= AccidentalShift(search).value - AccidentalShift(notes[LastWithLetter(notes, search[0])]).value <= 2
    ensures AccidentalIn(notes, search) == Ok(AccidentalStrings[AccidentalShift(search).value + 2])
  {
    var k := LastWithLetter(notes, search[0]);
    var key := notes[k];
    ValidRowSpelled(notes, k);
    AccidentalIndexOfSpelling(key);
    assert key[0] == search[0];
    var base := LetterValue(search[0]).value;
    var so, ko := AccidentalShift(search).value, AccidentalShift(key).value;
    var sv, kv := (base + so) % 12, (base + ko) % 12;
    assert NoteIndex(search).value == sv && NoteIndex(key).value == kv;
    assert 0 <= base < 12 && -2 <= so <= 2 && -2 <= ko <= 2;
    assert so != ko;
    ShiftCases(base, so, ko);
  }

  lemma ShiftCases(base: int, so: int, ko: int)
    requires 0 <= base < 12 && -2 <= so <= 2 && -2 <= ko <= 2 && so != ko && -2 <= so - ko <= 2
    ensures ShiftAccidental(ko + 2, (base + ko) % 12, (base + so) % 12) == Ok(AccidentalStrings[so + 2])
  {
    var sv, kv := (base + so) % 12, (base + ko) % 12;
    var d := so - ko;
    assert (sv - kv) % 12 == (d + 12) % 12;
    if d == 2 { assert sv == kv + 2 || sv == kv - 10; }
    else if d == 1 { assert sv == kv + 1 || sv == kv - 11; }
    else if d == -1 { assert sv == kv - 1 || sv == kv + 11; }
    else { assert d == -2; assert sv == kv - 2 || sv == kv + 10; }
  }
}
