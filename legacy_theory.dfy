// The theory functions of the oldest version (Flask/api/musicInfo.py): its key
// rows, the relation of a numeral to a key (with 'applied' for any numeral
// holding a slash), notes by degree, a note's degree and accidental in a key,
// the roman numeral of a chord, the type of a named chord in a key, and the
// reading of a chord as an applied dominant. Its chord tables are the
// command-line version's; its ChordTypes enumeration is IntervalCodes.Quality.
module LegacyTheory {
  import opened Py
  import opened Spelling
  import opened IntervalCodes
  import opened Scales
  import FlaskTheory
  import CliTheory

  /** The diatonic numerals of a major and of a minor key; each list is the other mode's mixture list. */
  const MajorKeyNumerals: seq<string> := ["I", "ii", "iii", "IV", "V", "vi", "viio"]
  const MinorKeyNumerals: seq<string> := ["i", "iio", "III", "iv", "v", "VI", "VII"]

  /** The tonics this version's MAJOR_KEY_NOTES and MINOR_KEY_NOTES do not list. */
  const MissingMajorTonics: set<string> := {"D#", "G#", "A#"}
  const MissingMinorTonics: set<string> := {"Cb", "Db", "Gb", "A#"}

  /** MAJOR_KEY_NOTES as written: the F major row ends in Eb. */
  const MajorKeyNotesAsWritten: map<string, seq<string>> :=
    (FlaskTheory.MajorKeyNotes - MissingMajorTonics)["F" := ["F", "G", "A", "Bb", "C", "D", "Eb"]]

  /** MINOR_KEY_NOTES as written: Eb minor has Fb and C, G# minor has E#. */
  const MinorKeyNotesAsWritten: map<string, seq<string>> :=
    (FlaskTheory.MinorKeyNotes - MissingMinorTonics)
      ["Eb" := ["Eb", "Fb", "Gb", "Ab", "Bb", "C", "Db"]]
      ["G#" := ["G#", "A#", "B", "C#", "D#", "E#", "F#"]]

  /** The two tables with every row spelled as the scale on its tonic; the rest
      of this module uses these. */
  const MajorKeyNotes: map<string, seq<string>> := FlaskTheory.MajorKeyNotes - MissingMajorTonics
  const MinorKeyNotes: map<string, seq<string>> := FlaskTheory.MinorKeyNotes - MissingMinorTonics

  // ---------------------------------------------------------------------
  // Scale rows

  /** The row the functions of this file read: an upper-case key from the
      major table as given, any other key capitalised from the minor table;
      IndexError for an empty key, KeyError for a tonic the table lacks. */
  function NotesForKeyIn(major: map<string, seq<string>>, minor: map<string, seq<string>>, key: string)
    : (r: Outcome<seq<string>>)
    ensures key == [] ==> r == Raise(IndexError)
    ensures key != [] && IsUpper(key[0]) ==> (r.Ok? <==> key in major)
    ensures key != [] && !IsUpper(key[0]) ==> (r.Ok? <==> Capitalise(key) in minor)
    ensures key != [] && r.Raise? ==> r.error == KeyError
  {
    if key == [] then Raise(IndexError)
    else if IsUpper(key[0]) then
      if key in major then Ok(major[key]) else Raise(KeyError)
    else
      var tonic := Capitalise(key);
      if tonic in minor then Ok(minor[tonic]) else Raise(KeyError)
  }

  /** The row of a key in the spelled tables: where this version has the key,
      it is the web version's row, so it spells the key's scale. */
  function NotesForKey(key: string): (r: Outcome<seq<string>>)
    ensures key == [] ==> r == Raise(IndexError)
    ensures key != [] ==>
              (r.Ok? <==> Capitalise(key) in FlaskTheory.KeyNames
                          && Capitalise(key) !in (if IsUpper(key[0]) then MissingMajorTonics else MissingMinorTonics))
    ensures key != [] && r.Raise? ==> r.error == KeyError
    ensures r.Ok? ==> r == FlaskTheory.NotesForKey(key)
  {
    FlaskTheory.TablesKeyedByKeyNames();
    if key != [] && IsUpper(key[0]) then CapitaliseIdentity(key); NotesForKeyIn(MajorKeyNotes, MinorKeyNotes, key)
    else NotesForKeyIn(MajorKeyNotes, MinorKeyNotes, key)
  }

  /** A row found spells the scale of the key. */
  lemma NotesSpellScale(key: string)
    requires NotesForKey(key).Ok?
    ensures SpellsScale(Capitalise(key), NotesForKey(key).value, FlaskTheory.KeySteps(key))
  {
  }

  /** As written, three rows do not spell their scale: the seventh degree of F
      major, the sixth of Eb minor and the sixth of G# minor are a semitone off. */
  lemma RowsAsWrittenMisspelled()
    ensures NotesForKeyIn(MajorKeyNotesAsWritten, MinorKeyNotesAsWritten, "F") == Ok(["F", "G", "A", "Bb", "C", "D", "Eb"])
    ensures !SpellsScale("F", ["F", "G", "A", "Bb", "C", "D", "Eb"], MajorSteps)
    ensures NotesForKeyIn(MajorKeyNotesAsWritten, MinorKeyNotesAsWritten, "eb") == Ok(["Eb", "Fb", "Gb", "Ab", "Bb", "C", "Db"])
    ensures !SpellsScale("Eb", ["Eb", "Fb", "Gb", "Ab", "Bb", "C", "Db"], MinorSteps)
    ensures NotesForKeyIn(MajorKeyNotesAsWritten, MinorKeyNotesAsWritten, "g#") == Ok(["G#", "A#", "B", "C#", "D#", "E#", "F#"])
    ensures !SpellsScale("G#", ["G#", "A#", "B", "C#", "D#", "E#", "F#"], MinorSteps)
  {
    MisspelledF();
    MisspelledEFlat();
    MisspelledGSharp();
  }

  lemma MisspelledF()
    ensures NotesForKeyIn(MajorKeyNotesAsWritten, MinorKeyNotesAsWritten, "F") == Ok(["F", "G", "A", "Bb", "C", "D", "Eb"])
    ensures !SpellsScale("F", ["F", "G", "A", "Bb", "C", "D", "Eb"], MajorSteps)
  {
    var row := ["F", "G", "A", "Bb", "C", "D", "Eb"];
    if ValidRow(row) {
      assert NoteIndex("Eb") == Some(3) && NoteIndex("F") == Some(5);
      assert !DegreeSpelled("F", row, MajorSteps, 6);
    }
  }

  lemma MisspelledEFlat()
    ensures NotesForKeyIn(MajorKeyNotesAsWritten, MinorKeyNotesAsWritten, "eb") == Ok(["Eb", "Fb", "Gb", "Ab", "Bb", "C", "Db"])
    ensures !SpellsScale("Eb", ["Eb", "Fb", "Gb", "Ab", "Bb", "C", "Db"], MinorSteps)
  {
    var row := ["Eb", "Fb", "Gb", "Ab", "Bb", "C", "Db"];
    assert Capitalise("eb") == "Eb";
    if ValidRow(row) {
      assert NoteIndex("C") == Some(0) && NoteIndex("Eb") == Some(3);
      assert !DegreeSpelled("Eb", row, MinorSteps, 5);
    }
  }

  lemma MisspelledGSharp()
    ensures NotesForKeyIn(MajorKeyNotesAsWritten, MinorKeyNotesAsWritten, "g#") == Ok(["G#", "A#", "B", "C#", "D#", "E#", "F#"])
    ensures !SpellsScale("G#", ["G#", "A#", "B", "C#", "D#", "E#", "F#"], MinorSteps)
  {
    var row := ["G#", "A#", "B", "C#", "D#", "E#", "F#"];
    assert Capitalise("g#") == "G#";
    if ValidRow(row) {
      assert NoteIndex("E#") == Some(5) && NoteIndex("G#") == Some(8);
      assert !DegreeSpelled("G#", row, MinorSteps, 5);
    }
  }

  // ---------------------------------------------------------------------
  // Relation to a key (get_chord_relation_for_key)

  /** get_chord_relation_for_key as written: a numeral with a slash is applied;
      any other numeral indexes the numeral list with the key string, which
      fails with a TypeError (after an IndexError for an empty key). */
  function ChordRelationAsWritten(key: string, numeral: string): (r: Outcome<Relation>)
    ensures r.Ok? <==> Contains(numeral, "/")
    ensures r.Ok? ==> r.value == Applied
    ensures r.Raise? ==> r.error == (if key == [] then IndexError else TypeError)
  {
    if Contains(numeral, "/") then Ok(Applied)
    else if key == [] then Raise(IndexError)
    else Raise(TypeError)
  }

  /** get_chord_relation_for_key with the membership tests on the numeral lists:
      applied for a slash, else diatonic, mixture or chromatic. */
  function ChordRelation(key: string, numeral: string): (r: Outcome<Relation>)
    ensures Contains(numeral, "/") ==> r == Ok(Applied)
    ensures !Contains(numeral, "/") ==> (r.Raise? <==> key == [])
    ensures r.Raise? ==> r.error == IndexError
    ensures r.Ok? ==> r.value in {Applied, Diatonic, Mixture, Chromatic}
    ensures r.Ok? && r.value == Diatonic ==>
              numeral in (if IsUpper(key[0]) then MajorKeyNumerals else MinorKeyNumerals)
    ensures r.Ok? && r.value == Mixture ==>
              numeral in (if IsUpper(key[0]) then MinorKeyNumerals else MajorKeyNumerals)
  {
    if Contains(numeral, "/") then Ok(Applied)
    else if key == [] then Raise(IndexError)
    else if IsUpper(key[0]) then Ok(RelationIn(MajorKeyNumerals, MinorKeyNumerals, numeral))
    else Ok(RelationIn(MinorKeyNumerals, MajorKeyNumerals, numeral))
  }

  /** The two agree exactly on the numerals with a slash. */
  lemma RelationAsWrittenFailsWithoutSlash(key: string, numeral: string)
    requires key != [] && !Contains(numeral, "/")
    ensures ChordRelationAsWritten(key, numeral) == Raise(TypeError)
    ensures ChordRelation(key, numeral).Ok? && ChordRelation(key, numeral).value != Applied
  {
  }

  // ---------------------------------------------------------------------
  // Notes by degree (get_key_note_for_degree, get_leading_tone_in_key)

  /** get_key_note_for_degree: the note at 0-based degree `degree` (Python indexing). */
  function KeyNoteForDegree(key: string, degree: int): (r: Outcome<string>)
    ensures NotesForKey(key).Raise? ==> r == Raise(NotesForKey(key).error)
    ensures NotesForKey(key).Ok? ==> (r.Ok? <==> -7 <= degree < 7)
    ensures NotesForKey(key).Ok? && r.Raise? ==> r.error == IndexError
    ensures NotesForKey(key).Ok? && 0 <= degree < 7 ==> r == Ok(NotesForKey(key).value[degree])
  {
    var notes :- NotesForKey(key);
    Index(notes, degree)
  }

  /** Where both versions have the key, the 0-based degree here is the
      command-line version's degree. */
  lemma DegreeAgrees(key: string, degree: int)
    requires NotesForKey(key).Ok? && CliTheory.NotesForKey(key).Ok?
    ensures KeyNoteForDegree(key, degree) == CliTheory.KeyNoteForDegree(key, degree)
  {
  }

  /** get_leading_tone_in_key on a given major table: the seventh note of the
      row of the capitalised key. */
  function LeadingToneIn(major: map<string, seq<string>>, key: string): (r: Outcome<string>)
    ensures key == [] ==> r == Raise(IndexError)
    ensures key != [] ==> (r.Ok? <==> Capitalise(key) in major && |major[Capitalise(key)]| > 6)
    ensures key != [] && r.Ok? ==> r.value == major[Capitalise(key)][6]
  {
    if key == [] then Raise(IndexError)
    else
      var tonic := Capitalise(key);
      if tonic !in major then Raise(KeyError) else Index(major[tonic], 6)
  }

  /** get_leading_tone_in_key: for a major and a minor key alike, the seventh
      degree of the major scale on the tonic, as the web version names it. */
  function LeadingTone(key: string): (r: Outcome<string>)
    ensures key != [] ==> (r.Ok? <==> Capitalise(key) in FlaskTheory.KeyNames - MissingMajorTonics)
    ensures r.Ok? ==> r == FlaskTheory.LeadingTone(key)
  {
    LeadingToneMatches(key);
    LeadingToneIn(MajorKeyNotes, key)
  }

  lemma LeadingToneMatches(key: string)
    ensures key != [] ==>
              (LeadingToneIn(MajorKeyNotes, key).Ok? <==> Capitalise(key) in FlaskTheory.KeyNames - MissingMajorTonics)
    ensures LeadingToneIn(MajorKeyNotes, key).Ok? ==> LeadingToneIn(MajorKeyNotes, key) == FlaskTheory.LeadingTone(key)
  {
    FlaskTheory.TablesKeyedByKeyNames();
    FlaskTheory.MajorRowsSpell();
    if key != [] {
      var tonic := Capitalise(key);
      if tonic in MajorKeyNotes {
        FlaskTheory.KeyNamesCapitalised(tonic);
        CapitaliseIdentity(tonic);
        assert FlaskTheory.NotesForKey(tonic) == Ok(MajorKeyNotes[tonic]);
      }
    }
  }

  /** As written, F major's leading tone is Eb, a whole tone below the tonic;
      with the spelled row it is E, a semitone below. */
  lemma FLeadingToneAsWritten()
    ensures LeadingToneIn(MajorKeyNotesAsWritten, "F") == Ok("Eb")
    ensures LeadingTone("F") == Ok("E") && LeadingTone("f") == Ok("E")
    ensures (NoteIndex("Eb").value - NoteIndex("F").value) % 12 == 10
    ensures (NoteIndex("E").value - NoteIndex("F").value) % 12 == 11
  {
    assert Capitalise("f") == "F";
    assert MajorKeyNotes["F"] == ["F", "G", "A", "Bb", "C", "D", "E"];
  }

  // ---------------------------------------------------------------------
  // Degree and accidental of a note (get_note_degree_in_key, get_note_accidental_in_key)

  /** get_note_degree_in_key: the first 0-based degree at which the name is spelled, or -1. */
  function NoteDegree(name: string, key: string): (r: Outcome<int>)
    ensures NotesForKey(key).Raise? ==> r == Raise(NotesForKey(key).error)
    ensures NotesForKey(key).Ok? ==> r.Ok? && -1 <= r.value < 7
    ensures r.Ok? ==> (r.value == -1 <==> name !in NotesForKey(key).value)
    ensures r.Ok? && r.value >= 0 ==> NotesForKey(key).value[r.value] == name
  {
    var notes :- NotesForKey(key);
    Ok(DegreeIn(notes, name))
  }

  /** get_note_degree_in_key, with its search loop. */
  method NoteDegreeInKey(name: string, key: string) returns (r: Outcome<int>)
    ensures r == NoteDegree(name, key)
  {
    var notes := NotesForKey(key);
    if notes.Raise? {
      return Raise(notes.error);
    }
    var d := FindDegree(notes.value, name);
    return Ok(d);
  }

  /** get_note_accidental_in_key: the sign the note needs against the key
      signature; where this version has the key, the web version's answer. */
  function NoteAccidental(search: string, key: string): (r: Outcome<string>)
    ensures NotesForKey(key).Raise? ==> r == Raise(NotesForKey(key).error)
    ensures NotesForKey(key).Ok? ==> r == FlaskTheory.NoteAccidental(search, key)
  {
    var notes :- NotesForKey(key);
    AccidentalIn(notes, search)
  }

  /** get_note_accidental_in_key, with its search loop. */
  method NoteAccidentalInKey(search: string, key: string) returns (r: Outcome<string>)
    ensures r == NoteAccidental(search, key)
  {
    var notes := NotesForKey(key);
    if notes.Raise? {
      return Raise(notes.error);
    }
    r := FindAccidental(notes.value, search);
  }

  // ---------------------------------------------------------------------
  // Numerals (identify_chord_numeral_for_key)

  /** identify_chord_numeral_for_key(key, bass_note, quality, position,
      has_seventh, get_inversion): the base numeral of the bass note in the
      key's row, its case and quality mark, and, when asked for, the inversion
      figure chosen by has_seventh. A bass note outside the row has its first
      character read before its pitch class is looked up, so an empty one
      raises IndexError rather than KeyError. */
  function ChordNumeral(key: string, root: string, q: Quality, position: int, hasSeventh: bool, getInversion: bool)
    : (r: Outcome<string>)
    ensures NotesForKey(key).Raise? ==> r == Raise(NotesForKey(key).error)
    ensures NotesForKey(key).Ok? ==>
              (r.Ok? <==> (root in NotesForKey(key).value || NoteIndex(root).Some?)
                          && (getInversion ==> CliTheory.FigureFor(hasSeventh, position).Ok?))
    ensures NotesForKey(key).Ok? && root == [] && root !in NotesForKey(key).value ==> r == Raise(IndexError)
    ensures NotesForKey(key).Ok? && r.Ok? && root in NotesForKey(key).value ==>
              r.value == CliTheory.Stem(NumeralStrings[DegreeIn(NotesForKey(key).value, root)], q)
                         + (if getInversion then CliTheory.FigureFor(hasSeventh, position).value else "")
  {
    var notes :- NotesForKey(key);
    var base :- if root == [] && root !in notes then Raise(IndexError) else NumeralBase(notes, root);
    var stem := CliTheory.Stem(base, q);
    if getInversion then
      var figure :- CliTheory.FigureFor(hasSeventh, position);
      Ok(stem + figure)
    else Ok(stem)
  }

  /** identify_chord_numeral_for_key, with its search loops. */
  method IdentifyChordNumeral(key: string, root: string, q: Quality, position: int, hasSeventh: bool, getInversion: bool)
    returns (r: Outcome<string>)
    ensures r == ChordNumeral(key, root, q, position, hasSeventh, getInversion)
  {
    var notes := NotesForKey(key);
    if notes.Raise? {
      return Raise(notes.error);
    }
    if root == [] && root !in notes.value {
      return Raise(IndexError);
    }
    var base := FindNumeralBase(notes.value, root);
    if base.Raise? {
      return Raise(base.error);
    }
    var numeral := CliTheory.Stem(base.value, q);
    if getInversion {
      var figure := CliTheory.FigureFor(hasSeventh, position);
      if figure.Raise? {
        return Raise(figure.error);
      }
      numeral := numeral + figure.value;
    }
    return Ok(numeral);
  }

  /** Where both versions have the key, they write the same numeral for any
      non-empty bass note. */
  lemma ChordNumeralAgrees(key: string, root: string, q: Quality, position: int, hasSeventh: bool, getInversion: bool)
    requires NotesForKey(key).Ok? && CliTheory.NotesForKey(key).Ok? && root != []
    ensures ChordNumeral(key, root, q, position, hasSeventh, getInversion)
         == CliTheory.ChordNumeral(key, root, q, position, hasSeventh, getInversion)
  {
  }

  /** The triads of a key's scale, without figure, are diatonic to the key. */
  lemma ScaleTriadsAreDiatonic(key: string, d: nat)
    requires NotesForKey(key).Ok? && d < 7
    ensures var q := if FlaskTheory.IsMajorKey(key) then FlaskTheory.MajorTriads[d] else FlaskTheory.MinorTriads[d];
            ChordNumeral(key, NotesForKey(key).value[d], q, 0, false, false).Ok?
            && ChordRelation(key, ChordNumeral(key, NotesForKey(key).value[d], q, 0, false, false).value) == Ok(Diatonic)
  {
    var q := if FlaskTheory.IsMajorKey(key) then FlaskTheory.MajorTriads[d] else FlaskTheory.MinorTriads[d];
    var notes := NotesForKey(key).value;
    NotesSpellScale(key);
    ScaleNoteDegree(Capitalise(key), notes, FlaskTheory.KeySteps(key), d);
    var numeral := CliTheory.Stem(NumeralStrings[d], q);
    assert ChordNumeral(key, notes[d], q, 0, false, false) == Ok(numeral);
    if FlaskTheory.IsMajorKey(key) {
      CliTheory.MajorTriadStems(d);
      assert numeral == MajorKeyNumerals[d];
    } else {
      CliTheory.MinorTriadStems(d);
      assert numeral == MinorKeyNumerals[d];
    }
    NumeralHasNoSlash(numeral);
  }

  lemma NumeralHasNoSlash(numeral: string)
    requires numeral in CliTheory.MajorKeyNumerals + CliTheory.MinorKeyNumerals
    ensures !Contains(numeral, "/")
  {
    assert forall k :: 0 <= k < |numeral| ==> numeral[k] in "IViv#boø";
    NotContainsChar(numeral, "/", 0);
  }

  // ---------------------------------------------------------------------
  // Type of a named chord in a key (identify_chord_type_by_key)

  /** The triad or seventh tables of a key's own mode and of the parallel mode. */
  function OwnTable(upper: bool, hasSeventh: bool): map<string, seq<string>>
  {
    if upper then (if hasSeventh then CliTheory.MajorKeySevenths else CliTheory.MajorKeyTriads)
    else (if hasSeventh then CliTheory.MinorKeySevenths else CliTheory.MinorKeyTriads)
  }

  function ParallelTable(upper: bool, hasSeventh: bool): map<string, seq<string>>
  {
    OwnTable(!upper, hasSeventh)
  }

  /** identify_chord_type_by_key, with the tables looked up under `tableKey`:
      the chord named bass note + quality is diatonic when the key's own table
      row holds it, mixture when the parallel mode's row does, other
      otherwise; KeyError for a row the tables lack. */
  function ChordTypeIn(key: string, tableKey: string, bass: string, q: Quality, hasSeventh: bool): (r: Outcome<Relation>)
    ensures key == [] ==> r == Raise(IndexError)
    ensures key != [] ==>
              var own, parallel, name := OwnTable(IsUpper(key[0]), hasSeventh), ParallelTable(IsUpper(key[0]), hasSeventh), bass + QualityText(q);
              && (r.Ok? <==> tableKey in own && (name in own[tableKey] || tableKey in parallel))
              && (r.Raise? ==> r.error == KeyError)
              && (r == Ok(Diatonic) <==> tableKey in own && name in own[tableKey])
              && (r == Ok(Mixture) <==> tableKey in own && name !in own[tableKey] && tableKey in parallel && name in parallel[tableKey])
              && (r == Ok(Other) <==> tableKey in own && name !in own[tableKey] && tableKey in parallel && name !in parallel[tableKey])
  {
    if key == [] then Raise(IndexError)
    else
      var upper := IsUpper(key[0]);
      var own, parallel := OwnTable(upper, hasSeventh), ParallelTable(upper, hasSeventh);
      var name := bass + QualityText(q);
      if tableKey !in own then Raise(KeyError)
      else if name in own[tableKey] then Ok(Diatonic)
      else if tableKey !in parallel then Raise(KeyError)
      else if name in parallel[tableKey] then Ok(Mixture)
      else Ok(Other)
  }

  /** identify_chord_type_by_key as written: the key indexes the tables as
      given, so a minor key (lower-case) is never found. */
  function ChordTypeAsWritten(key: string, bass: string, q: Quality, hasSeventh: bool): (r: Outcome<Relation>)
    ensures key != [] && !IsUpper(key[0]) ==> r == Raise(KeyError)
    ensures key != [] && IsUpper(key[0]) ==> r == ChordType(key, bass, q, hasSeventh)
  {
    if key != [] && !IsUpper(key[0]) then TableKeysCapitalised(key); ChordTypeIn(key, key, bass, q, hasSeventh)
    else if key != [] then CapitaliseIdentity(key); ChordTypeIn(key, key, bass, q, hasSeventh)
    else ChordTypeIn(key, key, bass, q, hasSeventh)
  }

  /** identify_chord_type_by_key with a minor key's tonic capitalised, as every
      other lookup of this file does. */
  function ChordType(key: string, bass: string, q: Quality, hasSeventh: bool): (r: Outcome<Relation>)
    ensures r.Ok? ==> r.value in {Diatonic, Mixture, Other}
  {
    if key == [] then Raise(IndexError) else ChordTypeIn(key, Capitalise(key), bass, q, hasSeventh)
  }

  /** Every row of the chord tables is keyed by a capitalised tonic. */
  lemma TableKeysCapitalised(key: string)
    requires key != [] && !IsUpper(key[0])
    ensures key !in CliTheory.MajorKeyTriads && key !in CliTheory.MajorKeySevenths
    ensures key !in CliTheory.MinorKeyTriads && key !in CliTheory.MinorKeySevenths
  {
    CliTheory.MajorTriadKeys();
    CliTheory.MajorSeventhKeys();
    CliTheory.MinorTriadKeys();
    CliTheory.MinorSeventhKeys();
    ChordKeysCapitalised();
  }

  lemma ChordKeysCapitalised()
    ensures forall k :: k in CliTheory.MajorChordKeys ==> k != [] && IsUpper(k[0])
    ensures forall k :: k in CliTheory.MinorChordKeys ==> k != [] && IsUpper(k[0])
  {
  }

  /** So E major in A minor is mixture once the key is capitalised, while as
      written the lookup fails. */
  lemma MinorKeyChordType()
    ensures ChordTypeAsWritten("a", "E", Major, false) == Raise(KeyError)
    ensures ChordType("a", "E", Major, false) == Ok(Mixture)
    ensures ChordType("a", "E", Minor, false) == Ok(Diatonic)
  {
    assert Capitalise("a") == "A";
    var own, parallel := ARows();
    assert "E" + QualityText(Major) == "E" && "E" + QualityText(Minor) == "Em";
    assert "E" !in own && "E" in parallel;
    assert "Em" in own;
    assert !IsUpper('a');
  }

  lemma ARows() returns (own: seq<string>, parallel: seq<string>)
    ensures "A" in CliTheory.MinorKeyTriads && "A" in CliTheory.MajorKeyTriads
    ensures own == CliTheory.MinorKeyTriads["A"] == ["Am", "Bo", "C", "Dm", "Em", "F", "G"]
    ensures parallel == CliTheory.MajorKeyTriads["A"] == ["A", "Bm", "C#m", "D", "E", "F#m", "G#o"]
  {
    CliTheory.MinorTriadKeys();
    CliTheory.MajorTriadKeys();
    own, parallel := CliTheory.MinorKeyTriads["A"], CliTheory.MajorKeyTriads["A"];
  }

  /** In a major key the triad and the dominant seventh on the fifth degree are diatonic. */
  lemma DominantIsDiatonic(key: string)
    requires key in CliTheory.MajorChordKeys
    ensures key in MajorKeyNotes && |MajorKeyNotes[key]| == 7
    ensures ChordType(key, MajorKeyNotes[key][4], Major, false) == Ok(Diatonic)
    ensures ChordType(key, MajorKeyNotes[key][4], Dominant7, true) == Ok(Diatonic)
  {
    CliTheory.DominantColumnsHold(key);
    ChordKeysCapitalised();
    CapitaliseIdentity(key);
    var root := MajorKeyNotes[key][4];
    DominantTriadIn(key, root);
    DominantSeventhIn(key, root);
  }

  lemma DominantTriadIn(key: string, root: string)
    requires key != [] && IsUpper(key[0]) && Capitalise(key) == key
    requires key in CliTheory.MajorKeyTriads && |CliTheory.MajorKeyTriads[key]| == 7
    requires CliTheory.MajorKeyTriads[key][4] == root
    ensures ChordType(key, root, Major, false) == Ok(Diatonic)
  {
    assert root + QualityText(Major) == root;
  }

  lemma DominantSeventhIn(key: string, root: string)
    requires key != [] && IsUpper(key[0]) && Capitalise(key) == key
    requires key in CliTheory.MajorKeySevenths && |CliTheory.MajorKeySevenths[key]| == 7
    requires CliTheory.MajorKeySevenths[key][4] == root + "7"
    ensures ChordType(key, root, Dominant7, true) == Ok(Diatonic)
  {
  }

  // ---------------------------------------------------------------------
  // Applied dominants (identify_secondary_dominant_numeral)

  /** identify_secondary_dominant_numeral: a diminished seventh (a name holding
      "o7") is read from its root in the base key, whatever the base chord's
      quality, and returned without figure; any other chord needs a base
      quality that takes applied chords and is matched by name against the
      base key's tables, getting its inversion figure when it matches. */
  function SecondaryDominantNumeral(name: string, position: int, hasSeventh: bool, baseKey: string, baseQuality: Quality)
    : (r: Outcome<string>)
    ensures r.Ok? && Contains(name, "o7") ==> r.value == "" || r.value in CliTheory.LeadingToneDim7
    ensures !Contains(name, "o7") && !CliTheory.TakesApplied(baseQuality) ==> r == Ok("")
    ensures r.Ok? && r.value != "" && !Contains(name, "o7") && !hasSeventh ==>
              position == 0 && r.value in ["V", "viio"]
    ensures r.Ok? && r.value != "" && !Contains(name, "o7") ==>
              CliTheory.FigureFor(hasSeventh, position).Ok? && CliTheory.DominantByName(name, position, hasSeventh, baseKey).Ok?
              && r.value == CliTheory.DominantByName(name, position, hasSeventh, baseKey).value
                            + CliTheory.FigureFor(hasSeventh, position).value
  {
    if Contains(name, "o7") then
      var numeral :- ChordNumeral(baseKey, DropLast(name, 2), Diminished7, 0, true, true);
      Ok(CliTheory.Dim7AsSecondary(numeral))
    else if !CliTheory.TakesApplied(baseQuality) then Ok("")
    else CliTheory.NamedDominant(name, position, hasSeventh, baseKey)
  }

  /** For a base chord that takes applied chords, this version reads a chord as
      the command-line version does, wherever both have the base key and a
      diminished seventh's name holds a note before its "o7". */
  lemma SecondaryAgreesWithCli(name: string, position: int, hasSeventh: bool, baseKey: string, baseQuality: Quality)
    requires CliTheory.TakesApplied(baseQuality)
    requires Contains(name, "o7") ==> NotesForKey(baseKey).Ok? && CliTheory.NotesForKey(baseKey).Ok? && |name| > 2
    ensures SecondaryDominantNumeral(name, position, hasSeventh, baseKey, baseQuality)
         == CliTheory.SecondaryDominantNumeral(name, position, hasSeventh, baseKey, baseQuality)
  {
    if Contains(name, "o7") {
      Dim7SecondaryAgrees(name, position, hasSeventh, baseKey, baseQuality);
    }
  }

  /** The diminished-seventh case of SecondaryAgreesWithCli: both versions
      read the bass note before "o7" in the base key the same way. */
  lemma Dim7SecondaryAgrees(name: string, position: int, hasSeventh: bool, baseKey: string, baseQuality: Quality)
    requires CliTheory.TakesApplied(baseQuality) && Contains(name, "o7") && |name| > 2
    requires NotesForKey(baseKey).Ok? && CliTheory.NotesForKey(baseKey).Ok?
    ensures SecondaryDominantNumeral(name, position, hasSeventh, baseKey, baseQuality)
         == CliTheory.SecondaryDominantNumeral(name, position, hasSeventh, baseKey, baseQuality)
  {
    var root := DropLast(name, 2);
    DropLastNonEmpty(name, 2);
    ChordNumeralAgrees(baseKey, root, Diminished7, 0, true, true);
    Dim7Read(name, position, hasSeventh, baseKey, baseQuality);
    CliDim7Read(name, position, hasSeventh, baseKey, baseQuality);
  }

  lemma DropLastNonEmpty(s: string, k: nat)
    requires |s| > k
    ensures DropLast(s, k) != []
  {
    assert |DropLast(s, k)| == |s| - k;
  }

  /** A diminished seventh read in the base key, as both versions finish it. */
  function Dim7Reading(n: Outcome<string>): Outcome<string>
  {
    if n.Raise? then Raise(n.error) else Ok(CliTheory.Dim7AsSecondary(n.value))
  }

  lemma Dim7Read(name: string, position: int, hasSeventh: bool, baseKey: string, baseQuality: Quality)
    requires Contains(name, "o7")
    ensures SecondaryDominantNumeral(name, position, hasSeventh, baseKey, baseQuality)
         == Dim7Reading(ChordNumeral(baseKey, DropLast(name, 2), Diminished7, 0, true, true))
  {
  }

  lemma CliDim7Read(name: string, position: int, hasSeventh: bool, baseKey: string, baseQuality: Quality)
    requires CliTheory.TakesApplied(baseQuality) && Contains(name, "o7")
    ensures CliTheory.SecondaryDominantNumeral(name, position, hasSeventh, baseKey, baseQuality)
         == Dim7Reading(CliTheory.ChordNumeral(baseKey, DropLast(name, 2), Diminished7, 0, true, true))
  {
  }

  /** A bare "o7" leaves an empty bass note, whose first character is read
      before anything else: IndexError. */
  lemma BareDiminishedSeventhRaises(baseKey: string, baseQuality: Quality)
    requires NotesForKey(baseKey).Ok?
    ensures SecondaryDominantNumeral("o7", 0, true, baseKey, baseQuality) == Raise(IndexError)
  {
    ContainsAt("o7", "o7", 0);
    assert DropLast("o7", 2) == [];
  }

  /** The diminished seventh on a key's leading tone is its viio7, whatever the
      base chord's quality. */
  lemma LeadingToneSeventhIsSecondary(key: string, baseQuality: Quality)
    requires NotesForKey(key).Ok? && FlaskTheory.IsMajorKey(key)
    ensures SecondaryDominantNumeral(NotesForKey(key).value[6] + "o7", 0, true, key, baseQuality) == Ok("viio7")
  {
    var notes := NotesForKey(key).value;
    LeadingToneDim7Numeral(key);
    var name := notes[6] + "o7";
    ContainsAt(name, "o7", |notes[6]|);
    assert DropLast(name, 2) == notes[6];
    Dim7Read(name, 0, true, key, baseQuality);
  }

  /** The diminished seventh on the seventh degree of a major key, with its figure, is viio7. */
  lemma LeadingToneDim7Numeral(key: string)
    requires NotesForKey(key).Ok?
    ensures ChordNumeral(key, NotesForKey(key).value[6], Diminished7, 0, true, true) == Ok("viio7")
  {
    var notes := NotesForKey(key).value;
    NotesSpellScale(key);
    ScaleNoteDegree(Capitalise(key), notes, FlaskTheory.KeySteps(key), 6);
    LowerNumerals();
    assert CliTheory.Stem("VII", Diminished7) + "7" == "viio7";
  }

  /** The diminished-seventh test comes before the base-quality test here and
      after it in the command-line version: B°7 over a diminished base chord in
      C is viio7 here and nothing there. */
  lemma DiminishedSeventhBeforeQuality()
    ensures SecondaryDominantNumeral("Bo7", 0, true, "C", Diminished) == Ok("viio7")
    ensures CliTheory.SecondaryDominantNumeral("Bo7", 0, true, "C", Diminished) == Ok("")
  {
    LeadingToneOfC();
    assert "B" + "o7" == "Bo7";
    LeadingToneSeventhIsSecondary("C", Diminished);
  }

  lemma LeadingToneOfC()
    ensures NotesForKey("C").Ok? && FlaskTheory.IsMajorKey("C") && NotesForKey("C").value[6] == "B"
  {
    CapitaliseIdentity("C");
    assert "C" in FlaskTheory.KeyNames && "C" !in MissingMajorTonics;
    FlaskCRow();
  }

  lemma FlaskCRow()
    ensures FlaskTheory.NotesForKey("C") == Ok(["C", "D", "E", "F", "G", "A", "B"])
  {
    CapitaliseIdentity("C");
  }
}
