// The theory functions of the command-line version (Cli/music/music_info.py):
// a key's scale row, the relation of a numeral to a key, notes by degree, a
// note's degree and accidental in a key, the roman numeral of a chord (with
// the inversion figure optional and chosen by whether the chord has a
// seventh), and the two ways of reading a chord as an applied dominant.
module CliTheory {
  import opened Py
  import opened Spelling
  import opened IntervalCodes
  import opened Scales
  import FlaskTheory

  /** The diatonic and mixture numerals of a major and of a minor key (triads, plus viiø in major). */
  const MajorKeyNumerals: seq<string> := ["I", "ii", "iii", "IV", "V", "vi", "viio", "viiø"]
  const MajorMixtureNumerals: seq<string> := ["i", "iiø", "iio", "bIII", "iv", "v", "bVI", "bVII"]
  const MinorKeyNumerals: seq<string> := ["i", "iio", "III", "iv", "v", "VI", "VII"]
  const MinorMixtureNumerals: seq<string> := ["I", "ii", "#iii", "IV", "V", "#vi", "viio"]

  /** The minor tonics this version's MINOR_KEY_NOTES does not list. */
  const MissingMinorTonics: set<string> := {"Cb", "Db", "Gb"}

  /** MAJOR_KEY_NOTES: the same 18 rows as the web version's table. */
  const MajorKeyNotes: map<string, seq<string>> := FlaskTheory.MajorKeyNotes

  /** MINOR_KEY_NOTES as written: the web version's rows as written (Eb minor
      with Fb for F), without Cb, Db and Gb minor. */
  const MinorKeyNotesAsWritten: map<string, seq<string>> := FlaskTheory.MinorKeyNotesAsWritten - MissingMinorTonics

  /** MINOR_KEY_NOTES with the Eb minor row spelled as the natural minor scale. */
  const MinorKeyNotes: map<string, seq<string>> := FlaskTheory.MinorKeyNotes - MissingMinorTonics

  // ---------------------------------------------------------------------
  // Scale rows (__get_notes_for_key)

  /** __get_notes_for_key: IndexError for an empty key, KeyError for a tonic the
      table lacks; a row it finds is the web version's row for the same key. */
  function NotesForKey(key: string): (r: Outcome<seq<string>>)
    ensures key == [] ==> r == Raise(IndexError)
    ensures key != [] ==>
              (r.Ok? <==> Capitalise(key) in FlaskTheory.KeyNames
                          && (IsUpper(key[0]) || Capitalise(key) !in MissingMinorTonics))
    ensures key != [] && r.Raise? ==> r.error == KeyError
    ensures r.Ok? ==> r == FlaskTheory.NotesForKey(key)
  {
    FlaskTheory.TablesKeyedByKeyNames();
    if key == [] then Raise(IndexError)
    else if IsUpper(key[0]) then
      CapitaliseIdentity(key);
      if key in MajorKeyNotes then Ok(MajorKeyNotes[key]) else Raise(KeyError)
    else
      var tonic := Capitalise(key);
      if tonic in MinorKeyNotes then Ok(MinorKeyNotes[tonic]) else Raise(KeyError)
  }

  /** A row this version finds spells the key's scale. */
  lemma NotesSpellScale(key: string)
    requires NotesForKey(key).Ok?
    ensures SpellsScale(Capitalise(key), NotesForKey(key).value, FlaskTheory.KeySteps(key))
    ensures ValidRow(NotesForKey(key).value)
  {
  }

  // ---------------------------------------------------------------------
  // Relation to a key (get_chord_relation_for_key)

  /** get_chord_relation_for_key: the numeral itself (no figure stripped) looked
      up in the key's diatonic list, then its mixture list; IndexError for an empty key. */
  function ChordRelation(key: string, numeral: string): (r: Outcome<Relation>)
    ensures r.Raise? <==> key == []
    ensures r.Raise? ==> r.error == IndexError
    ensures r.Ok? ==> r.value in {Diatonic, Mixture, Chromatic}
    ensures r.Ok? && r.value == Diatonic ==> numeral in MajorKeyNumerals + MinorKeyNumerals
  {
    if key == [] then Raise(IndexError)
    else if IsUpper(key[0]) then Ok(RelationIn(MajorKeyNumerals, MajorMixtureNumerals, numeral))
    else Ok(RelationIn(MinorKeyNumerals, MinorMixtureNumerals, numeral))
  }

  /** A figure makes a numeral chromatic: "V6" is in no list. */
  lemma FiguredNumeralIsChromatic()
    ensures ChordRelation("C", "V6") == Ok(Chromatic)
    ensures ChordRelation("C", "V") == Ok(Diatonic)
  {
  }

  // ---------------------------------------------------------------------
  // Notes by degree (get_key_note_for_degree, get_leading_tone_in_key)

  /** get_key_note_for_degree: the note at 0-based degree `degree` of the key
      (Python indexing, so -7..-1 count from the end). */
  function KeyNoteForDegree(key: string, degree: int): (r: Outcome<string>)
    ensures NotesForKey(key).Raise? ==> r == Raise(NotesForKey(key).error)
    ensures NotesForKey(key).Ok? ==> (r.Ok? <==> -7 <= degree < 7)
    ensures NotesForKey(key).Ok? && r.Raise? ==> r.error == IndexError
    ensures NotesForKey(key).Ok? && 0 <= degree < 7 ==> r == Ok(NotesForKey(key).value[degree])
  {
    var notes :- NotesForKey(key);
    Index(notes, degree)
  }

  /** The 0-based degree here is the web version's 1-based degree plus one. */
  lemma DegreeBases(key: string, degree: int)
    requires NotesForKey(key).Ok? && 0 <= degree < 7
    ensures KeyNoteForDegree(key, degree) == FlaskTheory.NoteNameForDegree(key, degree + 1)
  {
  }

  /** get_leading_tone_in_key: the seventh note of the major scale on the key's
      capitalised tonic, for a major and a minor key alike; it is the web
      version's leading tone, a semitone below the tonic. */
  function LeadingTone(key: string): (r: Outcome<string>)
    ensures key != [] ==> (r.Ok? <==> Capitalise(key) in FlaskTheory.KeyNames)
    ensures r.Raise? ==> r.error == (if key == [] then IndexError else KeyError)
  {
    FlaskTheory.TablesKeyedByKeyNames();
    if key == [] then Raise(IndexError)
    else
      var tonic := Capitalise(key);
      FlaskTheory.MajorRowsSpell();
      if tonic in MajorKeyNotes then Ok(MajorKeyNotes[tonic][6]) else Raise(KeyError)
  }

  /** The two versions name the same leading tone, the raised seventh degree
      a semitone below the tonic. */
  lemma LeadingToneAgrees(key: string)
    ensures LeadingTone(key) == FlaskTheory.LeadingTone(key)
  {
    FlaskTheory.TablesKeyedByKeyNames();
    if key != [] {
      var tonic := Capitalise(key);
      if tonic in FlaskTheory.KeyNames {
        FlaskTheory.KeyNamesCapitalised(tonic);
        CapitaliseIdentity(tonic);
        assert FlaskTheory.NotesForKey(tonic) == Ok(MajorKeyNotes[tonic]);
      }
    }
  }

  // ---------------------------------------------------------------------
  // Degree and accidental of a note (get_note_degree_in_key, get_note_accidental_in_key)

  /** get_note_degree_in_key: the first 0-based degree at which the name is spelled, or -1. */
  function NoteDegree(name: string, key: string): (r: Outcome<int>)
    ensures NotesForKey(key).Raise? ==> r == Raise(NotesForKey(key).error)
    ensures NotesForKey(key).Ok? ==> r.Ok? && -1 <= r.value < 7
    ensures r.Ok? ==> (r.value == -1 <==> name !in NotesForKey(key).value)
    ensures r.Ok? && r.value >= 0 ==> NotesForKey(key).value[r.value] == name
  {
    var notes :- NotesForKey(key);
    Ok(DegreeIn(notes, name))
  }

  /** get_note_degree_in_key, with its search loop. */
  method NoteDegreeInKey(name: string, key: string) returns (r: Outcome<int>)
    ensures r == NoteDegree(name, key)
  {
    var notes := NotesForKey(key);
    if notes.Raise? {
      return Raise(notes.error);
    }
    var d := FindDegree(notes.value, name);
    return Ok(d);
  }

  /** get_note_accidental_in_key: the sign the note needs against the key
      signature; where this version has the key, it agrees with the web version. */
  function NoteAccidental(search: string, key: string): (r: Outcome<string>)
    ensures NotesForKey(key).Raise? ==> r == Raise(NotesForKey(key).error)
    ensures NotesForKey(key).Ok? ==> r == FlaskTheory.NoteAccidental(search, key)
  {
    var notes :- NotesForKey(key);
    AccidentalIn(notes, search)
  }

  /** get_note_accidental_in_key, with its search loop. */
  method NoteAccidentalInKey(search: string, key: string) returns (r: Outcome<string>)
    ensures r == NoteAccidental(search, key)
  {
    var notes := NotesForKey(key);
    if notes.Raise? {
      return Raise(notes.error);
    }
    r := FindAccidental(notes.value, search);
  }

  // ---------------------------------------------------------------------
  // Numerals (identify_chord_numeral_for_key)

  /** The qualities written with a lower-case numeral ('m', 'm7', 'ø', 'o', 'o7'). */
  predicate LowersNumeral(q: Quality)
  {
    q == Minor || q == Minor7 || q == HalfDiminished7 || q == Diminished || q == Diminished7
  }

  /** The mark a quality adds after the numeral: '+', 'M' for maj7, 'ø', 'o' for o and o7. */
  function QualityMark(q: Quality): string
  {
    match q
      case Augmented => "+"
      case Major7 => "M"
      case HalfDiminished7 => "ø"
      case Diminished => "o"
      case Diminished7 => "o"
      case _ => ""
  }

  /** The numeral of a root's base with its case and quality mark. */
  function Stem(base: string, q: Quality): string
  {
    (if LowersNumeral(q) then Lower(base) else base) + QualityMark(q)
  }

  /** The inversion figure: the seventh figures when the chord has a seventh,
      the triad figures otherwise, indexed by position. */
  function FigureFor(hasSeventh: bool, position: int): (r: Outcome<string>)
    ensures hasSeventh ==> (r.Ok? <==> -4 <= position < 4)
    ensures !hasSeventh ==> (r.Ok? <==> -3 <= position < 3)
    ensures r.Raise? ==> r.error == IndexError
  {
    Index(if hasSeventh then InversionSeventhStrings else InversionTriadStrings, position)
  }

  /** identify_chord_numeral_for_key: the errors of the key lookup, KeyError for
      a root neither in the row nor a spelling, IndexError for a requested
      figure the position does not have. */
  function ChordNumeral(key: string, root: string, q: Quality, position: int, hasSeventh: bool, getInversion: bool): (r: Outcome<string>)
    ensures NotesForKey(key).Raise? ==> r == Raise(NotesForKey(key).error)
    ensures NotesForKey(key).Ok? ==>
              (r.Ok? <==> (root in NotesForKey(key).value || NoteIndex(root).Some?)
                          && (getInversion ==> FigureFor(hasSeventh, position).Ok?))
    ensures NotesForKey(key).Ok? && r.Raise? && (getInversion ==> FigureFor(hasSeventh, position).Ok?) ==> r.error == KeyError
  {
    var notes :- NotesForKey(key);
    var base :- NumeralBase(notes, root);
    var stem := Stem(base, q);
    if getInversion then
      var figure :- FigureFor(hasSeventh, position);
      Ok(stem + figure)
    else Ok(stem)
  }

  /** identify_chord_numeral_for_key, with its search loops. */
  method IdentifyChordNumeral(key: string, root: string, q: Quality, position: int, hasSeventh: bool, getInversion: bool)
    returns (r: Outcome<string>)
    ensures r == ChordNumeral(key, root, q, position, hasSeventh, getInversion)
  {
    var notes := NotesForKey(key);
    if notes.Raise? {
      return Raise(notes.error);
    }
    var base := FindNumeralBase(notes.value, root);
    if base.Raise? {
      return Raise(base.error);
    }
    var numeral := Stem(base.value, q);
    if getInversion {
      var figure := FigureFor(hasSeventh, position);
      if figure.Raise? {
        return Raise(figure.error);
      }
      numeral := numeral + figure.value;
    }
    return Ok(numeral);
  }

  /** Asking for the inversion appends exactly the figure has_seventh selects
      to the numeral without it; so a root-position ø chord ends in "ø7". */
  lemma InversionAppendsFigure(key: string, root: string, q: Quality, position: int, hasSeventh: bool)
    requires ChordNumeral(key, root, q, position, hasSeventh, true).Ok?
    ensures ChordNumeral(key, root, q, position, hasSeventh, false).Ok?
    ensures FigureFor(hasSeventh, position).Ok?
    ensures ChordNumeral(key, root, q, position, hasSeventh, true).value
         == ChordNumeral(key, root, q, position, hasSeventh, false).value + FigureFor(hasSeventh, position).value
  {
  }

  /** The chord on degree d of a key takes that degree's numeral as its base. */
  lemma DegreeStem(key: string, d: nat, q: Quality)
    requires NotesForKey(key).Ok? && d < 7
    ensures ChordNumeral(key, NotesForKey(key).value[d], q, 0, false, false) == Ok(Stem(NumeralStrings[d], q))
  {
    var notes := NotesForKey(key).value;
    NotesSpellScale(key);
    ScaleNoteDegree(Capitalise(key), notes, FlaskTheory.KeySteps(key), d);
  }

  /** The triads built on the degrees of a major scale are its diatonic numerals. */
  lemma MajorTriadStems(d: nat)
    requires d < 7
    ensures Stem(NumeralStrings[d], FlaskTheory.MajorTriads[d]) == MajorKeyNumerals[d]
  {
    LowerNumerals();
    if d == 6 {
      assert Stem("VII", Diminished) == "vii" + "o";
    }
  }

  /** The triads built on the degrees of a natural minor scale are its diatonic numerals. */
  lemma MinorTriadStems(d: nat)
    requires d < 7
    ensures Stem(NumeralStrings[d], FlaskTheory.MinorTriads[d]) == MinorKeyNumerals[d]
  {
    LowerNumerals();
    if d == 1 {
      assert Stem("II", Diminished) == "ii" + "o";
    }
  }

  /** Every triad of a key's scale, in root position and without a figure, is diatonic to the key. */
  lemma ScaleTriadsAreDiatonic(key: string, d: nat)
    requires NotesForKey(key).Ok? && d < 7
    ensures var q := if FlaskTheory.IsMajorKey(key) then FlaskTheory.MajorTriads[d] else FlaskTheory.MinorTriads[d];
            ChordNumeral(key, NotesForKey(key).value[d], q, 0, false, false).Ok?
            && ChordRelation(key, ChordNumeral(key, NotesForKey(key).value[d], q, 0, false, false).value) == Ok(Diatonic)
  {
    var q := if FlaskTheory.IsMajorKey(key) then FlaskTheory.MajorTriads[d] else FlaskTheory.MinorTriads[d];
    DegreeStem(key, d, q);
    if FlaskTheory.IsMajorKey(key) {
      MajorTriadStems(d);
    } else {
      MinorTriadStems(d);
    }
  }

  /** The leading-tone half-diminished seventh of a major key, asked for with its figure, is "viiø7". */
  lemma HalfDiminishedKeepsSeven(key: string)
    requires NotesForKey(key).Ok?
    ensures ChordNumeral(key, NotesForKey(key).value[6], HalfDiminished7, 0, true, true) == Ok("viiø7")
  {
    DegreeStem(key, 6, HalfDiminished7);
    InversionAppendsFigure(key, NotesForKey(key).value[6], HalfDiminished7, 0, true);
    HalfDiminishedStem();
  }

  lemma HalfDiminishedStem()
    ensures Stem(NumeralStrings[6], HalfDiminished7) + FigureFor(true, 0).value == "viiø7"
  {
    LowerNumerals();
    assert Stem("VII", HalfDiminished7) == "vii" + "ø";
  }

  // ---------------------------------------------------------------------
  // Applied numerals (identify_applied_numeral)

  /** The base-chord qualities an applied chord may resolve to ('', 'm', 'maj7', '7', 'm7'). */
  predicate TakesApplied(q: Quality)
  {
    q == Major || q == Minor || q == Major7 || q == Dominant7 || q == Minor7
  }

  /** The diminished-seventh numerals in a key that are re-read as inversions of
      the leading-tone one. */
  const Dim7Numerals: seq<string> := ["iio7", "ivo7", "bvio7", "vio7", "viio7", "#viio7"]

  /** The leading-tone fully-diminished seventh numerals, by inversion. */
  const LeadingToneDim7: seq<string> := ["viio7", "viio6/5", "viio4/3", "viio4/2"]

  /** The o7 part of identify_applied_numeral with use_inversion: the leading-tone
      inversion the numeral stands for, or "". */
  function Dim7AsLeadingTone(numeral: string): (r: string)
    ensures r == "" <==> numeral !in Dim7Numerals
    ensures r != "" ==> r in LeadingToneDim7
  {
    if numeral == "bvio7" || numeral == "vio7" then "viio4/2"
    else if numeral == "ivo7" then "viio4/3"
    else if numeral == "iio7" then "viio6/5"
    else if numeral == "viio7" || numeral == "#viio7" then "viio7"
    else ""
  }

  /** The dominant and leading-tone numerals without figure. */
  const AppliedBases: seq<string> := ["V", "viio", "viiø"]

  /** The numeral without figure an applied chord other than a diminished seventh
      keeps: V, viio or viiø as they are, #viio and #viiø without the '#', else "". */
  function AppliedBase(numeral: string): (b: string)
    ensures b == "" || b in AppliedBases
    ensures numeral in AppliedBases ==> b == numeral
  {
    if numeral in AppliedBases then numeral
    else if numeral == "#viio" then "viio"
    else if numeral == "#viiø" then "viiø"
    else ""
  }

  /** identify_applied_numeral: the numeral of a chord acting as a dominant or
      leading-tone chord of a base chord whose root names the key, or "". A minor
      base chord lower-cases the key. A diminished seventh is read with its figure
      and re-read from the leading tone; any other chord is read without figure,
      kept only as V, viio or viiø (a '#' before viio or viiø dropped), and
      given its figure when use_inversion is set. */
  function AppliedNumeral(baseKey: string, baseQuality: Quality, root: string, q: Quality, position: int,
                          hasSeventh: bool, useInversion: bool): (r: Outcome<string>)
    ensures !TakesApplied(baseQuality) ==> r == Ok("")
    ensures r.Ok? && r.value != "" && q == Diminished7 ==>
              (if useInversion then r.value in LeadingToneDim7 else r.value == "viio")
    ensures r.Ok? && r.value != "" && q != Diminished7 && !useInversion ==> r.value in AppliedBases
    ensures r.Ok? && r.value != "" && q != Diminished7 && useInversion ==>
              FigureFor(hasSeventh, position).Ok?
              && exists b :: b in AppliedBases && r.value == b + FigureFor(hasSeventh, position).value
  {
    if !TakesApplied(baseQuality) then Ok("")
    else
      var key := if baseQuality == Minor || baseQuality == Minor7 then Lower(baseKey) else baseKey;
      if q == Diminished7 then
        var numeral :- ChordNumeral(key, root, q, position, hasSeventh, true);
        if useInversion then Ok(Dim7AsLeadingTone(numeral))
        else Ok(if numeral in Dim7Numerals then "viio" else "")
      else
        var numeral :- ChordNumeral(key, root, q, position, hasSeventh, false);
        var applied := AppliedBase(numeral);
        if applied != "" && useInversion then
          var figure :- FigureFor(hasSeventh, position);
          Ok(applied + figure)
        else Ok(applied)
  }

  /** A major triad or dominant seventh on the fifth degree of a key is applied
      to a major chord on that key's tonic as V, with the figure of its
      inversion when asked (so a root-position dominant seventh is "V7"). */
  lemma DominantIsApplied(key: string, q: Quality, position: int, useInversion: bool)
    requires NotesForKey(key).Ok? && (q == Major || q == Dominant7)
    requires 0 <= position < (if q == Major then 3 else 4)
    ensures AppliedNumeral(key, Major, NotesForKey(key).value[4], q, position, q == Dominant7, useInversion)
         == Ok(if useInversion then "V" + FigureFor(q == Dominant7, position).value else "V")
  {
    var root := NotesForKey(key).value[4];
    var notes := NotesForKey(key).value;
    NotesSpellScale(key);
    ScaleNoteDegree(Capitalise(key), notes, FlaskTheory.KeySteps(key), 4);
    assert ChordNumeral(key, root, q, position, q == Dominant7, false) == Ok(Stem("V", q));
    assert Stem("V", q) == "V";
  }

  // ---------------------------------------------------------------------
  // Secondary dominants by chord name (identify_secondary_dominant_numeral)

  /** MAJOR_KEY_TRIADS as written: the triads on the degrees of 14 major keys
      (the F row names its leading-tone triad Ebo, the Gb row has C for Cb). */
  const MajorKeyTriadsAsWritten: map<string, seq<string>> := map[
    "C" := ["C", "Dm", "Em", "F", "G", "Am", "Bo"],
    "C#" := ["C#", "D#m", "E#m", "F#", "G#", "A#m", "B#o"],
    "Db" := ["Db", "Ebm", "Fm", "Gb", "Ab", "Bbm", "Co"],
    "D" := ["D", "Em", "F#m", "G", "A", "Bm", "C#o"],
    "Eb" := ["Eb", "Fm", "Gm", "Ab", "Bb", "Cm", "Do"],
    "E" := ["E", "F#m", "G#m", "A", "B", "C#m", "D#o"],
    "F" := ["F", "Gm", "Am", "Bb", "C", "Dm", "Ebo"],
    "F#" := ["F#", "G#m", "A#m", "B", "C#", "D#m", "E#o"],
    "Gb" := ["Gb", "Abm", "Bbm", "C", "Db", "Ebm", "Fo"],
    "G" := ["G", "Am", "Bm", "C", "D", "Em", "F#o"],
    "Ab" := ["Ab", "Bbm", "Cm", "Db", "Eb", "Fm", "Go"],
    "A" := ["A", "Bm", "C#m", "D", "E", "F#m", "G#o"],
    "Bb" := ["Bb", "Cm", "Dm", "Eb", "F", "Gm", "Ao"],
    "B" := ["B", "C#m", "D#m", "E", "F#", "G#m", "A#o"]
  ]

  /** MAJOR_KEY_TRIADS with the leading-tone triad of F major named Eo; the
      Gb row's fourth chord is left as written, nothing reads it. */
  const MajorKeyTriads: map<string, seq<string>> :=
    MajorKeyTriadsAsWritten["F" := ["F", "Gm", "Am", "Bb", "C", "Dm", "Eo"]]

  /** MAJOR_KEY_SEVENTHS: the seventh chords on the degrees of 14 major keys. */
  const MajorKeySevenths: map<string, seq<string>> := map[
    "C" := ["Cmaj7", "Dm7", "Em7", "Fmaj7", "G7", "Am7", "Bø"],
    "C#" := ["C#maj7", "D#m7", "E#m7", "F#maj7", "G#7", "A#m7", "B#ø"],
    "Db" := ["Dbmaj7", "Ebm7", "Fm7", "Gbmaj7", "Ab7", "Bbm7", "Cø"],
    "D" := ["Dmaj7", "Em7", "F#m7", "Gmaj7", "A7", "Bm7", "C#ø"],
    "Eb" := ["Ebmaj7", "Fm7", "Gm7", "Abmaj7", "Bb7", "Cm7", "Dø"],
    "E" := ["Emaj7", "F#m7", "G#m7", "Amaj7", "B7", "C#m7", "D#ø"],
    "F" := ["Fmaj7", "Gm7", "Am7", "Bbmaj7", "C7", "Dm7", "Eø"],
    "F#" := ["F#maj7", "G#m7", "A#m7", "Bmaj7", "C#7", "D#m7", "E#ø"],
    "Gb" := ["Gbmaj7", "Abm7", "Bbm7", "Cmaj7", "Db7", "Ebm7", "Fø"],
    "G" := ["Gmaj7", "Am7", "Bm7", "Cmaj7", "D7", "Em7", "F#ø"],
    "Ab" := ["Abmaj7", "Bbm7", "Cm7", "Dbmaj7", "Eb7", "Fm7", "Gø"],
    "A" := ["Amaj7", "Bm7", "C#m7", "Dmaj7", "E7", "F#m7", "G#ø"],
    "Bb" := ["Bbmaj7", "Cm7", "Dm7", "Ebmaj7", "F7", "Gm7", "Aø"],
    "B" := ["Bmaj7", "C#m7", "D#m7", "Emaj7", "F#7", "G#m7", "A#ø"]
  ]

  /** MINOR_KEY_TRIADS: the triads on the degrees of 14 minor keys (the D# row has Eo for E#o). */
  const MinorKeyTriads: map<string, seq<string>> := map[
    "C" := ["Cm", "Do", "Eb", "Fm", "Gm", "Ab", "Bb"],
    "C#" := ["C#m", "D#o", "E", "F#m", "G#m", "A", "B"],
    "D" := ["Dm", "Eo", "F", "Gm", "Am", "Bb", "C"],
    "D#" := ["D#m", "Eo", "F#", "G#m", "A#m", "B#", "C#"],
    "Eb" := ["Ebm", "Fbo", "Gb", "Abm", "Bbm", "C", "Db"],
    "E" := ["Em", "F#o", "G", "Am", "Bm", "C", "D"],
    "F" := ["Fm", "Go", "Ab", "Bbm", "Cm", "Db", "Eb"],
    "F#" := ["F#m", "G#o", "A", "Bm", "C#m", "D", "E"],
    "G" := ["Gm", "Ao", "Bb", "Cm", "Dm", "Eb", "F"],
    "G#" := ["G#m", "A#o", "B", "C#m", "D#m", "E#", "F#"],
    "Ab" := ["Abm", "Bbo", "Cb", "Dbm", "Ebm", "Fb", "Gb"],
    "A" := ["Am", "Bo", "C", "Dm", "Em", "F", "G"],
    "Bb" := ["Bbm", "Co", "Db", "Ebm", "Fm", "Gb", "Ab"],
    "B" := ["Bm", "C#o", "D", "Em", "F#m", "G", "A"]
  ]

  /** MINOR_KEY_SEVENTHS: the seventh chords of 14 minor keys, then the diminished seventh on the raised leading tone. */
  const MinorKeySevenths: map<string, seq<string>> := map[
    "C" := ["Cm7", "Do7", "Ebmaj7", "Fm", "Gm", "Abmaj7", "Bb7", "Bo7"],
    "C#" := ["C#m7", "D#o7", "Emaj7", "F#m7", "G#m7", "Amaj7", "B7", "B#o7"],
    "D" := ["Dm7", "Eo7", "Fmaj7", "Gm7", "Am7", "Bbmaj7", "C7", "C#o7"],
    "D#" := ["D#m7", "Eo7", "F#maj7", "G#m7", "A#m7", "B#maj7", "C#7", "Cxo7"],
    "Eb" := ["Ebm7", "Fbo7", "Gbmaj7", "Abm7", "Bbm7", "Cmaj7", "Db7", "Do7"],
    "E" := ["Em7", "F#o7", "Gmaj7", "Am7", "Bm7", "Cmaj7", "D7", "D#o7"],
    "F" := ["Fm7", "Go7", "Abmaj7", "Bbm7", "Cm7", "Dbmaj7", "Eb7", "Eo7"],
    "F#" := ["F#m7", "G#o7", "Amaj7", "Bm7", "C#m7", "Dmaj7", "E7", "E#o7"],
    "G" := ["Gm7", "Ao7", "Bbmaj7", "Cm7", "Dm7", "Ebmaj7", "F7", "F#o7"],
    "G#" := ["G#m7", "A#o7", "Bmaj7", "C#m7", "D#m7", "E#maj7", "F#7", "Fxo7"],
    "Ab" := ["Abm7", "Bbo7", "Cbmaj7", "Dbm7", "Ebm7", "Fbmaj7", "Gb7", "Go7"],
    "A" := ["Am7", "Bo7", "Cmaj7", "Dm7", "Em7", "Fmaj7", "G7", "G#o7"],
    "Bb" := ["Bbm7", "Co7", "Dbmaj7", "Ebm7", "Fm7", "Gbmaj7", "Ab7", "Ao7"],
    "B" := ["Bm7", "C#o7", "Dmaj7", "Em7", "F#m7", "Gmaj7", "A7", "A#o7"]
  ]

  /** The key names of the triad and seventh tables. */
  const MajorChordKeys: set<string> := {"C", "C#", "Db", "D", "Eb", "E", "F", "F#", "Gb", "G", "Ab", "A", "Bb", "B"}
  const MinorChordKeys: set<string> := {"C", "C#", "D", "D#", "Eb", "E", "F", "F#", "G", "G#", "Ab", "A", "Bb", "B"}

  /** The major tables list 14 keys, the minor ones 14 others: neither has all 18. */
  lemma ChordTablesKeys()
    ensures MajorKeyTriads.Keys == MajorChordKeys && MajorKeySevenths.Keys == MajorChordKeys
    ensures MinorKeyTriads.Keys == MinorChordKeys && MinorKeySevenths.Keys == MinorChordKeys
  {
    MajorTriadKeys();
    MajorSeventhKeys();
    MinorTriadKeys();
    MinorSeventhKeys();
  }

  lemma MajorTriadKeys() ensures MajorKeyTriads.Keys == MajorChordKeys && MajorKeyTriadsAsWritten.Keys == MajorChordKeys { }
  lemma MajorSeventhKeys() ensures MajorKeySevenths.Keys == MajorChordKeys { }
  lemma MinorTriadKeys() ensures MinorKeyTriads.Keys == MinorChordKeys { }
  lemma MinorSeventhKeys() ensures MinorKeySevenths.Keys == MinorChordKeys { }

  /** `table[key]`, KeyError when the key is missing. */
  function Row(table: map<string, seq<string>>, key: string): (r: Outcome<seq<string>>)
    ensures r.Ok? <==> key in table
    ensures r.Ok? ==> r.value == table[key]
    ensures r.Raise? ==> r.error == KeyError
  {
    if key in table then Ok(table[key]) else Raise(KeyError)
  }

  /** The numeral of a triad or seventh named in the base key's tables: V or
      viiø (sevenths) and V or viio (root-position triads) from the major table,
      and, as written, the minor table's degree-7 chord NAME when the chord is its
      leading-tone seventh. Both of the base key's tables are looked up. */
  function DominantByNameIn(majorTriads: map<string, seq<string>>, name: string, position: int, hasSeventh: bool, baseKey: string)
    : (r: Outcome<string>)
    ensures r.Ok? && r.value != "" && !hasSeventh ==> position == 0 && r.value in ["V", "viio"]
  {
    if hasSeventh then
      var major :- Row(MajorKeySevenths, baseKey);
      var minor :- Row(MinorKeySevenths, baseKey);
      var v :- Index(major, 4);
      if name == v then Ok(MajorKeyNumerals[4])
      else
        var vii :- Index(major, 6);
        if name == vii then Ok("viiø")
        else
          var lt :- Index(minor, 7);
          if name == lt then Index(minor, 6) else Ok("")
    else
      var major :- Row(majorTriads, baseKey);
      var _ :- Row(MinorKeyTriads, baseKey);
      var v :- Index(major, 4);
      if name == v && position == 0 then Ok(MajorKeyNumerals[4])
      else
        var vii :- Index(major, 6);
        if name == vii && position == 0 then Ok(MajorKeyNumerals[6]) else Ok("")
  }

  /** The lookup by name with the corrected triad table. */
  function DominantByName(name: string, position: int, hasSeventh: bool, baseKey: string): (r: Outcome<string>)
    ensures r.Ok? && r.value != "" && !hasSeventh ==> position == 0 && r.value in ["V", "viio"]
  {
    DominantByNameIn(MajorKeyTriads, name, position, hasSeventh, baseKey)
  }

  /** The numeral a diminished seventh read in the base key stands for as a
      leading-tone chord in identify_secondary_dominant_numeral: bvio7, ivo7
      and iio7 are inversions of viio7 (unlike identify_applied_numeral, vio7
      and #viio7 are not recognised). */
  function Dim7AsSecondary(numeral: string): (r: string)
    ensures r == "" || r in LeadingToneDim7
    ensures r == "viio7" <==> numeral == "viio7"
    ensures r != "" <==> numeral in ["bvio7", "ivo7", "iio7", "viio7"]
  {
    if numeral == "bvio7" then "viio4/2"
    else if numeral == "ivo7" then "viio4/3"
    else if numeral == "iio7" then "viio6/5"
    else if numeral == "viio7" then numeral
    else ""
  }

  /** identify_secondary_dominant_numeral: for a base chord of an applied-taking
      quality, a diminished seventh (a name holding "o7") is read from its root
      in the base key and re-read from the leading tone, without figure; any
      other chord is matched by name against the base key's tables and given
      its inversion figure when it matches. */
  function SecondaryDominantNumeral(name: string, position: int, hasSeventh: bool, baseKey: string, baseQuality: Quality)
    : (r: Outcome<string>)
    ensures !TakesApplied(baseQuality) ==> r == Ok("")
    ensures r.Ok? && Contains(name, "o7") ==> r.value == "" || r.value in LeadingToneDim7
    ensures r.Ok? && r.value != "" && !Contains(name, "o7") && !hasSeventh ==>
              position == 0 && r.value in ["V", "viio"]
    ensures r.Ok? && r.value != "" && !Contains(name, "o7") ==>
              FigureFor(hasSeventh, position).Ok? && DominantByName(name, position, hasSeventh, baseKey).Ok?
              && r.value == DominantByName(name, position, hasSeventh, baseKey).value + FigureFor(hasSeventh, position).value
  {
    if !TakesApplied(baseQuality) then Ok("")
    else if Contains(name, "o7") then
      var numeral :- ChordNumeral(baseKey, DropLast(name, 2), Diminished7, 0, true, true);
      Ok(Dim7AsSecondary(numeral))
    else NamedDominant(name, position, hasSeventh, baseKey)
  }

  /** The lookup by name of identify_secondary_dominant_numeral, with the
      inversion figure appended to a match. */
  function NamedDominant(name: string, position: int, hasSeventh: bool, baseKey: string): (r: Outcome<string>)
    ensures r.Ok? && r.value != "" && !hasSeventh ==> position == 0 && r.value in ["V", "viio"]
    ensures r.Ok? && r.value != "" ==>
              FigureFor(hasSeventh, position).Ok? && DominantByName(name, position, hasSeventh, baseKey).Ok?
              && r.value == DominantByName(name, position, hasSeventh, baseKey).value + FigureFor(hasSeventh, position).value
  {
    var numeral :- DominantByName(name, position, hasSeventh, baseKey);
    if numeral != "" then
      var figure :- FigureFor(hasSeventh, position);
      assert !hasSeventh ==> figure == InversionTriadStrings[0] == "" && numeral + figure == numeral;
      Ok(numeral + figure)
    else Ok("")
  }

  /** The dominant and leading-tone columns of the major tables name the chords on
      the fifth and seventh degrees of the key's scale. */
  predicate DominantColumns(triads: map<string, seq<string>>, key: string)
  {
    key in triads && key in MajorKeySevenths && key in MajorKeyNotes
    && var notes, triad, seventh := MajorKeyNotes[key], triads[key], MajorKeySevenths[key];
       |notes| == 7 && |triad| == 7 && |seventh| == 7
       && triad[4] == notes[4] && triad[6] == notes[6] + "o"
       && seventh[4] == notes[4] + "7" && seventh[6] == notes[6] + "ø"
  }

  lemma DominantColumnsHold(key: string)
    requires key in MajorChordKeys
    ensures DominantColumns(MajorKeyTriads, key)
  {
    if key == "C" || key == "C#" || key == "Db" || key == "D" {
      DominantColumnsFromC(key);
    } else if key == "Eb" || key == "E" || key == "F" || key == "F#" {
      DominantColumnsFromEFlat(key);
    } else if key == "Gb" || key == "G" || key == "Ab" {
      DominantColumnsFromGFlat(key);
    } else {
      DominantColumnsFromA(key);
    }
  }

  lemma DominantColumnsFromC(key: string)
    requires key == "C" || key == "C#" || key == "Db" || key == "D"
    ensures DominantColumns(MajorKeyTriads, key)
  {
    if key == "C" {
      DominantColumnsC();
    } else if key == "C#" {
      DominantColumnsCSharp();
    } else if key == "Db" {
      DominantColumnsDFlat();
    } else if key == "D" {
      DominantColumnsD();
    }
  }

  lemma DominantColumnsFromEFlat(key: string)
    requires key == "Eb" || key == "E" || key == "F" || key == "F#"
    ensures DominantColumns(MajorKeyTriads, key)
  {
    if key == "Eb" {
      DominantColumnsEFlat();
    } else if key == "E" {
      DominantColumnsE();
    } else if key == "F" {
      DominantColumnsF();
    } else if key == "F#" {
      DominantColumnsFSharp();
    }
  }

  lemma DominantColumnsFromGFlat(key: string)
    requires key == "Gb" || key == "G" || key == "Ab"
    ensures DominantColumns(MajorKeyTriads, key)
  {
    if key == "Gb" {
      DominantColumnsGFlat();
    } else if key == "G" {
      DominantColumnsG();
    } else if key == "Ab" {
      DominantColumnsAFlat();
    }
  }

  lemma DominantColumnsFromA(key: string)
    requires key == "A" || key == "Bb" || key == "B"
    ensures DominantColumns(MajorKeyTriads, key)
  {
    if key == "A" {
      DominantColumnsA();
    } else if key == "Bb" {
      DominantColumnsBFlat();
    } else if key == "B" {
      DominantColumnsB();
    }
  }

  lemma DominantColumnsC() ensures DominantColumns(MajorKeyTriads, "C") { }

  lemma DominantColumnsCSharp() ensures DominantColumns(MajorKeyTriads, "C#") { }

  lemma DominantColumnsDFlat() ensures DominantColumns(MajorKeyTriads, "Db") { }

  lemma DominantColumnsD() ensures DominantColumns(MajorKeyTriads, "D") { }

  lemma DominantColumnsEFlat() ensures DominantColumns(MajorKeyTriads, "Eb") { }

  lemma DominantColumnsE() ensures DominantColumns(MajorKeyTriads, "E") { }

  lemma DominantColumnsF() ensures DominantColumns(MajorKeyTriads, "F") { }

  lemma DominantColumnsFSharp() ensures DominantColumns(MajorKeyTriads, "F#") { }

  lemma DominantColumnsGFlat() ensures DominantColumns(MajorKeyTriads, "Gb") { }

  lemma DominantColumnsG() ensures DominantColumns(MajorKeyTriads, "G") { }

  lemma DominantColumnsAFlat() ensures DominantColumns(MajorKeyTriads, "Ab") { }

  lemma DominantColumnsA() ensures DominantColumns(MajorKeyTriads, "A") { }

  lemma DominantColumnsBFlat() ensures DominantColumns(MajorKeyTriads, "Bb") { }

  lemma DominantColumnsB() ensures DominantColumns(MajorKeyTriads, "B") { }

  /** The last column of the minor seventh table is a diminished seventh whose name ends in "o7". */
  lemma LeadingToneSevenths(key: string)
    requires key in MinorKeySevenths
    ensures |MinorKeySevenths[key]| == 8
    ensures var n := MinorKeySevenths[key][7]; |n| >= 2 && n[|n| - 2..] == "o7"
  {
  }

  /** A chord name made of a spelling and a quality text without 'o' is not read as a diminished seventh. */
  lemma NotDiminishedName(root: string, suffix: string)
    requires IsSpelling(root) && 'o' !in suffix
    ensures !Contains(root + suffix, "o7")
  {
    SpellingChars(root);
    var n := root + suffix;
    assert 'o' !in n by {
      forall k | 0 <= k < |n| ensures n[k] != 'o' {
        if k < |root| { assert n[k] == root[k]; } else { assert n[k] == suffix[k - |root|]; }
      }
    }
    NotContainsChar(n, "o7", 0);
  }

  /** A chord name ending in a spelling and "o" is not read as a diminished seventh. */
  lemma NotDiminishedSeventhName(root: string)
    requires IsSpelling(root)
    ensures !Contains(root + "o", "o7")
  {
    SpellingChars(root);
    var n := root + "o";
    assert '7' !in n by {
      forall k | 0 <= k < |n| ensures n[k] != '7' {
        if k < |root| { assert n[k] == root[k]; }
      }
    }
    NotContainsChar(n, "o7", 1);
  }

  /** The triad on the fifth degree of a key's major scale, named by its root,
      is read in root position as the key's V. */
  lemma DominantTriadIsSecondary(key: string, baseQuality: Quality)
    requires key in MajorChordKeys && key in MinorChordKeys && TakesApplied(baseQuality)
    ensures key in MajorKeyNotes && |MajorKeyNotes[key]| == 7
    ensures SecondaryDominantNumeral(MajorKeyNotes[key][4], 0, false, key, baseQuality) == Ok("V")
  {
    DominantColumnsHold(key);
    MinorTriadKeys();
    var notes := MajorKeyNotes[key];
    MajorRowSpelled(key);
    NotDiminishedName(notes[4], "");
    assert notes[4] + "" == notes[4];
    TriadColumnMatch(key, notes[4], 4, baseQuality);
  }

  /** The diminished triad on the seventh degree of a key's major scale is read
      in root position as the key's viio. */
  lemma LeadingToneTriadIsSecondary(key: string, baseQuality: Quality)
    requires key in MajorChordKeys && key in MinorChordKeys && TakesApplied(baseQuality)
    ensures key in MajorKeyNotes && |MajorKeyNotes[key]| == 7
    ensures SecondaryDominantNumeral(MajorKeyNotes[key][6] + "o", 0, false, key, baseQuality) == Ok("viio")
  {
    DominantColumnsHold(key);
    MinorTriadKeys();
    var notes := MajorKeyNotes[key];
    MajorRowSpelled(key);
    NotDiminishedSeventhName(notes[6]);
    DiminishedNameIsNoSpelling(notes[6], notes[4]);
    TriadColumnMatch(key, notes[6] + "o", 6, baseQuality);
  }

  lemma DiminishedNameIsNoSpelling(root: string, other: string)
    requires IsSpelling(other)
    ensures root + "o" != other
  {
    SpellingChars(other);
    assert (root + "o")[|root|] == 'o';
  }

  lemma MajorRowSpelled(key: string)
    requires key in MajorKeyNotes
    ensures ValidRow(MajorKeyNotes[key])
  {
    FlaskTheory.MajorRowsSpell();
  }

  /** A root-position triad named in the V or vii column of the base key's triad table. */
  lemma TriadColumnMatch(key: string, name: string, column: nat, baseQuality: Quality)
    requires key in MajorKeyTriads && key in MinorKeyTriads && |MajorKeyTriads[key]| == 7
    requires column == 4 || column == 6
    requires name == MajorKeyTriads[key][column] && !Contains(name, "o7") && TakesApplied(baseQuality)
    requires column == 6 ==> name != MajorKeyTriads[key][4]
    ensures SecondaryDominantNumeral(name, 0, false, key, baseQuality) == Ok(if column == 4 then "V" else "viio")
  {
    assert InversionTriadStrings[0] == "";
    assert MajorKeyNumerals[4] + "" == "V" && MajorKeyNumerals[6] + "" == "viio";
  }

  /** The dominant seventh on the fifth degree of a key's major scale, named by
      root and '7', is read in any inversion as the key's V with its figure. */
  lemma DominantSeventhIsSecondary(key: string, position: int, baseQuality: Quality)
    requires key in MajorChordKeys && key in MinorChordKeys && TakesApplied(baseQuality)
    requires 0 <= position < 4
    ensures key in MajorKeyNotes && |MajorKeyNotes[key]| == 7
    ensures SecondaryDominantNumeral(MajorKeyNotes[key][4] + "7", position, true, key, baseQuality)
         == Ok("V" + InversionSeventhStrings[position])
  {
    DominantColumnsHold(key);
    MinorSeventhKeys();
    var notes := MajorKeyNotes[key];
    MajorRowSpelled(key);
    NotDiminishedName(notes[4], "7");
    SeventhColumnMatch(key, notes[4] + "7", 4, position, baseQuality);
  }

  /** The half-diminished seventh on the seventh degree of a key's major scale is
      read in any inversion as the key's viiø with its figure. */
  lemma LeadingToneSeventhIsSecondary(key: string, position: int, baseQuality: Quality)
    requires key in MajorChordKeys && key in MinorChordKeys && TakesApplied(baseQuality)
    requires 0 <= position < 4
    ensures key in MajorKeyNotes && |MajorKeyNotes[key]| == 7
    ensures SecondaryDominantNumeral(MajorKeyNotes[key][6] + "ø", position, true, key, baseQuality)
         == Ok("viiø" + InversionSeventhStrings[position])
  {
    DominantColumnsHold(key);
    MinorSeventhKeys();
    var notes := MajorKeyNotes[key];
    MajorRowSpelled(key);
    NotDiminishedName(notes[6], "ø");
    HalfDiminishedNameDiffers(notes[6], notes[4]);
    SeventhColumnMatch(key, notes[6] + "ø", 6, position, baseQuality);
  }

  lemma HalfDiminishedNameDiffers(root: string, other: string)
    requires IsSpelling(other)
    ensures root + "ø" != other + "7"
  {
    assert (root + "ø")[|root + "ø"| - 1] == 'ø';
  }

  /** A seventh chord named in the V or vii column of the base key's seventh table. */
  lemma SeventhColumnMatch(key: string, name: string, column: nat, position: int, baseQuality: Quality)
    requires key in MajorKeySevenths && key in MinorKeySevenths && |MajorKeySevenths[key]| == 7
    requires column == 4 || column == 6
    requires name == MajorKeySevenths[key][column] && !Contains(name, "o7") && TakesApplied(baseQuality)
    requires column == 6 ==> name != MajorKeySevenths[key][4]
    requires 0 <= position < 4
    ensures SecondaryDominantNumeral(name, position, true, key, baseQuality)
         == Ok((if column == 4 then "V" else "viiø") + InversionSeventhStrings[position])
  {
    assert MajorKeyNumerals[4] == "V";
  }

  /** The minor table's leading-tone seventh is always a name holding "o7", so a
      seventh chord that is not a diminished seventh is only ever read as V or viiø. */
  lemma SeventhByName(name: string, position: int, baseKey: string)
    requires !Contains(name, "o7")
    ensures var r := DominantByName(name, position, true, baseKey);
            r.Ok? && r.value != "" ==> r.value in ["V", "viiø"]
  {
    if baseKey in MinorKeySevenths {
      NotLeadingToneSeventh(name, baseKey);
    }
  }

  lemma NotLeadingToneSeventh(name: string, key: string)
    requires !Contains(name, "o7") && key in MinorKeySevenths
    ensures |MinorKeySevenths[key]| == 8 && name != MinorKeySevenths[key][7]
  {
    LeadingToneSevenths(key);
    var n := MinorKeySevenths[key][7];
    if name == n {
      ContainsAt(name, "o7", |name| - 2);
    }
  }

  /** So the minor table's viio7 branch is never taken: a secondary seventh chord is
      read as V or viiø with its figure. */
  lemma SeventhSecondaries(name: string, position: int, baseKey: string, baseQuality: Quality)
    requires !Contains(name, "o7")
    requires SecondaryDominantNumeral(name, position, true, baseKey, baseQuality).Ok?
    requires SecondaryDominantNumeral(name, position, true, baseKey, baseQuality).value != ""
    ensures 0 <= position + 4 && FigureFor(true, position).Ok?
    ensures SecondaryDominantNumeral(name, position, true, baseKey, baseQuality).value
            in ["V" + FigureFor(true, position).value, "viiø" + FigureFor(true, position).value]
  {
    SeventhByName(name, position, baseKey);
  }

  /** As written, the F row of the major triad table names its leading-tone triad
      "Ebo", so the diminished triad on E in F is not read as an applied viio. */
  lemma FLeadingToneTriadAsWritten()
    ensures DominantByNameIn(MajorKeyTriadsAsWritten, "Eo", 0, false, "F") == Ok("")
    ensures DominantByName("Eo", 0, false, "F") == Ok("viio")
  {
    MajorTriadKeys();
    MinorTriadKeys();
    assert MajorKeyTriadsAsWritten["F"][4] == "C" && MajorKeyTriadsAsWritten["F"][6] == "Ebo";
    assert MajorKeyTriads["F"][4] == "C" && MajorKeyTriads["F"][6] == "Eo";
  }

  /** The minor tables have no Db and Gb rows, so with a base chord in either key
      every chord not a diminished seventh raises a key error. */
  lemma MissingMinorKeyRaises(name: string, position: int, hasSeventh: bool, baseKey: string, baseQuality: Quality)
    requires baseKey == "Db" || baseKey == "Gb"
    requires TakesApplied(baseQuality) && !Contains(name, "o7")
    ensures SecondaryDominantNumeral(name, position, hasSeventh, baseKey, baseQuality) == Raise(KeyError)
  {
    MissingMinorRows(baseKey);
  }

  lemma MissingMinorRows(key: string)
    requires key == "Db" || key == "Gb"
    ensures key !in MinorKeyTriads && key !in MinorKeySevenths
  {
    MinorTriadKeys();
    MinorSeventhKeys();
    MissingMinorChordKeys();
  }

  lemma MissingMinorChordKeys()
    ensures "Db" !in MinorChordKeys && "Gb" !in MinorChordKeys
  {
  }
}
