// The theory functions of the web version (Flask/api/music_info.py): a key's
// scale row, the roman numeral of a chord in a key, the relation of a numeral
// to a key, applied and augmented-sixth numerals, and a note's degree and
// accidental in a key.
module FlaskTheory {
  import opened Py
  import opened Spelling
  import opened IntervalCodes
  import opened Scales

  /** MAJOR_KEY_NUMERALS as written. */
  const MajorKeyNumeralsAsWritten: seq<string> :=
    ["I", "ii", "iii", "IV", "V", "vi", "viio", "IM7", "ii7", "iiim7", "IVM7", "V7", "vi7", "viiø", "viio7"]

  /** MAJOR_KEY_NUMERALS with the mediant seventh written the way numerals are
      built ("iii7"; the code never produces "iiim7"). */
  const MajorKeyNumerals: seq<string> :=
    ["I", "ii", "iii", "IV", "V", "vi", "viio", "IM7", "ii7", "iii7", "IVM7", "V7", "vi7", "viiø", "viio7"]

  const MajorMixtureNumerals: seq<string> :=
    ["i", "iio", "bIII", "iv", "v", "bVI", "bVII", "i7", "iiø", "bIIIM7", "iv7", "v7", "bVIM7", "bVII7"]

  const MinorKeyNumerals: seq<string> :=
    ["i", "iio", "III", "iv", "v", "VI", "VII", "i7", "iiø", "IIIM7", "iv7", "v7", "VIM7", "VII7"]

  const MinorMixtureNumerals: seq<string> :=
    ["I", "ii", "#iii", "IV", "V", "#vi", "viio", "IM7", "ii7", "#iii7", "IVM7", "V7", "#vi7", "viiø", "viio7"]

  /** The 18 tonics both key tables hold. */
  const KeyNames: set<string> :=
    {"Cb", "C", "C#", "Db", "D", "D#", "Eb", "E", "F", "F#", "Gb", "G", "G#", "Ab", "A", "A#", "Bb", "B"}

  /** The triad and seventh-chord qualities on the degrees of a major and of a natural minor scale. */
  const MajorTriads: seq<Quality> := [Major, Minor, Minor, Major, Major, Minor, Diminished]
  const MinorTriads: seq<Quality> := [Minor, Diminished, Major, Minor, Minor, Major, Major]
  const MajorSevenths: seq<Quality> := [Major7, Minor7, Minor7, Major7, Dominant7, Minor7, HalfDiminished7]
  const MinorSevenths: seq<Quality> := [Minor7, HalfDiminished7, Major7, Minor7, Minor7, Major7, Dominant7]

  /** MAJOR_KEY_NOTES: the major scale on each of the 18 tonics. */
  const MajorKeyNotes: map<string, seq<string>> := map[
    "Cb" := ["Cb", "Db", "Eb", "Fb", "Gb", "Ab", "Bb"],
    "C" := ["C", "D", "E", "F", "G", "A", "B"],
    "C#" := ["C#", "D#", "E#", "F#", "G#", "A#", "B#"],
    "Db" := ["Db", "Eb", "F", "Gb", "Ab", "Bb", "C"],
    "D" := ["D", "E", "F#", "G", "A", "B", "C#"],
    "D#" := ["D#", "E#", "Fx", "G#", "A#", "B#", "Cx"],
    "Eb" := ["Eb", "F", "G", "Ab", "Bb", "C", "D"],
    "E" := ["E", "F#", "G#", "A", "B", "C#", "D#"],
    "F" := ["F", "G", "A", "Bb", "C", "D", "E"],
    "F#" := ["F#", "G#", "A#", "B", "C#", "D#", "E#"],
    "Gb" := ["Gb", "Ab", "Bb", "Cb", "Db", "Eb", "F"],
    "G" := ["G", "A", "B", "C", "D", "E", "F#"],
    "G#" := ["G#", "A#", "B#", "C#", "D#", "E#", "Fx"],
    "Ab" := ["Ab", "Bb", "C", "Db", "Eb", "F", "G"],
    "A" := ["A", "B", "C#", "D", "E", "F#", "G#"],
    "A#" := ["A#", "B#", "Cx", "D#", "E#", "Fx", "Gx"],
    "Bb" := ["Bb", "C", "D", "Eb", "F", "G", "A"],
    "B" := ["B", "C#", "D#", "E", "F#", "G#", "A#"]
  ]

  /** MINOR_KEY_NOTES as written. */
  const MinorKeyNotesAsWritten: map<string, seq<string>> := map[
    "Cb" := ["Db", "Ebb", "Fb", "Gb", "Abb", "Bbb", "Cb"],
    "C" := ["C", "D", "Eb", "F", "G", "Ab", "Bb"],
    "C#" := ["C#", "D#", "E", "F#", "G#", "A", "B"],
    "Db" := ["Db", "Eb", "Fb", "Gb", "Ab", "Bbb", "Cb"],
    "D" := ["D", "E", "F", "G", "A", "Bb", "C"],
    "D#" := ["D#", "E#", "F#", "G#", "A#", "B", "C#"],
    "Eb" := ["Eb", "Fb", "Gb", "Ab", "Bb", "Cb", "Db"],
    "E" := ["E", "F#", "G", "A", "B", "C", "D"],
    "F" := ["F", "G", "Ab", "Bb", "C", "Db", "Eb"],
    "F#" := ["F#", "G#", "A", "B", "C#", "D", "E"],
    "Gb" := ["Db", "Ebb", "Fb", "Gb", "Ab", "Bbb", "Cb"],
    "G" := ["G", "A", "Bb", "C", "D", "Eb", "F"],
    "G#" := ["G#", "A#", "B", "C#", "D#", "E", "F#"],
    "Ab" := ["Ab", "Bb", "Cb", "Db", "Eb", "Fb", "Gb"],
    "A" := ["A", "B", "C", "D", "E", "F", "G"],
    "A#" := ["A#", "B#", "C#", "D#", "E#", "F#", "G#"],
    "Bb" := ["Bb", "C", "Db", "Eb", "F", "Gb", "Ab"],
    "B" := ["B", "C#", "D", "E", "F#", "G", "A"]
  ]

  /** MINOR_KEY_NOTES with the Cb, Gb and Eb rows spelled as the natural minor scale (as written, the Cb and Gb rows both start on Db with scrambled spellings, and Eb minor has Fb for F). */
  const MinorKeyNotes: map<string, seq<string>> := map[
    "Cb" := ["Cb", "Db", "Ebb", "Fb", "Gb", "Abb", "Bbb"],
    "C" := ["C", "D", "Eb", "F", "G", "Ab", "Bb"],
    "C#" := ["C#", "D#", "E", "F#", "G#", "A", "B"],
    "Db" := ["Db", "Eb", "Fb", "Gb", "Ab", "Bbb", "Cb"],
    "D" := ["D", "E", "F", "G", "A", "Bb", "C"],
    "D#" := ["D#", "E#", "F#", "G#", "A#", "B", "C#"],
    "Eb" := ["Eb", "F", "Gb", "Ab", "Bb", "Cb", "Db"],
    "E" := ["E", "F#", "G", "A", "B", "C", "D"],
    "F" := ["F", "G", "Ab", "Bb", "C", "Db", "Eb"],
    "F#" := ["F#", "G#", "A", "B", "C#", "D", "E"],
    "Gb" := ["Gb", "Ab", "Bbb", "Cb", "Db", "Ebb", "Fb"],
    "G" := ["G", "A", "Bb", "C", "D", "Eb", "F"],
    "G#" := ["G#", "A#", "B", "C#", "D#", "E", "F#"],
    "Ab" := ["Ab", "Bb", "Cb", "Db", "Eb", "Fb", "Gb"],
    "A" := ["A", "B", "C", "D", "E", "F", "G"],
    "A#" := ["A#", "B#", "C#", "D#", "E#", "F#", "G#"],
    "Bb" := ["Bb", "C", "Db", "Eb", "F", "Gb", "Ab"],
    "B" := ["B", "C#", "D", "E", "F#", "G", "A"]
  ]

  /** Every major row spells the major scale on its tonic. */
  lemma MajorRowsSpell()
    ensures RowsSpell(MajorKeyNotes, MajorSteps)
  {
    forall t | t in MajorKeyNotes
      ensures SpellsScale(t, MajorKeyNotes[t], MajorSteps)
    {
      if t in {"Cb", "C", "C#", "Db"} {
        MajorRowsFromCFlat(t);
      } else if t in {"D", "D#", "Eb", "E"} {
        MajorRowsFromD(t);
      } else if t in {"F", "F#", "Gb", "G"} {
        MajorRowsFromF(t);
      } else {
        MajorRowsFromGSharp(t);
      }
    }
  }

  /** The rows from Cb to Db. */
  lemma MajorRowsFromCFlat(t: string)
    requires t in {"Cb", "C", "C#", "Db"} && t in MajorKeyNotes
    ensures SpellsScale(t, MajorKeyNotes[t], MajorSteps)
  {
    if t == "Cb" { MajorRowCFlat();
    } else if t == "C" { MajorRowC();
    } else if t == "C#" { MajorRowCSharp();
    } else if t == "Db" { MajorRowDFlat();
    }
  }

  /** The rows from D to E. */
  lemma MajorRowsFromD(t: string)
    requires t in {"D", "D#", "Eb", "E"} && t in MajorKeyNotes
    ensures SpellsScale(t, MajorKeyNotes[t], MajorSteps)
  {
    if t == "D" { MajorRowD();
    } else if t == "D#" { MajorRowDSharp();
    } else if t == "Eb" { MajorRowEFlat();
    } else if t == "E" { MajorRowE();
    }
  }

  /** The rows from F to G. */
  lemma MajorRowsFromF(t: string)
    requires t in {"F", "F#", "Gb", "G"} && t in MajorKeyNotes
    ensures SpellsScale(t, MajorKeyNotes[t], MajorSteps)
  {
    if t == "F" { MajorRowF();
    } else if t == "F#" { MajorRowFSharp();
    } else if t == "Gb" { MajorRowGFlat();
    } else if t == "G" { MajorRowG();
    }
  }

  /** The rows from G# to B. */
  lemma MajorRowsFromGSharp(t: string)
    requires t in {"G#", "Ab", "A", "A#", "Bb", "B"} && t in MajorKeyNotes
    ensures SpellsScale(t, MajorKeyNotes[t], MajorSteps)
  {
    if t == "G#" { MajorRowGSharp();
    } else if t == "Ab" { MajorRowAFlat();
    } else if t == "A" { MajorRowA();
    } else if t == "A#" { MajorRowASharp();
    } else if t == "Bb" { MajorRowBFlat();
    } else if t == "B" { MajorRowB();
    }
  }

  lemma MajorRowCFlat()
    ensures SpellsScale("Cb", ["Cb", "Db", "Eb", "Fb", "Gb", "Ab", "Bb"], MajorSteps)
  {
    SpellsScaleByDegrees("Cb", MajorSteps, "Db", "Eb", "Fb", "Gb", "Ab", "Bb");
  }

  lemma MajorRowC()
    ensures SpellsScale("C", ["C", "D", "E", "F", "G", "A", "B"], MajorSteps)
  {
    SpellsScaleByDegrees("C", MajorSteps, "D", "E", "F", "G", "A", "B");
  }

  lemma MajorRowCSharp()
    ensures SpellsScale("C#", ["C#", "D#", "E#", "F#", "G#", "A#", "B#"], MajorSteps)
  {
    SpellsScaleByDegrees("C#", MajorSteps, "D#", "E#", "F#", "G#", "A#", "B#");
  }

  lemma MajorRowDFlat()
    ensures SpellsScale("Db", ["Db", "Eb", "F", "Gb", "Ab", "Bb", "C"], MajorSteps)
  {
    SpellsScaleByDegrees("Db", MajorSteps, "Eb", "F", "Gb", "Ab", "Bb", "C");
  }

  lemma MajorRowD()
    ensures SpellsScale("D", ["D", "E", "F#", "G", "A", "B", "C#"], MajorSteps)
  {
    SpellsScaleByDegrees("D", MajorSteps, "E", "F#", "G", "A", "B", "C#");
  }

  lemma MajorRowDSharp()
    ensures SpellsScale("D#", ["D#", "E#", "Fx", "G#", "A#", "B#", "Cx"], MajorSteps)
  {
    SpellsScaleByDegrees("D#", MajorSteps, "E#", "Fx", "G#", "A#", "B#", "Cx");
  }

  lemma MajorRowEFlat()
    ensures SpellsScale("Eb", ["Eb", "F", "G", "Ab", "Bb", "C", "D"], MajorSteps)
  {
    SpellsScaleByDegrees("Eb", MajorSteps, "F", "G", "Ab", "Bb", "C", "D");
  }

  lemma MajorRowE()
    ensures SpellsScale("E", ["E", "F#", "G#", "A", "B", "C#", "D#"], MajorSteps)
  {
    SpellsScaleByDegrees("E", MajorSteps, "F#", "G#", "A", "B", "C#", "D#");
  }

  lemma MajorRowF()
    ensures SpellsScale("F", ["F", "G", "A", "Bb", "C", "D", "E"], MajorSteps)
  {
    SpellsScaleByDegrees("F", MajorSteps, "G", "A", "Bb", "C", "D", "E");
  }

  lemma MajorRowFSharp()
    ensures SpellsScale("F#", ["F#", "G#", "A#", "B", "C#", "D#", "E#"], MajorSteps)
  {
    SpellsScaleByDegrees("F#", MajorSteps, "G#", "A#", "B", "C#", "D#", "E#");
  }

  lemma MajorRowGFlat()
    ensures SpellsScale("Gb", ["Gb", "Ab", "Bb", "Cb", "Db", "Eb", "F"], MajorSteps)
  {
    SpellsScaleByDegrees("Gb", MajorSteps, "Ab", "Bb", "Cb", "Db", "Eb", "F");
  }

  lemma MajorRowG()
    ensures SpellsScale("G", ["G", "A", "B", "C", "D", "E", "F#"], MajorSteps)
  {
    SpellsScaleByDegrees("G", MajorSteps, "A", "B", "C", "D", "E", "F#");
  }

  lemma MajorRowGSharp()
    ensures SpellsScale("G#", ["G#", "A#", "B#", "C#", "D#", "E#", "Fx"], MajorSteps)
  {
    SpellsScaleByDegrees("G#", MajorSteps, "A#", "B#", "C#", "D#", "E#", "Fx");
  }

  lemma MajorRowAFlat()
    ensures SpellsScale("Ab", ["Ab", "Bb", "C", "Db", "Eb", "F", "G"], MajorSteps)
  {
    SpellsScaleByDegrees("Ab", MajorSteps, "Bb", "C", "Db", "Eb", "F", "G");
  }

  lemma MajorRowA()
    ensures SpellsScale("A", ["A", "B", "C#", "D", "E", "F#", "G#"], MajorSteps)
  {
    SpellsScaleByDegrees("A", MajorSteps, "B", "C#", "D", "E", "F#", "G#");
  }

  lemma MajorRowASharp()
    ensures SpellsScale("A#", ["A#", "B#", "Cx", "D#", "E#", "Fx", "Gx"], MajorSteps)
  {
    SpellsScaleByDegrees("A#", MajorSteps, "B#", "Cx", "D#", "E#", "Fx", "Gx");
  }

  lemma MajorRowBFlat()
    ensures SpellsScale("Bb", ["Bb", "C", "D", "Eb", "F", "G", "A"], MajorSteps)
  {
    SpellsScaleByDegrees("Bb", MajorSteps, "C", "D", "Eb", "F", "G", "A");
  }

  lemma MajorRowB()
    ensures SpellsScale("B", ["B", "C#", "D#", "E", "F#", "G#", "A#"], MajorSteps)
  {
    SpellsScaleByDegrees("B", MajorSteps, "C#", "D#", "E", "F#", "G#", "A#");
  }

  /** Every minor row spells the natural minor scale on its tonic. */
  lemma MinorRowsSpell()
    ensures RowsSpell(MinorKeyNotes, MinorSteps)
  {
    forall t | t in MinorKeyNotes
      ensures SpellsScale(t, MinorKeyNotes[t], MinorSteps)
    {
      if t in {"Cb", "C", "C#", "Db"} {
        MinorRowsFromCFlat(t);
      } else if t in {"D", "D#", "Eb", "E"} {
        MinorRowsFromD(t);
      } else if t in {"F", "F#", "Gb", "G"} {
        MinorRowsFromF(t);
      } else {
        MinorRowsFromGSharp(t);
      }
    }
  }

  /** The rows from Cb to Db. */
  lemma MinorRowsFromCFlat(t: string)
    requires t in {"Cb", "C", "C#", "Db"} && t in MinorKeyNotes
    ensures SpellsScale(t, MinorKeyNotes[t], MinorSteps)
  {
    if t == "Cb" { MinorRowCFlat();
    } else if t == "C" { MinorRowC();
    } else if t == "C#" { MinorRowCSharp();
    } else if t == "Db" { MinorRowDFlat();
    }
  }

  /** The rows from D to E. */
  lemma MinorRowsFromD(t: string)
    requires t in {"D", "D#", "Eb", "E"} && t in MinorKeyNotes
    ensures SpellsScale(t, MinorKeyNotes[t], MinorSteps)
  {
    if t == "D" { MinorRowD();
    } else if t == "D#" { MinorRowDSharp();
    } else if t == "Eb" { MinorRowEFlat();
    } else if t == "E" { MinorRowE();
    }
  }

  /** The rows from F to G. */
  lemma MinorRowsFromF(t: string)
    requires t in {"F", "F#", "Gb", "G"} && t in MinorKeyNotes
    ensures SpellsScale(t, MinorKeyNotes[t], MinorSteps)
  {
    if t == "F" { MinorRowF();
    } else if t == "F#" { MinorRowFSharp();
    } else if t == "Gb" { MinorRowGFlat();
    } else if t == "G" { MinorRowG();
    }
  }

  /** The rows from G# to B. */
  lemma MinorRowsFromGSharp(t: string)
    requires t in {"G#", "Ab", "A", "A#", "Bb", "B"} && t in MinorKeyNotes
    ensures SpellsScale(t, MinorKeyNotes[t], MinorSteps)
  {
    if t == "G#" { MinorRowGSharp();
    } else if t == "Ab" { MinorRowAFlat();
    } else if t == "A" { MinorRowA();
    } else if t == "A#" { MinorRowASharp();
    } else if t == "Bb" { MinorRowBFlat();
    } else if t == "B" { MinorRowB();
    }
  }

  lemma MinorRowCFlat()
    ensures SpellsScale("Cb", ["Cb", "Db", "Ebb", "Fb", "Gb", "Abb", "Bbb"], MinorSteps)
  {
    SpellsScaleByDegrees("Cb", MinorSteps, "Db", "Ebb", "Fb", "Gb", "Abb", "Bbb");
  }

  lemma MinorRowC()
    ensures SpellsScale("C", ["C", "D", "Eb", "F", "G", "Ab", "Bb"], MinorSteps)
  {
    SpellsScaleByDegrees("C", MinorSteps, "D", "Eb", "F", "G", "Ab", "Bb");
  }

  lemma MinorRowCSharp()
    ensures SpellsScale("C#", ["C#", "D#", "E", "F#", "G#", "A", "B"], MinorSteps)
  {
    SpellsScaleByDegrees("C#", MinorSteps, "D#", "E", "F#", "G#", "A", "B");
  }

  lemma MinorRowDFlat()
    ensures SpellsScale("Db", ["Db", "Eb", "Fb", "Gb", "Ab", "Bbb", "Cb"], MinorSteps)
  {
    SpellsScaleByDegrees("Db", MinorSteps, "Eb", "Fb", "Gb", "Ab", "Bbb", "Cb");
  }

  lemma MinorRowD()
    ensures SpellsScale("D", ["D", "E", "F", "G", "A", "Bb", "C"], MinorSteps)
  {
    SpellsScaleByDegrees("D", MinorSteps, "E", "F", "G", "A", "Bb", "C");
  }

  lemma MinorRowDSharp()
    ensures SpellsScale("D#", ["D#", "E#", "F#", "G#", "A#", "B", "C#"], MinorSteps)
  {
    SpellsScaleByDegrees("D#", MinorSteps, "E#", "F#", "G#", "A#", "B", "C#");
  }

  lemma MinorRowEFlat()
    ensures SpellsScale("Eb", ["Eb", "F", "Gb", "Ab", "Bb", "Cb", "Db"], MinorSteps)
  {
    SpellsScaleByDegrees("Eb", MinorSteps, "F", "Gb", "Ab", "Bb", "Cb", "Db");
  }

  lemma MinorRowE()
    ensures SpellsScale("E", ["E", "F#", "G", "A", "B", "C", "D"], MinorSteps)
  {
    SpellsScaleByDegrees("E", MinorSteps, "F#", "G", "A", "B", "C", "D");
  }

  lemma MinorRowF()
    ensures SpellsScale("F", ["F", "G", "Ab", "Bb", "C", "Db", "Eb"], MinorSteps)
  {
    SpellsScaleByDegrees("F", MinorSteps, "G", "Ab", "Bb", "C", "Db", "Eb");
  }

  lemma MinorRowFSharp()
    ensures SpellsScale("F#", ["F#", "G#", "A", "B", "C#", "D", "E"], MinorSteps)
  {
    SpellsScaleByDegrees("F#", MinorSteps, "G#", "A", "B", "C#", "D", "E");
  }

  lemma MinorRowGFlat()
    ensures SpellsScale("Gb", ["Gb", "Ab", "Bbb", "Cb", "Db", "Ebb", "Fb"], MinorSteps)
  {
    SpellsScaleByDegrees("Gb", MinorSteps, "Ab", "Bbb", "Cb", "Db", "Ebb", "Fb");
  }

  lemma MinorRowG()
    ensures SpellsScale("G", ["G", "A", "Bb", "C", "D", "Eb", "F"], MinorSteps)
  {
    SpellsScaleByDegrees("G", MinorSteps, "A", "Bb", "C", "D", "Eb", "F");
  }

  lemma MinorRowGSharp()
    ensures SpellsScale("G#", ["G#", "A#", "B", "C#", "D#", "E", "F#"], MinorSteps)
  {
    SpellsScaleByDegrees("G#", MinorSteps, "A#", "B", "C#", "D#", "E", "F#");
  }

  lemma MinorRowAFlat()
    ensures SpellsScale("Ab", ["Ab", "Bb", "Cb", "Db", "Eb", "Fb", "Gb"], MinorSteps)
  {
    SpellsScaleByDegrees("Ab", MinorSteps, "Bb", "Cb", "Db", "Eb", "Fb", "Gb");
  }

  lemma MinorRowA()
    ensures SpellsScale("A", ["A", "B", "C", "D", "E", "F", "G"], MinorSteps)
  {
    SpellsScaleByDegrees("A", MinorSteps, "B", "C", "D", "E", "F", "G");
  }

  lemma MinorRowASharp()
    ensures SpellsScale("A#", ["A#", "B#", "C#", "D#", "E#", "F#", "G#"], MinorSteps)
  {
    SpellsScaleByDegrees("A#", MinorSteps, "B#", "C#", "D#", "E#", "F#", "G#");
  }

  lemma MinorRowBFlat()
    ensures SpellsScale("Bb", ["Bb", "C", "Db", "Eb", "F", "Gb", "Ab"], MinorSteps)
  {
    SpellsScaleByDegrees("Bb", MinorSteps, "C", "Db", "Eb", "F", "Gb", "Ab");
  }

  lemma MinorRowB()
    ensures SpellsScale("B", ["B", "C#", "D", "E", "F#", "G", "A"], MinorSteps)
  {
    SpellsScaleByDegrees("B", MinorSteps, "C#", "D", "E", "F#", "G", "A");
  }

  // ---------------------------------------------------------------------
  // Scale rows (__get_notes_for_key)

  /** A key written with a capital letter is major; any other is the minor key of its capitalised tonic. */
  predicate IsMajorKey(key: string)
  {
    |key| > 0 && IsUpper(key[0])
  }

  function KeySteps(key: string): (steps: seq<int>)
    ensures |steps| == 7
  {
    if IsMajorKey(key) then MajorSteps else MinorSteps
  }

  /** The three tables are keyed by exactly the 18 key names. */
  lemma TablesKeyedByKeyNames()
    ensures MajorKeyNotes.Keys == KeyNames
    ensures MinorKeyNotes.Keys == KeyNames
    ensures MinorKeyNotesAsWritten.Keys == KeyNames
  {
  }

  /** __get_notes_for_key: the row of the key's table; IndexError for an empty key and
      KeyError for a tonic the table lacks. */
  function NotesForKey(key: string): (r: Outcome<seq<string>>)
    ensures key == [] ==> r == Raise(IndexError)
    ensures key != [] ==> (r.Ok? <==> Capitalise(key) in KeyNames)
    ensures key != [] && r.Raise? ==> r.error == KeyError
    ensures r.Ok? ==> SpellsScale(Capitalise(key), r.value, KeySteps(key))
  {
    TablesKeyedByKeyNames();
    if key == [] then Raise(IndexError)
    else if IsUpper(key[0]) then
      CapitaliseIdentity(key);
      MajorRowsSpell();
      if key in MajorKeyNotes then Ok(MajorKeyNotes[key]) else Raise(KeyError)
    else
      var tonic := Capitalise(key);
      MinorRowsSpell();
      if tonic in MinorKeyNotes then Ok(MinorKeyNotes[tonic]) else Raise(KeyError)
  }

  /** The scale row as the code holds it, with its three miscopied minor rows. */
  function NotesForKeyAsWritten(key: string): Outcome<seq<string>>
  {
    if key == [] then Raise(IndexError)
    else if IsUpper(key[0]) then
      if key in MajorKeyNotes then Ok(MajorKeyNotes[key]) else Raise(KeyError)
    else
      var tonic := Capitalise(key);
      if tonic in MinorKeyNotesAsWritten then Ok(MinorKeyNotesAsWritten[tonic]) else Raise(KeyError)
  }

  // ---------------------------------------------------------------------
  // Inversion figures (__strip_inversion_string)

  /** A seventh-chord figure somewhere in the numeral. */
  predicate HasSeventhFigure(numeral: string)
  {
    Contains(numeral, "6/5") || Contains(numeral, "4/3") || Contains(numeral, "4/2")
  }

  /** A seventh figure is replaced by '7' (nothing for a half-diminished numeral, whose 'ø' implies the seventh). */
  function StripSeventhFigure(numeral: string): string
  {
    var stripped := DropLast(numeral, 3);
    if 'ø' !in numeral then stripped + "7" else stripped
  }

  /** __strip_inversion_string as written: a '6' anywhere drops one character, so
      the second-inversion figure "6/4" leaves "6/" behind. */
  function StripInversionAsWritten(numeral: string): string
  {
    if HasSeventhFigure(numeral) then StripSeventhFigure(numeral)
    else if Contains(numeral, "6") || Contains(numeral, "6/4") then DropLast(numeral, 1)
    else numeral
  }

  /** __strip_inversion_string with "6/4" checked before "6", so each triad figure
      is dropped whole. */
  function StripInversion(numeral: string): string
  {
    if HasSeventhFigure(numeral) then StripSeventhFigure(numeral)
    else if Contains(numeral, "6/4") then DropLast(numeral, 3)
    else if Contains(numeral, "6") then DropLast(numeral, 1)
    else numeral
  }

  // ---------------------------------------------------------------------
  // Numerals (identify_chord_numeral_for_key)

  /** CHORD_QUALITY_STRINGS: the decoration a quality adds after the numeral ('' by default). */
  function QualityDecoration(q: Quality): string
  {
    match q
      case Diminished => "o"
      case Augmented => "+"
      case Sus2 => "sus2"
      case Sus4 => "sus4"
      case Flat5 => "b5"
      case Major7 => "M"
      case MinorMajor7 => "M7"
      case HalfDiminished7 => "ø"
      case Diminished7 => "o"
      case Dominant7Flat5 => "7b5"
      case _ => ""
  }

  /** The qualities written with a lower-case numeral. */
  predicate LowersNumeral(q: Quality)
  {
    q == Minor || q == Minor7 || q == HalfDiminished7 || q == Diminished || q == Diminished7 || q == MinorMajor7
  }

  /** The inversion figure for a position: triad and seventh qualities index their
      figure list (Python indexing, so -1 is the last figure), the others take none. */
  function Figure(q: Quality, position: int): (r: Outcome<string>)
    ensures IsTriadQuality(q) ==> (r.Ok? <==> -3 <= position < 3)
    ensures IsSeventhQuality(q) ==> (r.Ok? <==> -4 <= position < 4)
    ensures !IsTriadQuality(q) && !IsSeventhQuality(q) ==> r == Ok("")
    ensures r.Raise? ==> r.error == IndexError
  {
    if IsTriadQuality(q) then Index(InversionTriadStrings, position)
    else if IsSeventhQuality(q) then Index(InversionSeventhStrings, position)
    else Ok("")
  }

  /** Steps 3-4 of identify_chord_numeral_for_key: case, quality decoration and
      inversion figure; a root-position half-diminished seventh loses its '7'. */
  function Decorate(base: string, q: Quality, position: int): (r: Outcome<string>)
    ensures r.Ok? <==> Figure(q, position).Ok?
  {
    var cased := if LowersNumeral(q) then Lower(base) else base;
    var figure :- Figure(q, position);
    var numeral := cased + QualityDecoration(q) + figure;
    if q == HalfDiminished7 && position == 0 then Ok(DropLast(numeral, 1)) else Ok(numeral)
  }

  /** identify_chord_numeral_for_key for a chord of the given root, quality and
      position: the errors of the key lookup, KeyError for a root that is neither
      in the row nor a spelling, IndexError for a position without a figure. */
  function ChordNumeral(key: string, root: string, q: Quality, position: int): (r: Outcome<string>)
    ensures NotesForKey(key).Raise? ==> r == Raise(NotesForKey(key).error)
    ensures NotesForKey(key).Ok? ==>
              (r.Ok? <==> (root in NotesForKey(key).value || NoteIndex(root).Some?) && Figure(q, position).Ok?)
    ensures NotesForKey(key).Ok? && r.Raise? && Figure(q, position).Ok? ==> r.error == KeyError
  {
    var notes :- NotesForKey(key);
    var base :- NumeralBase(notes, root);
    Decorate(base, q, position)
  }

  /** identify_chord_numeral_for_key, with its search loops. */
  method IdentifyChordNumeral(key: string, root: string, q: Quality, position: int) returns (r: Outcome<string>)
    ensures r == ChordNumeral(key, root, q, position)
  {
    var notes := NotesForKey(key);
    if notes.Raise? {
      return Raise(notes.error);
    }
    var base := FindNumeralBase(notes.value, root);
    if base.Raise? {
      return Raise(base.error);
    }
    r := Decorate(base.value, q, position);
  }

  /** The figures of a table record always exist: every record a chord is
      identified with gives a numeral once its root is known. */
  lemma TableFigures(info: ChordInfo)
    requires 0 <= info.position <= 3 && (IsTriadQuality(info.quality) ==> info.position <= 2)
    ensures Figure(info.quality, info.position).Ok?
  {
  }

  /** The chords built on the degrees of a key get the degree's plain numeral:
      upper case for a major triad, lower case for a minor one, with a '7' for a dominant seventh. */
  lemma DegreeNumerals(key: string, d: nat)
    requires NotesForKey(key).Ok? && d < 7
    ensures ChordNumeral(key, NotesForKey(key).value[d], Major, 0) == Ok(NumeralStrings[d])
    ensures ChordNumeral(key, NotesForKey(key).value[d], Minor, 0) == Ok(Lower(NumeralStrings[d]))
    ensures ChordNumeral(key, NotesForKey(key).value[d], Dominant7, 0) == Ok(NumeralStrings[d] + "7")
  {
    var notes := NotesForKey(key).value;
    ScaleNoteDegree(Capitalise(key), notes, KeySteps(key), d);
    var base := NumeralStrings[d];
    ChordNumeralOfBase(key, notes[d], Major, 0);
    ChordNumeralOfBase(key, notes[d], Minor, 0);
    ChordNumeralOfBase(key, notes[d], Dominant7, 0);
    RootPositionNumerals(base);
  }

  /** The chord on degree d of a key takes that degree's numeral, decorated. */
  lemma DegreeChordNumeral(key: string, d: nat, q: Quality, position: int)
    requires NotesForKey(key).Ok? && d < 7
    ensures ChordNumeral(key, NotesForKey(key).value[d], q, position) == Decorate(NumeralStrings[d], q, position)
  {
    var notes := NotesForKey(key).value;
    ScaleNoteDegree(Capitalise(key), notes, KeySteps(key), d);
    ChordNumeralOfBase(key, notes[d], q, position);
  }

  /** Once the root has a numeral base in the key, the chord's numeral is that base decorated. */
  lemma ChordNumeralOfBase(key: string, root: string, q: Quality, position: int)
    requires NotesForKey(key).Ok? && NumeralBase(NotesForKey(key).value, root).Ok?
    ensures ChordNumeral(key, root, q, position) == Decorate(NumeralBase(NotesForKey(key).value, root).value, q, position)
  {
  }

  /** Root-position major, minor and dominant-seventh decorations of a numeral base. */
  lemma RootPositionNumerals(base: string)
    ensures Decorate(base, Major, 0) == Ok(base)
    ensures Decorate(base, Minor, 0) == Ok(Lower(base))
    ensures Decorate(base, Dominant7, 0) == Ok(base + "7")
  {
    assert base + "" + "" == base;
    assert Lower(base) + "" + "" == Lower(base);
    assert base + "" + "7" == base + "7";
  }

  // ---------------------------------------------------------------------
  // Stripping a built numeral

  /** The decoration of a triad or seventh quality holds no figure character, and 'ø' only for the half-diminished seventh. */
  lemma DecorationLacks(q: Quality)
    requires IsTriadQuality(q) || IsSeventhQuality(q)
    ensures var d := QualityDecoration(q);
            '6' !in d && '5' !in d && '4' !in d && '3' !in d && '2' !in d && '/' !in d
            && ('ø' in d <==> q == HalfDiminished7)
  {
  }

  /** The characters the inversion figures and 'ø' are told apart by; none occurs
      in a cased numeral base followed by a triad or seventh decoration. */
  lemma StemLacks(base: string, q: Quality)
    requires NumeralChars(base) && (IsTriadQuality(q) || IsSeventhQuality(q))
    ensures var stem := (if LowersNumeral(q) then Lower(base) else base) + QualityDecoration(q);
            '6' !in stem && '5' !in stem && '4' !in stem && '3' !in stem && '2' !in stem && '/' !in stem
            && ('ø' in stem <==> q == HalfDiminished7)
  {
    var cased := if LowersNumeral(q) then Lower(base) else base;
    LowerNumeralChars(base);
    CasedLacks(cased);
    DecorationLacks(q);
  }

  lemma CasedLacks(cased: string)
    requires NumeralChars(cased)
    ensures '6' !in cased && '5' !in cased && '4' !in cased && '3' !in cased && '2' !in cased && '/' !in cased
    ensures 'ø' !in cased
  {
    NumeralLacks(cased, '6');
    NumeralLacks(cased, '5');
    NumeralLacks(cased, '4');
    NumeralLacks(cased, '3');
    NumeralLacks(cased, '2');
    NumeralLacks(cased, '/');
    NumeralLacks(cased, 'ø');
  }

  /** A numeral with no figure characters is its own strip. */
  lemma StripPlain(n: string)
    requires '6' !in n && '4' !in n
    ensures StripInversion(n) == n
  {
    NotContainsChar(n, "6/5", 0);
    NotContainsChar(n, "4/3", 0);
    NotContainsChar(n, "4/2", 0);
    NotContainsChar(n, "6/4", 0);
    NotContainsChar(n, "6", 0);
  }

  /** A triad numeral in first or second inversion strips to its root-position numeral. */
  lemma StripTriadFigure(stem: string, figure: string)
    requires '6' !in stem && '5' !in stem && '4' !in stem && '3' !in stem && '2' !in stem && '/' !in stem
    requires figure == "6" || figure == "6/4"
    ensures StripInversion(stem + figure) == stem
  {
    var n := stem + figure;
    if figure == "6" {
      NotContainsChar(n, "6/5", 1);
      NotContainsChar(n, "4/3", 1);
      NotContainsChar(n, "4/2", 1);
      NotContainsChar(n, "6/4", 1);
      ContainsAt(n, "6", |stem|);
    } else {
      NotContainsChar(n, "6/5", 2);
      NotContainsChar(n, "4/3", 2);
      NotContainsChar(n, "4/2", 2);
      ContainsAt(n, "6/4", |stem|);
    }
    assert n[..|n| - |figure|] == stem;
  }

  /** A seventh numeral in an inversion strips to the stem plus '7' (just the stem when it holds 'ø'). */
  lemma StripSeventhOfStem(stem: string, figure: string)
    requires '6' !in stem && '5' !in stem && '4' !in stem && '3' !in stem && '2' !in stem && '/' !in stem
    requires figure == "6/5" || figure == "4/3" || figure == "4/2"
    ensures StripInversion(stem + figure) == if 'ø' !in stem then stem + "7" else stem
  {
    var n := stem + figure;
    assert HasSeventhFigure(n) by {
      if figure == "6/5" {
        ContainsAt(n, "6/5", |stem|);
      } else if figure == "4/3" {
        ContainsAt(n, "4/3", |stem|);
      } else {
        ContainsAt(n, "4/2", |stem|);
      }
    }
    assert DropLast(n, 3) == stem;
    assert 'ø' in n <==> 'ø' in stem by { assert 'ø' !in figure; }
  }

  /** Stripping a decorated numeral gives the root-position numeral of the same chord. */
  lemma StripDecorated(base: string, q: Quality, position: int)
    requires NumeralChars(base) && (IsTriadQuality(q) || IsSeventhQuality(q)) && 0 <= position
    requires Decorate(base, q, position).Ok?
    ensures Decorate(base, q, 0).Ok?
    ensures StripInversion(Decorate(base, q, position).value) == Decorate(base, q, 0).value
  {
    var stem := (if LowersNumeral(q) then Lower(base) else base) + QualityDecoration(q);
    StemLacks(base, q);
    var figure := Figure(q, position).value;
    if IsTriadQuality(q) {
      assert Decorate(base, q, 0).value == stem;
      if position == 0 {
        StripPlain(stem);
      } else {
        StripTriadFigure(stem, figure);
      }
    } else {
      if q == HalfDiminished7 {
        assert (stem + "7")[..|stem + "7"| - 1] == stem;
      }
      if position == 0 {
        StripPlain(Decorate(base, q, 0).value);
      } else {
        StripSeventhOfStem(stem, figure);
      }
    }
  }

  /** A chord's numeral in any inversion strips to its root-position numeral. */
  lemma StripNumeral(key: string, root: string, q: Quality, position: int)
    requires (IsTriadQuality(q) || IsSeventhQuality(q)) && 0 <= position
    requires ChordNumeral(key, root, q, position).Ok?
    ensures ChordNumeral(key, root, q, 0).Ok?
    ensures StripInversion(ChordNumeral(key, root, q, position).value) == ChordNumeral(key, root, q, 0).value
  {
    var notes := NotesForKey(key).value;
    NumeralBaseChars(notes, root);
    StripDecorated(NumeralBase(notes, root).value, q, position);
  }

  /** The code's strip leaves "6/" of a second-inversion figure, so "I6/4" is not "I". */
  lemma StripSecondInversionAsWritten()
    ensures StripInversionAsWritten("I6/4") == "I6/"
    ensures StripInversion("I6/4") == "I"
  {
    StripTriadFigure("I", "6/4");
    assert Contains("I6/4", "6") by { ContainsAt("I6/4", "6", 1); }
    assert !HasSeventhFigure("I6/4") by {
      NotContainsChar("I6/4", "6/5", 2);
      NotContainsChar("I6/4", "4/3", 2);
      NotContainsChar("I6/4", "4/2", 2);
    }
  }

  // ---------------------------------------------------------------------
  // Relation to a key (get_chord_relation_for_key)

  /** get_chord_relation_for_key: the stripped numeral looked up in the key's
      diatonic list, then its mixture list; IndexError for an empty key. */
  function ChordRelation(key: string, numeral: string): (r: Outcome<Relation>)
    ensures r.Raise? <==> key == []
    ensures r.Raise? ==> r.error == IndexError
    ensures r.Ok? ==> r.value != Applied && r.value != Other
  {
    var stripped := StripInversion(numeral);
    if key == [] then Raise(IndexError)
    else if IsUpper(key[0]) then Ok(RelationIn(MajorKeyNumerals, MajorMixtureNumerals, stripped))
    else Ok(RelationIn(MinorKeyNumerals, MinorMixtureNumerals, stripped))
  }

  /** get_chord_relation_for_key as written: its strip and its major-key list. */
  function ChordRelationAsWritten(key: string, numeral: string): Outcome<Relation>
  {
    var stripped := StripInversionAsWritten(numeral);
    if key == [] then Raise(IndexError)
    else if IsUpper(key[0]) then Ok(RelationIn(MajorKeyNumeralsAsWritten, MajorMixtureNumerals, stripped))
    else Ok(RelationIn(MinorKeyNumerals, MinorMixtureNumerals, stripped))
  }

  /** A chord has the same relation to a key in every inversion. */
  lemma RelationIgnoresInversion(key: string, root: string, q: Quality, position: int)
    requires (IsTriadQuality(q) || IsSeventhQuality(q)) && 0 <= position
    requires ChordNumeral(key, root, q, position).Ok?
    ensures ChordNumeral(key, root, q, 0).Ok?
    ensures ChordRelation(key, ChordNumeral(key, root, q, position).value)
         == ChordRelation(key, ChordNumeral(key, root, q, 0).value)
  {
    StripNumeral(key, root, q, position);
    StripNumeral(key, root, q, 0);
  }

  /** The root-position numerals built on the degrees of a major scale are its
      diatonic numerals: the triads first, then the seventh chords. */
  lemma MajorDegreeNumerals(d: nat, seventh: bool)
    requires d < 7
    ensures Decorate(NumeralStrings[d], if seventh then MajorSevenths[d] else MajorTriads[d], 0)
         == Ok(MajorKeyNumerals[if seventh then d + 7 else d])
  {
    if seventh {
      MajorSeventhNumeral(d);
    } else {
      MajorTriadNumeral(d);
    }
  }

  /** In root position a triad numeral carries no figure, a seventh numeral a '7'
      (none after a half-diminished 'ø'). */
  lemma RootDecoration(base: string, q: Quality)
    requires IsTriadQuality(q) || IsSeventhQuality(q)
    ensures Decorate(base, q, 0) == Ok((if LowersNumeral(q) then Lower(base) else base) + QualityDecoration(q)
                                       + (if IsSeventhQuality(q) && q != HalfDiminished7 then "7" else ""))
  {
    var cased := if LowersNumeral(q) then Lower(base) else base;
    if q == HalfDiminished7 {
      assert DropLast(cased + "ø" + "7", 1) == cased + "ø";
    } else if IsTriadQuality(q) {
      assert cased + QualityDecoration(q) + "" == cased + QualityDecoration(q);
    }
  }

  lemma MajorTriadNumeral(d: nat)
    requires d < 7
    ensures Decorate(NumeralStrings[d], MajorTriads[d], 0) == Ok(MajorKeyNumerals[d])
  {
    LowerNumerals();
    RootDecoration(NumeralStrings[d], MajorTriads[d]);
    assert NumeralStrings[d] + "" + "" == NumeralStrings[d];
    if d == 1 {
      assert "ii" + "" + "" == "ii";
    } else if d == 2 {
      assert "iii" + "" + "" == "iii";
    } else if d == 5 {
      assert "vi" + "" + "" == "vi";
    } else if d == 6 {
      assert "vii" + "o" + "" == "viio";
    }
  }

  lemma MajorSeventhNumeral(d: nat)
    requires d < 7
    ensures Decorate(NumeralStrings[d], MajorSevenths[d], 0) == Ok(MajorKeyNumerals[d + 7])
  {
    LowerNumerals();
    RootDecoration(NumeralStrings[d], MajorSevenths[d]);
    if d == 0 {
      assert "I" + "M" + "7" == "IM7";
    } else if d == 1 {
      assert "ii" + "" + "7" == "ii7";
    } else if d == 2 {
      assert "iii" + "" + "7" == "iii7";
    } else if d == 3 {
      assert "IV" + "M" + "7" == "IVM7";
    } else if d == 4 {
      assert "V" + "" + "7" == "V7";
    } else if d == 5 {
      assert "vi" + "" + "7" == "vi7";
    } else {
      assert "vii" + "ø" + "" == "viiø";
    }
  }

  /** The same for the natural minor scale. */
  lemma MinorDegreeNumerals(d: nat, seventh: bool)
    requires d < 7
    ensures Decorate(NumeralStrings[d], if seventh then MinorSevenths[d] else MinorTriads[d], 0)
         == Ok(MinorKeyNumerals[if seventh then d + 7 else d])
  {
    if seventh {
      MinorSeventhNumeral(d);
    } else {
      MinorTriadNumeral(d);
    }
  }

  lemma MinorTriadNumeral(d: nat)
    requires d < 7
    ensures Decorate(NumeralStrings[d], MinorTriads[d], 0) == Ok(MinorKeyNumerals[d])
  {
    LowerNumerals();
    RootDecoration(NumeralStrings[d], MinorTriads[d]);
    assert NumeralStrings[d] + "" + "" == NumeralStrings[d];
    if d == 0 {
      assert "i" + "" + "" == "i";
    } else if d == 3 {
      assert "iv" + "" + "" == "iv";
    } else if d == 4 {
      assert "v" + "" + "" == "v";
    } else if d == 1 {
      assert "ii" + "o" + "" == "iio";
    }
  }

  lemma MinorSeventhNumeral(d: nat)
    requires d < 7
    ensures Decorate(NumeralStrings[d], MinorSevenths[d], 0) == Ok(MinorKeyNumerals[d + 7])
  {
    LowerNumerals();
    RootDecoration(NumeralStrings[d], MinorSevenths[d]);
    if d == 0 {
      assert "i" + "" + "7" == "i7";
    } else if d == 1 {
      assert "ii" + "ø" + "" == "iiø";
    } else if d == 2 {
      assert "III" + "M" + "7" == "IIIM7";
    } else if d == 3 {
      assert "iv" + "" + "7" == "iv7";
    } else if d == 4 {
      assert "v" + "" + "7" == "v7";
    } else if d == 5 {
      assert "VI" + "M" + "7" == "VIM7";
    } else {
      assert "VII" + "" + "7" == "VII7";
    }
  }

  /** The triads and seventh chords a key's own scale builds, in any inversion, are diatonic to it. */
  lemma ScaleChordsAreDiatonic(key: string, d: nat, seventh: bool, position: int)
    requires NotesForKey(key).Ok? && d < 7
    requires 0 <= position < (if seventh then 4 else 3)
    ensures var q := if IsMajorKey(key) then (if seventh then MajorSevenths[d] else MajorTriads[d])
                     else (if seventh then MinorSevenths[d] else MinorTriads[d]);
            ChordNumeral(key, NotesForKey(key).value[d], q, position).Ok?
            && ChordRelation(key, ChordNumeral(key, NotesForKey(key).value[d], q, position).value) == Ok(Diatonic)
  {
    var root := NotesForKey(key).value[d];
    var q := if IsMajorKey(key) then (if seventh then MajorSevenths[d] else MajorTriads[d])
             else (if seventh then MinorSevenths[d] else MinorTriads[d]);
    ScaleQualities(d);
    DegreeChordNumeral(key, d, q, 0);
    if IsMajorKey(key) {
      MajorDegreeNumerals(d, seventh);
    } else {
      MinorDegreeNumerals(d, seventh);
    }
    StripNumeral(key, root, q, position);
  }

  /** The qualities on the scale degrees are triad and seventh qualities. */
  lemma ScaleQualities(d: nat)
    requires d < 7
    ensures IsTriadQuality(MajorTriads[d]) && IsTriadQuality(MinorTriads[d])
    ensures IsSeventhQuality(MajorSevenths[d]) && IsSeventhQuality(MinorSevenths[d])
  {
    assert d in {0, 1, 2, 3, 4, 5, 6};
  }

  /** As written, a second-inversion tonic of C major is reported chromatic. */
  lemma SecondInversionRelationAsWritten()
    ensures ChordRelationAsWritten("C", "I6/4") == Ok(Chromatic)
    ensures ChordRelation("C", "I6/4") == Ok(Diatonic)
  {
    StripSecondInversionAsWritten();
  }

  /** The row of C major. */
  lemma CMajorRow()
    ensures NotesForKey("C") == Ok(["C", "D", "E", "F", "G", "A", "B"])
  {
    assert IsUpper('C');
    assert Capitalise("C") == "C";
    MajorRowC();
  }

  /** The mediant seventh of C major is built as "iii7". */
  lemma MediantSeventhNumeral()
    ensures ChordNumeral("C", "E", Minor7, 0) == Ok("iii7")
  {
    CMediantNumeral();
    MinorSeventhOfIII();
  }

  /** E is the third degree of C major, so its chords decorate "III". */
  lemma CMediantNumeral()
    ensures ChordNumeral("C", "E", Minor7, 0) == Decorate("III", Minor7, 0)
  {
    CMajorRow();
    assert NotesForKey("C").value[2] == "E";
    DegreeChordNumeral("C", 2, Minor7, 0);
  }

  lemma MinorSeventhOfIII()
    ensures Decorate("III", Minor7, 0) == Ok("iii7")
  {
    RootDecoration("III", Minor7);
    LowerNumerals();
    assert "iii" + "" + "7" == "iii7";
  }

  /** As written, that numeral is reported chromatic to C major, because the
      seventh-chord list spells it "iiim7". */
  lemma MediantSeventhAsWritten()
    ensures ChordRelationAsWritten("C", "iii7") == Ok(Chromatic)
    ensures ChordRelation("C", "iii7") == Ok(Diatonic)
  {
    MediantStrips();
    assert "iii7" !in MajorKeyNumeralsAsWritten;
    assert "iii7" !in MajorMixtureNumerals;
  }

  /** "iii7" has no figure, so both strips leave it alone. */
  lemma MediantStrips()
    ensures StripInversionAsWritten("iii7") == "iii7" && StripInversion("iii7") == "iii7"
  {
    StripPlain("iii7");
    NotContainsChar("iii7", "6/5", 0);
    NotContainsChar("iii7", "4/3", 0);
    NotContainsChar("iii7", "4/2", 0);
    NotContainsChar("iii7", "6/4", 0);
    NotContainsChar("iii7", "6", 0);
  }

  // ---------------------------------------------------------------------
  // Fully-diminished sevenths from the leading tone (get_lt_numeral_for_dim7)

  /** The leading-tone fully-diminished seventh numerals, by inversion. */
  const LeadingToneDim7: seq<string> := ["viio7", "viio6/5", "viio4/3", "viio4/2"]

  /** get_lt_numeral_for_dim7: a diminished seventh on ii, iv or (b)vi re-read as
      an inversion of the one on the leading tone; anything else unchanged. */
  function LtNumeralForDim7(numeral: string): (r: string)
    ensures r in LeadingToneDim7 || r == numeral
    ensures r != numeral ==> numeral in ["iio7", "ivo7", "bvio7", "vio7", "#viio7"]
    ensures numeral in LeadingToneDim7 ==> r == numeral
  {
    if numeral == "iio7" then "viio6/5"
    else if numeral == "ivo7" then "viio4/3"
    else if numeral == "bvio7" || numeral == "vio7" then "viio4/2"
    else if numeral == "viio7" || numeral == "#viio7" then "viio7"
    else numeral
  }

  /** Re-reading twice is re-reading once. */
  lemma LtNumeralIdempotent(numeral: string)
    ensures LtNumeralForDim7(LtNumeralForDim7(numeral)) == LtNumeralForDim7(numeral)
  {
    var r := LtNumeralForDim7(numeral);
    if r != numeral {
      assert r in LeadingToneDim7;
    }
  }

  // ---------------------------------------------------------------------
  // Notes by degree (get_note_name_for_degree, get_leading_tone_in_key)

  /** get_note_name_for_degree: degree d (1-based) of the key; Python indexing
      makes degree 0 the seventh and lets -6..0 count from the end. */
  function NoteNameForDegree(key: string, degree: int): (r: Outcome<string>)
    ensures NotesForKey(key).Raise? ==> r == Raise(NotesForKey(key).error)
    ensures NotesForKey(key).Ok? ==> (r.Ok? <==> -6 <= degree <= 7)
    ensures NotesForKey(key).Ok? && r.Raise? ==> r.error == IndexError
    ensures NotesForKey(key).Ok? && 1 <= degree <= 7 ==> r == Ok(NotesForKey(key).value[degree - 1])
    ensures NotesForKey(key).Ok? && degree == 0 ==> r == Ok(NotesForKey(key).value[6])
  {
    var notes :- NotesForKey(key);
    Index(notes, degree - 1)
  }

  /** get_leading_tone_in_key: the seventh degree of the major key on the same
      tonic, so a minor key gets the raised seventh. */
  function LeadingTone(key: string): (r: Outcome<string>)
    ensures key != [] ==> (r.Ok? <==> Capitalise(key) in KeyNames)
    ensures r.Raise? ==> r.error == (if key == [] then IndexError else KeyError)
  {
    if key == [] then Raise(IndexError)
    else
      var tonic := Capitalise(key);
      CapitaliseIdentity(tonic);
      NoteNameForDegree(tonic, 7)
  }

  /** The leading tone of a key is the seventh degree of the major scale on its
      tonic, a semitone below the tonic. */
  lemma LeadingToneIsRaisedSeventh(key: string)
    requires LeadingTone(key).Ok?
    ensures key != [] && IsMajorKey(Capitalise(key)) && NotesForKey(Capitalise(key)).Ok?
    ensures LeadingTone(key).value == NotesForKey(Capitalise(key)).value[6]
    ensures (NoteIndex(LeadingTone(key).value).value - NoteIndex(Capitalise(key)).value) % 12 == 11
  {
    var tonic := Capitalise(key);
    CapitaliseIdentity(tonic);
    assert LeadingTone(key) == NoteNameForDegree(tonic, 7);
    assert NotesForKey(tonic).Ok?;
    assert tonic in KeyNames;
    KeyNamesCapitalised(tonic);
    assert KeySteps(tonic) == MajorSteps;
    var row := NotesForKey(tonic).value;
    DegreeStep(tonic, row, MajorSteps, 6);
    assert MajorSteps[6] == 11;
    var lt := LeadingTone(key).value;
    assert lt == row[6];
    var gap := (NoteIndex(lt).value - NoteIndex(tonic).value) % 12;
    assert gap == 11;
  }

  /** Every tonic of the tables starts with a capital letter. */
  lemma KeyNamesCapitalised(t: string)
    requires t in KeyNames
    ensures |t| > 0 && IsUpper(t[0])
  {
  }

  // ---------------------------------------------------------------------
  // Degree of a note (get_note_degree_in_key)

  /** get_note_degree_in_key: the 0-based degree at which the name is spelled in the key, or -1. */
  function NoteDegree(name: string, key: string): (r: Outcome<int>)
    ensures NotesForKey(key).Raise? ==> r == Raise(NotesForKey(key).error)
    ensures NotesForKey(key).Ok? ==> r.Ok? && -1 <= r.value < 7
    ensures r.Ok? ==> (r.value == -1 <==> name !in NotesForKey(key).value)
    ensures r.Ok? && r.value >= 0 ==> NotesForKey(key).value[r.value] == name
  {
    var notes :- NotesForKey(key);
    Ok(DegreeIn(notes, name))
  }

  method NoteDegreeInKey(name: string, key: string) returns (r: Outcome<int>)
    ensures r == NoteDegree(name, key)
  {
    var notes := NotesForKey(key);
    if notes.Raise? {
      return Raise(notes.error);
    }
    var d := FindDegree(notes.value, name);
    return Ok(d);
  }

  // ---------------------------------------------------------------------
  // Accidental of a note (get_note_accidental_in_key)

  /** get_note_accidental_in_key: the sign the note needs against the key signature. */
  function NoteAccidental(search: string, key: string): (r: Outcome<string>)
    ensures NotesForKey(key).Raise? ==> r == Raise(NotesForKey(key).error)
  {
    var notes :- NotesForKey(key);
    AccidentalIn(notes, search)
  }

  method NoteAccidentalInKey(search: string, key: string) returns (r: Outcome<string>)
    ensures r == NoteAccidental(search, key)
  {
    var notes := NotesForKey(key);
    if notes.Raise? {
      return Raise(notes.error);
    }
    r := FindAccidental(notes.value, search);
  }

  /** A note of the key's scale needs no sign. */
  lemma ScaleNoteNeedsNoSign(search: string, key: string)
    requires NotesForKey(key).Ok? && search in NotesForKey(key).value
    ensures NoteAccidental(search, key) == Ok("")
  {
    var notes := NotesForKey(key).value;
    ScaleLettersDistinct(Capitalise(key), notes, KeySteps(key));
    var i :| 0 <= i < 7 && notes[i] == search;
    ValidRowSpelled(notes, i);
    var k := LastWithLetter(notes, search[0]);
    assert HasLetter(notes[i], search[0]);
    assert k == i;
    AccidentalOfScaleValue(notes, search);
  }

  /** A spelled note outside the scale, within two semitones of the scale note
      with its letter, is printed with its own accidental ('n' for a natural). */
  lemma AlteredNoteSign(search: string, key: string)
    requires NotesForKey(key).Ok? && IsSpelling(search) && search !in NotesForKey(key).value
    requires var k := FirstWithLetter(NotesForKey(key).value, search[0]);
             k >= 0 && IsSpelling(NotesForKey(key).value[k]) ==>
               (-2 <= AccidentalShift(search).value - AccidentalShift(NotesForKey(key).value[k]).value <= 2)
    ensures NoteAccidental(search, key) == Ok(AccidentalStrings[AccidentalShift(search).value + 2])
  {
    var notes := NotesForKey(key).value;
    var tonic := Capitalise(key);
    ScaleLettersDistinct(tonic, notes, KeySteps(key));
    ScaleHasEveryLetter(tonic, notes, KeySteps(key), search[0]);
    LetterSearchesAgree(notes, search[0]);
    var k := LastWithLetter(notes, search[0]);
    ValidRowSpelled(notes, k);
    assert notes[k][0] == search[0] && notes[k] != search;
    Spelling.SameLetterDifferentValue(search, notes[k]);
    AccidentalIsOwnSign(notes, search);
  }

  /** The Eb minor row of the table spells F as Fb, so F in E-flat minor is
      reported as needing a natural sign instead of none. */
  lemma EbMinorAsWritten()
    ensures NotesForKeyAsWritten("eb") == Ok(["Eb", "Fb", "Gb", "Ab", "Bb", "Cb", "Db"])
    ensures NotesForKey("eb") == Ok(["Eb", "F", "Gb", "Ab", "Bb", "Cb", "Db"])
    ensures NoteAccidental("F", "eb") == Ok("")
  {
    assert Capitalise("eb") == "Eb";
    ScaleNoteNeedsNoSign("F", "eb");
  }

  // ---------------------------------------------------------------------
  // Augmented sixths (get_aug6_numeral)

  /** Each note's accidental in the key, in order. */
  function AccidentalResults(names: seq<string>, key: string): (r: seq<Outcome<string>>)
    ensures |r| == |names| && forall i :: 0 <= i < |names| ==> r[i] == NoteAccidental(names[i], key)
  {
    seq(|names|, i requires 0 <= i < |names| => NoteAccidental(names[i], key))
  }

  /** The first loop of get_aug6_numeral: each note's accidental in the key, in
      order; the first note whose lookup fails raises its error. */
  function Accidentals(names: seq<string>, key: string): Outcome<seq<string>>
  {
    Collect(AccidentalResults(names, key))
  }

  /** get_aug6_numeral: an Italian or German sixth (told apart by four distinct
      notes) for a stripped VI7 holding a raised note or a bVI7, a French sixth
      for the three 7b5 numerals, otherwise the numeral unchanged. */
  function Aug6Numeral(numeral: string, key: string, names: seq<string>): (r: Outcome<string>)
    ensures r.Ok? <==> Accidentals(names, key).Ok?
    ensures r.Ok? ==> r.value in {numeral, "Ger+6", "It+6", "Fr+6"}
  {
    var stripped := StripInversion(numeral);
    var accidentals :- Accidentals(names, key);
    var distinct := Dedup(names);
    if (stripped == "VI7" && "#" in accidentals) || stripped == "bVI7" then
      Ok(if |distinct| == 4 then "Ger+6" else "It+6")
    else if stripped in ["II7b5", "VI7b5", "bVI7b5"] then Ok("Fr+6")
    else Ok(numeral)
  }

  /** get_aug6_numeral, with its loop over the chord's notes. */
  method GetAug6Numeral(numeral: string, key: string, names: seq<string>) returns (r: Outcome<string>)
    ensures r == Aug6Numeral(numeral, key, names)
  {
    var stripped := StripInversion(numeral);
    var accidentals: seq<string> := [];
    var distinct: seq<string> := [];
    var i := 0;
    while i < |names|
      invariant 0 <= i <= |names|
      invariant Collect(AccidentalResults(names, key)[..i]) == Ok(accidentals)
      invariant distinct == Dedup(names[..i])
    {
      var acc := NoteAccidentalInKey(names[i], key);
      AccidentalsStep(names, key, i);
      if acc.Raise? {
        CollectPrefixFails(AccidentalResults(names, key), i + 1);
        return Raise(acc.error);
      }
      accidentals := accidentals + [acc.value];
      assert names[..i + 1][..i] == names[..i];
      if names[i] !in distinct {
        distinct := distinct + [names[i]];
      }
      i := i + 1;
    }
    assert names[..i] == names;
    assert AccidentalResults(names, key)[..i] == AccidentalResults(names, key);
    if (stripped == "VI7" && "#" in accidentals) || stripped == "bVI7" {
      r := Ok(if |distinct| == 4 then "Ger+6" else "It+6");
    } else if stripped in ["II7b5", "VI7b5", "bVI7b5"] {
      r := Ok("Fr+6");
    } else {
      r := Ok(numeral);
    }
  }

  /** One more note of the loop: its accidental appended, or its error raised. */
  lemma AccidentalsStep(names: seq<string>, key: string, i: nat)
    requires i < |names|
    ensures Collect(AccidentalResults(names, key)[..i + 1])
         == match Collect(AccidentalResults(names, key)[..i])
              case Raise(e) => Raise(e)
              case Ok(v) => var acc := NoteAccidental(names[i], key);
                            if acc.Ok? then Ok(v + [acc.value]) else Raise(acc.error)
  {
    var results := AccidentalResults(names, key);
    assert results[..i + 1] == results[..i] + [results[i]];
    CollectStep(results[..i], results[i]);
  }

  /** Doubling a chord tone does not change the augmented-sixth reading. */
  lemma Aug6Doubling(numeral: string, key: string, names: seq<string>, x: string)
    requires x in names && Accidentals(names, key).Ok?
    ensures Aug6Numeral(numeral, key, names + [x]) == Aug6Numeral(numeral, key, names)
  {
    var results := AccidentalResults(names, key);
    var i :| 0 <= i < |names| && names[i] == x;
    var accidentals := Accidentals(names, key).value;
    assert AccidentalResults(names + [x], key) == results + [results[i]];
    CollectStep(results, results[i]);
    assert "#" in accidentals + [accidentals[i]] <==> "#" in accidentals;
    DedupRepeat(names, x);
  }

  // ---------------------------------------------------------------------
  // Applied numerals (identify_applied_numeral)

  /** The base-chord qualities an applied chord may resolve to ('', 'm', 'maj7', '7', 'm7'). */
  predicate TakesApplied(q: Quality)
  {
    q == Major || q == Minor || q == Major7 || q == Dominant7 || q == Minor7
  }

  /** identify_applied_numeral: the numeral of a chord acting as a dominant or
      leading-tone chord of a base chord whose root names the key, or "". A minor
      base chord is read in the minor key. */
  function AppliedNumeral(baseKey: string, baseQuality: Quality, root: string, q: Quality, position: int): (r: Outcome<string>)
    ensures !TakesApplied(baseQuality) ==> r == Ok("")
    ensures r.Ok? && r.value != "" && q == Diminished7 ==> r.value in LeadingToneDim7
    ensures r.Ok? && r.value != "" && q != Diminished7 ==>
              StripInversion(r.value) in ["V", "V7", "viio", "viiø", "viio7"]
  {
    if !TakesApplied(baseQuality) then Ok("")
    else
      var key := if baseQuality == Minor || baseQuality == Minor7 then Lower(baseKey) else baseKey;
      var numeral :- ChordNumeral(key, root, q, position);
      if q == Diminished7 then
        var lt := LtNumeralForDim7(numeral);
        Ok(if lt in LeadingToneDim7 then lt else "")
      else
        var stripped := StripInversion(numeral);
        if stripped in ["V", "V7", "viio", "viiø", "viio7"] then Ok(numeral)
        else if stripped in ["#viio", "#viiø"] then
          StripSharp(numeral);
          Ok(numeral[1..])
        else Ok("")
  }

  /** A numeral that strips to a sharpened leading-tone numeral itself begins with '#'. */
  lemma SharpLeads(n: string)
    requires StripInversion(n) in ["#viio", "#viiø"]
    ensures |n| > 0 && n[0] == '#'
  {
    var s := StripInversion(n);
    assert |s| == 5 && s[0] == '#';
    if HasSeventhFigure(n) {
      var d := DropLast(n, 3);
      assert s == d + "7" || s == d;
      assert |d| >= 4 && d[0] == n[0];
    } else if Contains(n, "6/4") {
      assert |DropLast(n, 3)| > 0 && DropLast(n, 3)[0] == n[0];
    } else if Contains(n, "6") {
      assert |DropLast(n, 1)| > 0 && DropLast(n, 1)[0] == n[0];
    }
  }

  /** Stripping commutes with dropping a leading '#'. */
  lemma StripSharp(n: string)
    requires StripInversion(n) in ["#viio", "#viiø"]
    ensures |n| > 0 && StripInversion(n[1..]) == StripInversion(n)[1..]
  {
    SharpLeads(n);
    var t := n[1..];
    ContainsAfterSharp(n, "6/5");
    ContainsAfterSharp(n, "4/3");
    ContainsAfterSharp(n, "4/2");
    ContainsAfterSharp(n, "6/4");
    ContainsAfterSharp(n, "6");
    if HasSeventhFigure(n) {
      assert 'ø' in n <==> 'ø' in t by { assert n == [n[0]] + t; }
      DropFirstOfDropLast(n, 3);
    } else if Contains(n, "6/4") {
      DropFirstOfDropLast(n, 3);
    } else if Contains(n, "6") {
      DropFirstOfDropLast(n, 1);
    }
  }

  lemma DropFirstOfDropLast(n: string, k: nat)
    requires |n| > k
    ensures DropLast(n[1..], k) == DropLast(n, k)[1..]
  {
  }

  lemma ContainsAfterSharp(n: string, sub: string)
    requires |n| > 0 && n[0] == '#' && |sub| > 0 && sub[0] != '#'
    ensures Contains(n, sub) <==> Contains(n[1..], sub)
  {
  }

  /** A chord other than a diminished seventh whose stripped numeral is a dominant or
      leading-tone numeral is applied to a major base chord as its own numeral. */
  lemma AppliedAsBuilt(baseKey: string, root: string, q: Quality, position: int)
    requires q != Diminished7 && ChordNumeral(baseKey, root, q, position).Ok?
    requires StripInversion(ChordNumeral(baseKey, root, q, position).value) in ["V", "V7", "viio", "viiø", "viio7"]
    ensures AppliedNumeral(baseKey, Major, root, q, position) == ChordNumeral(baseKey, root, q, position)
  {
  }

  /** A major triad or dominant seventh on a key's fifth degree, in any inversion, is an applied V of that key. */
  lemma DominantIsApplied(key: string, q: Quality, position: int)
    requires NotesForKey(key).Ok? && (q == Major || q == Dominant7)
    requires 0 <= position < (if q == Major then 3 else 4)
    ensures ChordNumeral(key, NotesForKey(key).value[4], q, position).Ok?
    ensures AppliedNumeral(key, Major, NotesForKey(key).value[4], q, position)
         == ChordNumeral(key, NotesForKey(key).value[4], q, position)
  {
    var root := NotesForKey(key).value[4];
    DegreeNumerals(key, 4);
    assert NumeralStrings[4] + "7" == "V7";
    StripNumeral(key, root, q, position);
    AppliedAsBuilt(key, root, q, position);
  }
}
