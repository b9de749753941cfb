# Chord identification: a Dafny model of the harmony engine

The Chord Identification App names chords and analyses chord progressions in
tonal harmony. A chord is written as note tokens such as `C4,E4,G4`. The
engine parses each token into a spelling and an octave and sorts the notes by
keyboard value. It keeps the first note of each spelling and turns the steps
between those notes into an interval string. A table maps that string to the
chord's root, quality and inversion. Given a key, the engine reads the chord
as a roman numeral: diatonic, mixture or applied. It also gives each note its
accidental in the key. The four-part (SATB) validators check a progression
for errors: spacing, voice ranges, parallel fifths and octaves, doubled
leading tones and sevenths, and how sevenths and leading tones resolve.

The repository holds three generations of the engine, and each is modelled.
Each source file is one Dafny module in the same form as the source.
Table lookups, relations and figure handling are functions with lemmas.
Scans that loop, in-place sorts and the progression's list of chords are
methods and classes with loop invariants.

| module | models |
|---|---|
| `Py` | the Python behaviour the code relies on: exceptions as `Outcome`, negative list indexing, `split`/`strip`/`lower`/`in` |
| `Spelling` | the 35 note spellings and their pitch classes (`NOTE_INDICES`) |
| `NoteText` | splitting a note token at its first digit, shared by the three note modules |
| `MusicNote` | `Music/music/note.py`, the note model of the web and command-line versions |
| `ApiNote` | `api/musicInfo/note.py` |
| `RootNote` | `note.py` of the original command-line program |
| `IntervalCodes` | the interval strings built from a chord's notes |
| `FlaskIntervals`, `CliIntervals`, `LegacyIntervals` | the `INTERVAL_STRINGS` tables and their lookups |
| `Scales` | degree and accidental arithmetic on a key's scale row |
| `FlaskTheory` | `Flask/api/music_info.py` |
| `CliTheory` | `Cli/music/music_info.py` |
| `LegacyTheory` | `Flask/api/musicInfo.py` |
| `ChordNotes` | the sort and de-duplication of notes that the chord modules share |
| `FlaskChord` | `Flask/api/chord.py` |
| `CliChord` | `Cli/music/chord.py` |
| `RootChord` | `chord.py` |
| `ProgressionLists` | `add_chord`/`remove_chord`, which both progression classes share |
| `FlaskProgression` | `Flask/api/chord_progression.py` |
| `CliProgression` | `Cli/music/chord_progression.py` |
| `VoiceLeading` | the spacing, range and parallel-motion rules both validators share |
| `FlaskValidator` | `Flask/api/satb_validator.py` |
| `CliValidator` | `Cli/music/satb_validator.py` |
| `RootProgression` | `chordProgression.py` |
| `FlaskFuncs` | `Flask/api/musicFuncs.py` |
| `CliFuncs` | `Cli/musicFuncs.py` |

Where the code does something other than what its comments or docstrings
describe, the model follows the code. It models each such branch as
written, including the ones listed under "## Findings". Each finding also
has a corrected definition, and the corrected version is the one the rest of
the model builds on. Some defects have no plausible correction, or no evident
intended behaviour, so they are
modelled as written and appear only here:
- `add_chord` in `Flask/api/chord_progression.py` catches a `ValueError` and
  then reads a variable that was never assigned, so it raises an
  `UnboundLocalError` (modelled as `Raise(UnboundLocalError)`).
- `identify_secondary_dominant_numeral` in `Cli/music/music_info.py` handles
  an applied leading-tone seventh (such as `Bo7` applied to C) by appending
  entry 6 of the minor seventh-chord row. That entry is a chord name (`Bb7`),
  not a numeral.
- `remove_chord` in both progression classes tests `index in [0, len - 1]`,
  a two-element list, so only the first and the last chord can be removed.
  Whether a range test was meant is not evident, so the classes keep the
  test as written (`ProgressionLists.RemoveAsWritten`).
  `ProgressionLists.Remove` states the range reading only for comparison, and
  `ProgressionLists.MiddleNotRemovable` shows where the two part.

## Model

| member | source | states |
|---|---|---|
| NoteText.DigitValue | Music/music/note.py:58 | `int(c)` of a digit character is its value 0-9 |
| NoteText.FirstDigit | Music/music/note.py:53-59 | the position of the token's first digit, with no digit before it, or -1 when the token has none |
| NoteText.FirstDigitIsFirst | Music/music/note.py:53-59 | the left-to-right scan stops at exactly that first digit |
| NoteText.SpellingHasNoDigit | Music/music/note.py:13-18 | no note spelling contains a digit |
| NoteText.FirstDigitOfShown | Music/music/note.py:86-87 | in a printed note (spelling, one-digit octave, anything after) the first digit is the octave |
| Spelling.AccidentalShift | Flask/api/music_info.py:11 | the semitone shift of an accidental suffix: none 0, b -1, bb -2, # +1, x +2, nothing else |
| Spelling.NoteIndex | Flask/api/music_info.py:34-39 | a spelling's pitch class is its letter moved by its accidental, mod 12; other strings have none |
| Spelling.NoteIndicesAreSpellings | Flask/api/music_info.py:34-39 | the NOTE_INDICES table holds exactly the 35 letter-plus-accidental spellings, each at the pitch class it spells |
| Spelling.SameLetterDifferentValue | Flask/api/music_info.py:34-39 | two different spellings on one letter have different pitch classes |
| Spelling.SpellingChars | Flask/api/music_info.py:34-39 | a spelling is a letter A-G followed only by accidental characters |
| MusicNote.ParseNote | Music/music/note.py:47-66 | parse_note returns the text before the first digit and that digit when the name is in the table and the octave is 0-8; otherwise ('invalid', -1) |
| MusicNote.ParseNoteScan | Music/music/note.py:47-66 | the character loop with its break computes exactly ParseNote |
| MusicNote.ParseShown | Music/music/note.py:53-66 | a spelling followed by an octave 0-8 parses back to that spelling and octave, whatever follows the digit |
| MusicNote.NinthOctaveInvalid | Music/music/note.py:21 | octave 9 is refused |
| MusicNote.NoteValue | Music/music/note.py:23-28 | a known name's value is its pitch class plus twelve per octave; an unknown name raises KeyError |
| MusicNote.CreateNote | Music/music/note.py:30-45 | a valid token gives the note with its parsed name, octave, pitch class and value; an invalid one raises ValueError carrying the token |
| MusicNote.CreateShowRoundTrip | Music/music/note.py:30-45 | creating a note from a created note's printed form gives the same note back |
| MusicNote.ValueDeterminesNote | Music/music/note.py:23-28 | a created note's value determines its pitch class and octave |
| MusicNote.EnharmonicSpellings | Music/music/note.py:13-18 | enharmonic spellings share a pitch class (B#, C and Dbb are all 0) |
| MusicNote.Interval | Music/music/note.py:89-100 | without use_octave the interval is the pitch-class distance up, in 0-11; with it, the absolute semitone distance |
| MusicNote.IntervalIndices | Flask/api/chord.py:151-163 | collects, in ascending order, exactly the positions of the notes at a given distance above a root |
| MusicNote.IntervalToSelf | Music/music/note.py:89-100 | a note is at distance 0 from itself, and the semitone distance is symmetric |
| MusicNote.IntervalThereAndBack | Music/music/note.py:98 | the pitch-class distances there and back add up to 0 or 12 |
| MusicNote.IntervalFromValues | Music/music/note.py:95-98 | between created notes, the pitch-class distance is the semitone difference reduced mod 12 |
| ApiNote.ParseNote | api/musicInfo/note.py:47-65 | parse_note returns the name before the first digit and that digit when both are allowed (octave 0-7); otherwise ('invalid', -1) |
| ApiNote.ParseNoteScan | api/musicInfo/note.py:47-65 | the character loop that returns at the first digit computes exactly ParseNote |
| ApiNote.ParseAgreesBelowEight | api/musicInfo/note.py:16 | the two note parsers agree except that this one refuses octave 8 |
| ApiNote.ParseShown | api/musicInfo/note.py:47-65 | a spelling followed by an octave 0-7 parses back to itself |
| ApiNote.EighthOctaveInvalid | api/musicInfo/note.py:16 | octave 8 is refused here, though the other note model accepts it |
| ApiNote.NoteValue | api/musicInfo/note.py:18-21 | pitch class plus twelve per octave; KeyError for an unknown name |
| ApiNote.CreateNote | api/musicInfo/note.py:23-45 | a valid token gives its note; an invalid one raises InvalidNoteError carrying the token |
| ApiNote.CreateShowRoundTrip | api/musicInfo/note.py:23-45 | creating a note from a created note's printed form gives the same note back |
| ApiNote.CreateAgrees | api/musicInfo/note.py:23-45 | wherever it creates a note, it is the note the other note model creates |
| ApiNote.Interval | api/musicInfo/note.py:83-85 | get_interval is the pitch-class distance up, in 0-11 |
| RootNote.NoteNumbersShifted | note.py:8-12 | this table numbers each spelling one above its pitch class and lacks "Ax" |
| RootNote.ParseNote | note.py:48-66 | the name before the first digit and that digit when both are allowed (octave 0-7); otherwise ('invalid', -1) |
| RootNote.ParseNoteScan | note.py:48-66 | the character loop that returns at the first digit computes exactly ParseNote |
| RootNote.ParseShown | note.py:48-66 | a spelling other than "Ax" followed by an octave 0-7 parses back to itself |
| RootNote.DoubleSharpARejected | note.py:8-12 | "Ax4" is refused here, though the other note models accept it |
| RootNote.NoteValue | note.py:17-20 | the spelling's number plus twelve per octave; KeyError for an unknown name |
| RootNote.CreateNote | note.py:22-46 | a valid token gives its record; an invalid one raises InvalidNoteError carrying the token |
| RootNote.CreateAgrees | note.py:22-46 | where both note models create a note, name and octave agree and this value is one higher |
| RootNote.CreateShowRoundTrip | note.py:22-46 | creating a note from a created record's printed form gives the record back |
| Scales.LetterPosition | Flask/api/music_info.py:63-82 | the letter's place in C D E F G A B, and -1 exactly for a character that is not a letter |
| Scales.ValidRowSpelled | Flask/api/music_info.py:63-104 | every note of a key-table row is a non-empty spelling with a pitch class in 0-11 |
| Scales.SpellsScaleByDegrees | Flask/api/music_info.py:63-104 | a row whose seven notes each lie on the next letter and the right distance above the tonic spells the scale |
| Scales.DegreeLetter | Flask/api/music_info.py:63-104 | in a row that spells a scale, degree i carries the i-th letter after the tonic's |
| Scales.DegreeStep | Flask/api/music_info.py:63-104 | in a row that spells a scale, degree i lies steps[i] semitones above the tonic, mod 12 |
| Scales.ScaleLettersDistinct | Flask/api/music_info.py:63-104 | the seven degrees of a scale row carry seven different letters, so the row holds no note twice |
| Scales.ScaleHasEveryLetter | Flask/api/music_info.py:604-610 | every letter names some degree of a scale row, so the letter search of the numeral code always finds one |
| Scales.ScaleNoteDegree | Flask/api/music_info.py:488-503 | the degree search finds each degree's own spelling at that degree |
| Scales.RelationIn | Flask/api/music_info.py:406-438 | a stripped numeral is diatonic exactly when the key's diatonic list has it, mixture exactly when only the mixture list has it, chromatic otherwise |
| Scales.DegreeIn | Flask/api/music_info.py:488-503 | the first position of the name in the row, or -1 exactly when the row lacks it |
| Scales.FindDegree | Flask/api/music_info.py:488-503 | the search loop with its early return computes DegreeIn |
| Scales.FirstWithLetter | Flask/api/music_info.py:604-610 | the first degree whose spelling starts with the letter, with none before it, or -1 when there is none |
| Scales.LastWithLetter | Flask/api/music_info.py:523-529 | the last degree whose spelling starts with the letter, with none after it, or -1 when there is none |
| Scales.LetterSearchesAgree | Flask/api/music_info.py:523-529 | in a row without a repeated letter the loop that keeps the last match and the loop that breaks at the first agree |
| Scales.Prefix | Flask/api/music_info.py:612-623 | the accidental prefix of an altered root: '#' exactly for one semitone up, 'x' for two, 'b' for one down, 'bb' otherwise, all mod 12 |
| Scales.PrefixAgrees | Flask/api/music_info.py:612-623 | off the B/C boundary, the comparison as written and the pitch-class one give the same prefix |
| Scales.PrefixWrapCounterexample | Flask/api/music_info.py:612-623 | B# against the B of C major: the comparison as written gives 'bb' where '#' is meant |
| Scales.NumeralBase | Flask/api/music_info.py:589-623 | a root in the row gets its degree's numeral; a root that is not a spelling raises KeyError, and only then |
| Scales.NumeralBaseChars | Flask/api/music_info.py:589-623 | a numeral base holds only accidental prefix and roman-numeral characters |
| Scales.NumeralLacks | Flask/api/music_info.py:589-623 | a character outside that alphabet cannot occur in a numeral base |
| Scales.LowerNumerals | Flask/api/music_info.py:625-627 | lower-casing the seven numerals gives i, ii, iii, iv, v, vi, vii |
| Scales.LowerNumeralChars | Flask/api/music_info.py:625-627 | lower-casing keeps a numeral base within the numeral alphabet |
| Scales.FindNumeralBase | Flask/api/music_info.py:589-623 | the membership test and the letter loop with its break compute NumeralBase |
| Scales.AccidentalIndexOfSpelling | Flask/api/music_info.py:531-546 | the substring tests on a scale note give its accidental's shift plus two |
| Scales.FindAccidental | Flask/api/music_info.py:506-561 | the search loop (last same-letter match wins) and the sign choice compute AccidentalIn |
| Scales.AccidentalOfScaleValue | Flask/api/music_info.py:548-561 | a note with the value of its same-letter scale note needs no sign |
| Scales.AccidentalIsOwnSign | Flask/api/music_info.py:548-561 | against a same-letter scale note at most two steps away, the sign printed is the note's own accidental ('n' for a natural) |
| Scales.ShiftCases | Flask/api/music_info.py:548-561 | every combination of accidentals two steps apart or less picks the searched note's own sign |
| FlaskTheory.MajorRowsSpell | Flask/api/music_info.py:63-82 | every row of MAJOR_KEY_NOTES spells the major scale on its tonic (one letter per degree, each the right distance above the tonic) |
| FlaskTheory.MinorRowsSpell | Flask/api/music_info.py:85-104 | every row of the minor table, with its three miscopied rows corrected, spells the natural minor scale on its tonic |
| FlaskTheory.KeySteps | Flask/api/music_info.py:311-323 | a key picks seven scale steps (major for a capitalised key, natural minor otherwise) |
| FlaskTheory.TablesKeyedByKeyNames | Flask/api/music_info.py:63-104 | both key tables, as written and corrected, are keyed by exactly the 18 tonics |
| FlaskTheory.NotesForKey | Flask/api/music_info.py:311-323 | an empty key raises IndexError; otherwise the row exists exactly when the capitalised key is one of the 18 tonics (KeyError otherwise), and it spells the key's scale |
| FlaskTheory.Figure | Flask/api/music_info.py:30-31 | a triad quality has a figure exactly for positions -3..2, a seventh quality for -4..3 (IndexError otherwise), any other quality the empty figure |
| FlaskTheory.Decorate | Flask/api/music_info.py:625-642 | decorating a numeral base succeeds exactly when the position has a figure |
| FlaskTheory.ChordNumeral | Flask/api/music_info.py:564-642 | key errors pass through; otherwise a numeral exists exactly when the root is in the row or a spelling and the position has a figure; otherwise KeyError for the root |
| FlaskTheory.IdentifyChordNumeral | Flask/api/music_info.py:564-642 | the function with its search loops computes ChordNumeral |
| FlaskTheory.TableFigures | Flask/api/music_info.py:107-307 | every position an interval-table record holds has a figure |
| FlaskTheory.DegreeNumerals | Flask/api/music_info.py:564-642 | a major triad on degree d of a key is that degree's numeral, a minor triad its lower case, a dominant seventh the numeral plus '7' |
| FlaskTheory.DegreeChordNumeral | Flask/api/music_info.py:589-591 | a chord rooted on degree d takes that degree's numeral, decorated |
| FlaskTheory.ChordNumeralOfBase | Flask/api/music_info.py:625-642 | once the root has a numeral base, the chord's numeral is that base decorated |
| FlaskTheory.RootPositionNumerals | Flask/api/music_info.py:625-642 | in root position a major triad adds nothing, a minor triad lower-cases, a dominant seventh adds '7' |
| FlaskTheory.DecorationLacks | Flask/api/music_info.py:14-27 | a triad or seventh decoration holds no figure character, and 'ø' only for the half-diminished seventh |
| FlaskTheory.CasedLacks | Flask/api/music_info.py:625-627 | a numeral base, cased either way, holds no figure character and no 'ø' |
| FlaskTheory.StripPlain | Flask/api/music_info.py:326-348 | a numeral with no '6' and no '4' is its own strip |
| FlaskTheory.StripTriadFigure | Flask/api/music_info.py:326-348 | a triad numeral with figure 6 or 6/4 strips to its stem (corrected strip) |
| FlaskTheory.StripSeventhOfStem | Flask/api/music_info.py:326-348 | a seventh numeral with figure 6/5, 4/3 or 4/2 strips to stem plus '7', or just the stem when it holds 'ø' |
| FlaskTheory.StripDecorated | Flask/api/music_info.py:326-348 | stripping a decorated numeral in any inversion gives the root-position decoration of the same base and quality |
| FlaskTheory.StripNumeral | Flask/api/music_info.py:326-348 | a chord's numeral in any inversion strips to its root-position numeral |
| FlaskTheory.StripSecondInversionAsWritten | Flask/api/music_info.py:326-348 | the strip as written turns "I6/4" into "I6/"; the corrected strip gives "I" |
| FlaskTheory.ChordRelation | Flask/api/music_info.py:406-438 | IndexError exactly for an empty key; otherwise diatonic, mixture or chromatic, never applied or other |
| FlaskTheory.RelationIgnoresInversion | Flask/api/music_info.py:406-438 | a chord has the same relation to a key in every inversion as in root position |
| FlaskTheory.MajorDegreeNumerals | Flask/api/music_info.py:45-47 | the root-position triads and seventh chords on the degrees of a major scale are exactly the major key's diatonic numerals, in order |
| FlaskTheory.RootDecoration | Flask/api/music_info.py:625-642 | in root position a triad numeral carries no figure and a seventh numeral a '7', none after 'ø' |
| FlaskTheory.MinorDegreeNumerals | Flask/api/music_info.py:54-56 | the same for the natural minor scale and the minor key's diatonic numerals |
| FlaskTheory.ScaleChordsAreDiatonic | Flask/api/music_info.py:406-438 | every triad and seventh chord of a key's own scale, in any inversion, is reported diatonic |
| FlaskTheory.ScaleQualities | Flask/api/music_info.py:45-60 | the qualities on the scale degrees are triad and seventh qualities |
| FlaskTheory.SecondInversionRelationAsWritten | Flask/api/music_info.py:406-438 | as written, the second-inversion tonic "I6/4" of C major is reported chromatic; corrected, diatonic |
| FlaskTheory.CMajorRow | Flask/api/music_info.py:63-82 | the C major row is C D E F G A B |
| FlaskTheory.MediantSeventhNumeral | Flask/api/music_info.py:564-642 | the minor seventh on E in C major is built as "iii7" |
| FlaskTheory.MediantSeventhAsWritten | Flask/api/music_info.py:45-47 | with the list as written ("iiim7"), "iii7" is reported chromatic to C major; corrected, diatonic |
| FlaskTheory.MediantStrips | Flask/api/music_info.py:326-348 | "iii7" has no figure, so both strips leave it alone |
| FlaskTheory.LtNumeralForDim7 | Flask/api/music_info.py:447-469 | the result is a leading-tone diminished seventh or the numeral unchanged; only ii, iv, (b)vi and #vii diminished sevenths change; a leading-tone one stays |
| FlaskTheory.LtNumeralIdempotent | Flask/api/music_info.py:447-469 | re-reading twice is re-reading once |
| FlaskTheory.NoteNameForDegree | Flask/api/music_info.py:480-485 | key errors pass through; a degree exists exactly for -6..7 (IndexError otherwise); 1..7 give that degree and 0 the seventh |
| FlaskTheory.LeadingTone | Flask/api/music_info.py:472-477 | for a non-empty key, a leading tone exists exactly when the capitalised key is a tonic; IndexError for the empty key, KeyError otherwise |
| FlaskTheory.LeadingToneIsRaisedSeventh | Flask/api/music_info.py:472-477 | the leading tone is the seventh degree of the major scale on the key's tonic, one semitone below it |
| FlaskTheory.KeyNamesCapitalised | Flask/api/music_info.py:63-104 | every tonic of the tables starts with a capital letter |
| FlaskTheory.NoteDegree | Flask/api/music_info.py:488-503 | key errors pass through; otherwise a degree in -1..6, -1 exactly when the name is not in the row, else the degree where it is spelled |
| FlaskTheory.NoteDegreeInKey | Flask/api/music_info.py:488-503 | the search loop computes NoteDegree |
| FlaskTheory.NoteAccidental | Flask/api/music_info.py:506-561 | key errors pass through to the accidental lookup |
| FlaskTheory.NoteAccidentalInKey | Flask/api/music_info.py:506-561 | the search loop computes NoteAccidental |
| FlaskTheory.ScaleNoteNeedsNoSign | Flask/api/music_info.py:506-561 | a note of the key's scale needs no sign |
| FlaskTheory.AlteredNoteSign | Flask/api/music_info.py:506-561 | a spelled note outside the scale, within two steps of the same-letter scale note, is printed with its own accidental |
| FlaskTheory.EbMinorAsWritten | Flask/api/music_info.py:85-104 | the Eb minor row as written has Fb for F; corrected it has F, and F then needs no sign in E-flat minor |
| FlaskTheory.AccidentalResults | Flask/api/music_info.py:375-379 | one accidental lookup per note, in order |
| FlaskTheory.Aug6Numeral | Flask/api/music_info.py:352-403 | a numeral exists exactly when every note's accidental lookup succeeds, and it is the numeral unchanged or Ger+6, It+6 or Fr+6 |
| FlaskTheory.GetAug6Numeral | Flask/api/music_info.py:352-403 | the method with its loop over the notes computes Aug6Numeral |
| FlaskTheory.AccidentalsStep | Flask/api/music_info.py:375-379 | one more note of the loop appends its accidental or raises its error |
| FlaskTheory.Aug6Doubling | Flask/api/music_info.py:352-403 | doubling a chord tone does not change the augmented-sixth reading |
| FlaskTheory.AppliedNumeral | Flask/api/music_info.py:645-691 | a base quality that takes no applied chord gives ""; a diminished seventh gives a leading-tone diminished seventh numeral; any other chord its own numeral in the base chord's key |
| FlaskTheory.SharpLeads | Flask/api/music_info.py:645-691 | a numeral that strips to #viio or #viiø starts with '#' |
| FlaskTheory.StripSharp | Flask/api/music_info.py:645-691 | stripping commutes with dropping that leading '#' |
| FlaskTheory.AppliedAsBuilt | Flask/api/music_info.py:645-691 | a chord other than a diminished seventh whose stripped numeral is V, V7, viio, viiø or viio7 is applied to a major base chord as its own numeral |
| FlaskTheory.DominantIsApplied | Flask/api/music_info.py:645-691 | a major triad or dominant seventh on a key's fifth degree, in any inversion, is an applied V of that key |
| CliTheory.NotesForKey | Cli/music/music_info.py:305-316 | an empty key raises IndexError; a non-empty one finds its row exactly when its table has the key (KeyError otherwise), and the row is the web version's row for that key |
| CliTheory.NotesSpellScale | Cli/music/music_info.py:28-66 | every row this version finds spells the key's scale |
| CliTheory.ChordRelation | Cli/music/music_info.py:322-351 | IndexError exactly for an empty key; otherwise diatonic, mixture or chromatic, and diatonic only for a numeral of the diatonic lists |
| CliTheory.FiguredNumeralIsChromatic | Cli/music/music_info.py:322-351 | nothing is stripped, so "V6" is chromatic to C major while "V" is diatonic |
| CliTheory.KeyNoteForDegree | Cli/music/music_info.py:360-365 | key errors pass through; a note exists exactly for degrees -7..6 (IndexError otherwise), and 0..6 give that 0-based degree |
| CliTheory.DegreeBases | Cli/music/music_info.py:360-365 | this 0-based degree is the web version's 1-based degree plus one |
| CliTheory.LeadingTone | Cli/music/music_info.py:367-372 | for a non-empty key, a leading tone exists exactly when the capitalised key is a tonic; IndexError for the empty key, KeyError otherwise |
| CliTheory.LeadingToneAgrees | Cli/music/music_info.py:367-372 | the two versions name the same leading tone |
| CliTheory.NoteDegree | Cli/music/music_info.py:375-388 | key errors pass through; otherwise -1 exactly when the name is not in the row, else the degree where it is spelled |
| CliTheory.NoteDegreeInKey | Cli/music/music_info.py:375-388 | the search loop computes NoteDegree |
| CliTheory.NoteAccidental | Cli/music/music_info.py:391-441 | key errors pass through; where the key is found, the sign is the web version's |
| CliTheory.NoteAccidentalInKey | Cli/music/music_info.py:391-441 | the search loop computes NoteAccidental |
| CliTheory.FigureFor | Cli/music/music_info.py:140-141 | with a seventh a figure exists exactly for positions -4..3, without one for -3..2; IndexError otherwise |
| CliTheory.ChordNumeral | Cli/music/music_info.py:444-525 | key errors pass through; otherwise a numeral exists exactly when the root is in the row or a spelling and, when the inversion is asked for, the position has a figure |
| CliTheory.IdentifyChordNumeral | Cli/music/music_info.py:444-525 | the function with its search loops computes ChordNumeral |
| CliTheory.InversionAppendsFigure | Cli/music/music_info.py:516-523 | asking for the inversion appends exactly the figure has_seventh selects, so a root-position ø chord ends in "ø7" |
| CliTheory.DegreeStem | Cli/music/music_info.py:465-514 | the chord on degree d takes that degree's numeral, cased and marked for its quality |
| CliTheory.MajorTriadStems | Cli/music/music_info.py:18 | the triads on the degrees of a major scale are the major key's diatonic numerals |
| CliTheory.MinorTriadStems | Cli/music/music_info.py:22 | the triads on the degrees of a natural minor scale are the minor key's diatonic numerals |
| CliTheory.ScaleTriadsAreDiatonic | Cli/music/music_info.py:322-351 | every root-position triad of a key's own scale is reported diatonic |
| CliTheory.HalfDiminishedKeepsSeven | Cli/music/music_info.py:444-525 | the half-diminished seventh on the leading tone of a major key, with its figure, is "viiø7" |
| CliTheory.Dim7AsLeadingTone | Cli/music/music_info.py:538-558 | "" exactly for a numeral that is not a diminished seventh on ii, iv, (b)vi or vii; otherwise a leading-tone diminished seventh |
| CliTheory.AppliedBase | Cli/music/music_info.py:560-569 | the numeral kept is "" or one of V, V7, viio, viiø, viio7, and such a numeral is kept as it is |
| CliTheory.AppliedNumeral | Cli/music/music_info.py:528-580 | a base quality that takes no applied chord gives ""; a diminished seventh gives a leading-tone one; another chord its applied base, with its figure when asked |
| CliTheory.DominantIsApplied | Cli/music/music_info.py:528-580 | a major triad or dominant seventh on a key's fifth degree is applied to the key's major tonic as V, with its inversion's figure when asked |
| CliTheory.ChordTablesKeys | Cli/music/music_info.py:69-138 | the major chord tables have 14 keys and the minor ones 14 others, so neither has all 18 |
| CliTheory.Row | Cli/music/music_info.py:608-626 | a table row exists exactly when the table has the key; KeyError otherwise |
| CliTheory.DominantByNameIn | Cli/music/music_info.py:607-634 | a triad match is V or viio and only in root position |
| CliTheory.DominantByName | Cli/music/music_info.py:607-634 | the same lookup with the F row of the triad table corrected |
| CliTheory.Dim7AsSecondary | Cli/music/music_info.py:591-605 | "" or a leading-tone diminished seventh; viio7 exactly for viio7, and a result exactly for bvio7, ivo7, iio7 and viio7 |
| CliTheory.SecondaryDominantNumeral | Cli/music/music_info.py:582-645 | a base quality that takes no applied chord gives ""; a name holding "o7" gives "" or a leading-tone diminished seventh; any other name gives V, viio or viiø (with figure when a seventh) |
| CliTheory.NamedDominant | Cli/music/music_info.py:607-643 | a match found by name gets its inversion figure appended |
| CliTheory.DominantColumnsHold | Cli/music/music_info.py:28-84 | in every major triad table row, the V and vii columns name the chords on the fifth and seventh degrees of the key's scale |
| CliTheory.LeadingToneSevenths | Cli/music/music_info.py:123-138 | the last column of every minor seventh-table row is a name ending in "o7" |
| CliTheory.NotDiminishedName | Cli/music/music_info.py:591 | a spelling followed by a quality text without 'o' does not hold "o7" |
| CliTheory.NotDiminishedSeventhName | Cli/music/music_info.py:591 | a spelling followed by "o" does not hold "o7" |
| CliTheory.DominantTriadIsSecondary | Cli/music/music_info.py:582-645 | the triad named by the fifth degree of a key's major scale is read in root position as V |
| CliTheory.LeadingToneTriadIsSecondary | Cli/music/music_info.py:582-645 | the diminished triad on the seventh degree of a key's major scale is read in root position as viio |
| CliTheory.TriadColumnMatch | Cli/music/music_info.py:607-634 | a root-position triad named in the V or vii column of the base key's triad table is V or viio |
| CliTheory.DominantSeventhIsSecondary | Cli/music/music_info.py:582-645 | the dominant seventh on a key's fifth degree is read in any inversion as V with its figure |
| CliTheory.LeadingToneSeventhIsSecondary | Cli/music/music_info.py:582-645 | the half-diminished seventh on a key's seventh degree is read in any inversion as viiø with its figure |
| CliTheory.SeventhColumnMatch | Cli/music/music_info.py:607-634 | a seventh chord named in the V or vii column of the base key's seventh table is V or viiø with its figure |
| CliTheory.SeventhByName | Cli/music/music_info.py:607-634 | a seventh chord that is not a diminished seventh is never read as the minor table's viio7 |
| CliTheory.NotLeadingToneSeventh | Cli/music/music_info.py:123-138 | such a name is never the minor table's leading-tone seventh |
| CliTheory.SeventhSecondaries | Cli/music/music_info.py:607-634 | so a secondary seventh chord is read as V or viiø with its inversion figure |
| CliTheory.FLeadingToneTriadAsWritten | Cli/music/music_info.py:76 | with the F row as written ("Ebo"), Eo in F is not found; with the row corrected it is read as viio |
| CliTheory.MissingMinorKeyRaises | Cli/music/music_info.py:105-138 | a base chord in Db or Gb makes every chord that is not a diminished seventh raise KeyError |
| CliTheory.MissingMinorRows | Cli/music/music_info.py:105-138 | the minor chord tables have no Db and no Gb row |
| LegacyTheory.NotesForKeyIn | Flask/api/musicInfo.py:350-358 | an empty key raises IndexError; an upper-case key is found exactly when the major table has it, any other exactly when the minor table has its capitalised tonic; KeyError otherwise |
| LegacyTheory.NotesForKey | Flask/api/musicInfo.py:24-58 | with the three misspelled rows corrected, a row found is the web version's row for the key |
| LegacyTheory.NotesSpellScale | Flask/api/musicInfo.py:24-58 | a row found spells the scale of the key |
| LegacyTheory.RowsAsWrittenMisspelled | Flask/api/musicInfo.py:24-58 | as written, the F major, Eb minor and G# minor rows do not spell their scales |
| LegacyTheory.ChordRelationAsWritten | Flask/api/musicInfo.py:313-342 | as written a relation exists exactly for a numeral with a slash (applied); any other numeral indexes a list with the key string and raises TypeError (IndexError for an empty key) |
| LegacyTheory.ChordRelation | Flask/api/musicInfo.py:313-342 | with membership tests on the lists: a slash makes it applied; otherwise IndexError exactly for an empty key, else diatonic for the key's own list, mixture for the other mode's list, chromatic otherwise |
| LegacyTheory.RelationAsWrittenFailsWithoutSlash | Flask/api/musicInfo.py:313-342 | for a numeral without a slash the code as written raises, while the corrected lookup gives a relation other than applied |
| LegacyTheory.KeyNoteForDegree | Flask/api/musicInfo.py:350-358 | key errors pass through; a note exists exactly for degrees -7..6 (IndexError otherwise), and 0..6 give that 0-based degree |
| LegacyTheory.DegreeAgrees | Flask/api/musicInfo.py:350-358 | where both versions have the key, this degree lookup is the command-line version's |
| LegacyTheory.LeadingToneIn | Flask/api/musicInfo.py:361-365 | an empty key raises IndexError; otherwise a leading tone exists exactly when the table has the capitalised key, and it is that row's seventh note |
| LegacyTheory.LeadingTone | Flask/api/musicInfo.py:361-365 | with the F row corrected, a leading tone exists exactly for the tonics the major table has, and it is the web version's |
| LegacyTheory.LeadingToneMatches | Flask/api/musicInfo.py:361-365 | the corrected lookup agrees with the web version's leading tone wherever it finds one |
| LegacyTheory.FLeadingToneAsWritten | Flask/api/musicInfo.py:24-40 | as written F major's leading tone is Eb, a whole tone below the tonic; corrected it is E, a semitone below |
| LegacyTheory.NoteDegree | Flask/api/musicInfo.py:425-441 | key errors pass through; otherwise -1 exactly when the name is not in the row, else the degree where it is spelled |
| LegacyTheory.NoteDegreeInKey | Flask/api/musicInfo.py:425-441 | the search loop computes NoteDegree |
| LegacyTheory.NoteAccidental | Flask/api/musicInfo.py:368-422 | key errors pass through; where the key is found, the sign is the web version's |
| LegacyTheory.NoteAccidentalInKey | Flask/api/musicInfo.py:368-422 | the search loop computes NoteAccidental |
| LegacyTheory.ChordNumeral | Flask/api/musicInfo.py:444-529 | key errors pass through; an empty bass note outside the row raises IndexError (its first character is read first); otherwise the numeral of the bass note's degree, cased and marked for the quality, with a figure when asked |
| LegacyTheory.IdentifyChordNumeral | Flask/api/musicInfo.py:444-529 | the function with its search loops computes ChordNumeral |
| LegacyTheory.ChordNumeralAgrees | Flask/api/musicInfo.py:444-529 | where both versions have the key, they write the same numeral for every non-empty bass note |
| LegacyTheory.ScaleTriadsAreDiatonic | Flask/api/musicInfo.py:313-342 | the triads of a key's own scale, without figure, are reported diatonic |
| LegacyTheory.NumeralHasNoSlash | Flask/api/musicInfo.py:14-19 | no numeral of the numeral lists holds a slash |
| LegacyTheory.ChordTypeIn | Flask/api/musicInfo.py:532-569 | an empty key raises IndexError; otherwise a chord named in the key's own table is diatonic, in the parallel table mixture, otherwise other, KeyError when the table lacks the key |
| LegacyTheory.ChordTypeAsWritten | Flask/api/musicInfo.py:532-569 | as written a lower-case (minor) key always raises KeyError; an upper-case key gives the corrected answer |
| LegacyTheory.ChordType | Flask/api/musicInfo.py:532-569 | with a minor key's tonic capitalised, the answer is diatonic, mixture or other |
| LegacyTheory.TableKeysCapitalised | Flask/api/musicInfo.py:61-130 | no chord table has a lower-case key |
| LegacyTheory.ChordKeysCapitalised | Flask/api/musicInfo.py:61-130 | every key of the chord tables starts with a capital letter |
| LegacyTheory.MinorKeyChordType | Flask/api/musicInfo.py:532-569 | as written E major in A minor raises KeyError; corrected it is mixture, and E minor diatonic |
| LegacyTheory.DominantIsDiatonic | Flask/api/musicInfo.py:532-569 | in a major key the triad and the dominant seventh on the fifth degree are diatonic |
| LegacyTheory.SecondaryDominantNumeral | Flask/api/musicInfo.py:572-639 | a name holding "o7" gives "" or a leading-tone diminished seventh whatever the base quality; any other chord over a base that takes no applied chord gives ""; otherwise V, viio or viiø |
| LegacyTheory.SecondaryAgreesWithCli | Flask/api/musicInfo.py:572-639 | over a base chord that takes applied chords, this version reads every chord as the command-line version does, a diminished seventh's name holding a note before its "o7" |
| LegacyTheory.Dim7SecondaryAgrees | Flask/api/musicInfo.py:577-589 | a diminished seventh with a bass note is read in the base key the same way by both versions |
| LegacyTheory.BareDiminishedSeventhRaises | Flask/api/musicInfo.py:473 | a bare "o7" leaves an empty bass note, which raises IndexError |
| LegacyTheory.LeadingToneSeventhIsSecondary | Flask/api/musicInfo.py:572-639 | the diminished seventh on a major key's leading tone is its viio7, whatever the base chord's quality |
| LegacyTheory.LeadingToneDim7Numeral | Flask/api/musicInfo.py:444-529 | the diminished seventh on the seventh degree of a major key, with its figure, is viio7 |
| LegacyTheory.DiminishedSeventhBeforeQuality | Flask/api/musicInfo.py:572-639 | over a diminished base chord in C, Bo7 is viio7 here but "" in the command-line version, which tests the base quality first |
| IntervalCodes.QualityTextInjective | Flask/api/music_info.py:14-27 | two qualities are written the same exactly when they are the same quality |
| IntervalCodes.IntervalString | Flask/api/music_info.py:107-307 | the concatenated interval tokens are all digits and non-empty for a non-empty interval list |
| IntervalCodes.MinTokensOfIntervals | Flask/api/music_info.py:107-307 | a string made of k interval tokens in 0..11 can be split into at most k tokens |
| IntervalCodes.MinTokensLowerBound | Flask/api/music_info.py:107-307 | every token is at most two characters long |
| IntervalCodes.RootFitsTokens | Flask/api/music_info.py:107-307 | a root index passing the per-entry check is at most the number of tokens, so it names one of the distinct notes |
| FlaskIntervals.EntryFacts | Flask/api/music_info.py:107-307 | every table entry (with "9" corrected) has a position its figures can index, a real quality, and a root index naming one of the distinct notes |
| FlaskIntervals.ChordForIntervals | Flask/api/music_info.py:441-444 | an unlisted string gives the unknown record and only then; a listed one its record, with position 0..3 (0..2 for a triad) and a root index within the tokens |
| FlaskIntervals.NineAsWritten | Flask/api/music_info.py:114 | the "9" entry as written names root index 2, while a "9" string holds a single token |
| CliIntervals.EntryFacts | Cli/music/music_info.py:144-302 | every table entry (with "9" corrected) has a position the figure lists accept, a real quality, and a root index naming one of the distinct notes |
| CliIntervals.ChordForIntervals | Cli/music/music_info.py:354-357 | an unlisted string gives the unknown record and only then; a listed one its record, with position -1..3 (0..2 unless a seventh) and a root index within the tokens |
| CliIntervals.NegativePosition | Cli/music/music_info.py:144-302 | the only entry with a negative position is "696" |
| LegacyIntervals.EntryFacts | Flask/api/musicInfo.py:136-292 | every table entry has a position the figure lists accept and a real quality; except "9", its bass index names one of the distinct notes |
| LegacyIntervals.ChordForIntervals | Flask/api/musicInfo.py:345-347 | the table's record, with a real quality, or None for the unknown default; for two or more tokens the bass index is within the tokens |
| ChordNotes.InsertBy | Flask/api/chord.py:114 | inserting into a sorted list keeps it sorted, keeps the multiset, and puts the element after those with an equal key |
| ChordNotes.SortBy | Flask/api/chord.py:114 | list.sort with a key: the result is ascending, a permutation of the input, and stable (elements with equal keys keep their order) |
| ChordNotes.SortBySorted | Flask/api/chord.py:114 | sorting an already sorted list leaves it unchanged |
| ChordNotes.Steps | Flask/api/chord.py:124-126 | one step per neighbouring pair, each the upward difference reduced into 0..11 |
| ChordNotes.IntervalStringSnoc | Flask/api/chord.py:124-126 | appending a step's token to the string is appending the step to the list |
| ChordNotes.StepTokens | Flask/api/chord.py:124-126 | the string of the steps between n values splits into at most n - 1 tokens |
| ChordNotes.NameCount | Flask/api/chord.py:130-139 | how many notes carry the name, never more than the chord has |
| ChordNotes.NamePositionsFound | Flask/api/chord.py:130-139 | each position found holds a note with the name, in ascending order |
| ChordNotes.NamePositionsAll | Flask/api/chord.py:130-139 | every note with the name has its position found |
| ChordNotes.NamePositionsCount | Flask/api/chord.py:130-139 | one position is found per note with the name |
| ChordNotes.FirstWithName | Flask/api/chord.py:299-305 | the first position holding a note with the name, with none before it, or -1 when there is none |
| ChordNotes.UniqueByName | Flask/api/chord.py:117-121 | the notes kept are first occurrences of their names, in order, one per name |
| ChordNotes.UniqueNames | Flask/api/chord.py:117-121 | every name of the chord is kept exactly once |
| ChordNotes.UniqueFirstIs | Flask/api/chord.py:117-121 | each kept note is the first note with its name |
| ChordNotes.UniqueInOrder | Flask/api/chord.py:117-121 | the kept notes keep the chord's order |
| ChordNotes.NoDuplicateNames | Flask/api/chord.py:117-121 | when no name repeats, every note is kept |
| ChordNotes.UniqueNotes | Flask/api/chord.py:117-121 | the first loop of the interval-string builder keeps the first note of each name, in order |
| ChordNotes.IntervalStringFor | Flask/api/chord.py:124-126 | the second loop concatenates the tokens of the steps between neighbouring kept notes |
| ChordNotes.RootRecovery | Flask/api/chord.py:293-305 | both branches of the root search pick the first note bearing the name of the distinct note the table names |
| ChordNotes.FindRoot | Flask/api/chord.py:293-305 | the root search loop with its break computes that root index |
| ChordNotes.SortedCreated | Flask/api/chord.py:114 | sorting keeps the notes, so it keeps them created notes |
| ChordNotes.TokenNotes | Flask/api/chord.py:60-64 | one note per comma-separated token, each stripped and created |
| ChordNotes.ParseChordString | Flask/api/chord.py:48-77 | fewer than three tokens is "Not enough notes provided"; a token that is not a note gives "One or more notes provided were invalid"; otherwise every token's note, in input order |
| ChordNotes.ParsedNotes | Flask/api/chord.py:48-77 | a chord string is accepted exactly when it has three or more tokens and each stripped token is a note |
| ChordNotes.ParseChordStringScan | Flask/api/chord.py:48-77 | the try-block loop over the tokens computes ParseChordString |
| ChordNotes.Entries | Flask/api/chord.py:321-322 | each printed note followed by ", " |
| ChordNotes.JoinPrinted | Flask/api/chord.py:315-325 | the printed chord is the printed notes joined by ", " |
| ChordNotes.SplitRepr | Flask/api/chord.py:315-325 | splitting a printed chord at commas gives the first printed note and then each further note after a space |
| ChordNotes.StripPrinted | Flask/api/chord.py:61 | a printed note with a space before it strips back to the printed note |
| ChordNotes.CreatePrinted | Flask/api/chord.py:315-325 | creating the note a created note prints gives that note back |
| ChordNotes.ReprParses | Flask/api/chord.py:315-325 | parsing the printed form of three or more created notes gives those notes back |
| ChordNotes.ChordDataFor | Flask/api/chord.py:18-46 | a dict without 'notes' raises KeyError, an input of another type the factory's ValueError; otherwise the parse of its notes string |
| ChordNotes.CreatedNotes | Flask/api/chord.py:48-77 | the notes of a successful parse are created notes |
| ChordNotes.ChordFor | Flask/api/chord.py:18-38 | create_chord succeeds exactly when the parse does, with three or more created notes sorted by value; a failed parse raises ValueError with its message |
| ChordNotes.ChordResults | Flask/api/chord.py:18-38 | one create_chord outcome per input, in order |
| ChordNotes.ChordResultsAppend | Flask/api/chord.py:18-38 | the outcomes of two input lists, one after the other, are the two lists of outcomes joined |
| ChordNotes.KeptCreated | Flask/api/chord.py:18-38 | every chord kept from those outcomes has three or more created notes, sorted by value |
| ChordNotes.AnswerMeaning | Flask/api/musicFuncs.py:15-55 | NO_VALID_CHORDS with no input or when every input raised ValueError; the first other error raised; otherwise the analysis of exactly the chords created, in input order |
| ChordNotes.AnswerSkips | Flask/api/musicFuncs.py:22-29 | an input refused with a ValueError changes nothing, wherever it stands |
| FlaskChord.InfoOf | Flask/api/chord.py:285 | the table record of the sorted notes' interval string; a listed record names one of the distinct notes as root |
| FlaskChord.Identify | Flask/api/chord.py:279-308 | an unknown string leaves root 0, position 0 and quality unknown, and only then; otherwise the table's quality and position and the index of the first note named like the root it picks |
| FlaskChord.NoteNameAt | Flask/api/chord.py:174-188 | the name at a position Python accepts, '' where the index raises IndexError |
| FlaskChord.SeventhInterval | Flask/api/chord.py:195-219 | only seventh qualities and mM7 have a seventh interval to look for |
| FlaskChord.FirstSeventh | Flask/api/chord.py:195-219 | the first note other than the root at the quality's seventh above it, none before it, or -1 when there is none |
| FlaskChord.SeventhIndexOf | Flask/api/chord.py:195-219 | for a chord holding these notes, -1 or a note position; only IndexError is raised |
| FlaskChord.IndicesOf | Flask/api/chord.py:151-163 | for a chord holding these notes, positions of its notes; only IndexError is raised |
| FlaskChord.NumeralOf | Flask/api/chord.py:236-260 | '' for an unknown chord; for created notes a numeral exists exactly when the chord is unknown or the key is found |
| FlaskChord.AppliedOf | Flask/api/chord.py:262-277 | '' whenever the base chord's quality takes no applied chord; otherwise the applied numeral of this chord in the base chord's key |
| FlaskChord.NameOf | Flask/api/chord.py:221-234 | '' for an unknown chord and, for created notes, only then |
| FlaskChord.Chord.constructor | Flask/api/chord.py:87-96 | the chord holds its notes sorted stably by value and identified |
| FlaskChord.Chord.IntervalStringInfo | Flask/api/chord.py:98-128 | sorts the notes in place, returns the first note of each name and the interval string of those notes, and changes no other field |
| FlaskChord.Chord.IdentifyChord | Flask/api/chord.py:279-308 | after the sort, the fields are the identification of the sorted notes; an unknown chord keeps its old quality |
| FlaskChord.Chord.FindNotesByName | Flask/api/chord.py:130-139 | exactly the positions of the notes with that name, ascending |
| FlaskChord.Chord.GetAccidentalsForKey | Flask/api/chord.py:141-149 | each note's accidental in the key, in order, or the first lookup error |
| FlaskChord.Chord.GetIndicesFromInterval | Flask/api/chord.py:151-163 | IndexError exactly when the root index is not a position; otherwise exactly the positions of the notes that far above the root, ascending |
| FlaskChord.Chord.GetNoteNames | Flask/api/chord.py:165-172 | the names of the notes, in order |
| FlaskChord.Chord.GetNoteNameAtIndex | Flask/api/chord.py:174-188 | for created notes, a non-empty name exactly for a position Python accepts |
| FlaskChord.Chord.GetRootName | Flask/api/chord.py:190-193 | an identified chord's root name is the name of the note at its root index |
| FlaskChord.Chord.GetSeventhIndex | Flask/api/chord.py:195-219 | IndexError exactly without a root note; otherwise the first note other than the root at the quality's seventh above it, or -1 |
| FlaskChord.Chord.GetName | Flask/api/chord.py:221-234 | '' for an unknown chord; otherwise the root's name and quality text, with "/" and the bass note's name in slash notation when inverted |
| FlaskChord.Chord.GetNumeralForKey | Flask/api/chord.py:236-260 | '' for an unknown chord; otherwise the root's numeral in the key, with the inversion or in root position; for created notes it fails only on the key |
| FlaskChord.Chord.GetAppliedNumeral | Flask/api/chord.py:262-277 | the applied numeral of this chord against the base chord's root and quality; '' for an unknown base chord |
| FlaskChord.Chord.Repr | Flask/api/chord.py:315-325 | the printed notes separated by ", " |
| FlaskChord.NumeralExists | Flask/api/chord.py:236-260 | an identified chord of created notes has a numeral in every key the tables have |
| FlaskChord.CreateChord | Flask/api/chord.py:18-38 | a chord of the parsed notes; ValueError with the parse's message; ValueError for an input that is neither text nor a dictionary; KeyError for a dictionary without notes |
| FlaskChord.ReprRecreates | Flask/api/chord.py:315-325 | printing a chord and creating a chord from the text gives the same notes, already sorted |
| FlaskChord.CMajorTriad | Flask/api/chord.py:279-308 | C E G gives the interval string "43" and is identified as a major triad in root position with its root at the bass |
| CliChord.InfoOf | Cli/music/chord.py:222-225 | the table record of the sorted notes' interval string; a listed record names one of the distinct notes as root |
| CliChord.Identify | Cli/music/chord.py:219-253 | never unknown: an unlisted string gives root 0, position 0, the major quality and no seventh; otherwise the table's record with the root found among duplicated names; has_seventh exactly for a seventh quality |
| CliChord.IdentifyNotes | Cli/music/chord.py:219-253 | the body after the interval string is built computes the identification |
| CliChord.RootName | Cli/music/chord.py:155-158 | the root's name exactly when the root index is a position Python accepts; IndexError otherwise |
| CliChord.SeventhInterval | Cli/music/chord.py:160-186 | a seventh interval exactly for seventh qualities, 11 exactly for maj7 |
| CliChord.AccidentalResults | Cli/music/chord.py:131-139 | one accidental lookup per note, in order |
| CliChord.FirstSeventh | Cli/music/chord.py:160-186 | the first note other than the root at the quality's seventh above it, none before it, or -1 when there is none |
| CliChord.SeventhIndexOf | Cli/music/chord.py:160-186 | for a chord holding these notes, -1 or a note position; only IndexError is raised |
| CliChord.IndicesOf | Cli/music/chord.py:141-153 | for a chord holding these notes, positions of its notes; only IndexError is raised |
| CliChord.NumeralOf | Cli/music/chord.py:197-206 | for non-empty created notes a numeral exists exactly when the key is found |
| CliChord.SecondaryOf | Cli/music/chord.py:208-215 | '' whenever the base chord's quality takes no applied chord; otherwise V, viio or viiø for a chord that is not a diminished seventh |
| CliChord.NameOf | Cli/music/chord.py:188-195 | a name exists exactly for a non-empty chord; IndexError otherwise |
| CliChord.Chord.constructor | Cli/music/chord.py:76-86 | the chord holds its notes sorted stably by value and identified |
| CliChord.Chord.IntervalStringInfo | Cli/music/chord.py:88-116 | sorts the notes in place, returns the first note of each name and the interval string of those notes, and changes no other field |
| CliChord.Chord.IdentifyChord | Cli/music/chord.py:219-253 | after the sort, the fields are the identification of the sorted notes from the fields before; the seventh flag is only ever set |
| CliChord.Chord.FindNotesByName | Cli/music/chord.py:118-129 | exactly the positions of the notes with that name, ascending |
| CliChord.Chord.GetAccidentalsForKey | Cli/music/chord.py:131-139 | each note's accidental in the key, in order, or the error of a note whose lookup raised |
| CliChord.Chord.GetIndicesFromInterval | Cli/music/chord.py:141-153 | IndexError exactly when the root index is not a position; otherwise exactly the positions of the notes that far above the root, ascending |
| CliChord.Chord.GetRootName | Cli/music/chord.py:155-158 | the root note's name; for a constructed chord IndexError only when it has no notes |
| CliChord.Chord.GetSeventhIndex | Cli/music/chord.py:160-186 | -1 without a seventh; otherwise IndexError exactly without a root note, else the first note other than the root at the seventh above it, or -1 |
| CliChord.Chord.GetName | Cli/music/chord.py:188-195 | IndexError exactly without a root note; otherwise the root's name and quality text, with "/" and the bass note's name in slash notation when inverted |
| CliChord.Chord.GetNumeralForKey | Cli/music/chord.py:197-206 | IndexError without a root note; otherwise the root's numeral in the key with the figure when asked; for created notes it fails only on the key |
| CliChord.Chord.GetSecondaryDominantNumeral | Cli/music/chord.py:208-215 | IndexError when either chord has no root note; otherwise the secondary-dominant numeral against the base chord's key and quality, '' for a base quality that takes none |
| CliChord.Chord.Repr | Cli/music/chord.py:260-270 | the printed notes separated by ", " |
| CliChord.NumeralExists | Cli/music/chord.py:197-206 | a chord of created notes with a valid root and position has a numeral in every key the tables have |
| CliChord.CreateChord | Cli/music/chord.py:14-30 | a chord of the parsed notes; ValueError with the parse's message; ValueError for an input that is neither text nor a dictionary; KeyError for a dictionary without notes |
| CliChord.ReprRecreates | Cli/music/chord.py:260-270 | printing a chord and creating a chord from the text gives the same notes, already sorted |
| CliChord.ClusterReadsAsMajor | Cli/music/chord.py:219-253 | an unidentified chord (C D E) reads as a major triad on its bass |
| CliChord.GDominantSeventh | Cli/music/chord.py:160-186 | G B D F is a root-position seventh chord on G, and F is the seventh the search finds |
| ProgressionLists.Placed | Flask/api/chord_progression.py:41-45 | the list grows by exactly the new chord: the chords before its position are unchanged, the new chord sits at that position and the rest follow it in order |
| ProgressionLists.PlacedAt | Cli/music/chord_progression.py:37-41 | an index of 0 or none appends, so the new chord goes last |
| ProgressionLists.RemoveAsWritten | Flask/api/chord_progression.py:117-124 | a chord is removed exactly when the index is 0 or len - 1 of a non-empty list, and the result is the list without it; otherwise IndexError |
| ProgressionLists.RemovePlacedAsWritten | Flask/api/chord_progression.py:31-45 | a chord just added can be removed at its own position exactly when it went first or last, and removing it gives back the earlier progression |
| ProgressionLists.AppendedRemovable | Flask/api/chord_progression.py:117-124 | a chord appended by add_chord can always be removed again from the end |
| ProgressionLists.Remove | Cli/music/chord_progression.py:94-101 | the range reading of the test, for comparison (not what the code does): a chord is removed exactly when the index is an integer from 0 to len - 1, one chord shorter; otherwise IndexError |
| ProgressionLists.RemovePlaced | Flask/api/chord_progression.py:31-45 | under the range reading, removing the chord just added at its own position gives back the earlier progression |
| ProgressionLists.RemoveKeepsOthers | Cli/music/chord_progression.py:94-101 | under the range reading, removal keeps every other chord, in order |
| ProgressionLists.RemoveAtEndsAgree | Flask/api/chord_progression.py:120-121 | for the first and the last index, the membership test as written and the range test remove the same chord |
| ProgressionLists.MiddleNotRemovable | Cli/music/chord_progression.py:97 | the middle chord of three is refused with IndexError as written, though the range test removes it |
| ProgressionLists.AddError | Flask/api/chord_progression.py:34-39 | an input the chord factory refuses never adds a chord; a ValueError surfaces as UnboundLocalError and a missing "notes" field as KeyError |
| FlaskProgression.NotesOf | Flask/api/chord_progression.py:74 | one list of notes per chord object, in progression order |
| FlaskProgression.AppliedStep | Flask/api/chord_progression.py:86-93 | the last chord keeps its numeral; a changed numeral is the chord's applied numeral against the next chord, "/", and the next chord's root-position numeral; an IndexError never escapes |
| FlaskProgression.SatbNumeral | Flask/api/chord_progression.py:95-101 | fails exactly when the chord's notes have no accidentals in the key; a result without "bII" is the augmented-sixth name unchanged |
| FlaskProgression.OwnNumeral | Flask/api/chord_progression.py:75-79 | raises exactly when the chord's numeral in the key raises, and is that numeral for every chord that is not fully diminished |
| FlaskProgression.Renamed | Flask/api/chord_progression.py:95 | with SATB names off the numeral is kept as it is |
| FlaskProgression.NumeralAt | Flask/api/chord_progression.py:74-103 | a chord whose numeral in the key raises ends the call with that same exception |
| FlaskProgression.Numerals | Flask/api/chord_progression.py:58-105 | no numerals without a key; otherwise one numeral per chord, each chord's in its place, and a result exactly when no chord's numeral raises |
| FlaskProgression.AppliedOffIgnoresNext | Flask/api/chord_progression.py:84 | with applied numerals off, a chord's numeral does not depend on the chords after it |
| FlaskProgression.MixtureTonicAsWritten | Flask/api/chord_progression.py:84 | as written, a mixture I is still read as an applied chord with applied numerals off, while the intended test leaves it "I" |
| FlaskProgression.TonicIsMixtureInMinor | Flask/api/chord_progression.py:81 | in a minor key the numeral I is a mixture chord, so the as-written test fires for it |
| FlaskProgression.LastKeepsOwnNumeral | Flask/api/chord_progression.py:86-93 | the last chord keeps its own numeral, whatever the applied option |
| FlaskProgression.DiatonicKeepsOwnNumeral | Flask/api/chord_progression.py:81-84 | a chord diatonic to the key keeps its own numeral |
| FlaskProgression.AppliedShape | Flask/api/chord_progression.py:83-90 | a numeral other than the chord's own needs applied numerals on and a next chord, and is "applied/next" with the applied part a dominant or leading-tone numeral |
| FlaskProgression.Accidentals | Flask/api/chord_progression.py:47-56 | nothing without a key; otherwise one list per chord with one accidental per note, and a result exactly when every chord's accidentals can be found |
| FlaskProgression.ChordNames | Flask/api/chord_progression.py:107-115 | one name per chord, each chord's own name in its place |
| FlaskProgression.ValidAt | Flask/api/chord_progression.py:87 | the chord objects the numerals loop reads, chord i and the one after, are well formed |
| FlaskProgression.CreateForAdding | Flask/api/chord_progression.py:34-39 | a fresh chord with the input's notes sorted by value, or exactly the exception add_chord raises for that input |
| FlaskProgression.AddTo | Flask/api/chord_progression.py:31-45 | on error the chord list is unchanged; otherwise the new chord is placed at the index and the list stays well formed |
| FlaskProgression.PlacedValid | Flask/api/chord_progression.py:41-45 | adding a well-formed chord keeps every chord well formed |
| FlaskProgression.RemovedValid | Flask/api/chord_progression.py:120-121 | removing a chord keeps every remaining chord well formed |
| FlaskProgression.Progression.constructor | Flask/api/chord_progression.py:21-29 | the chords given and the key given (empty for none) |
| FlaskProgression.Progression.AddChord | Flask/api/chord_progression.py:31-45 | the key is unchanged; on error the chords are unchanged, otherwise one fresh chord with the sorted notes is placed at the index |
| FlaskProgression.Progression.GetProgressionChordAccidentals | Flask/api/chord_progression.py:47-56 | the accidentals of the progression's chords in its key, as Accidentals states them |
| FlaskProgression.Progression.GetProgressionChordNumerals | Flask/api/chord_progression.py:58-105 | the numerals of the progression's chords in its key, as Numerals states them |
| FlaskProgression.Progression.GetProgressionChordNames | Flask/api/chord_progression.py:107-115 | the names of the progression's chords, in order |
| FlaskProgression.Progression.RemoveChord | Flask/api/chord_progression.py:117-124 | the key is unchanged; index 0 or len - 1 takes that chord out, any other index (or none) raises IndexError and leaves the chords unchanged |
| FlaskProgression.AccidentalsFor | Flask/api/chord_progression.py:52-54 | the loop computes Accidentals of the chords' notes |
| FlaskProgression.PassAccidentals | Flask/api/chord_progression.py:53-54 | one iteration either extends the accidentals so far by chord i's or ends the call with the exception the whole call raises |
| FlaskProgression.NumeralsFor | Flask/api/chord_progression.py:72-103 | the loop computes Numerals of the chords' notes |
| FlaskProgression.PassNumeral | Flask/api/chord_progression.py:74-103 | one iteration either extends the numerals so far by chord i's or ends the call with the exception the whole call raises |
| FlaskProgression.NameOfChordAt | Flask/api/chord_progression.py:112-113 | the name of chord i's notes |
| FlaskProgression.NumeralForChord | Flask/api/chord_progression.py:75-101 | chord i's numeral as NumeralAt states it |
| FlaskProgression.AppliedReadingFor | Flask/api/chord_progression.py:75-93 | chord i's numeral before the SATB renaming, under the intended applied test |
| FlaskProgression.OwnNumeralFor | Flask/api/chord_progression.py:75-79 | the chord's own numeral as OwnNumeral states it |
| FlaskProgression.RenameFor | Flask/api/chord_progression.py:95-101 | the SATB renaming as Renamed states it |
| FlaskProgression.TryApplied | Flask/api/chord_progression.py:86-93 | the try block's result as AppliedStep states it |
| CliProgression.NotesOf | Cli/music/chord_progression.py:63 | one list of notes per chord object, in progression order |
| CliProgression.OwnNumeral | Cli/music/chord_progression.py:64-68 | raises exactly when the chord's numeral in the key raises, and is that numeral for every chord that is not fully diminished |
| CliProgression.AppliedStep | Cli/music/chord_progression.py:75-78 | a secondary-dominant reading that raises ends the call; a changed numeral is the secondary-dominant numeral, "/", and the next chord's root-position numeral |
| CliProgression.NumeralAt | Cli/music/chord_progression.py:63-80 | a chord whose own numeral raises ends the call with that same exception |
| CliProgression.Numerals | Cli/music/chord_progression.py:54-82 | no numerals without a key; otherwise one numeral per chord, each chord's in its place, and a result exactly when no chord's numeral raises |
| CliProgression.AppliedOffIgnoresNext | Cli/music/chord_progression.py:73 | with applied numerals off, a chord's numeral does not depend on the chords after it |
| CliProgression.AppliedOffKeepsOwnNumeral | Cli/music/chord_progression.py:73 | with applied numerals off, every chord keeps its own numeral |
| CliProgression.LastKeepsOwnNumeral | Cli/music/chord_progression.py:73 | the last chord keeps its own numeral, whatever the applied option |
| CliProgression.DiatonicKeepsOwnNumeral | Cli/music/chord_progression.py:70-73 | a diatonic chord other than I and the III forms keeps its own numeral |
| CliProgression.AppliedShape | Cli/music/chord_progression.py:73-78 | a numeral other than the chord's own needs applied numerals on, a next chord of a quality that takes applied chords, and is "secondary/next" with a non-empty secondary part |
| CliProgression.Accidentals | Cli/music/chord_progression.py:43-52 | nothing without a key; otherwise one list per chord with one accidental per note, and a result exactly when every chord's accidentals can be found |
| CliProgression.ChordNames | Cli/music/chord_progression.py:84-92 | one name per chord in its place, and an IndexError exactly when some chord has no notes |
| CliProgression.CollectRaises | Cli/music/chord_progression.py:89-90 | an exception that ends a loop over the chords is the one some chord raised |
| CliProgression.ValidAt | Cli/music/chord_progression.py:75 | the chord objects the numerals loop reads, chord i and the one after, are well formed |
| CliProgression.CreateForAdding | Cli/music/chord_progression.py:29-33 | a fresh chord with the input's notes sorted by value, or exactly the exception add_chord raises for that input |
| CliProgression.AddTo | Cli/music/chord_progression.py:26-41 | on error the chord list is unchanged; otherwise the new chord is placed at the index and the list stays well formed |
| CliProgression.PlacedValid | Cli/music/chord_progression.py:37-41 | adding a well-formed chord keeps every chord well formed |
| CliProgression.RemovedValid | Cli/music/chord_progression.py:97-98 | removing a chord keeps every remaining chord well formed |
| CliProgression.Progression.constructor | Cli/music/chord_progression.py:16-24 | the chords given and the key given (empty for none) |
| CliProgression.Progression.AddChord | Cli/music/chord_progression.py:26-41 | the key is unchanged; on error the chords are unchanged, otherwise one fresh chord with the sorted notes is placed at the index |
| CliProgression.Progression.GetProgressionChordAccidentals | Cli/music/chord_progression.py:43-52 | the accidentals of the progression's chords in its key, as Accidentals states them |
| CliProgression.Progression.GetProgressionChordNumerals | Cli/music/chord_progression.py:54-82 | the numerals of the progression's chords in its key, as Numerals states them |
| CliProgression.Progression.GetProgressionChordNames | Cli/music/chord_progression.py:84-92 | the names of the progression's chords, as ChordNames states them |
| CliProgression.Progression.RemoveChord | Cli/music/chord_progression.py:94-101 | the key is unchanged; index 0 or len - 1 takes that chord out, any other index (or none) raises IndexError and leaves the chords unchanged |
| CliProgression.AccidentalsFor | Cli/music/chord_progression.py:48-50 | the loop computes Accidentals of the chords' notes |
| CliProgression.PassAccidentals | Cli/music/chord_progression.py:49-50 | one iteration either extends the accidentals so far by chord i's or ends the call with the exception the whole call raises |
| CliProgression.NamesFor | Cli/music/chord_progression.py:89-90 | the loop computes ChordNames of the chords' notes |
| CliProgression.PassName | Cli/music/chord_progression.py:89-90 | one iteration either extends the names so far by chord i's or ends the call with the exception the whole call raises |
| CliProgression.NumeralsFor | Cli/music/chord_progression.py:61-80 | the loop computes Numerals of the chords' notes |
| CliProgression.PassNumeral | Cli/music/chord_progression.py:63-80 | one iteration either extends the numerals so far by chord i's or ends the call with the exception the whole call raises |
| CliProgression.NumeralForChord | Cli/music/chord_progression.py:64-78 | chord i's numeral as NumeralAt states it |
| CliProgression.OwnNumeralFor | Cli/music/chord_progression.py:64-68 | the chord's own numeral as OwnNumeral states it |
| CliProgression.ApplyNext | Cli/music/chord_progression.py:75-78 | the secondary-dominant rewriting as AppliedStep states it |
| FlaskValidator.SeventhIndexFor | Flask/api/satb_validator.py:161-175 | the chord's own seventh index except for a fully-diminished chord, whose "vio7" reading moves it to voice 0; an index Python accepts for the chord |
| FlaskValidator.SeventhTarget | Flask/api/satb_validator.py:177-185 | the seventh's name and the key note one degree below the seventh's degree, wrapping from degree 0 to degree 6 |
| FlaskValidator.SeventhResolution | Flask/api/satb_validator.py:155-201 | an ERR_UNRESOLVED_7TH error naming the previous chord and the seventh's voice exactly when that voice does not move to the resolution note and the seventh is not kept in the current chord |
| FlaskValidator.LeadingResolution | Flask/api/satb_validator.py:111-152 | only a previous chord numbered Imaj7, iii, V or vii is checked; an error names the first voice on the leading tone, which neither rose a semitone nor is kept; a leading tone missing from that chord raises TypeError |
| FlaskValidator.SeventhPart | Flask/api/satb_validator.py:221-222 | a previous chord without a seventh adds no resolution error |
| FlaskValidator.PairChecks | Flask/api/satb_validator.py:219-224 | the parallel-motion errors come first among the errors against the previous chord |
| FlaskValidator.PairedWith | Flask/api/satb_validator.py:218 | no previous chord, or one with no notes, adds no error |
| FlaskValidator.ChordChecks | Flask/api/satb_validator.py:215-228 | a chord of fewer than four notes raises IndexError and a passing chord has exactly four; its spacing errors come first, and the first chord has only spacing and range errors |
| FlaskValidator.ChordErrors | Flask/api/satb_validator.py:213 | naming the chord in the key comes first: its exception ends the pass, otherwise the chord's checks follow |
| FlaskValidator.ChordResults | Flask/api/satb_validator.py:212 | one result per chord |
| FlaskValidator.ResultOf | Flask/api/satb_validator.py:212-230 | chord i's result is its errors, numbered i + 1, against the chord before it |
| FlaskValidator.FourVoicesOnly | Flask/api/satb_validator.py:203-232 | a pass that returns has seen only four-note chords, each named in the key |
| FlaskValidator.FirstChordAlone | Flask/api/satb_validator.py:212-228 | the errors returned start with the first chord's spacing and then range errors |
| FlaskValidator.SeventhIndexOfChord | Flask/api/satb_validator.py:161-175 | the seventh index as SeventhIndexFor states it |
| FlaskValidator.CheckSeventhResolution | Flask/api/satb_validator.py:155-201 | the check's result as SeventhResolution states it |
| FlaskValidator.CheckLeadingResolution | Flask/api/satb_validator.py:111-152 | the check's result as LeadingResolution states it |
| FlaskValidator.PairChecksFor | Flask/api/satb_validator.py:218-224 | the checks against the previous chord object as PairedWith states them |
| FlaskValidator.CheckChord | Flask/api/satb_validator.py:213-228 | chord i's errors against chord i - 1, numbered i + 1, as ChordErrors states them |
| FlaskValidator.PassedStep | Flask/api/satb_validator.py:212-230 | a chord's exception is the outcome of the whole pass; otherwise its errors extend the errors so far |
| FlaskValidator.PassChord | Flask/api/satb_validator.py:212-230 | one iteration either extends the errors so far by chord i's or ends the pass with the exception the whole pass raises |
| FlaskValidator.ValidateProgression | Flask/api/satb_validator.py:203-232 | the pass over the chord objects computes Validate of their notes |
| VoiceLeading.SpacingErrors | Flask/api/satb_validator.py:13-38 | IndexError exactly for fewer than four notes; otherwise at most three spacing errors, each present exactly when its pair of voices is further apart than 12, 12 or 24 semitones |
| VoiceLeading.VoiceInRange | Cli/music/satb_validator.py:68-109 | IndexError exactly for a voice number past 4; otherwise no error inside the voice's range, its LOW error below it and its HIGH error above it |
| VoiceLeading.RangeErrors | Flask/api/satb_validator.py:227-228 | IndexError exactly for more than four notes; otherwise at most one error per note |
| VoiceLeading.RangeFlagged | Flask/api/satb_validator.py:40-81 | a chord's range errors name exactly the voices outside their range, each in the direction it leaves it |
| VoiceLeading.VoiceFlag | Flask/api/satb_validator.py:52-79 | the only range code a voice can produce is its own, in its own direction |
| VoiceLeading.RangeCodesDiffer | Cli/music/satb_validator.py:68-109 | the eight range codes name distinct voice and direction pairs |
| VoiceLeading.CheckRanges | Flask/api/satb_validator.py:227-228 | the loop over the notes, from the bass up, computes RangeErrors |
| VoiceLeading.PairResult | Flask/api/satb_validator.py:91-107 | for voices present in both chords, an error exactly when the pair is a fifth or an octave apart in both; the current chord is read only for such a pair, so a missing voice raises IndexError only there |
| VoiceLeading.RowResults | Flask/api/satb_validator.py:90 | one result per pair (i, j), j running upward from i + 1 |
| VoiceLeading.MovementResults | Flask/api/satb_validator.py:89 | one row per voice of the previous chord but its last |
| VoiceLeading.MovementErrors | Cli/music/satb_validator.py:111-137 | the only exception is IndexError |
| VoiceLeading.ParallelFlagged | Flask/api/satb_validator.py:83-109 | when the current chord has the previous chord's voices, the check succeeds and reports exactly the pairs i < j moving in parallel fifths or octaves, with both chord numbers |
| VoiceLeading.RowFlagged | Flask/api/satb_validator.py:90-107 | the row of lower voice a reports exactly the parallel pairs (a, j) |
| VoiceLeading.CheckVoiceMovement | Flask/api/satb_validator.py:83-109 | the nested loop computes MovementErrors |
| VoiceLeading.CheckPairsFrom | Cli/music/satb_validator.py:116-135 | the inner loop for one lower voice computes that voice's row |
| VoiceLeading.ResolutionDegree | Flask/api/satb_validator.py:181-185 | a seventh resolves one degree down, and the tonic's to degree 6 |
| VoiceLeading.FindFirstNamed | Flask/api/satb_validator.py:128-134 | the search stops at the first note with the name |
| VoiceLeading.AppearsIn | Flask/api/satb_validator.py:143-145 | true exactly when some note of the chord has the name |
| CliValidator.Dim7SeventhIndex | Cli/music/satb_validator.py:222-239 | the exception of naming the chord in the key, voice 0 for the vio and bvio readings, and otherwise an index Python accepts or -1 for no seventh |
| CliValidator.SeventhOf | Cli/music/satb_validator.py:29-33 | an index Python accepts for the chord, or -1 for no seventh |
| CliValidator.LeadingDoubling | Cli/music/satb_validator.py:18-22 | a result exactly when the key has a leading tone; ERR_DOUBLED_LT exactly when that tone is spelled more than once |
| CliValidator.SeventhDoubling | Cli/music/satb_validator.py:24-38 | ERR_DOUBLED_7TH exactly when the spelling of the chord's seventh occurs more than once |
| CliValidator.LeadingResolution | Cli/music/satb_validator.py:139-174 | no error when the previous chord lacks the leading tone; otherwise an error naming its first voice on the leading tone exactly when that voice neither rose a semitone nor is the tone kept in the current chord |
| CliValidator.SeventhTarget | Cli/music/satb_validator.py:194-202 | the seventh's name, read at an index Python accepts, and the key note it resolves to |
| CliValidator.SeventhResolution | Cli/music/satb_validator.py:177-219 | an ERR_UNRESOLVED_7TH error naming the previous chord and the seventh's voice exactly when that voice does not move to the resolution note and the seventh is not kept in the current chord |
| CliValidator.OwnReading | Cli/music/satb_validator.py:253-259 | raises exactly when naming the chord in the key raises; the reading is in the given key, not applied, and its numeral is the chord's own unless it is fully diminished |
| CliValidator.AppliedKey | Cli/music/satb_validator.py:279-282 | the applied key exists exactly when the next chord has notes to name a root |
| CliValidator.AppliedReading | Cli/music/satb_validator.py:272-288 | the chord is read as applied exactly when the next chord exists and gives a non-empty secondary-dominant numeral, then in the next chord's key; otherwise it is flagged ERR_UNKNOWN_CHORD, the last chord included |
| CliValidator.ReadChord | Cli/music/satb_validator.py:266-288 | ERR_UNKNOWN_CHORD is flagged exactly for a quality outside the nine known ones or a chord tried as applied that is not; a known chord not tried keeps its own reading |
| CliValidator.LeadingPart | Cli/music/satb_validator.py:298-299 | only the numerals Imaj7, iii, V, viio and viiø are checked for a doubled leading tone |
| CliValidator.SeventhPart | Cli/music/satb_validator.py:301-302 | a chord without a seventh is not checked for a doubled seventh |
| CliValidator.SingleChecks | Cli/music/satb_validator.py:291-302 | the spacing errors and then the range errors come first; with no doubling check due they are all the errors |
| CliValidator.CheckKey | Cli/music/satb_validator.py:309-325 | after a chord that was not applied, the resolutions are checked in the chord's own key |
| CliValidator.SeventhResolutionPart | Cli/music/satb_validator.py:312-313 | a previous chord without a seventh adds no resolution error |
| CliValidator.LeadingResolutionPart | Cli/music/satb_validator.py:315-325 | the exception of naming the previous chord, and no error for a numeral outside the list |
| CliValidator.PairChecks | Cli/music/satb_validator.py:305-325 | the parallel-motion errors come first among the errors against the previous chord |
| CliValidator.StepShape | Cli/music/satb_validator.py:252-328 | a chord without four voices raises exactly when naming it raises and otherwise adds only ERR_NUM_VOICES and carries the previous chord on; a four-voice chord becomes the previous chord, and an unknown quality is its first error |
| CliValidator.FourVoiceStep | Cli/music/satb_validator.py:266-328 | an unknown quality is the chord's first error |
| CliValidator.RunFrom | Cli/music/satb_validator.py:252-328 | the pass only appends to the errors found so far |
| CliValidator.VoiceCountOnly | Cli/music/satb_validator.py:262-264 | a chord without four voices adds exactly ERR_NUM_VOICES at its number and leaves the previous chord as it was |
| CliValidator.LastTriedIsUnknown | Cli/music/satb_validator.py:272-288 | the last chord tried as a secondary dominant has no next chord and is flagged ERR_UNKNOWN_CHORD |
| CliValidator.GetDim7SeventhIndex | Cli/music/satb_validator.py:222-239 | the index as Dim7SeventhIndex states it |
| CliValidator.SeventhIndexFor | Cli/music/satb_validator.py:29-33 | the index as SeventhOf states it |
| CliValidator.CheckChordDoubling | Cli/music/satb_validator.py:13-40 | the leading-tone check as LeadingDoubling states it, the seventh check as SeventhDoubling states it |
| CliValidator.CheckLeadingResolution | Cli/music/satb_validator.py:139-174 | the check's result as LeadingResolution states it |
| CliValidator.CheckSeventhResolution | Cli/music/satb_validator.py:177-219 | the check's result as SeventhResolution states it |
| CliValidator.SeventhTargetFor | Cli/music/satb_validator.py:194-202 | the seventh and its resolution note as SeventhTarget states them |
| CliValidator.OwnReadingFor | Cli/music/satb_validator.py:253-259 | the reading as OwnReading states it |
| CliValidator.ReadChordFor | Cli/music/satb_validator.py:266-288 | the reading as ReadChord states it |
| CliValidator.LeadingPartFor | Cli/music/satb_validator.py:298-299 | the check as LeadingPart states it |
| CliValidator.SeventhPartFor | Cli/music/satb_validator.py:301-302 | the check as SeventhPart states it |
| CliValidator.SingleChecksFor | Cli/music/satb_validator.py:291-302 | the checks as SingleChecks states them |
| CliValidator.SeventhResolutionPartFor | Cli/music/satb_validator.py:312-322 | the check as SeventhResolutionPart states it |
| CliValidator.LeadingResolutionPartFor | Cli/music/satb_validator.py:315-325 | the check as LeadingResolutionPart states it |
| CliValidator.PairChecksFor | Cli/music/satb_validator.py:305-325 | the checks as PairChecks states them |
| CliValidator.CarriedOf | Cli/music/satb_validator.py:249-250 | a previous chord is carried exactly when the loop has one |
| CliValidator.PairedWithFor | Cli/music/satb_validator.py:305-325 | the checks against the previous chord object, none for the first chord |
| CliValidator.CheckFourVoiceChord | Cli/music/satb_validator.py:266-325 | the four-voice chord's errors and relation as FourVoiceStep states them |
| CliValidator.ReadingChecksFor | Cli/music/satb_validator.py:291-325 | the checks of a read four-voice chord |
| CliValidator.RunNext | Cli/music/satb_validator.py:252-328 | a step that returns extends the errors and carries the pass on to the next chord |
| CliValidator.RunRaised | Cli/music/satb_validator.py:252-328 | a step that raises ends the whole pass with its exception |
| CliValidator.CheckChord | Cli/music/satb_validator.py:253-328 | one loop body computes Step for chord i, and the chord it carries is a four-voice chord of the progression |
| CliValidator.FourVoiceFor | Cli/music/satb_validator.py:266-328 | a four-voice chord's checks, and the chord becomes the previous chord when they return |
| CliValidator.PassedAll | Cli/music/satb_validator.py:330 | after the last chord the errors collected are the result of the pass |
| CliValidator.PassedStep | Cli/music/satb_validator.py:252-328 | a chord's exception is the outcome of the whole pass; otherwise its errors extend the errors so far |
| CliValidator.PassChord | Cli/music/satb_validator.py:252-328 | one iteration either carries the pass one chord further or ends it with the exception the whole pass raises |
| CliValidator.ValidateProgression | Cli/music/satb_validator.py:242-330 | the pass over the chord objects computes Validate of their notes |
| RootChord.RecordValues | chord.py:41 | the sort key of each record, in order |
| RootChord.TokenRecords | chord.py:90-93 | the record create_note makes of each token with its whitespace stripped, one per token |
| RootChord.ParsedRecords | chord.py:81-94 | fewer than three tokens raise InvalidChordError and append nothing; otherwise the records of the tokens are appended in order up to the first bad token, whose InvalidNoteError ends the parse |
| RootChord.CreateNotes | chord.py:90-94 | the loop appends the records in order until the first error, as AppendUntilError states it |
| RootChord.ParseTokens | chord.py:84-94 | the split, the count check and the loop compute ParseResult |
| RootChord.NoteIntervals | chord.py:43-50 | the step (0 to 11) from each record's value to the next, and those steps written out one after another |
| RootChord.AsNotes | chord.py:114-115 | each record read as a note, in order |
| RootChord.TwoStepsTwoChars | chord.py:50 | two or more steps write out as two or more characters |
| RootChord.BassInRange | chord.py:67-68 | for three or more records the table's bass index names one of them, so identify_chord never indexes past the notes of a parsed chord |
| RootChord.ParsedEnough | chord.py:87-88 | a parse without error leaves three or more records |
| RootChord.Chord.constructor | chord.py:12-36 | a failed parse leaves the records made before the failure and nothing else set; otherwise the records sorted by value, one step per adjacent pair, and the table's bass index and name |
| RootChord.Chord.CalculateChordIntervals | chord.py:38-50 | the records sorted by value in place, and one step per adjacent pair appended to the interval list and to the interval string; nothing else changes |
| RootChord.Chord.GetChordIntervals | chord.py:52-53 | the interval list |
| RootChord.Chord.IdentifyChord | chord.py:55-74 | 'Unknown Chord' for a string the table lacks; otherwise the table's bass index, and the bass note's name and quality appended to the name, or IndexError when that index is past the notes |
| RootChord.Chord.ParseChordString | chord.py:81-94 | appends the records of the tokens up to the first bad one and reports the error that stopped it; nothing else changes |
| RootChord.Chord.Repr | chord.py:108-118 | each record printed as name and octave, separated by ", " |
| RootChord.AsNoteWellFormed | chord.py:114-115 | a created record read as a note is a note the note model creates |
| RootChord.CreatePrintedRecord | chord.py:115 | a printed record creates that record again |
| RootChord.TokenCreates | chord.py:90-93 | a token holding a printed record, with or without the space before it, creates that record |
| RootChord.ReprTokens | chord.py:108-118 | splitting the printed records at the commas gives one token per record, each creating its record |
| RootChord.ReprRecreates | chord.py:108-118 | parsing what __repr__ prints for three or more created records gives those records back, without error |
| RootProgression.Then | chordProgression.py:182-190 | work after an exception does not run: the findings and exception of the first part stand; otherwise the findings of both parts in order and the second part's exception |
| RootProgression.ThenAssociates | chordProgression.py:174-192 | how the loop body's checks are grouped does not change what they leave behind |
| RootProgression.ExtendThen | chordProgression.py:174-192 | appending two checks' findings is appending the first's and then, unless it raised, the second's |
| RootProgression.VoiceName | chordProgression.py:85-89 | a voice name exists exactly for the voice numbers 1 to 4; SATBVoices raises ValueError for any other |
| RootProgression.Spacing | chordProgression.py:103-120 | at most three spacing findings, each present exactly when its pair of voices is further apart than 12, 12 or 24 semitones |
| RootProgression.SpacingShifted | chordProgression.py:103-120 | moving every voice by the same amount keeps the spacing findings |
| RootProgression.Shifted | chordProgression.py:148 | every value moved by the same amount |
| RootProgression.RangeFinding | chordProgression.py:122-140 | at most one range finding, none exactly when the note lies in the voice's range |
| RootProgression.RangeRaisesPastFour | chordProgression.py:189-190 | the range loop raises exactly when the chord has a fifth note, which names no voice |
| RootProgression.Interval | chordProgression.py:148 | the interval between two notes is a pitch-class distance, 0 to 11 |
| RootProgression.PairTrace | chordProgression.py:148-164 | raises exactly when the previous chord's pair is a fifth or an octave and the current chord lacks voice j; otherwise a finding exactly when the current chord keeps that fifth or octave |
| RootProgression.RowNeverRaises | chordProgression.py:147-164 | a current chord with at least as many voices as the previous one is compared without raising |
| RootProgression.MovementNeverRaises | chordProgression.py:146-164 | the whole movement check raises nothing when the current chord has at least the previous chord's voices |
| RootProgression.RowShifted | chordProgression.py:147-164 | transposing either chord keeps the row's findings |
| RootProgression.MovementShifted | chordProgression.py:142-164 | transposing either chord keeps the movement findings |
| RootProgression.RepeatedRowFlags | chordProgression.py:147-164 | a chord repeated note for note is flagged in every row holding a fifth or an octave |
| RootProgression.RepeatedChordFlags | chordProgression.py:142-164 | a chord repeated note for note with a fifth or an octave between two voices is flagged for parallel motion |
| RootProgression.ChordRaisesUnlessFour | chordProgression.py:177-190 | after a four-voice chord, a chord's checks run to the end exactly when it has four voices |
| RootProgression.PassStepRaises | chordProgression.py:174-192 | the pass goes on past a chord exactly when that chord has four voices |
| RootProgression.FourVoicesFromNext | chordProgression.py:174 | a four-voice chord i followed only by four-voice chords is the same as all chords from i having four voices |
| RootProgression.PassRaisesUnlessFourVoices | chordProgression.py:166-192 | the pass runs to its end exactly when every chord has four voices: fewer raise IndexError in the spacing check, more raise ValueError in the range check |
| RootProgression.SATBValidator.constructor | chordProgression.py:100-101 | no findings |
| RootProgression.SATBValidator.CheckVoiceDistances | chordProgression.py:103-120 | the spacing findings appended to the list, or IndexError for fewer than four notes |
| RootProgression.SATBValidator.CheckVoiceInRange | chordProgression.py:122-140 | the voice's range finding appended, or ValueError for a voice number past 4 |
| RootProgression.SATBValidator.CheckPair | chordProgression.py:148-164 | the pair's finding appended, or the IndexError of a missing current voice |
| RootProgression.SATBValidator.CheckRow | chordProgression.py:147-164 | the findings of voice i against the voices above it appended, up to the first exception |
| RootProgression.SATBValidator.CheckVoiceMovement | chordProgression.py:142-164 | the movement findings appended, up to the first exception |
| RootProgression.SATBValidator.CheckRanges | chordProgression.py:189-190 | the range findings of every note appended, up to the first exception |
| RootProgression.SATBValidator.CheckChord | chordProgression.py:177-190 | the loop body's findings for one chord appended, up to the first exception |
| RootProgression.SATBValidator.CheckVoices | chordProgression.py:182-190 | the spacing, movement and range findings appended, in that order |
| RootProgression.SATBValidator.CheckAgainstPrevious | chordProgression.py:185-190 | the movement findings when there is a previous chord, then the range findings |
| RootProgression.SATBValidator.ValidateProgression | chordProgression.py:166-192 | the findings start again from none, so they depend on the chords and the key alone, and an exception leaves those appended before it |
| RootProgression.NumeralsOf | chordProgression.py:233-235 | one numeral per chord, each chord's numeral in the key |
| RootProgression.ChordProgression.constructor | chordProgression.py:199-207 | the chords given and the key given (empty for none) |
| RootProgression.ChordProgression.AddChord | chordProgression.py:209-224 | a ValueError leaves the chords as they were and is swallowed, another exception passes on, and a created chord is placed at a non-zero index or appended |
| RootProgression.ChordProgression.RemoveChord | chordProgression.py:242-246 | a missing or zero index removes nothing; any other index pops that chord, or raises IndexError with the chords unchanged |
| RootProgression.ChordProgression.GetProgressionChordNumerals | chordProgression.py:226-237 | nothing without a key; otherwise one numeral per chord, in order |
| RootProgression.ChordProgression.ValidateProgression | chordProgression.py:251-253 | the shared validator's findings are those of the pass over the chords in the key |
| FlaskFuncs.ChordName | Flask/api/musicFuncs.py:9-12 | a name exactly when create_chord accepts the input, otherwise create_chord's own exception |
| FlaskFuncs.AnalyzeChord | Flask/api/musicFuncs.py:9-12 | the result as ChordName states it |
| FlaskFuncs.ProgressionKey | Flask/api/musicFuncs.py:34-36 | a key containing "m" loses its last character and is lower-cased; any other key is passed on unchanged |
| FlaskFuncs.KeyOf | Flask/api/musicFuncs.py:34-36 | a missing key (None) raises TypeError at the "m" test; a given key is adjusted as ProgressionKey states |
| FlaskFuncs.MinorKeyLowered | Flask/api/musicFuncs.py:34-36 | a minor key written as its tonic and "m" becomes the tonic in lower case; the tonic alone is kept |
| FlaskFuncs.ZipLength | Flask/api/musicFuncs.py:52 | zip stops at the shortest list |
| FlaskFuncs.Entries | Flask/api/musicFuncs.py:48-53 | IndexError exactly when the accidentals run out before zip does; otherwise one entry per position zip gives, holding that position's name, numeral, printed notes and accidentals |
| FlaskFuncs.ResultsOf | Flask/api/musicFuncs.py:19-29 | one create_chord result per input, and none without a list |
| FlaskFuncs.AnalysedRaises | Flask/api/musicFuncs.py:39-55 | the analysis of the chords kept fails exactly when their numerals or their accidentals raise, and otherwise is a list of entries |
| FlaskFuncs.AnalysedPerChord | Flask/api/musicFuncs.py:39-55 | with a key, one entry per chord kept, in input order: its slash name, its numeral with applied and SATB readings, its printed notes and one accidental per note |
| FlaskFuncs.NoKeyNoEntries | Flask/api/musicFuncs.py:46-53 | without a key the chords kept get no entries, as the accidentals list is empty |
| FlaskFuncs.PrintedNotesRecreate | Flask/api/musicFuncs.py:53 | the printed notes of every chord kept create the same chord again, with the same name |
| FlaskFuncs.NoValidChordsExactly | Flask/api/musicFuncs.py:19-32 | the answer is NO_VALID_CHORDS exactly when there is no input or create_chord refuses every input with a ValueError |
| FlaskFuncs.AnalysisOfKept | Flask/api/musicFuncs.py:22-55 | otherwise the answer is the first exception create_chord raises other than ValueError, or the analysis of exactly the chords created, in input order, in the adjusted key; with a missing key that analysis raises TypeError |
| FlaskFuncs.SkippedInputIgnored | Flask/api/musicFuncs.py:28-29 | an input refused with a ValueError changes nothing, wherever it stands in the list |
| FlaskFuncs.SkippedResultIgnored | Flask/api/musicFuncs.py:22-32 | the same holds for any analysis of the chords kept |
| FlaskFuncs.CreateOne | Flask/api/musicFuncs.py:25 | a fresh chord with the input's notes exactly when create_chord accepts it, otherwise its exception |
| FlaskFuncs.CreateAll | Flask/api/musicFuncs.py:22-29 | every chord created, in input order, with the inputs refused by ValueError skipped, and any other exception raised |
| FlaskFuncs.AppendChord | Flask/api/musicFuncs.py:26 | appending a chord extends the notes of the list by its notes |
| FlaskFuncs.BuildEntries | Flask/api/musicFuncs.py:52-53 | the loop computes Entries |
| FlaskFuncs.AnalyseChords | Flask/api/musicFuncs.py:39-55 | the progression part computes the analysis of the chords' notes in the key |
| FlaskFuncs.KeyFor | Flask/api/musicFuncs.py:34-36 | the key as KeyOf states it, TypeError for a missing key |
| FlaskFuncs.AnalyzeProgression | Flask/api/musicFuncs.py:15-55 | the answer as AnalysisOf states it |
| CliFuncs.ChordName | Cli/musicFuncs.py:7-10 | create_chord's exception when it refuses the input, and a name whenever it accepts it |
| CliFuncs.AnalyzeChord | Cli/musicFuncs.py:7-10 | the result as ChordName states it |
| CliFuncs.ZipLength | Cli/musicFuncs.py:43 | zip stops at the shortest list |
| CliFuncs.Entries | Cli/musicFuncs.py:39-44 | one entry per position zip gives, holding that position's name, numeral and printed notes |
| CliFuncs.ResultsOf | Cli/musicFuncs.py:17-27 | one create_chord result per input, and none without a list |
| CliFuncs.AnalysedRaises | Cli/musicFuncs.py:33-46 | every chord kept has a name, so the analysis fails exactly when a numeral raises, and otherwise is a list of entries |
| CliFuncs.AnalysedPerChord | Cli/musicFuncs.py:33-46 | with a key, one entry per chord kept, in input order: its name, its numeral without applied readings and its printed notes |
| CliFuncs.NoKeyNoEntries | Cli/musicFuncs.py:37-44 | without a key the chords kept get no entries, as the numerals list is empty |
| CliFuncs.PrintedNotesRecreate | Cli/musicFuncs.py:44 | the printed notes of every chord kept create the same chord again, with the same name |
| CliFuncs.NoValidChordsExactly | Cli/musicFuncs.py:17-30 | the answer is NO_VALID_CHORDS exactly when there is no input or create_chord refuses every input with a ValueError |
| CliFuncs.AnalysisOfKept | Cli/musicFuncs.py:20-46 | otherwise the answer is the first exception create_chord raises other than ValueError, or the analysis of exactly the chords created, in input order, in the key as given |
| CliFuncs.SkippedInputIgnored | Cli/musicFuncs.py:26-27 | an input refused with a ValueError changes nothing, wherever it stands in the list |
| CliFuncs.SkippedResultIgnored | Cli/musicFuncs.py:20-30 | the same holds for any analysis of the chords kept |
| CliFuncs.CreateOne | Cli/musicFuncs.py:23 | a fresh chord with the input's notes exactly when create_chord accepts it, otherwise its exception |
| CliFuncs.CreateAll | Cli/musicFuncs.py:20-27 | every chord created, in input order, with the inputs refused by ValueError skipped, and any other exception raised |
| CliFuncs.AppendChord | Cli/musicFuncs.py:24 | appending a chord extends the notes of the list by its notes |
| CliFuncs.BuildEntries | Cli/musicFuncs.py:43-44 | the loop computes Entries |
| CliFuncs.AnalyseChords | Cli/musicFuncs.py:33-46 | the progression part computes the analysis of the chords' notes in the key |
| CliFuncs.AnalyzeProgression | Cli/musicFuncs.py:13-46 | the answer as AnalysisOf states it |

## Left out

- Console output: every `print` call, `print_chord_info` and the demonstration script at the end of `chordProgression.py`. They print and compute nothing.
- `__len__`, `__str__` and `__repr__` of the chord and progression classes. They only format output.
- `Cli/music/note.py` is not part of this model. The command-line chord is built on the note model of `Music/music/note.py` (`MusicNote`), whose interface it uses.
- Imports of names that do not exist where they are imported. Each function that relies on one gets what it needs as a parameter or from the function that does exist. Examples are `get_lt_numeral_for_dim7` in the command-line validator, `get_key_note_for_degree` and `get_index_from_interval` in the web validator, and the three-argument `identify_chord_numeral_for_key` in `chord.py`.
- The `has_seventh` field, which `Flask/api/satb_validator.py` reads but the web chord never sets. It is modelled as the five qualities `get_seventh_index` finds a seventh for (`FlaskValidator.HasSeventh`).
- `RootProgression.ProgChord`: the validator of `chordProgression.py` sees a chord only through its note values and its `identify_numeral_by_key`, which the model takes as a given function.
- `get_progression_chord_names` and `update_chord` in `chordProgression.py` have empty bodies (`pass`), so there is nothing to model.
- A missing key (`None`) of a progression class, of the validators and of `Cli/musicFuncs.py` is modelled as the empty string, since that code only tests the key's truth. The web entry point takes an optional key instead, because its `'m' in key` test raises `TypeError` for `None` (`FlaskFuncs.KeyOf`).
- The `validate` parameter of `analyze_progression` is never read, so it is not a parameter of the model.
- `isinstance` admits `bool` where an `int` index is expected. The model's index is an `int` or absent, and `True`/`False` are not modelled.
- Py.IsDigit and NoteText.FirstDigit: accept only the ASCII digits `0`-`9`. Python's `str.isdigit()` also accepts other Unicode digits, so `C٣` is octave 3 in `Music/music/note.py` and invalid in the model, and `C²` makes `int()` raise `ValueError` there.
- Python's full Unicode tables for `lower()`, `upper()` and `strip()`. `Py.Lower` and `Py.Capitalise` change only ASCII letters, and `Py.Strip` removes only ASCII whitespace. The engine's names and numerals are ASCII apart from `ø`, which has no case.
- The identity and sharing of Python objects. Notes and chords are values, and a progression's list holds copies.
- FlaskProgression.Renamed: its contract states only the case without SATB names. The renaming itself is stated by `FlaskProgression.SatbNumeral` and its lemmas.
- FlaskValidator.SeventhPart: its contract states only that a previous chord without a seventh adds nothing. The check itself is `FlaskValidator.SeventhResolution`.
- CliValidator.SeventhPart: its contract states only that a chord without a seventh adds nothing. The check itself is `CliValidator.SeventhDoubling`.
- CliValidator.CheckKey: its contract states only the key after a chord that is not applied. After an applied chord the key is the current chord's root name.
- FlaskValidator.ChordResults: its contract states only that there is one result per chord. Each result is stated by `FlaskValidator.ResultOf`.

## Findings

| source | as written | input that shows it | evidently intended | confidence | as-written member | corrected member |
|---|---|---|---|---|---|---|
| Flask/api/music_info.py:612-623 | the accidental prefix of a chromatic root compares raw 0-11 values, so a step across the B/C boundary falls to the `bb` default | root B# in C major: B# is 0 and B is 11, so the prefix is `bb` | a root one semitone above its scale note gets `#` | high, not executed | Scales.PrefixWrapCounterexample | Scales.Prefix |
| Cli/music/music_info.py:484-498 | the same raw 0-11 comparison in the command-line numeral code | root B# in C major gets `bb` | a root one semitone above its scale note gets `#` | high, not executed | Scales.PrefixWrapCounterexample | Scales.Prefix |
| Flask/api/musicInfo.py:488-500 | the same raw 0-11 comparison in the oldest numeral code | root B# in C major gets `bb` | a root one semitone above its scale note gets `#` | high, not executed | Scales.PrefixWrapCounterexample | Scales.Prefix |
| Flask/api/music_info.py:326-348 | `__strip_inversion_string` drops one character whenever `6` is in a triad numeral | `I6/4` strips to `I6/` | `I6/4` strips to `I` | high, not executed | FlaskTheory.StripSecondInversionAsWritten | FlaskTheory.StripTriadFigure |
| Flask/api/music_info.py:406-438 | the relation of a second-inversion triad is looked up after the faulty strip | `I6/4` in C is reported chromatic | `I6/4` is diatonic, like `I` | high, not executed | FlaskTheory.SecondInversionRelationAsWritten | FlaskTheory.RelationIgnoresInversion |
| Flask/api/music_info.py:45-47 | the major-key seventh numerals list `iiim7` | `iii7` in C major is reported chromatic | `iii7` is the diatonic seventh chord on degree 3 | high, not executed | FlaskTheory.MediantSeventhAsWritten | FlaskTheory.MajorDegreeNumerals |
| Flask/api/music_info.py:85-104 | three minor scale rows are miscopied | the E-flat minor row spells `Fb` for F | every minor row spells the natural minor scale on its tonic | high, not executed | FlaskTheory.EbMinorAsWritten | FlaskTheory.MinorRowsSpell |
| Cli/music/music_info.py:76 | the F major triad row ends in `Ebo` | `Eo` in F is not read as `viio` | the leading-tone triad of F is `Eo` | high, not executed | CliTheory.FLeadingToneTriadAsWritten | CliTheory.LeadingToneTriadIsSecondary |
| Flask/api/musicInfo.py:24-58 | the F major, E-flat minor and G-sharp minor rows are misspelled | the leading tone of F is `Eb`, a whole tone below the tonic | every row spells its scale, and the leading tone of F is `E` | high, not executed | LegacyTheory.FLeadingToneAsWritten | LegacyTheory.LeadingToneMatches |
| Flask/api/musicInfo.py:313-342 | the relation indexes the table's list with the key string | any numeral without a slash, such as `V` in C, raises | the relation is read from the key's row | high, not executed | LegacyTheory.RelationAsWrittenFailsWithoutSlash | LegacyTheory.ChordRelation |
| Flask/api/musicInfo.py:532-569 | `identify_chord_type_by_key` looks a minor key up in the major tables | E major in A minor raises `KeyError` | E major in A minor is mixture, and E minor is diatonic | high, not executed | LegacyTheory.MinorKeyChordType | LegacyTheory.ChordType |
| Flask/api/music_info.py:114 | the `9` interval entry names root index 2, and `Cli/music/music_info.py:152` does the same | `C3,A3,C4` has two distinct names, so index 2 raises `IndexError` | a root index that names one of the two distinct notes | medium, not executed | FlaskIntervals.NineAsWritten | FlaskIntervals.EntryFacts |
| Flask/api/chord_progression.py:84 | `A and B or C` binds as `(A and B) or C`, so the mixture `I` test ignores `use_applied` | a mixture `I` followed by another chord, with applied numerals off, is still read as applied | with applied numerals off, no chord is read as applied | high, not executed | FlaskProgression.MixtureTonicAsWritten | FlaskProgression.AppliedOffIgnoresNext |
