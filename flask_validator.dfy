// The four-part writing check of the web version (Flask/api/satb_validator.py).
// One forward pass over the chords, numbered from 1, appends typed errors.
// Every chord is first named in the key (which raises for an unknown key),
// then its spacing is checked; against the chord before it come the parallel
// fifths and octaves, the resolution of that chord's seventh and the
// resolution of its leading tone; last come the ranges of its voices. Every
// chord becomes the previous chord of the next one. There is no voice-count
// check: a chord of fewer than four notes raises IndexError in the spacing
// check and one of more than four in the range check, and the exception ends
// the pass.
module FlaskValidator {
  import opened Py
  import opened NoteText
  import opened IntervalCodes
  import opened ChordNotes
  import FlaskTheory
  import FlaskChord
  import FlaskProgression
  import opened VoiceLeading

  /** Numerals whose leading tone must resolve. */
  const KeyLeadingNumerals: seq<string> := ["Imaj7", "iii", "V", "vii"]

  /** Whether a chord has a seventh: the qualities get_seventh_index looks a
      seventh up for. */
  predicate HasSeventh(ns: seq<Note>)
  {
    FlaskChord.SeventhInterval(FlaskChord.Identify(ns).quality).Some?
  }

  // ---------------------------------------------------------------------
  // Seventh resolution

  /** The index of the seventh in __check_seventh_resolution: the chord's own
      seventh, except that a fully-diminished chord is re-read from its
      root-position numeral as the leading-tone chord -- the bass for vio7,
      the first note a minor third above the root for ivo7, the first note a
      tritone above it for iio7. */
  function SeventhIndexFor(ns: seq<Note>, key: string): (r: Outcome<int>)
    ensures FlaskChord.SeventhIndexOf(ns).Raise? ==> r == FlaskChord.SeventhIndexOf(ns)
    ensures FlaskChord.Identify(ns).quality != Diminished7 ==> r == FlaskChord.SeventhIndexOf(ns)
    ensures (FlaskChord.SeventhIndexOf(ns).Ok? && FlaskChord.Identify(ns).quality == Diminished7
             && FlaskChord.NumeralOf(ns, key, true) == Ok("vio7")) ==> r == Ok(0)
    ensures r.Ok? ==> -|ns| <= r.value < |ns|
  {
    var seventh :- FlaskChord.SeventhIndexOf(ns);
    if FlaskChord.Identify(ns).quality != Diminished7 then Ok(seventh)
    else
      var numeral :- FlaskChord.NumeralOf(ns, key, true);
      if numeral == "vio7" then Ok(0)
      else if numeral == "ivo7" || numeral == "iio7" then
        // the seventh was found, so the chord has its root note
        var indices := FlaskChord.IndicesOf(ns, if numeral == "ivo7" then 3 else 6).value;
        Index(indices, 0)
      else Ok(seventh)
  }

  /** The seventh at an index of the previous chord and the key note it
      resolves to, one degree below its own degree in the key. */
  function SeventhTarget(prev: seq<Note>, key: string, index: int): (r: Outcome<(string, string)>)
    ensures r.Ok? ==> Index(prev, index).Ok? && r.value.0 == Index(prev, index).value.name
    ensures r.Ok? ==> FlaskTheory.NoteDegree(r.value.0, key).Ok?
    ensures r.Ok? && FlaskTheory.NoteDegree(r.value.0, key).value >= 0 ==>
              var degree := FlaskTheory.NoteDegree(r.value.0, key).value;
              r.value.1 == FlaskTheory.NotesForKey(key).value[if degree == 0 then 6 else degree - 1]
  {
    var seventh :- Index(prev, index);
    var degree :- FlaskTheory.NoteDegree(seventh.name, key);
    // a degree in the key is one of 7, or -1 for a note outside it
    Ok((seventh.name, FlaskTheory.NoteNameForDegree(key, ResolutionDegree(degree) + 1).value))
  }

  /** __check_seventh_resolution: the voice of the previous chord's seventh
      must move to the key note one degree below it, or the seventh must be
      spelled somewhere in the current chord. */
  function SeventhResolution(prev: seq<Note>, curr: seq<Note>, key: string, currIndex: int): (r: Outcome<seq<Finding>>)
    ensures r.Ok? ==> SeventhIndexFor(prev, key).Ok? && SeventhTarget(prev, key, SeventhIndexFor(prev, key).value).Ok?
                      && Index(curr, SeventhIndexFor(prev, key).value).Ok?
    ensures r.Ok? ==>
              var index := SeventhIndexFor(prev, key).value;
              var target := SeventhTarget(prev, key, index).value;
              (r.value != [] <==> Index(curr, index).value.name != target.1 && target.0 !in Names(curr))
              && (r.value != [] ==> r.value == [Unresolved("ERR_UNRESOLVED_7TH", currIndex - 1, index)])
  {
    var index :- SeventhIndexFor(prev, key);
    var target :- SeventhTarget(prev, key, index);
    var note :- Index(curr, index);
    if note.name != target.1 && target.0 !in Names(curr) then
      Ok([Unresolved("ERR_UNRESOLVED_7TH", currIndex - 1, index)])
    else Ok([])
  }

  // ---------------------------------------------------------------------
  // Leading-tone resolution

  /** __check_leading_resolution: for a previous chord whose root-position
      numeral holds the key's leading tone, the first voice on the leading
      tone must rise by a semitone, or the leading tone must be spelled
      somewhere in the current chord. A previous chord without the leading
      tone leaves the voice index None, and indexing with it raises TypeError. */
  function LeadingResolution(prev: seq<Note>, curr: seq<Note>, key: string, currIndex: int): (r: Outcome<seq<Finding>>)
    ensures FlaskChord.NumeralOf(prev, key, false).Raise? ==> r == Raise(FlaskChord.NumeralOf(prev, key, false).error)
    ensures FlaskChord.NumeralOf(prev, key, false).Ok? && FlaskChord.NumeralOf(prev, key, false).value !in KeyLeadingNumerals
            ==> r == Ok([])
    ensures r.Ok? && r.value != [] ==>
              FlaskTheory.LeadingTone(key).Ok? &&
              var k := FirstWithName(prev, FlaskTheory.LeadingTone(key).value);
              0 <= k < |curr| && r.value == [Unresolved("ERR_UNRESOLVED_LT", currIndex - 1, k)]
              && curr[k].value != prev[k].value + 1 && FlaskTheory.LeadingTone(key).value !in Names(curr)
    ensures (FlaskChord.NumeralOf(prev, key, false).Ok? && FlaskChord.NumeralOf(prev, key, false).value in KeyLeadingNumerals
             && FlaskTheory.LeadingTone(key).Ok? && FlaskTheory.LeadingTone(key).value !in Names(prev)) ==> r == Raise(TypeError)
  {
    var numeral :- FlaskChord.NumeralOf(prev, key, false);
    if numeral !in KeyLeadingNumerals then Ok([])
    else
      var leadingTone :- FlaskTheory.LeadingTone(key);
      var k := FirstWithName(prev, leadingTone);
      if k == -1 then
        assert leadingTone !in Names(prev);
        Raise(TypeError)
      else
        assert leadingTone in Names(prev) by { assert Names(prev)[k] == leadingTone; }
        var note :- Index(curr, k);
        if note.value != prev[k].value + 1 && leadingTone !in Names(curr) then
          Ok([Unresolved("ERR_UNRESOLVED_LT", currIndex - 1, k)])
        else Ok([])
  }

  // ---------------------------------------------------------------------
  // One chord

  /** The seventh resolution check, run when the previous chord has a seventh. */
  function SeventhPart(prev: seq<Note>, curr: seq<Note>, key: string, currIndex: int): (r: Outcome<seq<Finding>>)
    ensures !HasSeventh(prev) ==> r == Ok([])
  {
    if HasSeventh(prev) then SeventhResolution(prev, curr, key, currIndex) else Ok([])
  }

  /** The checks against the previous chord, in order: movement, seventh
      resolution, leading-tone resolution. */
  function PairChecks(prev: seq<Note>, curr: seq<Note>, key: string, currIndex: int): (r: Outcome<seq<Finding>>)
    ensures r.Ok? ==> MovementErrors(prev, curr, currIndex).Ok? && MovementErrors(prev, curr, currIndex).value <= r.value
  {
    var movement :- MovementErrors(prev, curr, currIndex);
    var seventh :- SeventhPart(prev, curr, key, currIndex);
    var leading :- LeadingResolution(prev, curr, key, currIndex);
    Ok(movement + seventh + leading)
  }

  /** The checks against the previous chord when it is truthy: a chord is
      false in Python when it has no notes, and the first chord has none
      before it. */
  function PairedWith(prev: seq<Note>, curr: seq<Note>, key: string, currIndex: int): (r: Outcome<seq<Finding>>)
    ensures prev == [] ==> r == Ok([])
  {
    if prev != [] then PairChecks(prev, curr, key, currIndex) else Ok([])
  }

  /** The errors of one chord, numbered `chordIndex`, after the chord `prev`
      ([] for none), once its numeral is known: spacing, the checks against
      `prev`, range. Only a four-voice chord gets through both the spacing and
      the range check. */
  function ChordChecks(ns: seq<Note>, prev: seq<Note>, key: string, chordIndex: int): (r: Outcome<seq<Finding>>)
    ensures |ns| < 4 ==> r == Raise(IndexError)
    ensures r.Ok? ==> |ns| == 4
    ensures r.Ok? ==> SpacingErrors(ns, chordIndex).value <= r.value
    ensures r.Ok? && prev == [] ==> r.value == SpacingErrors(ns, chordIndex).value + RangeErrors(ns, chordIndex).value
  {
    var spacing :- SpacingErrors(ns, chordIndex);
    var paired :- PairedWith(prev, ns, key, chordIndex);
    var range :- RangeErrors(ns, chordIndex);
    Ok(spacing + paired + range)
  }

  /** The errors of one chord: naming it in the key comes first and raises
      for an unknown key. */
  function ChordErrors(ns: seq<Note>, prev: seq<Note>, key: string, chordIndex: int): (r: Outcome<seq<Finding>>)
    ensures FlaskChord.NumeralOf(ns, key, true).Raise? ==> r == Raise(FlaskChord.NumeralOf(ns, key, true).error)
    ensures FlaskChord.NumeralOf(ns, key, true).Ok? ==> r == ChordChecks(ns, prev, key, chordIndex)
  {
    var _ :- FlaskChord.NumeralOf(ns, key, true);
    ChordChecks(ns, prev, key, chordIndex)
  }

  /** The errors of chord i, numbered from 1, against the chord before it
      ([] for the first). */
  function ChordErrorsAt(chords: seq<seq<Note>>, key: string, i: nat): Outcome<seq<Finding>>
    requires i < |chords|
  {
    ChordErrors(chords[i], if i == 0 then [] else chords[i - 1], key, i + 1)
  }

  /** The errors of each chord in turn. */
  function ChordResults(chords: seq<seq<Note>>, key: string): (r: seq<Outcome<seq<Finding>>>)
    ensures |r| == |chords|
  {
    seq(|chords|, i requires 0 <= i < |chords| => ChordErrorsAt(chords, key, i))
  }

  /** Chord i's result is its errors against the chord before it. */
  lemma ResultOf(chords: seq<seq<Note>>, key: string, i: nat)
    requires i < |chords|
    ensures ChordResults(chords, key)[i] == ChordErrorsAt(chords, key, i)
  {
  }

  /** validate_progression: the errors of every chord in turn, or the first
      exception. */
  function Validate(chords: seq<seq<Note>>, key: string): (r: Outcome<seq<Finding>>)
  {
    Flatten(ChordResults(chords, key))
  }

  /** A pass that succeeds has seen only four-voice chords, each named in the key. */
  lemma FourVoicesOnly(chords: seq<seq<Note>>, key: string)
    requires Validate(chords, key).Ok?
    ensures forall i :: 0 <= i < |chords| ==> |chords[i]| == 4 && FlaskChord.NumeralOf(chords[i], key, true).Ok?
  {
    var results := ChordResults(chords, key);
    FlattenOk(results);
    forall i | 0 <= i < |chords|
      ensures |chords[i]| == 4 && FlaskChord.NumeralOf(chords[i], key, true).Ok?
    {
      assert results[i].Ok?;
      ResultOf(chords, key, i);
    }
  }

  /** The errors start with the first chord's, which is checked on its own:
      its spacing errors, then its range errors. */
  lemma FirstChordAlone(chords: seq<seq<Note>>, key: string)
    requires chords != [] && Validate(chords, key).Ok?
    ensures SpacingErrors(chords[0], 1).Ok? && RangeErrors(chords[0], 1).Ok?
    ensures SpacingErrors(chords[0], 1).value + RangeErrors(chords[0], 1).value <= Validate(chords, key).value
  {
    var results := ChordResults(chords, key);
    FlattenOk(results);
    ResultOf(chords, key, 0);
  }

  // ---------------------------------------------------------------------
  // The checks on chord objects

  /** The seventh index of __check_seventh_resolution on a chord. */
  method SeventhIndexOfChord(chord: FlaskChord.Chord, key: string) returns (r: Outcome<int>)
    requires chord.Valid()
    ensures r == SeventhIndexFor(chord.notes, key)
  {
    r := chord.GetSeventhIndex();
    if r.Raise? || chord.quality != Diminished7 {
      return;
    }
    var numeral := chord.GetNumeralForKey(key, true);
    if numeral.Raise? {
      return Raise(numeral.error);
    }
    if numeral.value == "vio7" {
      r := Ok(0);
    } else if numeral.value == "ivo7" || numeral.value == "iio7" {
      var indices := chord.GetIndicesFromInterval(if numeral.value == "ivo7" then 3 else 6);
      r := Index(indices.value, 0);
    }
  }

  /** __check_seventh_resolution on two chords. */
  method CheckSeventhResolution(prev: FlaskChord.Chord, curr: FlaskChord.Chord, key: string, currIndex: int)
    returns (r: Outcome<seq<Finding>>)
    requires prev.Valid()
    ensures r == SeventhResolution(prev.notes, curr.notes, key, currIndex)
  {
    var index := SeventhIndexOfChord(prev, key);
    if index.Raise? {
      return Raise(index.error);
    }
    // the index of a seventh lies within the chord
    var seventh := Index(prev.notes, index.value);
    var degree := FlaskTheory.NoteDegreeInKey(seventh.value.name, key);
    if degree.Raise? {
      return Raise(degree.error);
    }
    var resolved := FlaskTheory.NoteNameForDegree(key, ResolutionDegree(degree.value) + 1).value;
    var note := Index(curr.notes, index.value);
    if note.Raise? {
      return Raise(note.error);
    }
    r := Ok([]);
    if note.value.name != resolved {
      var passed := AppearsIn(curr.notes, seventh.value.name);
      if !passed {
        r := Ok([Unresolved("ERR_UNRESOLVED_7TH", currIndex - 1, index.value)]);
      }
    }
  }

  /** __check_leading_resolution on two chords. */
  method CheckLeadingResolution(prev: FlaskChord.Chord, curr: FlaskChord.Chord, key: string, currIndex: int)
    returns (r: Outcome<seq<Finding>>)
    requires prev.Valid()
    ensures r == LeadingResolution(prev.notes, curr.notes, key, currIndex)
  {
    var numeral := prev.GetNumeralForKey(key, false);
    if numeral.Raise? {
      return Raise(numeral.error);
    }
    r := Ok([]);
    if numeral.value in KeyLeadingNumerals {
      var leadingTone := FlaskTheory.LeadingTone(key);
      match leadingTone {
        case Raise(e) =>
          return Raise(e);
        case Ok(lt) =>
          var k := FindFirstNamed(prev.notes, lt);
          if k == -1 {
            return Raise(TypeError);
          }
          var note := Index(curr.notes, k);
          if note.Raise? {
            return Raise(note.error);
          }
          if note.value.value != prev.notes[k].value + 1 {
            var passed := AppearsIn(curr.notes, lt);
            if !passed {
              r := Ok([Unresolved("ERR_UNRESOLVED_LT", currIndex - 1, k)]);
            }
          }
      }
    }
  }

  /** The checks against a truthy previous chord object. */
  method PairChecksFor(prev: FlaskChord.Chord?, curr: FlaskChord.Chord, key: string, currIndex: int)
    returns (r: Outcome<seq<Finding>>)
    requires prev != null ==> prev.Valid()
    ensures r == PairedWith(if prev == null then [] else prev.notes, curr.notes, key, currIndex)
  {
    r := Ok([]);
    if prev == null || prev.notes == [] {
      return;
    }
    var movement := CheckVoiceMovement(prev.notes, curr.notes, currIndex);
    if movement.Raise? {
      return Raise(movement.error);
    }
    var seventh: Outcome<seq<Finding>> := Ok([]);
    if HasSeventh(prev.notes) {
      seventh := CheckSeventhResolution(prev, curr, key, currIndex);
      if seventh.Raise? {
        return Raise(seventh.error);
      }
    }
    var leading := CheckLeadingResolution(prev, curr, key, currIndex);
    if leading.Raise? {
      return Raise(leading.error);
    }
    r := Ok(movement.value + seventh.value + leading.value);
  }

  /** The body of validate_progression's loop for the i-th chord object,
      prev being the chord object before it (None for the first). */
  method CheckChord(progression: seq<FlaskChord.Chord>, key: string, i: nat, prev: FlaskChord.Chord?)
    returns (r: Outcome<seq<Finding>>)
    requires i < |progression| && FlaskProgression.AllValid(progression)
    requires i == 0 ==> prev == null
    requires i > 0 ==> prev == progression[i - 1]
    ensures r == ChordErrors(progression[i].notes, if i == 0 then [] else progression[i - 1].notes, key, i + 1)
  {
    FlaskProgression.ValidAt(progression, i);
    var chord := progression[i];
    var chordIndex := i + 1;
    var numeral := chord.GetNumeralForKey(key, true);
    if numeral.Raise? {
      return Raise(numeral.error);
    }
    if |chord.notes| < 4 {
      return Raise(IndexError);
    }
    var spacing := SpacingErrors(chord.notes, chordIndex);
    var paired := PairChecksFor(prev, chord, key, chordIndex);
    if paired.Raise? {
      return Raise(paired.error);
    }
    var range := CheckRanges(chord.notes, chordIndex);
    if range.Raise? {
      return Raise(range.error);
    }
    r := Ok(spacing.value + paired.value + range.value);
  }

  /** The errors of the first i chord objects of a progression. */
  ghost function PassedUpTo(progression: seq<FlaskChord.Chord>, key: string, i: nat): Outcome<seq<Finding>>
    reads progression
    requires i <= |progression|
  {
    Flatten(ChordResults(FlaskProgression.NotesOf(progression), key)[..i])
  }

  /** One more chord of the pass: its result extends the errors so far, or
      its exception is the outcome of the whole pass. */
  lemma PassedStep(progression: seq<FlaskChord.Chord>, key: string, i: nat, errors: seq<Finding>,
                   found: Outcome<seq<Finding>>)
    requires i < |progression| && PassedUpTo(progression, key, i) == Ok(errors)
    requires found == ChordErrors(progression[i].notes, if i == 0 then [] else progression[i - 1].notes, key, i + 1)
    ensures found.Raise? ==> Validate(FlaskProgression.NotesOf(progression), key) == Raise(found.error)
    ensures found.Ok? ==> PassedUpTo(progression, key, i + 1) == Ok(errors + found.value)
  {
    var results := ChordResults(FlaskProgression.NotesOf(progression), key);
    ResultOf(FlaskProgression.NotesOf(progression), key, i);
    FlattenLoopStep(results, i, errors);
  }

  /** One iteration of validate_progression's loop: the errors extended by
      chord i's, or the pass ended by its exception. */
  method PassChord(progression: seq<FlaskChord.Chord>, key: string, i: nat, errors: seq<Finding>, prev: FlaskChord.Chord?)
    returns (stop: Option<Exception>, nextErrors: seq<Finding>)
    requires i < |progression| && FlaskProgression.AllValid(progression) && PassedUpTo(progression, key, i) == Ok(errors)
    requires i == 0 ==> prev == null
    requires i > 0 ==> prev == progression[i - 1]
    ensures stop.Some? ==> Validate(FlaskProgression.NotesOf(progression), key) == Raise(stop.value)
    ensures stop.None? ==> PassedUpTo(progression, key, i + 1) == Ok(nextErrors)
  {
    var found := CheckChord(progression, key, i, prev);
    PassedStep(progression, key, i, errors, found);
    if found.Raise? {
      return Some(found.error), errors;
    }
    stop, nextErrors := None, errors + found.value;
  }

  /** validate_progression: the pass over the chords in order, each chord
      becoming the previous chord of the next. */
  method ValidateProgression(progression: seq<FlaskChord.Chord>, key: string) returns (r: Outcome<seq<Finding>>)
    requires FlaskProgression.AllValid(progression)
    ensures r == Validate(FlaskProgression.NotesOf(progression), key)
  {
    var errors: seq<Finding> := [];
    var prev: FlaskChord.Chord? := null;
    for i := 0 to |progression|
      invariant i == 0 ==> prev == null
      invariant i > 0 ==> prev == progression[i - 1]
      invariant PassedUpTo(progression, key, i) == Ok(errors)
    {
      var stop;
      stop, errors := PassChord(progression, key, i, errors, prev);
      if stop.Some? {
        return Raise(stop.value);
      }
      prev := progression[i];
    }
    FlattenDone(ChordResults(FlaskProgression.NotesOf(progression), key), errors);
    r := Ok(errors);
  }
}
