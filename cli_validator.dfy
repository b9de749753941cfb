// The four-part writing check of the command-line version
// (Cli/music/satb_validator.py). One forward pass over the chords, numbered
// from 1, appends typed errors: a chord without exactly four voices is
// flagged and otherwise skipped; a chord of another quality, or a chromatic
// chord that is not a secondary dominant of the chord after it, is flagged
// as unknown; then come the spacing and range of its voices, a doubled
// leading tone or seventh, and -- against the last four-voice chord -- the
// parallel fifths and octaves and the resolution of that chord's seventh and
// leading tone. A chord read as a secondary dominant moves the key of its own
// doubling checks, and of the resolutions into the next chord, to the chord it
// is applied to. An exception of any step (an unknown key, a missing
// seventh) ends the pass.
module CliValidator {
  import opened Py
  import opened NoteText
  import opened IntervalCodes
  import opened ChordNotes
  import opened Scales
  import CliTheory
  import FlaskTheory
  import CliChord
  import CliProgression
  import opened VoiceLeading

  /** Numerals whose leading tone must not be doubled, and whose leading tone
      must resolve after an applied chord. */
  const LeadingNumerals: seq<string> := ["Imaj7", "iii", "V", "viio", "viiø"]

  /** Numerals whose leading tone must resolve in the key of the progression. */
  const KeyLeadingNumerals: seq<string> := ["Imaj7", "iii", "V", "vii"]

  /** The qualities the check knows: the triads and the five sevenths. */
  predicate KnownQuality(q: Quality)
  {
    q in {Major, Minor, Diminished, Augmented, HalfDiminished7, Diminished7, Major7, Minor7, Dominant7}
  }

  function UnknownChord(chordIndex: int): Finding
  {
    Flagged("spelling", "ERR_UNKNOWN_CHORD", chordIndex)
  }

  function WrongVoiceCount(chordIndex: int): Finding
  {
    Flagged("spelling", "ERR_NUM_VOICES", chordIndex)
  }

  // ---------------------------------------------------------------------
  // Doubling

  /** __get_dim7_seventh_index: the seventh of a fully-diminished chord read
      as the leading-tone chord of its numeral -- the bass for vio and bvio,
      the first note a minor third or a tritone above the root for ivo and iio,
      the chord's own seventh otherwise. */
  function Dim7SeventhIndex(ns: seq<Note>, key: string): (r: Outcome<int>)
    ensures CliChord.NumeralOf(ns, key, false).Raise? ==> r == Raise(CliChord.NumeralOf(ns, key, false).error)
    ensures CliChord.NumeralOf(ns, key, false).Ok? && CliChord.NumeralOf(ns, key, false).value in ["vio", "bvio"] ==> r == Ok(0)
    ensures r.Ok? ==> -1 <= r.value < |ns|
  {
    var numeral :- CliChord.NumeralOf(ns, key, false);
    var interval := if numeral == "ivo" then 3 else if numeral == "iio" then 6 else 0;
    if numeral in ["vio", "bvio"] then Ok(0)
    else if interval != 0 then
      // the numeral exists, so the chord has its root note
      Index(CliChord.IndicesOf(ns, interval).value, 0)
    else CliChord.SeventhIndexOf(ns)
  }

  /** The index of the seventh of a chord holding these notes. */
  function SeventhOf(ns: seq<Note>, key: string): (r: Outcome<int>)
    ensures r.Ok? ==> -1 <= r.value < |ns|
  {
    if CliChord.Identify(ns).quality == Diminished7 then Dim7SeventhIndex(ns, key) else CliChord.SeventhIndexOf(ns)
  }

  /** The leading-tone doubling check: flagged exactly when the key's leading
      tone is spelled more than once. */
  function LeadingDoubling(ns: seq<Note>, key: string, chordIndex: int): (r: Outcome<seq<Finding>>)
    ensures r.Ok? <==> CliTheory.LeadingTone(key).Ok?
    ensures r.Ok? ==> (r.value != [] <==> NameCount(ns, CliTheory.LeadingTone(key).value) > 1)
    ensures r.Ok? && r.value != [] ==> r.value == [Flagged("spelling", "ERR_DOUBLED_LT", chordIndex)]
  {
    var leadingTone :- CliTheory.LeadingTone(key);
    Ok(if NameCount(ns, leadingTone) > 1 then [Flagged("spelling", "ERR_DOUBLED_LT", chordIndex)] else [])
  }

  /** The seventh doubling check: flagged exactly when the seventh's spelling
      occurs more than once. */
  function SeventhDoubling(ns: seq<Note>, key: string, chordIndex: int): (r: Outcome<seq<Finding>>)
    ensures r.Ok? ==> SeventhOf(ns, key).Ok? && Index(ns, SeventhOf(ns, key).value).Ok?
    ensures r.Ok? ==> (r.value != [] <==> NameCount(ns, Index(ns, SeventhOf(ns, key).value).value.name) > 1)
    ensures r.Ok? && r.value != [] ==> r.value == [Flagged("spelling", "ERR_DOUBLED_7TH", chordIndex)]
  {
    var index :- SeventhOf(ns, key);
    var seventh :- Index(ns, index);
    Ok(if NameCount(ns, seventh.name) > 1 then [Flagged("spelling", "ERR_DOUBLED_7TH", chordIndex)] else [])
  }

  // ---------------------------------------------------------------------
  // Resolution

  /** __check_leading_resolution: the first voice of the previous chord on
      the key's leading tone must rise by a semitone, or the leading tone must
      be spelled somewhere in the current chord. */
  function LeadingResolution(prev: seq<Note>, curr: seq<Note>, key: string, currIndex: int): (r: Outcome<seq<Finding>>)
    ensures CliTheory.LeadingTone(key).Raise? ==> r == Raise(CliTheory.LeadingTone(key).error)
    ensures CliTheory.LeadingTone(key).Ok? && CliTheory.LeadingTone(key).value !in Names(prev) ==> r == Ok([])
    ensures CliTheory.LeadingTone(key).Ok? && |prev| <= |curr| ==> r.Ok?
    ensures r.Ok? && r.value != [] ==>
              var k := FirstWithName(prev, CliTheory.LeadingTone(key).value);
              0 <= k < |curr| && r.value == [Unresolved("ERR_UNRESOLVED_LT", currIndex - 1, k)]
              && curr[k].value != prev[k].value + 1 && CliTheory.LeadingTone(key).value !in Names(curr)
    ensures r.Ok? && r.value == [] && CliTheory.LeadingTone(key).value in Names(prev) ==>
              var k := FirstWithName(prev, CliTheory.LeadingTone(key).value);
              0 <= k < |curr| && (curr[k].value == prev[k].value + 1 || CliTheory.LeadingTone(key).value in Names(curr))
  {
    var leadingTone :- CliTheory.LeadingTone(key);
    var k := FirstWithName(prev, leadingTone);
    if k == -1 then
      assert leadingTone !in Names(prev);
      Ok([])
    else
      assert leadingTone in Names(prev) by { assert Names(prev)[k] == leadingTone; }
      var note :- Index(curr, k);
      if note.value != prev[k].value + 1 && leadingTone !in Names(curr) then
        Ok([Unresolved("ERR_UNRESOLVED_LT", currIndex - 1, k)])
      else Ok([])
  }

  /** The seventh at an index of the previous chord and the key note it
      resolves to, one degree below its own degree in the key. */
  function SeventhTarget(prev: seq<Note>, key: string, index: int): (r: Outcome<(string, string)>)
    ensures r.Ok? ==> Index(prev, index).Ok? && r.value.0 == Index(prev, index).value.name
  {
    var seventh :- Index(prev, index);
    var degree :- CliTheory.NoteDegree(seventh.name, key);
    // a degree in the key is one of 7, or -1 for a note outside it
    Ok((seventh.name, CliTheory.KeyNoteForDegree(key, ResolutionDegree(degree)).value))
  }

  /** __check_seventh_resolution: the voice of the previous chord's seventh
      must move to the key note one degree below it, or the seventh must be
      spelled somewhere in the current chord. */
  function SeventhResolution(prev: seq<Note>, curr: seq<Note>, key: string, currIndex: int): (r: Outcome<seq<Finding>>)
    ensures r.Ok? ==> SeventhOf(prev, key).Ok? && SeventhTarget(prev, key, SeventhOf(prev, key).value).Ok?
                      && Index(curr, SeventhOf(prev, key).value).Ok?
    ensures r.Ok? ==>
              var index := SeventhOf(prev, key).value;
              var target := SeventhTarget(prev, key, index).value;
              (r.value != [] <==> Index(curr, index).value.name != target.1 && target.0 !in Names(curr))
              && (r.value != [] ==> r.value == [Unresolved("ERR_UNRESOLVED_7TH", currIndex - 1, index)])
  {
    var index :- SeventhOf(prev, key);
    var target :- SeventhTarget(prev, key, index);
    var note :- Index(curr, index);
    if note.name != target.1 && target.0 !in Names(curr) then
      Ok([Unresolved("ERR_UNRESOLVED_7TH", currIndex - 1, index)])
    else Ok([])
  }

  // ---------------------------------------------------------------------
  // One chord

  /** What the pass carries to the next chord: the last four-voice chord's
      notes and its relation to the key. */
  datatype Carried = Carried(notes: seq<Note>, relation: Relation)

  /** How a four-voice chord is read: its numeral, its relation, the key of
      its doubling checks, and an unknown-chord error when there is one. */
  datatype Reading = Reading(numeral: string, relation: Relation, key: string, flags: seq<Finding>)

  /** The chord's numeral in the key without its inversion, a fully-diminished
      seventh re-read from the leading tone, and its relation to the key. */
  function OwnReading(ns: seq<Note>, key: string): (r: Outcome<Reading>)
    ensures r.Raise? <==> CliChord.NumeralOf(ns, key, false).Raise?
    ensures r.Ok? ==> r.value.key == key && r.value.flags == [] && r.value.relation != Applied
    ensures r.Ok? && CliChord.Identify(ns).quality != Diminished7 ==> r.value.numeral == CliChord.NumeralOf(ns, key, false).value
  {
    var own :- CliChord.NumeralOf(ns, key, false);
    var numeral := if CliChord.Identify(ns).quality == Diminished7 then FlaskTheory.LtNumeralForDim7(own) else own;
    Ok(Reading(numeral, CliTheory.ChordRelation(key, numeral).value, key, []))
  }

  /** A chromatic chord, or a mixture tonic or mediant, is tried as a
      secondary dominant of the next chord. */
  predicate TriesApplied(own: Reading)
  {
    own.relation == Chromatic || (own.relation == Mixture && own.numeral in CliProgression.TonicAndMediant)
  }

  /** The key of a chord applied to `next`: next's root, in lower case when
      next is a minor triad or minor seventh. */
  function AppliedKey(next: seq<Note>): (r: Outcome<string>)
    ensures r.Ok? <==> next != []
  {
    var id := CliChord.Identify(next);
    var root :- CliChord.RootName(next, id.rootIndex);
    Ok(if id.quality == Minor || id.quality == Minor7 then Lower(root) else root)
  }

  /** The try block: the next chord's secondary-dominant numeral of this
      chord becomes its numeral, its relation "applied", and the next chord's
      root (lower case for a minor chord) its key; no next chord, an
      IndexError or no such numeral flags the chord as unknown. */
  function AppliedReading(chords: seq<seq<Note>>, i: nat, own: Reading): (r: Outcome<Reading>)
    requires i < |chords| && own.relation != Applied
    ensures i + 1 == |chords| ==> r == Ok(own.(flags := [UnknownChord(i + 1)]))
    ensures r.Ok? ==>
              (r.value.relation == Applied <==>
                 i + 1 < |chords| && CliChord.SecondaryOf(chords[i + 1], chords[i], false).Ok?
                 && CliChord.SecondaryOf(chords[i + 1], chords[i], false).value != "")
    ensures r.Ok? && r.value.relation == Applied ==>
              r.value.flags == [] && r.value.numeral == CliChord.SecondaryOf(chords[i + 1], chords[i], false).value
              && AppliedKey(chords[i + 1]) == Ok(r.value.key)
    ensures r.Ok? && r.value.relation != Applied ==> r.value == own.(flags := [UnknownChord(i + 1)])
    ensures r.Raise? ==> i + 1 < |chords| && CliChord.SecondaryOf(chords[i + 1], chords[i], false) == Raise(r.error) && r.error != IndexError
  {
    if i + 1 == |chords| then Ok(own.(flags := [UnknownChord(i + 1)]))
    else
      var next := chords[i + 1];
      var secondary := CliChord.SecondaryOf(next, chords[i], false);
      if secondary.Raise? then
        if secondary.error == IndexError then Ok(own.(flags := [UnknownChord(i + 1)])) else Raise(secondary.error)
      else if secondary.value == "" then Ok(own.(flags := [UnknownChord(i + 1)]))
      else
        // the secondary numeral exists, so the next chord has its root note
        Ok(Reading(secondary.value, Applied, AppliedKey(next).value, []))
  }

  /** The reading of a four-voice chord i: an unknown quality is flagged, a
      chord tried as a secondary dominant is read against the next chord.
      The chord is flagged exactly when its quality is unknown or it was tried
      and not read as applied. */
  function ReadChord(chords: seq<seq<Note>>, i: nat, own: Reading): (r: Outcome<Reading>)
    requires i < |chords| && own.relation != Applied && own.flags == []
    ensures !KnownQuality(CliChord.Identify(chords[i]).quality) ==> r == Ok(own.(flags := [UnknownChord(i + 1)]))
    ensures KnownQuality(CliChord.Identify(chords[i]).quality) && !TriesApplied(own) ==> r == Ok(own)
    ensures KnownQuality(CliChord.Identify(chords[i]).quality) && TriesApplied(own) ==> r == AppliedReading(chords, i, own)
    ensures r.Ok? ==>
              (r.value.flags != [] <==>
                 !KnownQuality(CliChord.Identify(chords[i]).quality) || (TriesApplied(own) && r.value.relation != Applied))
    ensures r.Ok? && r.value.flags != [] ==> r.value.flags == [UnknownChord(i + 1)]
  {
    if !KnownQuality(CliChord.Identify(chords[i]).quality) then Ok(own.(flags := [UnknownChord(i + 1)]))
    else if TriesApplied(own) then AppliedReading(chords, i, own)
    else Ok(own)
  }

  /** The leading-tone doubling check, run for the numerals that have one. */
  function LeadingPart(ns: seq<Note>, reading: Reading, chordIndex: int): (r: Outcome<seq<Finding>>)
    ensures reading.numeral !in LeadingNumerals ==> r == Ok([])
  {
    if reading.numeral in LeadingNumerals then LeadingDoubling(ns, reading.key, chordIndex) else Ok([])
  }

  /** The seventh doubling check, run for a chord with a seventh. */
  function SeventhPart(ns: seq<Note>, key: string, chordIndex: int): (r: Outcome<seq<Finding>>)
    ensures !CliChord.Identify(ns).hasSeventh ==> r == Ok([])
  {
    if CliChord.Identify(ns).hasSeventh then SeventhDoubling(ns, key, chordIndex) else Ok([])
  }

  /** The checks of a four-voice chord on its own, in order: spacing, range,
      leading-tone doubling, seventh doubling. */
  function SingleChecks(ns: seq<Note>, reading: Reading, chordIndex: int): (r: Outcome<seq<Finding>>)
    requires |ns| == 4
    ensures r.Ok? ==> SpacingErrors(ns, chordIndex).Ok? && RangeErrors(ns, chordIndex).Ok?
    ensures r.Ok? ==> SpacingErrors(ns, chordIndex).value + RangeErrors(ns, chordIndex).value <= r.value
    ensures r.Ok? && reading.numeral !in LeadingNumerals && !CliChord.Identify(ns).hasSeventh ==>
              r.value == SpacingErrors(ns, chordIndex).value + RangeErrors(ns, chordIndex).value
  {
    var leading :- LeadingPart(ns, reading, chordIndex);
    var seventh :- SeventhPart(ns, reading.key, chordIndex);
    Ok(SpacingErrors(ns, chordIndex).value + RangeErrors(ns, chordIndex).value + leading + seventh)
  }

  /** The key of the resolution checks: the current chord's root after an
      applied chord, else the key the current chord was read in. */
  function CheckKey(prevRelation: Relation, ns: seq<Note>, key: string): (r: string)
    requires ns != []
    ensures prevRelation != Applied ==> r == key
  {
    if prevRelation == Applied then CliChord.RootName(ns, CliChord.Identify(ns).rootIndex).value else key
  }

  /** The seventh resolution check, run when the previous chord has a seventh. */
  function SeventhResolutionPart(prev: seq<Note>, curr: seq<Note>, key: string, currIndex: int): (r: Outcome<seq<Finding>>)
    ensures !CliChord.Identify(prev).hasSeventh ==> r == Ok([])
  {
    if CliChord.Identify(prev).hasSeventh then SeventhResolution(prev, curr, key, currIndex) else Ok([])
  }

  /** The leading-tone resolution check, run when the previous chord's
      numeral in the key is one of `numerals`. */
  function LeadingResolutionPart(prev: seq<Note>, curr: seq<Note>, key: string, numerals: seq<string>, currIndex: int)
    : (r: Outcome<seq<Finding>>)
    ensures CliChord.NumeralOf(prev, key, false).Raise? ==> r == Raise(CliChord.NumeralOf(prev, key, false).error)
    ensures CliChord.NumeralOf(prev, key, false).Ok? && CliChord.NumeralOf(prev, key, false).value !in numerals ==> r == Ok([])
  {
    var numeral :- CliChord.NumeralOf(prev, key, false);
    if numeral in numerals then LeadingResolution(prev, curr, key, currIndex) else Ok([])
  }

  /** The checks against the last four-voice chord: movement, then the
      resolution of its seventh and of its leading tone -- in the current
      chord's key after an applied chord, else in the key the current chord
      was read in. */
  function PairChecks(prev: Carried, ns: seq<Note>, key: string, chordIndex: int): (r: Outcome<seq<Finding>>)
    requires |prev.notes| == 4 && |ns| == 4
    ensures r.Ok? ==> MovementErrors(prev.notes, ns, chordIndex).Ok? && MovementErrors(prev.notes, ns, chordIndex).value <= r.value
  {
    ParallelFlagged(prev.notes, ns, chordIndex, "", 0, 0);
    var checkKey := CheckKey(prev.relation, ns, key);
    var seventh :- SeventhResolutionPart(prev.notes, ns, checkKey, chordIndex);
    var leading :- LeadingResolutionPart(prev.notes, ns, checkKey,
                                         if prev.relation == Applied then LeadingNumerals else KeyLeadingNumerals, chordIndex);
    Ok(MovementErrors(prev.notes, ns, chordIndex).value + seventh + leading)
  }

  /** The errors of chord i (numbered i + 1) and what it carries on. */
  function Step(chords: seq<seq<Note>>, key: string, i: nat, carried: Option<Carried>): Outcome<(seq<Finding>, Option<Carried>)>
    requires i < |chords|
    requires carried.Some? ==> |carried.value.notes| == 4
  {
    var own :- OwnReading(chords[i], key);
    if |chords[i]| != 4 then Ok(([WrongVoiceCount(i + 1)], carried))
    else
      var (found, relation) :- FourVoiceStep(chords, i, own, carried);
      Ok((found, Some(Carried(chords[i], relation))))
  }

  /** A chord of another size than four raises exactly when naming it does
      and adds only ERR_NUM_VOICES, carrying the previous chord on; a
      four-voice chord is carried on itself, and an unknown one is reported
      first. */
  lemma StepShape(chords: seq<seq<Note>>, key: string, i: nat, carried: Option<Carried>)
    requires i < |chords|
    requires carried.Some? ==> |carried.value.notes| == 4
    ensures var r := Step(chords, key, i, carried);
            && (|chords[i]| != 4 ==> (r.Raise? <==> CliChord.NumeralOf(chords[i], key, false).Raise?))
            && (r.Ok? && |chords[i]| != 4 ==> r.value == ([WrongVoiceCount(i + 1)], carried))
            && (r.Ok? && |chords[i]| == 4 ==> r.value.1.Some? && r.value.1.value.notes == chords[i])
            && (r.Ok? && |chords[i]| == 4 && !KnownQuality(CliChord.Identify(chords[i]).quality) ==>
                  r.value.0 != [] && r.value.0[0] == UnknownChord(i + 1))
  {
  }

  /** The errors of a four-voice chord i and the relation it carries on. */
  function FourVoiceStep(chords: seq<seq<Note>>, i: nat, own: Reading, carried: Option<Carried>)
    : (r: Outcome<(seq<Finding>, Relation)>)
    requires i < |chords| && |chords[i]| == 4 && own.relation != Applied && own.flags == []
    requires carried.Some? ==> |carried.value.notes| == 4
    ensures r.Ok? && !KnownQuality(CliChord.Identify(chords[i]).quality) ==>
              r.value.0 != [] && r.value.0[0] == UnknownChord(i + 1)
  {
    var reading :- ReadChord(chords, i, own);
    var found :- ReadingChecks(chords[i], reading, carried, i + 1);
    Ok((reading.flags + found, reading.relation))
  }

  /** The checks of a four-voice chord once its reading is known. */
  function ReadingChecks(ns: seq<Note>, reading: Reading, carried: Option<Carried>, chordIndex: int): Outcome<seq<Finding>>
    requires |ns| == 4 && (carried.Some? ==> |carried.value.notes| == 4)
  {
    var single :- SingleChecks(ns, reading, chordIndex);
    var paired :- PairedWith(carried, ns, reading.key, chordIndex);
    Ok(single + paired)
  }

  /** The checks against the previous chord, when there is one. */
  function PairedWith(carried: Option<Carried>, ns: seq<Note>, key: string, chordIndex: int): Outcome<seq<Finding>>
    requires |ns| == 4 && (carried.Some? ==> |carried.value.notes| == 4)
  {
    if carried.Some? then PairChecks(carried.value, ns, key, chordIndex) else Ok([])
  }

  /** The pass state: the errors found so far and the last four-voice chord
      with its relation. */
  datatype State = State(errors: seq<Finding>, carried: Option<Carried>)

  /** The pass from chord i to the end, starting from state s: the errors
      found so far and the last four-voice chord with its relation. Each
      chord only adds errors after those found before it. */
  function RunFrom(chords: seq<seq<Note>>, key: string, i: nat, s: State): (r: Outcome<State>)
    requires i <= |chords|
    requires s.carried.Some? ==> |s.carried.value.notes| == 4
    ensures r.Ok? ==> s.errors <= r.value.errors
    decreases |chords| - i
  {
    if i == |chords| then Ok(s)
    else
      StepShape(chords, key, i, s.carried);
      var (found, carried) :- Step(chords, key, i, s.carried);
      RunFrom(chords, key, i + 1, State(s.errors + found, carried))
  }

  /** validate_progression: the errors of the whole pass. */
  function Validate(chords: seq<seq<Note>>, key: string): (r: Outcome<seq<Finding>>)
  {
    var s :- RunFrom(chords, key, 0, State([], None));
    Ok(s.errors)
  }

  /** A chord without four voices adds exactly ERR_NUM_VOICES at its number
      and carries the previous chord on. */
  lemma VoiceCountOnly(chords: seq<seq<Note>>, key: string, i: nat, s: State)
    requires i < |chords| && |chords[i]| != 4 && (s.carried.Some? ==> |s.carried.value.notes| == 4)
    requires CliChord.NumeralOf(chords[i], key, false).Ok?
    ensures RunFrom(chords, key, i, s) == RunFrom(chords, key, i + 1, State(s.errors + [WrongVoiceCount(i + 1)], s.carried))
  {
    StepShape(chords, key, i, s.carried);
  }

  /** The last chord, tried as a secondary dominant, has no chord to be
      applied to and is reported as unknown. */
  lemma LastTriedIsUnknown(chords: seq<seq<Note>>, own: Reading)
    requires chords != [] && own.relation != Applied && own.flags == []
    requires KnownQuality(CliChord.Identify(chords[|chords| - 1]).quality) && TriesApplied(own)
    ensures ReadChord(chords, |chords| - 1, own) == Ok(own.(flags := [UnknownChord(|chords|)]))
  {
  }

  // ---------------------------------------------------------------------
  // The checks on chord objects

  /** __get_dim7_seventh_index on a chord. */
  method GetDim7SeventhIndex(chord: CliChord.Chord, key: string) returns (r: Outcome<int>)
    requires chord.Valid()
    ensures r == Dim7SeventhIndex(chord.notes, key)
  {
    var numeral := chord.GetNumeralForKey(key, false);
    if numeral.Raise? {
      return Raise(numeral.error);
    }
    if numeral.value in ["vio", "bvio"] {
      r := Ok(0);
    } else if numeral.value == "ivo" || numeral.value == "iio" {
      var indices := chord.GetIndicesFromInterval(if numeral.value == "ivo" then 3 else 6);
      r := Index(indices.value, 0);
    } else {
      r := chord.GetSeventhIndex();
    }
  }

  /** The seventh's index: the special case of a fully-diminished chord, or
      get_seventh_index. */
  method SeventhIndexFor(chord: CliChord.Chord, key: string) returns (r: Outcome<int>)
    requires chord.Valid()
    ensures r == SeventhOf(chord.notes, key)
  {
    if chord.quality == Diminished7 {
      r := GetDim7SeventhIndex(chord, key);
    } else {
      r := chord.GetSeventhIndex();
    }
  }

  /** __check_chord_doubling, of the leading tone or of the seventh. */
  method CheckChordDoubling(chord: CliChord.Chord, chordIndex: int, key: string, leading: bool)
    returns (r: Outcome<seq<Finding>>)
    requires chord.Valid()
    ensures leading ==> r == LeadingDoubling(chord.notes, key, chordIndex)
    ensures !leading ==> r == SeventhDoubling(chord.notes, key, chordIndex)
  {
    if leading {
      var leadingTone := CliTheory.LeadingTone(key);
      if leadingTone.Raise? {
        return Raise(leadingTone.error);
      }
      var found := chord.FindNotesByName(leadingTone.value);
      r := Ok(if |found| > 1 then [Flagged("spelling", "ERR_DOUBLED_LT", chordIndex)] else []);
    } else {
      var index := SeventhIndexFor(chord, key);
      if index.Raise? {
        return Raise(index.error);
      }
      var seventh := Index(chord.notes, index.value);
      if seventh.Raise? {
        return Raise(seventh.error);
      }
      var found := chord.FindNotesByName(seventh.value.name);
      r := Ok(if |found| > 1 then [Flagged("spelling", "ERR_DOUBLED_7TH", chordIndex)] else []);
    }
  }

  /** __check_leading_resolution on two chords. */
  method CheckLeadingResolution(prev: CliChord.Chord, curr: CliChord.Chord, key: string, currIndex: int)
    returns (r: Outcome<seq<Finding>>)
    ensures r == LeadingResolution(prev.notes, curr.notes, key, currIndex)
  {
    var leadingTone := CliTheory.LeadingTone(key);
    if leadingTone.Raise? {
      return Raise(leadingTone.error);
    }
    var k := FindFirstNamed(prev.notes, leadingTone.value);
    r := Ok([]);
    if k != -1 {
      var note := Index(curr.notes, k);
      if note.Raise? {
        return Raise(note.error);
      }
      if note.value.value != prev.notes[k].value + 1 {
        var passed := AppearsIn(curr.notes, leadingTone.value);
        if !passed {
          r := Ok([Unresolved("ERR_UNRESOLVED_LT", currIndex - 1, k)]);
        }
      }
    }
  }

  /** __check_seventh_resolution on two chords. */
  method CheckSeventhResolution(prev: CliChord.Chord, curr: CliChord.Chord, key: string, currIndex: int)
    returns (r: Outcome<seq<Finding>>)
    requires prev.Valid()
    ensures r == SeventhResolution(prev.notes, curr.notes, key, currIndex)
  {
    var index := SeventhIndexFor(prev, key);
    if index.Raise? {
      return Raise(index.error);
    }
    var target := SeventhTargetFor(prev, key, index.value);
    if target.Raise? {
      return Raise(target.error);
    }
    var note := Index(curr.notes, index.value);
    if note.Raise? {
      return Raise(note.error);
    }
    r := Ok([]);
    if note.value.name != target.value.1 {
      var passed := AppearsIn(curr.notes, target.value.0);
      if !passed {
        r := Ok([Unresolved("ERR_UNRESOLVED_7TH", currIndex - 1, index.value)]);
      }
    }
  }

  /** The spelling of the previous chord's seventh at `index` and the key
      note it should resolve to. */
  method SeventhTargetFor(prev: CliChord.Chord, key: string, index: int) returns (r: Outcome<(string, string)>)
    ensures r == SeventhTarget(prev.notes, key, index)
  {
    var seventh := Index(prev.notes, index);
    if seventh.Raise? {
      return Raise(seventh.error);
    }
    var degree := CliTheory.NoteDegreeInKey(seventh.value.name, key);
    if degree.Raise? {
      return Raise(degree.error);
    }
    var resolved := CliTheory.KeyNoteForDegree(key, if degree.value != 0 then degree.value - 1 else 6);
    r := Ok((seventh.value.name, resolved.value));
  }

  /** The numeral and relation the loop computes first for every chord. */
  method OwnReadingFor(chord: CliChord.Chord, key: string) returns (r: Outcome<Reading>)
    requires chord.Valid()
    ensures r == OwnReading(chord.notes, key)
  {
    var numeral := chord.GetNumeralForKey(key, false);
    if numeral.Raise? {
      return Raise(numeral.error);
    }
    var own := numeral.value;
    if chord.quality == Diminished7 {
      own := FlaskTheory.LtNumeralForDim7(own);
    }
    r := Ok(Reading(own, CliTheory.ChordRelation(key, own).value, key, []));
  }

  /** The unknown-chord test and the try block of the loop for chord i. */
  method ReadChordFor(progression: seq<CliChord.Chord>, i: nat, own: Reading) returns (r: Outcome<Reading>)
    requires i < |progression| && CliProgression.AllValid(progression)
    requires own.relation != Applied && own.flags == []
    ensures r == ReadChord(CliProgression.NotesOf(progression), i, own)
  {
    var chord := progression[i];
    assert chord.Valid();
    if !KnownQuality(chord.quality) {
      return Ok(own.(flags := [UnknownChord(i + 1)]));
    }
    if !TriesApplied(own) {
      return Ok(own);
    }
    if i + 1 == |progression| {
      return Ok(own.(flags := [UnknownChord(i + 1)]));
    }
    var next := progression[i + 1];
    assert next.Valid();
    var secondary := chord.GetSecondaryDominantNumeral(next, false);
    if secondary.Raise? {
      if secondary.error == IndexError {
        return Ok(own.(flags := [UnknownChord(i + 1)]));
      }
      return Raise(secondary.error);
    }
    if secondary.value == "" {
      return Ok(own.(flags := [UnknownChord(i + 1)]));
    }
    var root := next.GetRootName();
    var key := root.value;
    if next.quality == Minor || next.quality == Minor7 {
      key := Lower(key);
    }
    r := Ok(Reading(secondary.value, Applied, key, []));
  }

  /** The leading-tone doubling step of the loop. */
  method LeadingPartFor(chord: CliChord.Chord, reading: Reading, chordIndex: int) returns (r: Outcome<seq<Finding>>)
    requires chord.Valid()
    ensures r == LeadingPart(chord.notes, reading, chordIndex)
  {
    r := Ok([]);
    if reading.numeral in LeadingNumerals {
      r := CheckChordDoubling(chord, chordIndex, reading.key, true);
    }
  }

  /** The seventh doubling step of the loop. */
  method SeventhPartFor(chord: CliChord.Chord, key: string, chordIndex: int) returns (r: Outcome<seq<Finding>>)
    requires chord.Valid()
    ensures r == SeventhPart(chord.notes, key, chordIndex)
  {
    r := Ok([]);
    if chord.hasSeventh {
      r := CheckChordDoubling(chord, chordIndex, key, false);
    }
  }

  /** Spacing, range and doubling of a four-voice chord. */
  method SingleChecksFor(chord: CliChord.Chord, reading: Reading, chordIndex: int) returns (r: Outcome<seq<Finding>>)
    requires chord.Valid() && |chord.notes| == 4
    ensures r == SingleChecks(chord.notes, reading, chordIndex)
  {
    var range := CheckRanges(chord.notes, chordIndex);
    var leading := LeadingPartFor(chord, reading, chordIndex);
    if leading.Raise? {
      return Raise(leading.error);
    }
    var seventh := SeventhPartFor(chord, reading.key, chordIndex);
    if seventh.Raise? {
      return Raise(seventh.error);
    }
    r := Ok(SpacingErrors(chord.notes, chordIndex).value + range.value + leading.value + seventh.value);
  }

  /** The seventh resolution step of the loop. */
  method SeventhResolutionPartFor(prev: CliChord.Chord, curr: CliChord.Chord, key: string, currIndex: int)
    returns (r: Outcome<seq<Finding>>)
    requires prev.Valid()
    ensures r == SeventhResolutionPart(prev.notes, curr.notes, key, currIndex)
  {
    r := Ok([]);
    if prev.hasSeventh {
      r := CheckSeventhResolution(prev, curr, key, currIndex);
    }
  }

  /** The leading-tone resolution step of the loop. */
  method LeadingResolutionPartFor(prev: CliChord.Chord, curr: CliChord.Chord, key: string, numerals: seq<string>, currIndex: int)
    returns (r: Outcome<seq<Finding>>)
    requires prev.Valid()
    ensures r == LeadingResolutionPart(prev.notes, curr.notes, key, numerals, currIndex)
  {
    var numeral := prev.GetNumeralForKey(key, false);
    if numeral.Raise? {
      return Raise(numeral.error);
    }
    r := Ok([]);
    if numeral.value in numerals {
      r := CheckLeadingResolution(prev, curr, key, currIndex);
    }
  }

  /** Movement and resolution against the previous four-voice chord. */
  method PairChecksFor(prev: CliChord.Chord, prevRelation: Relation, chord: CliChord.Chord, key: string, chordIndex: int)
    returns (r: Outcome<seq<Finding>>)
    requires prev.Valid() && chord.Valid() && |prev.notes| == 4 && |chord.notes| == 4
    ensures r == PairChecks(Carried(prev.notes, prevRelation), chord.notes, key, chordIndex)
  {
    var movement := CheckVoiceMovement(prev.notes, chord.notes, chordIndex);
    ParallelFlagged(prev.notes, chord.notes, chordIndex, "", 0, 0);
    var checkKey := key;
    if prevRelation == Applied {
      var root := chord.GetRootName();
      checkKey := root.value;
    }
    assert checkKey == CheckKey(prevRelation, chord.notes, key);
    var seventh := SeventhResolutionPartFor(prev, chord, checkKey, chordIndex);
    if seventh.Raise? {
      return Raise(seventh.error);
    }
    var leading := LeadingResolutionPartFor(prev, chord, checkKey,
                                            if prevRelation == Applied then LeadingNumerals else KeyLeadingNumerals, chordIndex);
    if leading.Raise? {
      return Raise(leading.error);
    }
    r := Ok(movement.value + seventh.value + leading.value);
  }

  /** What the loop's previous chord and relation stand for. */
  ghost function CarriedOf(prev: CliChord.Chord?, relation: Relation): (r: Option<Carried>)
    reads prev
    ensures r.Some? <==> prev != null
  {
    if prev == null then None else Some(Carried(prev.notes, relation))
  }

  /** The step outcome that the loop's result for a chord and its new
      previous chord and relation stand for. */
  ghost function StepOutcome(found: Outcome<seq<Finding>>, nextPrev: CliChord.Chord?, nextRelation: Relation)
    : Outcome<(seq<Finding>, Option<Carried>)>
    reads nextPrev
  {
    match found
    case Raise(e) => Raise(e)
    case Ok(v) => Ok((v, CarriedOf(nextPrev, nextRelation)))
  }

  /** The checks against the previous chord object, when there is one. */
  method PairedWithFor(prev: CliChord.Chord?, prevRelation: Relation, chord: CliChord.Chord, key: string, chordIndex: int)
    returns (r: Outcome<seq<Finding>>)
    requires chord.Valid() && |chord.notes| == 4
    requires prev != null ==> prev.Valid() && |prev.notes| == 4
    ensures r == PairedWith(CarriedOf(prev, prevRelation), chord.notes, key, chordIndex)
  {
    r := Ok([]);
    if prev != null {
      r := PairChecksFor(prev, prevRelation, chord, key, chordIndex);
    }
  }

  /** The checks of validate_progression's loop for a four-voice chord i. */
  method CheckFourVoiceChord(progression: seq<CliChord.Chord>, i: nat, own: Reading, prev: CliChord.Chord?, prevRelation: Relation)
    returns (r: Outcome<(seq<Finding>, Relation)>)
    requires i < |progression| && CliProgression.AllValid(progression) && |progression[i].notes| == 4
    requires own.relation != Applied && own.flags == []
    requires prev != null ==> prev in progression && |prev.notes| == 4
    ensures r == FourVoiceStep(CliProgression.NotesOf(progression), i, own, CarriedOf(prev, prevRelation))
  {
    var chord := progression[i];
    assert chord.Valid() && (prev != null ==> prev.Valid());
    var reading := ReadChordFor(progression, i, own);
    if reading.Raise? {
      return Raise(reading.error);
    }
    var found := ReadingChecksFor(chord, reading.value, prev, prevRelation, i + 1);
    if found.Raise? {
      return Raise(found.error);
    }
    r := Ok((reading.value.flags + found.value, reading.value.relation));
  }

  /** The checks of a four-voice chord object once its reading is known. */
  method ReadingChecksFor(chord: CliChord.Chord, reading: Reading, prev: CliChord.Chord?, prevRelation: Relation, chordIndex: int)
    returns (r: Outcome<seq<Finding>>)
    requires chord.Valid() && |chord.notes| == 4
    requires prev != null ==> prev.Valid() && |prev.notes| == 4
    ensures r == ReadingChecks(chord.notes, reading, CarriedOf(prev, prevRelation), chordIndex)
  {
    var single := SingleChecksFor(chord, reading, chordIndex);
    if single.Raise? {
      return Raise(single.error);
    }
    var paired := PairedWithFor(prev, prevRelation, chord, reading.key, chordIndex);
    if paired.Raise? {
      return Raise(paired.error);
    }
    r := Ok(single.value + paired.value);
  }

  /** One step of the pass carries it on to the next chord. */
  lemma RunNext(chords: seq<seq<Note>>, key: string, i: nat, s: State, found: seq<Finding>, carried: Option<Carried>)
    requires i < |chords| && (s.carried.Some? ==> |s.carried.value.notes| == 4)
    requires Step(chords, key, i, s.carried) == Ok((found, carried))
    ensures carried.Some? ==> |carried.value.notes| == 4
    ensures RunFrom(chords, key, i, s) == RunFrom(chords, key, i + 1, State(s.errors + found, carried))
  {
    StepShape(chords, key, i, s.carried);
  }

  /** A step that raises ends the pass with its error. */
  lemma RunRaised(chords: seq<seq<Note>>, key: string, i: nat, s: State)
    requires i < |chords| && (s.carried.Some? ==> |s.carried.value.notes| == 4)
    requires Step(chords, key, i, s.carried).Raise?
    ensures RunFrom(chords, key, i, s) == Raise(Step(chords, key, i, s.carried).error)
  {
  }

  /** The body of validate_progression's loop for chord i. */
  method CheckChord(progression: seq<CliChord.Chord>, ghost chords: seq<seq<Note>>, key: string, i: nat,
                    prev: CliChord.Chord?, prevRelation: Relation)
    returns (r: Outcome<seq<Finding>>, nextPrev: CliChord.Chord?, nextRelation: Relation)
    requires i < |progression| && CliProgression.AllValid(progression) && chords == CliProgression.NotesOf(progression)
    requires prev != null ==> prev in progression && |prev.notes| == 4
    ensures nextPrev != null ==> nextPrev in progression && |nextPrev.notes| == 4
    ensures Step(chords, key, i, CarriedOf(prev, prevRelation)) == StepOutcome(r, nextPrev, nextRelation)
  {
    var chord := progression[i];
    assert chord.Valid();
    nextPrev, nextRelation := prev, prevRelation;
    var own := OwnReadingFor(chord, key);
    if own.Raise? {
      return Raise(own.error), nextPrev, nextRelation;
    }
    if |chord.notes| != 4 {
      return Ok([WrongVoiceCount(i + 1)]), nextPrev, nextRelation;
    }
    r, nextPrev, nextRelation := FourVoiceFor(progression, chords, i, own.value, prev, prevRelation);
  }

  /** A four-voice chord i checked, and carried on as the previous chord
      when its checks do not raise. */
  method FourVoiceFor(progression: seq<CliChord.Chord>, ghost chords: seq<seq<Note>>, i: nat, own: Reading,
                      prev: CliChord.Chord?, prevRelation: Relation)
    returns (r: Outcome<seq<Finding>>, nextPrev: CliChord.Chord?, nextRelation: Relation)
    requires i < |progression| && CliProgression.AllValid(progression) && chords == CliProgression.NotesOf(progression)
    requires |progression[i].notes| == 4 && own.relation != Applied && own.flags == []
    requires prev != null ==> prev in progression && |prev.notes| == 4
    ensures nextPrev != null ==> nextPrev in progression && |nextPrev.notes| == 4
    ensures r.Raise? ==> FourVoiceStep(chords, i, own, CarriedOf(prev, prevRelation)) == Raise(r.error)
    ensures r.Ok? ==> FourVoiceStep(chords, i, own, CarriedOf(prev, prevRelation)) == Ok((r.value, nextRelation))
                      && nextPrev == progression[i]
  {
    var found := CheckFourVoiceChord(progression, i, own, prev, prevRelation);
    if found.Raise? {
      return Raise(found.error), prev, prevRelation;
    }
    r, nextPrev, nextRelation := Ok(found.value.0), progression[i], found.value.1;
  }

  /** The pass over the chord objects of a progression from chord i on. */
  ghost function PassFrom(progression: seq<CliChord.Chord>, key: string, i: nat, s: State): Outcome<State>
    reads progression
    requires i <= |progression| && (s.carried.Some? ==> |s.carried.value.notes| == 4)
  {
    RunFrom(CliProgression.NotesOf(progression), key, i, s)
  }

  /** What validate_progression's loop keeps after i chords: the previous
      chord is a four-voice chord of the progression, and the pass from
      here on ends as the whole pass does. */
  ghost predicate Passed(progression: seq<CliChord.Chord>, key: string, i: nat,
                         errors: seq<Finding>, prev: CliChord.Chord?, prevRelation: Relation)
    reads progression, prev
  {
    && i <= |progression|
    && (prev != null ==> prev in progression && |prev.notes| == 4)
    && PassFrom(progression, key, 0, State([], None)) == PassFrom(progression, key, i, State(errors, CarriedOf(prev, prevRelation)))
  }

  /** After the last chord the pass has ended with the errors found. */
  lemma PassedAll(progression: seq<CliChord.Chord>, key: string, errors: seq<Finding>, prev: CliChord.Chord?, prevRelation: Relation)
    requires Passed(progression, key, |progression|, errors, prev, prevRelation)
    ensures Validate(CliProgression.NotesOf(progression), key) == Ok(errors)
  {
  }

  /** The outcome of chord i carries the loop on, or ends the whole pass
      with its error. */
  lemma PassedStep(progression: seq<CliChord.Chord>, key: string, i: nat,
                   errors: seq<Finding>, prev: CliChord.Chord?, prevRelation: Relation,
                   found: Outcome<seq<Finding>>, nextPrev: CliChord.Chord?, nextRelation: Relation)
    requires i < |progression| && Passed(progression, key, i, errors, prev, prevRelation)
    requires nextPrev != null ==> nextPrev in progression && |nextPrev.notes| == 4
    requires Step(CliProgression.NotesOf(progression), key, i, CarriedOf(prev, prevRelation))
             == StepOutcome(found, nextPrev, nextRelation)
    ensures found.Raise? ==> Validate(CliProgression.NotesOf(progression), key) == Raise(found.error)
    ensures found.Ok? ==> Passed(progression, key, i + 1, errors + found.value, nextPrev, nextRelation)
  {
    var chords := CliProgression.NotesOf(progression);
    var before := State(errors, CarriedOf(prev, prevRelation));
    if found.Raise? {
      RunRaised(chords, key, i, before);
    } else {
      RunNext(chords, key, i, before, found.value, CarriedOf(nextPrev, nextRelation));
    }
  }

  /** One iteration of validate_progression's loop: the pass carried one
      chord further, or ended by the error chord i raises. */
  method PassChord(progression: seq<CliChord.Chord>, key: string, i: nat,
                   errors: seq<Finding>, prev: CliChord.Chord?, prevRelation: Relation)
    returns (stop: Option<Exception>, nextErrors: seq<Finding>, nextPrev: CliChord.Chord?, nextRelation: Relation)
    requires i < |progression| && CliProgression.AllValid(progression)
    requires Passed(progression, key, i, errors, prev, prevRelation)
    ensures stop.Some? ==> Validate(CliProgression.NotesOf(progression), key) == Raise(stop.value)
    ensures stop.None? ==> Passed(progression, key, i + 1, nextErrors, nextPrev, nextRelation)
  {
    var found;
    found, nextPrev, nextRelation := CheckChord(progression, CliProgression.NotesOf(progression), key, i, prev, prevRelation);
    PassedStep(progression, key, i, errors, prev, prevRelation, found, nextPrev, nextRelation);
    if found.Raise? {
      return Some(found.error), errors, nextPrev, nextRelation;
    }
    stop, nextErrors := None, errors + found.value;
  }

  /** validate_progression: the pass over the chords in order, carrying the
      last four-voice chord and its relation. */
  method ValidateProgression(progression: seq<CliChord.Chord>, key: string) returns (r: Outcome<seq<Finding>>)
    requires CliProgression.AllValid(progression)
    ensures r == Validate(CliProgression.NotesOf(progression), key)
  {
    var errors: seq<Finding> := [];
    var prev: CliChord.Chord? := null;
    var prevRelation := Other;
    for i := 0 to |progression|
      invariant Passed(progression, key, i, errors, prev, prevRelation)
    {
      var stop;
      stop, errors, prev, prevRelation := PassChord(progression, key, i, errors, prev, prevRelation);
      if stop.Some? {
        return Raise(stop.value);
      }
    }
    PassedAll(progression, key, errors, prev, prevRelation);
    r := Ok(errors);
  }
}
