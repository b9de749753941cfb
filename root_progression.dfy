// The progression and SATB validator of the original program
// (chordProgression.py). The validator keeps its findings in a list field
// that validate_progression resets and then extends chord by chord: the
// unknown-chord finding, the spacing of the four voices, parallel fifths and
// octaves against the previous chord, and the range of each voice. An
// exception raised part-way leaves the findings appended before it in place.
// A chord is seen through what the validator reads from it: the values of its
// notes from the bass up and its numeral in a key.
module RootProgression {
  import opened Py
  import ProgressionLists

  /** What the validator reads from a chord: its note values, bass first,
      and its identify_numeral_by_key. */
  datatype ProgChord = ProgChord(values: seq<int>, numeralIn: string -> string)

  /** One entry of `_errors`: a {"type", "description"} record. */
  datatype Finding = Finding(kind: string, description: string)

  /** The findings appended so far and the exception that ended the work, if any. */
  type Trace = Partial<Finding>

  /** One piece of work after another: the second only runs when the first
      did not raise. */
  function Then(a: Trace, b: Trace): (r: Trace)
    ensures a.error.Some? ==> r == a
    ensures a.error.None? ==> r.values == a.values + b.values && r.error == b.error
  {
    if a.error.Some? then a else Partial(a.values + b.values, b.error)
  }

  lemma ThenAssociates(a: Trace, b: Trace, c: Trace)
    ensures Then(Then(a, b), c) == Then(a, Then(b, c))
  {
    if a.error.None? && b.error.None? {
      assert a.values + b.values + c.values == a.values + (b.values + c.values);
    }
  }

  /** Findings already in the list, followed by those of a piece of work. */
  function Extend(errors: seq<Finding>, t: Trace): Trace
  {
    Partial(errors + t.values, t.error)
  }

  /** Extending by two pieces of work is extending by the first and then,
      unless it raised, by the second. */
  lemma ExtendThen(errors: seq<Finding>, a: Trace, b: Trace)
    ensures a.error.Some? ==> Extend(errors, Then(a, b)) == Extend(errors, a)
    ensures a.error.None? ==> Extend(errors, Then(a, b)) == Extend(errors + a.values, b)
  {
    assert errors + (a.values + b.values) == errors + a.values + b.values;
  }

  const Done: Trace := Partial([], None)

  /** `_validation_settings`. */
  const MaxDistance: seq<int> := [12, 12, 24]
  const VoiceRange: seq<(int, int)> := [(29, 49), (40, 55), (44, 62), (51, 67)]

  /** SATBVoices(voice).name; ValueError for a number that names no voice. */
  function VoiceName(voice: int): (r: Outcome<string>)
    ensures r.Ok? <==> 1 <= voice <= 4
  {
    if voice == 1 then Ok("Bass")
    else if voice == 2 then Ok("Tenor")
    else if voice == 3 then Ok("Alto")
    else if voice == 4 then Ok("Soprano")
    else Raise(ValueError(StrInt(voice) + " is not a valid SATBVoices"))
  }

  // ---------------------------------------------------------------------
  // Spacing (__check_voice_distances)

  const SopranoAltoSpacing := Finding("spacing", "Too much distance between soprano and alto voices.")
  const AltoTenorSpacing := Finding("spacing", "Too much distance between alto and tenor voices.")
  const TenorBassSpacing := Finding("spacing", "Too much distance between tenor and bass voices.")

  /** One spacing finding per adjacent pair of the four voices further apart
      than its maximum, from the top down. */
  function Spacing(values: seq<int>): (r: seq<Finding>)
    requires |values| >= 4
    ensures SopranoAltoSpacing in r <==> values[3] - values[2] > 12
    ensures AltoTenorSpacing in r <==> values[2] - values[1] > 12
    ensures TenorBassSpacing in r <==> values[1] - values[0] > 24
    ensures |r| <= 3
  {
    (if values[3] - values[2] > MaxDistance[0] then [SopranoAltoSpacing] else [])
    + (if values[2] - values[1] > MaxDistance[1] then [AltoTenorSpacing] else [])
    + (if values[1] - values[0] > MaxDistance[2] then [TenorBassSpacing] else [])
  }

  /** The spacing check reads notes[0..3]: IndexError for fewer than four notes. */
  function SpacingTrace(values: seq<int>): Trace
  {
    if |values| < 4 then Partial([], Some(IndexError)) else Partial(Spacing(values), None)
  }

  /** Moving every voice by the same amount keeps the spacing findings. */
  lemma SpacingShifted(values: seq<int>, d: int)
    requires |values| >= 4
    ensures Spacing(Shifted(values, d)) == Spacing(values)
  {
    var s := Shifted(values, d);
    assert s[1] - s[0] == values[1] - values[0];
    assert s[2] - s[1] == values[2] - values[1];
    assert s[3] - s[2] == values[3] - values[2];
  }

  function Shifted(values: seq<int>, d: int): (r: seq<int>)
    ensures |r| == |values|
    ensures forall k :: 0 <= k < |values| ==> r[k] == values[k] + d
  {
    seq(|values|, k requires 0 <= k < |values| => values[k] + d)
  }

  // ---------------------------------------------------------------------
  // Range (__check_voice_in_range)

  /** At most one range finding for a voice: too low below its lowest note,
      else too high above its highest. */
  function RangeFinding(voice: int, value: int): (r: seq<Finding>)
    requires 1 <= voice <= 4
    ensures |r| <= 1
    ensures r == [] <==> VoiceRange[voice - 1].0 <= value <= VoiceRange[voice - 1].1
    ensures r != [] ==> r[0].kind == "range"
  {
    var name := VoiceName(voice).value;
    if value < VoiceRange[voice - 1].0 then [Finding("range", name + " voice is too low.")]
    else if value > VoiceRange[voice - 1].1 then [Finding("range", name + " voice is too high.")]
    else []
  }

  /** The range check of one voice, ValueError for a voice number past Soprano. */
  function VoiceTrace(voice: int, value: int): Trace
  {
    if 1 <= voice <= 4 then Partial(RangeFinding(voice, value), None)
    else Partial([], Some(VoiceName(voice).error))
  }

  /** The range checks of the notes from position j on, numbered from 1. */
  function RangeFrom(values: seq<int>, j: nat): Trace
    requires j <= |values|
    decreases |values| - j
  {
    if j == |values| then Done else Then(VoiceTrace(j + 1, values[j]), RangeFrom(values, j + 1))
  }

  /** A chord of at most four notes passes the range checks without raising,
      and a fifth note raises ValueError. */
  lemma {:induction false} RangeRaisesPastFour(values: seq<int>, j: nat)
    requires j <= |values|
    ensures RangeFrom(values, j).error.None? <==> |values| <= 4 || j == |values|
    decreases |values| - j
  {
    if j < |values| {
      RangeRaisesPastFour(values, j + 1);
    }
  }

  // ---------------------------------------------------------------------
  // Movement (__check_voice_movement)

  const ParallelFifths := Finding("movement", "Parallel 5ths between two chords.")
  const ParallelOctaves := Finding("movement", "Parallel 8ves between two chords.")

  /** get_interval between two notes: the semitones from the first up to the
      second, 0-11. */
  function Interval(a: int, b: int): (r: int)
    ensures 0 <= r < 12
  {
    (b - a) % 12
  }

  /** The pair (i, j) of voices: when the previous chord's interval is a fifth
      or an octave, the same interval in the current chord is flagged; the
      current chord is only read then, and IndexError when it lacks voice j. */
  function PairTrace(prev: seq<int>, curr: seq<int>, i: nat, j: nat): (r: Trace)
    requires i < j < |prev|
    ensures r.error.Some? <==> Interval(prev[i], prev[j]) in {0, 7} && j >= |curr|
    ensures r.error.None? ==>
              (r.values != [] <==> Interval(prev[i], prev[j]) in {0, 7} && Interval(curr[i], curr[j]) == Interval(prev[i], prev[j]))
  {
    var before := Interval(prev[i], prev[j]);
    if before == 7 then
      if j >= |curr| then Partial([], Some(IndexError))
      else Partial(if Interval(curr[i], curr[j]) == before then [ParallelFifths] else [], None)
    else if before == 0 then
      if j >= |curr| then Partial([], Some(IndexError))
      else Partial(if Interval(curr[i], curr[j]) == before then [ParallelOctaves] else [], None)
    else Done
  }

  /** The inner loop: voice i against voices j .. |prev| - 1. */
  function RowFrom(prev: seq<int>, curr: seq<int>, i: nat, j: nat): Trace
    requires i < j <= |prev|
    decreases |prev| - j
  {
    if j == |prev| then Done else Then(PairTrace(prev, curr, i, j), RowFrom(prev, curr, i, j + 1))
  }

  /** The outer loop: voices i .. |prev| - 2 against the voices above them. */
  function MovementFrom(prev: seq<int>, curr: seq<int>, i: nat): Trace
    requires i <= |prev|
    decreases |prev| - i
  {
    if i + 1 >= |prev| then Done else Then(RowFrom(prev, curr, i, i + 1), MovementFrom(prev, curr, i + 1))
  }

  function Movement(prev: seq<int>, curr: seq<int>): Trace
  {
    MovementFrom(prev, curr, 0)
  }

  /** A current chord with at least as many voices as the previous one is
      compared without raising. */
  lemma {:induction false} RowNeverRaises(prev: seq<int>, curr: seq<int>, i: nat, j: nat)
    requires i < j <= |prev| <= |curr|
    ensures RowFrom(prev, curr, i, j).error.None?
    decreases |prev| - j
  {
    if j < |prev| {
      RowNeverRaises(prev, curr, i, j + 1);
    }
  }

  lemma {:induction false} MovementNeverRaises(prev: seq<int>, curr: seq<int>, i: nat)
    requires i <= |prev| <= |curr|
    ensures MovementFrom(prev, curr, i).error.None?
    decreases |prev| - i
  {
    if i + 1 < |prev| {
      RowNeverRaises(prev, curr, i, i + 1);
      MovementNeverRaises(prev, curr, i + 1);
    }
  }

  /** Transposing either chord keeps every interval and so the findings. */
  lemma {:induction false} RowShifted(prev: seq<int>, curr: seq<int>, i: nat, j: nat, d: int, e: int)
    requires i < j <= |prev|
    ensures RowFrom(Shifted(prev, d), Shifted(curr, e), i, j) == RowFrom(prev, curr, i, j)
    decreases |prev| - j
  {
    if j < |prev| {
      var p, c := Shifted(prev, d), Shifted(curr, e);
      assert Interval(p[i], p[j]) == Interval(prev[i], prev[j]) by {
        assert p[j] - p[i] == prev[j] - prev[i];
      }
      if j < |curr| {
        assert Interval(c[i], c[j]) == Interval(curr[i], curr[j]) by {
          assert c[j] - c[i] == curr[j] - curr[i];
        }
      }
      RowShifted(prev, curr, i, j + 1, d, e);
    }
  }

  lemma {:induction false} MovementShifted(prev: seq<int>, curr: seq<int>, i: nat, d: int, e: int)
    requires i <= |prev|
    ensures MovementFrom(Shifted(prev, d), Shifted(curr, e), i) == MovementFrom(prev, curr, i)
    decreases |prev| - i
  {
    if i + 1 < |prev| {
      RowShifted(prev, curr, i, i + 1, d, e);
      MovementShifted(prev, curr, i + 1, d, e);
    }
  }

  /** A chord repeated note for note keeps every fifth and octave between its
      voices, and each is flagged. */
  lemma {:induction false} RepeatedRowFlags(c: seq<int>, i: nat, j: nat, k: nat)
    requires i < j <= k < |c| && Interval(c[i], c[k]) in {0, 7}
    ensures RowFrom(c, c, i, j).values != []
    decreases k - j
  {
    RowNeverRaises(c, c, i, j + 1);
    if j < k {
      RepeatedRowFlags(c, i, j + 1, k);
    }
  }

  lemma {:induction false} RepeatedChordFlags(c: seq<int>, m: nat, i: nat, k: nat)
    requires m <= i < k < |c| && Interval(c[i], c[k]) in {0, 7}
    ensures MovementFrom(c, c, m).values != []
    decreases i - m
  {
    if m == i {
      RepeatedRowFlags(c, i, i + 1, k);
    } else {
      RowNeverRaises(c, c, m, m + 1);
      RepeatedChordFlags(c, m + 1, i, k);
    }
  }

  // ---------------------------------------------------------------------
  // The pass (validate_progression)

  const UnknownChord := Finding("chord", "Unknown chord in progression.")

  /** The unknown-chord finding for a chord whose numeral is "Unknown". */
  function UnknownTrace(numeral: string): Trace
  {
    Partial(if numeral == "Unknown" then [UnknownChord] else [], None)
  }

  /** The checks of a chord's voices: spacing, movement against the previous
      chord when there is one, then range. */
  function VoicesTrace(values: seq<int>, prev: Option<seq<int>>): Trace
  {
    Then(SpacingTrace(values),
    Then(if prev.Some? then Movement(prev.value, values) else Done, RangeFrom(values, 0)))
  }

  /** The work of the loop for one chord, in the code's order. */
  function ChordTrace(chord: ProgChord, prev: Option<seq<int>>, key: string): Trace
  {
    Then(UnknownTrace(chord.numeralIn(key)), VoicesTrace(chord.values, prev))
  }

  /** The chord before chord i, which every chord becomes once checked. */
  function PrevOf(chords: seq<ProgChord>, i: nat): Option<seq<int>>
    requires i < |chords|
  {
    if i == 0 then None else Some(chords[i - 1].values)
  }

  /** The pass from chord i on. */
  function PassFrom(chords: seq<ProgChord>, key: string, i: nat): Trace
    requires i <= |chords|
    decreases |chords| - i
  {
    if i == |chords| then Done else Then(ChordTrace(chords[i], PrevOf(chords, i), key), PassFrom(chords, key, i + 1))
  }

  function Pass(chords: seq<ProgChord>, key: string): Trace
  {
    PassFrom(chords, key, 0)
  }

  /** A chord ends the pass exactly when it does not have four voices. */
  lemma ChordRaisesUnlessFour(chord: ProgChord, prev: Option<seq<int>>, key: string)
    requires prev.Some? ==> |prev.value| == 4
    ensures ChordTrace(chord, prev, key).error.None? <==> |chord.values| == 4
  {
    RangeRaisesPastFour(chord.values, 0);
    if prev.Some? && |chord.values| >= 4 {
      MovementNeverRaises(prev.value, chord.values, 0);
    }
  }

  /** The pass from chord i goes on past it exactly when it has four voices. */
  lemma PassStepRaises(chords: seq<ProgChord>, key: string, i: nat)
    requires i < |chords| && (0 < i ==> |chords[i - 1].values| == 4)
    ensures PassFrom(chords, key, i).error.None?
            <==> |chords[i].values| == 4 && PassFrom(chords, key, i + 1).error.None?
  {
    ChordRaisesUnlessFour(chords[i], PrevOf(chords, i), key);
  }

  lemma FourVoicesFromNext(chords: seq<ProgChord>, i: nat)
    requires i < |chords| && |chords[i].values| == 4
    ensures (forall k :: i + 1 <= k < |chords| ==> |chords[k].values| == 4)
            <==> (forall k :: i <= k < |chords| ==> |chords[k].values| == 4)
  {
  }

  /** The pass runs to its end exactly when every chord from i on has four
      voices: fewer raise IndexError in the spacing check, more raise
      ValueError in the range check. */
  lemma {:induction false} PassRaisesUnlessFourVoices(chords: seq<ProgChord>, key: string, i: nat)
    requires i <= |chords| && (0 < i ==> |chords[i - 1].values| == 4)
    ensures PassFrom(chords, key, i).error.None? <==> forall k :: i <= k < |chords| ==> |chords[k].values| == 4
    decreases |chords| - i
  {
    if i < |chords| {
      PassStepRaises(chords, key, i);
      if |chords[i].values| == 4 {
        PassRaisesUnlessFourVoices(chords, key, i + 1);
        FourVoicesFromNext(chords, i);
      }
    }
  }

  // ---------------------------------------------------------------------
  // The validator object

  class SATBValidator {
    var errors: seq<Finding>

    constructor()
      ensures errors == []
    {
      errors := [];
    }

    /** __check_voice_distances. */
    method CheckVoiceDistances(values: seq<int>) returns (error: Option<Exception>)
      modifies this
      ensures Partial(errors, error) == Extend(old(errors), SpacingTrace(values))
    {
      if |values| < 4 {
        return Some(IndexError);
      }
      var soprano, alto, tenor, bass := values[3], values[2], values[1], values[0];
      if soprano - alto > MaxDistance[0] {
        errors := errors + [SopranoAltoSpacing];
      }
      if alto - tenor > MaxDistance[1] {
        errors := errors + [AltoTenorSpacing];
      }
      if tenor - bass > MaxDistance[2] {
        errors := errors + [TenorBassSpacing];
      }
      error := None;
    }

    /** __check_voice_in_range. */
    method CheckVoiceInRange(voice: int, value: int) returns (error: Option<Exception>)
      modifies this
      ensures Partial(errors, error) == Extend(old(errors), VoiceTrace(voice, value))
    {
      var name := VoiceName(voice);
      if name.Raise? {
        return Some(name.error);
      }
      if value < VoiceRange[voice - 1].0 {
        errors := errors + [Finding("range", name.value + " voice is too low.")];
      } else if value > VoiceRange[voice - 1].1 {
        errors := errors + [Finding("range", name.value + " voice is too high.")];
      }
      error := None;
    }

    /** One pair of voices of __check_voice_movement. */
    method CheckPair(prev: seq<int>, curr: seq<int>, i: nat, j: nat) returns (error: Option<Exception>)
      requires i < j < |prev|
      modifies this
      ensures Partial(errors, error) == Extend(old(errors), PairTrace(prev, curr, i, j))
    {
      var before := Interval(prev[i], prev[j]);
      error := None;
      if before == 7 || before == 0 {
        if j >= |curr| {
          return Some(IndexError);
        }
        if Interval(curr[i], curr[j]) == before {
          errors := errors + [if before == 7 then ParallelFifths else ParallelOctaves];
        }
      }
    }

    /** The inner loop of __check_voice_movement: voice i against the voices above it. */
    method CheckRow(prev: seq<int>, curr: seq<int>, i: nat) returns (error: Option<Exception>)
      requires i + 1 < |prev|
      modifies this
      ensures Partial(errors, error) == Extend(old(errors), RowFrom(prev, curr, i, i + 1))
    {
      for j := i + 1 to |prev|
        invariant Extend(errors, RowFrom(prev, curr, i, j)) == Extend(old(errors), RowFrom(prev, curr, i, i + 1))
      {
        ExtendThen(errors, PairTrace(prev, curr, i, j), RowFrom(prev, curr, i, j + 1));
        error := CheckPair(prev, curr, i, j);
        if error.Some? {
          return;
        }
      }
      error := None;
    }

    /** __check_voice_movement: every pair i < j of the previous chord's voices. */
    method CheckVoiceMovement(prev: seq<int>, curr: seq<int>) returns (error: Option<Exception>)
      modifies this
      ensures Partial(errors, error) == Extend(old(errors), Movement(prev, curr))
    {
      var i := 0;
      while i + 1 < |prev|
        invariant i <= |prev|
        invariant Extend(errors, MovementFrom(prev, curr, i)) == Extend(old(errors), Movement(prev, curr))
        decreases |prev| - i
      {
        ExtendThen(errors, RowFrom(prev, curr, i, i + 1), MovementFrom(prev, curr, i + 1));
        error := CheckRow(prev, curr, i);
        if error.Some? {
          return;
        }
        i := i + 1;
      }
      error := None;
    }

    /** The range loop: each note checked as the voice of its position. */
    method CheckRanges(values: seq<int>) returns (error: Option<Exception>)
      modifies this
      ensures Partial(errors, error) == Extend(old(errors), RangeFrom(values, 0))
    {
      for j := 0 to |values|
        invariant Extend(errors, RangeFrom(values, j)) == Extend(old(errors), RangeFrom(values, 0))
      {
        ExtendThen(errors, VoiceTrace(j + 1, values[j]), RangeFrom(values, j + 1));
        error := CheckVoiceInRange(j + 1, values[j]);
        if error.Some? {
          return;
        }
      }
      error := None;
    }

    /** The body of validate_progression's loop for one chord. */
    method CheckChord(chord: ProgChord, prev: Option<seq<int>>, key: string) returns (error: Option<Exception>)
      modifies this
      ensures Partial(errors, error) == Extend(old(errors), ChordTrace(chord, prev, key))
    {
      var numeral := chord.numeralIn(key);
      ExtendThen(errors, UnknownTrace(numeral), VoicesTrace(chord.values, prev));
      if numeral == "Unknown" {
        errors := errors + [UnknownChord];
      }
      error := CheckVoices(chord.values, prev);
    }

    /** The checks of the chord's voices, once the numeral has been checked. */
    method CheckVoices(values: seq<int>, prev: Option<seq<int>>) returns (error: Option<Exception>)
      modifies this
      ensures Partial(errors, error) == Extend(old(errors), VoicesTrace(values, prev))
    {
      ExtendThen(errors, SpacingTrace(values), Then(if prev.Some? then Movement(prev.value, values) else Done, RangeFrom(values, 0)));
      error := CheckVoiceDistances(values);
      if error.Some? {
        return;
      }
      error := CheckAgainstPrevious(values, prev);
    }

    /** The rest of the loop body: movement against the previous chord, when
        there is one, then the range of every voice. */
    method CheckAgainstPrevious(values: seq<int>, prev: Option<seq<int>>) returns (error: Option<Exception>)
      modifies this
      ensures Partial(errors, error)
              == Extend(old(errors), Then(if prev.Some? then Movement(prev.value, values) else Done, RangeFrom(values, 0)))
    {
      ExtendThen(errors, if prev.Some? then Movement(prev.value, values) else Done, RangeFrom(values, 0));
      if prev.Some? {
        error := CheckVoiceMovement(prev.value, values);
        if error.Some? {
          return;
        }
      }
      error := CheckRanges(values);
    }

    /** validate_progression: the findings start again from none, so they
        depend on the chords and the key alone, and running it again gives
        the same findings. */
    method ValidateProgression(chords: seq<ProgChord>, key: string) returns (error: Option<Exception>)
      modifies this
      ensures Partial(errors, error) == Pass(chords, key)
    {
      errors := [];
      for i := 0 to |chords|
        invariant Extend(errors, PassFrom(chords, key, i)) == Pass(chords, key)
      {
        ExtendThen(errors, ChordTrace(chords[i], PrevOf(chords, i), key), PassFrom(chords, key, i + 1));
        error := CheckChord(chords[i], PrevOf(chords, i), key);
        if error.Some? {
          return;
        }
      }
      error := None;
    }
  }

  // ---------------------------------------------------------------------
  // The progression object

  /** The numeral of every chord in the key. */
  function NumeralsOf(chords: seq<ProgChord>, key: string): (r: seq<string>)
    ensures |r| == |chords|
    ensures forall k :: 0 <= k < |chords| ==> r[k] == chords[k].numeralIn(key)
  {
    seq(|chords|, k requires 0 <= k < |chords| => chords[k].numeralIn(key))
  }

  class ChordProgression {
    var chords: seq<ProgChord>
    var key: string
    /** `_validator`: one validator shared by every progression. */
    const validator: SATBValidator

    /** ChordProgression(chords, key): a missing key is the empty string. */
    constructor(chords: seq<ProgChord>, key: string, validator: SATBValidator)
      ensures this.chords == chords && this.key == key && this.validator == validator
    {
      this.chords := chords;
      this.key := key;
      this.validator := validator;
    }

    /** add_chord: a chord create_chord refused with ValueError leaves the
        list as it was; another exception passes on; otherwise a missing or
        zero index appends and any other index inserts as list.insert does. */
    method AddChord(created: Outcome<ProgChord>, index: Option<int>) returns (error: Option<Exception>)
      modifies this
      ensures key == old(key)
      ensures created.Raise? ==> chords == old(chords)
      ensures created.Raise? ==> (error.None? <==> created.error.ValueError?)
      ensures created.Raise? && error.Some? ==> error.value == created.error
      ensures created.Ok? ==> error.None?
                              && chords == ProgressionLists.Placed(old(chords), if index.Some? then index.value else 0, created.value)
    {
      if created.Raise? {
        if created.error.ValueError? {
          return None;
        }
        return Some(created.error);
      }
      chords := ProgressionLists.Placed(chords, if index.Some? then index.value else 0, created.value);
      error := None;
    }

    /** remove_chord: pops only for a given, non-zero index; IndexError, with
        the list unchanged, for one out of range. */
    method RemoveChord(index: Option<int>) returns (error: Option<Exception>)
      modifies this
      ensures key == old(key)
      ensures index.None? || index.value == 0 ==> chords == old(chords) && error.None?
      ensures index.Some? && index.value != 0 ==>
                match Pop(old(chords), index.value)
                case Ok(rest) => chords == rest && error.None?
                case Raise(e) => chords == old(chords) && error == Some(e)
    {
      error := None;
      if index.Some? && index.value != 0 {
        var popped := Pop(chords, index.value);
        if popped.Raise? {
          return Some(popped.error);
        }
        chords := popped.value;
      }
    }

    /** get_progression_chord_numerals: nothing without a key, else one
        numeral per chord, in order. */
    method GetProgressionChordNumerals() returns (r: seq<string>)
      ensures key == "" ==> r == []
      ensures key != "" ==> r == NumeralsOf(chords, key)
    {
      r := [];
      if key != "" {
        for i := 0 to |chords|
          invariant r == NumeralsOf(chords[..i], key)
        {
          r := r + [chords[i].numeralIn(key)];
        }
        assert chords[..|chords|] == chords;
      }
    }

    /** validate_progression: runs the shared validator over the chords. */
    method ValidateProgression() returns (error: Option<Exception>)
      modifies validator
      ensures Partial(validator.errors, error) == Pass(chords, key)
    {
      error := validator.ValidateProgression(chords, key);
    }
  }
}
