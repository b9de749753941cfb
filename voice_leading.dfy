// The rules of four-part (soprano, alto, tenor, bass) writing that the
// validators of the web and command-line versions state in the same words
// (Flask/api/satb_validator.py, Cli/music/satb_validator.py): the spacing of
// adjacent voices within a chord, the range of each voice, and parallel
// fifths and octaves between two chords. A chord's notes are its voices from
// the bass up. Each check produces the list of error records it appends; an
// IndexError from a chord with too few notes ends the check.
module VoiceLeading {
  import opened Py
  import opened NoteText
  import opened ChordNotes
  import MusicNote

  /** An error record: its type and code, and the details dictionary --
      a chord index, two chord indices and two voices, or a chord index and a
      voice. */
  datatype Finding =
    | Flagged(kind: string, code: string, chordIndex: int)
    | Parallel(code: string, prevIndex: int, currIndex: int, voiceOne: int, voiceTwo: int)
    | Unresolved(code: string, chordIndex: int, voiceIndex: int)

  /** The largest distances soprano-alto, alto-tenor and tenor-bass. */
  const MaxDistances: seq<int> := [12, 12, 24]

  /** The lowest and highest value of bass, tenor, alto and soprano. */
  const VoiceRanges: seq<(int, int)> := [(26, 50), (36, 57), (43, 62), (47, 69)]

  const Parallel5th := "ERR_PARALLEL_5TH"
  const Parallel8th := "ERR_PARALLEL_8TH"

  // ---------------------------------------------------------------------
  // Spacing

  /** The spacing check: one error per adjacent pair of the upper four
      voices further apart than allowed; IndexError for fewer than four notes. */
  function SpacingErrors(ns: seq<Note>, chordIndex: int): (r: Outcome<seq<Finding>>)
    ensures r.Ok? <==> |ns| >= 4
    ensures r.Raise? ==> r.error == IndexError
    ensures r.Ok? ==>
              (Flagged("spacing", "ERR_SA_DISTANCE", chordIndex) in r.value <==> ns[3].value - ns[2].value > 12)
              && (Flagged("spacing", "ERR_AT_DISTANCE", chordIndex) in r.value <==> ns[2].value - ns[1].value > 12)
              && (Flagged("spacing", "ERR_TB_DISTANCE", chordIndex) in r.value <==> ns[1].value - ns[0].value > 24)
              && |r.value| <= 3
              && forall f :: f in r.value ==> f.Flagged? && f.kind == "spacing" && f.chordIndex == chordIndex
  {
    if |ns| < 4 then Raise(IndexError)
    else
      Ok((if ns[3].value - ns[2].value > MaxDistances[0] then [Flagged("spacing", "ERR_SA_DISTANCE", chordIndex)] else [])
         + (if ns[2].value - ns[1].value > MaxDistances[1] then [Flagged("spacing", "ERR_AT_DISTANCE", chordIndex)] else [])
         + (if ns[1].value - ns[0].value > MaxDistances[2] then [Flagged("spacing", "ERR_TB_DISTANCE", chordIndex)] else []))
  }

  // ---------------------------------------------------------------------
  // Range

  /** The name of voice 1 to 4 (any other number reads as the soprano). */
  function VoiceName(voice: int): string
  {
    if voice == 1 then "BASS" else if voice == 2 then "TENOR" else if voice == 3 then "ALTO" else "SOPRANO"
  }

  function RangeCode(voice: int, low: bool): string
  {
    "ERR_" + VoiceName(voice) + (if low then "_LOW" else "_HIGH")
  }

  /** The range check of one voice (1 for the bass): no error inside the
      voice's range, a LOW error below it, a HIGH error above it; IndexError
      for a fifth voice or more. */
  function VoiceInRange(voice: int, n: Note, chordIndex: int): (r: Outcome<seq<Finding>>)
    requires voice >= 1
    ensures r.Ok? <==> voice <= 4
    ensures r.Raise? ==> r.error == IndexError
    ensures r.Ok? ==> |r.value| <= 1
    ensures r.Ok? ==> (r.value == [] <==> VoiceRanges[voice - 1].0 <= n.value <= VoiceRanges[voice - 1].1)
    ensures r.Ok? && n.value < VoiceRanges[voice - 1].0 ==>
              r.value == [Flagged("range", RangeCode(voice, true), chordIndex)]
    ensures r.Ok? && n.value > VoiceRanges[voice - 1].1 ==>
              r.value == [Flagged("range", RangeCode(voice, false), chordIndex)]
  {
    if voice > 4 then Raise(IndexError)
    else if n.value < VoiceRanges[voice - 1].0 then Ok([Flagged("range", RangeCode(voice, true), chordIndex)])
    else if n.value > VoiceRanges[voice - 1].1 then Ok([Flagged("range", RangeCode(voice, false), chordIndex)])
    else Ok([])
  }

  function RangeResults(ns: seq<Note>, chordIndex: int): (r: seq<Outcome<seq<Finding>>>)
    ensures |r| == |ns| && forall j :: 0 <= j < |ns| ==> r[j] == VoiceInRange(j + 1, ns[j], chordIndex)
  {
    seq(|ns|, j requires 0 <= j < |ns| => VoiceInRange(j + 1, ns[j], chordIndex))
  }

  /** The range checks of every voice, from the bass up. */
  function RangeErrors(ns: seq<Note>, chordIndex: int): (r: Outcome<seq<Finding>>)
    ensures r.Ok? <==> |ns| <= 4
    ensures r.Raise? ==> r.error == IndexError
    ensures r.Ok? ==> |r.value| <= |ns|
  {
    var results := RangeResults(ns, chordIndex);
    if |ns| <= 4 then
      FlattenLength(results);
      Flatten(results)
    else
      assert results[4].Raise?;
      Flatten(results)
  }

  /** A value below (low) or above the range of voice 1 to 4. */
  predicate OutOfRange(voice: int, value: int, low: bool)
    requires 1 <= voice <= 4
  {
    if low then value < VoiceRanges[voice - 1].0 else value > VoiceRanges[voice - 1].1
  }

  /** A range error names a voice outside its range, in the direction it
      leaves the range, and every such voice has one. */
  lemma RangeFlagged(ns: seq<Note>, chordIndex: int, j: nat, low: bool)
    requires |ns| <= 4 && j < |ns|
    ensures Flagged("range", RangeCode(j + 1, low), chordIndex) in RangeErrors(ns, chordIndex).value
            <==> OutOfRange(j + 1, ns[j].value, low)
  {
    var results := RangeResults(ns, chordIndex);
    var f := Flagged("range", RangeCode(j + 1, low), chordIndex);
    assert RangeErrors(ns, chordIndex) == Flatten(results);
    forall k | 0 <= k < |ns|
      ensures results[k].Ok?
      ensures f in results[k].value <==> k == j && OutOfRange(j + 1, ns[j].value, low)
    {
      VoiceFlag(k + 1, ns[k], chordIndex, j + 1, low);
    }
    FlattenMember(results, f);
  }

  /** The only range error of a voice is its own, in its own direction. */
  lemma VoiceFlag(voice: int, n: Note, chordIndex: int, named: int, low: bool)
    requires 1 <= voice <= 4 && 1 <= named <= 4
    ensures VoiceInRange(voice, n, chordIndex).Ok?
    ensures Flagged("range", RangeCode(named, low), chordIndex) in VoiceInRange(voice, n, chordIndex).value
            <==> voice == named && OutOfRange(voice, n.value, low)
  {
    RangeCodesDiffer(named, low, voice, true);
    RangeCodesDiffer(named, low, voice, false);
  }

  /** Range codes name their voice and direction. */
  lemma RangeCodesDiffer(a: int, la: bool, b: int, lb: bool)
    requires 1 <= a <= 4 && 1 <= b <= 4
    ensures RangeCode(a, la) == RangeCode(b, lb) ==> a == b && la == lb
  {
    var ca, cb := RangeCode(a, la), RangeCode(b, lb);
    assert ca[4] == VoiceName(a)[0] && cb[4] == VoiceName(b)[0];
    assert ca[|ca| - 1] == (if la then 'W' else 'H') && cb[|cb| - 1] == (if lb then 'W' else 'H');
  }

  /** __check_voice_in_range for each note of a chord, from the bass up. */
  method CheckRanges(ns: seq<Note>, chordIndex: int) returns (r: Outcome<seq<Finding>>)
    ensures r == RangeErrors(ns, chordIndex)
  {
    ghost var results := RangeResults(ns, chordIndex);
    var errors: seq<Finding> := [];
    for j := 0 to |ns|
      invariant Flatten(results[..j]) == Ok(errors)
    {
      var found := VoiceInRange(j + 1, ns[j], chordIndex);
      FlattenLoopStep(results, j, errors);
      if found.Raise? {
        return Raise(found.error);
      }
      errors := errors + found.value;
    }
    assert results[..|ns|] == results;
    r := Ok(errors);
  }

  // ---------------------------------------------------------------------
  // Parallel fifths and octaves

  /** Voices i and j a fifth (7) or an octave (0) apart in both chords, in
      pitch classes; the code names which. */
  predicate ParallelPair(prev: seq<Note>, curr: seq<Note>, i: nat, j: nat, code: string)
    requires i < j < |prev| && j < |curr|
  {
    var p := MusicNote.Interval(prev[i], prev[j], false);
    ((p == 7 && code == Parallel5th) || (p == 0 && code == Parallel8th))
    && MusicNote.Interval(curr[i], curr[j], false) == p
  }

  /** The movement check of voices i and j: the current chord is only read
      when the previous chord has a fifth or an octave there. */
  function PairResult(prev: seq<Note>, curr: seq<Note>, i: nat, j: nat, currIndex: int): (r: Outcome<seq<Finding>>)
    requires i < j < |prev|
    ensures j < |curr| ==> r.Ok?
    ensures r.Raise? ==> r.error == IndexError
    ensures r.Ok? ==> |r.value| <= 1
    ensures j < |curr| ==> forall code :: (Parallel(code, currIndex - 1, currIndex, i, j) in r.value <==> ParallelPair(prev, curr, i, j, code))
    ensures r.Ok? ==> forall f :: f in r.value ==> f.Parallel? && f.voiceOne == i && f.voiceTwo == j
  {
    var p := MusicNote.Interval(prev[i], prev[j], false);
    if p != 7 && p != 0 then Ok([])
    else if j >= |curr| then Raise(IndexError)
    else if MusicNote.Interval(curr[i], curr[j], false) == p then
      Ok([Parallel(if p == 7 then Parallel5th else Parallel8th, currIndex - 1, currIndex, i, j)])
    else Ok([])
  }

  /** The pairs (i, j) for one i, j running upward from i + 1. */
  function RowResults(prev: seq<Note>, curr: seq<Note>, i: nat, currIndex: int): (r: seq<Outcome<seq<Finding>>>)
    requires i < |prev|
    ensures |r| == |prev| - i - 1
    ensures forall k :: 0 <= k < |r| ==> r[k] == PairResult(prev, curr, i, i + 1 + k, currIndex)
  {
    seq(|prev| - i - 1, k requires 0 <= k < |prev| - i - 1 => PairResult(prev, curr, i, i + 1 + k, currIndex))
  }

  /** The rows, one per voice of the previous chord but its last. */
  function MovementResults(prev: seq<Note>, curr: seq<Note>, currIndex: int): (r: seq<Outcome<seq<Finding>>>)
    ensures |r| == (if |prev| == 0 then 0 else |prev| - 1)
    ensures forall i :: 0 <= i < |r| ==> r[i] == Flatten(RowResults(prev, curr, i, currIndex))
  {
    seq(if |prev| == 0 then 0 else |prev| - 1,
        i requires 0 <= i < (if |prev| == 0 then 0 else |prev| - 1) => Flatten(RowResults(prev, curr, i, currIndex)))
  }

  /** The movement check: every pair of voices of the previous chord, in order. */
  function MovementErrors(prev: seq<Note>, curr: seq<Note>, currIndex: int): (r: Outcome<seq<Finding>>)
    ensures r.Raise? ==> r.error == IndexError
  {
    var rows := MovementResults(prev, curr, currIndex);
    var r := Flatten(rows);
    if r.Raise? then
      var i :| 0 <= i < |rows| && rows[i] == Raise(r.error);
      var k :| 0 <= k < |RowResults(prev, curr, i, currIndex)| && RowResults(prev, curr, i, currIndex)[k] == Raise(r.error);
      r
    else r
  }

  /** When the current chord has the voices of the previous one, the movement
      check succeeds and reports exactly the pairs moving in parallel fifths
      or octaves. */
  lemma ParallelFlagged(prev: seq<Note>, curr: seq<Note>, currIndex: int, code: string, i: nat, j: nat)
    requires |prev| <= |curr|
    ensures MovementErrors(prev, curr, currIndex).Ok?
    ensures Parallel(code, currIndex - 1, currIndex, i, j) in MovementErrors(prev, curr, currIndex).value
            <==> i < j < |prev| && ParallelPair(prev, curr, i, j, code)
  {
    var rows := MovementResults(prev, curr, currIndex);
    var f := Parallel(code, currIndex - 1, currIndex, i, j);
    assert MovementErrors(prev, curr, currIndex) == Flatten(rows);
    forall a | 0 <= a < |rows|
      ensures rows[a].Ok?
      ensures f in rows[a].value <==> a == i && i < j < |prev| && ParallelPair(prev, curr, i, j, code)
    {
      RowFlagged(prev, curr, currIndex, a, code, i, j);
    }
    FlattenMember(rows, f);
    if i < j < |prev| && ParallelPair(prev, curr, i, j, code) {
      assert f in rows[i].value;
    }
  }

  /** The row of lower voice a reports the parallel pairs (a, j). */
  lemma RowFlagged(prev: seq<Note>, curr: seq<Note>, currIndex: int, a: nat, code: string, i: nat, j: nat)
    requires |prev| <= |curr| && a < |prev|
    ensures Flatten(RowResults(prev, curr, a, currIndex)).Ok?
    ensures Parallel(code, currIndex - 1, currIndex, i, j) in Flatten(RowResults(prev, curr, a, currIndex)).value
            <==> a == i && i < j < |prev| && ParallelPair(prev, curr, i, j, code)
  {
    var row := RowResults(prev, curr, a, currIndex);
    FlattenMember(row, Parallel(code, currIndex - 1, currIndex, i, j));
    if a == i && i < j < |prev| {
      assert row[j - i - 1] == PairResult(prev, curr, i, j, currIndex);
    }
  }

  /** __check_voice_movement: every pair i < j of voices of the previous
      chord, the current chord's interval compared where the previous one is
      a fifth or an octave. */
  method CheckVoiceMovement(prev: seq<Note>, curr: seq<Note>, currIndex: int) returns (r: Outcome<seq<Finding>>)
    ensures r == MovementErrors(prev, curr, currIndex)
  {
    ghost var rows := MovementResults(prev, curr, currIndex);
    var errors: seq<Finding> := [];
    for i := 0 to if |prev| == 0 then 0 else |prev| - 1
      invariant Flatten(rows[..i]) == Ok(errors)
    {
      var row := CheckPairsFrom(prev, curr, i, currIndex);
      FlattenLoopStep(rows, i, errors);
      if row.Raise? {
        return Raise(row.error);
      }
      errors := errors + row.value;
    }
    assert rows[..|rows|] == rows;
    r := Ok(errors);
  }

  /** The inner loop of the movement check, for one lower voice i. */
  method CheckPairsFrom(prev: seq<Note>, curr: seq<Note>, i: nat, currIndex: int) returns (r: Outcome<seq<Finding>>)
    requires i < |prev|
    ensures r == Flatten(RowResults(prev, curr, i, currIndex))
  {
    ghost var pairs := RowResults(prev, curr, i, currIndex);
    var errors: seq<Finding> := [];
    for j := i + 1 to |prev|
      invariant Flatten(pairs[..j - (i + 1)]) == Ok(errors)
    {
      var found := PairResult(prev, curr, i, j, currIndex);
      FlattenLoopStep(pairs, j - (i + 1), errors);
      if found.Raise? {
        return Raise(found.error);
      }
      errors := errors + found.value;
    }
    assert pairs[..|prev| - (i + 1)] == pairs;
    r := Ok(errors);
  }

  // ---------------------------------------------------------------------
  // Searches by name

  /** The degree a seventh on `degree` resolves to: one degree down, the
      tonic's seventh to the leading degree. */
  function ResolutionDegree(degree: int): (r: int)
    ensures degree == 0 ==> r == 6
    ensures degree != 0 ==> r + 1 == degree
  {
    if degree != 0 then degree - 1 else 6
  }

  /** The search loop for a note by name that stops at the first one. */
  method FindFirstNamed(ns: seq<Note>, name: string) returns (k: int)
    ensures k == FirstWithName(ns, name)
  {
    k := -1;
    for i := 0 to |ns|
      invariant k == -1 && forall j :: 0 <= j < i ==> ns[j].name != name
    {
      if ns[i].name == name {
        k := i;
        FirstWithNameIs(ns, name, k);
        return;
      }
    }
  }

  /** The delayed-resolution loop: does a note of the chord have the name? */
  method AppearsIn(ns: seq<Note>, name: string) returns (passed: bool)
    ensures passed <==> name in Names(ns)
  {
    passed := false;
    for i := 0 to |ns|
      invariant passed <==> exists j :: 0 <= j < i && ns[j].name == name
    {
      if ns[i].name == name {
        passed := true;
      }
    }
    assert forall j :: 0 <= j < |ns| ==> Names(ns)[j] == ns[j].name;
  }
}
