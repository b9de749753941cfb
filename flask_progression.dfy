// The chord progression of the web version (Flask/api/chord_progression.py):
// a list of chords and an optional key. Chords are created from text or a
// dictionary and placed in the list or removed from it; the progression
// reports each chord's name, its accidentals in the key, and its numeral in
// the key, where a chromatic chord acting as an applied dominant of the chord
// after it is written "applied/next" and, for SATB spelling, augmented sixths
// get their common names and a Neapolitan "bII" becomes "N".
module FlaskProgression {
  import opened Py
  import opened NoteText
  import opened IntervalCodes
  import opened ChordNotes
  import opened Scales
  import FlaskTheory
  import FlaskChord
  import ProgressionLists

  /** The notes of each chord of the list, in order. */
  ghost function NotesOf(chords: seq<FlaskChord.Chord>): (r: seq<seq<Note>>)
    reads chords
    ensures |r| == |chords| && forall i :: 0 <= i < |chords| ==> r[i] == chords[i].notes
  {
    seq(|chords|, i requires 0 <= i < |chords| reads chords => chords[i].notes)
  }

  // ---------------------------------------------------------------------
  // Numerals (get_progression_chord_numerals)

  /** Which reading of the applied-chord test of get_progression_chord_numerals. */
  datatype AppliedTest = AsWrittenTest | IntendedTest

  /** The test as written, `use_applied and relation == 'chromatic' or
      (relation == 'mixture' and numeral == 'I')`: Python binds `and` tighter
      than `or`, so a mixture I is tried as an applied chord even with
      applied numerals switched off. */
  predicate TriesAppliedAsWritten(useApplied: bool, relation: Relation, numeral: string)
  {
    (useApplied && relation == Chromatic) || (relation == Mixture && numeral == "I")
  }

  /** The test the option describes: only with applied numerals on, a chromatic
      chord or a mixture I. */
  predicate TriesApplied(useApplied: bool, relation: Relation, numeral: string)
  {
    useApplied && (relation == Chromatic || (relation == Mixture && numeral == "I"))
  }

  function Tries(test: AppliedTest, useApplied: bool, relation: Relation, numeral: string): bool
  {
    if test == AsWrittenTest then TriesAppliedAsWritten(useApplied, relation, numeral)
    else TriesApplied(useApplied, relation, numeral)
  }

  /** The try block: chord i read as an applied chord of chord i + 1 (with its
      inversion) and written "applied/next", next being chord i + 1's
      root-position numeral in the key. An IndexError anywhere inside, the
      missing chord after the last one included, leaves the numeral as it was,
      and so does an empty applied numeral. */
  function AppliedStep(chords: seq<seq<Note>>, i: nat, key: string, numeral: string): (r: Outcome<string>)
    requires i < |chords|
    ensures i + 1 == |chords| ==> r == Ok(numeral)
    ensures r.Ok? && r.value != numeral ==>
              i + 1 < |chords| && FlaskChord.AppliedOf(chords[i + 1], chords[i], true).Ok?
              && FlaskChord.NumeralOf(chords[i + 1], key, false).Ok?
              && r.value == FlaskChord.AppliedOf(chords[i + 1], chords[i], true).value + "/"
                            + FlaskChord.NumeralOf(chords[i + 1], key, false).value
    ensures r.Raise? ==> r.error != IndexError
  {
    if i + 1 == |chords| then Ok(numeral)
    else
      match FlaskChord.AppliedOf(chords[i + 1], chords[i], true)
        case Raise(e) => if e == IndexError then Ok(numeral) else Raise(e)
        case Ok(applied) =>
          if applied == "" then Ok(numeral)
          else
            match FlaskChord.NumeralOf(chords[i + 1], key, false)
              case Raise(e) => if e == IndexError then Ok(numeral) else Raise(e)
              case Ok(next) => Ok(applied + "/" + next)
  }

  /** The SATB renaming: an augmented-sixth numeral gets its common name,
      then every "bII" becomes "N". */
  function SatbNumeral(numeral: string, key: string, names: seq<string>): (r: Outcome<string>)
    ensures r.Ok? <==> FlaskTheory.Accidentals(names, key).Ok?
    ensures r.Ok? && !Contains(FlaskTheory.Aug6Numeral(numeral, key, names).value, "bII") ==>
              r == FlaskTheory.Aug6Numeral(numeral, key, names)
  {
    var aug :- FlaskTheory.Aug6Numeral(numeral, key, names);
    Ok(if Contains(aug, "bII") then Replace(aug, "bII", "N") else aug)
  }

  /** A chord's own numeral in the key, with its inversion; a fully-diminished
      seventh is re-read from the leading tone. */
  function OwnNumeral(ns: seq<Note>, key: string): (r: Outcome<string>)
    ensures r.Raise? <==> FlaskChord.NumeralOf(ns, key, true).Raise?
    ensures r.Ok? && FlaskChord.Identify(ns).quality != Diminished7 ==> r == FlaskChord.NumeralOf(ns, key, true)
  {
    var own :- FlaskChord.NumeralOf(ns, key, true);
    Ok(if FlaskChord.Identify(ns).quality == Diminished7 then FlaskTheory.LtNumeralForDim7(own) else own)
  }

  /** The numeral as appended: renamed for SATB spelling when asked. */
  function Renamed(numeral: string, key: string, ns: seq<Note>, useSatb: bool): (r: Outcome<string>)
    ensures !useSatb ==> r == Ok(numeral)
  {
    if useSatb then SatbNumeral(numeral, key, Names(ns)) else Ok(numeral)
  }

  /** The numeral the loop of get_progression_chord_numerals appends for
      chord i, with either reading of the applied-chord test. */
  function NumeralAtBy(test: AppliedTest, chords: seq<seq<Note>>, i: nat, key: string, useApplied: bool, useSatb: bool)
    : (r: Outcome<string>)
    requires i < |chords| && key != []
  {
    var result :- AppliedReading(test, chords, i, key, useApplied);
    Renamed(result, key, chords[i], useSatb)
  }

  /** Chord i's own numeral, or its applied reading against the next chord
      when the test tries one. */
  function AppliedReading(test: AppliedTest, chords: seq<seq<Note>>, i: nat, key: string, useApplied: bool)
    : Outcome<string>
    requires i < |chords| && key != []
  {
    var numeral :- OwnNumeral(chords[i], key);
    var relation := FlaskTheory.ChordRelation(key, numeral).value;
    if Tries(test, useApplied, relation, numeral) then AppliedStep(chords, i, key, numeral) else Ok(numeral)
  }

  /** Chord i's numeral, with the applied-chord test as the option describes it. */
  function NumeralAt(chords: seq<seq<Note>>, i: nat, key: string, useApplied: bool, useSatb: bool): (r: Outcome<string>)
    requires i < |chords| && key != []
    ensures FlaskChord.NumeralOf(chords[i], key, true).Raise? ==> r == Raise(FlaskChord.NumeralOf(chords[i], key, true).error)
  {
    NumeralAtBy(IntendedTest, chords, i, key, useApplied, useSatb)
  }

  function NumeralResults(chords: seq<seq<Note>>, key: string, useApplied: bool, useSatb: bool): (r: seq<Outcome<string>>)
    requires key != []
    ensures |r| == |chords| && forall i :: 0 <= i < |chords| ==> r[i] == NumeralAt(chords, i, key, useApplied, useSatb)
  {
    seq(|chords|, i requires 0 <= i < |chords| => NumeralAt(chords, i, key, useApplied, useSatb))
  }

  /** get_progression_chord_numerals: no numerals without a key; otherwise one
      numeral per chord, in order, and the first chord whose numeral raises
      ends the call with that error. */
  function Numerals(chords: seq<seq<Note>>, key: string, useApplied: bool, useSatb: bool): (r: Outcome<seq<string>>)
    ensures key == [] ==> r == Ok([])
    ensures key != [] && r.Ok? ==>
              |r.value| == |chords| && forall i :: 0 <= i < |chords| ==> NumeralAt(chords, i, key, useApplied, useSatb) == Ok(r.value[i])
    ensures key != [] ==>
              (r.Ok? <==> forall i :: 0 <= i < |chords| ==> NumeralAt(chords, i, key, useApplied, useSatb).Ok?)
  {
    if key == [] then Ok([]) else Collect(NumeralResults(chords, key, useApplied, useSatb))
  }

  /** With applied numerals switched off, a chord's numeral does not depend on
      the chords after it. */
  lemma AppliedOffIgnoresNext(chords: seq<seq<Note>>, i: nat, key: string, useSatb: bool)
    requires i < |chords| && key != []
    ensures NumeralAt(chords, i, key, false, useSatb) == NumeralAt(chords[..i + 1], i, key, false, useSatb)
  {
    assert chords[..i + 1][i] == chords[i];
  }

  /** As written, a chord whose numeral is a mixture I (a major tonic in a
      minor key) is still written as an applied chord of the next one when
      applied numerals are switched off; the intended test leaves it "I". */
  lemma MixtureTonicAsWritten(chords: seq<seq<Note>>, i: nat, key: string)
    requires i < |chords| && key != []
    requires OwnNumeral(chords[i], key) == Ok("I") && FlaskTheory.ChordRelation(key, "I") == Ok(Mixture)
    requires AppliedStep(chords, i, key, "I").Ok? && AppliedStep(chords, i, key, "I").value != "I"
    ensures NumeralAtBy(AsWrittenTest, chords, i, key, false, false) == AppliedStep(chords, i, key, "I")
    ensures NumeralAtBy(IntendedTest, chords, i, key, false, false) == Ok("I")
  {
  }

  /** In a minor key, I is a mixture numeral. */
  lemma TonicIsMixtureInMinor(key: string)
    requires key != [] && !IsUpper(key[0])
    ensures FlaskTheory.ChordRelation(key, "I") == Ok(Mixture)
  {
    FlaskTheory.StripPlain("I");
    assert FlaskTheory.MinorMixtureNumerals[0] == "I";
  }

  /** The last chord has no chord to resolve to, so it keeps its own numeral. */
  lemma LastKeepsOwnNumeral(chords: seq<seq<Note>>, key: string, useApplied: bool)
    requires |chords| > 0 && key != [] && OwnNumeral(chords[|chords| - 1], key).Ok?
    ensures NumeralAt(chords, |chords| - 1, key, useApplied, false) == OwnNumeral(chords[|chords| - 1], key)
  {
  }

  /** A chord diatonic to the key keeps its own numeral. */
  lemma DiatonicKeepsOwnNumeral(chords: seq<seq<Note>>, i: nat, key: string, useApplied: bool)
    requires i < |chords| && key != [] && OwnNumeral(chords[i], key).Ok?
    requires FlaskTheory.ChordRelation(key, OwnNumeral(chords[i], key).value) == Ok(Diatonic)
    ensures NumeralAt(chords, i, key, useApplied, false) == OwnNumeral(chords[i], key)
  {
  }

  /** A numeral other than the chord's own is "applied/next": the chord read as
      a dominant or leading-tone chord of the next chord, over the next chord's
      root-position numeral. */
  lemma AppliedShape(chords: seq<seq<Note>>, i: nat, key: string, useApplied: bool)
    requires i < |chords| && key != []
    requires NumeralAt(chords, i, key, useApplied, false).Ok? && OwnNumeral(chords[i], key).Ok?
    requires NumeralAt(chords, i, key, useApplied, false) != OwnNumeral(chords[i], key)
    ensures useApplied && i + 1 < |chords|
    ensures var applied := FlaskChord.AppliedOf(chords[i + 1], chords[i], true);
            var next := FlaskChord.NumeralOf(chords[i + 1], key, false);
            applied.Ok? && next.Ok?
            && NumeralAt(chords, i, key, useApplied, false) == Ok(applied.value + "/" + next.value)
            && (FlaskChord.Identify(chords[i]).quality != Diminished7 ==>
                  FlaskTheory.StripInversion(applied.value) in ["V", "V7", "viio", "viiø", "viio7"])
  {
  }

  // ---------------------------------------------------------------------
  // Accidentals and names

  function AccidentalResults(chords: seq<seq<Note>>, key: string): (r: seq<Outcome<seq<string>>>)
    ensures |r| == |chords| && forall i :: 0 <= i < |chords| ==> r[i] == FlaskTheory.Accidentals(Names(chords[i]), key)
  {
    seq(|chords|, i requires 0 <= i < |chords| => FlaskTheory.Accidentals(Names(chords[i]), key))
  }

  /** get_progression_chord_accidentals: nothing without a key; otherwise each
      chord's list of accidentals, one per note, in order. */
  function Accidentals(chords: seq<seq<Note>>, key: string): (r: Outcome<seq<seq<string>>>)
    ensures key == [] ==> r == Ok([])
    ensures key != [] && r.Ok? ==>
              |r.value| == |chords| && forall i :: 0 <= i < |chords| ==> |r.value[i]| == |chords[i]|
    ensures key != [] ==> (r.Ok? <==> forall i :: 0 <= i < |chords| ==> FlaskTheory.Accidentals(Names(chords[i]), key).Ok?)
  {
    if key == [] then Ok([])
    else
      var r := Collect(AccidentalResults(chords, key));
      if r.Ok? then
        assert forall i :: 0 <= i < |chords| ==> |r.value[i]| == |chords[i]| by {
          forall i | 0 <= i < |chords|
            ensures |r.value[i]| == |chords[i]|
          {
            assert FlaskTheory.Accidentals(Names(chords[i]), key) == Ok(r.value[i]);
            CollectLength(FlaskTheory.AccidentalResults(Names(chords[i]), key));
          }
        }
        r
      else r
  }

  /** get_progression_chord_names: each chord's name, in order; for created
      notes a chord's name is empty exactly when the chord is unknown. */
  function ChordNames(chords: seq<seq<Note>>, slashNotation: bool): (r: seq<string>)
    ensures |r| == |chords| && forall i :: 0 <= i < |chords| ==> r[i] == FlaskChord.NameOf(chords[i], slashNotation)
  {
    seq(|chords|, i requires 0 <= i < |chords| => FlaskChord.NameOf(chords[i], slashNotation))
  }

  lemma CollectLength<T>(results: seq<Outcome<T>>)
    ensures Collect(results).Ok? ==> |Collect(results).value| == |results|
  {
  }

  // ---------------------------------------------------------------------
  // The progression

  ghost predicate AllValid(chords: seq<FlaskChord.Chord>)
    reads chords
  {
    forall c :: c in chords ==> c.Valid()
  }

  /** Every chord object of a valid progression, and the one before it, is valid. */
  lemma ValidAt(chords: seq<FlaskChord.Chord>, i: nat)
    requires i < |chords| && AllValid(chords)
    ensures chords[i].Valid() && (i > 0 ==> chords[i - 1].Valid())
  {
    assert chords[i] in chords;
    if i > 0 {
      assert chords[i - 1] in chords;
    }
  }

  /** The try block of add_chord: create_chord's chord, or the error its
      refusal turns into. */
  method CreateForAdding(input: ChordInput) returns (r: Outcome<FlaskChord.Chord>)
    ensures r.Raise? <==> ProgressionLists.AddError(input, FlaskChord.BadFormat).Some?
    ensures r.Raise? ==> r.error == ProgressionLists.AddError(input, FlaskChord.BadFormat).value
    ensures r.Ok? ==> fresh(r.value) && r.value.Valid() && AllCreated(r.value.notes)
                      && r.value.notes == SortBy(ChordDataFor(input, FlaskChord.BadFormat).value.notes, ValueOf)
  {
    r := FlaskChord.CreateChord(input);
    if r.Raise? && r.error.ValueError? {
      r := Raise(UnboundLocalError);
    }
  }

  /** The list add_chord leaves: the created chord placed at the index, or
      the list unchanged and the error. */
  method AddTo(chords: seq<FlaskChord.Chord>, input: ChordInput, index: int)
    returns (error: Option<Exception>, r: seq<FlaskChord.Chord>)
    ensures error == ProgressionLists.AddError(input, FlaskChord.BadFormat)
    ensures error.Some? ==> r == chords
    ensures error.None? ==>
              var k := ProgressionLists.PlacedAt(|chords|, index);
              |r| == |chords| + 1 && fresh(r[k]) && AllCreated(r[k].notes)
              && r == ProgressionLists.Placed(chords, index, r[k])
              && r[k].notes == SortBy(ChordDataFor(input, FlaskChord.BadFormat).value.notes, ValueOf)
    ensures AllValid(chords) ==> AllValid(r)
  {
    var created := CreateForAdding(input);
    if created.Raise? {
      return Some(created.error), chords;
    }
    var c := created.value;
    if AllValid(chords) {
      PlacedValid(chords, index, c);
    }
    r := ProgressionLists.Placed(chords, index, c);
    error := None;
  }

  /** Placing a valid chord among valid chords keeps them all valid. */
  lemma PlacedValid(chords: seq<FlaskChord.Chord>, index: int, c: FlaskChord.Chord)
    requires AllValid(chords) && c.Valid()
    ensures AllValid(ProgressionLists.Placed(chords, index, c))
  {
    var r := ProgressionLists.Placed(chords, index, c);
    forall x | x in r
      ensures x.Valid()
    {
      assert x in multiset(r);
    }
  }

  /** Removing a chord keeps the others valid. */
  lemma RemovedValid(chords: seq<FlaskChord.Chord>, index: Option<int>)
    requires AllValid(chords) && ProgressionLists.RemoveAsWritten(chords, index).Ok?
    ensures AllValid(ProgressionLists.RemoveAsWritten(chords, index).value)
  {
    var k := index.value;
    var r := ProgressionLists.RemoveAsWritten(chords, index).value;
    assert r == chords[..k] + chords[k + 1..];
    forall x | x in r
      ensures x.Valid()
    {
      if x in chords[..k] {
      } else {
        assert x in chords[k + 1..];
      }
    }
  }

  class Progression {
    var chords: seq<FlaskChord.Chord>
    var key: string

    /** Every chord is as construction leaves it. */
    ghost predicate Valid()
      reads this, chords
    {
      AllValid(chords)
    }

    /** ChordProgression(chords, key): the chords given, and the key when one
        is given ("" stands for none). */
    constructor(initial: seq<FlaskChord.Chord>, initialKey: string)
      ensures chords == initial && key == initialKey
    {
      chords := initial;
      key := initialKey;
    }

    /** add_chord: the created chord placed at the index (appended for 0), or
        the error create_chord's refusal turns into; the chords are unchanged then. */
    method AddChord(input: ChordInput, index: int) returns (error: Option<Exception>)
      requires Valid()
      modifies this
      ensures Valid() && key == old(key)
      ensures error == ProgressionLists.AddError(input, FlaskChord.BadFormat)
      ensures error.Some? ==> chords == old(chords)
      ensures error.None? ==>
                var k := ProgressionLists.PlacedAt(|old(chords)|, index);
                |chords| == |old(chords)| + 1 && fresh(chords[k]) && AllCreated(chords[k].notes)
                && chords == ProgressionLists.Placed(old(chords), index, chords[k])
                && chords[k].notes == SortBy(ChordDataFor(input, FlaskChord.BadFormat).value.notes, ValueOf)
    {
      error, chords := AddTo(chords, input, index);
    }

    /** get_progression_chord_accidentals. */
    method GetProgressionChordAccidentals() returns (r: Outcome<seq<seq<string>>>)
      ensures r == Accidentals(NotesOf(chords), key)
    {
      if key == [] {
        return Ok([]);
      }
      r := AccidentalsFor(chords, key);
    }

    /** get_progression_chord_numerals. */
    method GetProgressionChordNumerals(useApplied: bool, useSatb: bool) returns (r: Outcome<seq<string>>)
      requires Valid()
      ensures r == Numerals(NotesOf(chords), key, useApplied, useSatb)
    {
      if key == [] {
        return Ok([]);
      }
      r := NumeralsFor(chords, key, useApplied, useSatb);
    }

    /** get_progression_chord_names: each chord's name, in order. */
    method GetProgressionChordNames(slashNotation: bool) returns (r: seq<string>)
      requires Valid()
      ensures r == ChordNames(NotesOf(chords), slashNotation)
    {
      ghost var names := ChordNames(NotesOf(chords), slashNotation);
      r := [];
      for i := 0 to |chords|
        invariant r == names[..i]
      {
        var name := NameOfChordAt(chords, i, slashNotation);
        TakeOneMore(names, i);
        r := r + [name];
      }
      assert names[..|chords|] == names;
    }

    /** remove_chord: the first or the last chord taken out, IndexError for
        any other index or none. */
    method RemoveChord(index: Option<int>) returns (error: Option<Exception>)
      requires Valid()
      modifies this
      ensures Valid() && key == old(key)
      ensures ProgressionLists.RemoveAsWritten(old(chords), index).Raise? ==> error == Some(IndexError) && chords == old(chords)
      ensures ProgressionLists.RemoveAsWritten(old(chords), index).Ok? ==> error.None? && chords == ProgressionLists.RemoveAsWritten(old(chords), index).value
    {
      var removed := ProgressionLists.RemoveAsWritten(chords, index);
      if removed.Ok? {
        RemovedValid(chords, index);
      }
      if removed.Raise? {
        return Some(removed.error);
      }
      chords := removed.value;
      error := None;
    }
  }

  /** The accidentals of the first i chord objects. */
  ghost function AccidentalsUpTo(chords: seq<FlaskChord.Chord>, key: string, i: nat): Outcome<seq<seq<string>>>
    reads chords
    requires i <= |chords|
  {
    Collect(AccidentalResults(NotesOf(chords), key)[..i])
  }

  /** The loop of get_progression_chord_accidentals. */
  method AccidentalsFor(chords: seq<FlaskChord.Chord>, key: string) returns (r: Outcome<seq<seq<string>>>)
    requires key != []
    ensures r == Accidentals(NotesOf(chords), key)
  {
    var accidentals: seq<seq<string>> := [];
    for i := 0 to |chords|
      invariant AccidentalsUpTo(chords, key, i) == Ok(accidentals)
    {
      var stop;
      stop, accidentals := PassAccidentals(chords, key, i, accidentals);
      if stop.Some? {
        return Raise(stop.value);
      }
    }
    CollectDone(AccidentalResults(NotesOf(chords), key), accidentals);
    r := Ok(accidentals);
  }

  /** One iteration of the accidentals loop. */
  method PassAccidentals(chords: seq<FlaskChord.Chord>, key: string, i: nat, accidentals: seq<seq<string>>)
    returns (stop: Option<Exception>, next: seq<seq<string>>)
    requires key != [] && i < |chords| && AccidentalsUpTo(chords, key, i) == Ok(accidentals)
    ensures stop.Some? ==> Accidentals(NotesOf(chords), key) == Raise(stop.value)
    ensures stop.None? ==> AccidentalsUpTo(chords, key, i + 1) == Ok(next)
  {
    var a := chords[i].GetAccidentalsForKey(key);
    CollectLoopStep(AccidentalResults(NotesOf(chords), key), i, accidentals);
    if a.Raise? {
      return Some(a.error), accidentals;
    }
    stop, next := None, accidentals + [a.value];
  }

  /** The numerals of the first i chord objects. */
  ghost function NumeralsUpTo(chords: seq<FlaskChord.Chord>, key: string, useApplied: bool, useSatb: bool, i: nat)
    : Outcome<seq<string>>
    reads chords
    requires key != [] && i <= |chords|
  {
    Collect(NumeralResults(NotesOf(chords), key, useApplied, useSatb)[..i])
  }

  /** The loop of get_progression_chord_numerals over a list of valid chords. */
  method NumeralsFor(chords: seq<FlaskChord.Chord>, key: string, useApplied: bool, useSatb: bool)
    returns (r: Outcome<seq<string>>)
    requires key != [] && AllValid(chords)
    ensures r == Numerals(NotesOf(chords), key, useApplied, useSatb)
  {
    var numerals: seq<string> := [];
    for i := 0 to |chords|
      invariant NumeralsUpTo(chords, key, useApplied, useSatb, i) == Ok(numerals)
    {
      var stop;
      stop, numerals := PassNumeral(chords, key, useApplied, useSatb, i, numerals);
      if stop.Some? {
        return Raise(stop.value);
      }
    }
    CollectDone(NumeralResults(NotesOf(chords), key, useApplied, useSatb), numerals);
    r := Ok(numerals);
  }

  /** One iteration of the numerals loop: the numerals extended by chord i's,
      or the call ended by its exception. */
  method PassNumeral(chords: seq<FlaskChord.Chord>, key: string, useApplied: bool, useSatb: bool, i: nat,
                     numerals: seq<string>)
    returns (stop: Option<Exception>, next: seq<string>)
    requires key != [] && i < |chords| && AllValid(chords)
    requires NumeralsUpTo(chords, key, useApplied, useSatb, i) == Ok(numerals)
    ensures stop.Some? ==> Numerals(NotesOf(chords), key, useApplied, useSatb) == Raise(stop.value)
    ensures stop.None? ==> NumeralsUpTo(chords, key, useApplied, useSatb, i + 1) == Ok(next)
  {
    var n := NumeralForChord(chords, i, key, useApplied, useSatb);
    CollectLoopStep(NumeralResults(NotesOf(chords), key, useApplied, useSatb), i, numerals);
    if n.Raise? {
      return Some(n.error), numerals;
    }
    stop, next := None, numerals + [n.value];
  }

  /** The name of chord i of a progression. */
  method NameOfChordAt(chords: seq<FlaskChord.Chord>, i: nat, slashNotation: bool) returns (r: string)
    requires i < |chords| && AllValid(chords)
    ensures r == FlaskChord.NameOf(chords[i].notes, slashNotation)
  {
    ValidAt(chords, i);
    r := chords[i].GetName(slashNotation);
  }

  /** The body of the numerals loop for chord i. */
  method NumeralForChord(chords: seq<FlaskChord.Chord>, i: nat, key: string, useApplied: bool, useSatb: bool)
    returns (r: Outcome<string>)
    requires i < |chords| && key != []
    requires AllValid(chords)
    ensures r == NumeralAt(NotesOf(chords), i, key, useApplied, useSatb)
  {
    var result := AppliedReadingFor(chords, i, key, useApplied);
    if result.Raise? {
      return Raise(result.error);
    }
    r := RenameFor(chords[i], result.value, key, useSatb);
  }

  /** The numeral of chord i before the SATB renaming. */
  method AppliedReadingFor(chords: seq<FlaskChord.Chord>, i: nat, key: string, useApplied: bool)
    returns (r: Outcome<string>)
    requires i < |chords| && key != []
    requires AllValid(chords)
    ensures r == AppliedReading(IntendedTest, NotesOf(chords), i, key, useApplied)
  {
    ValidAt(chords, i);
    var own := OwnNumeralFor(chords[i], key);
    if own.Raise? {
      return Raise(own.error);
    }
    var numeral := own.value;
    var relation := FlaskTheory.ChordRelation(key, numeral).value;
    r := Ok(numeral);
    if TriesApplied(useApplied, relation, numeral) {
      r := TryApplied(chords, i, key, numeral);
    }
  }

  /** The chord's numeral and the leading-tone re-reading of a diminished seventh. */
  method OwnNumeralFor(chord: FlaskChord.Chord, key: string) returns (r: Outcome<string>)
    requires chord.Valid()
    ensures r == OwnNumeral(chord.notes, key)
  {
    r := chord.GetNumeralForKey(key, true);
    if r.Ok? && chord.quality == Diminished7 {
      r := Ok(FlaskTheory.LtNumeralForDim7(r.value));
    }
  }

  /** The SATB renaming of the numerals loop. */
  method RenameFor(chord: FlaskChord.Chord, numeral: string, key: string, useSatb: bool) returns (r: Outcome<string>)
    ensures r == Renamed(numeral, key, chord.notes, useSatb)
  {
    if !useSatb {
      return Ok(numeral);
    }
    var names := chord.GetNoteNames();
    assert names == Names(chord.notes);
    var aug := FlaskTheory.GetAug6Numeral(numeral, key, names);
    if aug.Raise? {
      return Raise(aug.error);
    }
    var renamed := aug.value;
    if Contains(renamed, "bII") {
      renamed := Replace(renamed, "bII", "N");
    }
    r := Ok(renamed);
  }

  /** The try block of the numerals loop for chord i. */
  method TryApplied(chords: seq<FlaskChord.Chord>, i: nat, key: string, numeral: string) returns (r: Outcome<string>)
    requires i < |chords|
    requires AllValid(chords)
    ensures r == AppliedStep(NotesOf(chords), i, key, numeral)
  {
    var next := Index(chords, i + 1);
    if next.Raise? {
      return Ok(numeral);
    }
    var applied := chords[i].GetAppliedNumeral(next.value, true);
    if applied.Raise? {
      return if applied.error == IndexError then Ok(numeral) else Raise(applied.error);
    }
    if applied.value == "" {
      return Ok(numeral);
    }
    var nextNumeral := next.value.GetNumeralForKey(key, false);
    if nextNumeral.Raise? {
      return if nextNumeral.error == IndexError then Ok(numeral) else Raise(nextNumeral.error);
    }
    r := Ok(applied.value + "/" + nextNumeral.value);
  }
}
