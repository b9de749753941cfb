// The chord progression of the command-line version
// (Cli/music/chord_progression.py): a list of chords and an optional key.
// Chords are created from text and placed in the list or removed from it; the
// progression reports each chord's name, its accidentals in the key, and its
// numeral in the key, where a chord that can act as a secondary dominant of
// the chord after it is written "applied/next" when asked. Unlike the web
// version nothing is caught: an error of any chord ends the call.
module CliProgression {
  import opened Py
  import opened NoteText
  import opened IntervalCodes
  import opened ChordNotes
  import opened Scales
  import CliTheory
  import FlaskTheory
  import CliChord
  import ProgressionLists

  /** The notes of each chord of the list, in order. */
  ghost function NotesOf(chords: seq<CliChord.Chord>): (r: seq<seq<Note>>)
    reads chords
    ensures |r| == |chords| && forall i :: 0 <= i < |chords| ==> r[i] == chords[i].notes
  {
    seq(|chords|, i requires 0 <= i < |chords| reads chords => chords[i].notes)
  }

  // ---------------------------------------------------------------------
  // Numerals (get_progression_chord_numerals)

  /** The numerals that are tried as secondary dominants whatever their
      relation to the key: a major tonic or mediant, with any seventh figure. */
  const TonicAndMediant: seq<string> := ["I", "III", "III7", "III6/5", "III4/3", "III4/2"]

  /** The test of the loop: applied numerals on, a chromatic chord or one of
      TonicAndMediant, and a chord after this one. */
  predicate TriesApplied(useApplied: bool, relation: Relation, numeral: string, i: nat, count: nat)
  {
    useApplied && (relation == Chromatic || numeral in TonicAndMediant) && i + 1 < count
  }

  /** A chord's own numeral in the key, with its inversion; a fully-diminished
      seventh is re-read from the leading tone. */
  function OwnNumeral(ns: seq<Note>, key: string): (r: Outcome<string>)
    ensures r.Raise? <==> CliChord.NumeralOf(ns, key, true).Raise?
    ensures r.Ok? && CliChord.Identify(ns).quality != Diminished7 ==> r == CliChord.NumeralOf(ns, key, true)
  {
    var own :- CliChord.NumeralOf(ns, key, true);
    Ok(if CliChord.Identify(ns).quality == Diminished7 then FlaskTheory.LtNumeralForDim7(own) else own)
  }

  /** Chord i read as a secondary dominant of chord i + 1 and written
      "applied/next", next being chord i + 1's root-position numeral; an empty
      applied numeral leaves the numeral as it was. */
  function AppliedStep(chords: seq<seq<Note>>, i: nat, key: string, numeral: string): (r: Outcome<string>)
    requires i + 1 < |chords|
    ensures CliChord.SecondaryOf(chords[i + 1], chords[i], true).Raise? ==>
              r == Raise(CliChord.SecondaryOf(chords[i + 1], chords[i], true).error)
    ensures r.Ok? && r.value != numeral ==>
              CliChord.SecondaryOf(chords[i + 1], chords[i], true).Ok?
              && CliChord.NumeralOf(chords[i + 1], key, false).Ok?
              && r.value == CliChord.SecondaryOf(chords[i + 1], chords[i], true).value + "/"
                            + CliChord.NumeralOf(chords[i + 1], key, false).value
  {
    match CliChord.SecondaryOf(chords[i + 1], chords[i], true)
      case Raise(e) => Raise(e)
      case Ok(applied) =>
        if applied == "" then Ok(numeral)
        else
          match CliChord.NumeralOf(chords[i + 1], key, false)
            case Raise(e) => Raise(e)
            case Ok(next) => Ok(applied + "/" + next)
  }

  /** The numeral the loop of get_progression_chord_numerals appends for chord i. */
  function NumeralAt(chords: seq<seq<Note>>, i: nat, key: string, useApplied: bool): (r: Outcome<string>)
    requires i < |chords| && key != []
    ensures OwnNumeral(chords[i], key).Raise? ==> r == Raise(OwnNumeral(chords[i], key).error)
  {
    var numeral :- OwnNumeral(chords[i], key);
    var relation := CliTheory.ChordRelation(key, numeral).value;
    if TriesApplied(useApplied, relation, numeral, i, |chords|) then AppliedStep(chords, i, key, numeral)
    else Ok(numeral)
  }

  function NumeralResults(chords: seq<seq<Note>>, key: string, useApplied: bool): (r: seq<Outcome<string>>)
    requires key != []
    ensures |r| == |chords| && forall i :: 0 <= i < |chords| ==> r[i] == NumeralAt(chords, i, key, useApplied)
  {
    seq(|chords|, i requires 0 <= i < |chords| => NumeralAt(chords, i, key, useApplied))
  }

  /** get_progression_chord_numerals: no numerals without a key; otherwise one
      numeral per chord, in order, and the first chord whose numeral raises
      ends the call with that error. */
  function Numerals(chords: seq<seq<Note>>, key: string, useApplied: bool): (r: Outcome<seq<string>>)
    ensures key == [] ==> r == Ok([])
    ensures key != [] && r.Ok? ==>
              |r.value| == |chords| && forall i :: 0 <= i < |chords| ==> NumeralAt(chords, i, key, useApplied) == Ok(r.value[i])
    ensures key != [] ==>
              (r.Ok? <==> forall i :: 0 <= i < |chords| ==> NumeralAt(chords, i, key, useApplied).Ok?)
  {
    if key == [] then Ok([]) else Collect(NumeralResults(chords, key, useApplied))
  }

  /** With applied numerals switched off, a chord's numeral does not depend on
      the chords after it. */
  lemma AppliedOffIgnoresNext(chords: seq<seq<Note>>, i: nat, key: string)
    requires i < |chords| && key != []
    ensures NumeralAt(chords, i, key, false) == NumeralAt(chords[..i + 1], i, key, false)
  {
    assert chords[..i + 1][i] == chords[i];
  }

  /** Applied numerals switched off: every chord keeps its own numeral. */
  lemma AppliedOffKeepsOwnNumeral(chords: seq<seq<Note>>, i: nat, key: string)
    requires i < |chords| && key != []
    ensures NumeralAt(chords, i, key, false) == OwnNumeral(chords[i], key)
  {
  }

  /** The last chord has no chord to resolve to, so it keeps its own numeral. */
  lemma LastKeepsOwnNumeral(chords: seq<seq<Note>>, key: string, useApplied: bool)
    requires |chords| > 0 && key != []
    ensures NumeralAt(chords, |chords| - 1, key, useApplied) == OwnNumeral(chords[|chords| - 1], key)
  {
  }

  /** A diatonic chord outside TonicAndMediant keeps its own numeral. */
  lemma DiatonicKeepsOwnNumeral(chords: seq<seq<Note>>, i: nat, key: string, useApplied: bool)
    requires i < |chords| && key != [] && OwnNumeral(chords[i], key).Ok?
    requires CliTheory.ChordRelation(key, OwnNumeral(chords[i], key).value) == Ok(Diatonic)
    requires OwnNumeral(chords[i], key).value !in TonicAndMediant
    ensures NumeralAt(chords, i, key, useApplied) == OwnNumeral(chords[i], key)
  {
  }

  /** A numeral other than the chord's own is "applied/next": the chord read
      as a secondary dominant of the next chord, over the next chord's
      root-position numeral, for a next chord that takes one. */
  lemma AppliedShape(chords: seq<seq<Note>>, i: nat, key: string, useApplied: bool)
    requires i < |chords| && key != []
    requires NumeralAt(chords, i, key, useApplied).Ok? && OwnNumeral(chords[i], key).Ok?
    requires NumeralAt(chords, i, key, useApplied) != OwnNumeral(chords[i], key)
    ensures useApplied && i + 1 < |chords|
    ensures CliTheory.TakesApplied(CliChord.Identify(chords[i + 1]).quality)
    ensures var applied := CliChord.SecondaryOf(chords[i + 1], chords[i], true);
            var next := CliChord.NumeralOf(chords[i + 1], key, false);
            applied.Ok? && next.Ok? && applied.value != ""
            && NumeralAt(chords, i, key, useApplied) == Ok(applied.value + "/" + next.value)
  {
  }

  // ---------------------------------------------------------------------
  // Accidentals and names

  function AccidentalResults(chords: seq<seq<Note>>, key: string): (r: seq<Outcome<seq<string>>>)
    ensures |r| == |chords|
    ensures forall i :: 0 <= i < |chords| ==> r[i] == Collect(CliChord.AccidentalResults(Names(chords[i]), key))
  {
    seq(|chords|, i requires 0 <= i < |chords| => Collect(CliChord.AccidentalResults(Names(chords[i]), key)))
  }

  /** get_progression_chord_accidentals: nothing without a key; otherwise each
      chord's list of accidentals, one per note, in order. */
  function Accidentals(chords: seq<seq<Note>>, key: string): (r: Outcome<seq<seq<string>>>)
    ensures key == [] ==> r == Ok([])
    ensures key != [] && r.Ok? ==>
              |r.value| == |chords| && forall i :: 0 <= i < |chords| ==> |r.value[i]| == |chords[i]|
    ensures key != [] ==>
              (r.Ok? <==> forall i :: 0 <= i < |chords| ==> Collect(CliChord.AccidentalResults(Names(chords[i]), key)).Ok?)
  {
    if key == [] then Ok([])
    else
      var r := Collect(AccidentalResults(chords, key));
      if r.Ok? then
        assert forall i :: 0 <= i < |chords| ==> |r.value[i]| == |chords[i]| by {
          forall i | 0 <= i < |chords|
            ensures |r.value[i]| == |chords[i]|
          {
            assert Collect(CliChord.AccidentalResults(Names(chords[i]), key)) == Ok(r.value[i]);
            CollectLength(CliChord.AccidentalResults(Names(chords[i]), key));
          }
        }
        r
      else r
  }

  function NameResults(chords: seq<seq<Note>>, slashNotation: bool): (r: seq<Outcome<string>>)
    ensures |r| == |chords| && forall i :: 0 <= i < |chords| ==> r[i] == CliChord.NameOf(chords[i], slashNotation)
  {
    seq(|chords|, i requires 0 <= i < |chords| => CliChord.NameOf(chords[i], slashNotation))
  }

  /** get_progression_chord_names: each chord's name, in order; a chord
      without notes has no root and ends the call with an IndexError. */
  function ChordNames(chords: seq<seq<Note>>, slashNotation: bool): (r: Outcome<seq<string>>)
    ensures r.Ok? <==> forall i :: 0 <= i < |chords| ==> chords[i] != []
    ensures r.Raise? ==> r.error == IndexError
    ensures r.Ok? ==> |r.value| == |chords|
                      && forall i :: 0 <= i < |chords| ==> CliChord.NameOf(chords[i], slashNotation) == Ok(r.value[i])
  {
    var results := NameResults(chords, slashNotation);
    var r := Collect(results);
    if r.Raise? then
      CollectRaises(results);
      r
    else r
  }

  lemma CollectLength<T>(results: seq<Outcome<T>>)
    ensures Collect(results).Ok? ==> |Collect(results).value| == |results|
  {
  }

  lemma CollectRaises<T>(results: seq<Outcome<T>>)
    requires Collect(results).Raise?
    ensures exists i :: 0 <= i < |results| && results[i] == Raise(Collect(results).error)
  {
  }

  // ---------------------------------------------------------------------
  // The progression

  ghost predicate AllValid(chords: seq<CliChord.Chord>)
    reads chords
  {
    forall c :: c in chords ==> c.Valid()
  }

  /** Every chord object of a valid progression, and the one before it, is valid. */
  lemma ValidAt(chords: seq<CliChord.Chord>, i: nat)
    requires i < |chords| && AllValid(chords)
    ensures chords[i].Valid() && (i > 0 ==> chords[i - 1].Valid())
  {
    assert chords[i] in chords;
    if i > 0 {
      assert chords[i - 1] in chords;
    }
  }

  /** The try block of add_chord: create_chord's chord, or the error its
      refusal turns into. */
  method CreateForAdding(input: ChordInput) returns (r: Outcome<CliChord.Chord>)
    ensures r.Raise? <==> ProgressionLists.AddError(input, CliChord.BadFormat).Some?
    ensures r.Raise? ==> r.error == ProgressionLists.AddError(input, CliChord.BadFormat).value
    ensures r.Ok? ==> fresh(r.value) && r.value.Valid() && AllCreated(r.value.notes)
                      && r.value.notes == SortBy(ChordDataFor(input, CliChord.BadFormat).value.notes, ValueOf)
  {
    r := CliChord.CreateChord(input);
    if r.Raise? && r.error.ValueError? {
      r := Raise(UnboundLocalError);
    }
  }

  /** The list add_chord leaves: the created chord placed at the index, or
      the list unchanged and the error. */
  method AddTo(chords: seq<CliChord.Chord>, input: ChordInput, index: int)
    returns (error: Option<Exception>, r: seq<CliChord.Chord>)
    ensures error == ProgressionLists.AddError(input, CliChord.BadFormat)
    ensures error.Some? ==> r == chords
    ensures error.None? ==>
              var k := ProgressionLists.PlacedAt(|chords|, index);
              |r| == |chords| + 1 && fresh(r[k]) && AllCreated(r[k].notes)
              && r == ProgressionLists.Placed(chords, index, r[k])
              && r[k].notes == SortBy(ChordDataFor(input, CliChord.BadFormat).value.notes, ValueOf)
    ensures AllValid(chords) ==> AllValid(r)
  {
    var created := CreateForAdding(input);
    if created.Raise? {
      return Some(created.error), chords;
    }
    var c := created.value;
    if AllValid(chords) {
      PlacedValid(chords, index, c);
    }
    r := ProgressionLists.Placed(chords, index, c);
    error := None;
  }

  /** Placing a valid chord among valid chords keeps them all valid. */
  lemma PlacedValid(chords: seq<CliChord.Chord>, index: int, c: CliChord.Chord)
    requires AllValid(chords) && c.Valid()
    ensures AllValid(ProgressionLists.Placed(chords, index, c))
  {
    var r := ProgressionLists.Placed(chords, index, c);
    forall x | x in r
      ensures x.Valid()
    {
      assert x in multiset(r);
    }
  }

  /** Removing a chord keeps the others valid. */
  lemma RemovedValid(chords: seq<CliChord.Chord>, index: Option<int>)
    requires AllValid(chords) && ProgressionLists.RemoveAsWritten(chords, index).Ok?
    ensures AllValid(ProgressionLists.RemoveAsWritten(chords, index).value)
  {
    var k := index.value;
    var r := ProgressionLists.RemoveAsWritten(chords, index).value;
    assert r == chords[..k] + chords[k + 1..];
    forall x | x in r
      ensures x.Valid()
    {
      if x in chords[..k] {
      } else {
        assert x in chords[k + 1..];
      }
    }
  }

  class Progression {
    var chords: seq<CliChord.Chord>
    var key: string

    /** Every chord is as construction leaves it. */
    ghost predicate Valid()
      reads this, chords
    {
      AllValid(chords)
    }

    /** ChordProgression(chords, key): the chords given, and the key when one
        is given ("" stands for none). */
    constructor(initial: seq<CliChord.Chord>, initialKey: string)
      ensures chords == initial && key == initialKey
    {
      chords := initial;
      key := initialKey;
    }

    /** add_chord: the created chord placed at the index (appended for 0), or
        the error create_chord's refusal turns into; the chords are unchanged then. */
    method AddChord(input: ChordInput, index: int) returns (error: Option<Exception>)
      requires Valid()
      modifies this
      ensures Valid() && key == old(key)
      ensures error == ProgressionLists.AddError(input, CliChord.BadFormat)
      ensures error.Some? ==> chords == old(chords)
      ensures error.None? ==>
                var k := ProgressionLists.PlacedAt(|old(chords)|, index);
                |chords| == |old(chords)| + 1 && fresh(chords[k]) && AllCreated(chords[k].notes)
                && chords == ProgressionLists.Placed(old(chords), index, chords[k])
                && chords[k].notes == SortBy(ChordDataFor(input, CliChord.BadFormat).value.notes, ValueOf)
    {
      error, chords := AddTo(chords, input, index);
    }

    /** get_progression_chord_accidentals. */
    method GetProgressionChordAccidentals() returns (r: Outcome<seq<seq<string>>>)
      ensures r == Accidentals(NotesOf(chords), key)
    {
      if key == [] {
        return Ok([]);
      }
      r := AccidentalsFor(chords, key);
    }

    /** get_progression_chord_numerals. */
    method GetProgressionChordNumerals(useApplied: bool) returns (r: Outcome<seq<string>>)
      requires Valid()
      ensures r == Numerals(NotesOf(chords), key, useApplied)
    {
      if key == [] {
        return Ok([]);
      }
      r := NumeralsFor(chords, key, useApplied);
    }

    /** get_progression_chord_names: each chord's name, in order. */
    method GetProgressionChordNames(slashNotation: bool) returns (r: Outcome<seq<string>>)
      requires Valid()
      ensures r == ChordNames(NotesOf(chords), slashNotation)
    {
      r := NamesFor(chords, slashNotation);
    }

    /** remove_chord: the first or the last chord taken out, IndexError for
        any other index or none. */
    method RemoveChord(index: Option<int>) returns (error: Option<Exception>)
      requires Valid()
      modifies this
      ensures Valid() && key == old(key)
      ensures ProgressionLists.RemoveAsWritten(old(chords), index).Raise? ==> error == Some(IndexError) && chords == old(chords)
      ensures ProgressionLists.RemoveAsWritten(old(chords), index).Ok? ==> error.None? && chords == ProgressionLists.RemoveAsWritten(old(chords), index).value
    {
      var removed := ProgressionLists.RemoveAsWritten(chords, index);
      if removed.Ok? {
        RemovedValid(chords, index);
      }
      if removed.Raise? {
        return Some(removed.error);
      }
      chords := removed.value;
      error := None;
    }
  }

  /** The accidentals of the first i chord objects. */
  ghost function AccidentalsUpTo(chords: seq<CliChord.Chord>, key: string, i: nat): Outcome<seq<seq<string>>>
    reads chords
    requires i <= |chords|
  {
    Collect(AccidentalResults(NotesOf(chords), key)[..i])
  }

  /** The loop of get_progression_chord_accidentals. */
  method AccidentalsFor(chords: seq<CliChord.Chord>, key: string) returns (r: Outcome<seq<seq<string>>>)
    requires key != []
    ensures r == Accidentals(NotesOf(chords), key)
  {
    var accidentals: seq<seq<string>> := [];
    for i := 0 to |chords|
      invariant AccidentalsUpTo(chords, key, i) == Ok(accidentals)
    {
      var stop;
      stop, accidentals := PassAccidentals(chords, key, i, accidentals);
      if stop.Some? {
        return Raise(stop.value);
      }
    }
    CollectDone(AccidentalResults(NotesOf(chords), key), accidentals);
    r := Ok(accidentals);
  }

  /** One iteration of the accidentals loop. */
  method PassAccidentals(chords: seq<CliChord.Chord>, key: string, i: nat, accidentals: seq<seq<string>>)
    returns (stop: Option<Exception>, next: seq<seq<string>>)
    requires key != [] && i < |chords| && AccidentalsUpTo(chords, key, i) == Ok(accidentals)
    ensures stop.Some? ==> Accidentals(NotesOf(chords), key) == Raise(stop.value)
    ensures stop.None? ==> AccidentalsUpTo(chords, key, i + 1) == Ok(next)
  {
    var a := chords[i].GetAccidentalsForKey(key);
    CollectLoopStep(AccidentalResults(NotesOf(chords), key), i, accidentals);
    if a.Raise? {
      return Some(a.error), accidentals;
    }
    stop, next := None, accidentals + [a.value];
  }

  /** The names of the first i chord objects. */
  ghost function NamesUpTo(chords: seq<CliChord.Chord>, slashNotation: bool, i: nat): Outcome<seq<string>>
    reads chords
    requires i <= |chords|
  {
    Collect(NameResults(NotesOf(chords), slashNotation)[..i])
  }

  /** The loop of get_progression_chord_names. */
  method NamesFor(chords: seq<CliChord.Chord>, slashNotation: bool) returns (r: Outcome<seq<string>>)
    requires AllValid(chords)
    ensures r == ChordNames(NotesOf(chords), slashNotation)
  {
    var names: seq<string> := [];
    for i := 0 to |chords|
      invariant NamesUpTo(chords, slashNotation, i) == Ok(names)
    {
      var stop;
      stop, names := PassName(chords, slashNotation, i, names);
      if stop.Some? {
        return Raise(stop.value);
      }
    }
    CollectDone(NameResults(NotesOf(chords), slashNotation), names);
    r := Ok(names);
  }

  /** One iteration of the names loop. */
  method PassName(chords: seq<CliChord.Chord>, slashNotation: bool, i: nat, names: seq<string>)
    returns (stop: Option<Exception>, next: seq<string>)
    requires i < |chords| && AllValid(chords) && NamesUpTo(chords, slashNotation, i) == Ok(names)
    ensures stop.Some? ==> ChordNames(NotesOf(chords), slashNotation) == Raise(stop.value)
    ensures stop.None? ==> NamesUpTo(chords, slashNotation, i + 1) == Ok(next)
  {
    ValidAt(chords, i);
    var name := chords[i].GetName(slashNotation);
    CollectLoopStep(NameResults(NotesOf(chords), slashNotation), i, names);
    if name.Raise? {
      return Some(name.error), names;
    }
    stop, next := None, names + [name.value];
  }

  /** The numerals of the first i chord objects. */
  ghost function NumeralsUpTo(chords: seq<CliChord.Chord>, key: string, useApplied: bool, i: nat): Outcome<seq<string>>
    reads chords
    requires key != [] && i <= |chords|
  {
    Collect(NumeralResults(NotesOf(chords), key, useApplied)[..i])
  }

  /** The loop of get_progression_chord_numerals over a list of valid chords. */
  method NumeralsFor(chords: seq<CliChord.Chord>, key: string, useApplied: bool) returns (r: Outcome<seq<string>>)
    requires key != [] && AllValid(chords)
    ensures r == Numerals(NotesOf(chords), key, useApplied)
  {
    var numerals: seq<string> := [];
    for i := 0 to |chords|
      invariant NumeralsUpTo(chords, key, useApplied, i) == Ok(numerals)
    {
      var stop;
      stop, numerals := PassNumeral(chords, key, useApplied, i, numerals);
      if stop.Some? {
        return Raise(stop.value);
      }
    }
    CollectDone(NumeralResults(NotesOf(chords), key, useApplied), numerals);
    r := Ok(numerals);
  }

  /** One iteration of the numerals loop: the numerals extended by chord i's,
      or the call ended by its exception. */
  method PassNumeral(chords: seq<CliChord.Chord>, key: string, useApplied: bool, i: nat, numerals: seq<string>)
    returns (stop: Option<Exception>, next: seq<string>)
    requires key != [] && i < |chords| && AllValid(chords)
    requires NumeralsUpTo(chords, key, useApplied, i) == Ok(numerals)
    ensures stop.Some? ==> Numerals(NotesOf(chords), key, useApplied) == Raise(stop.value)
    ensures stop.None? ==> NumeralsUpTo(chords, key, useApplied, i + 1) == Ok(next)
  {
    var n := NumeralForChord(chords, i, key, useApplied);
    CollectLoopStep(NumeralResults(NotesOf(chords), key, useApplied), i, numerals);
    if n.Raise? {
      return Some(n.error), numerals;
    }
    stop, next := None, numerals + [n.value];
  }

  /** The body of the numerals loop for chord i. */
  method NumeralForChord(chords: seq<CliChord.Chord>, i: nat, key: string, useApplied: bool)
    returns (r: Outcome<string>)
    requires i < |chords| && key != []
    requires AllValid(chords)
    ensures r == NumeralAt(NotesOf(chords), i, key, useApplied)
  {
    var own := OwnNumeralFor(chords[i], key);
    if own.Raise? {
      return Raise(own.error);
    }
    var numeral := own.value;
    var relation := CliTheory.ChordRelation(key, numeral).value;
    if TriesApplied(useApplied, relation, numeral, i, |chords|) {
      r := ApplyNext(chords, i, key, numeral);
    } else {
      r := Ok(numeral);
    }
  }

  /** The chord's numeral and the leading-tone re-reading of a diminished seventh. */
  method OwnNumeralFor(chord: CliChord.Chord, key: string) returns (r: Outcome<string>)
    requires chord.Valid()
    ensures r == OwnNumeral(chord.notes, key)
  {
    r := chord.GetNumeralForKey(key, true);
    if r.Ok? && chord.quality == Diminished7 {
      r := Ok(FlaskTheory.LtNumeralForDim7(r.value));
    }
  }

  /** The secondary-dominant rewriting of the numerals loop for chord i. */
  method ApplyNext(chords: seq<CliChord.Chord>, i: nat, key: string, numeral: string) returns (r: Outcome<string>)
    requires i + 1 < |chords|
    requires AllValid(chords)
    ensures r == AppliedStep(NotesOf(chords), i, key, numeral)
  {
    var next := chords[i + 1];
    var applied := chords[i].GetSecondaryDominantNumeral(next, true);
    if applied.Raise? {
      return Raise(applied.error);
    }
    if applied.value == "" {
      return Ok(numeral);
    }
    var nextNumeral := next.GetNumeralForKey(key, false);
    if nextNumeral.Raise? {
      return Raise(nextNumeral.error);
    }
    r := Ok(applied.value + "/" + nextNumeral.value);
  }
}
