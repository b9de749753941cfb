// The web API's entry points (Flask/api/musicFuncs.py): the name of one
// chord, and the analysis of a list of chords as a progression in a key.
module FlaskFuncs {
  import opened Py
  import opened NoteText
  import opened ChordNotes
  import FlaskTheory
  import FlaskChord
  import FlaskProgression

  // ---------------------------------------------------------------------
  // analyze_chord

  /** analyze_chord: the plain name of the chord created from the input, or
      what create_chord raises. */
  function ChordName(input: ChordInput): (r: Outcome<string>)
    ensures r.Ok? <==> ChordFor(input, FlaskChord.BadFormat).Ok?
    ensures r.Raise? ==> r.error == ChordFor(input, FlaskChord.BadFormat).error
  {
    var ns :- ChordFor(input, FlaskChord.BadFormat);
    Ok(FlaskChord.NameOf(ns, false))
  }

  /** analyze_chord, calling the factory and the chord. */
  method AnalyzeChord(input: ChordInput) returns (r: Outcome<string>)
    ensures r == ChordName(input)
  {
    var created := FlaskChord.CreateChord(input);
    if created.Raise? {
      return Raise(created.error);
    }
    var name := created.value.GetName(false);
    r := Ok(name);
  }

  // ---------------------------------------------------------------------
  // analyze_progression

  /** One chord of the answer: its slash name, numeral, printed notes and
      the accidentals of its notes in the key. */
  datatype Entry = Entry(name: string, numeral: string, notes: string, accidentals: seq<string>)

  /** The answer: the NO_VALID_CHORDS error, or the entries of the chords. */
  type Analysis = Answer<Entry>

  /** The key the progression is given: a key containing "m" loses its last
      character and is lower-cased ("Am" becomes "a"); any other key is
      passed on unchanged. */
  function ProgressionKey(key: string): (r: string)
    ensures 'm' in key ==> |r| == |key| - 1 && forall i :: 0 <= i < |r| ==> r[i] == LowerChar(key[i])
    ensures 'm' !in key ==> r == key
  {
    if 'm' in key then Lower(key[..|key| - 1]) else key
  }

  /** The key as analyze_progression reads it: the "m" test on a missing key
      (None) raises TypeError. */
  function KeyOf(key: Option<string>): (r: Outcome<string>)
    ensures r.Raise? <==> key.None?
    ensures r.Raise? ==> r.error == TypeError
    ensures r.Ok? ==> r.value == ProgressionKey(key.value)
  {
    if key.None? then Raise(TypeError) else Ok(ProgressionKey(key.value))
  }

  /** A minor key written as its tonic followed by "m" becomes the tonic in
      lower case, the way the key tables name minor keys. */
  lemma MinorKeyLowered(tonic: string)
    requires 'm' !in tonic
    ensures ProgressionKey(tonic + "m") == Lower(tonic)
    ensures ProgressionKey(tonic) == tonic
  {
    assert 'm' in tonic + "m" by {
      assert (tonic + "m")[|tonic|] == 'm';
    }
    assert (tonic + "m")[..|tonic|] == tonic;
  }

  /** How many entries zip gives: the length of the shortest list. */
  function ZipLength(a: nat, b: nat, c: nat): (n: nat)
    ensures n <= a && n <= b && n <= c && (n == a || n == b || n == c)
  {
    if a <= b && a <= c then a else if b <= c then b else c
  }

  /** The entries loop over zip(names, numerals, chords), reading the
      accidentals at the same position: IndexError if they run out first. */
  function Entries(names: seq<string>, numerals: seq<string>, kept: seq<seq<Note>>, accidentals: seq<seq<string>>)
    : (r: Outcome<seq<Entry>>)
    ensures r.Ok? <==> |accidentals| >= ZipLength(|names|, |numerals|, |kept|)
    ensures r.Ok? ==> |r.value| == ZipLength(|names|, |numerals|, |kept|)
                      && forall i :: 0 <= i < |r.value| ==>
                           r.value[i] == Entry(names[i], numerals[i], ReprOf(kept[i]), accidentals[i])
  {
    var n := ZipLength(|names|, |numerals|, |kept|);
    if |accidentals| < n then Raise(IndexError)
    else Ok(seq(n, i requires 0 <= i < n => Entry(names[i], numerals[i], ReprOf(kept[i]), accidentals[i])))
  }

  /** The answer put together from the progression's names, numerals and
      accidentals: the first error, or the entries. */
  function Assembled(names: seq<string>, numerals: Outcome<seq<string>>, accidentals: Outcome<seq<seq<string>>>,
                     kept: seq<seq<Note>>): Outcome<Analysis>
  {
    var n :- numerals;
    var a :- accidentals;
    var entries :- Entries(names, n, kept, a);
    Ok(Chords(entries))
  }

  /** The entries of the chords kept, in a key: names in slash notation,
      numerals with applied and SATB readings, accidentals. */
  function Analysed(kept: seq<seq<Note>>, key: string): Outcome<Analysis>
  {
    Assembled(FlaskProgression.ChordNames(kept, true), FlaskProgression.Numerals(kept, key, true, true),
              FlaskProgression.Accidentals(kept, key), kept)
  }

  /** What create_chord gives for each input, when there is a list. */
  function ResultsOf(inputs: Option<seq<ChordInput>>): (r: Option<seq<Outcome<seq<Note>>>>)
    ensures r.Some? <==> inputs.Some?
    ensures r.Some? ==> r.value == ChordResults(inputs.value, FlaskChord.BadFormat)
  {
    if inputs.None? then None else Some(ChordResults(inputs.value, FlaskChord.BadFormat))
  }

  /** The analysis analyze_progression makes of the chords it keeps. */
  function Analyser(key: Option<string>): seq<seq<Note>> -> Outcome<Analysis>
  {
    kept => if key.None? then Raise(TypeError) else Analysed(kept, ProgressionKey(key.value))
  }

  /** analyze_progression. */
  function AnalysisOf(inputs: Option<seq<ChordInput>>, key: Option<string>): Outcome<Analysis>
  {
    AnswerWith(ResultsOf(inputs), Analyser(key))
  }

  /** The analysis is an error only when a numeral or an accidental raises. */
  lemma AnalysedRaises(kept: seq<seq<Note>>, k: string)
    ensures Analysed(kept, k).Ok? <==>
              FlaskProgression.Numerals(kept, k, true, true).Ok? && FlaskProgression.Accidentals(kept, k).Ok?
    ensures Analysed(kept, k).Ok? ==> Analysed(kept, k).value.Chords?
  {
  }

  /** With a key, one entry per chord kept, in input order: its slash name,
      its numeral, its printed notes and one accidental per note. */
  lemma AnalysedPerChord(kept: seq<seq<Note>>, k: string)
    requires k != [] && Analysed(kept, k).Ok? && Analysed(kept, k).value.Chords?
    ensures var entries := Analysed(kept, k).value.entries;
              && |entries| == |kept|
              && forall i :: 0 <= i < |kept| ==>
                   && entries[i].name == FlaskChord.NameOf(kept[i], true)
                   && FlaskProgression.NumeralAt(kept, i, k, true, true) == Ok(entries[i].numeral)
                   && entries[i].notes == ReprOf(kept[i])
                   && FlaskTheory.Accidentals(Names(kept[i]), k) == Ok(entries[i].accidentals)
                   && |entries[i].accidentals| == |kept[i]|
  {
    var accidentals := FlaskProgression.Accidentals(kept, k).value;
    assert forall i :: 0 <= i < |kept| ==> FlaskProgression.AccidentalResults(kept, k)[i] == Ok(accidentals[i]);
  }

  /** Without a key (an empty one, or "m", which becomes empty) the chords
      kept get no entries. */
  lemma NoKeyNoEntries(kept: seq<seq<Note>>)
    ensures Analysed(kept, []) == Ok(Chords([]))
  {
  }

  /** Every chord kept, printed as in its entry and analysed again, gives the
      same chord back: create_chord rebuilds its notes and analyze_chord its name. */
  lemma PrintedNotesRecreate(inputs: seq<ChordInput>, ns: seq<Note>)
    requires ns in Oks(ChordResults(inputs, FlaskChord.BadFormat))
    ensures ChordFor(Text(ReprOf(ns)), FlaskChord.BadFormat) == Ok(ns)
    ensures ChordName(Text(ReprOf(ns))) == Ok(FlaskChord.NameOf(ns, false))
  {
    KeptCreated(inputs, FlaskChord.BadFormat);
    FlaskChord.ReprRecreates(ns);
  }

  /** The answer is NO_VALID_CHORDS exactly when there is no input or
      create_chord refuses every input with a ValueError. */
  lemma NoValidChordsExactly(inputs: Option<seq<ChordInput>>, key: Option<string>)
    ensures AnalysisOf(inputs, key) == Ok(NoValidChords) <==>
              inputs.None? || forall k :: 0 <= k < |inputs.value| ==> IsValueError(ChordFor(inputs.value[k], FlaskChord.BadFormat))
  {
    AnswerMeaning(ResultsOf(inputs), Analyser(key));
    if inputs.Some? {
      var results := ChordResults(inputs.value, FlaskChord.BadFormat);
      SkipValueErrorsMeaning(results);
      if key.Some? {
        AnalysedRaises(Oks(results), ProgressionKey(key.value));
      }
    }
  }

  /** Otherwise the answer is the first error create_chord raises other
      than a ValueError, or the analysis of exactly the chords created, in
      input order; that analysis raises TypeError when the key is missing. */
  lemma AnalysisOfKept(inputs: seq<ChordInput>, key: Option<string>)
    ensures var results := ChordResults(inputs, FlaskChord.BadFormat);
            SkipValueErrors(results).Raise? ==> AnalysisOf(Some(inputs), key) == Raise(SkipValueErrors(results).error)
    ensures var results := ChordResults(inputs, FlaskChord.BadFormat);
            SkipValueErrors(results).Ok? && (exists k :: 0 <= k < |inputs| && results[k].Ok?) ==>
              AnalysisOf(Some(inputs), key)
              == if key.None? then Raise(TypeError) else Analysed(Oks(results), ProgressionKey(key.value))
  {
    AnswerMeaning(ResultsOf(Some(inputs)), Analyser(key));
  }

  /** An input that create_chord refuses with a ValueError changes nothing,
      wherever it stands in the list. */
  lemma SkippedInputIgnored(a: seq<ChordInput>, x: ChordInput, b: seq<ChordInput>, key: Option<string>)
    requires IsValueError(ChordFor(x, FlaskChord.BadFormat))
    ensures AnalysisOf(Some(a + [x] + b), key) == AnalysisOf(Some(a + b), key)
  {
    SkippedResultIgnored(a, x, b, Analyser(key));
  }

  /** The same for any analysis of the chords kept. */
  lemma SkippedResultIgnored(a: seq<ChordInput>, x: ChordInput, b: seq<ChordInput>, analyse: seq<seq<Note>> -> Outcome<Analysis>)
    requires IsValueError(ChordFor(x, FlaskChord.BadFormat))
    ensures AnswerWith(ResultsOf(Some(a + [x] + b)), analyse) == AnswerWith(ResultsOf(Some(a + b)), analyse)
  {
    var ra, rx, rb := ChordResults(a, FlaskChord.BadFormat), ChordFor(x, FlaskChord.BadFormat), ChordResults(b, FlaskChord.BadFormat);
    ChordResultsAppend(a + [x], b, FlaskChord.BadFormat);
    ChordResultsAppend(a, [x], FlaskChord.BadFormat);
    ChordResultsAppend(a, b, FlaskChord.BadFormat);
    assert ChordResults([x], FlaskChord.BadFormat) == [rx];
    assert ResultsOf(Some(a + [x] + b)) == Some(ra + [rx] + rb);
    assert ResultsOf(Some(a + b)) == Some(ra + rb);
    AnswerSkips(ra, rx, rb, analyse);
  }

  // ---------------------------------------------------------------------
  // The loops

  /** create_chord on one input, read as ChordFor. */
  method CreateOne(input: ChordInput) returns (r: Outcome<FlaskChord.Chord>)
    ensures r.Raise? <==> ChordFor(input, FlaskChord.BadFormat).Raise?
    ensures r.Raise? ==> r.error == ChordFor(input, FlaskChord.BadFormat).error
    ensures r.Ok? ==> fresh(r.value) && r.value.Valid() && r.value.notes == ChordFor(input, FlaskChord.BadFormat).value
  {
    r := FlaskChord.CreateChord(input);
  }

  /** The loop creating the chords: every chord created, in input order,
      the inputs refused with a ValueError skipped, and any other error
      raised. */
  method CreateAll(inputs: seq<ChordInput>) returns (r: Outcome<seq<FlaskChord.Chord>>)
    ensures r.Raise? <==> SkipValueErrors(ChordResults(inputs, FlaskChord.BadFormat)).Raise?
    ensures r.Raise? ==> r.error == SkipValueErrors(ChordResults(inputs, FlaskChord.BadFormat)).error
    ensures r.Ok? ==> FlaskProgression.NotesOf(r.value) == SkipValueErrors(ChordResults(inputs, FlaskChord.BadFormat)).value
                      && FlaskProgression.AllValid(r.value)
  {
    ghost var results := ChordResults(inputs, FlaskChord.BadFormat);
    var chords: seq<FlaskChord.Chord> := [];
    assert results[0..] == results;
    JoinNothing(SkipValueErrors(results));
    for i := 0 to |inputs|
      invariant FlaskProgression.AllValid(chords)
      invariant SkipValueErrors(results) == JoinOutcomes(Ok(FlaskProgression.NotesOf(chords)), SkipValueErrors(results[i..]))
    {
      var created := CreateOne(inputs[i]);
      SkipValueErrorsStep(results, i, FlaskProgression.NotesOf(chords));
      if created.Raise? {
        if created.error.ValueError? {
          continue;
        }
        return Raise(created.error);
      }
      AppendChord(chords, created.value);
      chords := chords + [created.value];
    }
    assert results[|inputs|..] == [];
    r := Ok(chords);
  }

  /** Appending a valid chord keeps the list valid and its notes extended. */
  lemma AppendChord(chords: seq<FlaskChord.Chord>, c: FlaskChord.Chord)
    requires FlaskProgression.AllValid(chords) && c.Valid()
    ensures FlaskProgression.AllValid(chords + [c])
    ensures FlaskProgression.NotesOf(chords + [c]) == FlaskProgression.NotesOf(chords) + [c.notes]
  {
  }

  /** The loop building the entries. */
  method BuildEntries(names: seq<string>, numerals: seq<string>, chords: seq<FlaskChord.Chord>, accidentals: seq<seq<string>>)
    returns (r: Outcome<seq<Entry>>)
    ensures r == Entries(names, numerals, FlaskProgression.NotesOf(chords), accidentals)
  {
    ghost var kept := FlaskProgression.NotesOf(chords);
    var n := ZipLength(|names|, |numerals|, |chords|);
    var entries := [];
    for i := 0 to n
      invariant |entries| == i && i <= |accidentals|
      invariant forall j :: 0 <= j < i ==> j < |accidentals| && entries[j] == Entry(names[j], numerals[j], ReprOf(kept[j]), accidentals[j])
    {
      if i == |accidentals| {
        return Raise(IndexError);
      }
      var printed := chords[i].Repr();
      entries := entries + [Entry(names[i], numerals[i], printed, accidentals[i])];
    }
    assert |accidentals| >= n;
    assert Entries(names, numerals, kept, accidentals).value == entries;
    r := Ok(entries);
  }

  /** The progression part of analyze_progression: a progression of the
      chords in the key, its names, numerals and accidentals, and the entries. */
  method AnalyseChords(chords: seq<FlaskChord.Chord>, key: string) returns (r: Outcome<Analysis>)
    requires FlaskProgression.AllValid(chords)
    ensures r == Analysed(FlaskProgression.NotesOf(chords), key)
  {
    var progression := new FlaskProgression.Progression(chords, key);
    var names := progression.GetProgressionChordNames(true);
    var numerals := progression.GetProgressionChordNumerals(true, true);
    if numerals.Raise? {
      return Raise(numerals.error);
    }
    var accidentals := progression.GetProgressionChordAccidentals();
    if accidentals.Raise? {
      return Raise(accidentals.error);
    }
    var entries := BuildEntries(names, numerals.value, chords, accidentals.value);
    match entries
    case Raise(e) =>
      return Raise(e);
    case Ok(v) =>
      r := Ok(Chords(v));
  }

  /** The key handling of analyze_progression. */
  method KeyFor(key: Option<string>) returns (k: Outcome<string>)
    ensures k == KeyOf(key)
  {
    if key.None? {
      return Raise(TypeError);
    }
    var text := key.value;
    if 'm' in text {
      text := text[..|text| - 1];
      text := Lower(text);
    }
    k := Ok(text);
  }

  /** analyze_progression, calling the factory and the progression. */
  method AnalyzeProgression(inputs: Option<seq<ChordInput>>, key: Option<string>) returns (r: Outcome<Analysis>)
    ensures r == AnalysisOf(inputs, key)
  {
    if inputs.None? || |inputs.value| == 0 {
      return Ok(NoValidChords);
    }
    var created := CreateAll(inputs.value);
    if created.Raise? {
      return Raise(created.error);
    }
    if |created.value| == 0 {
      return Ok(NoValidChords);
    }
    var k := KeyFor(key);
    if k.Raise? {
      return Raise(k.error);
    }
    r := AnalyseChords(created.value, k.value);
  }
}
