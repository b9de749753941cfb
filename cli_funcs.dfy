// The command-line application's entry points (Cli/musicFuncs.py): the name
// of one chord, and the analysis of a list of chords as a progression in a key.
module CliFuncs {
  import opened Py
  import opened NoteText
  import opened ChordNotes
  import CliChord
  import CliProgression

  // ---------------------------------------------------------------------
  // analyze_chord

  /** analyze_chord: the plain name of the chord created from the input, or
      what create_chord or get_name raises. */
  function ChordName(input: ChordInput): (r: Outcome<string>)
    ensures ChordFor(input, CliChord.BadFormat).Raise? ==> r == Raise(ChordFor(input, CliChord.BadFormat).error)
    ensures ChordFor(input, CliChord.BadFormat).Ok? ==> r.Ok?
  {
    var ns :- ChordFor(input, CliChord.BadFormat);
    CliChord.NameOf(ns, false)
  }

  /** analyze_chord, calling the factory and the chord. */
  method AnalyzeChord(input: ChordInput) returns (r: Outcome<string>)
    ensures r == ChordName(input)
  {
    var created := CliChord.CreateChord(input);
    if created.Raise? {
      return Raise(created.error);
    }
    r := created.value.GetName(false);
  }

  // ---------------------------------------------------------------------
  // analyze_progression

  /** One chord of the answer: its name, numeral and printed notes. */
  datatype Entry = Entry(name: string, numeral: string, notes: string)

  /** The answer: the NO_VALID_CHORDS error, or the entries of the chords. */
  type Analysis = Answer<Entry>

  /** How many entries zip gives: the length of the shortest list. */
  function ZipLength(a: nat, b: nat, c: nat): (n: nat)
    ensures n <= a && n <= b && n <= c && (n == a || n == b || n == c)
  {
    if a <= b && a <= c then a else if b <= c then b else c
  }

  /** The entries loop over zip(names, numerals, chords). */
  function Entries(names: seq<string>, numerals: seq<string>, kept: seq<seq<Note>>): (r: seq<Entry>)
    ensures |r| == ZipLength(|names|, |numerals|, |kept|)
    ensures forall i :: 0 <= i < |r| ==> r[i] == Entry(names[i], numerals[i], ReprOf(kept[i]))
  {
    var n := ZipLength(|names|, |numerals|, |kept|);
    seq(n, i requires 0 <= i < n => Entry(names[i], numerals[i], ReprOf(kept[i])))
  }

  /** The answer put together from the progression's names and numerals:
      the first error, or the entries. */
  function Assembled(names: Outcome<seq<string>>, numerals: Outcome<seq<string>>, kept: seq<seq<Note>>): Outcome<Analysis>
  {
    var n :- names;
    var m :- numerals;
    Ok(Chords(Entries(n, m, kept)))
  }

  /** The entries of the chords kept, in the key as given: plain names and
      numerals without applied readings. */
  function Analysed(kept: seq<seq<Note>>, key: string): Outcome<Analysis>
  {
    Assembled(CliProgression.ChordNames(kept, false), CliProgression.Numerals(kept, key, false), kept)
  }

  /** What create_chord gives for each input, when there is a list. */
  function ResultsOf(inputs: Option<seq<ChordInput>>): (r: Option<seq<Outcome<seq<Note>>>>)
    ensures r.Some? <==> inputs.Some?
    ensures r.Some? ==> r.value == ChordResults(inputs.value, CliChord.BadFormat)
  {
    if inputs.None? then None else Some(ChordResults(inputs.value, CliChord.BadFormat))
  }

  /** The analysis analyze_progression makes of the chords it keeps; the key
      is passed on unchanged. */
  function Analyser(key: string): seq<seq<Note>> -> Outcome<Analysis>
  {
    kept => Analysed(kept, key)
  }

  /** analyze_progression. */
  function AnalysisOf(inputs: Option<seq<ChordInput>>, key: string): Outcome<Analysis>
  {
    AnswerWith(ResultsOf(inputs), Analyser(key))
  }

  /** Every chord kept has a name, so the analysis is an error only when a
      numeral raises. */
  lemma AnalysedRaises(kept: seq<seq<Note>>, k: string)
    requires forall i :: 0 <= i < |kept| ==> kept[i] != []
    ensures Analysed(kept, k).Ok? <==> CliProgression.Numerals(kept, k, false).Ok?
    ensures Analysed(kept, k).Ok? ==> Analysed(kept, k).value.Chords?
  {
  }

  /** With a key, one entry per chord kept, in input order: its name, its
      numeral and its printed notes. */
  lemma AnalysedPerChord(kept: seq<seq<Note>>, k: string)
    requires k != [] && Analysed(kept, k).Ok? && Analysed(kept, k).value.Chords?
    ensures var entries := Analysed(kept, k).value.entries;
            && |entries| == |kept|
            && forall i :: 0 <= i < |kept| ==>
                 && CliChord.NameOf(kept[i], false) == Ok(entries[i].name)
                 && CliProgression.NumeralAt(kept, i, k, false) == Ok(entries[i].numeral)
                 && entries[i].notes == ReprOf(kept[i])
  {
  }

  /** Without a key the chords kept get no entries. */
  lemma NoKeyNoEntries(kept: seq<seq<Note>>)
    requires forall i :: 0 <= i < |kept| ==> kept[i] != []
    ensures Analysed(kept, []) == Ok(Chords([]))
  {
  }

  /** Every chord kept, printed as in its entry and analysed again, gives the
      same chord back: create_chord rebuilds its notes and analyze_chord its name. */
  lemma PrintedNotesRecreate(inputs: seq<ChordInput>, ns: seq<Note>)
    requires ns in Oks(ChordResults(inputs, CliChord.BadFormat))
    ensures ChordFor(Text(ReprOf(ns)), CliChord.BadFormat) == Ok(ns)
    ensures ChordName(Text(ReprOf(ns))) == CliChord.NameOf(ns, false)
  {
    KeptCreated(inputs, CliChord.BadFormat);
    CliChord.ReprRecreates(ns);
  }

  /** The answer is NO_VALID_CHORDS exactly when there is no input or
      create_chord refuses every input with a ValueError. */
  lemma NoValidChordsExactly(inputs: Option<seq<ChordInput>>, key: string)
    ensures AnalysisOf(inputs, key) == Ok(NoValidChords) <==>
              inputs.None? || forall k :: 0 <= k < |inputs.value| ==> IsValueError(ChordFor(inputs.value[k], CliChord.BadFormat))
  {
    AnswerMeaning(ResultsOf(inputs), Analyser(key));
    if inputs.Some? {
      var results := ChordResults(inputs.value, CliChord.BadFormat);
      SkipValueErrorsMeaning(results);
      KeptCreated(inputs.value, CliChord.BadFormat);
      AnalysedRaises(Oks(results), key);
    }
  }

  /** Otherwise the answer is the first error create_chord raises other
      than a ValueError, or the analysis of exactly the chords created, in
      input order, in the key as given. */
  lemma AnalysisOfKept(inputs: seq<ChordInput>, key: string)
    ensures var results := ChordResults(inputs, CliChord.BadFormat);
            SkipValueErrors(results).Raise? ==> AnalysisOf(Some(inputs), key) == Raise(SkipValueErrors(results).error)
    ensures var results := ChordResults(inputs, CliChord.BadFormat);
            SkipValueErrors(results).Ok? && (exists k :: 0 <= k < |inputs| && results[k].Ok?) ==>
              AnalysisOf(Some(inputs), key) == Analysed(Oks(results), key)
  {
    AnswerMeaning(ResultsOf(Some(inputs)), Analyser(key));
  }

  /** An input that create_chord refuses with a ValueError changes nothing,
      wherever it stands in the list. */
  lemma SkippedInputIgnored(a: seq<ChordInput>, x: ChordInput, b: seq<ChordInput>, key: string)
    requires IsValueError(ChordFor(x, CliChord.BadFormat))
    ensures AnalysisOf(Some(a + [x] + b), key) == AnalysisOf(Some(a + b), key)
  {
    SkippedResultIgnored(a, x, b, Analyser(key));
  }

  /** The same for any analysis of the chords kept. */
  lemma SkippedResultIgnored(a: seq<ChordInput>, x: ChordInput, b: seq<ChordInput>, analyse: seq<seq<Note>> -> Outcome<Analysis>)
    requires IsValueError(ChordFor(x, CliChord.BadFormat))
    ensures AnswerWith(ResultsOf(Some(a + [x] + b)), analyse) == AnswerWith(ResultsOf(Some(a + b)), analyse)
  {
    var ra, rx, rb := ChordResults(a, CliChord.BadFormat), ChordFor(x, CliChord.BadFormat), ChordResults(b, CliChord.BadFormat);
    ChordResultsAppend(a + [x], b, CliChord.BadFormat);
    ChordResultsAppend(a, [x], CliChord.BadFormat);
    ChordResultsAppend(a, b, CliChord.BadFormat);
    assert ChordResults([x], CliChord.BadFormat) == [rx];
    assert ResultsOf(Some(a + [x] + b)) == Some(ra + [rx] + rb);
    assert ResultsOf(Some(a + b)) == Some(ra + rb);
    AnswerSkips(ra, rx, rb, analyse);
  }

  // ---------------------------------------------------------------------
  // The loops

  /** create_chord on one input, read as ChordFor. */
  method CreateOne(input: ChordInput) returns (r: Outcome<CliChord.Chord>)
    ensures r.Raise? <==> ChordFor(input, CliChord.BadFormat).Raise?
    ensures r.Raise? ==> r.error == ChordFor(input, CliChord.BadFormat).error
    ensures r.Ok? ==> fresh(r.value) && r.value.Valid() && r.value.notes == ChordFor(input, CliChord.BadFormat).value
  {
    r := CliChord.CreateChord(input);
  }

  /** The loop creating the chords: every chord created, in input order,
      the inputs refused with a ValueError skipped, and any other error
      raised. */
  method CreateAll(inputs: seq<ChordInput>) returns (r: Outcome<seq<CliChord.Chord>>)
    ensures r.Raise? <==> SkipValueErrors(ChordResults(inputs, CliChord.BadFormat)).Raise?
    ensures r.Raise? ==> r.error == SkipValueErrors(ChordResults(inputs, CliChord.BadFormat)).error
    ensures r.Ok? ==> CliProgression.NotesOf(r.value) == SkipValueErrors(ChordResults(inputs, CliChord.BadFormat)).value
                      && CliProgression.AllValid(r.value)
  {
    ghost var results := ChordResults(inputs, CliChord.BadFormat);
    var chords: seq<CliChord.Chord> := [];
    assert results[0..] == results;
    JoinNothing(SkipValueErrors(results));
    for i := 0 to |inputs|
      invariant CliProgression.AllValid(chords)
      invariant SkipValueErrors(results) == JoinOutcomes(Ok(CliProgression.NotesOf(chords)), SkipValueErrors(results[i..]))
    {
      var created := CreateOne(inputs[i]);
      SkipValueErrorsStep(results, i, CliProgression.NotesOf(chords));
      if created.Raise? {
        if created.error.ValueError? {
          continue;
        }
        return Raise(created.error);
      }
      AppendChord(chords, created.value);
      chords := chords + [created.value];
    }
    assert results[|inputs|..] == [];
    r := Ok(chords);
  }

  /** Appending a valid chord keeps the list valid and its notes extended. */
  lemma AppendChord(chords: seq<CliChord.Chord>, c: CliChord.Chord)
    requires CliProgression.AllValid(chords) && c.Valid()
    ensures CliProgression.AllValid(chords + [c])
    ensures CliProgression.NotesOf(chords + [c]) == CliProgression.NotesOf(chords) + [c.notes]
  {
  }

  /** The loop building the entries. */
  method BuildEntries(names: seq<string>, numerals: seq<string>, chords: seq<CliChord.Chord>) returns (r: seq<Entry>)
    ensures r == Entries(names, numerals, CliProgression.NotesOf(chords))
  {
    ghost var kept := CliProgression.NotesOf(chords);
    var n := ZipLength(|names|, |numerals|, |chords|);
    r := [];
    for i := 0 to n
      invariant |r| == i
      invariant forall j :: 0 <= j < i ==> r[j] == Entry(names[j], numerals[j], ReprOf(kept[j]))
    {
      var printed := chords[i].Repr();
      r := r + [Entry(names[i], numerals[i], printed)];
    }
  }

  /** The progression part of analyze_progression: a progression of the
      chords in the key, its names and numerals, and the entries. */
  method AnalyseChords(chords: seq<CliChord.Chord>, key: string) returns (r: Outcome<Analysis>)
    requires CliProgression.AllValid(chords)
    ensures r == Analysed(CliProgression.NotesOf(chords), key)
  {
    var progression := new CliProgression.Progression(chords, key);
    var names := progression.GetProgressionChordNames(false);
    if names.Raise? {
      return Raise(names.error);
    }
    var numerals := progression.GetProgressionChordNumerals(false);
    if numerals.Raise? {
      return Raise(numerals.error);
    }
    var entries := BuildEntries(names.value, numerals.value, chords);
    r := Ok(Chords(entries));
  }

  /** analyze_progression, calling the factory and the progression. */
  method AnalyzeProgression(inputs: Option<seq<ChordInput>>, key: string) returns (r: Outcome<Analysis>)
    ensures r == AnalysisOf(inputs, key)
  {
    if inputs.None? || |inputs.value| == 0 {
      return Ok(NoValidChords);
    }
    var created := CreateAll(inputs.value);
    if created.Raise? {
      return Raise(created.error);
    }
    if |created.value| == 0 {
      return Ok(NoValidChords);
    }
    r := AnalyseChords(created.value, key);
  }
}
