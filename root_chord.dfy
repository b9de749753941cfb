// The chord of the original command-line program (chord.py). Its constructor
// parses a comma-separated string into note records, appending each record as
// it is created, so a bad token leaves the records made before it; too few
// tokens or a bad token end construction there. Otherwise the records are
// sorted by value, every adjacent pair contributes its step to the interval
// list and string (no name is dropped), and the oldest interval table gives
// the chord's bass index and name.
module RootChord {
  import opened Py
  import opened NoteText
  import opened IntervalCodes
  import opened RootNote
  import ChordNotes
  import LegacyIntervals
  import MusicNote
  import Spelling

  /** The sort key of the records. */
  function RecordValue(n: NoteRecord): int
  {
    n.value
  }

  function RecordValues(ns: seq<NoteRecord>): (r: seq<int>)
    ensures |r| == |ns| && forall i :: 0 <= i < |ns| ==> r[i] == ns[i].value
  {
    seq(|ns|, i requires 0 <= i < |ns| => ns[i].value)
  }

  /** A record as create_note builds it. */
  predicate Created(n: NoteRecord)
  {
    NoteNumbers(n.name).Some? && IsOctave(n.octave) && n.value == NoteNumbers(n.name).value + 12 * n.octave
  }

  /** The record create_note makes of each token, surrounding whitespace stripped. */
  function TokenRecords(tokens: seq<string>): (r: seq<Outcome<NoteRecord>>)
    ensures |r| == |tokens| && forall i :: 0 <= i < |tokens| ==> r[i] == CreateNote(Strip(tokens[i]))
  {
    seq(|tokens|, i requires 0 <= i < |tokens| => CreateNote(Strip(tokens[i])))
  }

  /** The message of the InvalidChordError for too few tokens. */
  function NotEnoughNotes(chordString: string): string
  {
    "Not enough notes for the chord: " + chordString
  }

  /** parse_chord_string: InvalidChordError for fewer than three comma-separated
      tokens, with nothing appended; otherwise the records of the tokens, in
      order, up to the first token create_note refuses, whose InvalidNoteError
      stops the loop. */
  function ParseResult(chordString: string): Partial<NoteRecord>
  {
    var tokens := Split(chordString, ',');
    if |tokens| < 3 then Partial([], Some(InvalidChordError(NotEnoughNotes(chordString))))
    else AppendUntilError(TokenRecords(tokens))
  }

  /** What parse_chord_string leaves: with no error, three or more records,
      each the record of its token; otherwise the records of the tokens
      before the first bad one, and InvalidNoteError carrying that token
      (InvalidChordError, with nothing appended, for too few tokens). */
  lemma ParsedRecords(chordString: string)
    ensures var r, tokens := ParseResult(chordString), Split(chordString, ',');
            (|tokens| < 3 ==> r == Partial([], Some(InvalidChordError(NotEnoughNotes(chordString)))))
            && (r.error.None? ==> |r.values| == |tokens| >= 3)
            && (forall i :: 0 <= i < |r.values| ==> CreateNote(Strip(tokens[i])) == Ok(r.values[i]) && Created(r.values[i]))
            && (r.error.Some? && |tokens| >= 3 ==>
                  |r.values| < |tokens| && r.error.value == InvalidNoteError(Strip(tokens[|r.values|])))
  {
    var tokens := Split(chordString, ',');
    if |tokens| >= 3 {
      var results := TokenRecords(tokens);
      var r := AppendUntilError(results);
      forall i | 0 <= i < |r.values|
        ensures CreateNote(Strip(tokens[i])) == Ok(r.values[i]) && Created(r.values[i])
      {
        assert results[i] == Ok(r.values[i]);
      }
      if r.error.Some? {
        assert results[|r.values|] == Raise(r.error.value);
      }
    }
  }

  /** The loop of parse_chord_string, creating the records one token at a time. */
  method CreateNotes(tokens: seq<string>) returns (r: Partial<NoteRecord>)
    ensures r == AppendUntilError(TokenRecords(tokens))
  {
    ghost var results := TokenRecords(tokens);
    var ns: seq<NoteRecord> := [];
    for i := 0 to |tokens|
      invariant AppendUntilError(results[..i]) == Partial(ns, None)
    {
      var created := CreateNote(Strip(tokens[i]));
      assert created == results[i];
      AppendLoopStep(results, i, ns);
      if created.Raise? {
        return Partial(ns, Some(created.error));
      }
      ns := ns + [created.value];
    }
    assert results[..|tokens|] == results;
    r := Partial(ns, None);
  }

  /** The body of parse_chord_string: the split, the count check and the loop. */
  method ParseTokens(chordString: string) returns (r: Partial<NoteRecord>)
    ensures r == ParseResult(chordString)
  {
    var tokens := Split(chordString, ',');
    if |tokens| < 3 {
      return Partial([], Some(InvalidChordError(NotEnoughNotes(chordString))));
    }
    r := CreateNotes(tokens);
  }

  /** The loop of calculate_chord_intervals: the step from each record to the
      next, and those steps written out one after another. */
  method NoteIntervals(ns: seq<NoteRecord>) returns (steps: seq<nat>, text: string)
    ensures steps == ChordNotes.Steps(RecordValues(ns))
    ensures text == IntervalString(steps)
  {
    ghost var all := ChordNotes.Steps(RecordValues(ns));
    steps, text := [], "";
    var i := 0;
    while i + 1 < |ns|
      invariant 0 <= i <= |all|
      invariant steps == all[..i]
      invariant text == IntervalString(steps)
    {
      var interval := (ns[i + 1].value - ns[i].value) % 12;
      assert interval == all[i];
      ChordNotes.IntervalStringStep(all, i);
      assert all[..i + 1] == all[..i] + [all[i]];
      steps := steps + [interval];
      text := text + Str(interval);
      i := i + 1;
    }
    assert all[..i] == all;
  }

  /** The record of a note as the web version's note model holds it: the same
      name and octave, its pitch class, and a value one lower. */
  function AsNote(n: NoteRecord): Note
  {
    Note(n.name, n.octave, n.value - 1, if Spelling.NoteIndices(n.name).Some? then Spelling.NoteIndices(n.name).value else 0)
  }

  function AsNotes(ns: seq<NoteRecord>): (r: seq<Note>)
    ensures |r| == |ns| && forall i :: 0 <= i < |ns| ==> r[i] == AsNote(ns[i])
  {
    seq(|ns|, i requires 0 <= i < |ns| => AsNote(ns[i]))
  }

  /** A string of two or more steps has two or more characters. */
  lemma TwoStepsTwoChars(steps: seq<nat>)
    requires |steps| >= 2
    ensures |IntervalString(steps)| >= 2
  {
    assert IntervalString(steps) == Str(steps[0]) + IntervalString(steps[1..]);
  }

  /** For three or more records the table's bass index names one of them, so
      identify_chord never indexes past the notes of a parsed chord. */
  lemma BassInRange(ns: seq<NoteRecord>)
    requires |ns| >= 3
    ensures var info := LegacyIntervals.ChordForIntervals(IntervalString(ChordNotes.Steps(RecordValues(ns))));
            info.Some? ==> 0 <= info.value.rootIndex < |ns|
  {
    var steps := ChordNotes.Steps(RecordValues(ns));
    ChordNotes.StepTokens(RecordValues(ns));
    TwoStepsTwoChars(steps);
  }

  lemma EmptyPrefix<T>(s: seq<T>)
    ensures [] + s == s
  {
  }

  /** A parse without error leaves three or more records, sorted or not. */
  lemma ParsedEnough(chordString: string)
    requires ParseResult(chordString).error.None?
    ensures |ChordNotes.SortBy(ParseResult(chordString).values, RecordValue)| >= 3
  {
    ParsedRecords(chordString);
    var v := ParseResult(chordString).values;
    assert |multiset(ChordNotes.SortBy(v, RecordValue))| == |multiset(v)|;
  }

  class Chord {
    var notes: seq<NoteRecord>
    var intervals: seq<nat>
    var intervalString: string
    var name: string
    var position: string
    var bassIndex: int

    /** The state after the intervals are calculated and the chord identified:
        notes ascending, one step per adjacent pair, and the table's name. */
    ghost predicate Identified()
      reads this
    {
      ChordNotes.SortedBy(notes, RecordValue)
      && intervals == ChordNotes.Steps(RecordValues(notes))
      && intervalString == IntervalString(intervals)
      && match LegacyIntervals.ChordForIntervals(intervalString)
           case None => name == "Unknown Chord" && bassIndex == 0
           case Some(info) =>
             bassIndex == info.rootIndex && 0 <= bassIndex < |notes|
             && name == notes[bassIndex].name + QualityText(info.quality)
    }

    /** Chord(chord_string): when the string does not parse, the records created
        before the failure and nothing else; otherwise the sorted records,
        their intervals and the chord's name. */
    constructor(chordString: string)
      ensures position == ""
      ensures ParseResult(chordString).error.Some? ==>
                notes == ParseResult(chordString).values && intervals == [] && intervalString == ""
                && name == "" && bassIndex == 0
      ensures ParseResult(chordString).error.None? ==>
                notes == ChordNotes.SortBy(ParseResult(chordString).values, RecordValue) && Identified()
    {
      notes := [];
      intervals := [];
      intervalString := "";
      name := "";
      position := "";
      bassIndex := 0;
      new;
      ghost var parsed := ParseResult(chordString);
      var error := ParseChordString(chordString);
      EmptyPrefix(parsed.values);
      if error.Some? {
        return;
      }
      ParsedEnough(chordString);
      CalculateChordIntervals();
      ghost var steps := ChordNotes.Steps(RecordValues(notes));
      EmptyPrefix(steps);
      EmptyPrefix(IntervalString(steps));
      BassInRange(notes);
      error := IdentifyChord();
      ghost var info := LegacyIntervals.ChordForIntervals(intervalString);
      if info.Some? {
        EmptyPrefix(notes[bassIndex].name + QualityText(info.value.quality));
      }
    }

    /** calculate_chord_intervals: sorts the records by value in place and
        appends, for each adjacent pair, the step between them (0-11) to the
        interval list and its digits to the interval string. */
    method CalculateChordIntervals()
      modifies this
      ensures notes == ChordNotes.SortBy(old(notes), RecordValue)
      ensures intervals == old(intervals) + ChordNotes.Steps(RecordValues(notes))
      ensures intervalString == old(intervalString) + IntervalString(ChordNotes.Steps(RecordValues(notes)))
      ensures name == old(name) && position == old(position) && bassIndex == old(bassIndex)
    {
      notes := ChordNotes.SortBy(notes, RecordValue);
      var steps, text := NoteIntervals(notes);
      intervals := intervals + steps;
      intervalString := intervalString + text;
    }

    /** get_chord_intervals. */
    method GetChordIntervals() returns (r: seq<nat>)
      ensures r == intervals
    {
      r := intervals;
    }

    /** identify_chord: 'Unknown Chord' for a string the table lacks; otherwise
        the table's bass index, and the bass note's name and the quality
        appended to the name; IndexError when the bass index is past the notes. */
    method IdentifyChord() returns (error: Option<Exception>)
      modifies this
      ensures notes == old(notes) && intervals == old(intervals) && intervalString == old(intervalString)
      ensures position == old(position)
      ensures LegacyIntervals.ChordForIntervals(intervalString).None? ==>
                error == None && name == "Unknown Chord" && bassIndex == old(bassIndex)
      ensures LegacyIntervals.ChordForIntervals(intervalString).Some? ==>
                var info := LegacyIntervals.ChordForIntervals(intervalString).value;
                bassIndex == info.rootIndex
                && (error.None? <==> 0 <= info.rootIndex < |notes|)
                && (error.Some? ==> error == Some(IndexError) && name == old(name))
                && (error.None? ==> name == old(name) + (notes[bassIndex].name + QualityText(info.quality)))
    {
      var chordObj := LegacyIntervals.ChordForIntervals(intervalString);
      if chordObj.None? {
        name := "Unknown Chord";
        return None;
      }
      bassIndex := chordObj.value.rootIndex;
      var bassNote := Index(notes, bassIndex);
      if bassNote.Raise? {
        return Some(bassNote.error);
      }
      name := name + (bassNote.value.name + QualityText(chordObj.value.quality));
      error := None;
    }

    /** parse_chord_string: appends the records of the string's tokens to the
        notes, up to the first bad token, and reports the error that stopped it. */
    method ParseChordString(chordString: string) returns (error: Option<Exception>)
      modifies this
      ensures notes == old(notes) + ParseResult(chordString).values
      ensures error == ParseResult(chordString).error
      ensures intervals == old(intervals) && intervalString == old(intervalString)
      ensures name == old(name) && position == old(position) && bassIndex == old(bassIndex)
    {
      var created := ParseTokens(chordString);
      notes := notes + created.values;
      error := created.error;
    }

    /** __repr__: the printed records separated by ", ". */
    method Repr() returns (r: string)
      ensures r == ChordNotes.ReprOf(AsNotes(notes))
    {
      r := ChordNotes.JoinPrinted(AsNotes(notes));
    }
  }

  /** A created record seen as a note is a note the web version creates. */
  lemma AsNoteWellFormed(n: NoteRecord)
    requires Created(n)
    ensures MusicNote.WellFormed(AsNote(n))
  {
    NoteNumbersShifted(n.name);
  }

  /** A printed record creates the record back. */
  lemma CreatePrintedRecord(n: NoteRecord)
    requires Created(n)
    ensures CreateNote(ChordNotes.Printed(AsNote(n))) == Ok(n)
  {
    ParseShown(n.name, n.octave, []);
    assert Show(n.name, n.octave) + [] == ChordNotes.Printed(AsNote(n));
  }

  /** A token holding a printed record, with or without the space before it,
      creates that record. */
  lemma TokenCreates(n: NoteRecord, p: string, token: string)
    requires Created(n) && (p == "" || p == " ") && token == p + ChordNotes.Printed(AsNote(n))
    ensures CreateNote(Strip(token)) == Ok(n)
  {
    AsNoteWellFormed(n);
    ChordNotes.StripPrinted(AsNote(n), p);
    CreatePrintedRecord(n);
  }

  /** Splitting the printed records at the commas gives one token per record,
      each creating its record. */
  lemma ReprTokens(ns: seq<NoteRecord>)
    requires ns != [] && forall i :: 0 <= i < |ns| ==> Created(ns[i])
    ensures var tokens := Split(ChordNotes.ReprOf(AsNotes(ns)), ',');
            |tokens| == |ns| && forall i :: 0 <= i < |ns| ==> TokenRecords(tokens)[i] == Ok(ns[i])
  {
    var printed := AsNotes(ns);
    forall i | 0 <= i < |ns|
      ensures MusicNote.WellFormed(printed[i])
    {
      AsNoteWellFormed(ns[i]);
    }
    ChordNotes.SplitRepr("", printed);
    EmptyPrefix(ChordNotes.ReprOf(printed));
    var tokens := Split(ChordNotes.ReprOf(printed), ',');
    forall i | 0 <= i < |ns|
      ensures TokenRecords(tokens)[i] == Ok(ns[i])
    {
      TokenCreates(ns[i], if i == 0 then "" else " ", tokens[i]);
    }
  }

  /** __repr__ is there to re-create the chord: parsing the printed records of
      three or more created records gives those records back, without error. */
  lemma ReprRecreates(ns: seq<NoteRecord>)
    requires |ns| >= 3 && forall i :: 0 <= i < |ns| ==> Created(ns[i])
    ensures ParseResult(ChordNotes.ReprOf(AsNotes(ns))) == Partial(ns, None)
  {
    ReprTokens(ns);
    AppendAllOk(TokenRecords(Split(ChordNotes.ReprOf(AsNotes(ns)), ',')), ns);
  }
}
