// The chord of the command-line version (Cli/music/chord.py). It is built
// like the web version's chord -- sorted in place, the first note of each
// name kept, the intervals between those notes looked up -- but an interval
// string the table lacks leaves the quality '' (the major triad's mark, not
// "unknown"), a has_seventh flag records the five seventh qualities, the root
// is read by plain indexing (IndexError without notes), and numerals come from
// the command-line theory functions, which take has_seventh and the choice of
// inversion. The notes are those of the web version's note model.
module CliChord {
  import opened Py
  import opened NoteText
  import opened IntervalCodes
  import opened ChordNotes
  import MusicNote
  import CliIntervals
  import CliTheory
  import Spelling

  /** The root index, quality, position and seventh flag __identify_chord
      records on a new chord. */
  datatype Identity = Identity(rootIndex: int, quality: Quality, position: int, hasSeventh: bool)

  /** The table record for the notes' interval string. A record the table
      lists names one of the distinct notes as the root. */
  function InfoOf(notes: seq<Note>): (r: ChordInfo)
    ensures r == CliIntervals.ChordForIntervals(IntervalStringOf(notes))
    ensures r.quality != UnknownQuality ==> r.rootIndex < |UniqueByName(notes)|
  {
    var u := UniqueByName(notes);
    var s := IntervalStringOf(notes);
    StepTokens(Values(u));
    CliIntervals.ChordForIntervals(s)
  }

  /** __identify_chord on the sorted notes of a new chord: an unknown interval
      string gives root 0, position 0 and quality '' without a seventh; otherwise
      the table's quality and position, the root is the first note named like
      the table's root, and the chord has a seventh exactly for 7, m7, maj7, ø, o7. */
  function Identify(notes: seq<Note>): (r: Identity)
    ensures r.quality != UnknownQuality
    ensures r.hasSeventh <==> IsSeventhQuality(r.quality)
    ensures CliIntervals.IntervalStrings(IntervalStringOf(notes)).None? ==> r == Identity(0, Major, 0, false)
    ensures CliIntervals.IntervalStrings(IntervalStringOf(notes)).Some? ==>
              var info := InfoOf(notes);
              var u := UniqueByName(notes);
              r.quality == info.quality && r.position == info.position
              && 0 <= r.rootIndex < |notes| && notes[r.rootIndex] == u[info.rootIndex]
              && r.rootIndex == FirstWithName(notes, u[info.rootIndex].name)
    ensures -1 <= r.position <= 3 && (!r.hasSeventh ==> 0 <= r.position <= 2)
  {
    var info := InfoOf(notes);
    if info.quality != UnknownQuality then
      RootRecovery(notes, info.rootIndex, 0);
      Identified(notes, Identity(0, Major, 0, false))
    else Identified(notes, Identity(0, Major, 0, false))
  }

  /** The fields __identify_chord leaves, from the sorted notes and the fields
      before the call: an unknown interval string resets root, position and
      quality; a known one sets them from the table, and the seventh flag is
      only ever raised. */
  function Identified(notes: seq<Note>, before: Identity): Identity
  {
    var info := InfoOf(notes);
    if info.quality == UnknownQuality then Identity(0, Major, 0, before.hasSeventh)
    else Identity(RootIndexOf(notes, info.rootIndex, before.rootIndex), info.quality, info.position,
                  before.hasSeventh || IsSeventhQuality(info.quality))
  }

  /** The body of __identify_chord after the interval string is built: the
      table lookup, the search for the root among duplicated names, and the
      seventh flag. */
  method IdentifyNotes(notes: seq<Note>, unique: seq<Note>, intervalString: string, before: Identity)
    returns (r: Identity)
    requires unique == UniqueByName(notes) && intervalString == IntervalStringOf(notes)
    ensures r == Identified(notes, before)
  {
    var info := CliIntervals.ChordForIntervals(intervalString);
    assert info == InfoOf(notes);
    if info.quality == UnknownQuality {
      r := Identity(0, Major, 0, before.hasSeventh);
    } else {
      var root := FindRoot(notes, unique, info.rootIndex, before.rootIndex);
      var seventh := before.hasSeventh;
      if IsSeventhQuality(info.quality) {
        seventh := true;
      }
      r := Identity(root, info.quality, info.position, seventh);
    }
  }

  /** The root's name by plain indexing: IndexError where the index does not
      index the notes. */
  function RootName(notes: seq<Note>, rootIndex: int): (r: Outcome<string>)
    ensures r.Ok? <==> ValidPos(|notes|, rootIndex)
    ensures r.Ok? ==> r.value == At(notes, rootIndex).name
    ensures r.Raise? ==> r.error == IndexError
  {
    var root :- Index(notes, rootIndex);
    Ok(root.name)
  }

  /** The interval a seventh of each quality lies at above the root
      (get_seventh_index): only maj7 looks for a major seventh here. */
  function SeventhInterval(q: Quality): (r: Option<int>)
    ensures r.Some? <==> IsSeventhQuality(q)
    ensures r == Some(11) <==> q == Major7
  {
    if q == Major7 then Some(11)
    else if q == Dominant7 || q == Minor7 || q == HalfDiminished7 then Some(10)
    else if q == Diminished7 then Some(9)
    else None
  }

  /** A note other than the root, lying at the quality's seventh above it. */
  predicate IsSeventh(root: Note, n: Note, q: Quality)
  {
    n.name != root.name && SeventhInterval(q) == Some(MusicNote.Interval(root, n, false))
  }

  /** Each note's accidental in the key, in order. */
  function AccidentalResults(names: seq<string>, key: string): (r: seq<Outcome<string>>)
    ensures |r| == |names| && forall i :: 0 <= i < |names| ==> r[i] == CliTheory.NoteAccidental(names[i], key)
  {
    seq(|names|, i requires 0 <= i < |names| => CliTheory.NoteAccidental(names[i], key))
  }

  /** The first note other than the root at the quality's seventh above it, or -1. */
  function FirstSeventh(notes: seq<Note>, root: Note, q: Quality): (r: int)
    ensures -1 <= r < |notes|
    ensures r >= 0 ==> IsSeventh(root, notes[r], q)
    ensures forall i :: 0 <= i < |notes| && (r < 0 || i < r) ==> !IsSeventh(root, notes[i], q)
  {
    if notes == [] then -1
    else if IsSeventh(root, notes[0], q) then 0
    else
      var r := FirstSeventh(notes[1..], root, q);
      if r < 0 then -1 else r + 1
  }

  /** get_seventh_index of a valid chord holding these notes. */
  function SeventhIndexOf(ns: seq<Note>): (r: Outcome<int>)
    ensures r.Raise? ==> r.error == IndexError
    ensures r.Ok? ==> -1 <= r.value < |ns|
  {
    var id := Identify(ns);
    SeventhAt(ns, id.rootIndex, id.quality, id.hasSeventh)
  }

  /** get_seventh_index for the given identification fields. */
  function SeventhAt(ns: seq<Note>, rootIndex: int, q: Quality, hasSeventh: bool): (r: Outcome<int>)
    ensures r.Raise? ==> r.error == IndexError
    ensures r.Ok? ==> -1 <= r.value < |ns|
  {
    if !hasSeventh then Ok(-1)
    else
      var root :- Index(ns, rootIndex);
      Ok(FirstSeventh(ns, root, q))
  }

  /** get_indices_from_interval of a valid chord holding these notes. */
  function IndicesOf(ns: seq<Note>, interval: int): (r: Outcome<seq<int>>)
    ensures r.Raise? ==> r.error == IndexError
    ensures r.Ok? ==> forall k :: 0 <= k < |r.value| ==> 0 <= r.value[k] < |ns|
  {
    IndicesAt(ns, Identify(ns).rootIndex, interval)
  }

  /** get_indices_from_interval for the given root index. */
  function IndicesAt(ns: seq<Note>, rootIndex: int, interval: int): (r: Outcome<seq<int>>)
    ensures r.Raise? ==> r.error == IndexError
    ensures r.Ok? ==> forall k :: 0 <= k < |r.value| ==> 0 <= r.value[k] < |ns|
  {
    var root :- Index(ns, rootIndex);
    Ok(MusicNote.IntervalIndices(ns, root, interval))
  }

  /** A first index with the seventh property is FirstSeventh's. */
  lemma FirstSeventhIs(notes: seq<Note>, root: Note, q: Quality, r: int)
    requires -1 <= r < |notes|
    requires r >= 0 ==> IsSeventh(root, notes[r], q)
    requires forall i :: 0 <= i < |notes| && (r < 0 || i < r) ==> !IsSeventh(root, notes[i], q)
    ensures FirstSeventh(notes, root, q) == r
  {
  }

  /** get_numeral_for_key of a valid chord holding these notes. */
  function NumeralOf(ns: seq<Note>, key: string, useInversion: bool): (r: Outcome<string>)
    ensures AllCreated(ns) && ns != [] ==> (r.Ok? <==> CliTheory.NotesForKey(key).Ok?)
    ensures r.Ok? ==> key != []
  {
    var id := Identify(ns);
    var root :- RootName(ns, id.rootIndex);
    NumeralExists(ns, id.rootIndex, id.quality, id.position, id.hasSeventh, key, useInversion);
    CliTheory.ChordNumeral(key, root, id.quality, id.position, id.hasSeventh, useInversion)
  }

  /** get_secondary_dominant_numeral of a valid chord holding `ns` against a
      valid base chord holding `base`: '' whenever the base chord takes no
      applied chord. */
  function SecondaryOf(base: seq<Note>, ns: seq<Note>, useInversion: bool): (r: Outcome<string>)
    ensures r.Ok? && !CliTheory.TakesApplied(Identify(base).quality) ==> r.value == ""
    ensures r.Ok? && r.value != "" && Identify(ns).quality != Diminished7 && !useInversion ==>
              r.value in CliTheory.AppliedBases
  {
    var b := Identify(base);
    var id := Identify(ns);
    var baseRoot :- RootName(base, b.rootIndex);
    var root :- RootName(ns, id.rootIndex);
    CliTheory.AppliedNumeral(baseRoot, b.quality, root, id.quality, id.position, id.hasSeventh, useInversion)
  }

  /** get_name of a valid chord holding these notes. */
  function NameOf(ns: seq<Note>, slashNotation: bool): (r: Outcome<string>)
    ensures r.Ok? <==> ns != []
    ensures r.Raise? ==> r.error == IndexError
  {
    var id := Identify(ns);
    var root :- RootName(ns, id.rootIndex);
    Ok(root + QualityText(id.quality) + (if slashNotation && id.position != 0 then "/" + ns[0].name else ""))
  }

  class Chord {
    var notes: seq<Note>
    var rootIndex: int
    var quality: Quality
    var position: int
    var hasSeventh: bool

    /** What construction establishes: the notes ascend by value and the other
        fields are their identification. */
    ghost predicate Valid()
      reads this
    {
      SortedBy(notes, ValueOf) && Identify(notes) == Identity(rootIndex, quality, position, hasSeventh)
    }

    /** Chord(chord_notes): the notes sorted by value (stably) and identified. */
    constructor(chordNotes: seq<Note>)
      ensures notes == SortBy(chordNotes, ValueOf)
      ensures Valid()
    {
      position := 0;
      rootIndex := 0;
      quality := Major;
      hasSeventh := false;
      notes := chordNotes;
      new;
      IdentifyChord();
    }

    /** __get_interval_string_info: sorts the notes in place, keeps the first
        note of each name, and concatenates the steps between those notes. */
    method IntervalStringInfo() returns (intervalString: string, unique: seq<Note>)
      modifies this
      ensures notes == SortBy(old(notes), ValueOf)
      ensures rootIndex == old(rootIndex) && quality == old(quality) && position == old(position)
      ensures hasSeventh == old(hasSeventh)
      ensures unique == UniqueByName(notes)
      ensures intervalString == IntervalStringOf(notes)
    {
      notes := SortBy(notes, ValueOf);
      unique := UniqueNotes(notes);
      intervalString := IntervalStringFor(unique);
    }

    /** __identify_chord: the sort, the table lookup, the search for the root
        among duplicated names, and the seventh flag, which is only ever set. */
    method IdentifyChord()
      modifies this
      ensures notes == SortBy(old(notes), ValueOf)
      ensures Identity(rootIndex, quality, position, hasSeventh)
           == Identified(notes, old(Identity(rootIndex, quality, position, hasSeventh)))
    {
      var intervalString, unique := IntervalStringInfo();
      var id := IdentifyNotes(notes, unique, intervalString, Identity(rootIndex, quality, position, hasSeventh));
      rootIndex, quality, position, hasSeventh := id.rootIndex, id.quality, id.position, id.hasSeventh;
    }

    /** find_notes_by_name: exactly the positions of the notes with that name, ascending. */
    method FindNotesByName(search: string) returns (r: seq<int>)
      ensures forall k :: 0 <= k < |r| ==> 0 <= r[k] < |notes| && notes[r[k]].name == search
      ensures forall i :: 0 <= i < |notes| && notes[i].name == search ==> i in r
      ensures forall k, m :: 0 <= k < m < |r| ==> r[k] < r[m]
      ensures |r| == NameCount(notes, search)
    {
      var ns := notes;
      r := [];
      for i := 0 to |ns|
        invariant r == NamePositions(ns[..i], search)
      {
        assert ns[..i + 1][..i] == ns[..i];
        if ns[i].name == search {
          r := r + [i];
        }
      }
      assert ns[..|ns|] == ns;
      NamePositionsFound(ns, search);
      NamePositionsAll(ns, search);
      NamePositionsCount(ns, search);
    }

    /** get_accidentals_for_key: each note's accidental in the key, in order;
        the first note whose lookup raises ends the call with that error. */
    method GetAccidentalsForKey(key: string) returns (r: Outcome<seq<string>>)
      ensures r == Collect(AccidentalResults(Names(notes), key))
      ensures r.Ok? ==> |r.value| == |notes|
      ensures r.Raise? ==> exists i :: 0 <= i < |notes| && CliTheory.NoteAccidental(notes[i].name, key) == Raise(r.error)
    {
      var names := Names(notes);
      var results := AccidentalResults(names, key);
      var accidentals: seq<string> := [];
      for i := 0 to |names|
        invariant Collect(results[..i]) == Ok(accidentals)
      {
        var a := CliTheory.NoteAccidentalInKey(names[i], key);
        assert a == results[i];
        CollectLoopStep(results, i, accidentals);
        if a.Raise? {
          return Raise(a.error);
        }
        accidentals := accidentals + [a.value];
      }
      assert results[..|names|] == results;
      r := Ok(accidentals);
    }

    /** get_indices_from_interval: exactly the positions of the notes at that
        pitch-class distance above the root, ascending; IndexError when the
        root index does not index the notes. */
    method GetIndicesFromInterval(interval: int) returns (r: Outcome<seq<int>>)
      ensures r.Ok? <==> ValidPos(|notes|, rootIndex)
      ensures r.Raise? ==> r.error == IndexError
      ensures r.Ok? ==>
                var root := At(notes, rootIndex);
                (forall k :: 0 <= k < |r.value| ==>
                   0 <= r.value[k] < |notes| && MusicNote.Interval(root, notes[r.value[k]], false) == interval)
                && (forall i :: 0 <= i < |notes| && MusicNote.Interval(root, notes[i], false) == interval ==> i in r.value)
                && (forall k, m :: 0 <= k < m < |r.value| ==> r.value[k] < r.value[m])
      ensures r == IndicesAt(notes, rootIndex, interval)
    {
      var rootNote := Index(notes, rootIndex);
      if rootNote.Raise? {
        return Raise(rootNote.error);
      }
      var root := rootNote.value;
      var matching: seq<int> := [];
      for i := 0 to |notes|
        invariant matching == MusicNote.IntervalIndices(notes[..i], root, interval)
      {
        assert notes[..i + 1][..i] == notes[..i];
        if MusicNote.Interval(root, notes[i], false) == interval {
          matching := matching + [i];
        }
      }
      assert notes[..|notes|] == notes;
      r := Ok(matching);
    }

    /** get_root_name: the root note's name; IndexError without one, which a
        valid chord has only when it has no notes. */
    method GetRootName() returns (r: Outcome<string>)
      ensures r == RootName(notes, rootIndex)
      ensures Valid() ==> (r.Ok? <==> notes != [])
    {
      var root := Index(notes, rootIndex);
      if root.Raise? {
        return Raise(root.error);
      }
      r := Ok(root.value.name);
    }

    /** get_seventh_index: -1 for a chord without a seventh; otherwise IndexError
        without a root note, else the first note other than the root at the
        quality's seventh above it, or -1. */
    method GetSeventhIndex() returns (r: Outcome<int>)
      ensures !hasSeventh ==> r == Ok(-1)
      ensures hasSeventh ==> (r.Ok? <==> ValidPos(|notes|, rootIndex))
      ensures r.Raise? ==> r.error == IndexError
      ensures hasSeventh && r.Ok? && r.value == -1 ==>
                forall i :: 0 <= i < |notes| ==> !IsSeventh(At(notes, rootIndex), notes[i], quality)
      ensures hasSeventh && r.Ok? && r.value != -1 ==>
                0 <= r.value < |notes| && IsSeventh(At(notes, rootIndex), notes[r.value], quality)
                && forall i :: 0 <= i < r.value ==> !IsSeventh(At(notes, rootIndex), notes[i], quality)
      ensures r == SeventhAt(notes, rootIndex, quality, hasSeventh)
    {
      var noteIndex := -1;
      if hasSeventh {
        var rootNote := Index(notes, rootIndex);
        if rootNote.Raise? {
          return Raise(rootNote.error);
        }
        var root := rootNote.value;
        var i := 0;
        while i < |notes|
          invariant 0 <= i <= |notes|
          invariant noteIndex == -1
          invariant forall j :: 0 <= j < i ==> !IsSeventh(root, notes[j], quality)
        {
          if notes[i].name != root.name {
            var interval := MusicNote.Interval(root, notes[i], false);
            if interval == 11 && quality == Major7 {
              noteIndex := i;
            } else if interval == 10 && (quality == Dominant7 || quality == Minor7 || quality == HalfDiminished7) {
              noteIndex := i;
            } else if interval == 9 && quality == Diminished7 {
              noteIndex := i;
            }
            if noteIndex != -1 {
              break;
            }
          }
          i := i + 1;
        }
        FirstSeventhIs(notes, root, quality, noteIndex);
      }
      r := Ok(noteIndex);
    }

    /** get_name: the root's name and the quality (nothing for a major triad or
        an unidentified chord), followed by "/" and the bass note's name in
        slash notation when the chord is not in root position; IndexError
        without a root note. */
    method GetName(slashNotation: bool) returns (r: Outcome<string>)
      ensures r.Ok? <==> ValidPos(|notes|, rootIndex)
      ensures r.Raise? ==> r.error == IndexError
      ensures r.Ok? ==>
                r.value == At(notes, rootIndex).name + QualityText(quality)
                           + (if slashNotation && position != 0 then "/" + notes[0].name else "")
      ensures Valid() && notes != [] ==> r.Ok?
      ensures Valid() ==> r == NameOf(notes, slashNotation)
    {
      var root := Index(notes, rootIndex);
      if root.Raise? {
        return Raise(root.error);
      }
      if slashNotation && position != 0 {
        r := Ok(root.value.name + QualityText(quality) + "/" + notes[0].name);
      } else {
        r := Ok(root.value.name + QualityText(quality));
      }
    }

    /** get_numeral_for_key: the numeral of the root in the key, with the
        chord's figure when use_inversion is set. The guard against an unknown
        quality never fires, so an unidentified chord is numbered as the major
        triad on its bass. For a valid chord of notes the numeral exists exactly
        when the key does. */
    method GetNumeralForKey(key: string, useInversion: bool) returns (r: Outcome<string>)
      ensures !ValidPos(|notes|, rootIndex) ==> r == Raise(IndexError)
      ensures ValidPos(|notes|, rootIndex) ==>
                r == CliTheory.ChordNumeral(key, At(notes, rootIndex).name, quality, position, hasSeventh, useInversion)
      ensures Valid() && notes != [] && CliIntervals.IntervalStrings(IntervalStringOf(notes)).None? ==>
                r == CliTheory.ChordNumeral(key, notes[0].name, Major, 0, false, useInversion)
      ensures Valid() && AllCreated(notes) && notes != [] ==> (r.Ok? <==> CliTheory.NotesForKey(key).Ok?)
      ensures Valid() ==> r == NumeralOf(notes, key, useInversion)
    {
      var root := Index(notes, rootIndex);
      if root.Raise? {
        return Raise(root.error);
      }
      NumeralExists(notes, rootIndex, quality, position, hasSeventh, key, useInversion);
      r := CliTheory.IdentifyChordNumeral(key, root.value.name, quality, position, hasSeventh, useInversion);
    }

    /** get_secondary_dominant_numeral: this chord's numeral as an applied chord
        of the base chord, whose root names the key; IndexError when either
        chord has no root note; '' when the base chord's quality takes no
        applied chord. An unidentified base chord reads as a major triad. */
    method GetSecondaryDominantNumeral(baseChord: Chord, useInversion: bool) returns (r: Outcome<string>)
      ensures RootName(baseChord.notes, baseChord.rootIndex).Raise? || RootName(notes, rootIndex).Raise? ==>
                r == Raise(IndexError)
      ensures RootName(baseChord.notes, baseChord.rootIndex).Ok? && RootName(notes, rootIndex).Ok? ==>
                r == CliTheory.AppliedNumeral(RootName(baseChord.notes, baseChord.rootIndex).value, baseChord.quality,
                                              RootName(notes, rootIndex).value, quality, position, hasSeventh, useInversion)
      ensures r.Ok? && !CliTheory.TakesApplied(baseChord.quality) ==> r.value == ""
      ensures Valid() && baseChord.Valid() ==> r == SecondaryOf(baseChord.notes, notes, useInversion)
    {
      var baseRoot := baseChord.GetRootName();
      if baseRoot.Raise? {
        return Raise(baseRoot.error);
      }
      var root := Index(notes, rootIndex);
      if root.Raise? {
        return Raise(root.error);
      }
      r := CliTheory.AppliedNumeral(baseRoot.value, baseChord.quality, root.value.name, quality, position, hasSeventh, useInversion);
    }

    /** __repr__: the printed notes separated by ", ". */
    method Repr() returns (r: string)
      ensures r == ReprOf(notes)
    {
      r := JoinPrinted(notes);
    }
  }

  /** The numeral of a valid chord of created notes fails only on the key: its
      root is a spelling and its position has a figure. */
  lemma NumeralExists(notes: seq<Note>, rootIndex: int, q: Quality, pos: int, hasSeventh: bool, key: string, useInversion: bool)
    requires ValidPos(|notes|, rootIndex)
    ensures AllCreated(notes) && -1 <= pos <= 3 && (!hasSeventh ==> 0 <= pos <= 2) ==>
              (CliTheory.ChordNumeral(key, At(notes, rootIndex).name, q, pos, hasSeventh, useInversion).Ok?
               <==> CliTheory.NotesForKey(key).Ok?)
  {
    if AllCreated(notes) {
      Spelling.NoteIndicesAreSpellings(At(notes, rootIndex).name);
    }
  }

  /** The message create_chord raises for an input of the wrong type. */
  const BadFormat := "Invalid chord information format received."

  /** create_chord: a chord of the parsed notes, ValueError with the parse's
      message, ValueError for an input that is neither text nor a dictionary,
      KeyError for a dictionary without "notes". */
  method CreateChord(input: ChordInput) returns (r: Outcome<Chord>)
    ensures ChordDataFor(input, BadFormat).Raise? ==> r.Raise? && r.error == ChordDataFor(input, BadFormat).error
    ensures ChordDataFor(input, BadFormat).Ok? && ChordDataFor(input, BadFormat).value.ChordError? ==>
              r.Raise? && r.error == ValueError(ChordDataFor(input, BadFormat).value.error)
    ensures ChordDataFor(input, BadFormat).Ok? && ChordDataFor(input, BadFormat).value.ChordNotes? ==>
              r.Ok? && fresh(r.value) && r.value.Valid() && AllCreated(r.value.notes)
              && r.value.notes == SortBy(ChordDataFor(input, BadFormat).value.notes, ValueOf)
  {
    var data := ChordDataFor(input, BadFormat);
    if data.Raise? {
      return Raise(data.error);
    }
    match data.value
    case ChordError(message) =>
      r := Raise(ValueError(message));
    case ChordNotes(ns) =>
      CreatedNotes(input, BadFormat);
      SortedCreated(ns);
      var chord := new Chord(ns);
      r := Ok(chord);
  }

  /** Printing a chord re-creates it: the printed notes parse back to the
      chord's notes, which are already sorted, so the new chord has the same
      notes and therefore the same identification. */
  lemma ReprRecreates(notes: seq<Note>)
    requires |notes| >= 3 && AllCreated(notes) && SortedBy(notes, ValueOf)
    ensures ChordDataFor(Text(ReprOf(notes)), BadFormat) == Ok(ChordNotes(notes))
    ensures SortBy(notes, ValueOf) == notes
  {
    ReprParses(notes);
    SortBySorted(notes, ValueOf);
  }

  /** An unidentified chord has the major triad's empty mark: C D E is named
      just "C", like the C major triad. */
  lemma ClusterReadsAsMajor(c: Note, d: Note, e: Note)
    requires c.name == "C" && d.name == "D" && e.name == "E"
    requires c.value == 48 && d.value == 50 && e.value == 52
    ensures IntervalStringOf([c, d, e]) == "22"
    ensures Identify([c, d, e]) == Identity(0, Major, 0, false)
  {
    var ns := [c, d, e];
    assert UniqueByName([c]) == [c];
    assert ns[..2] == [c, d];
    assert ns[..2][..1] == [c];
    assert UniqueByName([c, d]) == [c, d];
    assert UniqueByName(ns) == ns;
    assert Steps(Values(ns)) == [2, 2];
    assert IntervalString([2, 2]) == Str(2) + IntervalString([2]);
    assert CliIntervals.IntervalStrings("22") == None;
  }

  /** The notes G B D F have distinct names and the interval string "433". */
  lemma GDominantSeventhSteps(g: Note, b: Note, d: Note, f: Note)
    requires g.name == "G" && b.name == "B" && d.name == "D" && f.name == "F"
    requires g.value == 43 && b.value == 47 && d.value == 50 && f.value == 53
    ensures UniqueByName([g, b, d, f]) == [g, b, d, f]
    ensures IntervalStringOf([g, b, d, f]) == "433"
  {
    var ns := [g, b, d, f];
    assert ns[..3] == [g, b, d];
    assert ns[..3][..2] == [g, b];
    assert ns[..3][..2][..1] == [g];
    assert UniqueByName([g]) == [g];
    assert UniqueByName([g, b]) == [g, b];
    assert UniqueByName([g, b, d]) == [g, b, d];
    assert Steps(Values(ns)) == [4, 3, 3];
    assert IntervalString([4, 3, 3]) == Str(4) + (Str(3) + IntervalString([3]));
  }

  /** A dominant seventh G B D F in root position is identified as a seventh
      chord on G, and F is the seventh get_seventh_index looks for. */
  lemma GDominantSeventh(g: Note, b: Note, d: Note, f: Note)
    requires g.name == "G" && b.name == "B" && d.name == "D" && f.name == "F"
    requires g.value == 43 && b.value == 47 && d.value == 50 && f.value == 53
    requires g.index == 7 && b.index == 11 && d.index == 2 && f.index == 5
    ensures Identify([g, b, d, f]) == Identity(0, Dominant7, 0, true)
    ensures IsSeventh(g, f, Dominant7) && !IsSeventh(g, b, Dominant7) && !IsSeventh(g, d, Dominant7)
  {
    var ns := [g, b, d, f];
    GDominantSeventhSteps(g, b, d, f);
    assert CliIntervals.IntervalStrings("433") == Some(ChordInfo(0, Dominant7, 0));
    assert FirstWithName(ns, "G") == 0;
  }
}
