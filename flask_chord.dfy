// The chord of the web version (Flask/api/chord.py). ChordFactory turns a
// comma-separated string, or a dictionary holding one under "notes", into a
// Chord; the Chord sorts its notes by value in place, keeps the first note of
// each name, looks the intervals between those distinct notes up in the
// interval table, and records the chord's root index, quality and inversion.
// Its queries name the chord, find notes by name or interval, find the
// seventh, and ask the theory functions for numerals and accidentals.
module FlaskChord {
  import opened Py
  import opened NoteText
  import opened IntervalCodes
  import opened ChordNotes
  import MusicNote
  import FlaskIntervals
  import FlaskTheory
  import Spelling

  /** The root index, quality and position __identify_chord records. */
  datatype Identity = Identity(rootIndex: int, quality: Quality, position: int)

  /** The table record for the notes' interval string. A record the table
      lists names one of the distinct notes as the root. */
  function InfoOf(notes: seq<Note>): (r: ChordInfo)
    ensures r == FlaskIntervals.ChordForIntervals(IntervalStringOf(notes))
    ensures r.quality != UnknownQuality ==> r.rootIndex < |UniqueByName(notes)|
  {
    var u := UniqueByName(notes);
    var s := IntervalStringOf(notes);
    StepTokens(Values(u));
    FlaskIntervals.EntryFacts(s);
    FlaskIntervals.ChordForIntervals(s)
  }

  /** __identify_chord on sorted notes: an unknown interval string leaves root 0,
      position 0 and quality unknown; otherwise the table's quality and
      position, and the root is the first note named like the table's root. */
  function Identify(notes: seq<Note>): (r: Identity)
    ensures r.quality == UnknownQuality <==> FlaskIntervals.IntervalStrings(IntervalStringOf(notes)).None?
    ensures r.quality == UnknownQuality ==> r.rootIndex == 0 && r.position == 0
    ensures r.quality != UnknownQuality ==>
              var info := InfoOf(notes);
              var u := UniqueByName(notes);
              r.quality == info.quality && r.position == info.position
              && 0 <= r.rootIndex < |notes| && notes[r.rootIndex] == u[info.rootIndex]
              && r.rootIndex == FirstWithName(notes, u[info.rootIndex].name)
    ensures 0 <= r.position <= 3 && (IsTriadQuality(r.quality) ==> r.position <= 2)
  {
    var info := InfoOf(notes);
    if info.quality == UnknownQuality then Identity(0, UnknownQuality, 0)
    else
      RootRecovery(notes, info.rootIndex, 0);
      Identity(RootIndexOf(notes, info.rootIndex, 0), info.quality, info.position)
  }

  /** get_note_name_at_index: the name at a Python index, '' where indexing
      raises IndexError. */
  function NoteNameAt(notes: seq<Note>, index: int): (r: string)
    ensures ValidPos(|notes|, index) ==> r == At(notes, index).name
    ensures !ValidPos(|notes|, index) ==> r == ""
  {
    if ValidPos(|notes|, index) then At(notes, index).name else ""
  }

  /** The interval a seventh of each quality lies at above the root
      (get_seventh_index), None for the qualities without one. */
  function SeventhInterval(q: Quality): (r: Option<int>)
    ensures r.Some? ==> IsSeventhQuality(q) || q == MinorMajor7
  {
    if q == Major7 || q == MinorMajor7 then Some(11)
    else if q == Dominant7 || q == Minor7 || q == HalfDiminished7 then Some(10)
    else if q == Diminished7 then Some(9)
    else None
  }

  /** A note other than the root, lying at the quality's seventh above it. */
  predicate IsSeventh(root: Note, n: Note, q: Quality)
  {
    n.name != root.name && SeventhInterval(q) == Some(MusicNote.Interval(root, n, false))
  }

  /** The first note other than the root at the quality's seventh above it, or -1. */
  function FirstSeventh(notes: seq<Note>, root: Note, q: Quality): (r: int)
    ensures -1 <= r < |notes|
    ensures r >= 0 ==> IsSeventh(root, notes[r], q)
    ensures forall i :: 0 <= i < |notes| && (r < 0 || i < r) ==> !IsSeventh(root, notes[i], q)
  {
    if notes == [] then -1
    else if IsSeventh(root, notes[0], q) then 0
    else
      var r := FirstSeventh(notes[1..], root, q);
      if r < 0 then -1 else r + 1
  }

  /** get_seventh_index of a valid chord holding these notes. */
  function SeventhIndexOf(ns: seq<Note>): (r: Outcome<int>)
    ensures r.Raise? ==> r.error == IndexError
    ensures r.Ok? ==> -1 <= r.value < |ns|
  {
    var id := Identify(ns);
    SeventhAt(ns, id.rootIndex, id.quality)
  }

  /** get_seventh_index for the given identification fields. */
  function SeventhAt(ns: seq<Note>, rootIndex: int, q: Quality): (r: Outcome<int>)
    ensures r.Raise? ==> r.error == IndexError
    ensures r.Ok? ==> -1 <= r.value < |ns|
  {
    var root :- Index(ns, rootIndex);
    Ok(FirstSeventh(ns, root, q))
  }

  /** get_indices_from_interval of a valid chord holding these notes. */
  function IndicesOf(ns: seq<Note>, interval: int): (r: Outcome<seq<int>>)
    ensures r.Raise? ==> r.error == IndexError
    ensures r.Ok? ==> forall k :: 0 <= k < |r.value| ==> 0 <= r.value[k] < |ns|
  {
    IndicesAt(ns, Identify(ns).rootIndex, interval)
  }

  /** get_indices_from_interval for the given root index. */
  function IndicesAt(ns: seq<Note>, rootIndex: int, interval: int): (r: Outcome<seq<int>>)
    ensures r.Raise? ==> r.error == IndexError
    ensures r.Ok? ==> forall k :: 0 <= k < |r.value| ==> 0 <= r.value[k] < |ns|
  {
    var root :- Index(ns, rootIndex);
    Ok(MusicNote.IntervalIndices(ns, root, interval))
  }

  /** A first index with the seventh property is FirstSeventh's. */
  lemma FirstSeventhIs(notes: seq<Note>, root: Note, q: Quality, r: int)
    requires -1 <= r < |notes|
    requires r >= 0 ==> IsSeventh(root, notes[r], q)
    requires forall i :: 0 <= i < |notes| && (r < 0 || i < r) ==> !IsSeventh(root, notes[i], q)
    ensures FirstSeventh(notes, root, q) == r
  {
  }

  /** get_numeral_for_key of a chord holding these notes: '' for an unknown
      chord, otherwise the root's numeral in the key, with the chord's
      inversion or in root position. */
  function NumeralOf(ns: seq<Note>, key: string, useInversion: bool): (r: Outcome<string>)
    ensures Identify(ns).quality == UnknownQuality ==> r == Ok("")
    ensures AllCreated(ns) ==> (r.Ok? <==> Identify(ns).quality == UnknownQuality || FlaskTheory.NotesForKey(key).Ok?)
  {
    var id := Identify(ns);
    if id.quality == UnknownQuality then Ok("")
    else
      NumeralExists(ns, id.rootIndex, id.quality, if useInversion then id.position else 0, key);
      FlaskTheory.ChordNumeral(key, ns[id.rootIndex].name, id.quality, if useInversion then id.position else 0)
  }

  /** get_applied_numeral of a chord holding `ns` against a base chord holding
      `base`: '' whenever the base chord takes no applied chord. */
  function AppliedOf(base: seq<Note>, ns: seq<Note>, useInversion: bool): (r: Outcome<string>)
    ensures !FlaskTheory.TakesApplied(Identify(base).quality) ==> r == Ok("")
    ensures r.Ok? && r.value != "" && Identify(ns).quality != Diminished7 ==>
              FlaskTheory.StripInversion(r.value) in ["V", "V7", "viio", "viiø", "viio7"]
  {
    var b := Identify(base);
    var id := Identify(ns);
    FlaskTheory.AppliedNumeral(NoteNameAt(base, b.rootIndex), b.quality, NoteNameAt(ns, id.rootIndex), id.quality,
                               if useInversion then id.position else 0)
  }

  /** get_name of a chord holding these notes. */
  function NameOf(ns: seq<Note>, slashNotation: bool): (r: string)
    ensures Identify(ns).quality == UnknownQuality ==> r == ""
    ensures AllCreated(ns) ==> (r == "" <==> Identify(ns).quality == UnknownQuality)
  {
    var id := Identify(ns);
    if id.quality == UnknownQuality then ""
    else
      SpellingNonEmpty(ns[id.rootIndex]);
      ns[id.rootIndex].name + QualityText(id.quality) + (if slashNotation && id.position != 0 then "/" + ns[0].name else "")
  }

  class Chord {
    var notes: seq<Note>
    var rootIndex: int
    var quality: Quality
    var position: int

    /** What construction establishes: the notes ascend by value and the other
        fields are their identification. */
    ghost predicate Valid()
      reads this
    {
      SortedBy(notes, ValueOf) && Identify(notes) == Identity(rootIndex, quality, position)
    }

    /** Chord(chord_notes): the notes sorted by value (stably) and identified. */
    constructor(chordNotes: seq<Note>)
      ensures notes == SortBy(chordNotes, ValueOf)
      ensures Valid()
    {
      position := 0;
      rootIndex := 0;
      quality := UnknownQuality;
      notes := chordNotes;
      new;
      IdentifyChord();
    }

    /** __get_interval_string_info: sorts the notes in place, keeps the first
        note of each name, and concatenates the steps between those notes. */
    method IntervalStringInfo() returns (intervalString: string, unique: seq<Note>)
      modifies this
      ensures notes == SortBy(old(notes), ValueOf)
      ensures rootIndex == old(rootIndex) && quality == old(quality) && position == old(position)
      ensures unique == UniqueByName(notes)
      ensures intervalString == IntervalStringOf(notes)
    {
      notes := SortBy(notes, ValueOf);
      unique := UniqueNotes(notes);
      intervalString := IntervalStringFor(unique);
    }

    /** __identify_chord: the sort, the table lookup, and the search for the
        root among duplicated names. An unknown chord keeps its quality. */
    method IdentifyChord()
      modifies this
      ensures notes == SortBy(old(notes), ValueOf)
      ensures var info := InfoOf(notes);
              if info.quality == UnknownQuality then
                rootIndex == 0 && position == 0 && quality == old(quality)
              else
                quality == info.quality && position == info.position
                && rootIndex == RootIndexOf(notes, info.rootIndex, old(rootIndex))
    {
      var intervalString, unique := IntervalStringInfo();
      var info := FlaskIntervals.ChordForIntervals(intervalString);
      assert info == InfoOf(notes);
      if info.quality == UnknownQuality {
        rootIndex := 0;
        position := 0;
      } else {
        rootIndex := FindRoot(notes, unique, info.rootIndex, rootIndex);
        quality := info.quality;
        position := info.position;
      }
    }

    /** find_notes_by_name: exactly the positions of the notes with that name, ascending. */
    method FindNotesByName(search: string) returns (r: seq<int>)
      ensures forall k :: 0 <= k < |r| ==> 0 <= r[k] < |notes| && notes[r[k]].name == search
      ensures forall i :: 0 <= i < |notes| && notes[i].name == search ==> i in r
      ensures forall k, m :: 0 <= k < m < |r| ==> r[k] < r[m]
      ensures |r| == NameCount(notes, search)
    {
      var ns := notes;
      r := [];
      for i := 0 to |ns|
        invariant r == NamePositions(ns[..i], search)
      {
        assert ns[..i + 1][..i] == ns[..i];
        if ns[i].name == search {
          r := r + [i];
        }
      }
      assert ns[..|ns|] == ns;
      NamePositionsFound(ns, search);
      NamePositionsAll(ns, search);
      NamePositionsCount(ns, search);
    }

    /** get_accidentals_for_key: each note's accidental in the key, in order;
        the first note whose lookup raises ends the call with that error. */
    method GetAccidentalsForKey(key: string) returns (r: Outcome<seq<string>>)
      ensures r == FlaskTheory.Accidentals(Names(notes), key)
      ensures r.Ok? ==> |r.value| == |notes|
    {
      var names := Names(notes);
      var results := FlaskTheory.AccidentalResults(names, key);
      var accidentals: seq<string> := [];
      for i := 0 to |names|
        invariant Collect(results[..i]) == Ok(accidentals)
      {
        var a := FlaskTheory.NoteAccidentalInKey(names[i], key);
        assert a == results[i];
        CollectLoopStep(results, i, accidentals);
        if a.Raise? {
          return Raise(a.error);
        }
        accidentals := accidentals + [a.value];
      }
      assert results[..|names|] == results;
      r := Ok(accidentals);
    }

    /** get_indices_from_interval: exactly the positions of the notes at that
        pitch-class distance above the root, ascending; IndexError when the
        root index does not index the notes. */
    method GetIndicesFromInterval(interval: int) returns (r: Outcome<seq<int>>)
      ensures r.Ok? <==> ValidPos(|notes|, rootIndex)
      ensures r.Raise? ==> r.error == IndexError
      ensures r.Ok? ==>
                var root := At(notes, rootIndex);
                (forall k :: 0 <= k < |r.value| ==>
                   0 <= r.value[k] < |notes| && MusicNote.Interval(root, notes[r.value[k]], false) == interval)
                && (forall i :: 0 <= i < |notes| && MusicNote.Interval(root, notes[i], false) == interval ==> i in r.value)
                && (forall k, m :: 0 <= k < m < |r.value| ==> r.value[k] < r.value[m])
      ensures r == IndicesAt(notes, rootIndex, interval)
    {
      var rootNote := Index(notes, rootIndex);
      if rootNote.Raise? {
        return Raise(rootNote.error);
      }
      var root := rootNote.value;
      var matching: seq<int> := [];
      for i := 0 to |notes|
        invariant matching == MusicNote.IntervalIndices(notes[..i], root, interval)
      {
        assert notes[..i + 1][..i] == notes[..i];
        if MusicNote.Interval(root, notes[i], false) == interval {
          matching := matching + [i];
        }
      }
      assert notes[..|notes|] == notes;
      r := Ok(matching);
    }

    /** get_note_names: the names of the notes, in order. */
    method GetNoteNames() returns (r: seq<string>)
      ensures |r| == |notes| && forall i :: 0 <= i < |notes| ==> r[i] == notes[i].name
    {
      r := [];
      for i := 0 to |notes|
        invariant |r| == i && forall j :: 0 <= j < i ==> r[j] == notes[j].name
      {
        r := r + [notes[i].name];
      }
    }

    /** get_note_name_at_index: '' where the index raises IndexError. */
    method GetNoteNameAtIndex(index: int) returns (r: string)
      ensures r == NoteNameAt(notes, index)
      ensures AllCreated(notes) ==> (r != "" <==> ValidPos(|notes|, index))
    {
      var found := Index(notes, index);
      if found.Ok? {
        r := found.value.name;
        SpellingNonEmpty(found.value);
      } else {
        r := "";
      }
    }

    /** get_root_name: the root note's name; a known chord of created notes has one. */
    method GetRootName() returns (r: string)
      ensures r == NoteNameAt(notes, rootIndex)
      ensures Valid() && quality != UnknownQuality ==> r == notes[rootIndex].name
    {
      r := GetNoteNameAtIndex(rootIndex);
    }

    /** get_seventh_index: IndexError without a root note; otherwise the first
        note other than the root at the quality's seventh above it, or -1. */
    method GetSeventhIndex() returns (r: Outcome<int>)
      ensures r.Ok? <==> ValidPos(|notes|, rootIndex)
      ensures r.Raise? ==> r.error == IndexError
      ensures r.Ok? && r.value == -1 ==>
                forall i :: 0 <= i < |notes| ==> !IsSeventh(At(notes, rootIndex), notes[i], quality)
      ensures r.Ok? && r.value != -1 ==>
                0 <= r.value < |notes| && IsSeventh(At(notes, rootIndex), notes[r.value], quality)
                && forall i :: 0 <= i < r.value ==> !IsSeventh(At(notes, rootIndex), notes[i], quality)
      ensures r == SeventhAt(notes, rootIndex, quality)
    {
      var rootNote := Index(notes, rootIndex);
      if rootNote.Raise? {
        return Raise(rootNote.error);
      }
      var root := rootNote.value;
      var noteIndex := -1;
      var i := 0;
      while i < |notes|
        invariant 0 <= i <= |notes|
        invariant forall j :: 0 <= j < i ==> !IsSeventh(root, notes[j], quality)
      {
        if notes[i].name != root.name {
          var interval := MusicNote.Interval(root, notes[i], false);
          if interval == 11 && (quality == Major7 || quality == MinorMajor7) {
            noteIndex := i;
          } else if interval == 10 && (quality == Dominant7 || quality == Minor7 || quality == HalfDiminished7) {
            noteIndex := i;
          } else if interval == 9 && quality == Diminished7 {
            noteIndex := i;
          }
          if noteIndex != -1 {
            break;
          }
        }
        i := i + 1;
      }
      FirstSeventhIs(notes, root, quality, noteIndex);
      r := Ok(noteIndex);
    }

    /** get_name: '' for an unknown chord; otherwise the root's name and the
        quality, followed by "/" and the bass note's name in slash notation
        when the chord is inverted. */
    method GetName(slashNotation: bool) returns (r: string)
      requires Valid()
      ensures quality == UnknownQuality ==> r == ""
      ensures quality != UnknownQuality ==>
                r == notes[rootIndex].name + QualityText(quality)
                     + (if slashNotation && position != 0 then "/" + notes[0].name else "")
      ensures quality != UnknownQuality && slashNotation && position != 0 ==>
                forall i :: 0 <= i < |notes| ==> notes[0].value <= notes[i].value
      ensures r == NameOf(notes, slashNotation)
    {
      r := "";
      if quality != UnknownQuality {
        if slashNotation && position != 0 {
          r := notes[rootIndex].name + QualityText(quality) + "/" + notes[0].name;
        } else {
          r := notes[rootIndex].name + QualityText(quality);
        }
      }
    }

    /** get_numeral_for_key: '' for an unknown chord, otherwise the numeral of
        the root in the key, with the chord's inversion or in root position.
        For created notes the numeral exists exactly when the key does. */
    method GetNumeralForKey(key: string, useInversion: bool) returns (r: Outcome<string>)
      requires Valid()
      ensures quality == UnknownQuality ==> r == Ok("")
      ensures quality != UnknownQuality ==>
                r == FlaskTheory.ChordNumeral(key, notes[rootIndex].name, quality, if useInversion then position else 0)
      ensures AllCreated(notes) ==> (r.Ok? <==> quality == UnknownQuality || FlaskTheory.NotesForKey(key).Ok?)
      ensures r == NumeralOf(notes, key, useInversion)
    {
      if quality == UnknownQuality {
        return Ok("");
      }
      var pos := if useInversion then position else 0;
      NumeralExists(notes, rootIndex, quality, pos, key);
      r := FlaskTheory.IdentifyChordNumeral(key, notes[rootIndex].name, quality, pos);
    }

    /** get_applied_numeral: this chord's numeral as an applied chord of the
        base chord, whose root names the key; '' when the base chord's quality
        takes no applied chord, as an unknown chord's does not. */
    method GetAppliedNumeral(baseChord: Chord, useInversion: bool) returns (r: Outcome<string>)
      ensures r == FlaskTheory.AppliedNumeral(NoteNameAt(baseChord.notes, baseChord.rootIndex), baseChord.quality,
                                              NoteNameAt(notes, rootIndex), quality, if useInversion then position else 0)
      ensures baseChord.quality == UnknownQuality ==> r == Ok("")
      ensures Valid() && baseChord.Valid() ==> r == AppliedOf(baseChord.notes, notes, useInversion)
    {
      var baseRoot := baseChord.GetRootName();
      var root := GetRootName();
      var pos := if useInversion then position else 0;
      r := FlaskTheory.AppliedNumeral(baseRoot, baseChord.quality, root, quality, pos);
    }

    /** __repr__: the printed notes separated by ", ". */
    method Repr() returns (r: string)
      ensures r == ReprOf(notes)
    {
      r := JoinPrinted(notes);
    }
  }

  /** A created note has a non-empty name. */
  lemma SpellingNonEmpty(n: Note)
    ensures MusicNote.WellFormed(n) ==> n.name != ""
  {
    if MusicNote.WellFormed(n) {
      Spelling.NoteIndicesAreSpellings(n.name);
    }
  }

  /** The numeral of an identified chord of created notes fails only on the key. */
  lemma NumeralExists(notes: seq<Note>, rootIndex: int, q: Quality, pos: int, key: string)
    requires AllCreated(notes) ==> 0 <= rootIndex < |notes|
    requires 0 <= pos <= 3 && (IsTriadQuality(q) ==> pos <= 2)
    ensures AllCreated(notes) ==>
              (FlaskTheory.ChordNumeral(key, notes[rootIndex].name, q, pos).Ok? <==> FlaskTheory.NotesForKey(key).Ok?)
  {
    FlaskTheory.TableFigures(ChordInfo(0, q, pos));
    if AllCreated(notes) {
      Spelling.NoteIndicesAreSpellings(notes[rootIndex].name);
    }
  }

  /** The message create_chord raises for an input of the wrong type. */
  const BadFormat := "Invalid chord format received. Accepted types: str and dict"

  /** create_chord: a chord of the parsed notes, ValueError with the parse's
      message, ValueError for an input that is neither text nor a dictionary,
      KeyError for a dictionary without "notes". */
  method CreateChord(input: ChordInput) returns (r: Outcome<Chord>)
    ensures ChordDataFor(input, BadFormat).Raise? ==> r.Raise? && r.error == ChordDataFor(input, BadFormat).error
    ensures ChordDataFor(input, BadFormat).Ok? && ChordDataFor(input, BadFormat).value.ChordError? ==>
              r.Raise? && r.error == ValueError(ChordDataFor(input, BadFormat).value.error)
    ensures ChordDataFor(input, BadFormat).Ok? && ChordDataFor(input, BadFormat).value.ChordNotes? ==>
              r.Ok? && fresh(r.value) && r.value.Valid() && AllCreated(r.value.notes)
              && r.value.notes == SortBy(ChordDataFor(input, BadFormat).value.notes, ValueOf)
  {
    var data := ChordDataFor(input, BadFormat);
    if data.Raise? {
      return Raise(data.error);
    }
    match data.value
    case ChordError(message) =>
      r := Raise(ValueError(message));
    case ChordNotes(ns) =>
      CreatedNotes(input, BadFormat);
      SortedCreated(ns);
      var chord := new Chord(ns);
      r := Ok(chord);
  }

  /** Printing a chord re-creates it: the printed notes parse back to the
      chord's notes, which are already sorted, so the new chord has the same
      notes and therefore the same identification. */
  lemma ReprRecreates(notes: seq<Note>)
    requires |notes| >= 3 && AllCreated(notes) && SortedBy(notes, ValueOf)
    ensures ParseChordString(ReprOf(notes)) == ChordNotes(notes)
    ensures ChordDataFor(Text(ReprOf(notes)), BadFormat) == Ok(ChordNotes(notes))
    ensures SortBy(notes, ValueOf) == notes
  {
    ReprParses(notes);
    SortBySorted(notes, ValueOf);
  }

  /** A chord of three distinct pitch classes a major third and a minor third
      apart, C E G in root position, is C major with its root at the bass. */
  lemma CMajorTriad(c: Note, e: Note, g: Note)
    requires c.name == "C" && e.name == "E" && g.name == "G"
    requires c.value == 48 && e.value == 52 && g.value == 55
    ensures IntervalStringOf([c, e, g]) == "43"
    ensures Identify([c, e, g]) == Identity(0, Major, 0)
  {
    var ns := [c, e, g];
    assert UniqueByName([c]) == [c];
    assert ns[..2] == [c, e];
    assert ns[..2][..1] == [c];
    assert UniqueByName([c, e]) == [c, e];
    assert UniqueByName(ns) == ns;
    assert Steps(Values(ns)) == [4, 3];
    assert IntervalString([4, 3]) == Str(4) + IntervalString([3]);
    assert FlaskIntervals.IntervalStrings("43") == Some(ChordInfo(0, Major, 0));
    assert FirstWithName(ns, "C") == 0;
  }
}
