// What the three chord modules share: a chord's notes are sorted by keyboard
// value with Python's stable list.sort, the web and API chords keep the first
// note of each spelling, and the interval string is built from the semitone
// steps between neighbouring notes reduced into one octave.
module ChordNotes {
  import opened Py
  import opened NoteText
  import opened IntervalCodes
  import MusicNote

  // ---------------------------------------------------------------------
  // list.sort(key=...)

  /** Ascending by key. */
  predicate SortedBy<T>(s: seq<T>, key: T -> int)
  {
    forall i, j :: 0 <= i < j < |s| ==> key(s[i]) <= key(s[j])
  }

  /** The elements whose key is v, in the order they appear. */
  function WithKey<T>(s: seq<T>, key: T -> int, v: int): seq<T>
  {
    if s == [] then [] else (if key(s[0]) == v then [s[0]] else []) + WithKey(s[1..], key, v)
  }

  /** One element inserted into a sorted list ahead of those with an equal key. */
  function InsertBy<T>(x: T, s: seq<T>, key: T -> int): (r: seq<T>)
    ensures |r| == |s| + 1
  {
    if s == [] || key(x) <= key(s[0]) then [x] + s else [s[0]] + InsertBy(x, s[1..], key)
  }

  lemma {:induction false} InsertMultiset<T>(x: T, s: seq<T>, key: T -> int)
    ensures multiset(InsertBy(x, s, key)) == multiset([x] + s)
  {
    if s != [] && key(x) > key(s[0]) {
      InsertMultiset(x, s[1..], key);
      assert s == [s[0]] + s[1..];
    }
  }

  lemma {:induction false} InsertSorted<T>(x: T, s: seq<T>, key: T -> int)
    requires SortedBy(s, key)
    ensures SortedBy(InsertBy(x, s, key), key)
  {
    if s != [] && key(x) > key(s[0]) {
      var t := InsertBy(x, s[1..], key);
      InsertSorted(x, s[1..], key);
      InsertMultiset(x, s[1..], key);
      forall i | 0 <= i < |t|
        ensures key(s[0]) <= key(t[i])
      {
        assert t[i] in multiset(t);
        assert t[i] == x || t[i] in s[1..];
      }
    }
  }

  lemma {:induction false} InsertWithKey<T>(x: T, s: seq<T>, key: T -> int, v: int)
    requires SortedBy(s, key)
    ensures WithKey(InsertBy(x, s, key), key, v) == WithKey([x] + s, key, v)
  {
    if s != [] && key(x) > key(s[0]) {
      var t := InsertBy(x, s[1..], key);
      InsertWithKey(x, s[1..], key, v);
      assert ([s[0]] + t)[1..] == t;
      assert ([x] + s)[1..] == s;
      assert ([x] + s[1..])[1..] == s[1..];
    }
  }

  /** list.sort with a key: ascending, a permutation, and stable (elements
      with equal keys keep their relative order). */
  function SortBy<T>(s: seq<T>, key: T -> int): (r: seq<T>)
    ensures SortedBy(r, key)
    ensures multiset(r) == multiset(s)
    ensures forall v :: WithKey(r, key, v) == WithKey(s, key, v)
  {
    if s == [] then []
    else
      var t := SortBy(s[1..], key);
      InsertSorted(s[0], t, key);
      InsertMultiset(s[0], t, key);
      assert s == [s[0]] + s[1..];
      forall v
        ensures WithKey(InsertBy(s[0], t, key), key, v) == WithKey(s, key, v)
      {
        InsertWithKey(s[0], t, key, v);
        assert ([s[0]] + t)[1..] == t;
      }
      InsertBy(s[0], t, key)
  }

  /** Sorting an already sorted list leaves it as it is. */
  lemma {:induction false} SortBySorted<T>(s: seq<T>, key: T -> int)
    requires SortedBy(s, key)
    ensures SortBy(s, key) == s
  {
    if s != [] {
      SortBySorted(s[1..], key);
      assert s == [s[0]] + s[1..];
    }
  }

  // ---------------------------------------------------------------------
  // Interval strings

  /** The semitone steps between neighbouring values, reduced into one octave
      (Python's % with a positive modulus never gives a negative result). */
  function Steps(values: seq<int>): (r: seq<nat>)
    ensures |values| > 0 ==> |r| == |values| - 1
    ensures |values| == 0 ==> r == []
    ensures forall i :: 0 <= i < |r| ==> r[i] < 12 && r[i] == (values[i + 1] - values[i]) % 12
  {
    if |values| <= 1 then []
    else seq(|values| - 1, i requires 0 <= i < |values| - 1 => (values[i + 1] - values[i]) % 12)
  }

  /** Appending a token to the string is appending an interval to the list. */
  lemma {:induction false} IntervalStringSnoc(xs: seq<nat>, x: nat)
    ensures IntervalString(xs + [x]) == IntervalString(xs) + Str(x)
  {
    if xs == [] {
      assert IntervalString([x]) == Str(x) + IntervalString([]);
    } else {
      assert (xs + [x])[1..] == xs[1..] + [x];
      IntervalStringSnoc(xs[1..], x);
    }
  }

  /** One more token of the interval-string loop. */
  lemma IntervalStringStep(steps: seq<nat>, i: nat)
    requires i < |steps|
    ensures IntervalString(steps[..i + 1]) == IntervalString(steps[..i]) + Str(steps[i])
  {
    assert steps[..i + 1] == steps[..i] + [steps[i]];
    IntervalStringSnoc(steps[..i], steps[i]);
  }

  /** A string of the steps between n values splits into at most n - 1 tokens,
      so a table record whose root fits the string names one of the n notes. */
  lemma StepTokens(values: seq<int>)
    ensures MinTokens(IntervalString(Steps(values))) <= |Steps(values)|
  {
    MinTokensOfIntervals(Steps(values));
  }

  // ---------------------------------------------------------------------
  // Notes of the web and API chords

  /** The sort key of a chord's notes. */
  function ValueOf(n: Note): int
  {
    n.value
  }

  function Values(s: seq<Note>): (r: seq<int>)
    ensures |r| == |s| && forall i :: 0 <= i < |s| ==> r[i] == s[i].value
  {
    seq(|s|, i requires 0 <= i < |s| => s[i].value)
  }

  function Names(s: seq<Note>): (r: seq<string>)
    ensures |r| == |s| && forall i :: 0 <= i < |s| ==> r[i] == s[i].name
  {
    seq(|s|, i requires 0 <= i < |s| => s[i].name)
  }

  /** How many notes have the name. */
  function NameCount(s: seq<Note>, name: string): (r: nat)
    ensures r <= |s|
    ensures r > 0 <==> name in Names(s)
  {
    if s == [] then 0
    else
      var init := NameCount(s[..|s| - 1], name);
      assert Names(s) == Names(s[..|s| - 1]) + [s[|s| - 1].name];
      init + (if s[|s| - 1].name == name then 1 else 0)
  }

  /** The positions of the notes with that name, in order. */
  function NamePositions(s: seq<Note>, name: string): (r: seq<int>)
  {
    if s == [] then []
    else NamePositions(s[..|s| - 1], name) + (if s[|s| - 1].name == name then [|s| - 1] else [])
  }

  /** Each position found holds a note with that name, and they ascend. */
  lemma {:induction false} NamePositionsFound(s: seq<Note>, name: string)
    ensures forall k :: 0 <= k < |NamePositions(s, name)| ==>
              0 <= NamePositions(s, name)[k] < |s| && s[NamePositions(s, name)[k]].name == name
    ensures forall k, m :: 0 <= k < m < |NamePositions(s, name)| ==> NamePositions(s, name)[k] < NamePositions(s, name)[m]
  {
    if s != [] {
      var init := s[..|s| - 1];
      NamePositionsFound(init, name);
      var r0 := NamePositions(init, name);
      var r := NamePositions(s, name);
      assert forall k :: 0 <= k < |r0| ==> r[k] == r0[k];
      if s[|s| - 1].name == name {
        assert r == r0 + [|s| - 1];
      } else {
        assert r == r0;
      }
    }
  }

  /** Every note with that name has its position found. */
  lemma {:induction false} NamePositionsAll(s: seq<Note>, name: string)
    ensures forall i :: 0 <= i < |s| && s[i].name == name ==> i in NamePositions(s, name)
  {
    if s != [] {
      var init := s[..|s| - 1];
      NamePositionsAll(init, name);
      var r0 := NamePositions(init, name);
      var r := NamePositions(s, name);
      assert r0 <= r;
      forall i | 0 <= i < |s| && s[i].name == name
        ensures i in r
      {
        if i < |s| - 1 {
          assert init[i].name == name;
          assert i in r0;
        } else {
          assert r[|r| - 1] == i;
        }
      }
    }
  }

  /** One position is found per note with that name. */
  lemma {:induction false} NamePositionsCount(s: seq<Note>, name: string)
    ensures |NamePositions(s, name)| == NameCount(s, name)
  {
    if s != [] {
      NamePositionsCount(s[..|s| - 1], name);
    }
  }

  /** The first position holding a note with that name, or -1. */
  function FirstWithName(s: seq<Note>, name: string): (r: int)
    ensures -1 <= r < |s|
    ensures r >= 0 ==> s[r].name == name
    ensures forall j :: 0 <= j < |s| && (r < 0 || j < r) ==> s[j].name != name
  {
    if s == [] then -1
    else if s[0].name == name then 0
    else
      var r := FirstWithName(s[1..], name);
      if r < 0 then -1 else r + 1
  }

  /** The first position is the only one with the name and none before it. */
  lemma FirstWithNameIs(s: seq<Note>, name: string, r: int)
    requires 0 <= r < |s| && s[r].name == name
    requires forall j :: 0 <= j < r ==> s[j].name != name
    ensures FirstWithName(s, name) == r
  {
  }

  /** The notes the unique_notes loop keeps: the first note of each name, in order. */
  function UniqueByName(s: seq<Note>): (u: seq<Note>)
    ensures |u| <= |s|
  {
    if s == [] then []
    else
      var d := UniqueByName(s[..|s| - 1]);
      if s[|s| - 1].name in Names(d) then d else d + [s[|s| - 1]]
  }

  /** Every name of the chord is kept exactly once. */
  lemma {:induction false} UniqueNames(s: seq<Note>)
    ensures var u := UniqueByName(s);
            (forall i, j :: 0 <= i < j < |u| ==> u[i].name != u[j].name)
            && (forall i :: 0 <= i < |s| ==> s[i].name in Names(u))
  {
    if s != [] {
      var p, x := s[..|s| - 1], s[|s| - 1];
      var d := UniqueByName(p);
      UniqueNames(p);
      assert forall i :: 0 <= i < |p| ==> s[i] == p[i];
      if x.name !in Names(d) {
        assert Names(d + [x]) == Names(d) + [x.name];
      }
    }
  }

  /** Positions of names already kept are the same in the chord as in its prefix. */
  lemma FirstsOfPrefix(s: seq<Note>)
    requires s != []
    requires var p := s[..|s| - 1];
             forall k :: 0 <= k < |UniqueByName(p)| ==> 0 <= FirstWithName(p, UniqueByName(p)[k].name)
    ensures var p := s[..|s| - 1];
            forall k :: 0 <= k < |UniqueByName(p)| ==>
              FirstWithName(s, UniqueByName(p)[k].name) == FirstWithName(p, UniqueByName(p)[k].name)
  {
    var p := s[..|s| - 1];
    var d := UniqueByName(p);
    forall k | 0 <= k < |d|
      ensures FirstWithName(s, d[k].name) == FirstWithName(p, d[k].name)
    {
      var r := FirstWithName(p, d[k].name);
      assert s[r] == p[r];
      assert forall j :: 0 <= j < r ==> s[j] == p[j];
      FirstWithNameIs(s, d[k].name, r);
    }
  }

  /** A newly kept note is the first with its name. */
  lemma FirstOfLast(s: seq<Note>)
    requires s != [] && s[|s| - 1].name !in Names(UniqueByName(s[..|s| - 1]))
    ensures FirstWithName(s, s[|s| - 1].name) == |s| - 1
  {
    var p, x := s[..|s| - 1], s[|s| - 1];
    UniqueNames(p);
    forall j | 0 <= j < |s| - 1
      ensures s[j].name != x.name
    {
      assert s[j] == p[j];
      assert p[j].name in Names(UniqueByName(p));
    }
    FirstWithNameIs(s, x.name, |s| - 1);
  }

  /** Each kept note is the first with its name. */
  lemma {:induction false} UniqueFirstIs(s: seq<Note>)
    ensures var u := UniqueByName(s);
            forall k :: 0 <= k < |u| ==> 0 <= FirstWithName(s, u[k].name) && s[FirstWithName(s, u[k].name)] == u[k]
  {
    if s != [] {
      var p := s[..|s| - 1];
      UniqueFirstIs(p);
      FirstsOfPrefix(s);
      if s[|s| - 1].name !in Names(UniqueByName(p)) {
        FirstOfLast(s);
      }
    }
  }

  /** The kept notes keep the chord's order. */
  lemma {:induction false} UniqueInOrder(s: seq<Note>)
    ensures var u := UniqueByName(s);
            forall i, j :: 0 <= i < j < |u| ==> FirstWithName(s, u[i].name) < FirstWithName(s, u[j].name)
  {
    if s != [] {
      var p := s[..|s| - 1];
      UniqueInOrder(p);
      UniqueFirstIs(p);
      FirstsOfPrefix(s);
      if s[|s| - 1].name !in Names(UniqueByName(p)) {
        FirstOfLast(s);
      }
    }
  }

  /** When no name repeats, the loop keeps every note. */
  lemma {:induction false} NoDuplicateNames(s: seq<Note>)
    requires |UniqueByName(s)| == |s|
    ensures UniqueByName(s) == s
  {
    if s != [] {
      var p, x := s[..|s| - 1], s[|s| - 1];
      if x.name !in Names(UniqueByName(p)) {
        NoDuplicateNames(p);
        assert s == p + [x];
      }
    }
  }

  /** One more note of the unique_notes loop. */
  lemma UniqueStep(s: seq<Note>, i: nat)
    requires i < |s|
    ensures UniqueByName(s[..i + 1]) ==
            (if s[i].name in Names(UniqueByName(s[..i])) then UniqueByName(s[..i]) else UniqueByName(s[..i]) + [s[i]])
  {
    assert s[..i + 1][..i] == s[..i];
  }

  /** The interval string __get_interval_string_info builds for notes already
      sorted: the steps between the first notes of each name. */
  function IntervalStringOf(notes: seq<Note>): string
  {
    IntervalString(Steps(Values(UniqueByName(notes))))
  }

  /** The first loop of __get_interval_string_info: the first note of each
      name, in order. */
  method UniqueNotes(ns: seq<Note>) returns (unique: seq<Note>)
    ensures unique == UniqueByName(ns)
  {
    var uniqueNames: seq<string> := [];
    unique := [];
    for i := 0 to |ns|
      invariant unique == UniqueByName(ns[..i])
      invariant uniqueNames == Names(unique)
    {
      UniqueStep(ns, i);
      if ns[i].name !in uniqueNames {
        NamesSnoc(unique, ns[i]);
        unique := unique + [ns[i]];
        uniqueNames := uniqueNames + [ns[i].name];
      }
    }
    assert ns[..|ns|] == ns;
  }

  /** The second loop of __get_interval_string_info: the tokens of the steps
      between neighbouring notes, concatenated. */
  method IntervalStringFor(unique: seq<Note>) returns (intervalString: string)
    ensures intervalString == IntervalString(Steps(Values(unique)))
  {
    var steps := Steps(Values(unique));
    intervalString := "";
    var i := 0;
    while i + 1 < |unique|
      invariant 0 <= i <= |steps|
      invariant intervalString == IntervalString(steps[..i])
    {
      var step := (unique[i + 1].value - unique[i].value) % 12;
      StepAt(unique, i);
      IntervalStringStep(steps, i);
      intervalString := intervalString + Str(step);
      i := i + 1;
    }
    assert steps[..i] == steps;
  }

  /** The step the interval-string loop appends is the list's step. */
  lemma StepAt(unique: seq<Note>, i: nat)
    requires i + 1 < |unique|
    ensures (unique[i + 1].value - unique[i].value) % 12 == Steps(Values(unique))[i]
  {
  }

  /** Keeping one more note keeps one more name. */
  lemma NamesSnoc(s: seq<Note>, n: Note)
    ensures Names(s + [n]) == Names(s) + [n.name]
  {
  }

  /** Where __identify_chord puts the root: the table's root index itself when
      no name repeats, else the first note named like that distinct note
      (`fallback`, the index already held, if the search found none). */
  function RootIndexOf(notes: seq<Note>, k: nat, fallback: int): int
    requires k < |UniqueByName(notes)|
  {
    var u := UniqueByName(notes);
    if |u| == |notes| then k
    else
      var f := FirstWithName(notes, u[k].name);
      if f >= 0 then f else fallback
  }

  /** Both branches of the root search agree: the root is the first note
      bearing the name of the distinct note the table picks, and it is that
      note; the search never falls back. */
  lemma RootRecovery(notes: seq<Note>, k: nat, fallback: int)
    requires k < |UniqueByName(notes)|
    ensures var u := UniqueByName(notes);
            var r := RootIndexOf(notes, k, fallback);
            r == FirstWithName(notes, u[k].name) && 0 <= r < |notes| && notes[r] == u[k]
  {
    var u := UniqueByName(notes);
    UniqueFirstIs(notes);
    if |u| == |notes| {
      NoDuplicateNames(notes);
      UniqueNames(notes);
      var f := FirstWithName(notes, u[k].name);
      assert notes[f] == u[k] && f < |u|;
      assert u[f].name == u[k].name;
    }
  }

  /** The root search of __identify_chord: the table's root index when no name
      repeats, else a scan for the first note named like that distinct note. */
  method FindRoot(notes: seq<Note>, unique: seq<Note>, k: nat, fallback: int) returns (root: int)
    requires unique == UniqueByName(notes) && k < |unique|
    ensures root == RootIndexOf(notes, k, fallback)
  {
    if |unique| == |notes| {
      return k;
    }
    var rootName := unique[k].name;
    root := fallback;
    var i := 0;
    while i < |notes|
      invariant 0 <= i <= |notes|
      invariant forall j :: 0 <= j < i ==> notes[j].name != rootName
    {
      if notes[i].name == rootName {
        FirstWithNameIs(notes, rootName, i);
        root := i;
        break;
      }
      i := i + 1;
    }
  }

  /** Notes as create_note builds them. */
  predicate AllCreated(ns: seq<Note>)
  {
    forall i :: 0 <= i < |ns| ==> MusicNote.WellFormed(ns[i])
  }

  /** Sorting keeps the notes, so it keeps them created. */
  lemma SortedCreated(ns: seq<Note>)
    requires AllCreated(ns)
    ensures AllCreated(SortBy(ns, ValueOf))
  {
    var r := SortBy(ns, ValueOf);
    forall i | 0 <= i < |r|
      ensures MusicNote.WellFormed(r[i])
    {
      assert r[i] in multiset(r);
      assert r[i] in multiset(ns);
    }
  }

  // ---------------------------------------------------------------------
  // ChordFactory.parse_chord_string / parse_chord_dict / create_chord input

  /** What create_chord is handed: a string, a dict, or anything else. */
  datatype ChordInput = Text(text: string) | Fields(fields: map<string, string>) | OtherValue

  /** The chord_data dict: the notes when valid, the message otherwise. */
  datatype ChordData = ChordNotes(notes: seq<Note>) | ChordError(error: string)

  const NotEnoughNotes := "Not enough notes provided for the chord."
  const InvalidNotes := "One or more notes provided were invalid."

  /** The note each comma-separated token creates, surrounding whitespace stripped. */
  function TokenNotes(tokens: seq<string>): (r: seq<Outcome<Note>>)
    ensures |r| == |tokens| && forall i :: 0 <= i < |tokens| ==> r[i] == MusicNote.CreateNote(Strip(tokens[i]))
  {
    seq(|tokens|, i requires 0 <= i < |tokens| => MusicNote.CreateNote(Strip(tokens[i])))
  }

  /** parse_chord_string: fewer than three tokens is too few notes; otherwise
      every token must create a note, and the notes come in input order. */
  function ParseChordString(s: string): (r: ChordData)
    ensures |Split(s, ',')| < 3 ==> r == ChordError(NotEnoughNotes)
    ensures |Split(s, ',')| >= 3 ==> (r.ChordNotes? <==> Collect(TokenNotes(Split(s, ','))).Ok?)
    ensures |Split(s, ',')| >= 3 && r.ChordError? ==> r.error == InvalidNotes
    ensures r.ChordNotes? ==> Collect(TokenNotes(Split(s, ','))) == Ok(r.notes)
  {
    var tokens := Split(s, ',');
    if |tokens| < 3 then ChordError(NotEnoughNotes)
    else
      match Collect(TokenNotes(tokens))
        case Ok(notes) => ChordNotes(notes)
        case Raise(_) => ChordError(InvalidNotes)
  }

  /** A chord string is accepted exactly when it has three or more tokens and
      each, stripped, is a note; the notes are the tokens' notes in order. */
  lemma ParsedNotes(s: string)
    ensures var tokens := Split(s, ',');
            ParseChordString(s).ChordNotes? <==>
              (|tokens| >= 3 && forall i :: 0 <= i < |tokens| ==> MusicNote.CreateNote(Strip(tokens[i])).Ok?)
    ensures var tokens := Split(s, ',');
            ParseChordString(s).ChordNotes? ==>
              (|ParseChordString(s).notes| == |tokens|
               && forall i :: 0 <= i < |tokens| ==> MusicNote.CreateNote(Strip(tokens[i])) == Ok(ParseChordString(s).notes[i]))
  {
    var tokens := Split(s, ',');
    var results := TokenNotes(tokens);
    assert forall i :: 0 <= i < |tokens| ==> results[i] == MusicNote.CreateNote(Strip(tokens[i]));
  }

  /** parse_chord_string, with its try-block loop over the tokens. */
  method ParseChordStringScan(s: string) returns (r: ChordData)
    ensures r == ParseChordString(s)
  {
    var tokens := Split(s, ',');
    if |tokens| < 3 {
      return ChordError(NotEnoughNotes);
    }
    var results := TokenNotes(tokens);
    var notes: seq<Note> := [];
    var i := 0;
    while i < |tokens|
      invariant 0 <= i <= |tokens|
      invariant Collect(results[..i]) == Ok(notes)
    {
      var note := MusicNote.CreateNote(Strip(tokens[i]));
      assert note == results[i];
      CollectLoopStep(results, i, notes);
      if note.Raise? {
        return ChordError(InvalidNotes);
      }
      notes := notes + [note.value];
      i := i + 1;
    }
    assert results[..i] == results;
    r := ChordNotes(notes);
  }

  // ---------------------------------------------------------------------
  // Chord.__repr__

  /** One note as __repr__ prints it: `note.name + str(note.octave)`. */
  function Printed(n: Note): string
  {
    n.name + StrInt(n.octave)
  }

  /** The loop of __repr__: each printed note followed by ", ". */
  function Entries(ns: seq<Note>): (r: string)
    ensures ns != [] ==> |r| >= 2
  {
    if ns == [] then "" else Printed(ns[0]) + ", " + Entries(ns[1..])
  }

  /** One more pass of the __repr__ loop. */
  lemma {:induction false} EntriesSnoc(ns: seq<Note>, n: Note)
    ensures Entries(ns + [n]) == Entries(ns) + Printed(n) + ", "
  {
    if ns == [] {
      assert Entries([n]) == Printed(n) + ", " + Entries([]);
    } else {
      assert (ns + [n])[1..] == ns[1..] + [n];
      EntriesSnoc(ns[1..], n);
    }
  }

  /** The entries of one more note of a chord. */
  lemma EntriesStep(ns: seq<Note>, i: nat)
    requires i < |ns|
    ensures Entries(ns[..i + 1]) == Entries(ns[..i]) + Printed(ns[i]) + ", "
  {
    assert ns[..i + 1] == ns[..i] + [ns[i]];
    EntriesSnoc(ns[..i], ns[i]);
  }

  /** __repr__: the entries without the final ", ". */
  function ReprOf(ns: seq<Note>): string
  {
    DropLast(Entries(ns), 2)
  }

  /** The loop of __repr__: each note printed and followed by ", ", the last
      separator then dropped. */
  method JoinPrinted(ns: seq<Note>) returns (r: string)
    ensures r == ReprOf(ns)
  {
    var chordString := "";
    for i := 0 to |ns|
      invariant chordString == Entries(ns[..i])
    {
      EntriesStep(ns, i);
      chordString := chordString + Printed(ns[i]) + ", ";
    }
    assert ns[..|ns|] == ns;
    r := DropLast(chordString, 2);
  }

  /** The representation of two or more notes after a prefix, cut at the
      comma that follows the first note. */
  lemma ReprAfterFirst(p: string, ns: seq<Note>)
    requires |ns| > 1
    ensures p + ReprOf(ns) == (p + Printed(ns[0])) + [','] + (" " + ReprOf(ns[1..]))
  {
    ReprCons(ns);
    CommaRegroup(p, Printed(ns[0]), ReprOf(ns[1..]));
  }

  lemma CommaRegroup(p: string, x: string, y: string)
    ensures p + (x + ", " + y) == (p + x) + [','] + (" " + y)
  {
    assert ", " == [','] + " ";
  }

  lemma ReprCons(ns: seq<Note>)
    requires ns != []
    ensures |ns| == 1 ==> ReprOf(ns) == Printed(ns[0])
    ensures |ns| > 1 ==> ReprOf(ns) == Printed(ns[0]) + ", " + ReprOf(ns[1..])
  {
    var e := Entries(ns[1..]);
    assert Entries(ns) == Printed(ns[0]) + ", " + e;
    if |ns| == 1 {
      assert e == "";
    } else {
      assert e == e[..|e| - 2] + e[|e| - 2..];
    }
  }

  /** The tokens a printed chord splits into: the first note, then each
      further note after a space. */
  lemma {:induction false} SplitRepr(p: string, ns: seq<Note>)
    requires ',' !in p && ns != []
    requires forall i :: 0 <= i < |ns| ==> MusicNote.WellFormed(ns[i])
    decreases |ns|
    ensures var tokens := Split(p + ReprOf(ns), ',');
            |tokens| == |ns| && tokens[0] == p + Printed(ns[0])
            && forall i :: 1 <= i < |ns| ==> tokens[i] == " " + Printed(ns[i])
  {
    var a := p + Printed(ns[0]);
    NoComma(ns[0]);
    assert ',' !in a;
    ReprCons(ns);
    if |ns| == 1 {
      SplitNoSeparator(a, ',');
    } else {
      var tail := " " + ReprOf(ns[1..]);
      ReprAfterFirst(p, ns);
      SplitAfter(a, tail);
      SplitRepr(" ", ns[1..]);
      TokensCons(a, Split(tail, ','), ns);
    }
  }

  /** The first token followed by the tokens of the remaining notes. */
  lemma TokensCons(a: string, t: seq<string>, ns: seq<Note>)
    requires |ns| >= 2 && |t| == |ns| - 1
    requires t[0] == " " + Printed(ns[1])
    requires forall i :: 1 <= i < |ns| - 1 ==> t[i] == " " + Printed(ns[1..][i])
    ensures var tokens := [a] + t;
            |tokens| == |ns| && tokens[0] == a
            && forall i :: 1 <= i < |ns| ==> tokens[i] == " " + Printed(ns[i])
  {
    forall i | 1 <= i < |ns|
      ensures ([a] + t)[i] == " " + Printed(ns[i])
    {
      assert ([a] + t)[i] == t[i - 1];
      if i > 1 {
        assert ns[1..][i - 1] == ns[i];
      }
    }
  }

  /** A printed note holds no comma. */
  lemma NoComma(n: Note)
    requires MusicNote.WellFormed(n)
    ensures ',' !in Printed(n)
  {
    Spelling.NoteIndicesAreSpellings(n.name);
    Spelling.SpellingChars(n.name);
  }

  /** Splitting at the first comma. */
  lemma SplitAfter(a: string, rest: string)
    requires ',' !in a
    ensures Split(a + [','] + rest, ',') == [a] + Split(rest, ',')
  {
    var s := a + [','] + rest;
    assert s[..|a|] == a;
    FindCharAt(s, ',', |a|);
    assert s[..|a|] == a && s[|a| + 1..] == rest;
  }

  /** The first occurrence is the one no earlier character matches. */
  lemma {:induction false} FindCharAt(s: string, c: char, j: nat)
    requires j < |s| && s[j] == c && c !in s[..j]
    ensures FindChar(s, c) == j
  {
    if j > 0 {
      assert s[0] == s[..j][0];
      assert s[1..][..j - 1] == s[1..j];
      assert s[1..j] == s[..j][1..];
      FindCharAt(s[1..], c, j - 1);
    }
  }

  /** A printed note with a space before it strips back to the printed note. */
  lemma StripPrinted(n: Note, p: string)
    requires MusicNote.WellFormed(n) && (p == "" || p == " ")
    ensures Strip(p + Printed(n)) == Printed(n)
  {
    var t := Printed(n);
    PrintedEnds(n);
    StripUnpadded(t);
    if p == " " {
      assert (p + t)[1..] == t;
      assert TrimLeft(p + t) == TrimLeft(t);
    }
  }

  /** A printed note begins with a letter and ends with a digit. */
  lemma PrintedEnds(n: Note)
    requires MusicNote.WellFormed(n)
    ensures var t := Printed(n); |t| > 0 && !IsSpace(t[0]) && !IsSpace(t[|t| - 1])
  {
    Spelling.NoteIndicesAreSpellings(n.name);
    Spelling.SpellingChars(n.name);
    var t := Printed(n);
    assert t[0] == n.name[0];
    assert t[|t| - 1] == DigitChar(n.octave);
  }

  /** Creating the note a created note prints gives that note back. */
  lemma CreatePrinted(n: Note)
    requires MusicNote.WellFormed(n)
    ensures MusicNote.CreateNote(Printed(n)) == Ok(n)
  {
    MusicNote.ParseShown(n.name, n.octave, []);
    assert Show(n.name, n.octave) + [] == Printed(n);
  }

  /** Each token of a printed chord creates its note. */
  lemma ReprTokenNotes(ns: seq<Note>)
    requires ns != [] && AllCreated(ns)
    ensures var results := TokenNotes(Split(ReprOf(ns), ','));
            |results| == |ns| && forall i :: 0 <= i < |ns| ==> results[i] == Ok(ns[i])
  {
    SplitRepr("", ns);
    assert "" + ReprOf(ns) == ReprOf(ns);
    var tokens := Split(ReprOf(ns), ',');
    forall i | 0 <= i < |ns|
      ensures MusicNote.CreateNote(Strip(tokens[i])) == Ok(ns[i])
    {
      var p := if i == 0 then "" else " ";
      assert tokens[i] == p + Printed(ns[i]);
      StripPrinted(ns[i], p);
      CreatePrinted(ns[i]);
    }
  }

  /** __repr__ is there to re-create the chord: parsing the printed notes of
      three or more created notes gives those notes back. */
  lemma ReprParses(ns: seq<Note>)
    requires |ns| >= 3 && AllCreated(ns)
    ensures ParseChordString(ReprOf(ns)) == ChordNotes(ns)
  {
    ReprTokenNotes(ns);
    CollectAllOk(TokenNotes(Split(ReprOf(ns), ',')), ns);
  }

  /** parse_chord_dict and the type test of create_chord: the notes string of
      a dict (KeyError without one), ValueError with the factory's own message
      for any other kind of value. */
  function ChordDataFor(input: ChordInput, badFormat: string): (r: Outcome<ChordData>)
    ensures input.Text? ==> r == Ok(ParseChordString(input.text))
    ensures input.Fields? ==> (r.Ok? <==> "notes" in input.fields)
    ensures input.Fields? && r.Raise? ==> r.error == KeyError
    ensures input.Fields? && r.Ok? ==> r == Ok(ParseChordString(input.fields["notes"]))
    ensures input.OtherValue? ==> r == Raise(ValueError(badFormat))
  {
    match input
      case Text(text) => Ok(ParseChordString(text))
      case Fields(fields) =>
        if "notes" in fields then Ok(ParseChordString(fields["notes"])) else Raise(KeyError)
      case OtherValue => Raise(ValueError(badFormat))
  }

  /** The notes a successful parse gives are created notes. */
  lemma CreatedNotes(input: ChordInput, badFormat: string)
    requires ChordDataFor(input, badFormat).Ok? && ChordDataFor(input, badFormat).value.ChordNotes?
    ensures AllCreated(ChordDataFor(input, badFormat).value.notes)
  {
    var text := if input.Text? then input.text else input.fields["notes"];
    ParsedNotes(text);
  }

  // ---------------------------------------------------------------------
  // create_chord over a list of inputs, skipping the ones it refuses

  /** The notes of the chord create_chord builds from an input (sorted by
      value, three or more created notes), or what it raises: the parse's
      message as a ValueError, or the error of the input's type test. */
  function ChordFor(input: ChordInput, badFormat: string): (r: Outcome<seq<Note>>)
    ensures r.Ok? <==> ChordDataFor(input, badFormat).Ok? && ChordDataFor(input, badFormat).value.ChordNotes?
    ensures r.Ok? ==> r.value == SortBy(ChordDataFor(input, badFormat).value.notes, ValueOf)
    ensures r.Ok? ==> |r.value| >= 3 && AllCreated(r.value)
    ensures ChordDataFor(input, badFormat).Raise? ==> r == Raise(ChordDataFor(input, badFormat).error)
    ensures ChordDataFor(input, badFormat).Ok? && ChordDataFor(input, badFormat).value.ChordError? ==>
              r == Raise(ValueError(ChordDataFor(input, badFormat).value.error))
  {
    match ChordDataFor(input, badFormat)
    case Raise(e) => Raise(e)
    case Ok(ChordError(message)) => Raise(ValueError(message))
    case Ok(ChordNotes(ns)) =>
      CreatedNotes(input, badFormat);
      ParsedNotes(if input.Text? then input.text else input.fields["notes"]);
      SortedCreated(ns);
      assert |SortBy(ns, ValueOf)| == |multiset(ns)|;
      Ok(SortBy(ns, ValueOf))
  }

  /** What create_chord gives for each input, in order. */
  function ChordResults(inputs: seq<ChordInput>, badFormat: string): (r: seq<Outcome<seq<Note>>>)
    ensures |r| == |inputs| && forall k :: 0 <= k < |inputs| ==> r[k] == ChordFor(inputs[k], badFormat)
  {
    seq(|inputs|, k requires 0 <= k < |inputs| => ChordFor(inputs[k], badFormat))
  }

  /** The inputs of two lists, one after the other. */
  lemma ChordResultsAppend(a: seq<ChordInput>, b: seq<ChordInput>, badFormat: string)
    ensures ChordResults(a + b, badFormat) == ChordResults(a, badFormat) + ChordResults(b, badFormat)
  {
    var l, r := ChordResults(a + b, badFormat), ChordResults(a, badFormat) + ChordResults(b, badFormat);
    forall k | 0 <= k < |l|
      ensures l[k] == r[k]
    {
      if k < |a| {
        assert (a + b)[k] == a[k];
      } else {
        assert (a + b)[k] == b[k - |a|];
      }
    }
  }

  /** Every chord the analysis loop keeps has three or more created notes. */
  lemma KeptCreated(inputs: seq<ChordInput>, badFormat: string)
    ensures forall ns :: ns in Oks(ChordResults(inputs, badFormat)) ==> |ns| >= 3 && AllCreated(ns) && SortedBy(ns, ValueOf)
  {
  }

  // ---------------------------------------------------------------------
  // The shape of analyze_progression in both applications

  /** What analyze_progression answers: the NO_VALID_CHORDS error, or one
      entry per chord. */
  datatype Answer<E> = NoValidChords | Chords(entries: seq<E>)

  /** analyze_progression around its analysis of the chords kept: given what
      create_chord gives for each input (None for no input), NO_VALID_CHORDS
      for no or an empty input and when no chord is kept, the analysis of the
      chords kept otherwise, and the first error other than a ValueError. */
  function AnswerWith<E>(results: Option<seq<Outcome<seq<Note>>>>, analyse: seq<seq<Note>> -> Outcome<Answer<E>>)
    : Outcome<Answer<E>>
  {
    if results.None? || results.value == [] then Ok(NoValidChords)
    else
      var kept :- SkipValueErrors(results.value);
      if kept == [] then Ok(NoValidChords) else analyse(kept)
  }

  /** NO_VALID_CHORDS when there is no input or every input is refused with
      a ValueError; the first other error create_chord raises; otherwise the
      analysis of exactly the chords created, in input order. */
  lemma AnswerMeaning<E>(results: Option<seq<Outcome<seq<Note>>>>, analyse: seq<seq<Note>> -> Outcome<Answer<E>>)
    ensures results.None? || (forall k :: 0 <= k < |results.value| ==> IsValueError(results.value[k])) ==>
              AnswerWith(results, analyse) == Ok(NoValidChords)
    ensures results.Some? && SkipValueErrors(results.value).Raise? ==>
              AnswerWith(results, analyse) == Raise(SkipValueErrors(results.value).error)
    ensures results.Some? && SkipValueErrors(results.value).Ok? && (exists k :: 0 <= k < |results.value| && results.value[k].Ok?) ==>
              AnswerWith(results, analyse) == analyse(Oks(results.value))
  {
    if results.Some? {
      SkipValueErrorsEmpty(results.value);
      SkipValueErrorsMeaning(results.value);
    }
  }

  /** A result refused with a ValueError changes nothing, wherever it stands. */
  lemma AnswerSkips<E>(a: seq<Outcome<seq<Note>>>, x: Outcome<seq<Note>>, b: seq<Outcome<seq<Note>>>,
                       analyse: seq<seq<Note>> -> Outcome<Answer<E>>)
    requires IsValueError(x)
    ensures AnswerWith(Some(a + [x] + b), analyse) == AnswerWith(Some(a + b), analyse)
  {
    SkipValueErrorsDrop(a, x, b);
    if a + b == [] {
      assert a + [x] + b == [x] + [];
    }
  }
}
