// How the chord progressions of the web and command-line versions place and
// remove chords in their list of chords (add_chord, remove_chord). Both
// versions share this code word for word.
module ProgressionLists {
  import opened Py
  import opened ChordNotes

  /** add_chord's placement: `if index:` makes an index of 0 (or none) append,
      and any other index goes to list.insert. */
  function Placed<T>(s: seq<T>, index: int, x: T): (r: seq<T>)
    ensures |r| == |s| + 1 && multiset(r) == multiset(s) + multiset{x}
    ensures r[PlacedAt(|s|, index)] == x
    ensures r[..PlacedAt(|s|, index)] == s[..PlacedAt(|s|, index)]
    ensures r[PlacedAt(|s|, index) + 1..] == s[PlacedAt(|s|, index)..]
  {
    if index != 0 then Insert(s, index, x) else s + [x]
  }

  /** Where Placed puts the new element. */
  function PlacedAt(n: nat, index: int): (k: nat)
    ensures k <= n
    ensures index == 0 ==> k == n
  {
    if index != 0 then InsertPosition(n, index) else n
  }

  /** remove_chord as written: `index in [0, len - 1]` is a membership test on
      a two-element list, so only the first and the last chord can go. */
  function RemoveAsWritten<T>(s: seq<T>, index: Option<int>): (r: Outcome<seq<T>>)
    ensures r.Ok? <==> index.Some? && |s| > 0 && (index.value == 0 || index.value == |s| - 1)
    ensures r.Raise? ==> r.error == IndexError
    ensures r.Ok? ==> 0 <= index.value < |s| && r.value == s[..index.value] + s[index.value + 1..]
  {
    if index.Some? && (index.value == 0 || index.value == |s| - 1) then Pop(s, index.value)
    else Raise(IndexError)
  }

  /** remove_chord read as a range test, the reading its error message
      suggests: any position from 0 to len - 1. */
  function Remove<T>(s: seq<T>, index: Option<int>): (r: Outcome<seq<T>>)
    ensures r.Ok? <==> index.Some? && 0 <= index.value < |s|
    ensures r.Raise? ==> r.error == IndexError
    ensures r.Ok? ==> |r.value| + 1 == |s|
  {
    if index.Some? && 0 <= index.value < |s| then Pop(s, index.value)
    else Raise(IndexError)
  }

  /** Removing the element just placed gives the list back. */
  lemma RemovePlaced<T>(s: seq<T>, index: int, x: T)
    ensures Remove(Placed(s, index, x), Some(PlacedAt(|s|, index))) == Ok(s)
  {
    var r := Placed(s, index, x);
    var k := PlacedAt(|s|, index);
    assert r[..k] + r[k + 1..] == s[..k] + s[k..];
    assert s[..k] + s[k..] == s;
  }

  /** An added element can be removed again exactly when add_chord put it
      first or last, and removing it then gives the list back. */
  lemma RemovePlacedAsWritten<T>(s: seq<T>, index: int, x: T)
    ensures var k := PlacedAt(|s|, index);
            RemoveAsWritten(Placed(s, index, x), Some(k)).Ok? <==> k == 0 || k == |s|
    ensures var k := PlacedAt(|s|, index);
            (k == 0 || k == |s|) ==> RemoveAsWritten(Placed(s, index, x), Some(k)) == Ok(s)
  {
    var r := Placed(s, index, x);
    var k := PlacedAt(|s|, index);
    assert r[..k] + r[k + 1..] == s[..k] + s[k..];
    assert s[..k] + s[k..] == s;
  }

  /** An element appended by add_chord (index 0 or none) can always be
      removed again from the end. */
  lemma AppendedRemovable<T>(s: seq<T>, x: T)
    ensures RemoveAsWritten(Placed(s, 0, x), Some(|s|)) == Ok(s)
  {
    RemovePlacedAsWritten(s, 0, x);
  }

  /** Removal keeps the other elements in their order. */
  lemma RemoveKeepsOthers<T>(s: seq<T>, k: nat)
    requires k < |s|
    ensures Remove(s, Some(k)).Ok?
    ensures forall i :: 0 <= i < k ==> Remove(s, Some(k)).value[i] == s[i]
    ensures forall i :: k < i < |s| ==> Remove(s, Some(k)).value[i - 1] == s[i]
  {
  }

  /** At the two ends, the test as written and the range test agree. */
  lemma RemoveAtEndsAgree<T>(s: seq<T>, index: Option<int>)
    requires index.Some? && (index.value == 0 || index.value == |s| - 1)
    ensures RemoveAsWritten(s, index) == Remove(s, index)
  {
  }

  /** The middle chord of three cannot be removed as written, although it is
      in range. */
  lemma MiddleNotRemovable<T>(a: T, b: T, c: T)
    ensures RemoveAsWritten([a, b, c], Some(1)) == Raise(IndexError)
    ensures Remove([a, b, c], Some(1)) == Ok([a, c])
  {
    assert [a, b, c][..1] + [a, b, c][2..] == [a, c];
  }

  /** What add_chord raises for an input create_chord refuses. The handler for
      ValueError builds its message from `new_chord`, which was never assigned,
      so a ValueError becomes an UnboundLocalError; a KeyError for a
      dictionary without "notes" passes through. None when the chord is created. */
  function AddError(input: ChordInput, badFormat: string): (r: Option<Exception>)
    ensures r.None? <==> ChordDataFor(input, badFormat).Ok? && ChordDataFor(input, badFormat).value.ChordNotes?
    ensures r.Some? ==> r.value == UnboundLocalError || r.value == KeyError
    ensures r == Some(KeyError) <==> input.Fields? && "notes" !in input.fields
  {
    var data := ChordDataFor(input, badFormat);
    if data.Raise? then (if data.error.ValueError? then Some(UnboundLocalError) else Some(data.error))
    else if data.value.ChordError? then Some(UnboundLocalError)
    else None
  }
}
