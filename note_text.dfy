// What the three note modules share: a note token is split at its first
// decimal digit into a name and a one-digit octave, and a parsed note is
// either a name with an octave or the ('invalid', -1) pair.
module NoteText {
  import opened Py
  import opened Spelling

  /** The pair parse_note returns: a name and an octave, or ('invalid', -1). */
  datatype ParsedNote = Parsed(name: string, octave: int) | Invalid

  /** A Note object of the web and API versions: its spelling, octave, value on
      the keyboard and pitch class. */
  datatype Note = Note(name: string, octave: int, value: int, index: int)

  /** The value of a decimal digit character, `int(c)`. */
  function DigitValue(c: char): (d: int)
    requires IsDigit(c)
    ensures 0 <= d <= 9
  {
    c as int - '0' as int
  }

  /** Where the token's first digit is, or -1 when it has none. */
  function FirstDigit(s: string): (j: int)
    ensures -1 <= j < |s|
    ensures j >= 0 ==> IsDigit(s[j])
    ensures forall k :: 0 <= k < |s| && (j < 0 || k < j) ==> !IsDigit(s[k])
  {
    if s == [] then -1
    else if IsDigit(s[0]) then 0
    else
      var j := FirstDigit(s[1..]);
      if j < 0 then -1 else j + 1
  }

  /** The first digit is the one the left-to-right search stops at. */
  lemma FirstDigitIsFirst(s: string, j: int)
    requires 0 <= j < |s| && IsDigit(s[j])
    requires forall k :: 0 <= k < j ==> !IsDigit(s[k])
    ensures FirstDigit(s) == j
  {
  }

  /** `str(note)`: the name followed by the octave. */
  function Show(name: string, octave: nat): string
  {
    name + Str(octave)
  }

  /** A spelling holds no digit. */
  lemma SpellingHasNoDigit(name: string)
    requires IsSpelling(name)
    ensures forall k :: 0 <= k < |name| ==> !IsDigit(name[k])
  {
    SpellingChars(name);
  }

  /** In a spelling followed by a one-digit octave and anything else, the first
      digit is the octave. */
  lemma FirstDigitOfShown(name: string, octave: nat, rest: string)
    requires IsSpelling(name) && octave < 10
    ensures var s := Show(name, octave) + rest;
            FirstDigit(s) == |name| && s[..|name|] == name && DigitValue(s[|name|]) == octave
  {
    var s := Show(name, octave) + rest;
    SpellingHasNoDigit(name);
    assert Str(octave) == [DigitChar(octave)];
    assert s[|name|] == DigitChar(octave);
    forall k | 0 <= k < |name|
      ensures !IsDigit(s[k])
    {
      assert s[k] == name[k];
    }
    FirstDigitIsFirst(s, |name|);
    assert s[..|name|] == name;
  }
}
