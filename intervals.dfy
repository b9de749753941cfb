// The interval strings the three chord modules look up: a chord's notes, read
// from the bass upwards, give one interval token (0-11 semitones, written in
// decimal) per adjacent pair, and the tokens are concatenated without
// separators. This module holds the record every table entry carries and the
// facts about such strings that bound the root index a record may name.
module IntervalCodes {
  import opened Py

  /** The chord qualities the tables name; QualityText is the suffix each
      one is written with in a chord name such as "F#m7". */
  datatype Quality =
    | Major | Minor | Diminished | Augmented
    | Add5 | Add5Major7 | Sus2 | Sus4 | Flat5
    | Major7 | Dominant7 | Minor7 | HalfDiminished7 | Diminished7
    | Dominant7Flat5 | MinorMajor7 | UnknownQuality

  function QualityText(q: Quality): string
  {
    match q
      case Major => ""
      case Minor => "m"
      case Diminished => "o"
      case Augmented => "+"
      case Add5 => "add5"
      case Add5Major7 => "add5/maj7"
      case Sus2 => "sus2"
      case Sus4 => "sus4"
      case Flat5 => "b5"
      case Major7 => "maj7"
      case Dominant7 => "7"
      case Minor7 => "m7"
      case HalfDiminished7 => "ø"
      case Diminished7 => "o7"
      case Dominant7Flat5 => "7b5"
      case MinorMajor7 => "mM7"
      case UnknownQuality => "unknown"
  }

  /** Different qualities are written differently, so a quality can be compared
      through its text as the code does. */
  lemma QualityTextInjective(p: Quality, q: Quality)
    ensures QualityText(p) == QualityText(q) <==> p == q
  {
  }

  /** One INTERVAL_STRINGS record: which of the distinct notes is the root,
      the chord quality, and the inversion (0 = root position). */
  datatype ChordInfo = ChordInfo(rootIndex: nat, quality: Quality, position: int)

  /** The qualities whose numeral takes a triad inversion figure ('', 'm', 'o', '+'). */
  predicate IsTriadQuality(q: Quality)
  {
    q == Major || q == Minor || q == Diminished || q == Augmented
  }

  /** The qualities whose numeral takes a seventh inversion figure ('7', 'm7', 'maj7', 'ø', 'o7'). */
  predicate IsSeventhQuality(q: Quality)
  {
    q == Dominant7 || q == Minor7 || q == Major7 || q == HalfDiminished7 || q == Diminished7
  }

  /** The concatenation of the decimal interval tokens. */
  function IntervalString(intervals: seq<nat>): (s: string)
    ensures |intervals| > 0 ==> |s| > 0
    ensures forall k :: 0 <= k < |s| ==> IsDigit(s[k])
  {
    if intervals == [] then "" else Str(intervals[0]) + IntervalString(intervals[1..])
  }

  predicate IsTwoDigitToken(s: string)
  {
    |s| >= 2 && s[0] == '1' && (s[1] == '0' || s[1] == '1')
  }

  /** The fewest tokens in 0..11 that can be concatenated to give s (every
      character on its own, or "10"/"11" taken together). */
  function MinTokens(s: string): nat
    decreases |s|
  {
    if s == [] then 0
    else if IsTwoDigitToken(s) then
      var a := 1 + MinTokens(s[1..]);
      var b := 1 + MinTokens(s[2..]);
      if a < b then a else b
    else 1 + MinTokens(s[1..])
  }

  /** A string made of k interval tokens splits into at most k tokens. */
  lemma {:induction false} MinTokensOfIntervals(intervals: seq<nat>)
    requires forall k :: 0 <= k < |intervals| ==> intervals[k] < 12
    ensures MinTokens(IntervalString(intervals)) <= |intervals|
  {
    if intervals != [] {
      var v, rest := intervals[0], intervals[1..];
      var t := IntervalString(rest);
      MinTokensOfIntervals(rest);
      assert IntervalString(intervals) == Str(v) + t;
      if v < 10 {
        var s := Str(v) + t;
        assert s[1..] == t;
      } else {
        var s := Str(v) + t;
        assert Str(v) == Str(1) + [DigitChar(v % 10)];
        assert s[0] == '1' && (s[1] == '0' || s[1] == '1');
        assert s[2..] == t;
      }
    }
  }

  /** Every token is at most two characters long. */
  lemma {:induction false} MinTokensLowerBound(s: string)
    ensures 2 * MinTokens(s) >= |s|
    decreases |s|
  {
    if s != [] {
      MinTokensLowerBound(s[1..]);
      if IsTwoDigitToken(s) { MinTokensLowerBound(s[2..]); }
    }
  }

  /** A cheap sufficient condition, checked entry by entry in the tables, for a
      root index to name one of the distinct notes the string came from. */
  predicate RootFits(s: string, root: nat)
  {
    root <= 1
    || (root == 2 && |s| >= 2 && !(|s| == 2 && IsTwoDigitToken(s)))
    || (root == 3 && |s| == 3 && !IsTwoDigitToken(s) && !IsTwoDigitToken(s[1..]))
  }

  lemma RootFitsTokens(s: string, root: nat)
    requires s != [] && RootFits(s, root)
    ensures root <= MinTokens(s)
  {
    MinTokensLowerBound(s);
    if root == 3 {
      assert MinTokens(s) == 1 + MinTokens(s[1..]);
      assert MinTokens(s[1..]) == 1 + MinTokens(s[1..][1..]);
      assert s[1..][1..] != [];
    } else if root == 2 && |s| == 2 {
      assert MinTokens(s) == 1 + MinTokens(s[1..]);
      assert s[1..] != [];
    }
  }
}
