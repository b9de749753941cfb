// The fragments of Python's runtime behaviour that the harmony engine relies
// on: raised exceptions, list indexing with negative positions, and the str
// methods the code calls (split, strip, lower, in, replace, str() of a small
// integer). Only the ASCII part of the case and whitespace rules is modelled.
module Py {

  /** The exceptions the modelled code can raise, built-in or its own. */
  datatype Exception =
    | IndexError
    | KeyError
    | TypeError
    | UnboundLocalError
    | ValueError(message: string)
    | InvalidNoteError(token: string)
    | InvalidChordError(message: string)

  /** The value of a Python expression: either a value or a raised exception. */
  datatype Outcome<+T> = Ok(value: T) | Raise(error: Exception)
  {
    predicate IsFailure() { Raise? }

    function PropagateFailure<U>(): Outcome<U>
      requires Raise?
    {
      Raise(error)
    }

    function Extract(): T
      requires Ok?
    {
      value
    }
  }

  datatype Option<+T> = None | Some(value: T)

  /** Python accepts list positions -len..len-1; negatives count from the end. */
  predicate ValidPos(n: int, i: int) { -n <= i < n }

  function Normalise(n: int, i: int): (k: nat)
    requires ValidPos(n, i)
    ensures k < n
    ensures i >= 0 ==> k == i
    ensures i < 0 ==> k + (-i) == n
  {
    if i < 0 then n + i else i
  }

  /** `s[i]` for a position Python accepts. */
  function At<T>(s: seq<T>, i: int): T
    requires ValidPos(|s|, i)
  {
    s[Normalise(|s|, i)]
  }

  /** `s[i]` for any integer: IndexError outside -len..len-1. */
  function Index<T>(s: seq<T>, i: int): (r: Outcome<T>)
    ensures r.Ok? <==> ValidPos(|s|, i)
    ensures r.Raise? ==> r.error == IndexError
    ensures 0 <= i < |s| ==> r == Ok(s[i])
    ensures -|s| <= i < 0 ==> r == Ok(s[|s| + i])
  {
    if ValidPos(|s|, i) then Ok(At(s, i)) else Raise(IndexError)
  }

  // ---------------------------------------------------------------------
  // Characters

  predicate IsDigit(c: char) { '0' <= c <= '9' }

  predicate IsUpper(c: char) { 'A' <= c <= 'Z' }

  predicate IsLowerLetter(c: char) { 'a' <= c <= 'z' }

  function UpperChar(c: char): (u: char)
    ensures IsLowerLetter(c) ==> IsUpper(u)
    ensures !IsLowerLetter(c) ==> u == c
  {
    if IsLowerLetter(c) then c - 'a' as char + 'A' as char else c
  }

  function LowerChar(c: char): (l: char)
    ensures IsUpper(c) ==> IsLowerLetter(l)
    ensures !IsUpper(c) ==> l == c
  {
    if IsUpper(c) then c - 'A' as char + 'a' as char else c
  }

  /** Whitespace as `str.strip()` with no argument removes it (ASCII part). */
  predicate IsSpace(c: char) {
    c == ' ' || c == '\t' || c == '\n' || c == '\r' || c == '\U{000B}' || c == '\U{000C}'
  }

  // ---------------------------------------------------------------------
  // str methods

  /** `s.lower()`. */
  function Lower(s: string): (r: string)
    ensures |r| == |s|
    ensures forall i :: 0 <= i < |s| ==> r[i] == LowerChar(s[i])
  {
    if s == [] then [] else [LowerChar(s[0])] + Lower(s[1..])
  }

  /** `s[0].upper() + s[1:]` (the way the code turns a minor key into its tonic's name). */
  function Capitalise(s: string): (r: string)
    requires |s| > 0
    ensures |r| == |s| && r[0] == UpperChar(s[0]) && r[1..] == s[1..]
  {
    [UpperChar(s[0])] + s[1..]
  }

  /** A key or name whose first character is not a lower-case letter is its own capitalisation. */
  lemma CapitaliseIdentity(s: string)
    requires |s| > 0 && !IsLowerLetter(s[0])
    ensures Capitalise(s) == s
  {
    assert s == [s[0]] + s[1..];
  }

  predicate StartsWith(s: string, p: string) {
    |p| <= |s| && s[..|p|] == p
  }

  /** `sub in s` for strings. */
  predicate Contains(s: string, sub: string)
    decreases |s|
  {
    StartsWith(s, sub) || (|s| > 0 && Contains(s[1..], sub))
  }

  /** The definition above agrees with "sub occurs at some offset". */
  lemma {:induction false} ContainsAt(s: string, sub: string, i: nat)
    requires i + |sub| <= |s| && s[i..i + |sub|] == sub
    ensures Contains(s, sub)
    decreases i
  {
    if i > 0 {
      assert s[1..][i - 1..i - 1 + |sub|] == s[i..i + |sub|];
      ContainsAt(s[1..], sub, i - 1);
    } else {
      assert s[..|sub|] == sub;
    }
  }

  lemma {:induction false} ContainsWitness(s: string, sub: string) returns (i: nat)
    requires Contains(s, sub)
    ensures i + |sub| <= |s| && s[i..i + |sub|] == sub
    decreases |s|
  {
    if StartsWith(s, sub) {
      i := 0;
    } else {
      var j := ContainsWitness(s[1..], sub);
      assert s[1..][j..j + |sub|] == s[j + 1..j + 1 + |sub|];
      i := j + 1;
    }
  }

  /** A character that is not in s means no substring using it is in s. */
  lemma {:induction false} NotContainsChar(s: string, sub: string, k: nat)
    requires k < |sub| && sub[k] !in s
    ensures !Contains(s, sub)
    decreases |s|
  {
    if |sub| <= |s| {
      assert s[..|sub|][k] == s[k];
      assert s[k] in s;
    }
    if |s| > 0 {
      assert forall c :: c in s[1..] ==> c in s;
      NotContainsChar(s[1..], sub, k);
    }
  }

  /** `s[0:-k]` for k > 0: everything but the last k characters, or nothing. */
  function DropLast(s: string, k: nat): (r: string)
    ensures |s| >= k ==> r == s[..|s| - k]
    ensures |s| < k ==> r == []
  {
    if |s| >= k then s[..|s| - k] else []
  }

  /** `s.replace(old, new)`: every non-overlapping occurrence, left to right. */
  function Replace(s: string, pat: string, rep: string): string
    requires |pat| > 0
    decreases |s|
  {
    if |s| < |pat| then s
    else if s[..|pat|] == pat then rep + Replace(s[|pat|..], pat, rep)
    else [s[0]] + Replace(s[1..], pat, rep)
  }

  /** Replacing a substring that does not occur changes nothing. */
  lemma {:induction false} ReplaceAbsent(s: string, pat: string, rep: string)
    requires |pat| > 0 && !Contains(s, pat)
    ensures Replace(s, pat, rep) == s
    decreases |s|
  {
    if |s| >= |pat| {
      assert !StartsWith(s, pat);
      assert !Contains(s[1..], pat);
      ReplaceAbsent(s[1..], pat, rep);
    }
  }

  /** First position of character c in s, or -1 (`s.find(c)`). */
  function FindChar(s: string, c: char): (r: int)
    ensures -1 <= r < |s|
    ensures r == -1 <==> c !in s
    ensures r >= 0 ==> s[r] == c && c !in s[..r]
  {
    if s == [] then -1
    else if s[0] == c then 0
    else
      var r := FindChar(s[1..], c);
      assert s[1..] == s[1..|s|];
      if r == -1 then -1 else (assert s[..r + 1] == [s[0]] + s[1..][..r]; r + 1)
  }

  /** `s.split(sep)` for a one-character separator. */
  function Split(s: string, sep: char): (r: seq<string>)
    ensures |r| >= 1
    ensures forall k :: 0 <= k < |r| ==> sep !in r[k]
    decreases |s|
  {
    var i := FindChar(s, sep);
    if i == -1 then [s] else [s[..i]] + Split(s[i + 1..], sep)
  }

  /** `sep.join(parts)`. */
  function Join(parts: seq<string>, sep: char): string
  {
    if |parts| == 0 then ""
    else if |parts| == 1 then parts[0]
    else parts[0] + [sep] + Join(parts[1..], sep)
  }

  /** Joining a first piece onto further pieces puts one separator between. */
  lemma JoinCons(first: string, rest: seq<string>, sep: char)
    requires rest != []
    ensures Join([first] + rest, sep) == first + [sep] + Join(rest, sep)
  {
    assert ([first] + rest)[1..] == rest;
  }

  /** Splitting loses nothing: joining the pieces back gives the string. */
  lemma {:induction false} JoinSplit(s: string, sep: char)
    ensures Join(Split(s, sep), sep) == s
    decreases |s|
  {
    var i := FindChar(s, sep);
    if i != -1 {
      var rest := Split(s[i + 1..], sep);
      JoinSplit(s[i + 1..], sep);
      JoinCons(s[..i], rest, sep);
      assert s == s[..i] + [sep] + s[i + 1..];
    }
  }

  /** Splitting a string with no separator in it gives one piece. */
  lemma SplitNoSeparator(s: string, sep: char)
    requires sep !in s
    ensures Split(s, sep) == [s]
  {
  }

  function TrimLeft(s: string): (r: string)
    ensures |r| <= |s| && r == s[|s| - |r|..]
    ensures r == [] || !IsSpace(r[0])
    ensures forall k :: 0 <= k < |s| - |r| ==> IsSpace(s[k])
  {
    if s != [] && IsSpace(s[0]) then
      var r := TrimLeft(s[1..]);
      assert s[1..][|s[1..]| - |r|..] == s[|s| - |r|..];
      r
    else s
  }

  function TrimRight(s: string): (r: string)
    ensures |r| <= |s| && r == s[..|r|]
    ensures r == [] || !IsSpace(r[|r| - 1])
    ensures forall k :: |r| <= k < |s| ==> IsSpace(s[k])
  {
    if s != [] && IsSpace(s[|s| - 1]) then
      var r := TrimRight(s[..|s| - 1]);
      assert s[..|s| - 1][..|r|] == s[..|r|];
      r
    else s
  }

  /** `s.strip()`: a slice of s with no whitespace at either end, and whitespace only cut off. */
  function Strip(s: string): (r: string)
    ensures r == [] || (!IsSpace(r[0]) && !IsSpace(r[|r| - 1]))
    ensures exists lo: nat, hi: nat {:trigger s[lo..hi]} ::
              (lo <= hi <= |s| && r == s[lo..hi]
               && (forall k :: 0 <= k < lo ==> IsSpace(s[k]))
               && (forall k :: hi <= k < |s| ==> IsSpace(s[k])))
  {
    var l := TrimLeft(s);
    var r := TrimRight(l);
    var lo := |s| - |l|;
    assert r == s[lo..lo + |r|];
    r
  }

  /** A string without whitespace at its ends is its own strip. */
  lemma StripUnpadded(s: string)
    requires s == [] || (!IsSpace(s[0]) && !IsSpace(s[|s| - 1]))
    ensures Strip(s) == s
  {
  }

  function DigitChar(d: nat): (c: char)
    requires d < 10
    ensures IsDigit(c)
  {
    d as char + '0'
  }

  /** `str(n)` for a non-negative integer. */
  function Str(n: nat): (r: string)
    ensures |r| >= 1
    ensures forall k :: 0 <= k < |r| ==> IsDigit(r[k])
    ensures n < 10 ==> |r| == 1
    ensures 10 <= n < 100 ==> |r| == 2
  {
    if n < 10 then [DigitChar(n)] else Str(n / 10) + [DigitChar(n % 10)]
  }

  /** `str(n)` for any integer. */
  function StrInt(n: int): (r: string)
    ensures n >= 0 ==> r == Str(n)
  {
    if n < 0 then "-" + Str(-n) else Str(n)
  }

  /** `int(s)` for a string of decimal digits. */
  function DecimalValue(s: string): nat
    requires forall k :: 0 <= k < |s| ==> IsDigit(s[k])
  {
    if s == [] then 0
    else
      assert IsDigit(s[|s| - 1]);
      10 * DecimalValue(s[..|s| - 1]) + (s[|s| - 1] as int - '0' as int)
  }

  /** `int(str(n)) == n`. */
  lemma {:induction false} DecimalStr(n: nat)
    ensures DecimalValue(Str(n)) == n
  {
    if n >= 10 {
      DecimalStr(n / 10);
      var s := Str(n);
      assert s[..|s| - 1] == Str(n / 10);
    }
  }

  // ---------------------------------------------------------------------
  // Lists

  /** The list an `if x not in out: out.append(x)` loop builds: first occurrences, in order. */
  function Dedup<T(==,!new)>(s: seq<T>): (r: seq<T>)
    ensures forall x :: x in r <==> x in s
    ensures forall i, j :: 0 <= i < j < |r| ==> r[i] != r[j]
    ensures |r| <= |s|
  {
    if s == [] then []
    else
      var d := Dedup(s[..|s| - 1]);
      var x := s[|s| - 1];
      assert s == s[..|s| - 1] + [x];
      if x in d then d else d + [x]
  }

  /** Appending an element already present changes nothing. */
  lemma DedupRepeat<T(!new)>(s: seq<T>, x: T)
    requires x in s
    ensures Dedup(s + [x]) == Dedup(s)
  {
    assert (s + [x])[..|s + [x]| - 1] == s;
  }

  // ---------------------------------------------------------------------
  // Loops that collect a value per element

  /** A loop appending one computed value per element, where computing a value
      may raise: all the values in order, or the error of the first element that raised. */
  function Collect<T>(results: seq<Outcome<T>>): (r: Outcome<seq<T>>)
    ensures r.Ok? <==> forall i :: 0 <= i < |results| ==> results[i].Ok?
    ensures r.Ok? ==> |r.value| == |results| && forall i :: 0 <= i < |results| ==> results[i] == Ok(r.value[i])
    ensures r.Raise? ==> exists i :: 0 <= i < |results| && results[i] == Raise(r.error)
                                     && forall j :: 0 <= j < i ==> results[j].Ok?
  {
    if results == [] then Ok([])
    else
      var init := results[..|results| - 1];
      assert forall i :: 0 <= i < |init| ==> init[i] == results[i];
      var prefix :- Collect(init);
      var last :- results[|results| - 1];
      Ok(prefix + [last])
  }
  /** Results that all succeed collect to their values. */
  lemma CollectAllOk<T>(results: seq<Outcome<T>>, values: seq<T>)
    requires |results| == |values| && forall i :: 0 <= i < |results| ==> results[i] == Ok(values[i])
    ensures Collect(results) == Ok(values)
  {
    var c := Collect(results);
    assert c.Ok? && |c.value| == |values|;
    assert forall i :: 0 <= i < |values| ==> c.value[i] == values[i];
    assert c.value == values;
  }


  /** The loop over every result has collected them all. */
  lemma CollectDone<T>(results: seq<Outcome<T>>, values: seq<T>)
    requires Collect(results[..|results|]) == Ok(values)
    ensures Collect(results) == Ok(values)
  {
    assert results[..|results|] == results;
  }

  /** A prefix one element longer. */
  lemma TakeOneMore<T>(s: seq<T>, i: nat)
    requires i < |s|
    ensures s[..i + 1] == s[..i] + [s[i]]
  {
  }

  /** Collecting one more element: the values so far extended by its value, or the first error. */
  lemma CollectStep<T>(results: seq<Outcome<T>>, x: Outcome<T>)
    ensures Collect(results + [x]) == match Collect(results)
                                      case Raise(e) => Raise(e)
                                      case Ok(v) => if x.Ok? then Ok(v + [x.value]) else Raise(x.error)
  {
    assert (results + [x])[..|results|] == results;
  }

  /** One step of a collecting loop over the results: the values so far
      extended, or the whole loop raising this element's error. */
  lemma CollectLoopStep<T>(results: seq<Outcome<T>>, i: nat, values: seq<T>)
    requires i < |results| && Collect(results[..i]) == Ok(values)
    ensures results[i].Ok? ==> Collect(results[..i + 1]) == Ok(values + [results[i].value])
    ensures results[i].Raise? ==> Collect(results) == Raise(results[i].error)
  {
    TakeOneMore(results, i);
    CollectStep(results[..i], results[i]);
    if results[i].Raise? {
      CollectPrefixFails(results, i + 1);
    }
  }

  /** Once a prefix has raised, the whole loop raises the same error. */
  lemma {:induction false} CollectPrefixFails<T>(results: seq<Outcome<T>>, n: nat)
    requires n <= |results| && Collect(results[..n]).Raise?
    ensures Collect(results) == Collect(results[..n])
    decreases |results| - n
  {
    if n < |results| {
      assert results[..n + 1] == results[..n] + [results[n]];
      CollectStep(results[..n], results[n]);
      CollectPrefixFails(results, n + 1);
    } else {
      assert results[..n] == results;
    }
  }

  /** What a loop appending one computed value per element to a list it keeps
      leaves when the first element that raises stops it: the values appended
      before that element, and its error (None when every element succeeded). */
  datatype Partial<T> = Partial(values: seq<T>, error: Option<Exception>)

  function AppendUntilError<T>(results: seq<Outcome<T>>): (r: Partial<T>)
    ensures |r.values| <= |results|
    ensures forall i :: 0 <= i < |r.values| ==> results[i] == Ok(r.values[i])
    ensures r.error.None? ==> |r.values| == |results|
    ensures r.error.Some? ==> |r.values| < |results| && results[|r.values|] == Raise(r.error.value)
  {
    if results == [] then Partial([], None)
    else
      var init := AppendUntilError(results[..|results| - 1]);
      if init.error.Some? then init
      else
        match results[|results| - 1]
          case Raise(e) => Partial(init.values, Some(e))
          case Ok(v) => Partial(init.values + [v], None)
  }

  /** One step of such a loop: the value appended, or the whole loop stopped
      by this element's error with the values so far. */
  lemma AppendLoopStep<T>(results: seq<Outcome<T>>, i: nat, values: seq<T>)
    requires i < |results| && AppendUntilError(results[..i]) == Partial(values, None)
    ensures results[i].Ok? ==> AppendUntilError(results[..i + 1]) == Partial(values + [results[i].value], None)
    ensures results[i].Raise? ==> AppendUntilError(results) == Partial(values, Some(results[i].error))
  {
    assert results[..i + 1][..i] == results[..i];
    if results[i].Raise? {
      AppendStopped(results, i + 1);
    }
  }

  /** Once a prefix has been stopped, the whole loop stops the same way. */
  lemma {:induction false} AppendStopped<T>(results: seq<Outcome<T>>, n: nat)
    requires n <= |results| && AppendUntilError(results[..n]).error.Some?
    ensures AppendUntilError(results) == AppendUntilError(results[..n])
    decreases |results| - n
  {
    if n < |results| {
      assert results[..n + 1][..n] == results[..n];
      AppendStopped(results, n + 1);
    } else {
      assert results[..n] == results;
    }
  }

  /** Results that all succeed leave all their values and no error. */
  lemma AppendAllOk<T>(results: seq<Outcome<T>>, values: seq<T>)
    requires |results| == |values| && forall i :: 0 <= i < |results| ==> results[i] == Ok(values[i])
    ensures AppendUntilError(results) == Partial(values, None)
  {
    var r := AppendUntilError(results);
    assert forall i :: 0 <= i < |results| ==> results[i].Ok?;
    assert forall i :: 0 <= i < |r.values| ==> r.values[i] == values[i];
  }

  /** The loop finishes without error exactly when collecting the same results does. */
  lemma AppendAgreesWithCollect<T>(results: seq<Outcome<T>>)
    ensures AppendUntilError(results).error.None? <==> Collect(results).Ok?
    ensures Collect(results).Ok? ==> AppendUntilError(results).values == Collect(results).value
  {
    if Collect(results).Ok? {
      AppendAllOk(results, Collect(results).value);
    }
  }

  // ---------------------------------------------------------------------
  // Loops that skip the elements raising ValueError (try ... except ValueError: continue)

  /** A result the loop skips: one that raised ValueError. */
  predicate IsValueError<T>(x: Outcome<T>)
  {
    x.Raise? && x.error.ValueError?
  }

  /** The values of the results that succeeded, in order. */
  function Oks<T>(results: seq<Outcome<T>>): (r: seq<T>)
    ensures |r| <= |results|
    ensures forall x :: x in r ==> Ok(x) in results
    ensures r == [] <==> forall k :: 0 <= k < |results| ==> results[k].Raise?
  {
    if results == [] then []
    else if results[0].Ok? then [results[0].value] + Oks(results[1..])
    else Oks(results[1..])
  }

  /** The loop over the results: the value of each result that succeeded is
      appended, a ValueError is skipped, and any other error ends the loop. */
  function SkipValueErrors<T>(results: seq<Outcome<T>>): (r: Outcome<seq<T>>)
  {
    if results == [] then Ok([])
    else if IsValueError(results[0]) then SkipValueErrors(results[1..])
    else
      var x :- results[0];
      var rest :- SkipValueErrors(results[1..]);
      Ok([x] + rest)
  }

  /** Two outcomes in turn: the first error, or both lists joined. */
  function JoinOutcomes<T>(a: Outcome<seq<T>>, b: Outcome<seq<T>>): (r: Outcome<seq<T>>)
    ensures r.Ok? <==> a.Ok? && b.Ok?
    ensures a.Raise? ==> r == a
    ensures a.Ok? && b.Raise? ==> r == b
    ensures r.Ok? ==> r.value == a.value + b.value
  {
    var x :- a;
    var y :- b;
    Ok(x + y)
  }

  /** The skipping loop ends without an error exactly when every error is a
      ValueError, and then it has kept the successful values, in order; when
      it raises, the error is that of the first result that is neither a
      value nor a ValueError. */
  lemma {:induction false} SkipValueErrorsMeaning<T>(results: seq<Outcome<T>>)
    ensures SkipValueErrors(results).Ok? <==> forall k :: 0 <= k < |results| && results[k].Raise? ==> IsValueError(results[k])
    ensures SkipValueErrors(results).Ok? ==> SkipValueErrors(results).value == Oks(results)
    ensures SkipValueErrors(results).Raise? ==>
              exists k :: 0 <= k < |results| && results[k] == Raise(SkipValueErrors(results).error)
                          && !IsValueError(results[k])
                          && forall j :: 0 <= j < k ==> results[j].Ok? || IsValueError(results[j])
  {
    if results != [] {
      var tail := results[1..];
      SkipValueErrorsMeaning(tail);
      assert forall k :: 1 <= k < |results| ==> results[k] == tail[k - 1];
      if SkipValueErrors(results).Raise? && !results[0].Raise? && !IsValueError(results[0]) {
        var k' :| 0 <= k' < |tail| && tail[k'] == Raise(SkipValueErrors(tail).error)
                   && !IsValueError(tail[k'])
                   && forall j :: 0 <= j < k' ==> tail[j].Ok? || IsValueError(tail[j]);
        assert results[k' + 1] == tail[k'];
      }
    }
  }

  /** The loop runs over the results in order: running it over two runs of
      results is running it over the first and then over the second. */
  lemma {:induction false} SkipValueErrorsAppend<T>(a: seq<Outcome<T>>, b: seq<Outcome<T>>)
    ensures SkipValueErrors(a + b) == JoinOutcomes(SkipValueErrors(a), SkipValueErrors(b))
  {
    if a == [] {
      assert a + b == b;
      if SkipValueErrors(b).Ok? {
        assert [] + SkipValueErrors(b).value == SkipValueErrors(b).value;
      }
    } else {
      assert (a + b)[1..] == a[1..] + b;
      SkipValueErrorsAppend(a[1..], b);
      var sa, sb := SkipValueErrors(a[1..]), SkipValueErrors(b);
      if a[0].Ok? && sa.Ok? && sb.Ok? {
        assert [a[0].value] + (sa.value + sb.value) == ([a[0].value] + sa.value) + sb.value;
      }
    }
  }

  /** A ValueError anywhere among the results is skipped without a trace. */
  lemma {:induction false} SkipValueErrorsDrop<T>(a: seq<Outcome<T>>, x: Outcome<T>, b: seq<Outcome<T>>)
    requires IsValueError(x)
    ensures SkipValueErrors(a + [x] + b) == SkipValueErrors(a + b)
  {
    if a == [] {
      assert a + [x] + b == [x] + b && ([x] + b)[1..] == b && a + b == b;
    } else {
      assert (a + [x] + b)[0] == (a + b)[0] == a[0];
      assert (a + [x] + b)[1..] == a[1..] + [x] + b;
      assert (a + b)[1..] == a[1..] + b;
      SkipValueErrorsDrop(a[1..], x, b);
    }
  }

  /** Nothing is kept, and nothing raised, exactly when every result is a ValueError. */
  lemma {:induction false} SkipValueErrorsEmpty<T>(results: seq<Outcome<T>>)
    ensures SkipValueErrors(results) == Ok([]) <==> forall k :: 0 <= k < |results| ==> IsValueError(results[k])
  {
    if results != [] {
      SkipValueErrorsEmpty(results[1..]);
      assert forall k :: 1 <= k < |results| ==> results[k] == results[1..][k - 1];
    }
  }

  /** Joining nothing in front changes nothing. */
  lemma JoinNothing<T>(b: Outcome<seq<T>>)
    ensures JoinOutcomes(Ok([]), b) == b
  {
    if b.Ok? {
      assert [] + b.value == b.value;
    }
  }

  /** One step of the skipping loop, with the values kept so far in front. */
  lemma SkipValueErrorsStep<T>(results: seq<Outcome<T>>, i: nat, kept: seq<T>)
    requires i < |results|
    ensures IsValueError(results[i]) ==>
              JoinOutcomes(Ok(kept), SkipValueErrors(results[i..])) == JoinOutcomes(Ok(kept), SkipValueErrors(results[i + 1..]))
    ensures results[i].Raise? && !IsValueError(results[i]) ==>
              JoinOutcomes(Ok(kept), SkipValueErrors(results[i..])) == Raise(results[i].error)
    ensures results[i].Ok? ==>
              JoinOutcomes(Ok(kept), SkipValueErrors(results[i..])) == JoinOutcomes(Ok(kept + [results[i].value]), SkipValueErrors(results[i + 1..]))
  {
    assert results[i..][1..] == results[i + 1..];
    var rest := SkipValueErrors(results[i + 1..]);
    if results[i].Ok? && rest.Ok? {
      assert kept + ([results[i].value] + rest.value) == (kept + [results[i].value]) + rest.value;
    }
  }

  // ---------------------------------------------------------------------
  // list.insert, list.pop and repeated list.extend

  /** Where list.insert(i, x) puts x in a list of n elements: a negative i
      counts from the end, and a position past either end is clamped to it. */
  function InsertPosition(n: nat, i: int): (k: nat)
    ensures k <= n
    ensures 0 <= i <= n ==> k == i
    ensures i > n ==> k == n
    ensures i < 0 ==> k == (if n + i < 0 then 0 else n + i)
  {
    if i < 0 then (if n + i < 0 then 0 else n + i)
    else if i > n then n
    else i
  }

  /** list.insert(i, x). */
  function Insert<T>(s: seq<T>, i: int, x: T): (r: seq<T>)
    ensures |r| == |s| + 1 && r[InsertPosition(|s|, i)] == x
    ensures multiset(r) == multiset(s) + multiset{x}
  {
    var k := InsertPosition(|s|, i);
    assert s == s[..k] + s[k..];
    s[..k] + [x] + s[k..]
  }

  /** list.pop(i): the list without the element at a position Python accepts;
      IndexError for any other position, an empty list included. */
  function Pop<T>(s: seq<T>, i: int): (r: Outcome<seq<T>>)
    ensures r.Ok? <==> ValidPos(|s|, i)
    ensures r.Raise? ==> r.error == IndexError
    ensures r.Ok? ==> |r.value| + 1 == |s|
  {
    if ValidPos(|s|, i) then
      var k := Normalise(|s|, i);
      Ok(s[..k] + s[k + 1..])
    else Raise(IndexError)
  }

  /** Lists produced one after another and joined by `extend`; the first
      call that raises ends the whole with its error. */
  function Flatten<T>(results: seq<Outcome<seq<T>>>): (r: Outcome<seq<T>>)
    ensures r.Raise? ==> exists i :: 0 <= i < |results| && results[i] == Raise(r.error)
    ensures (forall i :: 0 <= i < |results| ==> results[i].Ok?) ==> r.Ok?
  {
    if results == [] then Ok([])
    else
      var init := Flatten(results[..|results| - 1]);
      if init.Raise? then
        var i :| 0 <= i < |results| - 1 && results[..|results| - 1][i] == Raise(init.error);
        assert results[i] == Raise(init.error);
        init
      else
        match results[|results| - 1]
          case Raise(e) => Raise(e)
          case Ok(last) => Ok(init.value + last)
  }

  /** A joined list exists only when every call succeeded, and it starts
      with the first call's list. */
  lemma {:induction false} FlattenOk<T>(results: seq<Outcome<seq<T>>>)
    requires Flatten(results).Ok?
    ensures forall i :: 0 <= i < |results| ==> results[i].Ok?
    ensures results != [] ==> results[0].value <= Flatten(results).value
  {
    if results != [] {
      var init := results[..|results| - 1];
      FlattenOk(init);
      assert forall i :: 0 <= i < |init| ==> init[i] == results[i];
      if init != [] {
        assert init[0] == results[0];
      }
    }
  }

  /** One more call of the extending loop: its list appended, or its error raised
      (and then the whole ends with that error). */
  lemma FlattenLoopStep<T>(results: seq<Outcome<seq<T>>>, i: nat, acc: seq<T>)
    requires i < |results| && Flatten(results[..i]) == Ok(acc)
    ensures results[i].Ok? ==> Flatten(results[..i + 1]) == Ok(acc + results[i].value)
    ensures results[i].Raise? ==> Flatten(results) == Raise(results[i].error)
  {
    assert results[..i + 1][..i] == results[..i];
    if results[i].Raise? {
      FlattenStopped(results, i + 1);
      assert results[..i + 1] == results[..i + 1];
    }
  }

  /** The loop over every call has joined them all. */
  lemma FlattenDone<T>(results: seq<Outcome<seq<T>>>, acc: seq<T>)
    requires Flatten(results[..|results|]) == Ok(acc)
    ensures Flatten(results) == Ok(acc)
  {
    assert results[..|results|] == results;
  }

  /** Once a prefix has raised, the whole raises the same error. */
  lemma {:induction false} FlattenStopped<T>(results: seq<Outcome<seq<T>>>, n: nat)
    requires n <= |results| && Flatten(results[..n]).Raise?
    ensures Flatten(results) == Flatten(results[..n])
    decreases |results| - n
  {
    if n < |results| {
      assert results[..n + 1][..n] == results[..n];
      FlattenStopped(results, n + 1);
    } else {
      assert results[..n] == results;
    }
  }

  /** When every call succeeds, an element is in the joined list exactly when
      it is in one of the lists. */
  lemma {:induction false} FlattenMember<T>(results: seq<Outcome<seq<T>>>, x: T)
    requires forall i :: 0 <= i < |results| ==> results[i].Ok?
    ensures x in Flatten(results).value <==> exists i :: 0 <= i < |results| && x in results[i].value
  {
    if results != [] {
      var init := results[..|results| - 1];
      FlattenMember(init, x);
      if x in Flatten(init).value {
        var i :| 0 <= i < |init| && x in init[i].value;
        assert x in results[i].value;
      }
      if exists i :: 0 <= i < |results| && x in results[i].value {
        var i :| 0 <= i < |results| && x in results[i].value;
        if i < |results| - 1 {
          assert init[i] == results[i];
        }
      }
    }
  }

  /** Joining lists that each hold at most one element. */
  lemma {:induction false} FlattenLength<T>(results: seq<Outcome<seq<T>>>)
    requires forall i :: 0 <= i < |results| ==> results[i].Ok? && |results[i].value| <= 1
    ensures |Flatten(results).value| <= |results|
  {
    if results != [] {
      FlattenLength(results[..|results| - 1]);
    }
  }
}
