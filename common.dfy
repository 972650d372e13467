/** Small shared vocabulary: optional values (Java's null), results carrying
    an exception, and the ASCII string helpers the request layer needs. */
module Common {

  /** A value that may be absent; None stands for Java's null. */
  datatype Option<+T> = None | Some(value: T) {
    function GetOr(default: T): T {
      match this
      case Some(v) => v
      case None => default
    }
  }

  /** Either a value or the exception that was thrown instead. */
  datatype Result<+T, +E> = Ok(value: T) | Err(error: E)

  /** The Java exceptions (and the one Error) the core throws or passes on. */
  datatype Exception =
    | IllegalArgument(message: string)
    | IllegalState(message: string)
    | Runtime(message: string, cause: Exception)
    | ScriptFailure       // javax.script.ScriptException or NoSuchMethodException
    | IOFailure           // java.io.IOException
    | NativeFailure       // an exception raised by the native mapnik binding
    | NullPointer
    | NoSuchElement
    | StackOverflow       // a java.lang.Error: `catch (Exception e)` lets it through
  {
    /** Whether `catch (Exception e)` catches it (everything but an Error). */
    predicate IsException() {
      !StackOverflow?
    }
  }

  /** ASCII lower-casing of one character. */
  function LowerChar(c: char): char {
    if 'A' <= c <= 'Z' then (c as int + 32) as char else c
  }

  /** ASCII lower-casing of a string, character by character. */
  function Lower(s: string): (r: string)
    ensures |r| == |s|
    ensures forall i :: 0 <= i < |s| ==> r[i] == LowerChar(s[i])
  {
    seq(|s|, i requires 0 <= i < |s| => LowerChar(s[i]))
  }

  /** ASCII upper-casing of one character. */
  function UpperChar(c: char): char {
    if 'a' <= c <= 'z' then (c as int - 32) as char else c
  }

  function Upper(s: string): (r: string)
    ensures |r| == |s|
    ensures forall i :: 0 <= i < |s| ==> r[i] == UpperChar(s[i])
  {
    seq(|s|, i requires 0 <= i < |s| => UpperChar(s[i]))
  }

  /** Lower-casing leaves a string without capitals as it is. */
  lemma LowerKeepsLowercase(s: string)
    requires forall i :: 0 <= i < |s| ==> !('A' <= s[i] <= 'Z')
    ensures Lower(s) == s
  {
  }

  /** String.equalsIgnoreCase restricted to ASCII letters. */
  predicate EqualsIgnoreCase(a: string, b: string) {
    Lower(a) == Lower(b)
  }

  /** Index of the first occurrence of c in s (String.indexOf), None for -1. */
  function IndexOf(s: string, c: char): (r: Option<nat>)
    ensures r.Some? ==> r.value < |s| && s[r.value] == c && c !in s[..r.value]
    ensures r.None? ==> c !in s
  {
    if |s| == 0 then None
    else if s[0] == c then Some(0)
    else match IndexOf(s[1..], c)
      case None => None
      case Some(k) => assert s[..k + 1] == [s[0]] + s[1..][..k]; Some(k + 1)
  }

  /** A position holding c with no c before it is what IndexOf finds. */
  lemma {:induction false} IndexOfIsFirst(s: string, c: char, k: nat)
    requires k < |s| && s[k] == c && c !in s[..k]
    ensures IndexOf(s, c) == Some(k)
  {
    if k > 0 {
      assert s[0] == s[..k][0];
      assert s[1..][..k - 1] == s[..k][1..];
      IndexOfIsFirst(s[1..], c, k - 1);
    }
  }

  /** The pieces between occurrences of the separator, empty ones included. */
  function SplitAll(s: string, sep: char): (r: seq<string>)
    ensures |r| >= 1
    ensures forall i :: 0 <= i < |r| ==> sep !in r[i]
    decreases |s|
  {
    match IndexOf(s, sep)
    case None => [s]
    case Some(k) => [s[..k]] + SplitAll(s[k + 1..], sep)
  }

  /** The pieces written out with the separator between them. */
  function Join(parts: seq<string>, sep: char): string
    requires |parts| >= 1
  {
    if |parts| == 1 then parts[0] else parts[0] + [sep] + Join(parts[1..], sep)
  }

  /** Joining the pieces gives back the string. */
  lemma {:induction false} SplitThenJoin(s: string, sep: char)
    ensures Join(SplitAll(s, sep), sep) == s
    decreases |s|
  {
    match IndexOf(s, sep)
    case None =>
    case Some(k) =>
      var parts := SplitAll(s, sep);
      assert parts == [s[..k]] + SplitAll(s[k + 1..], sep);
      assert parts[1..] == SplitAll(s[k + 1..], sep);
      assert Join(parts, sep) == s[..k] + [sep] + Join(parts[1..], sep);
      SplitThenJoin(s[k + 1..], sep);
      assert s == s[..k] + [sep] + s[k + 1..];
  }

  /** Splitting pieces free of the separator after joining them gives the pieces back. */
  lemma {:induction false} JoinThenSplit(parts: seq<string>, sep: char)
    requires |parts| >= 1 && forall i :: 0 <= i < |parts| ==> sep !in parts[i]
    ensures SplitAll(Join(parts, sep), sep) == parts
    decreases |parts|
  {
    if |parts| > 1 {
      var rest := Join(parts[1..], sep);
      assert Join(parts, sep) == parts[0] + ([sep] + rest);
      SplitAtFirst(parts[0], rest, sep);
      JoinThenSplit(parts[1..], sep);
    }
  }

  /** The first separator of head + [sep] + rest is the one after head, when head has none. */
  lemma {:induction false} JoinIndexOf(head: string, rest: string, sep: char)
    requires sep !in head
    ensures IndexOf(head + ([sep] + rest), sep) == Some(|head|)
  {
    var s := head + ([sep] + rest);
    assert s[|head|] == sep;
    assert s[..|head|] == head;
  }

  /** Splitting head + [sep] + rest, when head has no separator, gives head
      and then the pieces of rest. */
  lemma SplitAtFirst(head: string, rest: string, sep: char)
    requires sep !in head
    ensures SplitAll(head + ([sep] + rest), sep) == [head] + SplitAll(rest, sep)
  {
    var s := head + ([sep] + rest);
    JoinIndexOf(head, rest, sep);
    assert s[..|head|] == head;
    assert s[|head| + 1..] == rest;
  }

  /** The pieces without the empty ones at the end. */
  function DropTrailingEmpty(parts: seq<string>): (r: seq<string>)
    ensures |r| <= |parts| && r == parts[..|r|]
    ensures r != [] ==> r[|r| - 1] != ""
    ensures forall i :: |r| <= i < |parts| ==> parts[i] == ""
  {
    if parts == [] then []
    else if parts[|parts| - 1] == "" then DropTrailingEmpty(parts[..|parts| - 1])
    else parts
  }

  /** Pattern.split with a one-character literal pattern: the whole input
      when the separator does not occur, else the pieces with trailing
      empty strings removed. */
  function JavaSplit(s: string, sep: char): (r: seq<string>)
    ensures forall i :: 0 <= i < |r| ==> sep !in r[i]
    ensures sep !in s ==> r == [s]
  {
    if sep !in s then [s] else DropTrailingEmpty(SplitAll(s, sep))
  }

  /** Pieces free of the separator, the last one not empty, are what
      splitting their join gives. */
  lemma JavaSplitOfJoin(parts: seq<string>, sep: char)
    requires |parts| >= 1 && parts[|parts| - 1] != ""
    requires forall i :: 0 <= i < |parts| ==> sep !in parts[i]
    ensures JavaSplit(Join(parts, sep), sep) == parts
  {
    JoinThenSplit(parts, sep);
  }

  /** Java's (int) cast of a double that is not NaN: toward zero, then
      saturated at the bounds of int. */
  function DoubleToInt(d: real): (r: int)
    ensures -0x8000_0000 <= r <= 0x7fff_ffff
  {
    var t := if d >= 0.0 then d.Floor else -((-d).Floor);
    if t < -0x8000_0000 then -0x8000_0000 else if t > 0x7fff_ffff then 0x7fff_ffff else t
  }

  /** An int survives the round trip through double. */
  lemma DoubleToIntKeepsInts(n: int)
    requires -0x8000_0000 <= n <= 0x7fff_ffff
    ensures DoubleToInt(n as real) == n
  {
  }

  /** Within the bounds of int the cast drops the fraction toward zero. */
  lemma DoubleToIntTruncates(d: real)
    requires -2147483648.0 <= d <= 2147483647.0
    ensures d >= 0.0 ==> DoubleToInt(d) as real <= d < DoubleToInt(d) as real + 1.0
    ensures d < 0.0 ==> DoubleToInt(d) as real - 1.0 < d <= DoubleToInt(d) as real
  {
  }
}
