/** Bytes, counting and separated text, shared by the other modules. */
module Basics {

  type Byte = x: int | 0 <= x < 256

  function Bit(b: bool): nat {
    if b then 1 else 0
  }

  predicate Free(s: string, separator: char) {
    forall i :: 0 <= i < |s| ==> s[i] != separator
  }

  /** The pieces between separators, empty ones included. */
  function Split(s: string, separator: char): (parts: seq<string>)
    ensures |parts| >= 1
    ensures forall i :: 0 <= i < |parts| ==> Free(parts[i], separator)
  {
    if s == "" then [""]
    else
      var rest := Split(s[1..], separator);
      if s[0] == separator then [""] + rest else [[s[0]] + rest[0]] + rest[1..]
  }

  function Join(parts: seq<string>, separator: char): string {
    if parts == [] then ""
    else if |parts| == 1 then parts[0]
    else parts[0] + [separator] + Join(parts[1..], separator)
  }

  lemma {:induction false} SplitAtSeparator(a: string, rest: string, separator: char)
    requires Free(a, separator)
    ensures Split(a, separator) == [a]
    ensures Split(a + [separator] + rest, separator) == [a] + Split(rest, separator)
  {
    if a == "" {
      assert a + [separator] + rest == [separator] + rest && ([separator] + rest)[1..] == rest;
    } else {
      SplitAtSeparator(a[1..], rest, separator);
      assert (a + [separator] + rest)[1..] == a[1..] + [separator] + rest;
      assert a == [a[0]] + a[1..];
    }
  }

  lemma {:induction false} SplitJoins(s: string, separator: char)
    ensures Join(Split(s, separator), separator) == s
  {
    if s != "" {
      SplitJoins(s[1..], separator);
      assert s == [s[0]] + s[1..];
      var rest := Split(s[1..], separator);
      assert Split(s, separator)[1..] == if s[0] == separator then rest else rest[1..];
    }
  }
}
