/** The spelling of file references: which strings `relative_file_reference` accepts and the normal form it returns. */
module FileReferences {
  import opened Basics
  import opened Sql

  const MAX_REFERENCE := 255

  /** A pure path keeps neither empty segments nor single dots. */
  predicate Kept(part: string) { part != "" && part != "." }

  function Keep(parts: seq<string>): (r: seq<string>)
    ensures forall p :: p in r <==> p in parts && Kept(p)
    ensures |r| <= |parts|
  {
    if parts == [] then [] else (if Kept(parts[0]) then [parts[0]] else []) + Keep(parts[1..])
  }

  function Parts(s: string): seq<string> { Keep(Split(s, '/')) }

  predicate Forbidden(c: char) { c as int < 32 || c as int == 127 || c == '\\' || c == ':' }

  predicate Acceptable(s: string) {
    && 0 < |s| <= MAX_REFERENCE
    && s[0] != '/'
    && Parts(s) != []
    && ".." !in Parts(s)
    && forall i :: 0 <= i < |s| ==> !Forbidden(s[i])
  }

  /** `relative_file_reference`; None where it raises ValueError. */
  function RelativeReference(s: string): (r: Option<string>) {
    if Acceptable(s) then Some(Join(Parts(s), '/')) else None
  }

  predicate Plain(parts: seq<string>) { forall i :: 0 <= i < |parts| ==> Free(parts[i], '/') && Kept(parts[i]) }

  lemma {:induction false} PartsOfJoin(parts: seq<string>)
    requires Plain(parts)
    ensures Parts(Join(parts, '/')) == parts
  {
    if |parts| == 0 {
    } else if |parts| == 1 {
      SplitAtSeparator(parts[0], "", '/');
      assert Keep(parts) == parts;
    } else {
      PartsOfJoin(parts[1..]);
      SplitAtSeparator(parts[0], Join(parts[1..], '/'), '/');
      assert parts == [parts[0]] + parts[1..];
    }
  }

  /** The characters of a normal form are slashes or come from the original. */
  predicate From(c: char, s: string) { c == '/' || c in s }

  lemma {:induction false} SplitChars(s: string)
    ensures forall p, c :: p in Split(s, '/') && c in p ==> c in s
  {
    if s != "" {
      SplitChars(s[1..]);
      var rest := Split(s[1..], '/');
      assert rest[0] in rest;
      assert forall p :: p in rest[1..] ==> p in rest;
    }
  }

  lemma {:induction false} JoinChars(parts: seq<string>, s: string)
    requires forall p, c :: p in parts && c in p ==> c in s
    ensures forall c :: c in Join(parts, '/') ==> From(c, s)
  {
    if |parts| > 1 { JoinChars(parts[1..], s); }
    if |parts| > 0 { assert parts[0] in parts; }
  }

  /** Length of a list of segments written with one slash between neighbours. */
  function Width(parts: seq<string>): nat { if parts == [] then 0 else |parts[0]| + 1 + Width(parts[1..]) }

  lemma {:induction false} SplitWidth(s: string)
    ensures Width(Split(s, '/')) == |s| + 1
  {
    if s != "" {
      SplitWidth(s[1..]);
      var rest := Split(s[1..], '/');
      assert Split(s, '/')[1..] == if s[0] == '/' then rest else rest[1..];
    }
  }

  lemma {:induction false} KeepWidth(parts: seq<string>)
    ensures Width(Keep(parts)) <= Width(parts)
    ensures Keep(parts) != [] ==> Width(Keep(parts)) == |Join(Keep(parts), '/')| + 1
  {
    if parts != [] {
      KeepWidth(parts[1..]);
      var kept := Keep(parts);
      if Kept(parts[0]) { assert kept[1..] == Keep(parts[1..]); } else { assert kept == Keep(parts[1..]); }
    }
  }

  /** A normal form has the same parts as what was given, is never longer, and is accepted unchanged: checking a
      stored reference a second time neither rejects nor rewrites it. */
  lemma NormalFormIsStable(s: string)
    requires RelativeReference(s).Some?
    ensures var r := RelativeReference(s).value;
      Parts(r) == Parts(s) && |r| <= |s| && RelativeReference(r) == Some(r)
  {
    var parts := Parts(s);
    var r := Join(parts, '/');
    assert forall p :: p in parts ==> p in Split(s, '/');
    assert Plain(parts) by {
      forall i | 0 <= i < |parts| ensures Free(parts[i], '/') && Kept(parts[i]) { assert parts[i] in parts; }
    }
    PartsOfJoin(parts);
    SplitWidth(s);
    KeepWidth(Split(s, '/'));
    SplitChars(s);
    JoinChars(parts, s);
    forall i | 0 <= i < |r| ensures !Forbidden(r[i]) { assert r[i] in r; }
    assert parts[0] in parts && r[..|parts[0]|] == parts[0];
    assert r[0] == parts[0][0];
  }

  /** Two references have one normal form exactly when they name the same parts. */
  lemma SameNormalForm(s: string, t: string)
    requires RelativeReference(s).Some? && RelativeReference(t).Some?
    ensures RelativeReference(s) == RelativeReference(t) <==> Parts(s) == Parts(t)
  {
    NormalFormIsStable(s);
    NormalFormIsStable(t);
  }

  /** Which references are accepted: up to 255 characters, relative, with at least one part and no `..`, and without
      control characters, backslashes and colons. */
  lemma AcceptedExactly(s: string)
    ensures RelativeReference(s) != None <==>
      && s != "" && |s| <= 255 && s[0] != '/'
      && (exists part :: part in Split(s, '/') && part != "" && part != ".")
      && ".." !in Split(s, '/')
      && forall i :: 0 <= i < |s| ==> ' ' <= s[i] && s[i] as int != 127 && s[i] != '\\' && s[i] != ':'
  {
    var parts := Parts(s);
    assert parts != [] <==> exists part :: part in Split(s, '/') && part != "" && part != "." by {
      if parts != [] { assert parts[0] in parts; }
    }
  }
}
