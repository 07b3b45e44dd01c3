/** Signed event cursors over unpadded base64url (RFC 4648, sections 3.2, 3.5 and 5). */
module CursorCodec {
  import opened Basics
  import opened Sql

  type Bytes = seq<Byte>

  // ---------------------------------------------------------------- the alphabet

  predicate InAlphabet(c: char) {
    'A' <= c <= 'Z' || 'a' <= c <= 'z' || '0' <= c <= '9' || c == '-' || c == '_'
  }

  function Symbol(v: int): (c: char)
    requires 0 <= v < 64
    ensures InAlphabet(c) && Value(c) == v
  {
    if v < 26 then ('A' as int + v) as char
    else if v < 52 then ('a' as int + (v - 26)) as char
    else if v < 62 then ('0' as int + (v - 52)) as char
    else if v == 62 then '-' else '_'
  }

  function Value(c: char): (v: int)
    requires InAlphabet(c)
    ensures 0 <= v < 64
  {
    if 'A' <= c <= 'Z' then c as int - 'A' as int
    else if 'a' <= c <= 'z' then c as int - 'a' as int + 26
    else if '0' <= c <= '9' then c as int - '0' as int + 52
    else if c == '-' then 62 else 63
  }

  lemma SymbolOfValue(c: char)
    requires InAlphabet(c)
    ensures Symbol(Value(c)) == c
  {}

  /** These are the symbols of the values from `n` on. */
  ghost predicate SymbolsFrom(n: nat, s: string) {
    n + |s| <= 64 && forall i :: 0 <= i < |s| ==> s[i] == Symbol(n + i)
  }

  lemma SymbolsJoin(n: nat, s: string, t: string)
    requires SymbolsFrom(n, s) && SymbolsFrom(n + |s|, t)
    ensures SymbolsFrom(n, s + t)
  {}

  lemma CapitalsToM()
    ensures SymbolsFrom(0, "ABCDEFGHIJKLM")
  {}

  lemma CapitalsFromN()
    ensures SymbolsFrom(13, "NOPQRSTUVWXYZ")
  {}

  lemma LettersToM()
    ensures SymbolsFrom(26, "abcdefghijklm")
  {}

  lemma LettersFromN()
    ensures SymbolsFrom(39, "nopqrstuvwxyz")
  {}

  lemma DecimalDigits()
    ensures SymbolsFrom(52, "0123456789")
  {}

  lemma DashAndUnderscore()
    ensures SymbolsFrom(62, "-_")
  {}

  /** The symbols, in order of value, are the alphabet of section 5 of RFC 4648. */
  lemma SymbolsAreTheAlphabet() returns (alphabet: string)
    ensures alphabet == "ABCDEFGHIJKLM" + "NOPQRSTUVWXYZ" + "abcdefghijklm" + "nopqrstuvwxyz" + "0123456789" + "-_"
    ensures |alphabet| == 64 && SymbolsFrom(0, alphabet)
    ensures forall c :: InAlphabet(c) <==> c in alphabet
    ensures forall c :: InAlphabet(c) ==> alphabet[Value(c)] == c
  {
    CapitalsToM();
    CapitalsFromN();
    LettersToM();
    LettersFromN();
    DecimalDigits();
    DashAndUnderscore();
    alphabet := "ABCDEFGHIJKLM";
    SymbolsJoin(0, alphabet, "NOPQRSTUVWXYZ");
    alphabet := alphabet + "NOPQRSTUVWXYZ";
    SymbolsJoin(0, alphabet, "abcdefghijklm");
    alphabet := alphabet + "abcdefghijklm";
    SymbolsJoin(0, alphabet, "nopqrstuvwxyz");
    alphabet := alphabet + "nopqrstuvwxyz";
    SymbolsJoin(0, alphabet, "0123456789");
    alphabet := alphabet + "0123456789";
    SymbolsJoin(0, alphabet, "-_");
    alphabet := alphabet + "-_";
    AlphabetIsComplete(alphabet);
  }

  lemma AlphabetIsComplete(alphabet: string)
    requires |alphabet| == 64 && SymbolsFrom(0, alphabet)
    ensures forall c :: InAlphabet(c) <==> c in alphabet
    ensures forall c :: InAlphabet(c) ==> alphabet[Value(c)] == c
  {
    forall c | InAlphabet(c) ensures c in alphabet && alphabet[Value(c)] == c {
      SymbolOfValue(c);
      assert alphabet[Value(c)] == Symbol(0 + Value(c));
    }
  }

  predicate AllInAlphabet(s: string) {
    forall i :: 0 <= i < |s| ==> InAlphabet(s[i])
  }

  // ---------------------------------------------------------------- octets and sextets

  type Sextet = x: int | 0 <= x < 64

  // Three octets x, y, z hold the same 24 bits as four sextets p, q, r, s.

  function FirstSextet(x: int): Sextet requires 0 <= x < 256 { x / 4 }
  function SecondSextet(x: int, y: int): Sextet requires 0 <= x < 256 && 0 <= y < 256 { x % 4 * 16 + y / 16 }
  function ThirdSextet(y: int, z: int): Sextet requires 0 <= y < 256 && 0 <= z < 256 { y % 16 * 4 + z / 64 }
  function FourthSextet(z: int): Sextet requires 0 <= z < 256 { z % 64 }

  function FirstOctet(p: int, q: int): Byte requires 0 <= p < 64 && 0 <= q < 64 { p * 4 + q / 16 }
  function SecondOctet(q: int, r: int): Byte requires 0 <= q < 64 && 0 <= r < 64 { q % 16 * 16 + r / 4 }
  function ThirdOctet(r: int, s: int): Byte requires 0 <= r < 64 && 0 <= s < 64 { r % 4 * 64 + s }

  function ToSextets(b: Bytes): (v: seq<Sextet>)
    ensures b == [] <==> v == []
  {
    if |b| == 0 then []
    else if |b| == 1 then [FirstSextet(b[0]), SecondSextet(b[0], 0)]
    else if |b| == 2 then [FirstSextet(b[0]), SecondSextet(b[0], b[1]), ThirdSextet(b[1], 0)]
    else [FirstSextet(b[0]), SecondSextet(b[0], b[1]), ThirdSextet(b[1], b[2]), FourthSextet(b[2])] + ToSextets(b[3..])
  }

  /** What the lenient library decoder returns: it refuses a lone symbol, and ignores surplus bits. */
  function FromSextets(v: seq<Sextet>): Option<Bytes> {
    if |v| == 0 then Some([])
    else if |v| == 1 then None
    else if |v| == 2 then Some([FirstOctet(v[0], v[1])])
    else if |v| == 3 then Some([FirstOctet(v[0], v[1]), SecondOctet(v[1], v[2])])
    else
      match FromSextets(v[4..])
      case None => None
      case Some(rest) => Some([FirstOctet(v[0], v[1]), SecondOctet(v[1], v[2]), ThirdOctet(v[2], v[3])] + rest)
  }

  /** A number written in two digits gives both digits back. */
  lemma Digits(hi: int, lo: int)
    ensures 0 <= lo < 4 ==> (hi * 4 + lo) / 4 == hi && (hi * 4 + lo) % 4 == lo
    ensures 0 <= lo < 16 ==> (hi * 16 + lo) / 16 == hi && (hi * 16 + lo) % 16 == lo
    ensures 0 <= lo < 64 ==> (hi * 64 + lo) / 64 == hi && (hi * 64 + lo) % 64 == lo
  {}

  lemma OctetsComeBack(x: Byte, y: Byte, z: Byte)
    ensures FirstOctet(FirstSextet(x), SecondSextet(x, y)) == x
    ensures SecondOctet(SecondSextet(x, y), ThirdSextet(y, z)) == y
    ensures ThirdOctet(ThirdSextet(y, z), FourthSextet(z)) == z
  {
    Digits(x % 4, y / 16);
    Digits(y % 16, z / 64);
  }

  lemma SextetsComeBack(p: Sextet, q: Sextet, r: Sextet, s: Sextet)
    ensures FirstSextet(FirstOctet(p, q)) == p
    ensures SecondSextet(FirstOctet(p, q), SecondOctet(q, r)) == q
    ensures ThirdSextet(SecondOctet(q, r), ThirdOctet(r, s)) == r
    ensures FourthSextet(ThirdOctet(r, s)) == s
    ensures SecondSextet(FirstOctet(p, q), 0) == q <==> q % 16 == 0
    ensures ThirdSextet(SecondOctet(q, r), 0) == r <==> r % 4 == 0
  {
    Digits(p, q / 16);
    Digits(q % 16, r / 4);
    Digits(r % 4, s);
  }

  /** Sextets and octets hold the same bits, the most significant first. */
  lemma SameBits(x: Byte, y: Byte, z: Byte)
    ensures FirstSextet(x) * 0x40000 + SecondSextet(x, y) * 0x1000 + ThirdSextet(y, z) * 0x40 + FourthSextet(z) ==
            x * 0x10000 + y * 0x100 + z
  {
    assert x == x / 4 * 4 + x % 4 && y == y / 16 * 16 + y % 16 && z == z / 64 * 64 + z % 64;
  }

  lemma FromGroup(p: Sextet, q: Sextet, r: Sextet, s: Sextet, v: seq<Sextet>, b: Bytes)
    requires FromSextets(v) == Some(b)
    ensures FromSextets([p, q, r, s] + v) == Some([FirstOctet(p, q), SecondOctet(q, r), ThirdOctet(r, s)] + b)
  {
    assert ([p, q, r, s] + v)[4..] == v;
  }

  lemma OneComesBack(x: Byte)
    ensures FromSextets(ToSextets([x])) == Some([x])
  {
    assert FirstOctet(FirstSextet(x), SecondSextet(x, 0)) == x by {
      Digits(x % 4, 0);
      assert 0 / 16 == 0;
    }
    var v := [FirstSextet(x), SecondSextet(x, 0)];
    assert ToSextets([x]) == v && FromSextets(v) == Some([FirstOctet(v[0], v[1])]);
  }

  lemma TwoComeBack(x: Byte, y: Byte)
    ensures FromSextets(ToSextets([x, y])) == Some([x, y])
  {
    OctetsComeBack(x, y, 0);
  }

  lemma ThreeComeBack(x: Byte, y: Byte, z: Byte, rest: Bytes)
    requires FromSextets(ToSextets(rest)) == Some(rest)
    ensures FromSextets(ToSextets([x, y, z] + rest)) == Some([x, y, z] + rest)
  {
    assert ([x, y, z] + rest)[3..] == rest;
    FromGroup(FirstSextet(x), SecondSextet(x, y), ThirdSextet(y, z), FourthSextet(z), ToSextets(rest), rest);
    OctetsComeBack(x, y, z);
  }

  lemma {:induction false} FromToSextets(b: Bytes)
    ensures FromSextets(ToSextets(b)) == Some(b)
  {
    if |b| == 1 {
      OneComesBack(b[0]);
      assert b == [b[0]];
    } else if |b| == 2 {
      TwoComeBack(b[0], b[1]);
      assert b == [b[0], b[1]];
    } else if |b| >= 3 {
      FromToSextets(b[3..]);
      ThreeComeBack(b[0], b[1], b[2], b[3..]);
      assert b == [b[0], b[1], b[2]] + b[3..];
    }
  }

  /** Canonical by RFC 4648: a possible length, and no surplus bit set in the last symbol. */
  predicate CanonicalSextets(v: seq<Sextet>) {
    && |v| % 4 != 1
    && (|v| % 4 == 2 ==> v[|v| - 1] % 16 == 0)
    && (|v| % 4 == 3 ==> v[|v| - 1] % 4 == 0)
  }

  lemma CanonicalTail(v: seq<Sextet>)
    requires |v| >= 4
    ensures |v| % 4 == |v[4..]| % 4
    ensures CanonicalSextets(v) <==> CanonicalSextets(v[4..])
  {
    assert |v| % 4 == (|v| - 4) % 4;
    if |v| > 4 { assert v[|v| - 1] == v[4..][|v| - 5]; }
  }

  lemma {:induction false} SextetsRoundTrip(v: seq<Sextet>)
    ensures FromSextets(v).Some? <==> |v| % 4 != 1
    ensures FromSextets(v).Some? ==> (ToSextets(FromSextets(v).value) == v <==> CanonicalSextets(v))
  {
    if |v| == 2 {
      SextetsComeBack(v[0], v[1], 0, 0);
      assert ToSextets(FromSextets(v).value) == [v[0], SecondSextet(FirstOctet(v[0], v[1]), 0)];
    } else if |v| == 3 {
      SextetsComeBack(v[0], v[1], v[2], 0);
      assert ToSextets(FromSextets(v).value) == [v[0], v[1], ThirdSextet(SecondOctet(v[1], v[2]), 0)];
    } else if |v| >= 4 {
      SextetsRoundTrip(v[4..]);
      CanonicalTail(v);
      if FromSextets(v[4..]).Some? {
        GroupRoundTrip(v, FromSextets(v[4..]).value);
      }
    }
  }

  lemma GroupRoundTrip(v: seq<Sextet>, rest: Bytes)
    requires |v| >= 4
    ensures var b := [FirstOctet(v[0], v[1]), SecondOctet(v[1], v[2]), ThirdOctet(v[2], v[3])] + rest;
            ToSextets(b) == v <==> ToSextets(rest) == v[4..]
  {
    SextetsComeBack(v[0], v[1], v[2], v[3]);
    var b := [FirstOctet(v[0], v[1]), SecondOctet(v[1], v[2]), ThirdOctet(v[2], v[3])] + rest;
    assert b[3..] == rest;
    assert ToSextets(b) == v[..4] + ToSextets(rest);
    assert v == v[..4] + v[4..];
    assert ToSextets(b)[4..] == ToSextets(rest);
  }

  // ---------------------------------------------------------------- text

  function Text(v: seq<Sextet>): (s: string)
    ensures |s| == |v| && forall i :: 0 <= i < |v| ==> s[i] == Symbol(v[i])
    ensures AllInAlphabet(s)
  {
    seq(|v|, i requires 0 <= i < |v| => Symbol(v[i]))
  }

  function Values(s: string): (v: seq<Sextet>)
    requires AllInAlphabet(s)
    ensures |v| == |s| && forall i :: 0 <= i < |s| ==> v[i] == Value(s[i])
  {
    seq(|s|, i requires 0 <= i < |s| => Value(s[i]))
  }

  lemma TextOfValues(s: string)
    requires AllInAlphabet(s)
    ensures Text(Values(s)) == s
  {
    forall i | 0 <= i < |s| ensures Text(Values(s))[i] == s[i] { SymbolOfValue(s[i]); }
  }

  lemma ValuesOfText(v: seq<Sextet>)
    ensures Values(Text(v)) == v
  {}

  function Encode(b: Bytes): string {
    Text(ToSextets(b))
  }

  /** The codec accepts only the text its own encoder would produce. */
  function Decode(s: string): Option<Bytes> {
    if s == "" || !AllInAlphabet(s) then None
    else match FromSextets(Values(s))
      case None => None
      case Some(b) => if Encode(b) != s then None else Some(b)
  }

  /** Every non-empty byte string survives the round trip. */
  lemma DecodeEncode(b: Bytes)
    requires b != []
    ensures Decode(Encode(b)) == Some(b)
  {
    ValuesOfText(ToSextets(b));
    FromToSextets(b);
  }

  /** Acceptance is exactly RFC 4648 canonicity, and an accepted text is the encoding of what it decodes to. */
  lemma AcceptsExactlyCanonical(s: string)
    ensures Decode(s).Some? <==> s != "" && AllInAlphabet(s) && CanonicalSextets(Values(s))
    ensures Decode(s).Some? ==> Decode(s).value != [] && Encode(Decode(s).value) == s
  {
    if s != "" && AllInAlphabet(s) {
      var v := Values(s);
      SextetsRoundTrip(v);
      TextOfValues(s);
      if FromSextets(v).Some? {
        ValuesOfText(ToSextets(FromSextets(v).value));
      }
    }
  }

  // ---------------------------------------------------------------- cursors

  /** The fields of a well-shaped version 1 payload. */
  datatype Payload = Payload(event: string, run: string)

  /** JSON and HMAC stay abstract: `loads` answers only for objects of the expected shape. */
  datatype Primitives = Primitives(
    dumps: Payload -> Bytes,
    loads: Bytes -> Option<Payload>,
    mac: Bytes -> Bytes)

  ghost predicate Lawful(p: Primitives) {
    && (forall x :: p.dumps(x) != [] && p.loads(p.dumps(x)) == Some(x))
    && (forall b :: p.mac(b) != [])
  }

  function Cursor(payload: Bytes, mac: Bytes): string {
    "v1" + "." + (Encode(payload) + "." + Encode(mac))
  }

  function EncodeCursor(run: string, event: string, p: Primitives): string {
    var payload := p.dumps(Payload(event, run));
    Cursor(payload, p.mac(payload))
  }

  function DecodeCursor(run: string, cursor: string, p: Primitives): Option<string> {
    var parts := Split(cursor, '.');
    if |parts| != 3 || parts[0] != "v1" then None
    else match (Decode(parts[1]), Decode(parts[2]))
      case (Some(payload), Some(signature)) =>
        if signature != p.mac(payload) then None
        else (match p.loads(payload)
          case None => None
          case Some(fields) => if fields.run != run then None else Some(fields.event))
      case (_, _) => None
  }

  lemma SplitCursor(payload: Bytes, mac: Bytes)
    ensures Split(Cursor(payload, mac), '.') == ["v1", Encode(payload), Encode(mac)]
  {
    var a, b := Encode(payload), Encode(mac);
    SplitAtSeparator("v1", a + "." + b, '.');
    SplitAtSeparator(a, b, '.');
    SplitAtSeparator(b, "", '.');
  }

  /** The cursor is the text of this payload with its signature, and the payload names the run and the event. */
  predicate Signs(payload: Bytes, run: string, event: string, cursor: string, p: Primitives) {
    payload != [] && p.loads(payload) == Some(Payload(event, run)) && cursor == Cursor(payload, p.mac(payload))
  }

  /** The codec accepts exactly the texts of a signed payload for this run, and returns its event. */
  lemma AcceptedCursors(run: string, cursor: string, event: string, p: Primitives)
    requires Lawful(p)
    ensures DecodeCursor(run, cursor, p) == Some(event) <==>
            exists payload: Bytes :: Signs(payload, run, event, cursor, p)
  {
    if DecodeCursor(run, cursor, p) == Some(event) {
      var parts := Split(cursor, '.');
      SplitJoins(cursor, '.');
      assert Join(parts[1..], '.') == parts[1] + "." + parts[2];
      AcceptsExactlyCanonical(parts[1]);
      AcceptsExactlyCanonical(parts[2]);
      var payload := Decode(parts[1]).value;
      assert Signs(payload, run, event, cursor, p);
    }
    if payload: Bytes :| Signs(payload, run, event, cursor, p) {
      SplitCursor(payload, p.mac(payload));
      DecodeEncode(payload);
      DecodeEncode(p.mac(payload));
    }
  }

  /** An encoded cursor gives back its event to its own run and is refused to every other run. */
  lemma CursorsAreBoundToTheirRun(run: string, event: string, other: string, p: Primitives)
    requires Lawful(p)
    ensures DecodeCursor(other, EncodeCursor(run, event, p), p) == if other == run then Some(event) else None
  {
    var payload := p.dumps(Payload(event, run));
    SplitCursor(payload, p.mac(payload));
    DecodeEncode(payload);
    DecodeEncode(p.mac(payload));
  }
}
