/** Base64 with the URL-safe alphabet and without padding (sections 5 and 3.2 of RFC 4648). */
module Base64 {
  import opened Basics

  type sextet = v: int | 0 <= v < 64

  function Digit(v: sextet): char {
    if v < 26 then 'A' + v as char
    else if v < 52 then 'a' + (v - 26) as char
    else if v < 62 then '0' + (v - 52) as char
    else if v == 62 then '-'
    else '_'
  }

  function Value(c: char): Option<sextet> {
    if 'A' <= c <= 'Z' then Some((c - 'A') as int)
    else if 'a' <= c <= 'z' then Some((c - 'a') as int + 26)
    else if '0' <= c <= '9' then Some((c - '0') as int + 52)
    else if c == '-' then Some(62)
    else if c == '_' then Some(63)
    else None
  }

  lemma DigitsInvert(v: sextet)
    ensures Value(Digit(v)) == Some(v)
    ensures Digit(v) != '.'
  {
  }

  lemma ValuesInvert(c: char)
    ensures Value(c).Some? ==> Digit(Value(c).value) == c
  {
  }

  // Three octets regrouped as four sextets, and back.
  function First(x: byte): sextet { x / 4 }

  function Second(x: byte, y: byte): sextet { x % 4 * 16 + y / 16 }

  function Third(y: byte, z: byte): sextet { y % 16 * 4 + z / 64 }

  function Fourth(z: byte): sextet { z % 64 }

  function Octet0(a: sextet, b: sextet): byte { a * 4 + b / 16 }

  function Octet1(b: sextet, c: sextet): byte { b % 16 * 16 + c / 4 }

  function Octet2(c: sextet, d: sextet): byte { c % 4 * 64 + d }

  lemma RegroupOctets(x: byte, y: byte, z: byte)
    ensures Octet0(First(x), Second(x, y)) == x
    ensures Octet1(Second(x, y), Third(y, z)) == y
    ensures Octet2(Third(y, z), Fourth(z)) == z
    ensures Second(x, 0) % 16 == 0 && Third(y, 0) % 4 == 0
  {
  }

  lemma RegroupSextets(a: sextet, b: sextet, c: sextet, d: sextet)
    ensures First(Octet0(a, b)) == a
    ensures Second(Octet0(a, b), Octet1(b, c)) == b
    ensures Third(Octet1(b, c), Octet2(c, d)) == c
    ensures Fourth(Octet2(c, d)) == d
    ensures b % 16 == 0 ==> Second(Octet0(a, b), 0) == b
    ensures c % 4 == 0 ==> Third(Octet1(b, c), 0) == c
  {
  }

  function Values(s: string): Option<seq<sextet>> {
    if s == "" then Some([])
    else
      match (Value(s[0]), Values(s[1..]))
      case (Some(v), Some(vs)) => Some([v] + vs)
      case _ => None
  }

  function Octets(vs: seq<sextet>): Option<bytes> {
    if vs == [] then Some([])
    else if |vs| == 1 then None
    else if |vs| == 2 then
      if vs[1] % 16 != 0 then None else Some([Octet0(vs[0], vs[1])])
    else if |vs| == 3 then
      if vs[2] % 4 != 0 then None else Some([Octet0(vs[0], vs[1]), Octet1(vs[1], vs[2])])
    else
      match Octets(vs[4..])
      case None => None
      case Some(rest) => Some([Octet0(vs[0], vs[1]), Octet1(vs[1], vs[2]), Octet2(vs[2], vs[3])] + rest)
  }

  /** Strict decoding: a foreign character, an impossible length or non-zero trailing bits are errors. */
  function Decode(s: string): Option<bytes> {
    match Values(s)
    case None => None
    case Some(vs) => Octets(vs)
  }

  function Digits(vs: seq<sextet>): (s: string)
    ensures |s| == |vs|
    ensures forall i :: 0 <= i < |vs| ==> s[i] == Digit(vs[i])
  {
    seq(|vs|, i requires 0 <= i < |vs| => Digit(vs[i]))
  }

  lemma {:induction false} ValuesOfDigits(vs: seq<sextet>)
    ensures Values(Digits(vs)) == Some(vs)
  {
    if vs != [] {
      DigitsInvert(vs[0]);
      ValuesOfDigits(vs[1..]);
      assert Digits(vs)[1..] == Digits(vs[1..]);
      assert [vs[0]] + vs[1..] == vs;
    }
  }

  lemma {:induction false} DigitsOfValues(s: string)
    requires Values(s).Some?
    ensures Digits(Values(s).value) == s
  {
    if s != "" {
      ValuesInvert(s[0]);
      DigitsOfValues(s[1..]);
      var vs := Values(s).value;
      assert Digits(vs) == [s[0]] + Digits(vs[1..]);
    }
  }

  function Sextets(data: bytes): seq<sextet> {
    if data == [] then []
    else if |data| == 1 then [First(data[0]), Second(data[0], 0)]
    else if |data| == 2 then [First(data[0]), Second(data[0], data[1]), Third(data[1], 0)]
    else [First(data[0]), Second(data[0], data[1]), Third(data[1], data[2]), Fourth(data[2])] + Sextets(data[3..])
  }

  function Encode(data: bytes): string {
    Digits(Sextets(data))
  }

  lemma SextetsStep(x: byte, y: byte, z: byte, rest: bytes)
    ensures Sextets([x, y, z] + rest) == [First(x), Second(x, y), Third(y, z), Fourth(z)] + Sextets(rest)
  {
    assert ([x, y, z] + rest)[3..] == rest;
  }

  lemma OctetsStep(a: sextet, b: sextet, c: sextet, d: sextet, rest: seq<sextet>)
    requires Octets(rest).Some?
    ensures Octets([a, b, c, d] + rest) == Some([Octet0(a, b), Octet1(b, c), Octet2(c, d)] + Octets(rest).value)
  {
    assert ([a, b, c, d] + rest)[4..] == rest;
  }

  lemma SextetsOfOne(x: byte)
    ensures Sextets([x]) == [First(x), Second(x, 0)]
  {
  }

  lemma OctetsOfPair(a: sextet, b: sextet)
    requires b % 16 == 0
    ensures Octets([a, b]) == Some([Octet0(a, b)])
  {
  }

  lemma SextetsOfPair(x: byte, y: byte)
    ensures Sextets([x, y]) == [First(x), Second(x, y), Third(y, 0)]
  {
  }

  lemma OctetsOfTriple(a: sextet, b: sextet, c: sextet)
    requires c % 4 == 0
    ensures Octets([a, b, c]) == Some([Octet0(a, b), Octet1(b, c)])
  {
  }

  lemma {:induction false} OctetsOfSextets(data: bytes)
    ensures Octets(Sextets(data)) == Some(data)
  {
    if data == [] {
    } else if |data| == 1 {
      var x := data[0];
      assert data == [x];
      SextetsOfOne(x);
      RegroupOctets(x, 0, 0);
      OctetsOfPair(First(x), Second(x, 0));
    } else if |data| == 2 {
      var x, y := data[0], data[1];
      assert data == [x, y];
      SextetsOfPair(x, y);
      RegroupOctets(x, y, 0);
      OctetsOfTriple(First(x), Second(x, y), Third(y, 0));
    } else {
      var x, y, z, rest := data[0], data[1], data[2], data[3..];
      assert data == [x, y, z] + rest;
      OctetsOfSextets(rest);
      SextetsStep(x, y, z, rest);
      OctetsStep(First(x), Second(x, y), Third(y, z), Fourth(z), Sextets(rest));
      RegroupOctets(x, y, z);
    }
  }

  lemma SextetsOfOctetsShort(vs: seq<sextet>)
    requires |vs| < 4 && Octets(vs).Some?
    ensures Sextets(Octets(vs).value) == vs
  {
    if |vs| == 2 {
      var a, b := vs[0], vs[1];
      assert vs == [a, b];
      OctetsOfPair(a, b);
      SextetsOfOne(Octet0(a, b));
      RegroupSextets(a, b, 0, 0);
    } else if |vs| == 3 {
      var a, b, c := vs[0], vs[1], vs[2];
      assert vs == [a, b, c];
      OctetsOfTriple(a, b, c);
      SextetsOfPair(Octet0(a, b), Octet1(b, c));
      RegroupSextets(a, b, c, 0);
    }
  }

  lemma {:induction false} SextetsOfOctets(vs: seq<sextet>)
    requires Octets(vs).Some?
    ensures Sextets(Octets(vs).value) == vs
  {
    if |vs| < 4 {
      SextetsOfOctetsShort(vs);
    } else {
      var a, b, c, d, rest := vs[0], vs[1], vs[2], vs[3], vs[4..];
      assert vs == [a, b, c, d] + rest;
      SextetsOfOctets(rest);
      OctetsStep(a, b, c, d, rest);
      SextetsStep(Octet0(a, b), Octet1(b, c), Octet2(c, d), Octets(rest).value);
      RegroupSextets(a, b, c, d);
    }
  }

  /** Every byte string survives the round trip. */
  lemma DecodeEncode(data: bytes)
    ensures Decode(Encode(data)) == Some(data)
  {
    ValuesOfDigits(Sextets(data));
    OctetsOfSextets(data);
  }

  /** Decoding is canonical: a string that decodes is the encoding of what it decodes to. */
  lemma EncodeDecode(s: string)
    requires Decode(s).Some?
    ensures Encode(Decode(s).value) == s
  {
    DigitsOfValues(s);
    SextetsOfOctets(Values(s).value);
  }

  lemma EncodeHasNoDot(data: bytes)
    ensures '.' !in Encode(data)
  {
    forall v: sextet ensures Digit(v) != '.' {
      DigitsInvert(v);
    }
  }

  /** The corners of table 2 of RFC 4648, and the first test vectors of its section 10 without their padding. */
  lemma KnownVectors()
    ensures Digit(0) == 'A' && Digit(25) == 'Z' && Digit(26) == 'a' && Digit(51) == 'z'
    ensures Digit(52) == '0' && Digit(61) == '9' && Digit(62) == '-' && Digit(63) == '_'
    ensures Encode([0x66]) == "Zg"
    ensures Encode([0x66, 0x6f]) == "Zm8"
    ensures Encode([0x66, 0x6f, 0x6f]) == "Zm9v"
  {
    SextetsOfOne(0x66);
    SextetsOfPair(0x66, 0x6f);
    SextetsStep(0x66, 0x6f, 0x6f, []);
    assert [0x66, 0x6f, 0x6f] + [] == [0x66, 0x6f, 0x6f];
    assert Digits([25, 32]) == "Zg" && Digits([25, 38, 60]) == "Zm8" && Digits([25, 38, 61, 47]) == "Zm9v";
  }
}
