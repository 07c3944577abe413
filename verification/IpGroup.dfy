/** The strings that decide which devices share a room on the signaling server. */
module IpGroup {
  import opened Basics
  import Token

  datatype IpAddr =
    | V4(a: u8, b: u8, c: u8, d: u8)
    | V6(s0: u16, s1: u16, s2: u16, s3: u16, s4: u16, s5: u16, s6: u16, s7: u16)

  const DIGITS: string := "0123456789abcdef"

  function DigitValue(c: char): nat {
    if '0' <= c <= '9' then c as nat - '0' as nat
    else if 'a' <= c <= 'f' then c as nat - 'a' as nat + 10
    else 0
  }

  /** A number without leading zeros. */
  function Print(n: nat, base: nat): string
    requires 2 <= base <= 16
  {
    if n < base then [DIGITS[n]] else Print(n / base, base) + [DIGITS[n % base]]
  }

  function Parse(s: string, base: nat): nat {
    if s == "" then 0 else Parse(s[..|s| - 1], base) * base + DigitValue(s[|s| - 1])
  }

  lemma DigitRead(d: nat)
    requires d < 16
    ensures DigitValue(DIGITS[d]) == d
  {
  }

  lemma Euclid(n: nat, base: nat)
    requires base > 0
    ensures n / base * base + n % base == n
  {
  }

  lemma ParseSnoc(s: string, c: char, base: nat)
    ensures Parse(s + [c], base) == Parse(s, base) * base + DigitValue(c)
  {
    assert (s + [c])[..|s|] == s;
  }

  /** Printing loses nothing, so different numbers print differently. */
  lemma {:induction false} ParsePrint(n: nat, base: nat)
    requires 2 <= base <= 16
    ensures Parse(Print(n, base), base) == n
  {
    hide DigitValue, Parse;
    if n < base {
      DigitRead(n);
      assert Parse("", base) == 0 by { ParseNothing(base); }
      ParseSnoc("", DIGITS[n], base);
      assert "" + [DIGITS[n]] == [DIGITS[n]];
    } else {
      ParsePrint(n / base, base);
      DigitRead(n % base);
      ParseSnoc(Print(n / base, base), DIGITS[n % base], base);
      Euclid(n, base);
    }
  }

  lemma ParseNothing(base: nat)
    ensures Parse("", base) == 0
  {
  }

  lemma {:induction false} PrintHasNo(n: nat, base: nat, separator: char)
    requires 2 <= base <= 16 && separator !in DIGITS
    ensures separator !in Print(n, base)
  {
    if n >= base {
      PrintHasNo(n / base, base, separator);
    }
  }

  function Numbers(ip: IpAddr): (numbers: seq<nat>)
    ensures |numbers| == 4
  {
    match ip
    case V4(a, b, c, d) => [a as nat, b as nat, c as nat, d as nat]
    case V6(s0, s1, s2, s3, _, _, _, _) => [s0 as nat, s1 as nat, s2 as nat, s3 as nat]
  }

  function Printed(numbers: seq<nat>, base: nat): (fields: seq<string>)
    requires 2 <= base <= 16
    ensures |fields| == |numbers| && forall i :: 0 <= i < |numbers| ==> fields[i] == Print(numbers[i], base)
  {
    seq(|numbers|, i requires 0 <= i < |numbers| => Print(numbers[i], base))
  }

  function GetIpGroup(ip: IpAddr): string {
    if ip.V4? then Token.Join(Printed(Numbers(ip), 10), '.')
    else Token.Join(Printed(Numbers(ip), 16), ':')
  }

  lemma SplitPrinted(numbers: seq<nat>, base: nat, separator: char)
    requires 2 <= base <= 16 && separator !in DIGITS && numbers != []
    ensures Token.Split(Token.Join(Printed(numbers, base), separator), separator) == Printed(numbers, base)
  {
    forall field | field in Printed(numbers, base) ensures separator !in field {
      var i :| 0 <= i < |numbers| && field == Print(numbers[i], base);
      PrintHasNo(numbers[i], base, separator);
    }
    Token.SplitJoin(Printed(numbers, base), separator);
  }

  lemma PrintedInjective(a: seq<nat>, b: seq<nat>, base: nat)
    requires 2 <= base <= 16 && Printed(a, base) == Printed(b, base)
    ensures a == b
  {
    assert |a| == |Printed(a, base)| == |b|;
    forall i | 0 <= i < |a| ensures a[i] == b[i] {
      assert Printed(a, base)[i] == Printed(b, base)[i];
      ParsePrint(a[i], base);
      ParsePrint(b[i], base);
    }
  }

  lemma {:induction false} JoinHasNo(fields: seq<string>, separator: char, c: char)
    requires fields != [] && c != separator && forall f :: f in fields ==> c !in f
    ensures c !in Token.Join(fields, separator)
  {
    if |fields| > 1 {
      JoinHasNo(fields[1..], separator, c);
    }
  }

  /** Only groups of IPv6 addresses contain a colon. */
  lemma V4HasNoColon(ip: IpAddr)
    requires ip.V4?
    ensures Token.Split(GetIpGroup(ip), ':') == [GetIpGroup(ip)]
  {
    var fields := Printed(Numbers(ip), 10);
    forall field | field in fields ensures ':' !in field {
      var i :| 0 <= i < 4 && field == Print(Numbers(ip)[i], 10);
      PrintHasNo(Numbers(ip)[i], 10, ':');
    }
    JoinHasNo(fields, '.', ':');
    Token.SplitField(GetIpGroup(ip), ':', "");
  }

  /** The same IPv4 address, or IPv6 addresses in the same /64 network. */
  predicate SameNetwork(x: IpAddr, y: IpAddr) {
    match (x, y)
    case (V4(_, _, _, _), V4(_, _, _, _)) => x == y
    case (V6(_, _, _, _, _, _, _, _), V6(_, _, _, _, _, _, _, _)) =>
      x.s0 == y.s0 && x.s1 == y.s1 && x.s2 == y.s2 && x.s3 == y.s3
    case _ => false
  }

  lemma NetworkNumbers(x: IpAddr, y: IpAddr)
    ensures SameNetwork(x, y) <==> (x.V4? <==> y.V4?) && Numbers(x) == Numbers(y)
  {
    if Numbers(x) == Numbers(y) {
      assert forall i :: 0 <= i < 4 ==> Numbers(x)[i] == Numbers(y)[i];
    }
  }

  lemma SameKind(x: IpAddr, y: IpAddr)
    requires GetIpGroup(x) == GetIpGroup(y) && x.V4?
    ensures y.V4?
  {
    V4HasNoColon(x);
    if y.V6? {
      SplitPrinted(Numbers(y), 16, ':');
    }
  }

  /** Two devices get the same group exactly if they are in the same network, of an address or of 64 bits. In particular
      no group of an IPv4 address is one of IPv6 addresses. */
  lemma SameGroupIff(x: IpAddr, y: IpAddr)
    ensures GetIpGroup(x) == GetIpGroup(y) <==> SameNetwork(x, y)
  {
    hide SameNetwork, Token.Join, Token.Split;
    NetworkNumbers(x, y);
    if GetIpGroup(x) == GetIpGroup(y) {
      if x.V4? {
        SameKind(x, y);
      } else if y.V4? {
        SameKind(y, x);
      }
      var (base, separator) := if x.V4? then (10, '.') else (16, ':');
      SplitPrinted(Numbers(x), base, separator);
      SplitPrinted(Numbers(y), base, separator);
      PrintedInjective(Numbers(x), Numbers(y), base);
    }
  }

  lemma {:induction false} NoLeadingZero(n: nat, base: nat)
    requires 2 <= base <= 16
    ensures |Print(n, base)| > 0 && (|Print(n, base)| > 1 ==> Print(n, base)[0] != '0')
    ensures n > 0 ==> Print(n, base)[0] != '0'
  {
    if n >= base {
      NoLeadingZero(n / base, base);
    }
  }

  /** How a group reads: the four numbers of an IPv4 address in decimal, separated by dots, or the first four of an IPv6
      address in hexadecimal, separated by colons, in either case without leading zeros. */
  lemma GroupFields(ip: IpAddr)
    ensures var (separator, base) := if ip.V4? then ('.', 10) else (':', 16);
            var numbers := match ip
                           case V4(a, b, c, d) => [a as nat, b as nat, c as nat, d as nat]
                           case V6(a, b, c, d, _, _, _, _) => [a as nat, b as nat, c as nat, d as nat];
            var fields := Token.Split(GetIpGroup(ip), separator);
            && |fields| == 4
            && forall i :: 0 <= i < 4 ==>
                 && Parse(fields[i], base) == numbers[i]
                 && (|fields[i]| > 1 ==> fields[i][0] != '0')
  {
    var (separator, base) := if ip.V4? then ('.', 10) else (':', 16);
    SplitPrinted(Numbers(ip), base, separator);
    forall i | 0 <= i < 4
      ensures var field := Token.Split(GetIpGroup(ip), separator)[i];
              Parse(field, base) == Numbers(ip)[i] && (|field| > 1 ==> field[0] != '0')
    {
      ParsePrint(Numbers(ip)[i], base);
      NoLeadingZero(Numbers(ip)[i], base);
    }
  }

  /** The examples of the repository. */
  lemma GroupExamples()
    ensures GetIpGroup(V4(1, 2, 3, 4)) == "1.2.3.4"
    ensures GetIpGroup(V6(0xa, 0xb, 0xc, 0xd, 0xe, 0xf, 0, 1)) == "a:b:c:d"
  {
    hide Token.Join;
    assert Printed([1, 2, 3, 4], 10) == ["1", "2", "3", "4"];
    assert Printed([0xa, 0xb, 0xc, 0xd], 16) == ["a", "b", "c", "d"];
    JoinFour("1", "2", "3", "4", '.');
    JoinFour("a", "b", "c", "d", ':');
  }

  lemma JoinFour(a: string, b: string, c: string, d: string, separator: char)
    ensures Token.Join([a, b, c, d], separator) == a + [separator] + b + [separator] + c + [separator] + d
  {
    assert [a, b, c, d][1..] == [b, c, d] && [b, c, d][1..] == [c, d] && [c, d][1..] == [d];
    assert Token.Join([c, d], separator) == c + [separator] + d;
    assert Token.Join([b, c, d], separator) == b + [separator] + Token.Join([c, d], separator);
    assert Token.Join([a, b, c, d], separator) == a + [separator] + Token.Join([b, c, d], separator);
    var s := [separator];
    assert a + s + (b + s + (c + s + d)) == a + s + b + s + c + s + d;
  }
}
