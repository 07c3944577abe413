/** Numbers as octets, in either byte order. */
module Octets {
  import opened Basics

  /** The lowest `width` octets of `n`, the least significant one first if `little`. */
  function NumberBytes(n: nat, width: nat, little: bool): (b: bytes)
    ensures |b| == width
  {
    if width == 0 then []
    else if little then [n % 256] + NumberBytes(n / 256, width - 1, little)
    else NumberBytes(n / 256, width - 1, little) + [n % 256]
  }

  function BytesNumber(b: bytes, little: bool): nat {
    if b == [] then 0
    else if little then b[0] + 256 * BytesNumber(b[1..], little)
    else BytesNumber(b[..|b| - 1], little) * 256 + b[|b| - 1]
  }

  lemma {:induction false} NumberBound(b: bytes, little: bool)
    ensures BytesNumber(b, little) < Power(|b|)
  {
    if b != [] {
      NumberBound(if little then b[1..] else b[..|b| - 1], little);
    }
  }

  function Power(width: nat): nat {
    if width == 0 then 1 else 256 * Power(width - 1)
  }

  lemma {:induction false} NumberRead(n: nat, width: nat, little: bool)
    requires n < Power(width)
    ensures BytesNumber(NumberBytes(n, width, little), little) == n
  {
    if width > 0 {
      NumberRead(n / 256, width - 1, little);
      var inner := NumberBytes(n / 256, width - 1, little);
      if little {
        assert ([n % 256] + inner)[1..] == inner;
      } else {
        assert (inner + [n % 256])[..|inner|] == inner;
      }
    }
  }

  /** And no octets are read as the number of others of the same length. */
  lemma {:induction false} BytesRead(b: bytes, little: bool)
    ensures NumberBytes(BytesNumber(b, little), |b|, little) == b
  {
    if b != [] {
      var rest := if little then b[1..] else b[..|b| - 1];
      BytesRead(rest, little);
      var n, last := BytesNumber(rest, little), if little then b[0] else b[|b| - 1];
      assert (last + 256 * n) % 256 == last && (last + 256 * n) / 256 == n;
      assert b == if little then [last] + rest else rest + [last];
    }
  }

  lemma Powers()
    ensures Power(1) == 0x100 && Power(2) == 0x1_0000 && Power(4) == 0x1_0000_0000
    ensures Power(8) == 0x1_0000_0000_0000_0000 && Power(16) == 0x1_0000_0000_0000_0000_0000_0000_0000_0000
  {
    assert Power(3) == 256 * Power(2) && Power(5) == 256 * Power(4) && Power(6) == 256 * Power(5) && Power(7) == 256 * Power(6);
    assert Power(9) == 256 * Power(8) && Power(10) == 256 * Power(9) && Power(11) == 256 * Power(10);
    assert Power(12) == 256 * Power(11) && Power(13) == 256 * Power(12) && Power(14) == 256 * Power(13);
    assert Power(15) == 256 * Power(14);
  }

  lemma SmallNumber(n: byte)
    ensures NumberBytes(n, 4, true) == [n, 0, 0, 0] && NumberBytes(n, 4, false) == [0, 0, 0, n]
  {
    assert NumberBytes(0, 1, true) == [0] && NumberBytes(0, 2, true) == [0, 0] && NumberBytes(0, 3, true) == [0, 0, 0];
    assert NumberBytes(0, 1, false) == [0] && NumberBytes(0, 2, false) == [0, 0] && NumberBytes(0, 3, false) == [0, 0, 0];
  }
}
