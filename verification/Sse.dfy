/** The byte format in which values cross between the Rust core and the application. */
module Sse {
  import opened Basics
  import opened Model
  import opened Octets

  newtype i32 = v: int | -0x8000_0000 <= v < 0x8000_0000

  /** How one type is written and read. Reading yields the value and the octets behind it, or `None` where the program
      panics; `fits` tells the values that the format can carry. */
  datatype Codec<!T> = Codec(encode: T -> bytes, decode: bytes -> Option<(T, bytes)>, fits: T -> bool)

  /** Whatever follows a value is left alone by reading it. */
  ghost predicate RoundTrips<T(!new)>(c: Codec<T>) {
    forall t: T, tail: bytes :: c.fits(t) ==> Reads(c, t, tail)
  }

  predicate Reads<T(==)>(c: Codec<T>, t: T, tail: bytes) {
    c.decode(c.encode(t) + tail) == Some((t, tail))
  }

  /** Hence the format is prefix-free: one encoding is never the beginning of another one. */
  lemma PrefixFree<T(!new)>(c: Codec<T>, a: T, b: T, tail: bytes, tail': bytes)
    requires RoundTrips(c) && c.fits(a) && c.fits(b) && c.encode(a) + tail == c.encode(b) + tail'
    ensures a == b && tail == tail'
  {
    assert Reads(c, a, tail) && Reads(c, b, tail');
  }

  // ---- Numbers ----------------------------------------------------------------------------------

  /** An unsigned number of the given width. */
  function Number(width: nat, little: bool): Codec<nat> {
    Codec((n: nat) => NumberBytes(n, width, little),
          (b: bytes) => if |b| < width then None else Some((BytesNumber(b[..width], little), b[width..])),
          (n: nat) => n < Power(width))
  }

  lemma NumberRoundTrips(width: nat, little: bool)
    ensures RoundTrips(Number(width, little))
  {
    var c := Number(width, little);
    forall n: nat, tail: bytes | c.fits(n) ensures Reads(c, n, tail) {
      var b := NumberBytes(n, width, little);
      assert (b + tail)[..width] == b && (b + tail)[width..] == tail;
      NumberRead(n, width, little);
    }
  }

  // ---- Combinations -----------------------------------------------------------------------------

  /** A value kept as one of another type. */
  function Mapped<S, T>(c: Codec<S>, to: T -> S, from: S -> Option<T>): Codec<T> {
    Codec((t: T) => c.encode(to(t)),
          (b: bytes) =>
            match c.decode(b)
            case None => None
            case Some((s, tail)) => (match from(s) case None => None case Some(t) => Some((t, tail))),
          (t: T) => c.fits(to(t)) && from(to(t)).Some?)
  }

  lemma MappedRoundTrips<S(!new), T(!new)>(c: Codec<S>, to: T -> S, from: S -> Option<T>)
    requires RoundTrips(c) && forall t: T :: c.fits(to(t)) ==> from(to(t)) == None || from(to(t)) == Some(t)
    ensures RoundTrips(Mapped(c, to, from))
  {
    var m := Mapped(c, to, from);
    forall t: T, tail: bytes | m.fits(t) ensures Reads(m, t, tail) {
      assert Reads(c, to(t), tail);
    }
  }

  /** The fields of a record, one after the other. */
  function Both<S, T>(a: Codec<S>, b: Codec<T>): Codec<(S, T)> {
    Codec((p: (S, T)) => a.encode(p.0) + b.encode(p.1),
          (data: bytes) =>
            match a.decode(data)
            case None => None
            case Some((s, rest)) => (match b.decode(rest) case None => None case Some((t, tail)) => Some(((s, t), tail))),
          (p: (S, T)) => a.fits(p.0) && b.fits(p.1))
  }

  lemma BothRoundTrip<S(!new), T(!new)>(a: Codec<S>, b: Codec<T>)
    requires RoundTrips(a) && RoundTrips(b)
    ensures RoundTrips(Both(a, b))
  {
    var c := Both(a, b);
    forall p: (S, T), tail: bytes | c.fits(p) ensures Reads(c, p, tail) {
      assert a.encode(p.0) + b.encode(p.1) + tail == a.encode(p.0) + (b.encode(p.1) + tail);
      assert Reads(a, p.0, b.encode(p.1) + tail) && Reads(b, p.1, tail);
    }
  }

  /** A flag, and the value if there is one. */
  function Maybe<T>(c: Codec<T>): Codec<Option<T>> {
    Codec((o: Option<T>) => match o case None => [0] case Some(t) => [1] + c.encode(t),
          (b: bytes) =>
            if b == [] then None
            else if b[0] == 0 then Some((None, b[1..]))
            else (match c.decode(b[1..]) case None => None case Some((t, tail)) => Some((Some(t), tail))),
          (o: Option<T>) => o.None? || c.fits(o.value))
  }

  lemma MaybeRoundTrips<T(!new)>(c: Codec<T>)
    requires RoundTrips(c)
    ensures RoundTrips(Maybe(c))
  {
    var m := Maybe(c);
    forall o: Option<T>, tail: bytes | m.fits(o) ensures Reads(m, o, tail) {
      match o
      case None => assert ([0] + tail)[1..] == tail;
      case Some(t) =>
        assert ([1] + c.encode(t) + tail)[1..] == c.encode(t) + tail;
        assert Reads(c, t, tail);
    }
  }

  // ---- Vectors ----------------------------------------------------------------------------------

  /** The cast of a length to 32 bits, which wraps around. */
  function LengthCast(n: nat): i32 {
    var low := n % 0x1_0000_0000;
    (if low < 0x8000_0000 then low else low - 0x1_0000_0000) as i32
  }

  function Signed(n: nat): int {
    if n < 0x8000_0000 then n else n - 0x1_0000_0000
  }

  function Unsigned(v: i32): nat {
    if v >= 0 then v as nat else v as int + 0x1_0000_0000
  }

  function I32(little: bool): Codec<i32> {
    Mapped(Number(4, little), (v: i32) => Unsigned(v),
           (n: nat) => if n < 0x1_0000_0000 then Some(Signed(n) as i32) else None)
  }

  lemma I32RoundTrips(little: bool)
    ensures RoundTrips(I32(little)) && forall v: i32 :: I32(little).fits(v)
  {
    NumberRoundTrips(4, little);
    Powers();
    MappedRoundTrips(Number(4, little), (v: i32) => Unsigned(v),
                     (n: nat) => if n < 0x1_0000_0000 then Some(Signed(n) as i32) else None);
  }

  function Items<T>(c: Codec<T>, items: seq<T>): bytes {
    if items == [] then [] else c.encode(items[0]) + Items(c, items[1..])
  }

  function ReadItems<T>(c: Codec<T>, n: nat, data: bytes): Option<(seq<T>, bytes)> {
    if n == 0 then Some(([], data))
    else
      match c.decode(data)
      case None => None
      case Some((t, rest)) =>
        match ReadItems(c, n - 1, rest)
        case None => None
        case Some((ts, tail)) => Some(([t] + ts, tail))
  }

  function EncodeVector<T>(c: Codec<T>, little: bool, items: seq<T>): bytes {
    I32(little).encode(LengthCast(|items|)) + Items(c, items)
  }

  function DecodeVector<T>(c: Codec<T>, little: bool, data: bytes): Option<(seq<T>, bytes)> {
    match I32(little).decode(data)
    case None => None
    case Some((n, rest)) => ReadItems(c, if n < 0 then 0 else n as nat, rest)
  }

  /** A length of 32 bits, and the items. A negative length reads as an empty vector. */
  function Vector<T>(c: Codec<T>, little: bool): Codec<seq<T>> {
    Codec((items: seq<T>) => EncodeVector(c, little, items),
          (data: bytes) => DecodeVector(c, little, data),
          (items: seq<T>) => |items| < 0x8000_0000 && forall i :: 0 <= i < |items| ==> c.fits(items[i]))
  }

  lemma LengthKept(n: nat)
    ensures LengthCast(n) as int == n <==> n < 0x8000_0000
  {
  }

  lemma {:induction false} ItemsRead<T(!new)>(c: Codec<T>, items: seq<T>, tail: bytes)
    requires RoundTrips(c) && forall i :: 0 <= i < |items| ==> c.fits(items[i])
    ensures ReadItems(c, |items|, Items(c, items) + tail) == Some((items, tail))
  {
    if items == [] {
      assert Items(c, items) + tail == tail;
    } else {
      var rest := Items(c, items[1..]) + tail;
      assert Items(c, items) + tail == c.encode(items[0]) + rest;
      assert Reads(c, items[0], rest);
      ItemsRead(c, items[1..], tail);
      assert [items[0]] + items[1..] == items;
    }
  }

  lemma LengthRead(n: nat, little: bool, rest: bytes)
    ensures I32(little).decode(I32(little).encode(LengthCast(n)) + rest) == Some((LengthCast(n), rest))
  {
    hide I32;
    I32RoundTrips(little);
    assert I32(little).fits(LengthCast(n)) && Reads(I32(little), LengthCast(n), rest);
  }

  lemma VectorRead<T(!new)>(c: Codec<T>, little: bool, items: seq<T>, tail: bytes)
    requires RoundTrips(c) && |items| < 0x8000_0000 && forall i :: 0 <= i < |items| ==> c.fits(items[i])
    ensures DecodeVector(c, little, EncodeVector(c, little, items) + tail) == Some((items, tail))
  {
    hide I32, LengthCast;
    var rest := Items(c, items) + tail;
    LengthKept(|items|);
    assert EncodeVector(c, little, items) + tail == I32(little).encode(LengthCast(|items|)) + rest;
    LengthRead(|items|, little, rest);
    ItemsRead(c, items, tail);
  }

  lemma VectorRoundTrips<T(!new)>(c: Codec<T>, little: bool)
    requires RoundTrips(c)
    ensures RoundTrips(Vector(c, little))
  {
    hide EncodeVector, DecodeVector;
    var v := Vector(c, little);
    forall items: seq<T>, tail: bytes | v.fits(items) ensures Reads(v, items, tail) {
      VectorRead(c, little, items, tail);
    }
  }

  lemma {:induction false} ItemsCount<T>(c: Codec<T>, n: nat, data: bytes)
    ensures ReadItems(c, n, data).Some? ==> |ReadItems(c, n, data).value.0| == n
  {
    if n > 0 && c.decode(data).Some? {
      ItemsCount(c, n - 1, c.decode(data).value.1);
    }
  }

  /** The bound is exact: a longer vector never comes back, because its length wraps around. */
  lemma VectorReadIff<T(!new)>(c: Codec<T>, little: bool, items: seq<T>, tail: bytes)
    requires RoundTrips(c) && forall i :: 0 <= i < |items| ==> c.fits(items[i])
    ensures DecodeVector(c, little, EncodeVector(c, little, items) + tail) == Some((items, tail)) <==> |items| < 0x8000_0000
  {
    if |items| < 0x8000_0000 {
      VectorRead(c, little, items, tail);
    } else {
      hide I32, LengthCast;
      LengthKept(|items|);
      var rest := Items(c, items) + tail;
      assert EncodeVector(c, little, items) + tail == I32(little).encode(LengthCast(|items|)) + rest;
      LengthRead(|items|, little, rest);
      var n := LengthCast(|items|);
      ItemsCount(c, if n < 0 then 0 else n as nat, rest);
    }
  }

  // ---- Cursors ----------------------------------------------------------------------------------

  /** Writing appends to a buffer. */
  class Serializer {
    var buffer: bytes

    constructor ()
      ensures buffer == []
    {
      buffer := [];
    }

    method Write<T>(c: Codec<T>, t: T)
      modifies this
      ensures buffer == old(buffer) + c.encode(t)
    {
      buffer := buffer + c.encode(t);
    }

    method EncodeVec<T>(c: Codec<T>, little: bool, items: seq<T>)
      modifies this
      ensures buffer == old(buffer) + EncodeVector(c, little, items)
    {
      hide I32, LengthCast;
      Write(I32(little), LengthCast(|items|));
      ghost var start := buffer;
      var left := items;
      while left != []
        invariant buffer + Items(c, left) == start + Items(c, items)
      {
        ghost var before := buffer;
        Write(c, left[0]);
        assert before + (c.encode(left[0]) + Items(c, left[1..])) == before + c.encode(left[0]) + Items(c, left[1..]);
        left := left[1..];
      }
      assert buffer + [] == buffer;
      assert buffer == old(buffer) + (I32(little).encode(LengthCast(|items|)) + Items(c, items));
    }
  }

  /** Reading moves a cursor over the octets; `rest` is what lies behind it. */
  class Deserializer {
    var rest: bytes

    constructor (data: bytes)
      ensures rest == data
    {
      rest := data;
    }

    method Read<T>(c: Codec<T>) returns (t: Option<T>)
      modifies this
      ensures match c.decode(old(rest))
              case None => t == None && rest == old(rest)
              case Some((value, tail)) => t == Some(value) && rest == tail
    {
      match c.decode(rest)
      case None => t := None;
      case Some((value, tail)) =>
        t := Some(value);
        rest := tail;
    }

    method DecodeVec<T>(c: Codec<T>, little: bool) returns (items: Option<seq<T>>)
      modifies this
      ensures match DecodeVector(c, little, old(rest))
              case None => items == None
              case Some((value, tail)) => items == Some(value) && rest == tail
    {
      hide I32;
      var len := Read(I32(little));
      if len.None? {
        return None;
      }
      ghost var n := if len.value < 0 then 0 else len.value as nat;
      ghost var whole := ReadItems(c, n, rest);
      var ans: seq<T> := [];
      var idx: int := 0;
      assert whole.Some? ==> ans + whole.value.0 == whole.value.0;
      while idx < len.value as int
        invariant 0 <= idx <= n
        invariant whole == match ReadItems(c, n - idx, rest)
                           case None => None
                           case Some((ts, tail)) => Some((ans + ts, tail))
      {
        var item := Read(c);
        if item.None? {
          return None;
        }
        ghost var later := ReadItems(c, n - idx - 1, rest);
        assert later.Some? ==> ans + ([item.value] + later.value.0) == ans + [item.value] + later.value.0;
        ans := ans + [item.value];
        idx := idx + 1;
      }
      assert ans + [] == ans;
      items := Some(ans);
    }
  }
}
