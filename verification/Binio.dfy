/** `stream.h`: fixed-width values on a byte stream, in the little-endian layout of the memory they are copied from. */
module Binio {
  import opened Collections
  import opened Bytes

  const LIMIT31: nat := 0x8000_0000
  const LIMIT32: nat := 0x1_0000_0000

  /** The four bytes of a `uint32_t`; what does not fit is cut off. */
  function U32(n: nat): (r: seq<bv8>)
    ensures |r| == 4
  {
    [Byte(n % 256), Byte(n / 256 % 256), Byte(n / 65536 % 256), Byte(n / 16777216 % 256)]
  }

  function FromU32(s: seq<bv8>): nat
    requires |s| == 4
  {
    Number(s[0]) + 256 * Number(s[1]) + 65536 * Number(s[2]) + 16777216 * Number(s[3])
  }

  lemma U32RoundTrip(n: nat)
    requires n < LIMIT32
    ensures FromU32(U32(n)) == n
  {
    hide Byte, Number;
    NumberOfByte(n % 256);
    NumberOfByte(n / 256 % 256);
    NumberOfByte(n / 65536 % 256);
    NumberOfByte(n / 16777216 % 256);
    Digits(n);
  }

  /** The low byte comes first. */
  lemma LittleEndian(a: bv8, b: bv8, c: bv8, d: bv8)
    ensures U32(Number(a) + 0x100 * Number(b) + 0x1_0000 * Number(c) + 0x100_0000 * Number(d)) == [a, b, c, d]
  {
    hide Byte, Number;
    ByteOfNumber(a);
    ByteOfNumber(b);
    ByteOfNumber(c);
    ByteOfNumber(d);
    DigitsOf(Number(a), Number(b), Number(c), Number(d));
  }

  lemma DigitsOf(p: nat, q: nat, r: nat, s: nat)
    requires p < 256 && q < 256 && r < 256 && s < 256
    ensures var n := p + 0x100 * q + 0x1_0000 * r + 0x100_0000 * s;
            n % 256 == p && n / 256 % 256 == q && n / 65536 % 256 == r && n / 16777216 % 256 == s
  {
    var n := p + 0x100 * q + 0x1_0000 * r + 0x100_0000 * s;
    assert n / 256 == q + 0x100 * r + 0x1_0000 * s;
    assert n / 65536 == r + 0x100 * s && n / 16777216 == s;
  }

  lemma Digits(n: nat)
    requires n < LIMIT32
    ensures n == n % 256 + 256 * (n / 256 % 256) + 65536 * (n / 65536 % 256) + 16777216 * (n / 16777216 % 256)
  {
    assert n / 65536 == n / 256 / 256 && n / 16777216 == n / 65536 / 256;
    assert n / 16777216 < 256;
  }

  /**
   * What a read makes of the bytes ahead: a value and the bytes after it. It is bad if there are too few bytes,
   * or bytes the reader rejects.
   */
  datatype Parsed<+T> = Parsed(value: T, rest: seq<bv8>) | Bad

  function ParseBytes(s: seq<bv8>, n: nat): Parsed<seq<bv8>> {
    if n <= |s| then Parsed(s[..n], s[n..]) else Bad
  }

  function ParseU32(s: seq<bv8>): Parsed<nat> {
    if 4 <= |s| then Parsed(FromU32(s[..4]), s[4..]) else Bad
  }

  lemma ParseBytesBack(b: seq<bv8>, rest: seq<bv8>)
    ensures ParseBytes(b + rest, |b|) == Parsed(b, rest)
  {
  }

  lemma ParseU32Back(n: nat, rest: seq<bv8>)
    requires n < LIMIT32
    ensures ParseU32(U32(n) + rest) == Parsed(n, rest)
  {
    hide U32, FromU32;
    U32RoundTrip(n);
    assert (U32(n) + rest)[..4] == U32(n) && (U32(n) + rest)[4..] == rest;
  }

  // ---------------------------------------------------------------- lists

  type Parser<!T> = seq<bv8> -> Parsed<T>

  function WriteMany<T>(write: T -> seq<bv8>, xs: seq<T>): seq<bv8> {
    if xs == [] then [] else WriteMany(write, xs[..|xs| - 1]) + write(xs[|xs| - 1])
  }

  lemma WriteManyMore<T>(write: T -> seq<bv8>, xs: seq<T>, x: T)
    ensures WriteMany(write, xs + [x]) == WriteMany(write, xs) + write(x)
  {
    assert (xs + [x])[..|xs|] == xs;
  }

  lemma WriteManyNone<T>(write: T -> seq<bv8>)
    ensures WriteMany(write, []) == []
  {
  }

  function ParseMany<T>(parse: Parser<T>, n: nat, s: seq<bv8>): Parsed<seq<T>> {
    if n == 0 then Parsed([], s) else OneMore(parse, ParseMany(parse, n - 1, s))
  }

  function OneMore<T>(parse: Parser<T>, sofar: Parsed<seq<T>>): Parsed<seq<T>> {
    match sofar
    case Bad => Bad
    case Parsed(xs, rest) =>
      match parse(rest)
      case Bad => Bad
      case Parsed(x, rest') => Parsed(xs + [x], rest')
  }

  lemma {:induction false} ParsedSize<T>(parse: Parser<T>, n: nat, s: seq<bv8>)
    requires ParseMany(parse, n, s).Parsed?
    ensures |ParseMany(parse, n, s).value| == n
  {
    if n > 0 {
      ParsedSize(parse, n - 1, s);
    }
  }

  /** Once reading has failed, it has failed. */
  lemma {:induction false} BadStays<T>(parse: Parser<T>, m: nat, n: nat, s: seq<bv8>)
    requires m <= n && ParseMany(parse, m, s) == Bad
    ensures ParseMany(parse, n, s) == Bad
  {
    if m < n {
      BadStays(parse, m, n - 1, s);
    }
  }

  /** `parse` reads what `write` wrote for `x` as `y`, whatever follows. */
  ghost predicate ReadsAs<T(!new), U(!new)>(write: T -> seq<bv8>, parse: Parser<U>, x: T, y: U) {
    forall rest :: parse(write(x) + rest) == Parsed(y, rest)
  }

  lemma ReadsAsAt<T(!new), U(!new)>(write: T -> seq<bv8>, parse: Parser<U>, x: T, y: U, rest: seq<bv8>)
    requires ReadsAs(write, parse, x, y)
    ensures parse(write(x) + rest) == Parsed(y, rest)
  {
  }

  /** Reading a list back, element by element. */
  lemma {:induction false} ManyBack<T(!new), U(!new)>(write: T -> seq<bv8>, parse: Parser<U>,
                                                      xs: seq<T>, ys: seq<U>, rest: seq<bv8>)
    requires |xs| == |ys| && forall i :: 0 <= i < |xs| ==> ReadsAs(write, parse, xs[i], ys[i])
    ensures ParseMany(parse, |xs|, WriteMany(write, xs) + rest) == Parsed(ys, rest)
  {
    hide ReadsAs;
    if xs == [] {
      assert ys == [];
      assert WriteMany(write, xs) + rest == rest;
    } else {
      var n := |xs| - 1;
      ManyBack(write, parse, xs[..n], ys[..n], write(xs[n]) + rest);
      assert WriteMany(write, xs) + rest == WriteMany(write, xs[..n]) + (write(xs[n]) + rest);
      ReadsAsAt(write, parse, xs[n], ys[n], rest);
      assert ys == ys[..n] + [ys[n]];
    }
  }

  // ---------------------------------------------------------------- the streams

  class ByteWriter {
    var out: seq<bv8>

    constructor ()
      ensures out == []
    {
      out := [];
    }

    method Write(bytes: seq<bv8>) returns (written: nat)
      modifies this
      ensures out == old(out) + bytes && written == |bytes|
    {
      out := out + bytes;
      written := |bytes|;
    }
  }

  class ByteReader {
    const data: seq<bv8>
    var pos: nat

    ghost predicate Valid()
      reads this
    {
      pos <= |data|
    }

    ghost function Ahead(): seq<bv8>
      reads this
      requires Valid()
    {
      data[pos..]
    }

    constructor (bytes: seq<bv8>)
      ensures Valid() && data == bytes && pos == 0 && Ahead() == bytes
    {
      data := bytes;
      pos := 0;
      new;
      assert data[pos..] == bytes;
    }

    method Read(size: nat) returns (r: Option<seq<bv8>>)
      requires Valid()
      modifies this
      ensures Valid() && pos >= old(pos)
      ensures match ParseBytes(old(Ahead()), size)
              case Bad => r.None?
              case Parsed(v, rest) => r == Some(v) && Ahead() == rest && pos == old(pos) + size
    {
      if size > |data| - pos {
        return None;
      }
      assert data[pos..pos + size] == data[pos..][..size];
      assert data[pos + size..] == data[pos..][size..];
      r := Some(data[pos..pos + size]);
      pos := pos + size;
    }

    method ReadU32() returns (r: Option<nat>)
      requires Valid()
      modifies this
      ensures Valid() && pos >= old(pos)
      ensures match ParseU32(old(Ahead()))
              case Bad => r.None?
              case Parsed(v, rest) => r == Some(v) && Ahead() == rest && pos == old(pos) + 4
    {
      hide FromU32;
      var bytes := Read(4);
      if bytes.None? {
        return None;
      }
      return Some(FromU32(bytes.value));
    }
  }
}
