/** Counter blocks: sixteen bytes read as a big-endian number (section 6.5 and appendix B.1 of NIST SP 800-38A). */
module Counters {
  import opened Bytes

  function Pow256(n: nat): (r: nat)
    ensures r > 0
  {
    if n == 0 then 1 else 256 * Pow256(n - 1)
  }

  /** The number written big-endian in `b`. */
  function Value(b: seq<bv8>): nat {
    if b == [] then 0 else Value(b[..|b| - 1]) * 256 + Number(b[|b| - 1])
  }

  /** The number `n`, modulo 256 to the power `len`, in `len` bytes. */
  function BigEndian(n: nat, len: nat): (r: seq<bv8>)
    ensures |r| == len
  {
    if len == 0 then [] else BigEndian(n / 256, len - 1) + [Byte(n % 256)]
  }

  /** The counter block `k` steps after `iv`. */
  function Counter(iv: seq<bv8>, k: nat): (r: seq<bv8>)
    ensures |r| == |iv|
  {
    BigEndian(Value(iv) + k, |iv|)
  }

  /** One more, the carry running from the last byte to the first. */
  function Carried(b: seq<bv8>): (r: seq<bv8>)
    ensures |r| == |b|
  {
    if b == [] then []
    else if b[|b| - 1] == 255 then Carried(b[..|b| - 1]) + [0]
    else b[..|b| - 1] + [b[|b| - 1] + 1]
  }

  /** The first byte weighs most. */
  lemma {:induction false} FirstWeighsMost(x: bv8, rest: seq<bv8>)
    ensures Value([x] + rest) == Number(x) * Pow256(|rest|) + Value(rest)
  {
    hide Number;
    var b := [x] + rest;
    if rest == [] {
      assert b[..0] == [] && b[0] == x;
    } else {
      var n := |rest| - 1;
      FirstWeighsMost(x, rest[..n]);
      assert b[..|b| - 1] == [x] + rest[..n] && b[|b| - 1] == rest[n];
      assert Number(x) * Pow256(n) * 256 == Number(x) * Pow256(|rest|);
    }
  }

  /** A counter of sixteen bytes starts again after 2 to the power 128 blocks. */
  lemma Period()
    ensures Pow256(16) == 0x1_0000_0000_0000_0000 * 0x1_0000_0000_0000_0000
  {
    assert Pow256(4) == 0x1_0000_0000;
    assert Pow256(8) == 0x1_0000_0000_0000_0000;
    assert Pow256(12) == 0x1_0000_0000 * 0x1_0000_0000_0000_0000;
  }

  /** Writing in bytes the number read from bytes gives the bytes back. */
  lemma {:induction false} WriteRead(b: seq<bv8>)
    ensures BigEndian(Value(b), |b|) == b
  {
    hide Byte, Number;
    if b != [] {
      var x := b[|b| - 1];
      ByteOfNumber(x);
      WriteRead(b[..|b| - 1]);
      assert Value(b) / 256 == Value(b[..|b| - 1]) && Value(b) % 256 == Number(x);
    }
  }

  /** The carry computes the next block, wrapping around after all ones. */
  lemma {:induction false} CarriedIsNext(n: nat, len: nat)
    ensures Carried(BigEndian(n, len)) == BigEndian(n + 1, len)
  {
    hide Byte;
    if len > 0 {
      NumberOfByte(n % 256);
      Extremes();
      var b := BigEndian(n, len);
      assert b[..len - 1] == BigEndian(n / 256, len - 1) && b[len - 1] == Byte(n % 256);
      if n % 256 == 255 {
        CarriedIsNext(n / 256, len - 1);
        
        assert (n + 1) / 256 == n / 256 + 1 && (n + 1) % 256 == 0;
      } else {
        NextByte(Byte(n % 256));
        assert (n + 1) / 256 == n / 256 && (n + 1) % 256 == n % 256 + 1;
      }
    }
  }

  /** What of `n` does not fit in `len` bytes. */
  function Excess(n: nat, len: nat): nat {
    if len == 0 then n else Excess(n / 256, len - 1)
  }

  lemma Scale(n: nat, h: nat, p: nat, v: nat)
    requires n / 256 == h * p + v && v < p
    ensures n == h * (256 * p) + (v * 256 + n % 256) && v * 256 + n % 256 < 256 * p
  {
    assert h * (256 * p) == 256 * (h * p);
  }

  lemma {:induction false} ReadWrite(n: nat, len: nat)
    ensures n == Excess(n, len) * Pow256(len) + Value(BigEndian(n, len))
    ensures Value(BigEndian(n, len)) < Pow256(len)
  {
    hide Byte, Number;
    if len > 0 {
      var b := BigEndian(n, len);
      ReadWrite(n / 256, len - 1);
      assert b[..len - 1] == BigEndian(n / 256, len - 1);
      NumberOfByte(n % 256);
      Scale(n, Excess(n, len), Pow256(len - 1), Value(b[..len - 1]));
    }
  }

  lemma Multiple(m: int, d: int)
    requires -m < d * m < m
    ensures d == 0
  {
    assert d >= 1 ==> (d - 1) * m >= 0;
    assert d <= -1 ==> (-d - 1) * m >= 0;
  }

  lemma UniqueRemainder(n: nat, m: nat, q: nat, r: nat)
    requires m > 0 && n == q * m + r && r < m
    ensures n % m == r
  {
    var q', r' := n / m, n % m;
    assert n == q' * m + r';
    assert (q - q') * m == r' - r;
    Multiple(m, q - q');
  }

  /** Block `k` of the counter sequence is the initial one plus `k`, modulo 2 to the power 128. */
  lemma CounterValue(iv: seq<bv8>, k: nat)
    ensures Value(Counter(iv, k)) == (Value(iv) + k) % Pow256(|iv|)
  {
    hide BigEndian, Value, Pow256;
    var n, v, m := Value(iv) + k, Value(Counter(iv, k)), Pow256(|iv|);
    var x := Excess(n, |iv|);
    assert n == x * m + v && v < m by { ReadWrite(n, |iv|); }
    UniqueRemainder(n, m, x, v);
  }

  /** The sequence starts at the initial block, and the carry steps along it. */
  lemma CounterSteps(iv: seq<bv8>, k: nat)
    ensures Counter(iv, 0) == iv && Carried(Counter(iv, k)) == Counter(iv, k + 1)
  {
    hide BigEndian, Value, Carried;
    WriteRead(iv);
    CarriedIsNext(Value(iv) + k, |iv|);
  }
}
