/** Bytes and the numbers they stand for. */
module Bytes {

  const SIZE_LIMIT: nat := 0x1_0000_0000_0000_0000

  /** An `int` where a `size_t` is needed: negative numbers become huge ones. */
  function ToSize(n: int): (r: nat)
    ensures n >= 0 ==> r == n
    ensures -(SIZE_LIMIT as int) <= n < 0 ==> r == n + SIZE_LIMIT
  {
    if n >= 0 then n else n % SIZE_LIMIT
  }

  function Byte(n: nat): bv8
    requires n < 256
  {
    n as bv8
  }

  function Number(x: bv8): nat {
    x as nat
  }

  lemma Conversion(n: nat)
    requires n < 256
    ensures (n as bv8) as nat == n
  {
    assert n % 256 == n;
  }

  lemma NumberOfByte(n: nat)
    requires n < 256
    ensures Number(Byte(n)) == n
  {
    Conversion(n);
  }

  lemma NextByte(x: bv8)
    requires x != 255
    ensures Number(x) < 255 && Byte(Number(x) + 1) == x + 1
  {
    assert x < 255 && (x + 1) as nat == x as nat + 1;
  }

  lemma ByteOfNumber(x: bv8)
    ensures Number(x) < 256 && Byte(Number(x)) == x
  {
  }

  lemma Extremes()
    ensures Byte(0) == 0 && Number(255) == 255 && Byte(255) == 255
  {
  }
}
