/** What the substitution table is: inversion in GF(2^8), then an affine map (section 5.1.1 of FIPS 197). */
module AesSbox {
  import opened AesTables
  import opened AesField

  function Bit(y: bv8, i: nat): bv8
    requires i < 8
  {
    (y >> i) & 1
  }

  /** The product of two bytes. */
  function Times(x: bv8, y: bv8): bv8 {
    var x1 := Xtime(x);
    var x2 := Xtime(x1);
    var x3 := Xtime(x2);
    var x4 := Xtime(x3);
    var x5 := Xtime(x4);
    var x6 := Xtime(x5);
    var x7 := Xtime(x6);
    (Bit(y, 0) * x) ^ (Bit(y, 1) * x1) ^ (Bit(y, 2) * x2) ^ (Bit(y, 3) * x3)
    ^ (Bit(y, 4) * x4) ^ (Bit(y, 5) * x5) ^ (Bit(y, 6) * x6) ^ (Bit(y, 7) * x7)
  }

  function Turned(x: bv8, n: nat): bv8
    requires 0 < n < 8
  {
    (x << n) | (x >> (8 - n))
  }

  function Affine(y: bv8): bv8 {
    y ^ Turned(y, 1) ^ Turned(y, 2) ^ Turned(y, 3) ^ Turned(y, 4) ^ 0x63
  }

  function Unaffine(s: bv8): bv8 {
    Turned(s, 1) ^ Turned(s, 3) ^ Turned(s, 6) ^ 0x05
  }

  lemma AffineUndone(y: bv8)
    ensures Affine(Unaffine(y)) == y
  {
  }

  /** The part about inversion, for the one byte that the affine map takes to the table's entry. */
  predicate Inverts(x: bv8) {
    Times(x, Unaffine(Sbox(x))) == if x == 0 then 0 else 1
  }

  lemma InvertsRow0Low(x: bv8)
    requires x < 0x04
    ensures Times(x, Unaffine(SboxRow0(x))) == if x == 0 then 0 else 1
  {
  }

  lemma InvertsRow0Next(x: bv8)
    requires 0x04 <= x < 0x08
    ensures Times(x, Unaffine(SboxRow0(x))) == 1
  {
  }

  lemma InvertsRow0(x: bv8)
    requires x < 0x10
    ensures Times(x, Unaffine(SboxRow0(x))) == if x == 0 then 0 else 1
  {
    if x < 0x04 {
      hide Times, Unaffine, SboxRow0;
      InvertsRow0Low(x);
    } else if x < 0x08 {
      hide Times, Unaffine, SboxRow0;
      InvertsRow0Next(x);
    }
  }

  lemma InvertsFirst(x: bv8)
    requires x < 0x10
    ensures Inverts(x)
  {
    assert Sbox(x) == SboxRow0(x) by {
      hide SboxRow0;
    }
    hide Times, Unaffine, Sbox, SboxRow0;
    InvertsRow0(x);
  }

  lemma InvertsSecond(x: bv8)
    requires 0x10 <= x < 0x20
    ensures Inverts(x)
  {
  }

  lemma InvertsLow(x: bv8)
    requires 0x20 <= x < 0x40
    ensures Inverts(x)
  {
  }

  lemma InvertsMiddle(x: bv8)
    requires 0x40 <= x < 0x80
    ensures Inverts(x)
  {
  }

  lemma InvertsUpper(x: bv8)
    requires 0x80 <= x < 0xc0
    ensures Inverts(x)
  {
  }

  lemma InvertsHigh(x: bv8)
    requires 0xc0 <= x
    ensures Inverts(x)
  {
  }

  lemma InvertsAll(x: bv8)
    ensures Times(x, Unaffine(Sbox(x))) == if x == 0 then 0 else 1
  {
    hide Times, Unaffine, Sbox;
    if x < 0x10 {
      InvertsFirst(x);
    } else if x < 0x20 {
      InvertsSecond(x);
    } else if x < 0x40 {
      InvertsLow(x);
    } else if x < 0x80 {
      InvertsMiddle(x);
    } else if x < 0xc0 {
      InvertsUpper(x);
    } else {
      InvertsHigh(x);
    }
  }

  lemma ZeroFirst()
    ensures Unaffine(Sbox(0)) == 0
  {
  }

  /** Every entry is the affine image of the inverse of its place; zero counts as its own inverse. */
  lemma SboxIsStandard(x: bv8) returns (y: bv8)
    ensures Sbox(x) == Affine(y)
    ensures if x == 0 then y == 0 else Times(x, y) == 1
  {
    y := Unaffine(Sbox(x));
    AffineUndone(Sbox(x));
    InvertsAll(x);
    ZeroFirst();
    hide Times, Sbox, Affine, Unaffine;
  }
}
