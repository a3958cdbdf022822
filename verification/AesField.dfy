/** Bytes as elements of GF(2^8) (section 4.2 of FIPS 197), and the column mixing built on them. */
module AesField {

  /** Addition in the field. It has a name so that the proofs below can be equational. */
  function Add(x: bv8, y: bv8): bv8 {
    x ^ y
  }

  function Xtime(x: bv8): bv8 {
    (x << 1) ^ (((x >> 7) & 1) * 0x1b)
  }

  /** Multiplication in the field by the polynomial whose coefficients are the bits of `y`. */
  function Product(y: nat, x: bv8): bv8 {
    if y == 0 then 0
    else Add(if y % 2 == 1 then x else 0, Product(y / 2, Xtime(x)))
  }

  /** The `Multiply` macro. */
  function Multiply(x: bv8, y: bv8): bv8 {
    ((y & 1) * x)
    ^ (((y >> 1) & 1) * Xtime(x))
    ^ (((y >> 2) & 1) * Xtime(Xtime(x)))
    ^ (((y >> 3) & 1) * Xtime(Xtime(Xtime(x))))
    ^ (((y >> 4) & 1) * Xtime(Xtime(Xtime(Xtime(x)))))
  }

  /** First row of the matrix of section 5.1.3 of FIPS 197; the other rows are its rotations. */
  function Mixed(a: bv8, b: bv8, c: bv8, d: bv8): bv8 {
    Add(Add(Product(2, a), Product(3, b)), Add(c, d))
  }

  /** First row of the inverse matrix of section 5.3.3. */
  function Unmixed(a: bv8, b: bv8, c: bv8, d: bv8): bv8 {
    Add(Add(Product(14, a), Product(11, b)), Add(Product(13, c), Product(9, d)))
  }

  // ---------------------------------------------------------------- facts about bits

  lemma AddZero(x: bv8)
    ensures Add(x, 0) == x && Add(0, x) == x
  {
  }

  lemma Interchange(a: bv8, b: bv8, c: bv8, d: bv8)
    ensures Add(Add(a, b), Add(c, d)) == Add(Add(a, c), Add(b, d))
  {
    assert (a ^ b) ^ (c ^ d) == (a ^ c) ^ (b ^ d);
  }

  lemma Rotate(a: bv8, b: bv8, c: bv8, d: bv8)
    ensures Add(Add(a, b), Add(c, d)) == Add(Add(d, a), Add(b, c))
  {
  }

  lemma XtimeAdd(x: bv8, y: bv8)
    ensures Xtime(Add(x, y)) == Add(Xtime(x), Xtime(y))
  {
  }

  lemma ProductStep(y: nat, x: bv8)
    requires y > 0
    ensures Product(y, x) == Add(if y % 2 == 1 then x else 0, Product(y / 2, Xtime(x)))
  {
    hide Xtime, Add;
  }

  lemma SmallProducts(x: bv8)
    ensures Product(1, x) == x && Product(2, x) == Xtime(x) && Product(3, x) == Add(x, Xtime(x))
  {
    assert Product(0, Xtime(x)) == 0 && Product(0, Xtime(Xtime(x))) == 0;
    ProductStep(1, x);
    ProductStep(1, Xtime(x));
    ProductStep(2, x);
    ProductStep(3, x);
    hide Product, Xtime;
  }

  lemma UpperProducts(x: bv8)
    ensures var x2 := Xtime(Xtime(x));
            && Product(4, x) == x2 && Product(5, x) == x ^ x2
            && Product(6, x) == Xtime(x) ^ x2 && Product(7, x) == x ^ Xtime(x) ^ x2
  {
    SmallProducts(Xtime(x));
    ProductStep(4, x);
    ProductStep(5, x);
    ProductStep(6, x);
    ProductStep(7, x);
    hide Product, Xtime;
  }

  /** The coefficients in use, spelled out in powers of x. */
  lemma Products(x: bv8)
    ensures Product(9, x) == x ^ Xtime(Xtime(Xtime(x)))
    ensures Product(11, x) == x ^ Xtime(x) ^ Xtime(Xtime(Xtime(x)))
    ensures Product(13, x) == x ^ Xtime(Xtime(x)) ^ Xtime(Xtime(Xtime(x)))
    ensures Product(14, x) == Xtime(x) ^ Xtime(Xtime(x)) ^ Xtime(Xtime(Xtime(x)))
  {
    UpperProducts(Xtime(x));
    ProductStep(9, x);
    ProductStep(11, x);
    ProductStep(13, x);
    ProductStep(14, x);
    hide Product, Xtime;
  }

  /** The macro multiplies in the field, for the coefficients it is used with. */
  lemma MultiplyIsProduct(x: bv8)
    ensures Multiply(x, 0x09) == Product(9, x)
    ensures Multiply(x, 0x0b) == Product(11, x)
    ensures Multiply(x, 0x0d) == Product(13, x)
    ensures Multiply(x, 0x0e) == Product(14, x)
  {
    Products(x);
    hide Product;
  }

  lemma Regroup(a: bv8, b: bv8, c: bv8, d: bv8, a2: bv8, b2: bv8)
    ensures Add(a, Add(Add(a2, b2), Add(Add(Add(a, b), c), d))) == Add(Add(a2, Add(b, b2)), Add(c, d))
  {
  }

  /** The `Tmp`/`Tm` shortcut computes a matrix row. */
  lemma ShortcutIsMixed(a: bv8, b: bv8, c: bv8, d: bv8, tmp: bv8)
    requires tmp == Add(Add(Add(a, b), c), d)
    ensures Add(a, Add(Xtime(Add(a, b)), tmp)) == Mixed(a, b, c, d)
  {
    hide Product, Xtime, Add;
    SmallProducts(a);
    SmallProducts(b);
    XtimeAdd(a, b);
    Regroup(a, b, c, d, Xtime(a), Xtime(b));
  }

  lemma SumTurns(a: bv8, b: bv8, c: bv8, d: bv8)
    ensures Add(Add(Add(a, b), c), d) == Add(Add(Add(b, c), d), a)
  {
  }

  /** The four rows of a column share their sum `tmp`. */
  lemma ShortcutRows(a: bv8, b: bv8, c: bv8, d: bv8, tmp: bv8)
    requires tmp == Add(Add(Add(a, b), c), d)
    ensures Add(a, Add(Xtime(Add(a, b)), tmp)) == Mixed(a, b, c, d)
    ensures Add(b, Add(Xtime(Add(b, c)), tmp)) == Mixed(b, c, d, a)
    ensures Add(c, Add(Xtime(Add(c, d)), tmp)) == Mixed(c, d, a, b)
    ensures Add(d, Add(Xtime(Add(d, a)), tmp)) == Mixed(d, a, b, c)
  {
    hide Mixed, Xtime, Add;
    SumTurns(a, b, c, d);
    SumTurns(b, c, d, a);
    SumTurns(c, d, a, b);
    ShortcutIsMixed(a, b, c, d, tmp);
    ShortcutIsMixed(b, c, d, a, tmp);
    ShortcutIsMixed(c, d, a, b, tmp);
    ShortcutIsMixed(d, a, b, c, tmp);
  }

  lemma Turn(p: bv8, q: bv8, r: bv8, s: bv8)
    ensures p ^ q ^ r ^ s == Add(Add(p, q), Add(r, s)) && p ^ q ^ r ^ s == s ^ p ^ q ^ r
  {
  }

  lemma MultiplyRow(a: bv8, b: bv8, c: bv8, d: bv8)
    ensures Multiply(a, 0x0e) ^ Multiply(b, 0x0b) ^ Multiply(c, 0x0d) ^ Multiply(d, 0x09) == Unmixed(a, b, c, d)
    ensures Multiply(d, 0x09) ^ Multiply(a, 0x0e) ^ Multiply(b, 0x0b) ^ Multiply(c, 0x0d) == Unmixed(a, b, c, d)
    ensures Multiply(c, 0x0d) ^ Multiply(d, 0x09) ^ Multiply(a, 0x0e) ^ Multiply(b, 0x0b) == Unmixed(a, b, c, d)
    ensures Multiply(b, 0x0b) ^ Multiply(c, 0x0d) ^ Multiply(d, 0x09) ^ Multiply(a, 0x0e) == Unmixed(a, b, c, d)
  {
    hide Product, Multiply, Add;
    MultiplyIsProduct(a);
    MultiplyIsProduct(b);
    MultiplyIsProduct(c);
    MultiplyIsProduct(d);
    var p, q, r, s := Product(14, a), Product(11, b), Product(13, c), Product(9, d);
    Turn(p, q, r, s);
    Turn(s, p, q, r);
    Turn(r, s, p, q);
  }

  /** The four sums of `InvMixColumns` are the rows of the inverse matrix. */
  lemma MultiplyRows(a: bv8, b: bv8, c: bv8, d: bv8)
    ensures Multiply(a, 0x0e) ^ Multiply(b, 0x0b) ^ Multiply(c, 0x0d) ^ Multiply(d, 0x09) == Unmixed(a, b, c, d)
    ensures Multiply(a, 0x09) ^ Multiply(b, 0x0e) ^ Multiply(c, 0x0b) ^ Multiply(d, 0x0d) == Unmixed(b, c, d, a)
    ensures Multiply(a, 0x0d) ^ Multiply(b, 0x09) ^ Multiply(c, 0x0e) ^ Multiply(d, 0x0b) == Unmixed(c, d, a, b)
    ensures Multiply(a, 0x0b) ^ Multiply(b, 0x0d) ^ Multiply(c, 0x09) ^ Multiply(d, 0x0e) == Unmixed(d, a, b, c)
  {
    hide Multiply, Unmixed;
    MultiplyRow(a, b, c, d);
    MultiplyRow(b, c, d, a);
    MultiplyRow(c, d, a, b);
    MultiplyRow(d, a, b, c);
  }

  lemma UnitColumn(x: bv8)
    ensures Unmixed(Product(2, x), x, x, Product(3, x)) == x
  {
    SmallProducts(x);
    Products(x);
    Products(Xtime(x));
    Products(x ^ Xtime(x));
    hide Product;
  }

  lemma ZeroColumns(x: bv8)
    ensures var x2, x3 := Product(2, x), Product(3, x);
            Unmixed(x3, x2, x, x) == 0 && Unmixed(x, x3, x2, x) == 0 && Unmixed(x, x, x3, x2) == 0
  {
    SmallProducts(x);
    Products(x);
    Products(Xtime(x));
    Products(x ^ Xtime(x));
    hide Product;
  }

  /** The inverse matrix applied to each column of the matrix: one unit, three zeros. */
  lemma Columns(x: bv8)
    ensures var x2, x3 := Product(2, x), Product(3, x);
            && Unmixed(x2, x, x, x3) == x
            && Unmixed(x3, x2, x, x) == 0 && Unmixed(x, x3, x2, x) == 0 && Unmixed(x, x, x3, x2) == 0
  {
    hide Product, Unmixed;
    UnitColumn(x);
    ZeroColumns(x);
  }

  // ---------------------------------------------------------------- linearity

  lemma {:induction false} ProductAdd(y: nat, a: bv8, b: bv8)
    ensures Product(y, Add(a, b)) == Add(Product(y, a), Product(y, b))
  {
    hide Xtime, Add;
    AddZero(0);
    if y > 0 {
      XtimeAdd(a, b);
      ProductAdd(y / 2, Xtime(a), Xtime(b));
      var odd := y % 2 == 1;
      Interchange(if odd then a else 0, if odd then b else 0, Product(y / 2, Xtime(a)), Product(y / 2, Xtime(b)));
    }
  }

  lemma UnmixedAdd(p: bv8, q: bv8, r: bv8, s: bv8, p': bv8, q': bv8, r': bv8, s': bv8)
    ensures Unmixed(Add(p, p'), Add(q, q'), Add(r, r'), Add(s, s')) == Add(Unmixed(p, q, r, s), Unmixed(p', q', r', s'))
  {
    hide Add, Product;
    ProductAdd(14, p, p');
    ProductAdd(11, q, q');
    ProductAdd(13, r, r');
    ProductAdd(9, s, s');
    Interchange(Product(14, p), Product(14, p'), Product(11, q), Product(11, q'));
    Interchange(Product(13, r), Product(13, r'), Product(9, s), Product(9, s'));
    Interchange(Add(Product(14, p), Product(11, q)), Add(Product(14, p'), Product(11, q')),
                Add(Product(13, r), Product(9, s)), Add(Product(13, r'), Product(9, s')));
  }

  /** A mixed column is the sum of what its four bytes contribute. */
  lemma MixedSplits(a: bv8, b: bv8, c: bv8, d: bv8)
    ensures Mixed(b, c, d, a) == Add(Add(a, Product(2, b)), Add(Product(3, c), d))
    ensures Mixed(c, d, a, b) == Add(Add(a, b), Add(Product(2, c), Product(3, d)))
    ensures Mixed(d, a, b, c) == Add(Add(Product(3, a), b), Add(c, Product(2, d)))
  {
    hide Product, Add;
    Rotate(Product(2, b), Product(3, c), d, a);
    Rotate(Product(2, c), Product(3, d), a, b);
    Rotate(b, Product(2, c), Product(3, d), a);
    Rotate(Product(2, d), Product(3, a), b, c);
    Rotate(c, Product(2, d), Product(3, a), b);
    Rotate(b, c, Product(2, d), Product(3, a));
  }

  /** The inverse matrix undoes the matrix: by linearity, one mixed byte at a time. */
  lemma UnmixedUndoesMixed(a: bv8, b: bv8, c: bv8, d: bv8)
    ensures Unmixed(Mixed(a, b, c, d), Mixed(b, c, d, a), Mixed(c, d, a, b), Mixed(d, a, b, c)) == a
  {
    MixedSplits(a, b, c, d);
    hide Product, Unmixed, Xtime, Add;
    var a2, a3, b2, b3 := Product(2, a), Product(3, a), Product(2, b), Product(3, b);
    var c2, c3, d2, d3 := Product(2, c), Product(3, c), Product(2, d), Product(3, d);
    Columns(a);
    Columns(b);
    Columns(c);
    Columns(d);
    UnmixedAdd(a2, a, a, a3, b3, b2, b, b);
    UnmixedAdd(c, c3, c2, c, d, d, d3, d2);
    UnmixedAdd(Add(a2, b3), Add(a, b2), Add(a, b), Add(a3, b), Add(c, d), Add(c3, d), Add(c2, d3), Add(c, d2));
    AddZero(0);
    AddZero(a);
  }
}
