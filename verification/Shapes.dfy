/** `tensor_iterator.h`: coordinates of a shape, their row-major index, and the iterator over them. */
module Shapes {

  predicate Positive(shape: seq<int>) {
    forall i :: 0 <= i < |shape| ==> shape[i] > 0
  }

  /** The coordinates of a shape. */
  predicate Within(shape: seq<int>, c: seq<int>) {
    |c| == |shape| && forall i :: 0 <= i < |c| ==> 0 <= c[i] < shape[i]
  }

  /** A shape is positive if and only if it has an origin. */
  lemma HasOrigin(shape: seq<int>)
    ensures Positive(shape) <==> Within(shape, seq(|shape|, _ => 0))
  {
  }

  /** The number of coordinates. */
  function Count(shape: seq<int>): int {
    if shape == [] then 1 else Count(shape[..|shape| - 1]) * shape[|shape| - 1]
  }

  /** Row-major index: the last dimension varies fastest. */
  function Index(shape: seq<int>, c: seq<int>): int
    requires |c| == |shape|
  {
    if c == [] then 0
    else Index(shape[..|c| - 1], c[..|c| - 1]) * shape[|c| - 1] + c[|c| - 1]
  }

  // ---------------------------------------------------------------- coordinates and indices correspond

  lemma Grows(a: int, b: int, s: int)
    requires a < b && s > 0
    ensures (a + 1) * s == a * s + s <= b * s
  {
  }

  lemma {:induction false} CountPositive(shape: seq<int>)
    requires Positive(shape)
    ensures Count(shape) > 0
  {
    if shape != [] {
      CountPositive(shape[..|shape| - 1]);
    }
  }

  lemma {:induction false} IndexBounds(shape: seq<int>, c: seq<int>)
    requires Within(shape, c)
    ensures 0 <= Index(shape, c) < Count(shape)
  {
    if c != [] {
      var n := |c| - 1;
      IndexBounds(shape[..n], c[..n]);
      Grows(Index(shape[..n], c[..n]), Count(shape[..n]), shape[n]);
      Grows(-1, Index(shape[..n], c[..n]) + 1, shape[n]);
    }
  }

  lemma DigitsUnique(a: int, c: int, b: int, d: int, s: int)
    requires 0 <= c < s && 0 <= d < s && a * s + c == b * s + d
    ensures a == b && c == d
  {
    if a < b {
      Grows(a, b, s);
      assert false;
    }
    if b < a {
      Grows(b, a, s);
      assert false;
    }
  }

  /** Different coordinates have different indices. */
  lemma {:induction false} IndexInjective(shape: seq<int>, c: seq<int>, d: seq<int>)
    requires Within(shape, c) && Within(shape, d) && Index(shape, c) == Index(shape, d)
    ensures c == d
  {
    if c != [] {
      var n := |c| - 1;
      DigitsUnique(Index(shape[..n], c[..n]), c[n], Index(shape[..n], d[..n]), d[n], shape[n]);
      IndexInjective(shape[..n], c[..n], d[..n]);
      assert c == c[..n] + [c[n]] && d == d[..n] + [d[n]];
    }
  }

  // ---------------------------------------------------------------- the iterator's two moves

  function Increased(shape: seq<int>, c: seq<int>): (r: seq<int>)
    requires |c| == |shape|
    ensures |r| == |c|
  {
    if c == [] then []
    else
      var n := |c| - 1;
      if c[n] + 1 == shape[n] then Increased(shape[..n], c[..n]) + [0] else c[..n] + [c[n] + 1]
  }

  function Decreased(shape: seq<int>, c: seq<int>): (r: seq<int>)
    requires |c| == |shape|
    ensures |r| == |c|
  {
    if c == [] then []
    else
      var n := |c| - 1;
      if c[n] - 1 < 0 then Decreased(shape[..n], c[..n]) + [shape[n] - 1] else c[..n] + [c[n] - 1]
  }

  lemma IndexOfPair(shape: seq<int>, front: seq<int>, x: int)
    requires |shape| == |front| + 1
    ensures Index(shape, front + [x]) == Index(shape[..|front|], front) * shape[|front|] + x
  {
    assert (front + [x])[..|front|] == front;
  }

  /** A number with a last digit `x` to base `s`. It has a name so that the proofs below do not multiply. */
  function Scaled(f: int, s: int, x: int): int {
    f * s + x
  }

  lemma IndexLast(shape: seq<int>, c: seq<int>)
    requires |c| == |shape| > 0
    ensures var n := |c| - 1;
            && Index(shape, c) == Scaled(Index(shape[..n], c[..n]), shape[n], c[n])
            && Count(shape) == Scaled(Count(shape[..n]), shape[n], 0)
  {
  }

  /** The arithmetic of a move. */
  lemma Digits(f: int, m: int, s: int, x: int)
    requires 0 <= f < m && 0 <= x < s
    ensures Scaled(f, s, x) + 1 == Scaled(m, s, 0) <==> f + 1 == m && x + 1 == s
    ensures Scaled(f, s, x) == 0 <==> f == 0 && x == 0
    ensures Scaled(f + 1, s, 0) == Scaled(f, s, s - 1) + 1 && Scaled(f, s, x + 1) == Scaled(f, s, x) + 1
    ensures Scaled(m - 1, s, s - 1) == Scaled(m, s, 0) - 1 && Scaled(0, s, 0) == 0
    ensures Scaled(f - 1, s, s - 1) == Scaled(f, s, 0) - 1 && Scaled(f, s, x - 1) == Scaled(f, s, x) - 1
  {
    Grows(f, m, s);
    Grows(-1, f, s);
    Grows(m - 1, m, s);
    Grows(f - 1, f, s);
    if f + 1 < m {
      Grows(f + 1, m, s);
    }
    if f > 0 {
      Grows(0, f, s);
    }
  }

  lemma {:induction false} IncreasedIndex(shape: seq<int>, c: seq<int>)
    requires Within(shape, c)
    ensures Within(shape, Increased(shape, c))
    ensures Index(shape, Increased(shape, c)) == if Index(shape, c) + 1 == Count(shape) then 0 else Index(shape, c) + 1
  {
    if c == [] {
      assert Index(shape, Increased(shape, c)) == 0 && Count(shape) == 1;
    } else {
      hide Index, Count, Scaled;
      var n := |c| - 1;
      var front := Increased(shape[..n], c[..n]);
      IndexBounds(shape[..n], c[..n]);
      Digits(Index(shape[..n], c[..n]), Count(shape[..n]), shape[n], c[n]);
      IndexLast(shape, c);
      IncreasedIndex(shape[..n], c[..n]);
      var after := Increased(shape, c);
      assert after == if c[n] + 1 == shape[n] then front + [0] else c[..n] + [c[n] + 1];
      hide Increased;
      IndexLast(shape, after);
      assert after[..n] == if c[n] + 1 == shape[n] then front else c[..n];
    }
  }

  lemma {:induction false} DecreasedIndex(shape: seq<int>, c: seq<int>)
    requires Within(shape, c)
    ensures Within(shape, Decreased(shape, c))
    ensures Index(shape, Decreased(shape, c)) == if Index(shape, c) == 0 then Count(shape) - 1 else Index(shape, c) - 1
  {
    if c == [] {
      assert Index(shape, Decreased(shape, c)) == 0 && Count(shape) == 1;
    } else {
      hide Index, Count, Scaled;
      var n := |c| - 1;
      var front := Decreased(shape[..n], c[..n]);
      IndexBounds(shape[..n], c[..n]);
      Digits(Index(shape[..n], c[..n]), Count(shape[..n]), shape[n], c[n]);
      IndexLast(shape, c);
      DecreasedIndex(shape[..n], c[..n]);
      var after := Decreased(shape, c);
      assert after == if c[n] - 1 < 0 then front + [shape[n] - 1] else c[..n] + [c[n] - 1];
      hide Decreased;
      IndexLast(shape, after);
      assert after[..n] == if c[n] - 1 < 0 then front else c[..n];
    }
  }

  lemma AroundOnce(i: int, m: int)
    requires 0 <= i < m
    ensures (i + 1) % m == if i + 1 == m then 0 else i + 1
    ensures (i - 1) % m == if i == 0 then m - 1 else i - 1
  {
  }

  /** The two moves go one up and one down, around the shape. */
  lemma MovesAround(shape: seq<int>, c: seq<int>)
    requires Within(shape, c)
    ensures var m := Count(shape);
            && m > 0
            && Index(shape, Increased(shape, c)) == (Index(shape, c) + 1) % m
            && Index(shape, Decreased(shape, c)) == (Index(shape, c) - 1) % m
  {
    hide Increased, Decreased, Index, Count;
    IndexBounds(shape, c);
    IncreasedIndex(shape, c);
    DecreasedIndex(shape, c);
    AroundOnce(Index(shape, c), Count(shape));
  }

  /** They undo each other. */
  lemma MovesUndo(shape: seq<int>, c: seq<int>)
    requires Within(shape, c)
    ensures Decreased(shape, Increased(shape, c)) == c
    ensures Increased(shape, Decreased(shape, c)) == c
  {
    hide Increased, Decreased;
    var up, down := Increased(shape, c), Decreased(shape, c);
    IndexBounds(shape, c);
    IncreasedIndex(shape, c);
    DecreasedIndex(shape, c);
    DecreasedIndex(shape, up);
    IncreasedIndex(shape, down);
    IndexInjective(shape, Decreased(shape, up), c);
    IndexInjective(shape, Increased(shape, down), c);
  }

  function Origin(shape: seq<int>): (r: seq<int>)
    ensures |r| == |shape|
  {
    seq(|shape|, _ => 0)
  }

  function Advanced(shape: seq<int>, k: nat): (r: seq<int>)
    ensures |r| == |shape|
  {
    if k == 0 then Origin(shape) else Increased(shape, Advanced(shape, k - 1))
  }

  lemma {:induction false} OriginIndex(shape: seq<int>)
    ensures Index(shape, Origin(shape)) == 0
  {
    if shape != [] {
      var n := |shape| - 1;
      OriginIndex(shape[..n]);
      assert Origin(shape)[..n] == Origin(shape[..n]);
    }
  }

  /** From the origin the iterator goes through the shape in row-major order: after `k` moves it is at index `k`. */
  lemma {:induction false} Enumerates(shape: seq<int>, k: nat)
    requires Positive(shape) && k < Count(shape)
    ensures Within(shape, Advanced(shape, k)) && Index(shape, Advanced(shape, k)) == k
  {
    if k == 0 {
      OriginIndex(shape);
    } else {
      Enumerates(shape, k - 1);
      IncreasedIndex(shape, Advanced(shape, k - 1));
    }
  }

  lemma MovesNothing()
    ensures Increased([], []) == [] == Decreased([], [])
  {
  }

  /** A move of the first `d + 1` dimensions. */
  lemma MovesAt(shape: seq<int>, c: seq<int>, d: nat)
    requires d < |c| == |shape|
    ensures Increased(shape[..d + 1], c[..d + 1])
         == if c[d] + 1 == shape[d] then Increased(shape[..d], c[..d]) + [0] else c[..d] + [c[d] + 1]
    ensures Decreased(shape[..d + 1], c[..d + 1])
         == if c[d] - 1 < 0 then Decreased(shape[..d], c[..d]) + [shape[d] - 1] else c[..d] + [c[d] - 1]
  {
    assert c[..d + 1][..d] == c[..d] && shape[..d + 1][..d] == shape[..d];
  }

  class ShapeIterator {
    const shape: seq<int>
    var coordinate: seq<int>

    constructor (shape: seq<int>)
      ensures this.shape == shape && coordinate == Origin(shape)
    {
      this.shape := shape;
      coordinate := seq(|shape|, _ => 0);
    }

    method Rewind()
      requires |coordinate| == |shape|
      modifies this
      ensures coordinate == Origin(shape)
    {
      for i := 0 to |coordinate|
        invariant |coordinate| == |shape| && forall k :: 0 <= k < i ==> coordinate[k] == 0
      {
        coordinate := coordinate[i := 0];
      }
    }

    method Increase()
      requires |coordinate| == |shape|
      modifies this
      ensures coordinate == Increased(shape, old(coordinate))
    {
      hide Increased, Decreased;
      ghost var was := coordinate;
      var dim := |coordinate| - 1;
      assert was[..|was|] == was && shape[..|shape|] == shape;
      MovesNothing();
      while dim >= 0
        invariant -1 <= dim < |was| == |coordinate| && coordinate[..dim + 1] == was[..dim + 1]
        invariant Increased(shape, was) == Increased(shape[..dim + 1], was[..dim + 1]) + coordinate[dim + 1..]
      {
        MovesAt(shape, was, dim);
        if coordinate[dim] + 1 == shape[dim] {
          coordinate := coordinate[dim := 0];
          dim := dim - 1;
          continue;
        } else {
          coordinate := coordinate[dim := coordinate[dim] + 1];
          break;
        }
      }
    }

    method Decrease()
      requires |coordinate| == |shape|
      modifies this
      ensures coordinate == Decreased(shape, old(coordinate))
    {
      hide Increased, Decreased;
      ghost var was := coordinate;
      var dim := |coordinate| - 1;
      assert was[..|was|] == was && shape[..|shape|] == shape;
      MovesNothing();
      while dim >= 0
        invariant -1 <= dim < |was| == |coordinate| && coordinate[..dim + 1] == was[..dim + 1]
        invariant Decreased(shape, was) == Decreased(shape[..dim + 1], was[..dim + 1]) + coordinate[dim + 1..]
      {
        MovesAt(shape, was, dim);
        if coordinate[dim] - 1 < 0 {
          coordinate := coordinate[dim := shape[dim] - 1];
          dim := dim - 1;
          continue;
        } else {
          coordinate := coordinate[dim := coordinate[dim] - 1];
          break;
        }
      }
    }
  }

  // ---------------------------------------------------------------- the weighted shape

  /** The weight of a dimension counts the coordinates from it on. */
  predicate AreWeights(shape: seq<int>, weights: seq<int>) {
    |weights| == |shape| && forall i :: 0 <= i < |shape| ==> weights[i] == Count(shape[i..])
  }

  lemma Associates(a: int, b: int, c: int)
    ensures a * b * c == a * (b * c)
  {
  }

  lemma {:induction false} CountFirst(shape: seq<int>)
    requires shape != []
    ensures Count(shape) == shape[0] * Count(shape[1..])
  {
    var n := |shape| - 1;
    if n > 0 {
      CountFirst(shape[..n]);
      assert shape[..n][1..] == shape[1..][..n - 1];
      Associates(shape[0], Count(shape[1..][..n - 1]), shape[n]);
    } else {
      assert Count(shape[..0]) == 1;
    }
  }

  /** The part of the index that the first digits make up. */
  function Partial(shape: seq<int>, front: seq<int>): int
    requires |front| <= |shape|
  {
    Index(shape[..|front|], front) * Count(shape[|front|..])
  }

  /** One more digit, with its weight. */
  lemma PartialNext(shape: seq<int>, front: seq<int>, x: int)
    requires |front| < |shape|
    ensures Partial(shape, front + [x]) == Partial(shape, front) + x * Count(shape[|front| + 1..])
  {
    var i := |front|;
    IndexOfPair(shape[..i + 1], front, x);
    assert shape[..i + 1][..i] == shape[..i];
    CountFirst(shape[i..]);
    assert shape[i..][1..] == shape[i + 1..];
    hide Index, Count;
    Distributes(Index(shape[..i], front), shape[i], x, Count(shape[i + 1..]));
  }

  lemma PartialEnds(shape: seq<int>, c: seq<int>)
    requires |c| == |shape|
    ensures Partial(shape, []) == 0 && Partial(shape, c) == Index(shape, c)
  {
    assert shape[..|c|] == shape && shape[|c|..] == [];
    assert Index(shape[..0], []) == 0;
  }

  lemma Distributes(f: int, s: int, x: int, w: int)
    ensures (f * s + x) * w == f * (s * w) + x * w
  {
    Associates(f, s, w);
  }

  lemma DigitBelow(rest: int, w: int, s: int)
    requires 0 <= rest && w > 0
    ensures rest == rest / w * w + rest % w && 0 <= rest / w && 0 <= rest % w < w
    ensures rest < s * w ==> rest / w < s
  {
    var d := rest / w;
    assert d >= s ==> (d - s) * w >= 0;
  }

  /** Dividing by the weight splits off the next digit. */
  lemma NextDigit(shape: seq<int>, front: seq<int>, rest: int)
    requires Positive(shape) && |front| < |shape| && 0 <= rest
    ensures var w := Count(shape[|front| + 1..]);
            && w > 0 && 0 <= rest / w && 0 <= rest % w < w
            && Partial(shape, front) + rest == Partial(shape, front + [rest / w]) + rest % w
            && (rest < Count(shape[|front|..]) ==> rest / w < shape[|front|])
  {
    hide Index, Count, Partial;
    var i := |front|;
    CountPositive(shape[i + 1..]);
    var w := Count(shape[i + 1..]);
    DigitBelow(rest, w, shape[i]);
    CountFirst(shape[i..]);
    assert shape[i..][1..] == shape[i + 1..];
    PartialNext(shape, front, rest / w);
  }

  lemma LastDigit(shape: seq<int>, front: seq<int>, rest: int)
    requires |front| + 1 == |shape|
    ensures Partial(shape, front + [rest]) == Partial(shape, front) + rest
    ensures Count(shape[|front|..]) == shape[|front|]
  {
    PartialNext(shape, front, rest);
    CountFirst(shape[|front|..]);
    assert Count([]) == 1;
    hide Partial, Index;
  }

  /** Only the first digit can be too large, and then the index is. */
  lemma {:induction false} WithinIffBelow(shape: seq<int>, c: seq<int>)
    requires Positive(shape) && |c| == |shape| > 0
    requires forall k :: 0 <= k < |c| ==> 0 <= c[k] && (k > 0 ==> c[k] < shape[k])
    ensures Within(shape, c) <==> Index(shape, c) < Count(shape)
  {
    if Within(shape, c) {
      IndexBounds(shape, c);
    } else {
      TooLarge(shape, c);
    }
  }

  lemma {:induction false} TooLarge(shape: seq<int>, c: seq<int>)
    requires Positive(shape) && |c| == |shape| > 0 && c[0] >= shape[0]
    requires forall k :: 0 <= k < |c| ==> 0 <= c[k]
    ensures Index(shape, c) >= Count(shape)
  {
    var n := |c| - 1;
    if n == 0 {
      assert Index(shape[..0], c[..0]) == 0 && Count(shape[..0]) == 1;
    } else {
      TooLarge(shape[..n], c[..n]);
      var f, m, s := Index(shape[..n], c[..n]), Count(shape[..n]), shape[n];
      assert (f - m) * s >= 0;
    }
  }

  class HypeShape {
    const shape: seq<int>
    const weights: seq<int>

    ghost predicate Valid() {
      AreWeights(shape, weights)
    }

    constructor (shape: seq<int>)
      ensures this.shape == shape && Valid()
    {
      this.shape := shape;
      var w := [];
      if shape != [] {
        var n := |shape|;
        w := [shape[n - 1]];
        assert shape[n - 1..] == [shape[n - 1]] && Count([]) == 1;
        assert Count(shape[n - 1..]) == shape[n - 1] by { CountFirst(shape[n - 1..]); }
        for i := n - 1 downto 0
          invariant |w| == n - i && forall k :: i <= k < n ==> w[k - i] == Count(shape[k..])
        {
          CountFirst(shape[i..]);
          assert shape[i..][1..] == shape[i + 1..];
          w := [w[0] * shape[i]] + w;
        }
      }
      weights := w;
    }

    /** A coordinate with fewer dimensions stands for the last ones. */
    method ToIndex(coordinate: seq<int>) returns (index: int)
      requires Valid() && |coordinate| <= |shape|
      ensures index == Index(shape[|shape| - |coordinate|..], coordinate)
    {
      if |coordinate| == 0 {
        return 0;
      }
      var size := |coordinate|;
      var skip := |shape| - size;
      ghost var s := shape[skip..];
      assert Count([]) == 1;
      hide Partial, Index, Count;
      PartialEnds(s, coordinate);
      index := 0;
      for i := 0 to size - 1
        invariant index == Partial(s, coordinate[..i])
      {
        PartialNext(s, coordinate[..i], coordinate[i]);
        assert coordinate[..i + 1] == coordinate[..i] + [coordinate[i]];
        assert s[i + 1..] == shape[skip + i + 1..];
        index := index + weights[skip + i + 1] * coordinate[i];
      }
      PartialNext(s, coordinate[..size - 1], coordinate[size - 1]);
      assert coordinate == coordinate[..size - 1] + [coordinate[size - 1]];
      assert s[size..] == [];
      index := index + coordinate[size - 1];
    }

    method ToCoordinate(index: int) returns (coordinate: seq<int>)
      requires Valid() && Positive(shape) && 0 <= index
      ensures |coordinate| == |shape|
      ensures shape != [] ==> Index(shape, coordinate) == index
      ensures Within(shape, coordinate) <==> index < Count(shape) || shape == []
    {
      if shape == [] {
        return [];
      }
      hide Index, Count, Partial;
      var size := |shape|;
      var rest := index;
      coordinate := [];
      PartialEnds(shape, shape);
      for i := 0 to size - 1
        invariant |coordinate| == i && 0 <= rest && index == Partial(shape, coordinate) + rest
        invariant i > 0 ==> rest < Count(shape[i..])
        invariant forall k :: 0 <= k < i ==> 0 <= coordinate[k] && (k > 0 ==> coordinate[k] < shape[k])
      {
        NextDigit(shape, coordinate, rest);
        var w := weights[i + 1];
        coordinate := coordinate + [rest / w];
        rest := rest % w;
      }
      LastDigit(shape, coordinate, rest);
      coordinate := coordinate + [rest];
      PartialEnds(shape, coordinate);
      WithinIffBelow(shape, coordinate);
    }

    method Total() returns (count: int)
      requires Valid()
      ensures count == Count(shape)
    {
      assert shape[0..] == shape;
      count := if weights == [] then 1 else weights[0];
    }
  }
}
