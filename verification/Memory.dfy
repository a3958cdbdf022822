/** `memset` of `memory.cpp`: filling a buffer with a pattern, by copying what is already filled. */
module Memory {
  type Byte(==, 0)

  /** A copy between two places, as a converter makes it. */
  method Convert(dst: array<Byte>, at: nat, src: seq<Byte>)
    requires at + |src| <= dst.Length
    modifies dst
    ensures forall k :: 0 <= k < dst.Length ==> dst[k] == if at <= k < at + |src| then src[k - at] else old(dst[k])
  {
    for i := 0 to |src|
      invariant forall k :: 0 <= k < dst.Length ==> dst[k] == if at <= k < at + i then src[k - at] else old(dst[k])
    {
      dst[at + i] := src[i];
    }
  }

  /** Byte `i` of the pattern repeated for ever. */
  function Pattern(src: seq<Byte>, i: nat): Byte
    requires |src| > 0
  {
    src[i % |src|]
  }

  /** A whole number of patterns further on, the pattern is the same. */
  lemma PatternRepeats(src: seq<Byte>, i: nat, times: nat)
    requires |src| > 0
    ensures Pattern(src, i + times * |src|) == Pattern(src, i)
  {
    ModShift(i, times, |src|);
  }

  lemma ModShift(i: nat, times: nat, n: nat)
    requires n > 0
    ensures (i + times * n) % n == i % n
  {
    var j := i + times * n;
    var d := j / n - (i / n + times);
    assert i == i / n * n + i % n && j == j / n * n + j % n;
    assert d * n == i % n - j % n;
    assert d >= 1 ==> (d - 1) * n >= 0;
    assert d <= -1 ==> (-d - 1) * n >= 0;
  }

  /** How much is filled after some rounds of doubling. */
  function Filled(size: nat, rounds: nat): nat {
    if rounds == 0 then size else 2 * Filled(size, rounds - 1)
  }

  lemma {:induction false} FilledGrows(size: nat, rounds: nat)
    ensures size == 0 ==> Filled(size, rounds) == 0
    ensures size > 0 ==> Filled(size, rounds) > rounds
  {
    if rounds > 0 {
      FilledGrows(size, rounds - 1);
    }
  }

  /** The loop of `memset` comes to an end exactly if the pattern is not empty, whatever there is to fill. */
  lemma DoublingEnds(dstSize: nat, srcSize: nat)
    ensures (exists rounds: nat :: Filled(srcSize, rounds) > dstSize / 2) <==> srcSize > 0
  {
    if srcSize == 0 {
      forall rounds: nat ensures Filled(srcSize, rounds) <= dstSize / 2 {
        FilledGrows(srcSize, rounds);
      }
    } else {
      FilledGrows(srcSize, dstSize);
      assert Filled(srcSize, dstSize) > dstSize / 2;
    }
  }

  /**
   * The first bytes of `dst` become the pattern; the rest is untouched. With an empty pattern there is no end
   * to it.
   */
  method Memset(dst: array<Byte>, dstSize: nat, src: seq<Byte>)
    requires dstSize <= dst.Length && |src| > 0
    modifies dst
    ensures forall i :: 0 <= i < dstSize ==> dst[i] == Pattern(src, i)
    ensures forall i :: dstSize <= i < dst.Length ==> dst[i] == old(dst[i])
  {
    hide Pattern;
    var first := if dstSize <= |src| then dstSize else |src|;
    Convert(dst, 0, src[..first]);
    forall i | 0 <= i < first ensures dst[i] == Pattern(src, i) {
      First(src, i);
    }
    var anchor := |src|;
    ghost var times, rounds := 1, 0;
    while anchor <= dstSize / 2
      invariant anchor == times * |src| == Filled(|src|, rounds) && |src| <= anchor
      invariant anchor <= dstSize || anchor == |src|
      invariant forall i :: 0 <= i < anchor && i < dstSize ==> dst[i] == Pattern(src, i)
      invariant forall i :: dstSize <= i < dst.Length ==> dst[i] == old(dst[i])
      decreases dstSize - anchor
    {
      CopyOn(dst, anchor, anchor, src, times);
      anchor := anchor * 2;
      times, rounds := times * 2, rounds + 1;
    }
    if dstSize > anchor {
      CopyOn(dst, anchor, dstSize - anchor, src, times);
    }
  }

  lemma First(src: seq<Byte>, i: nat)
    requires i < |src|
    ensures Pattern(src, i) == src[i]
  {
  }

  /** What is filled up to `anchor` is copied behind it. */
  method CopyOn(dst: array<Byte>, anchor: nat, size: nat, ghost src: seq<Byte>, ghost times: nat)
    requires |src| > 0 && anchor == times * |src| && size <= anchor && anchor + size <= dst.Length
    requires forall i :: 0 <= i < anchor ==> dst[i] == Pattern(src, i)
    modifies dst
    ensures forall i :: 0 <= i < anchor + size ==> dst[i] == Pattern(src, i)
    ensures forall i :: anchor + size <= i < dst.Length ==> dst[i] == old(dst[i])
  {
    hide Pattern;
    Convert(dst, anchor, dst[..size]);
    forall i | anchor <= i < anchor + size ensures dst[i] == Pattern(src, i) {
      PatternRepeats(src, i - anchor, times);
    }
  }
}
