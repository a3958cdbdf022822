/**
 * The steps of the block cipher as functions on a block of sixteen bytes, byte `4 * c + r`
 * being row `r` of column `c` (section 3.4 of FIPS 197), and the cipher built from them.
 */
module AesBlocks {
  import opened AesTables
  import opened AesField

  const ROUNDS := 14

  predicate IsBlock(s: seq<bv8>) {
    |s| == 16
  }

  predicate IsRoundKeys(rk: seq<bv8>) {
    |rk| == 16 * (ROUNDS + 1)
  }

  function RoundKey(rk: seq<bv8>, round: nat): (r: seq<bv8>)
    requires IsRoundKeys(rk) && round <= ROUNDS
    ensures IsBlock(r)
  {
    rk[16 * round..16 * round + 16]
  }

  /** Byte `i` of round key `round` is byte `16 * round + i` of the round keys. */
  lemma RoundKeyAt(rk: seq<bv8>, round: nat, i: nat)
    requires IsRoundKeys(rk) && round <= ROUNDS && i < 16
    ensures RoundKey(rk, round)[i] == rk[16 * round + i]
  {
  }

  function Xor(a: seq<bv8>, b: seq<bv8>): (r: seq<bv8>)
    requires |a| == |b|
    ensures |r| == |a| && forall i :: 0 <= i < |a| ==> r[i] == a[i] ^ b[i]
  {
    seq(|a|, i requires 0 <= i < |a| => a[i] ^ b[i])
  }

  function Sub(s: seq<bv8>): (r: seq<bv8>)
    ensures |r| == |s| && forall i :: 0 <= i < |s| ==> r[i] == Sbox(s[i])
  {
    seq(|s|, i requires 0 <= i < |s| => Sbox(s[i]))
  }

  function InvSub(s: seq<bv8>): (r: seq<bv8>)
    ensures |r| == |s| && forall i :: 0 <= i < |s| ==> r[i] == InvSbox(s[i])
  {
    seq(|s|, i requires 0 <= i < |s| => InvSbox(s[i]))
  }

  /** Row `r` moves `r` columns to the left (section 5.1.2 of FIPS 197). */
  function Shift(s: seq<bv8>): (t: seq<bv8>)
    requires IsBlock(s)
    ensures IsBlock(t)
  {
    [s[0], s[5], s[10], s[15], s[4], s[9], s[14], s[3], s[8], s[13], s[2], s[7], s[12], s[1], s[6], s[11]]
  }

  lemma ShiftMovesRows(s: seq<bv8>, r: nat, c: nat)
    requires IsBlock(s) && r < 4 && c < 4
    ensures Shift(s)[4 * c + r] == s[4 * ((c + r) % 4) + r]
  {
    assert r == 0 || r == 1 || r == 2 || r == 3;
    assert c == 0 || c == 1 || c == 2 || c == 3;
  }

  function InvShift(s: seq<bv8>): (t: seq<bv8>)
    requires IsBlock(s)
    ensures IsBlock(t)
  {
    [s[0], s[13], s[10], s[7], s[4], s[1], s[14], s[11], s[8], s[5], s[2], s[15], s[12], s[9], s[6], s[3]]
  }

  function MixColumn(s: seq<bv8>): (r: seq<bv8>)
    requires |s| == 4
    ensures |r| == 4
  {
    [Mixed(s[0], s[1], s[2], s[3]), Mixed(s[1], s[2], s[3], s[0]),
     Mixed(s[2], s[3], s[0], s[1]), Mixed(s[3], s[0], s[1], s[2])]
  }

  function UnmixColumn(s: seq<bv8>): (r: seq<bv8>)
    requires |s| == 4
    ensures |r| == 4
  {
    [Unmixed(s[0], s[1], s[2], s[3]), Unmixed(s[1], s[2], s[3], s[0]),
     Unmixed(s[2], s[3], s[0], s[1]), Unmixed(s[3], s[0], s[1], s[2])]
  }

  /** The first `n` columns of `s`, each mixed. */
  function MixColumnsOf(s: seq<bv8>, n: nat): (r: seq<bv8>)
    requires IsBlock(s) && n <= 4
    ensures |r| == 4 * n
  {
    if n == 0 then [] else MixColumnsOf(s, n - 1) + MixColumn(s[4 * n - 4..4 * n])
  }

  function UnmixColumnsOf(s: seq<bv8>, n: nat): (r: seq<bv8>)
    requires IsBlock(s) && n <= 4
    ensures |r| == 4 * n
  {
    if n == 0 then [] else UnmixColumnsOf(s, n - 1) + UnmixColumn(s[4 * n - 4..4 * n])
  }

  function Mix(s: seq<bv8>): (r: seq<bv8>)
    requires IsBlock(s)
    ensures IsBlock(r)
  {
    MixColumnsOf(s, 4)
  }

  function Unmix(s: seq<bv8>): (r: seq<bv8>)
    requires IsBlock(s)
    ensures IsBlock(r)
  {
    UnmixColumnsOf(s, 4)
  }

  // ---------------------------------------------------------------- each step is undone

  lemma XorTwice(a: seq<bv8>, b: seq<bv8>)
    requires |a| == |b|
    ensures Xor(Xor(a, b), b) == a
  {
    forall i | 0 <= i < |a| ensures (a[i] ^ b[i]) ^ b[i] == a[i] {
    }
  }

  lemma InvSubUndoesSub(s: seq<bv8>)
    ensures InvSub(Sub(s)) == s
  {
    forall i | 0 <= i < |s| ensures InvSbox(Sbox(s[i])) == s[i] {
      InvSboxUndoesSbox(s[i]);
    }
  }

  lemma InvShiftUndoesShift(s: seq<bv8>)
    requires IsBlock(s)
    ensures InvShift(Shift(s)) == s
  {
  }

  lemma UnmixColumnUndoesMixColumn(s: seq<bv8>)
    requires |s| == 4
    ensures UnmixColumn(MixColumn(s)) == s
  {
    UnmixedUndoesMixed(s[0], s[1], s[2], s[3]);
    UnmixedUndoesMixed(s[1], s[2], s[3], s[0]);
    UnmixedUndoesMixed(s[2], s[3], s[0], s[1]);
    UnmixedUndoesMixed(s[3], s[0], s[1], s[2]);
    hide Mixed, Unmixed;
  }

  lemma {:induction false} MixColumnsOfAt(s: seq<bv8>, n: nat, i: nat)
    requires IsBlock(s) && i < n <= 4
    ensures MixColumnsOf(s, n)[4 * i..4 * i + 4] == MixColumn(s[4 * i..4 * i + 4])
  {
    hide MixColumn;
    if i < n - 1 {
      MixColumnsOfAt(s, n - 1, i);
      assert MixColumnsOf(s, n)[4 * i..4 * i + 4] == MixColumnsOf(s, n - 1)[4 * i..4 * i + 4];
    }
  }

  lemma {:induction false} UnmixColumnsUndo(s: seq<bv8>, n: nat)
    requires IsBlock(s) && n <= 4
    ensures UnmixColumnsOf(Mix(s), n) == s[..4 * n]
  {
    hide MixColumn, UnmixColumn;
    if n > 0 {
      UnmixColumnsUndo(s, n - 1);
      MixColumnsOfAt(s, 4, n - 1);
      UnmixColumnUndoesMixColumn(s[4 * n - 4..4 * n]);
      assert s[..4 * n] == s[..4 * n - 4] + s[4 * n - 4..4 * n];
    }
  }

  /** `s` with column `i` replaced. */
  function Replaced(s: seq<bv8>, i: nat, column: seq<bv8>): (r: seq<bv8>)
    requires IsBlock(s) && i < 4 && |column| == 4
    ensures IsBlock(r)
  {
    s[..4 * i] + column + s[4 * i + 4..]
  }

  /** Mixing the columns one after the other, in place, gives the mixed block. */
  function MixedUpTo(s: seq<bv8>, n: nat): (r: seq<bv8>)
    requires IsBlock(s) && n <= 4
    ensures IsBlock(r)
  {
    MixColumnsOf(s, n) + s[4 * n..]
  }

  function UnmixedUpTo(s: seq<bv8>, n: nat): (r: seq<bv8>)
    requires IsBlock(s) && n <= 4
    ensures IsBlock(r)
  {
    UnmixColumnsOf(s, n) + s[4 * n..]
  }

  lemma MixNext(s: seq<bv8>, n: nat)
    requires IsBlock(s) && n < 4
    ensures var t := MixedUpTo(s, n); MixedUpTo(s, n + 1) == Replaced(t, n, MixColumn(t[4 * n..4 * n + 4]))
  {
    hide MixColumn;
    assert MixedUpTo(s, n)[4 * n..4 * n + 4] == s[4 * n..4 * n + 4];
  }

  lemma UnmixNext(s: seq<bv8>, n: nat)
    requires IsBlock(s) && n < 4
    ensures var t := UnmixedUpTo(s, n); UnmixedUpTo(s, n + 1) == Replaced(t, n, UnmixColumn(t[4 * n..4 * n + 4]))
  {
    hide UnmixColumn;
    assert UnmixedUpTo(s, n)[4 * n..4 * n + 4] == s[4 * n..4 * n + 4];
  }

  lemma MixEnds(s: seq<bv8>)
    requires IsBlock(s)
    ensures MixedUpTo(s, 0) == s == UnmixedUpTo(s, 0)
    ensures MixedUpTo(s, 4) == Mix(s) && UnmixedUpTo(s, 4) == Unmix(s)
  {
    hide MixColumnsOf, UnmixColumnsOf;
    assert MixColumnsOf(s, 0) == [] == UnmixColumnsOf(s, 0);
  }

  lemma UnmixUndoesMix(s: seq<bv8>)
    requires IsBlock(s)
    ensures Unmix(Mix(s)) == s
  {
    UnmixColumnsUndo(s, 4);
    assert s[..16] == s;
  }

  // ---------------------------------------------------------------- the cipher

  /** The state after the first AddRoundKey and `round` full rounds (section 5.1 of FIPS 197). */
  function Rounds(rk: seq<bv8>, round: nat, s: seq<bv8>): (r: seq<bv8>)
    requires IsRoundKeys(rk) && IsBlock(s) && round < ROUNDS
    ensures IsBlock(r)
  {
    if round == 0 then Xor(s, RoundKey(rk, 0))
    else Xor(Mix(Shift(Sub(Rounds(rk, round - 1, s)))), RoundKey(rk, round))
  }

  function Encrypt(rk: seq<bv8>, s: seq<bv8>): (r: seq<bv8>)
    requires IsRoundKeys(rk) && IsBlock(s)
    ensures IsBlock(r)
  {
    Xor(Shift(Sub(Rounds(rk, ROUNDS - 1, s))), RoundKey(rk, ROUNDS))
  }

  /** The state after the inverse rounds down to and including `round` (section 5.3 of FIPS 197). */
  function InvRounds(rk: seq<bv8>, round: nat, s: seq<bv8>): (r: seq<bv8>)
    requires IsRoundKeys(rk) && IsBlock(s) && 0 < round <= ROUNDS
    ensures IsBlock(r)
    decreases ROUNDS - round
  {
    if round == ROUNDS then Xor(s, RoundKey(rk, ROUNDS))
    else Unmix(Xor(InvSub(InvShift(InvRounds(rk, round + 1, s))), RoundKey(rk, round)))
  }

  function Decrypt(rk: seq<bv8>, s: seq<bv8>): (r: seq<bv8>)
    requires IsRoundKeys(rk) && IsBlock(s)
    ensures IsBlock(r)
  {
    Xor(InvSub(InvShift(InvRounds(rk, 1, s))), RoundKey(rk, 0))
  }

  /** Going backwards, the inverse rounds meet the states of the forward rounds. */
  lemma {:induction false} RoundsMeet(rk: seq<bv8>, round: nat, s: seq<bv8>)
    requires IsRoundKeys(rk) && IsBlock(s) && 0 < round <= ROUNDS
    ensures InvRounds(rk, round, Encrypt(rk, s)) == Shift(Sub(Rounds(rk, round - 1, s)))
    decreases ROUNDS - round
  {
    hide Shift, InvShift, Mix, Unmix, Sub, InvSub;
    if round == ROUNDS {
      XorTwice(Shift(Sub(Rounds(rk, ROUNDS - 1, s))), RoundKey(rk, ROUNDS));
    } else {
      RoundsMeet(rk, round + 1, s);
      var before := Shift(Sub(Rounds(rk, round - 1, s)));
      var after := Rounds(rk, round, s);
      InvShiftUndoesShift(Sub(after));
      InvSubUndoesSub(after);
      XorTwice(Mix(before), RoundKey(rk, round));
      UnmixUndoesMix(before);
    }
  }

  /** Decryption undoes encryption, whatever the round keys. */
  lemma DecryptUndoesEncrypt(rk: seq<bv8>, s: seq<bv8>)
    requires IsRoundKeys(rk) && IsBlock(s)
    ensures Decrypt(rk, Encrypt(rk, s)) == s
  {
    hide Shift, InvShift, Mix, Unmix, Sub, InvSub;
    RoundsMeet(rk, 1, s);
    var first := Rounds(rk, 0, s);
    InvShiftUndoesShift(Sub(first));
    InvSubUndoesSub(first);
    XorTwice(s, RoundKey(rk, 0));
  }
}
