/** `aes.cpp`: the cipher and its inverse on their 4 by 4 state, in place. */
module Aes {
  import opened AesTables
  import opened AesField
  import opened AesBlocks

  predicate IsState(state: array2<bv8>) {
    state.Length0 == 4 && state.Length1 == 4
  }

  /** The state as the sixteen bytes it is laid over: `state[c, r]` is row `r` of column `c`. */
  function Flat(state: array2<bv8>): (r: seq<bv8>)
    requires IsState(state)
    reads state
    ensures IsBlock(r)
  {
    [state[0, 0], state[0, 1], state[0, 2], state[0, 3], state[1, 0], state[1, 1], state[1, 2], state[1, 3],
     state[2, 0], state[2, 1], state[2, 2], state[2, 3], state[3, 0], state[3, 1], state[3, 2], state[3, 3]]
  }

  lemma FlatAt(state: array2<bv8>, c: nat, r: nat)
    requires IsState(state) && c < 4 && r < 4
    ensures Flat(state)[4 * c + r] == state[c, r]
  {
    assert c == 0 || c == 1 || c == 2 || c == 3;
    assert r == 0 || r == 1 || r == 2 || r == 3;
  }

  method Put(state: array2<bv8>, c: nat, r: nat, x: bv8)
    requires IsState(state) && c < 4 && r < 4
    modifies state
    ensures Flat(state) == old(Flat(state))[4 * c + r := x]
  {
    state[c, r] := x;
    assert c == 0 || c == 1 || c == 2 || c == 3;
    assert r == 0 || r == 1 || r == 2 || r == 3;
  }

  method AddRoundKey(round: nat, state: array2<bv8>, rk: seq<bv8>)
    requires IsState(state) && IsRoundKeys(rk) && round <= ROUNDS
    modifies state
    ensures Flat(state) == Xor(old(Flat(state)), RoundKey(rk, round))
  {
    hide Flat;
    ghost var was, key := Flat(state), RoundKey(rk, round);
    for i := 0 to 4
      invariant forall k :: 0 <= k < 16 ==> Flat(state)[k] == if k < 4 * i then was[k] ^ key[k] else was[k]
    {
      for j := 0 to 4
        invariant forall k :: 0 <= k < 16 ==> Flat(state)[k] == if k < 4 * i + j then was[k] ^ key[k] else was[k]
      {
        FlatAt(state, i, j);
        Put(state, i, j, state[i, j] ^ rk[round * 16 + i * 4 + j]);
      }
    }
  }

  method SubBytes(state: array2<bv8>)
    requires IsState(state)
    modifies state
    ensures Flat(state) == Sub(old(Flat(state)))
  {
    hide Flat, Sbox;
    ghost var was := Flat(state);
    for i := 0 to 4
      invariant forall k :: 0 <= k < 16 ==> Flat(state)[k] == if k % 4 < i then Sbox(was[k]) else was[k]
    {
      for j := 0 to 4
        invariant forall k :: 0 <= k < 16 ==>
                    Flat(state)[k] == if k % 4 < i || (k % 4 == i && k / 4 < j) then Sbox(was[k]) else was[k]
      {
        FlatAt(state, j, i);
        Put(state, j, i, Sbox(state[j, i]));
      }
    }
  }

  method InvSubBytes(state: array2<bv8>)
    requires IsState(state)
    modifies state
    ensures Flat(state) == InvSub(old(Flat(state)))
  {
    hide Flat, InvSbox;
    ghost var was := Flat(state);
    for i := 0 to 4
      invariant forall k :: 0 <= k < 16 ==> Flat(state)[k] == if k % 4 < i then InvSbox(was[k]) else was[k]
    {
      for j := 0 to 4
        invariant forall k :: 0 <= k < 16 ==>
                    Flat(state)[k] == if k % 4 < i || (k % 4 == i && k / 4 < j) then InvSbox(was[k]) else was[k]
      {
        FlatAt(state, j, i);
        Put(state, j, i, InvSbox(state[j, i]));
      }
    }
  }

  method ShiftRows(state: array2<bv8>)
    requires IsState(state)
    modifies state
    ensures Flat(state) == Shift(old(Flat(state)))
  {
    var temp := state[0, 1];
    state[0, 1] := state[1, 1];
    state[1, 1] := state[2, 1];
    state[2, 1] := state[3, 1];
    state[3, 1] := temp;

    temp := state[0, 2];
    state[0, 2] := state[2, 2];
    state[2, 2] := temp;

    temp := state[1, 2];
    state[1, 2] := state[3, 2];
    state[3, 2] := temp;

    temp := state[0, 3];
    state[0, 3] := state[3, 3];
    state[3, 3] := state[2, 3];
    state[2, 3] := state[1, 3];
    state[1, 3] := temp;
  }

  method InvShiftRows(state: array2<bv8>)
    requires IsState(state)
    modifies state
    ensures Flat(state) == InvShift(old(Flat(state)))
  {
    var temp := state[3, 1];
    state[3, 1] := state[2, 1];
    state[2, 1] := state[1, 1];
    state[1, 1] := state[0, 1];
    state[0, 1] := temp;

    temp := state[0, 2];
    state[0, 2] := state[2, 2];
    state[2, 2] := temp;

    temp := state[1, 2];
    state[1, 2] := state[3, 2];
    state[3, 2] := temp;

    temp := state[0, 3];
    state[0, 3] := state[1, 3];
    state[1, 3] := state[2, 3];
    state[2, 3] := state[3, 3];
    state[3, 3] := temp;
  }

  method MixOne(state: array2<bv8>, i: nat)
    requires IsState(state) && i < 4
    modifies state
    ensures Flat(state) == Replaced(old(Flat(state)), i, MixColumn(old(Flat(state))[4 * i..4 * i + 4]))
  {
    hide Flat, Mixed, Xtime, Add;
    ghost var was := Flat(state);
    ghost var a, b, c, d := state[i, 0], state[i, 1], state[i, 2], state[i, 3];
    FlatAt(state, i, 0);
    FlatAt(state, i, 1);
    FlatAt(state, i, 2);
    FlatAt(state, i, 3);
    var t := state[i, 0];
    var tmp := Add(Add(Add(state[i, 0], state[i, 1]), state[i, 2]), state[i, 3]);
    ShortcutRows(a, b, c, d, tmp);
    var tm := Add(state[i, 0], state[i, 1]);
    tm := Xtime(tm);
    Put(state, i, 0, Add(state[i, 0], Add(tm, tmp)));
    FlatAt(state, i, 1);
    FlatAt(state, i, 2);
    tm := Add(state[i, 1], state[i, 2]);
    tm := Xtime(tm);
    Put(state, i, 1, Add(state[i, 1], Add(tm, tmp)));
    FlatAt(state, i, 2);
    FlatAt(state, i, 3);
    tm := Add(state[i, 2], state[i, 3]);
    tm := Xtime(tm);
    Put(state, i, 2, Add(state[i, 2], Add(tm, tmp)));
    FlatAt(state, i, 3);
    tm := Add(state[i, 3], t);
    tm := Xtime(tm);
    Put(state, i, 3, Add(state[i, 3], Add(tm, tmp)));
  }

  method MixColumns(state: array2<bv8>)
    requires IsState(state)
    modifies state
    ensures Flat(state) == Mix(old(Flat(state)))
  {
    hide Flat, Mix, MixColumn, MixedUpTo, Replaced;
    ghost var was := Flat(state);
    MixEnds(was);
    for i := 0 to 4
      invariant Flat(state) == MixedUpTo(was, i)
    {
      MixNext(was, i);
      MixOne(state, i);
    }
  }

  method UnmixOne(state: array2<bv8>, i: nat)
    requires IsState(state) && i < 4
    modifies state
    ensures Flat(state) == Replaced(old(Flat(state)), i, UnmixColumn(old(Flat(state))[4 * i..4 * i + 4]))
  {
    hide Flat, Unmixed, Multiply;
    ghost var was := Flat(state);
    FlatAt(state, i, 0);
    FlatAt(state, i, 1);
    FlatAt(state, i, 2);
    FlatAt(state, i, 3);
    var a, b, c, d := state[i, 0], state[i, 1], state[i, 2], state[i, 3];
    MultiplyRows(a, b, c, d);
    Put(state, i, 0, Multiply(a, 0x0e) ^ Multiply(b, 0x0b) ^ Multiply(c, 0x0d) ^ Multiply(d, 0x09));
    Put(state, i, 1, Multiply(a, 0x09) ^ Multiply(b, 0x0e) ^ Multiply(c, 0x0b) ^ Multiply(d, 0x0d));
    Put(state, i, 2, Multiply(a, 0x0d) ^ Multiply(b, 0x09) ^ Multiply(c, 0x0e) ^ Multiply(d, 0x0b));
    Put(state, i, 3, Multiply(a, 0x0b) ^ Multiply(b, 0x0d) ^ Multiply(c, 0x09) ^ Multiply(d, 0x0e));
  }

  method InvMixColumns(state: array2<bv8>)
    requires IsState(state)
    modifies state
    ensures Flat(state) == Unmix(old(Flat(state)))
  {
    hide Flat, Unmix, UnmixColumn, UnmixedUpTo, Replaced;
    ghost var was := Flat(state);
    MixEnds(was);
    for i := 0 to 4
      invariant Flat(state) == UnmixedUpTo(was, i)
    {
      UnmixNext(was, i);
      UnmixOne(state, i);
    }
  }

  method Cipher(state: array2<bv8>, rk: seq<bv8>)
    requires IsState(state) && IsRoundKeys(rk)
    modifies state
    ensures Flat(state) == Encrypt(rk, old(Flat(state)))
  {
    hide Flat, Sub, Shift, Mix, Xor, RoundKey, IsRoundKeys, IsBlock;
    ghost var was := Flat(state);
    AddRoundKey(0, state, rk);
    for round := 1 to ROUNDS
      invariant Flat(state) == Rounds(rk, round - 1, was)
    {
      SubBytes(state);
      ShiftRows(state);
      MixColumns(state);
      AddRoundKey(round, state, rk);
    }
    SubBytes(state);
    ShiftRows(state);
    AddRoundKey(ROUNDS, state, rk);
  }

  method InvCipher(state: array2<bv8>, rk: seq<bv8>)
    requires IsState(state) && IsRoundKeys(rk)
    modifies state
    ensures Flat(state) == Decrypt(rk, old(Flat(state)))
  {
    hide Flat, InvSub, InvShift, Unmix, Xor, RoundKey, IsRoundKeys, IsBlock;
    ghost var was := Flat(state);
    AddRoundKey(ROUNDS, state, rk);
    for round := ROUNDS downto 1
      invariant Flat(state) == InvRounds(rk, round, was)
    {
      InvShiftRows(state);
      InvSubBytes(state);
      AddRoundKey(round, state, rk);
      InvMixColumns(state);
    }
    InvShiftRows(state);
    InvSubBytes(state);
    AddRoundKey(0, state, rk);
  }
}
