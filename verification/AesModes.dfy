/** The public part of `aes.cpp`: the block cipher on byte buffers, and the CBC and CTR modes. */
module AesModes {
  import opened AesBlocks
  import opened Aes
  import opened Counters

  /** `s` with the bytes from `at` on replaced by `block`. */
  function Patched(s: seq<bv8>, at: nat, block: seq<bv8>): (r: seq<bv8>)
    requires at + |block| <= |s|
    ensures |r| == |s|
  {
    s[..at] + block + s[at + |block|..]
  }

  /** Sixteen bytes of a buffer seen as a state, as the cast to `state_t` does. */
  method Load(buf: array<bv8>, at: nat) returns (state: array2<bv8>)
    requires at + 16 <= buf.Length
    ensures IsState(state) && fresh(state) && Flat(state) == buf[at..at + 16]
  {
    state := new bv8[4, 4];
    hide Flat;
    for c := 0 to 4
      invariant forall k :: 0 <= k < 4 * c ==> Flat(state)[k] == buf[at + k]
    {
      for r := 0 to 4
        invariant forall k :: 0 <= k < 4 * c + r ==> Flat(state)[k] == buf[at + k]
      {
        Put(state, c, r, buf[at + 4 * c + r]);
      }
    }
  }

  method Store(state: array2<bv8>, buf: array<bv8>, at: nat)
    requires IsState(state) && at + 16 <= buf.Length
    modifies buf
    ensures buf[..] == Patched(old(buf[..]), at, Flat(state))
  {
    hide Flat;
    ghost var block := Flat(state);
    for c := 0 to 4
      invariant Flat(state) == block
      invariant forall k :: 0 <= k < buf.Length ==>
          buf[k] == if at <= k < at + 4 * c then block[k - at] else old(buf[k])
    {
      for r := 0 to 4
        invariant Flat(state) == block
        invariant forall k :: 0 <= k < buf.Length ==>
            buf[k] == if at <= k < at + 4 * c + r then block[k - at] else old(buf[k])
      {
        FlatAt(state, c, r);
        buf[at + 4 * c + r] := state[c, r];
      }
    }
  }

  method EcbEncrypt(rk: seq<bv8>, buf: array<bv8>, at: nat)
    requires IsRoundKeys(rk) && at + 16 <= buf.Length
    modifies buf
    ensures buf[..] == Patched(old(buf[..]), at, Encrypt(rk, old(buf[at..at + 16])))
  {
    hide Flat, Encrypt, Patched;
    var state := Load(buf, at);
    Cipher(state, rk);
    Store(state, buf, at);
  }

  method EcbDecrypt(rk: seq<bv8>, buf: array<bv8>, at: nat)
    requires IsRoundKeys(rk) && at + 16 <= buf.Length
    modifies buf
    ensures buf[..] == Patched(old(buf[..]), at, Decrypt(rk, old(buf[at..at + 16])))
  {
    hide Flat, Decrypt, Patched;
    var state := Load(buf, at);
    InvCipher(state, rk);
    Store(state, buf, at);
  }

  lemma PatchWhole(s: seq<bv8>, a: seq<bv8>)
    requires |a| == |s|
    ensures Patched(s, 0, a) == a && s[0..|s|] == s
  {
  }

  /** A buffer of exactly one block. */
  method EncryptWhole(rk: seq<bv8>, buf: array<bv8>)
    requires IsRoundKeys(rk) && buf.Length == 16
    modifies buf
    ensures buf[..] == Encrypt(rk, old(buf[..]))
  {
    hide Encrypt, Patched;
    ghost var was := buf[..];
    EcbEncrypt(rk, buf, 0);
    PatchWhole(was, Encrypt(rk, was));
    assert was == was[0..16];
  }

  method DecryptWhole(rk: seq<bv8>, buf: array<bv8>)
    requires IsRoundKeys(rk) && buf.Length == 16
    modifies buf
    ensures buf[..] == Decrypt(rk, old(buf[..]))
  {
    hide Decrypt, Patched;
    ghost var was := buf[..];
    EcbDecrypt(rk, buf, 0);
    PatchWhole(was, Decrypt(rk, was));
    assert was == was[0..16];
  }

  // ---------------------------------------------------------------- CBC

  /** The length of a number of whole blocks. */
  predicate Whole(length: nat) {
    length % 16 == 0
  }

  lemma WholeMinus(length: nat)
    requires Whole(length) && length != 0
    ensures length >= 16 && Whole(length - 16)
  {
  }

  lemma WholeNone()
    ensures Whole(0)
  {
  }

  lemma WholePlus(i: nat, length: nat)
    requires Whole(i) && i < length && Whole(length - i)
    ensures Whole(i + 16) && i + 16 <= length && Whole(length - i - 16)
  {
  }

  /** Section 6.2 of NIST SP 800-38A. */
  function CbcEncrypted(rk: seq<bv8>, iv: seq<bv8>, data: seq<bv8>): (r: seq<bv8>)
    requires IsRoundKeys(rk) && IsBlock(iv) && Whole(|data|)
    ensures |r| == |data|
    decreases |data|
  {
    hide Encrypt, Xor, Whole;
    if data == [] then []
    else
      WholeMinus(|data|);
      var c := Encrypt(rk, Xor(data[..16], iv));
      c + CbcEncrypted(rk, c, data[16..])
  }

  /** Every block is combined with the ciphertext of the one before it, the first one with the vector. */
  lemma {:induction false} CbcBlock(rk: seq<bv8>, iv: seq<bv8>, data: seq<bv8>, i: nat)
    requires IsRoundKeys(rk) && IsBlock(iv) && Whole(|data|) && 16 * i + 16 <= |data|
    ensures var c := CbcEncrypted(rk, iv, data);
            c[16 * i..16 * i + 16]
            == Encrypt(rk, Xor(data[16 * i..16 * i + 16], if i == 0 then iv else c[16 * i - 16..16 * i]))
    decreases |data|
  {
    hide Encrypt, Xor, Whole;
    WholeMinus(|data|);
    var first := Encrypt(rk, Xor(data[..16], iv));
    var c, rest := CbcEncrypted(rk, iv, data), CbcEncrypted(rk, first, data[16..]);
    assert c == first + rest;
    if i > 0 {
      CbcBlock(rk, first, data[16..], i - 1);
      assert c[16 * i..16 * i + 16] == rest[16 * i - 16..16 * i];
      assert data[16..][16 * i - 16..16 * i] == data[16 * i..16 * i + 16];
      assert c[16 * i - 16..16 * i] == if i == 1 then first else rest[16 * i - 32..16 * i - 16];
    }
  }

  function CbcDecrypted(rk: seq<bv8>, iv: seq<bv8>, data: seq<bv8>): (r: seq<bv8>)
    requires IsRoundKeys(rk) && IsBlock(iv) && Whole(|data|)
    ensures |r| == |data|
    decreases |data|
  {
    hide Decrypt, Xor, Whole;
    if data == [] then []
    else
      WholeMinus(|data|);
      Xor(Decrypt(rk, data[..16]), iv) + CbcDecrypted(rk, data[..16], data[16..])
  }

  /** The vector left for the next call: the last block of ciphertext, if there is one. */
  function LastBlock(iv: seq<bv8>, cipher: seq<bv8>): (r: seq<bv8>)
    requires IsBlock(iv) && Whole(|cipher|)
    ensures IsBlock(r)
  {
    if cipher == [] then iv else
      WholeMinus(|cipher|);
      cipher[|cipher| - 16..]
  }

  /** CBC decryption undoes CBC encryption, for any number of blocks. */
  lemma {:induction false} CbcRoundTrip(rk: seq<bv8>, iv: seq<bv8>, data: seq<bv8>)
    requires IsRoundKeys(rk) && IsBlock(iv) && Whole(|data|)
    ensures CbcDecrypted(rk, iv, CbcEncrypted(rk, iv, data)) == data
    decreases |data|
  {
    hide Encrypt, Decrypt, Xor, Whole;
    if data != [] {
      WholeMinus(|data|);
      var c := Encrypt(rk, Xor(data[..16], iv));
      var all := CbcEncrypted(rk, iv, data);
      assert all[..16] == c && all[16..] == CbcEncrypted(rk, c, data[16..]);
      DecryptUndoesEncrypt(rk, Xor(data[..16], iv));
      XorTwice(data[..16], iv);
      CbcRoundTrip(rk, c, data[16..]);
    }
  }

  // ---------------------------------------------------------------- CTR

  /**
   * Byte `i` is combined with byte `i % 16` of the encrypted counter block `i / 16` (section 6.5 of NIST SP
   * 800-38A).
   */
  function Keystream(rk: seq<bv8>, iv: seq<bv8>, i: nat): bv8
    requires IsRoundKeys(rk) && IsBlock(iv)
  {
    Encrypt(rk, Counter(iv, i / 16))[i % 16]
  }

  function CtrCrypted(rk: seq<bv8>, iv: seq<bv8>, data: seq<bv8>): (r: seq<bv8>)
    requires IsRoundKeys(rk) && IsBlock(iv)
    ensures |r| == |data|
  {
    seq(|data|, i requires 0 <= i < |data| => data[i] ^ Keystream(rk, iv, i))
  }

  /** The same function decrypts. */
  lemma CtrTwice(rk: seq<bv8>, iv: seq<bv8>, data: seq<bv8>)
    requires IsRoundKeys(rk) && IsBlock(iv)
    ensures CtrCrypted(rk, iv, CtrCrypted(rk, iv, data)) == data
  {
    hide Keystream;
    forall i | 0 <= i < |data| ensures (data[i] ^ Keystream(rk, iv, i)) ^ Keystream(rk, iv, i) == data[i] {
    }
  }

  // ---------------------------------------------------------------- the buffer functions

  class Context {
    const roundKey: seq<bv8>
    const iv: array<bv8>

    ghost predicate Valid() {
      IsRoundKeys(roundKey) && iv.Length == 16
    }

    constructor (roundKey: seq<bv8>, iv: seq<bv8>)
      requires IsRoundKeys(roundKey) && IsBlock(iv)
      ensures Valid() && fresh(this.iv) && this.roundKey == roundKey && this.iv[..] == iv
    {
      this.roundKey := roundKey;
      this.iv := new bv8[16](i requires 0 <= i < 16 => iv[i]);
    }

    static method XorWithIv(buf: array<bv8>, at: nat, iv: seq<bv8>)
      requires IsBlock(iv) && at + 16 <= buf.Length
      modifies buf
      ensures buf[..] == Patched(old(buf[..]), at, Xor(old(buf[at..at + 16]), iv))
    {
      for i := 0 to 16
        invariant forall k :: 0 <= k < buf.Length ==>
                    buf[k] == if at <= k < at + i then old(buf[k]) ^ iv[k - at] else old(buf[k])
      {
        buf[at + i] := buf[at + i] ^ iv[i];
      }
    }

    static method Copy(dst: array<bv8>, src: seq<bv8>)
      requires dst.Length == |src|
      modifies dst
      ensures dst[..] == src
    {
      for i := 0 to |src|
        invariant dst[..i] == src[..i]
      {
        dst[i] := src[i];
      }
    }

    /** The buffer holds a whole number of blocks, as the header demands. */
    method CbcEncryptBuffer(buf: array<bv8>, length: nat)
      requires Valid() && buf != iv && length <= buf.Length && Whole(length)
      modifies buf, iv
      ensures buf[..length] == CbcEncrypted(roundKey, old(iv[..]), old(buf[..length]))
      ensures buf[length..] == old(buf[length..])
      ensures iv[..] == LastBlock(old(iv[..]), buf[..length])
    {
      hide Encrypt, Xor, Whole, CbcEncrypted, Patched;
      var last := iv[..];
      var i := 0;
      WholeNone();
      while i < length
        invariant i <= length && Whole(i) && Whole(length - i) && IsBlock(last) && iv[..] == old(iv[..])
        invariant last == LastBlock(old(iv[..]), buf[..i])
        invariant buf[i..] == old(buf[i..])
        invariant buf[..i] + CbcEncrypted(roundKey, last, buf[i..length])
               == CbcEncrypted(roundKey, old(iv[..]), old(buf[..length]))
      {
        ghost var was := buf[..];
        WholePlus(i, length);
        XorWithIv(buf, i, last);
        EcbEncrypt(roundKey, buf, i);
        PatchTwice(was, i, Xor(was[i..i + 16], last), Encrypt(roundKey, Xor(was[i..i + 16], last)));
        CbcEncryptStep(roundKey, last, was, buf[..], i, length);
        last := buf[i..i + 16];
        i := i + 16;
      }
      Copy(iv, last);
    }

    method CbcDecryptBuffer(buf: array<bv8>, length: nat)
      requires Valid() && buf != iv && length <= buf.Length && Whole(length)
      modifies buf, iv
      ensures buf[..length] == CbcDecrypted(roundKey, old(iv[..]), old(buf[..length]))
      ensures buf[length..] == old(buf[length..])
      ensures iv[..] == LastBlock(old(iv[..]), old(buf[..length]))
    {
      hide Decrypt, Xor, Whole, CbcDecrypted, Patched;
      var i := 0;
      WholeNone();
      while i < length
        invariant i <= length && Whole(i) && Whole(length - i)
        invariant iv[..] == LastBlock(old(iv[..]), old(buf[..i]))
        invariant buf[i..] == old(buf[i..])
        invariant buf[..i] + CbcDecrypted(roundKey, iv[..], buf[i..length])
               == CbcDecrypted(roundKey, old(iv[..]), old(buf[..length]))
      {
        ghost var was, vector := buf[..], iv[..];
        WholePlus(i, length);
        var storeNextIv := buf[i..i + 16];
        EcbDecrypt(roundKey, buf, i);
        XorWithIv(buf, i, iv[..]);
        PatchTwice(was, i, Decrypt(roundKey, was[i..i + 16]), Xor(Decrypt(roundKey, was[i..i + 16]), vector));
        CbcDecryptStep(roundKey, vector, was, buf[..], i, length);
        Copy(iv, storeNextIv);
        i := i + 16;
      }
    }

    /** The byte-carry loop. */
    method Increment()
      requires Valid()
      modifies iv
      ensures iv[..] == Carried(old(iv[..]))
    {
      ghost var was := iv[..];
      assert was[..16] == was;
      var bi: int := 15;
      while bi >= 0
        invariant -1 <= bi <= 15
        invariant iv[..bi + 1] == was[..bi + 1]
        invariant Carried(was) == Carried(was[..bi + 1]) + iv[bi + 1..]
      {
        assert was[..bi + 1][..bi] == was[..bi];
        if iv[bi] == 255 {
          iv[bi] := 0;
          bi := bi - 1;
          continue;
        }
        iv[bi] := iv[bi] + 1;
        break;
      }
    }

    /** The length need not be a whole number of blocks. */
    method CtrXcryptBuffer(buf: array<bv8>, length: nat)
      requires Valid() && buf != iv && length <= buf.Length
      modifies buf, iv
      ensures buf[..length] == CtrCrypted(roundKey, old(iv[..]), old(buf[..length]))
      ensures buf[length..] == old(buf[length..])
      ensures iv[..] == Counter(old(iv[..]), (length + 15) / 16)
    {
      hide Encrypt, Counter, Carried, Patched, Keystream;
      ghost var first := iv[..];
      CounterSteps(first, 0);
      var buffer := new bv8[16];
      var i, bi := 0, 16;
      while i < length
        invariant i <= length && 0 < bi <= 16 && i % 16 == bi % 16
        invariant iv[..] == Counter(first, (i + 15) / 16)
        invariant bi < 16 ==> buffer[..] == Encrypt(roundKey, Counter(first, i / 16))
        invariant forall k :: 0 <= k < i ==> buf[k] == old(buf[k]) ^ Keystream(roundKey, first, k)
        invariant buf[i..] == old(buf[i..])
      {
        if bi == 16 {
          CounterSteps(first, i / 16);
          Copy(buffer, iv[..]);
          EncryptWhole(roundKey, buffer);
          Increment();
          bi := 0;
        }
        KeystreamIs(roundKey, first, i);
        buf[i] := buf[i] ^ buffer[bi];
        i, bi := i + 1, bi + 1;
      }
    }
  }

  /** One block of the encryption loop: it is chained into the rest, and nothing else moves. */
  lemma CbcEncryptStep(rk: seq<bv8>, iv: seq<bv8>, was: seq<bv8>, now: seq<bv8>, i: nat, length: nat)
    requires IsRoundKeys(rk) && IsBlock(iv) && i + 16 <= length <= |was| == |now|
    requires Whole(|was[i..length]|) && Whole(|now[i + 16..length]|)
    requires now == Patched(was, i, Encrypt(rk, Xor(was[i..i + 16], iv)))
    ensures now[..i] == was[..i] && now[i + 16..] == was[i + 16..]
    ensures now[..i + 16] + CbcEncrypted(rk, now[i..i + 16], now[i + 16..length])
         == was[..i] + CbcEncrypted(rk, iv, was[i..length])
  {
    hide Encrypt, Xor, Whole;
    var rest := was[i..length];
    assert rest[..16] == was[i..i + 16] && rest[16..] == was[i + 16..length] == now[i + 16..length];
    assert now[..i + 16] == was[..i] + now[i..i + 16];
  }

  lemma CbcDecryptStep(rk: seq<bv8>, iv: seq<bv8>, was: seq<bv8>, now: seq<bv8>, i: nat, length: nat)
    requires IsRoundKeys(rk) && IsBlock(iv) && i + 16 <= length <= |was| == |now|
    requires Whole(|was[i..length]|) && Whole(|now[i + 16..length]|)
    requires now == Patched(was, i, Xor(Decrypt(rk, was[i..i + 16]), iv))
    ensures now[..i] == was[..i] && now[i + 16..] == was[i + 16..]
    ensures now[..i + 16] + CbcDecrypted(rk, was[i..i + 16], now[i + 16..length])
         == was[..i] + CbcDecrypted(rk, iv, was[i..length])
  {
    hide Decrypt, Xor, Whole;
    var rest := was[i..length];
    assert rest[..16] == was[i..i + 16] && rest[16..] == was[i + 16..length] == now[i + 16..length];
    assert now[..i + 16] == was[..i] + now[i..i + 16];
  }

  lemma PatchTwice(s: seq<bv8>, at: nat, a: seq<bv8>, b: seq<bv8>)
    requires at + |a| <= |s| && |a| == |b|
    ensures Patched(s, at, a)[at..at + |a|] == a && Patched(Patched(s, at, a), at, b) == Patched(s, at, b)
  {
  }

  lemma KeystreamIs(rk: seq<bv8>, iv: seq<bv8>, i: nat)
    requires IsRoundKeys(rk) && IsBlock(iv)
    ensures Keystream(rk, iv, i) == Encrypt(rk, Counter(iv, i / 16))[i % 16]
  {
  }
}
