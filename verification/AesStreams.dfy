/** `aes_fstream.cpp`: the padded, block-buffered encrypting writer and the reader with one block of lookahead. */
module AesStreams {
  import opened AesBlocks
  import opened AesModes
  import opened Bytes

  // ---------------------------------------------------------------- files of encrypted blocks

  /** The first `n` blocks of `data`, each encrypted on its own. */
  function EncryptedUpTo(rk: seq<bv8>, data: seq<bv8>, n: nat): (r: seq<bv8>)
    requires IsRoundKeys(rk) && 16 * n <= |data|
    ensures |r| == 16 * n
  {
    hide Encrypt;
    if n == 0 then [] else EncryptedUpTo(rk, data, n - 1) + Encrypt(rk, data[16 * n - 16..16 * n])
  }

  function DecryptedUpTo(rk: seq<bv8>, file: seq<bv8>, n: nat): (r: seq<bv8>)
    requires IsRoundKeys(rk) && 16 * n <= |file|
    ensures |r| == 16 * n
  {
    hide Decrypt;
    if n == 0 then [] else DecryptedUpTo(rk, file, n - 1) + Decrypt(rk, file[16 * n - 16..16 * n])
  }

  lemma EncryptedNext(rk: seq<bv8>, data: seq<bv8>, n: nat)
    requires IsRoundKeys(rk) && 16 * n + 16 <= |data|
    ensures EncryptedUpTo(rk, data, n + 1) == EncryptedUpTo(rk, data, n) + Encrypt(rk, data[16 * n..16 * n + 16])
  {
    hide Encrypt;
  }

  lemma {:induction false} EncryptedPrefix(rk: seq<bv8>, data: seq<bv8>, more: seq<bv8>, n: nat)
    requires IsRoundKeys(rk) && 16 * n <= |data|
    ensures EncryptedUpTo(rk, data + more, n) == EncryptedUpTo(rk, data, n)
  {
    hide Encrypt;
    if n > 0 {
      EncryptedPrefix(rk, data, more, n - 1);
      assert (data + more)[16 * n - 16..16 * n] == data[16 * n - 16..16 * n];
    }
  }

  lemma {:induction false} DecryptedPrefix(rk: seq<bv8>, file: seq<bv8>, more: seq<bv8>, n: nat)
    requires IsRoundKeys(rk) && 16 * n <= |file|
    ensures DecryptedUpTo(rk, file + more, n) == DecryptedUpTo(rk, file, n)
  {
    hide Decrypt;
    if n > 0 {
      DecryptedPrefix(rk, file, more, n - 1);
      assert (file + more)[16 * n - 16..16 * n] == file[16 * n - 16..16 * n];
    }
  }

  lemma {:induction false} DecryptedAt(rk: seq<bv8>, file: seq<bv8>, n: nat, i: nat)
    requires IsRoundKeys(rk) && 16 * n <= |file| && i < n
    ensures DecryptedUpTo(rk, file, n)[16 * i..16 * i + 16] == Decrypt(rk, file[16 * i..16 * i + 16])
  {
    hide Decrypt;
    if i < n - 1 {
      DecryptedAt(rk, file, n - 1, i);
      assert DecryptedUpTo(rk, file, n)[16 * i..16 * i + 16] == DecryptedUpTo(rk, file, n - 1)[16 * i..16 * i + 16];
    }
  }

  /** Decrypting the blocks of an encrypted file gives the data back. */
  lemma {:induction false} BlocksRoundTrip(rk: seq<bv8>, data: seq<bv8>, n: nat)
    requires IsRoundKeys(rk) && 16 * n <= |data|
    ensures DecryptedUpTo(rk, EncryptedUpTo(rk, data, n), n) == data[..16 * n]
  {
    hide Encrypt, Decrypt;
    if n > 0 {
      var block := data[16 * n - 16..16 * n];
      BlocksRoundTrip(rk, data, n - 1);
      DecryptedPrefix(rk, EncryptedUpTo(rk, data, n - 1), Encrypt(rk, block), n - 1);
      DecryptUndoesEncrypt(rk, block);
      assert EncryptedUpTo(rk, data, n)[16 * n - 16..16 * n] == Encrypt(rk, block);
      assert data[..16 * n] == data[..16 * n - 16] + block;
    }
  }

  // ---------------------------------------------------------------- padding

  /** How many blocks hold `length` bytes and at least one byte of padding. */
  function Blocks(length: nat): (n: nat)
    ensures length < 16 * n <= length + 16
  {
    length / 16 + 1
  }

  lemma BlocksIs(length: nat, n: nat)
    requires length < 16 * n <= length + 16
    ensures Blocks(length) == n
  {
  }

  /** Between 1 and 16 bytes, each holding their number (section 6.3 of RFC 5652). */
  function Padding(length: nat): (r: seq<bv8>)
    ensures 1 <= |r| <= 16 && length + |r| == 16 * Blocks(length)
    ensures forall i :: 0 <= i < |r| ==> r[i] == Byte(|r|)
  {
    hide Blocks;
    var n := 16 * Blocks(length) - length;
    seq(n, _ => Byte(n))
  }

  function Padded(data: seq<bv8>): (r: seq<bv8>)
    ensures |r| == 16 * Blocks(|data|)
  {
    data + Padding(|data|)
  }

  /** The file that holds `data`. */
  function FileOf(rk: seq<bv8>, data: seq<bv8>): (r: seq<bv8>)
    requires IsRoundKeys(rk)
    ensures |r| == 16 * Blocks(|data|)
  {
    EncryptedUpTo(rk, Padded(data), Blocks(|data|))
  }

  lemma {:induction false} EncryptedAt(rk: seq<bv8>, data: seq<bv8>, n: nat, i: nat)
    requires IsRoundKeys(rk) && 16 * n <= |data| && i < n
    ensures EncryptedUpTo(rk, data, n)[16 * i..16 * i + 16] == Encrypt(rk, data[16 * i..16 * i + 16])
  {
    hide Encrypt;
    if i < n - 1 {
      EncryptedAt(rk, data, n - 1, i);
      assert EncryptedUpTo(rk, data, n)[16 * i..16 * i + 16] == EncryptedUpTo(rk, data, n - 1)[16 * i..16 * i + 16];
    }
  }

  /** The file, block by block: each block of the data encrypted, and the rest filled up with the number missing. */
  lemma FileBlock(rk: seq<bv8>, data: seq<bv8>, i: nat)
    requires IsRoundKeys(rk) && 16 * i <= |data|
    ensures 16 * i + 16 <= |FileOf(rk, data)|
    ensures FileOf(rk, data)[16 * i..16 * i + 16]
         == Encrypt(rk, if 16 * i + 16 <= |data| then data[16 * i..16 * i + 16]
                        else data[16 * i..] + seq(16 * i + 16 - |data|, _ => Byte(16 * i + 16 - |data|)))
  {
    hide Encrypt, Byte, Padding, Blocks, EncryptedUpTo;
    var n := Blocks(|data|);
    EncryptedAt(rk, Padded(data), n, i);
    if 16 * i + 16 > |data| {
      BlocksIs(|data|, i + 1);
      var missing := 16 * i + 16 - |data|;
      assert |Padding(|data|)| == missing;
      assert Padding(|data|) == seq(missing, _ => Byte(missing));
      assert Padded(data)[16 * i..16 * i + 16] == data[16 * i..] + Padding(|data|);
    } else {
      assert Padded(data)[16 * i..16 * i + 16] == data[16 * i..16 * i + 16];
    }
  }

  /** The number of full blocks of a file. */
  function Full(file: seq<bv8>): (n: nat)
    ensures 16 * n <= |file| < 16 * n + 16
  {
    |file| / 16
  }

  /** The decrypted full blocks of any file. */
  function Plain(rk: seq<bv8>, file: seq<bv8>): (r: seq<bv8>)
    requires IsRoundKeys(rk)
    ensures |r| == 16 * Full(file)
  {
    DecryptedUpTo(rk, file, Full(file))
  }

  lemma PlainAt(rk: seq<bv8>, file: seq<bv8>, i: nat)
    requires IsRoundKeys(rk) && i < Full(file)
    ensures Plain(rk, file)[16 * i..16 * i + 16] == Decrypt(rk, file[16 * i..16 * i + 16])
  {
    hide Decrypt, DecryptedUpTo, Full;
    DecryptedAt(rk, file, Full(file), i);
  }

  /** The file ends inside a block. */
  predicate Broken(file: seq<bv8>) {
    |file| != 16 * Full(file)
  }

  /** The last byte of a file of whole blocks decrypts to a padding length. */
  predicate EndsWell(file: seq<bv8>, plain: seq<bv8>)
    requires |plain| == 16 * Full(file)
  {
    Broken(file) || file == [] || Number(plain[|plain| - 1]) <= 16
  }

  /**
   * How many of the decrypted bytes can be read: all but the padding. Of a broken file, those of
   * the full blocks except the last one, which is never handed out because its lookahead fails.
   */
  function Readable(file: seq<bv8>, plain: seq<bv8>): (r: nat)
    requires |plain| == 16 * Full(file) && EndsWell(file, plain)
    ensures |plain| - 16 <= r <= |plain|
  {
    hide Full;
    if Broken(file) then
      if |file| < 16 then 0 else |plain| - 16
    else if file == [] then 0
    else |file| - Number(plain[|plain| - 1])
  }

  /** Of a broken file, all is lost from its last full block on; of any other, as many bytes as its last one says. */
  lemma Lost(file: seq<bv8>, plain: seq<bv8>)
    requires |plain| == 16 * Full(file) && EndsWell(file, plain)
    ensures |file| % 16 != 0 ==> Readable(file, plain) == if |file| < 16 then 0 else |file| - |file| % 16 - 16
    ensures |file| % 16 == 0 && file != [] ==> Readable(file, plain) + plain[|file| - 1] as nat == |file|
  {
  }

  lemma LastBlockIs(rk: seq<bv8>, data: seq<bv8>, blocks: nat)
    requires IsRoundKeys(rk) && 16 * blocks <= |data| < 16 * blocks + 16
    ensures IsBlock(data[16 * blocks..] + Padding(|data|))
    ensures |Padding(|data|)| == 16 * (blocks + 1) - |data|
    ensures FileOf(rk, data) == EncryptedUpTo(rk, data, blocks) + Encrypt(rk, data[16 * blocks..] + Padding(|data|))
  {
    hide Encrypt, Padding, Blocks;
    BlocksIs(|data|, blocks + 1);
    EncryptedPrefix(rk, data, Padding(|data|), blocks);
    assert Padded(data)[16 * blocks..16 * blocks + 16] == data[16 * blocks..] + Padding(|data|);
  }

  /** A block filled with the padding byte, the data copied over its start. */
  lemma FillIs(filled: seq<bv8>, tail: seq<bv8>, length: nat)
    requires |filled| == 16 && |tail| + |Padding(length)| == 16
    requires forall i :: 0 <= i < 16 ==> filled[i] == Byte(|Padding(length)|)
    ensures Patched(filled, 0, tail) == tail + Padding(length)
  {
    hide Byte;
  }

  /** What is readable in a written file is what was written. */
  lemma WrittenIsReadable(rk: seq<bv8>, data: seq<bv8>)
    requires IsRoundKeys(rk)
    ensures var file := FileOf(rk, data);
            && !Broken(file) && EndsWell(file, Plain(rk, file))
            && Readable(file, Plain(rk, file)) == |data| && Plain(rk, file)[..|data|] == data
  {
    hide EncryptedUpTo, DecryptedUpTo, Byte, Number, Full, Blocks;
    BlocksIs(|data|, Full(FileOf(rk, data)));
    var all := Padded(data);
    BlocksRoundTrip(rk, all, Blocks(|data|));
    assert all[..16 * Blocks(|data|)] == all;
    NumberOfByte(|Padding(|data|)|);
  }

  /** Copies `src` into `dst` from `at` on. */
  method Blit(dst: array<bv8>, at: nat, src: seq<bv8>)
    requires at + |src| <= dst.Length
    modifies dst
    ensures dst[..] == Patched(old(dst[..]), at, src)
  {
    for i := 0 to |src|
      invariant forall k :: 0 <= k < dst.Length ==> dst[k] == if at <= k < at + i then src[k - at] else old(dst[k])
    {
      dst[at + i] := src[i];
    }
  }

  // ---------------------------------------------------------------- the writer

  class Writer {
    const rk: seq<bv8>
    const master: array<bv8>
    var masterDatalen: nat
    var file: seq<bv8>
    var isOpen: bool
    /** Everything written so far, and how many blocks of it are in the file. */
    ghost var data: seq<bv8>
    ghost var blocks: nat

    ghost predicate Valid()
      reads this, master
    {
      && IsRoundKeys(rk) && master.Length == 16 && masterDatalen <= 16
      && |data| == 16 * blocks + masterDatalen
      && file == EncryptedUpTo(rk, data, blocks)
      && master[..masterDatalen] == data[16 * blocks..]
    }

    constructor (rk: seq<bv8>)
      requires IsRoundKeys(rk)
      ensures Valid() && isOpen && data == [] && file == [] && this.rk == rk && fresh(master)
    {
      this.rk := rk;
      master := new bv8[16];
      masterDatalen, file, isOpen := 0, [], true;
      data, blocks := [], 0;
    }

    /** The block in `master`, full, goes to the file. */
    method Flush()
      requires Valid() && masterDatalen == 16
      modifies this`file, this`masterDatalen, this`blocks, master
      ensures Valid() && masterDatalen == 0
    {
      hide EncryptedUpTo, Encrypt;
      EncryptedNext(rk, data, blocks);
      assert master[..] == master[..masterDatalen] == data[16 * blocks..] == data[16 * blocks..16 * blocks + 16];
      EncryptWhole(rk, master);
      file := file + master[..];
      masterDatalen := 0;
      blocks := blocks + 1;
    }

    /** Bytes that fit go to `master`. */
    method Append(chunk: seq<bv8>)
      requires Valid() && masterDatalen + |chunk| <= 16
      modifies this`masterDatalen, this`data, master
      ensures Valid() && data == old(data) + chunk && masterDatalen == old(masterDatalen) + |chunk|
    {
      hide EncryptedUpTo;
      Blit(master, masterDatalen, chunk);
      EncryptedPrefix(rk, data, chunk, blocks);
      data := data + chunk;
      masterDatalen := masterDatalen + |chunk|;
    }

    method Write(buffer: seq<bv8>) returns (nwrite: nat)
      requires Valid() && isOpen
      modifies this`file, this`masterDatalen, this`data, this`blocks, master
      ensures Valid() && data == old(data) + buffer && nwrite == |buffer|
    {
      hide EncryptedUpTo;
      var size := |buffer|;
      nwrite := 0;
      while nwrite < size
        invariant Valid() && nwrite <= size && data == old(data) + buffer[..nwrite]
        decreases size - nwrite, masterDatalen
      {
        if 16 - masterDatalen >= size - nwrite {
          Append(buffer[nwrite..size]);
          nwrite := size;
          return;
        } else {
          var room := 16 - masterDatalen;
          Append(buffer[nwrite..nwrite + room]);
          Flush();
          nwrite := nwrite + room;
        }
      }
    }

    /** The block still in `master`, filled up. */
    method PaddedBlock() returns (buf: array<bv8>)
      requires Valid() && masterDatalen < 16
      ensures fresh(buf) && buf.Length == 16 && buf[..] == data[16 * blocks..] + Padding(|data|)
    {
      hide EncryptedUpTo, Patched, Padding, Blocks, Byte;
      var npadding := 16 - masterDatalen;
      buf := new bv8[16](_ => Byte(npadding));
      LastBlockIs(rk, data, blocks);
      FillIs(buf[..], data[16 * blocks..], |data|);
      Blit(buf, 0, master[..masterDatalen]);
    }

    method Close()
      requires Valid()
      modifies this`file, this`masterDatalen, this`blocks, this`isOpen, master
      ensures !isOpen
      ensures old(isOpen) ==> file == FileOf(rk, data)
      ensures !old(isOpen) ==> file == old(file)
    {
      hide EncryptedUpTo, Encrypt, Patched, FileOf, Padding, Blocks;
      if !isOpen {
        return;
      }
      if masterDatalen == 16 {
        Flush();
      }
      LastBlockIs(rk, data, blocks);
      var buf := PaddedBlock();
      EncryptWhole(rk, buf);
      file := file + buf[..];
      masterDatalen := 0;
      isOpen := false;
    }
  }
}
