/** The reader of `aes_fstream.cpp`: it decrypts one block ahead, so that it can drop the padding at the end. */
module AesReader {
  import opened AesBlocks
  import opened AesModes
  import opened AesStreams
  import opened Bytes

  /** The file stream below: a read that finds too few bytes takes them and raises the flag. */
  class InputStream {
    const contents: seq<bv8>
    var pos: nat
    var eof: bool

    constructor (contents: seq<bv8>)
      ensures this.contents == contents && pos == 0 && !eof
    {
      this.contents := contents;
      pos, eof := 0, false;
    }

    method Read(size: nat) returns (got: seq<bv8>)
      requires pos <= |contents|
      modifies this
      ensures pos == old(pos) + |got| <= |contents| && got == contents[old(pos)..pos]
      ensures old(pos) + size <= |contents| ==> |got| == size && eof == old(eof)
      ensures old(pos) + size > |contents| ==> pos == |contents| && eof
    {
      if pos + size > |contents| {
        eof := true;
      }
      got := contents[pos..if pos + size <= |contents| then pos + size else |contents|];
      pos := pos + |got|;
    }
  }

  /** `Overrun` stands for a copy of bytes beyond the sixteen of `m_master`. */
  datatype Outcome = Count(n: nat) | AtEnd | BadFormat | Overrun

  // ---------------------------------------------------------------- what can be read

  /** How many bytes reads can hand out: the readable part, or everything if the last byte is no padding length. */
  function Extent(file: seq<bv8>, plain: seq<bv8>): (r: nat)
    requires |plain| == 16 * Full(file)
    ensures r <= |plain|
  {
    if EndsWell(file, plain) then Readable(file, plain) else |plain|
  }

  /** The last byte, and sixteen or less if it is a padding length, or there is none. */
  function LastByte(plain: seq<bv8>): nat {
    if plain == [] then 0 else Number(plain[|plain| - 1])
  }

  /**
   * When a read of `size` bytes, after `delivered` ones, leaves `m_master`. The last byte of the file is then no
   * padding length. The read goes beyond the file, or comes to the last block with so many bytes before it
   * that the sum with the negative length is not negative: a copy of a negative length follows.
   */
  predicate Overruns(file: seq<bv8>, plain: seq<bv8>, delivered: nat, size: nat)
    requires |plain| == 16 * Full(file)
  {
    && !EndsWell(file, plain)
    && (delivered + size > |plain|
        || (|plain| < delivered + size + 16 && |plain| >= delivered + LastByte(plain)))
  }

  /** A read that stops before the last block is safe. */
  lemma OverrunBounds(file: seq<bv8>, plain: seq<bv8>, delivered: nat, size: nat)
    requires |plain| == 16 * Full(file)
    ensures Overruns(file, plain, delivered, size) ==> !EndsWell(file, plain) && delivered + size + 16 > |plain|
    ensures !EndsWell(file, plain) && delivered + size > |plain| ==> Overruns(file, plain, delivered, size)
  {
    hide EndsWell, LastByte, Full;
  }

  /** Reads are safe, whatever they are, exactly for the files that end well. */
  lemma SafeExactly(file: seq<bv8>, plain: seq<bv8>)
    requires |plain| == 16 * Full(file)
    ensures (forall delivered: nat, size: nat :: delivered <= |plain| ==> !Overruns(file, plain, delivered, size))
       <==> EndsWell(file, plain)
  {
    hide EndsWell, Overruns, Full;
    forall delivered: nat, size: nat ensures Overruns(file, plain, delivered, size) ==> !EndsWell(file, plain) {
      OverrunBounds(file, plain, delivered, size);
    }
    OverrunBounds(file, plain, 0, |plain| + 1);
  }

  /** Under any key, a file of one block that ends in 17. Asking for one byte more than it has goes too far. */
  lemma BadFile(rk: seq<bv8>) returns (file: seq<bv8>)
    requires IsRoundKeys(rk)
    ensures |file| == 16 && |Plain(rk, file)| == 16 && !EndsWell(file, Plain(rk, file))
    ensures Overruns(file, Plain(rk, file), 0, 17) && !Overruns(file, Plain(rk, file), 0, 16)
  {
    hide EncryptedUpTo, DecryptedUpTo, Number;
    var data: seq<bv8> := seq(16, _ => 17);
    file := EncryptedUpTo(rk, data, 1);
    BlocksRoundTrip(rk, data, 1);
    assert Full(file) == 1 && data[..16] == data;
    assert Plain(rk, file) == data;
    SeventeenIs();
    hide Plain;
  }

  lemma SeventeenIs()
    ensures Number(17) == 17
  {
  }

  // ---------------------------------------------------------------- the reader

  function BlockOf(s: seq<bv8>, i: nat): (r: seq<bv8>)
    requires 16 * i + 16 <= |s|
    ensures |r| == 16
  {
    s[16 * i..16 * i + 16]
  }

  lemma PlainBlocks(rk: seq<bv8>, file: seq<bv8>)
    requires IsRoundKeys(rk)
    ensures forall i :: 0 <= i < Full(file) ==> BlockOf(Plain(rk, file), i) == Decrypt(rk, BlockOf(file, i))
  {
    hide Plain, Decrypt, Full, IsRoundKeys, BlockOf;
    forall i | 0 <= i < Full(file) ensures BlockOf(Plain(rk, file), i) == Decrypt(rk, BlockOf(file, i)) {
      PlainBlock(rk, file, i);
    }
  }

  lemma PlainBlock(rk: seq<bv8>, file: seq<bv8>, i: nat)
    requires IsRoundKeys(rk) && i < Full(file)
    ensures BlockOf(Plain(rk, file), i) == Decrypt(rk, BlockOf(file, i))
  {
    hide Plain, Decrypt, Full, IsRoundKeys;
    PlainAt(rk, file, i);
  }

  lemma SubBlock(s: seq<bv8>, i: nat, a: nat, n: nat)
    requires 16 * i + 16 <= |s| && a + n <= 16
    ensures BlockOf(s, i)[a..a + n] == s[16 * i + a..16 * i + a + n]
  {
    var part, whole := BlockOf(s, i)[a..a + n], s[16 * i + a..16 * i + a + n];
    assert forall k :: 0 <= k < n ==> part[k] == whole[k];
  }

  datatype Block = Filled | Missing | Partial

  class Reader {
    const rk: seq<bv8>
    const stream: InputStream
    const master: array<bv8>
    const second: array<bv8>
    var masterDatalen: int
    var masterOffset: nat
    var secondDatalen: nat
    /** The decrypted full blocks of the file. */
    ghost const plain: seq<bv8>
    /** Bytes handed out, and blocks that have gone through `master`. */
    ghost var delivered: nat
    ghost var taken: nat

    /** The part of the model that never changes. */
    ghost predicate Shaped() {
      && IsRoundKeys(rk) && |plain| == 16 * Full(stream.contents)
      && (forall i :: 0 <= i < Full(stream.contents) ==> BlockOf(plain, i) == Decrypt(rk, BlockOf(stream.contents, i)))
      && master.Length == 16 && second.Length == 16 && master != second
    }

    ghost function Limit(): (r: nat)
      requires Shaped()
      ensures r <= |plain|
    {
      Extent(stream.contents, plain)
    }

    ghost predicate Good()
      requires Shaped()
    {
      EndsWell(stream.contents, plain)
    }

    /** How far the blocks taken reach, without the padding. */
    ghost function Reached(): nat
      reads this`taken
      requires Shaped()
    {
      if 16 * taken <= Limit() then 16 * taken else Limit()
    }

    /** `second` and the stream: nothing read yet, one block ahead, or the end found. */
    ghost predicate Ahead()
      reads this`taken, this`secondDatalen, stream, second
      requires Shaped()
    {
      && taken <= Full(stream.contents)
      && stream.pos == 16 * taken + secondDatalen <= |stream.contents|
      && (stream.eof ==> secondDatalen == 0 && !Broken(stream.contents) && taken == Full(stream.contents))
      && (!stream.eof && secondDatalen == 0 ==> taken == 0)
      && (!stream.eof && secondDatalen != 0 ==>
            && secondDatalen == 16 && taken < Full(stream.contents)
            && second[..] == BlockOf(plain, taken))
    }

    /** `master` holds text that has not been handed out yet. */
    ghost predicate Sound()
      reads this`masterDatalen, this`masterOffset, this`delivered, this`taken, master
      requires Shaped()
    {
      && masterOffset <= masterDatalen <= 16
      && delivered + (masterDatalen - masterOffset) == Reached()
      && master[masterOffset..masterDatalen] == plain[delivered..Reached()]
      && (!Good() ==> taken < Full(stream.contents))
    }

    /** `master` holds the last block, which is taken for a negative number of bytes. */
    ghost predicate Spoiled()
      reads this`masterDatalen, this`masterOffset, this`delivered, this`taken, stream, master
      requires Shaped()
    {
      && !Good() && stream.eof && 0 < taken == Full(stream.contents)
      && masterDatalen == 16 - LastByte(plain) && masterDatalen < 0 && masterOffset <= 16
      && delivered == 16 * taken - 16 + masterOffset
      && master[..] == BlockOf(plain, taken - 1)
    }

    ghost predicate Valid()
      reads this, stream, master, second
    {
      Shaped() && Ahead() && (Sound() || Spoiled())
    }

    constructor (rk: seq<bv8>, file: seq<bv8>)
      requires IsRoundKeys(rk)
      ensures Valid() && delivered == 0 && !stream.eof && this.rk == rk && stream.contents == file
      ensures plain == Plain(rk, file)
      ensures fresh(stream) && fresh(master) && fresh(second)
    {
      hide Plain, Decrypt, Number, IsRoundKeys;
      this.rk := rk;
      stream := new InputStream(file);
      master, second := new bv8[16], new bv8[16];
      masterDatalen, masterOffset, secondDatalen := 0, 0, 0;
      plain := Plain(rk, file);
      delivered, taken := 0, 0;
      new;
      PlainBlocks(rk, file);
      BadStart();
    }

    /** A file without blocks ends well. */
    lemma BadStart()
      requires |plain| == 16 * Full(stream.contents)
      ensures !EndsWell(stream.contents, plain) ==> 0 < Full(stream.contents)
    {
    }

    /** The next block of the file goes, decrypted, to `second`. */
    method FillSecond() returns (block: Block)
      requires Shaped() && stream.pos == 16 * taken <= |stream.contents| && !stream.eof
      modifies stream, second, this`secondDatalen
      ensures block.Filled? ==> Ahead() && !stream.eof && secondDatalen == 16
      ensures block.Missing? ==> Ahead() && stream.eof
      ensures block.Partial? ==> Broken(stream.contents) && taken == Full(stream.contents)
    {
      hide Full, Decrypt;
      var got := stream.Read(16);
      secondDatalen := |got|;
      if secondDatalen == 0 {
        return Missing;
      }
      if secondDatalen != 16 {
        return Partial;
      }
      Blit(second, 0, got);
      assert second[..] == got == BlockOf(stream.contents, taken) by { PatchWhole(second[..], got); }
      assert BlockOf(plain, taken) == Decrypt(rk, got);
      DecryptWhole(rk, second);
      return Filled;
    }

    /** Where the readable part ends, from the block the end is found after. */
    lemma LimitIs()
      requires Shaped()
      ensures 0 < Full(stream.contents) ==> 16 * Full(stream.contents) - 16 <= Limit()
      ensures Broken(stream.contents) && 0 < Full(stream.contents) ==> Limit() == 16 * Full(stream.contents) - 16
      ensures !Broken(stream.contents) && 0 < Full(stream.contents) ==>
                && (Good() <==> LastByte(plain) <= 16)
                && Limit() == 16 * Full(stream.contents) - (if LastByte(plain) <= 16 then LastByte(plain) else 0)
      ensures !Good() ==> !Broken(stream.contents) && 0 < Full(stream.contents)
    {
      hide Full, Number;
    }

    /** The last byte of the last block is the last byte. */
    lemma LastOfLast()
      requires Shaped() && 0 < taken == Full(stream.contents)
      ensures Number(BlockOf(plain, taken - 1)[15]) == LastByte(plain)
    {
      hide Full, Number;
    }

    /** `master` used up: the block ahead takes its place, cut at the padding if it is the last one. */
    method Refill() returns (block: Block)
      requires Valid() && masterOffset == masterDatalen && !stream.eof
      modifies this`masterDatalen, this`masterOffset, this`secondDatalen, this`taken, stream, master, second
      ensures block.Filled? ==> Valid() && taken == old(taken) + 1 && masterOffset == 0
      ensures block.Missing? ==> Valid() && stream.eof && delivered == Limit() && masterOffset == masterDatalen
      ensures block.Partial? ==> Broken(stream.contents) && delivered == Limit()
    {
      hide Full, Extent, EndsWell, Good, Number, Broken, Patched, IsRoundKeys, Limit, BlockOf, Decrypt, LastByte;
      LimitIs();
      if secondDatalen == 0 {
        block := FillSecond();
        if !block.Filled? {
          return;
        }
      }
      ghost var was, ahead := master[..], second[..];
      Blit(master, 0, second[..]);
      PatchWhole(was, ahead);
      masterDatalen, masterOffset := 16, 0;
      taken := taken + 1;
      secondDatalen := 0;
      block := FillSecond();
      if block.Partial? {
        return;
      }
      if block.Missing? {
        LastOfLast();
        masterDatalen := masterDatalen - Number(master[15]);
      }
      if masterDatalen >= 0 {
        Part(plain, taken - 1, masterDatalen);
        assert master[0..masterDatalen] == ahead[..masterDatalen];
      }
      return Filled;
    }

    /** What the loop in `Read` needs to know. */
    lemma Bounds()
      requires Valid()
      ensures Shaped() && taken <= Full(stream.contents) && delivered <= Limit()
      ensures !Good() ==> !Broken(stream.contents) && Limit() == |plain|
      ensures masterDatalen >= 0 ==>
                && masterOffset <= masterDatalen <= 16
                && delivered + (masterDatalen - masterOffset) <= Limit()
                && (!Good() ==> !stream.eof && delivered + (masterDatalen - masterOffset) + 16 <= |plain|)
                && (stream.eof ==> !Broken(stream.contents) && delivered + (masterDatalen - masterOffset) == Limit())
      ensures masterDatalen < 0 ==>
                && stream.eof && !Good() && masterOffset <= 16
                && -256 < masterDatalen == 16 - LastByte(plain)
                && delivered + 16 == |plain| + masterOffset
    {
      hide Full, Broken, IsRoundKeys, BlockOf, Decrypt;
      LimitIs();
    }

    lemma SoundText(size: nat)
      requires Valid() && masterDatalen >= 0 && masterOffset + size <= masterDatalen
      ensures delivered + size <= Reached() <= |plain|
      ensures master[masterOffset..masterOffset + size] == plain[delivered..delivered + size]
      ensures master[masterOffset + size..masterDatalen] == plain[delivered + size..Reached()]
    {
      hide Full, Extent, EndsWell, Number, Broken, IsRoundKeys, BlockOf, Decrypt, LastByte;
      Split(master[..], masterOffset, masterDatalen, plain, delivered, Reached(), size);
    }

    /** The last block is text as a whole if its last byte is no padding length. */
    lemma SpoiledText(size: nat)
      requires Valid() && masterDatalen < 0 && masterOffset + size <= 16
      ensures delivered + size <= Limit()
      ensures master[masterOffset..masterOffset + size] == plain[delivered..delivered + size]
    {
      hide Full, Number, Decrypt, LastByte, IsRoundKeys, Broken;
      SubBlock(plain, taken - 1, masterOffset, size);
      assert master[masterOffset..masterOffset + size] == master[..][masterOffset..masterOffset + size];
    }

    /** Hands out up to `size` bytes of `master`. */
    method Deliver(buffer: array<bv8>, at: nat, size: nat)
      requires Valid() && at + size <= buffer.Length
      requires masterOffset + size <= if masterDatalen >= 0 then masterDatalen else 16
      requires buffer != master && buffer != second
      modifies this`masterOffset, this`delivered, buffer
      ensures Valid() && delivered == old(delivered) + size <= |plain| && masterOffset == old(masterOffset) + size
      ensures buffer[..] == Patched(old(buffer[..]), at, plain[old(delivered)..delivered])
    {
      hide Full, Extent, EndsWell, Number, Broken, IsRoundKeys, BlockOf, Decrypt, LastByte, Limit, Good, Reached, Ahead;
      hide Patched;
      if masterDatalen >= 0 {
        SoundText(size);
      } else {
        SpoiledText(size);
      }
      Blit(buffer, at, master[masterOffset..masterOffset + size]);
      masterOffset := masterOffset + size;
      delivered := delivered + size;
    }

    /** Copies what is needed of the block in `master`, the lengths compared as sizes. */
    method Take(buffer: array<bv8>, bufferOffset: nat, size: nat) returns (r: Outcome)
      requires Valid() && masterOffset == 0 && bufferOffset < size <= buffer.Length && buffer != master
      requires buffer != second
      requires masterDatalen >= 0 || size < SIZE_LIMIT / 2
      modifies this`masterOffset, this`delivered, buffer
      ensures r == if masterDatalen < 0 && (size - bufferOffset > 16 || bufferOffset + masterDatalen >= 0) then Overrun
                   else if masterDatalen < 0 || bufferOffset + masterDatalen >= size then Count(size - bufferOffset)
                   else Count(masterDatalen)
      ensures r.Count? ==> Valid() && masterOffset == r.n && delivered == old(delivered) + r.n <= |plain|
      ensures r.Count? ==> buffer[..] == Patched(old(buffer[..]), bufferOffset, plain[old(delivered)..delivered])
    {
      hide Patched, Limit, Valid, Shaped, Sound, Spoiled, Ahead, LastByte;
      Bounds();
      if ToSize(bufferOffset + masterDatalen) >= size {
        var n := size - bufferOffset;
        if n > 16 {
          return Overrun;
        }
        Deliver(buffer, bufferOffset, n);
        return Count(n);
      } else {
        if masterDatalen < 0 {
          return Overrun;
        }
        var n := masterDatalen;
        Deliver(buffer, bufferOffset, n);
        return Count(n);
      }
    }

    /** A read comes to the last block, with `before` bytes in front of it. */
    lemma OverrunAt(begun: nat, size: nat, before: nat)
      requires Shaped() && !Good() && before < size && begun + before + 16 == |plain|
      ensures Overruns(stream.contents, plain, begun, size)
         <==> size - before > 16 || before + 16 - LastByte(plain) >= 0
    {
      hide Full, LastByte, IsRoundKeys, Decrypt;
    }

    /** What a read answers that finds more to read or has not found the end before. */
    ghost function Answer(begun: nat, size: nat): Outcome
      requires Shaped() && begun <= Limit()
    {
      if Overruns(stream.contents, plain, begun, size) then Overrun
      else if begun + size <= Limit() then Count(size)
      else if Broken(stream.contents) then BadFormat
      else Count(Limit() - begun)
    }

    lemma SafeBefore(begun: nat, size: nat)
      requires Shaped()
      ensures Good() || begun + size + 16 <= |plain| ==> !Overruns(stream.contents, plain, begun, size)
    {
      OverrunBounds(stream.contents, plain, begun, size);
    }

    lemma AnswerGood(begun: nat, size: nat)
      requires Shaped() && Good() && begun + size <= Limit()
      ensures Answer(begun, size) == Count(size)
    {
      hide Full, Number, IsRoundKeys, Decrypt;
    }

    /** The loop of `read`: block after block, until there is enough, or nothing is left. */
    method ReadOn(buffer: array<bv8>, size: nat, start: nat) returns (r: Outcome)
      requires Valid() && masterOffset == masterDatalen && !stream.eof && start <= delivered <= Limit()
      requires start <= size <= buffer.Length && buffer != master && buffer != second
      requires Good() || size < SIZE_LIMIT / 2
      modifies this, stream, master, second, buffer
      ensures r == Answer(old(delivered) - start, size)
      ensures r.Count? ==> start <= r.n <= size && delivered == old(delivered) + (r.n - start) <= |plain|
      ensures r.Count? ==> Valid() && (r.n < size ==> stream.eof && masterDatalen >= 0)
      ensures r.Count? ==> buffer[..] == Patched(old(buffer[..]), start, plain[old(delivered)..delivered])
    {
      hide Full, Extent, EndsWell, Number, Broken, Patched, IsRoundKeys, Limit, Good, Valid, Shaped, LastByte, BlockOf;
      hide Sound, Spoiled, Ahead, Overruns, Decrypt;
      Bounds();
      ghost var from, was, begun := delivered, buffer[..], delivered - start;
      SafeBefore(begun, size);
      PatchNone(was, start, plain, from);
      var bufferOffset := start;
      while bufferOffset < size
        invariant Valid() && masterOffset == masterDatalen && !stream.eof
        invariant start <= bufferOffset <= size && delivered == begun + bufferOffset <= Limit()
        invariant buffer[..] == Patched(was, start, plain[from..delivered])
        decreases Full(stream.contents) - taken
      {
        ghost var mid := delivered;
        var block := Refill();
        if block.Partial? {
          return BadFormat;
        }
        Bounds();
        if block.Missing? {
          break;
        }
        if masterDatalen < 0 {
          OverrunAt(begun, size, bufferOffset);
        }
        r := Take(buffer, bufferOffset, size);
        if r.Overrun? {
          return;
        }
        PatchMore(was, start, plain, from, mid, delivered);
        bufferOffset := bufferOffset + r.n;
        Bounds();
        if bufferOffset == size || stream.eof {
          break;
        }
      }
      Bounds();
      return Count(bufferOffset);
    }

    /**
     * Consecutive bytes of the readable part. A count short of `size` means that nothing is left, and
     * only the call after it fails, or the first one if the file ends inside a block. Of a file whose last
     * byte is no padding length, the padding is handed out, too, there is no end, and some reads go too far.
     */
    method Read(buffer: array<bv8>, size: nat) returns (r: Outcome)
      requires Valid() && size <= buffer.Length && buffer != master && buffer != second
      requires Good() || size < SIZE_LIMIT / 2
      modifies this, stream, master, second, buffer
      ensures old(delivered) <= Limit()
      ensures r == if Good() && old(delivered) == Limit() && 0 < size && old(stream.eof) then AtEnd
                   else Answer(old(delivered), size)
      ensures !r.BadFormat? && !r.Overrun? ==> Valid()
      ensures r.Count? ==> delivered == old(delivered) + r.n <= |plain|
      ensures r.Count? ==> r.n <= size && buffer[..] == Patched(old(buffer[..]), 0, plain[old(delivered)..delivered])
      ensures r.Count? && r.n < size ==> stream.eof
      ensures r.AtEnd? ==> delivered == old(delivered) && stream.eof && buffer[..] == old(buffer[..])
    {
      hide Full, Extent, EndsWell, Number, Broken, Patched, IsRoundKeys, Limit, Valid, Shaped, LastByte, BlockOf;
      hide Sound, Spoiled, Ahead, Decrypt;
      Bounds();
      ghost var from, was := delivered, buffer[..];
      if ToSize(masterDatalen - masterOffset) >= size {
        if masterOffset + size > 16 {
          return Overrun;
        }
        Deliver(buffer, 0, size);
        return Count(size);
      }
      var bufferOffset := masterDatalen - masterOffset;
      Deliver(buffer, 0, bufferOffset);
      Bounds();
      if stream.eof {
        if bufferOffset > 0 {
          return Count(bufferOffset);
        } else {
          PatchNone(was, 0, plain, from);
          return AtEnd;
        }
      }
      ghost var mid := delivered;
      r := ReadOn(buffer, size, bufferOffset);
      if r.Count? {
        PatchMore(was, 0, plain, from, mid, delivered);
      }
    }
  }

  lemma Part(s: seq<bv8>, i: nat, n: nat)
    requires 16 * i + 16 <= |s| && n <= 16
    ensures s[16 * i..16 * i + n] == BlockOf(s, i)[..n]
  {
  }

  lemma Split(s: seq<bv8>, i: nat, j: nat, t: seq<bv8>, k: nat, l: nat, n: nat)
    requires i + n <= j <= |s| && k <= l <= |t| && s[i..j] == t[k..l]
    ensures k + n <= l && s[i..i + n] == t[k..k + n] && s[i + n..j] == t[k + n..l]
  {
    assert |s[i..j]| == j - i && |t[k..l]| == l - k;
    assert s[i..i + n] == s[i..j][..n] && t[k..k + n] == t[k..l][..n];
    assert s[i + n..j] == s[i..j][n..] && t[k + n..l] == t[k..l][n..];
  }

  lemma PatchMore(s: seq<bv8>, at: nat, whole: seq<bv8>, from: nat, mid: nat, to: nat)
    requires from <= mid <= to <= |whole| && at + (to - from) <= |s|
    ensures Patched(Patched(s, at, whole[from..mid]), at + (mid - from), whole[mid..to])
         == Patched(s, at, whole[from..to])
  {
  }

  lemma PatchNone(s: seq<bv8>, at: nat, whole: seq<bv8>, from: nat)
    requires from <= |whole| && at <= |s|
    ensures Patched(s, at, whole[from..from]) == s
  {
  }
}
