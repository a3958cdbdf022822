/** The writer and the reader together: what is written in any chunks is read back in any chunks. */
module AesRoundTrip {
  import opened AesBlocks
  import opened AesModes
  import opened AesStreams
  import opened AesReader

  function Concat(chunks: seq<seq<bv8>>): seq<bv8> {
    if chunks == [] then [] else Concat(chunks[..|chunks| - 1]) + chunks[|chunks| - 1]
  }

  function Total(sizes: seq<nat>): nat {
    if sizes == [] then 0 else Total(sizes[..|sizes| - 1]) + sizes[|sizes| - 1]
  }

  lemma {:induction false} TotalGrows(sizes: seq<nat>, i: nat)
    requires i < |sizes|
    ensures Total(sizes[..i + 1]) == Total(sizes[..i]) + sizes[i] <= Total(sizes)
  {
    assert sizes[..i + 1][..i] == sizes[..i];
    if i < |sizes| - 1 {
      var front := sizes[..|sizes| - 1];
      TotalGrows(front, i);
      assert front[..i + 1] == sizes[..i + 1];
    } else {
      assert sizes[..i + 1] == sizes;
    }
  }

  lemma NothingRead(sizes: seq<nat>)
    ensures Total(sizes[..0]) == 0 && Concat([]) == []
  {
  }

  method WriteAll(rk: seq<bv8>, chunks: seq<seq<bv8>>) returns (file: seq<bv8>)
    requires IsRoundKeys(rk)
    ensures file == FileOf(rk, Concat(chunks))
  {
    hide FileOf, Writer.Valid, EncryptedUpTo;
    var writer := new Writer(rk);
    assert chunks[..0] == [];
    for i := 0 to |chunks|
      invariant fresh(writer) && fresh(writer.master) && writer.rk == rk
      invariant writer.Valid() && writer.isOpen && writer.data == Concat(chunks[..i])
    {
      assert chunks[..i + 1][..i] == chunks[..i];
      var n := writer.Write(chunks[i]);
    }
    assert chunks[..|chunks|] == chunks;
    writer.Close();
    file := writer.file;
  }

  /** Any write chunks, then `close`, then any reads of no more than was written. */
  method WriteThenRead(rk: seq<bv8>, chunks: seq<seq<bv8>>, sizes: seq<nat>) returns (got: seq<seq<bv8>>)
    requires IsRoundKeys(rk) && Total(sizes) <= |Concat(chunks)|
    ensures |got| == |sizes| && forall i :: 0 <= i < |sizes| ==> |got[i]| == sizes[i]
    ensures Concat(got) == Concat(chunks)[..Total(sizes)]
  {
    hide Concat, Total, FileOf, Plain, Readable, EndsWell, Full, Reader.Valid, Reader.Ahead, Patched, Decrypt;
    var file := WriteAll(rk, chunks);
    ghost var data := Concat(chunks);
    WrittenIsReadable(rk, data);
    var reader := new Reader(rk, file);
    reader.Bounds();
    assert reader.Good() && reader.Limit() == |data|;
    hide Reader.Shaped, Reader.Limit, Reader.Good, Reader.Answer;
    ghost var plain := reader.plain;
    NothingRead(sizes);
    got := [];
    for i := 0 to |sizes|
      invariant fresh(reader) && fresh(reader.stream) && fresh(reader.master) && fresh(reader.second)
      invariant reader.Valid() && reader.Shaped() && reader.Good() && reader.Limit() == |data|
      invariant reader.delivered == Total(sizes[..i])
      invariant |got| == i && forall k :: 0 <= k < i ==> |got[k]| == sizes[k]
      invariant Total(sizes[..i]) <= |data| && Concat(got) == data[..Total(sizes[..i])]
    {
      TotalGrows(sizes, i);
      var buffer := new bv8[sizes[i]];
      ghost var was := buffer[..];
      reader.AnswerGood(reader.delivered, sizes[i]);
      var r := reader.Read(buffer, sizes[i]);
      assert plain[Total(sizes[..i])..Total(sizes[..i + 1])] == data[Total(sizes[..i])..Total(sizes[..i + 1])];
      PatchWhole(was, data[Total(sizes[..i])..Total(sizes[..i + 1])]);
      ConcatNext(got, buffer[..]);
      got := got + [buffer[..]];
    }
    assert sizes[..|sizes|] == sizes;
  }

  lemma ConcatNext(chunks: seq<seq<bv8>>, chunk: seq<bv8>)
    ensures Concat(chunks + [chunk]) == Concat(chunks) + chunk
  {
    assert (chunks + [chunk])[..|chunks|] == chunks;
  }
}
