/** `Tensor::serialize` and `Tensor::externalize` of `tensor.cpp`. */
module TensorCodec {
  import opened Collections
  import opened Bytes
  import opened Tensors
  import opened Binio

  /** `type_bytes` of `dtype.h`: the width of an element. Unknown types have none. */
  function TypeBytes(dtype: nat): nat {
    match dtype
    case 1 => 1 case 2 => 1 case 3 => 2 case 4 => 2 case 5 => 4 case 6 => 4 case 7 => 8 case 8 => 8
    case 9 => 2 case 10 => 4 case 11 => 8 case 12 => 8
    case 13 => 1 case 14 => 2 case 15 => 4
    case 16 => 1 case 17 => 2 case 18 => 4 case 19 => 8 case 20 => 16
    case 21 => 1 case 22 => 4 case 23 => 8 case 24 => 16
    case 25 => 1 case 26 => 1 case 27 => 1 case 28 => 1 case 29 => 1 case 30 => 1 case 31 => 1 case 32 => 1
    case _ => 0
  }

  /** `Prototype::count`. */
  function Count(sizes: seq<nat>): nat {
    if sizes == [] then 1 else Count(sizes[..|sizes| - 1]) * sizes[|sizes| - 1]
  }

  function MemoryBytes(dtype: nat, sizes: seq<nat>): nat {
    Count(sizes) * TypeBytes(dtype)
  }

  lemma CountOne(n: nat)
    ensures Count([n]) == n && Count([]) == 1
  {
    assert [n][..0] == [];
  }

  /** The dimensions multiply, however they are grouped. */
  lemma {:induction false} CountAppend(a: seq<nat>, b: seq<nat>)
    ensures Count(a + b) == Count(a) * Count(b)
  {
    if b == [] {
      assert a + b == a;
    } else {
      var n := |b| - 1;
      CountAppend(a, b[..n]);
      assert (a + b)[..|a + b| - 1] == a + b[..n];
      assert (Count(a) * Count(b[..n])) * b[n] == Count(a) * (Count(b[..n]) * b[n]);
    }
  }

  /** What the names of the element types say of their widths. A complex number has two parts. */
  lemma Widths()
    ensures forall d :: d in {INT8, UINT8, CHAR8, UNKNOWN8} || SINK8Q0 <= d <= SINK8Q7 ==> TypeBytes(d) * 8 == 8
    ensures forall d :: d in {INT16, UINT16, FLOAT16, CHAR16, UNKNOWN16} ==> TypeBytes(d) * 8 == 16
    ensures forall d :: d in {INT32, UINT32, FLOAT32, CHAR32, UNKNOWN32, COMPLEX32} ==> TypeBytes(d) * 8 == 32
    ensures forall d :: d in {INT64, UINT64, FLOAT64, PTR, UNKNOWN64, COMPLEX64} ==> TypeBytes(d) * 8 == 64
    ensures forall d :: d in {UNKNOWN128, COMPLEX128} ==> TypeBytes(d) * 8 == 128
    ensures TypeBytes(BOOLEAN) == 1 && TypeBytes(VOID) == 0 && forall d :: d > SINK8Q7 ==> TypeBytes(d) == 0
  {
  }

  /** A matrix of floats takes four bytes an entry. */
  lemma FloatMatrix(h: nat, w: nat)
    ensures MemoryBytes(FLOAT32, [h, w]) == 4 * h * w
  {
    assert [h, w] == [h] + [w];
    CountAppend([h], [w]);
    CountOne(h);
    CountOne(w);
  }

  /** One field by itself: its memory fits its prototype, and its numbers fit their places in the file. */
  predicate FieldFits(t: Tensor) {
    && t.dtype < 256
    && |t.sizes| < LIMIT32 && (forall i :: 0 <= i < |t.sizes| ==> t.sizes[i] < LIMIT31)
    && |t.data| == MemoryBytes(t.dtype, t.sizes)
  }

  predicate Fits(t: Tensor) {
    && FieldFits(t) && 1 + |t.fields| < LIMIT32
    && forall i :: 0 <= i < |t.fields| ==> FieldFits(t.fields[i])
  }

  lemma FieldsFit(t: Tensor)
    requires Fits(t)
    ensures forall f :: f in Unpack(t) ==> FieldFits(f) && |f.data| == MemoryBytes(f.dtype, f.sizes)
  {
    hide MemoryBytes;
  }

  /** `unpack`: the tensor's own field, then the further ones. */
  function Unpack(t: Tensor): (r: seq<Tensor>)
    ensures |r| == 1 + |t.fields|
  {
    [t.(fields := [])] + t.fields
  }

  /** `pack`: what becomes of the tensor that is read into. Given no fields at all, it keeps its further ones. */
  function Pack(was: Tensor, fields: seq<Tensor>): Tensor {
    if fields == [] then EMPTY.(fields := was.fields) else fields[0].(fields := fields[1..])
  }

  // ---------------------------------------------------------------- the layout

  /** Type, number of sizes, sizes, memory. Fields of a field are not written. */
  function FieldBytes(t: Tensor): seq<bv8> {
    [Byte(t.dtype % 256)] + U32(|t.sizes|) + WriteMany(U32, t.sizes) + t.data
  }

  function TensorBytes(t: Tensor): seq<bv8> {
    U32(|Unpack(t)|) + WriteMany(FieldBytes, Unpack(t))
  }

  function ParseSizes(s: seq<bv8>): Parsed<seq<nat>> {
    match ParseU32(s)
    case Bad => Bad
    case Parsed(n, rest) => ParseMany(ParseU32, n, rest)
  }

  function ParseMemory(dtype: nat, s: seq<bv8>): Parsed<Tensor> {
    match ParseSizes(s)
    case Bad => Bad
    case Parsed(sizes, rest) =>
      match ParseBytes(rest, MemoryBytes(dtype, sizes))
      case Bad => Bad
      case Parsed(data, rest') => Parsed(Tensor(dtype, sizes, data, []), rest')
  }

  function ParseField(s: seq<bv8>): Parsed<Tensor> {
    match ParseBytes(s, 1)
    case Bad => Bad
    case Parsed(dtype, rest) => ParseMemory(Number(dtype[0]), rest)
  }

  function ParseTensor(was: Tensor, s: seq<bv8>): Parsed<Tensor> {
    match ParseU32(s)
    case Bad => Bad
    case Parsed(n, rest) =>
      match ParseMany(ParseField, n, rest)
      case Bad => Bad
      case Parsed(fields, rest') => Parsed(Pack(was, fields), rest')
  }

  // ---------------------------------------------------------------- round trip

  function Flat(ts: seq<Tensor>): (r: seq<Tensor>)
    ensures |r| == |ts| && forall i :: 0 <= i < |ts| ==> r[i] == ts[i].(fields := [])
  {
    seq(|ts|, i requires 0 <= i < |ts| => ts[i].(fields := []))
  }

  /** What survives: fields of fields do not. */
  function Shallow(t: Tensor): Tensor {
    Pack(EMPTY, Flat(Unpack(t)))
  }

  /** A tensor survives whole exactly if its fields are flat. */
  lemma ShallowIsSame(t: Tensor)
    ensures Shallow(t) == t <==> forall i :: 0 <= i < |t.fields| ==> t.fields[i].fields == []
  {
  }

  lemma ParseSizesBack(sizes: seq<nat>, rest: seq<bv8>)
    requires |sizes| < LIMIT32 && forall i :: 0 <= i < |sizes| ==> sizes[i] < LIMIT32
    ensures ParseSizes(U32(|sizes|) + WriteMany(U32, sizes) + rest) == Parsed(sizes, rest)
  {
    hide U32, ParseU32, WriteMany, ParseMany;
    var list := WriteMany(U32, sizes) + rest;
    assert U32(|sizes|) + WriteMany(U32, sizes) + rest == U32(|sizes|) + list;
    ParseU32Back(|sizes|, list);
    forall i | 0 <= i < |sizes| ensures ReadsAs(U32, ParseU32, sizes[i], sizes[i]) {
      forall more ensures ParseU32(U32(sizes[i]) + more) == Parsed(sizes[i], more) {
        ParseU32Back(sizes[i], more);
      }
    }
    ManyBack(U32, ParseU32, sizes, sizes, rest);
  }

  lemma ParseFieldBack(t: Tensor, rest: seq<bv8>)
    requires FieldFits(t)
    ensures ParseField(FieldBytes(t) + rest) == Parsed(t.(fields := []), rest)
  {
    hide U32, WriteMany, ParseSizes, MemoryBytes, Byte, Number;
    var all := FieldBytes(t) + rest;
    var body := U32(|t.sizes|) + WriteMany(U32, t.sizes) + (t.data + rest);
    assert all == [Byte(t.dtype % 256)] + body;
    NumberOfByte(t.dtype);
    assert all[..1] == [Byte(t.dtype)] && all[1..] == body;
    ParseSizesBack(t.sizes, t.data + rest);
    ParseBytesBack(t.data, rest);
  }

  /** A field that holds a matrix of floats: four bytes an entry are taken off the stream, and no more. */
  lemma ReadFloatMatrix(h: nat, w: nat, data: seq<bv8>, rest: seq<bv8>)
    requires h < LIMIT32 && w < LIMIT32 && |data| == 4 * h * w
    ensures ParseField([10, 2, 0, 0, 0] + U32(h) + U32(w) + data + rest) == Parsed(Tensor(10, [h, w], data, []), rest)
  {
    hide Count, ParseSizes, MemoryBytes, U32, WriteMany, Number;
    FloatMatrix(h, w);
    NumberOfByte(10);
    TwoBytes();
    TwoSizes(h, w);
    ParseSizesBack([h, w], data + rest);
    ParseBytesBack(data, rest);
    var body := U32(2) + WriteMany(U32, [h, w]) + (data + rest);
    var all := [10, 2, 0, 0, 0] + U32(h) + U32(w) + data + rest;
    assert all[..1] == [10] && all[1..] == body;
  }

  lemma TwoBytes()
    ensures U32(2) == [2, 0, 0, 0] && Byte(10) == 10
  {
  }

  lemma TwoSizes(h: nat, w: nat)
    ensures WriteMany(U32, [h, w]) == U32(h) + U32(w)
  {
    hide U32;
    assert [h, w][..1] == [h] && [h][..0] == [];
    assert WriteMany(U32, [h]) == WriteMany(U32, []) + U32(h);
  }

  /** Reading what was written gives the tensor, whatever it is read into, and leaves the bytes behind it. */
  lemma ParseTensorBack(was: Tensor, t: Tensor, rest: seq<bv8>)
    requires Fits(t)
    ensures ParseTensor(was, TensorBytes(t) + rest) == Parsed(Shallow(t), rest)
  {
    var fields := Unpack(t);
    FieldsFit(t);
    hide U32, ParseU32, WriteMany, ParseMany, FieldBytes, ParseField, FieldFits;
    var read := Flat(fields);
    assert TensorBytes(t) + rest == U32(|fields|) + (WriteMany(FieldBytes, fields) + rest);
    ParseU32Back(|fields|, WriteMany(FieldBytes, fields) + rest);
    forall i | 0 <= i < |fields| ensures ReadsAs(FieldBytes, ParseField, fields[i], read[i]) {
      forall more ensures ParseField(FieldBytes(fields[i]) + more) == Parsed(read[i], more) {
        ParseFieldBack(fields[i], more);
      }
    }
    ManyBack(FieldBytes, ParseField, fields, read, rest);
  }

  /** What the tensor held before shows through exactly if it had further fields and the file gives it none at all. */
  lemma StaleFields(was: Tensor, s: seq<bv8>)
    requires ParseTensor(EMPTY, s).Parsed?
    ensures |s| >= 4 && ParseTensor(was, s).Parsed?
    ensures ParseTensor(was, s) == ParseTensor(EMPTY, s) <==> was.fields == [] || FromU32(s[..4]) != 0
  {
    hide ParseField, FromU32;
    ParsedSize(ParseField, ParseU32(s).value, ParseU32(s).rest);
  }

  // ---------------------------------------------------------------- the methods

  method WriteList(stream: ByteWriter, list: seq<nat>) returns (written: nat)
    modifies stream
    ensures stream.out == old(stream.out) + WriteMany(U32, list) && written == |WriteMany(U32, list)|
  {
    hide U32;
    written := 0;
    for i := 0 to |list|
      invariant stream.out == old(stream.out) + WriteMany(U32, list[..i]) && written == |WriteMany(U32, list[..i])|
    {
      assert list[..i + 1][..i] == list[..i];
      var n := stream.Write(U32(list[i]));
      written := written + n;
    }
    assert list[..|list|] == list;
  }

  /** `serialize_prototype_memory`. */
  method SerializeField(stream: ByteWriter, t: Tensor) returns (written: nat)
    requires |t.data| == MemoryBytes(t.dtype, t.sizes)
    modifies stream
    ensures stream.out == old(stream.out) + FieldBytes(t) && written == |FieldBytes(t)|
  {
    hide U32, WriteMany, MemoryBytes;
    written := stream.Write([Byte(t.dtype % 256)]);
    var n := stream.Write(U32(|t.sizes|));
    written := written + n;
    n := WriteList(stream, t.sizes);
    written := written + n;
    n := stream.Write(t.data[..MemoryBytes(t.dtype, t.sizes)]);
    written := written + n;
    assert t.data[..|t.data|] == t.data;
  }

  method Serialize(stream: ByteWriter, t: Tensor) returns (written: nat)
    requires Fits(t)
    modifies stream
    ensures stream.out == old(stream.out) + TensorBytes(t) && written == |TensorBytes(t)|
  {
    var fields := Unpack(t);
    hide U32, FieldBytes, FieldFits, MemoryBytes;
    FieldsFit(t);
    written := stream.Write(U32(|fields|));
    for i := 0 to |fields|
      invariant stream.out == old(stream.out) + (U32(|fields|) + WriteMany(FieldBytes, fields[..i]))
      invariant written == 4 + |WriteMany(FieldBytes, fields[..i])|
    {
      assert fields[..i + 1][..i] == fields[..i];
      var n := SerializeField(stream, fields[i]);
      written := written + n;
    }
    assert fields[..|fields|] == fields;
  }

  /** Reads `n` numbers, as the loops over sizes and indices do. */
  method ReadList(stream: ByteReader, n: nat) returns (r: Option<seq<nat>>)
    requires stream.Valid()
    modifies stream
    ensures stream.Valid() && stream.pos >= old(stream.pos)
    ensures match ParseMany(ParseU32, n, old(stream.Ahead()))
            case Bad => r.None?
            case Parsed(v, rest) => r == Some(v) && stream.Ahead() == rest
  {
    hide ParseU32;
    var list := [];
    ghost var start := stream.Ahead();
    for i := 0 to n
      invariant stream.Valid() && stream.pos >= old(stream.pos)
      invariant ParseMany(ParseU32, i, start) == Parsed(list, stream.Ahead())
    {
      var x := stream.ReadU32();
      if x.None? {
        BadStays(ParseU32, i + 1, n, start);
        return None;
      }
      list := list + [x.value];
    }
    return Some(list);
  }

  /** `externalize_prototype_memory`. */
  method ExternalizeField(stream: ByteReader) returns (r: Option<Tensor>)
    requires stream.Valid()
    modifies stream
    ensures stream.Valid() && stream.pos >= old(stream.pos)
    ensures match ParseField(old(stream.Ahead()))
            case Bad => r.None?
            case Parsed(v, rest) => r == Some(v) && stream.Ahead() == rest
  {
    hide ParseU32, ParseMany, MemoryBytes, Number;
    var dtype := stream.Read(1);
    if dtype.None? {
      return None;
    }
    var n := stream.ReadU32();
    if n.None? {
      return None;
    }
    var sizes := ReadList(stream, n.value);
    if sizes.None? {
      return None;
    }
    var data := stream.Read(MemoryBytes(Number(dtype.value[0]), sizes.value));
    if data.None? {
      return None;
    }
    return Some(Tensor(Number(dtype.value[0]), sizes.value, data.value, []));
  }

  method Externalize(stream: ByteReader, was: Tensor) returns (r: Option<Tensor>)
    requires stream.Valid()
    modifies stream
    ensures stream.Valid() && stream.pos >= old(stream.pos)
    ensures match ParseTensor(was, old(stream.Ahead()))
            case Bad => r.None?
            case Parsed(v, rest) => r == Some(v) && stream.Ahead() == rest
  {
    hide ParseU32, ParseField;
    var n := stream.ReadU32();
    if n.None? {
      return None;
    }
    var fields := [];
    ghost var start := stream.Ahead();
    for i := 0 to n.value
      invariant stream.Valid() && stream.pos >= old(stream.pos)
      invariant ParseMany(ParseField, i, start) == Parsed(fields, stream.Ahead())
    {
      var field := ExternalizeField(stream);
      if field.None? {
        BadStays(ParseField, i + 1, n.value, start);
        return None;
      }
      fields := fields + [field.value];
    }
    return Some(Pack(was, fields));
  }
}
