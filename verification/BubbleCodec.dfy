/** `Bubble::serialize` and `Bubble::externalize` of `bubble.cpp`: a parameter map on a stream. */
module BubbleCodec {
  import opened Collections
  import opened Bytes
  import opened Tensors
  import opened Binio
  import opened TensorCodec

  const OP := "#op"
  const NAME := "#name"

  // ---------------------------------------------------------------- strings

  /** A string of one-byte characters, short enough to have its length written. */
  predicate Plain(s: string) {
    |s| < LIMIT31 && forall i :: 0 <= i < |s| ==> s[i] as nat < 256
  }

  function CharByte(c: char): bv8 {
    Byte(c as nat % 256)
  }

  function ByteChar(x: bv8): char
  {
    ByteOfNumber(x);
    Number(x) as char
  }

  function StringBytes(s: string): (r: seq<bv8>)
    ensures |r| == |s|
  {
    seq(|s|, i requires 0 <= i < |s| => CharByte(s[i]))
  }

  function BytesString(b: seq<bv8>): (r: string)
    ensures |r| == |b|
  {
    seq(|b|, i requires 0 <= i < |b| => ByteChar(b[i]))
  }

  lemma CharBack(c: char)
    requires c as nat < 256
    ensures ByteChar(CharByte(c)) == c
  {
    hide Byte, Number;
    NumberOfByte(c as nat);
  }

  lemma StringBack(s: string)
    requires Plain(s)
    ensures BytesString(StringBytes(s)) == s
  {
    hide CharByte, ByteChar;
    forall i | 0 <= i < |s| ensures ByteChar(CharByte(s[i])) == s[i] {
      CharBack(s[i]);
    }
  }

  /** `tensor::from`: a string as a tensor. */
  function FromString(s: string): Tensor {
    Tensor(CHAR8, [|s|], StringBytes(s), [])
  }

  /** `tensor::to_string`. */
  function ToString(t: Tensor): Option<string> {
    if t.dtype == CHAR8 && |t.sizes| == 1 && t.sizes[0] <= |t.data| then Some(BytesString(t.data[..t.sizes[0]]))
    else None
  }

  lemma ToStringBack(s: string)
    requires Plain(s)
    ensures ToString(FromString(s)) == Some(s) && Fits(FromString(s)) && Shallow(FromString(s)) == FromString(s)
  {
    var t := FromString(s);
    assert t.data[..|s|] == t.data;
    StringBack(s);
    assert Count([|s|]) == |s| by { assert [|s|][..0] == []; }
    ShallowIsSame(t);
  }

  // ---------------------------------------------------------------- parameters

  type Param = (string, Tensor)

  function ParamBytes(p: Param): seq<bv8> {
    U32(|p.0|) + StringBytes(p.0) + TensorBytes(p.1)
  }

  function ParseName(s: seq<bv8>): Parsed<string> {
    match ParseU32(s)
    case Bad => Bad
    case Parsed(n, rest) =>
      match ParseBytes(rest, n)
      case Bad => Bad
      case Parsed(name, rest') => Parsed(BytesString(name), rest')
  }

  /** All parameters are read into one tensor, which held `was` before. */
  function ParseParam(was: Tensor, s: seq<bv8>): Parsed<Param> {
    match ParseName(s)
    case Bad => Bad
    case Parsed(name, rest) =>
      match ParseTensor(was, rest)
      case Bad => Bad
      case Parsed(value, rest') => Parsed((name, value), rest')
  }

  /** What the tensor the parameters are read into holds after them. */
  function Held(ps: seq<Param>): Tensor {
    if ps == [] then EMPTY else ps[|ps| - 1].1
  }

  function ParseSome(n: nat, s: seq<bv8>): Parsed<seq<Param>> {
    if n == 0 then Parsed([], s)
    else
      match ParseSome(n - 1, s)
      case Bad => Bad
      case Parsed(ps, rest) =>
        match ParseParam(Held(ps), rest)
        case Bad => Bad
        case Parsed(p, rest') => Parsed(ps + [p], rest')
  }

  lemma {:induction false} SomeStayBad(m: nat, n: nat, s: seq<bv8>)
    requires m <= n && ParseSome(m, s) == Bad
    ensures ParseSome(n, s) == Bad
  {
    hide ParseParam;
    if m < n {
      SomeStayBad(m, n - 1, s);
    }
  }

  lemma ParseParamBack(was: Tensor, p: Param, rest: seq<bv8>)
    requires Plain(p.0) && Fits(p.1)
    ensures ParseParam(was, ParamBytes(p) + rest) == Parsed((p.0, Shallow(p.1)), rest)
  {
    hide U32, ParseU32, StringBytes, BytesString, TensorBytes, ParseTensor, Fits, Shallow;
    var tail := TensorBytes(p.1) + rest;
    assert ParamBytes(p) + rest == U32(|p.0|) + (StringBytes(p.0) + tail);
    ParseU32Back(|p.0|, StringBytes(p.0) + tail);
    ParseBytesBack(StringBytes(p.0), tail);
    StringBack(p.0);
    ParseTensorBack(was, p.1, rest);
  }

  // ---------------------------------------------------------------- the parameter map

  /** `insert` keeps what is there. */
  function Inserted(m: map<string, Tensor>, p: Param): map<string, Tensor> {
    if p.0 in m then m else m[p.0 := p.1]
  }

  function MapOf(ps: seq<Param>): map<string, Tensor> {
    if ps == [] then map[] else Inserted(MapOf(ps[..|ps| - 1]), ps[|ps| - 1])
  }

  /** The keys of a map in some order, as an unordered map gives them. */
  ghost predicate Lists(order: seq<string>, m: map<string, Tensor>) {
    && (forall i, j :: 0 <= i < j < |order| ==> order[i] != order[j])
    && (forall k :: k in order <==> k in m)
  }

  function Entries(order: seq<string>, m: map<string, Tensor>): (r: seq<Param>)
    requires forall k :: k in order ==> k in m
    ensures |r| == |order| && forall i :: 0 <= i < |order| ==> r[i] == (order[i], m[order[i]])
  {
    seq(|order|, i requires 0 <= i < |order| => (order[i], m[order[i]]))
  }

  function ShallowMap(m: map<string, Tensor>): (r: map<string, Tensor>)
    ensures r.Keys == m.Keys && forall k :: k in m ==> r[k] == Shallow(m[k])
  {
    map k | k in m :: Shallow(m[k])
  }

  lemma MapOfMore(order: seq<string>, m: map<string, Tensor>)
    requires order != [] && forall k :: k in order ==> k in m
    ensures var n := |order| - 1;
        MapOf(Entries(order, m)) == Inserted(MapOf(Entries(order[..n], m)), (order[n], m[order[n]]))
  {
    assert Entries(order, m)[..|order| - 1] == Entries(order[..|order| - 1], m);
  }

  /** Whatever the order, the entries make up the map again. */
  lemma {:induction false} MapOfEntries(order: seq<string>, m: map<string, Tensor>)
    requires forall i, j :: 0 <= i < j < |order| ==> order[i] != order[j]
    requires forall k :: k in order ==> k in m
    ensures MapOf(Entries(order, m)).Keys == set k | k in order
    ensures forall k :: k in order ==> MapOf(Entries(order, m))[k] == m[k]
  {
    if order != [] {
      var n := |order| - 1;
      MapOfEntries(order[..n], m);
      MapOfMore(order, m);
      assert order == order[..n] + [order[n]];
    }
  }

  function Names(entries: seq<Param>): (r: seq<string>)
    ensures |r| == |entries| && forall i :: 0 <= i < |r| ==> r[i] == entries[i].0
  {
    seq(|entries|, i requires 0 <= i < |entries| => entries[i].0)
  }

  /** The entries of a map in some order. */
  ghost predicate InOrder(entries: seq<Param>, m: map<string, Tensor>) {
    Lists(Names(entries), m) && entries == Entries(Names(entries), m)
  }

  function ParamsBytes(entries: seq<Param>): seq<bv8> {
    U32(|entries|) + WriteMany(ParamBytes, entries)
  }

  function ParseParams(s: seq<bv8>): Parsed<map<string, Tensor>> {
    match ParseU32(s)
    case Bad => Bad
    case Parsed(n, rest) =>
      match ParseSome(n, rest)
      case Bad => Bad
      case Parsed(ps, rest') => Parsed(MapOf(ps), rest')
  }

  predicate ParamsFit(m: map<string, Tensor>) {
    |m| < LIMIT32 && forall k :: k in m ==> Plain(k) && Fits(m[k])
  }

  lemma {:induction false} ListsCounts(order: seq<string>, m: map<string, Tensor>)
    requires Lists(order, m)
    ensures |order| == |m|
  {
    DistinctCount(order);
    assert (set k | k in order) == m.Keys;
  }

  lemma {:induction false} DistinctCount(order: seq<string>)
    requires forall i, j :: 0 <= i < j < |order| ==> order[i] != order[j]
    ensures |set k | k in order| == |order|
  {
    if order != [] {
      var n := |order| - 1;
      DistinctCount(order[..n]);
      assert order == order[..n] + [order[n]];
      assert (set k | k in order) == (set k | k in order[..n]) + {order[n]};
    }
  }

  /** Reading entries back, one by one. */
  lemma {:induction false} SomeBack(entries: seq<Param>, read: seq<Param>, rest: seq<bv8>)
    requires |read| == |entries|
    requires forall i, was, more :: 0 <= i < |entries| ==>
               ParseParam(was, ParamBytes(entries[i]) + more) == Parsed(read[i], more)
    ensures ParseSome(|entries|, WriteMany(ParamBytes, entries) + rest) == Parsed(read, rest)
  {
    hide ParseParam, ParamBytes;
    if entries == [] {
      assert read == [];
      assert WriteMany(ParamBytes, entries) + rest == rest;
    } else {
      var n := |entries| - 1;
      SomeBack(entries[..n], read[..n], ParamBytes(entries[n]) + rest);
      assert WriteMany(ParamBytes, entries) + rest
          == WriteMany(ParamBytes, entries[..n]) + (ParamBytes(entries[n]) + rest);
      assert read == read[..n] + [read[n]];
    }
  }

  lemma ParseParamsBack(entries: seq<Param>, m: map<string, Tensor>, rest: seq<bv8>)
    requires InOrder(entries, m) && ParamsFit(m)
    ensures ParseParams(ParamsBytes(entries) + rest) == Parsed(ShallowMap(m), rest)
  {
    hide U32, ParseU32, ParamBytes, ParseParam, Fits, Shallow, Plain, WriteMany, ParseSome, MapOf;
    var order := Names(entries);
    ListsCounts(order, m);
    var read := Entries(order, ShallowMap(m));
    assert ParamsBytes(entries) + rest == U32(|order|) + (WriteMany(ParamBytes, entries) + rest);
    ParseU32Back(|order|, WriteMany(ParamBytes, entries) + rest);
    forall i, was, more | 0 <= i < |order|
      ensures ParseParam(was, ParamBytes(entries[i]) + more) == Parsed(read[i], more)
    {
      assert order[i] in m;
      ParseParamBack(was, entries[i], more);
    }
    SomeBack(entries, read, rest);
    MapOfEntries(order, ShallowMap(m));
    assert MapOf(read) == ShallowMap(m);
  }

  // ---------------------------------------------------------------- the bytes of a parameter

  lemma Small(n: nat)
    requires n < 256
    ensures U32(n) == [Byte(n), 0, 0, 0]
  {
    hide Byte;
    Extremes();
  }

  lemma StringTensorBytes(s: string)
    requires |s| < 256
    ensures TensorBytes(FromString(s)) == [1, 0, 0, 0, 13, 1, 0, 0, 0, Byte(|s|), 0, 0, 0] + StringBytes(s)
  {
    hide Byte, U32, StringBytes;
    var t := FromString(s);
    Small(1);
    Small(|s|);
    SmallBytes();
    assert t.sizes[..0] == [] && WriteMany(U32, t.sizes) == WriteMany(U32, []) + U32(|s|);
    var fields := Unpack(t);
    assert fields == [t] && [t][..0] == [];
    assert WriteMany(FieldBytes, [t]) == WriteMany(FieldBytes, []) + FieldBytes(t);
  }

  lemma SmallBytes()
    ensures Byte(1) == 1 && Byte(2) == 2 && Byte(3) == 3 && Byte(5) == 5 && Byte(7) == 7 && Byte(13) == 13
  {
  }

  /** A parameter that holds a short string: the length of its name, its name, and the string as a tensor. */
  lemma StringParamBytes(name: string, s: string)
    requires |name| < 256 && |s| < 256
    ensures ParamBytes((name, FromString(s)))
         == [Byte(|name|), 0, 0, 0] + StringBytes(name)
            + [1, 0, 0, 0, 13, 1, 0, 0, 0, Byte(|s|), 0, 0, 0] + StringBytes(s)
  {
    hide Byte, U32, StringBytes, TensorBytes, FromString;
    Small(|name|);
    StringTensorBytes(s);
  }

  // ---------------------------------------------------------------- the bubble

  /** The parameters as the source keeps them: the operator and the name are among them. */
  function Stored(b: Bubble): map<string, Tensor> {
    b.params[OP := FromString(b.op)][NAME := FromString(b.name)]
  }

  /** The operator and the name are looked up in the parameters read. */
  function Restored(m: map<string, Tensor>): Option<Bubble> {
    if OP !in m || NAME !in m then None
    else
      var op, name := ToString(m[OP]), ToString(m[NAME]);
      if op.None? || name.None? then None else Some(Bubble(op.value, name.value, m - {OP, NAME}))
  }

  function ParseBubble(s: seq<bv8>): Parsed<Bubble> {
    match ParseParams(s)
    case Bad => Bad
    case Parsed(m, rest) =>
      var b := Restored(m);
      if b.None? then Bad else Parsed(b.value, rest)
  }

  function ShallowBubble(b: Bubble): Bubble {
    Bubble(b.op, b.name, ShallowMap(b.params))
  }

  predicate BubbleFits(b: Bubble) {
    Plain(b.op) && Plain(b.name) && OP !in b.params && NAME !in b.params && ParamsFit(Stored(b))
  }

  /** Reading a bubble back gives its operator, its name and its parameters, and leaves the bytes behind it. */
  lemma ParseBubbleBack(entries: seq<Param>, b: Bubble, rest: seq<bv8>)
    requires BubbleFits(b) && InOrder(entries, Stored(b))
    ensures ParseBubble(ParamsBytes(entries) + rest) == Parsed(ShallowBubble(b), rest)
  {
    hide ParamsBytes, ParseParams, InOrder, ParamsFit, FromString, ToString, Plain, Shallow;
    ParseParamsBack(entries, Stored(b), rest);
    ToStringBack(b.op);
    ToStringBack(b.name);
    assert ShallowMap(Stored(b)) - {OP, NAME} == ShallowMap(b.params);
  }

  // ---------------------------------------------------------------- the methods

  /** `write_param`. */
  method WriteParam(stream: ByteWriter, p: Param) returns (written: nat)
    requires Fits(p.1)
    modifies stream
    ensures stream.out == old(stream.out) + ParamBytes(p) && written == |ParamBytes(p)|
  {
    hide U32, StringBytes, TensorBytes, Fits;
    written := stream.Write(U32(|p.0|));
    var n := stream.Write(StringBytes(p.0));
    written := written + n;
    n := Serialize(stream, p.1);
    written := written + n;
  }

  /** Writes the parameters in whatever order they come. */
  method SerializeBubble(stream: ByteWriter, b: Bubble) returns (written: nat, ghost entries: seq<Param>)
    requires BubbleFits(b)
    modifies stream
    ensures InOrder(entries, Stored(b))
    ensures stream.out == old(stream.out) + ParamsBytes(entries) && written == |ParamsBytes(entries)|
  {
    hide U32, ParamBytes, Fits, Plain, FromString, WriteMany, Entries;
    var params := Stored(b);
    hide Stored;
    WriteManyNone(ParamBytes);
    written := stream.Write(U32(|params|));
    ghost var order := [];
    var left := params.Keys;
    while left != {}
      invariant left <= params.Keys
      invariant forall i, j :: 0 <= i < j < |order| ==> order[i] != order[j]
      invariant forall k :: k in order <==> k in params && k !in left
      invariant stream.out == old(stream.out) + (U32(|params|) + WriteMany(ParamBytes, Entries(order, params)))
      invariant written == 4 + |WriteMany(ParamBytes, Entries(order, params))|
    {
      var k :| k in left;
      var n := WriteParam(stream, (k, params[k]));
      assert Entries(order + [k], params) == Entries(order, params) + [(k, params[k])];
      WriteManyMore(ParamBytes, Entries(order, params), (k, params[k]));
      order := order + [k];
      written := written + n;
      left := left - {k};
    }
    ListsCounts(order, params);
    entries := Entries(order, params);
    assert Names(entries) == order;
  }

  /** `read_param`. */
  method ReadParam(stream: ByteReader, was: Tensor) returns (r: Option<Param>)
    requires stream.Valid()
    modifies stream
    ensures stream.Valid() && stream.pos >= old(stream.pos)
    ensures match ParseParam(was, old(stream.Ahead()))
            case Bad => r.None?
            case Parsed(v, rest) => r == Some(v) && stream.Ahead() == rest
  {
    hide ParseU32, ParseTensor, BytesString;
    var size := stream.ReadU32();
    if size.None? {
      return None;
    }
    var name := stream.Read(size.value);
    if name.None? {
      return None;
    }
    var value := Externalize(stream, was);
    if value.None? {
      return None;
    }
    return Some((BytesString(name.value), value.value));
  }

  method ExternalizeBubble(stream: ByteReader) returns (r: Option<Bubble>)
    requires stream.Valid()
    modifies stream
    ensures stream.Valid() && stream.pos >= old(stream.pos)
    ensures match ParseBubble(old(stream.Ahead()))
            case Bad => r.None?
            case Parsed(v, rest) => r == Some(v) && stream.Ahead() == rest
  {
    hide ParseU32, ParseParam, Restored;
    var n := stream.ReadU32();
    if n.None? {
      return None;
    }
    var params, held := map[], EMPTY;
    ghost var start, ps := stream.Ahead(), [];
    for i := 0 to n.value
      invariant stream.Valid() && stream.pos >= old(stream.pos)
      invariant ParseSome(i, start) == Parsed(ps, stream.Ahead()) && params == MapOf(ps) && held == Held(ps)
    {
      var p := ReadParam(stream, held);
      if p.None? {
        SomeStayBad(i + 1, n.value, start);
        return None;
      }
      assert (ps + [p.value])[..|ps|] == ps;
      ps := ps + [p.value];
      held := p.value.1;
      if p.value.0 !in params {
        params := params[p.value.0 := p.value.1];
      }
    }
    r := Restored(params);
  }
}
