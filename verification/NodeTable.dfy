/** `serialize_nodes` and `externalize_nodes` of `menu.cpp`: nodes with their inputs as indices. */
module NodeTable {
  import opened Collections
  import opened Graphs
  import opened Binio
  import opened TensorCodec
  import opened BubbleCodec

  // ---------------------------------------------------------------- numbering

  function IndexOf(nodes: seq<Node>, n: Node): (i: nat)
    requires n in nodes
    ensures i < |nodes| && nodes[i] == n
  {
    if nodes[0] == n then 0 else 1 + IndexOf(nodes[1..], n)
  }

  lemma IndexOfAt(nodes: seq<Node>, i: nat)
    requires Distinct(nodes) && i < |nodes|
    ensures IndexOf(nodes, nodes[i]) == i
  {
  }

  predicate Holds(nodes: seq<Node>, ns: seq<Node>) {
    forall n :: n in ns ==> n in nodes
  }

  function Indices(nodes: seq<Node>, ns: seq<Node>): (r: seq<nat>)
    requires Holds(nodes, ns)
    ensures |r| == |ns| && forall i :: 0 <= i < |ns| ==> r[i] == IndexOf(nodes, ns[i])
  {
    seq(|ns|, i requires 0 <= i < |ns| => IndexOf(nodes, ns[i]))
  }

  /** Every input of a listed node is listed. */
  predicate Linkable(g: Graph, nodes: seq<Node>)
    requires Within(g, nodes)
  {
    forall i :: 0 <= i < |nodes| ==> Holds(nodes, g[nodes[i]].inputs)
  }

  function RecordAt(g: Graph, nodes: seq<Node>, i: nat): Record
    requires Within(g, nodes) && i < |nodes| && Holds(nodes, g[nodes[i]].inputs)
  {
    Record(g[nodes[i]].bubble, Indices(nodes, g[nodes[i]].inputs))
  }

  /** The listed nodes as a graph of their own. */
  function Table(g: Graph, nodes: seq<Node>): (r: Graph)
    requires Within(g, nodes) && Linkable(g, nodes)
    ensures |r| == |nodes| && forall i :: 0 <= i < |nodes| ==> r[i] == RecordAt(g, nodes, i)
  {
    seq(|nodes|, i requires 0 <= i < |nodes| => RecordAt(g, nodes, i))
  }

  // ---------------------------------------------------------------- the layout

  /** A record with its parameters in the order they come in. */
  type Ordered = (Record, seq<Param>)

  ghost predicate OrderedFits(r: Ordered) {
    && BubbleFits(r.0.bubble) && InOrder(r.1, Stored(r.0.bubble))
    && |r.0.inputs| < LIMIT32 && forall i :: 0 <= i < |r.0.inputs| ==> r.0.inputs[i] < LIMIT32
  }

  function ListBytes(list: seq<nat>): seq<bv8> {
    U32(|list|) + WriteMany(U32, list)
  }

  function RecordBytes(r: Ordered): seq<bv8> {
    ParamsBytes(r.1) + ListBytes(r.0.inputs)
  }

  function ParseList(s: seq<bv8>): Parsed<seq<nat>> {
    match ParseU32(s)
    case Bad => Bad
    case Parsed(n, rest) => ParseMany(ParseU32, n, rest)
  }

  function ParseRecord(s: seq<bv8>): Parsed<Record> {
    match ParseBubble(s)
    case Bad => Bad
    case Parsed(b, rest) =>
      match ParseList(rest)
      case Bad => Bad
      case Parsed(inputs, rest') => Parsed(Record(b, inputs), rest')
  }

  function TableBytes(rs: seq<Ordered>): seq<bv8> {
    U32(|rs|) + WriteMany(RecordBytes, rs)
  }

  /** An index that is not in the table makes the file bad: the source would look past its end. */
  function ParseTable(s: seq<bv8>): Parsed<Graph> {
    match ParseU32(s)
    case Bad => Bad
    case Parsed(n, rest) =>
      match ParseMany(ParseRecord, n, rest)
      case Bad => Bad
      case Parsed(g, rest') => if Closed(g) then Parsed(g, rest') else Bad
  }

  // ---------------------------------------------------------------- round trip

  lemma ParseListBack(list: seq<nat>, rest: seq<bv8>)
    requires |list| < LIMIT32 && forall i :: 0 <= i < |list| ==> list[i] < LIMIT32
    ensures ParseList(ListBytes(list) + rest) == Parsed(list, rest)
  {
    hide U32, ParseU32, WriteMany, ParseMany;
    assert ListBytes(list) + rest == U32(|list|) + (WriteMany(U32, list) + rest);
    ParseU32Back(|list|, WriteMany(U32, list) + rest);
    forall i | 0 <= i < |list| ensures ReadsAs(U32, ParseU32, list[i], list[i]) {
      forall more ensures ParseU32(U32(list[i]) + more) == Parsed(list[i], more) {
        ParseU32Back(list[i], more);
      }
    }
    ManyBack(U32, ParseU32, list, list, rest);
  }

  function ShallowRecord(r: Record): Record {
    Record(ShallowBubble(r.bubble), r.inputs)
  }

  function ShallowGraph(g: Graph): (r: Graph)
    ensures |r| == |g| && forall i :: 0 <= i < |g| ==> r[i] == ShallowRecord(g[i])
  {
    seq(|g|, i requires 0 <= i < |g| => ShallowRecord(g[i]))
  }

  lemma ParseRecordBack(r: Ordered, rest: seq<bv8>)
    requires OrderedFits(r)
    ensures ParseRecord(RecordBytes(r) + rest) == Parsed(ShallowRecord(r.0), rest)
  {
    hide ParamsBytes, ParseBubble, ListBytes, ParseList, BubbleFits, ShallowBubble, Stored;
    assert RecordBytes(r) + rest == ParamsBytes(r.1) + (ListBytes(r.0.inputs) + rest);
    ParseBubbleBack(r.1, r.0.bubble, ListBytes(r.0.inputs) + rest);
    ParseListBack(r.0.inputs, rest);
  }

  function Records(rs: seq<Ordered>): (r: Graph)
    ensures |r| == |rs| && forall i :: 0 <= i < |rs| ==> r[i] == rs[i].0
  {
    seq(|rs|, i requires 0 <= i < |rs| => rs[i].0)
  }

  /** The table that is read is the one that was written. */
  lemma ParseTableBack(rs: seq<Ordered>, rest: seq<bv8>)
    requires |rs| < LIMIT32 && (forall i :: 0 <= i < |rs| ==> OrderedFits(rs[i])) && Closed(Records(rs))
    ensures ParseTable(TableBytes(rs) + rest) == Parsed(ShallowGraph(Records(rs)), rest)
  {
    hide U32, ParseU32, WriteMany, ParseMany, RecordBytes, ParseRecord, OrderedFits, ShallowBubble;
    var read := ShallowGraph(Records(rs));
    assert TableBytes(rs) + rest == U32(|rs|) + (WriteMany(RecordBytes, rs) + rest);
    ParseU32Back(|rs|, WriteMany(RecordBytes, rs) + rest);
    forall i | 0 <= i < |rs| ensures ReadsAs(RecordBytes, ParseRecord, rs[i], read[i]) {
      forall more ensures ParseRecord(RecordBytes(rs[i]) + more) == Parsed(read[i], more) {
        ParseRecordBack(rs[i], more);
      }
    }
    ManyBack(RecordBytes, ParseRecord, rs, read, rest);
    assert Closed(read) by {
      forall n, i | 0 <= n < |read| && 0 <= i < |read[n].inputs| ensures read[n].inputs[i] < |read| {
        assert read[n].inputs == Records(rs)[n].inputs;
      }
    }
  }

  // ---------------------------------------------------------------- the methods

  method WriteIndices(stream: ByteWriter, list: seq<nat>) returns (written: nat)
    modifies stream
    ensures stream.out == old(stream.out) + ListBytes(list) && written == |ListBytes(list)|
  {
    hide U32, WriteMany;
    written := stream.Write(U32(|list|));
    var n := WriteList(stream, list);
    written := written + n;
  }

  method NumberNodes(nodes: seq<Node>) returns (index: map<Node, nat>)
    requires Distinct(nodes)
    ensures index.Keys == set n | n in nodes
    ensures forall n :: n in nodes ==> index[n] == IndexOf(nodes, n)
  {
    hide IndexOf;
    index := map[];
    for i := 0 to |nodes|
      invariant index.Keys == set n | n in nodes[..i]
      invariant forall k :: 0 <= k < i ==> index[nodes[k]] == k
    {
      index := index[nodes[i] := i];
      assert nodes[..i + 1] == nodes[..i] + [nodes[i]];
    }
    assert nodes[..|nodes|] == nodes;
    forall n | n in nodes ensures index[n] == IndexOf(nodes, n) {
      var k := IndexOf(nodes, n);
    }
  }

  method FindInputs(index: map<Node, nat>, nodes: seq<Node>, inputs: seq<Node>) returns (r: Option<seq<nat>>)
    requires IsIndex(index, nodes)
    ensures r == if Holds(nodes, inputs) then Some(Indices(nodes, inputs)) else None
  {
    hide IndexOf;
    var found := [];
    for i := 0 to |inputs|
      invariant |found| == i && forall k :: 0 <= k < i ==> inputs[k] in nodes && found[k] == IndexOf(nodes, inputs[k])
    {
      if inputs[i] !in index {
        return None;
      }
      found := found + [index[inputs[i]]];
    }
    assert found == Indices(nodes, inputs);
    return Some(found);
  }

  predicate NodesFit(g: Graph, nodes: seq<Node>)
    requires Within(g, nodes)
  {
    && |nodes| < LIMIT32
    && forall i :: 0 <= i < |nodes| ==> BubbleFits(g[nodes[i]].bubble) && |g[nodes[i]].inputs| < LIMIT32
  }

  ghost predicate IsIndex(index: map<Node, nat>, nodes: seq<Node>) {
    index.Keys == (set n | n in nodes) && forall n :: n in nodes ==> index[n] == IndexOf(nodes, n)
  }

  method SerializeNode(stream: ByteWriter, g: Graph, nodes: seq<Node>, index: map<Node, nat>, i: nat)
    returns (written: Option<nat>, ghost r: Ordered)
    requires Within(g, nodes) && NodesFit(g, nodes) && IsIndex(index, nodes) && i < |nodes|
    modifies stream
    ensures written.Some? <==> Holds(nodes, g[nodes[i]].inputs)
    ensures written.Some? ==>
              && r.0 == RecordAt(g, nodes, i) && OrderedFits(r)
              && stream.out == old(stream.out) + RecordBytes(r) && written == Some(|RecordBytes(r)|)
  {
    hide ParamsBytes, ListBytes, BubbleFits, InOrder, IndexOf, Stored;
    var node := g[nodes[i]];
    r := (node, []);
    var inputs := FindInputs(index, nodes, node.inputs);
    if inputs.None? {
      return None, r;
    }
    ghost var entries;
    var n, m;
    n, entries := SerializeBubble(stream, node.bubble);
    m := WriteIndices(stream, inputs.value);
    r := (Record(node.bubble, inputs.value), entries);
    return Some(n + m), r;
  }

  /** The first nodes, as they have been written. */
  ghost predicate Written(g: Graph, nodes: seq<Node>, rs: seq<Ordered>)
    requires Within(g, nodes)
  {
    && |rs| <= |nodes|
    && forall k :: 0 <= k < |rs| ==>
         Holds(nodes, g[nodes[k]].inputs) && rs[k].0 == RecordAt(g, nodes, k) && OrderedFits(rs[k])
  }

  lemma NoneWritten(g: Graph, nodes: seq<Node>)
    requires Within(g, nodes)
    ensures Written(g, nodes, [])
  {
  }

  lemma WrittenMore(g: Graph, nodes: seq<Node>, rs: seq<Ordered>, r: Ordered)
    requires Within(g, nodes) && Written(g, nodes, rs) && |rs| < |nodes|
    requires Holds(nodes, g[nodes[|rs|]].inputs) && r.0 == RecordAt(g, nodes, |rs|) && OrderedFits(r)
    ensures Written(g, nodes, rs + [r])
  {
    hide RecordAt, OrderedFits, Holds;
  }

  lemma AllWritten(g: Graph, nodes: seq<Node>, rs: seq<Ordered>)
    requires Within(g, nodes) && Written(g, nodes, rs) && |rs| == |nodes|
    ensures Linkable(g, nodes) && Records(rs) == Table(g, nodes) && forall i :: 0 <= i < |rs| ==> OrderedFits(rs[i])
  {
    hide RecordAt, OrderedFits, Holds;
  }

  /** It fails exactly if an input of a listed node is not listed. */
  method SerializeNodes(stream: ByteWriter, g: Graph, nodes: seq<Node>)
    returns (written: Option<nat>, ghost rs: seq<Ordered>)
    requires Within(g, nodes) && Distinct(nodes) && NodesFit(g, nodes)
    modifies stream
    ensures written.Some? <==> Linkable(g, nodes)
    ensures written.Some? ==>
              && Records(rs) == Table(g, nodes) && (forall i :: 0 <= i < |rs| ==> OrderedFits(rs[i]))
              && stream.out == old(stream.out) + TableBytes(rs) && written == Some(|TableBytes(rs)|)
  {
    hide U32, RecordBytes, OrderedFits, IndexOf, NodesFit, Holds, Written, WriteMany;
    var index := NumberNodes(nodes);
    var size := stream.Write(U32(|nodes|));
    rs := [];
    WriteManyNone(RecordBytes);
    NoneWritten(g, nodes);
    for i := 0 to |nodes|
      invariant |rs| == i && Written(g, nodes, rs)
      invariant stream.out == old(stream.out) + (U32(|nodes|) + WriteMany(RecordBytes, rs))
      invariant size == 4 + |WriteMany(RecordBytes, rs)|
    {
      ghost var r;
      var n;
      n, r := SerializeNode(stream, g, nodes, index, i);
      if n.None? {
        return None, rs;
      }
      size := size + n.value;
      WrittenMore(g, nodes, rs, r);
      WriteManyMore(RecordBytes, rs, r);
      rs := rs + [r];
    }
    AllWritten(g, nodes, rs);
    return Some(size), rs;
  }

  method ReadIndices(stream: ByteReader) returns (r: Option<seq<nat>>)
    requires stream.Valid()
    modifies stream
    ensures stream.Valid() && stream.pos >= old(stream.pos)
    ensures match ParseList(old(stream.Ahead()))
            case Bad => r.None?
            case Parsed(v, rest) => r == Some(v) && stream.Ahead() == rest
  {
    hide ParseU32, ParseMany;
    var n := stream.ReadU32();
    if n.None? {
      return None;
    }
    r := ReadList(stream, n.value);
  }

  method ExternalizeNodes(stream: ByteReader) returns (r: Option<Graph>)
    requires stream.Valid()
    modifies stream
    ensures stream.Valid() && stream.pos >= old(stream.pos)
    ensures match ParseTable(old(stream.Ahead()))
            case Bad => r.None?
            case Parsed(v, rest) => r == Some(v) && stream.Ahead() == rest
  {
    hide ParseU32, ParseBubble, ParseList;
    var n := stream.ReadU32();
    if n.None? {
      return None;
    }
    var nodes := [];
    ghost var start := stream.Ahead();
    for i := 0 to n.value
      invariant stream.Valid() && stream.pos >= old(stream.pos)
      invariant ParseMany(ParseRecord, i, start) == Parsed(nodes, stream.Ahead())
    {
      ghost var here := stream.Ahead();
      var bubble := ExternalizeBubble(stream);
      if bubble.None? {
        BadStays(ParseRecord, i + 1, n.value, start);
        return None;
      }
      var inputs := ReadIndices(stream);
      if inputs.None? {
        BadStays(ParseRecord, i + 1, n.value, start);
        return None;
      }
      nodes := nodes + [Record(bubble.value, inputs.value)];
    }
    return if Closed(nodes) then Some(nodes) else None;
  }
}
