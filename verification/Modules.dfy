/** `Module::Save` and `Module::Load` of `module.cpp`. */
module Modules {
  import opened Collections
  import opened Tensors
  import opened Graphs
  import opened Schedule
  import opened Binio
  import opened BubbleCodec
  import opened NodeTable
  import opened Walking

  datatype Module = Module(graph: Graph, inputs: seq<Node>, outputs: seq<Node>)

  ghost predicate Placed(m: Module) {
    Closed(m.graph) && Within(m.graph, m.inputs) && Within(m.graph, m.outputs)
  }

  /** What `load` and `sort_inputs` ask of a module: the outputs can be computed from its inputs. */
  ghost predicate Loadable(m: Module)
    requires Placed(m)
  {
    && Computable(m.graph, m.outputs)
    && forall n :: Needs(m.graph, m.outputs, n) ==> n in m.inputs
  }

  // ---------------------------------------------------------------- the layout

  const CODE: nat := 0x19910929

  function HeaderBytes(): seq<bv8> {
    U32(0) + U32(CODE) + seq(120, _ => 0)
  }

  function ModuleBytes(inputs: seq<nat>, outputs: seq<nat>, rs: seq<Ordered>): seq<bv8> {
    HeaderBytes() + (ListBytes(inputs) + (ListBytes(outputs) + TableBytes(rs)))
  }

  function ParseHeader(s: seq<bv8>): Parsed<nat> {
    match ParseU32(s)
    case Bad => Bad
    case Parsed(fake, rest) =>
      match ParseU32(rest)
      case Bad => Bad
      case Parsed(code, rest') =>
        match ParseBytes(rest', 120)
        case Bad => Bad
        case Parsed(data, rest'') => Parsed(code, rest'')
  }

  /** Inputs and outputs outside the table make the file bad, as do the wrong code and a bad table. */
  function ParseBody(s: seq<bv8>): Parsed<Module> {
    match ParseList(s)
    case Bad => Bad
    case Parsed(inputs, rest) =>
      match ParseList(rest)
      case Bad => Bad
      case Parsed(outputs, rest') =>
        match ParseTable(rest')
        case Bad => Bad
        case Parsed(g, rest'') =>
          if Within(g, inputs) && Within(g, outputs) then Parsed(Module(g, inputs, outputs), rest'') else Bad
  }

  function ParseModule(s: seq<bv8>): Parsed<Module> {
    match ParseHeader(s)
    case Bad => Bad
    case Parsed(code, rest) => if code == CODE then ParseBody(rest) else Bad
  }

  lemma ParsedIsPlaced(s: seq<bv8>)
    ensures match ParseModule(s) case Bad => true case Parsed(m, rest) => Placed(m)
  {
    hide ParseHeader, ParseList, ParseU32, ParseMany, Within, Closed;
  }

  // ---------------------------------------------------------------- saving

  /** The nodes that go to the file: what the outputs depend on, and the inputs. */
  ghost predicate IsSaved(m: Module, nodes: seq<Node>)
    requires Dag(m.graph) && Placed(m)
  {
    && Distinct(nodes) && Within(m.graph, nodes)
    && forall n :: n in nodes <==> ReachedFrom(m.graph, m.outputs, n) || n in m.inputs
  }

  /** First what the outputs depend on, deepest first, and then the inputs that are not among it. */
  method NodesToSave(m: Module) returns (nodes: seq<Node>, ghost schedule: seq<Entry>)
    requires Dag(m.graph) && Placed(m)
    ensures IsSaved(m, nodes)
    ensures IsSchedule(m.graph, m.outputs, schedule) && |schedule| <= |nodes|
    ensures forall i :: 0 <= i < |schedule| ==> nodes[i] == schedule[i].node
  {
    hide Dag, IsDepth, Closed, ReachedFrom;
    var listed := ListReferenceNodes(m.graph, m.outputs);
    schedule := listed;
    nodes := [];
    for i := 0 to |listed|
      invariant |nodes| == i && forall k :: 0 <= k < i ==> nodes[k] == listed[k].node
    {
      nodes := nodes + [listed[i].node];
    }
    assert forall n :: ReachedFrom(m.graph, m.outputs, n) <==> n in nodes;
    for i := 0 to |m.inputs|
      invariant Distinct(nodes) && Within(m.graph, nodes)
      invariant |schedule| <= |nodes| && forall k :: 0 <= k < |schedule| ==> nodes[k] == schedule[k].node
      invariant forall n :: n in nodes <==> ReachedFrom(m.graph, m.outputs, n) || n in m.inputs[..i]
    {
      assert m.inputs[..i + 1] == m.inputs[..i] + [m.inputs[i]];
      if m.inputs[i] !in nodes {
        nodes := nodes + [m.inputs[i]];
      }
    }
    assert m.inputs[..|m.inputs|] == m.inputs;
  }

  /** What is saved fits the widths of the file. */
  ghost predicate ModuleFits(m: Module)
    requires Dag(m.graph) && Placed(m)
  {
    && |m.graph| < LIMIT32 && |m.inputs| < LIMIT32 && |m.outputs| < LIMIT32
    && forall n: Node :: n < |m.graph| && (ReachedFrom(m.graph, m.outputs, n) || n in m.inputs) ==>
         BubbleFits(m.graph[n].bubble) && |m.graph[n].inputs| < LIMIT32
  }

  lemma {:induction false} NoMoreThan(nodes: seq<Node>, n: nat)
    requires Distinct(nodes) && forall i :: 0 <= i < |nodes| ==> nodes[i] < n
    ensures |nodes| <= n
    decreases n
  {
    if nodes != [] {
      assert nodes[0] < n;
      if n - 1 in nodes {
        var i :| 0 <= i < |nodes| && nodes[i] == n - 1;
        NoMoreThan(nodes[..i] + nodes[i + 1..], n - 1);
      } else {
        forall i | 0 <= i < |nodes| ensures nodes[i] < n - 1 {
          assert nodes[i] in nodes;
        }
        NoMoreThan(nodes, n - 1);
      }
    }
  }

  lemma SavedNodesFit(m: Module, nodes: seq<Node>)
    requires Dag(m.graph) && Placed(m) && IsSaved(m, nodes) && ModuleFits(m)
    ensures NodesFit(m.graph, nodes)
  {
    hide Dag, Closed, ReachedFrom, BubbleFits;
    NoMoreThan(nodes, |m.graph|);
    forall i | 0 <= i < |nodes| ensures BubbleFits(m.graph[nodes[i]].bubble) && |m.graph[nodes[i]].inputs| < LIMIT32 {
      assert nodes[i] in nodes;
    }
  }

  lemma OutputsReached(g: Graph, outputs: seq<Node>)
    requires Dag(g) && Within(g, outputs)
    ensures forall n :: n in outputs ==> ReachedFrom(g, outputs, n)
  {
  }

  /** The node a saved module has in place `i`, and where its inputs and outputs are. */
  function Renumbered(m: Module, nodes: seq<Node>): Module
    requires Within(m.graph, nodes) && Linkable(m.graph, nodes) && Holds(nodes, m.inputs) && Holds(nodes, m.outputs)
  {
    Module(ShallowGraph(Table(m.graph, nodes)), Indices(nodes, m.inputs), Indices(nodes, m.outputs))
  }

  lemma SavedHolds(m: Module, nodes: seq<Node>)
    requires Dag(m.graph) && Placed(m) && IsSaved(m, nodes)
    ensures Holds(nodes, m.inputs) && Holds(nodes, m.outputs)
  {
    OutputsReached(m.graph, m.outputs);
    hide ReachedFrom, Dag;
  }

  /** Every node saved finds its inputs exactly if those of the module inputs are needed, or are inputs themselves. */
  lemma SavedIsLinkable(m: Module, nodes: seq<Node>)
    requires Dag(m.graph) && Placed(m) && IsSaved(m, nodes)
    ensures Linkable(m.graph, nodes) <==>
            forall n, x :: n in m.inputs && x in m.graph[n].inputs ==>
                             ReachedFrom(m.graph, m.outputs, x) || x in m.inputs
  {
    forall n: Node, x | n < |m.graph| && ReachedFrom(m.graph, m.outputs, n) && x in m.graph[n].inputs
      ensures ReachedFrom(m.graph, m.outputs, x)
    {
      var r :| 0 <= r < |m.outputs| && Reaches(m.graph, m.outputs[r], n);
      var i :| 0 <= i < |m.graph[n].inputs| && m.graph[n].inputs[i] == x;
      InputRank(m.graph, n, i);
      assert Reaches(m.graph, x, x) && Reaches(m.graph, n, x);
      ReachesTrans(m.graph, m.outputs[r], n, x);
    }
  }

  /** The sections of the file, written one after the other. */
  lemma Sections(before: seq<bv8>, inputs: seq<nat>, outputs: seq<nat>, rs: seq<Ordered>)
    ensures before + HeaderBytes() + ListBytes(inputs) + ListBytes(outputs) + TableBytes(rs)
         == before + ModuleBytes(inputs, outputs, rs)
  {
    hide HeaderBytes, ListBytes, TableBytes;
  }

  /** Saving fails exactly if an input of the module, not needed by the outputs, has inputs that are not saved. */
  method Save(stream: ByteWriter, m: Module) returns (done: bool, ghost nodes: seq<Node>, ghost rs: seq<Ordered>)
    requires Dag(m.graph) && Placed(m) && ModuleFits(m)
    modifies stream
    ensures IsSaved(m, nodes) && (done <==> Linkable(m.graph, nodes))
    ensures done ==>
              && Holds(nodes, m.inputs) && Holds(nodes, m.outputs)
              && Records(rs) == Table(m.graph, nodes) && (forall i :: 0 <= i < |rs| ==> OrderedFits(rs[i]))
              && stream.out == old(stream.out) + ModuleBytes(Indices(nodes, m.inputs), Indices(nodes, m.outputs), rs)
  {
    hide Dag, ReachedFrom, TableBytes, ListBytes, HeaderBytes, OrderedFits;
    hide IndexOf, Linkable, NodesFit, Table, ModuleFits, IsSchedule, ModuleBytes;
    var listed, _ := NodesToSave(m);
    nodes := listed;
    SavedHolds(m, nodes);
    SavedNodesFit(m, nodes);
    var index := NumberNodes(listed);
    var n := stream.Write(HeaderBytes());
    var inputs := FindInputs(index, listed, m.inputs);
    n := WriteIndices(stream, inputs.value);
    var outputs := FindInputs(index, listed, m.outputs);
    n := WriteIndices(stream, outputs.value);
    var written;
    written, rs := SerializeNodes(stream, m.graph, listed);
    done := written.Some?;
    Sections(old(stream.out), inputs.value, outputs.value, rs);
  }

  // ---------------------------------------------------------------- loading

  /** `load` on the graph read, then `sort_inputs`. */
  method LoadGraph(m: Module) returns (r: Option<Module>)
    requires Placed(m)
    ensures r == if Loadable(m) then Some(m) else None
  {
    hide Computable, Needs, Closed, Within;
    var found := GraphWalker(m.graph, m.outputs);
    if found.None? {
      return None;
    }
    return if forall n :: n in found.value ==> n in m.inputs then Some(m) else None;
  }

  method Load(stream: ByteReader) returns (r: Option<Module>)
    requires stream.Valid()
    modifies stream
    ensures stream.Valid()
    ensures match ParseModule(old(stream.Ahead()))
            case Bad => r.None?
            case Parsed(m, rest) => Placed(m) && r == (if Loadable(m) then Some(m) else None) && stream.Ahead() == rest
  {
    hide ParseU32, ParseList, ParseTable, Within, Closed, Loadable, Placed;
    ParsedIsPlaced(stream.Ahead());
    var fake := stream.ReadU32();
    if fake.None? {
      return None;
    }
    var code := stream.ReadU32();
    if code.None? {
      return None;
    }
    var data := stream.Read(120);
    if data.None? || code.value != CODE {
      return None;
    }
    var inputs := ReadIndices(stream);
    if inputs.None? {
      return None;
    }
    var outputs := ReadIndices(stream);
    if outputs.None? {
      return None;
    }
    var g := ExternalizeNodes(stream);
    if g.None? || !Within(g.value, inputs.value) || !Within(g.value, outputs.value) {
      return None;
    }
    r := LoadGraph(Module(g.value, inputs.value, outputs.value));
  }

  // ---------------------------------------------------------------- round trip

  lemma ParseHeaderBack(rest: seq<bv8>)
    ensures ParseHeader(HeaderBytes() + rest) == Parsed(CODE, rest)
  {
    hide U32, ParseU32;
    var zeros := seq(120, _ => 0 as bv8);
    assert HeaderBytes() + rest == U32(0) + (U32(CODE) + (zeros + rest));
    ParseU32Back(0, U32(CODE) + (zeros + rest));
    ParseU32Back(CODE, zeros + rest);
    ParseBytesBack(zeros, rest);
  }

  lemma ParseModuleBack(g: Graph, inputs: seq<nat>, outputs: seq<nat>, rs: seq<Ordered>, rest: seq<bv8>)
    requires |rs| < LIMIT32 && (forall i :: 0 <= i < |rs| ==> OrderedFits(rs[i])) && g == Records(rs) && Closed(g)
    requires |g| <= LIMIT32 && |inputs| < LIMIT32 && |outputs| < LIMIT32 && Within(g, inputs) && Within(g, outputs)
    ensures ParseModule(ModuleBytes(inputs, outputs, rs) + rest)
         == Parsed(Module(ShallowGraph(g), inputs, outputs), rest)
  {
    hide HeaderBytes, ParseHeader, ListBytes, ParseList, TableBytes, ParseTable, Closed, OrderedFits;
    var table := TableBytes(rs) + rest;
    assert ModuleBytes(inputs, outputs, rs) + rest
        == HeaderBytes() + (ListBytes(inputs) + (ListBytes(outputs) + table));
    ParseHeaderBack(ListBytes(inputs) + (ListBytes(outputs) + table));
    ParseListBack(inputs, ListBytes(outputs) + table);
    ParseListBack(outputs, table);
    ParseTableBack(rs, rest);
    assert ParseBody(ListBytes(inputs) + (ListBytes(outputs) + table))
        == Parsed(Module(ShallowGraph(g), inputs, outputs), rest);
  }

  lemma KindSurvives(b: Bubble)
    ensures ShallowBubble(b).Kind() == b.Kind()
  {
  }

  /** What is met in the saved module is met, at the same distance, in the original one. */
  lemma {:induction false} MetComesFrom(m: Module, nodes: seq<Node>, i: nat, k: nat)
    requires Within(m.graph, nodes) && Linkable(m.graph, nodes) && Holds(nodes, m.inputs) && Holds(nodes, m.outputs)
    requires i < |nodes|
    requires MetAt(Renumbered(m, nodes).graph, Renumbered(m, nodes).outputs, i, k)
    ensures MetAt(m.graph, m.outputs, nodes[i], k)
    decreases k
  {
    hide IndexOf, ShallowBubble, Bubble.Kind;
    var s := Renumbered(m, nodes);
    if k > 0 {
      var p, j :| 0 <= p < |s.graph| && 0 <= j < |s.graph[p].inputs| && MetAt(s.graph, s.outputs, p, k - 1)
                  && Proceeds(s.graph, p) && s.graph[p].inputs[j] == i;
      MetComesFrom(m, nodes, p, k - 1);
      KindSurvives(m.graph[nodes[p]].bubble);
      assert s.graph[p] == ShallowRecord(RecordAt(m.graph, nodes, p));
      assert m.graph[nodes[p]].inputs[j] == nodes[i] && Proceeds(m.graph, nodes[p]);
    }
  }

  /** The file loads again. */
  lemma SavedIsLoadable(m: Module, nodes: seq<Node>)
    requires Placed(m) && Loadable(m)
    requires Distinct(nodes) && Within(m.graph, nodes)
    requires Linkable(m.graph, nodes) && Holds(nodes, m.inputs) && Holds(nodes, m.outputs)
    ensures Placed(Renumbered(m, nodes)) && Loadable(Renumbered(m, nodes))
  {
    hide IndexOf, ShallowBubble, Bubble.Kind, MetAt;
    var s := Renumbered(m, nodes);
    assert Closed(s.graph) by {
      forall n, i | 0 <= n < |s.graph| && 0 <= i < |s.graph[n].inputs| ensures s.graph[n].inputs[i] < |s.graph| {
        assert s.graph[n] == ShallowRecord(RecordAt(m.graph, nodes, n));
      }
    }
    forall i | 0 <= i < |s.graph| && Met(s.graph, s.outputs, i)
      ensures Met(m.graph, m.outputs, nodes[i]) && s.graph[i].bubble.Kind() == m.graph[nodes[i]].bubble.Kind()
      ensures |s.graph[i].inputs| == |m.graph[nodes[i]].inputs|
    {
      var k: nat :| MetAt(s.graph, s.outputs, i, k);
      MetComesFrom(m, nodes, i, k);
      KindSurvives(m.graph[nodes[i]].bubble);
      assert s.graph[i] == ShallowRecord(RecordAt(m.graph, nodes, i));
    }
    forall i: nat | Needs(s.graph, s.outputs, i) ensures i in s.inputs {
      assert Needs(m.graph, m.outputs, nodes[i]);
      var j :| 0 <= j < |m.inputs| && m.inputs[j] == nodes[i];
      IndexOfAt(nodes, i);
      assert s.inputs[j] == i;
    }
  }

  // ---------------------------------------------------------------- the meaning is kept

  /** Every tensor of the nodes survives the file whole. */
  predicate FlatNodes(g: Graph, nodes: seq<Node>)
    requires Within(g, nodes)
  {
    forall i :: 0 <= i < |nodes| ==> ShallowBubble(g[nodes[i]].bubble) == g[nodes[i]].bubble
  }

  lemma RenumberedDag(m: Module, nodes: seq<Node>)
    requires Dag(m.graph) && Within(m.graph, nodes)
    requires Linkable(m.graph, nodes) && Holds(nodes, m.inputs) && Holds(nodes, m.outputs)
    ensures Dag(Renumbered(m, nodes).graph)
  {
    hide IndexOf, ShallowBubble;
    var s := Renumbered(m, nodes).graph;
    var rank := seq(|nodes|, i requires 0 <= i < |nodes| => Rank(m.graph, nodes[i]));
    forall n, i | 0 <= n < |s| && 0 <= i < |s[n].inputs|
      ensures s[n].inputs[i] < |s| && rank[s[n].inputs[i]] < rank[n]
    {
      assert s[n] == ShallowRecord(RecordAt(m.graph, nodes, n));
      InputRank(m.graph, nodes[n], i);
    }
    assert IsRanking(s, rank);
  }

  /** Node for node, the saved graph computes what the original computes. */
  lemma {:induction false} SameValue(m: Module, nodes: seq<Node>, k: Kernels, env: Env, env': Env, i: nat)
    requires Dag(m.graph) && Within(m.graph, nodes) && FlatNodes(m.graph, nodes)
    requires Linkable(m.graph, nodes) && Holds(nodes, m.inputs) && Holds(nodes, m.outputs)
    requires i < |nodes| && forall j :: 0 <= j < |nodes| ==> env'(j) == env(nodes[j])
    requires Dag(Renumbered(m, nodes).graph)
    ensures Eval(Renumbered(m, nodes).graph, k, env', i) == Eval(m.graph, k, env, nodes[i])
    decreases Rank(m.graph, nodes[i])
  {
    hide Dag, IndexOf, ShallowBubble, Bubble.Kind;
    var s := Renumbered(m, nodes).graph;
    var n := nodes[i];
    assert s[i] == ShallowRecord(RecordAt(m.graph, nodes, i)) && s[i].bubble == m.graph[n].bubble;
    if !m.graph[n].bubble.Kind().Parameter? && !m.graph[n].bubble.Kind().Const? {
      EvalOperator(m.graph, k, env, n);
      EvalOperator(s, k, env', i);
      forall j | 0 <= j < |m.graph[n].inputs|
        ensures Eval(s, k, env', s[i].inputs[j]) == Eval(m.graph, k, env, m.graph[n].inputs[j])
      {
        InputRank(m.graph, n, j);
        SameValue(m, nodes, k, env, env', s[i].inputs[j]);
      }
      assert EvalAll(s, k, env', s[i].inputs) == EvalAll(m.graph, k, env, m.graph[n].inputs);
    }
  }

  /**
   * Save, then load: the module that comes back has the same inputs and outputs in the same order, on a
   * graph that consists of what the outputs depend on and the inputs, and its outputs have the same values.
   */
  lemma SaveLoad(m: Module, nodes: seq<Node>, rs: seq<Ordered>, rest: seq<bv8>, k: Kernels, env: Env, env': Env)
    requires Dag(m.graph) && Placed(m) && Loadable(m) && IsSaved(m, nodes) && ModuleFits(m) && Linkable(m.graph, nodes)
    requires Holds(nodes, m.inputs) && Holds(nodes, m.outputs)
    requires Records(rs) == Table(m.graph, nodes) && forall i :: 0 <= i < |rs| ==> OrderedFits(rs[i])
    requires FlatNodes(m.graph, nodes) && forall j :: 0 <= j < |nodes| ==> env'(j) == env(nodes[j])
    ensures var s := Renumbered(m, nodes);
            && ParseModule(ModuleBytes(Indices(nodes, m.inputs), Indices(nodes, m.outputs), rs) + rest)
               == Parsed(s, rest)
            && Placed(s) && Loadable(s) && Dag(s.graph)
            && EvalAll(s.graph, k, env', s.outputs) == EvalAll(m.graph, k, env, m.outputs)
  {
    hide Dag, IndexOf, ShallowBubble, Bubble.Kind, ParseModule, ModuleBytes, OrderedFits;
    hide NodesFit, Computable, Needs, ReachedFrom, FlatNodes, Loadable, ModuleFits;
    var s := Renumbered(m, nodes);
    RenumberedDag(m, nodes);
    SavedIsLoadable(m, nodes);
    SavedNodesFit(m, nodes);
    TableIsClosed(m.graph, nodes);
    CountsFit(m, nodes);
    ParseModuleBack(Table(m.graph, nodes), s.inputs, s.outputs, rs, rest);
    forall i | 0 <= i < |m.outputs|
      ensures Eval(s.graph, k, env', s.outputs[i]) == Eval(m.graph, k, env, m.outputs[i])
    {
      SameValue(m, nodes, k, env, env', s.outputs[i]);
    }
  }

  /** Save, then load, on streams: the module comes back renumbered, or saving has failed. */
  method SaveThenLoad(m: Module) returns (r: Option<Module>, ghost nodes: seq<Node>)
    requires Dag(m.graph) && Placed(m) && Loadable(m) && ModuleFits(m)
    ensures IsSaved(m, nodes) && Holds(nodes, m.inputs) && Holds(nodes, m.outputs)
    ensures r == if Linkable(m.graph, nodes) then Some(Renumbered(m, nodes)) else None
  {
    hide Dag, ReachedFrom, Loadable, Linkable, ModuleBytes, ParseModule, OrderedFits, Renumbered, IndexOf, ModuleFits;
    var writer := new ByteWriter();
    var done;
    ghost var rs;
    done, nodes, rs := Save(writer, m);
    SavedHolds(m, nodes);
    if !done {
      return None, nodes;
    }
    assert [] + writer.out == writer.out == writer.out + [];
    var reader := new ByteReader(writer.out);
    SavedParses(m, nodes, rs);
    r := Load(reader);
  }

  lemma SavedParses(m: Module, nodes: seq<Node>, rs: seq<Ordered>)
    requires Dag(m.graph) && Placed(m) && Loadable(m) && IsSaved(m, nodes) && ModuleFits(m) && Linkable(m.graph, nodes)
    requires Holds(nodes, m.inputs) && Holds(nodes, m.outputs)
    requires Records(rs) == Table(m.graph, nodes) && forall i :: 0 <= i < |rs| ==> OrderedFits(rs[i])
    ensures Placed(Renumbered(m, nodes)) && Loadable(Renumbered(m, nodes))
    ensures ParseModule(ModuleBytes(Indices(nodes, m.inputs), Indices(nodes, m.outputs), rs))
         == Parsed(Renumbered(m, nodes), [])
  {
    hide Dag, IndexOf, ParseModule, ModuleBytes, OrderedFits, NodesFit, ReachedFrom, Loadable, ModuleFits;
    SavedIsLoadable(m, nodes);
    SavedNodesFit(m, nodes);
    var s := Renumbered(m, nodes);
    TableIsClosed(m.graph, nodes);
    CountsFit(m, nodes);
    ParseModuleBack(Table(m.graph, nodes), s.inputs, s.outputs, rs, []);
    var bytes := ModuleBytes(s.inputs, s.outputs, rs);
    assert bytes + [] == bytes;
  }

  lemma TableIsClosed(g: Graph, nodes: seq<Node>)
    requires Within(g, nodes) && Linkable(g, nodes)
    ensures Closed(Table(g, nodes))
  {
    hide IndexOf;
  }

  lemma CountsFit(m: Module, nodes: seq<Node>)
    requires Dag(m.graph) && Placed(m) && ModuleFits(m) && Within(m.graph, nodes) && NodesFit(m.graph, nodes)
    ensures |m.inputs| < LIMIT32 && |m.outputs| < LIMIT32 && |nodes| < LIMIT32
  {
  }
}
