/** `run_const_node` and `run_const_nodes`: memoised constant folding. */
module Folding {
  import opened Tensors
  import opened Graphs
  import opened Standing
  import opened Sharing

  // ---------------------------------------------------------------- run_const_node

  /** What folding the inputs of a node gathers: `const_input_nodes`, `const_inputs` and the two flags. */
  datatype Gathered = Gathered(nodes: seq<Node>, values: seq<Tensor>, allConst: bool, changed: bool) {
    function Add(c: Node, isConst: bool, value: Tensor, differs: bool): Gathered {
      Gathered(nodes + [c], if isConst then values + [value] else values, allConst && isConst, changed || differs)
    }
  }

  /** `constNodes` in `h` stand, one by one, for `nodes` in `g`. */
  ghost predicate AllStand(h: Graph, constNodes: seq<Node>, g: Graph, nodes: seq<Node>, k: Kernels)
    requires Grown(g, h)
  {
    |constNodes| == |nodes| && forall i :: 0 <= i < |nodes| ==> Stands(h, constNodes[i], g, nodes[i], k)
  }

  ghost predicate NoneReachParameter(g: Graph, nodes: seq<Node>)
    requires Dag(g) && Within(g, nodes)
  {
    forall i :: 0 <= i < |nodes| ==> !ReachesParameter(g, nodes[i])
  }

  predicate AreValues(h: Graph, nodes: seq<Node>, values: seq<Tensor>)
    requires Within(h, nodes)
  {
    && |values| == |nodes|
    && forall i :: 0 <= i < |nodes| ==> h[nodes[i]].bubble.HasValue() && values[i] == h[nodes[i]].bubble.Value()
  }

  lemma AllStandWithin(h: Graph, cs: seq<Node>, g: Graph, ns: seq<Node>, k: Kernels)
    requires Grown(g, h) && AllStand(h, cs, g, ns, k)
    ensures Within(h, cs) && Within(g, ns)
  {
    hide ReachesParameter, Represents;
  }

  lemma AllStandExtends(h: Graph, cs: seq<Node>, g: Graph, ns: seq<Node>, k: Kernels, h': Graph)
    requires Grown(g, h) && Grown(g, h') && Extends(h, h') && AllStand(h, cs, g, ns, k)
    ensures AllStand(h', cs, g, ns, k)
  {
    AllStandWithin(h, cs, g, ns, k);
    hide Stands;
    forall i | 0 <= i < |cs| ensures Stands(h', cs[i], g, ns[i], k) {
      StandsExtends(h, cs[i], g, ns[i], k, h');
    }
  }

  lemma AllStandAppend(h: Graph, cs: seq<Node>, g: Graph, ns: seq<Node>, k: Kernels, c: Node, n: Node)
    requires Grown(g, h) && AllStand(h, cs, g, ns, k) && Stands(h, c, g, n, k)
    ensures AllStand(h, cs + [c], g, ns + [n], k)
  {
    hide Stands;
  }

  ghost predicate IsGathered(h: Graph, g: Graph, ns: seq<Node>, k: Kernels, done: Gathered)
    requires Grown(g, h)
  {
    && AllStand(h, done.nodes, g, ns, k) && Within(h, done.nodes) && Within(g, ns)
    && (done.allConst <==> NoneReachParameter(g, ns))
    && (done.allConst ==> AreValues(h, done.nodes, done.values))
    && (!done.changed ==> done.nodes == ns)
  }

  lemma GatheredExtends(h: Graph, h': Graph, g: Graph, ns: seq<Node>, k: Kernels, done: Gathered)
    requires Grown(g, h) && Grown(g, h') && Extends(h, h') && IsGathered(h, g, ns, k, done)
    ensures IsGathered(h', g, ns, k, done)
  {
    AllStandExtends(h, done.nodes, g, ns, k, h');
  }

  lemma GatheredNothing(h: Graph, g: Graph, k: Kernels)
    requires Grown(g, h)
    ensures IsGathered(h, g, [], k, Gathered([], [], true, false))
  {
  }

  lemma NoneReachAppend(g: Graph, ns: seq<Node>, n: Node)
    requires Dag(g) && Within(g, ns) && n < |g|
    ensures NoneReachParameter(g, ns + [n]) <==> NoneReachParameter(g, ns) && !ReachesParameter(g, n)
  {
    hide ReachesParameter;
    assert (ns + [n])[|ns|] == n;
    assert forall i :: 0 <= i < |ns| ==> (ns + [n])[i] == ns[i];
  }

  lemma GatherStep(h: Graph, g: Graph, ns: seq<Node>, k: Kernels, done: Gathered, c: Node, n: Node, isConst: bool)
    requires Grown(g, h) && IsGathered(h, g, ns, k, done) && Stands(h, c, g, n, k)
    requires isConst <==> !ReachesParameter(g, n)
    requires isConst ==> h[c].bubble.HasValue()
    ensures IsGathered(h, g, ns + [n], k, done.Add(c, isConst, h[c].bubble.Value(), c != n))
  {
    hide Stands, AllStand, ReachesParameter, NoneReachParameter, Bubble.Kind, Bubble.Value, Bubble.HasValue;
    AllStandAppend(h, done.nodes, g, ns, k, c, n);
    StandsWithin(h, c, g, n, k);
    NoneReachAppend(g, ns, n);
  }

  lemma ValuelessInput(h: Graph, c: Node, g: Graph, n: Node, k: Kernels, i: nat)
    requires Grown(g, h) && n < |g| && i < |g[n].inputs| && g[n].bubble.Kind().Operator?
    requires Stands(h, c, g, g[n].inputs[i], k) && h[c].bubble.Kind().Const? && !h[c].bubble.HasValue()
    ensures !Compilable(g, k, n)
  {
    CompilableInputs(h, k, c);
    CompilableInputs(g, k, n);
  }

  lemma MakeStands(h: Graph, g: Graph, n: Node, k: Kernels, done: Gathered)
    requires Grown(g, h) && n < |g| && g[n].bubble.Kind().Operator?
    requires IsGathered(h, g, g[n].inputs, k, done) && !done.allConst
    ensures var h' := h + [Record(g[n].bubble, done.nodes)];
            Grown(g, h') && Extends(h, h') && Stands(h', |h|, g, n, k) && ReachesParameter(g, n)
  {
    hide Stands, ReachesParameter;
    var r := Record(g[n].bubble, done.nodes);
    DagAppend(h, r);
    var h', c := h + [r], |h|;
    assert h'[c] == r;
    AllStandExtends(h, done.nodes, g, g[n].inputs, k, h');
    var i :| 0 <= i < |g[n].inputs| && ReachesParameter(g, g[n].inputs[i]);
    OperatorStands(h', c, g, n, k, i);
  }

  lemma UnchangedStands(h: Graph, g: Graph, n: Node, k: Kernels, done: Gathered)
    requires Grown(g, h) && n < |g| && g[n].bubble.Kind().Operator?
    requires IsGathered(h, g, g[n].inputs, k, done) && !done.allConst && !done.changed
    ensures Stands(h, n, g, n, k) && ReachesParameter(g, n)
  {
    assert h[n] == g[n];
    var i :| 0 <= i < |g[n].inputs| && ReachesParameter(g, g[n].inputs[i]);
    OperatorStands(h, n, g, n, k, i);
  }

  // ---------------------------------------------------------------- what a visit adds to the memo

  predicate Remembering(memo: Memo, memo': Memo) {
    forall n :: n in memo ==> n in memo' && memo'[n] == memo[n]
  }

  /**
   * What a visit of `n` adds lies below it; `n` itself is added unless its key was overwritten by a node made
   * for it.
   */
  ghost predicate Adds(g: Graph, n: Node, aliased: bool, memo: Memo, memo': Memo)
    requires Dag(g) && n < |g|
  {
    forall m: Node :: m in memo' && m < |g| ==> m in memo || Below(g, n, m) || (m == n && (aliased ==> Folded(g, n)))
  }

  ghost predicate AddsBelow(g: Graph, n: Node, memo: Memo, memo': Memo)
    requires Dag(g) && n < |g|
  {
    forall m: Node :: m in memo' && m < |g| ==> m in memo || Below(g, n, m)
  }

  /** After a visit of `n`, what depends on a Parameter below it is in the memo. */
  ghost predicate BelowDone(g: Graph, n: Node, memo: Memo)
    requires Dag(g) && n < |g|
  {
    forall x: Node :: x < |g| && Below(g, n, x) && ReachesParameter(g, x) ==> x in memo
  }

  /** What is reached by the first `count` inputs of `n`. */
  ghost predicate InputsDone(g: Graph, n: Node, count: nat, memo: Memo)
    requires Dag(g) && n < |g| && count <= |g[n].inputs|
  {
    forall i, x: Node :: 0 <= i < count && x < |g| && Reaches(g, g[n].inputs[i], x) && ReachesParameter(g, x) ==>
      x in memo
  }

  lemma InputsDoneMore(g: Graph, n: Node, count: nat, memo: Memo, memo': Memo)
    requires Dag(g) && n < |g| && count < |g[n].inputs| && g[n].inputs[count] < |g|
    requires InputsDone(g, n, count, memo) && Remembering(memo, memo') && BelowDone(g, g[n].inputs[count], memo')
    requires ReachesParameter(g, g[n].inputs[count]) ==> g[n].inputs[count] in memo'
    ensures InputsDone(g, n, count + 1, memo')
  {
    hide ReachesParameter;
    var m := g[n].inputs[count];
    forall x: Node | x < |g| && Reaches(g, m, x) && ReachesParameter(g, x) ensures x in memo' {
      ReachesBelow(g, m, x);
    }
  }

  lemma ReachesBelow(g: Graph, n: Node, m: Node)
    requires Dag(g) && n < |g|
    ensures Reaches(g, n, m) <==> n == m || Below(g, n, m)
  {
  }

  lemma InputsDoneIsBelowDone(g: Graph, n: Node, memo: Memo)
    requires Dag(g) && n < |g| && InputsDone(g, n, |g[n].inputs|, memo)
    ensures BelowDone(g, n, memo)
  {
    hide ReachesParameter;
  }

  lemma AddsBelowMore(g: Graph, n: Node, i: nat, memo: Memo, memo': Memo, memo'': Memo)
    requires Dag(g) && n < |g| && i < |g[n].inputs| && g[n].inputs[i] < |g|
    requires AddsBelow(g, n, memo, memo') && Adds(g, g[n].inputs[i], false, memo', memo'')
    ensures AddsBelow(g, n, memo, memo'')
  {
    hide Folded;
    var m := g[n].inputs[i];
    forall x: Node | x in memo'' && x < |g| ensures x in memo || Below(g, n, x) {
      if x !in memo' {
        ReachesBelow(g, m, x);
        assert Reaches(g, g[n].inputs[i], x);
      }
    }
  }

  lemma NothingAdded(g: Graph, n: Node, memo: Memo, origins: seq<Node>, tops: set<Node>)
    requires Dag(g) && n < |g|
    ensures Remembering(memo, memo) && AddsBelow(g, n, memo, memo) && InputsDone(g, n, 0, memo)
    ensures FirstTraced(g, origins, tops, [], n, 0)
  {
  }

  lemma RememberingMore(memo: Memo, memo': Memo, memo'': Memo)
    requires Remembering(memo, memo') && Remembering(memo', memo'')
    ensures Remembering(memo, memo'')
  {
  }

  /** The first inputs folded come from the first inputs of `n`. */
  predicate FirstTraced(g: Graph, origins: seq<Node>, tops: set<Node>, nodes: seq<Node>, n: Node, count: nat)
    requires n < |g|
  {
    && |nodes| == count <= |g[n].inputs|
    && forall i :: 0 <= i < count ==> nodes[i] < |origins| && origins[nodes[i]] == g[n].inputs[i] && nodes[i] !in tops
  }

  lemma FirstTracedMore(g: Graph, origins: seq<Node>, origins': seq<Node>, tops: set<Node>, nodes: seq<Node>, n: Node,
                        i: nat, c: Node)
    requires n < |g| && i < |g[n].inputs| && FirstTraced(g, origins, tops, nodes, n, i) && origins <= origins'
    requires c < |origins'| && origins'[c] == g[n].inputs[i] && c !in tops
    ensures FirstTraced(g, origins', tops, nodes + [c], n, i + 1)
  {
  }

  lemma FirstTracedAll(g: Graph, h: Graph, origins: seq<Node>, tops: set<Node>, nodes: seq<Node>, n: Node)
    requires n < |g| && Origins(g, h, origins) && FirstTraced(g, origins, tops, nodes, n, |g[n].inputs|)
    ensures InputsTraced(g, h, origins, tops, nodes, n)
  {
  }

  lemma StillMissing(g: Graph, n: Node, memo: Memo, memo': Memo)
    requires Dag(g) && n < |g| && n !in memo && AddsBelow(g, n, memo, memo')
    ensures n !in memo'
  {
    hide Dag, Below;
    NotBelowItself(g, n);
  }

  lemma AddsWider(g: Graph, n: Node, aliased: bool, memo: Memo, memo': Memo)
    requires Dag(g) && n < |g| && AddsBelow(g, n, memo, memo')
    ensures Adds(g, n, aliased, memo, memo')
  {
    hide Dag, Below, Folded;
  }

  lemma AddsKey(g: Graph, n: Node, aliased: bool, memo: Memo, memo': Memo, key: Node, c: Node)
    requires Dag(g) && n < |g| && AddsBelow(g, n, memo, memo') && Remembering(memo, memo') && key !in memo'
    requires BelowDone(g, n, memo') && ((key == n && (aliased ==> Folded(g, n))) || key >= |g|)
    ensures Adds(g, n, aliased, memo, memo'[key := c]) && Remembering(memo, memo'[key := c])
    ensures BelowDone(g, n, memo'[key := c])
  {
    hide Dag, Below, Folded, ReachesParameter;
  }

  lemma MemoIsDone(g: Graph, h: Graph, origins: seq<Node>, tops: set<Node>, nonconsts: Memo, consts: Memo, n: Node)
    requires Traced(g, h, origins, tops, nonconsts, consts) && n in nonconsts && n < |g|
    ensures BelowDone(g, n, nonconsts)
  {
    hide Dag, Below, ReachesParameter, Copies, Remembers, Origins;
  }

  lemma ConstIsDone(g: Graph, n: Node, memo: Memo)
    requires Dag(g) && n < |g| && !ReachesParameter(g, n)
    ensures BelowDone(g, n, memo)
  {
    hide Dag, ReachesParameter;
    forall x: Node | x < |g| && Below(g, n, x) ensures !ReachesParameter(g, x) {
      ReachesBelow(g, n, x);
      if ReachesParameter(g, x) {
        AboveReachesParameter(g, n, x);
      }
    }
  }

  lemma EndpointIsDone(g: Graph, n: Node, memo: Memo)
    requires WellFormed(g) && n < |g| && !g[n].bubble.Kind().Operator?
    ensures BelowDone(g, n, memo)
  {
    hide Dag, ReachesParameter;
  }

  lemma SelfOrigin(g: Graph, h: Graph, origins: seq<Node>, n: Node)
    requires Origins(g, h, origins) && n < |g|
    ensures n < |h| == |origins| && origins[n] == n
  {
  }

  lemma OriginsSize(g: Graph, h: Graph, origins: seq<Node>)
    requires Origins(g, h, origins)
    ensures |g| <= |h| == |origins|
  {
  }

  lemma ConstIsUnfolded(g: Graph, n: Node)
    requires Dag(g) && n < |g| && g[n].bubble.Kind().Operator? && !ReachesParameter(g, n)
    ensures !Folded(g, n)
  {
    ReachesItself(g, n);
  }

  class Folder {
    const k: Kernels
    const origin: Graph
    var graph: Graph
    var readyConst: map<Node, Node>
    var readyNonconst: map<Node, Node>
    /** The node each node was made for, and the nodes made for outputs. */
    ghost var origins: seq<Node>
    ghost var tops: set<Node>

    /** Both memo maps are sound. */
    ghost predicate Sound()
      reads this`graph, this`readyConst, this`readyNonconst
    {
      && Grown(origin, graph)
      && (forall n :: n in readyConst && n < |origin| ==>
            Stands(graph, readyConst[n], origin, n, k) && !ReachesParameter(origin, n))
      && (forall n :: n in readyNonconst && n < |origin| ==>
            Stands(graph, readyNonconst[n], origin, n, k) && ReachesParameter(origin, n))
    }

    ghost predicate Valid()
      reads this
    {
      Sound() && Traced(origin, graph, origins, tops, readyNonconst, readyConst)
    }

    constructor (k: Kernels, g: Graph)
      requires WellFormed(g)
      ensures Valid() && this.k == k && origin == g && graph == g && readyNonconst == map[] && tops == {}
    {
      this.k, origin, graph := k, g, g;
      readyConst, readyNonconst := map[], map[];
      origins, tops := seq(|g|, i => i), {};
    }

    lemma Grows(h: Graph)
      requires Sound() && Grown(origin, h) && Extends(graph, h)
      ensures forall n :: n in readyConst && n < |origin| ==> Stands(h, readyConst[n], origin, n, k)
      ensures forall n :: n in readyNonconst && n < |origin| ==> Stands(h, readyNonconst[n], origin, n, k)
    {
      hide Stands, ReachesParameter;
      forall n | n in readyConst && n < |origin| ensures Stands(h, readyConst[n], origin, n, k) {
        StandsExtends(graph, readyConst[n], origin, n, k, h);
      }
      forall n | n in readyNonconst && n < |origin| ensures Stands(h, readyNonconst[n], origin, n, k) {
        StandsExtends(graph, readyNonconst[n], origin, n, k, h);
      }
    }

    /** `Graph::make` followed by `Node::Link`, for `node`. */
    method Make(r: Record, ghost node: Node, ghost aliased: bool) returns (c: Node)
      requires Sound() && Within(graph, r.inputs)
      requires r.bubble.Kind().Operator? || (r.bubble.Kind().Const? && r.inputs == [])
      modifies this`graph, this`origins, this`tops
      ensures Sound() && graph == old(graph) + [r] && c == |old(graph)|
      ensures origins == old(origins) + [node] && tops == if aliased then old(tops) + {c} else old(tops)
    {
      hide Stands, ReachesParameter;
      DagAppend(graph, r);
      Grows(graph + [r]);
      c := |graph|;
      graph := graph + [r];
      origins := origins + [node];
      tops := if aliased then tops + {c} else tops;
    }

    /**
     * A node that depends on a Parameter and on something computed is built anew. Where `const_node` is the
     * variable that held `node`, the new node takes the place of the key, too.
     */
    method Rebuild(node: Node, inputs: Gathered, aliased: bool) returns (c: Node)
      requires Valid() && node < |origin| && origin[node].bubble.Kind().Operator? && node !in readyNonconst
      requires IsGathered(graph, origin, origin[node].inputs, k, inputs) && !inputs.allConst && !Folded(origin, node)
      requires Origins(origin, graph, origins) && InputsTraced(origin, graph, origins, tops, inputs.nodes, node)
      requires BelowDone(origin, node, readyNonconst)
      modifies this
      ensures Valid() && Extends(old(graph), graph) && old(origins) <= origins && readyConst == old(readyConst)
      ensures Stands(graph, c, origin, node, k) && ReachesParameter(origin, node)
      ensures c == |old(graph)| < |graph| && c < |origins| && origins[c] == node
      ensures tops == if aliased then old(tops) + {c} else old(tops)
      ensures readyNonconst == old(readyNonconst)[(if aliased then c else node) := c]
    {
      hide Stands, ReachesParameter, Folded, Traced, Origins, InputsTraced, Below;
      ghost var h, os, ts, memo := graph, origins, tops, readyNonconst;
      var r := Record(origin[node].bubble, inputs.nodes);
      MakeStands(graph, origin, node, k, inputs);
      TracedCopy(origin, graph, origins, tops, readyNonconst, readyConst, node, r, aliased);
      TracedOrigins(origin, graph, origins, tops, readyNonconst, readyConst);
      OriginsSize(origin, graph, origins);
      c := Make(r, node, aliased);
      var key := if aliased then c else node;
      readyNonconst := readyNonconst[key := c];
    }

    /** A node all of whose inputs are constant is computed. */
    method Compute(node: Node, inputs: Gathered, aliased: bool) returns (c: Node)
      requires Valid() && node < |origin| && origin[node].bubble.Kind().Operator? && k.supports(origin[node].bubble.op)
      requires IsGathered(graph, origin, origin[node].inputs, k, inputs) && inputs.allConst
      modifies this
      ensures Valid() && Extends(old(graph), graph) && old(origins) <= origins && readyNonconst == old(readyNonconst)
      ensures Stands(graph, c, origin, node, k) && !ReachesParameter(origin, node)
      ensures c == |old(graph)| < |graph| && c < |origins| && origins[c] == node
      ensures tops == if aliased then old(tops) + {c} else old(tops)
    {
      hide Stands, ReachesParameter, Folded, Traced, Origins, Below;
      var b := origin[node].bubble;
      var r := Record(Data(b.name, k.result(b, inputs.values)), []);
      ComputedStands(graph, origin, node, k, inputs.nodes, inputs.values);
      TracedData(origin, graph, origins, tops, readyNonconst, readyConst, node, r, aliased);
      TracedOrigins(origin, graph, origins, tops, readyNonconst, readyConst);
      OriginsSize(origin, graph, origins);
      c := Make(r, node, aliased);
      var key := if aliased then c else node;
      readyConst := readyConst[key := c];
    }

    /** A node that stands for itself and depends on a Parameter. */
    method Keep(node: Node)
      requires Valid() && node < |origin| && node !in readyNonconst && BelowDone(origin, node, readyNonconst)
      requires Stands(graph, node, origin, node, k) && ReachesParameter(origin, node)
      modifies this`readyNonconst
      ensures Valid() && readyNonconst == old(readyNonconst)[node := node] && Folded(origin, node)
    {
      hide ReachesParameter, Folded, Traced, Below;
      TracedSelf(origin, graph, origins, tops, readyNonconst, readyConst, node);
      FoldedExtends(origin, graph, node);
      hide Stands;
      readyNonconst := readyNonconst[node := node];
    }

    method FoldInputs(node: Node) returns (r: Result<Gathered>)
      requires Valid() && node < |origin| && origin[node].bubble.Kind().Operator?
      modifies this
      ensures Valid() && Extends(old(graph), graph) && old(origins) <= origins && tops == old(tops)
      ensures Remembering(old(readyNonconst), readyNonconst)
      ensures AddsBelow(origin, node, old(readyNonconst), readyNonconst)
      ensures r.Ok? ==> IsGathered(graph, origin, origin[node].inputs, k, r.value)
      ensures r.Ok? ==>
          Origins(origin, graph, origins) && InputsTraced(origin, graph, origins, tops, r.value.nodes, node)
      ensures r.Ok? ==> BelowDone(origin, node, readyNonconst) && (r.value.changed ==> !Folded(origin, node))
      ensures r.Err? ==> !Compilable(origin, k, node)
      decreases Rank(origin, node), 0
    {
      hide Stands, ReachesParameter, Compilable, IsGathered, Traced, Folded, Origins;
      hide Below, Reaches, Adds, AddsBelow, BelowDone;
      hide Remembering;
      var inputs := origin[node].inputs;
      var done := Gathered([], [], true, false);
      GatheredNothing(graph, origin, k);
      NothingAdded(origin, node, readyNonconst, origins, tops);
      for i := 0 to |inputs|
        invariant Valid() && Extends(old(graph), graph) && old(origins) <= origins && tops == old(tops)
        invariant Remembering(old(readyNonconst), readyNonconst)
        invariant AddsBelow(origin, node, old(readyNonconst), readyNonconst)
        invariant IsGathered(graph, origin, inputs[..i], k, done)
        invariant FirstTraced(origin, origins, tops, done.nodes, node, i) && InputsDone(origin, node, i, readyNonconst)
        invariant done.changed ==> !Folded(origin, node)
      {
        InputRank(origin, node, i);
        ghost var before, memo, os := graph, readyNonconst, origins;
        var folded := RunConstNode(inputs[i], false);
        AddsBelowMore(origin, node, i, old(readyNonconst), memo, readyNonconst);
        RememberingMore(old(readyNonconst), memo, readyNonconst);
        if folded.Err? {
          CompilableInputs(origin, k, node);
          return Err(folded.error);
        }
        var (c, isConst) := folded.value;
        StandsWithin(graph, c, origin, inputs[i], k);
        if isConst && !graph[c].bubble.HasValue() {
          ValuelessInput(graph, c, origin, node, k, i);
          return Err(ParamMissing);
        }
        GatheredExtends(before, graph, origin, inputs[..i], k, done);
        GatherStep(graph, origin, inputs[..i], k, done, c, inputs[i], isConst);
        FirstTracedMore(origin, os, origins, tops, done.nodes, node, i, c);
        InputsDoneMore(origin, node, i, memo, readyNonconst);
        if c != inputs[i] {
          SelfIsFolded(origin, graph, origins, tops, readyNonconst, readyConst, c);
          UnfoldedByInput(origin, node, i);
        }
        assert inputs[..i + 1] == inputs[..i] + [inputs[i]];
        done := done.Add(c, isConst, graph[c].bubble.Value(), c != inputs[i]);
      }
      assert inputs[..|inputs|] == inputs;
      InputsDoneIsBelowDone(origin, node, readyNonconst);
      TracedOrigins(origin, graph, origins, tops, readyNonconst, readyConst);
      FirstTracedAll(origin, graph, origins, tops, done.nodes, node);
      return Ok(done);
    }

    method FoldOperator(node: Node, aliased: bool) returns (r: Result<(Node, bool)>)
      requires Valid() && node < |origin| && origin[node].bubble.Kind().Operator? && node !in readyNonconst
      modifies this
      ensures Valid() && Extends(old(graph), graph) && old(origins) <= origins
      ensures Remembering(old(readyNonconst), readyNonconst)
      ensures Adds(origin, node, aliased, old(readyNonconst), readyNonconst)
      ensures r.Ok? ==> Stands(graph, r.value.0, origin, node, k)
      ensures r.Ok? ==> (r.value.1 <==> !ReachesParameter(origin, node))
      ensures r.Ok? ==> r.value.0 < |graph| && r.value.0 < |origins| && origins[r.value.0] == node
      ensures r.Ok? ==> BelowDone(origin, node, readyNonconst)
      ensures r.Ok? && !aliased && ReachesParameter(origin, node) ==> node in readyNonconst
      ensures if r.Ok? && aliased && !Folded(origin, node)
              then tops == old(tops) + {r.value.0} && r.value.0 >= |old(graph)|
              else tops == old(tops) && (r.Ok? ==> r.value.0 !in tops)
      ensures r.Err? ==> !Compilable(origin, k, node)
      decreases Rank(origin, node), 1
    {
      hide Stands, ReachesParameter, IsGathered, Traced, Folded, Origins, InputsTraced;
      hide Below, Adds, AddsBelow, BelowDone, Remembering;
      ghost var memo := readyNonconst;
      var gathered := FoldInputs(node);
      NotBelowItself(origin, node);
      StillMissing(origin, node, memo, readyNonconst);
      if gathered.Err? {
        AddsWider(origin, node, aliased, memo, readyNonconst);
        return Err(gathered.error);
      }
      var inputs := gathered.value;
      ghost var memo' := readyNonconst;
      TracedOrigins(origin, graph, origins, tops, readyNonconst, readyConst);
      OriginsSize(origin, graph, origins);
      if !inputs.allConst {
        var c := node;
        if inputs.changed {
          c := Rebuild(node, inputs, aliased);
        } else {
          UnchangedStands(graph, origin, node, k, inputs);
          SelfOrigin(origin, graph, origins, node);
          Keep(node);
        }
        AddsKey(origin, node, aliased, memo, memo', if inputs.changed && aliased then c else node, c);
        return Ok((c, false));
      }
      AddsWider(origin, node, aliased, memo, readyNonconst);
      if !k.supports(origin[node].bubble.op) {
        CompilableInputs(origin, k, node);
        return Err(OperatorUnsupported);
      }
      var c := Compute(node, inputs, aliased);
      ConstIsUnfolded(origin, node);
      return Ok((c, true));
    }

    method RunConstNode(node: Node, aliased: bool) returns (r: Result<(Node, bool)>)
      requires Valid() && node < |origin|
      modifies this
      ensures Valid() && Extends(old(graph), graph) && old(origins) <= origins
      ensures Remembering(old(readyNonconst), readyNonconst)
      ensures Adds(origin, node, aliased, old(readyNonconst), readyNonconst)
      ensures r.Ok? ==> Stands(graph, r.value.0, origin, node, k)
      ensures r.Ok? ==> (r.value.1 <==> !ReachesParameter(origin, node))
      ensures r.Ok? ==> r.value.0 < |graph| && r.value.0 < |origins| && origins[r.value.0] == node
      ensures r.Ok? ==> BelowDone(origin, node, readyNonconst)
      ensures r.Ok? && !aliased && ReachesParameter(origin, node) ==> node in readyNonconst
      ensures tops == old(tops) || (r.Ok? && aliased && tops == old(tops) + {r.value.0} && r.value.0 >= |old(graph)|)
      ensures r.Ok? && r.value.0 in tops ==> r.value.0 >= |old(graph)|
      ensures r.Ok? && ReachesParameter(origin, node) ==>
                (r.value.0 in tops <==> aliased && !Folded(origin, node) && node !in old(readyNonconst))
      ensures r.Ok? && !aliased ==> r.value.0 !in tops
      ensures r.Err? ==> !Compilable(origin, k, node)
      decreases Rank(origin, node), 2
    {
      hide Stands, ReachesParameter, Traced, Folded, Origins, Below, Adds, AddsBelow, BelowDone, Remembering, Reaches;
      TracedOrigins(origin, graph, origins, tops, readyNonconst, readyConst);
      OriginsSize(origin, graph, origins);
      NothingAdded(origin, node, readyNonconst, origins, tops);
      AddsWider(origin, node, aliased, readyNonconst, readyNonconst);
      if node in readyNonconst {
        MemoIsDone(origin, graph, origins, tops, readyNonconst, readyConst, node);
        return Ok((readyNonconst[node], false));
      }
      if node in readyConst {
        ConstIsDone(origin, node, readyNonconst);
        return Ok((readyConst[node], true));
      }
      match origin[node].bubble.Kind()
      case Variable =>
        CompilableInputs(origin, k, node);
        return Err(VariableUnsupported);
      case Const =>
        EndpointStands(graph, origin, node, k);
        EndpointIsDone(origin, node, readyNonconst);
        SelfOrigin(origin, graph, origins, node);
        TracedConst(origin, graph, origins, tops, readyNonconst, readyConst, node);
        readyConst := readyConst[node := node];
        return Ok((node, true));
      case Parameter =>
        EndpointStands(graph, origin, node, k);
        EndpointIsDone(origin, node, readyNonconst);
        SelfOrigin(origin, graph, origins, node);
        ghost var memo := readyNonconst;
        Keep(node);
        AddsKey(origin, node, aliased, memo, memo, node, node);
        return Ok((node, false));
      case Operator =>
        r := FoldOperator(node, aliased);
    }
  }

  // ---------------------------------------------------------------- Compiler::run_const_nodes

  /** What is known of the memo when some outputs have been folded. */
  ghost predicate MemoOf(g: Graph, outputs: seq<Node>, memo: Memo)
    requires Dag(g) && Within(g, outputs)
  {
    && (forall n: Node :: n in memo && n < |g| && Rebuilt(g, n) ==> BelowSome(g, outputs, n))
    && (forall n: Node :: n < |g| && ReachesParameter(g, n) && BelowSome(g, outputs, n) ==> n in memo)
  }

  ghost predicate BelowSome(g: Graph, outputs: seq<Node>, n: Node)
    requires Dag(g) && Within(g, outputs)
  {
    exists i :: 0 <= i < |outputs| && Below(g, outputs[i], n)
  }

  lemma BelowSomeMore(g: Graph, outputs: seq<Node>, node: Node, n: Node)
    requires Dag(g) && Within(g, outputs) && node < |g|
    ensures Within(g, outputs + [node])
    ensures BelowSome(g, outputs + [node], n) <==> BelowSome(g, outputs, n) || Below(g, node, n)
  {
    hide Below;
    assert (outputs + [node])[|outputs|] == node;
    assert forall i :: 0 <= i < |outputs| ==> (outputs + [node])[i] == outputs[i];
  }

  lemma MemoOfMore(g: Graph, outputs: seq<Node>, node: Node, memo: Memo, memo': Memo)
    requires Dag(g) && Within(g, outputs) && node < |g| && MemoOf(g, outputs, memo)
    requires Remembering(memo, memo') && Adds(g, node, true, memo, memo') && BelowDone(g, node, memo')
    ensures Within(g, outputs + [node]) && MemoOf(g, outputs + [node], memo')
  {
    hide Dag, Below, Folded, ReachesParameter, BelowSome;
    forall n: Node ensures BelowSome(g, outputs + [node], n) <==> BelowSome(g, outputs, n) || Below(g, node, n) {
      BelowSomeMore(g, outputs, node, n);
    }
  }

  lemma OutputsTracedMore(g: Graph, h: Graph, h': Graph, origins: seq<Node>, origins': seq<Node>, tops: set<Node>,
                          tops': set<Node>, outputs: seq<Node>, folded: seq<Node>, memo: Memo, node: Node, c: Node)
    requires Dag(g) && Within(g, outputs) && node < |g| && MemoOf(g, outputs, memo)
    requires |origins| == |h| && |origins'| == |h'| && origins <= origins'
    requires OutputsTraced(g, h, origins, tops, outputs, folded)
    requires c < |h'| && origins'[c] == node
    requires tops' == tops || (tops' == tops + {c} && c >= |h|)
    requires ReachesParameter(g, node) ==> (c in tops' <==> !Folded(g, node) && node !in memo)
    requires c in tops' ==> c >= |h|
    ensures Within(g, outputs + [node]) && OutputsTraced(g, h', origins', tops', outputs + [node], folded + [c])
  {
    hide Dag, Below, Folded, ReachesParameter;
    var outputs', folded' := outputs + [node], folded + [c];
    forall i | 0 <= i < |outputs| ensures TopRebuilt(g, outputs', i) <==> TopRebuilt(g, outputs, i) {
      assert forall j :: 0 <= j <= i ==> outputs'[j] == outputs[j];
    }
    var last := |outputs|;
    assert ReachesParameter(g, node) ==>
        (TopRebuilt(g, outputs', last) <==> !Folded(g, node) && !BelowSome(g, outputs, node)) by {
      assert forall j :: 0 <= j < |outputs| ==> outputs'[j] == outputs[j];
      assert outputs'[|outputs|] == node;
    }
  }

  lemma NothingTraced(g: Graph, origins: seq<Node>, memo: Memo)
    requires Dag(g) && memo == map[] && |origins| == |g|
    ensures Within(g, []) && MemoOf(g, [], memo) && OutputsTraced(g, g, origins, {}, [], [])
  {
  }

  lemma AllFolded(h: Graph, folded: seq<Node>, g: Graph, outputs: seq<Node>, k: Kernels)
    requires Grown(g, h) && AllStand(h, folded, g, outputs, k) && Within(h, folded)
    ensures forall i :: 0 <= i < |folded| ==> Folded(h, folded[i])
  {
  }

  /**
   * The folded outputs stand for the outputs. No operator is there twice exactly if no output rebuilt in its
   * own right is listed again or lies below a later one: the memo misses it, as its key was overwritten.
   */
  method RunConstNodes(k: Kernels, g: Graph, nodes: seq<Node>)
    returns (h: Graph, r: Result<seq<Node>>, ghost origins: seq<Node>)
    requires WellFormed(g) && Within(g, nodes)
    ensures Grown(g, h) && Origins(g, h, origins)
    ensures forall c :: |g| <= c < |h| ==> MadeFor(h[c].bubble, g[origins[c]].bubble)
    ensures r.Ok? ==> AllStand(h, r.value, g, nodes, k) && Within(h, r.value)
    ensures r.Ok? ==> (SharesAll(h, r.value, origins) <==> !RebuiltAgain(g, nodes))
    ensures r.Ok? ==> ComputesOriginals(g, h, nodes, r.value, origins)
    ensures r.Err? ==> exists i :: 0 <= i < |nodes| && !Compilable(g, k, nodes[i])
  {
    hide Stands, Traced, ReachesParameter, Folded, Origins, MemoOf, OutputsTraced;
    hide Adds, BelowDone, Remembering, SharesAll, RebuiltAgain;
    hide ComputesOriginals, MadeFor;
    var folder := new Folder(k, g);
    var constNodes: seq<Node> := [];
    TracedOrigins(g, folder.graph, folder.origins, folder.tops, folder.readyNonconst, folder.readyConst);
    OriginsSize(g, folder.graph, folder.origins);
    NothingTraced(g, folder.origins, folder.readyNonconst);
    for i := 0 to |nodes|
      invariant folder.Valid() && folder.k == k && folder.origin == g
      invariant AllStand(folder.graph, constNodes, g, nodes[..i], k)
      invariant Within(g, nodes[..i]) && MemoOf(g, nodes[..i], folder.readyNonconst)
      invariant |folder.origins| == |folder.graph|
      invariant OutputsTraced(g, folder.graph, folder.origins, folder.tops, nodes[..i], constNodes)
    {
      ghost var before, os, ts, memo := folder.graph, folder.origins, folder.tops, folder.readyNonconst;
      TracedOrigins(g, folder.graph, folder.origins, folder.tops, folder.readyNonconst, folder.readyConst);
      var folded := folder.RunConstNode(nodes[i], true);
      TracedOrigins(g, folder.graph, folder.origins, folder.tops, folder.readyNonconst, folder.readyConst);
      OriginsSize(g, folder.graph, folder.origins);
      TracedNames(g, folder.graph, folder.origins, folder.tops, folder.readyNonconst, folder.readyConst);
      if folded.Err? {
        return folder.graph, Err(folded.error), folder.origins;
      }
      AllStandExtends(before, constNodes, g, nodes[..i], k, folder.graph);
      AllStandAppend(folder.graph, constNodes, g, nodes[..i], k, folded.value.0, nodes[i]);
      assert nodes[..i + 1] == nodes[..i] + [nodes[i]];
      MemoOfMore(g, nodes[..i], nodes[i], memo, folder.readyNonconst);
      OutputsTracedMore(g, before, folder.graph, os, folder.origins, ts, folder.tops, nodes[..i], constNodes, memo,
                        nodes[i], folded.value.0);
      constNodes := constNodes + [folded.value.0];
    }
    assert nodes[..|nodes|] == nodes;
    h, origins := folder.graph, folder.origins;
    AllStandWithin(h, constNodes, g, nodes, k);
    TracedOrigins(g, h, origins, folder.tops, folder.readyNonconst, folder.readyConst);
    TracedNames(g, h, origins, folder.tops, folder.readyNonconst, folder.readyConst);
    AllFolded(h, constNodes, g, nodes, k);
    Shared(g, h, origins, folder.tops, folder.readyNonconst, folder.readyConst, nodes, constNodes);
    r := Ok(constNodes);
  }
}
