/** Computation graphs: a record per node, the nodes named by their index. */
module Graphs {
  import opened Tensors

  type Node = nat

  datatype Record = Record(bubble: Bubble, inputs: seq<Node>)

  type Graph = seq<Record>

  ghost predicate IsRanking(g: Graph, rank: seq<nat>) {
    && |rank| == |g|
    && forall n, i :: 0 <= n < |g| && 0 <= i < |g[n].inputs| && g[n].inputs[i] < |g| ==>
                        rank[g[n].inputs[i]] < rank[n]
  }

  predicate Closed(g: Graph) {
    forall n, i :: 0 <= n < |g| && 0 <= i < |g[n].inputs| ==> g[n].inputs[i] < |g|
  }

  /** A directed acyclic graph; nothing is assumed about the order in which nodes are numbered. */
  ghost predicate Dag(g: Graph) {
    Closed(g) && exists rank :: IsRanking(g, rank)
  }

  /** Endpoints take no inputs: `bubble::param` and `bubble::data` never link any. */
  predicate BareEndpoints(g: Graph) {
    forall n :: 0 <= n < |g| && !g[n].bubble.Kind().Operator? ==> g[n].inputs == []
  }

  ghost predicate WellFormed(g: Graph) {
    Dag(g) && BareEndpoints(g)
  }

  ghost function Ranking(g: Graph): (rank: seq<nat>)
    requires Dag(g)
    ensures IsRanking(g, rank)
  {
    var rank :| IsRanking(g, rank);
    rank
  }

  ghost function Rank(g: Graph, n: Node): nat
    requires Dag(g) && n < |g|
  {
    Ranking(g)[n]
  }

  predicate Within(g: Graph, ns: seq<Node>) {
    forall i :: 0 <= i < |ns| ==> ns[i] < |g|
  }

  /** A node in `g`, with the fact recursion over a graph needs: every input ranks lower. */
  lemma InputRank(g: Graph, n: Node, i: nat)
    requires Dag(g) && n < |g| && i < |g[n].inputs|
    ensures g[n].inputs[i] < |g| && Rank(g, g[n].inputs[i]) < Rank(g, n)
  {
  }

  // ---------------------------------------------------------------- denotation

  type Env = Node -> Tensor

  /** The value of a node: the meaning every compiled program is held to. */
  ghost function Eval(g: Graph, k: Kernels, env: Env, n: Node): Tensor
    requires Dag(g) && n < |g|
    decreases Rank(g, n)
  {
    var b := g[n].bubble;
    match b.Kind()
    case Parameter => env(n)
    case Const => b.Value()
    case _ =>
      k.result(b, seq(|g[n].inputs|, i requires 0 <= i < |g[n].inputs| => Eval(g, k, env, g[n].inputs[i])))
  }

  ghost function EvalAll(g: Graph, k: Kernels, env: Env, ns: seq<Node>): (r: seq<Tensor>)
    requires Dag(g) && Within(g, ns)
    ensures |r| == |ns|
    ensures forall i :: 0 <= i < |ns| ==> r[i] == Eval(g, k, env, ns[i])
  {
    seq(|ns|, i requires 0 <= i < |ns| => Eval(g, k, env, ns[i]))
  }

  lemma EvalOperator(g: Graph, k: Kernels, env: Env, n: Node)
    requires Dag(g) && n < |g| && !g[n].bubble.Kind().Parameter? && !g[n].bubble.Kind().Const?
    ensures Within(g, g[n].inputs)
    ensures Eval(g, k, env, n) == k.result(g[n].bubble, EvalAll(g, k, env, g[n].inputs))
  {
    assert seq(|g[n].inputs|, i requires 0 <= i < |g[n].inputs| => Eval(g, k, env, g[n].inputs[i]))
        == EvalAll(g, k, env, g[n].inputs);
  }

  // ---------------------------------------------------------------- reachability

  /** `m` is `n` or one of its direct or indirect inputs. */
  ghost predicate Reaches(g: Graph, n: Node, m: Node)
    requires Dag(g) && n < |g|
    decreases Rank(g, n)
  {
    n == m || exists i :: 0 <= i < |g[n].inputs| && Reaches(g, g[n].inputs[i], m)
  }

  /** `m` is a direct or indirect input of `n`. */
  ghost predicate Below(g: Graph, n: Node, m: Node)
    requires Dag(g) && n < |g|
  {
    exists i :: 0 <= i < |g[n].inputs| && Reaches(g, g[n].inputs[i], m)
  }

  ghost predicate ReachedFrom(g: Graph, ns: seq<Node>, m: Node)
    requires Dag(g) && Within(g, ns)
  {
    exists i :: 0 <= i < |ns| && Reaches(g, ns[i], m)
  }

  lemma {:induction false} ReachesRank(g: Graph, n: Node, m: Node)
    requires Dag(g) && n < |g| && Reaches(g, n, m)
    ensures m < |g| && Rank(g, m) <= Rank(g, n)
    ensures n != m ==> Rank(g, m) < Rank(g, n)
    decreases Rank(g, n)
  {
    if n != m {
      var i :| 0 <= i < |g[n].inputs| && Reaches(g, g[n].inputs[i], m);
      ReachesRank(g, g[n].inputs[i], m);
    }
  }

  lemma BelowRank(g: Graph, n: Node, m: Node)
    requires Dag(g) && n < |g| && Below(g, n, m)
    ensures m < |g| && Rank(g, m) < Rank(g, n)
  {
    var i :| 0 <= i < |g[n].inputs| && Reaches(g, g[n].inputs[i], m);
    ReachesRank(g, g[n].inputs[i], m);
  }

  lemma {:induction false} ReachesTrans(g: Graph, a: Node, b: Node, c: Node)
    requires Dag(g) && a < |g| && Reaches(g, a, b) && b < |g| && Reaches(g, b, c)
    ensures Reaches(g, a, c)
    decreases Rank(g, a)
  {
    if a != b {
      var i :| 0 <= i < |g[a].inputs| && Reaches(g, g[a].inputs[i], b);
      ReachesTrans(g, g[a].inputs[i], b, c);
    }
  }

  lemma ReachesLeaf(g: Graph, n: Node, m: Node)
    requires Dag(g) && n < |g| && g[n].inputs == []
    ensures Reaches(g, n, m) <==> n == m
  {
  }

  lemma ReachesOver(g: Graph, n: Node, below: Node, m: Node)
    requires Dag(g) && n < |g| && below < |g| && g[n].inputs == [below]
    ensures Reaches(g, n, m) <==> n == m || Reaches(g, below, m)
  {
    assert g[n].inputs[0] == below;
  }

  /** A value depends on nothing but the values of the Parameters that are reached. */
  lemma {:induction false} EvalAgrees(g: Graph, k: Kernels, env: Env, other: Env, n: Node)
    requires Dag(g) && n < |g|
    requires forall p: Node :: p < |g| && g[p].bubble.Kind().Parameter? && Reaches(g, n, p) ==> env(p) == other(p)
    ensures Eval(g, k, env, n) == Eval(g, k, other, n)
    decreases Rank(g, n)
  {
    if g[n].bubble.Kind().Parameter? {
      assert Reaches(g, n, n);
    } else if !g[n].bubble.Kind().Const? {
      forall i | 0 <= i < |g[n].inputs|
        ensures Eval(g, k, env, g[n].inputs[i]) == Eval(g, k, other, g[n].inputs[i])
      {
        EvalAgrees(g, k, env, other, g[n].inputs[i]);
      }
      EvalOperator(g, k, env, n);
      EvalOperator(g, k, other, n);
      assert EvalAll(g, k, env, g[n].inputs) == EvalAll(g, k, other, g[n].inputs);
    }
  }

  // ---------------------------------------------------------------- growing a graph

  predicate Extends(g: Graph, h: Graph) {
    g <= h
  }

  lemma {:induction false} EvalExtends(g: Graph, h: Graph, k: Kernels, env: Env, n: Node)
    requires Dag(g) && Dag(h) && Extends(g, h) && n < |g|
    ensures Eval(h, k, env, n) == Eval(g, k, env, n)
    decreases Rank(g, n)
  {
    assert h[n] == g[n];
    forall i | 0 <= i < |g[n].inputs| ensures Eval(h, k, env, g[n].inputs[i]) == Eval(g, k, env, g[n].inputs[i]) {
      EvalExtends(g, h, k, env, g[n].inputs[i]);
    }
    if !g[n].bubble.Kind().Parameter? && !g[n].bubble.Kind().Const? {
      EvalOperator(g, k, env, n);
      EvalOperator(h, k, env, n);
      assert EvalAll(g, k, env, g[n].inputs) == EvalAll(h, k, env, g[n].inputs);
    }
  }

  lemma {:induction false} ReachesExtends(g: Graph, h: Graph, n: Node, m: Node)
    requires Dag(g) && Dag(h) && Extends(g, h) && n < |g|
    ensures Reaches(h, n, m) <==> Reaches(g, n, m)
    decreases Rank(g, n)
  {
    assert h[n] == g[n];
    forall i | 0 <= i < |g[n].inputs| ensures Reaches(h, g[n].inputs[i], m) <==> Reaches(g, g[n].inputs[i], m) {
      ReachesExtends(g, h, g[n].inputs[i], m);
    }
  }

  /** Linking a new node to existing ones keeps the graph acyclic. */
  lemma DagAppend(g: Graph, r: Record)
    requires Dag(g) && Within(g, r.inputs)
    ensures Dag(g + [r]) && Extends(g, g + [r])
    ensures BareEndpoints(g) && (r.bubble.Kind().Operator? || r.inputs == []) ==> WellFormed(g + [r])
  {
    var rank := Ranking(g);
    var top := Above(rank);
    assert IsRanking(g + [r], rank + [top]);
  }

  ghost function Above(rank: seq<nat>): (top: nat)
    ensures forall i :: 0 <= i < |rank| ==> rank[i] < top
  {
    if rank == [] then 0
    else
      var t := Above(rank[..|rank| - 1]);
      var last := rank[|rank| - 1];
      if last < t then t else last + 1
  }
}
