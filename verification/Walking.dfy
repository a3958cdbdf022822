/** `Module::graph_walker` of `module.cpp`: the parameters that outputs depend on, or a node that cannot be computed. */
module Walking {
  import opened Collections
  import opened Tensors
  import opened Graphs

  /** The walk goes on from a node that is neither a parameter nor a constant. */
  predicate Proceeds(g: Graph, n: Node)
    requires n < |g|
  {
    !g[n].bubble.Kind().Parameter? && !g[n].bubble.Kind().Const?
  }

  /** `n` is met `k` edges below an output. The graph may have cycles. */
  ghost predicate MetAt(g: Graph, outputs: seq<Node>, n: Node, k: nat)
    decreases k
  {
    if k == 0 then n in outputs
    else
      exists m, i :: 0 <= m < |g| && 0 <= i < |g[m].inputs| && MetAt(g, outputs, m, k - 1) && Proceeds(g, m)
                     && g[m].inputs[i] == n
  }

  ghost predicate Met(g: Graph, outputs: seq<Node>, n: Node) {
    exists k: nat :: MetAt(g, outputs, n, k)
  }

  ghost predicate Needs(g: Graph, outputs: seq<Node>, n: Node) {
    n < |g| && Met(g, outputs, n) && g[n].bubble.Kind().Parameter?
  }

  /** Every node met that is to be computed has something to compute it from. */
  ghost predicate Computable(g: Graph, outputs: seq<Node>) {
    forall n :: 0 <= n < |g| && Met(g, outputs, n) && Proceeds(g, n) ==> g[n].inputs != []
  }

  lemma MetInput(g: Graph, outputs: seq<Node>, m: Node, i: nat)
    requires m < |g| && i < |g[m].inputs| && Met(g, outputs, m) && Proceeds(g, m)
    ensures Met(g, outputs, g[m].inputs[i])
  {
    hide Proceeds;
    var k: nat :| MetAt(g, outputs, m, k);
    assert MetAt(g, outputs, g[m].inputs[i], k + 1);
  }

  lemma MetOutput(g: Graph, outputs: seq<Node>, n: Node)
    requires n in outputs
    ensures Met(g, outputs, n)
  {
    assert MetAt(g, outputs, n, 0);
  }

  /**
   * A set that holds the outputs, and the inputs of those of its nodes the walk goes on from, holds all that is
   * met.
   */
  ghost predicate Complete(g: Graph, outputs: seq<Node>, walked: set<Node>, walker: seq<Node>) {
    && (forall n :: n in outputs ==> n in walked || n in walker)
    && (forall m, i :: m in walked && m < |g| && Proceeds(g, m) && 0 <= i < |g[m].inputs| ==>
          g[m].inputs[i] in walked || g[m].inputs[i] in walker)
  }

  lemma {:induction false} CompleteHoldsAll(g: Graph, outputs: seq<Node>, walked: set<Node>, n: Node, k: nat)
    requires Complete(g, outputs, walked, []) && MetAt(g, outputs, n, k)
    ensures n in walked
    decreases k
  {
    hide Proceeds;
    if k > 0 {
      var m, i :| 0 <= m < |g| && 0 <= i < |g[m].inputs| && MetAt(g, outputs, m, k - 1) && Proceeds(g, m)
                  && g[m].inputs[i] == n;
      CompleteHoldsAll(g, outputs, walked, m, k - 1);
    }
  }

  lemma CompleteHoldsMet(g: Graph, outputs: seq<Node>, walked: set<Node>, n: Node)
    requires Complete(g, outputs, walked, []) && Met(g, outputs, n)
    ensures n in walked
  {
    hide MetAt, Complete;
    var k: nat :| MetAt(g, outputs, n, k);
    CompleteHoldsAll(g, outputs, walked, n, k);
  }

  lemma ProceedsIs(g: Graph, n: Node)
    requires n < |g|
    ensures Proceeds(g, n) <==> !g[n].bubble.Kind().Parameter? && !g[n].bubble.Kind().Const?
  {
  }

  ghost function Numbers(n: nat): (r: set<nat>)
    ensures forall i: nat :: i in r <==> i < n
  {
    if n == 0 then {} else Numbers(n - 1) + {n - 1}
  }

  method GraphWalker(g: Graph, outputs: seq<Node>) returns (r: Option<set<Node>>)
    requires Closed(g) && Within(g, outputs)
    ensures r.Some? <==> Computable(g, outputs)
    ensures r.Some? ==> forall n :: n in r.value <==> Needs(g, outputs, n)
  {
    hide Proceeds, Met, Bubble.Kind, MetAt;
    var inputs: set<Node> := {};
    var walker := outputs;
    var walked: set<Node> := {};
    forall n | n in outputs ensures Met(g, outputs, n) {
      MetOutput(g, outputs, n);
    }
    ghost var all := Numbers(|g|);
    while walker != []
      invariant walked <= all
      invariant forall n :: n in walker || n in walked ==> n < |g| && Met(g, outputs, n)
      invariant Complete(g, outputs, walked, walker)
      invariant forall n :: n in walked && Proceeds(g, n) ==> g[n].inputs != []
      invariant forall n :: n in inputs <==> n in walked && g[n].bubble.Kind().Parameter?
      decreases all - walked, |walker|
    {
      var node := walker[0];
      ghost var before := walker;
      walker := walker[1..];
      assert before == [node] + walker;
      assert forall n :: n in walker ==> n in before;
      if node in walked {
        continue;
      }
      walked := walked + {node};
      ProceedsIs(g, node);
      if g[node].bubble.Kind().Parameter? {
        inputs := inputs + {node};
        continue;
      }
      if g[node].bubble.Kind().Const? {
        continue;
      }
      if g[node].inputs == [] {
        return None;
      }
      forall n | n in g[node].inputs ensures n < |g| && Met(g, outputs, n) {
        var i :| 0 <= i < |g[node].inputs| && g[node].inputs[i] == n;
        MetInput(g, outputs, node, i);
      }
      walker := walker + g[node].inputs;
    }
    forall n | Met(g, outputs, n) ensures n in walked {
      CompleteHoldsMet(g, outputs, walked, n);
    }
    return Some(inputs);
  }
}
