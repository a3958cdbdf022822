/** `Module::list_reference_nodes` and `build_node_refs`: what a set of nodes depends on, in which order. */
module Schedule {
  import opened Graphs

  type Depths = map<Node, nat>

  datatype Entry = Entry(node: Node, depth: nat)

  // ---------------------------------------------------------------- paths

  /** Some path of `length` edges leads from one of `roots` down to `n`. */
  ghost predicate PathTo(g: Graph, roots: seq<Node>, n: Node, length: nat)
    requires Closed(g)
    decreases length
  {
    if length == 0 then n in roots
    else exists m, i :: 0 <= m < |g| && 0 <= i < |g[m].inputs| && g[m].inputs[i] == n && PathTo(g, roots, m, length - 1)
  }

  lemma PathStep(g: Graph, roots: seq<Node>, m: Node, i: nat, length: nat)
    requires Closed(g) && m < |g| && i < |g[m].inputs| && PathTo(g, roots, m, length)
    ensures PathTo(g, roots, g[m].inputs[i], length + 1)
  {
  }

  lemma {:induction false} PathReached(g: Graph, roots: seq<Node>, n: Node, length: nat)
    requires Dag(g) && Within(g, roots) && PathTo(g, roots, n, length)
    ensures ReachedFrom(g, roots, n)
    decreases length
  {
    if length == 0 {
      var i :| 0 <= i < |roots| && roots[i] == n;
      assert Reaches(g, roots[i], n);
    } else {
      var m, i :| 0 <= m < |g| && 0 <= i < |g[m].inputs| && g[m].inputs[i] == n && PathTo(g, roots, m, length - 1);
      PathReached(g, roots, m, length - 1);
      var r :| 0 <= r < |roots| && Reaches(g, roots[r], m);
      assert Reaches(g, g[m].inputs[i], n) && Reaches(g, m, n);
      ReachesTrans(g, roots[r], m, n);
    }
  }

  // ---------------------------------------------------------------- the depth map

  /** The depths already satisfy every edge that leaves `n`. */
  ghost predicate Settled(g: Graph, depth: Depths, n: Node)
    requires Closed(g) && n < |g| && n in depth
  {
    forall i :: 0 <= i < |g[n].inputs| ==> g[n].inputs[i] in depth && depth[n] < depth[g[n].inputs[i]]
  }

  ghost predicate Sound(g: Graph, roots: seq<Node>, depth: Depths)
    requires Closed(g)
  {
    && (forall r :: r in roots ==> r in depth)
    && (forall n :: n in depth ==> n < |g| && 1 <= depth[n] && PathTo(g, roots, n, depth[n] - 1))
  }

  /** A ranking bounds every depth, so a depth can only be raised so often. */
  ghost predicate Bounded(g: Graph, depth: Depths, top: nat)
    requires Dag(g)
  {
    forall n :: n in depth && n < |g| ==> depth[n] + Rank(g, n) <= top
  }

  ghost function Slack(depth: Depths, top: nat, n: nat): (s: nat)
    decreases n
  {
    if n == 0 then 0
    else Slack(depth, top, n - 1)
         + (if n - 1 !in depth then top + 1 else if depth[n - 1] <= top then top - depth[n - 1] else 0)
  }

  lemma {:induction false} SlackDrops(depth: Depths, top: nat, m: Node, d: nat, n: nat)
    requires d <= top && (m in depth ==> depth[m] < d)
    ensures Slack(depth[m := d], top, n) <= Slack(depth, top, n)
    ensures m < n ==> Slack(depth[m := d], top, n) < Slack(depth, top, n)
    decreases n
  {
    if n > 0 {
      SlackDrops(depth, top, m, d, n - 1);
    }
  }

  /** Along any path the depths grow, once every node is settled. */
  lemma {:induction false} DepthCoversPath(g: Graph, roots: seq<Node>, depth: Depths, n: Node, length: nat)
    requires Closed(g) && Sound(g, roots, depth) && PathTo(g, roots, n, length)
    requires forall m :: m in depth ==> Settled(g, depth, m)
    ensures n in depth && length < depth[n]
    decreases length
  {
    if length > 0 {
      var m, i :| 0 <= m < |g| && 0 <= i < |g[m].inputs| && g[m].inputs[i] == n && PathTo(g, roots, m, length - 1);
      DepthCoversPath(g, roots, depth, m, length - 1);
      assert Settled(g, depth, m);
    }
  }

  lemma {:induction false} ReachedHasDepth(g: Graph, roots: seq<Node>, depth: Depths, n: Node, m: Node)
    requires Dag(g) && Sound(g, roots, depth) && n in depth && n < |g| && Reaches(g, n, m)
    requires forall m :: m in depth ==> Settled(g, depth, m)
    ensures m in depth
    decreases Rank(g, n)
  {
    if n != m {
      var i :| 0 <= i < |g[n].inputs| && Reaches(g, g[n].inputs[i], m);
      assert Settled(g, depth, n);
      ReachedHasDepth(g, roots, depth, g[n].inputs[i], m);
    }
  }

  // ---------------------------------------------------------------- the result

  /** `d` is one plus the length of the longest path from a root to `n`. */
  ghost predicate IsDepth(g: Graph, roots: seq<Node>, n: Node, d: nat)
    requires Closed(g)
  {
    1 <= d && PathTo(g, roots, n, d - 1) && forall length: nat :: PathTo(g, roots, n, length) ==> length < d
  }

  ghost predicate Lists(schedule: seq<Entry>, n: Node) {
    exists i :: 0 <= i < |schedule| && schedule[i].node == n
  }

  /** Every reachable node once, with its depth, deepest first. */
  ghost predicate IsSchedule(g: Graph, roots: seq<Node>, schedule: seq<Entry>)
    requires Dag(g) && Within(g, roots)
  {
    && (forall i :: 0 <= i < |schedule| ==>
          schedule[i].node < |g| && IsDepth(g, roots, schedule[i].node, schedule[i].depth))
    && (forall i, j :: 0 <= i < j < |schedule| ==> schedule[i].node != schedule[j].node)
    && (forall i, j :: 0 <= i < j < |schedule| ==> schedule[i].depth >= schedule[j].depth)
    && (forall n :: ReachedFrom(g, roots, n) <==> Lists(schedule, n))
  }

  /** Nodes appear after everything they depend on: the order `build_node_refs` and `Save` rely on. */
  lemma InputsComeFirst(g: Graph, roots: seq<Node>, schedule: seq<Entry>, j: nat, i: nat)
    requires Dag(g) && Within(g, roots) && IsSchedule(g, roots, schedule)
    requires j < |schedule| && i < |g[schedule[j].node].inputs|
    ensures exists h :: 0 <= h < j && schedule[h].node == g[schedule[j].node].inputs[i]
  {
    var n, d := schedule[j].node, schedule[j].depth;
    var m := g[n].inputs[i];
    PathStep(g, roots, n, i, d - 1);
    PathReached(g, roots, m, d);
    assert Lists(schedule, m);
    var h :| 0 <= h < |schedule| && schedule[h].node == m;
    assert schedule[h].depth > d;
  }

  // ---------------------------------------------------------------- Module::list_reference_nodes

  /** What the worklist keeps: every node is settled unless it waits in `walker` or is the one being expanded. */
  ghost predicate Walk(g: Graph, roots: seq<Node>, depth: Depths, walker: seq<Node>, open: set<Node>, top: nat)
    requires Dag(g)
  {
    && Sound(g, roots, depth) && Bounded(g, depth, top)
    && (forall n :: n in walker ==> n in depth)
    && (forall n :: n in depth && n !in walker && n !in open ==> Settled(g, depth, n))
  }

  /** The first `i` inputs of `node` are already deeper than it. */
  ghost predicate Forced(g: Graph, depth: Depths, node: Node, i: nat)
    requires Closed(g) && node < |g| && i <= |g[node].inputs| && node in depth
  {
    forall j :: 0 <= j < i ==> g[node].inputs[j] in depth && depth[node] < depth[g[node].inputs[j]]
  }

  lemma RaiseDepth(g: Graph, roots: seq<Node>, depth: Depths, walker: seq<Node>, top: nat, node: Node, i: nat)
    requires Dag(g) && Walk(g, roots, depth, walker, {node}, top)
    requires node in depth && node < |g| && i < |g[node].inputs| && Forced(g, depth, node, i)
    requires g[node].inputs[i] in depth ==> depth[g[node].inputs[i]] < depth[node] + 1
    ensures var input, d := g[node].inputs[i], depth[node] + 1;
            && input != node
            && Walk(g, roots, depth[input := d], walker + [input], {node}, top)
            && Forced(g, depth[input := d], node, i + 1)
            && Slack(depth[input := d], top, |g|) < Slack(depth, top, |g|)
  {
    var input, d := g[node].inputs[i], depth[node] + 1;
    var depth', walker' := depth[input := d], walker + [input];
    InputRank(g, node, i);
    PathStep(g, roots, node, i, d - 2);
    SlackDrops(depth, top, input, d, |g|);
    forall n | n in depth' && n !in walker' && n != node ensures Settled(g, depth', n) {
      assert input in walker' && n !in walker;
      assert Settled(g, depth, n);
    }
  }

  /** The inner loop of the worklist: pushes what `node` forces deeper. */
  method Expand(g: Graph, ghost roots: seq<Node>, depth: Depths, walker: seq<Node>, node: Node, ghost top: nat)
    returns (depth': Depths, walker': seq<Node>)
    requires Dag(g) && Walk(g, roots, depth, walker, {node}, top) && node in depth
    ensures Walk(g, roots, depth', walker', {}, top)
    ensures Slack(depth', top, |g|) < Slack(depth, top, |g|)
            || (Slack(depth', top, |g|) == Slack(depth, top, |g|) && walker' == walker)
  {
    hide Rank, Settled, PathTo, Slack;
    depth', walker' := depth, walker;
    for i := 0 to |g[node].inputs|
      invariant Walk(g, roots, depth', walker', {node}, top)
      invariant node in depth' && depth'[node] == depth[node] && Forced(g, depth', node, i)
      invariant Slack(depth', top, |g|) < Slack(depth, top, |g|)
                || (Slack(depth', top, |g|) == Slack(depth, top, |g|) && walker' == walker)
    {
      var input, d := g[node].inputs[i], depth[node];
      if input !in depth' || depth'[input] < d + 1 {
        RaiseDepth(g, roots, depth', walker', top, node, i);
        depth', walker' := depth'[input := d + 1], walker' + [input];
      }
    }
    Settle(g, roots, depth', walker', node, top);
  }

  lemma Settle(g: Graph, roots: seq<Node>, depth: Depths, walker: seq<Node>, node: Node, top: nat)
    requires Dag(g) && Walk(g, roots, depth, walker, {node}, top)
    requires node in depth && node < |g| && Forced(g, depth, node, |g[node].inputs|)
    ensures Walk(g, roots, depth, walker, {}, top)
  {
    assert Settled(g, depth, node);
  }

  method FirstDepths(g: Graph, nodes: seq<Node>, ghost top: nat) returns (depth: Depths, walker: seq<Node>)
    requires Dag(g) && Within(g, nodes)
    requires forall n :: 0 <= n < |g| ==> 1 + Rank(g, n) <= top
    ensures Walk(g, nodes, depth, walker, {}, top)
  {
    depth, walker := map[], [];
    for r := 0 to |nodes|
      invariant forall q :: 0 <= q < r ==> nodes[q] in depth
      invariant forall n :: n in depth ==> n in nodes && n in walker && depth[n] == 1
      invariant forall n :: n in walker ==> n in depth
    {
      var node := nodes[r];
      if node !in depth {
        walker := walker + [node];
        depth := depth[node := 1];
      }
    }
  }

  method FindDepths(g: Graph, nodes: seq<Node>) returns (depth: Depths)
    requires Dag(g) && Within(g, nodes)
    ensures Sound(g, nodes, depth)
    ensures forall n :: n in depth ==> Settled(g, depth, n)
  {
    ghost var top := Above(Ranking(g)) + 1;
    var walker: seq<Node>;
    depth, walker := FirstDepths(g, nodes, top);
    while walker != []
      invariant Walk(g, nodes, depth, walker, {}, top)
      decreases Slack(depth, top, |g|), |walker|
    {
      var node := walker[0];
      assert walker == [node] + walker[1..];
      depth, walker := Expand(g, nodes, depth, walker[1..], node, top);
    }
  }

  /** The part of the sorted listing made so far: `left` is still to come, and nothing in it is deeper. */
  ghost predicate Sorted(depth: Depths, schedule: seq<Entry>, left: set<Node>) {
    && left <= depth.Keys
    && (forall i :: 0 <= i < |schedule| ==> schedule[i].node in depth && schedule[i].depth == depth[schedule[i].node])
    && (forall i, n :: 0 <= i < |schedule| && n in left ==> schedule[i].node != n && schedule[i].depth >= depth[n])
    && (forall i, j :: 0 <= i < j < |schedule| ==> schedule[i].node != schedule[j].node)
    && (forall i, j :: 0 <= i < j < |schedule| ==> schedule[i].depth >= schedule[j].depth)
    && (forall n :: n in depth ==> n in left || Lists(schedule, n))
  }

  lemma SortedStep(depth: Depths, schedule: seq<Entry>, left: set<Node>, n: Node)
    requires Sorted(depth, schedule, left) && n in left && forall m :: m in left ==> depth[m] <= depth[n]
    ensures Sorted(depth, schedule + [Entry(n, depth[n])], left - {n})
  {
    var after := schedule + [Entry(n, depth[n])];
    forall m | m in depth && m !in left - {n} ensures Lists(after, m) {
      if m == n {
        assert after[|schedule|].node == m;
      } else {
        var i :| 0 <= i < |schedule| && schedule[i].node == m;
        assert after[i].node == m;
      }
    }
  }

  /** The sort leaves nodes of equal depth in no particular order, hence the free choice of `n`. */
  method ListReferenceNodes(g: Graph, nodes: seq<Node>) returns (schedule: seq<Entry>)
    requires Dag(g) && Within(g, nodes)
    ensures IsSchedule(g, nodes, schedule)
  {
    var depth := FindDepths(g, nodes);
    schedule := [];
    var left := depth.Keys;
    while left != {}
      invariant Sorted(depth, schedule, left)
      decreases left
    {
      DeepestExists(depth, left);
      var n :| n in left && forall m :: m in left ==> depth[m] <= depth[n];
      SortedStep(depth, schedule, left, n);
      schedule := schedule + [Entry(n, depth[n])];
      left := left - {n};
    }
    DepthsAreSchedule(g, nodes, depth, schedule);
  }

  lemma DeepestExists(depth: Depths, left: set<Node>)
    requires left != {} && left <= depth.Keys
    ensures exists n :: n in left && forall m :: m in left ==> depth[m] <= depth[n]
    decreases left
  {
    var n :| n in left;
    if left != {n} {
      DeepestExists(depth, left - {n});
      var k :| k in left - {n} && forall m :: m in left - {n} ==> depth[m] <= depth[k];
      var w := if depth[k] <= depth[n] then n else k;
      assert forall m :: m in left ==> m == n || m in left - {n};
      assert w in left && forall m :: m in left ==> depth[m] <= depth[w];
    } else {
      assert forall m :: m in left ==> m == n;
    }
  }

  lemma DepthsAreSchedule(g: Graph, nodes: seq<Node>, depth: Depths, schedule: seq<Entry>)
    requires Dag(g) && Within(g, nodes) && Sound(g, nodes, depth)
    requires forall n :: n in depth ==> Settled(g, depth, n)
    requires Sorted(depth, schedule, {})
    ensures IsSchedule(g, nodes, schedule)
  {
    forall n, length | n in depth && PathTo(g, nodes, n, length) ensures length < depth[n] {
      DepthCoversPath(g, nodes, depth, n, length);
    }
    forall n ensures ReachedFrom(g, nodes, n) <==> Lists(schedule, n) {
      if ReachedFrom(g, nodes, n) {
        var i :| 0 <= i < |nodes| && Reaches(g, nodes[i], n);
        ReachedHasDepth(g, nodes, depth, nodes[i], n);
      }
      if Lists(schedule, n) {
        PathReached(g, nodes, n, depth[n] - 1);
      }
    }
  }

  // ---------------------------------------------------------------- build_node_refs

  type Refs = map<Node, set<Node>>

  /** `refs` holds exactly the strict dependencies of each of its nodes. */
  ghost predicate IsRefs(g: Graph, refs: Refs)
    requires Dag(g)
  {
    forall n :: n in refs ==> n < |g| && forall m :: m in refs[n] <==> Below(g, n, m)
  }

  /** The refs of one node. Every input is already in `refs`, so looking it up never creates an empty entry. */
  method GatherRefs(g: Graph, refs: Refs, node: Node) returns (below: set<Node>)
    requires Dag(g) && IsRefs(g, refs) && node < |g|
    requires forall i :: 0 <= i < |g[node].inputs| ==> g[node].inputs[i] in refs
    ensures forall m :: m in below <==> Below(g, node, m)
  {
    below := {};
    for i := 0 to |g[node].inputs|
      invariant forall m :: m in below <==> exists q :: 0 <= q < i && Reaches(g, g[node].inputs[q], m)
    {
      var input := g[node].inputs[i];
      assert forall m :: m in {input} + refs[input] <==> Reaches(g, input, m);
      below := below + {input} + refs[input];
    }
  }

  method BuildNodeRefs(g: Graph, nodes: seq<Node>) returns (refs: Refs)
    requires Dag(g) && Within(g, nodes)
    ensures IsRefs(g, refs)
    ensures forall n :: n in refs <==> ReachedFrom(g, nodes, n)
  {
    var schedule := ListReferenceNodes(g, nodes);
    refs := map[];
    for j := 0 to |schedule|
      invariant IsRefs(g, refs)
      invariant forall n :: n in refs <==> exists h :: 0 <= h < j && schedule[h].node == n
    {
      var node := schedule[j].node;
      forall i | 0 <= i < |g[node].inputs| ensures g[node].inputs[i] in refs {
        InputsComeFirst(g, nodes, schedule, j, i);
      }
      var below := GatherRefs(g, refs, node);
      refs := refs[node := below];
    }
    forall n ensures n in refs <==> Lists(schedule, n) {
    }
  }
}
