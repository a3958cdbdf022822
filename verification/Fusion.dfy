/** Cloning in `Module::Fusion` of `module.cpp`: a graph of clones, and the joined graph it stands for. */
module Fusion {
  import opened Tensors
  import opened Graphs
  import opened Walking
  import opened Modules

  const COPY := "_copy"

  // ---------------------------------------------------------------- the joined graph

  type Wiring = map<Node, Node>

  function CopyOf(name: string): Bubble {
    Bubble(COPY, name, map[])
  }

  /** A node with its routed input: it copies the output that is led to it. */
  function WiredRecord(u: Graph, wired: Wiring, n: Node): Record
    requires n < |u|
  {
    if n in wired then Record(CopyOf(u[n].bubble.name), [wired[n]]) else u[n]
  }

  /** All modules on one graph, the routed inputs replaced. This is what a fused module stands for. */
  function Wired(u: Graph, wired: Wiring): (r: Graph)
    ensures |r| == |u| && forall n :: 0 <= n < |u| ==> r[n] == WiredRecord(u, wired, n)
  {
    seq(|u|, n requires 0 <= n < |u| => WiredRecord(u, wired, n))
  }

  /** Routed inputs copy the outputs led to them, under their own names; all else is as it was. */
  lemma WiredIs(u: Graph, wired: Wiring, n: Node)
    requires n < |u|
    ensures n !in wired ==> Wired(u, wired)[n] == u[n]
    ensures n in wired ==> Wired(u, wired)[n] == Record(Bubble("_copy", u[n].bubble.name, map[]), [wired[n]])
  {
  }

  /** The copy layer returns its argument. */
  ghost predicate CopyCopies(k: Kernels) {
    forall b: Bubble, v: Tensor :: b.op == "_copy" ==> k.result(b, [v]) == v
  }

  lemma CopyIsOperator(name: string)
    ensures CopyOf(name).Kind() == Operator
  {
  }

  // ---------------------------------------------------------------- the clone

  predicate Renames(linked: map<Node, Node>, ns: seq<Node>, ms: seq<Node>) {
    |ms| == |ns| && forall i :: 0 <= i < |ns| ==> ns[i] in linked && ms[i] == linked[ns[i]]
  }

  /** `n` has its clone in `g`, and the clone has the clones of its inputs, all older. */
  ghost predicate Cloned(u: Graph, wired: Wiring, linked: map<Node, Node>, g: Graph, n: Node) {
    && n < |u| && n in linked && linked[n] < |g|
    && g[linked[n]].bubble == WiredRecord(u, wired, n).bubble
    && Renames(linked, WiredRecord(u, wired, n).inputs, g[linked[n]].inputs)
  }

  /** Every node has only older inputs. */
  predicate Ordered(g: Graph) {
    forall n, i :: 0 <= n < |g| && 0 <= i < |g[n].inputs| ==> g[n].inputs[i] < n
  }

  ghost predicate AllCloned(u: Graph, wired: Wiring, linked: map<Node, Node>, g: Graph) {
    && Ordered(g)
    && (forall n :: n in linked ==> Cloned(u, wired, linked, g, n))
    && (forall n :: n in wired ==> n in linked)
    && (forall m, n :: m in linked && n in linked && linked[m] == linked[n] ==> m == n)
  }

  lemma OrderedDag(g: Graph)
    requires Ordered(g)
    ensures Dag(g)
  {
    var rank := seq(|g|, i requires 0 <= i < |g| => i);
    assert IsRanking(g, rank);
  }

  /** The joined graph has no cycle: where there are clones, their age decreases. */
  lemma WiredDag(u: Graph, wired: Wiring, linked: map<Node, Node>, g: Graph)
    requires Dag(u) && AllCloned(u, wired, linked, g)
    ensures Dag(Wired(u, wired))
  {
    var w := Wired(u, wired);
    var rank := seq(|u|, n requires 0 <= n < |u| => if n in linked then linked[n] else |g| + Rank(u, n));
    forall n, i | 0 <= n < |w| && 0 <= i < |w[n].inputs|
      ensures w[n].inputs[i] < |w| && rank[w[n].inputs[i]] < rank[n]
    {
      if n in linked {
        assert Cloned(u, wired, linked, g, n);
        var m := w[n].inputs[i];
        assert m in linked && linked[m] == g[linked[n]].inputs[i] < linked[n];
        assert Cloned(u, wired, linked, g, m);
      } else {
        InputRank(u, n, i);
        var m := w[n].inputs[i];
        if m in linked {
          assert Cloned(u, wired, linked, g, m);
        }
      }
    }
    assert IsRanking(w, rank);
  }

  /** Joining no nodes at all changes nothing. */
  lemma WiredNothing(u: Graph)
    ensures Wired(u, map[]) == u
  {
  }

  /** Another wire closes a cycle exactly if its output depends on its input. */
  lemma WireClosesCycle(u: Graph, wired: Wiring, to: Node, from: Node)
    requires Dag(Wired(u, wired)) && to < |u| && from < |u|
    ensures Dag(Wired(u, wired[to := from])) <==> !Reaches(Wired(u, wired), from, to)
  {
    var w, w' := Wired(u, wired), Wired(u, wired[to := from]);
    if Reaches(w, from, to) {
      if Dag(w') {
        Uncrossed(w, w', to, from, from);
      }
    } else {
      WireKeepsDag(u, wired, to, from);
    }
  }

  lemma WireKeepsDag(u: Graph, wired: Wiring, to: Node, from: Node)
    requires Dag(Wired(u, wired)) && to < |u| && from < |u| && !Reaches(Wired(u, wired), from, to)
    ensures Dag(Wired(u, wired[to := from]))
  {
    var w, w' := Wired(u, wired), Wired(u, wired[to := from]);
    var before := Ranking(w);
    var top := Above(before);
    var rank := seq(|u|, n requires 0 <= n < |u| => if Reaches(w, from, n) then before[n] else top + before[n]);
    forall n, i | 0 <= n < |w'| && 0 <= i < |w'[n].inputs|
      ensures w'[n].inputs[i] < |w'| && rank[w'[n].inputs[i]] < rank[n]
    {
      if n == to {
        assert Reaches(w, from, from);
      } else {
        InputRank(w, n, i);
        assert before[w[n].inputs[i]] < before[n];
        if Reaches(w, from, n) {
          assert Reaches(w, n, w[n].inputs[i]) by {
            assert Reaches(w, w[n].inputs[i], w[n].inputs[i]);
          }
          ReachesTrans(w, from, n, w[n].inputs[i]);
        }
      }
    }
    assert IsRanking(w', rank);
  }

  /**
   * With the wire and without a cycle, the input ranks above the output, so that nothing below the output is
   * the input.
   */
  lemma {:induction false} Uncrossed(w: Graph, w': Graph, to: Node, from: Node, n: Node)
    requires Dag(w) && Dag(w') && |w| == |w'| && to < |w| && from < |w| && n < |w| && w'[to].inputs == [from]
    requires forall m :: 0 <= m < |w| && m != to ==> w'[m] == w[m]
    requires Rank(w', n) <= Rank(w', from)
    ensures !Reaches(w, n, to)
    decreases Rank(w, n)
  {
    InputRank(w', to, 0);
    forall i | 0 <= i < |w[n].inputs| && n != to ensures !Reaches(w, w[n].inputs[i], to) {
      InputRank(w', n, i);
      Uncrossed(w, w', to, from, w[n].inputs[i]);
    }
  }

  /** A wire does not change what a node depends on that does not depend on the wired input. */
  lemma {:induction false} ReachesSame(w: Graph, w': Graph, to: Node, n: Node, m: Node)
    requires Dag(w) && Dag(w') && |w| == |w'| && n < |w| && !Reaches(w, n, to)
    requires forall x :: 0 <= x < |w| && x != to ==> w'[x] == w[x]
    ensures Reaches(w', n, m) <==> Reaches(w, n, m)
    decreases Rank(w, n)
  {
    assert w'[n] == w[n];
    forall i | 0 <= i < |w[n].inputs| ensures Reaches(w', w[n].inputs[i], m) <==> Reaches(w, w[n].inputs[i], m) {
      ReachesSame(w, w', to, w[n].inputs[i], m);
    }
  }

  lemma Unwired(u: Graph, wired: Wiring, linked: map<Node, Node>, g: Graph, n: Node)
    requires AllCloned(u, wired, linked, g) && n !in linked
    ensures n !in wired
  {
  }

  lemma ClonedOf(u: Graph, wired: Wiring, linked: map<Node, Node>, g: Graph, n: Node)
    requires AllCloned(u, wired, linked, g) && n in linked
    ensures Cloned(u, wired, linked, g, n)
  {
  }

  /** A clone computes what its original computes in the joined graph. */
  lemma {:induction false} CloneValue(u: Graph, wired: Wiring, linked: map<Node, Node>, g: Graph,
                                      k: Kernels, env: Env, env': Env, n: Node)
    requires AllCloned(u, wired, linked, g) && n in linked
    requires Dag(g) && Dag(Wired(u, wired)) && n < |u| && linked[n] < |g|
    requires forall m :: m in linked ==> env'(linked[m]) == env(m)
    ensures Eval(g, k, env', linked[n]) == Eval(Wired(u, wired), k, env, n)
    decreases Rank(Wired(u, wired), n)
  {
    hide Dag, Bubble.Kind, AllCloned;
    var w := Wired(u, wired);
    ClonedOf(u, wired, linked, g, n);
    assert Cloned(u, wired, linked, g, n);
    if !w[n].bubble.Kind().Parameter? && !w[n].bubble.Kind().Const? {
      EvalOperator(w, k, env, n);
      EvalOperator(g, k, env', linked[n]);
      forall i | 0 <= i < |w[n].inputs|
        ensures Eval(g, k, env', g[linked[n]].inputs[i]) == Eval(w, k, env, w[n].inputs[i])
      {
        InputRank(w, n, i);
        ClonedOf(u, wired, linked, g, w[n].inputs[i]);
        CloneValue(u, wired, linked, g, k, env, env', w[n].inputs[i]);
      }
      assert EvalAll(g, k, env', g[linked[n]].inputs) == EvalAll(w, k, env, w[n].inputs);
    }
  }

  lemma CopyOne(k: Kernels, name: string, v: Tensor)
    requires CopyCopies(k)
    ensures k.result(CopyOf(name), [v]) == v
  {
  }

  /**
   * Joining is composition, whatever the wires: each routed input takes the value of the output led to it, in the
   * joined graph or, which comes to the same, in the graph without wires.
   */
  lemma {:induction false} JoinedComposes(u: Graph, wired: Wiring, k: Kernels, env: Env, fed: Env, n: Node)
    requires Dag(u) && Dag(Wired(u, wired)) && n < |u| && CopyCopies(k)
    requires forall t :: t in wired ==> t < |u| && wired[t] < |u| && u[t].bubble.Kind().Parameter?
    requires forall t :: t in wired ==>
               fed(t) == Eval(Wired(u, wired), k, env, wired[t]) || fed(t) == Eval(u, k, fed, wired[t])
    requires forall t: Node :: t !in wired ==> fed(t) == env(t)
    ensures Eval(Wired(u, wired), k, env, n) == Eval(u, k, fed, n)
    decreases Rank(Wired(u, wired), n)
  {
    hide Dag, Bubble.Kind, CopyCopies;
    var w := Wired(u, wired);
    if n in wired {
      CopyIsOperator(u[n].bubble.name);
      EvalOperator(w, k, env, n);
      InputRank(w, n, 0);
      JoinedComposes(u, wired, k, env, fed, wired[n]);
      assert EvalAll(w, k, env, w[n].inputs) == [Eval(w, k, env, wired[n])];
      CopyOne(k, u[n].bubble.name, Eval(w, k, env, wired[n]));
    } else if !u[n].bubble.Kind().Parameter? && !u[n].bubble.Kind().Const? {
      EvalOperator(w, k, env, n);
      EvalOperator(u, k, fed, n);
      forall i | 0 <= i < |u[n].inputs| ensures Eval(w, k, env, u[n].inputs[i]) == Eval(u, k, fed, u[n].inputs[i]) {
        InputRank(w, n, i);
        JoinedComposes(u, wired, k, env, fed, u[n].inputs[i]);
      }
      assert EvalAll(w, k, env, w[n].inputs) == EvalAll(u, k, fed, u[n].inputs);
    }
  }

  /** One route that closes no cycle: the routed output has the value it has by itself. */
  lemma Composes(u: Graph, from: Node, to: Node, k: Kernels, env: Env, env': Env, n: Node)
    requires Dag(u) && from < |u| && to < |u| && n < |u| && Dag(Wired(u, map[to := from]))
    requires u[to].bubble.Kind().Parameter? && !Reaches(u, from, to) && CopyCopies(k)
    requires forall m: nat :: m != to ==> env'(m) == env(m)
    requires env'(to) == Eval(u, k, env, from)
    ensures Eval(Wired(u, map[to := from]), k, env, n) == Eval(u, k, env', n)
  {
    hide Dag, Bubble.Kind, Reaches, CopyCopies, Eval;
    Untouched(u, to, k, env, env', from);
    JoinedComposes(u, map[to := from], k, env, env', n);
  }

  /** A value does not depend on what is given to a node it does not reach. */
  lemma {:induction false} Untouched(u: Graph, to: Node, k: Kernels, env: Env, env': Env, n: Node)
    requires Dag(u) && n < |u| && !Reaches(u, n, to)
    requires forall m: nat :: m != to ==> env'(m) == env(m)
    ensures Eval(u, k, env', n) == Eval(u, k, env, n)
    decreases Rank(u, n)
  {
    hide Dag, Bubble.Kind;
    if !u[n].bubble.Kind().Parameter? && !u[n].bubble.Kind().Const? {
      EvalOperator(u, k, env, n);
      EvalOperator(u, k, env', n);
      forall i | 0 <= i < |u[n].inputs| ensures Eval(u, k, env', u[n].inputs[i]) == Eval(u, k, env, u[n].inputs[i]) {
        InputRank(u, n, i);
        Untouched(u, to, k, env, env', u[n].inputs[i]);
      }
      assert EvalAll(u, k, env', u[n].inputs) == EvalAll(u, k, env, u[n].inputs);
    }
  }

  /** What the clones of some nodes depend on has clones. */
  lemma {:induction false} ReachedIsCloned(u: Graph, wired: Wiring, linked: map<Node, Node>, g: Graph, n: Node, m: Node)
    requires AllCloned(u, wired, linked, g) && n in linked && n < |u| && Dag(Wired(u, wired))
    requires Reaches(Wired(u, wired), n, m)
    ensures m in linked
    decreases Rank(Wired(u, wired), n)
  {
    var w := Wired(u, wired);
    if n != m {
      assert Cloned(u, wired, linked, g, n);
      var i :| 0 <= i < |w[n].inputs| && Reaches(w, w[n].inputs[i], m);
      InputRank(w, n, i);
      ReachedIsCloned(u, wired, linked, g, w[n].inputs[i], m);
    }
  }

  // ---------------------------------------------------------------- growing the clone

  predicate Keeps(linked: map<Node, Node>, linked': map<Node, Node>) {
    forall n :: n in linked ==> n in linked' && linked'[n] == linked[n]
  }

  /** One more clone at the end of the graph. */
  lemma CloneMore(u: Graph, wired: Wiring, wired': Wiring, linked: map<Node, Node>, g: Graph, n: Node, r: Record)
    requires AllCloned(u, wired, linked, g) && n < |u| && n !in linked
    requires wired' == wired || (n in wired' && wired' == wired[n := wired'[n]])
    requires r.bubble == WiredRecord(u, wired', n).bubble && Renames(linked, WiredRecord(u, wired', n).inputs, r.inputs)
    ensures AllCloned(u, wired', linked[n := |g|], g + [r])
  {
  }

  /** A node that is nobody's clone changes nothing. */
  lemma StrayMore(u: Graph, wired: Wiring, linked: map<Node, Node>, g: Graph, r: Record)
    requires AllCloned(u, wired, linked, g) && forall i :: 0 <= i < |r.inputs| ==> r.inputs[i] < |g|
    ensures AllCloned(u, wired, linked, g + [r])
  {
  }

  /**
   * What a route adds. The wire is made exactly if the input has no clone yet and closes no cycle; then or not,
   * the input and all the output depends on have clones.
   */
  ghost predicate RouteAdded(u: Graph, to: Node, from: Node, wired: Wiring, linked: map<Node, Node>,
                             wired': Wiring, linked': map<Node, Node>)
    requires Dag(Wired(u, wired)) && to < |u| && from < |u|
  {
    && wired' == (if to in linked || Reaches(Wired(u, wired), from, to) then wired else wired[to := from])
    && forall n :: n in linked' <==> n in linked || n == to || Reaches(Wired(u, wired), from, n)
  }

  class Fuser {
    const u: Graph
    var g: Graph
    var cloned: map<Node, Node>
    var linked: map<Node, Node>
    /** The routed inputs that got their copy node as clone. */
    ghost var wired: Wiring

    ghost predicate Valid()
      reads this
    {
      Dag(u) && Dag(Wired(u, wired)) && cloned == linked && AllCloned(u, wired, linked, g)
    }

    constructor (u: Graph)
      requires Dag(u)
      ensures Valid() && this.u == u && g == [] && linked == map[] && wired == map[]
    {
      WiredNothing(u);
      this.u := u;
      g := [];
      cloned, linked, wired := map[], map[], map[];
    }

    lemma Facts()
      requires Valid()
      ensures Dag(u) && Dag(Wired(u, wired)) && cloned == linked && AllCloned(u, wired, linked, g)
    {
    }

    /** `clone_node`: the node, not linked yet. */
    method CloneNode(node: Node) returns (dolly: Node)
      requires node < |u|
      modifies this`g, this`cloned
      ensures node in old(cloned) ==> g == old(g) && cloned == old(cloned) && dolly == cloned[node]
      ensures node !in old(cloned) ==>
                g == old(g) + [Record(u[node].bubble, [])] && dolly == |old(g)| && cloned == old(cloned)[node := dolly]
    {
      if node in cloned {
        return cloned[node];
      }
      dolly := |g|;
      g := g + [Record(u[node].bubble, [])];
      cloned := cloned[node := dolly];
    }

    /** `clone_graph`: clones of the nodes and of all they depend on in the joined graph, each made once. */
    method CloneGraph(nodes: seq<Node>, ghost bound: nat) returns (dolly: seq<Node>)
      requires Valid() && Within(u, nodes) && forall i :: 0 <= i < |nodes| ==> Rank(u, nodes[i]) < bound
      modifies this`g, this`cloned, this`linked
      ensures Valid() && old(g) <= g && Keeps(old(linked), linked)
      ensures Renames(linked, nodes, dolly)
      ensures forall n :: n in linked ==> n in old(linked) || ReachedFrom(Wired(u, wired), nodes, n)
      decreases bound
    {
      hide Dag, AllCloned, Reaches, ReachedFrom, Rank, WiredRecord;
      dolly := [];
      for i := 0 to |nodes|
        invariant Valid() && old(g) <= g && Keeps(old(linked), linked)
        invariant Renames(linked, nodes[..i], dolly)
        invariant forall n :: n in linked ==> n in old(linked) || ReachedFrom(Wired(u, wired), nodes, n)
      {
        var node := nodes[i];
        assert nodes[..i + 1] == nodes[..i] + [node];
        if node in linked {
          dolly := dolly + [linked[node]];
          continue;
        }
        var d := CloneOne(node, nodes, i, bound);
        dolly := dolly + [d];
      }
      assert nodes[..|nodes|] == nodes;
    }

    /** The body of that loop, for a node that is not linked. */
    method CloneOne(node: Node, ghost nodes: seq<Node>, ghost i: nat, ghost bound: nat) returns (d: Node)
      requires Valid() && Within(u, nodes) && i < |nodes| && nodes[i] == node && node !in linked
      requires Rank(u, node) < bound
      modifies this`g, this`cloned, this`linked
      ensures Valid() && old(g) <= g && Keeps(old(linked), linked)
      ensures node in linked && d == linked[node]
      ensures forall n :: n in linked ==> n in old(linked) || ReachedFrom(Wired(u, wired), nodes, n)
      decreases bound, 0
    {
      hide Dag, AllCloned, Reaches, ReachedFrom, Rank;
      InputsLower(u, node);
      Unwired(u, wired, linked, g, node);
      hide WiredRecord;
      var inputs := CloneGraph(u[node].inputs, Rank(u, node));
      UnwiredRecord(u, wired, node);
      ReachedBelow(Wired(u, wired), nodes, i);
      ghost var linked1, g1 := linked, g;
      d := CloneNode(node);
      g := g[d := g[d].(inputs := inputs)];
      linked := linked[node := d];
      ghost var r := Record(u[node].bubble, inputs);
      assert g == g1 + [r];
      CloneMore(u, wired, wired, linked1, g1, node, r);
    }

    /**
     * One route: the output is cloned, and a copy of it becomes the clone of the input, unless that has one.
     * So the wire is made exactly if the input has not been cloned before and closes no cycle.
     */
    method AddRoute(to: Node, from: Node)
      requires Valid() && to < |u| && from < |u|
      modifies this
      ensures Valid() && Keeps(old(linked), linked)
      ensures RouteAdded(u, to, from, old(wired), old(linked), wired, linked)
    {
      hide Dag, AllCloned, Reaches, ReachedFrom, Rank, Cloned, Keeps, WiredRecord;
      var dolly := CloneGraph([from], Rank(u, from) + 1);
      var copy := |g|;
      ghost var linked1, g1 := linked, g;
      forall n ensures n in linked <==> n in old(linked) || Reaches(Wired(u, wired), from, n) {
        ReachedFromOne(Wired(u, wired), from, n);
        OneCloned(u, wired, old(linked), linked, g, from, dolly, n);
      }
      OneRenamed(u, wired, linked, g, to, from, dolly);
      ghost var r := Record(CopyOf(u[to].bubble.name), dolly);
      g := g + [Record(CopyOf(u[to].bubble.name), dolly)];
      if to !in cloned {
        cloned := cloned[to := copy];
      }
      if to !in linked {
        linked := linked[to := copy];
        KeepsMore(old(linked), linked1, to, copy);
        wired := wired[to := from];
        CloneMore(u, old(wired), wired, linked1, g1, to, r);
        WireClosesCycle(u, old(wired), to, from);
      } else {
        StrayMore(u, wired, linked1, g1, r);
      }
    }
  }

  lemma UnwiredRecord(u: Graph, wired: Wiring, n: Node)
    requires n < |u| && n !in wired
    ensures Wired(u, wired)[n] == WiredRecord(u, wired, n) == u[n]
  {
  }

  lemma OneCloned(u: Graph, wired: Wiring, before: map<Node, Node>, linked: map<Node, Node>, g: Graph,
                  from: Node, dolly: seq<Node>, n: Node)
    requires AllCloned(u, wired, linked, g) && Dag(Wired(u, wired)) && from < |u|
    requires Keeps(before, linked) && Renames(linked, [from], dolly)
    ensures n in before || Reaches(Wired(u, wired), from, n) ==> n in linked
  {
    hide AllCloned, Reaches;
    assert [from][0] in linked;
    if Reaches(Wired(u, wired), from, n) {
      ReachedIsCloned(u, wired, linked, g, from, n);
    }
  }

  lemma KeepsMore(a: map<Node, Node>, b: map<Node, Node>, n: Node, x: Node)
    requires Keeps(a, b) && n !in b
    ensures Keeps(a, b[n := x])
  {
  }

  lemma ReachedFromOne(u: Graph, from: Node, n: Node)
    requires Dag(u) && from < |u|
    ensures ReachedFrom(u, [from], n) ==> Reaches(u, from, n)
  {
  }

  lemma OneRenamed(u: Graph, wired: Wiring, linked: map<Node, Node>, g: Graph, to: Node, from: Node, dolly: seq<Node>)
    requires AllCloned(u, wired, linked, g) && to < |u| && Renames(linked, [from], dolly)
    ensures |dolly| == 1 && dolly[0] < |g|
    ensures to !in linked ==> to !in wired
    ensures WiredRecord(u, wired[to := from], to).bubble == CopyOf(u[to].bubble.name)
    ensures Renames(linked, WiredRecord(u, wired[to := from], to).inputs, dolly)
  {
    assert Cloned(u, wired, linked, g, [from][0]);
  }

  lemma InputsLower(u: Graph, n: Node)
    requires Dag(u) && n < |u|
    ensures Within(u, u[n].inputs) && forall i :: 0 <= i < |u[n].inputs| ==> Rank(u, u[n].inputs[i]) < Rank(u, n)
  {
  }

  /** A node does not depend on itself; what its inputs reach is reached from any list it is in. */
  lemma ReachedBelow(u: Graph, nodes: seq<Node>, i: nat)
    requires Dag(u) && Within(u, nodes) && i < |nodes| && Within(u, u[nodes[i]].inputs)
    ensures !ReachedFrom(u, u[nodes[i]].inputs, nodes[i]) && ReachedFrom(u, nodes, nodes[i])
    ensures forall n :: ReachedFrom(u, u[nodes[i]].inputs, n) ==> ReachedFrom(u, nodes, n)
  {
    var node := nodes[i];
    assert Reaches(u, nodes[i], node);
    if Below(u, node, node) {
      BelowRank(u, node, node);
    }
    forall n | ReachedFrom(u, u[node].inputs, n) ensures ReachedFrom(u, nodes, n) {
      assert Reaches(u, nodes[i], n);
    }
  }

  // ---------------------------------------------------------------- loading the clone

  /** The outputs can be computed from the inputs. */
  ghost predicate Joinable(w: Graph, ins: seq<Node>, outs: seq<Node>) {
    Computable(w, outs) && forall n :: Needs(w, outs, n) ==> n in ins
  }

  /** What is met among the clones is met, at the same distance, in the joined graph. */
  lemma {:induction false} MetClone(u: Graph, wired: Wiring, linked: map<Node, Node>, g: Graph,
                                    outs: seq<Node>, outs': seq<Node>, x: Node, k: nat)
    returns (n: Node)
    requires AllCloned(u, wired, linked, g) && Renames(linked, outs, outs') && MetAt(g, outs', x, k)
    ensures n in linked && linked[n] == x && n < |u| && MetAt(Wired(u, wired), outs, n, k)
    decreases k
  {
    hide Bubble.Kind;
    var w := Wired(u, wired);
    if k == 0 {
      var i :| 0 <= i < |outs'| && outs'[i] == x;
      n := outs[i];
      assert Cloned(u, wired, linked, g, n);
    } else {
      var y, i :| 0 <= y < |g| && 0 <= i < |g[y].inputs| && MetAt(g, outs', y, k - 1) && Proceeds(g, y)
                  && g[y].inputs[i] == x;
      var m := MetClone(u, wired, linked, g, outs, outs', y, k - 1);
      assert Cloned(u, wired, linked, g, m);
      n := w[m].inputs[i];
      assert Cloned(u, wired, linked, g, n);
      assert Proceeds(w, m);
    }
  }

  /** What is met in the joined graph has a clone that is met, at the same distance, among the clones. */
  lemma {:induction false} MetOriginal(u: Graph, wired: Wiring, linked: map<Node, Node>, g: Graph,
                                       outs: seq<Node>, outs': seq<Node>, n: Node, k: nat)
    requires AllCloned(u, wired, linked, g) && Renames(linked, outs, outs') && MetAt(Wired(u, wired), outs, n, k)
    ensures Cloned(u, wired, linked, g, n) && MetAt(g, outs', linked[n], k)
    decreases k
  {
    hide Bubble.Kind;
    var w := Wired(u, wired);
    if k == 0 {
      var i :| 0 <= i < |outs| && outs[i] == n;
      assert outs'[i] == linked[n];
    } else {
      var m, i :| 0 <= m < |w| && 0 <= i < |w[m].inputs| && MetAt(w, outs, m, k - 1) && Proceeds(w, m)
                  && w[m].inputs[i] == n;
      MetOriginal(u, wired, linked, g, outs, outs', m, k - 1);
      assert g[linked[m]].inputs[i] == linked[n];
      assert Proceeds(g, linked[m]);
    }
  }

  /** The clone can be loaded exactly if the joined graph can, with the kept inputs and outputs. */
  lemma JoinableLoads(u: Graph, wired: Wiring, linked: map<Node, Node>, g: Graph,
                      ins: seq<Node>, outs: seq<Node>, ins': seq<Node>, outs': seq<Node>)
    requires AllCloned(u, wired, linked, g) && Renames(linked, outs, outs') && Renames(linked, ins, ins')
    requires Placed(Module(g, ins', outs'))
    ensures Loadable(Module(g, ins', outs')) <==> Joinable(Wired(u, wired), ins, outs)
  {
    if Joinable(Wired(u, wired), ins, outs) {
      FusedLoads(u, wired, linked, g, ins, outs, ins', outs');
    }
    if Loadable(Module(g, ins', outs')) {
      LoadsJoined(u, wired, linked, g, ins, outs, ins', outs');
    }
  }

  lemma FusedLoads(u: Graph, wired: Wiring, linked: map<Node, Node>, g: Graph,
                   ins: seq<Node>, outs: seq<Node>, ins': seq<Node>, outs': seq<Node>)
    requires AllCloned(u, wired, linked, g) && Renames(linked, outs, outs') && Renames(linked, ins, ins')
    requires Placed(Module(g, ins', outs')) && Joinable(Wired(u, wired), ins, outs)
    ensures Loadable(Module(g, ins', outs'))
  {
    hide MetAt, Bubble.Kind, AllCloned;
    var w := Wired(u, wired);
    forall x | 0 <= x < |g| && Met(g, outs', x)
      ensures Proceeds(g, x) ==> g[x].inputs != []
      ensures g[x].bubble.Kind().Parameter? ==> x in ins'
    {
      var k: nat :| MetAt(g, outs', x, k);
      var n := MetClone(u, wired, linked, g, outs, outs', x, k);
      assert Met(w, outs, n);
      ClonedOf(u, wired, linked, g, n);
      if g[x].bubble.Kind().Parameter? {
        assert Needs(w, outs, n);
        var i :| 0 <= i < |ins| && ins[i] == n;
        assert ins'[i] == x;
      }
    }
  }

  lemma LoadsJoined(u: Graph, wired: Wiring, linked: map<Node, Node>, g: Graph,
                    ins: seq<Node>, outs: seq<Node>, ins': seq<Node>, outs': seq<Node>)
    requires AllCloned(u, wired, linked, g) && Renames(linked, outs, outs') && Renames(linked, ins, ins')
    requires Placed(Module(g, ins', outs')) && Loadable(Module(g, ins', outs'))
    ensures Joinable(Wired(u, wired), ins, outs)
  {
    hide MetAt, Bubble.Kind, AllCloned;
    var w := Wired(u, wired);
    forall n | 0 <= n < |w| && Met(w, outs, n)
      ensures Proceeds(w, n) ==> w[n].inputs != []
      ensures w[n].bubble.Kind().Parameter? ==> n in ins
    {
      var k: nat :| MetAt(w, outs, n, k);
      MetOriginal(u, wired, linked, g, outs, outs', n, k);
      assert Met(g, outs', linked[n]);
      if w[n].bubble.Kind().Parameter? {
        assert Needs(g, outs', linked[n]);
        var i :| 0 <= i < |ins'| && ins'[i] == linked[n];
        OneOriginal(u, wired, linked, g, n, ins[i]);
      }
    }
  }

  /** No two nodes share a clone. */
  lemma OneOriginal(u: Graph, wired: Wiring, linked: map<Node, Node>, g: Graph, m: Node, n: Node)
    requires AllCloned(u, wired, linked, g) && m in linked && n in linked && linked[m] == linked[n]
    ensures m == n
  {
  }

  /**
   * A result needs none of the clones of nodes that are not kept inputs: a routed input without a wire is not
   * needed.
   */
  lemma OnlyKeptAreNeeded(u: Graph, wired: Wiring, linked: map<Node, Node>, g: Graph,
                          ins: seq<Node>, ins': seq<Node>, outs': seq<Node>, n: Node)
    requires AllCloned(u, wired, linked, g) && Renames(linked, ins, ins')
    requires Placed(Module(g, ins', outs')) && Loadable(Module(g, ins', outs')) && n in linked && n !in ins
    ensures !Needs(g, outs', linked[n])
  {
  }

  /** The fused outputs have the values of the kept outputs in the joined graph. */
  lemma FusedValues(u: Graph, wired: Wiring, linked: map<Node, Node>, g: Graph,
                    outs: seq<Node>, outs': seq<Node>, k: Kernels, env: Env, env': Env)
    requires Dag(u) && AllCloned(u, wired, linked, g) && Within(u, outs) && Renames(linked, outs, outs')
    requires forall m :: m in linked ==> env'(linked[m]) == env(m)
    ensures Dag(g) && Dag(Wired(u, wired)) && Within(g, outs')
    ensures EvalAll(g, k, env', outs') == EvalAll(Wired(u, wired), k, env, outs)
  {
    OrderedDag(g);
    WiredDag(u, wired, linked, g);
    forall i | 0 <= i < |outs|
      ensures outs'[i] < |g| && Eval(g, k, env', outs'[i]) == Eval(Wired(u, wired), k, env, outs[i])
    {
      assert Cloned(u, wired, linked, g, outs[i]);
      CloneValue(u, wired, linked, g, k, env, env', outs[i]);
    }
  }
}
