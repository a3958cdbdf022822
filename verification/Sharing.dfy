/** Which node of the given graph a folded node was made for, and when folding makes two for one. */
module Sharing {
  import opened Tensors
  import opened Graphs
  import opened Standing

  type Memo = map<Node, Node>

  /** An operator that depends on a Parameter, and on something folding computes: folding builds it anew. */
  ghost predicate Rebuilt(g: Graph, n: Node)
    requires Dag(g) && n < |g|
  {
    ReachesParameter(g, n) && !Folded(g, n)
  }

  // ---------------------------------------------------------------- where nodes come from

  /** `origins[c]` is the node `c` was made for; a node of the given graph is its own origin. */
  predicate Origins(g: Graph, h: Graph, origins: seq<Node>) {
    && |g| <= |h| == |origins|
    && (forall c :: 0 <= c < |g| ==> origins[c] == c)
    && (forall c :: 0 <= c < |h| ==> origins[c] < |g|)
  }

  /** The inputs of a node come from the inputs of its origin, and none of them is in `tops`. */
  predicate InputsTraced(g: Graph, h: Graph, origins: seq<Node>, tops: set<Node>, inputs: seq<Node>, n: Node)
    requires Origins(g, h, origins) && n < |g|
  {
    && |inputs| == |g[n].inputs|
    && forall i :: 0 <= i < |inputs| ==> inputs[i] < |h| && origins[inputs[i]] == g[n].inputs[i] && inputs[i] !in tops
  }

  /** A rebuilt operator is the same operator; a computed constant has the name of the operator it replaces. */
  predicate MadeFor(b: Bubble, was: Bubble) {
    b.name == was.name && (b.Kind().Operator? ==> b == was)
  }

  /**
   * A node made: its origin is not folded; it is an operator if its origin is rebuilt, and then in the memo or
   * in `tops`.
   */
  ghost predicate Copy(g: Graph, h: Graph, origins: seq<Node>, tops: set<Node>, memo: Memo, c: Node)
    requires Dag(g) && Origins(g, h, origins) && c < |h|
  {
    var n := origins[c];
    && !Folded(g, n) && (h[c].bubble.Kind().Operator? <==> ReachesParameter(g, n)) && MadeFor(h[c].bubble, g[n].bubble)
    && (h[c].bubble.Kind().Operator? ==>
          InputsTraced(g, h, origins, tops, h[c].inputs, n) && (c !in tops ==> n in memo && memo[n] == c))
  }

  ghost predicate Copies(g: Graph, h: Graph, origins: seq<Node>, tops: set<Node>, memo: Memo)
    requires Dag(g) && Origins(g, h, origins)
  {
    forall c :: |g| <= c < |h| ==> Copy(g, h, origins, tops, memo, c)
  }

  /** What the memo has for a node of the given graph was made for it, and not at the top. */
  predicate Remembers(g: Graph, h: Graph, origins: seq<Node>, tops: set<Node>, memo: Memo)
    requires Origins(g, h, origins)
  {
    forall n :: n in memo && n < |g| ==> memo[n] < |h| && origins[memo[n]] == n && memo[n] !in tops
  }

  /** What depends on a Parameter below a node that is in the memo is in the memo. */
  ghost predicate DownClosed(g: Graph, memo: Memo)
    requires Dag(g)
  {
    forall n: Node, x: Node :: n in memo && n < |g| && x < |g| && Below(g, n, x) && ReachesParameter(g, x) ==> x in memo
  }

  /**
   * How folding has come to the graph `h`. `tops` are the nodes made for outputs whose place in the memo was
   * missed.
   */
  ghost predicate Traced(g: Graph, h: Graph, origins: seq<Node>, tops: set<Node>, nonconsts: Memo, consts: Memo) {
    && Dag(g) && Origins(g, h, origins) && (forall c :: c in tops ==> |g| <= c < |h|)
    && (forall n :: n in nonconsts ==> n < |h|)
    && Copies(g, h, origins, tops, nonconsts)
    && Remembers(g, h, origins, tops, nonconsts) && Remembers(g, h, origins, tops, consts)
    && DownClosed(g, nonconsts)
  }

  lemma TracedOrigins(g: Graph, h: Graph, origins: seq<Node>, tops: set<Node>, nonconsts: Memo, consts: Memo)
    requires Traced(g, h, origins, tops, nonconsts, consts)
    ensures Dag(g) && Origins(g, h, origins)
    ensures forall n :: n in nonconsts && n < |g| ==>
        nonconsts[n] < |h| && origins[nonconsts[n]] == n && nonconsts[n] !in tops
    ensures forall n :: n in consts && n < |g| ==> consts[n] < |h| && origins[consts[n]] == n && consts[n] !in tops
    ensures (forall c :: c in tops ==> |g| <= c < |h|) && forall n :: n in nonconsts ==> n < |h|
  {
    hide Dag, Copies, DownClosed;
  }

  /** What the nodes made are called. */
  lemma TracedNames(g: Graph, h: Graph, origins: seq<Node>, tops: set<Node>, nonconsts: Memo, consts: Memo)
    requires Traced(g, h, origins, tops, nonconsts, consts) && Origins(g, h, origins)
    ensures forall c :: |g| <= c < |h| ==> MadeFor(h[c].bubble, g[origins[c]].bubble)
  {
    hide Dag, Folded, ReachesParameter, DownClosed, Remembers, InputsTraced, MadeFor;
    forall c | |g| <= c < |h| ensures MadeFor(h[c].bubble, g[origins[c]].bubble) {
      assert Copy(g, h, origins, tops, nonconsts, c);
    }
  }

  /** A node that is its own stand-in is folded, and any other is not. */
  lemma SelfIsFolded(g: Graph, h: Graph, origins: seq<Node>, tops: set<Node>, nonconsts: Memo, consts: Memo, c: Node)
    requires Traced(g, h, origins, tops, nonconsts, consts) && c < |h|
    ensures c >= |g| ==> !Folded(g, origins[c])
    ensures c < |g| ==> origins[c] == c
  {
    hide Dag, Folded, ReachesParameter, DownClosed, Remembers, InputsTraced;
    if c >= |g| {
      assert Copy(g, h, origins, tops, nonconsts, c);
    }
  }

  lemma FoldedExtends(g: Graph, h: Graph, n: Node)
    requires Grown(g, h) && n < |g| && Folded(h, n)
    ensures Folded(g, n)
  {
    forall m | 0 <= m < |g| && Reaches(g, n, m) && g[m].bubble.Kind().Operator? ensures ReachesParameter(g, m) {
      ReachesExtends(g, h, n, m);
      assert h[m] == g[m];
      var p :| 0 <= p < |h| && h[p].bubble.Kind().Parameter? && Reaches(h, m, p);
      ReachesExtends(g, h, m, p);
      assert p < |g| && h[p] == g[p];
    }
  }

  lemma UnfoldedByInput(g: Graph, n: Node, i: nat)
    requires Dag(g) && n < |g| && i < |g[n].inputs| && g[n].inputs[i] < |g| && !Folded(g, g[n].inputs[i])
    ensures !Folded(g, n)
  {
    var m :| 0 <= m < |g| && Reaches(g, g[n].inputs[i], m) && g[m].bubble.Kind().Operator? && !ReachesParameter(g, m);
    ReachesInput(g, n, i, m);
  }

  // ---------------------------------------------------------------- one more node

  lemma CopiesSame(g: Graph, h: Graph, origins: seq<Node>, tops: set<Node>, memo: Memo,
                   h': Graph, origins': seq<Node>, tops': set<Node>, memo': Memo, c: Node)
    requires Dag(g) && Origins(g, h, origins) && Origins(g, h', origins') && Extends(h, h') && origins <= origins'
    requires c < |h| && Copy(g, h, origins, tops, memo, c)
    requires tops <= tops' && (forall d :: d in tops' && d !in tops ==> d >= |h|)
    requires forall n :: n in memo ==> n in memo' && memo'[n] == memo[n]
    ensures Copy(g, h', origins', tops', memo', c)
  {
    hide Dag, Folded, ReachesParameter;
    assert h'[c] == h[c] && origins'[c] == origins[c];
  }

  /** A node rebuilt for `n`, remembered under `n`, or at the top under itself. */
  lemma TracedCopy(g: Graph, h: Graph, origins: seq<Node>, tops: set<Node>, nonconsts: Memo, consts: Memo,
                   n: Node, r: Record, top: bool)
    requires Traced(g, h, origins, tops, nonconsts, consts) && n < |g| && Rebuilt(g, n) && n !in nonconsts
    requires Origins(g, h, origins)
    requires r.bubble.Kind().Operator? && r.bubble == g[n].bubble && InputsTraced(g, h, origins, tops, r.inputs, n)
    requires forall x: Node :: x < |g| && Below(g, n, x) && ReachesParameter(g, x) ==> x in nonconsts
    ensures Traced(g, h + [r], origins + [n], if top then tops + {|h|} else tops,
                   nonconsts[(if top then |h| else n) := |h|], consts)
  {
    var h', origins', tops' := h + [r], origins + [n], if top then tops + {|h|} else tops;
    var memo' := nonconsts[(if top then |h| else n) := |h|];
    assert h'[|h|] == r && origins'[|h|] == n;
    hide Dag, Folded, ReachesParameter, Below;
    forall c | |g| <= c < |h'| ensures Copy(g, h', origins', tops', memo', c) {
      if c < |h| {
        CopiesSame(g, h, origins, tops, nonconsts, h', origins', tops', memo', c);
      }
    }
  }

  /** A constant computed for `n`. */
  lemma TracedData(g: Graph, h: Graph, origins: seq<Node>, tops: set<Node>, nonconsts: Memo, consts: Memo,
                   n: Node, r: Record, top: bool)
    requires Traced(g, h, origins, tops, nonconsts, consts) && n < |g| && g[n].bubble.Kind().Operator?
    requires !ReachesParameter(g, n)
    requires r.bubble.Kind().Const? && r.bubble.name == g[n].bubble.name
    ensures Traced(g, h + [r], origins + [n], if top then tops + {|h|} else tops,
                   nonconsts, consts[(if top then |h| else n) := |h|])
  {
    var h', origins', tops' := h + [r], origins + [n], if top then tops + {|h|} else tops;
    assert h'[|h|] == r && origins'[|h|] == n;
    assert Reaches(g, n, n) && !Folded(g, n);
    hide Dag, Folded, ReachesParameter, Below;
    forall c | |g| <= c < |h'| ensures Copy(g, h', origins', tops', nonconsts, c) {
      if c < |h| {
        CopiesSame(g, h, origins, tops, nonconsts, h', origins', tops', nonconsts, c);
      }
    }
  }

  /** A node that is its own stand-in. */
  lemma TracedSelf(g: Graph, h: Graph, origins: seq<Node>, tops: set<Node>, nonconsts: Memo, consts: Memo, n: Node)
    requires Traced(g, h, origins, tops, nonconsts, consts) && n < |g|
    requires n !in nonconsts
    requires forall x: Node :: x < |g| && Below(g, n, x) && ReachesParameter(g, x) ==> x in nonconsts
    ensures Traced(g, h, origins, tops, nonconsts[n := n], consts)
  {
    hide Dag, Folded, ReachesParameter, Below;
    var memo := nonconsts[n := n];
    forall c | |g| <= c < |h| ensures Copy(g, h, origins, tops, memo, c) {
      CopiesSame(g, h, origins, tops, nonconsts, h, origins, tops, memo, c);
    }
  }

  lemma TracedConst(g: Graph, h: Graph, origins: seq<Node>, tops: set<Node>, nonconsts: Memo, consts: Memo, n: Node)
    requires Traced(g, h, origins, tops, nonconsts, consts) && n < |g|
    ensures Traced(g, h, origins, tops, nonconsts, consts[n := n])
  {
    hide Dag, Folded, ReachesParameter, Copies, DownClosed;
  }

  // ---------------------------------------------------------------- reaching a copy

  /** The inputs of any node come from the inputs of its origin, and none of them was made at the top. */
  lemma InputTraced(g: Graph, h: Graph, origins: seq<Node>, tops: set<Node>, nonconsts: Memo, consts: Memo, c: Node,
                    i: nat)
    requires Grown(g, h) && Traced(g, h, origins, tops, nonconsts, consts) && c < |h| && i < |h[c].inputs|
    ensures h[c].inputs[i] < |h| && h[c].inputs[i] !in tops && i < |g[origins[c]].inputs|
    ensures origins[h[c].inputs[i]] == g[origins[c]].inputs[i]
    ensures c >= |g| ==> h[c].bubble.Kind().Operator? && ReachesParameter(g, origins[c])
  {
    hide Folded, ReachesParameter, DownClosed, Remembers;
    if c < |g| {
      assert h[c] == g[c];
    } else {
      assert Copy(g, h, origins, tops, nonconsts, c);
    }
  }

  /** What a folded node depends on comes from what its origin depends on. */
  lemma {:induction false} ReachesOrigins(g: Graph, h: Graph, origins: seq<Node>, tops: set<Node>, nonconsts: Memo,
                                          consts: Memo, c: Node, d: Node)
    requires Grown(g, h) && Traced(g, h, origins, tops, nonconsts, consts) && c < |h| && Reaches(h, c, d)
    ensures d < |h| && Reaches(g, origins[c], origins[d])
    ensures c != d ==> Below(g, origins[c], origins[d]) && d !in tops
    decreases Rank(h, c)
  {
    hide Traced, Folded, ReachesParameter, WellFormed;
    TracedOrigins(g, h, origins, tops, nonconsts, consts);
    GrownDags(g, h);
    if c != d {
      var i :| 0 <= i < |h[c].inputs| && Reaches(h, h[c].inputs[i], d);
      InputTraced(g, h, origins, tops, nonconsts, consts, c, i);
      InputRank(h, c, i);
      ReachesOrigins(g, h, origins, tops, nonconsts, consts, h[c].inputs[i], d);
      assert Reaches(g, g[origins[c]].inputs[i], origins[d]);
    }
  }

  lemma GrownDags(g: Graph, h: Graph)
    requires Grown(g, h)
    ensures Dag(g) && Dag(h) && Extends(g, h)
  {
  }

  lemma CopyIsOperator(g: Graph, h: Graph, origins: seq<Node>, tops: set<Node>, nonconsts: Memo, consts: Memo, c: Node)
    requires Grown(g, h) && Traced(g, h, origins, tops, nonconsts, consts) && |g| <= c < |h|
    ensures !Folded(g, origins[c]) && (h[c].bubble.Kind().Operator? <==> ReachesParameter(g, origins[c]))
    ensures h[c].bubble.Kind().Operator? ==> InputsTraced(g, h, origins, tops, h[c].inputs, origins[c])
    ensures h[c].bubble.Kind().Operator? && c !in tops ==> origins[c] in nonconsts && nonconsts[origins[c]] == c
  {
    hide Folded, ReachesParameter, DownClosed, Remembers, InputsTraced;
    assert Copy(g, h, origins, tops, nonconsts, c);
  }

  lemma AboveReachesParameter(g: Graph, n: Node, a: Node)
    requires Dag(g) && n < |g| && a < |g| && Reaches(g, n, a) && ReachesParameter(g, a)
    ensures ReachesParameter(g, n)
  {
    var p :| 0 <= p < |g| && g[p].bubble.Kind().Parameter? && Reaches(g, a, p);
    ReachesTrans(g, n, a, p);
  }

  /** A node that depends on a Parameter, below the origin of a folded node, has a copy below that folded node. */
  lemma {:induction false} ReachedCopy(g: Graph, h: Graph, origins: seq<Node>, tops: set<Node>, nonconsts: Memo,
                                       consts: Memo, c: Node, a: Node) returns (d: Node)
    requires Grown(g, h) && Traced(g, h, origins, tops, nonconsts, consts) && c < |h|
    requires a < |g| && Reaches(g, origins[c], a) && ReachesParameter(g, a)
    ensures d < |h| && Reaches(h, c, d) && origins[d] == a
    decreases Rank(g, origins[c])
  {
    hide Traced, Folded, ReachesParameter, WellFormed;
    TracedOrigins(g, h, origins, tops, nonconsts, consts);
    GrownDags(g, h);
    if c < |g| {
      ReachesExtends(g, h, c, a);
      return a;
    }
    if origins[c] == a {
      assert Reaches(h, c, c);
      return c;
    }
    AboveReachesParameter(g, origins[c], a);
    CopyIsOperator(g, h, origins, tops, nonconsts, consts, c);
    var i :| 0 <= i < |g[origins[c]].inputs| && Reaches(g, g[origins[c]].inputs[i], a);
    InputRank(g, origins[c], i);
    d := ReachedCopy(g, h, origins, tops, nonconsts, consts, h[c].inputs[i], a);
    assert Reaches(h, c, d);
  }

  // ---------------------------------------------------------------- twice or once

  /** Output `i` is rebuilt in its own right, not on the way down from an earlier output. */
  ghost predicate TopRebuilt(g: Graph, outputs: seq<Node>, i: nat)
    requires Dag(g) && Within(g, outputs) && i < |outputs|
  {
    Rebuilt(g, outputs[i]) && forall j :: 0 <= j < i ==> !Below(g, outputs[j], outputs[i])
  }

  /** Such an output is listed again, or lies below a later output. */
  ghost predicate RebuiltAgain(g: Graph, outputs: seq<Node>)
    requires Dag(g) && Within(g, outputs)
  {
    exists i, j :: 0 <= i < j < |outputs| && TopRebuilt(g, outputs, i) && Reaches(g, outputs[j], outputs[i])
  }

  /** An operator that the code for some folded outputs computes. */
  ghost predicate IsComputed(h: Graph, folded: seq<Node>, c: Node)
    requires Dag(h) && Within(h, folded)
  {
    c < |h| && h[c].bubble.Kind().Operator? && ReachedFrom(h, folded, c)
  }

  /** No two of them were made for the same node. */
  ghost predicate SharesAll(h: Graph, folded: seq<Node>, origins: seq<Node>)
    requires Dag(h) && Within(h, folded) && |origins| == |h|
  {
    forall c: Node, d: Node :: IsComputed(h, folded, c) && IsComputed(h, folded, d) && origins[c] == origins[d] ==>
      c == d
  }

  /** What the loop over the outputs has made of them. */
  ghost predicate OutputsTraced(g: Graph, h: Graph, origins: seq<Node>, tops: set<Node>, outputs: seq<Node>,
                                folded: seq<Node>)
    requires Dag(g) && Within(g, outputs) && |origins| == |h|
  {
    && |folded| == |outputs|
    && (forall i :: 0 <= i < |folded| ==> folded[i] < |h| && origins[folded[i]] == outputs[i])
    && (forall i :: 0 <= i < |folded| && ReachesParameter(g, outputs[i]) ==>
          (folded[i] in tops <==> TopRebuilt(g, outputs, i)))
    && (forall i, j :: 0 <= i < j < |folded| && folded[j] in tops ==> folded[i] != folded[j])
  }

  lemma RebuiltIsOperator(g: Graph, n: Node)
    requires WellFormed(g) && n < |g| && Rebuilt(g, n)
    ensures g[n].bubble.Kind().Operator?
  {
  }

  lemma ComputedBy(h: Graph, folded: seq<Node>, i: nat, c: Node)
    requires Dag(h) && Within(h, folded) && i < |folded| && Reaches(h, folded[i], c)
    requires c < |h| && h[c].bubble.Kind().Operator?
    ensures IsComputed(h, folded, c)
  {
  }

  lemma AgainIsTwice(g: Graph, h: Graph, origins: seq<Node>, tops: set<Node>, nonconsts: Memo, consts: Memo,
                     outputs: seq<Node>, folded: seq<Node>)
    requires Grown(g, h) && Traced(g, h, origins, tops, nonconsts, consts) && Within(g, outputs) && Within(h, folded)
    requires |origins| == |h| && OutputsTraced(g, h, origins, tops, outputs, folded) && RebuiltAgain(g, outputs)
    ensures !SharesAll(h, folded, origins)
  {
    hide Traced, Folded, ReachesParameter, Reaches, IsComputed, Below;
    TracedOrigins(g, h, origins, tops, nonconsts, consts);
    GrownDags(g, h);
    var i, j :| 0 <= i < j < |outputs| && TopRebuilt(g, outputs, i) && Reaches(g, outputs[j], outputs[i]);
    var a, c := outputs[i], folded[i];
    RebuiltIsOperator(g, a);
    CopyIsOperator(g, h, origins, tops, nonconsts, consts, c);
    var d := ReachedCopy(g, h, origins, tops, nonconsts, consts, folded[j], a);
    ReachesOrigins(g, h, origins, tops, nonconsts, consts, folded[j], d);
    if d >= |g| {
      CopyIsOperator(g, h, origins, tops, nonconsts, consts, d);
    }
    ReachesItself(h, c);
    ComputedBy(h, folded, i, c);
    ComputedBy(h, folded, j, d);
  }

  lemma ReachesItself(g: Graph, n: Node)
    requires Dag(g) && n < |g|
    ensures Reaches(g, n, n)
  {
  }

  /** Of two nodes made for one, one made at the top shows an output that is listed again or lies below a later one. */
  lemma TopTwice(g: Graph, h: Graph, origins: seq<Node>, tops: set<Node>, nonconsts: Memo, consts: Memo,
                 outputs: seq<Node>, folded: seq<Node>, c: Node, d: Node)
    requires Grown(g, h) && Traced(g, h, origins, tops, nonconsts, consts) && Within(g, outputs) && Within(h, folded)
    requires |origins| == |h| && OutputsTraced(g, h, origins, tops, outputs, folded)
    requires IsComputed(h, folded, c) && IsComputed(h, folded, d) && c != d && origins[c] == origins[d] && c in tops
    ensures RebuiltAgain(g, outputs)
  {
    hide Traced, Folded, ReachesParameter, Reaches, Below;
    TracedOrigins(g, h, origins, tops, nonconsts, consts);
    GrownDags(g, h);
    var x :| 0 <= x < |folded| && Reaches(h, folded[x], c);
    var y :| 0 <= y < |folded| && Reaches(h, folded[y], d);
    ReachesOrigins(g, h, origins, tops, nonconsts, consts, folded[x], c);
    ReachesOrigins(g, h, origins, tops, nonconsts, consts, folded[y], d);
    CopyIsOperator(g, h, origins, tops, nonconsts, consts, c);
    var a := outputs[x];
    assert c == folded[x] && origins[d] == a && TopRebuilt(g, outputs, x);
    ReachesItself(g, a);
    if y < x {
      assert d == folded[y] && TopRebuilt(g, outputs, y);
    } else if y == x {
      NotBelowItself(g, a);
    } else {
      assert Reaches(g, outputs[y], outputs[x]);
    }
  }

  lemma NotBelowItself(g: Graph, n: Node)
    requires Dag(g) && n < |g|
    ensures !Below(g, n, n)
  {
    if Below(g, n, n) {
      BelowRank(g, n, n);
    }
  }

  /** What is left of the given graph is folded. */
  lemma ComputedIsFolded(g: Graph, h: Graph, folded: seq<Node>, c: Node)
    requires Grown(g, h) && Within(h, folded) && (forall i :: 0 <= i < |folded| ==> Folded(h, folded[i]))
    requires IsComputed(h, folded, c) && c < |g|
    ensures Folded(g, c)
  {
    var x :| 0 <= x < |folded| && Reaches(h, folded[x], c);
    forall m | 0 <= m < |h| && Reaches(h, c, m) && h[m].bubble.Kind().Operator? ensures ReachesParameter(h, m) {
      ReachesTrans(h, folded[x], c, m);
    }
    FoldedExtends(g, h, c);
  }

  lemma TwiceIsAgain(g: Graph, h: Graph, origins: seq<Node>, tops: set<Node>, nonconsts: Memo, consts: Memo,
                     outputs: seq<Node>, folded: seq<Node>)
    requires Grown(g, h) && Traced(g, h, origins, tops, nonconsts, consts) && Within(g, outputs) && Within(h, folded)
    requires |origins| == |h| && OutputsTraced(g, h, origins, tops, outputs, folded)
    requires (forall i :: 0 <= i < |folded| ==> Folded(h, folded[i])) && !SharesAll(h, folded, origins)
    ensures RebuiltAgain(g, outputs)
  {
    hide Traced, Folded, ReachesParameter, Reaches, Below, OutputsTraced, RebuiltAgain;
    TracedOrigins(g, h, origins, tops, nonconsts, consts);
    var c: Node, d: Node :| IsComputed(h, folded, c) && IsComputed(h, folded, d) && origins[c] == origins[d] && c != d;
    if c < |g| {
      ComputedIsFolded(g, h, folded, c);
      CopyIsOperator(g, h, origins, tops, nonconsts, consts, d);
    } else if d < |g| {
      ComputedIsFolded(g, h, folded, d);
      CopyIsOperator(g, h, origins, tops, nonconsts, consts, c);
    } else {
      CopyIsOperator(g, h, origins, tops, nonconsts, consts, c);
      CopyIsOperator(g, h, origins, tops, nonconsts, consts, d);
      if c in tops {
        TopTwice(g, h, origins, tops, nonconsts, consts, outputs, folded, c, d);
      } else {
        TopTwice(g, h, origins, tops, nonconsts, consts, outputs, folded, d, c);
      }
    }
  }

  /** The operators computed come from those of the given graph that the outputs need and that depend on a Parameter. */
  ghost predicate ComputesOriginals(g: Graph, h: Graph, outputs: seq<Node>, folded: seq<Node>, origins: seq<Node>)
    requires Dag(g) && Dag(h) && Within(g, outputs) && Within(h, folded) && |origins| == |h|
  {
    && (forall c: Node :: IsComputed(h, folded, c) ==> IsNeeded(g, outputs, origins[c]))
    && (forall n: Node :: IsNeeded(g, outputs, n) ==> exists c: Node :: IsComputed(h, folded, c) && origins[c] == n)
  }

  ghost predicate IsNeeded(g: Graph, outputs: seq<Node>, n: Node)
    requires Dag(g) && Within(g, outputs)
  {
    n < |g| && g[n].bubble.Kind().Operator? && ReachesParameter(g, n) && ReachedFrom(g, outputs, n)
  }

  lemma ComputedIsNeeded(g: Graph, h: Graph, origins: seq<Node>, tops: set<Node>, nonconsts: Memo, consts: Memo,
                         outputs: seq<Node>, folded: seq<Node>, c: Node)
    requires Grown(g, h) && Traced(g, h, origins, tops, nonconsts, consts) && Within(g, outputs) && Within(h, folded)
    requires |origins| == |h| && OutputsTraced(g, h, origins, tops, outputs, folded)
    requires (forall i :: 0 <= i < |folded| ==> Folded(h, folded[i])) && IsComputed(h, folded, c)
    ensures IsNeeded(g, outputs, origins[c])
  {
    hide Traced, Reaches, Below, Folded, ReachesParameter;
    TracedOrigins(g, h, origins, tops, nonconsts, consts);
    GrownDags(g, h);
    var x :| 0 <= x < |folded| && Reaches(h, folded[x], c);
    ReachesOrigins(g, h, origins, tops, nonconsts, consts, folded[x], c);
    if c < |g| {
      ComputedIsFolded(g, h, folded, c);
      FoldedOperator(g, c);
    } else {
      CopyIsOperator(g, h, origins, tops, nonconsts, consts, c);
      RebuiltIsOperator(g, origins[c]);
    }
  }

  lemma FoldedOperator(g: Graph, n: Node)
    requires Dag(g) && n < |g| && Folded(g, n) && g[n].bubble.Kind().Operator?
    ensures ReachesParameter(g, n)
  {
    ReachesItself(g, n);
  }

  lemma NeededIsComputed(g: Graph, h: Graph, origins: seq<Node>, tops: set<Node>, nonconsts: Memo, consts: Memo,
                         outputs: seq<Node>, folded: seq<Node>, n: Node) returns (c: Node)
    requires Grown(g, h) && Traced(g, h, origins, tops, nonconsts, consts) && Within(g, outputs) && Within(h, folded)
    requires |origins| == |h| && OutputsTraced(g, h, origins, tops, outputs, folded) && IsNeeded(g, outputs, n)
    ensures IsComputed(h, folded, c) && origins[c] == n
  {
    hide Traced, Reaches, Below, Folded, ReachesParameter;
    TracedOrigins(g, h, origins, tops, nonconsts, consts);
    GrownDags(g, h);
    var x :| 0 <= x < |outputs| && Reaches(g, outputs[x], n);
    c := ReachedCopy(g, h, origins, tops, nonconsts, consts, folded[x], n);
    if c >= |g| {
      CopyIsOperator(g, h, origins, tops, nonconsts, consts, c);
    }
    ComputedBy(h, folded, x, c);
  }

  lemma Shared(g: Graph, h: Graph, origins: seq<Node>, tops: set<Node>, nonconsts: Memo, consts: Memo,
               outputs: seq<Node>, folded: seq<Node>)
    requires Grown(g, h) && Traced(g, h, origins, tops, nonconsts, consts) && Within(g, outputs) && Within(h, folded)
    requires |origins| == |h| && OutputsTraced(g, h, origins, tops, outputs, folded)
    requires forall i :: 0 <= i < |folded| ==> Folded(h, folded[i])
    ensures SharesAll(h, folded, origins) <==> !RebuiltAgain(g, outputs)
    ensures ComputesOriginals(g, h, outputs, folded, origins)
  {
    hide Traced, Folded, OutputsTraced, RebuiltAgain, SharesAll, IsNeeded, ReachedFrom, Dag, WellFormed;
    GrownDags(g, h);
    if RebuiltAgain(g, outputs) {
      AgainIsTwice(g, h, origins, tops, nonconsts, consts, outputs, folded);
    }
    if !SharesAll(h, folded, origins) {
      TwiceIsAgain(g, h, origins, tops, nonconsts, consts, outputs, folded);
    }
    forall c: Node | IsComputed(h, folded, c) ensures IsNeeded(g, outputs, origins[c]) {
      ComputedIsNeeded(g, h, origins, tops, nonconsts, consts, outputs, folded, c);
    }
    forall n: Node | IsNeeded(g, outputs, n) ensures exists c: Node :: IsComputed(h, folded, c) && origins[c] == n {
      var c := NeededIsComputed(g, h, origins, tops, nonconsts, consts, outputs, folded, n);
    }
  }

  // ---------------------------------------------------------------- an output listed twice

  /** An input, a constant, an operator on the constant, and an operator on the input and that. */
  const LISTED_TWICE: Graph := [
    Record(Bubble(PARAMETER, "x", map[]), []), Record(Bubble(CONST, "c", map[VALUE := EMPTY]), []),
    Record(Bubble("f", "y", map[]), [1]), Record(Bubble("g", "z", map[]), [0, 2])]

  lemma ListedTwiceIsGraph()
    ensures WellFormed(LISTED_TWICE) && Within(LISTED_TWICE, [3, 3])
  {
    assert IsRanking(LISTED_TWICE, [0, 0, 1, 2]);
  }

  lemma ListedTwiceIsRebuilt()
    requires Dag(LISTED_TWICE)
    ensures Rebuilt(LISTED_TWICE, 3)
  {
    var g := LISTED_TWICE;
    hide Dag, Reaches;
    ReachesItself(g, 0);
    ReachesItself(g, 2);
    ReachesInput(g, 3, 0, 0);
    ReachesInput(g, 3, 1, 2);
    ReachesOver(g, 2, 1, 0);
    ReachesLeaf(g, 1, 0);
    assert ReachesParameter(g, 3) && !ReachesParameter(g, 2);
  }

  /** Listing the last one twice makes the code compute it twice. */
  lemma ListedTwiceExample()
    ensures WellFormed(LISTED_TWICE) && Within(LISTED_TWICE, [3, 3])
    ensures RebuiltAgain(LISTED_TWICE, [3, 3]) && !RebuiltAgain(LISTED_TWICE, [3])
  {
    hide Dag, Reaches, Rebuilt, WellFormed;
    ListedTwiceIsGraph();
    DagOf(LISTED_TWICE);
    ListedTwiceIsRebuilt();
    ReachesItself(LISTED_TWICE, 3);
    assert TopRebuilt(LISTED_TWICE, [3, 3], 0) && Reaches(LISTED_TWICE, [3, 3][1], [3, 3][0]);
  }

  lemma DagOf(g: Graph)
    requires WellFormed(g)
    ensures Dag(g)
  {
  }
}
