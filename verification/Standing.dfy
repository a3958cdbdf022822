/** What constant folding is judged by: when a node of the grown graph stands for one of the given graph. */
module Standing {
  import opened Tensors
  import opened Graphs

  // ---------------------------------------------------------------- what folding is judged by

  ghost predicate ReachesParameter(g: Graph, n: Node)
    requires Dag(g) && n < |g|
  {
    exists p :: 0 <= p < |g| && g[p].bubble.Kind().Parameter? && Reaches(g, n, p)
  }

  /** A node the compiler accepts: no Variable, no Const without a value, no operator nobody registered. */
  predicate Accepted(k: Kernels, b: Bubble) {
    match b.Kind()
    case Parameter => true
    case Const => b.HasValue()
    case Variable => false
    case Operator => k.supports(b.op)
  }

  ghost predicate Compilable(g: Graph, k: Kernels, n: Node)
    requires Dag(g) && n < |g|
  {
    forall m :: 0 <= m < |g| && Reaches(g, n, m) ==> Accepted(k, g[m].bubble)
  }

  /** Folded all the way down: the operators that are left all depend on a Parameter. */
  ghost predicate Folded(g: Graph, n: Node)
    requires Dag(g) && n < |g|
  {
    forall m :: 0 <= m < |g| && Reaches(g, n, m) && g[m].bubble.Kind().Operator? ==> ReachesParameter(g, m)
  }

  /** `c` in `h` stands for `n` in `g`: same value whatever the inputs hold, same Parameters, same verdict. */
  ghost predicate Represents(h: Graph, c: Node, g: Graph, n: Node, k: Kernels)
    requires Dag(g) && Dag(h) && n < |g| && c < |h|
  {
    && (forall env :: Eval(h, k, env, c) == Eval(g, k, env, n))
    && (Compilable(h, k, c) <==> Compilable(g, k, n))
    && (forall p :: 0 <= p < |h| && h[p].bubble.Kind().Parameter? ==> (Reaches(h, c, p) <==> Reaches(g, n, p)))
  }

  /** `h` is `g` with nodes added, none of them a Parameter. */
  ghost predicate Grown(g: Graph, h: Graph) {
    && WellFormed(g) && WellFormed(h) && Extends(g, h)
    && forall p :: |g| <= p < |h| ==> h[p].bubble.Kind().Const? || h[p].bubble.Kind().Operator?
  }

  /** What folding returns for `n`: an equal node, fully folded, and a Const when no Parameter is reachable. */
  ghost predicate Stands(h: Graph, c: Node, g: Graph, n: Node, k: Kernels)
    requires Grown(g, h)
  {
    && n < |g| && c < |h| && Represents(h, c, g, n, k) && Folded(h, c)
    && (h[c].bubble.Kind().Const? <==> !ReachesParameter(g, n))
  }

  // ---------------------------------------------------------------- lemmas

  lemma ReachesInput(g: Graph, n: Node, i: nat, m: Node)
    requires Dag(g) && n < |g| && i < |g[n].inputs| && Reaches(g, g[n].inputs[i], m)
    ensures Reaches(g, n, m)
  {
  }

  lemma CompilableInputs(g: Graph, k: Kernels, n: Node)
    requires Dag(g) && n < |g|
    ensures Compilable(g, k, n) <==>
            Accepted(k, g[n].bubble) && forall i :: 0 <= i < |g[n].inputs| ==> Compilable(g, k, g[n].inputs[i])
  {
  }

  lemma StandsExtends(h: Graph, c: Node, g: Graph, n: Node, k: Kernels, h': Graph)
    requires Grown(g, h) && Stands(h, c, g, n, k) && Grown(g, h') && Extends(h, h')
    ensures Stands(h', c, g, n, k)
  {
    forall env ensures Eval(h', k, env, c) == Eval(h, k, env, c) {
      EvalExtends(h, h', k, env, c);
    }
    forall m: Node ensures Reaches(h', c, m) <==> Reaches(h, c, m)
                   ensures Reaches(h, c, m) ==> m < |h| && h'[m] == h[m]
    {
      ReachesExtends(h, h', c, m);
      if Reaches(h, c, m) { ReachesRank(h, c, m); }
    }
    forall m | 0 <= m < |h| && ReachesParameter(h, m) ensures ReachesParameter(h', m) {
      ReachesParameterExtends(h, h', m);
    }
  }

  lemma ReachesParameterExtends(h: Graph, h': Graph, m: Node)
    requires Dag(h) && Dag(h') && Extends(h, h') && m < |h| && ReachesParameter(h, m)
    ensures ReachesParameter(h', m)
  {
    var p :| 0 <= p < |h| && h[p].bubble.Kind().Parameter? && Reaches(h, m, p);
    ReachesExtends(h, h', m, p);
    assert h'[p] == h[p];
  }

  /** An unfolded endpoint stands for itself. */
  lemma EndpointStands(h: Graph, g: Graph, n: Node, k: Kernels)
    requires Grown(g, h) && n < |g| && (g[n].bubble.Kind().Parameter? || g[n].bubble.Kind().Const?)
    ensures Stands(h, n, g, n, k)
    ensures ReachesParameter(g, n) <==> g[n].bubble.Kind().Parameter?
  {
  }

  /** The inputs of `c` in `h` stand for the inputs of `n` in `g`. */
  ghost predicate InputsStand(h: Graph, c: Node, g: Graph, n: Node, k: Kernels)
    requires Grown(g, h)
  {
    && n < |g| && c < |h| && |h[c].inputs| == |g[n].inputs|
    && forall i :: 0 <= i < |g[n].inputs| ==> Stands(h, h[c].inputs[i], g, g[n].inputs[i], k)
  }

  lemma OperatorValue(h: Graph, c: Node, g: Graph, n: Node, k: Kernels, env: Env)
    requires Grown(g, h) && InputsStand(h, c, g, n, k)
    requires h[c].bubble == g[n].bubble && g[n].bubble.Kind().Operator?
    ensures Eval(h, k, env, c) == Eval(g, k, env, n)
  {
    EvalOperator(h, k, env, c);
    EvalOperator(g, k, env, n);
    assert EvalAll(h, k, env, h[c].inputs) == EvalAll(g, k, env, g[n].inputs);
  }

  lemma OperatorVerdict(h: Graph, c: Node, g: Graph, n: Node, k: Kernels)
    requires Grown(g, h) && InputsStand(h, c, g, n, k) && h[c].bubble == g[n].bubble
    ensures Compilable(h, k, c) <==> Compilable(g, k, n)
  {
    CompilableInputs(h, k, c);
    CompilableInputs(g, k, n);
  }

  lemma OperatorParameter(h: Graph, c: Node, g: Graph, n: Node, k: Kernels, p: Node)
    requires Grown(g, h) && InputsStand(h, c, g, n, k)
    requires h[c].bubble == g[n].bubble && g[n].bubble.Kind().Operator?
    requires p < |h| && h[p].bubble.Kind().Parameter?
    ensures Reaches(h, c, p) <==> Reaches(g, n, p)
  {
  }

  lemma OperatorFolded(h: Graph, c: Node)
    requires Dag(h) && c < |h| && ReachesParameter(h, c)
    requires forall i :: 0 <= i < |h[c].inputs| ==> Folded(h, h[c].inputs[i])
    ensures Folded(h, c)
  {
  }

  lemma OperatorRepresents(h: Graph, c: Node, g: Graph, n: Node, k: Kernels)
    requires Grown(g, h) && InputsStand(h, c, g, n, k)
    requires h[c].bubble == g[n].bubble && g[n].bubble.Kind().Operator?
    ensures Represents(h, c, g, n, k)
  {
    forall env ensures Eval(h, k, env, c) == Eval(g, k, env, n) {
      OperatorValue(h, c, g, n, k, env);
    }
    OperatorVerdict(h, c, g, n, k);
    forall p | 0 <= p < |h| && h[p].bubble.Kind().Parameter? ensures Reaches(h, c, p) <==> Reaches(g, n, p) {
      OperatorParameter(h, c, g, n, k, p);
    }
  }

  lemma ReachesParameterByInput(g: Graph, n: Node, i: nat)
    requires Dag(g) && n < |g| && i < |g[n].inputs| && ReachesParameter(g, g[n].inputs[i])
    ensures ReachesParameter(g, n)
  {
    var p :| 0 <= p < |g| && g[p].bubble.Kind().Parameter? && Reaches(g, g[n].inputs[i], p);
    ReachesInput(g, n, i, p);
  }

  lemma RepresentsParameter(h: Graph, c: Node, g: Graph, n: Node, k: Kernels)
    requires Grown(g, h) && n < |g| && c < |h| && Represents(h, c, g, n, k)
    ensures ReachesParameter(h, c) <==> ReachesParameter(g, n)
  {
  }

  /** An operator over stand-ins for the inputs of `n` stands for `n`, as long as a Parameter is reachable. */
  lemma OperatorStands(h: Graph, c: Node, g: Graph, n: Node, k: Kernels, i: nat)
    requires Grown(g, h) && InputsStand(h, c, g, n, k)
    requires h[c].bubble == g[n].bubble && g[n].bubble.Kind().Operator?
    requires i < |g[n].inputs| && ReachesParameter(g, g[n].inputs[i])
    ensures Stands(h, c, g, n, k) && ReachesParameter(g, n)
  {
    OperatorRepresents(h, c, g, n, k);
    ReachesParameterByInput(g, n, i);
    RepresentsParameter(h, c, g, n, k);
    OperatorFolded(h, c);
  }

  /** The Const computed from constant inputs stands for the operator. */
  lemma ComputedStands(h: Graph, g: Graph, n: Node, k: Kernels, cs: seq<Node>, values: seq<Tensor>)
    requires Grown(g, h) && n < |g| && g[n].bubble.Kind().Operator? && k.supports(g[n].bubble.op)
    requires |cs| == |values| == |g[n].inputs|
    requires forall i :: 0 <= i < |cs| ==>
               && Stands(h, cs[i], g, g[n].inputs[i], k) && !ReachesParameter(g, g[n].inputs[i])
               && h[cs[i]].bubble.HasValue() && values[i] == h[cs[i]].bubble.Value()
    ensures var h' := h + [Record(Data(g[n].bubble.name, k.result(g[n].bubble, values)), [])];
            Grown(g, h') && Extends(h, h') && Stands(h', |h|, g, n, k) && !ReachesParameter(g, n)
  {
    var r := Record(Data(g[n].bubble.name, k.result(g[n].bubble, values)), []);
    DagAppend(h, r);
    var h', c := h + [r], |h|;
    assert h'[c] == r;
    forall env ensures Eval(h', k, env, c) == Eval(g, k, env, n) {
      EvalOperator(g, k, env, n);
      forall i | 0 <= i < |cs| ensures values[i] == Eval(g, k, env, g[n].inputs[i]) {
        assert Eval(h, k, env, cs[i]) == values[i];
      }
      assert values == EvalAll(g, k, env, g[n].inputs);
    }
    forall m ensures Reaches(h', c, m) <==> m == c {}
    assert Compilable(h', k, c);
    ComputedInputs(h, g, n, k, cs);
    assert forall p :: 0 <= p < |h'| && h'[p].bubble.Kind().Parameter? ==> p < |g| && h'[p] == g[p];
  }

  lemma ComputedInputs(h: Graph, g: Graph, n: Node, k: Kernels, cs: seq<Node>)
    requires Grown(g, h) && n < |g| && g[n].bubble.Kind().Operator? && k.supports(g[n].bubble.op)
    requires |cs| == |g[n].inputs|
    requires forall i :: 0 <= i < |cs| ==>
               && Stands(h, cs[i], g, g[n].inputs[i], k) && !ReachesParameter(g, g[n].inputs[i])
               && h[cs[i]].bubble.HasValue()
    ensures Compilable(g, k, n) && !ReachesParameter(g, n)
  {
  }

  lemma StandsWithin(h: Graph, c: Node, g: Graph, n: Node, k: Kernels)
    requires Grown(g, h) && Stands(h, c, g, n, k)
    ensures n < |g| && c < |h|
    ensures h[c].bubble.Kind().Const? <==> !ReachesParameter(g, n)
  {
  }
}
