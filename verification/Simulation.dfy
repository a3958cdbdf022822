/**
 * The invariants of the backward scheduling loop of `Compiler::compile`, on node names: what the
 * simulated stack, its index and the code emitted so far mean, and what each case keeps.
 */
module Simulation {
  import opened Collections
  import opened Tensors
  import opened Graphs
  import opened Standing
  import opened Machine

  // ---------------------------------------------------------------- working_nodes and unsolved_node_count

  /** `working` maps every node of `sim` to its first position, and nothing else. */
  ghost predicate FirstIndex(sim: seq<Node>, working: map<Node, nat>) {
    && (forall n :: n in sim <==> n in working)
    && (forall n :: n in working ==> working[n] < |sim| && sim[working[n]] == n && n !in sim[..working[n]])
  }

  lemma FirstIndexPush(sim: seq<Node>, working: map<Node, nat>, n: Node)
    requires FirstIndex(sim, working)
    ensures FirstIndex(sim + [n], if n in working then working else working[n := |sim|])
  {
  }

  lemma FirstIndexPop(sim: seq<Node>, working: map<Node, nat>)
    requires FirstIndex(sim, working) && sim != []
    ensures var i := |sim| - 1;
            FirstIndex(sim[..i], if working[sim[i]] == i then working - {sim[i]} else working)
  {
  }

  /** Exchanging a unique top with the last occurrence of another node: the only swaps the loop makes. */
  function Swapped<T>(s: seq<T>, i: nat, j: nat): seq<T>
    requires i < |s| && j < |s|
  {
    s[i := s[j]][j := s[i]]
  }

  lemma FirstIndexSwap(sim: seq<Node>, working: map<Node, nat>, j: nat)
    requires FirstIndex(sim, working) && j < |sim| - 1
    requires working[sim[|sim| - 1]] == |sim| - 1
    requires forall q :: j < q < |sim| ==> sim[q] != sim[j]
    ensures var i := |sim| - 1;
            var w := working[sim[i] := j];
            FirstIndex(Swapped(sim, i, j), if w[sim[j]] == j then w[sim[j] := i] else w)
  {
    var i := |sim| - 1;
    var s := Swapped(sim, i, j);
    var w0 := working[sim[i] := j];
    var w := if w0[sim[j]] == j then w0[sim[j] := i] else w0;
    assert forall q :: 0 <= q < i ==> sim[q] != sim[i] by {
      assert forall q :: 0 <= q < i ==> sim[..i][q] == sim[q];
    }
    forall m ensures m in s <==> m in w {
      if m in w { assert s[if m == sim[i] then j else if m == sim[j] then i else working[m]] == m; }
    }
    forall m | m in w ensures w[m] < |s| && s[w[m]] == m && m !in s[..w[m]] {
      forall q | 0 <= q < w[m] ensures s[q] != m {
        if m != sim[i] && q < working[m] { assert sim[..working[m]][q] == sim[q]; }
      }
    }
  }

  ghost function Sum(w: Node -> nat, s: seq<Node>): nat {
    if s == [] then 0 else Sum(w, s[..|s| - 1]) + w(s[|s| - 1])
  }

  lemma SumOne(w: Node -> nat, n: Node)
    ensures Sum(w, [n]) == w(n)
  {
    assert [n][..0] == [];
  }

  lemma {:induction false} SumUpdate(w: Node -> nat, s: seq<Node>, i: nat, n: Node)
    requires i < |s|
    ensures Sum(w, s[i := n]) == Sum(w, s) - w(s[i]) + w(n)
  {
    var last := |s| - 1;
    if i < last {
      SumUpdate(w, s[..last], i, n);
      assert s[i := n][..last] == s[..last][i := n];
    } else {
      assert s[i := n][..last] == s[..last];
    }
  }

  lemma SumSwapped(w: Node -> nat, s: seq<Node>, i: nat, j: nat)
    requires i < |s| && j < |s|
    ensures Sum(w, Swapped(s, i, j)) == Sum(w, s)
  {
    SumUpdate(w, s, i, s[j]);
    SumUpdate(w, s[i := s[j]], j, s[i]);
  }

  lemma {:induction false} SumAppend(w: Node -> nat, s: seq<Node>, t: seq<Node>)
    ensures Sum(w, s + t) == Sum(w, s) + Sum(w, t)
    decreases |t|
  {
    if t == [] {
      assert s + t == s;
    } else {
      assert (s + t)[..|s + t| - 1] == s + t[..|t| - 1];
      SumAppend(w, s, t[..|t| - 1]);
    }
  }

  lemma {:induction false} SumAtLeast(w: Node -> nat, s: seq<Node>, i: nat)
    requires i < |s|
    ensures w(s[i]) <= Sum(w, s)
  {
    if i < |s| - 1 {
      SumAtLeast(w, s[..|s| - 1], i);
    }
  }

  lemma {:induction false} SumZero(w: Node -> nat, s: seq<Node>)
    requires forall i :: 0 <= i < |s| ==> w(s[i]) == 0
    ensures Sum(w, s) == 0
  {
    if s != [] {
      SumZero(w, s[..|s| - 1]);
    }
  }

  /** 1 for everything but a Parameter. */
  ghost function Unsolved(g: Graph): Node -> nat {
    (n: Node) => if n < |g| && !g[n].bubble.Kind().Parameter? then 1 else 0
  }

  // ---------------------------------------------------------------- termination

  /** The size of the tree a node unfolds to: what a pop or an expansion uses up. */
  ghost function Weight(g: Graph, n: Node): (w: nat)
    requires Dag(g) && n < |g|
    ensures w >= 1
    decreases Rank(g, n), 1
  {
    1 + WeightOfInputs(g, n, |g[n].inputs|)
  }

  ghost function WeightOfInputs(g: Graph, n: Node, i: nat): nat
    requires Dag(g) && n < |g| && i <= |g[n].inputs|
    decreases Rank(g, n), 0, i
  {
    if i == 0 then 0
    else WeightOfInputs(g, n, i - 1) + Weight(g, g[n].inputs[i - 1])
  }

  ghost function Weights(g: Graph): Node -> nat
    requires Dag(g)
  {
    (n: Node) => if n < |g| then Weight(g, n) else 0
  }

  lemma {:induction false} WeightOfInputsIsSum(g: Graph, n: Node, i: nat)
    requires Dag(g) && n < |g| && i <= |g[n].inputs|
    ensures WeightOfInputs(g, n, i) == Sum(Weights(g), g[n].inputs[..i])
    decreases i
  {
    if i > 0 {
      WeightOfInputsIsSum(g, n, i - 1);
      assert g[n].inputs[..i][..i - 1] == g[n].inputs[..i - 1];
    }
  }

  /** Expanding the top into its inputs lightens the stack. */
  lemma ExpandLightens(g: Graph, s: seq<Node>, n: Node)
    requires Dag(g) && n < |g|
    ensures Sum(Weights(g), s + g[n].inputs) < Sum(Weights(g), s + [n])
  {
    WeightOfInputsIsSum(g, n, |g[n].inputs|);
    assert g[n].inputs[..|g[n].inputs|] == g[n].inputs;
    SumAppend(Weights(g), s, g[n].inputs);
    SumAppend(Weights(g), s, [n]);
    assert [n][..0] == [];
    assert Sum(Weights(g), [n]) == Weight(g, n);
  }

  lemma PopLightens(g: Graph, s: seq<Node>)
    requires Dag(g) && Within(g, s) && s != []
    ensures Sum(Weights(g), s[..|s| - 1]) < Sum(Weights(g), s)
  {
  }

  // ---------------------------------------------------------------- what the emitted code means

  /** Node names as stack entries: an operator must find exactly its own inputs. */
  function Symbolic(g: Graph, segment: seq<Node>): Domain<Node> {
    Domain(segment, (n: Node, b: Bubble, args: seq<Node>) =>
             if n < |g| && b.Kind().Operator? && g[n] == Record(b, args) then Some(n) else None)
  }

  function Reversed<T>(s: seq<T>): (r: seq<T>)
    ensures |r| == |s|
  {
    if s == [] then [] else [s[|s| - 1]] + Reversed(s[..|s| - 1])
  }

  /** Emitting one more instruction puts it in front of the code that will run. */
  lemma ReversedEmit<T>(s: seq<T>, c: T)
    ensures Reversed(s + [c]) == [c] + Reversed(s)
  {
    assert (s + [c])[..|s|] == s;
  }

  lemma RunEmit(d: Domain<Node>, code: seq<Instruction>, c: Instruction, s: seq<Node>, outputs: seq<Node>)
    requires Step(d, c, s).Some? && Run(d, Reversed(code), Step(d, c, s).value) == Some(outputs)
    ensures Run(d, Reversed(code + [c]), s) == Some(outputs)
  {
    ReversedEmit(code, c);
    assert ([c] + Reversed(code))[1..] == Reversed(code);
  }

  /** A longer data segment runs old code the same way. */
  lemma {:induction false} RunMoreData(g: Graph, segment: seq<Node>, more: seq<Node>, code: seq<Instruction>,
                                       s: seq<Node>)
    requires Run(Symbolic(g, segment), code, s).Some?
    ensures Run(Symbolic(g, segment + more), code, s) == Run(Symbolic(g, segment), code, s)
    decreases |code|
  {
    if code != [] {
      var d, e := Symbolic(g, segment), Symbolic(g, segment + more);
      assert Step(e, code[0], s) == Step(d, code[0], s);
      RunMoreData(g, segment, more, code[1..], Step(d, code[0], s).value);
    }
  }

  /** The nodes computed by operator instructions, in emission order. */
  function Computed(code: seq<Instruction>): seq<Node> {
    if code == [] then []
    else
      var c := code[|code| - 1];
      Computed(code[..|code| - 1]) + if c.Operate? then [c.node] else []
  }

  lemma ComputedEmit(code: seq<Instruction>, c: Instruction)
    ensures Computed(code + [c]) == Computed(code) + if c.Operate? then [c.node] else []
  {
    assert (code + [c])[..|code|] == code;
  }

  // ---------------------------------------------------------------- the loop invariant

  /** The state of the loop: simulated stack, emitted code, data segment, and the nodes dealt with. */
  datatype State = State(sim: seq<Node>, code: seq<Instruction>, segment: seq<Node>, done: set<Node>)

  /** Every reachable node is still to be reached from the simulated stack, or has been dealt with. */
  ghost predicate Covers(g: Graph, outputs: seq<Node>, sim: seq<Node>, done: set<Node>)
    requires Dag(g) && Within(g, outputs) && Within(g, sim)
  {
    && (forall m :: ReachedFrom(g, outputs, m) ==> m in done || ReachedFrom(g, sim, m))
    && (forall m :: ReachedFrom(g, sim, m) ==> ReachedFrom(g, outputs, m))
    && (forall m :: m in done ==> ReachedFrom(g, outputs, m))
  }

  /** Each operator dealt with was computed once, and nothing still pending needs it. */
  ghost predicate ComputesOnce(g: Graph, code: seq<Instruction>, sim: seq<Node>, done: set<Node>)
    requires Dag(g) && Within(g, sim)
  {
    && Distinct(Computed(code))
    && (forall m :: m in Computed(code) <==> m in done && m < |g| && g[m].bubble.Kind().Operator?)
    && (forall m :: m in Computed(code) ==> !ReachedFrom(g, sim, m))
  }

  ghost predicate Invariant(g: Graph, k: Kernels, outputs: seq<Node>, st: State)
    requires WellFormed(g) && Within(g, outputs)
  {
    && Within(g, st.sim)
    && Run(Symbolic(g, st.segment), Reversed(st.code), st.sim) == Some(outputs)
    && Covers(g, outputs, st.sim, st.done)
    && ComputesOnce(g, st.code, st.sim, st.done)
    && (forall m :: m in st.done ==> m < |g| && !g[m].bubble.Kind().Parameter? && Accepted(k, g[m].bubble))
  }

  // ---------------------------------------------------------------- what each case keeps

  lemma ReachedConcat(g: Graph, s: seq<Node>, t: seq<Node>, m: Node)
    requires Dag(g) && Within(g, s) && Within(g, t)
    ensures Within(g, s + t)
    ensures ReachedFrom(g, s + t, m) <==> ReachedFrom(g, s, m) || ReachedFrom(g, t, m)
  {
    if ReachedFrom(g, s, m) {
      var i :| 0 <= i < |s| && Reaches(g, s[i], m);
      assert (s + t)[i] == s[i];
    }
    if ReachedFrom(g, t, m) {
      var i :| 0 <= i < |t| && Reaches(g, t[i], m);
      assert (s + t)[|s| + i] == t[i];
    }
  }

  lemma ReachedSwapped(g: Graph, s: seq<Node>, i: nat, j: nat, m: Node)
    requires Dag(g) && Within(g, s) && i < |s| && j < |s|
    ensures Within(g, Swapped(s, i, j))
    ensures ReachedFrom(g, Swapped(s, i, j), m) <==> ReachedFrom(g, s, m)
  {
    var t := Swapped(s, i, j);
    if ReachedFrom(g, s, m) {
      var q :| 0 <= q < |s| && Reaches(g, s[q], m);
      assert t[if q == i then j else if q == j then i else q] == s[q];
    }
  }

  /** The three cases that only rearrange: what is reachable, and what has been dealt with, stays. */
  lemma RearrangeKeeps(g: Graph, k: Kernels, outputs: seq<Node>, st: State, sim: seq<Node>, c: Instruction)
    requires WellFormed(g) && Within(g, outputs) && Invariant(g, k, outputs, st) && Within(g, sim) && !c.Operate?
    requires Step(Symbolic(g, st.segment), c, sim) == Some(st.sim)
    requires forall m :: ReachedFrom(g, sim, m) <==> ReachedFrom(g, st.sim, m)
    ensures Invariant(g, k, outputs, st.(sim := sim, code := st.code + [c]))
  {
    RunEmit(Symbolic(g, st.segment), st.code, c, sim, outputs);
    ComputedEmit(st.code, c);
  }

  /** Case 1: the top also lies further down, so it is fetched from there. */
  lemma DuplicateKeeps(g: Graph, k: Kernels, outputs: seq<Node>, st: State, at: nat)
    requires WellFormed(g) && Within(g, outputs) && Invariant(g, k, outputs, st)
    requires at < |st.sim| - 1 && st.sim[at] == st.sim[|st.sim| - 1]
    ensures var sim := st.sim[..|st.sim| - 1];
            Invariant(g, k, outputs, st.(sim := sim, code := st.code + [Push(at)]))
  {
    var i := |st.sim| - 1;
    var sim := st.sim[..i];
    assert st.sim == sim + [sim[at]];
    forall m ensures ReachedFrom(g, sim, m) <==> ReachedFrom(g, st.sim, m) {
      ReachedConcat(g, sim, [sim[at]], m);
    }
    RearrangeKeeps(g, k, outputs, st, sim, Push(at));
  }

  /** Cases 2 and 3: two entries change places. */
  lemma SwapKeeps(g: Graph, k: Kernels, outputs: seq<Node>, st: State, i: nat, j: nat)
    requires WellFormed(g) && Within(g, outputs) && Invariant(g, k, outputs, st)
    requires i < |st.sim| && j < |st.sim|
    ensures Invariant(g, k, outputs, st.(sim := Swapped(st.sim, i, j), code := st.code + [Swap(i, j)]))
  {
    var sim := Swapped(st.sim, i, j);
    forall m ensures ReachedFrom(g, sim, m) <==> ReachedFrom(g, st.sim, m) {
      ReachedSwapped(g, st.sim, i, j, m);
    }
    assert Swapped(sim, i, j) == st.sim;
    RearrangeKeeps(g, k, outputs, st, sim, Swap(i, j));
  }

  /** Taking `n` off the stack, with nothing else lost or gained, deals with it. */
  lemma DealtWith(g: Graph, outputs: seq<Node>, sim: seq<Node>, sim': seq<Node>, done: set<Node>, n: Node)
    requires Dag(g) && Within(g, outputs) && Within(g, sim) && Within(g, sim') && Covers(g, outputs, sim, done)
    requires forall m :: ReachedFrom(g, sim, m) <==> ReachedFrom(g, sim', m) || m == n
    ensures Covers(g, outputs, sim', done + {n})
  {
    hide ReachedFrom;
    assert ReachedFrom(g, sim, n);
  }

  lemma OnceKept(g: Graph, code: seq<Instruction>, c: Instruction, sim: seq<Node>, sim': seq<Node>, done: set<Node>,
                 n: Node)
    requires Dag(g) && Within(g, sim) && Within(g, sim') && ComputesOnce(g, code, sim, done) && n < |g|
    requires forall m :: ReachedFrom(g, sim, m) <==> ReachedFrom(g, sim', m) || m == n
    requires if g[n].bubble.Kind().Operator? then c.Operate? && c.node == n && !ReachedFrom(g, sim', n) else !c.Operate?
    ensures ComputesOnce(g, code + [c], sim', done + {n})
  {
    hide ReachedFrom;
    ComputedEmit(code, c);
    assert ReachedFrom(g, sim, n);
  }

  lemma TopReached(g: Graph, sim: seq<Node>, n: Node)
    requires Dag(g) && Within(g, sim) && n < |g|
    ensures forall m :: ReachedFrom(g, sim + [n], m) <==> ReachedFrom(g, sim, m) || Reaches(g, n, m)
  {
    forall m ensures ReachedFrom(g, sim + [n], m) <==> ReachedFrom(g, sim, m) || Reaches(g, n, m) {
      ReachedConcat(g, sim, [n], m);
      assert ReachedFrom(g, [n], m) <==> Reaches(g, [n][0], m);
    }
  }

  /** Case 2-0: a Const comes from the data segment. */
  lemma ConstKeeps(g: Graph, k: Kernels, outputs: seq<Node>, st: State, segment: seq<Node>, index: nat)
    requires WellFormed(g) && Within(g, outputs) && Invariant(g, k, outputs, st) && st.sim != []
    requires st.segment <= segment && index < |segment| && segment[index] == st.sim[|st.sim| - 1]
    requires g[segment[index]].bubble.Kind().Const? && Accepted(k, g[segment[index]].bubble)
    ensures var i := |st.sim| - 1;
            Invariant(g, k, outputs, State(st.sim[..i], st.code + [DataSegment(index)], segment, st.done + {st.sim[i]}))
  {
    hide Covers, ComputesOnce, Run, Reversed, Accepted, ReachedFrom, Step;
    var i, n := |st.sim| - 1, segment[index];
    var sim := st.sim[..i];
    assert st.sim == sim + [n];
    LeafReach(g, sim, n);
    DealtWith(g, outputs, st.sim, sim, st.done, n);
    OnceKept(g, st.code, DataSegment(index), st.sim, sim, st.done, n);
    ConstRuns(g, outputs, st, segment, index);
  }

  lemma LeafReach(g: Graph, sim: seq<Node>, n: Node)
    requires Dag(g) && Within(g, sim) && n < |g| && g[n].inputs == []
    ensures forall m :: ReachedFrom(g, sim + [n], m) <==> ReachedFrom(g, sim, m) || m == n
  {
    TopReached(g, sim, n);
    hide ReachedFrom;
    assert forall m :: Reaches(g, n, m) <==> m == n;
  }

  lemma ConstRuns(g: Graph, outputs: seq<Node>, st: State, segment: seq<Node>, index: nat)
    requires Run(Symbolic(g, st.segment), Reversed(st.code), st.sim) == Some(outputs)
    requires st.sim != [] && st.segment <= segment && index < |segment| && segment[index] == st.sim[|st.sim| - 1]
    ensures Run(Symbolic(g, segment), Reversed(st.code + [DataSegment(index)]), st.sim[..|st.sim| - 1]) == Some(outputs)
  {
    var sim := st.sim[..|st.sim| - 1];
    assert st.sim == sim + [segment[index]];
    assert segment == st.segment + segment[|st.segment|..];
    RunMoreData(g, st.segment, segment[|st.segment|..], Reversed(st.code), st.sim);
    RunEmit(Symbolic(g, segment), st.code, DataSegment(index), sim, outputs);
  }

  /** Case 4: the operator is emitted and replaced by its inputs. */
  lemma OperatorKeeps(g: Graph, k: Kernels, outputs: seq<Node>, st: State, n: Node)
    requires WellFormed(g) && Within(g, outputs) && Invariant(g, k, outputs, st)
    requires st.sim != [] && n == st.sim[|st.sim| - 1] && n !in st.sim[..|st.sim| - 1]
    requires g[n].bubble.Kind().Operator? && Accepted(k, g[n].bubble) && g[n].inputs != []
    requires forall q :: 0 <= q < |st.sim| ==> !Below(g, st.sim[q], n)
    ensures var sim := st.sim[..|st.sim| - 1] + g[n].inputs;
            Invariant(g, k, outputs,
              State(sim, st.code + [Operate(n, g[n].bubble, |g[n].inputs|)], st.segment, st.done + {n}))
  {
    var below := st.sim[..|st.sim| - 1];
    var sim := below + g[n].inputs;
    var c := Operate(n, g[n].bubble, |g[n].inputs|);
    assert st.sim == below + [n];
    OperatorReach(g, below, n);
    DealtWith(g, outputs, st.sim, sim, st.done, n);
    OnceKept(g, st.code, c, st.sim, sim, st.done, n);
    OperatorRuns(g, outputs, st, n);
    hide Covers, ComputesOnce, Run, Accepted;
  }

  lemma OperatorRuns(g: Graph, outputs: seq<Node>, st: State, n: Node)
    requires Run(Symbolic(g, st.segment), Reversed(st.code), st.sim) == Some(outputs)
    requires st.sim != [] && n == st.sim[|st.sim| - 1] && n < |g| && g[n].inputs != [] && g[n].bubble.Kind().Operator?
    ensures Run(Symbolic(g, st.segment), Reversed(st.code + [Operate(n, g[n].bubble, |g[n].inputs|)]),
              st.sim[..|st.sim| - 1] + g[n].inputs) == Some(outputs)
  {
    var below := st.sim[..|st.sim| - 1];
    var sim := below + g[n].inputs;
    var c := Operate(n, g[n].bubble, |g[n].inputs|);
    assert st.sim == below + [n];
    assert At(|sim|, -(c.nargs as int)) == |below| && sim[|below|..] == g[n].inputs && sim[..|below|] == below;
    RunEmit(Symbolic(g, st.segment), st.code, c, sim, outputs);
  }

  lemma OperatorReach(g: Graph, below: seq<Node>, n: Node)
    requires Dag(g) && Within(g, below) && n < |g| && n !in below
    requires forall q :: 0 <= q < |below| ==> !Below(g, below[q], n)
    ensures Within(g, below + g[n].inputs) && Within(g, below + [n])
    ensures !ReachedFrom(g, below + g[n].inputs, n)
    ensures forall m :: ReachedFrom(g, below + [n], m) <==> ReachedFrom(g, below + g[n].inputs, m) || m == n
  {
    TopReached(g, below, n);
    forall m ensures ReachedFrom(g, below + [n], m) <==> ReachedFrom(g, below + g[n].inputs, m) || m == n {
      ReachedConcat(g, below, g[n].inputs, m);
      assert Reaches(g, n, m) <==> m == n || ReachedFrom(g, g[n].inputs, m);
    }
    ReachedConcat(g, below, g[n].inputs, n);
    forall i | 0 <= i < |g[n].inputs| ensures !Reaches(g, g[n].inputs[i], n) {
      InputRank(g, n, i);
      if Reaches(g, g[n].inputs[i], n) {
        ReachesRank(g, g[n].inputs[i], n);
      }
    }
  }
}
