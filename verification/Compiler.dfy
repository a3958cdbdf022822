/** `Compiler::compile`: from a graph to code for the stack machine. */
module Compiler {
  import opened Collections
  import opened Tensors
  import opened Graphs
  import opened Schedule
  import opened Standing
  import opened Sharing
  import opened Folding
  import opened Machine
  import opened Simulation
  import opened InputFixUp

  datatype Block = Block(nargs: nat, nresults: nat, instructions: seq<Instruction>, dataSegment: seq<Tensor>)

  // ---------------------------------------------------------------- the local state of compile

  ghost predicate IsSegment(g: Graph, segment: seq<Node>, data: seq<Tensor>, index: map<Node, nat>) {
    && |segment| == |data| && Distinct(segment)
    && (forall i :: 0 <= i < |segment| ==>
          && segment[i] < |g| && g[segment[i]].bubble.Kind().Const? && g[segment[i]].bubble.HasValue()
          && data[i] == g[segment[i]].bubble.Value())
    && (forall n :: n in segment <==> n in index)
    && (forall n :: n in index ==> index[n] < |segment| && segment[index[n]] == n)
  }

  // ---------------------------------------------------------------- why the scheduling loop stops

  /** Lexicographic progress: the stack gets lighter, or its top stops being a Parameter, or the top climbs. */
  ghost function Turn(g: Graph, sim: seq<Node>): (nat, nat, nat)
    requires Dag(g) && Within(g, sim)
  {
    if sim == [] then (0, 0, 0)
    else
      var top := sim[|sim| - 1];
      (Sum(Weights(g), sim), if g[top].bubble.Kind().Parameter? then 1 else 0, Above(Ranking(g)) - Rank(g, top))
  }

  ghost predicate Progress(before: (nat, nat, nat), after: (nat, nat, nat)) {
    after.0 < before.0 || (after.0 == before.0 && (after.1 < before.1 || (after.1 == before.1 && after.2 < before.2)))
  }

  lemma Lighter(g: Graph, before: seq<Node>, after: seq<Node>)
    requires Dag(g) && Within(g, before) && Within(g, after) && before != []
    requires Sum(Weights(g), after) < Sum(Weights(g), before)
    ensures Progress(Turn(g, before), Turn(g, after))
  {
    assert Sum(Weights(g), []) == 0;
  }

  /** A case-2 swap puts something other than a Parameter on top. */
  lemma LiftsUnsolved(g: Graph, sim: seq<Node>, j: nat)
    requires Dag(g) && Within(g, sim) && j < |sim|
    requires g[sim[|sim| - 1]].bubble.Kind().Parameter? && !g[sim[j]].bubble.Kind().Parameter?
    ensures Within(g, Swapped(sim, |sim| - 1, j))
    ensures Progress(Turn(g, sim), Turn(g, Swapped(sim, |sim| - 1, j)))
  {
    SumSwapped(Weights(g), sim, |sim| - 1, j);
  }

  /** A case-3 swap brings up a node that ranks above the old top, and no Parameter. */
  lemma LiftsDependent(g: Graph, sim: seq<Node>, j: nat)
    requires Dag(g) && BareEndpoints(g) && Within(g, sim) && j < |sim|
    requires !g[sim[|sim| - 1]].bubble.Kind().Parameter? && Below(g, sim[j], sim[|sim| - 1])
    ensures sim[j] != sim[|sim| - 1] && Within(g, Swapped(sim, |sim| - 1, j))
    ensures Progress(Turn(g, sim), Turn(g, Swapped(sim, |sim| - 1, j)))
  {
    SumSwapped(Weights(g), sim, |sim| - 1, j);
    BelowRank(g, sim[j], sim[|sim| - 1]);
  }

  class Compilation {
    const k: Kernels
    const g: Graph
    const outputs: seq<Node>
    const refs: Refs
    var simulator: seq<Node>
    var workingNodes: map<Node, nat>
    var unsolvedNodeCount: nat
    var instructions: seq<Instruction>
    var dataSegment: seq<Tensor>
    var segmentIndex: map<Node, nat>
    ghost var segment: seq<Node>
    ghost var done: set<Node>

    ghost predicate Setting()
    {
      && WellFormed(g) && Within(g, outputs) && IsRefs(g, refs)
      && (forall i :: 0 <= i < |outputs| ==> Folded(g, outputs[i]))
      && (forall n :: ReachedFrom(g, outputs, n) ==> n in refs)
    }

    /** The index and the counter agree with the simulated stack. */
    ghost predicate Indexed()
      reads this
    {
      && Within(g, simulator) && FirstIndex(simulator, workingNodes)
      && unsolvedNodeCount == Sum(Unsolved(g), simulator)
    }

    ghost predicate Valid()
      reads this
    {
      && WellFormed(g) && Within(g, outputs) && Within(g, simulator)
      && Setting() && Indexed() && Plain(instructions)
      && IsSegment(g, segment, dataSegment, segmentIndex)
    }

    ghost function St(): State
      reads this
    {
      State(simulator, instructions, segment, done)
    }

    constructor (k: Kernels, g: Graph, outputs: seq<Node>, refs: Refs)
      ensures this.k == k && this.g == g && this.outputs == outputs && this.refs == refs
      ensures St() == State([], [], [], {}) && dataSegment == [] && segmentIndex == map[]
      ensures workingNodes == map[] && unsolvedNodeCount == 0
    {
      this.k, this.g, this.outputs, this.refs := k, g, outputs, refs;
      simulator, workingNodes, unsolvedNodeCount := [], map[], 0;
      instructions, dataSegment, segmentIndex, segment, done := [], [], map[], [], {};
    }

    // -------------------------------------------------------------- the lambdas over that state

    method PushDataSegment(node: Node) returns (r: Result<nat>)
      requires node < |g| && g[node].bubble.Kind().Const?
      requires IsSegment(g, segment, dataSegment, segmentIndex)
      modifies this`dataSegment, this`segmentIndex, this`segment
      ensures IsSegment(g, segment, dataSegment, segmentIndex) && old(segment) <= segment
      ensures r.Ok? <==> g[node].bubble.HasValue()
      ensures r.Ok? ==> r.value < |segment| && segment[r.value] == node
    {
      if node in segmentIndex {
        return Ok(segmentIndex[node]);
      }
      if !g[node].bubble.HasValue() {
        return Err(ParamMissing);
      }
      var dataIndex := |dataSegment|;
      dataSegment := dataSegment + [g[node].bubble.Value()];
      segmentIndex := segmentIndex[node := dataIndex];
      segment := segment + [node];
      return Ok(dataIndex);
    }

    method SimulatorPush(node: Node)
      requires Indexed() && node < |g|
      modifies this`simulator, this`workingNodes, this`unsolvedNodeCount
      ensures Indexed() && simulator == old(simulator) + [node]
    {
      hide FirstIndex, Sum, Bubble.Kind;
      FirstIndexPush(simulator, workingNodes, node);
      SumAppend(Unsolved(g), simulator, [node]);
      SumOne(Unsolved(g), node);
      var i := |simulator|;
      // A node already recorded lies below position i, so its recorded index is never lowered.
      if node !in workingNodes {
        workingNodes := workingNodes[node := i];
      }
      if !g[node].bubble.Kind().Parameter? {
        unsolvedNodeCount := unsolvedNodeCount + 1;
      }
      simulator := simulator + [node];
    }

    method SimulatorPop()
      requires Indexed() && simulator != []
      modifies this`simulator, this`workingNodes, this`unsolvedNodeCount
      ensures Indexed() && simulator == old(simulator)[..|old(simulator)| - 1]
    {
      FirstIndexPop(simulator, workingNodes);
      var i := |simulator| - 1;
      var node := simulator[i];
      if node in workingNodes && workingNodes[node] == i {
        workingNodes := workingNodes - {node};
      }
      if !g[node].bubble.Kind().Parameter? {
        unsolvedNodeCount := unsolvedNodeCount - 1;
      }
      simulator := simulator[..i];
    }

    method SimulatorSwap(i: nat, j: nat)
      requires Indexed() && j < i == |simulator| - 1 && workingNodes[simulator[i]] == i
      requires forall q :: j < q <= i ==> simulator[q] != simulator[j]
      modifies this`simulator, this`workingNodes
      ensures Indexed() && simulator == Swapped(old(simulator), i, j)
    {
      FirstIndexSwap(simulator, workingNodes, j);
      SumSwapped(Unsolved(g), simulator, i, j);
      var nodeI, nodeJ := simulator[i], simulator[j];
      if nodeI in workingNodes && workingNodes[nodeI] == i {
        workingNodes := workingNodes[nodeI := j];
      }
      if nodeJ in workingNodes && workingNodes[nodeJ] == j {
        workingNodes := workingNodes[nodeJ := i];
      }
      simulator := simulator[i := nodeJ][j := nodeI];
    }

    method FindLastUnsolved() returns (j: int)
      requires Within(g, simulator)
      ensures -1 <= j < |simulator|
      ensures j >= 0 ==> !g[simulator[j]].bubble.Kind().Parameter?
      ensures forall q :: j < q < |simulator| ==> g[simulator[q]].bubble.Kind().Parameter?
      ensures j >= 0 ==> forall q :: j < q < |simulator| ==> simulator[q] != simulator[j]
    {
      j := |simulator| - 1;
      while j >= 0
        invariant -1 <= j < |simulator|
        invariant forall q :: j < q < |simulator| ==> g[simulator[q]].bubble.Kind().Parameter?
      {
        if !g[simulator[j]].bubble.Kind().Parameter? {
          return;
        }
        j := j - 1;
      }
    }

    method FindLastRef(ref: Node) returns (j: int)
      requires Setting() && Indexed() && Covers(g, outputs, simulator, done)
      ensures -1 <= j < |simulator|
      ensures j >= 0 ==> Below(g, simulator[j], ref)
      ensures forall q :: j < q < |simulator| ==> !Below(g, simulator[q], ref)
    {
      AllInRefs();
      j := |simulator| - 1;
      while j >= 0
        invariant -1 <= j < |simulator|
        invariant forall q :: j < q < |simulator| ==> !Below(g, simulator[q], ref)
      {
        if ref in refs[simulator[j]] {
          return;
        }
        j := j - 1;
      }
    }
  
    // -------------------------------------------------------------- one turn of the scheduling loop

    lemma AllInRefs()
      requires Setting() && Indexed() && Covers(g, outputs, simulator, done)
      ensures forall n :: n in simulator ==> n in refs
    {
    }

    /** Case 1. */
    method FetchDuplicate(at: nat)
      requires Valid() && Invariant(g, k, outputs, St())
      requires at < |simulator| - 1 && simulator[at] == simulator[|simulator| - 1]
      modifies this
      ensures Valid() && Invariant(g, k, outputs, St())
      ensures Sum(Weights(g), simulator) < Sum(Weights(g), old(simulator))
    {
      hide Invariant, Setting, FirstIndex, IsSegment, Dag, Run, Reversed, Weights, Unsolved;
      DuplicateKeeps(g, k, outputs, St(), at);
      PopLightens(g, simulator);
      instructions := instructions + [Push(at)];
      SimulatorPop();
    }

    /** Case 2-0. */
    method FetchConst() returns (r: Result<()>)
      requires Valid() && Invariant(g, k, outputs, St())
      requires simulator != [] && g[simulator[|simulator| - 1]].bubble.Kind().Const?
      modifies this
      ensures r.Ok? ==> Valid() && Invariant(g, k, outputs, St())
      ensures r.Ok? ==> Sum(Weights(g), simulator) < Sum(Weights(g), old(simulator))
      ensures r.Err? ==> !Accepted(k, g[old(simulator)[|old(simulator)| - 1]].bubble)
    {
      hide Invariant, Setting, FirstIndex, IsSegment, Dag, Run, Reversed, Weights, Unsolved;
      var node := simulator[|simulator| - 1];
      ghost var st := St();
      PopLightens(g, simulator);
      var index := PushDataSegment(node);
      if index.Err? {
        return Err(index.error);
      }
      ConstKeeps(g, k, outputs, st, segment, index.value);
      instructions := instructions + [DataSegment(index.value)];
      SimulatorPop();
      done := done + {node};
      return Ok(());
    }

    /** Cases 2 and 3: bring the last node of interest to the top. */
    method BringUp(j: nat)
      requires Valid() && Invariant(g, k, outputs, St())
      requires j < |simulator| - 1 && workingNodes[simulator[|simulator| - 1]] == |simulator| - 1
      requires forall q :: j < q < |simulator| ==> simulator[q] != simulator[j]
      modifies this
      ensures Valid() && Invariant(g, k, outputs, St())
      ensures simulator == Swapped(old(simulator), |old(simulator)| - 1, j)
      ensures Sum(Weights(g), simulator) == Sum(Weights(g), old(simulator))
    {
      hide Invariant, Setting, FirstIndex, IsSegment, Dag, Run, Reversed, Weights, Unsolved;
      var i := |simulator| - 1;
      SwapKeeps(g, k, outputs, St(), i, j);
      SumSwapped(Weights(g), simulator, i, j);
      instructions := instructions + [Swap(i, j)];
      SimulatorSwap(i, j);
    }

    method PushInputs(node: Node)
      requires Setting() && Indexed() && node < |g|
      modifies this`simulator, this`workingNodes, this`unsolvedNodeCount
      ensures Indexed() && simulator == old(simulator) + g[node].inputs
    {
      hide Setting, FirstIndex;
      assert Within(g, g[node].inputs) by { Closure(node); }
      for i := 0 to |g[node].inputs|
        invariant Indexed() && simulator == old(simulator) + g[node].inputs[..i]
      {
        SimulatorPush(g[node].inputs[i]);
      }
    }

    lemma Closure(node: Node)
      requires Setting() && node < |g|
      ensures Within(g, g[node].inputs)
    {
    }

    /** Case 4. */
    method Expand()
      requires Valid() && Invariant(g, k, outputs, St())
      requires simulator != [] && simulator[|simulator| - 1] !in simulator[..|simulator| - 1]
      requires var n := simulator[|simulator| - 1];
               && g[n].bubble.Kind().Operator? && Accepted(k, g[n].bubble) && g[n].inputs != []
               && forall q :: 0 <= q < |simulator| ==> !Below(g, simulator[q], n)
      modifies this
      ensures Valid() && Invariant(g, k, outputs, St())
      ensures Sum(Weights(g), simulator) < Sum(Weights(g), old(simulator))
    {
      hide Invariant, Setting, FirstIndex, IsSegment, Dag, Run, Reversed, Weights, Unsolved, Below, Accepted;
      var node := simulator[|simulator| - 1];
      ghost var below := simulator[..|simulator| - 1];
      assert simulator == below + [node];
      OperatorKeeps(g, k, outputs, St(), node);
      ExpandLightens(g, below, node);
      instructions := instructions + [Operate(node, g[node].bubble, |g[node].inputs|)];
      SimulatorPop();
      PushInputs(node);
      done := done + {node};
    }
  
    lemma TopFacts()
      requires Valid() && Covers(g, outputs, simulator, done) && simulator != []
      ensures var i := |simulator| - 1;
              var n := simulator[i];
              && n in workingNodes && workingNodes[n] <= i && simulator[workingNodes[n]] == n
              && (workingNodes[n] == i ==> n !in simulator[..i])
              && ReachedFrom(g, outputs, n)
              && (g[n].bubble.Kind().Operator? ==> g[n].inputs != [])
    {
    }

    lemma SomeUnsolved()
      requires Indexed() && unsolvedNodeCount > 0
      ensures simulator != []
      ensures exists q :: 0 <= q < |simulator| && !g[simulator[q]].bubble.Kind().Parameter?
    {
      if forall q :: 0 <= q < |simulator| ==> g[simulator[q]].bubble.Kind().Parameter? {
        SumZero(Unsolved(g), simulator);
      }
    }

    ghost predicate Rejects()
      requires Setting()
    {
      exists m :: 0 <= m < |g| && ReachedFrom(g, outputs, m) && !Accepted(k, g[m].bubble)
    }

    /** Case 2. */
    method LiftUnsolved()
      requires Valid() && Invariant(g, k, outputs, St()) && unsolvedNodeCount > 0 && simulator != []
      requires workingNodes[simulator[|simulator| - 1]] == |simulator| - 1
      requires g[simulator[|simulator| - 1]].bubble.Kind().Parameter?
      modifies this
      ensures Valid() && Invariant(g, k, outputs, St()) && Progress(Turn(g, old(simulator)), Turn(g, simulator))
    {
      hide Invariant, Setting, FirstIndex, IsSegment, Dag, Run, Reversed, Weights;
      hide Unsolved, Below, Reaches, Folded, Turn, Progress, Swapped, Indexed, Plain;
      ghost var before := simulator;
      var j := FindLastUnsolved();
      assert j >= 0 by { SomeUnsolved(); }
      assert j < |simulator| - 1;
      BringUp(j);
      LiftsUnsolved(g, before, j);
    }

    /** Cases 3 and 4. */
    method ComputeTop() returns (r: Result<()>)
      requires Valid() && Invariant(g, k, outputs, St()) && simulator != []
      requires workingNodes[simulator[|simulator| - 1]] == |simulator| - 1
      requires g[simulator[|simulator| - 1]].bubble.Kind().Operator?
      modifies this
      ensures r.Ok? ==>
          Valid() && Invariant(g, k, outputs, St()) && Progress(Turn(g, old(simulator)), Turn(g, simulator))
      ensures r.Err? ==> !Accepted(k, g[old(simulator)[|old(simulator)| - 1]].bubble)
    {
      TopFacts();
      hide Invariant, Setting, FirstIndex, IsSegment, Dag, Run, Reversed, Weights, Unsolved;
      hide Below, Reaches, Folded, Turn, Progress, Swapped, ReachedFrom, Plain, Covers;
      var node := simulator[|simulator| - 1];
      ghost var before := simulator;
      var j := FindLastRef(node);
      if j >= 0 {
        LiftsDependent(g, before, j);
        BringUp(j);
        return Ok(());
      }
      if !k.supports(g[node].bubble.op) {
        return Err(OperatorUnsupported);
      }
      Expand();
      Lighter(g, before, simulator);
      return Ok(());
    }

    method ScheduleTop() returns (r: Result<()>)
      requires Valid() && Invariant(g, k, outputs, St()) && unsolvedNodeCount > 0
      modifies this
      ensures r.Ok? ==>
          Valid() && Invariant(g, k, outputs, St()) && Progress(Turn(g, old(simulator)), Turn(g, simulator))
      ensures r.Err? ==> Rejects()
    {
      SomeUnsolved();
      TopFacts();
      hide Invariant, Setting, FirstIndex, IsSegment, Dag, Run, Reversed;
      hide Weights, Unsolved, Below, Reaches, Folded, Turn, Progress, ReachedFrom;
      var i := |simulator| - 1;
      var node := simulator[i];
      ghost var before := simulator;
      if node in workingNodes && workingNodes[node] < i {
        FetchDuplicate(workingNodes[node]);
        Lighter(g, before, simulator);
        return Ok(());
      }
      match g[node].bubble.Kind()
      case Const =>
        r := FetchConst();
        if r.Ok? {
          Lighter(g, before, simulator);
        }
      case Variable =>
        return Err(VariableUnsupported);
      case Parameter =>
        LiftUnsolved();
        return Ok(());
      case Operator =>
        r := ComputeTop();
    }
  
    lemma OnlyParametersLeft()
      requires Indexed() && unsolvedNodeCount == 0
      ensures AreParameters(g, simulator)
    {
      forall i | 0 <= i < |simulator| ensures g[simulator[i]].bubble.Kind().Parameter? {
        SumAtLeast(Unsolved(g), simulator, i);
      }
    }

    /** The loop itself. */
    method Schedule() returns (r: Result<()>)
      requires Setting() && St() == State([], [], [], {}) && dataSegment == [] && segmentIndex == map[]
      requires workingNodes == map[] && unsolvedNodeCount == 0
      modifies this
      ensures r.Ok? ==> Valid() && Invariant(g, k, outputs, St()) && unsolvedNodeCount == 0
      ensures r.Err? ==> Rejects()
    {
      for i := 0 to |outputs|
        invariant Setting() && Indexed() && simulator == outputs[..i]
        invariant instructions == [] && segment == [] && done == {} && dataSegment == [] && segmentIndex == map[]
      {
        SimulatorPush(outputs[i]);
      }
      assert outputs[..|outputs|] == outputs;
      assert Invariant(g, k, outputs, St());
      while unsolvedNodeCount > 0
        invariant Valid() && Invariant(g, k, outputs, St())
        decreases Turn(g, simulator).0, Turn(g, simulator).1, Turn(g, simulator).2
      {
        r := ScheduleTop();
        if r.Err? {
          return;
        }
      }
      return Ok(());
    }
  }

  // ---------------------------------------------------------------- what compiled code computes

  ghost function Denotation(g: Graph, k: Kernels, env: Env): Node -> Tensor
    requires Dag(g)
  {
    (n: Node) => if n < |g| then Eval(g, k, env, n) else EMPTY
  }

  predicate AreParameters(g: Graph, inputs: seq<Node>) {
    forall i :: 0 <= i < |inputs| ==> inputs[i] < |g| && g[inputs[i]].bubble.Kind().Parameter?
  }

  /** Run on the input values, the block leaves exactly the values of the outputs. */
  ghost predicate Computes(k: Kernels, block: Block, g: Graph, inputs: seq<Node>, outputs: seq<Node>)
    requires Dag(g) && Within(g, outputs)
  {
    forall env: Env :: Run(Concrete(k, block.dataSegment), block.instructions, Image(env, inputs))
                       == Some(EvalAll(g, k, env, outputs))
  }

  /**
   * What the code sees of an environment. Where a fix-up is made, an input has the value of the one at its
   * number, which after a repetition is another one.
   */
  ghost function Seen(inputs: seq<Node>, residual: seq<Node>, env: Env): Env {
    if residual == inputs then env else (n: Node) => env(InPlaceOf(inputs, n))
  }

  /** Run on the input values, the block leaves the values of the outputs in the environment it sees. */
  ghost predicate Answers(k: Kernels, block: Block, g: Graph, inputs: seq<Node>, outputs: seq<Node>,
                          residual: seq<Node>)
    requires Dag(g) && Within(g, outputs)
  {
    forall env: Env :: Run(Concrete(k, block.dataSegment), block.instructions, Image(env, inputs))
                       == Some(EvalAll(g, k, Seen(inputs, residual, env), outputs))
  }

  /** A Parameter some output depends on. */
  ghost predicate Needed(g: Graph, outputs: seq<Node>, p: Node)
    requires Dag(g) && Within(g, outputs)
  {
    p < |g| && g[p].bubble.Kind().Parameter? && ReachedFrom(g, outputs, p)
  }

  /** The compiler takes exactly these graphs. */
  ghost predicate Accepts(g: Graph, k: Kernels, inputs: seq<Node>, outputs: seq<Node>)
    requires Dag(g) && Within(g, outputs)
  {
    && (forall i :: 0 <= i < |outputs| ==> Compilable(g, k, outputs[i]))
    && (forall p :: Needed(g, outputs, p) ==> p in inputs)
  }

  ghost predicate SomeReachesParameter(g: Graph, outputs: seq<Node>)
    requires Dag(g) && Within(g, outputs)
  {
    exists i :: 0 <= i < |outputs| && ReachesParameter(g, outputs[i])
  }

  ghost predicate NeedsAddressable(g: Graph, inputs: seq<Node>, outputs: seq<Node>)
    requires Dag(g) && Within(g, outputs)
  {
    forall p :: Needed(g, outputs, p) ==> Addressable(inputs, p)
  }

  lemma SymbolicMaps(g: Graph, k: Kernels, env: Env, segment: seq<Node>, data: seq<Tensor>, index: map<Node, nat>)
    requires WellFormed(g) && IsSegment(g, segment, data, index)
    ensures Maps(Denotation(g, k, env), Symbolic(g, segment), Concrete(k, data))
  {
    var h := Denotation(g, k, env);
    assert data == Image(h, segment);
    forall n: Node, b, args | Symbolic(g, segment).apply(n, b, args).Some?
      ensures Concrete(k, data).apply(n, b, Image(h, args)) == Some(h(Symbolic(g, segment).apply(n, b, args).value))
    {
      assert g[n] == Record(b, args);
      EvalOperator(g, k, env, n);
      assert EvalAll(g, k, env, args) == Image(h, args);
    }
  }

  /** Code that is right about names is right about values. */
  lemma SymbolicComputes(g: Graph, k: Kernels, env: Env, segment: seq<Node>, data: seq<Tensor>, index: map<Node, nat>,
                         code: seq<Instruction>, inputs: seq<Node>, outputs: seq<Node>)
    requires WellFormed(g) && IsSegment(g, segment, data, index) && AreParameters(g, inputs) && Within(g, outputs)
    requires Run(Symbolic(g, segment), code, inputs) == Some(outputs)
    ensures Run(Concrete(k, data), code, Image(env, inputs)) == Some(EvalAll(g, k, env, outputs))
  {
    var h := Denotation(g, k, env);
    SymbolicMaps(g, k, env, segment, data, index);
    RunMaps(h, Symbolic(g, segment), Concrete(k, data), code, inputs);
    assert Image(h, inputs) == Image(env, inputs);
    assert Image(h, outputs) == EvalAll(g, k, env, outputs);
  }

  /** The smallest case: one unused input, one constant output. The input stays below the result. */
  lemma LeftoverExample(k: Kernels, x: Tensor, v: Tensor)
    ensures Run(Concrete(k, [v]), FixUp([0], []) + [DataSegment(0)], [x]) == Some([x, v])
  {
    var code := FixUp([0], []) + [DataSegment(0)];
    assert code == [Erase(0, 0), DataSegment(0)];
    assert Step(Concrete(k, [v]), code[0], [x]) == Some([x]) by { assert [x][..0] + [x][0..] == [x]; }
    assert code[1..][1..] == [];
    assert [x] + [v] == [x, v];
    assert Step(Concrete(k, [v]), code[1..][0], [x]) == Some([x, v]);
    assert Run(Concrete(k, [v]), code[1..], [x]) == Run(Concrete(k, [v]), code[1..][1..], [x, v]);
  }

  /** The finished instruction list. */
  function Finished(inputs: seq<Node>, residual: seq<Node>, code: seq<Instruction>): seq<Instruction>
    requires AllNumbered(inputs, residual)
  {
    if residual == inputs then Reversed(code) else FixUp(inputs, residual) + Reversed(code)
  }

  lemma ReversedPlain(code: seq<Instruction>)
    requires Plain(code)
    ensures Plain(Reversed(code))
  {
  }

  lemma ReachedStands(h: Graph, folded: seq<Node>, g: Graph, outputs: seq<Node>, k: Kernels, p: Node)
    requires Grown(g, h) && AllStand(h, folded, g, outputs, k) && Within(h, folded) && Within(g, outputs)
    requires p < |h| && h[p].bubble.Kind().Parameter?
    ensures p < |g| && g[p] == h[p]
    ensures ReachedFrom(h, folded, p) <==> ReachedFrom(g, outputs, p)
  {
  }

  lemma ResidualIsReached(h: Graph, outputs: seq<Node>, k: Kernels, st: State, p: Node)
    requires WellFormed(h) && Within(h, outputs) && Invariant(h, k, outputs, st) && AreParameters(h, st.sim)
    ensures p in st.sim <==> Needed(h, outputs, p)
  {
  }

  /** What is left on the simulated stack: the Parameters the outputs reach, and only those. */
  lemma ResidualIsNeeded(h: Graph, folded: seq<Node>, g: Graph, outputs: seq<Node>, k: Kernels, st: State)
    requires Grown(g, h) && AllStand(h, folded, g, outputs, k) && Within(h, folded) && Within(g, outputs)
    requires Invariant(h, k, folded, st) && AreParameters(h, st.sim)
    ensures forall p :: p in st.sim <==> Needed(g, outputs, p)
    ensures st.sim != [] <==> SomeReachesParameter(g, outputs)
  {
    forall p: Node ensures p in st.sim <==> Needed(g, outputs, p) {
      hide Invariant, AllStand, ReachedFrom;
      ResidualIsReached(h, folded, k, st, p);
      if p < |h| && h[p].bubble.Kind().Parameter? {
        ReachedStands(h, folded, g, outputs, k, p);
      }
    }
    hide Invariant, AllStand, ReachedFrom, Grown;
    NeededExists(g, outputs);
    if st.sim != [] { assert st.sim[0] in st.sim; }
  }

  lemma NeededExists(g: Graph, outputs: seq<Node>)
    requires Dag(g) && Within(g, outputs)
    ensures SomeReachesParameter(g, outputs) <==> exists p :: Needed(g, outputs, p)
  {
    if SomeReachesParameter(g, outputs) {
      var i :| 0 <= i < |outputs| && ReachesParameter(g, outputs[i]);
      var p :| 0 <= p < |g| && g[p].bubble.Kind().Parameter? && Reaches(g, outputs[i], p);
      assert Needed(g, outputs, p);
    }
    if exists p :: Needed(g, outputs, p) {
      var p :| Needed(g, outputs, p);
      var i :| 0 <= i < |outputs| && Reaches(g, outputs[i], p);
      assert ReachesParameter(g, outputs[i]);
    }
  }

  lemma EvalStands(h: Graph, folded: seq<Node>, g: Graph, outputs: seq<Node>, k: Kernels, env: Env)
    requires Grown(g, h) && AllStand(h, folded, g, outputs, k) && Within(h, folded) && Within(g, outputs)
    ensures EvalAll(h, k, env, folded) == EvalAll(g, k, env, outputs)
  {
  }

  /** The loop is done and its leftovers are all given as inputs. */
  ghost predicate Settled(h: Graph, k: Kernels, folded: seq<Node>, st: State, inputs: seq<Node>,
                          data: seq<Tensor>, index: map<Node, nat>)
  {
    && WellFormed(h) && Within(h, folded) && Invariant(h, k, folded, st) && AreParameters(h, st.sim)
    && AllIn(st.sim, inputs) && AllNumbered(inputs, st.sim)
    && IsSegment(h, st.segment, data, index) && Plain(st.code)
  }

  /** Kernels that give different results to different arguments. */
  ghost predicate InjectiveKernels(k: Kernels) {
    forall b, x, y :: |x| == |y| && k.result(b, x) == k.result(b, y) ==> x == y
  }

  /** There are some: those that pack their arguments. */
  lemma PackingIsInjective(k: Kernels)
    requires forall b, x :: k.result(b, x) == Tensor(0, [], [], x)
    ensures InjectiveKernels(k)
  {
    forall b, x, y | |x| == |y| && k.result(b, x) == k.result(b, y) ensures x == y {
      assert Tensor(0, [], [], x).fields == Tensor(0, [], [], y).fields;
    }
  }

  lemma SymbolicInjective(g: Graph, segment: seq<Node>)
    ensures Injective(Symbolic(g, segment))
  {
  }

  lemma ConcreteInjective(k: Kernels, data: seq<Tensor>)
    requires InjectiveKernels(k)
    ensures Injective(Concrete(k, data))
  {
    var d := Concrete(k, data);
    forall n, b, x, y | |x| == |y| && d.apply(n, b, x).Some? && d.apply(n, b, y) == d.apply(n, b, x) ensures x == y {
      assert k.result(b, x) == k.result(b, y);
    }
  }

  /** On names, the finished code is right exactly if the leftovers are delivered to it. */
  lemma FinishedExact(h: Graph, folded: seq<Node>, st: State, inputs: seq<Node>)
    requires AllIn(st.sim, inputs) && AllNumbered(inputs, st.sim) && Plain(st.code)
    requires Run(Symbolic(h, st.segment), Reversed(st.code), st.sim) == Some(folded)
    ensures Run(Symbolic(h, st.segment), Finished(inputs, st.sim, st.code), inputs) == Some(folded)
       <==> Delivered(inputs, st.sim)
  {
    var d, code := Symbolic(h, st.segment), Reversed(st.code);
    ReversedPlain(st.code);
    FinishedDepth(h, folded, st, inputs, |st.segment|);
    assert d.data == st.segment;
    hide Run, Reversed, FixUp, Addressable, Symbolic, Fetched, Plain, Depth;
    if st.sim == [] && inputs != [] {
      if Run(d, Finished(inputs, st.sim, st.code), inputs).Some? {
        RunDepth(d, Finished(inputs, st.sim, st.code), inputs);
      }
    } else if st.sim != inputs {
      FixUpRuns(d, inputs, st.sim);
      RunAppend(d, FixUp(inputs, st.sim), code, inputs);
      FetchedIs(inputs, st.sim);
      if Run(d, code, Fetched(inputs, st.sim)) == Some(folded) {
        SymbolicInjective(h, st.segment);
        RunInjective(d, code, st.sim, Fetched(inputs, st.sim));
      }
    }
  }

  /**
   * When the block is right. If the leftovers are delivered, it is, whatever the kernels and the inputs are;
   * otherwise it is not, unless the kernels give the same result to different arguments.
   */
  lemma Exact(h: Graph, folded: seq<Node>, g: Graph, outputs: seq<Node>, k: Kernels, st: State, inputs: seq<Node>,
              data: seq<Tensor>, index: map<Node, nat>, block: Block)
    requires Grown(g, h) && Within(g, outputs) && AllStand(h, folded, g, outputs, k)
    requires Settled(h, k, folded, st, inputs, data, index)
    requires block.instructions == Finished(inputs, st.sim, st.code) && block.dataSegment == data
    ensures Delivered(inputs, st.sim) ==> Computes(k, block, g, inputs, outputs)
    ensures st.sim == [] && inputs != [] ==> !Computes(k, block, g, inputs, outputs)
    ensures InjectiveKernels(k) ==> (Computes(k, block, g, inputs, outputs) <==> Delivered(inputs, st.sim))
  {
    assert Dag(g) && |folded| == |outputs|;
    hide Settled, Invariant, Run, AllStand, Grown, Finished, Addressable, InjectiveKernels, Computes;
    if Delivered(inputs, st.sim) {
      Used(h, folded, g, outputs, k, st, inputs, data, index, block);
    } else if st.sim == [] {
      Unused(h, folded, g, outputs, k, st, inputs, data, index, block);
    } else if InjectiveKernels(k) {
      Misfed(h, folded, g, outputs, k, st, inputs, data, index, block);
    }
  }

  lemma Used(h: Graph, folded: seq<Node>, g: Graph, outputs: seq<Node>, k: Kernels, st: State, inputs: seq<Node>,
             data: seq<Tensor>, index: map<Node, nat>, block: Block)
    requires Grown(g, h) && Within(g, outputs) && AllStand(h, folded, g, outputs, k)
    requires Settled(h, k, folded, st, inputs, data, index) && Delivered(inputs, st.sim)
    requires block.instructions == Finished(inputs, st.sim, st.code) && block.dataSegment == data
    ensures Computes(k, block, g, inputs, outputs)
  {
    SettledFacts(h, k, folded, st, inputs, data, index);
    ResidualIsNeeded(h, folded, g, outputs, k, st);
    SettledSees(h, folded, g, outputs, k, st, inputs, data, index, block);
    assert Dag(g);
    hide Settled, Invariant, Run, AllStand, Grown, Finished, AreParameters, Reversed, Addressable, Concrete;
    hide Seen, Needed;
    forall env: Env
      ensures Run(Concrete(k, data), block.instructions, Image(env, inputs)) == Some(EvalAll(g, k, env, outputs))
    {
      DeliveredSees(g, k, inputs, outputs, st.sim, env);
    }
  }

  /** The fix-up, on values: the rest of the code starts on the values it makes the code see. */
  lemma FinishedFetches(k: Kernels, data: seq<Tensor>, env: Env, inputs: seq<Node>, st: State)
    requires AllIn(st.sim, inputs) && AllNumbered(inputs, st.sim) && (st.sim == [] ==> inputs == [])
    ensures Run(Concrete(k, data), Finished(inputs, st.sim, st.code), Image(env, inputs))
         == Run(Concrete(k, data), Reversed(st.code), Image(Seen(inputs, st.sim, env), st.sim))
  {
    hide Run, Reversed, FixUp, Concrete, Fetched, InPlaceOf;
    if st.sim == inputs {
      assert Image(Seen(inputs, st.sim, env), st.sim) == Image(env, inputs);
    } else {
      FixUpFetches(k, data, env, inputs, st.sim);
      RunAppend(Concrete(k, data), FixUp(inputs, st.sim), Reversed(st.code), Image(env, inputs));
      forall i | 0 <= i < |st.sim| ensures Fetched(inputs, st.sim)[i] == InPlaceOf(inputs, st.sim[i]) {
        FetchedAt(inputs, st.sim, i);
      }
      assert Image(Seen(inputs, st.sim, env), st.sim) == Image(env, Fetched(inputs, st.sim));
    }
  }

  lemma SettledSees(h: Graph, folded: seq<Node>, g: Graph, outputs: seq<Node>, k: Kernels, st: State,
                    inputs: seq<Node>, data: seq<Tensor>, index: map<Node, nat>, block: Block)
    requires Grown(g, h) && Within(g, outputs) && AllStand(h, folded, g, outputs, k)
    requires Settled(h, k, folded, st, inputs, data, index) && (st.sim == [] ==> inputs == [])
    requires block.instructions == Finished(inputs, st.sim, st.code) && block.dataSegment == data
    ensures Answers(k, block, g, inputs, outputs, st.sim)
  {
    SettledFacts(h, k, folded, st, inputs, data, index);
    hide Invariant, Run, AllStand, Grown, Finished, AreParameters, Reversed, Seen, Concrete;
    forall env: Env
      ensures Run(Concrete(k, data), block.instructions, Image(env, inputs))
           == Some(EvalAll(g, k, Seen(inputs, st.sim, env), outputs))
    {
      var seen := Seen(inputs, st.sim, env);
      FinishedFetches(k, data, env, inputs, st);
      SymbolicComputes(h, k, seen, st.segment, data, index, Reversed(st.code), st.sim, folded);
      EvalStands(h, folded, g, outputs, k, seen);
    }
  }

  /** What is delivered is seen as it is. */
  lemma DeliveredSees(g: Graph, k: Kernels, inputs: seq<Node>, outputs: seq<Node>, residual: seq<Node>, env: Env)
    requires Dag(g) && Within(g, outputs) && Delivered(inputs, residual)
    requires forall p :: Needed(g, outputs, p) ==> p in residual
    ensures EvalAll(g, k, Seen(inputs, residual, env), outputs) == EvalAll(g, k, env, outputs)
  {
    hide Eval, Reaches, Addressable, Dag, Slots;
    var seen := Seen(inputs, residual, env);
    forall i | 0 <= i < |outputs| ensures Eval(g, k, seen, outputs[i]) == Eval(g, k, env, outputs[i]) {
      forall p: Node | p < |g| && g[p].bubble.Kind().Parameter? && Reaches(g, outputs[i], p)
        ensures seen(p) == env(p)
      {
        assert Needed(g, outputs, p) && p in residual;
        if residual == inputs {
          assert seen(p) == env(p);
        } else {
          if p in inputs {
            SlotIsPosition(inputs, p);
          }
          assert InPlaceOf(inputs, p) == p;
          assert seen(p) == env(InPlaceOf(inputs, p));
        }
      }
      EvalAgrees(g, k, seen, env, outputs[i]);
    }
    assert EvalAll(g, k, seen, outputs) == EvalAll(g, k, env, outputs);
  }

  /** An environment that tells all nodes apart. */
  function Naming(): Env {
    (n: Node) => Tensor(n, [], [], [])
  }

  lemma NamingTells(s: seq<Node>, t: seq<Node>)
    requires Image(Naming(), s) == Image(Naming(), t)
    ensures s == t
  {
    assert |s| == |Image(Naming(), s)| == |t|;
    forall i | 0 <= i < |s| ensures s[i] == t[i] {
      assert Image(Naming(), s)[i].dtype == Image(Naming(), t)[i].dtype;
    }
  }

  /** Something else is fetched, and kernels that tell their arguments apart make something else of it. */
  lemma Misfed(h: Graph, folded: seq<Node>, g: Graph, outputs: seq<Node>, k: Kernels, st: State, inputs: seq<Node>,
               data: seq<Tensor>, index: map<Node, nat>, block: Block)
    requires Grown(g, h) && Within(g, outputs) && AllStand(h, folded, g, outputs, k)
    requires Settled(h, k, folded, st, inputs, data, index) && !Delivered(inputs, st.sim)
    requires block.instructions == Finished(inputs, st.sim, st.code) && block.dataSegment == data
    requires st.sim != [] && InjectiveKernels(k)
    ensures !Computes(k, block, g, inputs, outputs)
  {
    SettledFacts(h, k, folded, st, inputs, data, index);
    ReversedPlain(st.code);
    hide Invariant, Run, AllStand, Grown, AreParameters, Reversed, FixUp, Addressable, Concrete, Fetched;
    hide InjectiveKernels, Naming, Plain;
    var env, d, code := Naming(), Concrete(k, data), Reversed(st.code);
    if Computes(k, block, g, inputs, outputs) {
      FixUpFetches(k, data, env, inputs, st.sim);
      RunAppend(d, FixUp(inputs, st.sim), code, Image(env, inputs));
      SymbolicComputes(h, k, env, st.segment, data, index, code, st.sim, folded);
      EvalStands(h, folded, g, outputs, k, env);
      ConcreteInjective(k, data);
      RunInjective(d, code, Image(env, st.sim), Image(env, Fetched(inputs, st.sim)));
      NamingTells(st.sim, Fetched(inputs, st.sim));
      FetchedIs(inputs, st.sim);
    }
  }

  /** A repeated input does no harm where the leftovers are the inputs: the code is left without a fix-up. */
  lemma RepeatedInputKept(k: Kernels, b: Bubble, v: Tensor, w: Tensor)
    ensures AllNumbered([0, 0, 1], [0, 0, 1]) && !Addressable([0, 0, 1], 1)
    ensures Run(Concrete(k, []), Finished([0, 0, 1], [0, 0, 1], [Operate(2, b, 3)]), [v, v, w])
         == Some([k.result(b, [v, v, w])])
  {
    SlotsSize([0, 0, 1]);
    assert AllNumbered([0, 0, 1], [0, 0, 1]);
    forall i | 0 <= i < 3 && [0, 0, 1][i] == 1 ensures !DistinctThrough([0, 0, 1], i) {
      assert [0, 0, 1][0] == [0, 0, 1][1];
    }
    var code: seq<Instruction>, args := [Operate(2, b, 3)], [v, v, w];
    assert code[..0] == [] && Reversed(code) == code && code[1..] == [];
    var r := k.result(b, args);
    assert args[0..] == args && args[..0] + [r] == [r];
    assert Step(Concrete(k, []), code[0], args) == Some([r]);
  }

  /**
   * The frame size the finished code ends with. Code that needs no input leaves the unused inputs
   * underneath its results, because `erase(0, -0)` erases nothing.
   */
  lemma FinishedDepth(h: Graph, folded: seq<Node>, st: State, inputs: seq<Node>, data: nat)
    requires AllIn(st.sim, inputs) && AllNumbered(inputs, st.sim) && Plain(st.code) && |st.segment| == data
    requires Run(Symbolic(h, st.segment), Reversed(st.code), st.sim) == Some(folded)
    ensures Depth(data, Finished(inputs, st.sim, st.code), |inputs|)
         == Some(if st.sim == [] then |inputs| + |folded| else |folded|)
  {
    var d, code := Symbolic(h, st.segment), Reversed(st.code);
    RunDepth(d, code, st.sim);
    assert Depth(data, code, |st.sim|) == Some(|folded|);
    hide Run, DepthStep, Reversed, Depth;
    if st.sim == [] {
      ReversedPlain(st.code);
      PlainAdds(data, code, 0, |inputs|);
    }
    if st.sim != inputs {
      FixUpDepth(data, inputs, st.sim);
      DepthAppend(data, FixUp(inputs, st.sim), code, |inputs|);
    }
  }

  lemma Unused(h: Graph, folded: seq<Node>, g: Graph, outputs: seq<Node>, k: Kernels, st: State, inputs: seq<Node>,
               data: seq<Tensor>, index: map<Node, nat>, block: Block)
    requires Settled(h, k, folded, st, inputs, data, index) && Dag(g) && Within(g, outputs) && |folded| == |outputs|
    requires block.instructions == Finished(inputs, st.sim, st.code) && block.dataSegment == data
    requires st.sim == [] && inputs != []
    ensures !Computes(k, block, g, inputs, outputs) && !Answers(k, block, g, inputs, outputs, st.sim)
  {
    var env: Env := (n: Node) => EMPTY;
    FinishedDepth(h, folded, st, inputs, |data|);
    var d := Concrete(k, data);
    if Run(d, block.instructions, Image(env, inputs)).Some? {
      RunDepth(d, block.instructions, Image(env, inputs));
    }
    assert Run(d, block.instructions, Image(env, inputs)) != Some(EvalAll(g, k, env, outputs));
    assert Run(d, block.instructions, Image(env, inputs)) != Some(EvalAll(g, k, Seen(inputs, st.sim, env), outputs));
  }

  // ---------------------------------------------------------------- which graphs are taken

  lemma FinishedAccepts(h: Graph, folded: seq<Node>, g: Graph, outputs: seq<Node>, k: Kernels, st: State,
                        inputs: seq<Node>, data: seq<Tensor>, index: map<Node, nat>)
    requires Grown(g, h) && Within(g, outputs) && AllStand(h, folded, g, outputs, k)
    requires Settled(h, k, folded, st, inputs, data, index)
    ensures Accepts(g, k, inputs, outputs)
  {
    ResidualIsNeeded(h, folded, g, outputs, k, st);
    forall i | 0 <= i < |outputs| ensures Compilable(g, k, outputs[i]) {
      CoveredCompilable(h, k, folded, st, i);
      assert Stands(h, folded[i], g, outputs[i], k);
    }
  }

  lemma CoveredCompilable(h: Graph, k: Kernels, folded: seq<Node>, st: State, i: nat)
    requires WellFormed(h) && Within(h, folded) && Invariant(h, k, folded, st) && AreParameters(h, st.sim)
    requires i < |folded|
    ensures Compilable(h, k, folded[i])
  {
  }

  lemma RejectedStands(h: Graph, folded: seq<Node>, g: Graph, outputs: seq<Node>, k: Kernels, m: Node)
    requires Grown(g, h) && Within(g, outputs) && AllStand(h, folded, g, outputs, k) && Within(h, folded)
    requires m < |h| && ReachedFrom(h, folded, m) && !Accepted(k, h[m].bubble)
    ensures exists i :: 0 <= i < |outputs| && !Compilable(g, k, outputs[i])
  {
  }

  // ---------------------------------------------------------------- nothing is computed twice

  /** The block computes each operator the folded outputs reach once, and no other. */
  ghost predicate ComputesEachOnce(h: Graph, folded: seq<Node>, code: seq<Instruction>)
    requires Dag(h) && Within(h, folded)
  {
    && Distinct(Computed(code))
    && forall m: Node :: m in Computed(code) <==> m < |h| && h[m].bubble.Kind().Operator? && ReachedFrom(h, folded, m)
  }

  /** In terms of the given graph: the code computes what the outputs need and depends on a Parameter. */
  ghost predicate ComputesNeeded(g: Graph, outputs: seq<Node>, origins: seq<Node>, code: seq<Instruction>)
    requires Dag(g) && Within(g, outputs)
  {
    && (forall m: Node :: m in Computed(code) ==> m < |origins| && IsNeeded(g, outputs, origins[m]))
    && (forall n: Node :: IsNeeded(g, outputs, n) ==>
          exists m: Node :: m in Computed(code) && m < |origins| && origins[m] == n)
  }

  /** And it computes nothing twice: no two nodes it computes were made for one. */
  ghost predicate OncePerNode(origins: seq<Node>, code: seq<Instruction>) {
    forall i, j :: 0 <= i < j < |Computed(code)| && Computed(code)[j] < |origins| && Computed(code)[i] < |origins| ==>
      origins[Computed(code)[i]] != origins[Computed(code)[j]]
  }

  lemma OnceIsShared(g: Graph, h: Graph, outputs: seq<Node>, folded: seq<Node>, origins: seq<Node>,
                     code: seq<Instruction>)
    requires Dag(g) && Dag(h) && Within(g, outputs) && Within(h, folded) && |origins| == |h|
    requires ComputesEachOnce(h, folded, code) && ComputesOriginals(g, h, outputs, folded, origins)
    ensures ComputesNeeded(g, outputs, origins, code)
    ensures OncePerNode(origins, code) <==> SharesAll(h, folded, origins)
  {
    hide Dag, IsNeeded, Computed, ReachedFrom;
    var ms := Computed(code);
    forall m: Node ensures m in ms <==> IsComputed(h, folded, m) {
    }
    if OncePerNode(origins, code) {
      forall c: Node, d: Node | IsComputed(h, folded, c) && IsComputed(h, folded, d) && origins[c] == origins[d]
        ensures c == d
      {
        var i :| 0 <= i < |ms| && ms[i] == c;
        var j :| 0 <= j < |ms| && ms[j] == d;
      }
    }
    assert forall i :: 0 <= i < |ms| ==> ms[i] in ms && IsComputed(h, folded, ms[i]);
    if SharesAll(h, folded, origins) {
      forall i, j | 0 <= i < j < |ms| ensures origins[ms[i]] != origins[ms[j]] {
        assert ms[i] in ms && ms[j] in ms && ms[i] != ms[j];
      }
    }
  }

  lemma {:induction false} ComputedAppend(a: seq<Instruction>, b: seq<Instruction>)
    ensures Computed(a + b) == Computed(a) + Computed(b)
    decreases |b|
  {
    if b == [] {
      assert a + b == a;
    } else {
      assert (a + b)[..|a + b| - 1] == a + b[..|b| - 1];
      ComputedAppend(a, b[..|b| - 1]);
    }
  }

  lemma {:induction false} ComputedReversed(code: seq<Instruction>)
    ensures Computed(Reversed(code)) == Reversed(Computed(code))
    decreases |code|
  {
    if code != [] {
      var last := |code| - 1;
      var before, c := code[..last], code[last];
      ComputedReversed(before);
      ComputedAppend([c], Reversed(before));
      assert Computed([c]) == if c.Operate? then [c.node] else [] by { assert [c][..0] == []; }
      if c.Operate? {
        ReversedEmit(Computed(before), c.node);
      } else {
        assert [] + Reversed(Computed(before)) == Reversed(Computed(before));
        assert Computed(before) + [] == Computed(before);
      }
    }
  }

  lemma {:induction false} ReversedAt<T>(s: seq<T>, i: nat)
    requires i < |s|
    ensures Reversed(s)[i] == s[|s| - 1 - i]
    decreases |s|
  {
    if i > 0 {
      ReversedAt(s[..|s| - 1], i - 1);
    }
  }

  lemma ReversedMembers<T>(s: seq<T>)
    ensures forall x :: x in Reversed(s) <==> x in s
    ensures Distinct(s) ==> Distinct(Reversed(s))
  {
    var r := Reversed(s);
    forall i | 0 <= i < |s| ensures r[i] == s[|s| - 1 - i] {
      ReversedAt(s, i);
    }
    forall x | x in s ensures x in r {
      var i :| 0 <= i < |s| && s[i] == x;
      assert r[|s| - 1 - i] == x;
    }
  }

  lemma {:induction false} PushesComputeNothing(inputs: seq<Node>, residual: seq<Node>)
    requires AllNumbered(inputs, residual)
    ensures Computed(Pushes(inputs, residual)) == []
  {
    if residual != [] {
      PushesComputeNothing(inputs, residual[1..]);
      var c := Push(Slots(inputs)[residual[0]]);
      ComputedAppend([c], Pushes(inputs, residual[1..]));
      assert [c][..0] == [];
    }
  }

  lemma SettledFacts(h: Graph, k: Kernels, folded: seq<Node>, st: State, inputs: seq<Node>,
                     data: seq<Tensor>, index: map<Node, nat>)
    requires Settled(h, k, folded, st, inputs, data, index)
    ensures Within(h, folded) && Invariant(h, k, folded, st) && AreParameters(h, st.sim)
    ensures AllIn(st.sim, inputs) && AllNumbered(inputs, st.sim) && Plain(st.code) && |st.segment| == |data|
    ensures Run(Symbolic(h, st.segment), Reversed(st.code), st.sim) == Some(folded)
  {
    hide Run, Reversed, Symbolic;
  }

  /** Fetching the inputs and turning the code around computes nothing more. */
  lemma FinishedComputes(inputs: seq<Node>, residual: seq<Node>, code: seq<Instruction>)
    requires AllNumbered(inputs, residual)
    ensures Computed(Finished(inputs, residual, code)) == Reversed(Computed(code))
  {
    hide Slots, Reversed, Pushes, AllNumbered;
    ComputedReversed(code);
    var e := Erase(0, -(|residual| as int));
    assert Computed([e]) == [] by { assert [e][..0] == []; }
    PushesComputeNothing(inputs, residual);
    ComputedAppend(Pushes(inputs, residual), [e]);
    ComputedAppend(FixUp(inputs, residual), Reversed(code));
    assert [] + Reversed(Computed(code)) == Reversed(Computed(code));
  }

  lemma FinishedOnce(h: Graph, k: Kernels, folded: seq<Node>, st: State, inputs: seq<Node>,
                     data: seq<Tensor>, index: map<Node, nat>)
    requires Settled(h, k, folded, st, inputs, data, index)
    ensures ComputesEachOnce(h, folded, Finished(inputs, st.sim, st.code))
  {
    SettledFacts(h, k, folded, st, inputs, data, index);
    hide Run, Invariant, Computed, Reversed, Finished, AllNumbered, AllIn, Plain, AreParameters;
    FinishedComputes(inputs, st.sim, st.code);
    ReversedMembers(Computed(st.code));
    DoneAreReached(h, k, folded, st);
  }

  lemma DoneAreReached(h: Graph, k: Kernels, folded: seq<Node>, st: State)
    requires WellFormed(h) && Within(h, folded) && Invariant(h, k, folded, st) && AreParameters(h, st.sim)
    ensures Distinct(Computed(st.code))
    ensures forall m: Node ::
        m in Computed(st.code) <==> m < |h| && h[m].bubble.Kind().Operator? && ReachedFrom(h, folded, m)
  {
  }

  // ---------------------------------------------------------------- Compiler::compile

  /** One more push, emitted last, runs first. */
  lemma PushInFront(inputs: seq<Node>, residual: seq<Node>, i: nat, code: seq<Instruction>, tail: seq<Instruction>)
    requires AllNumbered(inputs, residual) && i < |residual| && AllNumbered(inputs, residual[i + 1..])
    requires Reversed(code) == Pushes(inputs, residual[i + 1..]) + tail
    ensures AllNumbered(inputs, residual[i..]) && residual[i] in Slots(inputs)
    ensures Reversed(code + [Push(Slots(inputs)[residual[i]])]) == Pushes(inputs, residual[i..]) + tail
  {
  }

  /** Emits, back to front, the instructions that fetch the inputs, then turns the list around. */
  method FetchInputs(inputs: seq<Node>, residual: seq<Node>, code: seq<Instruction>)
    returns (instructions: seq<Instruction>)
    requires AllNumbered(inputs, residual)
    ensures instructions == Finished(inputs, residual, code)
  {
    hide Reversed, Pushes, Slots;
    instructions := code;
    if residual != inputs {
      var slots := NumberInputs(inputs);
      var e := Erase(0, -(|residual| as int));
      instructions := instructions + [e];
      ReversedEmit(code, e);
      assert Reversed(instructions) == Pushes(inputs, []) + ([e] + Reversed(code));
      var i := |residual|;
      while i > 0
        invariant 0 <= i <= |residual| && AllNumbered(inputs, residual[i..])
        invariant Reversed(instructions) == Pushes(inputs, residual[i..]) + ([e] + Reversed(code))
      {
        i := i - 1;
        PushInFront(inputs, residual, i, instructions, [e] + Reversed(code));
        instructions := instructions + [Push(slots[residual[i]])];
      }
      assert residual[0..] == residual;
      assert FixUp(inputs, residual) + Reversed(code) == Pushes(inputs, residual) + ([e] + Reversed(code));
    }
    instructions := Reversed(instructions);
  }

  /** Every node left on the simulated stack must be one of the inputs. */
  method CheckInputs(inputs: seq<Node>, residual: seq<Node>) returns (accessible: bool)
    ensures accessible <==> AllIn(residual, inputs)
  {
    for i := 0 to |residual|
      invariant AllIn(residual[..i], inputs)
    {
      if residual[i] !in inputs {
        return false;
      }
    }
    assert residual[..|residual|] == residual;
    return true;
  }

  method Compile(k: Kernels, g: Graph, inputs: seq<Node>, outputs: seq<Node>)
    returns (r: Result<Block>, ghost h: Graph, ghost folded: seq<Node>, ghost origins: seq<Node>,
             ghost residual: seq<Node>)
    requires WellFormed(g) && Within(g, outputs)
    ensures r.Ok? <==> Accepts(g, k, inputs, outputs)
    ensures r.Ok? ==> r.value.nargs == |inputs| && r.value.nresults == |outputs|
    ensures r.Ok? ==> forall p :: p in residual <==> Needed(g, outputs, p)
    ensures r.Ok? ==> (Answers(k, r.value, g, inputs, outputs, residual)
                       <==> inputs == [] || SomeReachesParameter(g, outputs))
    ensures r.Ok? && Delivered(inputs, residual) ==> Computes(k, r.value, g, inputs, outputs)
    ensures r.Ok? && InjectiveKernels(k) ==> (Computes(k, r.value, g, inputs, outputs) <==> Delivered(inputs, residual))
    ensures r.Ok? && (residual == inputs || NeedsAddressable(g, inputs, outputs)) ==>
              (Computes(k, r.value, g, inputs, outputs) <==> inputs == [] || SomeReachesParameter(g, outputs))
    ensures r.Ok? ==>
              Depth(|r.value.dataSegment|, r.value.instructions, |inputs|)
              == Some(if SomeReachesParameter(g, outputs) then |outputs| else |inputs| + |outputs|)
    ensures Grown(g, h) && (r.Ok? ==> Within(h, folded) && AllStand(h, folded, g, outputs, k))
    ensures r.Ok? ==> ComputesEachOnce(h, folded, r.value.instructions)
    ensures r.Ok? ==> ComputesNeeded(g, outputs, origins, r.value.instructions)
    ensures r.Ok? ==> (OncePerNode(origins, r.value.instructions) <==> !RebuiltAgain(g, outputs))
  {
    hide ComputesNeeded, OncePerNode, SharesAll, ComputesOriginals, RebuiltAgain, Origins;
    hide Delivered, InjectiveKernels, Needed, Answers;
    hide Accepts, Computes, SomeReachesParameter, ComputesEachOnce, AllStand, Invariant, Finished, NeedsAddressable;
    var graph, constOutputs, madeFor := RunConstNodes(k, g, outputs);
    h, folded, origins, residual := graph, [], madeFor, [];
    OriginsSize(g, h, origins);
    if constOutputs.Err? {
      RejectedByFolding(g, k, inputs, outputs);
      return Err(constOutputs.error), h, folded, origins, residual;
    }
    folded := constOutputs.value;
    AllStandWithin(h, folded, g, outputs, k);
    AllFolded(h, folded, g, outputs, k);
    var refs := BuildNodeRefs(graph, constOutputs.value);
    var c := new Compilation(k, graph, constOutputs.value, refs);
    var scheduled := c.Schedule();
    if scheduled.Err? {
      ghost var m :| 0 <= m < |h| && ReachedFrom(h, folded, m) && !Accepted(k, h[m].bubble);
      RejectedStands(h, folded, g, outputs, k, m);
      RejectedByFolding(g, k, inputs, outputs);
      return Err(scheduled.error), h, folded, origins, residual;
    }
    c.OnlyParametersLeft();
    var accessible := CheckInputs(inputs, c.simulator);
    if !accessible {
      Inaccessible(h, folded, g, outputs, k, c.St(), inputs);
      return Err(InputInaccessible), h, folded, origins, residual;
    }
    SlotsSize(inputs);
    var instructions := FetchInputs(inputs, c.simulator, c.instructions);
    var block := Block(|inputs|, |outputs|, instructions, c.dataSegment);
    Conclude(h, folded, g, outputs, k, c.St(), inputs, c.dataSegment, c.segmentIndex, block);
    OnceIsShared(g, h, outputs, folded, origins, instructions);
    return Ok(block), h, folded, origins, c.simulator;
  }

  /** All in all, where the leftovers are the inputs or every needed input can be addressed. */
  lemma DeliveredIf(g: Graph, outputs: seq<Node>, inputs: seq<Node>, residual: seq<Node>)
    requires Dag(g) && Within(g, outputs)
    requires forall p :: p in residual <==> Needed(g, outputs, p)
    requires residual == inputs || NeedsAddressable(g, inputs, outputs)
    ensures Delivered(inputs, residual) <==> residual != [] || inputs == []
  {
    hide Needed, Addressable;
  }

  /** Without repetition every needed input can be addressed. */
  lemma DistinctAddressable(g: Graph, k: Kernels, inputs: seq<Node>, outputs: seq<Node>)
    requires Dag(g) && Within(g, outputs) && Accepts(g, k, inputs, outputs) && Distinct(inputs)
    ensures NeedsAddressable(g, inputs, outputs)
  {
    hide Needed, Compilable;
    forall p | Needed(g, outputs, p) ensures Addressable(inputs, p) {
      var i :| 0 <= i < |inputs| && inputs[i] == p;
      assert DistinctThrough(inputs, i);
    }
  }

  lemma Conclude(h: Graph, folded: seq<Node>, g: Graph, outputs: seq<Node>, k: Kernels, st: State, inputs: seq<Node>,
                 data: seq<Tensor>, index: map<Node, nat>, block: Block)
    requires Grown(g, h) && Within(g, outputs) && AllStand(h, folded, g, outputs, k)
    requires Settled(h, k, folded, st, inputs, data, index)
    requires block.instructions == Finished(inputs, st.sim, st.code) && block.dataSegment == data
    ensures Accepts(g, k, inputs, outputs) && ComputesEachOnce(h, folded, block.instructions)
    ensures Depth(|data|, block.instructions, |inputs|)
            == Some(if SomeReachesParameter(g, outputs) then |outputs| else |inputs| + |outputs|)
    ensures forall p :: p in st.sim <==> Needed(g, outputs, p)
    ensures Answers(k, block, g, inputs, outputs, st.sim) <==> inputs == [] || SomeReachesParameter(g, outputs)
    ensures Delivered(inputs, st.sim) ==> Computes(k, block, g, inputs, outputs)
    ensures InjectiveKernels(k) ==> (Computes(k, block, g, inputs, outputs) <==> Delivered(inputs, st.sim))
    ensures st.sim == inputs || NeedsAddressable(g, inputs, outputs) ==>
              (Computes(k, block, g, inputs, outputs) <==> inputs == [] || SomeReachesParameter(g, outputs))
  {
    hide Accepts, Computes, SomeReachesParameter, ComputesEachOnce, Invariant, Finished, NeedsAddressable, Settled;
    hide AreParameters, AllIn, AllNumbered, Depth, Run, Reversed, Stands, InjectiveKernels, Delivered, Needed, Answers;
    FinishedAccepts(h, folded, g, outputs, k, st, inputs, data, index);
    FinishedOnce(h, k, folded, st, inputs, data, index);
    SettledFacts(h, k, folded, st, inputs, data, index);
    FinishedDepth(h, folded, st, inputs, |data|);
    ResidualIsNeeded(h, folded, g, outputs, k, st);
    Exact(h, folded, g, outputs, k, st, inputs, data, index, block);
    if st.sim == [] && inputs != [] {
      Unused(h, folded, g, outputs, k, st, inputs, data, index, block);
    } else {
      SettledSees(h, folded, g, outputs, k, st, inputs, data, index, block);
    }
    if st.sim == inputs || NeedsAddressable(g, inputs, outputs) {
      DeliveredIf(g, outputs, inputs, st.sim);
    }
  }

  lemma RejectedByFolding(g: Graph, k: Kernels, inputs: seq<Node>, outputs: seq<Node>)
    requires Dag(g) && Within(g, outputs) && exists i :: 0 <= i < |outputs| && !Compilable(g, k, outputs[i])
    ensures !Accepts(g, k, inputs, outputs)
  {
  }

  lemma Inaccessible(h: Graph, folded: seq<Node>, g: Graph, outputs: seq<Node>, k: Kernels, st: State,
                     inputs: seq<Node>)
    requires Grown(g, h) && AllStand(h, folded, g, outputs, k) && Within(h, folded) && Within(g, outputs)
    requires Invariant(h, k, folded, st) && AreParameters(h, st.sim) && !AllIn(st.sim, inputs)
    ensures !Accepts(g, k, inputs, outputs)
  {
    hide Invariant;
    ResidualIsNeeded(h, folded, g, outputs, k, st);
  }
}
