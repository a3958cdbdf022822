/** `Program::Compile` of `program.cpp` after its compiler, and inference: from a graph to its output values. */
module EndToEnd {
  import opened Collections
  import opened Tensors
  import opened Binio
  import TensorCodec
  import opened Graphs
  import opened Machine
  import opened InputFixUp
  import opened Compiler
  import opened Workbenches

  const DTYPE := "#dtype"


  /** The node `bubble::param` makes for a given data type. */
  function TypedParam(name: string, dtype: Int32): Bubble {
    Bubble(PARAMETER, name, map[DTYPE := FromInt(dtype)])
  }

  /** The data type a node asks for: VOID if none. */
  function DtypeOf(toInt: ToInt, b: Bubble): Option<Int32> {
    if DTYPE in b.params then ReadInt(toInt, b.params[DTYPE]) else Some(VOID)
  }

  predicate HasDtype(toInt: ToInt, b: Bubble) {
    DtypeOf(toInt, b).Some?
  }

  /** The type asked for is the type got: `to_int` reads back what `from<int32_t>` has written. */
  lemma TypedParamHasDtype(toInt: ToInt, name: string, dtype: Int32)
    ensures DtypeOf(toInt, TypedParam(name, dtype)) == Some(dtype) && TypedParam(name, dtype).Kind() == Parameter
  {
    hide ReadInt, FromInt;
    IntBack(toInt, dtype);
  }

  /** The data type is kept as a tensor that a file takes. */
  lemma DtypeFits(dtype: Int32)
    ensures TensorCodec.Fits(FromInt(dtype)) && TensorCodec.Shallow(FromInt(dtype)) == FromInt(dtype)
  {
    TensorCodec.CountOne(1);
  }

  /** What the graph sees of an environment: each argument cast to the type its node asks for. */
  function CastEnv(k: Kernels, toInt: ToInt, g: Graph, env: Env): Env {
    (p: Node) =>
      if p < |g| && HasDtype(toInt, g[p].bubble) then Cast(k, DtypeOf(toInt, g[p].bubble).value, env(p)) else env(p)
  }

  /** Every data type asked for by one of the nodes can be read. */
  predicate AllTyped(toInt: ToInt, g: Graph, ns: seq<Node>)
    requires Within(g, ns)
  {
    forall i :: 0 <= i < |ns| ==> HasDtype(toInt, g[ns[i]].bubble)
  }

  /** The loops of `Program::Compile` over the inputs and the outputs. */
  method ReadDtypes(toInt: ToInt, g: Graph, ns: seq<Node>) returns (r: Option<seq<Int32>>)
    requires Within(g, ns)
    ensures r.Some? <==> AllTyped(toInt, g, ns)
    ensures r.Some? ==>
        |r.value| == |ns| && forall i :: 0 <= i < |ns| ==> Some(r.value[i]) == DtypeOf(toInt, g[ns[i]].bubble)
  {
    var dtypes: seq<Int32> := seq(|ns|, _ => VOID);
    for i := 0 to |ns|
      invariant |dtypes| == |ns| && forall j :: i <= j < |ns| ==> dtypes[j] == VOID
      invariant forall j :: 0 <= j < i ==> Some(dtypes[j]) == DtypeOf(toInt, g[ns[j]].bubble)
    {
      var b := g[ns[i]].bubble;
      if DTYPE !in b.params {
        continue;
      }
      var dtype := ReadInt(toInt, b.params[DTYPE]);
      if dtype.None? {
        return None;
      }
      dtypes := dtypes[i := dtype.value];
    }
    return Some(dtypes);
  }

  /** No filter is bound yet. */
  function ProgramOf(b: Block, dtypes: seq<Int32>): Program {
    Program(b.instructions, b.dataSegment, seq(b.nargs, _ => None), dtypes, b.nresults)
  }

  function CastAll(k: Kernels, dtypes: seq<Int32>, args: seq<Tensor>): (r: seq<Tensor>)
    requires |dtypes| == |args|
    ensures |r| == |args| && forall i :: 0 <= i < |args| ==> r[i] == Cast(k, dtypes[i], args[i])
  {
    seq(|args|, i requires 0 <= i < |args| => Cast(k, dtypes[i], args[i]))
  }

  lemma PrepareUnfiltered(k: Kernels, p: Program, i: nat, arg: Tensor)
    requires i < |p.filters| == |p.dtypes| && p.filters[i].None?
    ensures Prepare(k, p, i, arg) == Ok(Cast(k, p.dtypes[i], arg))
  {
  }

  /** Without filters, the arguments are cast and nothing else. */
  lemma {:induction false} UnfilteredIsCast(k: Kernels, p: Program, i: nat, args: seq<Tensor>)
    requires i <= |p.filters| == |p.dtypes| == |args| && forall j :: 0 <= j < |args| ==> p.filters[j].None?
    ensures PrepareAll(k, p, i, args) == Ok(CastAll(k, p.dtypes, args)[i..])
    decreases |args| - i
  {
    hide Prepare, Cast;
    var all := CastAll(k, p.dtypes, args);
    if i < |args| {
      PrepareUnfiltered(k, p, i, args[i]);
      UnfilteredIsCast(k, p, i + 1, args);
      assert all[i..] == [all[i]] + all[i + 1..];
    } else {
      assert all[i..] == [];
    }
  }

  /** A program without filters runs its instructions on the cast arguments. */
  lemma LaunchIsRun(k: Kernels, b: Block, dtypes: seq<Int32>, args: seq<Tensor>)
    requires b.nargs == |dtypes| == |args|
    ensures Launch(k, ProgramOf(b, dtypes), |args|, args) == Finish(k, ProgramOf(b, dtypes), CastAll(k, dtypes, args))
  {
    hide PrepareAll, Finish;
    var p := ProgramOf(b, dtypes);
    UnfilteredIsCast(k, p, 0, args);
    assert CastAll(k, dtypes, args)[0..] == CastAll(k, dtypes, args);
    if args == [] {
      assert CastAll(k, dtypes, args) == args;
    }
  }

  /** The depth of the code tells how the launch ends, whatever the arguments. */
  lemma LaunchByDepth(k: Kernels, b: Block, dtypes: seq<Int32>, args: seq<Tensor>, n: nat)
    requires b.nargs == |dtypes| == |args| && Depth(|b.dataSegment|, b.instructions, |args|) == Some(n)
    ensures var ran := Run(Concrete(k, b.dataSegment), b.instructions, CastAll(k, dtypes, args));
            && ran.Some?
            && Launch(k, ProgramOf(b, dtypes), |args|, args)
               == if n == b.nresults then Ok(ran.value) else Err(OutputCountMismatch)
  {
    hide Run, Depth, Launch, CastAll;
    var d := Concrete(k, b.dataSegment);
    LaunchIsRun(k, b, dtypes, args);
    DepthRuns(d, b.instructions, CastAll(k, dtypes, args));
    RunDepth(d, b.instructions, CastAll(k, dtypes, args));
  }

  /** Casting the arguments is giving the inputs in the cast environment. */
  lemma CastImage(k: Kernels, toInt: ToInt, g: Graph, inputs: seq<Node>, env: Env, dtypes: seq<Int32>)
    requires Within(g, inputs) && |dtypes| == |inputs|
    requires forall i :: 0 <= i < |inputs| ==> Some(dtypes[i]) == DtypeOf(toInt, g[inputs[i]].bubble)
    ensures CastAll(k, dtypes, Image(env, inputs)) == Image(CastEnv(k, toInt, g, env), inputs)
  {
    hide Cast, DtypeOf;
  }

  /**
   * A launch gives the values of the outputs in the environment the block sees, with its arguments cast. With
   * inputs none of which any output needs, every launch fails its output count.
   */
  ghost predicate LaunchAnswers(k: Kernels, toInt: ToInt, g: Graph, inputs: seq<Node>, outputs: seq<Node>,
                                residual: seq<Node>, p: Program, args: seq<Tensor>)
    requires Dag(g) && Within(g, outputs) && |args| == |inputs|
  {
    var r := Launch(k, p, |inputs|, args);
    if inputs == [] || SomeReachesParameter(g, outputs) then
      && r.Ok?
      && forall env: Env | args == Image(env, inputs) ::
           r.value == EvalAll(g, k, Seen(inputs, residual, CastEnv(k, toInt, g, env)), outputs)
    else
      r == Err(OutputCountMismatch)
  }

  ghost predicate Infers(k: Kernels, toInt: ToInt, g: Graph, inputs: seq<Node>, outputs: seq<Node>,
                         residual: seq<Node>, p: Program)
    requires Dag(g) && Within(g, outputs)
  {
    forall args: seq<Tensor> | |args| == |inputs| :: LaunchAnswers(k, toInt, g, inputs, outputs, residual, p, args)
  }

  lemma CompiledAnswers(k: Kernels, toInt: ToInt, g: Graph, inputs: seq<Node>, outputs: seq<Node>,
                       residual: seq<Node>, b: Block, dtypes: seq<Int32>, args: seq<Tensor>)
    requires Dag(g) && Within(g, inputs) && Within(g, outputs)
    requires b.nargs == |inputs| == |dtypes| == |args| && b.nresults == |outputs|
    requires forall i :: 0 <= i < |inputs| ==> Some(dtypes[i]) == DtypeOf(toInt, g[inputs[i]].bubble)
    requires inputs == [] || SomeReachesParameter(g, outputs) ==> Answers(k, b, g, inputs, outputs, residual)
    requires Depth(|b.dataSegment|, b.instructions, |inputs|)
             == Some(if SomeReachesParameter(g, outputs) then |outputs| else |inputs| + |outputs|)
    ensures LaunchAnswers(k, toInt, g, inputs, outputs, residual, ProgramOf(b, dtypes), args)
  {
    hide SomeReachesParameter, Dag, Run, Depth, DtypeOf, Launch, CastEnv, Seen, CastAll, ProgramOf, Concrete;
    LaunchByDepth(k, b, dtypes, args, Depth(|b.dataSegment|, b.instructions, |inputs|).value);
    forall env: Env | args == Image(env, inputs)
      ensures CastAll(k, dtypes, args) == Image(CastEnv(k, toInt, g, env), inputs)
    {
      CastImage(k, toInt, g, inputs, env, dtypes);
    }
  }

  lemma CompiledInfers(k: Kernels, toInt: ToInt, g: Graph, inputs: seq<Node>, outputs: seq<Node>,
                       residual: seq<Node>, b: Block, dtypes: seq<Int32>)
    requires Dag(g) && Within(g, inputs) && Within(g, outputs)
    requires b.nargs == |inputs| == |dtypes| && b.nresults == |outputs|
    requires forall i :: 0 <= i < |inputs| ==> Some(dtypes[i]) == DtypeOf(toInt, g[inputs[i]].bubble)
    requires inputs == [] || SomeReachesParameter(g, outputs) ==> Answers(k, b, g, inputs, outputs, residual)
    requires Depth(|b.dataSegment|, b.instructions, |inputs|)
             == Some(if SomeReachesParameter(g, outputs) then |outputs| else |inputs| + |outputs|)
    ensures Infers(k, toInt, g, inputs, outputs, residual, ProgramOf(b, dtypes))
  {
    hide SomeReachesParameter, Dag, DtypeOf, ProgramOf, LaunchAnswers, Answers, Depth;
    forall args: seq<Tensor> | |args| == |inputs|
      ensures LaunchAnswers(k, toInt, g, inputs, outputs, residual, ProgramOf(b, dtypes), args)
    {
      CompiledAnswers(k, toInt, g, inputs, outputs, residual, b, dtypes, args);
    }
  }

  /** `Program::Compile`: the compiler, then the data types of the inputs and the outputs. */
  method CompileProgram(k: Kernels, toInt: ToInt, g: Graph, inputs: seq<Node>, outputs: seq<Node>)
    returns (r: Result<Program>, ghost residual: seq<Node>)
    requires WellFormed(g) && Within(g, inputs) && Within(g, outputs)
    ensures r.Ok? <==> Accepts(g, k, inputs, outputs) && AllTyped(toInt, g, inputs) && AllTyped(toInt, g, outputs)
    ensures r.Ok? ==> Fits(r.value, |inputs|) && |r.value.dtypes| == |inputs|
    ensures r.Ok? ==> forall n :: n in residual <==> Needed(g, outputs, n)
    ensures r.Ok? ==> Infers(k, toInt, g, inputs, outputs, residual, r.value)
  {
    hide ComputesEachOnce, ComputesNeeded, OncePerNode, Needed, Answers;
    hide Accepts, SomeReachesParameter, NeedsAddressable, Computes, Infers, HasDtype, DtypeOf;
    var compiled, _, _, _, left := Compile(k, g, inputs, outputs);
    residual := left;
    if compiled.Err? {
      return Err(compiled.error), residual;
    }
    var dtypes := ReadDtypes(toInt, g, inputs);
    if dtypes.None? {
      return Err(NotAnInteger), residual;
    }
    var outDtypes := ReadDtypes(toInt, g, outputs);
    if outDtypes.None? {
      return Err(NotAnInteger), residual;
    }
    r := Ok(ProgramOf(compiled.value, dtypes.value));
    CompiledInfers(k, toInt, g, inputs, outputs, residual, compiled.value, dtypes.value);
  }

  /** An argument whose node asks for a data type, converted to it by `convert`. */
  function TypedEnv(toInt: ToInt, convert: Converter, g: Graph, env: Env): Env {
    (p: Node) =>
      if p < |g| && "#dtype" in g[p].bubble.params && ReadInt(toInt, g[p].bubble.params["#dtype"]).Some? then
        Converted(convert, ReadInt(toInt, g[p].bubble.params["#dtype"]).value, env(p))
      else env(p)
  }

  /** The graph sees each argument converted to the type its node asks for, and so typed. */
  lemma CastEnvIsTyped(k: Kernels, toInt: ToInt, convert: Converter, g: Graph, env: Env, p: Node)
    ensures CastsBy(k, toInt, convert) ==> CastEnv(k, toInt, g, env)(p) == TypedEnv(toInt, convert, g, env)(p)
    ensures Converting(k, toInt) && p < |g| && "#dtype" in g[p].bubble.params ==>
              match ReadInt(toInt, g[p].bubble.params["#dtype"])
              case None => CastEnv(k, toInt, g, env)(p) == env(p)
              case Some(d) =>
                && (d > 0 ==> CastEnv(k, toInt, g, env)(p).dtype == d)
                && (d == 0 ==> CastEnv(k, toInt, g, env)(p) == env(p))
  {
    hide CastsBy, Converting, ReadInt;
    if p < |g| && HasDtype(toInt, g[p].bubble) {
      CastConverts(k, toInt, convert, DtypeOf(toInt, g[p].bubble).value, env(p));
    }
  }

  lemma CastsAreTyped(k: Kernels, toInt: ToInt, convert: Converter, g: Graph, inputs: seq<Node>, residual: seq<Node>,
                      outputs: seq<Node>, env: Env)
    requires Dag(g) && Within(g, outputs) && CastsBy(k, toInt, convert)
    ensures EvalAll(g, k, Seen(inputs, residual, CastEnv(k, toInt, g, env)), outputs)
         == EvalAll(g, k, Seen(inputs, residual, TypedEnv(toInt, convert, g, env)), outputs)
  {
    hide Eval, Dag, Reaches, CastsBy, CastEnv, TypedEnv, InPlaceOf;
    var cast, typed := CastEnv(k, toInt, g, env), TypedEnv(toInt, convert, g, env);
    forall p: Node ensures cast(p) == typed(p) {
      CastEnvIsTyped(k, toInt, convert, g, env, p);
    }
    var one, other := Seen(inputs, residual, cast), Seen(inputs, residual, typed);
    forall p: Node ensures one(p) == other(p) {
      var q := if residual == inputs then p else InPlaceOf(inputs, p);
      assert one(p) == cast(q) && other(p) == typed(q);
    }
    forall i | 0 <= i < |outputs| ensures Eval(g, k, one, outputs[i]) == Eval(g, k, other, outputs[i]) {
      EvalAgrees(g, k, one, other, outputs[i]);
    }
    assert EvalAll(g, k, one, outputs) == EvalAll(g, k, other, outputs);
  }

  /** No Parameter asks for a data type. */
  predicate Untyped(g: Graph) {
    forall p :: 0 <= p < |g| && g[p].bubble.Kind().Parameter? ==> DTYPE !in g[p].bubble.params
  }

  /** Without data types asked for, the values are those of the graph itself. */
  lemma UntypedValues(k: Kernels, toInt: ToInt, g: Graph, env: Env, outputs: seq<Node>)
    requires Dag(g) && Within(g, outputs) && Untyped(g)
    ensures EvalAll(g, k, CastEnv(k, toInt, g, env), outputs) == EvalAll(g, k, env, outputs)
  {
    hide Eval, Dag, Reaches;
    var cast := CastEnv(k, toInt, g, env);
    forall i | 0 <= i < |outputs| ensures Eval(g, k, cast, outputs[i]) == Eval(g, k, env, outputs[i]) {
      EvalAgrees(g, k, cast, env, outputs[i]);
    }
    assert EvalAll(g, k, cast, outputs) == EvalAll(g, k, env, outputs);
  }

  /** What the block sees is what it is given where its leftovers are delivered. */
  lemma SeenAsGiven(k: Kernels, g: Graph, inputs: seq<Node>, outputs: seq<Node>, residual: seq<Node>, env: Env)
    requires Dag(g) && Within(g, outputs) && Accepts(g, k, inputs, outputs)
    requires forall n :: n in residual <==> Needed(g, outputs, n)
    requires inputs == [] || SomeReachesParameter(g, outputs)
    requires Distinct(inputs) || NeedsAddressable(g, inputs, outputs) || residual == inputs
    ensures EvalAll(g, k, Seen(inputs, residual, env), outputs) == EvalAll(g, k, env, outputs)
  {
    hide Accepts, Seen, Needed, NeedsAddressable, Delivered, SomeReachesParameter;
    if Distinct(inputs) {
      DistinctAddressable(g, k, inputs, outputs);
    }
    NeededExists(g, outputs);
    DeliveredIf(g, outputs, inputs, residual);
    DeliveredSees(g, k, inputs, outputs, residual, env);
  }

  /**
   * Inference answers exactly when the compiler takes the graph, all data types asked for can be read, there is
   * an argument for each input, and the inputs are not all unused. The answer is the values of the outputs: in
   * the environment given, if no input is repeated, and otherwise in the one the block sees.
   */
  method Infer(w: Workbench, toInt: ToInt, g: Graph, inputs: seq<Node>, outputs: seq<Node>, args: seq<Tensor>)
    returns (r: Result<seq<Tensor>>, ghost residual: seq<Node>)
    requires w.stack.Valid() && WellFormed(g) && Within(g, inputs) && Within(g, outputs)
    modifies w, w.stack
    ensures r.Ok? <==>
              && Accepts(g, w.k, inputs, outputs) && AllTyped(toInt, g, inputs) && AllTyped(toInt, g, outputs)
              && |args| == |inputs| && (inputs == [] || SomeReachesParameter(g, outputs))
    ensures r.Ok? ==> forall n :: n in residual <==> Needed(g, outputs, n)
    ensures r.Ok? ==>
              forall env: Env | args == Image(env, inputs) ::
                r.value == EvalAll(g, w.k, Seen(inputs, residual, CastEnv(w.k, toInt, g, env)), outputs)
    ensures r.Ok? && (Distinct(inputs) || NeedsAddressable(g, inputs, outputs) || residual == inputs) ==>
              forall env: Env | args == Image(env, inputs) ::
                r.value == EvalAll(g, w.k, CastEnv(w.k, toInt, g, env), outputs)
    ensures r.Ok? ==>
              forall env: Env, convert | args == Image(env, inputs) && CastsBy(w.k, toInt, convert) ::
                r.value == EvalAll(g, w.k, Seen(inputs, residual, TypedEnv(toInt, convert, g, env)), outputs)
    ensures Accepts(g, w.k, inputs, outputs) && AllTyped(toInt, g, inputs) && AllTyped(toInt, g, outputs) ==>
              r.Ok? || r == Err(if |args| == |inputs| then OutputCountMismatch else NargsMismatch)
    ensures w.stack.stack == old(w.stack.stack) && w.stack.base == old(w.stack.base) && w.env == old(w.env)
    ensures w.stack.baseStack == old(w.stack.baseStack)
  {
    hide Accepts, SomeReachesParameter, NeedsAddressable, AllTyped, Fits, Seen, Needed, CastEnv, TypedEnv, CastsBy;
    hide Dag;
    var compiled, left := CompileProgram(w.k, toInt, g, inputs, outputs);
    residual := left;
    if compiled.Err? {
      return Err(compiled.error), residual;
    }
    r := w.LaunchOffline(compiled.value, args);
    forall env: Env, convert | args == Image(env, inputs) && CastsBy(w.k, toInt, convert)
      ensures EvalAll(g, w.k, Seen(inputs, residual, CastEnv(w.k, toInt, g, env)), outputs)
           == EvalAll(g, w.k, Seen(inputs, residual, TypedEnv(toInt, convert, g, env)), outputs)
    {
      CastsAreTyped(w.k, toInt, convert, g, inputs, residual, outputs, env);
    }
    if r.Ok? && (Distinct(inputs) || NeedsAddressable(g, inputs, outputs) || residual == inputs) {
      forall env: Env | args == Image(env, inputs)
        ensures r.value == EvalAll(g, w.k, CastEnv(w.k, toInt, g, env), outputs)
      {
        SeenAsGiven(w.k, g, inputs, outputs, residual, CastEnv(w.k, toInt, g, env));
      }
    }
  }
}
