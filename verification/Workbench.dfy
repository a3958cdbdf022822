/** `Workbench`: launching compiled programs, with their input filters, on the shared stack. */
module Workbenches {
  import opened Collections
  import opened Tensors
  import opened Binio
  import opened Machine
  import opened Runtime

  /** `int`. */
  type Int32 = n: int | -(LIMIT31 as int) <= n < LIMIT31

  /** A compiled program. `filters` and `dtypes` have one entry per input; dtype 0 is VOID, no cast. */
  datatype Program = Program(
    code: seq<Instruction>,
    data: seq<Tensor>,
    filters: seq<Option<Program>>,
    dtypes: seq<Int32>,
    outputCount: nat)

  const CAST := "_cast"

  /** `tensor::from<int32_t>`. */
  function FromInt(n: Int32): Tensor {
    Tensor(INT32, [1], U32(n % LIMIT32), [])
  }

  /**
   * `tensor::to_int` on tensors of other types than INT32, which it converts, is not part of this model: any
   * function, without a value where it throws.
   */
  type ToInt = Tensor -> Option<Int32>

  function Signed(n: nat): Int32
    requires n < LIMIT32
  {
    if n < LIMIT31 then n else n - LIMIT32
  }

  /** `tensor::to_int`: the first entry of an INT32 tensor that has one. */
  function ReadInt(toInt: ToInt, t: Tensor): Option<Int32> {
    if t.dtype == INT32 && 0 !in t.sizes && |t.data| >= 4 then Some(Signed(FromU32(t.data[..4]))) else toInt(t)
  }

  /** What is written is read back. */
  lemma IntBack(toInt: ToInt, n: Int32)
    ensures ReadInt(toInt, FromInt(n)) == Some(n)
  {
    hide U32, FromU32;
    var m := n % LIMIT32;
    U32RoundTrip(m);
    assert U32(m)[..4] == U32(m);
    assert m == if n >= 0 then n else n + LIMIT32;
  }

  function CastTo(dtype: Int32): Bubble {
    Bubble(CAST, "", map["dtype" := FromInt(dtype)])
  }

  /** `cast_tensor`, unless the type is VOID. */
  function Cast(k: Kernels, dtype: Int32, t: Tensor): Tensor {
    if dtype == VOID then t else k.result(CastTo(dtype), [t])
  }

  /** `adjust_nhwc`: two to four dimensions become four. */
  function AdjustNhwc(t: Tensor): Result<Tensor> {
    if |t.sizes| < 2 || |t.sizes| > 4 then Err(BadFilterShape)
    else if |t.sizes| == 2 then Ok(t.(sizes := [1, t.sizes[0], t.sizes[1], 1]))
    else if |t.sizes| == 3 then Ok(t.(sizes := [1, t.sizes[0], t.sizes[1], t.sizes[2]]))
    else Ok(t)
  }

  /**
   * Code that stays inside a frame of `n` entries, the same for every filter. A filter yields one
   * image: `launch_online` addresses the next argument from the top of the stack and counts on that.
   */
  ghost predicate Fits(p: Program, n: nat)
    decreases p
  {
    && |p.filters| == |p.dtypes|
    && Depth(|p.data|, p.code, n).Some?
    && forall i :: 0 <= i < |p.filters| && p.filters[i].Some? ==>
         Fits(p.filters[i].value, 1) && p.filters[i].value.outputCount == 1
  }

  // ---------------------------------------------------------------- the reference meaning, on values

  /** What a filter makes of one image. */
  function Filter(k: Kernels, filter: Program, arg: Tensor): Result<Tensor>
    decreases filter, 3
  {
    match AdjustNhwc(arg)
    case Err(e) => Err(e)
    case Ok(image) =>
      match Launch(k, filter, 1, [image])
      case Err(e) => Err(e)
      case Ok(outs) => if |outs| == 1 then Ok(outs[0]) else Err(OutputCountMismatch)
  }

  /** What becomes of argument `i` before the program sees it: filter, then cast. */
  function Prepare(k: Kernels, p: Program, i: nat, arg: Tensor): Result<Tensor>
    requires i < |p.filters| == |p.dtypes|
    decreases p, 0
  {
    match (if p.filters[i].Some? then Filter(k, p.filters[i].value, arg) else Ok(arg))
    case Err(e) => Err(e)
    case Ok(x) => Ok(Cast(k, p.dtypes[i], x))
  }

  function PrepareAll(k: Kernels, p: Program, i: nat, args: seq<Tensor>): (r: Result<seq<Tensor>>)
    requires i <= |p.filters| == |p.dtypes| == |args|
    ensures r.Ok? ==> |r.value| == |args| - i
    decreases p, 1, |args| - i
  {
    if i == |args| then Ok([])
    else
      match Prepare(k, p, i, args[i])
      case Err(e) => Err(e)
      case Ok(x) =>
        match PrepareAll(k, p, i + 1, args)
        case Err(e) => Err(e)
        case Ok(xs) => Ok([x] + xs)
  }

  /** What the instructions make of the prepared arguments. */
  function Finish(k: Kernels, p: Program, prepared: seq<Tensor>): Result<seq<Tensor>> {
    match Run(Concrete(k, p.data), p.code, prepared)
    case None => Err(StackTooShort)
    case Some(outs) => if |outs| == p.outputCount then Ok(outs) else Err(OutputCountMismatch)
  }

  /** A program as a function from its arguments to its outputs. With no inputs declared it takes the frame as it is. */
  function Launch(k: Kernels, p: Program, nargs: nat, args: seq<Tensor>): Result<seq<Tensor>>
    requires nargs == 0 || |args| == nargs
    decreases p, 2
  {
    if |p.dtypes| != nargs || |p.filters| != nargs then Err(NargsMismatch)
    else
      match (if nargs == 0 then Ok(args) else PrepareAll(k, p, 0, args))
      case Err(e) => Err(e)
      case Ok(prepared) => Finish(k, p, prepared)
  }

  // ---------------------------------------------------------------- what a program sees of its arguments

  type Converter = (int, Tensor) -> Tensor

  /** The operator `_cast` converts to the type its parameter `dtype` asks for. */
  ghost predicate CastsBy(k: Kernels, toInt: ToInt, convert: Converter) {
    forall b: Bubble, x: Tensor ::
      b.op == "_cast" && "dtype" in b.params && ReadInt(toInt, b.params["dtype"]).Some? ==>
        k.result(b, [x]) == convert(ReadInt(toInt, b.params["dtype"]).value, x)
  }

  /** All that has to be known for this: what it gives has that type. */
  ghost predicate Converting(k: Kernels, toInt: ToInt) {
    forall b: Bubble, x: Tensor ::
      b.op == "_cast" && "dtype" in b.params && ReadInt(toInt, b.params["dtype"]).Some?
      && ReadInt(toInt, b.params["dtype"]).value > 0 ==>
        k.result(b, [x]).dtype == ReadInt(toInt, b.params["dtype"]).value
  }

  function Converted(convert: Converter, dtype: int, x: Tensor): Tensor {
    if dtype == 0 then x else convert(dtype, x)
  }

  /** The cast made is the one asked for. */
  lemma CastConverts(k: Kernels, toInt: ToInt, convert: Converter, dtype: Int32, x: Tensor)
    ensures CastsBy(k, toInt, convert) ==> Cast(k, dtype, x) == Converted(convert, dtype, x)
    ensures Converting(k, toInt) && dtype > 0 ==> Cast(k, dtype, x).dtype == dtype
  {
    hide ReadInt, FromInt;
    IntBack(toInt, dtype);
    assert CastTo(dtype).params["dtype"] == FromInt(dtype);
    assert CastTo(dtype).op == "_cast";
    if dtype != VOID {
      assert Cast(k, dtype, x) == k.result(CastTo(dtype), [x]);
    }
  }

  /** `image` is `x` as a batch of one image; without channels it has one. */
  predicate IsImageOf(x: Tensor, image: Tensor) {
    && image == x.(sizes := image.sizes)
    && match |x.sizes|
       case 2 => image.sizes == [1] + x.sizes + [1]
       case 3 => image.sizes == [1] + x.sizes
       case 4 => image.sizes == x.sizes
       case _ => false
  }

  /** What argument `x` is before it is cast: itself, or what the filter makes of its image. */
  ghost predicate IsFiltered(k: Kernels, filter: Option<Program>, x: Tensor, y: Tensor) {
    match filter
    case None => y == x
    case Some(f) => exists image :: IsImageOf(x, image) && Launch(k, f, 1, [image]) == Ok([y])
  }

  lemma FilteredIs(k: Kernels, f: Program, x: Tensor)
    requires Filter(k, f, x).Ok?
    ensures IsFiltered(k, Some(f), x, Filter(k, f, x).value)
  {
    var image := AdjustNhwc(x).value;
    assert IsImageOf(x, image);
    var outs := Launch(k, f, 1, [image]).value;
    assert outs == [outs[0]];
  }

  lemma {:induction false} PreparedAt(k: Kernels, p: Program, i: nat, args: seq<Tensor>, j: nat)
    requires i <= j < |args| && |p.filters| == |p.dtypes| == |args| && PrepareAll(k, p, i, args).Ok?
    ensures Prepare(k, p, j, args[j]) == Ok(PrepareAll(k, p, i, args).value[j - i])
    decreases j - i
  {
    hide Prepare;
    if i < j {
      PreparedAt(k, p, i + 1, args, j);
    }
  }

  /**
   * What the instructions of a program run on: each argument filtered first, as an image, and then cast to the
   * type asked for.
   */
  lemma LaunchSees(k: Kernels, toInt: ToInt, convert: Converter, p: Program, args: seq<Tensor>)
    returns (filtered: seq<Tensor>, seen: seq<Tensor>)
    requires Launch(k, p, |args|, args).Ok?
    ensures |p.filters| == |p.dtypes| == |args| == |filtered| == |seen|
    ensures Run(Concrete(k, p.data), p.code, seen) == Some(Launch(k, p, |args|, args).value)
    ensures forall i :: 0 <= i < |args| ==> IsFiltered(k, p.filters[i], args[i], filtered[i])
    ensures CastsBy(k, toInt, convert) ==>
              forall i :: 0 <= i < |args| ==> seen[i] == Converted(convert, p.dtypes[i], filtered[i])
    ensures Converting(k, toInt) ==>
              forall i :: 0 <= i < |args| && p.dtypes[i] > 0 ==> seen[i].dtype == p.dtypes[i]
  {
    hide Run, PrepareAll, IsFiltered, CastsBy, Converting, Filter, Cast, Converted;
    seen := if args == [] then [] else PrepareAll(k, p, 0, args).value;
    filtered := [];
    for i := 0 to |args|
      invariant |filtered| == i && forall j :: 0 <= j < i ==> IsFiltered(k, p.filters[j], args[j], filtered[j])
      invariant CastsBy(k, toInt, convert) ==>
                  forall j :: 0 <= j < i ==> seen[j] == Converted(convert, p.dtypes[j], filtered[j])
      invariant Converting(k, toInt) ==>
                  forall j :: 0 <= j < i && p.dtypes[j] > 0 ==> seen[j].dtype == p.dtypes[j]
    {
      PreparedAt(k, p, 0, args, i);
      var x := PreparedFrom(k, p, i, args[i]);
      CastConverts(k, toInt, convert, p.dtypes[i], x);
      filtered := filtered + [x];
    }
  }

  lemma PreparedFrom(k: Kernels, p: Program, i: nat, arg: Tensor) returns (x: Tensor)
    requires i < |p.filters| == |p.dtypes| && Prepare(k, p, i, arg).Ok?
    ensures IsFiltered(k, p.filters[i], arg, x) && Prepare(k, p, i, arg) == Ok(Cast(k, p.dtypes[i], x))
  {
    hide Filter, Cast, AdjustNhwc, Launch;
    x := arg;
    if p.filters[i].Some? {
      FilteredIs(k, p.filters[i].value, arg);
      x := Filter(k, p.filters[i].value, arg).value;
    }
  }

  lemma FilteredBack(k: Kernels, f: Program, x: Tensor, y: Tensor)
    requires IsFiltered(k, Some(f), x, y)
    ensures Filter(k, f, x) == Ok(y)
  {
    var image :| IsImageOf(x, image) && Launch(k, f, 1, [image]) == Ok([y]);
    assert image.sizes == AdjustNhwc(x).value.sizes;
  }

  lemma {:induction false} PreparedBack(k: Kernels, p: Program, i: nat, args: seq<Tensor>, seen: seq<Tensor>)
    requires i <= |p.filters| == |p.dtypes| == |args| == |seen|
    requires forall j :: i <= j < |args| ==> Prepare(k, p, j, args[j]) == Ok(seen[j])
    ensures PrepareAll(k, p, i, args) == Ok(seen[i..])
    decreases |args| - i
  {
    hide Prepare;
    if i < |args| {
      PreparedBack(k, p, i + 1, args, seen);
      assert Prepare(k, p, i, args[i]) == Ok(seen[i]);
      assert PrepareAll(k, p, i, args) == Ok([seen[i]] + seen[i + 1..]);
      assert seen[i..] == [seen[i]] + seen[i + 1..];
    }
  }

  /** And whenever the arguments can be filtered and the instructions run to the right size, the launch succeeds. */
  lemma LaunchSucceeds(k: Kernels, toInt: ToInt, convert: Converter, p: Program, args: seq<Tensor>,
                       filtered: seq<Tensor>, seen: seq<Tensor>)
    requires CastsBy(k, toInt, convert)
    requires |p.filters| == |p.dtypes| == |args| == |filtered| == |seen|
    requires forall i :: 0 <= i < |args| ==> IsFiltered(k, p.filters[i], args[i], filtered[i])
    requires forall i :: 0 <= i < |args| ==> seen[i] == Converted(convert, p.dtypes[i], filtered[i])
    requires Run(Concrete(k, p.data), p.code, seen).Some?
    requires |Run(Concrete(k, p.data), p.code, seen).value| == p.outputCount
    ensures Launch(k, p, |args|, args) == Ok(Run(Concrete(k, p.data), p.code, seen).value)
  {
    hide Run, PrepareAll, IsFiltered, CastsBy, Filter, Cast, Converted;
    forall i | 0 <= i < |args| ensures Prepare(k, p, i, args[i]) == Ok(seen[i]) {
      if p.filters[i].Some? {
        FilteredBack(k, p.filters[i].value, args[i], filtered[i]);
      } else {
        FilteredNot(k, args[i], filtered[i]);
      }
      CastConverts(k, toInt, convert, p.dtypes[i], filtered[i]);
    }
    PreparedBack(k, p, 0, args, seen);
    assert seen[0..] == seen;
  }

  lemma FilteredNot(k: Kernels, x: Tensor, y: Tensor)
    ensures IsFiltered(k, None, x, y) <==> y == x
  {
  }

  /** A program without code gives back its prepared argument. */
  lemma Idle(k: Kernels, filter: Option<Program>, x: Tensor)
    ensures Launch(k, Program([], [], [filter], [0], 1), 1, [x])
            == match (if filter.None? then Ok(x) else Filter(k, filter.value, x))
               case Err(e) => Err(e)
               case Ok(y) => Ok([y])
  {
    hide Filter;
    var p := Program([], [], [filter], [0], 1);
    assert PrepareAll(k, p, 1, [x]) == Ok([]);
    if Prepare(k, p, 0, x).Ok? {
      var y := Prepare(k, p, 0, x).value;
      assert [y] + [] == [y] && PrepareAll(k, p, 0, [x]) == Ok([y]);
      assert Finish(k, p, [y]) == Ok([y]);
    } else {
      assert PrepareAll(k, p, 0, [x]).Err?;
    }
  }

  /** A program that does nothing, behind a filter that does nothing: all that happens is that it becomes an image. */
  lemma ThroughFilter(k: Kernels, x: Tensor)
    ensures var n, f := |x.sizes|, Program([], [], [None], [0], 1);
            Launch(k, Program([], [], [Some(f)], [0], 1), 1, [x])
            == if n == 2 then Ok([x.(sizes := [1, x.sizes[0], x.sizes[1], 1])])
               else if n == 3 then Ok([x.(sizes := [1, x.sizes[0], x.sizes[1], x.sizes[2]])])
               else if n == 4 then Ok([x])
               else Err(BadFilterShape)
  {
    hide Launch;
    var f := Program([], [], [None], [0], 1);
    Idle(k, Some(f), x);
    if AdjustNhwc(x).Ok? {
      Idle(k, None, AdjustNhwc(x).value);
    }
  }

  // ---------------------------------------------------------------- the workbench

  datatype ProgramEnv = ProgramEnv(program: Program, pointer: nat, length: nat)

  class Workbench {
    const k: Kernels
    const stack: Stack
    var env: seq<ProgramEnv>

    constructor (k: Kernels)
      ensures this.k == k && fresh(stack) && stack.Valid() && stack.Frame() == [] && stack.baseStack == [] && env == []
    {
      this.k, env := k, [];
      stack := new Stack();
    }

    /** The arguments of a call with `nargs` arguments: the frame `push_base(-nargs)` opens. */
    ghost function Arguments(nargs: nat): seq<Tensor>
      requires stack.Valid() && nargs <= |stack.Frame()|
      reads this, stack
    {
      stack.Frame()[At(|stack.Frame()|, -(nargs as int))..]
    }

    /** The argument on top gives way to what the filter makes of it. */
    method ApplyFilter(filter: Program, arg: Tensor) returns (r: Result<()>)
      requires stack.Valid() && stack.Frame() != [] && stack.Frame()[|stack.Frame()| - 1] == arg
      requires Fits(filter, 1) && filter.outputCount == 1
      modifies this, stack
      ensures stack.Valid() && stack.Kept() && env == old(env)
      ensures match Filter(k, filter, arg)
              case Err(e) => r == Err(e)
              case Ok(x) => r.Ok? && stack.Frame() == old(stack.Frame()[..|stack.Frame()| - 1]) + [x]
      decreases filter, 4
    {
      var image := AdjustNhwc(arg);
      if image.Err? {
        return Err(image.error);
      }
      stack.Push(image.value);
      stack.EraseOne(-2);
      assert stack.Frame() == old(stack.Frame()[..|stack.Frame()| - 1]) + [image.value];
      assert Arguments(1) == [image.value];
      var launched := LaunchOnline(filter, 1);
      r := if launched.Err? then Err(launched.error) else Ok(());
    }

    /** One turn of the argument loop: the filtered and cast argument lands on top. */
    method PrepareArgument(p: Program, i: nat, nargs: nat) returns (r: Result<()>)
      requires stack.Valid() && i < |p.dtypes| == |p.filters| && 0 < nargs <= |stack.Frame()|
      requires p.filters[i].Some? ==> Fits(p.filters[i].value, 1) && p.filters[i].value.outputCount == 1
      modifies this, stack
      ensures stack.Valid() && stack.Kept() && env == old(env)
      ensures match Prepare(k, p, i, old(stack.Frame()[|stack.Frame()| - nargs]))
              case Err(e) => r == Err(e)
              case Ok(x) => r.Ok? && stack.Frame() == old(stack.Frame()) + [x]
      decreases p, 0
    {
      var found := stack.Index(-(nargs as int));
      var arg := found.value;
      stack.Push(arg);
      if p.filters[i].Some? {
        var filtered := ApplyFilter(p.filters[i].value, arg);
        if filtered.Err? {
          return filtered;
        }
      }
      if p.dtypes[i] != VOID {
        var casting := RunOperator(stack, ActionOf(k, CastTo(p.dtypes[i])), 1);
      }
      return Ok(());
    }

    method PrepareArguments(p: Program, ghost args: seq<Tensor>) returns (r: Result<()>)
      requires stack.Valid() && stack.Frame() == args && |args| == |p.dtypes| == |p.filters|
      requires forall i :: 0 <= i < |p.filters| && p.filters[i].Some? ==>
                 Fits(p.filters[i].value, 1) && p.filters[i].value.outputCount == 1
      modifies this, stack
      ensures stack.Valid() && stack.Kept() && env == old(env)
      ensures match PrepareAll(k, p, 0, args)
              case Err(e) => r == Err(e)
              case Ok(xs) => r.Ok? && stack.Frame() == args + xs
      decreases p, 1
    {
      ghost var done: seq<Tensor> := [];
      ghost var bottom := stack.stack[..stack.base];
      var nargs := |p.dtypes|;
      assert PrepareAll(k, p, 0, args).Ok? ==>
          done + PrepareAll(k, p, 0, args).value == PrepareAll(k, p, 0, args).value;
      for i := 0 to nargs
        invariant stack.Valid() && stack.Kept() && env == old(env) && |done| == i && stack.Frame() == args + done
        invariant match PrepareAll(k, p, i, args)
                  case Err(e) => PrepareAll(k, p, 0, args) == Err(e)
                  case Ok(xs) => PrepareAll(k, p, 0, args) == Ok(done + xs)
      {
        label before:
        assert stack.Frame()[|stack.Frame()| - nargs] == args[i];
        r := PrepareArgument(p, i, nargs);
        if r.Err? {
          return;
        }
        ghost var x := stack.Frame()[|stack.Frame()| - 1];
        done := done + [x];
        Shift(done[..i], x, PrepareAll(k, p, i + 1, args));
      }
      return Ok(());
    }

    lemma Shift(done: seq<Tensor>, x: Tensor, rest: Result<seq<Tensor>>)
      ensures rest.Ok? ==> done + ([x] + rest.value) == done + [x] + rest.value
    {
    }

    /** The fetch-and-run loop over the program on top of the environment stack. */
    method Execute(p: Program)
      requires stack.Valid() && env != [] && env[|env| - 1] == ProgramEnv(p, 0, |p.code|)
      requires Run(Concrete(k, p.data), p.code, stack.Frame()).Some?
      modifies this, stack
      ensures stack.Valid() && stack.Kept() && |env| == |old(env)| && env[..|env| - 1] == old(env[..|env| - 1])
      ensures Some(stack.Frame()) == Run(Concrete(k, p.data), p.code, old(stack.Frame()))
    {
      ghost var callers := env[..|env| - 1];
      while env[|env| - 1].pointer < env[|env| - 1].length
        invariant stack.Valid() && stack.Kept() && |env| == |callers| + 1 && env[..|env| - 1] == callers
        invariant env[|env| - 1].program == p && env[|env| - 1].pointer <= env[|env| - 1].length == |p.code|
        invariant Run(Concrete(k, p.data), p.code[env[|env| - 1].pointer..], stack.Frame())
               == Run(Concrete(k, p.data), p.code, old(stack.Frame()))
        decreases env[|env| - 1].length - env[|env| - 1].pointer
      {
        var top := env[|env| - 1];
        var inst := top.program.code[top.pointer];
        assert p.code[top.pointer..][0] == inst && p.code[top.pointer..][1..] == p.code[top.pointer + 1..];
        env := env[|env| - 1 := top.(pointer := top.pointer + 1)];
        RunInFrame(k, stack, top.program.data, inst);
      }
    }

    /** Everything between the base being saved and its restoration. */
    method RunProgram(p: Program, nargs: nat, ghost args: seq<Tensor>) returns (r: Result<nat>)
      requires stack.Valid() && stack.Frame() == args && |p.dtypes| == nargs && (nargs == 0 || |args| == nargs)
      requires Fits(p, |args|) && env != [] && env[|env| - 1] == ProgramEnv(p, 0, |p.code|)
      modifies this, stack
      ensures stack.Valid() && stack.Kept() && |env| == |old(env)| && env[..|env| - 1] == old(env[..|env| - 1])
      ensures match Launch(k, p, nargs, args)
              case Err(e) => r == Err(e)
              case Ok(outs) => r == Ok(|outs|) && stack.Frame() == outs
      decreases p, 2
    {
      hide PrepareAll, Run, Depth;
      if nargs > 0 {
        var prepared := PrepareArguments(p, args);
        if prepared.Err? {
          return Err(prepared.error);
        }
      }
      ghost var xs := if nargs == 0 then args else PrepareAll(k, p, 0, args).value;
      stack.Erase(0, nargs);
      assert stack.Frame() == xs;
      DepthRuns(Concrete(k, p.data), p.code, xs);
      Execute(p);
      r := if stack.Size() != p.outputCount then Err(OutputCountMismatch) else Ok(stack.Size());
    }

    method LaunchOnline(p: Program, nargs: nat) returns (r: Result<nat>)
      requires stack.Valid()
      requires |p.dtypes| == nargs <= |stack.Frame()| ==> Fits(p, |Arguments(nargs)|)
      modifies this, stack
      ensures stack.Valid() && stack.Kept() && env == old(env)
      ensures nargs <= |old(stack.Frame())| ==>
                old(stack.Frame()[..At(|stack.Frame()|, -(nargs as int))]) <= stack.Frame()
      ensures |p.dtypes| != nargs ==> r == Err(NargsMismatch)
      ensures |p.dtypes| == nargs && nargs > |old(stack.Frame())| ==> r == Err(StackTooShort)
      ensures nargs <= |old(stack.Frame())| ==>
                match Launch(k, p, nargs, old(Arguments(nargs)))
                case Err(e) => r == Err(e)
                case Ok(outs) =>
                  && r == Ok(|outs|)
                  && stack.Frame() == old(stack.Frame()[..At(|stack.Frame()|, -(nargs as int))]) + outs
      decreases p, 3
    {
      if |p.dtypes| != nargs {
        return Err(NargsMismatch);
      }
      hide Launch, Fits;
      if stack.Size() < nargs {
        return Err(StackTooShort);
      }
      env := env + [ProgramEnv(p, 0, |p.code|)];
      stack.PushBase(-(nargs as int));
      ghost var args, mid := stack.Frame(), stack.base;
      r := RunProgram(p, nargs, args);
      ghost var left := stack.Frame();
      assert stack.stack == old(stack.stack)[..mid] + left;
      Reframed(old(stack.stack), old(stack.base), mid, left);
      stack.PopBase();
      env := env[..|env| - 1];
    }

    method CopyFrame(count: nat) returns (outputs: seq<Tensor>)
      requires stack.Valid() && count == |stack.Frame()|
      ensures outputs == stack.Frame()
    {
      outputs := [];
      for i := 0 to count
        invariant outputs == stack.Frame()[..i]
      {
        var t := stack.Index(i);
        outputs := outputs + [t.value];
      }
    }

    /** `launch_offline`: a frame of its own for the call, emptied again whatever happens. */
    method LaunchOffline(p: Program, args: seq<Tensor>) returns (r: Result<seq<Tensor>>)
      requires stack.Valid() && (|p.dtypes| == |args| ==> Fits(p, |args|))
      modifies this, stack
      ensures stack.stack == old(stack.stack) && stack.base == old(stack.base)
      ensures stack.baseStack == old(stack.baseStack)
      ensures env == old(env)
      ensures r == Launch(k, p, |args|, args)
    {
      hide Launch, Fits;
      stack.PushBase(stack.Size());
      for i := 0 to |args|
        invariant stack.Valid() && stack.Frame() == args[..i] && env == old(env)
        invariant stack.base == |old(stack.stack)| && stack.stack[..stack.base] == old(stack.stack)
        invariant stack.baseStack == old(stack.baseStack) + [old(stack.base)]
      {
        stack.Push(args[i]);
      }
      assert args[..|args|] == args;
      assert Arguments(|args|) == args;
      var count := LaunchOnline(p, |args|);
      if count.Err? {
        r := Err(count.error);
      } else {
        var outputs := CopyFrame(count.value);
        assert stack.Frame()[..0] == [] && [] + outputs == outputs;
        r := Ok(outputs);
      }
      stack.Clear();
      stack.PopBase();
    }
  }
}
