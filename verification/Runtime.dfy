/** The based stack and the execution of single instructions on it. */
module Runtime {
  import opened Collections
  import opened Bytes
  import opened Tensors
  import opened Machine

  class Stack {
    var stack: seq<Tensor>
    var base: nat
    var baseStack: seq<nat>

    ghost predicate Valid()
      reads this
    {
      base <= |stack|
    }

    /** The entries the running code may address bottom-up. */
    ghost function Frame(): seq<Tensor>
      requires Valid()
      reads this
    {
      stack[base..]
    }

    /** What a call must leave alone: the base, the entries under it, and the saved bases. */
    twostate predicate Kept()
      requires old(Valid()) && Valid()
      reads this
    {
      base == old(base) && stack[..base] == old(stack[..base]) && baseStack == old(baseStack)
    }

    constructor ()
      ensures Valid() && Frame() == [] && baseStack == [] && base == 0
    {
      stack, base, baseStack := [], 0, [];
    }

    function Relative2Absolute(i: int): int
      reads this
    {
      if i >= 0 then base + i else |stack| + i
    }

    /** A bottom-up index, or a top-down one that stays in the frame, addresses the frame. */
    lemma RelativeIsFrameIndex(i: int)
      requires Valid() && 0 <= At(|Frame()|, i)
      ensures Relative2Absolute(i) == base + At(|Frame()|, i)
    {
    }

    function Size(): nat
      requires Valid()
      reads this
    {
      |stack| - base
    }

    method Push(tensor: Tensor)
      requires Valid()
      modifies this`stack
      ensures Valid() && Frame() == old(Frame()) + [tensor] && Kept() && stack == old(stack) + [tensor]
    {
      stack := stack + [tensor];
    }

    /** `at()` throws outside the whole stack; below the base it does not. */
    method Index(i: int) returns (r: Option<Tensor>)
      requires Valid()
      ensures r.Some? <==> 0 <= Relative2Absolute(i) < |stack|
      ensures r.Some? ==> r.value == stack[Relative2Absolute(i)]
      ensures 0 <= At(|Frame()|, i) < |Frame()| ==> r == Some(Frame()[At(|Frame()|, i)])
    {
      var p := Relative2Absolute(i);
      r := if 0 <= p < |stack| then Some(stack[p]) else None;
    }

    /** `*index(i) = tensor`. */
    method Assign(i: int, tensor: Tensor)
      requires 0 <= Relative2Absolute(i) < |stack|
      modifies this`stack
      ensures stack == old(stack)[old(Relative2Absolute(i)) := tensor]
      ensures old(Valid() && 0 <= At(|Frame()|, i)) ==>
                Valid() && Frame() == old(Frame())[At(|old(Frame())|, i) := tensor] && Kept()
    {
      stack := stack[Relative2Absolute(i) := tensor];
    }

    /** The container takes any range of its own; one that lies in the frame leaves what is below alone. */
    method Erase(beg: int, end: int)
      requires 0 <= Relative2Absolute(beg) <= Relative2Absolute(end) <= |stack|
      modifies this`stack
      ensures stack == old(stack)[..old(Relative2Absolute(beg))] + old(stack)[old(Relative2Absolute(end))..]
      ensures old(Valid() && 0 <= At(|Frame()|, beg) <= At(|Frame()|, end)) ==>
                && Valid() && Kept()
                && Frame() == old(Frame()[..At(|Frame()|, beg)] + Frame()[At(|Frame()|, end)..])
    {
      var b, e := Relative2Absolute(beg), Relative2Absolute(end);
      stack := stack[..b] + stack[e..];
    }

    method EraseOne(i: int)
      requires Valid() && 0 <= At(|Frame()|, i) < |Frame()|
      modifies this`stack
      ensures Valid() && Kept()
      ensures Frame() == old(Frame()[..At(|Frame()|, i)] + Frame()[At(|Frame()|, i) + 1..])
    {
      var p := Relative2Absolute(i);
      stack := stack[..p] + stack[p + 1..];
    }

    method Clear()
      requires Valid()
      modifies this`stack
      ensures Valid() && Frame() == [] && Kept()
    {
      Erase(0, Size());
    }

    method Rebase(newBase: nat) returns (oldBase: nat)
      modifies this`base
      ensures base == newBase && oldBase == old(base)
    {
      oldBase := base;
      base := newBase;
    }

    /**
     * Moves the base up or down. If it stays in the frame, what lies from `i` on becomes the new frame;
     * for `i == -0` that is all of it. From below the bottom of the container it wraps around.
     */
    method PushBase(i: int)
      modifies this`base, this`baseStack
      ensures stack == old(stack) && baseStack == old(baseStack) + [old(base)]
      ensures base == ToSize(old(Relative2Absolute(i)))
      ensures Valid() <==> base <= |stack|
      ensures old(Valid() && 0 <= At(|Frame()|, i) <= |Frame()|) ==>
                Valid() && base == old(base) + At(|old(Frame())|, i) && Frame() == old(Frame()[At(|Frame()|, i)..])
    {
      var oldBase := Rebase(ToSize(Relative2Absolute(i)));
      baseStack := baseStack + [oldBase];
    }

    method PopBase()
      modifies this`base, this`baseStack
      ensures stack == old(stack) && (Valid() <==> base <= |stack|)
      ensures if old(baseStack) == [] then base == 0 && baseStack == []
              else base == old(baseStack[|baseStack| - 1]) && baseStack == old(baseStack[..|baseStack| - 1])
    {
      if baseStack == [] {
        var _ := Rebase(0);
      } else {
        var _ := Rebase(baseStack[|baseStack| - 1]);
        baseStack := baseStack[..|baseStack| - 1];
      }
    }
  }

  /** An operator on its frame: what it leaves there, and how many of the last entries it says are its results. */
  datatype Action = Action(leaves: seq<Tensor> -> seq<Tensor>, answers: seq<Tensor> -> nat)

  /** The operators of a graph leave their arguments, scratch entries and one result. */
  function ActionOf(k: Kernels, b: Bubble): Action {
    Action((args: seq<Tensor>) => args + k.scratch(b, args) + [k.result(b, args)], (args: seq<Tensor>) => 1)
  }

  /** What survives of a frame: its results, or everything if there are none, as `erase(0, -0)` erases nothing. */
  function Surviving(left: seq<Tensor>, count: nat): (r: seq<Tensor>)
    requires count <= |left|
    ensures |r| == (if count == 0 then |left| else count) && left[..|left| - |r|] + r == left
  {
    if count == 0 then left else left[|left| - count..]
  }

  /** The arguments an operator finds: the whole frame if it takes none. */
  function ArgumentsOf(frame: seq<Tensor>, nargs: nat): (r: seq<Tensor>)
    requires nargs <= |frame|
    ensures |r| == (if nargs == 0 then |frame| else nargs) && frame[..|frame| - |r|] + r == frame
  {
    frame[At(|frame|, -(nargs as int))..]
  }

  /** The operator is run with its arguments as a frame of its own. */
  method Act(s: Stack, op: Action, nargs: nat) returns (count: nat)
    requires s.Valid() && nargs <= |s.Frame()|
    modifies s
    ensures var args := ArgumentsOf(old(s.Frame()), nargs);
            && s.base == |old(s.stack)| - |args| && s.baseStack == old(s.baseStack) + [old(s.base)]
            && s.stack == old(s.stack)[..s.base] + op.leaves(args) && count == op.answers(args)
  {
    s.PushBase(-(nargs as int));
    var args := s.stack[s.base..];
    s.stack := s.stack[..s.base] + op.leaves(args);
    count := op.answers(args);
  }

  /** Only its last `count` entries survive of the frame, and the frame before comes back. */
  method Return(s: Stack, count: nat)
    requires s.Valid() && count <= |s.Frame()| && s.baseStack != []
    modifies s
    ensures s.stack == old(s.stack[..s.base] + Surviving(s.Frame(), count))
    ensures s.base == old(s.baseStack[|s.baseStack| - 1]) && s.baseStack == old(s.baseStack[..|s.baseStack| - 1])
  {
    s.Erase(0, -(count as int));
    s.PopBase();
  }

  /** What is above a base can be exchanged from some entry of the frame on. */
  lemma Reframed(stack: seq<Tensor>, base: nat, mid: nat, more: seq<Tensor>)
    requires base <= mid <= |stack|
    ensures (stack[..mid] + more)[..base] == stack[..base]
    ensures (stack[..mid] + more)[base..] == stack[base..][..mid - base] + more
    ensures (stack[..mid] + more)[..mid] == stack[..mid] && (stack[..mid] + more)[mid..] == more
  {
  }

  /** `RunOperator`: the operator sees its arguments as a frame of its own, of which only its results survive. */
  method RunOperator(s: Stack, op: Action, nargs: nat) returns (r: Result<nat>)
    requires s.Valid()
    modifies s
    ensures s.Valid() && s.Kept()
    ensures nargs > |old(s.Frame())| ==> r == Err(StackTooShort) && s.Frame() == old(s.Frame())
    ensures nargs <= |old(s.Frame())| ==>
              var args := ArgumentsOf(old(s.Frame()), nargs);
              var below, left := old(s.Frame())[..|old(s.Frame())| - |args|], op.leaves(args);
              if op.answers(args) > |left| then r == Err(TooFewResults) && s.Frame() == below + left
              else r == Ok(op.answers(args)) && s.Frame() == below + Surviving(left, op.answers(args))
  {
    hide Surviving, ArgumentsOf;
    if s.Size() < nargs {
      return Err(StackTooShort);
    }
    ghost var args := ArgumentsOf(s.Frame(), nargs);
    ghost var stack, base := s.stack, s.base;
    var count := Act(s, op, nargs);
    Reframed(stack, base, s.base, op.leaves(args));
    if s.Size() < count {
      s.PopBase();
      return Err(TooFewResults);
    }
    Reframed(stack, base, s.base, Surviving(op.leaves(args), count));
    Return(s, count);
    return Ok(count);
  }

  /** `OperatorInstruction::run`: besides, the number of results must be the one expected. */
  method RunOperatorInstruction(s: Stack, op: Action, nargs: nat, nresults: nat) returns (r: Result<()>)
    requires s.Valid()
    modifies s
    ensures s.Valid() && s.Kept()
    ensures nargs > |old(s.Frame())| ==> r == Err(StackTooShort) && s.Frame() == old(s.Frame())
    ensures nargs <= |old(s.Frame())| ==>
              var args := ArgumentsOf(old(s.Frame()), nargs);
              var below, left := old(s.Frame())[..|old(s.Frame())| - |args|], op.leaves(args);
              && (r.Ok? <==> op.answers(args) == nresults <= |left|)
              && s.Frame() == below + if r.Ok? then Surviving(left, nresults) else left
  {
    hide Surviving, ArgumentsOf;
    if s.Size() < nargs {
      return Err(StackTooShort);
    }
    ghost var args := ArgumentsOf(s.Frame(), nargs);
    ghost var stack, base := s.stack, s.base;
    var count := Act(s, op, nargs);
    Reframed(stack, base, s.base, op.leaves(args));
    if count != nresults {
      s.PopBase();
      return Err(ResultsMismatch);
    }
    if s.Size() < count {
      s.PopBase();
      return Err(TooFewResults);
    }
    Reframed(stack, base, s.base, Surviving(op.leaves(args), nresults));
    Return(s, nresults);
    return Ok(());
  }

  /** One instruction on the whole stack; without a value it throws, or erases a range that is none. */
  function StepWhole(k: Kernels, data: seq<Tensor>, c: Instruction, stack: seq<Tensor>, base: nat): Option<seq<Tensor>>
    requires base <= |stack|
  {
    match c
    case Push(i) =>
      var p := Absolute(stack, base, i);
      if 0 <= p < |stack| then Some(stack + [stack[p]]) else None
    case Swap(i, j) =>
      var p, q := Absolute(stack, base, i), Absolute(stack, base, j);
      if 0 <= p < |stack| && 0 <= q < |stack| then Some(stack[p := stack[q]][q := stack[p]]) else None
    case Erase(beg, end) =>
      var a, b := Absolute(stack, base, beg), Absolute(stack, base, end);
      if 0 <= a <= b <= |stack| then Some(stack[..a] + stack[b..]) else None
    case DataSegment(index) =>
      if index < |data| then Some(stack + [data[index]]) else None
    case Operate(_, b, nargs) =>
      if nargs > |stack| - base then None
      else
        var args := ArgumentsOf(stack[base..], nargs);
        Some(stack[..|stack| - |args|] + [k.result(b, args)])
  }

  function Absolute(stack: seq<Tensor>, base: nat, i: int): int {
    if i >= 0 then base + i else |stack| + i
  }

  lemma ErasedInFrame(stack: seq<Tensor>, base: nat, a: nat, b: nat)
    requires base <= |stack| && a <= b <= |stack| - base
    ensures stack[..base + a] + stack[base + b..] == stack[..base] + (stack[base..][..a] + stack[base..][b..])
  {
    assert stack[..base + a] == stack[..base] + stack[base..][..a];
    assert stack[base + b..] == stack[base..][b..];
  }

  lemma SwappedInFrame(stack: seq<Tensor>, base: nat, p: nat, q: nat)
    requires base <= |stack| && p < |stack| - base && q < |stack| - base
    ensures var f := stack[base..];
            stack[base + p := stack[base + q]][base + q := stack[base + p]] == stack[..base] + f[p := f[q]][q := f[p]]
  {
  }

  lemma LaidOnFrame(stack: seq<Tensor>, base: nat, a: nat, x: Tensor)
    requires base <= |stack| && a <= |stack| - base
    ensures stack[..base + a] + [x] == stack[..base] + (stack[base..][..a] + [x])
  {
  }

  lemma PushedInFrame(stack: seq<Tensor>, base: nat, x: Tensor)
    requires base <= |stack|
    ensures stack + [x] == stack[..base] + (stack[base..] + [x])
  {
  }

  lemma KernelInFrame(k: Kernels, data: seq<Tensor>, c: Instruction, stack: seq<Tensor>, base: nat)
    requires base <= |stack| && Step(Concrete(k, data), c, stack[base..]).Some? && c.Operate?
    ensures StepWhole(k, data, c, stack, base) == Some(stack[..base] + Step(Concrete(k, data), c, stack[base..]).value)
  {
    var f := stack[base..];
    LaidOnFrame(stack, base, At(|f|, -(c.nargs as int)), k.result(c.bubble, ArgumentsOf(f, c.nargs)));
  }

  /** What `Machine.Step` says of the frame happens to the whole stack, and nothing else. */
  lemma StepInFrame(k: Kernels, data: seq<Tensor>, c: Instruction, stack: seq<Tensor>, base: nat)
    requires base <= |stack| && Step(Concrete(k, data), c, stack[base..]).Some?
    ensures StepWhole(k, data, c, stack, base) == Some(stack[..base] + Step(Concrete(k, data), c, stack[base..]).value)
  {
    var f := stack[base..];
    match c
    case Push(i) => PushedInFrame(stack, base, f[At(|f|, i)]);
    case Swap(i, j) => SwappedInFrame(stack, base, At(|f|, i), At(|f|, j));
    case Erase(beg, end) => ErasedInFrame(stack, base, At(|f|, beg), At(|f|, end));
    case DataSegment(index) => PushedInFrame(stack, base, data[index]);
    case Operate(_, _, _) => KernelInFrame(k, data, c, stack, base);
  }

  lemma LastSurvives(left: seq<Tensor>, x: Tensor)
    ensures Surviving(left + [x], 1) == [x]
  {
  }

  /** An operator of a graph as an instruction. */
  method RunKernel(k: Kernels, s: Stack, b: Bubble, nargs: nat) returns (r: Result<()>)
    requires s.Valid()
    modifies s
    ensures s.base == old(s.base) && s.baseStack == old(s.baseStack)
    ensures nargs > |old(s.Frame())| ==> r.Err? && s.stack == old(s.stack)
    ensures nargs <= |old(s.Frame())| ==>
              var args := ArgumentsOf(old(s.Frame()), nargs);
              r.Ok? && s.stack == old(s.stack)[..|old(s.stack)| - |args|] + [k.result(b, args)]
  {
    hide ArgumentsOf, Surviving;
    ghost var stack, frame := s.stack, s.Frame();
    assert stack == stack[..s.base] + frame;
    if nargs <= |frame| {
      ghost var args := ArgumentsOf(frame, nargs);
      LastSurvives(args + k.scratch(b, args), k.result(b, args));
    }
    r := RunOperatorInstruction(s, ActionOf(k, b), nargs, 1);
    assert s.stack == s.stack[..s.base] + s.Frame();
  }

  /**
   * One instruction. It throws exactly if it addresses something outside the whole stack, takes more than
   * the frame has, or a constant there is not; a range to erase has to be one.
   */
  method RunInstruction(k: Kernels, s: Stack, data: seq<Tensor>, c: Instruction) returns (r: Result<()>)
    requires s.Valid()
    requires c.Erase? ==> 0 <= s.Relative2Absolute(c.beg) <= s.Relative2Absolute(c.end) <= |s.stack|
    modifies s
    ensures s.base == old(s.base) && s.baseStack == old(s.baseStack)
    ensures match StepWhole(k, data, c, old(s.stack), s.base)
            case None => r.Err? && s.stack == old(s.stack)
            case Some(stack) => r.Ok? && s.stack == stack
  {
    hide ArgumentsOf, At;
    r := Ok(());
    match c
    case Push(i) =>
      var t := s.Index(i);
      if t.None? {
        return Err(OutOfRange);
      }
      s.Push(t.value);
    case Swap(i, j) =>
      var ti := s.Index(i);
      if ti.None? {
        return Err(OutOfRange);
      }
      var tj := s.Index(j);
      if tj.None? {
        return Err(OutOfRange);
      }
      s.Assign(i, tj.value);
      s.Assign(j, ti.value);
    case Erase(beg, end) =>
      s.Erase(beg, end);
    case DataSegment(index) =>
      if index >= |data| {
        return Err(OutOfRange);
      }
      s.Push(data[index]);
    case Operate(_, b, nargs) =>
      r := RunKernel(k, s, b, nargs);
  }

  /** An instruction that stays in its frame does to the frame what `Machine.Step` says, and nothing else. */
  method RunInFrame(k: Kernels, s: Stack, data: seq<Tensor>, c: Instruction)
    requires s.Valid() && Step(Concrete(k, data), c, s.Frame()).Some?
    modifies s
    ensures s.Valid() && s.Kept()
    ensures Some(s.Frame()) == Step(Concrete(k, data), c, old(s.Frame()))
  {
    StepInFrame(k, data, c, s.stack, s.base);
    ghost var stack, base := s.stack, s.base;
    ghost var frame := Step(Concrete(k, data), c, s.Frame()).value;
    if c.Erase? {
      EraseInFrame(k, data, c, s.stack, s.base);
    }
    hide StepWhole, Step;
    var _ := RunInstruction(k, s, data, c);
    assert s.stack == stack[..base] + frame;
  }

  lemma EraseInFrame(k: Kernels, data: seq<Tensor>, c: Instruction, stack: seq<Tensor>, base: nat)
    requires base <= |stack| && Step(Concrete(k, data), c, stack[base..]).Some? && c.Erase?
    ensures 0 <= Absolute(stack, base, c.beg) <= Absolute(stack, base, c.end) <= |stack|
  {
  }
}
