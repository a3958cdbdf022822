/** `scan.h`: nested repetitions of steps, the interpreter that walks them, and their pruning. */
module Scans {
  import opened Collections

  datatype Iteration =
    | Step(times: nat, step: int)
    | Iters(times: nat, iters: seq<Iteration>)

  /** The step the interpreter answers with when it is over: the smallest `long`. */
  const FINISH: int := -0x8000_0000_0000_0000

  // ---------------------------------------------------------------- what an iteration stands for

  function Repeat(n: nat, s: seq<int>): seq<int> {
    if n == 0 then [] else s + Repeat(n - 1, s)
  }

  /** One round of an iteration. */
  function Round(it: Iteration): seq<int>
    decreases it, 0
  {
    match it
    case Step(_, step) => [step]
    case Iters(_, iters) => FlattenAll(iters)
  }

  /** All the steps of an iteration, in order. */
  function Flatten(it: Iteration): seq<int>
    decreases it, 1
  {
    Repeat(it.times, Round(it))
  }

  function FlattenAll(iters: seq<Iteration>): seq<int>
    decreases iters
  {
    if iters == [] then [] else Flatten(iters[0]) + FlattenAll(iters[1..])
  }

  // ---------------------------------------------------------------- the interpreter

  /** An iteration on the interpreter's stack, with the rounds it has left. */
  datatype Status = Status(proto: Iteration, count: nat)

  function Left(s: Status): seq<int> {
    Repeat(s.count, Round(s.proto))
  }

  /** What a stack has left to do; its top is the last element. */
  function Remaining(stack: seq<Status>): seq<int> {
    if stack == [] then [] else Left(stack[|stack| - 1]) + Remaining(stack[..|stack| - 1])
  }

  function Started(it: Iteration): Status {
    Status(it, it.times)
  }

  /** The children of an iteration as they are pushed: the first one ends up on top. */
  function Pushed(iters: seq<Iteration>): (r: seq<Status>)
    ensures |r| == |iters|
  {
    if iters == [] then [] else Pushed(iters[1..]) + [Started(iters[0])]
  }

  lemma {:induction false} RemainingAppend(a: seq<Status>, b: seq<Status>)
    ensures Remaining(a + b) == Remaining(b) + Remaining(a)
  {
    hide Left;
    if b == [] {
      assert a + b == a;
    } else {
      var n := |b| - 1;
      RemainingAppend(a, b[..n]);
      assert (a + b)[..|a + b| - 1] == a + b[..n];
      assert (a + b)[|a + b| - 1] == b[n];
    }
  }

  lemma PushedNext(iters: seq<Iteration>, i: nat)
    requires i < |iters|
    ensures Pushed(iters[i..]) == Pushed(iters[i + 1..]) + [Started(iters[i])]
  {
    assert iters[i..][1..] == iters[i + 1..];
  }

  lemma {:induction false} RemainingPushed(iters: seq<Iteration>)
    ensures Remaining(Pushed(iters)) == FlattenAll(iters)
  {
    hide Round, Repeat;
    if iters != [] {
      RemainingPushed(iters[1..]);
      var top := Started(iters[0]);
      assert Remaining([top]) == Left(top) + Remaining([]);
      RemainingAppend(Pushed(iters[1..]), [top]);
    }
  }

  /** A round less to do, and that round. */
  lemma OneLess(top: Status)
    requires top.count > 0
    ensures Left(top) == Round(top.proto) + Left(top.(count := top.count - 1))
  {
    hide Round;
  }

  lemma RemainingOf(below: seq<Status>, top: Status)
    ensures Remaining(below + [top]) == Left(top) + Remaining(below)
  {
    hide Left;
    assert (below + [top])[..|below|] == below;
  }

  lemma RoundOfGroup(it: Iteration)
    requires it.Iters?
    ensures Round(it) == FlattenAll(it.iters)
  {
  }

  lemma RoundOfStep(it: Iteration)
    requires it.Step?
    ensures Round(it) == [it.step]
  {
  }

  /** Expanding a group leaves the same steps to do. */
  lemma ExpandKeeps(below: seq<Status>, top: Status)
    requires top.proto.Iters? && top.count > 0
    ensures Remaining(below + [top.(count := top.count - 1)] + Pushed(top.proto.iters)) == Remaining(below + [top])
  {
    hide *;
    var less, children := top.(count := top.count - 1), Pushed(top.proto.iters);
    calc {
      Remaining(below + [less] + children);
      { RemainingAppend(below + [less], children); }
      Remaining(children) + Remaining(below + [less]);
      { RemainingPushed(top.proto.iters); RemainingOf(below, less); }
      FlattenAll(top.proto.iters) + (Left(less) + Remaining(below));
      FlattenAll(top.proto.iters) + Left(less) + Remaining(below);
      { RoundOfGroup(top.proto); OneLess(top); }
      Left(top) + Remaining(below);
      { RemainingOf(below, top); }
      Remaining(below + [top]);
    }
  }

  /** How long `deploy` can work on an iteration, counting expansions and removals. */
  function Work(it: Iteration): (w: nat)
    decreases it
  {
    match it
    case Step(_, _) => 1
    case Iters(_, iters) => 1 + WorkAll(iters)
  }

  function WorkAll(iters: seq<Iteration>): (w: nat)
    decreases iters
  {
    if iters == [] then 0 else 1 + iters[0].times * Work(iters[0]) + WorkAll(iters[1..])
  }

  function WorkOf(stack: seq<Status>): (w: nat) {
    if stack == [] then 0
    else
      var top := stack[|stack| - 1];
      1 + top.count * Work(top.proto) + WorkOf(stack[..|stack| - 1])
  }

  lemma {:induction false} WorkOfPushed(below: seq<Status>, iters: seq<Iteration>)
    ensures WorkOf(below + Pushed(iters)) == WorkOf(below) + WorkAll(iters)
  {
    hide Work;
    if iters == [] {
      assert below + Pushed(iters) == below;
    } else {
      WorkOfPushed(below, iters[1..]);
      var stack := below + Pushed(iters);
      assert stack[..|stack| - 1] == below + Pushed(iters[1..]);
    }
  }

  lemma WorkOfMore(below: seq<Status>, top: Status)
    ensures WorkOf(below + [top]) == 1 + top.count * Work(top.proto) + WorkOf(below)
  {
    hide Work;
    assert (below + [top])[..|below|] == below;
  }

  lemma OneRound(count: nat, work: nat)
    requires count > 0
    ensures count * work == (count - 1) * work + work
  {
  }

  lemma WorkOfGroup(it: Iteration)
    requires it.Iters?
    ensures Work(it) == 1 + WorkAll(it.iters)
  {
  }

  /** Expanding a group costs one. */
  lemma ExpandWorks(below: seq<Status>, top: Status)
    requires top.proto.Iters? && top.count > 0
    ensures WorkOf(below + [top.(count := top.count - 1)] + Pushed(top.proto.iters)) < WorkOf(below + [top])
  {
    hide Work, WorkOf, WorkAll, Pushed;
    var less := top.(count := top.count - 1);
    WorkOfPushed(below + [less], top.proto.iters);
    WorkOfMore(below, less);
    WorkOfMore(below, top);
    OneRound(top.count, Work(top.proto));
    WorkOfGroup(top.proto);
  }

  lemma PopWorks(below: seq<Status>, top: Status)
    ensures WorkOf(below) < WorkOf(below + [top])
    ensures top.count == 0 ==> Remaining(below + [top]) == Remaining(below)
  {
    hide Work;
    assert (below + [top])[..|below|] == below;
    assert top.count * Work(top.proto) >= 0;
  }

  class Interpreter {
    var proto: Option<Iteration>
    var status: seq<Status>

    /** Between two calls, the next step is on top of the stack. */
    ghost predicate Valid()
      reads this
    {
      status != [] ==> status[|status| - 1].proto.Step? && status[|status| - 1].count > 0
    }

    constructor (proto: Option<Iteration>)
      ensures Valid() && this.proto == proto
      ensures Remaining(status) == if proto.None? then [] else Flatten(proto.value)
    {
      this.proto := proto;
      status := [];
      new;
      Rewind();
    }

    method Rewind()
      modifies this`status
      ensures Valid()
      ensures Remaining(status) == if proto.None? then [] else Flatten(proto.value)
    {
      status := [];
      if proto.None? {
        return;
      }
      status := status + [Started(proto.value)];
      assert status[..0] == [];
      Deploy();
    }

    /** The children of a group, the last one first, so that the first one is on top. */
    method PushAll(iters: seq<Iteration>)
      modifies this`status
      ensures status == old(status) + Pushed(iters)
    {
      assert Pushed([]) == [];
      hide *;
      var i := |iters|;
      assert iters[i..] == [];
      while i > 0
        invariant 0 <= i <= |iters| && status == old(status) + Pushed(iters[i..])
      {
        i := i - 1;
        PushedNext(iters, i);
        status := status + [Started(iters[i])];
      }
      assert iters[0..] == iters;
    }

    /** Goes down to the next step. It comes to an end for all repeat counts, also those of empty groups. */
    method Deploy()
      modifies this`status
      ensures Valid() && Remaining(status) == Remaining(old(status))
    {
      hide Flatten, Work, Round, WorkOf, Remaining, Pushed;
      while status != []
        invariant Remaining(status) == Remaining(old(status))
        decreases WorkOf(status)
      {
        var top := status[|status| - 1];
        ghost var below := status[..|status| - 1];
        assert status == below + [top];
        if top.count == 0 {
          PopWorks(below, top);
          status := status[..|status| - 1];
          continue;
        }
        if top.proto.Iters? {
          ExpandKeeps(below, top);
          ExpandWorks(below, top);
          status := status[..|status| - 1] + [top.(count := top.count - 1)];
          PushAll(top.proto.iters);
          continue;
        }
        break;
      }
    }

    /** The steps come out one by one, then `FINISH` for ever. */
    method Next() returns (step: int)
      requires Valid()
      modifies this`status
      ensures Valid()
      ensures var left := Remaining(old(status));
              if left == [] then step == FINISH && Remaining(status) == []
              else step == left[0] && Remaining(status) == left[1..]
    {
      if status == [] {
        return FINISH;
      }
      var n := |status| - 1;
      var top := status[n];
      ghost var below := status[..n];
      assert status == below + [top];
      hide Left, Remaining, Round;
      step := top.proto.step;
      RemainingOf(below, top);
      OneLess(top);
      RoundOfStep(top.proto);
      status := status[n := top.(count := top.count - 1)];
      assert status == below + [top.(count := top.count - 1)];
      RemainingOf(below, top.(count := top.count - 1));
      Deploy();
    }
  }

  lemma ShiftStep(steps: seq<int>, left: seq<int>)
    ensures left != [] ==> steps + left == steps + [left[0]] + left[1..]
  {
  }

  /** Repeated `next` gives the flattened iteration. */
  method Walk(it: Iteration) returns (steps: seq<int>)
    ensures steps == Flatten(it)
  {
    hide Flatten, Remaining, Interpreter.Valid;
    var interpreter := new Interpreter(Some(it));
    steps := [];
    var n := |Flatten(it)|;
    for i := 0 to n
      invariant fresh(interpreter) && interpreter.Valid()
      invariant i == |steps| && steps + Remaining(interpreter.status) == Flatten(it)
    {
      ShiftStep(steps, Remaining(interpreter.status));
      var step := interpreter.Next();
      steps := steps + [step];
    }
  }

  // ---------------------------------------------------------------- pruning

  /** Nothing in it stands for no step. */
  predicate Trim(it: Iteration) {
    it.times > 0 && (it.Iters? ==> it.iters != [] && forall child :: child in it.iters ==> Trim(child))
  }

  predicate AllTrim(iters: seq<Iteration>) {
    forall child :: child in iters ==> Trim(child)
  }

  lemma AllTrimMore(iters: seq<Iteration>, it: Iteration)
    requires AllTrim(iters) && Trim(it)
    ensures AllTrim(iters + [it])
  {
    hide Trim;
  }

  lemma {:induction false} FlattenAllAppend(a: seq<Iteration>, b: seq<Iteration>)
    ensures FlattenAll(a + b) == FlattenAll(a) + FlattenAll(b)
  {
    hide Flatten, Round, Repeat;
    if a == [] {
      assert a + b == b;
    } else {
      FlattenAllAppend(a[1..], b);
      assert (a + b)[0] == a[0] && (a + b)[1..] == a[1..] + b;
      assert FlattenAll(a + b) == Flatten(a[0]) + (FlattenAll(a[1..]) + FlattenAll(b));
    }
  }

  lemma {:induction false} RepeatLength(n: nat, s: seq<int>)
    ensures |Repeat(n, s)| == n * |s|
  {
    if n > 0 {
      RepeatLength(n - 1, s);
    }
  }

  /** The rounds follow each other: entry `r` of round `q` is entry `r` of what is repeated. */
  lemma {:induction false} RepeatAt(n: nat, s: seq<int>, q: nat, r: nat)
    requires q < n && r < |s|
    ensures q * |s| + r < |Repeat(n, s)| && Repeat(n, s)[q * |s| + r] == s[r]
  {
    if q > 0 {
      RepeatAt(n - 1, s, q - 1, r);
      assert q * |s| == (q - 1) * |s| + |s|;
    }
  }

  /** Twice a group of two ones and a five. */
  lemma NestedExample()
    ensures Flatten(Iters(2, [Step(2, 1), Iters(1, [Step(1, 5)])])) == [1, 1, 5, 1, 1, 5]
  {
    var inner, ones := Iters(1, [Step(1, 5)]), Step(2, 1);
    assert Repeat(1, [1]) == [1] + Repeat(0, [1]) == [1];
    assert Flatten(ones) == [1] + Repeat(1, [1]) == [1, 1];
    assert FlattenAll([]) == [];
    assert Flatten(Step(1, 5)) == [5] + Repeat(0, [5]) == [5];
    assert [Step(1, 5)][1..] == [] && FlattenAll([Step(1, 5)]) == [5] + FlattenAll([]) == [5];
    assert Flatten(inner) == [5] + Repeat(0, [5]) == [5];
    assert [ones, inner][1..] == [inner] && [inner][1..] == [];
    assert FlattenAll([inner]) == [5] + FlattenAll([]) == [5];
    assert FlattenAll([ones, inner]) == [1, 1] + [5] == [1, 1, 5];
    var s := [1, 1, 5];
    assert Repeat(1, s) == s + Repeat(0, s) == s;
    assert Repeat(2, s) == s + Repeat(1, s);
  }

  lemma DropEmpty(a: seq<Iteration>, x: Iteration, b: seq<Iteration>)
    requires Flatten(x) == []
    ensures FlattenAll(a + b) == FlattenAll(a + [x] + b)
  {
    hide Flatten;
    FlattenAllAppend(a, b);
    FlattenAllAppend(a, [x]);
    FlattenAllAppend(a + [x], b);
  }

  lemma SwapEqual(a: seq<Iteration>, x: Iteration, y: Iteration, b: seq<Iteration>)
    requires Flatten(x) == Flatten(y)
    ensures FlattenAll(a + [y] + b) == FlattenAll(a + [x] + b)
    ensures |FlattenAll(a + [y])| == |FlattenAll(a)| + |Flatten(y)|
  {
    hide Flatten;
    FlattenAllAppend(a, [x]);
    FlattenAllAppend(a, [y]);
    FlattenAllAppend(a + [x], b);
    FlattenAllAppend(a + [y], b);
  }

  /**
   * `update_iteration`: the number of steps. Empty parts are cut out, so that nothing empty is left, and
   * everything else is kept. Without a result, the iteration has been deleted.
   */
  method Update(it: Iteration) returns (n: nat, pruned: Option<Iteration>)
    ensures n == |Flatten(it)|
    ensures pruned.None? <==> n == 0
    ensures pruned.Some? ==> Trim(pruned.value) && Flatten(pruned.value) == Flatten(it)
    decreases it, 1
  {
    RepeatLength(it.times, Round(it));
    if it.times == 0 {
      return 0, None;
    }
    if it.Iters? {
      var times, iters := UpdateAll(it.iters, it);
      n := it.times * times;
      if times == 0 {
        return n, None;
      }
      Positive(it.times, times);
      return n, Some(Iters(it.times, iters));
    }
    return it.times, Some(it);
  }

  lemma Positive(a: nat, b: nat)
    requires a > 0 && b > 0
    ensures a * b > 0
  {
  }

  lemma CutAt(done: seq<Iteration>, x: Iteration, rest: seq<Iteration>, y: Iteration)
    ensures var s, i := done + ([x] + rest), |done|;
            s[i] == x && s[..i] + s[i + 1..] == done + rest && s[i := y] == (done + [y]) + rest
            && s == done + [x] + rest && (done + [y]) + rest == done + [y] + rest
  {
  }

  /** An empty part is cut out. */
  lemma Cut(iters: seq<Iteration>, done: seq<Iteration>, x: Iteration, rest: seq<Iteration>)
    requires iters == done + ([x] + rest) && Flatten(x) == []
    ensures iters[..|done|] + iters[|done| + 1..] == done + rest && FlattenAll(done + rest) == FlattenAll(iters)
  {
    hide *;
    CutAt(done, x, rest, x);
    DropEmpty(done, x, rest);
  }

  /** Another part is replaced by what it has been pruned to. */
  lemma Change(iters: seq<Iteration>, done: seq<Iteration>, x: Iteration, rest: seq<Iteration>, y: Iteration)
    requires iters == done + ([x] + rest) && Flatten(x) == Flatten(y) && AllTrim(done) && Trim(y)
    ensures iters[|done| := y] == (done + [y]) + rest && FlattenAll((done + [y]) + rest) == FlattenAll(iters)
    ensures AllTrim(done + [y]) && |FlattenAll(done + [y])| == |FlattenAll(done)| + |Flatten(y)|
  {
    hide *;
    CutAt(done, x, rest, y);
    SwapEqual(done, x, y, rest);
    AllTrimMore(done, y);
  }

  lemma Head(done: seq<Iteration>, s: seq<Iteration>, k: nat)
    requires k < |s|
    ensures done + s[k..] == done + ([s[k]] + s[k + 1..]) && (done + s[k..])[|done|] == s[k]
  {
  }

  /** The loop of `update_iteration` over the children. */
  method UpdateAll(children: seq<Iteration>, ghost parent: Iteration) returns (times: nat, iters: seq<Iteration>)
    requires parent.Iters? && parent.iters == children
    ensures times == |FlattenAll(children)| && FlattenAll(iters) == FlattenAll(children)
    ensures iters == [] <==> times == 0
    ensures AllTrim(iters)
    decreases parent, 0
  {
    assert AllTrim([]) && FlattenAll([]) == [];
    hide *;
    times := 0;
    iters := children;
    var i := 0;
    ghost var k, done := 0, [];
    assert children[0..] == children;
    while i < |iters|
      invariant k <= |children| && i == |done| && iters == done + children[k..]
      invariant times == |FlattenAll(done)| && (times == 0 <==> done == [])
      invariant FlattenAll(iters) == FlattenAll(children)
      invariant AllTrim(done)
      decreases |iters| - i
    {
      ghost var rest := children[k + 1..];
      Head(done, children, k);
      var current := iters[i];
      var localTimes, child := Update(current);
      if localTimes == 0 {
        Cut(iters, done, current, rest);
        iters := iters[..i] + iters[i + 1..];
      } else {
        Change(iters, done, current, rest, child.value);
        iters := iters[i := child.value];
        times := times + localTimes;
        done := done + [child.value];
        i := i + 1;
      }
      k := k + 1;
    }
    assert children[k..] == [] && iters == done;
  }
}
