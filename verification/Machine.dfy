/**
 * Instructions and their meaning on one frame: what each does to the entries above the
 * running base, whatever those entries are. The same definition runs a frame of tensors
 * and a frame of node names.
 */
module Machine {
  import opened Collections
  import opened Tensors
  import opened Graphs

  datatype Instruction =
    | Push(i: int)
    | Swap(i: int, j: int)
    | Erase(beg: int, end: int)
    | DataSegment(index: nat)
    | Operate(node: Node, bubble: Bubble, nargs: nat)

  /** What a frame's entries are: the data segment, and what an operator makes of its arguments. */
  datatype Domain<!T> = Domain(data: seq<T>, apply: (Node, Bubble, seq<T>) -> Option<T>)

  /** Bottom-up when `i >= 0`, top-down otherwise; in particular `-0` is the bottom, not the top. */
  function At(size: nat, i: int): int {
    if i >= 0 then i else size + i
  }

  function Step<T>(d: Domain<T>, c: Instruction, f: seq<T>): Option<seq<T>> {
    match c
    case Push(i) =>
      var p := At(|f|, i);
      if 0 <= p < |f| then Some(f + [f[p]]) else None
    case Swap(i, j) =>
      var p, q := At(|f|, i), At(|f|, j);
      if 0 <= p < |f| && 0 <= q < |f| then Some(f[p := f[q]][q := f[p]]) else None
    case Erase(beg, end) =>
      var a, b := At(|f|, beg), At(|f|, end);
      if 0 <= a <= b <= |f| then Some(f[..a] + f[b..]) else None
    case DataSegment(index) =>
      if index < |d.data| then Some(f + [d.data[index]]) else None
    case Operate(node, bubble, nargs) =>
      var a := At(|f|, -(nargs as int));
      if a < 0 then None
      else if a > |f| then None
      else match d.apply(node, bubble, f[a..])
           case None => None
           case Some(r) => Some(f[..a] + [r])
  }

  function Run<T>(d: Domain<T>, code: seq<Instruction>, f: seq<T>): Option<seq<T>> {
    if code == [] then Some(f)
    else match Step(d, code[0], f)
         case None => None
         case Some(f') => Run(d, code[1..], f')
  }

  lemma {:induction false} RunAppend<T>(d: Domain<T>, code: seq<Instruction>, more: seq<Instruction>, f: seq<T>)
    ensures Run(d, code + more, f) ==
            match Run(d, code, f) case None => None case Some(f') => Run(d, more, f')
    decreases |code|
  {
    if code == [] {
      assert code + more == more;
    } else {
      assert (code + more)[1..] == code[1..] + more;
      match Step(d, code[0], f)
      case None =>
      case Some(f') => RunAppend(d, code[1..], more, f');
    }
  }

  /** Tensors as stack entries: operators compute. */
  function Concrete(k: Kernels, data: seq<Tensor>): Domain<Tensor> {
    Domain(data, (n: Node, b: Bubble, args: seq<Tensor>) => Some(k.result(b, args)))
  }

  // ---------------------------------------------------------------- runs on names and runs on values

  function Image<T, U>(h: T -> U, s: seq<T>): (r: seq<U>)
    ensures |r| == |s| && forall i :: 0 <= i < |s| ==> r[i] == h(s[i])
  {
    seq(|s|, i requires 0 <= i < |s| => h(s[i]))
  }

  /** `h` carries the first domain into the second: data to data, and operator results to operator results. */
  ghost predicate Maps<T(!new), U(!new)>(h: T -> U, d: Domain<T>, e: Domain<U>) {
    && e.data == Image(h, d.data)
    && forall n, b, args :: d.apply(n, b, args).Some? ==>
         e.apply(n, b, Image(h, args)) == Some(h(d.apply(n, b, args).value))
  }

  lemma StepMaps<T(!new), U(!new)>(h: T -> U, d: Domain<T>, e: Domain<U>, c: Instruction, f: seq<T>)
    requires Maps(h, d, e) && Step(d, c, f).Some?
    ensures Step(e, c, Image(h, f)) == Some(Image(h, Step(d, c, f).value))
  {
    if c.Operate? {
      var a := At(|f|, -(c.nargs as int));
      assert Image(h, f)[a..] == Image(h, f[a..]);
    }
    assert Step(e, c, Image(h, f)).value == Image(h, Step(d, c, f).value);
  }

  /** A run on names is a run on the values the names denote. */
  lemma {:induction false} RunMaps<T(!new), U(!new)>(h: T -> U, d: Domain<T>, e: Domain<U>, code: seq<Instruction>,
                                                           f: seq<T>)
    requires Maps(h, d, e) && Run(d, code, f).Some?
    ensures Run(e, code, Image(h, f)) == Some(Image(h, Run(d, code, f).value))
    decreases |code|
  {
    if code != [] {
      StepMaps(h, d, e, code[0], f);
      RunMaps(h, d, e, code[1..], Step(d, code[0], f).value);
    }
  }

  // ---------------------------------------------------------------- nothing is forgotten

  /** Bottom-up indices, no Erase, no operator without arguments. */
  predicate Plain(code: seq<Instruction>) {
    forall i :: 0 <= i < |code| ==> PlainInstruction(code[i])
  }

  predicate PlainInstruction(c: Instruction) {
    match c
    case Push(i) => i >= 0
    case Swap(i, j) => i >= 0 && j >= 0
    case Erase(_, _) => false
    case DataSegment(_) => true
    case Operate(_, _, nargs) => nargs > 0
  }

  /** Different arguments, as many, give different results. */
  ghost predicate Injective<T(!new)>(d: Domain<T>) {
    forall n, b, x, y :: |x| == |y| && d.apply(n, b, x).Some? && d.apply(n, b, y) == d.apply(n, b, x) ==> x == y
  }

  lemma StepInjective<T(!new)>(d: Domain<T>, c: Instruction, f: seq<T>, f': seq<T>)
    requires Injective(d) && PlainInstruction(c) && |f| == |f'| && Step(d, c, f).Some? && Step(d, c, f').Some?
    ensures |Step(d, c, f).value| == |Step(d, c, f').value|
    ensures Step(d, c, f) == Step(d, c, f') ==> f == f'
  {
    var r, r' := Step(d, c, f).value, Step(d, c, f').value;
    if r == r' {
      match c
      case Push(_) => LastDropped(f, f[At(|f|, c.i)], f', f'[At(|f|, c.i)]);
      case Swap(i, j) => Unswapped(f, f', At(|f|, i), At(|f|, j));
      case DataSegment(index) => LastDropped(f, d.data[index], f', d.data[index]);
      case Operate(node, bubble, nargs) =>
        var a := |f| - nargs;
        LastDropped(f[..a], d.apply(node, bubble, f[a..]).value, f'[..a], d.apply(node, bubble, f'[a..]).value);
        assert f == f[..a] + f[a..] && f' == f'[..a] + f'[a..];
    }
  }

  lemma LastDropped<T>(s: seq<T>, x: T, t: seq<T>, y: T)
    requires s + [x] == t + [y]
    ensures s == t && x == y
  {
    assert (s + [x])[..|s|] == s && (t + [y])[..|t|] == t;
    assert (s + [x])[|s|] == x && (t + [y])[|t|] == y;
  }

  lemma Unswapped<T>(s: seq<T>, t: seq<T>, p: nat, q: nat)
    requires |s| == |t| && p < |s| && q < |s| && s[p := s[q]][q := s[p]] == t[p := t[q]][q := t[p]]
    ensures s == t
  {
    var u, v := s[p := s[q]][q := s[p]], t[p := t[q]][q := t[p]];
    assert u[q] == s[p] && v[q] == t[p];
    assert p != q ==> u[p] == s[q] && v[p] == t[q];
    forall k | 0 <= k < |s| ensures s[k] == t[k] {
      assert k != p && k != q ==> u[k] == s[k] && v[k] == t[k];
    }
  }

  /** Plain code that forgets nothing ends alike only on frames that were alike. */
  lemma {:induction false} RunInjective<T(!new)>(d: Domain<T>, code: seq<Instruction>, f: seq<T>, f': seq<T>)
    requires Injective(d) && Plain(code) && |f| == |f'|
    requires Run(d, code, f).Some? && Run(d, code, f') == Run(d, code, f)
    ensures f == f'
    decreases |code|
  {
    hide Injective, Step;
    if code != [] {
      assert PlainInstruction(code[0]);
      StepInjective(d, code[0], f, f');
      RunInjective(d, code[1..], Step(d, code[0], f).value, Step(d, code[0], f').value);
    }
  }

  // ---------------------------------------------------------------- static depths

  /** The frame size after `c`, from sizes alone; `None` when `c` would leave the frame. */
  function DepthStep(data: nat, c: Instruction, size: nat): Option<nat> {
    match c
    case Push(i) => if 0 <= At(size, i) < size then Some(size + 1) else None
    case Swap(i, j) => if 0 <= At(size, i) < size && 0 <= At(size, j) < size then Some(size) else None
    case Erase(beg, end) =>
      var a, b := At(size, beg), At(size, end);
      if 0 <= a <= b <= size then Some(size - (b - a)) else None
    case DataSegment(index) => if index < data then Some(size + 1) else None
    case Operate(_, _, nargs) =>
      var a := At(size, -(nargs as int));
      if 0 <= a <= size then Some(a + 1) else None
  }

  function Depth(data: nat, code: seq<Instruction>, size: nat): Option<nat> {
    if code == [] then Some(size)
    else match DepthStep(data, code[0], size)
         case None => None
         case Some(size') => Depth(data, code[1..], size')
  }

  /** Plain code also runs on a larger frame, and adds the same number of entries to it. */
  lemma {:induction false} PlainAdds(data: nat, code: seq<Instruction>, size: nat, more: nat)
    requires Plain(code) && Depth(data, code, size).Some?
    ensures Depth(data, code, size + more) == Some(Depth(data, code, size).value + more)
    decreases |code|
  {
    if code != [] {
      assert PlainInstruction(code[0]);
      var size' := DepthStep(data, code[0], size).value;
      assert DepthStep(data, code[0], size + more) == Some(size' + more);
      PlainAdds(data, code[1..], size', more);
    }
  }

  lemma {:induction false} DepthAppend(data: nat, code: seq<Instruction>, tail: seq<Instruction>, size: nat)
    ensures Depth(data, code + tail, size) ==
            match Depth(data, code, size) case None => None case Some(size') => Depth(data, tail, size')
    decreases |code|
  {
    if code == [] {
      assert code + tail == tail;
    } else {
      assert (code + tail)[1..] == code[1..] + tail;
      match DepthStep(data, code[0], size)
      case None =>
      case Some(size') => DepthAppend(data, code[1..], tail, size');
    }
  }

  /** How large the frame is after a run does not depend on the entries. */
  lemma {:induction false} RunDepth<T>(d: Domain<T>, code: seq<Instruction>, f: seq<T>)
    requires Run(d, code, f).Some?
    ensures Depth(|d.data|, code, |f|) == Some(|Run(d, code, f).value|)
    decreases |code|
  {
    if code != [] {
      assert DepthStep(|d.data|, code[0], |f|) == Some(|Step(d, code[0], f).value|);
      RunDepth(d, code[1..], Step(d, code[0], f).value);
    }
  }

  ghost predicate Total<T(!new)>(d: Domain<T>) {
    forall n, b, args :: d.apply(n, b, args).Some?
  }

  /** Nor does whether the code stays inside its frame. */
  lemma {:induction false} DepthRuns<T(!new)>(d: Domain<T>, code: seq<Instruction>, f: seq<T>)
    requires Total(d) && Depth(|d.data|, code, |f|).Some?
    ensures Run(d, code, f).Some?
    decreases |code|
  {
    if code != [] {
      var s := Step(d, code[0], f);
      assert s.Some? && DepthStep(|d.data|, code[0], |f|) == Some(|s.value|);
      DepthRuns(d, code[1..], s.value);
    }
  }
}
