/** The part of `Compiler::compile` that fetches the inputs into the places the code expects. */
module InputFixUp {
  import opened Collections
  import opened Tensors
  import opened Graphs
  import opened Machine

  /** `working_input_nodes`: a repeated node keeps its first number, and does not use up a new one. */
  function Slots(inputs: seq<Node>): map<Node, nat> {
    if inputs == [] then map[]
    else
      var last := |inputs| - 1;
      var slots := Slots(inputs[..last]);
      if inputs[last] in slots then slots else slots[inputs[last] := |slots|]
  }

  predicate DistinctThrough(s: seq<Node>, last: nat)
    requires last < |s|
  {
    forall i, j :: 0 <= i < j <= last ==> s[i] != s[j]
  }

  /** No node is repeated up to where `n` first occurs. */
  predicate Addressable(inputs: seq<Node>, n: Node) {
    exists i :: 0 <= i < |inputs| && inputs[i] == n && DistinctThrough(inputs, i)
  }

  lemma {:induction false} SlotsSize(inputs: seq<Node>)
    ensures forall n :: n in Slots(inputs) <==> n in inputs
    ensures |Slots(inputs)| <= |inputs|
    ensures |Slots(inputs)| == |inputs| <==> Distinct(inputs)
    ensures forall n :: n in inputs ==> Slots(inputs)[n] < |inputs|
  {
    if inputs != [] {
      var last := |inputs| - 1;
      SlotsSize(inputs[..last]);
      assert inputs == inputs[..last] + [inputs[last]];
      var slots := Slots(inputs[..last]);
      if inputs[last] in slots {
        var i :| 0 <= i < last && inputs[..last][i] == inputs[last];
        assert inputs[i] == inputs[last];
      } else {
        assert slots[inputs[last] := |slots|].Keys == slots.Keys + {inputs[last]};
        assert Distinct(inputs[..last]) ==> Distinct(inputs);
      }
      assert Distinct(inputs) ==> Distinct(inputs[..last]);
    }
  }

  lemma AddressablePrefix(inputs: seq<Node>, n: Node)
    requires inputs != [] && n in inputs[..|inputs| - 1]
    ensures Addressable(inputs, n) <==> Addressable(inputs[..|inputs| - 1], n)
  {
  }

  lemma AddressableLast(inputs: seq<Node>)
    requires inputs != [] && inputs[|inputs| - 1] !in inputs[..|inputs| - 1]
    ensures Addressable(inputs, inputs[|inputs| - 1]) <==> Distinct(inputs[..|inputs| - 1])
  {
  }

  /** The number of a node is its stack position exactly when nothing is repeated before it. */
  lemma {:induction false} SlotIsPosition(inputs: seq<Node>, n: Node)
    requires n in inputs
    ensures n in Slots(inputs) && Slots(inputs)[n] < |inputs|
    ensures inputs[Slots(inputs)[n]] == n <==> Addressable(inputs, n)
  {
    SlotsSize(inputs);
    var last := |inputs| - 1;
    SlotsSize(inputs[..last]);
    assert inputs == inputs[..last] + [inputs[last]];
    if n in inputs[..last] {
      SlotIsPosition(inputs[..last], n);
      AddressablePrefix(inputs, n);
    } else {
      AddressableLast(inputs);
      assert Slots(inputs)[n] == |Slots(inputs[..last])|;
      if |Slots(inputs[..last])| < last {
        assert inputs[..last][Slots(inputs)[n]] != n;
      }
    }
  }

  method NumberInputs(inputs: seq<Node>) returns (slots: map<Node, nat>)
    ensures slots == Slots(inputs)
  {
    slots := map[];
    for i := 0 to |inputs|
      invariant slots == Slots(inputs[..i])
    {
      assert inputs[..i + 1][..i] == inputs[..i];
      if inputs[i] !in slots {
        slots := slots[inputs[i] := |slots|];
      }
    }
    assert inputs[..|inputs|] == inputs;
  }

  predicate AllNumbered(inputs: seq<Node>, residual: seq<Node>) {
    forall n :: n in residual ==> n in Slots(inputs)
  }

  function Pushes(inputs: seq<Node>, residual: seq<Node>): (r: seq<Instruction>)
    requires AllNumbered(inputs, residual)
    ensures |r| == |residual|
  {
    if residual == [] then [] else [Push(Slots(inputs)[residual[0]])] + Pushes(inputs, residual[1..])
  }

  /** What runs first when the inputs do not already lie as the code needs them. */
  function FixUp(inputs: seq<Node>, residual: seq<Node>): seq<Instruction>
    requires AllNumbered(inputs, residual)
  {
    Pushes(inputs, residual) + [Erase(0, -(|residual| as int))]
  }

  ghost predicate AllIn(residual: seq<Node>, inputs: seq<Node>) {
    forall n :: n in residual ==> n in inputs
  }

  /** What the pushes fetch. */
  ghost function Fetched(inputs: seq<Node>, residual: seq<Node>): (r: seq<Node>)
    requires AllIn(residual, inputs)
    ensures |r| == |residual|
  {
    SlotsSize(inputs);
    if residual == [] then [] else [inputs[Slots(inputs)[residual[0]]]] + Fetched(inputs, residual[1..])
  }

  /** The input that lies at the place of `n`. */
  ghost function InPlaceOf(inputs: seq<Node>, n: Node): Node {
    SlotsSize(inputs);
    if n in inputs then inputs[Slots(inputs)[n]] else n
  }

  lemma {:induction false} FetchedAt(inputs: seq<Node>, residual: seq<Node>, i: nat)
    requires AllIn(residual, inputs) && i < |residual|
    ensures Fetched(inputs, residual)[i] == InPlaceOf(inputs, residual[i])
    ensures Fetched(inputs, residual)[i] == residual[i] <==> Addressable(inputs, residual[i])
  {
    if i == 0 {
      SlotIsPosition(inputs, residual[0]);
    } else {
      FetchedAt(inputs, residual[1..], i - 1);
    }
  }

  /** What is fetched is what is needed exactly if all of it can be addressed. */
  lemma FetchedIs(inputs: seq<Node>, residual: seq<Node>)
    requires AllIn(residual, inputs)
    ensures Fetched(inputs, residual) == residual <==> forall n :: n in residual ==> Addressable(inputs, n)
  {
    hide Fetched, Addressable;
    forall i | 0 <= i < |residual|
      ensures Fetched(inputs, residual)[i] == residual[i] <==> Addressable(inputs, residual[i])
    {
      FetchedAt(inputs, residual, i);
    }
  }

  lemma {:induction false} PushesRun(d: Domain<Node>, inputs: seq<Node>, residual: seq<Node>, f: seq<Node>)
    requires inputs <= f && AllIn(residual, inputs)
    ensures AllNumbered(inputs, residual)
    ensures Run(d, Pushes(inputs, residual), f) == Some(f + Fetched(inputs, residual))
    decreases |residual|
  {
    SlotsSize(inputs);
    if residual == [] {
      assert f + Fetched(inputs, residual) == f;
    } else {
      var slot := Slots(inputs)[residual[0]];
      assert f[slot] == inputs[slot];
      PushesRun(d, inputs, residual[1..], f + [f[slot]]);
      assert f + [f[slot]] + Fetched(inputs, residual[1..]) == f + ([f[slot]] + Fetched(inputs, residual[1..]));
    }
  }

  lemma FixUpRuns(d: Domain<Node>, inputs: seq<Node>, residual: seq<Node>)
    requires AllIn(residual, inputs)
    ensures AllNumbered(inputs, residual)
    ensures Run(d, FixUp(inputs, residual), inputs)
         == Some(if residual == [] then inputs else Fetched(inputs, residual))
  {
    PushesRun(d, inputs, residual, inputs);
    var e := Erase(0, -(|residual| as int));
    RunAppend(d, Pushes(inputs, residual), [e], inputs);
    var f := inputs + Fetched(inputs, residual);
    assert Run(d, [e], f) == Step(d, e, f);
    if residual != [] {
      assert f[..0] + f[|inputs|..] == Fetched(inputs, residual);
    } else {
      assert f[..0] + f[0..] == inputs;
    }
  }

  lemma FixUpDepth(data: nat, inputs: seq<Node>, residual: seq<Node>)
    requires AllIn(residual, inputs)
    ensures AllNumbered(inputs, residual)
    ensures Depth(data, FixUp(inputs, residual), |inputs|) == Some(if residual == [] then |inputs| else |residual|)
  {
    var d := Domain(seq(data, _ => 0), (n: Node, b: Bubble, args: seq<Node>) => None);
    FixUpRuns(d, inputs, residual);
    RunDepth(d, FixUp(inputs, residual), inputs);
  }

  /**
   * The fix-up, where one is made, delivers what the code needs exactly when every input it needs is
   * addressable and there is something to keep: `erase(0, -0)` removes nothing.
   */
  lemma FixUpExact(d: Domain<Node>, inputs: seq<Node>, residual: seq<Node>)
    requires AllIn(residual, inputs)
    ensures AllNumbered(inputs, residual)
    ensures Run(d, FixUp(inputs, residual), inputs) == Some(residual) <==>
            (residual == [] ==> inputs == []) && forall n :: n in residual ==> Addressable(inputs, n)
  {
    hide Run, FixUp, Addressable, Fetched;
    FixUpRuns(d, inputs, residual);
    FetchedIs(inputs, residual);
  }

  /** Names above `m` for the data segment, so that those below can stand for anything. */
  lemma NamesFor(k: Kernels, data: seq<Tensor>, env: Env, m: nat) returns (h: Node -> Tensor, d: Domain<Node>)
    ensures Maps(h, d, Concrete(k, data)) && forall n: Node :: n < m ==> h(n) == env(n)
  {
    hide Run, Step;
    h := (n: Node) => if m <= n < m + |data| then data[n - m] else env(n);
    var names: seq<Node> := seq(|data|, i => m + i);
    d := Domain(names, (n: Node, b: Bubble, args: seq<Node>) => None);
    assert data == Image(h, names);
  }

  lemma SameImage(h: Node -> Tensor, env: Env, s: seq<Node>, m: nat)
    requires (forall n: Node :: n < m ==> h(n) == env(n)) && forall i :: 0 <= i < |s| ==> s[i] < m
    ensures Image(h, s) == Image(env, s)
  {
  }

  /** On values: the values of what is fetched. */
  lemma FixUpFetches(k: Kernels, data: seq<Tensor>, env: Env, inputs: seq<Node>, residual: seq<Node>)
    requires AllIn(residual, inputs)
    ensures AllNumbered(inputs, residual)
    ensures Run(Concrete(k, data), FixUp(inputs, residual), Image(env, inputs))
         == Some(Image(env, if residual == [] then inputs else Fetched(inputs, residual)))
  {
    FetchedIn(inputs, residual);
    hide Run, FixUp, Addressable, Maps, Image, Concrete, Fetched;
    var m := Above(inputs);
    var h, d := NamesFor(k, data, env, m);
    FixUpRuns(d, inputs, residual);
    RunMaps(h, d, Concrete(k, data), FixUp(inputs, residual), inputs);
    SameImage(h, env, inputs, m);
    SameImage(h, env, Fetched(inputs, residual), m);
  }

  lemma {:induction false} FetchedIn(inputs: seq<Node>, residual: seq<Node>)
    requires AllIn(residual, inputs)
    ensures forall i :: 0 <= i < |residual| ==> Fetched(inputs, residual)[i] in inputs
  {
    SlotsSize(inputs);
    if residual != [] {
      FetchedIn(inputs, residual[1..]);
    }
  }

  /** On values: whatever lies in the places of the inputs, those of the needed ones are fetched. */
  lemma FixUpValues(k: Kernels, data: seq<Tensor>, env: Env, inputs: seq<Node>, residual: seq<Node>)
    requires AllIn(residual, inputs) && (residual == [] ==> inputs == [])
    requires forall n :: n in residual ==> Addressable(inputs, n)
    ensures AllNumbered(inputs, residual)
    ensures Run(Concrete(k, data), FixUp(inputs, residual), Image(env, inputs)) == Some(Image(env, residual))
  {
    hide Run, FixUp, Addressable, Image, Concrete, Fetched;
    FixUpFetches(k, data, env, inputs, residual);
    if residual != [] {
      FetchedIs(inputs, residual);
    }
  }

  /**
   * Which leftovers reach the code as it needs them: those that are the inputs as they stand, for which no
   * fix-up is made, and those that can all be addressed, if something is left or no input is given.
   */
  ghost predicate Delivered(inputs: seq<Node>, residual: seq<Node>) {
    residual == inputs || ((residual == [] ==> inputs == []) && forall n :: n in residual ==> Addressable(inputs, n))
  }

  /** With a repeated input in front, the wrong entry is fetched: node 1 is numbered 1 but lies at position 2. */
  lemma RepeatedInputExample(d: Domain<Node>)
    ensures AllNumbered([0, 0, 1], [1]) && !Addressable([0, 0, 1], 1)
    ensures Run(d, FixUp([0, 0, 1], [1]), [0, 0, 1]) == Some([0])
  {
    assert [0, 0, 1][..2] == [0, 0] && [0, 0][..1] == [0] && [0][..0] == [];
    assert Slots([0]) == map[0 := 0];
    assert Slots([0, 0]) == map[0 := 0];
    assert Slots([0, 0, 1]) == map[0 := 0, 1 := 1];
    forall i | 0 <= i < 3 && [0, 0, 1][i] == 1 ensures !DistinctThrough([0, 0, 1], i) {
      assert [0, 0, 1][0] == [0, 0, 1][1];
    }
    FixUpRuns(d, [0, 0, 1], [1]);
    assert Fetched([0, 0, 1], [1]) == [0];
  }
}
