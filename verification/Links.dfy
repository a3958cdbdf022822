/** `graph.h`: nodes that know their inputs and their outputs, and the two operations that change both sides. */
module Links {

  class Node {
    var inputs: seq<Node>
    var outputs: seq<Node>

    constructor ()
      ensures inputs == [] && outputs == []
    {
      inputs, outputs := [], [];
    }
  }

  function Occurrences(s: seq<Node>, n: Node): nat {
    multiset(s)[n]
  }

  /** Both ends of every edge know it, as often as it is there. */
  ghost predicate Consistent(nodes: set<Node>)
    reads nodes
  {
    forall a, b :: a in nodes && b in nodes ==> Occurrences(b.inputs, a) == Occurrences(a.outputs, b)
  }

  /** No edge leaves the nodes considered. */
  ghost predicate Closed(nodes: set<Node>)
    reads nodes
  {
    forall n :: n in nodes ==> (forall m :: m in n.inputs ==> m in nodes) && (forall m :: m in n.outputs ==> m in nodes)
  }

  function Copies(n: Node, k: nat): (r: seq<Node>)
    ensures |r| == k
  {
    seq(k, _ => n)
  }

  lemma CopiesMore(n: Node, k: nat)
    ensures Copies(n, k) + [n] == Copies(n, k + 1) && Copies(n, 0) == []
  {
  }

  lemma {:induction false} OccurrencesOfCopies(s: seq<Node>, n: Node, k: nat, m: Node)
    ensures Occurrences(s + Copies(n, k), m) == Occurrences(s, m) + (if m == n then k else 0)
  {
    if k == 0 {
      assert s + Copies(n, 0) == s;
    } else {
      OccurrencesOfCopies(s, n, k - 1, m);
      CopiesMore(n, k - 1);
      assert s + Copies(n, k) == (s + Copies(n, k - 1)) + [n];
      OccurrencesMore(s + Copies(n, k - 1), n, m);
    }
  }

  lemma OccurrencesMore(s: seq<Node>, m: Node, n: Node)
    ensures Occurrences(s + [m], n) == Occurrences(s, n) + (if m == n then 1 else 0)
  {
  }

  /** After linking: `node` has its new inputs, and each of these so many more outputs. */
  twostate predicate Linked(node: Node, inputs: seq<Node>, nodes: set<Node>)
    reads nodes
  {
    && node in nodes && node.inputs == inputs
    && (forall n :: n in nodes && n != node ==> n.inputs == old(n.inputs))
    && (forall n :: n in nodes ==> n.outputs == old(n.outputs) + Copies(node, Occurrences(inputs, n)))
  }

  /** With a fresh node the two sides agree, and no edge leaves the nodes considered. */
  twostate lemma LinkConsistent(node: Node, inputs: seq<Node>, nodes: set<Node>)
    requires Linked(node, inputs, nodes) && old(Consistent(nodes))
    requires old(node.inputs) == []
    ensures Consistent(nodes)
    ensures old(Closed(nodes)) && (forall m :: m in inputs ==> m in nodes) ==> Closed(nodes)
  {
    forall a, b | a in nodes && b in nodes
      ensures Occurrences(a.outputs, b)
           == old(Occurrences(a.outputs, b)) + (if b == node then Occurrences(inputs, a) else 0)
    {
      OccurrencesOfCopies(old(a.outputs), node, Occurrences(inputs, a), b);
    }
    forall n, m | n in nodes && m in n.outputs ensures m == node || m in old(n.outputs) {
    }
  }

  /** They disagree if the node had inputs, which are overwritten without being told. */
  twostate lemma LinkInconsistent(node: Node, inputs: seq<Node>, nodes: set<Node>)
    requires Linked(node, inputs, nodes) && old(Consistent(nodes)) && old(Closed(nodes))
    requires old(node.inputs) != []
    ensures !Consistent(nodes)
  {
    var a := old(node.inputs)[0];
    assert a in nodes && old(Occurrences(node.inputs, a)) > 0;
    OccurrencesOfCopies(old(a.outputs), node, Occurrences(inputs, a), node);
  }

  method Link(node: Node, inputs: seq<Node>, ghost nodes: set<Node>)
    requires node in nodes && forall m :: m in inputs ==> m in nodes
    modifies nodes
    ensures Linked(node, inputs, nodes)
  {
    hide Copies, Occurrences;
    node.inputs := inputs;
    NoneYet(inputs, node);
    for i := 0 to |inputs|
      invariant node.inputs == inputs
      invariant forall n :: n in nodes && n != node ==> n.inputs == old(n.inputs)
      invariant forall n :: n in nodes ==> n.outputs == old(n.outputs) + Copies(node, Occurrences(inputs[..i], n))
    {
      var input := inputs[i];
      assert inputs[..i + 1] == inputs[..i] + [inputs[i]];
      forall n ensures Occurrences(inputs[..i + 1], n) == Occurrences(inputs[..i], n) + (if input == n then 1 else 0) {
        OccurrencesMore(inputs[..i], input, n);
      }
      CopiesMore(node, Occurrences(inputs[..i], input));
      assert input.outputs + [node] == old(input.outputs) + (Copies(node, Occurrences(inputs[..i], input)) + [node]);
      input.outputs := input.outputs + [node];
    }
    assert inputs[..|inputs|] == inputs;
  }

  lemma NoneYet(inputs: seq<Node>, node: Node)
    ensures forall n :: Occurrences(inputs[..0], n) == 0
    ensures Copies(node, 0) == []
  {
  }

  // ---------------------------------------------------------------- replacing a node

  /** The first `k` occurrences of `from` become `to`. */
  function FirstReplaced(s: seq<Node>, from: Node, to: Node, k: nat): (r: seq<Node>)
    ensures |r| == |s|
  {
    if k == 0 || s == [] then s
    else if s[0] == from then [to] + FirstReplaced(s[1..], from, to, k - 1)
    else [s[0]] + FirstReplaced(s[1..], from, to, k)
  }

  function Replaced(s: seq<Node>, from: Node, to: Node): (r: seq<Node>)
    ensures |r| == |s|
  {
    seq(|s|, i requires 0 <= i < |s| => if s[i] == from then to else s[i])
  }

  lemma OccurrencesFirst(s: seq<Node>, n: Node)
    requires s != []
    ensures Occurrences(s, n) == Occurrences(s[1..], n) + (if s[0] == n then 1 else 0)
  {
    assert s == [s[0]] + s[1..];
  }

  /** As many replacements as there are occurrences replace them all. */
  lemma {:induction false} AllReplaced(s: seq<Node>, from: Node, to: Node)
    ensures FirstReplaced(s, from, to, Occurrences(s, from)) == Replaced(s, from, to)
  {
    if s != [] {
      OccurrencesFirst(s, from);
      AllReplaced(s[1..], from, to);
      assert Replaced(s, from, to) == [if s[0] == from then to else s[0]] + Replaced(s[1..], from, to);
      if Occurrences(s, from) == 0 {
        assert FirstReplaced(s[1..], from, to, 0) == s[1..];
        assert s == [s[0]] + s[1..];
      }
    }
  }

  /** One replacement after `k` is replacement `k + 1`, since no new occurrence is made. */
  lemma {:induction false} OneMore(s: seq<Node>, from: Node, to: Node, k: nat)
    requires from != to
    ensures FirstReplaced(FirstReplaced(s, from, to, k), from, to, 1) == FirstReplaced(s, from, to, k + 1)
  {
    if s != [] && k > 0 {
      OneMore(s[1..], from, to, if s[0] == from then k - 1 else k);
    }
  }

  lemma {:induction false} OccurrencesReplaced(s: seq<Node>, from: Node, to: Node, n: Node)
    requires from != to
    ensures Occurrences(Replaced(s, from, to), n)
         == if n == from then 0 else if n == to then Occurrences(s, to) + Occurrences(s, from) else Occurrences(s, n)
  {
    if s != [] {
      var r := Replaced(s, from, to);
      assert r[1..] == Replaced(s[1..], from, to);
      OccurrencesReplaced(s[1..], from, to, n);
      OccurrencesFirst(r, n);
      OccurrencesFirst(s, n);
      OccurrencesFirst(s, from);
      OccurrencesFirst(s, to);
    }
  }

  lemma NoneReplaced(s: seq<Node>, from: Node, to: Node)
    ensures FirstReplaced(s, from, to, 0) == s
  {
  }

  lemma FirstFrom(s: seq<Node>, from: Node, to: Node, i: nat)
    requires i < |s|
    ensures FirstReplaced(s[i..], from, to, 1)
         == if s[i] == from then [to] + s[i + 1..] else [s[i]] + FirstReplaced(s[i + 1..], from, to, 1)
  {
    assert s[i..][1..] == s[i + 1..];
  }

  /** The inner loop: the first input that is `from` becomes `to`. */
  method ReplaceFirst(output: Node, from: Node, to: Node)
    modifies output`inputs
    ensures output.inputs == FirstReplaced(old(output.inputs), from, to, 1)
  {
    hide FirstReplaced;
    ghost var s := output.inputs;
    var i := 0;
    while i < |output.inputs|
      invariant i <= |s| && output.inputs == s
      invariant FirstReplaced(s, from, to, 1) == s[..i] + FirstReplaced(s[i..], from, to, 1)
    {
      FirstFrom(s, from, to, i);
      if output.inputs[i] != from {
        i := i + 1;
        continue;
      }
      output.inputs := output.inputs[i := to];
      break;
    }
  }

  lemma ConsistentAt(nodes: set<Node>, from: Node)
    requires Consistent(nodes) && from in nodes
    ensures forall n :: n in nodes ==> Occurrences(n.inputs, from) == Occurrences(from.outputs, n)
  {
  }

  /** Every use of `from` becomes a use of `to`; `from` is left without outputs. */
  twostate predicate Rerouted(from: Node, to: Node, nodes: set<Node>)
    reads nodes
  {
    && from in nodes && to in nodes
    && from.outputs == [] && to.outputs == old(to.outputs) + old(from.outputs)
    && (forall n :: n in nodes && n != from && n != to ==> n.outputs == old(n.outputs))
    && (forall n :: n in nodes ==> n.inputs == Replaced(old(n.inputs), from, to))
  }

  method ReplaceOutput(from: Node, to: Node, ghost nodes: set<Node>)
    requires from in nodes && to in nodes && from != to
    requires Consistent(nodes) && Closed(nodes)
    modifies nodes
    ensures Rerouted(from, to, nodes)
  {
    hide Occurrences, Consistent, FirstReplaced, Replaced;
    var outputs := from.outputs;
    ConsistentAt(nodes, from);
    assert forall n :: n in outputs ==> n in nodes;
    NoneYet(outputs, from);
    forall n | n in nodes ensures FirstReplaced(n.inputs, from, to, 0) == n.inputs {
      NoneReplaced(n.inputs, from, to);
    }
    for i := 0 to |outputs|
      invariant from.outputs == outputs && to.outputs == old(to.outputs) + outputs[..i]
      invariant forall n :: n in nodes && n != from && n != to ==> n.outputs == old(n.outputs)
      invariant forall n :: n in nodes ==>
          n.inputs == FirstReplaced(old(n.inputs), from, to, Occurrences(outputs[..i], n))
    {
      var output := outputs[i];
      assert outputs[..i + 1] == outputs[..i] + [output];
      forall n
        ensures Occurrences(outputs[..i + 1], n) == Occurrences(outputs[..i], n) + (if output == n then 1 else 0)
      {
        OccurrencesMore(outputs[..i], output, n);
      }
      OneMore(old(output.inputs), from, to, Occurrences(outputs[..i], output));
      ReplaceFirst(output, from, to);
      to.outputs := to.outputs + [output];
    }
    assert outputs[..|outputs|] == outputs;
    from.outputs := [];
    forall n | n in nodes ensures n.inputs == Replaced(old(n.inputs), from, to) {
      AllReplaced(old(n.inputs), from, to);
    }
  }

  /** The two sides still agree. */
  twostate lemma RerouteKeeps(from: Node, to: Node, nodes: set<Node>)
    requires Rerouted(from, to, nodes) && from != to
    requires old(Consistent(nodes)) && old(Closed(nodes))
    ensures Consistent(nodes) && Closed(nodes)
  {
    forall a, b | a in nodes && b in nodes ensures Occurrences(b.inputs, a) == Occurrences(a.outputs, b) {
      OccurrencesReplaced(old(b.inputs), from, to, a);
      assert old(Occurrences(b.inputs, a) == Occurrences(a.outputs, b));
      assert old(Occurrences(b.inputs, from) == Occurrences(from.outputs, b));
    }
  }
}
