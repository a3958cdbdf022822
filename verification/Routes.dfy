/** `Module::Fusion` of `module.cpp`: which routes between modules are wired, and what the fused module computes. */
module Routes {
  import opened Collections
  import opened Tensors
  import opened Graphs
  import opened Walking
  import opened Modules
  import opened Fusion

  /** A route leads an output of one module to an input of another. */
  datatype Route = Route(from: int, outSlot: int, to: int, inSlot: int)

  /** The constructor of a route forgets the input slot. */
  function MakeRoute(from: int, outSlot: int, to: int, inSlot: int): Route {
    Route(from, outSlot, to, 0)
  }

  /** So it builds the route that was asked for exactly if that was the first input. */
  lemma MakeRouteIsRoute(from: int, outSlot: int, to: int, inSlot: int)
    ensures MakeRoute(from, outSlot, to, inSlot) == Route(from, outSlot, to, inSlot) <==> inSlot == 0
  {
  }

  // ---------------------------------------------------------------- routes

  /** A negative slot stands for the only one there is. */
  function Slot(slot: int): nat {
    if slot < 0 then 0 else slot
  }

  /** A module without inputs or outputs has no slot to stand for, either. */
  predicate ValidRoute(subs: seq<Module>, r: Route) {
    && 0 <= r.from < |subs| && 0 <= r.to < |subs|
    && !(r.outSlot < 0 && |subs[r.from].outputs| > 1)
    && !(r.inSlot < 0 && |subs[r.to].inputs| > 1)
    && Slot(r.outSlot) < |subs[r.from].outputs| && Slot(r.inSlot) < |subs[r.to].inputs|
  }

  predicate AllValid(subs: seq<Module>, routes: seq<Route>) {
    forall i :: 0 <= i < |routes| ==> ValidRoute(subs, routes[i])
  }

  function Source(subs: seq<Module>, r: Route): Node
    requires ValidRoute(subs, r)
  {
    subs[r.from].outputs[Slot(r.outSlot)]
  }

  function Target(subs: seq<Module>, r: Route): Node
    requires ValidRoute(subs, r)
  {
    subs[r.to].inputs[Slot(r.inSlot)]
  }

  /** A slot is that of a list, or a negative number for the only slot of a list. */
  predicate Names<T>(slot: int, list: seq<T>) {
    if slot < 0 then |list| == 1 else slot < |list|
  }

  /** Which routes are valid, and what they lead where. */
  lemma SlotsMeant(subs: seq<Module>, r: Route)
    ensures ValidRoute(subs, r) <==>
              && 0 <= r.from < |subs| && 0 <= r.to < |subs|
              && Names(r.outSlot, subs[r.from].outputs) && Names(r.inSlot, subs[r.to].inputs)
    ensures ValidRoute(subs, r) ==>
              && (if r.outSlot < 0 then subs[r.from].outputs == [Source(subs, r)]
                  else Source(subs, r) == subs[r.from].outputs[r.outSlot])
              && (if r.inSlot < 0 then subs[r.to].inputs == [Target(subs, r)]
                  else Target(subs, r) == subs[r.to].inputs[r.inSlot])
  {
  }

  function Sources(subs: seq<Module>, routes: seq<Route>): set<Node>
    requires AllValid(subs, routes)
  {
    set i | 0 <= i < |routes| :: Source(subs, routes[i])
  }

  function Targets(subs: seq<Module>, routes: seq<Route>): set<Node>
    requires AllValid(subs, routes)
  {
    set i | 0 <= i < |routes| :: Target(subs, routes[i])
  }

  /** What is left of a list when the routed nodes are taken out. */
  function Without(ns: seq<Node>, gone: set<Node>): (r: seq<Node>)
    ensures forall n :: n in r <==> n in ns && n !in gone
  {
    if ns == [] then []
    else
      var rest := Without(ns[..|ns| - 1], gone);
      if ns[|ns| - 1] in gone then rest else rest + [ns[|ns| - 1]]
  }

  function KeptInputs(subs: seq<Module>, gone: set<Node>): seq<Node> {
    if subs == [] then [] else KeptInputs(subs[..|subs| - 1], gone) + Without(subs[|subs| - 1].inputs, gone)
  }

  function KeptOutputs(subs: seq<Module>, gone: set<Node>): seq<Node> {
    if subs == [] then [] else KeptOutputs(subs[..|subs| - 1], gone) + Without(subs[|subs| - 1].outputs, gone)
  }

  ghost predicate OnGraph(u: Graph, subs: seq<Module>) {
    forall i :: 0 <= i < |subs| ==> subs[i].graph == u && Placed(subs[i])
  }

  lemma {:induction false} KeptWithin(u: Graph, subs: seq<Module>, gone: set<Node>)
    requires OnGraph(u, subs)
    ensures Within(u, KeptInputs(subs, gone)) && Within(u, KeptOutputs(subs, gone))
  {
    hide Closed;
    if subs != [] {
      var n := |subs| - 1;
      KeptWithin(u, subs[..n], gone);
      assert Placed(subs[n]);
      var ins, outs := Without(subs[n].inputs, gone), Without(subs[n].outputs, gone);
      forall i | 0 <= i < |ins| ensures ins[i] < |u| {
        assert ins[i] in subs[n].inputs;
      }
      forall i | 0 <= i < |outs| ensures outs[i] < |u| {
        assert outs[i] in subs[n].outputs;
      }
    }
  }

  method Filter(ns: seq<Node>, gone: set<Node>) returns (kept: seq<Node>)
    ensures kept == Without(ns, gone)
  {
    kept := [];
    for i := 0 to |ns|
      invariant kept == Without(ns[..i], gone)
    {
      assert ns[..i + 1][..i] == ns[..i];
      if ns[i] !in gone {
        kept := kept + [ns[i]];
      }
    }
    assert ns[..|ns|] == ns;
  }

  method Collect(subs: seq<Module>, ins: set<Node>, outs: set<Node>) returns (inputs: seq<Node>, outputs: seq<Node>)
    ensures inputs == KeptInputs(subs, ins) && outputs == KeptOutputs(subs, outs)
  {
    inputs, outputs := [], [];
    for i := 0 to |subs|
      invariant inputs == KeptInputs(subs[..i], ins) && outputs == KeptOutputs(subs[..i], outs)
    {
      assert subs[..i + 1][..i] == subs[..i];
      var more := Filter(subs[i].inputs, ins);
      inputs := inputs + more;
      more := Filter(subs[i].outputs, outs);
      outputs := outputs + more;
    }
    assert subs[..|subs|] == subs;
  }

  // ---------------------------------------------------------------- the order of what is kept

  lemma {:induction false} WithoutAppend(ns: seq<Node>, ms: seq<Node>, gone: set<Node>)
    ensures Without(ns + ms, gone) == Without(ns, gone) + Without(ms, gone)
  {
    if ms == [] {
      assert ns + ms == ns;
    } else {
      var n := |ms| - 1;
      WithoutAppend(ns, ms[..n], gone);
      assert (ns + ms)[..|ns + ms| - 1] == ns + ms[..n];
    }
  }

  lemma {:induction false} WithoutNone(ns: seq<Node>, gone: set<Node>)
    requires forall n :: n in ns ==> n !in gone
    ensures Without(ns, gone) == ns
  {
    if ns != [] {
      WithoutNone(ns[..|ns| - 1], gone);
    }
  }

  lemma WithoutItself(n: Node)
    ensures Without([n], {n}) == []
  {
    assert [n][..0] == [];
  }

  /** Without the node in one slot, if it is in no other. */
  lemma WithoutSlot(ns: seq<Node>, slot: nat)
    requires slot < |ns| && Distinct(ns)
    ensures Without(ns, {ns[slot]}) == ns[..slot] + ns[slot + 1..]
  {
    hide Without;
    var n, before, after := ns[slot], ns[..slot], ns[slot + 1..];
    assert ns == before + ([n] + after);
    WithoutAppend(before, [n] + after, {n});
    WithoutAppend([n], after, {n});
    WithoutItself(n);
    WithoutNone(before, {n});
    WithoutNone(after, {n});
    assert [] + after == after;
  }

  /** The lists one after the other, each without the routed nodes. */
  function Kept(lists: seq<seq<Node>>, gone: set<Node>): seq<Node> {
    if lists == [] then [] else Kept(lists[..|lists| - 1], gone) + Without(lists[|lists| - 1], gone)
  }

  function InputLists(subs: seq<Module>): (r: seq<seq<Node>>)
    ensures |r| == |subs| && forall i :: 0 <= i < |subs| ==> r[i] == subs[i].inputs
  {
    seq(|subs|, i requires 0 <= i < |subs| => subs[i].inputs)
  }

  function OutputLists(subs: seq<Module>): (r: seq<seq<Node>>)
    ensures |r| == |subs| && forall i :: 0 <= i < |subs| ==> r[i] == subs[i].outputs
  {
    seq(|subs|, i requires 0 <= i < |subs| => subs[i].outputs)
  }

  lemma {:induction false} KeptAre(subs: seq<Module>, gone: set<Node>)
    ensures KeptInputs(subs, gone) == Kept(InputLists(subs), gone)
    ensures KeptOutputs(subs, gone) == Kept(OutputLists(subs), gone)
  {
    if subs != [] {
      var n := |subs| - 1;
      KeptAre(subs[..n], gone);
      assert InputLists(subs)[..n] == InputLists(subs[..n]) && OutputLists(subs)[..n] == OutputLists(subs[..n]);
    }
  }

  /** How many nodes are kept before entry `j` of list `i`. */
  function Place(lists: seq<seq<Node>>, gone: set<Node>, i: nat, j: nat): nat
    requires i < |lists| && j < |lists[i]|
  {
    |Kept(lists[..i], gone)| + |Without(lists[i][..j], gone)|
  }

  lemma WithoutAt(ns: seq<Node>, gone: set<Node>, j: nat)
    requires j < |ns| && ns[j] !in gone
    ensures var before := Without(ns[..j], gone);
            && Without(ns[..j + 1], gone) == before + [ns[j]]
            && before + [ns[j]] <= Without(ns, gone)
  {
    assert ns[..j + 1][..j] == ns[..j];
    assert ns == ns[..j + 1] + ns[j + 1..];
    WithoutAppend(ns[..j + 1], ns[j + 1..], gone);
  }

  lemma {:induction false} KeptPrefix(lists: seq<seq<Node>>, gone: set<Node>, i: nat)
    requires i <= |lists|
    ensures Kept(lists[..i], gone) <= Kept(lists, gone)
    decreases |lists|
  {
    if i < |lists| {
      var n := |lists| - 1;
      KeptPrefix(lists[..n], gone, i);
      assert lists[..n][..i] == lists[..i];
    } else {
      assert lists[..i] == lists;
    }
  }

  lemma KeptNext(lists: seq<seq<Node>>, gone: set<Node>, i: nat)
    requires i < |lists|
    ensures Kept(lists[..i + 1], gone) == Kept(lists[..i], gone) + Without(lists[i], gone)
  {
    assert lists[..i + 1][..i] == lists[..i];
  }

  /** A node that is kept comes in its place. */
  lemma KeptAt(lists: seq<seq<Node>>, gone: set<Node>, i: nat, j: nat)
    requires i < |lists| && j < |lists[i]| && lists[i][j] !in gone
    ensures Place(lists, gone, i, j) < |Kept(lists, gone)|
    ensures Kept(lists, gone)[Place(lists, gone, i, j)] == lists[i][j]
  {
    hide Kept, Without;
    WithoutAt(lists[i], gone, j);
    KeptNext(lists, gone, i);
    KeptPrefix(lists, gone, i + 1);
  }

  /** The places are in order: earlier lists first, and in one list earlier entries. */
  lemma PlacesInOrder(lists: seq<seq<Node>>, gone: set<Node>, i: nat, j: nat, i': nat, j': nat)
    requires i < |lists| && j < |lists[i]| && lists[i][j] !in gone
    requires i' < |lists| && j' < |lists[i']|
    requires i < i' || (i == i' && j < j')
    ensures Place(lists, gone, i, j) < Place(lists, gone, i', j')
  {
    hide Kept, Without;
    WithoutAt(lists[i], gone, j);
    if i < i' {
      KeptNext(lists, gone, i);
      KeptPrefix(lists[..i'], gone, i + 1);
      assert lists[..i'][..i + 1] == lists[..i + 1];
    } else {
      WithoutAppend(lists[i][..j + 1], lists[i][j + 1..j'], gone);
      assert lists[i][..j'] == lists[i][..j + 1] + lists[i][j + 1..j'];
    }
  }

  /** And nothing else is kept. */
  lemma {:induction false} KeptFrom(lists: seq<seq<Node>>, gone: set<Node>, place: nat) returns (i: nat, j: nat)
    requires place < |Kept(lists, gone)|
    ensures i < |lists| && j < |lists[i]| && lists[i][j] !in gone && Place(lists, gone, i, j) == place
  {
    hide Without;
    var n := |lists| - 1;
    var before := lists[..n];
    if place < |Kept(before, gone)| {
      i, j := KeptFrom(before, gone, place);
      assert before[..i] == lists[..i];
    } else {
      j := WithoutFrom(lists[n], gone, place - |Kept(before, gone)|);
      i := n;
    }
  }

  lemma {:induction false} WithoutFrom(ns: seq<Node>, gone: set<Node>, place: nat) returns (j: nat)
    requires place < |Without(ns, gone)|
    ensures j < |ns| && ns[j] !in gone && |Without(ns[..j], gone)| == place
  {
    var n := |ns| - 1;
    if place < |Without(ns[..n], gone)| {
      j := WithoutFrom(ns[..n], gone, place);
      assert ns[..n][..j] == ns[..j];
    } else {
      j := n;
    }
  }

  /**
   * The kept inputs are in order: of two of them, the one from the earlier module, or from the earlier slot of one
   * module, comes first.
   */
  lemma InputsInOrder(subs: seq<Module>, gone: set<Node>, i: nat, j: nat, i': nat, j': nat) returns (p: nat, p': nat)
    requires i < |subs| && j < |subs[i].inputs| && subs[i].inputs[j] !in gone
    requires i' < |subs| && j' < |subs[i'].inputs| && subs[i'].inputs[j'] !in gone
    requires i < i' || (i == i' && j < j')
    ensures p < p' < |KeptInputs(subs, gone)|
    ensures KeptInputs(subs, gone)[p] == subs[i].inputs[j] && KeptInputs(subs, gone)[p'] == subs[i'].inputs[j']
  {
    hide Kept, Place, KeptInputs;
    var lists := InputLists(subs);
    KeptAre(subs, gone);
    KeptAt(lists, gone, i, j);
    KeptAt(lists, gone, i', j');
    PlacesInOrder(lists, gone, i, j, i', j');
    p, p' := Place(lists, gone, i, j), Place(lists, gone, i', j');
  }

  lemma OutputsInOrder(subs: seq<Module>, gone: set<Node>, i: nat, j: nat, i': nat, j': nat) returns (p: nat, p': nat)
    requires i < |subs| && j < |subs[i].outputs| && subs[i].outputs[j] !in gone
    requires i' < |subs| && j' < |subs[i'].outputs| && subs[i'].outputs[j'] !in gone
    requires i < i' || (i == i' && j < j')
    ensures p < p' < |KeptOutputs(subs, gone)|
    ensures KeptOutputs(subs, gone)[p] == subs[i].outputs[j] && KeptOutputs(subs, gone)[p'] == subs[i'].outputs[j']
  {
    hide Kept, Place, KeptOutputs;
    var lists := OutputLists(subs);
    KeptAre(subs, gone);
    KeptAt(lists, gone, i, j);
    KeptAt(lists, gone, i', j');
    PlacesInOrder(lists, gone, i, j, i', j');
    p, p' := Place(lists, gone, i, j), Place(lists, gone, i', j');
  }

  // ---------------------------------------------------------------- Module::Fusion

  lemma TargetsMore(subs: seq<Module>, routes: seq<Route>, i: nat)
    requires i < |routes| && AllValid(subs, routes[..i + 1])
    ensures AllValid(subs, routes[..i])
    ensures Targets(subs, routes[..i + 1]) == Targets(subs, routes[..i]) + {Target(subs, routes[i])}
    ensures Sources(subs, routes[..i + 1]) == Sources(subs, routes[..i]) + {Source(subs, routes[i])}
  {
  }

  lemma EndpointsWithin(u: Graph, subs: seq<Module>, r: Route)
    requires OnGraph(u, subs) && ValidRoute(subs, r)
    ensures Source(subs, r) < |u| && Target(subs, r) < |u|
  {
    assert Placed(subs[r.from]) && Placed(subs[r.to]);
  }

  /** The clones of the inputs that are kept; one without a clone is an error. */
  method FindClones(cloned: map<Node, Node>, ns: seq<Node>) returns (r: Option<seq<Node>>)
    ensures r.Some? <==> forall n :: n in ns ==> n in cloned
    ensures r.Some? ==> Renames(cloned, ns, r.value)
  {
    var found := [];
    for i := 0 to |ns|
      invariant Renames(cloned, ns[..i], found)
    {
      if ns[i] !in cloned {
        return None;
      }
      assert ns[..i + 1] == ns[..i] + [ns[i]];
      found := found + [cloned[ns[i]]];
    }
    assert ns[..|ns|] == ns;
    return Some(found);
  }

  /** The routed output does not depend on the routed input. */
  ghost predicate OneWay(u: Graph, subs: seq<Module>, r: Route)
    requires Dag(u) && ValidRoute(subs, r)
  {
    Source(subs, r) < |u| && !Reaches(u, Source(subs, r), Target(subs, r))
  }

  /** `n` is an input of an earlier route, or an output of one depends on it: it has been cloned. */
  ghost predicate Taken(w: Graph, subs: seq<Module>, earlier: seq<Route>, n: Node)
    requires Dag(w) && AllValid(subs, earlier)
  {
    exists i :: 0 <= i < |earlier| && TakenBy(w, subs, earlier[i], n)
  }

  ghost predicate TakenBy(w: Graph, subs: seq<Module>, r: Route, n: Node)
    requires Dag(w) && ValidRoute(subs, r)
  {
    n == Target(subs, r) || (Source(subs, r) < |w| && Reaches(w, Source(subs, r), n))
  }

  lemma TakenMore(w: Graph, subs: seq<Module>, earlier: seq<Route>, r: Route, n: Node)
    requires Dag(w) && AllValid(subs, earlier) && ValidRoute(subs, r)
    ensures AllValid(subs, earlier + [r])
    ensures Taken(w, subs, earlier + [r], n) <==> Taken(w, subs, earlier, n) || TakenBy(w, subs, r, n)
  {
    hide TakenBy, ValidRoute;
    if Taken(w, subs, earlier, n) {
      var i :| 0 <= i < |earlier| && TakenBy(w, subs, earlier[i], n);
      assert (earlier + [r])[i] == earlier[i];
    }
    assert (earlier + [r])[|earlier|] == r;
  }

  lemma ValidMore(subs: seq<Module>, routes: seq<Route>)
    requires AllValid(subs, routes) && routes != []
    ensures AllValid(subs, routes[..|routes| - 1]) && ValidRoute(subs, routes[|routes| - 1])
    ensures routes == routes[..|routes| - 1] + [routes[|routes| - 1]]
  {
  }

  /** The wire of one more route, unless its input is taken or it would close a cycle. */
  ghost function WireMore(u: Graph, subs: seq<Module>, earlier: seq<Route>, w: Wiring, r: Route): (w': Wiring)
    requires Dag(Wired(u, w)) && OnGraph(u, subs) && AllValid(subs, earlier) && ValidRoute(subs, r)
    ensures Dag(Wired(u, w'))
  {
    EndpointsWithin(u, subs, r);
    WireClosesCycle(u, w, Target(subs, r), Source(subs, r));
    if Taken(Wired(u, w), subs, earlier, Target(subs, r)) then w
    else if Reaches(Wired(u, w), Source(subs, r), Target(subs, r)) then w
    else w[Target(subs, r) := Source(subs, r)]
  }

  /** The wires that a list of routes makes. */
  ghost function Wires(u: Graph, subs: seq<Module>, routes: seq<Route>): (w: Wiring)
    requires Dag(u) && OnGraph(u, subs) && AllValid(subs, routes)
    ensures Dag(Wired(u, w))
  {
    if routes == [] then
      WiredNothing(u);
      map[]
    else
      ValidMore(subs, routes);
      var earlier := routes[..|routes| - 1];
      WireMore(u, subs, earlier, Wires(u, subs, earlier), routes[|routes| - 1])
  }

  lemma WiresMore(u: Graph, subs: seq<Module>, earlier: seq<Route>, r: Route)
    requires Dag(u) && OnGraph(u, subs) && AllValid(subs, earlier) && ValidRoute(subs, r)
    ensures AllValid(subs, earlier + [r])
    ensures Wires(u, subs, earlier + [r]) == WireMore(u, subs, earlier, Wires(u, subs, earlier), r)
  {
    hide WireMore, ValidRoute, OnGraph, Dag;
    TakenMore(Wired(u, Wires(u, subs, earlier)), subs, earlier, r, 0);
    assert (earlier + [r])[..|earlier + [r]| - 1] == earlier;
  }

  /** Every wire is a route. */
  lemma {:induction false} WiresAreRoutes(u: Graph, subs: seq<Module>, routes: seq<Route>, n: Node)
    requires Dag(u) && OnGraph(u, subs) && AllValid(subs, routes) && n in Wires(u, subs, routes)
    ensures exists i :: 0 <= i < |routes| && Target(subs, routes[i]) == n
                        && Source(subs, routes[i]) == Wires(u, subs, routes)[n]
  {
    hide ValidRoute, OnGraph, Dag, Source, Target, Taken, Reaches;
    ValidMore(subs, routes);
    var last := |routes| - 1;
    var earlier := routes[..last];
    if n in Wires(u, subs, earlier) && Wires(u, subs, routes)[n] == Wires(u, subs, earlier)[n] {
      WiresAreRoutes(u, subs, earlier, n);
      var i :| 0 <= i < |earlier| && Target(subs, earlier[i]) == n
               && Source(subs, earlier[i]) == Wires(u, subs, earlier)[n];
      assert routes[i] == earlier[i];
    } else {
      assert Target(subs, routes[last]) == n;
    }
  }

  /** A single route is wired exactly if its output does not depend on its input. */
  lemma OneRouteWired(u: Graph, subs: seq<Module>, r: Route)
    requires Dag(u) && OnGraph(u, subs) && ValidRoute(subs, r)
    ensures Wires(u, subs, [r]) == map[Target(subs, r) := Source(subs, r)] <==> OneWay(u, subs, r)
    ensures Wires(u, subs, [r]) == map[] <==> !OneWay(u, subs, r)
  {
    hide Reaches, Dag, OnGraph;
    EndpointsWithin(u, subs, r);
    WiredNothing(u);
    WiresMore(u, subs, [], r);
    assert [] + [r] == [r];
    assert Target(subs, r) in map[Target(subs, r) := Source(subs, r)];
  }

  /** The nodes that have clones after some routes. */
  ghost predicate ClonesTaken(u: Graph, subs: seq<Module>, routes: seq<Route>, wired: Wiring, linked: map<Node, Node>)
    requires Dag(Wired(u, wired)) && AllValid(subs, routes)
  {
    forall n :: n in linked <==> Taken(Wired(u, wired), subs, routes, n)
  }

  /** What has been cloned depends on the same nodes after one more wire. */
  lemma TakenSame(u: Graph, subs: seq<Module>, earlier: seq<Route>, wired: Wiring, to: Node, from: Node, n: Node)
    requires Dag(Wired(u, wired)) && Dag(Wired(u, wired[to := from])) && AllValid(subs, earlier)
    requires !Taken(Wired(u, wired), subs, earlier, to)
    ensures Taken(Wired(u, wired[to := from]), subs, earlier, n) <==> Taken(Wired(u, wired), subs, earlier, n)
  {
    hide Reaches, Dag, Source, Target, ValidRoute;
    var w, w' := Wired(u, wired), Wired(u, wired[to := from]);
    forall i | 0 <= i < |earlier| ensures TakenBy(w', subs, earlier[i], n) <==> TakenBy(w, subs, earlier[i], n) {
      assert !TakenBy(w, subs, earlier[i], to);
      if Source(subs, earlier[i]) < |w| {
        ReachesSame(w, w', to, Source(subs, earlier[i]), n);
      }
    }
    hide TakenBy;
  }

  /** After one more route, exactly what its output depends on, and its input, have clones besides. */
  lemma ClonesMore(u: Graph, subs: seq<Module>, earlier: seq<Route>, r: Route, wired: Wiring, linked: map<Node, Node>,
                   wired': Wiring, linked': map<Node, Node>)
    requires Dag(u) && OnGraph(u, subs) && Dag(Wired(u, wired)) && AllValid(subs, earlier) && ValidRoute(subs, r)
    requires Target(subs, r) < |u| && Source(subs, r) < |u|
    requires ClonesTaken(u, subs, earlier, wired, linked)
    requires RouteAdded(u, Target(subs, r), Source(subs, r), wired, linked, wired', linked')
    ensures wired' == WireMore(u, subs, earlier, wired, r) && AllValid(subs, earlier + [r])
    ensures ClonesTaken(u, subs, earlier + [r], wired', linked')
  {
    hide Reaches, Dag, Source, Target, ValidRoute, OnGraph, Taken;
    var to, from, w, w' := Target(subs, r), Source(subs, r), Wired(u, wired), Wired(u, wired');
    assert wired' == WireMore(u, subs, earlier, wired, r);
    forall n ensures n in linked' <==> Taken(w', subs, earlier + [r], n) {
      TakenMore(w', subs, earlier, r, n);
      if wired' != wired {
        TakenSame(u, subs, earlier, wired, to, from, n);
        ReachesSame(w, w', to, from, n);
      }
    }
  }

  /** What is known after some routes. */
  ghost predicate Routed(f: Fuser, subs: seq<Module>, routes: seq<Route>)
    requires Dag(f.u) && OnGraph(f.u, subs)
    reads f
  {
    && f.Valid() && AllValid(subs, routes)
    && f.wired == Wires(f.u, subs, routes) && ClonesTaken(f.u, subs, routes, f.wired, f.linked)
  }

  lemma NothingRouted(f: Fuser, subs: seq<Module>, none: seq<Route>)
    requires f.Valid() && f.linked == map[] && f.wired == map[] && Dag(f.u) && OnGraph(f.u, subs) && none == []
    ensures Routed(f, subs, none) && AllValid(subs, none) && Targets(subs, none) == {} == Sources(subs, none)
  {
  }

  /** One turn of the loop over the routes. */
  method AddValid(f: Fuser, subs: seq<Module>, ghost earlier: seq<Route>, route: Route)
    requires Dag(f.u) && OnGraph(f.u, subs) && Routed(f, subs, earlier) && ValidRoute(subs, route)
    modifies f
    ensures Routed(f, subs, earlier + [route])
  {
    hide Fuser.Valid, ValidRoute, Source, Target, OnGraph;
    hide Dag, Reaches, Keeps, Wires, WireMore, ClonesTaken, RouteAdded;
    EndpointsWithin(f.u, subs, route);
    ghost var wired, linked := f.wired, f.linked;
    f.AddRoute(Target(subs, route), Source(subs, route));
    ClonesMore(f.u, subs, earlier, route, wired, linked, f.wired, f.linked);
    WiresMore(f.u, subs, earlier, route);
  }

  /** The loop over the routes, until one is invalid. */
  method AddRoutes(f: Fuser, subs: seq<Module>, routes: seq<Route>) returns (ok: bool, ins: set<Node>, outs: set<Node>)
    requires f.Valid() && f.linked == map[] && f.wired == map[] && OnGraph(f.u, subs)
    modifies f
    ensures Dag(f.u) && (ok <==> AllValid(subs, routes))
    ensures ok ==> Routed(f, subs, routes) && ins == Targets(subs, routes) && outs == Sources(subs, routes)
  {
    hide ValidRoute, Source, Target, Targets, Sources, OnGraph, Dag, Routed, Fuser.Valid;
    f.Facts();
    NothingRouted(f, subs, routes[..0]);
    ins, outs, ok := {}, {}, true;
    for i := 0 to |routes|
      invariant AllValid(subs, routes[..i]) && Routed(f, subs, routes[..i])
      invariant ins == Targets(subs, routes[..i]) && outs == Sources(subs, routes[..i])
    {
      var route := routes[i];
      if !ValidRoute(subs, route) {
        return false, ins, outs;
      }
      assert routes[..i + 1] == routes[..i] + [route];
      AddValid(f, subs, routes[..i], route);
      TargetsMore(subs, routes, i);
      ins := ins + {Target(subs, route)};
      outs := outs + {Source(subs, route)};
    }
    assert routes[..|routes|] == routes;
  }

  /** The joined graph can be loaded, and every kept input has a clone. */
  ghost predicate Fusible(u: Graph, subs: seq<Module>, routes: seq<Route>)
    requires Dag(u) && OnGraph(u, subs) && AllValid(subs, routes)
  {
    var ins, outs := KeptInputs(subs, Targets(subs, routes)), KeptOutputs(subs, Sources(subs, routes));
    var w := Wired(u, Wires(u, subs, routes));
    && Within(w, outs) && Joinable(w, ins, outs)
    && (forall n :: n in ins ==> Taken(w, subs, routes, n) || ReachedFrom(w, outs, n))
  }

  /** After the outputs, exactly what they need has clones besides. */
  lemma AllClones(u: Graph, wired: Wiring, taken: map<Node, Node>, linked: map<Node, Node>, g: Graph,
                  outs: seq<Node>, outs': seq<Node>)
    requires Dag(Wired(u, wired)) && AllCloned(u, wired, linked, g) && Within(u, outs) && Renames(linked, outs, outs')
    requires Keeps(taken, linked)
    requires forall n :: n in linked ==> n in taken || ReachedFrom(Wired(u, wired), outs, n)
    ensures forall n :: n in linked <==> n in taken || ReachedFrom(Wired(u, wired), outs, n)
  {
    hide AllCloned, Reaches, Dag;
    forall n | ReachedFrom(Wired(u, wired), outs, n) ensures n in linked {
      var i :| 0 <= i < |outs| && Reaches(Wired(u, wired), outs[i], n);
      ReachedIsCloned(u, wired, linked, g, outs[i], n);
    }
  }

  /**
   * What a fusion yields: the clones of the kept inputs and outputs, in order, on a graph of clones of the
   * joined graph. A clone has the value its original has there (`FusedValues`).
   */
  ghost predicate IsFusion(u: Graph, subs: seq<Module>, routes: seq<Route>, linked: map<Node, Node>, m: Module)
    requires Dag(u) && OnGraph(u, subs) && AllValid(subs, routes)
  {
    && Placed(m) && Loadable(m) && AllCloned(u, Wires(u, subs, routes), linked, m.graph)
    && Renames(linked, KeptInputs(subs, Targets(subs, routes)), m.inputs)
    && Renames(linked, KeptOutputs(subs, Sources(subs, routes)), m.outputs)
  }

  /**
   * There is a result exactly if the routes are valid, the kept outputs can be computed in the joined graph
   * from the kept inputs, and each of these has a clone, since it has been taken or an output needs it.
   */
  method Fuse(u: Graph, subs: seq<Module>, routes: seq<Route>)
    returns (r: Option<Module>, ghost linked: map<Node, Node>)
    requires Dag(u) && OnGraph(u, subs)
    ensures r.Some? <==> AllValid(subs, routes) && Fusible(u, subs, routes)
    ensures r.Some? ==> IsFusion(u, subs, routes, linked, r.value)
  {
    hide Fuser.Valid, AllCloned, Targets, Sources, OnGraph, Dag, Loadable, Wires, Taken, ReachedFrom, Joinable;
    var f := new Fuser(u);
    var ok, gone, led := AddRoutes(f, subs, routes);
    linked := f.linked;
    if !ok {
      return None, linked;
    }
    var inputs, outputs := Collect(subs, gone, led);
    KeptWithin(u, subs, gone);
    KeptWithin(u, subs, led);
    ghost var wired, taken := f.wired, f.linked;
    ghost var bound := Bound(u, outputs);
    var clonedOutputs := f.CloneGraph(outputs, bound);
    linked := f.linked;
    f.Facts();
    AllClones(u, wired, taken, linked, f.g, outputs, clonedOutputs);
    var clonedInputs := FindClones(f.cloned, inputs);
    if clonedInputs.None? {
      return None, linked;
    }
    var m := Module(f.g, clonedInputs.value, clonedOutputs);
    ClonesPlaced(u, wired, linked, f.g, inputs, clonedInputs.value);
    ClonesPlaced(u, wired, linked, f.g, outputs, clonedOutputs);
    JoinableLoads(u, wired, linked, f.g, inputs, outputs, clonedInputs.value, clonedOutputs);
    r := LoadGraph(m);
  }

  ghost function Bound(u: Graph, ns: seq<Node>): (b: nat)
    requires Dag(u) && Within(u, ns)
    ensures forall i :: 0 <= i < |ns| ==> Rank(u, ns[i]) < b
  {
    if ns == [] then 0
    else
      var b := Bound(u, ns[..|ns| - 1]);
      var r := Rank(u, ns[|ns| - 1]);
      if r < b then b else r + 1
  }

  lemma ClonesPlaced(u: Graph, wired: Wiring, linked: map<Node, Node>, g: Graph, ns: seq<Node>, ms: seq<Node>)
    requires AllCloned(u, wired, linked, g) && Renames(linked, ns, ms)
    ensures Closed(g) && Within(g, ms)
  {
  }

  /** All routed inputs are Parameters. */
  ghost predicate LeadsToParameters(u: Graph, wires: Wiring) {
    forall t :: t in wires ==> t < |u| && wires[t] < |u| && u[t].bubble.Kind().Parameter?
  }

  /** The environment in which each wired input has the value of the output led to it. */
  ghost predicate IsFed(u: Graph, wires: Wiring, k: Kernels, env: Env, fed: Env)
    requires Dag(u) && LeadsToParameters(u, wires)
  {
    forall t: Node :: fed(t) == if t in wires then Eval(u, k, fed, wires[t]) else env(t)
  }

  /** There is one such environment, and only one. */
  lemma FedIsUnique(u: Graph, wires: Wiring, k: Kernels, env: Env, fed: Env)
    requires Dag(u) && Dag(Wired(u, wires)) && LeadsToParameters(u, wires) && CopyCopies(k)
    ensures IsFed(u, wires, k, env, fed) <==>
            forall t: Node :: fed(t) == if t in wires then Eval(Wired(u, wires), k, env, wires[t]) else env(t)
  {
    hide Dag, CopyCopies, Bubble.Kind, Eval, Wired;
    var w := Wired(u, wires);
    if (IsFed(u, wires, k, env, fed) ||
        forall t: Node :: fed(t) == if t in wires then Eval(w, k, env, wires[t]) else env(t)) {
      forall t | t in wires ensures Eval(w, k, env, wires[t]) == Eval(u, k, fed, wires[t]) {
        JoinedComposes(u, wires, k, env, fed, wires[t]);
      }
    }
  }

  /**
   * Fusion is composition, for any modules and any routes: the fused outputs have the values of the kept outputs
   * on the given graph, when every wired input is given the value of the output led to it.
   */
  lemma FusedComposes(u: Graph, subs: seq<Module>, routes: seq<Route>, linked: map<Node, Node>, m: Module,
                      k: Kernels, env: Env, fed: Env, env': Env)
    requires Dag(u) && OnGraph(u, subs) && AllValid(subs, routes) && IsFusion(u, subs, routes, linked, m)
    requires CopyCopies(k) && LeadsToParameters(u, Wires(u, subs, routes))
    requires IsFed(u, Wires(u, subs, routes), k, env, fed)
    requires forall n :: n in linked ==> env'(linked[n]) == env(n)
    ensures var outs := KeptOutputs(subs, Sources(subs, routes));
            && Within(u, outs) && Dag(m.graph) && Within(m.graph, m.outputs)
            && EvalAll(m.graph, k, env', m.outputs) == EvalAll(u, k, fed, outs)
  {
    var outs, wires := KeptOutputs(subs, Sources(subs, routes)), Wires(u, subs, routes);
    KeptWithin(u, subs, Sources(subs, routes));
    hide Dag, AllCloned, Renames, Loadable, Wires, Eval, Bubble.Kind, OnGraph, AllValid, CopyCopies;
    FusedValues(u, wires, linked, m.graph, outs, m.outputs, k, env, env');
    forall i | 0 <= i < |outs| ensures Eval(Wired(u, wires), k, env, outs[i]) == Eval(u, k, fed, outs[i]) {
      JoinedComposes(u, wires, k, env, fed, outs[i]);
    }
  }

  // ---------------------------------------------------------------- two modules

  ghost predicate Owns(u: Graph, m: Module, n: Node)
    requires Dag(u) && Within(u, m.outputs)
  {
    n in m.inputs || ReachedFrom(u, m.outputs, n)
  }

  /** The modules have no node in common. */
  ghost predicate Apart(u: Graph, a: Module, b: Module)
    requires Dag(u) && Within(u, a.outputs) && Within(u, b.outputs)
  {
    forall n :: !(Owns(u, a, n) && Owns(u, b, n))
  }

  lemma OwnsOutputs(u: Graph, m: Module)
    requires Dag(u) && Within(u, m.outputs)
    ensures forall n :: n in m.outputs ==> Owns(u, m, n)
    ensures forall i, n :: 0 <= i < |m.outputs| && Reaches(u, m.outputs[i], n) ==> Owns(u, m, n)
  {
    forall n | n in m.outputs ensures ReachedFrom(u, m.outputs, n) {
      var i :| 0 <= i < |m.outputs| && m.outputs[i] == n;
      assert Reaches(u, m.outputs[i], n);
    }
  }

  /** So no output of the one depends on an input of the other, nor is it one of its outputs. */
  lemma ApartIsOneWay(u: Graph, a: Module, b: Module, to: Node)
    requires Dag(u) && Within(u, a.outputs) && Within(u, b.outputs) && Apart(u, a, b) && to in b.inputs
    ensures (forall n :: n in a.outputs ==> n !in b.outputs) && to !in a.inputs
    ensures forall i :: 0 <= i < |a.outputs| ==> !Reaches(u, a.outputs[i], to)
  {
    OwnsOutputs(u, a);
    OwnsOutputs(u, b);
    assert Owns(u, b, to);
    hide Owns, Reaches, ReachedFrom, Dag;
  }

  lemma KeptOfTwo(a: Module, b: Module, gone: set<Node>)
    ensures KeptOutputs([a, b], gone) == Without(a.outputs, gone) + Without(b.outputs, gone)
    ensures KeptInputs([a, b], gone) == Without(a.inputs, gone) + Without(b.inputs, gone)
  {
    hide Without;
    assert [a, b][..1] == [a] && [a][..0] == [];
    assert KeptOutputs([a], gone) == KeptOutputs([], gone) + Without(a.outputs, gone);
    assert KeptInputs([a], gone) == KeptInputs([], gone) + Without(a.inputs, gone);
  }

  /** What is fused when an output of one module is led to an input of another that has no node in common with it. */
  lemma FusionOfTwo(u: Graph, a: Module, b: Module, outSlot: nat, inSlot: nat, linked: map<Node, Node>, m: Module)
    requires Dag(u) && OnGraph(u, [a, b]) && Within(u, a.outputs) && Within(u, b.outputs) && Apart(u, a, b)
    requires outSlot < |a.outputs| && inSlot < |b.inputs|
    requires ValidRoute([a, b], Route(0, outSlot, 1, inSlot))
    requires IsFusion(u, [a, b], [Route(0, outSlot, 1, inSlot)], linked, m)
    ensures var from, to := a.outputs[outSlot], b.inputs[inSlot];
            && from < |u| && to < |u| && Dag(Wired(u, map[to := from]))
            && AllCloned(u, map[to := from], linked, m.graph)
            && Within(u, Without(a.outputs, {from}) + b.outputs)
            && Renames(linked, Without(a.outputs, {from}) + b.outputs, m.outputs)
            && Renames(linked, a.inputs + Without(b.inputs, {to}), m.inputs)
  {
    var subs, route := [a, b], Route(0, outSlot, 1, inSlot);
    var from, to := a.outputs[outSlot], b.inputs[inSlot];
    assert Source(subs, route) == from && Target(subs, route) == to;
    assert Sources(subs, [route]) == {from} && Targets(subs, [route]) == {to};
    KeptOfTwo(a, b, {from});
    KeptOfTwo(a, b, {to});
    KeptWithin(u, subs, {from});
    hide Dag, AllCloned, Reaches, Without, Apart, OnGraph, Wires;
    hide Renames, Loadable, ValidRoute, Placed, KeptOutputs, KeptInputs;
    EndpointsWithin(u, subs, route);
    ApartIsOneWay(u, a, b, to);
    OneRouteWired(u, subs, route);
    WithoutNone(b.outputs, {from});
    WithoutNone(a.inputs, {to});
  }

  /**
   * Fusion is composition. An output of the first of two modules without common nodes is led to an input of the
   * second. Then the fused module has the other outputs of the first module, with their values, and all outputs
   * of the second, with the values they have when that input is given the value of the routed output.
   */
  lemma FusedTwo(u: Graph, a: Module, b: Module, outSlot: nat, inSlot: nat, linked: map<Node, Node>, m: Module,
                 k: Kernels, env: Env, fed: Env, env': Env)
    requires Dag(u) && OnGraph(u, [a, b]) && Within(u, a.outputs) && Within(u, b.outputs) && Apart(u, a, b)
    requires outSlot < |a.outputs| && inSlot < |b.inputs| && b.inputs[inSlot] < |u|
    requires u[b.inputs[inSlot]].bubble.Kind().Parameter? && CopyCopies(k)
    requires ValidRoute([a, b], Route(0, outSlot, 1, inSlot))
    requires IsFusion(u, [a, b], [Route(0, outSlot, 1, inSlot)], linked, m)
    requires fed(b.inputs[inSlot]) == Eval(u, k, env, a.outputs[outSlot])
    requires forall n: nat :: n != b.inputs[inSlot] ==> fed(n) == env(n)
    requires forall n :: n in linked ==> env'(linked[n]) == env(n)
    ensures Dag(m.graph) && Within(m.graph, m.outputs)
    ensures var others := Without(a.outputs, {a.outputs[outSlot]});
            && Within(u, others)
            && EvalAll(m.graph, k, env', m.outputs) == EvalAll(u, k, env, others) + EvalAll(u, k, fed, b.outputs)
    ensures Distinct(b.inputs) ==> Renames(linked, a.inputs + b.inputs[..inSlot] + b.inputs[inSlot + 1..], m.inputs)
    ensures Distinct(a.outputs) ==>
              Without(a.outputs, {a.outputs[outSlot]}) == a.outputs[..outSlot] + a.outputs[outSlot + 1..]
  {
    hide Dag, AllCloned, Reaches, CopyCopies, Without, IsFusion, Apart;
    hide OnGraph, Wires, Bubble.Kind, Renames, ValidRoute;
    var from, to := a.outputs[outSlot], b.inputs[inSlot];
    FusionOfTwo(u, a, b, outSlot, inSlot, linked, m);
    ApartIsOneWay(u, a, b, to);
    if Distinct(b.inputs) {
      WithoutSlot(b.inputs, inSlot);
      assert a.inputs + b.inputs[..inSlot] + b.inputs[inSlot + 1..] == a.inputs + Without(b.inputs, {to});
    }
    if Distinct(a.outputs) {
      WithoutSlot(a.outputs, outSlot);
    }
    var others := Without(a.outputs, {from});
    var outs := others + b.outputs;
    OthersWithin(u, others, b.outputs);
    FusedValues(u, map[to := from], linked, m.graph, outs, m.outputs, k, env, env');
    forall i | 0 <= i < |outs|
      ensures Eval(Wired(u, map[to := from]), k, env, outs[i]) == Eval(u, k, if i < |others| then env else fed, outs[i])
    {
      Composes(u, from, to, k, env, fed, outs[i]);
      if i < |others| {
        assert others[i] in others;
        var j :| 0 <= j < |a.outputs| && a.outputs[j] == others[i];
        Untouched(u, to, k, env, fed, others[i]);
      }
    }
  }

  lemma OthersWithin(u: Graph, ns: seq<Node>, ms: seq<Node>)
    requires Within(u, ns + ms)
    ensures Within(u, ns) && Within(u, ms)
  {
    forall i | 0 <= i < |ns| ensures ns[i] < |u| {
      assert (ns + ms)[i] == ns[i];
    }
    forall i | 0 <= i < |ms| ensures ms[i] < |u| {
      assert (ns + ms)[|ns| + i] == ms[i];
    }
  }

  // ---------------------------------------------------------------- routes that are lost

  const INPUT := Record(Bubble(PARAMETER, "x", map[]), [])

  function Layer(input: Node): Record {
    Record(Bubble("f", "y", map[]), [input])
  }

  /** Three modules of one layer each. */
  const CHAIN: Graph := [INPUT, Layer(0), INPUT, Layer(2), INPUT, Layer(4)]
  const LINKS: seq<Module> := [Module(CHAIN, [0], [1]), Module(CHAIN, [2], [3]), Module(CHAIN, [4], [5])]
  const FIRST := Route(0, 0, 1, 0)
  const SECOND := Route(1, 0, 2, 0)
  const LOOP := Route(0, 0, 0, 0)

  lemma ChainIsDag()
    ensures Dag(CHAIN) && OnGraph(CHAIN, LINKS)
    ensures AllValid(LINKS, [FIRST, SECOND]) && AllValid(LINKS, [SECOND, FIRST]) && AllValid(LINKS, [LOOP])
  {
    assert IsRanking(CHAIN, [0, 1, 0, 1, 0, 1]);
  }

  /** A module's output led back to its own input is not wired. */
  lemma LoopIsLost()
    ensures Dag(CHAIN) && OnGraph(CHAIN, LINKS) && AllValid(LINKS, [LOOP])
    ensures Wires(CHAIN, LINKS, [LOOP]) == map[]
  {
    ChainIsDag();
    ReachesOver(CHAIN, 1, 0, 0);
    ReachesLeaf(CHAIN, 0, 0);
    hide Reaches, Dag, Wires, OnGraph;
    OneRouteWired(CHAIN, LINKS, LOOP);
  }

  /**
   * In a chain, the route into the middle is lost if it is listed after the route out of it: by then the input
   * has been cloned as it is. The fusion then fails, as an output needs an input that is not kept.
   */
  lemma LateRouteIsLost()
    ensures Dag(CHAIN) && OnGraph(CHAIN, LINKS) && AllValid(LINKS, [SECOND, FIRST]) && AllValid(LINKS, [FIRST, SECOND])
    ensures Wires(CHAIN, LINKS, [SECOND, FIRST]) == map[4 := 3]
    ensures Wires(CHAIN, LINKS, [FIRST, SECOND]) == map[2 := 1, 4 := 3]
    ensures !Fusible(CHAIN, LINKS, [SECOND, FIRST])
  {
    ChainIsDag();
    LateWires();
    EarlyWires();
    LateFails();
  }

  lemma LateWires()
    requires Dag(CHAIN) && OnGraph(CHAIN, LINKS) && AllValid(LINKS, [SECOND, FIRST])
    ensures Wires(CHAIN, LINKS, [SECOND, FIRST]) == map[4 := 3]
  {
    hide Dag, OnGraph, Reaches, Wires;
    ReachesOver(CHAIN, 3, 2, 4);
    ReachesLeaf(CHAIN, 2, 4);
    OneRouteWired(CHAIN, LINKS, SECOND);
    assert [SECOND] + [FIRST] == [SECOND, FIRST];
    WiresMore(CHAIN, LINKS, [SECOND], FIRST);
    var w := Wired(CHAIN, map[4 := 3]);
    ReachesOver(w, 3, 2, 2);
    ReachesLeaf(w, 2, 2);
    assert TakenBy(w, LINKS, [SECOND][0], 2);
  }

  lemma EarlyWires()
    requires Dag(CHAIN) && OnGraph(CHAIN, LINKS) && AllValid(LINKS, [FIRST, SECOND])
    ensures Wires(CHAIN, LINKS, [FIRST, SECOND]) == map[2 := 1, 4 := 3]
  {
    hide Dag, OnGraph, Reaches, Wires;
    ReachesOver(CHAIN, 1, 0, 2);
    ReachesLeaf(CHAIN, 0, 2);
    OneRouteWired(CHAIN, LINKS, FIRST);
    assert [FIRST] + [SECOND] == [FIRST, SECOND];
    WiresMore(CHAIN, LINKS, [FIRST], SECOND);
    var w := Wired(CHAIN, map[2 := 1]);
    ReachesOver(w, 3, 2, 4);
    ReachesOver(w, 2, 1, 4);
    ReachesOver(w, 1, 0, 4);
    ReachesLeaf(w, 0, 4);
  }

  lemma {:induction false} KeptInputsAre(subs: seq<Module>, gone: set<Node>, n: Node)
    requires n in KeptInputs(subs, gone)
    ensures n !in gone
  {
    var last := |subs| - 1;
    if n !in Without(subs[last].inputs, gone) {
      KeptInputsAre(subs[..last], gone, n);
    }
  }

  lemma {:induction false} KeptOutputsHave(subs: seq<Module>, gone: set<Node>, i: nat, n: Node)
    requires i < |subs| && n in subs[i].outputs && n !in gone
    ensures n in KeptOutputs(subs, gone)
  {
    if i < |subs| - 1 {
      KeptOutputsHave(subs[..|subs| - 1], gone, i, n);
    }
  }

  /** With the second wire only, the last layer needs the middle input. */
  lemma LateNeeds(outs: seq<Node>)
    requires 5 in outs
    ensures Needs(Wired(CHAIN, map[4 := 3]), outs, 2)
  {
    var w := Wired(CHAIN, map[4 := 3]);
    assert Proceeds(w, 5) && Proceeds(w, 4) && Proceeds(w, 3) && w[2].bubble.Kind().Parameter?;
    hide Met, Proceeds, Bubble.Kind;
    MetOutput(w, outs, 5);
    MetInput(w, outs, 5, 0);
    MetInput(w, outs, 4, 0);
    MetInput(w, outs, 3, 0);
  }

  lemma LateFails()
    requires Dag(CHAIN) && OnGraph(CHAIN, LINKS) && AllValid(LINKS, [SECOND, FIRST])
    requires Wires(CHAIN, LINKS, [SECOND, FIRST]) == map[4 := 3]
    ensures !Fusible(CHAIN, LINKS, [SECOND, FIRST])
  {
    hide OnGraph, Dag, Wires, Needs, KeptInputs, KeptOutputs, Wired, Computable, Taken;
    var routes := [SECOND, FIRST];
    var ins, outs := KeptInputs(LINKS, Targets(LINKS, routes)), KeptOutputs(LINKS, Sources(LINKS, routes));
    assert Target(LINKS, routes[1]) == 2 && 2 in Targets(LINKS, routes);
    assert Source(LINKS, routes[0]) == 3 && Source(LINKS, routes[1]) == 1 && 5 !in Sources(LINKS, routes);
    KeptOutputsHave(LINKS, Sources(LINKS, routes), 2, 5);
    LateNeeds(outs);
    if 2 in ins {
      KeptInputsAre(LINKS, Targets(LINKS, routes), 2);
    }
  }
}
