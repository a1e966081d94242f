/**
 Lowering a definition to a chart (compile.go:56-107): states are numbered in preorder by one counter,
 which makes every subtree a contiguous interval.
 */
module Compiler {
  import opened Charts

  datatype TransitionDefinition = TransitionDefinition(events: seq<string>, targets: seq<string>, isInternal: bool)

  datatype StateDefinition = StateDefinition(
    id: string, kind: Kind, deep: bool, initial: seq<string>, transitions: seq<TransitionDefinition>,
    invokes: seq<InvokeSpec>, hasData: bool, children: seq<StateDefinition>)

  /** One numbered state: its definition, its links, and the counter after its subtree. */
  datatype Node = Node(def: StateDefinition, parent: int, children: seq<int>, end: int)

  // ---- the numbering as a function ----

  function Size(d: StateDefinition): nat
    ensures Size(d) >= 1
    decreases d, |d.children| + 1
  {
    1 + SizeFrom(d, 0)
  }

  function SizeFrom(d: StateDefinition, i: nat): nat
    requires i <= |d.children|
    decreases d, |d.children| - i
  {
    if i == |d.children| then 0 else Size(d.children[i]) + SizeFrom(d, i + 1)
  }

  /** The nodes of d's subtree when the counter stands at `base`. */
  function Layout(d: StateDefinition, parent: int, base: nat): (r: seq<Node>)
    ensures |r| == Size(d)
    decreases d, |d.children| + 1
  {
    [Node(d, parent, Kids(d, 0, base + 1), base + Size(d))] + LayoutFrom(d, 0, base, base + 1)
  }

  function LayoutFrom(d: StateDefinition, i: nat, parent: int, base: nat): (r: seq<Node>)
    requires i <= |d.children|
    ensures |r| == SizeFrom(d, i)
    decreases d, |d.children| - i
  {
    if i == |d.children| then []
    else Layout(d.children[i], parent, base) + LayoutFrom(d, i + 1, parent, base + Size(d.children[i]))
  }

  /** The numbers the children from the i-th on receive. */
  function Kids(d: StateDefinition, i: nat, base: nat): seq<int>
    requires i <= |d.children|
    decreases |d.children| - i
  {
    if i == |d.children| then [] else [base as int] + Kids(d, i + 1, base + Size(d.children[i]))
  }

  /** compileDefinitionState's counter and the chart's order slice, which the recursion appends to. */
  class Numbering {
    var order: seq<Node>

    constructor ()
      ensures order == []
    {
      order := [];
    }

    method CompileState(d: StateDefinition, parent: int) returns (index: nat)
      modifies this
      ensures index == |old(order)|
      ensures order == old(order) + Layout(d, parent, |old(order)|)
      decreases d
    {
      index := |order|;
      order := order + [Node(d, parent, [], 0)];
      var children := [];
      ghost var before := old(order) + [Node(d, parent, [], 0)];
      for i := 0 to |d.children|
        invariant |order| == |before| + SizeFrom(d, 0) - SizeFrom(d, i)
        invariant order + LayoutFrom(d, i, index, |order|) == before + LayoutFrom(d, 0, index, index + 1)
        invariant children + Kids(d, i, |order|) == Kids(d, 0, index + 1)
      {
        ghost var was := order;
        var k := CompileState(d.children[i], index);
        children := children + [k];
        assert was + LayoutFrom(d, i, index, |was|) == order + LayoutFrom(d, i + 1, index, |order|);
      }
      assert order == before + LayoutFrom(d, 0, index, index + 1);
      assert children == Kids(d, 0, index + 1);
      order := order[index := Node(d, parent, children, |order|)];
      assert order == old(order) + ([Node(d, parent, children, index + Size(d))] + LayoutFrom(d, 0, index, index + 1));
    }
  }

  // ---- the chart ----

  /** byID (compile.go:67): the last state with an ID wins; the validator makes IDs unique. */
  function IndexOf(nodes: seq<Node>, id: string): Option<int> {
    if nodes == [] then None
    else if nodes[|nodes| - 1].def.id == id then Some(|nodes| - 1)
    else IndexOf(nodes[..|nodes| - 1], id)
  }

  /** Targets by index; the interpreter skips an ID no state has. */
  function Resolve(nodes: seq<Node>, ids: seq<string>): seq<int> {
    if ids == [] then []
    else
      match IndexOf(nodes, ids[0])
      case None => Resolve(nodes, ids[1..])
      case Some(i) => [i] + Resolve(nodes, ids[1..])
  }

  function Lower(nodes: seq<Node>, i: int): State
    requires 0 <= i < |nodes|
  {
    var n := nodes[i];
    State(n.def.id, n.def.kind, n.def.deep, n.parent, n.children, n.end, Resolve(nodes, n.def.initial),
      seq(|n.def.transitions|, j requires 0 <= j < |n.def.transitions| =>
        var t := n.def.transitions[j];
        Transition(i, j, t.events, Resolve(nodes, t.targets), t.isInternal)),
      n.def.invokes, n.def.hasData)
  }

  function Assemble(nodes: seq<Node>): Chart {
    Chart(seq(|nodes|, i requires 0 <= i < |nodes| => Lower(nodes, i)))
  }

  function Compile(d: StateDefinition): Chart { Assemble(Layout(d, -1, 0)) }

  // ---- the intervals ----

  function At(L: seq<Node>, base: int, x: int): Node
    requires base <= x < base + |L|
  {
    L[x - base]
  }

  ghost predicate NodeAt(L: seq<Node>, parent: int, base: int, kids: seq<int>, x: int) {
    base <= x < base + |L| ==>
      var n := At(L, base, x);
      && (x in kids <==> n.parent == parent)
      && (n.parent == parent || base <= n.parent < x < At(L, base, n.parent).end)
      && x < n.end <= base + |L|
      && (forall i, j :: 0 <= i < j < |n.children| ==> n.children[i] < n.children[j])
      && (forall k {:trigger k in n.children} {:trigger At(L, base, k)} :: k in n.children <==>
        base <= k < base + |L| && At(L, base, k).parent == x)
  }

  ghost predicate PairAt(L: seq<Node>, parent: int, base: int, x: int, a: int) {
    base <= a < x < base + |L| && x < At(L, base, a).end ==>
      At(L, base, x).end <= At(L, base, a).end && a <= At(L, base, x).parent
  }

  /** L numbers some siblings `kids` of `parent` and everything below them, starting at base. */
  ghost predicate Contiguous(L: seq<Node>, parent: int, base: int, kids: seq<int>) {
    && parent < base
    && (forall x {:trigger NodeAt(L, parent, base, kids, x)} :: NodeAt(L, parent, base, kids, x))
    && (forall x, a {:trigger PairAt(L, parent, base, x, a)} :: PairAt(L, parent, base, x, a))
    && (forall i, j :: 0 <= i < j < |kids| ==> kids[i] < kids[j])
    && (forall k :: k in kids ==> base <= k < base + |L|)
  }

  lemma Beside(L: seq<Node>, M: seq<Node>, parent: int, base: int, kids: seq<int>, kids': seq<int>)
    requires Contiguous(L, parent, base, kids) && Contiguous(M, parent, base + |L|, kids')
    ensures Contiguous(L + M, parent, base, kids + kids')
  {
    var U := L + M;
    var mid := base + |L|;
    assert forall x {:trigger At(U, base, x)} :: base <= x < mid ==> At(U, base, x) == At(L, base, x);
    assert forall x {:trigger At(U, base, x)} :: mid <= x < base + |U| ==> At(U, base, x) == At(M, mid, x);
    forall x ensures NodeAt(U, parent, base, kids + kids', x) {
      assert NodeAt(L, parent, base, kids, x) && NodeAt(M, parent, mid, kids', x);
      if base <= x < mid {
        forall k ensures k in At(U, base, x).children <==> base <= k < base + |U| && At(U, base, k).parent == x {
          assert NodeAt(M, parent, mid, kids', k);
        }
      } else if mid <= x < base + |U| {
        forall k ensures k in At(U, base, x).children <==> base <= k < base + |U| && At(U, base, k).parent == x {
          assert NodeAt(L, parent, base, kids, k);
        }
      }
    }
    forall x, a ensures PairAt(U, parent, base, x, a) {
      assert PairAt(L, parent, base, x, a) && PairAt(M, parent, mid, x, a);
      assert NodeAt(L, parent, base, kids, a);
    }
    forall i, j | 0 <= i < j < |kids + kids'|
      ensures (kids + kids')[i] < (kids + kids')[j]
    {
      if i < |kids| <= j { assert kids[i] in kids && kids'[j - |kids|] in kids'; }
    }
  }

  lemma Above(d: StateDefinition, rest: seq<Node>, parent: int, base: int, kids: seq<int>)
    requires parent < base && Contiguous(rest, base, base + 1, kids)
    ensures Contiguous([Node(d, parent, kids, base + 1 + |rest|)] + rest, parent, base, [base])
  {
    var top := Node(d, parent, kids, base + 1 + |rest|);
    var U := [top] + rest;
    assert forall x {:trigger At(U, base, x)} :: base < x < base + |U| ==> At(U, base, x) == At(rest, base + 1, x);
    forall x ensures NodeAt(U, parent, base, [base], x) {
      assert NodeAt(rest, base, base + 1, kids, x);
      if x == base {
        forall k {:trigger k in kids} {:trigger At(U, base, k)}
          ensures k in kids <==> base <= k < base + |U| && At(U, base, k).parent == base
        {
          assert NodeAt(rest, base, base + 1, kids, k);
        }
      } else if base < x < base + |U| {
        assert At(U, base, x).parent >= base;
        forall k ensures k in At(U, base, x).children <==> base <= k < base + |U| && At(U, base, k).parent == x {}
      }
    }
    forall x, a ensures PairAt(U, parent, base, x, a) {
      assert PairAt(rest, base, base + 1, x, a) && NodeAt(rest, base, base + 1, kids, x);
    }
  }

  lemma {:induction false} LayoutContiguous(d: StateDefinition, parent: int, base: nat)
    requires parent < base
    ensures Contiguous(Layout(d, parent, base), parent, base, [base as int])
    decreases d, |d.children| + 1
  {
    LayoutFromContiguous(d, 0, base, base + 1);
    Above(d, LayoutFrom(d, 0, base, base + 1), parent, base, Kids(d, 0, base + 1));
  }

  lemma {:induction false} LayoutFromContiguous(d: StateDefinition, i: nat, parent: int, base: nat)
    requires i <= |d.children| && parent < base
    ensures Contiguous(LayoutFrom(d, i, parent, base), parent, base, Kids(d, i, base))
    decreases d, |d.children| - i
  {
    if i == |d.children| {
    } else {
      LayoutContiguous(d.children[i], parent, base);
      LayoutFromContiguous(d, i + 1, parent, base + Size(d.children[i]));
      Beside(Layout(d.children[i], parent, base), LayoutFrom(d, i + 1, parent, base + Size(d.children[i])),
        parent, base, [base as int], Kids(d, i + 1, base + Size(d.children[i])));
    }
  }

  lemma Lowered(L: seq<Node>, x: int)
    requires 0 <= x < |L|
    ensures var c := Assemble(L);
            Has(c, x) && Parent(c, x) == At(L, 0, x).parent && End(c, x) == At(L, 0, x).end
              && Children(c, x) == At(L, 0, x).children
  {}

  lemma AssembledNode(L: seq<Node>, x: int)
    requires Contiguous(L, -1, 0, [0]) && 0 <= x < |L|
    requires L[0].end == |L|
    ensures NodeOk(Assemble(L), x)
  {
    var c := Assemble(L);
    Lowered(L, x);
    assert NodeAt(L, -1, 0, [0], x);
    forall k ensures k in Children(c, x) <==> Has(c, k) && Parent(c, k) == x {
      if 0 <= k < |L| { Lowered(L, k); }
    }
  }

  lemma AssembledTree(L: seq<Node>)
    requires Contiguous(L, -1, 0, [0]) && |L| > 0 && L[0].end == |L|
    ensures Tree(Assemble(L))
  {
    var c := Assemble(L);
    forall x | Has(c, x)
      ensures NodeOk(c, x)
    {
      AssembledNode(L, x);
    }
    forall x {:trigger Parent(c, x)} | 0 < x < |c.states|
      ensures 0 <= Parent(c, x) && Desc(c, x, Parent(c, x))
    {
      Lowered(L, x);
      assert NodeAt(L, -1, 0, [0], x);
      Lowered(L, Parent(c, x));
    }
    forall x, a {:trigger Desc(c, x, a)} | Desc(c, x, a) && 0 <= a
      ensures x < End(c, x) <= End(c, a) <= |c.states| && a <= Parent(c, x)
    {
      assert Has(c, a) && NodeAt(L, -1, 0, [0], a);
      Lowered(L, a);
      assert NodeAt(L, -1, 0, [0], x) && PairAt(L, -1, 0, x, a);
      Lowered(L, x);
    }
  }

  /** Whatever the definition, the compiled chart's subtrees are the intervals of its numbering. */
  lemma CompileMakesTree(d: StateDefinition)
    ensures Tree(Compile(d)) && |Compile(d).states| == Size(d)
  {
    LayoutContiguous(d, -1, 0);
    AssembledTree(Layout(d, -1, 0));
  }

  /** In a compiled chart, walking the parent links and comparing numbers agree for every pair. */
  lemma CompiledDescendants(d: StateDefinition, x: int, a: int)
    requires Has(Compile(d), a)
    ensures Tree(Compile(d)) && (IsDescendant(Compile(d), x, a) <==> Desc(Compile(d), x, a))
  {
    CompileMakesTree(d);
    DescendantIsInterval(Compile(d), x, a);
  }

  // ---- what the states are ----

  /** The state that an ID stands for: the last one that has it. */
  ghost predicate Denotes(c: Chart, id: string, x: int) {
    Has(c, x) && Name(c, x) == id && forall y {:trigger Name(c, y)} :: x < y < |c.states| ==> Name(c, y) != id
  }

  ghost predicate Known(c: Chart, id: string) { exists x {:trigger Name(c, x)} :: Has(c, x) && Name(c, x) == id }

  ghost function KnownIds(c: Chart, ids: seq<string>): seq<string> {
    if ids == [] then [] else (if Known(c, ids[0]) then [ids[0]] else []) + KnownIds(c, ids[1..])
  }

  /** The known IDs, one by one. */
  ghost predicate Targeted(c: Chart, ids: seq<string>, xs: seq<int>) {
    |xs| == |KnownIds(c, ids)| && forall i {:trigger xs[i]} :: 0 <= i < |xs| ==> Denotes(c, KnownIds(c, ids)[i], xs[i])
  }

  ghost predicate TransitionAs(c: Chart, x: int, j: int, t: Transition, d: TransitionDefinition) {
    && t.source == x && t.index == j && t.events == d.events && t.isInternal == d.isInternal
    && Targeted(c, d.targets, t.target)
  }

  ghost predicate TransitionsAs(c: Chart, x: int, ts: seq<Transition>, ds: seq<TransitionDefinition>) {
    |ts| == |ds| && forall j {:trigger ts[j]} :: 0 <= j < |ts| ==> TransitionAs(c, x, j, ts[j], ds[j])
  }

  /** The state x is what d defines, apart from its children. */
  ghost predicate StateAs(c: Chart, x: int, d: StateDefinition) {
    && Has(c, x) && Name(c, x) == d.id && c.states[x].kind == d.kind && c.states[x].deep == d.deep
    && HasData(c, x) == d.hasData && Invokes(c, x) == d.invokes && Targeted(c, d.initial, Initial(c, x))
    && TransitionsAs(c, x, Transitions(c, x), d.transitions)
  }

  /** And its children are what d's children define, in order. */
  ghost predicate SubtreeAs(c: Chart, x: int, d: StateDefinition)
    decreases d
  {
    && StateAs(c, x, d) && |Children(c, x)| == |d.children|
    && forall i {:trigger d.children[i]} :: 0 <= i < |d.children| ==> SubtreeAs(c, Children(c, x)[i], d.children[i])
  }

  lemma {:induction false} IndexOfIs(L: seq<Node>, id: string)
    ensures match IndexOf(L, id)
      case None => forall y :: 0 <= y < |L| ==> L[y].def.id != id
      case Some(x) => 0 <= x < |L| && L[x].def.id == id && forall y :: x < y < |L| ==> L[y].def.id != id
  {
    if L != [] && L[|L| - 1].def.id != id {
      var init := L[..|L| - 1];
      IndexOfIs(init, id);
      assert forall y :: 0 <= y < |init| ==> init[y] == L[y];
    }
  }

  lemma IndexOfDenotes(L: seq<Node>, id: string)
    ensures var c := Assemble(L); match IndexOf(L, id)
      case None => !Known(c, id)
      case Some(x) => Known(c, id) && Denotes(c, id, x)
  {
    IndexOfIs(L, id);
    var c := Assemble(L);
    assert forall y {:trigger Name(c, y)} :: 0 <= y < |L| ==> Name(c, y) == L[y].def.id;
    hide Lower, IndexOf;
    if IndexOf(L, id).Some? { assert Name(c, IndexOf(L, id).value) == id; }
  }

  lemma {:induction false} ResolveTargets(L: seq<Node>, ids: seq<string>)
    ensures Targeted(Assemble(L), ids, Resolve(L, ids))
  {
    hide Denotes, Known, IndexOf, Assemble;
    if ids != [] {
      IndexOfDenotes(L, ids[0]);
      ResolveTargets(L, ids[1..]);
    }
  }

  lemma LoweredAs(L: seq<Node>, x: int)
    requires 0 <= x < |L|
    ensures StateAs(Assemble(L), x, L[x].def) && Children(Assemble(L), x) == L[x].children
  {
    hide Targeted;
    var c, d := Assemble(L), L[x].def;
    ResolveTargets(L, d.initial);
    forall j {:trigger Transitions(c, x)[j]} | 0 <= j < |d.transitions|
      ensures TransitionAs(c, x, j, Transitions(c, x)[j], d.transitions[j])
    {
      ResolveTargets(L, d.transitions[j].targets);
    }
  }

  /** From number `base` on, L holds d's subtree. */
  ghost predicate HoldsAt(L: seq<Node>, M: seq<Node>, base: nat) {
    base + |M| <= |L| && L[base..base + |M|] == M
  }

  lemma {:induction false} LayoutAs(L: seq<Node>, d: StateDefinition, parent: int, base: nat)
    requires HoldsAt(L, Layout(d, parent, base), base)
    ensures SubtreeAs(Assemble(L), base, d)
    decreases d, |d.children| + 1
  {
    hide StateAs, Assemble;
    var M := Layout(d, parent, base);
    assert L[base] == M[0] by { assert L[base..base + |M|][0] == M[0]; }
    LoweredAs(L, base);
    assert HoldsAt(L, LayoutFrom(d, 0, base, base + 1), base + 1) by {
      assert M[1..] == LayoutFrom(d, 0, base, base + 1);
      assert L[base + 1..base + |M|] == L[base..base + |M|][1..];
    }
    KidsAs(L, d, 0, base, base + 1);
  }

  lemma {:induction false} KidsAs(L: seq<Node>, d: StateDefinition, i: nat, parent: int, base: nat)
    requires i <= |d.children| && HoldsAt(L, LayoutFrom(d, i, parent, base), base)
    ensures |Kids(d, i, base)| == |d.children| - i
    ensures forall j {:trigger d.children[j]} :: i <= j < |d.children| ==>
      SubtreeAs(Assemble(L), Kids(d, i, base)[j - i], d.children[j])
    decreases d, |d.children| - i
  {
    hide SubtreeAs, Assemble;
    if i < |d.children| {
      var k := d.children[i];
      var M, rest := Layout(k, parent, base), LayoutFrom(d, i + 1, parent, base + Size(k));
      var n := |M| + |rest|;
      assert M + rest == LayoutFrom(d, i, parent, base);
      assert L[base..base + |M|] == L[base..base + n][..|M|] == M;
      assert L[base + |M|..base + n] == L[base..base + n][|M|..] == rest;
      LayoutAs(L, k, parent, base);
      KidsAs(L, d, i + 1, parent, base + Size(k));
    }
  }

  /** The compiled chart is the definition, state by state: IDs, kinds, data, invocations and transitions are as
      defined, targets are the states with those IDs, and children stand in the order of the definition. */
  lemma CompileKeeps(d: StateDefinition)
    ensures SubtreeAs(Compile(d), 0, d)
  {
    hide SubtreeAs, Assemble;
    var L := Layout(d, -1, 0);
    assert L[0..0 + |L|] == L;
    LayoutAs(L, d, -1, 0);
  }
}
