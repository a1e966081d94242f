/**
 The compiled chart (chart.go:9-23) and the theory of its state tree.

 A state is its document-order index, so the root is 0 and every subtree is the interval
 [x, End(x)).  The module Compiler proves that the numbering pass really produces such intervals;
 everything after it reasons about descendants by comparing integers.
 */
module Charts {

  datatype Option<+T> = None | Some(value: T)

  datatype Kind = Atomic | Compound | Parallel | Final | History

  /** One transition; its guard is known to the datamodel by (source, index). */
  datatype Transition = Transition(source: int, index: nat, events: seq<string>, target: seq<int>, isInternal: bool)

  /** One declared invocation: its explicit ID (empty when generated), its stable declaration ID, and its
      handler type unless an expression computes that. */
  datatype InvokeSpec = InvokeSpec(id: string, definitionId: string, typ: Option<string>)

  /** `initial` holds the targets of a compound's initial or a history's default transition;
      `end` is the numbering counter after the last state of the subtree. */
  datatype State = State(
    id: string, kind: Kind, deep: bool, parent: int, children: seq<int>, end: int,
    initial: seq<int>, transitions: seq<Transition>, invokes: seq<InvokeSpec>, hasData: bool)

  datatype Chart = Chart(states: seq<State>)

  // ---- total accessors: the value outside the chart never matters ----

  predicate Has(c: Chart, x: int) { 0 <= x < |c.states| }

  function KindOf(c: Chart, x: int): Kind { if Has(c, x) then c.states[x].kind else Kind.History }

  function Parent(c: Chart, x: int): int { if Has(c, x) then c.states[x].parent else -1 }

  function End(c: Chart, x: int): int { if Has(c, x) then c.states[x].end else x }

  function Children(c: Chart, x: int): seq<int> { if Has(c, x) then c.states[x].children else [] }

  function Initial(c: Chart, x: int): seq<int> { if Has(c, x) then c.states[x].initial else [] }

  function Transitions(c: Chart, x: int): seq<Transition> { if Has(c, x) then c.states[x].transitions else [] }

  function Invokes(c: Chart, x: int): seq<InvokeSpec> { if Has(c, x) then c.states[x].invokes else [] }

  function Name(c: Chart, x: int): string { if Has(c, x) then c.states[x].id else "" }

  predicate HasData(c: Chart, x: int) { Has(c, x) && c.states[x].hasData }

  predicate IsDeep(c: Chart, x: int) { Has(c, x) && c.states[x].deep }

  predicate IsHistory(c: Chart, x: int) { Has(c, x) && KindOf(c, x) == Kind.History }

  predicate Real(c: Chart, x: int) { Has(c, x) && KindOf(c, x) != Kind.History }

  predicate IsAtomic(c: Chart, x: int) { Has(c, x) && (KindOf(c, x) == Atomic || KindOf(c, x) == Final) }

  predicate IsCompound(c: Chart, x: int) { Has(c, x) && KindOf(c, x) == Compound }

  predicate IsParallel(c: Chart, x: int) { Has(c, x) && KindOf(c, x) == Parallel }

  /** The children that can be active: all but the history pseudostates (interpreter.go:117-125). */
  function RealChildren(c: Chart, x: int): seq<int> { Reals(c, Children(c, x)) }

  function Reals(c: Chart, xs: seq<int>): seq<int> {
    if xs == [] then []
    else if KindOf(c, xs[0]) == Kind.History then Reals(c, xs[1..])
    else [xs[0]] + Reals(c, xs[1..])
  }

  lemma RealsAre(c: Chart, xs: seq<int>, k: int)
    ensures k in Reals(c, xs) <==> k in xs && KindOf(c, k) != Kind.History
  {}

  // ---- descendants as intervals ----

  /** x is a proper descendant of a. */
  predicate Desc(c: Chart, x: int, a: int) { a < x < End(c, a) }

  /** x is in the subtree rooted at a. */
  predicate In(c: Chart, x: int, a: int) { a <= x < End(c, a) }

  ghost predicate NodeOk(c: Chart, x: int) {
    && x < End(c, x) <= |c.states|
    && (if x == 0 then Parent(c, x) == -1 && End(c, x) == |c.states| else 0 <= Parent(c, x) < x)
    && (forall i, j :: 0 <= i < j < |Children(c, x)| ==> Children(c, x)[i] < Children(c, x)[j])
    && (forall k :: k in Children(c, x) <==> Has(c, k) && Parent(c, k) == x)
  }

  /** The intervals are nested and agree with the parent links. */
  ghost predicate Tree(c: Chart) {
    && |c.states| > 0
    && (forall x {:trigger NodeOk(c, x)} :: Has(c, x) ==> NodeOk(c, x))
    && (forall x {:trigger Parent(c, x)} :: 0 < x < |c.states| ==> 0 <= Parent(c, x) && Desc(c, x, Parent(c, x)))
    && (forall x, a {:trigger Desc(c, x, a)} :: Desc(c, x, a) && 0 <= a ==>
          x < End(c, x) <= End(c, a) <= |c.states| && a <= Parent(c, x))
  }

  /** isDescendant, as the source computes it: walk the parent links (interpreter.go:138-148). */
  predicate IsDescendant(c: Chart, x: int, a: int)
    requires Tree(c)
    decreases x
  {
    0 < x < |c.states| && (Parent(c, x) == a || IsDescendant(c, Parent(c, x), a))
  }

  /** Walking the parent links and comparing the numbers is the same test. */
  lemma {:induction false} DescendantIsInterval(c: Chart, x: int, a: int)
    requires Tree(c) && Has(c, a)
    ensures IsDescendant(c, x, a) <==> Desc(c, x, a)
    decreases x
  {
    if 0 < x < |c.states| && Parent(c, x) != a {
      DescendantIsInterval(c, Parent(c, x), a);
      if Desc(c, x, a) { assert a <= Parent(c, x); }
      if Desc(c, Parent(c, x), a) { assert Desc(c, x, Parent(c, x)); }
    }
  }

  /** The child of a whose subtree holds x. */
  ghost function ChildToward(c: Chart, a: int, x: int): (k: int)
    requires Tree(c) && 0 <= a && Desc(c, x, a)
    ensures Parent(c, k) == a && Desc(c, k, a) && In(c, x, k)
    decreases x
  {
    assert Desc(c, x, Parent(c, x));
    if Parent(c, x) == a then x
    else
      var k := ChildToward(c, a, Parent(c, x));
      assert Parent(c, x) == k || Desc(c, Parent(c, x), k);
      k
  }

  /** Two subtrees are nested or disjoint. */
  lemma Nested(c: Chart, x: int, a: int, b: int)
    requires Tree(c) && 0 <= a && 0 <= b && In(c, x, a) && In(c, x, b)
    ensures In(c, a, b) || In(c, b, a)
  {}

  /** A state below x is outside any subtree disjoint from x's. */
  lemma DisjointBelow(c: Chart, x: int, r: int, a: int)
    requires Tree(c) && 0 <= x && 0 <= r && In(c, a, x) && !In(c, x, r) && !In(c, r, x)
    ensures !In(c, a, r)
  {}

  /** Siblings have disjoint subtrees. */
  lemma SiblingsApart(c: Chart, k: int, l: int, x: int)
    requires Tree(c) && Has(c, k) && Has(c, l) && k != l && Parent(c, k) == Parent(c, l) && k != 0 && l != 0
    requires In(c, x, k)
    ensures !In(c, x, l)
  {
    assert !Desc(c, k, l) && !Desc(c, l, k);
  }

  /** Two children of one state whose subtrees share a state are the same child. */
  lemma SameSibling(c: Chart, k: int, l: int, x: int)
    requires Tree(c) && Has(c, k) && Has(c, l) && Parent(c, k) == Parent(c, l) && k != 0 && l != 0
    requires In(c, x, k) && In(c, x, l)
    ensures k == l
  {
    assert !Desc(c, k, l) && !Desc(c, l, k);
  }

  /** A state with a descendant has a child. */
  lemma HasChildren(c: Chart, x: int, y: int)
    requires Tree(c) && Has(c, x) && Desc(c, y, x)
    ensures Children(c, x) != []
  {
    assert NodeOk(c, x);
    assert ChildToward(c, x, y) in Children(c, x);
  }

  lemma TransDesc(c: Chart, x: int, y: int, z: int)
    requires Tree(c) && 0 <= z && 0 <= y && In(c, x, y) && Desc(c, y, z)
    ensures Desc(c, x, z)
  {}

  lemma TransIn(c: Chart, x: int, y: int, z: int)
    requires Tree(c) && 0 <= z && 0 <= y && In(c, x, y) && In(c, y, z)
    ensures In(c, x, z)
  {
    if y != z { TransDesc(c, x, y, z); }
  }

  // ---- which states can be active together ----

  /** No compound state separates x from y: it has no two children with x below one and y below the other. */
  ghost predicate Compat(c: Chart, x: int, y: int) {
    forall k, l {:trigger In(c, x, k), In(c, y, l)} ::
      0 < k && 0 < l && k != l && In(c, x, k) && In(c, y, l) ==>
        !(Parent(c, k) == Parent(c, l) && IsCompound(c, Parent(c, k)))
  }

  lemma CompatSym(c: Chart, x: int, y: int)
    requires Compat(c, x, y)
    ensures Compat(c, y, x)
  {}

  /** A state goes with everything its descendant goes with. */
  lemma CompatUp(c: Chart, a: int, t: int, x: int)
    requires Tree(c) && 0 <= a && In(c, t, a) && Compat(c, t, x)
    ensures Compat(c, a, x)
  {
    forall k, l | 0 < k && 0 < l && k != l && In(c, a, k) && In(c, x, l)
      ensures !(Parent(c, k) == Parent(c, l) && IsCompound(c, Parent(c, k)))
    {
      TransIn(c, t, a, k);
    }
  }

  /** A descendant goes with everything outside its ancestor's subtree that the ancestor goes with. */
  lemma CompatDown(c: Chart, s: int, x: int, e: int)
    requires Tree(c) && 0 <= s && In(c, x, s) && !In(c, e, s) && Compat(c, s, e)
    ensures Compat(c, x, e)
  {
    forall k, l | 0 < k && 0 < l && k != l && In(c, x, k) && In(c, e, l) && Parent(c, k) == Parent(c, l)
      && IsCompound(c, Parent(c, k))
      ensures false
    {
      Nested(c, x, s, k);
      if In(c, s, k) {
      } else {
        assert Desc(c, k, s);
        assert Desc(c, l, Parent(c, l));
        assert In(c, Parent(c, k), s);
        TransIn(c, l, Parent(c, l), s);
        TransIn(c, e, l, s);
      }
    }
  }

  /** A state goes with its own descendants. */
  lemma CompatNested(c: Chart, s: int, x: int)
    requires Tree(c) && 0 <= s && In(c, x, s)
    ensures Compat(c, s, x) && Compat(c, x, s)
  {
    forall k, l | 0 < k && 0 < l && k != l && In(c, s, k) && In(c, x, l) && Parent(c, k) == Parent(c, l)
      && IsCompound(c, Parent(c, k))
      ensures false
    {
      TransIn(c, x, s, k);
      SiblingsApart(c, k, l, x);
    }
  }

  /** The children of a parallel state go with whatever the parallel state goes with. */
  lemma CompatParallelChild(c: Chart, p: int, k: int, x: int)
    requires Tree(c) && IsParallel(c, p) && Parent(c, k) == p && Compat(c, p, x)
    ensures Compat(c, k, x)
  {
    forall i, l | 0 < i && 0 < l && i != l && In(c, k, i) && In(c, x, l) && Parent(c, i) == Parent(c, l)
      && IsCompound(c, Parent(c, i))
      ensures false
    {
      assert i != k;
      assert Desc(c, k, i);
      assert In(c, p, i);
    }
  }

  // ---- legal configurations (SCXML section 3.11) ----

  /** A compound state has exactly one active child. */
  ghost predicate OneChild(c: Chart, C: set<int>, s: int) {
    && (exists k :: k in C && Parent(c, k) == s)
    && (forall k, l :: k in C && l in C && Parent(c, k) == s && Parent(c, l) == s ==> k == l)
  }

  /** A parallel state has every child but its history pseudostates active. */
  ghost predicate AllChildren(c: Chart, C: set<int>, s: int) {
    forall k {:trigger Parent(c, k)} :: Real(c, k) && Parent(c, k) == s ==> k in C
  }

  ghost predicate ActiveOk(c: Chart, C: set<int>, s: int) {
    && 0 < s && Real(c, s)
    && (Parent(c, s) == 0 || Parent(c, s) in C)
    && (IsCompound(c, s) ==> OneChild(c, C, s))
    && (IsParallel(c, s) ==> AllChildren(c, C, s))
  }

  /** The compound root is never a member; it has one active child like any compound state. */
  ghost predicate Legal(c: Chart, C: set<int>) {
    && OneChild(c, C, 0)
    && (forall s {:trigger ActiveOk(c, C, s)} :: s in C ==> ActiveOk(c, C, s))
  }

  /** Atomic states have no children, and parallel ones have regions. */
  ghost predicate Branching(c: Chart) {
    Tree(c) && forall x {:trigger Children(c, x)} ::
      (IsAtomic(c, x) ==> Children(c, x) == []) && (IsParallel(c, x) ==> RealChildren(c, x) != [])
  }

  lemma ActiveChild(c: Chart, C: set<int>, s: int) returns (k: int)
    requires Branching(c) && Legal(c, C) && s in C && !IsAtomic(c, s)
    ensures k in C && Parent(c, k) == s && Desc(c, k, s)
  {
    assert ActiveOk(c, C, s) && NodeOk(c, s);
    if IsCompound(c, s) {
      k :| k in C && Parent(c, k) == s;
    } else {
      assert Children(c, s) != [];
      k := RealChildren(c, s)[0];
      RealsAre(c, Children(c, s), k);
    }
    assert ActiveOk(c, C, k) && NodeOk(c, k);
  }

  /** Below an active state there is an active atomic one. */
  lemma {:induction false} ActiveLeaf(c: Chart, C: set<int>, s: int) returns (x: int)
    requires Branching(c) && Legal(c, C) && s in C
    ensures x in C && IsAtomic(c, x) && In(c, x, s)
    decreases End(c, s) - s
  {
    assert ActiveOk(c, C, s) && NodeOk(c, s);
    if IsAtomic(c, s) {
      x := s;
    } else {
      var k := ActiveChild(c, C, s);
      x := ActiveLeaf(c, C, k);
      TransIn(c, x, k, s);
    }
  }

  /** Every ancestor of an active state is active, up to the root. */
  lemma {:induction false} LegalUp(c: Chart, C: set<int>, x: int, a: int)
    requires Tree(c) && Legal(c, C) && x in C && Desc(c, x, a) && 0 < a
    ensures a in C
    decreases x
  {
    assert ActiveOk(c, C, x);
    if Parent(c, x) != a {
      assert Desc(c, x, a) ==> a <= Parent(c, x);
      LegalUp(c, C, Parent(c, x), a);
    }
  }

  /** The parent of an active state, if compound, has that one active child. */
  lemma LegalParent(c: Chart, C: set<int>, k: int)
    requires Tree(c) && Legal(c, C) && k in C
    ensures 0 < k && Real(c, k) && Has(c, Parent(c, k))
    ensures IsCompound(c, Parent(c, k)) ==> OneChild(c, C, Parent(c, k))
    ensures Parent(c, k) != 0 ==> Parent(c, k) in C
  {
    assert ActiveOk(c, C, k);
    if Parent(c, k) != 0 { assert ActiveOk(c, C, Parent(c, k)); }
  }

  /** Any two active states go together. */
  lemma LegalCompat(c: Chart, C: set<int>, x: int, y: int)
    requires Tree(c) && Legal(c, C) && x in C && y in C
    ensures Compat(c, x, y)
  {
    forall k, l | 0 < k && 0 < l && k != l && In(c, x, k) && In(c, y, l)
      ensures !(Parent(c, k) == Parent(c, l) && IsCompound(c, Parent(c, k)))
    {
      if x != k { LegalUp(c, C, x, k); }
      if y != l { LegalUp(c, C, y, l); }
      LegalParent(c, C, k);
    }
  }

  // ---- document order ----

  /** sortAsc over states (interpreter.go:154-161): the members of S below n, in document order. */
  function SortAsc(S: set<int>, n: nat): (r: seq<int>)
    ensures forall x :: x in r <==> x in S && 0 <= x < n
    ensures forall i, j :: 0 <= i < j < |r| ==> r[i] < r[j]
  {
    if n == 0 then []
    else
      var before := SortAsc(S, n - 1);
      assert forall i :: 0 <= i < |before| ==> before[i] in before;
      before + (if n - 1 in S then [n - 1] else [])
  }

  /** sortDesc (interpreter.go:163-167). */
  function SortDesc(S: set<int>, n: nat): (r: seq<int>)
    ensures forall x :: x in r <==> x in S && 0 <= x < n
    ensures forall i, j :: 0 <= i < j < |r| ==> r[i] > r[j]
  {
    if n == 0 then []
    else
      var after := SortDesc(S, n - 1);
      assert forall i :: 0 <= i < |after| ==> after[i] in after;
      (if n - 1 in S then [n - 1] else []) + after
  }
}
