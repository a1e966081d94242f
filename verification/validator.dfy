/**
 The structural validator (definition_validate.go:256-935): which charts Compile accepts, and what
 acceptance means for the state tree.
 */
module Validator {
  import opened Charts

  // ---- default atoms (definition_validate.go:867-899) ----

  ghost function AllStates(c: Chart): set<int> { set x {:trigger Has(c, x)} | 0 <= x < |c.states| && Has(c, x) }

  /** collectDefaultAtoms: the atomic states the default entry of x reaches, or None when the
      expansion meets a state it is already expanding, or finds no default target. */
  function DefaultAtoms(c: Chart, x: int, visiting: set<int>): Option<set<int>>
    decreases |AllStates(c) - visiting|, 0
  {
    if x in visiting || !Has(c, x) then None
    else if IsAtomic(c, x) then Some({x})
    else
      assert AllStates(c) - (visiting + {x}) < AllStates(c) - visiting by {
        assert x in AllStates(c) - visiting;
      }
      SmallerSet(AllStates(c) - (visiting + {x}), AllStates(c) - visiting);
      if IsParallel(c, x) then DefaultAtomsOf(c, RealChildren(c, x), visiting + {x})
      else if Initial(c, x) == [] then None
      else DefaultAtomsOf(c, Initial(c, x), visiting + {x})
  }

  function DefaultAtomsOf(c: Chart, xs: seq<int>, visiting: set<int>): Option<set<int>>
    decreases |AllStates(c) - visiting|, 1 + |xs|
  {
    if xs == [] then Some({})
    else
      match (DefaultAtoms(c, xs[0], visiting), DefaultAtomsOf(c, xs[1..], visiting))
      case (Some(a), Some(b)) => Some(a + b)
      case _ => None
  }

  lemma SmallerSet(a: set<int>, b: set<int>)
    requires a < b
    ensures |a| < |b|
  {
    var d := b - a;
    assert b == a + d && a !! d && d != {};
  }

  // ---- least common ancestors (definition_validate.go:924-935) ----

  /** leastCommonDefinitionAncestor: the first state on y's way to the root that is x or holds x below it. */
  function Lca(c: Chart, x: int, y: int): int
    requires Tree(c)
    decreases y
  {
    if !Has(c, y) then -1
    else if In(c, x, y) then y
    else
      assert NodeOk(c, y);
      Lca(c, x, Parent(c, y))
  }

  /** The least common ancestor is the lowest: it holds both, and nothing lower does. */
  lemma {:induction false} LcaIsLowest(c: Chart, x: int, y: int)
    requires Tree(c) && Has(c, x) && Has(c, y)
    ensures var l := Lca(c, x, y); Has(c, l) && In(c, x, l) && In(c, y, l)
    ensures forall k :: 0 <= k && In(c, x, k) && In(c, y, k) ==> In(c, Lca(c, x, y), k)
    decreases y
  {
    if In(c, x, y) {
    } else {
      assert NodeOk(c, 0);
      assert Desc(c, y, Parent(c, y));
      LcaIsLowest(c, x, Parent(c, y));
      var l := Lca(c, x, y);
      TransIn(c, y, Parent(c, y), l);
      forall k | 0 <= k && In(c, x, k) && In(c, y, k)
        ensures In(c, l, k)
      {
        assert k != y;
        assert Desc(c, y, k);
        assert In(c, Parent(c, y), k);
      }
    }
  }

  /** Two atomic states can be active together exactly when their least common ancestor is parallel. */
  lemma ParallelLcaIsCompat(c: Chart, x: int, y: int)
    requires Structured(c) && IsAtomic(c, x) && IsAtomic(c, y) && x != y
    ensures IsParallel(c, Lca(c, x, y)) <==> Compat(c, x, y)
  {
    var l := Lca(c, x, y);
    LcaIsLowest(c, x, y);
    assert Local(c, x) && Local(c, y);
    assert l != x by { if l == x { LeafHasNoDescendant(c, x, y); } }
    assert l != y by { if l == y { LeafHasNoDescendant(c, y, x); } }
    var k, m := ChildToward(c, l, x), ChildToward(c, l, y);
    assert In(c, x, k) && In(c, y, m);
    assert k != m;
    if IsParallel(c, l) {
      forall i, j | 0 < i && 0 < j && i != j && In(c, x, i) && In(c, y, j)
        ensures !(Parent(c, i) == Parent(c, j) && IsCompound(c, Parent(c, i)))
      {
        var p := Parent(c, i);
        assert Desc(c, i, p) && Desc(c, j, Parent(c, j));
        if p == Parent(c, j) {
          TransIn(c, x, i, p);
          TransIn(c, y, j, p);
          assert In(c, l, p);
          if p != l {
            var q := ChildToward(c, p, l);
            TransIn(c, x, l, q);
            TransIn(c, y, l, q);
            SameSibling(c, i, q, x);
            SameSibling(c, j, q, y);
          }
        }
      }
    } else {
      assert Local(c, l);
      assert k in Children(c, l) by { assert NodeOk(c, l); }
      assert IsCompound(c, l);
    }
  }

  // ---- validateState: what each kind of state must look like (definition_validate.go:256-397) ----

  ghost predicate Local(c: Chart, x: int) {
    match KindOf(c, x)
    case Atomic => Children(c, x) == [] && Initial(c, x) == []
    case Final => Children(c, x) == [] && Initial(c, x) == [] && Transitions(c, x) == []
    case Compound =>
      && RealChildren(c, x) != [] && Initial(c, x) != []
      && (forall i :: 0 <= i < |Initial(c, x)| ==> Desc(c, Initial(c, x)[i], x))
    case Parallel =>
      && Initial(c, x) == [] && RealChildren(c, x) != []
      && (forall k :: k in RealChildren(c, x) ==> KindOf(c, k) != Final)
    case History =>
      && 0 < x && Children(c, x) == [] && Transitions(c, x) == [] && Initial(c, x) != []
      && (forall i :: 0 <= i < |Initial(c, x)| ==> Desc(c, Initial(c, x)[i], Parent(c, x)))
      && (!IsDeep(c, x) ==> forall i :: 0 <= i < |Initial(c, x)| ==> Parent(c, Initial(c, x)[i]) == Parent(c, x))
  }

  /** The tree and the per-state rules, without the target sets. */
  ghost predicate Structured(c: Chart) {
    && Tree(c)
    && (forall x {:trigger Local(c, x)} :: Has(c, x) ==> Local(c, x))
  }

  lemma StructuredBranches(c: Chart)
    requires Structured(c)
    ensures Branching(c)
  {
    forall x {:trigger Children(c, x)}
      ensures (IsAtomic(c, x) ==> Children(c, x) == []) && (IsParallel(c, x) ==> RealChildren(c, x) != [])
    {
      assert Has(c, x) ==> Local(c, x);
    }
  }

  lemma LeafHasNoDescendant(c: Chart, x: int, y: int)
    requires Structured(c) && Has(c, x) && Children(c, x) == []
    ensures !Desc(c, y, x)
  {
    if Desc(c, y, x) { HasChildren(c, x, y); }
  }

  /** Only a real state has descendants. */
  lemma ParentIsReal(c: Chart, x: int, a: int)
    requires Structured(c) && 0 <= a && Desc(c, x, a)
    ensures IsCompound(c, a) || IsParallel(c, a)
  {
    assert Local(c, a);
    if Children(c, a) == [] { LeafHasNoDescendant(c, a, x); }
  }

  // ---- validateTargetSet (definition_validate.go:815-865) ----

  ghost predicate TogetherOk(c: Chart, atoms: set<int>)
    requires Tree(c)
  {
    atoms != {} && forall x, y {:trigger Lca(c, x, y)} :: x in atoms && y in atoms && x != y ==>
      IsParallel(c, Lca(c, x, y))
  }

  /** The target list is acceptable: existing, distinct, unrelated states whose default atoms go together. */
  ghost predicate TargetSetOk(c: Chart, targets: seq<int>)
    requires Tree(c)
  {
    && (forall i :: 0 <= i < |targets| ==> Has(c, targets[i]))
    && (forall i, j :: 0 <= i < j < |targets| ==>
          targets[i] != targets[j] && !Desc(c, targets[i], targets[j]) && !Desc(c, targets[j], targets[i]))
    && (targets != [] ==>
          var atoms := DefaultAtomsOf(c, targets, {});
          atoms.Some? && TogetherOk(c, atoms.value))
  }

  ghost predicate ListsOk(c: Chart, x: int)
    requires Tree(c)
  {
    Has(c, x) ==>
      && TargetSetOk(c, Initial(c, x))
      && forall i :: 0 <= i < |Transitions(c, x)| ==>
           && Transitions(c, x)[i].source == x && Transitions(c, x)[i].index == i
           && TargetSetOk(c, Transitions(c, x)[i].target)
  }

  /** Two different declarations of invocations: the i-th of s and the j-th of t. */
  ghost predicate TwoDeclarations(c: Chart, s: int, i: int, t: int, j: int) {
    0 <= i < |Invokes(c, s)| && 0 <= j < |Invokes(c, t)| && (s != t || i != j)
  }

  /** validateInvoke (definition_validate.go:428-447): explicit IDs and declaration IDs are declared once. */
  ghost predicate InvokesDeclaredOnce(c: Chart) {
    forall s, i, t, j {:trigger TwoDeclarations(c, s, i, t, j)} :: TwoDeclarations(c, s, i, t, j) ==>
      && Invokes(c, s)[i].definitionId != Invokes(c, t)[j].definitionId
      && (Invokes(c, s)[i].id != "" ==> Invokes(c, s)[i].id != Invokes(c, t)[j].id)
  }

  /** Compile accepts the chart. */
  ghost predicate Accepted(c: Chart) {
    Structured(c) && InvokesDeclaredOnce(c) && forall x {:trigger ListsOk(c, x)} :: ListsOk(c, x)
  }

  // ---- what an expansion reaches ----

  /** The state whose subtree a target stands for: itself, or a history's parent. */
  function Anchor(c: Chart, x: int): int { if IsHistory(c, x) then Parent(c, x) else x }

  lemma AnchorUp(c: Chart, x: int, b: int)
    requires Tree(c) && Has(c, x) && 0 <= b && Desc(c, x, b)
    ensures In(c, Anchor(c, x), b) && 0 <= Anchor(c, x)
    ensures IsHistory(c, x) || Desc(c, Anchor(c, x), b)
    ensures In(c, x, Anchor(c, x))
  {
    assert Desc(c, x, Parent(c, x));
    if Parent(c, x) != b { assert In(c, Parent(c, x), b); }
  }

  /** The states the expansion of a non-atomic state continues with. */
  function Expansion(c: Chart, x: int): seq<int> {
    if IsParallel(c, x) then RealChildren(c, x) else Initial(c, x)
  }

  lemma ExpansionInside(c: Chart, x: int)
    requires Structured(c) && Has(c, x) && !IsAtomic(c, x)
    ensures Expansion(c, x) != []
    ensures forall i :: 0 <= i < |Expansion(c, x)| ==>
      Has(c, Expansion(c, x)[i]) && Desc(c, Expansion(c, x)[i], Anchor(c, x))
  {
    assert Local(c, x) && NodeOk(c, x);
    forall i | 0 <= i < |Expansion(c, x)|
      ensures Has(c, Expansion(c, x)[i]) && Desc(c, Expansion(c, x)[i], Anchor(c, x))
    {
      var t := Expansion(c, x)[i];
      if IsParallel(c, x) {
        RealsAre(c, Children(c, x), t);
        assert NodeOk(c, t);
        assert Desc(c, t, Parent(c, t));
      } else {
        assert Desc(c, t, Anchor(c, x));
      }
    }
  }

  lemma {:induction false} AtomsInside(c: Chart, x: int, visiting: set<int>)
    requires Structured(c) && Has(c, x) && DefaultAtoms(c, x, visiting).Some?
    ensures forall a :: a in DefaultAtoms(c, x, visiting).value ==> IsAtomic(c, a) && In(c, a, Anchor(c, x))
    decreases |AllStates(c) - visiting|, 0
  {
    if IsAtomic(c, x) {
      assert NodeOk(c, x);
    } else {
      assert x in AllStates(c) - visiting;
      SmallerSet(AllStates(c) - (visiting + {x}), AllStates(c) - visiting);
      ExpansionInside(c, x);
      assert 0 <= Anchor(c, x) by { assert NodeOk(c, x); assert Local(c, x); }
      AtomsInsideAll(c, Expansion(c, x), visiting + {x}, Anchor(c, x));
    }
  }

  lemma {:induction false} AtomsInsideAll(c: Chart, xs: seq<int>, visiting: set<int>, b: int)
    requires Structured(c) && DefaultAtomsOf(c, xs, visiting).Some? && 0 <= b
    requires forall i :: 0 <= i < |xs| ==> Has(c, xs[i]) && Desc(c, xs[i], b)
    ensures forall a :: a in DefaultAtomsOf(c, xs, visiting).value ==> IsAtomic(c, a) && In(c, a, b)
    decreases |AllStates(c) - visiting|, 1 + |xs|
  {
    if xs != [] {
      AtomsInside(c, xs[0], visiting);
      AtomsInsideAll(c, xs[1..], visiting, b);
      AnchorUp(c, xs[0], b);
      forall a | a in DefaultAtoms(c, xs[0], visiting).value
        ensures In(c, a, b)
      {
        TransIn(c, a, Anchor(c, xs[0]), b);
      }
    }
  }

  /** Every target's own expansion is part of the list's. */
  lemma {:induction false} AtomsOfMember(c: Chart, xs: seq<int>, visiting: set<int>, i: nat)
    requires i < |xs| && DefaultAtomsOf(c, xs, visiting).Some?
    ensures DefaultAtoms(c, xs[i], visiting).Some?
    ensures DefaultAtoms(c, xs[i], visiting).value <= DefaultAtomsOf(c, xs, visiting).value
    decreases |xs|
  {
    if i > 0 { AtomsOfMember(c, xs[1..], visiting, i - 1); }
  }

  lemma {:induction false} SomeAtom(c: Chart, x: int, visiting: set<int>) returns (a: int)
    requires Structured(c) && Has(c, x) && DefaultAtoms(c, x, visiting).Some?
    ensures a in DefaultAtoms(c, x, visiting).value
    decreases |AllStates(c) - visiting|
  {
    if IsAtomic(c, x) {
      a := x;
    } else {
      assert x in AllStates(c) - visiting;
      SmallerSet(AllStates(c) - (visiting + {x}), AllStates(c) - visiting);
      ExpansionInside(c, x);
      AtomsOfMember(c, Expansion(c, x), visiting + {x}, 0);
      a := SomeAtom(c, Expansion(c, x)[0], visiting + {x});
    }
  }
}
