/**
 The target-set check as the validator runs it (definition_validate.go:815-935): sets filled and
 emptied by recursion, loops up the parent links, every pair compared.  Each method decides exactly
 what the predicate of the same purpose in Validator says.
 */
module TargetChecks {
  import opened Charts
  import opened Validator

  /** atoms and visiting of collectDefaultAtoms, shared by a whole expansion. */
  class AtomCollector {
    const c: Chart
    var atoms: set<int>
    var visiting: set<int>

    constructor (c: Chart)
      ensures this.c == c && atoms == {} && visiting == {}
    {
      this.c := c;
      atoms, visiting := {}, {};
    }

    /** collectDefaultAtoms (definition_validate.go:867-899); whatever it visits is unmarked again. */
    method Collect(x: int) returns (ok: bool)
      modifies this
      ensures visiting == old(visiting) && ok == DefaultAtoms(c, x, visiting).Some?
      ensures ok ==> atoms == old(atoms) + DefaultAtoms(c, x, visiting).value
      decreases |AllStates(c) - visiting|, 0
    {
      if !Has(c, x) || x in visiting { return false; }
      if IsAtomic(c, x) {
        atoms := atoms + {x};
        return true;
      }
      ghost var before := visiting;
      assert x in AllStates(c) - before;
      visiting := visiting + {x};
      SmallerSet(AllStates(c) - visiting, AllStates(c) - before);
      if IsParallel(c, x) {
        ok := CollectAll(RealChildren(c, x));
      } else if Initial(c, x) == [] {
        ok := false;
      } else {
        ok := CollectAll(Initial(c, x));
      }
      visiting := visiting - {x};
      assert visiting == before;
    }

    method CollectAll(xs: seq<int>) returns (ok: bool)
      modifies this
      ensures visiting == old(visiting) && ok == DefaultAtomsOf(c, xs, visiting).Some?
      ensures ok ==> atoms == old(atoms) + DefaultAtomsOf(c, xs, visiting).value
      decreases |AllStates(c) - visiting|, 1 + |xs|
    {
      for i := 0 to |xs|
        invariant visiting == old(visiting)
        invariant DefaultAtomsOf(c, xs[i..], visiting).Some? == DefaultAtomsOf(c, xs, visiting).Some?
        invariant DefaultAtomsOf(c, xs, visiting).Some? ==>
                    atoms + DefaultAtomsOf(c, xs[i..], visiting).value == old(atoms)
                      + DefaultAtomsOf(c, xs, visiting).value
      {
        assert xs[i..][1..] == xs[i + 1..];
        var next := Collect(xs[i]);
        if !next { return false; }
      }
      ok := true;
    }
  }

  /** leastCommonDefinitionAncestor (definition_validate.go:924-935); -1 when there is none. */
  method LeastCommonAncestor(c: Chart, left: int, right: int) returns (r: int)
    requires Tree(c) && Has(c, left)
    ensures r == Lca(c, left, right)
  {
    var ancestors: set<int> := {};
    var current := left;
    assert NodeOk(c, left);
    while Has(c, current)
      invariant current < 0 || In(c, left, current)
      invariant forall a :: a in ancestors <==> current < a && Has(c, a) && In(c, left, a)
      decreases current
    {
      ancestors := ancestors + {current};
      ghost var below := current;
      assert NodeOk(c, current);
      current := Parent(c, current);
      ParentIsNext(c, left, below);
    }
    current := right;
    while Has(c, current)
      invariant Lca(c, left, current) == Lca(c, left, right)
      decreases current
    {
      if current in ancestors { return current; }
      assert NodeOk(c, current);
      current := Parent(c, current);
    }
    r := -1;
  }

  /** Between an ancestor of x and its parent there is no other ancestor of x. */
  lemma ParentIsNext(c: Chart, x: int, a: int)
    requires Tree(c) && Has(c, a) && In(c, x, a)
    ensures Parent(c, a) < 0 || In(c, x, Parent(c, a))
    ensures forall b :: Parent(c, a) < b < a && Has(c, b) ==> !In(c, x, b)
  {
    assert NodeOk(c, a);
    if 0 <= Parent(c, a) { TransIn(c, x, a, Parent(c, a)); }
    forall b | Parent(c, a) < b < a && Has(c, b) ensures !In(c, x, b) {
      if In(c, x, b) { assert Desc(c, a, b); }
    }
  }

  method Exist(c: Chart, targets: seq<int>) returns (ok: bool)
    ensures ok <==> (forall i :: 0 <= i < |targets| ==> Has(c, targets[i])) && forall i, j :: 0 <= i < j < |targets| ==>
      targets[i] != targets[j]
  {
    var seen: set<int> := {};
    for i := 0 to |targets|
      invariant forall x :: x in seen <==> x in targets[..i]
      invariant forall j :: 0 <= j < i ==> Has(c, targets[j])
      invariant forall j, k :: 0 <= j < k < i ==> targets[j] != targets[k]
    {
      if targets[i] in seen || !Has(c, targets[i]) { return false; }
      seen := seen + {targets[i]};
    }
    ok := true;
  }

  method Incomparable(c: Chart, targets: seq<int>) returns (ok: bool)
    ensures ok <==> forall i, j :: 0 <= i < j < |targets| ==>
      !Desc(c, targets[i], targets[j]) && !Desc(c, targets[j], targets[i])
  {
    for i := 0 to |targets|
      invariant forall k, j :: 0 <= k < i && k < j < |targets| ==>
        !Desc(c, targets[k], targets[j]) && !Desc(c, targets[j], targets[k])
    {
      for j := i + 1 to |targets|
        invariant forall k :: i < k < j ==> !Desc(c, targets[i], targets[k]) && !Desc(c, targets[k], targets[i])
      {
        if Desc(c, targets[i], targets[j]) || Desc(c, targets[j], targets[i]) { return false; }
      }
    }
    ok := true;
  }

  lemma LcaSym(c: Chart, x: int, y: int)
    requires Tree(c) && Has(c, x) && Has(c, y)
    ensures Lca(c, x, y) == Lca(c, y, x)
  {
    LcaIsLowest(c, x, y);
    LcaIsLowest(c, y, x);
  }

  lemma {:induction false} AtomsExist(c: Chart, x: int, visiting: set<int>)
    ensures DefaultAtoms(c, x, visiting).Some? ==> forall a :: a in DefaultAtoms(c, x, visiting).value ==> Has(c, a)
    decreases |AllStates(c) - visiting|, 0
  {
    if x !in visiting && Has(c, x) && !IsAtomic(c, x) {
      assert x in AllStates(c) - visiting;
      SmallerSet(AllStates(c) - (visiting + {x}), AllStates(c) - visiting);
      AllAtomsExist(c, if IsParallel(c, x) then RealChildren(c, x) else Initial(c, x), visiting + {x});
    }
  }

  lemma {:induction false} AllAtomsExist(c: Chart, xs: seq<int>, visiting: set<int>)
    ensures DefaultAtomsOf(c, xs, visiting).Some? ==> forall a :: a in DefaultAtomsOf(c, xs, visiting).value ==>
      Has(c, a)
    decreases |AllStates(c) - visiting|, 1 + |xs|
  {
    if xs != [] {
      AtomsExist(c, xs[0], visiting);
      AllAtomsExist(c, xs[1..], visiting);
    }
  }

  /** Every pair of collected atoms, in whatever order the map gives them. */
  method Together(c: Chart, atoms: seq<int>) returns (ok: bool)
    requires Tree(c) && (forall i :: 0 <= i < |atoms| ==> Has(c, atoms[i])) && forall i, j :: 0 <= i < j < |atoms| ==>
      atoms[i] != atoms[j]
    ensures ok <==> forall i, j :: 0 <= i < j < |atoms| ==> IsParallel(c, Lca(c, atoms[i], atoms[j]))
  {
    for i := 0 to |atoms|
      invariant forall k, j :: 0 <= k < i && k < j < |atoms| ==> IsParallel(c, Lca(c, atoms[k], atoms[j]))
    {
      for j := i + 1 to |atoms|
        invariant forall k :: i < k < j ==> IsParallel(c, Lca(c, atoms[i], atoms[k]))
      {
        var lca := LeastCommonAncestor(c, atoms[i], atoms[j]);
        if !IsParallel(c, lca) { return false; }
      }
    }
    ok := true;
  }

  lemma PairsAreAll(c: Chart, xs: seq<int>, atoms: set<int>)
    requires Tree(c) && xs != [] && (forall x :: x in xs <==> x in atoms) && (forall x :: x in atoms ==> Has(c, x))
    requires forall i, j :: 0 <= i < j < |xs| ==> xs[i] != xs[j]
    ensures TogetherOk(c, atoms) <==> forall i, j :: 0 <= i < j < |xs| ==> IsParallel(c, Lca(c, xs[i], xs[j]))
  {
    assert xs[0] in xs;
    assert xs[0] in atoms;
    if forall i, j :: 0 <= i < j < |xs| ==> IsParallel(c, Lca(c, xs[i], xs[j])) {
      forall x, y {:trigger Lca(c, x, y)} | x in atoms && y in atoms && x != y ensures IsParallel(c, Lca(c, x, y)) {
        var i :| 0 <= i < |xs| && xs[i] == x;
        var j :| 0 <= j < |xs| && xs[j] == y;
        LcaSym(c, x, y);
      }
    }
    if TogetherOk(c, atoms) {
      forall i, j | 0 <= i < j < |xs| ensures IsParallel(c, Lca(c, xs[i], xs[j])) {
        assert xs[i] in atoms && xs[j] in atoms;
      }
    }
  }

  /** validateTargetSet (definition_validate.go:815-865), on targets already resolved to states. */
  method ValidateTargetSet(c: Chart, targets: seq<int>) returns (ok: bool)
    requires Tree(c)
    ensures ok <==> TargetSetOk(c, targets)
  {
    ok := Exist(c, targets);
    if !ok { return; }
    ok := Incomparable(c, targets);
    if !ok || targets == [] { return; }
    var collector := new AtomCollector(c);
    ok := collector.CollectAll(targets);
    if !ok { return; }
    AllAtomsExist(c, targets, {});
    var atoms := SortAsc(collector.atoms, |c.states|);
    if atoms == [] { return false; }
    PairsAreAll(c, atoms, collector.atoms);
    ok := Together(c, atoms);
  }
}
