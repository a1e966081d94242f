/**
 What acceptance of a target set means (definition_validate.go:815-935): for unrelated,
 history-free targets, the check passes exactly when some legal configuration contains them all; in a
 chart whose history targets stand alone, entering the set by default builds one.
 */
module TargetSets {
  import opened Charts
  import opened Validator
  import opened WellFormed
  import opened EntrySets
  import opened Regions
  import opened Configurations
  import opened Completions

  /** Distinct real states, none of them the root or an ancestor of another. */
  ghost predicate Unrelated(c: Chart, xs: seq<int>) {
    && xs != []
    && (forall i :: 0 <= i < |xs| ==> 0 < xs[i] && Real(c, xs[i]))
    && (forall i, j :: 0 <= i < j < |xs| ==> xs[i] != xs[j] && !Desc(c, xs[i], xs[j]) && !Desc(c, xs[j], xs[i]))
  }

  // ---- an expansion depends only on the visited states of its own zone ----

  lemma {:induction false} AtomsLocal(c: Chart, x: int, v: set<int>, w: set<int>)
    requires Structured(c) && Has(c, x)
    requires forall y :: Zone(c, x, y) ==> (y in v <==> y in w)
    ensures DefaultAtoms(c, x, v) == DefaultAtoms(c, x, w)
    decreases |AllStates(c) - v|, 0
  {
    assert NodeOk(c, x) && Local(c, x);
    assert Zone(c, x, x) by { if IsHistory(c, x) { assert Desc(c, x, Parent(c, x)); } }
    if !IsAtomic(c, x) && x !in v {
      assert x in AllStates(c) - v;
      SmallerSet(AllStates(c) - (v + {x}), AllStates(c) - v);
      ExpansionInside(c, x);
      AtomsLocalAll(c, Expansion(c, x), x, v + {x}, w + {x});
    }
  }

  lemma {:induction false} AtomsLocalAll(c: Chart, xs: seq<int>, x: int, v: set<int>, w: set<int>)
    requires Structured(c) && Has(c, x) && 0 <= Anchor(c, x)
    requires forall i :: 0 <= i < |xs| ==> Has(c, xs[i]) && Desc(c, xs[i], Anchor(c, x))
    requires forall y :: Zone(c, x, y) ==> (y in v <==> y in w)
    ensures DefaultAtomsOf(c, xs, v) == DefaultAtomsOf(c, xs, w)
    decreases |AllStates(c) - v|, 1 + |xs|
  {
    if xs != [] {
      AnchorUp(c, xs[0], Anchor(c, x));
      forall y | Zone(c, xs[0], y)
        ensures y in v <==> y in w
      {
        ZoneBelow(c, xs[0], y, Anchor(c, x));
        assert Zone(c, x, y);
      }
      AtomsLocal(c, xs[0], v, w);
      AtomsLocalAll(c, xs[1..], x, v, w);
    }
  }

  /** Whatever is already being expanded above, the expansion of x's list gives the same atoms. */
  lemma ExpandFresh(c: Chart, x: int, xs: seq<int>)
    requires Structured(c) && Real(c, x)
    requires forall i :: 0 <= i < |xs| ==> Has(c, xs[i]) && Desc(c, xs[i], x)
    ensures DefaultAtomsOf(c, xs, {x}) == DefaultAtomsOf(c, xs, {})
  {
    if xs != [] {
      AnchorUp(c, xs[0], x);
      forall y | Zone(c, xs[0], y)
        ensures y in {x} <==> y in {}
      {
        ZoneBelow(c, xs[0], y, x);
      }
      AtomsLocal(c, xs[0], {x}, {});
      ExpandFresh(c, x, xs[1..]);
    }
  }

  // ---- every state of an accepted chart expands, to atoms that go together ----

  ghost predicate AtomsTogether(c: Chart, atoms: set<int>) {
    forall x, y {:trigger Compat(c, x, y)} :: x in atoms && y in atoms && x != y ==>
      IsAtomic(c, x) && IsAtomic(c, y) && Compat(c, x, y)
  }

  lemma TogetherUnion(c: Chart, A: set<int>, B: set<int>)
    requires AtomsTogether(c, A) && AtomsTogether(c, B)
    requires forall a, d {:trigger a in A, d in B} :: a in A && d in B ==>
      IsAtomic(c, a) && IsAtomic(c, d) && Compat(c, a, d) && Compat(c, d, a)
    ensures AtomsTogether(c, A + B)
  {
    hide Compat, IsAtomic;
    forall x, y {:trigger Compat(c, x, y)} | x in A + B && y in A + B && x != y
      ensures IsAtomic(c, x) && IsAtomic(c, y) && Compat(c, x, y)
    {
      if x in A && y in A { assert Compat(c, x, y); }
      else if x in B && y in B { assert Compat(c, x, y); }
      else if x in A { assert x in A && y in B; }
      else { assert y in A && x in B; }
    }
  }

  /** A list of states that expand on their own and are pairwise apart expands together. */
  lemma {:induction false} ExpandAll(c: Chart, xs: seq<int>)
    requires Structured(c)
    requires forall i :: 0 <= i < |xs| ==>
      Real(c, xs[i]) && DefaultAtoms(c, xs[i], {}).Some?
      && AtomsTogether(c, DefaultAtoms(c, xs[i], {}).value)
    requires forall i, j :: 0 <= i < j < |xs| ==> Apart(c, xs[i], xs[j])
    ensures DefaultAtomsOf(c, xs, {}).Some? && AtomsTogether(c, DefaultAtomsOf(c, xs, {}).value)
  {
    if xs != [] {
      var x, rest := xs[0], xs[1..];
      ExpandAll(c, rest);
      var A, B := DefaultAtoms(c, x, {}).value, DefaultAtomsOf(c, rest, {}).value;
      AtomsInside(c, x, {});
      forall a, d | a in A && d in B
        ensures IsAtomic(c, a) && IsAtomic(c, d) && Compat(c, a, d) && Compat(c, d, a)
      {
        var i := AtomFrom(c, rest, {}, d);
        assert Apart(c, xs[0], xs[i + 1]);
        AtomsInside(c, rest[i], {});
        assert !In(c, rest[i], x) && !In(c, x, rest[i]);
        DisjointBelow(c, x, rest[i], a);
        CompatDown(c, x, a, rest[i]);
        CompatSym(c, a, rest[i]);
        CompatDown(c, rest[i], d, a);
        CompatSym(c, d, a);
      }
      TogetherUnion(c, A, B);
      assert DefaultAtomsOf(c, xs, {}) == Some(A + B);
    }
  }

  lemma {:induction false} AtomFrom(c: Chart, xs: seq<int>, visiting: set<int>, a: int) returns (i: nat)
    requires DefaultAtomsOf(c, xs, visiting).Some? && a in DefaultAtomsOf(c, xs, visiting).value
    ensures i < |xs| && DefaultAtoms(c, xs[i], visiting).Some? && a in DefaultAtoms(c, xs[i], visiting).value
    decreases |xs|
  {
    if a in DefaultAtoms(c, xs[0], visiting).value {
      i := 0;
    } else {
      i := AtomFrom(c, xs[1..], visiting, a);
      i := i + 1;
    }
  }

  lemma {:induction false} Expands(c: Chart, x: int)
    requires Accepted(c) && Real(c, x)
    ensures DefaultAtoms(c, x, {}).Some? && AtomsTogether(c, DefaultAtoms(c, x, {}).value)
    decreases End(c, x) - x
  {
    assert Local(c, x) && ListsOk(c, x) && NodeOk(c, x);
    if !IsAtomic(c, x) {
      ExpansionInside(c, x);
      ExpandFresh(c, x, Expansion(c, x));
      assert {} + {x} == {x};
      if IsParallel(c, x) {
        var ks := RealChildren(c, x);
        Regions.ChildrenDistinct(c, Children(c, x));
        forall i | 0 <= i < |ks|
          ensures Real(c, ks[i]) && Parent(c, ks[i]) == x && DefaultAtoms(c, ks[i], {}).Some?
            && AtomsTogether(c, DefaultAtoms(c, ks[i], {}).value)
        {
          RealsAre(c, Children(c, x), ks[i]);
          assert Desc(c, ks[i], x);
          Expands(c, ks[i]);
        }
        forall i, j | 0 <= i < j < |ks|
          ensures Apart(c, ks[i], ks[j])
        {
          assert !Desc(c, ks[i], ks[j]) && !Desc(c, ks[j], ks[i]);
          CompatNested(c, x, ks[j]);
          CompatParallelChild(c, x, ks[i], ks[j]);
        }
        ExpandAll(c, ks);
      } else {
        var atoms := DefaultAtoms(c, x, {}).value;
        AtomsInside(c, x, {});
        forall a, d {:trigger Compat(c, a, d)} | a in atoms && d in atoms && a != d
          ensures IsAtomic(c, a) && IsAtomic(c, d) && Compat(c, a, d)
        {
          assert IsParallel(c, Lca(c, a, d));
          ParallelLcaIsCompat(c, a, d);
        }
      }
    }
  }

  // ---- the two directions ----

  /** Targets that are active together in some legal configuration are accepted. */
  lemma ActiveTogetherIsAccepted(c: Chart, xs: seq<int>, C: set<int>)
    requires Accepted(c) && Unrelated(c, xs) && Legal(c, C)
    requires forall i :: 0 <= i < |xs| ==> xs[i] in C
    ensures TargetSetOk(c, xs)
  {
    forall i | 0 <= i < |xs|
      ensures DefaultAtoms(c, xs[i], {}).Some? && AtomsTogether(c, DefaultAtoms(c, xs[i], {}).value)
    {
      Expands(c, xs[i]);
    }
    forall i, j | 0 <= i < j < |xs|
      ensures Apart(c, xs[i], xs[j])
    {
      LegalCompat(c, C, xs[i], xs[j]);
    }
    ExpandAll(c, xs);
    var atoms := DefaultAtomsOf(c, xs, {}).value;
    var a := SomeAtom(c, xs[0], {});
    AtomsOfMember(c, xs, {}, 0);
    forall x, y {:trigger Lca(c, x, y)} | x in atoms && y in atoms && x != y
      ensures IsParallel(c, Lca(c, x, y))
    {
      assert Compat(c, x, y);
      ParallelLcaIsCompat(c, x, y);
    }
  }

  /** Default entry of a target set from an empty configuration: what start does for the root's
      initial targets (interpreter.go:1513-1526). */
  function DefaultEntry(c: Chart, xs: seq<int>): Entry
    requires Founded(c)
    requires forall i :: 0 <= i < |xs| ==> Has(c, xs[i]) && Desc(c, xs[i], 0)
  {
    BelowExpandable(c, xs, 0);
    AddAncestorsOf(c, map[], xs, 0, AddDescendantsOf(c, map[], xs, 0, true, 0, NoEntry))
  }

  /** What start enters: a compound root's initial targets, a parallel root's regions, or the root. */
  function StartEntry(c: Chart): Entry
    requires Founded(c)
  {
    assert NodeOk(c, 0) && StateFounded(c, 0);
    if IsCompound(c, 0) then DefaultEntry(c, Initial(c, 0))
    else if IsParallel(c, 0) then
      ChildrenExpandable(c, 0);
      AddDescendantsOf(c, map[], RealChildren(c, 0), 0, true, 0, NoEntry)
    else AddState(NoEntry, 0)
  }

  /** Entering an accepted target set by default builds a legal configuration with all its states. */
  lemma AcceptedEntersLegally(c: Chart, xs: seq<int>)
    requires Accepted(c) && CarefulLists(c) && Unrelated(c, xs) && TargetSetOk(c, xs)
    ensures EntryShape(c) && forall i :: 0 <= i < |xs| ==> Has(c, xs[i]) && Desc(c, xs[i], 0)
    ensures Legal(c, DefaultEntry(c, xs).states)
    ensures forall i {:trigger xs[i]} :: 0 <= i < |xs| ==> xs[i] in DefaultEntry(c, xs).states
  {
    AcceptedEntersWell(c);
    assert NodeOk(c, 0);
    TargetsFromSet(c, xs, 0);
    BelowExpandable(c, xs, 0);
    PlantList(c, map[], xs, 0, true, 0, NoEntry);
    var E := DefaultEntry(c, xs).states;
    assert E - {} == E;
    RegionIsLegal(c, E);
    forall i {:trigger xs[i]} | 0 <= i < |xs|
      ensures xs[i] in E
    {
      assert Effective(c, map[], xs[i], xs[i]);
    }
  }

  /** The states of an accepted target set go together pairwise. */
  lemma AcceptedGoTogether(c: Chart, xs: seq<int>, i: nat, j: nat)
    requires Structured(c) && Unrelated(c, xs) && TargetSetOk(c, xs) && i < |xs| && j < |xs|
    ensures Compat(c, xs[i], xs[j])
  {
    var x, y := xs[i], xs[j];
    if i == j {
      assert NodeOk(c, x);
      CompatNested(c, x, x);
    } else {
      AtomsOfMember(c, xs, {}, i);
      AtomsOfMember(c, xs, {}, j);
      var a := SomeAtom(c, x, {});
      var b := SomeAtom(c, y, {});
      AtomsInside(c, x, {});
      AtomsInside(c, y, {});
      assert !In(c, x, y) && !In(c, y, x) by { assert x != y && !Desc(c, x, y) && !Desc(c, y, x); }
      assert a != b by { if a == b { Nested(c, a, x, y); } }
      assert IsParallel(c, Lca(c, a, b));
      ParallelLcaIsCompat(c, a, b);
      CompatUp(c, x, a, b);
      CompatSym(c, x, b);
      CompatUp(c, y, b, x);
      CompatSym(c, y, x);
    }
  }

  /** Soundness and completeness of the target-set check, in every accepted chart with a compound root. */
  lemma TargetSetMeaning(c: Chart, xs: seq<int>)
    requires Accepted(c) && IsCompound(c, 0) && Unrelated(c, xs)
    ensures TargetSetOk(c, xs) <==> exists C :: Legal(c, C) && forall i :: 0 <= i < |xs| ==> xs[i] in C
  {
    if TargetSetOk(c, xs) {
      var S := set i | 0 <= i < |xs| :: xs[i];
      forall x, y {:trigger Compat(c, x, y)} | x in S && y in S ensures Compat(c, x, y) {
        var i :| 0 <= i < |xs| && xs[i] == x;
        var j :| 0 <= j < |xs| && xs[j] == y;
        AcceptedGoTogether(c, xs, i, j);
      }
      TogetherIsLegal(c, S);
      var C :| Legal(c, C) && S <= C;
      assert forall i :: 0 <= i < |xs| ==> xs[i] in S;
    }
    forall C | Legal(c, C) && forall i :: 0 <= i < |xs| ==> xs[i] in C
      ensures TargetSetOk(c, xs)
    {
      ActiveTogetherIsAccepted(c, xs, C);
    }
  }
}
