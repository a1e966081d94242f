/**
 The charts the interpreter theorems are about.

 The validator's acceptance is not quite enough for legal configurations: it expands histories by
 their default targets, while the interpreter expands them by what was recorded.  `Careful` adds the
 three conditions that close the gap; AcceptedIsWellFormed turns acceptance plus those conditions
 into the shape every later proof uses.
 */
module WellFormed {
  import opened Charts
  import opened Validator

  /** Neither subtree holds the other, and the two can be active together. */
  ghost predicate Apart(c: Chart, x: int, y: int) {
    !In(c, x, y) && !In(c, y, x) && Compat(c, x, y)
  }

  /** A target list below b whose subtrees are pairwise apart. */
  ghost predicate Targets(c: Chart, xs: seq<int>, b: int) {
    && xs != []
    && (forall i :: 0 <= i < |xs| ==> Has(c, xs[i]) && Desc(c, xs[i], b))
    && (forall i, j :: 0 <= i < |xs| && 0 <= j < |xs| && i != j ==> Apart(c, Anchor(c, xs[i]), Anchor(c, xs[j])))
  }

  ghost predicate TransitionShape(c: Chart, x: int, t: Transition) {
    && t.source == x
    && (t.target != [] ==> Targets(c, t.target, 0))
    && (forall i :: 0 <= i < |t.target| && IsHistory(c, t.target[i]) ==> !Desc(c, x, Parent(c, t.target[i])))
  }

  /** What the entry recursion needs of a state in order to stop: targets below, and histories whose
      default targets expand without meeting themselves. */
  ghost predicate StateFounded(c: Chart, x: int) {
    && (IsCompound(c, x) ==> AllUnder(c, Initial(c, x), x))
    && (IsHistory(c, x) ==>
      0 < x && AllUnder(c, Initial(c, x), Parent(c, x))
      && DefaultAtomsOf(c, Initial(c, x), {}).Some?)
    && forall i :: 0 <= i < |Transitions(c, x)| ==> TargetsFounded(c, Transitions(c, x)[i])
  }

  ghost predicate AllUnder(c: Chart, xs: seq<int>, b: int) {
    forall i :: 0 <= i < |xs| ==> Has(c, xs[i]) && Desc(c, xs[i], b)
  }

  /** The root stands alone in a target list: it is an ancestor of everything else. */
  ghost predicate TargetsFounded(c: Chart, t: Transition) { t.target == [0] || AllUnder(c, t.target, 0) }

  /** The charts on which every entry set can be computed; every accepted chart is one. */
  ghost predicate Founded(c: Chart) {
    Tree(c) && forall x {:trigger StateFounded(c, x)} :: Has(c, x) ==> StateFounded(c, x)
  }

  lemma FoundedTree(c: Chart)
    requires Founded(c)
    ensures Tree(c)
  {}

  ghost predicate NodeShape(c: Chart, x: int) {
    match KindOf(c, x)
    case Atomic => Children(c, x) == []
    case Final => Children(c, x) == []
    case Compound => Targets(c, Initial(c, x), x)
    case Parallel => RealChildren(c, x) != []
    case History => 0 < x && Children(c, x) == [] && Real(c, Parent(c, x)) && Targets(c, Initial(c, x), Parent(c, x))
  }

  /** What entering states asks of a chart; transitions play no part. */
  ghost predicate EntryShape(c: Chart) {
    && Founded(c) && IsCompound(c, 0)
    && (forall x {:trigger NodeShape(c, x)} :: Has(c, x) ==> NodeShape(c, x))
  }

  ghost predicate StateShape(c: Chart, x: int) {
    && NodeShape(c, x)
    && forall i :: 0 <= i < |Transitions(c, x)| ==>
      Transitions(c, x)[i].index == i && TransitionShape(c, x, Transitions(c, x)[i])
  }

  ghost predicate Shape(c: Chart) {
    && EntryShape(c)
    && (forall x {:trigger StateShape(c, x)} :: Has(c, x) ==> StateShape(c, x))
  }

  lemma ShapeBranches(c: Chart)
    requires EntryShape(c)
    ensures Branching(c)
  {
    forall x {:trigger Children(c, x)}
      ensures (IsAtomic(c, x) ==> Children(c, x) == []) && (IsParallel(c, x) ==> RealChildren(c, x) != [])
    {
      assert Has(c, x) ==> NodeShape(c, x);
    }
  }

  // ---- the three conditions beyond the validator ----

  /** No other target of the list lies in the subtree of a history target's parent. */
  ghost predicate HistoryAlone(c: Chart, xs: seq<int>) {
    forall i, j :: 0 <= i < |xs| && 0 <= j < |xs| && i != j && IsHistory(c, xs[i]) ==> !In(c, xs[j], Parent(c, xs[i]))
  }

  ghost predicate CarefulState(c: Chart, x: int) {
    && HistoryAlone(c, Initial(c, x))
    && forall i :: 0 <= i < |Transitions(c, x)| ==>
         var target := Transitions(c, x)[i].target;
         && 0 !in target
         && HistoryAlone(c, target)
         && forall j :: 0 <= j < |target| && IsHistory(c, target[j]) ==> !Desc(c, x, Parent(c, target[j]))
  }

  ghost predicate Careful(c: Chart) {
    IsCompound(c, 0) && forall x {:trigger CarefulState(c, x)} :: Has(c, x) ==> CarefulState(c, x)
  }

  /** The part of it that is about initial and default targets. */
  ghost predicate CarefulLists(c: Chart) {
    IsCompound(c, 0) && forall x {:trigger Initial(c, x)} :: Has(c, x) ==> HistoryAlone(c, Initial(c, x))
  }

  lemma TargetsFromSet(c: Chart, xs: seq<int>, b: int)
    requires Structured(c) && TargetSetOk(c, xs) && HistoryAlone(c, xs) && xs != [] && 0 <= b
    requires forall i :: 0 <= i < |xs| ==> Desc(c, xs[i], b)
    ensures Targets(c, xs, b)
  {
    forall i, j | 0 <= i < |xs| && 0 <= j < |xs| && i != j
      ensures Apart(c, Anchor(c, xs[i]), Anchor(c, xs[j]))
    {
      AnchorsOutside(c, xs, i, j);
      AnchorsOutside(c, xs, j, i);
      AtomsOfMember(c, xs, {}, i);
      AtomsOfMember(c, xs, {}, j);
      AtomsInside(c, xs[i], {});
      AtomsInside(c, xs[j], {});
      var a := SomeAtom(c, xs[i], {});
      var d := SomeAtom(c, xs[j], {});
      AnchorUp(c, xs[i], b);
      AnchorUp(c, xs[j], b);
      assert a != d by { if a == d { Nested(c, a, Anchor(c, xs[i]), Anchor(c, xs[j])); } }
      assert IsParallel(c, Lca(c, a, d));
      ParallelLcaIsCompat(c, a, d);
      CompatUp(c, Anchor(c, xs[i]), a, d);
      CompatSym(c, Anchor(c, xs[i]), d);
      CompatUp(c, Anchor(c, xs[j]), d, Anchor(c, xs[i]));
      CompatSym(c, Anchor(c, xs[j]), Anchor(c, xs[i]));
    }
  }

  lemma AnchorsOutside(c: Chart, xs: seq<int>, i: nat, j: nat)
    requires Structured(c) && TargetSetOk(c, xs) && HistoryAlone(c, xs) && i < |xs| && j < |xs| && i != j
    requires 0 < xs[i] && 0 < xs[j]
    ensures !In(c, Anchor(c, xs[i]), Anchor(c, xs[j]))
  {
    var x, y := xs[i], xs[j];
    assert x != y && !Desc(c, x, y) && !Desc(c, y, x) by {
      if i < j { assert xs[i] != xs[j]; } else { assert xs[j] != xs[i]; }
    }
    assert Desc(c, x, Parent(c, x)) && Desc(c, y, Parent(c, y));
    if In(c, Anchor(c, x), Anchor(c, y)) {
      TransIn(c, x, Anchor(c, x), Anchor(c, y));
    }
  }

  lemma AcceptedTargets(c: Chart, t: Transition)
    requires Structured(c) && TargetSetOk(c, t.target)
    ensures TargetsFounded(c, t)
  {
    var xs := t.target;
    assert NodeOk(c, 0);
    if i :| 0 <= i < |xs| && xs[i] == 0 { RootAlone(c, xs, i); }
  }

  lemma TargetsUnrelated(c: Chart, xs: seq<int>, i: int, j: int)
    requires Tree(c) && TargetSetOk(c, xs)
    ensures 0 <= i < |xs| && 0 <= j < |xs| && i != j ==>
      Has(c, xs[i]) && Has(c, xs[j]) && xs[i] != xs[j] && !Desc(c, xs[i], xs[j])
  {
    if 0 <= i < |xs| && 0 <= j < |xs| {
      if i < j { assert xs[i] != xs[j] && !Desc(c, xs[i], xs[j]); }
      if j < i { assert xs[j] != xs[i] && !Desc(c, xs[i], xs[j]); }
    }
  }

  /** The root is an ancestor of every other target, so an accepted set that has it has nothing else. */
  lemma RootAlone(c: Chart, xs: seq<int>, i: nat)
    requires Structured(c) && TargetSetOk(c, xs) && i < |xs| && xs[i] == 0
    ensures xs == [0]
  {
    assert NodeOk(c, 0);
    TargetsUnrelated(c, xs, if i == 0 then 1 else 0, i);
  }

  /** Every accepted chart is founded. */
  lemma AcceptedIsFounded(c: Chart)
    requires Accepted(c)
    ensures Founded(c)
  {
    forall x | Has(c, x) ensures StateFounded(c, x) {
      assert Local(c, x) && ListsOk(c, x) && NodeOk(c, x);
      forall i | 0 <= i < |Transitions(c, x)| ensures TargetsFounded(c, Transitions(c, x)[i]) {
        AcceptedTargets(c, Transitions(c, x)[i]);
      }
    }
  }

  lemma AcceptedEntersWell(c: Chart)
    requires Accepted(c) && CarefulLists(c)
    ensures EntryShape(c)
  {
    AcceptedIsFounded(c);
    forall x | Has(c, x)
      ensures NodeShape(c, x)
    {
      assert Local(c, x) && ListsOk(c, x) && NodeOk(c, x);
      assert HistoryAlone(c, Initial(c, x));
      if KindOf(c, x) == Compound {
        TargetsFromSet(c, Initial(c, x), x);
      } else if KindOf(c, x) == Kind.History {
        assert Desc(c, x, Parent(c, x));
        ParentIsReal(c, x, Parent(c, x));
        TargetsFromSet(c, Initial(c, x), Parent(c, x));
      }
    }
  }

  /** What the validator accepts, and `Careful` tidies, has the shape the interpreter needs. */
  lemma AcceptedIsWellFormed(c: Chart)
    requires Accepted(c) && Careful(c)
    ensures Shape(c)
  {
    assert CarefulLists(c) by {
      forall x {:trigger Initial(c, x)} | Has(c, x) ensures HistoryAlone(c, Initial(c, x)) {
        assert CarefulState(c, x);
      }
    }
    AcceptedEntersWell(c);
    forall x | Has(c, x)
      ensures StateShape(c, x)
    {
      assert Local(c, x) && ListsOk(c, x) && CarefulState(c, x) && NodeOk(c, x);
      forall i | 0 <= i < |Transitions(c, x)|
        ensures Transitions(c, x)[i].index == i && TransitionShape(c, x, Transitions(c, x)[i])
      {
        var target := Transitions(c, x)[i].target;
        assert TargetSetOk(c, target);
        assert NodeOk(c, 0);
        if target != [] {
          forall j | 0 <= j < |target|
            ensures Desc(c, target[j], 0)
          {
            assert target[j] in target;
          }
          TargetsFromSet(c, target, 0);
        }
      }
    }
  }

  // ---- the acyclic default-history graph ----

  /** The history x is a default target beside the history of the same parent p. */
  predicate Beside(c: Chart, x: int, p: int) { IsHistory(c, x) && Parent(c, x) == p }

  /** The longest chain of same-parent histories reached through the default targets of h; finite
      because the validator's expansion refuses to visit a state twice. */
  ghost function RankFrom(c: Chart, h: int, visiting: set<int>): (r: nat)
    requires DefaultAtomsOf(c, Initial(c, h), visiting).Some?
    ensures r > 0
    decreases |AllStates(c) - visiting|, 1 + |Initial(c, h)|
  {
    1 + RankAmong(c, Initial(c, h), Parent(c, h), visiting)
  }

  ghost function RankAmong(c: Chart, xs: seq<int>, p: int, visiting: set<int>): nat
    requires DefaultAtomsOf(c, xs, visiting).Some?
    decreases |AllStates(c) - visiting|, |xs|
  {
    if xs == [] then 0
    else
      var rest := RankAmong(c, xs[1..], p, visiting);
      if !Beside(c, xs[0], p) then rest
      else
        AtomsOfMember(c, xs, visiting, 0);
        assert xs[0] in AllStates(c) - visiting;
        SmallerSet(AllStates(c) - (visiting + {xs[0]}), AllStates(c) - visiting);
        var r := RankFrom(c, xs[0], visiting + {xs[0]});
        if r > rest then r else rest
  }

  lemma {:induction false} RankStable(c: Chart, h: int, v: set<int>, w: set<int>)
    requires DefaultAtomsOf(c, Initial(c, h), v).Some? && DefaultAtomsOf(c, Initial(c, h), w).Some?
    ensures RankFrom(c, h, v) == RankFrom(c, h, w)
    decreases |AllStates(c) - v|, 1 + |Initial(c, h)|
  {
    RankAmongStable(c, Initial(c, h), Parent(c, h), v, w);
  }

  lemma {:induction false} RankAmongStable(c: Chart, xs: seq<int>, p: int, v: set<int>, w: set<int>)
    requires DefaultAtomsOf(c, xs, v).Some? && DefaultAtomsOf(c, xs, w).Some?
    ensures RankAmong(c, xs, p, v) == RankAmong(c, xs, p, w)
    decreases |AllStates(c) - v|, |xs|
  {
    if xs != [] {
      RankAmongStable(c, xs[1..], p, v, w);
      if Beside(c, xs[0], p) {
        AtomsOfMember(c, xs, v, 0);
        AtomsOfMember(c, xs, w, 0);
        assert xs[0] in AllStates(c) - v;
        SmallerSet(AllStates(c) - (v + {xs[0]}), AllStates(c) - v);
        RankStable(c, xs[0], v + {xs[0]}, w + {xs[0]});
      }
    }
  }

  lemma {:induction false} RankOfMember(c: Chart, xs: seq<int>, p: int, visiting: set<int>, i: nat)
    requires DefaultAtomsOf(c, xs, visiting).Some? && i < |xs| && Beside(c, xs[i], p)
    ensures DefaultAtomsOf(c, Initial(c, xs[i]), visiting + {xs[i]}).Some?
    ensures RankFrom(c, xs[i], visiting + {xs[i]}) <= RankAmong(c, xs, p, visiting)
    decreases |xs|
  {
    AtomsOfMember(c, xs, visiting, 0);
    if i > 0 { RankOfMember(c, xs[1..], p, visiting, i - 1); }
  }

  ghost function Rank(c: Chart, h: int): (r: nat)
    requires Founded(c) && IsHistory(c, h)
    ensures r > 0
  {
    assert StateFounded(c, h);
    RankFrom(c, h, {})
  }

  /** Each step along the default-history graph lowers the rank. */
  lemma RankDrops(c: Chart, h: int, i: nat)
    requires Founded(c) && IsHistory(c, h) && i < |Initial(c, h)| && Beside(c, Initial(c, h)[i], Parent(c, h))
    ensures Rank(c, Initial(c, h)[i]) < Rank(c, h)
  {
    var g := Initial(c, h)[i];
    assert StateFounded(c, h) && StateFounded(c, g);
    RankOfMember(c, Initial(c, h), Parent(c, h), {}, i);
    assert {} + {g} == {g};
    RankStable(c, g, {}, {g});
  }
}
