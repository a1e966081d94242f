/**
 Why default entry of an accepted target set needs more than acceptance (definition_validate.go:843-899,
 interpreter.go:796-808, 835-848): the check expands every target of an initial list on its own, while
 entering a history first climbs to its parent and enters the regions it passes by default, before the
 next target of the list is looked at.  So the order of an initial list decides, which the check ignores.
 */
module DefaultGap {
  import opened Charts
  import opened Validator
  import opened WellFormed
  import opened EntrySets
  import opened TargetSets
  import opened Locality
  import opened Completeness
  import opened TurnTaking
  import opened Exactness
  import opened Roots
  import opened Courses
  import opened Gaps

  /** root { x { h (deep, default a1); q || { a { a1 }; b { b1, b2 } } } }, where x starts in h and b2,
      listed in the one order or the other. */
  function BesideRows(order: seq<int>): seq<Row> { [
    Row(Compound, -1, 9, [1], [1]), Row(Compound, 0, 9, [2, 3], order), Row(Kind.History, 1, 3, [], [5]),
      Row(Parallel, 1, 9, [4, 6], []),
    Row(Compound, 3, 6, [5], [5]), Row(Atomic, 4, 6, [], []), Row(Compound, 3, 9, [7, 8], [7]),
      Row(Atomic, 6, 8, [], []), Row(Atomic, 6, 9, [], [])] }

  const BesideStep := Go(5, [1], false)

  function BesideHistory(order: seq<int>): Chart { Draw(BesideRows(order), [BesideStep]) }

  lemma BesideTree(order: seq<int>)
    requires order == [2, 8] || order == [8, 2]
    ensures Tree(BesideHistory(order)) && |BesideHistory(order).states| == 9
    ensures (forall x {:trigger RowOk(BesideRows(order), x)} :: RowOk(BesideRows(order), x))
      && forall x, a {:trigger RowsNested(BesideRows(order), x, a)} :: RowsNested(BesideRows(order), x, a)
  {
    DrawnTree(BesideRows(order), [BesideStep]);
  }

  lemma BesideLeaf(order: seq<int>, x: int)
    requires x == 2 || x == 5 || x == 7 || x == 8
    ensures Local(BesideHistory(order), x)
  {
    if x == 2 { FromNone([BesideStep], x); }
  }

  lemma BesideLocal(order: seq<int>, x: int)
    requires order == [2, 8] || order == [8, 2]
    requires Has(BesideHistory(order), x)
    ensures Local(BesideHistory(order), x)
  {
    var c := BesideHistory(order);
    assert |c.states| == 9;
    if x == 0 { RealsAre(c, [1], 1); }
    else if x == 1 { RealsAre(c, [2, 3], 3); }
    else if x == 3 { RealsAre(c, [4, 6], 4); RealsAre(c, [4, 6], 6); }
    else if x == 4 { RealsAre(c, [5], 5); }
    else if x == 6 { RealsAre(c, [7, 8], 7); }
    else { BesideLeaf(order, x); hide Local; }
  }

  /** The initial list of x expands to a1 and b2, which go together. */
  lemma BesideAtoms(order: seq<int>)
    requires order == [2, 8] || order == [8, 2]
    requires Tree(BesideHistory(order))
    ensures DefaultAtoms(BesideHistory(order), 1, {}) == Some({5, 8})
  {
    var c := BesideHistory(order);
    assert [5][1..] == [] && [2, 8][1..] == [8] && [8][1..] == [];
    assert {5} + {} == {5} && {8} + {} == {8} && {5} + {8} == {5, 8} && {} + {1} == {1};
    assert DefaultAtomsOf(c, [5], {1} + {2}) == Some({5} + {});
    assert DefaultAtoms(c, 2, {1}) == Some({5});
    assert DefaultAtomsOf(c, [8], {1}) == Some({8} + {});
    assert [8, 2][1..] == [2] && [2][1..] == [] && {8} + {5} == {5, 8};
    assert DefaultAtomsOf(c, [2], {1}) == Some({5} + {});
    assert DefaultAtomsOf(c, [2, 8], {1}) == Some({5} + {8});
    assert DefaultAtomsOf(c, [8, 2], {1}) == Some({8} + {5});
  }

  lemma BesideTargets(order: seq<int>)
    requires order == [2, 8] || order == [8, 2]
    requires Tree(BesideHistory(order))
    ensures TargetSetOk(BesideHistory(order), [1]) && TargetSetOk(BesideHistory(order), order)
      && TargetSetOk(BesideHistory(order), [5]) && TargetSetOk(BesideHistory(order), [7])
  {
    var c := BesideHistory(order);
    AtomOk(c, 5);
    AtomOk(c, 7);
    assert Lca(c, 5, 8) == 3 && Lca(c, 8, 5) == 3;
    TwoTogether(c, 5, 8);
    HistoryAtom(c, 2, 5);
    if order == [2, 8] {
      TwoTargetsOk(c, 2, 8, 5, 8);
    } else {
      assert {8, 5} == {5, 8};
      TwoTargetsOk(c, 8, 2, 8, 5);
    }
    BesideAtoms(order);
    OneTargetOk(c, 1, {5, 8});
  }

  lemma BesideInitial(order: seq<int>, x: int)
    requires order == [2, 8] || order == [8, 2]
    requires Tree(BesideHistory(order)) && Has(BesideHistory(order), x)
    ensures Initial(BesideHistory(order), x) == BesideRows(order)[x].initial
      && TargetSetOk(BesideHistory(order), Initial(BesideHistory(order), x))
  {
    BesideTargets(order);
    hide TargetSetOk, Tree;
    EmptyOk(BesideHistory(order));
  }

  lemma BesideAccepted(order: seq<int>)
    requires order == [2, 8] || order == [8, 2]
    ensures Accepted(BesideHistory(order)) && Founded(BesideHistory(order))
  {
    BesideTree(order);
    forall x | Has(BesideHistory(order), x) ensures Local(BesideHistory(order), x) { BesideLocal(order, x); }
    forall x {:trigger Initial(BesideHistory(order), x)} | Has(BesideHistory(order), x)
      ensures TargetSetOk(BesideHistory(order), Initial(BesideHistory(order), x))
    {
      BesideInitial(order, x);
    }
    BesideTargets(order);
    hide TargetSetOk, Local, Tree;
    DrawnIsAccepted(BesideRows(order), [BesideStep]);
  }

  /** Climbing from a1 to x passes q, whose other region b is entered by default, and b1 with it. */
  lemma BesideClimbs(order: seq<int>, e: Entry)
    requires Founded(BesideHistory(order)) && e.states == {1, 5}
    ensures Desc(BesideHistory(order), 5, 1) && 7 in AddAncestorsOf(BesideHistory(order), map[], [5], 1, e).states
  {
    hide AddAncestors, From;
    var c := BesideHistory(order);
    assert [5][1..] == [] && [4, 6][1..] == [6] && [6][1..] == [];
    assert Reals(c, [6]) == [6];
    assert RealChildren(c, 3) == [4] + [6];
    assert [4] + [6] == [4, 6];
    assert Initial(c, 6) == [7];
    RegionOnTheWay(c, 5, 4, 3, 6, 1, e);
  }

  /** Entering a list of one atomic state adds it. */
  lemma AtomEnters(c: Chart, x: int, b: int, whole: bool, rank: nat, e: Entry)
    requires Founded(c) && Has(c, b) && IsAtomic(c, x) && 0 < x && Expandable(c, x, b, whole, rank)
    ensures AddDescendantsOf(c, map[], [x], b, whole, rank, e) == AddState(e, x)
  {
    assert [x][1..] == [];
    assert AddDescendants(c, map[], x, e) == AddState(e, x);
  }

  /** So entering the history, with x entered already, enters b1. */
  lemma BesideHistoryEnters(order: seq<int>, e: Entry)
    requires Founded(BesideHistory(order)) && e.states == {1}
    ensures 7 in AddDescendants(BesideHistory(order), map[], 2, e).states
  {
    hide AddAncestors, From;
    var c := BesideHistory(order);
    DefaultExpandable(c, 2);
    assert Initial(c, 2) == [5] && IsAtomic(c, 5);
    var e0 := AddDefault(e, 1, 2);
    AtomEnters(c, 5, 1, false, Rank(c, 2), e0);
    assert {1} + {5} == {1, 5};
    BesideClimbs(order, AddState(e0, 5));
  }

  lemma AncestorsGrow(c: Chart, xs: seq<int>, b: int, e: Entry)
    requires Founded(c) && Has(c, b) && forall i :: 0 <= i < |xs| ==> Desc(c, xs[i], b)
    ensures e.states <= AddAncestorsOf(c, map[], xs, b, e).states
  {
    AncestorsOfAreLocal(c, map[], xs, b, e, e);
  }

  lemma EachGrows(c: Chart, xs: seq<int>, b: int, e: Entry)
    requires Founded(c) && Has(c, b) && forall i :: 0 <= i < |xs| ==>
      0 < xs[i] && Desc(c, xs[i], b) && Expandable(c, xs[i], b, true, 0)
    ensures e.states <= AddDescendantsOf(c, map[], xs, b, true, 0, e).states
  {
    EachIsLocal(c, map[], xs, b, true, 0, e, e);
  }

  /** Entering a compound state enters whatever its first initial target adds, and its second one. */
  lemma EntersBoth(c: Chart, x: int, h: int, y: int, k: int)
    requires Founded(c) && IsCompound(c, x) && Initial(c, x) == [h, y] && Has(c, h) && Desc(c, h, x) && Real(c, y)
      && Desc(c, y, x)
    requires k in AddDescendants(c, map[], h, AddDefault(AddState(NoEntry, x), x, x)).states
    ensures k in AddDescendants(c, map[], x, NoEntry).states && y in AddDescendants(c, map[], x, NoEntry).states
  {
    var e1 := AddDefault(AddState(NoEntry, x), x, x);
    BelowExpandable(c, [h, y], x);
    assert [h, y][1..] == [y];
    var e2 := AddDescendants(c, map[], h, e1);
    var e3 := AddDescendantsOf(c, map[], [h, y], x, true, 0, e1);
    assert e3 == AddDescendantsOf(c, map[], [y], x, true, 0, e2);
    EachGrows(c, [y], x, e2);
    EffectiveAmong(c, map[], [h, y], x, true, 0, e1, 1, y);
    AncestorsGrow(c, [h, y], x, e3);
  }

  lemma InDefaultEntry(c: Chart, x: int, k: int)
    requires Founded(c) && 0 < x && Has(c, x) && Desc(c, x, 0) && k in AddDescendants(c, map[], x, NoEntry).states
    ensures k in DefaultEntry(c, [x]).states
  {
    BelowExpandable(c, [x], 0);
    assert [x][1..] == [];
    var e := AddDescendants(c, map[], x, NoEntry);
    assert AddDescendantsOf(c, map[], [x], 0, true, 0, NoEntry) == e;
    AncestorsGrow(c, [x], 0, e);
  }

  lemma BesideEnters()
    requires Founded(BesideHistory([2, 8]))
    ensures 7 in DefaultEntry(BesideHistory([2, 8]), [1]).states && 8 in DefaultEntry(BesideHistory([2, 8]), [1]).states
  {
    hide Tree, Founded, AddDescendants, DefaultEntry, Compat, From;
    var c := BesideHistory([2, 8]);
    assert {} + {1} == {1};
    BesideHistoryEnters([2, 8], AddDefault(AddState(NoEntry, 1), 1, 1));
    EntersBoth(c, 1, 2, 8, 7);
    InDefaultEntry(c, 1, 7);
    InDefaultEntry(c, 1, 8);
  }

  /** The chart is accepted, and so is x as a target; yet entering x by default is illegal. */
  lemma DefaultEntryClashes()
    ensures var c := BesideHistory([2, 8]);
      && Accepted(c) && Founded(c) && Unrelated(c, [1]) && TargetSetOk(c, [1])
      && Desc(c, 1, 0) && !Legal(c, DefaultEntry(c, [1]).states)
  {
    hide TargetSetOk, Accepted, Founded, Tree, DefaultEntry;
    var c := BesideHistory([2, 8]);
    BesideTree([2, 8]);
    BesideAccepted([2, 8]);
    BesideTargets([2, 8]);
    BesideEnters();
    var E := DefaultEntry(c, [1]).states;
    assert 7 in E && 8 in E && Parent(c, 7) == 6 && Parent(c, 8) == 6 && IsCompound(c, 6);
    if Legal(c, E) { LegalParent(c, E, 7); }
  }

  /** So start itself is illegal. */
  lemma BesideGoesWrong()
    ensures Accepted(BesideHistory([2, 8])) && Founded(BesideHistory([2, 8])) && GoesWrong(BesideHistory([2, 8]))
  {
    var c := BesideHistory([2, 8]);
    DefaultEntryClashes();
    assert Initial(c, 0) == [1] && IsCompound(c, 0);
    hide Legal, Accepted, DefaultEntry, TargetSetOk, Unrelated, Leads;
    assert StartEntry(c) == DefaultEntry(c, [1]);
    var ps := [Position(StartEntry(c).states, map[])];
    assert Course(c, ps) && ps[|ps| - 1].config == DefaultEntry(c, [1]).states;
  }

  // ---- the other order ----

  /** A compound state that starts in one atomic child is in order. */
  lemma OneAtomInOrder(c: Chart, x: int, a: int)
    requires Enterable(c) && IsCompound(c, x) && 0 < x && Initial(c, x) == [a] && IsAtomic(c, a) && Parent(c, a) == x
      && Desc(c, a, x)
    ensures FreshInOrder(c, map[], x)
  {
    assert NodeOk(c, x);
    BelowExpandable(c, [a], x);
    assert [a][0] == a && [a][1..] == [];
    CompatNested(c, x, a);
    var e := AddDefault(AddState(NoEntry, x), x, x);
    assert InTurns(c, map[], {}, [a], x, true, 0, e);
    var e1 := AddDescendantsOf(c, map[], [a], x, true, 0, e);
    assert InClimb(c, map[], {}, x, x, e1);
    assert AddAncestors(c, map[], x, x, e1) == e1;
    assert InClimbs(c, map[], {}, [a], x, e1);
  }

  lemma AtomInOrder(c: Chart, a: int)
    requires Enterable(c) && IsAtomic(c, a)
    ensures FreshInOrder(c, map[], a)
  {}

  /** Every region of x enters in order by itself. */
  lemma OtherRegions()
    requires Enterable(BesideHistory([8, 2]))
    ensures AllBelowInOrder(BesideHistory([8, 2]), map[], 1)
  {
    var c := BesideHistory([8, 2]);
    OneAtomInOrder(c, 4, 5);
    OneAtomInOrder(c, 6, 7);
    hide InTurn, FreshInOrder, Founded, Structured;
    assert |c.states| == 9;
    ParallelRegions(c);
    forall i {:trigger RealChildren(c, 3)[i]} | 0 <= i < |RealChildren(c, 3)|
      ensures FreshInOrder(c, map[], RealChildren(c, 3)[i])
    {
      assert RealChildren(c, 3)[i] in RealChildren(c, 3);
    }
    ParallelInOrder(c, map[], 3);
    forall x {:trigger FreshInOrder(c, map[], x)} | Real(c, x) && Desc(c, x, 1) ensures FreshInOrder(c, map[], x) {
      assert x == 3 || x == 4 || x == 5 || x == 6 || x == 7 || x == 8;
      if x == 5 || x == 7 || x == 8 { AtomInOrder(c, x); }
    }
  }

  lemma ParallelRegions(c: Chart)
    requires c == BesideHistory([8, 2])
    ensures forall k :: k in RealChildren(c, 3) ==> k == 4 || k == 6
  {
    forall k | k in RealChildren(c, 3) ensures k == 4 || k == 6 { RealsAre(c, [4, 6], k); }
  }

  /** b2 goes with x, and a1 goes with both. */
  lemma OtherMeets()
    requires Tree(BesideHistory([8, 2]))
    ensures Meets(BesideHistory([8, 2]), {} + {1}, 8) && Meets(BesideHistory([8, 2]), {} + {1, 8}, 5)
    ensures Together(BesideHistory([8, 2]), {} + {1}) && Together(BesideHistory([8, 2]), {} + {1, 5, 8})
  {
    var c := BesideHistory([8, 2]);
    CompatNested(c, 1, 1);
    CompatNested(c, 5, 5);
    CompatNested(c, 8, 8);
    CompatNested(c, 1, 8);
    CompatNested(c, 1, 5);
    CompatNested(c, 3, 6);
    CompatParallelChild(c, 3, 4, 6);
    CompatDown(c, 4, 5, 6);
    CompatSym(c, 5, 6);
    CompatDown(c, 6, 8, 5);
    CompatSym(c, 8, 5);
    hide Compat;
  }

  /** When the turn of h comes, it enters a1 and finds the region of b2 entered already. */
  lemma OtherHistory(e: Entry)
    requires Enterable(BesideHistory([8, 2])) && e.states == {1, 8}
    ensures InTurn(BesideHistory([8, 2]), map[], {}, 2, e)
  {
    hide Meets, Together, InClimbs;
    var c := BesideHistory([8, 2]);
    OtherMeets();
    OtherRegions();
    DefaultExpandable(c, 2);
    assert Initial(c, 2) == [5] && [5][0] == 5 && [5][1..] == [] && Recalls(c, map[]);
    var e0 := AddDefault(e, 1, 2);
    assert InTurns(c, map[], {}, [5], 1, false, Rank(c, 2), e0);
    AtomEnters(c, 5, 1, false, Rank(c, 2), e0);
    var e1 := AddState(e0, 5);
    assert e1.states == {1, 5, 8};
    assert SomeoneBelow(c, e1.states, 4) by { assert 5 in e1.states && Real(c, 5) && Desc(c, 5, 4); }
    ClimbsInOrder(c, map[], [5], 1, e1);
    assert InList(c, map[], {}, [5], 1, false, Rank(c, 2), e0);
  }

  lemma OtherInOrder()
    requires Enterable(BesideHistory([8, 2]))
    ensures FreshInOrder(BesideHistory([8, 2]), map[], 1)
  {
    hide Meets, Together, InClimbs, AllBelowInOrder;
    var c := BesideHistory([8, 2]);
    OtherMeets();
    OtherRegions();
    BelowExpandable(c, [8, 2], 1);
    assert [8, 2][1..] == [2] && [2][1..] == [] && [8, 2][0] == 8 && [8, 2][1] == 2 && Recalls(c, map[]);
    var e1 := AddDefault(AddState(NoEntry, 1), 1, 1);
    assert e1.states == {1};
    var e2 := AddDescendants(c, map[], 8, e1);
    assert e2.states == {1, 8};
    OtherHistory(e2);
    assert InTurn(c, map[], {}, 8, e1);
    assert InTurns(c, map[], {}, [2], 1, true, 0, e2);
    assert InTurns(c, map[], {}, [8, 2], 1, true, 0, e1);
    EachIsTogether(c, map[], {}, [8, 2], 1, true, 0, e1);
    SomeoneForEach(c, map[], [8, 2], 1, true, 0, e1);
    ClimbsInOrder(c, map[], [8, 2], 1, AddDescendantsOf(c, map[], [8, 2], 1, true, 0, e1));
    assert InTurn(c, map[], {}, 1, NoEntry);
  }

  /** With b2 listed first the same chart enters legally: h finds the region of b2 entered already.  The
      list is in order, though its history does not stand alone. */
  lemma OtherOrderIsLegal()
    ensures var c := BesideHistory([8, 2]);
      && Accepted(c) && Founded(c) && AllInOrder(c, map[]) && !HistoryAlone(c, Initial(c, 1))
      && Desc(c, 1, 0) && Legal(c, DefaultEntry(c, [1]).states)
  {
    hide TargetSetOk, AllInOrder, DefaultEntry, Legal;
    var c := BesideHistory([8, 2]);
    BesideTree([8, 2]);
    BesideAccepted([8, 2]);
    AllListsInOrder();
    assert AllUnder(c, [1], 0) && IsCompound(c, 0);
    assert Initial(c, 1)[1] == 2 && IsHistory(c, 2) && In(c, Initial(c, 1)[0], Parent(c, 2));
    AloneIsAccepted(c, 1);
    AcceptedInOrder(c, [1]);
    DefaultEntryLegalIff(c, [1]);
  }

  lemma AllListsInOrder()
    requires Enterable(BesideHistory([8, 2]))
    ensures AllInOrder(BesideHistory([8, 2]), map[])
  {
    hide FreshInOrder, Founded, Structured;
    var c := BesideHistory([8, 2]);
    OtherInOrder();
    OneAtomInOrder(c, 4, 5);
    OneAtomInOrder(c, 6, 7);
    assert |c.states| == 9;
    forall x {:trigger ListInOrder(c, map[], x)} ensures ListInOrder(c, map[], x) {
      if IsCompound(c, x) && 0 < x { assert x == 1 || x == 4 || x == 6; }
    }
  }
}
