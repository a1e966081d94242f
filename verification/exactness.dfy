/**
 Exactly when default entry is legal (definition_validate.go:815-899, interpreter.go:787-862).  In a chart
 whose compound states enter in order, entering a target list by default is legal if and only if the list
 itself is in order; and every accepted history-free target set of an accepted chart enters legally if
 and only if the initial list of every compound state is in order.
 */
module Exactness {
  import opened Charts
  import opened Validator
  import opened WellFormed
  import opened EntrySets
  import opened Regions
  import opened Locality
  import opened Configurations
  import opened Completions
  import opened TargetSets
  import opened Completeness
  import opened TurnTaking

  // ---- whole and together is legal ----

  /** What an entered state has in a configuration: its place, and something active in each part it needs. */
  ghost predicate Seated(c: Chart, C: set<int>, x: int) {
    0 < x && Real(c, x) && Complete(c, C, x) && forall q {:trigger q in C} :: In(c, x, q) && 0 < q ==> q in C
  }

  ghost predicate AllSeated(c: Chart, C: set<int>) { forall x {:trigger Seated(c, C, x)} :: x in C ==> Seated(c, C, x) }

  lemma SeatedIsReal(c: Chart, C: set<int>, x: int)
    requires AllSeated(c, C) && x in C
    ensures Real(c, x)
  {
    assert Seated(c, C, x);
  }

  /** The child of s that holds something active is itself active. */
  lemma CoveredIsIn(c: Chart, C: set<int>, k: int)
    requires Tree(c) && AllSeated(c, C) && Has(c, k) && 0 < k && Covered(c, C, k)
    ensures k in C
  {
    var x :| x in C && In(c, x, k);
    assert Seated(c, C, x);
  }

  lemma OneOfThem(c: Chart, C: set<int>, s: int)
    requires Tree(c) && AllSeated(c, C) && Together(c, C) && IsCompound(c, s) && Complete(c, C, s)
    ensures OneChild(c, C, s)
  {
    var k :| Real(c, k) && Parent(c, k) == s && Covered(c, C, k);
    assert NodeOk(c, k) && NodeOk(c, 0);
    CoveredIsIn(c, C, k);
    forall k, l | k in C && l in C && Parent(c, k) == s && Parent(c, l) == s ensures k == l {
      assert Seated(c, C, k) && Seated(c, C, l);
      assert NodeOk(c, k) && NodeOk(c, l);
      assert Compat(c, k, l) && In(c, k, k) && In(c, l, l);
    }
  }

  lemma AllOfThem(c: Chart, C: set<int>, s: int)
    requires Tree(c) && AllSeated(c, C) && IsParallel(c, s) && Complete(c, C, s)
    ensures AllChildren(c, C, s)
  {
    assert NodeOk(c, 0);
    forall k {:trigger Parent(c, k)} | Real(c, k) && Parent(c, k) == s ensures k in C {
      assert NodeOk(c, k) && Covered(c, C, k);
      CoveredIsIn(c, C, k);
    }
  }

  /** States that all have their place, and go together, are a legal configuration. */
  lemma SeatedIsLegal(c: Chart, C: set<int>)
    requires Structured(c) && IsCompound(c, 0) && AllSeated(c, C) && Together(c, C) && exists w :: w in C
    ensures Legal(c, C)
  {
    assert NodeOk(c, 0);
    var w :| w in C;
    assert Seated(c, C, w) && NodeOk(c, w);
    CoveredToward(c, C, 0, w);
    OneOfThem(c, C, 0);
    hide Together, Tree, Structured, Complete, AllSeated;
    forall s {:trigger ActiveOk(c, C, s)} | s in C ensures ActiveOk(c, C, s) { SeatedIsActive(c, C, s); }
  }

  lemma SeatedIsActive(c: Chart, C: set<int>, s: int)
    requires Tree(c) && AllSeated(c, C) && Together(c, C) && s in C
    ensures ActiveOk(c, C, s)
  {
    assert Seated(c, C, s) && NodeOk(c, s);
    if Parent(c, s) != 0 { assert In(c, s, Parent(c, s)); }
    if IsCompound(c, s) { OneOfThem(c, C, s); }
    if IsParallel(c, s) { AllOfThem(c, C, s); }
  }

  lemma LegalIsTogether(c: Chart, C: set<int>)
    requires Tree(c) && Legal(c, C)
    ensures Together(c, C)
  {
    forall x, y {:trigger Compat(c, x, y)} | x in C && y in C ensures Compat(c, x, y) { LegalCompat(c, C, x, y); }
  }

  // ---- default entry of one list ----

  lemma DefaultEntrySeated(c: Chart, xs: seq<int>)
    requires Enterable(c) && IsCompound(c, 0) && xs != [] && AllUnder(c, xs, 0)
    ensures var E := DefaultEntry(c, xs).states; AllSeated(c, E) && exists w :: w in E
  {
    BelowExpandable(c, xs, 0);
    assert NodeOk(c, 0);
    ListIsWhole(c, map[], xs, 0, true, 0, NoEntry);
    ListIsLocal(c, map[], xs, 0, true, 0, NoEntry, NoEntry);
    var E := DefaultEntry(c, xs).states;
    forall x {:trigger Seated(c, E, x)} | x in E ensures Seated(c, E, x) {
      assert Settled(c, E, x, 0);
      assert Reach(c, 0, false, x);
      forall q {:trigger q in E} | In(c, x, q) && 0 < q ensures q in E { assert Desc(c, q, 0); }
    }
    var r := SomeTarget(c, map[], xs[0]);
    var e1 := AddDescendantsOf(c, map[], xs, 0, true, 0, NoEntry);
    EffectiveAmong(c, map[], xs, 0, true, 0, NoEntry, 0, r);
    AncestorsOfAreLocal(c, map[], xs, 0, e1, e1);
  }

  /** The targets of the list, one after the other, and the regions entered on the way up from them, meet
      only what they go with. */
  ghost predicate InOrder(c: Chart, xs: seq<int>)
    requires Founded(c) && AllUnder(c, xs, 0)
  {
    BelowExpandable(c, xs, 0);
    InList(c, map[], {}, xs, 0, true, 0, NoEntry)
  }

  /** Default entry of any target list is legal exactly when the list is in order. */
  lemma DefaultEntryLegalIff(c: Chart, xs: seq<int>)
    requires Enterable(c) && IsCompound(c, 0) && xs != [] && AllUnder(c, xs, 0)
    ensures Legal(c, DefaultEntry(c, xs).states) <==> InOrder(c, xs)
  {
    hide Together, AllSeated, InList;
    BelowExpandable(c, xs, 0);
    assert NodeOk(c, 0);
    var E := DefaultEntry(c, xs).states;
    DefaultEntrySeated(c, xs);
    if InOrder(c, xs) {
      EmptyTogether(c);
      ListIsTogether(c, map[], {}, xs, 0, true, 0, NoEntry);
      assert {} + E == E;
      SeatedIsLegal(c, E);
    }
    if Legal(c, E) { LegalInOrder(c, xs); }
  }

  /** So the start of a chart with a compound root is legal exactly when the root's initial targets are in order. */
  lemma StartLegalIff(c: Chart)
    requires Accepted(c) && Founded(c) && IsCompound(c, 0)
    ensures AllUnder(c, Initial(c, 0), 0) && (Legal(c, StartEntry(c).states) <==> InOrder(c, Initial(c, 0)))
  {
    assert Local(c, 0) && StateFounded(c, 0);
    DefaultEntryLegalIff(c, Initial(c, 0));
  }

  lemma LegalInOrder(c: Chart, xs: seq<int>)
    requires Enterable(c) && AllUnder(c, xs, 0) && Legal(c, DefaultEntry(c, xs).states)
    ensures InOrder(c, xs)
  {
    BelowExpandable(c, xs, 0);
    assert NodeOk(c, 0);
    LegalIsTogether(c, DefaultEntry(c, xs).states);
    TogetherInList(c, map[], {}, xs, 0, true, 0, NoEntry, DefaultEntry(c, xs).states);
  }

  // ---- every accepted set ----

  ghost predicate EntersLegally(c: Chart, xs: seq<int>)
    requires Founded(c)
  {
    AllUnder(c, xs, 0) && Legal(c, DefaultEntry(c, xs).states)
  }

  lemma AcceptedSpread(c: Chart, xs: seq<int>)
    requires Structured(c) && Unrelated(c, xs) && TargetSetOk(c, xs)
    ensures RealsSpread(c, xs)
  {
    forall i, j | 0 <= i < j < |xs| ensures Apart(c, xs[i], xs[j]) {
      AcceptedGoTogether(c, xs, i, j);
      assert xs[i] != xs[j] && !Desc(c, xs[i], xs[j]) && !Desc(c, xs[j], xs[i]);
    }
  }

  lemma AcceptedInOrder(c: Chart, xs: seq<int>)
    requires Accepted(c) && Founded(c) && AllInOrder(c, map[]) && Unrelated(c, xs) && TargetSetOk(c, xs)
    ensures AllUnder(c, xs, 0) && InOrder(c, xs)
  {
    hide AllInOrder, FreshInOrder, InList;
    assert NodeOk(c, 0);
    BelowExpandable(c, xs, 0);
    AcceptedSpread(c, xs);
    forall x {:trigger FreshInOrder(c, map[], x)} | Real(c, x) && Desc(c, x, 0) ensures FreshInOrder(c, map[], x) {
      RealInOrder(c, map[], x);
    }
    EmptyTogether(c);
    SpreadList(c, map[], xs, 0, NoEntry);
  }

  lemma AloneIsAccepted(c: Chart, x: int)
    requires Accepted(c) && IsCompound(c, 0) && Real(c, x) && 0 < x
    ensures Unrelated(c, [x]) && TargetSetOk(c, [x])
  {
    assert NodeOk(c, x);
    CompatNested(c, x, x);
    TogetherIsLegal(c, {x});
    var C :| Legal(c, C) && {x} <= C;
    assert x in C;
    ActiveTogetherIsAccepted(c, [x], C);
  }

  lemma FirstInOrder(c: Chart, x: int)
    requires Founded(c) && AllUnder(c, [x], 0) && InOrder(c, [x])
    ensures FreshInOrder(c, map[], x)
  {
    BelowExpandable(c, [x], 0);
    assert InTurns(c, map[], {}, [x], 0, true, 0, NoEntry) && [x][0] == x;
    hide InTurns, InList;
    FirstTurn(c, map[], [x], NoEntry);
    FreshIs(c, map[], x);
  }

  lemma FirstTurn(c: Chart, H: History, xs: seq<int>, e: Entry)
    requires Founded(c) && HistorySane(c, H) && Has(c, 0) && xs != []
    requires forall i :: 0 <= i < |xs| ==> 0 < xs[i] && Expandable(c, xs[i], 0, true, 0)
    requires InTurns(c, H, {}, xs, 0, true, 0, e)
    ensures InTurn(c, H, {}, xs[0], e)
  {
    hide InTurn;
  }

  /** Every accepted history-free target set enters legally by default, if and only if the initial list of
      every compound state is in order. */
  lemma EveryDefaultEntryLegalIff(c: Chart)
    requires Accepted(c) && IsCompound(c, 0)
    ensures Founded(c)
    ensures (forall xs {:trigger EntersLegally(c, xs)} :: Unrelated(c, xs) && TargetSetOk(c, xs) ==>
      EntersLegally(c, xs)) <==> AllInOrder(c, map[])
  {
    hide Legal, TargetSetOk;
    AcceptedIsFounded(c);
    if AllInOrder(c, map[]) {
      forall xs {:trigger EntersLegally(c, xs)} | Unrelated(c, xs) && TargetSetOk(c, xs) ensures EntersLegally(c, xs) {
        AcceptedInOrder(c, xs);
        DefaultEntryLegalIff(c, xs);
      }
    }
    if forall xs {:trigger EntersLegally(c, xs)} :: Unrelated(c, xs) && TargetSetOk(c, xs) ==> EntersLegally(c, xs) {
      forall x {:trigger ListInOrder(c, map[], x)} ensures ListInOrder(c, map[], x) {
        if IsCompound(c, x) && 0 < x {
          AloneIsAccepted(c, x);
          assert EntersLegally(c, [x]);
          LegalInOrder(c, [x]);
          FirstInOrder(c, x);
        }
      }
    }
  }

  /** Histories that stand alone in their lists are in order, whatever usable histories are recorded. */
  lemma CarefulInOrder(c: Chart, H: History)
    requires Accepted(c) && CarefulLists(c) && HistoryOk(c, H)
    ensures Founded(c) && AllInOrder(c, H)
  {
    AcceptedEntersWell(c);
    forall x {:trigger ListInOrder(c, H, x)} ensures ListInOrder(c, H, x) {
      if IsCompound(c, x) && 0 < x { PlantedInOrder(c, H, x); }
    }
  }

  lemma PlantedInOrder(c: Chart, H: History, x: int)
    requires EntryShape(c) && Enterable(c) && HistoryOk(c, H) && Real(c, x) && 0 < x
    ensures FreshInOrder(c, H, x)
  {
    hide EntryShape, Structured;
    Plant(c, H, x, NoEntry);
    var E := AddDescendants(c, H, x, NoEntry).states;
    assert E - NoEntry.states == E;
    assert Together(c, E) by { RegionTogether(c, E, Parent(c, x)); }
    TogetherInTurn(c, H, {}, x, NoEntry, E);
  }

  lemma RegionTogether(c: Chart, N: set<int>, b: int)
    requires Region(c, N, b)
    ensures Together(c, N)
  {}

  // ---- lists without histories ----

  ghost predicate PlainList(c: Chart, x: int) {
    forall i :: 0 <= i < |Initial(c, x)| ==> !IsHistory(c, Initial(c, x)[i])
  }

  lemma PlainTargets(c: Chart, x: int)
    requires Accepted(c) && IsCompound(c, x) && PlainList(c, x)
    ensures Unrelated(c, Initial(c, x)) && TargetSetOk(c, Initial(c, x)) && AllUnder(c, Initial(c, x), x)
  {
    assert Local(c, x) && ListsOk(c, x) && NodeOk(c, x);
    var xs := Initial(c, x);
    forall i | 0 <= i < |xs| ensures Real(c, xs[i]) && Desc(c, xs[i], x) { assert Has(c, xs[i]); }
  }

  ghost predicate AllPlain(c: Chart) {
    forall y {:trigger PlainList(c, y)} :: IsCompound(c, y) ==> PlainList(c, y)
  }

  lemma {:induction false} PlainFresh(c: Chart, H: History, x: int)
    requires Accepted(c) && Founded(c) && Recalls(c, H) && HistorySane(c, H) && AllPlain(c) && Real(c, x) && 0 < x
    ensures FreshInOrder(c, H, x)
    decreases End(c, x) - x
  {
    hide FreshInOrder, Recalls, InList, Accepted;
    assert Structured(c) && NodeOk(c, x) && StateFounded(c, x) && Local(c, x) by { AcceptedLocal(c, x); }
    forall k {:trigger FreshInOrder(c, H, k)} | Real(c, k) && Desc(c, k, x) ensures FreshInOrder(c, H, k) {
      PlainFresh(c, H, k);
    }
    if IsCompound(c, x) {
      assert PlainList(c, x);
      PlainListFresh(c, H, x);
    } else if IsParallel(c, x) {
      ChildrenBelow(c, x, x);
      var ks := RealChildren(c, x);
      forall i {:trigger ks[i]} | 0 <= i < |ks| ensures FreshInOrder(c, H, ks[i]) {
        assert Desc(c, ks[i], x) && Real(c, ks[i]);
      }
      ParallelInOrder(c, H, x);
    } else {
      assert InTurn(c, H, {}, x, NoEntry);
      FreshIs(c, H, x);
    }
  }

  lemma AcceptedLocal(c: Chart, x: int)
    requires Accepted(c) && Founded(c) && Has(c, x)
    ensures Structured(c) && NodeOk(c, x) && StateFounded(c, x) && Local(c, x)
  {}

  lemma PlainListFresh(c: Chart, H: History, x: int)
    requires Accepted(c) && Founded(c) && Recalls(c, H) && HistorySane(c, H) && IsCompound(c, x) && 0 < x
    requires PlainList(c, x) && AllBelowInOrder(c, H, x)
    ensures FreshInOrder(c, H, x)
  {
    hide AllBelowInOrder, InList, Recalls;
    PlainTargets(c, x);
    var xs := Initial(c, x);
    AcceptedSpread(c, xs);
    BelowExpandable(c, xs, x);
    assert NodeOk(c, x);
    CompatNested(c, x, x);
    forall i {:trigger xs[i]} | 0 <= i < |xs| ensures Free(c, {x}, xs[i]) {
      assert Desc(c, xs[i], x) && Real(c, xs[i]);
      CompatNested(c, x, xs[i]);
    }
    var e := AddDefault(AddState(NoEntry, x), x, x);
    assert {} + e.states == {x};
    SpreadList(c, H, xs, x, e);
    assert InTurn(c, H, {}, x, NoEntry);
    FreshIs(c, H, x);
  }

  // Where no initial list names a history, the histories play no part in entering real states.

  lemma {:induction false} RealUnrecorded(c: Chart, H: History, s: int, e: Entry)
    requires Founded(c) && HistorySane(c, H) && AllPlain(c) && Real(c, s)
    ensures AddDescendants(c, H, s, e) == AddDescendants(c, map[], s, e)
    ensures InTurn(c, H, {}, s, e) <==> InTurn(c, map[], {}, s, e)
    decreases Weight(c, s), 2, 0, 1, 0
  {
    hide AllPlain;
    assert NodeOk(c, s) && StateFounded(c, s);
    if IsCompound(c, s) {
      PlainReals(c, s);
      BelowExpandable(c, Initial(c, s), s);
      ListUnrecorded(c, H, Initial(c, s), s, AddDefault(AddState(e, s), s, s));
      ClimbsUnrecorded(c, H, Initial(c, s), s,
        AddDescendantsOf(c, H, Initial(c, s), s, true, 0, AddDefault(AddState(e, s), s, s)));
    } else if IsParallel(c, s) {
      ChildrenExpandable(c, s);
      ChildrenBelow(c, s, s);
      ListUnrecorded(c, H, RealChildren(c, s), s, AddState(e, s));
    }
  }

  lemma PlainReals(c: Chart, s: int)
    requires Founded(c) && AllPlain(c) && IsCompound(c, s)
    ensures AllUnder(c, Initial(c, s), s) && forall i :: 0 <= i < |Initial(c, s)| ==> Real(c, Initial(c, s)[i])
  {
    assert StateFounded(c, s) && PlainList(c, s);
  }

  lemma {:induction false} ListUnrecorded(c: Chart, H: History, xs: seq<int>, b: int, e: Entry)
    requires Founded(c) && HistorySane(c, H) && AllPlain(c) && Has(c, b)
    requires forall i :: 0 <= i < |xs| ==> 0 < xs[i] && Expandable(c, xs[i], b, true, 0) && Real(c, xs[i])
    ensures AddDescendantsOf(c, H, xs, b, true, 0, e) == AddDescendantsOf(c, map[], xs, b, true, 0, e)
    ensures InTurns(c, H, {}, xs, b, true, 0, e) <==> InTurns(c, map[], {}, xs, b, true, 0, e)
    decreases End(c, b) - b, 1, 0, 0, |xs|
  {
    hide AllPlain, InTurn, AddDescendants;
    if xs != [] {
      assert NodeOk(c, b) && 0 < xs[0] && Expandable(c, xs[0], b, true, 0);
      RealUnrecorded(c, H, xs[0], e);
      ListUnrecorded(c, H, xs[1..], b, AddDescendants(c, H, xs[0], e));
    }
  }

  lemma {:induction false} ClimbsUnrecorded(c: Chart, H: History, xs: seq<int>, b: int, e: Entry)
    requires Founded(c) && HistorySane(c, H) && AllPlain(c) && Has(c, b)
    requires forall i :: 0 <= i < |xs| ==> Desc(c, xs[i], b)
    ensures AddAncestorsOf(c, H, xs, b, e) == AddAncestorsOf(c, map[], xs, b, e)
    ensures InClimbs(c, H, {}, xs, b, e) <==> InClimbs(c, map[], {}, xs, b, e)
    decreases End(c, b) - b, 0, 0, 2, |xs|
  {
    hide AllPlain, InClimb, AddAncestors;
    if xs != [] {
      assert Desc(c, xs[0], b);
      ClimbUnrecorded(c, H, Parent(c, xs[0]), b, e);
      ClimbsUnrecorded(c, H, xs[1..], b, AddAncestors(c, H, Parent(c, xs[0]), b, e));
    }
  }

  lemma {:induction false} ClimbUnrecorded(c: Chart, H: History, p: int, b: int, e: Entry)
    requires Founded(c) && HistorySane(c, H) && AllPlain(c) && Has(c, b) && (p == b || Desc(c, p, b))
    ensures AddAncestors(c, H, p, b, e) == AddAncestors(c, map[], p, b, e)
    ensures InClimb(c, H, {}, p, b, e) <==> InClimb(c, map[], {}, p, b, e)
    decreases End(c, b) - b, 0, 0, 1, p
  {
    hide AllPlain, InUncovered, AddUncovered;
    if p != b {
      ChildrenBelow(c, p, b);
      assert b <= Parent(c, p) && Desc(c, p, Parent(c, p));
      var e1 := AddState(e, p);
      if IsParallel(c, p) { UncoveredUnrecorded(c, H, RealChildren(c, p), b, e1); }
      ClimbUnrecorded(c, H, Parent(c, p), b, if IsParallel(c, p) then AddUncovered(c, H, RealChildren(c, p), b, e1)
        else e1);
    }
  }

  lemma {:induction false} UncoveredUnrecorded(c: Chart, H: History, ks: seq<int>, b: int, e: Entry)
    requires Founded(c) && HistorySane(c, H) && AllPlain(c) && Has(c, b)
    requires forall i :: 0 <= i < |ks| ==> Desc(c, ks[i], b) && Real(c, ks[i])
    ensures AddUncovered(c, H, ks, b, e) == AddUncovered(c, map[], ks, b, e)
    ensures InUncovered(c, H, {}, ks, b, e) <==> InUncovered(c, map[], {}, ks, b, e)
    decreases End(c, b) - b, 0, 0, 0, |ks|
  {
    hide AllPlain, InTurn, AddDescendants, Covered;
    if ks != [] {
      assert Desc(c, ks[0], b) && Real(c, ks[0]);
      WeightWithin(c, ks[0], b);
      if !Covered(c, e.states, ks[0]) { RealUnrecorded(c, H, ks[0], e); }
      UncoveredUnrecorded(c, H, ks[1..], b, if Covered(c, e.states, ks[0]) then e
        else AddDescendants(c, H, ks[0], e));
    }
  }

  /** Where no initial list names a history, every list is in order, whatever is recorded. */
  lemma PlainInOrder(c: Chart, H: History)
    requires Accepted(c) && Founded(c) && HistorySane(c, H) && AllPlain(c)
    ensures AllInOrder(c, H)
  {
    hide InTurn, AllPlain;
    forall x {:trigger ListInOrder(c, H, x)} ensures ListInOrder(c, H, x) {
      if IsCompound(c, x) && 0 < x {
        PlainFresh(c, map[], x);
        RealUnrecorded(c, H, x, NoEntry);
      }
    }
  }

  // ---- a clash spoils the entry ----

  lemma {:induction false} EnteredInTurns(c: Chart, H: History, xs: seq<int>, b: int, e: Entry, j: nat, u: int)
    requires Founded(c) && HistorySane(c, H) && Has(c, b) && j <= |xs|
    requires forall i :: 0 <= i < |xs| ==> 0 < xs[i] && Desc(c, xs[i], b) && Expandable(c, xs[i], b, true, 0)
    requires forall i :: 0 <= i < |xs[..j]| ==> 0 < xs[..j][i] && Expandable(c, xs[..j][i], b, true, 0)
    requires u in AddDescendantsOf(c, H, xs[..j], b, true, 0, e).states
    ensures u in AddDescendantsOf(c, H, xs, b, true, 0, e).states
    decreases |xs|
  {
    if j == 0 {
      EachIsLocal(c, H, xs, b, true, 0, e, e);
    } else {
      assert NodeOk(c, b) && 0 < xs[0] && Expandable(c, xs[0], b, true, 0);
      assert xs[..j][1..] == xs[1..][..j - 1] && xs[..j][0] == xs[0];
      EnteredInTurns(c, H, xs[1..], b, AddDescendants(c, H, xs[0], e), j - 1, u);
    }
  }

  /** What has been entered when the j-th target's turn comes. */
  ghost function Before(c: Chart, xs: seq<int>, j: nat): set<int>
    requires Founded(c) && AllUnder(c, xs, 0) && j <= |xs|
  {
    BelowExpandable(c, xs[..j], 0);
    AddDescendantsOf(c, map[], xs[..j], 0, true, 0, NoEntry).states
  }

  /** Whatever the earlier targets entered, on the way included, a later target that aims at something it
      excludes makes the default entry of the list illegal. */
  lemma ClashSpoils(c: Chart, xs: seq<int>, j: nat, u: int, r: int)
    requires Founded(c) && AllUnder(c, xs, 0) && j < |xs|
    requires u in Before(c, xs, j) && Effective(c, map[], xs[j], r) && !Compat(c, u, r)
    ensures !Legal(c, DefaultEntry(c, xs).states)
  {
    var E := DefaultEntry(c, xs).states;
    assert NodeOk(c, 0);
    BelowExpandable(c, xs, 0);
    BelowExpandable(c, xs[..j], 0);
    EnteredInTurns(c, map[], xs, 0, NoEntry, j, u);
    EffectiveAmong(c, map[], xs, 0, true, 0, NoEntry, j, r);
    var e1 := AddDescendantsOf(c, map[], xs, 0, true, 0, NoEntry);
    AncestorsOfAreLocal(c, map[], xs, 0, e1, e1);
    if Legal(c, E) { LegalCompat(c, E, u, r); }
  }
}
