/**
 The two ways a root leaves the rules (interpreter.go:150-152, 835-848, 936-979), stated exactly: the
 root becomes active exactly when it is itself a target; and a step whose domain is a parallel root keeps
 all regions exactly when each of them holds an effective target, because the walk upwards stops before
 the root and so never asks which of its regions are covered.
 */
module Roots {
  import opened Charts
  import opened Validator
  import opened WellFormed
  import opened EntrySets
  import opened Regions
  import opened Locality
  import opened Transitions
  import opened Completeness
  import opened TurnTaking
  import opened Stepping

  /** The configuration after taking t alone. */
  function After(c: Chart, H: History, C: set<int>, t: Transition): set<int>
    requires Founded(c) && HistorySane(c, H) && TargetsFounded(c, t)
  {
    C - ExitSet(c, H, C, t) + EntryOf(c, H, t, NoEntry).states
  }

  // ---- the root as a target ----

  lemma RootIsOnlyItself(c: Chart, H: History, t: Transition)
    requires Founded(c) && HistorySane(c, H) && TargetsFounded(c, t)
    ensures 0 in EffectiveTargets(c, H, t) <==> t.target == [0]
  {
    assert NodeOk(c, 0) && StateFounded(c, 0);
    if t.target == [0] {
      assert [0][1..] == [] && [] + [0] == [0];
      assert !IsHistory(c, 0);
      assert CollectTarget(c, H, 0, [], {}) == [] + [0];
      assert CollectTargets(c, H, [], [0], {}) == [0];
    } else {
      CollectedAllUnder(c, H, t.target, [], {});
    }
  }

  lemma NeverReached(c: Chart, b: int, E: set<int>, E': set<int>, x: int)
    requires Alike(c, b, false, E, E, E', E') && !Desc(c, x, b) && x !in E
    ensures x !in E'
  {
    assert !Reach(c, b, false, x);
  }

  lemma RootEntered(c: Chart, H: History, t: Transition)
    requires Founded(c) && HistorySane(c, H) && TargetsFounded(c, t)
    ensures 0 in EntryOf(c, H, t, NoEntry).states <==> t.target == [0]
  {
    assert NodeOk(c, 0) && StateFounded(c, 0);
    if t.target == [0] {
      EntersItself(c, H, 0, NoEntry);
    } else if t.target != [] {
      BelowExpandable(c, t.target, 0);
      TargetsUnderDomain(c, H, t);
      var e1 := AddDescendantsOf(c, H, t.target, 0, true, 0, NoEntry);
      EachIsLocal(c, H, t.target, 0, true, 0, NoEntry, NoEntry);
      NeverReached(c, 0, {}, e1.states, 0);
      if Domain(c, H, t).Some? {
        var d := Domain(c, H, t).value;
        AncestorsOfAreLocal(c, H, EffectiveTargets(c, H, t), d, e1, e1);
        NeverReached(c, d, e1.states, EntryOf(c, H, t, NoEntry).states, 0);
      }
    }
  }

  /** In any founded chart and from any configuration: the root becomes active exactly when it is an
      effective target, which is when it is the target; and then the next configuration is not legal. */
  lemma RootTargetIff(c: Chart, H: History, C: set<int>, t: Transition)
    requires Founded(c) && HistorySane(c, H) && TargetsFounded(c, t)
    ensures 0 in EffectiveTargets(c, H, t) <==> t.target == [0]
    ensures 0 !in C ==> (0 in After(c, H, C, t) <==> 0 in EffectiveTargets(c, H, t))
    ensures 0 in EffectiveTargets(c, H, t) ==> !Legal(c, After(c, H, C, t))
  {
    RootIsOnlyItself(c, H, t);
    RootEntered(c, H, t);
    assert !ActiveOk(c, After(c, H, C, t), 0);
  }

  // ---- the regions of a parallel root ----

  /** x and r lie in one child of the root. */
  ghost predicate SameArm(c: Chart, x: int, r: int) {
    exists k :: 0 < k && Parent(c, k) == 0 && In(c, x, k) && In(c, r, k)
  }

  lemma ArmOf(c: Chart, a: int, x: int, r: int)
    requires Tree(c) && 0 < a && Desc(c, a, 0) && In(c, x, a) && In(c, r, a)
    ensures SameArm(c, x, r)
  {
    var k := ChildToward(c, 0, a);
    TransIn(c, x, a, k);
    TransIn(c, r, a, k);
  }

  lemma ArmsJoin(c: Chart, x: int, a: int, r: int)
    requires Tree(c) && SameArm(c, x, a) && SameArm(c, a, r)
    ensures SameArm(c, x, r)
  {
    var k :| 0 < k && Parent(c, k) == 0 && In(c, x, k) && In(c, a, k);
    var l :| 0 < l && Parent(c, l) == 0 && In(c, a, l) && In(c, r, l);
    SameSibling(c, k, l, a);
  }

  ghost predicate NewIn(c: Chart, k: int, E: set<int>, E': set<int>) {
    E <= E' && forall x :: x in E' && x !in E ==> In(c, x, k)
  }

  /** The walk upwards from p stays in the root's child that holds p. */
  lemma {:induction false} ClimbIn(c: Chart, H: History, k: int, p: int, e: Entry)
    requires Founded(c) && HistorySane(c, H) && (p == 0 || (Desc(c, p, 0) && In(c, p, k))) && Has(c, k) && 0 < k
      && Parent(c, k) == 0
    ensures NewIn(c, k, e.states, AddAncestors(c, H, p, 0, e).states)
    decreases p
  {
    assert NodeOk(c, 0) && NodeOk(c, k);
    if p != 0 {
      ChildrenBelow(c, p, 0);
      assert Desc(c, p, Parent(c, p));
      var e1 := AddState(e, p);
      var e2 := if IsParallel(c, p) then AddUncovered(c, H, RealChildren(c, p), 0, e1) else e1;
      if IsParallel(c, p) { UncoveredIn(c, H, k, p, RealChildren(c, p), e1); }
      assert Parent(c, p) == 0 || (Desc(c, Parent(c, p), 0) && In(c, Parent(c, p), k)) by {
        if p != k { assert Desc(c, p, k); }
      }
      ClimbIn(c, H, k, Parent(c, p), e2);
    }
  }

  lemma {:induction false} UncoveredIn(c: Chart, H: History, k: int, p: int, ks: seq<int>, e: Entry)
    requires Founded(c) && HistorySane(c, H) && Has(c, k) && 0 < k && In(c, p, k) && Has(c, p)
    requires forall i :: 0 <= i < |ks| ==> Desc(c, ks[i], 0) && Real(c, ks[i]) && Desc(c, ks[i], p)
    ensures NewIn(c, k, e.states, AddUncovered(c, H, ks, 0, e).states)
    decreases |ks|
  {
    if ks != [] {
      assert NodeOk(c, 0) && Desc(c, ks[0], 0) && Real(c, ks[0]) && Desc(c, ks[0], p) && NodeOk(c, ks[0]);
      WeightWithin(c, ks[0], 0);
      EntryIsLocal(c, H, ks[0], e, e);
      var e0 := AddDescendants(c, H, ks[0], e);
      forall x | x in e0.states && x !in e.states ensures In(c, x, k) {
        assert Reach(c, ks[0], true, x);
        TransIn(c, x, ks[0], p);
        TransIn(c, x, p, k);
      }
      UncoveredIn(c, H, k, p, ks[1..], if Covered(c, e.states, ks[0]) then e else e0);
    }
  }

  ghost predicate ArmTaken(c: Chart, H: History, s: int, x: int)
    requires Founded(c)
  {
    exists r {:trigger SameArm(c, x, r)} :: Effective(c, H, s, r) && SameArm(c, x, r)
  }

  lemma TakenInZone(c: Chart, H: History, s: int, a: int, x: int)
    requires Enterable(c) && Recalls(c, H) && HistorySane(c, H) && Has(c, s) && 0 < s && 0 < a && Desc(c, a, 0)
      && In(c, x, a)
    requires forall y :: Zone(c, s, y) ==> In(c, y, a)
    ensures ArmTaken(c, H, s, x)
  {
    var r := SomeTarget(c, H, s);
    assert Zone(c, s, r);
    ArmOf(c, a, x, r);
  }

  /** Every state entered for a target lies in a child of the root that holds one of its effective states. */
  lemma {:induction false} EntryArms(c: Chart, H: History, s: int, e: Entry, x: int)
    requires Enterable(c) && Recalls(c, H) && HistorySane(c, H) && Has(c, s) && 0 < s
    requires x in AddDescendants(c, H, s, e).states && x !in e.states
    ensures ArmTaken(c, H, s, x)
    decreases Weight(c, s), if IsHistory(c, s) then 0 else 2, if IsHistory(c, s) then Rank(c, s) else 0, 1, 0
  {
    hide Recalls, Alike;
    assert NodeOk(c, s) && NodeOk(c, 0) && StateFounded(c, s) && Local(c, s);
    var p := Parent(c, s);
    EntryIsLocal(c, H, s, e, e);
    NewReaches(c, Anchor(c, s), TopOf(c, s), e.states, AddDescendants(c, H, s, e).states, x);
    if !IsHistory(c, s) {
      TakenInZone(c, H, s, s, x);
    } else if p != 0 {
      TakenInZone(c, H, s, p, x);
    } else if s in H {
      RecordExpandable(c, H, s);
      ListArms(c, H, H[s], false, Rank(c, s), e, x);
      var i :| 0 <= i < |H[s]| && ArmTaken(c, H, H[s][i], x);
      var r :| Effective(c, H, H[s][i], r) && SameArm(c, x, r);
      assert RecordSane(c, s, H[s]);
      assert Effective(c, H, s, r);
    } else {
      DefaultExpandable(c, s);
      ListArms(c, H, Initial(c, s), false, Rank(c, s), AddDefault(e, p, s), x);
      var i :| 0 <= i < |Initial(c, s)| && ArmTaken(c, H, Initial(c, s)[i], x);
      var r :| Effective(c, H, Initial(c, s)[i], r) && SameArm(c, x, r);
      assert Effective(c, H, s, r);
    }
  }

  lemma NewReaches(c: Chart, b: int, top: bool, E: set<int>, E': set<int>, x: int)
    requires Alike(c, b, top, E, E, E', E') && x in E' && x !in E
    ensures Reach(c, b, top, x)
  {}

  lemma {:induction false} ListArms(c: Chart, H: History, xs: seq<int>, whole: bool, rank: nat, e: Entry, x: int)
    requires Enterable(c) && Recalls(c, H) && HistorySane(c, H) && (whole || rank > 0)
    requires forall i :: 0 <= i < |xs| ==> 0 < xs[i] && Desc(c, xs[i], 0) && Expandable(c, xs[i], 0, whole, rank)
    requires x in AddAncestorsOf(c, H, xs, 0, AddDescendantsOf(c, H, xs, 0, whole, rank, e)).states && x !in e.states
    ensures exists i {:trigger xs[i]} :: 0 <= i < |xs| && ArmTaken(c, H, xs[i], x)
    decreases End(c, 0), if whole then 1 else 0, rank, 0, |xs| + 1
  {
    assert NodeOk(c, 0);
    var e1 := AddDescendantsOf(c, H, xs, 0, whole, rank, e);
    if x in e1.states {
      EachArms(c, H, xs, whole, rank, e, x);
    } else {
      ClimbArms(c, H, xs, e1, x);
      var i :| 0 <= i < |xs| && 0 < Parent(c, xs[i]) && SameArm(c, x, Parent(c, xs[i]));
      var p := Parent(c, xs[i]);
      assert NodeOk(c, xs[i]) && Desc(c, xs[i], p) && Desc(c, p, 0) && NodeOk(c, p);
      var r := SomeTarget(c, H, xs[i]);
      ZoneBelow(c, xs[i], r, p);
      ArmOf(c, p, p, r);
      ArmsJoin(c, x, p, r);
      assert ArmTaken(c, H, xs[i], x);
    }
  }

  lemma {:induction false} EachArms(c: Chart, H: History, xs: seq<int>, whole: bool, rank: nat, e: Entry, x: int)
    requires Enterable(c) && Recalls(c, H) && HistorySane(c, H)
    requires forall i :: 0 <= i < |xs| ==> 0 < xs[i] && Desc(c, xs[i], 0) && Expandable(c, xs[i], 0, whole, rank)
    requires Has(c, 0) && x in AddDescendantsOf(c, H, xs, 0, whole, rank, e).states && x !in e.states
    ensures exists i {:trigger xs[i]} :: 0 <= i < |xs| && ArmTaken(c, H, xs[i], x)
    decreases End(c, 0), if whole then 1 else 0, rank, 0, |xs|
  {
    hide Recalls, SameArm;
    assert NodeOk(c, 0) && xs != [] && 0 < xs[0] && Expandable(c, xs[0], 0, whole, rank);
    var e1 := AddDescendants(c, H, xs[0], e);
    if x in e1.states {
      EntryArms(c, H, xs[0], e, x);
    } else {
      EachArms(c, H, xs[1..], whole, rank, e1, x);
      var i :| 0 <= i < |xs[1..]| && ArmTaken(c, H, xs[1..][i], x);
      assert xs[i + 1] == xs[1..][i];
    }
  }

  lemma {:induction false} ClimbArms(c: Chart, H: History, xs: seq<int>, e: Entry, x: int)
    requires Founded(c) && HistorySane(c, H) && forall i :: 0 <= i < |xs| ==> Has(c, xs[i]) && Desc(c, xs[i], 0)
    requires Has(c, 0) && x in AddAncestorsOf(c, H, xs, 0, e).states && x !in e.states
    ensures exists i {:trigger xs[i]} :: 0 <= i < |xs| && 0 < Parent(c, xs[i]) && SameArm(c, x, Parent(c, xs[i]))
    decreases |xs|
  {
    assert xs != [] && NodeOk(c, 0) && NodeOk(c, xs[0]) && Desc(c, xs[0], 0);
    var p := Parent(c, xs[0]);
    var e1 := AddAncestors(c, H, p, 0, e);
    if x in e1.states {
      assert p != 0;
      assert NodeOk(c, p) && Desc(c, p, 0);
      var k := ChildToward(c, 0, p);
      ClimbIn(c, H, k, p, e);
      assert SameArm(c, x, p);
      assert xs[0] == xs[0];
    } else {
      ClimbArms(c, H, xs[1..], e1, x);
      var i :| 0 <= i < |xs[1..]| && 0 < Parent(c, xs[1..][i]) && SameArm(c, x, Parent(c, xs[1..][i]));
      assert xs[i + 1] == xs[1..][i];
    }
  }

  /** Some effective target of t lies in k. */
  ghost predicate AimedAt(c: Chart, H: History, t: Transition, k: int) {
    exists r {:trigger In(c, r, k)} :: r in EffectiveTargets(c, H, t) && In(c, r, k)
  }

  lemma ClimbsToRegion(c: Chart, H: History, t: Transition, k: int)
    requires Enterable(c) && Recalls(c, H) && HistorySane(c, H) && Has(c, t.source) && t.target != []
      && AllUnder(c, t.target, 0)
    requires Domain(c, H, t) == Some(0) && Real(c, k) && 0 < k && Parent(c, k) == 0 && AimedAt(c, H, t, k)
    ensures TargetsFounded(c, t) && k in EntryOf(c, H, t, NoEntry).states
  {
    hide Recalls, Complete, Settled, Whole, Domain, EffectiveTargets, SomeoneBelow, Alike;
    var d := DomainIs(c, H, t);
    assert NodeOk(c, 0) && NodeOk(c, k);
    BelowExpandable(c, t.target, 0);
    var rs := EffectiveTargets(c, H, t);
    var e1 := AddDescendantsOf(c, H, t.target, 0, true, 0, NoEntry);
    forall i | 0 <= i < |rs|
      ensures Has(c, rs[i]) && Desc(c, rs[i], 0) && SomeoneBelow(c, e1.states, Parent(c, rs[i]))
    {
      TargetsEnteredFirst(c, H, t, NoEntry, i);
    }
    ClimbsAreWhole(c, H, rs, 0, e1);
    AncestorsOfAreLocal(c, H, rs, 0, e1, e1);
    AlikeGrows(c, 0, false, e1.states, AddAncestorsOf(c, H, rs, 0, e1).states);
    var r :| r in rs && In(c, r, k);
    var i :| 0 <= i < |rs| && rs[i] == r;
    TargetsEnteredFirst(c, H, t, NoEntry, i);
    assert Climbed(c, AddAncestorsOf(c, H, rs, 0, e1).states, Parent(c, rs[i]), 0);
    if r != k { assert Desc(c, r, k); assert In(c, Parent(c, r), k) && Desc(c, k, 0); }
  }

  /** A region of the root is entered exactly when it holds an effective target. */
  lemma RegionEnteredIff(c: Chart, H: History, t: Transition, k: int)
    requires Enterable(c) && Recalls(c, H) && HistorySane(c, H) && Has(c, t.source) && t.target != []
      && AllUnder(c, t.target, 0)
    requires Domain(c, H, t) == Some(0) && Real(c, k) && 0 < k && Parent(c, k) == 0
    ensures TargetsFounded(c, t) && (k in EntryOf(c, H, t, NoEntry).states <==> AimedAt(c, H, t, k))
  {
    hide Recalls, AimedAt, Domain, EffectiveTargets;
    var d := DomainIs(c, H, t);
    assert NodeOk(c, 0);
    BelowExpandable(c, t.target, 0);
    var e1 := AddDescendantsOf(c, H, t.target, 0, true, 0, NoEntry);
    if AimedAt(c, H, t, k) { ClimbsToRegion(c, H, t, k); }
    if k in EntryOf(c, H, t, NoEntry).states {
      if k in e1.states { TargetAims(c, H, t, k); } else { ClimbAims(c, H, t, e1, k); }
    }
  }

  lemma ArmIs(c: Chart, k: int, r: int)
    requires Tree(c) && Has(c, k) && 0 < k && Parent(c, k) == 0 && SameArm(c, k, r)
    ensures In(c, r, k)
  {
    assert NodeOk(c, k);
    var l :| 0 < l && Parent(c, l) == 0 && In(c, k, l) && In(c, r, l);
    SameSibling(c, k, l, k);
  }

  lemma TargetAims(c: Chart, H: History, t: Transition, k: int)
    requires Enterable(c) && Recalls(c, H) && HistorySane(c, H) && AllUnder(c, t.target, 0) && Has(c, k) && 0 < k
      && Parent(c, k) == 0
    requires forall i :: 0 <= i < |t.target| ==>
      0 < t.target[i] && Desc(c, t.target[i], 0) && Expandable(c, t.target[i], 0, true, 0)
    requires Has(c, 0) && k in AddDescendantsOf(c, H, t.target, 0, true, 0, NoEntry).states
    ensures AimedAt(c, H, t, k)
  {
    EachArms(c, H, t.target, true, 0, NoEntry, k);
    var i :| 0 <= i < |t.target| && ArmTaken(c, H, t.target[i], k);
    var r :| Effective(c, H, t.target[i], r) && SameArm(c, k, r);
    EffectiveTargetsAre(c, H, t, r);
    ArmIs(c, k, r);
  }

  lemma ClimbAims(c: Chart, H: History, t: Transition, e: Entry, k: int)
    requires Founded(c) && HistorySane(c, H) && AllUnder(c, EffectiveTargets(c, H, t), 0) && Has(c, k) && 0 < k
      && Parent(c, k) == 0
    requires Has(c, 0) && k in AddAncestorsOf(c, H, EffectiveTargets(c, H, t), 0, e).states && k !in e.states
    ensures AimedAt(c, H, t, k)
  {
    var rs := EffectiveTargets(c, H, t);
    ClimbArms(c, H, rs, e, k);
    var i :| 0 <= i < |rs| && 0 < Parent(c, rs[i]) && SameArm(c, k, Parent(c, rs[i]));
    assert NodeOk(c, rs[i]) && Desc(c, rs[i], Parent(c, rs[i]));
    ArmIs(c, k, Parent(c, rs[i]));
    TransIn(c, rs[i], Parent(c, rs[i]), k);
  }

  /** A step whose domain is the parallel root keeps all regions exactly when each holds an effective target. */
  lemma ParallelRootIff(c: Chart, H: History, C: set<int>, t: Transition)
    requires Enterable(c) && Recalls(c, H) && HistorySane(c, H) && IsParallel(c, 0)
    requires Has(c, t.source) && t.target != [] && AllUnder(c, t.target, 0) && Domain(c, H, t) == Some(0)
    ensures TargetsFounded(c, t)
    ensures AllChildren(c, After(c, H, C, t), 0) <==>
      forall k {:trigger AimedAt(c, H, t, k)} :: Real(c, k) && Parent(c, k) == 0 ==> AimedAt(c, H, t, k)
  {
    assert NodeOk(c, 0);
    forall k {:trigger Parent(c, k)} {:trigger AimedAt(c, H, t, k)} | Real(c, k) && Parent(c, k) == 0
      ensures k in After(c, H, C, t) <==> AimedAt(c, H, t, k)
    {
      assert NodeOk(c, k);
      assert Desc(c, k, 0);
      RegionEnteredIff(c, H, t, k);
    }
  }
}
