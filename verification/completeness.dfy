/**
 What entering states always gets right (interpreter.go:787-862), in every chart the validator accepts
 and with any histories that recorded something: whatever is entered has all its ancestors up to the
 bound, a child if it is compound, and every region if it is parallel.  What may go wrong is only that a
 compound state gets two children.
 */
module Completeness {
  import opened Charts
  import opened Validator
  import opened WellFormed
  import opened EntrySets
  import opened Regions
  import opened Locality
  import opened Configurations
  import opened Transitions

  /** Every accepted chart. */
  ghost predicate Enterable(c: Chart) { Structured(c) && Founded(c) }

  /** Every history that recorded at all recorded something. */
  ghost predicate Recalls(c: Chart, H: History) { HistorySane(c, H) && forall h :: h in H ==> H[h] != [] }

  // ---- something is always entered ----

  lemma RecallsAnswer(c: Chart, H: History)
    requires Enterable(c) && Recalls(c, H)
    ensures Answers(c, H)
  {
    forall h {:trigger IsHistory(c, h)} | IsHistory(c, h) ensures if h in H then H[h] != [] else Initial(c, h) != [] {
      assert Local(c, h);
    }
  }

  lemma SomeTarget(c: Chart, H: History, s: int) returns (r: int)
    requires Enterable(c) && Recalls(c, H) && Has(c, s) && 0 < s
    ensures Effective(c, H, s, r) && Zone(c, s, r) && Real(c, r)
  {
    RecallsAnswer(c, H);
    r := SomeEffective(c, H, s);
    EffectiveInZone(c, H, s, r);
  }

  // ---- what a newly entered state has ----

  ghost predicate Settled(c: Chart, E: set<int>, x: int, b: int) {
    Real(c, x) && Complete(c, E, x) && Climbed(c, E, x, b)
  }

  ghost predicate Whole(c: Chart, E: set<int>, E': set<int>, b: int) {
    E <= E' && forall x {:trigger Settled(c, E', x, b)} :: x in E' && x !in E ==> Settled(c, E', x, b)
  }

  /** x belongs to the part of the chart that some target of the list stands for. */
  ghost predicate SettledAmong(c: Chart, E: set<int>, xs: seq<int>, x: int) {
    exists i :: 0 <= i < |xs| && SettledIn(c, E, xs[i], x)
  }

  ghost predicate SettledIn(c: Chart, E: set<int>, t: int, x: int) {
    Settled(c, E, x, Anchor(c, t)) && Zone(c, t, x) && (!IsHistory(c, t) ==> t in E)
  }

  ghost predicate WholeEach(c: Chart, E: set<int>, E': set<int>, xs: seq<int>) {
    E <= E' && forall x {:trigger SettledAmong(c, E', xs, x)} :: x in E' && x !in E ==> SettledAmong(c, E', xs, x)
  }

  lemma SettledGrows(c: Chart, E: set<int>, F: set<int>, x: int, b: int)
    requires E <= F && Settled(c, E, x, b)
    ensures Settled(c, F, x, b)
  {
    CompleteGrows(c, E, F, x);
  }

  lemma WholeTrans(c: Chart, E: set<int>, E1: set<int>, E2: set<int>, b: int)
    requires Whole(c, E, E1, b) && Whole(c, E1, E2, b)
    ensures Whole(c, E, E2, b)
  {
    hide Settled;
    forall x {:trigger Settled(c, E2, x, b)} | x in E2 && x !in E ensures Settled(c, E2, x, b) {
      if x in E1 { SettledGrows(c, E1, E2, x, b); }
    }
  }

  lemma SettledAmongMore(c: Chart, E: set<int>, F: set<int>, xs: seq<int>, ys: seq<int>, x: int)
    requires E <= F && SettledAmong(c, E, xs, x) && forall t :: t in xs ==> t in ys
    ensures SettledAmong(c, F, ys, x)
  {
    hide Settled;
    var i :| 0 <= i < |xs| && SettledIn(c, E, xs[i], x);
    SettledGrows(c, E, F, x, Anchor(c, xs[i]));
    assert xs[i] in ys;
    var j :| 0 <= j < |ys| && ys[j] == xs[i];
    assert SettledIn(c, F, ys[j], x);
  }

  lemma WholeEachMore(c: Chart, E: set<int>, E1: set<int>, E2: set<int>, xs: seq<int>)
    requires xs != [] && Whole(c, E, E1, Anchor(c, xs[0])) && WholeEach(c, E1, E2, xs[1..])
      && (!IsHistory(c, xs[0]) ==> xs[0] in E1)
    requires forall x :: x in E1 && x !in E ==> Zone(c, xs[0], x)
    ensures WholeEach(c, E, E2, xs)
  {
    hide Settled;
    forall x {:trigger SettledAmong(c, E2, xs, x)} | x in E2 && x !in E ensures SettledAmong(c, E2, xs, x) {
      if x in E1 {
        assert Settled(c, E1, x, Anchor(c, xs[0]));
        SettledGrows(c, E1, E2, x, Anchor(c, xs[0]));
        assert SettledIn(c, E2, xs[0], x);
      } else {
        assert forall t :: t in xs[1..] ==> t in xs;
        SettledAmongMore(c, E2, E2, xs[1..], xs, x);
      }
    }
  }

  /** With its target's own ancestors entered, a state has all of its ancestors. */
  lemma Connected(c: Chart, E: set<int>, t: int, x: int, b: int)
    requires Tree(c) && Has(c, t) && 0 <= b && Desc(c, t, b) && SettledIn(c, E, t, x) && Climbed(c, E, Parent(c, t), b)
    ensures Settled(c, E, x, b)
  {
    assert NodeOk(c, t);
    forall q {:trigger q in E} | In(c, x, q) && Desc(c, q, b) ensures q in E {
      if Desc(c, q, Anchor(c, t)) {
      } else if q == Anchor(c, t) {
        if IsHistory(c, t) { assert In(c, Parent(c, t), q); }
      } else {
        Nested(c, x, q, Anchor(c, t));
        assert Desc(c, Anchor(c, t), q);
        AboveParent(c, t, q);
      }
    }
  }

  lemma AboveParent(c: Chart, t: int, q: int)
    requires Tree(c) && Has(c, t) && 0 <= q && Desc(c, Anchor(c, t), q)
    ensures In(c, Parent(c, t), q)
  {
    assert NodeOk(c, t);
    if !IsHistory(c, t) { assert q <= Parent(c, t) && Desc(c, t, q); }
  }

  // ---- the recursion ----

  lemma {:induction false} EntryIsWhole(c: Chart, H: History, s: int, e: Entry)
    requires Enterable(c) && Recalls(c, H) && Has(c, s)
    ensures Whole(c, e.states, AddDescendants(c, H, s, e).states, Anchor(c, s))
    ensures !IsHistory(c, s) ==> s in AddDescendants(c, H, s, e).states
    decreases Weight(c, s), if IsHistory(c, s) then 0 else 2, if IsHistory(c, s) then Rank(c, s) else 0, 1, 0
  {
    hide Whole, Recalls, Complete;
    assert NodeOk(c, s) && StateFounded(c, s) && Local(c, s);
    RecallsSane(c, H);
    var p := Parent(c, s);
    if IsHistory(c, s) {
      if s in H {
        RecordExpandable(c, H, s);
        ListIsWhole(c, H, H[s], p, false, Rank(c, s), e);
      } else {
        DefaultExpandable(c, s);
        ListIsWhole(c, H, Initial(c, s), p, false, Rank(c, s), AddDefault(e, p, s));
      }
    } else if IsCompound(c, s) {
      var e1 := AddDefault(AddState(e, s), s, s);
      BelowExpandable(c, Initial(c, s), s);
      ListIsWhole(c, H, Initial(c, s), s, true, 0, e1);
      CompoundIsComplete(c, H, s, e1);
      WholeGrows(c, e1.states, AddDescendants(c, H, s, e).states, s);
      TopSettled(c, e.states, s, AddDescendants(c, H, s, e).states);
    } else if IsParallel(c, s) {
      ChildrenExpandable(c, s);
      ChildrenBelow(c, s, s);
      EachIsWhole(c, H, RealChildren(c, s), s, true, 0, AddState(e, s));
      ParallelIsComplete(c, H, s, AddState(e, s));
      ChildrenSettled(c, e.states, s, AddDescendants(c, H, s, e).states);
    } else {
      LeafSettled(c, e.states, s);
    }
  }

  lemma RecallsSane(c: Chart, H: History)
    requires Recalls(c, H)
    ensures HistorySane(c, H)
  {}

  lemma LeafSettled(c: Chart, E: set<int>, s: int)
    requires Tree(c) && Real(c, s) && IsAtomic(c, s)
    ensures Whole(c, E, E + {s}, s)
  {
    forall x {:trigger Settled(c, E + {s}, x, s)} | x in E + {s} && x !in E ensures Settled(c, E + {s}, x, s) {}
  }

  /** The state itself, and what was entered below it. */
  lemma TopSettled(c: Chart, E: set<int>, s: int, E': set<int>)
    requires Real(c, s) && Complete(c, E', s) && Whole(c, E + {s}, E', s)
    ensures Whole(c, E, E', s)
  {
    forall x {:trigger Settled(c, E', x, s)} | x in E' && x !in E ensures Settled(c, E', x, s) {}
  }

  lemma ChildrenSettled(c: Chart, E: set<int>, s: int, E': set<int>)
    requires Tree(c) && IsParallel(c, s) && Complete(c, E', s) && WholeEach(c, E + {s}, E', RealChildren(c, s))
    ensures Whole(c, E, E', s)
  {
    hide Complete;
    var ks := RealChildren(c, s);
    forall x {:trigger Settled(c, E', x, s)} | x in E' && x !in E ensures Settled(c, E', x, s) {
      if x != s {
        assert SettledAmong(c, E', ks, x);
        var i :| 0 <= i < |ks| && SettledIn(c, E', ks[i], x);
        RealsAre(c, Children(c, s), ks[i]);
        assert NodeOk(c, s) && NodeOk(c, ks[i]);
        assert Desc(c, ks[i], s) && Parent(c, ks[i]) == s;
        Connected(c, E', ks[i], x, s);
      }
    }
  }

  lemma CompoundIsComplete(c: Chart, H: History, s: int, e: Entry)
    requires Enterable(c) && Recalls(c, H) && IsCompound(c, s)
    requires forall i :: 0 <= i < |Initial(c, s)| ==>
      0 < Initial(c, s)[i] && Desc(c, Initial(c, s)[i], s) && Expandable(c, Initial(c, s)[i], s, true, 0)
    ensures var E' := AddAncestorsOf(c, H, Initial(c, s), s,
      AddDescendantsOf(c, H, Initial(c, s), s, true, 0, e)).states; Complete(c, E', s)
  {
    assert Local(c, s) && NodeOk(c, s);
    var xs := Initial(c, s);
    assert Has(c, xs[0]);
    var r := SomeTarget(c, H, xs[0]);
    RecallsSane(c, H);
    EffectiveAmong(c, H, xs, s, true, 0, e, 0, r);
    var e1 := AddDescendantsOf(c, H, xs, s, true, 0, e);
    AncestorsOfAreLocal(c, H, xs, s, e1, e1);
    ZoneBelow(c, xs[0], r, s);
    CoveredToward(c, AddAncestorsOf(c, H, xs, s, e1).states, s, r);
  }

  /** A state below s covers the real child of s on the way. */
  lemma CoveredToward(c: Chart, E: set<int>, s: int, w: int)
    requires Structured(c) && Has(c, s) && w in E && Real(c, w) && Desc(c, w, s)
    ensures exists k {:trigger Covered(c, E, k)} :: Real(c, k) && Parent(c, k) == s && Covered(c, E, k)
  {
    var k := ChildToward(c, s, w);
    assert Real(c, k) by { if k != w { ParentIsReal(c, w, k); } }
    assert In(c, w, k);
    assert Covered(c, E, k);
  }

  lemma ParallelIsComplete(c: Chart, H: History, s: int, e: Entry)
    requires Enterable(c) && Recalls(c, H) && IsParallel(c, s)
    requires forall i :: 0 <= i < |RealChildren(c, s)| ==>
      0 < RealChildren(c, s)[i] && Desc(c, RealChildren(c, s)[i], s) && Expandable(c, RealChildren(c, s)[i], s, true, 0)
    ensures Complete(c, AddDescendantsOf(c, H, RealChildren(c, s), s, true, 0, e).states, s)
  {
    RecallsSane(c, H);
    var ks := RealChildren(c, s);
    var E' := AddDescendantsOf(c, H, ks, s, true, 0, e).states;
    forall k {:trigger Covered(c, E', k)} | Real(c, k) && Parent(c, k) == s ensures Covered(c, E', k) {
      assert NodeOk(c, s) && NodeOk(c, k);
      RealsAre(c, Children(c, s), k);
      var i :| 0 <= i < |ks| && ks[i] == k;
      assert Effective(c, H, ks[i], k);
      EffectiveAmong(c, H, ks, s, true, 0, e, i, k);
      assert In(c, k, k);
    }
  }

  lemma {:induction false} EachIsWhole(c: Chart, H: History, xs: seq<int>, b: int, whole: bool, rank: nat, e: Entry)
    requires Enterable(c) && Recalls(c, H) && HistorySane(c, H) && Has(c, b)
    requires forall i :: 0 <= i < |xs| ==> 0 < xs[i] && Desc(c, xs[i], b) && Expandable(c, xs[i], b, whole, rank)
    ensures WholeEach(c, e.states, AddDescendantsOf(c, H, xs, b, whole, rank, e).states, xs)
    decreases End(c, b) - b, if whole then 1 else 0, rank, 0, |xs|
  {
    hide Whole, WholeEach, Recalls, Complete, Alike;
    if xs == [] {
      NothingWhole(c, e.states);
    } else {
      assert NodeOk(c, b) && 0 < xs[0] && Expandable(c, xs[0], b, whole, rank) && Desc(c, xs[0], b);
      var e1 := AddDescendants(c, H, xs[0], e);
      EntryIsWhole(c, H, xs[0], e);
      EntryIsLocal(c, H, xs[0], e, e);
      EachIsWhole(c, H, xs[1..], b, whole, rank, e1);
      NewInside(c, xs[0], e.states, e1.states);
      WholeEachMore(c, e.states, e1.states, AddDescendantsOf(c, H, xs, b, whole, rank, e).states, xs);
    }
  }

  lemma NothingWhole(c: Chart, E: set<int>)
    ensures WholeEach(c, E, E, []) && forall b :: Whole(c, E, E, b)
  {}

  lemma NewInside(c: Chart, t: int, E: set<int>, E': set<int>)
    requires Tree(c) && Has(c, t) && Has(c, Anchor(c, t)) && Alike(c, Anchor(c, t), TopOf(c, t), E, E, E', E')
    ensures forall x :: x in E' && x !in E ==> Zone(c, t, x)
  {
    assert NodeOk(c, Anchor(c, t));
    forall x | x in E' && x !in E ensures Zone(c, t, x) { assert Reach(c, Anchor(c, t), TopOf(c, t), x); }
  }

  /** A target list with its ancestors. */
  lemma {:induction false} ListIsWhole(c: Chart, H: History, xs: seq<int>, b: int, whole: bool, rank: nat, e: Entry)
    requires Enterable(c) && Recalls(c, H) && HistorySane(c, H) && Has(c, b) && (whole || rank > 0)
    requires forall i :: 0 <= i < |xs| ==> 0 < xs[i] && Desc(c, xs[i], b) && Expandable(c, xs[i], b, whole, rank)
    ensures Whole(c, e.states, AddAncestorsOf(c, H, xs, b, AddDescendantsOf(c, H, xs, b, whole, rank, e)).states, b)
    decreases End(c, b) - b, if whole then 1 else 0, rank, 0, |xs| + 1
  {
    hide Whole, WholeEach, Recalls, Complete;
    assert NodeOk(c, b);
    var e1 := AddDescendantsOf(c, H, xs, b, whole, rank, e);
    EachIsWhole(c, H, xs, b, whole, rank, e);
    forall i | 0 <= i < |xs| ensures Has(c, xs[i]) && SomeoneBelow(c, e1.states, Parent(c, xs[i])) {
      assert NodeOk(c, b) && Expandable(c, xs[i], b, whole, rank);
      var r := SomeTarget(c, H, xs[i]);
      EffectiveAmong(c, H, xs, b, whole, rank, e, i, r);
      assert NodeOk(c, xs[i]);
      ZoneBelow(c, xs[i], r, Parent(c, xs[i]));
    }
    ClimbsAreWhole(c, H, xs, b, e1);
    AllConnected(c, e.states, e1.states, AddAncestorsOf(c, H, xs, b, e1).states, xs, b);
  }

  ghost predicate SomeoneBelow(c: Chart, E: set<int>, p: int) { exists w :: w in E && Real(c, w) && Desc(c, w, p) }

  lemma AllConnected(c: Chart, E: set<int>, E1: set<int>, E2: set<int>, xs: seq<int>, b: int)
    requires Tree(c) && 0 <= b && (forall i :: 0 <= i < |xs| ==> Has(c, xs[i]) && Desc(c, xs[i], b))
    requires WholeEach(c, E, E1, xs) && Whole(c, E1, E2, b) && forall i :: 0 <= i < |xs| ==>
      Climbed(c, E2, Parent(c, xs[i]), b)
    ensures Whole(c, E, E2, b)
  {
    hide Complete, Climbed, Tree;
    forall x {:trigger Settled(c, E2, x, b)} | x in E2 && x !in E ensures Settled(c, E2, x, b) {
      if x in E1 {
        assert SettledAmong(c, E1, xs, x);
        var i :| 0 <= i < |xs| && SettledIn(c, E1, xs[i], x);
        SettledGrows(c, E1, E2, x, Anchor(c, xs[i]));
        Connected(c, E2, xs[i], x, b);
      }
    }
  }

  lemma {:induction false} ClimbsAreWhole(c: Chart, H: History, xs: seq<int>, b: int, e: Entry)
    requires Enterable(c) && Recalls(c, H) && HistorySane(c, H) && Has(c, b)
    requires forall i :: 0 <= i < |xs| ==>
      Has(c, xs[i]) && Desc(c, xs[i], b)
      && SomeoneBelow(c, e.states, Parent(c, xs[i]))
    ensures var E' := AddAncestorsOf(c, H, xs, b, e).states;
      Whole(c, e.states, E', b) && forall i :: 0 <= i < |xs| ==> Climbed(c, E', Parent(c, xs[i]), b)
    decreases End(c, b) - b, 0, 0, 2, |xs|
  {
    hide Whole, Recalls, Complete, Climbed;
    if xs == [] {
      NothingWhole(c, e.states);
    } else {
      assert Desc(c, xs[0], b) && NodeOk(c, xs[0]);
      var e1 := AddAncestors(c, H, Parent(c, xs[0]), b, e);
      ClimbIsWhole(c, H, Parent(c, xs[0]), b, e);
      WholeGrows(c, e.states, e1.states, b);
      var rest := xs[1..];
      forall i | 0 <= i < |rest|
        ensures Has(c, rest[i]) && Desc(c, rest[i], b) && SomeoneBelow(c, e1.states, Parent(c, rest[i]))
      {
        assert rest[i] == xs[i + 1];
        SomeoneStays(c, e.states, e1.states, Parent(c, rest[i]));
      }
      ClimbsAreWhole(c, H, rest, b, e1);
      var E' := AddAncestorsOf(c, H, xs, b, e).states;
      WholeTrans(c, e.states, e1.states, E', b);
      WholeGrows(c, e1.states, E', b);
      forall i | 0 <= i < |xs| ensures Climbed(c, E', Parent(c, xs[i]), b) {
        if i == 0 { ClimbedStays(c, e1.states, E', Parent(c, xs[0]), b); } else { assert xs[i] == rest[i - 1]; }
      }
    }
  }

  lemma WholeGrows(c: Chart, E: set<int>, E': set<int>, b: int)
    requires Whole(c, E, E', b)
    ensures E <= E'
  {}

  lemma SomeoneStays(c: Chart, E: set<int>, F: set<int>, p: int)
    requires E <= F && SomeoneBelow(c, E, p)
    ensures SomeoneBelow(c, F, p)
  {}

  lemma ClimbedStays(c: Chart, E: set<int>, F: set<int>, p: int, b: int)
    requires E <= F && Climbed(c, E, p, b)
    ensures Climbed(c, F, p, b)
  {}

  lemma {:induction false} ClimbIsWhole(c: Chart, H: History, p: int, b: int, e: Entry)
    requires Enterable(c) && Recalls(c, H) && HistorySane(c, H) && Has(c, b) && (p == b || Desc(c, p, b))
      && SomeoneBelow(c, e.states, p)
    ensures var E' := AddAncestors(c, H, p, b, e).states; Whole(c, e.states, E', b) && Climbed(c, E', p, b)
    decreases End(c, b) - b, 0, 0, 1, p
  {
    hide Whole, Recalls, Complete, Settled;
    if p == b {
      NothingWhole(c, e.states);
    } else {
      assert Has(c, p) && NodeOk(c, p) by { assert NodeOk(c, b); }
      var w :| w in e.states && Real(c, w) && Desc(c, w, p);
      ParentIsReal(c, w, p);
      ChildrenBelow(c, p, b);
      assert b <= Parent(c, p) && Desc(c, p, Parent(c, p));
      var e1 := AddState(e, p);
      var e2 := if IsParallel(c, p) then AddUncovered(c, H, RealChildren(c, p), b, e1) else e1;
      if IsParallel(c, p) {
        UncoveredIsWhole(c, H, RealChildren(c, p), b, e1);
      } else {
        NothingRegional(c, e1.states, p);
      }
      assert SomeoneBelow(c, e2.states, Parent(c, p)) by { assert p in e2.states; }
      ClimbIsWhole(c, H, Parent(c, p), b, e2);
      ClimbJoins(c, e.states, e2.states, AddAncestors(c, H, Parent(c, p), b, e2).states, p, b, w);
    }
  }

  /** The regions of p that were entered, and that all its regions are covered. */
  ghost predicate Regional(c: Chart, E: set<int>, E': set<int>, ks: seq<int>) {
    && E <= E' && (forall x {:trigger SettledAmong(c, E', ks, x)} :: x in E' && x !in E ==> SettledAmong(c, E', ks, x))
    && forall i :: 0 <= i < |ks| ==> Covered(c, E', ks[i])
  }

  lemma NothingRegional(c: Chart, E: set<int>, p: int)
    ensures !IsParallel(c, p) ==> Regional(c, E, E, [])
  {}

  lemma ClimbJoins(c: Chart, E: set<int>, E2: set<int>, E3: set<int>, p: int, b: int, w: int)
    requires Structured(c) && 0 <= b && Desc(c, p, b) && Real(c, p) && w in E && Real(c, w) && Desc(c, w, p)
    requires Regional(c, E + {p}, E2, if IsParallel(c, p) then RealChildren(c, p) else [])
    requires Whole(c, E2, E3, b) && Climbed(c, E3, Parent(c, p), b)
    ensures Whole(c, E, E3, b) && Climbed(c, E3, p, b)
  {
    assert NodeOk(c, p);
    forall q {:trigger q in E3} | In(c, p, q) && Desc(c, q, b) ensures q in E3 {
      if q != p { assert Desc(c, p, q); assert In(c, Parent(c, p), q); }
    }
    var ks := if IsParallel(c, p) then RealChildren(c, p) else [];
    assert Complete(c, E3, p) by { ClimberIsComplete(c, E2, E3, p, w); }
    hide Complete, Climbed;
    forall x {:trigger Settled(c, E3, x, b)} | x in E3 && x !in E ensures Settled(c, E3, x, b) {
      if x == p {
      } else if x in E2 {
        assert SettledAmong(c, E2, ks, x);
        var i :| 0 <= i < |ks| && SettledIn(c, E2, ks[i], x);
        RealsAre(c, Children(c, p), ks[i]);
        assert NodeOk(c, ks[i]) && Parent(c, ks[i]) == p && Desc(c, ks[i], p);
        SettledGrows(c, E2, E3, x, ks[i]);
        TransDesc(c, ks[i], p, b);
        Connected(c, E3, ks[i], x, b);
      }
    }
  }

  lemma ClimberIsComplete(c: Chart, E2: set<int>, E3: set<int>, p: int, w: int)
    requires Structured(c) && Has(c, p) && w in E2 && E2 <= E3 && Real(c, w) && Desc(c, w, p)
    requires IsParallel(c, p) ==> forall i :: 0 <= i < |RealChildren(c, p)| ==> Covered(c, E2, RealChildren(c, p)[i])
    ensures Complete(c, E3, p)
  {
    if IsCompound(c, p) { CoveredToward(c, E3, p, w); }
    if IsParallel(c, p) {
      forall k {:trigger Covered(c, E3, k)} | Real(c, k) && Parent(c, k) == p ensures Covered(c, E3, k) {
        assert NodeOk(c, p);
        RealsAre(c, Children(c, p), k);
        var i :| 0 <= i < |RealChildren(c, p)| && RealChildren(c, p)[i] == k;
        var x :| x in E2 && In(c, x, k);
        assert x in E3;
      }
    }
  }

  lemma {:induction false} UncoveredIsWhole(c: Chart, H: History, ks: seq<int>, b: int, e: Entry)
    requires Enterable(c) && Recalls(c, H) && HistorySane(c, H) && Has(c, b)
    requires forall i :: 0 <= i < |ks| ==> Desc(c, ks[i], b) && Real(c, ks[i])
    ensures Regional(c, e.states, AddUncovered(c, H, ks, b, e).states, ks)
    decreases End(c, b) - b, 0, 0, 0, |ks|
  {
    hide Whole, Recalls, Complete, Settled, Regional, Alike;
    if ks == [] {
      assert Regional(c, e.states, e.states, []) by { NoRegions(c, e.states); }
    } else {
      assert Desc(c, ks[0], b) && Real(c, ks[0]) && NodeOk(c, ks[0]);
      WeightWithin(c, ks[0], b);
      EntryIsWhole(c, H, ks[0], e);
      EntryIsLocal(c, H, ks[0], e, e);
      NewInside(c, ks[0], e.states, AddDescendants(c, H, ks[0], e).states);
      var e1 := if Covered(c, e.states, ks[0]) then e else AddDescendants(c, H, ks[0], e);
      UncoveredIsWhole(c, H, ks[1..], b, e1);
      RegionJoins(c, e.states, e1.states, AddUncovered(c, H, ks, b, e).states, ks);
    }
  }

  lemma NoRegions(c: Chart, E: set<int>)
    ensures Regional(c, E, E, [])
  {}

  lemma RegionJoins(c: Chart, E: set<int>, E1: set<int>, E2: set<int>, ks: seq<int>)
    requires ks != [] && Tree(c) && Real(c, ks[0]) && Regional(c, E1, E2, ks[1..])
    requires if Covered(c, E, ks[0]) then E1 == E
             else Whole(c, E, E1, ks[0]) && ks[0] in E1 && forall x :: x in E1 && x !in E ==> In(c, x, ks[0])
    ensures Regional(c, E, E2, ks)
  {
    hide Settled;
    forall x {:trigger SettledAmong(c, E2, ks, x)} | x in E2 && x !in E ensures SettledAmong(c, E2, ks, x) {
      if x in E1 {
        assert Settled(c, E1, x, ks[0]);
        SettledGrows(c, E1, E2, x, ks[0]);
        assert SettledIn(c, E2, ks[0], x);
      } else {
        assert forall t :: t in ks[1..] ==> t in ks;
        SettledAmongMore(c, E2, E2, ks[1..], ks, x);
      }
    }
    forall i | 0 <= i < |ks| ensures Covered(c, E2, ks[i]) {
      if i == 0 {
        assert NodeOk(c, ks[0]);
        var x := if Covered(c, E, ks[0]) then (var y :| y in E && In(c, y, ks[0]); y) else ks[0];
        assert x in E2 && In(c, x, ks[0]);
      } else {
        assert ks[i] == ks[1..][i - 1];
      }
    }
  }

  // ---- only real states are entered, whatever is recorded ----

  ghost predicate AllReal(c: Chart, E: set<int>) { forall x :: x in E ==> Real(c, x) }

  lemma {:induction false} EntryIsReal(c: Chart, H: History, s: int, e: Entry)
    requires Enterable(c) && HistorySane(c, H) && Has(c, s) && AllReal(c, e.states)
    ensures AllReal(c, AddDescendants(c, H, s, e).states)
    decreases Weight(c, s), if IsHistory(c, s) then 0 else 2, if IsHistory(c, s) then Rank(c, s) else 0, 1, 0
  {
    hide AllReal;
    assert NodeOk(c, s) && StateFounded(c, s);
    var p := Parent(c, s);
    if IsHistory(c, s) {
      if s in H {
        RecordExpandable(c, H, s);
        ListIsReal(c, H, H[s], p, false, Rank(c, s), e);
      } else {
        DefaultExpandable(c, s);
        ListIsReal(c, H, Initial(c, s), p, false, Rank(c, s), AddDefault(e, p, s));
      }
    } else {
      OneMoreReal(c, e.states, s);
      if IsCompound(c, s) {
        BelowExpandable(c, Initial(c, s), s);
        ListIsReal(c, H, Initial(c, s), s, true, 0, AddDefault(AddState(e, s), s, s));
      } else if IsParallel(c, s) {
        ChildrenExpandable(c, s);
        EachIsReal(c, H, RealChildren(c, s), s, true, 0, AddState(e, s));
      }
    }
  }

  lemma OneMoreReal(c: Chart, E: set<int>, s: int)
    requires AllReal(c, E) && Real(c, s)
    ensures AllReal(c, E + {s})
  {}

  lemma {:induction false} ListIsReal(c: Chart, H: History, xs: seq<int>, b: int, whole: bool, rank: nat, e: Entry)
    requires Enterable(c) && HistorySane(c, H) && Has(c, b) && (whole || rank > 0) && AllReal(c, e.states)
    requires forall i :: 0 <= i < |xs| ==> 0 < xs[i] && Desc(c, xs[i], b) && Expandable(c, xs[i], b, whole, rank)
    ensures AllReal(c, AddAncestorsOf(c, H, xs, b, AddDescendantsOf(c, H, xs, b, whole, rank, e)).states)
    decreases End(c, b) - b, if whole then 1 else 0, rank, 0, |xs| + 1
  {
    hide AllReal;
    EachIsReal(c, H, xs, b, whole, rank, e);
    assert NodeOk(c, b);
    ClimbsAreReal(c, H, xs, b, AddDescendantsOf(c, H, xs, b, whole, rank, e));
  }

  lemma {:induction false} EachIsReal(c: Chart, H: History, xs: seq<int>, b: int, whole: bool, rank: nat, e: Entry)
    requires Enterable(c) && HistorySane(c, H) && Has(c, b) && AllReal(c, e.states)
    requires forall i :: 0 <= i < |xs| ==> 0 < xs[i] && Expandable(c, xs[i], b, whole, rank)
    ensures AllReal(c, AddDescendantsOf(c, H, xs, b, whole, rank, e).states)
    decreases End(c, b) - b, if whole then 1 else 0, rank, 0, |xs|
  {
    hide AllReal;
    if xs != [] {
      assert NodeOk(c, b) && 0 < xs[0] && Expandable(c, xs[0], b, whole, rank);
      EntryIsReal(c, H, xs[0], e);
      EachIsReal(c, H, xs[1..], b, whole, rank, AddDescendants(c, H, xs[0], e));
    }
  }

  lemma {:induction false} ClimbsAreReal(c: Chart, H: History, xs: seq<int>, b: int, e: Entry)
    requires Enterable(c) && HistorySane(c, H) && Has(c, b) && AllReal(c, e.states)
    requires forall i :: 0 <= i < |xs| ==> Has(c, xs[i]) && Desc(c, xs[i], b)
    ensures AllReal(c, AddAncestorsOf(c, H, xs, b, e).states)
    decreases End(c, b) - b, 0, 0, 2, |xs|
  {
    hide AllReal;
    if xs != [] {
      assert Desc(c, xs[0], b) && NodeOk(c, b) && NodeOk(c, xs[0]);
      ClimbIsReal(c, H, Parent(c, xs[0]), b, e, xs[0]);
      ClimbsAreReal(c, H, xs[1..], b, AddAncestors(c, H, Parent(c, xs[0]), b, e));
    }
  }

  lemma {:induction false} ClimbIsReal(c: Chart, H: History, p: int, b: int, e: Entry, w: int)
    requires Enterable(c) && HistorySane(c, H) && Has(c, b) && AllReal(c, e.states)
    requires (p == b || Desc(c, p, b)) && Desc(c, w, p)
    ensures AllReal(c, AddAncestors(c, H, p, b, e).states)
    decreases End(c, b) - b, 0, 0, 1, p
  {
    hide AllReal;
    if p != b {
      assert Has(c, p) && NodeOk(c, p) by { assert NodeOk(c, b); }
      ParentIsReal(c, w, p);
      OneMoreReal(c, e.states, p);
      ChildrenBelow(c, p, b);
      assert b <= Parent(c, p) && Desc(c, p, Parent(c, p));
      var e1 := AddState(e, p);
      if IsParallel(c, p) { UncoveredIsReal(c, H, RealChildren(c, p), b, e1); }
      ClimbIsReal(c, H, Parent(c, p), b,
        if IsParallel(c, p) then AddUncovered(c, H, RealChildren(c, p), b, e1) else e1, p);
    }
  }

  lemma {:induction false} UncoveredIsReal(c: Chart, H: History, ks: seq<int>, b: int, e: Entry)
    requires Enterable(c) && HistorySane(c, H) && Has(c, b) && AllReal(c, e.states)
    requires forall i :: 0 <= i < |ks| ==> Desc(c, ks[i], b) && Real(c, ks[i])
    ensures AllReal(c, AddUncovered(c, H, ks, b, e).states)
    decreases End(c, b) - b, 0, 0, 0, |ks|
  {
    hide AllReal;
    if ks != [] {
      assert Desc(c, ks[0], b) && Real(c, ks[0]);
      WeightWithin(c, ks[0], b);
      EntryIsReal(c, H, ks[0], e);
      UncoveredIsReal(c, H, ks[1..], b, if Covered(c, e.states, ks[0]) then e else AddDescendants(c, H, ks[0], e));
    }
  }

  lemma EntryOfIsReal(c: Chart, H: History, t: Transition, e: Entry)
    requires Enterable(c) && HistorySane(c, H) && TargetsFounded(c, t) && AllReal(c, e.states)
    ensures AllReal(c, EntryOf(c, H, t, e).states)
  {
    hide AllReal;
    assert NodeOk(c, 0);
    if t.target == [0] {
      EntryIsReal(c, H, 0, e);
    } else if t.target != [] {
      BelowExpandable(c, t.target, 0);
      TargetsUnderDomain(c, H, t);
      EachIsReal(c, H, t.target, 0, true, 0, e);
      if Domain(c, H, t).Some? {
        ClimbsAreReal(c, H, EffectiveTargets(c, H, t), Domain(c, H, t).value,
          AddDescendantsOf(c, H, t.target, 0, true, 0, e));
      }
    }
  }

  /** Whatever transitions are taken from whatever configuration, only real states are entered. */
  lemma {:induction false} EntrySetIsReal(c: Chart, H: History, ts: seq<Transition>, e: Entry)
    requires Enterable(c) && HistorySane(c, H) && AllFounded(c, ts) && AllReal(c, e.states)
    ensures AllReal(c, EntrySet(c, H, ts, e).states)
    decreases |ts|
  {
    hide AllReal, HistorySane;
    if ts != [] {
      var rest := ts[1..];
      forall i {:trigger TargetsFounded(c, rest[i])} | 0 <= i < |rest| ensures TargetsFounded(c, rest[i]) {
        assert TargetsFounded(c, ts[i + 1]);
      }
      assert TargetsFounded(c, ts[0]);
      EntryOfIsReal(c, H, ts[0], e);
      EntrySetIsReal(c, H, rest, EntryOf(c, H, ts[0], e));
    }
  }
}
