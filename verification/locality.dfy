/**
 Entering a state adds states only inside the part of the chart the state stands for, and what it adds
 there depends only on what was already entered there.
 */
module Locality {
  import opened Charts
  import opened Validator
  import opened WellFormed
  import opened EntrySets
  import opened Regions

  /** Everything below b, and b itself if `top`. */
  ghost predicate Reach(c: Chart, b: int, top: bool, x: int) { Desc(c, x, b) || (top && x == b) }

  ghost predicate Agree(c: Chart, b: int, top: bool, E: set<int>, F: set<int>) {
    forall x {:trigger Reach(c, b, top, x)} :: Reach(c, b, top, x) ==> (x in E <==> x in F)
  }

  ghost predicate Grown(c: Chart, b: int, top: bool, E: set<int>, E': set<int>) {
    E <= E' && forall x :: x in E' && x !in E ==> Reach(c, b, top, x)
  }

  /** E became E' and F became F', inside the same part of the chart and in the same way there. */
  ghost predicate Alike(c: Chart, b: int, top: bool, E: set<int>, F: set<int>, E': set<int>, F': set<int>) {
    Grown(c, b, top, E, E') && Grown(c, b, top, F, F') && (Agree(c, b, top, E, F) ==> Agree(c, b, top, E', F'))
  }

  ghost predicate Inside(c: Chart, b: int, top: bool, b': int, top': bool) {
    forall x {:trigger Reach(c, b, top, x)} :: Reach(c, b, top, x) ==> Reach(c, b', top', x)
  }

  lemma Narrow(c: Chart, b: int, top: bool, b': int, top': bool, E: set<int>, F: set<int>)
    requires Inside(c, b, top, b', top') && Agree(c, b', top', E, F)
    ensures Agree(c, b, top, E, F)
  {
    forall x | Reach(c, b, top, x) ensures x in E <==> x in F { assert Reach(c, b', top', x); }
  }

  lemma Widen(c: Chart, b: int, top: bool, b': int, top': bool, E: set<int>, F: set<int>, E': set<int>, F': set<int>)
    requires Inside(c, b, top, b', top') && Alike(c, b, top, E, F, E', F')
    ensures Alike(c, b', top', E, F, E', F')
  {
    forall x | x in E' && x !in E ensures Reach(c, b', top', x) { assert Reach(c, b, top, x); }
    forall x | x in F' && x !in F ensures Reach(c, b', top', x) { assert Reach(c, b, top, x); }
    if Agree(c, b', top', E, F) {
      Narrow(c, b, top, b', top', E, F);
      forall x | Reach(c, b', top', x) ensures x in E' <==> x in F' {
        if Reach(c, b, top, x) {} else { assert x in E' <==> x in E; assert x in F' <==> x in F; }
      }
    }
  }

  lemma AlikeTrans(c: Chart, b: int, top: bool, E: set<int>, F: set<int>, E1: set<int>, F1: set<int>, E2: set<int>,
    F2: set<int>)
    requires Alike(c, b, top, E, F, E1, F1) && Alike(c, b, top, E1, F1, E2, F2)
    ensures Alike(c, b, top, E, F, E2, F2)
  {}

  lemma AlikeStill(c: Chart, b: int, top: bool, E: set<int>, F: set<int>)
    ensures Alike(c, b, top, E, F, E, F)
  {}

  lemma AlikeAdd(c: Chart, b: int, top: bool, E: set<int>, F: set<int>, x: int)
    requires Reach(c, b, top, x)
    ensures Alike(c, b, top, E, F, E + {x}, F + {x})
  {}

  /** The part of the chart the target s stands for, as a bound. */
  ghost predicate TopOf(c: Chart, s: int) { !IsHistory(c, s) }

  lemma ZoneInside(c: Chart, s: int, b: int)
    requires Tree(c) && Has(c, s) && 0 <= b && Desc(c, s, b)
    ensures Inside(c, Anchor(c, s), TopOf(c, s), b, false)
  {
    AnchorUp(c, s, b);
    forall x | Reach(c, Anchor(c, s), TopOf(c, s), x) ensures Reach(c, b, false, x) {
      if x != Anchor(c, s) { if Anchor(c, s) != b { TransDesc(c, x, Anchor(c, s), b); } }
    }
  }

  lemma {:induction false} EntryIsLocal(c: Chart, H: History, s: int, e: Entry, f: Entry)
    requires Founded(c) && HistorySane(c, H) && Has(c, s)
    ensures Alike(c, Anchor(c, s), TopOf(c, s), e.states, f.states, AddDescendants(c, H, s, e).states,
      AddDescendants(c, H, s, f).states)
    decreases Weight(c, s), if IsHistory(c, s) then 0 else 2, if IsHistory(c, s) then Rank(c, s) else 0, 1, 0
  {
    hide Alike;
    assert NodeOk(c, s) && StateFounded(c, s);
    var p := Parent(c, s);
    if IsHistory(c, s) {
      if s in H {
        RecordExpandable(c, H, s);
        ListIsLocal(c, H, H[s], p, false, Rank(c, s), e, f);
      } else {
        DefaultExpandable(c, s);
        ListIsLocal(c, H, Initial(c, s), p, false, Rank(c, s), AddDefault(e, p, s), AddDefault(f, p, s));
      }
    } else {
      AlikeAdd(c, s, true, e.states, f.states, s);
      if IsCompound(c, s) {
        BelowExpandable(c, Initial(c, s), s);
        var e1, f1 := AddDefault(AddState(e, s), s, s), AddDefault(AddState(f, s), s, s);
        ListIsLocal(c, H, Initial(c, s), s, true, 0, e1, f1);
        ThenBelow(c, s, e.states, f.states, e1.states, f1.states, AddDescendants(c, H, s, e).states,
          AddDescendants(c, H, s, f).states);
      } else if IsParallel(c, s) {
        ChildrenExpandable(c, s);
        ChildrenBelow(c, s, s);
        EachIsLocal(c, H, RealChildren(c, s), s, true, 0, AddState(e, s), AddState(f, s));
        ThenBelow(c, s, e.states, f.states, AddState(e, s).states, AddState(f, s).states,
          AddDescendants(c, H, s, e).states, AddDescendants(c, H, s, f).states);
      }
    }
  }

  /** First s itself, then what lies below it. */
  lemma ThenBelow(c: Chart, s: int, E: set<int>, F: set<int>, E1: set<int>, F1: set<int>, E2: set<int>, F2: set<int>)
    requires Alike(c, s, true, E, F, E1, F1) && Alike(c, s, false, E1, F1, E2, F2)
    ensures Alike(c, s, true, E, F, E2, F2)
  {
    Widen(c, s, false, s, true, E1, F1, E2, F2);
    AlikeTrans(c, s, true, E, F, E1, F1, E2, F2);
  }

  /** A target list with its ancestors. */
  lemma {:induction false} ListIsLocal(c: Chart, H: History, xs: seq<int>, b: int, whole: bool, rank: nat, e: Entry,
    f: Entry)
    requires Founded(c) && HistorySane(c, H) && Has(c, b) && (whole || rank > 0)
    requires forall i :: 0 <= i < |xs| ==> 0 < xs[i] && Desc(c, xs[i], b) && Expandable(c, xs[i], b, whole, rank)
    ensures Alike(c, b, false, e.states, f.states,
      AddAncestorsOf(c, H, xs, b, AddDescendantsOf(c, H, xs, b, whole, rank, e)).states,
              AddAncestorsOf(c, H, xs, b, AddDescendantsOf(c, H, xs, b, whole, rank, f)).states)
    decreases End(c, b) - b, if whole then 1 else 0, rank, 0, |xs| + 1
  {
    hide Alike;
    var e1, f1 := AddDescendantsOf(c, H, xs, b, whole, rank, e), AddDescendantsOf(c, H, xs, b, whole, rank, f);
    EachIsLocal(c, H, xs, b, whole, rank, e, f);
    AncestorsOfAreLocal(c, H, xs, b, e1, f1);
    AlikeTrans(c, b, false, e.states, f.states, e1.states, f1.states, AddAncestorsOf(c, H, xs, b, e1).states,
      AddAncestorsOf(c, H, xs, b, f1).states);
  }

  lemma {:induction false} EachIsLocal(c: Chart, H: History, xs: seq<int>, b: int, whole: bool, rank: nat, e: Entry,
    f: Entry)
    requires Founded(c) && HistorySane(c, H) && Has(c, b)
    requires forall i :: 0 <= i < |xs| ==> 0 < xs[i] && Desc(c, xs[i], b) && Expandable(c, xs[i], b, whole, rank)
    ensures Alike(c, b, false, e.states, f.states, AddDescendantsOf(c, H, xs, b, whole, rank, e).states,
      AddDescendantsOf(c, H, xs, b, whole, rank, f).states)
    decreases End(c, b) - b, if whole then 1 else 0, rank, 0, |xs|
  {
    hide Alike;
    if xs == [] {
      AlikeStill(c, b, false, e.states, f.states);
    } else {
      assert NodeOk(c, b) && 0 < xs[0] && Expandable(c, xs[0], b, whole, rank) && Desc(c, xs[0], b);
      var e1, f1 := AddDescendants(c, H, xs[0], e), AddDescendants(c, H, xs[0], f);
      EntryIsLocal(c, H, xs[0], e, f);
      ZoneInside(c, xs[0], b);
      Widen(c, Anchor(c, xs[0]), TopOf(c, xs[0]), b, false, e.states, f.states, e1.states, f1.states);
      EachIsLocal(c, H, xs[1..], b, whole, rank, e1, f1);
      AlikeTrans(c, b, false, e.states, f.states, e1.states, f1.states,
        AddDescendantsOf(c, H, xs, b, whole, rank, e).states, AddDescendantsOf(c, H, xs, b, whole, rank, f).states);
    }
  }

  lemma {:induction false} AncestorsOfAreLocal(c: Chart, H: History, xs: seq<int>, b: int, e: Entry, f: Entry)
    requires Founded(c) && HistorySane(c, H) && Has(c, b) && forall i :: 0 <= i < |xs| ==> Desc(c, xs[i], b)
    ensures Alike(c, b, false, e.states, f.states, AddAncestorsOf(c, H, xs, b, e).states,
      AddAncestorsOf(c, H, xs, b, f).states)
    decreases End(c, b) - b, 0, 0, 2, |xs|
  {
    hide Alike;
    if xs == [] {
      AlikeStill(c, b, false, e.states, f.states);
    } else {
      assert Desc(c, xs[0], b);
      var e1, f1 := AddAncestors(c, H, Parent(c, xs[0]), b, e), AddAncestors(c, H, Parent(c, xs[0]), b, f);
      AncestorsAreLocal(c, H, Parent(c, xs[0]), b, e, f);
      AncestorsOfAreLocal(c, H, xs[1..], b, e1, f1);
      AlikeTrans(c, b, false, e.states, f.states, e1.states, f1.states, AddAncestorsOf(c, H, xs, b, e).states,
        AddAncestorsOf(c, H, xs, b, f).states);
    }
  }

  lemma {:induction false} AncestorsAreLocal(c: Chart, H: History, p: int, b: int, e: Entry, f: Entry)
    requires Founded(c) && HistorySane(c, H) && Has(c, b) && (p == b || Desc(c, p, b))
    ensures Alike(c, b, false, e.states, f.states, AddAncestors(c, H, p, b, e).states,
      AddAncestors(c, H, p, b, f).states)
    decreases End(c, b) - b, 0, 0, 1, p
  {
    hide Alike;
    if p == b {
      AlikeStill(c, b, false, e.states, f.states);
    } else {
      AlikeAdd(c, b, false, e.states, f.states, p);
      ChildrenBelow(c, p, b);
      assert b <= Parent(c, p) && Desc(c, p, Parent(c, p));
      var e1, f1 := AddState(e, p), AddState(f, p);
      var e2 := if IsParallel(c, p) then AddUncovered(c, H, RealChildren(c, p), b, e1) else e1;
      var f2 := if IsParallel(c, p) then AddUncovered(c, H, RealChildren(c, p), b, f1) else f1;
      if IsParallel(c, p) {
        UncoveredIsLocal(c, H, RealChildren(c, p), b, e1, f1);
      } else {
        AlikeStill(c, b, false, e1.states, f1.states);
      }
      AlikeTrans(c, b, false, e.states, f.states, e1.states, f1.states, e2.states, f2.states);
      AncestorsAreLocal(c, H, Parent(c, p), b, e2, f2);
      AlikeTrans(c, b, false, e.states, f.states, e2.states, f2.states, AddAncestors(c, H, p, b, e).states,
        AddAncestors(c, H, p, b, f).states);
    }
  }

  lemma {:induction false} UncoveredIsLocal(c: Chart, H: History, ks: seq<int>, b: int, e: Entry, f: Entry)
    requires Founded(c) && HistorySane(c, H) && Has(c, b) && forall i :: 0 <= i < |ks| ==>
      Desc(c, ks[i], b) && Real(c, ks[i])
    ensures Alike(c, b, false, e.states, f.states, AddUncovered(c, H, ks, b, e).states,
      AddUncovered(c, H, ks, b, f).states)
    decreases End(c, b) - b, 0, 0, 0, |ks|
  {
    hide Alike;
    if ks == [] {
      AlikeStill(c, b, false, e.states, f.states);
    } else {
      assert Desc(c, ks[0], b) && Real(c, ks[0]);
      WeightWithin(c, ks[0], b);
      EntryIsLocal(c, H, ks[0], e, f);
      var e1 := if Covered(c, e.states, ks[0]) then e else AddDescendants(c, H, ks[0], e);
      var f1 := if Covered(c, f.states, ks[0]) then f else AddDescendants(c, H, ks[0], f);
      MaybeEnter(c, b, ks[0], e.states, f.states, AddDescendants(c, H, ks[0], e).states,
        AddDescendants(c, H, ks[0], f).states);
      UncoveredIsLocal(c, H, ks[1..], b, e1, f1);
      AlikeTrans(c, b, false, e.states, f.states, e1.states, f1.states, AddUncovered(c, H, ks, b, e).states,
        AddUncovered(c, H, ks, b, f).states);
    }
  }

  /** Whether a region is covered is decided inside it. */
  lemma MaybeEnter(c: Chart, b: int, k: int, E: set<int>, F: set<int>, E': set<int>, F': set<int>)
    requires Tree(c) && Real(c, k) && 0 <= b && Desc(c, k, b) && Alike(c, Anchor(c, k), TopOf(c, k), E, F, E', F')
    ensures Alike(c, b, false, E, F, if Covered(c, E, k) then E else E', if Covered(c, F, k) then F else F')
  {
    ZoneInside(c, k, b);
    Widen(c, Anchor(c, k), TopOf(c, k), b, false, E, F, E', F');
    if Agree(c, b, false, E, F) {
      forall x | In(c, x, k) ensures x in E <==> x in F {
        assert NodeOk(c, k);
        if x != k { TransDesc(c, x, k, b); }
        assert Reach(c, b, false, x);
      }
      assert Covered(c, E, k) <==> Covered(c, F, k);
    }
  }

  lemma AlikeGrows(c: Chart, b: int, top: bool, E: set<int>, E': set<int>)
    requires Alike(c, b, top, E, E, E', E')
    ensures E <= E'
  {}

  // ---- what is aimed at is entered ----

  lemma EntersItself(c: Chart, H: History, s: int, e: Entry)
    requires Founded(c) && HistorySane(c, H) && Real(c, s)
    ensures s in AddDescendants(c, H, s, e).states
  {
    assert NodeOk(c, s) && StateFounded(c, s);
    var e1 := AddDefault(AddState(e, s), s, s);
    if IsCompound(c, s) {
      BelowExpandable(c, Initial(c, s), s);
      ListIsLocal(c, H, Initial(c, s), s, true, 0, e1, e1);
    } else if IsParallel(c, s) {
      ChildrenExpandable(c, s);
      ChildrenBelow(c, s, s);
      EachIsLocal(c, H, RealChildren(c, s), s, true, 0, AddState(e, s), AddState(e, s));
    }
  }

  /** Whatever was entered before, entering s enters everything s stands for now. */
  lemma {:induction false} EffectiveEntered(c: Chart, H: History, s: int, e: Entry, r: int)
    requires Founded(c) && HistorySane(c, H) && Has(c, s) && Effective(c, H, s, r)
    ensures r in AddDescendants(c, H, s, e).states
    decreases Weight(c, s), if IsHistory(c, s) then 0 else 2, if IsHistory(c, s) then Rank(c, s) else 0, 1, 0
  {
    assert NodeOk(c, s);
    if !IsHistory(c, s) {
      EntersItself(c, H, s, e);
    } else {
      assert StateFounded(c, s);
      var p := Parent(c, s);
      if s in H {
        RecordExpandable(c, H, s);
        var i :| 0 <= i < |H[s]| && H[s][i] == r;
        assert RecordSane(c, s, H[s]);
        EffectiveAmong(c, H, H[s], p, false, Rank(c, s), e, i, r);
        var e1 := AddDescendantsOf(c, H, H[s], p, false, Rank(c, s), e);
        AncestorsOfAreLocal(c, H, H[s], p, e1, e1);
      } else {
        DefaultExpandable(c, s);
        var i :| 0 <= i < |Initial(c, s)| && Effective(c, H, Initial(c, s)[i], r);
        EffectiveAmong(c, H, Initial(c, s), p, false, Rank(c, s), AddDefault(e, p, s), i, r);
        var e1 := AddDescendantsOf(c, H, Initial(c, s), p, false, Rank(c, s), AddDefault(e, p, s));
        AncestorsOfAreLocal(c, H, Initial(c, s), p, e1, e1);
      }
    }
  }

  lemma {:induction false} EffectiveAmong(c: Chart, H: History, xs: seq<int>, b: int, whole: bool, rank: nat, e: Entry,
    i: nat, r: int)
    requires Founded(c) && HistorySane(c, H) && Has(c, b) && i < |xs| && Effective(c, H, xs[i], r)
    requires forall i :: 0 <= i < |xs| ==> 0 < xs[i] && Desc(c, xs[i], b) && Expandable(c, xs[i], b, whole, rank)
    ensures r in AddDescendantsOf(c, H, xs, b, whole, rank, e).states
    decreases End(c, b) - b, if whole then 1 else 0, rank, 0, |xs|
  {
    assert NodeOk(c, b) && 0 < xs[0] && Expandable(c, xs[0], b, whole, rank);
    var e1 := AddDescendants(c, H, xs[0], e);
    if i == 0 {
      EffectiveEntered(c, H, xs[0], e, r);
      EachIsLocal(c, H, xs[1..], b, whole, rank, e1, e1);
    } else {
      EffectiveAmong(c, H, xs[1..], b, whole, rank, e1, i - 1, r);
    }
  }
}
