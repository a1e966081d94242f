/**
 When entering states clashes with nothing (interpreter.go:787-862).  The validator compares the default
 atoms of a target list with each other; what the interpreter needs is more: when the turn of an atom
 comes, it must go with everything entered so far, regions entered by default on the way included, and
 with what stays active.  That is `InTurn`, and it is exactly what keeps the states free of conflicts.
 */
module TurnTaking {
  import opened Charts
  import opened Validator
  import opened WellFormed
  import opened EntrySets
  import opened Regions
  import opened Locality
  import opened Completeness

  /** Everything in E can be active together with a. */
  ghost predicate Meets(c: Chart, E: set<int>, a: int) {
    forall u {:trigger Compat(c, u, a)} :: u in E ==> Compat(c, u, a)
  }

  /** No two states of E exclude each other. */
  ghost predicate Together(c: Chart, E: set<int>) {
    forall x, y {:trigger Compat(c, x, y)} :: x in E && y in E ==> Compat(c, x, y)
  }

  /** Entering s on top of e while K stays: each atomic state met on the way goes with K and with everything
      entered before it. */
  ghost predicate InTurn(c: Chart, H: History, K: set<int>, s: int, e: Entry)
    requires Founded(c) && HistorySane(c, H) && Has(c, s)
    decreases Weight(c, s), if IsHistory(c, s) then 0 else 2, if IsHistory(c, s) then Rank(c, s) else 0, 1, 0
  {
    assert NodeOk(c, s) && StateFounded(c, s);
    if IsHistory(c, s) then
      var p := Parent(c, s);
      if s in H then
        RecordExpandable(c, H, s);
        InList(c, H, K, H[s], p, false, Rank(c, s), e)
      else
        DefaultExpandable(c, s);
        InList(c, H, K, Initial(c, s), p, false, Rank(c, s), AddDefault(e, p, s))
    else if IsCompound(c, s) then
      BelowExpandable(c, Initial(c, s), s);
      InList(c, H, K, Initial(c, s), s, true, 0, AddDefault(AddState(e, s), s, s))
    else if IsParallel(c, s) then
      ChildrenExpandable(c, s);
      InTurns(c, H, K, RealChildren(c, s), s, true, 0, AddState(e, s))
    else Meets(c, K + e.states, s)
  }

  /** A target list, and then the walks upwards. */
  ghost predicate InList(c: Chart, H: History, K: set<int>, xs: seq<int>, b: int, whole: bool, rank: nat, e: Entry)
    requires Founded(c) && HistorySane(c, H) && Has(c, b) && (whole || rank > 0)
    requires forall i :: 0 <= i < |xs| ==> 0 < xs[i] && Desc(c, xs[i], b) && Expandable(c, xs[i], b, whole, rank)
    decreases End(c, b) - b, if whole then 1 else 0, rank, 0, |xs| + 1
  {
    && InTurns(c, H, K, xs, b, whole, rank, e)
    && InClimbs(c, H, K, xs, b, AddDescendantsOf(c, H, xs, b, whole, rank, e))
  }

  ghost predicate InTurns(c: Chart, H: History, K: set<int>, xs: seq<int>, b: int, whole: bool, rank: nat, e: Entry)
    requires Founded(c) && HistorySane(c, H) && Has(c, b)
    requires forall i :: 0 <= i < |xs| ==> 0 < xs[i] && Expandable(c, xs[i], b, whole, rank)
    decreases End(c, b) - b, if whole then 1 else 0, rank, 0, |xs|
  {
    xs == [] ||
    (assert NodeOk(c, b) && 0 < xs[0] && Expandable(c, xs[0], b, whole, rank);
     InTurn(c, H, K, xs[0], e) && InTurns(c, H, K, xs[1..], b, whole, rank, AddDescendants(c, H, xs[0], e)))
  }

  ghost predicate InClimbs(c: Chart, H: History, K: set<int>, xs: seq<int>, b: int, e: Entry)
    requires Founded(c) && HistorySane(c, H) && Has(c, b)
    requires forall i :: 0 <= i < |xs| ==> Desc(c, xs[i], b)
    decreases End(c, b) - b, 0, 0, 2, |xs|
  {
    xs == [] ||
    (assert Desc(c, xs[0], b);
     && InClimb(c, H, K, Parent(c, xs[0]), b, e)
     && InClimbs(c, H, K, xs[1..], b, AddAncestors(c, H, Parent(c, xs[0]), b, e)))
  }

  /** The walk upwards from p: every region it enters by default is in turn. */
  ghost predicate InClimb(c: Chart, H: History, K: set<int>, p: int, b: int, e: Entry)
    requires Founded(c) && HistorySane(c, H) && Has(c, b) && (p == b || Desc(c, p, b))
    decreases End(c, b) - b, 0, 0, 1, p
  {
    p == b ||
    (ChildrenBelow(c, p, b);
     assert b <= Parent(c, p) && Desc(c, p, Parent(c, p));
     var e1 := AddState(e, p);
     && (IsParallel(c, p) ==> InUncovered(c, H, K, RealChildren(c, p), b, e1))
     && InClimb(c, H, K, Parent(c, p), b,
          if IsParallel(c, p) then AddUncovered(c, H, RealChildren(c, p), b, e1) else e1))
  }

  ghost predicate InUncovered(c: Chart, H: History, K: set<int>, ks: seq<int>, b: int, e: Entry)
    requires Founded(c) && HistorySane(c, H) && Has(c, b)
    requires forall i :: 0 <= i < |ks| ==> Desc(c, ks[i], b) && Real(c, ks[i])
    decreases End(c, b) - b, 0, 0, 0, |ks|
  {
    ks == [] ||
    (assert Desc(c, ks[0], b) && Real(c, ks[0]);
     WeightWithin(c, ks[0], b);
     && (Covered(c, e.states, ks[0]) || InTurn(c, H, K, ks[0], e))
     && InUncovered(c, H, K, ks[1..], b, if Covered(c, e.states, ks[0]) then e else AddDescendants(c, H, ks[0], e)))
  }

  // ---- a turn that was met shows some state that goes with all ----

  lemma {:induction false} SomeMeets(c: Chart, H: History, K: set<int>, s: int, e: Entry) returns (a: int)
    requires Enterable(c) && Recalls(c, H) && HistorySane(c, H) && Has(c, s) && InTurn(c, H, K, s, e)
    ensures Meets(c, K + e.states, a) && In(c, a, Anchor(c, s)) && 0 <= Anchor(c, s)
    decreases Weight(c, s), if IsHistory(c, s) then 0 else 2, if IsHistory(c, s) then Rank(c, s) else 0, 1, 0
  {
    hide Meets, Recalls, InClimbs;
    assert NodeOk(c, s) && StateFounded(c, s) && Local(c, s);
    if IsHistory(c, s) {
      var p := Parent(c, s);
      if s in H {
        RecordExpandable(c, H, s);
        RecordNotEmpty(c, H, s);
        a := FirstMeets(c, H, K, H[s], p, false, Rank(c, s), e);
      } else {
        DefaultExpandable(c, s);
        a := FirstMeets(c, H, K, Initial(c, s), p, false, Rank(c, s), AddDefault(e, p, s));
      }
    } else if IsCompound(c, s) {
      BelowExpandable(c, Initial(c, s), s);
      a := FirstMeets(c, H, K, Initial(c, s), s, true, 0, AddDefault(AddState(e, s), s, s));
      MeetsLess(c, K + e.states, K + (e.states + {s}), a);
    } else if IsParallel(c, s) {
      ChildrenExpandable(c, s);
      ChildrenBelow(c, s, s);
      a := FirstMeets(c, H, K, RealChildren(c, s), s, true, 0, AddState(e, s));
      MeetsLess(c, K + e.states, K + (e.states + {s}), a);
    } else {
      a := s;
    }
  }

  lemma {:induction false} FirstMeets(c: Chart, H: History, K: set<int>, xs: seq<int>, b: int, whole: bool, rank: nat,
    e: Entry) returns (a: int)
    requires Enterable(c) && Recalls(c, H) && HistorySane(c, H) && Has(c, b) && xs != []
    requires forall i :: 0 <= i < |xs| ==> 0 < xs[i] && Desc(c, xs[i], b) && Expandable(c, xs[i], b, whole, rank)
    requires InTurns(c, H, K, xs, b, whole, rank, e)
    ensures Meets(c, K + e.states, a) && In(c, a, b)
    decreases End(c, b) - b, if whole then 1 else 0, rank, 0, |xs|
  {
    hide Meets, Recalls;
    assert NodeOk(c, b) && 0 < xs[0] && Expandable(c, xs[0], b, whole, rank) && Desc(c, xs[0], b);
    a := SomeMeets(c, H, K, xs[0], e);
    AnchorUp(c, xs[0], b);
    TransIn(c, a, Anchor(c, xs[0]), b);
  }

  lemma RecordNotEmpty(c: Chart, H: History, s: int)
    requires Recalls(c, H) && s in H
    ensures H[s] != []
  {}

  lemma MeetsLess(c: Chart, E: set<int>, F: set<int>, a: int)
    requires E <= F && Meets(c, F, a)
    ensures Meets(c, E, a)
  {}

  // ---- states in order never clash ----

  /** One more state above a state that goes with all. */
  lemma AddedTogether(c: Chart, K: set<int>, E: set<int>, s: int, a: int)
    requires Tree(c) && Together(c, K + E) && 0 <= s && In(c, a, s) && Meets(c, K + E, a)
    ensures Together(c, K + (E + {s}))
  {
    forall u | u in K + E ensures Compat(c, u, s) && Compat(c, s, u) {
      assert Compat(c, u, a);
      CompatSym(c, u, a);
      CompatUp(c, s, a, u);
      CompatSym(c, s, u);
    }
    assert Has(c, s) && NodeOk(c, s);
    CompatNested(c, s, s);
  }

  lemma MeetsMember(c: Chart, E: set<int>, w: int)
    requires Together(c, E) && w in E
    ensures Meets(c, E, w)
  {}

  lemma {:induction false} EntryIsTogether(c: Chart, H: History, K: set<int>, s: int, e: Entry)
    requires Enterable(c) && Recalls(c, H) && HistorySane(c, H) && Has(c, s) && 0 < s
    requires Together(c, K + e.states) && InTurn(c, H, K, s, e)
    ensures Together(c, K + AddDescendants(c, H, s, e).states)
    decreases Weight(c, s), if IsHistory(c, s) then 0 else 2, if IsHistory(c, s) then Rank(c, s) else 0, 1, 0
  {
    hide Together, Meets, Recalls, InClimbs;
    assert NodeOk(c, s) && StateFounded(c, s) && Local(c, s);
    var p := Parent(c, s);
    if IsHistory(c, s) {
      if s in H {
        RecordExpandable(c, H, s);
        ListIsTogether(c, H, K, H[s], p, false, Rank(c, s), e);
      } else {
        DefaultExpandable(c, s);
        ListIsTogether(c, H, K, Initial(c, s), p, false, Rank(c, s), AddDefault(e, p, s));
      }
    } else {
      var a := SomeMeets(c, H, K, s, e);
      AddedTogether(c, K, e.states, s, a);
      if IsCompound(c, s) {
        BelowExpandable(c, Initial(c, s), s);
        ListIsTogether(c, H, K, Initial(c, s), s, true, 0, AddDefault(AddState(e, s), s, s));
      } else if IsParallel(c, s) {
        ChildrenExpandable(c, s);
        ChildrenBelow(c, s, s);
        EachIsTogether(c, H, K, RealChildren(c, s), s, true, 0, AddState(e, s));
      }
    }
  }

  lemma {:induction false} EachIsTogether(c: Chart, H: History, K: set<int>, xs: seq<int>, b: int, whole: bool,
    rank: nat, e: Entry)
    requires Enterable(c) && Recalls(c, H) && HistorySane(c, H) && Has(c, b)
    requires forall i :: 0 <= i < |xs| ==> 0 < xs[i] && Desc(c, xs[i], b) && Expandable(c, xs[i], b, whole, rank)
    requires Together(c, K + e.states) && InTurns(c, H, K, xs, b, whole, rank, e)
    ensures Together(c, K + AddDescendantsOf(c, H, xs, b, whole, rank, e).states)
    decreases End(c, b) - b, if whole then 1 else 0, rank, 0, |xs|
  {
    hide Together, Meets, Recalls, InTurn;
    if xs != [] {
      assert NodeOk(c, b) && 0 < xs[0] && Expandable(c, xs[0], b, whole, rank) && Desc(c, xs[0], b);
      EntryIsTogether(c, H, K, xs[0], e);
      EachIsTogether(c, H, K, xs[1..], b, whole, rank, AddDescendants(c, H, xs[0], e));
    }
  }

  lemma {:induction false} ListIsTogether(c: Chart, H: History, K: set<int>, xs: seq<int>, b: int, whole: bool,
    rank: nat, e: Entry)
    requires Enterable(c) && Recalls(c, H) && HistorySane(c, H) && Has(c, b) && (whole || rank > 0)
    requires forall i :: 0 <= i < |xs| ==> 0 < xs[i] && Desc(c, xs[i], b) && Expandable(c, xs[i], b, whole, rank)
    requires Together(c, K + e.states) && InList(c, H, K, xs, b, whole, rank, e)
    ensures Together(c, K + AddAncestorsOf(c, H, xs, b, AddDescendantsOf(c, H, xs, b, whole, rank, e)).states)
    decreases End(c, b) - b, if whole then 1 else 0, rank, 0, |xs| + 1
  {
    hide Together, Meets, Recalls, InTurns, InClimbs;
    assert NodeOk(c, b);
    var e1 := AddDescendantsOf(c, H, xs, b, whole, rank, e);
    EachIsTogether(c, H, K, xs, b, whole, rank, e);
    SomeoneForEach(c, H, xs, b, whole, rank, e);
    ClimbsAreTogether(c, H, K, xs, b, e1);
  }

  /** Below the parent of each entered target there is an entered state. */
  lemma SomeoneForEach(c: Chart, H: History, xs: seq<int>, b: int, whole: bool, rank: nat, e: Entry)
    requires Enterable(c) && Recalls(c, H) && HistorySane(c, H) && Has(c, b)
    requires forall i :: 0 <= i < |xs| ==> 0 < xs[i] && Desc(c, xs[i], b) && Expandable(c, xs[i], b, whole, rank)
    ensures forall i :: 0 <= i < |xs| ==>
      Has(c, xs[i])
      && SomeoneBelow(c, AddDescendantsOf(c, H, xs, b, whole, rank, e).states, Parent(c, xs[i]))
  {
    var e1 := AddDescendantsOf(c, H, xs, b, whole, rank, e);
    forall i | 0 <= i < |xs| ensures Has(c, xs[i]) && SomeoneBelow(c, e1.states, Parent(c, xs[i])) {
      assert NodeOk(c, b) && Expandable(c, xs[i], b, whole, rank);
      var r := SomeTarget(c, H, xs[i]);
      EffectiveAmong(c, H, xs, b, whole, rank, e, i, r);
      assert NodeOk(c, xs[i]);
      ZoneBelow(c, xs[i], r, Parent(c, xs[i]));
    }
  }

  lemma {:induction false} ClimbsAreTogether(c: Chart, H: History, K: set<int>, xs: seq<int>, b: int, e: Entry)
    requires Enterable(c) && Recalls(c, H) && HistorySane(c, H) && Has(c, b) && Together(c, K + e.states)
    requires forall i :: 0 <= i < |xs| ==>
      Has(c, xs[i]) && Desc(c, xs[i], b)
      && SomeoneBelow(c, e.states, Parent(c, xs[i]))
    requires InClimbs(c, H, K, xs, b, e)
    ensures Together(c, K + AddAncestorsOf(c, H, xs, b, e).states)
    decreases End(c, b) - b, 0, 0, 2, |xs|
  {
    hide Together, Meets, Recalls, SomeoneBelow, Alike, InClimb;
    if xs != [] {
      assert Desc(c, xs[0], b) && NodeOk(c, xs[0]);
      var e1 := AddAncestors(c, H, Parent(c, xs[0]), b, e);
      ClimbIsTogether(c, H, K, Parent(c, xs[0]), b, e);
      AncestorsAreLocal(c, H, Parent(c, xs[0]), b, e, e);
      AlikeGrows(c, b, false, e.states, e1.states);
      var rest := xs[1..];
      SomeoneRest(c, e.states, e1.states, xs, b);
      ClimbsAreTogether(c, H, K, rest, b, e1);
    }
  }

  lemma SomeoneRest(c: Chart, E: set<int>, E1: set<int>, xs: seq<int>, b: int)
    requires xs != [] && E <= E1
    requires forall i :: 0 <= i < |xs| ==> Has(c, xs[i]) && Desc(c, xs[i], b) && SomeoneBelow(c, E, Parent(c, xs[i]))
    ensures forall i :: 0 <= i < |xs[1..]| ==>
      Has(c, xs[1..][i]) && Desc(c, xs[1..][i], b)
      && SomeoneBelow(c, E1, Parent(c, xs[1..][i]))
  {
    var rest := xs[1..];
    forall i | 0 <= i < |rest|
      ensures Has(c, rest[i]) && Desc(c, rest[i], b) && SomeoneBelow(c, E1, Parent(c, rest[i]))
    {
      assert rest[i] == xs[i + 1];
      SomeoneStays(c, E, E1, Parent(c, rest[i]));
    }
  }

  lemma {:induction false} ClimbIsTogether(c: Chart, H: History, K: set<int>, p: int, b: int, e: Entry)
    requires Enterable(c) && Recalls(c, H) && HistorySane(c, H) && Has(c, b) && Together(c, K + e.states)
    requires (p == b || Desc(c, p, b)) && SomeoneBelow(c, e.states, p) && InClimb(c, H, K, p, b, e)
    ensures Together(c, K + AddAncestors(c, H, p, b, e).states)
    decreases End(c, b) - b, 0, 0, 1, p
  {
    hide Together, Meets, Recalls, Alike, InUncovered;
    if p != b {
      assert Has(c, p) && NodeOk(c, p) by { assert NodeOk(c, b); }
      var w :| w in e.states && Real(c, w) && Desc(c, w, p);
      MeetsMember(c, K + e.states, w);
      AddedTogether(c, K, e.states, p, w);
      ParentIsReal(c, w, p);
      ChildrenBelow(c, p, b);
      assert b <= Parent(c, p) && Desc(c, p, Parent(c, p));
      var e1 := AddState(e, p);
      var e2 := if IsParallel(c, p) then AddUncovered(c, H, RealChildren(c, p), b, e1) else e1;
      if IsParallel(c, p) {
        UncoveredIsTogether(c, H, K, RealChildren(c, p), b, e1);
        UncoveredIsLocal(c, H, RealChildren(c, p), b, e1, e1);
        AlikeGrows(c, b, false, e1.states, e2.states);
      }
      assert SomeoneBelow(c, e2.states, Parent(c, p)) by { assert p in e2.states; }
      ClimbIsTogether(c, H, K, Parent(c, p), b, e2);
    }
  }

  lemma {:induction false} UncoveredIsTogether(c: Chart, H: History, K: set<int>, ks: seq<int>, b: int, e: Entry)
    requires Enterable(c) && Recalls(c, H) && HistorySane(c, H) && Has(c, b) && Together(c, K + e.states)
    requires forall i :: 0 <= i < |ks| ==> Desc(c, ks[i], b) && Real(c, ks[i])
    requires InUncovered(c, H, K, ks, b, e)
    ensures Together(c, K + AddUncovered(c, H, ks, b, e).states)
    decreases End(c, b) - b, 0, 0, 0, |ks|
  {
    hide Together, Meets, Recalls, InTurn;
    if ks != [] {
      assert Desc(c, ks[0], b) && Real(c, ks[0]) && NodeOk(c, ks[0]);
      WeightWithin(c, ks[0], b);
      if !Covered(c, e.states, ks[0]) { EntryIsTogether(c, H, K, ks[0], e); }
      UncoveredIsTogether(c, H, K, ks[1..], b,
        if Covered(c, e.states, ks[0]) then e else AddDescendants(c, H, ks[0], e));
    }
  }

  lemma EmptyTogether(c: Chart)
    ensures Together(c, {} + NoEntry.states)
  {}

  // ---- and conversely ----

  /** Along an entry whose states all go together and with what stays, every turn is met. */
  lemma {:induction false} TogetherInTurn(c: Chart, H: History, K: set<int>, s: int, e: Entry, E: set<int>)
    requires Enterable(c) && HistorySane(c, H) && Has(c, s)
    requires Together(c, E) && K <= E && AddDescendants(c, H, s, e).states <= E
    ensures InTurn(c, H, K, s, e)
    decreases Weight(c, s), if IsHistory(c, s) then 0 else 2, if IsHistory(c, s) then Rank(c, s) else 0, 1, 0
  {
    hide Together, Meets, Alike, InList;
    assert NodeOk(c, s) && StateFounded(c, s) && Local(c, s);
    var p := Parent(c, s);
    if IsHistory(c, s) {
      if s in H {
        RecordExpandable(c, H, s);
        TogetherInList(c, H, K, H[s], p, false, Rank(c, s), e, E);
      } else {
        DefaultExpandable(c, s);
        TogetherInList(c, H, K, Initial(c, s), p, false, Rank(c, s), AddDefault(e, p, s), E);
      }
    } else if IsCompound(c, s) {
      BelowExpandable(c, Initial(c, s), s);
      TogetherInList(c, H, K, Initial(c, s), s, true, 0, AddDefault(AddState(e, s), s, s), E);
    } else if IsParallel(c, s) {
      ChildrenExpandable(c, s);
      ChildrenBelow(c, s, s);
      EachInTurns(c, H, K, RealChildren(c, s), s, true, 0, AddState(e, s), E);
    } else {
      assert Meets(c, K + e.states, s) by { MeetsMember(c, E, s); MeetsLess(c, K + e.states, E, s); }
    }
  }

  lemma {:induction false} TogetherInList(c: Chart, H: History, K: set<int>, xs: seq<int>, b: int, whole: bool,
    rank: nat, e: Entry, E: set<int>)
    requires Enterable(c) && HistorySane(c, H) && Has(c, b) && (whole || rank > 0)
    requires forall i :: 0 <= i < |xs| ==> 0 < xs[i] && Desc(c, xs[i], b) && Expandable(c, xs[i], b, whole, rank)
    requires Together(c, E) && K <= E
    requires AddAncestorsOf(c, H, xs, b, AddDescendantsOf(c, H, xs, b, whole, rank, e)).states <= E
    ensures InList(c, H, K, xs, b, whole, rank, e)
    decreases End(c, b) - b, if whole then 1 else 0, rank, 0, |xs| + 1
  {
    hide Together, Alike, InTurns, InClimbs;
    var e1 := AddDescendantsOf(c, H, xs, b, whole, rank, e);
    AncestorsOfAreLocal(c, H, xs, b, e1, e1);
    AlikeGrows(c, b, false, e1.states, AddAncestorsOf(c, H, xs, b, e1).states);
    EachInTurns(c, H, K, xs, b, whole, rank, e, E);
    TogetherInClimbs(c, H, K, xs, b, e1, E);
  }

  lemma {:induction false} EachInTurns(c: Chart, H: History, K: set<int>, xs: seq<int>, b: int, whole: bool,
    rank: nat, e: Entry, E: set<int>)
    requires Enterable(c) && HistorySane(c, H) && Has(c, b) && Together(c, E) && K <= E
    requires forall i :: 0 <= i < |xs| ==> 0 < xs[i] && Desc(c, xs[i], b) && Expandable(c, xs[i], b, whole, rank)
    requires AddDescendantsOf(c, H, xs, b, whole, rank, e).states <= E
    ensures InTurns(c, H, K, xs, b, whole, rank, e)
    decreases End(c, b) - b, if whole then 1 else 0, rank, 0, |xs|
  {
    hide Together, Alike, InTurn;
    if xs != [] {
      assert NodeOk(c, b) && 0 < xs[0] && Expandable(c, xs[0], b, whole, rank) && Desc(c, xs[0], b);
      var e1 := AddDescendants(c, H, xs[0], e);
      EachIsLocal(c, H, xs[1..], b, whole, rank, e1, e1);
      AlikeGrows(c, b, false, e1.states, AddDescendantsOf(c, H, xs[1..], b, whole, rank, e1).states);
      TogetherInTurn(c, H, K, xs[0], e, E);
      EachInTurns(c, H, K, xs[1..], b, whole, rank, e1, E);
    }
  }

  lemma {:induction false} TogetherInClimbs(c: Chart, H: History, K: set<int>, xs: seq<int>, b: int, e: Entry,
    E: set<int>)
    requires Enterable(c) && HistorySane(c, H) && Has(c, b) && Together(c, E) && K <= E
    requires forall i :: 0 <= i < |xs| ==> Desc(c, xs[i], b)
    requires AddAncestorsOf(c, H, xs, b, e).states <= E
    ensures InClimbs(c, H, K, xs, b, e)
    decreases End(c, b) - b, 0, 0, 2, |xs|
  {
    hide Together, Alike, InClimb;
    if xs != [] {
      assert Desc(c, xs[0], b);
      var e1 := AddAncestors(c, H, Parent(c, xs[0]), b, e);
      AncestorsOfAreLocal(c, H, xs[1..], b, e1, e1);
      AlikeGrows(c, b, false, e1.states, AddAncestorsOf(c, H, xs[1..], b, e1).states);
      TogetherInClimb(c, H, K, Parent(c, xs[0]), b, e, E);
      TogetherInClimbs(c, H, K, xs[1..], b, e1, E);
    }
  }

  lemma {:induction false} TogetherInClimb(c: Chart, H: History, K: set<int>, p: int, b: int, e: Entry, E: set<int>)
    requires Enterable(c) && HistorySane(c, H) && Has(c, b) && (p == b || Desc(c, p, b))
    requires Together(c, E) && K <= E && AddAncestors(c, H, p, b, e).states <= E
    ensures InClimb(c, H, K, p, b, e)
    decreases End(c, b) - b, 0, 0, 1, p
  {
    hide Together, Alike, InUncovered;
    if p != b {
      ChildrenBelow(c, p, b);
      assert b <= Parent(c, p) && Desc(c, p, Parent(c, p));
      var e1 := AddState(e, p);
      var e2 := if IsParallel(c, p) then AddUncovered(c, H, RealChildren(c, p), b, e1) else e1;
      AncestorsAreLocal(c, H, Parent(c, p), b, e2, e2);
      AlikeGrows(c, b, false, e2.states, AddAncestors(c, H, Parent(c, p), b, e2).states);
      if IsParallel(c, p) { TogetherInUncovered(c, H, K, RealChildren(c, p), b, e1, E); }
      TogetherInClimb(c, H, K, Parent(c, p), b, e2, E);
    }
  }

  lemma {:induction false} TogetherInUncovered(c: Chart, H: History, K: set<int>, ks: seq<int>, b: int, e: Entry,
    E: set<int>)
    requires Enterable(c) && HistorySane(c, H) && Has(c, b) && Together(c, E) && K <= E
    requires forall i :: 0 <= i < |ks| ==> Desc(c, ks[i], b) && Real(c, ks[i])
    requires AddUncovered(c, H, ks, b, e).states <= E
    ensures InUncovered(c, H, K, ks, b, e)
    decreases End(c, b) - b, 0, 0, 0, |ks|
  {
    hide Together, Alike, InTurn;
    if ks != [] {
      assert Desc(c, ks[0], b) && Real(c, ks[0]);
      WeightWithin(c, ks[0], b);
      var e1 := if Covered(c, e.states, ks[0]) then e else AddDescendants(c, H, ks[0], e);
      UncoveredIsLocal(c, H, ks[1..], b, e1, e1);
      AlikeGrows(c, b, false, e1.states, AddUncovered(c, H, ks[1..], b, e1).states);
      if !Covered(c, e.states, ks[0]) { TogetherInTurn(c, H, K, ks[0], e, E); }
      TogetherInUncovered(c, H, K, ks[1..], b, e1, E);
    }
  }

  // ---- a turn met on an empty entry is met wherever nothing beside the state excludes it ----

  /** Whatever was entered outside b can be active together with b. */
  ghost predicate Beyond(c: Chart, b: int, E: set<int>) {
    forall u {:trigger Compat(c, u, b)} :: u in E && !In(c, u, b) ==> Compat(c, u, b)
  }

  lemma BeyondStays(c: Chart, b: int, E: set<int>, E': set<int>)
    requires Beyond(c, b, E) && Grown(c, b, true, E, E') && Tree(c) && Has(c, b)
    ensures Beyond(c, b, E')
  {
    assert NodeOk(c, b);
    forall u {:trigger Compat(c, u, b)} | u in E' && !In(c, u, b) ensures Compat(c, u, b) {
      assert u in E || Reach(c, b, true, u);
    }
  }

  lemma AtomMoves(c: Chart, b: int, s: int, E: set<int>, F: set<int>)
    requires Tree(c) && Has(c, b) && In(c, s, b) && Agree(c, b, true, E, F) && Beyond(c, b, E) && Meets(c, {} + F, s)
    ensures Meets(c, {} + E, s)
  {
    forall u {:trigger Compat(c, u, s)} | u in E ensures Compat(c, u, s) {
      if In(c, u, b) {
        assert Reach(c, b, true, u);
        assert u in {} + F;
      } else {
        CompatSym(c, u, b);
        CompatDown(c, b, s, u);
        CompatSym(c, s, u);
      }
    }
  }

  /** The subtree of b holds everything the target s stands for. */
  ghost predicate Holds(c: Chart, b: int, s: int) { if IsHistory(c, s) then Desc(c, s, b) else In(c, s, b) }

  lemma HoldsBelow(c: Chart, b: int, a: int, s: int)
    requires Tree(c) && Has(c, s) && 0 <= b && In(c, a, b) && 0 <= a && Desc(c, s, a)
    ensures Holds(c, b, s) && In(c, s, b)
  {
    if a != b { TransDesc(c, s, a, b); }
  }

  lemma HeldZone(c: Chart, b: int, s: int)
    requires Tree(c) && Has(c, s) && Has(c, b) && Holds(c, b, s)
    ensures Inside(c, Anchor(c, s), TopOf(c, s), b, true) && 0 <= Anchor(c, s) && In(c, Anchor(c, s), b)
  {
    assert NodeOk(c, b) && NodeOk(c, s);
    if Desc(c, s, b) { AnchorUp(c, s, b); }
    forall x | Reach(c, Anchor(c, s), TopOf(c, s), x) ensures Reach(c, b, true, x) {
      if x != Anchor(c, s) && Anchor(c, s) != b { TransDesc(c, x, Anchor(c, s), b); }
    }
  }

  lemma BelowInside(c: Chart, a: int, b: int)
    requires Tree(c) && Has(c, a) && Has(c, b) && In(c, a, b)
    ensures Inside(c, a, false, b, true)
  {
    assert NodeOk(c, b);
    forall x | Reach(c, a, false, x) ensures Reach(c, b, true, x) { if a != b { TransDesc(c, x, a, b); } }
  }

  /** In b the entries e and f agree, and what e has elsewhere goes with b. */
  ghost predicate Moving(c: Chart, b: int, E: set<int>, F: set<int>) { Agree(c, b, true, E, F) && Beyond(c, b, E) }

  lemma StillMoving(c: Chart, b: int, a: int, top: bool, E: set<int>, F: set<int>, E': set<int>, F': set<int>)
    requires Tree(c) && Has(c, b) && Inside(c, a, top, b, true) && Alike(c, a, top, E, F, E', F') && Moving(c, b, E, F)
    ensures Moving(c, b, E', F')
  {
    Widen(c, a, top, b, true, E, F, E', F');
    BeyondStays(c, b, E, E');
  }

  lemma {:induction false} TurnMoves(c: Chart, H: History, b: int, s: int, e: Entry, f: Entry)
    requires Founded(c) && HistorySane(c, H) && Has(c, b) && Has(c, s) && Holds(c, b, s)
    requires Moving(c, b, e.states, f.states) && InTurn(c, H, {}, s, f)
    ensures InTurn(c, H, {}, s, e)
    decreases Weight(c, s), if IsHistory(c, s) then 0 else 2, if IsHistory(c, s) then Rank(c, s) else 0, 1, 0
  {
    hide Meets, Moving, Alike, InList;
    assert NodeOk(c, s) && StateFounded(c, s);
    HeldZone(c, b, s);
    var p := Parent(c, s);
    if IsHistory(c, s) {
      if s in H {
        RecordExpandable(c, H, s);
        ListMoves(c, H, b, H[s], p, false, Rank(c, s), e, f);
      } else {
        DefaultExpandable(c, s);
        ListMoves(c, H, b, Initial(c, s), p, false, Rank(c, s), AddDefault(e, p, s), AddDefault(f, p, s));
      }
    } else if IsCompound(c, s) {
      BelowExpandable(c, Initial(c, s), s);
      OneMore(c, b, s, e.states, f.states);
      ListMoves(c, H, b, Initial(c, s), s, true, 0, AddDefault(AddState(e, s), s, s),
        AddDefault(AddState(f, s), s, s));
    } else if IsParallel(c, s) {
      ChildrenExpandable(c, s);
      ChildrenBelow(c, s, s);
      OneMore(c, b, s, e.states, f.states);
      TurnsMove(c, H, b, RealChildren(c, s), s, true, 0, AddState(e, s), AddState(f, s));
    } else {
      assert Meets(c, {} + e.states, s) by {
        MovingGives(c, b, e.states, f.states);
        AtomMoves(c, b, s, e.states, f.states);
      }
    }
  }

  lemma MovingGives(c: Chart, b: int, E: set<int>, F: set<int>)
    requires Moving(c, b, E, F)
    ensures Agree(c, b, true, E, F) && Beyond(c, b, E)
  {}

  lemma OneMore(c: Chart, b: int, s: int, E: set<int>, F: set<int>)
    requires Tree(c) && In(c, s, b) && Moving(c, b, E, F)
    ensures Moving(c, b, E + {s}, F + {s})
  {
    forall u {:trigger Compat(c, u, b)} | u in E + {s} && !In(c, u, b) ensures Compat(c, u, b) {}
  }

  lemma {:induction false} ListMoves(c: Chart, H: History, b: int, xs: seq<int>, a: int, whole: bool, rank: nat,
    e: Entry, f: Entry)
    requires Founded(c) && HistorySane(c, H) && Has(c, b) && Has(c, a) && In(c, a, b) && (whole || rank > 0)
    requires forall i :: 0 <= i < |xs| ==> 0 < xs[i] && Desc(c, xs[i], a) && Expandable(c, xs[i], a, whole, rank)
    requires Moving(c, b, e.states, f.states) && InList(c, H, {}, xs, a, whole, rank, f)
    ensures InList(c, H, {}, xs, a, whole, rank, e)
    decreases End(c, a) - a, if whole then 1 else 0, rank, 0, |xs| + 1
  {
    hide Moving, Alike, InTurns, InClimbs, Inside;
    TurnsMove(c, H, b, xs, a, whole, rank, e, f);
    EachIsLocal(c, H, xs, a, whole, rank, e, f);
    BelowInside(c, a, b);
    var e1, f1 := AddDescendantsOf(c, H, xs, a, whole, rank, e), AddDescendantsOf(c, H, xs, a, whole, rank, f);
    StillMoving(c, b, a, false, e.states, f.states, e1.states, f1.states);
    ClimbsMove(c, H, b, xs, a, e1, f1);
  }

  lemma {:induction false} TurnsMove(c: Chart, H: History, b: int, xs: seq<int>, a: int, whole: bool, rank: nat,
    e: Entry, f: Entry)
    requires Founded(c) && HistorySane(c, H) && Has(c, b) && Has(c, a) && In(c, a, b)
    requires forall i :: 0 <= i < |xs| ==> 0 < xs[i] && Desc(c, xs[i], a) && Expandable(c, xs[i], a, whole, rank)
    requires Moving(c, b, e.states, f.states) && InTurns(c, H, {}, xs, a, whole, rank, f)
    ensures InTurns(c, H, {}, xs, a, whole, rank, e)
    decreases End(c, a) - a, if whole then 1 else 0, rank, 0, |xs|
  {
    hide Moving, Alike, Inside, InTurn;
    if xs != [] {
      assert NodeOk(c, a) && 0 < xs[0] && Expandable(c, xs[0], a, whole, rank) && Desc(c, xs[0], a);
      HoldsBelow(c, b, a, xs[0]);
      HeldZone(c, b, xs[0]);
      TurnMoves(c, H, b, xs[0], e, f);
      EntryIsLocal(c, H, xs[0], e, f);
      var e1, f1 := AddDescendants(c, H, xs[0], e), AddDescendants(c, H, xs[0], f);
      StillMoving(c, b, Anchor(c, xs[0]), TopOf(c, xs[0]), e.states, f.states, e1.states, f1.states);
      TurnsMove(c, H, b, xs[1..], a, whole, rank, e1, f1);
    }
  }

  lemma {:induction false} ClimbsMove(c: Chart, H: History, b: int, xs: seq<int>, a: int, e: Entry, f: Entry)
    requires Founded(c) && HistorySane(c, H) && Has(c, b) && Has(c, a) && In(c, a, b)
    requires forall i :: 0 <= i < |xs| ==> Desc(c, xs[i], a)
    requires Moving(c, b, e.states, f.states) && InClimbs(c, H, {}, xs, a, f)
    ensures InClimbs(c, H, {}, xs, a, e)
    decreases End(c, a) - a, 0, 0, 2, |xs|
  {
    hide Moving, Alike, Inside, InClimb;
    if xs != [] {
      assert Desc(c, xs[0], a);
      var e1, f1 := AddAncestors(c, H, Parent(c, xs[0]), a, e), AddAncestors(c, H, Parent(c, xs[0]), a, f);
      ClimbMoves(c, H, b, Parent(c, xs[0]), a, e, f);
      AncestorsAreLocal(c, H, Parent(c, xs[0]), a, e, f);
      BelowInside(c, a, b);
      StillMoving(c, b, a, false, e.states, f.states, e1.states, f1.states);
      ClimbsMove(c, H, b, xs[1..], a, e1, f1);
    }
  }

  lemma {:induction false} ClimbMoves(c: Chart, H: History, b: int, p: int, a: int, e: Entry, f: Entry)
    requires Founded(c) && HistorySane(c, H) && Has(c, b) && Has(c, a) && In(c, a, b) && (p == a || Desc(c, p, a))
    requires Moving(c, b, e.states, f.states) && InClimb(c, H, {}, p, a, f)
    ensures InClimb(c, H, {}, p, a, e)
    decreases End(c, a) - a, 0, 0, 1, p
  {
    hide Moving, Alike, Inside, InUncovered;
    if p != a {
      ChildrenBelow(c, p, a);
      assert a <= Parent(c, p) && Desc(c, p, Parent(c, p));
      assert NodeOk(c, b) && NodeOk(c, a) && Has(c, p);
      HoldsBelow(c, b, a, p);
      OneMore(c, b, p, e.states, f.states);
      var e1, f1 := AddState(e, p), AddState(f, p);
      var e2 := if IsParallel(c, p) then AddUncovered(c, H, RealChildren(c, p), a, e1) else e1;
      var f2 := if IsParallel(c, p) then AddUncovered(c, H, RealChildren(c, p), a, f1) else f1;
      if IsParallel(c, p) {
        UncoveredMoves(c, H, b, RealChildren(c, p), a, e1, f1);
        UncoveredIsLocal(c, H, RealChildren(c, p), a, e1, f1);
        BelowInside(c, a, b);
        StillMoving(c, b, a, false, e1.states, f1.states, e2.states, f2.states);
      }
      ClimbMoves(c, H, b, Parent(c, p), a, e2, f2);
    }
  }

  /** Whether a region in b is covered is decided in b. */
  lemma CoveredAlike(c: Chart, b: int, k: int, E: set<int>, F: set<int>)
    requires Tree(c) && Has(c, b) && Has(c, k) && In(c, k, b) && Agree(c, b, true, E, F)
    ensures Covered(c, E, k) <==> Covered(c, F, k)
  {
    assert NodeOk(c, b) && NodeOk(c, k);
    forall x | In(c, x, k) ensures x in E <==> x in F {
      TransIn(c, x, k, b);
      assert Reach(c, b, true, x);
    }
  }

  lemma {:induction false} UncoveredMoves(c: Chart, H: History, b: int, ks: seq<int>, a: int, e: Entry, f: Entry)
    requires Founded(c) && HistorySane(c, H) && Has(c, b) && Has(c, a) && In(c, a, b)
    requires forall i :: 0 <= i < |ks| ==> Desc(c, ks[i], a) && Real(c, ks[i])
    requires Moving(c, b, e.states, f.states) && InUncovered(c, H, {}, ks, a, f)
    ensures InUncovered(c, H, {}, ks, a, e)
    decreases End(c, a) - a, 0, 0, 0, |ks|
  {
    hide Moving, Alike, Inside, InTurn, Agree, Covered, Beyond;
    if ks != [] {
      var k := ks[0];
      assert Desc(c, k, a) && Real(c, k) && NodeOk(c, b);
      WeightWithin(c, k, a);
      HoldsBelow(c, b, a, k);
      HeldZone(c, b, k);
      MovingGives(c, b, e.states, f.states);
      CoveredAlike(c, b, k, e.states, f.states);
      EntryIsLocal(c, H, k, e, f);
      var e1, f1 := AddDescendants(c, H, k, e), AddDescendants(c, H, k, f);
      if Covered(c, e.states, k) {
        UncoveredMoves(c, H, b, ks[1..], a, e, f);
      } else {
        TurnMoves(c, H, b, k, e, f);
        StillMoving(c, b, Anchor(c, k), TopOf(c, k), e.states, f.states, e1.states, f1.states);
        UncoveredMoves(c, H, b, ks[1..], a, e1, f1);
      }
    }
  }

  // ---- real states that are apart take their turns freely ----

  /** Entering x alone is in order. */
  ghost predicate FreshInOrder(c: Chart, H: History, x: int)
    requires Founded(c) && HistorySane(c, H)
  {
    Has(c, x) && InTurn(c, H, {}, x, NoEntry)
  }

  /** Every real state below b enters in order by itself. */
  ghost predicate AllBelowInOrder(c: Chart, H: History, b: int)
    requires Founded(c) && HistorySane(c, H)
  {
    forall x {:trigger FreshInOrder(c, H, x)} :: Real(c, x) && Desc(c, x, b) ==> FreshInOrder(c, H, x)
  }

  /** The list of a compound state is in order by itself. */
  ghost predicate ListInOrder(c: Chart, H: History, x: int)
    requires Founded(c) && HistorySane(c, H)
  {
    IsCompound(c, x) && 0 < x ==> FreshInOrder(c, H, x)
  }

  ghost predicate AllInOrder(c: Chart, H: History)
    requires Founded(c) && HistorySane(c, H)
  {
    forall x {:trigger ListInOrder(c, H, x)} :: ListInOrder(c, H, x)
  }

  /** Nothing of E lies in x, and all of it goes with x. */
  ghost predicate Free(c: Chart, E: set<int>, x: int) {
    forall u {:trigger u in E} :: u in E ==> !In(c, u, x) && Compat(c, u, x)
  }

  /** Real states below b, none in another, that go together pairwise. */
  ghost predicate RealsSpread(c: Chart, xs: seq<int>) {
    && (forall i :: 0 <= i < |xs| ==> Real(c, xs[i]) && 0 < xs[i])
    && (forall i, j :: 0 <= i < j < |xs| ==> Apart(c, xs[i], xs[j]))
  }

  lemma FreeTurn(c: Chart, H: History, x: int, e: Entry)
    requires Founded(c) && HistorySane(c, H) && Real(c, x) && FreshInOrder(c, H, x) && Free(c, e.states, x)
    ensures InTurn(c, H, {}, x, e)
  {
    assert NodeOk(c, x);
    assert Agree(c, x, true, e.states, NoEntry.states) by {
      forall y | Reach(c, x, true, y) ensures y !in e.states { assert In(c, y, x); }
    }
    assert Beyond(c, x, e.states);
    TurnMoves(c, H, x, x, e, NoEntry);
  }

  lemma FreeAfter(c: Chart, x: int, y: int, E: set<int>, E': set<int>)
    requires Tree(c) && Real(c, x) && Real(c, y) && Apart(c, x, y) && Free(c, E, y) && Grown(c, x, true, E, E')
    ensures Free(c, E', y)
  {
    assert NodeOk(c, x) && NodeOk(c, y);
    forall u {:trigger u in E'} | u in E' ensures !In(c, u, y) && Compat(c, u, y) {
      if u !in E {
        assert Reach(c, x, true, u) && In(c, u, x);
        DisjointBelow(c, x, y, u);
        CompatDown(c, x, u, y);
      }
    }
  }

  lemma {:induction false} SpreadInOrder(c: Chart, H: History, xs: seq<int>, b: int, e: Entry)
    requires Founded(c) && HistorySane(c, H) && Has(c, b) && RealsSpread(c, xs)
    requires forall i :: 0 <= i < |xs| ==> 0 < xs[i] && Desc(c, xs[i], b) && Expandable(c, xs[i], b, true, 0)
    requires forall i {:trigger xs[i]} :: 0 <= i < |xs| ==> FreshInOrder(c, H, xs[i]) && Free(c, e.states, xs[i])
    ensures InTurns(c, H, {}, xs, b, true, 0, e)
    decreases |xs|
  {
    hide Free, Alike, FreshInOrder, InTurn;
    if xs != [] {
      var x, rest := xs[0], xs[1..];
      assert NodeOk(c, b) && 0 < x && Expandable(c, x, b, true, 0);
      assert FreshInOrder(c, H, x) && Free(c, e.states, x);
      FreeTurn(c, H, x, e);
      var e1 := AddDescendants(c, H, x, e);
      EntryIsLocal(c, H, x, e, e);
      assert Grown(c, x, true, e.states, e1.states) by { AlikeIsGrown(c, x, true, e.states, e1.states); }
      forall i {:trigger rest[i]} | 0 <= i < |rest|
        ensures 0 < rest[i] && Desc(c, rest[i], b) && Expandable(c, rest[i], b, true, 0)
          && FreshInOrder(c, H, rest[i]) && Free(c, e1.states, rest[i])
      {
        assert rest[i] == xs[i + 1];
        FreeAfter(c, x, rest[i], e.states, e1.states);
      }
      assert forall i, j :: 0 <= i < j < |rest| ==> rest[i] == xs[i + 1] && rest[j] == xs[j + 1];
      SpreadInOrder(c, H, rest, b, e1);
    }
  }

  lemma AlikeIsGrown(c: Chart, b: int, top: bool, E: set<int>, E': set<int>)
    requires Alike(c, b, top, E, E, E', E')
    ensures Grown(c, b, top, E, E')
  {}

  // ---- and walking upwards from them is in order too ----

  lemma {:induction false} ClimbsInOrder(c: Chart, H: History, xs: seq<int>, b: int, e: Entry)
    requires Enterable(c) && Recalls(c, H) && HistorySane(c, H) && Has(c, b) && AllBelowInOrder(c, H, b)
    requires Together(c, {} + e.states)
    requires forall i :: 0 <= i < |xs| ==>
      Has(c, xs[i]) && Desc(c, xs[i], b)
      && SomeoneBelow(c, e.states, Parent(c, xs[i]))
    ensures InClimbs(c, H, {}, xs, b, e)
    decreases |xs|
  {
    hide Together, Recalls, SomeoneBelow, Alike, InClimb, AllBelowInOrder;
    if xs != [] {
      assert Desc(c, xs[0], b) && NodeOk(c, xs[0]);
      var e1 := AddAncestors(c, H, Parent(c, xs[0]), b, e);
      ClimbInOrder(c, H, Parent(c, xs[0]), b, e);
      ClimbIsTogether(c, H, {}, Parent(c, xs[0]), b, e);
      AncestorsAreLocal(c, H, Parent(c, xs[0]), b, e, e);
      AlikeGrows(c, b, false, e.states, e1.states);
      SomeoneRest(c, e.states, e1.states, xs, b);
      ClimbsInOrder(c, H, xs[1..], b, e1);
    }
  }

  lemma {:induction false} ClimbInOrder(c: Chart, H: History, p: int, b: int, e: Entry)
    requires Enterable(c) && Recalls(c, H) && HistorySane(c, H) && Has(c, b) && AllBelowInOrder(c, H, b)
    requires Together(c, {} + e.states) && (p == b || Desc(c, p, b)) && SomeoneBelow(c, e.states, p)
    ensures InClimb(c, H, {}, p, b, e)
    decreases p
  {
    hide Together, Recalls, Alike, InUncovered, AllBelowInOrder;
    if p != b {
      assert Has(c, p) && NodeOk(c, p) by { assert NodeOk(c, b); }
      var w :| w in e.states && Real(c, w) && Desc(c, w, p);
      MeetsMember(c, {} + e.states, w);
      AddedTogether(c, {}, e.states, p, w);
      ParentIsReal(c, w, p);
      ChildrenBelow(c, p, b);
      assert b <= Parent(c, p) && Desc(c, p, Parent(c, p));
      var e1 := AddState(e, p);
      var e2 := if IsParallel(c, p) then AddUncovered(c, H, RealChildren(c, p), b, e1) else e1;
      if IsParallel(c, p) {
        UncoveredInOrder(c, H, p, RealChildren(c, p), b, e1);
        UncoveredIsTogether(c, H, {}, RealChildren(c, p), b, e1);
        UncoveredIsLocal(c, H, RealChildren(c, p), b, e1, e1);
        AlikeGrows(c, b, false, e1.states, e2.states);
      }
      assert SomeoneBelow(c, e2.states, Parent(c, p)) by { assert p in e2.states; }
      ClimbInOrder(c, H, Parent(c, p), b, e2);
    }
  }

  /** An uncovered region of an entered parallel state is free. */
  lemma RegionFree(c: Chart, k: int, p: int, E: set<int>)
    requires Tree(c) && Real(c, k) && Parent(c, k) == p && IsParallel(c, p) && p in E && !Covered(c, E, k)
    requires Together(c, {} + E)
    ensures Free(c, E, k)
  {
    forall u {:trigger u in E} | u in E ensures !In(c, u, k) && Compat(c, u, k) {
      assert p in {} + E && u in {} + E;
      assert Compat(c, p, u);
      CompatParallelChild(c, p, k, u);
      CompatSym(c, k, u);
    }
  }

  lemma {:induction false} UncoveredInOrder(c: Chart, H: History, p: int, ks: seq<int>, b: int, e: Entry)
    requires Enterable(c) && Recalls(c, H) && HistorySane(c, H) && Has(c, b) && AllBelowInOrder(c, H, b)
    requires Together(c, {} + e.states) && IsParallel(c, p) && p in e.states
    requires forall i :: 0 <= i < |ks| ==> Desc(c, ks[i], b) && Real(c, ks[i]) && Parent(c, ks[i]) == p
    ensures InUncovered(c, H, {}, ks, b, e)
    decreases |ks|
  {
    hide Together, Recalls, Alike, InTurn, Free;
    if ks != [] {
      var k := ks[0];
      assert Desc(c, k, b) && Real(c, k) && NodeOk(c, k);
      WeightWithin(c, k, b);
      var e1 := if Covered(c, e.states, k) then e else AddDescendants(c, H, k, e);
      if !Covered(c, e.states, k) {
        RegionFree(c, k, p, e.states);
        assert FreshInOrder(c, H, k);
        FreeTurn(c, H, k, e);
        EntryIsTogether(c, H, {}, k, e);
        EntryIsLocal(c, H, k, e, e);
        AlikeGrows(c, Anchor(c, k), TopOf(c, k), e.states, e1.states);
      }
      UncoveredInOrder(c, H, p, ks[1..], b, e1);
    }
  }

  /** Real targets that are apart, with the walks upwards from them. */
  lemma SpreadList(c: Chart, H: History, xs: seq<int>, b: int, e: Entry)
    requires Enterable(c) && Recalls(c, H) && HistorySane(c, H) && Has(c, b) && AllBelowInOrder(c, H, b)
    requires RealsSpread(c, xs) && Together(c, {} + e.states)
    requires forall i :: 0 <= i < |xs| ==> 0 < xs[i] && Desc(c, xs[i], b) && Expandable(c, xs[i], b, true, 0)
    requires forall i {:trigger xs[i]} :: 0 <= i < |xs| ==> Free(c, e.states, xs[i])
    ensures InList(c, H, {}, xs, b, true, 0, e)
  {
    hide Together, Recalls, InTurns, InClimbs, Free, FreshInOrder;
    forall i {:trigger xs[i]} | 0 <= i < |xs| ensures FreshInOrder(c, H, xs[i]) && Free(c, e.states, xs[i]) {
      assert Real(c, xs[i]) && Desc(c, xs[i], b);
    }
    SpreadInOrder(c, H, xs, b, e);
    EachIsTogether(c, H, {}, xs, b, true, 0, e);
    SomeoneForEach(c, H, xs, b, true, 0, e);
    ClimbsInOrder(c, H, xs, b, AddDescendantsOf(c, H, xs, b, true, 0, e));
  }

  /** If the list of every compound state is in order, every real state enters in order. */
  lemma {:induction false} RealInOrder(c: Chart, H: History, x: int)
    requires Enterable(c) && HistorySane(c, H) && AllInOrder(c, H) && Real(c, x) && 0 < x
    ensures FreshInOrder(c, H, x)
    decreases End(c, x) - x
  {
    assert NodeOk(c, x) && StateFounded(c, x) && Local(c, x);
    if IsCompound(c, x) {
      assert ListInOrder(c, H, x);
    } else if IsParallel(c, x) {
      ChildrenBelow(c, x, x);
      var ks := RealChildren(c, x);
      forall i {:trigger ks[i]} | 0 <= i < |ks| ensures FreshInOrder(c, H, ks[i]) {
        assert Desc(c, ks[i], x) && Real(c, ks[i]) && 0 < ks[i];
        RealInOrder(c, H, ks[i]);
      }
      ParallelInOrder(c, H, x);
    }
  }

  /** A parallel state whose regions enter in order does so too. */
  lemma ParallelInOrder(c: Chart, H: History, x: int)
    requires Founded(c) && HistorySane(c, H) && IsParallel(c, x)
    requires forall i {:trigger RealChildren(c, x)[i]} :: 0 <= i < |RealChildren(c, x)| ==>
      FreshInOrder(c, H, RealChildren(c, x)[i])
    ensures FreshInOrder(c, H, x)
  {
    hide FreshInOrder, InTurns;
    ChildrenExpandable(c, x);
    ChildrenBelow(c, x, x);
    assert NodeOk(c, x);
    var ks := RealChildren(c, x);
    RegionsSpread(c, x);
    forall i {:trigger ks[i]} | 0 <= i < |ks|
      ensures FreshInOrder(c, H, ks[i]) && Free(c, AddState(NoEntry, x).states, ks[i])
    {
      assert Desc(c, ks[i], x) && Real(c, ks[i]) && 0 < ks[i];
      CompatNested(c, x, ks[i]);
    }
    SpreadInOrder(c, H, ks, x, AddState(NoEntry, x));
    assert InTurn(c, H, {}, x, NoEntry);
    FreshIs(c, H, x);
  }

  lemma FreshIs(c: Chart, H: History, x: int)
    requires Founded(c) && HistorySane(c, H) && Has(c, x) && InTurn(c, H, {}, x, NoEntry)
    ensures FreshInOrder(c, H, x)
  {}

  lemma RegionsSpread(c: Chart, x: int)
    requires Founded(c) && IsParallel(c, x)
    ensures RealsSpread(c, RealChildren(c, x))
  {
    var ks := RealChildren(c, x);
    assert NodeOk(c, x);
    ChildrenBelow(c, x, x);
    Regions.ChildrenDistinct(c, Children(c, x));
    forall i, j | 0 <= i < j < |ks| ensures Apart(c, ks[i], ks[j]) {
      assert ks[i] != ks[j];
      assert NodeOk(c, ks[i]) && NodeOk(c, ks[j]);
      assert !Desc(c, ks[i], ks[j]) && !Desc(c, ks[j], ks[i]);
      CompatNested(c, x, ks[j]);
      CompatParallelChild(c, x, ks[i], ks[j]);
    }
  }
}
