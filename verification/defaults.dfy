/**
 Which default transitions run their content (interpreter.go:787-862), in every chart on which entry sets can be
 computed: a compound state's runs with its entry, and an unrecorded history's with the entry of its parent; only
 if everything its targets stand for is entered; and a compound state that is entered runs its own unless
 something below it was aimed at.
 */
module Defaults {
  import opened Charts
  import opened Validator
  import opened WellFormed
  import opened EntrySets
  import opened Transitions
  import opened TargetSets
  import opened Locality
  import opened Machine

  /** Entering `at` runs the default content of `owner`. */
  ghost predicate Owes(e: Entry, at: int, owner: int) { owner in DefaultsOf(e, at) }

  /** Everything that the targets stand for is entered. */
  ghost predicate ListEntered(c: Chart, H: History, E: set<int>, xs: seq<int>)
    requires Founded(c)
  {
    forall i, r {:trigger Effective(c, H, xs[i], r)} :: 0 <= i < |xs| && Effective(c, H, xs[i], r) ==> r in E
  }

  /** A compound state for itself, or for a state one of its histories that recorded nothing; and the targets of the
      default transition are entered. */
  ghost predicate Rightful(c: Chart, H: History, E: set<int>, at: int, owner: int)
    requires Founded(c)
  {
    && ((owner == at && IsCompound(c, at)) || (IsHistory(c, owner) && Parent(c, owner) == at && owner !in H))
    && ListEntered(c, H, E, Initial(c, owner))
  }

  /** Some target of the list lies below y, which lies below b. */
  ghost predicate AimsBelow(c: Chart, xs: seq<int>, y: int, b: int) {
    Desc(c, y, b) && exists i {:trigger xs[i]} :: 0 <= i < |xs| && Desc(c, xs[i], y)
  }

  /** y lies on the way up from a target of a default transition that is taken, or from a recorded state. */
  ghost predicate Aimed(c: Chart, H: History, e: Entry, y: int) {
    || (exists at, o {:trigger Owes(e, at, o)} :: Owes(e, at, o) && AimsBelow(c, Initial(c, o), y, at))
    || (exists h {:trigger H[h]} :: h in H && AimsBelow(c, H[h], y, Parent(c, h)))
  }

  /** From e to e' entries were added: with rightful default content only; and each compound state added runs its
      own, or lies on the way up from something aimed at, xs up to b included. */
  ghost predicate Added(c: Chart, H: History, e: Entry, e': Entry, xs: seq<int>, b: int)
    requires Founded(c)
  {
    && e.states <= e'.states
    && (forall at, o {:trigger Owes(e, at, o)} :: Owes(e, at, o) ==> Owes(e', at, o))
    && (forall at, o {:trigger Owes(e', at, o)} :: Owes(e', at, o) && !Owes(e, at, o) ==>
         Rightful(c, H, e'.states, at, o))
    && (forall y {:trigger IsCompound(c, y)} :: y in e'.states && y !in e.states && IsCompound(c, y) ==>
         Owes(e', y, y) || Aimed(c, H, e', y) || AimsBelow(c, xs, y, b))
  }

  lemma NothingAdded(c: Chart, H: History, e: Entry, xs: seq<int>, b: int)
    requires Founded(c)
    ensures Added(c, H, e, e, xs, b)
  {}

  lemma AimedMore(c: Chart, H: History, e: Entry, e': Entry, y: int)
    requires Aimed(c, H, e, y) && forall at, o {:trigger Owes(e, at, o)} :: Owes(e, at, o) ==> Owes(e', at, o)
    ensures Aimed(c, H, e', y)
  {
    hide AimsBelow, Owes;
    if at, o :| Owes(e, at, o) && AimsBelow(c, Initial(c, o), y, at) { assert Owes(e', at, o); }
  }

  lemma RightfulMore(c: Chart, H: History, E: set<int>, E': set<int>, at: int, o: int)
    requires Founded(c) && Rightful(c, H, E, at, o) && E <= E'
    ensures Rightful(c, H, E', at, o)
  {}

  lemma AddedTrans(c: Chart, H: History, e: Entry, e1: Entry, e2: Entry, xs: seq<int>, b: int)
    requires Founded(c) && Added(c, H, e, e1, xs, b) && Added(c, H, e1, e2, xs, b)
    ensures Added(c, H, e, e2, xs, b)
  {
    hide Founded, Rightful, Aimed, AimsBelow, Owes;
    forall at, o {:trigger Owes(e2, at, o)} | Owes(e2, at, o) && !Owes(e, at, o)
      ensures Rightful(c, H, e2.states, at, o)
    {
      if Owes(e1, at, o) { RightfulMore(c, H, e1.states, e2.states, at, o); }
    }
    forall y {:trigger IsCompound(c, y)} | y in e2.states && y !in e.states && IsCompound(c, y)
      ensures Owes(e2, y, y) || Aimed(c, H, e2, y) || AimsBelow(c, xs, y, b)
    {
      if y in e1.states && Aimed(c, H, e1, y) { AimedMore(c, H, e1, e2, y); }
      if y in e1.states && Owes(e1, y, y) { assert Owes(e2, y, y); }
    }
  }

  /** A list may grow, or its way up be accounted for otherwise. */
  lemma AddedAs(c: Chart, H: History, e: Entry, e': Entry, xs: seq<int>, b: int, ys: seq<int>, d: int)
    requires Founded(c) && Added(c, H, e, e', xs, b)
    requires forall y {:trigger AimsBelow(c, xs, y, b)} :: AimsBelow(c, xs, y, b) ==>
      Aimed(c, H, e', y) || AimsBelow(c, ys, y, d)
    ensures Added(c, H, e, e', ys, d)
  {
    hide Founded, Rightful, Aimed, AimsBelow, Owes;
  }

  lemma OneState(c: Chart, H: History, e: Entry, s: int, xs: seq<int>, b: int)
    requires Founded(c) && (!IsCompound(c, s) || AimsBelow(c, xs, s, b))
    ensures Added(c, H, e, AddState(e, s), xs, b)
  {
    forall at, o ensures Owes(AddState(e, s), at, o) <==> Owes(e, at, o) {}
  }

  // ---- the recursion ----

  /** A default transition of `owner`, noted at `at`, whose targets were then entered, from e1 to e'. */
  lemma Noted(c: Chart, H: History, e: Entry, e1: Entry, e': Entry, at: int, owner: int)
    requires Founded(c) && Added(c, H, e1, e', Initial(c, owner), at)
      && e1.defaults == AddDefault(e, at, owner).defaults
    requires e1.states == e.states || (owner == at && e1.states == e.states + {at})
    requires ListEntered(c, H, e'.states, Initial(c, owner)) && Rightful(c, H, e'.states, at, owner)
    ensures Added(c, H, e, e', [], 0)
  {
    hide Founded, Rightful, Aimed, AimsBelow, ListEntered;
    assert forall x, o :: Owes(e1, x, o) <==> Owes(e, x, o) || (x == at && o == owner);
    assert Owes(e1, at, owner) && Owes(e', at, owner);
    hide Owes;
    forall y {:trigger IsCompound(c, y)} | y in e'.states && y !in e.states && IsCompound(c, y)
      ensures Owes(e', y, y) || Aimed(c, H, e', y)
    {
      if AimsBelow(c, Initial(c, owner), y, at) { AimedByOwner(c, H, e', at, owner, y); }
    }
  }

  lemma AimedByOwner(c: Chart, H: History, e: Entry, at: int, o: int, y: int)
    requires Owes(e, at, o) && AimsBelow(c, Initial(c, o), y, at)
    ensures Aimed(c, H, e, y)
  {
    hide AimsBelow;
  }

  lemma AimedByRecord(c: Chart, H: History, e: Entry, h: int, y: int)
    requires h in H && AimsBelow(c, H[h], y, Parent(c, h))
    ensures Aimed(c, H, e, y)
  {
    hide AimsBelow;
  }

  lemma AllEntered(c: Chart, H: History, xs: seq<int>, b: int, whole: bool, rank: nat, e: Entry)
    requires Founded(c) && HistorySane(c, H) && Has(c, b)
    requires forall i :: 0 <= i < |xs| ==> 0 < xs[i] && Desc(c, xs[i], b) && Expandable(c, xs[i], b, whole, rank)
    ensures ListEntered(c, H, AddAncestorsOf(c, H, xs, b, AddDescendantsOf(c, H, xs, b, whole, rank, e)).states, xs)
  {
    hide Alike;
    var e1 := AddDescendantsOf(c, H, xs, b, whole, rank, e);
    AncestorsOfAreLocal(c, H, xs, b, e1, e1);
    AlikeGrows(c, b, false, e1.states, AddAncestorsOf(c, H, xs, b, e1).states);
    forall i, r {:trigger Effective(c, H, xs[i], r)} | 0 <= i < |xs| && Effective(c, H, xs[i], r)
      ensures r in e1.states
    {
      EffectiveAmong(c, H, xs, b, whole, rank, e, i, r);
    }
  }

  lemma {:induction false} TargetAdds(c: Chart, H: History, s: int, e: Entry)
    requires Founded(c) && HistorySane(c, H) && Has(c, s)
    ensures Added(c, H, e, AddDescendants(c, H, s, e), [], 0)
    decreases Weight(c, s), if IsHistory(c, s) then 0 else 2, if IsHistory(c, s) then Rank(c, s) else 0, 1, 0
  {
    hide Added, Aimed, AimsBelow, Owes;
    assert NodeOk(c, s) && StateFounded(c, s);
    var p := Parent(c, s);
    if IsHistory(c, s) {
      if s in H {
        RecordExpandable(c, H, s);
        ListAdds(c, H, H[s], p, false, Rank(c, s), e);
        RecordAdds(c, H, e, AddDescendants(c, H, s, e), s);
      } else {
        DefaultExpandable(c, s);
        var e1 := AddDefault(e, p, s);
        ListAdds(c, H, Initial(c, s), p, false, Rank(c, s), e1);
        AllEntered(c, H, Initial(c, s), p, false, Rank(c, s), e1);
        Noted(c, H, e, e1, AddDescendants(c, H, s, e), p, s);
      }
    } else if IsCompound(c, s) {
      BelowExpandable(c, Initial(c, s), s);
      var e1 := AddDefault(AddState(e, s), s, s);
      ListAdds(c, H, Initial(c, s), s, true, 0, e1);
      AllEntered(c, H, Initial(c, s), s, true, 0, e1);
      Noted(c, H, e, e1, AddDescendants(c, H, s, e), s, s);
    } else {
      OneState(c, H, e, s, [], 0);
      if IsParallel(c, s) {
        ChildrenExpandable(c, s);
        EachAdds(c, H, RealChildren(c, s), s, true, 0, AddState(e, s));
        AddedTrans(c, H, e, AddState(e, s), AddDescendants(c, H, s, e), [], 0);
      }
    }
  }

  lemma RecordAdds(c: Chart, H: History, e: Entry, e': Entry, h: int)
    requires Founded(c) && h in H && Added(c, H, e, e', H[h], Parent(c, h))
    ensures Added(c, H, e, e', [], 0)
  {
    hide Added, Aimed, AimsBelow;
    forall y {:trigger AimsBelow(c, H[h], y, Parent(c, h))} | AimsBelow(c, H[h], y, Parent(c, h))
      ensures Aimed(c, H, e', y)
    {
      AimedByRecord(c, H, e', h, y);
    }
    AddedAs(c, H, e, e', H[h], Parent(c, h), [], 0);
  }

  lemma NoneAimed(c: Chart, H: History, e: Entry, e': Entry, xs: seq<int>, b: int)
    requires Founded(c) && Added(c, H, e, e', [], 0)
    ensures Added(c, H, e, e', xs, b)
  {
    hide Added, Aimed;
    AddedAs(c, H, e, e', [], 0, xs, b);
  }

  lemma {:induction false} ListAdds(c: Chart, H: History, xs: seq<int>, b: int, whole: bool, rank: nat, e: Entry)
    requires Founded(c) && HistorySane(c, H) && Has(c, b) && (whole || rank > 0)
    requires forall i :: 0 <= i < |xs| ==> 0 < xs[i] && Desc(c, xs[i], b) && Expandable(c, xs[i], b, whole, rank)
    ensures Added(c, H, e, AddAncestorsOf(c, H, xs, b, AddDescendantsOf(c, H, xs, b, whole, rank, e)), xs, b)
    decreases End(c, b) - b, if whole then 1 else 0, rank, 0, |xs| + 1
  {
    hide Added;
    var e1 := AddDescendantsOf(c, H, xs, b, whole, rank, e);
    EachAdds(c, H, xs, b, whole, rank, e);
    NoneAimed(c, H, e, e1, xs, b);
    ClimbsAdd(c, H, xs, b, e1);
    AddedTrans(c, H, e, e1, AddAncestorsOf(c, H, xs, b, e1), xs, b);
  }

  lemma {:induction false} EachAdds(c: Chart, H: History, xs: seq<int>, b: int, whole: bool, rank: nat, e: Entry)
    requires Founded(c) && HistorySane(c, H) && Has(c, b)
    requires forall i :: 0 <= i < |xs| ==> 0 < xs[i] && Expandable(c, xs[i], b, whole, rank)
    ensures Added(c, H, e, AddDescendantsOf(c, H, xs, b, whole, rank, e), [], 0)
    decreases End(c, b) - b, if whole then 1 else 0, rank, 0, |xs|
  {
    hide Added;
    if xs == [] {
      NothingAdded(c, H, e, [], 0);
    } else {
      assert NodeOk(c, b) && 0 < xs[0] && Expandable(c, xs[0], b, whole, rank);
      var e1 := AddDescendants(c, H, xs[0], e);
      TargetAdds(c, H, xs[0], e);
      EachAdds(c, H, xs[1..], b, whole, rank, e1);
      AddedTrans(c, H, e, e1, AddDescendantsOf(c, H, xs, b, whole, rank, e), [], 0);
    }
  }

  lemma SomeOf(c: Chart, H: History, e: Entry, e': Entry, xs: seq<int>, ys: seq<int>, b: int)
    requires Founded(c) && Added(c, H, e, e', xs, b) && forall x :: x in xs ==> x in ys
    ensures Added(c, H, e, e', ys, b)
  {
    hide Added, Aimed;
    forall y {:trigger AimsBelow(c, xs, y, b)} | AimsBelow(c, xs, y, b) ensures AimsBelow(c, ys, y, b) {
      var i :| 0 <= i < |xs| && Desc(c, xs[i], y);
      assert xs[i] in ys;
    }
    AddedAs(c, H, e, e', xs, b, ys, b);
  }

  lemma {:induction false} ClimbsAdd(c: Chart, H: History, xs: seq<int>, b: int, e: Entry)
    requires Founded(c) && HistorySane(c, H) && Has(c, b)
    requires forall i :: 0 <= i < |xs| ==> Desc(c, xs[i], b)
    ensures Added(c, H, e, AddAncestorsOf(c, H, xs, b, e), xs, b)
    decreases End(c, b) - b, 0, 0, 2, |xs|
  {
    hide Added;
    if xs == [] {
      NothingAdded(c, H, e, xs, b);
    } else {
      assert Desc(c, xs[0], b) && NodeOk(c, b) && Has(c, xs[0]) && NodeOk(c, xs[0]);
      var e1 := AddAncestors(c, H, Parent(c, xs[0]), b, e);
      ClimbAdds(c, H, Parent(c, xs[0]), b, e, xs[0]);
      SomeOf(c, H, e, e1, [xs[0]], xs, b);
      ClimbsAdd(c, H, xs[1..], b, e1);
      SomeOf(c, H, e1, AddAncestorsOf(c, H, xs, b, e), xs[1..], xs, b);
      AddedTrans(c, H, e, e1, AddAncestorsOf(c, H, xs, b, e), xs, b);
    }
  }

  /** The walk upwards from p, on the way from w. */
  lemma {:induction false} ClimbAdds(c: Chart, H: History, p: int, b: int, e: Entry, w: int)
    requires Founded(c) && HistorySane(c, H) && Has(c, b) && (p == b || Desc(c, p, b)) && Desc(c, w, p)
    ensures Added(c, H, e, AddAncestors(c, H, p, b, e), [w], b)
    decreases End(c, b) - b, 0, 0, 1, p
  {
    hide Added;
    if p == b {
      NothingAdded(c, H, e, [w], b);
    } else {
      assert NodeOk(c, b) && Has(c, p);
      assert NodeOk(c, p);
      ChildrenBelow(c, p, b);
      assert b <= Parent(c, p) && Desc(c, p, Parent(c, p));
      TransDesc(c, w, p, Parent(c, p));
      var e1 := AddState(e, p);
      assert AimsBelow(c, [w], p, b) by { assert [w][0] == w; }
      OneState(c, H, e, p, [w], b);
      var e2 := if IsParallel(c, p) then AddUncovered(c, H, RealChildren(c, p), b, e1) else e1;
      if IsParallel(c, p) {
        UncoveredAdds(c, H, RealChildren(c, p), b, e1);
        NoneAimed(c, H, e1, e2, [w], b);
        AddedTrans(c, H, e, e1, e2, [w], b);
      }
      ClimbAdds(c, H, Parent(c, p), b, e2, w);
      AddedTrans(c, H, e, e2, AddAncestors(c, H, p, b, e), [w], b);
    }
  }

  lemma {:induction false} UncoveredAdds(c: Chart, H: History, ks: seq<int>, b: int, e: Entry)
    requires Founded(c) && HistorySane(c, H) && Has(c, b)
    requires forall i :: 0 <= i < |ks| ==> Desc(c, ks[i], b) && Real(c, ks[i])
    ensures Added(c, H, e, AddUncovered(c, H, ks, b, e), [], 0)
    decreases End(c, b) - b, 0, 0, 0, |ks|
  {
    hide Added, Covered;
    if ks == [] {
      NothingAdded(c, H, e, [], 0);
    } else {
      assert Desc(c, ks[0], b) && Real(c, ks[0]);
      WeightWithin(c, ks[0], b);
      var e1 := if Covered(c, e.states, ks[0]) then e else AddDescendants(c, H, ks[0], e);
      NothingAdded(c, H, e, [], 0);
      if !Covered(c, e.states, ks[0]) { TargetAdds(c, H, ks[0], e); }
      UncoveredAdds(c, H, ks[1..], b, e1);
      AddedTrans(c, H, e, e1, AddUncovered(c, H, ks, b, e), [], 0);
    }
  }

  // ---- a whole entry set ----

  /** y lies on the way up from what some transition aims at, below that transition's domain. */
  ghost predicate AimedByTransition(c: Chart, H: History, ts: seq<Transition>, y: int)
    requires Tree(c)
  {
    exists i {:trigger ts[i]} :: 0 <= i < |ts| && Domain(c, H, ts[i]).Some?
      && AimsBelow(c, EffectiveTargets(c, H, ts[i]), y, Domain(c, H, ts[i]).value)
  }

  /** What the default content of an entry set comes to. */
  ghost predicate DefaultsRight(c: Chart, H: History, ts: seq<Transition>, e: Entry, e': Entry)
    requires Founded(c)
  {
    && e.states <= e'.states && (forall at, o {:trigger Owes(e, at, o)} :: Owes(e, at, o) ==> Owes(e', at, o))
    && (forall at, o {:trigger Owes(e', at, o)} :: Owes(e', at, o) && !Owes(e, at, o) ==>
         Rightful(c, H, e'.states, at, o))
    && (forall y {:trigger IsCompound(c, y)} :: y in e'.states && y !in e.states && IsCompound(c, y) ==>
         Owes(e', y, y) || Aimed(c, H, e', y) || AimedByTransition(c, H, ts, y))
  }

  lemma TransitionAdds(c: Chart, H: History, t: Transition, e: Entry)
    requires Founded(c) && HistorySane(c, H) && TargetsFounded(c, t)
    ensures DefaultsRight(c, H, [t], e, EntryOf(c, H, t, e))
  {
    hide Aimed, AimsBelow, Rightful;
    assert NodeOk(c, 0);
    assert [t][0] == t;
    if t.target == [0] {
      TargetAdds(c, H, 0, e);
    } else if t.target != [] {
      BelowExpandable(c, t.target, 0);
      TargetsUnderDomain(c, H, t);
      var e1 := AddDescendantsOf(c, H, t.target, 0, true, 0, e);
      EachAdds(c, H, t.target, 0, true, 0, e);
      if Domain(c, H, t).Some? {
        var d, rs := Domain(c, H, t).value, EffectiveTargets(c, H, t);
        NoneAimed(c, H, e, e1, rs, d);
        ClimbsAdd(c, H, rs, d, e1);
        AddedTrans(c, H, e, e1, AddAncestorsOf(c, H, rs, d, e1), rs, d);
      }
    }
    NothingBelow(c);
  }

  lemma NothingBelow(c: Chart)
    ensures forall y {:trigger AimsBelow(c, [], y, 0)} :: !AimsBelow(c, [], y, 0)
  {}

  lemma DefaultsTrans(c: Chart, H: History, ts: seq<Transition>, e: Entry, e1: Entry, e2: Entry)
    requires Founded(c) && ts != [] && DefaultsRight(c, H, [ts[0]], e, e1) && DefaultsRight(c, H, ts[1..], e1, e2)
    ensures DefaultsRight(c, H, ts, e, e2)
  {
    hide Founded, Rightful, Aimed, AimsBelow, Owes, Domain, EffectiveTargets;
    FoundedTree(c);
    forall at, o {:trigger Owes(e2, at, o)} | Owes(e2, at, o) && !Owes(e, at, o)
      ensures Rightful(c, H, e2.states, at, o)
    {
      if Owes(e1, at, o) { RightfulMore(c, H, e1.states, e2.states, at, o); }
    }
    forall y ensures AimedByTransition(c, H, [ts[0]], y) || AimedByTransition(c, H, ts[1..], y) ==>
      AimedByTransition(c, H, ts, y)
    {
      MoreTransitions(c, H, ts, y);
    }
    hide AimedByTransition;
    forall y {:trigger IsCompound(c, y)} | y in e2.states && y !in e.states && IsCompound(c, y)
      ensures Owes(e2, y, y) || Aimed(c, H, e2, y) || AimedByTransition(c, H, ts, y)
    {
      if y in e1.states && Aimed(c, H, e1, y) { AimedMore(c, H, e1, e2, y); }
      if y in e1.states && Owes(e1, y, y) { assert Owes(e2, y, y); }
    }
  }

  lemma MoreTransitions(c: Chart, H: History, ts: seq<Transition>, y: int)
    requires Tree(c) && ts != []
    ensures AimedByTransition(c, H, [ts[0]], y) || AimedByTransition(c, H, ts[1..], y) ==>
      AimedByTransition(c, H, ts, y)
  {
    hide Tree, AimsBelow, Domain, EffectiveTargets;
    assert ts[0] == [ts[0]][0];
    if AimedByTransition(c, H, ts[1..], y) {
      var i :| 0 <= i < |ts[1..]| && Domain(c, H, ts[1..][i]).Some?
        && AimsBelow(c, EffectiveTargets(c, H, ts[1..][i]), y, Domain(c, H, ts[1..][i]).value);
      assert ts[i + 1] == ts[1..][i];
    }
  }

  /** Default content in a microstep: each piece is a compound state's own or an unrecorded history's of the state
      entered, and everything its targets stand for is entered; and each compound state entered runs its own,
      unless it lies on the way up from a target of a transition, of a default transition, or from a record. */
  lemma {:induction false} EntrySetDefaults(c: Chart, H: History, ts: seq<Transition>, e: Entry)
    requires Founded(c) && HistorySane(c, H) && AllFounded(c, ts)
    ensures DefaultsRight(c, H, ts, e, EntrySet(c, H, ts, e))
    decreases |ts|
  {
    hide DefaultsRight, HistorySane;
    if ts == [] {
      NothingMore(c, H, e);
    } else {
      var rest := ts[1..];
      forall i {:trigger TargetsFounded(c, rest[i])} | 0 <= i < |rest| ensures TargetsFounded(c, rest[i]) {
        assert TargetsFounded(c, ts[i + 1]);
      }
      assert TargetsFounded(c, ts[0]);
      var e1 := EntryOf(c, H, ts[0], e);
      TransitionAdds(c, H, ts[0], e);
      EntrySetDefaults(c, H, rest, e1);
      DefaultsTrans(c, H, ts, e, e1, EntrySet(c, H, ts, e));
    }
  }

  lemma NothingMore(c: Chart, H: History, e: Entry)
    requires Founded(c)
    ensures DefaultsRight(c, H, [], e, e)
  {}

  /** And at start. */
  lemma StartDefaults(c: Chart)
    requires Founded(c)
    ensures Added(c, map[], NoEntry, StartEntry(c), Initial(c, 0), 0)
  {
    hide Added;
    assert NodeOk(c, 0) && StateFounded(c, 0);
    if IsCompound(c, 0) {
      BelowExpandable(c, Initial(c, 0), 0);
      ListAdds(c, map[], Initial(c, 0), 0, true, 0, NoEntry);
    } else if IsParallel(c, 0) {
      ChildrenExpandable(c, 0);
      EachAdds(c, map[], RealChildren(c, 0), 0, true, 0, NoEntry);
      NoneAimed(c, map[], NoEntry, StartEntry(c), Initial(c, 0), 0);
    } else {
      OneState(c, map[], NoEntry, 0, Initial(c, 0), 0);
    }
  }
}
