/**
 Entry sets (interpreter.go:787-862).

 The source fills one map by mutual recursion; here the map and the default-action lists travel as an
 `Entry` value.  The lemmas show what the recursion builds below any state: a region that is closed
 upwards, complete downwards, and free of states that exclude each other.
 */
module EntrySets {
  import opened Charts
  import opened Validator
  import opened WellFormed

  /** historyValue: the states each exited history recorded. */
  type History = map<int, seq<int>>

  /** The states to enter, and for each state the owners whose default-transition actions run with it. */
  datatype Entry = Entry(states: set<int>, defaults: map<int, seq<int>>)

  const NoEntry := Entry({}, map[])

  /** Whatever the configuration, a history only ever records real states below its parent. */
  ghost predicate RecordSane(c: Chart, h: int, r: seq<int>) {
    IsHistory(c, h) && forall i :: 0 <= i < |r| ==> Real(c, r[i]) && Desc(c, r[i], Parent(c, h))
  }

  ghost predicate HistorySane(c: Chart, H: History) {
    forall h {:trigger RecordSane(c, h, H[h])} :: h in H ==> RecordSane(c, h, H[h])
  }

  ghost predicate RecordOk(c: Chart, h: int, r: seq<int>) {
    && IsHistory(c, h) && 0 < Parent(c, h)
    && Targets(c, r, Parent(c, h))
    && (forall i :: 0 <= i < |r| ==>
      Real(c, r[i])
      && (if IsDeep(c, h) then IsAtomic(c, r[i]) else Parent(c, r[i]) == Parent(c, h)))
  }

  /** Every recorded history holds states of its parent that can be active together. */
  ghost predicate HistoryOk(c: Chart, H: History) {
    HistorySane(c, H) && forall h {:trigger RecordOk(c, h, H[h])} :: h in H ==> RecordOk(c, h, H[h])
  }

  // ---- the recursion ----

  function AddState(e: Entry, s: int): Entry { e.(states := e.states + {s}) }

  function AddDefault(e: Entry, at: int, owner: int): Entry {
    e.(defaults := e.defaults[at := (if at in e.defaults then e.defaults[at] else []) + [owner]])
  }

  /** entrySetCovers (interpreter.go:852-862). */
  predicate Covered(c: Chart, E: set<int>, k: int) { exists s :: s in E && In(c, s, k) }

  ghost function Weight(c: Chart, x: int): int { End(c, Anchor(c, x)) - Anchor(c, x) }

  /** A list element may be expanded under bound b: it is smaller, or a history of b itself that is
      still allowed (`whole`), or one further down b's chain of default histories. */
  ghost predicate Expandable(c: Chart, x: int, b: int, whole: bool, rank: nat)
    requires Founded(c)
  {
    && Has(c, x) && 0 <= b < Anchor(c, x) + 1
    && (Weight(c, x) < End(c, b) - b
        || (Weight(c, x) == End(c, b) - b && IsHistory(c, x) && (whole || Rank(c, x) < rank)))
    && Weight(c, x) >= 0
  }

  /** addDescendantStatesToEnter (interpreter.go:787-833). */
  function AddDescendants(c: Chart, H: History, s: int, e: Entry): Entry
    requires Founded(c) && HistorySane(c, H) && Has(c, s)
    decreases Weight(c, s), if IsHistory(c, s) then 0 else 2, if IsHistory(c, s) then Rank(c, s) else 0, 1, 0
  {
    assert NodeOk(c, s) && StateFounded(c, s);
    if IsHistory(c, s) then
      var p := Parent(c, s);
      if s in H then
        RecordExpandable(c, H, s);
        AddAncestorsOf(c, H, H[s], p, AddDescendantsOf(c, H, H[s], p, false, Rank(c, s), e))
      else
        DefaultExpandable(c, s);
        AddAncestorsOf(c, H, Initial(c, s), p,
          AddDescendantsOf(c, H, Initial(c, s), p, false, Rank(c, s), AddDefault(e, p, s)))
    else if IsCompound(c, s) then
      BelowExpandable(c, Initial(c, s), s);
      AddAncestorsOf(c, H, Initial(c, s), s,
        AddDescendantsOf(c, H, Initial(c, s), s, true, 0, AddDefault(AddState(e, s), s, s)))
    else if IsParallel(c, s) then
      ChildrenExpandable(c, s);
      AddDescendantsOf(c, H, RealChildren(c, s), s, true, 0, AddState(e, s))
    else AddState(e, s)
  }

  function AddDescendantsOf(c: Chart, H: History, xs: seq<int>, ghost b: int, ghost whole: bool, ghost rank: nat,
    e: Entry): Entry
    requires Founded(c) && HistorySane(c, H) && Has(c, b)
    requires forall i :: 0 <= i < |xs| ==> 0 < xs[i] && Expandable(c, xs[i], b, whole, rank)
    decreases End(c, b) - b, if whole then 1 else 0, rank, 0, |xs|
  {
    if xs == [] then e
    else
      assert NodeOk(c, b) && 0 < xs[0] && Expandable(c, xs[0], b, whole, rank);
      AddDescendantsOf(c, H, xs[1..], b, whole, rank, AddDescendants(c, H, xs[0], e))
  }

  /** The second loops of lines 793-795, 803-807 and 822-826: ancestors of each state, up to b. */
  function AddAncestorsOf(c: Chart, H: History, xs: seq<int>, b: int, e: Entry): Entry
    requires Founded(c) && HistorySane(c, H) && Has(c, b)
    requires forall i :: 0 <= i < |xs| ==> Desc(c, xs[i], b)
    decreases End(c, b) - b, 0, 0, 2, |xs|
  {
    if xs == [] then e
    else
      assert Desc(c, xs[0], b);
      AddAncestorsOf(c, H, xs[1..], b, AddAncestors(c, H, Parent(c, xs[0]), b, e))
  }

  /** addAncestorStatesToEnter (interpreter.go:835-848), continuing from the ancestor p. */
  function AddAncestors(c: Chart, H: History, p: int, b: int, e: Entry): Entry
    requires Founded(c) && HistorySane(c, H) && Has(c, b) && (p == b || Desc(c, p, b))
    decreases End(c, b) - b, 0, 0, 1, p
  {
    if p == b then e
    else
      var e1 := AddState(e, p);
      ChildrenBelow(c, p, b);
      assert b <= Parent(c, p) && Desc(c, p, Parent(c, p));
      AddAncestors(c, H, Parent(c, p), b, if IsParallel(c, p) then AddUncovered(c, H, RealChildren(c, p), b, e1)
        else e1)
  }

  /** Regions of an entered parallel state that nothing covers are entered by default. */
  function AddUncovered(c: Chart, H: History, ks: seq<int>, ghost b: int, e: Entry): Entry
    requires Founded(c) && HistorySane(c, H) && Has(c, b)
    requires forall i :: 0 <= i < |ks| ==> Desc(c, ks[i], b) && Real(c, ks[i])
    decreases End(c, b) - b, 0, 0, 0, |ks|
  {
    if ks == [] then e
    else
      assert Desc(c, ks[0], b) && Real(c, ks[0]);
      WeightWithin(c, ks[0], b);
      AddUncovered(c, H, ks[1..], b, if Covered(c, e.states, ks[0]) then e else AddDescendants(c, H, ks[0], e))
  }

  // ---- why the recursion stops ----

  lemma BelowExpandable(c: Chart, xs: seq<int>, b: int)
    requires Founded(c) && Has(c, b)
    requires forall i :: 0 <= i < |xs| ==> Has(c, xs[i]) && Desc(c, xs[i], b)
    ensures forall i :: 0 <= i < |xs| ==> Expandable(c, xs[i], b, true, 0)
  {
    forall i | 0 <= i < |xs|
      ensures Expandable(c, xs[i], b, true, 0)
    {
      AnchorUp(c, xs[i], b);
      WeightWithin(c, xs[i], b);
    }
  }

  lemma WeightWithin(c: Chart, x: int, b: int)
    requires Tree(c) && Has(c, x) && Has(c, b) && Desc(c, x, b)
    ensures 0 <= Weight(c, x) && b <= Anchor(c, x)
    ensures Anchor(c, x) == b || Weight(c, x) < End(c, b) - b
  {
    AnchorUp(c, x, b);
    if Anchor(c, x) != b { assert Desc(c, Anchor(c, x), b); }
  }

  lemma RecordExpandable(c: Chart, H: History, h: int)
    requires Founded(c) && HistorySane(c, H) && h in H
    ensures RecordSane(c, h, H[h]) && Has(c, Parent(c, h)) && IsHistory(c, h)
    ensures forall i :: 0 <= i < |H[h]| ==>
      0 < H[h][i] && Desc(c, H[h][i], Parent(c, h))
      && Expandable(c, H[h][i], Parent(c, h), false, Rank(c, h))
  {
    assert RecordSane(c, h, H[h]);
    assert NodeOk(c, h) && StateFounded(c, h);
    var p := Parent(c, h);
    forall i | 0 <= i < |H[h]|
      ensures 0 < H[h][i] && Desc(c, H[h][i], p) && Expandable(c, H[h][i], p, false, Rank(c, h))
    {
      WeightWithin(c, H[h][i], p);
    }
  }

  lemma DefaultExpandable(c: Chart, h: int)
    requires Founded(c) && IsHistory(c, h)
    ensures Has(c, Parent(c, h))
    ensures forall i :: 0 <= i < |Initial(c, h)| ==>
      0 < Initial(c, h)[i] && Desc(c, Initial(c, h)[i], Parent(c, h))
      && Expandable(c, Initial(c, h)[i], Parent(c, h), false, Rank(c, h))
  {
    assert StateFounded(c, h) && NodeOk(c, h);
    var p := Parent(c, h);
    forall i | 0 <= i < |Initial(c, h)|
      ensures 0 < Initial(c, h)[i] && Desc(c, Initial(c, h)[i], p)
        && Expandable(c, Initial(c, h)[i], p, false, Rank(c, h))
    {
      var x := Initial(c, h)[i];
      WeightWithin(c, x, p);
      if Anchor(c, x) == p {
        assert IsHistory(c, x);
        RankDrops(c, h, i);
      }
    }
  }

  lemma ChildrenBelow(c: Chart, p: int, b: int)
    requires Founded(c) && 0 <= b && Has(c, p) && (p == b || Desc(c, p, b))
    ensures forall i :: 0 <= i < |RealChildren(c, p)| ==>
              Real(c, RealChildren(c, p)[i]) && Parent(c, RealChildren(c, p)[i]) == p
                && Desc(c, RealChildren(c, p)[i], b) && Desc(c, RealChildren(c, p)[i], p)
  {
    assert NodeOk(c, p);
    forall i | 0 <= i < |RealChildren(c, p)|
      ensures Real(c, RealChildren(c, p)[i]) && Parent(c, RealChildren(c, p)[i]) == p
        && Desc(c, RealChildren(c, p)[i], b) && Desc(c, RealChildren(c, p)[i], p)
    {
      var k := RealChildren(c, p)[i];
      RealsAre(c, Children(c, p), k);
      assert NodeOk(c, k);
      assert Desc(c, k, Parent(c, k));
    }
  }

  lemma ChildrenExpandable(c: Chart, s: int)
    requires Founded(c) && Has(c, s)
    ensures forall i :: 0 <= i < |RealChildren(c, s)| ==>
      0 < RealChildren(c, s)[i] && Expandable(c, RealChildren(c, s)[i], s, true, 0)
  {
    ChildrenBelow(c, s, s);
    BelowExpandable(c, RealChildren(c, s), s);
  }

  // ---- effective targets (interpreter.go:864-902) ----

  /** r is what entering the target s aims at: s itself, or what the history s stands for now. */
  ghost predicate Effective(c: Chart, H: History, s: int, r: int)
    requires Founded(c)
    decreases if Has(c, s) && Weight(c, s) >= 0 then Weight(c, s) else 0, if IsHistory(c, s) then Rank(c, s) else 0
  {
    if !IsHistory(c, s) then r == s
    else if s in H then r in H[s]
    else
      DefaultExpandable(c, s);
      assert NodeOk(c, s) && NodeOk(c, Parent(c, s));
      exists i {:trigger Initial(c, s)[i]} :: 0 <= i < |Initial(c, s)| && Effective(c, H, Initial(c, s)[i], r)
  }
}
