/**
 What the entry recursion builds: below a bound b, a region of states that is closed upwards to b,
 in which every compound state has a covered child and every parallel state has all children
 covered, and no two states exclude each other.  `holes` are parents still to be entered.
 */
module Regions {
  import opened Charts
  import opened Validator
  import opened WellFormed
  import opened EntrySets

  /** A compound state has some child with an entered state at or below it; a parallel state has all. */
  ghost predicate Complete(c: Chart, N: set<int>, s: int) {
    && (IsCompound(c, s) ==> exists k {:trigger Covered(c, N, k)} ::
      Real(c, k) && Parent(c, k) == s && Covered(c, N, k))
    && (IsParallel(c, s) ==> forall k {:trigger Covered(c, N, k)} :: Real(c, k) && Parent(c, k) == s ==>
      Covered(c, N, k))
  }

  ghost predicate Placed(c: Chart, N: set<int>, b: int, holes: set<int>, x: int) {
    && Desc(c, x, b) && Real(c, x)
    && (Parent(c, x) == b || Parent(c, x) in N || Parent(c, x) in holes)
  }

  /** `skip` is the one state whose children may still be missing (-1 for none). */
  ghost predicate Forest(c: Chart, N: set<int>, b: int, holes: set<int>, skip: int) {
    && (forall x {:trigger Placed(c, N, b, holes, x)} :: x in N ==> Placed(c, N, b, holes, x))
    && (forall x {:trigger Complete(c, N, x)} :: x in N && x != skip ==> Complete(c, N, x))
    && (forall x, y {:trigger Compat(c, x, y)} :: x in N && y in N ==> Compat(c, x, y))
  }

  ghost predicate Region(c: Chart, N: set<int>, b: int) { Forest(c, N, b, {}, -1) }

  /** The part of the chart a target stands for. */
  ghost predicate Zone(c: Chart, t: int, x: int) {
    In(c, x, Anchor(c, t)) && (IsHistory(c, t) ==> x != Anchor(c, t))
  }

  ghost function Holes(c: Chart, xs: seq<int>): set<int> { set i | 0 <= i < |xs| :: Parent(c, xs[i]) }

  ghost function Under(c: Chart, E: set<int>, b: int): set<int> { set x | x in E && Desc(c, x, b) }

  lemma CompleteGrows(c: Chart, N: set<int>, M: set<int>, s: int)
    requires N <= M && Complete(c, N, s)
    ensures Complete(c, M, s)
  {
    forall k | Covered(c, N, k)
      ensures Covered(c, M, k)
    {
      var x :| x in N && In(c, x, k);
      assert x in M;
    }
    if IsCompound(c, s) {
      var k :| Real(c, k) && Parent(c, k) == s && Covered(c, N, k);
      assert Covered(c, M, k);
    }
  }

  /** Two forests without conflicts make one. */
  lemma Join(c: Chart, N: set<int>, M: set<int>, b: int, holes: set<int>, holes': set<int>, skip: int)
    requires Forest(c, N, b, holes, skip) && Forest(c, M, b, holes', -1)
    requires forall x, y :: x in N && y in M ==> Compat(c, x, y)
    ensures Forest(c, N + M, b, holes + holes', skip)
  {
    var U := N + M;
    forall x | x in U
      ensures Placed(c, U, b, holes + holes', x)
    {
      if x in N { assert Placed(c, N, b, holes, x); } else { assert Placed(c, M, b, holes', x); }
    }
    forall x | x in U && x != skip
      ensures Complete(c, U, x)
    {
      if x in N {
        CompleteGrows(c, N, U, x);
      } else {
        assert x != -1 by { assert Placed(c, M, b, holes', x); } CompleteGrows(c, M, U, x);
      }
    }
    forall x, y | x in U && y in U
      ensures Compat(c, x, y)
    {
      if x in M && y in N { assert Compat(c, y, x); CompatSym(c, y, x); }
    }
  }

  /** A region below a smaller bound is a forest below a larger one, with that bound as its hole. */
  lemma Rebound(c: Chart, N: set<int>, p: int, b: int)
    requires Tree(c) && Region(c, N, p) && 0 <= b && 0 <= p && In(c, p, b)
    ensures Forest(c, N, b, {p}, -1)
  {
    forall x | x in N
      ensures Placed(c, N, b, {p}, x)
    {
      assert Placed(c, N, p, {}, x);
      if p != b { TransDesc(c, x, p, b); }
    }
  }

  /** States in the zones of two targets that are apart are distinct and go together. */
  lemma ZonesApart(c: Chart, s: int, t: int, x: int, y: int)
    requires Tree(c) && 0 <= Anchor(c, s) && 0 <= Anchor(c, t) && Apart(c, Anchor(c, s), Anchor(c, t))
    requires Zone(c, s, x) && Zone(c, t, y)
    ensures Compat(c, x, y) && !Zone(c, t, x) && x != y
  {
    var a, d := Anchor(c, s), Anchor(c, t);
    if In(c, x, d) { Nested(c, x, a, d); }
    if In(c, d, a) { }
    CompatDown(c, a, x, d);
    CompatSym(c, x, d);
    CompatDown(c, d, y, x);
    CompatSym(c, y, x);
  }

  // ---- entering a state or a list of states ----

  /** What AddDescendants adds for one target. */
  ghost predicate Planted(c: Chart, t: int, N: set<int>) {
    && Region(c, N, Parent(c, t))
    && (forall x :: x in N ==> Zone(c, t, x))
    && (exists w :: w in N)
    && (!IsHistory(c, t) ==> t in N)
  }

  /** What AddDescendantsOf adds for a list of targets. */
  ghost predicate PlantedAll(c: Chart, xs: seq<int>, b: int, N: set<int>) {
    Forest(c, N, b, Holes(c, xs), -1) && Rooting(c, xs, N)
  }

  /** Every entered state lies in some target's zone, and every target has one in its zone. */
  ghost predicate Rooting(c: Chart, xs: seq<int>, N: set<int>) {
    && (forall x {:trigger InZones(c, xs, x)} :: x in N ==> InZones(c, xs, x))
    && (forall i {:trigger xs[i]} :: 0 <= i < |xs| ==> Rooted(c, xs[i], N))
  }

  ghost predicate InZones(c: Chart, xs: seq<int>, x: int) { exists i :: 0 <= i < |xs| && Zone(c, xs[i], x) }

  /** Targets below b, pairwise apart (possibly none). */
  ghost predicate Spread(c: Chart, xs: seq<int>, b: int) {
    && (forall i :: 0 <= i < |xs| ==> Has(c, xs[i]) && Desc(c, xs[i], b))
    && (forall i, j :: 0 <= i < |xs| && 0 <= j < |xs| && i != j ==> Apart(c, Anchor(c, xs[i]), Anchor(c, xs[j])))
  }

  lemma {:induction false} Plant(c: Chart, H: History, s: int, e: Entry)
    requires EntryShape(c) && HistoryOk(c, H) && 0 < s && Has(c, s)
    requires forall x :: x in e.states ==> !Zone(c, s, x)
    ensures e.states <= AddDescendants(c, H, s, e).states
    ensures Planted(c, s, AddDescendants(c, H, s, e).states - e.states)
    ensures forall r :: Effective(c, H, s, r) ==> r in AddDescendants(c, H, s, e).states
    decreases Weight(c, s), if IsHistory(c, s) then 0 else 2, if IsHistory(c, s) then Rank(c, s) else 0, 1, 1
  {
    assert NodeOk(c, s) && NodeShape(c, s);
    assert Desc(c, s, Parent(c, s));
    var E' := AddDescendants(c, H, s, e).states;
    if IsHistory(c, s) {
      PlantHistory(c, H, s, e);
    } else if IsCompound(c, s) {
      BelowExpandable(c, Initial(c, s), s);
      var e1 := AddDefault(AddState(e, s), s, s);
      PlantList(c, H, Initial(c, s), s, true, 0, e1);
      WithTop(c, s, E' - e1.states);
      assert E' - e.states == (E' - e1.states) + {s};
    } else if IsParallel(c, s) {
      ChildrenExpandable(c, s);
      PlantChildren(c, H, s, AddState(e, s));
      WithTop(c, s, E' - (e.states + {s}));
      assert E' - e.states == (E' - (e.states + {s})) + {s};
    } else {
      WithTop(c, s, {});
      assert E' - e.states == {} + {s};
    }
  }

  /** Entering a history plants what it stands for below its parent. */
  lemma {:induction false} PlantHistory(c: Chart, H: History, s: int, e: Entry)
    requires EntryShape(c) && HistoryOk(c, H) && IsHistory(c, s) && forall x :: x in e.states ==> !Zone(c, s, x)
    ensures e.states <= AddDescendants(c, H, s, e).states
    ensures Planted(c, s, AddDescendants(c, H, s, e).states - e.states)
    ensures forall r :: Effective(c, H, s, r) ==> r in AddDescendants(c, H, s, e).states
    decreases Weight(c, s), 0, Rank(c, s), 1, 0
  {
    assert NodeOk(c, s) && NodeShape(c, s);
    var p := Parent(c, s);
    var E' := AddDescendants(c, H, s, e).states;
    if s in H {
      RecordExpandable(c, H, s);
      assert RecordOk(c, s, H[s]);
      forall r | r in H[s]
        ensures exists i :: 0 <= i < |H[s]| && Effective(c, H, H[s][i], r)
      {
        var i :| 0 <= i < |H[s]| && H[s][i] == r;
        assert Effective(c, H, H[s][i], r);
      }
      PlantList(c, H, H[s], p, false, Rank(c, s), e);
    } else {
      DefaultExpandable(c, s);
      PlantList(c, H, Initial(c, s), p, false, Rank(c, s), AddDefault(e, p, s));
    }
    forall x | x in E' - e.states
      ensures Zone(c, s, x)
    {
      assert Placed(c, E' - e.states, p, {}, x);
    }
  }

  /** A region below s together with s itself. */
  lemma WithTop(c: Chart, s: int, N: set<int>)
    requires EntryShape(c) && Real(c, s) && 0 < s && Region(c, N, s)
    requires IsCompound(c, s) ==> exists w :: w in N
    requires IsParallel(c, s) ==> forall k {:trigger Covered(c, N, k)} :: Real(c, k) && Parent(c, k) == s ==>
      Covered(c, N, k)
    ensures Planted(c, s, N + {s})
  {
    var U := N + {s};
    var p := Parent(c, s);
    assert Desc(c, s, p);
    forall x | x in U
      ensures Placed(c, U, p, {}, x) && Zone(c, s, x)
    {
      if x != s {
        assert Placed(c, N, s, {}, x);
        TransDesc(c, x, s, p);
      }
    }
    forall x | x in U
      ensures Complete(c, U, x)
    {
      if x in N { CompleteGrows(c, N, U, x); }
      else {
        if IsCompound(c, s) {
          var w :| w in N;
          assert Placed(c, N, s, {}, w);
          CoveredChild(c, N, s, w);
        }
        assert Complete(c, N, s);
        CompleteGrows(c, N, U, s);
      }
    }
    forall x, y | x in U && y in U
      ensures Compat(c, x, y)
    {
      if x == s || y == s {
        var z := if x == s then y else x;
        if z != s { assert Placed(c, N, s, {}, z); }
        CompatNested(c, s, z);
      }
    }
  }

  /** A state below s covers the real child of s above it. */
  lemma CoveredChild(c: Chart, N: set<int>, s: int, w: int)
    requires EntryShape(c) && Has(c, s) && w in N && Real(c, w) && Desc(c, w, s)
    ensures exists k {:trigger Covered(c, N, k)} :: Real(c, k) && Parent(c, k) == s && Covered(c, N, k)
  {
    var k := ChildToward(c, s, w);
    if k != w { RealAbove(c, w, k); }
    assert In(c, w, k);
    assert Covered(c, N, k);
  }

  lemma RealAbove(c: Chart, x: int, a: int)
    requires EntryShape(c) && 0 <= a && Desc(c, x, a)
    ensures Real(c, a)
  {
    assert NodeShape(c, a);
    HasChildren(c, a, x);
  }

  /** Zone i of the list is still untouched. */
  ghost predicate Untouched(c: Chart, xs: seq<int>, E: set<int>, i: int) {
    0 <= i < |xs| ==> forall x {:trigger x in E} :: x in E ==> !Zone(c, xs[i], x)
  }

  ghost predicate Rooted(c: Chart, t: int, N: set<int>) {
    (exists w :: w in N && Zone(c, t, w)) && (!IsHistory(c, t) ==> t in N)
  }

  lemma SpreadTail(c: Chart, xs: seq<int>, b: int)
    requires xs != [] && Spread(c, xs, b)
    ensures Spread(c, xs[1..], b)
  {
    var rest := xs[1..];
    forall i | 0 <= i < |rest|
      ensures Has(c, rest[i]) && Desc(c, rest[i], b)
    {
      assert rest[i] == xs[i + 1];
    }
    forall i, j | 0 <= i < |rest| && 0 <= j < |rest| && i != j
      ensures Apart(c, Anchor(c, rest[i]), Anchor(c, rest[j]))
    {
      assert rest[i] == xs[i + 1] && rest[j] == xs[j + 1];
    }
  }

  /** A list of targets that are apart, entered one after the other. */
  lemma {:induction false} PlantEach(c: Chart, H: History, xs: seq<int>, b: int, whole: bool, rank: nat, e: Entry)
    requires EntryShape(c) && HistoryOk(c, H) && Has(c, b) && Spread(c, xs, b)
    requires forall i :: 0 <= i < |xs| ==> 0 < xs[i] && Expandable(c, xs[i], b, whole, rank)
    requires forall i {:trigger Untouched(c, xs, e.states, i)} :: Untouched(c, xs, e.states, i)
    ensures e.states <= AddDescendantsOf(c, H, xs, b, whole, rank, e).states
    ensures PlantedAll(c, xs, b, AddDescendantsOf(c, H, xs, b, whole, rank, e).states - e.states)
    ensures forall i, r {:trigger Effective(c, H, xs[i], r)} :: 0 <= i < |xs| && Effective(c, H, xs[i], r) ==>
      r in AddDescendantsOf(c, H, xs, b, whole, rank, e).states
    decreases End(c, b) - b, if whole then 1 else 0, rank, 0, |xs|
  {
    var E' := AddDescendantsOf(c, H, xs, b, whole, rank, e).states;
    if xs != [] {
      var t, rest := xs[0], xs[1..];
      assert NodeOk(c, b) && Expandable(c, t, b, whole, rank) && Untouched(c, xs, e.states, 0);
      var e1 := AddDescendants(c, H, t, e);
      Plant(c, H, t, e);
      forall i
        ensures Untouched(c, rest, e1.states, i)
      {
        if 0 <= i < |rest| { TailUntouched(c, xs, b, e.states, e1.states, i); }
      }
      SpreadTail(c, xs, b);
      PlantEach(c, H, rest, b, whole, rank, e1);
      assert E' - e.states == (e1.states - e.states) + (E' - e1.states);
      JoinPlanted(c, xs, b, e1.states - e.states, E' - e1.states);
      forall i, r {:trigger Effective(c, H, xs[i], r)} | 0 <= i < |xs| && Effective(c, H, xs[i], r)
        ensures r in E'
      {
        if i > 0 { assert xs[i] == rest[i - 1]; }
      }
    }
  }

  lemma TailUntouched(c: Chart, xs: seq<int>, b: int, E: set<int>, E1: set<int>, i: nat)
    requires EntryShape(c) && 0 <= b && Spread(c, xs, b) && i < |xs| - 1
    requires Untouched(c, xs, E, i + 1) && E <= E1 && Planted(c, xs[0], E1 - E)
    ensures Untouched(c, xs[1..], E1, i)
  {
    var t, u := xs[0], xs[1..][i];
    assert u == xs[i + 1];
    assert Apart(c, Anchor(c, t), Anchor(c, u));
    AnchorUp(c, t, b);
    AnchorUp(c, u, b);
    forall x {:trigger x in E1} | x in E1
      ensures !Zone(c, u, x)
    {
      if x !in E {
        assert Zone(c, t, x);
        if In(c, x, Anchor(c, u)) { Nested(c, x, Anchor(c, t), Anchor(c, u)); }
      }
    }
  }

  lemma JoinPlanted(c: Chart, xs: seq<int>, b: int, N: set<int>, M: set<int>)
    requires EntryShape(c) && 0 <= b && xs != [] && Spread(c, xs, b) && Planted(c, xs[0], N)
      && PlantedAll(c, xs[1..], b, M)
    ensures PlantedAll(c, xs, b, N + M)
  {
    JoinForests(c, xs, b, N, M);
    assert Rooted(c, xs[0], N) by {
      var w :| w in N;
      assert Zone(c, xs[0], w);
    }
    JoinRooting(c, xs, N, M);
  }

  lemma JoinRooting(c: Chart, xs: seq<int>, N: set<int>, M: set<int>)
    requires xs != [] && (forall x :: x in N ==> Zone(c, xs[0], x)) && Rooted(c, xs[0], N) && Rooting(c, xs[1..], M)
    ensures Rooting(c, xs, N + M)
  {
    var rest := xs[1..];
    forall x | x in N + M
      ensures InZones(c, xs, x)
    {
      if x in N { assert Zone(c, xs[0], x); }
      else {
        assert InZones(c, rest, x);
        var i :| 0 <= i < |rest| && Zone(c, rest[i], x);
        assert xs[i + 1] == rest[i];
      }
    }
    forall i {:trigger xs[i]} | 0 <= i < |xs|
      ensures Rooted(c, xs[i], N + M)
    {
      if i == 0 {
        RootedGrows(c, xs[0], N, N + M);
      } else {
        assert xs[i] == rest[i - 1];
        RootedGrows(c, xs[i], M, N + M);
      }
    }
  }

  lemma RootedGrows(c: Chart, t: int, M: set<int>, U: set<int>)
    requires M <= U && Rooted(c, t, M)
    ensures Rooted(c, t, U)
  {
    var w :| w in M && Zone(c, t, w);
    assert w in U;
  }

  lemma JoinForests(c: Chart, xs: seq<int>, b: int, N: set<int>, M: set<int>)
    requires EntryShape(c) && 0 <= b && xs != [] && Spread(c, xs, b) && Planted(c, xs[0], N)
      && PlantedAll(c, xs[1..], b, M)
    ensures Forest(c, N + M, b, Holes(c, xs), -1)
  {
    var t := xs[0];
    assert Desc(c, t, b) && NodeOk(c, t);
    AnchorUp(c, t, b);
    assert In(c, Parent(c, t), b) by { assert b <= Parent(c, t) && Desc(c, t, Parent(c, t)); }
    Rebound(c, N, Parent(c, t), b);
    forall x, y | x in N && y in M
      ensures Compat(c, x, y)
    {
      JoinCompat(c, xs, b, N, M, x, y);
    }
    Join(c, N, M, b, {Parent(c, t)}, Holes(c, xs[1..]), -1);
    HolesSplit(c, xs);
  }

  lemma JoinCompat(c: Chart, xs: seq<int>, b: int, N: set<int>, M: set<int>, x: int, y: int)
    requires EntryShape(c) && 0 <= b && xs != [] && Spread(c, xs, b) && Planted(c, xs[0], N)
      && PlantedAll(c, xs[1..], b, M)
    requires x in N && y in M
    ensures Compat(c, x, y)
  {
    var rest := xs[1..];
    assert InZones(c, rest, y);
    var i :| 0 <= i < |rest| && Zone(c, rest[i], y);
    assert rest[i] == xs[i + 1];
    assert Apart(c, Anchor(c, xs[0]), Anchor(c, xs[i + 1]));
    AnchorUp(c, xs[i + 1], b);
    AnchorUp(c, xs[0], b);
    ZonesApart(c, xs[0], rest[i], x, y);
  }

  lemma HolesSplit(c: Chart, xs: seq<int>)
    requires xs != []
    ensures {Parent(c, xs[0])} + Holes(c, xs[1..]) == Holes(c, xs)
  {
    var rest := xs[1..];
    forall h | h in Holes(c, xs)
      ensures h in {Parent(c, xs[0])} + Holes(c, rest)
    {
      var i :| 0 <= i < |xs| && h == Parent(c, xs[i]);
      if i > 0 { assert h == Parent(c, rest[i - 1]); }
    }
    forall h | h in Holes(c, rest)
      ensures h in Holes(c, xs)
    {
      var i :| 0 <= i < |rest| && h == Parent(c, rest[i]);
      assert h == Parent(c, xs[i + 1]);
    }
  }

  // ---- entering ancestors ----

  /** All ancestors of p below b, and p itself, are in E. */
  ghost predicate Climbed(c: Chart, E: set<int>, p: int, b: int) {
    forall q {:trigger q in E} :: In(c, p, q) && Desc(c, q, b) ==> q in E
  }

  /** Only the part of E below b changed, by growing. */
  ghost predicate GrewBelow(c: Chart, E: set<int>, F: set<int>, b: int) {
    E <= F && forall x :: x in F && x !in E ==> Desc(c, x, b)
  }

  /** Walking from p up to b fills the hole p. */
  lemma {:induction false} Climb(c: Chart, H: History, p: int, b: int, e: Entry, holes: set<int>, w: int)
    requires EntryShape(c) && HistoryOk(c, H) && Has(c, b) && (p == b || Desc(c, p, b))
    requires Forest(c, Under(c, e.states, b), b, holes + {p}, -1)
    requires w in e.states && Desc(c, w, p)
    ensures var E' := AddAncestors(c, H, p, b, e).states;
            GrewBelow(c, e.states, E', b) && Forest(c, Under(c, E', b), b, holes, -1) && Climbed(c, E', p, b)
    decreases End(c, b) - b, 0, 0, 1, p
  {
    var N := Under(c, e.states, b);
    if p == b {
      FillHole(c, N, b, holes, b, -1);
      assert holes + {p} - {b} <= holes;
    } else {
      assert NodeOk(c, p);
      assert b <= Parent(c, p) && Desc(c, p, Parent(c, p));
      TransDesc(c, w, p, b);
      var e1 := AddState(e, p);
      var q := Parent(c, p);
      ChildrenBelow(c, p, b);
      AddTop(c, N, b, holes, p, w);
      assert Under(c, e1.states, b) == N + {p};
      var e2 := if IsParallel(c, p) then AddUncovered(c, H, RealChildren(c, p), b, e1) else e1;
      if IsParallel(c, p) {
        FillRegions(c, H, RealChildren(c, p), b, e1, holes + {q}, p);
        AllCovered(c, Under(c, e2.states, b), p);
      }
      assert Forest(c, Under(c, e2.states, b), b, holes + {q}, -1);
      assert Desc(c, w, q) by { TransDesc(c, w, p, q); }
      Climb(c, H, q, b, e2, holes, w);
      var E' := AddAncestors(c, H, p, b, e).states;
      forall r {:trigger r in E'} | In(c, p, r) && Desc(c, r, b)
        ensures r in E'
      {
        if r != p { assert Desc(c, p, r); assert In(c, q, r); }
      }
    }
  }

  lemma FillHole(c: Chart, N: set<int>, b: int, holes: set<int>, p: int, skip: int)
    requires Forest(c, N, b, holes + {p}, skip) && (p == b || p in N)
    ensures Forest(c, N, b, holes, skip)
  {
    forall x | x in N
      ensures Placed(c, N, b, holes, x)
    {
      assert Placed(c, N, b, holes + {p}, x);
    }
  }

  /** Adding the ancestor p of w: its hole closes, its parent becomes one, and only p's own regions may be missing. */
  lemma AddTop(c: Chart, N: set<int>, b: int, holes: set<int>, p: int, w: int)
    requires EntryShape(c) && 0 <= b && Desc(c, p, b) && Forest(c, N, b, holes + {p}, -1) && w in N && Desc(c, w, p)
    ensures Forest(c, N + {p}, b, holes + {Parent(c, p)}, if IsParallel(c, p) then p else -1)
  {
    var U := N + {p};
    var holes' := holes + {Parent(c, p)};
    assert Placed(c, N, b, holes + {p}, w);
    RealAbove(c, w, p);
    forall x | x in U
      ensures Placed(c, U, b, holes', x)
    {
      if x in N { assert Placed(c, N, b, holes + {p}, x); }
    }
    var skip := if IsParallel(c, p) then p else -1;
    forall x | x in U && x != skip
      ensures Complete(c, U, x)
    {
      if x in N {
        assert x != -1 by { assert Placed(c, N, b, holes + {p}, x); }
        CompleteGrows(c, N, U, x);
      } else {
        CoveredChild(c, N, p, w);
        assert Complete(c, N, p);
        CompleteGrows(c, N, U, p);
      }
    }
    forall x, y | x in U && y in U
      ensures Compat(c, x, y)
    {
      if x == p || y == p {
        var z := if x == p then y else x;
        if z == p { CompatNested(c, p, p); }
        else {
          assert Compat(c, w, z);
          CompatUp(c, p, w, z);
          CompatSym(c, p, z);
        }
      }
    }
  }

  /** Once every child of p is covered, p is complete like the rest. */
  lemma AllCovered(c: Chart, N: set<int>, p: int)
    requires EntryShape(c) && Has(c, p)
    requires forall i {:trigger RealChildren(c, p)[i]} :: 0 <= i < |RealChildren(c, p)| ==>
      Covered(c, N, RealChildren(c, p)[i])
    ensures IsParallel(c, p) ==> Complete(c, N, p)
  {
    forall k {:trigger Covered(c, N, k)} | Real(c, k) && Parent(c, k) == p
      ensures Covered(c, N, k)
    {
      assert NodeOk(c, p);
      RealsAre(c, Children(c, p), k);
      var i :| 0 <= i < |RealChildren(c, p)| && RealChildren(c, p)[i] == k;
    }
  }

  /** The uncovered regions of the entered parallel state p are planted one by one. */
  lemma {:induction false} FillRegions(c: Chart, H: History, ks: seq<int>, b: int, e: Entry, holes: set<int>, p: int)
    requires EntryShape(c) && HistoryOk(c, H) && Has(c, b) && IsParallel(c, p) && p in e.states && Desc(c, p, b)
    requires forall i :: 0 <= i < |ks| ==> Desc(c, ks[i], b) && Real(c, ks[i]) && Parent(c, ks[i]) == p
    requires Forest(c, Under(c, e.states, b), b, holes, p)
    ensures var E' := AddUncovered(c, H, ks, b, e).states;
            GrewBelow(c, e.states, E', b) && Forest(c, Under(c, E', b), b, holes, p)
            && forall i {:trigger ks[i]} :: 0 <= i < |ks| ==> Covered(c, Under(c, E', b), ks[i])
    decreases End(c, b) - b, 0, 0, 0, |ks|
  {
    if ks != [] {
      var k := ks[0];
      assert Desc(c, k, b) && Real(c, k);
      WeightWithin(c, k, b);
      var e1 := if Covered(c, e.states, k) then e else AddDescendants(c, H, k, e);
      if Covered(c, e.states, k) {
        var s :| s in e.states && In(c, s, k);
        TransDesc(c, s, k, b);
        assert s in Under(c, e1.states, b);
      } else {
        Plant(c, H, k, e);
        JoinRegion(c, Under(c, e.states, b), e1.states - e.states, b, holes, p, k);
        forall x | x in e1.states - e.states
          ensures Desc(c, x, b)
        {
          assert Zone(c, k, x);
          TransDesc(c, x, k, b);
        }
        assert Under(c, e1.states, b) == Under(c, e.states, b) + (e1.states - e.states);
        assert k in Under(c, e1.states, b);
        assert In(c, k, k) by { assert NodeOk(c, k); }
      }
      assert Covered(c, Under(c, e1.states, b), k);
      var rest := ks[1..];
      assert forall i :: 0 <= i < |rest| ==> rest[i] == ks[i + 1];
      FillRegions(c, H, rest, b, e1, holes, p);
      var E' := AddUncovered(c, H, ks, b, e).states;
      forall i {:trigger ks[i]} | 0 <= i < |ks|
        ensures Covered(c, Under(c, E', b), ks[i])
      {
        if i == 0 {
          var s :| s in Under(c, e1.states, b) && In(c, s, k);
          assert s in Under(c, E', b);
        } else {
          assert ks[i] == rest[i - 1];
        }
      }
    }
  }

  lemma JoinRegion(c: Chart, N: set<int>, M: set<int>, b: int, holes: set<int>, p: int, k: int)
    requires EntryShape(c) && 0 <= b && IsParallel(c, p) && p in N && Parent(c, k) == p && Real(c, k) && Desc(c, k, b)
    requires Forest(c, N, b, holes, p) && Planted(c, k, M) && !Covered(c, N, k)
    ensures Forest(c, N + M, b, holes, p)
  {
    assert Placed(c, N, b, holes, p);
    Rebound(c, M, p, b);
    forall x, y | x in N && y in M
      ensures Compat(c, x, y)
    {
      assert !In(c, x, k);
      assert Compat(c, p, x);
      CompatParallelChild(c, p, k, x);
      CompatDown(c, k, y, x);
      CompatSym(c, y, x);
    }
    Join(c, N, M, b, holes, {p}, p);
    FillHole(c, N + M, b, holes, p, p);
  }

  /** Walking up from each of the targets closes every hole on the way. */
  lemma {:induction false} ClimbAll(c: Chart, H: History, xs: seq<int>, b: int, e: Entry, holes: set<int>)
    requires EntryShape(c) && HistoryOk(c, H) && Has(c, b)
    requires forall i :: 0 <= i < |xs| ==> Has(c, xs[i]) && Desc(c, xs[i], b)
    requires Forest(c, Under(c, e.states, b), b, holes, -1)
    requires forall i {:trigger xs[i]} :: 0 <= i < |xs| ==> exists w :: w in e.states && Desc(c, w, Parent(c, xs[i]))
    ensures var E' := AddAncestorsOf(c, H, xs, b, e).states;
            GrewBelow(c, e.states, E', b) && Forest(c, Under(c, E', b), b, holes, -1)
            && forall i {:trigger xs[i]} :: 0 <= i < |xs| ==> Climbed(c, E', Parent(c, xs[i]), b)
    decreases End(c, b) - b, 0, 0, 2, |xs|
  {
    if xs != [] {
      var p := Parent(c, xs[0]);
      assert Desc(c, xs[0], b);
      assert b <= p && Desc(c, xs[0], p);
      var w :| w in e.states && Desc(c, w, p);
      MoreHoles(c, Under(c, e.states, b), b, holes, p);
      Climb(c, H, p, b, e, holes, w);
      var e1 := AddAncestors(c, H, p, b, e);
      var rest := xs[1..];
      assert forall i :: 0 <= i < |rest| ==> rest[i] == xs[i + 1];
      forall i {:trigger rest[i]} | 0 <= i < |rest|
        ensures exists w :: w in e1.states && Desc(c, w, Parent(c, rest[i]))
      {
        var w' :| w' in e.states && Desc(c, w', Parent(c, xs[i + 1]));
        assert w' in e1.states;
      }
      ClimbAll(c, H, rest, b, e1, holes);
      var E' := AddAncestorsOf(c, H, xs, b, e).states;
      forall i {:trigger xs[i]} | 0 <= i < |xs|
        ensures Climbed(c, E', Parent(c, xs[i]), b)
      {
        if i > 0 { assert xs[i] == rest[i - 1]; }
      }
    }
  }

  lemma MoreHoles(c: Chart, N: set<int>, b: int, holes: set<int>, p: int)
    requires Forest(c, N, b, holes, -1)
    ensures Forest(c, N, b, holes + {p}, -1)
  {
    forall x | x in N
      ensures Placed(c, N, b, holes + {p}, x)
    {
      assert Placed(c, N, b, holes, x);
    }
  }

  /** When every hole has been entered, the forest is a region. */
  lemma NoHoles(c: Chart, N: set<int>, b: int, holes: set<int>)
    requires Forest(c, N, b, holes, -1) && forall h :: h in holes ==> h == b || h in N
    ensures Region(c, N, b)
  {
    forall x | x in N
      ensures Placed(c, N, b, {}, x)
    {
      assert Placed(c, N, b, holes, x);
    }
  }

  lemma ZoneBelow(c: Chart, t: int, x: int, b: int)
    requires Tree(c) && Has(c, t) && 0 <= b && Desc(c, t, b) && Zone(c, t, x)
    ensures Desc(c, x, b)
  {
    AnchorUp(c, t, b);
    if Anchor(c, t) != b { TransDesc(c, x, Anchor(c, t), b); }
  }

  // ---- lists with their ancestors, and the regions of a parallel state ----

  lemma {:induction false} PlantList(c: Chart, H: History, xs: seq<int>, b: int, whole: bool, rank: nat, e: Entry)
    requires EntryShape(c) && HistoryOk(c, H) && Has(c, b) && Targets(c, xs, b) && (whole || rank > 0)
    requires forall i :: 0 <= i < |xs| ==> 0 < xs[i] && Expandable(c, xs[i], b, whole, rank)
    requires forall x :: x in e.states ==> !Desc(c, x, b)
    ensures var E' := AddAncestorsOf(c, H, xs, b, AddDescendantsOf(c, H, xs, b, whole, rank, e)).states;
            e.states <= E' && Region(c, E' - e.states, b) && (exists w :: w in E' - e.states)
            && forall i, r {:trigger Effective(c, H, xs[i], r)} :: 0 <= i < |xs| && Effective(c, H, xs[i], r) ==>
              r in E'
    decreases End(c, b) - b, if whole then 1 else 0, rank, 0, |xs| + 1
  {
    var e1 := AddDescendantsOf(c, H, xs, b, whole, rank, e);
    forall i
      ensures Untouched(c, xs, e.states, i)
    {
      if 0 <= i < |xs| {
        forall x {:trigger x in e.states} | x in e.states
          ensures !Zone(c, xs[i], x)
        {
          if Zone(c, xs[i], x) { ZoneBelow(c, xs[i], x, b); }
        }
      }
    }
    PlantEach(c, H, xs, b, whole, rank, e);
    var N := e1.states - e.states;
    assert Under(c, e1.states, b) == N by {
      forall x | x in N ensures Desc(c, x, b) { assert Placed(c, N, b, Holes(c, xs), x); }
    }
    forall i {:trigger xs[i]} | 0 <= i < |xs|
      ensures exists w :: w in e1.states && Desc(c, w, Parent(c, xs[i]))
    {
      assert Rooted(c, xs[i], N);
      var w :| w in N && Zone(c, xs[i], w);
      assert Desc(c, xs[i], Parent(c, xs[i])) && NodeOk(c, xs[i]);
      if !IsHistory(c, xs[i]) { TransDesc(c, w, xs[i], Parent(c, xs[i])); }
      assert Desc(c, w, Parent(c, xs[i]));
    }
    ClimbAll(c, H, xs, b, e1, Holes(c, xs));
    var E' := AddAncestorsOf(c, H, xs, b, e1).states;
    assert Under(c, E', b) == E' - e.states by {
      forall x | x in E' && x !in e.states
        ensures Desc(c, x, b)
      {
        if x in e1.states { assert x in Under(c, e1.states, b); }
      }
    }
    forall h | h in Holes(c, xs)
      ensures h == b || h in E' - e.states
    {
      var i :| 0 <= i < |xs| && h == Parent(c, xs[i]);
      assert Desc(c, xs[i], b) && b <= h && Desc(c, xs[i], h) && NodeOk(c, h);
      if h != b { assert In(c, h, h) && Desc(c, h, b); assert Climbed(c, E', h, b); }
    }
    NoHoles(c, E' - e.states, b, Holes(c, xs));
    assert Rooted(c, xs[0], N);
    var w :| w in N && Zone(c, xs[0], w);
    assert w in E' - e.states;
  }

  lemma SiblingRegionsApart(c: Chart, s: int)
    requires EntryShape(c) && IsParallel(c, s)
    ensures Spread(c, RealChildren(c, s), s)
  {
    var ks := RealChildren(c, s);
    ChildrenBelow(c, s, s);
    assert NodeOk(c, s);
    ChildrenDistinct(c, Children(c, s));
    forall i, j | 0 <= i < |ks| && 0 <= j < |ks| && i != j
      ensures Apart(c, Anchor(c, ks[i]), Anchor(c, ks[j]))
    {
      var k, l := ks[i], ks[j];
      assert k != l;
      assert !Desc(c, k, l) && !Desc(c, l, k);
      CompatNested(c, s, l);
      CompatParallelChild(c, s, k, l);
    }
  }

  lemma ChildrenDistinct(c: Chart, xs: seq<int>)
    requires forall i, j :: 0 <= i < j < |xs| ==> xs[i] < xs[j]
    ensures forall i, j :: 0 <= i < j < |Reals(c, xs)| ==> Reals(c, xs)[i] < Reals(c, xs)[j]
  {
    if xs != [] {
      ChildrenDistinct(c, xs[1..]);
      var r := Reals(c, xs[1..]);
      forall i | 0 <= i < |r| ensures xs[0] < r[i] {
        RealsAre(c, xs[1..], r[i]);
        assert r[i] in xs[1..];
        var j :| 0 <= j < |xs[1..]| && xs[1..][j] == r[i];
        assert xs[j + 1] == r[i];
      }
    }
  }

  lemma {:induction false} PlantChildren(c: Chart, H: History, s: int, e: Entry)
    requires EntryShape(c) && HistoryOk(c, H) && IsParallel(c, s) && 0 < s
    requires forall i :: 0 <= i < |RealChildren(c, s)| ==>
      0 < RealChildren(c, s)[i] && Expandable(c, RealChildren(c, s)[i], s, true, 0)
    requires forall x :: x in e.states ==> !Desc(c, x, s)
    ensures var E' := AddDescendantsOf(c, H, RealChildren(c, s), s, true, 0, e).states;
            e.states <= E' && Region(c, E' - e.states, s)
            && forall k {:trigger Covered(c, E' - e.states, k)} :: Real(c, k) && Parent(c, k) == s ==>
              Covered(c, E' - e.states, k)
    decreases End(c, s) - s, 1, 0, 0, |RealChildren(c, s)| + 1
  {
    var ks := RealChildren(c, s);
    SiblingRegionsApart(c, s);
    ChildrenBelow(c, s, s);
    forall i
      ensures Untouched(c, ks, e.states, i)
    {
      if 0 <= i < |ks| { assert Desc(c, ks[i], s); }
    }
    PlantEach(c, H, ks, s, true, 0, e);
    var N := AddDescendantsOf(c, H, ks, s, true, 0, e).states - e.states;
    NoHoles(c, N, s, Holes(c, ks));
    forall i {:trigger ks[i]} | 0 <= i < |ks|
      ensures Covered(c, N, ks[i])
    {
      assert ks[i] in N && NodeOk(c, ks[i]);
      assert In(c, ks[i], ks[i]);
    }
    AllCovered(c, N, s);
    assert Complete(c, N, s);
  }
}
