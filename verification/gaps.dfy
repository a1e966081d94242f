/**
 Why the interpreter theorems ask for more than the validator does.  Each chart here is accepted, breaks
 one of the conditions of `Careful`, and has a run from start to an illegal configuration: a transition's
 run-time targets exclude each other, a region that is already active is entered by default, a region of
 a parallel root is left behind, or the root itself is entered.
 */
module Gaps {
  import opened Charts
  import opened Validator
  import opened WellFormed
  import opened EntrySets
  import opened Regions
  import opened Transitions
  import opened Microsteps
  import opened Locality
  import opened TargetSets
  import opened Completeness
  import Exactness
  import Stepping
  import opened Roots
  import opened Courses

  /** Everything a transition aims at is active after it. */
  lemma TargetsEntered(c: Chart, H: History, t: Transition, i: nat, r: int)
    requires Founded(c) && HistorySane(c, H) && AllUnder(c, t.target, 0) && i < |t.target|
      && Effective(c, H, t.target[i], r)
    ensures TargetsFounded(c, t) && r in EntryOf(c, H, t, NoEntry).states
  {
    assert NodeOk(c, 0);
    BelowExpandable(c, t.target, 0);
    TargetsUnderDomain(c, H, t);
    EffectiveAmong(c, H, t.target, 0, true, 0, NoEntry, i, r);
    var e1 := AddDescendantsOf(c, H, t.target, 0, true, 0, NoEntry);
    if Domain(c, H, t).Some? { AncestorsOfAreLocal(c, H, EffectiveTargets(c, H, t), Domain(c, H, t).value, e1, e1); }
  }

  /** In any founded chart, two run-time targets that exclude each other make the next configuration illegal. */
  lemma ExclusiveTargetsAreIllegal(c: Chart, H: History, C: set<int>, t: Transition, i: nat, j: nat, r: int, q: int)
    requires Founded(c) && HistorySane(c, H) && AllUnder(c, t.target, 0) && i < |t.target| && j < |t.target|
    requires Effective(c, H, t.target[i], r) && Effective(c, H, t.target[j], q) && !Compat(c, r, q)
    ensures TargetsFounded(c, t) && !Legal(c, After(c, H, C, t))
  {
    TargetsEntered(c, H, t, i, r);
    TargetsEntered(c, H, t, j, q);
    if Legal(c, After(c, H, C, t)) { LegalCompat(c, After(c, H, C, t), r, q); }
  }

  // ---- drawing small charts ----

  /** Rows of a chart in document order: kind, parent, first number after the subtree, children, and targets of
      the initial or default transition. */
  datatype Row = Row(kind: Kind, parent: int, end: int, children: seq<int>, initial: seq<int>)

  /** The first transition drawn for x, if there is one. */
  function From(ts: seq<Transition>, x: int): seq<Transition> {
    if ts == [] then [] else if ts[0].source == x then [ts[0]] else From(ts[1..], x)
  }

  function Draw(rows: seq<Row>, ts: seq<Transition>): Chart {
    Chart(seq(|rows|, x requires 0 <= x < |rows| =>
      State("", rows[x].kind, true, rows[x].parent, rows[x].children, rows[x].end, rows[x].initial, From(ts, x), [],
        false)))
  }

  lemma {:induction false} FromIs(ts: seq<Transition>, x: int)
    ensures From(ts, x) == [] || exists i {:trigger ts[i]} ::
      0 <= i < |ts| && ts[i].source == x && From(ts, x) == [ts[i]]
    decreases |ts|
  {
    if ts != [] && ts[0].source != x {
      FromIs(ts[1..], x);
      if From(ts, x) != [] {
        var i :| 0 <= i < |ts[1..]| && ts[1..][i].source == x && From(ts, x) == [ts[1..][i]];
        assert ts[i + 1] == ts[1..][i];
      }
    }
  }

  lemma FromNone(ts: seq<Transition>, x: int)
    requires forall i {:trigger ts[i]} :: 0 <= i < |ts| ==> ts[i].source != x
    ensures From(ts, x) == []
  {
    FromIs(ts, x);
  }

  /** A drawn transition that is the first of its source belongs to that state alone. */
  lemma DrawnOwn(rows: seq<Row>, ts: seq<Transition>, t: Transition)
    requires 0 <= t.source < |rows| && From(ts, t.source) == [t]
    ensures Own(Draw(rows, ts), t)
  {
    forall x {:trigger Charts.Transitions(Draw(rows, ts), x)}
      ensures t in Charts.Transitions(Draw(rows, ts), x) <==> x == t.source
    {
      FromIs(ts, x);
    }
  }

  function Go(source: int, target: seq<int>, isInternal: bool): Transition {
    Transition(source, 0, ["go"], target, isInternal)
  }

  /** The rows of a tree, checked row by row. */
  ghost predicate RowOk(rows: seq<Row>, x: int) {
    0 <= x < |rows| ==>
      && x < rows[x].end <= |rows|
      && (if x == 0 then rows[x].parent == -1 && rows[x].end == |rows|
        else 0 <= rows[x].parent < x && x < rows[rows[x].parent].end)
      && (forall i, j :: 0 <= i < j < |rows[x].children| ==> rows[x].children[i] < rows[x].children[j])
      && (forall k {:trigger k in rows[x].children} {:trigger rows[k]} :: k in rows[x].children <==>
        0 <= k < |rows| && rows[k].parent == x)
  }

  ghost predicate RowsNested(rows: seq<Row>, x: int, a: int) {
    0 <= a < x < |rows| && x < rows[a].end ==> rows[x].end <= rows[a].end && a <= rows[x].parent
  }

  lemma DrawnTree(rows: seq<Row>, ts: seq<Transition>)
    requires |rows| > 0 && (forall x {:trigger RowOk(rows, x)} :: RowOk(rows, x))
      && forall x, a {:trigger RowsNested(rows, x, a)} :: RowsNested(rows, x, a)
    ensures Tree(Draw(rows, ts))
  {
    var c := Draw(rows, ts);
    assert RowOk(rows, 0);
    forall x | Has(c, x) ensures NodeOk(c, x) {
      assert RowOk(rows, x);
      forall k ensures k in Children(c, x) <==> Has(c, k) && Parent(c, k) == x {
        if Has(c, k) { assert rows[k].parent == Parent(c, k); }
      }
    }
    forall x {:trigger Parent(c, x)} | 0 < x < |c.states| ensures 0 <= Parent(c, x) && Desc(c, x, Parent(c, x)) {
      assert RowOk(rows, x);
    }
    forall x, a {:trigger Desc(c, x, a)} | Desc(c, x, a) && 0 <= a
      ensures x < End(c, x) <= End(c, a) <= |c.states| && a <= Parent(c, x)
    {
      assert RowOk(rows, a) && RowOk(rows, x) && RowsNested(rows, x, a);
    }
  }

  /** What is left to check of a drawn chart. */
  lemma DrawnIsAccepted(rows: seq<Row>, ts: seq<Transition>)
    requires |rows| > 0 && (forall x {:trigger RowOk(rows, x)} :: RowOk(rows, x))
      && forall x, a {:trigger RowsNested(rows, x, a)} :: RowsNested(rows, x, a)
    requires Tree(Draw(rows, ts)) && forall x {:trigger Local(Draw(rows, ts), x)} :: Has(Draw(rows, ts), x) ==>
      Local(Draw(rows, ts), x)
    requires forall x {:trigger Initial(Draw(rows, ts), x)} :: Has(Draw(rows, ts), x) ==>
      TargetSetOk(Draw(rows, ts), Initial(Draw(rows, ts), x))
    requires forall i {:trigger ts[i]} :: 0 <= i < |ts| ==>
      ts[i].index == 0 && TargetSetOk(Draw(rows, ts), ts[i].target)
    ensures Accepted(Draw(rows, ts)) && Founded(Draw(rows, ts))
  {
    var c := Draw(rows, ts);
    forall x ensures ListsOk(c, x) {
      if Has(c, x) {
        assert TargetSetOk(c, Initial(c, x));
        FromIs(ts, x);
      }
    }
    assert forall s :: Invokes(c, s) == [];
    AcceptedIsFounded(c);
  }

  lemma OneTargetOk(c: Chart, x: int, atoms: set<int>)
    requires Tree(c) && Has(c, x) && DefaultAtoms(c, x, {}) == Some(atoms) && TogetherOk(c, atoms)
    ensures TargetSetOk(c, [x])
  {
    assert [x][1..] == [];
    assert DefaultAtomsOf(c, [x], {}) == Some(atoms + {});
  }

  lemma AtomOk(c: Chart, x: int)
    requires Tree(c) && IsAtomic(c, x)
    ensures TargetSetOk(c, [x])
  {
    OneTargetOk(c, x, {x});
  }

  /** Two atoms on two sides of one parallel state go together. */
  lemma TwoTogether(c: Chart, a: int, d: int)
    requires Tree(c) && Has(c, a) && Has(c, d) && IsParallel(c, Lca(c, a, d)) && IsParallel(c, Lca(c, d, a))
    ensures TogetherOk(c, {a, d})
  {}

  lemma TwoTargetsOk(c: Chart, x: int, y: int, a: int, d: int)
    requires Tree(c) && Has(c, x) && Has(c, y) && x != y && !Desc(c, x, y) && !Desc(c, y, x)
    requires DefaultAtoms(c, x, {}) == Some({a}) && DefaultAtoms(c, y, {}) == Some({d}) && TogetherOk(c, {a, d})
    ensures TargetSetOk(c, [x, y])
  {
    assert [x, y][1..] == [y] && [y][1..] == [];
    assert {d} + {} == {d};
    assert DefaultAtomsOf(c, [y], {}) == Some({d} + {});
    assert DefaultAtomsOf(c, [x, y], {}) == Some({a} + {d});
    assert {a} + {d} == {a, d};
  }

  /** A history with one atomic default target expands to it. */
  lemma HistoryAtom(c: Chart, h: int, a: int)
    requires IsHistory(c, h) && Initial(c, h) == [a] && IsAtomic(c, a) && a != h
    ensures DefaultAtoms(c, h, {}) == Some({a})
  {
    assert [a][1..] == [];
    assert DefaultAtomsOf(c, [a], {h}) == Some({a} + {});
    assert {} + {h} == {h} && {a} + {} == {a};
  }

  // ---- (a) a parallel root (interpreter.go:150-152, 835-848) ----

  /** root || { a; b { b1, b2 } }, with a going to b2. */
  const ParallelRows := [Row(Parallel, -1, 5, [1, 2], []), Row(Atomic, 0, 2, [], []), Row(Compound, 0, 5, [3, 4], [3]),
    Row(Atomic, 2, 4, [], []), Row(Atomic, 2, 5, [], [])]

  const ParallelStep := Go(1, [4], false)

  function ParallelRoot(): Chart { Draw(ParallelRows, [ParallelStep]) }

  lemma ParallelLocal(x: int)
    requires Tree(ParallelRoot()) && Has(ParallelRoot(), x)
    ensures Local(ParallelRoot(), x)
  {
    var c := ParallelRoot();
    if x == 0 { assert RealChildren(c, x)[0] == 1; RealsAre(c, [1, 2], 1); RealsAre(c, [1, 2], 2); }
    if x == 2 { RealsAre(c, [3, 4], 3); }
  }

  lemma ParallelTargets(x: int)
    requires Tree(ParallelRoot()) && Has(ParallelRoot(), x)
    ensures TargetSetOk(ParallelRoot(), Initial(ParallelRoot(), x)) && TargetSetOk(ParallelRoot(), [4])
  {
    var c := ParallelRoot();
    AtomOk(c, 3);
    AtomOk(c, 4);
    EmptyOk(c);
    hide TargetSetOk, Tree;
  }

  lemma ParallelRootAccepted()
    ensures Accepted(ParallelRoot()) && Founded(ParallelRoot())
  {
    var c := ParallelRoot();
    DrawnTree(ParallelRows, [ParallelStep]);
    assert |c.states| == 5;
    forall x | Has(c, x) ensures Local(c, x) && TargetSetOk(c, Initial(c, x)) && TargetSetOk(c, [4]) {
      ParallelLocal(x);
      ParallelTargets(x);
    }
    assert Has(c, 0);
    hide TargetSetOk, Local, Tree;
    DrawnIsAccepted(ParallelRows, [ParallelStep]);
  }

  lemma ParallelDomain()
    requires Tree(ParallelRoot())
    ensures EffectiveTargets(ParallelRoot(), map[], ParallelStep) == [4]
      && Domain(ParallelRoot(), map[], ParallelStep) == Some(0)
  {
    hide From;
    var c := ParallelRoot();
    assert CollectTarget(c, map[], 4, [], {}) == [4];
    assert [4][1..] == [];
    assert [1] + [4] == [1, 4];
    assert FindLcca(c, [1, 4]) == 0;
  }

  lemma ParallelStart()
    requires Accepted(ParallelRoot()) && Founded(ParallelRoot())
    ensures 1 in StartEntry(ParallelRoot()).states && AllChildren(ParallelRoot(), StartEntry(ParallelRoot()).states, 0)
  {
    hide StartEntry;
    AllRegionsStart(ParallelRoot());
    assert Real(ParallelRoot(), 1) && Parent(ParallelRoot(), 1) == 0;
  }

  /** Start enters both regions; then region a is left and never entered again. */
  lemma ParallelRootLosesARegion()
    ensures Accepted(ParallelRoot()) && Founded(ParallelRoot()) && TargetsFounded(ParallelRoot(), ParallelStep)
    ensures var p := Position(StartEntry(ParallelRoot()).states, map[]);
      var q := Taken(ParallelRoot(), p, ParallelStep);
      AllChildren(ParallelRoot(), p.config, 0) && Leads(ParallelRoot(), p, q)
        && !AllChildren(ParallelRoot(), q.config, 0)
  {
    var c := ParallelRoot();
    ParallelRootAccepted();
    ParallelDomain();
    ParallelStart();
    assert AllUnder(c, [4], 0);
    DrawnOwn(ParallelRows, [ParallelStep], ParallelStep);
    hide Accepted, Founded, StartEntry, AllChildren, Leads, Taken;
    var p := Position(StartEntry(c).states, map[]);
    AloneLeads(c, p, ParallelStep, 1);
    NotAimed();
    ParallelRootIff(c, map[], p.config, ParallelStep);
    assert Taken(c, p, ParallelStep).config == After(c, map[], p.config, ParallelStep) by {
      TakenIs(c, p, ParallelStep);
    }
  }

  lemma NotAimed()
    requires Tree(ParallelRoot()) && EffectiveTargets(ParallelRoot(), map[], ParallelStep) == [4]
    ensures Real(ParallelRoot(), 1) && Parent(ParallelRoot(), 1) == 0
      && !AimedAt(ParallelRoot(), map[], ParallelStep, 1)
  {
    hide EffectiveTargets;
    assert !In(ParallelRoot(), 4, 1);
  }

  lemma TakenIs(c: Chart, p: Position, t: Transition)
    requires Founded(c) && HistorySane(c, p.history) && TargetsFounded(c, t)
    ensures Taken(c, p, t).config == After(c, p.history, p.config, t)
    ensures Taken(c, p, t).history == RecordAll(c, p.config, SortDesc(ExitSet(c, p.history, p.config, t), |c.states|),
      p.history)
  {}

  lemma InStart(c: Chart, x: int)
    requires Founded(c) && IsCompound(c, 0) && Initial(c, 0) == [x] && Real(c, x)
    ensures 0 < x && AddDescendants(c, map[], x, NoEntry).states <= StartEntry(c).states && x in StartEntry(c).states
  {
    assert NodeOk(c, 0) && StateFounded(c, 0);
    assert AllUnder(c, [x], 0) && [x][0] == x;
    BelowExpandable(c, [x], 0);
    EntersItself(c, map[], x, NoEntry);
    var e := AddDescendants(c, map[], x, NoEntry);
    assert [x][1..] == [];
    assert AddDescendantsOf(c, map[], [x], 0, true, 0, NoEntry) == e;
    AncestorsOfAreLocal(c, map[], [x], 0, e, e);
  }

  // ---- the root as a target (interpreter.go:940-946, 951-960) ----

  const RootRows := [Row(Compound, -1, 2, [1], [1]), Row(Atomic, 0, 2, [], [])]

  const RootStep := Go(1, [0], false)

  /** root { a }, with a going to root. */
  function RootTarget(): Chart { Draw(RootRows, [RootStep]) }

  lemma RootTargetAccepted()
    ensures Accepted(RootTarget()) && Founded(RootTarget())
  {
    var c := RootTarget();
    DrawnTree(RootRows, [RootStep]);
    AtomOk(c, 1);
    assert [1][1..] == [] && {} + {0} == {0} && {1} + {} == {1};
    assert DefaultAtomsOf(c, [1], {0}) == Some({1} + {});
    OneTargetOk(c, 0, {1});
    RealsAre(c, [1], 1);
    forall x | Has(c, x) ensures Local(c, x) && TargetSetOk(c, Initial(c, x)) { assert x == 0 || x == 1; }
    DrawnIsAccepted(RootRows, [RootStep]);
  }

  /** The root itself, which is never a member of a configuration, becomes one. */
  lemma RootTargetGoesWrong()
    ensures Accepted(RootTarget()) && Founded(RootTarget()) && GoesWrong(RootTarget())
  {
    var c := RootTarget();
    RootTargetAccepted();
    InStart(c, 1);
    DrawnOwn(RootRows, [RootStep], RootStep);
    assert IsAtomic(c, 1) && In(c, 1, 1) && TargetsFounded(c, RootStep);
    hide Accepted, Founded, StartEntry, Leads, Taken, Legal, GoesWrong, Own;
    var p := Position(StartEntry(c).states, map[]);
    AloneLeads(c, p, RootStep, 1);
    TakenIs(c, p, RootStep);
    RootTargetIff(c, map[], p.config, RootStep);
    OneStep(c, Taken(c, p, RootStep));
  }

  // ---- (b) a history beside another target below its parent ----
  // (definition_validate.go:843-863, interpreter.go:789-795)

  /** root { p || { h (deep, default a); a; b { b1, b2 } } }, with the root going to h and b2. */
  const OverlapRows := [
    Row(Compound, -1, 7, [1], [1]), Row(Parallel, 0, 7, [2, 3, 4], []), Row(Kind.History, 1, 3, [], [3]),
      Row(Atomic, 1, 4, [], []),
    Row(Compound, 1, 7, [5, 6], [5]), Row(Atomic, 4, 6, [], []), Row(Atomic, 4, 7, [], [])]

  const OverlapStep := Go(0, [2, 6], false)

  function Overlap(): Chart { Draw(OverlapRows, [OverlapStep]) }

  lemma OverlapTree()
    ensures Tree(Overlap()) && |Overlap().states| == 7
    ensures (forall x {:trigger RowOk(OverlapRows, x)} :: RowOk(OverlapRows, x))
      && forall x, a {:trigger RowsNested(OverlapRows, x, a)} :: RowsNested(OverlapRows, x, a)
  {
    DrawnTree(OverlapRows, [OverlapStep]);
  }

  lemma OverlapLeaf(x: int)
    requires x == 2 || IsAtomic(Overlap(), x)
    ensures Local(Overlap(), x)
  {
    if x == 2 { FromNone([OverlapStep], x); }
  }

  lemma OverlapLocal(x: int)
    requires Tree(Overlap()) && Has(Overlap(), x)
    ensures Local(Overlap(), x)
  {
    var c := Overlap();
    if x == 2 || IsAtomic(c, x) { OverlapLeaf(x); hide Local; }
    else if x == 0 { RealsAre(c, [1], 1); }
    else if x == 1 { assert forall k :: k in RealChildren(c, 1) ==> KindOf(c, k) != Final; RealsAre(c, [2, 3, 4], 3); }
    else if x == 4 { RealsAre(c, [5, 6], 5); }
  }

  lemma OverlapTargets()
    requires Tree(Overlap())
    ensures TargetSetOk(Overlap(), [1]) && TargetSetOk(Overlap(), [3]) && TargetSetOk(Overlap(), [5])
      && TargetSetOk(Overlap(), [2, 6])
  {
    var c := Overlap();
    AtomOk(c, 3);
    AtomOk(c, 5);
    assert Lca(c, 3, 6) == 1 && Lca(c, 6, 3) == 1 && Lca(c, 3, 5) == 1 && Lca(c, 5, 3) == 1;
    TwoTogether(c, 3, 6);
    TwoTogether(c, 3, 5);
    HistoryAtom(c, 2, 3);
    TwoTargetsOk(c, 2, 6, 3, 6);
    OverlapDefault();
    OneTargetOk(c, 1, {3, 5});
  }

  lemma OverlapDefault()
    ensures DefaultAtoms(Overlap(), 1, {}) == Some({3, 5})
  {
    var c := Overlap();
    assert Reals(c, [3, 4]) == [3, 4] by { assert [3, 4][1..] == [4] && [4][1..] == []; assert Reals(c, [4]) == [4]; }
    assert [2, 3, 4][1..] == [3, 4];
    assert RealChildren(c, 1) == [3, 4];
    assert [5][1..] == [] && {5} + {} == {5} && {} + {1} == {1};
    assert DefaultAtomsOf(c, [5], {1} + {4}) == Some({5} + {});
    assert DefaultAtoms(c, 4, {1}) == Some({5});
    assert [4][1..] == [] && [3, 4][1..] == [4];
    assert DefaultAtomsOf(c, [4], {1}) == Some({5} + {});
    assert DefaultAtomsOf(c, [3, 4], {1}) == Some({3} + {5});
    assert {3} + {5} == {3, 5};
  }

  lemma OverlapInitial(x: int)
    requires Tree(Overlap()) && Has(Overlap(), x)
    ensures Initial(Overlap(), x) == OverlapRows[x].initial && TargetSetOk(Overlap(), Initial(Overlap(), x))
  {
    OverlapTargets();
    hide TargetSetOk, Tree;
    EmptyOk(Overlap());
  }

  lemma EmptyOk(c: Chart)
    requires Tree(c)
    ensures TargetSetOk(c, [])
  {}

  lemma OverlapAccepted()
    ensures Accepted(Overlap()) && Founded(Overlap())
  {
    OverlapTree();
    forall x | Has(Overlap(), x) ensures Local(Overlap(), x) { OverlapLocal(x); }
    forall x {:trigger Initial(Overlap(), x)} | Has(Overlap(), x)
      ensures TargetSetOk(Overlap(), Initial(Overlap(), x))
    {
      OverlapInitial(x);
    }
    OverlapTargets();
    hide TargetSetOk, Local, Tree;
    DrawnIsAccepted(OverlapRows, [OverlapStep]);
  }

  /** With b1 recorded, going to h and b2 enters both b1 and b2, whatever was active. */
  lemma OverlapEntersBoth(H: History, C: set<int>)
    requires HistorySane(Overlap(), H) && 2 in H && 5 in H[2]
    ensures Accepted(Overlap()) && Founded(Overlap()) && !Legal(Overlap(), After(Overlap(), H, C, OverlapStep))
  {
    var c := Overlap();
    OverlapAccepted();
    assert In(c, 5, 5) && In(c, 6, 6) && Parent(c, 5) == 4 && Parent(c, 6) == 4 && IsCompound(c, 4);
    assert !Compat(c, 5, 6);
    assert Effective(c, H, 2, 5) && Effective(c, H, 6, 6);
    ExclusiveTargetsAreIllegal(c, H, C, OverlapStep, 0, 1, 5, 6);
  }

  /** Start enters p with a, b and b1. */
  lemma OverlapStart()
    requires Founded(Overlap())
    ensures 1 in StartEntry(Overlap()).states && 5 in StartEntry(Overlap()).states
  {
    hide From;
    var c := Overlap();
    assert Initial(c, 0) == [1];
    InStart(c, 1);
    assert Reals(c, [3, 4]) == [3, 4] by { assert [3, 4][1..] == [4] && [4][1..] == []; assert Reals(c, [4]) == [4]; }
    assert [2, 3, 4][1..] == [3, 4];
    assert RealChildren(c, 1) == [3, 4];
    ChildrenExpandable(c, 1);
    var e1 := AddState(NoEntry, 1);
    var e2 := AddDescendants(c, map[], 3, e1);
    EffectiveInitial(c, 4, e2);
    assert [3, 4][1..] == [4] && [4][1..] == [];
    assert AddDescendantsOf(c, map[], [4], 1, true, 0, e2) == AddDescendants(c, map[], 4, e2);
    assert AddDescendantsOf(c, map[], [3, 4], 1, true, 0, e1) == AddDescendants(c, map[], 4, e2);
    assert AddDescendants(c, map[], 1, NoEntry) == AddDescendants(c, map[], 4, e2);
  }

  lemma StartIsReal(c: Chart)
    requires Accepted(c) && Founded(c) && IsCompound(c, 0)
    ensures forall x :: x in StartEntry(c).states ==> Real(c, x)
  {
    assert NodeOk(c, 0) && StateFounded(c, 0) && Local(c, 0);
    hide Exactness.Seated;
    Exactness.DefaultEntrySeated(c, Initial(c, 0));
    forall x | x in StartEntry(c).states ensures Real(c, x) { Exactness.SeatedIsReal(c, StartEntry(c).states, x); }
  }

  /** The first step, whatever was active with b1, records b1. */
  lemma OverlapRecords(C: set<int>)
    requires Accepted(Overlap()) && Founded(Overlap()) && 1 in C && 5 in C && forall x :: x in C ==> Real(Overlap(), x)
    ensures var R := RecordAll(Overlap(), C, SortDesc(ExitSet(Overlap(), map[], C, OverlapStep), 7), map[]);
      HistorySane(Overlap(), R) && 2 in R && 5 in R[2]
  {
    hide From;
    var c := Overlap();
    assert |c.states| == 7 && AllUnder(c, [2, 6], 0);
    var d := Stepping.DomainIs(c, map[], OverlapStep);
    var X := ExitSet(c, map[], C, OverlapStep);
    assert 1 in X;
    var order := SortDesc(X, 7);
    forall i | 0 <= i < |order| ensures Has(c, order[i]) { assert order[i] in order; }
    RecordAllIs(c, C, order, map[], 2);
    assert Parent(c, 2) == 1 && IsHistory(c, 2);
    assert 5 in Recorded(c, C, 2);
    RecordKeepsSane(c, C, order, map[]);
  }

  /** Start, go, go: the second step enters both b1 and b2. */
  lemma OverlapGoesWrong()
    ensures Accepted(Overlap()) && Founded(Overlap()) && GoesWrong(Overlap())
  {
    var c, t := Overlap(), OverlapStep;
    OverlapAccepted();
    OverlapStart();
    StartIsReal(c);
    assert AllUnder(c, [2, 6], 0) && IsAtomic(c, 5) && IsAtomic(c, 6) && In(c, 5, 0) && In(c, 6, 0) && |c.states| == 7;
    DrawnOwn(OverlapRows, [OverlapStep], OverlapStep);
    hide Accepted, Founded, StartEntry, Leads, Taken, Legal, GoesWrong, Own, After, RecordAll, ExitSet, EntryOf;
    var p := Position(StartEntry(c).states, map[]);
    AloneLeads(c, p, t, 5);
    var q := Taken(c, p, t);
    TakenIs(c, p, t);
    OverlapRecords(p.config);
    TargetsEntered(c, map[], t, 1, 6);
    EnteredIsActive(c, map[], p.config, t, 6);
    AloneLeads(c, q, t, 6);
    TakenIs(c, q, t);
    OverlapEntersBoth(q.history, q.config);
    TwoSteps(c, q, Taken(c, q, t));
  }

  lemma EnteredIsActive(c: Chart, H: History, C: set<int>, t: Transition, r: int)
    requires Founded(c) && HistorySane(c, H) && TargetsFounded(c, t) && r in EntryOf(c, H, t, NoEntry).states
    ensures r in After(c, H, C, t)
  {}

  // ---- (c) a history targeted from inside its parent (interpreter.go:803-807, 835-848) ----

  /** root { h (deep, default a1); x || { a { a1 }; b { b1, b2 } } }, with a going to h by an internal
      transition, and b1 to b2. */
  const InsideRows := [
    Row(Compound, -1, 8, [1, 2], [2]), Row(Kind.History, 0, 2, [], [4]), Row(Parallel, 0, 8, [3, 5], []),
      Row(Compound, 2, 5, [4], [4]),
    Row(Atomic, 3, 5, [], []), Row(Compound, 2, 8, [6, 7], [6]), Row(Atomic, 5, 7, [], []), Row(Atomic, 5, 8, [], [])]

  const InsideStep := Go(3, [1], true)

  const InsideMove := Go(6, [7], false)

  function FromInside(): Chart { Draw(InsideRows, [InsideStep, InsideMove]) }

  lemma FromInsideTree()
    ensures Tree(FromInside()) && |FromInside().states| == 8
    ensures (forall x {:trigger RowOk(InsideRows, x)} :: RowOk(InsideRows, x))
      && forall x, a {:trigger RowsNested(InsideRows, x, a)} :: RowsNested(InsideRows, x, a)
  {
    DrawnTree(InsideRows, [InsideStep, InsideMove]);
  }

  lemma FromInsideLeaf(x: int)
    requires x == 1 || IsAtomic(FromInside(), x)
    ensures Local(FromInside(), x)
  {
    if x == 1 { FromNone([InsideStep, InsideMove], x); }
  }

  lemma FromInsideLocal(x: int)
    requires Tree(FromInside()) && Has(FromInside(), x)
    ensures Local(FromInside(), x)
  {
    var c := FromInside();
    if x == 1 || IsAtomic(c, x) { FromInsideLeaf(x); hide Local; }
    else if x == 0 { RealsAre(c, [1, 2], 2); }
    else if x == 2 { RealsAre(c, [3, 5], 3); RealsAre(c, [3, 5], 5); }
    else if x == 3 { RealsAre(c, [4], 4); }
    else if x == 5 { RealsAre(c, [6, 7], 6); }
  }

  lemma FromInsideRegion(k: int, a: int)
    requires (k == 3 && a == 4) || (k == 5 && a == 6)
    ensures DefaultAtoms(FromInside(), k, {2}) == Some({a})
  {
    var c := FromInside();
    assert [a][1..] == [] && {a} + {} == {a};
    assert DefaultAtomsOf(c, [a], {2} + {k}) == Some({a} + {});
  }

  lemma FromInsideDefault()
    ensures DefaultAtoms(FromInside(), 2, {}) == Some({4, 6})
  {
    var c := FromInside();
    FromInsideRegion(3, 4);
    FromInsideRegion(5, 6);
    assert [3, 5][1..] == [5] && [5][1..] == [] && {6} + {} == {6} && {} + {2} == {2} && {4} + {6} == {4, 6};
    assert Reals(c, [5]) == [5];
    assert RealChildren(c, 2) == [3] + [5];
    assert [3] + [5] == [3, 5];
    assert DefaultAtomsOf(c, [5], {2}) == Some({6} + {});
    assert DefaultAtomsOf(c, [3, 5], {2}) == Some({4} + {6});
  }

  lemma FromInsideTargets()
    requires Tree(FromInside())
    ensures TargetSetOk(FromInside(), [2]) && TargetSetOk(FromInside(), [4]) && TargetSetOk(FromInside(), [6])
      && TargetSetOk(FromInside(), [1]) && TargetSetOk(FromInside(), [7])
  {
    var c := FromInside();
    AtomOk(c, 4);
    AtomOk(c, 6);
    AtomOk(c, 7);
    assert Lca(c, 4, 6) == 2 && Lca(c, 6, 4) == 2;
    TwoTogether(c, 4, 6);
    FromInsideDefault();
    OneTargetOk(c, 2, {4, 6});
    HistoryAtom(c, 1, 4);
    OneTargetOk(c, 1, {4});
  }

  lemma FromInsideInitial(x: int)
    requires Tree(FromInside()) && Has(FromInside(), x)
    ensures TargetSetOk(FromInside(), Initial(FromInside(), x))
  {
    FromInsideTargets();
    hide TargetSetOk, Tree;
    EmptyOk(FromInside());
  }

  lemma FromInsideAccepted()
    ensures Accepted(FromInside()) && Founded(FromInside())
  {
    FromInsideTree();
    forall x | Has(FromInside(), x) ensures Local(FromInside(), x) { FromInsideLocal(x); }
    forall x {:trigger Initial(FromInside(), x)} | Has(FromInside(), x)
      ensures TargetSetOk(FromInside(), Initial(FromInside(), x))
    {
      FromInsideInitial(x);
    }
    FromInsideTargets();
    hide TargetSetOk, Local, Tree;
    DrawnIsAccepted(InsideRows, [InsideStep, InsideMove]);
  }

  lemma FromInsideDomain()
    requires Tree(FromInside())
    ensures EffectiveTargets(FromInside(), map[], InsideStep) == [4]
      && Domain(FromInside(), map[], InsideStep) == Some(3)
  {
    hide From;
    var c := FromInside();
    assert [4][1..] == [] && [1][1..] == [];
    assert CollectTargets(c, map[], [4], [], {} + {1}) == [4];
    assert CollectTarget(c, map[], 1, [], {}) == [4];
  }

  /** Entering h also walks up to x, whose other region b is not covered by the step and so is entered by default. */
  lemma FromInsideHistory()
    requires Founded(FromInside())
    ensures 6 in AddDescendants(FromInside(), map[], 1, NoEntry).states
  {
    hide AddAncestors, From;
    var c := FromInside();
    var e0 := AddDefault(NoEntry, 0, 1);
    DefaultExpandable(c, 1);
    var e1 := AddDescendantsOf(c, map[], [4], 0, false, Rank(c, 1), e0);
    assert [4][1..] == [];
    assert e1 == AddState(e0, 4);
    FromInsideClimbs(e1);
    assert AddDescendants(c, map[], 1, NoEntry) == AddAncestorsOf(c, map[], [4], 0, e1);
  }

  lemma FromInsideEnters()
    requires Founded(FromInside())
    ensures TargetsFounded(FromInside(), InsideStep) && 6 in EntryOf(FromInside(), map[], InsideStep, NoEntry).states
  {
    hide AddDescendants, AddAncestors, AddAncestorsOf, Domain, EffectiveTargets;
    var c := FromInside();
    FromInsideHistory();
    assert AllUnder(c, [1], 0) && [1][1..] == [];
    BelowExpandable(c, [1], 0);
    var e2 := AddDescendantsOf(c, map[], [1], 0, true, 0, NoEntry);
    assert e2 == AddDescendants(c, map[], 1, NoEntry);
    FromInsideDomain();
    AncestorsOfAreLocal(c, map[], [4], 3, e2, e2);
  }

  /** Entering a compound state enters its initial targets. */
  lemma EffectiveInitial(c: Chart, s: int, e: Entry)
    requires Founded(c) && IsCompound(c, s) && Initial(c, s) != [] && Real(c, Initial(c, s)[0])
    ensures Initial(c, s)[0] in AddDescendants(c, map[], s, e).states
  {
    assert StateFounded(c, s);
    BelowExpandable(c, Initial(c, s), s);
    var e1 := AddDefault(AddState(e, s), s, s);
    EffectiveAmong(c, map[], Initial(c, s), s, true, 0, e1, 0, Initial(c, s)[0]);
    var e2 := AddDescendantsOf(c, map[], Initial(c, s), s, true, 0, e1);
    AncestorsOfAreLocal(c, map[], Initial(c, s), s, e2, e2);
  }

  /** Climbing past the parallel state p out of its region k enters its untouched region l by default. */
  lemma RegionOnTheWay(c: Chart, a: int, k: int, p: int, l: int, b: int, e: Entry)
    requires Founded(c) && Has(c, b) && Has(c, k) && IsParallel(c, p) && Desc(c, k, b) && Desc(c, p, b)
      && Parent(c, k) == p && Parent(c, p) == b
    requires RealChildren(c, p) == [k, l] && !IsParallel(c, k) && a in e.states && In(c, a, k)
    requires IsCompound(c, l) && Initial(c, l) != [] && Real(c, Initial(c, l)[0]) && !In(c, k, l) && !In(c, p, l)
      && forall x :: x in e.states ==> !In(c, x, l)
    ensures Initial(c, l)[0] in AddAncestors(c, map[], k, b, e).states
  {
    hide AddDescendants;
    var e1 := AddState(e, k);
    var e2 := AddState(e1, p);
    ChildrenBelow(c, p, b);
    assert [k, l][1..] == [l] && [l][1..] == [] && [k, l][1] == l;
    assert Covered(c, e2.states, k);
    assert !Covered(c, e2.states, l);
    EffectiveInitial(c, l, e2);
    var e3 := AddDescendants(c, map[], l, e2);
    assert AddUncovered(c, map[], [l], b, e2) == e3;
    assert AddUncovered(c, map[], [k, l], b, e2) == e3;
    assert AddAncestors(c, map[], p, b, e1) == e3;
    assert AddAncestors(c, map[], k, b, e) == e3;
  }

  lemma FromInsideClimbs(e: Entry)
    requires Founded(FromInside()) && e.states == {4}
    ensures Desc(FromInside(), 4, 0) && 6 in AddAncestorsOf(FromInside(), map[], [4], 0, e).states
  {
    hide AddAncestors, From;
    var c := FromInside();
    assert [4][1..] == [] && [3, 5][1..] == [5] && [5][1..] == [];
    assert Reals(c, [5]) == [5];
    assert RealChildren(c, 2) == [3] + [5];
    assert [3] + [5] == [3, 5];
    assert Initial(c, 5) == [6];
    RegionOnTheWay(c, 4, 3, 2, 5, 0, e);
  }

  /** From wherever b2 is active the step leaves b2 alone and enters b1 beside it. */
  lemma FromInsideEntersBoth(C: set<int>)
    requires Accepted(FromInside()) && Founded(FromInside()) && 7 in C
    ensures TargetsFounded(FromInside(), InsideStep) && !Legal(FromInside(), After(FromInside(), map[], C, InsideStep))
  {
    var c := FromInside();
    FromInsideEnters();
    FromInsideDomain();
    var C' := After(c, map[], C, InsideStep);
    assert 6 in C' && 7 in C' && Parent(c, 6) == 5 && Parent(c, 7) == 5 && IsCompound(c, 5);
    if Legal(c, C') { LegalParent(c, C', 6); }
  }

  /** Start enters x with a, a1, b and b1. */
  lemma FromInsideStart()
    requires Founded(FromInside())
    ensures 4 in StartEntry(FromInside()).states && 6 in StartEntry(FromInside()).states
  {
    hide From;
    var c := FromInside();
    assert Initial(c, 0) == [2];
    InStart(c, 2);
    assert [3, 5][1..] == [5] && [5][1..] == [];
    assert Reals(c, [5]) == [5];
    assert RealChildren(c, 2) == [3] + [5];
    assert [3] + [5] == [3, 5];
    ChildrenExpandable(c, 2);
    var e1 := AddState(NoEntry, 2);
    var e2 := AddDescendants(c, map[], 3, e1);
    EffectiveInitial(c, 3, e1);
    EffectiveInitial(c, 5, e2);
    EntryIsLocal(c, map[], 5, e2, e2);
    assert AddDescendantsOf(c, map[], [5], 2, true, 0, e2) == AddDescendants(c, map[], 5, e2);
    assert AddDescendantsOf(c, map[], [3, 5], 2, true, 0, e1) == AddDescendants(c, map[], 5, e2);
    assert AddDescendants(c, map[], 2, NoEntry) == AddDescendants(c, map[], 5, e2);
  }

  lemma FromInsideMoveDomain()
    requires Tree(FromInside())
    ensures Domain(FromInside(), map[], InsideMove) == Some(5)
  {
    var c := FromInside();
    assert CollectTarget(c, map[], 7, [], {}) == [7] && [7][1..] == [] && [6] + [7] == [6, 7];
    assert EffectiveTargets(c, map[], InsideMove) == [7];
    assert FindLcca(c, [6, 7]) == 5;
  }

  lemma FromInsideKeepsNoRecord(C: set<int>)
    requires Tree(FromInside()) && Domain(FromInside(), map[], InsideMove) == Some(5)
    ensures RecordAll(FromInside(), C, SortDesc(ExitSet(FromInside(), map[], C, InsideMove), 8), map[]) == map[]
  {
    hide Domain;
    var c := FromInside();
    assert |c.states| == 8;
    var X := ExitSet(c, map[], C, InsideMove);
    assert forall x :: x in X ==> Desc(c, x, 5);
    var order := SortDesc(X, 8);
    forall i | 0 <= i < |order| ensures Has(c, order[i]) { assert order[i] in order; }
    var R := RecordAll(c, C, order, map[]);
    forall h ensures h !in R { RecordAllIs(c, C, order, map[], h); }
    assert R == map[];
  }

  lemma FromInsideMoves(C: set<int>)
    requires Accepted(FromInside()) && Founded(FromInside()) && 4 in C
    ensures AllUnder(FromInside(), [7], 0) && 4 in After(FromInside(), map[], C, InsideMove)
      && 7 in After(FromInside(), map[], C, InsideMove)
    ensures RecordAll(FromInside(), C, SortDesc(ExitSet(FromInside(), map[], C, InsideMove), 8), map[]) == map[]
  {
    hide Accepted, Domain, EntryOf, RecordAll, EffectiveTargets;
    var c := FromInside();
    assert AllUnder(c, [7], 0);
    FromInsideMoveDomain();
    FromInsideKeepsNoRecord(C);
    TargetsEntered(c, map[], InsideMove, 0, 7);
  }

  /** Start, b1 to b2, then a to h: b1 is entered beside b2. */
  lemma FromInsideGoesWrong()
    ensures Accepted(FromInside()) && Founded(FromInside()) && GoesWrong(FromInside())
  {
    var c := FromInside();
    FromInsideAccepted();
    FromInsideStart();
    assert [InsideStep, InsideMove][1..] == [InsideMove];
    DrawnOwn(InsideRows, [InsideStep, InsideMove], InsideMove);
    DrawnOwn(InsideRows, [InsideStep, InsideMove], InsideStep);
    assert IsAtomic(c, 6) && IsAtomic(c, 4) && In(c, 6, 6) && In(c, 4, 3) && |c.states| == 8;
    hide Accepted, Founded, StartEntry, Leads, Taken, Legal, GoesWrong, Own, After, RecordAll, ExitSet, EntryOf;
    var p := Position(StartEntry(c).states, map[]);
    FromInsideMoves(p.config);
    AloneLeads(c, p, InsideMove, 6);
    var q := Taken(c, p, InsideMove);
    TakenIs(c, p, InsideMove);
    FromInsideEntersBoth(q.config);
    AloneLeads(c, q, InsideStep, 4);
    TakenIs(c, q, InsideStep);
    TwoSteps(c, q, Taken(c, q, InsideStep));
  }
}
