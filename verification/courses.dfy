/**
 Runs at the level of configurations and histories: how start enters, and what selecting and taking
 transitions does, in every chart on which entry sets can be computed (interpreter.go:1266-1302,
 1309-1463, 1499-1546).  What content does is left open: any transitions may be enabled at any step.
 */
module Courses {
  import opened Charts
  import opened Validator
  import opened WellFormed
  import opened EntrySets
  import opened Transitions
  import opened Selection
  import opened Microsteps
  import opened TargetSets
  import opened Locality
  import opened Completeness
  import opened TurnTaking
  import opened Exactness
  import opened Stepping
  import opened Roots

  datatype Position = Position(config: set<int>, history: History)

  /** Start enters every region of a parallel root. */
  lemma AllRegionsStart(c: Chart)
    requires Founded(c) && IsParallel(c, 0)
    ensures AllChildren(c, StartEntry(c).states, 0)
  {
    ChildrenExpandable(c, 0);
    ChildrenBelow(c, 0, 0);
    var ks := RealChildren(c, 0);
    forall k {:trigger Parent(c, k)} | Real(c, k) && Parent(c, k) == 0 ensures k in StartEntry(c).states {
      assert NodeOk(c, k) && NodeOk(c, 0);
      RealsAre(c, Children(c, 0), k);
      var i :| 0 <= i < |ks| && ks[i] == k;
      assert Effective(c, map[], ks[i], k);
      EffectiveAmong(c, map[], ks, 0, true, 0, NoEntry, i, k);
    }
  }

  /** One step by the transitions ts. */
  function Moved(c: Chart, p: Position, ts: seq<Transition>): Position
    requires Founded(c) && HistorySane(c, p.history) && AllFounded(c, ts)
  {
    var exits := ExitSets(c, p.history, p.config, ts);
    Position(p.config - exits + EntrySet(c, p.history, ts, NoEntry).states,
      RecordAll(c, p.config, SortDesc(exits, |c.states|), p.history))
  }

  /** Some transitions may be enabled so that selecting and taking them leads from p to q. */
  ghost predicate Leads(c: Chart, p: Position, q: Position)
    requires Founded(c)
  {
    HistorySane(c, p.history) && exists on: Transition -> bool {:trigger Select(c, p.history, p.config, on)} ::
      AllFounded(c, Select(c, p.history, p.config, on)) && q == Moved(c, p, Select(c, p.history, p.config, on))
  }

  /** The positions of a run, from start. */
  ghost predicate Course(c: Chart, ps: seq<Position>)
    requires Founded(c)
  {
    ps != [] && ps[0] == Position(StartEntry(c).states, map[]) && forall i {:trigger ps[i]} :: 0 <= i < |ps| - 1 ==>
      Leads(c, ps[i], ps[i + 1])
  }

  /** Some run reaches a configuration that is not legal. */
  ghost predicate GoesWrong(c: Chart)
    requires Founded(c)
  {
    exists ps: seq<Position> {:trigger Course(c, ps)} :: Course(c, ps) && !Legal(c, ps[|ps| - 1].config)
  }

  lemma OneStep(c: Chart, q: Position)
    requires Founded(c) && Leads(c, Position(StartEntry(c).states, map[]), q) && !Legal(c, q.config)
    ensures GoesWrong(c)
  {
    hide Leads, StartEntry, Legal, Founded;
    assert Course(c, [Position(StartEntry(c).states, map[]), q]);
  }

  lemma TwoSteps(c: Chart, p: Position, q: Position)
    requires Founded(c) && Leads(c, Position(StartEntry(c).states, map[]), p) && Leads(c, p, q) && !Legal(c, q.config)
    ensures GoesWrong(c)
  {
    hide Leads, StartEntry, Legal, Founded;
    assert Course(c, [Position(StartEntry(c).states, map[]), p, q]);
  }

  // ---- enabling one transition alone ----

  ghost predicate Own(c: Chart, t: Transition) {
    forall x {:trigger Charts.Transitions(c, x)} :: t in Charts.Transitions(c, x) <==> x == t.source
  }

  function Alone(t: Transition): Transition -> bool { u => u == t }

  lemma {:induction false} FirstAlone(ts: seq<Transition>, t: Transition)
    ensures FirstEnabled(ts, Alone(t)) == if t in ts then Some(t) else None
  {
    if ts != [] { FirstAlone(ts[1..], t); }
  }

  lemma {:induction false} ChoiceAlone(c: Chart, x: int, t: Transition)
    requires Tree(c) && Own(c, t) && Has(c, x) && Has(c, t.source)
    ensures Choice(c, x, Alone(t)) == if In(c, x, t.source) then Some(t) else None
    decreases x
  {
    assert NodeOk(c, x) && NodeOk(c, t.source);
    FirstAlone(Charts.Transitions(c, x), t);
    if x != t.source {
      if x == 0 {
        assert Choice(c, -1, Alone(t)) == None;
      } else {
        assert Desc(c, x, Parent(c, x));
        ChoiceAlone(c, Parent(c, x), t);
        if In(c, x, t.source) { assert Desc(c, x, t.source); }
        if In(c, Parent(c, x), t.source) { TransIn(c, x, Parent(c, x), t.source); }
      }
    }
  }

  ghost predicate OnBranch(c: Chart, atoms: seq<int>, s: int) { exists i :: 0 <= i < |atoms| && In(c, atoms[i], s) }

  lemma BranchMore(c: Chart, atoms: seq<int>, s: int)
    requires atoms != []
    ensures OnBranch(c, atoms, s) <==> OnBranch(c, atoms[..|atoms| - 1], s) || In(c, atoms[|atoms| - 1], s)
  {
    var n := |atoms| - 1;
    if OnBranch(c, atoms[..n], s) {
      var i :| 0 <= i < n && In(c, atoms[..n][i], s);
      assert atoms[..n][i] == atoms[i];
    }
    if OnBranch(c, atoms, s) {
      var i :| 0 <= i < |atoms| && In(c, atoms[i], s);
      if i < n { assert atoms[..n][i] == atoms[i]; }
    }
  }

  lemma {:induction false} PicksAlone(c: Chart, atoms: seq<int>, t: Transition)
    requires Tree(c) && Own(c, t) && Has(c, t.source) && forall a :: a in atoms ==> Has(c, a)
    ensures var ps := Picks(c, atoms, Alone(t));
      if OnBranch(c, atoms, t.source) then |ps| == 1 && ps[0].t == t else ps == []
    decreases |atoms|
  {
    hide Tree, Own, Has, Choice, OnBranch, In, Alone;
    if atoms == [] {
      NoBranch(c, t.source);
    } else {
      var n := |atoms| - 1;
      PicksAlone(c, atoms[..n], t);
      assert atoms[n] in atoms;
      ChoiceAlone(c, atoms[n], t);
      BranchMore(c, atoms, t.source);
    }
  }

  lemma NoBranch(c: Chart, s: int)
    ensures !OnBranch(c, [], s)
  {}

  lemma KeptAlone(c: Chart, H: History, C: set<int>, t: Transition)
    requires Tree(c)
    ensures RemoveConflicts(c, H, C, [t]) == [t]
  {
    hide Tree, Conflict;
    assert [t][..0] == [];
    assert RemoveConflicts(c, H, C, []) == [];
  }

  /** An enabled transition on the branch of an active atomic state is the whole selection if no other
      is enabled. */
  lemma SelectAlone(c: Chart, H: History, C: set<int>, t: Transition, a: int)
    requires Tree(c) && Own(c, t) && Has(c, t.source) && a in C && IsAtomic(c, a) && In(c, a, t.source)
    ensures Select(c, H, C, Alone(t)) == [t]
  {
    hide Choice, Picks, RemoveConflicts, Tree;
    var atoms := AtomicStates(c, C);
    assert a in atoms;
    var i :| 0 <= i < |atoms| && atoms[i] == a;
    assert OnBranch(c, atoms, t.source);
    PicksAlone(c, atoms, t);
    KeptAlone(c, H, C, t);
    assert PickedTransitions(Picks(c, atoms, Alone(t))) == [t];
  }

  /** Where one enabled transition leads. */
  function Taken(c: Chart, p: Position, t: Transition): Position
    requires Founded(c) && HistorySane(c, p.history) && TargetsFounded(c, t)
  {
    Position(After(c, p.history, p.config, t),
      RecordAll(c, p.config, SortDesc(ExitSet(c, p.history, p.config, t), |c.states|), p.history))
  }

  lemma AloneLeads(c: Chart, p: Position, t: Transition, a: int)
    requires Founded(c) && HistorySane(c, p.history) && TargetsFounded(c, t) && Own(c, t) && Has(c, t.source)
    requires a in p.config && IsAtomic(c, a) && In(c, a, t.source)
    ensures Leads(c, p, Taken(c, p, t))
  {
    SelectAlone(c, p.history, p.config, t, a);
    hide Select, Founded, HistorySane;
    var ts := [t];
    assert ts[1..] == [];
    assert ExitSets(c, p.history, p.config, ts) == ExitSet(c, p.history, p.config, t) + {};
    assert ExitSets(c, p.history, p.config, ts) == ExitSet(c, p.history, p.config, t);
    assert AllFounded(c, ts);
    assert EntrySet(c, p.history, ts, NoEntry) == EntryOf(c, p.history, t, NoEntry);
    assert Moved(c, p, ts) == Taken(c, p, t);
  }

  // ---- what a selection brings along ----

  /** The selected transitions can be taken together: active sources, and no domain below another. */
  lemma SelectedAreSteppable(c: Chart, H: History, C: set<int>, on: Transition -> bool)
    requires Accepted(c) && Legal(c, C)
    requires forall i {:trigger Select(c, H, C, on)[i]} :: 0 <= i < |Select(c, H, C, on)| ==>
      AllUnder(c, Select(c, H, C, on)[i].target, 0)
    ensures Steppable(c, H, C, Select(c, H, C, on))
  {
    hide Select, Sourced, DomainsOf, Domain, PickOk;
    AcceptedSourced(c);
    SourcedTree(c);
    var ts := Select(c, H, C, on);
    var ds := DomainsOf(c, H, ts);
    forall i {:trigger ts[i]} | 0 <= i < |ts| ensures Has(c, ts[i].source) && (ts[i].source == 0 || ts[i].source in C) {
      var p := SelectedPick(c, H, C, on, ts[i]);
      PickedActive(c, C, on, p);
    }
    forall d, f | d in ds && f in ds ensures !Desc(c, d, f) {
      var i := DomainFrom(c, H, ts, d);
      var j := DomainFrom(c, H, ts, f);
      NotNested(c, H, C, on, ts[i], ts[j], d, f);
    }
  }

  lemma SourcedTree(c: Chart)
    requires Sourced(c)
    ensures Tree(c)
  {}

  lemma PickedActive(c: Chart, C: set<int>, on: Transition -> bool, p: Pick)
    requires Tree(c) && Legal(c, C) && PickOk(c, C, on, p)
    ensures Has(c, p.t.source) && (p.t.source == 0 || p.t.source in C)
  {
    if p.t.source != 0 && p.atom != p.t.source { LegalUp(c, C, p.atom, p.t.source); }
  }

  lemma DomainFrom(c: Chart, H: History, ts: seq<Transition>, d: int) returns (i: nat)
    requires Tree(c) && d in DomainsOf(c, H, ts)
    ensures i < |ts| && ts[i].target != [] && Domain(c, H, ts[i]) == Some(d)
  {
    DomainsAre(c, H, ts, d);
    i :| 0 <= i < |ts| && ts[i].target != [] && Domain(c, H, ts[i]) == Some(d);
  }

  /** A domain below another would make two kept transitions conflict. */
  lemma NotNested(c: Chart, H: History, C: set<int>, on: Transition -> bool, t: Transition, u: Transition, d: int,
    f: int)
    requires Sourced(c) && Legal(c, C) && t in Select(c, H, C, on) && u in Select(c, H, C, on)
    requires t.target != [] && u.target != [] && Domain(c, H, t) == Some(d) && Domain(c, H, u) == Some(f)
    ensures !Desc(c, d, f)
  {
    hide Select, Domain, PickOk;
    var p := SelectedPick(c, H, C, on, t);
    var q := SelectedPick(c, H, C, on, u);
    if Desc(c, d, f) {
      ComparableDomainsConflict(c, H, C, on, p, q);
      SelectIsOptimal(c, H, C, on);
    }
  }

  // ---- exactly when the next position is legal ----

  /** The root is a target of one of the transitions. */
  ghost predicate RootAimed(ts: seq<Transition>) { exists i {:trigger ts[i]} :: 0 <= i < |ts| && ts[i].target == [0] }

  /** What the step from p by ts must meet: no target is the root, and every atomic state it enters goes, when
      its turn comes, with what was entered before and with what stays. */
  ghost predicate Steps(c: Chart, p: Position, ts: seq<Transition>)
    requires Founded(c) && HistorySane(c, p.history) && AllFounded(c, ts)
  {
    && (forall i {:trigger ts[i]} :: 0 <= i < |ts| ==> AllUnder(c, ts[i].target, 0))
    && StepInOrder(c, p.history, p.config - ExitSets(c, p.history, p.config, ts), ts, NoEntry)
  }

  lemma {:induction false} RootIsEntered(c: Chart, H: History, ts: seq<Transition>, e: Entry)
    requires Founded(c) && HistorySane(c, H) && AllFounded(c, ts) && RootAimed(ts)
    ensures 0 in EntrySet(c, H, ts, e).states
    decreases |ts|
  {
    hide HistorySane;
    var rest := ts[1..];
    forall i {:trigger TargetsFounded(c, rest[i])} | 0 <= i < |rest| ensures TargetsFounded(c, rest[i]) {
      assert TargetsFounded(c, ts[i + 1]);
    }
    assert TargetsFounded(c, ts[0]);
    if ts[0].target == [0] {
      assert NodeOk(c, 0) && StateFounded(c, 0);
      EntersItself(c, H, 0, e);
      EntrySetGrows(c, H, rest, EntryOf(c, H, ts[0], e));
    } else {
      var i :| 0 <= i < |ts| && ts[i].target == [0];
      assert rest[i - 1] == ts[i];
      RootIsEntered(c, H, rest, EntryOf(c, H, ts[0], e));
    }
  }

  /** In any accepted chart with a compound root, whatever is enabled: from a legal position the selected step
      leads to a legal configuration if and only if it does not aim at the root, and every atomic state it
      enters, on the way up included, goes with what was entered before its turn and with what stays. */
  lemma NextLegalIff(c: Chart, p: Position, on: Transition -> bool)
    requires Accepted(c) && Founded(c) && IsCompound(c, 0) && Recalls(c, p.history) && HistorySane(c, p.history)
    requires Legal(c, p.config)
    ensures AllFounded(c, Select(c, p.history, p.config, on))
    ensures Legal(c, Moved(c, p, Select(c, p.history, p.config, on)).config) <==>
      Steps(c, p, Select(c, p.history, p.config, on))
  {
    hide Select, Recalls, Legal, Sourced, Founded, StepInOrder;
    AcceptedSourced(c);
    SourcedTree(c);
    SelectedFounded(c, p.history, p.config, on);
    var ts := Select(c, p.history, p.config, on);
    if forall i {:trigger ts[i]} :: 0 <= i < |ts| ==> AllUnder(c, ts[i].target, 0) {
      SelectedAreSteppable(c, p.history, p.config, on);
      StepLegalIff(c, p.history, p.config, ts);
    } else {
      var i :| 0 <= i < |ts| && !AllUnder(c, ts[i].target, 0);
      assert TargetsFounded(c, ts[i]);
      RootIsEntered(c, p.history, ts, NoEntry);
      RootIsIllegal(c, Moved(c, p, ts).config);
    }
  }

  lemma RootIsIllegal(c: Chart, C: set<int>)
    requires 0 in C
    ensures !Legal(c, C)
  {
    assert !ActiveOk(c, C, 0);
  }

  // ---- along a run, histories stay usable ----

  /** Recording on the way out of a legal configuration leaves every history usable. */
  lemma RecallsAreKept(c: Chart, C: set<int>, exits: set<int>, H: History)
    requires Enterable(c) && Legal(c, C) && Recalls(c, H) && exits <= C
    ensures Recalls(c, RecordAll(c, C, SortDesc(exits, |c.states|), H))
  {
    StructuredBranches(c);
    hide Legal, Structured, Branching;
    var order := SortDesc(exits, |c.states|);
    assert Tree(c);
    forall i | 0 <= i < |order| ensures order[i] in C && Has(c, order[i]) { assert order[i] in order; }
    forall x | x in C ensures Real(c, x) { LegalParent(c, C, x); }
    RecordKeepsSane(c, C, order, H);
    var R := RecordAll(c, C, order, H);
    forall h | h in R ensures R[h] != [] {
      RecordAllIs(c, C, order, H, h);
      if IsHistory(c, h) && Parent(c, h) in order { RecordedNotEmpty(c, C, h); }
    }
  }

  /** As long as a run's configurations are legal, every history that recorded remembers something. */
  lemma {:induction false} CourseRecalls(c: Chart, ps: seq<Position>)
    requires Accepted(c) && Founded(c) && Course(c, ps) && forall i {:trigger ps[i]} :: 0 <= i < |ps| - 1 ==>
      Legal(c, ps[i].config)
    ensures Recalls(c, ps[|ps| - 1].history) && HistorySane(c, ps[|ps| - 1].history)
    decreases |ps|
  {
    hide Legal, Recalls, Leads, StartEntry;
    var n := |ps| - 1;
    if n == 0 {
      NothingRecorded(c);
    } else {
      var before := ps[..n];
      assert forall i :: 0 <= i < n ==> before[i] == ps[i];
      CourseRecalls(c, before);
      assert Leads(c, ps[n - 1], ps[n - 1 + 1]) && Legal(c, ps[n - 1].config);
      LeadsRecalls(c, ps[n - 1], ps[n]);
    }
    RecallsSane(c, ps[n].history);
  }

  lemma NothingRecorded(c: Chart)
    ensures Recalls(c, map[])
  {}

  lemma LeadsRecalls(c: Chart, p: Position, q: Position)
    requires Enterable(c) && Leads(c, p, q) && Legal(c, p.config) && Recalls(c, p.history)
    ensures Recalls(c, q.history)
  {
    hide Legal, Recalls, Select, Structured, Founded;
    assert Tree(c) by { FoundedTree(c); }
    var on: Transition -> bool :| AllFounded(c, Select(c, p.history, p.config, on))
      && q == Moved(c, p, Select(c, p.history, p.config, on));
    var ts := Select(c, p.history, p.config, on);
    ExitSetsAre(c, p.history, p.config, ts);
    RecallsAreKept(c, p.config, ExitSets(c, p.history, p.config, ts), p.history);
  }
}
