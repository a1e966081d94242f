/**
 Transition selection and conflict removal (interpreter.go:1309-1436).

 `enabled` tells which transitions match the event and whose guard holds; guards are pure, so it is
 one predicate for a whole selection.
 */
module Selection {
  import opened Charts
  import opened Validator
  import opened WellFormed
  import opened EntrySets
  import opened Regions
  import opened Configurations
  import opened Transitions

  /** A selected transition and the first atomic state that selected it. */
  datatype Pick = Pick(t: Transition, atom: int)

  /** Every transition sits at its source. */
  ghost predicate Sourced(c: Chart) {
    Tree(c) && forall x, i {:trigger Charts.Transitions(c, x)[i]} :: 0 <= i < |Charts.Transitions(c, x)| ==>
      Charts.Transitions(c, x)[i].source == x
  }

  lemma AcceptedSourced(c: Chart)
    requires Accepted(c)
    ensures Sourced(c)
  {
    forall x, i {:trigger Charts.Transitions(c, x)[i]} | 0 <= i < |Charts.Transitions(c, x)|
      ensures Charts.Transitions(c, x)[i].source == x
    {
      assert ListsOk(c, x);
    }
  }

  lemma ShapeSourced(c: Chart)
    requires Shape(c)
    ensures Sourced(c)
  {
    forall x, i {:trigger Charts.Transitions(c, x)[i]} | 0 <= i < |Charts.Transitions(c, x)|
      ensures Charts.Transitions(c, x)[i].source == x
    {
      assert StateShape(c, x);
    }
  }

  function FirstEnabled(ts: seq<Transition>, enabled: Transition -> bool): Option<Transition> {
    if ts == [] then None
    else if enabled(ts[0]) then Some(ts[0])
    else FirstEnabled(ts[1..], enabled)
  }

  lemma FirstEnabledIn(ts: seq<Transition>, enabled: Transition -> bool)
    ensures FirstEnabled(ts, enabled).Some? ==> FirstEnabled(ts, enabled).value in ts
  {}

  /** The branch loop: the first enabled transition on the way from x to the root. */
  function Choice(c: Chart, x: int, enabled: Transition -> bool): Option<Transition>
    requires Tree(c)
    decreases x
  {
    if !Has(c, x) then None
    else
      assert NodeOk(c, x);
      match FirstEnabled(Charts.Transitions(c, x), enabled)
      case Some(t) => Some(t)
      case None => Choice(c, Parent(c, x), enabled)
  }

  /** atomicStatesInDocOrder (interpreter.go:1311-1319). */
  function AtomicStates(c: Chart, C: set<int>): seq<int> {
    SortAsc(set x | x in C && IsAtomic(c, x), |c.states|)
  }

  predicate Picked(ps: seq<Pick>, t: Transition) { exists i :: 0 <= i < |ps| && ps[i].t == t }

  /** The enabled list, each transition once, in the order the atomic states select them. */
  function Picks(c: Chart, atoms: seq<int>, enabled: Transition -> bool): seq<Pick>
    requires Tree(c)
  {
    if atoms == [] then []
    else
      var before := Picks(c, atoms[..|atoms| - 1], enabled);
      var a := atoms[|atoms| - 1];
      match Choice(c, a, enabled)
      case None => before
      case Some(t) => if Picked(before, t) then before else before + [Pick(t, a)]
  }

  /** The transition is the chosen one of the atomic state that picked it. */
  ghost predicate PickOk(c: Chart, C: set<int>, enabled: Transition -> bool, p: Pick)
    requires Tree(c)
  {
    && p.atom in C && IsAtomic(c, p.atom)
    && Has(c, p.t.source) && p.t in Charts.Transitions(c, p.t.source) && In(c, p.atom, p.t.source)
    && FirstEnabled(Charts.Transitions(c, p.t.source), enabled) == Some(p.t)
    && forall q {:trigger In(c, p.atom, q)} :: p.t.source < q && In(c, p.atom, q) ==>
      FirstEnabled(Charts.Transitions(c, q), enabled) == None
  }

  ghost predicate PicksOk(c: Chart, C: set<int>, enabled: Transition -> bool, ps: seq<Pick>)
    requires Tree(c)
  {
    && (forall i {:trigger ps[i]} :: 0 <= i < |ps| ==> PickOk(c, C, enabled, ps[i]))
    && (forall i, j :: 0 <= i < j < |ps| ==> ps[i].atom < ps[j].atom && ps[i].t != ps[j].t)
  }

  lemma {:induction false} ChoiceIsFirst(c: Chart, x: int, enabled: Transition -> bool)
    requires Sourced(c) && Has(c, x) && Choice(c, x, enabled).Some?
    ensures var t := Choice(c, x, enabled).value;
            Has(c, t.source) && t in Charts.Transitions(c, t.source) && In(c, x, t.source)
              && FirstEnabled(Charts.Transitions(c, t.source), enabled) == Some(t)
            && forall q {:trigger In(c, x, q)} :: t.source < q && In(c, x, q) ==>
              FirstEnabled(Charts.Transitions(c, q), enabled) == None
    decreases x
  {
    assert NodeOk(c, x);
    var t := Choice(c, x, enabled).value;
    FirstEnabledIn(Charts.Transitions(c, x), enabled);
    match FirstEnabled(Charts.Transitions(c, x), enabled)
    case Some(u) =>
      var i :| 0 <= i < |Charts.Transitions(c, x)| && Charts.Transitions(c, x)[i] == u;
    case None =>
      var p := Parent(c, x);
      assert Has(c, p) by { assert x != 0; assert Desc(c, x, p); }
      ChoiceIsFirst(c, p, enabled);
      TransIn(c, x, p, t.source);
      forall q {:trigger In(c, x, q)} | t.source < q && In(c, x, q)
        ensures FirstEnabled(Charts.Transitions(c, q), enabled) == None
      {
        if q != x { assert Desc(c, x, q); assert In(c, p, q); }
      }
  }

  lemma PickAppended(c: Chart, C: set<int>, enabled: Transition -> bool, before: seq<Pick>, p: Pick)
    requires Tree(c) && PicksOk(c, C, enabled, before) && PickOk(c, C, enabled, p) && !Picked(before, p.t)
    requires forall i :: 0 <= i < |before| ==> before[i].atom < p.atom
    ensures PicksOk(c, C, enabled, before + [p])
  {
    var ps := before + [p];
    forall i {:trigger ps[i]} | 0 <= i < |ps| ensures PickOk(c, C, enabled, ps[i]) {
      if i < |before| { assert ps[i] == before[i]; }
    }
  }

  lemma {:induction false} PicksAreOk(c: Chart, C: set<int>, atoms: seq<int>, enabled: Transition -> bool)
    requires Sourced(c)
    requires forall i :: 0 <= i < |atoms| ==> atoms[i] in C && IsAtomic(c, atoms[i])
    requires forall i, j :: 0 <= i < j < |atoms| ==> atoms[i] < atoms[j]
    ensures PicksOk(c, C, enabled, Picks(c, atoms, enabled))
    ensures forall i :: 0 <= i < |Picks(c, atoms, enabled)| ==> Picks(c, atoms, enabled)[i].atom in atoms
    decreases |atoms|
  {
    if atoms != [] {
      var init, a := atoms[..|atoms| - 1], atoms[|atoms| - 1];
      PicksAreOk(c, C, init, enabled);
      var before := Picks(c, init, enabled);
      forall i | 0 <= i < |before|
        ensures before[i].atom in atoms && before[i].atom < a
      {
        var j :| 0 <= j < |init| && init[j] == before[i].atom;
        assert atoms[j] == init[j];
      }
      if Choice(c, a, enabled).Some? {
        ChoiceIsFirst(c, a, enabled);
        var p := Pick(Choice(c, a, enabled).value, a);
        if !Picked(before, p.t) { PickAppended(c, C, enabled, before, p); }
      }
    }
  }

  // ---- conflict removal ----

  predicate Conflict(c: Chart, H: History, C: set<int>, t: Transition, u: Transition)
    requires Tree(c)
  {
    ExitSet(c, H, C, t) * ExitSet(c, H, C, u) != {}
  }

  /** Some kept transition conflicts with t, and t's source is not below its source. */
  predicate Preempted(c: Chart, H: History, C: set<int>, kept: seq<Transition>, t: Transition)
    requires Tree(c)
  {
    exists i :: 0 <= i < |kept| && Conflict(c, H, C, t, kept[i]) && !Desc(c, t.source, kept[i].source)
  }

  function Without(c: Chart, H: History, C: set<int>, kept: seq<Transition>, t: Transition): seq<Transition>
    requires Tree(c)
  {
    if kept == [] then []
    else
      var rest := Without(c, H, C, kept[1..], t);
      if Conflict(c, H, C, t, kept[0]) && Desc(c, t.source, kept[0].source) then rest else [kept[0]] + rest
  }

  lemma WithoutIs(c: Chart, H: History, C: set<int>, kept: seq<Transition>, t: Transition, u: Transition)
    requires Tree(c)
    ensures u in Without(c, H, C, kept, t) <==> u in kept && !(Conflict(c, H, C, t, u) && Desc(c, t.source, u.source))
  {}

  /** One round of removeConflictingTransitions. */
  function Admit(c: Chart, H: History, C: set<int>, kept: seq<Transition>, t: Transition): seq<Transition>
    requires Tree(c)
  {
    if Preempted(c, H, C, kept, t) then kept else Without(c, H, C, kept, t) + [t]
  }

  /** removeConflictingTransitions (interpreter.go:1399-1436). */
  function RemoveConflicts(c: Chart, H: History, C: set<int>, ts: seq<Transition>): seq<Transition>
    requires Tree(c)
  {
    if ts == [] then [] else Admit(c, H, C, RemoveConflicts(c, H, C, ts[..|ts| - 1]), ts[|ts| - 1])
  }

  /** The domain of a transition picked in a legal configuration is active or the root. */
  lemma DomainActive(c: Chart, H: History, C: set<int>, enabled: Transition -> bool, p: Pick)
    requires Sourced(c) && Legal(c, C) && PickOk(c, C, enabled, p) && p.t.target != []
      && Domain(c, H, p.t).Some?
    ensures var d := Domain(c, H, p.t).value;
            Has(c, d) && (IsCompound(c, d) || d == 0) && In(c, p.t.source, d) && (d == 0 || d in C)
            && ExitSet(c, H, C, p.t) != {} && (exists k :: k in C && Parent(c, k) == d && Desc(c, k, d))
  {
    DomainOnBranch(c, H, p.t);
    var d := Domain(c, H, p.t).value;
    TransIn(c, p.atom, p.t.source, d);
    if d != 0 {
      if d != p.atom { LegalUp(c, C, p.atom, d); }
      assert ActiveOk(c, C, d);
    }
    assert OneChild(c, C, d);
    var k :| k in C && Parent(c, k) == d;
    assert ActiveOk(c, C, k) && NodeOk(c, k);
    assert Desc(c, k, d);
    assert k in ExitSet(c, H, C, p.t);
  }

  /** Comparable domains of picked transitions always exit a common state. */
  lemma ComparableDomainsConflict(c: Chart, H: History, C: set<int>, enabled: Transition -> bool, p: Pick, q: Pick)
    requires Sourced(c) && Legal(c, C) && PickOk(c, C, enabled, p) && PickOk(c, C, enabled, q)
    requires p.t.target != [] && q.t.target != []
    requires Domain(c, H, p.t).Some? && Domain(c, H, q.t).Some?
      && In(c, Domain(c, H, p.t).value, Domain(c, H, q.t).value)
    ensures Conflict(c, H, C, p.t, q.t)
  {
    DomainActive(c, H, C, enabled, p);
    DomainActive(c, H, C, enabled, q);
    var d := Domain(c, H, p.t).value;
    var k :| k in C && Parent(c, k) == d && Desc(c, k, d);
    TransIn(c, k, d, Domain(c, H, q.t).value);
    assert k in ExitSet(c, H, C, p.t) * ExitSet(c, H, C, q.t);
  }

  /** If one source lies in the other's subtree, the two transitions conflict (unless one is targetless). */
  lemma ComparableSourcesConflict(c: Chart, H: History, C: set<int>, enabled: Transition -> bool, p: Pick, q: Pick)
    requires Sourced(c) && Legal(c, C) && PickOk(c, C, enabled, p) && PickOk(c, C, enabled, q)
    requires p.t.target != [] && q.t.target != [] && In(c, p.t.source, q.t.source)
      && Domain(c, H, p.t).Some? && Domain(c, H, q.t).Some?
    ensures Conflict(c, H, C, p.t, q.t) && Conflict(c, H, C, q.t, p.t)
  {
    DomainActive(c, H, C, enabled, p);
    DomainActive(c, H, C, enabled, q);
    var d, f := Domain(c, H, p.t).value, Domain(c, H, q.t).value;
    TransIn(c, p.t.source, q.t.source, f);
    Nested(c, p.t.source, d, f);
    if In(c, d, f) { ComparableDomainsConflict(c, H, C, enabled, p, q); }
    else { ComparableDomainsConflict(c, H, C, enabled, q, p); }
    assert ExitSet(c, H, C, p.t) * ExitSet(c, H, C, q.t) == ExitSet(c, H, C, q.t) * ExitSet(c, H, C, p.t);
  }

  /** Only transitions with targets and domains conflict. */
  lemma ConflictHasTargets(c: Chart, H: History, C: set<int>, t: Transition, u: Transition)
    requires Tree(c) && Conflict(c, H, C, t, u)
    ensures t.target != [] && u.target != [] && Domain(c, H, t).Some? && Domain(c, H, u).Some?
  {}

  /** The picks of a subtree are consecutive: one selected between two picks of s's subtree, the first
      of them s's own, comes from properly below s. */
  lemma PicksBetween(c: Chart, C: set<int>, enabled: Transition -> bool, ps: seq<Pick>, k: nat, i: nat, n: nat)
    requires Sourced(c) && PicksOk(c, C, enabled, ps) && k < i < n < |ps|
    requires Desc(c, ps[n].t.source, ps[k].t.source)
    ensures Desc(c, ps[i].t.source, ps[k].t.source)
  {
    var s := ps[k].t.source;
    assert PickOk(c, C, enabled, ps[k]) && PickOk(c, C, enabled, ps[i]) && PickOk(c, C, enabled, ps[n]);
    TransDesc(c, ps[n].atom, ps[n].t.source, s);
    assert In(c, ps[i].atom, s);
    Nested(c, ps[i].atom, ps[i].t.source, s);
    assert ps[i].t != ps[k].t by { assert ps[k].atom < ps[i].atom; }
  }

  /** A dropped pick conflicts with a kept one that is more specific or was selected before it. */
  ghost predicate Outranked(c: Chart, H: History, C: set<int>, ps: seq<Pick>, kept: seq<Transition>, i: int)
    requires Tree(c)
  {
    0 <= i < |ps| && ps[i].t !in kept ==>
      exists k {:trigger ps[k]} :: 0 <= k < |ps| && ps[k].t in kept && Conflict(c, H, C, ps[i].t, ps[k].t)
        && (Desc(c, ps[k].t.source, ps[i].t.source) || (k < i && !Desc(c, ps[i].t.source, ps[k].t.source)))
  }

  ghost predicate Distinct(ts: seq<Transition>) { forall i, j :: 0 <= i < j < |ts| ==> ts[i] != ts[j] }

  ghost predicate Optimal(c: Chart, H: History, C: set<int>, ps: seq<Pick>, kept: seq<Transition>)
    requires Tree(c)
  {
    && (forall t :: t in kept ==> Picked(ps, t))
    && (forall t, u {:trigger Conflict(c, H, C, t, u)} :: t in kept && u in kept && t != u ==> !Conflict(c, H, C, t, u))
    && Distinct(kept)
    && (forall i {:trigger Outranked(c, H, C, ps, kept, i)} :: Outranked(c, H, C, ps, kept, i))
  }

  lemma WithoutDistinct(c: Chart, H: History, C: set<int>, kept: seq<Transition>, t: Transition)
    requires Tree(c) && Distinct(kept)
    ensures Distinct(Without(c, H, C, kept, t))
  {
    if kept != [] {
      WithoutDistinct(c, H, C, kept[1..], t);
      WithoutIs(c, H, C, kept[1..], t, kept[0]);
      assert kept[0] !in kept[1..];
    }
  }

  lemma PickedLonger(ps: seq<Pick>, n: nat, u: Transition)
    requires n <= |ps| && Picked(ps[..n], u)
    ensures Picked(ps, u)
  {
    var i :| 0 <= i < n && ps[..n][i].t == u;
    assert ps[i].t == u;
  }

  lemma PreemptedStep(c: Chart, H: History, C: set<int>, ps: seq<Pick>, kept: seq<Transition>)
    requires Tree(c) && ps != [] && Optimal(c, H, C, ps[..|ps| - 1], kept)
    requires Preempted(c, H, C, kept, ps[|ps| - 1].t)
    ensures Optimal(c, H, C, ps, kept)
  {
    var n := |ps| - 1;
    var init, t := ps[..n], ps[n].t;
    forall u | u in kept ensures Picked(ps, u) { PickedLonger(ps, n, u); }
    var m :| 0 <= m < |kept| && Conflict(c, H, C, t, kept[m]) && !Desc(c, t.source, kept[m].source);
    assert kept[m] in kept && Picked(init, kept[m]);
    var k :| 0 <= k < |init| && init[k].t == kept[m];
    assert ps[k].t == kept[m];
    forall i ensures Outranked(c, H, C, ps, kept, i) {
      if 0 <= i < n && ps[i].t !in kept { KeepWitness(c, H, C, init, ps, kept, i); }
    }
  }

  lemma AdmittedAre(c: Chart, H: History, C: set<int>, kept: seq<Transition>, t: Transition, u: Transition)
    requires Tree(c) && !Preempted(c, H, C, kept, t)
    ensures u in Admit(c, H, C, kept, t) <==> u == t || (u in kept && !Conflict(c, H, C, t, u))
  {
    WithoutIs(c, H, C, kept, t, u);
    if u in kept { var j :| 0 <= j < |kept| && kept[j] == u; }
  }

  lemma AdmittedStep(c: Chart, H: History, C: set<int>, enabled: Transition -> bool, ps: seq<Pick>,
    kept: seq<Transition>)
    requires Sourced(c) && Legal(c, C) && PicksOk(c, C, enabled, ps) && ps != []
    requires Optimal(c, H, C, ps[..|ps| - 1], kept) && !Preempted(c, H, C, kept, ps[|ps| - 1].t)
    ensures Optimal(c, H, C, ps, Admit(c, H, C, kept, ps[|ps| - 1].t))
  {
    assert Tree(c);
    hide Sourced, Legal, PickOk, Conflict;
    var n := |ps| - 1;
    var t := ps[n].t;
    var rest := Without(c, H, C, kept, t);
    var kept' := Admit(c, H, C, kept, t);
    forall u | u in kept' ensures Picked(ps, u) {
      AdmittedAre(c, H, C, kept, t, u);
      if u != t { PickedLonger(ps, n, u); } else { assert ps[n].t == u; }
    }
    WithoutDistinct(c, H, C, kept, t);
    assert kept' == rest + [t];
    forall i, j | 0 <= i < j < |kept'| ensures kept'[i] != kept'[j] {
      if j == |rest| { FreshPick(c, C, enabled, ps, ps[..n], H, kept, t, rest[i]); } else { assert rest[i] != rest[j]; }
    }
    forall u, v {:trigger Conflict(c, H, C, u, v)} | u in kept' && v in kept' && u != v
      ensures !Conflict(c, H, C, u, v)
    {
      AdmittedAre(c, H, C, kept, t, u);
      AdmittedAre(c, H, C, kept, t, v);
      ConflictSym(c, H, C, u, v);
    }
    forall i ensures Outranked(c, H, C, ps, kept', i) {
      if 0 <= i < n && ps[i].t !in kept' { NewWitness(c, H, C, enabled, ps, kept, i); }
    }
  }

  lemma KeepWitness(c: Chart, H: History, C: set<int>, init: seq<Pick>, ps: seq<Pick>, kept: seq<Transition>, i: nat)
    requires Tree(c) && i < |init| <= |ps| && init == ps[..|init|] && ps[i].t !in kept
      && Outranked(c, H, C, init, kept, i)
    ensures Outranked(c, H, C, ps, kept, i)
  {
    assert init[i] == ps[i];
    var k := OutrankedBy(c, H, C, init, kept, i);
    assert ps[k] == init[k];
  }

  /** The newest pick is not among the kept ones yet, and a kept one is not dropped for itself. */
  lemma FreshPick(c: Chart, C: set<int>, enabled: Transition -> bool, ps: seq<Pick>, init: seq<Pick>, H: History,
    kept: seq<Transition>, t: Transition, u: Transition)
    requires Tree(c) && ps != [] && PicksOk(c, C, enabled, ps) && init == ps[..|ps| - 1] && t == ps[|ps| - 1].t
    requires Optimal(c, H, C, init, kept) && u in Without(c, H, C, kept, t)
    ensures u != t
  {
    WithoutIs(c, H, C, kept, t, u);
    assert Picked(init, u);
    var i :| 0 <= i < |init| && init[i].t == u;
    assert ps[i].t == u;
  }

  lemma OutrankedIf(c: Chart, H: History, C: set<int>, ps: seq<Pick>, kept: seq<Transition>, i: nat, k: nat)
    requires Tree(c) && i < |ps| && k < |ps| && ps[k].t in kept && Conflict(c, H, C, ps[i].t, ps[k].t)
    requires Desc(c, ps[k].t.source, ps[i].t.source) || (k < i && !Desc(c, ps[i].t.source, ps[k].t.source))
    ensures Outranked(c, H, C, ps, kept, i)
  {}

  /** When the newest pick t is admitted, every pick dropped so far is outranked by a pick still kept. */
  lemma NewWitness(c: Chart, H: History, C: set<int>, enabled: Transition -> bool, ps: seq<Pick>, kept: seq<Transition>,
    i: nat)
    requires Sourced(c) && Legal(c, C) && PicksOk(c, C, enabled, ps) && ps != []
    requires Optimal(c, H, C, ps[..|ps| - 1], kept) && i < |ps| - 1
    requires !Preempted(c, H, C, kept, ps[|ps| - 1].t) && ps[i].t !in Admit(c, H, C, kept, ps[|ps| - 1].t)
    ensures Outranked(c, H, C, ps, Admit(c, H, C, kept, ps[|ps| - 1].t), i)
  {
    assert Tree(c);
    var n := |ps| - 1;
    var init, t := ps[..n], ps[n].t;
    assert Outranked(c, H, C, init, kept, i) && init[i] == ps[i];
    var kept' := Admit(c, H, C, kept, t);
    AdmittedAre(c, H, C, kept, t, t);
    WithoutIs(c, H, C, kept, t, ps[i].t);
    assert kept' == Without(c, H, C, kept, t) + [t];
    hide Sourced, Legal, Without, Optimal, PicksOk, Conflict, Admit, Preempted, Outranked;
    if ps[i].t in kept {
      ConflictSym(c, H, C, t, ps[i].t);
      OutrankedIf(c, H, C, ps, kept', i, n);
    } else {
      var k := OutrankedBy(c, H, C, init, kept, i);
      assert ps[k] == init[k];
      WithoutIs(c, H, C, kept, t, ps[k].t);
      if ps[k].t in kept' {
        OutrankedIf(c, H, C, ps, kept', i, k);
      } else {
        WitnessReplaced(c, H, C, enabled, ps, i, k);
        OutrankedIf(c, H, C, ps, kept', i, n);
      }
    }
  }

  lemma OutrankedBy(c: Chart, H: History, C: set<int>, ps: seq<Pick>, kept: seq<Transition>, i: nat) returns (k: nat)
    requires Tree(c) && i < |ps| && ps[i].t !in kept && Outranked(c, H, C, ps, kept, i)
    ensures k < |ps| && ps[k].t in kept && Conflict(c, H, C, ps[i].t, ps[k].t)
    ensures Desc(c, ps[k].t.source, ps[i].t.source) || (k < i && !Desc(c, ps[i].t.source, ps[k].t.source))
  {
    k :| 0 <= k < |ps| && ps[k].t in kept && Conflict(c, H, C, ps[i].t, ps[k].t)
      && (Desc(c, ps[k].t.source, ps[i].t.source) || (k < i && !Desc(c, ps[i].t.source, ps[k].t.source)));
  }

  lemma ConflictSym(c: Chart, H: History, C: set<int>, t: Transition, u: Transition)
    requires Tree(c)
    ensures Conflict(c, H, C, t, u) <==> Conflict(c, H, C, u, t)
  {
    assert ExitSet(c, H, C, t) * ExitSet(c, H, C, u) == ExitSet(c, H, C, u) * ExitSet(c, H, C, t);
  }

  /** If the pick that outranked pick i gives way to the newest pick, so does pick i. */
  lemma WitnessReplaced(c: Chart, H: History, C: set<int>, enabled: Transition -> bool, ps: seq<Pick>, i: nat, k: nat)
    requires Sourced(c) && Legal(c, C) && PicksOk(c, C, enabled, ps) && i < |ps| - 1 && k < |ps| - 1
    requires var t := ps[|ps| - 1].t; Conflict(c, H, C, t, ps[k].t) && Desc(c, t.source, ps[k].t.source)
    requires Conflict(c, H, C, ps[i].t, ps[k].t)
      && (Desc(c, ps[k].t.source, ps[i].t.source) || (k < i && !Desc(c, ps[i].t.source, ps[k].t.source)))
    ensures var t := ps[|ps| - 1].t; Conflict(c, H, C, ps[i].t, t) && Desc(c, t.source, ps[i].t.source)
  {
    var n, t := |ps| - 1, ps[|ps| - 1].t;
    assert Tree(c) && PickOk(c, C, enabled, ps[n]) && PickOk(c, C, enabled, ps[i]) && PickOk(c, C, enabled, ps[k])
      && 0 <= ps[k].t.source && 0 <= ps[i].t.source;
    if k < i { PicksBetween(c, C, enabled, ps, k, i, n); }
    hide Sourced, Legal, ExitSet, PickOk, PicksOk;
    TransDesc(c, t.source, ps[k].t.source, ps[i].t.source);
    ConflictHasTargets(c, H, C, t, ps[k].t);
    ConflictHasTargets(c, H, C, ps[i].t, ps[k].t);
    ComparableSourcesConflict(c, H, C, enabled, ps[n], ps[i]);
  }

  function PickedTransitions(ps: seq<Pick>): seq<Transition> {
    seq(|ps|, i requires 0 <= i < |ps| => ps[i].t)
  }

  /** The transitions one selection keeps. */
  function Select(c: Chart, H: History, C: set<int>, enabled: Transition -> bool): seq<Transition>
    requires Tree(c)
  {
    RemoveConflicts(c, H, C, PickedTransitions(Picks(c, AtomicStates(c, C), enabled)))
  }

  lemma {:induction false} RemovalIsOptimal(c: Chart, H: History, C: set<int>, enabled: Transition -> bool,
    ps: seq<Pick>)
    requires Sourced(c) && Legal(c, C) && PicksOk(c, C, enabled, ps)
    ensures Optimal(c, H, C, ps, RemoveConflicts(c, H, C, PickedTransitions(ps)))
    decreases |ps|
  {
    assert Tree(c);
    hide Sourced, Legal, PickOk, Preempted, Conflict, Without;
    if ps != [] {
      var init := ps[..|ps| - 1];
      assert PicksOk(c, C, enabled, init) by {
        forall i {:trigger init[i]} | 0 <= i < |init| ensures PickOk(c, C, enabled, init[i]) {
          assert ps[i] == init[i];
        }
      }
      RemovalIsOptimal(c, H, C, enabled, init);
      assert PickedTransitions(ps)[..|ps| - 1] == PickedTransitions(init);
      var kept := RemoveConflicts(c, H, C, PickedTransitions(init));
      if Preempted(c, H, C, kept, ps[|ps| - 1].t) { PreemptedStep(c, H, C, ps, kept); }
      else { AdmittedStep(c, H, C, enabled, ps, kept); }
    }
  }

  lemma SelectIsOptimal(c: Chart, H: History, C: set<int>, enabled: Transition -> bool)
    requires Sourced(c) && Legal(c, C)
    ensures var ps := Picks(c, AtomicStates(c, C), enabled);
            PicksOk(c, C, enabled, ps) && Optimal(c, H, C, ps, Select(c, H, C, enabled))
  {
    var atoms := AtomicStates(c, C);
    assert forall i :: 0 <= i < |atoms| ==> atoms[i] in atoms;
    PicksAreOk(c, C, atoms, enabled);
    RemovalIsOptimal(c, H, C, enabled, Picks(c, AtomicStates(c, C), enabled));
  }

  /** In a legal configuration of any accepted chart, whatever is recorded: the kept transitions exit disjoint
      sets of states, and every enabled transition that was dropped conflicts with a kept one whose source is
      properly below its own or which an earlier atomic state selected. */
  lemma SelectionIsOptimal(c: Chart, H: History, C: set<int>, enabled: Transition -> bool)
    requires Accepted(c) && Legal(c, C)
    ensures var ps := Picks(c, AtomicStates(c, C), enabled);
            PicksOk(c, C, enabled, ps) && Optimal(c, H, C, ps, Select(c, H, C, enabled))
  {
    AcceptedSourced(c);
    SelectIsOptimal(c, H, C, enabled);
  }

  // ---- what a selection keeps, from any configuration ----

  lemma {:induction false} KeptAmong(c: Chart, H: History, C: set<int>, ts: seq<Transition>, t: Transition)
    requires Tree(c) && t in RemoveConflicts(c, H, C, ts)
    ensures t in ts
    decreases |ts|
  {
    hide Conflict, Preempted;
    var n := |ts| - 1;
    var kept := RemoveConflicts(c, H, C, ts[..n]);
    WithoutIs(c, H, C, kept, ts[n], t);
    if t != ts[n] { KeptAmong(c, H, C, ts[..n], t); }
  }

  /** A kept transition is the chosen one of an active atomic state. */
  lemma SelectedPick(c: Chart, H: History, C: set<int>, enabled: Transition -> bool, t: Transition)
    returns (p: Pick)
    requires Sourced(c) && t in Select(c, H, C, enabled)
    ensures p in Picks(c, AtomicStates(c, C), enabled) && p.t == t && PickOk(c, C, enabled, p)
  {
    hide PickOk, Picks, RemoveConflicts;
    var atoms := AtomicStates(c, C);
    assert forall i :: 0 <= i < |atoms| ==> atoms[i] in atoms;
    PicksAreOk(c, C, atoms, enabled);
    var ps := Picks(c, atoms, enabled);
    KeptAmong(c, H, C, PickedTransitions(ps), t);
    var i :| 0 <= i < |PickedTransitions(ps)| && PickedTransitions(ps)[i] == t;
    p := ps[i];
  }

  lemma SelectedFounded(c: Chart, H: History, C: set<int>, enabled: Transition -> bool)
    requires Sourced(c) && Founded(c)
    ensures AllFounded(c, Select(c, H, C, enabled))
  {
    hide Select, Sourced;
    var ts := Select(c, H, C, enabled);
    forall i {:trigger TargetsFounded(c, ts[i])} | 0 <= i < |ts| ensures TargetsFounded(c, ts[i]) {
      var p := SelectedPick(c, H, C, enabled, ts[i]);
      assert StateFounded(c, ts[i].source);
    }
  }
}
