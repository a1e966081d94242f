/**
 Transitions: effective targets and domains (interpreter.go:864-946), exit and entry sets
 (interpreter.go:948-979), selection and conflict removal (interpreter.go:1309-1436).
 */
module Transitions {
  import opened Charts
  import opened Validator
  import opened WellFormed
  import opened EntrySets
  import opened Regions
  import opened Configurations
  import opened Locality

  ghost predicate TransitionOk(c: Chart, t: Transition) {
    Has(c, t.source) && TargetsFounded(c, t) && TransitionShape(c, t.source, t)
  }

  // ---- effective targets ----

  function AppendNew(acc: seq<int>, xs: seq<int>): seq<int>
    decreases xs
  {
    if xs == [] then acc else AppendNew(if xs[0] in acc then acc else acc + [xs[0]], xs[1..])
  }

  lemma AppendNewAdds(acc: seq<int>, xs: seq<int>, r: int)
    ensures r in AppendNew(acc, xs) <==> r in acc || r in xs
    decreases xs
  {
    if xs != [] { AppendNewAdds(if xs[0] in acc then acc else acc + [xs[0]], xs[1..], r); }
  }

  /** collectEffectiveTarget (interpreter.go:875-902); `visiting` guards against cyclic defaults. */
  function CollectTarget(c: Chart, H: History, s: int, acc: seq<int>, visiting: set<int>): seq<int>
    decreases |AllStates(c) - visiting|, 0
  {
    if IsHistory(c, s) then
      if s in visiting then acc
      else if s in H then AppendNew(acc, H[s])
      else
        assert AllStates(c) - (visiting + {s}) < AllStates(c) - visiting by { assert s in AllStates(c) - visiting; }
        SmallerSet(AllStates(c) - (visiting + {s}), AllStates(c) - visiting);
        CollectTargets(c, H, Initial(c, s), acc, visiting + {s})
    else if s in acc then acc
    else acc + [s]
  }

  function CollectTargets(c: Chart, H: History, xs: seq<int>, acc: seq<int>, visiting: set<int>): seq<int>
    decreases |AllStates(c) - visiting|, 1 + |xs|
  {
    if xs == [] then acc
    else CollectTargets(c, H, xs[1..], CollectTarget(c, H, xs[0], acc, visiting), visiting)
  }

  /** effectiveTargetStates (interpreter.go:864-873). */
  function EffectiveTargets(c: Chart, H: History, t: Transition): seq<int> {
    CollectTargets(c, H, t.target, [], {})
  }

  /** Everything being expanded is strictly above s in the termination order, so the guard never fires. */
  ghost predicate Higher(c: Chart, visiting: set<int>, s: int)
    requires Founded(c)
  {
    forall v :: v in visiting ==>
      IsHistory(c, v)
      && (Weight(c, v) > Weight(c, s) || (Weight(c, v) == Weight(c, s) && IsHistory(c, s) && Rank(c, v) > Rank(c, s)))
  }

  lemma {:induction false} CollectedAreEffective(c: Chart, H: History, s: int, acc: seq<int>, visiting: set<int>,
    r: int)
    requires Founded(c) && HistorySane(c, H) && Has(c, s) && 0 < s && Higher(c, visiting, s)
    ensures r in CollectTarget(c, H, s, acc, visiting) <==> r in acc || Effective(c, H, s, r)
    decreases |AllStates(c) - visiting|, 0
  {
    if IsHistory(c, s) {
      assert s !in visiting;
      if s in H {
        AppendNewAdds(acc, H[s], r);
      } else {
        assert s in AllStates(c) - visiting;
        SmallerSet(AllStates(c) - (visiting + {s}), AllStates(c) - visiting);
        DefaultExpandable(c, s);
        forall i | 0 <= i < |Initial(c, s)|
          ensures Has(c, Initial(c, s)[i]) && 0 < Initial(c, s)[i] && Higher(c, visiting + {s}, Initial(c, s)[i])
        {
          assert Expandable(c, Initial(c, s)[i], Parent(c, s), false, Rank(c, s));
        }
        CollectedAllAreEffective(c, H, Initial(c, s), acc, visiting + {s}, r);
      }
    }
  }

  lemma {:induction false} CollectedAllAreEffective(c: Chart, H: History, xs: seq<int>, acc: seq<int>,
    visiting: set<int>, r: int)
    requires Founded(c) && HistorySane(c, H)
    requires forall i :: 0 <= i < |xs| ==> Has(c, xs[i]) && 0 < xs[i] && Higher(c, visiting, xs[i])
    ensures r in CollectTargets(c, H, xs, acc, visiting) <==>
              r in acc || exists i {:trigger xs[i]} :: 0 <= i < |xs| && Effective(c, H, xs[i], r)
    decreases |AllStates(c) - visiting|, 1 + |xs|
  {
    if xs != [] {
      var rest := xs[1..];
      CollectedAreEffective(c, H, xs[0], acc, visiting, r);
      CollectedAllAreEffective(c, H, rest, CollectTarget(c, H, xs[0], acc, visiting), visiting, r);
      if i :| 0 <= i < |rest| && Effective(c, H, rest[i], r) { assert rest[i] == xs[i + 1]; }
      if i :| 0 <= i < |xs| && Effective(c, H, xs[i], r) { if i > 0 { assert xs[i] == rest[i - 1]; } }
    }
  }

  /** The collected list is exactly what the recursive meaning of the targets says. */
  lemma EffectiveTargetsAre(c: Chart, H: History, t: Transition, r: int)
    requires Founded(c) && HistorySane(c, H) && AllUnder(c, t.target, 0)
    ensures r in EffectiveTargets(c, H, t) <==>
      exists i {:trigger t.target[i]} :: 0 <= i < |t.target| && Effective(c, H, t.target[i], r)
  {
    assert NodeOk(c, 0);
    CollectedAllAreEffective(c, H, t.target, [], {}, r);
  }

  lemma {:induction false} EffectiveInZone(c: Chart, H: History, s: int, r: int)
    requires Founded(c) && HistorySane(c, H) && Has(c, s) && 0 < s && Effective(c, H, s, r)
    ensures Zone(c, s, r) && Real(c, r)
    decreases if Weight(c, s) >= 0 then Weight(c, s) else 0, if IsHistory(c, s) then Rank(c, s) else 0
  {
    assert NodeOk(c, s);
    if IsHistory(c, s) {
      if s in H {
        RecordExpandable(c, H, s);
      } else {
        DefaultExpandable(c, s);
        assert NodeOk(c, Parent(c, s));
        var i :| 0 <= i < |Initial(c, s)| && Effective(c, H, Initial(c, s)[i], r);
        EffectiveInZone(c, H, Initial(c, s)[i], r);
        ZoneBelow(c, Initial(c, s)[i], r, Parent(c, s));
      }
    }
  }

  /** Every history that is asked stands for something. */
  ghost predicate Answers(c: Chart, H: History) {
    forall h {:trigger IsHistory(c, h)} :: IsHistory(c, h) ==> if h in H then H[h] != [] else Initial(c, h) != []
  }

  lemma {:induction false} SomeEffective(c: Chart, H: History, s: int) returns (r: int)
    requires Founded(c) && HistorySane(c, H) && Answers(c, H) && Has(c, s) && 0 < s
    ensures Effective(c, H, s, r)
    decreases if Weight(c, s) >= 0 then Weight(c, s) else 0, if IsHistory(c, s) then Rank(c, s) else 0
  {
    assert NodeOk(c, s);
    if !IsHistory(c, s) { r := s; }
    else if s in H {
      r := H[s][0];
    } else {
      DefaultExpandable(c, s);
      assert NodeOk(c, Parent(c, s)) && Expandable(c, Initial(c, s)[0], Parent(c, s), false, Rank(c, s));
      r := SomeEffective(c, H, Initial(c, s)[0]);
    }
  }

  lemma ShapeAnswers(c: Chart, H: History)
    requires Shape(c) && HistoryOk(c, H)
    ensures Answers(c, H)
  {
    forall h {:trigger IsHistory(c, h)} | IsHistory(c, h) ensures if h in H then H[h] != [] else Initial(c, h) != [] {
      if h in H { assert RecordOk(c, h, H[h]); } else { assert NodeShape(c, h); }
    }
  }

  // ---- domains ----

  predicate AllBelow(c: Chart, xs: seq<int>, a: int) { forall i :: 0 <= i < |xs| ==> Desc(c, xs[i], a) }

  /** findLCCA (interpreter.go:913-934), from the ancestor p of the head upwards. */
  function LccaFrom(c: Chart, p: int, xs: seq<int>): int
    requires Tree(c)
    decreases p
  {
    if !Has(c, p) then 0
    else if (IsCompound(c, p) || p == 0) && AllBelow(c, xs, p) then p
    else
      assert NodeOk(c, p);
      LccaFrom(c, Parent(c, p), xs)
  }

  function FindLcca(c: Chart, xs: seq<int>): int
    requires Tree(c) && xs != []
  {
    LccaFrom(c, Parent(c, xs[0]), xs)
  }

  /** transitionDomain (interpreter.go:936-946). */
  function Domain(c: Chart, H: History, t: Transition): Option<int>
    requires Tree(c)
  {
    var targets := EffectiveTargets(c, H, t);
    if targets == [] then None
    else if t.isInternal && IsCompound(c, t.source) && AllBelow(c, targets, t.source) then Some(t.source)
    else Some(FindLcca(c, [t.source] + targets))
  }

  /** The result holds p; it is the root, or a compound state that holds the list; and no lower one does. */
  lemma {:induction false} LccaIsLowest(c: Chart, p: int, xs: seq<int>)
    requires Tree(c) && Has(c, p)
    ensures var d := LccaFrom(c, p, xs);
            Has(c, d) && In(c, p, d) && (d == 0 || (IsCompound(c, d) && AllBelow(c, xs, d)))
            && forall q :: In(c, p, q) && IsCompound(c, q) && AllBelow(c, xs, q) ==> q <= d
    decreases p
  {
    assert NodeOk(c, p) && NodeOk(c, 0);
    if !((IsCompound(c, p) || p == 0) && AllBelow(c, xs, p)) && p != 0 {
      assert Desc(c, p, Parent(c, p));
      LccaIsLowest(c, Parent(c, p), xs);
      var d := LccaFrom(c, p, xs);
      TransIn(c, p, Parent(c, p), d);
      forall q | In(c, p, q) && IsCompound(c, q) && AllBelow(c, xs, q)
        ensures q <= d
      {
        assert p != q;
        assert Desc(c, p, q);
        assert In(c, Parent(c, p), q);
      }
    }
  }

  /** A domain is a compound state or the root, and holds the source. */
  lemma DomainOnBranch(c: Chart, H: History, t: Transition)
    requires Tree(c) && Has(c, t.source) && Domain(c, H, t).Some?
    ensures var d := Domain(c, H, t).value; Has(c, d) && (IsCompound(c, d) || d == 0) && In(c, t.source, d)
    ensures !t.isInternal && 0 < t.source ==> Desc(c, t.source, Domain(c, H, t).value)
  {
    assert NodeOk(c, 0) && NodeOk(c, t.source);
    var all := [t.source] + EffectiveTargets(c, H, t);
    assert all[0] == t.source;
    if t.source == 0 {
      assert LccaFrom(c, -1, all) == 0;
    } else {
      assert Desc(c, t.source, Parent(c, t.source));
      LccaIsLowest(c, Parent(c, t.source), all);
      TransIn(c, t.source, Parent(c, t.source), LccaFrom(c, Parent(c, t.source), all));
    }
  }

  /** d may be the domain of t: compound or the root, with all that t aims at properly below it, and the source
      too, unless t is internal and d is the source itself. */
  ghost predicate MayBeDomain(c: Chart, H: History, t: Transition, d: int) {
    && Has(c, d) && (IsCompound(c, d) || d == 0) && (forall r :: r in EffectiveTargets(c, H, t) ==> Desc(c, r, d))
    && (Desc(c, t.source, d) || (t.isInternal && d == t.source && IsCompound(c, d)))
  }

  /** The domain is the lowest state that may be it, or the root if none may; and only a transition that aims at
      nothing has none. */
  lemma DomainIsLowest(c: Chart, H: History, t: Transition)
    requires Tree(c) && Has(c, t.source)
    ensures Domain(c, H, t).None? <==> EffectiveTargets(c, H, t) == []
    ensures Domain(c, H, t).Some? ==> var d := Domain(c, H, t).value;
      (d == 0 || MayBeDomain(c, H, t, d)) && forall q {:trigger MayBeDomain(c, H, t, q)} :: MayBeDomain(c, H, t, q) ==>
        q <= d
  {
    hide EffectiveTargets;
    assert NodeOk(c, 0) && NodeOk(c, t.source);
    var rs := EffectiveTargets(c, H, t);
    var all := [t.source] + rs;
    if rs != [] {
      forall q {:trigger MayBeDomain(c, H, t, q)} | MayBeDomain(c, H, t, q) ensures AllBelow(c, rs, q) {
        forall i | 0 <= i < |rs| ensures Desc(c, rs[i], q) { assert rs[i] in rs; }
      }
      var d := Domain(c, H, t).value;
      if d != t.source || !t.isInternal || !IsCompound(c, d) || !AllBelow(c, rs, d) {
        if 0 < t.source {
          assert Desc(c, t.source, Parent(c, t.source)) && all[0] == t.source;
          LccaIsLowest(c, Parent(c, t.source), all);
          OuterHolders(c, H, t, all, d);
        }
      }
    }
  }

  lemma OuterHolders(c: Chart, H: History, t: Transition, all: seq<int>, d: int)
    requires Tree(c) && Has(c, t.source) && 0 < t.source && all == [t.source] + EffectiveTargets(c, H, t)
    requires !(t.isInternal && IsCompound(c, t.source) && AllBelow(c, EffectiveTargets(c, H, t), t.source))
    requires d == LccaFrom(c, Parent(c, t.source), all)
    ensures d == 0 || MayBeDomain(c, H, t, d)
    ensures forall q {:trigger MayBeDomain(c, H, t, q)} :: MayBeDomain(c, H, t, q) ==> q <= d
  {
    hide EffectiveTargets, LccaFrom;
    var p, rs := Parent(c, t.source), EffectiveTargets(c, H, t);
    assert NodeOk(c, t.source) && Desc(c, t.source, p);
    LccaIsLowest(c, p, all);
    if d != 0 {
      assert AllBelow(c, all, d) && all[0] == t.source;
      forall r | r in rs ensures Desc(c, r, d) {
        var i :| 0 <= i < |rs| && rs[i] == r;
        assert all[i + 1] == r;
      }
    }
    forall q {:trigger MayBeDomain(c, H, t, q)} | MayBeDomain(c, H, t, q) ensures q <= d {
      forall i | 0 <= i < |rs| ensures Desc(c, rs[i], q) { assert rs[i] in rs; }
      assert q == t.source ==> AllBelow(c, rs, t.source);
      if q != t.source {
        assert AllBelow(c, all, q);
        assert In(c, p, q);
      }
    }
  }

  lemma SomeTargets(c: Chart, H: History, t: Transition)
    requires Founded(c) && HistorySane(c, H) && Answers(c, H) && t.target != [] && AllUnder(c, t.target, 0)
    ensures EffectiveTargets(c, H, t) != []
  {
    assert NodeOk(c, 0);
    var r := SomeEffective(c, H, t.target[0]);
    EffectiveTargetsAre(c, H, t, r);
  }

  /** A transition with targets has a domain, with every effective target properly below it. */
  lemma DomainHolds(c: Chart, H: History, t: Transition)
    requires Founded(c) && HistorySane(c, H) && Answers(c, H) && Has(c, t.source) && t.target != []
      && AllUnder(c, t.target, 0)
    ensures Domain(c, H, t).Some?
    ensures var d := Domain(c, H, t).value;
            Has(c, d) && (IsCompound(c, d) || d == 0) && In(c, t.source, d) && EffectiveTargets(c, H, t) != []
            && AllUnder(c, EffectiveTargets(c, H, t), d)
    ensures !t.isInternal && 0 < t.source ==> Desc(c, t.source, Domain(c, H, t).value)
  {
    SomeTargets(c, H, t);
    TargetsUnderDomain(c, H, t);
    DomainOnBranch(c, H, t);
  }

  /** Everything entering a target of t touches lies below t's domain. */
  lemma ZonesBelowDomain(c: Chart, H: History, t: Transition, i: nat, x: int)
    requires Shape(c) && HistoryOk(c, H) && TransitionOk(c, t) && i < |t.target| && Zone(c, t.target[i], x)
    ensures Domain(c, H, t).Some? && Desc(c, x, Domain(c, H, t).value)
  {
    assert NodeOk(c, 0);
    ShapeAnswers(c, H);
    DomainHolds(c, H, t);
    var d := Domain(c, H, t).value;
    var s := t.target[i];
    var r := SomeEffective(c, H, s);
    EffectiveTargetsAre(c, H, t, r);
    EffectiveInZone(c, H, s, r);
    assert Desc(c, r, d);
    AnchorUp(c, s, 0);
    if IsHistory(c, s) {
      var p := Parent(c, s);
      Nested(c, r, p, d);
      if !In(c, p, d) {
        TransDesc(c, t.source, d, p);
      }
      TransIn(c, x, p, d);
    } else {
      TransDesc(c, x, s, d);
    }
  }

  // ---- exit and entry sets ----

  /** computeExitSet for one transition (interpreter.go:965-979). */
  function ExitSet(c: Chart, H: History, C: set<int>, t: Transition): set<int>
    requires Tree(c)
  {
    if t.target == [] then {}
    else
      match Domain(c, H, t)
      case None => {}
      case Some(d) => set x | x in C && Desc(c, x, d)
  }

  function ExitSets(c: Chart, H: History, C: set<int>, ts: seq<Transition>): set<int>
    requires Tree(c)
  {
    if ts == [] then {} else ExitSet(c, H, C, ts[0]) + ExitSets(c, H, C, ts[1..])
  }

  ghost predicate AllFounded(c: Chart, ts: seq<Transition>) {
    forall i {:trigger TargetsFounded(c, ts[i])} :: 0 <= i < |ts| ==> TargetsFounded(c, ts[i])
  }

  ghost predicate AllOk(c: Chart, ts: seq<Transition>) {
    AllFounded(c, ts) && forall i {:trigger TransitionOk(c, ts[i])} :: 0 <= i < |ts| ==> TransitionOk(c, ts[i])
  }

  lemma RecordUnder(c: Chart, H: History, h: int)
    requires Founded(c) && HistorySane(c, H) && h in H
    ensures AllUnder(c, H[h], 0)
  {
    assert RecordSane(c, h, H[h]) && NodeOk(c, h) && StateFounded(c, h) && NodeOk(c, Parent(c, h));
    forall i | 0 <= i < |H[h]| ensures Desc(c, H[h][i], 0) {
      assert Desc(c, H[h][i], Parent(c, h));
      assert NodeOk(c, 0);
    }
  }

  lemma InitialUnder(c: Chart, h: int)
    requires Founded(c) && IsHistory(c, h)
    ensures AllUnder(c, Initial(c, h), 0)
  {
    assert NodeOk(c, h) && StateFounded(c, h) && NodeOk(c, Parent(c, h)) && NodeOk(c, 0);
    forall i | 0 <= i < |Initial(c, h)| ensures Desc(c, Initial(c, h)[i], 0) {
      assert Desc(c, Initial(c, h)[i], Parent(c, h));
    }
  }

  lemma {:induction false} AppendUnder(c: Chart, acc: seq<int>, xs: seq<int>)
    requires AllUnder(c, acc, 0) && AllUnder(c, xs, 0)
    ensures AllUnder(c, AppendNew(acc, xs), 0)
    decreases |xs|
  {
    if xs != [] { AppendUnder(c, if xs[0] in acc then acc else acc + [xs[0]], xs[1..]); }
  }

  lemma {:induction false} CollectedUnder(c: Chart, H: History, s: int, acc: seq<int>, visiting: set<int>)
    requires Founded(c) && HistorySane(c, H) && Has(c, s) && Desc(c, s, 0) && AllUnder(c, acc, 0)
    ensures AllUnder(c, CollectTarget(c, H, s, acc, visiting), 0)
    decreases |AllStates(c) - visiting|, 0
  {
    hide Founded, HistorySane;
    if IsHistory(c, s) && s !in visiting {
      if s in H {
        RecordUnder(c, H, s);
        AppendUnder(c, acc, H[s]);
      } else {
        assert s in AllStates(c) - visiting;
        SmallerSet(AllStates(c) - (visiting + {s}), AllStates(c) - visiting);
        InitialUnder(c, s);
        CollectedAllUnder(c, H, Initial(c, s), acc, visiting + {s});
      }
    }
  }

  lemma {:induction false} CollectedAllUnder(c: Chart, H: History, xs: seq<int>, acc: seq<int>, visiting: set<int>)
    requires Founded(c) && HistorySane(c, H) && AllUnder(c, xs, 0) && AllUnder(c, acc, 0)
    ensures AllUnder(c, CollectTargets(c, H, xs, acc, visiting), 0)
    decreases |AllStates(c) - visiting|, 1 + |xs|
  {
    if xs != [] {
      CollectedUnder(c, H, xs[0], acc, visiting);
      CollectedAllUnder(c, H, xs[1..], CollectTarget(c, H, xs[0], acc, visiting), visiting);
    }
  }

  /** In any founded chart the effective targets of a transition lie below its domain, if it has one. */
  lemma TargetsUnderDomain(c: Chart, H: History, t: Transition)
    requires Founded(c) && HistorySane(c, H) && AllUnder(c, t.target, 0)
    ensures Domain(c, H, t).Some? ==>
      Has(c, Domain(c, H, t).value)
      && AllUnder(c, EffectiveTargets(c, H, t), Domain(c, H, t).value)
  {
    CollectedAllUnder(c, H, t.target, [], {});
    var targets := EffectiveTargets(c, H, t);
    var all := [t.source] + targets;
    if targets != [] && !(t.isInternal && IsCompound(c, t.source) && AllBelow(c, targets, t.source)) {
      LccaUnder(c, Parent(c, t.source), t.source, targets);
    }
  }

  lemma {:induction false} LccaUnder(c: Chart, p: int, s: int, targets: seq<int>)
    requires Tree(c) && AllUnder(c, targets, 0)
    ensures var d := LccaFrom(c, p, [s] + targets); Has(c, d) && AllUnder(c, targets, d)
    decreases p
  {
    var all := [s] + targets;
    if Has(c, p) {
      if (IsCompound(c, p) || p == 0) && AllBelow(c, all, p) {
        forall i | 0 <= i < |targets| ensures Desc(c, targets[i], p) { assert all[i + 1] == targets[i]; }
      } else {
        assert NodeOk(c, p);
        LccaUnder(c, Parent(c, p), s, targets);
      }
    }
  }

  /** One round of computeEntrySet (interpreter.go:951-960). */
  function EntryOf(c: Chart, H: History, t: Transition, e: Entry): Entry
    requires Founded(c) && HistorySane(c, H) && TargetsFounded(c, t)
  {
    if t.target == [] then e
    else if t.target == [0] then AddDescendants(c, H, 0, e)
    else
      assert NodeOk(c, 0);
      BelowExpandable(c, t.target, 0);
      TargetsUnderDomain(c, H, t);
      var e1 := AddDescendantsOf(c, H, t.target, 0, true, 0, e);
      match Domain(c, H, t)
      case None => e1
      case Some(d) => AddAncestorsOf(c, H, EffectiveTargets(c, H, t), d, e1)
  }

  /** computeEntrySet (interpreter.go:948-963). */
  function EntrySet(c: Chart, H: History, ts: seq<Transition>, e: Entry): Entry
    requires Founded(c) && HistorySane(c, H) && AllFounded(c, ts)
  {
    if ts == [] then e
    else
      assert TargetsFounded(c, ts[0]);
      assert forall i {:trigger TargetsFounded(c, ts[1..][i])} :: 0 <= i < |ts[1..]| ==> TargetsFounded(c, ts[i + 1]);
      EntrySet(c, H, ts[1..], EntryOf(c, H, ts[0], e))
  }

  lemma EntryOfGrows(c: Chart, H: History, t: Transition, e: Entry)
    requires Founded(c) && HistorySane(c, H) && TargetsFounded(c, t)
    ensures e.states <= EntryOf(c, H, t, e).states
  {
    hide Alike;
    assert NodeOk(c, 0);
    if t.target == [0] {
      EntryIsLocal(c, H, 0, e, e);
      AlikeGrows(c, Anchor(c, 0), TopOf(c, 0), e.states, AddDescendants(c, H, 0, e).states);
    } else if t.target != [] {
      BelowExpandable(c, t.target, 0);
      TargetsUnderDomain(c, H, t);
      var e1 := AddDescendantsOf(c, H, t.target, 0, true, 0, e);
      EachIsLocal(c, H, t.target, 0, true, 0, e, e);
      AlikeGrows(c, 0, false, e.states, e1.states);
      if Domain(c, H, t).Some? {
        var d := Domain(c, H, t).value;
        AncestorsOfAreLocal(c, H, EffectiveTargets(c, H, t), d, e1, e1);
        AlikeGrows(c, d, false, e1.states, AddAncestorsOf(c, H, EffectiveTargets(c, H, t), d, e1).states);
      }
    }
  }

  lemma {:induction false} EntrySetGrows(c: Chart, H: History, ts: seq<Transition>, e: Entry)
    requires Founded(c) && HistorySane(c, H) && AllFounded(c, ts)
    ensures e.states <= EntrySet(c, H, ts, e).states
    decreases |ts|
  {
    hide Founded, HistorySane;
    if ts != [] {
      var rest := ts[1..];
      forall i {:trigger TargetsFounded(c, rest[i])} | 0 <= i < |rest| ensures TargetsFounded(c, rest[i]) {
        assert TargetsFounded(c, ts[i + 1]);
      }
      assert TargetsFounded(c, ts[0]);
      EntryOfGrows(c, H, ts[0], e);
      EntrySetGrows(c, H, rest, EntryOf(c, H, ts[0], e));
    }
  }

  /** First half of a round: the targets and their default descendants. */
  function PlantedTargets(c: Chart, H: History, t: Transition, e: Entry): Entry
    requires Shape(c) && HistoryOk(c, H) && TransitionOk(c, t) && t.target != []
  {
    assert NodeOk(c, 0);
    BelowExpandable(c, t.target, 0);
    AddDescendantsOf(c, H, t.target, 0, true, 0, e)
  }

  lemma PlantTargets(c: Chart, H: History, t: Transition, e: Entry, d: int)
    requires Shape(c) && HistoryOk(c, H) && TransitionOk(c, t) && t.target != []
    requires Domain(c, H, t) == Some(d) && IsCompound(c, d) && forall x :: x in e.states ==> !Desc(c, x, d)
    ensures var E := PlantedTargets(c, H, t, e).states;
            GrewBelow(c, e.states, E, d) && Forest(c, Under(c, E, d), d, Holes(c, t.target), -1)
            && (exists w :: w in Under(c, E, d))
            && forall i, r {:trigger Effective(c, H, t.target[i], r)} ::
              0 <= i < |t.target| && Effective(c, H, t.target[i], r) ==> r in E
  {
    var xs := t.target;
    assert NodeOk(c, 0);
    BelowExpandable(c, xs, 0);
    forall i
      ensures Untouched(c, xs, e.states, i)
    {
      if 0 <= i < |xs| {
        forall x {:trigger x in e.states} | x in e.states
          ensures !Zone(c, xs[i], x)
        {
          if Zone(c, xs[i], x) { ZonesBelowDomain(c, H, t, i, x); }
        }
      }
    }
    PlantEach(c, H, xs, 0, true, 0, e);
    var E := PlantedTargets(c, H, t, e).states;
    var N := E - e.states;
    forall x | x in N
      ensures Desc(c, x, d) && Placed(c, N, d, Holes(c, xs), x)
    {
      assert InZones(c, xs, x);
      var i :| 0 <= i < |xs| && Zone(c, xs[i], x);
      ZonesBelowDomain(c, H, t, i, x);
      assert Placed(c, N, 0, Holes(c, xs), x);
      assert d <= Parent(c, x);
    }
    assert Under(c, E, d) == N;
    assert Rooted(c, xs[0], N);
    var w :| w in N && Zone(c, xs[0], w);
  }

  lemma EffectiveWitness(c: Chart, H: History, t: Transition, E: set<int>, d: int, i: nat)
    requires Shape(c) && HistoryOk(c, H) && TransitionOk(c, t) && t.target != [] && Domain(c, H, t) == Some(d)
    requires i < |EffectiveTargets(c, H, t)|
    requires forall i, r {:trigger Effective(c, H, t.target[i], r)} ::
      0 <= i < |t.target| && Effective(c, H, t.target[i], r) ==> r in E
    ensures var r := EffectiveTargets(c, H, t)[i]; Has(c, r) && Desc(c, r, d) && r in E && Desc(c, r, Parent(c, r))
  {
    ShapeAnswers(c, H);
    DomainHolds(c, H, t);
    var rs := EffectiveTargets(c, H, t);
    assert Desc(c, rs[i], d);
    EffectiveTargetsAre(c, H, t, rs[i]);
    var j :| 0 <= j < |t.target| && Effective(c, H, t.target[j], rs[i]);
  }

  /** Entering one transition's targets plants a region below its domain and touches nothing else. */
  lemma EntryOfIsRegion(c: Chart, H: History, t: Transition, e: Entry)
    requires Shape(c) && HistoryOk(c, H) && TransitionOk(c, t) && t.target != []
    requires Domain(c, H, t).Some? && forall x :: x in e.states ==> !Desc(c, x, Domain(c, H, t).value)
    ensures var d := Domain(c, H, t).value; var E' := EntryOf(c, H, t, e).states;
            GrewBelow(c, e.states, E', d) && Region(c, Under(c, E', d), d) && exists w :: w in Under(c, E', d)
  {
    var d := Domain(c, H, t).value;
    ShapeAnswers(c, H);
    DomainHolds(c, H, t);
    PlantTargets(c, H, t, e, d);
    var e1 := PlantedTargets(c, H, t, e);
    var rs := EffectiveTargets(c, H, t);
    forall i {:trigger rs[i]} | 0 <= i < |rs|
      ensures Has(c, rs[i]) && Desc(c, rs[i], d) && exists w :: w in e1.states && Desc(c, w, Parent(c, rs[i]))
    {
      EffectiveWitness(c, H, t, e1.states, d, i);
    }
    ClimbAll(c, H, rs, d, e1, Holes(c, t.target));
    var E' := EntryOf(c, H, t, e).states;
    forall h | h in Holes(c, t.target)
      ensures h == d || h in Under(c, E', d)
    {
      var j :| 0 <= j < |t.target| && h == Parent(c, t.target[j]);
      HoleEntered(c, H, t, j, E');
    }
    NoHoles(c, Under(c, E', d), d, Holes(c, t.target));
    var w :| w in Under(c, e1.states, d);
    assert w in Under(c, E', d);
  }

  lemma HoleEntered(c: Chart, H: History, t: Transition, j: nat, E: set<int>)
    requires Shape(c) && HistoryOk(c, H) && TransitionOk(c, t) && j < |t.target|
    requires Domain(c, H, t).Some?
    requires var d := Domain(c, H, t).value; var rs := EffectiveTargets(c, H, t);
             forall i {:trigger rs[i]} :: 0 <= i < |rs| ==> Climbed(c, E, Parent(c, rs[i]), d)
    ensures
      var d := Domain(c, H, t).value;
      Parent(c, t.target[j]) == d
      || (Parent(c, t.target[j]) in E && Desc(c, Parent(c, t.target[j]), d))
  {
    var d := Domain(c, H, t).value;
    var rs := EffectiveTargets(c, H, t);
    var s := t.target[j];
    assert NodeOk(c, 0);
    ShapeAnswers(c, H);
    DomainHolds(c, H, t);
    var r := SomeEffective(c, H, s);
    EffectiveTargetsAre(c, H, t, r);
    EffectiveInZone(c, H, s, r);
    var i :| 0 <= i < |rs| && rs[i] == r;
    assert Desc(c, rs[i], d);
    var h := Parent(c, s);
    assert Desc(c, s, h) && NodeOk(c, s);
    if IsHistory(c, s) { assert Desc(c, r, h); } else { assert r == s; }
    assert In(c, Parent(c, r), h) by { assert h <= Parent(c, r); assert Desc(c, r, Parent(c, r)); }
    ZonesBelowDomain(c, H, t, j, r);
    if h != d {
      Nested(c, r, h, d);
      if !In(c, h, d) {
        // the domain would lie below the history's parent
        assert Desc(c, d, h);
        if IsHistory(c, s) { TransDesc(c, t.source, d, h); }
      }
      assert Desc(c, h, d);
      assert Climbed(c, E, Parent(c, rs[i]), d);
    }
  }
}
