/**
 History (SCXML section 3.10; interpreter.go:787-811, 864-902, 948-963, 1276-1302), in every chart on which
 entry sets can be computed and for any transitions taken together: whenever the next configuration is
 legal, a state that one of them re-enters through its deep history is exactly what it was when the history
 recorded; through its shallow history, it has the same active children, each entered by default unless
 something in it had been entered before.
 */
module HistoryStates {
  import opened Charts
  import opened Validator
  import opened WellFormed
  import opened EntrySets
  import opened Regions
  import opened Configurations
  import opened Transitions
  import opened Selection
  import opened Microsteps
  import opened Locality
  import opened Completeness

  // ---- the recorded leaves determine the rest ----

  /** The recorded leaves of p, active again, bring back all of what was active in p. */
  lemma LeavesDetermine(c: Chart, was: set<int>, next: set<int>, h: int)
    requires Branching(c) && Legal(c, was) && Legal(c, next) && IsHistory(c, h) && IsDeep(c, h) && Parent(c, h) in was
    requires forall x :: x in Recorded(c, was, h) ==> x in next
    ensures forall s :: s in was && In(c, s, Parent(c, h)) ==> s in next
  {
    var p := Parent(c, h);
    assert ActiveOk(c, was, p) && NodeOk(c, p) && NodeOk(c, h) && h in Children(c, p);
    forall s | s in was && In(c, s, p) ensures s in next {
      assert ActiveOk(c, was, s);
      var x := ActiveLeaf(c, was, s);
      assert ActiveOk(c, was, x) && NodeOk(c, x);
      TransIn(c, x, s, p);
      assert Children(c, x) == [] && Children(c, p) != [];
      assert x in Recorded(c, was, h);
      if x != s { LegalUp(c, next, x, s); }
    }
  }

  /** A legal configuration with everything of p that another one has is the same in p. */
  lemma {:induction false} NothingElse(c: Chart, was: set<int>, next: set<int>, p: int, y: int)
    requires Branching(c) && Legal(c, was) && Legal(c, next) && p in was && y in next && In(c, y, p)
    requires forall s :: s in was && In(c, s, p) ==> s in next
    ensures y in was
    decreases y
  {
    assert ActiveOk(c, was, p) && ActiveOk(c, next, y);
    if y != p {
      var q := Parent(c, y);
      assert Desc(c, y, p) && p <= q && Desc(c, y, q) && In(c, q, p) && NodeOk(c, q) && y in Children(c, q);
      LegalParent(c, next, y);
      NothingElse(c, was, next, p, q);
      assert ActiveOk(c, was, q) && ActiveOk(c, next, q);
      if IsCompound(c, q) {
        var l :| l in was && Parent(c, l) == q;
        assert ActiveOk(c, was, l) && NodeOk(c, l);
        TransIn(c, l, q, p);
        assert l == y;
      }
    }
  }

  // ---- what is aimed at is entered ----

  /** Everything a target of t stands for is entered when t has its turn. */
  lemma AimIsEntered(c: Chart, H: History, t: Transition, e: Entry, j: nat, r: int)
    requires Founded(c) && HistorySane(c, H) && TargetsFounded(c, t) && j < |t.target| && 0 < t.target[j]
    requires Effective(c, H, t.target[j], r)
    ensures r in EntryOf(c, H, t, e).states
  {
    hide Alike;
    assert AllUnder(c, t.target, 0) by { assert t.target[j] != 0; }
    assert NodeOk(c, 0);
    BelowExpandable(c, t.target, 0);
    TargetsUnderDomain(c, H, t);
    EffectiveAmong(c, H, t.target, 0, true, 0, e, j, r);
    var e1 := AddDescendantsOf(c, H, t.target, 0, true, 0, e);
    if Domain(c, H, t).Some? {
      var d, rs := Domain(c, H, t).value, EffectiveTargets(c, H, t);
      AncestorsOfAreLocal(c, H, rs, d, e1, e1);
      AlikeGrows(c, d, false, e1.states, AddAncestorsOf(c, H, rs, d, e1).states);
    }
  }

  lemma FoundedTail(c: Chart, ts: seq<Transition>)
    requires ts != [] && AllFounded(c, ts)
    ensures TargetsFounded(c, ts[0]) && AllFounded(c, ts[1..])
  {
    forall i {:trigger TargetsFounded(c, ts[1..][i])} | 0 <= i < |ts[1..]| ensures TargetsFounded(c, ts[1..][i]) {
      assert TargetsFounded(c, ts[i + 1]);
    }
  }

  lemma FoundedPrefix(c: Chart, ts: seq<Transition>, i: nat)
    requires i <= |ts| && AllFounded(c, ts)
    ensures AllFounded(c, ts[..i])
  {
    forall j {:trigger TargetsFounded(c, ts[..i][j])} | 0 <= j < i ensures TargetsFounded(c, ts[..i][j]) {
      assert TargetsFounded(c, ts[j]);
    }
  }

  /** What has been entered when the i-th transition has its turn. */
  ghost function EnteredBefore(c: Chart, H: History, ts: seq<Transition>, i: nat, e: Entry): Entry
    requires Founded(c) && HistorySane(c, H) && AllFounded(c, ts) && i <= |ts|
  {
    FoundedPrefix(c, ts, i);
    EntrySet(c, H, ts[..i], e)
  }

  lemma {:induction false} TurnIsKept(c: Chart, H: History, ts: seq<Transition>, i: nat, e: Entry)
    requires Founded(c) && HistorySane(c, H) && AllFounded(c, ts) && i < |ts|
    ensures TargetsFounded(c, ts[i])
    ensures EntryOf(c, H, ts[i], EnteredBefore(c, H, ts, i, e)).states <= EntrySet(c, H, ts, e).states
    decreases |ts|
  {
    hide Founded, HistorySane;
    FoundedTail(c, ts);
    assert TargetsFounded(c, ts[i]);
    var e1 := EntryOf(c, H, ts[0], e);
    if i == 0 {
      assert ts[..0] == [];
      EntrySetGrows(c, H, ts[1..], e1);
    } else {
      FoundedPrefix(c, ts, i);
      assert ts[..i][1..] == ts[1..][..i - 1];
      assert ts[1..][i - 1] == ts[i];
      TurnIsKept(c, H, ts[1..], i - 1, e1);
      assert EnteredBefore(c, H, ts, i, e) == EnteredBefore(c, H, ts[1..], i - 1, e1);
    }
  }

  lemma EffectiveIsEntered(c: Chart, H: History, ts: seq<Transition>, i: nat, j: nat, r: int)
    requires Founded(c) && HistorySane(c, H) && AllFounded(c, ts) && i < |ts| && j < |ts[i].target|
    requires 0 < ts[i].target[j] && Effective(c, H, ts[i].target[j], r)
    ensures r in EntrySet(c, H, ts, NoEntry).states
  {
    TurnIsKept(c, H, ts, i, NoEntry);
    AimIsEntered(c, H, ts[i], EnteredBefore(c, H, ts, i, NoEntry), j, r);
  }

  // ---- the two round trips ----

  /** The configuration after taking ts together. */
  function Next(c: Chart, H: History, C: set<int>, ts: seq<Transition>): set<int>
    requires Founded(c) && HistorySane(c, H) && AllFounded(c, ts)
  {
    C - ExitSets(c, H, C, ts) + EntrySet(c, H, ts, NoEntry).states
  }

  /** One of the transitions aims at the history h, which recorded in the legal configuration `was`. */
  ghost predicate Returns(c: Chart, was: set<int>, H: History, ts: seq<Transition>, i: nat, j: nat, h: int) {
    && i < |ts| && j < |ts[i].target| && ts[i].target[j] == h && IsHistory(c, h) && h in H
    && Legal(c, was) && Parent(c, h) in was && H[h] == Recorded(c, was, h)
  }

  lemma RecordReturns(c: Chart, was: set<int>, H: History, C: set<int>, ts: seq<Transition>, i: nat, j: nat, h: int)
    requires Founded(c) && HistorySane(c, H) && AllFounded(c, ts) && Returns(c, was, H, ts, i, j, h)
    ensures 0 < h && forall x :: x in Recorded(c, was, h) ==> x in EntrySet(c, H, ts, NoEntry).states
  {
    assert StateFounded(c, h);
    forall x | x in Recorded(c, was, h) ensures x in EntrySet(c, H, ts, NoEntry).states {
      assert Effective(c, H, h, x);
      EffectiveIsEntered(c, H, ts, i, j, x);
    }
  }

  /** Deep history: whatever else is taken with it, if the next configuration is legal, the parent of h is
      in it exactly as it was in the configuration that h recorded. */
  lemma DeepHistoryRestores(c: Chart, was: set<int>, H: History, C: set<int>, ts: seq<Transition>, i: nat, j: nat,
    h: int)
    requires Founded(c) && Branching(c) && HistorySane(c, H) && AllFounded(c, ts)
    requires Returns(c, was, H, ts, i, j, h) && IsDeep(c, h) && Legal(c, Next(c, H, C, ts))
    ensures forall x :: In(c, x, Parent(c, h)) ==> (x in Next(c, H, C, ts) <==> x in was)
  {
    hide Founded, HistorySane, Legal;
    var p, next := Parent(c, h), Next(c, H, C, ts);
    RecordReturns(c, was, H, C, ts, i, j, h);
    LeavesDetermine(c, was, next, h);
    forall x | In(c, x, p) && x in next ensures x in was { NothingElse(c, was, next, p, x); }
  }

  /** Shallow history: the parent has the active children that it had. */
  lemma ShallowHistoryRestores(c: Chart, was: set<int>, H: History, C: set<int>, ts: seq<Transition>, i: nat, j: nat,
    h: int, k: int)
    requires Founded(c) && Branching(c) && HistorySane(c, H) && AllFounded(c, ts)
    requires Returns(c, was, H, ts, i, j, h) && !IsDeep(c, h) && Legal(c, Next(c, H, C, ts))
    requires Real(c, k) && Parent(c, k) == Parent(c, h)
    ensures k in Next(c, H, C, ts) <==> k in was
  {
    hide Founded, HistorySane;
    var p, next := Parent(c, h), Next(c, H, C, ts);
    RecordReturns(c, was, H, C, ts, i, j, h);
    assert ActiveOk(c, was, p) && NodeOk(c, p) && NodeOk(c, k) && k in Children(c, p);
    if k in was { assert k in Recorded(c, was, h); }
    if k in next {
      LegalParent(c, next, k);
      if IsCompound(c, p) {
        var l :| l in was && Parent(c, l) == p;
        assert ActiveOk(c, was, l);
        assert l in Recorded(c, was, h);
        assert l == k;
      }
    }
  }

  // ---- each child as default entry leaves it ----

  /** Everything default entry of k adds to an empty configuration. */
  function Alone(c: Chart, H: History, k: int): set<int>
    requires Founded(c) && HistorySane(c, H) && 0 < k && Has(c, k)
  {
    AddDescendants(c, H, k, NoEntry).states
  }

  /** A list of real states that are apart enters each as if it were alone. */
  lemma {:induction false} EachAsAlone(c: Chart, H: History, xs: seq<int>, b: int, whole: bool, rank: nat, e: Entry,
    j: nat)
    requires Founded(c) && HistorySane(c, H) && Has(c, b) && j < |xs| && Real(c, xs[j])
    requires forall i :: 0 <= i < |xs| ==>
      0 < xs[i] && Real(c, xs[i]) && Desc(c, xs[i], b)
      && Expandable(c, xs[i], b, whole, rank)
    requires forall i, l :: 0 <= i < |xs| && 0 <= l < |xs| && i != l ==> !In(c, xs[i], xs[l])
    requires forall x :: x in e.states ==> !In(c, x, xs[j])
    ensures Alone(c, H, xs[j]) <= AddDescendantsOf(c, H, xs, b, whole, rank, e).states
    decreases |xs|
  {
    var k, e1 := xs[0], AddDescendants(c, H, xs[0], e);
    assert 0 < k && Expandable(c, k, b, whole, rank);
    var rest := xs[1..];
    assert forall i :: 0 <= i < |rest| ==> rest[i] == xs[i + 1];
    if j == 0 {
      EntryIsLocal(c, H, k, e, NoEntry);
      assert forall x :: Reach(c, k, true, x) ==> In(c, x, k);
      assert Agree(c, k, true, e.states, {});
      EachIsLocal(c, H, rest, b, whole, rank, e1, e1);
      EntryIsLocal(c, H, k, NoEntry, NoEntry);
      forall x | x in Alone(c, H, k) ensures x in e1.states { assert Reach(c, k, true, x); }
    } else {
      EntryIsLocal(c, H, k, e, e);
      forall x | x in e1.states ensures !In(c, x, rest[j - 1]) {
        if x !in e.states { DisjointBelow(c, k, xs[j], x); }
      }
      EachAsAlone(c, H, rest, b, whole, rank, e1, j - 1);
    }
  }

  lemma SiblingsRecorded(c: Chart, was: set<int>, h: int)
    requires Tree(c) && IsHistory(c, h) && !IsDeep(c, h) && Legal(c, was)
    ensures var xs := Recorded(c, was, h);
      && (forall i :: 0 <= i < |xs| ==> 0 < xs[i] && Real(c, xs[i]) && Parent(c, xs[i]) == Parent(c, h))
      && forall i, l :: 0 <= i < |xs| && 0 <= l < |xs| && i != l ==> !In(c, xs[i], xs[l])
  {
    var xs := Recorded(c, was, h);
    forall i | 0 <= i < |xs| ensures 0 < xs[i] && Real(c, xs[i]) && Parent(c, xs[i]) == Parent(c, h) {
      assert xs[i] in xs;
      assert ActiveOk(c, was, xs[i]);
    }
    forall i, l | 0 <= i < |xs| && 0 <= l < |xs| && i != l ensures !In(c, xs[i], xs[l]) {
      assert xs[i] != xs[l] by { if i < l { assert xs[i] < xs[l]; } else { assert xs[l] < xs[i]; } }
      assert !Desc(c, xs[i], xs[l]);
    }
  }

  /** Entering a shallow history enters each recorded child as if it were alone, if nothing in it was entered. */
  lemma RecordedAsAlone(c: Chart, was: set<int>, H: History, e: Entry, h: int, j: nat)
    requires Founded(c) && HistorySane(c, H) && IsHistory(c, h) && !IsDeep(c, h) && h in H && Legal(c, was)
    requires H[h] == Recorded(c, was, h) && j < |H[h]| && forall x :: x in e.states ==> !In(c, x, H[h][j])
    ensures 0 < H[h][j] && Has(c, H[h][j]) && Alone(c, H, H[h][j]) <= AddDescendants(c, H, h, e).states
  {
    assert Tree(c);
    hide Alone, Expandable, Founded, HistorySane, Agree, Legal, Alike;
    var p, xs := Parent(c, h), H[h];
    RecordExpandable(c, H, h);
    SiblingsRecorded(c, was, h);
    EachAsAlone(c, H, xs, p, false, Rank(c, h), e, j);
    var e1 := AddDescendantsOf(c, H, xs, p, false, Rank(c, h), e);
    AncestorsOfAreLocal(c, H, xs, p, e1, e1);
    AlikeGrows(c, p, false, e1.states, AddAncestorsOf(c, H, xs, p, e1).states);
    assert AddDescendants(c, H, h, e) == AddAncestorsOf(c, H, xs, p, e1);
  }

  lemma OnlyTarget(c: Chart, H: History, xs: seq<int>, h: int, e: Entry)
    requires Founded(c) && HistorySane(c, H) && Has(c, 0) && xs == [h] && 0 < h && Expandable(c, h, 0, true, 0)
    ensures AddDescendantsOf(c, H, xs, 0, true, 0, e) == AddDescendants(c, H, h, e)
  {
    assert xs[1..] == [];
  }

  lemma OneTarget(c: Chart, H: History, t: Transition, e: Entry, h: int)
    requires Founded(c) && HistorySane(c, H) && TargetsFounded(c, t) && t.target == [h] && 0 < h && Has(c, h)
    ensures AddDescendants(c, H, h, e).states <= EntryOf(c, H, t, e).states
  {
    hide Alike;
    assert AllUnder(c, t.target, 0) by { assert t.target[0] == h; }
    assert NodeOk(c, 0);
    BelowExpandable(c, t.target, 0);
    TargetsUnderDomain(c, H, t);
    assert t.target[0] == h && t.target[1..] == [];
    var e1 := AddDescendantsOf(c, H, t.target, 0, true, 0, e);
    OnlyTarget(c, H, t.target, h, e);
    if Domain(c, H, t).Some? {
      var d, rs := Domain(c, H, t).value, EffectiveTargets(c, H, t);
      AncestorsOfAreLocal(c, H, rs, d, e1, e1);
      AlikeGrows(c, d, false, e1.states, AddAncestorsOf(c, H, rs, d, e1).states);
    }
  }

  /** A legal configuration that holds the default entry of k has nothing else in k. */
  lemma {:induction false} AloneIsAll(c: Chart, H: History, k: int, next: set<int>, y: int)
    requires Enterable(c) && Recalls(c, H) && HistorySane(c, H) && Real(c, k) && 0 < k && Legal(c, next)
    requires Alone(c, H, k) <= next && y in next && In(c, y, k)
    ensures y in Alone(c, H, k)
    decreases y
  {
    hide Recalls, Legal, Alone;
    var M := Alone(c, H, k);
    AloneIsWhole(c, H, k);
    if y != k {
      var q := Parent(c, y);
      LegalParent(c, next, y);
      assert NodeOk(c, k) && NodeOk(c, y) && Desc(c, y, k) && k <= q && Desc(c, y, q) && In(c, q, k);
      AloneIsAll(c, H, k, next, q);
      assert Settled(c, M, q, k);
      ParentIsReal(c, y, q);
      if IsCompound(c, q) {
        var l :| Real(c, l) && Parent(c, l) == q && Covered(c, M, l);
        assert NodeOk(c, l) && NodeOk(c, 0);
        ChildInAlone(c, M, k, q, l);
      } else {
        ChildInAlone(c, M, k, q, y);
      }
    }
  }

  lemma AloneIsWhole(c: Chart, H: History, k: int)
    requires Enterable(c) && Recalls(c, H) && HistorySane(c, H) && Real(c, k) && 0 < k
    ensures k in Alone(c, H, k)
    ensures forall x {:trigger Settled(c, Alone(c, H, k), x, k)} :: x in Alone(c, H, k) ==>
      Settled(c, Alone(c, H, k), x, k)
  {
    EntryIsWhole(c, H, k, NoEntry);
  }

  /** A child of an entered state that holds something entered is itself entered. */
  lemma ChildInAlone(c: Chart, M: set<int>, k: int, q: int, l: int)
    requires Tree(c) && Has(c, k) && Has(c, l) && 0 < l && Parent(c, l) == q && In(c, q, k) && Covered(c, M, l)
    requires forall x {:trigger Settled(c, M, x, k)} :: x in M ==> Settled(c, M, x, k)
    ensures l in M
  {
    hide Complete;
    assert NodeOk(c, k) && NodeOk(c, l) && Desc(c, l, q);
    var x :| x in M && In(c, x, l);
    assert Settled(c, M, x, k);
    if q != k { TransDesc(c, l, q, k); }
  }

  /** And if nothing in a returning child was entered before, its part of the next configuration is exactly
      what default entry of it alone gives. */
  lemma ShallowChildrenAreDefault(c: Chart, was: set<int>, H: History, C: set<int>, ts: seq<Transition>, i: nat,
    h: int, k: int)
    requires Enterable(c) && Recalls(c, H) && HistorySane(c, H) && AllFounded(c, ts)
    requires Returns(c, was, H, ts, i, 0, h) && ts[i].target == [h] && !IsDeep(c, h) && Legal(c, Next(c, H, C, ts))
    requires Real(c, k) && Parent(c, k) == Parent(c, h) && k in was
    requires forall x :: x in EnteredBefore(c, H, ts, i, NoEntry).states ==> !In(c, x, k)
    ensures 0 < k && forall x :: In(c, x, k) ==> (x in Next(c, H, C, ts) <==> x in Alone(c, H, k))
  {
    hide Founded, HistorySane, Recalls, Structured;
    assert 0 < h by { HistoryAboveZero(c, h); }
    var next := Next(c, H, C, ts);
    TurnIsKept(c, H, ts, i, NoEntry);
    assert k in Recorded(c, was, h) by { assert ActiveOk(c, was, k); }
    var j :| 0 <= j < |H[h]| && H[h][j] == k;
    RecordedAsAlone(c, was, H, EnteredBefore(c, H, ts, i, NoEntry), h, j);
    OneTarget(c, H, ts[i], EnteredBefore(c, H, ts, i, NoEntry), h);
    forall x | In(c, x, k) && x in next ensures x in Alone(c, H, k) { AloneIsAll(c, H, k, next, x); }
  }

  lemma HistoryAboveZero(c: Chart, h: int)
    requires Founded(c) && IsHistory(c, h)
    ensures 0 < h
  {
    assert StateFounded(c, h);
  }

  // ---- in careful charts nothing has been entered before ----

  /** Nothing of E lies below the domain of any of these transitions. */
  ghost predicate ClearBelow(c: Chart, H: History, ts: seq<Transition>, E: set<int>)
    requires Tree(c)
  {
    forall j, x {:trigger ts[j], x in E} ::
      0 <= j < |ts| && x in E && ts[j].target != []
      && Domain(c, H, ts[j]).Some?
      ==> !Desc(c, x, Domain(c, H, ts[j]).value)
  }

  lemma ClearNext(c: Chart, H: History, C: set<int>, ts: seq<Transition>, e: Entry)
    requires Shape(c) && HistoryOk(c, H) && ts != [] && Independent(c, H, C, ts) && ClearBelow(c, H, ts, e.states)
    ensures TransitionOk(c, ts[0]) && ClearBelow(c, H, ts[1..], EntryOf(c, H, ts[0], e).states)
  {
    var rest, E := ts[1..], EntryOf(c, H, ts[0], e).states;
    IndependentTail(c, H, C, ts);
    if ts[0].target != [] {
      ShapeAnswers(c, H);
      DomainHolds(c, H, ts[0]);
      EntryOfIsRegion(c, H, ts[0], e);
    }
    forall j, x {:trigger rest[j], x in E} | 0 <= j < |rest| && x in E && rest[j].target != []
      && Domain(c, H, rest[j]).Some?
      ensures !Desc(c, x, Domain(c, H, rest[j]).value)
    {
      assert rest[j] == ts[j + 1];
      if x !in e.states { DisjointBelow(c, Domain(c, H, ts[0]).value, Domain(c, H, rest[j]).value, x); }
    }
  }

  /** When the i-th transition has its turn, nothing has been entered below its domain yet. */
  lemma {:induction false} TurnComes(c: Chart, H: History, C: set<int>, ts: seq<Transition>, e: Entry, i: nat)
    requires Shape(c) && HistoryOk(c, H) && i < |ts| && Independent(c, H, C, ts) && ClearBelow(c, H, ts, e.states)
      && ts[i].target != []
    ensures Domain(c, H, ts[i]).Some? && forall x :: x in EnteredBefore(c, H, ts, i, e).states ==>
      !Desc(c, x, Domain(c, H, ts[i]).value)
    decreases |ts|
  {
    IndependentTail(c, H, C, ts);
    FoundedPrefix(c, ts, i);
    if i == 0 {
      assert ts[..0] == [];
    } else {
      var e1 := EntryOf(c, H, ts[0], e);
      ClearNext(c, H, C, ts, e);
      assert ts[..i][1..] == ts[1..][..i - 1];
      TurnComes(c, H, C, ts[1..], e1, i - 1);
      assert EnteredBefore(c, H, ts, i, e) == EnteredBefore(c, H, ts[1..], i - 1, e1);
    }
  }

  /** A transition to a recorded history from outside its parent has its domain above that parent. */
  lemma DomainAbove(c: Chart, H: History, t: Transition, h: int) returns (d: int)
    requires Shape(c) && HistoryOk(c, H) && TransitionOk(c, t) && t.target == [h] && IsHistory(c, h) && h in H
      && !In(c, t.source, Parent(c, h))
    ensures Domain(c, H, t) == Some(d) && 0 <= d && Desc(c, Parent(c, h), d)
  {
    assert NodeOk(c, h) && StateShape(c, h) && Desc(c, h, Parent(c, h));
    ShapeAnswers(c, H);
    DomainHolds(c, H, t);
    d := Domain(c, H, t).value;
    assert Zone(c, t.target[0], h);
    ZonesBelowDomain(c, H, t, 0, h);
  }

  /** So in a selection of a careful chart a transition to a history alone, from outside the history's parent,
      finds nothing of the parent entered when its turn comes. */
  lemma SelectedTurn(c: Chart, H: History, C: set<int>, enabled: Transition -> bool, i: nat, h: int)
    requires Shape(c) && HistoryOk(c, H) && Legal(c, C)
    requires var ts := Select(c, H, C, enabled);
      i < |ts| && ts[i].target == [h] && IsHistory(c, h) && h in H && !In(c, ts[i].source, Parent(c, h))
    ensures var ts := Select(c, H, C, enabled); AllFounded(c, ts) && forall x ::
      x in EnteredBefore(c, H, ts, i, NoEntry).states ==> !In(c, x, Parent(c, h))
  {
    hide Select, Legal, Domain;
    var ts := Select(c, H, C, enabled);
    SelectedAreIndependent(c, H, C, enabled);
    assert TransitionOk(c, ts[i]);
    var d := DomainAbove(c, H, ts[i], h);
    TurnComes(c, H, C, ts, NoEntry, i);
    forall x | x in EnteredBefore(c, H, ts, i, NoEntry).states ensures !In(c, x, Parent(c, h)) {
      if In(c, x, Parent(c, h)) { TransDesc(c, x, Parent(c, h), d); }
    }
  }
}
