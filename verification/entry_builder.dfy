/**
 Entry sets, exit sets and domains as the source computes them (interpreter.go:787-979): maps filled by
 mutual recursion, lists grown in place, loops up the parent links.  Every method computes the function
 of the same purpose in EntrySets and Transitions.
 */
module EntryBuilders {
  import opened Charts
  import opened Validator
  import opened WellFormed
  import opened EntrySets
  import opened TargetSets
  import opened Transitions

  /** entrySet and forDefault of computeEntrySet, for one chart and the histories as they stand. */
  class EntryBuilder {
    const c: Chart
    const H: History
    var states: set<int>
    var defaults: map<int, seq<int>>

    function View(): Entry
      reads this
    {
      Entry(states, defaults)
    }

    constructor (c: Chart, H: History)
      ensures this.c == c && this.H == H && View() == NoEntry
    {
      this.c := c;
      this.H := H;
      states := {};
      defaults := map[];
    }

    /** addDescendantStatesToEnter (interpreter.go:787-833). */
    method AddDescendant(s: int)
      requires Founded(c) && HistorySane(c, H) && Has(c, s)
      modifies this
      ensures View() == AddDescendants(c, H, s, old(View()))
      decreases Weight(c, s), if IsHistory(c, s) then 0 else 2, if IsHistory(c, s) then Rank(c, s) else 0, 1, 0
    {
      assert NodeOk(c, s) && StateFounded(c, s);
      if IsHistory(c, s) {
        var p := Parent(c, s);
        if s in H {
          RecordExpandable(c, H, s);
          AddEach(H[s], p, false, Rank(c, s));
          AddAncestorsEach(H[s], p);
        } else {
          DefaultExpandable(c, s);
          AppendDefault(p, s);
          AddEach(Initial(c, s), p, false, Rank(c, s));
          AddAncestorsEach(Initial(c, s), p);
        }
        return;
      }
      states := states + {s};
      if IsCompound(c, s) {
        BelowExpandable(c, Initial(c, s), s);
        AppendDefault(s, s);
        AddEach(Initial(c, s), s, true, 0);
        AddAncestorsEach(Initial(c, s), s);
      } else if IsParallel(c, s) {
        ChildrenExpandable(c, s);
        AddEach(RealChildren(c, s), s, true, 0);
      }
    }

    method AppendDefault(at: int, owner: int)
      modifies `defaults
      ensures View() == AddDefault(old(View()), at, owner)
    {
      defaults := defaults[at := (if at in defaults then defaults[at] else []) + [owner]];
    }

    /** The first loop over a target list: everything below each target. */
    method AddEach(xs: seq<int>, ghost b: int, ghost whole: bool, ghost rank: nat)
      requires Founded(c) && HistorySane(c, H) && Has(c, b)
      requires forall i :: 0 <= i < |xs| ==> 0 < xs[i] && Expandable(c, xs[i], b, whole, rank)
      modifies this
      ensures View() == AddDescendantsOf(c, H, xs, b, whole, rank, old(View()))
      decreases End(c, b) - b, if whole then 1 else 0, rank, 0, |xs|
    {
      assert NodeOk(c, b);
      for i := 0 to |xs|
        invariant forall j :: 0 <= j < |xs[i..]| ==> 0 < xs[i..][j] && Expandable(c, xs[i..][j], b, whole, rank)
        invariant AddDescendantsOf(c, H, xs[i..], b, whole, rank, View()) ==
          AddDescendantsOf(c, H, xs, b, whole, rank, old(View()))
      {
        assert 0 < xs[i] && Expandable(c, xs[i], b, whole, rank);
        assert xs[i..][1..] == xs[i + 1..];
        AddDescendant(xs[i]);
      }
    }

    /** The second loop over a target list: the ancestors of each target, up to b. */
    method AddAncestorsEach(xs: seq<int>, b: int)
      requires Founded(c) && HistorySane(c, H) && Has(c, b) && forall i :: 0 <= i < |xs| ==> Desc(c, xs[i], b)
      modifies this
      ensures View() == AddAncestorsOf(c, H, xs, b, old(View()))
      decreases End(c, b) - b, 0, 0, 2, |xs|
    {
      for i := 0 to |xs|
        invariant forall j :: 0 <= j < |xs[i..]| ==> Desc(c, xs[i..][j], b)
        invariant AddAncestorsOf(c, H, xs[i..], b, View()) == AddAncestorsOf(c, H, xs, b, old(View()))
      {
        assert Desc(c, xs[i], b);
        assert xs[i..][1..] == xs[i + 1..];
        AddAncestorsFrom(Parent(c, xs[i]), b);
      }
    }

    /** addAncestorStatesToEnter (interpreter.go:835-848): the walk from a state's parent p up to b. */
    method AddAncestorsFrom(p: int, b: int)
      requires Founded(c) && HistorySane(c, H) && Has(c, b) && (p == b || Desc(c, p, b))
      modifies this
      ensures View() == AddAncestors(c, H, p, b, old(View()))
      decreases End(c, b) - b, 0, 0, 1, p
    {
      var anc := p;
      while anc != b
        invariant anc == b || Desc(c, anc, b)
        invariant anc <= p
        invariant AddAncestors(c, H, anc, b, View()) == AddAncestors(c, H, p, b, old(View()))
        decreases anc
      {
        states := states + {anc};
        ChildrenBelow(c, anc, b);
        assert b <= Parent(c, anc) && Desc(c, anc, Parent(c, anc));
        if IsParallel(c, anc) { AddUncoveredChildren(RealChildren(c, anc), b); }
        anc := Parent(c, anc);
      }
    }

    method AddUncoveredChildren(ks: seq<int>, ghost b: int)
      requires Founded(c) && HistorySane(c, H) && Has(c, b) && forall i :: 0 <= i < |ks| ==>
        Desc(c, ks[i], b) && Real(c, ks[i])
      modifies this
      ensures View() == AddUncovered(c, H, ks, b, old(View()))
      decreases End(c, b) - b, 0, 0, 0, |ks|
    {
      for i := 0 to |ks|
        invariant forall j :: 0 <= j < |ks[i..]| ==> Desc(c, ks[i..][j], b) && Real(c, ks[i..][j])
        invariant AddUncovered(c, H, ks[i..], b, View()) == AddUncovered(c, H, ks, b, old(View()))
      {
        assert Desc(c, ks[i], b) && Real(c, ks[i]);
        assert ks[i..][1..] == ks[i + 1..];
        WeightWithin(c, ks[i], b);
        if !Covered(c, states, ks[i]) { AddDescendant(ks[i]); }
      }
    }
  }

  /** The result, seen and visiting collections of effectiveTargetStates (interpreter.go:864-902). */
  class TargetCollector {
    const c: Chart
    const H: History
    var result: seq<int>
    var seen: set<int>
    var visiting: set<int>

    ghost predicate Valid()
      reads this
    {
      forall x :: x in seen <==> x in result
    }

    constructor (c: Chart, H: History)
      ensures this.c == c && this.H == H && Valid() && result == [] && visiting == {}
    {
      this.c := c;
      this.H := H;
      result, seen, visiting := [], {}, {};
    }

    method Append(x: int)
      requires Valid()
      modifies `result, `seen
      ensures Valid() && result == if x in old(result) then old(result) else old(result) + [x]
    {
      if x !in seen {
        seen := seen + {x};
        result := result + [x];
      }
    }

    /** collectEffectiveTarget; whatever it visits is unmarked again. */
    method Collect(s: int)
      requires Valid()
      modifies this
      ensures Valid() && visiting == old(visiting) && result == CollectTarget(c, H, s, old(result), old(visiting))
      decreases |AllStates(c) - visiting|, 0
    {
      if IsHistory(c, s) {
        if s in visiting { return; }
        ghost var before := visiting;
        visiting := visiting + {s};
        if s in H {
          AppendAll(H[s]);
        } else {
          assert s in AllStates(c) - before;
          SmallerSet(AllStates(c) - visiting, AllStates(c) - before);
          CollectAll(Initial(c, s));
        }
        visiting := visiting - {s};
      } else {
        Append(s);
      }
    }

    method AppendAll(xs: seq<int>)
      requires Valid()
      modifies `result, `seen
      ensures Valid() && result == AppendNew(old(result), xs)
    {
      for i := 0 to |xs|
        invariant Valid() && AppendNew(result, xs[i..]) == AppendNew(old(result), xs)
      {
        assert xs[i..][1..] == xs[i + 1..];
        Append(xs[i]);
      }
    }

    method CollectAll(xs: seq<int>)
      requires Valid()
      modifies this
      ensures Valid() && visiting == old(visiting) && result == CollectTargets(c, H, xs, old(result), old(visiting))
      decreases |AllStates(c) - visiting|, 1 + |xs|
    {
      for i := 0 to |xs|
        invariant Valid() && visiting == old(visiting)
        invariant CollectTargets(c, H, xs[i..], result, visiting) == CollectTargets(c, H, xs, old(result), visiting)
      {
        assert xs[i..][1..] == xs[i + 1..];
        Collect(xs[i]);
      }
    }
  }

  method EffectiveTargetStates(c: Chart, H: History, t: Transition) returns (r: seq<int>)
    ensures r == EffectiveTargets(c, H, t)
  {
    var collector := new TargetCollector(c, H);
    collector.CollectAll(t.target);
    r := collector.result;
  }

  /** findLCCA (interpreter.go:913-934). */
  method FindLccaLoop(c: Chart, xs: seq<int>) returns (r: int)
    requires Tree(c) && xs != []
    ensures r == FindLcca(c, xs)
  {
    var anc := Parent(c, xs[0]);
    while Has(c, anc)
      invariant LccaFrom(c, anc, xs) == FindLcca(c, xs)
      decreases anc
    {
      if IsCompound(c, anc) || anc == 0 {
        var ok := true;
        for i := 0 to |xs|
          invariant ok ==> forall j :: 0 <= j < i ==> Desc(c, xs[j], anc)
        {
          if !Desc(c, xs[i], anc) {
            ok := false;
            assert !AllBelow(c, xs, anc);
            break;
          }
        }
        if ok { return anc; }
      }
      assert NodeOk(c, anc);
      anc := Parent(c, anc);
    }
    r := 0;
  }

  /** transitionDomain (interpreter.go:936-946). */
  method TransitionDomain(c: Chart, H: History, t: Transition) returns (r: Option<int>)
    requires Tree(c)
    ensures r == Domain(c, H, t)
  {
    var targets := EffectiveTargetStates(c, H, t);
    if targets == [] { return None; }
    if t.isInternal && IsCompound(c, t.source) && AllBelow(c, targets, t.source) { return Some(t.source); }
    var d := FindLccaLoop(c, [t.source] + targets);
    r := Some(d);
  }

  /** computeExitSet (interpreter.go:965-979). */
  method ComputeExitSet(c: Chart, H: History, C: set<int>, ts: seq<Transition>) returns (r: set<int>)
    requires Tree(c)
    ensures r == ExitSets(c, H, C, ts)
  {
    r := {};
    for i := 0 to |ts|
      invariant r + ExitSets(c, H, C, ts[i..]) == ExitSets(c, H, C, ts)
    {
      assert ts[i..][1..] == ts[i + 1..];
      if ts[i].target != [] {
        var d := TransitionDomain(c, H, ts[i]);
        if d.Some? { r := r + set x | x in C && Desc(c, x, d.value); }
      }
    }
  }

  /** computeEntrySet (interpreter.go:948-963). */
  method ComputeEntrySet(c: Chart, H: History, ts: seq<Transition>) returns (r: Entry)
    requires Founded(c) && HistorySane(c, H) && AllFounded(c, ts)
    ensures r == EntrySet(c, H, ts, NoEntry)
  {
    var b := new EntryBuilder(c, H);
    for i := 0 to |ts|
      invariant b.c == c && b.H == H && AllFounded(c, ts[i..])
      invariant EntrySet(c, H, ts[i..], b.View()) == EntrySet(c, H, ts, NoEntry)
    {
      assert ts[i..][1..] == ts[i + 1..];
      AddTransition(b, ts[i]);
    }
    r := b.View();
  }

  /** What start enters (interpreter.go:1510-1531). */
  method ComputeStartEntry(c: Chart) returns (r: Entry)
    requires Founded(c)
    ensures r == StartEntry(c)
  {
    assert NodeOk(c, 0) && StateFounded(c, 0);
    var b := new EntryBuilder(c, map[]);
    if IsCompound(c, 0) {
      BelowExpandable(c, Initial(c, 0), 0);
      b.AddEach(Initial(c, 0), 0, true, 0);
      b.AddAncestorsEach(Initial(c, 0), 0);
    } else if IsParallel(c, 0) {
      ChildrenExpandable(c, 0);
      b.AddEach(RealChildren(c, 0), 0, true, 0);
    } else {
      b.states := b.states + {0};
    }
    r := b.View();
  }

  method AddTransition(b: EntryBuilder, t: Transition)
    requires Founded(b.c) && HistorySane(b.c, b.H) && TargetsFounded(b.c, t)
    modifies b
    ensures b.View() == EntryOf(b.c, b.H, t, old(b.View()))
  {
    if t.target == [] { return; }
    if t.target == [0] {
      b.AddDescendant(0);
      return;
    }
    assert NodeOk(b.c, 0);
    BelowExpandable(b.c, t.target, 0);
    b.AddEach(t.target, 0, true, 0);
    TargetsUnderDomain(b.c, b.H, t);
    var domain := TransitionDomain(b.c, b.H, t);
    var targets := EffectiveTargetStates(b.c, b.H, t);
    if domain.Some? { b.AddAncestorsEach(targets, domain.value); }
  }
}
