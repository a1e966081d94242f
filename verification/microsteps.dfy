/**
 One microstep on configurations and history (interpreter.go:1276-1302, 1440-1463): what is exited,
 what is entered, what the histories record, and that all of it stays legal.
 */
module Microsteps {
  import opened Charts
  import opened Validator
  import opened WellFormed
  import opened EntrySets
  import opened Regions
  import opened Configurations
  import opened Transitions
  import opened Selection

  // ---- the domains of the selected transitions ----

  ghost function DomainsOf(c: Chart, H: History, ts: seq<Transition>): set<int>
    requires Tree(c)
  {
    if ts == [] then {} else OwnDomain(c, H, ts[0]) + DomainsOf(c, H, ts[1..])
  }

  ghost function OwnDomain(c: Chart, H: History, t: Transition): set<int>
    requires Tree(c)
  {
    if t.target != [] && Domain(c, H, t).Some? then {Domain(c, H, t).value} else {}
  }

  /** A selection with active, pairwise incomparable domains. */
  ghost predicate Independent(c: Chart, H: History, C: set<int>, ts: seq<Transition>)
    requires Tree(c)
  {
    && AllOk(c, ts)
    && (forall i :: 0 <= i < |ts| && ts[i].target != [] ==> Domain(c, H, ts[i]).Some?)
    && (forall i :: 0 <= i < |ts| && ts[i].target != [] ==>
          var d := Domain(c, H, ts[i]).value; IsCompound(c, d) && (d == 0 || d in C))
    && (forall i, j :: 0 <= i < |ts| && 0 <= j < |ts| && i != j && ts[i].target != [] && ts[j].target != [] ==>
          !In(c, Domain(c, H, ts[i]).value, Domain(c, H, ts[j]).value))
  }

  lemma OwnIsOk(c: Chart, t: Transition)
    requires Shape(c) && Has(c, t.source) && t in Charts.Transitions(c, t.source)
    ensures TransitionOk(c, t)
  {
    assert StateShape(c, t.source) && StateFounded(c, t.source);
    var i :| 0 <= i < |Charts.Transitions(c, t.source)| && Charts.Transitions(c, t.source)[i] == t;
  }

  lemma SelectedAreIndependent(c: Chart, H: History, C: set<int>, enabled: Transition -> bool)
    requires Shape(c) && HistoryOk(c, H) && Legal(c, C)
    ensures Independent(c, H, C, Select(c, H, C, enabled))
  {
    var ps := Picks(c, AtomicStates(c, C), enabled);
    var ts := Select(c, H, C, enabled);
    ShapeSourced(c);
    SelectIsOptimal(c, H, C, enabled);
    forall i | 0 <= i < |ts|
      ensures TransitionOk(c, ts[i])
      ensures ts[i].target != [] ==> Domain(c, H, ts[i]).Some? && var d := Domain(c, H, ts[i]).value;
        IsCompound(c, d) && (d == 0 || d in C)
    {
      var k := PickOf(ps, ts[i]);
      assert PickOk(c, C, enabled, ps[k]);
      OwnIsOk(c, ts[i]);
      if ts[i].target != [] {
        ShapeAnswers(c, H);
        DomainHolds(c, H, ts[i]);
        DomainActive(c, H, C, enabled, ps[k]);
      }
    }
    forall i, j | 0 <= i < |ts| && 0 <= j < |ts| && i != j && ts[i].target != [] && ts[j].target != []
      ensures !In(c, Domain(c, H, ts[i]).value, Domain(c, H, ts[j]).value)
    {
      var k, l := PickOf(ps, ts[i]), PickOf(ps, ts[j]);
      assert PickOk(c, C, enabled, ps[k]) && PickOk(c, C, enabled, ps[l]);
      assert ts[i] != ts[j] by { if i < j { assert ts[i] != ts[j]; } else { assert ts[j] != ts[i]; } }
      assert !Conflict(c, H, C, ts[i], ts[j]);
      if In(c, Domain(c, H, ts[i]).value, Domain(c, H, ts[j]).value) {
        ComparableDomainsConflict(c, H, C, enabled, ps[k], ps[l]);
      }
    }
  }

  ghost function PickOf(ps: seq<Pick>, t: Transition): (k: nat)
    requires Picked(ps, t)
    ensures k < |ps| && ps[k].t == t
  {
    var k :| 0 <= k < |ps| && ps[k].t == t; k
  }

  lemma IndependentTail(c: Chart, H: History, C: set<int>, ts: seq<Transition>)
    requires Tree(c) && Independent(c, H, C, ts) && ts != []
    ensures Independent(c, H, C, ts[1..]) && TransitionOk(c, ts[0])
  {
    var rest := ts[1..];
    assert TransitionOk(c, ts[0]);
    forall i {:trigger TransitionOk(c, rest[i])} | 0 <= i < |rest| ensures TransitionOk(c, rest[i]) {
      assert TransitionOk(c, ts[i + 1]);
    }
    assert forall i :: 0 <= i < |rest| ==> rest[i] == ts[i + 1];
  }

  lemma DomainsAre(c: Chart, H: History, ts: seq<Transition>, d: int)
    requires Tree(c)
    ensures d in DomainsOf(c, H, ts) <==> exists i {:trigger ts[i]} ::
      0 <= i < |ts| && ts[i].target != [] && Domain(c, H, ts[i]) == Some(d)
  {
    if ts != [] {
      var rest := ts[1..];
      DomainsAre(c, H, rest, d);
      if i :| 0 <= i < |rest| && rest[i].target != [] && Domain(c, H, rest[i]) == Some(d) {
        assert ts[i + 1] == rest[i];
      }
      if i :| 0 <= i < |ts| && ts[i].target != [] && Domain(c, H, ts[i]) == Some(d) {
        if i > 0 { assert rest[i - 1] == ts[i]; }
      }
    }
  }

  lemma IndependentDomains(c: Chart, H: History, C: set<int>, ts: seq<Transition>)
    requires Tree(c) && Independent(c, H, C, ts)
    ensures Domains(c, C, DomainsOf(c, H, ts))
  {
    forall d | d in DomainsOf(c, H, ts) ensures IsCompound(c, d) && (d == 0 || d in C) { DomainsAre(c, H, ts, d); }
    forall d, f | d in DomainsOf(c, H, ts) && f in DomainsOf(c, H, ts) ensures !Desc(c, d, f) {
      DomainsAre(c, H, ts, d);
      DomainsAre(c, H, ts, f);
    }
  }

  lemma ExitSetsAre(c: Chart, H: History, C: set<int>, ts: seq<Transition>)
    requires Tree(c)
    ensures ExitSets(c, H, C, ts) == Exited(c, C, DomainsOf(c, H, ts))
  {
    if ts != [] {
      ExitSetsAre(c, H, C, ts[1..]);
      forall x | x in C
        ensures x in ExitSet(c, H, C, ts[0]) ==> UnderSome(c, DomainsOf(c, H, ts), x)
        ensures UnderSome(c, DomainsOf(c, H, ts[1..]), x) ==> UnderSome(c, DomainsOf(c, H, ts), x)
        ensures UnderSome(c, DomainsOf(c, H, ts), x) ==>
          x in ExitSet(c, H, C, ts[0]) || UnderSome(c, DomainsOf(c, H, ts[1..]), x)
      {
        if x in ExitSet(c, H, C, ts[0]) {
          var d := Domain(c, H, ts[0]).value;
          assert d in DomainsOf(c, H, ts) && Desc(c, x, d);
        }
        if UnderSome(c, DomainsOf(c, H, ts[1..]), x) {
          var d :| d in DomainsOf(c, H, ts[1..]) && Desc(c, x, d);
          assert d in DomainsOf(c, H, ts);
        }
        if UnderSome(c, DomainsOf(c, H, ts), x) {
          var d :| d in DomainsOf(c, H, ts) && Desc(c, x, d);
          if d in DomainsOf(c, H, ts[1..]) { assert UnderSome(c, DomainsOf(c, H, ts[1..]), x); }
        }
      }
    }
  }

  /** The entry set of independent transitions is one region below each domain. */
  lemma {:induction false} EntrySetRegions(c: Chart, H: History, C: set<int>, ts: seq<Transition>, e: Entry,
    done: set<int>)
    requires Shape(c) && HistoryOk(c, H) && Independent(c, H, C, ts) && RegionsBelow(c, done, e.states)
    requires forall d :: d in done ==> Has(c, d)
    requires forall i, d {:trigger ts[i], d in done} :: 0 <= i < |ts| && ts[i].target != [] && d in done ==>
               !In(c, d, Domain(c, H, ts[i]).value) && !In(c, Domain(c, H, ts[i]).value, d)
    ensures RegionsBelow(c, done + DomainsOf(c, H, ts), EntrySet(c, H, ts, e).states)
    decreases |ts|
  {
    if ts == [] {
      assert done + DomainsOf(c, H, ts) == done;
    } else {
      var t, rest := ts[0], ts[1..];
      IndependentTail(c, H, C, ts);
      var e1 := EntryOf(c, H, t, e);
      var done1 := done + OwnDomain(c, H, t);
      if t.target != [] {
        EntryBeside(c, H, t, e, done);
      } else {
        assert done1 == done;
      }
      forall i, d {:trigger rest[i], d in done1} | 0 <= i < |rest| && rest[i].target != [] && d in done1
        ensures !In(c, d, Domain(c, H, rest[i]).value) && !In(c, Domain(c, H, rest[i]).value, d)
      {
        assert rest[i] == ts[i + 1];
        if d in done { }
      }
      EntrySetRegions(c, H, C, rest, e1, done1);
      assert done1 + DomainsOf(c, H, rest) == done + DomainsOf(c, H, ts);
    }
  }

  /** Entering below a fresh domain keeps the regions below the earlier ones. */
  lemma EntryBeside(c: Chart, H: History, t: Transition, e: Entry, done: set<int>)
    requires Shape(c) && HistoryOk(c, H) && TransitionOk(c, t) && t.target != [] && Domain(c, H, t).Some?
    requires RegionsBelow(c, done, e.states) && forall d :: d in done ==> Has(c, d)
    requires forall d :: d in done ==> !In(c, d, Domain(c, H, t).value) && !In(c, Domain(c, H, t).value, d)
    ensures RegionsBelow(c, done + {Domain(c, H, t).value}, EntryOf(c, H, t, e).states)
  {
    var d := Domain(c, H, t).value;
    ShapeAnswers(c, H);
    DomainHolds(c, H, t);
    forall x | x in e.states
      ensures !Desc(c, x, d)
    {
      assert UnderSome(c, done, x);
      var f :| f in done && Desc(c, x, f);
      DisjointBelow(c, f, d, x);
    }
    EntryOfIsRegion(c, H, t, e);
    MoreRegions(c, done, d, e.states, EntryOf(c, H, t, e).states);
  }

  /** A region grown below a domain apart from the earlier ones. */
  lemma MoreRegions(c: Chart, done: set<int>, d: int, E: set<int>, E': set<int>)
    requires Tree(c) && Has(c, d) && RegionsBelow(c, done, E) && forall f :: f in done ==>
      Has(c, f) && !In(c, f, d) && !In(c, d, f)
    requires GrewBelow(c, E, E', d) && Region(c, Under(c, E', d), d) && exists w :: w in Under(c, E', d)
    ensures RegionsBelow(c, done + {d}, E')
  {
    forall x | x in E'
      ensures UnderSome(c, done + {d}, x)
    {
      if x in E {
        assert UnderSome(c, done, x);
        var f :| f in done && Desc(c, x, f);
        assert f in done + {d};
      } else {
        assert d in done + {d} && Desc(c, x, d);
      }
    }
    forall f | f in done
      ensures Under(c, E', f) == Under(c, E, f)
    {
      forall x | x in E' && x !in E
        ensures !Desc(c, x, f)
      {
        DisjointBelow(c, d, f, x);
      }
    }
  }

  // ---- history ----

  /** The states a history child of an exited state records (interpreter.go:1287-1301). */
  function Recorded(c: Chart, C: set<int>, h: int): seq<int> {
    SortAsc(set x | x in C && (if IsDeep(c, h) then IsAtomic(c, x) && Desc(c, x, Parent(c, h))
      else Parent(c, x) == Parent(c, h)), |c.states|)
  }

  function RecordChildren(c: Chart, C: set<int>, ks: seq<int>, H: History): History {
    if ks == [] then H
    else RecordChildren(c, C, ks[1..], if IsHistory(c, ks[0]) then H[ks[0] := Recorded(c, C, ks[0])] else H)
  }

  /** The first loop of exitStates (interpreter.go:1276-1302). */
  function RecordAll(c: Chart, C: set<int>, exited: seq<int>, H: History): History {
    if exited == [] then H
    else RecordAll(c, C, exited[1..], RecordChildren(c, C, Children(c, exited[0]), H))
  }

  lemma RecordChildrenIs(c: Chart, C: set<int>, ks: seq<int>, H: History, h: int)
    ensures var R := RecordChildren(c, C, ks, H);
            if h in ks && IsHistory(c, h) then h in R && R[h] == Recorded(c, C, h)
            else (h in R <==> h in H) && (h in H ==> R[h] == H[h])
    decreases |ks|
  {
    if ks != [] {
      RecordChildrenIs(c, C, ks[1..], if IsHistory(c, ks[0]) then H[ks[0] := Recorded(c, C, ks[0])] else H, h);
    }
  }

  /** Exactly the histories of exited states are re-recorded. */
  lemma {:induction false} RecordAllIs(c: Chart, C: set<int>, exited: seq<int>, H: History, h: int)
    requires Tree(c) && forall i :: 0 <= i < |exited| ==> Has(c, exited[i])
    ensures var R := RecordAll(c, C, exited, H);
            if IsHistory(c, h) && Parent(c, h) in exited then h in R && R[h] == Recorded(c, C, h)
            else (h in R <==> h in H) && (h in H ==> R[h] == H[h])
    decreases |exited|
  {
    if exited != [] {
      assert NodeOk(c, exited[0]);
      var H1 := RecordChildren(c, C, Children(c, exited[0]), H);
      RecordChildrenIs(c, C, Children(c, exited[0]), H, h);
      RecordAllIs(c, C, exited[1..], H1, h);
      assert Parent(c, h) in exited <==> Parent(c, h) == exited[0] || Parent(c, h) in exited[1..];
    }
  }

  /** One exit: the configuration before it, and the states it exited. */
  datatype Departure = Departure(config: set<int>, exits: seq<int>)

  /** The histories after a run of exits; microstep records each with RecordAll. */
  function AfterExits(c: Chart, H: History, log: seq<Departure>): History {
    if log == [] then H
    else RecordAll(c, log[|log| - 1].config, log[|log| - 1].exits, AfterExits(c, H, log[..|log| - 1]))
  }

  /** A history stands for what its last recorded exit saw. */
  lemma {:induction false} LastExitCounts(c: Chart, H: History, log: seq<Departure>, k: nat, h: int)
    requires Tree(c) && IsHistory(c, h) && k < |log| && Parent(c, h) in log[k].exits
    requires forall j :: k < j < |log| ==> Parent(c, h) !in log[j].exits
    requires forall j, i :: 0 <= j < |log| && 0 <= i < |log[j].exits| ==> Has(c, log[j].exits[i])
    ensures var R := AfterExits(c, H, log); h in R && R[h] == Recorded(c, log[k].config, h)
  {
    var n := |log| - 1;
    var init := log[..n];
    assert forall j :: 0 <= j < n ==> init[j] == log[j];
    RecordAllIs(c, log[n].config, log[n].exits, AfterExits(c, H, init), h);
    if k < n { LastExitCounts(c, H, init, k, h); }
  }

  lemma RecordedNotEmpty(c: Chart, C: set<int>, h: int)
    requires Branching(c) && Legal(c, C) && IsHistory(c, h) && Parent(c, h) in C
    ensures Recorded(c, C, h) != []
  {
    var p := Parent(c, h);
    assert ActiveOk(c, C, p) && NodeOk(c, p) && NodeOk(c, h);
    assert h in Children(c, p);
    var k := ActiveChild(c, C, p);
    assert ActiveOk(c, C, k) && NodeOk(c, k);
    if IsDeep(c, h) {
      var x := ActiveLeaf(c, C, k);
      assert ActiveOk(c, C, x) && NodeOk(c, x);
      TransDesc(c, x, k, p);
      assert x in Recorded(c, C, h);
    } else {
      assert k in Recorded(c, C, h);
    }
  }

  lemma RecordedMember(c: Chart, C: set<int>, h: int, x: int)
    requires Shape(c) && Legal(c, C) && IsHistory(c, h) && x in Recorded(c, C, h) && 0 < Parent(c, h)
    ensures x in C && Real(c, x) && Desc(c, x, Parent(c, h))
      && (if IsDeep(c, h) then IsAtomic(c, x) else Parent(c, x) == Parent(c, h))
  {
    assert ActiveOk(c, C, x) && NodeOk(c, x);
    assert Desc(c, x, Parent(c, x));
  }

  lemma RecordedApart(c: Chart, C: set<int>, h: int, x: int, y: int)
    requires Shape(c) && Legal(c, C) && IsHistory(c, h) && 0 < Parent(c, h)
    requires x in Recorded(c, C, h) && y in Recorded(c, C, h) && x != y
    ensures Apart(c, x, y)
  {
    RecordedMember(c, C, h, x);
    RecordedMember(c, C, h, y);
    LegalCompat(c, C, x, y);
    if IsDeep(c, h) {
      LeafAlone(c, x, y);
      LeafAlone(c, y, x);
    } else {
      assert !Desc(c, x, y) && !Desc(c, y, x);
    }
  }

  lemma RecordedIsOk(c: Chart, C: set<int>, h: int)
    requires Shape(c) && Legal(c, C) && IsHistory(c, h) && Parent(c, h) in C
    ensures RecordOk(c, h, Recorded(c, C, h))
  {
    var r := Recorded(c, C, h);
    assert ActiveOk(c, C, Parent(c, h));
    ShapeBranches(c);
    RecordedNotEmpty(c, C, h);
    forall i | 0 <= i < |r|
      ensures Real(c, r[i]) && Desc(c, r[i], Parent(c, h))
        && (if IsDeep(c, h) then IsAtomic(c, r[i]) else Parent(c, r[i]) == Parent(c, h))
    {
      RecordedMember(c, C, h, r[i]);
    }
    forall i, j | 0 <= i < |r| && 0 <= j < |r| && i != j
      ensures Apart(c, Anchor(c, r[i]), Anchor(c, r[j]))
    {
      assert r[i] in r && r[j] in r;
      assert r[i] != r[j] by { if i < j { assert r[i] < r[j]; } else { assert r[j] < r[i]; } }
      RecordedApart(c, C, h, r[i], r[j]);
    }
  }

  lemma LeafAlone(c: Chart, x: int, y: int)
    requires Shape(c) && IsAtomic(c, x)
    ensures !Desc(c, y, x)
  {
    assert StateShape(c, x);
    if Desc(c, y, x) { HasChildren(c, x, y); }
  }

  /** Whatever real states were active, what is recorded is sane. */
  lemma RecordKeepsSane(c: Chart, C: set<int>, exited: seq<int>, H: History)
    requires Founded(c) && HistorySane(c, H) && (forall x :: x in C ==> Real(c, x)) && forall i :: 0 <= i < |exited| ==>
      Has(c, exited[i])
    ensures HistorySane(c, RecordAll(c, C, exited, H))
  {
    var R := RecordAll(c, C, exited, H);
    forall h | h in R ensures RecordSane(c, h, R[h]) {
      RecordAllIs(c, C, exited, H, h);
      if IsHistory(c, h) && Parent(c, h) in exited { RecordedIsSane(c, C, h); } else { assert RecordSane(c, h, H[h]); }
    }
  }

  lemma RecordedIsSane(c: Chart, C: set<int>, h: int)
    requires Founded(c) && IsHistory(c, h) && forall x :: x in C ==> Real(c, x)
    ensures RecordSane(c, h, Recorded(c, C, h))
  {
    assert StateFounded(c, h) && NodeOk(c, h);
    forall i | 0 <= i < |Recorded(c, C, h)|
      ensures Real(c, Recorded(c, C, h)[i]) && Desc(c, Recorded(c, C, h)[i], Parent(c, h))
    {
      var x := Recorded(c, C, h)[i];
      assert x in Recorded(c, C, h) && NodeOk(c, x);
      assert Desc(c, x, Parent(c, h)) || (Parent(c, x) == Parent(c, h) && Desc(c, x, Parent(c, x)));
    }
  }

  /** Recording on the way out of a legal configuration keeps every record usable. */
  lemma RecordKeepsHistoryOk(c: Chart, C: set<int>, exited: seq<int>, H: History)
    requires Shape(c) && Legal(c, C) && HistoryOk(c, H)
    requires forall i :: 0 <= i < |exited| ==> exited[i] in C
    ensures HistoryOk(c, RecordAll(c, C, exited, H))
  {
    var R := RecordAll(c, C, exited, H);
    forall i | 0 <= i < |exited| ensures Has(c, exited[i]) { assert ActiveOk(c, C, exited[i]); }
    forall h | h in R
      ensures RecordOk(c, h, R[h])
    {
      RecordAllIs(c, C, exited, H, h);
      if IsHistory(c, h) && Parent(c, h) in exited {
        RecordedIsOk(c, C, h);
      } else {
        assert RecordOk(c, h, H[h]);
      }
    }
  }

  // ---- the microstep ----

  /** Selecting in a legal configuration and taking the step: the exit set is what lies below the
      domains, the entry set lies there too and meets nothing that stays, and the result is legal. */
  lemma StepIsLegal(c: Chart, H: History, C: set<int>, enabled: Transition -> bool)
    requires Shape(c) && HistoryOk(c, H) && Legal(c, C)
    ensures var ts := Select(c, H, C, enabled); var ds := DomainsOf(c, H, ts);
            AllOk(c, ts) && Domains(c, C, ds)
            && (var X := ExitSets(c, H, C, ts); var E := EntrySet(c, H, ts, NoEntry).states;
                X == Exited(c, C, ds) && RegionsBelow(c, ds, E) && E !! (C - X) && Legal(c, C - X + E)
                && HistoryOk(c, RecordAll(c, C, SortDesc(X, |c.states|), H)))
  {
    var ts := Select(c, H, C, enabled);
    var ds := DomainsOf(c, H, ts);
    SelectedAreIndependent(c, H, C, enabled);
    IndependentDomains(c, H, C, ts);
    EntrySetRegions(c, H, C, ts, NoEntry, {});
    assert {} + ds == ds;
    ExitSetsAre(c, H, C, ts);
    var X := ExitSets(c, H, C, ts);
    var E := EntrySet(c, H, ts, NoEntry).states;
    ReplacedIsLegal(c, C, ds, E);
    assert C - X + E == Replaced(c, C, ds, E);
    var order := SortDesc(X, |c.states|);
    forall i | 0 <= i < |order| ensures order[i] in C { assert order[i] in order; }
    RecordKeepsHistoryOk(c, C, order, H);
  }
}
