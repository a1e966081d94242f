/**
 Exactly when a step is legal (interpreter.go:936-979, 1440-1463), in every chart the validator accepts
 and for histories that recorded something.  What a step exits, and the way from each entered state up to
 what stays, are always right; the next configuration is legal if and only if the targets are in order
 and what histories enter outside the domains goes with what stays.
 */
module Stepping {
  import opened Charts
  import opened Validator
  import opened WellFormed
  import opened EntrySets
  import opened Regions
  import opened Locality
  import opened Configurations
  import opened Transitions
  import opened Microsteps
  import opened Completeness
  import opened TurnTaking
  import opened Exactness

  // ---- domains, in every accepted chart ----

  /** A transition with targets has a domain: a compound state or the root, with the source in it and the
      effective targets below it. */
  lemma DomainIs(c: Chart, H: History, t: Transition) returns (d: int)
    requires Enterable(c) && Recalls(c, H) && HistorySane(c, H) && Has(c, t.source) && t.target != []
      && AllUnder(c, t.target, 0)
    ensures Domain(c, H, t) == Some(d) && Has(c, d) && (IsCompound(c, d) || d == 0) && In(c, t.source, d)
    ensures EffectiveTargets(c, H, t) != [] && AllUnder(c, EffectiveTargets(c, H, t), d)
  {
    RecallsAnswer(c, H);
    DomainHolds(c, H, t);
    d := Domain(c, H, t).value;
  }

  // ---- how an entered state hangs on what stays ----

  /** All of x's ancestors are entered up to the domain d, or up to a state that holds the domain. */
  ghost predicate HungAt(c: Chart, E: set<int>, x: int, d: int, b: int) {
    0 <= b && In(c, d, b) && Desc(c, x, b) && Climbed(c, E, x, b)
  }

  ghost predicate Hung(c: Chart, E: set<int>, x: int, d: int) {
    Real(c, x) && Complete(c, E, x) && exists b {:trigger HungAt(c, E, x, d, b)} :: HungAt(c, E, x, d, b)
  }

  lemma HungGrows(c: Chart, E: set<int>, F: set<int>, x: int, d: int)
    requires E <= F && Hung(c, E, x, d)
    ensures Hung(c, F, x, d)
  {
    CompleteGrows(c, E, F, x);
    var b :| HungAt(c, E, x, d, b);
    assert HungAt(c, F, x, d, b);
  }

  /** A state entered for one target. */
  lemma TargetHung(c: Chart, H: History, t: Transition, i: nat, E1: set<int>, E: set<int>, x: int, d: int)
    requires Enterable(c) && Recalls(c, H) && HistorySane(c, H) && AllUnder(c, t.target, 0) && i < |t.target|
      && Has(c, d)
    requires E1 <= E && SettledIn(c, E1, t.target[i], x) && AllUnder(c, EffectiveTargets(c, H, t), d)
    requires forall j :: 0 <= j < |EffectiveTargets(c, H, t)| ==>
      Climbed(c, E, Parent(c, EffectiveTargets(c, H, t)[j]), d)
    ensures Hung(c, E, x, d)
  {
    hide Complete, Recalls;
    var s := t.target[i];
    assert NodeOk(c, 0) && NodeOk(c, d);
    assert Has(c, s) && Desc(c, s, 0) && NodeOk(c, s);
    var r := SomeTarget(c, H, s);
    EffectiveTargetsAre(c, H, t, r);
    var rs := EffectiveTargets(c, H, t);
    var j :| 0 <= j < |rs| && rs[j] == r;
    assert Desc(c, rs[j], d) && Climbed(c, E, Parent(c, rs[j]), d);
    SettledGrows(c, E1, E, x, Anchor(c, s));
    if !IsHistory(c, s) {
      Connected(c, E, s, x, d);
      TransDesc(c, x, s, d);
      assert HungAt(c, E, x, d, d);
    } else {
      HistoryHung(c, s, r, E, x, d);
    }
  }

  lemma HistoryHung(c: Chart, h: int, r: int, E: set<int>, x: int, d: int)
    requires Tree(c) && IsHistory(c, h) && 0 < h && Has(c, d) && Real(c, r) && Zone(c, h, r) && Desc(c, r, d)
      && Climbed(c, E, Parent(c, r), d)
    requires Settled(c, E, x, Anchor(c, h)) && Zone(c, h, x)
    ensures Hung(c, E, x, d)
  {
    hide Complete;
    assert NodeOk(c, h) && NodeOk(c, d) && NodeOk(c, r);
    var p := Parent(c, h);
    Nested(c, r, p, d);
    if In(c, d, p) {
      assert HungAt(c, E, x, d, p);
    } else {
      assert Desc(c, r, p) && p <= Parent(c, r);
      assert Desc(c, r, Parent(c, r)) && In(c, Parent(c, r), p);
      forall q {:trigger q in E} | In(c, x, q) && Desc(c, q, d) ensures q in E {
        if !Desc(c, q, p) {
          Nested(c, x, q, p);
          assert In(c, p, q);
          TransIn(c, Parent(c, r), p, q);
        }
      }
      TransDesc(c, x, p, d);
      assert HungAt(c, E, x, d, d);
    }
  }

  // ---- one transition ----

  ghost predicate HungBelow(c: Chart, E: set<int>, E': set<int>, d: int) {
    && E <= E'
    && (forall x {:trigger Hung(c, E', x, d)} :: x in E' && x !in E ==> Hung(c, E', x, d))
    && SomeoneBelow(c, E', d)
  }

  lemma TargetsEnteredFirst(c: Chart, H: History, t: Transition, e: Entry, i: nat)
    requires Founded(c) && HistorySane(c, H) && t.target != [] && AllUnder(c, t.target, 0)
      && i < |EffectiveTargets(c, H, t)|
    requires forall j :: 0 <= j < |t.target| ==>
      0 < t.target[j] && Desc(c, t.target[j], 0) && Expandable(c, t.target[j], 0, true, 0)
    ensures var r := EffectiveTargets(c, H, t)[i];
            Real(c, r) && r in AddDescendantsOf(c, H, t.target, 0, true, 0, e).states
              && SomeoneBelow(c, AddDescendantsOf(c, H, t.target, 0, true, 0, e).states, Parent(c, r))
  {
    assert NodeOk(c, 0);
    var r := EffectiveTargets(c, H, t)[i];
    EffectiveTargetsAre(c, H, t, r);
    var j :| 0 <= j < |t.target| && Effective(c, H, t.target[j], r);
    EffectiveInZone(c, H, t.target[j], r);
    EffectiveAmong(c, H, t.target, 0, true, 0, e, j, r);
    ZoneBelow(c, t.target[j], r, 0);
    assert Desc(c, r, Parent(c, r));
  }

  lemma EntryOfHangs(c: Chart, H: History, t: Transition, e: Entry, d: int)
    requires Enterable(c) && Recalls(c, H) && HistorySane(c, H) && Has(c, t.source) && t.target != []
      && AllUnder(c, t.target, 0) && Domain(c, H, t) == Some(d)
    ensures TargetsFounded(c, t) && HungBelow(c, e.states, EntryOf(c, H, t, e).states, d)
  {
    hide Recalls, Complete, Whole, WholeEach, Settled, SettledIn, Alike, Domain, EffectiveTargets, SomeoneBelow,
      Climbed, Hung;
    var f := DomainIs(c, H, t);
    assert NodeOk(c, 0) && NodeOk(c, d);
    BelowExpandable(c, t.target, 0);
    var e1 := AddDescendantsOf(c, H, t.target, 0, true, 0, e);
    var rs := EffectiveTargets(c, H, t);
    EachIsWhole(c, H, t.target, 0, true, 0, e);
    forall i | 0 <= i < |rs|
      ensures Has(c, rs[i]) && Desc(c, rs[i], d) && SomeoneBelow(c, e1.states, Parent(c, rs[i]))
    {
      TargetsEnteredFirst(c, H, t, e, i);
    }
    ClimbsAreWhole(c, H, rs, d, e1);
    AncestorsOfAreLocal(c, H, rs, d, e1, e1);
    var E' := AddAncestorsOf(c, H, rs, d, e1).states;
    TargetsEnteredFirst(c, H, t, e, 0);
    AlikeIsGrown(c, d, false, e1.states, E');
    EachGrown(c, e.states, e1.states, t.target);
    forall x {:trigger Hung(c, E', x, d)} | x in E' && x !in e.states ensures Hung(c, E', x, d) {
      if x in e1.states {
        AmongGives(c, e.states, e1.states, t.target, x);
        var i :| 0 <= i < |t.target| && SettledIn(c, e1.states, t.target[i], x);
        TargetHung(c, H, t, i, e1.states, E', x, d);
      } else {
        assert Reach(c, d, false, x);
        ClimbedHung(c, e1.states, E', x, d);
      }
    }
    SomeoneIs(c, E', rs[0], d);
  }

  lemma SomeoneIs(c: Chart, E: set<int>, r: int, d: int)
    requires r in E && Real(c, r) && Desc(c, r, d)
    ensures SomeoneBelow(c, E, d)
  {}

  lemma EachGrown(c: Chart, E: set<int>, E': set<int>, xs: seq<int>)
    requires WholeEach(c, E, E', xs)
    ensures E <= E'
  {}

  lemma AmongGives(c: Chart, E: set<int>, E': set<int>, xs: seq<int>, x: int)
    requires WholeEach(c, E, E', xs) && x in E' && x !in E
    ensures exists i :: 0 <= i < |xs| && SettledIn(c, E', xs[i], x)
  {
    hide Settled;
    assert SettledAmong(c, E', xs, x);
  }

  lemma ClimbedHung(c: Chart, E: set<int>, E': set<int>, x: int, d: int)
    requires Tree(c) && Has(c, d) && Whole(c, E, E', d) && x in E' && x !in E && Desc(c, x, d)
    ensures Hung(c, E', x, d)
  {
    assert NodeOk(c, d);
    assert Settled(c, E', x, d);
    assert HungAt(c, E', x, d, d);
  }

  // ---- all transitions of a step ----

  /** Active sources, targets below the root, and no domain below another. */
  ghost predicate Steppable(c: Chart, H: History, C: set<int>, ts: seq<Transition>)
    requires Tree(c)
  {
    && (forall i {:trigger ts[i]} :: 0 <= i < |ts| ==>
      AllUnder(c, ts[i].target, 0) && Has(c, ts[i].source) && (ts[i].source == 0 || ts[i].source in C))
    && (forall d, f :: d in DomainsOf(c, H, ts) && f in DomainsOf(c, H, ts) ==> !Desc(c, d, f))
  }

  ghost predicate HungSomewhere(c: Chart, E: set<int>, ds: set<int>, x: int) { exists d :: d in ds && Hung(c, E, x, d) }

  ghost predicate AllHung(c: Chart, E: set<int>, E': set<int>, ds: set<int>) {
    && E <= E'
    && (forall x {:trigger HungSomewhere(c, E', ds, x)} :: x in E' && x !in E ==> HungSomewhere(c, E', ds, x))
    && (forall d {:trigger SomeoneBelow(c, E', d)} :: d in ds ==> SomeoneBelow(c, E', d))
  }

  lemma HungMore(c: Chart, E: set<int>, E1: set<int>, E2: set<int>, own: set<int>, ds: set<int>)
    requires E <= E1 && (forall d :: d in own ==> HungBelow(c, E, E1, d)) && ((exists d :: d in own) || E1 == E)
      && AllHung(c, E1, E2, ds)
    ensures AllHung(c, E, E2, own + ds)
  {
    hide Hung, SomeoneBelow;
    forall x {:trigger HungSomewhere(c, E2, own + ds, x)} | x in E2 && x !in E
      ensures HungSomewhere(c, E2, own + ds, x)
    {
      if x in E1 {
        var d :| d in own;
        assert Hung(c, E1, x, d);
        HungGrows(c, E1, E2, x, d);
        assert d in own + ds;
      } else {
        assert HungSomewhere(c, E2, ds, x);
        var d :| d in ds && Hung(c, E2, x, d);
        assert d in own + ds;
      }
    }
    forall d {:trigger SomeoneBelow(c, E2, d)} | d in own + ds ensures SomeoneBelow(c, E2, d) {
      if d in own { SomeoneStays(c, E1, E2, d); }
    }
  }

  lemma {:induction false} EntrySetHangs(c: Chart, H: History, ts: seq<Transition>, e: Entry)
    requires Enterable(c) && Recalls(c, H) && HistorySane(c, H)
    requires forall i {:trigger ts[i]} :: 0 <= i < |ts| ==> AllUnder(c, ts[i].target, 0) && Has(c, ts[i].source)
    ensures AllFounded(c, ts) && AllHung(c, e.states, EntrySet(c, H, ts, e).states, DomainsOf(c, H, ts))
    decreases |ts|
  {
    hide Recalls, Hung, HungBelow, AllHung, SomeoneBelow, AllUnder;
    forall i {:trigger TargetsFounded(c, ts[i])} | 0 <= i < |ts| ensures TargetsFounded(c, ts[i]) {
      assert AllUnder(c, ts[i].target, 0);
    }
    if ts == [] {
      NoneHung(c, e.states);
    } else {
      var t, rest := ts[0], ts[1..];
      assert forall i :: 0 <= i < |rest| ==> rest[i] == ts[i + 1];
      var e1 := EntryOf(c, H, t, e);
      if t.target != [] {
        var d := DomainIs(c, H, t);
        EntryOfHangs(c, H, t, e, d);
        HungGrew(c, e.states, e1.states, d);
      }
      EntrySetHangs(c, H, rest, e1);
      HungMore(c, e.states, e1.states, EntrySet(c, H, rest, e1).states, OwnDomain(c, H, t), DomainsOf(c, H, rest));
    }
  }

  lemma NoneHung(c: Chart, E: set<int>)
    ensures AllHung(c, E, E, {})
  {}

  lemma HungGrew(c: Chart, E: set<int>, E': set<int>, d: int)
    requires HungBelow(c, E, E', d)
    ensures E <= E'
  {}

  // ---- the next configuration ----

  /** The domains are active or the root, can hold children, and none is below another. */
  ghost predicate Standing(c: Chart, C: set<int>, ds: set<int>) {
    && (forall d :: d in ds ==> Has(c, d) && (IsCompound(c, d) || d == 0) && (d == 0 || d in C))
    && (forall d, f :: d in ds && f in ds ==> !Desc(c, d, f))
  }

  lemma DomainsStand(c: Chart, H: History, C: set<int>, ts: seq<Transition>)
    requires Enterable(c) && Recalls(c, H) && HistorySane(c, H) && Legal(c, C) && Steppable(c, H, C, ts)
    ensures Standing(c, C, DomainsOf(c, H, ts))
  {
    forall d | d in DomainsOf(c, H, ts) ensures Has(c, d) && (IsCompound(c, d) || d == 0) && (d == 0 || d in C) {
      DomainsAre(c, H, ts, d);
      var i :| 0 <= i < |ts| && ts[i].target != [] && Domain(c, H, ts[i]) == Some(d);
      var f := DomainIs(c, H, ts[i]);
      if d != 0 && d != ts[i].source { LegalUp(c, C, ts[i].source, d); }
    }
  }

  /** What stays keeps its place. */
  lemma StayingIsSeated(c: Chart, C: set<int>, ds: set<int>, E: set<int>, x: int)
    requires Structured(c) && IsCompound(c, 0) && Legal(c, C) && Standing(c, C, ds) && AllHung(c, {}, E, ds)
    requires x in C && !UnderSome(c, ds, x)
    ensures Seated(c, Replaced(c, C, ds, E), x)
  {
    hide Hung;
    var C' := Replaced(c, C, ds, E);
    assert ActiveOk(c, C, x) && NodeOk(c, x);
    forall q {:trigger q in C'} | In(c, x, q) && 0 < q ensures q in C' {
      if q != x { LegalUp(c, C, x, q); }
      assert !UnderSome(c, ds, q);
    }
    StayingIsComplete(c, C, ds, E, x);
  }

  lemma StayingIsComplete(c: Chart, C: set<int>, ds: set<int>, E: set<int>, x: int)
    requires Structured(c) && IsCompound(c, 0) && Legal(c, C) && Standing(c, C, ds) && AllHung(c, {}, E, ds)
    requires x in C && !UnderSome(c, ds, x)
    ensures Complete(c, Replaced(c, C, ds, E), x)
  {
    hide Hung;
    var C' := Replaced(c, C, ds, E);
    assert ActiveOk(c, C, x) && NodeOk(c, x);
    if x in ds {
      assert SomeoneBelow(c, E, x);
      var w :| w in E && Real(c, w) && Desc(c, w, x);
      CoveredToward(c, C', x, w);
    } else {
      forall k | k in C && Parent(c, k) == x ensures Real(c, k) && Covered(c, C', k) {
        assert ActiveOk(c, C, k) && NodeOk(c, k);
        ChildBelow(c, ds, k, x);
        assert k in C' && In(c, k, k);
      }
      if IsCompound(c, x) { var k :| k in C && Parent(c, k) == x; assert Covered(c, C', k); }
    }
  }

  /** What is entered has its place. */
  lemma EnteredIsSeated(c: Chart, C: set<int>, ds: set<int>, E: set<int>, x: int)
    requires Structured(c) && Legal(c, C) && Standing(c, C, ds) && AllHung(c, {}, E, ds) && x in E
    ensures Seated(c, Replaced(c, C, ds, E), x)
  {
    hide Complete;
    var C' := Replaced(c, C, ds, E);
    assert HungSomewhere(c, E, ds, x);
    var d :| d in ds && Hung(c, E, x, d);
    var b :| HungAt(c, E, x, d, b);
    CompleteGrows(c, E, C', x);
    forall q {:trigger q in C'} | In(c, x, q) && 0 < q ensures q in C' {
      if Desc(c, q, b) {
        assert q in E;
      } else {
        Nested(c, x, q, b);
        TransIn(c, d, b, q);
        AboveDomain(c, C, ds, d, q);
      }
    }
  }

  /** A domain and what holds it stay. */
  lemma AboveDomain(c: Chart, C: set<int>, ds: set<int>, d: int, q: int)
    requires Tree(c) && Legal(c, C) && Standing(c, C, ds) && d in ds && 0 < q && In(c, d, q)
    ensures q in C && !UnderSome(c, ds, q)
  {
    if q != d { LegalUp(c, C, d, q); }
    if UnderSome(c, ds, q) {
      var f :| f in ds && Desc(c, q, f);
      TransDesc(c, d, q, f);
    }
  }

  lemma NextIsSeated(c: Chart, C: set<int>, ds: set<int>, E: set<int>)
    requires Structured(c) && IsCompound(c, 0) && Legal(c, C) && Standing(c, C, ds) && AllHung(c, {}, E, ds)
    ensures AllSeated(c, Replaced(c, C, ds, E)) && exists w :: w in Replaced(c, C, ds, E)
  {
    hide AllHung, Hung, Complete;
    var C' := Replaced(c, C, ds, E);
    forall x {:trigger Seated(c, C', x)} | x in C' ensures Seated(c, C', x) {
      if x in E { EnteredIsSeated(c, C, ds, E, x); } else { StayingIsSeated(c, C, ds, E, x); }
    }
    var k :| k in C && Parent(c, k) == 0;
    if UnderSome(c, ds, k) {
      var d :| d in ds && Desc(c, k, d);
      SomeoneFor(c, E, ds, d);
      var w :| w in E && Real(c, w) && Desc(c, w, d);
      assert w in C';
    } else {
      assert k in C';
    }
  }

  lemma SomeoneFor(c: Chart, E: set<int>, ds: set<int>, d: int)
    requires AllHung(c, {}, E, ds) && d in ds
    ensures SomeoneBelow(c, E, d)
  {}

  // ---- what it takes ----

  /** The targets of t, and the regions entered on the way up to its domain, go with K and with what was
      entered before their turn. */
  ghost predicate TargetsInOrder(c: Chart, H: History, K: set<int>, t: Transition, e: Entry)
    requires Founded(c) && HistorySane(c, H) && AllUnder(c, t.target, 0)
  {
    BelowExpandable(c, t.target, 0);
    assert NodeOk(c, 0);
    TargetsUnderDomain(c, H, t);
    && InTurns(c, H, K, t.target, 0, true, 0, e)
    && (t.target != [] && Domain(c, H, t).Some? ==>
         InClimbs(c, H, K, EffectiveTargets(c, H, t), Domain(c, H, t).value,
           AddDescendantsOf(c, H, t.target, 0, true, 0, e)))
  }

  /** The targets of all transitions, in turn, meet only what they go with, while K stays. */
  ghost predicate StepInOrder(c: Chart, H: History, K: set<int>, ts: seq<Transition>, e: Entry)
    requires Founded(c) && HistorySane(c, H) && forall i {:trigger ts[i]} :: 0 <= i < |ts| ==>
      AllUnder(c, ts[i].target, 0)
    decreases |ts|
  {
    ts == [] ||
    (assert AllUnder(c, ts[0].target, 0);
     && TargetsInOrder(c, H, K, ts[0], e)
     && StepInOrder(c, H, K, ts[1..], EntryOf(c, H, ts[0], e)))
  }

  lemma {:induction false} StepTogether(c: Chart, H: History, K: set<int>, ts: seq<Transition>, e: Entry)
    requires Enterable(c) && Recalls(c, H) && HistorySane(c, H) && Together(c, K + e.states)
    requires forall i {:trigger ts[i]} :: 0 <= i < |ts| ==> AllUnder(c, ts[i].target, 0) && Has(c, ts[i].source)
    requires AllFounded(c, ts) && StepInOrder(c, H, K, ts, e)
    ensures Together(c, K + EntrySet(c, H, ts, e).states)
    decreases |ts|
  {
    hide Together, Recalls, TargetsInOrder;
    if ts != [] {
      var t, rest := ts[0], ts[1..];
      assert AllUnder(c, t.target, 0);
      assert forall i :: 0 <= i < |rest| ==> rest[i] == ts[i + 1];
      forall i {:trigger TargetsFounded(c, rest[i])} | 0 <= i < |rest| ensures TargetsFounded(c, rest[i]) {
        assert TargetsFounded(c, ts[i + 1]);
      }
      if t.target != [] { EntryOfTogether(c, H, K, t, e); }
      StepTogether(c, H, K, rest, EntryOf(c, H, t, e));
    }
  }

  lemma EntryOfTogether(c: Chart, H: History, K: set<int>, t: Transition, e: Entry)
    requires Enterable(c) && Recalls(c, H) && HistorySane(c, H) && Together(c, K + e.states)
    requires t.target != [] && AllUnder(c, t.target, 0) && Has(c, t.source) && TargetsInOrder(c, H, K, t, e)
    ensures TargetsFounded(c, t) && Together(c, K + EntryOf(c, H, t, e).states)
  {
    hide Together, Recalls, InTurns, InClimbs, Domain, EffectiveTargets, SomeoneBelow;
    assert NodeOk(c, 0);
    BelowExpandable(c, t.target, 0);
    var d := DomainIs(c, H, t);
    var e1 := AddDescendantsOf(c, H, t.target, 0, true, 0, e);
    EachIsTogether(c, H, K, t.target, 0, true, 0, e);
    var rs := EffectiveTargets(c, H, t);
    forall i | 0 <= i < |rs|
      ensures Has(c, rs[i]) && Desc(c, rs[i], d) && SomeoneBelow(c, e1.states, Parent(c, rs[i]))
    {
      TargetsEnteredFirst(c, H, t, e, i);
    }
    ClimbsAreTogether(c, H, K, rs, d, e1);
  }

  lemma {:induction false} StepWasInOrder(c: Chart, H: History, K: set<int>, ts: seq<Transition>, e: Entry, E: set<int>)
    requires Enterable(c) && HistorySane(c, H) && Together(c, E) && K <= E
    requires forall i {:trigger ts[i]} :: 0 <= i < |ts| ==> AllUnder(c, ts[i].target, 0)
    requires AllFounded(c, ts) && EntrySet(c, H, ts, e).states <= E
    ensures StepInOrder(c, H, K, ts, e)
    decreases |ts|
  {
    hide Together, TargetsInOrder;
    if ts != [] {
      var t, rest := ts[0], ts[1..];
      assert AllUnder(c, t.target, 0);
      assert forall i :: 0 <= i < |rest| ==> rest[i] == ts[i + 1];
      forall i {:trigger TargetsFounded(c, rest[i])} | 0 <= i < |rest| ensures TargetsFounded(c, rest[i]) {
        assert TargetsFounded(c, ts[i + 1]);
      }
      var e1 := EntryOf(c, H, t, e);
      EntrySetGrows(c, H, rest, e1);
      TargetsWereInOrder(c, H, K, t, e, E);
      StepWasInOrder(c, H, K, rest, e1, E);
    }
  }

  lemma TargetsWereInOrder(c: Chart, H: History, K: set<int>, t: Transition, e: Entry, E: set<int>)
    requires Enterable(c) && HistorySane(c, H) && Together(c, E) && K <= E && AllUnder(c, t.target, 0)
    requires TargetsFounded(c, t) && EntryOf(c, H, t, e).states <= E
    ensures TargetsInOrder(c, H, K, t, e)
  {
    hide Together, Alike, InTurns, InClimbs, Domain, EffectiveTargets;
    BelowExpandable(c, t.target, 0);
    assert NodeOk(c, 0);
    TargetsUnderDomain(c, H, t);
    var e1 := AddDescendantsOf(c, H, t.target, 0, true, 0, e);
    if t.target == [] {
      NoTurns(c, H, K, e);
    } else {
      if Domain(c, H, t).Some? {
        var d, rs := Domain(c, H, t).value, EffectiveTargets(c, H, t);
        AncestorsOfAreLocal(c, H, rs, d, e1, e1);
        AlikeGrows(c, d, false, e1.states, AddAncestorsOf(c, H, rs, d, e1).states);
        TogetherInClimbs(c, H, K, rs, d, e1, E);
      }
      EachInTurns(c, H, K, t.target, 0, true, 0, e, E);
    }
  }

  lemma NoTurns(c: Chart, H: History, K: set<int>, e: Entry)
    requires Founded(c) && HistorySane(c, H) && Has(c, 0)
    ensures InTurns(c, H, K, [], 0, true, 0, e)
  {}

  /** From a legal configuration, the next one is legal if and only if the step's targets, and the regions
      entered on the way up from them, are in order beside what stays. */
  lemma StepLegalIff(c: Chart, H: History, C: set<int>, ts: seq<Transition>)
    requires Enterable(c) && IsCompound(c, 0) && Recalls(c, H) && HistorySane(c, H)
    requires Legal(c, C) && Steppable(c, H, C, ts)
    ensures AllFounded(c, ts)
    ensures var X := ExitSets(c, H, C, ts); var E := EntrySet(c, H, ts, NoEntry).states;
            Legal(c, C - X + E) <==> StepInOrder(c, H, C - X, ts, NoEntry)
  {
    hide Recalls, AllHung, AllSeated, Together, Standing, StepInOrder;
    EntrySetHangs(c, H, ts, NoEntry);
    DomainsStand(c, H, C, ts);
    ExitSetsAre(c, H, C, ts);
    var ds, X, E := DomainsOf(c, H, ts), ExitSets(c, H, C, ts), EntrySet(c, H, ts, NoEntry).states;
    assert C - X + E == Replaced(c, C, ds, E);
    NextIsSeated(c, C, ds, E);
    if StepInOrder(c, H, C - X, ts, NoEntry) {
      LegalIsTogether(c, C);
      StillTogether(c, C, C - X + NoEntry.states);
      StepTogether(c, H, C - X, ts, NoEntry);
      SeatedIsLegal(c, C - X + E);
    }
    if Legal(c, C - X + E) {
      LegalIsTogether(c, C - X + E);
      StepWasInOrder(c, H, C - X, ts, NoEntry, C - X + E);
    }
  }

  lemma StillTogether(c: Chart, E: set<int>, F: set<int>)
    requires Together(c, E) && F <= E
    ensures Together(c, F)
  {}
}
