/**
 Which transitions a selection is about (interpreter.go:1321-1384): on the way from an active atomic state to
 the root, the nearest one that responds, that is, one with a descriptor that matches the event (or without
 descriptors, if there is no event) and a guard that holds.  Every failing guard met before it is reported.
 */
module Choices {
  import opened Charts
  import opened Validator
  import opened Transitions
  import opened Selection
  import opened Machine
  import opened Bookkeeping
  import opened Deliveries
  import opened Steps

  /** The event, or its absence, is what the transition waits for. */
  ghost predicate Awaits(m: Model, ev: Option<Event>, t: Transition) {
    match ev
    case None => t.events == []
    case Some(e) => exists d {:trigger m.matches(d, e.name)} :: d in t.events && m.matches(d, e.name)
  }

  ghost predicate Responds(m: Model, v: View, ev: Option<Event>, t: Transition) {
    Awaits(m, ev, t) && m.guard(v, t.source, t.index) == Holds
  }

  ghost predicate Spoils(m: Model, v: View, ev: Option<Event>, t: Transition) {
    Awaits(m, ev, t) && m.guard(v, t.source, t.index) == Errs
  }

  /** t belongs to a state on the way from x to the root. */
  ghost predicate OnBranch(c: Chart, x: int, t: Transition) {
    In(c, x, t.source) && t in Charts.Transitions(c, t.source)
  }

  /** t comes before u on the way up from a state below both: nearer, or earlier in the same state. */
  ghost predicate Nearer(c: Chart, t: Transition, u: Transition) {
    Desc(c, t.source, u.source) || (t.source == u.source && t.index < u.index)
  }

  /** t is the first to respond on the way up from x. */
  ghost predicate FirstFor(m: Model, v: View, ev: Option<Event>, x: int, t: Transition) {
    && OnBranch(m.chart, x, t) && Responds(m, v, ev, t)
    && forall u {:trigger OnBranch(m.chart, x, u)} :: OnBranch(m.chart, x, u) && Responds(m, v, ev, u) ==>
         u == t || Nearer(m.chart, t, u)
  }

  ghost predicate ActiveAtom(c: Chart, C: set<int>, x: int) { x in C && IsAtomic(c, x) }

  lemma EnabledIsResponding(m: Model, v: View, ev: Option<Event>, t: Transition)
    ensures Enabled(m, v, ev)(t) <==> Responds(m, v, ev, t)
    ensures MatchesEvent(m, t, ev) <==> Awaits(m, ev, t)
  {
    if ev.Some? {
      if d :| d in t.events && m.matches(d, ev.value.name) {
        var i :| 0 <= i < |t.events| && t.events[i] == d;
        assert m.matches(t.events[i], ev.value.name);
      }
      if i :| 0 <= i < |t.events| && m.matches(t.events[i], ev.value.name) {
        assert t.events[i] in t.events;
      }
    }
    assert MatchesEvent(m, t, ev) <==> Awaits(m, ev, t);
  }

  lemma {:induction false} FirstEnabledIs(ts: seq<Transition>, f: Transition -> bool)
    ensures match FirstEnabled(ts, f)
      case None => forall i {:trigger ts[i]} :: 0 <= i < |ts| ==> !f(ts[i])
      case Some(t) => exists i {:trigger ts[i]} :: 0 <= i < |ts| && ts[i] == t && f(t) && forall j :: 0 <= j < i ==>
        !f(ts[j])
  {
    if ts != [] && !f(ts[0]) {
      FirstEnabledIs(ts[1..], f);
      match FirstEnabled(ts[1..], f)
      case None => forall i {:trigger ts[i]} | 0 <= i < |ts| ensures !f(ts[i]) {
        if i > 0 { assert ts[i] == ts[1..][i - 1]; }
      }
      case Some(t) =>
        var i :| 0 <= i < |ts[1..]| && ts[1..][i] == t && f(t) && forall j :: 0 <= j < i ==> !f(ts[1..][j]);
        forall j | 0 <= j < i + 1 ensures !f(ts[j]) { if j > 0 { assert ts[j] == ts[1..][j - 1]; } }
        assert ts[i + 1] == t;
    }
  }

  lemma NotFirst(ts: seq<Transition>, f: Transition -> bool, u: Transition)
    requires u in ts && f(u)
    ensures FirstEnabled(ts, f).Some?
  {
    FirstEnabledIs(ts, f);
    var i :| 0 <= i < |ts| && ts[i] == u;
  }

  /** Transitions sit at their state, at their place. */
  lemma Placed(c: Chart, t: Transition)
    requires Validator.Accepted(c) && t in Charts.Transitions(c, t.source)
    ensures t.index < |Charts.Transitions(c, t.source)| && Charts.Transitions(c, t.source)[t.index] == t
  {
    assert ListsOk(c, t.source);
    var i :| 0 <= i < |Charts.Transitions(c, t.source)| && Charts.Transitions(c, t.source)[i] == t;
  }

  lemma PlacedAt(c: Chart, s: int, i: nat)
    requires Validator.Accepted(c) && i < |Charts.Transitions(c, s)|
    ensures Charts.Transitions(c, s)[i].source == s && Charts.Transitions(c, s)[i].index == i
  {
    assert ListsOk(c, s);
  }

  /** The first of one state's transitions that responds comes before the others that do. */
  lemma FirstOfState(m: Model, v: View, ev: Option<Event>, s: int, t: Transition, u: Transition)
    requires Validator.Accepted(m.chart) && u.source == s && u in Charts.Transitions(m.chart, s)
      && Responds(m, v, ev, u)
    requires FirstEnabled(Charts.Transitions(m.chart, s), Enabled(m, v, ev)) == Some(t)
    ensures Responds(m, v, ev, t) && (u == t || (t.source == s && t.index < u.index))
  {
    hide Validator.Accepted, Responds, Enabled;
    var ts, f := Charts.Transitions(m.chart, s), Enabled(m, v, ev);
    FirstEnabledIs(ts, f);
    var i :| 0 <= i < |ts| && ts[i] == t && f(t) && forall j :: 0 <= j < i ==> !f(ts[j]);
    Placed(m.chart, u);
    PlacedAt(m.chart, s, i);
    EnabledIsResponding(m, v, ev, t);
    EnabledIsResponding(m, v, ev, ts[u.index]);
  }

  /** The choice of an atomic state is the first that responds. */
  lemma ChoiceIsFirstFor(m: Model, v: View, ev: Option<Event>, x: int)
    requires Validator.Accepted(m.chart) && Tree(m.chart) && Has(m.chart, x)
      && Choice(m.chart, x, Enabled(m, v, ev)).Some?
    ensures FirstFor(m, v, ev, x, Choice(m.chart, x, Enabled(m, v, ev)).value)
  {
    hide Validator.Accepted, Choice, Enabled, Responds;
    var c, f := m.chart, Enabled(m, v, ev);
    AcceptedSourced(c);
    ChoiceIsFirst(c, x, f);
    var t := Choice(c, x, f).value;
    FirstOfItself(m, v, ev, t);
    forall u {:trigger OnBranch(c, x, u)} | OnBranch(c, x, u) && Responds(m, v, ev, u)
      ensures u == t || Nearer(c, t, u)
    {
      EnabledIsResponding(m, v, ev, u);
      if t.source < u.source {
        NotFirst(Charts.Transitions(c, u.source), f, u);
        assert false;
      } else if t.source == u.source {
        FirstOfState(m, v, ev, t.source, t, u);
      }
    }
  }

  lemma FirstOfItself(m: Model, v: View, ev: Option<Event>, t: Transition)
    requires FirstEnabled(Charts.Transitions(m.chart, t.source), Enabled(m, v, ev)) == Some(t)
    ensures Responds(m, v, ev, t)
  {
    FirstEnabledIs(Charts.Transitions(m.chart, t.source), Enabled(m, v, ev));
    EnabledIsResponding(m, v, ev, t);
  }

  /** Without a choice nothing on the branch responds. */
  lemma {:induction false} NoChoice(m: Model, v: View, ev: Option<Event>, x: int, u: Transition)
    requires Validator.Accepted(m.chart) && Tree(m.chart) && Has(m.chart, x)
      && Choice(m.chart, x, Enabled(m, v, ev)).None?
    requires OnBranch(m.chart, x, u)
    ensures !Responds(m, v, ev, u)
    decreases x
  {
    hide Validator.Accepted, Enabled, Responds;
    var c, f := m.chart, Enabled(m, v, ev);
    AcceptedTree(c);
    assert NodeOk(c, x);
    EnabledIsResponding(m, v, ev, u);
    FirstEnabledIs(Charts.Transitions(c, x), f);
    if u.source == x {
      var i :| 0 <= i < |Charts.Transitions(c, x)| && Charts.Transitions(c, x)[i] == u;
    } else {
      assert Desc(c, x, u.source) && Has(c, u.source) && 0 < x && Desc(c, x, Parent(c, x));
      NoChoice(m, v, ev, Parent(c, x), u);
    }
  }

  lemma AcceptedTree(c: Chart)
    requires Validator.Accepted(c)
    ensures Tree(c)
  {}

  /** What the atomic states choose is picked, and by the first of them. */
  lemma {:induction false} ChoicePicked(c: Chart, atoms: seq<int>, f: Transition -> bool, x: int, t: Transition)
    requires Tree(c) && x in atoms && Choice(c, x, f) == Some(t)
    requires forall i, j :: 0 <= i < j < |atoms| ==> atoms[i] < atoms[j]
    ensures exists p {:trigger p in Picks(c, atoms, f)} :: p in Picks(c, atoms, f) && p.t == t && p.atom <= x
    decreases |atoms|
  {
    hide Choice, Tree;
    var init, a := atoms[..|atoms| - 1], atoms[|atoms| - 1];
    var before, ps := Picks(c, init, f), Picks(c, atoms, f);
    if x in init {
      ChoicePicked(c, init, f, x, t);
      var p :| p in before && p.t == t && p.atom <= x;
      assert p in ps;
    } else {
      assert x == a;
      if Picked(before, t) {
        var i :| 0 <= i < |before| && before[i].t == t;
        PickedFrom(c, init, f, before[i]);
        assert before[i] in ps;
      } else {
        assert Pick(t, a) in ps;
      }
    }
  }

  lemma {:induction false} PickedFrom(c: Chart, atoms: seq<int>, f: Transition -> bool, p: Pick)
    requires Tree(c) && p in Picks(c, atoms, f)
    ensures p.atom in atoms
    decreases |atoms|
  {
    hide Choice, Tree;
    var init, a := atoms[..|atoms| - 1], atoms[|atoms| - 1];
    if p in Picks(c, init, f) { PickedFrom(c, init, f, p); }
    assert atoms == init + [a];
  }

  /** Every selected transition is the first to respond on the way up from some active atomic state. */
  lemma SelectedRespond(m: Model, st: St, ev: Option<Event>, t: Transition) returns (x: int)
    requires Validator.Accepted(m.chart) && Tree(m.chart) && t in Selected(m, st, ev)
    ensures ActiveAtom(m.chart, st.config, x)
    ensures FirstFor(m, View(st.data, st.config, st.event, st.mail.sendSeq, st.invokeSeq), ev, x, t)
  {
    hide Validator.Accepted, Select, Enabled;
    var c, f := m.chart, Enabled(m, ViewOf(st), ev);
    AcceptedSourced(c);
    var p := SelectedPick(c, st.history, st.config, f, t);
    x := p.atom;
    assert Has(c, x);
    PickIsFirstFor(m, ViewOf(st), ev, st.config, p);
  }

  lemma PickIsFirstFor(m: Model, v: View, ev: Option<Event>, C: set<int>, p: Pick)
    requires Validator.Accepted(m.chart) && Tree(m.chart) && PickOk(m.chart, C, Enabled(m, v, ev), p)
    ensures FirstFor(m, v, ev, p.atom, p.t)
  {
    hide Validator.Accepted, Enabled, Responds;
    AcceptedTree(m.chart);
    AcceptedSourced(m.chart);
    assert NodeOk(m.chart, p.atom);
    PickIsChoice(m.chart, C, Enabled(m, v, ev), p, p.atom);
    ChoiceIsFirstFor(m, v, ev, p.atom);
  }

  lemma {:induction false} PickIsChoice(c: Chart, C: set<int>, f: Transition -> bool, p: Pick, y: int)
    requires Sourced(c) && PickOk(c, C, f, p) && In(c, p.atom, y) && p.t.source <= y && Has(c, y)
    ensures Choice(c, y, f) == Some(p.t)
    decreases y
  {
    assert NodeOk(c, y);
    if y != p.t.source {
      Nested(c, p.atom, y, p.t.source);
      assert Desc(c, y, p.t.source) && Desc(c, y, Parent(c, y));
      TransIn(c, p.atom, y, Parent(c, y));
      PickIsChoice(c, C, f, p, Parent(c, y));
    }
  }

  /** And if anything responds on the way up from an active atomic state, in a legal configuration: the first that
      does is selected; or it loses to a selected one with which it shares an exit, whose source lies properly
      below its own or which an earlier atomic state chose. */
  ghost predicate Loses(m: Model, st: St, ev: Option<Event>, t: Transition, k: Transition)
    requires Tree(m.chart)
  {
    && k in Selected(m, st, ev) && Conflict(m.chart, st.history, st.config, t, k)
    && (Desc(m.chart, k.source, t.source) || ChosenBefore(m, st, ev, k, t))
  }

  /** Some active atomic state chose k, and every one that chose t comes later in document order. */
  ghost predicate ChosenBefore(m: Model, st: St, ev: Option<Event>, k: Transition, t: Transition) {
    exists y {:trigger ActiveAtom(m.chart, st.config, y)} ::
      && ActiveAtom(m.chart, st.config, y) && FirstFor(m, ViewOf(st), ev, y, k)
      && forall z {:trigger ActiveAtom(m.chart, st.config, z)} ::
           ActiveAtom(m.chart, st.config, z) && FirstFor(m, ViewOf(st), ev, z, t) ==> y < z
  }

  lemma FirstIsUnique(m: Model, v: View, ev: Option<Event>, x: int, t: Transition, u: Transition)
    requires Validator.Accepted(m.chart) && FirstFor(m, v, ev, x, t) && FirstFor(m, v, ev, x, u)
    ensures t == u
  {
    hide Validator.Accepted, Responds;
    assert OnBranch(m.chart, x, t) && OnBranch(m.chart, x, u);
  }

  lemma BranchResponds(m: Model, st: St, ev: Option<Event>, x: int, u: Transition) returns (t: Transition)
    requires Validator.Accepted(m.chart) && Legal(m.chart, st.config)
    requires ActiveAtom(m.chart, st.config, x) && OnBranch(m.chart, x, u) && Responds(m, ViewOf(st), ev, u)
    ensures Tree(m.chart) && FirstFor(m, ViewOf(st), ev, x, t)
    ensures t in Selected(m, st, ev) || exists k {:trigger Loses(m, st, ev, t, k)} :: Loses(m, st, ev, t, k)
  {
    hide Validator.Accepted, Enabled, Responds, Legal, Choice, Conflict, FirstFor, Select, PickOk;
    var c, v, f := m.chart, ViewOf(st), Enabled(m, ViewOf(st), ev);
    AcceptedTree(c);
    if Choice(c, x, f).None? { NoChoice(m, v, ev, x, u); }
    t := Choice(c, x, f).value;
    ChoiceIsFirstFor(m, v, ev, x);
    var atoms := AtomicStates(c, st.config);
    var ps := Picks(c, atoms, f);
    SelectionIsOptimal(c, st.history, st.config, f);
    ChoicePicked(c, atoms, f, x, t);
    var p :| p in ps && p.t == t && p.atom <= x;
    var i :| 0 <= i < |ps| && ps[i] == p;
    if t !in Selected(m, st, ev) {
      assert Outranked(c, st.history, st.config, ps, Selected(m, st, ev), i);
      var j :| 0 <= j < |ps| && ps[j].t in Selected(m, st, ev) && Conflict(c, st.history, st.config, t, ps[j].t)
        && (Desc(c, ps[j].t.source, t.source) || j < i);
      if !Desc(c, ps[j].t.source, t.source) { PickedBefore(m, st, ev, j, i); }
      assert Loses(m, st, ev, t, ps[j].t);
    }
  }

  lemma PickedBefore(m: Model, st: St, ev: Option<Event>, j: nat, i: nat)
    requires Validator.Accepted(m.chart) && Tree(m.chart)
    requires var ps := Picks(m.chart, AtomicStates(m.chart, st.config), Enabled(m, ViewOf(st), ev));
      j < i < |ps| && PicksOk(m.chart, st.config, Enabled(m, ViewOf(st), ev), ps)
    ensures var ps := Picks(m.chart, AtomicStates(m.chart, st.config), Enabled(m, ViewOf(st), ev));
      ChosenBefore(m, st, ev, ps[j].t, ps[i].t)
  {
    hide Validator.Accepted, Enabled, Responds, Choice, FirstFor, PickOk, Picks;
    var c, v, f := m.chart, ViewOf(st), Enabled(m, ViewOf(st), ev);
    var atoms := AtomicStates(c, st.config);
    var ps := Picks(c, atoms, f);
    var y, t := ps[j].atom, ps[i].t;
    assert PickOk(c, st.config, f, ps[j]) && PickOk(c, st.config, f, ps[i]);
    PickIsActive(c, st.config, f, ps[j]);
    PickIsFirstFor(m, v, ev, st.config, ps[j]);
    forall z {:trigger ActiveAtom(c, st.config, z)} | ActiveAtom(c, st.config, z) && FirstFor(m, v, ev, z, t)
      ensures y < z
    {
      ChoiceOfFirst(m, v, ev, z, t);
      ChoicePicked(c, atoms, f, z, t);
      var p :| p in ps && p.t == t && p.atom <= z;
      var n :| 0 <= n < |ps| && ps[n] == p;
      assert n == i;
    }
  }

  lemma PickIsActive(c: Chart, C: set<int>, f: Transition -> bool, p: Pick)
    requires Tree(c) && PickOk(c, C, f, p)
    ensures ActiveAtom(c, C, p.atom)
  {}

  lemma ChoiceOfFirst(m: Model, v: View, ev: Option<Event>, x: int, t: Transition)
    requires Validator.Accepted(m.chart) && Tree(m.chart) && Has(m.chart, x) && FirstFor(m, v, ev, x, t)
    ensures Choice(m.chart, x, Enabled(m, v, ev)) == Some(t)
  {
    hide Validator.Accepted, Enabled, Responds, Choice;
    if Choice(m.chart, x, Enabled(m, v, ev)).None? {
      NoChoice(m, v, ev, x, t);
    } else {
      ChoiceIsFirstFor(m, v, ev, x);
      FirstIsUnique(m, v, ev, x, t, Choice(m.chart, x, Enabled(m, v, ev)).value);
    }
  }

  // ---- failing guards are reported ----

  /** On the way up from x the guard of y's j-th transition was asked and failed: the transition awaits the event,
      and nothing before it responds. */
  ghost predicate Failing(m: Model, v: View, ev: Option<Event>, x: int, y: int, j: int) {
    && Has(m.chart, y) && In(m.chart, x, y) && 0 <= j < |Charts.Transitions(m.chart, y)|
    && Spoils(m, v, ev, Charts.Transitions(m.chart, y)[j])
    && (forall i {:trigger Charts.Transitions(m.chart, y)[i]} :: 0 <= i < j ==>
         !Responds(m, v, ev, Charts.Transitions(m.chart, y)[i]))
    && forall q {:trigger In(m.chart, x, q)} :: y < q && In(m.chart, x, q) ==> NoneRespond(m, v, ev, q)
  }

  ghost predicate NoneRespond(m: Model, v: View, ev: Option<Event>, q: int) {
    forall t {:trigger t in Charts.Transitions(m.chart, q)} :: t in Charts.Transitions(m.chart, q) ==>
      !Responds(m, v, ev, t)
  }

  /** All the failures met in a selection from these atomic states: which one was on its way up, and where. */
  ghost function FailuresOf(m: Model, v: View, ev: Option<Event>, atoms: set<int>): set<(int, int, int)> {
    set x, y, j | x in atoms && 0 <= y < |m.chart.states| && 0 <= j < |Charts.Transitions(m.chart, y)|
      && Failing(m, v, ev, x, y, j) :: (x, y, j)
  }

  /** The failures on the way up from x, from its ancestor z on. */
  ghost function FailuresUp(m: Model, v: View, ev: Option<Event>, x: int, z: int): set<(int, int, int)> {
    set y, j | 0 <= y <= z && y < |m.chart.states| && 0 <= j < |Charts.Transitions(m.chart, y)|
      && Failing(m, v, ev, x, y, j) :: (x, y, j)
  }

  /** The failures in z itself, from its k-th transition on. */
  ghost function FailuresIn(m: Model, v: View, ev: Option<Event>, x: int, z: int, k: nat): set<(int, int, int)> {
    set j | k <= j < |Charts.Transitions(m.chart, z)| && Failing(m, v, ev, x, z, j) :: (x, z, j)
  }

  ghost predicate NoneBefore(m: Model, v: View, ev: Option<Event>, z: int, k: nat) {
    k <= |Charts.Transitions(m.chart, z)| && forall i {:trigger Charts.Transitions(m.chart, z)[i]} :: 0 <= i < k ==>
      !Responds(m, v, ev, Charts.Transitions(m.chart, z)[i])
  }

  lemma {:induction false} ErrorsInCount(m: Model, v: View, ev: Option<Event>, x: int, z: int, k: nat)
    requires Has(m.chart, z) && In(m.chart, x, z) && NoneBefore(m, v, ev, z, k)
    requires forall q {:trigger In(m.chart, x, q)} :: z < q && In(m.chart, x, q) ==> NoneRespond(m, v, ev, q)
    ensures |FailuresIn(m, v, ev, x, z, k)| == ErrorsIn(m, v, ev, Charts.Transitions(m.chart, z)[k..])
    decreases |Charts.Transitions(m.chart, z)| - k
  {
    hide Responds, Spoils, NoneRespond, Enabled, MatchesEvent;
    var ts := Charts.Transitions(m.chart, z);
    if k == |ts| {
      assert FailuresIn(m, v, ev, x, z, k) == {};
    } else {
      assert ts[k..][0] == ts[k] && ts[k..][1..] == ts[k + 1..];
      EnabledIsResponding(m, v, ev, ts[k]);
      SpoilsIs(m, v, ev, ts[k]);
      if Responds(m, v, ev, ts[k]) {
        assert FailuresIn(m, v, ev, x, z, k) == {};
      } else {
        ErrorsInCount(m, v, ev, x, z, k + 1);
        var rest := FailuresIn(m, v, ev, x, z, k + 1);
        assert (x, z, k) !in rest;
        assert Failing(m, v, ev, x, z, k) <==> Spoils(m, v, ev, ts[k]);
        assert FailuresIn(m, v, ev, x, z, k) == rest + if Failing(m, v, ev, x, z, k) then {(x, z, k)} else {};
      }
    }
  }

  lemma SpoilsIs(m: Model, v: View, ev: Option<Event>, t: Transition)
    ensures Spoils(m, v, ev, t) <==> MatchesEvent(m, t, ev) && m.guard(v, t.source, t.index) == Errs
    ensures Spoils(m, v, ev, t) ==> !Responds(m, v, ev, t)
  {
    EnabledIsResponding(m, v, ev, t);
  }

  lemma NoneRespondIs(m: Model, v: View, ev: Option<Event>, z: int)
    ensures NoneRespond(m, v, ev, z) <==>
      FirstEnabled(Charts.Transitions(m.chart, z), Enabled(m, v, ev)).None?
  {
    hide Enabled, Responds;
    var ts := Charts.Transitions(m.chart, z);
    FirstEnabledIs(ts, Enabled(m, v, ev));
    forall t ensures Enabled(m, v, ev)(t) <==> Responds(m, v, ev, t) { EnabledIsResponding(m, v, ev, t); }
    if FirstEnabled(ts, Enabled(m, v, ev)).Some? {
      var i :| 0 <= i < |ts| && Enabled(m, v, ev)(ts[i]);
      assert ts[i] in ts && Responds(m, v, ev, ts[i]);
    }
  }

  lemma {:induction false} ErrorsUpCount(m: Model, v: View, ev: Option<Event>, x: int, z: int)
    requires Tree(m.chart) && Has(m.chart, z) && In(m.chart, x, z)
    requires forall q {:trigger In(m.chart, x, q)} :: z < q && In(m.chart, x, q) ==> NoneRespond(m, v, ev, q)
    ensures |FailuresUp(m, v, ev, x, z)| == ErrorsUp(m, v, ev, z)
    decreases z
  {
    hide ErrorsIn, NoneRespond, FailuresUp, FailuresIn, Enabled;
    var c, p := m.chart, Parent(m.chart, z);
    assert NodeOk(c, z);
    ErrorsInCount(m, v, ev, x, z, 0);
    assert Charts.Transitions(c, z)[0..] == Charts.Transitions(c, z);
    NoneRespondIs(m, v, ev, z);
    if !NoneRespond(m, v, ev, z) || z == 0 {
      UpStops(m, v, ev, x, z);
    } else {
      assert Desc(c, z, p);
      TransIn(c, x, z, p);
      forall q {:trigger In(c, x, q)} | p < q && In(c, x, q) ensures NoneRespond(m, v, ev, q) {
        BetweenIsNone(c, x, z, q);
      }
      ErrorsUpCount(m, v, ev, x, p);
      UpSplits(m, v, ev, x, z);
    }
  }

  lemma BetweenIsNone(c: Chart, x: int, z: int, q: int)
    requires Tree(c) && Has(c, z) && 0 < z && In(c, x, z) && In(c, x, q) && Parent(c, z) < q
    ensures z <= q
  {
    Nested(c, x, z, q);
    assert Desc(c, z, q) ==> q <= Parent(c, z);
  }

  lemma UpStops(m: Model, v: View, ev: Option<Event>, x: int, z: int)
    requires Has(m.chart, z) && In(m.chart, x, z) && (!NoneRespond(m, v, ev, z) || z == 0)
    ensures FailuresUp(m, v, ev, x, z) == FailuresIn(m, v, ev, x, z, 0)
  {
    forall y, j | 0 <= y <= z && Failing(m, v, ev, x, y, j) ensures y == z {}
    hide Failing;
  }

  lemma UpSplits(m: Model, v: View, ev: Option<Event>, x: int, z: int)
    requires Tree(m.chart) && Has(m.chart, z) && 0 < z && In(m.chart, x, z)
    ensures FailuresUp(m, v, ev, x, z) == FailuresIn(m, v, ev, x, z, 0) + FailuresUp(m, v, ev, x, Parent(m.chart, z))
    ensures FailuresIn(m, v, ev, x, z, 0) !! FailuresUp(m, v, ev, x, Parent(m.chart, z))
  {
    var p := Parent(m.chart, z);
    assert NodeOk(m.chart, z);
    forall y, j | 0 <= y <= z && Failing(m, v, ev, x, y, j) ensures y == z || y <= p {
      if p < y { BetweenIsNone(m.chart, x, z, y); }
    }
    hide Failing, Tree;
  }

  lemma {:induction false} ErrorsCount(m: Model, v: View, ev: Option<Event>, atoms: seq<int>)
    requires Tree(m.chart) && (forall i :: 0 <= i < |atoms| ==> Has(m.chart, atoms[i]))
    requires forall i, j :: 0 <= i < j < |atoms| ==> atoms[i] != atoms[j]
    ensures |FailuresOf(m, v, ev, SetOf(atoms))| == ErrorsOf(m, v, ev, atoms)
    decreases |atoms|
  {
    hide ErrorsUp, Failing;
    if atoms != [] {
      var init, x := atoms[..|atoms| - 1], atoms[|atoms| - 1];
      SplitLast(atoms);
      NotInInit(atoms);
      ErrorsCount(m, v, ev, init);
      TopOfBranch(m, v, ev, x);
      assert FailuresOf(m, v, ev, SetOf(init)) !! FailuresUp(m, v, ev, x, x);
      assert FailuresOf(m, v, ev, SetOf(atoms)) == FailuresOf(m, v, ev, SetOf(init)) + FailuresUp(m, v, ev, x, x);
    }
  }

  lemma TopOfBranch(m: Model, v: View, ev: Option<Event>, x: int)
    requires Tree(m.chart) && Has(m.chart, x)
    ensures |FailuresUp(m, v, ev, x, x)| == ErrorsUp(m, v, ev, x)
    ensures forall y, j :: Failing(m, v, ev, x, y, j) ==> y <= x
  {
    hide ErrorsUp;
    assert NodeOk(m.chart, x);
    ErrorsUpCount(m, v, ev, x, x);
  }

  /** A selection changes nothing but that it reports one error for each failing guard that it met. */
  lemma FailuresReported(m: Model, st: St, ev: Option<Event>)
    requires Tree(m.chart)
    ensures var failures := FailuresOf(m, ViewOf(st), ev, set x | x in st.config && IsAtomic(m.chart, x));
      Content(st, AfterSelection(m, st, ev), []) && AfterSelection(m, st, ev).data == st.data
        && Gains(st.mail, AfterSelection(m, st, ev).mail, Posting(Errors(|failures|), [], []))
  {
    hide Kept, ErrorsOf, Failing, AfterSelection;
    var atoms := AtomicStates(m.chart, st.config);
    forall i | 0 <= i < |atoms| ensures Has(m.chart, atoms[i]) { assert atoms[i] in atoms; }
    assert SetOf(atoms) == set x | x in st.config && IsAtomic(m.chart, x);
    ErrorsCount(m, ViewOf(st), ev, atoms);
    AfterSelectionIs(m, st, ev);
  }
}
