/**
 The history round trip in runs (interpreter.go:787-811, 1276-1302): in any state a run of any accepted chart
 reaches, a history stands for the configuration that its parent was last left in, and whenever transitions
 that go back through it lead to a legal configuration, that brings it back; in a careful chart they always do.
 */
module Recall {
  import opened Charts
  import opened Validator
  import opened WellFormed
  import opened EntrySets
  import opened Configurations
  import opened Transitions
  import opened Selection
  import opened Microsteps
  import opened Completeness
  import opened HistoryStates
  import opened Machine
  import opened Bookkeeping
  import opened Steps
  import opened Runs

  /** The k-th exit of the run is the last one so far that left the parent of the history h. */
  ghost predicate LastLeft(c: Chart, st: St, h: int, k: nat) {
    && IsHistory(c, h) && k < |st.trace.departures| && Parent(c, h) in st.trace.departures[k].exits
    && forall j :: k < j < |st.trace.departures| ==> Parent(c, h) !in st.trace.departures[j].exits
  }

  /** What was active just before that exit. */
  function WhenLeft(st: St, k: nat): set<int>
    requires k < |st.trace.departures|
  {
    st.trace.departures[k].config
  }

  lemma Remembered(m: Model, st: St, h: int, k: nat)
    requires WellFormedModel(m) && Live(m, st) && LastLeft(m.chart, st, h, k)
    ensures h in st.history && st.history[h] == Recorded(m.chart, WhenLeft(st, k), h)
    ensures AllReal(m.chart, WhenLeft(st, k)) && Parent(m.chart, h) in WhenLeft(st, k)
    ensures Shape(m.chart) ==> Legal(m.chart, WhenLeft(st, k))
  {
    hide Validator.Accepted, Founded, Shape, Legal;
    var c, log := m.chart, st.trace.departures;
    FoundedTree(c);
    forall j, i | 0 <= j < |log| && 0 <= i < |log[j].exits| ensures Has(c, log[j].exits[i]) {
      assert DepartureOk(c, log[j]);
    }
    LastExitCounts(c, st.trace.base, log, k, h);
    assert DepartureOk(c, log[k]);
  }

  /** The transitions ts are taken together in st, from a legal configuration's memory into a legal
      configuration: h was last left in the k-th exit, and the j-th target of the i-th transition is h. */
  ghost predicate GoesBack(m: Model, st: St, ts: seq<Transition>, i: nat, j: nat, h: int, k: nat)
    requires Founded(m.chart) && HistorySane(m.chart, st.history) && AllFounded(m.chart, ts)
  {
    && LastLeft(m.chart, st, h, k) && Legal(m.chart, WhenLeft(st, k))
    && i < |ts| && j < |ts[i].target| && ts[i].target[j] == h
    && Legal(m.chart, Microstep(m, st, ts).config)
  }

  /** What a microstep makes of the configuration. */
  lemma MicrostepLeadsTo(m: Model, st: St, ts: seq<Transition>)
    requires WellFormedModel(m) && Live(m, st) && AllFounded(m.chart, ts)
    ensures Microstep(m, st, ts).config == Next(m.chart, st.history, st.config, ts)
  {
    hide Microstep, Shape, Lawful, Kept, Validator.Accepted, Ledger;
    var X, E := Out(m, st, ts), Into(m, st, ts);
    StepStates(m, st, ts);
    MicrostepSteps(m, st, ts);
    OrdersAre(m.chart, X);
    OrdersAre(m.chart, E);
  }

  lemma ModelBranches(m: Model)
    requires WellFormedModel(m)
    ensures Branching(m.chart) && Enterable(m.chart)
  {
    StructuredBranches(m.chart);
  }

  lemma BackReturns(m: Model, st: St, ts: seq<Transition>, i: nat, j: nat, h: int, k: nat)
    requires WellFormedModel(m) && Live(m, st) && AllFounded(m.chart, ts) && GoesBack(m, st, ts, i, j, h, k)
    ensures Returns(m.chart, WhenLeft(st, k), st.history, ts, i, j, h)
    ensures Legal(m.chart, Next(m.chart, st.history, st.config, ts))
  {
    hide Microstep, Validator.Accepted, Founded, Shape, Lawful, Legal, Next;
    Remembered(m, st, h, k);
    MicrostepLeadsTo(m, st, ts);
  }

  /** Through a deep history everything in the parent is as it was when the parent was last left. */
  lemma DeepHistoryRoundTrip(m: Model, st: St, ts: seq<Transition>, i: nat, j: nat, h: int, k: nat)
    requires WellFormedModel(m) && Live(m, st) && AllFounded(m.chart, ts) && GoesBack(m, st, ts, i, j, h, k)
    requires IsDeep(m.chart, h)
    ensures forall x :: In(m.chart, x, Parent(m.chart, h)) ==>
      (x in Microstep(m, st, ts).config <==> x in WhenLeft(st, k))
  {
    hide Microstep, Validator.Accepted, Founded, Shape, Lawful, Legal, Next;
    ModelBranches(m);
    BackReturns(m, st, ts, i, j, h, k);
    MicrostepLeadsTo(m, st, ts);
    DeepHistoryRestores(m.chart, WhenLeft(st, k), st.history, st.config, ts, i, j, h);
  }

  /** Through a shallow history the parent has the active children it had when it was last left. */
  lemma ShallowHistoryRoundTrip(m: Model, st: St, ts: seq<Transition>, i: nat, j: nat, h: int, k: nat, child: int)
    requires WellFormedModel(m) && Live(m, st) && AllFounded(m.chart, ts) && GoesBack(m, st, ts, i, j, h, k)
    requires !IsDeep(m.chart, h) && Real(m.chart, child) && Parent(m.chart, child) == Parent(m.chart, h)
    ensures child in Microstep(m, st, ts).config <==> child in WhenLeft(st, k)
  {
    hide Microstep, Validator.Accepted, Founded, Shape, Lawful, Legal, Next;
    ModelBranches(m);
    BackReturns(m, st, ts, i, j, h, k);
    MicrostepLeadsTo(m, st, ts);
    ShallowHistoryRestores(m.chart, WhenLeft(st, k), st.history, st.config, ts, i, j, h, child);
  }

  /** The i-th selected transition goes to the history h alone, from outside h's parent. */
  ghost predicate Selects(m: Model, st: St, enabled: Transition -> bool, ts: seq<Transition>, i: nat, h: int)
    requires Tree(m.chart)
  {
    && ts == Select(m.chart, st.history, st.config, enabled)
    && i < |ts| && ts[i].target == [h] && IsHistory(m.chart, h) && !In(m.chart, ts[i].source, Parent(m.chart, h))
  }

  /** In charts of the careful shape such a transition always goes back. */
  lemma SelectsGoesBack(m: Model, st: St, enabled: Transition -> bool, ts: seq<Transition>, i: nat, h: int, k: nat)
    requires WellFormedModel(m) && Live(m, st) && Shape(m.chart) && LastLeft(m.chart, st, h, k)
      && Selects(m, st, enabled, ts, i, h)
    ensures AllFounded(m.chart, ts) && GoesBack(m, st, ts, i, 0, h, k)
    ensures forall x :: x in EnteredBefore(m.chart, st.history, ts, i, NoEntry).states ==>
      !In(m.chart, x, Parent(m.chart, h))
  {
    hide Microstep, Validator.Accepted, Founded, Shape, Legal, Select, HistoryOk;
    Remembered(m, st, h, k);
    MicrostepIs(m, st, enabled, ts);
    SelectedTurn(m.chart, st.history, st.config, enabled, i, h);
  }

  /** So there each child that a shallow history brings back is exactly what default entry of it gives. */
  lemma ShallowReturnsByDefault(m: Model, st: St, enabled: Transition -> bool, ts: seq<Transition>, i: nat, h: int,
    k: nat, child: int)
    requires WellFormedModel(m) && Live(m, st) && Shape(m.chart) && LastLeft(m.chart, st, h, k)
      && Selects(m, st, enabled, ts, i, h)
    requires !IsDeep(m.chart, h) && Real(m.chart, child) && Parent(m.chart, child) == Parent(m.chart, h)
    ensures AllFounded(m.chart, ts)
    ensures var next := Microstep(m, st, ts).config;
      child in next ==> 0 < child && forall x :: In(m.chart, x, child) ==>
        (x in next <==> x in Alone(m.chart, st.history, child))
  {
    hide Microstep, Validator.Accepted, Founded, Shape, Legal, Select, Next, EnteredBefore, Recalls, Alone;
    var c := m.chart;
    SelectsGoesBack(m, st, enabled, ts, i, h, k);
    if child in Microstep(m, st, ts).config {
      ShallowHistoryRoundTrip(m, st, ts, i, 0, h, k, child);
      BackReturns(m, st, ts, i, 0, h, k);
      MicrostepLeadsTo(m, st, ts);
      ModelBranches(m);
      UsableRecalls(c, st.history);
      ChildInside(c, child, Parent(c, h));
      ShallowChildrenAreDefault(c, WhenLeft(st, k), st.history, st.config, ts, i, h, child);
    }
  }

  lemma UsableRecalls(c: Chart, H: History)
    requires HistoryOk(c, H)
    ensures Recalls(c, H)
  {
    forall h | h in H ensures H[h] != [] { assert RecordOk(c, h, H[h]); }
  }

  lemma ChildInside(c: Chart, x: int, p: int)
    requires Tree(c) && Real(c, x) && Parent(c, x) == p && Has(c, p)
    ensures forall y :: In(c, y, x) ==> In(c, y, p)
  {
    assert NodeOk(c, x);
  }
}
