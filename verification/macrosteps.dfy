/**
 Macrosteps and whole runs (interpreter.go:1467-1568, instance.go:637-677, 765-786, 824-950).

 runToStable need not terminate, so its loop takes a step budget; everything is proved for any budget,
 and a budget that suffices gives the same result as any larger one.
 */
module Macrosteps {
  import opened Charts
  import opened Validator
  import opened WellFormed
  import opened EntrySets
  import opened TargetSets
  import opened Regions
  import opened Configurations
  import opened Transitions
  import opened Selection
  import opened Microsteps
  import opened Machine
  import opened Bookkeeping
  import opened Deliveries
  import opened Invocations
  import opened Steps
  import opened Completeness
  import opened Runs

  /** Taking what a selection for `ev` selected, if anything. */
  function TakeSelected(m: Model, st: St, ev: Option<Event>): (r: St)
    requires WellFormedModel(m) && Live(m, st)
    ensures Live(m, r) && Ahead(st, r)
  {
    var st1 := AfterSelection(m, st, ev);
    var ts := Selected(m, st, ev);
    AfterSelectionIs(m, st, ev);
    ContentSound(m, st, st1, []);
    if ts == [] then st1
    else
      MicrostepIs(m, st1, Enabled(m, ViewOf(st), ev), ts);
      AheadTrans(st, st1, Microstep(m, st1, ts));
      Microstep(m, st1, ts)
  }

  /** What a selection for `ev` comes to: reports of the failing guards alone, if nothing was selected; otherwise a
      microstep by exactly what was selected, from that state. */
  lemma TakeSelectedIs(m: Model, st: St, ev: Option<Event>)
    requires WellFormedModel(m) && Live(m, st)
    ensures var st1, ts, r := AfterSelection(m, st, ev), Selected(m, st, ev), TakeSelected(m, st, ev);
      && Content(st, st1, []) && st1.data == st.data && HistorySane(m.chart, st1.history) && AllFounded(m.chart, ts)
      && if ts == [] then r == st1
         else Stepped(m, st1, r, ts, ExitOrder(m.chart, Out(m, st1, ts)), Entering(m, st1, ts))
  {
    hide Validator.Accepted, Founded, Shape, Lawful, Microstep, Stepped, Out, Entering, Kept, StepsLawfully, Legal;
    TreeOf(m);
    var st1 := AfterSelection(m, st, ev);
    AfterSelectionIs(m, st, ev);
    ContentSound(m, st, st1, []);
    MicrostepIs(m, st1, Enabled(m, ViewOf(st), ev), Selected(m, st, ev));
  }

  function DequeueInternal(st: St): St
    requires st.mail.internalQueue != []
  {
    var ev := st.mail.internalQueue[0];
    st.(mail := st.mail.(internalQueue := st.mail.internalQueue[1..]), event := Some(ev),
        trace := st.trace.(taken := st.trace.taken + [ev]))
  }

  /** What is dequeued is the earliest internal event that was raised and not taken yet. */
  lemma DequeueInternalIs(m: Model, st: St)
    requires st.mail.internalQueue != [] && Live(m, st)
    ensures Live(m, DequeueInternal(st)) && Ahead(st, DequeueInternal(st))
    ensures Earliest(st, DequeueInternal(st))
  {
    QueuePassed(st.mail, DequeueInternal(st).mail, []);
    assert st.mail.internalQueue == [st.mail.internalQueue[0]] + DequeueInternal(st).mail.internalQueue;
  }

  /** From a to b the first internal event not taken yet was taken, and is the current event. */
  ghost predicate Earliest(a: St, b: St) {
    var n := |a.trace.taken|;
    && n < |a.mail.raised| && b.event == Some(a.mail.raised[n]) && b.trace.taken == a.trace.taken + [a.mail.raised[n]]
    && b == a.(event := b.event, mail := a.mail.(internalQueue := b.mail.internalQueue),
         trace := a.trace.(taken := b.trace.taken))
  }

  datatype Loop = Settled(st: St) | Again(st: St)

  /** One round of runToStable's loop. */
  function Round(m: Model, st: St): (r: Loop)
    requires WellFormedModel(m) && Live(m, st)
    ensures Live(m, r.st) && Ahead(st, r.st)
  {
    if Selected(m, st, None) != [] then Again(TakeSelected(m, st, None))
    else
      var st1 := TakeSelected(m, st, None);
      if st1.mail.internalQueue == [] then
        ProcessInvokesIs(m, st1);
        var st2 := ProcessInvokes(m, st1);
        AheadTrans(st, st1, st2);
        if st2.mail.internalQueue == [] then Settled(st2) else Again(st2)
      else
        DequeueInternalIs(m, st1);
        var st2 := DequeueInternal(st1);
        AheadTrans(st, st1, st2);
        AheadTrans(st, st2, TakeSelected(m, st2, st2.event));
        Again(TakeSelected(m, st2, st2.event))
  }

  /** A round in which an eventless transition is enabled takes no event: it is a microstep by the eventless
      selection. */
  lemma RoundEventless(m: Model, st: St)
    requires WellFormedModel(m) && Live(m, st) && Selected(m, st, None) != []
    ensures var st1, ts := AfterSelection(m, st, None), Selected(m, st, None);
      && HistorySane(m.chart, st1.history) && AllFounded(m.chart, ts) && Round(m, st).Again?
      && Stepped(m, st1, Round(m, st).st, ts, ExitOrder(m.chart, Out(m, st1, ts)), Entering(m, st1, ts))
  {
    hide WellFormedModel, Live, Ahead, Content, Stepped, TakeSelected, Out, Entering;
    TreeOf(m);
    TakeSelectedIs(m, st, None);
  }

  /** A round in which none is enabled selects for the earliest internal event not taken yet, if there is one, and
      that is the current event for it. */
  lemma RoundTakesEarliest(m: Model, st: St) returns (st': St)
    requires WellFormedModel(m) && Live(m, st) && Selected(m, st, None) == []
      && AfterSelection(m, st, None).mail.internalQueue != []
    ensures Live(m, st') && Earliest(AfterSelection(m, st, None), st')
    ensures Round(m, st) == Again(TakeSelected(m, st', st'.event))
  {
    hide WellFormedModel, Live, Ahead, Earliest, Content;
    var st1 := TakeSelected(m, st, None);
    DequeueInternalIs(m, st1);
    st' := DequeueInternal(st1);
  }

  /** And if there is none it starts the waiting invocations, and ends the loop unless that raised something. */
  lemma RoundInvokes(m: Model, st: St)
    requires WellFormedModel(m) && Live(m, st) && Selected(m, st, None) == []
      && AfterSelection(m, st, None).mail.internalQueue == []
    ensures var st1, r := AfterSelection(m, st, None), Round(m, st);
      && Began(st1.(statesToInvoke := {}), r.st, InvokeCalls(m.chart, EntryOrder(m.chart, st1.statesToInvoke)))
      && (r.Settled? <==> r.st.mail.internalQueue == [])
  {
    hide WellFormedModel, Live, Ahead, Content, Began, ProcessInvokes;
    TreeOf(m);
    ProcessInvokesIs(m, TakeSelected(m, st, None));
  }

  /** A run within its step budget: where it got to, and whether it came to an end. */
  datatype Run = Run(st: St, finished: bool)

  /** runToStable (interpreter.go:1467-1495). */
  function RunToStable(m: Model, st: St, budget: nat): (r: Run)
    requires WellFormedModel(m) && Live(m, st)
    ensures Live(m, r.st) && Ahead(st, r.st)
    decreases budget
  {
    if !st.running || budget == 0 then
      StandingStill(st);
      Run(st, !st.running)
    else
      match Round(m, st)
      case Settled(st1) => Run(st1, true)
      case Again(st1) =>
        AheadTrans(st, st1, RunToStable(m, st1, budget - 1).st);
        RunToStable(m, st1, budget - 1)
  }

  /** The loop, one round unrolled. */
  lemma RunToStableUnrolled(m: Model, st: St, budget: nat)
    requires WellFormedModel(m) && Live(m, st)
    ensures RunToStable(m, st, budget) ==
              if !st.running || budget == 0 then Run(st, !st.running)
              else if Round(m, st).Settled? then Run(Round(m, st).st, true)
              else RunToStable(m, Round(m, st).st, budget - 1)
  {
    hide WellFormedModel, Live, Round, Ahead;
  }

  lemma StandingStill(st: St)
    ensures Ahead(st, st)
  {
    NoContent(st);
  }

  /** A larger budget changes nothing once the run has ended. */
  lemma {:induction false} BudgetSuffices(m: Model, st: St, budget: nat, more: nat)
    requires WellFormedModel(m) && Live(m, st) && RunToStable(m, st, budget).finished && budget <= more
    ensures RunToStable(m, st, more) == RunToStable(m, st, budget)
    decreases budget
  {
    hide WellFormedModel, Live, Round, Ahead, Kept;
    if st.running {
      match Round(m, st)
      case Settled(st1) =>
      case Again(st1) => BudgetSuffices(m, st1, budget - 1, more - 1);
    }
  }

  /** A stable state: no internal event is left, no entered state waits for its invocations, and the
      last selection, in the state `before` the invocations were started, enabled no eventless transition. */
  ghost predicate Stable(m: Model, st: St)
    requires Tree(m.chart)
  {
    && st.mail.internalQueue == [] && st.statesToInvoke == {}
    && exists before {:trigger Selected(m, before, None)} ::
      Selected(m, before, None) == [] && st == ProcessInvokes(m, AfterSelection(m, before, None))
         && AfterSelection(m, before, None).mail.internalQueue == []
  }

  /** Run to completion: a run that ends while the chart is still running ends in a stable state. */
  lemma {:induction false} RunsToCompletion(m: Model, st: St, budget: nat)
    requires WellFormedModel(m) && Live(m, st)
    ensures var r := RunToStable(m, st, budget); r.finished && r.st.running ==> Stable(m, r.st)
    decreases budget
  {
    hide Live, ProcessInvokes, AfterSelection, Selected;
    if st.running && budget > 0 {
      match Round(m, st)
      case Settled(st1) =>
        var st2 := AfterSelection(m, st, None);
        assert Selected(m, st, None) == [] && st1 == ProcessInvokes(m, st2);
        AfterSelectionIs(m, st, None);
        ContentSound(m, st, st2, []);
        ProcessInvokesIs(m, st2);
      case Again(st1) =>
        RunsToCompletion(m, st1, budget - 1);
    }
  }

  // ---- start ----

  function InitializeState(m: Model, st: St, s: int): St {
    if HasData(m.chart, s) then RunBlock(m, st, InitData(s)).(initialized := st.initialized + {s}) else st
  }

  /** initializeData for every state that declares data, in document order (interpreter.go:1500-1508). */
  function InitializeAll(m: Model, st: St, n: nat): St {
    if n == 0 then st else InitializeState(m, InitializeAll(m, st, n - 1), n - 1)
  }

  /** The chart's own data, before any state's. */
  const ChartData := InitData(-1)

  function Initialized(m: Model, st: St, early: bool): St {
    if early then InitializeAll(m, RunBlock(m, st, ChartData), |m.chart.states|) else RunBlock(m, st, ChartData)
  }

  /** The states that have data, up to number n. */
  ghost function WithData(c: Chart, n: nat): set<int> { set s | 0 <= s < n && HasData(c, s) }

  /** Initializing the data of the states up to number n, in document order. */
  ghost function DataCalls(c: Chart, C: set<int>, n: nat): seq<Call> {
    if n == 0 then []
    else DataCalls(c, C, n - 1) + Lone(HasData(c, n - 1), BlockRun(InitData(n - 1), C))
  }

  /** What start initializes before it enters anything: the chart's own data, and with early binding every
      state's. */
  ghost function InitialCalls(c: Chart, early: bool): seq<Call> {
    [BlockRun(ChartData, {})] + if early then DataCalls(c, {}, |c.states|) else []
  }

  ghost function InitializedBy(c: Chart, early: bool): set<int> { if early then WithData(c, |c.states|) else {} }

  lemma InitializeStateIs(m: Model, st: St, s: int)
    ensures var st' := InitializeState(m, st, s);
      && Content(st.(initialized := st'.initialized), st', Lone(HasData(m.chart, s), BlockRun(InitData(s), st.config)))
      && st'.initialized == if HasData(m.chart, s) then st.initialized + {s} else st.initialized
  {
    hide RunBlock, Kept;
    RunBlockIs(m, st, InitData(s));
    NoContent(st);
  }

  lemma {:induction false} InitializeAllIs(m: Model, st: St, n: nat)
    ensures var st' := InitializeAll(m, st, n);
      && Content(st.(initialized := st'.initialized), st', DataCalls(m.chart, st.config, n))
      && st'.initialized == st.initialized + WithData(m.chart, n)
  {
    hide InitializeState, Kept;
    if n == 0 {
      NoContent(st);
      assert WithData(m.chart, 0) == {};
    } else {
      var st1 := InitializeAll(m, st, n - 1);
      InitializeAllIs(m, st, n - 1);
      InitializeStateIs(m, st1, n - 1);
      var st2 := InitializeAll(m, st, n);
      ContentTrans(st.(initialized := st2.initialized), st1.(initialized := st2.initialized), st2,
        DataCalls(m.chart, st.config, n - 1), Lone(HasData(m.chart, n - 1), BlockRun(InitData(n - 1), st.config)));
      assert WithData(m.chart, n) == WithData(m.chart, n - 1) + if HasData(m.chart, n - 1) then {n - 1} else {};
    }
  }

  lemma InitializedIs(m: Model, st: St, early: bool)
    requires st.config == {} && st.initialized == {}
    ensures var st' := Initialized(m, st, early);
      && Content(st.(initialized := st'.initialized), st', InitialCalls(m.chart, early))
      && st'.initialized == InitializedBy(m.chart, early)
  {
    hide RunBlock, Kept, InitializeAll;
    var st1 := RunBlock(m, st, ChartData);
    RunBlockIs(m, st, ChartData);
    if early {
      InitializeAllIs(m, st1, |m.chart.states|);
      var st2 := InitializeAll(m, st1, |m.chart.states|);
      ContentTrans(st.(initialized := st2.initialized), st1.(initialized := st2.initialized), st2,
        [BlockRun(ChartData, {})], DataCalls(m.chart, {}, |m.chart.states|));
    } else {
      assert InitialCalls(m.chart, early) == [BlockRun(ChartData, {})];
    }
  }

  lemma StartEntryIsReal(c: Chart)
    requires Validator.Accepted(c) && Founded(c)
    ensures AllReal(c, StartEntry(c).states)
  {
    assert NodeOk(c, 0) && StateFounded(c, 0);
    if IsCompound(c, 0) {
      BelowExpandable(c, Initial(c, 0), 0);
      ListIsReal(c, map[], Initial(c, 0), 0, true, 0, NoEntry);
    } else if IsParallel(c, 0) {
      ChildrenExpandable(c, 0);
      EachIsReal(c, map[], RealChildren(c, 0), 0, true, 0, NoEntry);
    }
  }

  /** In charts of the careful shape, entering the root's initial targets builds a legal configuration. */
  lemma InitialEntryIsLegal(c: Chart)
    requires Shape(c)
    ensures Legal(c, StartEntry(c).states)
  {
    assert StateShape(c, 0) && NodeOk(c, 0) && StateFounded(c, 0);
    BelowExpandable(c, Initial(c, 0), 0);
    PlantList(c, map[], Initial(c, 0), 0, true, 0, NoEntry);
    assert StartEntry(c).states - {} == StartEntry(c).states;
    RegionIsLegal(c, StartEntry(c).states);
  }

  /** start up to its first macrostep (interpreter.go:1499-1546). */
  function Entered(m: Model, now: int, early: bool): St
    requires WellFormedModel(m)
  {
    var e := StartEntry(m.chart);
    var st := EnterEach(m, Initialized(m, Fresh(m, now), early).(running := true), EntryOrder(m.chart, e.states), e);
    st.(trace := st.trace.(configs := st.trace.configs + [st.config]))
  }

  /** After start has entered its states the invariants hold, and what ran is the initialization, and then the entry
      content of those states in document order. */
  lemma EnteredIsLive(m: Model, now: int, early: bool)
    requires WellFormedModel(m)
    ensures var st := Entered(m, now, early); var e := StartEntry(m.chart); var enters := EntryOrder(m.chart, e.states);
            && Live(m, st) && st.config == e.states && st.history == map[] && st.trace.consumed == []
            && st.trace.calls == InitialCalls(m.chart, early)
                 + EntryCalls(m.chart, {}, InitializedBy(m.chart, early), enters, e)
            && st.running == !SomeTopFinal(m.chart, enters)
  {
    hide Validator.Accepted, Founded, Initialized, StartEntry, Shape, Lawful, Legal, EnterEach, Kept, InvokeOk, Ledger,
      InitialCalls, InitializedBy, EntryCalls;
    var c := m.chart;
    FoundedTree(c);
    var e := StartEntry(c);
    StartEntryIsReal(c);
    OrdersAre(c, e.states);
    var st0 := Fresh(m, now);
    var st1 := Initialized(m, st0, early).(running := true);
    StartedFrom(m, now, early);
    EnterEachIs(m, st1, EntryOrder(c, e.states), e);
    var st2 := EnterEach(m, st1, EntryOrder(c, e.states), e);
    KeptFifo(st1.mail, st2.mail, [], []);
    KeptLedger(st1.mail, st2.mail);
    assert {} + e.states == e.states;
    if Shape(c) { EnteredLawful(m, st1, st2, e.states); }
  }

  /** A fresh machine with its data initialized. */
  lemma StartedFrom(m: Model, now: int, early: bool)
    ensures var st := Initialized(m, Fresh(m, now), early);
      && Ledger(st.mail) && Fifo(st.mail, [], []) && AllKnown(m.chart, st.initialized)
      && st.initialized == InitializedBy(m.chart, early)
      && st == Fresh(m, now).(data := st.data, mail := st.mail, initialized := st.initialized, trace := st.trace)
      && st.trace == NO_TRACE.(calls := InitialCalls(m.chart, early))
      && Invoking(m, st)
  {
    hide Initialized, InitialCalls;
    var st0 := Fresh(m, now);
    InitializedIs(m, st0, early);
    assert Ledger(st0.mail);
    KeptFifo(st0.mail, Initialized(m, st0, early).mail, [], []);
    assert [] + InitialCalls(m.chart, early) == InitialCalls(m.chart, early);
  }

  lemma EnteredLawful(m: Model, st: St, st': St, E: set<int>)
    requires Shape(m.chart) && Invoking(m, st) && st.config == {} && st.history == map[]
      && st.trace == NO_TRACE.(calls := st.trace.calls)
    requires E == StartEntry(m.chart).states && (Invoking(m, st) && E !! st.config ==> Invoking(m, st'))
    requires st'.config == E && st'.history == map[] && st'.trace == st.trace.(calls := st'.trace.calls)
    ensures var r := st'.(trace := st'.trace.(configs := st'.trace.configs + [st'.config]));
      Lawful(m, r) && Legal(m.chart, r.config)
  {
    hide InvokeOk;
    InitialEntryIsLegal(m.chart);
  }

  /** start (interpreter.go:1499-1547). */
  function Start(m: Model, now: int, early: bool, budget: nat): (r: Run)
    requires WellFormedModel(m)
    ensures Live(m, r.st)
  {
    EnteredIsLive(m, now, early);
    RunToStable(m, Entered(m, now, early), budget)
  }
}
