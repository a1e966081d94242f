/**
 Runs of the interpreter (interpreter.go:1440-1568): microsteps, macrosteps, start, external events,
 and the exit of the interpreter; and what every run keeps.
 */
module Runs {
  import opened Charts
  import opened Validator
  import opened WellFormed
  import opened EntrySets
  import opened Regions
  import opened Configurations
  import opened Transitions
  import opened Selection
  import opened Microsteps
  import opened Machine
  import opened Bookkeeping
  import opened Deliveries
  import opened Invocations
  import opened Steps
  import opened Completeness

  /** Every chart that Compile accepts. */
  ghost predicate WellFormedModel(m: Model) { Validator.Accepted(m.chart) && Founded(m.chart) }

  lemma TreeOf(m: Model)
    requires WellFormedModel(m)
    ensures Tree(m.chart)
  {}

  ghost predicate AllLegal(c: Chart, configs: seq<set<int>>) {
    forall i {:trigger Legal(c, configs[i])} :: 0 <= i < |configs| ==> Legal(c, configs[i])
  }

  ghost predicate AllKnown(c: Chart, S: set<int>) { forall x :: x in S ==> Has(c, x) }

  ghost predicate DepartureOk(c: Chart, d: Departure) {
    AllReal(c, d.config) && forall i :: 0 <= i < |d.exits| ==> d.exits[i] in d.config
  }

  /** The histories are what the exits so far recorded. */
  ghost predicate Remembers(c: Chart, st: St) {
    && st.history == AfterExits(c, st.trace.base, st.trace.departures)
    && forall i {:trigger DepartureOk(c, st.trace.departures[i])} :: 0 <= i < |st.trace.departures| ==>
      DepartureOk(c, st.trace.departures[i])
  }

  ghost predicate LegalDepartures(c: Chart, ds: seq<Departure>) {
    forall i {:trigger ds[i]} :: 0 <= i < |ds| ==> Legal(c, ds[i].config)
  }

  /** What holds besides in charts of the careful shape: usable histories, agreeing invocation indexes, and
      only legal configurations so far. */
  ghost predicate Lawful(m: Model, st: St) {
    && HistoryOk(m.chart, st.history) && Invoking(m, st)
    && AllLegal(m.chart, st.trace.configs) && LegalDepartures(m.chart, st.trace.departures)
  }

  /** What holds of every reachable state of every accepted chart: sane histories and real states, the
      delayed-send ledger, external and internal events in order, and invocations of active states only; and what
      its shape adds. */
  ghost predicate Sound(m: Model, st: St) {
    && HistorySane(m.chart, st.history) && AllReal(m.chart, st.config) && st.statesToInvoke <= st.config && Owned(st)
    && Ledger(st.mail) && Fifo(st.mail, Events(st.trace.consumed), st.trace.taken)
    && AllKnown(m.chart, st.initialized) && Remembers(m.chart, st) && (st.running ==> !st.completed)
    && (Shape(m.chart) ==> Lawful(m, st))
  }

  /** A sound state between start and exit. */
  ghost predicate Live(m: Model, st: St) { Sound(m, st) && (Shape(m.chart) ==> Legal(m.chart, st.config)) }

  /** What lies between two states of one run: no pending send was dispatched and no external event consumed. */
  ghost predicate Ahead(a: St, b: St) {
    && Passed(a.mail, b.mail, []) && b.now == a.now && b.trace.consumed == a.trace.consumed
    && a.trace.configs <= b.trace.configs && a.trace.taken <= b.trace.taken && a.trace.calls <= b.trace.calls
  }

  lemma AheadTrans(a: St, b: St, d: St)
    requires Ahead(a, b) && Ahead(b, d)
    ensures Ahead(a, d)
  {
    PassedTrans(a.mail, b.mail, d.mail, [], []);
    hide Passed;
  }

  lemma ContentSound(m: Model, a: St, b: St, calls: seq<Call>)
    requires Content(a, b, calls)
    ensures Sound(m, a) ==> Sound(m, b)
    ensures Live(m, a) ==> Live(m, b)
    ensures Ahead(a, b)
  {
    if Sound(m, a) { KeptFifo(a.mail, b.mail, Events(a.trace.consumed), a.trace.taken); }
  }

  // ---- one microstep ----

  /** The exit set, the entry set and the domains of a selection, as the step from st sees them. */
  ghost function Out(m: Model, st: St, ts: seq<Transition>): set<int>
    requires Tree(m.chart)
  {
    ExitSets(m.chart, st.history, st.config, ts)
  }

  ghost function Entering(m: Model, st: St, ts: seq<Transition>): Entry
    requires Founded(m.chart) && HistorySane(m.chart, st.history) && AllFounded(m.chart, ts)
  {
    EntrySet(m.chart, st.history, ts, NoEntry)
  }

  ghost function Into(m: Model, st: St, ts: seq<Transition>): set<int>
    requires Founded(m.chart) && HistorySane(m.chart, st.history) && AllFounded(m.chart, ts)
  {
    Entering(m, st, ts).states
  }

  /** All that a microstep asks of the model, in order: the exit content of the states left, the content of the
      transitions taken, and the entry content of the states entered. */
  ghost function StepCalls(c: Chart, C: set<int>, initialized: set<int>, exits: seq<int>, ts: seq<Transition>,
      e: Entry): seq<Call>
  {
    var C' := C - SetOf(exits);
    ExitCalls(C, exits) + TakeCalls(C', ts) + EntryCalls(c, C', initialized, EntryOrder(c, e.states), e)
  }

  /** st' is st after exiting `exits`, taking ts and entering the states of e, each in that order. */
  ghost predicate Stepped(m: Model, st: St, st': St, ts: seq<Transition>, exits: seq<int>, e: Entry) {
    var enters := EntryOrder(m.chart, e.states);
    && st'.config == st.config - SetOf(exits) + SetOf(enters)
    && st'.history == RecordAll(m.chart, st.config, exits, st.history)
    && st'.statesToInvoke == st.statesToInvoke - SetOf(exits) + WithInvokes(m.chart, enters)
    && st'.running == (st.running && !SomeTopFinal(m.chart, enters))
      && st'.completed == (st.completed || SomeTopFinal(m.chart, enters))
    && st'.event == st.event && st'.now == st.now && Kept(st.mail, st'.mail)
    && st.initialized <= st'.initialized <= st.initialized + SetOf(enters)
    && Dropped(m.chart, st, st', SetOf(exits))
    && st'.trace == st.trace.(calls := st.trace.calls + StepCalls(m.chart, st.config, st.initialized, exits, ts, e),
         configs := st.trace.configs + [st'.config], departures := st.trace.departures + [Departure(st.config, exits)])
    && (Invoking(m, st) && SetOf(enters) !! (st.config - SetOf(exits)) ==> Invoking(m, st'))
    && (Owned(st) ==> Owned(st'))
  }

  function ExitOrder(c: Chart, X: set<int>): seq<int> { SortDesc(X, |c.states|) }

  function EntryOrder(c: Chart, E: set<int>): seq<int> { SortAsc(E, |c.states|) }

  lemma OrdersAre(c: Chart, S: set<int>)
    requires forall x :: x in S ==> Has(c, x)
    ensures SetOf(EntryOrder(c, S)) == S && SetOf(ExitOrder(c, S)) == S
  {}

  lemma MicrostepSteps(m: Model, st: St, ts: seq<Transition>)
    requires Founded(m.chart) && HistorySane(m.chart, st.history) && AllFounded(m.chart, ts)
    requires (forall x :: x in Out(m, st, ts) ==> Has(m.chart, x))
      && (forall x :: x in Into(m, st, ts) ==> Has(m.chart, x))
    ensures Stepped(m, st, Microstep(m, st, ts), ts, ExitOrder(m.chart, Out(m, st, ts)), Entering(m, st, ts))
  {
    hide ExitEach, TakeEach, EnterEach, ExitCalls, TakeCalls, EntryCalls, Kept, InvokeOk, Indexed, EntrySet;
    var c := m.chart;
    FoundedTree(c);
    var e := Entering(m, st, ts);
    var exits, enters := ExitOrder(c, Out(m, st, ts)), EntryOrder(c, e.states);
    OrdersAre(c, Out(m, st, ts));
    OrdersAre(c, e.states);
    var st1 := Recording(m, st, exits);
    var st2 := ExitEach(m, st1, exits);
    ExitEachIs(m, st1, exits);
    var st3 := TakeEach(m, st2, ts);
    TakeEachIs(m, st2, ts);
    var st4 := EnterEach(m, st3, enters, e);
    EnterEachIs(m, st3, enters, e);
    ExitsThenTakes(m, st, st1, st2, st3, ts, exits);
    ThenEnters(m, st, st3, st4, ts, exits, e);
  }

  /** A microstep before it enters anything. */
  ghost predicate Halfway(m: Model, st: St, st': St, ts: seq<Transition>, exits: seq<int>) {
    && st'.config == st.config - SetOf(exits)
    && st'.history == RecordAll(m.chart, st.config, exits, st.history)
    && st'.statesToInvoke == st.statesToInvoke - SetOf(exits)
    && st'.running == st.running && st'.completed == st.completed && st'.event == st.event && st'.now == st.now
      && st'.initialized == st.initialized
    && Dropped(m.chart, st, st', SetOf(exits)) && Kept(st.mail, st'.mail)
    && st'.trace == st.trace.(
         calls := st.trace.calls + (ExitCalls(st.config, exits) + TakeCalls(st.config - SetOf(exits), ts)),
         departures := st.trace.departures + [Departure(st.config, exits)])
    && (Invoking(m, st) ==> Invoking(m, st')) && (Owned(st) ==> Owned(st'))
  }

  lemma ExitsThenTakes(m: Model, st: St, st1: St, st2: St, st3: St, ts: seq<Transition>, exits: seq<int>)
    requires st1 == Recording(m, st, exits)
    requires Left(m, st1, st2, SetOf(exits), ExitCalls(st.config, exits))
    requires Content(st2, st3, TakeCalls(st.config - SetOf(exits), ts))
    ensures Halfway(m, st, st3, ts, exits)
  {
    hide Kept, InvokeOk, Indexed, ExitCalls, TakeCalls, RecordAll;
    KeptTrans(st.mail, st2.mail, st3.mail);
    var C := st.config - SetOf(exits);
    assert st.trace.calls + ExitCalls(st.config, exits) + TakeCalls(C, ts) ==
      st.trace.calls + (ExitCalls(st.config, exits) + TakeCalls(C, ts));
  }

  lemma ThenEnters(m: Model, st: St, st3: St, st4: St, ts: seq<Transition>, exits: seq<int>, e: Entry)
    requires Halfway(m, st, st3, ts, exits)
    requires var enters := EntryOrder(m.chart, e.states);
      Joined(m, st3, st4, SetOf(enters), WithInvokes(m.chart, enters), SomeTopFinal(m.chart, enters),
        EntryCalls(m.chart, st.config - SetOf(exits), st.initialized, enters, e))
    ensures Stepped(m, st, st4.(trace := st4.trace.(configs := st4.trace.configs + [st4.config])), ts, exits, e)
  {
    hide Kept, InvokeOk, Indexed, ExitCalls, TakeCalls, EntryCalls, RecordAll;
    KeptTrans(st.mail, st3.mail, st4.mail);
    var C, enters := st.config - SetOf(exits), EntryOrder(m.chart, e.states);
    var before, entries := ExitCalls(st.config, exits) + TakeCalls(C, ts),
      EntryCalls(m.chart, C, st.initialized, enters, e);
    assert st.trace.calls + before + entries == st.trace.calls + (before + entries);
  }

  lemma SelectionFounded(m: Model, H: History, C: set<int>, enabled: Transition -> bool)
    requires WellFormedModel(m)
    ensures AllFounded(m.chart, Select(m.chart, H, C, enabled))
  {
    AcceptedSourced(m.chart);
    hide Validator.Accepted, Sourced, Founded;
    SelectedFounded(m.chart, H, C, enabled);
  }

  /** Only active states are exited, and only real ones entered. */
  lemma StepStates(m: Model, st: St, ts: seq<Transition>)
    requires WellFormedModel(m) && HistorySane(m.chart, st.history) && AllReal(m.chart, st.config)
      && AllFounded(m.chart, ts)
    ensures Out(m, st, ts) <= st.config && AllReal(m.chart, Out(m, st, ts)) && AllReal(m.chart, Into(m, st, ts))
  {
    ExitSetsAre(m.chart, st.history, st.config, ts);
    EntrySetIsReal(m.chart, st.history, ts, NoEntry);
  }

  /** Selecting and stepping in a live state: the state stays live; and in charts of the careful shape the
      domains decide what is exited and entered. */
  lemma MicrostepIs(m: Model, st: St, enabled: Transition -> bool, ts: seq<Transition>)
    requires WellFormedModel(m) && Live(m, st) && ts == Select(m.chart, st.history, st.config, enabled)
    ensures AllFounded(m.chart, ts)
    ensures var st' := Microstep(m, st, ts); var X := Out(m, st, ts); var E := Into(m, st, ts);
      && Live(m, st') && Ahead(st, st') && Stepped(m, st, st', ts, ExitOrder(m.chart, X), Entering(m, st, ts))
      && st'.config == st.config - X + E && X <= st.config
    ensures Shape(m.chart) ==> StepsLawfully(m, st, ts)
  {
    var c := m.chart;
    SelectionFounded(m, st.history, st.config, enabled);
    StepStates(m, st, ts);
    var X, E := Out(m, st, ts), Into(m, st, ts);
    MicrostepSteps(m, st, ts);
    OrdersAre(c, X);
    OrdersAre(c, E);
    var st' := Microstep(m, st, ts);
    hide Validator.Accepted, Founded, Microstep, Live, Shape;
    if Shape(c) { MicrostepIsLawful(m, st, enabled, ts); }
    SteppedSound(m, st, st', ts, X, E);
  }

  /** The exit set is what lies below the domains, the entry set lies there too and meets nothing that stays,
      and the next configuration and histories are legal. */
  ghost predicate StepsLawfully(m: Model, st: St, ts: seq<Transition>)
    requires Founded(m.chart) && HistorySane(m.chart, st.history) && AllFounded(m.chart, ts)
  {
    var X, E, ds := Out(m, st, ts), Into(m, st, ts), DomainsOf(m.chart, st.history, ts);
    && AllOk(m.chart, ts) && Domains(m.chart, st.config, ds) && X == Exited(m.chart, st.config, ds)
    && RegionsBelow(m.chart, ds, E) && E !! (st.config - X) && Legal(m.chart, st.config - X + E)
    && HistoryOk(m.chart, RecordAll(m.chart, st.config, ExitOrder(m.chart, X), st.history))
  }

  lemma MicrostepIsLawful(m: Model, st: St, enabled: Transition -> bool, ts: seq<Transition>)
    requires WellFormedModel(m) && Live(m, st) && Shape(m.chart) && HistorySane(m.chart, st.history)
    requires ts == Select(m.chart, st.history, st.config, enabled) && AllFounded(m.chart, ts)
    ensures StepsLawfully(m, st, ts)
  {
    StepIsLegal(m.chart, st.history, st.config, enabled);
  }

  /** One more exit. */
  lemma RemembersMore(m: Model, st: St, st': St, exits: seq<int>)
    requires Remembers(m.chart, st) && AllReal(m.chart, st.config)
      && (forall i :: 0 <= i < |exits| ==> exits[i] in st.config)
    requires st'.trace.base == st.trace.base
      && st'.trace.departures == st.trace.departures + [Departure(st.config, exits)]
    requires st'.history == RecordAll(m.chart, st.config, exits, st.history)
    ensures Remembers(m.chart, st')
  {
    hide AllReal, RecordAll;
    var log, more := st.trace.departures, st'.trace.departures;
    var d := Departure(st.config, exits);
    assert DepartureOk(m.chart, d);
    assert more[|log|] == d;
    assert more[..|more| - 1] == log;
    forall i {:trigger DepartureOk(m.chart, more[i])} | 0 <= i < |more| ensures DepartureOk(m.chart, more[i]) {
      if i < |log| { assert DepartureOk(m.chart, log[i]); }
    }
  }

  lemma SteppedSound(m: Model, st: St, st': St, ts: seq<Transition>, X: set<int>, E: set<int>)
    requires WellFormedModel(m) && Live(m, st) && HistorySane(m.chart, st.history) && AllFounded(m.chart, ts)
    requires Stepped(m, st, st', ts, ExitOrder(m.chart, X), Entering(m, st, ts))
    requires X == Out(m, st, ts) && E == Into(m, st, ts) && X <= st.config && AllReal(m.chart, E)
    requires SetOf(ExitOrder(m.chart, X)) == X && SetOf(EntryOrder(m.chart, E)) == E
    requires Shape(m.chart) ==> StepsLawfully(m, st, ts)
    ensures Live(m, st') && Ahead(st, st')
  {
    var c := m.chart;
    var exits := ExitOrder(c, X);
    hide Shape, Validator.Accepted, Kept, Passed, Ledger, Stepped, Lawful, StepsLawfully, Legal, Remembers, Founded,
      RecordAll;
    SteppedFacts(m, st, st', ts, exits, Entering(m, st, ts));
    KeptFifo(st.mail, st'.mail, Events(st.trace.consumed), st.trace.taken);
    KeptLedger(st.mail, st'.mail);
    forall i | 0 <= i < |exits| ensures exits[i] in st.config && Has(c, exits[i]) { assert exits[i] in exits; }
    RemembersMore(m, st, st', exits);
    RecordKeepsSane(c, st.config, exits, st.history);
    if Shape(c) { SteppedLawful(m, st, st', ts, X, E); }
  }

  lemma KeptLedger(q: Mail, q': Mail)
    requires Kept(q, q') && Ledger(q)
    ensures Ledger(q') && Passed(q, q', [])
  {}

  /** What of a step the invariants need. */
  lemma SteppedFacts(m: Model, st: St, st': St, ts: seq<Transition>, exits: seq<int>, e: Entry)
    requires Stepped(m, st, st', ts, exits, e) && Live(m, st)
      && (forall x :: x in EntryOrder(m.chart, e.states) ==> Has(m.chart, x))
    ensures st'.config == st.config - SetOf(exits) + SetOf(EntryOrder(m.chart, e.states))
    ensures st'.statesToInvoke <= st'.config && AllKnown(m.chart, st'.initialized) && (st'.running ==> !st'.completed)
    ensures st'.history == RecordAll(m.chart, st.config, exits, st.history) && Kept(st.mail, st'.mail)
    ensures st'.now == st.now && st'.trace.consumed == st.trace.consumed && st'.trace.base == st.trace.base
    ensures st'.trace.configs == st.trace.configs + [st'.config]
      && st'.trace.departures == st.trace.departures + [Departure(st.config, exits)]
    ensures Invoking(m, st) && SetOf(EntryOrder(m.chart, e.states)) !! (st.config - SetOf(exits)) ==> Invoking(m, st')
    ensures st'.trace.taken == st.trace.taken && st.trace.calls <= st'.trace.calls
    ensures Owned(st')
  {
    hide Kept, InvokeOk, Indexed, Remembers, Ledger, Shape, Lawful;
  }

  lemma SteppedLawful(m: Model, st: St, st': St, ts: seq<Transition>, X: set<int>, E: set<int>)
    requires WellFormedModel(m) && Lawful(m, st) && Legal(m.chart, st.config) && HistorySane(m.chart, st.history)
    requires AllFounded(m.chart, ts) && X == Out(m, st, ts) && E == Into(m, st, ts) && StepsLawfully(m, st, ts)
    requires st'.config == st.config - X + E && (Invoking(m, st) && E !! (st.config - X) ==> Invoking(m, st'))
    requires st'.history == RecordAll(m.chart, st.config, ExitOrder(m.chart, X), st.history)
    requires st'.trace.configs == st.trace.configs + [st'.config]
      && st'.trace.departures == st.trace.departures + [Departure(st.config, ExitOrder(m.chart, X))]
    ensures Lawful(m, st') && Legal(m.chart, st'.config)
  {
    hide Validator.Accepted, Founded, HistoryOk, InvokeOk, Domains, RegionsBelow, AllOk;
    var configs := st'.trace.configs;
    forall i {:trigger Legal(m.chart, configs[i])} | 0 <= i < |configs| ensures Legal(m.chart, configs[i]) {
      if i < |st.trace.configs| { assert Legal(m.chart, st.trace.configs[i]); }
    }
  }

  // ---- what runs, and in which order ----

  /** The calls run this block. */
  ghost predicate Runs(calls: seq<Call>, b: Block) {
    exists i {:trigger calls[i]} :: 0 <= i < |calls| && calls[i].BlockRun? && calls[i].block == b
  }

  lemma RunsConcat(xs: seq<Call>, ys: seq<Call>, b: Block)
    ensures Runs(xs + ys, b) <==> Runs(xs, b) || Runs(ys, b)
  {
    if i :| 0 <= i < |xs| && xs[i].BlockRun? && xs[i].block == b { assert (xs + ys)[i] == xs[i]; }
    if i :| 0 <= i < |ys| && ys[i].BlockRun? && ys[i].block == b { assert (xs + ys)[|xs| + i] == ys[i]; }
  }

  /** Entering x runs b. */
  ghost predicate EntryRuns(c: Chart, initialized: set<int>, e: Entry, x: int, b: Block) {
    || (b == InitData(x) && HasData(c, x) && x !in initialized) || b == OnEntry(x)
    || (b.Default? && b.owner in DefaultsOf(e, x))
  }

  lemma StateRuns(c: Chart, C: set<int>, initialized: set<int>, e: Entry, x: int, b: Block)
    ensures Runs(StateCalls(c, C, initialized, x, DefaultsOf(e, x)), b) <==> EntryRuns(c, initialized, e, x, b)
  {
    var owners := DefaultsOf(e, x);
    var first := Lone(HasData(c, x) && x !in initialized, BlockRun(InitData(x), C));
    var last := Lone(KindOf(c, x) == Final, DoneRead(x, C));
    RunsConcat(first + [BlockRun(OnEntry(x), C)] + DefaultCalls(C, owners), last, b);
    RunsConcat(first + [BlockRun(OnEntry(x), C)], DefaultCalls(C, owners), b);
    RunsConcat(first, [BlockRun(OnEntry(x), C)], b);
    assert first != [] ==> first[0].block == InitData(x);
    assert [BlockRun(OnEntry(x), C)][0].block == OnEntry(x);
    if i :| 0 <= i < |owners| && Default(owners[i]) == b { assert DefaultCalls(C, owners)[i].block == b; }
    hide HasData, KindOf, DefaultsOf;
  }

  lemma {:induction false} EntryCallsRun(c: Chart, C: set<int>, initialized: set<int>, xs: seq<int>, e: Entry, b: Block)
    ensures Runs(EntryCalls(c, C, initialized, xs, e), b) <==>
      exists x :: x in xs && EntryRuns(c, initialized, e, x, b)
  {
    hide StateCalls, EntryRuns, Runs;
    if xs == [] {
      assert !Runs([], b) by { NothingRuns(b); }
    } else {
      var init, x := xs[..|xs| - 1], xs[|xs| - 1];
      EntryCallsRun(c, C, initialized, init, e, b);
      StateRuns(c, C + SetOf(xs), initialized, e, x, b);
      RunsConcat(EntryCalls(c, C, initialized, init, e), StateCalls(c, C + SetOf(xs), initialized, x, DefaultsOf(e, x)),
        b);
      SplitLast(xs);
    }
  }

  lemma NothingRuns(b: Block)
    ensures !Runs([], b)
  {}

  /** Exits come first, then actions, then entries. */
  function Phase(call: Call): nat {
    match call
    case BlockRun(OnExit(_), _) => 0
    case BlockRun(Action(_, _), _) => 1
    case _ => 2
  }

  /** The state that is left or entered. */
  function About(call: Call): int {
    match call
    case BlockRun(OnExit(s), _) => s
    case BlockRun(OnEntry(s), _) => s
    case BlockRun(InitData(s), _) => s
    case DoneRead(s, _) => s
    case _ => -1
  }

  /** g may come before h: by phase; no state is left twice, nor after one of its ancestors; and none is entered
      twice, nor before one of its ancestors. */
  ghost predicate MayPrecede(c: Chart, g: Call, h: Call) {
    && Phase(g) <= Phase(h) && (g.BlockRun? && h.BlockRun? && 0 <= About(g) ==> g.block != h.block)
    && (Phase(g) == Phase(h) == 0 ==> !Desc(c, About(h), About(g)))
    && (Phase(g) == Phase(h) == 2 && 0 <= About(g) && 0 <= About(h) ==> !Desc(c, About(g), About(h)))
  }

  ghost predicate WellOrdered(c: Chart, calls: seq<Call>) {
    forall i, j {:trigger calls[i], calls[j]} :: 0 <= i < j < |calls| ==> MayPrecede(c, calls[i], calls[j])
  }

  /** The calls enter states numbered below k. */
  ghost predicate EntersBelow(calls: seq<Call>, k: int) {
    forall i {:trigger calls[i]} :: 0 <= i < |calls| ==> Phase(calls[i]) == 2 && About(calls[i]) < k
  }

  lemma {:induction false} EntriesAreAbout(c: Chart, C: set<int>, initialized: set<int>, xs: seq<int>, e: Entry, k: int)
    requires 0 <= k && forall i :: 0 <= i < |xs| ==> xs[i] < k
    ensures EntersBelow(EntryCalls(c, C, initialized, xs, e), k)
  {
    if xs != [] { EntriesAreAbout(c, C, initialized, xs[..|xs| - 1], e, k); }
  }

  lemma StateCallsOrdered(c: Chart, C: set<int>, initialized: set<int>, x: int, owners: seq<int>)
    requires 0 <= x
    ensures var calls := StateCalls(c, C, initialized, x, owners);
      WellOrdered(c, calls) && EntersBelow(calls, x + 1) && forall i {:trigger calls[i]} :: 0 <= i < |calls| ==>
        About(calls[i]) == x || About(calls[i]) == -1
  {}

  lemma OrderedAppend(c: Chart, before: seq<Call>, after: seq<Call>, x: int)
    requires WellOrdered(c, before) && WellOrdered(c, after) && EntersBelow(before, x) && EntersBelow(after, x + 1)
    requires forall i {:trigger after[i]} :: 0 <= i < |after| ==> About(after[i]) == x || About(after[i]) == -1
    ensures WellOrdered(c, before + after)
  {
    var calls := before + after;
    forall i, j {:trigger calls[i], calls[j]} | 0 <= i < j < |calls| ensures MayPrecede(c, calls[i], calls[j]) {
      if j < |before| { assert calls[i] == before[i] && calls[j] == before[j]; }
      else if i < |before| { assert calls[i] == before[i] && calls[j] == after[j - |before|]; }
      else { assert calls[i] == after[i - |before|] && calls[j] == after[j - |before|]; }
    }
  }

  lemma {:induction false} EntriesOrdered(c: Chart, C: set<int>, initialized: set<int>, xs: seq<int>, e: Entry)
    requires (forall i, j :: 0 <= i < j < |xs| ==> xs[i] < xs[j]) && forall i :: 0 <= i < |xs| ==> 0 <= xs[i]
    ensures WellOrdered(c, EntryCalls(c, C, initialized, xs, e))
  {
    hide WellOrdered, StateCalls, EntersBelow;
    if xs == [] {
      assert WellOrdered(c, []) by { NothingOrdered(c); }
    } else {
      var init, x := xs[..|xs| - 1], xs[|xs| - 1];
      EntriesOrdered(c, C, initialized, init, e);
      EntriesAreAbout(c, C, initialized, init, e, x);
      StateCallsOrdered(c, C + SetOf(xs), initialized, x, DefaultsOf(e, x));
      OrderedAppend(c, EntryCalls(c, C, initialized, init, e),
        StateCalls(c, C + SetOf(xs), initialized, x, DefaultsOf(e, x)), x);
    }
  }

  lemma NothingOrdered(c: Chart)
    ensures WellOrdered(c, [])
  {}

  ghost predicate StepRuns(c: Chart, initialized: set<int>, exits: seq<int>, ts: seq<Transition>, e: Entry, b: Block) {
    match b
    case OnExit(x) => x in exits
    case Action(s, i) => exists t :: t in ts && t.source == s && t.index == i
    case _ => exists x :: x in EntryOrder(c, e.states) && EntryRuns(c, initialized, e, x, b)
  }

  lemma ExitCallsRun(C: set<int>, exits: seq<int>, b: Block)
    ensures Runs(ExitCalls(C, exits), b) <==> b.OnExit? && b.s in exits
  {
    if b.OnExit? && b.s in exits {
      var i :| 0 <= i < |exits| && exits[i] == b.s;
      assert ExitCalls(C, exits)[i].block == b;
    }
  }

  lemma TakeCallsRun(C: set<int>, ts: seq<Transition>, b: Block)
    ensures Runs(TakeCalls(C, ts), b) <==> b.Action? && exists t ::
      t in ts && t.source == b.source && t.index == b.index
  {
    if b.Action? && exists t :: t in ts && t.source == b.source && t.index == b.index {
      var i :| 0 <= i < |ts| && ts[i].source == b.source && ts[i].index == b.index;
      assert TakeCalls(C, ts)[i].block == b;
    }
  }

  lemma StepCallsRun(c: Chart, C: set<int>, initialized: set<int>, exits: seq<int>, ts: seq<Transition>, e: Entry,
    b: Block)
    ensures Runs(StepCalls(c, C, initialized, exits, ts, e), b) <==> StepRuns(c, initialized, exits, ts, e, b)
  {
    hide Runs, ExitCalls, TakeCalls, EntryCalls, EntryOrder;
    var C', enters := C - SetOf(exits), EntryOrder(c, e.states);
    var xs, ys, zs := ExitCalls(C, exits), TakeCalls(C', ts), EntryCalls(c, C', initialized, enters, e);
    RunsConcat(xs, ys, b);
    RunsConcat(xs + ys, zs, b);
    ExitCallsRun(C, exits, b);
    TakeCallsRun(C', ts, b);
    EntryCallsRun(c, C', initialized, enters, e, b);
  }

  lemma StepCallsOrdered(c: Chart, C: set<int>, initialized: set<int>, X: set<int>, ts: seq<Transition>, e: Entry)
    requires forall x :: x in X + e.states ==> Has(c, x)
    ensures WellOrdered(c, StepCalls(c, C, initialized, ExitOrder(c, X), ts, e))
  {
    hide EntryCalls;
    var exits, enters := ExitOrder(c, X), EntryOrder(c, e.states);
    var C' := C - SetOf(exits);
    var xs, ys, zs := ExitCalls(C, exits), TakeCalls(C', ts), EntryCalls(c, C', initialized, enters, e);
    forall i | 0 <= i < |enters| ensures 0 <= enters[i] < |c.states| { assert enters[i] in enters; }
    EntriesOrdered(c, C', initialized, enters, e);
    EntriesAreAbout(c, C', initialized, enters, e, |c.states|);
    var calls := StepCalls(c, C, initialized, exits, ts, e);
    assert calls == xs + ys + zs;
    forall i, j {:trigger calls[i], calls[j]} | 0 <= i < j < |calls| ensures MayPrecede(c, calls[i], calls[j]) {
      if j < |xs| { assert exits[i] > exits[j]; }
      if |xs| + |ys| <= i { assert calls[i] == zs[i - |xs| - |ys|] && calls[j] == zs[j - |xs| - |ys|]; }
    }
  }

  /** What a microstep that leaves X, takes ts and enters e runs: the exit content of exactly X, the entry content of
      exactly what it enters, data where it is new, default content where e asks for it; each once, descendants
      before ancestors on the way out, ancestors before descendants on the way in. */
  lemma StepCallsAre(c: Chart, C: set<int>, initialized: set<int>, X: set<int>, ts: seq<Transition>, e: Entry)
    requires forall x :: x in X + e.states ==> Has(c, x)
    ensures var calls := StepCalls(c, C, initialized, ExitOrder(c, X), ts, e);
      && WellOrdered(c, calls)
      && (forall x {:trigger OnExit(x)} :: Runs(calls, OnExit(x)) <==> x in X)
      && (forall x {:trigger OnEntry(x)} :: Runs(calls, OnEntry(x)) <==> x in e.states)
      && (forall x {:trigger InitData(x)} :: Runs(calls, InitData(x)) <==>
           x in e.states && HasData(c, x) && x !in initialized)
      && (forall o {:trigger Default(o)} :: Runs(calls, Default(o)) <==>
           exists x :: x in e.states && o in DefaultsOf(e, x))
      && (forall s, i {:trigger Action(s, i)} :: Runs(calls, Action(s, i)) <==>
           exists t :: t in ts && t.source == s && t.index == i)
  {
    hide StepCalls, Runs, WellOrdered;
    OrdersAre(c, X);
    OrdersAre(c, e.states);
    var exits, enters := ExitOrder(c, X), EntryOrder(c, e.states);
    assert forall x :: x in X <==> x in SetOf(exits);
    assert forall x :: x in e.states <==> x in SetOf(enters);
    StepCallsOrdered(c, C, initialized, X, ts, e);
    forall b: Block
      ensures Runs(StepCalls(c, C, initialized, exits, ts, e), b) <==> StepRuns(c, initialized, exits, ts, e, b)
    {
      StepCallsRun(c, C, initialized, exits, ts, e, b);
    }
  }

  // ---- starting invocations ----

  /** The first k declarations of s, in order. */
  ghost function OwnCalls(s: int, k: nat): seq<Call> { seq(k, i requires 0 <= i < k => InvokeBegun(s, i)) }

  /** Every declaration of every state of xs, in order. */
  ghost function InvokeCalls(c: Chart, xs: seq<int>): seq<Call> {
    if xs == [] then []
    else InvokeCalls(c, xs[..|xs| - 1]) + OwnCalls(xs[|xs| - 1], |Invokes(c, xs[|xs| - 1])|)
  }

  /** Between a and b invocations were started, or failed to start, with these calls. */
  ghost predicate Began(a: St, b: St, calls: seq<Call>) {
    && b == a.(data := b.data, mail := b.mail, active := b.active, byId := b.byId, invokeSeq := b.invokeSeq,
         trace := a.trace.(calls := a.trace.calls + calls))
    && Kept(a.mail, b.mail)
  }

  lemma BeganTrans(a: St, b: St, d: St, calls: seq<Call>, more: seq<Call>)
    requires Began(a, b, calls) && Began(b, d, more)
    ensures Began(a, d, calls + more)
  {
    hide Kept;
    KeptTrans(a.mail, b.mail, d.mail);
    assert a.trace.calls + calls + more == a.trace.calls + (calls + more);
  }

  lemma BeginInvokeBegan(m: Model, st: St, s: int, k: nat)
    requires k < |Invokes(m.chart, s)|
    ensures Began(st, BeginInvoke(m, st, s, k), [InvokeBegun(s, k)])
  {
    hide FreshSeq, DeclaredIds, Decimal, PlatformEvent, InvokeNumber, InvokeName, InvokeType;
    var st' := BeginInvoke(m, st, s, k);
    QueueKept(st.mail, st'.mail, [], st'.mail.internalQueue[|st.mail.internalQueue|..]);
  }

  /** The first k declarations of s have been tried, and nothing else changed. */
  ghost predicate TriedTo(m: Model, a: St, b: St, s: int, k: nat, waiting: set<int>) {
    && Began(a, b, OwnCalls(s, k)) && InvokeOk(m.chart, a.config, waiting, b.active, b.byId) && BegunTo(b.active, s, k)
    && b.active.Keys <= a.active.Keys + {s}
  }

  lemma TryNext(m: Model, a: St, b: St, s: int, k: nat, waiting: set<int>)
    requires InvokesDeclaredOnce(m.chart) && TriedTo(m, a, b, s, k, waiting) && Has(m.chart, s)
    requires s in a.config && s !in waiting && k < |Invokes(m.chart, s)|
    ensures TriedTo(m, a, BeginInvoke(m, b, s, k), s, k + 1, waiting)
  {
    BeginInvokeKeeps(m, b, s, k, waiting);
    BeginInvokeBegan(m, b, s, k);
    BeganTrans(a, b, BeginInvoke(m, b, s, k), OwnCalls(s, k), [InvokeBegun(s, k)]);
    assert OwnCalls(s, k + 1) == OwnCalls(s, k) + [InvokeBegun(s, k)];
    hide Kept, BeginInvoke;
  }

  lemma {:induction false} BeginFromIs(m: Model, st: St, s: int, k: nat, waiting: set<int>)
    requires InvokesDeclaredOnce(m.chart) && InvokeOk(m.chart, st.config, waiting, st.active, st.byId)
      && Has(m.chart, s)
    requires s in st.config && s !in waiting && k <= |Invokes(m.chart, s)| && s !in st.active
    ensures TriedTo(m, st, BeginFrom(m, st, s, k), s, k, waiting)
  {
    hide BeginInvoke;
    if k == 0 {
      NoContent(st);
    } else {
      BeginFromIs(m, st, s, k - 1, waiting);
      TryNext(m, st, BeginFrom(m, st, s, k - 1), s, k - 1, waiting);
    }
  }

  lemma WaitLess(c: Chart, config: set<int>, waiting: set<int>, less: set<int>, active: map<int, seq<Running>>,
    byId: map<string, Running>)
    requires InvokeOk(c, config, waiting, active, byId) && less <= waiting
    ensures InvokeOk(c, config, less, active, byId)
  {
    forall s ensures OwnerOk(c, config, less, active, byId, s) { assert OwnerOk(c, config, waiting, active, byId, s); }
  }

  lemma {:induction false} BeginEachIs(m: Model, st: St, xs: seq<int>, waiting: set<int>)
    requires InvokesDeclaredOnce(m.chart) && InvokeOk(m.chart, st.config, waiting, st.active, st.byId)
      && SetOf(xs) <= waiting
    requires (forall i :: 0 <= i < |xs| ==> Has(m.chart, xs[i])) && forall i, j :: 0 <= i < j < |xs| ==> xs[i] != xs[j]
    ensures var st' := BeginEach(m, st, xs);
            Began(st, st', InvokeCalls(m.chart, xs))
              && InvokeOk(m.chart, st.config, waiting - SetOf(xs), st'.active, st'.byId)
              && st'.active.Keys <= st.active.Keys + SetOf(xs)
  {
    if xs == [] {
      NoContent(st);
      assert waiting - SetOf(xs) == waiting;
    } else {
      var init, x := xs[..|xs| - 1], xs[|xs| - 1];
      SplitLast(xs);
      NotInInit(xs);
      BeginEachIs(m, st, init, waiting);
      var st1 := BeginEach(m, st, init);
      var left := waiting - SetOf(init);
      assert x in SetOf(xs);
      assert OwnerOk(m.chart, st1.config, left, st1.active, st1.byId, x);
      WaitLess(m.chart, st.config, left, left - {x}, st1.active, st1.byId);
      BeginFromIs(m, st1, x, |Invokes(m.chart, x)|, left - {x});
      BeganTrans(st, st1, BeginEach(m, st, xs), InvokeCalls(m.chart, init), OwnCalls(x, |Invokes(m.chart, x)|));
      assert left - {x} == waiting - SetOf(xs);
    }
  }

  lemma {:induction false} BeginFromBegan(m: Model, st: St, s: int, k: nat)
    requires k <= |Invokes(m.chart, s)| && Owned(st) && s in st.config
    ensures Began(st, BeginFrom(m, st, s, k), OwnCalls(s, k)) && Owned(BeginFrom(m, st, s, k))
  {
    hide BeginInvoke, Kept, Indexed;
    if k == 0 {
      NoContent(st);
    } else {
      var st1 := BeginFrom(m, st, s, k - 1);
      BeginFromBegan(m, st, s, k - 1);
      BeginInvokeBegan(m, st1, s, k - 1);
      BeginIndexed(m, st1, s, k - 1);
      BeganTrans(st, st1, BeginFrom(m, st, s, k), OwnCalls(s, k - 1), [InvokeBegun(s, k - 1)]);
      assert OwnCalls(s, k) == OwnCalls(s, k - 1) + [InvokeBegun(s, k - 1)];
    }
  }

  lemma {:induction false} BeginEachBegan(m: Model, st: St, xs: seq<int>)
    requires Owned(st) && SetOf(xs) <= st.config
    ensures Began(st, BeginEach(m, st, xs), InvokeCalls(m.chart, xs)) && Owned(BeginEach(m, st, xs))
  {
    hide BeginFrom, Kept, Indexed;
    if xs == [] {
      NoContent(st);
    } else {
      var init, x := xs[..|xs| - 1], xs[|xs| - 1];
      var st1 := BeginEach(m, st, init);
      SplitLast(xs);
      assert x in SetOf(xs);
      BeginEachBegan(m, st, init);
      BeginFromBegan(m, st1, x, |Invokes(m.chart, x)|);
      BeganTrans(st, st1, BeginEach(m, st, xs), InvokeCalls(m.chart, init), OwnCalls(x, |Invokes(m.chart, x)|));
    }
  }

  /** processInvokes starts every invocation that the states waiting for it declare, state by state in document
      order, and changes nothing else; in charts of the careful shape the two indexes keep agreeing. */
  lemma ProcessInvokesIs(m: Model, st: St)
    requires WellFormedModel(m) && Live(m, st)
    ensures var st' := ProcessInvokes(m, st);
            && Live(m, st') && Ahead(st, st') && st'.statesToInvoke == {} && st.statesToInvoke <= st.config
            && Began(st.(statesToInvoke := {}), st',
                 InvokeCalls(m.chart, EntryOrder(m.chart, st.statesToInvoke)))
    ensures Shape(m.chart) ==> ProcessInvokes(m, st).active.Keys <= st.active.Keys + st.statesToInvoke
  {
    hide Shape, Validator.Accepted, Founded, Legal, Lawful, Ledger, Kept, Passed, BeginEach, Indexed;
    var st' := ProcessInvokes(m, st);
    assert SetOf(EntryOrder(m.chart, st.statesToInvoke)) <= st.config;
    BeginEachBegan(m, st.(statesToInvoke := {}), EntryOrder(m.chart, st.statesToInvoke));
    KeptFifo(st.mail, st'.mail, Events(st.trace.consumed), st.trace.taken);
    KeptLedger(st.mail, st'.mail);
    if Shape(m.chart) { ProcessInvokesLawful(m, st); }
  }

  lemma ProcessInvokesLawful(m: Model, st: St)
    requires WellFormedModel(m) && Lawful(m, st) && AllReal(m.chart, st.config) && st.statesToInvoke <= st.config
    requires Began(st.(statesToInvoke := {}), ProcessInvokes(m, st),
      InvokeCalls(m.chart, EntryOrder(m.chart, st.statesToInvoke)))
    ensures Lawful(m, ProcessInvokes(m, st))
    ensures ProcessInvokes(m, st).active.Keys <= st.active.Keys + st.statesToInvoke
  {
    hide Founded, HistoryOk, Legal;
    var c := m.chart;
    var xs := EntryOrder(c, st.statesToInvoke);
    OrdersAre(c, st.statesToInvoke);
    forall i | 0 <= i < |xs| ensures Has(c, xs[i]) { assert xs[i] in xs; }
    BeginEachIs(m, st.(statesToInvoke := {}), xs, st.statesToInvoke);
    assert st.statesToInvoke - SetOf(xs) == {};
  }
}
