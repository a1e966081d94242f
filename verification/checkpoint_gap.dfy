/**
 Why transparency asks that starting invocations goes unseen (snapshot.go:93-163, interpreter.go:1093-1104,
 1473-1487): a snapshot does not keep the last event.  Starting an invocation may enable an eventless
 transition after the queues have run empty; the failure of that invocation, logged next, takes it, and its
 content may read the event that the restored machine has lost.  One chart and one log show it.
 */
module CheckpointGap {
  import opened Charts
  import opened Validator
  import opened WellFormed
  import opened EntrySets
  import opened TargetSets
  import opened Transitions
  import opened Selection
  import opened Microsteps
  import opened Machine
  import opened Bookkeeping
  import opened Invocations
  import opened Steps
  import opened Runs
  import opened Macrosteps
  import opened Instances
  import opened Requests
  import opened Snapshots
  import opened Replays
  import opened Eventless
  import opened Checkpoints
  import Gaps

  // ---- the chart ----

  const Again := Transition(1, 0, ["go"], [1], false)

  const Note := Transition(1, 1, [], [], false)

  /** root { a }: a invokes something, goes to itself on "go", and has an eventless transition. */
  function Noting(): Chart {
    Chart([
      State("r", Compound, true, -1, [1], 2, [1], [], [], false),
      State("a", Atomic, true, 0, [], 2, [], [Again, Note], [InvokeSpec("job", "i", Some("t"))], false)])
  }

  /** Starting the invocation stores [7].  That enables the eventless transition, which notes down
      whether there was a last event. */
  function NotingModel(): Model {
    Model(Noting(), "", {ScxmlProcessor}, [], (d: string, n: string) => d == n,
      (v: View, s: int, i: nat) => if i == 1 && v.data != [7] then Fails else Holds,
      (v: View, b: Block) => Outcome(if b == Action(1, 1) then Noted(v.event) else v.data, []),
      (v: View, s: int) => Some([]), (r: Request) => Accepted,
      (v: View, s: int, k: nat, id: string) => Started([7], "", ""))
  }

  function Noted(e: Option<Event>): Data { if e.None? then [1] else [2] }

  lemma NotingTree()
    ensures Tree(Noting())
  {
    var c := Noting();
    assert |c.states| == 2;
    assert NodeOk(c, 0) && NodeOk(c, 1);
  }

  lemma NotingTargets()
    requires Tree(Noting())
    ensures TargetSetOk(Noting(), [1]) && TargetSetOk(Noting(), [])
  {
    Gaps.AtomOk(Noting(), 1);
    Gaps.EmptyOk(Noting());
  }

  lemma NotingIsAccepted()
    ensures Validator.Accepted(Noting())
  {
    var c := Noting();
    assert |c.states| == 2;
    NotingTree();
    NotingTargets();
    RealsAre(c, [1], 1);
    hide Tree, TargetSetOk;
    forall x | Has(c, x) ensures Local(c, x) { assert x == 0 || x == 1; }
    forall x ensures ListsOk(c, x) { assert Has(c, x) ==> x == 0 || x == 1; }
    assert InvokesDeclaredOnce(c);
  }

  lemma NotingIsWellFormed()
    ensures WellFormedModel(NotingModel()) && Shape(Noting())
  {
    hide Validator.Accepted, Shape, Tree;
    NotingIsAccepted();
    AcceptedIsFounded(Noting());
    AcceptedIsWellFormed(Noting());
  }

  /** Its only legal configuration. */
  lemma OnlyA(C: set<int>)
    requires Tree(Noting()) && Legal(Noting(), C)
    ensures C == {1}
  {
    hide Tree;
    var c := Noting();
    assert |c.states| == 2;
    var k :| k in C && Parent(c, k) == 0;
    forall x | x in C ensures x == 1 { assert ActiveOk(c, C, x); }
  }

  // ---- content changes only the data ----

  lemma BlockIs(st: St, b: Block)
    ensures RunBlock(NotingModel(), st, b) == Logged(st, BlockRun(b, st.config)).(
      data := if b == Action(1, 1) then Noted(st.event) else st.data)
  {}

  /** What a microstep leaves as it was. */
  ghost predicate Untouched(a: St, b: St) {
    b.data == a.data && b.mail == a.mail && b.event == a.event && b.now == a.now
  }

  lemma {:induction false} ExitsKeepData(st: St, xs: seq<int>)
    ensures Untouched(st, ExitEach(NotingModel(), st, xs))
  {
    if xs != [] {
      ExitsKeepData(st, xs[..|xs| - 1]);
      var before := ExitEach(NotingModel(), st, xs[..|xs| - 1]);
      BlockIs(before, OnExit(xs[|xs| - 1]));
    }
  }

  lemma {:induction false} DefaultsKeepData(st: St, owners: seq<int>)
    ensures Untouched(st, RunDefaults(NotingModel(), st, owners))
    decreases |owners|
  {
    if owners != [] {
      BlockIs(st, Default(owners[0]));
      DefaultsKeepData(RunBlock(NotingModel(), st, Default(owners[0])), owners[1..]);
    }
  }

  lemma EnterKeepsData(st: St, s: int, owners: seq<int>)
    requires Tree(Noting())
    ensures Untouched(st, EnterState(NotingModel(), st, s, owners))
  {
    var m := NotingModel();
    assert !HasData(Noting(), s) && KindOf(Noting(), s) != Final;
    var st1 := st.(config := st.config + {s});
    BlockIs(st1, OnEntry(s));
    DefaultsKeepData(RunBlock(m, st1, OnEntry(s)), owners);
    hide RunBlock, RunDefaults, Tree;
  }

  lemma {:induction false} EntriesKeepData(st: St, xs: seq<int>, e: Entry)
    requires Tree(Noting())
    ensures Untouched(st, EnterEach(NotingModel(), st, xs, e))
  {
    hide EnterState, Tree;
    if xs != [] {
      EntriesKeepData(st, xs[..|xs| - 1], e);
      var before := EnterEach(NotingModel(), st, xs[..|xs| - 1], e);
      EnterKeepsData(before, xs[|xs| - 1], DefaultsOf(e, xs[|xs| - 1]));
    }
  }

  lemma TakeIs(st: St, t: Transition)
    ensures TakeEach(NotingModel(), st, []) == st
    ensures var r := TakeEach(NotingModel(), st, [t]);
      r.mail == st.mail && r.event == st.event && r.now == st.now && r.data == if (t.source, t.index) == (1, 1)
        then Noted(st.event) else st.data
  {
    BlockIs(st, Action(t.source, t.index));
    assert [t][..0] == [];
    hide RunBlock;
  }

  /** A microstep by one transition changes the data only if that is the eventless one. */
  lemma StepData(st: St, t: Transition)
    requires Founded(Noting()) && HistorySane(Noting(), st.history) && AllFounded(Noting(), [t])
    ensures var r := Microstep(NotingModel(), st, [t]);
      r.mail == st.mail && r.event == st.event && r.now == st.now && r.data == if (t.source, t.index) == (1, 1)
        then Noted(st.event) else st.data
  {
    var m, c := NotingModel(), Noting();
    var exits := SortDesc(ExitSets(c, st.history, st.config, [t]), |c.states|);
    var e := EntrySet(c, st.history, [t], NoEntry);
    var st1 := ExitEach(m, Recording(m, st, exits), exits);
    var st2 := TakeEach(m, st1, [t]);
    ExitsKeepData(Recording(m, st, exits), exits);
    TakeIs(st1, t);
    EntriesKeepData(st2, SortAsc(e.states, |c.states|), e);
    hide ExitEach, TakeEach, EnterEach, ExitSets, EntrySet, Founded, HistorySane, AllFounded, RecordAll;
  }

  // ---- what is selected ----

  lemma {:induction false} NoErrorsIn(v: View, ev: Option<Event>, ts: seq<Transition>)
    ensures ErrorsIn(NotingModel(), v, ev, ts) == 0
  {
    if ts != [] { NoErrorsIn(v, ev, ts[1..]); }
  }

  lemma {:induction false} NoErrorsUp(v: View, ev: Option<Event>, x: int)
    requires Tree(Noting())
    ensures ErrorsUp(NotingModel(), v, ev, x) == 0
    decreases x
  {
    NoErrorsIn(v, ev, Charts.Transitions(Noting(), x));
    if Has(Noting(), x) {
      assert NodeOk(Noting(), x);
      NoErrorsUp(v, ev, Parent(Noting(), x));
    }
  }

  lemma {:induction false} NoErrors(v: View, ev: Option<Event>, atoms: seq<int>)
    requires Tree(Noting())
    ensures ErrorsOf(NotingModel(), v, ev, atoms) == 0
  {
    hide Tree, ErrorsUp;
    if atoms != [] {
      NoErrors(v, ev, atoms[..|atoms| - 1]);
      NoErrorsUp(v, ev, atoms[|atoms| - 1]);
    }
  }

  lemma OnlyOne(xs: seq<int>, k: int)
    requires (forall i, j :: 0 <= i < j < |xs| ==> xs[i] < xs[j]) && forall x :: x in xs <==> x == k
    ensures xs == [k]
  {
    assert k in xs;
    var i :| 0 <= i < |xs| && xs[i] == k;
    forall j {:trigger xs[j]} | 0 <= j < |xs| ensures j == i { assert xs[j] in xs; }
    assert xs[0] == xs[|xs| - 1];
  }

  lemma OneAtom()
    ensures AtomicStates(Noting(), {1}) == [1]
  {
    var c := Noting();
    assert IsAtomic(c, 1) && |c.states| == 2;
    OnlyOne(AtomicStates(c, {1}), 1);
  }

  /** What state a chooses. */
  function Chosen(on: Transition -> bool): seq<Transition> {
    if on(Again) then [Again] else if on(Note) then [Note] else []
  }

  lemma ChoiceIs(on: Transition -> bool)
    requires Tree(Noting())
    ensures Choice(Noting(), 1, on) == if Chosen(on) == [] then None else Some(Chosen(on)[0])
  {
    hide Tree;
    var c := Noting();
    assert Charts.Transitions(c, 1) == [Again, Note] && [Again, Note][1..] == [Note] && [Note][1..] == [];
    assert FirstEnabled([Note], on) == if on(Note) then Some(Note) else None;
    assert Charts.Transitions(c, 0) == [] && Parent(c, 1) == 0 && Parent(c, 0) == -1;
  }

  lemma KeepsOne(H: History, C: set<int>, t: Transition)
    requires Tree(Noting())
    ensures RemoveConflicts(Noting(), H, C, []) == [] && RemoveConflicts(Noting(), H, C, [t]) == [t]
  {
    hide Tree, Conflict;
    assert [t][..0] == [];
    assert RemoveConflicts(Noting(), H, C, []) == [];
  }

  lemma SelectIs(H: History, on: Transition -> bool)
    requires Tree(Noting())
    ensures Select(Noting(), H, {1}, on) == Chosen(on)
  {
    hide Choice, AtomicStates, RemoveConflicts, Tree;
    OneAtom();
    ChoiceIs(on);
    KeepsOne(H, {1}, Again);
    KeepsOne(H, {1}, Note);
    assert [1][..0] == [];
    if Chosen(on) == [] {
      assert Picks(Noting(), [1], on) == [];
      assert PickedTransitions([]) == [];
    } else {
      assert Picks(Noting(), [1], on) == [] + [Pick(Chosen(on)[0], 1)] == [Pick(Chosen(on)[0], 1)];
      assert PickedTransitions([Pick(Chosen(on)[0], 1)]) == [Chosen(on)[0]];
    }
  }

  /** The selections of a machine in a. */
  lemma SelectedIs(st: St, ev: Option<Event>)
    requires Tree(Noting()) && st.config == {1}
    ensures Selected(NotingModel(), st, ev) == if ev.None? then (if st.data == [7] then [Note] else [])
      else if ev.value.name == "go" then [Again] else []
    ensures AfterSelection(NotingModel(), st, ev) == st
  {
    var m := NotingModel();
    var on := Enabled(m, ViewOf(st), ev);
    SelectIs(st.history, on);
    NoErrors(ViewOf(st), ev, AtomicStates(Noting(), st.config));
    assert ReportErrors(st.mail, 0) == st.mail;
    MatchesIs(ev);
    assert on(Again) == (ev.Some? && ev.value.name == "go") && on(Note) == (ev.None? && st.data == [7]);
    hide Select, ErrorsOf, Tree, Enabled, MatchesEvent;
  }

  lemma MatchesIs(ev: Option<Event>)
    ensures MatchesEvent(NotingModel(), Again, ev) == (ev.Some? && ev.value.name == "go")
    ensures MatchesEvent(NotingModel(), Note, ev) == ev.None?
  {
    assert Again.events == ["go"] && Again.events[0] == "go";
  }

  // ---- steps ----

  lemma InA(st: St)
    requires Live(NotingModel(), st)
    ensures WellFormedModel(NotingModel()) && Tree(Noting()) && HistorySane(Noting(), st.history)
    ensures st.config == {1} && (st.statesToInvoke == {} || st.statesToInvoke == {1})
  {
    NotingIsWellFormed();
    FoundedTree(Noting());
    OnlyA(st.config);
    hide Shape, Tree, WellFormedModel, Legal;
    if st.statesToInvoke != {} {
      var x :| x in st.statesToInvoke;
      assert st.statesToInvoke <= {1};
    }
  }

  lemma NothingFinal(xs: seq<int>)
    ensures !SomeTopFinal(Noting(), xs)
  {
    assert forall x :: KindOf(Noting(), x) != Final;
  }

  /** "go" leaves a and enters it again. */
  lemma AgainStep(st: St)
    requires Live(NotingModel(), st) && st.running
    ensures WellFormedModel(NotingModel()) && HistorySane(Noting(), st.history) && AllFounded(Noting(), [Again])
    ensures var r := Microstep(NotingModel(), st, [Again]);
      && Live(NotingModel(), r) && r.running && r.statesToInvoke == {1}
      && r.data == st.data && r.mail == st.mail && r.event == st.event && r.now == st.now
  {
    hide NotingModel, Noting, Shape, Tree, Live, Sound, Microstep, Ahead, AllFounded, HistorySane, Founded,
      Validator.Accepted, StepsLawfully, Stepped, Select, Out, Entering,
      EntryOrder, ExitOrder;
    ChartIs();
    InA(st);
    AgainIsSelected(st);
    var m, c := NotingModel(), Noting();
    MicrostepIs(m, st, (t: Transition) => t == Again, [Again]);
    StepData(st, Again);
    AgainEnters(st);
    InA(Microstep(m, st, [Again]));
    AgainWaits(m, st, Microstep(m, st, [Again]), ExitOrder(c, Out(m, st, [Again])),
      Entering(m, st, [Again]));
  }

  lemma AgainWaits(m: Model, st: St, r: St, exits: seq<int>, e: Entry)
    requires m.chart == Noting() && Stepped(m, st, r, [Again], exits, e) && 1 in e.states && st.running
    requires r.statesToInvoke <= {1}
    ensures r.running && r.statesToInvoke == {1}
  {
    var enters := EntryOrder(m.chart, e.states);
    assert |Noting().states| == 2;
    assert 1 in enters && Invokes(m.chart, 1) != [];
    NothingFinal(enters);
    hide Kept, RecordAll;
  }

  lemma ChartIs()
    ensures NotingModel().chart == Noting() && Invokes(Noting(), 1) != []
  {}

  lemma AgainIsSelected(st: St)
    requires Tree(Noting()) && st.config == {1}
    ensures [Again] == Select(NotingModel().chart, st.history, st.config, (t: Transition) => t == Again)
    ensures [Note] == Select(NotingModel().chart, st.history, st.config, (t: Transition) => t == Note)
  {
    SelectIs(st.history, (t: Transition) => t == Again);
    SelectIs(st.history, (t: Transition) => t == Note);
    hide Select, Tree;
  }

  lemma AgainEnters(st: St)
    requires Founded(Noting()) && HistorySane(Noting(), st.history) && AllFounded(Noting(), [Again])
    ensures 1 in Into(NotingModel(), st, [Again])
  {
    var c := Noting();
    assert [Again][1..] == [];
    assert AllUnder(c, Again.target, 0);
    assert Effective(c, st.history, 1, 1);
    Gaps.TargetsEntered(c, st.history, Again, 0, 1);
    assert EntrySet(c, st.history, [Again], NoEntry) == EntryOf(c, st.history, Again, NoEntry);
  }

  /** The eventless transition notes whether there was a last event. */
  lemma NoteStep(st: St)
    requires Live(NotingModel(), st) && st.running
    ensures WellFormedModel(NotingModel()) && HistorySane(Noting(), st.history) && AllFounded(Noting(), [Note])
    ensures var r := Microstep(NotingModel(), st, [Note]);
      && Live(NotingModel(), r) && r.running && r.statesToInvoke == st.statesToInvoke
      && r.data == Noted(st.event) && r.mail == st.mail && r.event == st.event && r.now == st.now
  {
    hide NotingModel, Noting, Shape, Tree, Live, Sound, Microstep, Ahead, AllFounded, HistorySane, Founded,
      Validator.Accepted, StepsLawfully, Stepped, Select, Out, Entering,
      EntryOrder, ExitOrder;
    ChartIs();
    InA(st);
    AgainIsSelected(st);
    var m, c := NotingModel(), Noting();
    MicrostepIs(m, st, (t: Transition) => t == Note, [Note]);
    StepData(st, Note);
    NoteMovesNothing(st);
    NoteWaits(m, st, Microstep(m, st, [Note]), ExitOrder(c, Out(m, st, [Note])), Entering(m, st, [Note]));
  }

  lemma NoteMovesNothing(st: St)
    requires Founded(Noting()) && HistorySane(Noting(), st.history) && AllFounded(Noting(), [Note])
    ensures var c := Noting();
      ExitOrder(c, Out(NotingModel(), st, [Note])) == [] && EntryOrder(c, Into(NotingModel(), st, [Note])) == []
  {
    var m, c := NotingModel(), Noting();
    assert [Note][1..] == [];
    var H, C := st.history, st.config;
    assert ExitSet(c, H, C, Note) == {} && ExitSets(c, H, C, []) == {};
    assert ExitSets(c, H, C, [Note]) == {};
    assert EntryOf(c, H, Note, NoEntry) == NoEntry && EntrySet(c, H, [], NoEntry) == NoEntry;
    assert EntrySet(c, H, [Note], NoEntry) == NoEntry;
    assert Out(m, st, [Note]) == {} && Into(m, st, [Note]) == {};
    NoneSorted(c);
  }

  lemma NoneSorted(c: Chart)
    ensures ExitOrder(c, {}) == [] && EntryOrder(c, {}) == []
  {
    assert forall x :: x !in ExitOrder(c, {}) && x !in EntryOrder(c, {});
    NoMember(ExitOrder(c, {}));
    NoMember(EntryOrder(c, {}));
  }

  lemma NoMember(xs: seq<int>)
    requires forall x :: x !in xs
    ensures xs == []
  {
    var first := if xs == [] then 0 else xs[0];
    assert xs == [] || first in xs;
  }

  lemma NoteWaits(m: Model, st: St, r: St, exits: seq<int>, e: Entry)
    requires Stepped(m, st, r, [Note], exits, e) && exits == [] && EntryOrder(m.chart, e.states) == [] && st.running
    ensures r.running && r.statesToInvoke == st.statesToInvoke
  {
    hide Kept, RecordAll, Invoking;
  }

  /** Starting the waiting invocation, if there is one, stores [7]. */
  lemma InvokesAre(st: St)
    requires Live(NotingModel(), st)
    ensures var r := ProcessInvokes(NotingModel(), st);
      && r.mail == st.mail && r.event == st.event && r.running == st.running
      && (if st.statesToInvoke == {} then r.data == st.data else r.data == [7] && "job" in r.byId)
  {
    hide NotingModel, Noting, Shape, Tree, Live, Sound, HistorySane, Founded, Validator.Accepted, BeginFrom;
    ChartIs();
    InA(st);
    var m, c := NotingModel(), Noting();
    var xs := SortAsc(st.statesToInvoke, |c.states|);
    var st1 := st.(statesToInvoke := {});
    if st.statesToInvoke == {} {
      NoMember(xs);
    } else {
      assert |c.states| == 2 by { TwoStates(); }
      OnlyOne(xs, 1);
      assert [1][..0] == [];
      assert BeginEach(m, st1, []) == st1;
      OneInvoke(st1);
    }
  }

  lemma TwoStates()
    ensures |Noting().states| == 2
  {}

  lemma OneInvoke(st: St)
    ensures |Invokes(NotingModel().chart, 1)| == 1
    ensures var r := BeginFrom(NotingModel(), st, 1, 1);
      r.mail == st.mail && r.event == st.event && r.running == st.running && r.data == [7] && "job" in r.byId
  {
    var m := NotingModel();
    assert BeginFrom(m, st, 1, 0) == st;
    assert BeginFrom(m, st, 1, 1) == BeginInvoke(m, st, 1, 0);
    hide InvokeNumber;
  }

  // ---- rounds ----

  lemma NoteRound(st: St)
    requires Live(NotingModel(), st) && st.running && st.data == [7]
    ensures WellFormedModel(NotingModel())
    ensures var r := Round(NotingModel(), st);
      && r.Again? && r.st.running && r.st.statesToInvoke == st.statesToInvoke
      && r.st.data == Noted(st.event) && r.st.mail == st.mail && r.st.event == st.event
  {
    hide NotingModel, Noting, Shape, Tree, Live, Sound, HistorySane, Founded, Validator.Accepted, Microstep,
      ProcessInvokes, Selected, AfterSelection,
      Ahead;
    InA(st);
    SelectedIs(st, None);
    NoteStep(st);
  }

  lemma QuietRound(st: St)
    requires Live(NotingModel(), st) && st.running && st.data != [7] && st.mail.internalQueue == []
    ensures WellFormedModel(NotingModel())
    ensures var r := Round(NotingModel(), st);
      && r.Settled? && r.st.running && r.st.mail == st.mail && r.st.event == st.event
      && (if st.statesToInvoke == {} then r.st.data == st.data else r.st.data == [7] && "job" in r.st.byId)
  {
    hide NotingModel, Noting, Shape, Tree, Live, Sound, HistorySane, Founded, Validator.Accepted, Microstep,
      ProcessInvokes, Selected, AfterSelection,
      Ahead;
    InA(st);
    SelectedIs(st, None);
    InvokesAre(st);
  }

  lemma FailureRound(st: St)
    requires Live(NotingModel(), st) && st.running && st.data != [7] && |st.mail.internalQueue| == 1
      && st.mail.internalQueue[0].name != "go"
    ensures WellFormedModel(NotingModel())
    ensures var r := Round(NotingModel(), st);
      && r.Again? && r.st.running && r.st.mail == st.mail.(internalQueue := [])
        && r.st.event == Some(st.mail.internalQueue[0])
      && r.st.data == st.data && r.st.statesToInvoke == st.statesToInvoke
  {
    hide NotingModel, Noting, Shape, Tree, Live, Sound, HistorySane, Founded, Validator.Accepted, Microstep,
      ProcessInvokes, Selected, AfterSelection,
      Ahead;
    InA(st);
    SelectedIs(st, None);
    DequeueInternalIs(NotingModel(), st);
    var st1 := DequeueInternal(st);
    SelectedIs(st1, st1.event);
  }

  // ---- runs ----

  /** With nothing queued inside, the machine settles; what it stores depends on whether it invokes. */
  lemma Settles(st: St, budget: nat)
    requires Live(NotingModel(), st) && st.running && st.mail.internalQueue == [] && budget >= 2
    ensures WellFormedModel(NotingModel())
    ensures var r := RunToStable(NotingModel(), st, budget);
      && r.finished && r.st.running && r.st.mail == st.mail && r.st.event == st.event
      && (st.statesToInvoke == {1} ==> r.st.data == [7] && "job" in r.st.byId)
  {
    hide NotingModel, Noting, Shape, Tree, Live, Sound, HistorySane, Founded, Validator.Accepted, WellFormedModel,
      Round, RunToStable, Ahead;
    var m := NotingModel();
    InA(st);
    RunToStableUnrolled(m, st, budget);
    if st.data == [7] {
      NoteRound(st);
      var st1 := Round(m, st).st;
      RunToStableUnrolled(m, st1, budget - 1);
      QuietRound(st1);
    } else {
      QuietRound(st);
    }
  }

  /** An internal event finds the eventless transition enabled, and what it notes is the event before. */
  lemma FailureSettles(st: St, budget: nat)
    requires Live(NotingModel(), st) && st.running && st.statesToInvoke == {} && st.data == [7] && budget >= 3
    requires |st.mail.internalQueue| == 1 && st.mail.internalQueue[0].name != "go"
    ensures WellFormedModel(NotingModel())
    ensures var r := RunToStable(NotingModel(), st, budget);
      r.finished && r.st.running && r.st.data == Noted(st.event)
  {
    hide NotingModel, Noting, Shape, Tree, Live, Sound, HistorySane, Founded, Validator.Accepted, WellFormedModel,
      Round, RunToStable, Ahead;
    var m := NotingModel();
    InA(st);
    RunToStableUnrolled(m, st, budget);
    NoteRound(st);
    var st1 := Round(m, st).st;
    RunToStableUnrolled(m, st1, budget - 1);
    FailureRound(st1);
    var st2 := Round(m, st1).st;
    RunToStableUnrolled(m, st2, budget - 2);
    QuietRound(st2);
  }

  // ---- the log ----

  const Go := Event("go", External, [], "", "", "")

  /** What the instance delivers when the handler of the running invocation fails (instance.go:595-600). */
  const Failure := PlatformEvent("error.communication", "", "job")

  /** The split: "go" has been replayed, and the failure of the invocation it started is still to come. */
  function Log(): seq<LogEntry> { [ExternalEvent(0, Go)] }

  function More(): seq<LogEntry> { [ExternalEvent(0, Failure)] }

  /** Running with everything processed. */
  ghost predicate AtEase(r: Run) {
    && r.finished && r.st.running && Live(NotingModel(), r.st) && r.st.statesToInvoke == {}
    && r.st.mail.internalQueue == [] && r.st.mail.externalQueue == [] && r.st.mail.pending == []
  }

  lemma Rests(st: St, budget: nat)
    requires Live(NotingModel(), st) && st.running && st.mail.internalQueue == [] && budget >= 2
    ensures WellFormedModel(NotingModel())
    ensures var r := RunToStable(NotingModel(), st, budget); r.st.statesToInvoke == {} && Live(NotingModel(), r.st)
  {
    hide NotingModel, Noting, Live, RunToStable, Selected, AfterSelection, ProcessInvokes;
    NotingIsWellFormed();
    Settles(st, budget);
    RunsToCompletion(NotingModel(), st, budget);
  }

  lemma NothingToDrain(r: Run, budget: nat)
    requires AtEase(r)
    ensures WellFormedModel(NotingModel()) && Finish(NotingModel(), r, budget) == r
  {
    hide NotingModel, Noting, Live, RunToStable, DrainExternal, Drain, ExitInterpreter;
    NotingIsWellFormed();
    DrainExternalUnrolled(NotingModel(), r.st, budget);
    DrainUnrolled(NotingModel(), r.st, budget);
  }

  lemma Boots(budget: nat)
    requires budget >= 5
    ensures WellFormedModel(NotingModel()) && AtEase(Boot(NotingModel(), 0, false, budget))
  {
    NotingIsWellFormed();
    EnteredIsLive(NotingModel(), 0, false);
    EntersEmpty();
    hide NotingModel, Noting, Live, Entered, RunToStable, Finish;
    var st := Entered(NotingModel(), 0, false);
    Settles(st, budget);
    Rests(st, budget);
    NothingToDrain(Start(NotingModel(), 0, false, budget), budget);
  }

  lemma EntersEmpty()
    requires WellFormedModel(NotingModel())
    ensures var st := Entered(NotingModel(), 0, false);
      st.running && st.mail.internalQueue == [] && st.mail.externalQueue == [] && st.mail.pending == []
  {
    EnteredIsLive(NotingModel(), 0, false);
    NothingFinal(EntryOrder(Noting(), StartEntry(Noting()).states));
    var st0 := Fresh(NotingModel(), 0);
    BlockIs(st0, ChartData);
    InA(Entered(NotingModel(), 0, false));
    var e := StartEntry(Noting());
    EntriesKeepData(Initialized(NotingModel(), st0, false).(running := true), EntryOrder(Noting(), e.states), e);
  }

  /** Taking "go" from the queue. */
  lemma TakesGo(st: St)
    requires Live(NotingModel(), st) && st.running && st.mail.internalQueue == [] && st.statesToInvoke == {}
    ensures WellFormedModel(NotingModel())
    ensures var r := TakeExternal(NotingModel(), st, Go);
      Live(NotingModel(), r) && r.running && r.statesToInvoke == {1} && r.mail == st.mail && r.event == st.event
  {
    hide NotingModel, Noting, Shape, Tree, Live, Sound, HistorySane, Founded, Validator.Accepted, Microstep, Selected,
      AfterSelection, Ahead;
    InA(st);
    assert InvokeSideEffects(NotingModel(), st, Go) == st;
    SelectedIs(st, Some(Go));
    AgainStep(st);
  }

  lemma GoEntry(st: St, budget: nat)
    requires AtEase(Run(st, true)) && budget >= 5
    ensures WellFormedModel(NotingModel())
    ensures var r := ReplayEntry(NotingModel(), st, ExternalEvent(0, Go), budget);
      AtEase(r) && r.st.data == [7] && r.st.event == Some(Go) && "job" in r.st.byId
  {
    hide NotingModel, Noting, Live, Sound, RunToStable, DrainExternal, Drain, ExitInterpreter, ReplayEntry, Finish,
      TakeExternal, Undisturbed;
    NotingIsWellFormed();
    var m := NotingModel();
    EntryArrives(m, st, ExternalEvent(0, Go), budget);
    var st1 := Arrives(m, st, ExternalEvent(0, Go));
    DequeueExternalIs(m, st1);
    var st2 := DequeueExternal(m, st1);
    TakesGo(st2);
    var st3 := TakeExternal(m, st2, Go);
    Settles(st3, budget - 1);
    Rests(st3, budget - 1);
    Drained(st1, RunToStable(m, st3, budget - 1), budget);
  }

  /** The drain after one external event that left nothing else to do. */
  lemma Drained(st: St, r: Run, budget: nat)
    requires Live(NotingModel(), st) && st.running && st.mail.externalQueue != [] && AtEase(r) && budget > 0
    requires WellFormedModel(NotingModel()) && ProcessNextExternal(NotingModel(), st, budget - 1) == r
    ensures Finish(NotingModel(), Run(st, true), budget) == r
  {
    hide NotingModel, Noting, WellFormedModel, Live, Onward, RunToStable, DrainExternal, Drain, ExitInterpreter,
      ProcessNextExternal, Finish;
    DrainsOne(NotingModel(), st, budget);
    NothingLeft(NotingModel(), r.st, budget - 1);
    DrainIsExternal(NotingModel(), st, r, budget);
    FinishIsDrain(NotingModel(), st, budget);
  }

  lemma DrainsOne(m: Model, st: St, budget: nat)
    requires WellFormedModel(m) && Live(m, st) && st.running && st.mail.externalQueue != [] && budget > 0
    requires ProcessNextExternal(m, st, budget - 1).finished
    ensures DrainExternal(m, st, budget) == DrainExternal(m, ProcessNextExternal(m, st, budget - 1).st, budget - 1)
  {
    hide WellFormedModel, Live, Onward, DrainExternal, ProcessNextExternal;
    DrainExternalUnrolled(m, st, budget);
  }

  lemma NothingLeft(m: Model, st: St, budget: nat)
    requires WellFormedModel(m) && Live(m, st) && st.mail.externalQueue == []
    ensures DrainExternal(m, st, budget) == Run(st, true)
  {
    hide WellFormedModel, Live, Onward, DrainExternal, ProcessNextExternal;
    DrainExternalUnrolled(m, st, budget);
  }

  lemma DrainIsExternal(m: Model, st: St, r: Run, budget: nat)
    requires WellFormedModel(m) && Live(m, st) && DrainExternal(m, st, budget) == r && r.st.mail.internalQueue == []
    ensures Drain(m, st, budget) == r
  {
    hide WellFormedModel, Live, Onward, DrainExternal, RunToStable, Drain;
    DrainUnrolled(m, st, budget);
  }

  lemma FailureArrives(st: St)
    requires st.mail.internalQueue == [] && st.mail.externalQueue == [] && "job" in st.byId
    ensures var r := Arrives(NotingModel(), st, More()[0]);
      && r.mail.internalQueue == [Failure] && r.mail.externalQueue == []
      && r.event == st.event && r.data == st.data && r.running == st.running && r.statesToInvoke == st.statesToInvoke
  {}

  lemma FailureEntry(st: St, budget: nat)
    requires AtEase(Run(st, true)) && st.data == [7] && "job" in st.byId && budget >= 5
    ensures WellFormedModel(NotingModel())
    ensures ReplayEntry(NotingModel(), st, More()[0], budget).st.data == Noted(st.event)
  {
    hide NotingModel, Noting, Live, Sound, RunToStable, DrainExternal, Drain, ExitInterpreter, ReplayEntry, Finish,
      Arrives;
    NotingIsWellFormed();
    var m := NotingModel();
    EntryArrives(m, st, More()[0], budget);
    FailureArrives(st);
    var st1 := Arrives(m, st, More()[0]);
    FailureSettles(st1, budget);
    DrainExternalUnrolled(m, st1, budget);
    DrainUnrolled(m, st1, budget);
    FinishIsDrain(m, st1, budget);
  }

  lemma FinishIsDrain(m: Model, st: St, budget: nat)
    requires WellFormedModel(m) && Live(m, st)
    ensures var d := Drain(m, st, budget); d.finished && d.st.running ==> Finish(m, Run(st, true), budget) == d
  {
    hide WellFormedModel, Live, Drain, ExitInterpreter;
  }

  // ---- listing invocations ----

  /** The running invocations can always be listed. */
  lemma {:induction false} ListIds(byId: map<string, Running>, ids: set<string>) returns (rs: seq<Running>)
    requires ids <= byId.Keys && forall id :: id in byId ==> byId[id].id == id
    ensures (forall i :: 0 <= i < |rs| ==> rs[i].id in ids && byId[rs[i].id] == rs[i]) && forall i, j ::
      0 <= i < j < |rs| ==> rs[i].id != rs[j].id
    ensures forall id :: id in ids ==> byId[id] in rs
    decreases ids
  {
    if ids == {} {
      rs := [];
    } else {
      var id :| id in ids;
      var rest := ListIds(byId, ids - {id});
      rs := rest + [byId[id]];
    }
  }

  lemma SomeListing(m: Model, st: St) returns (rs: seq<Running>)
    requires Invoking(m, st)
    ensures Lists(m.chart, rs, st.byId)
  {
    var c := m.chart;
    forall id | id in st.byId ensures st.byId[id].id == id && KnownSpec(c, st.byId[id]) {
      IdBelongs(c, st.config, st.statesToInvoke, st.active, st.byId, id);
    }
    rs := ListIds(st.byId, st.byId.Keys);
    hide InvokeOk;
  }

  // ---- the two replays ----

  lemma NotingIsBlind()
    ensures EventlessBlind(NotingModel())
  {}

  lemma InvokesAgree(st: St)
    requires Live(NotingModel(), st)
    ensures Invoking(NotingModel(), st)
  {
    hide InvokeOk, Shape;
    NotingIsWellFormed();
  }

  lemma DataDiffers(d: Replayed, f: Replayed)
    requires d.run.st.data != f.run.st.data
    ensures !EndAlike(d, f)
  {}

  /** Replaying one entry. */
  lemma OneEntry(r: Run, log: seq<LogEntry>, budget: nat)
    requires AtEase(r) && WellFormedModel(NotingModel()) && |log| == 1
    ensures Held(NotingModel(), r)
    ensures Rehydrate(NotingModel(), r, log, budget) ==
      Replayed(ReplayEntry(NotingModel(), r.st, log[0], budget), false)
  {
    hide NotingModel, Noting, Live, Sound, ReplayEntry, Replay, WellFormedModel;
    var m := NotingModel();
    HeldWhileLive(m, r.st);
    RehydrateRunning(m, r.st, log, budget);
    ReplayUnrolled(m, r, log, budget);
    assert log[1..] == [];
    ReplayUnrolled(m, ReplayEntry(m, r.st, log[0], budget), [], budget);
  }

  lemma Restores(st: St, rs: seq<Running>)
    requires AtEase(Run(st, true)) && Lists(Noting(), rs, st.byId)
    ensures forall i :: 0 <= i < |rs| ==> KnownSpec(Noting(), rs[i])
    ensures var back := RestoreFrom(Noting(), BuildSnapshot(Noting(), st, rs), st.now);
      back.Some? && AtEase(Run(back.value, true)) && back.value.data == st.data
        && back.value.event == None && back.value.byId == st.byId
  {
    hide NotingModel, Noting, Live, RestoreInvokes, KnownStates;
    ChartIs();
    NotingIsWellFormed();
    ListsKnown(Noting(), rs, st.byId);
    NotDone(NotingModel(), st);
    InvokesAgree(st);
    SnapshotRoundTrip(NotingModel(), st, rs);
  }

  lemma NotDone(m: Model, st: St)
    requires Live(m, st) && st.running
    ensures !st.completed
  {}

  /** The whole log leaves [2], for it knows that "go" came last; the resumed one leaves [1]. */
  lemma ReplaysDiffer(budget: nat) returns (rs: seq<Running>)
    requires budget >= 5
    ensures WellFormedModel(NotingModel()) && EventlessBlind(NotingModel())
    ensures var d := Rehydrate(NotingModel(), Boot(NotingModel(), 0, false, budget), Log(), budget);
      !d.failed && AtEase(d.run) && Lists(Noting(), rs, d.run.st.byId)
    ensures var m := NotingModel();
      var st := Rehydrate(m, Boot(m, 0, false, budget), Log(), budget).run.st;
      var back := RestoreFrom(m.chart, BuildSnapshot(m.chart, st, rs), st.now);
      && back.Some? && Held(m, Run(back.value, true))
      && !EndAlike(Rehydrate(m, Boot(m, 0, false, budget), Log() + More(), budget),
        Rehydrate(m, Run(back.value, true), More(), budget))
  {
    hide NotingModel, Noting, Live, Sound, ReplayEntry, Replay, Rehydrate, Held, Boot, RestoreFrom, BuildSnapshot,
      Lists, EventlessBlind;
    NotingIsWellFormed();
    NotingIsBlind();
    ChartIs();
    var m := NotingModel();
    Boots(budget);
    var r0 := Boot(m, 0, false, budget);
    GoEntry(r0.st, budget);
    var r1 := ReplayEntry(m, r0.st, Log()[0], budget);
    OneEntry(r0, Log(), budget);
    InvokesAgree(r1.st);
    rs := SomeListing(m, r1.st);
    Restores(r1.st, rs);
    var back := RestoreFrom(m.chart, BuildSnapshot(m.chart, r1.st, rs), r1.st.now).value;
    FailureEntry(r1.st, budget);
    FailureEntry(back, budget);
    OneEntry(Run(back, true), More(), budget);
    OneEntry(r1, More(), budget);
    RehydrateAppend(m, r0, Log(), More(), budget);
    RehydrateRunning(m, r1.st, More(), budget);
    DataDiffers(Rehydrate(m, r0, Log() + More(), budget), Rehydrate(m, Run(back, true), More(), budget));
  }
}
