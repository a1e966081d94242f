/**
 What one microstep does to the whole interpreter state (interpreter.go:1004-1067, 1276-1307,
 1440-1463): which content runs and in which order, what becomes of the configuration, the
 histories, the invocations and the mail, and what stays as it was.
 */
module Steps {
  import opened Charts
  import opened Validator
  import opened WellFormed
  import opened EntrySets
  import opened Regions
  import opened Configurations
  import opened Transitions
  import opened Selection
  import opened Microsteps
  import opened Machine
  import opened Bookkeeping
  import opened Deliveries
  import opened Finals
  import opened Invocations

  ghost function SetOf(xs: seq<int>): set<int> { set x | x in xs }

  /** Leaving the states xs of C in this order runs their exit content, each seeing what is not left yet. */
  ghost function ExitCalls(C: set<int>, xs: seq<int>): seq<Call> {
    seq(|xs|, i requires 0 <= i < |xs| => BlockRun(OnExit(xs[i]), C - SetOf(xs[..i])))
  }

  /** Taking the transitions ts runs their content. */
  ghost function TakeCalls(C: set<int>, ts: seq<Transition>): seq<Call> {
    seq(|ts|, i requires 0 <= i < |ts| => BlockRun(Action(ts[i].source, ts[i].index), C))
  }

  ghost function DefaultCalls(C: set<int>, owners: seq<int>): seq<Call> {
    seq(|owners|, i requires 0 <= i < |owners| => BlockRun(Default(owners[i]), C))
  }

  ghost function Lone(wanted: bool, call: Call): seq<Call> { if wanted then [call] else [] }

  /** Entering s, with C active by then: its data unless initialized, its entry content, the default
      transitions of `owners`, and, if it is final, the data it is done with. */
  ghost function StateCalls(c: Chart, C: set<int>, initialized: set<int>, s: int, owners: seq<int>): seq<Call> {
    Lone(HasData(c, s) && s !in initialized, BlockRun(InitData(s), C)) + [BlockRun(OnEntry(s), C)]
    + DefaultCalls(C, owners) + Lone(KindOf(c, s) == Final, DoneRead(s, C))
  }

  /** Entering the states xs on top of C, in this order. */
  ghost function EntryCalls(c: Chart, C: set<int>, initialized: set<int>, xs: seq<int>, e: Entry): seq<Call> {
    if xs == [] then []
    else
      var init, x := xs[..|xs| - 1], xs[|xs| - 1];
      EntryCalls(c, C, initialized, init, e) + StateCalls(c, C + SetOf(xs), initialized, x, DefaultsOf(e, x))
  }

  /** What running content never changes: histories, the event, the clock, the record of configurations
      and consumed events; and the mail keeps its two laws. */
  ghost predicate Frame(a: St, b: St) {
    && b.history == a.history && b.event == a.event && b.now == a.now
    && b.trace == a.trace.(calls := b.trace.calls)
    && Kept(a.mail, b.mail)
  }

  lemma FrameTrans(a: St, b: St, d: St)
    requires Frame(a, b) && Frame(b, d)
    ensures Frame(a, d)
  {
    hide Kept;
    KeptTrans(a.mail, b.mail, d.mail);
  }

  ghost predicate Invoking(m: Model, st: St) { InvokeOk(m.chart, st.config, st.statesToInvoke, st.active, st.byId) }

  ghost predicate Owned(st: St) { Indexed(st.config, st.active, st.byId) }

  lemma SplitLast(xs: seq<int>)
    requires xs != []
    ensures var init, x := xs[..|xs| - 1], xs[|xs| - 1]; SetOf(xs) == SetOf(init) + {x}
    ensures forall y :: y in xs <==> y in xs[..|xs| - 1] || y == xs[|xs| - 1]
  {
    var init, x := xs[..|xs| - 1], xs[|xs| - 1];
    assert xs == init + [x];
    assert forall y :: y in xs <==> y in init || y == x;
  }

  lemma ExitCallsSplit(C: set<int>, xs: seq<int>)
    requires xs != []
    ensures var init, x := xs[..|xs| - 1], xs[|xs| - 1];
      ExitCalls(C, xs) == ExitCalls(C, init) + [BlockRun(OnExit(x), C - SetOf(init))]
  {
    var init := xs[..|xs| - 1];
    forall i | 0 <= i < |init| ensures ExitCalls(C, xs)[i] == ExitCalls(C, init)[i] { assert xs[..i] == init[..i]; }
  }

  // ---- executable content ----

  /** Between a and b content ran, with these calls; it changes the data and the mail, and nothing else. */
  ghost predicate Content(a: St, b: St, calls: seq<Call>) {
    && b == a.(data := b.data, mail := b.mail, trace := a.trace.(calls := a.trace.calls + calls))
    && Kept(a.mail, b.mail)
  }

  lemma RanIs(m: Model, st: St, data: Data, es: seq<Effect>)
    ensures Content(st, Ran(m, st, data, es), [])
  {
    ApplyAllKept(m, st.now, st.mail, es);
  }

  /** Running a block asks the model once, keeps the data it answers and has the effects it answers, in order. */
  lemma RunBlockIs(m: Model, st: St, b: Block)
    ensures Content(st, RunBlock(m, st, b), [BlockRun(b, st.config)])
    ensures var o := m.run(View(st.data, st.config, st.event, st.mail.sendSeq, st.invokeSeq), b);
      RunBlock(m, st, b).data == o.data && DidAll(m, st.now, st.mail, RunBlock(m, st, b).mail, o.effects)
  {
    var o := m.run(ViewOf(st), b);
    RanIs(m, Logged(st, BlockRun(b, st.config)), o.data, o.effects);
    hide Kept;
    ApplyAllDoes(m, st.now, st.mail, o.effects);
  }

  /** Finalize content keeps its data, but raises, sends and cancels nothing: every attempt is an error. */
  lemma RunFinalizeIs(m: Model, st: St, owner: int, spec: nat)
    ensures Content(st, RunFinalize(m, st, owner, spec), [BlockRun(Finalize(owner, spec), st.config)])
    ensures var o := m.run(View(st.data, st.config, st.event, st.mail.sendSeq, st.invokeSeq), Finalize(owner, spec));
      && RunFinalize(m, st, owner, spec).data == o.data
      && Gains(st.mail, RunFinalize(m, st, owner, spec).mail, Posting(Errors(|o.effects|), [], []))
  {
    var o := m.run(ViewOf(st), Finalize(owner, spec));
    RanIs(m, Logged(st, BlockRun(Finalize(owner, spec), st.config)), o.data, Forbidden(o.effects));
    hide Kept;
    ForbiddenFails(m, st.now, st.mail, o.effects);
  }

  lemma ContentTrans(a: St, b: St, d: St, calls: seq<Call>, more: seq<Call>)
    requires Content(a, b, calls) && Content(b, d, more)
    ensures Content(a, d, calls + more)
  {
    hide Kept;
    KeptTrans(a.mail, b.mail, d.mail);
    assert a.trace.calls + calls + more == a.trace.calls + (calls + more);
  }

  lemma NoContent(st: St)
    ensures Content(st, st, [])
  {
    QueueKept(st.mail, st.mail, [], []);
  }

  lemma {:induction false} RunDefaultsIs(m: Model, st: St, owners: seq<int>)
    ensures Content(st, RunDefaults(m, st, owners), DefaultCalls(st.config, owners))
    decreases |owners|
  {
    hide Kept, RunBlock;
    if owners == [] {
      NoContent(st);
    } else {
      var st1 := RunBlock(m, st, Default(owners[0]));
      RunBlockIs(m, st, Default(owners[0]));
      RunDefaultsIs(m, st1, owners[1..]);
      ContentTrans(st, st1, RunDefaults(m, st, owners), [BlockRun(Default(owners[0]), st.config)],
        DefaultCalls(st.config, owners[1..]));
      assert DefaultCalls(st.config, owners) == [BlockRun(Default(owners[0]), st.config)]
        + DefaultCalls(st.config, owners[1..]);
    }
  }

  /** A selection changes nothing but that it reports each failing guard. */
  lemma AfterSelectionIs(m: Model, st: St, ev: Option<Event>)
    requires Tree(m.chart)
    ensures Content(st, AfterSelection(m, st, ev), []) && AfterSelection(m, st, ev).data == st.data
    ensures Gains(st.mail, AfterSelection(m, st, ev).mail,
      Posting(Errors(ErrorsOf(m, ViewOf(st), ev, AtomicStates(m.chart, st.config))), [], []))
  {
    ReportErrorsKept(st.mail, ErrorsOf(m, ViewOf(st), ev, AtomicStates(m.chart, st.config)));
  }

  // ---- leaving states ----

  /** Between a and b the states X were left, with these calls. */
  ghost predicate Left(m: Model, a: St, b: St, X: set<int>, calls: seq<Call>) {
    && Frame(a, b) && (Invoking(m, a) ==> Invoking(m, b)) && (Owned(a) ==> Owned(b))
    && b.config == a.config - X && b.statesToInvoke == a.statesToInvoke - X
    && b.running == a.running && b.completed == a.completed && b.initialized == a.initialized
    && Dropped(m.chart, a, b, X) && b.trace.calls == a.trace.calls + calls
  }

  lemma LeftTrans(m: Model, a: St, b: St, d: St, X: set<int>, Y: set<int>, calls: seq<Call>, more: seq<Call>)
    requires Left(m, a, b, X, calls) && Left(m, b, d, Y, more)
    ensures Left(m, a, d, X + Y, calls + more)
  {
    hide Kept, InvokeOk, Indexed, Dropped;
    FrameTrans(a, b, d);
    DroppedTrans(m.chart, a, b, d, X, Y);
    assert a.trace.calls + calls + more == a.trace.calls + (calls + more);
  }

  lemma ExitStateIs(m: Model, st: St, s: int)
    ensures Left(m, st, ExitState(m, st, s), {s}, [BlockRun(OnExit(s), st.config)])
  {
    hide RunBlock, Kept, InvokeOk, Indexed, CancelInvokes;
    RunBlockIs(m, st, OnExit(s));
    CancelIs(m.chart, RunBlock(m, st, OnExit(s)), s);
    if Owned(st) { CancelIndexed(RunBlock(m, st, OnExit(s)), s); }
    if Invoking(m, st) { CancelKeeps(m.chart, st.statesToInvoke, RunBlock(m, st, OnExit(s)), s); }
  }

  lemma {:induction false} ExitEachIs(m: Model, st: St, xs: seq<int>)
    ensures Left(m, st, ExitEach(m, st, xs), SetOf(xs), ExitCalls(st.config, xs))
  {
    hide Kept, InvokeOk, Indexed, ExitState;
    if xs == [] {
      NoContent(st);
      assert st.active - {} == st.active;
    } else {
      var init, x := xs[..|xs| - 1], xs[|xs| - 1];
      var st1 := ExitEach(m, st, init);
      ExitEachIs(m, st, init);
      ExitStateIs(m, st1, x);
      SplitLast(xs);
      ExitCallsSplit(st.config, xs);
      LeftTrans(m, st, st1, ExitEach(m, st, xs), SetOf(init), {x}, ExitCalls(st.config, init),
        [BlockRun(OnExit(x), st1.config)]);
    }
  }

  // ---- transition actions ----

  lemma {:induction false} TakeEachIs(m: Model, st: St, ts: seq<Transition>)
    ensures Content(st, TakeEach(m, st, ts), TakeCalls(st.config, ts))
  {
    hide Kept, RunBlock;
    if ts == [] {
      NoContent(st);
    } else {
      var init, t := ts[..|ts| - 1], ts[|ts| - 1];
      var st1 := TakeEach(m, st, init);
      TakeEachIs(m, st, init);
      RunBlockIs(m, st1, Action(t.source, t.index));
      var call := BlockRun(Action(t.source, t.index), st.config);
      ContentTrans(st, st1, TakeEach(m, st, ts), TakeCalls(st.config, init), [call]);
      assert TakeCalls(st.config, ts) == TakeCalls(st.config, init) + [call];
    }
  }

  // ---- entering states ----

  /** A final state directly below the root ends the machine. */
  predicate TopFinal(c: Chart, s: int) { KindOf(c, s) == Final && Parent(c, s) <= 0 }

  /** What entering the final state s adds to the internal queue, the model answering `value` for its data: an
      error if that failed; unless s ends the machine, the event that its parent is done, with the data; and if
      the parent is a region of a parallel state that is finished by now, the event that this one is done. */
  ghost function DoneEvents(c: Chart, value: Option<Data>, C: set<int>, s: int): seq<Event> {
    var failed := if value == None then [PlatformEvent(ErrExecution, "", "")] else [];
    var p := Parent(c, s);
    var g := Parent(c, p);
    if p <= 0 then failed
    else
      var done := Event("done.state." + Name(c, p), Platform, if value.Some? then value.value else [], "", "", "");
      failed + [done] + (if IsParallel(c, g) && Finished(c, C, g)
        then [PlatformEvent("done.state." + Name(c, g), "", "")]
        else [])
  }

  /** Entering a final state adds exactly its done events, and stops and completes the machine exactly if it lies
      directly below the root. */
  lemma EnterFinalIs(m: Model, st: St, s: int)
    requires Tree(m.chart)
    ensures var st' := EnterFinal(m, st, s);
            && Kept(st.mail, st'.mail)
            && Gains(st.mail, st'.mail, Posting(DoneEvents(m.chart, m.done(ViewOf(st), s), st.config, s), [], []))
            && st' == st.(mail := st'.mail, trace := st.trace.(calls := st.trace.calls + [DoneRead(s, st.config)]),
                 completed := st.completed || Parent(m.chart, s) <= 0, running := st.running && 0 < Parent(m.chart, s))
  {
    hide DoneMail, Finished, Gains, Kept;
    DoneMailGains(m.chart, st.config, st.mail, s, m.done(ViewOf(st), s));
    GainedKept(st.mail, EnterFinal(m, st, s).mail, DoneEvents(m.chart, m.done(ViewOf(st), s), st.config, s));
  }

  lemma DoneMailGains(c: Chart, C: set<int>, q: Mail, s: int, value: Option<Data>)
    requires Tree(c)
    ensures Gains(q, DoneMail(c, C, q, s, value), Posting(DoneEvents(c, value, C, s), [], []))
  {
    hide InFinalState, Finished, Gains, PlatformEvent, EnqueueInternal;
    var error, p := PlatformEvent(ErrExecution, "", ""), Parent(c, s);
    var g := Parent(c, p);
    if IsParallel(c, g) { InFinalStateIs(c, C, g); }
    var q1, got := q, [];
    NothingGained(q);
    if value.None? {
      OneMore(q, q1, got, error);
      q1, got := EnqueueInternal(q1, error), got + [error];
    }
    if 0 < p {
      var done := Event("done.state." + Name(c, p), Platform, if value.Some? then value.value else [], "", "", "");
      OneMore(q, q1, got, done);
      q1, got := EnqueueInternal(q1, done), got + [done];
      if IsParallel(c, g) && InFinalState(c, C, g) {
        var all := PlatformEvent("done.state." + Name(c, g), "", "");
        OneMore(q, q1, got, all);
        q1, got := EnqueueInternal(q1, all), got + [all];
      }
    }
    assert DoneMail(c, C, q, s, value) == q1;
    assert got == DoneEvents(c, value, C, s);
  }

  lemma NothingGained(q: Mail)
    ensures Gains(q, q, Posting([], [], []))
  {}

  lemma OneMore(q: Mail, q': Mail, events: seq<Event>, ev: Event)
    requires Gains(q, q', Posting(events, [], []))
    ensures Gains(q, EnqueueInternal(q', ev), Posting(events + [ev], [], []))
  {}

  lemma GainedKept(q: Mail, q': Mail, events: seq<Event>)
    requires Gains(q, q', Posting(events, [], []))
    ensures Kept(q, q')
  {
    QueueKept(q, q', [], events);
  }

  /** Between a and b the states E were entered, W of which declare invocations, `top` telling whether
      one of them ended the machine, with these calls.  The invocation indexes still agree unless one of the
      states was active already. */
  ghost predicate Joined(m: Model, a: St, b: St, E: set<int>, W: set<int>, top: bool, calls: seq<Call>) {
    && Frame(a, b) && (Invoking(m, a) && E !! a.config ==> Invoking(m, b)) && (Owned(a) ==> Owned(b))
    && b.config == a.config + E && b.statesToInvoke == a.statesToInvoke + W
    && b.running == (a.running && !top) && b.completed == (a.completed || top)
    && a.initialized <= b.initialized <= a.initialized + E
    && b.active == a.active && b.byId == a.byId && b.invokeSeq == a.invokeSeq
    && b.trace.calls == a.trace.calls + calls
  }

  lemma JoinedTrans(m: Model, a: St, b: St, d: St, E: set<int>, E': set<int>, W: set<int>, W': set<int>, top: bool,
    top': bool, calls: seq<Call>, more: seq<Call>)
    requires Joined(m, a, b, E, W, top, calls) && Joined(m, b, d, E', W', top', more) && E !! E'
    ensures Joined(m, a, d, E + E', W + W', top || top', calls + more)
  {
    hide Kept, InvokeOk, Indexed;
    FrameTrans(a, b, d);
    assert a.trace.calls + calls + more == a.trace.calls + (calls + more);
  }

  /** The calls of entering s, before it is asked for its data. */
  ghost function HandlerCalls(c: Chart, C: set<int>, initialized: set<int>, s: int, owners: seq<int>): seq<Call> {
    Lone(HasData(c, s) && s !in initialized, BlockRun(InitData(s), C)) + [BlockRun(OnEntry(s), C)]
    + DefaultCalls(C, owners)
  }

  lemma EntryHandlersAre(m: Model, st: St, s: int, owners: seq<int>)
    ensures var st' := EntryHandlers(m, st, s, owners);
      && Content(st.(initialized := st'.initialized), st', HandlerCalls(m.chart, st.config, st.initialized, s, owners))
      && st'.initialized == if HasData(m.chart, s) then st.initialized + {s} else st.initialized
  {
    hide RunBlock, RunDefaults, Kept, DidAll;
    var C, late := st.config, HasData(m.chart, s) && s !in st.initialized;
    RunBlockIs(m, st, InitData(s));
    NoContent(st);
    var st0 := st.(initialized := if HasData(m.chart, s) then st.initialized + {s} else st.initialized);
    var st1 := if late then RunBlock(m, st, InitData(s)).(initialized := st.initialized + {s}) else st;
    assert st1.initialized == st0.initialized;
    assert Content(st0, st1, Lone(late, BlockRun(InitData(s), C)));
    var st2 := RunBlock(m, st1, OnEntry(s));
    RunBlockIs(m, st1, OnEntry(s));
    ContentTrans(st0, st1, st2, Lone(late, BlockRun(InitData(s), C)), [BlockRun(OnEntry(s), C)]);
    RunDefaultsIs(m, st2, owners);
    ContentTrans(st0, st2, RunDefaults(m, st2, owners),
      Lone(late, BlockRun(InitData(s), C)) + [BlockRun(OnEntry(s), C)], DefaultCalls(C, owners));
  }

  function DeclaresInvokes(c: Chart, s: int): set<int> { if Invokes(c, s) != [] then {s} else {} }

  lemma QueuedJoined(m: Model, st: St, st': St, s: int, calls: seq<Call>)
    requires Content(st.(config := st.config + {s}, initialized := st'.initialized), st', calls)
    requires st.initialized <= st'.initialized <= st.initialized + {s}
    ensures Joined(m, st, QueueInvokes(m.chart, st', s), {s}, DeclaresInvokes(m.chart, s), false, calls)
  {
    hide Kept;
    if Invoking(m, st) && s !in st.config {
      EnterKeeps(m.chart, st.config, st.statesToInvoke, st.active, st.byId, s);
    }
  }

  lemma EnterPlainIs(m: Model, st: St, s: int, owners: seq<int>)
    ensures Joined(m, st, EnterPlain(m, st, s, owners), {s}, DeclaresInvokes(m.chart, s), false,
      HandlerCalls(m.chart, st.config + {s}, st.initialized, s, owners))
  {
    hide EntryHandlers, Kept;
    var h := st.(config := st.config + {s});
    EntryHandlersAre(m, h, s, owners);
    QueuedJoined(m, st, EntryHandlers(m, h, s, owners), s,
      HandlerCalls(m.chart, st.config + {s}, st.initialized, s, owners));
  }

  lemma FinalJoined(m: Model, a: St, b: St, s: int, calls: seq<Call>)
    requires Tree(m.chart) && Joined(m, a, b, {s}, DeclaresInvokes(m.chart, s), false, calls)
    ensures Joined(m, a, EnterFinal(m, b, s), {s}, DeclaresInvokes(m.chart, s), Parent(m.chart, s) <= 0,
      calls + [DoneRead(s, b.config)])
  {
    hide EnterFinal, Kept, InvokeOk, Indexed;
    EnterFinalIs(m, b, s);
    KeptTrans(a.mail, b.mail, EnterFinal(m, b, s).mail);
  }

  lemma EnterStateIs(m: Model, st: St, s: int, owners: seq<int>)
    requires Tree(m.chart)
    ensures Joined(m, st, EnterState(m, st, s, owners), {s}, DeclaresInvokes(m.chart, s), TopFinal(m.chart, s),
      StateCalls(m.chart, st.config + {s}, st.initialized, s, owners))
  {
    hide EnterPlain, EnterFinal, Kept, InvokeOk, Indexed, Frame;
    var calls := HandlerCalls(m.chart, st.config + {s}, st.initialized, s, owners);
    EnterPlainIs(m, st, s, owners);
    if KindOf(m.chart, s) == Final { FinalJoined(m, st, EnterPlain(m, st, s, owners), s, calls); }
    assert StateCalls(m.chart, st.config + {s}, st.initialized, s, owners) ==
      calls + Lone(KindOf(m.chart, s) == Final, DoneRead(s, st.config + {s}));
  }

  /** The done events of a final state come right after its content, and see it active; another state has none. */
  lemma EnterStateRaises(m: Model, st: St, s: int, owners: seq<int>)
    requires Tree(m.chart)
    ensures var plain := EnterPlain(m, st, s, owners);
      && plain.config == st.config + {s} && plain.trace.calls == st.trace.calls
           + HandlerCalls(m.chart, st.config + {s}, st.initialized, s, owners)
      && Gains(plain.mail, EnterState(m, st, s, owners).mail, Posting(if KindOf(m.chart, s) == Final
           then DoneEvents(m.chart, m.done(ViewOf(plain), s), st.config + {s}, s) else [], [], []))
  {
    hide EnterPlain, EnterFinal, DoneEvents, InvokeOk, Indexed, Kept;
    var plain := EnterPlain(m, st, s, owners);
    EnterPlainIs(m, st, s, owners);
    EnterFinalIs(m, plain, s);
    NothingGained(plain.mail);
  }

  ghost function WithInvokes(c: Chart, xs: seq<int>): set<int> { set x | x in xs && Invokes(c, x) != [] }

  predicate SomeTopFinal(c: Chart, xs: seq<int>) { exists x :: x in xs && TopFinal(c, x) }

  lemma {:induction false} EnterEachIs(m: Model, st: St, xs: seq<int>, e: Entry)
    requires Tree(m.chart) && forall i, j :: 0 <= i < j < |xs| ==> xs[i] != xs[j]
    ensures Joined(m, st, EnterEach(m, st, xs, e), SetOf(xs), WithInvokes(m.chart, xs), SomeTopFinal(m.chart, xs),
      EntryCalls(m.chart, st.config, st.initialized, xs, e))
  {
    hide Tree, EnterState, Kept, InvokeOk, Indexed, StateCalls;
    if xs == [] {
      NoContent(st);
    } else {
      var init, x := xs[..|xs| - 1], xs[|xs| - 1];
      SplitLast(xs);
      assert WithInvokes(m.chart, xs) == WithInvokes(m.chart, init) + DeclaresInvokes(m.chart, x);
      assert SomeTopFinal(m.chart, xs) == (SomeTopFinal(m.chart, init) || TopFinal(m.chart, x));
      EnterEachIs(m, st, init, e);
      var st1 := EnterEach(m, st, init, e);
      NotInInit(xs);
      assert x in SetOf(xs);
      EnterStateIs(m, st1, x, DefaultsOf(e, x));
      SameStateCalls(m.chart, st.config + SetOf(xs), st1.initialized, st.initialized, x, DefaultsOf(e, x));
      assert st1.config + {x} == st.config + SetOf(xs);
      JoinedTrans(m, st, st1, EnterEach(m, st, xs, e), SetOf(init), {x}, WithInvokes(m.chart, init),
        DeclaresInvokes(m.chart, x), SomeTopFinal(m.chart, init), TopFinal(m.chart, x),
        EntryCalls(m.chart, st.config, st.initialized, init, e),
        StateCalls(m.chart, st.config + SetOf(xs), st.initialized, x, DefaultsOf(e, x)));
    }
  }

  lemma SameStateCalls(c: Chart, C: set<int>, before: set<int>, after: set<int>, s: int, owners: seq<int>)
    requires s in before <==> s in after
    ensures StateCalls(c, C, before, s, owners) == StateCalls(c, C, after, s, owners)
  {}

  lemma NotInInit(xs: seq<int>)
    requires xs != [] && forall i, j :: 0 <= i < j < |xs| ==> xs[i] != xs[j]
    ensures xs[|xs| - 1] !in xs[..|xs| - 1]
  {
    var init := xs[..|xs| - 1];
    forall i {:trigger init[i]} | 0 <= i < |init| ensures init[i] != xs[|xs| - 1] { assert init[i] == xs[i]; }
  }
}
