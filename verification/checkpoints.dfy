/**
 Checkpoint transparency (snapshot.go:93-364, replay.go:229-276): a checkpoint is a cache over the log.
 Replaying the rest of the log from a restored checkpoint ends in the same configuration, history,
 queues, counters, invocations and pending sends as replaying the whole log.
 */
module Checkpoints {
  import opened Charts
  import opened Validator
  import opened WellFormed
  import opened EntrySets
  import opened Transitions
  import opened Selection
  import opened Microsteps
  import opened Machine
  import opened Bookkeeping
  import opened Invocations
  import opened Steps
  import opened Runs
  import opened Macrosteps
  import opened Instances
  import opened Requests
  import opened Snapshots
  import opened Replays
  import opened Eventless

  // ---- draining treats the same states alike ----

  /** Taking an external event replaces the last event, so from here on it does not matter what it was. */
  lemma ExternalForgets(m: Model, a: St, b: St)
    requires Tree(m.chart) && SameButEvent(a, b) && a.mail.externalQueue != []
    ensures b.mail.externalQueue != [] && Same(DequeueExternal(m, a), DequeueExternal(m, b))
  {}

  lemma SameTakeExternal(m: Model, a: St, b: St, ev: Event)
    requires WellFormedModel(m) && Live(m, a) && Live(m, b) && Same(a, b)
    ensures Same(TakeExternal(m, a, ev), TakeExternal(m, b, ev))
  {
    var a1, b1 := InvokeSideEffects(m, a, ev), InvokeSideEffects(m, b, ev);
    SideEffectsSame(m, a, b, ev);
    InvokeSideEffectsAre(m, a, ev);
    InvokeSideEffectsAre(m, b, ev);
    ContentSound(m, a, a1, FinalizeCalls(a, ev));
    ContentSound(m, b, b1, FinalizeCalls(b, ev));
    hide Live, Same, InvokeSideEffects, TakeSelected;
    SameTakeSelected(m, a1, b1, Some(ev));
  }

  lemma SideEffectsSame(m: Model, a: St, b: St, ev: Event)
    requires Same(a, b)
    ensures Same(InvokeSideEffects(m, a, ev), InvokeSideEffects(m, b, ev))
  {
    if ev.invokeId != "" && ev.invokeId in a.byId {
      SameFinalize(m, a, b, a.byId[ev.invokeId].owner, a.byId[ev.invokeId].spec);
    }
  }

  lemma SameProcessNext(m: Model, a: St, b: St, budget: nat)
    requires WellFormedModel(m) && Live(m, a) && Live(m, b) && SameButEvent(a, b) && a.mail.externalQueue != []
    ensures b.mail.externalQueue != [] && SameRun(ProcessNextExternal(m, a, budget), ProcessNextExternal(m, b, budget))
  {
    ExternalForgets(m, a, b);
    DequeueExternalIs(m, a);
    DequeueExternalIs(m, b);
    SameQueues(a, b);
    hide Live, WellFormedModel, Same, SameButEvent, DequeueExternal, TakeExternal, RunToStable;
    var ev := a.mail.externalQueue[0];
    SameTakeExternal(m, DequeueExternal(m, a), DequeueExternal(m, b), ev);
    SameRunToStable(m, TakeExternal(m, DequeueExternal(m, a), ev), TakeExternal(m, DequeueExternal(m, b), ev), budget);
  }

  lemma {:induction false} SameDrainExternal(m: Model, a: St, b: St, budget: nat)
    requires WellFormedModel(m) && Live(m, a) && Live(m, b) && Same(a, b)
    ensures SameRun(DrainExternal(m, a, budget), DrainExternal(m, b, budget))
    decreases budget
  {
    hide Live, WellFormedModel, Same, SameButEvent, Onward, ProcessNextExternal, Ahead, DequeueExternal, DrainExternal;
    SameFacts(a, b);
    SameIsSameButEvent(a, b);
    DrainExternalUnrolled(m, a, budget);
    DrainExternalUnrolled(m, b, budget);
    if a.running && a.mail.externalQueue != [] && budget > 0 {
      SameProcessNext(m, a, b, budget - 1);
      var r, s := ProcessNextExternal(m, a, budget - 1), ProcessNextExternal(m, b, budget - 1);
      if r.finished { SameDrainExternal(m, r.st, s.st, budget - 1); }
    }
  }

  lemma SameDrain(m: Model, a: St, b: St, budget: nat)
    requires WellFormedModel(m) && Live(m, a) && Live(m, b) && Same(a, b)
    ensures SameRun(Drain(m, a, budget), Drain(m, b, budget))
  {
    hide Live, WellFormedModel, Same, Onward, DrainExternal, RunToStable, Ahead, Drain;
    DrainUnrolled(m, a, budget);
    DrainUnrolled(m, b, budget);
    SameDrainExternal(m, a, b, budget);
    var r, s := DrainExternal(m, a, budget), DrainExternal(m, b, budget);
    SameFacts(r.st, s.st);
    if r.finished { SameRunToStable(m, r.st, s.st, budget); }
  }

  lemma SameLeave(m: Model, a: St, b: St)
    requires Same(a, b)
    ensures Same(ExitInterpreter(m, a), ExitInterpreter(m, b))
  {
    var xs := ExitOrder(m.chart, a.config);
    SameExitEach(m, a, b, xs);
    var a1, b1 := ExitEach(m, a, xs), ExitEach(m, b, xs);
    hide ExitEach, ExitOrder;
    DropPendingBalances(a1.mail);
    DropPendingBalances(b1.mail);
    assert Stored([]) == [];
  }

  /** Two runs that got to the same state and drain it. */
  lemma SameFinish(m: Model, r: Run, s: Run, budget: nat)
    requires WellFormedModel(m) && Live(m, r.st) && Live(m, s.st) && SameRun(r, s)
    ensures SameRun(Finish(m, r, budget), Finish(m, s, budget))
  {
    hide Live, WellFormedModel, Same, Drain, ExitInterpreter;
    if r.finished {
      SameDrain(m, r.st, s.st, budget);
      SameEnd(m, Drain(m, r.st, budget), Drain(m, s.st, budget));
    }
  }

  /** The exit at the end of a round, if the machine stopped. */
  lemma SameEnd(m: Model, r: Run, s: Run)
    requires SameRun(r, s)
    ensures r.st.running == s.st.running && Same(ExitInterpreter(m, r.st), ExitInterpreter(m, s.st))
  {
    SameFacts(r.st, s.st);
    SameLeave(m, r.st, s.st);
  }

  // ---- while the last event is not known ----

  /** Two states that differ at most in the last event, which nothing will read before it is replaced. */
  ghost predicate Resting(m: Model, a: St, b: St)
    requires Tree(m.chart)
  {
    SameButEvent(a, b) && Calm(m, a) && Live(m, a) && Live(m, b)
  }

  lemma RestingLive(m: Model, a: St, b: St)
    requires Tree(m.chart) && Resting(m, a, b)
    ensures Live(m, a) && Live(m, b) && SameButEvent(a, b) && a.running && b.running
  {}

  lemma SameIsSameButEvent(a: St, b: St)
    requires Same(a, b)
    ensures SameButEvent(a, b)
  {}

  /** The first round after an internal event arrived forgets the last event. */
  lemma BlindRound(m: Model, a: St, b: St)
    requires WellFormedModel(m) && EventlessBlind(m) && Resting(m, a, b) && a.mail.internalQueue != []
    ensures Round(m, a).Again? && Round(m, b).Again? && Same(Round(m, a).st, Round(m, b).st)
  {
    BlindSelection(m, a, b);
    var a1, b1 := AfterSelection(m, a, None), AfterSelection(m, b, None);
    AfterSelectionIs(m, a, None);
    AfterSelectionIs(m, b, None);
    ContentSound(m, a, a1, []);
    ContentSound(m, b, b1, []);
    StillQueued(m, a);
    BlindDequeue(a1, b1);
    DequeueInternalIs(m, a1);
    DequeueInternalIs(m, b1);
    assert TakeSelected(m, a, None) == a1 && TakeSelected(m, b, None) == b1;
    hide Live, WellFormedModel, Same, SameButEvent, Calm, Selected, AfterSelection, TakeSelected;
    SameTakeSelected(m, DequeueInternal(a1), DequeueInternal(b1), DequeueInternal(a1).event);
    SameFacts(DequeueInternal(a1), DequeueInternal(b1));
  }

  lemma {:induction false} ReportsOnlyAdd(q: Mail, n: nat)
    requires q.internalQueue != []
    ensures ReportErrors(q, n).internalQueue != []
  {
    if n > 0 { ReportsOnlyAdd(q, n - 1); }
  }

  lemma StillQueued(m: Model, st: St)
    requires Tree(m.chart) && st.mail.internalQueue != []
    ensures AfterSelection(m, st, None).mail.internalQueue != []
  {
    ReportsOnlyAdd(st.mail, ErrorsOf(m, ViewOf(st), None, AtomicStates(m.chart, st.config)));
  }

  lemma BlindDequeue(a: St, b: St)
    requires SameButEvent(a, b) && a.mail.internalQueue != []
    ensures b.mail.internalQueue != [] && Same(DequeueInternal(a), DequeueInternal(b))
  {
    QueuePassed(a.mail, DequeueInternal(a).mail, []);
    QueuePassed(b.mail, DequeueInternal(b).mail, []);
  }

  lemma BlindRunToStable(m: Model, a: St, b: St, budget: nat)
    requires WellFormedModel(m) && EventlessBlind(m) && Resting(m, a, b) && a.mail.internalQueue != []
    ensures var r, s := RunToStable(m, a, budget), RunToStable(m, b, budget);
            if budget == 0 then r == Run(a, false) && s == Run(b, false) else SameRun(r, s)
  {
    hide *;
    TreeOf(m);
    RestingLive(m, a, b);
    SameQueues(a, b);
    RunToStableUnrolled(m, a, budget);
    RunToStableUnrolled(m, b, budget);
    if budget > 0 {
      BlindRound(m, a, b);
      var a1, b1 := Round(m, a).st, Round(m, b).st;
      SameRunToStable(m, a1, b1, budget - 1);
    }
  }

  // ---- one log entry ----

  /** Where two replays of the same entries stand: at the same end, or both resting. */
  ghost predicate Matched(m: Model, r: Run, s: Run)
    requires Tree(m.chart)
  {
    r.finished == s.finished && SameButEvent(r.st, s.st)
      && (r.finished && r.st.running ==> Same(r.st, s.st) || Resting(m, r.st, s.st))
  }

  lemma SameRunMatches(m: Model, r: Run, s: Run)
    requires Tree(m.chart) && SameRun(r, s)
    ensures Matched(m, r, s)
  {}

  lemma RestingMatches(m: Model, a: St, b: St, finished: bool)
    requires Tree(m.chart) && Resting(m, a, b)
    ensures Matched(m, Run(a, finished), Run(b, finished))
  {}

  /** Draining forgets the last event as soon as it takes one; if there is none to take, both keep resting. */
  lemma BlindDrain(m: Model, a: St, b: St, budget: nat)
    requires WellFormedModel(m) && EventlessBlind(m) && Resting(m, a, b)
    ensures var r, s := Drain(m, a, budget), Drain(m, b, budget);
            SameRun(r, s) || exists finished :: r == Run(a, finished) && s == Run(b, finished)
  {
    hide *;
    TreeOf(m);
    RestingLive(m, a, b);
    SameQueues(a, b);
    DrainExternalUnrolled(m, a, budget);
    DrainExternalUnrolled(m, b, budget);
    DrainUnrolled(m, a, budget);
    DrainUnrolled(m, b, budget);
    if a.mail.externalQueue != [] && budget > 0 {
      SameProcessNext(m, a, b, budget - 1);
      BlindDrainRest(m, a, b, budget);
    } else if a.mail.externalQueue == [] && a.mail.internalQueue != [] {
      BlindRunToStable(m, a, b, budget);
      assert budget == 0 ==> Drain(m, a, budget) == Run(a, false) && Drain(m, b, budget) == Run(b, false);
    } else {
      assert exists finished :: Drain(m, a, budget) == Run(a, finished) && Drain(m, b, budget) == Run(b, finished);
    }
  }

  /** After one external event both sides are the same, and so is what follows. */
  lemma BlindDrainRest(m: Model, a: St, b: St, budget: nat)
    requires WellFormedModel(m) && Live(m, a) && Live(m, b) && a.running && b.running && budget > 0
      && a.mail.externalQueue != [] && b.mail.externalQueue != []
    requires SameRun(ProcessNextExternal(m, a, budget - 1), ProcessNextExternal(m, b, budget - 1))
    ensures SameRun(Drain(m, a, budget), Drain(m, b, budget))
  {
    hide Live, WellFormedModel, Same, SameButEvent, ProcessNextExternal, RunToStable, Onward, Ahead, DrainExternal,
      Drain;
    DrainExternalUnrolled(m, a, budget);
    DrainExternalUnrolled(m, b, budget);
    DrainUnrolled(m, a, budget);
    DrainUnrolled(m, b, budget);
    var r, s := ProcessNextExternal(m, a, budget - 1), ProcessNextExternal(m, b, budget - 1);
    if r.finished { SameDrainExternal(m, r.st, s.st, budget - 1); }
    var r1, s1 := DrainExternal(m, a, budget), DrainExternal(m, b, budget);
    assert SameRun(r1, s1);
    SameFacts(r1.st, s1.st);
    SameRunToStable(m, r1.st, s1.st, budget);
  }

  lemma BlindFinish(m: Model, a: St, b: St, budget: nat)
    requires WellFormedModel(m) && EventlessBlind(m) && Resting(m, a, b)
    ensures Matched(m, Finish(m, Run(a, true), budget), Finish(m, Run(b, true), budget))
  {
    hide WellFormedModel, EventlessBlind, Same, SameButEvent, Drain, ExitInterpreter, Resting, Matched, Live;
    TreeOf(m);
    RestingLive(m, a, b);
    BlindDrain(m, a, b, budget);
    var r, s := Drain(m, a, budget), Drain(m, b, budget);
    if SameRun(r, s) {
      SameEnd(m, r, s);
      SameRunMatches(m, Finish(m, Run(a, true), budget), Finish(m, Run(b, true), budget));
    } else {
      var finished :| r == Run(a, finished) && s == Run(b, finished);
      RestingMatches(m, a, b, finished);
    }
  }

  /** What a log holds (log.go:30-80). */
  datatype LogEntry =
    | SessionStarted(time: int)
    | ExternalEvent(time: int, event: Event)
    | TimerFired(time: int, sendId: string, target: string, typ: string, event: Event)

  /** The part of a request that only touches the mail. */
  function Arrives(m: Model, st: St, e: LogEntry): St {
    match e
    case SessionStarted(time) => st.(now := time)
    case ExternalEvent(time, ev) =>
      if ev.invokeId != "" && ev.invokeId !in st.byId then st.(now := time)
      else st.(now := time, mail := Enqueue(st.mail, ev))
    case TimerFired(time, sendId, target, typ, ev) =>
      st.(now := time, mail := ReplayFire(m, st.mail, sendId, target, typ, ev))
  }

  lemma ArrivesLive(m: Model, st: St, e: LogEntry)
    requires Live(m, st)
    ensures Live(m, Arrives(m, st, e))
  {
    AtTime(m, st, e.time);
    match e
    case SessionStarted(time) =>
    case ExternalEvent(time, ev) => QueuedIsLive(m, st.(now := time), ev);
    case TimerFired(time, sendId, target, typ, ev) => ReplayFireIsLive(m, st.(now := time), sendId, target, typ, ev);
  }

  /** replayEntry (replay.go:229-245): the clock is set, and the entry goes through the request loop. */
  ghost function ReplayEntry(m: Model, st: St, e: LogEntry, budget: nat): (r: Run)
    requires WellFormedModel(m) && Live(m, st) && st.running
    ensures Held(m, r)
  {
    AtTime(m, st, e.time);
    match e
    case SessionStarted(time) => Run(st.(now := time), true)
    case ExternalEvent(time, ev) => Handle(m, st, Deliver(ev, true), time, budget)
    case TimerFired(time, sendId, target, typ, ev) => Handle(m, st, ReplayTimer(sendId, target, typ, ev), time, budget)
  }

  /** An entry arrives, and the queues are drained. */
  lemma EntryArrives(m: Model, st: St, e: LogEntry, budget: nat)
    requires WellFormedModel(m) && Live(m, st) && st.running
    ensures Live(m, Arrives(m, st, e))
    ensures ReplayEntry(m, st, e, budget) == if e.SessionStarted? then Run(Arrives(m, st, e), true)
      else Finish(m, Run(Arrives(m, st, e), true), budget)
  {
    hide WellFormedModel, Live, Finish, Enqueue, ReplayFire, Activate;
    ArrivesLive(m, st, e);
    AtTime(m, st, e.time);
  }

  lemma SameEnqueue(q: Mail, q': Mail, ev: Event)
    requires SameMail(q, q')
    ensures SameMail(Enqueue(q, ev), Enqueue(q', ev))
  {
    SameInternal(q, q', ev);
    QueueKept(q, EnqueueExternal(q, ev), [ev], []);
    QueueKept(q', EnqueueExternal(q', ev), [ev], []);
  }

  lemma SameWithMail(a: St, b: St, now: int, q: Mail, q': Mail)
    requires SameButEvent(a, b) && SameMail(q, q')
    ensures SameButEvent(a.(now := now, mail := q), b.(now := now, mail := q'))
    ensures SameButEvent(a.(now := now), b.(now := now)) && SameMail(a.mail, b.mail) && a.byId == b.byId
  {}

  lemma SameArrives(m: Model, a: St, b: St, e: LogEntry)
    requires SameButEvent(a, b)
    ensures SameButEvent(Arrives(m, a, e), Arrives(m, b, e)) && Arrives(m, a, e).event == a.event
      && Arrives(m, b, e).event == b.event
  {
    hide Enqueue, ReplayFire, SameMail, SameButEvent;
    MailOf(a, b);
    match e
    case SessionStarted(time) => SameWithMail(a, b, time, a.mail, b.mail);
    case ExternalEvent(time, ev) =>
      SameEnqueue(a.mail, b.mail, ev);
      SameWithMail(a, b, time, Enqueue(a.mail, ev), Enqueue(b.mail, ev));
    case TimerFired(time, sendId, target, typ, ev) =>
      SameReplayFire(m, a.mail, b.mail, sendId, target, typ, ev);
      SameWithMail(a, b, time, ReplayFire(m, a.mail, sendId, target, typ, ev),
        ReplayFire(m, b.mail, sendId, target, typ, ev));
  }

  lemma MailOf(a: St, b: St)
    requires SameButEvent(a, b)
    ensures SameMail(a.mail, b.mail) && a.byId == b.byId
  {}

  lemma DispatchCounts(m: Model, q: Mail, sendId: string, target: string, typ: string, ev: Event)
    ensures Dispatch(m, q, sendId, target, typ, ev).sendSeq == q.sendSeq
  {}

  lemma ReplayFireCounts(m: Model, q: Mail, sendId: string, target: string, typ: string, ev: Event)
    ensures ReplayFire(m, q, sendId, target, typ, ev).sendSeq == q.sendSeq
  {
    hide Dispatch;
    DispatchCounts(m, q, sendId, target, typ, ev);
    var best := BestMatch(q.pending, sendId, target, typ, ev.name);
    if best.Some? { DispatchCounts(m, Due(q, best.value), sendId, target, typ, ev); }
  }

  /** What arrives changes nothing that a condition can read. */
  lemma ArrivalUnseen(m: Model, st: St, e: LogEntry)
    requires Tree(m.chart)
    ensures Calm(m, st) ==> Calm(m, Arrives(m, st, e))
  {
    hide ReplayFire, Select, Enabled;
    var st' := Arrives(m, st, e);
    if e.TimerFired? { ReplayFireCounts(m, st.mail, e.sendId, e.target, e.typ, e.event); }
    assert ViewOf(st') == ViewOf(st);
  }

  lemma RestingArrives(m: Model, a: St, b: St, e: LogEntry)
    requires WellFormedModel(m) && Resting(m, a, b)
    ensures Resting(m, Arrives(m, a, e), Arrives(m, b, e))
  {
    hide Live, SameButEvent, Calm, Arrives;
    SameArrives(m, a, b, e);
    ArrivesLive(m, a, e);
    ArrivesLive(m, b, e);
    ArrivalUnseen(m, a, e);
  }

  lemma MatchedFacts(m: Model, r: Run, s: Run)
    requires Tree(m.chart) && Matched(m, r, s)
    ensures r.finished == s.finished && r.st.running == s.st.running && r.st.completed == s.st.completed
      && SameButEvent(r.st, s.st)
    ensures r.finished && r.st.running ==> Same(r.st, s.st) || Resting(m, r.st, s.st)
  {}

  lemma SameEntry(m: Model, a: St, b: St, e: LogEntry, budget: nat)
    requires WellFormedModel(m) && Live(m, a) && Live(m, b) && a.running && b.running && Same(a, b)
    ensures SameRun(ReplayEntry(m, a, e, budget), ReplayEntry(m, b, e, budget))
  {
    hide WellFormedModel, Live, Finish, Arrives, SameButEvent, ReplayEntry;
    SameIsSameButEvent(a, b);
    SameArrives(m, a, b, e);
    ArrivesLive(m, a, e);
    ArrivesLive(m, b, e);
    EntryArrives(m, a, e, budget);
    EntryArrives(m, b, e, budget);
    assert Same(Arrives(m, a, e), Arrives(m, b, e));
    if !e.SessionStarted? { SameFinish(m, Run(Arrives(m, a, e), true), Run(Arrives(m, b, e), true), budget); }
  }

  lemma RestingEntry(m: Model, a: St, b: St, e: LogEntry, budget: nat)
    requires WellFormedModel(m) && EventlessBlind(m) && Resting(m, a, b) && Live(m, a) && Live(m, b) && a.running
      && b.running
    ensures Matched(m, ReplayEntry(m, a, e, budget), ReplayEntry(m, b, e, budget))
  {
    hide WellFormedModel, EventlessBlind, Live, Finish, Arrives, SameButEvent, Resting, Matched, ReplayEntry;
    TreeOf(m);
    RestingArrives(m, a, b, e);
    EntryArrives(m, a, e, budget);
    EntryArrives(m, b, e, budget);
    if e.SessionStarted? { RestingMatches(m, Arrives(m, a, e), Arrives(m, b, e), true); }
    else { BlindFinish(m, Arrives(m, a, e), Arrives(m, b, e), budget); }
  }

  // ---- the log ----

  /** Where a replay got to, and whether it failed on an entry that cannot follow completion. */
  datatype Replayed = Replayed(run: Run, failed: bool)

  /** An entry met while the machine does not run: after completion external events are skipped; a
      session start only sets the clock, and only before completion; anything else is an error. */
  function Idles(st: St, e: LogEntry): Option<St> {
    if st.completed then if e.ExternalEvent? then Some(st) else None
    else if e.SessionStarted? then Some(st.(now := e.time)) else None
  }

  lemma IdlesHeld(m: Model, st: St, e: LogEntry)
    requires Held(m, Run(st, true)) && !st.running
    ensures Idles(st, e).Some? ==> Held(m, Run(Idles(st, e).value, true))
    ensures Held(m, Run(st.(now := e.time), true))
  {}

  /** The loop over the log (replay.go:255-276). */
  ghost function Replay(m: Model, r: Run, log: seq<LogEntry>, budget: nat): (d: Replayed)
    requires WellFormedModel(m) && Held(m, r)
    ensures Held(m, d.run)
    decreases |log|
  {
    if log == [] || !r.finished then Replayed(r, false)
    else if r.st.running then
      LiveWhileRunning(m, r);
      Replay(m, ReplayEntry(m, r.st, log[0], budget), log[1..], budget)
    else
      IdlesHeld(m, r.st, log[0]);
      match Idles(r.st, log[0])
      case None => Replayed(r, true)
      case Some(st) => Replay(m, Run(st, true), log[1..], budget)
  }

  /** The whole replay (replay.go:247-276): the first entry alone may be a session start after completion. */
  ghost function Rehydrate(m: Model, r: Run, log: seq<LogEntry>, budget: nat): (d: Replayed)
    requires WellFormedModel(m) && Held(m, r)
    ensures Held(m, d.run)
  {
    if log == [] || !r.finished || r.st.running then Replay(m, r, log, budget)
    else if !log[0].SessionStarted? then Replayed(r, true)
    else
      IdlesHeld(m, r.st, log[0]);
      Replay(m, Run(r.st.(now := log[0].time), true), log[1..], budget)
  }

  lemma ReplayUnrolled(m: Model, r: Run, log: seq<LogEntry>, budget: nat)
    requires WellFormedModel(m) && Held(m, r)
    ensures r.finished && r.st.running ==> Live(m, r.st)
    ensures r.finished && !r.st.running && log != [] && Idles(r.st, log[0]).Some? ==>
      Held(m, Run(Idles(r.st, log[0]).value, true))
    ensures Replay(m, r, log, budget) ==
              if log == [] || !r.finished then Replayed(r, false)
              else if r.st.running then Replay(m, ReplayEntry(m, r.st, log[0], budget), log[1..], budget)
              else if Idles(r.st, log[0]).Some? then Replay(m, Run(Idles(r.st, log[0]).value, true), log[1..], budget)
              else Replayed(r, true)
  {
    hide WellFormedModel, ReplayEntry, Idles;
    if r.finished && !r.st.running && log != [] { IdlesHeld(m, r.st, log[0]); }
  }

  /** A machine that does not run: after completion external events are skipped and any other entry is an error;
      before, a session start sets the clock and any other entry is an error. */
  lemma ReplayWhenStopped(m: Model, st: St, e: LogEntry, budget: nat)
    requires WellFormedModel(m) && Held(m, Run(st, true)) && !st.running
    ensures var d := Replay(m, Run(st, true), [e], budget);
      if st.completed then d == Replayed(Run(st, true), !e.ExternalEvent?)
      else d == Replayed(Run(if e.SessionStarted? then st.(now := e.time) else st, true), !e.SessionStarted?)
  {
    hide WellFormedModel, Held, Replay;
    assert [e][1..] == [];
    ReplayUnrolled(m, Run(st, true), [e], budget);
    IdlesHeld(m, st, e);
    if Idles(st, e).Some? { ReplayUnrolled(m, Run(Idles(st, e).value, true), [], budget); }
  }

  /** Replaying a log in two parts. */
  lemma {:induction false} ReplayAppend(m: Model, r: Run, log: seq<LogEntry>, more: seq<LogEntry>, budget: nat)
    requires WellFormedModel(m) && Held(m, r)
    ensures var d := Replay(m, r, log, budget);
      !d.failed ==> Replay(m, r, log + more, budget) == Replay(m, d.run, more, budget)
    decreases |log|
  {
    hide WellFormedModel, Held, ReplayEntry, Replay;
    ReplayUnrolled(m, r, log, budget);
    ReplayUnrolled(m, r, log + more, budget);
    if log == [] {
      assert log + more == more;
    } else {
      assert (log + more)[0] == log[0] && (log + more)[1..] == log[1..] + more;
      if !r.finished { ReplayUnrolled(m, r, more, budget); }
      else if r.st.running { ReplayAppend(m, ReplayEntry(m, r.st, log[0], budget), log[1..], more, budget); }
      else if Idles(r.st, log[0]).Some? {
        ReplayAppend(m, Run(Idles(r.st, log[0]).value, true), log[1..], more, budget);
      }
    }
  }

  lemma IdlesMatch(m: Model, r: Run, s: Run, e: LogEntry)
    requires Tree(m.chart) && Matched(m, r, s) && !r.st.running
    ensures Idles(r.st, e).Some? == Idles(s.st, e).Some?
    ensures Idles(r.st, e).Some? ==> Matched(m, Run(Idles(r.st, e).value, true), Run(Idles(s.st, e).value, true))
  {
    MatchedFacts(m, r, s);
    MailOf(r.st, s.st);
    SameWithMail(r.st, s.st, e.time, r.st.mail, s.st.mail);
    hide SameButEvent;
  }

  lemma {:induction false} ReplaysMatch(m: Model, r: Run, s: Run, log: seq<LogEntry>, budget: nat)
    requires WellFormedModel(m) && EventlessBlind(m) && Held(m, r) && Held(m, s) && Tree(m.chart) && Matched(m, r, s)
    ensures var d, f := Replay(m, r, log, budget), Replay(m, s, log, budget);
      d.failed == f.failed && d.run.finished == f.run.finished && SameButEvent(d.run.st, f.run.st)
    decreases |log|
  {
    hide WellFormedModel, EventlessBlind, Held, ReplayEntry, Replay, Matched, Same, SameButEvent, Resting, Live;
    MatchedFacts(m, r, s);
    ReplayUnrolled(m, r, log, budget);
    ReplayUnrolled(m, s, log, budget);
    if log != [] && r.finished {
      if r.st.running {
        if Same(r.st, s.st) {
          SameEntry(m, r.st, s.st, log[0], budget);
          SameRunMatches(m, ReplayEntry(m, r.st, log[0], budget), ReplayEntry(m, s.st, log[0], budget));
        } else {
          RestingEntry(m, r.st, s.st, log[0], budget);
        }
        ReplaysMatch(m, ReplayEntry(m, r.st, log[0], budget), ReplayEntry(m, s.st, log[0], budget), log[1..], budget);
      } else {
        IdlesMatch(m, r, s, log[0]);
        if Idles(r.st, log[0]).Some? {
          ReplaysMatch(m, Run(Idles(r.st, log[0]).value, true), Run(Idles(s.st, log[0]).value, true), log[1..], budget);
        }
      }
    }
  }

  /** A good moment for a checkpoint: everything has been processed, and no eventless transition is enabled. */
  ghost predicate CanCheckpoint(m: Model, st: St)
    requires Tree(m.chart)
  {
    Calm(m, st) && Idle(st) && !st.completed
  }

  /** A checkpoint of what replaying `log` led to, restored at that moment. */
  lemma RestoredRests(m: Model, st: St, rs: seq<Running>)
    requires WellFormedModel(m) && Live(m, st) && CanCheckpoint(m, st) && Restorable(m, st)
      && Lists(m.chart, rs, st.byId)
    ensures var back := RestoreFrom(m.chart, BuildSnapshot(m.chart, st, rs), st.now);
      back.Some? && Resting(m, st, back.value)
  {
    hide Live;
    SnapshotRoundTrip(m, st, rs);
  }

  lemma ListsKnown(c: Chart, rs: seq<Running>, byId: map<string, Running>)
    requires Lists(c, rs, byId)
    ensures forall i :: 0 <= i < |rs| ==> KnownSpec(c, rs[i])
  {}

  lemma RestoredReplays(m: Model, st: St, rs: seq<Running>, more: seq<LogEntry>, budget: nat)
    requires WellFormedModel(m) && EventlessBlind(m) && Live(m, st) && CanCheckpoint(m, st)
      && Restorable(m, st) && Lists(m.chart, rs, st.byId) && Held(m, Run(st, true))
    ensures var back := RestoreFrom(m.chart, BuildSnapshot(m.chart, st, rs), st.now);
            && back.Some? && Held(m, Run(back.value, true))
            && var d, f := Replay(m, Run(st, true), more, budget), Rehydrate(m, Run(back.value, true), more, budget);
               d.failed == f.failed && d.run.finished == f.run.finished && SameButEvent(d.run.st, f.run.st)
  {
    hide *;
    TreeOf(m);
    ListsKnown(m.chart, rs, st.byId);
    RestoredRests(m, st, rs);
    var back := RestoreFrom(m.chart, BuildSnapshot(m.chart, st, rs), st.now).value;
    RestingLive(m, st, back);
    HeldWhileLive(m, back);
    RestingMatches(m, st, back, true);
    ReplaysMatch(m, Run(st, true), Run(back, true), more, budget);
    RehydrateRunning(m, back, more, budget);
  }

  lemma RehydrateRunning(m: Model, st: St, log: seq<LogEntry>, budget: nat)
    requires WellFormedModel(m) && Held(m, Run(st, true)) && st.running
    ensures Rehydrate(m, Run(st, true), log, budget) == Replay(m, Run(st, true), log, budget)
  {
    hide WellFormedModel, Held, Replay;
  }

  lemma CheckpointRuns(m: Model, r: Run)
    requires Tree(m.chart) && Held(m, r) && r.finished && CanCheckpoint(m, r.st)
    ensures r == Run(r.st, true) && Live(m, r.st) && r.st.running
  {}

  /** A checkpoint is taken while the machine runs, and from there on replay is the loop alone. */
  lemma RehydrateAppend(m: Model, r: Run, log: seq<LogEntry>, more: seq<LogEntry>, budget: nat)
    requires WellFormedModel(m) && Held(m, r)
    ensures var d := Rehydrate(m, r, log, budget);
            !d.failed && d.run.finished && d.run.st.running ==>
              Rehydrate(m, r, log + more, budget) == Replay(m, d.run, more, budget)
  {
    hide WellFormedModel, Held, Replay;
    ReplayAppend(m, r, log, more, budget);
    if log == [] {
      assert log + more == more;
      ReplayUnrolled(m, r, log, budget);
    } else {
      assert (log + more)[0] == log[0] && (log + more)[1..] == log[1..] + more;
      if r.finished && !r.st.running {
        if log[0].SessionStarted? {
          IdlesHeld(m, r.st, log[0]);
          ReplayAppend(m, Run(r.st.(now := log[0].time), true), log[1..], more, budget);
        }
      }
    }
  }

  /** Two replays that end alike: in the same configuration, history, queues, counters, data,
      invocations and pending sends. */
  ghost predicate EndAlike(d: Replayed, f: Replayed) {
    d.failed == f.failed && d.run.finished == f.run.finished && SameButEvent(d.run.st, f.run.st)
  }

  /** A checkpoint taken where `log` led to and restored, with the rest of the log replayed from it, ends
      as the whole log does. */
  lemma CalmCheckpoint(m: Model, now: int, early: bool, log: seq<LogEntry>, more: seq<LogEntry>, rs: seq<Running>,
    budget: nat)
    requires WellFormedModel(m) && EventlessBlind(m)
    requires var d := Rehydrate(m, Boot(m, now, early, budget), log, budget);
             !d.failed && d.run.finished && CanCheckpoint(m, d.run.st) && Restorable(m, d.run.st)
               && Lists(m.chart, rs, d.run.st.byId)
    ensures var st := Rehydrate(m, Boot(m, now, early, budget), log, budget).run.st;
            var back := RestoreFrom(m.chart, BuildSnapshot(m.chart, st, rs), st.now);
            && back.Some? && Held(m, Run(back.value, true))
            && EndAlike(Rehydrate(m, Boot(m, now, early, budget), log + more, budget),
              Rehydrate(m, Run(back.value, true), more, budget))
  {
    hide *;
    TreeOf(m);
    var r := Boot(m, now, early, budget);
    var d := Rehydrate(m, r, log, budget);
    CheckpointRuns(m, d.run);
    ListsKnown(m.chart, rs, d.run.st.byId);
    RestoredReplays(m, d.run.st, rs, more, budget);
    RehydrateAppend(m, r, log, more, budget);
    EndsAlike(Rehydrate(m, r, log + more, budget),
      Rehydrate(m, Run(RestoreFrom(m.chart, BuildSnapshot(m.chart, d.run.st, rs), d.run.st.now).value, true), more,
      budget));
  }

  lemma EndsAlike(d: Replayed, f: Replayed)
    requires d.failed == f.failed && d.run.finished == f.run.finished && SameButEvent(d.run.st, f.run.st)
    ensures EndAlike(d, f)
  {}

  // ---- every replay stops calm ----

  /** A run that ended with the machine running ended calm, with nothing left in the internal queue. */
  ghost predicate Poised(m: Model, r: Run)
    requires Tree(m.chart)
  {
    r.finished && r.st.running ==> Calm(m, r.st) && r.st.mail.internalQueue == []
  }

  lemma FinishIsPoised(m: Model, r: Run, budget: nat)
    requires WellFormedModel(m) && InvokesUnseen(m) && Live(m, r.st) && (r.finished && r.st.running ==> Calm(m, r.st))
    ensures Poised(m, Finish(m, r, budget))
  {
    hide Live, WellFormedModel, InvokesUnseen, Drain, ExitInterpreter, Calm;
    TreeOf(m);
    if r.finished {
      DrainIsCalm(m, r.st, budget);
      var d := Drain(m, r.st, budget);
      ExitStaysStopped(m, d.st);
    }
  }

  lemma ExitStaysStopped(m: Model, st: St)
    requires Live(m, st)
    ensures ExitInterpreter(m, st).running == st.running
  {
    ExitEachIs(m, st, ExitOrder(m.chart, st.config));
  }

  lemma BootIsPoised(m: Model, now: int, early: bool, budget: nat)
    requires WellFormedModel(m) && InvokesUnseen(m)
    ensures Poised(m, Boot(m, now, early, budget))
  {
    hide Live, InvokesUnseen, Calm, RunToStable, Finish;
    EnteredIsLive(m, now, early);
    SettlesCalm(m, Entered(m, now, early), budget);
    FinishIsPoised(m, Start(m, now, early, budget), budget);
  }

  lemma EntryIsPoised(m: Model, st: St, e: LogEntry, budget: nat)
    requires WellFormedModel(m) && InvokesUnseen(m) && Live(m, st) && st.running && Poised(m, Run(st, true))
    ensures Poised(m, ReplayEntry(m, st, e, budget))
  {
    hide WellFormedModel, InvokesUnseen, Live, Calm, Finish, ReplayEntry;
    TreeOf(m);
    EntryArrives(m, st, e, budget);
    ArrivalUnseen(m, st, e);
    if e.SessionStarted? {} else { FinishIsPoised(m, Run(Arrives(m, st, e), true), budget); }
  }

  lemma {:induction false} ReplayIsPoised(m: Model, r: Run, log: seq<LogEntry>, budget: nat)
    requires WellFormedModel(m) && InvokesUnseen(m) && Held(m, r) && Poised(m, r)
    ensures Poised(m, Replay(m, r, log, budget).run)
    decreases |log|
  {
    hide WellFormedModel, InvokesUnseen, Held, ReplayEntry, Replay, Live, Calm;
    TreeOf(m);
    ReplayUnrolled(m, r, log, budget);
    if log != [] && r.finished {
      if r.st.running {
        EntryIsPoised(m, r.st, log[0], budget);
        ReplayIsPoised(m, ReplayEntry(m, r.st, log[0], budget), log[1..], budget);
      } else if Idles(r.st, log[0]).Some? {
        ReplayIsPoised(m, Run(Idles(r.st, log[0]).value, true), log[1..], budget);
      }
    }
  }

  lemma RehydrateIsPoised(m: Model, r: Run, log: seq<LogEntry>, budget: nat)
    requires WellFormedModel(m) && InvokesUnseen(m) && Held(m, r) && Poised(m, r)
    ensures Poised(m, Rehydrate(m, r, log, budget).run)
  {
    hide WellFormedModel, InvokesUnseen, Held, Replay, Calm;
    TreeOf(m);
    ReplayIsPoised(m, r, log, budget);
    if log != [] && r.finished && !r.st.running && log[0].SessionStarted? {
      IdlesHeld(m, r.st, log[0]);
      ReplayIsPoised(m, Run(r.st.(now := log[0].time), true), log[1..], budget);
    }
  }

  lemma PoisedCanCheckpoint(m: Model, r: Run)
    requires Tree(m.chart) && Held(m, r) && Poised(m, r) && r.finished && r.st.running && r.st.mail.externalQueue == []
    ensures CanCheckpoint(m, r.st)
  {}

  /** Checkpoint transparency.  Where conditions of eventless transitions read neither the last event nor
      what starting invocations changes, every log may be split wherever its replay is running with no
      external event queued: replaying the rest from the restored checkpoint ends as the whole log does. */
  lemma CheckpointIsTransparent(m: Model, now: int, early: bool, log: seq<LogEntry>, more: seq<LogEntry>,
    rs: seq<Running>, budget: nat)
    requires WellFormedModel(m) && EventlessBlind(m) && InvokesUnseen(m)
    requires var d := Rehydrate(m, Boot(m, now, early, budget), log, budget);
             !d.failed && d.run.finished && d.run.st.running && d.run.st.mail.externalQueue == []
               && Restorable(m, d.run.st) && Lists(m.chart, rs, d.run.st.byId)
    ensures var st := Rehydrate(m, Boot(m, now, early, budget), log, budget).run.st;
            var back := RestoreFrom(m.chart, BuildSnapshot(m.chart, st, rs), st.now);
            && back.Some? && Held(m, Run(back.value, true))
            && EndAlike(Rehydrate(m, Boot(m, now, early, budget), log + more, budget),
              Rehydrate(m, Run(back.value, true), more, budget))
  {
    hide *;
    TreeOf(m);
    var r := Boot(m, now, early, budget);
    BootIsPoised(m, now, early, budget);
    RehydrateIsPoised(m, r, log, budget);
    PoisedCanCheckpoint(m, Rehydrate(m, r, log, budget).run);
    ListsKnown(m.chart, rs, Rehydrate(m, r, log, budget).run.st.byId);
    CalmCheckpoint(m, now, early, log, more, rs, budget);
  }

  lemma HeldWhileLive(m: Model, st: St)
    requires Live(m, st)
    ensures st.running ==> Held(m, Run(st, true))
  {}
}
