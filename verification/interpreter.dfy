/**
 The interpreter as an object whose methods change its fields step by step (interpreter.go:95-1568).
 Every method computes, on the view of the fields, the function of the same purpose in Machine,
 Macrosteps and Instances, so what those modules prove of the functions holds of the object.
 */
module Interpreter {
  import opened Charts
  import opened Validator
  import opened WellFormed
  import opened EntrySets
  import opened Transitions
  import opened Selection
  import opened Microsteps
  import opened EntryBuilders
  import opened Machine
  import opened Bookkeeping
  import opened Invocations
  import opened Steps
  import opened Runs
  import opened Macrosteps
  import opened Instances

  lemma {:induction false} InsertAt(ps: seq<Pending>, r: Pending, i: nat)
    requires i <= |ps| && (forall j :: 0 <= j < i ==> !Before(r, ps[j])) && (i < |ps| ==> Before(r, ps[i]))
    ensures InsertPending(ps, r) == ps[..i] + [r] + ps[i..]
  {
    if i > 0 {
      InsertAt(ps[1..], r, i - 1);
      assert ps[..i] == [ps[0]] + ps[1..][..i - 1] && ps[i..] == ps[1..][i - 1..];
    }
  }

  lemma {:induction false} ReportMore(q: Mail, a: nat, b: nat)
    ensures ReportErrors(ReportErrors(q, a), b) == ReportErrors(q, a + b)
  {
    if b > 0 { ReportMore(q, a, b - 1); }
  }

  class Interpretation {
    const m: Model
    var configuration: set<int>
    var historyValue: History
    var internalQueue: seq<Event>
    var externalQueue: seq<Event>
    var running: bool
    var completed: bool
    var lastEvent: Option<Event>
    var initializedData: set<int>
    var data: Data
    var pending: seq<Pending>
    var sendSeq: nat
    var dispatchSeq: nat
    var pendingSeq: nat
    var statesToInvoke: set<int>
    var activeInvokes: map<int, seq<Running>>
    var invokesById: map<string, Running>
    var invokeSeq: nat
    var clock: int
    ghost var arrived: seq<Event>
    ghost var dispatched: seq<nat>
    ghost var dropped: seq<nat>
    ghost var raised: seq<Event>
    ghost var requests: seq<Request>
    ghost var trace: Trace

    ghost function Post(): Mail
      reads this
    {
      Mail(internalQueue, externalQueue, pending, pendingSeq, sendSeq, dispatchSeq, arrived, dispatched, dropped,
        raised, requests)
    }

    ghost function State(): St
      reads this
    {
      St(configuration, historyValue, running, completed, lastEvent, initializedData, data, statesToInvoke,
        activeInvokes, invokesById, invokeSeq, clock, Post(), trace)
    }

    /** What executable content and guards can see. */
    function Sight(): (v: View)
      reads this
      ensures v == ViewOf(State())
    {
      View(data, configuration, lastEvent, sendSeq, invokeSeq)
    }

    /** newInterpretation (interpreter.go:95-111). */
    constructor (m: Model, now: int)
      ensures this.m == m && State() == Fresh(m, now)
    {
      this.m := m;
      configuration, historyValue, internalQueue, externalQueue := {}, map[], [], [];
      running, completed, lastEvent, initializedData, data := false, false, None, {}, m.initial;
      pending, sendSeq, dispatchSeq, pendingSeq := [], 0, 0, 0;
      statesToInvoke, activeInvokes, invokesById, invokeSeq, clock := {}, map[], map[], 0, now;
      arrived, dispatched, dropped, raised, requests, trace := [], [], [], [], [], NO_TRACE;
    }

    // ---- queues and sends ----

    method EnqueueInternal(ev: Event)
      modifies `internalQueue, `raised
      ensures State() == Raised(old(State()), ev)
    {
      internalQueue := internalQueue + [ev];
      raised := raised + [ev];
    }

    method EnqueueExternal(ev: Event)
      modifies `externalQueue, `arrived
      ensures State() == old(State()).(mail := Machine.EnqueueExternal(old(Post()), ev))
    {
      externalQueue := externalQueue + [ev];
      arrived := arrived + [ev];
    }

    /** enqueue (interpreter.go:182-188). */
    method Enqueue(ev: Event)
      modifies `internalQueue, `raised, `externalQueue, `arrived
      ensures State() == old(State()).(mail := Machine.Enqueue(old(Post()), ev))
    {
      if ev.kind == External { EnqueueExternal(ev); } else { EnqueueInternal(ev); }
    }

    method DispatchToProcessor(sendId: string, target: string, typ: string, ev: Event)
      modifies `internalQueue, `raised, `dispatchSeq, `requests
      ensures State() == old(State()).(mail := ToProcessor(m, old(Post()), sendId, target, typ, ev))
    {
      dispatchSeq := dispatchSeq + 1;
      var request := Request(dispatchSeq, sendId, ev.sendId, target, typ, ev.name, ev.data);
      requests := requests + [request];
      match m.deliver(request) {
        case Accepted =>
        case CommunicationFailed => EnqueueInternal(PlatformEvent(ErrCommunication, sendId, ""));
        case ExecutionFailed => EnqueueInternal(PlatformEvent(ErrExecution, sendId, ""));
      }
    }

    /** dispatchNow (interpreter.go:273-315). */
    method DispatchNow(sendId: string, target: string, typ: string, ev: Event)
      modifies `internalQueue, `raised, `externalQueue, `arrived, `dispatchSeq, `requests
      ensures State() == old(State()).(mail := Dispatch(m, old(Post()), sendId, target, typ, ev))
    {
      var canonical := CanonicalType(typ);
      if canonical !in m.processors {
        EnqueueInternal(PlatformEvent(ErrExecution, sendId, ""));
      } else if canonical != ScxmlProcessor {
        DispatchToProcessor(sendId, target, canonical, ev);
      } else if target == "#_internal" {
        EnqueueInternal(ev.(kind := Internal, origin := ""));
      } else if target == "" || target == "#_scxml_" + m.session {
        EnqueueExternal(Stamp(m, ev));
      } else {
        DispatchToProcessor(sendId, target, canonical, ev);
      }
    }

    /** The end of doSend: a record joins the pending set, which is kept in (fireAt, order) order. */
    method ArmTimer(sendId: string, target: string, typ: string, ev: Event, fireAt: int)
      modifies `pending, `pendingSeq
      ensures State() == old(State()).(mail := Arm(old(Post()), sendId, target, typ, ev, fireAt))
    {
      pendingSeq := pendingSeq + 1;
      var r := Pending(sendId, target, typ, ev, fireAt, pendingSeq);
      var i := 0;
      while i < |pending| && !Before(r, pending[i])
        invariant i <= |pending| && forall j :: 0 <= j < i ==> !Before(r, pending[j])
      {
        i := i + 1;
      }
      InsertAt(pending, r, i);
      pending := pending[..i] + [r] + pending[i..];
    }

    /** doSend (interpreter.go:227-264). */
    method Send(o: SendOptions)
      modifies `internalQueue, `raised, `externalQueue, `arrived, `dispatchSeq, `requests, `sendSeq, `pending,
        `pendingSeq
      ensures State() == old(State()).(mail := DoSend(m, old(clock), old(Post()), o))
    {
      if o.sendId != "" && o.idLocation.Some? {
        EnqueueInternal(PlatformEvent(ErrExecution, o.sendId, ""));
        return;
      }
      var sendId := o.sendId;
      if sendId == "" {
        sendSeq := sendSeq + 1;
        sendId := "send." + Decimal(sendSeq);
      }
      var eventSendId := o.sendId;
      if o.idLocation.Some? {
        if !o.idLocation.value {
          EnqueueInternal(PlatformEvent(ErrExecution, sendId, ""));
          return;
        }
        eventSendId := sendId;
      }
      var ev := Event(o.name, External, o.data, eventSendId, "", "");
      if o.delay <= 0 { DispatchNow(sendId, o.target, o.typ, ev); }
      else { ArmTimer(sendId, o.target, CanonicalType(o.typ), ev, clock + o.delay); }
    }

    /** doCancel (interpreter.go:398-411). */
    method CancelSend(id: string)
      modifies `pending, `dropped
      ensures State() == old(State()).(mail := DoCancel(old(Post()), id))
    {
      if id == "" { return; }
      var kept := [];
      ghost var gone := [];
      for i := 0 to |pending|
        invariant kept + WithSendId(pending[i..], id, true) == WithSendId(pending, id, true)
        invariant gone + WithSendId(pending[i..], id, false) == WithSendId(pending, id, false)
      {
        assert pending[i..][1..] == pending[i + 1..];
        if pending[i].event.sendId != id { kept := kept + [pending[i]]; } else { gone := gone + [pending[i]]; }
      }
      pending := kept;
      dropped := dropped + Orders(gone);
    }

    /** fireTimer (interpreter.go:352-358) for the record at position i. */
    method Fire(i: nat)
      requires i < |pending|
      modifies `pending, `internalQueue, `raised, `externalQueue, `arrived, `dispatchSeq, `requests, `dispatched
      ensures State() == old(State()).(mail := FireTimer(m, old(Post()), i))
    {
      var r := pending[i];
      pending := pending[..i] + pending[i + 1..];
      dispatched := dispatched + [r.order];
      DispatchNow(r.sendId, r.target, r.typ, r.event);
    }

    // ---- executable content ----

    method Execute(e: Effect)
      modifies `internalQueue, `raised, `externalQueue, `arrived, `dispatchSeq, `requests, `sendSeq, `pending,
        `pendingSeq, `dropped
      ensures State() == old(State()).(mail := Apply(m, old(clock), old(Post()), e))
    {
      match e {
        case Raise(name, payload) => EnqueueInternal(Event(name, Internal, payload, "", "", ""));
        case Send(o) => Send(o);
        case Cancel(id) => CancelSend(id);
        case Fail => EnqueueInternal(PlatformEvent(ErrExecution, "", ""));
      }
    }

    method ExecuteAll(d: Data, es: seq<Effect>)
      modifies `data, `internalQueue, `raised, `externalQueue, `arrived, `dispatchSeq, `requests, `sendSeq, `pending,
        `pendingSeq, `dropped
      ensures State() == Ran(m, old(State()), d, es)
    {
      data := d;
      for i := 0 to |es|
        invariant State() == old(State()).(data := d, mail := Post())
        invariant ApplyAll(m, clock, Post(), es[i..]) == ApplyAll(m, old(clock), old(Post()), es)
      {
        assert es[i..][1..] == es[i + 1..];
        Execute(es[i]);
      }
    }

    method NoteCall(call: Call)
      modifies `trace
      ensures State() == Logged(old(State()), call)
    {
      trace := trace.(calls := trace.calls + [call]);
    }

    method RunActionBlock(b: Block)
      modifies `data, `internalQueue, `raised, `externalQueue, `arrived, `dispatchSeq, `requests, `sendSeq, `pending,
        `pendingSeq, `dropped, `trace
      ensures State() == RunBlock(m, old(State()), b)
    {
      var o := m.run(Sight(), b);
      NoteCall(BlockRun(b, configuration));
      ExecuteAll(o.data, o.effects);
    }

    method RunFinalizeBlock(owner: int, spec: nat)
      modifies `data, `internalQueue, `raised, `externalQueue, `arrived, `dispatchSeq, `requests, `sendSeq, `pending,
        `pendingSeq, `dropped, `trace
      ensures State() == RunFinalize(m, old(State()), owner, spec)
    {
      var o := m.run(Sight(), Finalize(owner, spec));
      NoteCall(BlockRun(Finalize(owner, spec), configuration));
      ExecuteAll(o.data, Forbidden(o.effects));
    }

    // ---- entering and leaving states ----

    method RunInitializer(s: int)
      modifies `data, `internalQueue, `raised, `externalQueue, `arrived, `dispatchSeq, `requests, `sendSeq, `pending,
        `pendingSeq, `dropped, `initializedData, `trace
      ensures State() == RunBlock(m, old(State()), InitData(s)).(initialized := old(initializedData) + {s})
    {
      RunActionBlock(InitData(s));
      initializedData := initializedData + {s};
    }

    /** The handlers of enterState (interpreter.go:1006-1011). */
    method RunEntryHandlers(s: int, owners: seq<int>)
      modifies `data, `internalQueue, `raised, `externalQueue, `arrived, `dispatchSeq, `requests, `sendSeq, `pending,
        `pendingSeq, `dropped, `initializedData, `trace
      ensures State() == EntryHandlers(m, old(State()), s, owners)
    {
      if HasData(m.chart, s) && s !in initializedData { RunInitializer(s); }
      RunActionBlock(OnEntry(s));
      ghost var entered := State();
      for i := 0 to |owners|
        invariant RunDefaults(m, State(), owners[i..]) == RunDefaults(m, entered, owners)
      {
        assert owners[i..][1..] == owners[i + 1..];
        RunActionBlock(Default(owners[i]));
      }
    }

    /** The error, if the data of the final state s failed, and the events that its parent, and perhaps the
        parallel state around that, are done. */
    method RaiseDone(s: int, value: Option<Data>)
      requires Tree(m.chart)
      modifies `internalQueue, `raised
      ensures State() == old(State()).(mail := DoneMail(m.chart, old(configuration), old(Post()), s, value))
    {
      hide InFinalState, PlatformEvent;
      var c := m.chart;
      if value.None? { EnqueueInternal(PlatformEvent(ErrExecution, "", "")); }
      var p := Parent(c, s);
      if p <= 0 { return; }
      EnqueueInternal(Event("done.state." + Name(c, p), Platform, if value.Some? then value.value else [], "", "", ""));
      var g := Parent(c, p);
      if IsParallel(c, g) && InFinalState(c, configuration, g) {
        EnqueueInternal(PlatformEvent("done.state." + Name(c, g), "", ""));
      }
    }

    /** The tail of enterState for a final state (interpreter.go:1020-1059). */
    method EnterFinalState(s: int)
      requires Tree(m.chart)
      modifies `internalQueue, `raised, `completed, `running, `trace
      ensures State() == EnterFinal(m, old(State()), s)
    {
      assert configuration == State().config;
      hide State, Post, DoneMail;
      var value := m.done(Sight(), s);
      NoteDone(s);
      RaiseDone(s, value);
      StopIf(Parent(m.chart, s) <= 0);
    }

    method NoteDone(s: int)
      modifies `trace
      ensures State() == Logged(old(State()), DoneRead(s, old(State()).config))
      ensures Post() == State().mail && configuration == State().config
    {
      NoteCall(DoneRead(s, configuration));
    }

    method StopIf(top: bool)
      modifies `completed, `running
      ensures State() == old(State()).(completed := old(State()).completed || top, running :=
        old(State()).running && !top)
    {
      if top {
        completed := true;
        running := false;
      }
    }

    method Activate(s: int)
      modifies `configuration
      ensures State() == old(State()).(config := old(configuration) + {s})
    {
      configuration := configuration + {s};
    }

    method QueueInvocations(s: int)
      modifies `statesToInvoke
      ensures State() == QueueInvokes(m.chart, old(State()), s)
    {
      if Invokes(m.chart, s) != [] { statesToInvoke := statesToInvoke + {s}; }
    }

    /** enterState (interpreter.go:1004-1060). */
    method Enter(s: int, owners: seq<int>)
      requires Tree(m.chart)
      modifies this
      ensures State() == EnterState(m, old(State()), s, owners)
    {
      assert configuration == State().config;
      hide State, EntryHandlers, EnterFinal, QueueInvokes;
      Activate(s);
      RunEntryHandlers(s, owners);
      QueueInvocations(s);
      if KindOf(m.chart, s) == Final { EnterFinalState(s); }
    }

    /** cancelInvokes (interpreter.go:1074-1085). */
    method CancelInvocations(s: int)
      modifies `activeInvokes, `invokesById
      ensures State() == CancelInvokes(old(State()), s)
    {
      if s !in activeInvokes { return; }
      var rs := activeInvokes[s];
      for i := 0 to |rs|
        invariant activeInvokes == old(activeInvokes) && invokesById == old(invokesById) - Ids(rs[..i])
      {
        invokesById := invokesById - {rs[i].id};
        IdsGrow(rs, i);
      }
      assert rs[..|rs|] == rs;
      activeInvokes := activeInvokes - {s};
    }

    method Deactivate(s: int)
      modifies `statesToInvoke, `configuration
      ensures State() == old(State()).(statesToInvoke := old(State()).statesToInvoke - {s}, config :=
        old(State()).config - {s})
    {
      statesToInvoke := statesToInvoke - {s};
      configuration := configuration - {s};
    }

    /** exitState (interpreter.go:1062-1067). */
    method Exit(s: int)
      modifies this
      ensures State() == ExitState(m, old(State()), s)
    {
      hide State, RunBlock, CancelInvokes;
      RunActionBlock(OnExit(s));
      CancelInvocations(s);
      Deactivate(s);
    }

    method ExitAll(xs: seq<int>)
      modifies this
      ensures State() == ExitEach(m, old(State()), xs)
    {
      for i := 0 to |xs|
        invariant State() == ExitEach(m, old(State()), xs[..i])
      {
        assert xs[..i + 1][..i] == xs[..i];
        Exit(xs[i]);
      }
      assert xs[..|xs|] == xs;
    }

    /** The recording loop of exitStates (interpreter.go:1279-1302). */
    method RecordHistory(exits: seq<int>)
      modifies `historyValue
      ensures historyValue == RecordAll(m.chart, configuration, exits, old(historyValue))
    {
      var c := m.chart;
      for i := 0 to |exits|
        invariant RecordAll(c, configuration, exits[i..], historyValue) ==
          RecordAll(c, configuration, exits, old(historyValue))
      {
        assert exits[i..][1..] == exits[i + 1..];
        var ks := Children(c, exits[i]);
        ghost var before := historyValue;
        for j := 0 to |ks|
          invariant RecordChildren(c, configuration, ks[j..], historyValue) ==
            RecordChildren(c, configuration, ks, before)
        {
          assert ks[j..][1..] == ks[j + 1..];
          if IsHistory(c, ks[j]) { historyValue := historyValue[ks[j] := Recorded(c, configuration, ks[j])]; }
        }
      }
    }

    // ---- invocations ----

    /** The loop of beginInvoke that looks for a free generated ID (interpreter.go:1107-1116). */
    method NextInvokeId(prefix: string, reserved: set<string>) returns (id: string)
      modifies `invokeSeq
      ensures invokeSeq == FreshSeq(prefix, old(invokeSeq), reserved) && id == prefix + Decimal(invokeSeq)
    {
      ghost var free := FreshSeq(prefix, invokeSeq, reserved);
      FreshSeqIsFirst(prefix, invokeSeq, reserved);
      invokeSeq := invokeSeq + 1;
      id := prefix + Decimal(invokeSeq);
      while id in reserved
        invariant old(invokeSeq) < invokeSeq <= free && id == prefix + Decimal(invokeSeq)
        decreases free - invokeSeq
      {
        invokeSeq := invokeSeq + 1;
        id := prefix + Decimal(invokeSeq);
      }
    }

    method NoteRefused(d: Data, report: string, invokeId: string)
      modifies `data, `internalQueue, `raised
      ensures State() == Raised(old(State()).(data := d), PlatformEvent(report, "", invokeId))
    {
      data := d;
      EnqueueInternal(PlatformEvent(report, "", invokeId));
    }

    method NoteStarted(d: Data, r: Running)
      modifies `data, `activeInvokes, `invokesById
      ensures State() == StartedInvoke(old(State()), d, r)
    {
      data := d;
      activeInvokes := activeInvokes[r.owner :=
        (if r.owner in activeInvokes then activeInvokes[r.owner] else []) + [r]];
      invokesById := invokesById[r.id := r];
    }

    /** The ID of the k-th invocation of s: the declared one, or a generated one. */
    method InvokeId(s: int, k: nat) returns (id: string)
      requires k < |Invokes(m.chart, s)|
      modifies `invokeSeq
      ensures State() == old(State()).(invokeSeq := InvokeNumber(m.chart, old(State()), s, k))
      ensures id == InvokeName(m.chart, s, k, InvokeNumber(m.chart, old(State()), s, k))
    {
      id := Invokes(m.chart, s)[k].id;
      if id == "" { id := NextInvokeId(InvokePrefix(m.chart, s), invokesById.Keys + DeclaredIds(m.chart)); }
    }

    /** beginInvoke (interpreter.go:1106-1137). */
    method StartInvocation(s: int, k: nat)
      requires k < |Invokes(m.chart, s)|
      modifies this
      ensures State() == BeginInvoke(m, old(State()), s, k)
    {
      hide State, InvokeNumber, InvokeName, StartedInvoke, Raised, Logged;
      var id := InvokeId(s, k);
      NoteCall(InvokeBegun(s, k));
      match m.invoke(Sight(), s, k, id) {
        case Refused(d, report, invokeId) => NoteRefused(d, report, invokeId);
        case Started(d, typ, source) => NoteStarted(d,
          Running(id, s, k, InvokeType(Invokes(m.chart, s)[k], typ), source));
      }
    }

    method TakeWaiting() returns (xs: seq<int>)
      modifies `statesToInvoke
      ensures xs == SortAsc(old(State()).statesToInvoke, |m.chart.states|)
        && State() == old(State()).(statesToInvoke := {})
    {
      xs := SortAsc(statesToInvoke, |m.chart.states|);
      statesToInvoke := {};
    }

    method StartInvocationsOf(s: int)
      modifies this
      ensures State() == BeginFrom(m, old(State()), s, |Invokes(m.chart, s)|)
    {
      hide State, BeginInvoke;
      for k := 0 to |Invokes(m.chart, s)|
        invariant State() == BeginFrom(m, old(State()), s, k)
      {
        StartInvocation(s, k);
      }
    }

    /** processInvokes (interpreter.go:1093-1104). */
    method StartInvocations()
      modifies this
      ensures State() == ProcessInvokes(m, old(State()))
    {
      hide State, BeginFrom;
      var xs := TakeWaiting();
      ghost var before := State();
      for i := 0 to |xs|
        invariant State() == BeginEach(m, before, xs[..i])
      {
        StartInvocationsOf(xs[i]);
        assert xs[..i + 1][..i] == xs[..i];
      }
      assert xs[..|xs|] == xs;
    }

    // ---- selection ----

    /** eventMatches, and its counterpart without an event (interpreter.go:1321-1328, 1346-1350, 1369-1373). */
    method MatchesDescriptors(t: Transition, ev: Option<Event>) returns (matched: bool)
      ensures matched == MatchesEvent(m, t, ev)
    {
      if ev.None? { return t.events == []; }
      for i := 0 to |t.events|
        invariant forall j :: 0 <= j < i ==> !m.matches(t.events[j], ev.value.name)
      {
        if m.matches(t.events[i], ev.value.name) { return true; }
      }
      return false;
    }

    /** condMatches, for a transition that awaits the event (interpreter.go:1330-1340): a guard that fails is
        reported and does not hold. */
    method AskGuard(t: Transition, ev: Option<Event>) returns (holds: bool)
      modifies `internalQueue, `raised
      ensures holds == Enabled(m, old(Sight()), ev)(t)
      ensures State() == Reported(old(State()), if MatchesEvent(m, t, ev)
        && m.guard(old(Sight()), t.source, t.index) == Errs then 1 else 0)
    {
      hide MatchesEvent, PlatformEvent, ErrExecution;
      var matched := MatchesDescriptors(t, ev);
      if !matched { return false; }
      var verdict := m.guard(Sight(), t.source, t.index);
      if verdict == Errs { EnqueueInternal(PlatformEvent(ErrExecution, "", "")); }
      assert ReportErrors(old(Post()), 1) == ReportError(ReportErrors(old(Post()), 0));
      return verdict == Holds;
    }

    /** One state's transitions in order: the first enabled one, reporting the guards that fail on the way. */
    method ScanState(x: int, ev: Option<Event>) returns (t: Option<Transition>)
      modifies `internalQueue, `raised
      ensures t == FirstEnabled(Charts.Transitions(m.chart, x), Enabled(m, old(Sight()), ev))
      ensures State() == Reported(old(State()), ErrorsIn(m, old(Sight()), ev, Charts.Transitions(m.chart, x)))
    {
      hide State, Post, Enabled, MatchesEvent, ReportErrors;
      var ts := Charts.Transitions(m.chart, x);
      ghost var n: nat := 0;
      NothingReported(State());
      for i := 0 to |ts|
        invariant State() == Reported(old(State()), n) && Sight() == old(Sight())
        invariant n + ErrorsIn(m, old(Sight()), ev, ts[i..]) == ErrorsIn(m, old(Sight()), ev, ts)
        invariant FirstEnabled(ts[i..], Enabled(m, old(Sight()), ev)) == FirstEnabled(ts, Enabled(m, old(Sight()), ev))
      {
        assert ts[i..][0] == ts[i] && ts[i..][1..] == ts[i + 1..];
        ghost var more := if MatchesEvent(m, ts[i], ev) && m.guard(Sight(), ts[i].source, ts[i].index) == Errs then 1
          else 0;
        var holds := AskGuard(ts[i], ev);
        ReportedMore(old(State()), n, more);
        HoldsIsNoError(m, old(Sight()), ev, ts[i]);
        if holds {
          NothingReported(State());
          return Some(ts[i]);
        }
        n := n + more;
      }
      t := None;
    }

    /** The branch loop: from an atomic state up to the root. */
    method ChooseFrom(atom: int, ev: Option<Event>) returns (t: Option<Transition>)
      requires Tree(m.chart)
      modifies `internalQueue, `raised
      ensures t == Choice(m.chart, atom, Enabled(m, old(Sight()), ev))
      ensures State() == Reported(old(State()), ErrorsUp(m, old(Sight()), ev, atom))
    {
      hide FirstEnabled, ErrorsIn;
      var x := atom;
      ghost var n: nat := 0;
      while Has(m.chart, x)
        invariant State() == Reported(old(State()), n)
        invariant n + ErrorsUp(m, old(Sight()), ev, x) == ErrorsUp(m, old(Sight()), ev, atom)
        invariant Choice(m.chart, x, Enabled(m, old(Sight()), ev)) ==
          Choice(m.chart, atom, Enabled(m, old(Sight()), ev))
        decreases x
      {
        assert Sight() == old(Sight());
        t := ScanState(x, ev);
        ghost var more := ErrorsIn(m, old(Sight()), ev, Charts.Transitions(m.chart, x));
        ReportMore(old(Post()), n, more);
        n := n + more;
        if t.Some? { return; }
        assert NodeOk(m.chart, x);
        x := Parent(m.chart, x);
      }
      t := None;
    }

    /** One atomic state's choice joins the enabled list unless another one made it already. */
    method ChooseFor(atoms: seq<int>, i: nat, ev: Option<Event>, enabled: seq<Transition>)
      returns (more: seq<Transition>)
      requires Tree(m.chart) && i < |atoms| && enabled ==
        PickedTransitions(Picks(m.chart, atoms[..i], Enabled(m, Sight(), ev)))
      modifies `internalQueue, `raised
      ensures Sight() == old(Sight()) && State() == Reported(old(State()), ErrorsUp(m, old(Sight()), ev, atoms[i]))
      ensures more == PickedTransitions(Picks(m.chart, atoms[..i + 1], Enabled(m, old(Sight()), ev)))
    {
      hide Choice, ErrorsUp;
      more := enabled;
      assert atoms[..i + 1][..i] == atoms[..i];
      ghost var before := Picks(m.chart, atoms[..i], Enabled(m, Sight(), ev));
      var t := ChooseFrom(atoms[i], ev);
      if t.Some? {
        PickedIn(before, t.value);
        if t.value !in enabled { more := enabled + [t.value]; }
      }
    }

    /** selectTransitions and selectEventlessTransitions (interpreter.go:1309-1384). */
    method SelectTransitions(ev: Option<Event>) returns (ts: seq<Transition>)
      requires Tree(m.chart)
      modifies `internalQueue, `raised
      ensures ts == Selected(m, old(State()), ev) && State() == AfterSelection(m, old(State()), ev)
    {
      hide Picks, ErrorsUp, PickedTransitions;
      var atoms := AtomicStates(m.chart, configuration);
      var enabled := [];
      NoPicks(m.chart, Enabled(m, Sight(), ev));
      assert atoms[..0] == [];
      ghost var n: nat := 0;
      for i := 0 to |atoms|
        invariant Sight() == old(Sight()) && State() == Reported(old(State()), n)
          && n == ErrorsOf(m, old(Sight()), ev, atoms[..i])
        invariant enabled == PickedTransitions(Picks(m.chart, atoms[..i], Enabled(m, old(Sight()), ev)))
      {
        assert atoms[..i + 1][..i] == atoms[..i];
        enabled := ChooseFor(atoms, i, ev, enabled);
        ReportMore(old(Post()), n, ErrorsUp(m, old(Sight()), ev, atoms[i]));
        n := n + ErrorsUp(m, old(Sight()), ev, atoms[i]);
      }
      assert atoms[..|atoms|] == atoms;
      ts := RemoveConflicting(enabled);
    }

    /** removeConflictingTransitions (interpreter.go:1399-1436). */
    method RemoveConflicting(enabled: seq<Transition>) returns (filtered: seq<Transition>)
      requires Tree(m.chart)
      ensures filtered == RemoveConflicts(m.chart, historyValue, configuration, enabled)
    {
      filtered := [];
      for i := 0 to |enabled|
        invariant filtered == RemoveConflicts(m.chart, historyValue, configuration, enabled[..i])
      {
        assert enabled[..i + 1][..i] == enabled[..i];
        filtered := AdmitOne(filtered, enabled[i]);
      }
      assert enabled[..|enabled|] == enabled;
    }

    method ConflictsWith(exit1: set<int>, t2: Transition) returns (r: bool)
      requires Tree(m.chart)
      ensures r == (exit1 * ExitSet(m.chart, historyValue, configuration, t2) != {})
    {
      var exit2 := ComputeExitSet(m.chart, historyValue, configuration, [t2]);
      OneExitSet(m.chart, historyValue, configuration, t2);
      r := exit1 * exit2 != {};
    }

    /** One round: the newcomer is preempted, or replaces the less specific transitions it conflicts with. */
    method AdmitOne(kept: seq<Transition>, t1: Transition) returns (filtered: seq<Transition>)
      requires Tree(m.chart)
      ensures filtered == Admit(m.chart, historyValue, configuration, kept, t1)
    {
      hide ExitSet, ExitSets;
      var c := m.chart;
      var exit1 := ComputeExitSet(c, historyValue, configuration, [t1]);
      OneExitSet(c, historyValue, configuration, t1);
      var without := [];
      for i := 0 to |kept|
        invariant without + Without(c, historyValue, configuration, kept[i..], t1) ==
          Without(c, historyValue, configuration, kept, t1)
        invariant forall j :: 0 <= j < i ==>
          !Conflict(c, historyValue, configuration, t1, kept[j])
          || Desc(c, t1.source, kept[j].source)
      {
        assert kept[i..][1..] == kept[i + 1..];
        var clash := ConflictsWith(exit1, kept[i]);
        if !clash {
          without := without + [kept[i]];
        } else if !Desc(c, t1.source, kept[i].source) {
          return kept;
        }
      }
      filtered := without + [t1];
    }

    // ---- microsteps and macrosteps ----

    method TakeAll(ts: seq<Transition>)
      modifies this
      ensures State() == TakeEach(m, old(State()), ts)
    {
      hide RunBlock;
      for i := 0 to |ts|
        invariant State() == TakeEach(m, old(State()), ts[..i])
      {
        assert ts[..i + 1][..i] == ts[..i];
        RunActionBlock(Action(ts[i].source, ts[i].index));
      }
      assert ts[..|ts|] == ts;
    }

    method EnterAll(xs: seq<int>, e: Entry)
      requires Tree(m.chart)
      modifies this
      ensures State() == EnterEach(m, old(State()), xs, e)
    {
      hide State, EnterState;
      for i := 0 to |xs|
        invariant State() == EnterEach(m, old(State()), xs[..i], e)
      {
        assert xs[..i + 1][..i] == xs[..i];
        Enter(xs[i], DefaultsOf(e, xs[i]));
      }
      assert xs[..|xs|] == xs;
    }

    method NoteConfiguration()
      modifies `trace
      ensures State() == old(State()).(trace :=
        old(State()).trace.(configs := old(State()).trace.configs + [old(State()).config]))
    {
      trace := trace.(configs := trace.configs + [configuration]);
    }

    /** The exit and entry sets of a microstep, both before anything changes. */
    method Plan(ts: seq<Transition>) returns (exits: seq<int>, e: Entry)
      requires Founded(m.chart) && HistorySane(m.chart, historyValue) && AllFounded(m.chart, ts)
      ensures exits == SortDesc(ExitSets(m.chart, State().history, State().config, ts), |m.chart.states|)
      ensures e == EntrySet(m.chart, State().history, ts, NoEntry)
    {
      var out := ComputeExitSet(m.chart, historyValue, configuration, ts);
      e := ComputeEntrySet(m.chart, historyValue, ts);
      exits := SortDesc(out, |m.chart.states|);
    }

    method RecordExits(exits: seq<int>)
      modifies `historyValue, `trace
      ensures State() == Recording(m, old(State()), exits)
    {
      trace := trace.(departures := trace.departures + [Departure(configuration, exits)]);
      RecordHistory(exits);
    }

    /** microstep (interpreter.go:1440-1463). */
    method TakeMicrostep(ts: seq<Transition>)
      requires Founded(m.chart) && HistorySane(m.chart, State().history) && AllFounded(m.chart, ts)
      modifies this
      ensures State() == Microstep(m, old(State()), ts)
    {
      assert historyValue == State().history;
      FoundedTree(m.chart);
      hide State, ExitSets, EntrySet, Recording, ExitEach, TakeEach, EnterEach, Founded, HistorySane, AllFounded;
      var exits, e := Plan(ts);
      RecordExits(exits);
      ExitAll(exits);
      TakeAll(ts);
      EnterAll(SortAsc(e.states, |m.chart.states|), e);
      NoteConfiguration();
    }

    /** A selection for `ev` and the microstep it leads to, if any. */
    method Step(ev: Option<Event>) returns (any: bool)
      requires WellFormedModel(m) && Live(m, State())
      modifies this
      ensures any == (Selected(m, old(State()), ev) != []) && State() == TakeSelected(m, old(State()), ev)
    {
      ghost var before := State();
      LiveStep(m, before, ev);
      hide State, AfterSelection, Microstep, Selected;
      var ts := SelectTransitions(ev);
      any := ts != [];
      if any { TakeMicrostep(ts); }
    }

    method NextInternal()
      requires State().mail.internalQueue != []
      modifies `internalQueue, `lastEvent, `trace
      ensures State() == DequeueInternal(old(State()))
    {
      lastEvent := Some(internalQueue[0]);
      trace := trace.(taken := trace.taken + [internalQueue[0]]);
      internalQueue := internalQueue[1..];
    }

    function HasInternal(): (r: bool)
      reads this
      ensures r == (State().mail.internalQueue != [])
    {
      internalQueue != []
    }

    function IsRunning(): (r: bool)
      reads this
      ensures r == State().running
    {
      running
    }

    /** One pass through runToStable's loop; true when there is nothing left to do. */
    method RunRound() returns (settled: bool)
      requires WellFormedModel(m) && Live(m, State())
      modifies this
      ensures Round(m, old(State())) == if settled then Settled(State()) else Again(State())
    {
      ghost var before := State();
      assert lastEvent == State().event;
      hide State, WellFormedModel, Live, Selected, ProcessInvokes;
      settled := false;
      var any := Step(None);
      if any { return; }
      ghost var st1 := State();
      assert st1 == TakeSelected(m, before, None);
      if !HasInternal() {
        ProcessInvokesIs(m, st1);
        StartInvocations();
        settled := !HasInternal();
      } else {
        DequeueInternalIs(m, st1);
        NextInternal();
        any := Step(CurrentEvent());
      }
    }

    function CurrentEvent(): (r: Option<Event>)
      reads this
      ensures r == State().event
    {
      lastEvent
    }

    /** runToStable (interpreter.go:1467-1495), for at most `budget` passes. */
    method RunToStability(budget: nat) returns (finished: bool)
      requires WellFormedModel(m) && Live(m, State())
      modifies this
      ensures Run(State(), finished) == RunToStable(m, old(State()), budget)
    {
      hide State, WellFormedModel, Live, Round, Ahead;
      var left: nat := budget;
      while IsRunning() && left > 0
        invariant left <= budget && Live(m, State())
          && RunToStable(m, State(), left) == RunToStable(m, old(State()), budget)
        decreases left
      {
        var settled := RunRound();
        left := left - 1;
        if settled { return true; }
      }
      finished := !IsRunning();
    }

    /** start (interpreter.go:1499-1547). */
    method Start(early: bool, budget: nat) returns (finished: bool)
      requires WellFormedModel(m) && State() == Fresh(m, clock)
      modifies this
      ensures Run(State(), finished) == Macrosteps.Start(m, old(clock), early, budget)
    {
      EnteredIsLive(m, clock, early);
      EnterInitial(early);
      finished := RunToStability(budget);
    }

    method InitializeEarly()
      modifies this
      ensures State() == InitializeAll(m, old(State()), |m.chart.states|)
    {
      for i := 0 to |m.chart.states|
        invariant State() == InitializeAll(m, old(State()), i)
      {
        if HasData(m.chart, i) { RunInitializer(i); }
      }
    }

    method SetRunning()
      modifies `running
      ensures State() == old(State()).(running := true)
    {
      running := true;
    }

    method Initialize(early: bool)
      modifies this
      ensures State() == Initialized(m, old(State()), early)
    {
      RunActionBlock(ChartData);
      if early { InitializeEarly(); }
    }

    method EnterInitial(early: bool)
      requires WellFormedModel(m) && State() == Fresh(m, clock)
      modifies this
      ensures State() == Entered(m, old(clock), early)
    {
      var e := ComputeStartEntry(m.chart);
      hide State, Initialized, EnterEach;
      Initialize(early);
      SetRunning();
      EnterAll(SortAsc(e.states, |m.chart.states|), e);
      NoteConfiguration();
    }

    // ---- external events, timers, exit ----

    method NextExternal() returns (ev: Event)
      requires Tree(m.chart) && State().mail.externalQueue != []
      modifies `externalQueue, `lastEvent, `trace
      ensures State() == DequeueExternal(m, old(State())) && ev == old(State()).mail.externalQueue[0]
    {
      ev := externalQueue[0];
      trace := trace.(consumed := trace.consumed + [Consumption(ev, Undisturbed(m, State()))]);
      externalQueue := externalQueue[1..];
      lastEvent := Some(ev);
    }

    /** applyInvokeSideEffects (interpreter.go:1218-1236). */
    method ApplyInvokeSideEffects(ev: Event)
      modifies this
      ensures State() == InvokeSideEffects(m, old(State()), ev)
    {
      if ev.invokeId != "" && ev.invokeId in invokesById {
        RunFinalizeBlock(invokesById[ev.invokeId].owner, invokesById[ev.invokeId].spec);
      }
    }

    /** processNextExternal (interpreter.go:1553-1568), with an event waiting. */
    method ConsumeExternal(budget: nat) returns (finished: bool)
      requires WellFormedModel(m) && Live(m, State()) && State().mail.externalQueue != []
      modifies this
      ensures Run(State(), finished) == ProcessNextExternal(m, old(State()), budget)
    {
      ghost var before := State();
      DequeueExternalIs(m, before);
      hide State, WellFormedModel, Live, DequeueExternal;
      var ev := NextExternal();
      InvokeSideEffectsAre(m, State(), ev);
      ContentSound(m, State(), InvokeSideEffects(m, State(), ev), FinalizeCalls(State(), ev));
      ApplyInvokeSideEffects(ev);
      var _ := Step(Some(ev));
      finished := RunToStability(budget);
    }

    function HasExternal(): (r: bool)
      reads this
      ensures r == (State().mail.externalQueue != [])
    {
      externalQueue != []
    }

    /** drainQueuedEvents (instance.go:765-786). */
    method DrainQueues(budget: nat) returns (finished: bool)
      requires WellFormedModel(m) && Live(m, State())
      modifies this
      ensures Run(State(), finished) == Drain(m, old(State()), budget)
    {
      hide State, WellFormedModel, Live, ProcessNextExternal, Onward, Ahead;
      var left: nat := budget;
      finished := true;
      while IsRunning() && HasExternal() && left > 0 && finished
        invariant left <= budget && Live(m, State())
        invariant if finished then DrainExternal(m, State(), left) == DrainExternal(m, old(State()), budget)
                  else DrainExternal(m, old(State()), budget) == Run(State(), false)
        decreases left, finished
      {
        finished := ConsumeExternal(left - 1);
        left := left - 1;
      }
      if finished {
        finished := !IsRunning() || !HasExternal();
        if finished && IsRunning() && HasInternal() { finished := RunToStability(budget); }
      }
    }

    method DiscardPending()
      modifies `pending, `dropped
      ensures State() == old(State()).(mail := DropPending(old(State()).mail))
    {
      dropped := dropped + Orders(pending);
      pending := [];
    }

    /** exitInterpreter (interpreter.go:1261-1274). */
    method Leave()
      modifies this
      ensures State() == ExitInterpreter(m, old(State()))
    {
      assert configuration == State().config;
      var xs := SortDesc(configuration, |m.chart.states|);
      assert xs == ExitOrder(m.chart, State().config);
      hide State, ExitEach, ExitOrder;
      ExitAll(xs);
      DiscardPending();
    }

    /** handleTimerFire (interpreter.go:336-348) for the record with this order number. */
    method TimerElapsed(order: nat, hookOk: bool)
      requires Live(m, State())
      modifies this
      ensures State() == HandleTimerFire(m, old(State()), order, hookOk)
    {
      match Position(pending, order) {
        case None =>
        case Some(i) => if hookOk { Fire(i); } else { running := false; }
      }
    }
  }

  lemma LiveStep(m: Model, st: St, ev: Option<Event>)
    requires WellFormedModel(m) && Live(m, st)
    ensures Tree(m.chart) && Founded(m.chart) && AllFounded(m.chart, Selected(m, st, ev))
      && HistorySane(m.chart, AfterSelection(m, st, ev).history)
  {
    MicrostepIs(m, st, Enabled(m, ViewOf(st), ev), Selected(m, st, ev));
  }

  lemma NothingReported(st: St)
    ensures Reported(st, 0) == st
  {}

  lemma ReportedMore(st: St, a: nat, b: nat)
    ensures Reported(Reported(st, a), b) == Reported(st, a + b)
    ensures ViewOf(Reported(st, a)) == ViewOf(st)
  {
    ReportMore(st.mail, a, b);
    ReportErrorsKept(st.mail, a);
  }

  lemma HoldsIsNoError(m: Model, v: View, ev: Option<Event>, t: Transition)
    ensures Enabled(m, v, ev)(t) ==> m.guard(v, t.source, t.index) != Errs
  {}

  lemma NoPicks(c: Chart, enabled: Transition -> bool)
    requires Tree(c)
    ensures PickedTransitions(Picks(c, [], enabled)) == []
  {}

  lemma PickedIn(ps: seq<Pick>, t: Transition)
    ensures Picked(ps, t) <==> t in PickedTransitions(ps)
  {
    if i :| 0 <= i < |ps| && ps[i].t == t { assert PickedTransitions(ps)[i] == t; }
  }

  lemma OneExitSet(c: Chart, H: History, C: set<int>, t: Transition)
    requires Tree(c)
    ensures ExitSets(c, H, C, [t]) == ExitSet(c, H, C, t)
  {
    assert [t][1..] == [];
  }

  lemma IdsGrow(rs: seq<Running>, i: nat)
    requires i < |rs|
    ensures Ids(rs[..i + 1]) == Ids(rs[..i]) + {rs[i].id}
  {
    forall id | id in Ids(rs[..i + 1]) ensures id in Ids(rs[..i]) + {rs[i].id} {
      var j :| 0 <= j < |rs[..i + 1]| && rs[..i + 1][j].id == id;
      if j < i { assert rs[..i][j].id == id; }
    }
    forall id | id in Ids(rs[..i]) + {rs[i].id} ensures id in Ids(rs[..i + 1]) {
      if id in Ids(rs[..i]) { var j :| 0 <= j < |rs[..i]| && rs[..i][j].id == id; assert rs[..i + 1][j].id == id; }
      else { assert rs[..i + 1][i].id == id; }
    }
  }
}
