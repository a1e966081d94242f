/**
 The interpreter's state and its operations as functions of that state (interpreter.go:95-1568).

 The class in interpreter.dfy updates its fields step by step and is proved to compute exactly these
 functions.  The datamodel, the I/O processors and the invoke handlers are an oracle: a `Model`.
 Invocations are modelled as during replay, where they have no live channel.
 */
module Machine {
  import opened Charts
  import opened WellFormed
  import opened EntrySets
  import opened Transitions
  import opened Selection
  import opened Microsteps

  /** Datamodel state and payloads, as opaque encodings. */
  type Data = seq<int>

  datatype EventType = External | Internal | Platform

  datatype Event = Event(name: string, kind: EventType, data: Data, sendId: string, origin: string, invokeId: string)

  const ErrExecution := "error.execution"
  const ErrCommunication := "error.communication"
  const ScxmlProcessor := "http://www.w3.org/TR/scxml/#SCXMLEventProcessor"
  const ScxmlAlias := "scxml"
  const ScxmlInvoke := "http://www.w3.org/TR/scxml/"

  /** One outstanding delayed send. */
  datatype Pending = Pending(sendId: string, target: string, typ: string, event: Event, fireAt: int, order: nat)

  /** One active invocation: the spec-th declaration of its owner state. */
  datatype Running = Running(id: string, owner: int, spec: nat, typ: string, source: string)

  /** A piece of executable content. */
  datatype Block = OnEntry(s: int) | OnExit(s: int) | Default(owner: int) | Action(source: int, index: nat)
    | Finalize(owner: int, spec: nat) | InitData(s: int)

  /** `idLocation` is None when absent, otherwise whether the assignment succeeds. */
  datatype SendOptions = SendOptions(name: string, sendId: string, idLocation: Option<bool>, target: string,
    typ: string, data: Data, delay: int)

  datatype Effect = Raise(name: string, data: Data) | Send(options: SendOptions) | Cancel(sendId: string) | Fail

  /** What executable content and guards can read. */
  datatype View = View(data: Data, config: set<int>, event: Option<Event>, sendSeq: nat, invokeSeq: nat)

  datatype Outcome = Outcome(data: Data, effects: seq<Effect>)

  datatype Verdict = Holds | Fails | Errs

  datatype Request = Request(seqNo: nat, sendId: string, eventSendId: string, target: string, typ: string, name: string,
    data: Data)

  datatype Delivery = Accepted | CommunicationFailed | ExecutionFailed

  datatype InvokeOutcome = Started(data: Data, typ: string, source: string)
    | Refused(data: Data, report: string, invokeId: string)

  datatype Model = Model(
    chart: Chart,
    session: string,
    processors: set<string>,
    initial: Data,
    matches: (string, string) -> bool,
    guard: (View, int, nat) -> Verdict,
    run: (View, Block) -> Outcome,
    done: (View, int) -> Option<Data>,
    deliver: Request -> Delivery,
    invoke: (View, int, nat, string) -> InvokeOutcome)

  /** What the machine asks of the model, and the configuration that it lets it see: content to run, the data of
      a final state, an invocation to start. */
  datatype Call = BlockRun(block: Block, seen: set<int>) | DoneRead(s: int, seen: set<int>)
    | InvokeBegun(s: int, k: nat)

  /** The two event queues and the delayed sends, with what the theorems observe of them: the external
      events that arrived, the order numbers of the sends dispatched and dropped, the internal events raised,
      and the requests made to processors. */
  datatype Mail = Mail(
    internalQueue: seq<Event>, externalQueue: seq<Event>,
    pending: seq<Pending>, pendingSeq: nat, sendSeq: nat, dispatchSeq: nat,
    arrived: seq<Event>, dispatched: seq<nat>, dropped: seq<nat>, raised: seq<Event>, requests: seq<Request>)

  /** One external event taken from the queue, and whether the chart was stable then. */
  datatype Consumption = Consumption(event: Event, settled: bool)

  /** Observed by the theorems only: calls made to the model, configurations after each microstep, external and
      internal events consumed, and the exits so far with the histories that stood before the first of them. */
  datatype Trace = Trace(
    calls: seq<Call>, configs: seq<set<int>>, consumed: seq<Consumption>, taken: seq<Event>, base: History,
      departures: seq<Departure>)

  const NO_TRACE := Trace([], [], [], [], map[], [])

  function Events(cs: seq<Consumption>): seq<Event> { seq(|cs|, i requires 0 <= i < |cs| => cs[i].event) }

  datatype St = St(
    config: set<int>, history: History, running: bool, completed: bool, event: Option<Event>,
    initialized: set<int>, data: Data, statesToInvoke: set<int>, active: map<int, seq<Running>>,
    byId: map<string, Running>, invokeSeq: nat, now: int, mail: Mail, trace: Trace)

  const NoMail := Mail([], [], [], 0, 0, 0, [], [], [], [], [])

  function Fresh(m: Model, now: int): St {
    St({}, map[], false, false, None, {}, m.initial, {}, map[], map[], 0, now, NoMail, NO_TRACE)
  }

  function ViewOf(st: St): View { View(st.data, st.config, st.event, st.mail.sendSeq, st.invokeSeq) }

  // ---- generated identifiers ----

  function Digit(n: nat): string
    requires n < 10
  {
    [['0', '1', '2', '3', '4', '5', '6', '7', '8', '9'][n]]
  }

  function Decimal(n: nat): string { if n < 10 then Digit(n) else Decimal(n / 10) + Digit(n % 10) }

  // ---- queues (interpreter.go:171-205) ----

  function EnqueueInternal(q: Mail, ev: Event): Mail {
    q.(internalQueue := q.internalQueue + [ev], raised := q.raised + [ev])
  }

  function EnqueueExternal(q: Mail, ev: Event): Mail {
    q.(externalQueue := q.externalQueue + [ev], arrived := q.arrived + [ev])
  }

  function Enqueue(q: Mail, ev: Event): Mail {
    if ev.kind == External then EnqueueExternal(q, ev) else EnqueueInternal(q, ev)
  }

  function PlatformEvent(name: string, sendId: string, invokeId: string): Event {
    Event(name, Platform, [], sendId, "", invokeId)
  }

  function ReportError(q: Mail): Mail { EnqueueInternal(q, PlatformEvent(ErrExecution, "", "")) }

  function ReportSend(q: Mail, sendId: string, name: string): Mail {
    EnqueueInternal(q, PlatformEvent(name, sendId, ""))
  }

  // ---- sends (interpreter.go:227-411) ----

  predicate Before(a: Pending, b: Pending) { a.fireAt < b.fireAt || (a.fireAt == b.fireAt && a.order < b.order) }

  /** The pending set, kept in the (fireAt, order) order in which everything that looks at it sorts it. */
  function InsertPending(ps: seq<Pending>, r: Pending): seq<Pending> {
    if ps == [] || Before(r, ps[0]) then [r] + ps else [ps[0]] + InsertPending(ps[1..], r)
  }

  function CanonicalType(typ: string): string { if typ == "" || typ == ScxmlAlias then ScxmlProcessor else typ }

  function Stamp(m: Model, ev: Event): Event { ev.(kind := External, origin := "#_scxml_" + m.session) }

  /** dispatchToProcessor (interpreter.go:317-323). */
  function ToProcessor(m: Model, q: Mail, sendId: string, target: string, typ: string, ev: Event): Mail {
    var request := Request(q.dispatchSeq + 1, sendId, ev.sendId, target, typ, ev.name, ev.data);
    var q1 := q.(dispatchSeq := q.dispatchSeq + 1, requests := q.requests + [request]);
    match m.deliver(request)
    case Accepted => q1
    case CommunicationFailed => ReportSend(q1, sendId, ErrCommunication)
    case ExecutionFailed => ReportSend(q1, sendId, ErrExecution)
  }

  /** dispatchNow (interpreter.go:273-315); "#_<invokeid>" falls through to the processor. */
  function Dispatch(m: Model, q: Mail, sendId: string, target: string, typ: string, ev: Event): Mail {
    var canonical := CanonicalType(typ);
    if canonical !in m.processors then ReportSend(q, sendId, ErrExecution)
    else if canonical != ScxmlProcessor then ToProcessor(m, q, sendId, target, canonical, ev)
    else if target == "#_internal" then EnqueueInternal(q, ev.(kind := Internal, origin := ""))
    else if target == "" || target == "#_scxml_" + m.session then EnqueueExternal(q, Stamp(m, ev))
    else ToProcessor(m, q, sendId, target, canonical, ev)
  }

  /** The arming half of doSend: a new pending record due at `fireAt`. */
  function Arm(q: Mail, sendId: string, target: string, typ: string, ev: Event, fireAt: int): Mail {
    q.(pendingSeq := q.pendingSeq + 1, pending :=
      InsertPending(q.pending, Pending(sendId, target, typ, ev, fireAt, q.pendingSeq + 1)))
  }

  /** A send without an ID uses up a number for its execution ID. */
  function Counted(q: Mail, o: SendOptions): Mail { if o.sendId == "" then q.(sendSeq := q.sendSeq + 1) else q }

  function SendId(sendSeq: nat, o: SendOptions): string {
    if o.sendId == "" then "send." + Decimal(sendSeq) else o.sendId
  }

  /** The event sent; an ID stored through idlocation becomes author-visible. */
  function SendEvent(o: SendOptions, sendId: string): Event {
    Event(o.name, External, o.data, if o.idLocation.Some? then sendId else o.sendId, "", "")
  }

  /** The second half of doSend, with the execution ID chosen. */
  function Sent(m: Model, now: int, q: Mail, o: SendOptions, sendId: string): Mail {
    if o.idLocation == Some(false) then ReportSend(q, sendId, ErrExecution)
    else if o.delay <= 0 then Dispatch(m, q, sendId, o.target, o.typ, SendEvent(o, sendId))
    else Arm(q, sendId, o.target, CanonicalType(o.typ), SendEvent(o, sendId), now + o.delay)
  }

  /** doSend (interpreter.go:227-264). */
  function DoSend(m: Model, now: int, q: Mail, o: SendOptions): Mail {
    if o.sendId != "" && o.idLocation.Some? then ReportSend(q, o.sendId, ErrExecution)
    else
      var q1 := Counted(q, o);
      Sent(m, now, q1, o, SendId(q1.sendSeq, o))
  }

  function Orders(ps: seq<Pending>): seq<nat> { seq(|ps|, i requires 0 <= i < |ps| => ps[i].order) }

  function WithSendId(ps: seq<Pending>, id: string, keep: bool): seq<Pending> {
    if ps == [] then []
    else if (ps[0].event.sendId != id) == keep then [ps[0]] + WithSendId(ps[1..], id, keep)
    else WithSendId(ps[1..], id, keep)
  }

  /** doCancel (interpreter.go:398-411). */
  function DoCancel(q: Mail, id: string): Mail {
    if id == "" then q
    else q.(pending := WithSendId(q.pending, id, true), dropped := q.dropped + Orders(WithSendId(q.pending, id, false)))
  }

  /** The pending record at position i leaves to be dispatched. */
  function Due(q: Mail, i: nat): Mail
    requires i < |q.pending|
  {
    q.(pending := q.pending[..i] + q.pending[i + 1..], dispatched := q.dispatched + [q.pending[i].order])
  }

  /** fireTimer (interpreter.go:352-358). */
  function FireTimer(m: Model, q: Mail, i: nat): Mail
    requires i < |q.pending|
  {
    var r := q.pending[i];
    Dispatch(m, Due(q, i), r.sendId, r.target, r.typ, r.event)
  }

  // ---- executable content ----

  function Apply(m: Model, now: int, q: Mail, e: Effect): Mail {
    match e
    case Raise(name, data) => EnqueueInternal(q, Event(name, Internal, data, "", "", ""))
    case Send(o) => DoSend(m, now, q, o)
    case Cancel(id) => DoCancel(q, id)
    case Fail => ReportError(q)
  }

  function ApplyAll(m: Model, now: int, q: Mail, es: seq<Effect>): Mail
    decreases es
  {
    if es == [] then q else ApplyAll(m, now, Apply(m, now, q, es[0]), es[1..])
  }

  /** What executable content leaves behind. */
  function Ran(m: Model, st: St, data: Data, es: seq<Effect>): St {
    st.(data := data, mail := ApplyAll(m, st.now, st.mail, es))
  }

  function Logged(st: St, call: Call): St { st.(trace := st.trace.(calls := st.trace.calls + [call])) }

  function RunBlock(m: Model, st: St, b: Block): St {
    var o := m.run(ViewOf(st), b);
    Ran(m, Logged(st, BlockRun(b, st.config)), o.data, o.effects)
  }

  function Forbidden(es: seq<Effect>): seq<Effect> { seq(|es|, i => Fail) }

  /** runFinalizeBlocks (interpreter.go:681-697): raising, sending and cancelling are reported as errors. */
  function RunFinalize(m: Model, st: St, owner: int, spec: nat): St {
    var o := m.run(ViewOf(st), Finalize(owner, spec));
    Ran(m, Logged(st, BlockRun(Finalize(owner, spec), st.config)), o.data, Forbidden(o.effects))
  }

  function RunDefaults(m: Model, st: St, owners: seq<int>): St
    decreases owners
  {
    if owners == [] then st else RunDefaults(m, RunBlock(m, st, Default(owners[0])), owners[1..])
  }

  /** An event raised by the interpreter itself. */
  function Raised(st: St, ev: Event): St { st.(mail := EnqueueInternal(st.mail, ev)) }

  // ---- entering and leaving states (interpreter.go:983-1085) ----

  /** isInFinalState (interpreter.go:983-1002). */
  predicate InFinalState(c: Chart, C: set<int>, s: int)
    requires Tree(c)
    decreases End(c, s) - s
  {
    if IsCompound(c, s) then exists k :: k in RealChildren(c, s) && KindOf(c, k) == Final && k in C
    else if IsParallel(c, s) then
      forall k :: k in RealChildren(c, s) ==>
        (RealsAre(c, Children(c, s), k); assert NodeOk(c, s); assert NodeOk(c, k); assert Desc(c, k, s);
          InFinalState(c, C, k))
    else false
  }

  /** What entering the final state s puts into the internal queue, `value` being its data. */
  function DoneMail(c: Chart, C: set<int>, q: Mail, s: int, value: Option<Data>): Mail
    requires Tree(c)
  {
    var q1 := if value.None? then ReportError(q) else q;
    var p := Parent(c, s);
    if p <= 0 then q1
    else
      var q2 := EnqueueInternal(q1, Event("done.state." + Name(c, p), Platform, if value.Some? then value.value
        else [], "", "", ""));
      var g := Parent(c, p);
      if IsParallel(c, g) && InFinalState(c, C, g)
        then EnqueueInternal(q2, PlatformEvent("done.state." + Name(c, g), "", ""))
      else q2
  }

  /** The tail of enterState for a final state (interpreter.go:1020-1059). */
  function EnterFinal(m: Model, st: St, s: int): St
    requires Tree(m.chart)
  {
    var top := Parent(m.chart, s) <= 0;
    Logged(st, DoneRead(s, st.config)).(
      mail := DoneMail(m.chart, st.config, st.mail, s, m.done(ViewOf(st), s)),
      completed := st.completed || top, running := st.running && !top)
  }

  /** The content of an entered state: late data, onentry, and the default-transition actions
      (interpreter.go:1006-1011). */
  function EntryHandlers(m: Model, st: St, s: int, owners: seq<int>): St {
    var st1 := if HasData(m.chart, s) && s !in st.initialized
      then RunBlock(m, st, InitData(s)).(initialized := st.initialized + {s}) else st;
    RunDefaults(m, RunBlock(m, st1, OnEntry(s)), owners)
  }

  function QueueInvokes(c: Chart, st: St, s: int): St {
    if Invokes(c, s) != [] then st.(statesToInvoke := st.statesToInvoke + {s}) else st
  }

  /** enterState up to the treatment of final states (interpreter.go:1004-1018). */
  function EnterPlain(m: Model, st: St, s: int, owners: seq<int>): St {
    QueueInvokes(m.chart, EntryHandlers(m, st.(config := st.config + {s}), s, owners), s)
  }

  /** enterState (interpreter.go:1004-1060). */
  function EnterState(m: Model, st: St, s: int, owners: seq<int>): St
    requires Tree(m.chart)
  {
    var st1 := EnterPlain(m, st, s, owners);
    if KindOf(m.chart, s) == Final then EnterFinal(m, st1, s) else st1
  }

  function Ids(rs: seq<Running>): set<string> { set i | 0 <= i < |rs| :: rs[i].id }

  /** cancelInvokes (interpreter.go:1074-1085). */
  function CancelInvokes(st: St, s: int): St {
    if s !in st.active then st
    else st.(byId := st.byId - Ids(st.active[s]), active := st.active - {s})
  }

  /** exitState (interpreter.go:1062-1067). */
  function ExitState(m: Model, st: St, s: int): St {
    var st1 := CancelInvokes(RunBlock(m, st, OnExit(s)), s);
    st1.(statesToInvoke := st1.statesToInvoke - {s}, config := st1.config - {s})
  }

  function ExitEach(m: Model, st: St, xs: seq<int>): St {
    if xs == [] then st else ExitState(m, ExitEach(m, st, xs[..|xs| - 1]), xs[|xs| - 1])
  }

  function DefaultsOf(e: Entry, s: int): seq<int> { if s in e.defaults then e.defaults[s] else [] }

  function EnterEach(m: Model, st: St, xs: seq<int>, e: Entry): St
    requires Tree(m.chart)
  {
    if xs == [] then st else EnterState(m, EnterEach(m, st, xs[..|xs| - 1], e), xs[|xs| - 1],
      DefaultsOf(e, xs[|xs| - 1]))
  }

  function TakeEach(m: Model, st: St, ts: seq<Transition>): St {
    if ts == [] then st
    else
      var t := ts[|ts| - 1];
      RunBlock(m, TakeEach(m, st, ts[..|ts| - 1]), Action(t.source, t.index))
  }

  // ---- invocations (interpreter.go:1093-1197) ----

  function DeclaredIds(c: Chart): set<string> {
    set s, k | 0 <= s < |c.states| && 0 <= k < |Invokes(c, s)| :: Invokes(c, s)[k].id
  }

  lemma Shrinks(reserved: set<string>, id: string)
    requires id in reserved
    ensures |reserved - {id}| < |reserved|
  {
    assert reserved == (reserved - {id}) + {id};
  }

  /** The loop of beginInvoke: the next counter value whose ID is not reserved. */
  function FreshSeq(prefix: string, n: nat, reserved: set<string>): nat
    decreases |reserved|
  {
    var id := prefix + Decimal(n + 1);
    if id !in reserved then n + 1
    else
      Shrinks(reserved, id);
      FreshSeq(prefix, n + 1, reserved - {id})
  }

  function InvokePrefix(c: Chart, s: int): string { Name(c, s) + ".invoke" }

  /** The invocation counter after choosing the ID of the k-th invocation of s. */
  function InvokeNumber(c: Chart, st: St, s: int, k: nat): nat
    requires k < |Invokes(c, s)|
  {
    if Invokes(c, s)[k].id == "" then FreshSeq(InvokePrefix(c, s), st.invokeSeq, st.byId.Keys + DeclaredIds(c))
      else st.invokeSeq
  }

  function InvokeName(c: Chart, s: int, k: nat, n: nat): string
    requires k < |Invokes(c, s)|
  {
    if Invokes(c, s)[k].id == "" then InvokePrefix(c, s) + Decimal(n) else Invokes(c, s)[k].id
  }

  function CanonicalInvokeType(typ: string): string { if typ == "" || typ == ScxmlAlias then ScxmlInvoke else typ }

  /** The handler type an invocation is started with: the declared one, or the computed one. */
  function InvokeType(spec: InvokeSpec, computed: string): string {
    CanonicalInvokeType(if spec.typ.Some? then spec.typ.value else computed)
  }

  /** What a restored invocation's handler type must be (snapshot.go:334-339). */
  predicate TypeFits(spec: InvokeSpec, typ: string) {
    typ != "" && (spec.typ.Some? ==> typ == CanonicalInvokeType(spec.typ.value))
  }

  function StartedInvoke(st: St, data: Data, r: Running): St {
    st.(data := data, active := st.active[r.owner := (if r.owner in st.active then st.active[r.owner] else []) + [r]],
      byId := st.byId[r.id := r])
  }

  /** beginInvoke (interpreter.go:1106-1137). */
  function BeginInvoke(m: Model, st: St, s: int, k: nat): St
    requires k < |Invokes(m.chart, s)|
  {
    var n := InvokeNumber(m.chart, st, s, k);
    var id := InvokeName(m.chart, s, k, n);
    var st1 := Logged(st.(invokeSeq := n), InvokeBegun(s, k));
    match m.invoke(ViewOf(st1), s, k, id)
    case Refused(data, report, invokeId) => Raised(st1.(data := data), PlatformEvent(report, "", invokeId))
    case Started(data, typ, source) => StartedInvoke(st1, data,
      Running(id, s, k, InvokeType(Invokes(m.chart, s)[k], typ), source))
  }

  function BeginFrom(m: Model, st: St, s: int, k: nat): St
    requires k <= |Invokes(m.chart, s)|
  {
    if k == 0 then st else BeginInvoke(m, BeginFrom(m, st, s, k - 1), s, k - 1)
  }

  function BeginEach(m: Model, st: St, xs: seq<int>): St {
    if xs == [] then st
    else BeginFrom(m, BeginEach(m, st, xs[..|xs| - 1]), xs[|xs| - 1], |Invokes(m.chart, xs[|xs| - 1])|)
  }

  /** processInvokes (interpreter.go:1093-1104). */
  function ProcessInvokes(m: Model, st: St): St {
    BeginEach(m, st.(statesToInvoke := {}), SortAsc(st.statesToInvoke, |m.chart.states|))
  }

  function FinalizeEach(m: Model, st: St, ids: set<string>, ev: Event): St {
    if ev.invokeId != "" && ev.invokeId in ids && ev.invokeId in st.byId
    then RunFinalize(m, st, st.byId[ev.invokeId].owner, st.byId[ev.invokeId].spec) else st
  }

  /** applyInvokeSideEffects (interpreter.go:1218-1236), without the live channels. */
  function InvokeSideEffects(m: Model, st: St, ev: Event): St { FinalizeEach(m, st, st.byId.Keys, ev) }

  // ---- selection (interpreter.go:1311-1384) ----

  predicate MatchesEvent(m: Model, t: Transition, ev: Option<Event>) {
    if ev.None? then t.events == []
    else exists i :: 0 <= i < |t.events| && m.matches(t.events[i], ev.value.name)
  }

  function Enabled(m: Model, v: View, ev: Option<Event>): Transition -> bool {
    (t: Transition) => MatchesEvent(m, t, ev) && m.guard(v, t.source, t.index) == Holds
  }

  /** How many guards fail with an error while scanning one state's transitions. */
  function ErrorsIn(m: Model, v: View, ev: Option<Event>, ts: seq<Transition>): nat {
    if ts == [] || Enabled(m, v, ev)(ts[0]) then 0
    else
      (if MatchesEvent(m, ts[0], ev) && m.guard(v, ts[0].source, ts[0].index) == Errs then 1 else 0)
      + ErrorsIn(m, v, ev, ts[1..])
  }

  function ErrorsUp(m: Model, v: View, ev: Option<Event>, x: int): nat
    requires Tree(m.chart)
    decreases x
  {
    var c := m.chart;
    if !Has(c, x) then 0
    else
      assert NodeOk(c, x);
      ErrorsIn(m, v, ev, Charts.Transitions(c, x))
      + (if FirstEnabled(Charts.Transitions(c, x), Enabled(m, v, ev)).Some? then 0
        else ErrorsUp(m, v, ev, Parent(c, x)))
  }

  function ErrorsOf(m: Model, v: View, ev: Option<Event>, atoms: seq<int>): nat
    requires Tree(m.chart)
  {
    if atoms == [] then 0 else ErrorsOf(m, v, ev, atoms[..|atoms| - 1]) + ErrorsUp(m, v, ev, atoms[|atoms| - 1])
  }

  function ReportErrors(q: Mail, n: nat): Mail { if n == 0 then q else ReportError(ReportErrors(q, n - 1)) }

  function Reported(st: St, n: nat): St { st.(mail := ReportErrors(st.mail, n)) }

  function Selected(m: Model, st: St, ev: Option<Event>): seq<Transition>
    requires Tree(m.chart)
  {
    Select(m.chart, st.history, st.config, Enabled(m, ViewOf(st), ev))
  }

  /** The state after a selection: every failing guard has been reported. */
  function AfterSelection(m: Model, st: St, ev: Option<Event>): St
    requires Tree(m.chart)
  {
    Reported(st, ErrorsOf(m, ViewOf(st), ev, AtomicStates(m.chart, st.config)))
  }

  // ---- microsteps and macrosteps (interpreter.go:1440-1568) ----

  /** What leaving the states `exits` records, before any of them is left. */
  function Recording(m: Model, st: St, exits: seq<int>): St {
    st.(history := RecordAll(m.chart, st.config, exits, st.history),
        trace := st.trace.(departures := st.trace.departures + [Departure(st.config, exits)]))
  }

  /** microstep: the entry set is computed from the history as it was before this step records. */
  function Microstep(m: Model, st: St, ts: seq<Transition>): St
    requires Founded(m.chart) && HistorySane(m.chart, st.history) && AllFounded(m.chart, ts)
  {
    var c := m.chart;
    var exits := SortDesc(ExitSets(c, st.history, st.config, ts), |c.states|);
    var e := EntrySet(c, st.history, ts, NoEntry);
    var st2 := TakeEach(m, ExitEach(m, Recording(m, st, exits), exits), ts);
    var st3 := EnterEach(m, st2, SortAsc(e.states, |c.states|), e);
    st3.(trace := st3.trace.(configs := st3.trace.configs + [st3.config]))
  }
}
