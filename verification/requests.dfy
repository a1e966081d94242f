/**
 The request loop of an instance (instance.go:824-950) and what holds along every life of one: balanced
 sends, external events in order and only from settled states, and nothing left behind at the end; and, if
 the chart is careful, only legal configurations and agreeing invocation indexes.
 */
module Requests {
  import opened Charts
  import opened Validator
  import opened WellFormed
  import opened EntrySets
  import opened Machine
  import opened Bookkeeping
  import opened Deliveries
  import opened Invocations
  import opened Steps
  import opened Runs
  import opened Macrosteps
  import opened Instances

  /** What arrives in the inbox.  `hookOk` tells whether the ingress or timer hook accepts it, `vetoed`
      which timers the hook refuses, `readings` how the clock reads as the timers go live one by one,
        `saved` whether the checkpoint was stored. */
  datatype Message =
    | Stop
    | Deliver(event: Event, hookOk: bool)
    | TimerElapsed(order: nat, hookOk: bool)
    | ReplayTimer(sendId: string, target: string, typ: string, event: Event)
    | GoLive(vetoed: set<nat>, readings: seq<int>)
    | TakeCheckpoint(saved: bool)
    | Query

  lemma QueuedIsLive(m: Model, st: St, ev: Event)
    requires Live(m, st)
    ensures Live(m, st.(mail := Enqueue(st.mail, ev)))
  {
    InternalKept(st.mail, ev);
    QueueKept(st.mail, EnqueueExternal(st.mail, ev), [ev], []);
    KeptFifo(st.mail, Enqueue(st.mail, ev), Events(st.trace.consumed), st.trace.taken);
  }

  /** The switch of the request loop. */
  ghost function Receive(m: Model, st: St, msg: Message, budget: nat): (r: Run)
    requires WellFormedModel(m) && Live(m, st)
    ensures Live(m, r.st)
  {
    StoppedIsLive(m, st);
    match msg
    case Stop => Run(st.(running := false), true)
    case Deliver(ev, hookOk) =>
      QueuedIsLive(m, st, ev);
      if ev.invokeId != "" && ev.invokeId !in st.byId then Run(st, true)
      else if hookOk then Run(st.(mail := Enqueue(st.mail, ev)), true)
      else Run(st.(running := false), true)
    case TimerElapsed(order, hookOk) => Run(HandleTimerFire(m, st, order, hookOk), true)
    case ReplayTimer(sendId, target, typ, ev) =>
      ReplayFireIsLive(m, st, sendId, target, typ, ev);
      Run(st.(mail := ReplayFire(m, st.mail, sendId, target, typ, ev)), true)
    case GoLive(vetoed, readings) => Activate(m, st, TurnsOf(Orders(st.mail.pending), readings, st.now), vetoed,
      budget).run
    case TakeCheckpoint(saved) => if saved then Run(st.(running := false), true) else Run(st, true)
    case Query => Run(st, true)
  }

  /** What activation did to the pending sends of st: the records overdue at their turn fired, in order, and were
      posted; the others wait on. */
  ghost predicate WentLive(m: Model, st: St, r: Run, readings: seq<int>, a: Activation) {
    && a.run == r && AllPosted(m, st.mail, r.st.mail, a.fired)
    && Activated(a, st.mail.pending, st.mail.pendingSeq, TurnsOf(Orders(st.mail.pending), readings, st.now))
  }

  /** What a request does before the queues are drained. */
  ghost predicate ReceivedAs(m: Model, st: St, r: Run, msg: Message) {
    match msg
    case Stop => r == Run(st.(running := false), true)
    case Deliver(ev, hookOk) =>
      && r.finished
      && (if ev.invokeId != "" && ev.invokeId !in st.byId then r.st == st
          else if !hookOk then r.st == st.(running := false)
          else r.st == st.(mail := r.st.mail) && Gains(st.mail, r.st.mail,
            if ev.kind == External then Posting([], [ev], []) else Posting([ev], [], [])))
    case TimerElapsed(order, hookOk) =>
      && r.finished
      && (if forall p :: p in st.mail.pending ==> p.order != order then r.st == st
          else if !hookOk then r.st == st.(running := false)
          else r.st == st.(mail := r.st.mail) && FiredByNumber(m, st.mail, r.st.mail, order))
    case ReplayTimer(sendId, target, typ, ev) =>
      && r.finished && r.st == st.(mail := r.st.mail)
      && Gains(st.mail.(pending := r.st.mail.pending, dispatched := r.st.mail.dispatched), r.st.mail,
           PostingOf(m, st.mail.dispatchSeq + 1, sendId, target, typ, ev))
    case GoLive(vetoed, readings) => exists a {:trigger WentLive(m, st, r, readings, a)} ::
      WentLive(m, st, r, readings, a)
    case TakeCheckpoint(saved) => r == Run(if saved then st.(running := false) else st, true)
    case Query => r == Run(st, true)
  }

  lemma ReceiveIs(m: Model, st: St, msg: Message, budget: nat)
    requires WellFormedModel(m) && Live(m, st)
    ensures ReceivedAs(m, st, Receive(m, st, msg, budget), msg)
  {
    hide WellFormedModel, Live, FiredByNumber, PostingOf, ReplayFire, HandleTimerFire, Activate, Activated, AllPosted;
    match msg
    case TimerElapsed(order, hookOk) => TimerDelivers(m, st, order, hookOk);
    case ReplayTimer(sendId, target, typ, ev) =>
      LedgerOf(m, st);
      ReplayFireDelivers(m, st.mail, sendId, target, typ, ev);
    case GoLive(vetoed, readings) =>
      var turns := TurnsOf(Orders(st.mail.pending), readings, st.now);
      PendingUpTo(m, st, readings);
      ActivateIs(m, st, turns, vetoed, budget, st.mail.pendingSeq);
      ActivateDelivers(m, st, turns, vetoed, budget);
      assert WentLive(m, st, Receive(m, st, msg, budget), readings, Activate(m, st, turns, vetoed, budget));
    case _ =>
  }

  lemma PendingUpTo(m: Model, st: St, readings: seq<int>)
    requires Live(m, st)
    ensures UpToNumber(TurnsOf(Orders(st.mail.pending), readings, st.now), st.mail.pendingSeq)
  {
    LedgerOf(m, st);
    forall i | 0 <= i < |st.mail.pending| ensures st.mail.pending[i].order <= st.mail.pendingSeq {
      OrderBound(st.mail, i);
    }
  }

  /** Live while running (or while its budget ran out), sound and gone afterwards. */
  ghost predicate Held(m: Model, r: Run) {
    if r.finished && !r.st.running then Sound(m, r.st) && Gone(r.st) else Live(m, r.st)
  }

  /** The end of a round of the request loop: drain, and exit if the machine stopped. */
  ghost function Finish(m: Model, r: Run, budget: nat): (r': Run)
    requires WellFormedModel(m) && Live(m, r.st)
    ensures Held(m, r')
  {
    if !r.finished then r
    else
      var r1 := Drain(m, r.st, budget);
      ExitIsClean(m, r1.st);
      if r1.finished && !r1.st.running then Run(ExitInterpreter(m, r1.st), true) else r1
  }

  lemma AtTime(m: Model, st: St, now: int)
    requires Live(m, st)
    ensures Live(m, st.(now := now))
  {}

  ghost function Handle(m: Model, st: St, msg: Message, now: int, budget: nat): (r: Run)
    requires WellFormedModel(m) && Live(m, st)
    ensures Held(m, r)
  {
    AtTime(m, st, now);
    Finish(m, Receive(m, st.(now := now), msg, budget), budget)
  }

  /** Start of a fresh instance: the initial macrostep, then what it queued (instance.go:831-846). */
  ghost function Boot(m: Model, now: int, early: bool, budget: nat): (r: Run)
    requires WellFormedModel(m)
    ensures Held(m, r)
  {
    Finish(m, Start(m, now, early, budget), budget)
  }

  /** One message and the clock reading of its request. */
  datatype Arrival = Arrival(msg: Message, now: int)

  /** The request loop over a whole inbox; it ends when the machine stops. */
  ghost function Loop(m: Model, r: Run, inbox: seq<Arrival>, budget: nat): (r': Run)
    requires WellFormedModel(m) && Held(m, r)
    ensures Held(m, r')
    decreases |inbox|
  {
    if inbox == [] || !r.finished || !r.st.running then r
    else Loop(m, Handle(m, r.st, inbox[0].msg, inbox[0].now, budget), inbox[1..], budget)
  }

  /** A whole life. */
  ghost function Life(m: Model, now: int, early: bool, inbox: seq<Arrival>, budget: nat): (r: Run)
    requires WellFormedModel(m)
    ensures Held(m, r)
  {
    Loop(m, Boot(m, now, early, budget), inbox, budget)
  }

  /** In a life of a careful chart every configuration is legal, the histories stay usable, and the
      invocation indexes agree. */
  lemma CarefulLife(m: Model, now: int, early: bool, inbox: seq<Arrival>, budget: nat)
    requires Validator.Accepted(m.chart) && Careful(m.chart)
    ensures WellFormedModel(m)
    ensures var r := Life(m, now, early, inbox, budget);
      && AllLegal(m.chart, r.st.trace.configs) && HistoryOk(m.chart, r.st.history) && Invoking(m, r.st)
      && (!r.finished || r.st.running ==> Legal(m.chart, r.st.config))
  {
    hide Shape, Founded, Careful, Validator.Accepted, Life, Legal, InvokeOk;
    AcceptedIsFounded(m.chart);
    AcceptedIsWellFormed(m.chart);
    var r := Life(m, now, early, inbox, budget);
    assert Sound(m, r.st);
  }

  // ---- external Sends ----

  /** Every external event so far was taken from a stable state. */
  ghost predicate AllSettled(cs: seq<Consumption>) { forall i :: 0 <= i < |cs| ==> cs[i].settled }

  /** Nothing is waiting in either queue. */
  predicate Idle(st: St) { AtRest(st) && st.mail.externalQueue == [] }

  /** What external Sends find between requests, and what the drain restores. */
  ghost predicate Waiting(m: Model, r: Run)
    requires Tree(m.chart)
  {
    AllSettled(r.st.trace.consumed) && (r.finished && r.st.running ==>
      Undisturbed(m, r.st) && r.st.mail.externalQueue == [])
  }

  lemma StableIsUndisturbed(m: Model, st: St)
    requires WellFormedModel(m)
    ensures Stable(m, st) ==> Undisturbed(m, st)
    ensures Undisturbed(m, st) ==> AtRest(st)
  {
    hide Selected, AfterSelection, ProcessInvokes;
    if Stable(m, st) { assert Since(st, st); }
  }

  /** Arrivals and the passing of time do not disturb. */
  lemma StillUndisturbed(m: Model, st: St, now: int, ev: Event)
    requires WellFormedModel(m) && Undisturbed(m, st)
    ensures Undisturbed(m, st.(now := now)) && Undisturbed(m, st.(now := now, mail := EnqueueExternal(st.mail, ev)))
  {
    hide Stable;
    var base :| Stable(m, base) && Since(base, st);
    assert Since(base, st.(now := now)) && Since(base, st.(now := now, mail := EnqueueExternal(st.mail, ev)));
  }

  lemma NextSettles(m: Model, st: St, budget: nat)
    requires WellFormedModel(m) && Live(m, st) && st.mail.externalQueue != [] && Undisturbed(m, st)
      && AllSettled(st.trace.consumed)
    ensures var r := ProcessNextExternal(m, st, budget);
            AllSettled(r.st.trace.consumed) && (r.finished && r.st.running ==> Undisturbed(m, r.st))
  {
    hide WellFormedModel, Live, Stable, Undisturbed, Kept, TakeExternal, RunToStable;
    TreeOf(m);
    var st1 := DequeueExternal(m, st);
    DequeueExternalIs(m, st);
    var st2 := TakeExternal(m, st1, st.mail.externalQueue[0]);
    RunsToCompletion(m, st2, budget);
    var r := RunToStable(m, st2, budget);
    StableIsUndisturbed(m, r.st);
  }

  lemma {:induction false} DrainSettles(m: Model, st: St, budget: nat)
    requires WellFormedModel(m) && Live(m, st) && AllSettled(st.trace.consumed) && (st.running ==> Undisturbed(m, st))
    ensures Waiting(m, DrainExternal(m, st, budget))
    decreases budget
  {
    hide Live, Onward, ProcessNextExternal, WellFormedModel, AllSettled, Undisturbed;
    if st.running && st.mail.externalQueue != [] && budget > 0 {
      NextSettles(m, st, budget - 1);
      var r := ProcessNextExternal(m, st, budget - 1);
      if r.finished { DrainSettles(m, r.st, budget - 1); }
    }
  }

  lemma FinishSettles(m: Model, r: Run, budget: nat)
    requires WellFormedModel(m) && Live(m, r.st) && AllSettled(r.st.trace.consumed)
      && (r.finished && r.st.running ==> Undisturbed(m, r.st))
    ensures Waiting(m, Finish(m, r, budget))
  {
    hide Live, Onward, DrainExternal, WellFormedModel, AllSettled, ExitInterpreter, Undisturbed;
    if r.finished {
      DrainSettles(m, r.st, budget);
      StableIsUndisturbed(m, DrainExternal(m, r.st, budget).st);
      var r1 := Drain(m, r.st, budget);
      assert r1 == DrainExternal(m, r.st, budget);
      if r1.finished && !r1.st.running { ExitConsumesNothing(m, r1.st); }
      else { assert Finish(m, r, budget) == r1; }
    }
  }

  lemma ExitConsumesNothing(m: Model, st: St)
    requires Live(m, st)
    ensures ExitInterpreter(m, st).trace.consumed == st.trace.consumed && ExitInterpreter(m, st).running == st.running
  {
    ExitEachIs(m, st, ExitOrder(m.chart, st.config));
  }

  // ---- what a drain leaves behind ----

  lemma {:induction false} ExternalsRunOut(m: Model, st: St, budget: nat)
    requires WellFormedModel(m) && Live(m, st)
    ensures var r := DrainExternal(m, st, budget); r.finished && r.st.running ==> r.st.mail.externalQueue == []
    decreases budget
  {
    hide Live, Onward, ProcessNextExternal, WellFormedModel, DrainExternal;
    DrainExternalUnrolled(m, st, budget);
    if st.running && st.mail.externalQueue != [] && budget > 0 {
      var r := ProcessNextExternal(m, st, budget - 1);
      if r.finished { ExternalsRunOut(m, r.st, budget - 1); }
    }
  }

  /** A drain that ends with the chart still running leaves in the external queue exactly the events that
      arrived during its last, internal part; so nothing when no internal event was waiting by then. */
  lemma DrainLeavesLateArrivals(m: Model, st: St, budget: nat)
    requires WellFormedModel(m) && Live(m, st)
    ensures var r, d := DrainExternal(m, st, budget), Drain(m, st, budget);
            d.finished && d.st.running ==>
              && r.st.mail.arrived <= d.st.mail.arrived
                && d.st.mail.externalQueue == d.st.mail.arrived[|r.st.mail.arrived|..]
              && (r.st.mail.internalQueue == [] ==> d.st.mail.externalQueue == [])
  {
    hide Live, Onward, WellFormedModel, DrainExternal, RunToStable, Drain;
    DrainUnrolled(m, st, budget);
    ExternalsRunOut(m, st, budget);
  }

  /** An external Send, a stop, a checkpoint or a query. */
  predicate IsSend(msg: Message) {
    msg.Stop? || (msg.Deliver? && msg.event.kind == External) || msg.TakeCheckpoint? || msg.Query?
  }

  lemma {:induction false} LoopSettles(m: Model, r: Run, inbox: seq<Arrival>, budget: nat)
    requires WellFormedModel(m) && Held(m, r) && Waiting(m, r) && forall i :: 0 <= i < |inbox| ==> IsSend(inbox[i].msg)
    ensures Waiting(m, Loop(m, r, inbox, budget))
    decreases |inbox|
  {
    hide Finish, WellFormedModel, Live, Undisturbed, Activate;
    if inbox != [] && r.finished && r.st.running {
      AtTime(m, r.st, inbox[0].now);
      LiveWhileRunning(m, r);
      StillUndisturbed(m, r.st, inbox[0].now, if inbox[0].msg.Deliver? then inbox[0].msg.event
        else PlatformEvent("", "", ""));
      FinishSettles(m, Receive(m, r.st.(now := inbox[0].now), inbox[0].msg, budget), budget);
      LoopSettles(m, Handle(m, r.st, inbox[0].msg, inbox[0].now, budget), inbox[1..], budget);
    }
  }

  lemma LiveWhileRunning(m: Model, r: Run)
    requires Held(m, r) && (r.st.running || !r.finished)
    ensures Live(m, r.st)
  {}

  /** Over a life of external Sends, external events are consumed in the order in which they arrived and
      internal ones in the order in which they were raised; each external one only from a stable state: no
      internal event or invocation waits, and the last selection enabled no eventless transition. */
  lemma SendsAreSettledAndInOrder(m: Model, now: int, early: bool, inbox: seq<Arrival>, budget: nat)
    requires WellFormedModel(m) && forall i :: 0 <= i < |inbox| ==> IsSend(inbox[i].msg)
    ensures var r := Life(m, now, early, inbox, budget);
            && AllSettled(r.st.trace.consumed) && Events(r.st.trace.consumed) <= r.st.mail.arrived
            && r.st.trace.taken <= r.st.mail.raised
            && (r.finished && r.st.running ==>
              Idle(r.st) && Undisturbed(m, r.st)
              && Events(r.st.trace.consumed) == r.st.mail.arrived && r.st.trace.taken == r.st.mail.raised)
  {
    hide Validator.Accepted, Founded, Shape, Lawful, Legal, Entered, RunToStable, Stable, Undisturbed, Finish, Loop;
    EnteredIsLive(m, now, early);
    var st := Entered(m, now, early);
    RunsToCompletion(m, st, budget);
    var r := Start(m, now, early, budget);
    StableIsUndisturbed(m, r.st);
    assert st.trace.consumed == [];
    FinishSettles(m, r, budget);
    LoopSettles(m, Boot(m, now, early, budget), inbox, budget);
    StableIsUndisturbed(m, Life(m, now, early, inbox, budget).st);
  }

  // ---- every Send arrives ----

  /** xs occur in ys, in this order. */
  ghost predicate Among(xs: seq<Event>, ys: seq<Event>)
    decreases |xs|
  {
    xs == [] || exists i {:trigger ys[i]} :: 0 <= i < |ys| && ys[i] == xs[0] && Among(xs[1..], ys[i + 1..])
  }

  lemma AmongLater(xs: seq<Event>, ys: seq<Event>, k: nat)
    requires k <= |ys| && Among(xs, ys[k..])
    ensures Among(xs, ys)
  {
    if xs != [] {
      var i :| 0 <= i < |ys[k..]| && ys[k..][i] == xs[0] && Among(xs[1..], ys[k..][i + 1..]);
      assert ys[k..][i + 1..] == ys[i + k + 1..];
      assert ys[i + k] == xs[0];
    }
  }

  lemma NothingAmong(q: Mail)
    ensures ArrivedAmong(q, q, [])
  {}

  /** A delivery that the hook accepts and that is not from an invocation. */
  predicate IsAppSend(msg: Message) {
    msg.Deliver? && msg.event.kind == External && msg.event.invokeId == "" && msg.hookOk
  }

  ghost predicate AllAppSends(inbox: seq<Arrival>) {
    forall i {:trigger inbox[i]} :: 0 <= i < |inbox| ==> IsAppSend(inbox[i].msg)
  }

  ghost function EventsOf(inbox: seq<Arrival>): seq<Event>
    decreases |inbox|
  {
    if inbox == [] || !inbox[0].msg.Deliver? then [] else [inbox[0].msg.event] + EventsOf(inbox[1..])
  }

  /** From q to q' these events arrived, in this order, among others. */
  ghost predicate ArrivedAmong(q: Mail, q': Mail, events: seq<Event>) {
    q.arrived <= q'.arrived && Among(events, q'.arrived[|q.arrived|..])
  }

  lemma HandleArrives(m: Model, st: St, a: Arrival, budget: nat)
    requires WellFormedModel(m) && Live(m, st) && IsAppSend(a.msg)
    ensures var r := Handle(m, st, a.msg, a.now, budget);
      r.finished && r.st.running ==> st.mail.arrived + [a.msg.event] <= r.st.mail.arrived
  {
    hide WellFormedModel, Live, Receive, Drain, ExitInterpreter, PostingOf;
    AtTime(m, st, a.now);
    ReceiveIs(m, st.(now := a.now), a.msg, budget);
    var r := Receive(m, st.(now := a.now), a.msg, budget);
    var d := Drain(m, r.st, budget);
    if d.finished && !d.st.running { ExitConsumesNothing(m, d.st); }
  }

  lemma {:induction false} LoopArrives(m: Model, r: Run, inbox: seq<Arrival>, budget: nat)
    requires WellFormedModel(m) && Held(m, r) && AllAppSends(inbox)
    ensures var d := Loop(m, r, inbox, budget);
      d.finished && d.st.running ==> ArrivedAmong(r.st.mail, d.st.mail, EventsOf(inbox))
    decreases |inbox|
  {
    hide WellFormedModel, Held, Live, Handle, Among, ArrivedAmong;
    if inbox == [] {
      NothingAmong(r.st.mail);
    } else if r.finished && r.st.running {
      LiveWhileRunning(m, r);
      var h := Handle(m, r.st, inbox[0].msg, inbox[0].now, budget);
      assert IsAppSend(inbox[0].msg) && AllAppSends(inbox[1..]);
      HandleArrives(m, r.st, inbox[0], budget);
      LoopArrives(m, h, inbox[1..], budget);
      var d := Loop(m, r, inbox, budget);
      if d.finished && d.st.running { AmongNext(EventsOf(inbox), r.st.mail, h.st.mail, d.st.mail); }
    }
  }

  lemma AmongNext(xs: seq<Event>, a: Mail, b: Mail, d: Mail)
    requires xs != [] && a.arrived + [xs[0]] <= b.arrived && ArrivedAmong(b, d, xs[1..])
    ensures ArrivedAmong(a, d, xs)
  {
    hide Among;
    var ys, n := d.arrived[|a.arrived|..], |b.arrived| - |a.arrived| - 1;
    assert ys[1..][n..] == d.arrived[|b.arrived|..];
    AmongLater(xs[1..], ys[1..], n);
    AmongFirst(xs, ys);
  }

  lemma AmongFirst(xs: seq<Event>, ys: seq<Event>)
    requires xs != [] && ys != [] && ys[0] == xs[0] && Among(xs[1..], ys[1..])
    ensures Among(xs, ys)
  {
    assert ys[0 + 1..] == ys[1..];
  }

  /** Every Send of an inbox arrives, in order: whatever else the instance sends itself meanwhile, if it runs on,
      the events of the inbox are among those that arrived. */
  lemma EverySendArrives(m: Model, now: int, early: bool, inbox: seq<Arrival>, budget: nat)
    requires WellFormedModel(m) && AllAppSends(inbox)
    ensures var r := Life(m, now, early, inbox, budget);
      r.finished && r.st.running ==> Among(EventsOf(inbox), Events(r.st.trace.consumed))
  {
    hide WellFormedModel, Held, Boot, Loop, Among, Undisturbed, AllSettled, EventsOf;
    var r0, r := Boot(m, now, early, budget), Life(m, now, early, inbox, budget);
    LoopArrives(m, r0, inbox, budget);
    assert forall i :: 0 <= i < |inbox| ==> IsAppSend(inbox[i].msg);
    SendsAreSettledAndInOrder(m, now, early, inbox, budget);
    if r.finished && r.st.running { AmongLater(EventsOf(inbox), r.st.mail.arrived, |r0.st.mail.arrived|); }
  }
}
