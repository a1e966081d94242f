/**
 The actor around the interpreter (instance.go:637-677, 765-786, 824-950): requests, draining, timers
 becoming live, and the exit of the interpreter.  A request reads the clock once; activating the timers
 reads it anew for every record.
 */
module Instances {
  import opened Charts
  import opened Validator
  import opened WellFormed
  import opened Machine
  import opened Bookkeeping
  import opened Deliveries
  import opened Invocations
  import opened Steps
  import opened Runs
  import opened Macrosteps

  /** Nothing internal is waiting. */
  predicate AtRest(st: St) { st.mail.internalQueue == [] && st.statesToInvoke == {} }

  /** Since the state `base`, external events arrived and time passed, and nothing else. */
  ghost predicate Since(base: St, st: St) {
    st == base.(now := st.now, mail := base.mail.(externalQueue := st.mail.externalQueue, arrived := st.mail.arrived))
  }

  /** The last macrostep ran to completion, and nothing has been processed since. */
  ghost predicate Undisturbed(m: Model, st: St)
    requires Tree(m.chart)
  {
    exists base {:trigger Since(base, st)} :: Stable(m, base) && Since(base, st)
  }

  ghost function DequeueExternal(m: Model, st: St): St
    requires Tree(m.chart) && st.mail.externalQueue != []
  {
    var ev := st.mail.externalQueue[0];
    st.(mail := st.mail.(externalQueue := st.mail.externalQueue[1..]), event := Some(ev),
        trace := st.trace.(consumed := st.trace.consumed + [Consumption(ev, Undisturbed(m, st))]))
  }

  lemma DequeueExternalIs(m: Model, st: St)
    requires Tree(m.chart) && st.mail.externalQueue != [] && Live(m, st)
    ensures Live(m, DequeueExternal(m, st))
  {
    var st' := DequeueExternal(m, st);
    assert Events(st'.trace.consumed) == Events(st.trace.consumed) + [st.mail.externalQueue[0]];
    assert st.mail.externalQueue == [st.mail.externalQueue[0]] + st'.mail.externalQueue;
  }

  /** From a to b the timers `fired` were dispatched; nothing armed before a became pending again. */
  ghost predicate Onward(a: St, b: St, fired: seq<nat>) {
    && b.mail.dispatched == a.mail.dispatched + fired && OnlyNewer(a.mail, b.mail)
    && a.mail.arrived <= b.mail.arrived && a.mail.raised <= b.mail.raised && a.mail.requests <= b.mail.requests
    && a.trace.consumed <= b.trace.consumed && a.trace.configs <= b.trace.configs && a.trace.taken <= b.trace.taken
    && a.trace.calls <= b.trace.calls
  }

  lemma OnwardTrans(a: St, b: St, d: St, fired: seq<nat>, again: seq<nat>)
    requires Onward(a, b, fired) && Onward(b, d, again)
    ensures Onward(a, d, fired + again)
  {
    assert a.mail.dispatched + fired + again == a.mail.dispatched + (fired + again);
  }

  lemma AheadIsOnward(a: St, b: St)
    requires Ahead(a, b)
    ensures Onward(a, b, [])
  {}

  /** The finalize content of the running invocation that sent the event, if there is one. */
  ghost function FinalizeCalls(st: St, ev: Event): seq<Call> {
    if ev.invokeId != "" && ev.invokeId in st.byId
    then [BlockRun(Finalize(st.byId[ev.invokeId].owner, st.byId[ev.invokeId].spec), st.config)] else []
  }

  /** An external event from a running invocation runs that invocation's finalize content, which raises and sends
      nothing; any other event runs nothing. */
  lemma InvokeSideEffectsAre(m: Model, st: St, ev: Event)
    ensures var st' := InvokeSideEffects(m, st, ev);
      && Content(st, st', FinalizeCalls(st, ev))
      && exists n: nat :: Gains(st.mail, st'.mail, Posting(Errors(n), [], []))
  {
    NoContent(st);
    if ev.invokeId != "" && ev.invokeId in st.byId {
      var owner, spec := st.byId[ev.invokeId].owner, st.byId[ev.invokeId].spec;
      RunFinalizeIs(m, st, owner, spec);
      assert Gains(st.mail, InvokeSideEffects(m, st, ev).mail,
        Posting(Errors(|m.run(ViewOf(st), Finalize(owner, spec)).effects|), [], []));
    } else {
      assert Errors(0) == [];
      assert Gains(st.mail, st.mail, Posting(Errors(0), [], []));
    }
  }

  function AfterFinalize(m: Model, st: St, ev: Event): (r: St)
    requires WellFormedModel(m) && Live(m, st)
    ensures Live(m, r) && Ahead(st, r)
  {
    InvokeSideEffectsAre(m, st, ev);
    ContentSound(m, st, InvokeSideEffects(m, st, ev), FinalizeCalls(st, ev));
    InvokeSideEffects(m, st, ev)
  }

  /** Finalize content, selection and microstep for a dequeued external event. */
  function TakeExternal(m: Model, st: St, ev: Event): (r: St)
    requires WellFormedModel(m) && Live(m, st)
    ensures Live(m, r) && Ahead(st, r)
  {
    var st1 := AfterFinalize(m, st, ev);
    var st2 := TakeSelected(m, st1, Some(ev));
    AheadTrans(st, st1, st2);
    st2
  }

  lemma DequeuedOnward(m: Model, a: St, b: St)
    requires Tree(m.chart) && a.mail.externalQueue != [] && Ahead(DequeueExternal(m, a), b)
    ensures Onward(a, b, [])
  {}

  /** processNextExternal (interpreter.go:1553-1568). */
  ghost function ProcessNextExternal(m: Model, st: St, budget: nat): (r: Run)
    requires WellFormedModel(m) && Live(m, st) && st.mail.externalQueue != []
    ensures Live(m, r.st) && Ahead(DequeueExternal(m, st), r.st) && Onward(st, r.st, [])
  {
    var st1 := DequeueExternal(m, st);
    DequeueExternalIs(m, st);
    var st2 := TakeExternal(m, st1, st.mail.externalQueue[0]);
    var r := RunToStable(m, st2, budget);
    AheadTrans(st1, st2, r.st);
    DequeuedOnward(m, st, r.st);
    r
  }

  /** The event taken is the earliest that arrived and was not consumed yet, and it is the one selected for. */
  lemma NextTakesEarliest(m: Model, st: St, budget: nat) returns (st': St)
    requires WellFormedModel(m) && Live(m, st) && st.mail.externalQueue != []
    ensures |st.trace.consumed| < |st.mail.arrived| && st'.event == Some(st.mail.arrived[|st.trace.consumed|])
    ensures Events(st'.trace.consumed) == Events(st.trace.consumed) + [st.mail.arrived[|st.trace.consumed|]]
    ensures Live(m, st') && ProcessNextExternal(m, st, budget) ==
      RunToStable(m, TakeSelected(m, AfterFinalize(m, st', st'.event.value), st'.event), budget)
  {
    hide WellFormedModel, Ahead, Undisturbed;
    TreeOf(m);
    DequeueExternalIs(m, st);
    st' := DequeueExternal(m, st);
    assert |Events(st.trace.consumed)| == |st.trace.consumed|;
    assert Events(st'.trace.consumed) == Events(st.trace.consumed) + [st.mail.externalQueue[0]];
  }

  /** The loop of drainQueuedEvents. */
  ghost function DrainExternal(m: Model, st: St, budget: nat): (r: Run)
    requires WellFormedModel(m) && Live(m, st)
    ensures Live(m, r.st) && Onward(st, r.st, [])
    decreases budget
  {
    if !st.running || st.mail.externalQueue == [] || budget == 0
      then Run(st, !st.running || st.mail.externalQueue == [])
    else
      var r := ProcessNextExternal(m, st, budget - 1);
      if !r.finished then r
      else
        var d := DrainExternal(m, r.st, budget - 1);
        OnwardTrans(st, r.st, d.st, [], []);
        d
  }

  /** drainQueuedEvents (instance.go:765-786): external events first, then one internal drain. */
  ghost function Drain(m: Model, st: St, budget: nat): (r: Run)
    requires WellFormedModel(m) && Live(m, st)
    ensures Live(m, r.st) && Onward(st, r.st, [])
  {
    var r := DrainExternal(m, st, budget);
    if r.finished && r.st.running && r.st.mail.internalQueue != [] then
      var d := RunToStable(m, r.st, budget);
      AheadIsOnward(r.st, d.st);
      OnwardTrans(st, r.st, d.st, [], []);
      d
    else r
  }

  /** The drain loop, one event unrolled. */
  lemma DrainExternalUnrolled(m: Model, st: St, budget: nat)
    requires WellFormedModel(m) && Live(m, st)
    ensures DrainExternal(m, st, budget) ==
              if !st.running || st.mail.externalQueue == [] || budget == 0
                then Run(st, !st.running || st.mail.externalQueue == [])
              else if !ProcessNextExternal(m, st, budget - 1).finished then ProcessNextExternal(m, st, budget - 1)
              else DrainExternal(m, ProcessNextExternal(m, st, budget - 1).st, budget - 1)
  {
    hide WellFormedModel, Live, ProcessNextExternal, Ahead, Onward, DequeueExternal;
  }

  lemma DrainUnrolled(m: Model, st: St, budget: nat)
    requires WellFormedModel(m) && Live(m, st)
    ensures var r := DrainExternal(m, st, budget);
            Drain(m, st, budget) == if r.finished && r.st.running && r.st.mail.internalQueue != []
              then RunToStable(m, r.st, budget) else r
  {
    hide WellFormedModel, Live, DrainExternal, RunToStable, Ahead, Onward;
  }

  // ---- exit (interpreter.go:1261-1274) ----

  function DropPending(q: Mail): Mail { q.(pending := [], dropped := q.dropped + Orders(q.pending)) }

  /** exitInterpreter. */
  function ExitInterpreter(m: Model, st: St): St {
    var st1 := ExitEach(m, st, ExitOrder(m.chart, st.config));
    st1.(mail := DropPending(st1.mail))
  }

  /** Nothing is left behind: no active state, no invocation in either index, none waiting, no pending send. */
  ghost predicate Gone(st: St) {
    st.config == {} && st.active == map[] && st.byId == map[] && st.statesToInvoke == {} && st.mail.pending == []
  }

  lemma DropPendingBalances(q: Mail)
    requires Ledger(q)
    ensures Ledger(DropPending(q))
  {
    assert multiset(q.dropped + Orders(q.pending)) == multiset(q.dropped) + multiset(Orders(q.pending));
  }

  /** The exit content of all active states ran, descendants first, each seeing what was not left yet. */
  ghost predicate ExitsRun(m: Model, st: St, st': St) {
    st'.trace.calls == st.trace.calls + ExitCalls(st.config, ExitOrder(m.chart, st.config))
  }

  /** The exit runs every active state's exit content, descendants first, and leaves nothing behind. */
  lemma ExitIsClean(m: Model, st: St)
    requires WellFormedModel(m) && Live(m, st)
    ensures var st' := ExitInterpreter(m, st);
            Sound(m, st') && Gone(st') && ExitsRun(m, st, st')
            && st'.running == st.running && st'.completed == st.completed
  {
    hide Validator.Accepted, Founded, Shape, ExitEach, Kept, Ledger, InvokeOk, Indexed;
    var c := m.chart;
    var xs := ExitOrder(c, st.config);
    OrdersAre(c, st.config);
    ExitEachIs(m, st, xs);
    var st1 := ExitEach(m, st, xs);
    KeptFifo(st.mail, st1.mail, Events(st.trace.consumed), st.trace.taken);
    KeptLedger(st.mail, st1.mail);
    assert st1.config == {};
    assert st1.statesToInvoke == {};
    NothingIndexed(st1.active, st1.byId);
    DropPendingBalances(st1.mail);
  }

  // ---- timers ----

  function Position(ps: seq<Pending>, order: nat): (r: Option<nat>)
    ensures r.Some? ==> r.value < |ps| && ps[r.value].order == order
    ensures r.None? ==> forall p :: p in ps ==> p.order != order
  {
    if ps == [] then None
    else if ps[0].order == order then Some(0)
    else
      match Position(ps[1..], order)
      case None => None
      case Some(i) => Some(i + 1)
  }

  lemma FiredIsLive(m: Model, st: St, i: nat)
    requires Live(m, st) && i < |st.mail.pending|
    ensures var st' := st.(mail := FireTimer(m, st.mail, i));
      Live(m, st') && Onward(st, st', [st.mail.pending[i].order])
  {
    FireTimerMoved(m, st.mail, i);
    MovedFifo(st.mail, FireTimer(m, st.mail, i), [st.mail.pending[i].order], Events(st.trace.consumed), st.trace.taken);
  }

  lemma StoppedIsLive(m: Model, st: St)
    requires Live(m, st)
    ensures Live(m, st.(running := false)) && Onward(st, st.(running := false), [])
  {}

  /** handleTimerFire (interpreter.go:336-348): a cancelled record is ignored, a vetoing hook stops the instance. */
  function HandleTimerFire(m: Model, st: St, order: nat, hookOk: bool): (r: St)
    requires Live(m, st)
    ensures Live(m, r)
  {
    match Position(st.mail.pending, order)
    case None => st
    case Some(i) =>
      FiredIsLive(m, st, i);
      StoppedIsLive(m, st);
      if hookOk then st.(mail := FireTimer(m, st.mail, i)) else st.(running := false)
  }

  /** The first pending record, in (fireAt, order) order, that matches a logged fire: exactly if any does. */
  function FirstMatch(ps: seq<Pending>, sendId: string, target: string, typ: string, name: string,
    exact: bool): (r: Option<nat>)
    ensures r.Some? ==> r.value < |ps|
  {
    if ps == [] then None
    else if ps[0].sendId == sendId && (exact ==> ps[0].target == target && ps[0].typ == typ && ps[0].event.name == name)
      then Some(0)
    else
      match FirstMatch(ps[1..], sendId, target, typ, name, exact)
      case None => None
      case Some(i) => Some(i + 1)
  }

  function BestMatch(ps: seq<Pending>, sendId: string, target: string, typ: string, name: string): (r: Option<nat>)
    ensures r.Some? ==> r.value < |ps|
  {
    var exact := FirstMatch(ps, sendId, target, typ, name, true);
    if exact.Some? then exact else FirstMatch(ps, sendId, target, typ, name, false)
  }

  /** replayTimerFire (interpreter.go:363-394), or the bare dispatch when no record matches (instance.go:902-910). */
  function ReplayFire(m: Model, q: Mail, sendId: string, target: string, typ: string, ev: Event): Mail {
    match BestMatch(q.pending, sendId, target, typ, ev.name)
    case None => Dispatch(m, q, sendId, target, typ, ev)
    case Some(i) => Dispatch(m, Due(q, i), sendId, target, typ, ev)
  }

  lemma ReplayFireIsLive(m: Model, st: St, sendId: string, target: string, typ: string, ev: Event)
    requires Live(m, st)
    ensures Live(m, st.(mail := ReplayFire(m, st.mail, sendId, target, typ, ev)))
  {
    match BestMatch(st.mail.pending, sendId, target, typ, ev.name)
    case None =>
      DispatchKept(m, st.mail, sendId, target, typ, ev);
      KeptFifo(st.mail, Dispatch(m, st.mail, sendId, target, typ, ev), Events(st.trace.consumed), st.trace.taken);
    case Some(i) =>
      DueMoved(st.mail, i);
      DispatchKept(m, Due(st.mail, i), sendId, target, typ, ev);
      MovedFifo(st.mail, Due(st.mail, i), [st.mail.pending[i].order], Events(st.trace.consumed), st.trace.taken);
      KeptFifo(Due(st.mail, i), Dispatch(m, Due(st.mail, i), sendId, target, typ, ev), Events(st.trace.consumed),
        st.trace.taken);
  }

  /** What activating the timers did: where it got to, the records fired, in order, and the records armed on the
      live clock. */
  datatype Activation = Activation(run: Run, fired: seq<nat>, armed: set<nat>)

  /** One overdue record: it fires, and what it causes runs to stability. */
  ghost function FireAndDrain(m: Model, st: St, i: nat, budget: nat): (r: Run)
    requires WellFormedModel(m) && Live(m, st) && i < |st.mail.pending|
    ensures Live(m, r.st) && Onward(st, r.st, [st.mail.pending[i].order])
  {
    FiredIsLive(m, st, i);
    var st1 := st.(mail := FireTimer(m, st.mail, i));
    var r := Drain(m, st1, budget);
    OnwardTrans(st, st1, r.st, [st.mail.pending[i].order], []);
    r
  }

  /** The turn of one record, and the clock as it reads then. */
  datatype Turn = Turn(order: nat, now: int)

  function TurnOrders(turns: seq<Turn>): seq<nat> { seq(|turns|, i requires 0 <= i < |turns| => turns[i].order) }

  /** The loop of activatePendingTimers (instance.go:637-677) over the records in `turns`; the timer hook
      vetoes `vetoed`. */
  ghost function Activate(m: Model, st: St, turns: seq<Turn>, vetoed: set<nat>, budget: nat): (a: Activation)
    requires WellFormedModel(m) && Live(m, st)
    ensures Live(m, a.run.st) && Onward(st, a.run.st, a.fired)
    decreases turns
  {
    if turns == [] then Activation(Run(st, true), [], {})
    else
      var order := turns[0].order;
      match Position(st.mail.pending, order)
      case None => Activate(m, st, turns[1..], vetoed, budget)
      case Some(i) =>
        var st1 := st.(now := turns[0].now);
        ClockIsLive(m, st, turns[0].now);
        if st.mail.pending[i].fireAt > turns[0].now then
          var a := Activate(m, st1, turns[1..], vetoed, budget);
          a.(armed := a.armed + {order})
        else if order in vetoed then
          StoppedIsLive(m, st1);
          Activation(Run(st1.(running := false), true), [], {})
        else
          var r := FireAndDrain(m, st1, i, budget);
          if !r.finished || !r.st.running then Activation(r, [order], {})
          else
            var a := Activate(m, r.st, turns[1..], vetoed, budget);
            OnwardTrans(st1, r.st, a.run.st, [order], a.fired);
            a.(fired := [order] + a.fired)
  }

  lemma ClockIsLive(m: Model, st: St, now: int)
    requires Live(m, st)
    ensures Live(m, st.(now := now)) && Onward(st, st.(now := now), [])
  {}

  ghost predicate Subsequence(xs: seq<nat>, ys: seq<nat>) {
    if xs == [] then true
    else if ys == [] then false
    else if xs[0] == ys[0] && Subsequence(xs[1..], ys[1..]) then true
    else Subsequence(xs, ys[1..])
  }

  /** The record `order` of ps was due when its turn came. */
  ghost predicate Overdue(ps: seq<Pending>, turns: seq<Turn>, order: nat) {
    exists p, t :: p in ps && t in turns && p.order == t.order == order && p.fireAt <= t.now
  }

  ghost predicate NotYet(ps: seq<Pending>, turns: seq<Turn>, order: nat) {
    exists p, t :: p in ps && t in turns && p.order == t.order == order && p.fireAt > t.now
  }

  /** What activation over `turns` promises of the records ps that were pending up to number n: the fired
      ones were overdue at their turn and fired in order, the armed ones were not due, and if the chart
      still runs nothing is left that is neither armed nor newer. */
  ghost predicate Activated(a: Activation, ps: seq<Pending>, n: nat, turns: seq<Turn>) {
    && Subsequence(a.fired, TurnOrders(turns))
    && (forall o :: o in a.fired ==> Overdue(ps, turns, o)) && (forall o :: o in a.armed ==> NotYet(ps, turns, o))
    && (a.run.finished && a.run.st.running ==>
          forall p :: p in a.run.st.mail.pending && p.order <= n && p.order in TurnOrders(turns) ==> p.order in a.armed)
  }

  /** Every record of qs numbered up to n was in ps already. */
  ghost predicate Within(qs: seq<Pending>, ps: seq<Pending>, n: nat) { forall p :: p in qs && p.order <= n ==> p in ps }

  lemma TurnsTail(turns: seq<Turn>)
    requires turns != []
    ensures TurnOrders(turns) == [turns[0].order] + TurnOrders(turns[1..]) && forall t :: t in turns <==>
      t == turns[0] || t in turns[1..]
  {
    assert turns == [turns[0]] + turns[1..];
  }

  lemma OverdueLater(ps: seq<Pending>, qs: seq<Pending>, n: nat, turns: seq<Turn>, o: nat)
    requires turns != [] && Within(qs, ps, n) && o <= n
    ensures Overdue(qs, turns[1..], o) ==> Overdue(ps, turns, o)
    ensures NotYet(qs, turns[1..], o) ==> NotYet(ps, turns, o)
  {
    TurnsTail(turns);
    if Overdue(qs, turns[1..], o) {
      var p, t :| p in qs && t in turns[1..] && p.order == t.order == o && p.fireAt <= t.now;
      assert p in ps && t in turns;
    }
    if NotYet(qs, turns[1..], o) {
      var p, t :| p in qs && t in turns[1..] && p.order == t.order == o && p.fireAt > t.now;
      assert p in ps && t in turns;
    }
  }

  /** The rest of the turns was activated from the records qs, and no record of the first turn is left
      that is not armed. */
  lemma OneTurn(a: Activation, b: Activation, ps: seq<Pending>, qs: seq<Pending>, n: nat, turns: seq<Turn>)
    requires turns != [] && Activated(b, qs, n, turns[1..]) && Within(qs, ps, n) && a.run == b.run
    requires (forall o :: o in b.fired || o in b.armed ==> o <= n)
    requires a == b || (a == b.(armed := b.armed + {turns[0].order}) && NotYet(ps, turns, turns[0].order))
      || (a == b.(fired := [turns[0].order] + b.fired) && Overdue(ps, turns, turns[0].order))
    requires forall p :: p in a.run.st.mail.pending && p.order == turns[0].order && p.order <= n ==> p.order in a.armed
    ensures Activated(a, ps, n, turns)
  {
    TurnsTail(turns);
    assert ([turns[0].order] + b.fired)[1..] == b.fired;
    assert TurnOrders(turns)[1..] == TurnOrders(turns[1..]);
    forall o | o in a.fired ensures Overdue(ps, turns, o) { if o in b.fired { OverdueLater(ps, qs, n, turns, o); } }
    forall o | o in a.armed ensures NotYet(ps, turns, o) { if o in b.armed { OverdueLater(ps, qs, n, turns, o); } }
  }

  lemma DispatchedIsGone(q: Mail, o: nat)
    requires Ledger(q) && o in q.dispatched
    ensures forall p :: p in q.pending ==> p.order != o
  {
    LedgerExclusive(q, o);
    forall p | p in q.pending ensures p.order != o {
      var i :| 0 <= i < |q.pending| && q.pending[i] == p;
      assert Orders(q.pending)[i] == p.order;
      assert p.order in multiset(Orders(q.pending));
    }
  }

  lemma {:induction false} ActivateAmong(m: Model, st: St, turns: seq<Turn>, vetoed: set<nat>, budget: nat)
    requires WellFormedModel(m) && Live(m, st)
    ensures var a := Activate(m, st, turns, vetoed, budget);
      forall o :: o in a.fired || o in a.armed ==> o in TurnOrders(turns)
    decreases |turns|
  {
    hide WellFormedModel, Live, Onward, FireAndDrain;
    if turns != [] {
      TurnsTail(turns);
      match Position(st.mail.pending, turns[0].order)
      case None => ActivateAmong(m, st, turns[1..], vetoed, budget);
      case Some(i) =>
        var st1 := st.(now := turns[0].now);
        ClockIsLive(m, st, turns[0].now);
        if st.mail.pending[i].fireAt > turns[0].now {
          ActivateAmong(m, st1, turns[1..], vetoed, budget);
        } else if turns[0].order !in vetoed {
          var r := FireAndDrain(m, st1, i, budget);
          if r.finished && r.st.running { ActivateAmong(m, r.st, turns[1..], vetoed, budget); }
        }
    }
  }

  lemma StopsAtOne(r: Run, ps: seq<Pending>, n: nat, turns: seq<Turn>)
    requires turns != [] && Overdue(ps, turns, turns[0].order) && !(r.finished && r.st.running)
    ensures Activated(Activation(r, [turns[0].order], {}), ps, n, turns)
  {
    TurnsTail(turns);
    assert [turns[0].order][1..] == [];
  }

  ghost predicate UpToNumber(turns: seq<Turn>, n: nat) { forall i :: 0 <= i < |turns| ==> turns[i].order <= n }

  lemma AmongUpTo(turns: seq<Turn>, n: nat, o: nat)
    requires UpToNumber(turns, n) && o in TurnOrders(turns)
    ensures o <= n
  {}

  lemma {:induction false} ActivateIs(m: Model, st: St, turns: seq<Turn>, vetoed: set<nat>, budget: nat, n: nat)
    requires WellFormedModel(m) && Live(m, st) && n <= st.mail.pendingSeq && UpToNumber(turns, n)
    ensures Activated(Activate(m, st, turns, vetoed, budget), st.mail.pending, n, turns)
    decreases |turns|, 0
  {
    hide WellFormedModel, Live, FireAndDrain, Activated;
    if turns == [] {
      ActivatedNothing(Run(st, true), st.mail.pending, n);
    } else {
      var rest, order := turns[1..], turns[0].order;
      var a := Activate(m, st, turns, vetoed, budget);
      assert turns[0] in turns;
      match Position(st.mail.pending, order)
      case None =>
        ActivateRest(m, st, rest, vetoed, budget, n);
        OneTurn(a, Activate(m, st, rest, vetoed, budget), st.mail.pending, st.mail.pending, n, turns);
      case Some(i) =>
        var st1 := st.(now := turns[0].now);
        ClockIsLive(m, st, turns[0].now);
        assert st.mail.pending[i] in st.mail.pending;
        if st.mail.pending[i].fireAt > turns[0].now {
          ActivateRest(m, st1, rest, vetoed, budget, n);
          OneTurn(a, Activate(m, st1, rest, vetoed, budget), st.mail.pending, st.mail.pending, n, turns);
        } else if order in vetoed {
          ActivatedVeto(a, st.mail.pending, n, turns);
        } else {
          var r := FireAndDrain(m, st1, i, budget);
          if r.finished && r.st.running {
            ActivateRest(m, r.st, rest, vetoed, budget, n);
            var b := Activate(m, r.st, rest, vetoed, budget);
            assert order in b.run.st.mail.dispatched;
            LedgerOf(m, b.run.st);
            DispatchedIsGone(b.run.st.mail, order);
            OneTurn(a, b, st.mail.pending, r.st.mail.pending, n, turns);
          } else {
            StopsAtOne(r, st.mail.pending, n, turns);
          }
        }
    }
  }

  lemma {:induction false} ActivateRest(m: Model, st: St, turns: seq<Turn>, vetoed: set<nat>, budget: nat, n: nat)
    requires WellFormedModel(m) && Live(m, st) && n <= st.mail.pendingSeq && UpToNumber(turns, n)
    ensures var a := Activate(m, st, turns, vetoed, budget);
      Activated(a, st.mail.pending, n, turns) && forall o :: o in a.fired || o in a.armed ==> o <= n
    decreases |turns|, 1
  {
    hide WellFormedModel, Live, Activated, Activate, UpToNumber;
    ActivateIs(m, st, turns, vetoed, budget, n);
    ActivateAmong(m, st, turns, vetoed, budget);
    var a := Activate(m, st, turns, vetoed, budget);
    forall o | o in a.fired || o in a.armed ensures o <= n { AmongUpTo(turns, n, o); }
  }

  // ---- a timer that fires delivers ----

  /** At least this was posted between q and q'; what was queued may have been taken since. */
  ghost predicate GainsAtLeast(q: Mail, q': Mail, p: Posting) {
    && q.raised + p.inside <= q'.raised && q.arrived + p.outside <= q'.arrived
    && q.requests + p.requests <= q'.requests
  }

  /** Between a and b there was the moment q at which the pending record r was posted. */
  ghost predicate PostedAt(m: Model, a: Mail, b: Mail, q: Mail, r: Pending) {
    && OnlyNewer(a, q) && a.raised <= q.raised && a.arrived <= q.arrived && a.requests <= q.requests
    && r in q.pending && GainsAtLeast(q, b, PostingOf(m, q.dispatchSeq + 1, r.sendId, r.target, r.typ, r.event))
  }

  /** Between a and b the record with this number was posted, to where its target and type say. */
  ghost predicate PostedBetween(m: Model, a: Mail, b: Mail, order: nat) {
    exists q, r {:trigger PostedAt(m, a, b, q, r)} :: PostedAt(m, a, b, q, r) && r.order == order
  }

  lemma PostedWider(m: Model, a: St, a': St, b': St, b: St, order: nat, fired: seq<nat>, again: seq<nat>)
    requires Onward(a, a', fired) && Onward(b', b, again) && PostedBetween(m, a'.mail, b'.mail, order)
    ensures PostedBetween(m, a.mail, b.mail, order)
  {
    hide PostingOf;
    var q, r :| PostedAt(m, a'.mail, b'.mail, q, r) && r.order == order;
    NewerTrans(a.mail, a'.mail, q);
    assert PostedAt(m, a.mail, b.mail, q, r);
  }

  lemma NothingOnward(st: St)
    ensures Onward(st, st, [])
  {}

  ghost predicate FiredByNumber(m: Model, q: Mail, q': Mail, order: nat) {
    exists p {:trigger FiredOnce(m, q, q', p)} :: p in q.pending && p.order == order && FiredOnce(m, q, q', p)
  }

  /** An elapsed timer: a record that is gone is ignored, a veto stops the machine, and otherwise exactly that
      record leaves the pending sends, and its event goes to where its target and type say. */
  lemma TimerDelivers(m: Model, st: St, order: nat, hookOk: bool)
    requires Live(m, st)
    ensures var st' := HandleTimerFire(m, st, order, hookOk);
      if forall p :: p in st.mail.pending ==> p.order != order then st' == st
      else if !hookOk then st' == st.(running := false)
      else st' == st.(mail := st'.mail) && FiredByNumber(m, st.mail, st'.mail, order)
  {
    hide Sound, FiredOnce, FireTimer;
    match Position(st.mail.pending, order)
    case None =>
    case Some(i) =>
      LedgerOf(m, st);
      FireTimerDelivers(m, st.mail, i);
      assert st.mail.pending[i] in st.mail.pending;
  }

  lemma FireDelivers(m: Model, st: St, i: nat, budget: nat)
    requires WellFormedModel(m) && Live(m, st) && i < |st.mail.pending|
    ensures PostedBetween(m, st.mail, FireAndDrain(m, st, i, budget).st.mail, st.mail.pending[i].order)
  {
    hide WellFormedModel, Live, FireTimer, PostingOf, Drain;
    LedgerOf(m, st);
    FireTimerDelivers(m, st.mail, i);
    FiredIsLive(m, st, i);
    var st1 := st.(mail := FireTimer(m, st.mail, i));
    var r := Drain(m, st1, budget);
    assert PostedAt(m, st.mail, r.st.mail, st.mail, st.mail.pending[i]);
  }

  ghost predicate AllPosted(m: Model, a: Mail, b: Mail, fired: seq<nat>) {
    forall i {:trigger fired[i]} :: 0 <= i < |fired| ==> PostedBetween(m, a, b, fired[i])
  }

  lemma AllPostedWider(m: Model, a: St, a': St, b: St, fired: seq<nat>, more: seq<nat>)
    requires Onward(a, a', more) && AllPosted(m, a'.mail, b.mail, fired)
    ensures AllPosted(m, a.mail, b.mail, fired)
  {
    hide PostedBetween, Onward;
    NothingOnward(b);
    forall i {:trigger fired[i]} | 0 <= i < |fired| ensures PostedBetween(m, a.mail, b.mail, fired[i]) {
      PostedWider(m, a, a', b, b, fired[i], more, []);
    }
  }

  /** Every record that activation fires is delivered. */
  lemma {:induction false} ActivateDelivers(m: Model, st: St, turns: seq<Turn>, vetoed: set<nat>, budget: nat)
    requires WellFormedModel(m) && Live(m, st)
    ensures AllPosted(m, st.mail, Activate(m, st, turns, vetoed, budget).run.st.mail,
      Activate(m, st, turns, vetoed, budget).fired)
    decreases |turns|
  {
    hide WellFormedModel, Live, FireAndDrain, PostedBetween, Onward;
    if turns != [] {
      var rest, order := turns[1..], turns[0].order;
      match Position(st.mail.pending, order)
      case None => ActivateDelivers(m, st, rest, vetoed, budget);
      case Some(i) =>
        var st1 := st.(now := turns[0].now);
        ClockIsLive(m, st, turns[0].now);
        if st.mail.pending[i].fireAt > turns[0].now {
          ActivateDelivers(m, st1, rest, vetoed, budget);
        } else if order !in vetoed {
          var r := FireAndDrain(m, st1, i, budget);
          FireDelivers(m, st1, i, budget);
          if r.finished && r.st.running {
            var b := Activate(m, r.st, rest, vetoed, budget);
            ActivateDelivers(m, r.st, rest, vetoed, budget);
            NothingOnward(st1);
            PostedWider(m, st1, st1, r.st, b.run.st, order, [], b.fired);
            AllPostedWider(m, st1, r.st, b.run.st, b.fired, [order]);
          }
        }
    }
  }

  // ---- which record a logged fire consumes ----

  ghost predicate MatchesExactly(p: Pending, sendId: string, target: string, typ: string, name: string) {
    p.sendId == sendId && p.target == target && p.typ == typ && p.event.name == name
  }

  lemma {:induction false} FirstMatchIs(ps: seq<Pending>, sendId: string, target: string, typ: string, name: string,
    exact: bool)
    ensures match FirstMatch(ps, sendId, target, typ, name, exact)
      case None => forall p :: p in ps ==>
        !(p.sendId == sendId && (exact ==> MatchesExactly(p, sendId, target, typ, name)))
      case Some(i) =>
        && ps[i].sendId == sendId && (exact ==> MatchesExactly(ps[i], sendId, target, typ, name))
        && forall j :: 0 <= j < i ==>
             !(ps[j].sendId == sendId && (exact ==> MatchesExactly(ps[j], sendId, target, typ, name)))
  {
    if ps != [] {
      FirstMatchIs(ps[1..], sendId, target, typ, name, exact);
      assert ps == [ps[0]] + ps[1..];
      match FirstMatch(ps[1..], sendId, target, typ, name, exact)
      case None =>
      case Some(i) =>
        forall j | 0 < j < i + 1 ensures ps[j] == ps[1..][j - 1] {}
    }
  }

  /** A logged fire consumes the first pending record, by due time and then by number, that matches in ID, target,
      type and event name, if there is one; otherwise the first with that ID; and none only if no record has it. */
  lemma BestMatchIs(q: Mail, sendId: string, target: string, typ: string, name: string)
    requires Ledger(q)
    ensures match BestMatch(q.pending, sendId, target, typ, name)
      case None => forall p :: p in q.pending ==> p.sendId != sendId
      case Some(i) =>
        var r := q.pending[i];
        && r.sendId == sendId
        && (forall p :: p in q.pending && MatchesExactly(p, sendId, target, typ, name) ==>
             MatchesExactly(r, sendId, target, typ, name) && (p == r || Before(r, p)))
        && (!MatchesExactly(r, sendId, target, typ, name) ==>
             forall p :: p in q.pending && p.sendId == sendId ==> p == r || Before(r, p))
  {
    var ps := q.pending;
    FirstMatchIs(ps, sendId, target, typ, name, true);
    FirstMatchIs(ps, sendId, target, typ, name, false);
    match BestMatch(ps, sendId, target, typ, name)
    case None =>
    case Some(i) =>
      forall p | p in ps && p.sendId == sendId && p != ps[i]
          && (MatchesExactly(ps[i], sendId, target, typ, name) ==> MatchesExactly(p, sendId, target, typ, name))
        ensures Before(ps[i], p)
      {
        var j :| 0 <= j < |ps| && ps[j] == p;
        if j < i { assert Before(ps[j], ps[i]); } else { assert Before(ps[i], ps[j]); }
      }
  }

  /** A logged fire: the best match leaves the pending sends, if any record matches, and the logged event goes to
      where the logged target and type say. */
  lemma ReplayFireDelivers(m: Model, q: Mail, sendId: string, target: string, typ: string, ev: Event)
    requires Ledger(q)
    ensures var q' := ReplayFire(m, q, sendId, target, typ, ev);
      && Gains(q.(pending := q'.pending, dispatched := q'.dispatched), q',
           PostingOf(m, q.dispatchSeq + 1, sendId, target, typ, ev))
      && match BestMatch(q.pending, sendId, target, typ, ev.name)
         case None => q'.pending == q.pending && q'.dispatched == q.dispatched
         case Some(i) =>
           && q'.pending == q.pending[..i] + q.pending[i + 1..]
           && q'.dispatched == q.dispatched + [q.pending[i].order]
  {
    hide PostingOf, Dispatch, BestMatch;
    match BestMatch(q.pending, sendId, target, typ, ev.name)
    case None => DispatchPosts(m, q, sendId, target, typ, ev);
    case Some(i) => DispatchPosts(m, Due(q, i), sendId, target, typ, ev);
  }

  /** Each pending record has its turn, at the clock reading given for it (or `now`, without one). */
  function TurnsOf(orders: seq<nat>, readings: seq<int>, now: int): (turns: seq<Turn>)
    ensures TurnOrders(turns) == orders
  {
    seq(|orders|, i requires 0 <= i < |orders| => Turn(orders[i], if i < |readings| then readings[i] else now))
  }

  lemma LedgerOf(m: Model, st: St)
    requires Live(m, st)
    ensures Ledger(st.mail)
  {}

  lemma ActivatedNothing(r: Run, ps: seq<Pending>, n: nat)
    ensures Activated(Activation(r, [], {}), ps, n, [])
  {}

  lemma ActivatedVeto(a: Activation, ps: seq<Pending>, n: nat, turns: seq<Turn>)
    requires a.fired == [] && a.armed == {} && !a.run.st.running
    ensures Activated(a, ps, n, turns)
  {}
}
