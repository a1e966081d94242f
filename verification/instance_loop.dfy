/**
 The instance's request loop and the replay loop as they run on the interpreter object
 (instance.go:637-677, 824-950, snapshot.go:93-163, 244-364, replay.go:229-276).
 */
module InstanceLoop {
  import opened Charts
  import opened EntrySets
  import opened Machine
  import opened Bookkeeping
  import opened Invocations
  import opened Runs
  import opened Macrosteps
  import opened Instances
  import opened Requests
  import opened Snapshots
  import opened Replays
  import opened Checkpoints
  import opened Interpreter

  method SetClock(ip: Interpretation, now: int)
    modifies ip`clock
    ensures ip.State() == old(ip.State()).(now := now)
  {
    ip.clock := now;
  }

  method Halt(ip: Interpretation)
    modifies ip`running
    ensures ip.State() == old(ip.State()).(running := false)
  {
    ip.running := false;
  }

  /** The pending record at position i leaves the pending set. */
  method TakeDue(ip: Interpretation, i: nat)
    requires i < |ip.State().mail.pending|
    modifies ip`pending, ip`dispatched
    ensures ip.State() == old(ip.State()).(mail := Due(old(ip.State()).mail, i))
  {
    ip.dispatched := ip.dispatched + [ip.pending[i].order];
    ip.pending := ip.pending[..i] + ip.pending[i + 1..];
  }

  /** replayTimerFire and the bare dispatch (interpreter.go:363-394, instance.go:902-910). */
  method FireReplayed(ip: Interpretation, sendId: string, target: string, typ: string, ev: Event)
    modifies ip
    ensures ip.State() == old(ip.State()).(mail := ReplayFire(ip.m, old(ip.State()).mail, sendId, target, typ, ev))
  {
    match BestMatch(ip.pending, sendId, target, typ, ev.name) {
      case None =>
      case Some(i) => TakeDue(ip, i);
    }
    ip.DispatchNow(sendId, target, typ, ev);
  }

  // ---- timers becoming live ----

  function FireAt(ip: Interpretation, i: nat): (r: int)
    requires i < |ip.State().mail.pending|
    reads ip
    ensures r == ip.State().mail.pending[i].fireAt
  {
    ip.pending[i].fireAt
  }

  function Where(ip: Interpretation, order: nat): (r: Option<nat>)
    reads ip
    ensures r == Position(ip.State().mail.pending, order)
  {
    Position(ip.pending, order)
  }

  function Now(ip: Interpretation): (r: int)
    reads ip
    ensures r == ip.State().now
  {
    ip.clock
  }

  /** One overdue record: fire it and drain. */
  method FireOverdue(ip: Interpretation, i: nat, budget: nat) returns (finished: bool)
    requires WellFormedModel(ip.m) && Live(ip.m, ip.State()) && i < |ip.State().mail.pending|
    modifies ip
    ensures Run(ip.State(), finished) == FireAndDrain(ip.m, old(ip.State()), i, budget)
  {
    FiredIsLive(ip.m, ip.State(), i);
    FireRecord(ip, i);
    finished := ip.DrainQueues(budget);
  }

  method FireRecord(ip: Interpretation, i: nat)
    requires i < |ip.State().mail.pending|
    modifies ip
    ensures ip.State() == old(ip.State()).(mail := FireTimer(ip.m, old(ip.State()).mail, i))
  {
    ip.Fire(i);
  }

  /** activatePendingTimers (instance.go:637-677), over the records as they were sorted when it started,
      with the clock read anew for each. */
  method ActivatePendingTimers(ip: Interpretation, turns: seq<Turn>, vetoed: set<nat>, budget: nat)
    returns (finished: bool, fired: seq<nat>, armed: set<nat>)
    requires WellFormedModel(ip.m) && Live(ip.m, ip.State())
    modifies ip
    ensures Activation(Run(ip.State(), finished), fired, armed) ==
      Activate(ip.m, old(ip.State()), turns, vetoed, budget)
    decreases |turns|
  {
    hide WellFormedModel, Live, Onward, FireAndDrain;
    finished, fired, armed := true, [], {};
    if turns == [] { return; }
    var order := turns[0].order;
    match Where(ip, order) {
      case None =>
        finished, fired, armed := ActivatePendingTimers(ip, turns[1..], vetoed, budget);
      case Some(i) =>
        ClockIsLive(ip.m, ip.State(), turns[0].now);
        SetClock(ip, turns[0].now);
        if FireAt(ip, i) > Now(ip) {
          finished, fired, armed := ActivatePendingTimers(ip, turns[1..], vetoed, budget);
          armed := armed + {order};
        } else if order in vetoed {
          Halt(ip);
        } else {
          finished := FireOverdue(ip, i, budget);
          if finished && ip.IsRunning() {
            finished, fired, armed := ActivatePendingTimers(ip, turns[1..], vetoed, budget);
          }
          fired := [order] + fired;
        }
    }
  }

  // ---- requests ----

  /** The end of a round: drain, and exit if the machine stopped. */
  method FinishRound(ip: Interpretation, budget: nat) returns (finished: bool)
    requires WellFormedModel(ip.m) && Live(ip.m, ip.State())
    modifies ip
    ensures Run(ip.State(), finished) == Finish(ip.m, Run(old(ip.State()), true), budget)
  {
    hide WellFormedModel, Live, Drain, ExitInterpreter;
    finished := ip.DrainQueues(budget);
    if finished && !ip.IsRunning() { ip.Leave(); }
  }

  function KnowsInvoke(ip: Interpretation, id: string): (r: bool)
    reads ip
    ensures r == (id in ip.State().byId)
  {
    id in ip.invokesById
  }

  method Enqueue(ip: Interpretation, ev: Event)
    modifies ip`internalQueue, ip`raised, ip`externalQueue, ip`arrived
    ensures ip.State() == old(ip.State()).(mail := Machine.Enqueue(old(ip.State()).mail, ev))
  {
    ip.Enqueue(ev);
  }

  /** The switch of the request loop, for everything but the timers going live. */
  method ReceiveMessage(ip: Interpretation, msg: Message, budget: nat) returns (finished: bool)
    requires WellFormedModel(ip.m) && Live(ip.m, ip.State())
    modifies ip
    ensures Run(ip.State(), finished) == Receive(ip.m, old(ip.State()), msg, budget)
  {
    hide WellFormedModel, Live, HandleTimerFire, ReplayFire, Activate, Machine.Enqueue;
    finished := true;
    match msg {
      case Stop => Halt(ip);
      case Deliver(ev, hookOk) =>
        if ev.invokeId != "" && !KnowsInvoke(ip, ev.invokeId) {
        } else if hookOk {
          Enqueue(ip, ev);
        } else {
          Halt(ip);
        }
      case TimerElapsed(order, hookOk) => ip.TimerElapsed(order, hookOk);
      case ReplayTimer(sendId, target, typ, ev) => FireReplayed(ip, sendId, target, typ, ev);
      case GoLive(vetoed, readings) =>
        var fired, armed;
        finished, fired, armed := ActivatePendingTimers(ip, TurnsOf(PendingOrders(ip), readings, Now(ip)), vetoed,
          budget);
      case TakeCheckpoint(saved) => if saved { Halt(ip); }
      case Query =>
    }
  }

  function PendingOrders(ip: Interpretation): (r: seq<nat>)
    reads ip
    ensures r == Orders(ip.State().mail.pending)
  {
    Orders(ip.pending)
  }

  method HandleMessage(ip: Interpretation, msg: Message, now: int, budget: nat) returns (finished: bool)
    requires WellFormedModel(ip.m) && Live(ip.m, ip.State())
    modifies ip
    ensures Run(ip.State(), finished) == Handle(ip.m, old(ip.State()), msg, now, budget)
  {
    hide WellFormedModel, Live, Receive, Drain, ExitInterpreter;
    AtTime(ip.m, ip.State(), now);
    SetClock(ip, now);
    finished := ReceiveMessage(ip, msg, budget);
    if finished { finished := FinishRound(ip, budget); }
  }

  // ---- replay ----

  method ReplayOne(ip: Interpretation, e: LogEntry, budget: nat) returns (finished: bool)
    requires WellFormedModel(ip.m) && Live(ip.m, ip.State()) && ip.State().running
    modifies ip
    ensures Run(ip.State(), finished) == ReplayEntry(ip.m, old(ip.State()), e, budget)
  {
    hide WellFormedModel, Live, Handle;
    match e {
      case SessionStarted(time) =>
        SetClock(ip, time);
        finished := true;
      case ExternalEvent(time, ev) => finished := HandleMessage(ip, Deliver(ev, true), time, budget);
      case TimerFired(time, sendId, target, typ, ev) =>
        finished := HandleMessage(ip, ReplayTimer(sendId, target, typ, ev), time, budget);
    }
  }

  /** One entry of the log while the machine does not run. */
  method PassOver(ip: Interpretation, e: LogEntry) returns (ok: bool)
    requires !ip.State().running
    modifies ip`clock
    ensures if ok then Idles(old(ip.State()), e) == Some(ip.State())
      else Idles(old(ip.State()), e) == None && ip.State() == old(ip.State())
  {
    ok := if ip.completed then e.ExternalEvent? else e.SessionStarted?;
    if ok && e.SessionStarted? { ip.clock := e.time; }
  }

  /** The loop over the log (replay.go:255-276). */
  method ReplayLog(ip: Interpretation, log: seq<LogEntry>, budget: nat) returns (finished: bool, failed: bool)
    requires WellFormedModel(ip.m) && Held(ip.m, Run(ip.State(), true))
    modifies ip
    ensures Replayed(Run(ip.State(), finished), failed) == Replay(ip.m, Run(old(ip.State()), true), log, budget)
  {
    hide WellFormedModel, Held, ReplayEntry, Replay, Live, Idles;
    finished, failed := true, false;
    var i := 0;
    while i < |log| && finished
      invariant i <= |log| && Held(ip.m, Run(ip.State(), finished))
      invariant Replay(ip.m, Run(ip.State(), finished), log[i..], budget) ==
        Replay(ip.m, Run(old(ip.State()), true), log, budget)
    {
      assert log[i..][0] == log[i] && log[i..][1..] == log[i + 1..];
      ReplayUnrolled(ip.m, Run(ip.State(), finished), log[i..], budget);
      if ip.IsRunning() {
        finished := ReplayOne(ip, log[i], budget);
      } else {
        var ok := PassOver(ip, log[i]);
        if !ok {
          failed := true;
          return;
        }
      }
      i := i + 1;
    }
    ReplayUnrolled(ip.m, Run(ip.State(), finished), log[i..], budget);
  }

  /** The replay of a rehydration (replay.go:247-276). */
  method RehydrateFrom(ip: Interpretation, log: seq<LogEntry>, budget: nat) returns (finished: bool, failed: bool)
    requires WellFormedModel(ip.m) && Held(ip.m, Run(ip.State(), true))
    modifies ip
    ensures Replayed(Run(ip.State(), finished), failed) == Rehydrate(ip.m, Run(old(ip.State()), true), log, budget)
  {
    hide WellFormedModel, Held, Replay;
    if log == [] || ip.IsRunning() {
      finished, failed := ReplayLog(ip, log, budget);
    } else if !log[0].SessionStarted? {
      finished, failed := true, true;
    } else {
      IdlesHeld(ip.m, ip.State(), log[0]);
      SetClock(ip, log[0].time);
      finished, failed := ReplayLog(ip, log[1..], budget);
    }
  }

  // ---- snapshots ----

  /** buildSnapshot (snapshot.go:93-163), its lists built in loops. */
  method TakeSnapshot(ip: Interpretation, rs: seq<Running>) returns (snap: Snapshot)
    requires forall i :: 0 <= i < |rs| ==> KnownSpec(ip.m.chart, rs[i])
    ensures snap == BuildSnapshot(ip.m.chart, ip.State(), rs)
  {
    var pending := [];
    for i := 0 to |ip.pending|
      invariant pending == Stored(ip.pending)[..i]
    {
      var r := ip.pending[i];
      pending := pending + [PendingSend(r.sendId, r.target, r.typ, r.event, r.fireAt)];
    }
    var active := [];
    for i := 0 to |rs|
      invariant active == AsActives(ip.m.chart, rs)[..i]
    {
      active := active + [AsActive(ip.m.chart, rs[i])];
    }
    snap := Snapshot(ip.configuration, ip.historyValue, ip.initializedData, ip.internalQueue, ip.externalQueue,
      ip.running,
      ip.sendSeq, ip.invokeSeq, ip.dispatchSeq, pending, active, ip.data);
  }

  /** The loop of restoreFrom over the stored invocations (snapshot.go:316-360). */
  method RebuildInvokes(c: Chart, config: set<int>, ais: seq<ActiveInvoke>) returns (b: Option<Rebuilt>)
    ensures b == RestoreInvokes(c, config, ais)
  {
    b := Some(Rebuilt(map[], map[], {}));
    for i := 0 to |ais|
      invariant b == RestoreInvokes(c, config, ais[..i])
    {
      assert ais[..i + 1][..i] == ais[..i];
      if b.None? {
        RestoreStaysFailed(c, config, ais, i);
        return;
      }
      b := RestoreInvoke(c, config, b.value, ais[i]);
    }
    assert ais[..|ais|] == ais;
  }

  /** Once a stored invocation is refused, the whole restore is. */
  lemma {:induction false} RestoreStaysFailed(c: Chart, config: set<int>, ais: seq<ActiveInvoke>, i: nat)
    requires i <= |ais| && RestoreInvokes(c, config, ais[..i]).None?
    ensures RestoreInvokes(c, config, ais).None?
    decreases |ais|
  {
    if i == |ais| {
      assert ais[..i] == ais;
    } else {
      var init := ais[..|ais| - 1];
      assert init[..i] == ais[..i];
      RestoreStaysFailed(c, config, init, i);
    }
  }

  /** The loop that renumbers the stored sends (snapshot.go:291-304). */
  method RearmStored(ps: seq<PendingSend>) returns (pending: seq<Pending>)
    ensures pending == Rearmed(ps)
  {
    pending := [];
    for i := 0 to |ps|
      invariant pending == Rearmed(ps)[..i]
    {
      pending := pending + [Pending(ps[i].sendId, ps[i].target, ps[i].typ, ps[i].event, ps[i].fireAt, i + 1)];
    }
  }

  method AssignQueues(ip: Interpretation, snap: Snapshot)
    modifies ip`internalQueue, ip`raised, ip`externalQueue, ip`arrived, ip`requests, ip`sendSeq, ip`dispatchSeq
    ensures ip.State() == old(ip.State()).(mail :=
      old(ip.State()).mail.(internalQueue := snap.internalQueue, externalQueue := snap.externalQueue,
        arrived := snap.externalQueue, raised := snap.internalQueue, requests := [], sendSeq := snap.sendSeq,
        dispatchSeq := snap.dispatchSeq))
  {
    ip.internalQueue, ip.externalQueue, ip.arrived := snap.internalQueue, snap.externalQueue, snap.externalQueue;
    ip.raised, ip.requests := snap.internalQueue, [];
    ip.sendSeq, ip.dispatchSeq := snap.sendSeq, snap.dispatchSeq;
  }

  method AssignPending(ip: Interpretation, snap: Snapshot)
    modifies ip`pending, ip`pendingSeq, ip`dispatched, ip`dropped
    ensures ip.State() == old(ip.State()).(mail :=
      old(ip.State()).mail.(pending := Rearmed(snap.pending), pendingSeq := |snap.pending|, dispatched := [], dropped :=
      []))
  {
    var pending := RearmStored(snap.pending);
    ip.pending, ip.pendingSeq, ip.dispatched, ip.dropped := pending, |snap.pending|, [], [];
  }

  method AssignStates(ip: Interpretation, snap: Snapshot)
    modifies ip`configuration, ip`historyValue, ip`initializedData, ip`running, ip`completed, ip`lastEvent, ip`data
    ensures ip.State() == old(ip.State()).(config := snap.config, history := snap.history, initialized :=
      snap.initialized,
              running := snap.running, completed := false, event := None, data := snap.data)
  {
    ip.configuration, ip.historyValue, ip.initializedData := snap.config, snap.history, snap.initialized;
    ip.running, ip.completed, ip.lastEvent, ip.data := snap.running, false, None, snap.data;
  }

  method AssignInvokes(ip: Interpretation, snap: Snapshot, b: Rebuilt)
    modifies ip`activeInvokes, ip`invokesById, ip`statesToInvoke, ip`invokeSeq, ip`trace
    ensures ip.State() == old(ip.State()).(statesToInvoke := {}, active := b.active, byId := b.byId, invokeSeq :=
      snap.invokeSeq, trace := NO_TRACE.(base := snap.history))
  {
    ip.activeInvokes, ip.invokesById, ip.statesToInvoke, ip.invokeSeq := b.active, b.byId, {}, snap.invokeSeq;
    ip.trace := NO_TRACE.(base := snap.history);
  }

  method AssignRestored(ip: Interpretation, snap: Snapshot, b: Rebuilt)
    modifies ip
    ensures ip.State() == RestoredState(snap, b, old(ip.State()).now)
  {
    hide Interpretation.State;
    AssignQueues(ip, snap);
    AssignPending(ip, snap);
    AssignStates(ip, snap);
    AssignInvokes(ip, snap, b);
  }

  /** restoreFrom (snapshot.go:244-364) on a paused interpreter; false when the snapshot is rejected. */
  method Restore(ip: Interpretation, snap: Snapshot) returns (ok: bool)
    modifies ip
    ensures RestoreFrom(ip.m.chart, snap, old(ip.clock)) == if ok then Some(ip.State()) else None
    ensures !ok ==> ip.State() == old(ip.State())
  {
    hide RestoredState, RestoreInvokes;
    ok := false;
    if !KnownStates(ip.m.chart, snap) { return; }
    var b := RebuildInvokes(ip.m.chart, snap.config, snap.active);
    if b.None? { return; }
    AssignRestored(ip, snap, b.value);
    ok := true;
  }
}
