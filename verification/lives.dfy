/**
 The log of a life replays it (replay.go:229-276, instance.go:853-917): if every message that an instance
 received was logged, each timer by the record that fired, then replaying the log from the same start goes
 through the same states and ends in the same one.
 */
module Lives {
  import opened Charts
  import opened Validator
  import opened WellFormed
  import opened Machine
  import opened Bookkeeping
  import opened Deliveries
  import opened Runs
  import opened Macrosteps
  import opened Instances
  import opened Requests
  import opened Snapshots
  import opened Replays
  import opened Checkpoints

  /** The pending record r is the first, by due time and then by number, of those that a logged fire of it cannot
      be told from. */
  ghost predicate FiresFirst(q: Mail, r: Pending) {
    r in q.pending && forall p :: p in q.pending && MatchesExactly(p, r.sendId, r.target, r.typ, r.event.name) ==>
      p == r || Before(r, p)
  }

  /** e is what the log holds of a message received in st: an event that was accepted, or the record of a timer. */
  ghost predicate LoggedAs(st: St, msg: Message, now: int, e: LogEntry) {
    match msg
    case Deliver(ev, hookOk) =>
      hookOk && (ev.invokeId == "" || ev.invokeId in st.byId) && e == ExternalEvent(now, ev)
    case TimerElapsed(order, hookOk) => hookOk && exists r {:trigger FiresFirst(st.mail, r)} ::
      FiresFirst(st.mail, r) && r.order == order && e == TimerFired(now, r.sendId, r.target, r.typ, r.event)
    case _ => false
  }

  /** The log was written along the request loop from r: one entry for each message, until the machine stopped. */
  ghost predicate Written(m: Model, r: Run, inbox: seq<Arrival>, log: seq<LogEntry>, budget: nat)
    requires WellFormedModel(m) && Held(m, r)
    decreases |inbox|
  {
    if inbox == [] || !r.finished || !r.st.running then log == []
    else
      LiveWhileRunning(m, r);
      && log != [] && LoggedAs(r.st, inbox[0].msg, inbox[0].now, log[0])
      && Written(m, Handle(m, r.st, inbox[0].msg, inbox[0].now, budget), inbox[1..], log[1..], budget)
  }

  /** A logged timer is matched with the record that fired. */
  lemma MatchIsFired(q: Mail, r: Pending)
    requires Ledger(q) && FiresFirst(q, r)
    ensures Position(q.pending, r.order).Some?
    ensures BestMatch(q.pending, r.sendId, r.target, r.typ, r.event.name) == Position(q.pending, r.order)
  {
    BestMatchIs(q, r.sendId, r.target, r.typ, r.event.name);
    assert MatchesExactly(r, r.sendId, r.target, r.typ, r.event.name);
    var best := BestMatch(q.pending, r.sendId, r.target, r.typ, r.event.name);
    assert best.Some?;
    var p := q.pending[best.value];
    assert p in q.pending && (p == r || (Before(p, r) && Before(r, p)));
    OneOfNumber(q, best.value, r.order);
  }

  lemma OneOfNumber(q: Mail, i: nat, order: nat)
    requires Ledger(q) && i < |q.pending| && q.pending[i].order == order
    ensures Position(q.pending, order) == Some(i)
  {
    assert q.pending[i] in q.pending;
    match Position(q.pending, order)
    case Some(j) =>
      if i != j {
        LedgerExclusive(q, order);
        TwiceOrdered(q.pending, i, j, order);
      }
  }

  lemma TwiceOrdered(ps: seq<Pending>, i: nat, j: nat, order: nat)
    requires i < |ps| && j < |ps| && i != j && ps[i].order == ps[j].order == order
    ensures multiset(Orders(ps))[order] >= 2
  {
    var a, b := if i < j then i else j, if i < j then j else i;
    var xs := Orders(ps);
    assert xs == xs[..a] + [xs[a]] + xs[a + 1..b] + [xs[b]] + xs[b + 1..];
    assert xs[a] == order && xs[b] == order;
  }

  /** A logged timer is replayed as it fired exactly if it was the first of those that it cannot be told from;
      otherwise replay consumes another record. */
  lemma ReplayFiresSameIff(m: Model, q: Mail, i: nat)
    requires Ledger(q) && i < |q.pending|
    ensures var r := q.pending[i];
      ReplayFire(m, q, r.sendId, r.target, r.typ, r.event) == FireTimer(m, q, i) <==> FiresFirst(q, r)
  {
    hide Dispatch, PostingOf, Gains, MatchesExactly;
    var r := q.pending[i];
    BestMatchIs(q, r.sendId, r.target, r.typ, r.event.name);
    assert r in q.pending && MatchesExactly(r, r.sendId, r.target, r.typ, r.event.name) by { MatchesItself(r); }
    var j := BestMatch(q.pending, r.sendId, r.target, r.typ, r.event.name).value;
    if FiresFirst(q, r) {
      MatchIsFired(q, r);
      FiredIsThat(q, r);
      OneOfNumber(q, i, r.order);
    } else {
      assert q.pending[j] in q.pending;
      ReplayFireDelivers(m, q, r.sendId, r.target, r.typ, r.event);
      FireTimerDelivers(m, q, i);
      DispatchedApart(m, q, i, j);
    }
  }

  lemma MatchesItself(r: Pending)
    ensures MatchesExactly(r, r.sendId, r.target, r.typ, r.event.name)
  {}

  lemma DispatchedApart(m: Model, q: Mail, i: nat, j: nat)
    requires Ledger(q) && i < |q.pending| && j < |q.pending| && q.pending[i] != q.pending[j]
    ensures q.dispatched + [q.pending[i].order] != q.dispatched + [q.pending[j].order]
  {
    if q.pending[i].order == q.pending[j].order {
      OneOfNumber(q, i, q.pending[i].order);
      OneOfNumber(q, j, q.pending[i].order);
    }
    assert (q.dispatched + [q.pending[i].order])[|q.dispatched|] == q.pending[i].order;
  }

  /** One logged message is replayed exactly. */
  lemma LoggedReplays(m: Model, st: St, msg: Message, now: int, e: LogEntry, budget: nat)
    requires WellFormedModel(m) && Live(m, st) && st.running && LoggedAs(st, msg, now, e)
    ensures ReplayEntry(m, st, e, budget) == Handle(m, st, msg, now, budget)
  {
    hide WellFormedModel, Live, Finish, Activate, FiresFirst, Due, Dispatch;
    AtTime(m, st, now);
    if msg.TimerElapsed? {
      var r :| FiresFirst(st.mail, r) && r.order == msg.order
        && e == TimerFired(now, r.sendId, r.target, r.typ, r.event);
      LedgerOf(m, st);
      MatchIsFired(st.mail, r);
      FiredIsThat(st.mail, r);
    }
  }

  lemma FiredIsThat(q: Mail, r: Pending)
    requires Ledger(q) && FiresFirst(q, r) && Position(q.pending, r.order).Some?
    ensures q.pending[Position(q.pending, r.order).value] == r
  {
    var i :| 0 <= i < |q.pending| && q.pending[i] == r;
    OneOfNumber(q, i, r.order);
  }

  /** So a log written along a life, replayed from where the life began, ends where the life ended: in the same
      state, data, queues, pending sends, invocations and all. */
  lemma {:induction false} LogReplays(m: Model, r: Run, inbox: seq<Arrival>, log: seq<LogEntry>, budget: nat)
    requires WellFormedModel(m) && Held(m, r) && Written(m, r, inbox, log, budget)
    ensures Replay(m, r, log, budget) == Replayed(Requests.Loop(m, r, inbox, budget), false)
    decreases |inbox|
  {
    hide WellFormedModel, Held, Live, Handle, ReplayEntry, LoggedAs, Replay;
    ReplayUnrolled(m, r, log, budget);
    if inbox != [] && r.finished && r.st.running {
      LiveWhileRunning(m, r);
      LoggedReplays(m, r.st, inbox[0].msg, inbox[0].now, log[0], budget);
      LogReplays(m, Handle(m, r.st, inbox[0].msg, inbox[0].now, budget), inbox[1..], log[1..], budget);
    }
  }

  lemma LifeReplays(m: Model, now: int, early: bool, inbox: seq<Arrival>, log: seq<LogEntry>, budget: nat)
    requires WellFormedModel(m) && Written(m, Boot(m, now, early, budget), inbox, log, budget)
    ensures Rehydrate(m, Boot(m, now, early, budget), log, budget) ==
      Replayed(Life(m, now, early, inbox, budget), false)
  {
    hide WellFormedModel, Held, Boot, Replay;
    LogReplays(m, Boot(m, now, early, budget), inbox, log, budget);
  }
}
