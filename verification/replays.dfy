/**
 Replay (replay.go:229-276, interpreter.go:363-394): every step of the interpreter treats two states
 that differ only in what a snapshot cannot keep alike, so replaying the rest of a log from a restored
 checkpoint ends where replaying the whole log does.
 */
module Replays {
  import opened Charts
  import opened Validator
  import opened WellFormed
  import opened EntrySets
  import opened Transitions
  import opened Selection
  import opened Microsteps
  import opened Machine
  import opened Bookkeeping
  import opened Invocations
  import opened Steps
  import opened Runs
  import opened Macrosteps
  import opened Instances
  import opened Requests
  import opened Snapshots

  // ---- the mail ----

  function AsStored(r: Pending): PendingSend { PendingSend(r.sendId, r.target, r.typ, r.event, r.fireAt) }

  function InsertStored(ps: seq<PendingSend>, r: PendingSend): seq<PendingSend> {
    if ps == [] || r.fireAt < ps[0].fireAt then [r] + ps else [ps[0]] + InsertStored(ps[1..], r)
  }

  function FilterStored(ps: seq<PendingSend>, id: string): seq<PendingSend> {
    if ps == [] then []
    else if ps[0].event.sendId != id then [ps[0]] + FilterStored(ps[1..], id)
    else FilterStored(ps[1..], id)
  }

  lemma StoredTail(ps: seq<Pending>)
    requires ps != []
    ensures Stored(ps) != [] && Stored(ps)[0] == AsStored(ps[0]) && Stored(ps)[1..] == Stored(ps[1..])
  {}

  lemma StoredCons(p: Pending, ps: seq<Pending>)
    ensures Stored([p] + ps) == [AsStored(p)] + Stored(ps)
  {}

  /** A record with the newest number is placed by its due time alone. */
  lemma {:induction false} StoredInsert(ps: seq<Pending>, r: Pending)
    requires forall p :: p in ps ==> p.order < r.order
    ensures Stored(InsertPending(ps, r)) == InsertStored(Stored(ps), AsStored(r))
  {
    if ps == [] {
      StoredCons(r, ps);
    } else {
      StoredTail(ps);
      if Before(r, ps[0]) {
        StoredCons(r, ps);
      } else {
        StoredInsert(ps[1..], r);
        StoredCons(ps[0], InsertPending(ps[1..], r));
      }
    }
  }

  lemma {:induction false} StoredFilter(ps: seq<Pending>, id: string)
    ensures Stored(WithSendId(ps, id, true)) == FilterStored(Stored(ps), id)
  {
    if ps != [] {
      StoredTail(ps);
      StoredFilter(ps[1..], id);
      StoredCons(ps[0], WithSendId(ps[1..], id, true));
    }
  }

  lemma {:induction false} StoredMatch(ps: seq<Pending>, qs: seq<Pending>, sendId: string, target: string, typ: string,
    name: string, exact: bool)
    requires Stored(ps) == Stored(qs)
    ensures FirstMatch(ps, sendId, target, typ, name, exact) == FirstMatch(qs, sendId, target, typ, name, exact)
  {
    assert |Stored(ps)| == |Stored(qs)|;
    if ps != [] {
      StoredTail(ps);
      StoredTail(qs);
      StoredMatch(ps[1..], qs[1..], sendId, target, typ, name, exact);
    }
  }

  lemma SameDispatch(m: Model, q: Mail, q': Mail, sendId: string, target: string, typ: string, ev: Event)
    requires SameMail(q, q')
    ensures SameMail(Dispatch(m, q, sendId, target, typ, ev), Dispatch(m, q', sendId, target, typ, ev))
  {
    hide Ledger, Stored, Grew, OnlyNewer;
    DispatchKept(m, q, sendId, target, typ, ev);
    DispatchKept(m, q', sendId, target, typ, ev);
  }

  lemma SameArm(q: Mail, q': Mail, sendId: string, target: string, typ: string, ev: Event, fireAt: int)
    requires SameMail(q, q')
    ensures SameMail(Arm(q, sendId, target, typ, ev, fireAt), Arm(q', sendId, target, typ, ev, fireAt))
  {
    hide Ledger, Grew, OnlyNewer;
    ArmKept(q, sendId, target, typ, ev, fireAt);
    ArmKept(q', sendId, target, typ, ev, fireAt);
    OrdersBelow(q);
    OrdersBelow(q');
    StoredInsert(q.pending, Pending(sendId, target, typ, ev, fireAt, q.pendingSeq + 1));
    StoredInsert(q'.pending, Pending(sendId, target, typ, ev, fireAt, q'.pendingSeq + 1));
  }

  lemma OrdersBelow(q: Mail)
    requires Ledger(q)
    ensures forall p :: p in q.pending ==> p.order < q.pendingSeq + 1
  {
    forall p | p in q.pending ensures p.order < q.pendingSeq + 1 {
      var i :| 0 <= i < |q.pending| && q.pending[i] == p;
      OrderBound(q, i);
    }
  }

  lemma SameInternal(q: Mail, q': Mail, ev: Event)
    requires SameMail(q, q')
    ensures SameMail(EnqueueInternal(q, ev), EnqueueInternal(q', ev))
  {
    hide Ledger, Grew, OnlyNewer;
    InternalKept(q, ev);
    InternalKept(q', ev);
  }

  lemma SameCounted(q: Mail, q': Mail, o: SendOptions)
    requires SameMail(q, q')
    ensures q.sendSeq == q'.sendSeq && SameMail(Counted(q, o), Counted(q', o))
  {}

  lemma SameDoSend(m: Model, now: int, q: Mail, q': Mail, o: SendOptions)
    requires SameMail(q, q')
    ensures SameMail(DoSend(m, now, q, o), DoSend(m, now, q', o))
  {
    SameCounted(q, q', o);
    hide SameMail, Dispatch, Arm, SendId, SendEvent, ReportSend, CanonicalType;
    if o.sendId != "" && o.idLocation.Some? { SameReportSend(q, q', o.sendId, ErrExecution); }
    else { SameSent(m, now, Counted(q, o), Counted(q', o), o, SendId(Counted(q, o).sendSeq, o)); }
  }

  lemma SameSent(m: Model, now: int, q: Mail, q': Mail, o: SendOptions, sendId: string)
    requires SameMail(q, q')
    ensures SameMail(Sent(m, now, q, o, sendId), Sent(m, now, q', o, sendId))
  {
    hide SameMail, Dispatch, Arm, SendEvent, ReportSend, CanonicalType;
    if o.idLocation == Some(false) { SameReportSend(q, q', sendId, ErrExecution); }
    else if o.delay <= 0 { SameDispatch(m, q, q', sendId, o.target, o.typ, SendEvent(o, sendId)); }
    else { SameArm(q, q', sendId, o.target, CanonicalType(o.typ), SendEvent(o, sendId), now + o.delay); }
  }

  lemma SameReportSend(q: Mail, q': Mail, sendId: string, name: string)
    requires SameMail(q, q')
    ensures SameMail(ReportSend(q, sendId, name), ReportSend(q', sendId, name))
  {
    SameInternal(q, q', PlatformEvent(name, sendId, ""));
  }

  lemma SameCancel(q: Mail, q': Mail, id: string)
    requires SameMail(q, q')
    ensures SameMail(DoCancel(q, id), DoCancel(q', id))
  {
    DoCancelKept(q, id);
    DoCancelKept(q', id);
    StoredFilter(q.pending, id);
    StoredFilter(q'.pending, id);
  }

  lemma SameApply(m: Model, now: int, q: Mail, q': Mail, e: Effect)
    requires SameMail(q, q')
    ensures SameMail(Apply(m, now, q, e), Apply(m, now, q', e))
  {
    match e
    case Raise(name, data) => SameInternal(q, q', Event(name, Internal, data, "", "", ""));
    case Send(o) => SameDoSend(m, now, q, q', o);
    case Cancel(id) => SameCancel(q, q', id);
    case Fail => SameInternal(q, q', PlatformEvent(ErrExecution, "", ""));
  }

  lemma {:induction false} SameApplyAll(m: Model, now: int, q: Mail, q': Mail, es: seq<Effect>)
    requires SameMail(q, q')
    ensures SameMail(ApplyAll(m, now, q, es), ApplyAll(m, now, q', es))
    decreases |es|
  {
    hide Apply, SameMail;
    if es != [] {
      SameApply(m, now, q, q', es[0]);
      SameApplyAll(m, now, Apply(m, now, q, es[0]), Apply(m, now, q', es[0]), es[1..]);
    }
  }

  lemma {:induction false} SameReports(q: Mail, q': Mail, n: nat)
    requires SameMail(q, q')
    ensures SameMail(ReportErrors(q, n), ReportErrors(q', n))
  {
    hide SameMail;
    if n > 0 {
      SameReports(q, q', n - 1);
      SameInternal(ReportErrors(q, n - 1), ReportErrors(q', n - 1), PlatformEvent(ErrExecution, "", ""));
    }
  }

  lemma StoredWithout(ps: seq<Pending>, i: nat)
    requires i < |ps|
    ensures i < |Stored(ps)| && Stored(ps[..i] + ps[i + 1..]) == Stored(ps)[..i] + Stored(ps)[i + 1..]
  {}

  lemma SameDue(q: Mail, q': Mail, i: nat)
    requires SameMail(q, q') && i < |q.pending|
    ensures i < |q'.pending| && SameMail(Due(q, i), Due(q', i))
  {
    assert |Stored(q.pending)| == |Stored(q'.pending)|;
    hide Ledger, Stored, Grew, OnlyNewer;
    DueMoved(q, i);
    DueMoved(q', i);
    StoredWithout(q.pending, i);
    StoredWithout(q'.pending, i);
  }

  lemma SameReplayFire(m: Model, q: Mail, q': Mail, sendId: string, target: string, typ: string, ev: Event)
    requires SameMail(q, q')
    ensures SameMail(ReplayFire(m, q, sendId, target, typ, ev), ReplayFire(m, q', sendId, target, typ, ev))
  {
    StoredMatch(q.pending, q'.pending, sendId, target, typ, ev.name, true);
    StoredMatch(q.pending, q'.pending, sendId, target, typ, ev.name, false);
    match BestMatch(q.pending, sendId, target, typ, ev.name)
    case None => SameDispatch(m, q, q', sendId, target, typ, ev);
    case Some(i) =>
      SameDue(q, q', i);
      SameDispatch(m, Due(q, i), Due(q', i), sendId, target, typ, ev);
  }

  // ---- executable content ----

  lemma SameRan(m: Model, a: St, b: St, data: Data, es: seq<Effect>)
    requires Same(a, b)
    ensures Same(Ran(m, a, data, es), Ran(m, b, data, es))
  {
    SameApplyAll(m, a.now, a.mail, b.mail, es);
  }

  lemma SameLogged(a: St, b: St, call: Call)
    requires Same(a, b)
    ensures Same(Logged(a, call), Logged(b, call)) && a.config == b.config
  {}

  lemma SameBlock(m: Model, a: St, b: St, blk: Block)
    requires Same(a, b)
    ensures Same(RunBlock(m, a, blk), RunBlock(m, b, blk))
  {
    var o := m.run(ViewOf(a), blk);
    assert ViewOf(a) == ViewOf(b);
    SameLogged(a, b, BlockRun(blk, a.config));
    SameRan(m, Logged(a, BlockRun(blk, a.config)), Logged(b, BlockRun(blk, b.config)), o.data, o.effects);
  }

  lemma SameFinalize(m: Model, a: St, b: St, owner: int, spec: nat)
    requires Same(a, b)
    ensures Same(RunFinalize(m, a, owner, spec), RunFinalize(m, b, owner, spec))
  {
    var o := m.run(ViewOf(a), Finalize(owner, spec));
    assert ViewOf(a) == ViewOf(b);
    var call := BlockRun(Finalize(owner, spec), a.config);
    SameLogged(a, b, call);
    SameRan(m, Logged(a, call), Logged(b, call), o.data, Forbidden(o.effects));
  }

  lemma {:induction false} SameDefaults(m: Model, a: St, b: St, owners: seq<int>)
    requires Same(a, b)
    ensures Same(RunDefaults(m, a, owners), RunDefaults(m, b, owners))
    decreases |owners|
  {
    hide RunBlock, Same;
    if owners != [] {
      SameBlock(m, a, b, Default(owners[0]));
      SameDefaults(m, RunBlock(m, a, Default(owners[0])), RunBlock(m, b, Default(owners[0])), owners[1..]);
    }
  }

  lemma SameRaised(a: St, b: St, ev: Event)
    requires Same(a, b)
    ensures Same(Raised(a, ev), Raised(b, ev))
  {
    SameInternal(a.mail, b.mail, ev);
  }

  // ---- entering and leaving states ----

  lemma SameEntryHandlers(m: Model, a: St, b: St, s: int, owners: seq<int>)
    requires Same(a, b)
    ensures Same(EntryHandlers(m, a, s, owners), EntryHandlers(m, b, s, owners))
  {
    SameBlock(m, a, b, InitData(s));
    var a1 := if HasData(m.chart, s) && s !in a.initialized
      then RunBlock(m, a, InitData(s)).(initialized := a.initialized + {s}) else a;
    var b1 := if HasData(m.chart, s) && s !in b.initialized
      then RunBlock(m, b, InitData(s)).(initialized := b.initialized + {s}) else b;
    hide RunBlock, RunDefaults;
    assert Same(a1, b1);
    SameBlock(m, a1, b1, OnEntry(s));
    SameDefaults(m, RunBlock(m, a1, OnEntry(s)), RunBlock(m, b1, OnEntry(s)), owners);
  }

  lemma SameDoneMail(c: Chart, C: set<int>, q: Mail, q': Mail, s: int, value: Option<Data>)
    requires Tree(c) && SameMail(q, q')
    ensures SameMail(DoneMail(c, C, q, s, value), DoneMail(c, C, q', s, value))
  {
    hide SameMail, InFinalState, EnqueueInternal, PlatformEvent;
    var error := PlatformEvent(ErrExecution, "", "");
    SameInternal(q, q', error);
    var q1, q1' := if value.None? then EnqueueInternal(q, error) else q, if value.None?
      then EnqueueInternal(q', error) else q';
    var p := Parent(c, s);
    if 0 < p {
      var ev := Event("done.state." + Name(c, p), Platform, if value.Some? then value.value else [], "", "", "");
      SameInternal(q1, q1', ev);
      SameInternal(EnqueueInternal(q1, ev), EnqueueInternal(q1', ev),
        PlatformEvent("done.state." + Name(c, Parent(c, p)), "", ""));
    }
  }

  lemma SameEnterFinal(m: Model, a: St, b: St, s: int)
    requires Tree(m.chart) && Same(a, b)
    ensures Same(EnterFinal(m, a, s), EnterFinal(m, b, s))
  {
    hide DoneMail;
    SameDoneMail(m.chart, a.config, a.mail, b.mail, s, m.done(ViewOf(a), s));
  }

  lemma SameEnter(m: Model, a: St, b: St, s: int, owners: seq<int>)
    requires Tree(m.chart) && Same(a, b)
    ensures Same(EnterState(m, a, s, owners), EnterState(m, b, s, owners))
  {
    var a1, b1 := a.(config := a.config + {s}), b.(config := b.config + {s});
    assert Same(a1, b1);
    SameEntryHandlers(m, a1, b1, s, owners);
    hide EntryHandlers, EnterFinal;
    var a2, b2 := QueueInvokes(m.chart, EntryHandlers(m, a1, s, owners), s),
      QueueInvokes(m.chart, EntryHandlers(m, b1, s, owners), s);
    assert Same(a2, b2);
    SameEnterFinal(m, a2, b2, s);
  }

  lemma SameIds(xs: seq<Running>, ys: seq<Running>)
    requires multiset(xs) == multiset(ys)
    ensures Ids(xs) == Ids(ys)
  {
    forall id ensures id in Ids(xs) <==> id in Ids(ys) {
      if id in Ids(xs) {
        var i :| 0 <= i < |xs| && xs[i].id == id;
        assert xs[i] in multiset(ys);
        var j :| 0 <= j < |ys| && ys[j] == xs[i];
      }
      if id in Ids(ys) {
        var i :| 0 <= i < |ys| && ys[i].id == id;
        assert ys[i] in multiset(xs);
        var j :| 0 <= j < |xs| && xs[j] == ys[i];
      }
    }
  }

  lemma SameCancelInvokes(a: St, b: St, s: int)
    requires Same(a, b)
    ensures Same(CancelInvokes(a, s), CancelInvokes(b, s))
  {
    if s in a.active { SameIds(a.active[s], b.active[s]); }
  }

  lemma SameExit(m: Model, a: St, b: St, s: int)
    requires Same(a, b)
    ensures Same(ExitState(m, a, s), ExitState(m, b, s))
  {
    SameBlock(m, a, b, OnExit(s));
    hide RunBlock, CancelInvokes;
    SameCancelInvokes(RunBlock(m, a, OnExit(s)), RunBlock(m, b, OnExit(s)), s);
  }

  lemma {:induction false} SameExitEach(m: Model, a: St, b: St, xs: seq<int>)
    requires Same(a, b)
    ensures Same(ExitEach(m, a, xs), ExitEach(m, b, xs))
  {
    hide ExitState, Same;
    if xs != [] {
      SameExitEach(m, a, b, xs[..|xs| - 1]);
      SameExit(m, ExitEach(m, a, xs[..|xs| - 1]), ExitEach(m, b, xs[..|xs| - 1]), xs[|xs| - 1]);
    }
  }

  lemma {:induction false} SameEnterEach(m: Model, a: St, b: St, xs: seq<int>, e: Entry)
    requires Tree(m.chart) && Same(a, b)
    ensures Same(EnterEach(m, a, xs, e), EnterEach(m, b, xs, e))
  {
    hide EnterState, Same;
    if xs != [] {
      SameEnterEach(m, a, b, xs[..|xs| - 1], e);
      SameEnter(m, EnterEach(m, a, xs[..|xs| - 1], e), EnterEach(m, b, xs[..|xs| - 1], e), xs[|xs| - 1],
        DefaultsOf(e, xs[|xs| - 1]));
    }
  }

  lemma {:induction false} SameTakeEach(m: Model, a: St, b: St, ts: seq<Transition>)
    requires Same(a, b)
    ensures Same(TakeEach(m, a, ts), TakeEach(m, b, ts))
  {
    hide RunBlock, Same;
    if ts != [] {
      var t, init := ts[|ts| - 1], ts[..|ts| - 1];
      SameTakeEach(m, a, b, init);
      SameBlock(m, TakeEach(m, a, init), TakeEach(m, b, init), Action(t.source, t.index));
    }
  }

  // ---- invocations ----

  lemma SameBeginInvoke(m: Model, a: St, b: St, s: int, k: nat)
    requires Same(a, b) && k < |Invokes(m.chart, s)|
    ensures Same(BeginInvoke(m, a, s, k), BeginInvoke(m, b, s, k))
  {
    var n := InvokeNumber(m.chart, a, s, k);
    assert n == InvokeNumber(m.chart, b, s, k);
    var a1, b1 := Logged(a.(invokeSeq := n), InvokeBegun(s, k)), Logged(b.(invokeSeq := n), InvokeBegun(s, k));
    assert Same(a1, b1) && ViewOf(a1) == ViewOf(b1);
    hide InvokeNumber;
    match m.invoke(ViewOf(a1), s, k, InvokeName(m.chart, s, k, n))
    case Refused(data, report, invokeId) => SameRaised(a1.(data := data), b1.(data := data),
      PlatformEvent(report, "", invokeId));
    case Started(data, typ, source) => SameStarted(a1, b1, data,
      Running(InvokeName(m.chart, s, k, n), s, k, InvokeType(Invokes(m.chart, s)[k], typ), source));
  }

  lemma SameStarted(a: St, b: St, data: Data, r: Running)
    requires Same(a, b)
    ensures Same(StartedInvoke(a, data, r), StartedInvoke(b, data, r))
  {}

  lemma {:induction false} SameBeginFrom(m: Model, a: St, b: St, s: int, k: nat)
    requires Same(a, b) && k <= |Invokes(m.chart, s)|
    ensures Same(BeginFrom(m, a, s, k), BeginFrom(m, b, s, k))
  {
    hide BeginInvoke, Same;
    if k > 0 {
      SameBeginFrom(m, a, b, s, k - 1);
      SameBeginInvoke(m, BeginFrom(m, a, s, k - 1), BeginFrom(m, b, s, k - 1), s, k - 1);
    }
  }

  lemma {:induction false} SameBeginEach(m: Model, a: St, b: St, xs: seq<int>)
    requires Same(a, b)
    ensures Same(BeginEach(m, a, xs), BeginEach(m, b, xs))
  {
    hide BeginFrom, Same;
    if xs != [] {
      SameBeginEach(m, a, b, xs[..|xs| - 1]);
      SameBeginFrom(m, BeginEach(m, a, xs[..|xs| - 1]), BeginEach(m, b, xs[..|xs| - 1]), xs[|xs| - 1],
        |Invokes(m.chart, xs[|xs| - 1])|);
    }
  }

  lemma SameProcessInvokes(m: Model, a: St, b: St)
    requires Same(a, b)
    ensures Same(ProcessInvokes(m, a), ProcessInvokes(m, b))
  {
    assert Same(a.(statesToInvoke := {}), b.(statesToInvoke := {}));
    SameBeginEach(m, a.(statesToInvoke := {}), b.(statesToInvoke := {}), SortAsc(a.statesToInvoke, |m.chart.states|));
  }

  // ---- selection and steps ----

  lemma SameSelection(m: Model, a: St, b: St, ev: Option<Event>)
    requires Tree(m.chart) && Same(a, b)
    ensures Selected(m, a, ev) == Selected(m, b, ev) && Same(AfterSelection(m, a, ev), AfterSelection(m, b, ev))
  {
    assert ViewOf(a) == ViewOf(b);
    SameReports(a.mail, b.mail, ErrorsOf(m, ViewOf(a), ev, AtomicStates(m.chart, a.config)));
  }

  lemma SameMicrostep(m: Model, a: St, b: St, ts: seq<Transition>)
    requires Founded(m.chart) && HistorySane(m.chart, a.history) && AllFounded(m.chart, ts) && Same(a, b)
    ensures HistorySane(m.chart, b.history) && Same(Microstep(m, a, ts), Microstep(m, b, ts))
  {
    var c := m.chart;
    var exits := SortDesc(ExitSets(c, a.history, a.config, ts), |c.states|);
    var e := EntrySet(c, a.history, ts, NoEntry);
    var enters := SortAsc(e.states, |c.states|);
    FoundedTree(c);
    hide Founded, HistorySane, AllFounded, ExitSets, EntrySet, ExitEach, TakeEach, EnterEach, RecordAll;
    var a1, b1 := Recording(m, a, exits), Recording(m, b, exits);
    assert Same(a1, b1);
    SameExitEach(m, a1, b1, exits);
    SameTakeEach(m, ExitEach(m, a1, exits), ExitEach(m, b1, exits), ts);
    var a2, b2 := TakeEach(m, ExitEach(m, a1, exits), ts), TakeEach(m, ExitEach(m, b1, exits), ts);
    SameEnterEach(m, a2, b2, enters, e);
    SameNoted(EnterEach(m, a2, enters, e), EnterEach(m, b2, enters, e));
  }

  lemma SameNoted(a: St, b: St)
    requires Same(a, b)
    ensures Same(a.(trace := a.trace.(configs := a.trace.configs + [a.config])),
      b.(trace := b.trace.(configs := b.trace.configs + [b.config])))
  {}

  lemma SameTakeSelected(m: Model, a: St, b: St, ev: Option<Event>)
    requires WellFormedModel(m) && Live(m, a) && Live(m, b) && Same(a, b)
    ensures Same(TakeSelected(m, a, ev), TakeSelected(m, b, ev))
  {
    SameSelection(m, a, b, ev);
    var ts := Selected(m, a, ev);
    var a1, b1 := AfterSelection(m, a, ev), AfterSelection(m, b, ev);
    AfterSelectionIs(m, a, ev);
    ContentSound(m, a, a1, []);
    if ts != [] {
      MicrostepIs(m, a1, Enabled(m, ViewOf(a), ev), ts);
      hide Live, Microstep, Same, AfterSelection, Selected;
      SameMicrostep(m, a1, b1, ts);
    }
  }

  lemma SameDequeue(m: Model, a: St, b: St)
    requires Same(a, b) && a.mail.internalQueue != []
    ensures b.mail.internalQueue != [] && Same(DequeueInternal(a), DequeueInternal(b))
  {
    QueuePassed(a.mail, DequeueInternal(a).mail, []);
    QueuePassed(b.mail, DequeueInternal(b).mail, []);
  }

  lemma SameQueues(a: St, b: St)
    requires SameButEvent(a, b)
    ensures a.mail.internalQueue == b.mail.internalQueue && a.mail.externalQueue == b.mail.externalQueue
      && a.running == b.running && a.completed == b.completed
  {}

  /** One round of runToStable on both states. */
  lemma SameRound(m: Model, a: St, b: St)
    requires WellFormedModel(m) && Live(m, a) && Live(m, b) && Same(a, b)
    ensures Round(m, a).Settled? == Round(m, b).Settled? && Same(Round(m, a).st, Round(m, b).st)
  {
    hide Live, WellFormedModel, Same, TakeSelected, ProcessInvokes, Selected, AfterSelection, Kept;
    TreeOf(m);
    SameFacts(a, b);
    SameSelection(m, a, b, None);
    SameTakeSelected(m, a, b, None);
    if Selected(m, a, None) == [] {
      var a1, b1 := TakeSelected(m, a, None), TakeSelected(m, b, None);
      SameFacts(a1, b1);
      if a1.mail.internalQueue == [] {
        SameProcessInvokes(m, a1, b1);
        SameFacts(ProcessInvokes(m, a1), ProcessInvokes(m, b1));
      } else {
        SameDequeue(m, a1, b1);
        DequeueInternalIs(m, a1);
        DequeueInternalIs(m, b1);
        SameTakeSelected(m, DequeueInternal(a1), DequeueInternal(b1), DequeueInternal(a1).event);
      }
    }
  }

  lemma SameFacts(a: St, b: St)
    requires Same(a, b)
    ensures a.mail.internalQueue == b.mail.internalQueue && a.mail.externalQueue == b.mail.externalQueue
    ensures a.running == b.running && a.completed == b.completed && a.event == b.event && a.config == b.config
      && a.byId == b.byId && a.statesToInvoke == b.statesToInvoke
  {}

  ghost predicate SameRun(r: Run, s: Run) { r.finished == s.finished && Same(r.st, s.st) }

  lemma {:induction false} SameRunToStable(m: Model, a: St, b: St, budget: nat)
    requires WellFormedModel(m) && Live(m, a) && Live(m, b) && Same(a, b)
    ensures SameRun(RunToStable(m, a, budget), RunToStable(m, b, budget))
    decreases budget
  {
    hide Live, WellFormedModel, Same, Round, Ahead, RunToStable;
    SameFacts(a, b);
    RunToStableUnrolled(m, a, budget);
    RunToStableUnrolled(m, b, budget);
    if a.running && budget > 0 {
      SameRound(m, a, b);
      if Round(m, a).Again? { SameRunToStable(m, Round(m, a).st, Round(m, b).st, budget - 1); }
    }
  }
}
