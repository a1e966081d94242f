/**
 What executable content can and cannot change: it leaves configuration, history and invocations
 alone, keeps the external queue in arrival order, and accounts for every delayed send exactly once.
 */
module Bookkeeping {
  import opened Charts
  import opened Machine

  // ---- first in, first out ----

  /** Both external and internal events leave their queue in the order in which they entered it. */
  ghost predicate Fifo(q: Mail, consumed: seq<Event>, taken: seq<Event>) {
    q.arrived == consumed + q.externalQueue && q.raised == taken + q.internalQueue
  }

  // ---- the delayed-send ledger ----

  ghost predicate SortedPending(ps: seq<Pending>) { forall i, j :: 0 <= i < j < |ps| ==> Before(ps[i], ps[j]) }

  ghost function UpTo(n: nat): multiset<nat> { if n == 0 then multiset{} else UpTo(n - 1) + multiset{n} }

  /** Order numbers are handed out once each, and every one is pending, dispatched or dropped: in
      exactly one of the three, exactly once. */
  ghost predicate Ledger(q: Mail) {
    && SortedPending(q.pending)
    && multiset(Orders(q.pending)) + multiset(q.dispatched) + multiset(q.dropped) == UpTo(q.pendingSeq)
  }

  /** Nothing armed before q returns to the pending set. */
  ghost predicate OnlyNewer(q: Mail, q': Mail) {
    q.pendingSeq <= q'.pendingSeq && forall r :: r in q'.pending ==> r in q.pending || r.order > q.pendingSeq
  }

  /** From q to q' the pending sends `fired` were dispatched, in that order; the ledger still balances, and
      the external queue only grew by what arrived. */
  ghost predicate Passed(q: Mail, q': Mail, fired: seq<nat>) {
    && (Ledger(q) ==> Ledger(q'))
    && Grew(q, q') && OnlyNewer(q, q') && q'.dispatched == q.dispatched + fired
    && q.raised <= q'.raised && q.requests <= q'.requests
  }

  /** And the internal queue only grew by what was raised. */
  ghost predicate Moved(q: Mail, q': Mail, fired: seq<nat>) { Passed(q, q', fired) && GrewInside(q, q') }

  /** What running content does to the mail: no pending send is dispatched. */
  ghost predicate Kept(q: Mail, q': Mail) { Moved(q, q', []) }

  lemma MovedFifo(q: Mail, q': Mail, fired: seq<nat>, consumed: seq<Event>, taken: seq<Event>)
    requires Moved(q, q', fired) && Fifo(q, consumed, taken)
    ensures Fifo(q', consumed, taken)
  {
    var more, inside := q'.arrived[|q.arrived|..], q'.raised[|q.raised|..];
    assert consumed + (q.externalQueue + more) == (consumed + q.externalQueue) + more;
    assert taken + (q.internalQueue + inside) == (taken + q.internalQueue) + inside;
  }

  lemma KeptFifo(q: Mail, q': Mail, consumed: seq<Event>, taken: seq<Event>)
    requires Kept(q, q') && Fifo(q, consumed, taken)
    ensures Fifo(q', consumed, taken)
  {
    MovedFifo(q, q', [], consumed, taken);
  }

  lemma NewerTrans(a: Mail, b: Mail, d: Mail)
    requires OnlyNewer(a, b) && OnlyNewer(b, d)
    ensures OnlyNewer(a, d)
  {}

  /** The external queue grew by exactly what arrived. */
  ghost predicate Grew(q: Mail, q': Mail) {
    q.arrived <= q'.arrived && q'.externalQueue == q.externalQueue + q'.arrived[|q.arrived|..]
  }

  /** The internal queue grew by exactly what was raised. */
  ghost predicate GrewInside(q: Mail, q': Mail) {
    q.raised <= q'.raised && q'.internalQueue == q.internalQueue + q'.raised[|q.raised|..]
  }

  lemma GrewTrans(a: Mail, b: Mail, d: Mail)
    requires Grew(a, b) && Grew(b, d)
    ensures Grew(a, d)
  {
    assert d.arrived[|a.arrived|..] == b.arrived[|a.arrived|..] + d.arrived[|b.arrived|..];
  }

  lemma InsideTrans(a: Mail, b: Mail, d: Mail)
    requires GrewInside(a, b) && GrewInside(b, d)
    ensures GrewInside(a, d)
  {
    assert d.raised[|a.raised|..] == b.raised[|a.raised|..] + d.raised[|b.raised|..];
  }

  lemma PassedTrans(a: Mail, b: Mail, d: Mail, fired: seq<nat>, again: seq<nat>)
    requires Passed(a, b, fired) && Passed(b, d, again)
    ensures Passed(a, d, fired + again)
  {
    hide Grew, OnlyNewer, Ledger;
    GrewTrans(a, b, d);
    NewerTrans(a, b, d);
    assert a.dispatched + fired + again == a.dispatched + (fired + again);
  }

  lemma MovedTrans(a: Mail, b: Mail, d: Mail, fired: seq<nat>, again: seq<nat>)
    requires Moved(a, b, fired) && Moved(b, d, again)
    ensures Moved(a, d, fired + again)
  {
    hide Passed, GrewInside;
    PassedTrans(a, b, d, fired, again);
    InsideTrans(a, b, d);
  }

  lemma KeptTrans(a: Mail, b: Mail, d: Mail)
    requires Kept(a, b) && Kept(b, d)
    ensures Kept(a, d)
  {
    MovedTrans(a, b, d, [], []);
  }

  /** A step that touches neither the pending sends nor their ledger. */
  lemma QueuePassed(q: Mail, q': Mail, more: seq<Event>)
    requires q'.arrived == q.arrived + more && q'.externalQueue == q.externalQueue + more
    requires q'.pending == q.pending && q'.pendingSeq == q.pendingSeq && q'.dispatched == q.dispatched
      && q'.dropped == q.dropped
    requires q.raised <= q'.raised && q.requests <= q'.requests
    ensures Passed(q, q', [])
  {}

  /** And only adds to the internal queue. */
  lemma QueueKept(q: Mail, q': Mail, more: seq<Event>, inside: seq<Event>)
    requires q'.arrived == q.arrived + more && q'.externalQueue == q.externalQueue + more
    requires q'.raised == q.raised + inside && q'.internalQueue == q.internalQueue + inside
    requires q'.pending == q.pending && q'.pendingSeq == q.pendingSeq && q'.dispatched == q.dispatched
      && q'.dropped == q.dropped && q.requests <= q'.requests
    ensures Kept(q, q')
  {
    QueuePassed(q, q', more);
  }

  lemma UpToHas(n: nat, k: nat)
    ensures UpTo(n)[k] == if 1 <= k <= n then 1 else 0
  {}

  /** A record that is pending was neither dispatched nor dropped, and nothing is dispatched or dropped twice. */
  lemma LedgerExclusive(q: Mail, k: nat)
    requires Ledger(q)
    ensures multiset(Orders(q.pending))[k] + multiset(q.dispatched)[k] + multiset(q.dropped)[k] == if 1 <= k <=
      q.pendingSeq then 1 else 0
  {
    UpToHas(q.pendingSeq, k);
  }

  lemma OrdersSplit(ps: seq<Pending>, qs: seq<Pending>)
    ensures Orders(ps + qs) == Orders(ps) + Orders(qs)
  {}

  lemma {:induction false} InsertHas(ps: seq<Pending>, r: Pending)
    ensures forall p :: p in InsertPending(ps, r) <==> p in ps || p == r
  {
    if ps != [] && !Before(r, ps[0]) {
      InsertHas(ps[1..], r);
      assert ps == [ps[0]] + ps[1..];
    }
  }

  lemma {:induction false} InsertCounts(ps: seq<Pending>, r: Pending)
    ensures multiset(Orders(InsertPending(ps, r))) == multiset(Orders(ps)) + multiset{r.order}
  {
    if ps == [] || Before(r, ps[0]) {
      OrdersSplit([r], ps);
      assert Orders([r]) == [r.order];
    } else {
      InsertCounts(ps[1..], r);
      assert ps == [ps[0]] + ps[1..];
      OrdersSplit([ps[0]], ps[1..]);
      OrdersSplit([ps[0]], InsertPending(ps[1..], r));
    }
  }

  lemma {:induction false} InsertKeeps(ps: seq<Pending>, r: Pending)
    requires SortedPending(ps) && forall i :: 0 <= i < |ps| ==> ps[i].order < r.order
    ensures SortedPending(InsertPending(ps, r))
  {
    if ps != [] && !Before(r, ps[0]) {
      InsertKeeps(ps[1..], r);
      InsertHas(ps[1..], r);
      var rest := InsertPending(ps[1..], r);
      forall i | 0 <= i < |rest| ensures Before(ps[0], rest[i]) {
        assert rest[i] in rest;
        if rest[i] != r {
          var j :| 0 <= j < |ps[1..]| && ps[1..][j] == rest[i];
          assert ps[j + 1] == rest[i];
        }
      }
    }
  }

  lemma WithSendIdHas(ps: seq<Pending>, id: string, keep: bool)
    ensures forall p :: p in WithSendId(ps, id, keep) <==> p in ps && (p.event.sendId != id) == keep
  {}

  lemma {:induction false} FilterSorted(ps: seq<Pending>, id: string)
    requires SortedPending(ps)
    ensures SortedPending(WithSendId(ps, id, true))
  {
    if ps != [] {
      FilterSorted(ps[1..], id);
      var rest := WithSendId(ps[1..], id, true);
      WithSendIdHas(ps[1..], id, true);
      forall i | 0 <= i < |rest| ensures Before(ps[0], rest[i]) {
        assert rest[i] in rest;
        var j :| 0 <= j < |ps[1..]| && ps[1..][j] == rest[i];
        assert ps[j + 1] == rest[i];
      }
    }
  }

  lemma {:induction false} FilterSplits(ps: seq<Pending>, id: string)
    ensures multiset(Orders(WithSendId(ps, id, true))) + multiset(Orders(WithSendId(ps, id, false))) ==
      multiset(Orders(ps))
  {
    if ps != [] {
      FilterSplits(ps[1..], id);
      assert ps == [ps[0]] + ps[1..];
      OrdersSplit([ps[0]], ps[1..]);
      OrdersSplit([ps[0]], WithSendId(ps[1..], id, true));
      OrdersSplit([ps[0]], WithSendId(ps[1..], id, false));
    }
  }

  lemma OrderBound(q: Mail, i: nat)
    requires Ledger(q) && i < |q.pending|
    ensures 1 <= q.pending[i].order <= q.pendingSeq
  {
    var k := q.pending[i].order;
    assert Orders(q.pending)[i] == k;
    assert k in Orders(q.pending);
    LedgerExclusive(q, k);
  }

  // ---- every step of executable content ----

  lemma InternalKept(q: Mail, ev: Event)
    ensures Kept(q, EnqueueInternal(q, ev))
  {
    QueueKept(q, EnqueueInternal(q, ev), [], [ev]);
  }

  lemma DispatchKept(m: Model, q: Mail, sendId: string, target: string, typ: string, ev: Event)
    ensures Kept(q, Dispatch(m, q, sendId, target, typ, ev))
  {
    var q' := Dispatch(m, q, sendId, target, typ, ev);
    QueueKept(q, q', q'.externalQueue[|q.externalQueue|..], q'.internalQueue[|q.internalQueue|..]);
  }

  lemma ArmKept(q: Mail, sendId: string, target: string, typ: string, ev: Event, fireAt: int)
    ensures Kept(q, Arm(q, sendId, target, typ, ev, fireAt))
  {
    var q' := Arm(q, sendId, target, typ, ev, fireAt);
    InsertHas(q.pending, Pending(sendId, target, typ, ev, fireAt, q.pendingSeq + 1));
    if Ledger(q) {
      forall i | 0 <= i < |q.pending| ensures q.pending[i].order < q.pendingSeq + 1 { OrderBound(q, i); }
      InsertKeeps(q.pending, Pending(sendId, target, typ, ev, fireAt, q.pendingSeq + 1));
      InsertCounts(q.pending, Pending(sendId, target, typ, ev, fireAt, q.pendingSeq + 1));
    }
  }

  lemma DoSendKept(m: Model, now: int, q: Mail, o: SendOptions)
    ensures Kept(q, DoSend(m, now, q, o))
  {
    var q1 := Counted(q, o);
    var sendId := SendId(q1.sendSeq, o);
    QueueKept(q, q1, [], []);
    hide Kept, Dispatch, Arm, SendId, SendEvent;
    if (o.sendId != "" && o.idLocation.Some?) {
      InternalKept(q, PlatformEvent(ErrExecution, o.sendId, ""));
    } else {
      if o.idLocation == Some(false) { InternalKept(q1, PlatformEvent(ErrExecution, sendId, "")); }
      else if o.delay <= 0 { DispatchKept(m, q1, sendId, o.target, o.typ, SendEvent(o, sendId)); }
      else { ArmKept(q1, sendId, o.target, CanonicalType(o.typ), SendEvent(o, sendId), now + o.delay); }
      KeptTrans(q, q1, DoSend(m, now, q, o));
    }
  }

  lemma DoCancelKept(q: Mail, id: string)
    ensures Kept(q, DoCancel(q, id))
  {
    WithSendIdHas(q.pending, id, true);
    if Ledger(q) && id != "" {
      FilterSorted(q.pending, id);
      FilterSplits(q.pending, id);
      var gone := Orders(WithSendId(q.pending, id, false));
      assert multiset(q.dropped + gone) == multiset(q.dropped) + multiset(gone);
    }
  }

  lemma DueMoved(q: Mail, i: nat)
    requires i < |q.pending|
    ensures Moved(q, Due(q, i), [q.pending[i].order])
  {
    var r := q.pending[i];
    assert q.pending == q.pending[..i] + ([r] + q.pending[i + 1..]);
    OrdersSplit(q.pending[..i], [r] + q.pending[i + 1..]);
    OrdersSplit([r], q.pending[i + 1..]);
    OrdersSplit(q.pending[..i], q.pending[i + 1..]);
    assert Orders([r]) == [r.order];
    assert multiset(q.dispatched + [r.order]) == multiset(q.dispatched) + multiset{r.order};
  }

  /** A firing timer dispatches its record, and no other. */
  lemma FireTimerMoved(m: Model, q: Mail, i: nat)
    requires i < |q.pending|
    ensures Moved(q, FireTimer(m, q, i), [q.pending[i].order])
  {
    var r := q.pending[i];
    DueMoved(q, i);
    DispatchKept(m, Due(q, i), r.sendId, r.target, r.typ, r.event);
    MovedTrans(q, Due(q, i), FireTimer(m, q, i), [r.order], []);
  }

  lemma ApplyKept(m: Model, now: int, q: Mail, e: Effect)
    ensures Kept(q, Apply(m, now, q, e))
  {
    match e
    case Send(o) => DoSendKept(m, now, q, o);
    case Cancel(id) => DoCancelKept(q, id);
    case Raise(name, data) => InternalKept(q, Event(name, Internal, data, "", "", ""));
    case Fail => InternalKept(q, PlatformEvent(ErrExecution, "", ""));
  }

  /** Executable content keeps arrival order and accounts for every delayed send. */
  lemma {:induction false} ApplyAllKept(m: Model, now: int, q: Mail, es: seq<Effect>)
    ensures Kept(q, ApplyAll(m, now, q, es))
    decreases |es|
  {
    if es == [] {
      QueueKept(q, q, [], []);
    } else {
      ApplyKept(m, now, q, es[0]);
      ApplyAllKept(m, now, Apply(m, now, q, es[0]), es[1..]);
      KeptTrans(q, Apply(m, now, q, es[0]), ApplyAll(m, now, q, es));
    }
  }

  /** n reports of an execution error. */
  function Errors(n: nat): seq<Event> { seq(n, i => PlatformEvent(ErrExecution, "", "")) }

  /** What failing guards leave behind is one event each. */
  lemma {:induction false} ReportErrorsKept(q: Mail, n: nat)
    ensures Kept(q, ReportErrors(q, n))
    ensures ReportErrors(q, n) == q.(internalQueue := q.internalQueue + Errors(n), raised := q.raised + Errors(n))
  {
    if n == 0 {
      QueueKept(q, q, [], []);
    } else {
      ReportErrorsKept(q, n - 1);
      InternalKept(ReportErrors(q, n - 1), PlatformEvent(ErrExecution, "", ""));
      KeptTrans(q, ReportErrors(q, n - 1), ReportErrors(q, n));
    }
  }
}
