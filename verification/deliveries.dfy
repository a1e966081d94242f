/**
 What each effect of executable content does (interpreter.go:171-411), said on the queues, the requests and the
 pending sends: where an event goes that is sent at once or whose timer fires, what is armed and for when,
 what a cancellation removes, and that the effects of one piece of content happen in order.
 */
module Deliveries {
  import opened Charts
  import opened Machine
  import opened Bookkeeping

  /** What is added inside, outside, and handed to processors. */
  datatype Posting = Posting(inside: seq<Event>, outside: seq<Event>, requests: seq<Request>)

  /** From q to q' exactly this was posted. */
  ghost predicate Gains(q: Mail, q': Mail, p: Posting) {
    q' == q.(
      internalQueue := q.internalQueue + p.inside, raised := q.raised + p.inside,
      externalQueue := q.externalQueue + p.outside, arrived := q.arrived + p.outside,
      requests := q.requests + p.requests, dispatchSeq := q.dispatchSeq + |p.requests|)
  }

  /** The failure of a send, as an event with the send's ID. */
  function Failure(name: string, sendId: string): Posting { Posting([PlatformEvent(name, sendId, "")], [], []) }

  ghost predicate IsOwnQueue(m: Model, target: string) { target == "" || target == "#_scxml_" + m.session }

  /** Where an event sent at once goes, by target and type, as request number n if it goes to a processor:
      unknown types fail; to the internal queue; to the session's own external queue, under its own origin; or
      to a processor, which may fail in two ways. */
  ghost function PostingOf(m: Model, n: nat, sendId: string, target: string, typ: string, ev: Event): Posting {
    var known := if typ in {"", ScxmlAlias} then ScxmlProcessor else typ;
    var request := Request(n, sendId, ev.sendId, target, known, ev.name, ev.data);
    if known !in m.processors then Failure(ErrExecution, sendId)
    else if known == ScxmlProcessor && target == "#_internal" then
      Posting([Event(ev.name, Internal, ev.data, ev.sendId, "", ev.invokeId)], [], [])
    else if known == ScxmlProcessor && IsOwnQueue(m, target) then
      Posting([], [Event(ev.name, External, ev.data, ev.sendId, "#_scxml_" + m.session, ev.invokeId)], [])
    else
      match m.deliver(request)
      case Accepted => Posting([], [], [request])
      case CommunicationFailed => Failure(ErrCommunication, sendId).(requests := [request])
      case ExecutionFailed => Failure(ErrExecution, sendId).(requests := [request])
  }

  lemma DispatchPosts(m: Model, q: Mail, sendId: string, target: string, typ: string, ev: Event)
    ensures Gains(q, Dispatch(m, q, sendId, target, typ, ev),
      PostingOf(m, q.dispatchSeq + 1, sendId, target, typ, ev))
  {}

  // ---- delayed sends ----

  /** From q to q' the pending record r left to be dispatched, and was posted. */
  ghost predicate FiredOnce(m: Model, q: Mail, q': Mail, r: Pending) {
    && q'.dispatched == q.dispatched + [r.order] && (forall p :: p in q'.pending <==> p in q.pending && p != r)
    && Gains(q.(pending := q'.pending, dispatched := q'.dispatched), q',
         PostingOf(m, q.dispatchSeq + 1, r.sendId, r.target, r.typ, r.event))
  }

  /** A timer that fires delivers its event. */
  lemma FireTimerDelivers(m: Model, q: Mail, i: nat)
    requires Ledger(q) && i < |q.pending|
    ensures FiredOnce(m, q, FireTimer(m, q, i), q.pending[i])
  {
    var r, ps := q.pending[i], q.pending;
    DispatchPosts(m, Due(q, i), r.sendId, r.target, r.typ, r.event);
    forall p ensures p in ps[..i] + ps[i + 1..] <==> p in ps && p != r {
      if p in ps && p != r {
        var j :| 0 <= j < |ps| && ps[j] == p;
        assert if j < i then ps[..i][j] == p else ps[i + 1..][j - i - 1] == p;
      }
      if p == r { assert forall j :: 0 <= j < |ps| && j != i ==> ps[j] != r by { OnlyOnce(ps, i); } }
    }
    hide Dispatch, PostingOf;
  }

  lemma OnlyOnce(ps: seq<Pending>, i: nat)
    requires SortedPending(ps) && i < |ps|
    ensures forall j :: 0 <= j < |ps| && j != i ==> ps[j] != ps[i]
  {
    forall j | 0 <= j < |ps| && j != i ensures ps[j] != ps[i] {
      if j < i { assert Before(ps[j], ps[i]); } else { assert Before(ps[i], ps[j]); }
    }
  }

  // ---- sends ----

  /** The ID under which a send is carried out. */
  ghost function ExecutionId(q: Mail, o: SendOptions): string {
    if o.sendId == "" then "send." + Decimal(q.sendSeq + 1) else o.sendId
  }

  /** The event sent: it carries an ID only if the author can see one. */
  ghost function EventOf(q: Mail, o: SendOptions): Event {
    Event(o.name, External, o.data, if o.idLocation == None && o.sendId == "" then "" else ExecutionId(q, o), "", "")
  }

  /** A record joined the pending sends, due when its delay has passed, under the next number. */
  ghost predicate Armed(q: Mail, q': Mail, r: Pending) {
    && q' == q.(pending := q'.pending, pendingSeq := q.pendingSeq + 1) && r.order == q.pendingSeq + 1
    && (forall p :: p in q'.pending <==> p in q.pending || p == r) && |q'.pending| == |q.pending| + 1
    && (Ledger(q) ==> SortedPending(q'.pending))
  }

  /** What a send does: an ID given twice or an ID location that fails is reported; without delay the event is
      posted; with one, it is armed for then. */
  ghost predicate SentAs(m: Model, now: int, q: Mail, q': Mail, o: SendOptions) {
    if o.sendId != "" && o.idLocation.Some? then Gains(q, q', Failure(ErrExecution, o.sendId))
    else
      var q1 := q.(sendSeq := if o.sendId == "" then q.sendSeq + 1 else q.sendSeq);
      var id := ExecutionId(q, o);
      if o.idLocation == Some(false) then Gains(q1, q', Failure(ErrExecution, id))
      else if o.delay <= 0 then Gains(q1, q', PostingOf(m, q.dispatchSeq + 1, id, o.target, o.typ, EventOf(q, o)))
      else Armed(q1, q', Pending(id, o.target, CanonicalType(o.typ), EventOf(q, o), now + o.delay, q.pendingSeq + 1))
  }

  lemma {:induction false} InsertedOnce(ps: seq<Pending>, r: Pending)
    ensures |InsertPending(ps, r)| == |ps| + 1
  {
    if ps != [] { InsertedOnce(ps[1..], r); }
  }

  lemma ArmArms(q: Mail, sendId: string, target: string, typ: string, ev: Event, fireAt: int)
    ensures Armed(q, Arm(q, sendId, target, typ, ev, fireAt),
      Pending(sendId, target, typ, ev, fireAt, q.pendingSeq + 1))
  {
    var r := Pending(sendId, target, typ, ev, fireAt, q.pendingSeq + 1);
    InsertHas(q.pending, r);
    InsertedOnce(q.pending, r);
    ArmKept(q, sendId, target, typ, ev, fireAt);
  }

  lemma DoSendSends(m: Model, now: int, q: Mail, o: SendOptions)
    ensures SentAs(m, now, q, DoSend(m, now, q, o), o)
  {
    hide Dispatch, PostingOf, Arm, Armed, Decimal, CanonicalType;
    var q1 := Counted(q, o);
    var id := SendId(q1.sendSeq, o);
    DispatchPosts(m, q1, id, o.target, o.typ, EventOf(q, o));
    ArmArms(q1, id, o.target, CanonicalType(o.typ), EventOf(q, o), now + o.delay);
  }

  /** The send with number k is pending under the author-visible ID `id`. */
  ghost predicate IsPending(q: Mail, id: string, k: nat) {
    exists p :: p in q.pending && p.event.sendId == id && p.order == k
  }

  /** What a cancellation does: the records whose author-visible ID is this one, and no other, leave. */
  ghost predicate CancelledIn(q: Mail, q': Mail, id: string) {
    && q' == q.(pending := q'.pending, dropped := q'.dropped) && q.dropped <= q'.dropped
    && (forall p :: p in q'.pending <==> p in q.pending && (id == "" || p.event.sendId != id))
    && (forall k :: k in q'.dropped <==> k in q.dropped || (id != "" && IsPending(q, id, k)))
    && (Ledger(q) ==> SortedPending(q'.pending))
  }

  lemma DoCancelCancels(q: Mail, id: string)
    ensures CancelledIn(q, DoCancel(q, id), id)
  {
    var gone := WithSendId(q.pending, id, false);
    WithSendIdHas(q.pending, id, true);
    WithSendIdHas(q.pending, id, false);
    DoCancelKept(q, id);
    forall k ensures k in Orders(gone) <==> IsPending(q, id, k) {
      if k in Orders(gone) {
        var i :| 0 <= i < |gone| && gone[i].order == k;
        assert gone[i] in gone;
      }
      if p :| p in q.pending && p.event.sendId == id && p.order == k {
        assert p in gone;
        var i :| 0 <= i < |gone| && gone[i] == p;
        assert Orders(gone)[i] == k;
      }
    }
  }

  // ---- the effects of one piece of content ----

  ghost predicate Did(m: Model, now: int, q: Mail, q': Mail, e: Effect) {
    match e
    case Raise(name, data) => Gains(q, q', Posting([Event(name, Internal, data, "", "", "")], [], []))
    case Send(o) => SentAs(m, now, q, q', o)
    case Cancel(id) => CancelledIn(q, q', id)
    case Fail => Gains(q, q', Failure(ErrExecution, ""))
  }

  /** The effects happened one after the other: qs is the mail before each of them, and after the last. */
  ghost predicate DidEach(m: Model, now: int, qs: seq<Mail>, es: seq<Effect>) {
    |qs| == |es| + 1 && forall i {:trigger es[i]} :: 0 <= i < |es| ==> Did(m, now, qs[i], qs[i + 1], es[i])
  }

  ghost predicate DidAll(m: Model, now: int, q: Mail, q': Mail, es: seq<Effect>) {
    exists qs {:trigger DidEach(m, now, qs, es)} :: DidEach(m, now, qs, es) && qs[0] == q && qs[|es|] == q'
  }

  lemma ApplyDoes(m: Model, now: int, q: Mail, e: Effect)
    ensures Did(m, now, q, Apply(m, now, q, e), e)
  {
    match e
    case Send(o) => DoSendSends(m, now, q, o);
    case Cancel(id) => DoCancelCancels(q, id);
    case Raise(name, data) =>
    case Fail =>
  }

  lemma {:induction false} ApplyAllDoes(m: Model, now: int, q: Mail, es: seq<Effect>)
    ensures DidAll(m, now, q, ApplyAll(m, now, q, es), es)
    decreases |es|
  {
    hide Did, Apply;
    if es == [] {
      assert DidEach(m, now, [q], es);
    } else {
      var q1 := Apply(m, now, q, es[0]);
      ApplyDoes(m, now, q, es[0]);
      ApplyAllDoes(m, now, q1, es[1..]);
      var qs :| DidEach(m, now, qs, es[1..]) && qs[0] == q1 && qs[|es| - 1] == ApplyAll(m, now, q1, es[1..]);
      forall i {:trigger es[i]} | 0 <= i < |es| ensures Did(m, now, ([q] + qs)[i], ([q] + qs)[i + 1], es[i]) {
        if i > 0 { assert es[1..][i - 1] == es[i]; }
      }
      assert DidEach(m, now, [q] + qs, es);
    }
  }

  /** Content that may not touch the queues leaves one error for each attempt, and nothing else. */
  lemma {:induction false} ForbiddenFails(m: Model, now: int, q: Mail, es: seq<Effect>)
    ensures Gains(q, ApplyAll(m, now, q, Forbidden(es)), Posting(Errors(|es|), [], []))
    decreases |es|
  {
    if es != [] {
      assert Forbidden(es)[1..] == Forbidden(es[1..]);
      assert Errors(|es|) == [PlatformEvent(ErrExecution, "", "")] + Errors(|es| - 1);
      ForbiddenFails(m, now, Apply(m, now, q, Fail), es[1..]);
    }
  }
}
