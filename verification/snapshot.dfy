/**
 Snapshots (snapshot.go:93-163, 244-364): what is stored of an interpreter, what restoring rebuilds, and
 that restoring a snapshot of a sound state succeeds and gives the same state up to the last event,
 the order numbers of pending sends, and the order in which one state lists its invocations.
 */
module Snapshots {
  import opened Charts
  import opened Validator
  import opened WellFormed
  import opened EntrySets
  import opened Machine
  import opened Bookkeeping
  import opened Invocations
  import opened Steps
  import opened Runs

  datatype PendingSend = PendingSend(sendId: string, target: string, typ: string, event: Event, fireAt: int)

  datatype ActiveInvoke = ActiveInvoke(state: int, definitionId: string, id: string, typ: string, source: string)

  datatype Snapshot = Snapshot(
    config: set<int>, history: History, initialized: set<int>, internalQueue: seq<Event>, externalQueue: seq<Event>,
    running: bool, sendSeq: nat, invokeSeq: nat, dispatchSeq: nat, pending: seq<PendingSend>, active: seq<ActiveInvoke>,
      data: Data)

  // ---- building ----

  function Stored(ps: seq<Pending>): seq<PendingSend> {
    seq(|ps|, i requires 0 <= i < |ps| => PendingSend(ps[i].sendId, ps[i].target, ps[i].typ, ps[i].event, ps[i].fireAt))
  }

  predicate KnownSpec(c: Chart, r: Running) { r.spec < |Invokes(c, r.owner)| }

  function AsActive(c: Chart, r: Running): ActiveInvoke
    requires KnownSpec(c, r)
  {
    ActiveInvoke(r.owner, Invokes(c, r.owner)[r.spec].definitionId, r.id, r.typ, r.source)
  }

  function AsActives(c: Chart, rs: seq<Running>): seq<ActiveInvoke>
    requires forall i :: 0 <= i < |rs| ==> KnownSpec(c, rs[i])
  {
    seq(|rs|, i requires 0 <= i < |rs| => AsActive(c, rs[i]))
  }

  /** rs lists the running invocations, each once. */
  ghost predicate Lists(c: Chart, rs: seq<Running>, byId: map<string, Running>) {
    && (forall i :: 0 <= i < |rs| ==> KnownSpec(c, rs[i]) && rs[i].id in byId && byId[rs[i].id] == rs[i])
    && (forall i, j :: 0 <= i < j < |rs| ==> rs[i].id != rs[j].id)
    && (forall id :: id in byId ==> byId[id] in rs)
  }

  /** buildSnapshot (snapshot.go:93-163), with the running invocations in the order rs. */
  function BuildSnapshot(c: Chart, st: St, rs: seq<Running>): Snapshot
    requires forall i :: 0 <= i < |rs| ==> KnownSpec(c, rs[i])
  {
    Snapshot(st.config, st.history, st.initialized, st.mail.internalQueue, st.mail.externalQueue, st.running,
      st.mail.sendSeq, st.invokeSeq, st.mail.dispatchSeq, Stored(st.mail.pending), AsActives(c, rs), st.data)
  }

  // ---- restoring ----

  function FindSpec(specs: seq<InvokeSpec>, id: string): (r: Option<nat>)
    ensures r.Some? ==> r.value < |specs| && specs[r.value].definitionId == id
    ensures r.None? ==> forall i :: 0 <= i < |specs| ==> specs[i].definitionId != id
  {
    if specs == [] then None
    else if specs[0].definitionId == id then Some(0)
    else
      match FindSpec(specs[1..], id)
      case None =>
        assert forall i :: 0 < i < |specs| ==> specs[i] == specs[1..][i - 1];
        None
      case Some(i) => Some(i + 1)
  }

  /** invokesByDefinitionID (compile.go:94-98): which declaration of which of the first n states has this ID. */
  function FindDefinition(c: Chart, id: string, n: nat): (r: Option<(int, nat)>)
    ensures r.Some? ==>
      0 <= r.value.0 < n && r.value.1 < |Invokes(c, r.value.0)|
      && Invokes(c, r.value.0)[r.value.1].definitionId == id
    ensures r.None? ==> forall s, i {:trigger Invokes(c, s)[i]} :: 0 <= s < n && 0 <= i < |Invokes(c, s)| ==>
      Invokes(c, s)[i].definitionId != id
  {
    if n == 0 then None
    else
      match FindSpec(Invokes(c, n - 1), id)
      case Some(k) => Some((n - 1, k))
      case None => FindDefinition(c, id, n - 1)
  }

  /** activeInvokes, invokesByID and restoredDefinitions while they are being rebuilt. */
  datatype Rebuilt = Rebuilt(active: map<int, seq<Running>>, byId: map<string, Running>, definitions: set<string>)

  /** One round of the loop over the stored invocations, with its checks (snapshot.go:316-360). */
  function RestoreInvoke(c: Chart, config: set<int>, b: Rebuilt, ai: ActiveInvoke): Option<Rebuilt> {
    if !Has(c, ai.state) || ai.state !in config then None
    else
      match FindDefinition(c, ai.definitionId, |c.states|)
      case None => None
      case Some(found) =>
        if ai.id == "" || found.0 != ai.state || !TypeFits(Invokes(c, found.0)[found.1], ai.typ)
          || ai.definitionId in b.definitions || ai.id in b.byId then None
        else
          var r := Running(ai.id, ai.state, found.1, ai.typ, ai.source);
          Some(Rebuilt(b.active[r.owner := (if r.owner in b.active then b.active[r.owner] else []) + [r]],
            b.byId[r.id := r], b.definitions + {ai.definitionId}))
  }

  function RestoreInvokes(c: Chart, config: set<int>, ais: seq<ActiveInvoke>): Option<Rebuilt> {
    if ais == [] then Some(Rebuilt(map[], map[], {}))
    else
      match RestoreInvokes(c, config, ais[..|ais| - 1])
      case None => None
      case Some(b) => RestoreInvoke(c, config, b, ais[|ais| - 1])
  }

  /** Pending records are renumbered from 1 in stored order (snapshot.go:291-304). */
  function Rearmed(ps: seq<PendingSend>): seq<Pending> {
    seq(|ps|, i requires 0 <= i < |ps| => Pending(ps[i].sendId, ps[i].target, ps[i].typ, ps[i].event, ps[i].fireAt,
      i + 1))
  }

  predicate KnownStates(c: Chart, snap: Snapshot) {
    && (forall x :: x in snap.config ==> Has(c, x))
    && (forall h :: h in snap.history ==> Has(c, h) && forall i :: 0 <= i < |snap.history[h]| ==>
      Has(c, snap.history[h][i]))
    && (forall x :: x in snap.initialized ==> Has(c, x))
  }

  /** The assignments of restoreFrom once every check has passed. */
  function RestoredState(snap: Snapshot, b: Rebuilt, now: int): St {
    St(snap.config, snap.history, snap.running, false, None, snap.initialized, snap.data, {}, b.active, b.byId,
      snap.invokeSeq, now,
      Mail(snap.internalQueue, snap.externalQueue, Rearmed(snap.pending), |snap.pending|, snap.sendSeq,
        snap.dispatchSeq, snap.externalQueue, [], [], snap.internalQueue, []),
      NO_TRACE.(base := snap.history))
  }

  /** restoreFrom (snapshot.go:244-364): a paused interpreter, or an error. */
  function RestoreFrom(c: Chart, snap: Snapshot, now: int): Option<St> {
    if !KnownStates(c, snap) then None
    else
      match RestoreInvokes(c, snap.config, snap.active)
      case None => None
      case Some(b) => Some(RestoredState(snap, b, now))
  }

  // ---- the same state ----

  /** Each state has the same invocations, in whatever order. */
  ghost predicate SameInvokes(A: map<int, seq<Running>>, B: map<int, seq<Running>>) {
    A.Keys == B.Keys && forall s {:trigger A[s]} {:trigger B[s]} :: s in A ==> multiset(A[s]) == multiset(B[s])
  }

  /** The same mail up to order numbers: queues, counters, and pending sends in the same order. */
  ghost predicate SameMail(q: Mail, q': Mail) {
    && q.internalQueue == q'.internalQueue && q.externalQueue == q'.externalQueue
    && q.sendSeq == q'.sendSeq && q.dispatchSeq == q'.dispatchSeq
    && Stored(q.pending) == Stored(q'.pending) && Ledger(q) && Ledger(q')
  }

  /** The same interpreter up to what a snapshot cannot keep: the last event, the order numbers of
      pending sends, the order of one state's invocations, and the observer's trace. */
  ghost predicate SameButEvent(a: St, b: St) {
    && b == a.(event := b.event, active := b.active, mail := b.mail, trace := b.trace)
    && SameInvokes(a.active, b.active) && SameMail(a.mail, b.mail)
  }

  ghost predicate Same(a: St, b: St) { SameButEvent(a, b) && a.event == b.event }

  // ---- restoring what was built ----

  ghost predicate AllSpecsKnown(c: Chart, rs: seq<Running>) { forall i :: 0 <= i < |rs| ==> KnownSpec(c, rs[i]) }

  ghost predicate Distinct(rs: seq<Running>) { forall i, j :: 0 <= i < j < |rs| ==> rs[i] != rs[j] }

  ghost predicate IndexRebuilt(byId: map<string, Running>, rs: seq<Running>) {
    && (forall id :: id in byId ==> byId[id].id == id && byId[id] in rs)
    && (forall i :: 0 <= i < |rs| ==> rs[i].id in byId && byId[rs[i].id] == rs[i])
  }

  ghost predicate OwnerRebuilt(active: map<int, seq<Running>>, rs: seq<Running>, s: int) {
    && (s in active ==> active[s] != [] && Distinct(active[s]))
    && forall r :: (s in active && r in active[s]) <==> (r in rs && r.owner == s)
  }

  ghost predicate DefinitionsRebuilt(c: Chart, definitions: set<string>, rs: seq<Running>)
    requires AllSpecsKnown(c, rs)
  {
    forall d :: d in definitions ==> exists i {:trigger rs[i]} ::
      0 <= i < |rs| && Invokes(c, rs[i].owner)[rs[i].spec].definitionId == d
  }

  /** The rebuilt indexes hold exactly the invocations rs. */
  ghost predicate Rebuilds(c: Chart, rs: seq<Running>, b: Rebuilt) {
    && AllSpecsKnown(c, rs) && IndexRebuilt(b.byId, rs)
    && (forall s {:trigger OwnerRebuilt(b.active, rs, s)} :: OwnerRebuilt(b.active, rs, s))
    && DefinitionsRebuilt(c, b.definitions, rs)
  }

  /** The declaration of a running invocation is found again. */
  lemma FoundAgain(c: Chart, r: Running)
    requires InvokesDeclaredOnce(c) && KnownSpec(c, r)
    ensures Has(c, r.owner) && FindDefinition(c, Invokes(c, r.owner)[r.spec].definitionId, |c.states|) ==
      Some((r.owner, r.spec))
  {
    var d := Invokes(c, r.owner)[r.spec].definitionId;
    var found := FindDefinition(c, d, |c.states|);
    if found.Some? && found != Some((r.owner, r.spec)) {
      assert TwoDeclarations(c, found.value.0, found.value.1, r.owner, r.spec);
    }
  }

  lemma MemberOfMore(rs: seq<Running>, r: Running)
    ensures forall x :: x in rs + [r] <==> x in rs || x == r
  {}

  function WithInvoke(b: Rebuilt, r: Running, d: string): Rebuilt {
    Rebuilt(b.active[r.owner := (if r.owner in b.active then b.active[r.owner] else []) + [r]], b.byId[r.id := r],
      b.definitions + {d})
  }

  lemma RebuildNext(c: Chart, rs: seq<Running>, b: Rebuilt, r: Running)
    requires Rebuilds(c, rs, b) && KnownSpec(c, r) && forall i :: 0 <= i < |rs| ==> rs[i].id != r.id
    ensures Rebuilds(c, rs + [r], WithInvoke(b, r, Invokes(c, r.owner)[r.spec].definitionId))
  {
    var all, d := rs + [r], Invokes(c, r.owner)[r.spec].definitionId;
    var b' := WithInvoke(b, r, d);
    MemberOfMore(rs, r);
    assert all[|rs|] == r;
    forall s ensures OwnerRebuilt(b'.active, all, s) {
      assert OwnerRebuilt(b.active, rs, s);
      if s == r.owner { OwnerNext(b.active, rs, r); }
    }
    forall e | e in b'.definitions
      ensures exists i {:trigger all[i]} :: 0 <= i < |all| && Invokes(c, all[i].owner)[all[i].spec].definitionId == e
    {
      if e != d {
        var i :| 0 <= i < |rs| && Invokes(c, rs[i].owner)[rs[i].spec].definitionId == e;
        assert all[i] == rs[i];
      }
    }
  }

  lemma OwnerNext(active: map<int, seq<Running>>, rs: seq<Running>, r: Running)
    requires OwnerRebuilt(active, rs, r.owner) && forall i :: 0 <= i < |rs| ==> rs[i].id != r.id
    ensures OwnerRebuilt(active[r.owner := (if r.owner in active then active[r.owner] else []) + [r]], rs + [r],
      r.owner)
  {
    MemberOfMore(rs, r);
    var old' := if r.owner in active then active[r.owner] else [];
    MemberOfMore(old', r);
    forall i | 0 <= i < |old'| ensures old'[i] != r {
      assert old'[i] in old';
      var k :| 0 <= k < |rs| && rs[k] == old'[i];
    }
  }

  /** Every check passes for an invocation not restored yet. */
  lemma RestoreAccepts(c: Chart, config: set<int>, rs: seq<Running>, b: Rebuilt, r: Running)
    requires InvokesDeclaredOnce(c) && Rebuilds(c, rs, b) && KnownSpec(c, r) && r.owner in config && r.id != ""
      && TypeFits(Invokes(c, r.owner)[r.spec], r.typ)
    requires forall i :: 0 <= i < |rs| ==> rs[i].id != r.id && (rs[i].owner != r.owner || rs[i].spec != r.spec)
    ensures RestoreInvoke(c, config, b, AsActive(c, r)) ==
      Some(WithInvoke(b, r, Invokes(c, r.owner)[r.spec].definitionId))
  {
    FoundAgain(c, r);
    var d := Invokes(c, r.owner)[r.spec].definitionId;
    if d in b.definitions {
      var i :| 0 <= i < |rs| && Invokes(c, rs[i].owner)[rs[i].spec].definitionId == d;
      FoundAgain(c, rs[i]);
    }
  }

  /** Running invocations that can be stored and found again. */
  ghost predicate Storable(c: Chart, config: set<int>, rs: seq<Running>) {
    && (forall i :: 0 <= i < |rs| ==>
      KnownSpec(c, rs[i]) && rs[i].owner in config && rs[i].id != ""
      && TypeFits(Invokes(c, rs[i].owner)[rs[i].spec], rs[i].typ))
    && (forall i, j :: 0 <= i < j < |rs| ==>
      rs[i].id != rs[j].id && (rs[i].owner != rs[j].owner || rs[i].spec != rs[j].spec))
  }

  lemma {:induction false} RestoresInvokes(c: Chart, config: set<int>, rs: seq<Running>)
    requires InvokesDeclaredOnce(c) && Storable(c, config, rs)
    ensures var b := RestoreInvokes(c, config, AsActives(c, rs)); b.Some? && Rebuilds(c, rs, b.value)
  {
    hide InvokesDeclaredOnce, Rebuilds, RestoreInvoke, WithInvoke;
    if rs == [] {
      NothingRebuilt(c);
    } else {
      var init, r := rs[..|rs| - 1], rs[|rs| - 1];
      RestoresInvokes(c, config, init);
      assert AsActives(c, rs)[..|rs| - 1] == AsActives(c, init);
      var b := RestoreInvokes(c, config, AsActives(c, init)).value;
      RestoreAccepts(c, config, init, b, r);
      RebuildNext(c, init, b, r);
      assert init + [r] == rs;
    }
  }

  lemma NothingRebuilt(c: Chart)
    ensures Rebuilds(c, [], Rebuilt(map[], map[], {}))
  {
    forall s ensures OwnerRebuilt(map[], [], s) {}
  }

  /** In a sound state the running invocations can be stored. */
  lemma RunningStorable(m: Model, st: St, rs: seq<Running>)
    requires Invoking(m, st) && Lists(m.chart, rs, st.byId)
    ensures Storable(m.chart, st.config, rs)
  {
    var c := m.chart;
    forall i | 0 <= i < |rs|
      ensures rs[i].owner in st.config && rs[i].id != ""
        && TypeFits(Invokes(m.chart, rs[i].owner)[rs[i].spec], rs[i].typ) && rs[i].owner in st.active
        && rs[i] in st.active[rs[i].owner]
    {
      IdBelongs(c, st.config, st.statesToInvoke, st.active, st.byId, rs[i].id);
      assert OwnerOk(c, st.config, st.statesToInvoke, st.active, st.byId, rs[i].owner);
    }
    forall i, j | 0 <= i < j < |rs|
      ensures rs[i].owner != rs[j].owner || rs[i].spec != rs[j].spec
    {
      assert OwnerOk(c, st.config, st.statesToInvoke, st.active, st.byId, rs[i].owner);
      if rs[i].owner == rs[j].owner {
        var s := rs[i].owner;
        var k :| 0 <= k < |st.active[s]| && st.active[s][k] == rs[i];
        var l :| 0 <= l < |st.active[s]| && st.active[s][l] == rs[j];
        assert k != l;
        assert st.active[s][if k < l then k else l].spec != st.active[s][if k < l then l else k].spec;
      }
    }
  }

  lemma SameMembers(xs: seq<Running>, ys: seq<Running>)
    requires Distinct(xs) && Distinct(ys) && forall r :: r in xs <==> r in ys
    ensures multiset(xs) == multiset(ys)
  {
    forall r ensures multiset(xs)[r] == multiset(ys)[r] { CountDistinct(xs, r); CountDistinct(ys, r); }
  }

  lemma {:induction false} CountDistinct(xs: seq<Running>, r: Running)
    requires Distinct(xs)
    ensures multiset(xs)[r] == if r in xs then 1 else 0
  {
    if xs != [] {
      CountDistinct(xs[1..], r);
      assert xs == [xs[0]] + xs[1..];
      assert forall i :: 0 <= i < |xs[1..]| ==> xs[1..][i] == xs[i + 1];
    }
  }

  /** A running invocation is one of those listed, under its owner. */
  lemma ListedOwner(m: Model, st: St, rs: seq<Running>, s: int, r: Running)
    requires Invoking(m, st) && Lists(m.chart, rs, st.byId)
    ensures (s in st.active && r in st.active[s]) <==> (r in rs && r.owner == s)
  {
    var c := m.chart;
    assert OwnerOk(c, st.config, st.statesToInvoke, st.active, st.byId, s);
    if s in st.active && r in st.active[s] {
      var k :| 0 <= k < |st.active[s]| && st.active[s][k] == r;
      assert RunningOk(c, st.byId, s, st.active[s][k]);
    }
    if r in rs {
      var i :| 0 <= i < |rs| && rs[i] == r;
      IdBelongs(c, st.config, st.statesToInvoke, st.active, st.byId, r.id);
    }
  }

  lemma RebuiltIndex(byId: map<string, Running>, index: map<string, Running>, rs: seq<Running>, c: Chart)
    requires Lists(c, rs, byId) && IndexRebuilt(index, rs) && forall id :: id in byId ==> byId[id].id == id
    ensures index == byId
  {
    forall id ensures id in index <==> id in byId {
      if id in index { var i :| 0 <= i < |rs| && rs[i] == index[id]; }
      if id in byId { var i :| 0 <= i < |rs| && rs[i] == byId[id]; }
    }
    forall id | id in index ensures index[id] == byId[id] { var i :| 0 <= i < |rs| && rs[i] == index[id]; }
  }

  lemma RebuiltIsSame(m: Model, st: St, rs: seq<Running>, b: Rebuilt)
    requires Invoking(m, st) && Lists(m.chart, rs, st.byId) && Rebuilds(m.chart, rs, b)
    ensures b.byId == st.byId && SameInvokes(st.active, b.active)
  {
    forall id | id in st.byId ensures st.byId[id].id == id {
      IdBelongs(m.chart, st.config, st.statesToInvoke, st.active, st.byId, id);
    }
    RebuiltIndex(st.byId, b.byId, rs, m.chart);
    forall s ensures s in st.active <==> s in b.active
      ensures s in st.active ==> multiset(st.active[s]) == multiset(b.active[s])
    {
      OneOwnerSame(m, st, rs, b, s);
    }
  }

  lemma OneOwnerSame(m: Model, st: St, rs: seq<Running>, b: Rebuilt, s: int)
    requires Invoking(m, st) && Lists(m.chart, rs, st.byId) && Rebuilds(m.chart, rs, b)
    ensures s in st.active <==> s in b.active
    ensures s in st.active ==> multiset(st.active[s]) == multiset(b.active[s])
  {
    assert OwnerOk(m.chart, st.config, st.statesToInvoke, st.active, st.byId, s);
    assert OwnerRebuilt(b.active, rs, s);
    forall r ensures (s in st.active && r in st.active[s]) <==> (s in b.active && r in b.active[s]) {
      ListedOwner(m, st, rs, s, r);
    }
    if s in st.active { assert st.active[s][0] in st.active[s]; }
    if s in b.active { assert b.active[s][0] in b.active[s]; }
    if s in st.active && s in b.active { SameMembers(st.active[s], b.active[s]); }
  }

  lemma {:induction false} UpToOrders(ps: seq<PendingSend>)
    ensures multiset(Orders(Rearmed(ps))) == UpTo(|ps|)
  {
    if ps != [] {
      var init := ps[..|ps| - 1];
      UpToOrders(init);
      assert Orders(Rearmed(ps)) == Orders(Rearmed(init)) + [|ps|];
    }
  }

  /** Renumbering keeps the (fireAt, order) order and balances the ledger afresh. */
  lemma RearmedLedger(q: Mail, q': Mail)
    requires Ledger(q) && q'.pending == Rearmed(Stored(q.pending)) && q'.pendingSeq == |q.pending|
      && q'.dispatched == [] && q'.dropped == []
    ensures Ledger(q') && Stored(q'.pending) == Stored(q.pending)
  {
    UpToOrders(Stored(q.pending));
    forall i, j | 0 <= i < j < |q'.pending| ensures Before(q'.pending[i], q'.pending[j]) {
      assert Before(q.pending[i], q.pending[j]);
    }
  }

  lemma StatesKnown(m: Model, st: St, rs: seq<Running>)
    requires Live(m, st) && forall i :: 0 <= i < |rs| ==> KnownSpec(m.chart, rs[i])
    ensures KnownStates(m.chart, BuildSnapshot(m.chart, st, rs))
  {
    forall h | h in st.history
      ensures Has(m.chart, h) && forall i :: 0 <= i < |st.history[h]| ==> Has(m.chart, st.history[h][i])
    {
      assert RecordSane(m.chart, h, st.history[h]);
    }
  }

  /** The invocation indexes agree, as in charts of the careful shape they always do. */
  ghost predicate Restorable(m: Model, st: St) { Shape(m.chart) || Invoking(m, st) }

  /** Restoring a snapshot of a live state that waits for no invocation gives the same live state. */
  lemma SnapshotRoundTrip(m: Model, st: St, rs: seq<Running>)
    requires WellFormedModel(m) && Live(m, st) && Restorable(m, st) && st.statesToInvoke == {} && !st.completed
      && Lists(m.chart, rs, st.byId)
    ensures var back := RestoreFrom(m.chart, BuildSnapshot(m.chart, st, rs), st.now);
            back.Some? && SameButEvent(st, back.value) && Live(m, back.value)
  {
    var c := m.chart;
    var snap := BuildSnapshot(c, st, rs);
    StatesKnown(m, st, rs);
    RunningStorable(m, st, rs);
    RestoresInvokes(c, st.config, rs);
    var b := RestoreInvokes(c, snap.config, snap.active).value;
    RebuiltIsSame(m, st, rs, b);
    var back := RestoreFrom(c, snap, st.now).value;
    RearmedLedger(st.mail, back.mail);
    SameInvokesOk(m, st, back);
    assert Events(back.trace.consumed) == [];
  }

  lemma SameInvokesOk(m: Model, a: St, b: St)
    requires Invoking(m, a) && a.config == b.config && a.statesToInvoke == b.statesToInvoke && a.byId == b.byId
      && SameInvokes(a.active, b.active)
    ensures Invoking(m, b)
  {
    var c := m.chart;
    forall s ensures OwnerOk(c, b.config, b.statesToInvoke, b.active, b.byId, s) {
      assert OwnerOk(c, a.config, a.statesToInvoke, a.active, a.byId, s);
      if s in b.active { SameOwnerOk(c, a.byId, s, a.active[s], b.active[s]); }
    }
    forall id ensures IndexedOk(b.active, b.byId, id) {
      assert IndexedOk(a.active, a.byId, id);
      if id in b.byId { assert b.byId[id] in multiset(a.active[b.byId[id].owner]); }
    }
  }

  lemma SameOwnerOk(c: Chart, byId: map<string, Running>, s: int, xs: seq<Running>, ys: seq<Running>)
    requires multiset(xs) == multiset(ys) && xs != []
    requires (forall i :: 0 <= i < |xs| ==> RunningOk(c, byId, s, xs[i])) && forall i, j :: 0 <= i < j < |xs| ==>
      xs[i].spec != xs[j].spec
    ensures ys != [] && (forall i :: 0 <= i < |ys| ==> RunningOk(c, byId, s, ys[i])) && forall i, j ::
      0 <= i < j < |ys| ==> ys[i].spec != ys[j].spec
  {
    assert |ys| == |multiset(xs)|;
    forall i | 0 <= i < |ys| ensures RunningOk(c, byId, s, ys[i]) {
      assert ys[i] in multiset(ys);
      var k :| 0 <= k < |xs| && xs[k] == ys[i];
    }
    forall i, j | 0 <= i < j < |ys| ensures ys[i].spec != ys[j].spec {
      assert ys[i] in multiset(ys) && ys[j] in multiset(ys);
      var k :| 0 <= k < |xs| && xs[k] == ys[i];
      var l :| 0 <= l < |xs| && xs[l] == ys[j];
      CountDistinct(xs, ys[i]);
      if k == l { TwiceCounts(ys, i, j); }
    }
  }

  lemma TwiceCounts(ys: seq<Running>, i: nat, j: nat)
    requires i < j < |ys| && ys[i] == ys[j]
    ensures multiset(ys)[ys[i]] >= 2
  {
    assert ys == ys[..i] + [ys[i]] + ys[i + 1..j] + [ys[j]] + ys[j + 1..];
  }

  // ---- what restore accepts ----

  ghost predicate Noted(c: Chart, rs: seq<Running>, b: Rebuilt) {
    forall i {:trigger rs[i]} :: 0 <= i < |rs| ==>
      rs[i].id in b.byId && KnownSpec(c, rs[i])
      && Invokes(c, rs[i].owner)[rs[i].spec].definitionId in b.definitions
  }

  /** One stored invocation that passed its checks. */
  lemma RestoredOne(c: Chart, config: set<int>, b: Rebuilt, ai: ActiveInvoke) returns (r: Running)
    requires RestoreInvoke(c, config, b, ai).Some?
    ensures KnownSpec(c, r) && AsActive(c, r) == ai && r.owner in config && r.id != ""
      && TypeFits(Invokes(c, r.owner)[r.spec], r.typ)
    ensures r.id !in b.byId && ai.definitionId !in b.definitions
    ensures RestoreInvoke(c, config, b, ai) == Some(WithInvoke(b, r, ai.definitionId))
  {
    hide FindDefinition, TypeFits;
    r := Running(ai.id, ai.state, FindDefinition(c, ai.definitionId, |c.states|).value.1, ai.typ, ai.source);
  }

  lemma NotedNext(c: Chart, config: set<int>, rs: seq<Running>, b: Rebuilt, r: Running)
    requires Noted(c, rs, b) && Storable(c, config, rs) && KnownSpec(c, r) && r.owner in config && r.id != ""
      && TypeFits(Invokes(c, r.owner)[r.spec], r.typ)
    requires r.id !in b.byId && Invokes(c, r.owner)[r.spec].definitionId !in b.definitions
    ensures Noted(c, rs + [r], WithInvoke(b, r, Invokes(c, r.owner)[r.spec].definitionId))
    ensures Storable(c, config, rs + [r])
  {
    hide TypeFits, Invokes;
    var all := rs + [r];
    forall i {:trigger all[i]} | 0 <= i < |rs|
      ensures all[i].id != r.id && (all[i].owner != r.owner || all[i].spec != r.spec)
    {
      assert all[i] == rs[i];
    }
    assert forall i {:trigger all[i]} :: 0 <= i < |rs| ==> all[i] == rs[i];
  }

  /** What the loop over the stored invocations lets pass are the records of invocations that can be stored. */
  lemma {:induction false} RestoredWereStorable(c: Chart, config: set<int>, ais: seq<ActiveInvoke>)
    returns (rs: seq<Running>)
    requires RestoreInvokes(c, config, ais).Some?
    ensures AllSpecsKnown(c, rs) && Storable(c, config, rs) && AsActives(c, rs) == ais
    ensures Noted(c, rs, RestoreInvokes(c, config, ais).value)
    decreases |ais|
  {
    hide RestoreInvoke, TypeFits, Noted, WithInvoke;
    if ais == [] {
      rs := [];
      NothingNoted(c);
    } else {
      var init, ai := ais[..|ais| - 1], ais[|ais| - 1];
      var before := RestoredWereStorable(c, config, init);
      var b := RestoreInvokes(c, config, init).value;
      var r := RestoredOne(c, config, b, ai);
      rs := before + [r];
      NotedNext(c, config, before, b, r);
      assert AsActives(c, rs) == AsActives(c, before) + [ai];
    }
  }

  lemma NothingNoted(c: Chart)
    ensures Noted(c, [], Rebuilt(map[], map[], {}))
  {}

  /** A snapshot is restored exactly if all states it names are known, and the invocations it lists are ones that can
      be stored: of active states, declared there, of a fitting type, and each with its own ID and declaration. */
  lemma RestoreAcceptsExactly(c: Chart, snap: Snapshot, now: int)
    requires InvokesDeclaredOnce(c)
    ensures RestoreFrom(c, snap, now).Some? <==>
      KnownStates(c, snap) && exists rs {:trigger Storable(c, snap.config, rs)} ::
        Storable(c, snap.config, rs) && AsActives(c, rs) == snap.active
  {
    hide InvokesDeclaredOnce, KnownStates, RestoreInvokes, Rebuilds, Noted;
    if RestoreInvokes(c, snap.config, snap.active).Some? {
      var rs := RestoredWereStorable(c, snap.config, snap.active);
    }
    forall rs {:trigger Storable(c, snap.config, rs)} | Storable(c, snap.config, rs)
        && AsActives(c, rs) == snap.active
      ensures RestoreInvokes(c, snap.config, snap.active).Some?
    {
      RestoresInvokes(c, snap.config, rs);
    }
  }
}
