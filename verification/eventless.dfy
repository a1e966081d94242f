/**
 What eventless selections depend on (interpreter.go:1364-1384): only the conditions of eventless
 transitions.  Where these read neither the last event nor anything that starting invocations changes,
 every stable state is calm: it enables no eventless transition.
 */
module Eventless {
  import opened Charts
  import opened Validator
  import opened WellFormed
  import opened EntrySets
  import opened Transitions
  import opened Selection
  import opened Microsteps
  import opened Machine
  import opened Bookkeeping
  import opened Invocations
  import opened Steps
  import opened Runs
  import opened Macrosteps
  import opened Instances
  import opened Requests
  import opened Snapshots
  import opened Replays

  ghost predicate IsEventless(c: Chart, s: int, i: int) {
    0 <= i < |Charts.Transitions(c, s)| && Charts.Transitions(c, s)[i].events == []
  }

  /** Conditions of eventless transitions do not read the last event. */
  ghost predicate EventlessBlind(m: Model) {
    forall v: View, e, s, i {:trigger m.guard(v.(event := e), s, i)} ::
      IsEventless(m.chart, s, i) ==> m.guard(v.(event := e), s, i) == m.guard(v, s, i)
  }

  /** What executable content and guards see once the k-th invocation of s has been started as number n. */
  function AfterInvoke(m: Model, v: View, n: nat, s: int, k: nat, id: string): View {
    var v1 := v.(invokeSeq := n);
    match m.invoke(v1, s, k, id)
    case Refused(data, report, invokeId) => v1.(data := data)
    case Started(data, typ, source) => v1.(data := data)
  }

  /** Conditions of eventless transitions read nothing that starting a declared invocation changes. */
  ghost predicate InvokesUnseen(m: Model) {
    forall v: View, n: nat, x: int, k: nat, id: string, s, i {:trigger m.guard(AfterInvoke(m, v, n, x, k, id), s, i)} ::
      k < |Invokes(m.chart, x)| && IsEventless(m.chart, s, i) ==>
        m.guard(AfterInvoke(m, v, n, x, k, id), s, i) == m.guard(v, s, i)
  }

  /** The conditions of eventless transitions cannot tell the two views apart. */
  ghost predicate Alike(m: Model, v: View, w: View) {
    forall s, i {:trigger m.guard(v, s, i)} {:trigger m.guard(w, s, i)} :: IsEventless(m.chart, s, i) ==>
      m.guard(v, s, i) == m.guard(w, s, i)
  }

  // ---- equal conditions select equally ----

  ghost predicate Agree(ts: seq<Transition>, f: Transition -> bool, g: Transition -> bool) {
    forall i :: 0 <= i < |ts| ==> f(ts[i]) == g(ts[i])
  }

  ghost predicate AgreeEverywhere(c: Chart, f: Transition -> bool, g: Transition -> bool) {
    forall x {:trigger Charts.Transitions(c, x)} :: Agree(Charts.Transitions(c, x), f, g)
  }

  lemma FirstAgrees(ts: seq<Transition>, f: Transition -> bool, g: Transition -> bool)
    requires Agree(ts, f, g)
    ensures FirstEnabled(ts, f) == FirstEnabled(ts, g)
  {
    if ts != [] {
      assert forall i :: 0 <= i < |ts[1..]| ==> ts[1..][i] == ts[i + 1];
      FirstAgrees(ts[1..], f, g);
    }
  }

  lemma {:induction false} ChoiceAgrees(c: Chart, x: int, f: Transition -> bool, g: Transition -> bool)
    requires Tree(c) && AgreeEverywhere(c, f, g)
    ensures Choice(c, x, f) == Choice(c, x, g)
    decreases x
  {
    FirstAgrees(Charts.Transitions(c, x), f, g);
    if Has(c, x) {
      assert NodeOk(c, x);
      ChoiceAgrees(c, Parent(c, x), f, g);
    }
  }

  lemma {:induction false} PicksAgree(c: Chart, atoms: seq<int>, f: Transition -> bool, g: Transition -> bool)
    requires Tree(c) && AgreeEverywhere(c, f, g)
    ensures Picks(c, atoms, f) == Picks(c, atoms, g)
  {
    if atoms != [] {
      PicksAgree(c, atoms[..|atoms| - 1], f, g);
      ChoiceAgrees(c, atoms[|atoms| - 1], f, g);
    }
  }

  lemma GuardsAgree(m: Model, v: View, w: View, x: int)
    requires WellFormedModel(m) && Alike(m, v, w)
    ensures Agree(Charts.Transitions(m.chart, x), Enabled(m, v, None), Enabled(m, w, None))
    ensures ErrorsIn(m, v, None, Charts.Transitions(m.chart, x)) == ErrorsIn(m, w, None, Charts.Transitions(m.chart, x))
  {
    var ts := Charts.Transitions(m.chart, x);
    assert ListsOk(m.chart, x);
    forall i | 0 <= i < |ts| && ts[i].events == []
      ensures m.guard(v, ts[i].source, ts[i].index) == m.guard(w, ts[i].source, ts[i].index)
    {
      assert ts[i].source == x && ts[i].index == i && IsEventless(m.chart, x, i);
    }
    hide Alike, WellFormedModel;
    forall i | 0 <= i < |ts| ensures Enabled(m, v, None)(ts[i]) == Enabled(m, w, None)(ts[i]) {
      assert ts[i].events == [] || !MatchesEvent(m, ts[i], None);
    }
    ErrorsInAgree(m, v, w, ts);
  }

  lemma {:induction false} ErrorsInAgree(m: Model, v: View, w: View, ts: seq<Transition>)
    requires Agree(ts, Enabled(m, v, None), Enabled(m, w, None))
    requires forall i :: 0 <= i < |ts| && ts[i].events == [] ==>
      m.guard(v, ts[i].source, ts[i].index) == m.guard(w, ts[i].source, ts[i].index)
    ensures ErrorsIn(m, v, None, ts) == ErrorsIn(m, w, None, ts)
  {
    if ts != [] {
      assert forall i :: 0 <= i < |ts[1..]| ==> ts[1..][i] == ts[i + 1];
      ErrorsInAgree(m, v, w, ts[1..]);
    }
  }

  lemma AllAgree(m: Model, v: View, w: View)
    requires WellFormedModel(m) && Alike(m, v, w)
    ensures AgreeEverywhere(m.chart, Enabled(m, v, None), Enabled(m, w, None))
  {
    hide Alike, WellFormedModel, Enabled;
    forall x {:trigger Charts.Transitions(m.chart, x)}
      ensures Agree(Charts.Transitions(m.chart, x), Enabled(m, v, None), Enabled(m, w, None))
    {
      GuardsAgree(m, v, w, x);
    }
  }

  lemma {:induction false} ErrorsUpAgree(m: Model, v: View, w: View, x: int)
    requires WellFormedModel(m) && Alike(m, v, w)
    ensures ErrorsUp(m, v, None, x) == ErrorsUp(m, w, None, x)
    decreases x
  {
    GuardsAgree(m, v, w, x);
    FirstAgrees(Charts.Transitions(m.chart, x), Enabled(m, v, None), Enabled(m, w, None));
    if Has(m.chart, x) {
      assert NodeOk(m.chart, x);
      hide Alike, WellFormedModel;
      ErrorsUpAgree(m, v, w, Parent(m.chart, x));
    }
  }

  lemma {:induction false} ErrorsAgree(m: Model, v: View, w: View, atoms: seq<int>)
    requires WellFormedModel(m) && Alike(m, v, w)
    ensures ErrorsOf(m, v, None, atoms) == ErrorsOf(m, w, None, atoms)
  {
    if atoms != [] {
      ErrorsAgree(m, v, w, atoms[..|atoms| - 1]);
      ErrorsUpAgree(m, v, w, atoms[|atoms| - 1]);
    }
  }

  /** States in the same configuration whose conditions agree select the same eventless transitions. */
  lemma SelectsAlike(m: Model, a: St, b: St)
    requires WellFormedModel(m) && Alike(m, ViewOf(a), ViewOf(b)) && a.config == b.config && a.history == b.history
    ensures Selected(m, a, None) == Selected(m, b, None)
    ensures ErrorsOf(m, ViewOf(a), None, AtomicStates(m.chart, a.config)) ==
      ErrorsOf(m, ViewOf(b), None, AtomicStates(m.chart, b.config))
  {
    var v, w := ViewOf(a), ViewOf(b);
    var atoms := AtomicStates(m.chart, a.config);
    AllAgree(m, v, w);
    PicksAgree(m.chart, atoms, Enabled(m, v, None), Enabled(m, w, None));
    ErrorsAgree(m, v, w, atoms);
    hide Alike, ErrorsOf, Picks, AtomicStates;
  }

  /** An eventless selection is the same whatever the last event was. */
  lemma BlindSelection(m: Model, a: St, b: St)
    requires WellFormedModel(m) && EventlessBlind(m) && SameButEvent(a, b)
    ensures Selected(m, a, None) == Selected(m, b, None)
      && SameButEvent(AfterSelection(m, a, None), AfterSelection(m, b, None))
  {
    var v, w := ViewOf(a), ViewOf(b);
    assert w == v.(event := w.event);
    assert Alike(m, v, w) by {
      forall s, i {:trigger m.guard(v, s, i)} | IsEventless(m.chart, s, i)
        ensures m.guard(v, s, i) == m.guard(w, s, i)
      {
        assert m.guard(v.(event := w.event), s, i) == m.guard(v, s, i);
      }
    }
    SelectsAlike(m, a, b);
    SameReports(a.mail, b.mail, ErrorsOf(m, v, None, AtomicStates(m.chart, a.config)));
  }

  // ---- stable states are calm ----

  /** Between log entries, with nothing waiting inside and no eventless transition enabled. */
  ghost predicate Calm(m: Model, st: St)
    requires Tree(m.chart)
  {
    st.running && st.statesToInvoke == {} && Selected(m, st, None) == []
  }

  lemma AlikeTrans(m: Model, u: View, v: View, w: View)
    requires Alike(m, u, v) && Alike(m, v, w)
    ensures Alike(m, u, w)
  {}

  lemma BeginInvokeUnseen(m: Model, st: St, s: int, k: nat)
    requires InvokesUnseen(m) && k < |Invokes(m.chart, s)|
    ensures Alike(m, ViewOf(st), ViewOf(BeginInvoke(m, st, s, k)))
  {
    var n := InvokeNumber(m.chart, st, s, k);
    var id := InvokeName(m.chart, s, k, n);
    var v, w := ViewOf(st), ViewOf(BeginInvoke(m, st, s, k));
    assert w == AfterInvoke(m, v, n, s, k, id);
    hide AfterInvoke, BeginInvoke, InvokeNumber, InvokeName;
    forall x, i {:trigger m.guard(w, x, i)} | IsEventless(m.chart, x, i) ensures m.guard(v, x, i) == m.guard(w, x, i) {
      assert m.guard(AfterInvoke(m, v, n, s, k, id), x, i) == m.guard(v, x, i);
    }
  }

  lemma {:induction false} BeginFromUnseen(m: Model, st: St, s: int, k: nat)
    requires InvokesUnseen(m) && k <= |Invokes(m.chart, s)|
    ensures Alike(m, ViewOf(st), ViewOf(BeginFrom(m, st, s, k)))
  {
    hide InvokesUnseen, BeginInvoke, ViewOf;
    if k > 0 {
      BeginFromUnseen(m, st, s, k - 1);
      BeginInvokeUnseen(m, BeginFrom(m, st, s, k - 1), s, k - 1);
    }
  }

  lemma {:induction false} BeginEachUnseen(m: Model, st: St, xs: seq<int>)
    requires InvokesUnseen(m)
    ensures Alike(m, ViewOf(st), ViewOf(BeginEach(m, st, xs)))
  {
    hide InvokesUnseen, BeginFrom, ViewOf;
    if xs != [] {
      var before, x := BeginEach(m, st, xs[..|xs| - 1]), xs[|xs| - 1];
      BeginEachUnseen(m, st, xs[..|xs| - 1]);
      BeginFromUnseen(m, before, x, |Invokes(m.chart, x)|);
      AlikeTrans(m, ViewOf(st), ViewOf(before), ViewOf(BeginEach(m, st, xs)));
    }
  }

  /** Where invocations go unseen, starting them enables no eventless transition: stable states are calm. */
  lemma StableIsCalm(m: Model, st: St)
    requires WellFormedModel(m) && InvokesUnseen(m) && Live(m, st) && Stable(m, st) && st.running
    ensures Calm(m, st)
  {
    hide InvokesUnseen, Selected, BeginEach, ReportErrors, ErrorsOf;
    var before :| Selected(m, before, None) == [] && st == ProcessInvokes(m, AfterSelection(m, before, None));
    var after := AfterSelection(m, before, None);
    var waiting := after.(statesToInvoke := {});
    BeginEachUnseen(m, waiting, SortAsc(after.statesToInvoke, |m.chart.states|));
    ReportErrorsKept(before.mail, ErrorsOf(m, ViewOf(before), None, AtomicStates(m.chart, before.config)));
    ReportsCountNothing(before.mail, ErrorsOf(m, ViewOf(before), None, AtomicStates(m.chart, before.config)));
    assert ViewOf(waiting) == ViewOf(before);
    BeginEachStays(m, waiting, SortAsc(after.statesToInvoke, |m.chart.states|));
    SelectsAlike(m, before, st);
  }

  lemma {:induction false} ReportsCountNothing(q: Mail, n: nat)
    ensures ReportErrors(q, n).sendSeq == q.sendSeq
  {
    if n > 0 { ReportsCountNothing(q, n - 1); }
  }

  lemma {:induction false} BeginEachStays(m: Model, st: St, xs: seq<int>)
    ensures BeginEach(m, st, xs).config == st.config && BeginEach(m, st, xs).history == st.history
  {
    if xs != [] {
      BeginEachStays(m, st, xs[..|xs| - 1]);
      BeginFromStays(m, BeginEach(m, st, xs[..|xs| - 1]), xs[|xs| - 1], |Invokes(m.chart, xs[|xs| - 1])|);
    }
  }

  lemma {:induction false} BeginFromStays(m: Model, st: St, s: int, k: nat)
    requires k <= |Invokes(m.chart, s)|
    ensures BeginFrom(m, st, s, k).config == st.config && BeginFrom(m, st, s, k).history == st.history
  {
    if k > 0 { BeginFromStays(m, st, s, k - 1); }
  }

  /** Whatever an external event leads to ends calm, if it ends with the chart running. */
  lemma NextIsCalm(m: Model, st: St, budget: nat)
    requires WellFormedModel(m) && InvokesUnseen(m) && Live(m, st) && st.mail.externalQueue != []
    ensures var r := ProcessNextExternal(m, st, budget);
      r.finished && r.st.running ==> Calm(m, r.st) && r.st.mail.internalQueue == []
  {
    hide Live, Calm, InvokesUnseen, DequeueExternal, TakeExternal;
    var st1 := DequeueExternal(m, st);
    DequeueExternalIs(m, st);
    SettlesCalm(m, TakeExternal(m, st1, st.mail.externalQueue[0]), budget);
  }

  lemma SettlesCalm(m: Model, st: St, budget: nat)
    requires WellFormedModel(m) && InvokesUnseen(m) && Live(m, st)
    ensures var r := RunToStable(m, st, budget);
      r.finished && r.st.running ==> Calm(m, r.st) && r.st.mail.internalQueue == []
  {
    hide Live, InvokesUnseen, Selected;
    RunsToCompletion(m, st, budget);
    var r := RunToStable(m, st, budget);
    if r.finished && r.st.running { StableIsCalm(m, r.st); }
  }

  lemma {:induction false} DrainExternalIsCalm(m: Model, st: St, budget: nat)
    requires WellFormedModel(m) && InvokesUnseen(m) && Live(m, st) && (st.running ==> Calm(m, st))
    ensures var r := DrainExternal(m, st, budget); r.finished && r.st.running ==> Calm(m, r.st)
    decreases budget
  {
    hide Live, Onward, ProcessNextExternal, WellFormedModel, InvokesUnseen, Calm, DrainExternal;
    CalmTree(m);
    DrainExternalUnrolled(m, st, budget);
    if st.running && st.mail.externalQueue != [] && budget > 0 {
      NextIsCalm(m, st, budget - 1);
      var r := ProcessNextExternal(m, st, budget - 1);
      if r.finished { DrainExternalIsCalm(m, r.st, budget - 1); }
    }
  }

  lemma CalmTree(m: Model)
    requires WellFormedModel(m)
    ensures Tree(m.chart)
  {}

  /** A drain that starts calm ends calm, with nothing left in the internal queue. */
  lemma DrainIsCalm(m: Model, st: St, budget: nat)
    requires WellFormedModel(m) && InvokesUnseen(m) && Live(m, st) && (st.running ==> Calm(m, st))
    ensures var r := Drain(m, st, budget); r.finished && r.st.running ==> Calm(m, r.st) && r.st.mail.internalQueue == []
  {
    hide Live, Onward, DrainExternal, RunToStable, WellFormedModel, InvokesUnseen, Calm, Drain;
    CalmTree(m);
    DrainUnrolled(m, st, budget);
    DrainExternalIsCalm(m, st, budget);
    SettlesCalm(m, DrainExternal(m, st, budget).st, budget);
  }
}
