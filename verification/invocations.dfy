/**
 The two invocation indexes (interpreter.go:1013-1018, 1062-1197): `active` by owner and `byId` by ID
 hold the same invocations, every owner is active, and no ID is given out twice.
 */
module Invocations {
  import opened Charts
  import opened Validator
  import opened Machine
  import opened Deliveries

  // ---- generated IDs ----

  lemma {:induction false} DecimalLength(n: nat)
    ensures |Decimal(n)| >= 1 && (n >= 10 ==> |Decimal(n)| >= 2)
    ensures Decimal(n)[|Decimal(n)| - 1] == Digit(n % 10)[0]
    ensures n >= 10 ==> Decimal(n)[..|Decimal(n)| - 1] == Decimal(n / 10)
  {
    if n >= 10 { DecimalLength(n / 10); }
  }

  lemma {:induction false} DecimalInjective(a: nat, b: nat)
    requires Decimal(a) == Decimal(b)
    ensures a == b
    decreases a
  {
    DecimalLength(a);
    DecimalLength(b);
    assert a % 10 == b % 10;
    if a >= 10 { DecimalInjective(a / 10, b / 10); }
  }

  lemma GeneratedDiffer(prefix: string, a: nat, b: nat)
    requires prefix + Decimal(a) == prefix + Decimal(b)
    ensures a == b
  {
    assert (prefix + Decimal(a))[|prefix|..] == Decimal(a) && (prefix + Decimal(b))[|prefix|..] == Decimal(b);
    DecimalInjective(a, b);
  }

  /** The generated number is the first above n whose ID is free. */
  lemma {:induction false} FreshSeqIsFirst(prefix: string, n: nat, reserved: set<string>)
    ensures FreshSeq(prefix, n, reserved) > n
    ensures prefix + Decimal(FreshSeq(prefix, n, reserved)) !in reserved
    ensures forall j :: n < j < FreshSeq(prefix, n, reserved) ==> prefix + Decimal(j) in reserved
    decreases |reserved|
  {
    hide Decimal;
    var id := prefix + Decimal(n + 1);
    if id in reserved {
      Shrinks(reserved, id);
      FreshSeqIsFirst(prefix, n + 1, reserved - {id});
      var r := FreshSeq(prefix, n, reserved);
      if prefix + Decimal(r) == id { GeneratedDiffer(prefix, r, n + 1); }
    }
  }

  // ---- the invariant ----

  ghost predicate RunningOk(c: Chart, byId: map<string, Running>, s: int, r: Running) {
    && r.owner == s && r.spec < |Invokes(c, s)| && r.id in byId && byId[r.id] == r
    && (if Invokes(c, s)[r.spec].id == "" then r.id !in DeclaredIds(c) else r.id == Invokes(c, s)[r.spec].id)
    && r.id != "" && TypeFits(Invokes(c, s)[r.spec], r.typ)
  }

  ghost predicate OwnerOk(c: Chart, config: set<int>, waiting: set<int>, active: map<int, seq<Running>>,
      byId: map<string, Running>, s: int)
  {
    s in active ==>
      && s in config && s !in waiting && active[s] != []
      && (forall i :: 0 <= i < |active[s]| ==> RunningOk(c, byId, s, active[s][i]))
      && (forall i, j :: 0 <= i < j < |active[s]| ==> active[s][i].spec != active[s][j].spec)
  }

  ghost predicate IndexedOk(active: map<int, seq<Running>>, byId: map<string, Running>, id: string) {
    id in byId ==> byId[id].id == id && byId[id].owner in active && byId[id] in active[byId[id].owner]
  }

  /** The indexes agree, their owners are active, and a state still waiting to invoke has no invocation yet. */
  ghost predicate InvokeOk(c: Chart, config: set<int>, waiting: set<int>, active: map<int, seq<Running>>,
      byId: map<string, Running>)
  {
    && waiting <= config
    && (forall s {:trigger OwnerOk(c, config, waiting, active, byId, s)} ::
      OwnerOk(c, config, waiting, active, byId, s))
    && (forall id {:trigger IndexedOk(active, byId, id)} :: IndexedOk(active, byId, id))
  }

  /** What holds even when a state that is active already is entered again: owners are active, and whatever
      the index by ID holds, the index by owner holds. */
  ghost predicate Indexed(config: set<int>, active: map<int, seq<Running>>, byId: map<string, Running>) {
    active.Keys <= config && forall id {:trigger IndexedOk(active, byId, id)} :: IndexedOk(active, byId, id)
  }

  lemma CancelIndexed(st: St, s: int)
    requires Indexed(st.config, st.active, st.byId)
    ensures Indexed(st.config - {s}, CancelInvokes(st, s).active, CancelInvokes(st, s).byId)
  {
    var active, byId := CancelInvokes(st, s).active, CancelInvokes(st, s).byId;
    forall id ensures IndexedOk(active, byId, id) {
      assert IndexedOk(st.active, st.byId, id);
    }
  }

  lemma BeginIndexed(m: Model, st: St, s: int, k: nat)
    requires Indexed(st.config, st.active, st.byId) && s in st.config && k < |Invokes(m.chart, s)|
    ensures var st' := BeginInvoke(m, st, s, k);
      st'.config == st.config && Indexed(st'.config, st'.active, st'.byId)
  {
    var st' := BeginInvoke(m, st, s, k);
    forall id ensures IndexedOk(st'.active, st'.byId, id) {
      assert IndexedOk(st.active, st.byId, id);
      if id in st'.byId && id in st.byId && st'.byId[id] == st.byId[id] {
        var r := st.byId[id];
        if r.owner in st'.active { assert r in st.active[r.owner]; }
      } else if id in st'.byId {
        assert st'.active[s][|st'.active[s]| - 1] == st'.byId[id];
      }
    }
  }

  lemma NothingIndexed(active: map<int, seq<Running>>, byId: map<string, Running>)
    requires Indexed({}, active, byId)
    ensures active == map[] && byId == map[]
  {
    forall id ensures id !in byId { assert IndexedOk(active, byId, id); }
  }

  /** No two running invocations share an ID, and the two indexes hold the same ones. */
  lemma InvocationsAgree(c: Chart, config: set<int>, waiting: set<int>, active: map<int, seq<Running>>,
    byId: map<string, Running>)
    requires InvokeOk(c, config, waiting, active, byId)
    ensures forall s, i, t, j {:trigger active[s][i], active[t][j]} ::
              s in active && t in active && 0 <= i < |active[s]| && 0 <= j < |active[t]|
              && active[s][i].id == active[t][j].id
              ==> s == t && i == j
    ensures forall r :: (exists s :: s in active && r in active[s]) <==> r.id in byId && byId[r.id] == r
  {
    forall s, i, t, j {:trigger active[s][i], active[t][j]} | s in active && t in active && 0 <= i < |active[s]|
      && 0 <= j < |active[t]| && active[s][i].id == active[t][j].id
      ensures s == t && i == j
    {
      assert OwnerOk(c, config, waiting, active, byId, s) && OwnerOk(c, config, waiting, active, byId, t);
      assert RunningOk(c, byId, s, active[s][i]) && RunningOk(c, byId, t, active[t][j]);
    }
    forall r
      ensures (exists s :: s in active && r in active[s]) <==> r.id in byId && byId[r.id] == r
    {
      if s :| s in active && r in active[s] {
        assert OwnerOk(c, config, waiting, active, byId, s);
        var i :| 0 <= i < |active[s]| && active[s][i] == r;
        assert RunningOk(c, byId, s, active[s][i]);
      }
      if r.id in byId && byId[r.id] == r { assert IndexedOk(active, byId, r.id); }
    }
  }

  lemma IdBelongs(c: Chart, config: set<int>, waiting: set<int>, active: map<int, seq<Running>>,
    byId: map<string, Running>, id: string)
    requires InvokeOk(c, config, waiting, active, byId)
    ensures id in byId ==>
      byId[id].id == id && byId[id].owner in active && byId[id] in active[byId[id].owner]
      && RunningOk(c, byId, byId[id].owner, byId[id])
  {
    assert IndexedOk(active, byId, id);
    if id in byId { assert OwnerOk(c, config, waiting, active, byId, byId[id].owner); }
  }

  /** The invocations of the states X are gone from both indexes, and if the indexes agree, no others. */
  ghost predicate Dropped(c: Chart, a: St, b: St, X: set<int>) {
    && b.active == a.active - X && b.invokeSeq == a.invokeSeq
    && (forall id :: id in b.byId ==> id in a.byId && b.byId[id] == a.byId[id])
    && (InvokeOk(c, a.config, a.statesToInvoke, a.active, a.byId) ==>
         forall id :: id in b.byId <==> id in a.byId && a.byId[id].owner !in X)
  }

  lemma CancelIs(c: Chart, st: St, s: int)
    ensures var st' := CancelInvokes(st, s);
      st' == st.(active := st'.active, byId := st'.byId) && Dropped(c, st, st', {s})
  {
    if InvokeOk(c, st.config, st.statesToInvoke, st.active, st.byId) {
      forall id ensures id in CancelInvokes(st, s).byId <==> id in st.byId && st.byId[id].owner != s {
        IdBelongs(c, st.config, st.statesToInvoke, st.active, st.byId, id);
        assert OwnerOk(c, st.config, st.statesToInvoke, st.active, st.byId, s);
        if id in st.byId && s in st.active {
          if id in Ids(st.active[s]) {
            var i :| 0 <= i < |st.active[s]| && st.active[s][i].id == id;
            assert RunningOk(c, st.byId, s, st.active[s][i]);
          }
          if st.byId[id].owner == s {
            var i :| 0 <= i < |st.active[s]| && st.active[s][i] == st.byId[id];
            assert st.active[s][i].id in Ids(st.active[s]);
          }
        }
      }
    }
  }

  lemma DroppedTrans(c: Chart, a: St, b: St, d: St, X: set<int>, Y: set<int>)
    requires Dropped(c, a, b, X) && Dropped(c, b, d, Y)
    requires InvokeOk(c, a.config, a.statesToInvoke, a.active, a.byId) ==>
      InvokeOk(c, b.config, b.statesToInvoke, b.active, b.byId)
    ensures Dropped(c, a, d, X + Y)
  {
    hide InvokeOk;
  }

  lemma CancelKeeps(c: Chart, waiting: set<int>, st: St, s: int)
    requires InvokeOk(c, st.config, waiting, st.active, st.byId)
    ensures InvokeOk(c, st.config - {s}, waiting - {s}, CancelInvokes(st, s).active, CancelInvokes(st, s).byId)
    ensures CancelInvokes(st, s) == st.(active := CancelInvokes(st, s).active, byId := CancelInvokes(st, s).byId)
  {
    var active, byId := CancelInvokes(st, s).active, CancelInvokes(st, s).byId;
    assert OwnerOk(c, st.config, waiting, st.active, st.byId, s);
    forall t ensures OwnerOk(c, st.config - {s}, waiting - {s}, active, byId, t) {
      assert OwnerOk(c, st.config, waiting, st.active, st.byId, t);
      if t in active {
        forall i | 0 <= i < |active[t]| ensures RunningOk(c, byId, t, active[t][i]) {
          assert RunningOk(c, st.byId, t, st.active[t][i]);
        }
      }
    }
    forall id ensures IndexedOk(active, byId, id) {
      IdBelongs(c, st.config, waiting, st.active, st.byId, id);
    }
  }

  lemma EnterKeeps(c: Chart, config: set<int>, waiting: set<int>, active: map<int, seq<Running>>,
    byId: map<string, Running>, s: int)
    requires InvokeOk(c, config, waiting, active, byId) && s !in config
    ensures InvokeOk(c, config + {s}, waiting, active, byId) && InvokeOk(c, config + {s}, waiting + {s}, active, byId)
  {
    forall t
      ensures OwnerOk(c, config + {s}, waiting, active, byId, t)
        && OwnerOk(c, config + {s}, waiting + {s}, active, byId, t)
    {
      assert OwnerOk(c, config, waiting, active, byId, t);
    }
  }

  /** Declarations of s from the k-th on have not been started. */
  ghost predicate BegunTo(active: map<int, seq<Running>>, s: int, k: nat) {
    s in active ==> forall i :: 0 <= i < |active[s]| ==> active[s][i].spec < k
  }

  /** A declared ID is free while its own declaration has not been started. */
  lemma DeclaredIsFree(c: Chart, config: set<int>, waiting: set<int>, active: map<int, seq<Running>>,
    byId: map<string, Running>, s: int, k: nat)
    requires InvokesDeclaredOnce(c) && InvokeOk(c, config, waiting, active, byId) && Has(c, s)
    requires k < |Invokes(c, s)| && Invokes(c, s)[k].id != "" && BegunTo(active, s, k)
    ensures Invokes(c, s)[k].id !in byId && Invokes(c, s)[k].id in DeclaredIds(c)
  {
    var id := Invokes(c, s)[k].id;
    assert 0 <= s < |c.states| && 0 <= k < |Invokes(c, s)|;
    IdBelongs(c, config, waiting, active, byId, id);
    if id in byId && (byId[id].owner != s || byId[id].spec != k) {
      assert TwoDeclarations(c, s, k, byId[id].owner, byId[id].spec);
    }
  }

  /** Starting one more invocation under a free ID. */
  lemma StartKeeps(c: Chart, config: set<int>, waiting: set<int>, active: map<int, seq<Running>>,
    byId: map<string, Running>, r: Running)
    requires InvokeOk(c, config, waiting, active, byId) && r.owner in config && r.owner !in waiting
    requires r.id !in byId && r.id != "" && r.spec < |Invokes(c, r.owner)|
      && TypeFits(Invokes(c, r.owner)[r.spec], r.typ) && BegunTo(active, r.owner, r.spec)
    requires if Invokes(c, r.owner)[r.spec].id == "" then r.id !in DeclaredIds(c)
      else r.id == Invokes(c, r.owner)[r.spec].id
    ensures var more := active[r.owner := (if r.owner in active then active[r.owner] else []) + [r]];
            InvokeOk(c, config, waiting, more, byId[r.id := r]) && BegunTo(more, r.owner, r.spec + 1)
  {
    var more := active[r.owner := (if r.owner in active then active[r.owner] else []) + [r]];
    var index := byId[r.id := r];
    forall t ensures OwnerOk(c, config, waiting, more, index, t) {
      assert OwnerOk(c, config, waiting, active, byId, t);
      if t in more {
        forall i | 0 <= i < |more[t]| ensures RunningOk(c, index, t, more[t][i]) {
          if t in active && i < |active[t]| { assert RunningOk(c, byId, t, active[t][i]); }
        }
      }
    }
    forall id ensures IndexedOk(more, index, id) {
      assert IndexedOk(active, byId, id);
      if id in index {
        if id == r.id { assert more[r.owner][|more[r.owner]| - 1] == r; }
      }
    }
  }

  /** beginInvoke. */
  lemma BeginInvokeKeeps(m: Model, st: St, s: int, k: nat, waiting: set<int>)
    requires InvokesDeclaredOnce(m.chart) && InvokeOk(m.chart, st.config, waiting, st.active, st.byId)
      && Has(m.chart, s)
    requires s in st.config && s !in waiting && k < |Invokes(m.chart, s)| && BegunTo(st.active, s, k)
    ensures var st' := BeginInvoke(m, st, s, k);
            && InvokeOk(m.chart, st.config, waiting, st'.active, st'.byId) && BegunTo(st'.active, s, k + 1)
            && st'.active.Keys <= st.active.Keys + {s}
  {
    hide InvokeOk, Decimal, FreshSeq, DeclaredIds, PlatformEvent, EnqueueInternal, InvokesDeclaredOnce;
    var c := m.chart;
    var n := InvokeNumber(c, st, s, k);
    var id := InvokeName(c, s, k, n);
    if Invokes(c, s)[k].id == "" { FreshSeqIsFirst(InvokePrefix(c, s), st.invokeSeq, st.byId.Keys + DeclaredIds(c)); }
    else { DeclaredIsFree(c, st.config, waiting, st.active, st.byId, s, k); }
    match m.invoke(ViewOf(st.(invokeSeq := n)), s, k, id)
    case Refused(data, report, invokeId) =>
    case Started(data, typ, source) => StartKeeps(c, st.config, waiting, st.active, st.byId,
      Running(id, s, k, InvokeType(Invokes(c, s)[k], typ), source));
  }

  /** The ID that the k-th invocation of s gets, n being the counter afterwards: the declared one, or the first
      generated one that is neither running nor declared. */
  ghost predicate Numbered(c: Chart, st: St, s: int, k: nat, n: nat)
    requires k < |Invokes(c, s)|
  {
    if Invokes(c, s)[k].id != "" then n == st.invokeSeq
    else
      var taken := st.byId.Keys + DeclaredIds(c);
      && st.invokeSeq < n && Name(c, s) + ".invoke" + Decimal(n) !in taken
      && forall j :: st.invokeSeq < j < n ==> Name(c, s) + ".invoke" + Decimal(j) in taken
  }

  /** The k-th invocation of s was tried: the model was asked once, with the ID; a refusal is reported, and
      what starts is the last of its owner's and the one with its ID. */
  ghost predicate Tried(m: Model, st: St, st': St, s: int, k: nat)
    requires k < |Invokes(m.chart, s)|
  {
    var spec := Invokes(m.chart, s)[k];
    var id := if spec.id != "" then spec.id else Name(m.chart, s) + ".invoke" + Decimal(st'.invokeSeq);
    && Numbered(m.chart, st, s, k, st'.invokeSeq)
    && match m.invoke(ViewOf(st.(invokeSeq := st'.invokeSeq)), s, k, id)
       case Refused(data, report, invokeId) =>
         && st'.data == data && st'.active == st.active && st'.byId == st.byId
         && Gains(st.mail, st'.mail, Posting([PlatformEvent(report, "", invokeId)], [], []))
       case Started(data, typ, source) =>
         var declared := if spec.typ.Some? then spec.typ.value else typ;
         var r := Running(id, s, k, if declared in {"", ScxmlAlias} then ScxmlInvoke else declared, source);
         && st'.data == data && st'.mail == st.mail && st'.byId == st.byId[id := r]
         && st'.active.Keys == st.active.Keys + {s}
           && (forall t :: t in st.active && t != s ==> st'.active[t] == st.active[t])
         && st'.active[s] == (if s in st.active then st.active[s] else []) + [r]
  }

  lemma BeginInvokeTries(m: Model, st: St, s: int, k: nat)
    requires k < |Invokes(m.chart, s)|
    ensures Tried(m, st, BeginInvoke(m, st, s, k), s, k)
  {
    FreshSeqIsFirst(InvokePrefix(m.chart, s), st.invokeSeq, st.byId.Keys + DeclaredIds(m.chart));
    hide DeclaredIds, Decimal;
  }
}
