/**
 The actor directory (actors/inspection.go:89-224): process-local actors merged with durable records,
 one page at a time, under an exclusive cursor.

 `Listed` says which actors a query is about, with no paging in sight.  QueryActors, which cuts its
 local list short and stops reading storage early, is proved to return the first page of exactly that
 list, and following the cursors is proved to enumerate it.
 */
module Directory {
  import Charts
  import Ordering
  import Store

  datatype Residency = PagedOut | Hydrating | Resident

  datatype Info = Info(
    id: string, kind: string, revision: string, session: string, durable: bool, adopted: bool,
    lifecycle: Store.Lifecycle, residency: Residency, startedAt: int, terminalAt: int)

  datatype Query = Query(
    prefix: string, kind: string, revision: string, durable: Charts.Option<bool>,
    lifecycle: Charts.Option<Store.Lifecycle>, residency: Charts.Option<Residency>)

  /** A routing table entry: its directory view, and whether its first Spawn has pinned it yet. */
  datatype Entry = Entry(info: Info, initialized: bool)

  /** infoForMetadata (inspection.go:150-152). */
  function InfoOf(m: Store.Metadata): Info {
    Info(m.actorId, m.chart, m.revision, m.session, true, false, m.lifecycle, PagedOut, m.startedAt, m.terminalAt)
  }

  /** actorMatches (inspection.go:154-156). */
  predicate Matches(i: Info, q: Query) {
    && q.prefix <= i.id
    && (q.kind == "" || i.kind == q.kind)
    && (q.revision == "" || i.revision == q.revision)
    && (q.durable == Charts.None || i.durable == q.durable.value)
    && (q.lifecycle == Charts.None || i.lifecycle == q.lifecycle.value)
    && (q.residency == Charts.None || i.residency == q.residency.value)
  }

  /** The part of a query that storage can answer. */
  function StoreQuery(q: Query): Store.Query { Store.Query(q.prefix, q.kind, q.revision, q.lifecycle) }

  type Table = map<string, Entry>

  type Actors = map<string, Store.Metadata>

  predicate Local(table: Table, id: string) { id in table && table[id].initialized }

  /** What the directory knows of an actor; process-local information wins. */
  function View(table: Table, stored: Actors, id: string): Charts.Option<Info> {
    if Local(table, id) then Charts.Some(table[id].info)
    else if id in stored then Charts.Some(InfoOf(stored[id]))
    else Charts.None
  }

  /** Each collected actor comes with what the directory knows of it. */
  ghost predicate Views(table: Table, stored: Actors, merged: map<string, Info>) {
    forall id :: id in merged ==> Charts.Some(merged[id]) == View(table, stored, id)
  }

  /** The actors after the cursor that the query is about. */
  ghost function Listed(table: Table, stored: Actors, q: Query, after: string): set<string> {
    set id | id in table.Keys + stored.Keys && Ordering.Less(after, id) && View(table, stored, id).Some?
      && Matches(View(table, stored, id).value, q)
  }

  /** A process-local actor that the query is about. */
  ghost predicate Wanted(table: Table, stored: Actors, q: Query, after: string, id: string) {
    Local(table, id) && id in Listed(table, stored, q, after)
  }

  lemma WantedIs(table: Table, stored: Actors, q: Query, after: string, id: string)
    requires id in table
    ensures Wanted(table, stored, q, after, id) <==>
      table[id].initialized && Ordering.Less(after, id) && Matches(table[id].info, q)
  {}

  ghost predicate Keyed(table: Table, stored: Actors) {
    && (forall id :: id in table ==> table[id].info.id == id)
    && (forall id :: id in stored ==> stored[id].actorId == id)
  }

  // ---- sorted lists and their beginnings ----

  /** Members of a sorted list occur in it in order, so the k-th of them is not before place k. */
  lemma {:induction false} PlaceInOrder(xs: seq<string>, some: seq<string>, k: nat) returns (p: nat)
    requires Ordering.Sorted(xs) && Ordering.Sorted(some) && k < |some| && forall x :: x in some ==> x in xs
    ensures k <= p < |xs| && xs[p] == some[k]
    decreases k
  {
    assert some[k] in some;
    p :| 0 <= p < |xs| && xs[p] == some[k];
    if k > 0 {
      var before := PlaceInOrder(xs, some, k - 1);
      Ordering.LessTotal(some[k - 1], some[k]);
      assert Ordering.Less(some[k - 1], some[k]);
      LaterInOrder(xs, before, p);
    }
  }

  lemma LaterInOrder(xs: seq<string>, p: nat, q: nat)
    requires Ordering.Sorted(xs) && p < |xs| && q < |xs| && Ordering.Less(xs[p], xs[q])
    ensures p < q
  {
    Ascending(xs, q, p);
    Ordering.LessTotal(xs[p], xs[q]);
  }

  lemma Ascending(xs: seq<string>, q: nat, p: nat)
    requires Ordering.Sorted(xs) && p < |xs| && q < |xs|
    ensures q < p ==> Ordering.Less(xs[q], xs[p])
  {}

  lemma InHead(xs: seq<string>, n: nat, p: nat)
    requires n < |xs| && p < |xs|
    ensures p <= n ==> xs[p] in xs[..n + 1]
  {
    if p <= n { assert xs[..n + 1][p] == xs[p]; }
  }

  /** The first n + 1 members, and the members that come after them. */
  lemma SplitInOrder(F: set<string>, head: seq<string>)
    requires Ordering.Sorted(head) && head != [] && (forall x :: x in head ==> x in F)
    requires forall x :: x in F && x !in head ==> Ordering.Less(head[|head| - 1], x)
    ensures head <= Ordering.InOrder(F)
  {
    var last := head[|head| - 1];
    var rest := set x | x in F && x !in head;
    var ys := Ordering.InOrder(rest);
    var all := head + ys;
    assert forall i :: 0 <= i < |ys| ==> ys[i] in ys;
    forall i, j | 0 <= i < j < |all|
      ensures Ordering.Less(all[i], all[j])
    {
      if i < |head| <= j {
        assert all[j] == ys[j - |head|];
        if i < |head| - 1 { Ordering.LessTrans(head[i], last, all[j]); }
      } else if |head| <= i {
        assert all[i] == ys[i - |head|] && all[j] == ys[j - |head|];
      }
    }
    Ordering.OneOrder(all, Ordering.InOrder(F));
  }

  /** What is missing from M lies beyond its first n members, so M and F begin alike. */
  lemma SameBeginning(M: set<string>, F: set<string>, n: nat)
    requires M <= F && n < |Ordering.InOrder(M)|
    requires forall x :: x in F && x !in M ==> Ordering.Less(Ordering.InOrder(M)[n], x)
    ensures n < |Ordering.InOrder(F)| && Ordering.InOrder(F)[..n + 1] == Ordering.InOrder(M)[..n + 1]
  {
    var xs := Ordering.InOrder(M);
    var head := xs[..n + 1];
    forall x | x in F && x !in head
      ensures Ordering.Less(xs[n], x)
    {
      if x in M {
        assert x in xs;
        var p :| 0 <= p < |xs| && xs[p] == x;
        InHead(xs, n, p);
      }
    }
    forall x | x in head ensures x in F { assert x in xs; }
    SplitInOrder(F, head);
  }

  /** A page of the first n members misses nothing before its last. */
  lemma PageCovers(S: set<string>, limit: nat, x: string)
    requires limit > 0 && x in S
    ensures var (page, next) := Store.Paged(Ordering.InOrder(S), limit);
      x in page || (next.Some? && Ordering.Less(next.value, x))
  {
    var ids := Ordering.InOrder(S);
    assert x in ids;
    var p :| 0 <= p < |ids| && ids[p] == x;
    if |ids| > limit {
      if p < limit { assert ids[..limit][p] == x; }
      else { assert Ordering.Less(ids[limit - 1], ids[p]); }
    }
  }

  lemma NoneSorted()
    ensures Ordering.Sorted([])
  {}

  lemma AppendInOrder(ids: seq<string>, i: nat, local: seq<string>)
    requires Ordering.Sorted(ids) && Ordering.Sorted(local) && i < |ids| && forall id :: id in local ==> id in ids[..i]
    ensures Ordering.Sorted(local + [ids[i]])
  {
    hide Ordering.Less;
    forall j | 0 <= j < |local| ensures Ordering.Less(local[j], ids[i]) { assert local[j] in ids[..i]; }
  }

  /** A member that is not among the first i comes after all of them. */
  lemma Beyond(ids: seq<string>, i: nat, id: string)
    requires Ordering.Sorted(ids) && i <= |ids| && id in ids
    ensures id in ids[..i] || (i < |ids| && (0 < i ==> Ordering.Less(ids[i - 1], id)))
  {
    var p :| 0 <= p < |ids| && ids[p] == id;
    if p < i { assert ids[..i][p] == id; }
  }

  // ---- what the merge has collected ----

  /** Everything collected is listed, and whatever local actor is missing lies beyond limit + 1 collected ones. */
  ghost predicate LocalsIn(table: Table, stored: Actors, q: Query, after: string, local: seq<string>, limit: nat,
      got: set<string>)
  {
    && Ordering.Sorted(local) && |local| <= limit + 1
    && (forall id :: id in local ==> id in got)
    && got <= Listed(table, stored, q, after)
    && (forall id :: Wanted(table, stored, q, after, id) && id !in local ==>
      |local| == limit + 1 && Ordering.Less(local[limit], id))
  }

  /** Every storage-only actor up to the cursor has been collected. */
  ghost predicate StoredUpTo(table: Table, stored: Actors, q: Query, after: string, cursor: string, got: set<string>) {
    forall id :: id in Listed(table, stored, q, after) && !Local(table, id) ==> id in got || Ordering.Less(cursor, id)
  }

  /** How the merge stopped: with all of storage read, or with a full page that nothing unread can precede. */
  ghost predicate MayStop(table: Table, stored: Actors, q: Query, after: string, limit: nat, got: set<string>,
      early: bool, cursor: string)
  {
    if early then
      && StoredUpTo(table, stored, q, after, cursor, got)
      && |Ordering.InOrder(got)| > limit && !Ordering.Less(cursor, Ordering.InOrder(got)[limit])
    else forall id :: id in Listed(table, stored, q, after) && !Local(table, id) ==> id in got
  }

  lemma MissingIsBeyond(table: Table, stored: Actors, q: Query, after: string, local: seq<string>, limit: nat,
    got: set<string>, early: bool, cursor: string, y: string)
    requires limit > 0 && LocalsIn(table, stored, q, after, local, limit, got)
      && MayStop(table, stored, q, after, limit, got, early, cursor)
    requires y in Listed(table, stored, q, after) && y !in got
    ensures |Ordering.InOrder(got)| > limit && Ordering.Less(Ordering.InOrder(got)[limit], y)
  {
    hide Listed, Ordering.Less, Ordering.Sorted;
    var xs := Ordering.InOrder(got);
    if Local(table, y) {
      assert Wanted(table, stored, q, after, y) && y !in local;
      var p := PlaceInOrder(xs, local, limit);
      Ascending(xs, limit, p);
      if limit < p { Ordering.LessTrans(xs[limit], xs[p], y); }
    } else {
      Ordering.LessTotal(cursor, xs[limit]);
      if xs[limit] != cursor { Ordering.LessTrans(xs[limit], cursor, y); }
    }
  }

  lemma PagedAlike(xs: seq<string>, ys: seq<string>, limit: nat)
    requires 0 < limit < |xs| && limit < |ys| && xs[..limit + 1] == ys[..limit + 1]
    ensures Store.Paged(xs, limit) == Store.Paged(ys, limit)
  {
    assert ys[..limit] == ys[..limit + 1][..limit] && xs[..limit] == xs[..limit + 1][..limit];
    assert ys[limit - 1] == ys[..limit + 1][limit - 1] && xs[limit - 1] == xs[..limit + 1][limit - 1];
  }

  /** However the merge stopped, its first page is the directory's first page. */
  lemma FirstPageIsRight(table: Table, stored: Actors, q: Query, after: string, local: seq<string>, limit: nat,
    got: set<string>, early: bool, cursor: string)
    requires limit > 0 && LocalsIn(table, stored, q, after, local, limit, got)
      && MayStop(table, stored, q, after, limit, got, early, cursor)
    ensures Store.Paged(Ordering.InOrder(got), limit) ==
      Store.Paged(Ordering.InOrder(Listed(table, stored, q, after)), limit)
  {
    hide Listed, Ordering.Less, MayStop, Wanted, Ordering.Sorted;
    var F := Listed(table, stored, q, after);
    if got != F {
      forall y | y in F && y !in got
        ensures |Ordering.InOrder(got)| > limit && Ordering.Less(Ordering.InOrder(got)[limit], y)
      {
        MissingIsBeyond(table, stored, q, after, local, limit, got, early, cursor, y);
      }
      var y :| y in F && y !in got;
      SameBeginning(got, F, limit);
      PagedAlike(Ordering.InOrder(got), Ordering.InOrder(F), limit);
    }
  }

  lemma LocalsGrow(table: Table, stored: Actors, q: Query, after: string, local: seq<string>, limit: nat,
    got: set<string>, more: set<string>)
    requires LocalsIn(table, stored, q, after, local, limit, got)
      && got <= more <= got + Listed(table, stored, q, after)
    ensures LocalsIn(table, stored, q, after, local, limit, more)
  {}

  lemma NothingBefore(table: Table, stored: Actors, q: Query, after: string, got: set<string>)
    ensures StoredUpTo(table, stored, q, after, after, got)
  {}

  /** The storage page never holds an actor that storage does not. */
  lemma PageIsStored(stored: Actors, q: Store.Query, from: string, batch: seq<string>, more: Charts.Option<string>)
    requires (batch, more) == Store.Paged(Ordering.InOrder(Store.Selected(stored, q, from)), MAX_PAGE)
    ensures forall i :: 0 <= i < |batch| ==> batch[i] in stored
    ensures more.Some? ==>
      batch != [] && more.value == batch[|batch| - 1]
      && more.value in Store.Selected(stored, q, from)
  {
    var xs := Ordering.InOrder(Store.Selected(stored, q, from));
    forall i | 0 <= i < |batch| ensures batch[i] in stored { assert xs[i] in xs; }
    if more.Some? { assert xs[MAX_PAGE - 1] in xs; }
  }

  /** A storage-only actor is listed exactly when storage selects it and the other filters admit it. */
  lemma StoredMatches(table: Table, stored: Actors, q: Query, after: string, id: string)
    requires Keyed(table, stored) && !Local(table, id)
    ensures id in Listed(table, stored, q, after) ==>
      id in stored && id in Store.Selected(stored, StoreQuery(q), after)
      && (q.durable == Charts.None || q.durable.value) && (q.residency == Charts.None || q.residency.value == PagedOut)
  {}

  /** When storage is not read, nothing in it could have matched. */
  lemma NothingStoredMatches(table: Table, stored: Actors, q: Query, after: string)
    requires Keyed(table, stored)
    requires stored == map[] || !(q.durable == Charts.None || q.durable.value) || q.residency == Charts.Some(Resident)
      || q.residency == Charts.Some(Hydrating)
    ensures forall id :: id in Listed(table, stored, q, after) ==> Local(table, id)
  {
    forall id | id in Listed(table, stored, q, after) ensures Local(table, id) {
      if !Local(table, id) { StoredMatches(table, stored, q, after, id); }
    }
  }

  // ---- the code ----

  const MAX_PAGE := 200

  class System {
    var table: Table
    const storage: Store.MemoryStore?

    ghost function StoredActors(): Actors
      reads this, storage
    {
      if storage == null then map[] else storage.actors
    }

    ghost predicate Valid()
      reads this, storage
    {
      && (storage != null ==> storage.Valid())
      && forall id :: id in table ==> table[id].info.id == id
    }

    constructor (storage: Store.MemoryStore?)
      requires storage != null ==> storage.Valid()
      ensures Valid() && this.storage == storage && table == map[]
    {
      this.storage := storage;
      table := map[];
    }

    lemma KeyedByValid()
      requires Valid()
      ensures Keyed(table, StoredActors())
    {
      if storage != null {
        forall id | id in storage.actors ensures storage.actors[id].actorId == id {
          assert Store.ActorGood(storage.rules, storage.Records(), id, storage.actors[id]);
        }
      }
    }

    /** localInfosAfter (inspection.go:106-132): at most limit + 1 matching local actors, in ID order. */
    method LocalAfter(q: Query, after: string, limit: nat) returns (local: seq<string>)
      requires Valid() && limit > 0
      ensures Ordering.Sorted(local) && |local| <= limit + 1
      ensures forall id :: id in local ==> Wanted(table, StoredActors(), q, after, id)
      ensures forall id :: Wanted(table, StoredActors(), q, after, id) && id !in local ==>
                |local| == limit + 1 && Ordering.Less(local[limit], id)
    {
      hide Listed, Matches, Ordering.Less, Ordering.Sorted, Ordering.InOrder;
      var ids := Ordering.Sort(table.Keys);
      local := [];
      NoneSorted();
      var i := 0;
      while i < |ids| && |local| < limit + 1
        invariant 0 <= i <= |ids| && |local| <= limit + 1 && Ordering.Sorted(local)
        invariant |local| == limit + 1 ==> i > 0 && local[limit] == ids[i - 1]
        invariant forall id :: id in local <==> id in ids[..i] && Wanted(table, StoredActors(), q, after, id)
        decreases |ids| - i
      {
        var id := ids[i];
        assert id in ids && ids[..i + 1] == ids[..i] + [id];
        WantedIs(table, StoredActors(), q, after, id);
        if Ordering.Less(after, id) && table[id].initialized && Matches(table[id].info, q) {
          AppendInOrder(ids, i, local);
          local := local + [id];
        }
        i := i + 1;
      }
      forall id | Wanted(table, StoredActors(), q, after, id) && id !in local
        ensures |local| == limit + 1 && Ordering.Less(local[limit], id)
      {
        assert id in table.Keys && id in ids;
        Beyond(ids, i, id);
      }
    }

    /** QueryActors (inspection.go:161-224); the cursors stand for the actor IDs they encode. */
    method QueryActors(q: Query, after: string, limit: nat) returns (page: seq<Info>, next: Charts.Option<string>)
      requires Valid() && 0 < limit <= MAX_PAGE
      ensures var (ids, rest) := Store.Paged(Ordering.InOrder(Listed(table, StoredActors(), q, after)), limit);
        |page| == |ids| && next == rest
        && forall i :: 0 <= i < |page| ==> Charts.Some(page[i]) == View(table, StoredActors(), ids[i])
    {
      hide Listed, Matches, View, Ordering.Less, Ordering.InOrder, LocalsIn, StoredUpTo, Wanted, Store.Selected,
        Ordering.Sorted;
      KeyedByValid();
      ghost var stored := StoredActors();
      var local := LocalAfter(q, after, limit);
      var merged: map<string, Info> := Locals(q, after, local, limit);
      ghost var early, cursor := false, after;
      if storage != null && (q.durable == Charts.None || q.durable.value) && q.residency != Charts.Some(Resident)
          && q.residency != Charts.Some(Hydrating)
      {
        merged, early, cursor := ReadStorage(q, after, local, limit, merged);
      } else {
        NothingStoredMatches(table, stored, q, after);
      }
      FirstPageIsRight(table, stored, q, after, local, limit, merged.Keys, early, cursor);
      page, next := TakePage(merged, limit);
    }

    /** The first page of what was merged (inspection.go:209-223). */
    method TakePage(merged: map<string, Info>, limit: nat) returns (page: seq<Info>, next: Charts.Option<string>)
      requires limit > 0 && Views(table, StoredActors(), merged)
      ensures var (ids, rest) := Store.Paged(Ordering.InOrder(merged.Keys), limit);
        |page| == |ids| && next == rest
        && forall i :: 0 <= i < |page| ==> Charts.Some(page[i]) == View(table, StoredActors(), ids[i])
    {
      hide View, Ordering.Sorted;
      var ids := Ordering.Sort(merged.Keys);
      next := Charts.None;
      var n := |ids|;
      if n > limit {
        n := limit;
        next := Charts.Some(ids[n - 1]);
      }
      page := [];
      for i := 0 to n
        invariant |page| == i && forall j :: 0 <= j < i ==> Charts.Some(page[j]) == View(table, StoredActors(), ids[j])
      {
        assert ids[i] in ids;
        page := page + [merged[ids[i]]];
      }
    }

    /** The storage loop (inspection.go:179-208): pages are merged until nothing unread can matter. */
    method ReadStorage(q: Query, after: string, local: seq<string>, limit: nat, merged0: map<string, Info>)
      returns (merged: map<string, Info>, ghost early: bool, ghost cursor: string)
      requires Valid() && storage != null && 0 < limit <= MAX_PAGE && Views(table, StoredActors(), merged0)
      requires LocalsIn(table, StoredActors(), q, after, local, limit, merged0.Keys)
      ensures LocalsIn(table, StoredActors(), q, after, local, limit, merged.Keys)
        && Views(table, StoredActors(), merged)
      ensures MayStop(table, StoredActors(), q, after, limit, merged.Keys, early, cursor)
    {
      hide Listed, Matches, View, Ordering.Less, Ordering.InOrder, LocalsIn, StoredUpTo, Wanted, Store.Selected,
        Ordering.Sorted;
      KeyedByValid();
      ghost var stored := StoredActors();
      merged, early, cursor := merged0, false, after;
      var from := after;
      NothingBefore(table, stored, q, after, merged.Keys);
      while true
        invariant LocalsIn(table, stored, q, after, local, limit, merged.Keys)
          && StoredUpTo(table, stored, q, after, from, merged.Keys)
        invariant Views(table, stored, merged) && !early
        invariant from == after || Ordering.Less(after, from)
        decreases |Store.Selected(stored, StoreQuery(q), from)|
      {
        var batch, more, problem := storage.QueryActors(StoreQuery(q), from, MAX_PAGE);
        PageIsStored(stored, StoreQuery(q), from, batch, more);
        ghost var before := merged.Keys;
        merged := Merge(q, batch, merged);
        Covered(table, stored, q, after, from, before, merged.Keys, batch, more);
        LocalsGrow(table, stored, q, after, local, limit, before, merged.Keys);
        var ids := Ordering.Sort(merged.Keys);
        if more == Charts.None { return; }
        if |ids| > limit && |batch| > 0 && !Ordering.Less(batch[|batch| - 1], ids[limit]) {
          early, cursor := true, more.value;
          return;
        }
        Shrinks(stored, StoreQuery(q), from, more.value);
        from := more.value;
      }
    }

    /** The merge starts with the local actors. */
    method Locals(q: Query, after: string, local: seq<string>, limit: nat) returns (merged: map<string, Info>)
      requires Ordering.Sorted(local) && |local| <= limit + 1 && forall id :: id in local ==>
        Wanted(table, StoredActors(), q, after, id)
      requires forall id :: Wanted(table, StoredActors(), q, after, id) && id !in local ==>
        |local| == limit + 1 && Ordering.Less(local[limit], id)
      ensures Views(table, StoredActors(), merged)
        && LocalsIn(table, StoredActors(), q, after, local, limit, merged.Keys)
    {
      merged := map id | id in local :: table[id].info;
    }

    /** One storage page goes into the merge (inspection.go:189-197). */
    method Merge(q: Query, batch: seq<string>, before: map<string, Info>) returns (merged: map<string, Info>)
      requires Valid() && storage != null && forall i :: 0 <= i < |batch| ==> batch[i] in storage.actors
      requires Views(table, StoredActors(), before)
      ensures forall id :: id in merged <==>
        id in before
        || (id in batch && Matches(View(table, StoredActors(), id).value, q))
      ensures Views(table, StoredActors(), merged)
    {
      hide Matches;
      merged := before;
      for i := 0 to |batch|
        invariant forall id :: id in merged <==>
          id in before || (id in batch[..i] && Matches(View(table, StoredActors(), id).value, q))
        invariant Views(table, StoredActors(), merged)
      {
        var m := storage.actors[batch[i]];
        var info := InfoOf(m);
        if batch[i] in table && table[batch[i]].initialized { info := table[batch[i]].info; }
        if Matches(info, q) { merged := merged[batch[i] := info]; }
        assert batch[..i + 1] == batch[..i] + [batch[i]];
      }
      assert batch[..|batch|] == batch;
    }
  }

  /** After merging a storage page, everything up to its cursor is collected (everything, without one). */
  lemma Covered(table: Table, stored: Actors, q: Query, after: string, from: string, before: set<string>,
    got: set<string>, batch: seq<string>, more: Charts.Option<string>)
    requires Keyed(table, stored) && StoredUpTo(table, stored, q, after, from, before)
      && (from == after || Ordering.Less(after, from))
    requires (batch, more) == Store.Paged(Ordering.InOrder(Store.Selected(stored, StoreQuery(q), from)), MAX_PAGE)
    requires forall i :: 0 <= i < |batch| ==> batch[i] in stored
    requires forall id :: id in got <==> id in before || (id in batch && Matches(View(table, stored, id).value, q))
    ensures got <= before + Listed(table, stored, q, after)
    ensures more.Some? ==>
      StoredUpTo(table, stored, q, after, more.value, got) && Ordering.Less(from, more.value)
      && Ordering.Less(after, more.value)
    ensures more == Charts.None ==> forall id :: id in Listed(table, stored, q, after) && !Local(table, id) ==>
      id in got
  {
    var S := Store.Selected(stored, StoreQuery(q), from);
    var xs := Ordering.InOrder(S);
    forall id | id in batch ensures id in S { assert id in xs; }
    forall id | id in got ensures id in before + Listed(table, stored, q, after) {
      if id !in before && from != after { Ordering.LessTrans(after, from, id); }
    }
    forall id | id in Listed(table, stored, q, after) && !Local(table, id) && id !in got
      ensures more.Some? && Ordering.Less(more.value, id)
    {
      StoredMatches(table, stored, q, after, id);
      assert id in S;
      PageCovers(S, MAX_PAGE, id);
    }
    if more.Some? {
      assert more.value in xs;
      if from != after { Ordering.LessTrans(after, from, more.value); }
    }
  }

  /** Each storage page leaves fewer records to read. */
  lemma Shrinks(stored: Actors, q: Store.Query, from: string, to: string)
    requires Ordering.Less(from, to) && to in Store.Selected(stored, q, from)
    ensures |Store.Selected(stored, q, to)| < |Store.Selected(stored, q, from)|
  {
    var A, B := Store.Selected(stored, q, to), Store.Selected(stored, q, from);
    forall x | x in A ensures x in B { Ordering.LessTrans(from, to, x); }
    Ordering.LessTotal(to, to);
    assert to !in A;
    assert A <= B - {to};
    Smaller(A, B - {to});
  }

  lemma Smaller(A: set<string>, B: set<string>)
    requires A <= B
    ensures |A| <= |B|
  {
    assert B == A + (B - A);
  }

  // ---- following the cursors ----

  /** The IDs met by asking for page after page. */
  ghost function Followed(table: Table, stored: Actors, q: Query, after: string, limit: nat): seq<string>
    requires limit > 0
    decreases |Listed(table, stored, q, after)|
  {
    var (ids, next) := Store.Paged(Ordering.InOrder(Listed(table, stored, q, after)), limit);
    match next
    case None => ids
    case Some(cursor) =>
      RestIsListed(table, stored, q, after, limit);
      ids + Followed(table, stored, q, cursor, limit)
  }

  /** A later cursor lists exactly what comes after it. */
  lemma ListedFurther(table: Table, stored: Actors, q: Query, after: string, cursor: string, x: string)
    requires Ordering.Less(after, cursor)
    ensures x in Listed(table, stored, q, cursor) <==> x in Listed(table, stored, q, after) && Ordering.Less(cursor, x)
  {
    if Ordering.Less(cursor, x) { Ordering.LessTrans(after, cursor, x); }
  }

  lemma ListedIsAfter(table: Table, stored: Actors, q: Query, after: string, x: string)
    requires x in Listed(table, stored, q, after)
    ensures Ordering.Less(after, x)
  {}

  /** What a query from the cursor lists is what the page left out. */
  lemma RestIsListed(table: Table, stored: Actors, q: Query, after: string, limit: nat)
    requires limit > 0
    requires |Ordering.InOrder(Listed(table, stored, q, after))| > limit
    ensures var all := Ordering.InOrder(Listed(table, stored, q, after));
      Ordering.InOrder(Listed(table, stored, q, all[limit - 1])) == all[limit..]
      && |Listed(table, stored, q, all[limit - 1])| < |Listed(table, stored, q, after)|
  {
    hide Listed, Ordering.Less, Ordering.Sorted;
    var F := Listed(table, stored, q, after);
    var all := Ordering.InOrder(F);
    var cursor := all[limit - 1];
    var G := Listed(table, stored, q, cursor);
    var tail := all[limit..];
    assert cursor in all;
    ListedIsAfter(table, stored, q, after, cursor);
    forall x ensures x in tail <==> x in G {
      ListedFurther(table, stored, q, after, cursor, x);
      if x in tail {
        var p :| limit <= p < |all| && all[p] == x;
        assert x in all;
        Ascending(all, limit - 1, p);
      }
      if x in G {
        assert x in all;
        var p :| 0 <= p < |all| && all[p] == x;
        LaterInOrder(all, limit - 1, p);
        assert tail[p - limit] == x;
      }
    }
    TailSorted(all, limit);
    Ordering.OneOrder(tail, Ordering.InOrder(G));
    forall x | x in G ensures x in F - {cursor} {
      ListedFurther(table, stored, q, after, cursor, x);
      Ordering.LessTotal(cursor, x);
    }
    Smaller(G, F - {cursor});
  }

  lemma TailSorted(xs: seq<string>, n: nat)
    requires Ordering.Sorted(xs) && n <= |xs|
    ensures Ordering.Sorted(xs[n..])
  {}

  /** Following Next enumerates every matching actor exactly once, in ID order. */
  lemma {:induction false} FollowingNextListsAll(table: Table, stored: Actors, q: Query, after: string, limit: nat)
    requires limit > 0
    ensures Followed(table, stored, q, after, limit) == Ordering.InOrder(Listed(table, stored, q, after))
    decreases |Listed(table, stored, q, after)|
  {
    hide Listed, Ordering.Less, Ordering.InOrder;
    var all := Ordering.InOrder(Listed(table, stored, q, after));
    if |all| > limit {
      RestIsListed(table, stored, q, after, limit);
      FollowingNextListsAll(table, stored, q, all[limit - 1], limit);
      assert all == all[..limit] + all[limit..];
    }
  }
}
