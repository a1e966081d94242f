/**
 Revision pins (actors/system.go:330-415, 447-608, 707-926): Register, Publish, Spawn and
 CollectDefinition of one System, and the completion of its actors, interleaved.

 Each caller keeps a program counter; one step is one lock-protected region of the source.  A kind's
 publishMu is held in the states PublishHeld names, an entry's lock in those EntryHeld names.
 Storage may already hold actors of an earlier process.  A step told to fail takes the error exit
 that its storage call or compilation may take.
 */
module Pins {
  import Charts

  /** A revision is an opaque injective token, so it determines the chart it was derived from. */
  datatype Revision = Revision(kind: string, content: string)

  datatype Registry = Registry(current: Revision, revisions: set<Revision>)

  /** A durable actor's record. */
  datatype Pin = Pin(kind: string, revision: Revision, ended: bool)

  datatype Entry = Entry(kind: string, revision: Revision, durable: bool, initialized: bool, terminal: bool)

  datatype Pc =
    | Idle
    | Registering(rev: Revision)                       // Register has stored the artifact
    | Publishing(rev: Revision)                        // Publish holds publishMu and has compiled
    | Storing(rev: Revision)                           // and has stored the artifact
    | Collecting(kind: string, rev: Revision)          // CollectDefinition holds publishMu
    | Looking(kind: string, rev: Revision)             // not compiled: storage decides whether it exists
    | NotCurrent(kind: string, rev: Revision)
    | Unpinned(kind: string, rev: Revision)            // the actor table has been searched
    | Deleted(kind: string, rev: Revision)             // storage has deleted the artifact
    | Spawning(name: string, kind: string, durable: bool)                    // Spawn holds publishMu
    | Selected(name: string, kind: string, durable: bool, rev: Revision)
    | Tabled(name: string, kind: string, durable: bool, rev: Revision)       // holds nothing
    | Holding(name: string, kind: string, durable: bool, rev: Revision)      // the entry's lock from here on
    | Prepared(name: string, kind: string, rev: Revision)
    | Beginning(name: string, kind: string, rev: Revision)
    | Rereading(name: string, kind: string)
    | Resolving(name: string, kind: string, rev: Revision)
    | Upgrading(name: string, kind: string, rev: Revision)
    | Fetching(name: string, kind: string, rev: Revision)                    // and publishMu
    | Fetched(name: string, kind: string, rev: Revision)                     // and publishMu
    | Resolved(name: string, kind: string, rev: Revision)
    | Activating(name: string)
    | Completing(name: string)                         // the store has been told that the actor ended

  datatype State = State(
    storage: bool, registries: map<string, Registry>, definitions: set<Revision>, actors: map<string, Pin>,
    table: map<string, Entry>, threads: map<nat, Pc>)

  datatype Call =
    | Continue(fails: bool)
    | Register(rev: Revision)
    | Publish(rev: Revision)
    | Collect(kind: string, rev: Revision)
    | Spawn(name: string, kind: string, durable: bool)
    | Complete(name: string, fails: bool)

  // ---- locks ----

  function PcOf(s: State, t: nat): Pc { if t in s.threads then s.threads[t] else Idle }

  function PublishHeld(pc: Pc): Charts.Option<string> {
    match pc
    case Registering(rev) => Charts.Some(rev.kind)
    case Publishing(rev) => Charts.Some(rev.kind)
    case Storing(rev) => Charts.Some(rev.kind)
    case Collecting(kind, _) => Charts.Some(kind)
    case Looking(kind, _) => Charts.Some(kind)
    case NotCurrent(kind, _) => Charts.Some(kind)
    case Unpinned(kind, _) => Charts.Some(kind)
    case Deleted(kind, _) => Charts.Some(kind)
    case Spawning(_, kind, _) => Charts.Some(kind)
    case Selected(_, kind, _, _) => Charts.Some(kind)
    case Fetching(_, kind, _) => Charts.Some(kind)
    case Fetched(_, kind, _) => Charts.Some(kind)
    case _ => Charts.None
  }

  function EntryHeld(pc: Pc): Charts.Option<string> {
    if pc.Holding? || pc.Prepared? || pc.Beginning? || pc.Rereading? || pc.Resolving? || pc.Upgrading? || pc.Fetching?
      || pc.Fetched?
      || pc.Resolved? || pc.Activating? then Charts.Some(pc.name)
    else Charts.None
  }

  predicate PublishFree(s: State, kind: string) {
    forall t :: t in s.threads ==> PublishHeld(s.threads[t]) != Charts.Some(kind)
  }

  predicate EntryFree(s: State, name: string) {
    forall t :: t in s.threads ==> EntryHeld(s.threads[t]) != Charts.Some(name)
  }

  // ---- one step ----

  function At(s: State, t: nat, pc: Pc): State { s.(threads := s.threads[t := pc]) }

  predicate Compiled(s: State, rev: Revision) { rev.kind in s.registries && rev in s.registries[rev.kind].revisions }

  predicate IsCurrent(s: State, kind: string, rev: Revision) {
    kind in s.registries && s.registries[kind].current == rev
  }

  predicate EntryUses(e: Entry, rev: Revision) { e.initialized && e.revision == rev && !e.terminal }

  predicate ActorPins(s: State, rev: Revision) {
    exists a :: a in s.actors && s.actors[a].revision == rev && !s.actors[a].ended
  }

  function Stored(s: State, rev: Revision): State { if s.storage then s.(definitions := s.definitions + {rev}) else s }

  function Install(s: State, rev: Revision): State
    requires rev.kind in s.registries
  {
    s.(registries := s.registries[rev.kind :=
      s.registries[rev.kind].(revisions := s.registries[rev.kind].revisions + {rev})])
  }

  function MakeCurrent(s: State, rev: Revision): State
    requires rev.kind in s.registries
  {
    s.(registries := s.registries[rev.kind := Registry(rev, s.registries[rev.kind].revisions + {rev})])
  }

  function Drop(s: State, kind: string, rev: Revision): State
    requires kind in s.registries
  {
    s.(registries := s.registries[kind := s.registries[kind].(revisions := s.registries[kind].revisions - {rev})])
  }

  /** validateSpawnMetadata (system.go:844-858) on the record just read. */
  function Validated(s: State, t: nat, name: string, kind: string): State
    requires name in s.actors
  {
    var pin := s.actors[name];
    At(s, t, if pin.kind != kind || pin.ended then Idle else Resolving(name, kind, pin.revision))
  }

  /** entryFor (system.go:890-926). */
  function Enter(s: State, t: nat, name: string, kind: string, durable: bool, rev: Revision): State {
    if name in s.table then
      var e := s.table[name];
      At(s, t, if e.durable != durable || (e.initialized && e.kind != kind) then Idle
        else Tabled(name, kind, durable, rev))
    else
      At(s.(table := s.table[name := Entry(kind, rev, durable, !durable, false)]), t, Tabled(name, kind, durable, rev))
  }

  function Next(s: State, t: nat, fails: bool): State {
    match PcOf(s, t)
    case Idle => s
    case Registering(rev) => At(s.(registries := s.registries[rev.kind := Registry(rev, {rev})]), t, Idle)
    case Publishing(rev) => if fails then At(s, t, Idle) else At(Stored(s, rev), t, Storing(rev))
    case Storing(rev) => if rev.kind !in s.registries then At(s, t, Idle) else At(MakeCurrent(s, rev), t, Idle)
    case Collecting(kind, rev) =>
      if IsCurrent(s, kind, rev) || kind !in s.registries then At(s, t, Idle)
      else if rev in s.registries[kind].revisions then At(s, t, NotCurrent(kind, rev))
      else if !s.storage then At(s, t, Idle)
      else At(s, t, Looking(kind, rev))
    case Looking(kind, rev) => At(s, t, if fails || rev !in s.definitions || rev.kind != kind then Idle
      else NotCurrent(kind, rev))
    case NotCurrent(kind, rev) =>
      if exists n :: n in s.table && EntryUses(s.table[n], rev) then At(s, t, Idle) else At(s, t, Unpinned(kind, rev))
    case Unpinned(kind, rev) =>
      if !s.storage then At(s, t, Deleted(kind, rev))
      else if fails || ActorPins(s, rev) then At(s, t, Idle)
      else At(s.(definitions := s.definitions - {rev}), t, Deleted(kind, rev))
    case Deleted(kind, rev) =>
      if IsCurrent(s, kind, rev) || kind !in s.registries then At(s, t, Idle) else At(Drop(s, kind, rev), t, Idle)
    case Spawning(name, kind, durable) =>
      if kind !in s.registries || s.registries[kind].current !in s.registries[kind].revisions || (durable && !s.storage)
        then At(s, t, Idle)
      else At(s, t, Selected(name, kind, durable, s.registries[kind].current))
    case Selected(name, kind, durable, rev) => Enter(s, t, name, kind, durable, rev)
    case Tabled(name, kind, durable, rev) =>
      if !EntryFree(s, name) then s
      else if name !in s.table || s.table[name].terminal then At(s, t, Idle)
      else At(s, t, Holding(name, kind, durable, rev))
    case Holding(name, kind, durable, rev) =>
      if !durable then At(s, t, Activating(name))
      else if name !in s.table || (s.table[name].initialized && s.table[name].kind != kind) then At(s, t, Idle)
      else At(s.(table := s.table[name := s.table[name].(kind := kind)]), t, Prepared(name, kind, rev))
    case Prepared(name, kind, rev) =>
      if fails then At(s, t, Idle)
      else if name in s.actors then Validated(s, t, name, kind)
      else At(s, t, Beginning(name, kind, rev))
    case Beginning(name, kind, rev) =>
      if fails then At(s, t, Idle)
      else if name in s.actors then
        if s.actors[name].ended then At(s, t, Idle)
        else if s.actors[name].kind == kind && s.actors[name].revision == rev then At(s, t, Resolving(name, kind, rev))
        else At(s, t, Rereading(name, kind))
      else if rev !in s.definitions || rev.kind != kind then At(s, t, Idle)
      else At(s.(actors := s.actors[name := Pin(kind, rev, false)]), t, Resolving(name, kind, rev))
    case Rereading(name, kind) => if fails || name !in s.actors then At(s, t, Idle) else Validated(s, t, name, kind)
    case Resolving(name, kind, rev) =>
      At(s, t, if kind !in s.registries then Idle else if rev in s.registries[kind].revisions
        then Resolved(name, kind, rev) else Upgrading(name, kind, rev))
    case Upgrading(name, kind, rev) => if PublishFree(s, kind) then At(s, t, Fetching(name, kind, rev)) else s
    case Fetching(name, kind, rev) =>
      if kind !in s.registries then At(s, t, Idle)
      else if rev in s.registries[kind].revisions then At(s, t, Resolved(name, kind, rev))
      else At(s, t, if fails || !s.storage || rev !in s.definitions || rev.kind != kind then Idle
        else Fetched(name, kind, rev))
    case Fetched(name, kind, rev) =>
      if fails || rev.kind !in s.registries then At(s, t, Idle) else At(Install(s, rev), t, Resolved(name, kind, rev))
    case Resolved(name, kind, rev) =>
      if name !in s.table then At(s, t, Idle)
      else
        var e := s.table[name];
        if e.initialized then At(s, t, if e.revision != rev then Idle else Activating(name))
        else At(s.(table := s.table[name := e.(revision := rev, initialized := true)]), t, Activating(name))
    case Activating(name) => At(s, t, Idle)
    case Completing(name) =>
      if name in s.table then At(s.(table := s.table[name := s.table[name].(terminal := true)]), t, Idle)
        else At(s, t, Idle)
  }

  /** The completion hook (system.go:1100-1131): an ephemeral actor just ends; a durable one is first
      marked in the store. */
  function Completion(s: State, t: nat, name: string, fails: bool): State {
    if name !in s.table || !s.table[name].initialized || s.table[name].terminal then s
    else if !s.table[name].durable then At(s.(table := s.table[name := s.table[name].(terminal := true)]), t, Idle)
    else if fails || name !in s.actors then s
    else At(s.(actors := s.actors[name := s.actors[name].(ended := true)]), t, Completing(name))
  }

  /** A caller starts a call when idle, and otherwise continues the one it is in. */
  function Step(s: State, t: nat, call: Call): State {
    match call
    case Continue(fails) => Next(s, t, fails)
    case _ =>
      if PcOf(s, t) != Idle then s
      else
        match call
        case Register(rev) => if rev.kind in s.registries || !PublishFree(s, rev.kind) then s
          else At(Stored(s, rev), t, Registering(rev))
        case Publish(rev) => if rev.kind !in s.registries || !PublishFree(s, rev.kind) then s
          else At(s, t, Publishing(rev))
        case Collect(kind, rev) => if kind !in s.registries || !PublishFree(s, kind) then s
          else At(s, t, Collecting(kind, rev))
        case Spawn(name, kind, durable) => if kind !in s.registries || !PublishFree(s, kind) then s
          else At(s, t, Spawning(name, kind, durable))
        case Complete(name, fails) => Completion(s, t, name, fails)
        case Continue(_) => s
  }

  function Run(s: State, schedule: seq<(nat, Call)>): State
    decreases |schedule|
  {
    if schedule == [] then s else Run(Step(s, schedule[0].0, schedule[0].1), schedule[1..])
  }

  // ---- the invariant ----

  ghost predicate RegistryOk(s: State, kind: string) {
    kind in s.registries ==>
      && s.registries[kind].current in s.registries[kind].revisions
      && (forall r :: r in s.registries[kind].revisions ==> r.kind == kind)
      && (s.storage ==> s.registries[kind].current in s.definitions)
  }

  ghost predicate ActorOk(s: State, a: string) {
    a in s.actors ==> s.storage && (!s.actors[a].ended ==>
      s.actors[a].revision in s.definitions && s.actors[a].revision.kind == s.actors[a].kind)
  }

  predicate Ended(s: State, n: string) { n in s.actors && s.actors[n].ended }

  ghost predicate SomeoneCompletes(s: State, n: string) { exists t: nat :: PcOf(s, t) == Completing(n) }

  ghost predicate EntryOk(s: State, n: string) {
    n in s.table ==>
      var e := s.table[n];
      && (if e.durable then s.storage else e.initialized)
      && (e.initialized ==>
            && e.revision.kind == e.kind && e.kind in s.registries
            && (e.durable ==> n in s.actors && s.actors[n].revision == e.revision)
            && (!e.terminal && (e.durable ==> !Ended(s, n)) ==> Compiled(s, e.revision))
            && (!e.terminal && e.durable && Ended(s, n) ==> SomeoneCompletes(s, n)))
  }

  ghost predicate World(s: State) {
    && (forall k: string {:trigger RegistryOk(s, k)} :: RegistryOk(s, k))
    && (forall a: string {:trigger ActorOk(s, a)} :: ActorOk(s, a))
    && (forall n: string {:trigger EntryOk(s, n)} :: EntryOk(s, n))
  }

  ghost predicate NoEphemeral(s: State, rev: Revision) {
    forall n :: n in s.table && s.table[n].initialized && !s.table[n].durable && !s.table[n].terminal ==>
      s.table[n].revision != rev
  }

  /** A durable entry of the given kind, which only the holder of its lock may pin. */
  ghost predicate DurableEntry(s: State, name: string, kind: string) {
    s.storage && kind in s.registries && name in s.table && s.table[name].durable && s.table[name].kind == kind
  }

  /** The revision about to be pinned is the one its active record names. */
  ghost predicate Backed(s: State, name: string, kind: string, rev: Revision) {
    DurableEntry(s, name, kind)
    && (s.table[name].initialized || (name in s.actors && s.actors[name] == Pin(kind, rev, false) && rev.kind == kind))
  }

  ghost predicate PcOk(s: State, pc: Pc) {
    match pc
    case Idle => true
    case Registering(rev) => rev.kind !in s.registries && (s.storage ==> rev in s.definitions)
    case Publishing(rev) => rev.kind in s.registries
    case Storing(rev) => rev.kind in s.registries && (s.storage ==> rev in s.definitions)
    case Collecting(kind, _) => kind in s.registries
    case Looking(kind, rev) => kind in s.registries && !IsCurrent(s, kind, rev)
    case NotCurrent(kind, rev) => kind in s.registries && !IsCurrent(s, kind, rev) && rev.kind == kind
    case Unpinned(kind, rev) => kind in s.registries && !IsCurrent(s, kind, rev) && rev.kind == kind
      && NoEphemeral(s, rev)
    case Deleted(kind, rev) =>
      kind in s.registries && !IsCurrent(s, kind, rev) && rev.kind == kind && NoEphemeral(s, rev)
        && (s.storage ==> rev !in s.definitions)
    case Spawning(_, kind, _) => kind in s.registries
    case Selected(_, kind, durable, rev) => IsCurrent(s, kind, rev) && (durable ==> s.storage)
    case Tabled(name, kind, durable, rev) => TableOk(s, name, kind, durable)
    case Holding(name, kind, durable, rev) => TableOk(s, name, kind, durable)
    case Prepared(name, kind, _) => DurableEntry(s, name, kind)
    case Beginning(name, kind, _) => DurableEntry(s, name, kind)
    case Rereading(name, kind) => DurableEntry(s, name, kind)
    case Resolving(name, kind, rev) => Backed(s, name, kind, rev)
    case Upgrading(name, kind, rev) => Backed(s, name, kind, rev)
    case Fetching(name, kind, rev) => Backed(s, name, kind, rev)
    case Fetched(name, kind, rev) => Backed(s, name, kind, rev) && rev.kind == kind
    case Resolved(name, kind, rev) => Backed(s, name, kind, rev) && (s.table[name].initialized || Compiled(s, rev))
    case Activating(name) => name in s.table && s.table[name].initialized
    case Completing(name) => name in s.table && s.table[name].initialized && s.table[name].durable && Ended(s, name)
  }

  ghost predicate TableOk(s: State, name: string, kind: string, durable: bool) {
    && kind in s.registries && name in s.table && s.table[name].durable == durable && (durable ==> s.storage)
    && (!durable ==> s.table[name].initialized)
  }

  ghost predicate Apart(s: State, t: nat, u: nat) {
    t != u ==>
      && (PublishHeld(PcOf(s, t)).Some? ==> PublishHeld(PcOf(s, t)) != PublishHeld(PcOf(s, u)))
      && (EntryHeld(PcOf(s, t)).Some? ==> EntryHeld(PcOf(s, t)) != EntryHeld(PcOf(s, u)))
  }

  ghost predicate AllApart(s: State) { forall t: nat, u: nat {:trigger Apart(s, t, u)} :: Apart(s, t, u) }

  ghost predicate OthersOk(s: State, t: nat) {
    forall u: nat {:trigger PcOk(s, PcOf(s, u))} :: u != t ==> PcOk(s, PcOf(s, u))
  }

  ghost predicate Inv(s: State) {
    World(s) && AllApart(s) && forall u: nat {:trigger PcOk(s, PcOf(s, u))} :: PcOk(s, PcOf(s, u))
  }

  // ---- changing only a program counter ----

  /** The locks of pc are t's already, or free. */
  ghost predicate MayHold(s: State, t: nat, pc: Pc) {
    && (PublishHeld(pc).Some? ==> PublishHeld(pc) == PublishHeld(PcOf(s, t)) || PublishFree(s, PublishHeld(pc).value))
    && (EntryHeld(pc).Some? ==> EntryHeld(pc) == EntryHeld(PcOf(s, t)) || EntryFree(s, EntryHeld(pc).value))
  }

  lemma Relabelled(s: State, t: nat, pc: Pc)
    requires World(s) && AllApart(s) && OthersOk(s, t) && PcOk(s, pc) && MayHold(s, t, pc)
    requires PcOf(s, t).Completing? && PcOf(s, t) != pc ==>
      PcOf(s, t).name in s.table && s.table[PcOf(s, t).name].terminal
    ensures Inv(At(s, t, pc))
  {
    var s' := At(s, t, pc);
    forall k: string {:trigger RegistryOk(s', k)} ensures RegistryOk(s', k) { assert RegistryOk(s, k); }
    forall a: string {:trigger ActorOk(s', a)} ensures ActorOk(s', a) { assert ActorOk(s, a); }
    forall n: string {:trigger EntryOk(s', n)} ensures EntryOk(s', n) {
      assert EntryOk(s, n);
      if SomeoneCompletes(s, n) {
        var u: nat :| PcOf(s, u) == Completing(n);
        if u != t { assert PcOf(s', u) == Completing(n); } else { assert PcOf(s', t) == pc; }
      }
    }
    forall u: nat {:trigger PcOk(s', PcOf(s', u))} ensures PcOk(s', PcOf(s', u)) {
      if u != t { assert PcOf(s', u) == PcOf(s, u); SamePc(s, s', PcOf(s, u)); } else { SamePc(s, s', pc); }
    }
    forall u: nat, v: nat {:trigger Apart(s', u, v)} ensures Apart(s', u, v) {
      assert Apart(s, u, v) && Apart(s, v, u);
      if u == t && v != t { HeldByOther(s, t, pc, v); }
      if v == t && u != t { HeldByOther(s, t, pc, u); }
    }
  }

  /** What a program counter asserts does not depend on the other callers. */
  lemma SamePc(s: State, s': State, pc: Pc)
    requires s' == s.(threads := s'.threads) && PcOk(s, pc)
    ensures PcOk(s', pc)
  {
    hide IsCurrent;
    assert forall k, r :: IsCurrent(s', k, r) == IsCurrent(s, k, r) by { SameCurrent(s, s'); }
  }

  lemma SameCurrent(s: State, s': State)
    requires s'.registries == s.registries
    ensures forall k, r :: IsCurrent(s', k, r) == IsCurrent(s, k, r)
  {}

  lemma HeldByOther(s: State, t: nat, pc: Pc, u: nat)
    requires AllApart(s) && MayHold(s, t, pc) && u != t
    ensures PublishHeld(pc).Some? ==> PublishHeld(pc) != PublishHeld(PcOf(s, u))
    ensures EntryHeld(pc).Some? ==> EntryHeld(pc) != EntryHeld(PcOf(s, u))
  {
    assert Apart(s, t, u);
    if u in s.threads { assert PcOf(s, u) == s.threads[u]; }
  }

  // ---- changing what the callers share ----

  /** Everything but t's own program counter is in order after the change from s to x. */
  ghost predicate Sound(s: State, x: State, t: nat) {
    x.threads == s.threads && World(x) && AllApart(x) && OthersOk(x, t)
  }

  lemma ApartStays(s: State, x: State)
    requires AllApart(s) && x.threads == s.threads
    ensures AllApart(x)
  {
    forall t: nat, u: nat {:trigger Apart(x, t, u)} ensures Apart(x, t, u) { assert Apart(s, t, u); }
  }

  lemma Parts(s: State, t: nat, u: nat)
    requires Inv(s)
    ensures PcOk(s, PcOf(s, u)) && Apart(s, t, u) && Apart(s, u, t)
  {}

  lemma WorldAt(s: State, kind: string, name: string)
    requires Inv(s)
    ensures RegistryOk(s, kind) && ActorOk(s, name) && EntryOk(s, name)
  {}

  /** No other caller is busy with the kind. */
  ghost predicate Alone(s: State, t: nat, kind: string) {
    forall u: nat {:trigger PcOf(s, u)} :: u != t ==> PublishHeld(PcOf(s, u)) != Charts.Some(kind)
  }

  lemma AloneIf(s: State, t: nat, kind: string)
    requires Inv(s) && (PublishHeld(PcOf(s, t)) == Charts.Some(kind) || PublishFree(s, kind))
    ensures Alone(s, t, kind)
  {
    hide PcOk, World;
    forall u: nat {:trigger PcOf(s, u)} | u != t ensures PublishHeld(PcOf(s, u)) != Charts.Some(kind) {
      Parts(s, t, u);
      if u in s.threads { assert PcOf(s, u) == s.threads[u]; }
    }
  }

  lemma StoreArtifact(s: State, t: nat, rev: Revision)
    requires Inv(s) && Alone(s, t, rev.kind)
    ensures Sound(s, Stored(s, rev), t)
  {
    var x := Stored(s, rev);
    ApartStays(s, x);
    forall k: string {:trigger RegistryOk(x, k)} ensures RegistryOk(x, k) { assert RegistryOk(s, k); }
    forall a: string {:trigger ActorOk(x, a)} ensures ActorOk(x, a) { assert ActorOk(s, a); }
    forall n: string {:trigger EntryOk(x, n)} ensures EntryOk(x, n) { assert EntryOk(s, n); SameThreads(s, x, n); }
    forall u: nat {:trigger PcOk(x, PcOf(x, u))} | u != t ensures PcOk(x, PcOf(x, u)) {
      assert PcOk(s, PcOf(s, u)) && PcOf(x, u) == PcOf(s, u);
    }
  }

  lemma SameThreads(s: State, x: State, n: string)
    requires x.threads == s.threads
    ensures SomeoneCompletes(s, n) <==> SomeoneCompletes(x, n)
  {
    if SomeoneCompletes(s, n) { var u: nat :| PcOf(s, u) == Completing(n); assert PcOf(x, u) == Completing(n); }
    if SomeoneCompletes(x, n) { var u: nat :| PcOf(x, u) == Completing(n); assert PcOf(s, u) == Completing(n); }
  }

  lemma DeleteArtifact(s: State, t: nat, rev: Revision)
    requires Inv(s) && PcOf(s, t) == Unpinned(rev.kind, rev) && Alone(s, t, rev.kind) && s.storage && !ActorPins(s, rev)
    ensures var x := s.(definitions := s.definitions - {rev}); Sound(s, x, t) && PcOk(x, Deleted(rev.kind, rev))
  {
    var x := s.(definitions := s.definitions - {rev});
    Parts(s, t, t);
    ApartStays(s, x);
    forall k: string {:trigger RegistryOk(x, k)} ensures RegistryOk(x, k) { assert RegistryOk(s, k); }
    forall a: string {:trigger ActorOk(x, a)} ensures ActorOk(x, a) { assert ActorOk(s, a); }
    forall n: string {:trigger EntryOk(x, n)} ensures EntryOk(x, n) { assert EntryOk(s, n); SameThreads(s, x, n); }
    forall u: nat {:trigger PcOk(x, PcOf(x, u))} | u != t ensures PcOk(x, PcOf(x, u)) {
      assert PcOk(s, PcOf(s, u)) && PcOf(x, u) == PcOf(s, u);
    }
  }

  /** The registries after a change that keeps every revision but possibly `lost`. */
  ghost predicate Rearranged(s: State, x: State, kind: string, lost: set<Revision>) {
    && x == s.(registries := x.registries) && kind in x.registries
    && (forall k :: k in s.registries ==> k in x.registries)
      && (forall k :: k in x.registries && k != kind ==> k in s.registries && x.registries[k] == s.registries[k])
    && (kind in s.registries ==> s.registries[kind].revisions - lost <= x.registries[kind].revisions)
  }

  /** No actor that runs, or may still run, is pinned to one of the revisions. */
  ghost predicate Unused(s: State, revs: set<Revision>) {
    && (forall n :: n in s.table && s.table[n].initialized && !s.table[n].terminal && s.table[n].revision in revs ==>
      s.table[n].durable && Ended(s, n))
    && (forall a :: a in s.actors && s.actors[a].revision in revs ==> s.actors[a].ended)
  }

  /** Rearranging a kind nobody else is busy with leaves the other callers' facts standing. */
  lemma Rearrange(s: State, x: State, t: nat, kind: string, lost: set<Revision>)
    requires Inv(s) && Rearranged(s, x, kind, lost) && RegistryOk(x, kind)
    requires Alone(s, t, kind) || (kind in s.registries && x.registries[kind].current == s.registries[kind].current)
    requires Unused(s, lost)
    ensures Sound(s, x, t)
  {
    ApartStays(s, x);
    forall k: string {:trigger RegistryOk(x, k)} ensures RegistryOk(x, k) { assert RegistryOk(s, k); }
    forall a: string {:trigger ActorOk(x, a)} ensures ActorOk(x, a) { assert ActorOk(s, a); }
    forall n: string {:trigger EntryOk(x, n)} ensures EntryOk(x, n) {
      assert EntryOk(s, n);
      SameThreads(s, x, n);
      if n in s.table {
        assert s.table[n].revision in lost ==>
          EntryUses(s.table[n], s.table[n].revision) || !s.table[n].initialized
          || s.table[n].terminal;
      }
    }
    forall u: nat {:trigger PcOk(x, PcOf(x, u))} | u != t ensures PcOk(x, PcOf(x, u)) {
      RearrangedPc(s, x, t, kind, lost, u);
    }
  }

  lemma RearrangedPc(s: State, x: State, t: nat, kind: string, lost: set<Revision>, u: nat)
    requires Inv(s) && Rearranged(s, x, kind, lost) && u != t
    requires Alone(s, t, kind) || (kind in s.registries && x.registries[kind].current == s.registries[kind].current)
    requires Unused(s, lost)
    ensures PcOk(x, PcOf(x, u))
  {
    var pc := PcOf(s, u);
    assert PcOk(s, pc) && PcOf(x, u) == pc;
    hide Inv;
    if pc.Resolved? { RearrangedResolved(s, x, kind, lost, pc); }
  }

  lemma RearrangedResolved(s: State, x: State, kind: string, lost: set<Revision>, pc: Pc)
    requires Rearranged(s, x, kind, lost) && pc.Resolved? && PcOk(s, pc)
    requires Unused(s, lost)
    ensures PcOk(x, pc)
  {
    if !s.table[pc.name].initialized { assert pc.rev in s.registries[pc.rev.kind].revisions && pc.rev !in lost; }
  }

  // ---- changing the actor table and the actor records ----

  /** Only one entry changes; ephemeral entries change only by ending, or by being pinned to a revision
      of a kind t is alone with; a durable entry keeps its kind unless t holds its lock. */
  ghost predicate Entered(s: State, x: State, t: nat, name: string) {
    && x == s.(table := x.table) && name in x.table && x.table == s.table[name := x.table[name]]
    && EntryOk(x, name)
    && (name in s.table ==>
          && x.table[name].durable == s.table[name].durable && (s.table[name].initialized ==> x.table[name].initialized)
          && (x.table[name].kind == s.table[name].kind || EntryHeld(PcOf(s, t)) == Charts.Some(name)))
    && (x.table[name].initialized && !x.table[name].durable && !x.table[name].terminal ==>
          Alone(s, t, x.table[name].revision.kind) || (name in s.table && s.table[name] == x.table[name]))
  }

  lemma ChangeEntry(s: State, x: State, t: nat, name: string)
    requires Inv(s) && Entered(s, x, t, name)
    ensures Sound(s, x, t)
  {
    ApartStays(s, x);
    forall k: string {:trigger RegistryOk(x, k)} ensures RegistryOk(x, k) { assert RegistryOk(s, k); }
    forall a: string {:trigger ActorOk(x, a)} ensures ActorOk(x, a) { assert ActorOk(s, a); }
    forall n: string {:trigger EntryOk(x, n)} ensures EntryOk(x, n) {
      if n != name { assert EntryOk(s, n); SameThreads(s, x, n); }
    }
    forall u: nat {:trigger PcOk(x, PcOf(x, u))} | u != t ensures PcOk(x, PcOf(x, u)) {
      Parts(s, t, u);
      ChangedEntryPc(s, x, t, name, u);
    }
  }

  lemma ChangedEntryPc(s: State, x: State, t: nat, name: string, u: nat)
    requires Entered(s, x, t, name) && u != t && PcOk(s, PcOf(s, u)) && Apart(s, t, u)
    ensures PcOk(x, PcOf(x, u))
  {
    hide EntryOk, IsCurrent;
    var pc := PcOf(s, u);
    assert PcOf(x, u) == pc;
    SameCurrent(s, x);
    if pc.Unpinned? || pc.Deleted? {
      assert PublishHeld(pc) == Charts.Some(pc.rev.kind);
      forall n | n in x.table && x.table[n].initialized && !x.table[n].durable && !x.table[n].terminal
        ensures x.table[n].revision != pc.rev
      {
        assert n != name ==> n in s.table && s.table[n] == x.table[n];
      }
    }
  }

  lemma BeginActor(s: State, t: nat, name: string, kind: string, rev: Revision)
    requires Inv(s) && name !in s.actors && s.storage && rev in s.definitions && rev.kind == kind
    ensures Sound(s, s.(actors := s.actors[name := Pin(kind, rev, false)]), t)
  {
    var x := s.(actors := s.actors[name := Pin(kind, rev, false)]);
    ApartStays(s, x);
    forall k: string {:trigger RegistryOk(x, k)} ensures RegistryOk(x, k) { assert RegistryOk(s, k); }
    forall a: string {:trigger ActorOk(x, a)} ensures ActorOk(x, a) { assert ActorOk(s, a); }
    forall n: string {:trigger EntryOk(x, n)} ensures EntryOk(x, n) { assert EntryOk(s, n); SameThreads(s, x, n); }
    forall u: nat {:trigger PcOk(x, PcOf(x, u))} | u != t ensures PcOk(x, PcOf(x, u)) {
      Parts(s, t, u);
      assert PcOf(x, u) == PcOf(s, u);
    }
  }

  lemma EndActor(s: State, t: nat, name: string)
    requires Inv(s) && PcOf(s, t) == Idle && name in s.table && s.table[name].initialized && s.table[name].durable
      && name in s.actors
    ensures Inv(At(s.(actors := s.actors[name := s.actors[name].(ended := true)]), t, Completing(name)))
  {
    var x := s.(actors := s.actors[name := s.actors[name].(ended := true)]);
    var s' := At(x, t, Completing(name));
    assert PcOf(s', t) == Completing(name);
    forall k: string {:trigger RegistryOk(s', k)} ensures RegistryOk(s', k) { assert RegistryOk(s, k); }
    forall a: string {:trigger ActorOk(s', a)} ensures ActorOk(s', a) { assert ActorOk(s, a); }
    forall n: string {:trigger EntryOk(s', n)} ensures EntryOk(s', n) {
      assert EntryOk(s, n);
      if n != name && SomeoneCompletes(s, n) {
        var u: nat :| PcOf(s, u) == Completing(n);
        assert PcOf(s', u) == Completing(n);
      }
      assert SomeoneCompletes(s', name);
    }
    forall u: nat {:trigger PcOk(s', PcOf(s', u))} ensures PcOk(s', PcOf(s', u)) {
      Parts(s, t, u);
      if u != t { assert PcOf(s', u) == PcOf(s, u); }
    }
    forall u: nat, v: nat {:trigger Apart(s', u, v)} ensures Apart(s', u, v) { assert Apart(s, u, v); }
  }

  // ---- every step ----

  lemma LabelOnly(s: State, t: nat, pc: Pc)
    requires Inv(s) && PcOk(s, pc) && MayHold(s, t, pc) && !PcOf(s, t).Completing?
    ensures Inv(At(s, t, pc))
  {
    Relabelled(s, t, pc);
  }

  lemma IdleIsOk(s: State, t: nat)
    requires Inv(s) && !PcOf(s, t).Completing?
    ensures Inv(At(s, t, Idle))
  {
    LabelOnly(s, t, Idle);
  }

  lemma PublishSteps(s: State, t: nat, fails: bool)
    requires Inv(s) && (PcOf(s, t).Registering? || PcOf(s, t).Publishing? || PcOf(s, t).Storing?)
    ensures Inv(Next(s, t, fails))
  {
    hide Inv, World, OthersOk, AllApart, Apart, Alone;
    Parts(s, t, t);
    IdleIsOk(s, t);
    var rev := PcOf(s, t).rev;
    WorldAt(s, rev.kind, "");
    AloneIf(s, t, rev.kind);
    match PcOf(s, t) {
      case Registering(_) =>
        var x := s.(registries := s.registries[rev.kind := Registry(rev, {rev})]);
        Rearrange(s, x, t, rev.kind, {});
        Relabelled(x, t, Idle);
      case Publishing(_) =>
        StoreArtifact(s, t, rev);
        Relabelled(Stored(s, rev), t, Storing(rev));
      case Storing(_) =>
        Rearrange(s, MakeCurrent(s, rev), t, rev.kind, {});
        Relabelled(MakeCurrent(s, rev), t, Idle);
    }
  }

  lemma CollectSteps(s: State, t: nat, fails: bool)
    requires Inv(s) && (PcOf(s, t).Collecting? || PcOf(s, t).Looking? || PcOf(s, t).NotCurrent?)
    ensures Inv(Next(s, t, fails))
  {
    hide Inv, World, OthersOk, AllApart, Apart, Alone;
    Parts(s, t, t);
    IdleIsOk(s, t);
    var kind, rev := PcOf(s, t).kind, PcOf(s, t).rev;
    WorldAt(s, kind, "");
    AloneIf(s, t, kind);
    match PcOf(s, t) {
      case Collecting(_, _) =>
        if !IsCurrent(s, kind, rev) {
          if rev in s.registries[kind].revisions { LabelOnly(s, t, NotCurrent(kind, rev)); }
          else { LabelOnly(s, t, Looking(kind, rev)); }
        }
      case Looking(_, _) => if rev.kind == kind { LabelOnly(s, t, NotCurrent(kind, rev)); }
      case NotCurrent(_, _) =>
        if !exists n :: n in s.table && EntryUses(s.table[n], rev) { LabelOnly(s, t, Unpinned(kind, rev)); }
    }
  }

  lemma DeleteSteps(s: State, t: nat, fails: bool)
    requires Inv(s) && (PcOf(s, t).Unpinned? || PcOf(s, t).Deleted?)
    ensures Inv(Next(s, t, fails))
  {
    hide Inv, World, OthersOk, AllApart, Apart, Alone;
    Parts(s, t, t);
    IdleIsOk(s, t);
    var kind, rev := PcOf(s, t).kind, PcOf(s, t).rev;
    WorldAt(s, kind, "");
    AloneIf(s, t, kind);
    match PcOf(s, t) {
      case Unpinned(_, _) =>
        if !s.storage { LabelOnly(s, t, Deleted(kind, rev)); }
        else if !ActorPins(s, rev) {
          DeleteArtifact(s, t, rev);
          Relabelled(s.(definitions := s.definitions - {rev}), t, Deleted(kind, rev));
        }
      case Deleted(_, _) => if !IsCurrent(s, kind, rev) { DropStep(s, t, kind, rev); }
    }
  }

  /** Dropping the compiled revision once nothing pins it. */
  lemma DropStep(s: State, t: nat, kind: string, rev: Revision)
    requires Inv(s) && PcOf(s, t) == Deleted(kind, rev) && kind in s.registries && !IsCurrent(s, kind, rev)
      && Alone(s, t, kind)
    ensures Inv(At(Drop(s, kind, rev), t, Idle))
  {
    Parts(s, t, t);
    assert RegistryOk(s, kind);
    var lost := {rev};
    forall n | n in s.table && s.table[n].initialized && !s.table[n].terminal && s.table[n].revision in lost
      ensures s.table[n].durable && Ended(s, n)
    {
      assert EntryOk(s, n) && ActorOk(s, n);
    }
    forall a | a in s.actors && s.actors[a].revision in lost ensures s.actors[a].ended { assert ActorOk(s, a); }
    Rearrange(s, Drop(s, kind, rev), t, kind, lost);
    Relabelled(Drop(s, kind, rev), t, Idle);
  }

  lemma SpawnSteps(s: State, t: nat, fails: bool)
    requires Inv(s) && (PcOf(s, t).Spawning? || PcOf(s, t).Selected?)
    ensures Inv(Next(s, t, fails))
  {
    hide Inv, World, OthersOk, AllApart, Apart, Alone;
    Parts(s, t, t);
    IdleIsOk(s, t);
    var name, kind, durable := PcOf(s, t).name, PcOf(s, t).kind, PcOf(s, t).durable;
    WorldAt(s, kind, name);
    match PcOf(s, t) {
      case Spawning(_, _, _) =>
        if !(durable && !s.storage) { LabelOnly(s, t, Selected(name, kind, durable, s.registries[kind].current)); }
      case Selected(_, _, _, rev) =>
        if name in s.table {
          if s.table[name].durable == durable { LabelOnly(s, t, Tabled(name, kind, durable, rev)); }
        } else { EnterStep(s, t, name, kind, durable, rev); }
    }
  }

  lemma LockSteps(s: State, t: nat, fails: bool)
    requires Inv(s) && (PcOf(s, t).Tabled? || PcOf(s, t).Holding?)
    ensures Inv(Next(s, t, fails))
  {
    hide Inv, World, OthersOk, AllApart, Apart, Alone;
    Parts(s, t, t);
    IdleIsOk(s, t);
    var name, kind, durable := PcOf(s, t).name, PcOf(s, t).kind, PcOf(s, t).durable;
    WorldAt(s, kind, name);
    match PcOf(s, t) {
      case Tabled(_, _, _, rev) =>
        if EntryFree(s, name) { LabelOnly(s, t, Holding(name, kind, durable, rev)); }
      case Holding(_, _, _, rev) =>
        if !durable { LabelOnly(s, t, Activating(name)); }
        else if !(s.table[name].initialized && s.table[name].kind != kind) { PrepareStep(s, t, name, kind, rev); }
    }
  }

  lemma EnterStep(s: State, t: nat, name: string, kind: string, durable: bool, rev: Revision)
    requires Inv(s) && PcOf(s, t) == Selected(name, kind, durable, rev) && name !in s.table
    ensures Inv(Enter(s, t, name, kind, durable, rev))
  {
    Parts(s, t, t);
    assert RegistryOk(s, kind);
    AloneIf(s, t, kind);
    var x := s.(table := s.table[name := Entry(kind, rev, durable, !durable, false)]);
    ChangeEntry(s, x, t, name);
    Relabelled(x, t, Tabled(name, kind, durable, rev));
  }

  lemma PrepareStep(s: State, t: nat, name: string, kind: string, rev: Revision)
    requires Inv(s) && PcOf(s, t) == Holding(name, kind, true, rev) && name in s.table
      && !(s.table[name].initialized && s.table[name].kind != kind)
    ensures Inv(At(s.(table := s.table[name := s.table[name].(kind := kind)]), t, Prepared(name, kind, rev)))
  {
    Parts(s, t, t);
    assert EntryOk(s, name);
    var x := s.(table := s.table[name := s.table[name].(kind := kind)]);
    SameThreads(s, x, name);
    ChangeEntry(s, x, t, name);
    Relabelled(x, t, Prepared(name, kind, rev));
  }

  lemma PinSteps(s: State, t: nat, fails: bool)
    requires Inv(s) && (PcOf(s, t).Prepared? || PcOf(s, t).Beginning? || PcOf(s, t).Rereading?)
    ensures Inv(Next(s, t, fails))
  {
    hide Inv, World, OthersOk, AllApart, Apart, Alone;
    Parts(s, t, t);
    IdleIsOk(s, t);
    var name, kind := PcOf(s, t).name, PcOf(s, t).kind;
    WorldAt(s, kind, name);
    match PcOf(s, t) {
      case Prepared(_, _, rev) =>
        if name in s.actors {
          if s.actors[name].kind == kind && !s.actors[name].ended {
            LabelOnly(s, t, Resolving(name, kind, s.actors[name].revision));
          }
        } else { LabelOnly(s, t, Beginning(name, kind, rev)); }
      case Beginning(_, _, rev) =>
        if name in s.actors {
          if s.actors[name] == Pin(kind, rev, false) {
            LabelOnly(s, t, Resolving(name, kind, rev));
          } else {
            LabelOnly(s, t, Rereading(name, kind));
          }
        } else if rev in s.definitions && rev.kind == kind { BeginStep(s, t, name, kind, rev); }
      case Rereading(_, _) =>
        if name in s.actors && s.actors[name].kind == kind && !s.actors[name].ended {
          LabelOnly(s, t, Resolving(name, kind, s.actors[name].revision));
        }
    }
  }

  lemma BeginStep(s: State, t: nat, name: string, kind: string, rev: Revision)
    requires Inv(s) && PcOf(s, t) == Beginning(name, kind, rev) && name !in s.actors && rev in s.definitions
      && rev.kind == kind
    ensures Inv(At(s.(actors := s.actors[name := Pin(kind, rev, false)]), t, Resolving(name, kind, rev)))
  {
    Parts(s, t, t);
    BeginActor(s, t, name, kind, rev);
    var x := s.(actors := s.actors[name := Pin(kind, rev, false)]);
    Relabelled(x, t, Resolving(name, kind, rev));
  }

  lemma ResolveSteps(s: State, t: nat, fails: bool)
    requires Inv(s) && (PcOf(s, t).Resolving? || PcOf(s, t).Upgrading? || PcOf(s, t).Fetching?)
    ensures Inv(Next(s, t, fails))
  {
    hide Inv, World, OthersOk, AllApart, Apart, Alone;
    Parts(s, t, t);
    IdleIsOk(s, t);
    var name, kind, rev := PcOf(s, t).name, PcOf(s, t).kind, PcOf(s, t).rev;
    WorldAt(s, kind, name);
    match PcOf(s, t) {
      case Resolving(_, _, _) =>
        if rev in s.registries[kind].revisions {
          LabelOnly(s, t, Resolved(name, kind, rev));
        } else {
          LabelOnly(s, t, Upgrading(name, kind, rev));
        }
      case Upgrading(_, _, _) => if PublishFree(s, kind) { LabelOnly(s, t, Fetching(name, kind, rev)); }
      case Fetching(_, _, _) =>
        if rev in s.registries[kind].revisions { LabelOnly(s, t, Resolved(name, kind, rev)); }
        else if rev.kind == kind { LabelOnly(s, t, Fetched(name, kind, rev)); }
    }
  }

  lemma InstallSteps(s: State, t: nat, fails: bool)
    requires Inv(s) && (PcOf(s, t).Fetched? || PcOf(s, t).Resolved?)
    ensures Inv(Next(s, t, fails))
  {
    hide Inv, World, OthersOk, AllApart, Apart, Alone;
    Parts(s, t, t);
    IdleIsOk(s, t);
    var name, kind, rev := PcOf(s, t).name, PcOf(s, t).kind, PcOf(s, t).rev;
    WorldAt(s, kind, name);
    match PcOf(s, t) {
      case Fetched(_, _, _) =>
        Rearrange(s, Install(s, rev), t, kind, {});
        Relabelled(Install(s, rev), t, Resolved(name, kind, rev));
      case Resolved(_, _, _) =>
        if s.table[name].initialized { LabelOnly(s, t, Activating(name)); } else { PinStep(s, t, name, kind, rev); }
    }
  }

  lemma PinStep(s: State, t: nat, name: string, kind: string, rev: Revision)
    requires Inv(s) && PcOf(s, t) == Resolved(name, kind, rev) && name in s.table && !s.table[name].initialized
    ensures Inv(At(s.(table := s.table[name := s.table[name].(revision := rev, initialized := true)]), t,
      Activating(name)))
  {
    Parts(s, t, t);
    assert EntryOk(s, name);
    var x := s.(table := s.table[name := s.table[name].(revision := rev, initialized := true)]);
    ChangeEntry(s, x, t, name);
    Relabelled(x, t, Activating(name));
  }

  lemma EndStep(s: State, t: nat, name: string)
    requires Inv(s) && name in s.table && s.table[name].initialized
      && (PcOf(s, t) == Completing(name) || PcOf(s, t) == Idle)
    ensures Inv(At(s.(table := s.table[name := s.table[name].(terminal := true)]), t, Idle))
  {
    assert EntryOk(s, name);
    var x := s.(table := s.table[name := s.table[name].(terminal := true)]);
    ChangeEntry(s, x, t, name);
    Relabelled(x, t, Idle);
  }

  lemma NextKeepsInv(s: State, t: nat, fails: bool)
    requires Inv(s)
    ensures Inv(Next(s, t, fails))
  {
    Parts(s, t, t);
    hide Inv;
    match PcOf(s, t) {
      case Idle =>
      case Registering(_) => PublishSteps(s, t, fails);
      case Publishing(_) => PublishSteps(s, t, fails);
      case Storing(_) => PublishSteps(s, t, fails);
      case Collecting(_, _) => CollectSteps(s, t, fails);
      case Looking(_, _) => CollectSteps(s, t, fails);
      case NotCurrent(_, _) => CollectSteps(s, t, fails);
      case Unpinned(_, _) => DeleteSteps(s, t, fails);
      case Deleted(_, _) => DeleteSteps(s, t, fails);
      case Spawning(_, _, _) => SpawnSteps(s, t, fails);
      case Selected(_, _, _, _) => SpawnSteps(s, t, fails);
      case Tabled(_, _, _, _) => LockSteps(s, t, fails);
      case Holding(_, _, _, _) => LockSteps(s, t, fails);
      case Prepared(_, _, _) => PinSteps(s, t, fails);
      case Beginning(_, _, _) => PinSteps(s, t, fails);
      case Rereading(_, _) => PinSteps(s, t, fails);
      case Activating(_) => IdleIsOk(s, t);
      case Completing(name) => EndStep(s, t, name);
      case Fetched(_, _, _) => InstallSteps(s, t, fails);
      case Resolved(_, _, _) => InstallSteps(s, t, fails);
      case _ => ResolveSteps(s, t, fails);
    }
  }

  lemma StepKeepsInv(s: State, t: nat, call: Call)
    requires Inv(s)
    ensures Inv(Step(s, t, call))
  {
    hide Inv, Next;
    match call {
      case Continue(fails) => NextKeepsInv(s, t, fails);
      case _ => if PcOf(s, t) == Idle { CallKeepsInv(s, t, call); }
    }
  }

  lemma CallKeepsInv(s: State, t: nat, call: Call)
    requires Inv(s) && PcOf(s, t) == Idle && !call.Continue?
    ensures Inv(Step(s, t, call))
  {
    hide Inv, World, OthersOk, AllApart, Apart, Alone, Next;
    match call {
      case Register(rev) =>
        if rev.kind !in s.registries && PublishFree(s, rev.kind) {
          AloneIf(s, t, rev.kind);
          StoreArtifact(s, t, rev);
          Relabelled(Stored(s, rev), t, Registering(rev));
        }
      case Publish(rev) => if rev.kind in s.registries && PublishFree(s, rev.kind) { LabelOnly(s, t, Publishing(rev)); }
      case Collect(kind, rev) => if kind in s.registries && PublishFree(s, kind) {
        LabelOnly(s, t, Collecting(kind, rev));
      }
      case Spawn(name, kind, durable) => if kind in s.registries && PublishFree(s, kind) {
        LabelOnly(s, t, Spawning(name, kind, durable));
      }
      case Complete(name, fails) =>
        if name in s.table && s.table[name].initialized && !s.table[name].terminal {
          if !s.table[name].durable { EndStep(s, t, name); } else if name in s.actors { EndActor(s, t, name); }
        }
    }
  }

  // ---- every run ----

  /** A System that has only just been created, over storage in which every active actor's definition
      exists (Store.StoreInvariant). */
  ghost predicate Fresh(s: State) {
    s.registries == map[] && s.table == map[] && s.threads == map[] && forall a: string {:trigger ActorOk(s, a)} ::
      ActorOk(s, a)
  }

  lemma FreshHasInv(s: State)
    requires Fresh(s)
    ensures Inv(s)
  {
    forall k: string {:trigger RegistryOk(s, k)} ensures RegistryOk(s, k) {}
  }

  lemma {:induction false} RunKeepsInv(s: State, schedule: seq<(nat, Call)>)
    requires Inv(s)
    ensures Inv(Run(s, schedule))
    decreases |schedule|
  {
    hide Inv, Step;
    if schedule != [] {
      StepKeepsInv(s, schedule[0].0, schedule[0].1);
      RunKeepsInv(Step(s, schedule[0].0, schedule[0].1), schedule[1..]);
    }
  }

  predicate Live(s: State, n: string) { n in s.table && s.table[n].initialized && !s.table[n].terminal }

  /** The store already records the actor as ended, and its completion has yet to mark the entry. */
  ghost predicate InCompletion(s: State, n: string) {
    n in s.table && s.table[n].durable && Ended(s, n) && SomeoneCompletes(s, n)
  }

  /** The compiled chart of n's revision is at hand, and so is its artifact if n is durable. */
  ghost predicate Retained(s: State, n: string)
    requires n in s.table
  {
    Compiled(s, s.table[n].revision) && (s.table[n].durable ==> s.table[n].revision in s.definitions)
  }

  /** Under every interleaving of Register, Publish, Spawn, CollectDefinition and completions, the
      revision of an initialized actor that has not ended is retained, and the current revision of
      every kind is retained and stored. */
  lemma PinSafety(s: State, schedule: seq<(nat, Call)>)
    requires Fresh(s)
    ensures var x := Run(s, schedule);
      && (forall n :: Live(x, n) ==> Retained(x, n) || InCompletion(x, n))
      && (forall k :: k in x.registries ==>
            x.registries[k].current in x.registries[k].revisions
              && (x.storage ==> x.registries[k].current in x.definitions))
  {
    FreshHasInv(s);
    RunKeepsInv(s, schedule);
    var x := Run(s, schedule);
    hide Inv, Run;
    forall n | Live(x, n) ensures Retained(x, n) || InCompletion(x, n) { WorldAt(x, "", n); }
    forall k | k in x.registries
      ensures x.registries[k].current in x.registries[k].revisions
        && (x.storage ==> x.registries[k].current in x.definitions)
    {
      WorldAt(x, k, "");
    }
  }

  /** So an activation finds the revision of an actor whose completion has not begun. */
  lemma ActivationFindsItsRevision(s: State, schedule: seq<(nat, Call)>, t: nat, name: string)
    requires Fresh(s) && PcOf(Run(s, schedule), t) == Activating(name)
    ensures var x := Run(s, schedule);
      name in x.table && x.table[name].initialized
        && (!x.table[name].terminal && !InCompletion(x, name) ==> Retained(x, name))
  {
    PinSafety(s, schedule);
    FreshHasInv(s);
    RunKeepsInv(s, schedule);
    Parts(Run(s, schedule), t, t);
  }

  /** A pinned actor stays pinned to the same revision of the same kind, in the table and in storage,
      whatever is published, and never revives. */
  ghost predicate PinsStand(s: State, x: State) {
    && (forall n :: n in s.table && s.table[n].initialized ==>
          n in x.table && x.table[n] == s.table[n].(terminal := x.table[n].terminal)
            && (s.table[n].terminal ==> x.table[n].terminal))
    && (forall a :: a in s.actors ==>
      a in x.actors && x.actors[a] == s.actors[a].(ended := x.actors[a].ended)
      && (s.actors[a].ended ==> x.actors[a].ended))
  }

  /** At most one entry and one record change. */
  ghost predicate OneStands(s: State, x: State, n: string) {
    && (x.table == s.table || (n in x.table && x.table == s.table[n := x.table[n]]))
    && (x.actors == s.actors || (n in x.actors && x.actors == s.actors[n := x.actors[n]]))
    && (n in s.table && s.table[n].initialized ==>
          x.table[n] == s.table[n].(terminal := x.table[n].terminal) && (s.table[n].terminal ==> x.table[n].terminal))
    && (n in s.actors ==>
      x.actors[n] == s.actors[n].(ended := x.actors[n].ended)
      && (s.actors[n].ended ==> x.actors[n].ended))
  }

  predicate Writes(pc: Pc) { pc.Selected? || pc.Holding? || pc.Beginning? || pc.Resolved? || pc.Completing? }

  lemma OthersWriteNoPins(s: State, t: nat, fails: bool)
    requires !Writes(PcOf(s, t))
    ensures Next(s, t, fails).table == s.table && Next(s, t, fails).actors == s.actors
  {
    if PublishHeld(PcOf(s, t)).Some? { PublishersWriteNoPins(s, t, fails); hide Next; }
    else { hide PublishFree, EntryFree; }
  }

  lemma PublishersWriteNoPins(s: State, t: nat, fails: bool)
    requires !Writes(PcOf(s, t)) && PublishHeld(PcOf(s, t)).Some?
    ensures Next(s, t, fails).table == s.table && Next(s, t, fails).actors == s.actors
  {
    hide ActorPins, IsCurrent, EntryUses;
  }

  lemma WritersKeepPins(s: State, t: nat, fails: bool)
    requires Writes(PcOf(s, t))
    ensures OneStands(s, Next(s, t, fails), PcOf(s, t).name)
  {
    match PcOf(s, t) {
      case Selected(name, kind, durable, rev) => EnterKeepsPins(s, t, name, kind, durable, rev);
      case Resolved(name, kind, rev) => ResolvedKeepsPins(s, t, fails);
      case Beginning(name, kind, rev) => BeginningKeepsPins(s, t, fails);
      case _ =>
    }
  }

  lemma EnterKeepsPins(s: State, t: nat, name: string, kind: string, durable: bool, rev: Revision)
    ensures OneStands(s, Enter(s, t, name, kind, durable, rev), name)
  {}

  lemma ResolvedKeepsPins(s: State, t: nat, fails: bool)
    requires PcOf(s, t).Resolved?
    ensures OneStands(s, Next(s, t, fails), PcOf(s, t).name)
  {}

  lemma BeginningKeepsPins(s: State, t: nat, fails: bool)
    requires PcOf(s, t).Beginning?
    ensures OneStands(s, Next(s, t, fails), PcOf(s, t).name)
  {}

  lemma StepKeepsPins(s: State, t: nat, call: Call)
    ensures PinsStand(s, Step(s, t, call))
  {
    hide Next, PublishFree;
    if call.Continue? {
      var pc := PcOf(s, t);
      if Writes(pc) { WritersKeepPins(s, t, call.fails); } else { OthersWriteNoPins(s, t, call.fails); }
    }
  }

  lemma {:induction false} PinsAreForever(s: State, schedule: seq<(nat, Call)>)
    ensures PinsStand(s, Run(s, schedule))
    decreases |schedule|
  {
    if schedule != [] {
      var x := Step(s, schedule[0].0, schedule[0].1);
      StepKeepsPins(s, schedule[0].0, schedule[0].1);
      PinsAreForever(x, schedule[1..]);
      hide Step, Run;
    }
  }

  lemma OnlyDeletedDrops(s: State, t: nat, fails: bool, rev: Revision)
    requires Inv(s) && Compiled(s, rev)
    ensures !Compiled(Next(s, t, fails), rev) <==> PcOf(s, t) == Deleted(rev.kind, rev)
  {
    hide PublishFree, EntryFree, ActorPins, EntryUses, World, AllApart;
    Parts(s, t, t);
    hide Inv;
  }

  /** Exactly one step takes a compiled revision from an actor that stays live: the last region of a
      CollectDefinition for that revision, and only once that actor's completion is under way. */
  lemma OnlyALateCollectionDrops(s: State, schedule: seq<(nat, Call)>, t: nat, call: Call, n: string)
    requires Fresh(s)
    requires var x := Run(s, schedule); Live(x, n) && Compiled(x, x.table[n].revision)
    ensures var x := Run(s, schedule);
      var y := Step(x, t, call);
      var rev := x.table[n].revision;
      && (Live(y, n) && !Compiled(y, rev) <==> call.Continue? && PcOf(x, t) == Deleted(rev.kind, rev))
      && (call.Continue? && PcOf(x, t) == Deleted(rev.kind, rev) ==> InCompletion(x, n))
  {
    FreshHasInv(s);
    RunKeepsInv(s, schedule);
    DropsIff(Run(s, schedule), t, call, n);
  }

  lemma DropsIff(x: State, t: nat, call: Call, n: string)
    requires Inv(x) && Live(x, n) && Compiled(x, x.table[n].revision)
    ensures var y := Step(x, t, call);
      var rev := x.table[n].revision;
      && (Live(y, n) && !Compiled(y, rev) <==> call.Continue? && PcOf(x, t) == Deleted(rev.kind, rev))
      && (call.Continue? && PcOf(x, t) == Deleted(rev.kind, rev) ==> InCompletion(x, n))
  {
    var rev := x.table[n].revision;
    if call.Continue? {
      OnlyDeletedDrops(x, t, call.fails, rev);
      Parts(x, t, t);
      WorldAt(x, rev.kind, n);
      if PcOf(x, t) == Deleted(rev.kind, rev) { WorldAt(x, rev.kind, n); }
    }
    hide Inv;
  }

  // ---- the window ----

  lemma {:induction false} RunJoins(s: State, a: seq<(nat, Call)>, b: seq<(nat, Call)>)
    ensures Run(s, a + b) == Run(Run(s, a), b)
    decreases |a|
  {
    hide Step;
    if a == [] { assert a + b == b; }
    else {
      assert (a + b)[1..] == a[1..] + b;
      RunJoins(Step(s, a[0].0, a[0].1), a[1..], b);
    }
  }

  lemma OneStep(s: State, t: nat, call: Call)
    ensures Run(s, [(t, call)]) == Step(s, t, call)
  {
    hide Step;
    assert [(t, call)][1..] == [];
  }

  lemma TwoSteps(s: State, t: nat, call: Call, t': nat, call': Call)
    ensures Run(s, [(t, call), (t', call')]) == Step(Step(s, t, call), t', call')
  {
    assert [(t, call), (t', call')] == [(t, call)] + [(t', call')];
    RunJoins(s, [(t, call)], [(t', call')]);
    OneStep(s, t, call);
    OneStep(Step(s, t, call), t', call');
    hide Step, Run;
  }

  function Old(): Revision { Revision("k", "1") }

  function New(): Revision { Revision("k", "2") }

  function Before(): State { State(true, map[], {}, map[], map[], map[]) }

  function Go(t: nat): (nat, Call) { (t, Continue(false)) }

  function Registered(): State {
    State(true, map["k" := Registry(Old(), {Old()})], {Old()}, map[], map[], map[1 := Idle])
  }

  /** Actor a has an entry, not pinned yet, and caller 0 has yet to take its lock. */
  function Waiting(current: Revision, pc: Pc, pc': Pc): State {
    State(true, map["k" := Registry(current, {Old(), current})], {Old(), current}, map[],
      map["a" := Entry("k", Old(), true, false, false)], map[0 := pc, 1 := pc'])
  }

  function Began(pc: Pc): State {
    Waiting(New(), pc, Unpinned("k", Old())).(actors := map["a" := Pin("k", Old(), false)])
  }

  function Pinned(): State { Began(Idle).(table := map["a" := Entry("k", Old(), true, true, false)]) }

  function Removed(): State {
    Pinned().(definitions := {New()}, actors := map["a" := Pin("k", Old(), true)], threads :=
      map[0 := Idle, 1 := Deleted("k", Old()), 2 := Completing("a")])
  }

  lemma RegisterRuns()
    ensures Run(Before(), [(1, Register(Old())), Go(1)]) == Registered()
  {
    TwoSteps(Before(), 1, Register(Old()), 1, Continue(false));
    hide Run;
  }

  lemma SelectRuns()
    ensures Run(Registered(), [(0, Spawn("a", "k", true)), Go(0)])
      == Registered().(threads := map[0 := Selected("a", "k", true, Old()), 1 := Idle])
  {
    TwoSteps(Registered(), 0, Spawn("a", "k", true), 0, Continue(false));
    hide Run;
  }

  lemma TableRuns()
    ensures Run(Registered().(threads := map[0 := Selected("a", "k", true, Old()), 1 := Idle]),
      [Go(0), (1, Publish(New()))])
      == Waiting(Old(), Tabled("a", "k", true, Old()), Publishing(New()))
  {
    TwoSteps(Registered().(threads := map[0 := Selected("a", "k", true, Old()), 1 := Idle]), 0, Continue(false), 1,
      Publish(New()));
    hide Run;
    assert {Old(), Old()} == {Old()};
  }

  lemma PublishRuns()
    ensures Run(Waiting(Old(), Tabled("a", "k", true, Old()), Publishing(New())), [Go(1), Go(1)])
      == Waiting(New(), Tabled("a", "k", true, Old()), Idle)
  {
    TwoSteps(Waiting(Old(), Tabled("a", "k", true, Old()), Publishing(New())), 1, Continue(false), 1, Continue(false));
    hide Run;
    assert {Old(), Old()} + {New()} == {Old(), New()};
  }

  lemma CollectRuns()
    ensures Run(Waiting(New(), Tabled("a", "k", true, Old()), Idle), [(1, Collect("k", Old())), Go(1)])
      == Waiting(New(), Tabled("a", "k", true, Old()), NotCurrent("k", Old()))
  {
    TwoSteps(Waiting(New(), Tabled("a", "k", true, Old()), Idle), 1, Collect("k", Old()), 1, Continue(false));
    hide Run;
  }

  lemma SearchRuns()
    ensures Run(Waiting(New(), Tabled("a", "k", true, Old()), NotCurrent("k", Old())), [Go(1)])
      == Waiting(New(), Tabled("a", "k", true, Old()), Unpinned("k", Old()))
  {
    OneStep(Waiting(New(), Tabled("a", "k", true, Old()), NotCurrent("k", Old())), 1, Continue(false));
    hide Run;
  }

  lemma LockRuns()
    ensures Run(Waiting(New(), Tabled("a", "k", true, Old()), Unpinned("k", Old())), [Go(0)])
      == Waiting(New(), Holding("a", "k", true, Old()), Unpinned("k", Old()))
  {
    OneStep(Waiting(New(), Tabled("a", "k", true, Old()), Unpinned("k", Old())), 0, Continue(false));
    hide Run;
  }

  lemma PrepareRuns()
    ensures Run(Waiting(New(), Holding("a", "k", true, Old()), Unpinned("k", Old())), [Go(0), Go(0)])
      == Waiting(New(), Beginning("a", "k", Old()), Unpinned("k", Old()))
  {
    TwoSteps(Waiting(New(), Holding("a", "k", true, Old()), Unpinned("k", Old())), 0, Continue(false), 0,
      Continue(false));
    hide Run;
  }

  lemma BeginRuns()
    ensures Run(Waiting(New(), Beginning("a", "k", Old()), Unpinned("k", Old())), [Go(0), Go(0)]) ==
      Began(Resolved("a", "k", Old()))
  {
    TwoSteps(Waiting(New(), Beginning("a", "k", Old()), Unpinned("k", Old())), 0, Continue(false), 0, Continue(false));
    hide Run;
  }

  lemma PinRuns()
    ensures Run(Began(Resolved("a", "k", Old())), [Go(0), Go(0)]) == Pinned()
  {
    TwoSteps(Began(Resolved("a", "k", Old())), 0, Continue(false), 0, Continue(false));
    hide Run;
  }

  lemma DeleteRuns()
    ensures Run(Pinned(), [(2, Complete("a", false)), Go(1)]) == Removed()
  {
    TwoSteps(Pinned(), 2, Complete("a", false), 1, Continue(false));
    hide Run, EntryFree, PublishFree, EntryUses;
    assert {Old(), New()} - {Old()} == {New()};
  }

  lemma DropRuns()
    ensures var x := Run(Removed(), [Go(1)]);
      Live(x, "a") && InCompletion(x, "a") && !Compiled(x, x.table["a"].revision)
  {
    OneStep(Removed(), 1, Continue(false));
    var x := Step(Removed(), 1, Continue(false));
    assert PcOf(x, 2) == Completing("a");
    hide Run;
  }

  /** A collection that searched the table before the entry was pinned deletes the artifact once the
      store records the end, and drops the compiled chart while the entry still counts as live. */
  lemma LateDrop() returns (schedule: seq<(nat, Call)>)
    ensures Fresh(Before())
    ensures var x := Run(Before(), schedule);
      Live(x, "a") && InCompletion(x, "a") && !Compiled(x, x.table["a"].revision)
  {
    hide Run, Step, Live, InCompletion, Compiled;
    schedule := [(1, Register(Old())), Go(1)];
    RegisterRuns();
    SelectRuns();
    schedule := Joined(schedule, [(0, Spawn("a", "k", true)), Go(0)]);
    TableRuns();
    schedule := Joined(schedule, [Go(0), (1, Publish(New()))]);
    PublishRuns();
    schedule := Joined(schedule, [Go(1), Go(1)]);
    CollectRuns();
    schedule := Joined(schedule, [(1, Collect("k", Old())), Go(1)]);
    SearchRuns();
    schedule := Joined(schedule, [Go(1)]);
    LockRuns();
    schedule := Joined(schedule, [Go(0)]);
    PrepareRuns();
    schedule := Joined(schedule, [Go(0), Go(0)]);
    BeginRuns();
    schedule := Joined(schedule, [Go(0), Go(0)]);
    PinRuns();
    schedule := Joined(schedule, [Go(0), Go(0)]);
    DeleteRuns();
    schedule := Joined(schedule, [(2, Complete("a", false)), Go(1)]);
    DropRuns();
    schedule := Joined(schedule, [Go(1)]);
  }

  lemma Joined(a: seq<(nat, Call)>, b: seq<(nat, Call)>) returns (c: seq<(nat, Call)>)
    ensures Run(Before(), c) == Run(Run(Before(), a), b)
  {
    c := a + b;
    RunJoins(Before(), a, b);
  }
}
