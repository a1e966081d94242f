/**
 The durable store (storagetest/memory.go:30-406, storage.go:157-194).

 Each operation runs under one lock, so a run is a sequence of whole operations.  The functions say
 what an operation does to the stored records; the class is the code, with its validation of every
 record it reads, and is proved to do just that.  The invariant `Good` holds after every sequence of
 operations in which no client appends a session-start entry by hand.
 */
module Store {
  import Charts
  import Ordering

  // ---- records ----

  /** An artifact's bytes are one opaque token. */
  datatype Artifact = Artifact(revision: string, chart: string, content: string)

  datatype Lifecycle = Active | Terminal

  /** Times are instants; 0 is Go's zero time. */
  datatype Metadata = Metadata(
    actorId: string, chart: string, revision: string, session: string, durable: bool,
    lifecycle: Lifecycle, startedAt: int, terminalAt: int)

  datatype EntryKind = SessionStarted | ExternalEvent | TimerFired

  /** The empty event is the zero Event. */
  datatype LogEntry = LogEntry(
    session: string, seqNo: nat, kind: EntryKind, timestamp: int, event: string, sendId: string, target: string,
      typ: string)

  datatype Db = Db(
    definitions: map<string, Artifact>, actors: map<string, Metadata>, logs: map<string, seq<LogEntry>>,
    ingress: map<string, set<string>>)

  const EMPTY := Db(map[], map[], map[], map[])

  datatype Error =
    | InvalidMetadata | InvalidArtifact | DefinitionCollision | DefinitionNotFound | ActorCollision | ActorTerminal

  datatype Reply =
    | Stored | Unchanged | Deleted | Referenced | NotFound
    | Started(actor: Metadata) | AlreadyActive(actor: Metadata) | MarkedTerminal(actor: Metadata)
      | AlreadyTerminal(actor: Metadata)
    | Found(actor: Metadata) | Appended(number: nat) | Duplicate | Failed(error: Error)

  /** Code outside the model: which strings are identifiers, and which artifacts are internally sound. */
  datatype Rules = Rules(identifier: string -> bool, sound: Artifact -> bool)

  /** ActorMetadata.Validate (storage.go:157-194). */
  predicate ValidMetadata(rules: Rules, m: Metadata) {
    && rules.identifier(m.actorId) && rules.identifier(m.chart)
    && m.revision != "" && m.session != "" && m.durable && m.startedAt != 0
    && (m.lifecycle == Active ==> m.terminalAt == 0)
    && (m.lifecycle == Terminal ==> m.terminalAt != 0 && m.startedAt <= m.terminalAt)
  }

  function LogOf(db: Db, session: string): seq<LogEntry> { if session in db.logs then db.logs[session] else [] }

  function Deliveries(db: Db, session: string): set<string> {
    if session in db.ingress then db.ingress[session] else {}
  }

  function StartEntry(m: Metadata): LogEntry { LogEntry(m.session, 1, SessionStarted, m.startedAt, "", "", "", "") }

  // ---- the invariant ----

  ghost predicate Gapless(session: string, log: seq<LogEntry>) {
    forall i :: 0 <= i < |log| ==>
      log[i].seqNo == i + 1 && log[i].session == session
      && (0 < i ==> log[i].kind != SessionStarted)
  }

  /** The actor's record is valid, its log begins with its one start entry, and its definition exists
      while it is active. */
  ghost predicate ActorGood(rules: Rules, db: Db, a: string, m: Metadata) {
    && m.actorId == a && ValidMetadata(rules, m)
    && LogOf(db, m.session) != [] && LogOf(db, m.session)[0] == StartEntry(m)
    && (m.lifecycle == Active ==> m.revision in db.definitions && db.definitions[m.revision].chart == m.chart)
  }

  ghost predicate Good(rules: Rules, db: Db) {
    && (forall r :: r in db.definitions ==> db.definitions[r].revision == r && rules.sound(db.definitions[r]))
    && (forall s {:trigger Gapless(s, db.logs[s])} :: s in db.logs ==> Gapless(s, db.logs[s]))
    && (forall a {:trigger ActorGood(rules, db, a, db.actors[a])} :: a in db.actors ==>
      ActorGood(rules, db, a, db.actors[a]))
    && (forall a, b :: a in db.actors && b in db.actors && db.actors[a].session == db.actors[b].session ==> a == b)
  }

  // ---- the operations as functions ----

  function Put(rules: Rules, db: Db, x: Artifact): (Db, Reply) {
    if x.revision in db.definitions then
      if db.definitions[x.revision] != x then (db, Failed(DefinitionCollision))
      else (db, Unchanged)
    else if !rules.sound(x) then (db, Failed(InvalidArtifact))
    else (db.(definitions := db.definitions[x.revision := x]), Stored)
  }

  predicate Pinned(db: Db, revision: string) {
    exists a :: a in db.actors && db.actors[a].revision == revision && db.actors[a].lifecycle == Active
  }

  function Delete(db: Db, revision: string): (Db, Reply) {
    if revision !in db.definitions then (db, NotFound)
    else if Pinned(db, revision) then (db, Referenced)
    else (db.(definitions := db.definitions - {revision}), Deleted)
  }

  predicate SameIdentity(m: Metadata, n: Metadata) {
    m.chart == n.chart && m.revision == n.revision && m.session == n.session && m.durable == n.durable
  }

  function Begin(rules: Rules, db: Db, m: Metadata): (Db, Reply) {
    if !ValidMetadata(rules, m) || m.lifecycle != Active then (db, Failed(InvalidMetadata))
    else if m.actorId in db.actors then
      var stored := db.actors[m.actorId];
      if stored.lifecycle == Terminal then (db, Failed(ActorTerminal))
      else if !SameIdentity(stored, m) then (db, Failed(ActorCollision))
      else (db, AlreadyActive(stored))
    else if m.revision !in db.definitions then (db, Failed(DefinitionNotFound))
    else if db.definitions[m.revision].chart != m.chart || LogOf(db, m.session) != [] then (db, Failed(ActorCollision))
    else (db.(actors := db.actors[m.actorId := m], logs := db.logs[m.session := [StartEntry(m)]]), Started(m))
  }

  function GetActor(db: Db, a: string): Reply { if a in db.actors then Found(db.actors[a]) else NotFound }

  function MarkTerminal(rules: Rules, db: Db, a: string, at: int): (Db, Reply) {
    if !rules.identifier(a) || at == 0 then (db, Failed(InvalidMetadata))
    else if a !in db.actors then (db, NotFound)
    else
      var m := db.actors[a];
      if m.lifecycle == Terminal then (db, AlreadyTerminal(m))
      else if at < m.startedAt then (db, Failed(InvalidMetadata))
      else
        var ended := m.(lifecycle := Terminal, terminalAt := at);
        (db.(actors := db.actors[a := ended]), MarkedTerminal(ended))
  }

  function AppendEntry(db: Db, e: LogEntry): Db {
    var log := LogOf(db, e.session);
    db.(logs := db.logs[e.session := log + [e.(seqNo := |log| + 1)]])
  }

  function Appending(db: Db, e: LogEntry): (Db, Reply) { (AppendEntry(db, e), Appended(|LogOf(db, e.session)| + 1)) }

  predicate SessionEnded(db: Db, session: string) {
    exists a :: a in db.actors && db.actors[a].session == session && db.actors[a].lifecycle == Terminal
  }

  function Ingress(db: Db, e: LogEntry, delivery: string): (Db, Reply) {
    if SessionEnded(db, e.session) then (db, Failed(ActorTerminal))
    else if delivery in Deliveries(db, e.session) then (db, Duplicate)
    else
      var added := AppendEntry(db, e);
      (added.(ingress := added.ingress[e.session := Deliveries(db, e.session) + {delivery}]),
        Appended(|LogOf(db, e.session)| + 1))
  }

  // ---- all sequences of operations ----

  datatype Op =
    | OpPut(artifact: Artifact)
    | OpDelete(revision: string)
    | OpBegin(metadata: Metadata)
    | OpMarkTerminal(actor: string, at: int)
    | OpAppend(entry: LogEntry)
    | OpIngress(entry: LogEntry, delivery: string)

  function Step(rules: Rules, db: Db, op: Op): (Db, Reply) {
    match op
    case OpPut(x) => Put(rules, db, x)
    case OpDelete(r) => Delete(db, r)
    case OpBegin(m) => Begin(rules, db, m)
    case OpMarkTerminal(a, at) => MarkTerminal(rules, db, a, at)
    case OpAppend(e) => Appending(db, e)
    case OpIngress(e, d) => Ingress(db, e, d)
  }

  function Run(rules: Rules, db: Db, ops: seq<Op>): Db
    decreases |ops|
  {
    if ops == [] then db else Run(rules, Step(rules, db, ops[0]).0, ops[1..])
  }

  /** Clients leave session-start entries to BeginActor. */
  predicate Polite(op: Op) { (op.OpAppend? || op.OpIngress?) ==> op.entry.kind != SessionStarted }

  /** The entry may come next in its session's log. */
  predicate Fits(db: Db, e: LogEntry) { e.kind != SessionStarted || LogOf(db, e.session) == [] }

  /** No session-start entry is appended to a log that has begun. */
  predicate Courteous(db: Db, op: Op) {
    match op
    case OpAppend(e) => Fits(db, e)
    case OpIngress(e, d) => Ingress(db, e, d).1.Appended? ==> Fits(db, e)
    case _ => true
  }

  /** Every operation of the run is courteous when its turn comes. */
  predicate AllCourteous(rules: Rules, db: Db, ops: seq<Op>)
    decreases |ops|
  {
    ops == [] || (Courteous(db, ops[0]) && AllCourteous(rules, Step(rules, db, ops[0]).0, ops[1..]))
  }

  lemma AppendKeepsGood(rules: Rules, db: Db, e: LogEntry)
    requires Good(rules, db) && Fits(db, e)
    ensures Good(rules, AppendEntry(db, e))
  {
    var db' := AppendEntry(db, e);
    forall s {:trigger Gapless(s, db'.logs[s])} | s in db'.logs ensures Gapless(s, db'.logs[s]) {
      if s in db.logs { assert Gapless(s, db.logs[s]); }
    }
    forall a {:trigger ActorGood(rules, db', a, db'.actors[a])} | a in db'.actors
      ensures ActorGood(rules, db', a, db'.actors[a])
    {
      assert ActorGood(rules, db, a, db.actors[a]);
    }
  }

  lemma BeginKeepsGood(rules: Rules, db: Db, m: Metadata)
    requires Good(rules, db)
    ensures Good(rules, Begin(rules, db, m).0)
  {
    var db' := Begin(rules, db, m).0;
    forall a {:trigger ActorGood(rules, db', a, db'.actors[a])} | a in db'.actors
      ensures ActorGood(rules, db', a, db'.actors[a])
    {
      if a in db.actors { assert ActorGood(rules, db, a, db.actors[a]); }
    }
    forall a, b | a in db'.actors && b in db'.actors && db'.actors[a].session == db'.actors[b].session ensures a == b {
      if a in db.actors { assert ActorGood(rules, db, a, db.actors[a]); }
      if b in db.actors { assert ActorGood(rules, db, b, db.actors[b]); }
    }
    forall s {:trigger Gapless(s, db'.logs[s])} | s in db'.logs ensures Gapless(s, db'.logs[s]) {
      if s in db.logs { assert Gapless(s, db.logs[s]); }
    }
  }

  /** An operation that only touches definitions keeps the rest of the invariant. */
  lemma DefinitionsKeepGood(rules: Rules, db: Db, db': Db)
    requires Good(rules, db) && db' == db.(definitions := db'.definitions)
    requires forall r :: r in db'.definitions ==> db'.definitions[r].revision == r && rules.sound(db'.definitions[r])
    requires forall r :: r in db.definitions && Pinned(db, r) ==>
      r in db'.definitions && db'.definitions[r] == db.definitions[r]
    ensures Good(rules, db')
  {
    forall a {:trigger ActorGood(rules, db', a, db'.actors[a])} | a in db'.actors
      ensures ActorGood(rules, db', a, db'.actors[a])
    {
      assert ActorGood(rules, db, a, db.actors[a]);
      if db.actors[a].lifecycle == Active { assert Pinned(db, db.actors[a].revision); }
    }
    forall s {:trigger Gapless(s, db'.logs[s])} | s in db'.logs ensures Gapless(s, db'.logs[s]) {
      assert Gapless(s, db.logs[s]);
    }
  }

  lemma MarkTerminalKeepsGood(rules: Rules, db: Db, actor: string, at: int)
    requires Good(rules, db)
    ensures Good(rules, MarkTerminal(rules, db, actor, at).0)
  {
    var db' := MarkTerminal(rules, db, actor, at).0;
    forall a {:trigger ActorGood(rules, db', a, db'.actors[a])} | a in db'.actors
      ensures ActorGood(rules, db', a, db'.actors[a])
    {
      assert ActorGood(rules, db, a, db.actors[a]);
    }
    forall s {:trigger Gapless(s, db'.logs[s])} | s in db'.logs ensures Gapless(s, db'.logs[s]) {
      assert Gapless(s, db.logs[s]);
    }
  }

  lemma PutKeepsGood(rules: Rules, db: Db, x: Artifact)
    requires Good(rules, db)
    ensures Good(rules, Put(rules, db, x).0)
  {
    DefinitionsKeepGood(rules, db, Put(rules, db, x).0);
  }

  lemma DeleteKeepsGood(rules: Rules, db: Db, revision: string)
    requires Good(rules, db)
    ensures Good(rules, Delete(db, revision).0)
  {
    DefinitionsKeepGood(rules, db, Delete(db, revision).0);
  }

  lemma StepKeepsGood(rules: Rules, db: Db, op: Op)
    requires Good(rules, db) && Polite(op)
    ensures Good(rules, Step(rules, db, op).0)
  {
    hide Good, Ingress, AppendEntry, LogOf;
    assert Courteous(db, op);
    CourteousKeepsGood(rules, db, op);
  }

  lemma CourteousKeepsGood(rules: Rules, db: Db, op: Op)
    requires Good(rules, db) && Courteous(db, op)
    ensures Good(rules, Step(rules, db, op).0)
  {
    hide Good, Fits, Put, Delete, Begin, MarkTerminal, Ingress, AppendEntry;
    match op
    case OpPut(x) => PutKeepsGood(rules, db, x);
    case OpDelete(r) => DeleteKeepsGood(rules, db, r);
    case OpBegin(m) => BeginKeepsGood(rules, db, m);
    case OpMarkTerminal(a, at) => MarkTerminalKeepsGood(rules, db, a, at);
    case OpAppend(e) => AppendKeepsGood(rules, db, e);
    case OpIngress(e, d) => IngressKeepsGood(rules, db, e, d);
  }

  lemma IngressKeepsGood(rules: Rules, db: Db, e: LogEntry, d: string)
    requires Good(rules, db) && Courteous(db, OpIngress(e, d))
    ensures Good(rules, Ingress(db, e, d).0)
  {
    hide Good, AppendEntry, Fits;
    if Ingress(db, e, d).1.Appended? {
      AppendKeepsGood(rules, db, e);
      IngressRecordIsApart(rules, AppendEntry(db, e), Ingress(db, e, d).0);
    }
  }

  /** The record of delivery IDs plays no part in the invariant. */
  lemma IngressRecordIsApart(rules: Rules, db: Db, db': Db)
    requires Good(rules, db) && db'.definitions == db.definitions && db'.actors == db.actors && db'.logs == db.logs
    ensures Good(rules, db')
  {
    forall a {:trigger ActorGood(rules, db', a, db'.actors[a])} | a in db'.actors
      ensures ActorGood(rules, db', a, db'.actors[a])
    {
      assert ActorGood(rules, db, a, db.actors[a]);
    }
  }

  /** The store invariant over every sequence of operations. */
  lemma {:induction false} StoreInvariant(rules: Rules, db: Db, ops: seq<Op>)
    requires Good(rules, db) && forall i :: 0 <= i < |ops| ==> Polite(ops[i])
    ensures Good(rules, Run(rules, db, ops))
    decreases |ops|
  {
    if ops != [] {
      StepKeepsGood(rules, db, ops[0]);
      StoreInvariant(rules, Step(rules, db, ops[0]).0, ops[1..]);
    }
  }

  /** An appended entry keeps a good store good exactly if it fits. */
  lemma AppendKeepsGoodExactly(rules: Rules, db: Db, e: LogEntry)
    requires Good(rules, db)
    ensures Good(rules, AppendEntry(db, e)) <==> e.kind != SessionStarted || LogOf(db, e.session) == []
  {
    if Fits(db, e) {
      AppendKeepsGood(rules, db, e);
    } else {
      StartEntrySpoils(rules, AppendEntry(db, e), e.session, |LogOf(db, e.session)|);
    }
  }

  lemma StartEntrySpoils(rules: Rules, db: Db, session: string, i: nat)
    requires 0 < i < |LogOf(db, session)| && LogOf(db, session)[i].kind == SessionStarted
    ensures !Good(rules, db)
  {
    assert !Gapless(session, db.logs[session]);
  }

  /** The invariant at the end of a run, exactly: no operation appended a session-start entry to a log
      that had begun. */
  lemma {:induction false} StoreInvariantExactly(rules: Rules, db: Db, ops: seq<Op>)
    requires Good(rules, db)
    ensures Good(rules, Run(rules, db, ops)) <==> AllCourteous(rules, db, ops)
    decreases |ops|
  {
    hide Good, Step, Courteous;
    if ops != [] {
      var next := Step(rules, db, ops[0]).0;
      if Courteous(db, ops[0]) {
        CourteousKeepsGood(rules, db, ops[0]);
        StoreInvariantExactly(rules, next, ops[1..]);
      } else {
        var session := RudeStepSpoils(rules, db, ops[0]);
        LogsOnlyGrow(rules, next, ops[1..], session);
        StartEntrySpoils(rules, Run(rules, next, ops[1..]), session, |LogOf(db, session)|);
      }
    }
  }

  lemma RudeStepSpoils(rules: Rules, db: Db, op: Op) returns (session: string)
    requires !Courteous(db, op)
    ensures var log := LogOf(Step(rules, db, op).0, session);
      0 < |LogOf(db, session)| < |log| && log[|LogOf(db, session)|].kind == SessionStarted
  {
    session := op.entry.session;
  }

  // ---- what each operation leaves to be read ----

  /** The entry is the last of its session's log, numbered by its place; nothing else was logged. */
  ghost predicate LoggedNext(db: Db, db': Db, e: LogEntry) {
    var log := LogOf(db, e.session);
    && LogOf(db', e.session) == log + [LogEntry(e.session, |log| + 1, e.kind, e.timestamp, e.event, e.sendId, e.target,
         e.typ)]
    && (forall s :: s != e.session ==> LogOf(db', s) == LogOf(db, s))
    && db'.definitions == db.definitions && db'.actors == db.actors
  }

  ghost predicate IsPinned(db: Db, revision: string) {
    exists a {:trigger a in db.actors} :: a in db.actors && db.actors[a].revision == revision
      && db.actors[a].lifecycle == Active
  }

  ghost predicate HasEnded(db: Db, session: string) {
    exists a {:trigger a in db.actors} :: a in db.actors && db.actors[a].session == session
      && db.actors[a].lifecycle == Terminal
  }

  /** When an operation takes effect, and what is read afterwards; one that does not changes nothing. */
  ghost predicate EffectIs(rules: Rules, db: Db, op: Op, db': Db, reply: Reply) {
    match op
    case OpPut(x) =>
      && (reply == Stored <==> x.revision !in db.definitions && rules.sound(x))
      && (reply == Unchanged <==> x.revision in db.definitions && db.definitions[x.revision] == x)
      && (reply == Stored || reply == Unchanged ==> x.revision in db'.definitions && db'.definitions[x.revision] == x)
      && db'.definitions - {x.revision} == db.definitions - {x.revision}
      && db' == db.(definitions := db'.definitions) && (reply != Stored ==> db' == db)
    case OpDelete(r) =>
      && (reply == Deleted <==> r in db.definitions && !IsPinned(db, r))
      && db' == db.(definitions := if reply == Deleted then db.definitions - {r} else db.definitions)
    case OpBegin(m) => !reply.Started? ==> db' == db
    case OpMarkTerminal(a, at) => !reply.MarkedTerminal? ==> db' == db
    case OpAppend(e) => reply == Appended(|LogOf(db', e.session)|) && LoggedNext(db, db', e)
      && db'.ingress == db.ingress
    case OpIngress(e, d) =>
      && (reply.Appended? <==> !HasEnded(db, e.session) && d !in Deliveries(db, e.session))
      && (reply == Duplicate <==> !HasEnded(db, e.session) && d in Deliveries(db, e.session))
      && (!reply.Appended? ==> db' == db)
      && (reply.Appended? ==> reply == Appended(|LogOf(db', e.session)|) && LoggedNext(db, db', e))
      && (reply.Appended? ==> Deliveries(db', e.session) == Deliveries(db, e.session) + {d})
      && forall s :: s != e.session ==> Deliveries(db', s) == Deliveries(db, s)
  }

  lemma StepEffect(rules: Rules, db: Db, op: Op)
    ensures EffectIs(rules, db, op, Step(rules, db, op).0, Step(rules, db, op).1)
  {
    match op
    case OpDelete(r) => assert Pinned(db, r) <==> IsPinned(db, r);
    case OpIngress(e, d) => assert SessionEnded(db, e.session) <==> HasEnded(db, e.session);
    case _ =>
  }

  // ---- what no later operation changes ----

  /** An actor's identity is fixed by its first BeginActor, and a terminal record is final. */
  ghost predicate Succeeds(m: Metadata, n: Metadata) {
    && n.actorId == m.actorId && SameIdentity(m, n) && n.startedAt == m.startedAt
    && (m.lifecycle == Terminal ==> n == m)
  }

  lemma StepKeepsRecord(rules: Rules, db: Db, op: Op, a: string)
    requires a in db.actors
    ensures a in Step(rules, db, op).0.actors && Succeeds(db.actors[a], Step(rules, db, op).0.actors[a])
  {}

  lemma {:induction false} RecordsAreStable(rules: Rules, db: Db, ops: seq<Op>, a: string)
    requires a in db.actors
    ensures a in Run(rules, db, ops).actors && Succeeds(db.actors[a], Run(rules, db, ops).actors[a])
    decreases |ops|
  {
    hide Step;
    if ops != [] {
      StepKeepsRecord(rules, db, ops[0], a);
      RecordsAreStable(rules, Step(rules, db, ops[0]).0, ops[1..], a);
    }
  }

  /** The first end counts: an active actor that is marked is recorded as ended at that time, in all else as it was,
      whatever happens later; and a later mark answers with that record. */
  lemma FirstEndCounts(rules: Rules, db: Db, a: string, at: int, ops: seq<Op>, again: int)
    requires a in db.actors && db.actors[a].lifecycle == Active && rules.identifier(a)
      && at != 0 && db.actors[a].startedAt <= at && again != 0
    ensures var ended := db.actors[a].(lifecycle := Terminal, terminalAt := at);
      var marked := Step(rules, db, OpMarkTerminal(a, at));
      && marked.1 == MarkedTerminal(ended) && marked.0 == db.(actors := db.actors[a := ended])
      && a in Run(rules, marked.0, ops).actors && Run(rules, marked.0, ops).actors[a] == ended
      && Step(rules, Run(rules, marked.0, ops), OpMarkTerminal(a, again)) ==
           (Run(rules, marked.0, ops), AlreadyTerminal(ended))
  {
    var marked := Step(rules, db, OpMarkTerminal(a, at));
    RecordsAreStable(rules, marked.0, ops, a);
  }

  /** An actor that is begun is recorded as given, and its log begins with its start, whatever happens later. */
  lemma BeginIsRecorded(rules: Rules, db: Db, m: Metadata, ops: seq<Op>)
    requires ValidMetadata(rules, m) && m.lifecycle == Active && m.actorId !in db.actors && LogOf(db, m.session) == []
      && m.revision in db.definitions && db.definitions[m.revision].chart == m.chart
    ensures var begun := Step(rules, db, OpBegin(m)); var later := Run(rules, begun.0, ops);
      && begun.1 == Started(m)
      && m.actorId in later.actors && Succeeds(m, later.actors[m.actorId])
      && [LogEntry(m.session, 1, SessionStarted, m.startedAt, "", "", "", "")] <= LogOf(later, m.session)
  {
    var begun := Step(rules, db, OpBegin(m));
    RecordsAreStable(rules, begun.0, ops, m.actorId);
    LogsOnlyGrow(rules, begun.0, ops, m.session);
  }

  lemma StepGrowsLog(rules: Rules, db: Db, op: Op, session: string)
    ensures LogOf(db, session) <= LogOf(Step(rules, db, op).0, session)
  {}

  /** Logs only grow at the end, once they exist (a new actor's log was empty before). */
  lemma {:induction false} LogsOnlyGrow(rules: Rules, db: Db, ops: seq<Op>, session: string)
    ensures LogOf(db, session) <= LogOf(Run(rules, db, ops), session)
    decreases |ops|
  {
    hide Step, LogOf;
    if ops != [] {
      StepGrowsLog(rules, db, ops[0], session);
      LogsOnlyGrow(rules, Step(rules, db, ops[0]).0, ops[1..], session);
    }
  }

  /** How often a run appends the delivery d to the session. */
  function TimesAppended(rules: Rules, db: Db, ops: seq<Op>, session: string, d: string): nat
    decreases |ops|
  {
    if ops == [] then 0
    else
      var (db', reply) := Step(rules, db, ops[0]);
      (if ops[0].OpIngress? && ops[0].entry.session == session && ops[0].delivery == d && reply.Appended? then 1 else 0)
        + TimesAppended(rules, db', ops[1..], session, d)
  }

  lemma IngressIsRecorded(rules: Rules, db: Db, op: Op, session: string, d: string)
    ensures var (db', reply) := Step(rules, db, op);
      d in Deliveries(db', session) <==>
        d in Deliveries(db, session) || (op.OpIngress? && op.entry.session == session && op.delivery == d
          && reply.Appended?)
    ensures var (db', reply) := Step(rules, db, op);
      op.OpIngress? && op.entry.session == session && op.delivery == d && reply.Appended? ==>
        d !in Deliveries(db, session)
  {}

  /** A delivery ID is appended exactly once if it becomes known during the run, and never otherwise. */
  lemma {:induction false} DeliveredAtMostOnce(rules: Rules, db: Db, ops: seq<Op>, session: string, d: string)
    ensures TimesAppended(rules, db, ops, session, d) ==
      if d in Deliveries(Run(rules, db, ops), session) && d !in Deliveries(db, session) then 1 else 0
    ensures d in Deliveries(db, session) ==> d in Deliveries(Run(rules, db, ops), session)
    decreases |ops|
  {
    if ops != [] {
      IngressIsRecorded(rules, db, ops[0], session, d);
      DeliveredAtMostOnce(rules, Step(rules, db, ops[0]).0, ops[1..], session, d);
    }
  }

  /** After an actor has ended, no delivery to its session is appended in any continuation. */
  lemma EndedTakesNoIngress(rules: Rules, db: Db, ops: seq<Op>, a: string, e: LogEntry, d: string)
    requires a in db.actors && db.actors[a].lifecycle == Terminal && e.session == db.actors[a].session
    ensures Ingress(Run(rules, db, ops), e, d) == (Run(rules, db, ops), Failed(ActorTerminal))
  {
    RecordsAreStable(rules, db, ops, a);
    assert SessionEnded(Run(rules, db, ops), e.session);
  }

  lemma StepKeepsDefinition(rules: Rules, db: Db, op: Op, r: string)
    requires r in db.definitions && Pinned(db, r)
    ensures var db' := Step(rules, db, op).0; r in db'.definitions && db'.definitions[r] == db.definitions[r]
  {}

  /** While an actor stays active, its definition cannot be deleted or replaced. */
  lemma {:induction false} PinnedDefinitionStays(rules: Rules, db: Db, ops: seq<Op>, a: string)
    requires Good(rules, db) && a in db.actors && forall i :: 0 <= i < |ops| ==> Polite(ops[i])
    requires a in Run(rules, db, ops).actors && Run(rules, db, ops).actors[a].lifecycle == Active
    ensures var r := db.actors[a].revision;
      r in db.definitions && r in Run(rules, db, ops).definitions
        && Run(rules, db, ops).definitions[r] == db.definitions[r]
    decreases |ops|
  {
    hide Step, Good;
    RecordsAreStable(rules, db, ops, a);
    ActiveIsPinned(rules, db, a);
    if ops != [] {
      var db1 := Step(rules, db, ops[0]).0;
      StepKeepsRecord(rules, db, ops[0], a);
      RecordsAreStable(rules, db1, ops[1..], a);
      StepKeepsGood(rules, db, ops[0]);
      StepKeepsDefinition(rules, db, ops[0], db.actors[a].revision);
      PinnedDefinitionStays(rules, db1, ops[1..], a);
    }
  }

  lemma ActiveIsPinned(rules: Rules, db: Db, a: string)
    requires Good(rules, db) && a in db.actors && db.actors[a].lifecycle == Active
    ensures Pinned(db, db.actors[a].revision) && db.actors[a].revision in db.definitions
  {
    assert ActorGood(rules, db, a, db.actors[a]);
  }

  // ---- queries over actor records (memory.go:212-243) ----

  datatype Query = Query(prefix: string, chart: string, revision: string, lifecycle: Charts.Option<Lifecycle>)

  /** Empty filters match everything. */
  predicate Selects(q: Query, m: Metadata) {
    && q.prefix <= m.actorId
    && (q.chart == "" || m.chart == q.chart)
    && (q.revision == "" || m.revision == q.revision)
    && (q.lifecycle == Charts.None || m.lifecycle == q.lifecycle.value)
  }

  /** The cursor is exclusive; no actor has an empty ID, so an empty cursor means from the start. */
  function Selected(actors: map<string, Metadata>, q: Query, after: string): set<string> {
    set a | a in actors && Ordering.Less(after, a) && Selects(q, actors[a])
  }

  /** The first `limit` IDs, and the cursor for the rest if there is a rest. */
  function Paged(ids: seq<string>, limit: nat): (seq<string>, Charts.Option<string>)
    requires limit > 0
  {
    if |ids| > limit then (ids[..limit], Charts.Some(ids[limit - 1])) else (ids, Charts.None)
  }

  // ---- the code ----

  lemma RecordOf(rules: Rules, db: Db, a: string)
    requires Good(rules, db) && a in db.actors
    ensures var m := db.actors[a];
      m.actorId == a && (m.lifecycle == Active ==>
        m.revision in db.definitions && rules.sound(db.definitions[m.revision]))
  {
    assert ActorGood(rules, db, a, db.actors[a]);
  }

  lemma DefinitionOf(rules: Rules, db: Db, r: string)
    requires Good(rules, db) && r in db.definitions
    ensures rules.sound(db.definitions[r])
  {}

  lemma LogOfRecord(rules: Rules, db: Db, a: string)
    requires Good(rules, db) && a in db.actors
    ensures var m := db.actors[a];
      && ValidMetadata(rules, m) && m.session in db.logs && db.logs[m.session] != []
        && db.logs[m.session][0] == StartEntry(m)
      && Gapless(m.session, db.logs[m.session])
      && (m.lifecycle == Active ==>
        m.revision in db.definitions && rules.sound(db.definitions[m.revision])
        && db.definitions[m.revision].chart == m.chart)
  {
    assert ActorGood(rules, db, a, db.actors[a]);
  }

  class MemoryStore {
    const rules: Rules
    var definitions: map<string, Artifact>
    var actors: map<string, Metadata>
    var logs: map<string, seq<LogEntry>>
    var ingress: map<string, set<string>>

    ghost function Records(): Db
      reads this
    {
      Db(definitions, actors, logs, ingress)
    }

    ghost predicate Valid()
      reads this
    {
      Good(rules, Records())
    }

    constructor (rules: Rules)
      ensures Valid() && Records() == EMPTY && this.rules == rules
    {
      this.rules := rules;
      definitions, actors, logs, ingress := map[], map[], map[], map[];
    }

    method PutDefinition(x: Artifact) returns (reply: Reply)
      requires Valid()
      modifies this
      ensures Valid() && (Records(), reply) == Put(rules, old(Records()), x)
    {
      hide Good, ActorGood, Gapless;
      StepKeepsGood(rules, Records(), OpPut(x));
      if x.revision in definitions {
        if definitions[x.revision] == x {
          DefinitionOf(rules, Records(), x.revision);
          if !rules.sound(definitions[x.revision]) { return Failed(InvalidArtifact); }
          return Unchanged;
        }
        return Failed(DefinitionCollision);
      }
      if !rules.sound(x) { return Failed(InvalidArtifact); }
      definitions := definitions[x.revision := x];
      reply := Stored;
    }

    /** validateStoredActorLocked (memory.go:299-330) finds nothing wrong with any record of a good store. */
    method ValidateStored(m: Metadata) returns (problem: Charts.Option<Error>)
      ensures Valid() && m.actorId in actors && actors[m.actorId] == m ==> problem == Charts.None
    {
      hide Good, LogOf, ActorGood;
      if Valid() && m.actorId in actors && actors[m.actorId] == m { LogOfRecord(rules, Records(), m.actorId); }
      if !ValidMetadata(rules, m) { return Charts.Some(InvalidMetadata); }
      var entries := if m.session in logs then logs[m.session] else [];
      ghost var good := Valid() && m.actorId in actors && actors[m.actorId] == m;
      if |entries| == 0 { return Charts.Some(InvalidMetadata); }
      var startCount := 0;
      for i := 0 to |entries|
        invariant good ==> startCount == if i == 0 then 0 else 1
      {
        if entries[i].kind == SessionStarted { startCount := startCount + 1; }
      }
      var start := entries[0];
      if startCount != 1 || start.seqNo != 1 || start.kind != SessionStarted || start.session != m.session
        || start.timestamp != m.startedAt || start.event != "" || start.sendId != "" || start.target != ""
          || start.typ != "" {
        return Charts.Some(InvalidMetadata);
      }
      if m.lifecycle == Active {
        if m.revision !in definitions { return Charts.Some(DefinitionNotFound); }
        if !rules.sound(definitions[m.revision]) { return Charts.Some(InvalidArtifact); }
        if definitions[m.revision].chart != m.chart { return Charts.Some(InvalidMetadata); }
      }
      problem := Charts.None;
    }

    method DeleteDefinitionIfUnreferenced(revision: string) returns (reply: Reply)
      requires Valid()
      modifies this
      ensures Valid() && (Records(), reply) == Delete(old(Records()), revision)
    {
      hide Good, ActorGood, Gapless;
      StepKeepsGood(rules, Records(), OpDelete(revision));
      if revision !in definitions { return NotFound; }
      var rest := actors.Keys;
      while rest != {}
        invariant rest <= actors.Keys && Records() == old(Records())
        invariant forall a :: a in actors && a !in rest && actors[a].revision == revision ==>
          actors[a].lifecycle != Active
        decreases rest
      {
        var a :| a in rest;
        rest := rest - {a};
        if actors[a].revision == revision {
          RecordOf(rules, Records(), a);
          var problem := ValidateStored(actors[a]);
          match problem { case Some(e) => return Failed(e); case None => }
          if actors[a].lifecycle == Active { return Referenced; }
        }
      }
      definitions := definitions - {revision};
      reply := Deleted;
    }

    method BeginActor(m: Metadata) returns (reply: Reply)
      requires Valid()
      modifies this
      ensures Valid() && (Records(), reply) == Begin(rules, old(Records()), m)
    {
      hide Good, ActorGood, Gapless;
      StepKeepsGood(rules, Records(), OpBegin(m));
      if !rules.identifier(m.actorId) { return Failed(InvalidMetadata); }
      if !ValidMetadata(rules, m) { return Failed(InvalidMetadata); }
      if m.lifecycle != Active { return Failed(InvalidMetadata); }
      if m.actorId in actors {
        var stored := actors[m.actorId];
        RecordOf(rules, Records(), m.actorId);
        var problem := ValidateStored(stored);
        match problem { case Some(e) => return Failed(e); case None => }
        if stored.lifecycle == Terminal { return Failed(ActorTerminal); }
        if stored.chart != m.chart || stored.revision != m.revision || stored.session != m.session
            || stored.durable != m.durable
        {
          return Failed(ActorCollision);
        }
        if stored.revision !in definitions { return Failed(DefinitionNotFound); }
        if !rules.sound(definitions[stored.revision]) { return Failed(InvalidArtifact); }
        return AlreadyActive(stored);
      }
      if m.revision !in definitions { return Failed(DefinitionNotFound); }
      DefinitionOf(rules, Records(), m.revision);
      if !rules.sound(definitions[m.revision]) { return Failed(InvalidArtifact); }
      if definitions[m.revision].chart != m.chart { return Failed(ActorCollision); }
      if m.session in logs && |logs[m.session]| != 0 { return Failed(ActorCollision); }
      actors := actors[m.actorId := m];
      logs := logs[m.session := [StartEntry(m)]];
      reply := Started(m);
    }

    method Get(a: string) returns (reply: Reply)
      requires Valid()
      ensures reply == GetActor(Records(), a)
    {
      hide Good, ActorGood, Gapless;
      if a !in actors { return NotFound; }
      RecordOf(rules, Records(), a);
      var problem := ValidateStored(actors[a]);
      match problem { case Some(e) => return Failed(e); case None => }
      reply := Found(actors[a]);
    }

    method MarkActorTerminal(a: string, at: int) returns (reply: Reply)
      requires Valid()
      modifies this
      ensures Valid() && (Records(), reply) == MarkTerminal(rules, old(Records()), a, at)
    {
      hide Good, ActorGood, Gapless;
      StepKeepsGood(rules, Records(), OpMarkTerminal(a, at));
      if !rules.identifier(a) { return Failed(InvalidMetadata); }
      if at == 0 { return Failed(InvalidMetadata); }
      if a !in actors { return NotFound; }
      var m := actors[a];
      RecordOf(rules, Records(), a);
      var problem := ValidateStored(m);
      match problem { case Some(e) => return Failed(e); case None => }
      if m.lifecycle == Terminal { return AlreadyTerminal(m); }
      if at < m.startedAt { return Failed(InvalidMetadata); }
      m := m.(lifecycle := Terminal, terminalAt := at);
      actors := actors[a := m];
      reply := MarkedTerminal(m);
    }

    method ReferencedRevisions() returns (revisions: seq<string>, problem: Charts.Option<Error>)
      requires Valid()
      ensures problem == Charts.None && Ordering.Sorted(revisions)
      ensures forall r :: r in revisions <==> Pinned(Records(), r)
    {
      hide Good, ActorGood, Gapless;
      var found: set<string> := {};
      var rest := actors.Keys;
      while rest != {}
        invariant rest <= actors.Keys
        invariant forall r :: r in found <==> exists a ::
          a in actors && a !in rest && actors[a].revision == r && actors[a].lifecycle == Active
        decreases rest
      {
        var a :| a in rest;
        rest := rest - {a};
        RecordOf(rules, Records(), a);
        var trouble := ValidateStored(actors[a]);
        match trouble { case Some(e) => return [], trouble; case None => }
        if actors[a].lifecycle == Active { found := found + {actors[a].revision}; }
      }
      revisions := Ordering.Sort(found);
      problem := Charts.None;
    }

    method Append(e: LogEntry) returns (number: nat)
      modifies this
      ensures (Records(), Appended(number)) == Appending(old(Records()), e)
      ensures old(Valid() && Fits(Records(), e)) ==> Valid()
    {
      hide Good, ActorGood, Gapless;
      if Valid() && Fits(Records(), e) { AppendKeepsGood(rules, Records(), e); }
      var entries := if e.session in logs then logs[e.session] else [];
      number := |entries| + 1;
      logs := logs[e.session := entries + [e.(seqNo := number)]];
    }

    method AppendIngress(e: LogEntry, delivery: string) returns (reply: Reply)
      modifies this
      ensures (Records(), reply) == Ingress(old(Records()), e, delivery)
      ensures old(Valid() && Courteous(Records(), OpIngress(e, delivery))) ==> Valid()
    {
      hide Good, ActorGood, Gapless;
      if Valid() && Courteous(Records(), OpIngress(e, delivery)) {
        CourteousKeepsGood(rules, Records(), OpIngress(e, delivery));
      }
      var rest := actors.Keys;
      while rest != {}
        invariant rest <= actors.Keys && Records() == old(Records())
        invariant forall a :: a in actors && a !in rest && actors[a].session == e.session ==>
          actors[a].lifecycle != Terminal
        decreases rest
      {
        var a :| a in rest;
        rest := rest - {a};
        if actors[a].session == e.session && actors[a].lifecycle == Terminal { return Failed(ActorTerminal); }
      }
      var deliveries := if e.session in ingress then ingress[e.session] else {};
      if delivery in deliveries { return Duplicate; }
      var number := Append(e);
      ingress := ingress[e.session := deliveries + {delivery}];
      reply := Appended(number);
    }

    /** QueryActors: one page in ID order. */
    method QueryActors(q: Query, after: string, limit: nat)
      returns (page: seq<string>, next: Charts.Option<string>, problem: Charts.Option<Error>)
      requires Valid() && limit > 0
      ensures problem == Charts.None
      ensures (page, next) == Paged(Ordering.InOrder(Selected(actors, q, after)), limit)
    {
      hide Good, ActorGood, Gapless;
      var result: set<string> := {};
      var rest := actors.Keys;
      while rest != {}
        invariant rest <= actors.Keys && result == Selected(actors, q, after) - rest
        decreases rest
      {
        var a :| a in rest;
        rest := rest - {a};
        RecordOf(rules, Records(), a);
        var trouble := ValidateStored(actors[a]);
        match trouble { case Some(e) => return [], Charts.None, trouble; case None => }
        if Ordering.Less(after, a) && q.prefix <= actors[a].actorId && (q.chart == "" || actors[a].chart == q.chart)
          && (q.revision == "" || actors[a].revision == q.revision)
            && (q.lifecycle == Charts.None || actors[a].lifecycle == q.lifecycle.value) {
          result := result + {a};
        }
      }
      assert result == Selected(actors, q, after);
      page := Ordering.Sort(result);
      next := Charts.None;
      if |page| > limit {
        page := page[..limit];
        next := Charts.Some(page[|page| - 1]);
      }
      problem := Charts.None;
    }
  }
}
