/**
 When a checkpoint can be told from the log (snapshot.go:93-163, replay.go:247-276): the restored state
 differs from the original in the last event only, and the first event taken from a queue replaces that.
 So transparency fails exactly if both states can run to stability differently on the first internal event that
 arrives; and never where no eventless transition is enabled, or no event was processed before the checkpoint.
 */
module Transparency {
  import opened Charts
  import opened Validator
  import opened WellFormed
  import opened EntrySets
  import opened Machine
  import opened Bookkeeping
  import opened Runs
  import opened Macrosteps
  import opened Instances
  import opened Requests
  import opened Snapshots
  import opened Replays
  import opened Eventless
  import opened Checkpoints

  predicate NothingQueued(st: St) { st.mail.internalQueue == [] && st.mail.externalQueue == [] }

  /** Running, with everything processed; b is a restored checkpoint of a. */
  ghost predicate Checkpointed(m: Model, a: St, b: St) {
    && SameButEvent(a, b) && Live(m, a) && Live(m, b)
    && a.running && a.statesToInvoke == {} && NothingQueued(a)
  }

  function ArrivesAll(m: Model, st: St, log: seq<LogEntry>): St
    decreases |log|
  {
    if log == [] then st else ArrivesAll(m, Arrives(m, st, log[0]), log[1..])
  }

  /** None of the entries queues anything. */
  predicate Quietly(m: Model, st: St, log: seq<LogEntry>)
    decreases |log|
  {
    log == [] || (NothingQueued(Arrives(m, st, log[0])) && Quietly(m, Arrives(m, st, log[0]), log[1..]))
  }

  predicate QueuesInternal(m: Model, st: St, e: LogEntry) { Arrives(m, st, e).mail.internalQueue != [] }

  /** Replaying `more` from both states ends alike, in the last event too if anything was processed. */
  ghost predicate Transparent(m: Model, a: St, b: St, more: seq<LogEntry>, budget: nat)
    requires WellFormedModel(m) && Held(m, Run(a, true)) && Held(m, Run(b, true))
  {
    var d, f := Replay(m, Run(a, true), more, budget), Replay(m, Run(b, true), more, budget);
    EndAlike(d, f) && (!Quietly(m, a, more) && d.run.finished && d.run.st.running ==> d.run.st.event == f.run.st.event)
  }

  lemma CheckpointedHeld(m: Model, a: St, b: St)
    requires Checkpointed(m, a, b)
    ensures Held(m, Run(a, true)) && Held(m, Run(b, true)) && a.running && b.running && NothingQueued(b) && Live(m, a)
      && Live(m, b) && SameButEvent(a, b)
  {
    SameQueues(a, b);
    HeldWhileLive(m, a);
    HeldWhileLive(m, b);
    hide Live, SameButEvent, Held;
  }

  // ---- entries that queue nothing ----

  /** A run, with the exit that follows it if the machine stopped. */
  function Ended(m: Model, r: Run): Run {
    if r.finished && !r.st.running then Run(ExitInterpreter(m, r.st), true) else r
  }

  lemma FinishIs(m: Model, st: St, budget: nat)
    requires WellFormedModel(m) && Live(m, st)
    ensures Finish(m, Run(st, true), budget) == Ended(m, Drain(m, st, budget))
  {
    hide WellFormedModel, Live, Drain, ExitInterpreter, Held, Onward;
  }

  lemma NothingToFinish(m: Model, st: St, budget: nat)
    requires WellFormedModel(m) && Live(m, st) && st.running && NothingQueued(st)
    ensures Finish(m, Run(st, true), budget) == Run(st, true)
  {
    hide WellFormedModel, Live, DrainExternal, Drain, RunToStable, ExitInterpreter, Finish;
    FinishIs(m, st, budget);
    DrainExternalUnrolled(m, st, budget);
    DrainUnrolled(m, st, budget);
  }

  lemma QuietEntry(m: Model, st: St, e: LogEntry, budget: nat)
    requires WellFormedModel(m) && Live(m, st) && st.running && NothingQueued(Arrives(m, st, e))
    ensures ReplayEntry(m, st, e, budget) == Run(Arrives(m, st, e), true)
    ensures Live(m, Arrives(m, st, e)) && Arrives(m, st, e).running
  {
    hide WellFormedModel, Live, Finish, ReplayEntry, NothingQueued;
    EntryArrives(m, st, e, budget);
    ArrivesRunning(m, st, e);
    if !e.SessionStarted? { NothingToFinish(m, Arrives(m, st, e), budget); }
  }

  lemma ArrivesRunning(m: Model, st: St, e: LogEntry)
    ensures Arrives(m, st, e).running == st.running && Arrives(m, st, e).statesToInvoke == st.statesToInvoke
  {
    hide ReplayFire, Enqueue;
  }

  lemma QuietPair(m: Model, a: St, b: St, e: LogEntry)
    requires WellFormedModel(m) && Checkpointed(m, a, b) && NothingQueued(Arrives(m, a, e))
    ensures Checkpointed(m, Arrives(m, a, e), Arrives(m, b, e)) && NothingQueued(Arrives(m, b, e))
  {
    hide WellFormedModel, Live, Arrives, SameButEvent;
    ArrivesRunning(m, a, e);
    SameArrives(m, a, b, e);
    SameQueues(Arrives(m, a, e), Arrives(m, b, e));
    ArrivesLive(m, a, e);
    ArrivesLive(m, b, e);
  }

  /** A quiet stretch of log only passes through. */
  lemma {:induction false} QuietReplay(m: Model, a: St, b: St, quiet: seq<LogEntry>, rest: seq<LogEntry>, budget: nat)
    requires WellFormedModel(m) && Checkpointed(m, a, b) && Quietly(m, a, quiet)
    ensures var a', b' := ArrivesAll(m, a, quiet), ArrivesAll(m, b, quiet);
      && Checkpointed(m, a', b') && Held(m, Run(a, true)) && Held(m, Run(b, true)) && Held(m, Run(a', true))
        && Held(m, Run(b', true))
      && Replay(m, Run(a, true), quiet + rest, budget) == Replay(m, Run(a', true), rest, budget)
      && Replay(m, Run(b, true), quiet + rest, budget) == Replay(m, Run(b', true), rest, budget)
    decreases |quiet|
  {
    hide WellFormedModel, Arrives, Replay, ReplayEntry, Held, Checkpointed, NothingQueued;
    CheckpointedHeld(m, a, b);
    if quiet == [] {
      assert quiet + rest == rest;
    } else {
      var e := quiet[0];
      assert (quiet + rest)[0] == e && (quiet + rest)[1..] == quiet[1..] + rest;
      QuietPair(m, a, b, e);
      QuietEntry(m, a, e, budget);
      QuietEntry(m, b, e, budget);
      ReplayUnrolled(m, Run(a, true), quiet + rest, budget);
      ReplayUnrolled(m, Run(b, true), quiet + rest, budget);
      QuietReplay(m, Arrives(m, a, e), Arrives(m, b, e), quiet[1..], rest, budget);
    }
  }

  lemma {:induction false} QuietlyMore(m: Model, st: St, quiet: seq<LogEntry>, more: seq<LogEntry>)
    requires Quietly(m, st, quiet)
    ensures Quietly(m, st, quiet + more) <==> Quietly(m, ArrivesAll(m, st, quiet), more)
    decreases |quiet|
  {
    hide Arrives, NothingQueued;
    if quiet == [] {
      assert quiet + more == more;
    } else {
      assert (quiet + more)[0] == quiet[0] && (quiet + more)[1..] == quiet[1..] + more;
      QuietlyMore(m, Arrives(m, st, quiet[0]), quiet[1..], more);
    }
  }

  lemma {:induction false} ArrivesAllMore(m: Model, st: St, quiet: seq<LogEntry>, e: LogEntry)
    ensures ArrivesAll(m, st, quiet + [e]) == Arrives(m, ArrivesAll(m, st, quiet), e)
    decreases |quiet|
  {
    hide Arrives;
    if quiet == [] {
      assert quiet + [e] == [e] && [e][1..] == [];
      assert ArrivesAll(m, Arrives(m, st, e), []) == Arrives(m, st, e);
    } else {
      assert (quiet + [e])[0] == quiet[0] && (quiet + [e])[1..] == quiet[1..] + [e];
      ArrivesAllMore(m, Arrives(m, st, quiet[0]), quiet[1..], e);
    }
  }

  // ---- entries that queue an external event ----

  /** Taking an external event replaces the last event on both sides. */
  lemma ExternalEntry(m: Model, a: St, b: St, e: LogEntry, budget: nat)
    requires WellFormedModel(m) && Checkpointed(m, a, b) && !NothingQueued(Arrives(m, a, e)) && !QueuesInternal(m, a, e)
    ensures var r, s := ReplayEntry(m, a, e, budget), ReplayEntry(m, b, e, budget);
      r.finished == s.finished && SameButEvent(r.st, s.st) && (r.finished ==> Same(r.st, s.st))
  {
    hide WellFormedModel, Live, Arrives, SameButEvent, Same, ReplayEntry, Finish;
    CheckpointedHeld(m, a, b);
    var a1, b1 := Arrives(m, a, e), Arrives(m, b, e);
    SameArrives(m, a, b, e);
    SameQueues(a1, b1);
    ArrivesRunning(m, a, e);
    ArrivesRunning(m, b, e);
    ArrivesLive(m, a, e);
    ArrivesLive(m, b, e);
    EntryArrives(m, a, e, budget);
    EntryArrives(m, b, e, budget);
    StartQueuesNothing(m, a, e);
    ExternalFinish(m, a1, b1, budget);
  }

  lemma StartQueuesNothing(m: Model, st: St, e: LogEntry)
    requires NothingQueued(st)
    ensures e.SessionStarted? ==> NothingQueued(Arrives(m, st, e))
  {}

  lemma ExternalFinish(m: Model, a: St, b: St, budget: nat)
    requires WellFormedModel(m) && Live(m, a) && Live(m, b) && SameButEvent(a, b) && a.running
      && a.mail.externalQueue != []
    ensures var r, s := Finish(m, Run(a, true), budget), Finish(m, Run(b, true), budget);
      r.finished == s.finished && SameButEvent(r.st, s.st) && (r.finished ==> Same(r.st, s.st))
  {
    hide WellFormedModel, Live, SameButEvent, Same, Drain, ExitInterpreter, Onward, Finish, Held;
    FinishIs(m, a, budget);
    FinishIs(m, b, budget);
    ExternalDrain(m, a, b, budget);
    if budget > 0 { DrainedAlike(m, Drain(m, a, budget), Drain(m, b, budget)); }
  }

  lemma ExternalDrain(m: Model, a: St, b: St, budget: nat)
    requires WellFormedModel(m) && Live(m, a) && Live(m, b) && SameButEvent(a, b) && a.running
      && a.mail.externalQueue != []
    ensures if budget == 0 then Drain(m, a, budget) == Run(a, false) && Drain(m, b, budget) == Run(b, false)
      else SameRun(Drain(m, a, budget), Drain(m, b, budget))
  {
    hide WellFormedModel, Live, SameButEvent, Same, Drain, DrainExternal, ProcessNextExternal, Onward;
    SameQueues(a, b);
    if budget > 0 {
      SameProcessNext(m, a, b, budget - 1);
      BlindDrainRest(m, a, b, budget);
    } else {
      NoBudget(m, a);
      NoBudget(m, b);
    }
  }

  lemma NoBudget(m: Model, st: St)
    requires WellFormedModel(m) && Live(m, st) && st.running && st.mail.externalQueue != []
    ensures Drain(m, st, 0) == Run(st, false)
  {
    hide WellFormedModel, Live, Drain, DrainExternal, RunToStable, Onward;
    DrainExternalUnrolled(m, st, 0);
    DrainUnrolled(m, st, 0);
  }

  lemma DrainedAlike(m: Model, r: Run, s: Run)
    requires SameRun(r, s)
    ensures r.finished == s.finished && r.st.running == s.st.running && SameButEvent(r.st, s.st)
    ensures Same(ExitInterpreter(m, r.st), ExitInterpreter(m, s.st))
      && SameButEvent(ExitInterpreter(m, r.st), ExitInterpreter(m, s.st))
  {
    hide SameButEvent, Same, ExitInterpreter;
    SameEnd(m, r, s);
    SameIsSameButEvent(r.st, s.st);
    SameIsSameButEvent(ExitInterpreter(m, r.st), ExitInterpreter(m, s.st));
  }

  // ---- the rest of the log ----

  lemma {:induction false} ReplaysStaySame(m: Model, r: Run, s: Run, log: seq<LogEntry>, budget: nat)
    requires WellFormedModel(m) && Held(m, r) && Held(m, s) && SameRun(r, s)
    ensures var d, f := Replay(m, r, log, budget), Replay(m, s, log, budget);
      d.failed == f.failed && SameRun(d.run, f.run)
    decreases |log|
  {
    hide WellFormedModel, Held, ReplayEntry, Replay, Same, Live;
    SameFacts(r.st, s.st);
    ReplayUnrolled(m, r, log, budget);
    ReplayUnrolled(m, s, log, budget);
    if log != [] && r.finished {
      if r.st.running {
        SameEntry(m, r.st, s.st, log[0], budget);
        ReplaysStaySame(m, ReplayEntry(m, r.st, log[0], budget), ReplayEntry(m, s.st, log[0], budget), log[1..],
          budget);
      } else {
        IdlesSame(r.st, s.st, log[0]);
        if Idles(r.st, log[0]).Some? {
          ReplaysStaySame(m, Run(Idles(r.st, log[0]).value, true), Run(Idles(s.st, log[0]).value, true), log[1..],
            budget);
        }
      }
    }
  }

  lemma IdlesSame(a: St, b: St, e: LogEntry)
    requires Same(a, b)
    ensures Idles(a, e).Some? == Idles(b, e).Some? && (Idles(a, e).Some? ==> Same(Idles(a, e).value, Idles(b, e).value))
  {}

  lemma {:induction false} StoppedStays(m: Model, r: Run, log: seq<LogEntry>, budget: nat)
    requires WellFormedModel(m) && Held(m, r) && !(r.finished && r.st.running)
    ensures var d := Replay(m, r, log, budget).run; !(d.finished && d.st.running)
    decreases |log|
  {
    hide WellFormedModel, Held, ReplayEntry, Replay;
    ReplayUnrolled(m, r, log, budget);
    if log != [] && r.finished && Idles(r.st, log[0]).Some? {
      StoppedStays(m, Run(Idles(r.st, log[0]).value, true), log[1..], budget);
    }
  }

  /** Two entries replayed alike, and their ends still the same if the machine runs on. */
  ghost predicate StillAlike(r: Run, s: Run) {
    r.finished == s.finished && SameButEvent(r.st, s.st) && (r.finished && r.st.running ==> Same(r.st, s.st))
  }

  lemma RestIsAlike(m: Model, r: Run, s: Run, rest: seq<LogEntry>, budget: nat)
    requires WellFormedModel(m) && Held(m, r) && Held(m, s) && StillAlike(r, s)
    ensures var d, f := Replay(m, r, rest, budget), Replay(m, s, rest, budget);
      EndAlike(d, f) && (d.run.finished && d.run.st.running ==> d.run.st.event == f.run.st.event)
  {
    hide WellFormedModel, Held, Replay, Same, SameButEvent;
    if r.finished && r.st.running {
      ReplaysStaySame(m, r, s, rest, budget);
      var d, f := Replay(m, r, rest, budget), Replay(m, s, rest, budget);
      SameFacts(d.run.st, f.run.st);
      SameIsSameButEvent(d.run.st, f.run.st);
    } else {
      SameQueues(r.st, s.st);
      StoppedStays(m, r, rest, budget);
      StoppedAlike(m, r, s, rest, budget);
    }
  }

  lemma {:induction false} StoppedAlike(m: Model, r: Run, s: Run, log: seq<LogEntry>, budget: nat)
    requires WellFormedModel(m) && Held(m, r) && Held(m, s) && r.finished == s.finished && SameButEvent(r.st, s.st)
      && !(r.finished && r.st.running)
    ensures EndAlike(Replay(m, r, log, budget), Replay(m, s, log, budget))
    decreases |log|
  {
    hide WellFormedModel, Held, ReplayEntry, Replay, SameButEvent;
    SameQueues(r.st, s.st);
    ReplayUnrolled(m, r, log, budget);
    ReplayUnrolled(m, s, log, budget);
    if log != [] && r.finished {
      MailOf(r.st, s.st);
      SameWithMail(r.st, s.st, log[0].time, r.st.mail, s.st.mail);
      if Idles(r.st, log[0]).Some? {
        StoppedAlike(m, Run(Idles(r.st, log[0]).value, true), Run(Idles(s.st, log[0]).value, true), log[1..], budget);
      }
    }
  }

  // ---- the first entry that queues something ----

  /** From x and y the machine runs to stability alike, or to its exit; and if it goes on, with the same last event. */
  ghost predicate SettlesAlike(m: Model, x: St, y: St, budget: nat)
    requires WellFormedModel(m)
  {
    && Live(m, x) && Live(m, y)
    && StillAlike(Ended(m, RunToStable(m, x, budget)), Ended(m, RunToStable(m, y, budget)))
  }

  /** After a quiet stretch, e arrives. */
  function Ticked(m: Model, st: St, quiet: seq<LogEntry>, e: LogEntry): St {
    Arrives(m, ArrivesAll(m, st, quiet), e)
  }

  /** Whatever entry first queues an internal event, both states settle alike on it. */
  ghost predicate TicksAlike(m: Model, a: St, b: St, budget: nat)
    requires WellFormedModel(m)
  {
    forall quiet, e {:trigger Ticked(m, a, quiet, e)} ::
      Quietly(m, a, quiet) && QueuesInternal(m, ArrivesAll(m, a, quiet), e) ==>
        SettlesAlike(m, Ticked(m, a, quiet, e), Ticked(m, b, quiet, e), budget)
  }

  /** With one queue to drain, a request ends as running to stability does. */
  lemma InternalOnly(m: Model, st: St, budget: nat)
    requires WellFormedModel(m) && Live(m, st) && st.running && st.mail.internalQueue != []
      && st.mail.externalQueue == []
    ensures Finish(m, Run(st, true), budget) == Ended(m, RunToStable(m, st, budget))
  {
    hide WellFormedModel, Live, DrainExternal, Drain, RunToStable, Finish, Ended;
    FinishIs(m, st, budget);
    DrainExternalUnrolled(m, st, budget);
    DrainUnrolled(m, st, budget);
  }

  lemma TickEnds(m: Model, a: St, b: St, e: LogEntry, budget: nat)
    requires WellFormedModel(m) && Checkpointed(m, a, b) && QueuesInternal(m, a, e)
    ensures a.running && b.running && Live(m, a) && Live(m, b) && Live(m, Arrives(m, a, e)) && Live(m, Arrives(m, b, e))
    ensures ReplayEntry(m, a, e, budget) == Ended(m, RunToStable(m, Arrives(m, a, e), budget))
    ensures ReplayEntry(m, b, e, budget) == Ended(m, RunToStable(m, Arrives(m, b, e), budget))
  {
    hide WellFormedModel, Live, Arrives, SameButEvent, ReplayEntry, Finish, RunToStable, ExitInterpreter;
    CheckpointedHeld(m, a, b);
    SameArrives(m, a, b, e);
    SameQueues(Arrives(m, a, e), Arrives(m, b, e));
    ArrivesRunning(m, a, e);
    ArrivesRunning(m, b, e);
    ArrivesLive(m, a, e);
    ArrivesLive(m, b, e);
    EntryArrives(m, a, e, budget);
    EntryArrives(m, b, e, budget);
    StartQueuesNothing(m, a, e);
    OneQueue(m, a, e);
    InternalOnly(m, Arrives(m, a, e), budget);
    InternalOnly(m, Arrives(m, b, e), budget);
  }

  /** The log that ends in the tick is replayed alike exactly if both states settle alike on it. */
  lemma TickIsTransparent(m: Model, a: St, b: St, quiet: seq<LogEntry>, e: LogEntry, budget: nat)
    requires WellFormedModel(m) && Checkpointed(m, a, b) && Held(m, Run(a, true)) && Held(m, Run(b, true))
    requires Quietly(m, a, quiet) && QueuesInternal(m, ArrivesAll(m, a, quiet), e)
    ensures Transparent(m, a, b, quiet + [e], budget)
      <==> SettlesAlike(m, Ticked(m, a, quiet, e), Ticked(m, b, quiet, e), budget)
  {
    hide WellFormedModel, Held, Replay, ReplayEntry, Live, SameButEvent, Same, Arrives, Checkpointed, RunToStable,
      Ended;
    var a', b' := ArrivesAll(m, a, quiet), ArrivesAll(m, b, quiet);
    QuietReplay(m, a, b, quiet, [e], budget);
    TickEnds(m, a', b', e, budget);
    QuietlyMore(m, a, quiet, [e]);
    assert [e] + [] == [e];
    OneThenRest(m, a', e, [], budget);
    OneThenRest(m, b', e, [], budget);
    AlikeAfter(ReplayEntry(m, a', e, budget), ReplayEntry(m, b', e, budget));
  }

  lemma TickThenRest(m: Model, a: St, b: St, quiet: seq<LogEntry>, e: LogEntry, rest: seq<LogEntry>, budget: nat)
    requires WellFormedModel(m) && Checkpointed(m, a, b) && Held(m, Run(a, true)) && Held(m, Run(b, true))
    requires Quietly(m, a, quiet) && !NothingQueued(Arrives(m, ArrivesAll(m, a, quiet), e))
    requires QueuesInternal(m, ArrivesAll(m, a, quiet), e) ==> Transparent(m, a, b, quiet + [e], budget)
    ensures Transparent(m, a, b, quiet + ([e] + rest), budget)
  {
    hide WellFormedModel, Held, Replay, ReplayEntry, Live, Same, SameButEvent, Arrives, NothingQueued, Checkpointed;
    var a', b' := ArrivesAll(m, a, quiet), ArrivesAll(m, b, quiet);
    QuietReplay(m, a, b, quiet, [e] + rest, budget);
    CheckpointedHeld(m, a', b');
    var r, s := ReplayEntry(m, a', e, budget), ReplayEntry(m, b', e, budget);
    OneThenRest(m, a', e, rest, budget);
    OneThenRest(m, b', e, rest, budget);
    if QueuesInternal(m, a', e) {
      QuietlyMore(m, a, quiet, [e]);
      QuietReplay(m, a, b, quiet, [e], budget);
      OneThenRest(m, a', e, [], budget);
      OneThenRest(m, b', e, [], budget);
      assert [e] + [] == [e];
      AlikeAfter(r, s);
    } else {
      ExternalEntry(m, a', b', e, budget);
    }
    RestIsAlike(m, r, s, rest, budget);
  }

  lemma AlikeAfter(r: Run, s: Run)
    ensures StillAlike(r, s) <==>
      EndAlike(Replayed(r, false), Replayed(s, false)) && (r.finished && r.st.running ==> r.st.event == s.st.event)
  {
    hide SameInvokes, SameMail;
  }

  lemma OneThenRest(m: Model, st: St, e: LogEntry, rest: seq<LogEntry>, budget: nat)
    requires WellFormedModel(m) && Live(m, st) && st.running && Held(m, Run(st, true))
    ensures Held(m, ReplayEntry(m, st, e, budget))
    ensures Replay(m, Run(st, true), [e] + rest, budget) == Replay(m, ReplayEntry(m, st, e, budget), rest, budget)
    ensures Replay(m, ReplayEntry(m, st, e, budget), [], budget) == Replayed(ReplayEntry(m, st, e, budget), false)
  {
    hide WellFormedModel, Held, Replay, ReplayEntry, Live;
    assert ([e] + rest)[0] == e && ([e] + rest)[1..] == rest;
    ReplayUnrolled(m, Run(st, true), [e] + rest, budget);
    ReplayUnrolled(m, ReplayEntry(m, st, e, budget), [], budget);
  }

  lemma {:induction false} AllTransparent(m: Model, a: St, b: St, quiet: seq<LogEntry>, more: seq<LogEntry>,
    budget: nat)
    requires WellFormedModel(m) && Checkpointed(m, a, b) && Held(m, Run(a, true)) && Held(m, Run(b, true))
    requires Quietly(m, a, quiet) && TicksAlike(m, a, b, budget)
    ensures Transparent(m, a, b, quiet + more, budget)
    decreases |more|
  {
    hide WellFormedModel, Held, Replay, SameButEvent, Arrives, NothingQueued, Checkpointed;
    if more == [] {
      QuietReplay(m, a, b, quiet, [], budget);
      assert quiet + [] == quiet;
      QuietEnd(m, ArrivesAll(m, a, quiet), ArrivesAll(m, b, quiet), budget);
    } else {
      var e, rest := more[0], more[1..];
      assert more == [e] + rest;
      var a' := ArrivesAll(m, a, quiet);
      QuietlyMore(m, a, quiet, [e]);
      if NothingQueued(Arrives(m, a', e)) {
        assert [e][1..] == [];
        assert Quietly(m, a', [e]);
        AllTransparent(m, a, b, quiet + [e], rest, budget);
        assert (quiet + [e]) + rest == quiet + more;
      } else {
        if QueuesInternal(m, a', e) {
          assert Ticked(m, a, quiet, e) == Arrives(m, a', e);
          TickIsTransparent(m, a, b, quiet, e, budget);
        }
        TickThenRest(m, a, b, quiet, e, rest, budget);
      }
    }
  }

  lemma QuietEnd(m: Model, a: St, b: St, budget: nat)
    requires WellFormedModel(m) && Checkpointed(m, a, b) && Held(m, Run(a, true)) && Held(m, Run(b, true))
    ensures EndAlike(Replay(m, Run(a, true), [], budget), Replay(m, Run(b, true), [], budget))
  {
    hide WellFormedModel, Held, Replay, SameButEvent, Live;
    ReplayUnrolled(m, Run(a, true), [], budget);
    ReplayUnrolled(m, Run(b, true), [], budget);
  }

  /** A checkpoint is transparent for every rest of the log exactly if both states settle alike on every first
      internal event. */
  lemma TransparencyExactly(m: Model, a: St, b: St, budget: nat)
    requires WellFormedModel(m) && Checkpointed(m, a, b) && Held(m, Run(a, true)) && Held(m, Run(b, true))
    ensures (forall more :: Transparent(m, a, b, more, budget)) <==> TicksAlike(m, a, b, budget)
  {
    hide WellFormedModel, Held, Transparent, Checkpointed, Arrives, SettlesAlike, Ticked;
    if TicksAlike(m, a, b, budget) {
      forall more ensures Transparent(m, a, b, more, budget) {
        AllTransparent(m, a, b, [], more, budget);
        assert [] + more == more;
      }
    }
    if forall more :: Transparent(m, a, b, more, budget) {
      forall quiet, e {:trigger Ticked(m, a, quiet, e)}
        | Quietly(m, a, quiet) && QueuesInternal(m, ArrivesAll(m, a, quiet), e)
          ensures SettlesAlike(m, Ticked(m, a, quiet, e), Ticked(m, b, quiet, e), budget)
      {
        assert Transparent(m, a, b, quiet + [e], budget);
        TickIsTransparent(m, a, b, quiet, e, budget);
      }
    }
  }

  // ---- where it never fails ----

  /** With no eventless transition enabled, an internal event replaces the last event at once. */
  lemma CalmTick(m: Model, a: St, b: St, e: LogEntry, budget: nat)
    requires WellFormedModel(m) && EventlessBlind(m) && Checkpointed(m, a, b) && Calm(m, a) && QueuesInternal(m, a, e)
    ensures a.running && b.running && StillAlike(ReplayEntry(m, a, e, budget), ReplayEntry(m, b, e, budget))
  {
    hide WellFormedModel, EventlessBlind, Live, Arrives, SameButEvent, Same, ReplayEntry, Finish, Calm, Resting;
    CheckpointedHeld(m, a, b);
    CheckpointRests(m, a, b);
    var a1, b1 := Arrives(m, a, e), Arrives(m, b, e);
    RestingArrives(m, a, b, e);
    RestingLive(m, a1, b1);
    EntryArrives(m, a, e, budget);
    EntryArrives(m, b, e, budget);
    StartQueuesNothing(m, a, e);
    OneQueue(m, a, e);
    InternalFinish(m, a1, b1, budget);
  }

  lemma CheckpointRests(m: Model, a: St, b: St)
    requires WellFormedModel(m) && Checkpointed(m, a, b) && Calm(m, a)
    ensures Tree(m.chart) && Resting(m, a, b)
  {
    hide Live, SameButEvent, Calm;
  }

  lemma OneQueue(m: Model, st: St, e: LogEntry)
    requires NothingQueued(st)
    ensures QueuesInternal(m, st, e) ==> Arrives(m, st, e).mail.externalQueue == []
  {
    if e.TimerFired? {
      hide Dispatch;
      var best := BestMatch(st.mail.pending, e.sendId, e.target, e.typ, e.event.name);
      DispatchOneQueue(m, st.mail, e.sendId, e.target, e.typ, e.event);
      if best.Some? { DispatchOneQueue(m, Due(st.mail, best.value), e.sendId, e.target, e.typ, e.event); }
      hide BestMatch;
    }
  }

  lemma DispatchOneQueue(m: Model, q: Mail, sendId: string, target: string, typ: string, ev: Event)
    requires q.internalQueue == [] && q.externalQueue == []
    ensures var r := Dispatch(m, q, sendId, target, typ, ev); r.internalQueue != [] ==> r.externalQueue == []
  {}

  lemma InternalFinish(m: Model, a: St, b: St, budget: nat)
    requires WellFormedModel(m) && EventlessBlind(m) && Tree(m.chart) && Resting(m, a, b)
    requires a.mail.internalQueue != [] && a.mail.externalQueue == []
    ensures Live(m, a) && Live(m, b) && StillAlike(Finish(m, Run(a, true), budget), Finish(m, Run(b, true), budget))
  {
    hide WellFormedModel, EventlessBlind, Live, SameButEvent, Same, RunToStable, ExitInterpreter, Resting, Finish;
    RestingLive(m, a, b);
    SameQueues(a, b);
    InternalOnly(m, a, budget);
    InternalOnly(m, b, budget);
    BlindRunToStable(m, a, b, budget);
    if budget > 0 {
      DrainedAlike(m, RunToStable(m, a, budget), RunToStable(m, b, budget));
    }
  }

  lemma {:induction false} QuietIsCalm(m: Model, a: St, b: St, quiet: seq<LogEntry>)
    requires WellFormedModel(m) && Checkpointed(m, a, b) && Calm(m, a) && Quietly(m, a, quiet)
    ensures Checkpointed(m, ArrivesAll(m, a, quiet), ArrivesAll(m, b, quiet)) && Calm(m, ArrivesAll(m, a, quiet))
    decreases |quiet|
  {
    hide WellFormedModel, Arrives, Checkpointed, Calm, NothingQueued;
    TreeOf(m);
    if quiet != [] {
      QuietPair(m, a, b, quiet[0]);
      ArrivalUnseen(m, a, quiet[0]);
      QuietIsCalm(m, Arrives(m, a, quiet[0]), Arrives(m, b, quiet[0]), quiet[1..]);
    }
  }

  lemma CalmTicksAlike(m: Model, a: St, b: St, budget: nat)
    requires WellFormedModel(m) && EventlessBlind(m) && Checkpointed(m, a, b) && Calm(m, a)
    ensures TicksAlike(m, a, b, budget)
  {
    hide WellFormedModel, EventlessBlind, ReplayEntry, Live, Same, SameButEvent, Arrives, NothingQueued, Checkpointed,
      Calm, RunToStable, Ended;
    forall quiet, e {:trigger Ticked(m, a, quiet, e)}
      | Quietly(m, a, quiet) && QueuesInternal(m, ArrivesAll(m, a, quiet), e)
        ensures SettlesAlike(m, Ticked(m, a, quiet, e), Ticked(m, b, quiet, e), budget)
    {
      var a', b' := ArrivesAll(m, a, quiet), ArrivesAll(m, b, quiet);
      QuietIsCalm(m, a, b, quiet);
      CalmTick(m, a', b', e, budget);
      TickEnds(m, a', b', e, budget);
    }
  }

  lemma UneventfulTransparent(m: Model, a: St, b: St, more: seq<LogEntry>, budget: nat)
    requires WellFormedModel(m) && Checkpointed(m, a, b) && a.event == b.event
    ensures Held(m, Run(a, true)) && Held(m, Run(b, true)) && Transparent(m, a, b, more, budget)
  {
    hide WellFormedModel, Held, Replay, SameButEvent;
    CheckpointedHeld(m, a, b);
    assert Same(a, b);
    ReplaysStaySame(m, Run(a, true), Run(b, true), more, budget);
    var d, f := Replay(m, Run(a, true), more, budget), Replay(m, Run(b, true), more, budget);
    SameFacts(d.run.st, f.run.st);
    SameIsSameButEvent(d.run.st, f.run.st);
  }

  // ---- at a split of a log ----

  /** The checkpoint of st, restored. */
  ghost predicate RestoredFrom(m: Model, st: St, rs: seq<Running>, back: St) {
    && Lists(m.chart, rs, st.byId) && AllSpecsKnown(m.chart, rs)
    && RestoreFrom(m.chart, BuildSnapshot(m.chart, st, rs), st.now) == Some(back)
  }

  lemma RestoredIsCheckpointed(m: Model, st: St, rs: seq<Running>) returns (back: St)
    requires WellFormedModel(m) && Live(m, st) && st.running && Idle(st) && Restorable(m, st)
      && Lists(m.chart, rs, st.byId)
    ensures RestoredFrom(m, st, rs, back) && Checkpointed(m, st, back) && back.event == None
  {
    hide RestoreInvokes, KnownStates, SameMail;
    ListsKnown(m.chart, rs, st.byId);
    SnapshotRoundTrip(m, st, rs);
    back := RestoreFrom(m.chart, BuildSnapshot(m.chart, st, rs), st.now).value;
    hide Live, SameButEvent;
  }

  /** What the two replays of `log + more` do after the split: the whole one goes on from st, the resumed
      one from back. */
  ghost predicate ReplaysApart(m: Model, r: Run, log: seq<LogEntry>, st: St, back: St, more: seq<LogEntry>, budget: nat)
    requires WellFormedModel(m) && Held(m, r) && Held(m, Run(st, true)) && Held(m, Run(back, true))
  {
    && Rehydrate(m, r, log + more, budget) == Replay(m, Run(st, true), more, budget)
    && Rehydrate(m, Run(back, true), more, budget) == Replay(m, Run(back, true), more, budget)
  }

  /** Exactly when resuming from a checkpoint can end otherwise than the whole log: if and only if the two
      states can run to stability differently on the first internal event that arrives.  They never do where
      no eventless transition is enabled, nor before the first event. */
  lemma CheckpointTransparentExactly(m: Model, now: int, early: bool, log: seq<LogEntry>, rs: seq<Running>, budget: nat)
    returns (back: St)
    requires WellFormedModel(m)
    requires var d := Rehydrate(m, Boot(m, now, early, budget), log, budget);
      !d.failed && d.run.finished && d.run.st.running && Idle(d.run.st) && Restorable(m, d.run.st)
      && Lists(m.chart, rs, d.run.st.byId)
    ensures var st := Rehydrate(m, Boot(m, now, early, budget), log, budget).run.st;
      && RestoredFrom(m, st, rs, back) && Held(m, Run(st, true)) && Held(m, Run(back, true))
      && (forall more :: ReplaysApart(m, Boot(m, now, early, budget), log, st, back, more, budget))
      && ((forall more :: Transparent(m, st, back, more, budget)) <==> TicksAlike(m, st, back, budget))
      && (st.event == None || (EventlessBlind(m) && Calm(m, st)) ==> TicksAlike(m, st, back, budget))
  {
    hide WellFormedModel, Held, Replay, Rehydrate, Boot, Transparent, TicksAlike, Checkpointed, EventlessBlind, Calm,
      RestoredFrom;
    var r0 := Boot(m, now, early, budget);
    var d := Rehydrate(m, r0, log, budget);
    var st := d.run.st;
    TreeOf(m);
    LiveWhileRunning(m, d.run);
    back := RestoredIsCheckpointed(m, st, rs);
    CheckpointedHeld(m, st, back);
    assert d.run == Run(st, true);
    TransparencyExactly(m, st, back, budget);
    forall more ensures ReplaysApart(m, r0, log, st, back, more, budget) {
      RehydrateAppend(m, r0, log, more, budget);
      RehydrateRunning(m, back, more, budget);
    }
    if st.event == None {
      forall more ensures Transparent(m, st, back, more, budget) { UneventfulTransparent(m, st, back, more, budget); }
    } else if EventlessBlind(m) && Calm(m, st) {
      CalmTicksAlike(m, st, back, budget);
    }
  }
}
