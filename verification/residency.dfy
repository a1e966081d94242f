/**
 Which actors are in memory (actors/system.go:999-1027, 1177-1195, 1213-1266, 1297-1402).

 Callers interleave.  Each keeps a program counter, and one step is what it does between two points
 where another caller can get in: an entry's lock is held from Busy or Entered until Idle, and the
 admission lock from Reaping until the caller is Busy again.  Finishing charts, messages and
 invocations come and go between any two steps.
 */
module Residency {

  datatype Actor = Actor(durable: bool, resident: bool, finished: bool, invoking: bool, lastActive: int)

  datatype Pc =
    | Idle
    | Busy(name: string)
    | Entered(name: string)
    | Reaping(name: string, todo: seq<string>)
    | Counting(name: string)
    | Overfull(name: string)
    | Trying(name: string, candidates: seq<string>)
    | Evicting(name: string, victim: string)
    | Cleared(name: string)

  /** WithMaxResident(limit) (system.go:122-124). */
  datatype State = State(limit: int, actors: map<string, Actor>, threads: map<nat, Pc>)

  /** `Next` is the caller's own next step: `fails` makes whatever can fail fail, and `names` is the
      order in which a table scan met or sorted the entries. */
  datatype Move =
    | Next(fails: bool, names: seq<string>)
    | Spawn(name: string, durable: bool)
    | Lock(name: string)
    | Activate
    | SweepIdle(name: string)
    | ReapFinished(name: string)
    | Finish(name: string)
    | Touch(name: string, at: int)
    | SetInvoking(name: string, invoking: bool)

  function PcOf(s: State, t: nat): Pc { if t in s.threads then s.threads[t] else Idle }

  function EntriesHeld(pc: Pc): set<string> {
    match pc
    case Idle => {}
    case Evicting(name, victim) => {name, victim}
    case _ => {pc.name}
  }

  predicate HoldsAdmission(pc: Pc) {
    pc.Reaping? || pc.Counting? || pc.Overfull? || pc.Trying? || pc.Evicting? || pc.Cleared?
  }

  predicate Free(s: State, name: string) { forall t :: t in s.threads ==> name !in EntriesHeld(s.threads[t]) }

  predicate AdmissionFree(s: State) { forall t :: t in s.threads ==> !HoldsAdmission(s.threads[t]) }

  predicate IsResident(s: State, name: string) { name in s.actors && s.actors[name].resident }

  function Residents(s: State): set<string> { set n | n in s.actors && s.actors[n].resident }

  // ---- one step ----

  function At(s: State, t: nat, pc: Pc): State { s.(threads := s.threads[t := pc]) }

  function With(s: State, name: string, a: Actor): State { s.(actors := s.actors[name := a]) }

  /** evictLocked clears the instance (system.go:1374-1402). */
  function Out(s: State, name: string): State
    requires name in s.actors
  {
    With(s, name, s.actors[name].(resident := false))
  }

  /** pickEvictionVictim's candidates (system.go:1329-1359): durable residents, longest idle first. */
  predicate Candidates(s: State, exclude: string, names: seq<string>) {
    && (forall i :: 0 <= i < |names| ==> IsResident(s, names[i]) && s.actors[names[i]].durable && names[i] != exclude)
    && (forall i, j :: 0 <= i < j < |names| ==>
      names[i] != names[j] && s.actors[names[i]].lastActive <= s.actors[names[j]].lastActive)
    && (forall n :: n in s.actors && s.actors[n].resident && s.actors[n].durable && n != exclude ==> n in names)
  }

  /** A finished actor nobody holds is reaped; anything else is passed over (system.go:1297-1314). */
  function ReapOne(s: State, name: string): State {
    if IsResident(s, name) && Free(s, name) && s.actors[name].finished then Out(s, name) else s
  }

  function StepOn(s: State, t: nat, fails: bool, names: seq<string>): State {
    match PcOf(s, t)
    case Idle => s
    case Busy(name) => At(s, t, Idle)
    case Entered(name) =>
      if IsResident(s, name) || name !in s.actors then At(s, t, Busy(name))
      else if !AdmissionFree(s) then s
      else At(s, t, Reaping(name, names))
    case Reaping(name, todo) =>
      if todo == [] then At(s, t, Counting(name)) else At(ReapOne(s, todo[0]), t, Reaping(name, todo[1..]))
    case Counting(name) => At(s, t, if |Residents(s)| >= s.limit then Overfull(name) else Cleared(name))
    case Overfull(name) => if Candidates(s, name, names) then At(s, t, Trying(name, names)) else s
    case Trying(name, candidates) =>
      if candidates == [] then At(s, t, Busy(name))
      else
        var v := candidates[0];
        if !Free(s, v) || !IsResident(s, v) || s.actors[v].invoking || fails
          then At(s, t, Trying(name, candidates[1..]))
        else At(s, t, Evicting(name, v))
    case Evicting(name, victim) =>
      if fails || victim !in s.actors then At(s, t, Busy(name)) else At(Out(s, victim), t, Counting(name))
    case Cleared(name) =>
      if fails || name !in s.actors then At(s, t, Busy(name))
      else At(With(s, name, s.actors[name].(resident := true, finished := false)), t, Busy(name))
  }

  function Step(s: State, t: nat, move: Move): State {
    match move
    case Next(fails, names) => StepOn(s, t, fails, names)
    case Spawn(name, durable) => if name in s.actors then s else With(s, name, Actor(durable, false, false, false, 0))
    case Lock(name) => if PcOf(s, t) == Idle && Free(s, name) then At(s, t, Busy(name)) else s
    case Activate => if PcOf(s, t).Busy? then At(s, t, Entered(PcOf(s, t).name)) else s
    case SweepIdle(name) =>
      if IsResident(s, name) && s.actors[name].durable && Free(s, name) && !s.actors[name].invoking then Out(s, name)
        else s
    case ReapFinished(name) => ReapOne(s, name)
    case Finish(name) => if IsResident(s, name) then With(s, name, s.actors[name].(finished := true)) else s
    case Touch(name, at) => if name in s.actors then With(s, name, s.actors[name].(lastActive := at)) else s
    case SetInvoking(name, invoking) => if IsResident(s, name) then With(s, name, s.actors[name].(invoking := invoking))
      else s
  }

  function Run(s: State, schedule: seq<(nat, Move)>): State
    decreases |schedule|
  {
    if schedule == [] then s else Run(Step(s, schedule[0].0, schedule[0].1), schedule[1..])
  }

  // ---- the invariant ----

  function Cap(s: State): int { if s.limit < 0 then 0 else s.limit }

  ghost predicate PcOk(s: State, pc: Pc) {
    && (HoldsAdmission(pc) ==> pc.name in s.actors && !s.actors[pc.name].resident)
    && (pc.Cleared? ==> |Residents(s)| < s.limit)
    && (pc.Trying? ==> forall i :: 0 <= i < |pc.candidates| ==>
      pc.candidates[i] in s.actors && s.actors[pc.candidates[i]].durable)
    && (pc.Evicting? ==> IsResident(s, pc.victim) && s.actors[pc.victim].durable && pc.victim != pc.name)
  }

  ghost predicate Apart(s: State, t: nat, u: nat) {
    t != u ==>
      EntriesHeld(PcOf(s, t)) !! EntriesHeld(PcOf(s, u))
      && !(HoldsAdmission(PcOf(s, t)) && HoldsAdmission(PcOf(s, u)))
  }

  ghost predicate Inv(s: State) {
    && |Residents(s)| <= Cap(s)
    && (forall t: nat {:trigger PcOk(s, PcOf(s, t))} :: PcOk(s, PcOf(s, t)))
    && (forall t: nat, u: nat {:trigger Apart(s, t, u)} :: Apart(s, t, u))
  }

  lemma Fewer(A: set<string>, B: set<string>)
    requires A <= B
    ensures |A| <= |B| && (A != B ==> |A| < |B|)
  {
    assert B == A + (B - A);
  }

  /** How s' may differ from s for every caller but t: nobody else moved, no actor came in except one
      t holds, none went out except a free one or one t holds, and table entries keep their durability. */
  ghost predicate Quiet(s: State, s': State, t: nat) {
    && s'.limit == s.limit
    && (forall u: nat {:trigger PcOf(s', u)} :: u != t ==> PcOf(s', u) == PcOf(s, u))
    && (forall n :: n in s.actors ==> n in s'.actors && s'.actors[n].durable == s.actors[n].durable)
    && (forall n :: IsResident(s', n) && !IsResident(s, n) ==> n in EntriesHeld(PcOf(s, t)))
    && (forall n :: IsResident(s, n) && !IsResident(s', n) ==> Free(s, n) || n in EntriesHeld(PcOf(s, t)))
    && (Residents(s') <= Residents(s) || PcOf(s, t).Cleared?)
  }

  lemma OutIsQuiet(s: State, t: nat, name: string)
    requires IsResident(s, name) && (Free(s, name) || name in EntriesHeld(PcOf(s, t)))
    ensures Quiet(s, Out(s, name), t)
  {}

  lemma InIsQuiet(s: State, t: nat)
    requires PcOf(s, t).Cleared? && PcOf(s, t).name in s.actors
    ensures var name := PcOf(s, t).name; Quiet(s, With(s, name, s.actors[name].(resident := true, finished := false)),
      t)
  {}

  lemma ThenAt(s: State, x: State, t: nat, pc: Pc)
    requires Quiet(s, x, t)
    ensures Quiet(s, At(x, t, pc), t)
  {
    var y := At(x, t, pc);
    forall u: nat {:trigger PcOf(y, u)} | u != t ensures PcOf(y, u) == PcOf(s, u) { assert PcOf(x, u) == PcOf(s, u); }
    assert Residents(y) == Residents(x);
  }

  lemma NextIsQuiet(s: State, t: nat, fails: bool, names: seq<string>)
    requires Inv(s)
    ensures Quiet(s, StepOn(s, t, fails, names), t)
  {
    assert PcOk(s, PcOf(s, t));
    hide Quiet, Inv, Candidates;
    var pc := PcOf(s, t);
    SameIsQuiet(s, t);
    var s' := StepOn(s, t, fails, names);
    match pc {
      case Reaping(_, todo) =>
        if todo != [] {
          if ReapOne(s, todo[0]) != s { OutIsQuiet(s, t, todo[0]); }
          ThenAt(s, ReapOne(s, todo[0]), t, PcOf(s', t));
        } else { ThenAt(s, s, t, PcOf(s', t)); }
      case Evicting(_, victim) =>
        OutIsQuiet(s, t, victim);
        ThenAt(s, Out(s, victim), t, PcOf(s', t));
        ThenAt(s, s, t, PcOf(s', t));
      case Cleared(name) =>
        InIsQuiet(s, t);
        ThenAt(s, With(s, name, s.actors[name].(resident := true, finished := false)), t, PcOf(s', t));
        ThenAt(s, s, t, PcOf(s', t));
      case _ =>
        ThenAt(s, s, t, PcOf(s', t));
    }
  }

  lemma SameIsQuiet(s: State, t: nat)
    ensures Quiet(s, s, t)
  {}

  /** Changing what is said about an actor, but not its residence or durability, disturbs nobody. */
  lemma NoteIsQuiet(s: State, t: nat, name: string, a: Actor)
    requires if name in s.actors then a.durable == s.actors[name].durable && a.resident == s.actors[name].resident
      else !a.resident
    ensures Quiet(s, With(s, name, a), t)
  {
    assert Residents(With(s, name, a)) == Residents(s);
  }

  lemma StepIsQuiet(s: State, t: nat, move: Move)
    requires Inv(s)
    ensures Quiet(s, Step(s, t, move), t)
  {
    hide Quiet, Inv, StepOn;
    SameIsQuiet(s, t);
    match move {
      case Next(fails, names) => NextIsQuiet(s, t, fails, names);
      case Spawn(name, durable) => if name !in s.actors {
        NoteIsQuiet(s, t, name, Actor(durable, false, false, false, 0));
      }
      case Lock(name) => ThenAt(s, s, t, Busy(name));
      case Activate => if PcOf(s, t).Busy? { ThenAt(s, s, t, Entered(PcOf(s, t).name)); }
      case SweepIdle(name) => if IsResident(s, name) && Free(s, name) { OutIsQuiet(s, t, name); }
      case ReapFinished(name) => if IsResident(s, name) && Free(s, name) { OutIsQuiet(s, t, name); }
      case Finish(name) => if name in s.actors { NoteIsQuiet(s, t, name, s.actors[name].(finished := true)); }
      case Touch(name, at) => if name in s.actors { NoteIsQuiet(s, t, name, s.actors[name].(lastActive := at)); }
      case SetInvoking(name, invoking) => if name in s.actors {
        NoteIsQuiet(s, t, name, s.actors[name].(invoking := invoking));
      }
    }
  }

  /** The locks taken in a step were free, or held by the same caller already. */
  ghost predicate TakesFree(s: State, s': State, t: nat) {
    && (forall n :: n in EntriesHeld(PcOf(s', t)) && n !in EntriesHeld(PcOf(s, t)) ==> Free(s, n))
    && (HoldsAdmission(PcOf(s', t)) && !HoldsAdmission(PcOf(s, t)) ==> AdmissionFree(s))
  }

  lemma StepTakesFree(s: State, t: nat, move: Move)
    ensures TakesFree(s, Step(s, t, move), t)
  {}

  lemma OthersApart(s: State, s': State, t: nat, u: nat)
    requires Inv(s) && Quiet(s, s', t) && TakesFree(s, s', t) && u != t
    ensures Apart(s', t, u) && Apart(s', u, t)
  {
    assert Apart(s, t, u) && PcOf(s', u) == PcOf(s, u);
    if u in s.threads {
      forall n | n in EntriesHeld(PcOf(s', t)) ensures n !in EntriesHeld(PcOf(s, u)) {
        if n !in EntriesHeld(PcOf(s, t)) { assert Free(s, n); }
      }
    }
  }

  lemma OthersOk(s: State, s': State, t: nat, u: nat)
    requires Inv(s) && Quiet(s, s', t) && u != t
    ensures PcOk(s', PcOf(s', u))
  {
    var pc := PcOf(s, u);
    assert PcOk(s, pc) && Apart(s, t, u) && PcOf(s', u) == pc;
    if HoldsAdmission(pc) {
      assert pc.name in EntriesHeld(pc);
      assert !IsResident(s', pc.name);
      assert Residents(s') <= Residents(s);
      Fewer(Residents(s'), Residents(s));
    }
    if pc.Evicting? {
      assert u in s.threads && pc.victim in EntriesHeld(pc);
      assert !Free(s, pc.victim) && IsResident(s', pc.victim);
    }
  }

  lemma OwnCount(s: State, t: nat, move: Move)
    requires Inv(s)
    ensures |Residents(Step(s, t, move))| <= Cap(s)
  {
    assert PcOk(s, PcOf(s, t));
    hide Inv, Candidates, Apart;
    var s' := Step(s, t, move);
    var pc := PcOf(s, t);
    if pc.Cleared? && move.Next? {
      if !move.fails {
        assert Residents(s') == Residents(s) + {pc.name};
      } else {
        assert Residents(s') == Residents(s);
      }
    } else {
      NobodyComesIn(s, t, move);
      Fewer(Residents(s'), Residents(s));
    }
  }

  lemma NobodyComesIn(s: State, t: nat, move: Move)
    requires Inv(s) && !(PcOf(s, t).Cleared? && move.Next?)
    ensures Residents(Step(s, t, move)) <= Residents(s)
  {
    hide Step;
    if PcOf(s, t).Cleared? { HeldStaysOut(s, t, move); } else { StepIsQuiet(s, t, move); }
  }

  lemma OwnOk(s: State, t: nat, move: Move)
    requires Inv(s)
    ensures PcOk(Step(s, t, move), PcOf(Step(s, t, move), t))
  {
    assert PcOk(s, PcOf(s, t));
    if move.Next? { OwnNextOk(s, t, move.fails, move.names); } else { OwnOtherOk(s, t, move); }
  }

  lemma OwnOtherOk(s: State, t: nat, move: Move)
    requires Inv(s) && PcOk(s, PcOf(s, t)) && !move.Next?
    ensures PcOk(Step(s, t, move), PcOf(Step(s, t, move), t))
  {
    HeldStaysOut(s, t, move);
    Fewer(Residents(Step(s, t, move)), Residents(s));
  }

  lemma OwnNextOk(s: State, t: nat, fails: bool, names: seq<string>)
    requires Inv(s) && PcOk(s, PcOf(s, t))
    ensures PcOk(StepOn(s, t, fails, names), PcOf(StepOn(s, t, fails, names), t))
  {
    hide Inv, Apart;
    var pc := PcOf(s, t);
    var s' := StepOn(s, t, fails, names);
    match pc {
      case Counting(_) => assert Residents(s') == Residents(s);
      case Trying(name, candidates) =>
        if candidates != [] && candidates[0] == name { assert t in s.threads && !Free(s, name); }
      case _ =>
    }
  }

  /** Only a caller's own step brings its actor in. */
  lemma HeldStaysOut(s: State, t: nat, move: Move)
    requires Inv(s) && !move.Next?
    ensures Residents(Step(s, t, move)) <= Residents(s)
  {}

  lemma StepKeepsInv(s: State, t: nat, move: Move)
    requires Inv(s)
    ensures Inv(Step(s, t, move))
  {
    hide PcOk, Apart, Quiet, TakesFree, Step, Residents;
    var s' := Step(s, t, move);
    StepIsQuiet(s, t, move);
    StepTakesFree(s, t, move);
    OwnOk(s, t, move);
    OwnCount(s, t, move);
    forall u: nat {:trigger PcOk(s', PcOf(s', u))} ensures PcOk(s', PcOf(s', u)) {
      if u != t { OthersOk(s, s', t, u); }
    }
    forall u: nat, v: nat {:trigger Apart(s', u, v)} ensures Apart(s', u, v) {
      if u == t && v != t { OthersApart(s, s', t, v); }
      else if v == t && u != t { OthersApart(s, s', t, u); }
      else { BothUnmoved(s, s', t, u, v); }
    }
    SameLimit(s, t, move);
  }

  lemma SameLimit(s: State, t: nat, move: Move)
    requires Inv(s)
    ensures Step(s, t, move).limit == s.limit
  {
    StepIsQuiet(s, t, move);
  }

  lemma BothUnmoved(s: State, s': State, t: nat, u: nat, v: nat)
    requires Inv(s) && Quiet(s, s', t) && ((u != t && v != t) || u == v)
    ensures Apart(s', u, v)
  {
    assert Apart(s, u, v);
    if u != v { assert PcOf(s', u) == PcOf(s, u) && PcOf(s', v) == PcOf(s, v); }
  }

  // ---- the promises ----

  predicate Fresh(s: State) { s.actors == map[] && s.threads == map[] }

  lemma FreshIsOk(s: State)
    requires Fresh(s)
    ensures Inv(s)
  {
    assert Residents(s) == {};
  }

  lemma {:induction false} RunKeepsInv(s: State, schedule: seq<(nat, Move)>)
    requires Inv(s)
    ensures Inv(Run(s, schedule)) && Run(s, schedule).limit == s.limit
    decreases |schedule|
  {
    hide Inv, Step;
    if schedule != [] {
      StepKeepsInv(s, schedule[0].0, schedule[0].1);
      SameLimit(s, schedule[0].0, schedule[0].1);
      RunKeepsInv(Step(s, schedule[0].0, schedule[0].1), schedule[1..]);
    }
  }

  /** However activations, evictions and completions interleave, no more than `limit` actors are resident. */
  lemma ResidencyIsBounded(s: State, schedule: seq<(nat, Move)>)
    requires Fresh(s)
    ensures |Residents(Run(s, schedule))| <= (if s.limit < 0 then 0 else s.limit)
  {
    FreshIsOk(s);
    RunKeepsInv(s, schedule);
  }

  /** Whoever leaves memory has finished, or is durable and had no active invocation when it was chosen. */
  lemma OnlySafeEvictions(s: State, schedule: seq<(nat, Move)>, t: nat, move: Move, name: string)
    requires Fresh(s)
    ensures var now := Run(s, schedule);
      IsResident(now, name) && !IsResident(Step(now, t, move), name) ==>
        now.actors[name].durable || now.actors[name].finished
    ensures var now := Run(s, schedule);
      var was, pc := PcOf(now, t), PcOf(Step(now, t, move), t);
      pc.Evicting? && pc != was ==>
        IsResident(now, pc.victim) && now.actors[pc.victim].durable && !now.actors[pc.victim].invoking
          && Free(now, pc.victim) && pc.victim != pc.name
  {
    FreshIsOk(s);
    RunKeepsInv(s, schedule);
    var now := Run(s, schedule);
    SafeStep(now, t, move, name);
  }

  lemma SafeStep(s: State, t: nat, move: Move, name: string)
    requires Inv(s)
    ensures IsResident(s, name) && !IsResident(Step(s, t, move), name) ==>
      s.actors[name].durable || s.actors[name].finished
    ensures var was, pc := PcOf(s, t), PcOf(Step(s, t, move), t);
      pc.Evicting? && pc != was ==>
        IsResident(s, pc.victim) && s.actors[pc.victim].durable && !s.actors[pc.victim].invoking && Free(s, pc.victim)
          && pc.victim != pc.name
  {
    assert PcOk(s, PcOf(s, t));
    if PcOf(s, t).Trying? && PcOf(s, t).candidates != [] {
      var v := PcOf(s, t).candidates[0];
      if v == PcOf(s, t).name { assert t in s.threads && !Free(s, v); }
    }
  }

  // ---- the admission loop stops ----

  predicate Looping(pc: Pc) { HoldsAdmission(pc) && !pc.Cleared? }

  /** Steps an admission can still take from Counting with r residents. */
  function LoopBudget(r: nat): nat
    decreases r, 1
  {
    r + 4 + AfterEviction(r)
  }

  function AfterEviction(r: nat): nat
    decreases r, 0
  {
    if r == 0 then 0 else LoopBudget(r - 1)
  }

  function Budget(s: State, t: nat): nat {
    var r := |Residents(s)|;
    match PcOf(s, t)
    case Reaping(_, todo) => |todo| + 1 + LoopBudget(r)
    case Counting(_) => LoopBudget(r)
    case Overfull(_) => r + 3 + AfterEviction(r)
    case Trying(_, candidates) => |candidates| + 2 + AfterEviction(r)
    case Evicting(_, _) => 1 + AfterEviction(r)
    case _ => 0
  }

  lemma {:induction false} BudgetGrows(q: nat, r: nat)
    requires q <= r
    ensures LoopBudget(q) <= LoopBudget(r) && AfterEviction(q) <= AfterEviction(r)
    decreases r
  {
    if q < r { BudgetGrows(q, r - 1); }
  }

  lemma CandidatesAreFew(s: State, exclude: string, names: seq<string>)
    requires Candidates(s, exclude, names)
    ensures |names| <= |Residents(s)|
  {
    var members := set i | 0 <= i < |names| :: names[i];
    Distinct(names);
    Fewer(members, Residents(s));
  }

  lemma {:induction false} Distinct(names: seq<string>)
    requires forall i, j :: 0 <= i < j < |names| ==> names[i] != names[j]
    ensures |set i | 0 <= i < |names| :: names[i]| == |names|
    decreases |names|
  {
    var all := set i | 0 <= i < |names| :: names[i];
    if names == [] {
      assert all == {};
    } else {
      var init := names[..|names| - 1];
      Distinct(init);
      var some := set i | 0 <= i < |init| :: init[i];
      assert all == some + {names[|names| - 1]};
    }
  }

  /** Each of its own steps uses up part of an admission's budget. */
  lemma OwnStepSpends(s: State, t: nat, move: Move)
    requires Inv(s) && Looping(PcOf(s, t)) && PcOf(Step(s, t, move), t) != PcOf(s, t)
    ensures Looping(PcOf(Step(s, t, move), t)) ==> Budget(Step(s, t, move), t) < Budget(s, t)
  {
    assert PcOk(s, PcOf(s, t));
    OnlyNext(s, t, move);
    hide Inv, Step, PcOk;
    match PcOf(s, t) {
      case Reaping(_, _) => ReapingSpends(s, t, move);
      case Overfull(_) => OverfullSpends(s, t, move);
      case Evicting(_, _) => EvictingSpends(s, t, move);
      case Counting(_) => LookingSpends(s, t, move);
      case Trying(_, _) => LookingSpends(s, t, move);
    }
  }

  lemma OnlyNext(s: State, t: nat, move: Move)
    requires Looping(PcOf(s, t)) && PcOf(Step(s, t, move), t) != PcOf(s, t)
    ensures move.Next?
  {}

  lemma ReapingSpends(s: State, t: nat, move: Move)
    requires PcOf(s, t).Reaping? && move.Next?
    ensures Budget(Step(s, t, move), t) < Budget(s, t)
  {
    hide LoopBudget;
    var s' := Step(s, t, move);
    Fewer(Residents(s'), Residents(s));
    BudgetGrows(|Residents(s')|, |Residents(s)|);
  }

  lemma OverfullSpends(s: State, t: nat, move: Move)
    requires PcOf(s, t).Overfull? && move.Next? && PcOf(Step(s, t, move), t) != PcOf(s, t)
    ensures Budget(Step(s, t, move), t) < Budget(s, t)
  {
    hide LoopBudget, Candidates;
    assert Residents(Step(s, t, move)) == Residents(s);
    CandidatesAreFew(s, PcOf(s, t).name, move.names);
  }

  lemma EvictingSpends(s: State, t: nat, move: Move)
    requires PcOf(s, t).Evicting? && move.Next? && PcOk(s, PcOf(s, t))
    ensures Looping(PcOf(Step(s, t, move), t)) ==> Budget(Step(s, t, move), t) < Budget(s, t)
  {
    hide LoopBudget;
    var s' := Step(s, t, move);
    var victim := PcOf(s, t).victim;
    if PcOf(s', t).Counting? { assert Residents(s') == Residents(s) - {victim} && victim in Residents(s); }
  }

  lemma LookingSpends(s: State, t: nat, move: Move)
    requires (PcOf(s, t).Counting? || PcOf(s, t).Trying?) && move.Next?
    ensures Looping(PcOf(Step(s, t, move), t)) ==> Budget(Step(s, t, move), t) < Budget(s, t)
  {
    hide AfterEviction;
    assert Residents(Step(s, t, move)) == Residents(s);
  }

  /** Nobody else can add to it. */
  lemma OthersSpareBudget(s: State, t: nat, u: nat, move: Move)
    requires Inv(s) && Looping(PcOf(s, t)) && (u != t || PcOf(Step(s, u, move), t) == PcOf(s, t))
    ensures PcOf(Step(s, u, move), t) == PcOf(s, t) && Budget(Step(s, u, move), t) <= Budget(s, t)
  {
    var s' := Step(s, u, move);
    StepIsQuiet(s, u, move);
    assert Apart(s, t, u);
    assert Residents(s') <= Residents(s);
    Fewer(Residents(s'), Residents(s));
    BudgetGrows(|Residents(s')|, |Residents(s)|);
  }

  /** How many steps t takes inside its admission loop before it leaves it. */
  function StepsInside(s: State, t: nat, schedule: seq<(nat, Move)>): nat
    decreases |schedule|
  {
    if schedule == [] || !Looping(PcOf(s, t)) then 0
    else
      var s' := Step(s, schedule[0].0, schedule[0].1);
      (if PcOf(s', t) != PcOf(s, t) then 1 else 0) + StepsInside(s', t, schedule[1..])
  }

  /** admit always finishes: whatever the others do, its loop takes no more steps than its budget. */
  lemma {:induction false} AdmitTerminates(s: State, t: nat, schedule: seq<(nat, Move)>)
    requires Inv(s) && Looping(PcOf(s, t))
    ensures StepsInside(s, t, schedule) <= Budget(s, t)
    decreases |schedule|
  {
    hide Inv, Step, Budget;
    if schedule != [] {
      var (u, move) := schedule[0];
      var s' := Step(s, u, move);
      StepKeepsInv(s, u, move);
      if PcOf(s', t) == PcOf(s, t) {
        OthersSpareBudget(s, t, u, move);
        AdmitTerminates(s', t, schedule[1..]);
      } else {
        if u != t { OthersSpareBudget(s, t, u, move); }
        OwnStepSpends(s, t, move);
        if Looping(PcOf(s', t)) { AdmitTerminates(s', t, schedule[1..]); }
        else { PositiveBudget(s, t); }
      }
    }
  }

  lemma PositiveBudget(s: State, t: nat)
    requires Looping(PcOf(s, t))
    ensures Budget(s, t) > 0
  {}
}
