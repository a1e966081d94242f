# Statechart runtime: verified model

The repository is a Go statechart runtime after the W3C SCXML algorithm, with a durable actor system on
top.  This project models it in Dafny and proves what its parts promise together.  `dafny verify
dfyconfig.toml` checks everything.

## What is modelled

**Charts and their validator** (`charts`, `compiler`, `validator`, `target_checks`, `wellformed`,
`targetsets`, `completions`).  A state is its document-order number.  The numbering pass is proved to
make every subtree an interval, and everything after it compares numbers.  The validator's target-set
check is proved to accept exactly what some legal configuration contains.

**What is legal to enter, exactly** (`completeness`, `turns`, `exactness`, `stepping`, `roots`, `courses`,
`gaps`, `default_gap`).  In every accepted chart the entry recursion leaves nothing out; all that can go
wrong is that a compound state gets two children.  When it does is stated as equivalences: for start and
default entry of one list, for all accepted target sets of a chart, for one selected step, for the root as
a target, and for the regions of a parallel root.

**The interpreter** (`entry`, `regions`, `configurations`, `transitions`, `selection`, `choices`, `microsteps`,
`locality`, `defaults`, `history`, `recall`, `machine`, `bookkeeping`, `deliveries`, `finals`, `invocations`,
`steps`, `runs`, `macrosteps`, `instances`, `requests`, `entry_builder`, `interpreter`).  The functions in
`machine`, `macrosteps` and `instances` say what the state of an interpreter becomes; the classes in `entry_builder`
and `interpreter` change their fields step by step, as the source does, and are proved to compute exactly
those functions.  Datamodel, I/O processors and invoke handlers are an oracle, `Machine.Model`, over which
every theorem is quantified: guards may hold, fail or report an error, and content may raise, send,
cancel, fail and change data in any way.  The clock is read once per request, and once for every record
when pending timers are activated.

What these functions do is stated without them.  The machine's calls to the model are recorded where they
are made, with the configuration that the model may see, and a microstep is proved to make exactly the calls
of its exits, transitions and entries.  Selections are described by descriptors and guards (`choices`), sends
and timers by what reaches which queue or processor (`deliveries`), done events by the configuration
(`finals`), default content by what is entered (`defaults`).

The theorems about runs cover every accepted chart, every oracle and every inbox.  Along a whole life of an
instance every delayed send is pending, dispatched or dropped exactly once, external and internal events are
taken in the order in which they came (and, if nothing but external Sends arrives, all of them arrive, and
external ones are taken only after the macrostep before ran to completion), histories hold what was last
left, and nothing is left behind at the end.  If the chart is `Careful`, only legal configurations occur as
well (SCXML section 3.11), and the two invocation indexes agree.  What a selection keeps is proved optimal in
every legal configuration of every accepted chart, and a history brings back what it recorded whenever the
step that goes through it is legal.

**Snapshots and replay** (`snapshot`, `replays`, `eventless`, `checkpoints`, `lives`, `transparency`,
`checkpoint_gap`, `instance_loop`).  A log written along a life replays that life exactly (`lives`).  In the
theorems about checkpoints, equality of states is up to what a snapshot cannot keep: the last event, the
numbering of pending sends and the order of one state's invocations.  The whole interpreter step is proved to
respect that equivalence, which gives checkpoint transparency wherever conditions of eventless transitions
read neither the last event nor what starting invocations changes.  `transparency` says for every model
exactly when a checkpoint is transparent, by what the two states do on one internal event, and
`checkpoint_gap` gives a chart and a log where it is not.  Both sides of these theorems are in replay mode.

**Store and actors** (`ordering`, `store`, `directory`, `residency`, `pins`).  The in-memory store and the
actor directory are classes.  Residency and revision pins are state machines in which each region under a
lock is one step and every caller keeps a program counter, so their theorems hold for every interleaving.

**Two algorithms** (`decimals`, `routing`).  Number canonicalisation against the grammar of section 6 of
RFC 8259 with exact rational values, and breadth-first routing against shortest walks.

## Where the code asks for more than its validator

Legal configurations over whole lives of instances are proved for accepted charts that are also `Careful`:
(a) the root is compound and is never a target; (b) no other target of a list lies below the parent of a
history in the list; and (c) a history is not targeted from a proper descendant of its parent.  The
validator expands histories by their default targets, while the interpreter uses what was recorded.  For
each condition there is an accepted chart that breaks it and has a run from start that is proved to go
wrong (`gaps`, `default_gap`).

`Careful` is sufficient, not necessary.  The exact conditions are these.  A target list is *in order* if,
entering its targets one after the other and then walking up from them, each atomic state entered goes with
everything entered before its turn; the validator compares only the default atoms with each other, so the
order of a list, which it ignores, decides (`DefaultGap.OtherOrderIsLegal`).  In an accepted chart with a
compound root, start is legal if and only if the root's initial targets are in order; all accepted
history-free target sets enter legally if and only if the initial list of every compound state is in order;
and a selected step from a legal configuration is legal if and only if it does not aim at the root and its
targets are in order beside what stays.

A CollectDefinition that searched the actor table before an entry was pinned can drop a compiled revision
between the two writes of that actor's completion, when the store already calls it terminal and the entry
does not.  `pins` proves that this is the only way a live actor loses its revision, and shows a run in
which it happens.

Appendix D of SCXML records history before the entry set is computed; the code computes the entry set
first (interpreter.go:1441-1442, 1456), and the model follows the code.

## Model
| member | source | states |
|---|---|---|
| `Compiler.Numbering.CompileState` | compile.go:56-107 | The recursive pass with one shared counter appends exactly the preorder layout of the definition and gives each state the next number. |
| `Compiler.CompileMakesTree` | compile.go:56-107 | For every definition the compiled chart is a tree whose subtrees are the contiguous intervals [x, end) of the numbering. |
| `Compiler.CompiledDescendants` | interpreter.go:138-148 | In every compiled chart the walk up the parent links finds an ancestor exactly when the number lies in that ancestor's interval. |
| `Compiler.LayoutContiguous` | compile.go:56-107 | By induction over the definition: each subtree occupies one interval, intervals nest, and parent links and child lists agree with them. |
| `Compiler.CompileKeeps` | compile.go:56-107 | State by state the compiled chart is the definition: IDs, kinds, data, invocations and transitions as defined, in order; targets are the states with those IDs; children stand in the order of the definition. |
| `Charts.DescendantIsInterval` | interpreter.go:138-148 | isDescendant is interval membership, in any chart whose intervals nest. |
| `Charts.Nested` | interpreter.go:138-148 | Two subtrees that share a state are nested; the fact every argument about disjoint exit sets rests on. |
| `Charts.LegalCompat` | interpreter.go:1004-1018 | In a legal configuration no compound state separates two active states. |
| `Charts.SortAsc` | interpreter.go:154-161 | Exactly the members of the set, in ascending document order. |
| `Charts.SortDesc` | interpreter.go:163-167 | Exactly the members of the set, in descending document order. |
| `TargetChecks.AtomCollector.Collect` | definition_validate.go:867-899 | The recursive collector with its shared sets fails exactly when the default expansion meets itself or finds no target, adds exactly the default atoms otherwise, and unmarks everything it visited. |
| `TargetChecks.LeastCommonAncestor` | definition_validate.go:924-935 | The two loops over parent links return the lowest state that holds both arguments. |
| `TargetChecks.ValidateTargetSet` | definition_validate.go:815-865 | The check with its maps and pair loops accepts exactly the lists of existing, distinct, unrelated targets whose default atoms are pairwise under parallel ancestors. |
| `Validator.LcaIsLowest` | definition_validate.go:924-935 | The least common ancestor holds both states, and every state that holds both holds it. |
| `Validator.ParallelLcaIsCompat` | definition_validate.go:854-863 | Two atomic states have a parallel least common ancestor exactly when no compound state separates them. |
| `Validator.AtomsInside` | definition_validate.go:867-899 | Default atoms are atomic states inside the subtree the target stands for (a history's parent, or the target itself). |
| `Validator.SomeAtom` | definition_validate.go:850-852 | An expansion that succeeds reaches at least one atomic state, so the check for an empty set never fires. |
| `WellFormed.AcceptedIsFounded` | definition_validate.go:867-899 | Every chart the validator accepts has all its targets below their bounds and an acyclic history-default graph, which is what entry-set construction needs in order to stop. |
| `WellFormed.AcceptedIsWellFormed` | definition_validate.go:815-865 | Acceptance plus the extra conditions of `Careful` (compound root that is never a target, no target beside a history below its parent, no history targeted from inside its parent) gives the shape the run-time theorems assume. |
| `WellFormed.RankDrops` | definition_validate.go:867-899 | Each step along the default-history graph of one parent lowers the rank; the rank exists because the check refuses to visit a state twice. |
| `TargetSets.TargetSetMeaning` | definition_validate.go:815-865 | Sound and complete: in every accepted chart with a compound root, unrelated history-free targets are accepted exactly when some legal configuration contains them all. |
| `TargetSets.ActiveTogetherIsAccepted` | definition_validate.go:815-865 | Completeness: targets active together in a legal configuration pass the check. |
| `TargetSets.AcceptedGoTogether` | definition_validate.go:854-863 | Any two states of an accepted set can be active together as far as the tree is concerned. |
| `TargetSets.AcceptedEntersLegally` | interpreter.go:787-862 | Where histories stand alone in initial and default lists, entering an accepted set by default from nothing builds a legal configuration with every target active; transitions play no part. |
| `Completeness.EntryIsWhole` | interpreter.go:787-833 | In every accepted chart, whatever is recorded and was entered before: each state that entering a target adds is a real one with all its ancestors up to the bound, something in a child if it is compound, and something in every region if it is parallel. |
| `Completeness.ListIsWhole` | interpreter.go:817-826 | The same for a target list with the walks upwards; so all that can go wrong is that a compound state gets two children. |
| `Completeness.EntrySetIsReal` | interpreter.go:948-963 | In every accepted chart with sane histories a microstep enters real states only, never a history. |
| `Defaults.EntrySetDefaults` | interpreter.go:787-862 | In every founded chart, whatever is recorded: default content that runs is a compound state's own or that of an unrecorded history of the state entered, and everything its targets stand for is entered; and each compound state entered runs its own unless it lies on the way up from a target of a transition, of a default transition, or from a record. |
| `Defaults.StartDefaults` | interpreter.go:1509-1532 | The same for start. |
| `TurnTaking.EntryIsTogether` | interpreter.go:787-833 | Entering a target on top of states that go together, beside others that stay, keeps all together, if each atomic state met on the way, on the walks upwards too, goes with what stays and everything entered before its turn. |
| `TurnTaking.TogetherInTurn` | interpreter.go:787-833 | And that is necessary: along an entry whose states all go together every turn was met. |
| `TurnTaking.TurnMoves` | interpreter.go:787-862 | A target that is in order in one place is in order wherever the states entered outside it go with it. |
| `Exactness.SeatedIsLegal` | interpreter.go:1004-1018 | A non-empty set of states that all have their ancestors and parts active, and no two of which exclude each other, is a legal configuration. |
| `Exactness.DefaultEntryLegalIff` | interpreter.go:1509-1532 | Exact: in an accepted chart with a compound root, entering any target list by default, histories included, is legal if and only if each atomic state goes with everything entered before its turn, the regions entered on the walks upwards included. |
| `Exactness.StartLegalIff` | interpreter.go:1509-1532 | Exact: start of an accepted chart with a compound root enters legally if and only if the root's initial targets are in order. |
| `Exactness.EveryDefaultEntryLegalIff` | definition_validate.go:815-899 | Exact, on initial and default lists only: every accepted history-free target set of an accepted chart enters legally by default if and only if the initial list of every compound state is in order. |
| `Exactness.CarefulInOrder` | definition_validate.go:815-899 | Histories that stand alone in their lists are in order, walks upwards included, whatever usable histories are recorded. |
| `Exactness.PlainInOrder` | interpreter.go:787-862 | Where no initial list names a history every list is in order, walks upwards included, whatever is recorded. |
| `Exactness.ClashSpoils` | interpreter.go:796-808 | A target that aims at a state excluded by anything the earlier targets entered, regions entered on the way included, makes default entry of the list illegal. |
| `DefaultGap.DefaultEntryClashes` | interpreter.go:796-808 | A chart the validator accepts, with an accepted target whose default entry enters two children of one compound state, because climbing from a history enters a region that the next target lies in. |
| `DefaultGap.BesideGoesWrong` | interpreter.go:1509-1532 | Start of that chart reaches an illegal configuration. |
| `DefaultGap.OtherOrderIsLegal` | interpreter.go:835-848 | With the same two initial targets in the other order the chart enters legally, and its list is in order although its history does not stand alone. |
| `Completions.TogetherIsLegal` | definition_validate.go:854-863 | In any structurally valid chart with a compound root, real states that go together pairwise are all active in some legal configuration. |
| `Completions.CompletionFills` | definition_validate.go:256-397 | Choosing the touched child of every compound state and all regions of every parallel one fills a subtree completely and keeps every given state of it. |
| `EntryBuilders.EntryBuilder.AddDescendant` | interpreter.go:787-833 | The mutually recursive method terminates on every accepted chart with any recorded history, and adds exactly what AddDescendants defines; its measure is subtree size, then rank in the default-history graph. |
| `EntryBuilders.EntryBuilder.AddEach` | interpreter.go:817-821 | The loop over a target list enters each target's subtree in list order. |
| `EntryBuilders.EntryBuilder.AddAncestorsEach` | interpreter.go:822-826 | The second loop enters the ancestors of each target up to the bound. |
| `EntryBuilders.EntryBuilder.AddAncestorsFrom` | interpreter.go:835-848 | The walk up the parent links enters every ancestor below the bound and, at parallel ones, the regions nothing covers yet. |
| `EntryBuilders.EntryBuilder.AddUncoveredChildren` | interpreter.go:841-846 | Exactly the regions with nothing entered in them are entered by default, in order. |
| `EntryBuilders.TargetCollector.Collect` | interpreter.go:875-902 | Histories expand to their records or default targets, duplicates are dropped, cycles are cut, and the visiting marks are restored. |
| `EntryBuilders.EffectiveTargetStates` | interpreter.go:864-873 | The collected list of states a transition aims at with the histories as they stand. |
| `EntryBuilders.FindLccaLoop` | interpreter.go:913-934 | The loop returns the first compound ancestor (or the root) that holds the whole list. |
| `EntryBuilders.TransitionDomain` | interpreter.go:936-946 | The source itself for internal transitions of compound states with targets below, otherwise the LCCA; nothing for targetless transitions. |
| `EntryBuilders.ComputeExitSet` | interpreter.go:965-979 | The active states below the domains of the transitions that have targets. |
| `EntryBuilders.ComputeEntrySet` | interpreter.go:948-963 | All transitions into one shared entry set, each with its targets, their descendants, and the ancestors up to its domain. |
| `EntryBuilders.ComputeStartEntry` | interpreter.go:1510-1531 | What start enters: a compound root's initial targets with their ancestors, a parallel root's regions, or the root itself. |
| `Transitions.EffectiveTargetsAre` | interpreter.go:864-902 | A state is collected exactly when it is a target or what a targeted history stands for now; the visiting guard never hides one. |
| `Transitions.LccaIsLowest` | interpreter.go:913-934 | In every chart: the result holds the whole list, is compound or the root, and no lower compound ancestor of the source holds the list. |
| `Transitions.DomainHolds` | interpreter.go:936-946 | In every founded chart whose histories name something: a transition with targets has a domain, compound or the root, that holds the source and has every effective target properly below it; an external transition's domain is a proper ancestor of its source. |
| `Transitions.DomainIsLowest` | interpreter.go:913-946 | In every chart: the domain is the lowest compound state, or the root, that holds the source and has all effective targets below it, the source itself counting for internal transitions; only a transition that aims at nothing has none. |
| `Transitions.ZonesBelowDomain` | interpreter.go:936-946 | Everything that entering a target can touch lies below the transition's domain. |
| `Transitions.TargetsUnderDomain` | interpreter.go:936-963 | In any founded chart the walk up from an effective target meets the domain, so computing an entry set never falls off the tree. |
| `Transitions.EntryOfIsRegion` | interpreter.go:951-960 | Entering one transition's targets leaves one complete, conflict-free region below its domain and changes nothing elsewhere. |
| `Regions.Plant` | interpreter.go:787-833 | Entering one untouched target adds a complete conflict-free part of its zone, with everything it stands for, and removes nothing. |
| `Regions.PlantHistory` | interpreter.go:788-810 | The same for a history, recorded or not. |
| `Regions.PlantList` | interpreter.go:817-826 | A list of targets that are apart, with the ancestors up to the bound, adds one complete region below the bound. |
| `Regions.Climb` | interpreter.go:835-848 | The walk up from an entered state closes the gap above it and fills every region it passes. |
| `Regions.ClimbAll` | interpreter.go:955-959 | The walks of all targets together close every gap below the bound. |
| `Regions.Join` | interpreter.go:951-960 | Two conflict-free families of entered states that go together make one. |
| `Configurations.RegionIsLegal` | interpreter.go:1509-1532 | A non-empty complete region below the root is a legal configuration. |
| `Configurations.ReplacedIsLegal` | interpreter.go:1440-1463 | Replacing everything below some active, incomparable compound states by complete regions keeps a configuration legal, and what is entered meets nothing that stays. |
| `Locality.EntryIsLocal` | interpreter.go:787-862 | What entering a target adds lies in its own part of the chart and depends only on what was already entered there. |
| `Locality.EffectiveEntered` | interpreter.go:787-811 | Whatever was entered before, entering a target enters everything it stands for now. |
| `Selection.SelectionIsOptimal` | interpreter.go:1342-1436 | In every legal configuration of every accepted chart, whatever is recorded and enabled: the kept transitions have disjoint exit sets, and every enabled transition dropped conflicts with a kept one whose source is a proper descendant of its own or which was selected earlier in document order. |
| `Selection.PicksAreOk` | interpreter.go:1342-1384 | Each picked transition is the first enabled one on the way from an active atomic state to the root; transitions appear once, in the order of the atomic states. |
| `Selection.ComparableSourcesConflict` | interpreter.go:1399-1436 | If one source lies in the other's subtree and both have targets, the two exit a common state. |
| `Selection.ComparableDomainsConflict` | interpreter.go:1399-1436 | Comparable domains of picked transitions always exit a common state. |
| `Selection.PicksBetween` | interpreter.go:1342-1362 | The picks of one subtree are consecutive; this is where preorder intervals are needed. |
| `Selection.WitnessReplaced` | interpreter.go:1417-1435 | When a newcomer replaces the transition that outranked a dropped one, the newcomer outranks it too. |
| `Choices.SelectedRespond` | interpreter.go:1321-1384 | In every accepted chart, whatever the model answers: every selected transition has a descriptor that matches the event (none at all, if there is no event) and a guard that holds, and is the first such on the way up from some active atomic state. |
| `Choices.BranchResponds` | interpreter.go:1342-1436 | Conversely, in a legal configuration: if anything on the way up from an active atomic state responds, the first that does is selected, or shares an exit with a selected one whose source lies properly below its own or which an earlier atomic state chose. |
| `Choices.FailuresReported` | interpreter.go:1330-1384 | A selection changes nothing but that it reports one error for each failing guard met on the ways up: a transition that awaits the event, with nothing before it that responds. |
| `Microsteps.SelectedAreIndependent` | interpreter.go:1399-1436 | The kept transitions have pairwise incomparable domains, each active or the root. |
| `Microsteps.EntrySetRegions` | interpreter.go:948-963 | The shared entry set of such transitions is one complete region below each domain. |
| `Microsteps.ExitSetsAre` | interpreter.go:965-979 | The exit set is exactly the active states below some domain. |
| `Microsteps.RecordAllIs` | interpreter.go:1279-1302 | Exactly the histories of exited states are re-recorded, with what was active before the exit. |
| `Microsteps.RecordedIsOk` | interpreter.go:1287-1301 | What a history records in a legal configuration is non-empty, below its parent, and can be active together again. |
| `Microsteps.RecordKeepsHistoryOk` | interpreter.go:1279-1302 | Recording keeps every history usable. |
| `Microsteps.StepIsLegal` | interpreter.go:1440-1463 | Selection and step together: the entry set lies strictly below the domains, meets nothing that stays, and the next configuration and histories are legal. |
| `Microsteps.LastExitCounts` | interpreter.go:1279-1302 | Over any run of exits a history stands for what its parent's most recent exit saw. |
| `HistoryStates.DeepHistoryRestores` | interpreter.go:787-811 | In every accepted chart, whatever transitions are taken together: if one of them aims at a recorded deep history and the next configuration is legal, the parent's subtree is exactly as it was in the configuration recorded. |
| `HistoryStates.ShallowHistoryRestores` | interpreter.go:787-811 | Likewise a shallow history brings back the same active children. |
| `HistoryStates.ShallowChildrenAreDefault` | interpreter.go:787-811 | A child that returns through a shallow history is exactly what default entry of it alone enters, if nothing in it had been entered when the transition's turn came. |
| `Recall.Remembered` | interpreter.go:1279-1302 | In every live state of an instance of any accepted chart a history holds exactly what was active when its parent was last left in the run so far; in careful charts that configuration was legal. |
| `Recall.DeepHistoryRoundTrip` | interpreter.go:787-811 | Over any run of any accepted chart: a microstep into a legal configuration in which some transition aims at a deep history makes the parent's subtree exactly what it was when the run last left the parent, if that configuration was legal. |
| `Recall.ShallowHistoryRoundTrip` | interpreter.go:787-811 | Over any run, likewise: through a shallow history the parent has the active children it had when it was last left. |
| `Recall.SelectsGoesBack` | interpreter.go:1399-1463 | In careful charts both configurations are always legal for a selected transition to the history alone from outside its parent, and nothing in the parent has been entered before its turn. |
| `Recall.ShallowReturnsByDefault` | interpreter.go:787-811 | So there each returning child of a shallow history is exactly as default entry leaves it. |
| `HistoryStates.LeavesDetermine` | interpreter.go:1287-1293 | The recorded atomic states of a legal configuration determine everything that was active in the parent. |
| `HistoryStates.TurnComes` | interpreter.go:951-960 | In careful charts, when a selected transition has its turn in the shared entry set, nothing has been entered below its domain yet. |
| `Stepping.EntryOfHangs` | interpreter.go:951-960 | In every accepted chart each state a transition enters has its parts and all its ancestors up to the domain, or up to a state that holds the domain; and something is entered below the domain. |
| `Stepping.StepLegalIff` | interpreter.go:1440-1463 | Exact, for any transitions that can be taken together in a legal configuration: the next configuration is legal if and only if each atomic state entered, regions entered on the walks upwards included, goes with what stays and with everything entered before its turn. |
| `Courses.SelectedAreSteppable` | interpreter.go:1399-1436 | What a selection keeps can be taken together, in every accepted chart: sources are active and no domain lies below another. |
| `Courses.NextLegalIff` | interpreter.go:1440-1463 | Exact, whatever is enabled, in every accepted chart with a compound root: from a legal configuration, selecting and stepping is legal if and only if no kept transition aims at the root and each atomic state entered goes with what stays and with everything entered before its turn. |
| `Courses.CourseRecalls` | interpreter.go:1279-1302 | Along every run of an accepted chart from start, as long as configurations were legal, recorded histories are real states of their parents and none is empty. |
| `Courses.SelectAlone` | interpreter.go:1364-1436 | A transition enabled alone on the branch of an active atomic state is the whole selection. |
| `Roots.RootTargetIff` | interpreter.go:812-827 | In any founded chart and from any configuration: the root is an effective target exactly when it is the target, becomes active exactly then, and the next configuration is not legal. |
| `Roots.ParallelRootIff` | interpreter.go:835-848 | Under a parallel root, from any configuration, a step whose domain is the root keeps all regions if and only if each holds an effective target. |
| `Roots.EntryArms` | interpreter.go:787-833 | Whatever a target enters lies in a child of the root that holds one of its effective states. |
| `Gaps.ExclusiveTargetsAreIllegal` | interpreter.go:1440-1463 | In any founded chart and from any configuration, a transition taken alone whose run-time targets exclude each other leads to an illegal configuration; the equivalence is Courses.NextLegalIff. |
| `Gaps.ParallelRootLosesARegion` | interpreter.go:835-848 | An accepted chart with a parallel root: start enters both regions, and a step inside one leaves the other exited and not entered again. |
| `Gaps.RootTargetGoesWrong` | interpreter.go:812-827 | An accepted chart with the root as a target: start and one step reach a configuration with the root in it. |
| `Gaps.OverlapGoesWrong` | interpreter.go:789-795 | An accepted chart with a history beside another target: start, then its transition twice; the record made by the first makes the second enter two children of one compound state. |
| `Gaps.FromInsideGoesWrong` | interpreter.go:803-807 | An accepted chart with a history targeted from inside its parent: start and two steps enter a default child beside the active one. |
| `Bookkeeping.ApplyAllKept` | interpreter.go:171-264 | Whatever executable content does, the external queue grows by exactly what arrived, no pending send is dispatched, and the ledger of delayed sends balances. |
| `Bookkeeping.LedgerExclusive` | interpreter.go:227-264 | Every order number handed out is in exactly one of pending, dispatched and dropped, exactly once; no other number is in any. |
| `Bookkeeping.ArmKept` | interpreter.go:244-263 | Arming a delayed send keeps the (fireAt, order) order and adds one new number to the ledger. |
| `Bookkeeping.DoCancelKept` | interpreter.go:398-411 | Cancelling keeps both queues, the order of the pending sends and the balance of the ledger. |
| `Bookkeeping.FireTimerMoved` | interpreter.go:352-358 | A firing timer takes its own record off the pending sends and no other, and counts it as dispatched; Deliveries.FireTimerDelivers says where its event goes. |
| `Deliveries.DispatchPosts` | interpreter.go:273-323 | An event sent at once goes where its type and target say: unknown types fail with the send's ID; `#_internal` gets one internal event; the empty target or the own session one external event with the session's origin; any other target is one request to a processor, whose failure is one error with the send's ID. |
| `Deliveries.FireTimerDelivers` | interpreter.go:352-358 | A timer that fires takes exactly its record off the pending sends and posts its event there. |
| `Deliveries.DoSendSends` | interpreter.go:227-264 | A send given two IDs, or whose ID location fails, is one error with its ID; without delay it is posted at once; with one, exactly one record is armed, due now plus the delay; and its event carries an ID only if the author can see one. |
| `Deliveries.DoCancelCancels` | interpreter.go:398-411 | Exactly the pending records with that author-visible ID leave, and are counted as dropped; none for an empty ID. |
| `Deliveries.ApplyAllDoes` | interpreter.go:171-264 | The effects of one piece of content happen one after the other, each as stated for it. |
| `Finals.InFinalStateIs` | interpreter.go:983-1002 | A state is done exactly if every way down from it through parallel states ends in a compound state with an active final child. |
| `Invocations.FreshSeqIsFirst` | interpreter.go:1107-1116 | The generated invocation number is the first above the counter whose ID is neither running nor declared; the loop stops. |
| `Invocations.InvocationsAgree` | interpreter.go:1093-1197 | Under the invariant the index by ID and the index by owner hold the same invocations, and no two share an ID. |
| `Invocations.BeginInvokeKeeps` | interpreter.go:1106-1137 | Starting (or failing to start) the next declared invocation of a state keeps the two indexes in agreement. |
| `Invocations.BeginInvokeTries` | interpreter.go:1106-1137 | Starting the next declared invocation asks the model once, under the declared ID or the first free generated one; a refusal is one event with that ID, and what starts is the last of its owner's and the one with its ID, of the declared or computed type. |
| `Invocations.CancelKeeps` | interpreter.go:1074-1085 | Cancelling keeps the two indexes in agreement. |
| `Invocations.CancelIs` | interpreter.go:1074-1085 | Cancelling a state's invocations removes its own from both indexes, and if the indexes agree no other. |
| `Steps.ExitEachIs` | interpreter.go:1062-1067 | Exiting a list of states runs their exit content, in order, each seeing what is not left yet, and removes exactly them from the configuration, from the states waiting to invoke and from both invocation indexes. |
| `Steps.RunBlockIs` | interpreter.go:671-680 | Running content asks the model once, with what it may see, keeps the data it answers, and has the effects it answers, in order. |
| `Steps.RunFinalizeIs` | interpreter.go:681-697 | Finalize content keeps its data, and every attempt to raise, send or cancel is one error instead. |
| `Steps.EnterEachIs` | interpreter.go:1004-1060 | Entering a list of states adds exactly them and runs, for each in order, its data if it is not initialized, its entry content and the default content asked for, and for a final state its data; it queues exactly those that declare invocations, and ends the machine exactly if one is a top-level final state. |
| `Steps.TakeEachIs` | interpreter.go:1440-1463 | The content of the transitions runs in order and changes only data and mail. |
| `Steps.EnterFinalIs` | interpreter.go:1020-1059 | Entering a final state adds to the internal queue exactly: one error if its data failed; unless it lies directly below the root, the event that its parent is done, with the data; and if the grandparent is parallel and finished, the event that it is done.  It completes and stops the machine exactly if it lies directly below the root. |
| `Steps.EnterStateRaises` | interpreter.go:1004-1060 | These events come right after the content of the state and see it active; other states raise none. |
| `Runs.MicrostepIs` | interpreter.go:1440-1463 | One selected microstep from a live state of any accepted chart: the new configuration is the old one minus the exit set plus the entry set; the content run is exactly the exit content of what is left, descending, the content of the transitions, in order, and the entry content of what is entered, ascending, with the configuration each sees; histories record the exit; only the invocations of what is left end; and known states, ledger and event order still hold.  In careful charts also: exits are everything active below the domains, entries lie strictly below them and meet nothing that stays, and legality, usable histories and invocation agreement hold. |
| `Runs.StepCallsAre` | interpreter.go:1276-1307 | So the exit content of exactly the states left and the entry content of exactly those entered runs, data where it is new, default content where the entry set asks for it, transition content of exactly those taken; descendants exit before ancestors, then transitions act, then ancestors enter before descendants; nothing is left, entered or initialized twice. |
| `Runs.ProcessInvokesIs` | interpreter.go:1093-1104 | In any accepted chart every invocation declared by the states entered during the macrostep and still active is started, state by state in document order and in the order of declaration; nobody is left waiting, and nothing but data, mail and invocations changes. |
| `Macrosteps.TakeSelected` | interpreter.go:1440-1463 | In any accepted chart a selection with its microstep keeps every run-time invariant and consumes no external event. |
| `Macrosteps.TakeSelectedIs` | interpreter.go:1440-1495 | In any accepted chart a selection comes to the reports of its failing guards alone, if it selected nothing, and otherwise to one microstep by exactly what it selected. |
| `Macrosteps.Round` | interpreter.go:1467-1495 | One pass of the loop keeps every run-time invariant, internal and external event order included. |
| `Macrosteps.RoundEventless` | interpreter.go:1467-1495 | While an eventless transition is enabled a pass takes no event: it is a microstep by the eventless selection. |
| `Macrosteps.RoundTakesEarliest` | interpreter.go:1467-1495 | When none is, a pass takes the earliest internal event that was raised and not taken yet, makes it the current event and selects for it. |
| `Macrosteps.RoundInvokes` | interpreter.go:1467-1495 | And with no internal event left it starts the waiting invocations, and ends the loop unless that raised something. |
| `Macrosteps.RunToStable` | interpreter.go:1467-1495 | For any accepted chart and any number of passes: the invariants hold, no pending send fires, no external event is consumed, internal events are taken in the order in which they were raised; and in careful charts every configuration on the way is legal. |
| `Macrosteps.BudgetSuffices` | interpreter.go:1467-1495 | Once the loop has ended, a larger step budget changes nothing. |
| `Macrosteps.RunsToCompletion` | interpreter.go:1467-1495 | In every accepted chart: whenever runToStable returns with the chart still running, the internal queue and the states waiting to invoke are empty and the last selection enabled no eventless transition. |
| `Macrosteps.InitialEntryIsLegal` | interpreter.go:1509-1532 | In careful charts entering the root's initial targets builds a legal configuration; Exactness.StartLegalIff is the equivalence for the others. |
| `Macrosteps.EnteredIsLive` | interpreter.go:1499-1546 | In every accepted chart, whatever its root: after start has entered its states all invariants hold, what ran is the chart's data, with early binding every state's, and then the entry content in document order, and the machine runs exactly if no top-level final state was entered. |
| `Macrosteps.Start` | interpreter.go:1499-1547 | In every accepted chart start, initial macrostep included, ends in a live state. |
| `Instances.ProcessNextExternal` | interpreter.go:1553-1568 | One external event is taken from the head of the queue; all invariants hold afterwards. |
| `Instances.NextTakesEarliest` | interpreter.go:1553-1568 | The external event taken is the earliest that arrived and was not consumed; after its sender's finalize content it is the current event and the one selected for. |
| `Instances.InvokeSideEffectsAre` | interpreter.go:1218-1236 | An event from a running invocation runs that invocation's finalize content, which queues nothing but errors; any other runs nothing. |
| `Instances.Drain` | instance.go:765-786 | External events first, then one internal drain; all invariants hold, and no delayed send fires. |
| `Instances.ExitIsClean` | interpreter.go:1261-1274 | Exit runs every active state's exit content, descendants first, each seeing what is not left yet, and leaves configuration, both invocation indexes, the states waiting to invoke and the pending sends empty. |
| `Instances.ActivateIs` | instance.go:637-677 | Activation with a clock reading for every record: it fires, in (fireAt, order) order, only records overdue at their own reading, arms those not yet due, and leaves no other of them pending. |
| `Instances.ActivateDelivers` | instance.go:637-677 | Every record that activation fires is posted, at some moment of it, to where its target and type say. |
| `Instances.DispatchedIsGone` | interpreter.go:352-358 | A dispatched record is never pending again. |
| `Instances.HandleTimerFire` | interpreter.go:336-348 | A timer's firing keeps every run-time invariant. |
| `Instances.TimerDelivers` | interpreter.go:336-358 | A timer whose record was cancelled does nothing, a vetoed one stops the machine, and any other takes exactly its record off the pending sends and posts its event to where its target and type say. |
| `Instances.BestMatchIs` | interpreter.go:363-394 | A logged fire consumes the first pending record, by due time and number, that matches it in ID, target, type and name, if there is one; otherwise the first with that ID; and none only if no record has it. |
| `Instances.ReplayFireDelivers` | interpreter.go:363-394 | And the logged event goes to where the logged target and type say. |
| `Requests.Receive` | instance.go:853-913 | Every kind of request keeps every run-time invariant. |
| `Requests.ReceiveIs` | instance.go:853-913 | What each kind of request does before the queues are drained: a delivery adds its event to one queue, unless it is from an unknown invocation or refused; a timer, a logged timer and going live post as stated; stop and a stored checkpoint stop the machine; a query changes nothing. |
| `Requests.Finish` | instance.go:914-917 | The drain and, when the machine has stopped, the exit at the end of a request keep the invariants; after an exit nothing is left behind. |
| `Requests.Life` | instance.go:824-950 | Over any life of an instance of any accepted chart, any inbox and any clock readings: the ledger of delayed sends balances, external and internal events are taken in the order in which they came, histories hold what was last left, only active states own invocations, and nothing is left behind at the end. |
| `Requests.CarefulLife` | instance.go:824-950 | If the chart is careful, also: only legal configurations occur, histories stay usable, and the two invocation indexes agree. |
| `Requests.SendsAreSettledAndInOrder` | instance.go:824-917 | In every accepted chart, over a life of external Sends: external events are consumed in arrival order and internal ones in the order raised, each external one only from a state where the previous macrostep ran to completion: no internal event or invocation waits, the last selection enabled no eventless transition, and since then events arrived and time passed and nothing else; a finished running life has consumed all of both. |
| `Requests.EverySendArrives` | instance.go:824-917 | Every Send that the hook accepts is consumed, in order, if the instance runs on, whatever it sends itself meanwhile. |
| `Requests.DrainLeavesLateArrivals` | instance.go:765-786 | In general, a drain that leaves the chart running leaves queued exactly the external events that arrived during its last, internal part. |
| `Interpreter.Interpretation.Send` | interpreter.go:227-264 | doSend on the object: duplicate ID options and failed ID locations are reported, sends without delay dispatch, the rest are armed. |
| `Interpreter.Interpretation.DispatchNow` | interpreter.go:273-315 | Unknown processors are errors; internal, own-session and processor targets each go where the code sends them. |
| `Interpreter.Interpretation.ArmTimer` | interpreter.go:244-263 | The record joins the pending set at its (fireAt, order) place with the next order number. |
| `Interpreter.Interpretation.CancelSend` | interpreter.go:398-411 | Exactly the records whose author-visible ID matches leave the pending set. |
| `Interpreter.Interpretation.Fire` | interpreter.go:352-358 | The record leaves the pending set before its event is dispatched; Deliveries.FireTimerDelivers says where that goes. |
| `Interpreter.Interpretation.RunFinalizeBlock` | interpreter.go:681-697 | Raising, sending and cancelling inside finalize become error events. |
| `Interpreter.Interpretation.RunEntryHandlers` | interpreter.go:1006-1011 | Late data once per state, then onentry, then the default-transition actions in order; Steps.EnterEachIs says what runs. |
| `Interpreter.Interpretation.RaiseDone` | interpreter.go:1026-1059 | The done events are queued as DoneMail specifies, whose meaning is Steps.EnterFinalIs. |
| `Interpreter.Interpretation.EnterFinalState` | interpreter.go:1020-1059 | The final state's data, its done events, and for top-level finals completion. |
| `Interpreter.Interpretation.Enter` | interpreter.go:1004-1060 | enterState computes the specification's EnterState. |
| `Interpreter.Interpretation.Exit` | interpreter.go:1062-1067 | exitState computes ExitState: exit content, then invocations, then the configuration; Steps.ExitEachIs says what runs. |
| `Interpreter.Interpretation.CancelInvocations` | interpreter.go:1074-1085 | The loop removes the state's invocations from both indexes. |
| `Interpreter.Interpretation.RecordHistory` | interpreter.go:1279-1302 | The nested loops record every history child of every exited state, before anything is removed. |
| `Interpreter.Interpretation.NextInvokeId` | interpreter.go:1107-1116 | The loop finds the first free generated ID, and stops. |
| `Interpreter.Interpretation.StartInvocation` | interpreter.go:1106-1137 | beginInvoke computes BeginInvoke: an unused ID, a started invocation in both indexes, or a reported failure. |
| `Interpreter.Interpretation.StartInvocations` | interpreter.go:1093-1104 | processInvokes empties the waiting set and starts its states' invocations in document order. |
| `Interpreter.Interpretation.MatchesDescriptors` | interpreter.go:1321-1328 | The loop over descriptors decides whether the transition awaits the event. |
| `Interpreter.Interpretation.AskGuard` | interpreter.go:1330-1340 | A guard that fails is reported once and does not hold; one that is not awaited is not asked. |
| `Interpreter.Interpretation.ScanState` | interpreter.go:1348-1358 | The first enabled transition of one state, with every failing guard met before it reported. |
| `Interpreter.Interpretation.ChooseFrom` | interpreter.go:1342-1384 | The loop from an atomic state to the root picks the first enabled transition on the way. |
| `Interpreter.Interpretation.SelectTransitions` | interpreter.go:1342-1384 | Both selections compute the specified choice and report exactly the failing guards. |
| `Interpreter.Interpretation.RemoveConflicting` | interpreter.go:1399-1436 | The loop computes the specified conflict removal. |
| `Interpreter.Interpretation.AdmitOne` | interpreter.go:1405-1433 | One newcomer is preempted, or replaces the less specific transitions it conflicts with. |
| `Interpreter.Interpretation.TakeMicrostep` | interpreter.go:1440-1463 | microstep on the object: entry set computed before history is recorded, then exits, actions and entries. |
| `Interpreter.Interpretation.RunRound` | interpreter.go:1467-1495 | One pass of runToStable's loop. |
| `Interpreter.Interpretation.RunToStability` | interpreter.go:1467-1495 | The loop computes RunToStable for the same budget. |
| `Interpreter.Interpretation.Start` | interpreter.go:1499-1547 | start on a fresh object, whatever its root, computes the specified start. |
| `Interpreter.Interpretation.ConsumeExternal` | interpreter.go:1553-1568 | processNextExternal on the object. |
| `Interpreter.Interpretation.DrainQueues` | instance.go:765-786 | drainQueuedEvents on the object. |
| `Interpreter.Interpretation.Leave` | interpreter.go:1261-1274 | exitInterpreter on the object. |
| `Interpreter.Interpretation.TimerElapsed` | interpreter.go:336-348 | handleTimerFire on the object, with the hook's veto. |
| `InstanceLoop.ActivatePendingTimers` | instance.go:637-677 | The loop over the sorted records computes the specified activation. |
| `InstanceLoop.ReceiveMessage` | instance.go:853-913 | The switch over request kinds computes Receive. |
| `InstanceLoop.HandleMessage` | instance.go:853-917 | One whole request computes Handle. |
| `InstanceLoop.FireReplayed` | interpreter.go:363-394 | A logged fire consumes the best-matching pending record (full match first, then send ID alone, each in (fireAt, order) order), or is dispatched without one. |
| `InstanceLoop.ReplayLog` | replay.go:255-276 | The loop over the log computes Replay: external entries after completion are skipped, other entries after completion fail. |
| `InstanceLoop.RehydrateFrom` | replay.go:247-276 | The replay with its separate first entry. |
| `InstanceLoop.TakeSnapshot` | snapshot.go:93-163 | The loops collect exactly what BuildSnapshot defines, pending sends in (fireAt, order) order. |
| `InstanceLoop.Restore` | snapshot.go:244-364 | restoreFrom accepts exactly the snapshots RestoreFrom accepts and assigns exactly its state. |
| `Snapshots.FindDefinition` | compile.go:94-98 | The declaration with an ID is found exactly when there is one. |
| `Snapshots.SnapshotRoundTrip` | snapshot.go:244-364 | In any accepted chart, restoring the snapshot of a live, uncompleted state that waits for no invocation and whose invocation indexes agree (in careful charts they always do) succeeds and gives the same state up to the last event, the numbering of pending sends and the order of one state's invocations, with all invariants. |
| `Snapshots.RestoreAcceptsExactly` | snapshot.go:244-364 | A snapshot is restored exactly if every state it names is known and the invocations it lists are ones that can be stored: of active states, declared there, of a fitting type, and each with its own ID and declaration. |
| `Snapshots.RearmedLedger` | snapshot.go:291-304 | Renumbering pending sends from 1 keeps their order and balances a fresh ledger. |
| `Snapshots.RebuiltIsSame` | snapshot.go:313-360 | The rebuilt indexes hold exactly the invocations that were stored. |
| `Replays.SameMicrostep` | interpreter.go:1440-1463 | A microstep takes equivalent states to equivalent states. |
| `Replays.SameReplayFire` | interpreter.go:363-394 | A logged fire does, although the records' order numbers differ. |
| `Replays.SameProcessInvokes` | interpreter.go:1093-1104 | Starting invocations does, with the same generated IDs. |
| `Replays.SameRunToStable` | interpreter.go:1467-1495 | Running to stability takes equivalent states to equivalent states, in the same number of passes. |
| `Eventless.BlindSelection` | interpreter.go:1364-1384 | If conditions of eventless transitions do not read the event, an eventless selection is the same whatever the last event was. |
| `Checkpoints.BlindFinish` | instance.go:914-917 | Draining after an entry forgets the difference in the last event, or leaves both states resting. |
| `Checkpoints.ReplayAppend` | replay.go:255-276 | Replaying two stretches of log one after the other is replaying them together. |
| `Checkpoints.ReplayWhenStopped` | replay.go:255-276 | Once the machine has completed external entries are skipped and any other fails the replay; before it runs a session start sets the clock and any other entry fails it. |
| `Lives.LifeReplays` | replay.go:229-276 | If each message of a life was logged as it was received, replaying the log from the same start ends in the same state as the life, in every field, the observations included. |
| `Lives.ReplayFiresSameIff` | interpreter.go:363-394 | A logged timer is replayed as it fired if and only if it was the first, by due time and number, of the pending records with its ID, target, type and event name. |
| `Eventless.StableIsCalm` | interpreter.go:1467-1495 | Where conditions of eventless transitions read nothing that starting invocations changes, every stable state enables no eventless transition. |
| `Checkpoints.CheckpointIsTransparent` | replay.go:229-276 | Where conditions of eventless transitions read neither the last event nor what starting invocations changes, every log may be split wherever its replay runs with no external event queued: replaying the rest from the restored checkpoint fails exactly when replaying the whole log does and ends in the same configuration, history, queues, counters, data, invocations and sorted pending sends. |
| `Transparency.CheckpointTransparentExactly` | replay.go:229-276 | Without any condition on the model: at any idle running point of any log, resuming from the checkpoint ends like the whole log for every rest of the log if and only if both states run to stability alike on the first internal event that arrives, after any stretch that queues nothing; a calm state under event-blind conditions, or one without a last event, always satisfies this. |
| `Transparency.TransparencyExactly` | replay.go:255-276 | The same equivalence between any two live idle states that agree but for the last event. |
| `Transparency.TickIsTransparent` | replay.go:255-276 | One such tick: the log that ends in it is replayed alike if and only if RunToStable from the two states with the event queued ends alike (with the exit, if it stops), with the same last event if it goes on. |
| `CheckpointGap.ReplaysDiffer` | snapshot.go:93-163 | A well-formed chart with an invocation and event-blind conditions, and a log of two entries: an event, and the failure of the invocation it started, as the instance delivers it.  Starting the invocation enables an eventless transition, the failure takes it, and its content reads the last event; replaying the whole log and resuming from the snapshot end differently. |
| `Store.MemoryStore.PutDefinition` | storagetest/memory.go:54-74 | Stores a new artifact, confirms an equal one, refuses a different one under the same revision. |
| `Store.MemoryStore.DeleteDefinitionIfUnreferenced` | storagetest/memory.go:93-115 | Deletes exactly a stored definition that no active actor is pinned to. |
| `Store.MemoryStore.BeginActor` | storagetest/memory.go:117-185 | Creates the record and the sole start entry, or reports the existing actor, collision, missing or mismatched definition, without other change. |
| `Store.MemoryStore.MarkActorTerminal` | storagetest/memory.go:245-274 | Ends an active actor once; later calls return the first record unchanged. |
| `Store.MemoryStore.ReferencedRevisions` | storagetest/memory.go:276-297 | Exactly the revisions of active actors, sorted. |
| `Store.MemoryStore.ValidateStored` | storagetest/memory.go:299-330 | Finds nothing wrong with any record of a store that satisfies the invariant. |
| `Store.MemoryStore.Append` | storagetest/memory.go:332-347 | Appends at the next sequence number. |
| `Store.MemoryStore.AppendIngress` | storagetest/memory.go:384-406 | Appends a delivery once, answers duplicates without appending, refuses terminal sessions. |
| `Store.MemoryStore.QueryActors` | storagetest/memory.go:212-243 | One page, in ID order, of the records after the cursor that pass the filters, with a cursor exactly if more remain. |
| `Store.StoreInvariantExactly` | storagetest/memory.go:117-185 | Over any operations, from a good store: the store stays good (logs gapless from 1, every actor owning its session whose first and only start entry matches it, every active actor's definition stored with the same chart) if and only if no operation, when its turn came, appended a session-start entry to a log that had begun. |
| `Store.StepEffect` | storagetest/memory.go:54-406 | When each operation takes effect and what is then read: definitions and logs hold what was given, a log entry is numbered by its place, deliveries are remembered, all else stays, and an operation that takes no effect changes nothing. |
| `Store.StoreInvariant` | storagetest/memory.go:117-185 | In particular over any operations in which clients leave session-start entries alone. |
| `Store.AppendKeepsGoodExactly` | storagetest/memory.go:332-347 | An append keeps a good store good if and only if it is no session-start entry or its log is empty. |
| `Store.RecordsAreStable` | storagetest/memory.go:245-274 | Over any operations an actor's identity never changes, and a terminal record, timestamp included, is final. |
| `Store.BeginIsRecorded` | storagetest/memory.go:117-185 | An actor that is begun stays recorded as given, and its log begins with its start entry, whatever happens later. |
| `Store.FirstEndCounts` | storagetest/memory.go:245-274 | An active actor that is marked is recorded as ended at the time given, in all else as it was, whatever happens later; a later mark answers with that record. |
| `Store.LogsOnlyGrow` | storagetest/memory.go:332-347 | Over any operations each log is a prefix of what it becomes. |
| `Store.DeliveredAtMostOnce` | storagetest/memory.go:384-406 | Over any operations a delivery ID is appended to its session exactly once if it becomes known during the run, and never if it was known before. |
| `Store.EndedTakesNoIngress` | storagetest/memory.go:384-406 | After an actor ended no delivery to its session is ever appended. |
| `Store.PinnedDefinitionStays` | storagetest/memory.go:93-115 | While an actor stays active its definition is neither deleted nor replaced. |
| `Directory.System.LocalAfter` | actors/inspection.go:106-132 | At most limit + 1 matching local actors, ascending; any matching one left out comes after all of them. |
| `Directory.System.Merge` | actors/inspection.go:189-197 | One storage page joins the merge: exactly its matching records, with local information winning. |
| `Directory.System.ReadStorage` | actors/inspection.go:179-208 | The storage loop ends, and stops only with all of storage read or with a full page that nothing unread can precede. |
| `Directory.System.QueryActors` | actors/inspection.go:161-224 | The page is the first Limit elements of the sorted, filtered union of local and stored actors after the cursor, local information winning, and Next is set exactly if more remain. |
| `Directory.FirstPageIsRight` | actors/inspection.go:198-224 | However the merge stopped, cutting it at Limit gives the directory's first page, despite truncated local input. |
| `Directory.NothingStoredMatches` | actors/inspection.go:177-179 | When the filters keep storage from being read, nothing in it could have matched. |
| `Directory.RestIsListed` | actors/inspection.go:214-219 | What the query after the returned cursor lists is exactly what the page left out. |
| `Directory.FollowingNextListsAll` | actors/inspection.go:161-224 | Following Next enumerates every match exactly once, in ID order, and ends. |
| `Ordering.Sort` | actors/inspection.go:209-213 | Sorting a map's keys gives the one ascending sequence of them. |
| `Residency.ResidencyIsBounded` | actors/system.go:1232-1266 | Under every interleaving of activations, evictions, completions and messages, no more than the limit are resident. |
| `Residency.OnlySafeEvictions` | actors/system.go:1329-1402 | Over every run, whoever leaves memory has finished or is durable, and a residency victim was durable, unlocked, resident and without active invocation when chosen. |
| `Residency.AdmitTerminates` | actors/system.go:1232-1254 | Whatever the others do, an admission takes no more steps inside its loop than its budget when it started. |
| `Residency.StepKeepsInv` | actors/system.go:999-1027 | Every step of every caller keeps lock ownership exclusive and the count of residents and reservations within the limit. |
| `Pins.PinSafety` | actors/system.go:543-608 | Under every interleaving of Register, Publish, Spawn, CollectDefinition and completion, every initialized actor that has not ended has its revision compiled (and stored, if durable), unless the store already records its end and its completion is in flight; and every kind's current revision is compiled and stored. |
| `Pins.NextKeepsInv` | actors/system.go:543-608 | Each lock-protected region of each call keeps the invariant behind that. |
| `Pins.DropStep` | actors/system.go:600-607 | Dropping a compiled revision after durable deletion hurts no actor that runs or may still run. |
| `Pins.BeginStep` | actors/system.go:806-842 | Beginning an actor pins a revision only while storage still has it. |
| `Pins.ActivationFindsItsRevision` | actors/system.go:999-1027 | Whoever activates an actor whose completion has not begun finds its revision. |
| `Pins.PinsAreForever` | actors/system.go:860-877 | Over every run an initialized entry keeps its revision, kind and durability, a stored actor keeps its pin, and neither revives. |
| `Pins.OnlyALateCollectionDrops` | actors/system.go:600-607 | A step takes the compiled revision from an actor that stays live exactly when it is the last region of a CollectDefinition for that revision, and then the actor's completion is under way. |
| `Pins.LateDrop` | actors/system.go:1108-1127 | And that does happen: a run in which a collection that had searched the table before the entry was pinned drops the revision between the two writes of the actor's completion. |
| `Decimals.ScanDigits` | value.go:773-775 | A digit loop stops at the first character that is no digit. |
| `Decimals.Strip` | value.go:819-836 | Leading and trailing zeros are removed, and the trailing ones counted. |
| `Decimals.ReadIntegerPart` | value.go:765-779 | Accepts exactly a zero not followed by a digit, or digits without a leading zero. |
| `Decimals.ReadFractionPart` | value.go:781-792 | Accepts a missing fraction, or a point with at least one digit. |
| `Decimals.ReadExponent` | value.go:794-816 | Accepts a missing exponent, or a mark, an optional sign and at least one digit, with nothing after it. |
| `Decimals.CanonicalNumber` | value.go:750-845 | The scanner returns exactly the canonical spelling, or fails exactly on strings outside the grammar. |
| `Decimals.ParseIsGrammar` | value.go:750-816 | The reference reader succeeds on exactly the spellings of the grammar of section 6 of RFC 8259. |
| `Decimals.ParseOfSpell` | value.go:750-816 | Every spelling is read back as the number it spells, so the grammar is unambiguous. |
| `Decimals.CanonicalKeepsValue` | value.go:750-845 | Accepted exactly if a JSON number; the canonical spelling is a JSON number of the same rational value and its own canonical spelling. |
| `Decimals.EqualSpellingsAreEqualValues` | value.go:82-88 | Two numbers have the same canonical spelling exactly when they are the same rational. |
| `Decimals.AsInt64IsExact` | value.go:199-221 | AsInt64 yields n exactly when the number's value is the integer n and n fits 64 bits. |
| `Decimals.Int64RoundTrip` | value.go:91-97 | Int64Value followed by AsInt64 gives every 64-bit integer back. |
| `Routing.HasWall` | examples/arena/charts.go:698-705 | True exactly if some wall stands on the cell. |
| `Routing.CellBlocked` | examples/arena/charts.go:683-696 | True exactly outside the inner field, on a wall, or on a cell another creature holds. |
| `Routing.Expand` | examples/arena/charts.go:655-666 | The four neighbours in order: exactly the unblocked unvisited ones are queued, one move further, with the first action of the way. |
| `Routing.BotRoute` | examples/arena/charts.go:640-669 | Terminates and returns the first move of a minimum-length walk through unblocked cells to a goal cell, or the empty action exactly when the start already is one or no walk reaches one. |
| `Routing.Advance` | examples/arena/charts.go:648-667 | When the search takes a cell k moves away, every shorter walk ends in a finished cell. |
| `Routing.Reached` | examples/arena/charts.go:651-654 | The first goal cell taken from the queue is a nearest one. |
| `Routing.NowhereToGo` | examples/arena/charts.go:668-669 | An empty queue means that no walk reaches a goal cell. |

## Left out
- The SQL store: `MemoryStore` carries the same contract as plain state.
- The ECMAScript datamodel, Go model callbacks and codecs: the datamodel is an oracle over data, configuration, event and counters.
- JSON, SHA-256, base64, snapshot wire format and revision hashing: a revision is an opaque injective token, a cursor is the actor ID it encodes, event and snapshot data are opaque.
- Normalisation before validation (generated IDs, implicit initials), identifier syntax, and the validation of executable content: they do not affect the state tree.
- Event-descriptor matching: an arbitrary predicate inside selection.
- Live invoke handlers, autoforwarding, goroutines, contexts, panics, transports, bridges, HTTP and UI code, loggers, observers: invocations are modelled as during replay, where they have no live channel, so `#_<invokeid>` sends go to the processor.
- Payloads of platform error events, the machine's result value, and delivery namespaces.
- Termination of runToStable: it need not hold; the loop takes a step budget, every theorem holds for every budget, and a budget that suffices gives the same result as any larger one.
- Store.MemoryStore.BeginActor: leaves out the test fault hooks and expired contexts; outbound messages and the checkpoint map are not part of the store model.
- Exactly-once application across failures of System.deliver: delivery claims are made at the store.
- System.Stop, idle sweeps, residency limits other than a maximum, and other processes that share the storage: `residency` and `pins` model one running System, over storage an earlier one may have left behind.
- Pins.PinSafety: one Register per kind, because a second Register of a kind stores its artifact again without the kind's publish lock before it fails.
- Pins and residency are modelled on values, one region under a lock per step: concurrent callers cannot be methods of one sequential object, so the in-place form of those methods is not captured.
- The order in which the least recently active eviction candidates of equal age are tried, and message delivery and observers around an activation.
- InstanceLoop.Restore: a rejected snapshot leaves the object as it was; the source may have assigned some fields of an interpreter it then discards.
- Legal configurations where the root is parallel or atomic: a legal configuration is defined by the children of a compound root; Roots.ParallelRootIff says when a step keeps all regions of a parallel one, and the other run-time theorems cover every accepted chart.
- Macrosteps.InitialEntryIsLegal: for `Careful` charts; Exactness.StartLegalIff says exactly when start is legal in the other accepted charts with a compound root.
- Gaps.ExclusiveTargetsAreIllegal: one direction, for a transition taken alone; Courses.NextLegalIff is the equivalence for every selection.
- Snapshots.SnapshotRoundTrip: where the two invocation indexes agree, as they do in `Careful` charts; a state entered again while it is active may start an invocation under an ID that is taken.
- Interpreter.Interpretation.DispatchNow: sends to `#_<invokeid>` go to the processor, as during replay; the live channel of an invocation is not modelled.
- Interpreter.Interpretation.StartInvocation: the live handler, its context and its channel are not modelled.
- TargetSets.AcceptedEntersLegally: where histories stand alone in initial and default lists; Exactness.EveryDefaultEntryLegalIff says exactly in which accepted charts it holds, and DefaultGap.DefaultEntryClashes shows one where it fails.
- Defaults.EntrySetDefaults: does not count repetitions; a target entered twice runs its default content twice, as in the code.
- Lives.LifeReplays: lives in which every message was logged; a query, a refused delivery or a cancelled timer is not, and may drain events that arrived late at another clock reading than replay does.
- Checkpoints.CheckpointIsTransparent: where conditions of eventless transitions read neither the last event nor what starting invocations changes, which CheckpointGap.ReplaysDiffer shows to be needed; Transparency.CheckpointTransparentExactly is the equivalence for every model.
- The arena's choice of targets, lines of fire and match rules; Value's Clone, Equal and Wire; Inspector authorization, redaction and audit; builder options: easy members.
