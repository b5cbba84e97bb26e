# AgentTx, modelled and verified

AgentTx makes one agent turn crash consistent: the committed plan of tool calls, their side effects, the
streamed output and the KV cache all recover to one committed prefix. This project models the protocols that
do so, as the program has them, and proves what they promise for every number of coordinators, every crash
point and every interleaving.

Five cores, each in its own files:

- **Distributed turn protocol.** `Dtx` holds the tables, the atomic operations and the class that performs them
  in place; `Plans` the plans; `TurnProtocol` the state machine of N racing coordinators of charges, each with the
  stored plan or one of its own, and its inductive invariant, `TurnTheorems` what follows; `OverlayProtocol` and
  `OverlayTheorems` the same for files published by atomic rename; `Workers` the programs of the racing processes,
  `RunExact` what one of them does alone.
- **Abstract protocol.** `DModel` is the transition system per tool class, `Transitions` the same read from where a
  coordinator arrives, `Explorer` the worklist model checker, `Simulation` the proof that the turn protocol is an
  instance of it.
- **Single owner.** `Gateway` is one call of one tool of any class cut at any durable operation, `TurnRun` the log
  and the loop over a plan, `AttemptScript` both as a list of operations, `Compensations` how often a saga is undone,
  `GatewayObjects` and `CoordinatorObjects` the classes. `WalRecovery` is recovery over log prefixes with its checker and
  `WalScript` one recovery row by row. `Core` is the small coordinator with the crash clock, `CoreScript` its steps tick
  by tick, `CoreLog` what its log says, `CoreObjects` the classes. `Refund` is the refund tool that is not atomic.
- **Output plane.** `Stream` is the token log, clients and workers as a state machine, `StreamObjects` the classes
  and the in-memory client that the durable one refines, `StreamExact` what a lone worker leaves.
- **KV view.** `KvView` is the content-addressed store, manifests and restore, `KvHistory` snapshots taken one file
  operation at a time among edits and deletions by anyone, `KvExact` what a snapshot costs and leaves, `KvObjects` the
  classes.

`Identity` shows when the text behind an action id determines the action, `Json` that canonical strings can be read
back; `Schedules` counts events.

How the model reads the program:

- A run is a list of events applied to the initial state; an event its process cannot perform changes nothing. So
  a statement over all event lists is a statement over all interleavings, with any number of processes and deaths.
- A committed database transaction is one step; one that raises or whose process dies leaves the tables as they
  were. Every file operation is a step of its own, and a temp write may be cut short.
- In the single-owner modules a process dies for lack of `fuel`, one unit per durable operation, so "for every
  fuel" means "for every crash point", including the gaps between the program's clock ticks.
- A hash is a constructor that remembers what was hashed: equal digests mean equal contents.
- Safety over whole runs is proved from invariants of the reachable states. What a single operation answers, writes and
  costs is proved apart from them, from every state whether it can be reached or not, against a reference of its own:
  `Dtx.ChargeAnswers` and `Dtx.OverlayAnswers` case by case, `AttemptScript`, `CoreScript` and `WalScript` as the list of
  its durable operations, `RunExact`, `StreamExact`, `KvExact` and `Refund` as its effect.
- Objects that the program updates in place are classes; each method's contract equates the new contents with a
  function of the old, and the theorems are about those functions.

Assumptions, and where the code decides against its documentation:

- The ordinals of a plan are pairwise different. `TurnTheorems.FreshRunChargesPlan` shows that this, and having the
  arguments a charge needs, is exactly what a crash-free run needs to charge its plan.
- Coordinators of charges need not agree on the plan of a turn. `begin_turn` keeps the stored plan but returns the
  commit id of its argument (agenttx/dtx.py:90-94), so a process may run a plan of its own: the protocol lets every
  process do so, exactly-once, plan prefixes and fencing are proved for every plan of every turn, and recovery for
  the stored plan, whatever else runs. What such a process breaks is the meaning of the turn's `committed` state: it
  then says that some plan brought to the turn is complete (`TurnTheorems.TurnCommitIsSound`), which is the stored one
  if no other was brought, and need not be otherwise (`TurnTheorems.CommittedIsCompleteIff`). Coordinators of overlays
  always load the stored plan.
- The single-owner coordinator takes its plan from the caller too, and its log does not name the plan. Effects are
  proved per plan; TURN_COMMITTED speaks for one plan brought to the turn (`TurnRun.LogIsConsistent`), and a caller who
  comes with another finds that one's BEGIN_TURN and TURN_COMMITTED (`TurnRun.CommitSpeaksForOnePlan`).
- The fence row is read under its lock, as on PostgreSQL; on SQLite the lock suffix is empty (agenttx/dtx.py:104).
- The abstract protocol's text says the ambiguous window resolves to UNCERTAIN. The code also generates `stale` for it
  (agenttx/dmodel.py:74-75): the window is reached (`DModel.AmbiguityIsReachable`), UNCERTAIN can surface there exactly
  when the class is irreversible and the effect was begun, and never has to (`DModel.SurfacesIff`). The "already mine"
  branch (agenttx/dmodel.py:72-73) is never taken (`DModel.OwnClaimIsNeverMet`). A claim is never released, so a claimed
  action whose claimant dies is stuck for good (`DModel.StrandedNeverCommits`).
- A compensation is recorded after it is made, so a crash between the two repeats it: once per attempt that got
  as far (`Compensations.CompensatedExactly`).
- Storing a block again does not repair a corrupt file, because an existing path is skipped (agenttx/kvview.py:58).

## Model

| member | source | states |
|---|---|---|
| Identity.TextInjective | agenttx/identity.py:35-36 | with bar-free sessions and commit ids, the hashed text determines session, turn, commit id and ordinal, whatever the turn contains |
| Identity.TextCollision | agenttx/identity.py:35-36 | for any session and turn, exactly which actions share a text: commit id and ordinal are always recovered, only the session/turn boundary can be confused |
| Identity.SessionBarCollides | agenttx/identity.py:35-36 | a session with a bar is enough for two different actions to share a text |
| Identity.TextIs | agenttx/identity.py:35-36 | the four parts in their order, with one bar between any two |
| Identity.DecimalReads | agenttx/identity.py:36 | the printed ordinal is read back as the ordinal, negative ones included |
| Identity.DecimalInjective | agenttx/identity.py:36 | the printed ordinal determines the ordinal |
| Dtx.BeginReturnsStoredId | agenttx/dtx.py:88-94 | the commit id handed back is the stored one if and only if the turn was not begun before with another plan |
| Json.LiteralReads | agenttx/identity.py:31-32 | a JSON reader gives back the string behind a canonical literal and what follows it: short escapes, `\u` escapes and surrogate pairs |
| Json.LiteralInjective | agenttx/identity.py:31-32 | a canonical string literal is read back exactly, whatever characters it holds and whatever follows it |
| Dtx.CanonReads | agenttx/identity.py:31-32 | a JSON reader finds every argument of the canonical text under its own key |
| Dtx.CanonInjective | agenttx/identity.py:31-32 | the canonical text of an argument dictionary determines it |
| Dtx.DTX.Acquire | agenttx/dtx.py:77-85 | the returned epoch is the new one of that turn; no other row changes |
| Dtx.DTX.BeginTurn | agenttx/dtx.py:88-94 | the first plan of a turn is kept; the id of the argument is returned |
| TurnTheorems.BegunPlanIsLoaded | agenttx/dtx.py:88-98 | what `load_plan` gives a recovery, after any run that followed `begin_turn`, is the first plan ever begun for the turn, with its commit id |
| Dtx.ChargeAnswers | agenttx/dtx.py:101-128 | from any tables, when each of the six outcomes is given; a committed one answers, stores and charges the amount and order of its arguments, a duplicate answers what was stored, and no other changes a table |
| Dtx.DTX.DoCharge | agenttx/dtx.py:101-128 | in place, with rollback, as one transaction; the answer, the stored result and the charge row of a commit are those of its arguments |
| Dtx.DTX.RecordOverlayRow | agenttx/dtx.py:161-168 | a row already there is left alone |
| Dtx.OverlayAnswers | agenttx/dtx.py:138-159 | from any tables and files, when a call is a duplicate, a publication or a death; the path it answers, the complete file, the temp file left or removed, and the row |
| Dtx.DTX.DoOverlay | agenttx/dtx.py:138-159 | in place: a duplicate exactly when the final file exists, otherwise a publication or, if armed, a death in one of the two windows |
| Dtx.DTX.RunTurn | agenttx/dtx.py:171-186 | the loop over the plan, fresh or recovering, equals one pass of transactions and the unfenced turn commit |
| RunExact.RunTurnIs | agenttx/dtx.py:171-186 | from any tables, with its own or the stored plan, a given or the next epoch, and a crash asked for or not: the tables left, and the step and reason it raises at or every answer in order |
| Workers.ConcurrentWorker | phase7/concurrent_gate.py:39-58 | a racing process alone performs exactly a recovery of the turn; it leaves early only when fenced out, dead, or stopped by a mismatch or a missing argument |
| Workers.ConcurrentWorkerIsSchedule | phase7/concurrent_gate.py:39-58 | that program, finished, fenced, failed or killed inside a charge, is a schedule of the turn protocol with the same tables and ending |
| Workers.OverlayWorker | phase7/overlay_gate.py:50-66 | a racing overlay process alone performs the overlay calls of the stored plan, then the turn commit |
| RunExact.OverlayRunIs | phase7/overlay_gate.py:50-66 | from any tables and files, that program dies exactly in the first step it is armed to die in that has a file to publish, leaving that window's files, and otherwise publishes and records every step |
| Workers.OverlayWorkerIsSchedule | phase7/overlay_gate.py:50-66 | from a process that is down, that program, finished, failed for want of a plan or killed in either window, is an event list of the overlay protocol with the same tables, files and ending |
| TurnProtocol.ChargeEffect | agenttx/dtx.py:101-128 | in any reachable state each outcome of a charge is characterised by epoch, progress, arguments and crash; a mismatch cannot happen; tables change only by the next claim of the plan |
| TurnProtocol.ClaimKeepsDbOk | agenttx/dtx.py:110-128 | claiming the next action extends the prefix of its own plan by one row and no other plan's, of this or any turn |
| TurnProtocol.AdversaryMay | phase7/concurrent_gate.py:39-58 | in every state any process may be gone, a fresh one may bring any plan offered, and one may die inside a charge that would have been made |
| TurnProtocol.StepKeepsInv | phase7/concurrent_gate.py:39-58 | every event of every coordinator keeps the invariant linking epochs, program counters, claims, charges and plan prefixes |
| TurnProtocol.ExecKeepsInv | phase7/concurrent_gate.py:39-58 | the invariant holds after every interleaving |
| TurnTheorems.ExactlyOnce | agenttx/dtx.py:101-128 | in every reachable state an action id has one charge row if it has an action row, and none otherwise |
| TurnTheorems.ChargesArePlanPrefix | agenttx/dtx.py:101-128 | for every turn and every plan, whatever other plans run in the same turn, the charges of that plan are, in order and repeats included, those of a prefix of it, and its action rows are the ids of that prefix |
| TurnTheorems.OnePlanPerTurn | agenttx/dtx.py:101-128 | if one plan only is brought to a turn, every action and charge of the turn is one of that plan, which is the stored one |
| TurnTheorems.TurnCommitIsSound | agenttx/dtx.py:184-185 | a turn marked committed by the unfenced update has every action of one of the plans brought to it, with nondecreasing owner epochs; of the stored one if it is the only one |
| TurnTheorems.CommittedIsCompleteIff | agenttx/dtx.py:87-94 | from any tables, a run that brings its own plan to a begun turn, and returns, marks the turn committed, and then the stored plan is complete if and only if it is the one brought or was complete before |
| TurnTheorems.FreshlyCommittedIsCompleteIff | agenttx/dtx.py:87-94 | on a turn begun but never run, in otherwise empty tables: if and only if it is the one brought, or empty |
| TurnTheorems.OnlyTheOwnerCharges | agenttx/dtx.py:108-113 | rows are never changed or removed, and only the holder of the newest epoch of a turn adds one, under that epoch |
| TurnTheorems.OwnersMove | agenttx/dtx.py:77-85 | epochs never go back and only an acquire moves them |
| TurnTheorems.ConvergentRecovery | agenttx/dtx.py:171-186 | from any reachable state, a process that acquires and is not overtaken is never fenced or mismatched, whatever the others do and whatever plans they run, and once it has taken its steps the turn is committed with the charges and results of a crash-free run of the stored plan (a plan of charges) |
| TurnTheorems.RunTurnIsSchedule | agenttx/dtx.py:171-186 | the sequential loop, told to crash anywhere or nowhere, is the schedule in which one process runs undisturbed, with the same tables and the same ending |
| TurnTheorems.RunStepsAll | agenttx/dtx.py:180-183 | charges with fresh, pairwise different ids are all made |
| TurnTheorems.RunStepsFewer | agenttx/dtx.py:180-183 | otherwise fewer rows are charged than there are steps |
| TurnTheorems.FreshRunChargesPlan | agenttx/dtx.py:171-186 | a crash-free run charges its plan if and only if its steps are charges with pairwise different ordinals |
| TurnTheorems.RunChargesMissing | agenttx/dtx.py:171-186 | from any tables, a crash-free run with a plan of the caller's returns iff every step there was claimed with the same arguments and every other is a charge, and then charges exactly the missing steps, in order |
| TurnTheorems.RecoveryChargesTheRest | agenttx/dtx.py:171-186 | in every reachable state a crash-free run of any plan charges exactly the suffix that plan still lacks, and returns iff that suffix consists of charges |
| TurnTheorems.SecondRunCharges | agenttx/dtx.py:87-94 | from any tables, after a run that returned, running the same plan again charges nothing, and any other plan charges what of it was missing before the first run |
| OverlayProtocol.PublishKeepsDbOk | agenttx/dtx.py:154 | renaming the complete temp file of the next action keeps files complete and in plan order |
| OverlayProtocol.AdversaryMay | agenttx/dtx.py:147-157 | in every state any process may be gone, and a write under way may have reached any length |
| OverlayProtocol.StepKeepsInv | phase7/overlay_gate.py:50-66 | every event, torn writes and deaths included, keeps the overlay invariant; epochs keep temp names apart |
| OverlayProtocol.ExecKeepsInv | phase7/overlay_gate.py:50-66 | the overlay invariant holds after every interleaving |
| OverlayTheorems.CommittedFilesAreComplete | agenttx/dtx.py:147-159 | a file under `committed/` always belongs to a planned action and holds the whole canonical text of its arguments |
| OverlayTheorems.PublishedAtMostOneAhead | agenttx/dtx.py:154-168 | recorded actions and published files are prefixes of the plan, a recorded action has its file, and publishing is at most one ahead |
| OverlayTheorems.ConvergentRecovery | agenttx/dtx.py:130-159 | with no fence at all, any process that is not killed finishes the turn, even while newer owners arrive, with every file complete and every action recorded |
| OverlayTheorems.OverlayCallIsSchedule | agenttx/dtx.py:138-159 | one overlay call is its file steps in sequence, and its death windows are the states after the second and third |
| Transitions.SuccessorsAreTransitions | agenttx/dmodel.py:39-95 | from every state, the generated successors are exactly the states that some coordinator may enter, by a relation that says for each program counter from where, when and with what change it is entered |
| Transitions.MovesAre | agenttx/dmodel.py:42-94 | the same for one coordinator, both ways |
| Transitions.CommittedIsLearnt | agenttx/dmodel.py:56-61 | in every class, a coordinator that acquired the newest epoch and finds the action committed has exactly two moves, a crash and one to `done` that changes nothing else |
| Transitions.BacksOffIff | agenttx/dmodel.py:56-75 | a coordinator can become stale exactly when its epoch is superseded, or the action is uncommitted and claimed under another one in a class that claims first; and then nothing else changes |
| Transitions.NewOwnerLearns | agenttx/dmodel.py:52-61 | from every reachable committed state a new owner is done with one more epoch, with the effect as it was |
| DModel.MoveKeepsInv | agenttx/dmodel.py:39-95 | every move of every class keeps the invariant: one holder per epoch, only the claimant at `claimed` or `effecting`, committed iff one effect |
| DModel.CommittedIffOneEffect | agenttx/dmodel.py:113-121 | for every class, number of coordinators and epoch bound: at most one effect, and committed exactly when it happened |
| DModel.OnlyTheOwnerActs | agenttx/dmodel.py:56-88 | only the current owner claims or fires, the claim is written at most once, nothing recorded is taken back |
| DModel.OwnClaimIsNeverMet | agenttx/dmodel.py:72-73 | a coordinator that has just acquired never finds its own claim |
| DModel.StrandedNeverCommits | agenttx/dmodel.py:77-94 | once the claimant is gone or overtaken before the commit, no continuation commits or fires the effect |
| DModel.UncertainIsFinal | agenttx/dmodel.py:90-94 | a surfaced UNCERTAIN means no effect and no commit, then and in every continuation |
| DModel.SurfacesIff | agenttx/dmodel.py:68-94 | a stranded action not yet surfaced can surface as UNCERTAIN if and only if its class is irreversible and its effect was begun, and never has to: a new owner can always back off as stale |
| DModel.NewOwnerMeetsClaim | agenttx/dmodel.py:68-94 | both futures of a new owner that meets a stranded claim, with one more epoch |
| DModel.AmbiguityIsReachable | agenttx/dmodel.py:77-94 | a concrete run to the ambiguous window with nothing surfaced |
| DModel.OtherwiseCanCommit | agenttx/dmodel.py:39-95 | in every other reachable state some continuation with at most one more epoch commits the action |
| Explorer.ReachableInUniverse | agenttx/dmodel.py:98-126 | the reachable states lie in a finite set, by the bounds on epochs and effects |
| Explorer.PushUnseen | agenttx/dmodel.py:122-124 | the inner loop pushes exactly the unseen successors |
| Explorer.Inspect | agenttx/dmodel.py:113-121 | nothing is reported exactly when the effect fired at most once and, if committed, exactly once; each rule is reported exactly when broken |
| Explorer.Explore | agenttx/dmodel.py:98-126 | the worklist loop terminates inside any finite closed set, with a closed set that it counts, reporting violations iff it meets one |
| Explorer.Check | agenttx/dmodel.py:98-126 | `seen` is exactly the reachable set, `states` its size, zero violations iff every reachable state passes; and there are none |
| Explorer.ModelCheck | agenttx/dmodel.py:129-148 | with two coordinators and the program's bound all four classes pass, and the reported numbers are those of the reachable states |
| Simulation.StepSimulates | agenttx/dmodel.py:48-66 | every step of the racing coordinators is, for any one action of any plan, a step of the transactional abstract protocol or a stutter |
| Simulation.RunsAreAbstractRuns | agenttx/dmodel.py:48-66 | every reachable state of the turn protocol projects to a reachable abstract state with as many coordinators |
| Simulation.WhatIsSeen | agenttx/dmodel.py:26-36 | the abstract state seen by an action is its turn's epoch, its claim, its charges and the epochs held |
| Simulation.SafetyTransfers | agenttx/dmodel.py:113-121 | what the explorer checks of the abstract protocol, read back on the tables of every reachable state of the turn protocol |
| Gateway.CallKeepsKey | agenttx/gateway.py:121-185 | one call cut at any durable operation keeps its key within the state machine of its class and answers only for a settled key or, if irreversible, as uncertain |
| Gateway.CallFrames | agenttx/gateway.py:121-185 | a call never disturbs another key |
| Gateway.AnsweredIsFinal | agenttx/gateway.py:127-146 | committed, compensated and uncertain are absorbing: a further call changes nothing and costs nothing |
| Gateway.CallKeepsService | phase3/mock_service.py:22-32 | the service's ledger counts the distinct keys it has served |
| AttemptScript.CallIsScript | agenttx/gateway.py:121-185 | from every state and for every class: the durable operations of a call in order, death exactly when cut before the last, and the answer; a mismatch is raised exactly when the row was made with other arguments, before its status is looked at, and changes nothing |
| AttemptScript.AttemptIsScript | agenttx/coordinator.py:17-34 | from every state: an attempt does the listed log rows and operations in order and no others, is cut short exactly when it has fewer left, and otherwise raises exactly if some action's row was made with other arguments, or finishes with the listed answer of every call |
| GatewayObjects.MockService.DoPost | phase3/mock_service.py:22-32 | a repeated key gets the cached answer and no effect |
| GatewayObjects.ToolGateway.RecordRow | agenttx/gateway.py:114-119 | an existing row keeps its fingerprint and class |
| GatewayObjects.ToolGateway.RunEffect | agenttx/tools.py:8-61 | the in-place effects of the tools, cut anywhere |
| GatewayObjects.ToolGateway.Perform | agenttx/gateway.py:148-185 | the execution of each class, cut anywhere |
| GatewayObjects.ToolGateway.CallTool | agenttx/gateway.py:121-185 | one call in place, cut anywhere, follows its script; it raises a mismatch, or answers a duplicate, exactly when the row says so, and then changes nothing |
| TurnRun.RunTurnKeepsInv | agenttx/coordinator.py:17-34 | an attempt cut anywhere keeps the invariant over log and gateway and never raises |
| TurnRun.LogIsConsistent | agenttx/coordinator.py:22-33 | whatever plans are brought to a turn: BEGIN_TURN is first and unique, observed keys are an answered prefix of each plan (committed for the repeatable classes), only their actions are observed, TURN_COMMITTED is unique and follows an observation of every action of one of them |
| TurnRun.CommittedTurnOfOnePlan | agenttx/coordinator.py:31-32 | with one plan brought to a turn, TURN_COMMITTED means its every action is observed |
| TurnRun.CommitSpeaksForOnePlan | agenttx/coordinator.py:17-37 | after the only plan brought so far has finished, a caller that comes with a plan finds it observed as a whole if and only if it is that one, or empty |
| TurnRun.AtMostOnce | agenttx/gateway.py:121-185 | after any history, for every plan, no tool of any class has taken effect twice for one action |
| TurnRun.AmbiguousClasses | agenttx/gateway.py:164-185 | after any history an irreversible tool has fired at most once and exactly once if committed; a saga has fired at most once and ends committed with one effect and no compensation, or compensated with at least one, never from merely prepared |
| TurnRun.AnswersAreFinal | agenttx/gateway.py:127-146 | once committed, compensated or uncertain, an action's row, effects and compensations are unchanged by every further history of attempts at any turns with any plans |
| Compensations.CompensatedExactly | agenttx/gateway.py:138-145 | after any history an action has been compensated exactly once per attempt that arrived at its call, found it ambiguous and had an operation left |
| Compensations.CallCompensates | agenttx/gateway.py:138-145 | one call compensates exactly when it finds its action ambiguous and lives to do it |
| TurnRun.FinishedMeansExactlyOnce | agenttx/coordinator.py:17-37 | a finished attempt after any history leaves every transactional, overlay and idempotent action in effect exactly once with its result recorded; every other answer means what it says |
| TurnRun.CleanAttemptFinishes | agenttx/coordinator.py:36-37 | after any history an attempt given six durable operations per action and two more finishes; no state is stuck |
| CoordinatorObjects.TurnWAL.AppendRow | agenttx/wal.py:14-17 | the log grows by one row |
| CoordinatorObjects.TurnWAL.Has | agenttx/wal.py:19-21 | whether the turn's records hold such a row |
| CoordinatorObjects.Coordinator.CallAt | agenttx/coordinator.py:28 | a call at a position leaves the log alone |
| CoordinatorObjects.Coordinator.Run | agenttx/coordinator.py:17-37 | the loop in place, cut anywhere, equals the attempt the theorems are about and follows its script |
| WalRecovery.FiredExactly | agenttx/protocol.py:102-137 | after any interrupted attempts and one complete recovery: the exact fire count for every kind of effect, and the exact list of failed checks |
| WalRecovery.GuaranteedClasses | agenttx/protocol.py:121-137 | all checks pass after every history if and only if the effect is transactional or repeatable |
| WalRecovery.TheLogCannotTell | agenttx/protocol.py:82-117 | dying before or after a plain effect leaves equal logs, so no recovery choosing from the log is exactly-once on both |
| WalRecovery.TransactionalLogTells | agenttx/protocol.py:50-56 | for a transactional effect the log always says whether it fired |
| WalRecovery.RecoverKeepsInv | agenttx/protocol.py:102-117 | one recovery cut after any iteration: order of commit, observation and turn commit, and what it adds to the fire count |
| WalRecovery.FirstRunIsRecovery | agenttx/protocol.py:140-150 | the first run of a turn is a recovery from the empty log |
| WalScript.RecoverIs | agenttx/protocol.py:67-117 | over any log and effects, cut after any iteration: a new BEGIN_TURN, and of commit, observation and turn commit those that are missing, numbered on, of turn "T"; and whether the effect fires once more |
| WalScript.FaultsAre | agenttx/protocol.py:121-137 | over any log and effects, each check is reported exactly when what it is about is broken |
| WalRecovery.DurableWorld.AppendRec | agenttx/protocol.py:46-48 | the record gets the next log position |
| WalRecovery.DurableWorld.FireEffect | agenttx/protocol.py:50-56 | a transactional effect is counted together with its commit record |
| WalRecovery.DurableWorld.Apply | agenttx/protocol.py:82-99 | one operation on log and effects |
| WalRecovery.DurableWorld.RecoverAndFinish | agenttx/protocol.py:102-117 | the recovery loop, cut after any iteration |
| WalRecovery.ExhaustiveCheck | agenttx/protocol.py:140-154 | the reported list is empty for the guaranteed kinds and otherwise exactly the crash between effect and commit, fired twice |
| Core.CrashesIff | agenttx/core.py:111-126 | from any disk an attempt is killed iff its tick is within two, plus two per entry, plus two per entry not yet in effect |
| Core.CleanRunTicks | agenttx/core.py:111-126 | a first run of sql and fs entries has two boundaries and four per entry |
| Core.ExactlyOnce | agenttx/core.py:79-102 | after any attempts killed at any ticks and a clean one, charge rows and receipt files are those of the plan, entry for entry and no others |
| Core.AlwaysAPlanPrefix | agenttx/core.py:111-130 | at every moment between attempts the effects are a plan prefix, and a turn marked committed has all of it |
| CoreScript.TurnIsScript | agenttx/core.py:79-126 | from any disk, killed at any tick: the listed durable steps are done in order and no others, as many as the number of the tick that kills |
| CoreLog.LogIsConsistent | agenttx/core.py:111-130 | after attempts killed at any ticks: BEGIN_TURN first and once, an observed entry in effect, prepared before it and after all its predecessors were observed, TURN_COMMITTED once and after an observation of every entry, and no other rows |
| CoreLog.CleanAttemptObservesAll | agenttx/core.py:111-126 | an attempt that is not killed leaves an observation of every entry |
| CoreObjects.Clock.TickOnce | agenttx/core.py:28-33 | the tick that kills is the chosen one; zero never kills |
| CoreObjects.Coordinator.Charge | agenttx/core.py:79-89 | charge and key record appear together, once, between two ticks |
| CoreObjects.Coordinator.Receipt | agenttx/core.py:92-102 | a receipt is written aside and renamed, once, with a tick after each |
| CoreObjects.Coordinator.Run | agenttx/core.py:111-130 | the loop in place, killed at any tick, equals the attempt the theorems are about and leaves the steps of its script up to that tick |
| Refund.SnapshottedIsGold | phase6/tau2_midcrash.py:101-135 | calls on copies that a crash drops, as values: the crash-free database |
| Refund.NaiveOverpays | phase6/tau2_midcrash.py:84-98 | the naive run has the same orders, and each gift card is too high by exactly what had been paid from it |
| Refund.NaiveIsRightIff | phase6/tau2_midcrash.py:84-98 | the naive run is right if and only if, over the orders named, the payments from each gift card add up to nothing |
| Refund.CancelIs | phase6/tau2_midcrash.py:41-61 | from any database: refused unless the order is pending, the reason one of two and every payment's method there; an armed crash leaves every order; otherwise that order is cancelled for that reason with a refund of each payment after its payments, and no other order changes |
| Refund.CancelCredits | phase6/tau2_midcrash.py:48-57 | each gift card is credited what was paid from it by the payments before the first whose method is gone, even if the call is then refused |
| Refund.GoldSucceedsIff | phase6/tau2_midcrash.py:76-81 | the crash-free run succeeds if and only if every order named can be cancelled at the start and none is named twice |
| Refund.GoldIs | phase6/tau2_midcrash.py:76-81 | it leaves each order named cancelled for its reason, the others as they were, and each gift card with what had been paid from it |
| Refund.RetailTools.CancelPendingOrder | phase6/tau2_midcrash.py:41-61 | the refund loop on the live database, with its crash after the credits and before the status |
| Refund.RunNaive | phase6/tau2_midcrash.py:84-98 | crash and re-run on the live database |
| Refund.RunSnapshotted | phase6/tau2_midcrash.py:101-135 | crash on a copy, re-run on another, swap: the live database ends as in the crash-free run |
| Stream.AckIs | agenttx/durable_stream.py:80-105 | the watermark is the highest number up to which nothing is missing, and what is materialized is the log's prefix of that length |
| Stream.AdversaryMay | agenttx/durable_stream.py:107-111 | in every state any worker may be gone, and the client may lose all it received while the server's watermark stays |
| Stream.StepKeepsInv | phase9/durable_stream_gate.py:40-56 | every event keeps the client's rows within the log, and neither log nor server watermark goes back |
| Stream.ClientHoldsPrefix | agenttx/durable_stream.py:64-111 | after any interleaving of commits, workers, deaths, lost acknowledgements and restarts the client holds each log row at most once and has materialized exactly a prefix |
| Stream.WatermarkIsMonotone | agenttx/durable_stream.py:54-61 | the server's watermark never regresses and committed tokens never change |
| Stream.FinishedWorkerDeliversAll | phase9/durable_stream_gate.py:40-56 | a worker started after a commit that ends, with no client restart during it, leaves all of it materialized, whatever the others do |
| Stream.StartedWorkerDeliversAll | phase9/durable_stream_gate.py:40-56 | a worker that is not killed ends within three actions per token of the log and three more, in any interleaving, and then all that was committed before it started is materialized |
| StreamExact.RecordsWhatItRead | phase9/durable_stream_gate.py:52-53 | whatever happens between, the server records the watermark that the worker read |
| StreamExact.ResumesWhereItRead | phase9/durable_stream_gate.py:44-46 | whatever happens between, a worker resumes after the smaller of the client's watermark when it started and the server's when it looked, and sends what the log then holds |
| StreamExact.WorkerRunExactly | phase9/durable_stream_gate.py:40-56 | a lone worker dies if and only if the number to die at is among those it sends, before delivering it; the client gets exactly the numbers before it, or all; the watermark recorded is that after them |
| StreamExact.CommitLogIs | agenttx/durable_stream.py:33-39 | the log is kept and only what the tokens have beyond it is appended |
| StreamExact.TokensFromIs | agenttx/durable_stream.py:45-47 | exactly the log's rows of those numbers, in order |
| StreamObjects.DurableStream.CommitOutput | agenttx/durable_stream.py:33-39 | rows present are kept, later ones appended, numbered without gaps |
| StreamObjects.DurableStream.RowsFrom | agenttx/durable_stream.py:45-47 | the rows from a number on, in order |
| StreamObjects.DurableStream.RecordAck | agenttx/durable_stream.py:54-61 | the watermark is the larger of the two |
| StreamObjects.DurableClient.AckSeq | agenttx/durable_stream.py:80-88 | the loop computes the contiguous watermark |
| StreamObjects.DurableClient.Tokens | agenttx/durable_stream.py:97-105 | the loop computes the tokens of the contiguous prefix |
| StreamObjects.DurableClient.Deliver | agenttx/durable_stream.py:90-95 | a number already received leaves the table as it was; a new one adds its row and no other |
| StreamObjects.DurableClient.Restart | agenttx/durable_stream.py:107-111 | a restart forgets everything received |
| StreamObjects.RunWorker | phase9/durable_stream_gate.py:40-56 | a worker alone never loses ground, ends with the whole log materialized unless it dies, counts its re-sends exactly, and leaves the server watermark at the end unless acknowledgements are dropped |
| StreamObjects.WorkerRunIs | phase9/durable_stream_gate.py:40-56 | what a lone worker's whole program leaves, killed or not: no ground lost, and the whole log materialized and known to the server unless killed or unacknowledged |
| StreamObjects.WorkerIsSchedule | phase9/durable_stream_gate.py:40-56 | that program, finished or killed, is a schedule of the streaming protocol with the same tables |
| StreamObjects.StreamClient.Deliver | agenttx/stream.py:49-55 | next token accepted, known one counted as dropped, later one ignored |
| StreamObjects.Serve | agenttx/stream.py:58-65 | for any resume point: fails iff that is too far below one, crashes iff its tick is within its deliveries; uninterrupted from at most one past the watermark it delivers everything, dropping exactly the re-sends; the client always holds a prefix |
| StreamObjects.DurableRefinesMemory | agenttx/durable_stream.py:80-105 | on any schedule of deliveries from one log the durable client is never behind the in-memory one, and agrees with it when no delivery skips ahead |
| KvHistory.RestoreIsExact | agenttx/kvview.py:132-147 | after any history of cut, failed and complete snapshots, with edits and deletions of block and temp files between any two file operations, restore gives back byte for byte the last completed snapshot of that turn exactly when provenance and every block file are intact, and otherwise names the reason |
| KvHistory.AdversaryMay | agenttx/kvview.py:55-73 | in every state the snapshot under way may be gone, and any block or temp file may get any content or be removed |
| KvHistory.ManifestInForce | agenttx/kvview.py:100-114 | the manifest read for a turn after any history is that of its last completed snapshot |
| KvHistory.SnapshotThenRestore | agenttx/kvview.py:55-64 | a snapshot whose blocks nobody else touches completes within two operations per block and one more, whatever happens to other files meanwhile, and then restores iff none of its blocks was stored corrupt when it started |
| KvHistory.SnapshotIsSchedule | agenttx/kvview.py:122-130 | one call of `snapshot`, cut anywhere, is a schedule of its file operations |
| KvView.CutSnapshotKeepsManifests | agenttx/kvview.py:122-130 | a snapshot cut at any point leaves every manifest as it was |
| KvView.SnapshotThenRestore | agenttx/kvview.py:55-64 | an undisturbed completed snapshot restores at once if and only if none of its blocks was already stored corrupt |
| KvHistory.RoundTripThroughOthers | agenttx/kvview.py:122-147 | the round trip survives any later snapshots of other turns, cut, failed or complete, and any damage to files other than those of its blocks |
| KvView.OneObjectPerBlock | agenttx/kvview.py:55-64 | from an empty store, completed snapshots store one object per distinct block |
| KvView.PrefixHashInjective | agenttx/kvview.py:150-152 | equal prefix hashes mean equal token lists; tokens outside 32 bits have no hash |
| KvView.PutAllIs | agenttx/kvview.py:125 | storing a list of blocks changes no file that exists and no manifest, adds only files holding their own content, and completes with two operations per block |
| KvExact.SnapshotExactly | agenttx/kvview.py:122-130 | from any store: two operations per distinct block that has no file and one more; completed, it has added exactly those files and a manifest with the digest of every block in order and their total size; cut, it leaves every manifest |
| KvExact.PutAllExactly | agenttx/kvview.py:125 | cut short, it has added one block per two operations, and an odd one left the temp file of one more |
| KvExact.PutIs | agenttx/kvview.py:55-64 | an existing path is left alone; otherwise a temp file, then its rename under the digest of its content |
| KvExact.TotalBytesIs | agenttx/kvview.py:128 | the size recorded is that of the blocks joined |
| KvExact.PackIntIs | agenttx/kvview.py:152 | the four bytes are the number modulo 2 to the 32nd, lowest first |
| KvExact.PackAllIs | agenttx/kvview.py:150-152 | four bytes per token, in the order of the tokens |
| KvObjects.BlockCAS.Put | agenttx/kvview.py:55-64 | write aside, rename, leave an existing path alone, cut anywhere |
| KvObjects.BlockCAS.Get | agenttx/kvview.py:66-73 | content is returned only if it hashes to its address, so it is the content stored |
| KvObjects.ManifestStore.Put | agenttx/kvview.py:100-108 | the manifest of one turn is replaced, the others stay |
| KvObjects.View.Snapshot | agenttx/kvview.py:122-130 | the loop over blocks and the manifest write, cut anywhere |
| KvObjects.View.Restore | agenttx/kvview.py:132-147 | the loop that gives up at the first block that does not check |

## Left out

- SQLite's unlocked read of the fence row, the two SQL dialects and placeholder rewriting: the locking reading is assumed.
- Torn sectors, fsync, directory creation and power loss: a file operation is done or not done, except temp writes in the distributed overlay, which may be torn.
- Torn temp files of the single-owner receipt tool and of the block store: the temp file of a cut write is rewritten before it is renamed, so only its being incomplete is lost; `KvHistory` does let temp files be damaged and removed at any time.
- Concurrent use of the single-owner gateway, and of one block address by two writers: the code does not claim it.
- Hash collisions: digests and fingerprints are constructors. Argument dictionaries other than those of the two tools, and lone surrogates in strings, are not modelled.
- `Core.Key` and `KvView.ProvKey` stand for hashes of joined or sorted text and are taken to be one-to-one; only the text of the shared action identity is analysed.
- Tags: charge and mail rows of the single-owner gateway carry the key of the call that made them, which the program's tables and files do not; they are there to say which call made which row.
- `HttpUnsafeTool` and the `/send_unsafe` and `/count` endpoints: same class and same argument as the mail tool.
- `Stream` and `StreamObjects`: one session, turn and client per object; tables of several are disjoint by key. The statistics table of re-sends is an out-parameter.
- `Refund`: amounts are whole cents, so the rounding to two decimals is not modelled; a user without a payment method ends the call as refused; the key set that deduplicates cancellations never repeats within a run and is not modelled; actions other than cancelling belong to a library.
- `Core` and `CoreLog`: the histories are those of one turn on a store of its own; `CoreScript.TurnIsScript` is from any disk, with rows and files of any turns.
- `CoreObjects.Coordinator` holds the tables and directories of the tool gateway and of the log as its own fields.
- Liveness of the abstract protocol's non-transactional classes: a claim is never released, so stuck states are reachable; they are characterised instead.
- Manifest fields that restore never reads (turn, full provenance, block count).
- Model servers, GPUs, KV transfer and cost measurements, the workflow-engine adapters, random audits, result files and summaries.
