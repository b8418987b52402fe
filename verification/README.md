# RTAgent-SDK: a verified model of the runtime kernel

The runtime kernel drives an agent run as a loop of model turns and tool batches. A permission center
decides each tool call and may stop a run in the middle of a batch until someone answers; a session
around the run may be drained or cancelled meanwhile; everything that happens is written to a journal
from which world-state partitions are projected and cached. This project models these machines and
proves what they keep, over every run, trace or interleaving. Nothing here executes the original program.

How the modules follow the repository:

| module | models |
|---|---|
| `RunLoop`, `LoopEngine`, `ToolCalls` | the model-tool loop, batches, suspension and resumption: a specification on values, the class that refines it method by method, and the rules for preparing, validating and classifying a call |
| `RunLoopConservation`, `RunLoopRequests`, `RunLoopTranscript`, `RunLoopInvariants`, `RunLoopBudget`, `RunLoopJournal`, `RunLoopRepetition`, `RulesInForce` | the theorems about runs |
| `Permission`, `PermissionCenter`, `PermissionModes` | normalising a check, grants and their identities, the center as a class, coverage over traces, and what modes and classification come to |
| `Session`, `SessionOps`, `SessionLifecycle` | sessions and runs as a class, sequences of its operations under any run ids, and interleavings with live loops |
| `Journal`, `WorldState`, `ActivityCache`, `CacheRace` | concurrent sequence allocation, the deduplicating draft, the snapshot cache, and queries that interleave with emitters |
| `MessageWindow`, `TokenBudget`, `BudgetOverrun`, `Convergence`, `ToolStream`, `StreamMeaning`, `ToolRegistry`, `Lease` | the self-contained algorithms |
| `Wrappers`, `Types`, `Text`, `Sorting` | shared vocabulary |

Model, tools, leases, stored session states, clocks and newly drawn ids are parameters: an `Env` gives
the n-th answer of each, and every theorem about runs holds for all environments. Hashed identities
(grants, approvals) are the tuples that are hashed. Time is a number.

## Where code and promises part

Each of these is stated exactly in the project.

- The handbook (docs/sdk-handbook.md:652) says that no run ends with `tool_iteration_limit_exceeded`.
  A resumed batch is not shown to the convergence controller (pkg/rtagent/approval_resume.go:263-269), so
  a run that is resumed with its rounds used up can end that way. `RulesInForce.ARunEndsAtTheLimit` is such
  a run. `RunLoopBudget.RunNeedsLateApproval` shows, for every run, that a late approval is the only way, and
  `RunLoopBudget.LimitExactly` that under a model that keeps asking for tools a late approval is also enough.
- `Renew` is documented to fail for a released lease; the code renews it, and it also revives an expired
  one (internal/runtime/governance/lease.go:71-88). `Lease.RenewExclusive` says when that is harmless.
- An approval id leaves out root run, task and owner (pkg/rtagent/permission_center_grants.go:164-174),
  a grant id does not. Two checks that differ only there share one record;
  `PermissionCenter.ApprovalRoundTripExact` says when allowing it helps the first of them.
- A handle marked `required` is charged whatever is left, behind cheaper optional ones
  (internal/runtime/contextengine/materializer.go:66-90). `BudgetOverrun.OverrunExactly` says when that
  exceeds the budget for a given order; since the sort is unstable, `MayOverrun` and `MustOverrun` say when
  some order and when every order does, in terms of the handles alone. `OptionalCrowdsOut` and `TiesDecide`
  are concrete inputs.
- Cancelling a session that is being drained ends it twice (pkg/rtagent/session_stop.go:51-72, 85-120),
  exactly when it still has active runs: `SessionOps.EndedExactly`.
- A loop at work overwrites `canceled` (pkg/rtagent/loop_outcomes.go:199-214). A stopped session can get an
  active run again exactly when a loop was at work on one of its runs when it stopped:
  `SessionLifecycle.StopLeavesActiveExactly`; `SuspendedAfterStop` is a concrete trace.
- A drain gets stuck, with nothing active to wait for, exactly when an operation takes its last active run
  away without looking at it: a submission that reuses the run's id for another session, or an exit in the
  scope of another session, which only reused ids make possible: `SessionOps.StrandsExactly`.
  `ReusedIdBlocksDrain` is a concrete trace, and `StopEndsStranded` shows that a further stop ends it.
- The check of a tool call and its `tool.invoked` event are two steps (pkg/rtagent/loop_tools.go:29-94), so a
  side effect can follow a stop exactly when a loop stood between them:
  `SessionLifecycle.SideEffectAfterStopExactly`.
- An approval may be resolved again after its run went on (pkg/rtagent/approval_resume.go:272-279). Its
  pending call is then executed again exactly when the run is suspended, running or failed:
  `RunLoopRepetition.ExecutedAgainExactly`; `ResolvedTwiceExecutesTwice` is the case of a failure in between.
- A snapshot is stamped with the watermark of the time it is stored, not of the time the journal was read
  (pkg/rtagent/world_state_cache.go:128-133), so it can cover less than its stamp says:
  `CacheRace.StaleWhenQuiet` and `PutDecides` say exactly when it is then served stale, and
  `EventStampedOver` is a concrete interleaving.
- An event with an explicit sequence below the watermark can leave the cached snapshot stale
  (pkg/rtagent/world_state_cache.go:90-123): `ActivityCache.FirstHarmfulEmission` and `LateEventGoesUnseen`.
- The message window holds two messages at a limit of one (pkg/rtagent/loop_context_budget.go:74-78):
  `MessageWindow.WindowBounds`.

## Model

| member | source | states |
|---|---|---|
| RunLoopConservation.SuspensionConservesWork | pkg/rtagent/loop_tools.go:10-113 | whatever approvals a batch asks for, each answered by an allowing decision, it ends with the executed calls, observations, messages, rounds and failure of the reference that never asks, and no batch asks more often than it has calls |
| RunLoopConservation.SameAsGranted | pkg/rtagent/approval_resume.go:138-171 | the same between two runs: one that had to ask and one that had everything granted |
| RunLoopConservation.StraightExecutesInOrder | pkg/rtagent/loop_tools.go:122-181 | the reference executes the prepared calls in order, each once, up to the first that is invalid or fails; without failure one observation and one message per call |
| RunLoopConservation.BatchAgainstStraight | pkg/rtagent/loop_tools.go:10-113 | every batch stops at a point where executed work plus the reference on the rest equals the reference on the whole |
| RunLoopConservation.PendingIsTheRest | pkg/rtagent/loop_tools.go:56-79 | executing the stored pending calls under any run id is executing the rest of the batch |
| RunLoopConservation.ReopenPasses | pkg/rtagent/approval_resume.go:62-113 | resolving the approval of a suspended batch restores its work exactly and the call it stopped at now passes |
| RunLoopConservation.DriveConserves | pkg/rtagent/approval_resume.go:257-269 | by induction over the answers: any number of further suspensions keeps the work of the reference |
| RunLoopRequests.ExecutedOnce | pkg/rtagent/loop.go:256-275 | over whole runs whose rulings are on the approvals waited for, in all environments: the requested calls are those the model asked for, turn by turn and prepared, except that the last turn's calls are discarded by finalization, the limit or missing tools; executed calls are a prefix of them; all of them when the run completes; executed plus pending is requested while it waits |
| RunLoopRequests.TurnRequests | pkg/rtagent/loop.go:166-275 | a turn that goes on to tools requests exactly the calls of its response, prepared for its run and round; any other requests and executes nothing and ends the segment in the way its answer decides |
| RunLoopTranscript.StraightRecords | pkg/rtagent/loop_tools.go:122-181 | the reference asks each tool after exactly the calls before it, takes down the observation that answers it, with name, id and status filled in, and one message per observation; it stops at the first call that is invalid, which is not executed, or not answered, which is |
| RunLoopTranscript.TurnRecords | pkg/rtagent/loop.go:106-275 | a turn whose tools go through adds what the model said and then the answers to all its calls to the windowed conversation and to the transcript, and counts one round |
| RunLoopTranscript.RoundObserves | pkg/rtagent/loop.go:276-285 | the controller is shown iteration, limit and each call of the model with the observation that answers it; its decision steers the next turn |
| RunLoopTranscript.SteeringRecords | pkg/rtagent/loop.go:285-321 | a decision other than to continue adds exactly one user message and one heartbeat |
| RunLoopTranscript.WaitingRecords | pkg/rtagent/loop_tools.go:56-79 | what a waiting run has on record is its conversation, observations, plan, packet and rounds |
| RunLoopTranscript.ReopenRestores | pkg/rtagent/approval_resume.go:174-257 | reopening restores exactly that, executes nothing, and reports an approval the model asked for |
| RunLoopTranscript.StartShows | pkg/rtagent/loop_outcomes.go:10-154 | every first segment ends, its journal with the outcome of its status, the end of the activity and, where the exit drains the session, its end |
| RunLoopTranscript.ResumeShows | pkg/rtagent/approval_resume.go:62-269 | so does every later segment that is not refused, whatever approval it rules on |
| RunLoopRepetition.DenialEnds | pkg/rtagent/approval_resume.go:62-99 | a denial goes through exactly when approval, scope and run are in order, whatever became of the run; it ends the run as denied, changes no work and grants nothing |
| RunLoopRepetition.OverForGood | pkg/rtagent/approval_resume.go:272-279 | no rulings whatever take up a run that completed or was denied: nothing is executed and no model asked, and denied stays denied |
| RunLoopRepetition.DeniedForGood | pkg/rtagent/loop_outcomes.go:91-118 | once its approval was denied, a pending call is never executed, whatever is ruled afterwards |
| RunLoopRepetition.ExecutedAgainExactly | pkg/rtagent/approval_resume.go:272-279 | where session, leases and tools admit it, resolving an approval, resolved before or not, makes its pending call the next one executed if and only if the run is suspended, running or failed |
| RunLoopRepetition.ResolvedTwiceExecutesTwice | pkg/rtagent/approval_resume.go:62-113 | resolving one approval twice, with a failure of its call in between, executes the call twice |
| RunLoopInvariants.ModelSeesTheWindow | pkg/rtagent/loop.go:106-112 | every model request of every run, whatever approvals are ruled on and when, carries exactly the window of the untrimmed transcript and ends with its last message; the transcript only grows where rulings are on the approvals waited for |
| RunLoopInvariants.InvokedInOpenSession | pkg/rtagent/permission_center.go:21-41 | every invoked call of every run, whatever approvals are ruled on and when, is read-only or was checked while its session was unknown or active |
| RunLoopInvariants.WholeRunKeeps | pkg/rtagent/loop.go:97-323 | the invariants behind these hold at the end of every whole run, and leave the center fit for the next |
| RunLoopInvariants.BatchKeeps | pkg/rtagent/loop_tools.go:10-113 | a batch keeps them, wherever it stops, and leaves the iteration count alone |
| RunLoopInvariants.ResumeKeeps | pkg/rtagent/approval_resume.go:62-290 | resolving any approval on record keeps them, whether it is refused, denied or goes on, and whatever became of the run meanwhile |
| RunLoopInvariants.ResumeAccounts | pkg/rtagent/approval_resume.go:174-269 | resolving the approval waited for keeps the account of requested calls |
| RunLoopBudget.FreshRunWithinBudget | pkg/rtagent/loop.go:97-323 | with a budget of M >= 1 rounds a first segment makes at most max(M, 2) model calls and never fails for the limit |
| RunLoopBudget.LoopWithinBudget | pkg/rtagent/loop.go:97-323 | from any entry with tool rounds below M and iteration + 1 >= tool rounds the limit is never hit, and the model calls left are bounded by the iterations left |
| RunLoopBudget.ResumeWithinBudget | pkg/rtagent/approval_resume.go:62-290 | whatever approval is ruled on and whatever became of the run: the segment makes at most max(M, 2) further model calls, and hits the limit only if the rounds of the continuation, plus one when calls are pending, reach the budget |
| RunLoopBudget.RunNeedsLateApproval | docs/sdk-handbook.md:650-652 | over every whole run, a run that hits the limit was resumed by a late approval |
| RunLoopBudget.LimitExactly | pkg/rtagent/approval_resume.go:257-269 | under a model that keeps asking and with everything allowed, resolving any approval on record ends at the limit if and only if it is late |
| RunLoopBudget.StubbornHitsLimit | pkg/rtagent/loop.go:97-323 | the entry condition is exact: a model that always asks for tools drives every entry outside it into the limit |
| RunLoopBudget.LateApprovalHitsLimit | pkg/rtagent/approval_resume.go:257-269 | a late approval leads to the limit, with calls pending or for an approval the model asked for, if the model keeps asking |
| RunLoopBudget.OneRoundHitsLimit | pkg/rtagent/loop.go:97-323 | with a budget of one, this happens from the first turn of a run |
| RulesInForce.ARunEndsAtTheLimit | docs/sdk-handbook.md:650-652 | a concrete run with the rules in force that ends at the limit |
| RulesInForce.InForceIsRegular | pkg/rtagent/loop_helpers.go:22-58 | what the theorems on runs ask of the rules holds of the rules in force |
| RulesInForce.CheckInForce | pkg/rtagent/loop_tools.go:29-42 | the check of the loop is the center's normalisation of the request it makes |
| RulesInForce.LoopNeverDenied | pkg/rtagent/permission_center.go:30-111 | the built-in center never denies a tool call of the loop |
| RunLoopJournal.JournalAccepted | pkg/rtagent/loop.go:97-323 | one automaton accepts the journal of every whole run, whatever approvals are ruled on and when: it ends between segments, and where no ruling is refused, apart while the run waits and after activity.completed or session.ended when it is over |
| RunLoopJournal.WholeRunPlaced | pkg/rtagent/loop_outcomes.go:10-154 | every relation that follows the automaton holds of the journal of every such run |
| RunLoopJournal.ToolEventsPaired | pkg/rtagent/loop_tools.go:94-181 | in an accepted journal that ends between segments each tool.invoked directly follows permission.granted and is directly followed by its outcome, and each outcome follows an invocation |
| RunLoopJournal.SegmentEnds | pkg/rtagent/loop_activity.go:39-77 | between activity.completed and the next activity.started there is at most one session.ended, directly after it, and resolutions of approvals: no model or tool event |
| LoopEngine.CoreLoop.ExecuteToolCallsWithPermission | pkg/rtagent/loop_tools.go:10-113 | the batch loop on mutable state ends in the state of the specification |
| LoopEngine.CoreLoop.ExecuteOne | pkg/rtagent/loop_tools.go:14-111 | one pass of it: validation, check, and the four ways on |
| LoopEngine.CoreLoop.ExecuteToolCall | pkg/rtagent/loop_tools.go:122-181 | work, journal and answer of one invocation |
| LoopEngine.CoreLoop.RequestModelTurn | pkg/rtagent/loop.go:106-165 | trims in place, notes a compaction, asks and streams as specified |
| LoopEngine.CoreLoop.TakeAnswer | pkg/rtagent/loop.go:166-271 | which answers complete, suspend, fail or go on to tools |
| LoopEngine.CoreLoop.Conclude | pkg/rtagent/loop.go:276-321 | feeds the controller object and steers as the history specification decides |
| LoopEngine.CoreLoop.RunModelToolLoop | pkg/rtagent/loop.go:97-323 | the loop with a fresh controller reaches the final state of the specification |
| LoopEngine.CoreLoop.Run | pkg/rtagent/loop.go:10-95 | the first segment, with its lease and context failures |
| LoopEngine.CoreLoop.ReopenRun | pkg/rtagent/approval_resume.go:62-113 | resolves an approval through the center object and reports each refusal of the specification |
| LoopEngine.CoreLoop.ReopenAllowed | pkg/rtagent/approval_resume.go:138-257 | guards, restores and leases as specified |
| LoopEngine.CoreLoop.ResumeRun | pkg/rtagent/approval_resume.go:62-269 | a whole later segment |
| LoopEngine.CoreLoop.ResumeApproval | pkg/rtagent/approval_resume.go:281-290 | the same by a decision as spelled by a caller: aliases are understood, anything else denies |
| LoopEngine.CoreLoop.SuspendRunWithApproval | pkg/rtagent/loop_outcomes.go:49-89 | stores the continuation with the approval and ends the activity |
| LoopEngine.CoreLoop.CloseRun | pkg/rtagent/loop_outcomes.go:10-154 | the common exit: status, outcome event, activity.completed, session.ended when drained |
| ToolCalls.PrepareAgain | pkg/rtagent/loop_helpers.go:22-58 | preparing a prepared call under any other run, round and index changes nothing |
| ToolCalls.PrepareMeans | pkg/rtagent/loop_helpers.go:22-48 | preparing fills in a blank id from run, round and index, and blank hash and epoch from the spec, and keeps everything else |
| ToolCalls.FindSpecMeans | pkg/rtagent/loop_helpers.go:50-58 | the spec of a call is the first that bears its trimmed name, and missing only when none does |
| ToolCalls.ValidMeans | pkg/rtagent/tool_schema.go:76-105 | a call is valid if and only if its epoch is not closed and the hash and epoch it names are those of its spec |
| ToolCalls.LoopClassification | pkg/rtagent/permission_center_policy.go:39-104 | a call of the loop is a tool call on its name, or a workspace write where its spec says so, and read-only exactly where call or spec says so |
| Permission.GrantIdentity | pkg/rtagent/permission_center_grants.go:11-94 | two decisions have the same grant id if and only if they are the same decision and the one covers the other's subject |
| Permission.CoverageOrdered | pkg/rtagent/permission_center_grants.go:11-57 | once lies within run, run is exactly session and all-for-run together, and both lie within all-for-session |
| Permission.NormalizeIdempotent | pkg/rtagent/permission_center_policy.go:5-104 | the subject of a normalised check is stable under normalising it again |
| Permission.NormalizePermissionCheck | pkg/rtagent/permission_center_policy.go:5-104 | the step-by-step code computes the specified check |
| Permission.Classify | pkg/rtagent/permission_center_policy.go:39-104 | capability, target, resource and read-only flag, with the side-effect rewriting |
| PermissionModes.CapabilityExactly | pkg/rtagent/permission_center_policy.go:106-126 | which kinds of action have each of the four known capabilities, aliases and fallbacks included |
| PermissionModes.OtherKinds | pkg/rtagent/permission_center_policy.go:106-126 | any other kind is its own capability |
| PermissionModes.ReadOnlyExactly | pkg/rtagent/permission_center_policy.go:39-135 | a request is read-only if and only if its action reads by kind, or its call or spec says so |
| PermissionModes.SideEffectRewrites | pkg/rtagent/permission_center_policy.go:39-104 | a writing side effect of the spec makes a workspace write of any action and keeps its target |
| PermissionModes.WithoutSideEffect | pkg/rtagent/permission_center_policy.go:39-104 | without one the kind decides capability, write flag, resource and target |
| PermissionModes.ScopeDefaults | pkg/rtagent/permission_center_policy.go:5-38 | mode, actor, owner and root run have defaults; run, session and task are kept |
| PermissionModes.ActionDefaults | pkg/rtagent/permission_center_policy.go:5-38 | what the action leaves blank comes from the call; a missing id is derived from the action |
| PermissionModes.DangerousExactly | pkg/rtagent/permission_center_policy.go:137-153 | a shell action is dangerous if and only if its lower-cased text contains one of six patterns, each written out |
| PermissionCenter.CoverageExact | pkg/rtagent/permission_center.go:30-111 | after any trace a check is refused exactly for its run or session, allowed if and only if read-only, allowed by mode or covered by an issued decision, denied if and only if none of these and dangerous |
| PermissionCenter.CoverageByResolution | pkg/rtagent/permission_center_store.go:14-34 | without granting modes, a check is allowed if and only if an earlier allowing resolution covers it relative to the stored subject |
| PermissionModes.AllowedExactly | pkg/rtagent/permission_center.go:30-111 | after any trace, a check that is not refused, not read-only and not let through by its own mode is allowed if and only if an earlier resolution covers it, or an earlier yolo check of its party and run was let through without a grant, or an earlier accepted edit of its party and run on its target was |
| PermissionModes.YoloStaysInRun | pkg/rtagent/permission_center.go:43-58 | one yolo check lets through later checks of its own party, run, root run and task, and no others |
| PermissionModes.FreelyAllowedExactly | pkg/rtagent/permission_center.go:43-85 | a check that is read-only, in yolo or an accepted edit is allowed whenever it is not refused |
| PermissionModes.ReadOnlyGrantsNothing | pkg/rtagent/permission_center.go:59-70 | a read-only check outside yolo leaves the center as it is |
| PermissionModes.RefusedExactly | pkg/rtagent/permission_center.go:21-29 | a check is refused if and only if its run is unknown, or missing where it is not read-only, or it is not read-only and its session is stopping or stopped |
| PermissionModes.ResolutionRefusedExactly | pkg/rtagent/permission_center.go:121-153 | a resolution is refused if and only if there is no such approval, its run is unknown, or it allows in a blank or closed session |
| PermissionModes.ResolutionRecords | pkg/rtagent/permission_center.go:153-197 | one that goes through notes on its record whether it allowed, and nothing else; a denial grants nothing |
| PermissionModes.DecisionByName | pkg/rtagent/permission_center_grants.go:147-162 | a decision is read as an allowing one exactly when it is spelled as that one, up to white space; anything else denies |
| PermissionCenter.MatchIsCovered | pkg/rtagent/permission_center_store.go:14-34 | the five-candidate lookup finds a grant exactly when an issued decision covers the check |
| PermissionCenter.ApprovalRoundTrip | pkg/rtagent/permission_center.go:121-197 | a request that asked for approval passes after any allowing decision, also when its capability was rewritten |
| PermissionCenter.ApprovalRoundTripExact | pkg/rtagent/permission_center_grants.go:164-191 | when the record was overwritten by another check, the first passes if and only if both agree on owner and, for run decisions, on root run and task |
| PermissionCenter.AllowedStaysAllowed | pkg/rtagent/permission_center.go:30-111 | no later operation takes a permission back |
| PermissionCenter.StepGrants | pkg/rtagent/permission_center_store.go:213-236 | an operation adds exactly the grant it issues |
| PermissionCenter.PermissionCenter.FindPermissionGrant | pkg/rtagent/permission_center_store.go:14-34 | the candidate loop returns the first of the five grants that is stored |
| PermissionCenter.PermissionCenter.Decide | pkg/rtagent/permission_center.go:17-111 | records, grants, verdict and events of a check |
| PermissionCenter.PermissionCenter.Settle | pkg/rtagent/permission_center.go:121-197 | records, grants, result and events of a resolution; a refusal changes nothing |
| PermissionCenter.PermissionCenter.StorePermissionApprovalContinuation | pkg/rtagent/permission_center_store.go:157-180 | attaches a continuation to an existing record only |
| PermissionCenter.PermissionCenter.StoreModelApproval | pkg/rtagent/permission_center_store.go:88-155 | records an approval the model asks for, with its continuation |
| SessionOps.StrandsExactly | pkg/rtagent/session_stop.go:85-120 | for every operation and any run ids: a draining session keeps something to wait for if and only if the operation does not take its last active run away by resubmitting it elsewhere or ending it in another session's scope |
| SessionOps.DrainStuckExactly | pkg/rtagent/session_stop.go:13-120 | over every sequence of operations: a drain has something to wait for until an operation strands it, and then it has not |
| SessionOps.StopEndsStranded | pkg/rtagent/session_stop.go:39-74 | a stuck session is ended, once, by a further stop in either mode |
| SessionOps.ReusedIdBlocksDrain | pkg/rtagent/runtime_run.go:70-144 | a concrete sequence in which a reused run id leaves a draining session stuck |
| SessionOps.StatusNeverGoesBack | pkg/rtagent/session.go:29-82 | over every sequence of operations, whatever the run ids, a session only moves from active to stopping to stopped |
| SessionOps.EndedExactly | pkg/rtagent/session_stop.go:51-138 | a stopped session ended twice if and only if a cancellation cut a drain with active runs short, else once; no other session ended |
| SessionOps.InterruptAllEffect | pkg/rtagent/runtime_projection.go:84-135 | interrupting all active runs leaves none, touches no other session, and ends a drained session on the way |
| SessionOps.CancelEffect | pkg/rtagent/session_stop.go:45-83 | what cancelling leaves of sessions, runs and end events |
| SessionOps.DrainEffect | pkg/rtagent/session_stop.go:45-83 | draining changes no run and ends the session at once exactly when nothing is active |
| SessionOps.JustStoppedIsIdle | pkg/rtagent/session_stop.go:13-120 | whatever operation stops a session leaves it without active runs |
| SessionOps.SubmitEffect | pkg/rtagent/runtime_run.go:70-144 | a submission to an accepting session records its run as running there and as its latest, keeps all other runs, and changes nothing in a session that does not accept |
| SessionOps.StatusEffects | pkg/rtagent/loop_outcomes.go:199-220 | which status exits, interrupts and resumptions leave of the run they name, and that no other run changes |
| SessionOps.ActiveMeans | pkg/rtagent/session_stop.go:97-120 | a session is active if and only if one of its runs is queued, running, blocked or suspended |
| SessionLifecycle.StopLeavesActiveExactly | pkg/rtagent/loop_outcomes.go:199-220 | whatever step stops a session, some continuation leaves an active run in it if and only if the step leaves a loop at work on one of its runs; a stop leaves those it finds |
| SessionLifecycle.ActiveAfterStopExactly | pkg/rtagent/loop_outcomes.go:199-220 | the same seen from any later state: an active run now, or a loop at work on one of its runs |
| SessionLifecycle.LifecycleInvariant | pkg/rtagent/session_stop.go:13-120 | over every interleaving with fresh run ids: a stopping session has an active run, and an active run of a stopped session is one of its own that had a loop at work when it stopped |
| SessionLifecycle.StepKeeps | pkg/rtagent/loop_activity.go:39-77 | every single step keeps the invariant behind these |
| SessionLifecycle.StoppedIsIdle | pkg/rtagent/session_stop.go:13-83 | with public operations one at a time and fresh run ids, a stopped session has no active run |
| SessionLifecycle.NoSideEffectAfterStop | pkg/rtagent/loop_tools.go:29-94 | from any state in which a session does not accept work, whatever follows: every further tool.invoked with side effects in it is of a call whose check had passed before, and each such call is invoked once |
| SessionLifecycle.SideEffectAfterStopExactly | pkg/rtagent/permission_center.go:114-119 | a side effect can still follow if and only if a loop stands between the check and the invocation of a call with side effects |
| SessionLifecycle.SuspendedAfterStop | pkg/rtagent/loop_outcomes.go:199-220 | a concrete trace in which a live loop leaves a run suspended in a cancelled session |
| SessionLifecycle.StoreOfTrace | pkg/rtagent/session.go:29-82 | the store of every interleaving is that of a sequence of operations, so what holds of all sequences holds of it |
| Session.AcceptsIsNoRefusal | pkg/rtagent/session.go:29-47 | the guard of new runs and the guard of permission checks agree |
| Session.SessionStore.StopSession | pkg/rtagent/session_stop.go:13-83 | the new store for both modes; unknown sessions are reported and untouched |
| Session.SessionStore.CompleteDrainedSessionIfIdle | pkg/rtagent/session_stop.go:85-120 | ends a stopping session exactly when no run of it is active |
| Session.SessionStore.AnyActive | pkg/rtagent/session_stop.go:97-101 | finds an active run if and only if the session has one |
| Session.SessionStore.InterruptRun | pkg/rtagent/runtime_projection.go:84-135 | cancels a live run and completes a drain, leaves a terminal one as it is |
| Session.SessionStore.InitializeRun | pkg/rtagent/runtime_run.go:70-144 | a run enters exactly when its session accepts, and is recorded with it |
| Session.SessionStore.ExitRun | pkg/rtagent/loop_outcomes.go:199-220 | an exit puts the run status and completes a drained session |
| Journal.EmissionIsLinear | pkg/rtagent/runtime_events.go:36-84 | under every interleaving of emitters each journal is 1..n with distinct ids; the watermark never exceeds the sequence of the last relevant event and equals it when nobody is in flight |
| Journal.EventsAreEmitted | pkg/rtagent/runtime_events.go:36-84 | under every interleaving each event carries the draft of some call of emit for its run, and an emitter that has appended finds its own event under its sequence |
| Journal.InvariantHolds | pkg/rtagent/runtime_events.go:36-84 | the mutex, sequence and in-flight facts behind it hold after every trace of steps |
| WorldState.CanonicalForm | pkg/rtagent/world_state.go:34-96 | every insertion order builds the same partition if and only if items that tie for the highest sequence of their id are equal |
| WorldState.HoldsLatest | pkg/rtagent/world_state.go:34-55 | for each id the draft holds the last-added item of highest sequence, and nothing else |
| WorldState.AddAllUnique | pkg/rtagent/world_state.go:34-55 | ids stay unique under any insertions |
| WorldState.BuildStrictlyOrdered | pkg/rtagent/world_state.go:84-96 | a built partition is strictly ordered by subject, then id, as texts, and holds exactly the draft's items |
| WorldState.OneMoreItem | pkg/rtagent/world_state.go:34-55 | one more item leaves the built partition unchanged if and only if a newer item of its id is there |
| WorldState.SameItemsSameBuild | pkg/rtagent/world_state.go:84-96 | histories with the same items, in any order and number, build the same partition |
| WorldState.EntryDefaults | pkg/rtagent/world_state.go:34-55 | what an entry gives is kept; id, partition, authority and confidence have defaults |
| WorldState.HandleDefaults | pkg/rtagent/world_state.go:57-75 | a handle takes partition and snapshot of the draft where it names none, and is otherwise kept |
| Text.LessMeans | pkg/rtagent/world_state.go:84-96 | the order of texts is by the first character in which they differ, a proper prefix coming first |
| WorldState.PartitionDraft.AddEntry | pkg/rtagent/world_state.go:34-55 | defaults are filled in and the slice with its index map becomes the deduplication of the longer history |
| WorldState.PartitionDraft.AddHandle | pkg/rtagent/world_state.go:57-75 | the same for handles |
| WorldState.PartitionDraft.BuildPartition | pkg/rtagent/world_state.go:84-96 | sorts both slices in place into the canonical form of their histories |
| ActivityCache.CacheAgreement | pkg/rtagent/world_state_cache.go:110-133 | over every trace of emissions, queries and restarts whose emissions are harmless, a query serves what a rebuild of the current journal gives |
| ActivityCache.EmitAgrees | pkg/rtagent/runtime_events.go:15-84 | an emission keeps the cache truthful if and only if it is harmless |
| ActivityCache.AutomaticIsHarmless | pkg/rtagent/runtime_events.go:36-60 | emissions that leave the sequence to the runtime are harmless in every trace |
| ActivityCache.RebuildAfterPlace | pkg/rtagent/world_state_runtime.go:101-132 | an event filled in at an unused sequence leaves the activity entries unchanged if and only if it has none or a later event speaks for the same tool call |
| ActivityCache.FirstHarmfulEmission | pkg/rtagent/world_state_cache.go:90-123 | the first harmful emission of a trace makes the next query serve a stale snapshot |
| ActivityCache.LateEventGoesUnseen | pkg/rtagent/world_state_cache.go:90-123 | a concrete such trace |
| CacheRace.StaleExactly | pkg/rtagent/world_state_cache.go:110-133 | under every interleaving of emitters and queries, what the cache serves is stale if and only if the activity shows an event the snapshot does not cover, and each such event is in flight or was stamped over |
| CacheRace.StaleWhenQuiet | pkg/rtagent/world_state_cache.go:128-133 | with no emitter in flight, what is served is stale if and only if a shown event came between reading and storing |
| CacheRace.PutDecides | pkg/rtagent/runtime_projection.go:137-177 | the state in which a snapshot is stored decides whether it is stale whenever it is served later with no emitter in flight, or never |
| CacheRace.RebuildAfterGrowth | pkg/rtagent/world_state_runtime.go:101-132 | a journal that grew rebuilds to the same activity entries if and only if none of the new events is shown |
| CacheRace.EventStampedOver | pkg/rtagent/world_state_cache.go:128-133 | a concrete interleaving that leaves a stale snapshot behind |
| ActivityCache.ActivityEntryIsComplete | pkg/rtagent/world_state.go:34-55 | the draft's defaults leave an activity entry as the fold builds it |
| ActivityCache.ActivityShows | pkg/rtagent/world_state_runtime.go:101-132 | a rebuilt partition has one entry for each call with a tool event, with the name, sequence and state (running, completed, failed) that its last event tells |
| ActivityCache.OnlyCallsShown | pkg/rtagent/world_state_runtime.go:101-132 | and none for a call without one |
| ActivityCache.FrequentEventsKeepTheCache | pkg/rtagent/world_state_cache.go:36-78 | model turns, heartbeats, checkpoints and compactions leave every cached snapshot as fresh as it was |
| ActivityCache.WorldStateCache.ObserveEvent | pkg/rtagent/world_state_cache.go:90-99 | raises the watermark of one run by relevant events only, never lowers it |
| ActivityCache.WorldStateCache.Get | pkg/rtagent/world_state_cache.go:114-123 | serves a fresh copy of the snapshot exactly when it is up to the watermark |
| ActivityCache.WorldStateCache.Put | pkg/rtagent/world_state_cache.go:128-133 | stores a copy stamped with the current watermark |
| ActivityCache.Runtime.Emit | pkg/rtagent/runtime_events.go:15-84 | journal, watermark and result of an emission, with refused sequences |
| ActivityCache.Runtime.WorldState | pkg/rtagent/runtime_projection.go:137-177 | serves from the cache or rebuilds, stores and serves |
| ActivityCache.AddActivityWorldState | pkg/rtagent/world_state_runtime.go:101-132 | the fold over the events leaves a draft of exactly their activity entries |
| MessageWindow.IncrementalTrim | pkg/rtagent/loop_context_budget.go:56-91 | trimming as the conversation grows equals trimming the whole transcript once, for every limit |
| MessageWindow.WindowBounds | pkg/rtagent/loop_context_budget.go:56-91 | the window keeps the first user message, respects limits from two on, and for a limit of one says exactly when it does |
| MessageWindow.WindowIsRecent | pkg/rtagent/loop_context_budget.go:56-91 | a window of two or more is one message, the first user message if that fell out of the tail, and then exactly the most recent ones; every window ends with the last message; what fits is kept whole |
| MessageWindow.FirstUserMeans | pkg/rtagent/loop_context_budget.go:62-72 | the anchor is the first message whose trimmed role is user |
| MessageWindow.SyncedAppend | pkg/rtagent/loop.go:106-112 | conversations with the same window keep the same window under any continuation |
| MessageWindow.TrimMessagesToWindow | pkg/rtagent/loop_context_budget.go:56-91 | the search loop and tail copy compute the window |
| TokenBudget.AllocationOptimal | internal/runtime/contextengine/materializer.go:60-93 | for non-negative estimates and any order of equal ones, no selection that contains the required handles and fits the budget is larger than the preloaded set, which fits when none is required |
| TokenBudget.GreedyOptimal | internal/runtime/contextengine/materializer.go:72-92 | the exchange argument, from any amount already used |
| TokenBudget.AllocationPermutes | internal/runtime/contextengine/materializer.go:60-93 | up to policy the output is a permutation of the input |
| BudgetOverrun.OverrunExactly | internal/runtime/contextengine/materializer.go:72-90 | for sorted non-negative handles, a greedy allocation overruns if and only if some required handle does not fit behind everything before it |
| BudgetOverrun.MayOverrun | internal/runtime/contextengine/materializer.go:66-90 | some order that the unstable sort may choose overruns if and only if some required handle does not fit with all handles that are not larger |
| BudgetOverrun.MustOverrun | internal/runtime/contextengine/materializer.go:66-90 | every order overruns if and only if some required handle does not fit with the smaller handles and the required ones of its own size |
| BudgetOverrun.OptionalCrowdsOut | internal/runtime/contextengine/materializer.go:76-89 | with a budget of 10, an optional 5 and a required 6 overrun in every order, though the required one alone never does |
| BudgetOverrun.TiesDecide | internal/runtime/contextengine/materializer.go:68-70 | with a budget of 5, an optional 5 and a required 5 overrun in one order and not in the other |
| TokenBudget.AllocatePolicies | internal/runtime/contextengine/materializer.go:60-93 | the output is the greedy allocation of some ordered copy and, up to policy, a permutation of the input; for non-negative estimates no fitting selection within prompt minus reserve, or 8000 where that leaves nothing, is larger, and the preloaded handles fit it when none is required |
| Convergence.ReplanOnFirstReach | pkg/rtagent/convergence.go:106-126 | a replan is issued on a turn if and only if that turn is the first to reach its reason |
| Convergence.ReplanAtMostOnce | pkg/rtagent/convergence.go:120-126 | no reason is issued twice |
| Convergence.Thresholds | pkg/rtagent/convergence.go:88-115 | a turn within one of its limit finalizes; else a third occurrence reaches the one replan reason; else, from iteration 12 on, three stale turns after some observation reach the other |
| Convergence.StaleMeans | pkg/rtagent/convergence.go:70-87 | the streak is exactly the trailing turns in which nothing was new |
| Convergence.SameInteraction | pkg/rtagent/convergence.go:132-151 | two interactions are the same if and only if tool, arguments and, where answered, status and summary are |
| Convergence.ConvergenceController.Observe | pkg/rtagent/convergence.go:69-115 | counters, streak and decision of the controller are those of the history specification |
| Convergence.ConvergenceController.CountTurn | pkg/rtagent/convergence.go:70-87 | the counts of the turn, their maximum and whether anything in it is new |
| ToolStream.InterleavingIndependent | pkg/rtagent/openai_provider_decode.go:62-143 | streams with the same text that make up the same calls index by index decode to the same response, however cut and interleaved |
| ToolStream.SameDeltasDecodeAlike | pkg/rtagent/openai_provider_decode.go:88-132 | so do streams with the same text and the same order of deltas per index |
| ToolStream.AssembledExactly | pkg/rtagent/openai_provider_decode.go:88-132 | a stream assembles to given calls if and only if they ascend by index and its deltas are their fragments: names and arguments concatenate to theirs, the last id and type set are theirs, and no other index occurs |
| ToolStream.SplitIndependent | pkg/rtagent/openai_provider_decode.go:88-118 | a delta sent in two fragments anywhere in a stream assembles the same calls |
| ToolStream.StreamRoundTrip | pkg/rtagent/openai_provider_decode.go:13-143 | calls streamed in any fragments in any interleaving decode to what the same calls sent whole decode to, errors included |
| ToolStream.FirstErrorStays | pkg/rtagent/openai_provider_decode.go:146-166 | the first call that does not decode decides the error |
| StreamMeaning.DecodesExactly | pkg/rtagent/openai_provider_decode.go:146-166 | calls decode if and only if each has a name and blank or parseable arguments, to the calls of that id, trimmed name and parsed arguments, in order |
| StreamMeaning.FailsExactly | pkg/rtagent/openai_provider_decode.go:146-166 | they fail with an error if and only if the first call that does not decode fails with it: no name, or arguments of that name that do not parse |
| StreamMeaning.ContentMeans | pkg/rtagent/openai_provider_decode.go:168-185 | the text of a content is its plain text, or the texts among its parts joined by line ends and trimmed |
| StreamMeaning.StreamTextMeans | pkg/rtagent/openai_provider_decode.go:62-143 | the text of a stream is that of its choices one after the other, wherever it is cut |
| StreamMeaning.OneChoice | pkg/rtagent/openai_provider_decode.go:62-143 | and that of one choice is the text of its content |
| StreamMeaning.MetadataIsLast | pkg/rtagent/openai_provider_decode.go:62-87 | id and model are the last ones that a chunk sets |
| StreamMeaning.StopReasonIsLast | pkg/rtagent/openai_provider_decode.go:62-87 | the stop reason is the last one that a choice sets |
| ToolStream.DecodeChatCompletionStream | pkg/rtagent/openai_provider_decode.go:62-143 | the accumulating loop computes the specified response |
| ToolStream.DecodeToolCalls | pkg/rtagent/openai_provider_decode.go:146-166 | the decoding loop with its error cases |
| ToolStream.Accumulator.AddDelta | pkg/rtagent/openai_provider_decode.go:88-106 | one delta updates exactly its call in the map |
| ToolRegistry.RoutingRoundTrip | pkg/rtagent/tool_registry.go:59-178 | listed names are pairwise distinct, a name declared once is kept, and executing a listed name reaches exactly its declaring provider under its original name |
| ToolRegistry.SharedNameQualified | pkg/rtagent/tool_registry.go:153-171 | a shared name is listed as namespace, two underscores and name; from the second of its namespace on the namespace is numbered |
| ToolRegistry.NamespaceCountMeans | pkg/rtagent/tool_registry.go:153-171 | by the number of tools of that name and namespace up to it |
| ToolRegistry.NamespaceMeans | pkg/rtagent/tool_registry.go:180-202 | the namespace is the tool's own, else its provider's name, else the number of the provider; clean names are kept |
| ToolRegistry.SanitizeAt | pkg/rtagent/tool_registry.go:180-202 | cleaning replaces exactly the characters that are not allowed by underscores |
| ToolRegistry.RegistryTools | pkg/rtagent/tool_registry.go:124-178 | the listing is every declared tool in order with its routed name, or the first failure, or a conflict exactly when routed names collide |
| ToolRegistry.ExecuteTool | pkg/rtagent/tool_registry.go:59-99 | blank, unlisted, ambiguous and listed names |
| ToolRegistry.QualifyName | pkg/rtagent/tool_registry.go:153-171 | the namespace of a shared name, numbered when it repeats |
| Lease.MutualExclusion | internal/runtime/governance/lease.go:21-88 | over every trace with fresh ids, non-decreasing time and no renewal of an expired unreleased lease, no resource has two running leases |
| Lease.ReleaseFrees | internal/runtime/governance/lease.go:54-69 | a released lease holds no resource at any later time, and no other lease changes |
| Lease.RenewKeepsReleased | internal/runtime/governance/lease.go:71-88 | however often it is renewed |
| Lease.ReleaseHandsOver | internal/runtime/governance/lease.go:21-69 | once the sole holder of a resource has released it, the next to acquire it, at any later time, wins a new lease |
| Lease.AcquireExactly | internal/runtime/governance/lease.go:21-52 | in an exclusive table, acquiring comes to a conflict with the other holder and no change, an extension of one's own lease, or a lease of the new id, and what is won holds exactly its time |
| Lease.RenewExtends | internal/runtime/governance/lease.go:71-88 | a renewed lease that was not released holds exactly up to the end of the extension |
| Lease.RenewExclusive | internal/runtime/governance/lease.go:71-88 | a renewal keeps a resource exclusive if and only if the lease was released or is running, nothing is added, or nobody else holds it |
| Lease.RenewRevives | internal/runtime/governance/lease.go:71-88 | a concrete table in which it does not |
| Lease.LocalLeaseManager.Acquire | internal/runtime/governance/lease.go:21-52 | conflict with the newest holder, renewal of one's own lease, or a new one exactly when nobody holds the resource |
| Lease.LocalLeaseManager.GetActiveLeaseByResource | internal/infrastructure/persistence/sqlite/adapters/permission_governance_store.go:140-153 | the newest unreleased, unexpired lease, or none exactly when there is none |

## Left out

- Store errors, JSON and SQLite encodings, and the failure branches of event and record writes: a store is a map, and a write succeeds.
- SHA-256 and joined key strings: identities are tuples.
- Wall-clock text: times are numbers, lease expiry is compared as a number.
- Grant expiry (pkg/rtagent/permission_center_store.go:246-255): decisions of the built-in center set none.
- HTTP, server-sent event framing, usage arithmetic and errors of a stream handler: a stream is a list of parsed chunks, usage an opaque value.
- Hosts: model, tools, memory, skills, a permission center or world-state provider of the host are oracles or absent.
- The event bus, the lease renewal goroutine and context cancellation. Renewal is an ordinary step of `Lease`.
- Segments are atomic in `RunLoop`. `SessionLifecycle` interleaves checks, invocations, exits and operations of any number of loops, but its steps are not derived from the segments of `RunLoop`; lost updates of the thread record inside one operation are not modelled.
- Resuming from `tool_call` checkpoints: those keep one call of a batch (pkg/rtagent/loop_tools.go:21-25). Conservation is about approvals.
- RunLoopRequests.ExecutedOnce: rulings are on the approvals the run waits for; what others do is in RunLoopRepetition. Over a whole run, the run id in the generated id of a call is only said to exist; TurnRequests says which it is.
- RunLoopInvariants.WholeRunKeeps: continuations that are on record before the run starts have to be sound; an empty center has none, and every run leaves only such.
- RunLoopInvariants.InvokedInOpenSession: states what the check right before the invocation saw, because a batch is atomic; the interleaved form is SessionLifecycle.NoSideEffectAfterStop.
- RunLoopJournal.JournalAccepted: covers what the segments of the run append. A `run.interrupted`, and a `session.ended` that a stop or the exit of another run puts into this run's journal (pkg/rtagent/session_stop.go:122-138), come from outside and may stand anywhere. So do the events of segments of the same run that overlap.
- RunLoopJournal.WholeRunPlaced: the same.
- LoopEngine.CoreLoop.ReopenAllowed: a continuation always has its context packet, as the loop stores it (pkg/rtagent/loop_tools.go:78, loop.go:244); rebuilding a missing one is not modelled.
- SessionLifecycle.LifecycleInvariant: needs fresh run ids, which keep the scope of a loop and the session on record for its run together. SessionOps states what holds under any ids.
- ActivityCache.CacheAgreement: covers activity entries of unfiltered queries. The task-list partition shows the last 12 events of any kind and governance reads the session status, so whole snapshots do not agree. Emissions and queries are atomic there; CacheRace interleaves them, for sequences chosen by the runtime.
- ActivityCache.WorldStateCache.Get: copies entries; deep copies inside an entry (string lists, locks, grants, metadata) are not modelled, since entries are values here.
- The name under which a registry tool's observation comes back (pkg/rtagent/tool_registry.go:85-95): a renaming of one field.
- Explicit event ids: the id of an event is its run and sequence.
- RunLoopConservation.SuspensionConservesWork: assumes what a resumption needs besides the answers (leases, a tool provider, a session that accepts, a run id); refusals are covered by RunLoopRequests.ExecutedOnce. `Iteration` and steering messages are outside the comparison.
- RunLoopBudget.StubbornHitsLimit: is about a run with everything allowed for it; other runs may stop earlier for another reason.
- Texts: steering and finalization messages keep a fixed prefix only; summaries, warnings, risk and preview texts and requested grants are dropped. Run and session ids in `Session` and `Journal` are taken as already trimmed.
- The tool specs of a model request, which finalization withholds (pkg/rtagent/convergence.go:175-182): the model is an oracle, and what it answers while finalizing is discarded.
- Index maps of a draft after `build` has sorted its slices: nothing is added afterwards.
- Checkpoints, graphs, inspection, the home directory and workspace files: listings and I/O with no property of their own.
