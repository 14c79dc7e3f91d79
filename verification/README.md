# A verified model of the ues-router runtime

The ues-router plugin runs an approved plan: it schedules a dependency graph of tasks over a shared
repository, wraps each of them in a transaction, guards every agent session against loops, recovers from
provider failures, and reads the independent verifier's verdict. This project models that runtime and
proves what it is for. `dafny verify dfyconfig.toml` checks everything.

## How it is modelled

**Scheduler** (`Claims`, `Leases`, `Machine`, `History`, `Invariants`, `SchedulerTheorems`, `Liveness`,
`Passes`, `DagScheduler`). `Machine` is a nondeterministic step machine: one synchronous scheduling pass between
settlements, and in between workers and integrations that end in any order and with any outcome.
`Invariants` shows what every step keeps; `SchedulerTheorems` and `Liveness` state the results about whole
runs, `Passes` what one scheduling pass starts, counts and blocks. `History` says which event histories are
legal, without reference to the scheduler, and what legality implies; every run is shown to produce a legal one.
`DagScheduler` and `LeaseTable` are the imperative code, objects updated in place, proved step by step against
the machine. What a task writes and reads, what a transcript says, what its callback was answered and which
results are the same are told on the inputs themselves, and the functions that compute them proved to agree.

**Transaction** (`Verdict`, `Transaction`, `WorldLiveness`, `Baseline`). The worker's verifier gate and the
integrate callback, one CLI call at a time, and the creation of each worker's sandbox, composed with the
scheduler into one machine, for the end-to-end results about the root tree and what sandboxes start from. A CLI
call is an atomic operation on a stack of patches and a durable record that may fail. The calls are synchronous
(index.js, lines 53-58) and the callback never awaits, so while it is open nothing but its calls happens.

**Session guard** (`Canonical`, `Guard`, `GuardHistory`, `GuardSessions`, `Resume`, `Recovery`). The mutable
guard is proved to compute a function of the history of its events: attempts, evidence streak and latch since
the last reset, for one record (`GuardHistory`) and for the guard with all its sessions and their clearing
(`GuardSessions`). `Resume` adds the tool and compaction hooks of a session assigned to a task, `Recovery` the
retry loop over provider failures.

**Text** (`Text`, `LineEnds`, `Decode`, `Budget`, `BudgetQuotes`, `BudgetUnchanged`, `BudgetRepeats`). UTF-16
guessing, decoding and paging; the bound on tool output, when it changes a text, and when it repeats part of one.

Conventions. Ids are strings. The completed ids given to the scheduler are no task ids, as its caller
filters them (index.js, line 1332), the lease table starts empty, and the host gives every session a new id.
Hashes are injective on the text they are given. Regexes, the locale's comparison, `JSON.parse`,
`JSON.stringify` of results (told apart where a result says so), UTF-8 beyond ASCII and the 70 percent shares are
parameters. Time is an integer. Conflict rates and NUL ratios are exact rationals.

## Findings

Places where the code does less than a reader might expect; each is stated exactly.

- Path normalisation drops one leading "./" and is not idempotent exactly for paths with another
  "./" behind it (`Claims.NormalizeTwiceIff`), so two
  spellings of one file can be claimed as two files (`Claims.SpellingsApart`). Mutual exclusion holds of
  normalised paths.
- `acquire` overwrites the owner's record. A second grant to one owner keeps the table sound exactly when it
  repeats all that owner's claims (`Leases.AcquireKeepsOwnedIff`); otherwise an entry can stay behind for good
  (`Leases.SecondGrantOrphans`). The scheduler only acquires for owners
  that hold nothing (`SchedulerTheorems.OwnersAreFresh`).
- The graph check accepts cycles (`DagScheduler.ValidateGraph`); tasks on or behind one end up blocked
  (`Liveness.BlockedIffBehind`).
- A task behind a failure can be recorded as stalled instead of blocked by a dependency
  (`Passes.BehindFailureButStalled`): one sweep goes over the pending tasks in their listed order, so this happens
  exactly when nothing is left to run and the dependency that is blocked stands behind the task
  (`Passes.StalledIff`). A task with a failed dependency is never recorded so (`Passes.ReasonsAreRight`).
- A detected loop stays blocked although the no-progress counter can fall back to zero, by a call that was
  already open (`GuardHistory.BlockedWithCounterZero`): exactly when the evidence streak is broken after the epoch
  latched (`GuardSessions.GuardLatchOutlivesCounter`).
- A single ASCII character in UTF-16 without a byte-order mark is read as UTF-8
  (`Decode.AsciiFromUtf16Iff`).
- The output of the budget can repeat part of a text that has fewer lines than the limit
  (`BudgetRepeats.LongLineRepeats`), exactly when the kept front or back of the char cut reaches across the
  marker line of overlapping heads and tails (`BudgetRepeats.RepeatsIff`).
- The budget can leave a text with one to three lines too many as it is, if that text already is its own cut
  (`BudgetUnchanged.UnchangedIff`), by the line cut (`BudgetUnchanged.QuotingTextIsUnchanged`) or by the char cut
  as well (`BudgetUnchanged.FillingTextIsUnchanged`). Such a text quotes the start of its own digest. Both examples
  are under a digest that is injective (`BudgetUnchanged.SmallDigestIsInjective`) but begins with sixteen zeros;
  whether SHA-256 has such texts is not claimed. Text over the character limit always changes
  (`BudgetUnchanged.OverLimitChanges`).

## Model

| member | source | states |
|---|---|---|
| Claims.CleanPathsMeaning | global-config/plugins/ues-router/parallel-runtime.js:1-10 | a file counts for a task exactly when some listed path normalises to it, and is listed once |
| Claims.NormalizePathMeaning | global-config/plugins/ues-router/parallel-runtime.js:1-3 | normalising turns backslashes and takes off one "./" at the start with all slashes after it, and nothing else |
| Claims.FilesMeaning | global-config/plugins/ues-router/parallel-runtime.js:5-14 | a task writes the files some path of which it lists under create, modify, test or delete, or in a plain list, and reads those it lists under read or in a plain list |
| Claims.ScopeMeaning | global-config/plugins/ues-router/parallel-runtime.js:24-39 | a task is of unknown scope exactly when it lists no file and no resource, and on a shared surface exactly when a file it writes is |
| Claims.NormalizeTwiceIff | global-config/plugins/ues-router/parallel-runtime.js:1-3 | normalising a second time changes the path exactly when it begins with "./" and what follows those slashes begins with "./" again |
| Claims.SpellingsApart | global-config/plugins/ues-router/parallel-runtime.js:1-3 | concrete spellings of one file that normalise apart |
| Claims.ClaimMap | global-config/plugins/ues-router/parallel-runtime.js:12-40 | the insertion-ordered construction computes the claim list of the specification |
| Claims.AddAllMeaning | global-config/plugins/ues-router/parallel-runtime.js:16-19 | in whatever order resources are added, each is claimed once, for writing exactly when some addition asked for writing |
| Claims.ClaimsMeaning | global-config/plugins/ues-router/parallel-runtime.js:12-40 | a task claims exactly the files its listed paths normalise to, its explicit resources and the two scope markers, each once and in the expected mode |
| Claims.CompatibleIffSafe | global-config/plugins/ues-router/parallel-runtime.js:12-61 | two claim lists can be held together exactly when, by their listed paths, no task writes a file the other writes or reads, they share no explicit resource, and neither excludes a writer the other is |
| Leases.NoOwnersNoResources | global-config/plugins/ues-router/parallel-runtime.js:46-61 | an owned table without owners is empty and admits every request |
| Leases.OwnersCompatible | global-config/plugins/ues-router/parallel-runtime.js:52-72 | distinct owners of a table hold compatible claims |
| Leases.GrantedIff | global-config/plugins/ues-router/parallel-runtime.js:52-61 | a request is granted exactly when it is compatible with the claims of every other owner; the owner's own never stand in its way |
| Leases.AcquireKeepsOwnedIff | global-config/plugins/ues-router/parallel-runtime.js:63-72 | a grant keeps the table invariant exactly when everything the owner already held is claimed again |
| Leases.SecondGrantOrphans | global-config/plugins/ues-router/parallel-runtime.js:63-82 | an owner holding one resource for writing is granted another alone: the invariant is gone, and releasing leaves the first taken |
| Leases.AcquireFreshKeepsOwned | global-config/plugins/ues-router/parallel-runtime.js:63-72 | acquiring for an owner that holds nothing keeps the invariant: holders and owners describe the same claims, no empty lists, sharing only among readers |
| Leases.ReleaseKeepsOwned | global-config/plugins/ues-router/parallel-runtime.js:74-82 | releasing keeps the invariant and leaves the owner with nothing |
| Leases.BracketIsInvisible | global-config/plugins/ues-router/parallel-runtime.js:63-82 | acquire and later release by a fresh owner, around any granted steps of others, leaves the very table those steps alone produce |
| LeaseTable.ResourceLeaseTable.CanAcquire | global-config/plugins/ues-router/parallel-runtime.js:52-61 | the nested scan answers whether every claim is admitted by the other holders |
| LeaseTable.ResourceLeaseTable.Acquire | global-config/plugins/ues-router/parallel-runtime.js:63-72 | granted exactly when the claims can be acquired; the new table, and nothing changed on refusal |
| LeaseTable.ResourceLeaseTable.Release | global-config/plugins/ues-router/parallel-runtime.js:74-82 | the new table after a release, with emptied resources removed |
| DagScheduler.ValidateGraph | global-config/plugins/ues-router/parallel-runtime.js:113-128 | accepted exactly when ids are non-empty and unique and every dependency is known; otherwise which error, with a missing dependency named |
| DagScheduler.ValidatedConfig | global-config/plugins/ues-router/parallel-runtime.js:137-141 | an accepted graph is a valid configuration, the one assumption of the results about runs |
| DagScheduler.AdaptiveWorkerCount | global-config/plugins/ues-router/parallel-runtime.js:89-98 | the limit is the smaller of the requested count (4 when absent, clamped to 1..16) and the number of ready tasks, at least 1; two failures or a conflict rate of 35 percent each halve it, rounding up |
| DagScheduler.SortPermutes | global-config/plugins/ues-router/parallel-runtime.js:201-204 | ready tasks are tried in some permutation, whatever the comparison says |
| DagScheduler.SortAscends | global-config/plugins/ues-router/parallel-runtime.js:201-204 | with a total order they are tried in ascending order |
| DagScheduler.Scheduler.BlockSweep | global-config/plugins/ues-router/parallel-runtime.js:191-199 | one sweep over pending tasks has the effect of the machine's blocking pass |
| DagScheduler.Scheduler.TryLaunch | global-config/plugins/ues-router/parallel-runtime.js:165-188 | a ready task is launched with its claims, or counted as deferred |
| DagScheduler.Scheduler.LaunchReady | global-config/plugins/ues-router/parallel-runtime.js:206-223 | counts the check, sets the limit, launches in order until the limit |
| DagScheduler.Scheduler.BlockRest | global-config/plugins/ues-router/parallel-runtime.js:226-232 | every pending task is recorded as blocked for one reason and pending is emptied |
| DagScheduler.Scheduler.Settle | global-config/plugins/ues-router/parallel-runtime.js:236-254 | one settled promise leaves running for completed or failed, with the fail-fast sweep |
| DagScheduler.Scheduler.Schedule | global-config/plugins/ues-router/parallel-runtime.js:190-234 | one synchronous pass is the machine's pass, with ready tasks tried in the locale's order |
| DagScheduler.Scheduler.Run | global-config/plugins/ues-router/parallel-runtime.js:137-271 | the whole loop terminates, is a run of the machine, and ends clean with the canonical result sets |
| History.IntegrationsDoNotOverlap | global-config/plugins/ues-router/parallel-runtime.js:158-163 | in a legal history a later integration begins only after the earlier one ended |
| History.StartsAfterDependencies | global-config/plugins/ues-router/parallel-runtime.js:201-204 | a task starts only after every dependency in the run has completed and finished integrating |
| History.MergesFollowDependencies | global-config/plugins/ues-router/parallel-runtime.js:158-163 | successful integrations come in an order that respects the dependency graph |
| Invariants.StepKeeps | global-config/plugins/ues-router/parallel-runtime.js:158-254 | every step keeps the invariant: one place per task, leases exactly while unsettled, the queue exactly the queued, completed dependencies, a just log |
| Invariants.RunKeeps | global-config/plugins/ues-router/parallel-runtime.js:137-254 | the invariant holds after every run, with any interleaving and any outcomes |
| Invariants.StallMeansNothingReady | global-config/plugins/ues-router/parallel-runtime.js:216-232 | no false stall: if nothing runs after a pass, nothing was ready |
| SchedulerTheorems.MutualExclusion | global-config/plugins/ues-router/parallel-runtime.js:165-188 | any two tasks in progress together are safe together: by the paths they list, none writes a file the other writes or reads |
| SchedulerTheorems.OneIntegratesWithLeases | global-config/plugins/ues-router/parallel-runtime.js:158-185 | at most one task integrates, and it still holds every claim it took |
| SchedulerTheorems.OwnersAreFresh | global-config/plugins/ues-router/parallel-runtime.js:165-168 | whenever a ready task is tried, in the middle of any pass of any run, the table is sound and that task holds nothing in it |
| SchedulerTheorems.RunsAreLegal | global-config/plugins/ues-router/parallel-runtime.js:152-254 | every run's event log is a legal history |
| SchedulerTheorems.IntegrationOrder | global-config/plugins/ues-router/parallel-runtime.js:158-188 | integrations begin in the order workers finished, one at a time, after all dependencies have been integrated |
| SchedulerTheorems.FinishedIsClean | global-config/plugins/ues-router/parallel-runtime.js:190-271 | at the end the table is empty, nothing is pending or running, and the three sets partition the tasks |
| SchedulerTheorems.OneTerminalEvent | global-config/plugins/ues-router/parallel-runtime.js:152-254 | each task has exactly one terminal event, of the kind of its result set, preceded by a start unless blocked |
| SchedulerTheorems.FailFastRuns | global-config/plugins/ues-router/parallel-runtime.js:247-253 | under fail-fast no start follows the first failure |
| SchedulerTheorems.OutcomeIsCanonical | global-config/plugins/ues-router/parallel-runtime.js:190-255 | completed is the least fixpoint of "succeeds and all dependencies completed", failed fails with all completed, blocked is everything else |
| SchedulerTheorems.ScheduleIndependence | global-config/plugins/ues-router/parallel-runtime.js:190-255 | two finished runs over one graph with the same outcomes end with the same three sets, whatever the interleaving, conflicts, launch order and limits |
| Liveness.Progress | global-config/plugins/ues-router/parallel-runtime.js:190-255 | until the scheduler has finished some step can be taken |
| Liveness.QueueProgress | global-config/plugins/ues-router/parallel-runtime.js:158-163 | while anything is queued, the head of the queue can begin or end its integration |
| Liveness.QueueMovesOn | global-config/plugins/ues-router/parallel-runtime.js:158-163 | however an integration ends, failed ones included, the next queued task can begin at once |
| Liveness.Termination | global-config/plugins/ues-router/parallel-runtime.js:190-255 | every run has at most ten steps a task and two more |
| Liveness.CanFinish | global-config/plugins/ues-router/parallel-runtime.js:190-255 | any run can be continued until the scheduler has finished |
| Liveness.EveryOutcomeIsReached | global-config/plugins/ues-router/parallel-runtime.js:190-255 | for every graph and every choice of which tasks succeed, some finished run meets exactly those outcomes and ends with the canonical sets |
| Liveness.WorkConserving | global-config/plugins/ues-router/parallel-runtime.js:206-223 | after a pass below the limit, every task still ready conflicts with some other task in progress |
| Passes.PassFillsTheLimit | global-config/plugins/ues-router/parallel-runtime.js:206-223 | in any run, when the tasks that can start conflict with nothing, a pass leaves as many running as there are, up to the limit given by what was requested, failed, deferred and checked |
| Passes.PassRunsAtFullSpeed | global-config/plugins/ues-router/parallel-runtime.js:89-98 | without failures and deferrals so far, that is all of them up to the requested count clamped to 1..16 |
| Passes.PassCounts | global-config/plugins/ues-router/parallel-runtime.js:206-223 | a pass counts a check for each task that can start, at least one, and a deferral for each it tried and did not start; it leaves one untried only at the limit |
| Liveness.ConcurrencyBound | global-config/plugins/ues-router/parallel-runtime.js:89-98 | running never exceeds the requested bound, at most 16; deferrals never exceed checks and the rate stays in [0, 1] |
| Liveness.LimitNeverRises | global-config/plugins/ues-router/parallel-runtime.js:89-98 | more failures or a higher conflict rate never raise the limit |
| Liveness.LimitShrinksToQuarter | global-config/plugins/ues-router/parallel-runtime.js:95-97 | pressure shrinks the limit to no less than a quarter, rounded up |
| Liveness.BlockedIffBehind | global-config/plugins/ues-router/parallel-runtime.js:191-232 | a task is blocked exactly when a chain of its dependencies leads to a failure or into a cycle |
| Passes.SweepBlocks | global-config/plugins/ues-router/parallel-runtime.js:191-199 | one sweep blocks a pending task exactly when a dependency has failed, was blocked before, or stands before it and is blocked by the same sweep, and records the first such dependency |
| Passes.ReasonsAreRight | global-config/plugins/ues-router/parallel-runtime.js:191-254 | in every run the recorded reason is right: a named dependency failed or is blocked, a named cause failed, and a task recorded as stalled waits for something, but for nothing that failed |
| Passes.StalledIff | global-config/plugins/ues-router/parallel-runtime.js:191-232 | in a pass that stalls, a task is recorded as stalled exactly when the sweep before it found no bad dependency |
| Passes.BehindFailureButStalled | global-config/plugins/ues-router/parallel-runtime.js:191-232 | a run in which a task behind a failure is recorded as stalled |
| Verdict.ExtractVerifierVerdict | global-config/plugins/ues-router/verifier-runtime.js:12-33 | the backward scan returns the last valid verdict line in document order, and none exactly when there is none; when the transcript's last non-blank line is marked and parses to FAIL, or to PASS with three characters of evidence, that is the result |
| Verdict.FinalLineDecides | global-config/plugins/ues-router/verifier-runtime.js:12-33 | whatever stands before it, the last non-blank line decides: FAIL when it parses to FAIL, PASS when it parses to PASS with three characters of evidence, and otherwise the result is that of the transcript without it |
| Verdict.GateByFinalLine | global-config/plugins/ues-router/index.js:1428-1439 | a transcript passes when its last non-blank line says PASS with evidence, does not when it says FAIL, and otherwise passes when it does without that line; an empty one does not |
| Verdict.AssistantIff | global-config/plugins/ues-router/verifier-runtime.js:2-3 | only messages whose role is "assistant" in any letter case count |
| Verdict.ContentCounts | global-config/plugins/ues-router/verifier-runtime.js:5-8 | a message without text parts counts by its content |
| Text.TrimMeaning | global-config/plugins/ues-router/verifier-runtime.js:17-17 | trimming takes off all white space at both ends and nothing else |
| Verdict.AssistantTextParts | global-config/plugins/ues-router/verifier-runtime.js:1-10 | the text parts of an assistant message, its content when it has none, nothing for other roles |
| Verdict.LastRulingUnique | global-config/plugins/ues-router/verifier-runtime.js:12-33 | there is only one last ruling |
| Verdict.AppendingSilenceChangesNothing | global-config/plugins/ues-router/verifier-runtime.js:12-33 | appended messages without a valid line never change the verdict |
| Verdict.OthersChangeNothing | global-config/plugins/ues-router/verifier-runtime.js:1-33 | whatever anyone but the assistant appends, the verdict stays what it was |
| Verdict.PassHasEvidence | global-config/plugins/ues-router/verifier-runtime.js:22-27 | a PASS carries at least three characters of evidence, and no ruling more than 4000 |
| Verdict.CheckVerdict | global-config/plugins/ues-router/index.js:1428-1439 | the worker goes on exactly when the transcript's last valid verdict is PASS, which the rows above decide from its last lines |
| Transaction.TxNextKeeps | global-config/plugins/ues-router/index.js:1448-1502 | every CLI call keeps the flags, and adds at most the callback's own patch on top and its own record |
| Transaction.CallbackCloses | global-config/plugins/ues-router/index.js:1448-1502 | a callback closes after at most five calls besides its verification commands |
| Transaction.RootTree.Attempt | global-config/plugins/ues-router/index.js:1451-1484 | for every way its calls are answered, the try body applies the patch when it was accepted, and records completion exactly when the patch, every verification command, the receipt and the completion were accepted |
| Transaction.RootTree.Integrate | global-config/plugins/ues-router/index.js:1448-1502 | for every way its calls are answered, it succeeds exactly when the patch (if there is one), every verification command, the receipt and the completion were accepted; then the patch is on top and the task recorded, and otherwise root and record are as found |
| Transaction.WorldRunsAreRuns | global-config/plugins/ues-router/index.js:1353-1508 | seen without its callbacks every run of the whole is a run of the scheduler |
| Transaction.WorldRunKeeps | global-config/plugins/ues-router/index.js:1353-1508 | at every moment the root is the merged patches in merge order plus at most the open callback's on top |
| Transaction.RollbackUndoesLastPatch | global-config/plugins/ues-router/index.js:1491-1495 | a rollback undoes the most recently applied patch and nothing else |
| Transaction.DurableMeansSuccess | global-config/plugins/ues-router/index.js:1479-1501 | integrate never throws after durable completion and never succeeds without it |
| Transaction.RootConservation | global-config/plugins/ues-router/index.js:1353-1508 | at the end the root holds exactly the patches of the sandboxed completed tasks, the record exactly the completed ones, all of them past the gate |
| Transaction.MergedWasAccepted | global-config/plugins/ues-router/index.js:1448-1502 | in every run a task is merged exactly when its callback ended and its patch, every one of its verification commands, its receipt and its completion were accepted |
| Transaction.RootRespectsDependencies | global-config/plugins/ues-router/index.js:1448-1502 | every patch in the root lies above those of the tasks it depends on |
| Transaction.RootIsScheduleIndependent | global-config/plugins/ues-router/index.js:1353-1508 | two finished runs over one graph with the same outcomes, whatever their claims and limits, leave the same patches and the same record |
| Transaction.WorldProgress | global-config/plugins/ues-router/index.js:1353-1508 | scheduler, sandboxes and callbacks together are never stuck: until the end some step can be taken, the next call of an open callback included |
| WorldLiveness.WorldTermination | global-config/plugins/ues-router/index.js:1353-1508 | every run of scheduler, sandboxes and callbacks is bounded by ten steps, a sandbox, five calls and its verification commands for each task, and two more |
| WorldLiveness.EveryWorldOutcomeIsReached | global-config/plugins/ues-router/index.js:1353-1508 | whichever tasks are to succeed, if the verifier lets those through, some finished run of the whole, every callback uninterrupted, meets exactly these outcomes |
| Baseline.SandboxStartsFromRecorded | global-config/plugins/ues-router/index.js:1043-1047 | whenever a sandbox is created, in any run, the root holds exactly the patches of the sandboxed tasks recorded as completed, in merge order |
| Baseline.SandboxHasDependencies | global-config/plugins/ues-router/index.js:1043-1047 | a sandbox starts with the patches of all sandboxed tasks its task depends on |
| Baseline.BaselineIsPrefix | global-config/plugins/ues-router/index.js:1043-1502 | at every later moment of the run the root still begins with what the sandbox was created from |
| Baseline.PatchMeetsOnlySafePatches | global-config/plugins/ues-router/index.js:1448-1454 | when a sandboxed task's callback opens, the root is what its sandbox was created from and, after that, only patches of tasks safe beside it |
| Canonical.KeyOrder | global-config/plugins/ues-router/runtime-guard.js:9-11 | the order of a canonical object's keys, index keys first, is a total order |
| Canonical.CanonIdempotent | global-config/plugins/ues-router/runtime-guard.js:6-12 | a canonical form is its own canonical form |
| Canonical.CanonIff | global-config/plugins/ues-router/runtime-guard.js:6-12 | two values have one canonical form exactly when they differ only in key order, at any depth |
| Guard.SameSignatureIff | global-config/plugins/ues-router/runtime-guard.js:166-169 | calls share a duplicate counter exactly when tool, directory and workspace agree and inputs differ only in key order |
| Guard.AbsentInputs | global-config/plugins/ues-router/runtime-guard.js:166-166 | null, false, zero and the empty string share the signature of the empty object, and no other input does |
| Guard.SameEvidence | global-config/plugins/ues-router/runtime-guard.js:14-17 | results that differ only in key order are one evidence, and so is a string with a result's JSON text |
| Guard.SameEvidenceIff | global-config/plugins/ues-router/runtime-guard.js:14-17 | two results are one evidence exactly when the workspaces agree and they are equal strings, values that differ only in key order, a value and its JSON text, or both absent (as far as JSON text tells values apart) |
| Guard.LimitsAre | global-config/plugins/ues-router/runtime-guard.js:138-139 | the limits are the options: 3 and 6 when absent, at least 2 and 4 |
| Guard.SessionKeysApart | global-config/plugins/ues-router/runtime-guard.js:142-146 | sessions are told apart by their ids, one without an id being the session "global" |
| Guard.SessionsAreIndependent | global-config/plugins/ues-router/runtime-guard.js:140-146 | what the guard holds for a key is what it would hold had only that key's calls been made |
| RuntimeGuard.SessionRecord.Before | global-config/plugins/ues-router/runtime-guard.js:157-192 | the decision and the whole new state of one session before a call |
| RuntimeGuard.SessionRecord.After | global-config/plugins/ues-router/runtime-guard.js:194-233 | the whole new state of one session after a call |
| RuntimeGuard.RuntimeGuard.Before | global-config/plugins/ues-router/runtime-guard.js:157-192 | the decision, and that only the session of the key changes |
| RuntimeGuard.RuntimeGuard.After | global-config/plugins/ues-router/runtime-guard.js:194-233 | the session of the key takes the step, others stay |
| RuntimeGuard.RuntimeGuard.Compacted | global-config/plugins/ues-router/runtime-guard.js:240-248 | a compaction forgets what the session learnt but not its open calls |
| RuntimeGuard.RuntimeGuard.Snapshot | global-config/plugins/ues-router/runtime-guard.js:250-259 | the last progress and the number of open calls of the session, created when missing |
| RuntimeGuard.RuntimeGuard.Clear | global-config/plugins/ues-router/runtime-guard.js:261-263 | the session is removed, others stay |
| GuardSessions.SessionIsReplay | global-config/plugins/ues-router/runtime-guard.js:137-265 | after any calls, what the guard holds for a key is the replay of the key's events since it was last cleared |
| GuardSessions.GuardHoldsHistory | global-config/plugins/ues-router/runtime-guard.js:148-263 | those counters are what the history says: attempts, evidence streak and latch since the last reset; what is stored belongs to the current workspace, and a counter at the limit has latched |
| GuardSessions.AnswerFromLife | global-config/plugins/ues-router/runtime-guard.js:157-192 | exploration is refused exactly from loopLimit + 1 equal evidences on, or from attempt duplicateLimit + 1 of a signature, since the last reset; other calls never |
| GuardSessions.LoopIffSameResults | global-config/plugins/ues-router/runtime-guard.js:174-211 | exploration is refused as a loop exactly when, since the last reset, loopLimit + 1 successive explorations brought the same result |
| GuardSessions.DifferentResultsNeverLoop | global-config/plugins/ues-router/runtime-guard.js:203-211 | explorations whose successive results differ are never refused as a loop |
| GuardSessions.GuardRefusesRepetition | global-config/plugins/ues-router/runtime-guard.js:166-187 | an exploration attempted duplicateLimit times is refused as long as the workspace stays, no write or verify tool completes and no compaction comes |
| GuardSessions.GuardAdmitsAfterReset | global-config/plugins/ues-router/runtime-guard.js:216-224 | any call right after a completed write or verify tool, or after a clear, is admitted |
| GuardSessions.GuardAdmitsInNewWorkspace | global-config/plugins/ues-router/runtime-guard.js:148-154 | any call that sees another workspace than the last call is admitted |
| GuardSessions.GuardBoundsDuplicates | global-config/plugins/ues-router/runtime-guard.js:148-263 | between resets, clear included, the guard admits at most duplicateLimit calls with one signature |
| GuardSessions.GuardAdmitsAfterCompaction | global-config/plugins/ues-router/runtime-guard.js:240-248 | the first call straight after a compaction is admitted |
| GuardSessions.GuardLatchOutlivesCounter | global-config/plugins/ues-router/runtime-guard.js:205-211 | a session is blocked with its counter below the limit exactly when its epoch was latched and its evidence streak broken since |
| GuardHistory.FreshEvidenceKeepsLatch | global-config/plugins/ues-router/runtime-guard.js:205-211 | an exploration in flight when the loop was detected that brings fresh evidence zeroes the counter and leaves the block |
| GuardHistory.BlockedWithCounterZero | global-config/plugins/ues-router/runtime-guard.js:205-211 | a history in which every call is admitted, eight different reads with two of them open at once: afterwards the counter is zero and every read is refused |
| GuardSessions.GuardTracksOpenCalls | global-config/plugins/ues-router/runtime-guard.js:189-263 | the active calls held for a key are exactly those admitted, not reported finished and not cleared since |
| GuardSessions.GuardProgressIsLatest | global-config/plugins/ues-router/runtime-guard.js:157-248 | the last progress of a session is the time of its last event that was not a refused call |
| GuardSessions.GuardNeverStallsOpenCall | global-config/plugins/ues-router/runtime-guard.js:82-97 | the watchdog never reports a stall while a call of the session is open |
| GuardSessions.GuardStallIff | global-config/plugins/ues-router/runtime-guard.js:82-97 | with no call open a stall is reported exactly after the limit: a minute by default, else what was asked for within thirty seconds and five minutes |
| Resume.WaitReturnsIffResumed | global-config/plugins/ues-router/index.js:402-437 | the wait can return normally exactly when every persisted compaction was followed by an admitted call |
| Resume.FirstCallResumes | global-config/plugins/ues-router/index.js:426-436 | a call straight after a persisted compaction is let through and ends the duty to resume |
| Resume.UnpersistedIsInvisible | global-config/plugins/ues-router/index.js:510-531 | a compaction whose checkpoint was not persisted changes nothing |
| Resume.HooksTrackOpenCalls | global-config/plugins/ues-router/index.js:412-492 | the calls the guard holds as active for a session are those its hooks let through and have not reported done |
| Resume.RepeatedResultsBar | global-config/plugins/ues-router/index.js:412-492 | a result reported loopLimit + 1 times in a row bars every further exploration in that workspace at the hook |
| Resume.ExecutorSession.ExecuteBefore | global-config/plugins/ues-router/index.js:412-437 | throws exactly for a blocked call; an admitted one clears the resume flag |
| Resume.ExecutorSession.ExecuteAfter | global-config/plugins/ues-router/index.js:439-492 | the guard learns of the finished call; the resume flag stays |
| Resume.ExecutorSession.Progressed | global-config/plugins/ues-router/index.js:371-378 | the wait touches the session; the resume flag stays |
| Resume.ExecutorSession.Compact | global-config/plugins/ues-router/index.js:510-531 | a persisted checkpoint sets the resume flag and resets the guard |
| Resume.ExecutorSession.FinishWait | global-config/plugins/ues-router/index.js:402-408 | the check at the end of the wait passes exactly when every persisted compaction was resumed |
| Recovery.ModelsTried | global-config/plugins/ues-router/index.js:1063-1193 | for every stream of failures the models tried are base, base-base, base-escalated or base-base-escalated |
| Recovery.ModelsTriedExactly | global-config/plugins/ues-router/runtime-guard.js:99-122 | which of these it is, from the first two failures: a first provider failure is retried on the same model, or on the escalated one when the quota is used up, a second one only on the escalated one, nothing else ever |
| Recovery.ThirdAttemptNeverRetries | global-config/plugins/ues-router/runtime-guard.js:99-122 | at the third attempt the plan never asks for a retry |
| Recovery.DisabledEscalation | global-config/plugins/ues-router/index.js:1153-1158 | without escalation every session uses one model and there are at most two |
| Recovery.RetryLoop | global-config/plugins/ues-router/index.js:1071-1193 | the capped loop tries exactly what the uncapped plan would, and succeeds when its last session does |
| Decode.SwapUtf16 | global-config/plugins/ues-router/text-runtime.js:4-12 | swapping pairs and reading little-endian reads big-endian |
| Decode.Utf16Guess | global-config/plugins/ues-router/text-runtime.js:14-34 | the counting loop computes the guess from the share of zeros at even and odd positions |
| Decode.GuessMeaning | global-config/plugins/ues-router/text-runtime.js:14-34 | four bytes or more look like UTF-16 exactly when a quarter of those at one parity and at most a twentieth of the others are zero |
| Decode.PairsMeaning | global-config/plugins/ues-router/text-runtime.js:4-12 | UTF-16 is read pair by pair in the order of its mark, a last odd byte dropped |
| Decode.DecodeBuffer | global-config/plugins/ues-router/text-runtime.js:36-59 | the decoding loop computes the specified result, binary text included |
| Decode.BinaryIff | global-config/plugins/ues-router/text-runtime.js:51-56 | a buffer is rejected as binary exactly when it has no mark, does not look like UTF-16, and more than two of its bytes and more than one in a hundred are zero |
| Decode.DecodedAs | global-config/plugins/ues-router/text-runtime.js:36-58 | every other buffer is decoded as its mark says, UTF-8 marks included, else as what it looks like, else as UTF-8 |
| Decode.BomRoundTrip | global-config/plugins/ues-router/text-runtime.js:40-45 | any UTF-16 code units written with a byte-order mark in either order decode back to themselves |
| Decode.AsciiFromUtf8 | global-config/plugins/ues-router/text-runtime.js:36-59 | NUL-free ASCII decodes correctly from UTF-8, whatever its length |
| Decode.AsciiFromUtf16Iff | global-config/plugins/ues-router/text-runtime.js:14-49 | NUL-free ASCII in UTF-16 without a mark is read back exactly when it is not a single character |
| Decode.PagesCoverText | global-config/plugins/ues-router/text-runtime.js:81-93 | the pages of a reading concatenate to the whole text, and their number is bounded |
| Decode.PageLength | global-config/plugins/ues-router/text-runtime.js:81-93 | a page is as long as asked for, 12000 by default and within 256 to 1000000, or what is left, from the given start |
| Decode.PagingEnds | global-config/plugins/ues-router/text-runtime.js:81-93 | reading on until a page is not truncated always ends |
| Budget.OverBudget | global-config/plugins/ues-router/runtime-guard.js:31-48 | over budget the text fits the character limit (exactly, when cut by characters), has at most three lines over the line limit, and names its digest |
| Budget.LimitsByTool | global-config/plugins/ues-router/runtime-guard.js:24-35 | the limits are the options, at least 2000 and 40, with their defaults by kind of tool; head and tail lines add up to the limit |
| BudgetUnchanged.UnchangedIff | global-config/plugins/ues-router/runtime-guard.js:31-48 | every text is left as it is exactly when it is within both limits or quotes its own cut: one line too many and that line the marker, or, its line cut too long, exactly at the character limit with the note of the char marker for a line, where the kept head ends, and no more than parts of the marker line beside it |
| BudgetUnchanged.OverLimitChanges | global-config/plugins/ues-router/runtime-guard.js:31-48 | text over the character limit, or over the line limit by more than three, or not quoting its digest always changes |
| BudgetUnchanged.QuotingTextIsUnchanged | global-config/plugins/ues-router/runtime-guard.js:31-48 | a text over the line limit that is left as it is, being its own line cut |
| BudgetUnchanged.FillingTextIsUnchanged | global-config/plugins/ues-router/runtime-guard.js:42-48 | a text over the line limit, with a line cut over the character limit, that is left as it is |
| BudgetUnchanged.SmallDigestIsInjective | global-config/plugins/ues-router/runtime-guard.js:33-33 | the digest of these examples tells any two texts apart |
| LineEnds.PlainIff | global-config/plugins/ues-router/runtime-guard.js:32-41 | joining the split lines gives the text back exactly when no line ends in a carriage return |
| Budget.CharCutMeaning | global-config/plugins/ues-router/runtime-guard.js:43-48 | the char cut fills the budget exactly and keeps a head, of its share of the room beside the marker, and a tail that do not meet |
| Budget.LineCutExcises | global-config/plugins/ues-router/runtime-guard.js:36-41 | with too many lines the line cut replaces one stretch between two line feeds by the marker line, keeping the first and last lines |
| BudgetRepeats.OriginIsFaithful | global-config/plugins/ues-router/runtime-guard.js:31-48 | every character of the output is the text's character at the position it is traced to, and those traced to none are in a marker |
| BudgetRepeats.RepeatsIff | global-config/plugins/ues-router/runtime-guard.js:31-48 | the output repeats part of the text exactly when the kept lines overlap and the kept front or back reaches across the marker line, or (carriage returns dropped) the two exceed the text; never with MaxLines lines or more |
| BudgetRepeats.LongLineRepeats | global-config/plugins/ues-router/runtime-guard.js:31-48 | a line of 2000 characters and twenty of one, under the smallest limits: the output repeats |
| BudgetUnchanged.GovernedOutput | global-config/plugins/ues-router/runtime-guard.js:23-63 | a tool that is not governed is left alone; for a governed one the output is bounded, its text changes unless within limits or quoting its own cut, and a record notes what was cut |

## Left out

- Process spawning, Git signals, CLI JSON plumbing, timers, polling and trace writing are host I/O; a CLI call
  is an operation that succeeds or fails as a whole, and rollback is assumed to succeed.
- A CLI command that takes effect and then reports an error (a durable completion whose answer cannot be
  parsed) is not modelled.
- Sandbox removal, the durable failure record and progress messages are best-effort side
  effects that do not feed back into the modelled state.
- A caller's own lease table and concurrent users of it: the scheduler is modelled with its own empty table.
- Event timestamps, payloads, error records and the results carried by settled promises; an `onEvent` callback
  that throws.
- Ids that are not strings, options that are not integers, and dependency lists that are not lists.
- The verifier's session: prompt, permissions, and the comparison of the workspace before and after it. Its
  transcript is a parameter, and so is whether a worker ran in a sandbox.
- `parallelRootBaseline` copies five facts about the working tree into a record, and the dispatch refuses to
  start without an approved plan or beside a running attempt; neither touches the modelled state.
- Session-map clean-up when attaching, switching or prompting throws before the wait, and the session retry
  hook: the retry loop is modelled from the wait on.
- `classifyProviderFailure`, shared-surface paths and tool classes are regex tables; their answers are arbitrary.
- `lastResultHash` is written and never read.
- Filesystem path identity, symlinks and `readProjectJson`.
- Upper-casing and reading fields of the parsed verdict belong to the parser parameter; role names are
  lower-cased in ASCII only.
- `pi/extensions`, `router.js`, `safety.js`, `command-runtime.js`, `capabilities.js` and `policy-runtime.js`:
  wiring, regex tables, prompt text and re-exports.
- Transaction.RootConservation: assumes rollback succeeds, because the code swallows its failure.
- Strings with unpaired surrogates outside `Decode`: elsewhere characters are Unicode scalar values, compared
  by their UTF-16 code units where the source sorts keys.
- Budget.OverBudget: lengths and cuts count Unicode scalar values, as in the other `Budget` modules and the verdict
  line, while the source counts UTF-16 code units. A character beyond the basic plane counts one in the model and
  two in the source, so limits are reached earlier there and a cut can fall inside a pair.
