# A verified model of deployra's deployment control plane

deployra deploys Git projects: a watcher polls remotes, a job engine runs one deployment per project at a time, a
pipeline builds and activates the commit, a rollback manager undoes what a failed deployment did, and a watchdog
repairs what is left behind. Its guarantees hold only across interleavings, so this project models the daemon as
transition systems and proves what every run keeps.

JavaScript runs one piece of code at a time, so code between two awaits is one atomic step and anything may happen at
an await; a timer fires only when no promise continuation is due. Calls into git, commands, systemd, the file system and
readiness checks succeed or fail in any pattern; a failed call leaves what it worked on in an unknown condition. A
zero-downtime deploy or revert moves the traffic or not, whatever it returns: it may be simulated, only weighted, or
find no viable generation (src/runtime/unitup-adapter.ts:571-588, 690, 736-749, 798-823).

| module | what it models |
|---|---|
| `Records` | deployment rows, configuration, `DeploymentProgress` |
| `LockTable` | project locks: acquire, heartbeat, release, prune |
| `Deployments` | the deployments table: status writes, supersede, watchdog failures, retention |
| `Releases` | release directories and the `current` link |
| `Rollback`, `RollbackEffects` | the rollback manager, on a host with working trees, a service, generations, releases and a call log; what each of its paths leaves behind |
| `Pipeline` | one `runDeployment` as a state machine over its awaits, and what others can do to it meanwhile |
| `PipelineSafety`, `PipelineRuns` | its invariant, and what follows for every run |
| `PipelineTraces`, `PipelineOutcome` | what the calls of a run have done to service, generations and `current`; what a successful run has achieved |
| `PipelineScript`, `PipelineTargets`, `PipelineSuccess` | the calls a configuration asks for and the run that makes exactly these; which commit a run deploys; when it succeeds |
| `PipelineRollbacks` | which failed runs are rolled back, and what the row says about it |
| `PipelineWitnesses` | runs, from their start, to the states that the theorems leave open |
| `PipelineRunner` | `runDeployment` as structured code, proved to make such runs and to return |
| `Registry` | abort controllers and the critical flag |
| `Engine` | job deliveries and per-project promise chains |
| `ControlPlane` | the whole daemon: checks, engine, bodies, heartbeats, cancels and the self-repair cycle |
| `ControlPlaneSafety`, `ControlPlaneSteps`, `ControlPlaneLocks`, `ControlPlaneTheorems` | its invariant, and what follows for every reachable state |
| `ControlPlaneEffects`, `ControlPlaneWitnesses` | what single actions change, row by row; a run of the daemon from the empty state to a body that holds its lock |
| `Watcher`, `Retries`, `WatchTimers` | what a check decides, how a failing commit is retried, when checks happen |
| `Healer` | service recovery with backoff |
| `TailBuffer`, `Tokenizer`, `SyncExclude`, `IpMatcher` | output tail, command lines, sync exclusion, CIDR rules |

Where the source does not do what its comments or documentation say, the model follows the code:

- "Always executed" at src/pipeline/pipeline-runner.ts:524 does not hold: the release-lock step gives up when the row is
  cancelled, so the lock stays (`PipelineRuns.LeavingFreesLock`, reached by `PipelineWitnesses.ReturnsWithLock`). That
  never blocks the next deployment (`ControlPlaneTheorems.LockIsTakenAtOnce`, `ControlPlaneTheorems.IdleLockIsTakeable`).
- `rolled_back` does not say that something was rolled back. A release run stays on its own release exactly when it had
  activated it and nothing allows switching back (`PipelineTraces.ReleaseRunEndsOn`); the first release of a project
  that is not ready ends so (`PipelineWitnesses.FirstReleaseRollsBackToItself`). `PipelineTraces.ReleaseRunServes` says
  what is served on each path.
- A zero-downtime run ends on the generation it found exactly when its real reverts equal its real switches
  (`PipelineTraces.GenerationsBalance`), and `rolled_back` does not imply that
  (`PipelineWitnesses.RolledBackOffGeneration`). With action `none` and a previous commit no revert is even asked for
  (`PipelineTraces.RolledBackGeneration`).
- An isolated deployment succeeds on the old live tree, or on an incomplete one, unless its last step with commands is a
  `build` (`PipelineOutcome.LiveHoldsTarget`, `PipelineWitnesses.SuccessOnOldTree`).
- With service action `none` a deployment that stopped the service leaves it down, whether it ends rolled back or
  succeeds (`PipelineTraces.NoActionService`); when it stops it is `PipelineOutcome.NoActionSuccess`,
  `PipelineTraces.RolledBackRunStops` and `PipelineTraces.NoActionReleaseRollback`
  (`PipelineWitnesses.SuccessWithServiceDown`, `PipelineWitnesses.RolledBackWithServiceDown`).
- An aborted run can still stop the service, at the early stop and nowhere else (`PipelineRuns.AbortedRunMayStopService`,
  `PipelineWitnesses.AbortedRunStopsAndRestores`).
- The sync defeats the error backoff exactly for intervals strictly between 3687.5 ms and 15 s
  (`WatchTimers.PatienceCoversDelays`, `WatchTimers.NoFalseStall`, `WatchTimers.BackoffDefeated`); with more projects
  started in one round than the stagger has room for, it moves first timers too (`WatchTimers.LongStaggerIsCutShort`);
  and for intervals above a minute the first error shortens the wait (`WatchTimers.FirstErrorBacksOff`).
- In a sync pattern `?` is a regular-expression quantifier, not a wildcard: it makes the character before it optional
  (`SyncExclude.QuestionMarkIsAQuantifier`), and a pattern with too many of them, or one at the front, makes the copy
  throw (`SyncExclude.BadGlobs`). Patterns without it match as wildcards (`SyncExclude.PlainGlobIsWildcard`).

## Model

| member | source | states |
|---|---|---|
| PipelineRunner.DeploymentRun.RunDeployment | src/pipeline/pipeline-runner.ts:105-535 | under every schedule of outcomes and outside events the call returns; what it did is a run of the state machine; the row is final (or pruned), and the last successful commit is the checked-out one on success and unchanged otherwise |
| PipelineRunner.DeploymentRun.AcquireLock | src/pipeline/pipeline-runner.ts:156-206 | the polling loop, whose first round belongs to the segment that entered: at most three seconds, then it throws; ends ready for the first step only with the lock acquired and pre-flight passed |
| PipelineRunner.DeploymentRun.ValidateRepository | src/pipeline/pipeline-runner.ts:209-218 | as the state machine: a cancelled row stops it; a release run makes its directory |
| PipelineRunner.DeploymentRun.FetchBranch | src/pipeline/pipeline-runner.ts:221-230 | as the state machine |
| PipelineRunner.DeploymentRun.ResolveTarget | src/pipeline/pipeline-runner.ts:233-253 | the remote head, if the remote names one, is the target commit afterwards (for whole runs: `SuccessDeploysRemoteHead`) |
| PipelineRunner.DeploymentRun.PrepareWorkspace | src/pipeline/pipeline-runner.ts:256-266 | the workspace flag is set before the reset, which checks out the target commit |
| PipelineRunner.DeploymentRun.RefreshConfiguration | src/pipeline/pipeline-runner.ts:269-281 | as the state machine; decides whether the early stop follows |
| PipelineRunner.DeploymentRun.StopEarly | src/pipeline/pipeline-runner.ts:283-299 | stops the service with no look at row or signal, marked critical first |
| PipelineRunner.DeploymentRun.ExecuteBuildCommands | src/pipeline/pipeline-runner.ts:617-694 | runs the nonempty command steps in order, up to the first that throws |
| PipelineRunner.DeploymentRun.CommandStep | src/pipeline/pipeline-runner.ts:636-691 | checks, the stop for `install`, the commands, and for an isolated `build` the sync |
| PipelineRunner.DeploymentRun.RunCommands | src/pipeline/pipeline-runner.ts:652-669 | runs the commands of a step in order, up to the first that throws; an abort kills the running one |
| PipelineRunner.DeploymentRun.RunCommand | src/pipeline/pipeline-runner.ts:653-669 | one command: where the step goes on, or that it throws |
| PipelineRunner.DeploymentRun.StopForInstall | src/pipeline/pipeline-runner.ts:641-656 | a failed stop is ignored; an abort during it ends the step |
| PipelineRunner.DeploymentRun.SyncBuiltFiles | src/pipeline/pipeline-runner.ts:671-688 | the isolated tree is copied over the live one |
| PipelineRunner.DeploymentRun.ActivateRelease | src/pipeline/pipeline-runner.ts:316-349 | marked critical, then `current` points to the run's own release |
| PipelineRunner.DeploymentRun.PerformServiceAction | src/pipeline/pipeline-runner.ts:352-362 | the flag and the critical mark come before the service call |
| PipelineRunner.DeploymentRun.CheckReadiness | src/pipeline/pipeline-runner.ts:365-385 | as the state machine |
| PipelineRunner.DeploymentRun.CleanupOldReleases | src/pipeline/pipeline-runner.ts:388-444 | prunes unless aborted or dry |
| PipelineRunner.DeploymentRun.CompleteDeployment | src/pipeline/pipeline-runner.ts:447-477 | records the commit (not in a dry run) and success |
| PipelineRunner.DeploymentRun.EnterAndRun | src/pipeline/pipeline-runner.ts:105-535 | unknown projects fail, cancelled ones return at once, all others go through `try`, `catch` and `finally` |
| PipelineRunner.DeploymentRun.RunSteps | src/pipeline/pipeline-runner.ts:154-477 | the `try` block ends ready to notify success or ready to be caught |
| PipelineRunner.DeploymentRun.HandleError | src/pipeline/pipeline-runner.ts:478-520 | the `catch` block ends ready for the `finally` block |
| PipelineRunner.DeploymentRun.HandleCancellation | src/pipeline/pipeline-runner.ts:484-508 | cancelled or aborted: restore if the service was touched, then drop the orphan release |
| PipelineRunner.DeploymentRun.RestoreAfterCancellation | src/pipeline/pipeline-runner.ts:882-912 | one rollback, whose failure is only logged, then the orphan cleanup |
| PipelineRunner.DeploymentRun.RecordRollback | src/pipeline/pipeline-runner.ts:825-861 | the row says whether the rollback returned normally |
| PipelineRunner.DeploymentRun.HandleFailure | src/pipeline/pipeline-runner.ts:791-880 | rolling back only when there is something to undo and a way to undo it, and its outcome recorded |
| PipelineRunner.DeploymentRun.RollBack | src/pipeline/pipeline-runner.ts:825-847 | one call of the rollback manager on the run's host |
| PipelineRunner.DeploymentRun.CleanupOrphanRelease | src/pipeline/pipeline-runner.ts:914-942 | drops the run's directory unless `current` points to it |
| PipelineRunner.DeploymentRun.ReleaseLock | src/pipeline/pipeline-runner.ts:521-534 | the lock goes unless the row is cancelled |
| PipelineSafety.StartedInv | src/pipeline/pipeline-runner.ts:105-152 | a call that starts meets the invariant of all runs |
| PipelineSafety.AdvanceInv | src/pipeline/pipeline-runner.ts:154-535 | every step of every run keeps the invariant: bookkeeping, critical guard, lock ownership, honest progress, safe `current`, justified reverts, compensation |
| PipelineRuns.DisturbedInv | src/jobs/workmatic-engine.ts:224-248 | supersedes, cancels, pruned rows and other lock writers keep it too |
| PipelineRuns.RunKeepsInv | src/pipeline/pipeline-runner.ts:105-535 | hence every interleaving keeps it |
| PipelineRuns.SupersedeSparesCritical | src/pipeline/pipeline-runner.ts:82-103 | a running deployment that has affected the service is registered as critical, and superseding changes nothing about it, nor about one that is rolling back |
| PipelineRuns.SupersedeCancelsTheRest | src/storage/deployment-repository.ts:405-427 | any other unfinished deployment is cancelled, and aborted if it has entered |
| PipelineRuns.ReturnsFinished | src/pipeline/pipeline-runner.ts:446-535 | a run that returned has a final row, and the last successful commit changed only by success, to the commit that was checked out |
| PipelineRuns.ShaWrittenAtComplete | src/pipeline/pipeline-runner.ts:447-464 | the last successful commit is written by the last step alone, never by a dry or aborted run |
| PipelineRuns.LeavingFreesLock | src/pipeline/pipeline-runner.ts:521-534 | leaving keeps the lock if and only if it was held and the row is cancelled, and then anyone may take it |
| PipelineRuns.RolledBackIsCompensated | src/pipeline/pipeline-runner.ts:791-880 | a run that ends rolled back has the live tree at the previous commit, rebuilt, and the service restarted on it exactly when the run had affected it |
| PipelineRollbacks.FailedRunsAreRolledBack | src/pipeline/pipeline-runner.ts:791-880 | of the runs that are not cancelled, a failed one that was not rolled back could not be, and one that was could: it held the lock, had changed something, rollbacks are enabled, and there is another commit, a release or its own generation to go back from |
| PipelineRollbacks.CatchJudges | src/pipeline/pipeline-runner.ts:478-520 | the `catch` block starts that rollback exactly then, for a run that is neither cancelled nor aborted |
| PipelineRollbacks.RolledBackOnce | src/pipeline/pipeline-runner.ts:825-861 | a run whose row speaks of a rollback made exactly one and no call since; `rolled_back` if it returned normally, `rollback_failed` if it threw |
| PipelineRollbacks.RolledBackRunIsReady | src/deployment/rollback-manager.ts:99-228 | a run is recorded as rolled back with a successful readiness wait as its very last call if and only if it has readiness checks, affected the service, and had a previous commit or a release it could be served from |
| PipelineRollbacks.RolledBackRunRestarts | src/deployment/rollback-manager.ts:99-228 | just before that wait it restarted the service with success: from the newest other release if it can serve from there, else from the project path |
| PipelineRollbacks.RollbackFailedOverLastCall | src/deployment/rollback-manager.ts:224-228 | a run recorded as `rollback_failed` made as its very last call one that failed, and no stop |
| PipelineRollbacks.OrphanIsDropped | src/pipeline/pipeline-runner.ts:914-942 | a run that gives up drops its release directory, if it can be removed, unless `current` points to it; one that succeeds keeps it |
| PipelineOutcome.SuccessServesTarget | src/pipeline/pipeline-runner.ts:255-464 | a successful run has reset to the target commit and run every configured command on it in order, in the tree it builds in; where that is not the live tree, the live tree is the last synced state, or as found; the service was restarted on the live tree or on the run's release; the traffic was switched once or, if the call had no effect, not at all; the commit is recorded |
| PipelineTargets.SuccessDeploysRemoteHead | src/pipeline/pipeline-runner.ts:233-253 | a real run that succeeds has asked the remote exactly once, and the commit that is built and recorded is the remote's answer if there was one, and the job's own otherwise |
| PipelineScript.SuccessFollowsScript | src/pipeline/pipeline-runner.ts:255-444 | a real run that succeeds has made exactly the calls its configuration asks for, in order and no other (reset, early stop, command steps with their stop and sync, the configured service action, the readiness wait), and nothing it waited for has failed, except perhaps a stop |
| PipelineScript.CallsFollowScript | src/pipeline/pipeline-runner.ts:255-444 | and until a rollback begins, what any other real run has called is a beginning of that list |
| PipelineSuccess.GrantedRunSucceeds | src/pipeline/pipeline-runner.ts:105-535 | a queued deployment that finds the lock free, is not disturbed and is granted everything it asks for never throws, and within a bounded number of moves has returned and is recorded as a success |
| PipelineSuccess.RemoteHeadIsDeployed | src/pipeline/pipeline-runner.ts:233-253 | in such a run the commit that the remote names is built and recorded, whatever commit the job was queued for |
| PipelineSuccess.StepIsRefused | src/pipeline/pipeline-runner.ts:944-983 | a step does not begin exactly when the row is cancelled, or the signal has fired and the step looks at it, or the release cannot be linked or pruned; only the early stop looks at neither |
| PipelineSuccess.StepBreaksExactly | src/pipeline/pipeline-runner.ts:209-385 | a real run throws inside a step if and only if something that has to succeed failed, nobody names a commit, or the signal has fired during a command or the stop before one |
| PipelineSuccess.LockPolling | src/pipeline/pipeline-runner.ts:161-185 | a waiting run gives up after three seconds, and until then goes on exactly when the lock is free, its own, five minutes old or held by a finished deployment |
| PipelineSuccess.CleanupKeepsNewest | src/pipeline/pipeline-runner.ts:388-444 | the last step of a release run keeps exactly the newest releases, at least one, the active one, and what cannot be removed; an aborted or dry one keeps all |
| PipelineOutcome.LiveHoldsTarget | src/pipeline/pipeline-runner.ts:671-688 | after a success the live tree holds the target commit with all commands run if and only if the run built in place, or isolated with a `build` as its last step with commands, or nothing was synced and the live tree was that already |
| PipelineOutcome.NoActionSuccess | src/pipeline/pipeline-runner.ts:632-650 | with action `none` a successful run leaves the service down if and only if it was found down, or `stopBeforeBuild` is taken, or there is a nonempty `install` for which the strategy stops it |
| PipelineWitnesses.SuccessOnOldTree | src/pipeline/pipeline-runner.ts:671-688 | a run, from its start, of an isolated deployment without `build` that succeeds and serves the tree it found |
| PipelineWitnesses.SuccessWithServiceDown | src/pipeline/pipeline-runner.ts:641-650 | a run with action `none` and an `install` that succeeds with the service stopped |
| PipelineOutcome.RunOutcome | src/pipeline/pipeline-runner.ts:255-444 | at every step of every run the tree holds the target commit with exactly the commands so far |
| PipelineRuns.EarlyFailureLeavesNoTrace | src/deployment/strategy.ts:11-38 | until the workspace is reset a run has made no call on trees, service or generation, however it ended |
| PipelineRuns.ServiceUntouched | src/deployment/strategy.ts:35-38 | while the progress record does not say otherwise, the service and the generation are as they were |
| PipelineRuns.RevertsFollowTheServiceAction | src/pipeline/pipeline-runner.ts:811-834 | a generation revert is issued only if the service action had started, in zero-downtime mode |
| PipelineTraces.GenerationsBalance | src/runtime/unitup-adapter.ts:557-828 | in every state of every run, whatever its calls returned, the serving generation is the one found at the start if and only if the traffic was really reverted as often as really switched; and which one serves otherwise |
| PipelineTraces.RolledBackGeneration | src/deployment/rollback-manager.ts:125-202 | a zero-downtime run that ends rolled back has asked for the revert if and only if its service action had started, except with action `none` and a previous commit; nothing is reverted without the call |
| PipelineWitnesses.RolledBackOffGeneration | src/runtime/unitup-adapter.ts:781-827 | two runs, from their start, that end rolled back and not on the generation they found: on the failed one, and on one before |
| PipelineTraces.RolledBackFiles | src/deployment/rollback-manager.ts:144-186 | in place, isolated or zero-downtime, with any action: a run that ends rolled back with a previous commit has the live tree at it, rebuilt |
| PipelineTraces.ReleaseRunEndsOn | src/deployment/rollback-manager.ts:42-121 | after the rollback of a release run, complete or not, `current` is the run's own release if and only if it had activated it and the listing is unreadable, holds no other release, or the link to it fails; if it can switch back, `current` is the newest other release |
| PipelineTraces.ReleaseRunServes | src/deployment/rollback-manager.ts:99-230 | what a release run recorded as rolled back serves on each path: the newest other release, the previous commit from the project path, or with no previous commit what the attempt left behind |
| PipelineWitnesses.FirstReleaseRollsBackToItself | src/deployment/rollback-manager.ts:137-142 | a run, from its start, of the first release of a project that ends rolled back with `current` and the service on the failed release |
| PipelineTraces.NoActionService | src/deployment/rollback-manager.ts:106-111 | with action `none`, in every state of every run of any strategy, the service is down if and only if it was found down or the run has stopped it |
| PipelineTraces.RolledBackRunStops | src/deployment/rollback-manager.ts:161-169 | a run in place or isolated that ends rolled back has stopped the service if and only if its record says so, or the rollback ran `install` commands next to an affected service |
| PipelineTraces.NoActionReleaseRollback | src/deployment/rollback-manager.ts:99-169 | with action `none`, a release run recorded as rolled back leaves the service down if and only if it was found down, or the rollback fell through to a commit with `install` commands |
| PipelineWitnesses.RolledBackWithServiceDown | src/deployment/rollback-manager.ts:196-217 | a run with action `none` and a failing `install` that ends rolled back with the service down |
| PipelineRuns.CancellationRestores | src/pipeline/pipeline-runner.ts:496-505 | a run cancelled after touching the service restores the previous commit and serves it, if every call succeeds |
| PipelineRuns.CurrentReleaseExists | src/pipeline/pipeline-runner.ts:316-349 | at no point of any run does `current` point to a missing release |
| PipelineRuns.AbortedRunMayStopService | src/pipeline/pipeline-runner.ts:283-299 | an aborted run that has not touched the service goes on to touch it if and only if it is at the early stop, and there it is unregistered, with a row that is not running |
| PipelineRuns.CancelledRunIsRestored | src/pipeline/pipeline-runner.ts:478-505 | a cancelled or aborted run goes on to restore the service if and only if it had touched it and rollbacks are enabled; otherwise it touches nothing but its own release directory |
| PipelineWitnesses.AbortedRunStopsAndRestores | src/pipeline/pipeline-runner.ts:283-299 | a run, from its start, that is superseded, then stops the service, then comes to the restoration |
| PipelineWitnesses.ReturnsWithLock | src/pipeline/pipeline-runner.ts:521-534 | a superseded run, from its start, that returns with its lock still in the table |
| PipelineRuns.MoveProgresses | src/pipeline/pipeline-runner.ts:154-535 | every own step comes closer to the end, or waits for the lock within three seconds |
| PipelineRuns.RunsAreBounded | src/pipeline/pipeline-runner.ts:105-535 | a run makes a bounded number of own steps other than waits, however often it is disturbed |
| Rollback.RollbackManager.Rollback | src/deployment/rollback-manager.ts:19-231 | performs the calls of the release, generation or commit path in order, up to the first failure that is not ignored |
| Rollback.RollbackManager.RelinkRelease | src/deployment/rollback-manager.ts:47-97 | points `current` at the newest other release and drops the failed directory, or changes nothing |
| Rollback.RollbackManager.RestoreReleaseService | src/deployment/rollback-manager.ts:99-115 | restarts from `current` and waits for readiness, only if the service was affected |
| Rollback.RollbackManager.RestorePrevious | src/deployment/rollback-manager.ts:123-230 | the commit path, or without a previous commit the generation path |
| Rollback.RollbackManager.RestoreFiles | src/deployment/rollback-manager.ts:145-186 | reset, clean, stop, install, build, sync, in this order |
| Rollback.RollbackManager.RestoreService | src/deployment/rollback-manager.ts:188-217 | restart or revert, then readiness: if it returns normally after an affected service with readiness checks, its last call is a successful wait |
| Rollback.RollbackManager.RunCommands | src/deployment/rollback-manager.ts:170-178 | commands in order, up to the first failure |
| Rollback.ShaRollbackCompensates | src/deployment/rollback-manager.ts:144-224 | a successful commit rollback leaves the live tree at the previous commit with install and build run on it in order, and the service restarted on it exactly when asked |
| Rollback.FilesRestored | src/deployment/rollback-manager.ts:145-186 | restoring files leaves generation and releases alone, and the service too unless it was affected |
| RollbackEffects.ZeroDowntimeReverts | src/deployment/rollback-manager.ts:125-202 | the commit and generation paths revert at most once, only on request, and the generation moves only as the outcome of that call says |
| RollbackEffects.NoActionRollback | src/deployment/rollback-manager.ts:99-217 | with action `none` no path of a rollback starts the service: it is down afterwards if and only if it was down or the rollback stopped it |
| RollbackEffects.RolledBackStops | src/deployment/rollback-manager.ts:161-169 | a complete rollback has stopped the service if and only if it took the commit path with `install` commands next to an affected service |
| Rollback.RolledBackCalls | src/deployment/rollback-manager.ts:19-231 | the whole rollback stops or restarts the service only if it was affected, and reverts a generation only on request in zero-downtime mode |
| Rollback.RolledBackStoreSafe | src/deployment/rollback-manager.ts:42-121 | no rollback, complete or not, leaves `current` dangling |
| RollbackEffects.RolledBackCurrent | src/deployment/rollback-manager.ts:47-97 | a release rollback, complete or not, leaves `current` on the newest other release if it can be switched there, and the store untouched otherwise |
| RollbackEffects.RolledBackReleases | src/deployment/rollback-manager.ts:84-97 | of the releases exactly the failed one goes, when `current` could be switched and its directory can be removed |
| RollbackEffects.ReleaseRollbackServes | src/deployment/rollback-manager.ts:99-230 | what a release rollback that returns normally serves, on each of its paths |
| RollbackEffects.NothingToRestore | src/deployment/rollback-manager.ts:125-142 | with no previous commit and no generation to revert nothing follows the release path, and the caller is told it succeeded |
| RollbackEffects.ReadyAfterRollback | src/deployment/rollback-manager.ts:99-228 | a rollback that returns normally ends with a successful readiness wait if and only if there are readiness checks, the service was affected, and there was a previous commit or the release path could serve |
| RollbackEffects.RestartBeforeReady | src/deployment/rollback-manager.ts:99-202 | the call before that wait succeeded too: the restart from `current`, the restart from the project path, or the revert of the generation |
| RollbackEffects.ThrowsOverLastCall | src/deployment/rollback-manager.ts:224-228 | a rollback throws only over its last call, which failed and was not a stop |
| RollbackEffects.ResetsAreCleaned | src/deployment/rollback-manager.ts:146-152 | a commit rollback begins by resetting the live tree, and the isolated one after it, to the commit, each cleaned before the next call |
| Releases.ReleaseStore.PruneReleases | src/pipeline/pipeline-runner.ts:404-442 | removes, of the releases beyond the newest `releasesToKeep`, exactly the removable ones that are not recognised as active |
| Releases.PruneKeepsNewestAndActive | src/pipeline/pipeline-runner.ts:404-442 | with canonical paths and successful removals, exactly the newest `releasesToKeep` and the active release remain |
| Releases.PrunedExactly | src/pipeline/pipeline-runner.ts:404-442 | with removals that may fail: a release survives if and only if it is among the newest, active or not removable |
| Releases.PruneBound | src/pipeline/pipeline-runner.ts:404-442 | then at most `releasesToKeep` + 1 remain |
| Releases.PruneSafety | src/pipeline/pipeline-runner.ts:420-442 | pruning keeps `current` valid if and only if the active release is recognised, not removable, or among the newest |
| Releases.CurrentIsNeverDangling | src/pipeline/pipeline-runner.ts:316-349 | over any sequence of activations, prunes, orphan cleanups and rollbacks, with removals failing or not, `current` never dangles |
| Releases.SortSorts | src/pipeline/pipeline-runner.ts:418 | the sort is by modification time, newest first, without loss or repetition |
| LockTable.StateRepository.AcquireLock | src/storage/state-repository.ts:5-48 | true exactly when the caller then holds the lock; only a finished or stale holder is displaced |
| LockTable.StateRepository.RefreshLock | src/storage/state-repository.ts:53-59 | renews the caller's own row and no other |
| LockTable.StateRepository.ReleaseLock | src/storage/state-repository.ts:61-73 | removes the caller's own row and no other |
| LockTable.StateRepository.PruneStaleLocks | src/storage/state-repository.ts:95-124 | removes and counts exactly the locks of unknown holders that are finished or stale |
| LockTable.OwnershipLoss | src/storage/state-repository.ts:5-124 | a lock is lost only by the owner's release, or because the owner is finished or its last heartbeat is over 300000 ms old |
| LockTable.ReleaseIsSelective | src/storage/state-repository.ts:61-73 | a release never touches another owner's row |
| LockTable.LiveHolderExcludes | src/storage/state-repository.ts:5-124 | over any run, an unfinished holder heartbeating in time keeps its lock, and nobody else ever holds it |
| LockTable.HeartbeatsKeepLock | src/storage/state-repository.ts:13-59 | through any run of calls by others, an unfinished holder whose heartbeats are at most five minutes apart holds the lock, whose time is that of its last heartbeat; then another deployment gets it if and only if the holder has finished or been silent for longer |
| LockTable.FreeLockIsAcquired | src/storage/state-repository.ts:13-47 | acquiring succeeds if and only if the lock is free, the caller's own, finished or stale |
| LockTable.AcquireExactly | src/storage/state-repository.ts:13-47 | what an attempt leaves: the caller's own lock with its old time, a takeable one as the caller's from now, any other as it was |
| LockTable.PrunedExactly | src/storage/state-repository.ts:95-124 | what a prune leaves: exactly the locks of known active holders, and those at most five minutes old of unfinished ones |
| Registry.DeploymentPipelineRunner.AbortAllDeploymentsForProject | src/pipeline/pipeline-runner.ts:82-103 | aborts and forgets exactly the non-critical deployments of the project |
| Registry.DeploymentPipelineRunner.AbortDeployment | src/pipeline/pipeline-runner.ts:71-80 | aborts and forgets one deployment, critical or not |
| Registry.DeploymentPipelineRunner.MarkCritical | src/pipeline/pipeline-runner.ts:66-69 | moves exactly this deployment, if registered, from those a newer one may interrupt to the critical ones of its project, and changes no other project's |
| Registry.MarkedIsSpared | src/pipeline/pipeline-runner.ts:66-103 | a registered deployment is aborted by the next newer one of its project, unless it has been marked by then |
| Registry.DeploymentPipelineRunner.GetCriticalDeploymentIds | src/pipeline/pipeline-runner.ts:60-64 | exactly the critical deployments of the project |
| Registry.DeploymentPipelineRunner.Register | src/pipeline/pipeline-runner.ts:119-124 | a new entry may be interrupted by a newer deployment of its project and of no other, and is protected nowhere |
| ControlPlane.RegisteringIsThePipelines | src/pipeline/pipeline-runner.ts:119-124 | seen by the body, registering in the daemon's registry is the pipeline's own move |
| ControlPlane.MarkingIsThePipelines | src/pipeline/pipeline-runner.ts:66-69 | likewise marking |
| ControlPlane.AbortingIsThePipelines | src/pipeline/pipeline-runner.ts:71-80 | likewise aborting |
| Registry.CriticalSurvives | src/pipeline/pipeline-runner.ts:82-103 | a critical deployment survives every supersede, unaborted and protected |
| Engine.WorkmaticEngine.Process | src/jobs/workmatic-engine.ts:118-150 | a duplicate delivery changes nothing; any other goes last in its project's chain |
| Engine.WorkmaticEngine.Resume | src/jobs/workmatic-engine.ts:150-164 | a deployment runs if and only if its row is queued when its turn comes |
| Engine.WorkmaticEngine.Finish | src/jobs/workmatic-engine.ts:177-208 | both `finally` blocks: the task and its id go, and the chain entry if it is the last |
| Engine.WorkmaticEngine.CancelPendingJobsForProject | src/jobs/workmatic-engine.ts:224-248 | aborts the non-critical runs and cancels exactly the queued and running rows that are not critical |
| Engine.ApplyInv | src/jobs/workmatic-engine.ts:118-209 | every delivery, turn and end keeps the chains in order |
| Engine.ProjectsAreSerial | src/jobs/workmatic-engine.ts:187-209 | over any run of deliveries and redeliveries: one active body per project, started in delivery order, a chain entry exactly while a task is unfinished, and `runningDeployments` exactly the unfinished tasks |
| Engine.HeadIsReady | src/jobs/workmatic-engine.ts:187-209 | the first unfinished task of a project is never blocked |
| ControlPlane.DeployraDaemon.RunSelfRepairCycle | src/daemon.ts:143-176 | locks and rows after a cycle are those of the daemon's transition |
| ControlPlaneTheorems.ApplyKept | src/daemon.ts:67-111 | every action of the daemon keeps its invariant |
| ControlPlaneTheorems.BodiesAreSerial | src/jobs/workmatic-engine.ts:118-209 | in every reachable state one body per project, entries in delivery order, and no deployment enters `runDeployment` twice |
| ControlPlaneTheorems.BodiesArePipelineRuns | src/jobs/workmatic-engine.ts:150-180 | in every reachable state of the daemon every body is in a state its own state machine can reach, so all theorems on runs apply to it |
| ControlPlaneTheorems.SupersedeSparesCritical | src/jobs/workmatic-engine.ts:224-248 | in every reachable state superseding leaves a critical or rolling-back body's row, signal and registration alone |
| ControlPlaneEffects.SupersedeCancelsExactly | src/jobs/workmatic-engine.ts:224-248 | superseding a project cancels exactly its queued and running rows that are not critical, now, and aborts and forgets exactly its registered deployments that are not critical |
| ControlPlaneTheorems.LockIsTakenAtOnce | src/storage/state-repository.ts:13-47 | in every reachable state the first attempt at the lock of a body that enters succeeds: the lock of a finished run never blocks the next |
| ControlPlaneTheorems.BodyHoldsLock | src/pipeline/pipeline-runner.ts:154-185 | in every reachable state every body that has entered holds the lock of its project until it leaves, and none is waiting |
| ControlPlaneTheorems.IdleLockIsTakeable | src/daemon.ts:144-176 | in every reachable state a lock without a body is held under a row that is there and final: retention never deletes a holder's row and leaves its lock |
| ControlPlaneWitnesses.ReachesLockedBody | src/daemon.ts:67-176 | for every setup, project and commit: a webhook on the empty daemon leads to a body that holds its lock, in a state in which the self-repair cycle can run |
| ControlPlaneEffects.DeployLeadsToJob | src/watcher/source-watcher.ts:373-421 | a check that decides to deploy leads to a queued row of the commit created now, to its job, and to the commit noted as seen |
| ControlPlaneEffects.SkipChangesLittle | src/watcher/source-watcher.ts:283-388 | one that decides not to changes nothing but, where it says so, the commit last seen of its project |
| ControlPlaneEffects.ReturnEndsTask | src/jobs/workmatic-engine.ts:120-180 | a body that returns is gone with its task; its deployment may be delivered again, and the task that waited for it may go on |
| ControlPlaneEffects.HeartbeatRenewsLock | src/pipeline/pipeline-runner.ts:174-184 | a heartbeat of a body renews its project's lock to now, and no other |
| ControlPlaneTheorems.QueueModesHold | src/watcher/source-watcher.ts:373-421 | active deployments of a project are of different commits; `reject` keeps at most one active, `latest` at most one queued and two active |
| ControlPlaneTheorems.RepairLeavesUnfinishedAlone | src/daemon.ts:143-176 | no self-repair cycle changes the row or the lock of a delivered and unfinished deployment, running or waiting |
| ControlPlaneTheorems.RepairFailsNothingUnderWay | src/storage/deployment-repository.ts:500-511 | a row that is running or rolling back is never failed by the watchdog |
| ControlPlaneTheorems.WatchdogActsByAge | src/daemon.ts:143-176 | one self-repair cycle, on an active row no worker owns: a queued one fails if and only if it was created more than 900000 ms ago and a worker is free, a running or rolling-back one if and only if it started (or without a start time was created) longer ago than that; it is completed now, and may then be pruned; every other row is left as it is |
| ControlPlaneTheorems.CycleKeepsRecentRows | src/daemon.ts:143-176 | a finished row stays as it is, or is deleted: if and only if it is older than thirty days, or a hundred finished rows of its project are newer |
| ControlPlaneEffects.CyclePrunesLocks | src/daemon.ts:143-176 | the cycle removes exactly the locks no worker owns that are over five minutes old or held by a finished deployment |
| ControlPlaneTheorems.PassedOverNeverEnters | src/jobs/workmatic-engine.ts:151-164 | a deployment that is not queued any more, and has not entered, never enters, whatever is delivered |
| ControlPlaneTheorems.LostJobsStayLost | src/storage/deployment-repository.ts:516-540 | in particular a queued row failed by the watchdog is never executed later |
| Deployments.DeploymentRepository.UpdateStatus | src/storage/deployment-repository.ts:144-166 | one row changes: its status, and the start or completion time that goes with it |
| Deployments.DeploymentRepository.CreateDeployment | src/storage/deployment-repository.ts:82-142 | one active deployment more for this project and none for any other; it is the newest of its project if and only if no other has a later creation time, or the same and a later id |
| Deployments.InsertedIsNewest | src/storage/deployment-repository.ts:98-142 | the same of the table as a value: no other row changes |
| Deployments.DeploymentRepository.CancelPendingDeployments | src/storage/deployment-repository.ts:405-427 | exactly the queued and running rows of the project that are not excluded become cancelled, and are returned |
| Deployments.DeploymentRepository.CleanupStaleJobs | src/storage/deployment-repository.ts:500-511 | exactly the running and rolling-back rows that started (or were created) longer ago than the limit and that no worker owns become failed, completed now |
| Deployments.DeploymentRepository.FailStaleQueuedDeployments | src/storage/deployment-repository.ts:516-526 | exactly the queued rows created longer ago than the limit that no worker owns become failed, completed now |
| Deployments.DeploymentRepository.FailDeployments | src/storage/deployment-repository.ts:528-540 | the candidates that are not active become failed, and are counted |
| Deployments.DeploymentRepository.PruneDeployments | src/storage/deployment-repository.ts:542-616 | the age rule, then the count rule project by project; the returned count is the rows removed |
| Deployments.DeploymentRepository.PruneProjects | src/storage/deployment-repository.ts:580-612 | pruning one project after another equals pruning all at once |
| Deployments.RetentionSparesActive | src/storage/deployment-repository.ts:542-616 | no prune removes an active row or changes a row it keeps |
| Deployments.CountPruneKeepsNewest | src/storage/deployment-repository.ts:578-612 | a count-only prune leaves exactly the min(n, keepCount) newest finished rows of every project in scope |
| Deployments.AgePruneKeepsYoung | src/storage/deployment-repository.ts:551-577 | an age-only prune removes exactly the finished rows in scope older than that many days, and nothing for a limit that is not positive |
| Deployments.NewestCount | src/storage/deployment-repository.ts:594-595 | a limit on the order by time and id selects exactly that many rows |
| Deployments.NewestIsNewer | src/storage/deployment-repository.ts:594-595 | and every selected row is newer than every other |
| Watcher.SourceWatcher.CheckRemote | src/watcher/source-watcher.ts:277-388 | the decision of a check: when it creates, supersedes, or notes as seen, both ways (`DeploysExactly`, `NotesExactly`) |
| Watcher.SourceWatcher.GetLatestDeployment | src/storage/deployment-repository.ts:334-339 | the newest row of the project |
| Watcher.DeploysExactly | src/watcher/source-watcher.ts:277-388 | a check deploys a commit if and only if no active deployment has it, the queue mode admits one more and, for a poll, either the newest row is of another commit and this one is not both last seen and last successful, or the newest row is of it, has failed with fewer than three failed or cancelled attempts among the last ten, and one minute (two after the second) has passed; it supersedes exactly under `latest` with active ones |
| Watcher.NotesExactly | src/watcher/source-watcher.ts:308-345 | without deploying, a check notes the commit as seen if and only if it is a poll, the commit is not noted, no active row has it, and the newest row is of it and succeeded, cancelled or failed for good |
| Watcher.DecisionsRespectActive | src/watcher/source-watcher.ts:283-306 | no poll or webhook deploys a commit that is already active; `reject` deploys only when idle; superseding is asked for exactly under `latest` when busy |
| Watcher.SettledCommitStaysSettled | src/watcher/source-watcher.ts:308-363 | once the newest row is a success for the remote commit a poll creates nothing, before and after any prune |
| Retries.RetriesAreCapped | src/watcher/source-watcher.ts:331-354 | in any run of polls that see one commit, at most three deployments of it are created, each retry only after the failure of the one before and a cooldown doubling from one minute |
| Retries.OnlyFailuresAreRetried | src/watcher/source-watcher.ts:320-332 | a cancelled, successful or unfinished attempt is not retried |
| Retries.CreationConditions | src/watcher/source-watcher.ts:331-348 | what a poll has found when it retries: a failed latest attempt, fewer than three, cooled down |
| WatchTimers.SourceWatcher.ScheduleNextCheck | src/watcher/source-watcher.ts:445-498 | the timer is due after the interval, doubled per error up to eightfold, plus jitter, capped at a minute after an error |
| WatchTimers.SourceWatcher.SyncProject | src/watcher/source-watcher.ts:108-176 | zombie reset, revival of stalled watchers, or nothing, for one project and no other |
| WatchTimers.SourceWatcher.SyncProjects | src/watcher/source-watcher.ts:78-177 | every registered project is synced once; a deleted project with a timer is forgotten |
| WatchTimers.SourceWatcher.BeginCheck | src/watcher/source-watcher.ts:190-230 | a check begins if and only if none is in flight; the time is noted either way |
| WatchTimers.SourceWatcher.TimerFires | src/watcher/source-watcher.ts:473-490 | the timer is spent; its check begins, or the next is scheduled at once |
| WatchTimers.SourceWatcher.EndCheck | src/watcher/source-watcher.ts:424-442 | the error count, the in-flight entry and the next timer after a check |
| WatchTimers.BackoffIsMonotone | src/watcher/source-watcher.ts:466-471 | from the first error on, more errors never wait less, and never more than a minute |
| WatchTimers.FirstErrorBacksOff | src/watcher/source-watcher.ts:459-471 | the first error lengthens the wait if and only if the interval is within the cap |
| WatchTimers.ErrorsAreInARow | src/watcher/source-watcher.ts:268-430 | in every run the error count is the number of failed checks in a row: one good check resets it |
| WatchTimers.NextCheckIsDue | src/watcher/source-watcher.ts:445-498 | a timer's next check comes the interval after a good one, and twice, four or eight times the interval after the first, second or a later failed one in a row, up to half a second later, but within a minute |
| WatchTimers.SyncsExactly | src/watcher/source-watcher.ts:108-176 | one round of the sync for one project: a check over 45 s old is forgotten, counted as an error and backed off from; a watcher without a timer starts after its stagger, one silent for four intervals (at least 30 s) at once; nothing else changes |
| WatchTimers.PatienceCoversDelays | src/watcher/source-watcher.ts:144-145 | every delay stays within the sync's patience if and only if the interval is at most 3687.5 ms or at least 15 s |
| WatchTimers.NoFalseStall | src/watcher/source-watcher.ts:106-176 | for such intervals, in every run with timers on time, no sync ever touches the timer of a watched project, wherever it comes in its round |
| WatchTimers.FirstSyncWatches | src/watcher/source-watcher.ts:144-173 | the first sync leaves a project watched, if its stagger is within the patience |
| WatchTimers.LongStaggerIsCutShort | src/watcher/source-watcher.ts:144-173 | for every longer stagger there is a run from the first sync in which a later sync moves the timer |
| WatchTimers.BackoffDefeated | src/watcher/source-watcher.ts:144-173 | for every other interval there is a run, from the first sync on, in which after three failed checks in a row a sync revives the watcher before its backoff has passed |
| Healer.ServiceHealer.Check | src/repair/service-healer.ts:73-166 | one check as a function of the kept state, with other projects untouched and a fresh state for a new successful commit (for sequences of checks: `RecoversExactly`) |
| Healer.RecoveryIsBounded | src/repair/service-healer.ts:117-166 | without a healthy outcome: at most `maxRestarts` recoveries, spaced by the doubling backoff capped at 15 minutes, giving up exactly at the last with exactly one alert |
| Healer.RestartNeedsFailedProbes | src/repair/service-healer.ts:89-115 | an active service is restarted only after `healthFailureThreshold` failed probes since the last reset |
| Healer.RecoversExactly | src/repair/service-healer.ts:73-166 | in every sequence of checks, one calls `recover`, at its own clock, if and only if the unit is down or its probes have failed up to the threshold, fewer attempts than allowed (at least one) have failed since it was last healthy or healed, and the wait after the last is over (30 s, doubled, at most 15 min); it restarts if and only if the unit is active; the failure that uses up the limit raises the alert |
| Healer.DownServiceIsRecovered | src/repair/service-healer.ts:117-166 | a service that stays down, checked each time after its wait, is recovered once at each check up to the limit and never after, with exactly one alert |
| TailBuffer.OutputTail.AppendTail | src/security/exec.ts:122-137 | terminates; the chunks hold the last `maxBuffer` bytes, and the returned size is their length |
| TailBuffer.KeptIsTheTailOfTheStream | src/security/exec.ts:122-137 | trimming after every chunk keeps the tail of the whole stream |
| TailBuffer.Capture | src/security/exec.ts:139-145 | after any sequence of chunks, the last min(total, maxBuffer) bytes |
| Tokenizer.CommandParser.ParseCommandString | src/runtime/unitup-adapter.ts:42-93 | equals the uncached result, and every cache entry stays so |
| Tokenizer.ParseInvertsPrint | src/runtime/unitup-adapter.ts:61-87 | printing any nonempty token list, each token bare or in double or single quotes as it allows, and parsing it gives it back |
| Tokenizer.UnclosedQuoteIsSkipped | src/runtime/unitup-adapter.ts:61-87 | a quote that is never closed is skipped |
| Tokenizer.SpaceAroundDoesNotMatter | src/runtime/unitup-adapter.ts:46-48 | white space around a command line changes nothing |
| Tokenizer.ShellLinesGoToShell | src/runtime/unitup-adapter.ts:54-59 | a line with a control operator or a redirection (`&`, `;`, a pipe, `<`, `>`) goes to `sh -c` as it is, but for white space around it |
| SyncExclude.IsSyncExcluded | src/deployment/workspace-sync.ts:25-40 | the loop over patterns with its early return, and the error of a malformed pattern |
| SyncExclude.ExclusionIsDownwardClosed | src/deployment/workspace-sync.ts:25-40 | what is below an excluded path is excluded |
| SyncExclude.CopyIsFlatFilter | src/deployment/workspace-sync.ts:72-78 | the pruning recursion copies exactly the files a filter on every file would keep, for every tree and pattern list |
| SyncExclude.WellFormedCopySucceeds | src/deployment/workspace-sync.ts:72-78 | with well-formed patterns the copy never throws |
| SyncExclude.PlainGlobIsWildcard | src/deployment/workspace-sync.ts:16-19 | without `?` every pattern compiles, and matches a segment if and only if wildcards do: `*` any stretch without a separator, anything else itself |
| SyncExclude.PlainPatternIsWildcard | src/deployment/workspace-sync.ts:29-37 | such a pattern excludes a path if and only if it matches one of its segments so |
| SyncExclude.RootedPatternIsPrefix | src/deployment/workspace-sync.ts:32-33 | a pattern with a separator excludes a path if and only if its segments are the first ones of the path |
| SyncExclude.SurroundingsDoNotMatter | src/deployment/workspace-sync.ts:12-14 | white space around a pattern and separators at its ends change nothing |
| SyncExclude.DefaultsProtect | src/deployment/workspace-sync.ts:5-10 | with any extra patterns, the defaults exclude a path if and only if one of its segments is `.git`, `.env` or begins with `.env.` |
| SyncExclude.BadGlobs | src/deployment/workspace-sync.ts:16-19 | a pattern is a syntax error if and only if it begins with `?`, or has two behind a `*`, or three behind any other character |
| SyncExclude.QuestionMarkIsAQuantifier | src/deployment/workspace-sync.ts:16-19 | anywhere in a pattern, one or two `?` make the character before them optional: it matches what the pattern with it or the pattern without it matches |
| SyncExclude.QuestionAfterStar | src/deployment/workspace-sync.ts:16-19 | behind a `*` a single `?` changes nothing |
| SyncExclude.ResolveSyncExcludes | src/deployment/workspace-sync.ts:42-51 | the defaults, then each relative nonempty extra pattern once, normalized, in order |
| IpMatcher.Ipv4ToInt | src/security/ip-matcher.ts:10-20 | with 32-bit signed shifts, the base-256 value of four octets, or nothing |
| IpMatcher.MatchCidr | src/security/ip-matcher.ts:22-45 | accepts if and only if the addresses parse and agree after division by 2^(32-prefix) |
| IpMatcher.MaskedEqualityIsSameNetwork | src/security/ip-matcher.ts:43-44 | equality under the mask is equality of network numbers (section 3.1 of RFC 4632) |
| IpMatcher.WiderRuleAcceptsToo | src/security/ip-matcher.ts:22-45 | an address that matches `subnet/prefix` matches the same subnet text with any prefix text that denotes a number from 0 to that prefix |
| IpMatcher.ShorterPrefixMatchesToo | src/security/ip-matcher.ts:43-44 | equal network numbers at a prefix are equal at every shorter one |
| IpMatcher.ZeroPrefixMaskKeepsEverything | src/security/ip-matcher.ts:41-43 | without its own branch prefix 0 would get the mask of prefix 32 |

## Left out

- SQLite, prepared statements and vacuum: tables are maps that never fail; the steps table and its output are not modelled.
- Workmatic and Unitup internals: any job may be delivered any number of times, and service calls succeed or fail freely; tolerated systemd errors are outcomes like any other.
- Which generation Unitup reverts to: taken to be the one that the active generation replaced; canary weights, promotion and the processes behind generations.
- Git, commands, file system, readiness probes and notifications: outcomes; a notification does not throw, and a failed call's partial effect is one unknown condition.
- Command retries: a command has one outcome, success or failure, however often it was tried.
- A dirty workspace that is stashed or reset during validation: part of one outcome.
- Config changes that switch strategy, steps or action during a run, and alias or non-canonical project names.
- Other processes: CLI deploys, manual rollbacks, startup and shutdown cleanup; a CLI cancel is a write of `cancelled` on an unfinished row.
- Dry-run daemons in the watcher and control plane properties (single runs are modelled dry or not), manual triggers, abbreviated SHAs in `Retries`.
- Promise continuations that run back to back, as from the end of `runDeployment` to its chain entry, are one action; the self-repair timer waits for continuations that are due, and other events are allowed between them although some cannot come there.
- The operator's command is another process: its write of `cancelled` is placed at the daemon's awaits, not inside a synchronous stretch.
- The completion time a row keeps from `failed` while it is rolling back, and error texts.
- An isolated workspace deleted before a rollback, and a release rollback whose removal of the failed directory is partial.
- Health checks that overlap a deployment started during the same cycle; `isIpAllowed`'s list loop; header and proxy handling of client addresses.
- Watchers with a check reset as a zombie: the old check's end can drop a newer check's entry and leave two timers, so `QueueModesHold` and `NoFalseStall` assume no reset.
- ControlPlaneTheorems.QueueModesHold: assumes one check of a project in flight at a time, which a zombie reset can break.
- WatchTimers.NoFalseStall: assumes timers that fire when due and no zombie reset; that the project is watched is `FirstSyncWatches`.
- PipelineSuccess.GrantedRunSucceeds: assumes a real run that finds the lock free; a held lock is `LockPolling`, and in one daemon the lock is always obtained at once (`LockIsTakenAtOnce`).
- Retries.RetriesAreCapped: assumes no pruning, no webhook for the project, and one commit seen by all polls.
- PipelineRuns.RolledBackIsCompensated: says nothing of release runs, of the generation in zero-downtime mode and of the service with action `none`, which `PipelineTraces` covers.
- PipelineRuns.CancellationRestores: the failed restoration of a cancelled run is only logged by the source, so nothing is stated of it.
- Webhook HTTP and signatures, secret masking, CLI tables, doctor, upgrade, service installation, schema normalization, duration parsing, disk and port checks: plumbing, user interface or easy members.
