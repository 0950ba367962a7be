/** What every run of the pipeline keeps, under every pattern of failures, cancellations and supersedes. */
module PipelineSafety {
  import opened Records
  import opened Rollback
  import opened LockTable
  import opened Pipeline
  import Releases

  /** What is fixed when the run starts. */
  datatype Origin = Origin(job: Job, config: Config, host: Host, lastSuccessful: Option<Sha>)

  ghost predicate Started(o: Origin, c: Cell)
  {
    && c == Cell(Entering, false, o.job.targetSha, None, None, NO_PROGRESS, c.status, None, false, c.lock,
                 o.lastSuccessful, o.host)
    && (c.status == Some(Queued) || c.status == Some(Cancelled))
    && !HoldsLock(c, o.job.id)
    && Releases.Safe(o.host.store) && o.job.id !in o.host.store.releases
  }

  /** From the first segment of `runDeployment` to its `catch` block. */
  ghost predicate BeforeCatch(stage: Stage)
  {
    stage.AcquiringLock? || stage.Preflight? || stage.At? || stage.In? || stage.Throwing?
  }

  ghost predicate OneOf(status: Option<Status>, allowed: set<Status>)
  {
    status.None? || status.value in allowed
  }

  /** The row, the controller entry and the abort signal agree with the stage. */
  ghost predicate Bookkept(c: Cell)
  {
    && (BeforeCatch(c.stage) ==>
          && (c.aborted <==> c.controller.None?)
          && OneOf(c.status, {Status.Running, Cancelled})
          && (c.aborted ==> c.status != Some(Running)))
    && (c.stage.Entering? ==> OneOf(c.status, {Queued, Cancelled}) && c.controller.None? && !c.aborted)
    && (c.stage.Undoing? ==> c.controller.None?)
    && (c.stage.Returned? ==> c.controller != Some(true))
    && (c.stage == Undoing(RestoreCancelled) ==> OneOf(c.status, {Cancelled}))
    && (c.stage == Undoing(RollBackFailed) ==> OneOf(c.status, {RollingBack, Cancelled}))
    && (c.stage == Notifying(false) ==> OneOf(c.status, {Success}))
    && (c.stage == Notifying(true) ==> OneOf(c.status, {Failed, RolledBack, RollbackFailed}))
    && (c.stage.Leaving? || c.stage.Returned? ==>
          OneOf(c.status, {Success, Failed, Cancelled, RolledBack, RollbackFailed}))
  }

  /** A running deployment that may have changed the live service is registered as critical. */
  ghost predicate Guarded(c: Cell)
  {
    c.status == Some(Running) && IsServiceAffected(c.progress) ==> c.controller == Some(true)
  }

  ghost predicate LockOwned(o: Origin, c: Cell)
  {
    && (HoldsLock(c, o.job.id) ==> c.lockAcquired)
    && (c.stage.Entering? || c.stage.AcquiringLock? ==> !c.lockAcquired)
    && (c.stage.Preflight? || c.stage.At? || c.stage.In? ==> c.lockAcquired)
    && (c.progress != NO_PROGRESS ==> c.lockAcquired)
  }

  /** Steps after the working tree has been reset. */
  ghost predicate AfterPrepare(stage: Stage)
  {
    (stage.At? || stage.In?) && !stage.step.Validate? && !stage.step.Fetch? && !stage.step.Resolve? && !stage.step.Prepare?
  }

  /** The commit a rollback goes back to: the one the job names, or else the last success when the run started. */
  function PreviousSha(o: Origin): Option<Sha>
  {
    if o.job.previousSha.Some? then o.job.previousSha else o.lastSuccessful
  }

  /** `lastSuccessfulSha` belongs to the last completed deployment, and names the commit that was checked out. */
  ghost predicate ShasRight(o: Origin, c: Cell)
  {
    && (c.prevSha.Some? ==> c.prevSha == PreviousSha(o))
    && (AfterPrepare(c.stage) && !o.job.dryRun ==> c.resetTo == Some(c.targetSha))
    && (c.stage != Notifying(false) && !c.stage.Leaving? && !c.stage.Returned? ==> c.lastSuccessful == o.lastSuccessful)
    && (c.stage == Notifying(false) || c.status == Some(Success) ==>
          if o.job.dryRun then c.lastSuccessful == o.lastSuccessful
          else c.lastSuccessful == Some(c.targetSha) == c.resetTo)
    && (c.stage.Leaving? || c.stage.Returned? ==>
          c.status.Some? && c.status != Some(Success) ==> c.lastSuccessful == o.lastSuccessful)
    && (c.lastSuccessful != o.lastSuccessful ==> !o.job.dryRun && c.lastSuccessful == Some(c.targetSha) == c.resetTo)
  }

  /** A dry run changes nothing on the host. */
  ghost predicate DryRunClean(o: Origin, c: Cell)
  {
    o.job.dryRun ==> c.progress == NO_PROGRESS && c.host == o.host
  }

  /** Steps at which a release deployment's own directory exists. */
  ghost predicate OwnDirectory(stage: Stage)
  {
    stage.In? || (stage.At? && !stage.step.Validate? && !stage.step.Complete?)
  }

  ghost predicate AfterActivate(stage: Stage)
  {
    (stage.At? || stage.In?) && (stage.step.ServiceAction? || stage.step.ReadyCheck? || stage.step.CleanupReleases?)
  }

  /** `current` never dangles, and the release being deployed is there until it has been activated and kept. */
  ghost predicate StoreSafe(o: Origin, c: Cell)
  {
    && Releases.Safe(c.host.store)
    && (o.config.strategy.ReleaseDirs? && !o.job.dryRun && OwnDirectory(c.stage) ==> o.job.id in c.host.store.releases)
    && (BeforeCatch(c.stage) && c.progress.releaseActivated ==> c.host.store.current == Some(o.job.id))
    && (AfterActivate(c.stage) && o.config.strategy.ReleaseDirs? && !o.job.dryRun ==> c.progress.releaseActivated)
  }

  /** A flag of the progress record is set before the call it announces. */
  ghost predicate FlaggedFirst(o: Origin, c: Cell)
  {
    c.stage.In? && !o.job.dryRun ==>
      && (c.stage.step.StopBeforeBuild? || c.stage.step.InstallStop? ==> c.progress.serviceStopped)
      && (c.stage.step.ServiceAction? ==> c.progress.serviceActionStarted)
      && (c.stage.step.Prepare? ==> c.progress.workspaceMutated)
  }

  /** Until the `catch` block, what the progress record does not mention has not happened. */
  ghost predicate ProgressHonest(o: Origin, c: Cell)
  {
    BeforeCatch(c.stage) || c.stage.Entering? ==>
      && (!IsServiceAffected(c.progress) ==> c.host.service == o.host.service)
      && (!c.progress.serviceActionStarted ==> c.host.generations == o.host.generations)
      && (!c.progress.workspaceMutated ==>
            c.progress == NO_PROGRESS && c.host == o.host.(store := c.host.store))
      && (IsZeroDowntimeEnabled(o.config) ==> !c.progress.serviceStopped)
      && (!AfterPrepare(c.stage) && !c.stage.Throwing? ==>
            && (!(c.stage.In? && c.stage.step.Prepare?) ==> !c.progress.workspaceMutated)
            && !IsServiceAffected(c.progress))
      && (AfterPrepare(c.stage) && !o.job.dryRun ==> c.progress.workspaceMutated)
  }

  /** A stage is reached only when the configuration asks for it. */
  ghost predicate WellStaged(o: Origin, c: Cell)
  {
    match c.stage
    case At(step) =>
      && !step.InstallStop? && !step.SyncBuilt?
      && (step.StopBeforeBuild? ==> StopsBeforeBuild(o.config, o.job.dryRun))
      && (step.Activate? || step.CleanupReleases? ==> o.config.strategy.ReleaseDirs?)
    case In(step) =>
      && !step.Activate? && !step.CleanupReleases? && !step.Complete?
      && (step.StopBeforeBuild? ==> StopsBeforeBuild(o.config, o.job.dryRun))
      && (step.InstallStop? ==> StopsForInstall(o.config, o.job.dryRun, step.index))
      && (step.SyncBuilt? ==> o.config.strategy.Isolated? && !o.job.dryRun)
    case _ => true
  }

  /** Calls of the run so far. */
  ghost function OwnCalls(o: Origin, c: Cell): seq<Call>
    requires o.host.log <= c.host.log
  {
    c.host.log[|o.host.log|..]
  }

  /** A generation is reverted only after the service action began, in zero-downtime mode. */
  ghost predicate RevertsJustified(o: Origin, c: Cell)
  {
    && o.host.log <= c.host.log
    && (RevertGeneration in OwnCalls(o, c) ==>
          && c.progress.serviceActionStarted && IsZeroDowntimeEnabled(o.config)
          && !BeforeCatch(c.stage) && !c.stage.Undoing?)
  }

  /** A run that ends rolled back, where rolling back means restoring a commit. */
  ghost predicate Compensated(o: Origin, c: Cell)
  {
    c.status == Some(RolledBack) && !o.config.strategy.ReleaseDirs? && !IsZeroDowntimeEnabled(o.config)
    && !o.config.action.NoAction? ==>
      && c.prevSha.Some? && c.prevSha.value != c.targetSha && c.progress.workspaceMutated
      && c.host.live == RebuiltTree(o.config, c.prevSha.value)
      && c.host.service == (if IsServiceAffected(c.progress) then Serving(c.host.live) else o.host.service)
      && c.host.generations == o.host.generations
  }

  /** A run that failed before it changed anything leaves no trace but its own release directory. */
  ghost predicate NoTrace(o: Origin, c: Cell)
  {
    !c.progress.workspaceMutated ==> c.progress == NO_PROGRESS && c.host == o.host.(store := c.host.store)
  }

  /** What the rollback of a failed deployment may rely on while it is pending. */
  ghost predicate UndoReady(o: Origin, c: Cell)
  {
    && (c.stage == Undoing(RollBackFailed) ==>
          && CanRollBack(o.config, c)
          && c.progress.workspaceMutated
          && (!IsServiceAffected(c.progress) ==> c.host.service == o.host.service)
          && (!c.progress.serviceActionStarted ==> c.host.generations == o.host.generations)
          && (!IsZeroDowntimeEnabled(o.config) ==> c.host.generations == o.host.generations))
    && (c.stage == Undoing(RestoreCancelled) ==> IsServiceAffected(c.progress) && c.progress.workspaceMutated)
  }

  ghost predicate GenerationKept(o: Origin, c: Cell)
  {
    BeforeCatch(c.stage) || c.stage.Entering? || c.stage.Undoing? ==>
      !IsZeroDowntimeEnabled(o.config) ==> c.host.generations == o.host.generations
  }

  ghost predicate Inv(o: Origin, c: Cell)
  {
    && o.job.id !in o.host.store.releases
    && Control(o, c) && ShasRight(o, c) && StoreSafe(o, c) && Effects(o, c)
    && RevertsJustified(o, c) && Compensated(o, c)
  }

  ghost predicate Control(o: Origin, c: Cell)
  {
    Bookkept(c) && Guarded(c) && LockOwned(o, c) && WellStaged(o, c)
  }

  ghost predicate Effects(o: Origin, c: Cell)
  {
    && DryRunClean(o, c) && FlaggedFirst(o, c) && ProgressHonest(o, c) && GenerationKept(o, c)
    && UndoReady(o, c) && NoTrace(o, c)
  }

  lemma StartedInv(o: Origin, c: Cell)
    requires Started(o, c)
    ensures Inv(o, c)
  {
  }

  // Segments that end an await inside a step

  /** What such a segment can do: make at most one call, and move on. */
  ghost predicate Finishes(o: Origin, c: Cell, c': Cell)
    requires c.stage.In?
  {
    && c' == c.(stage := c'.stage, targetSha := c'.targetSha, resetTo := c'.resetTo, host := c'.host)
    && (c'.stage.Throwing? || c'.stage.At? || c'.stage.In?) && WellStaged(o, c') && FlaggedFirst(o, c')
    && (c'.targetSha == c.targetSha || c.stage.step.Resolve?)
    && c'.resetTo == (if c.stage.step.Prepare? && !o.job.dryRun then Some(c.targetSha) else c.resetTo)
    && (AfterPrepare(c'.stage) ==> AfterPrepare(c.stage) || c.stage.step.Prepare?)
    && (!AfterPrepare(c'.stage) && !c'.stage.Throwing? ==> !AfterPrepare(c.stage) && !c.stage.step.Prepare?)
    && (c'.stage.In? ==> !c'.stage.step.Prepare?)
    && (AfterActivate(c'.stage) && o.config.strategy.ReleaseDirs? ==> AfterActivate(c.stage))
    && (c'.stage.At? && c'.stage.step.Validate? ==> false)
    && (c'.host == c.host
        || (!o.job.dryRun && exists call: Call, r: Result :: CallOf(o, c.stage.step, call) && c'.host == Attempt(c.host, call, r)))
  }

  /** The calls a step can make. */
  ghost predicate CallOf(o: Origin, step: Step, call: Call)
  {
    match call
    case ResetHard(dir, _) => step.Prepare? && dir == WorkingDir(o.config)
    case Exec(dir, _) => step.Command? && dir == WorkingDir(o.config)
    case SyncWorkToLive => step.SyncBuilt?
    case StopService => step.StopBeforeBuild? || step.InstallStop?
    case ServiceCall(_) => step.ServiceAction? && !o.config.action.NoAction?
    case ServiceFromCurrent(_) => step.ServiceAction? && !o.config.action.NoAction?
    case DeployGeneration => step.ServiceAction? && IsZeroDowntimeEnabled(o.config)
    case WaitReady => step.ReadyCheck?
    case CleanUntracked(_) => false
    case RevertGeneration => false
  }

  lemma FinishEarlyStep(o: Origin, c: Cell, b: Beat)
    requires c.stage.In? && WellStaged(o, c) && Releases.Listing(c.host.store, b.disk.listing)
    requires c.stage.step.Validate? || c.stage.step.Fetch? || c.stage.step.Resolve?
    ensures Finishes(o, c, Advance(o.job, o.config, c, b))
  {
  }

  lemma FinishPrepare(o: Origin, c: Cell, b: Beat)
    requires c.stage.In? && WellStaged(o, c) && Releases.Listing(c.host.store, b.disk.listing)
    requires c.stage.step.Prepare?
    ensures Finishes(o, c, Advance(o.job, o.config, c, b))
  {
  }

  lemma FinishRefresh(o: Origin, c: Cell, b: Beat)
    requires c.stage.In? && WellStaged(o, c) && Releases.Listing(c.host.store, b.disk.listing)
    requires c.stage.step.RefreshConfig?
    ensures Finishes(o, c, Advance(o.job, o.config, c, b))
  {
  }

  lemma FinishEarlyStop(o: Origin, c: Cell, b: Beat)
    requires c.stage.In? && WellStaged(o, c) && Releases.Listing(c.host.store, b.disk.listing)
    requires c.stage.step.StopBeforeBuild?
    ensures Finishes(o, c, Advance(o.job, o.config, c, b))
  {
  }

  lemma FinishInstallStop(o: Origin, c: Cell, b: Beat)
    requires c.stage.In? && WellStaged(o, c) && Releases.Listing(c.host.store, b.disk.listing)
    requires c.stage.step.InstallStop?
    ensures Finishes(o, c, Advance(o.job, o.config, c, b))
  {
  }

  lemma FinishCommandFailed(o: Origin, c: Cell, b: Beat)
    requires c.stage.In? && WellStaged(o, c) && Releases.Listing(c.host.store, b.disk.listing)
    requires c.stage.step.Command? && Advance(o.job, o.config, c, b).stage.Throwing?
    ensures Finishes(o, c, Advance(o.job, o.config, c, b))
  {
  }

  lemma FinishCommandDone(o: Origin, c: Cell, b: Beat)
    requires c.stage.In? && WellStaged(o, c) && Releases.Listing(c.host.store, b.disk.listing)
    requires c.stage.step.Command? && !Advance(o.job, o.config, c, b).stage.Throwing?
    ensures Finishes(o, c, Advance(o.job, o.config, c, b))
  {
  }

  lemma FinishSync(o: Origin, c: Cell, b: Beat)
    requires c.stage.In? && WellStaged(o, c) && Releases.Listing(c.host.store, b.disk.listing)
    requires c.stage.step.SyncBuilt?
    ensures Finishes(o, c, Advance(o.job, o.config, c, b))
  {
  }

  lemma FinishServiceStep(o: Origin, c: Cell, b: Beat)
    requires c.stage.In? && WellStaged(o, c) && Releases.Listing(c.host.store, b.disk.listing)
    requires c.stage.step.ServiceAction?
    ensures Finishes(o, c, Advance(o.job, o.config, c, b))
  {
    var call := ServiceCalls(o.config);
    if call.Some? && !o.job.dryRun {
      assert CallOf(o, c.stage.step, call.value);
      assert Advance(o.job, o.config, c, b).host == Attempt(c.host, call.value, Result(b.ok, b.took));
    }
  }

  lemma FinishReadyStep(o: Origin, c: Cell, b: Beat)
    requires c.stage.In? && WellStaged(o, c) && Releases.Listing(c.host.store, b.disk.listing)
    requires c.stage.step.ReadyCheck?
    ensures Finishes(o, c, Advance(o.job, o.config, c, b))
  {
  }

  lemma FinishesControl(o: Origin, c: Cell, c': Cell)
    requires c.stage.In? && Finishes(o, c, c') && Control(o, c)
    ensures Control(o, c')
  {
  }

  lemma FinishesShas(o: Origin, c: Cell, c': Cell)
    requires c.stage.In? && Finishes(o, c, c') && Control(o, c) && ShasRight(o, c)
    ensures ShasRight(o, c')
  {
  }

  lemma FinishesStore(o: Origin, c: Cell, c': Cell)
    requires c.stage.In? && Finishes(o, c, c') && StoreSafe(o, c)
    ensures StoreSafe(o, c')
  {
  }

  lemma FinishesEffects(o: Origin, c: Cell, c': Cell)
    requires c.stage.In? && Finishes(o, c, c') && Control(o, c) && Effects(o, c)
    ensures Effects(o, c')
  {
  }

  // Segments that begin a step

  /** A segment that leaves the service alone: at most the release store and the workspace flag change. */
  ghost predicate Quiet(o: Origin, c: Cell, c': Cell)
    requires c.stage.At?
  {
    && c' == c.(stage := c'.stage, progress := c'.progress, host := c.host.(store := c'.host.store))
    && (c'.stage.Throwing?
        || (c'.stage == In(c.stage.step) && !c.stage.step.StopBeforeBuild?)
        || (c.stage.step.CleanupReleases? && c'.stage == At(Complete))
        || (c.stage.step.Activate? && o.job.dryRun && c'.stage == At(ServiceAction)))
    && WellStaged(o, c')
    && c'.progress == c.progress.(workspaceMutated := c'.progress.workspaceMutated)
    && c'.progress.workspaceMutated == (c.progress.workspaceMutated || (c'.stage == In(Prepare) && !o.job.dryRun))
    && (c'.stage.In? && c'.stage.step.ServiceAction? ==> o.job.dryRun)
    && (o.job.dryRun || !(c.stage.step.Validate? || c.stage.step.CleanupReleases?) ==> c'.host.store == c.host.store)
    && (Releases.Safe(c.host.store) ==> Releases.Safe(c'.host.store))
    && c'.host.store.current == c.host.store.current
    && (c'.stage == In(Validate) && o.config.strategy.ReleaseDirs? && !o.job.dryRun ==> o.job.id in c'.host.store.releases)
  }

  /** A segment that announces a change of the live service, and marks the run critical for it. */
  ghost predicate Touches(o: Origin, c: Cell, c': Cell)
    requires c.stage.At?
  {
    && !o.job.dryRun
    && c' == MarkCritical(c).(stage := c'.stage, progress := c'.progress, host := c.host.(store := c'.host.store))
    && match c.stage.step
       case StopBeforeBuild =>
         && c'.stage == In(StopBeforeBuild) && c'.progress == c.progress.(serviceStopped := true)
         && c'.host.store == c.host.store
       case Command(index, _) =>
         && c'.stage == In(InstallStop(index)) && c'.progress == c.progress.(serviceStopped := true)
         && StopsForInstall(o.config, o.job.dryRun, index) && c'.host.store == c.host.store
       case Activate =>
         || (c'.stage == Throwing && c'.progress == c.progress && c'.host.store == c.host.store)
         || (&& c'.stage == At(ServiceAction) && c'.progress == c.progress.(releaseActivated := true)
             && c'.host.store == Releases.Activated(c.host.store, o.job.id))
       case ServiceAction =>
         && c'.stage == In(ServiceAction) && c'.progress == c.progress.(serviceActionStarted := true)
         && c'.host.store == c.host.store
       case _ => false
  }

  ghost predicate Completes(o: Origin, c: Cell, c': Cell)
    requires c.stage.At?
  {
    && c.stage.step.Complete? && !c.aborted && c.status != Some(Cancelled)
    && c' == c.(lastSuccessful := if o.job.dryRun then c.lastSuccessful else Some(c.targetSha),
                status := Write(c.status, Success), stage := Notifying(false))
  }

  ghost predicate Begins(o: Origin, c: Cell, c': Cell)
    requires c.stage.At?
  {
    Quiet(o, c, c') || Touches(o, c, c') || Completes(o, c, c')
  }

  lemma BeginSourceStep(o: Origin, c: Cell, b: Beat)
    requires c.stage.At? && WellStaged(o, c) && Releases.Listing(c.host.store, b.disk.listing)
    requires c.stage.step.Fetch? || c.stage.step.Resolve?
    ensures Quiet(o, c, Advance(o.job, o.config, c, b))
  {
  }

  lemma BeginValidate(o: Origin, c: Cell, b: Beat)
    requires c.stage.At? && WellStaged(o, c) && Releases.Listing(c.host.store, b.disk.listing)
    requires c.stage.step.Validate?
    ensures Quiet(o, c, Advance(o.job, o.config, c, b))
  {
  }

  lemma BeginRefresh(o: Origin, c: Cell, b: Beat)
    requires c.stage.At? && WellStaged(o, c) && Releases.Listing(c.host.store, b.disk.listing)
    requires c.stage.step.RefreshConfig?
    ensures Quiet(o, c, Advance(o.job, o.config, c, b))
  {
  }

  lemma BeginReadyCheck(o: Origin, c: Cell, b: Beat)
    requires c.stage.At? && WellStaged(o, c) && Releases.Listing(c.host.store, b.disk.listing)
    requires c.stage.step.ReadyCheck?
    ensures Quiet(o, c, Advance(o.job, o.config, c, b))
  {
  }

  lemma BeginPrepare(o: Origin, c: Cell, b: Beat)
    requires c.stage.At? && WellStaged(o, c) && Releases.Listing(c.host.store, b.disk.listing)
    requires c.stage.step.Prepare?
    ensures Quiet(o, c, Advance(o.job, o.config, c, b))
  {
  }

  lemma BeginEarlyStop(o: Origin, c: Cell, b: Beat)
    requires c.stage.At? && WellStaged(o, c) && Releases.Listing(c.host.store, b.disk.listing)
    requires c.stage.step.StopBeforeBuild?
    ensures Touches(o, c, Advance(o.job, o.config, c, b))
  {
  }

  lemma BeginCommand(o: Origin, c: Cell, b: Beat)
    requires c.stage.At? && WellStaged(o, c) && Releases.Listing(c.host.store, b.disk.listing)
    requires c.stage.step.Command?
    ensures var c' := Advance(o.job, o.config, c, b); Quiet(o, c, c') || Touches(o, c, c')
  {
    if c.status != Some(Cancelled) && !c.aborted && StopsForInstall(o.config, o.job.dryRun, c.stage.step.index) {
      BeginInstall(o, c, b);
    } else {
      BeginQuietCommand(o, c, b);
    }
  }

  lemma BeginInstall(o: Origin, c: Cell, b: Beat)
    requires c.stage.At? && c.stage.step.Command? && Releases.Listing(c.host.store, b.disk.listing)
    requires c.status != Some(Cancelled) && !c.aborted && StopsForInstall(o.config, o.job.dryRun, c.stage.step.index)
    ensures Touches(o, c, Advance(o.job, o.config, c, b))
  {
  }

  lemma BeginQuietCommand(o: Origin, c: Cell, b: Beat)
    requires c.stage.At? && c.stage.step.Command? && Releases.Listing(c.host.store, b.disk.listing)
    requires c.status == Some(Cancelled) || c.aborted || !StopsForInstall(o.config, o.job.dryRun, c.stage.step.index)
    ensures Quiet(o, c, Advance(o.job, o.config, c, b))
  {
  }

  lemma BeginActivate(o: Origin, c: Cell, b: Beat)
    requires c.stage.At? && WellStaged(o, c) && Releases.Listing(c.host.store, b.disk.listing)
    requires c.stage.step.Activate?
    ensures var c' := Advance(o.job, o.config, c, b); Quiet(o, c, c') || Touches(o, c, c')
  {
  }

  lemma BeginServiceAction(o: Origin, c: Cell, b: Beat)
    requires c.stage.At? && WellStaged(o, c) && Releases.Listing(c.host.store, b.disk.listing)
    requires c.stage.step.ServiceAction?
    ensures var c' := Advance(o.job, o.config, c, b); Quiet(o, c, c') || Touches(o, c, c')
  {
  }

  lemma BeginLastStep(o: Origin, c: Cell, b: Beat)
    requires c.stage.At? && WellStaged(o, c) && Releases.Listing(c.host.store, b.disk.listing)
    requires c.stage.step.Complete?
    ensures Begins(o, c, Advance(o.job, o.config, c, b))
  {
  }

  lemma BeginCleanup(o: Origin, c: Cell, b: Beat)
    requires c.stage.At? && WellStaged(o, c) && Releases.Listing(c.host.store, b.disk.listing)
    requires c.stage.step.CleanupReleases?
    ensures Quiet(o, c, Advance(o.job, o.config, c, b))
  {
    CleanupMoves(o, c, b);
    var pruned := PrunedBy(o, c, b);
    PrunedStaysSafe(o, c, b);
    CleanupIsQuiet(o, c, Advance(o.job, o.config, c, b), pruned);
  }

  function PrunedBy(o: Origin, c: Cell, b: Beat): Releases.Store
    requires Releases.Listing(c.host.store, b.disk.listing)
  {
    Releases.Pruned(c.host.store, b.disk.listing, if o.config.releasesToKeep > 1 then o.config.releasesToKeep else 1, true,
                    b.removable)
  }

  ghost predicate Cleans(o: Origin, c: Cell, c': Cell, pruned: Releases.Store)
  {
    || c' == Throw(c) || c' == GoTo(c, Complete)
    || (!o.job.dryRun && c' == GoTo(c.(host := c.host.(store := pruned)), Complete))
  }

  lemma CleanupMoves(o: Origin, c: Cell, b: Beat)
    requires c.stage == At(CleanupReleases) && Releases.Listing(c.host.store, b.disk.listing)
    ensures Cleans(o, c, Advance(o.job, o.config, c, b), PrunedBy(o, c, b))
  {
  }

  lemma PrunedStaysSafe(o: Origin, c: Cell, b: Beat)
    requires Releases.Listing(c.host.store, b.disk.listing)
    ensures PrunedBy(o, c, b).current == c.host.store.current
    ensures Releases.Safe(c.host.store) ==> Releases.Safe(PrunedBy(o, c, b))
  {
    if Releases.Safe(c.host.store) {
      Releases.PruneSafety(c.host.store, b.disk.listing,
        if o.config.releasesToKeep > 1 then o.config.releasesToKeep else 1, true, b.removable);
    }
  }

  lemma CleanupIsQuiet(o: Origin, c: Cell, c': Cell, pruned: Releases.Store)
    requires c.stage == At(CleanupReleases) && WellStaged(o, c) && Cleans(o, c, c', pruned)
    requires pruned.current == c.host.store.current && (Releases.Safe(c.host.store) ==> Releases.Safe(pruned))
    ensures Quiet(o, c, c')
  {
  }

  lemma BeginsControl(o: Origin, c: Cell, c': Cell)
    requires c.stage.At? && Begins(o, c, c') && Control(o, c)
    ensures Control(o, c')
  {
  }

  lemma BeginsShas(o: Origin, c: Cell, c': Cell)
    requires c.stage.At? && Begins(o, c, c') && Control(o, c) && ShasRight(o, c)
    ensures ShasRight(o, c')
  {
  }

  lemma BeginsStore(o: Origin, c: Cell, c': Cell)
    requires c.stage.At? && Begins(o, c, c') && Control(o, c) && StoreSafe(o, c)
    ensures StoreSafe(o, c')
  {
  }

  lemma BeginsEffects(o: Origin, c: Cell, c': Cell)
    requires c.stage.At? && Begins(o, c, c') && Control(o, c) && Effects(o, c)
    ensures Effects(o, c')
  {
  }

  lemma FinishFinishes(o: Origin, c: Cell, b: Beat)
    requires c.stage.In? && WellStaged(o, c) && Releases.Listing(c.host.store, b.disk.listing)
    ensures Finishes(o, c, Advance(o.job, o.config, c, b))
  {
    var c' := Advance(o.job, o.config, c, b);
    match c.stage.step {
      case Validate => FinishEarlyStep(o, c, b);
      case Fetch => FinishEarlyStep(o, c, b);
      case Resolve => FinishEarlyStep(o, c, b);
      case Prepare => FinishPrepare(o, c, b);
      case RefreshConfig => FinishRefresh(o, c, b);
      case StopBeforeBuild => FinishEarlyStop(o, c, b);
      case InstallStop(_) => FinishInstallStop(o, c, b);
      case Command(_, _) => if c'.stage.Throwing? { FinishCommandFailed(o, c, b); } else { FinishCommandDone(o, c, b); }
      case SyncBuilt(_) => FinishSync(o, c, b);
      case ServiceAction => FinishServiceStep(o, c, b);
      case ReadyCheck => FinishReadyStep(o, c, b);
      case _ =>
    }
  }

  lemma FinishInv(o: Origin, c: Cell, b: Beat)
    requires Inv(o, c) && c.stage.In? && Releases.Listing(c.host.store, b.disk.listing)
    ensures Inv(o, Advance(o.job, o.config, c, b))
  {
    FinishFinishes(o, c, b);
    FinishesInv(o, c, Advance(o.job, o.config, c, b));
  }

  lemma FinishesInv(o: Origin, c: Cell, c': Cell)
    requires Inv(o, c) && c.stage.In? && Finishes(o, c, c')
    ensures Inv(o, c')
  {
    FinishesControl(o, c, c');
    FinishesShas(o, c, c');
    FinishesStore(o, c, c');
    FinishesEffects(o, c, c');
    FinishesLog(o, c, c');
  }

  lemma FinishesLog(o: Origin, c: Cell, c': Cell)
    requires c.stage.In? && Finishes(o, c, c') && RevertsJustified(o, c)
    ensures RevertsJustified(o, c')
  {
    if c'.host != c.host {
      var call: Call, r: Result :| CallOf(o, c.stage.step, call) && c'.host == Attempt(c.host, call, r);
      CallJustified(o, c, c', call, r);
    }
  }

  lemma CallJustified(o: Origin, c: Cell, c': Cell, call: Call, r: Result)
    requires c.stage.In? && c'.host == Attempt(c.host, call, r) && !call.RevertGeneration? && RevertsJustified(o, c)
    requires c'.progress == c.progress
    ensures RevertsJustified(o, c')
  {
    assert c'.host.log == c.host.log + [call];
    assert OwnCalls(o, c') == OwnCalls(o, c) + [call];
  }

  lemma BeginBegins(o: Origin, c: Cell, b: Beat)
    requires c.stage.At? && WellStaged(o, c) && Releases.Listing(c.host.store, b.disk.listing)
    ensures Begins(o, c, Advance(o.job, o.config, c, b))
  {
    match c.stage.step {
      case Validate => BeginValidate(o, c, b);
      case Fetch => BeginSourceStep(o, c, b);
      case Resolve => BeginSourceStep(o, c, b);
      case Prepare => BeginPrepare(o, c, b);
      case RefreshConfig => BeginRefresh(o, c, b);
      case ReadyCheck => BeginReadyCheck(o, c, b);
      case StopBeforeBuild => BeginEarlyStop(o, c, b);
      case Command(_, _) => BeginCommand(o, c, b);
      case Activate => BeginActivate(o, c, b);
      case ServiceAction => BeginServiceAction(o, c, b);
      case CleanupReleases => BeginCleanup(o, c, b);
      case Complete => BeginLastStep(o, c, b);
      case _ =>
    }
  }

  lemma BeginInv(o: Origin, c: Cell, b: Beat)
    requires Inv(o, c) && c.stage.At? && Releases.Listing(c.host.store, b.disk.listing)
    ensures Inv(o, Advance(o.job, o.config, c, b))
  {
    BeginBegins(o, c, b);
    BeginsInv(o, c, Advance(o.job, o.config, c, b));
  }

  lemma BeginsInv(o: Origin, c: Cell, c': Cell)
    requires Inv(o, c) && c.stage.At? && Begins(o, c, c')
    ensures Inv(o, c')
  {
    BeginsControl(o, c, c');
    BeginsShas(o, c, c');
    BeginsStore(o, c, c');
    BeginsEffects(o, c, c');
    assert c'.host.log == c.host.log;
  }

  // Segments before the first step

  ghost predicate Early(stage: Stage)
  {
    stage.Entering? || stage.AcquiringLock? || stage.Preflight?
  }

  /** What the first segments can do: register, look for the lock, and go on with it, wait, or give up. */
  ghost predicate Opens(o: Origin, c: Cell, c': Cell)
  {
    && c' == c.(stage := c'.stage, lockAcquired := c'.lockAcquired, prevSha := c'.prevSha, status := c'.status,
                controller := c'.controller, lock := c'.lock)
    && (c'.lockAcquired <==> c.lockAcquired || c'.stage.Preflight?)
    && (c'.lock == c.lock || (HoldsLock(c', o.job.id) && c'.lockAcquired))
    && if c.stage.Entering? then Enters(o, c, c') else
       && c'.prevSha == c.prevSha && c'.status == c.status && c'.controller == c.controller
       && if c.stage.Preflight? then c'.stage.Throwing? || c'.stage == At(Validate)
          else c'.stage.Throwing? || c'.stage.AcquiringLock? || c'.stage.Preflight?
  }

  ghost predicate Enters(o: Origin, c: Cell, c': Cell)
  {
    && (c'.prevSha == c.prevSha || c'.prevSha == if o.job.previousSha.Some? then o.job.previousSha else c.lastSuccessful)
    && if c'.stage.Returned? then OneOf(c'.status, {Status.Failed, Cancelled}) && c'.controller != Some(true)
       else && (c'.stage.AcquiringLock? || c'.stage.Preflight?) && c.status != Some(Cancelled)
            && OneOf(c'.status, {Status.Running}) && c'.controller == Some(false)
  }

  lemma EntryOpens(o: Origin, c: Cell, b: Beat)
    requires c.stage.Entering? && c.controller.None? && Releases.Listing(c.host.store, b.disk.listing)
    ensures Opens(o, c, Advance(o.job, o.config, c, b))
  {
  }

  lemma PollOpens(o: Origin, c: Cell, b: Beat)
    requires c.stage.AcquiringLock? && Releases.Listing(c.host.store, b.disk.listing)
    ensures Opens(o, c, Advance(o.job, o.config, c, b))
  {
  }

  lemma EarlyOpens(o: Origin, c: Cell, b: Beat)
    requires Bookkept(c) && LockOwned(o, c) && Early(c.stage) && Releases.Listing(c.host.store, b.disk.listing)
    ensures Opens(o, c, Advance(o.job, o.config, c, b))
  {
    if c.stage.Entering? {
      EntryOpens(o, c, b);
    } else if c.stage.AcquiringLock? {
      PollOpens(o, c, b);
    }
  }

  lemma OpensControl(o: Origin, c: Cell, c': Cell)
    requires Early(c.stage) && Opens(o, c, c') && Control(o, c) && Effects(o, c)
    ensures Control(o, c')
  {
  }

  lemma OpensShas(o: Origin, c: Cell, c': Cell)
    requires Early(c.stage) && Opens(o, c, c') && Control(o, c) && ShasRight(o, c)
    ensures ShasRight(o, c')
  {
  }

  lemma OpensStore(o: Origin, c: Cell, c': Cell)
    requires Early(c.stage) && Opens(o, c, c') && StoreSafe(o, c) && ProgressHonest(o, c)
    ensures StoreSafe(o, c')
  {
  }

  lemma OpensEffects(o: Origin, c: Cell, c': Cell)
    requires Early(c.stage) && Opens(o, c, c') && Effects(o, c)
    ensures Effects(o, c')
  {
  }

  lemma OpensRest(o: Origin, c: Cell, c': Cell)
    requires Early(c.stage) && Opens(o, c, c') && Bookkept(c) && ProgressHonest(o, c) && RevertsJustified(o, c)
    ensures RevertsJustified(o, c') && Compensated(o, c')
  {
  }

  lemma OpensInv(o: Origin, c: Cell, b: Beat)
    requires Inv(o, c) && Early(c.stage) && Releases.Listing(c.host.store, b.disk.listing)
    ensures Inv(o, Advance(o.job, o.config, c, b))
  {
    var c' := Advance(o.job, o.config, c, b);
    EarlyOpens(o, c, b);
    OpensControl(o, c, c');
    OpensShas(o, c, c');
    OpensStore(o, c, c');
    OpensEffects(o, c, c');
    OpensRest(o, c, c');
  }

  // The catch block

  /** What the `catch` block can do: unregister, settle on a status, and hand over to a rollback or to the end. */
  ghost predicate Catches(o: Origin, c: Cell, c': Cell)
  {
    && c' == c.(stage := c'.stage, status := c'.status, controller := None, aborted := true,
                host := c.host.(store := c'.host.store))
    && (c'.stage != Leaving ==> c'.host == c.host)
    && match c'.stage
       case Undoing(RestoreCancelled) =>
         OneOf(c'.status, {Cancelled}) && IsServiceAffected(c.progress) && !o.job.dryRun
       case Leaving =>
         && OneOf(c'.status, {Cancelled})
         && (c'.host.store == c.host.store
             || exists removed: bool :: c'.host.store == Releases.OrphanCleaned(c.host.store, o.job.id, removed))
       case Undoing(RollBackFailed) =>
         OneOf(c'.status, {RollingBack}) && CanRollBack(o.config, c) && c.status != Some(Cancelled)
       case Notifying(failed) => failed && OneOf(c'.status, {Status.Failed})
       case _ => false
  }

  lemma CatchCatches(o: Origin, c: Cell, b: Beat)
    requires Bookkept(c) && c.stage.Throwing? && Releases.Listing(c.host.store, b.disk.listing)
    ensures Catches(o, c, Advance(o.job, o.config, c, b))
  {
  }

  lemma CatchesControl(o: Origin, c: Cell, c': Cell)
    requires Catches(o, c, c') && c.stage.Throwing? && Control(o, c) && ShasRight(o, c)
    ensures Control(o, c') && ShasRight(o, c')
  {
  }

  lemma CatchesStore(o: Origin, c: Cell, c': Cell)
    requires Catches(o, c, c') && StoreSafe(o, c)
    ensures StoreSafe(o, c')
  {
  }

  lemma CatchesEffects(o: Origin, c: Cell, c': Cell)
    requires Catches(o, c, c') && c.stage.Throwing? && Effects(o, c) && o.job.id !in o.host.store.releases
    ensures Effects(o, c')
  {
  }

  lemma CatchInv(o: Origin, c: Cell, b: Beat)
    requires Inv(o, c) && c.stage.Throwing? && Releases.Listing(c.host.store, b.disk.listing)
    ensures Inv(o, Advance(o.job, o.config, c, b))
  {
    var c' := Advance(o.job, o.config, c, b);
    CatchCatches(o, c, b);
    CatchesControl(o, c, c');
    CatchesStore(o, c, c');
    CatchesEffects(o, c, c');
  }

  // The end of the run

  lemma NotifyInv(o: Origin, c: Cell, b: Beat)
    requires Inv(o, c) && c.stage.Notifying? && Releases.Listing(c.host.store, b.disk.listing)
    ensures Inv(o, Advance(o.job, o.config, c, b))
  {
    NotifyMoves(o, c, b);
    NotifiedInv(o, c, Advance(o.job, o.config, c, b));
  }

  ghost predicate Notifies(c: Cell, c': Cell)
  {
    && c' == c.(stage := Leaving, host := c.host.(store := c'.host.store))
    && c'.host.store.current == c.host.store.current && (Releases.Safe(c.host.store) ==> Releases.Safe(c'.host.store))
    && (c.stage == Notifying(false) ==> c'.host == c.host)
  }

  lemma NotifyMoves(o: Origin, c: Cell, b: Beat)
    requires c.stage.Notifying? && Releases.Listing(c.host.store, b.disk.listing)
    ensures Notifies(c, Advance(o.job, o.config, c, b))
  {
  }

  lemma NotifiedInv(o: Origin, c: Cell, c': Cell)
    requires Inv(o, c) && c.stage.Notifying? && Notifies(c, c') && (o.job.dryRun ==> c'.host == c.host)
    ensures Inv(o, c')
  {
    assert c.stage == Notifying(true) || c.stage == Notifying(false);
  }

  lemma LeaveInv(o: Origin, c: Cell, b: Beat)
    requires Inv(o, c) && (c.stage.Leaving? || c.stage.Returned?) && Releases.Listing(c.host.store, b.disk.listing)
    ensures Inv(o, Advance(o.job, o.config, c, b))
  {
  }

  // Undoing

  /** What a rollback leaves of the run's own variables. */
  ghost predicate Undoes(o: Origin, c: Cell, c': Cell)
    requires c.stage.Undoing?
  {
    && c' == c.(stage := c'.stage, status := c'.status, host := c'.host)
    && (if c.stage.why.RestoreCancelled? then c'.stage == Leaving && c'.status == c.status
        else c'.stage == Notifying(true) && OneOf(c'.status, {RolledBack, RollbackFailed}))
  }

  lemma UndoneUndoes(o: Origin, c: Cell, b: Beat)
    requires c.stage.Undoing? && Releases.Listing(c.host.store, b.disk.listing)
    ensures Undoes(o, c, Advance(o.job, o.config, c, b))
  {
  }

  lemma UndoesControl(o: Origin, c: Cell, c': Cell)
    requires c.stage.Undoing? && Undoes(o, c, c') && Control(o, c) && ShasRight(o, c)
    ensures Control(o, c') && ShasRight(o, c')
  {
  }

  lemma UndoesEffects(o: Origin, c: Cell, c': Cell)
    requires c.stage.Undoing? && Undoes(o, c, c') && Effects(o, c)
    ensures Effects(o, c')
  {
  }

  lemma UndoesStore(o: Origin, c: Cell, b: Beat)
    requires c.stage.Undoing? && StoreSafe(o, c) && Releases.Listing(c.host.store, b.disk.listing)
    ensures StoreSafe(o, Advance(o.job, o.config, c, b))
  {
    UndoneUndoes(o, c, b);
    UndoneStoreSafe(o, c, b);
  }

  lemma UndoneStoreSafe(o: Origin, c: Cell, b: Beat)
    requires c.stage.Undoing? && Releases.Safe(c.host.store) && Releases.Listing(c.host.store, b.disk.listing)
    ensures Releases.Safe(Undone(o.job, o.config, c, b, c.stage.why).host.store)
  {
    var affected := c.stage.why.RestoreCancelled? || IsServiceAffected(c.progress);
    RolledBackStoreSafe(o.config, c.prevSha, o.job.id, affected, c.progress.serviceActionStarted, c.host, b.disk, b.outcome);
  }

  lemma UndoesLog(o: Origin, c: Cell, b: Beat)
    requires RevertsJustified(o, c) && UndoReady(o, c) && c.stage.Undoing? && Releases.Listing(c.host.store, b.disk.listing)
    ensures RevertsJustified(o, Advance(o.job, o.config, c, b))
  {
    var affected := c.stage.why.RestoreCancelled? || IsServiceAffected(c.progress);
    RolledBackCalls(o.config, c.prevSha, o.job.id, affected, c.progress.serviceActionStarted, c.host, b.disk, b.outcome);
    UndoneUndoes(o, c, b);
    AllowedReverts(o, c, Advance(o.job, o.config, c, b), affected);
  }

  lemma AllowedReverts(o: Origin, c: Cell, c': Cell, affected: bool)
    requires c.stage.Undoing? && RevertsJustified(o, c) && Undoes(o, c, c') && c.host.log <= c'.host.log
    requires AllAllowed(o.config, affected, c.progress.serviceActionStarted, c'.host.log[|c.host.log|..])
    ensures RevertsJustified(o, c')
  {
    var calls := c'.host.log[|c.host.log|..];
    assert OwnCalls(o, c') == OwnCalls(o, c) + calls;
    assert RevertGeneration in calls ==> Allowed(o.config, affected, c.progress.serviceActionStarted, RevertGeneration);
  }

  lemma UndoesCompensate(o: Origin, c: Cell, b: Beat)
    requires Inv(o, c) && c.stage.Undoing? && Releases.Listing(c.host.store, b.disk.listing)
    ensures Compensated(o, Advance(o.job, o.config, c, b))
  {
    var c' := Advance(o.job, o.config, c, b);
    if c'.status == Some(RolledBack) && !o.config.strategy.ReleaseDirs? && !IsZeroDowntimeEnabled(o.config)
      && !o.config.action.NoAction? {
      ShaRollbackCompensates(c.host, o.config, c.prevSha.value, IsServiceAffected(c.progress),
        c.progress.serviceActionStarted, b.outcome);
    }
  }

  lemma UndoInv(o: Origin, c: Cell, b: Beat)
    requires Inv(o, c) && c.stage.Undoing? && Releases.Listing(c.host.store, b.disk.listing)
    ensures Inv(o, Advance(o.job, o.config, c, b))
  {
    var c' := Advance(o.job, o.config, c, b);
    UndoneUndoes(o, c, b);
    UndoesControl(o, c, c');
    UndoesEffects(o, c, c');
    UndoesStore(o, c, b);
    UndoesLog(o, c, b);
    UndoesCompensate(o, c, b);
  }

  /** Every own move keeps the invariant. */
  lemma AdvanceInv(o: Origin, c: Cell, b: Beat)
    requires Inv(o, c) && Releases.Listing(c.host.store, b.disk.listing)
    ensures Inv(o, Advance(o.job, o.config, c, b))
  {
    match c.stage
    case At(_) => BeginInv(o, c, b);
    case In(_) => FinishInv(o, c, b);
    case Throwing => CatchInv(o, c, b);
    case Undoing(_) => UndoInv(o, c, b);
    case Notifying(_) => NotifyInv(o, c, b);
    case Leaving => LeaveInv(o, c, b);
    case Returned => LeaveInv(o, c, b);
    case _ => OpensInv(o, c, b);
  }
}
