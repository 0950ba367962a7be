/** One deployment run, `DeploymentPipelineRunner.runDeployment` (src/pipeline/pipeline-runner.ts), as a state
    machine. A stage is a point where the run awaits something; one own move is the code from there to the next
    await. Between own moves other parts of the daemon and the operator may act. */
module Pipeline {
  import opened Records
  import opened Rollback
  import opened LockTable
  import Releases

  const LOCK_WAIT_MS: Millis := 3000

  /** The payload of the deployment job. */
  datatype Job = Job(id: Id, project: Project, previousSha: Option<Sha>, targetSha: Sha, dryRun: bool)

  datatype Step =
    | Validate | Fetch | Resolve | Prepare | RefreshConfig
    | StopBeforeBuild
    | InstallStop(index: nat)
    | Command(index: nat, position: nat)
    | SyncBuilt(index: nat)
    | Activate | ServiceAction | ReadyCheck | CleanupReleases | Complete

  datatype Undo = RestoreCancelled | RollBackFailed

  datatype Stage =
    | Entering
    | AcquiringLock(since: Millis)
    | Preflight
    | At(step: Step)
    | In(step: Step)
    | Throwing
    | Undoing(why: Undo)
    | Notifying(failed: bool)
    | Leaving
    | Returned

  /** The run's own variables, and everything outside it that it reads or writes. `controller` is its entry in
      `activeAbortControllers` (the value is the critical flag), `aborted` its abort signal; `status` is its row's
      status, None once the row has been pruned. */
  datatype Cell = Cell(
    stage: Stage,
    lockAcquired: bool,
    targetSha: Sha,
    resetTo: Option<Sha>,
    prevSha: Option<Sha>,
    progress: Progress,
    status: Option<Status>,
    controller: Option<bool>,
    aborted: bool,
    lock: Option<Lock>,
    lastSuccessful: Option<Sha>,
    host: Host)

  /** What one own move learns from outside; `took` is whether the traffic moved (see `Rollback.Result`). */
  datatype Beat = Beat(
    ok: bool,
    took: bool,
    now: Millis,
    rows: Rows,
    projectKnown: bool,
    remoteHead: Option<Sha>,
    links: bool,
    disk: Disk,
    removable: set<Id>,
    outcome: Outcomes)

  /** What others can do to the run between its moves. */
  datatype Disturbance =
    | Supersede
    | OperatorCancel
    | RowPruned
    | LockWritten(lock: Option<Lock>)

  // Environment

  /** `cancelPendingJobsForProject`, seen from one deployment of the project: a non-critical run is aborted; then its
      row is cancelled unless it is critical or already past running. */
  function Superseded(c: Cell): Cell
  {
    var c1 := if c.controller == Some(false) then c.(controller := None, aborted := true) else c;
    if c1.controller == Some(true) then c1
    else if c1.status == Some(Queued) || c1.status == Some(Running) then c1.(status := Some(Cancelled))
    else c1
  }

  function Disturbed(c: Cell, e: Disturbance): Cell
  {
    match e
    case Supersede => Superseded(c)
    case OperatorCancel => if c.status.Some? && Active(c.status.value) then c.(status := Some(Cancelled)) else c
    case RowPruned => if c.status.Some? && Terminal(c.status.value) then c.(status := None) else c
    case LockWritten(lock) => c.(lock := lock)
  }

  predicate HoldsLock(c: Cell, id: Id)
  {
    c.lock.Some? && c.lock.value.lockedBy == id
  }

  /** Nobody acquires the lock in the name of this run. */
  predicate Possible(job: Job, c: Cell, e: Disturbance)
  {
    e.LockWritten? && e.lock.Some? && e.lock.value.lockedBy == job.id ==> HoldsLock(c, job.id)
  }

  // Own moves

  function Write(status: Option<Status>, s: Status): Option<Status>
  {
    if status.Some? then Some(s) else None
  }

  function MarkCritical(c: Cell): Cell
  {
    if c.controller.Some? then c.(controller := Some(true)) else c
  }

  function Throw(c: Cell): Cell
  {
    c.(stage := Throwing)
  }

  function GoTo(c: Cell, step: Step): Cell
  {
    c.(stage := At(step))
  }

  /** `workingDir`: the project itself, or a separate tree for the isolated and release strategies. */
  function WorkingDir(config: Config): Dir
  {
    if config.strategy.Isolated? || config.strategy.ReleaseDirs? then Work else Live
  }

  /** The first nonempty command step from `index` on, or what follows the command steps. */
  function CommandFrom(config: Config, index: nat): (step: Step)
    ensures step.Command? ==> step.index < |config.steps| && step.position < |config.steps[step.index].commands|
    ensures step.Command? || step == if config.strategy.ReleaseDirs? then Activate else ServiceAction
    decreases |config.steps| - index
  {
    if index >= |config.steps| then
      if config.strategy.ReleaseDirs? then Activate else ServiceAction
    else if config.steps[index].commands == [] then CommandFrom(config, index + 1)
    else Command(index, 0)
  }

  predicate StopsBeforeBuild(config: Config, dryRun: bool)
  {
    config.stopBeforeBuild && !dryRun && !config.strategy.ReleaseDirs? && !IsZeroDowntimeEnabled(config)
  }

  predicate StopsForInstall(config: Config, dryRun: bool, index: nat)
  {
    && index < |config.steps| && config.steps[index].name == "install"
    && !dryRun && !config.strategy.ReleaseDirs? && !IsZeroDowntimeEnabled(config)
  }

  /** One round of the polling loop. */
  function PollLock(job: Job, c: Cell, b: Beat): Cell
    requires c.stage.AcquiringLock?
  {
    if b.now - c.stage.since > LOCK_WAIT_MS then Throw(c)
    else
      var locks := if c.lock.Some? then map[job.project := c.lock.value] else map[];
      var after := Acquired(locks, b.rows, job.project, job.id, b.now);
      if Holds(after, job.project, job.id) then
        c.(lock := Some(after[job.project]), lockAcquired := true, stage := Preflight)
      else c
  }

  /** From the call to the first await: up to and including the first attempt at the lock. */
  function Enter(job: Job, c: Cell, b: Beat): Cell
  {
    if !b.projectKnown then c.(status := Write(c.status, Failed), stage := Returned)
    else
      var entered := c.(controller := Some(false), prevSha := if job.previousSha.Some? then job.previousSha else c.lastSuccessful);
      if c.status == Some(Cancelled) then entered.(stage := Returned)
      else PollLock(job, entered.(status := Write(c.status, Running), stage := AcquiringLock(b.now)), b)
  }

  /** The directory of a release deployment is made when it is validated. */
  function Provisioned(job: Job, config: Config, store: Releases.Store, now: Millis): Releases.Store
  {
    if config.strategy.ReleaseDirs? && !job.dryRun && job.id !in store.releases
    then Releases.Touched(store, job.id, now) else store
  }

  /** From the status check of `runStep` to the first await of its action. */
  function Begin(job: Job, config: Config, c: Cell, b: Beat, step: Step): Cell
    requires Releases.Listing(c.host.store, b.disk.listing)
  {
    if step.StopBeforeBuild? then
      MarkCritical(c).(progress := c.progress.(serviceStopped := true), stage := In(step))
    else if c.status == Some(Cancelled) then Throw(c)
    else match step
      case Validate =>
        c.(stage := In(step), host := c.host.(store := Provisioned(job, config, c.host.store, b.now)))
      case Prepare =>
        if job.dryRun then c.(stage := In(step))
        else c.(progress := c.progress.(workspaceMutated := true), stage := In(step))
      case Command(index, _) =>
        if c.aborted then Throw(c)
        else if StopsForInstall(config, job.dryRun, index) then
          MarkCritical(c).(progress := c.progress.(serviceStopped := true), stage := In(InstallStop(index)))
        else c.(stage := In(step))
      case Activate =>
        if c.aborted then Throw(c)
        else if job.dryRun then GoTo(c, ServiceAction)
        else if !b.links then Throw(MarkCritical(c))
        else
          GoTo(MarkCritical(c).(
            host := c.host.(store := Releases.Activated(c.host.store, job.id)),
            progress := c.progress.(releaseActivated := true)), ServiceAction)
      case ServiceAction =>
        if c.aborted then Throw(c)
        else if job.dryRun then c.(stage := In(step))
        else MarkCritical(c).(progress := c.progress.(serviceActionStarted := true), stage := In(step))
      case ReadyCheck => if c.aborted then Throw(c) else c.(stage := In(step))
      case CleanupReleases =>
        if c.aborted || job.dryRun then GoTo(c, Complete)
        else if !b.ok then Throw(c)
        else
          var keep := if config.releasesToKeep > 1 then config.releasesToKeep else 1;
          GoTo(c.(host := c.host.(store := Releases.Pruned(c.host.store, b.disk.listing, keep, true, b.removable))), Complete)
      case Complete =>
        if c.aborted then Throw(c)
        else c.(lastSuccessful := if job.dryRun then c.lastSuccessful else Some(c.targetSha),
                status := Write(c.status, Success), stage := Notifying(false))
      case _ => c.(stage := In(step))
  }

  /** One external call of the pipeline; dry runs skip it. */
  function Invoked(job: Job, c: Cell, b: Beat, call: Call): Cell
  {
    if job.dryRun then c else c.(host := Attempt(c.host, call, Result(b.ok, b.took)))
  }

  /** Whether the awaited action failed: simulated actions do not. */
  predicate Fails(job: Job, b: Beat)
  {
    !b.ok && !job.dryRun
  }

  function ServiceCalls(config: Config): Option<Call>
  {
    if IsZeroDowntimeEnabled(config) then Some(DeployGeneration)
    else if config.action.NoAction? then None
    else if config.strategy.ReleaseDirs? then Some(ServiceFromCurrent(config.action))
    else Some(ServiceCall(config.action))
  }

  /** From the end of an await inside a step to the next stage. */
  function Finish(job: Job, config: Config, c: Cell, b: Beat, step: Step): Cell
  {
    match step
    case Validate => if Fails(job, b) then Throw(c) else GoTo(c, Fetch)
    case Fetch => if Fails(job, b) then Throw(c) else GoTo(c, Resolve)
    case Resolve =>
      if job.dryRun && c.targetSha != "" then GoTo(c, Prepare)
      else if !b.ok then Throw(c)
      else if b.remoteHead.Some? then GoTo(c.(targetSha := b.remoteHead.value), Prepare)
      else if c.targetSha == "" then Throw(c)
      else GoTo(c, Prepare)
    case Prepare =>
      if job.dryRun then GoTo(c, RefreshConfig)
      else
        var reset := Invoked(job, c, b, ResetHard(WorkingDir(config), c.targetSha)).(resetTo := Some(c.targetSha));
        if b.ok then GoTo(reset, RefreshConfig) else Throw(reset)
    case RefreshConfig =>
      if Fails(job, b) then Throw(c)
      else if StopsBeforeBuild(config, job.dryRun) then GoTo(c, StopBeforeBuild)
      else GoTo(c, CommandFrom(config, 0))
    case StopBeforeBuild => GoTo(Invoked(job, c, b, StopService), CommandFrom(config, 0))
    case InstallStop(index) =>
      var stopped := Invoked(job, c, b, StopService);
      if c.aborted then Throw(stopped) else stopped.(stage := In(Command(index, 0)))
    case Command(index, position) =>
      if index >= |config.steps| || position >= |config.steps[index].commands| then Throw(c)
      else
        // An abort kills the running command
        var exit := b.(ok := b.ok && !c.aborted);
        var ran := Invoked(job, c, exit, Exec(WorkingDir(config), config.steps[index].commands[position]));
        if c.aborted || Fails(job, exit) then Throw(ran)
        else if position + 1 < |config.steps[index].commands| then ran.(stage := In(Command(index, position + 1)))
        else if config.steps[index].name == "build" && config.strategy.Isolated? && !job.dryRun
        then ran.(stage := In(SyncBuilt(index)))
        else GoTo(ran, CommandFrom(config, index + 1))
    case SyncBuilt(index) =>
      var synced := Invoked(job, c, b, SyncWorkToLive);
      if Fails(job, b) then Throw(synced) else GoTo(synced, CommandFrom(config, index + 1))
    case ServiceAction =>
      if ServiceCalls(config).None? then GoTo(c, ReadyCheck)
      else
        var acted := Invoked(job, c, b, ServiceCalls(config).value);
        if Fails(job, b) then Throw(acted) else GoTo(acted, ReadyCheck)
    case ReadyCheck =>
      var checked := if config.readyChecks then Invoked(job, c, b, WaitReady) else c;
      if config.readyChecks && Fails(job, b) then Throw(checked)
      else GoTo(checked, if config.strategy.ReleaseDirs? then CleanupReleases else Complete)
    case _ => c
  }

  /** `cleanupOrphanRelease`, run only for the release strategy. */
  function CleanOrphan(job: Job, config: Config, c: Cell, b: Beat): Cell
  {
    if config.strategy.ReleaseDirs?
    then c.(host := c.host.(store := Releases.OrphanCleaned(c.host.store, job.id, b.disk.removes))) else c
  }

  predicate CanRollBack(config: Config, c: Cell)
  {
    && c.lockAcquired && config.rollbackEnabled
    && (c.progress.workspaceMutated || IsServiceAffected(c.progress))
    && ((c.prevSha.Some? && c.prevSha.value != c.targetSha)
        || config.strategy.ReleaseDirs?
        || (IsZeroDowntimeEnabled(config) && c.progress.serviceActionStarted))
  }

  /** The `catch` block up to its first await. */
  function Catch(job: Job, config: Config, c: Cell, b: Beat): Cell
  {
    var isCancelled := c.status == Some(Cancelled) || c.aborted;
    var unregistered := c.(controller := None, aborted := c.aborted || c.controller.Some?);
    if isCancelled then
      var cancelled := unregistered.(status := Write(c.status, Cancelled));
      if !job.dryRun && c.lockAcquired && IsServiceAffected(c.progress) && config.rollbackEnabled
      then cancelled.(stage := Undoing(RestoreCancelled))
      else CleanOrphan(job, config, cancelled, b).(stage := Leaving)
    else if CanRollBack(config, c)
    then unregistered.(status := Write(c.status, RollingBack), stage := Undoing(RollBackFailed))
    else unregistered.(status := Write(c.status, Failed), stage := Notifying(true))
  }

  /** The rollback, from its start to its end: nothing it does is visible to the rest of the daemon. */
  function Undone(job: Job, config: Config, c: Cell, b: Beat, why: Undo): Cell
    requires Releases.Listing(c.host.store, b.disk.listing)
  {
    var affected := why.RestoreCancelled? || IsServiceAffected(c.progress);
    var (host, ok) := RolledBackHost(config, c.prevSha, job.id, affected, c.progress.serviceActionStarted,
                                     c.host, b.disk, b.outcome);
    if why.RestoreCancelled? then CleanOrphan(job, config, c.(host := host), b).(stage := Leaving)
    else c.(host := host, status := Write(c.status, if ok then RolledBack else RollbackFailed), stage := Notifying(true))
  }

  /** The `finally` block: the release-lock step gives up when the row is cancelled. */
  function Leave(job: Job, c: Cell): Cell
  {
    var released := if c.status != Some(Cancelled) && c.lockAcquired && HoldsLock(c, job.id) then None else c.lock;
    c.(controller := None, lock := released, stage := Returned)
  }

  function Advance(job: Job, config: Config, c: Cell, b: Beat): Cell
    requires Releases.Listing(c.host.store, b.disk.listing)
  {
    match c.stage
    case Entering => Enter(job, c, b)
    case AcquiringLock(_) => PollLock(job, c, b)
    case Preflight => if Fails(job, b) then Throw(c) else GoTo(c, Validate)
    case At(step) => Begin(job, config, c, b, step)
    case In(step) => Finish(job, config, c, b, step)
    case Throwing => Catch(job, config, c, b)
    case Undoing(why) => Undone(job, config, c, b, why)
    case Notifying(failed) => (if failed then CleanOrphan(job, config, c, b) else c).(stage := Leaving)
    case Leaving => Leave(job, c)
    case Returned => c
  }
}
