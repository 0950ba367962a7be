/** Values shared by the modules of the deployment control plane. */
module Records {

  datatype Option<+T> = None | Some(value: T)

  /** A deployment id, a canonical project name and a full commit SHA, as stored. */
  type Id = string
  type Project = string
  type Sha = string

  /** Milliseconds since the epoch, or a length of time in milliseconds. */
  type Millis = int

  datatype Status =
    | Queued | Running | RollingBack
    | Success | Failed | Cancelled | RolledBack | RollbackFailed

  predicate Active(s: Status)
  {
    s.Queued? || s.Running? || s.RollingBack?
  }

  predicate Terminal(s: Status)
  {
    s.Success? || s.Failed? || s.Cancelled? || s.RolledBack? || s.RollbackFailed?
  }

  datatype Trigger = Poll | Webhook

  /** A row of the `deployments` table. */
  datatype Row = Row(
    project: Project,
    previousSha: Option<Sha>,
    targetSha: Sha,
    status: Status,
    dryRun: bool,
    createdAt: Millis,
    startedAt: Option<Millis>,
    completedAt: Option<Millis>)

  type Rows = map<Id, Row>

  // Configuration

  datatype Strategy = InPlace | Isolated | ReleaseDirs | ZeroDowntime

  datatype Action = StartService | RestartService | ReloadService | NoAction

  datatype QueueMode = Latest | Fifo | Reject

  datatype CommandStep = CommandStep(name: string, commands: seq<string>)

  datatype Config = Config(
    strategy: Strategy,
    zeroDowntimeFlag: bool,
    action: Action,
    stopBeforeBuild: bool,
    steps: seq<CommandStep>,
    readyChecks: bool,
    rollbackEnabled: bool,
    releasesToKeep: nat,
    queueMode: QueueMode)

  // src/deployment/strategy.ts

  predicate IsZeroDowntimeEnabled(config: Config)
  {
    config.strategy == ZeroDowntime || config.zeroDowntimeFlag
  }

  /** What a deployment has already changed by the time it fails or is cancelled. */
  datatype Progress = Progress(
    workspaceMutated: bool,
    serviceStopped: bool,
    releaseActivated: bool,
    serviceActionStarted: bool)

  const NO_PROGRESS: Progress := Progress(false, false, false, false)

  predicate IsServiceAffected(progress: Progress)
  {
    progress.serviceStopped || progress.releaseActivated || progress.serviceActionStarted
  }
}
