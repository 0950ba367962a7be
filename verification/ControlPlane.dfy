/** The daemon as one transition system: watcher checks, the job engine, the pipeline bodies, the lock heartbeat, the
    operator's cancel command and the self-repair cycle act in any order on the shared rows, locks and controllers.
    Code between two awaits is one action. */
module ControlPlane {
  import opened Records
  import opened Pipeline
  import opened Rollback
  import Deployments
  import Engine
  import LockTable
  import PipelineSafety
  import Registry
  import Releases
  import Watcher

  const STALE_RUNNING_MS: Millis := 900_000
  const STALE_QUEUED_MS: Millis := 900_000
  const KEEP_ROWS := 100
  const KEEP_DAYS := 30

  /** Configuration of the daemon; it does not change. */
  datatype Setup = Setup(config: Project -> Config, concurrency: nat)

  /** A pipeline body: the run's own variables and what was fixed when it started. */
  datatype Body = Body(
    origin: PipelineSafety.Origin, stage: Stage, lockAcquired: bool,
    targetSha: Sha, resetTo: Option<Sha>, prevSha: Option<Sha>, progress: Progress)

  /** A check of a project: waiting for the remote head; about to create a deployment after superseding; or adding the
      job of a created deployment to the queue. */
  datatype Check =
    | Fetching(trigger: Trigger, shas: Watcher.Shas)
    | Creating(sha: Sha, shas: Watcher.Shas)
    | Enqueueing(job: Job)

  /** `used` are all ids ever drawn for a deployment. */
  datatype World = World(
    now: Millis,
    rows: Rows,
    locks: LockTable.Locks,
    shas: map<Project, Watcher.Shas>,
    hosts: map<Project, Host>,
    registry: Registry.State,
    engine: Engine.State,
    bodies: map<Engine.Ticket, Body>,
    jobs: map<Id, Job>,
    checks: map<Project, Check>,
    used: set<Id>)

  /** What is known of a host before its first deployment. */
  const NEW_HOST: Host := Host(Tree(None, []), Tree(None, []), Unclear, Generations(Original, 0, 0), Releases.EMPTY, [])

  function ShasOf(w: World, project: Project): Watcher.Shas
  {
    if project in w.shas then w.shas[project] else Watcher.Shas(None, None)
  }

  function HostOf(w: World, project: Project): Host
  {
    if project in w.hosts then w.hosts[project] else NEW_HOST
  }

  ghost predicate Initial(w: World)
  {
    && w.rows == map[] && w.locks == map[] && w.shas == map[] && w.hosts == map[] && w.registry == Registry.EMPTY
    && w.engine == Engine.IDLE && w.bodies == map[] && w.jobs == map[] && w.checks == map[] && w.used == {}
  }

  // Bodies

  function StatusOf(rows: Rows, id: Id): Option<Status>
  {
    if id in rows then Some(rows[id].status) else None
  }

  function CriticalOf(registry: Registry.State, id: Id): Option<bool>
  {
    if id in registry.controllers then Some(registry.controllers[id].critical) else None
  }

  function LockOf(locks: LockTable.Locks, project: Project): Option<LockTable.Lock>
  {
    if project in locks then Some(locks[project]) else None
  }

  /** A body with everything it shares, as the pipeline's own state machine sees it. */
  function View(w: World, b: Body): Cell
  {
    var id, project := b.origin.job.id, b.origin.job.project;
    Cell(b.stage, b.lockAcquired, b.targetSha, b.resetTo, b.prevSha, b.progress,
         StatusOf(w.rows, id), CriticalOf(w.registry, id), id in w.registry.aborted, LockOf(w.locks, project),
         ShasOf(w, project).lastSuccessful, HostOf(w, project))
  }

  /** Registering, marking and aborting in the daemon's registry is what the pipeline's own moves do to their cell. */
  lemma RegisteringIsThePipelines(w: World, b: Body)
    ensures View(w.(registry := Registry.Registered(w.registry, b.origin.job.id, b.origin.job.project)), b)
      == View(w, b).(controller := Some(false))
  {
  }

  lemma MarkingIsThePipelines(w: World, b: Body)
    ensures View(w.(registry := Registry.Marked(w.registry, b.origin.job.id)), b) == Pipeline.MarkCritical(View(w, b))
  {
    assert CriticalOf(Registry.Marked(w.registry, b.origin.job.id), b.origin.job.id) ==
      if b.origin.job.id in w.registry.controllers then Some(true) else None;
  }

  lemma AbortingIsThePipelines(w: World, b: Body)
    ensures var c := View(w, b);
      View(w.(registry := Registry.Unregistered(w.registry, b.origin.job.id)), b)
        == c.(controller := None, aborted := c.aborted || c.controller.Some?)
  {
  }

  function StatusWritten(rows: Rows, id: Id, status: Option<Status>, now: Millis): Rows
  {
    if id in rows && status.Some? && status.value != rows[id].status
    then Deployments.StatusUpdated(rows, id, status.value, now) else rows
  }

  function BodyOf(origin: PipelineSafety.Origin, c: Cell): Body
  {
    Body(origin, c.stage, c.lockAcquired, c.targetSha, c.resetTo, c.prevSha, c.progress)
  }

  /** What a move of a body leaves behind, in the row, lock, controller, commit and host it works on. */
  function Written(w: World, t: Engine.Ticket, c: Cell): World
    requires t in w.bodies
  {
    var origin := w.bodies[t].origin;
    var id, project := origin.job.id, origin.job.project;
    w.(rows := StatusWritten(w.rows, id, c.status, w.now),
       locks := if c.lock.Some? then w.locks[project := c.lock.value] else w.locks - {project},
       shas := w.shas[project := ShasOf(w, project).(lastSuccessful := c.lastSuccessful)],
       hosts := w.hosts[project := c.host],
       registry := Registry.State(
         if c.controller.Some? then w.registry.controllers[id := Registry.Controller(project, c.controller.value)]
         else w.registry.controllers - {id},
         if c.aborted then w.registry.aborted + {id} else w.registry.aborted - {id}),
       bodies := w.bodies[t := BodyOf(origin, c)])
  }

  /** A move of a body; when the body returns, its task ends with it. */
  function Stepped(w: World, t: Engine.Ticket, b: Beat): World
    requires t in w.bodies && t in w.engine.tasks && Releases.Listing(HostOf(w, w.bodies[t].origin.job.project).store, b.disk.listing)
  {
    var body := w.bodies[t];
    var c := Advance(body.origin.job, body.origin.config, View(w, body), b);
    var moved := Written(w, t, c);
    if c.stage.Returned? then moved.(engine := Engine.Ended(moved.engine, t), bodies := moved.bodies - {t}) else moved
  }

  /** A task whose turn has come: a queued deployment gets a body, any other is skipped. */
  function Resumed(setup: Setup, w: World, t: Engine.Ticket): World
    requires t in w.engine.tasks && w.engine.tasks[t].id in w.jobs
  {
    var job := w.jobs[w.engine.tasks[t].id];
    var queued := StatusOf(w.rows, job.id) == Some(Queued);
    var resumed := w.(engine := Engine.Resumed(w.engine, t, queued));
    if !queued then resumed
    else
      var origin := PipelineSafety.Origin(
        job, setup.config(job.project), HostOf(w, job.project), ShasOf(w, job.project).lastSuccessful);
      resumed.(bodies := w.bodies[t := Body(origin, Entering, false, job.targetSha, None, None, NO_PROGRESS)])
  }

  // Others

  function WithoutPending(w: World, project: Project): World
  {
    var protected := Registry.CriticalIds(w.registry, project);
    w.(registry := Registry.AbortedAll(w.registry, project),
       rows := Deployments.Finished(w.rows, Deployments.Superseded(w.rows, project, protected), Cancelled, w.now))
  }

  /** A queued row; its job is about to be added. */
  function Created(w: World, project: Project, id: Id, sha: Sha, shas: Watcher.Shas): World
  {
    w.(rows := Watcher.Created(w.rows, id, project, shas, sha, w.now),
       shas := w.shas[project := ShasOf(w, project).(lastSeen := Some(sha))],
       checks := w.checks[project := Enqueueing(Job(id, project, shas.lastSuccessful, sha, false))],
       used := w.used + {id})
  }

  /** The rows after the watchdog has failed those that are overdue and that no worker owns. */
  function FailedRows(setup: Setup, w: World): Rows
  {
    var running := w.engine.running;
    var rows := Deployments.Finished(
      w.rows, Deployments.StaleRunning(w.rows, STALE_RUNNING_MS, w.now) - running, Failed, w.now);
    if |running| < setup.concurrency
    then Deployments.Finished(rows, Deployments.StaleQueued(rows, STALE_QUEUED_MS, w.now) - running, Failed, w.now)
    else rows
  }

  function Repaired(setup: Setup, w: World): World
  {
    w.(locks := LockTable.Pruned(w.locks, w.rows, w.engine.running, w.now),
       rows := Deployments.Retained(FailedRows(setup, w), None, Some(KEEP_ROWS), Some(KEEP_DAYS), w.now))
  }

  /** `runSelfRepairCycle`, up to the health checks. */
  class DeployraDaemon {
    const stateRepo: LockTable.StateRepository
    const deploymentRepo: Deployments.DeploymentRepository
    const workmaticEngine: Engine.WorkmaticEngine

    constructor (
      stateRepo: LockTable.StateRepository, deploymentRepo: Deployments.DeploymentRepository,
      workmaticEngine: Engine.WorkmaticEngine)
      ensures this.stateRepo == stateRepo && this.deploymentRepo == deploymentRepo && this.workmaticEngine == workmaticEngine
    {
      this.stateRepo, this.deploymentRepo, this.workmaticEngine := stateRepo, deploymentRepo, workmaticEngine;
    }

    method RunSelfRepairCycle(setup: Setup, now: Millis, ghost w: World)
      requires w.rows == deploymentRepo.rows && w.locks == stateRepo.locks && w.now == now
      requires w.engine == workmaticEngine.Contents()
      modifies stateRepo, deploymentRepo
      ensures stateRepo.locks == Repaired(setup, w).locks
      ensures deploymentRepo.rows == Repaired(setup, w).rows
    {
      var activeRunningIds := workmaticEngine.runningDeployments;
      var _ := stateRepo.PruneStaleLocks(deploymentRepo.rows, activeRunningIds, now);
      var _ := deploymentRepo.CleanupStaleJobs(STALE_RUNNING_MS, activeRunningIds, now);
      if |activeRunningIds| < setup.concurrency {
        var _ := deploymentRepo.FailStaleQueuedDeployments(STALE_QUEUED_MS, activeRunningIds, now);
      }
      var _ := deploymentRepo.PruneDeployments(None, Some(KEEP_ROWS), Some(KEEP_DAYS), now);
    }
  }

  // Events

  datatype Event =
    | Pass(elapsed: nat)
    | BeginCheck(project: Project, trigger: Trigger)
    | DecideCheck(project: Project, sha: Sha, id: Id)
    | CreateRow(project: Project, id: Id)
    | EnqueueJob(project: Project)
    | AbandonCheck(project: Project)
    | Deliver(id: Id)
    | Resume(t: Engine.Ticket)
    | Step(t: Engine.Ticket, beat: Beat)
    | Heartbeat(t: Engine.Ticket)
    | Cancel(id: Id)
    | RepairCycle

  /** No promise continuation is due: no task may go on, and no body is on its way to its first attempt at the lock. A
      timer fires only then; between a delivery or the end of a body and the next body's first await there is none. */
  ghost predicate Settled(w: World)
  {
    && (forall t :: t in w.engine.tasks ==> !Engine.Ready(w.engine, t))
    && (forall t :: t in w.bodies ==> !w.bodies[t].stage.Entering?)
  }

  /** Ids are drawn fresh; one check of a project is in flight at a time; a body reads the rows and the clock as they are;
      the self-repair cycle is run by a timer. */
  ghost predicate Enabled(w: World, a: Event)
  {
    match a
    case Pass(_) => true
    case BeginCheck(project, _) => project !in w.checks
    case DecideCheck(project, sha, id) => project in w.checks && w.checks[project].Fetching? && sha != "" && id !in w.used
    case CreateRow(project, id) => project in w.checks && w.checks[project].Creating? && id !in w.used
    case EnqueueJob(project) => project in w.checks && w.checks[project].Enqueueing?
    case AbandonCheck(project) => project in w.checks && !w.checks[project].Creating?
    case Deliver(id) => id in w.jobs
    case Resume(t) => Engine.Ready(w.engine, t) && w.engine.tasks[t].id in w.jobs
    case Step(t, beat) =>
      && t in w.bodies && t in w.engine.tasks && beat.rows == w.rows && beat.now == w.now
      && Releases.Listing(HostOf(w, w.bodies[t].origin.job.project).store, beat.disk.listing)
    case Heartbeat(t) => t in w.bodies && w.bodies[t].lockAcquired
    case Cancel(id) => id in w.rows && Active(w.rows[id].status)
    case RepairCycle => Settled(w)
  }

  ghost function Decided(setup: Setup, w: World, project: Project, sha: Sha, id: Id): World
    requires Enabled(w, DecideCheck(project, sha, id))
  {
    var check := w.checks[project];
    match Watcher.Decide(w.rows, project, check.shas, check.trigger, sha, setup.config(project).queueMode, w.now)
    case Skip(markSeen) =>
      w.(checks := w.checks - {project},
         shas := if markSeen then w.shas[project := ShasOf(w, project).(lastSeen := Some(sha))] else w.shas)
    case Deploy(supersede) =>
      if supersede then WithoutPending(w, project).(checks := w.checks[project := Creating(sha, check.shas)])
      else Created(w, project, id, sha, check.shas)
  }

  ghost function Apply(setup: Setup, w: World, a: Event): World
    requires Enabled(w, a)
  {
    match a
    case Pass(elapsed) => w.(now := w.now + elapsed)
    case BeginCheck(project, trigger) => w.(checks := w.checks[project := Fetching(trigger, ShasOf(w, project))])
    case DecideCheck(project, sha, id) => Decided(setup, w, project, sha, id)
    case CreateRow(project, id) => Created(w, project, id, w.checks[project].sha, w.checks[project].shas)
    case EnqueueJob(project) =>
      var job := w.checks[project].job;
      w.(jobs := w.jobs[job.id := job], checks := w.checks - {project})
    case AbandonCheck(project) => w.(checks := w.checks - {project})
    case Deliver(id) => w.(engine := Engine.Delivered(w.engine, id, w.jobs[id].project))
    case Resume(t) => Resumed(setup, w, t)
    case Step(t, beat) => Stepped(w, t, beat)
    case Heartbeat(t) =>
      var job := w.bodies[t].origin.job;
      w.(locks := LockTable.Refreshed(w.locks, job.project, job.id, w.now))
    case Cancel(id) => w.(rows := Deployments.StatusUpdated(w.rows, id, Cancelled, w.now))
    case RepairCycle => Repaired(setup, w)
  }

  ghost predicate Feasible(setup: Setup, w: World, actions: seq<Event>)
    decreases |actions|
  {
    actions != [] ==> Enabled(w, actions[0]) && Feasible(setup, Apply(setup, w, actions[0]), actions[1..])
  }

  ghost function Run(setup: Setup, w: World, actions: seq<Event>): World
    requires Feasible(setup, w, actions)
    decreases |actions|
  {
    if actions == [] then w else Run(setup, Apply(setup, w, actions[0]), actions[1..])
  }
}
