/** What holds in every state the daemon can reach, under every interleaving of checks, deliveries and redeliveries,
    pipeline moves, supersedes, cancels, heartbeats and self-repair cycles. */
module ControlPlaneTheorems {
  import opened Records
  import opened Pipeline
  import opened ControlPlane
  import opened ControlPlaneSafety
  import opened ControlPlaneSteps
  import opened ControlPlaneLocks
  import Deployments
  import Engine
  import LockTable
  import PipelineRuns
  import PipelineSafety
  import Registry
  import Releases
  import Rollback
  import Watcher

  lemma CheckActionSound(setup: Setup, w: World, a: Event)
    requires Sound(setup, w) && Enabled(w, a)
    requires a.BeginCheck? || a.DecideCheck? || a.CreateRow? || a.EnqueueJob? || a.AbandonCheck?
    ensures Sound(setup, Apply(setup, w, a))
  {
    match a
    case BeginCheck(project, trigger) => BeginCheckSound(setup, w, project, trigger);
    case DecideCheck(project, sha, id) => DecideSound(setup, w, project, sha, id);
    case CreateRow(project, id) =>
      assert CheckOk(setup, w, project);
      CreatedSound(setup, w, project, id, w.checks[project].sha, w.checks[project].shas);
    case EnqueueJob(project) => EnqueueSound(setup, w, project);
    case AbandonCheck(project) => CheckEndsSound(setup, w, Apply(setup, w, a), project);
  }

  lemma ResumeSound(setup: Setup, w: World, t: Engine.Ticket)
    requires Resumable(w, t) && Sound(setup, w)
    ensures Sound(setup, Resumed(setup, w, t))
  {
    if StatusOf(w.rows, w.engine.tasks[t].id) == Some(Queued) {
      StartSound(setup, w, t);
    } else {
      SkipSound(setup, w, t);
    }
  }

  lemma PassSound(setup: Setup, w: World, elapsed: nat)
    requires Sound(setup, w)
    ensures Sound(setup, Apply(setup, w, Pass(elapsed)))
  {
    UnnoticedDrifts(w, Apply(setup, w, Pass(elapsed)));
    DriftsSound(setup, w, Apply(setup, w, Pass(elapsed)));
  }

  lemma HeartbeatSound(setup: Setup, w: World, job: Job)
    requires Sound(setup, w)
    ensures Sound(setup, w.(locks := LockTable.Refreshed(w.locks, job.project, job.id, w.now)))
  {
    var w' := w.(locks := LockTable.Refreshed(w.locks, job.project, job.id, w.now));
    HeartbeatDrifts(w, w', job);
    DriftsSound(setup, w, w');
  }

  lemma HeartbeatDrifts(w: World, w': World, job: Job)
    requires w' == w.(locks := LockTable.Refreshed(w.locks, job.project, job.id, w.now))
    ensures Drifts(w, w') && HoldersStay(w, w')
  {
    LocksDrifts(w, w'.locks);
    SameRowsStay(w, w');
  }

  lemma CancelSound(setup: Setup, w: World, id: Id)
    requires Sound(setup, w) && Enabled(w, Cancel(id))
    ensures Sound(setup, Apply(setup, w, Cancel(id)))
  {
    CancelDrifts(w, id);
    DriftsSound(setup, w, Apply(setup, w, Cancel(id)));
  }

  lemma EngineActionSound(setup: Setup, w: World, a: Event)
    requires Sound(setup, w) && Enabled(w, a)
    requires a.Deliver? || a.Resume?
    ensures Sound(setup, Apply(setup, w, a))
  {
    match a
    case Deliver(id) => DeliverSound(setup, w, id);
    case Resume(t) => ResumeSound(setup, w, t);
  }

  /** The invariant of the daemon. */
  ghost predicate Kept(setup: Setup, w: World)
  {
    Sound(setup, w) && Holding(w)
  }

  lemma ApplyKept(setup: Setup, w: World, a: Event)
    requires Kept(setup, w) && Enabled(w, a)
    ensures Kept(setup, Apply(setup, w, a))
  {
    ApplySound(setup, w, a);
    ApplyHolding(setup, w, a);
  }

  lemma BodyStepSound(setup: Setup, w: World, t: Engine.Ticket, b: Beat)
    requires Kept(setup, w) && Steppable(w, t, b)
    ensures Sound(setup, Stepped(w, t, b))
  {
    assert !w.bodies[t].stage.Entering? ==> BodyHolds(w, w.bodies[t]);
    StepSound(setup, w, t, b);
  }

  lemma ApplySound(setup: Setup, w: World, a: Event)
    requires Kept(setup, w) && Enabled(w, a)
    ensures Sound(setup, Apply(setup, w, a))
  {
    if a.RepairCycle? {
      RepairSound(setup, w);
    } else if a.Step? {
      BodyStepSound(setup, w, a.t, a.beat);
    } else if a.Deliver? || a.Resume? {
      EngineActionSound(setup, w, a);
    } else if a.Pass? || a.Cancel? || a.Heartbeat? {
      OutsideActionSound(setup, w, a);
    } else {
      CheckActionSound(setup, w, a);
    }
  }

  lemma OutsideActionSound(setup: Setup, w: World, a: Event)
    requires Sound(setup, w) && Enabled(w, a)
    requires a.Pass? || a.Cancel? || a.Heartbeat?
    ensures Sound(setup, Apply(setup, w, a))
  {
    if a.Pass? {
      PassSound(setup, w, a.elapsed);
    } else if a.Cancel? {
      CancelSound(setup, w, a.id);
    } else {
      HeartbeatActionSound(setup, w, a.t);
    }
  }

  lemma HeartbeatActionSound(setup: Setup, w: World, t: Engine.Ticket)
    requires Enabled(w, Heartbeat(t)) && Sound(setup, w)
    ensures Sound(setup, Apply(setup, w, Heartbeat(t)))
  {
    HeartbeatApplies(setup, w, t);
    HeartbeatSound(setup, w, w.bodies[t].origin.job);
  }

  lemma HeartbeatApplies(setup: Setup, w: World, t: Engine.Ticket)
    requires Enabled(w, Heartbeat(t))
    ensures var job := w.bodies[t].origin.job;
      Apply(setup, w, Heartbeat(t)) == w.(locks := LockTable.Refreshed(w.locks, job.project, job.id, w.now))
  {
  }

  lemma {:induction false} RunKept(setup: Setup, w: World, actions: seq<Event>)
    requires Kept(setup, w) && Feasible(setup, w, actions)
    ensures Kept(setup, Run(setup, w, actions))
    decreases |actions|
  {
    if actions != [] {
      ApplyKept(setup, w, actions[0]);
      RunKept(setup, Apply(setup, w, actions[0]), actions[1..]);
    }
  }

  ghost predicate Reachable(setup: Setup, w: World)
  {
    exists start, actions :: Initial(start) && Feasible(setup, start, actions) && w == Run(setup, start, actions)
  }

  lemma ReachableKept(setup: Setup, w: World)
    requires Reachable(setup, w)
    ensures Kept(setup, w)
  {
    var start, actions :| Initial(start) && Feasible(setup, start, actions) && w == Run(setup, start, actions);
    InitialSound(setup, start);
    RunKept(setup, start, actions);
  }

  lemma ReachableSound(setup: Setup, w: World)
    requires Reachable(setup, w)
    ensures Sound(setup, w)
  {
    ReachableKept(setup, w);
  }

  // Serial execution

  predicate SameProject(w: World, t: Engine.Ticket, u: Engine.Ticket)
    requires t in w.bodies && u in w.bodies
  {
    w.bodies[t].origin.job.project == w.bodies[u].origin.job.project
  }

  /** At most one body per project, entered in delivery order, each deployment once; a project has a chain entry exactly
      while it has an unfinished task; and exactly the unfinished deployments are registered as running. */
  lemma BodiesAreSerial(setup: Setup, w: World)
    requires Reachable(setup, w)
    ensures forall t, u :: t in w.bodies && u in w.bodies && SameProject(w, t, u) ==> t == u
    ensures Engine.Ordered(w.engine.entered)
    ensures forall i, j :: 0 <= i < j < |w.engine.entered| ==> w.engine.entered[i].id != w.engine.entered[j].id
    ensures forall p :: p in w.engine.chains <==> exists t :: t in w.engine.tasks && w.engine.tasks[t].project == p
    ensures w.engine.running == Engine.Ids(w.engine.tasks)
  {
    ReachableSound(setup, w);
    forall t, u | t in w.bodies && u in w.bodies && SameProject(w, t, u)
      ensures t == u
    {
      if t != u {
        BodiesDiffer(w, t, u);
      }
    }
  }

  // Superseding

  /** Seen by the pipeline, every body of the daemon is in a state that its own state machine can reach; so whatever
      holds of all runs of the pipeline holds of every deployment of the daemon. */
  lemma BodiesArePipelineRuns(setup: Setup, w: World, t: Engine.Ticket)
    requires Reachable(setup, w) && t in w.bodies
    ensures PipelineRuns.Reachable(w.bodies[t].origin, View(w, w.bodies[t]))
  {
    ReachableSound(setup, w);
  }

  /** A newer deployment neither aborts nor cancels one that has changed the live service, nor one that is rolling back. */
  lemma SupersedeSparesCritical(setup: Setup, w: World, project: Project, t: Engine.Ticket)
    requires Reachable(setup, w) && t in w.bodies
    requires var c := View(w, w.bodies[t]);
      (c.status == Some(Running) && IsServiceAffected(c.progress)) || c.status == Some(RollingBack)
    ensures View(WithoutPending(w, project), w.bodies[t]) == View(w, w.bodies[t])
    ensures StatusOf(w.rows, w.bodies[t].origin.job.id) == Some(Running) ==>
      w.bodies[t].origin.job.id in Registry.CriticalIds(w.registry, w.bodies[t].origin.job.project)
  {
    ReachableSound(setup, w);
    BodyMatches(w, t);
    SupersededView(w, project, w.bodies[t]);
    SparedByPipeline(w.bodies[t].origin, View(w, w.bodies[t]));
  }

  lemma SparedByPipeline(o: PipelineSafety.Origin, c: Cell)
    requires PipelineRuns.Reachable(o, c)
    requires (c.status == Some(Running) && IsServiceAffected(c.progress)) || c.status == Some(RollingBack)
    ensures Disturbed(c, Supersede) == c
    ensures c.status == Some(Running) ==> c.controller == Some(true)
  {
    PipelineRuns.SupersedeSparesCritical(o, c);
  }

  // Locks

  /** In every reachable state, every body that has entered holds the lock of its project, whatever the heartbeats,
      cancels and self-repair cycles so far, and none is waiting for it. */
  lemma BodyHoldsLock(setup: Setup, w: World, t: Engine.Ticket)
    requires Reachable(setup, w) && t in w.bodies && !w.bodies[t].stage.Entering?
    ensures w.bodies[t].lockAcquired && !w.bodies[t].stage.AcquiringLock?
    ensures LockTable.Holds(w.locks, w.bodies[t].origin.job.project, w.bodies[t].origin.job.id)
  {
    ReachableKept(setup, w);
    assert BodyHolds(w, w.bodies[t]);
    HasStoppedWaiting(w.bodies[t].origin, View(w, w.bodies[t]));
  }

  lemma HasStoppedWaiting(o: PipelineSafety.Origin, c: Cell)
    requires PipelineRuns.Reachable(o, c) && c.lockAcquired
    ensures !c.stage.AcquiringLock?
  {
    PipelineRuns.ReachableInv(o, c);
  }

  /** The lock of a finished run never blocks the next: in every reachable state the first attempt of a body that enters
      succeeds, so within one daemon the polling loop never waits. */
  lemma LockIsTakenAtOnce(setup: Setup, w: World, t: Engine.Ticket, b: Beat)
    requires Reachable(setup, w) && Steppable(w, t, b) && w.bodies[t].stage.Entering?
    requires b.projectKnown && StatusOf(w.rows, w.bodies[t].origin.job.id) != Some(Cancelled)
    ensures var w' := Stepped(w, t, b);
      && t in w'.bodies && w'.bodies[t].stage.Preflight? && w'.bodies[t].lockAcquired
      && LockTable.Holds(w'.locks, w.bodies[t].origin.job.project, w.bodies[t].origin.job.id)
  {
    ReachableKept(setup, w);
    StepTakesLock(w, t, b);
    EntryStepTakesLock(w, t, b);
  }

  /** A lock without a body is held under a row that is there and final, so that anyone may take it: retention never
      deletes the row of a holder and leaves its lock. */
  lemma IdleLockIsTakeable(setup: Setup, w: World, p: Project)
    requires Reachable(setup, w) && p in w.locks && !LockBody(w, w.locks[p].lockedBy, p)
    ensures LockTable.HolderFinished(w.rows, w.locks[p].lockedBy)
    ensures LockTable.Takeable(w.locks[p], w.rows, w.now, LockTable.LOCK_TIMEOUT_MS)
  {
    ReachableKept(setup, w);
    assert LockOk(w, p, w.locks[p].lockedBy);
  }

  // Queue modes

  lemma OneUnderWay(w: World, project: Project, a: Id, b: Id)
    requires EngineOk(w) && JobsOk(w) && RowsOwned(w) && RegistryOk(w)
    requires a in w.rows && w.rows[a].project == project && UnderWay(w.rows[a].status)
    requires b in w.rows && w.rows[b].project == project && UnderWay(w.rows[b].status)
    ensures a == b
  {
    assert HasBody(w, a) && HasBody(w, b);
    var t :| Runs(w, t, a);
    var u :| Runs(w, u, b);
    BodyMatches(w, t);
    BodyMatches(w, u);
    if t != u {
      BodiesDiffer(w, t, u);
    }
  }

  /** Active deployments of a project are of different commits; under `reject` there is at most one, under `latest` at
      most one is queued and at most two are active. */
  lemma QueueModesHold(setup: Setup, w: World, project: Project)
    requires Reachable(setup, w)
    ensures var active := Deployments.ActiveOf(w.rows, project);
      && (forall a, b :: a in active && b in active && a != b ==>
            !Deployments.SameCommit(w.rows[a].targetSha, w.rows[b].targetSha))
      && (setup.config(project).queueMode.Reject? ==> |active| <= 1)
      && (setup.config(project).queueMode.Latest? ==>
            |set id | id in active && w.rows[id].status.Queued?| <= 1 && |active| <= 2)
  {
    QueueFacts(setup, w, project);
    var active := Deployments.ActiveOf(w.rows, project);
    var queued := set id | id in active && w.rows[id].status.Queued?;
    var underWay := active - queued;
    forall a, b | a in underWay && b in underWay
      ensures a == b
    {
      ReachableUnderWay(setup, w, project, a, b);
    }
    AtMostOne(underWay);
    if setup.config(project).queueMode.Reject? {
      AtMostOne(active);
    }
    if setup.config(project).queueMode.Latest? {
      AtMostOne(queued);
      assert active == underWay + queued;
    }
  }

  lemma QueueFacts(setup: Setup, w: World, project: Project)
    requires Reachable(setup, w)
    ensures forall a, b :: a in Deployments.ActiveOf(w.rows, project) && b in Deployments.ActiveOf(w.rows, project) && a != b ==>
      && !Deployments.SameCommit(w.rows[a].targetSha, w.rows[b].targetSha)
      && !setup.config(project).queueMode.Reject?
      && !(setup.config(project).queueMode.Latest? && w.rows[a].status.Queued? && w.rows[b].status.Queued?)
  {
    ReachableSound(setup, w);
    assert QueueOk(setup, w);
    assert forall id :: id in Deployments.ActiveOf(w.rows, project) && w.rows[id].status.Queued? ==> QueuedOf(w.rows, project, id);
  }

  lemma ReachableUnderWay(setup: Setup, w: World, project: Project, a: Id, b: Id)
    requires Reachable(setup, w)
    requires a in w.rows && w.rows[a].project == project && UnderWay(w.rows[a].status)
    requires b in w.rows && w.rows[b].project == project && UnderWay(w.rows[b].status)
    ensures a == b
  {
    ReachableSound(setup, w);
    OneUnderWay(w, project, a, b);
  }

  lemma AtMostOne(ids: set<Id>)
    requires forall a, b :: a in ids && b in ids ==> a == b
    ensures |ids| <= 1
  {
    if ids != {} {
      var id :| id in ids;
      assert ids == {id};
    }
  }

  // The watchdog

  /** Every delivered and unfinished deployment, even one still waiting in its chain, is left alone by the self-repair
      cycle: an active row stays as it is, and the lock it holds stays. And no row that is under way is ever failed. */
  lemma RepairLeavesUnfinishedAlone(setup: Setup, w: World, t: Engine.Ticket)
    requires Reachable(setup, w) && t in w.engine.tasks
    ensures var id, w' := w.engine.tasks[t].id, Repaired(setup, w);
      && (id in w.rows && Active(w.rows[id].status) ==> id in w'.rows && w'.rows[id] == w.rows[id])
      && (id in w'.rows ==> id in w.rows && w'.rows[id] == w.rows[id])
      && (forall p :: LockTable.Holds(w.locks, p, id) ==> p in w'.locks && w'.locks[p] == w.locks[p])
  {
    var id := w.engine.tasks[t].id;
    TaskIsRunning(setup, w, t);
    RepairRows(setup, w, id);
    forall p | LockTable.Holds(w.locks, p, id)
      ensures p in Repaired(setup, w).locks && Repaired(setup, w).locks[p] == w.locks[p]
    {
      RepairLocks(setup, w, p);
    }
  }

  lemma TaskIsRunning(setup: Setup, w: World, t: Engine.Ticket)
    requires Reachable(setup, w) && t in w.engine.tasks
    ensures w.engine.tasks[t].id in w.engine.running
  {
    ReachableSound(setup, w);
  }

  lemma RepairFailsNothingUnderWay(setup: Setup, w: World, id: Id)
    requires Reachable(setup, w) && id in w.rows && UnderWay(w.rows[id].status)
    ensures id in Repaired(setup, w).rows && Repaired(setup, w).rows[id] == w.rows[id]
  {
    ReachableSound(setup, w);
    var t :| Runs(w, t, id);
    BodyIsRunning(w, t);
    RepairRows(setup, w, id);
  }

  /** What one self-repair cycle does to the row of a deployment that no worker owns. A queued one fails exactly when it is
      older than fifteen minutes and a worker is free; one that is running or rolling back fails exactly when it has been
      for longer than that. A failed row is completed now, and may be deleted by the retention that follows; every other
      active row is left as it is. */
  lemma WatchdogActsByAge(setup: Setup, w: World, id: Id)
    requires Enabled(w, RepairCycle) && id in w.rows && id !in w.engine.running && Active(w.rows[id].status)
    ensures var row, rows' := w.rows[id], Apply(setup, w, RepairCycle).rows;
      var since := if !row.status.Queued? && row.startedAt.Some? then row.startedAt.value else row.createdAt;
      if w.now - since > 15 * 60 * 1000 && (row.status.Queued? ==> |w.engine.running| < setup.concurrency)
      then id in rows' ==> rows'[id] == row.(status := Failed, completedAt := Some(w.now))
      else id in rows' && rows'[id] == row
  {
    RetainedRows(FailedRows(setup, w), w.now, id);
  }

  /** And a finished row stays as it is, or is deleted: exactly when it is older than thirty days or, once the overdue rows
      have failed, a hundred finished rows of its project are newer. */
  lemma CycleKeepsRecentRows(setup: Setup, w: World, id: Id)
    requires Enabled(w, RepairCycle) && id in w.rows && !Active(w.rows[id].status)
    ensures var row, rows' := w.rows[id], Apply(setup, w, RepairCycle).rows;
      && (id in rows' ==> rows'[id] == row)
      && (id in rows' <==>
            && w.now - row.createdAt <= 30 * 24 * 60 * 60 * 1000
            && |Deployments.NewerThan(FailedRows(setup, w), Deployments.FinishedOf(FailedRows(setup, w), row.project), id)| < 100)
  {
    var failed := FailedRows(setup, w);
    RetainedRows(failed, w.now, id);
    assert failed[id] == w.rows[id];
    RetainedExactly(failed, id, w.now);
  }

  /** What is newer than a young row is young, so that the age rule does not change its rank. */
  lemma RetainedExactly(rows: Rows, id: Id, now: Millis)
    requires id in rows && !Active(rows[id].status)
    ensures id in Deployments.Retained(rows, None, Some(KEEP_ROWS), Some(KEEP_DAYS), now) <==>
      && now - rows[id].createdAt <= 30 * 24 * 60 * 60 * 1000
      && |Deployments.NewerThan(rows, Deployments.FinishedOf(rows, rows[id].project), id)| < KEEP_ROWS
  {
    var young := rows - Deployments.TooOld(rows, None, Some(KEEP_DAYS), now);
    if id in young {
      assert Deployments.NewerThan(young, Deployments.FinishedOf(young, rows[id].project), id)
          == Deployments.NewerThan(rows, Deployments.FinishedOf(rows, rows[id].project), id);
    }
  }

  // A deployment that is not queued any more never enters

  ghost predicate PassedOver(w: World, id: Id)
  {
    id in w.used && StatusOf(w.rows, id) != Some(Queued) && id !in EnteredIds(w.engine)
  }

  /** What any action can do to the set of queued rows, and to the entries. */
  ghost predicate NothingRevived(w: World, w': World)
  {
    && w.used <= w'.used
    && (forall id :: id in w.used && StatusOf(w'.rows, id) == Some(Queued) ==> StatusOf(w.rows, id) == Some(Queued))
    && (forall id :: id in EnteredIds(w'.engine) ==>
          id in EnteredIds(w.engine) || StatusOf(w.rows, id) == Some(Queued))
  }

  lemma ResumeRevivesNothing(setup: Setup, w: World, t: Engine.Ticket)
    requires Engine.Ready(w.engine, t) && w.engine.tasks[t].id in w.jobs
    requires w.jobs[w.engine.tasks[t].id].id == w.engine.tasks[t].id
    ensures NothingRevived(w, Resumed(setup, w, t))
  {
    ResumeEntries(w, t);
    var queued := StatusOf(w.rows, w.engine.tasks[t].id) == Some(Queued);
    EntriesReviveNothing(w, Resumed(setup, w, t), if queued then {w.engine.tasks[t].id} else {});
  }

  lemma EntriesReviveNothing(w: World, w': World, ids: set<Id>)
    requires w'.rows == w.rows && w'.used == w.used && EnteredIds(w'.engine) == EnteredIds(w.engine) + ids
    requires forall id :: id in ids ==> StatusOf(w.rows, id) == Some(Queued)
    ensures NothingRevived(w, w')
  {
  }

  lemma ResumeEntries(w: World, t: Engine.Ticket)
    requires t in w.engine.tasks
    ensures EnteredIds(Engine.Resumed(w.engine, t, true)) == EnteredIds(w.engine) + {w.engine.tasks[t].id}
    ensures EnteredIds(Engine.Resumed(w.engine, t, false)) == EnteredIds(w.engine)
  {
    var e := Engine.Entry(t, w.engine.tasks[t].id, w.engine.tasks[t].project);
    EnteredNext(w.engine, e);
    assert EnteredIds(Engine.Resumed(w.engine, t, true)) == EnteredIds(w.engine.(entered := w.engine.entered + [e]));
  }

  lemma WriteRevivesNothing(w: World, t: Engine.Ticket, c: Cell)
    requires t in w.bodies && PipelineRuns.StatusSteps(View(w, w.bodies[t]).status, c.status)
    ensures NothingRevived(w, Written(w, t, c))
  {
    WrittenRows(w, t, c);
  }

  lemma StepRevivesNothing(w: World, t: Engine.Ticket, b: Beat)
    requires Steppable(w, t, b) && PipelineRuns.Reachable(w.bodies[t].origin, View(w, w.bodies[t]))
    ensures NothingRevived(w, Stepped(w, t, b))
  {
    StepSharesStatus(w, t, b);
    WriteRevivesNothing(w, t, NextCell(w, t, b));
    SameRowsRevive(w, Written(w, t, NextCell(w, t, b)), Stepped(w, t, b));
  }

  lemma StepSharesStatus(w: World, t: Engine.Ticket, b: Beat)
    requires Steppable(w, t, b) && PipelineRuns.Reachable(w.bodies[t].origin, View(w, w.bodies[t]))
    ensures PipelineRuns.StatusSteps(View(w, w.bodies[t]).status, NextCell(w, t, b).status)
  {
    PipelineRuns.ReachableInv(w.bodies[t].origin, View(w, w.bodies[t]));
    PipelineRuns.AdvanceShares(w.bodies[t].origin, View(w, w.bodies[t]), b);
  }

  lemma SameRowsRevive(w: World, middle: World, w': World)
    requires NothingRevived(w, middle) && w'.used == middle.used && w'.rows == middle.rows
    requires w'.engine.entered == middle.engine.entered
    ensures NothingRevived(w, w')
  {
  }

  lemma RepairRevivesNothing(setup: Setup, w: World)
    ensures NothingRevived(w, Repaired(setup, w))
  {
    forall id
      ensures id in RepairedRows(setup, w) ==> id in w.rows && RowDrifts(w.rows[id], RepairedRows(setup, w)[id])
    {
      RepairRows(setup, w, id);
    }
  }

  lemma CreatedRevivesNothing(w: World, project: Project, id: Id, sha: Sha, shas: Watcher.Shas)
    requires id !in w.used
    ensures NothingRevived(w, Created(w, project, id, sha, shas))
  {
  }

  lemma SupersedeRevivesNothing(w: World, project: Project, checks: map<Project, Check>)
    ensures NothingRevived(w, WithoutPending(w, project).(checks := checks))
  {
  }

  lemma DecideRevivesNothing(setup: Setup, w: World, project: Project, sha: Sha, id: Id)
    requires Enabled(w, DecideCheck(project, sha, id))
    ensures NothingRevived(w, Decided(setup, w, project, sha, id))
  {
    CreatedRevivesNothing(w, project, id, sha, w.checks[project].shas);
    SupersedeRevivesNothing(w, project, w.checks[project := Creating(sha, w.checks[project].shas)]);
    var w' := Decided(setup, w, project, sha, id);
    if w'.used == w.used && w'.rows == w.rows {
      EntriesReviveNothing(w, w', {});
    }
  }

  lemma CheckRevivesNothing(setup: Setup, w: World, a: Event)
    requires Enabled(w, a)
    requires a.BeginCheck? || a.CreateRow? || a.EnqueueJob? || a.AbandonCheck?
    ensures NothingRevived(w, Apply(setup, w, a))
  {
  }

  lemma OtherRevivesNothing(setup: Setup, w: World, a: Event)
    requires Enabled(w, a)
    requires a.Pass? || a.Heartbeat? || a.Cancel? || a.Deliver?
    ensures NothingRevived(w, Apply(setup, w, a))
  {
  }

  lemma TurnRevivesNothing(setup: Setup, w: World, t: Engine.Ticket)
    requires Resumable(w, t) && JobsOk(w)
    ensures NothingRevived(w, Resumed(setup, w, t))
  {
    ResumeRevivesNothing(setup, w, t);
  }

  lemma MoveRevivesNothing(w: World, t: Engine.Ticket, b: Beat)
    requires Steppable(w, t, b) && CellsOk(w)
    ensures NothingRevived(w, Stepped(w, t, b))
  {
    StepRevivesNothing(w, t, b);
  }

  lemma ApplyRevivesNothing(setup: Setup, w: World, a: Event)
    requires Sound(setup, w) && Enabled(w, a)
    ensures NothingRevived(w, Apply(setup, w, a))
  {
    if a.Resume? {
      TurnRevivesNothing(setup, w, a.t);
    } else if a.Step? {
      MoveRevivesNothing(w, a.t, a.beat);
    } else if a.RepairCycle? {
      RepairRevivesNothing(setup, w);
    } else if a.DecideCheck? {
      DecideRevivesNothing(setup, w, a.project, a.sha, a.id);
    } else if a.Pass? || a.Heartbeat? || a.Cancel? || a.Deliver? {
      OtherRevivesNothing(setup, w, a);
    } else {
      CheckRevivesNothing(setup, w, a);
    }
  }

  lemma {:induction false} PassedOverNeverEnters(setup: Setup, w: World, actions: seq<Event>, id: Id)
    requires Kept(setup, w) && Feasible(setup, w, actions) && PassedOver(w, id)
    ensures PassedOver(Run(setup, w, actions), id)
    decreases |actions|
  {
    if actions != [] {
      ApplyKept(setup, w, actions[0]);
      ApplyRevivesNothing(setup, w, actions[0]);
      PassedOverNeverEnters(setup, Apply(setup, w, actions[0]), actions[1..], id);
    }
  }

  lemma EnteredQueuedIsRunning(w: World, id: Id)
    requires EngineOk(w) && JobsOk(w) && EntriesOk(w) && id in EnteredIds(w.engine) && StatusOf(w.rows, id) == Some(Queued)
    ensures id in w.engine.running
  {
    var t :| Runs(w, t, id) && w.bodies[t].stage.Entering?;
    BodyIsRunning(w, t);
  }

  lemma LostIsPassedOver(setup: Setup, w: World, id: Id)
    requires EngineOk(w) && JobsOk(w) && EntriesOk(w) && id in w.rows && w.rows[id].status.Queued?
    requires StatusOf(Repaired(setup, w).rows, id) != Some(Queued)
    ensures id !in w.engine.running && PassedOver(Repaired(setup, w), id)
  {
    RepairRows(setup, w, id);
    if id in EnteredIds(w.engine) {
      EnteredQueuedIsRunning(w, id);
    }
  }

  /** A queued row that the self-repair cycle fails is never executed, whatever is delivered later. */
  lemma LostJobsStayLost(setup: Setup, w: World, id: Id, actions: seq<Event>)
    requires Reachable(setup, w) && Enabled(w, RepairCycle) && id in w.rows && w.rows[id].status.Queued?
    requires StatusOf(Repaired(setup, w).rows, id) != Some(Queued) && Feasible(setup, Repaired(setup, w), actions)
    ensures id !in w.engine.running
    ensures id !in EnteredIds(Run(setup, Repaired(setup, w), actions).engine)
  {
    ReachableKept(setup, w);
    LostIsPassedOver(setup, w, id);
    ApplyKept(setup, w, RepairCycle);
    PassedOverNeverEnters(setup, Repaired(setup, w), actions, id);
  }
}
