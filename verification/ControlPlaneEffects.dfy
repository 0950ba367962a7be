/** What single actions of the daemon do to the shared state, row by row: checks, supersedes, heartbeats and deliveries. */
module ControlPlaneEffects {
  import opened Records
  import opened ControlPlane
  import Deployments
  import Engine
  import LockTable
  import Pipeline
  import Registry
  import Watcher

  /** The deployment is registered for the project and has started changing the live service. */
  predicate Critical(w: World, project: Project, id: Id)
  {
    id in w.registry.controllers && w.registry.controllers[id].project == project && w.registry.controllers[id].critical
  }

  /** Superseding a project cancels exactly its queued and running rows that are not critical, now, and aborts exactly its
      registered deployments that are not critical. */
  lemma SupersedeCancelsExactly(w: World, project: Project, id: Id)
    ensures var w' := WithoutPending(w, project);
      && w'.rows.Keys == w.rows.Keys
      && (id in w.rows ==>
            var row := w.rows[id];
            w'.rows[id] == if row.project == project && (row.status.Queued? || row.status.Running?) && !Critical(w, project, id)
                           then row.(status := Cancelled, completedAt := Some(w.now)) else row)
      && (id in w'.registry.aborted <==>
            || id in w.registry.aborted
            || (id in w.registry.controllers && w.registry.controllers[id].project == project && !Critical(w, project, id)))
      && (id in w'.registry.controllers <==>
            id in w.registry.controllers && (w.registry.controllers[id].project != project || Critical(w, project, id)))
  {
  }

  /** A deployment that is about to be delivered for the first time. */
  ghost predicate Waiting(w: World, project: Project, sha: Sha, id: Id, shas: Watcher.Shas, now: Millis)
  {
    var previous := shas.lastSuccessful;
    && id in w.rows && w.rows[id] == Row(project, previous, sha, Queued, false, now, None, None)
    && id in w.jobs && w.jobs[id] == Pipeline.Job(id, project, previous, sha, false)
    && Enabled(w, Deliver(id)) && project !in w.checks && id in w.used && ShasOf(w, project).lastSeen == Some(sha)
  }

  lemma CreatedIsEnqueued(setup: Setup, w: World, project: Project, sha: Sha, id: Id, shas: Watcher.Shas)
    ensures var created := Created(w, project, id, sha, shas);
      && Feasible(setup, created, [EnqueueJob(project)])
      && Waiting(Run(setup, created, [EnqueueJob(project)]), project, sha, id, shas, w.now)
  {
    OneEvent(setup, Created(w, project, id, sha, shas), EnqueueJob(project));
  }

  lemma CreatingIsCreated(setup: Setup, w: World, project: Project, sha: Sha, id: Id, shas: Watcher.Shas)
    requires project in w.checks && w.checks[project] == Creating(sha, shas) && id !in w.used
    ensures Feasible(setup, w, [CreateRow(project, id), EnqueueJob(project)])
    ensures Waiting(Run(setup, w, [CreateRow(project, id), EnqueueJob(project)]), project, sha, id, shas, w.now)
  {
    CreatedIsEnqueued(setup, w, project, sha, id, shas);
    assert [CreateRow(project, id), EnqueueJob(project)][1..] == [EnqueueJob(project)];
  }

  /** A check that decides to deploy leads, by its own next steps, to a queued row of the commit, created now, to a job for
      it that can be delivered, and to the commit being noted as seen; and the check is over. */
  lemma DeployLeadsToJob(setup: Setup, w: World, project: Project, sha: Sha, id: Id) returns (more: seq<Event>)
    requires Enabled(w, DecideCheck(project, sha, id))
    requires Watcher.Decide(w.rows, project, w.checks[project].shas, w.checks[project].trigger, sha,
                            setup.config(project).queueMode, w.now).Deploy?
    ensures var decided := Apply(setup, w, DecideCheck(project, sha, id));
      && Feasible(setup, decided, more)
      && Waiting(Run(setup, decided, more), project, sha, id, w.checks[project].shas, w.now)
  {
    var decided := Decided(setup, w, project, sha, id);
    if decided.checks[project].Creating? {
      more := [CreateRow(project, id), EnqueueJob(project)];
      CreatingIsCreated(setup, decided, project, sha, id, w.checks[project].shas);
    } else {
      more := [EnqueueJob(project)];
      CreatedIsEnqueued(setup, w, project, sha, id, w.checks[project].shas);
    }
  }

  lemma OneEvent(setup: Setup, w: World, a: Event)
    requires Enabled(w, a)
    ensures Feasible(setup, w, [a]) && Run(setup, w, [a]) == Apply(setup, w, a)
  {
    assert [a][1..] == [];
  }

  /** A check that decides against it is over, and changes nothing but, where it says so, the commit last seen. */
  lemma SkipChangesLittle(setup: Setup, w: World, project: Project, sha: Sha, id: Id)
    requires Enabled(w, DecideCheck(project, sha, id))
    requires Watcher.Decide(w.rows, project, w.checks[project].shas, w.checks[project].trigger, sha,
                            setup.config(project).queueMode, w.now).Skip?
    ensures var d := Watcher.Decide(w.rows, project, w.checks[project].shas, w.checks[project].trigger, sha,
                                    setup.config(project).queueMode, w.now);
      var w' := Apply(setup, w, DecideCheck(project, sha, id));
      && w' == w.(checks := w'.checks, shas := w'.shas) && project !in w'.checks
      && ShasOf(w', project) == (if d.markSeen then ShasOf(w, project).(lastSeen := Some(sha)) else ShasOf(w, project))
      && forall p :: p != project ==> ShasOf(w', p) == ShasOf(w, p)
  {
  }

  /** A body that returns is gone with its task, its deployment may be delivered again, and whoever waited for it may go
      on; any other step of a body keeps all of them. */
  lemma ReturnEndsTask(setup: Setup, w: World, t: Engine.Ticket, beat: Pipeline.Beat)
    requires Enabled(w, Step(t, beat))
    ensures var body := w.bodies[t];
      var isOver := Pipeline.Advance(body.origin.job, body.origin.config, View(w, body), beat).stage.Returned?;
      var w' := Apply(setup, w, Step(t, beat));
      if isOver then
        && t !in w'.bodies && t !in w'.engine.tasks && w.engine.tasks[t].id !in w'.engine.running
        && forall u: Engine.Ticket | u in w'.engine.tasks && !w'.engine.tasks[u].started
             && w'.engine.tasks[u].previous == Some(t) :: Engine.Ready(w'.engine, u)
      else t in w'.bodies && w'.engine == w.engine
  {
  }

  /** The self-repair cycle removes exactly the locks whose holder no worker owns and that are older than five minutes or
      held by a deployment that has finished. */
  lemma CyclePrunesLocks(setup: Setup, w: World, p: Project)
    requires Enabled(w, RepairCycle)
    ensures var locks := Apply(setup, w, RepairCycle).locks;
      && (p in locks ==> p in w.locks && locks[p] == w.locks[p])
      && (p in w.locks ==>
            var lock := w.locks[p];
            (p in locks <==>
              || lock.lockedBy in w.engine.running
              || (&& w.now - lock.lockedAt <= 5 * 60 * 1000
                  && !(lock.lockedBy in w.rows && Terminal(w.rows[lock.lockedBy].status)))))
  {
  }

  /** A heartbeat renews the lock its body holds, to now, and no other. */
  lemma HeartbeatRenewsLock(setup: Setup, w: World, t: Engine.Ticket, p: Project)
    requires Enabled(w, Heartbeat(t)) && LockTable.Holds(w.locks, w.bodies[t].origin.job.project, w.bodies[t].origin.job.id)
    ensures var job, locks := w.bodies[t].origin.job, Apply(setup, w, Heartbeat(t)).locks;
      && job.project in locks && locks[job.project] == LockTable.Lock(job.id, w.now)
      && (p != job.project ==> (p in locks <==> p in w.locks) && (p in locks ==> locks[p] == w.locks[p]))
  {
  }
}
