/** What every interleaving of the daemon's actions keeps. */
module ControlPlaneSafety {
  import opened Records
  import opened Pipeline
  import opened ControlPlane
  import Deployments
  import Engine
  import LockTable
  import PipelineRuns
  import PipelineSafety
  import Registry
  import Releases
  import Watcher

  /** Deployments that have entered `runDeployment`. */
  function EnteredIds(s: Engine.State): set<Id>
  {
    set i | 0 <= i < |s.entered| :: s.entered[i].id
  }

  predicate Runs(w: World, t: Engine.Ticket, id: Id)
  {
    t in w.bodies && w.bodies[t].origin.job.id == id
  }

  ghost predicate HasBody(w: World, id: Id)
  {
    exists t :: Runs(w, t, id)
  }

  ghost predicate EngineOk(w: World)
  {
    && Engine.Inv(w.engine)
    && (forall t :: t in w.bodies <==> t in w.engine.tasks && w.engine.tasks[t].started)
  }

  ghost predicate JobsOk(w: World)
  {
    && (forall id :: id in w.jobs ==> w.jobs[id].id == id && id in w.used)
    && (forall id :: id in w.rows ==> id in w.used && w.rows[id].targetSha != "")
    && (forall id :: id in w.jobs && id in w.rows ==> w.rows[id].project == w.jobs[id].project)
    && (forall t :: t in w.engine.tasks ==> TaskOk(w, w.engine.tasks[t]))
    && (forall t :: t in w.bodies ==> t in w.engine.tasks && w.bodies[t].origin.job == w.jobs[w.engine.tasks[t].id])
    && EnteredIds(w.engine) <= w.jobs.Keys
  }

  predicate TaskOk(w: World, task: Engine.Task)
  {
    task.id in w.jobs && w.jobs[task.id].project == task.project
  }

  /** Every body is in a state that the pipeline's own state machine can reach. */
  ghost predicate CellsOk(w: World)
  {
    forall t :: t in w.bodies ==> PipelineRuns.Reachable(w.bodies[t].origin, View(w, w.bodies[t]))
  }

  predicate UnderWay(s: Status)
  {
    s.Running? || s.RollingBack?
  }

  ghost predicate RowsOwned(w: World)
  {
    forall id :: id in w.rows && UnderWay(w.rows[id].status) ==> HasBody(w, id)
  }

  ghost predicate EntersNow(w: World, id: Id)
  {
    exists t :: Runs(w, t, id) && w.bodies[t].stage.Entering?
  }

  /** A deployment enters once: after that its row is not queued, but for the moment of entering. */
  ghost predicate EntriesOk(w: World)
  {
    && (forall i, j :: 0 <= i < j < |w.engine.entered| ==> w.engine.entered[i].id != w.engine.entered[j].id)
    && (forall t :: t in w.bodies ==> w.bodies[t].origin.job.id in EnteredIds(w.engine))
    && (forall id :: id in EnteredIds(w.engine) && StatusOf(w.rows, id) == Some(Queued) ==> EntersNow(w, id))
  }

  ghost predicate RegistryOk(w: World)
  {
    && w.registry.aborted <= EnteredIds(w.engine)
    && (forall id :: id in w.registry.controllers ==>
          && id in EnteredIds(w.engine) && id in w.jobs
          && w.registry.controllers[id].project == w.jobs[id].project
          && (w.registry.controllers[id].critical ==> HasBody(w, id)))
  }

  ghost predicate LockBody(w: World, id: Id, project: Project)
  {
    exists t :: Runs(w, t, id) && w.bodies[t].origin.job.project == project
  }

  /** A lock is held by a body of its project, or by a deployment of the project whose row is there and final. */
  ghost predicate LockOk(w: World, p: Project, holder: Id)
  {
    && holder in EnteredIds(w.engine) && holder in w.jobs && w.jobs[holder].project == p
    && (LockBody(w, holder, p) || LockTable.HolderFinished(w.rows, holder))
  }

  ghost predicate LocksOk(w: World)
  {
    forall p :: p in w.locks ==> LockOk(w, p, w.locks[p].lockedBy)
  }

  predicate BodyHolds(w: World, b: Body)
  {
    b.lockAcquired && LockTable.Holds(w.locks, b.origin.job.project, b.origin.job.id) && !b.stage.Returned?
  }

  /** Every body that has entered holds the lock of its project. */
  ghost predicate Holding(w: World)
  {
    forall t :: t in w.bodies && !w.bodies[t].stage.Entering? ==> BodyHolds(w, w.bodies[t])
  }

  ghost predicate HostsOk(w: World)
  {
    forall p :: p in w.hosts ==>
      Releases.Safe(w.hosts[p].store) && w.hosts[p].store.releases.Keys <= EnteredIds(w.engine)
  }

  predicate QueuedOf(rows: Rows, project: Project, id: Id)
  {
    id in rows && rows[id].project == project && rows[id].status.Queued?
  }

  /** A deployment of the commit may be created now. */
  ghost predicate Clear(setup: Setup, w: World, project: Project, sha: Sha)
  {
    && sha != ""
    && (forall id :: id in Deployments.ActiveOf(w.rows, project) ==> !Deployments.SameCommit(w.rows[id].targetSha, sha))
    && (setup.config(project).queueMode.Reject? ==> Deployments.ActiveOf(w.rows, project) == {})
    && (setup.config(project).queueMode.Latest? ==> forall id :: !QueuedOf(w.rows, project, id))
  }

  ghost predicate CheckOk(setup: Setup, w: World, project: Project)
    requires project in w.checks
  {
    match w.checks[project]
    case Fetching(_, _) => true
    case Creating(sha, _) => Clear(setup, w, project, sha) && setup.config(project).queueMode.Latest?
    case Enqueueing(job) =>
      && job.project == project && job.id in w.used && job.id !in w.jobs
      && (job.id in w.rows ==> w.rows[job.id].project == project)
  }

  ghost predicate ChecksOk(setup: Setup, w: World)
  {
    && (forall p :: p in w.checks ==> CheckOk(setup, w, p))
    && (forall p, q :: p in w.checks && q in w.checks && SameJob(w.checks[p], w.checks[q]) ==> p == q)
  }

  predicate SameJob(a: Check, b: Check)
  {
    a.Enqueueing? && b.Enqueueing? && a.job.id == b.job.id
  }

  /** Active deployments of one project are of different commits; under `reject` there is at most one, and under
      `latest` at most one waits. */
  ghost predicate QueueOk(setup: Setup, w: World)
  {
    CommitsOk(setup, w) && WaitingOk(setup, w)
  }

  ghost predicate CommitsOk(setup: Setup, w: World)
  {
    forall p, a, b :: a in Deployments.ActiveOf(w.rows, p) && b in Deployments.ActiveOf(w.rows, p) && a != b ==>
      && !Deployments.SameCommit(w.rows[a].targetSha, w.rows[b].targetSha)
      && !setup.config(p).queueMode.Reject?
  }

  ghost predicate WaitingOk(setup: Setup, w: World)
  {
    forall p, a, b :: setup.config(p).queueMode.Latest? && QueuedOf(w.rows, p, a) && QueuedOf(w.rows, p, b) ==> a == b
  }

  ghost predicate Owners(w: World)
  {
    RowsOwned(w) && EntriesOk(w) && RegistryOk(w) && LocksOk(w) && HostsOk(w)
  }

  ghost predicate Sound(setup: Setup, w: World)
  {
    EngineOk(w) && JobsOk(w) && CellsOk(w) && Owners(w) && ChecksOk(setup, w) && QueueOk(setup, w)
  }

  lemma InitialSound(setup: Setup, w: World)
    requires Initial(w)
    ensures Sound(setup, w)
  {
    assert EnteredIds(Engine.IDLE) == {};
    assert forall p :: Deployments.ActiveOf(w.rows, p) == {};
  }

  /** One body per deployment and one per project. */
  lemma BodiesDiffer(w: World, t: Engine.Ticket, u: Engine.Ticket)
    requires EngineOk(w) && JobsOk(w) && t in w.bodies && u in w.bodies && t != u
    ensures w.bodies[t].origin.job.id != w.bodies[u].origin.job.id
    ensures w.bodies[t].origin.job.project != w.bodies[u].origin.job.project
  {
    assert TaskOk(w, w.engine.tasks[t]) && TaskOk(w, w.engine.tasks[u]);
    if w.engine.tasks[t].project == w.engine.tasks[u].project {
      Engine.OneStarted(w.engine, t, u);
    }
  }

  // Changes that leave bodies, engine and jobs alone

  predicate RowDrifts(row: Row, row': Row)
  {
    && row'.project == row.project && row'.targetSha == row.targetSha
    && (row'.status == row.status || Terminal(row'.status))
  }

  ghost predicate RowsDrift(rows: Rows, rows': Rows)
  {
    forall id :: id in rows' ==> id in rows && RowDrifts(rows[id], rows'[id])
  }

  ghost predicate ControllersDrift(s: Registry.State, s': Registry.State)
  {
    && (forall id :: id in s'.controllers ==> id in s.controllers && s'.controllers[id] == s.controllers[id])
    && s'.aborted <= s.aborted + s.controllers.Keys
  }

  ghost predicate LocksDrift(locks: LockTable.Locks, locks': LockTable.Locks)
  {
    forall p :: p in locks' ==> p in locks && locks'[p].lockedBy == locks[p].lockedBy
  }

  /** Seen from the pipeline: nothing happened, or one disturbance. */
  ghost predicate Follows(o: PipelineSafety.Origin, c: Cell, c': Cell)
  {
    c' == c || exists e :: Pipeline.Possible(o.job, c, e) && c' == Disturbed(c, e)
  }

  lemma FollowsReachable(o: PipelineSafety.Origin, c: Cell, c': Cell)
    requires PipelineRuns.Reachable(o, c) && Follows(o, c, c')
    ensures PipelineRuns.Reachable(o, c')
  {
    if c' != c {
      var e :| Pipeline.Possible(o.job, c, e) && c' == Disturbed(c, e);
      PipelineRuns.MovedReachable(o, c, PipelineRuns.Env(e));
    }
  }

  ghost predicate CellsFollow(w: World, w': World)
  {
    forall t :: t in w.bodies ==> Follows(w.bodies[t].origin, View(w, w.bodies[t]), View(w', w.bodies[t]))
  }

  lemma CellsFollowOk(w: World, w': World)
    requires w'.bodies == w.bodies && CellsOk(w) && CellsFollow(w, w')
    ensures CellsOk(w')
  {
    forall t | t in w'.bodies
      ensures PipelineRuns.Reachable(w'.bodies[t].origin, View(w', w'.bodies[t]))
    {
      FollowsReachable(w.bodies[t].origin, View(w, w.bodies[t]), View(w', w.bodies[t]));
    }
  }

  ghost predicate Drifts(w: World, w': World)
  {
    && w' == w.(now := w'.now, rows := w'.rows, locks := w'.locks, registry := w'.registry, checks := w'.checks, shas := w'.shas)
    && RowsDrift(w.rows, w'.rows) && ControllersDrift(w.registry, w'.registry) && LocksDrift(w.locks, w'.locks)
    && CellsFollow(w, w')
  }

  lemma DriftsJobs(w: World, w': World)
    requires Drifts(w, w') && JobsOk(w)
    ensures JobsOk(w')
  {
  }

  lemma DriftsRegistry(w: World, w': World)
    requires Drifts(w, w') && RegistryOk(w)
    ensures RegistryOk(w')
  {
    SameBodies(w, w');
  }

  lemma DriftsOwned(w: World, w': World)
    requires Drifts(w, w') && RowsOwned(w)
    ensures RowsOwned(w')
  {
    SameBodies(w, w');
  }

  lemma DriftsEntries(w: World, w': World)
    requires Drifts(w, w') && EntriesOk(w)
    ensures EntriesOk(w')
  {
    forall id | id in EnteredIds(w'.engine) && StatusOf(w'.rows, id) == Some(Queued)
      ensures EntersNow(w', id)
    {
      assert StatusOf(w.rows, id) == Some(Queued);
      var t :| Runs(w, t, id) && w.bodies[t].stage.Entering?;
      assert Runs(w', t, id);
    }
  }

  /** No row of a holder without a body goes. */
  ghost predicate HoldersStay(w: World, w': World)
  {
    forall p :: p in w'.locks && w'.locks[p].lockedBy in w.rows ==>
      w'.locks[p].lockedBy in w'.rows || LockBody(w, w'.locks[p].lockedBy, p)
  }

  lemma DriftsLocks(w: World, w': World)
    requires Drifts(w, w') && LocksOk(w) && HoldersStay(w, w')
    ensures LocksOk(w')
  {
    SameBodies(w, w');
    forall p | p in w'.locks
      ensures LockOk(w', p, w'.locks[p].lockedBy)
    {
      assert LockOk(w, p, w.locks[p].lockedBy);
    }
  }

  lemma SameRowsStay(w: World, w': World)
    requires w'.rows.Keys == w.rows.Keys
    ensures HoldersStay(w, w')
  {
  }

  /** Active and queued rows only become fewer. */
  ghost predicate RowsDecline(rows: Rows, rows': Rows)
  {
    forall id :: id in rows' ==>
      && id in rows && rows'[id].project == rows[id].project && rows'[id].targetSha == rows[id].targetSha
      && (Active(rows'[id].status) ==> Active(rows[id].status)) && (rows'[id].status.Queued? ==> rows[id].status.Queued?)
  }

  lemma DeclineQueue(setup: Setup, w: World, w': World)
    requires RowsDecline(w.rows, w'.rows) && QueueOk(setup, w)
    ensures QueueOk(setup, w')
  {
    DeclineCommits(setup, w, w');
    DeclineWaiting(setup, w, w');
  }

  lemma DeclineCommits(setup: Setup, w: World, w': World)
    requires RowsDecline(w.rows, w'.rows) && CommitsOk(setup, w)
    ensures CommitsOk(setup, w')
  {
    assert forall p, id :: id in Deployments.ActiveOf(w'.rows, p) ==> id in Deployments.ActiveOf(w.rows, p);
  }

  lemma DeclineWaiting(setup: Setup, w: World, w': World)
    requires RowsDecline(w.rows, w'.rows) && WaitingOk(setup, w)
    ensures WaitingOk(setup, w')
  {
    assert forall p, id :: QueuedOf(w'.rows, p, id) ==> QueuedOf(w.rows, p, id);
  }

  lemma DeclineClear(setup: Setup, w: World, w': World, project: Project, sha: Sha)
    requires RowsDecline(w.rows, w'.rows) && Clear(setup, w, project, sha)
    ensures Clear(setup, w', project, sha)
  {
    assert forall id :: id in Deployments.ActiveOf(w'.rows, project) ==> id in Deployments.ActiveOf(w.rows, project);
    assert forall id :: QueuedOf(w'.rows, project, id) ==> QueuedOf(w.rows, project, id);
  }

  lemma DeclineChecks(setup: Setup, w: World, w': World)
    requires RowsDecline(w.rows, w'.rows) && ChecksOk(setup, w) && w'.used == w.used && w'.jobs == w.jobs
    requires forall p :: p in w'.checks ==> p in w.checks && w'.checks[p] == w.checks[p]
    ensures ChecksOk(setup, w')
  {
    forall p | p in w'.checks
      ensures CheckOk(setup, w', p)
    {
      assert CheckOk(setup, w, p);
      if w.checks[p].Creating? {
        DeclineClear(setup, w, w', p, w.checks[p].sha);
      }
    }
  }

  lemma DriftsSound(setup: Setup, w: World, w': World)
    requires Sound(setup, w) && Drifts(w, w') && HoldersStay(w, w')
    requires forall p :: p in w'.checks ==> p in w.checks && w'.checks[p] == w.checks[p]
    ensures Sound(setup, w')
  {
    DriftsRest(setup, w, w');
    DriftDeclines(w.rows, w'.rows);
    DeclineChecks(setup, w, w');
  }

  /** Everything but what concerns the checks. */
  lemma DriftsRest(setup: Setup, w: World, w': World)
    requires Sound(setup, w) && Drifts(w, w') && HoldersStay(w, w')
    ensures EngineOk(w') && JobsOk(w') && CellsOk(w') && Owners(w') && QueueOk(setup, w')
  {
    CellsFollowOk(w, w');
    DriftsBut(w, w');
    DriftDeclines(w.rows, w'.rows);
    DeclineQueue(setup, w, w');
  }

  lemma DriftsBut(w: World, w': World)
    requires Drifts(w, w') && HoldersStay(w, w') && EngineOk(w) && JobsOk(w) && Owners(w)
    ensures EngineOk(w') && JobsOk(w') && Owners(w')
  {
    DriftsJobs(w, w');
    DriftsRegistry(w, w');
    DriftsOwned(w, w');
    DriftsEntries(w, w');
    DriftsLocks(w, w');
  }

  lemma DriftDeclines(rows: Rows, rows': Rows)
    requires RowsDrift(rows, rows')
    ensures RowsDecline(rows, rows')
  {
  }

  // The drifting actions

  lemma CancelDrifts(w: World, id: Id)
    requires Enabled(w, Cancel(id))
    ensures Drifts(w, w.(rows := Deployments.StatusUpdated(w.rows, id, Cancelled, w.now)))
  {
    var w' := w.(rows := Deployments.StatusUpdated(w.rows, id, Cancelled, w.now));
    forall t | t in w.bodies
      ensures Follows(w.bodies[t].origin, View(w, w.bodies[t]), View(w', w.bodies[t]))
    {
      CancelFollows(w, id, w.bodies[t]);
    }
  }

  lemma CancelFollows(w: World, id: Id, b: Body)
    requires Enabled(w, Cancel(id))
    ensures Follows(b.origin, View(w, b), View(w.(rows := Deployments.StatusUpdated(w.rows, id, Cancelled, w.now)), b))
  {
    var w' := w.(rows := Deployments.StatusUpdated(w.rows, id, Cancelled, w.now));
    if b.origin.job.id == id {
      assert View(w', b) == Disturbed(View(w, b), OperatorCancel);
      assert Pipeline.Possible(b.origin.job, View(w, b), OperatorCancel);
    } else {
      assert View(w', b) == View(w, b);
    }
  }

  /** Locks that are refreshed or dropped, but not handed over. */
  lemma LocksFollow(w: World, locks: LockTable.Locks, b: Body)
    requires LocksDrift(w.locks, locks)
    ensures Follows(b.origin, View(w, b), View(w.(locks := locks), b))
  {
    var e := LockWritten(LockOf(locks, b.origin.job.project));
    assert View(w.(locks := locks), b) == Disturbed(View(w, b), e);
    assert Pipeline.Possible(b.origin.job, View(w, b), e);
  }

  lemma LocksDrifts(w: World, locks: LockTable.Locks)
    requires LocksDrift(w.locks, locks)
    ensures Drifts(w, w.(locks := locks))
  {
    forall t | t in w.bodies
      ensures Follows(w.bodies[t].origin, View(w, w.bodies[t]), View(w.(locks := locks), w.bodies[t]))
    {
      LocksFollow(w, locks, w.bodies[t]);
    }
  }

  /** Time passes, a check ends, or a commit is noted as seen: no body notices. */
  lemma UnnoticedDrifts(w: World, w': World)
    requires w' == w.(now := w'.now, checks := w'.checks, shas := w'.shas)
    requires forall p :: ShasOf(w', p).lastSuccessful == ShasOf(w, p).lastSuccessful
    ensures Drifts(w, w')
  {
    assert forall t :: t in w.bodies ==> View(w', w.bodies[t]) == View(w, w.bodies[t]);
  }

  // The self-repair cycle

  function RepairedRows(setup: Setup, w: World): Rows
  {
    Repaired(setup, w).rows
  }

  lemma RepairRows(setup: Setup, w: World, id: Id)
    ensures id in RepairedRows(setup, w) ==> id in w.rows && RowDrifts(w.rows[id], RepairedRows(setup, w)[id])
    ensures id in RepairedRows(setup, w) && id in w.engine.running ==> RepairedRows(setup, w)[id] == w.rows[id]
    ensures id in w.rows && id in w.engine.running && Active(w.rows[id].status) ==> id in RepairedRows(setup, w)
  {
    RetainedRows(FailedRows(setup, w), w.now, id);
  }

  lemma RetainedRows(rows: Rows, now: Millis, id: Id)
    ensures var rows' := Deployments.Retained(rows, None, Some(KEEP_ROWS), Some(KEEP_DAYS), now);
      && (id in rows' ==> id in rows && rows'[id] == rows[id])
      && (id in rows && Active(rows[id].status) ==> id in rows')
  {
  }

  lemma RepairLocks(setup: Setup, w: World, p: Project)
    ensures p in Repaired(setup, w).locks ==> p in w.locks && Repaired(setup, w).locks[p] == w.locks[p]
    ensures p in w.locks && w.locks[p].lockedBy in w.engine.running ==> p in Repaired(setup, w).locks
  {
  }

  lemma BodyIsRunning(w: World, t: Engine.Ticket)
    requires EngineOk(w) && JobsOk(w) && t in w.bodies
    ensures w.bodies[t].origin.job.id in w.engine.running
  {
    assert TaskOk(w, w.engine.tasks[t]);
  }

  lemma RepairFollows(setup: Setup, w: World, unlocked: World, b: Body)
    requires b.origin.job.id in w.engine.running && unlocked == w.(locks := Repaired(setup, w).locks)
    ensures Follows(b.origin, View(unlocked, b), View(unlocked.(rows := RepairedRows(setup, w)), b))
  {
    var w', id := unlocked.(rows := RepairedRows(setup, w)), b.origin.job.id;
    RepairRows(setup, w, id);
    if id in w.rows && id !in w'.rows {
      assert View(w', b) == Disturbed(View(unlocked, b), RowPruned);
      assert Pipeline.Possible(b.origin.job, View(unlocked, b), RowPruned);
    } else {
      assert View(w', b) == View(unlocked, b);
    }
  }

  lemma RepairRowsDrifts(setup: Setup, w: World, unlocked: World)
    requires EngineOk(w) && JobsOk(w) && unlocked == w.(locks := Repaired(setup, w).locks)
    ensures Drifts(unlocked, Repaired(setup, w))
  {
    var w' := Repaired(setup, w);
    assert w' == unlocked.(rows := RepairedRows(setup, w));
    forall t | t in w.bodies
      ensures Follows(w.bodies[t].origin, View(unlocked, w.bodies[t]), View(w', w.bodies[t]))
    {
      BodyIsRunning(w, t);
      RepairFollows(setup, w, unlocked, w.bodies[t]);
    }
    forall id | id in w'.rows
      ensures id in w.rows && RowDrifts(w.rows[id], w'.rows[id])
    {
      RepairRows(setup, w, id);
    }
  }

  /** The first unfinished task of a project, not later than a given one. */
  lemma {:induction false} FirstOfProject(s: Engine.State, t: Engine.Ticket) returns (head: Engine.Ticket)
    requires Engine.Inv(s) && t in s.tasks
    ensures head in s.tasks && s.tasks[head].project == s.tasks[t].project
    ensures s.tasks[head].started || Engine.Ready(s, head)
    decreases t
  {
    if u: Engine.Ticket :| Engine.Ahead(s, u, t) {
      head := FirstOfProject(s, u);
    } else {
      Engine.HeadIsReady(s, t);
      head := t;
    }
  }

  /** While nothing is due, the first unfinished task of a project has a body, which holds the lock. */
  lemma HeadHolds(w: World, t: Engine.Ticket) returns (head: Engine.Ticket)
    requires EngineOk(w) && JobsOk(w) && Holding(w) && Settled(w) && t in w.engine.tasks
    ensures head in w.bodies && BodyHolds(w, w.bodies[head])
    ensures w.bodies[head].origin.job.project == w.engine.tasks[t].project
  {
    head := FirstOfProject(w.engine, t);
    assert TaskOk(w, w.engine.tasks[head]);
  }

  /** So the holder of a lock that still has an unfinished task is that body: any other would hold the lock in its place. */
  lemma RunningHolderHasBody(w: World, p: Project)
    requires EngineOk(w) && JobsOk(w) && Holding(w) && Settled(w)
    requires p in w.locks && LockOk(w, p, w.locks[p].lockedBy) && w.locks[p].lockedBy in w.engine.running
    ensures LockBody(w, w.locks[p].lockedBy, p)
  {
    var t := TaskOf(w.engine, w.locks[p].lockedBy);
    assert TaskOk(w, w.engine.tasks[t]);
    var head := HeadHolds(w, t);
    assert Runs(w, head, w.locks[p].lockedBy);
  }

  lemma TaskOf(s: Engine.State, id: Id) returns (t: Engine.Ticket)
    requires Engine.Inv(s) && id in s.running
    ensures t in s.tasks && s.tasks[t].id == id
  {
    t :| t in s.tasks && s.tasks[t].id == id;
  }

  /** A lock that survives a self-repair cycle is held by a body: what it prunes comes before the rows it deletes. */
  lemma KeptLockHasBody(setup: Setup, w: World, p: Project)
    requires EngineOk(w) && JobsOk(w) && LocksOk(w) && Holding(w) && Settled(w)
    requires p in Repaired(setup, w).locks
    ensures p in w.locks && Repaired(setup, w).locks[p] == w.locks[p] && LockBody(w, w.locks[p].lockedBy, p)
  {
    RepairLocks(setup, w, p);
    assert LockOk(w, p, w.locks[p].lockedBy);
    if w.locks[p].lockedBy in w.engine.running {
      RunningHolderHasBody(w, p);
    }
  }

  /** The locks go first. */
  lemma UnlockSound(setup: Setup, w: World, unlocked: World)
    requires Sound(setup, w) && Holding(w) && Settled(w) && unlocked == w.(locks := Repaired(setup, w).locks)
    ensures Sound(setup, unlocked) && HoldersStay(unlocked, Repaired(setup, w))
  {
    KeptLocksHaveBodies(setup, w, unlocked);
    LocksDrifts(w, unlocked.locks);
    SameRowsStay(w, unlocked);
    DriftsSound(setup, w, unlocked);
  }

  lemma KeptLocksHaveBodies(setup: Setup, w: World, unlocked: World)
    requires EngineOk(w) && JobsOk(w) && LocksOk(w) && Holding(w) && Settled(w)
    requires unlocked == w.(locks := Repaired(setup, w).locks)
    ensures LocksDrift(w.locks, unlocked.locks) && HoldersStay(unlocked, Repaired(setup, w))
  {
    forall p | p in unlocked.locks
      ensures p in w.locks && unlocked.locks[p] == w.locks[p] && LockBody(w, w.locks[p].lockedBy, p)
    {
      KeptLockHasBody(setup, w, p);
    }
    SameBodies(w, unlocked);
  }

  lemma RepairSound(setup: Setup, w: World)
    requires Sound(setup, w) && Holding(w) && Settled(w)
    ensures Sound(setup, Repaired(setup, w))
  {
    var unlocked := w.(locks := Repaired(setup, w).locks);
    UnlockSound(setup, w, unlocked);
    RepairRowsDrifts(setup, w, unlocked);
    DriftsSound(setup, unlocked, Repaired(setup, w));
  }

  // Superseding

  /** Seen from a body, superseding its project is the pipeline's own disturbance, and any other project's is nothing. */
  lemma SupersededView(w: World, project: Project, b: Body)
    requires b.origin.job.id in w.rows ==> w.rows[b.origin.job.id].project == b.origin.job.project
    requires b.origin.job.id in w.registry.controllers ==>
      w.registry.controllers[b.origin.job.id].project == b.origin.job.project
    ensures View(WithoutPending(w, project), b) ==
      if b.origin.job.project == project then Disturbed(View(w, b), Supersede) else View(w, b)
  {
    var c, c' := View(w, b), View(WithoutPending(w, project), b);
    var id := b.origin.job.id;
    assert c' == c.(status := c'.status, controller := c'.controller, aborted := c'.aborted);
    if b.origin.job.project == project {
      assert c.controller.Some? ==> c.controller == Some(true) || c.controller == Some(false);
      assert Disturbed(c, Supersede) == c.(status := c'.status, controller := c'.controller, aborted := c'.aborted);
    }
  }

  lemma BodyMatches(w: World, t: Engine.Ticket)
    requires JobsOk(w) && RegistryOk(w) && t in w.bodies
    ensures var job := w.bodies[t].origin.job;
      && job.id in w.jobs && w.jobs[job.id] == job
      && (job.id in w.rows ==> w.rows[job.id].project == job.project)
      && (job.id in w.registry.controllers ==> w.registry.controllers[job.id].project == job.project)
  {
    assert TaskOk(w, w.engine.tasks[t]);
  }

  lemma SupersededDrifts(w: World, project: Project)
    requires JobsOk(w) && RegistryOk(w)
    ensures Drifts(w, WithoutPending(w, project))
  {
    var w' := WithoutPending(w, project);
    forall t | t in w.bodies
      ensures Follows(w.bodies[t].origin, View(w, w.bodies[t]), View(w', w.bodies[t]))
    {
      BodyMatches(w, t);
      SupersededView(w, project, w.bodies[t]);
      assert Pipeline.Possible(w.bodies[t].origin.job, View(w, w.bodies[t]), Supersede);
    }
  }

  lemma EnteringHasNoController(o: PipelineSafety.Origin, c: Cell)
    requires PipelineRuns.Reachable(o, c) && c.stage.Entering?
    ensures c.controller.None? && !c.aborted
  {
    PipelineRuns.ReachableInv(o, c);
  }

  lemma QueuedHasNoController(w: World, id: Id)
    requires EntriesOk(w) && CellsOk(w) && id in EnteredIds(w.engine) && StatusOf(w.rows, id) == Some(Queued)
    ensures id !in w.registry.controllers
  {
    var t :| Runs(w, t, id) && w.bodies[t].stage.Entering?;
    EnteringHasNoController(w.bodies[t].origin, View(w, w.bodies[t]));
  }

  /** Superseding leaves no deployment waiting. */
  lemma SupersededQueue(w: World, project: Project, id: Id)
    requires RegistryOk(w) && EntriesOk(w) && CellsOk(w)
    ensures !QueuedOf(WithoutPending(w, project).rows, project, id)
  {
    if StatusOf(w.rows, id) == Some(Queued) && id in EnteredIds(w.engine) {
      QueuedHasNoController(w, id);
    }
  }

  // Checks

  lemma BeginCheckSound(setup: Setup, w: World, project: Project, trigger: Trigger)
    requires Sound(setup, w) && Enabled(w, BeginCheck(project, trigger))
    ensures Sound(setup, Apply(setup, w, BeginCheck(project, trigger)))
  {
    var w' := Apply(setup, w, BeginCheck(project, trigger));
    UnnoticedDrifts(w, w');
    DriftsRest(setup, w, w');
    FetchingChecks(setup, w, w', project);
  }

  lemma FetchingChecks(setup: Setup, w: World, w': World, project: Project)
    requires ChecksOk(setup, w) && w' == w.(checks := w'.checks)
    requires project in w'.checks && w'.checks[project].Fetching?
    requires w'.checks == w.checks[project := w'.checks[project]]
    ensures ChecksOk(setup, w')
  {
    forall p | p in w'.checks
      ensures CheckOk(setup, w', p)
    {
      assert p != project ==> CheckOk(setup, w, p);
    }
  }

  lemma CheckEndsSound(setup: Setup, w: World, w': World, project: Project)
    requires Sound(setup, w) && w' == w.(checks := w.checks - {project}, shas := w'.shas)
    requires forall p :: ShasOf(w', p).lastSuccessful == ShasOf(w, p).lastSuccessful
    ensures Sound(setup, w')
  {
    UnnoticedDrifts(w, w');
    DriftsSound(setup, w, w');
  }

  lemma SameViews(w: World, w': World)
    requires CellsOk(w) && w'.bodies == w.bodies
    requires forall t :: t in w.bodies ==> View(w', w.bodies[t]) == View(w, w.bodies[t])
    ensures CellsOk(w')
  {
  }

  /** Creating a deployment when nothing stands against it. */
  lemma CreatedSound(setup: Setup, w: World, project: Project, id: Id, sha: Sha, shas: Watcher.Shas)
    requires Sound(setup, w) && Clear(setup, w, project, sha) && id !in w.used && project in w.checks
    ensures Sound(setup, Created(w, project, id, sha, shas))
  {
    var w' := Created(w, project, id, sha, shas);
    CreatedJobs(w, project, id, sha, shas);
    CreatedOwners(w, project, id, sha, shas);
    CreatedQueue(setup, w, project, id, sha, shas);
    CreatedChecks(setup, w, project, id, sha, shas);
    CreatedViews(w, project, id, sha, shas);
    SameViews(w, w');
  }

  lemma CreatedViews(w: World, project: Project, id: Id, sha: Sha, shas: Watcher.Shas)
    requires JobsOk(w) && RegistryOk(w) && id !in w.used
    ensures forall t :: t in w.bodies ==> View(Created(w, project, id, sha, shas), w.bodies[t]) == View(w, w.bodies[t])
  {
    forall t | t in w.bodies
      ensures View(Created(w, project, id, sha, shas), w.bodies[t]) == View(w, w.bodies[t])
    {
      BodyMatches(w, t);
    }
  }

  lemma CreatedJobs(w: World, project: Project, id: Id, sha: Sha, shas: Watcher.Shas)
    requires EngineOk(w) && JobsOk(w) && id !in w.used && sha != ""
    ensures EngineOk(Created(w, project, id, sha, shas)) && JobsOk(Created(w, project, id, sha, shas))
  {
    var w' := Created(w, project, id, sha, shas);
    forall t | t in w'.engine.tasks
      ensures TaskOk(w', w'.engine.tasks[t])
    {
      assert TaskOk(w, w.engine.tasks[t]);
    }
  }

  lemma CreatedOwners(w: World, project: Project, id: Id, sha: Sha, shas: Watcher.Shas)
    requires JobsOk(w) && Owners(w) && id !in w.used
    ensures Owners(Created(w, project, id, sha, shas))
  {
    var w' := Created(w, project, id, sha, shas);
    SameBodies(w, w');
    CreatedEntries(w, project, id, sha, shas);
    CreatedLocks(w, project, id, sha, shas);
  }

  lemma SameBodies(w: World, w': World)
    requires w'.bodies == w.bodies
    ensures forall id :: HasBody(w', id) <==> HasBody(w, id)
    ensures forall id :: EntersNow(w', id) <==> EntersNow(w, id)
    ensures forall id, p :: LockBody(w', id, p) <==> LockBody(w, id, p)
  {
    assert forall t, id :: Runs(w', t, id) <==> Runs(w, t, id);
  }

  lemma CreatedEntries(w: World, project: Project, id: Id, sha: Sha, shas: Watcher.Shas)
    requires JobsOk(w) && EntriesOk(w) && id !in w.used
    ensures EntriesOk(Created(w, project, id, sha, shas))
  {
    var w' := Created(w, project, id, sha, shas);
    forall other | other in EnteredIds(w'.engine) && StatusOf(w'.rows, other) == Some(Queued)
      ensures EntersNow(w', other)
    {
      assert EntersNow(w, other);
      var t :| Runs(w, t, other) && w.bodies[t].stage.Entering?;
      assert Runs(w', t, other);
    }
  }

  lemma CreatedLocks(w: World, project: Project, id: Id, sha: Sha, shas: Watcher.Shas)
    requires JobsOk(w) && LocksOk(w) && id !in w.used
    ensures LocksOk(Created(w, project, id, sha, shas))
  {
    var w' := Created(w, project, id, sha, shas);
    SameBodies(w, w');
    forall p | p in w'.locks
      ensures LockOk(w', p, w'.locks[p].lockedBy)
    {
      assert LockOk(w, p, w.locks[p].lockedBy);
    }
  }

  lemma CreatedQueue(setup: Setup, w: World, project: Project, id: Id, sha: Sha, shas: Watcher.Shas)
    requires QueueOk(setup, w) && Clear(setup, w, project, sha) && id !in w.rows
    ensures QueueOk(setup, Created(w, project, id, sha, shas))
  {
    CreatedWaiting(setup, w, project, id, sha, shas);
    CreatedCommits(setup, w, project, id, sha, shas);
  }

  lemma CreatedWaiting(setup: Setup, w: World, project: Project, id: Id, sha: Sha, shas: Watcher.Shas)
    requires QueueOk(setup, w) && Clear(setup, w, project, sha) && id !in w.rows
    ensures WaitingOk(setup, Created(w, project, id, sha, shas))
  {
    var w' := Created(w, project, id, sha, shas);
    forall p, a, b | setup.config(p).queueMode.Latest? && QueuedOf(w'.rows, p, a) && QueuedOf(w'.rows, p, b)
      ensures a == b
    {
      CreatedQueuedPair(setup, w, w', project, id, p, a, b);
    }
  }

  lemma CreatedCommits(setup: Setup, w: World, project: Project, id: Id, sha: Sha, shas: Watcher.Shas)
    requires QueueOk(setup, w) && Clear(setup, w, project, sha) && id !in w.rows
    ensures CommitsOk(setup, Created(w, project, id, sha, shas))
  {
    var w' := Created(w, project, id, sha, shas);
    forall p, a, b | a in Deployments.ActiveOf(w'.rows, p) && b in Deployments.ActiveOf(w'.rows, p) && a != b
      ensures !Deployments.SameCommit(w'.rows[a].targetSha, w'.rows[b].targetSha)
      ensures !setup.config(p).queueMode.Reject?
    {
      CreatedPair(setup, w, w', project, id, p, a, b);
    }
  }

  lemma CreatedQueuedPair(
    setup: Setup, w: World, w': World, project: Project, id: Id, p: Project, a: Id, b: Id)
    requires QueueOk(setup, w) && id in w'.rows && w'.rows == w.rows[id := w'.rows[id]] && w'.rows[id].project == project
    requires Clear(setup, w, project, w'.rows[id].targetSha) && setup.config(p).queueMode.Latest?
    requires QueuedOf(w'.rows, p, a) && QueuedOf(w'.rows, p, b)
    ensures a == b
  {
    assert a != id ==> QueuedOf(w.rows, p, a);
    assert b != id ==> QueuedOf(w.rows, p, b);
  }

  lemma CreatedPair(
    setup: Setup, w: World, w': World, project: Project, id: Id, p: Project, a: Id, b: Id)
    requires QueueOk(setup, w) && id in w'.rows && w'.rows == w.rows[id := w'.rows[id]] && w'.rows[id].project == project
    requires Clear(setup, w, project, w'.rows[id].targetSha)
    requires a in Deployments.ActiveOf(w'.rows, p) && b in Deployments.ActiveOf(w'.rows, p) && a != b
    ensures !Deployments.SameCommit(w'.rows[a].targetSha, w'.rows[b].targetSha)
    ensures !setup.config(p).queueMode.Reject?
  {
    if a != id {
      assert a in Deployments.ActiveOf(w.rows, p);
    }
    if b != id {
      assert b in Deployments.ActiveOf(w.rows, p);
    }
  }

  lemma CreatedChecks(setup: Setup, w: World, project: Project, id: Id, sha: Sha, shas: Watcher.Shas)
    requires ChecksOk(setup, w) && JobsOk(w) && id !in w.used && project in w.checks
    ensures ChecksOk(setup, Created(w, project, id, sha, shas))
  {
    var w' := Created(w, project, id, sha, shas);
    forall p | p in w'.checks
      ensures CheckOk(setup, w', p)
    {
      if p != project {
        assert CheckOk(setup, w, p);
        OtherProjectsRows(w, w', project, id, p);
      }
    }
    forall p, q | p in w'.checks && q in w'.checks && SameJob(w'.checks[p], w'.checks[q])
      ensures p == q
    {
      assert p != project ==> CheckOk(setup, w, p);
      assert q != project ==> CheckOk(setup, w, q);
    }
  }

  lemma OtherProjectsRows(w: World, w': World, project: Project, id: Id, p: Project)
    requires id in w'.rows && w'.rows[id].project == project && p != project && id !in w.rows
    requires w'.rows == w.rows[id := w'.rows[id]]
    ensures Deployments.ActiveOf(w'.rows, p) == Deployments.ActiveOf(w.rows, p)
    ensures forall other :: QueuedOf(w'.rows, p, other) <==> QueuedOf(w.rows, p, other)
  {
  }

  lemma EnqueueSound(setup: Setup, w: World, project: Project)
    requires Sound(setup, w) && Enabled(w, EnqueueJob(project))
    ensures Sound(setup, Apply(setup, w, EnqueueJob(project)))
  {
    assert CheckOk(setup, w, project);
    EnqueuedSound(setup, w, Apply(setup, w, EnqueueJob(project)), project);
  }

  lemma EnqueuedSound(setup: Setup, w: World, w': World, project: Project)
    requires project in w.checks && w.checks[project].Enqueueing? && CheckOk(setup, w, project)
    requires var job := w.checks[project].job; w' == w.(jobs := w.jobs[job.id := job], checks := w.checks - {project})
    requires Sound(setup, w)
    ensures Sound(setup, w')
  {
    EnqueueJobs(w, w', w.checks[project].job);
    EnqueueChecks(setup, w, w', project);
    EnqueueViews(w, w');
    SameOwners(w, w');
    SameQueue(setup, w, w');
  }

  lemma SameQueue(setup: Setup, w: World, w': World)
    requires QueueOk(setup, w) && w'.rows == w.rows
    ensures QueueOk(setup, w')
  {
  }

  lemma EnqueueViews(w: World, w': World)
    requires CellsOk(w) && w' == w.(jobs := w'.jobs, checks := w'.checks)
    ensures CellsOk(w')
  {
    assert forall t :: t in w.bodies ==> View(w', w.bodies[t]) == View(w, w.bodies[t]);
    SameViews(w, w');
  }

  lemma EnqueueJobs(w: World, w': World, job: Job)
    requires JobsOk(w) && job.id !in w.jobs && job.id in w.used && w' == w.(jobs := w.jobs[job.id := job], checks := w'.checks)
    requires job.id in w.rows ==> w.rows[job.id].project == job.project
    ensures JobsOk(w')
  {
    forall t | t in w'.engine.tasks
      ensures TaskOk(w', w'.engine.tasks[t])
    {
      assert TaskOk(w, w.engine.tasks[t]);
    }
    forall t | t in w'.bodies
      ensures w'.bodies[t].origin.job == w'.jobs[w'.engine.tasks[t].id]
    {
      assert TaskOk(w, w.engine.tasks[t]);
    }
  }

  lemma EnqueueChecks(setup: Setup, w: World, w': World, project: Project)
    requires ChecksOk(setup, w) && project in w.checks && w.checks[project].Enqueueing?
    requires var job := w.checks[project].job; w' == w.(jobs := w.jobs[job.id := job], checks := w.checks - {project})
    ensures ChecksOk(setup, w')
  {
    forall p | p in w'.checks
      ensures CheckOk(setup, w', p)
    {
      assert CheckOk(setup, w, p);
      assert !SameJob(w.checks[p], w.checks[project]);
    }
  }

  /** Only jobs and checks change. */
  lemma SameOwners(w: World, w': World)
    requires w' == w.(jobs := w'.jobs, checks := w'.checks) && Owners(w)
    requires forall id :: id in w.jobs ==> id in w'.jobs && w'.jobs[id] == w.jobs[id]
    ensures Owners(w')
  {
    SameBodies(w, w');
  }

  lemma DecideSound(setup: Setup, w: World, project: Project, sha: Sha, id: Id)
    requires Sound(setup, w) && Enabled(w, DecideCheck(project, sha, id))
    ensures Sound(setup, Decided(setup, w, project, sha, id))
  {
    var check := w.checks[project];
    var mode := setup.config(project).queueMode;
    match Watcher.Decide(w.rows, project, check.shas, check.trigger, sha, mode, w.now)
    case Skip(_) => CheckEndsSound(setup, w, Decided(setup, w, project, sha, id), project);
    case Deploy(supersede) => DeploySound(setup, w, project, sha, id, supersede);
  }

  lemma DeploySound(setup: Setup, w: World, project: Project, sha: Sha, id: Id, supersede: bool)
    requires project in w.checks && w.checks[project].Fetching? && sha != "" && id !in w.used
    requires Watcher.Decide(w.rows, project, w.checks[project].shas, w.checks[project].trigger, sha,
      setup.config(project).queueMode, w.now) == Watcher.Deploy(supersede)
    requires Sound(setup, w)
    ensures Sound(setup, if supersede
      then WithoutPending(w, project).(checks := w.checks[project := Creating(sha, w.checks[project].shas)])
      else Created(w, project, id, sha, w.checks[project].shas))
  {
    var check := w.checks[project];
    Watcher.DecisionsRespectActive(w.rows, project, check.shas, check.trigger, sha, setup.config(project).queueMode, w.now);
    if supersede {
      SupersedeSound(setup, w, project, sha);
    } else {
      DecidedClear(setup, w, project, sha);
      CreatedSound(setup, w, project, id, sha, check.shas);
    }
  }

  lemma DecidedClear(setup: Setup, w: World, project: Project, sha: Sha)
    requires JobsOk(w) && sha != ""
    requires forall id :: id in Deployments.ActiveOf(w.rows, project) && w.rows[id].targetSha != "" ==>
      !Deployments.SameCommit(w.rows[id].targetSha, sha)
    requires setup.config(project).queueMode.Fifo? || Deployments.ActiveOf(w.rows, project) == {}
    ensures Clear(setup, w, project, sha)
  {
    forall id | QueuedOf(w.rows, project, id)
      ensures id in Deployments.ActiveOf(w.rows, project)
    {
    }
  }

  lemma SupersededClear(setup: Setup, w: World, project: Project, sha: Sha)
    requires RegistryOk(w) && EntriesOk(w) && CellsOk(w) && JobsOk(w) && sha != ""
    requires setup.config(project).queueMode.Latest?
    requires forall id :: id in Deployments.ActiveOf(w.rows, project) && w.rows[id].targetSha != "" ==>
      !Deployments.SameCommit(w.rows[id].targetSha, sha)
    ensures Clear(setup, WithoutPending(w, project), project, sha)
  {
    var mid := WithoutPending(w, project);
    forall id
      ensures !QueuedOf(mid.rows, project, id)
    {
      SupersededQueue(w, project, id);
    }
    assert forall id :: id in Deployments.ActiveOf(mid.rows, project) ==> id in Deployments.ActiveOf(w.rows, project);
  }

  lemma SupersedeSound(setup: Setup, w: World, project: Project, sha: Sha)
    requires Sound(setup, w) && project in w.checks && w.checks[project].Fetching? && sha != ""
    requires setup.config(project).queueMode.Latest?
    requires forall id :: id in Deployments.ActiveOf(w.rows, project) && w.rows[id].targetSha != "" ==>
      !Deployments.SameCommit(w.rows[id].targetSha, sha)
    ensures Sound(setup, WithoutPending(w, project).(checks := w.checks[project := Creating(sha, w.checks[project].shas)]))
  {
    var mid := WithoutPending(w, project);
    var w' := mid.(checks := w.checks[project := Creating(sha, w.checks[project].shas)]);
    SupersededOnlySound(setup, w, project);
    UnnoticedDrifts(mid, w');
    SameRowsStay(mid, w');
    DriftsRest(setup, mid, w');
    SupersededClear(setup, w, project, sha);
    CreatingChecks(setup, mid, w', project);
  }

  lemma SupersededOnlySound(setup: Setup, w: World, project: Project)
    requires Sound(setup, w)
    ensures Sound(setup, WithoutPending(w, project))
  {
    SupersededDrifts(w, project);
    SameRowsStay(w, WithoutPending(w, project));
    DriftsSound(setup, w, WithoutPending(w, project));
  }

  lemma CreatingChecks(setup: Setup, mid: World, w': World, project: Project)
    requires ChecksOk(setup, mid) && project in w'.checks && w'.checks[project].Creating?
    requires w' == mid.(checks := mid.checks[project := w'.checks[project]])
    requires Clear(setup, mid, project, w'.checks[project].sha) && setup.config(project).queueMode.Latest?
    ensures ChecksOk(setup, w')
  {
    forall p | p in w'.checks
      ensures CheckOk(setup, w', p)
    {
      assert p != project ==> CheckOk(setup, mid, p);
    }
  }
}
