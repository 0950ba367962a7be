/** The engine's and the bodies' actions keep the daemon sound. */
module ControlPlaneSteps {
  import opened Records
  import opened Pipeline
  import opened ControlPlane
  import opened ControlPlaneSafety
  import Deployments
  import Engine
  import LockTable
  import PipelineRuns
  import PipelineSafety
  import Registry
  import Releases
  import Rollback
  import Watcher

  // Deliveries and turns

  /** The turn of a task has come, and its job is known. */
  predicate Resumable(w: World, t: Engine.Ticket)
  {
    Engine.Ready(w.engine, t) && w.engine.tasks[t].id in w.jobs
  }

  /** Tasks come and go, but no body starts or ends. */
  ghost predicate TasksShift(w: World, s: Engine.State)
  {
    && s.entered == w.engine.entered
    && (forall t :: t in s.tasks && t in w.engine.tasks ==> s.tasks[t] == w.engine.tasks[t])
    && (forall t :: t in s.tasks && t !in w.engine.tasks ==> TaskOk(w, s.tasks[t]) && !s.tasks[t].started)
    && (forall t :: t in w.bodies ==> t in s.tasks)
  }

  lemma DeliverShifts(w: World, id: Id)
    requires EngineOk(w) && JobsOk(w) && id in w.jobs
    ensures TasksShift(w, Engine.Delivered(w.engine, id, w.jobs[id].project))
  {
  }

  lemma DeliverSound(setup: Setup, w: World, id: Id)
    requires Sound(setup, w) && Enabled(w, Deliver(id))
    ensures Sound(setup, Apply(setup, w, Deliver(id)))
  {
    Engine.DeliveredInv(w.engine, id, w.jobs[id].project);
    DeliverShifts(w, id);
    EngineSound(setup, w, Engine.Delivered(w.engine, id, w.jobs[id].project));
  }

  lemma EngineSound(setup: Setup, w: World, s: Engine.State)
    requires Sound(setup, w) && TasksShift(w, s) && Engine.Inv(s)
    ensures Sound(setup, w.(engine := s))
  {
    var w' := w.(engine := s);
    EngineOwners(w, w');
    EngineEngine(w, w');
    EngineJobs(w, w');
    EngineViews(w, w');
    SameQueue(setup, w, w');
    EngineChecks(setup, w, w');
  }

  lemma EngineOwners(w: World, w': World)
    requires Owners(w) && w' == w.(engine := w'.engine) && TasksShift(w, w'.engine)
    ensures Owners(w')
  {
    SameBodies(w, w');
  }

  lemma EngineEngine(w: World, w': World)
    requires EngineOk(w) && w' == w.(engine := w'.engine) && TasksShift(w, w'.engine) && Engine.Inv(w'.engine)
    ensures EngineOk(w')
  {
  }

  lemma EngineJobs(w: World, w': World)
    requires JobsOk(w) && w' == w.(engine := w'.engine) && TasksShift(w, w'.engine)
    ensures JobsOk(w')
  {
    forall t | t in w'.engine.tasks
      ensures TaskOk(w', w'.engine.tasks[t])
    {
      assert t in w.engine.tasks ==> TaskOk(w, w.engine.tasks[t]);
    }
  }

  lemma EngineViews(w: World, w': World)
    requires CellsOk(w) && w' == w.(engine := w'.engine)
    ensures CellsOk(w')
  {
    forall t | t in w.bodies
      ensures View(w', w.bodies[t]) == View(w, w.bodies[t])
    {
    }
    SameViews(w, w');
  }

  lemma EngineChecks(setup: Setup, w: World, w': World)
    requires ChecksOk(setup, w) && w' == w.(engine := w'.engine)
    ensures ChecksOk(setup, w')
  {
    assert RowsDecline(w.rows, w'.rows);
    DeclineChecks(setup, w, w');
  }

  lemma SkipShifts(w: World, t: Engine.Ticket)
    requires EngineOk(w) && JobsOk(w) && Engine.Ready(w.engine, t)
    ensures TasksShift(w, Engine.Ended(w.engine, t))
  {
  }

  lemma SkipSound(setup: Setup, w: World, t: Engine.Ticket)
    requires Resumable(w, t) && StatusOf(w.rows, w.engine.tasks[t].id) != Some(Queued)
    requires Sound(setup, w)
    ensures Sound(setup, Resumed(setup, w, t))
  {
    Engine.EndedInv(w.engine, t);
    SkipShifts(w, t);
    assert w.jobs[w.engine.tasks[t].id].id == w.engine.tasks[t].id;
    EngineSound(setup, w, Engine.Ended(w.engine, t));
  }

  // A body starts

  lemma EnteredHasStarted(w: World, t: Engine.Ticket)
    requires EngineOk(w) && JobsOk(w) && EntriesOk(w) && t in w.engine.tasks
    requires StatusOf(w.rows, w.engine.tasks[t].id) == Some(Queued) && w.engine.tasks[t].id in EnteredIds(w.engine)
    ensures w.engine.tasks[t].started
  {
    var u :| Runs(w, u, w.engine.tasks[t].id) && w.bodies[u].stage.Entering?;
    assert TaskOk(w, w.engine.tasks[u]);
  }

  lemma FirstEntry(w: World, t: Engine.Ticket)
    requires EngineOk(w) && JobsOk(w) && EntriesOk(w) && Engine.Ready(w.engine, t)
    requires StatusOf(w.rows, w.engine.tasks[t].id) == Some(Queued)
    ensures w.engine.tasks[t].id !in EnteredIds(w.engine)
  {
    if w.engine.tasks[t].id in EnteredIds(w.engine) {
      EnteredHasStarted(w, t);
    }
  }

  lemma EnteredNext(s: Engine.State, e: Engine.Entry)
    ensures EnteredIds(s.(entered := s.entered + [e])) == EnteredIds(s) + {e.id}
  {
    var s' := s.(entered := s.entered + [e]);
    forall id | id in EnteredIds(s) + {e.id}
      ensures id in EnteredIds(s')
    {
      if id == e.id {
        assert s'.entered[|s.entered|].id == id;
      } else {
        var i :| 0 <= i < |s.entered| && s.entered[i].id == id;
        assert s'.entered[i].id == id;
      }
    }
  }

  /** A deployment that enters meets the conditions under which the pipeline starts. */
  lemma StartMeetsPipeline(setup: Setup, w: World, t: Engine.Ticket)
    requires Resumable(w, t) && StatusOf(w.rows, w.engine.tasks[t].id) == Some(Queued)
    requires JobsOk(w) && Owners(w) && w.engine.tasks[t].id !in EnteredIds(w.engine)
    ensures var b := Resumed(setup, w, t).bodies[t];
      PipelineSafety.Started(b.origin, View(w, b))
  {
    var job := w.jobs[w.engine.tasks[t].id];
    assert job.id == w.engine.tasks[t].id;
  }

  /** One more body, and one more entry. */
  ghost predicate Starts(w: World, w': World, t: Engine.Ticket, id: Id)
  {
    && w' == w.(engine := w'.engine, bodies := w'.bodies)
    && t !in w.bodies && t in w'.bodies && w'.bodies == w.bodies[t := w'.bodies[t]]
    && w'.bodies[t].origin.job.id == id && w'.bodies[t].stage.Entering?
    && w'.engine.entered == w.engine.entered + [Engine.Entry(t, id, w'.bodies[t].origin.job.project)]
    && id !in EnteredIds(w.engine)
  }

  lemma StartStarts(setup: Setup, w: World, t: Engine.Ticket)
    requires Resumable(w, t) && StatusOf(w.rows, w.engine.tasks[t].id) == Some(Queued)
    requires EngineOk(w) && JobsOk(w) && EntriesOk(w)
    ensures Starts(w, Resumed(setup, w, t), t, w.engine.tasks[t].id)
  {
    FirstEntry(w, t);
    assert TaskOk(w, w.engine.tasks[t]);
    assert w.jobs[w.engine.tasks[t].id].id == w.engine.tasks[t].id;
  }

  lemma StartsBodies(w: World, w': World, t: Engine.Ticket, id: Id)
    requires Starts(w, w', t, id)
    ensures EnteredIds(w'.engine) == EnteredIds(w.engine) + {id}
    ensures forall other :: HasBody(w, other) ==> HasBody(w', other)
    ensures forall other :: EntersNow(w, other) ==> EntersNow(w', other)
    ensures forall other, p :: LockBody(w, other, p) ==> LockBody(w', other, p)
    ensures EntersNow(w', id)
  {
    EnteredNext(w.engine, Engine.Entry(t, id, w'.bodies[t].origin.job.project));
    assert EnteredIds(w'.engine) == EnteredIds(w.engine.(entered := w'.engine.entered));
    assert forall u, other :: Runs(w, u, other) ==> Runs(w', u, other) && w'.bodies[u] == w.bodies[u];
    assert Runs(w', t, id);
  }

  lemma StartsOwners(w: World, w': World, t: Engine.Ticket, id: Id)
    requires Starts(w, w', t, id) && Owners(w)
    ensures Owners(w')
  {
    StartsBodies(w, w', t, id);
    StartsEntries(w, w', t, id);
  }

  lemma StartsEntries(w: World, w': World, t: Engine.Ticket, id: Id)
    requires Starts(w, w', t, id) && EntriesOk(w)
    ensures EntriesOk(w')
  {
    StartsBodies(w, w', t, id);
    forall i | 0 <= i < |w.engine.entered|
      ensures w'.engine.entered[i].id == w.engine.entered[i].id != id
    {
      assert w.engine.entered[i].id in EnteredIds(w.engine);
    }
  }

  lemma StartsJobs(setup: Setup, w: World, t: Engine.Ticket)
    requires Resumable(w, t) && StatusOf(w.rows, w.engine.tasks[t].id) == Some(Queued)
    requires EngineOk(w) && JobsOk(w)
    ensures var w' := Resumed(setup, w, t);
      EnteredIds(w'.engine) == EnteredIds(w.engine) + {w.engine.tasks[t].id} ==> JobsOk(w')
  {
    var w' := Resumed(setup, w, t);
    assert w.jobs[w.engine.tasks[t].id].id == w.engine.tasks[t].id;
    forall u | u in w'.engine.tasks
      ensures TaskOk(w', w'.engine.tasks[u])
    {
      assert TaskOk(w, w.engine.tasks[u]);
    }
  }

  lemma StartsEngine(setup: Setup, w: World, t: Engine.Ticket)
    requires Resumable(w, t) && EngineOk(w) && w.jobs[w.engine.tasks[t].id].id == w.engine.tasks[t].id
    requires StatusOf(w.rows, w.engine.tasks[t].id) == Some(Queued)
    ensures EngineOk(Resumed(setup, w, t))
  {
    var w' := Resumed(setup, w, t);
    Engine.StartedInv(w.engine, t);
    assert w'.engine == Engine.Resumed(w.engine, t, true);
    StartedTasks(w, w', t);
  }

  lemma StartedTasks(w: World, w': World, t: Engine.Ticket)
    requires t in w.engine.tasks && w'.engine == Engine.Resumed(w.engine, t, true)
    requires t in w'.bodies && w'.bodies == w.bodies[t := w'.bodies[t]]
    requires forall u :: u in w.bodies <==> u in w.engine.tasks && w.engine.tasks[u].started
    ensures forall u :: u in w'.bodies <==> u in w'.engine.tasks && w'.engine.tasks[u].started
  {
  }

  lemma StartsCells(w: World, w': World, t: Engine.Ticket, id: Id)
    requires Starts(w, w', t, id) && CellsOk(w)
    requires PipelineSafety.Started(w'.bodies[t].origin, View(w', w'.bodies[t]))
    ensures CellsOk(w')
  {
    forall u | u in w'.bodies
      ensures PipelineRuns.Reachable(w'.bodies[u].origin, View(w', w'.bodies[u]))
    {
      if u == t {
        PipelineRuns.StartedReachable(w'.bodies[t].origin, View(w', w'.bodies[t]));
      } else {
        assert View(w', w.bodies[u]) == View(w, w.bodies[u]);
      }
    }
  }

  lemma StartSound(setup: Setup, w: World, t: Engine.Ticket)
    requires Resumable(w, t) && StatusOf(w.rows, w.engine.tasks[t].id) == Some(Queued)
    requires Sound(setup, w)
    ensures Sound(setup, Resumed(setup, w, t))
  {
    var w', id := Resumed(setup, w, t), w.engine.tasks[t].id;
    StartStarts(setup, w, t);
    StartsWork(setup, w, t);
    StartsOwners(w, w', t, id);
    StartsQueue(setup, w, w');
  }

  lemma StartsWork(setup: Setup, w: World, t: Engine.Ticket)
    requires Resumable(w, t) && StatusOf(w.rows, w.engine.tasks[t].id) == Some(Queued)
    requires EngineOk(w) && JobsOk(w) && CellsOk(w) && Owners(w)
    ensures var w' := Resumed(setup, w, t); EngineOk(w') && JobsOk(w') && CellsOk(w')
  {
    var w', id := Resumed(setup, w, t), w.engine.tasks[t].id;
    StartStarts(setup, w, t);
    StartsBodies(w, w', t, id);
    StartsJobs(setup, w, t);
    StartsEngine(setup, w, t);
    StartReaches(setup, w, t);
  }

  lemma StartReaches(setup: Setup, w: World, t: Engine.Ticket)
    requires Resumable(w, t) && StatusOf(w.rows, w.engine.tasks[t].id) == Some(Queued)
    requires JobsOk(w) && CellsOk(w) && Owners(w)
    requires Starts(w, Resumed(setup, w, t), t, w.engine.tasks[t].id)
    ensures CellsOk(Resumed(setup, w, t))
  {
    StartMeetsPipeline(setup, w, t);
    StartsCells(w, Resumed(setup, w, t), t, w.engine.tasks[t].id);
  }

  lemma StartsQueue(setup: Setup, w: World, w': World)
    requires QueueOk(setup, w) && ChecksOk(setup, w) && w' == w.(engine := w'.engine, bodies := w'.bodies)
    ensures QueueOk(setup, w') && ChecksOk(setup, w')
  {
    SameQueue(setup, w, w');
    assert RowsDecline(w.rows, w'.rows);
    DeclineChecks(setup, w, w');
  }

  // A body moves

  /** What a move of the body at `t` may write: a result of the pipeline that keeps its invariant. */
  ghost predicate Writable(w: World, t: Engine.Ticket, c': Cell)
  {
    && t in w.bodies
    && PipelineRuns.Reachable(w.bodies[t].origin, c')
    && PipelineRuns.Shares(w.bodies[t].origin.job, View(w, w.bodies[t]), c')
  }

  lemma WrittenRows(w: World, t: Engine.Ticket, c': Cell)
    requires t in w.bodies && PipelineRuns.StatusSteps(View(w, w.bodies[t]).status, c'.status)
    ensures var rows' := Written(w, t, c').rows;
      var id := w.bodies[t].origin.job.id;
      && rows'.Keys == w.rows.Keys
      && (forall other :: other in w.rows && other != id ==> rows'[other] == w.rows[other])
      && StatusOf(rows', id) == c'.status
      && (id in w.rows ==> rows'[id].project == w.rows[id].project && rows'[id].targetSha == w.rows[id].targetSha)
  {
  }

  lemma WrittenView(w: World, t: Engine.Ticket, c': Cell)
    requires t in w.bodies && PipelineRuns.StatusSteps(View(w, w.bodies[t]).status, c'.status)
    ensures View(Written(w, t, c'), Written(w, t, c').bodies[t]) == c'
  {
    WrittenRows(w, t, c');
  }

  lemma WrittenOther(w: World, t: Engine.Ticket, u: Engine.Ticket, c': Cell)
    requires t in w.bodies && u in w.bodies
    requires w.bodies[t].origin.job.id != w.bodies[u].origin.job.id
    requires w.bodies[t].origin.job.project != w.bodies[u].origin.job.project
    ensures View(Written(w, t, c'), w.bodies[u]) == View(w, w.bodies[u])
  {
  }

  lemma CellsButOne(w: World, w': World, t: Engine.Ticket, c: Cell)
    requires CellsOk(w) && t in w'.bodies && View(w', w'.bodies[t]) == c && PipelineRuns.Reachable(w'.bodies[t].origin, c)
    requires forall u :: u in w'.bodies && u != t ==>
      && u in w.bodies && w'.bodies[u].origin == w.bodies[u].origin && View(w', w'.bodies[u]) == View(w, w.bodies[u])
    ensures CellsOk(w')
  {
    forall u | u in w'.bodies
      ensures PipelineRuns.Reachable(w'.bodies[u].origin, View(w', w'.bodies[u]))
    {
    }
  }

  lemma WrittenOthers(w: World, t: Engine.Ticket, c': Cell)
    requires EngineOk(w) && JobsOk(w) && t in w.bodies
    ensures forall u :: u in w.bodies && u != t ==> View(Written(w, t, c'), w.bodies[u]) == View(w, w.bodies[u])
  {
    forall u | u in w.bodies && u != t
      ensures View(Written(w, t, c'), w.bodies[u]) == View(w, w.bodies[u])
    {
      BodiesDiffer(w, t, u);
      WrittenOther(w, t, u, c');
    }
  }

  lemma WrittenCells(w: World, t: Engine.Ticket, c': Cell)
    requires CellsOk(w) && Writable(w, t, c')
    requires forall u :: u in w.bodies && u != t ==> View(Written(w, t, c'), w.bodies[u]) == View(w, w.bodies[u])
    ensures CellsOk(Written(w, t, c'))
  {
    WrittenView(w, t, c');
    CellsButOne(w, Written(w, t, c'), t, c');
  }

  lemma WrittenBodies(w: World, t: Engine.Ticket, c': Cell)
    requires t in w.bodies
    ensures var w' := Written(w, t, c');
      && (forall u, id :: Runs(w', u, id) <==> Runs(w, u, id))
      && (forall id :: HasBody(w', id) <==> HasBody(w, id))
      && (forall id, p :: LockBody(w', id, p) <==> LockBody(w, id, p))
  {
    var w' := Written(w, t, c');
    assert forall u, id :: Runs(w', u, id) <==> Runs(w, u, id);
    assert forall u :: u in w.bodies ==> u in w'.bodies && w'.bodies[u].origin == w.bodies[u].origin;
  }

  lemma WrittenJobs(w: World, t: Engine.Ticket, c': Cell)
    requires JobsOk(w) && t in w.bodies && PipelineRuns.StatusSteps(View(w, w.bodies[t]).status, c'.status)
    ensures JobsOk(Written(w, t, c'))
  {
    WrittenRows(w, t, c');
    var w' := Written(w, t, c');
    forall u | u in w'.engine.tasks
      ensures TaskOk(w', w'.engine.tasks[u])
    {
      assert TaskOk(w, w.engine.tasks[u]);
    }
  }

  lemma WrittenOwned(w: World, t: Engine.Ticket, c': Cell)
    requires RowsOwned(w) && t in w.bodies && PipelineRuns.StatusSteps(View(w, w.bodies[t]).status, c'.status)
    ensures RowsOwned(Written(w, t, c'))
  {
    WrittenRows(w, t, c');
    WrittenBodies(w, t, c');
    assert Runs(w, t, w.bodies[t].origin.job.id);
  }

  lemma QueuedIsEntering(o: PipelineSafety.Origin, c: Cell)
    requires PipelineRuns.Reachable(o, c) && c.status == Some(Queued)
    ensures c.stage.Entering?
  {
    PipelineRuns.ReachableInv(o, c);
    assert PipelineSafety.Bookkept(c);
    assert c.stage.Notifying? ==> c.stage == Notifying(true) || c.stage == Notifying(false);
    assert c.stage.Undoing? ==> c.stage.why == RestoreCancelled || c.stage.why == RollBackFailed;
  }

  lemma WrittenEntries(w: World, t: Engine.Ticket, c': Cell)
    requires EntriesOk(w) && t in w.bodies && PipelineRuns.Reachable(w.bodies[t].origin, c')
    requires PipelineRuns.StatusSteps(View(w, w.bodies[t]).status, c'.status)
    ensures EntriesOk(Written(w, t, c'))
  {
    WrittenRows(w, t, c');
    var w', own := Written(w, t, c'), w.bodies[t].origin.job.id;
    forall id | id in EnteredIds(w'.engine) && StatusOf(w'.rows, id) == Some(Queued)
      ensures EntersNow(w', id)
    {
      if id == own {
        OwnEnters(w, t, c');
      } else {
        StillEnters(w, t, c', id);
      }
    }
  }

  lemma OwnEnters(w: World, t: Engine.Ticket, c': Cell)
    requires t in w.bodies && PipelineRuns.Reachable(w.bodies[t].origin, c') && c'.status == Some(Queued)
    ensures EntersNow(Written(w, t, c'), w.bodies[t].origin.job.id)
  {
    QueuedIsEntering(w.bodies[t].origin, c');
    assert Runs(Written(w, t, c'), t, w.bodies[t].origin.job.id);
  }

  lemma StillEnters(w: World, t: Engine.Ticket, c': Cell, id: Id)
    requires t in w.bodies && EntersNow(w, id) && id != w.bodies[t].origin.job.id
    ensures EntersNow(Written(w, t, c'), id)
  {
    var w' := Written(w, t, c');
    var u :| Runs(w, u, id) && w.bodies[u].stage.Entering?;
    assert Runs(w', u, id) && w'.bodies[u] == w.bodies[u];
  }

  lemma WrittenRegistry(w: World, t: Engine.Ticket, c': Cell)
    requires RegistryOk(w) && EntriesOk(w) && JobsOk(w) && t in w.bodies
    ensures RegistryOk(Written(w, t, c'))
  {
    BodyMatches(w, t);
    WrittenBodies(w, t, c');
    assert Runs(w, t, w.bodies[t].origin.job.id);
  }

  lemma WrittenLocks(w: World, t: Engine.Ticket, c': Cell)
    requires LocksOk(w) && EntriesOk(w) && JobsOk(w) && RegistryOk(w) && t in w.bodies
    requires PipelineRuns.Shares(w.bodies[t].origin.job, View(w, w.bodies[t]), c')
    ensures LocksOk(Written(w, t, c'))
  {
    WrittenRows(w, t, c');
    WrittenBodies(w, t, c');
    BodyMatches(w, t);
    var w', own := Written(w, t, c'), w.bodies[t].origin.job;
    assert Runs(w, t, own.id) && LockBody(w, own.id, own.project);
    forall p | p in w'.locks
      ensures LockOk(w', p, w'.locks[p].lockedBy)
    {
      if p != own.project || w'.locks[p].lockedBy != own.id {
        WrittenKeepsLock(w, t, c', p);
        LockStaysOk(w, t, c', p);
      }
    }
  }

  lemma WrittenKeepsLock(w: World, t: Engine.Ticket, c': Cell, p: Project)
    requires LocksOk(w) && t in w.bodies && PipelineRuns.Shares(w.bodies[t].origin.job, View(w, w.bodies[t]), c')
    requires p in Written(w, t, c').locks
    requires p != w.bodies[t].origin.job.project || Written(w, t, c').locks[p].lockedBy != w.bodies[t].origin.job.id
    ensures p in w.locks && Written(w, t, c').locks[p] == w.locks[p] && LockOk(w, p, w.locks[p].lockedBy)
  {
  }

  lemma LockStaysOk(w: World, t: Engine.Ticket, c': Cell, p: Project)
    requires t in w.bodies && PipelineRuns.StatusSteps(View(w, w.bodies[t]).status, c'.status)
    requires p in w.locks && LockOk(w, p, w.locks[p].lockedBy)
    ensures LockOk(Written(w, t, c'), p, w.locks[p].lockedBy)
  {
    WrittenRows(w, t, c');
    WrittenBodies(w, t, c');
  }

  lemma WrittenHosts(w: World, t: Engine.Ticket, c': Cell)
    requires HostsOk(w) && EntriesOk(w) && Writable(w, t, c')
    ensures HostsOk(Written(w, t, c'))
  {
    PipelineRuns.CurrentReleaseExists(w.bodies[t].origin, c');
  }

  lemma WrittenDeclines(w: World, t: Engine.Ticket, c': Cell)
    requires t in w.bodies && PipelineRuns.StatusSteps(View(w, w.bodies[t]).status, c'.status)
    ensures RowsDecline(w.rows, Written(w, t, c').rows)
  {
    WrittenRows(w, t, c');
  }

  lemma WrittenSound(setup: Setup, w: World, t: Engine.Ticket, c': Cell)
    requires Sound(setup, w) && Writable(w, t, c')
    ensures Sound(setup, Written(w, t, c'))
  {
    var w' := Written(w, t, c');
    WrittenOthers(w, t, c');
    WrittenCells(w, t, c');
    WrittenJobs(w, t, c');
    WrittenOwners(w, t, c');
    WrittenQueue(setup, w, t, c');
  }

  lemma WrittenQueue(setup: Setup, w: World, t: Engine.Ticket, c': Cell)
    requires QueueOk(setup, w) && ChecksOk(setup, w) && Writable(w, t, c')
    ensures QueueOk(setup, Written(w, t, c')) && ChecksOk(setup, Written(w, t, c'))
  {
    WrittenDeclines(w, t, c');
    DeclineQueue(setup, w, Written(w, t, c'));
    DeclineChecks(setup, w, Written(w, t, c'));
  }

  lemma WrittenOwners(w: World, t: Engine.Ticket, c': Cell)
    requires JobsOk(w) && Owners(w) && Writable(w, t, c')
    ensures Owners(Written(w, t, c'))
  {
    WrittenOwned(w, t, c');
    WrittenEntries(w, t, c');
    WrittenRegistry(w, t, c');
    WrittenLocks(w, t, c');
    WrittenHosts(w, t, c');
  }

  // A body returns

  /** The body at `t` is gone, and with it its task. */
  function Gone(w: World, t: Engine.Ticket): World
    requires t in w.bodies && t in w.engine.tasks
  {
    w.(engine := Engine.Ended(w.engine, t), bodies := w.bodies - {t})
  }

  lemma ReturnedIsFinished(o: PipelineSafety.Origin, c: Cell)
    requires PipelineRuns.Reachable(o, c) && c.stage.Returned?
    ensures c.status.Some? ==> Terminal(c.status.value)
    ensures c.controller != Some(true)
  {
    PipelineRuns.ReachableInv(o, c);
  }

  lemma GoneBodies(w: World, t: Engine.Ticket)
    requires t in w.bodies && t in w.engine.tasks
    ensures var w', own := Gone(w, t), w.bodies[t].origin.job.id;
      && (forall id :: HasBody(w, id) && id != own ==> HasBody(w', id))
      && (forall id :: EntersNow(w, id) && id != own ==> EntersNow(w', id))
      && (forall id, p :: LockBody(w, id, p) && id != own ==> LockBody(w', id, p))
  {
    var w', own := Gone(w, t), w.bodies[t].origin.job.id;
    assert forall u, id :: Runs(w, u, id) && id != own ==> Runs(w', u, id) && w'.bodies[u] == w.bodies[u];
  }

  lemma GoneEngine(w: World, t: Engine.Ticket)
    requires EngineOk(w) && t in w.bodies
    ensures EngineOk(Gone(w, t))
  {
    Engine.EndedInv(w.engine, t);
  }

  lemma GoneJobs(w: World, t: Engine.Ticket)
    requires EngineOk(w) && JobsOk(w) && t in w.bodies
    ensures JobsOk(Gone(w, t))
  {
    var w' := Gone(w, t);
    assert EnteredIds(w'.engine) == EnteredIds(w.engine);
    forall u | u in w'.engine.tasks
      ensures TaskOk(w', w'.engine.tasks[u])
    {
      assert TaskOk(w, w.engine.tasks[u]);
    }
    forall u | u in w'.bodies
      ensures u in w'.engine.tasks && w'.bodies[u].origin.job == w'.jobs[w'.engine.tasks[u].id]
    {
      assert TaskOk(w, w.engine.tasks[u]);
    }
  }

  lemma GoneOwners(w: World, t: Engine.Ticket)
    requires Owners(w) && JobsOk(w) && t in w.bodies && t in w.engine.tasks
    requires var c := View(w, w.bodies[t]);
      && (c.status.Some? ==> Terminal(c.status.value)) && c.controller != Some(true)
      && (HoldsLock(c, w.bodies[t].origin.job.id) ==> c.status == Some(Cancelled))
    ensures Owners(Gone(w, t))
  {
    GoneEntries(w, t);
    GoneRegistry(w, t);
    GoneLocks(w, t);
    GoneHosts(w, t);
  }

  lemma GoneEntries(w: World, t: Engine.Ticket)
    requires RowsOwned(w) && EntriesOk(w) && t in w.bodies && t in w.engine.tasks
    requires var c := View(w, w.bodies[t]); c.status.Some? ==> Terminal(c.status.value)
    ensures RowsOwned(Gone(w, t)) && EntriesOk(Gone(w, t))
  {
    GoneBodies(w, t);
  }

  lemma GoneHosts(w: World, t: Engine.Ticket)
    requires HostsOk(w) && t in w.bodies && t in w.engine.tasks
    ensures HostsOk(Gone(w, t))
  {
  }

  lemma GoneRegistry(w: World, t: Engine.Ticket)
    requires RegistryOk(w) && t in w.bodies && t in w.engine.tasks
    requires View(w, w.bodies[t]).controller != Some(true)
    ensures RegistryOk(Gone(w, t))
  {
    GoneBodies(w, t);
  }

  /** A lock that outlives its body is held under a final row. */
  lemma GoneLocks(w: World, t: Engine.Ticket)
    requires LocksOk(w) && JobsOk(w) && RegistryOk(w) && t in w.bodies && t in w.engine.tasks
    requires var c := View(w, w.bodies[t]); HoldsLock(c, w.bodies[t].origin.job.id) ==> c.status == Some(Cancelled)
    ensures LocksOk(Gone(w, t))
  {
    GoneBodies(w, t);
    BodyMatches(w, t);
    var w', own := Gone(w, t), w.bodies[t].origin.job;
    forall p | p in w'.locks
      ensures LockOk(w', p, w'.locks[p].lockedBy)
    {
      assert LockOk(w, p, w.locks[p].lockedBy);
    }
  }

  lemma GoneCells(w: World, t: Engine.Ticket)
    requires CellsOk(w) && t in w.bodies && t in w.engine.tasks
    ensures CellsOk(Gone(w, t))
  {
    var w' := Gone(w, t);
    forall u | u in w'.bodies
      ensures PipelineRuns.Reachable(w'.bodies[u].origin, View(w', w'.bodies[u]))
    {
      assert View(w', w'.bodies[u]) == View(w, w.bodies[u]);
    }
  }

  lemma GoneSound(setup: Setup, w: World, t: Engine.Ticket)
    requires Sound(setup, w) && t in w.bodies && w.bodies[t].stage.Returned?
    requires var c := View(w, w.bodies[t]); HoldsLock(c, w.bodies[t].origin.job.id) ==> c.status == Some(Cancelled)
    ensures Sound(setup, Gone(w, t))
  {
    ReturnedIsFinished(w.bodies[t].origin, View(w, w.bodies[t]));
    GoneEngine(w, t);
    GoneOwners(w, t);
    GoneJobs(w, t);
    GoneCells(w, t);
    StartsQueue(setup, w, Gone(w, t));
  }

  /** A run returns with its lock only under a cancelled row. */
  lemma ReturnsWithLock(o: PipelineSafety.Origin, c: Cell, b: Beat)
    requires PipelineRuns.Reachable(o, c) && !c.stage.Returned? && Releases.Listing(c.host.store, b.disk.listing)
    ensures var c' := Advance(o.job, o.config, c, b);
      c'.stage.Returned? && HoldsLock(c', o.job.id) ==> c'.status == Some(Cancelled)
  {
    PipelineRuns.ReachableInv(o, c);
    if c.stage.In? || c.stage.At? {
      StepsDoNotReturn(o, c, b);
    } else if c.stage.Entering? {
      PipelineSafety.EarlyOpens(o, c, b);
    }
  }

  lemma StepsDoNotReturn(o: PipelineSafety.Origin, c: Cell, b: Beat)
    requires PipelineSafety.WellStaged(o, c) && (c.stage.In? || c.stage.At?)
    requires Releases.Listing(c.host.store, b.disk.listing)
    ensures !Advance(o.job, o.config, c, b).stage.Returned?
  {
    if c.stage.In? {
      PipelineSafety.FinishFinishes(o, c, b);
    } else {
      PipelineSafety.BeginBegins(o, c, b);
    }
  }

  lemma StepWritable(w: World, t: Engine.Ticket, b: Beat)
    requires CellsOk(w) && t in w.bodies
    requires Releases.Listing(HostOf(w, w.bodies[t].origin.job.project).store, b.disk.listing)
    ensures Writable(w, t, Advance(w.bodies[t].origin.job, w.bodies[t].origin.config, View(w, w.bodies[t]), b))
  {
    var o, c := w.bodies[t].origin, View(w, w.bodies[t]);
    PipelineRuns.MovedReachable(o, c, PipelineRuns.Own(b));
    PipelineRuns.ReachableInv(o, c);
    PipelineRuns.AdvanceShares(o, c, b);
  }

  lemma StepSound(setup: Setup, w: World, t: Engine.Ticket, b: Beat)
    requires t in w.bodies && t in w.engine.tasks && !w.bodies[t].stage.Returned?
    requires Releases.Listing(HostOf(w, w.bodies[t].origin.job.project).store, b.disk.listing)
    requires Sound(setup, w)
    ensures Sound(setup, Stepped(w, t, b))
  {
    var o, c := w.bodies[t].origin, View(w, w.bodies[t]);
    var c' := Advance(o.job, o.config, c, b);
    StepWritable(w, t, b);
    WrittenSound(setup, w, t, c');
    if c'.stage.Returned? {
      ReturnsWithLock(o, c, b);
      WrittenView(w, t, c');
      GoneSound(setup, Written(w, t, c'), t);
    }
  }
}
