/** Every body of the daemon that has entered holds the lock of its project until it leaves. */
module ControlPlaneLocks {
  import opened Records
  import opened Pipeline
  import opened ControlPlane
  import opened ControlPlaneSafety
  import opened ControlPlaneSteps
  import Engine
  import LockTable
  import PipelineRuns
  import PipelineSafety
  import Releases

  // One body

  /** The first segment ends with the lock, if the project is known, the row is not cancelled, and nobody else holds the
      lock who is unfinished and heard of recently. */
  lemma EntryTakesLock(o: PipelineSafety.Origin, c: Cell, b: Beat)
    requires c.stage.Entering? && Releases.Listing(c.host.store, b.disk.listing)
    requires b.projectKnown && c.status != Some(Cancelled)
    requires c.lock.Some? ==>
      c.lock.value.lockedBy == o.job.id || LockTable.Takeable(c.lock.value, b.rows, b.now, LockTable.LOCK_TIMEOUT_MS)
    ensures var c' := Advance(o.job, o.config, c, b); c'.stage.Preflight? && c'.lockAcquired && HoldsLock(c', o.job.id)
  {
  }

  lemma EntryReturns(o: PipelineSafety.Origin, c: Cell, b: Beat)
    requires c.stage.Entering? && Releases.Listing(c.host.store, b.disk.listing)
    requires !b.projectKnown || c.status == Some(Cancelled)
    ensures Advance(o.job, o.config, c, b).stage.Returned?
  {
  }

  /** No later segment gives the lock up, except the last. */
  lemma KeepsLock(o: PipelineSafety.Origin, c: Cell, b: Beat)
    requires PipelineRuns.Reachable(o, c) && Releases.Listing(c.host.store, b.disk.listing)
    requires !c.stage.Entering? && !c.stage.Returned? && c.lockAcquired && HoldsLock(c, o.job.id)
    ensures var c' := Advance(o.job, o.config, c, b);
      !c'.stage.Returned? ==> !c'.stage.Entering? && c'.lockAcquired && HoldsLock(c', o.job.id)
  {
    PipelineRuns.ReachableInv(o, c);
    if c.stage.In? || c.stage.At? {
      StepKeepsLock(o, c, b);
    } else if c.stage.Undoing? {
      PipelineSafety.UndoneUndoes(o, c, b);
    } else if c.stage.Throwing? {
      PipelineSafety.CatchCatches(o, c, b);
    }
  }

  lemma StepKeepsLock(o: PipelineSafety.Origin, c: Cell, b: Beat)
    requires PipelineSafety.WellStaged(o, c) && Releases.Listing(c.host.store, b.disk.listing)
    requires (c.stage.In? || c.stage.At?) && c.lockAcquired && HoldsLock(c, o.job.id)
    ensures var c' := Advance(o.job, o.config, c, b); !c'.stage.Entering? && c'.lockAcquired && HoldsLock(c', o.job.id)
  {
    if c.stage.In? {
      PipelineSafety.FinishFinishes(o, c, b);
    } else {
      PipelineSafety.BeginBegins(o, c, b);
    }
  }

  // The daemon

  /** The lock that a body meets when it enters: its own, free, or a finished holder's. */
  lemma MetLockIsTakeable(w: World, t: Engine.Ticket)
    requires EngineOk(w) && JobsOk(w) && LocksOk(w) && t in w.bodies && w.bodies[t].origin.job.project in w.locks
    ensures var lock := w.locks[w.bodies[t].origin.job.project];
      lock.lockedBy == w.bodies[t].origin.job.id || LockTable.HolderFinished(w.rows, lock.lockedBy)
  {
    var project := w.bodies[t].origin.job.project;
    var holder := w.locks[project].lockedBy;
    assert LockOk(w, project, holder);
    if LockBody(w, holder, project) {
      var u :| Runs(w, u, holder) && w.bodies[u].origin.job.project == project;
      if u != t {
        BodiesDiffer(w, t, u);
      }
    }
  }

  /** The body at `t` may make a segment now, with this beat. */
  predicate Steppable(w: World, t: Engine.Ticket, b: Beat)
  {
    && t in w.bodies && t in w.engine.tasks && b.rows == w.rows && b.now == w.now
    && Releases.Listing(HostOf(w, w.bodies[t].origin.job.project).store, b.disk.listing)
  }

  function NextCell(w: World, t: Engine.Ticket, b: Beat): Cell
    requires Steppable(w, t, b)
  {
    Advance(w.bodies[t].origin.job, w.bodies[t].origin.config, View(w, w.bodies[t]), b)
  }

  predicate LeftWithLock(c: Cell, id: Id)
  {
    !c.stage.Returned? ==> !c.stage.Entering? && c.lockAcquired && HoldsLock(c, id)
  }

  /** A segment of the body at `t` that does not return leaves it with the lock. */
  lemma StepTakesLock(w: World, t: Engine.Ticket, b: Beat)
    requires Steppable(w, t, b) && EngineOk(w) && JobsOk(w) && LocksOk(w) && CellsOk(w) && Holding(w)
    ensures LeftWithLock(NextCell(w, t, b), w.bodies[t].origin.job.id)
  {
    if !w.bodies[t].stage.Entering? {
      assert BodyHolds(w, w.bodies[t]);
      KeepsLock(w.bodies[t].origin, View(w, w.bodies[t]), b);
    } else {
      EntryStepTakesLock(w, t, b);
    }
  }

  lemma EntryStepTakesLock(w: World, t: Engine.Ticket, b: Beat)
    requires Steppable(w, t, b) && EngineOk(w) && JobsOk(w) && LocksOk(w) && w.bodies[t].stage.Entering?
    ensures LeftWithLock(NextCell(w, t, b), w.bodies[t].origin.job.id)
    ensures NextCell(w, t, b).stage.Returned? <==>
      !b.projectKnown || StatusOf(w.rows, w.bodies[t].origin.job.id) == Some(Cancelled)
    ensures !NextCell(w, t, b).stage.Returned? ==> NextCell(w, t, b).stage.Preflight?
  {
    var o, c := w.bodies[t].origin, View(w, w.bodies[t]);
    if !b.projectKnown || c.status == Some(Cancelled) {
      EntryReturns(o, c, b);
    } else {
      if o.job.project in w.locks {
        MetLockIsTakeable(w, t);
      }
      EntryTakesLock(o, c, b);
    }
  }

  lemma WrittenHolding(w: World, t: Engine.Ticket, c': Cell)
    requires EngineOk(w) && JobsOk(w) && Holding(w) && t in w.bodies && LeftWithLock(c', w.bodies[t].origin.job.id)
    ensures HoldingBut(Written(w, t, c'), t)
    ensures !c'.stage.Returned? ==> Holding(Written(w, t, c'))
  {
    var w' := Written(w, t, c');
    forall u | u in w'.bodies && !w'.bodies[u].stage.Entering? && u != t
      ensures BodyHolds(w', w'.bodies[u])
    {
      assert BodyHolds(w, w.bodies[u]);
      BodiesDiffer(w, t, u);
      WrittenKeepsOther(w, t, u, c');
    }
    if !c'.stage.Returned? {
      assert BodyHolds(w', w'.bodies[t]);
    }
  }

  lemma WrittenKeepsOther(w: World, t: Engine.Ticket, u: Engine.Ticket, c': Cell)
    requires t in w.bodies && u in w.bodies && u != t && BodyHolds(w, w.bodies[u])
    requires w.bodies[t].origin.job.project != w.bodies[u].origin.job.project
    ensures BodyHolds(Written(w, t, c'), Written(w, t, c').bodies[u])
  {
  }

  ghost predicate HoldingBut(w: World, t: Engine.Ticket)
  {
    forall u :: u in w.bodies && !w.bodies[u].stage.Entering? && u != t ==> BodyHolds(w, w.bodies[u])
  }

  lemma GoneHolding(w: World, t: Engine.Ticket)
    requires HoldingBut(w, t) && t in w.bodies && t in w.engine.tasks
    ensures Holding(Gone(w, t))
  {
    var w' := Gone(w, t);
    forall u | u in w'.bodies && !w'.bodies[u].stage.Entering?
      ensures BodyHolds(w', w'.bodies[u])
    {
      assert BodyHolds(w, w.bodies[u]);
    }
  }

  lemma StepHolding(w: World, t: Engine.Ticket, b: Beat)
    requires Steppable(w, t, b) && EngineOk(w) && JobsOk(w) && LocksOk(w) && CellsOk(w) && Holding(w)
    ensures Holding(Stepped(w, t, b))
  {
    StepTakesLock(w, t, b);
    WrittenHolding(w, t, NextCell(w, t, b));
    if NextCell(w, t, b).stage.Returned? {
      GoneHolding(Written(w, t, NextCell(w, t, b)), t);
    }
  }

  lemma ResumeHolding(setup: Setup, w: World, t: Engine.Ticket)
    requires Holding(w) && Enabled(w, Resume(t))
    ensures Holding(Resumed(setup, w, t))
  {
    var w' := Resumed(setup, w, t);
    forall u | u in w'.bodies && !w'.bodies[u].stage.Entering?
      ensures BodyHolds(w', w'.bodies[u])
    {
      assert BodyHolds(w, w.bodies[u]);
    }
  }

  lemma RepairHolding(setup: Setup, w: World)
    requires EngineOk(w) && JobsOk(w) && Holding(w)
    ensures Holding(Repaired(setup, w))
  {
    var w' := Repaired(setup, w);
    forall u | u in w'.bodies && !w'.bodies[u].stage.Entering?
      ensures BodyHolds(w', w'.bodies[u])
    {
      assert BodyHolds(w, w.bodies[u]);
      BodyIsRunning(w, u);
      RepairLocks(setup, w, w.bodies[u].origin.job.project);
    }
  }

  /** Locks may be renewed by their holders, and nothing else that bodies hold them for changes. */
  lemma SameHoldersHolding(w: World, w': World)
    requires Holding(w) && w'.bodies == w.bodies
    requires forall p :: p in w.locks ==> p in w'.locks && w'.locks[p].lockedBy == w.locks[p].lockedBy
    ensures Holding(w')
  {
    forall u | u in w'.bodies && !w'.bodies[u].stage.Entering?
      ensures BodyHolds(w', w'.bodies[u])
    {
      assert BodyHolds(w, w.bodies[u]);
    }
  }

  lemma ApplyHolding(setup: Setup, w: World, a: Event)
    requires Sound(setup, w) && Holding(w) && Enabled(w, a)
    ensures Holding(Apply(setup, w, a))
  {
    if a.Step? {
      StepHolding(w, a.t, a.beat);
    } else if a.Resume? {
      ResumeHolding(setup, w, a.t);
    } else if a.RepairCycle? {
      RepairHolding(setup, w);
    } else {
      OtherHolding(setup, w, a);
    }
  }

  lemma OtherHolding(setup: Setup, w: World, a: Event)
    requires Holding(w) && Enabled(w, a) && !a.Step? && !a.Resume? && !a.RepairCycle?
    ensures Holding(Apply(setup, w, a))
  {
    if a.Heartbeat? {
      HeartbeatHolding(w, w.bodies[a.t].origin.job);
    } else if a.DecideCheck? {
      DecideHolding(setup, w, a.project, a.sha, a.id);
    } else {
      SameHoldersHolding(w, Apply(setup, w, a));
    }
  }

  lemma HeartbeatHolding(w: World, job: Job)
    requires Holding(w)
    ensures Holding(w.(locks := LockTable.Refreshed(w.locks, job.project, job.id, w.now)))
  {
    SameHoldersHolding(w, w.(locks := LockTable.Refreshed(w.locks, job.project, job.id, w.now)));
  }

  lemma DecideHolding(setup: Setup, w: World, project: Project, sha: Sha, id: Id)
    requires Holding(w) && Enabled(w, DecideCheck(project, sha, id))
    ensures Holding(Decided(setup, w, project, sha, id))
  {
    var w' := Decided(setup, w, project, sha, id);
    assert w' == w.(rows := w'.rows, shas := w'.shas, registry := w'.registry, checks := w'.checks, used := w'.used);
    SameHoldersHolding(w, w');
  }
}
