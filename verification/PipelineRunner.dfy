/** `runDeployment` in the source's own shape: steps one after another, loops over commands, a `catch` and a `finally`
    (src/pipeline/pipeline-runner.ts). Every await lets the rest of the world act; the method is proved to make a
    run of the state machine, and to return. */
module PipelineRunner {
  import opened Records
  import opened Rollback
  import opened LockTable
  import opened Pipeline
  import opened PipelineSafety
  import opened PipelineRuns
  import Releases

  /** What happens during one await, and what the run finds after it. */
  datatype Turn = Turn(now: Millis, others: seq<Disturbance>, finds: Cell -> Beat)

  type Schedule = nat -> Turn

  /** Directory listings are true, and every await takes time. */
  ghost predicate Realistic(schedule: Schedule)
  {
    && (forall k: nat, c: Cell :: Releases.Listing(c.host.store, schedule(k).finds(c).disk.listing))
    && (forall k: nat :: schedule(k).now >= k)
  }

  /** One call of `runDeployment`. `cell` holds its variables and what it shares; the ghost fields record the run:
      `before` is the state when the current segment began, and `beat` what the segment has learned. */
  class DeploymentRun {
    const origin: Origin
    const schedule: Schedule
    var cell: Cell
    var turn: nat
    ghost const start: Cell
    ghost var moves: seq<Move>
    ghost var before: Cell
    ghost var beat: Beat

    ghost predicate Recorded()
      reads this
    {
      && Realistic(schedule)
      && Feasible(origin, start, moves) && before == Ran(origin, start, moves)
      && Releases.Listing(before.host.store, beat.disk.listing)
    }

    /** The segment so far is what the state machine does, if it ends at `next`. */
    ghost predicate ReadyFor(next: Stage)
      reads this
    {
      Recorded() && cell.(stage := next) == Advance(origin.job, origin.config, before, beat)
    }

    /** A segment has just begun. */
    ghost predicate Resumed(stage: Stage, b: Beat)
      reads this
    {
      Recorded() && cell == before && cell.stage == stage && b == beat
    }

    /** The segment has come to a round of the polling loop, and has made nothing else so far. */
    ghost predicate Polling(since: Millis, b: Beat)
      reads this
    {
      && Recorded() && b == beat
      && Advance(origin.job, origin.config, before, beat) == PollLock(origin.job, cell.(stage := AcquiringLock(since)), b)
    }

    constructor (origin: Origin, start: Cell, schedule: Schedule)
      requires Realistic(schedule)
      ensures this.origin == origin && this.start == start && this.schedule == schedule
      ensures Resumed(start.stage, Beating(schedule, 0, start)) && cell == start && turn == 0
    {
      this.origin, this.start, this.schedule := origin, start, schedule;
      cell, turn := start, 0;
      moves, before, beat := [], start, Beating(schedule, 0, start);
    }

    /** Everything the state machine knows of the run is extended by one move. */
    ghost method Record(m: Move)
      requires Realistic(schedule) && Feasible(origin, start, moves) && before == Ran(origin, start, moves)
      requires Enabled(origin, before, m) && cell == Moved(origin, before, m)
      modifies this`moves, this`before
      ensures Feasible(origin, start, moves) && before == Ran(origin, start, moves) == cell
    {
      AppendMove(origin, start, moves, m);
      moves := moves + [m];
      before := cell;
    }

    method LetOthersAct(others: seq<Disturbance>)
      requires Realistic(schedule) && Feasible(origin, start, moves) && before == Ran(origin, start, moves) == cell
      modifies this`cell, this`moves, this`before
      ensures Feasible(origin, start, moves) && before == Ran(origin, start, moves) == cell
      ensures cell.stage == old(cell).stage
    {
      for i := 0 to |others|
        invariant Feasible(origin, start, moves) && before == Ran(origin, start, moves) == cell
        invariant cell.stage == old(cell).stage
      {
        if CanHappen(origin.job, cell, others[i]) {
          cell := Disturbed(cell, others[i]);
          Record(Env(others[i]));
        }
      }
    }

    /** An await that ends the segment at `next`. */
    method Await(next: Stage) returns (b: Beat)
      requires ReadyFor(next)
      modifies this
      ensures Resumed(next, b) && turn == old(turn) + 1 && b.now >= turn
    {
      cell := cell.(stage := next);
      Record(Own(beat));
      turn := turn + 1;
      LetOthersAct(schedule(turn).others);
      b := Beating(schedule, turn, cell);
      beat := b;
    }

    predicate IsCancelled()
      reads this
    {
      cell.status == Some(Cancelled)
    }

    method CallOut(call: Call, r: Result)
      modifies this`cell
      ensures cell == if origin.job.dryRun then old(cell) else old(cell).(host := Attempt(old(cell).host, call, r))
    {
      if !origin.job.dryRun {
        cell := cell.(host := Attempt(cell.host, call, r));
      }
    }

    // The steps; `ok` is false when the step throws

    /** The polling loop; its first round belongs to the segment that entered. */
    method AcquireLock(entry: Beat) returns (ok: bool)
      requires Polling(entry.now, entry) && entry.now >= turn
      modifies this
      ensures ReadyFor(if ok then At(Validate) else Throwing)
    {
      var job, startWait, b := origin.job, entry.now, entry;
      var lockAcquired := false;
      while !lockAcquired && b.now - startWait <= LOCK_WAIT_MS
        invariant if lockAcquired then ReadyFor(Preflight) else Polling(startWait, b) && b.now >= turn
        decreases !lockAcquired, startWait + LOCK_WAIT_MS + 1 - turn
      {
        var locks := if cell.lock.Some? then map[job.project := cell.lock.value] else map[];
        locks := Acquired(locks, b.rows, job.project, job.id, b.now);
        lockAcquired := Holds(locks, job.project, job.id);
        if lockAcquired {
          cell := cell.(lock := Some(locks[job.project]), lockAcquired := true);
        } else {
          b := Await(AcquiringLock(startWait));
        }
      }
      if !lockAcquired {
        return false;
      }
      b := Await(Preflight);
      ok := b.ok || job.dryRun;
    }

    method ValidateRepository() returns (ok: bool)
      requires ReadyFor(At(Validate))
      modifies this
      ensures ReadyFor(if ok then At(Fetch) else Throwing)
    {
      var job, config := origin.job, origin.config;
      var b := Await(At(Validate));
      if IsCancelled() {
        return false;
      }
      if !job.dryRun && config.strategy.ReleaseDirs? && job.id !in cell.host.store.releases {
        cell := cell.(host := cell.host.(store := Releases.Touched(cell.host.store, job.id, b.now)));
      }
      b := Await(In(Validate));
      ok := b.ok || job.dryRun;
    }

    method FetchBranch() returns (ok: bool)
      requires ReadyFor(At(Fetch))
      modifies this
      ensures ReadyFor(if ok then At(Resolve) else Throwing)
    {
      var b := Await(At(Fetch));
      if IsCancelled() {
        return false;
      }
      b := Await(In(Fetch));
      ok := b.ok || origin.job.dryRun;
    }

    method ResolveTarget() returns (ok: bool)
      requires ReadyFor(At(Resolve))
      modifies this
      ensures ReadyFor(if ok then At(Prepare) else Throwing)
      ensures ok && !origin.job.dryRun && beat.remoteHead.Some? ==> cell.targetSha == beat.remoteHead.value
    {
      var b := Await(At(Resolve));
      if IsCancelled() {
        return false;
      }
      b := Await(In(Resolve));
      if origin.job.dryRun && cell.targetSha != "" {
        return true;
      }
      if !b.ok {
        return false;
      }
      if b.remoteHead.Some? {
        cell := cell.(targetSha := b.remoteHead.value);
      } else if cell.targetSha == "" {
        return false;
      }
      ok := true;
    }

    method PrepareWorkspace() returns (ok: bool)
      requires ReadyFor(At(Prepare))
      modifies this
      ensures ReadyFor(if ok then At(RefreshConfig) else Throwing)
    {
      var b := Await(At(Prepare));
      if IsCancelled() {
        return false;
      }
      if !origin.job.dryRun {
        cell := cell.(progress := cell.progress.(workspaceMutated := true));
      }
      b := Await(In(Prepare));
      if origin.job.dryRun {
        return true;
      }
      CallOut(ResetHard(WorkingDir(origin.config), cell.targetSha), Result(b.ok, b.took));
      cell := cell.(resetTo := Some(cell.targetSha));
      ok := b.ok;
    }

    method RefreshConfiguration() returns (ok: bool)
      requires ReadyFor(At(RefreshConfig))
      modifies this
      ensures ReadyFor(if !ok then Throwing
                       else if StopsBeforeBuild(origin.config, origin.job.dryRun) then At(StopBeforeBuild)
                       else At(CommandFrom(origin.config, 0)))
    {
      var b := Await(At(RefreshConfig));
      if IsCancelled() {
        return false;
      }
      b := Await(In(RefreshConfig));
      ok := b.ok || origin.job.dryRun;
    }

    /** Not a step: neither the row nor the signal is looked at. */
    method StopEarly()
      requires ReadyFor(At(StopBeforeBuild)) && StopsBeforeBuild(origin.config, origin.job.dryRun)
      modifies this
      ensures ReadyFor(At(CommandFrom(origin.config, 0)))
    {
      var b := Await(At(StopBeforeBuild));
      cell := MarkCritical(cell);
      cell := cell.(progress := cell.progress.(serviceStopped := true));
      b := Await(In(StopBeforeBuild));
      CallOut(StopService, Result(b.ok, b.took));
    }

    /** Where a command step goes on after its commands. */
    function AfterCommands(index: nat): Stage
      requires index < |origin.config.steps|
    {
      if origin.config.steps[index].name == "build" && origin.config.strategy.Isolated? && !origin.job.dryRun
      then In(SyncBuilt(index)) else At(CommandFrom(origin.config, index + 1))
    }

    method RunCommands(index: nat) returns (ok: bool)
      requires index < |origin.config.steps| && origin.config.steps[index].commands != []
      requires ReadyFor(In(Command(index, 0)))
      modifies this
      ensures ReadyFor(if ok then AfterCommands(index) else Throwing)
    {
      var commands := origin.config.steps[index].commands;
      var position := 0;
      while position < |commands|
        invariant 0 <= position <= |commands|
        invariant ReadyFor(if position < |commands| then In(Command(index, position)) else AfterCommands(index))
      {
        ok := RunCommand(index, position);
        if !ok {
          return;
        }
        position := position + 1;
      }
      ok := true;
    }

    method RunCommand(index: nat, position: nat) returns (ok: bool)
      requires index < |origin.config.steps| && position < |origin.config.steps[index].commands|
      requires ReadyFor(In(Command(index, position)))
      modifies this
      ensures ReadyFor(if !ok then Throwing
                       else if position + 1 < |origin.config.steps[index].commands| then In(Command(index, position + 1))
                       else AfterCommands(index))
    {
      var b := Await(In(Command(index, position)));
      var exit := b.ok && !cell.aborted;
      CallOut(Exec(WorkingDir(origin.config), origin.config.steps[index].commands[position]), Result(exit, b.took));
      ok := !cell.aborted && (exit || origin.job.dryRun);
    }

    method CommandStep(index: nat) returns (ok: bool)
      requires index < |origin.config.steps| && origin.config.steps[index].commands != []
      requires ReadyFor(At(Command(index, 0)))
      modifies this
      ensures ReadyFor(if ok then At(CommandFrom(origin.config, index + 1)) else Throwing)
    {
      var b := Await(At(Command(index, 0)));
      if IsCancelled() || cell.aborted {
        return false;
      }
      if StopsForInstall(origin.config, origin.job.dryRun, index) {
        cell := MarkCritical(cell);
        cell := cell.(progress := cell.progress.(serviceStopped := true));
        ok := StopForInstall(index);
        if !ok {
          return;
        }
      }
      ok := RunCommands(index);
      if ok && AfterCommands(index).In? {
        ok := SyncBuiltFiles(index);
      }
    }

    method StopForInstall(index: nat) returns (ok: bool)
      requires ReadyFor(In(InstallStop(index)))
      modifies this
      ensures ReadyFor(if ok then In(Command(index, 0)) else Throwing)
    {
      var b := Await(In(InstallStop(index)));
      CallOut(StopService, Result(b.ok, b.took));
      ok := !cell.aborted;
    }

    method SyncBuiltFiles(index: nat) returns (ok: bool)
      requires index < |origin.config.steps| && AfterCommands(index).In? && ReadyFor(AfterCommands(index))
      modifies this
      ensures ReadyFor(if ok then At(CommandFrom(origin.config, index + 1)) else Throwing)
    {
      var b := Await(In(SyncBuilt(index)));
      CallOut(SyncWorkToLive, Result(b.ok, b.took));
      ok := b.ok;
    }

    method ExecuteBuildCommands() returns (ok: bool)
      requires ReadyFor(At(CommandFrom(origin.config, 0)))
      modifies this
      ensures ReadyFor(if ok then At(if origin.config.strategy.ReleaseDirs? then Activate else ServiceAction) else Throwing)
    {
      var index := 0;
      while index < |origin.config.steps|
        invariant 0 <= index <= |origin.config.steps|
        invariant ReadyFor(At(CommandFrom(origin.config, index)))
      {
        if origin.config.steps[index].commands != [] {
          ok := CommandStep(index);
          if !ok {
            return;
          }
        }
        index := index + 1;
      }
      ok := true;
    }

    method ActivateRelease() returns (ok: bool)
      requires ReadyFor(At(Activate))
      modifies this
      ensures ReadyFor(if ok then At(ServiceAction) else Throwing)
    {
      var b := Await(At(Activate));
      if IsCancelled() || cell.aborted {
        return false;
      }
      if origin.job.dryRun {
        return true;
      }
      cell := MarkCritical(cell);
      if !b.links {
        return false;
      }
      cell := cell.(host := cell.host.(store := Releases.Activated(cell.host.store, origin.job.id)));
      cell := cell.(progress := cell.progress.(releaseActivated := true));
      ok := true;
    }

    method PerformServiceAction() returns (ok: bool)
      requires ReadyFor(At(ServiceAction))
      modifies this
      ensures ReadyFor(if ok then At(ReadyCheck) else Throwing)
    {
      var b := Await(At(ServiceAction));
      if IsCancelled() || cell.aborted {
        return false;
      }
      if !origin.job.dryRun {
        cell := MarkCritical(cell);
        cell := cell.(progress := cell.progress.(serviceActionStarted := true));
      }
      b := Await(In(ServiceAction));
      var call := ServiceCalls(origin.config);
      if call.None? {
        return true;
      }
      CallOut(call.value, Result(b.ok, b.took));
      ok := b.ok || origin.job.dryRun;
    }

    method CheckReadiness() returns (ok: bool)
      requires ReadyFor(At(ReadyCheck))
      modifies this
      ensures ReadyFor(if ok then At(if origin.config.strategy.ReleaseDirs? then CleanupReleases else Complete) else Throwing)
    {
      var b := Await(At(ReadyCheck));
      if IsCancelled() || cell.aborted {
        return false;
      }
      b := Await(In(ReadyCheck));
      ok := true;
      if origin.config.readyChecks {
        CallOut(WaitReady, Result(b.ok, b.took));
        ok := b.ok || origin.job.dryRun;
      }
    }

    method CleanupOldReleases() returns (ok: bool)
      requires ReadyFor(At(CleanupReleases))
      modifies this
      ensures ReadyFor(if ok then At(Complete) else Throwing)
    {
      var b := Await(At(CleanupReleases));
      if IsCancelled() {
        return false;
      }
      if cell.aborted || origin.job.dryRun {
        return true;
      }
      if !b.ok {
        return false;
      }
      var keep := if origin.config.releasesToKeep > 1 then origin.config.releasesToKeep else 1;
      cell := cell.(host := cell.host.(store :=
        Releases.Pruned(cell.host.store, b.disk.listing, keep, true, b.removable)));
      ok := true;
    }

    method CompleteDeployment() returns (ok: bool)
      requires ReadyFor(At(Complete))
      modifies this
      ensures ReadyFor(if ok then Notifying(false) else Throwing)
    {
      var b := Await(At(Complete));
      if IsCancelled() || cell.aborted {
        return false;
      }
      if !origin.job.dryRun {
        cell := cell.(lastSuccessful := Some(cell.targetSha));
      }
      cell := cell.(status := Write(cell.status, Success));
      ok := true;
    }

    /** The `try` block. */
    method RunSteps(entry: Beat) returns (ok: bool)
      requires Polling(entry.now, entry) && entry.now >= turn
      modifies this
      ensures ReadyFor(if ok then Notifying(false) else Throwing)
    {
      ok := AcquireLock(entry);
      if !ok {
        return;
      }
      ok := ValidateRepository();
      if !ok {
        return;
      }
      ok := FetchBranch();
      if !ok {
        return;
      }
      ok := ResolveTarget();
      if !ok {
        return;
      }
      ok := PrepareWorkspace();
      if !ok {
        return;
      }
      ok := RefreshConfiguration();
      if !ok {
        return;
      }
      if StopsBeforeBuild(origin.config, origin.job.dryRun) {
        StopEarly();
      }
      ok := ExecuteBuildCommands();
      if !ok {
        return;
      }
      ok := RunLastSteps();
    }

    method RunLastSteps() returns (ok: bool)
      requires ReadyFor(At(if origin.config.strategy.ReleaseDirs? then Activate else ServiceAction))
      modifies this
      ensures ReadyFor(if ok then Notifying(false) else Throwing)
    {
      if origin.config.strategy.ReleaseDirs? {
        ok := ActivateRelease();
        if !ok {
          return;
        }
      }
      ok := PerformServiceAction();
      if !ok {
        return;
      }
      ok := CheckReadiness();
      if !ok {
        return;
      }
      if origin.config.strategy.ReleaseDirs? {
        ok := CleanupOldReleases();
        if !ok {
          return;
        }
      }
      ok := CompleteDeployment();
    }

    /** One call of `rollback`. */
    method RollBack(affected: bool, b: Beat) returns (ok: bool)
      requires Releases.Listing(cell.host.store, b.disk.listing)
      modifies this`cell
      ensures (cell.host, ok) == RolledBackHost(origin.config, cell.prevSha, origin.job.id, affected,
        cell.progress.serviceActionStarted, old(cell).host, b.disk, b.outcome)
      ensures cell == old(cell).(host := cell.host)
    {
      var rollbackManager := new RollbackManager(cell.host);
      ok := rollbackManager.Rollback(origin.config, cell.prevSha, origin.job.id, affected,
        cell.progress.serviceActionStarted, b.disk, b.outcome);
      cell := cell.(host := rollbackManager.host);
    }

    method CleanupOrphanRelease(b: Beat)
      modifies this`cell
      ensures cell == CleanOrphan(origin.job, origin.config, old(cell), b)
    {
      if origin.config.strategy.ReleaseDirs? {
        cell := cell.(host := cell.host.(store := Releases.OrphanCleaned(cell.host.store, origin.job.id, b.disk.removes)));
      }
    }

    /** The `catch` block. */
    method HandleError()
      requires ReadyFor(Throwing)
      modifies this
      ensures ReadyFor(Leaving)
    {
      var b := Await(Throwing);
      var isCancelled := cell.status == Some(Cancelled) || cell.aborted;
      if cell.controller.Some? {
        cell := cell.(controller := None, aborted := true);
      }
      if isCancelled {
        HandleCancellation(b);
      } else {
        HandleFailure();
      }
    }

    method HandleCancellation(b: Beat)
      requires Recorded() && before.stage.Throwing? && b == beat
      requires before.status == Some(Cancelled) || before.aborted
      requires cell == before.(controller := None, aborted := before.aborted || before.controller.Some?)
      modifies this
      ensures ReadyFor(Leaving)
    {
      cell := cell.(status := Write(cell.status, Cancelled));
      if !origin.job.dryRun && cell.lockAcquired && IsServiceAffected(cell.progress) && origin.config.rollbackEnabled {
        RestoreAfterCancellation();
      } else {
        CleanupOrphanRelease(b);
      }
    }

    method RestoreAfterCancellation()
      requires ReadyFor(Undoing(RestoreCancelled))
      modifies this
      ensures ReadyFor(Leaving)
    {
      var b := Await(Undoing(RestoreCancelled));
      var _ := RollBack(true, b);
      CleanupOrphanRelease(b);
    }

    method HandleFailure()
      requires Recorded() && before.stage.Throwing?
      requires before.status != Some(Cancelled) && !before.aborted
      requires cell == before.(controller := None, aborted := before.aborted || before.controller.Some?)
      modifies this
      ensures ReadyFor(Leaving)
    {
      if CanRollBack(origin.config, cell) {
        cell := cell.(status := Write(cell.status, RollingBack));
        RecordRollback();
      } else {
        cell := cell.(status := Write(cell.status, Status.Failed));
      }
      var b := Await(Notifying(true));
      CleanupOrphanRelease(b);
    }

    method RecordRollback()
      requires ReadyFor(Undoing(RollBackFailed))
      modifies this
      ensures ReadyFor(Notifying(true))
    {
      var b := Await(Undoing(RollBackFailed));
      var ok := RollBack(IsServiceAffected(cell.progress), b);
      cell := cell.(status := Write(cell.status, if ok then RolledBack else RollbackFailed));
      assert cell.(stage := Notifying(true)) == Undone(origin.job, origin.config, before, b, RollBackFailed);
    }

    /** The `finally` block. */
    method ReleaseLock()
      requires ReadyFor(Leaving)
      modifies this
      ensures ReadyFor(Returned)
    {
      var b := Await(Leaving);
      cell := cell.(controller := None);
      if !IsCancelled() && cell.lockAcquired && HoldsLock(cell, origin.job.id) {
        cell := cell.(lock := None);
      }
    }

    /** Everything but the return itself. */
    method EnterAndRun()
      requires Resumed(Entering, Beating(schedule, turn, cell))
      modifies this
      ensures ReadyFor(Returned)
    {
      var b := Beating(schedule, turn, cell);
      if !b.projectKnown {
        cell := cell.(status := Write(cell.status, Status.Failed));
        return;
      }
      cell := cell.(controller := Some(false),
                    prevSha := if origin.job.previousSha.Some? then origin.job.previousSha else cell.lastSuccessful);
      if IsCancelled() {
        return;
      }
      cell := cell.(status := Write(cell.status, Running));
      TryCatchFinally(b);
    }

    method TryCatchFinally(entry: Beat)
      requires Polling(entry.now, entry) && entry.now >= turn
      modifies this
      ensures ReadyFor(Returned)
    {
      var ok := RunSteps(entry);
      if ok {
        var b := Await(Notifying(false));
      } else {
        HandleError();
      }
      ReleaseLock();
    }

    /** The whole call: whatever fails, is cancelled or superseded on the way, it returns, and what it has done is a run
        of the state machine. */
    method RunDeployment()
      requires Resumed(Entering, Beating(schedule, turn, cell)) && cell == start && Started(origin, start)
      modifies this
      ensures Feasible(origin, start, moves) && cell == Ran(origin, start, moves) && cell.stage.Returned?
      ensures Reachable(origin, cell)
      ensures cell.status.Some? ==> Terminal(cell.status.value)
      ensures cell.status == Some(Success) ==>
        cell.lastSuccessful == if origin.job.dryRun then start.lastSuccessful else cell.resetTo
      ensures cell.status.Some? && !cell.status.value.Success? ==> cell.lastSuccessful == start.lastSuccessful
    {
      EnterAndRun();
      cell := cell.(stage := Returned);
      Record(Own(beat));
      ReturnsFinished(origin, cell);
    }
  }

  function Beating(schedule: Schedule, turn: nat, c: Cell): Beat
  {
    schedule(turn).finds(c).(now := schedule(turn).now)
  }

  predicate CanHappen(job: Job, c: Cell, e: Disturbance)
    ensures CanHappen(job, c, e) <==> Pipeline.Possible(job, c, e)
  {
    e.LockWritten? && e.lock.Some? && e.lock.value.lockedBy == job.id ==> HoldsLock(c, job.id)
  }
}
