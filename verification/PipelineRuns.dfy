/** Whole runs of the pipeline: own moves interleaved in any way with supersedes, operator cancels, pruned rows and
    other writers of the lock. */
module PipelineRuns {
  import opened Records
  import opened Rollback
  import opened LockTable
  import opened Pipeline
  import opened PipelineSafety
  import Releases

  // Disturbances keep the invariant

  /** What a disturbance can change of a run. */
  ghost predicate Disturbs(o: Origin, c: Cell, c': Cell)
  {
    && c' == c.(status := c'.status, controller := c'.controller, aborted := c'.aborted, lock := c'.lock)
    && (c'.status == c.status
        || (OneOf(c'.status, {Cancelled}) && c.status.Some? && Active(c.status.value))
        || (c'.status.None? && c.status.Some? && Terminal(c.status.value)))
    && ((c'.controller == c.controller && c'.aborted == c.aborted)
        || (c.controller == Some(false) && c'.controller.None? && c'.aborted && c'.status != Some(Running)))
    && (HoldsLock(c', o.job.id) ==> HoldsLock(c, o.job.id))
  }

  lemma DisturbedDisturbs(o: Origin, c: Cell, e: Disturbance)
    requires Possible(o.job, c, e)
    ensures Disturbs(o, c, Disturbed(c, e))
  {
  }

  lemma DisturbsControl(o: Origin, c: Cell, c': Cell)
    requires Disturbs(o, c, c') && Control(o, c)
    ensures Control(o, c')
  {
  }

  lemma DisturbsRest(o: Origin, c: Cell, c': Cell)
    requires Disturbs(o, c, c') && Inv(o, c)
    ensures ShasRight(o, c') && StoreSafe(o, c') && RevertsJustified(o, c')
    ensures Compensated(o, c')
  {
  }

  lemma DisturbsEffects(o: Origin, c: Cell, c': Cell)
    requires Disturbs(o, c, c') && Effects(o, c)
    ensures Effects(o, c')
  {
  }

  lemma DisturbedInv(o: Origin, c: Cell, e: Disturbance)
    requires Inv(o, c) && Possible(o.job, c, e)
    ensures Inv(o, Disturbed(c, e))
  {
    var c' := Disturbed(c, e);
    DisturbedDisturbs(o, c, e);
    DisturbsControl(o, c, c');
    DisturbsRest(o, c, c');
    DisturbsEffects(o, c, c');
  }

  // What own moves do to what they share with the rest of the daemon

  /** A row that is finished stays finished, and a row is never queued again. */
  ghost predicate StatusSteps(status: Option<Status>, status': Option<Status>)
  {
    && (status.None? <==> status'.None?)
    && (status' == status
        || (status'.Some? && !status'.value.Queued? && (Active(status'.value) ==> Active(status.value))))
  }

  ghost predicate Shares(job: Job, c: Cell, c': Cell)
  {
    && StatusSteps(c.status, c'.status)
    && (c'.lock == c.lock || c'.lock.None? || HoldsLock(c', job.id))
    && c'.host.store.releases.Keys <= c.host.store.releases.Keys + {job.id}
  }

  lemma AdvanceShares(o: Origin, c: Cell, b: Beat)
    requires Inv(o, c) && Releases.Listing(c.host.store, b.disk.listing)
    ensures Shares(o.job, c, Advance(o.job, o.config, c, b))
  {
    var c' := Advance(o.job, o.config, c, b);
    if c.stage.In? {
      FinishFinishes(o, c, b);
      FinishesShare(o, c, c');
    } else if c.stage.At? {
      BeginShares(o, c, b);
    } else if c.stage.Undoing? {
      UndoShares(o, c, b);
    } else if c.stage.Throwing? {
      CatchCatches(o, c, b);
      CatchesShare(o, c, c');
    } else if c.stage.Notifying? || c.stage.Leaving? || c.stage.Returned? {
      EndsShare(o, c, b);
    } else {
      EarlyOpens(o, c, b);
      OpensShare(o, c, c');
    }
  }

  lemma FinishesShare(o: Origin, c: Cell, c': Cell)
    requires c.stage.In? && Finishes(o, c, c')
    ensures Shares(o.job, c, c')
  {
  }

  lemma BeginShares(o: Origin, c: Cell, b: Beat)
    requires Inv(o, c) && c.stage.At? && Releases.Listing(c.host.store, b.disk.listing)
    ensures Shares(o.job, c, Advance(o.job, o.config, c, b))
  {
    BeginBegins(o, c, b);
    BeginsShare(o, c, Advance(o.job, o.config, c, b));
    BeginKeepsReleases(o, c, b);
  }

  lemma BeginsShare(o: Origin, c: Cell, c': Cell)
    requires Bookkept(c) && c.stage.At? && Begins(o, c, c') && (c'.status.None? <==> c.status.None?)
    ensures StatusSteps(c.status, c'.status) && c'.lock == c.lock
  {
  }

  lemma BeginKeepsReleases(o: Origin, c: Cell, b: Beat)
    requires c.stage.At? && Releases.Listing(c.host.store, b.disk.listing)
    ensures Advance(o.job, o.config, c, b).host.store.releases.Keys <= c.host.store.releases.Keys + {o.job.id}
  {
    if c.stage.step.CleanupReleases? {
      CleanupKeepsReleases(o, c, b);
    }
  }

  lemma CleanupKeepsReleases(o: Origin, c: Cell, b: Beat)
    requires c.stage == At(CleanupReleases) && Releases.Listing(c.host.store, b.disk.listing)
    ensures Advance(o.job, o.config, c, b).host.store.releases.Keys <= c.host.store.releases.Keys
  {
  }

  lemma UndoShares(o: Origin, c: Cell, b: Beat)
    requires Inv(o, c) && c.stage.Undoing? && Releases.Listing(c.host.store, b.disk.listing)
    ensures Shares(o.job, c, Advance(o.job, o.config, c, b))
  {
    UndoneUndoes(o, c, b);
    UndoesShare(o, c, Advance(o.job, o.config, c, b));
    UndoneKeepsReleases(o, c, b);
  }

  lemma UndoesShare(o: Origin, c: Cell, c': Cell)
    requires Bookkept(c) && c.stage.Undoing? && Undoes(o, c, c') && (c'.status.None? <==> c.status.None?)
    ensures StatusSteps(c.status, c'.status) && c'.lock == c.lock
  {
    assert c.stage.why == RestoreCancelled || c.stage.why == RollBackFailed;
  }

  lemma UndoneKeepsReleases(o: Origin, c: Cell, b: Beat)
    requires c.stage.Undoing? && Releases.Listing(c.host.store, b.disk.listing)
    ensures Advance(o.job, o.config, c, b).host.store.releases.Keys <= c.host.store.releases.Keys
  {
    var affected := c.stage.why.RestoreCancelled? || IsServiceAffected(c.progress);
    RolledBackKeepsReleases(o.config, c.prevSha, o.job.id, affected, c.progress.serviceActionStarted, c.host, b.disk, b.outcome);
  }

  lemma CatchesShare(o: Origin, c: Cell, c': Cell)
    requires Bookkept(c) && c.stage.Throwing? && Catches(o, c, c') && (c'.status.None? <==> c.status.None?)
    ensures Shares(o.job, c, c')
  {
  }

  lemma OpensShare(o: Origin, c: Cell, c': Cell)
    requires Bookkept(c) && Early(c.stage) && Opens(o, c, c') && (c'.status.None? <==> c.status.None?)
    ensures Shares(o.job, c, c')
  {
  }

  lemma EndsShare(o: Origin, c: Cell, b: Beat)
    requires c.stage.Notifying? || c.stage.Leaving? || c.stage.Returned?
    requires Releases.Listing(c.host.store, b.disk.listing)
    ensures Shares(o.job, c, Advance(o.job, o.config, c, b))
  {
  }

  // Runs

  datatype Move = Own(beat: Beat) | Env(e: Disturbance)

  predicate Enabled(o: Origin, c: Cell, m: Move)
  {
    match m
    case Own(b) => Releases.Listing(c.host.store, b.disk.listing)
    case Env(e) => Possible(o.job, c, e)
  }

  function Moved(o: Origin, c: Cell, m: Move): Cell
    requires Enabled(o, c, m)
  {
    match m
    case Own(b) => Advance(o.job, o.config, c, b)
    case Env(e) => Disturbed(c, e)
  }

  predicate Feasible(o: Origin, c: Cell, moves: seq<Move>)
    decreases |moves|
  {
    moves != [] ==> Enabled(o, c, moves[0]) && Feasible(o, Moved(o, c, moves[0]), moves[1..])
  }

  function Ran(o: Origin, c: Cell, moves: seq<Move>): Cell
    requires Feasible(o, c, moves)
    decreases |moves|
  {
    if moves == [] then c else Ran(o, Moved(o, c, moves[0]), moves[1..])
  }

  lemma {:induction false} RunKeepsInv(o: Origin, c: Cell, moves: seq<Move>)
    requires Inv(o, c) && Feasible(o, c, moves)
    ensures Inv(o, Ran(o, c, moves))
    decreases |moves|
  {
    if moves != [] {
      MovedInv(o, c, moves[0]);
      RunKeepsInv(o, Moved(o, c, moves[0]), moves[1..]);
    }
  }

  /** Everything below holds of every state any run can reach. */
  ghost predicate Reachable(o: Origin, c: Cell)
  {
    exists start, moves :: Started(o, start) && Feasible(o, start, moves) && c == Ran(o, start, moves)
  }

  lemma ReachableInv(o: Origin, c: Cell)
    requires Reachable(o, c)
    ensures Inv(o, c)
  {
    var start, moves :| Started(o, start) && Feasible(o, start, moves) && c == Ran(o, start, moves);
    StartedInv(o, start);
    RunKeepsInv(o, start, moves);
  }

  lemma {:induction false} AppendMove(o: Origin, c: Cell, moves: seq<Move>, m: Move)
    requires Feasible(o, c, moves) && Enabled(o, Ran(o, c, moves), m)
    ensures Feasible(o, c, moves + [m]) && Ran(o, c, moves + [m]) == Moved(o, Ran(o, c, moves), m)
    decreases |moves|
  {
    if moves == [] {
      assert ([] + [m])[1..] == [];
    } else {
      assert (moves + [m])[1..] == moves[1..] + [m];
      AppendMove(o, Moved(o, c, moves[0]), moves[1..], m);
    }
  }

  lemma StartedReachable(o: Origin, c: Cell)
    requires Started(o, c)
    ensures Reachable(o, c)
  {
    assert Feasible(o, c, []) && Ran(o, c, []) == c;
  }

  lemma MovedReachable(o: Origin, c: Cell, m: Move)
    requires Reachable(o, c) && Enabled(o, c, m)
    ensures Reachable(o, Moved(o, c, m))
  {
    var start, moves :| Started(o, start) && Feasible(o, start, moves) && c == Ran(o, start, moves);
    AppendMove(o, start, moves, m);
  }

  // Superseding

  /** Superseding never touches a deployment that is changing the live service or rolling it back. */
  lemma SupersedeSparesCritical(o: Origin, c: Cell)
    requires Reachable(o, c)
    requires (c.status == Some(Running) && IsServiceAffected(c.progress)) || c.status == Some(RollingBack)
    ensures Disturbed(c, Supersede) == c
    ensures c.status == Some(Running) ==> c.controller == Some(true) && !c.aborted
  {
    ReachableInv(o, c);
  }

  /** Any other unfinished deployment ends up cancelled, and one that has entered is aborted. */
  lemma SupersedeCancelsTheRest(o: Origin, c: Cell)
    requires Reachable(o, c) && c.controller != Some(true)
    requires c.status == Some(Queued) || c.status == Some(Running)
    ensures var c' := Disturbed(c, Supersede);
      c'.status == Some(Cancelled) && (BeforeCatch(c.stage) ==> c'.aborted && c'.controller.None?)
  {
    ReachableInv(o, c);
    if BeforeCatch(c.stage) {
      assert c.controller.Some? && !c.controller.value;
    }
  }

  // The end

  /** A run that returns leaves a final row (unless the row was pruned), and the last successful commit is
      the one that was checked out if the run succeeded, and otherwise what it was. */
  lemma ReturnsFinished(o: Origin, c: Cell)
    requires Reachable(o, c) && c.stage.Returned?
    ensures c.status.Some? ==> Terminal(c.status.value)
    ensures c.status == Some(Success) ==>
      c.lastSuccessful == if o.job.dryRun then o.lastSuccessful else c.resetTo
    ensures c.status.Some? && !c.status.value.Success? ==> c.lastSuccessful == o.lastSuccessful
    ensures c.lastSuccessful != o.lastSuccessful ==> !o.job.dryRun && c.lastSuccessful == Some(c.targetSha) == c.resetTo
  {
    ReachableInv(o, c);
  }

  /** The last successful commit is written by the last step alone, and never by a dry run. */
  lemma ShaWrittenAtComplete(o: Origin, c: Cell, m: Move)
    requires Reachable(o, c) && Enabled(o, c, m) && Moved(o, c, m).lastSuccessful != c.lastSuccessful
    ensures m.Own? && c.stage == At(Complete) && !o.job.dryRun && !c.aborted
    ensures Moved(o, c, m).lastSuccessful == c.resetTo && OneOf(Moved(o, c, m).status, {Success})
  {
    ReachableInv(o, c);
    MoveWritesSha(o, c, m);
  }

  lemma MoveWritesSha(o: Origin, c: Cell, m: Move)
    requires WellStaged(o, c) && ShasRight(o, c)
    requires Enabled(o, c, m) && Moved(o, c, m).lastSuccessful != c.lastSuccessful
    ensures m.Own? && c.stage == At(Complete) && !o.job.dryRun && !c.aborted
    ensures Moved(o, c, m).lastSuccessful == c.resetTo && OneOf(Moved(o, c, m).status, {Success})
  {
    if m.Own? {
      OwnMoveSha(o, c, m.beat);
    }
  }

  lemma OwnMoveSha(o: Origin, c: Cell, b: Beat)
    requires WellStaged(o, c) && Releases.Listing(c.host.store, b.disk.listing)
    requires Advance(o.job, o.config, c, b).lastSuccessful != c.lastSuccessful
    ensures c.stage.At? && Completes(o, c, Advance(o.job, o.config, c, b))
  {
    if c.stage.At? {
      BeginBegins(o, c, b);
      BeginsKeepSha(o, c, Advance(o.job, o.config, c, b));
    } else {
      OthersKeepSha(o, c, b);
    }
  }

  lemma BeginsKeepSha(o: Origin, c: Cell, c': Cell)
    requires c.stage.At? && Begins(o, c, c') && c'.lastSuccessful != c.lastSuccessful
    ensures Completes(o, c, c')
  {
  }

  lemma OthersKeepSha(o: Origin, c: Cell, b: Beat)
    requires Releases.Listing(c.host.store, b.disk.listing) && WellStaged(o, c) && !c.stage.At?
    ensures Advance(o.job, o.config, c, b).lastSuccessful == c.lastSuccessful
  {
    if c.stage.In? {
      FinishFinishes(o, c, b);
    }
  }

  /** Leaving gives the lock up exactly when the row is not cancelled; a cancelled row is final, so its lock is free
      to take. */
  lemma LeavingFreesLock(o: Origin, c: Cell, b: Beat, rows: Rows, now: Millis)
    requires Reachable(o, c) && c.stage.Leaving? && Releases.Listing(c.host.store, b.disk.listing)
    requires if c.status.None? then o.job.id !in rows else o.job.id in rows && rows[o.job.id].status == c.status.value
    ensures var c' := Advance(o.job, o.config, c, b);
      && (HoldsLock(c', o.job.id) <==> HoldsLock(c, o.job.id) && c.status == Some(Cancelled))
      && (HoldsLock(c', o.job.id) ==> Takeable(c'.lock.value, rows, now, LOCK_TIMEOUT_MS))
      && (!HoldsLock(c, o.job.id) ==> c'.lock == c.lock)
  {
    ReachableInv(o, c);
  }

  // Compensation

  /** In place or isolated, without zero downtime, with a service action: a run that ends rolled back has the live tree
      back at the previous commit, rebuilt, and the service restarted on it exactly when the run had affected it. */
  lemma RolledBackIsCompensated(o: Origin, c: Cell)
    requires Reachable(o, c) && c.status == Some(RolledBack)
    requires !o.config.strategy.ReleaseDirs? && !IsZeroDowntimeEnabled(o.config) && !o.config.action.NoAction?
    ensures PreviousSha(o).Some? && PreviousSha(o).value != c.targetSha
    ensures c.host.live == RebuiltTree(o.config, PreviousSha(o).value)
    ensures c.host.service == (if IsServiceAffected(c.progress) then Serving(c.host.live) else o.host.service)
    ensures c.host.generations == o.host.generations
  {
    ReachableInv(o, c);
  }

  /** A run that failed or was cancelled before it reset the working tree has made no call at all. */
  lemma EarlyFailureLeavesNoTrace(o: Origin, c: Cell)
    requires Reachable(o, c) && !c.progress.workspaceMutated
    ensures !IsServiceAffected(c.progress)
    ensures c.host == o.host.(store := c.host.store)
  {
    ReachableInv(o, c);
  }

  /** Until a run changes the service, the service is as it was found. */
  lemma ServiceUntouched(o: Origin, c: Cell)
    requires Reachable(o, c) && BeforeCatch(c.stage) && !IsServiceAffected(c.progress)
    ensures c.host.service == o.host.service && c.host.generations == o.host.generations
  {
    ReachableInv(o, c);
  }

  lemma RevertsFollowTheServiceAction(o: Origin, c: Cell)
    requires Reachable(o, c)
    ensures o.host.log <= c.host.log
    ensures RevertGeneration in OwnCalls(o, c) ==> c.progress.serviceActionStarted && IsZeroDowntimeEnabled(o.config)
  {
    ReachableInv(o, c);
  }

  /** A run cancelled after it touched the service: if every call of the restoration succeeds, the previous commit is
      back, rebuilt and served. */
  lemma CancellationRestores(o: Origin, c: Cell, b: Beat)
    requires Reachable(o, c) && c.stage == Undoing(RestoreCancelled) && c.prevSha.Some?
    requires !o.config.strategy.ReleaseDirs? && !IsZeroDowntimeEnabled(o.config) && !o.config.action.NoAction?
    requires Releases.Listing(c.host.store, b.disk.listing)
    requires Perform(c.host, PlanFor(o.config, c.prevSha, true, c.progress.serviceActionStarted), b.outcome).1
    ensures var c' := Advance(o.job, o.config, c, b);
      && PreviousSha(o) == c.prevSha
      && c'.host.live == RebuiltTree(o.config, c.prevSha.value)
      && c'.host.service == Serving(c'.host.live)
      && c'.stage.Leaving? && c'.status == c.status
  {
    ReachableInv(o, c);
    ShaRollbackCompensates(c.host, o.config, c.prevSha.value, true, c.progress.serviceActionStarted, b.outcome);
  }

  /** The release being served is never removed, at any point of any run. */
  lemma CurrentReleaseExists(o: Origin, c: Cell)
    requires Reachable(o, c)
    ensures Releases.Safe(c.host.store)
    ensures BeforeCatch(c.stage) && c.progress.releaseActivated ==> c.host.store.current == Some(o.job.id)
  {
    ReachableInv(o, c);
  }

  /** An aborted run that has not touched the service yet goes on to touch it at one point and no other: the early stop
      has no abort check. There it is unregistered, and its row is not running. */
  lemma AbortedRunMayStopService(o: Origin, c: Cell, b: Beat)
    requires Reachable(o, c) && BeforeCatch(c.stage) && c.aborted && !IsServiceAffected(c.progress)
    requires Releases.Listing(c.host.store, b.disk.listing)
    ensures var c' := Advance(o.job, o.config, c, b);
      && (IsServiceAffected(c'.progress) <==> c.stage == At(StopBeforeBuild))
      && (c.stage == At(StopBeforeBuild) ==>
            c'.stage == In(StopBeforeBuild) && c'.progress.serviceStopped && c'.controller.None? && c'.status != Some(Running))
  {
    ReachableInv(o, c);
    if c.stage.At? {
      AbortedBegin(o, c, b);
    } else if c.stage.In? {
      FinishFinishes(o, c, b);
    } else if c.stage.Throwing? {
      CatchCatches(o, c, b);
    }
  }

  lemma AbortedBegin(o: Origin, c: Cell, b: Beat)
    requires c.stage.At? && c.aborted && c.controller.None? && WellStaged(o, c) && !IsServiceAffected(c.progress)
    requires Releases.Listing(c.host.store, b.disk.listing)
    ensures var c' := Advance(o.job, o.config, c, b);
      && (IsServiceAffected(c'.progress) <==> c.stage == At(StopBeforeBuild))
      && (c.stage == At(StopBeforeBuild) ==>
            c'.stage == In(StopBeforeBuild) && c'.progress.serviceStopped && c'.controller.None? && c'.status == c.status)
  {
  }

  /** Whatever a cancelled or aborted run had done to the service, it goes on to restore it, if rollbacks are enabled. */
  lemma CancelledRunIsRestored(o: Origin, c: Cell, b: Beat)
    requires Reachable(o, c) && c.stage.Throwing? && (c.aborted || c.status == Some(Cancelled))
    requires Releases.Listing(c.host.store, b.disk.listing)
    ensures var c' := Advance(o.job, o.config, c, b);
      && (c'.stage == Undoing(RestoreCancelled) <==> IsServiceAffected(c.progress) && o.config.rollbackEnabled)
      && (c'.stage != Undoing(RestoreCancelled) ==> c'.stage.Leaving? && c'.host == c.host.(store := c'.host.store))
      && OneOf(c'.status, {Cancelled}) && c'.host.store.current == c.host.store.current
  {
    ReachableInv(o, c);
  }

  // Every run returns

  /** Awaits of the command steps from `index` on, with room for the stop and the sync. */
  function Weight(steps: seq<CommandStep>, index: nat): nat
    decreases |steps| - index
  {
    if index >= |steps| then 0 else |steps[index].commands| + 3 + Weight(steps, index + 1)
  }

  function StepRank(config: Config, step: Step, inside: bool): nat
  {
    var w := Weight(config.steps, 0);
    var late := if inside then 0 else 1;
    match step
    case Validate => 28 + w + late
    case Fetch => 26 + w + late
    case Resolve => 24 + w + late
    case Prepare => 22 + w + late
    case RefreshConfig => 20 + w + late
    case StopBeforeBuild => 18 + w + late
    case Command(index, position) =>
      if !inside then 15 + Weight(config.steps, index)
      else if index < |config.steps| && position < |config.steps[index].commands|
      then 15 + Weight(config.steps, index) - 2 - position
      else 5
    case InstallStop(index) => if index < |config.steps| then 14 + Weight(config.steps, index) else 6
    case SyncBuilt(index) => 16 + Weight(config.steps, index + 1)
    case Activate => 14
    case ServiceAction => 12 + late
    case ReadyCheck => 10 + late
    case CleanupReleases => 8 + late
    case Complete => 5 + late
  }

  function Rank(config: Config, stage: Stage): nat
  {
    match stage
    case Entering => 33 + Weight(config.steps, 0)
    case AcquiringLock(_) => 32 + Weight(config.steps, 0)
    case Preflight => 31 + Weight(config.steps, 0)
    case At(step) => StepRank(config, step, false)
    case In(step) => StepRank(config, step, true)
    case Throwing => 4
    case Undoing(_) => 3
    case Notifying(_) => 2
    case Leaving => 1
    case Returned => 0
  }

  lemma {:induction false} CommandFromRank(config: Config, index: nat)
    ensures StepRank(config, CommandFrom(config, index), false) <= 15 + Weight(config.steps, index)
    decreases |config.steps| - index
  {
    if index < |config.steps| && config.steps[index].commands == [] {
      CommandFromRank(config, index + 1);
    }
  }

  /** An own move either comes closer to the end, or waits for the lock; and the wait is bounded by the clock. */
  lemma MoveProgresses(o: Origin, c: Cell, b: Beat)
    requires Releases.Listing(c.host.store, b.disk.listing) && WellStaged(o, c) && !c.stage.Returned?
    ensures var c' := Advance(o.job, o.config, c, b);
      || Rank(o.config, c'.stage) < Rank(o.config, c.stage)
      || (c.stage.AcquiringLock? && c' == c && b.now - c.stage.since <= LOCK_WAIT_MS)
  {
    if c.stage.In? {
      FinishProgresses(o, c, b);
    } else if c.stage.At? {
      BeginBegins(o, c, b);
      BeginsProgress(o, c, Advance(o.job, o.config, c, b));
    } else if Early(c.stage) {
      EarlyProgresses(o, c, b);
    } else {
      EndProgresses(o, c, b);
    }
  }

  lemma EndProgresses(o: Origin, c: Cell, b: Beat)
    requires Releases.Listing(c.host.store, b.disk.listing)
    requires c.stage.Throwing? || c.stage.Undoing? || c.stage.Notifying? || c.stage.Leaving?
    ensures Rank(o.config, Advance(o.job, o.config, c, b).stage) < Rank(o.config, c.stage)
  {
    if c.stage.Undoing? {
      UndoneUndoes(o, c, b);
    }
  }

  lemma EarlyProgresses(o: Origin, c: Cell, b: Beat)
    requires Releases.Listing(c.host.store, b.disk.listing) && Early(c.stage)
    ensures var c' := Advance(o.job, o.config, c, b);
      || Rank(o.config, c'.stage) < Rank(o.config, c.stage)
      || (c.stage.AcquiringLock? && c' == c && b.now - c.stage.since <= LOCK_WAIT_MS)
  {
    if c.stage.Entering? {
      EntryProgresses(o, c, b);
    }
  }

  lemma EntryProgresses(o: Origin, c: Cell, b: Beat)
    requires Releases.Listing(c.host.store, b.disk.listing) && c.stage.Entering?
    ensures Rank(o.config, Advance(o.job, o.config, c, b).stage) < Rank(o.config, c.stage)
  {
  }

  lemma BeginsProgress(o: Origin, c: Cell, c': Cell)
    requires c.stage.At? && WellStaged(o, c) && Begins(o, c, c')
    ensures Rank(o.config, c'.stage) < Rank(o.config, c.stage)
  {
  }

  lemma FinishProgresses(o: Origin, c: Cell, b: Beat)
    requires Releases.Listing(c.host.store, b.disk.listing) && WellStaged(o, c) && c.stage.In?
    ensures Rank(o.config, Advance(o.job, o.config, c, b).stage) < Rank(o.config, c.stage)
  {
    if c.stage.step.Command? || c.stage.step.SyncBuilt? || c.stage.step.InstallStop? {
      CommandProgresses(o, c, b);
    } else {
      StepProgresses(o, c, b);
    }
  }

  lemma StepProgresses(o: Origin, c: Cell, b: Beat)
    requires Releases.Listing(c.host.store, b.disk.listing) && WellStaged(o, c) && c.stage.In?
    requires !c.stage.step.Command? && !c.stage.step.SyncBuilt? && !c.stage.step.InstallStop?
    ensures Rank(o.config, Advance(o.job, o.config, c, b).stage) < Rank(o.config, c.stage)
  {
    CommandFromRank(o.config, 0);
    FinishFinishes(o, c, b);
    var c' := Advance(o.job, o.config, c, b);
    match c.stage.step {
      case RefreshConfig => assert c'.stage.Throwing? || c'.stage == At(StopBeforeBuild) || c'.stage == At(CommandFrom(o.config, 0));
      case StopBeforeBuild => assert c'.stage == At(CommandFrom(o.config, 0));
      case ServiceAction => LateStepProgresses(o, c, b);
      case ReadyCheck => LateStepProgresses(o, c, b);
      case _ => SimpleStepProgresses(o, c, b);
    }
  }

  lemma SimpleStepProgresses(o: Origin, c: Cell, b: Beat)
    requires Releases.Listing(c.host.store, b.disk.listing) && WellStaged(o, c) && c.stage.In?
    requires c.stage.step.Validate? || c.stage.step.Fetch? || c.stage.step.Resolve? || c.stage.step.Prepare?
    ensures Rank(o.config, Advance(o.job, o.config, c, b).stage) < Rank(o.config, c.stage)
  {
    var c' := Advance(o.job, o.config, c, b);
    assert c'.stage == Throwing || c'.stage == At(Fetch) || c'.stage == At(Resolve) || c'.stage == At(Prepare)
      || c'.stage == At(RefreshConfig);
  }

  lemma LateStepProgresses(o: Origin, c: Cell, b: Beat)
    requires Releases.Listing(c.host.store, b.disk.listing) && WellStaged(o, c) && c.stage.In?
    requires c.stage.step.ServiceAction? || c.stage.step.ReadyCheck?
    ensures Rank(o.config, Advance(o.job, o.config, c, b).stage) < Rank(o.config, c.stage)
  {
  }

  lemma CommandProgresses(o: Origin, c: Cell, b: Beat)
    requires Releases.Listing(c.host.store, b.disk.listing) && WellStaged(o, c) && c.stage.In?
    requires c.stage.step.Command? || c.stage.step.SyncBuilt? || c.stage.step.InstallStop?
    ensures Rank(o.config, Advance(o.job, o.config, c, b).stage) < Rank(o.config, c.stage)
  {
    var c' := Advance(o.job, o.config, c, b);
    CommandFromRank(o.config, c.stage.step.index + 1);
    CommandStages(o, c, b);
    CommandRanks(o, c.stage.step, c'.stage);
  }

  /** Where the segments of a command step can lead. */
  predicate CommandLeads(o: Origin, step: Step, stage: Stage)
  {
    stage.Throwing?
    || match step
       case InstallStop(index) => stage == In(Command(index, 0))
       case SyncBuilt(index) => stage == At(CommandFrom(o.config, index + 1))
       case Command(index, position) =>
         && index < |o.config.steps| && position < |o.config.steps[index].commands|
         && ((stage == In(Command(index, position + 1)) && position + 1 < |o.config.steps[index].commands|)
             || stage == In(SyncBuilt(index)) || stage == At(CommandFrom(o.config, index + 1)))
       case _ => false
  }

  lemma CommandStages(o: Origin, c: Cell, b: Beat)
    requires Releases.Listing(c.host.store, b.disk.listing) && c.stage.In?
    requires c.stage.step.Command? || c.stage.step.SyncBuilt? || c.stage.step.InstallStop?
    ensures CommandLeads(o, c.stage.step, Advance(o.job, o.config, c, b).stage)
  {
  }

  lemma CommandRanks(o: Origin, step: Step, stage: Stage)
    requires step.Command? || step.SyncBuilt? || step.InstallStop?
    requires CommandLeads(o, step, stage)
    requires StepRank(o.config, CommandFrom(o.config, step.index + 1), false) <= 15 + Weight(o.config.steps, step.index + 1)
    ensures Rank(o.config, stage) < StepRank(o.config, step, true)
  {
  }

  /** Own moves of a run that are not waits for the lock. */
  function Effective(o: Origin, c: Cell, moves: seq<Move>): nat
    requires Feasible(o, c, moves)
    decreases |moves|
  {
    if moves == [] then 0
    else
      var next := Moved(o, c, moves[0]);
      (if moves[0].Own? && next.stage != c.stage then 1 else 0) + Effective(o, next, moves[1..])
  }

  lemma MovedInv(o: Origin, c: Cell, m: Move)
    requires Inv(o, c) && Enabled(o, c, m)
    ensures Inv(o, Moved(o, c, m))
  {
    match m
    case Own(b) => AdvanceInv(o, c, b);
    case Env(e) => DisturbedInv(o, c, e);
  }

  lemma MovedProgresses(o: Origin, c: Cell, m: Move)
    requires WellStaged(o, c) && Enabled(o, c, m)
    ensures var gain := if m.Own? && Moved(o, c, m).stage != c.stage then 1 else 0;
      Rank(o.config, Moved(o, c, m).stage) + gain <= Rank(o.config, c.stage)
  {
    if m.Own? && !c.stage.Returned? {
      MoveProgresses(o, c, m.beat);
    }
  }

  /** A run makes a bounded number of moves other than waits, however often it is disturbed. */
  lemma {:induction false} RunsAreBounded(o: Origin, c: Cell, moves: seq<Move>)
    requires Inv(o, c) && Feasible(o, c, moves)
    ensures Effective(o, c, moves) + Rank(o.config, Ran(o, c, moves).stage) <= Rank(o.config, c.stage)
    decreases |moves|
  {
    if moves != [] {
      var next := Moved(o, c, moves[0]);
      MovedInv(o, c, moves[0]);
      MovedProgresses(o, c, moves[0]);
      RunsAreBounded(o, next, moves[1..]);
      assert Effective(o, c, moves) ==
        (if moves[0].Own? && next.stage != c.stage then 1 else 0) + Effective(o, next, moves[1..]);
    }
  }
}
