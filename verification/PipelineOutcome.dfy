/** What a successful deployment has achieved: which tree holds the target commit with all its commands run, what is
    served, and when that is not the same. */
module PipelineOutcome {
  import opened Records
  import opened Rollback
  import opened Pipeline
  import opened PipelineSafety
  import opened PipelineRuns
  import opened PipelineTraces
  import opened RollbackEffects
  import Releases

  /** All commands of the steps before `index`, in order. */
  function Done(steps: seq<CommandStep>, index: nat): seq<string>
    requires index <= |steps|
  {
    if index == 0 then [] else Done(steps, index - 1) + steps[index - 1].commands
  }

  predicate IsBuild(step: CommandStep)
  {
    step.name == "build" && step.commands != []
  }

  /** How many steps had been made at the last sync into the live tree. */
  function SyncPoint(steps: seq<CommandStep>, index: nat): (point: Option<nat>)
    requires index <= |steps|
    ensures point.Some? ==> point.value <= index
  {
    if index == 0 then None else if IsBuild(steps[index - 1]) then Some(index) else SyncPoint(steps, index - 1)
  }

  /** Whether a run that has begun its first `index` steps has stopped the service. */
  predicate StopsBy(config: Config, index: nat)
    requires index <= |config.steps|
  {
    if index == 0 then StopsBeforeBuild(config, false)
    else StopsBy(config, index - 1) || (StopsForInstall(config, false, index - 1) && config.steps[index - 1].commands != [])
  }

  /** The tree that is built is the target commit with exactly these commands run on it. */
  ghost predicate Built(o: Origin, c: Cell, ran: seq<string>)
  {
    TreeOf(c.host, WorkingDir(o.config)) == Tree(Some(c.targetSha), ran)
  }

  /** The live tree of a run that builds elsewhere: what had been built at the last sync of the isolated strategy, and
      otherwise what was found. */
  ghost function LiveTree(o: Origin, c: Cell, index: nat): Tree
    requires index <= |o.config.steps|
  {
    var point := SyncPoint(o.config.steps, index);
    if o.config.strategy.Isolated? && point.Some? then Tree(Some(c.targetSha), Done(o.config.steps, point.value))
    else o.host.live
  }

  ghost predicate Synced(o: Origin, c: Cell, index: nat)
    requires index <= |o.config.steps|
  {
    WorkingDir(o.config).Work? ==> c.host.live == LiveTree(o, c, index)
  }

  ghost predicate Reached(o: Origin, c: Cell, index: nat)
    requires index <= |o.config.steps|
  {
    Built(o, c, Done(o.config.steps, index)) && Synced(o, c, index) && c.progress.serviceStopped == StopsBy(o.config, index)
  }

  /** The service runs what the strategy has it run. */
  ghost predicate Served(o: Origin, c: Cell)
  {
    if IsZeroDowntimeEnabled(o.config) || o.config.action.NoAction? then true
    else if o.config.strategy.ReleaseDirs? then c.host.service == ServingRelease(Some(o.job.id))
    else c.host.service == Serving(c.host.live)
  }

  ghost predicate Deployed(o: Origin, c: Cell)
  {
    Reached(o, c, |o.config.steps|) && Served(o, c)
  }

  /** Just reset to the target commit. */
  ghost predicate Fresh(o: Origin, c: Cell)
  {
    Built(o, c, []) && Synced(o, c, 0)
  }

  ghost predicate Prepared(o: Origin, c: Cell)
  {
    Fresh(o, c) && !c.progress.serviceStopped
  }

  ghost predicate OnTrackAt(o: Origin, c: Cell, step: Step)
  {
    match step
    case RefreshConfig => Prepared(o, c)
    case StopBeforeBuild => Prepared(o, c)
    case Command(index, position) =>
      position == 0 && index < |o.config.steps| && o.config.steps[index].commands != [] && Reached(o, c, index)
    case Activate => Reached(o, c, |o.config.steps|)
    case ServiceAction => Reached(o, c, |o.config.steps|)
    case ReadyCheck => Deployed(o, c)
    case CleanupReleases => Deployed(o, c)
    case Complete => Deployed(o, c)
    case _ => true
  }

  ghost predicate OnTrackIn(o: Origin, c: Cell, step: Step)
  {
    match step
    case Prepare => c.host == o.host.(store := c.host.store) && !c.progress.serviceStopped
    case RefreshConfig => Prepared(o, c)
    case StopBeforeBuild => Fresh(o, c) && c.progress.serviceStopped
    case InstallStop(index) =>
      && index < |o.config.steps| && o.config.steps[index].commands != []
      && Built(o, c, Done(o.config.steps, index)) && Synced(o, c, index) && c.progress.serviceStopped
    case Command(index, position) =>
      && index < |o.config.steps| && position < |o.config.steps[index].commands|
      && Built(o, c, Done(o.config.steps, index) + o.config.steps[index].commands[..position]) && Synced(o, c, index)
      && c.progress.serviceStopped == StopsBy(o.config, index + 1)
    case SyncBuilt(index) =>
      && index < |o.config.steps| && IsBuild(o.config.steps[index]) && Built(o, c, Done(o.config.steps, index + 1))
      && c.progress.serviceStopped == StopsBy(o.config, index + 1)
    case ServiceAction => Reached(o, c, |o.config.steps|)
    case ReadyCheck => Deployed(o, c)
    case _ => true
  }

  ghost predicate Outcome(o: Origin, c: Cell)
  {
    !o.job.dryRun ==>
      && (c.stage.At? ==> OnTrackAt(o, c, c.stage.step))
      && (c.stage.In? ==> OnTrackIn(o, c, c.stage.step))
      && (c.stage == Notifying(false) || c.status == Some(Success) ==> Deployed(o, c))
  }

  lemma {:induction false} CommandFromReaches(o: Origin, c: Cell, index: nat)
    requires index <= |o.config.steps| && Reached(o, c, index)
    ensures OnTrackAt(o, c, CommandFrom(o.config, index))
    decreases |o.config.steps| - index
  {
    if index < |o.config.steps| && o.config.steps[index].commands == [] {
      assert Done(o.config.steps, index + 1) == Done(o.config.steps, index);
      CommandFromReaches(o, c, index + 1);
    }
  }

  lemma StartedOutcome(o: Origin, c: Cell)
    requires Started(o, c)
    ensures Outcome(o, c)
  {
  }

  lemma DisturbedOutcome(o: Origin, c: Cell, e: Disturbance)
    requires Outcome(o, c)
    ensures Outcome(o, Disturbed(c, e))
  {
    var c' := Disturbed(c, e);
    assert c' == c.(status := c'.status, controller := c'.controller, aborted := c'.aborted, lock := c'.lock);
    assert c'.status == Some(Success) ==> c.status == Some(Success);
    SameHostOutcome(o, c, c');
  }

  lemma SameHostOutcome(o: Origin, c: Cell, c': Cell)
    requires Outcome(o, c) && c'.stage == c.stage && c'.host == c.host
    requires c'.targetSha == c.targetSha && c'.progress == c.progress
    requires c'.status == Some(Success) ==> c.status == Some(Success)
    ensures Outcome(o, c')
  {
  }

  lemma FinishTreeOutcome(o: Origin, c: Cell, b: Beat)
    requires Outcome(o, c) && WellStaged(o, c) && c.stage.In? && Releases.Listing(c.host.store, b.disk.listing)
    requires c.stage.step.Prepare? || c.stage.step.RefreshConfig? || c.stage.step.StopBeforeBuild?
    requires c.status != Some(Success)
    ensures Outcome(o, Advance(o.job, o.config, c, b))
  {
    var c' := Advance(o.job, o.config, c, b);
    if !o.job.dryRun && c'.stage == At(CommandFrom(o.config, 0)) {
      assert Reached(o, c', 0);
      CommandFromReaches(o, c', 0);
    }
  }

  lemma FinishInstallOutcome(o: Origin, c: Cell, b: Beat)
    requires Outcome(o, c) && WellStaged(o, c) && c.stage.In? && Releases.Listing(c.host.store, b.disk.listing)
    requires c.stage.step.InstallStop? && c.status != Some(Success)
    ensures Outcome(o, Advance(o.job, o.config, c, b))
  {
    if !o.job.dryRun {
      var index := c.stage.step.index;
      assert Done(o.config.steps, index) + o.config.steps[index].commands[..0] == Done(o.config.steps, index);
    }
  }

  lemma FinishCommandOutcome(o: Origin, c: Cell, b: Beat)
    requires Outcome(o, c) && c.stage.In? && Releases.Listing(c.host.store, b.disk.listing)
    requires c.stage.step.Command? && c.status != Some(Success)
    ensures Outcome(o, Advance(o.job, o.config, c, b))
  {
    if !o.job.dryRun {
      CommandFinishes(o, c, b);
      CommandFinishedOutcome(o, c, Advance(o.job, o.config, c, b));
    }
  }

  /** A command fails the step, or has run and is followed by the next command, the sync or the next step. */
  ghost predicate CommandFinished(o: Origin, c: Cell, c': Cell)
    requires c.stage.In? && c.stage.step.Command?
  {
    var steps, index, position := o.config.steps, c.stage.step.index, c.stage.step.position;
    && c'.status == c.status
    && (c'.stage.Throwing?
        || (&& index < |steps| && position < |steps[index].commands|
            && c' == c.(stage := c'.stage, host := Do(c.host, Exec(WorkingDir(o.config), steps[index].commands[position])))
            && c'.stage == if position + 1 < |steps[index].commands| then In(Command(index, position + 1))
                           else if steps[index].name == "build" && o.config.strategy.Isolated? then In(SyncBuilt(index))
                           else At(CommandFrom(o.config, index + 1))))
  }

  lemma CommandFinishes(o: Origin, c: Cell, b: Beat)
    requires c.stage.In? && c.stage.step.Command? && Releases.Listing(c.host.store, b.disk.listing) && !o.job.dryRun
    ensures CommandFinished(o, c, Advance(o.job, o.config, c, b))
  {
  }

  lemma CommandFinishedOutcome(o: Origin, c: Cell, c': Cell)
    requires Outcome(o, c) && !o.job.dryRun && c.stage.In? && c.stage.step.Command? && CommandFinished(o, c, c')
    requires c.status != Some(Success)
    ensures Outcome(o, c')
  {
    if !c'.stage.Throwing? {
      CommandRan(o, c, c', c.stage.step.index, c.stage.step.position);
      if c'.stage.At? {
        CommandFromReaches(o, c', c.stage.step.index + 1);
      }
    }
  }

  /** One more command has run. */
  lemma CommandRan(o: Origin, c: Cell, c': Cell, index: nat, position: nat)
    requires OnTrackIn(o, c, Command(index, position)) && c'.targetSha == c.targetSha && c'.progress == c.progress
    requires c'.host == Do(c.host, Exec(WorkingDir(o.config), o.config.steps[index].commands[position]))
    ensures Built(o, c', Done(o.config.steps, index) + o.config.steps[index].commands[..position + 1])
    ensures Synced(o, c', index)
    ensures position + 1 == |o.config.steps[index].commands| ==>
      && Built(o, c', Done(o.config.steps, index + 1))
      && (!(IsBuild(o.config.steps[index]) && o.config.strategy.Isolated?) ==> Reached(o, c', index + 1))
  {
    var steps, commands := o.config.steps, o.config.steps[index].commands;
    assert Done(steps, index) + commands[..position] + [commands[position]]
        == Done(steps, index) + commands[..position + 1];
    assert position + 1 == |commands| ==> commands[..position + 1] == commands;
  }

  lemma FinishSyncOutcome(o: Origin, c: Cell, b: Beat)
    requires Outcome(o, c) && WellStaged(o, c) && c.stage.In? && Releases.Listing(c.host.store, b.disk.listing)
    requires c.stage.step.SyncBuilt? && c.status != Some(Success)
    ensures Outcome(o, Advance(o.job, o.config, c, b))
  {
    var c' := Advance(o.job, o.config, c, b);
    if !o.job.dryRun && c'.stage.At? {
      var index := c.stage.step.index;
      assert SyncPoint(o.config.steps, index + 1) == Some(index + 1);
      assert Reached(o, c', index + 1);
      CommandFromReaches(o, c', index + 1);
    }
  }

  lemma FinishServiceOutcome(o: Origin, c: Cell, b: Beat)
    requires Outcome(o, c) && StoreSafe(o, c) && c.stage.In? && Releases.Listing(c.host.store, b.disk.listing)
    requires c.stage.step.ServiceAction? && c.status != Some(Success)
    ensures Outcome(o, Advance(o.job, o.config, c, b))
  {
    var c' := Advance(o.job, o.config, c, b);
    if !o.job.dryRun && c'.stage.At? {
      if ServiceCalls(o.config).Some? {
        assert c'.host == Attempt(c.host, ServiceCalls(o.config).value, Result(true, b.took));
      }
      CallServes(o, c, c');
    }
  }

  /** The call of the service action serves what has been built; action `none` makes no call. */
  lemma CallServes(o: Origin, c: Cell, c': Cell)
    requires Reached(o, c, |o.config.steps|) && c'.targetSha == c.targetSha && c'.progress == c.progress
    requires o.config.strategy.ReleaseDirs? ==> c.host.store.current == Some(o.job.id)
    requires match ServiceCalls(o.config)
      case None => c'.host == c.host
      case Some(call) => exists took: bool :: c'.host == Attempt(c.host, call, Result(true, took))
    ensures Deployed(o, c')
  {
  }

  lemma FinishReadyOutcome(o: Origin, c: Cell, b: Beat)
    requires Outcome(o, c) && c.stage.In? && Releases.Listing(c.host.store, b.disk.listing)
    requires c.stage.step.ReadyCheck? && c.status != Some(Success)
    ensures Outcome(o, Advance(o.job, o.config, c, b))
  {
    var c' := Advance(o.job, o.config, c, b);
    ReadyKeepsTrees(o, c, b);
    if !o.job.dryRun && c'.stage.At? {
      DeployedStays(o, c, c');
    }
  }

  lemma ReadyKeepsTrees(o: Origin, c: Cell, b: Beat)
    requires c.stage == In(ReadyCheck) && Releases.Listing(c.host.store, b.disk.listing)
    ensures var c' := Advance(o.job, o.config, c, b);
      && c' == c.(stage := c'.stage, host := c.host.(log := c'.host.log))
      && (c'.stage == Throwing || c'.stage == At(CleanupReleases) || c'.stage == At(Complete))
  {
  }

  lemma DeployedStays(o: Origin, c: Cell, c': Cell)
    requires Deployed(o, c) && c'.targetSha == c.targetSha && c'.progress == c.progress
    requires c'.host == c.host.(log := c'.host.log)
    ensures Deployed(o, c')
  {
  }

  lemma FinishOtherOutcome(o: Origin, c: Cell, b: Beat)
    requires Outcome(o, c) && WellStaged(o, c) && c.stage.In? && Releases.Listing(c.host.store, b.disk.listing)
    requires c.stage.step.Validate? || c.stage.step.Fetch? || c.stage.step.Resolve?
    requires c.status != Some(Success)
    ensures Outcome(o, Advance(o.job, o.config, c, b))
  {
  }

  lemma NotYetSuccess(o: Origin, c: Cell)
    requires Inv(o, c) && (BeforeCatch(c.stage) || c.stage.Entering? || c.stage.Undoing?)
    ensures c.status != Some(Success)
  {
    assert c.stage.Undoing? ==> c.stage.why == RestoreCancelled || c.stage.why == RollBackFailed;
  }

  lemma FinishOutcome(o: Origin, c: Cell, b: Beat)
    requires Outcome(o, c) && Inv(o, c) && c.stage.In? && Releases.Listing(c.host.store, b.disk.listing)
    ensures Outcome(o, Advance(o.job, o.config, c, b))
  {
    NotYetSuccess(o, c);
    match c.stage.step {
      case Validate => FinishOtherOutcome(o, c, b);
      case Fetch => FinishOtherOutcome(o, c, b);
      case Resolve => FinishOtherOutcome(o, c, b);
      case InstallStop(_) => FinishInstallOutcome(o, c, b);
      case Command(_, _) => FinishCommandOutcome(o, c, b);
      case SyncBuilt(_) => FinishSyncOutcome(o, c, b);
      case ServiceAction => FinishServiceOutcome(o, c, b);
      case ReadyCheck => FinishReadyOutcome(o, c, b);
      case Activate =>
      case CleanupReleases =>
      case Complete =>
      case _ => FinishTreeOutcome(o, c, b);
    }
  }

  lemma BeginOutcome(o: Origin, c: Cell, b: Beat)
    requires Outcome(o, c) && Inv(o, c) && c.stage.At? && Releases.Listing(c.host.store, b.disk.listing)
    ensures Outcome(o, Advance(o.job, o.config, c, b))
  {
    NotYetSuccess(o, c);
    BeginBegins(o, c, b);
    if c.stage.step.Command? {
      BeginStopsForInstall(o, c, b);
      BeginsCommandOutcome(o, c, Advance(o.job, o.config, c, b));
    } else if Completes(o, c, Advance(o.job, o.config, c, b)) {
      CompletesOutcome(o, c, Advance(o.job, o.config, c, b));
    } else {
      BeginsOutcome(o, c, Advance(o.job, o.config, c, b));
    }
  }

  lemma BeginStopsForInstall(o: Origin, c: Cell, b: Beat)
    requires c.stage.At? && c.stage.step.Command? && Releases.Listing(c.host.store, b.disk.listing)
    ensures var c' := Advance(o.job, o.config, c, b);
      c'.stage.In? && c'.stage.step.Command? ==> !StopsForInstall(o.config, o.job.dryRun, c.stage.step.index)
  {
  }

  lemma BeginsCommandOutcome(o: Origin, c: Cell, c': Cell)
    requires Outcome(o, c) && c.stage.At? && WellStaged(o, c) && Begins(o, c, c') && c.status != Some(Success)
    requires c.stage.step.Command?
    requires c'.stage.In? && c'.stage.step.Command? ==> !StopsForInstall(o.config, o.job.dryRun, c.stage.step.index)
    ensures Outcome(o, c')
  {
    if !o.job.dryRun && c'.stage.In? {
      var index := c.stage.step.index;
      assert Done(o.config.steps, index) + o.config.steps[index].commands[..0] == Done(o.config.steps, index);
    }
  }

  lemma CompletesOutcome(o: Origin, c: Cell, c': Cell)
    requires Outcome(o, c) && c.stage.At? && Completes(o, c, c') && c.status != Some(Success)
    ensures Outcome(o, c')
  {
  }

  lemma BeginsOutcome(o: Origin, c: Cell, c': Cell)
    requires Outcome(o, c) && c.stage.At? && WellStaged(o, c) && Begins(o, c, c') && c.status != Some(Success)
    requires !c.stage.step.Command? && !Completes(o, c, c') && ProgressHonest(o, c)
    ensures Outcome(o, c')
  {
    if Quiet(o, c, c') {
      QuietOutcome(o, c, c');
    } else {
      TouchesOutcome(o, c, c');
    }
  }

  lemma QuietOutcome(o: Origin, c: Cell, c': Cell)
    requires Outcome(o, c) && c.stage.At? && WellStaged(o, c) && Quiet(o, c, c') && c.status != Some(Success)
    requires !c.stage.step.Command? && ProgressHonest(o, c)
    ensures Outcome(o, c')
  {
  }

  lemma TouchesOutcome(o: Origin, c: Cell, c': Cell)
    requires Outcome(o, c) && c.stage.At? && WellStaged(o, c) && Touches(o, c, c') && c.status != Some(Success)
    requires !c.stage.step.Command?
    ensures Outcome(o, c')
  {
  }

  lemma UndoOutcome(o: Origin, c: Cell, b: Beat)
    requires Inv(o, c) && c.stage.Undoing? && Releases.Listing(c.host.store, b.disk.listing)
    ensures Outcome(o, Advance(o.job, o.config, c, b))
  {
    NotYetSuccess(o, c);
    UndoneUndoes(o, c, b);
  }

  lemma EndOutcome(o: Origin, c: Cell, b: Beat)
    requires Outcome(o, c) && Inv(o, c) && Releases.Listing(c.host.store, b.disk.listing)
    requires c.stage.Notifying? || c.stage.Leaving? || c.stage.Returned?
    ensures Outcome(o, Advance(o.job, o.config, c, b))
  {
    assert c.stage.Notifying? ==> c.stage == Notifying(true) || c.stage == Notifying(false);
  }

  lemma EarlyOutcome(o: Origin, c: Cell, b: Beat)
    requires Outcome(o, c) && Inv(o, c) && (Early(c.stage) || c.stage.Throwing?)
    requires Releases.Listing(c.host.store, b.disk.listing)
    ensures Outcome(o, Advance(o.job, o.config, c, b))
  {
    NotYetSuccess(o, c);
    if c.stage.Throwing? {
      CatchCatches(o, c, b);
      CatchesOutcome(o, c, Advance(o.job, o.config, c, b));
    } else {
      EarlyOpens(o, c, b);
      OpensOutcome(o, c, Advance(o.job, o.config, c, b));
    }
  }

  lemma CatchesOutcome(o: Origin, c: Cell, c': Cell)
    requires Catches(o, c, c') && c.status != Some(Success)
    ensures Outcome(o, c')
  {
  }

  lemma OpensOutcome(o: Origin, c: Cell, c': Cell)
    requires Opens(o, c, c') && Early(c.stage) && c.status != Some(Success)
    ensures Outcome(o, c')
  {
  }

  lemma MovedOutcome(o: Origin, c: Cell, m: Move)
    requires Outcome(o, c) && Inv(o, c) && Enabled(o, c, m)
    ensures Outcome(o, Moved(o, c, m))
  {
    match m
    case Env(e) => DisturbedOutcome(o, c, e);
    case Own(b) =>
      if c.stage.In? {
        FinishOutcome(o, c, b);
      } else if c.stage.At? {
        BeginOutcome(o, c, b);
      } else if c.stage.Undoing? {
        UndoOutcome(o, c, b);
      } else if c.stage.Notifying? || c.stage.Leaving? || c.stage.Returned? {
        EndOutcome(o, c, b);
      } else {
        EarlyOutcome(o, c, b);
      }
  }

  lemma {:induction false} RunOutcome(o: Origin, c: Cell, moves: seq<Move>)
    requires Outcome(o, c) && Inv(o, c) && Feasible(o, c, moves)
    ensures Outcome(o, Ran(o, c, moves))
    decreases |moves|
  {
    if moves != [] {
      MovedInv(o, c, moves[0]);
      MovedOutcome(o, c, moves[0]);
      RunOutcome(o, Moved(o, c, moves[0]), moves[1..]);
    }
  }

  lemma ReachableOutcome(o: Origin, c: Cell)
    requires Reachable(o, c)
    ensures Outcome(o, c)
  {
    var start, moves :| Started(o, start) && Feasible(o, start, moves) && c == Ran(o, start, moves);
    StartedInv(o, start);
    StartedOutcome(o, start);
    RunOutcome(o, start, moves);
  }

  /** A successful deployment has built the target commit with every configured command, in order, in the tree it builds
      in. If that is not the live tree, the live tree is the last synced state or what was found. The service was
      restarted on the live tree or on the run's release; in zero-downtime mode the traffic was switched once if the call
      took effect. The commit is recorded as the last success. */
  lemma SuccessServesTarget(o: Origin, c: Cell)
    requires Reachable(o, c) && c.status == Some(Success) && !o.job.dryRun
    ensures TreeOf(c.host, WorkingDir(o.config)) == Tree(Some(c.targetSha), Done(o.config.steps, |o.config.steps|))
    ensures WorkingDir(o.config).Work? ==> c.host.live == LiveTree(o, c, |o.config.steps|)
    ensures !IsZeroDowntimeEnabled(o.config) && !o.config.action.NoAction? ==>
      c.host.service == if o.config.strategy.ReleaseDirs? then ServingRelease(Some(o.job.id)) else Serving(c.host.live)
    ensures IsZeroDowntimeEnabled(o.config) ==>
      c.host.generations == o.host.generations || c.host.generations == Switched(o.host.generations)
    ensures c.lastSuccessful == Some(c.targetSha)
  {
    ReachableOutcome(o, c);
    SuccessGenerations(o, c);
    SuccessRecorded(o, c);
  }

  lemma SuccessRecorded(o: Origin, c: Cell)
    requires Reachable(o, c) && c.status == Some(Success) && !o.job.dryRun
    ensures c.lastSuccessful == Some(c.targetSha)
  {
    ReachableInv(o, c);
  }

  lemma SuccessGenerations(o: Origin, c: Cell)
    requires Reachable(o, c) && c.status == Some(Success)
    ensures c.host.generations == o.host.generations || c.host.generations == Switched(o.host.generations)
  {
    ReachableTraced(o, c);
  }

  // Which live tree

  /** The last step with commands is a `build`. */
  predicate BuildIsLast(steps: seq<CommandStep>)
  {
    exists i :: 0 <= i < |steps| && IsBuild(steps[i]) && forall j :: i < j < |steps| ==> steps[j].commands == []
  }

  lemma {:induction false} DoneGrows(steps: seq<CommandStep>, point: nat, index: nat)
    requires point <= index <= |steps|
    ensures |Done(steps, point)| <= |Done(steps, index)|
    ensures Done(steps, point) == Done(steps, index) <==> forall j :: point <= j < index ==> steps[j].commands == []
    decreases index
  {
    if point < index {
      DoneGrows(steps, point, index - 1);
      if steps[index - 1].commands == [] {
        assert Done(steps, index) == Done(steps, index - 1);
      }
    }
  }

  lemma {:induction false} LastSync(steps: seq<CommandStep>, index: nat)
    requires index <= |steps|
    ensures var point := SyncPoint(steps, index);
      match point
      case None => forall j :: 0 <= j < index ==> !IsBuild(steps[j])
      case Some(k) => 0 < k <= index && IsBuild(steps[k - 1]) && forall j :: k <= j < index ==> !IsBuild(steps[j])
  {
    if index > 0 {
      LastSync(steps, index - 1);
    }
  }

  /** The synced state is complete exactly when nothing but a `build` comes last. */
  lemma SyncedIsComplete(steps: seq<CommandStep>)
    ensures var point := SyncPoint(steps, |steps|);
      point.Some? && Done(steps, point.value) == Done(steps, |steps|) <==> BuildIsLast(steps)
  {
    var point := SyncPoint(steps, |steps|);
    LastSync(steps, |steps|);
    if point.Some? {
      DoneGrows(steps, point.value, |steps|);
      if BuildIsLast(steps) {
        var i :| 0 <= i < |steps| && IsBuild(steps[i]) && forall j :: i < j < |steps| ==> steps[j].commands == [];
        assert i == point.value - 1;
      }
    }
  }

  /** After a success the live tree holds the target commit with all commands run exactly if the run built in place, or
      isolated with a `build` as its last step with commands, or if nothing was synced and it held that already. In all
      other cases an isolated run restarts the service on something else and still succeeds. */
  lemma LiveHoldsTarget(o: Origin, c: Cell)
    requires Reachable(o, c) && c.status == Some(Success) && !o.job.dryRun
    ensures var steps, complete := o.config.steps, Tree(Some(c.targetSha), Done(o.config.steps, |o.config.steps|));
      c.host.live == complete <==>
        || WorkingDir(o.config).Live?
        || (o.config.strategy.Isolated? && BuildIsLast(steps))
        || (o.host.live == complete && (o.config.strategy.Isolated? ==> SyncPoint(steps, |steps|).None?))
  {
    ReachableOutcome(o, c);
    SyncedIsComplete(o.config.steps);
  }

  /** With action `none`, a successful deployment leaves the service down if and only if it was found down, or the
      configuration has the deployment stop it: before the build, or for a nonempty `install`. */
  lemma NoActionSuccess(o: Origin, c: Cell)
    requires Reachable(o, c) && c.status == Some(Success) && !o.job.dryRun && o.config.action.NoAction?
    ensures Down(c.host.service) <==>
      || Down(o.host.service)
      || StopsBeforeBuild(o.config, false)
      || exists i :: 0 <= i < |o.config.steps| && StopsForInstall(o.config, false, i) && o.config.steps[i].commands != []
  {
    SuccessStops(o, c);
    NoActionService(o, c);
    StopsByExists(o.config, |o.config.steps|);
  }

  lemma SuccessStops(o: Origin, c: Cell)
    requires Reachable(o, c) && c.status == Some(Success) && !o.job.dryRun
    ensures o.host.log <= c.host.log && (StopService in OwnCalls(o, c) <==> StopsBy(o.config, |o.config.steps|))
  {
    ReachableOutcome(o, c);
    ReachableTraced(o, c);
  }

  lemma {:induction false} StopsByExists(config: Config, index: nat)
    requires index <= |config.steps|
    ensures StopsBy(config, index) <==>
      || StopsBeforeBuild(config, false)
      || exists i :: 0 <= i < index && StopsForInstall(config, false, i) && config.steps[i].commands != []
  {
    if index > 0 {
      StopsByExists(config, index - 1);
    }
  }
}
