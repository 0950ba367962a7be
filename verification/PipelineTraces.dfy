/** What the calls of a run have done to the service, to the zero-downtime generations and to `current`, for every run
    and however it ends. */
module PipelineTraces {
  import opened Records
  import opened Rollback
  import opened RollbackEffects
  import opened Pipeline
  import opened PipelineSafety
  import opened PipelineRuns
  import Releases

  // The invariant

  /** The service action has not been carried out yet. */
  ghost predicate BeforeSwitch(stage: Stage)
  {
    Early(stage)
    || ((stage.At? || stage.In?) && !stage.step.ReadyCheck? && !stage.step.CleanupReleases? && !stage.step.Complete?)
  }

  /** The `catch` block and a rollback are still to come, if there are to be any. */
  ghost predicate Unsettled(stage: Stage)
  {
    Early(stage) || BeforeCatch(stage) || stage.Undoing?
  }

  ghost predicate Succeeded(c: Cell)
  {
    c.stage == Notifying(false) || c.status == Some(Success)
  }

  /** At most one switch, and then at most one revert. */
  ghost predicate GenerationsTraced(o: Origin, c: Cell)
  {
    var found, now := o.host.generations, c.host.generations;
    && (BeforeSwitch(c.stage) ==> now == found)
    && (Unsettled(c.stage) || Succeeded(c) ==> now == found || now == Switched(found))
    && (now == found || now == Switched(found) || now == Reverted(found) || now == Reverted(Switched(found)))
    && (now.switches != found.switches ==> c.progress.serviceActionStarted)
  }

  /** A run that ends rolled back, in zero-downtime mode, has asked for the revert exactly when the service action had
      started, except with action `none` and a previous commit. */
  ghost predicate RevertsTraced(o: Origin, c: Cell)
    requires o.host.log <= c.host.log
  {
    c.status == Some(RolledBack) && IsZeroDowntimeEnabled(o.config) && !o.config.strategy.ReleaseDirs? ==>
      (RevertGeneration in OwnCalls(o, c) <==>
        c.progress.serviceActionStarted && !(o.config.action.NoAction? && c.prevSha.Some?))
  }

  /** `current` moves with the progress record. */
  ghost predicate CurrentTraced(o: Origin, c: Cell)
  {
    Unsettled(c.stage) ==>
      c.host.store.current == if c.progress.releaseActivated then Some(o.job.id) else o.host.store.current
  }

  ghost predicate Stopping(stage: Stage)
  {
    stage.In? && (stage.step.StopBeforeBuild? || stage.step.InstallStop?)
  }

  /** The record says whether the run has stopped the service; it is written just before the call, and only where the
      strategy lets a run stop the service at all. */
  ghost predicate StopsTraced(o: Origin, c: Cell)
    requires o.host.log <= c.host.log
  {
    Unsettled(c.stage) ==>
      && (StopService in OwnCalls(o, c) ==> c.progress.serviceStopped)
      && (c.progress.serviceStopped && !Stopping(c.stage) ==> StopService in OwnCalls(o, c))
      && (c.progress.serviceStopped ==> !o.config.strategy.ReleaseDirs? && !IsZeroDowntimeEnabled(o.config))
  }

  /** A rollback to a commit stops the service once more if it runs install commands next to it. */
  ghost predicate RollbackStopsTraced(o: Origin, c: Cell)
    requires o.host.log <= c.host.log
  {
    c.status == Some(RolledBack) && !o.config.strategy.ReleaseDirs? && !IsZeroDowntimeEnabled(o.config) ==>
      (StopService in OwnCalls(o, c) <==>
        c.progress.serviceStopped
        || (IsServiceAffected(c.progress) && CommandsOf(o.config.steps, "install") != [] && !o.config.strategy.Isolated?))
  }

  /** A successful run has stopped the service exactly when the record says so. */
  ghost predicate SuccessStopsTraced(o: Origin, c: Cell)
    requires o.host.log <= c.host.log
  {
    Succeeded(c) ==> (StopService in OwnCalls(o, c) <==> c.progress.serviceStopped)
  }

  /** Outside the release strategy a rollback to a commit has rebuilt the live tree at it. */
  ghost predicate TreeTraced(o: Origin, c: Cell)
  {
    c.status == Some(RolledBack) && !o.config.strategy.ReleaseDirs? && c.prevSha.Some? ==>
      c.host.live == RebuiltTree(o.config, c.prevSha.value)
  }

  ghost predicate Traced(o: Origin, c: Cell)
  {
    && o.host.log <= c.host.log && TreeTraced(o, c)
    && GenerationsTraced(o, c) && RevertsTraced(o, c) && CurrentTraced(o, c)
    && StopsTraced(o, c) && RollbackStopsTraced(o, c) && SuccessStopsTraced(o, c)
    && MovedByCalls(o.host, c.host)
    && (o.config.action.NoAction? ==> OnlyStopped(o.host, c.host))
  }

  lemma StartedTraced(o: Origin, c: Cell)
    requires Started(o, c)
    ensures Traced(o, c)
  {
    assert OwnCalls(o, c) == [] && CallsBetween(o.host, c.host) == [];
  }

  // Moves that make no call

  /** What such a move leaves alone. */
  ghost predicate NoCall(c: Cell, c': Cell)
  {
    && c'.host == c.host.(store := c'.host.store)
    && (c.progress.serviceActionStarted ==> c'.progress.serviceActionStarted)
    && (c'.status == Some(RolledBack) ==>
          c.status == Some(RolledBack) && c'.progress == c.progress && c'.prevSha == c.prevSha)
    && (Succeeded(c') ==> (Succeeded(c) || c.stage == At(Complete)) && c'.progress == c.progress)
  }

  lemma NoCallTraced(o: Origin, c: Cell, c': Cell)
    requires Traced(o, c) && NoCall(c, c')
    requires BeforeSwitch(c'.stage) ==> BeforeSwitch(c.stage)
    requires Unsettled(c'.stage) ==> Unsettled(c.stage) && CurrentTraced(o, c') && StopsTraced(o, c')
    ensures Traced(o, c')
  {
    assert OwnCalls(o, c') == OwnCalls(o, c);
    assert CallsBetween(o.host, c'.host) == CallsBetween(o.host, c.host);
  }

  lemma DisturbedTraced(o: Origin, c: Cell, e: Disturbance)
    requires Traced(o, c) && Possible(o.job, c, e)
    ensures Traced(o, Disturbed(c, e))
  {
    DisturbedDisturbs(o, c, e);
    NoCallTraced(o, c, Disturbed(c, e));
  }

  lemma EarlyTraced(o: Origin, c: Cell, b: Beat)
    requires Traced(o, c) && Inv(o, c) && Early(c.stage) && Releases.Listing(c.host.store, b.disk.listing)
    ensures Traced(o, Advance(o.job, o.config, c, b))
  {
    EarlyOpens(o, c, b);
    OpensTraced(o, c, Advance(o.job, o.config, c, b));
  }

  lemma OpensTraced(o: Origin, c: Cell, c': Cell)
    requires Traced(o, c) && Bookkept(c) && Early(c.stage) && Opens(o, c, c')
    ensures Traced(o, c')
  {
    NoCallTraced(o, c, c');
  }

  lemma BeginTraced(o: Origin, c: Cell, b: Beat)
    requires Traced(o, c) && Inv(o, c) && c.stage.At? && Releases.Listing(c.host.store, b.disk.listing)
    ensures Traced(o, Advance(o.job, o.config, c, b))
  {
    BeginBegins(o, c, b);
    BeginsTraced(o, c, Advance(o.job, o.config, c, b));
  }

  lemma BeginsTraced(o: Origin, c: Cell, c': Cell)
    requires Traced(o, c) && Bookkept(c) && WellStaged(o, c) && c.stage.At? && Begins(o, c, c')
    ensures Traced(o, c')
  {
    BeginsStages(o, c, c');
    BeginsFlags(o, c, c');
    NoCallTraced(o, c, c');
  }

  lemma BeginsStages(o: Origin, c: Cell, c': Cell)
    requires Bookkept(c) && WellStaged(o, c) && c.stage.At? && Begins(o, c, c')
    ensures NoCall(c, c') && (BeforeSwitch(c'.stage) ==> BeforeSwitch(c.stage))
  {
  }

  lemma BeginsFlags(o: Origin, c: Cell, c': Cell)
    requires Traced(o, c) && Bookkept(c) && WellStaged(o, c) && c.stage.At? && Begins(o, c, c')
    requires c'.host.log == c.host.log
    ensures Unsettled(c'.stage) ==> CurrentTraced(o, c') && StopsTraced(o, c')
  {
  }

  lemma CatchTraced(o: Origin, c: Cell, b: Beat)
    requires Traced(o, c) && Inv(o, c) && c.stage.Throwing? && Releases.Listing(c.host.store, b.disk.listing)
    ensures Traced(o, Advance(o.job, o.config, c, b))
  {
    CatchCatches(o, c, b);
    CatchesTraced(o, c, Advance(o.job, o.config, c, b));
  }

  lemma CatchesTraced(o: Origin, c: Cell, c': Cell)
    requires Traced(o, c) && Bookkept(c) && c.stage.Throwing? && Catches(o, c, c')
    ensures Traced(o, c')
  {
    NoCallTraced(o, c, c');
  }

  lemma EndTraced(o: Origin, c: Cell, b: Beat)
    requires Traced(o, c) && (c.stage.Notifying? || c.stage.Leaving? || c.stage.Returned?)
    requires Releases.Listing(c.host.store, b.disk.listing)
    ensures Traced(o, Advance(o.job, o.config, c, b))
  {
    NoCallTraced(o, c, Advance(o.job, o.config, c, b));
  }

  // Moves that make one call

  lemma FinishTraced(o: Origin, c: Cell, b: Beat)
    requires Traced(o, c) && Inv(o, c) && c.stage.In? && Releases.Listing(c.host.store, b.disk.listing)
    ensures Traced(o, Advance(o.job, o.config, c, b))
  {
    var c' := Advance(o.job, o.config, c, b);
    FinishFinishes(o, c, b);
    FinishStages(o, c, b);
    if Stopping(c.stage) {
      StopMade(o, c, b);
      OneCallTraced(o, c, c', StopService, Result(b.ok, b.took));
    } else {
      FinishesTraced(o, c, c');
    }
  }

  lemma FinishStages(o: Origin, c: Cell, b: Beat)
    requires c.stage.In? && Releases.Listing(c.host.store, b.disk.listing)
    ensures c.stage.step.ServiceAction? || c.stage.step.ReadyCheck? ==> !BeforeSwitch(Advance(o.job, o.config, c, b).stage)
  {
  }

  lemma StopMade(o: Origin, c: Cell, b: Beat)
    requires Stopping(c.stage) && WellStaged(o, c) && Releases.Listing(c.host.store, b.disk.listing)
    ensures Advance(o.job, o.config, c, b).host == Attempt(c.host, StopService, Result(b.ok, b.took))
  {
  }

  lemma FinishesTraced(o: Origin, c: Cell, c': Cell)
    requires Traced(o, c) && Bookkept(c) && WellStaged(o, c) && FlaggedFirst(o, c)
    requires c.stage.In? && !Stopping(c.stage) && Finishes(o, c, c')
    requires c.stage.step.ServiceAction? || c.stage.step.ReadyCheck? ==> !BeforeSwitch(c'.stage)
    ensures Traced(o, c')
  {
    if c'.host == c.host {
      NoCallTraced(o, c, c');
    } else {
      var call: Call, r: Result :| CallOf(o, c.stage.step, call) && c'.host == Attempt(c.host, call, r);
      OneCallTraced(o, c, c', call, r);
    }
  }

  lemma OneCallTraced(o: Origin, c: Cell, c': Cell, call: Call, r: Result)
    requires Traced(o, c) && Bookkept(c) && c.stage.In? && Finishes(o, c, c')
    requires CallOf(o, c.stage.step, call) && c'.host == Attempt(c.host, call, r)
    requires c.stage.step.ServiceAction? || c.stage.step.ReadyCheck? ==> !BeforeSwitch(c'.stage)
    requires Stopping(c.stage) ==> call == StopService && c.progress.serviceStopped
    requires c.stage.step.ServiceAction? ==> c.progress.serviceActionStarted
    ensures Traced(o, c')
  {
    assert c.status != Some(RolledBack);
    assert c'.host.log == c.host.log + [call];
    OneCallGenerations(o, c, c', call, r);
    OneCallStops(o, c, c', call);
    assert c'.host.store == c.host.store;
    OneCallMoves(c.host, call, r);
    MovedByCallsComposes(o.host, c.host, c'.host);
    if o.config.action.NoAction? {
      OneCallOnlyStops(c.host, call, r);
      OnlyStoppedComposes(o.host, c.host, c'.host);
    }
  }

  lemma OneCallStops(o: Origin, c: Cell, c': Cell, call: Call)
    requires o.host.log <= c.host.log && StopsTraced(o, c) && Bookkept(c) && c.stage.In? && Finishes(o, c, c')
    requires CallOf(o, c.stage.step, call) && c'.host.log == c.host.log + [call]
    requires Stopping(c.stage) ==> call == StopService && c.progress.serviceStopped
    ensures o.host.log <= c'.host.log && StopsTraced(o, c')
    ensures RevertsTraced(o, c') && RollbackStopsTraced(o, c') && SuccessStopsTraced(o, c')
  {
    assert OwnCalls(o, c') == OwnCalls(o, c) + [call];
  }

  lemma OneCallGenerations(o: Origin, c: Cell, c': Cell, call: Call, r: Result)
    requires GenerationsTraced(o, c) && c.stage.In?
    requires (c'.stage.At? || c'.stage.In? || c'.stage.Throwing?) && c'.status == c.status
    requires CallOf(o, c.stage.step, call) && c'.host == Attempt(c.host, call, r) && c'.progress == c.progress
    requires c.stage.step.ServiceAction? || c.stage.step.ReadyCheck? ==> !BeforeSwitch(c'.stage)
    requires c.stage.step.ServiceAction? ==> c.progress.serviceActionStarted
    ensures GenerationsTraced(o, c')
  {
  }

  // Rollbacks

  /** What the rollback returned, for the row of the run. */
  ghost predicate RolledBackAs(o: Origin, c: Cell, c': Cell, result: (Host, bool))
    requires c.stage.Undoing?
  {
    && Undoes(o, c, c') && c'.host == result.0.(store := c'.host.store)
    && (c.stage.why.RollBackFailed? ==> c'.host == result.0 && (c'.status == Some(RolledBack) ==> result.1))
  }

  function UndoResult(o: Origin, c: Cell, b: Beat): (Host, bool)
    requires c.stage.Undoing? && Releases.Listing(c.host.store, b.disk.listing)
  {
    RolledBackHost(o.config, c.prevSha, o.job.id, c.stage.why.RestoreCancelled? || IsServiceAffected(c.progress),
                   c.progress.serviceActionStarted, c.host, b.disk, b.outcome)
  }

  lemma UndoneRolledBack(o: Origin, c: Cell, b: Beat)
    requires c.stage.Undoing? && Releases.Listing(c.host.store, b.disk.listing)
    ensures RolledBackAs(o, c, Advance(o.job, o.config, c, b), UndoResult(o, c, b))
  {
  }

  lemma UndoTraced(o: Origin, c: Cell, b: Beat)
    requires Traced(o, c) && Inv(o, c) && c.stage.Undoing? && Releases.Listing(c.host.store, b.disk.listing)
    ensures Traced(o, Advance(o.job, o.config, c, b))
  {
    var affected := c.stage.why.RestoreCancelled? || IsServiceAffected(c.progress);
    var c' := Advance(o.job, o.config, c, b);
    UndoneRolledBack(o, c, b);
    RolledBackCalls(o.config, c.prevSha, o.job.id, affected, c.progress.serviceActionStarted, c.host, b.disk, b.outcome);
    RolledBackGenerations(o.config, c.prevSha, o.job.id, affected, c.progress.serviceActionStarted, c.host, b.disk, b.outcome);
    RolledBackMovesByCalls(o.config, c.prevSha, o.job.id, affected, c.progress.serviceActionStarted, c.host, b.disk, b.outcome);
    if o.config.action.NoAction? {
      NoActionRollback(o.config, c.prevSha, o.job.id, affected, c.progress.serviceActionStarted, c.host, b.disk, b.outcome);
    }
    UndoCalls(o, c, b);
    UndoRebuilds(o, c, b);
    UndoesTraced(o, c, c', UndoResult(o, c, b));
  }

  lemma UndoesTraced(o: Origin, c: Cell, c': Cell, result: (Host, bool))
    requires Traced(o, c) && c.stage.Undoing? && RolledBackAs(o, c, c', result) && c.host.log <= result.0.log
    requires result.0.generations == c.host.generations || result.0.generations == Reverted(c.host.generations)
    requires MovedByCalls(c.host, result.0) && (o.config.action.NoAction? ==> OnlyStopped(c.host, result.0))
    requires Bookkept(c) && o.host.log <= c'.host.log && RevertsTraced(o, c') && RollbackStopsTraced(o, c') && TreeTraced(o, c')
    ensures Traced(o, c')
  {
    assert c.stage.why == RestoreCancelled || c.stage.why == RollBackFailed;
    MovedByCallsComposes(o.host, c.host, result.0);
    assert CallsBetween(o.host, c'.host) == CallsBetween(o.host, result.0);
    if o.config.action.NoAction? {
      OnlyStoppedComposes(o.host, c.host, result.0);
    }
  }

  lemma UndoRebuilds(o: Origin, c: Cell, b: Beat)
    requires Bookkept(c) && c.stage.Undoing? && Releases.Listing(c.host.store, b.disk.listing)
    ensures TreeTraced(o, Advance(o.job, o.config, c, b))
  {
    var c' := Advance(o.job, o.config, c, b);
    UndoneRolledBack(o, c, b);
    assert c.stage.why == RestoreCancelled || c.stage.why == RollBackFailed;
    if c'.status == Some(RolledBack) && !o.config.strategy.ReleaseDirs? && c.prevSha.Some? {
      CommitPathRebuilds(c.host, o.config, c.prevSha.value, IsServiceAffected(c.progress), c.progress.serviceActionStarted,
        b.outcome);
    }
  }

  /** Outside the release strategy a rollback that returned normally has made all calls of its plan. */
  lemma UndoCalls(o: Origin, c: Cell, b: Beat)
    requires Traced(o, c) && Inv(o, c) && c.stage.Undoing? && Releases.Listing(c.host.store, b.disk.listing)
    requires c.host.log <= UndoResult(o, c, b).0.log
    ensures var c' := Advance(o.job, o.config, c, b);
      o.host.log <= c'.host.log && RevertsTraced(o, c') && RollbackStopsTraced(o, c')
  {
    var c' := Advance(o.job, o.config, c, b);
    UndoneRolledBack(o, c, b);
    assert c.stage.why == RestoreCancelled || c.stage.why == RollBackFailed;
    if c'.status == Some(RolledBack) && !o.config.strategy.ReleaseDirs? {
      var affected := IsServiceAffected(c.progress);
      PerformedAll(c.host, PlanFor(o.config, c.prevSha, affected, c.progress.serviceActionStarted), b.outcome);
      PlanMade(o, c, c');
    }
  }

  lemma PlanMade(o: Origin, c: Cell, c': Cell)
    requires Traced(o, c) && c.stage == Undoing(RollBackFailed) && Undoes(o, c, c')
    requires RevertsJustified(o, c) && CanRollBack(o.config, c) && !o.config.strategy.ReleaseDirs?
    requires c'.host.log == c.host.log
      + PlanFor(o.config, c.prevSha, IsServiceAffected(c.progress), c.progress.serviceActionStarted)
    ensures o.host.log <= c'.host.log && RevertsTraced(o, c') && RollbackStopsTraced(o, c')
  {
    var plan := PlanFor(o.config, c.prevSha, IsServiceAffected(c.progress), c.progress.serviceActionStarted);
    PlanStops(o.config, c.prevSha, IsServiceAffected(c.progress), c.progress.serviceActionStarted);
    PlanReverts(o.config, c.prevSha, IsServiceAffected(c.progress), c.progress.serviceActionStarted);
    CallsAppended(o, c, c', plan);
  }

  lemma PlanReverts(config: Config, prev: Option<Sha>, serviceAffected: bool, revertGeneration: bool)
    ensures RevertGeneration in PlanFor(config, prev, serviceAffected, revertGeneration)
      <==> RequestsRevert(config, prev, serviceAffected, revertGeneration)
  {
    if !RequestsRevert(config, prev, serviceAffected, revertGeneration) {
      NoRevertRequested(config, prev, serviceAffected, revertGeneration);
    } else if prev.Some? {
      assert RevertGeneration in ServicePlan(config, serviceAffected, revertGeneration);
    }
  }

  lemma CallsAppended(o: Origin, c: Cell, c': Cell, plan: seq<Call>)
    requires o.host.log <= c.host.log && c'.host.log == c.host.log + plan
    ensures o.host.log <= c'.host.log && OwnCalls(o, c') == OwnCalls(o, c) + plan
  {
  }

  // Runs

  lemma MovedTraced(o: Origin, c: Cell, m: Move)
    requires Traced(o, c) && Inv(o, c) && Enabled(o, c, m)
    ensures Traced(o, Moved(o, c, m))
  {
    match m
    case Env(e) => DisturbedTraced(o, c, e);
    case Own(b) =>
      if c.stage.In? {
        FinishTraced(o, c, b);
      } else if c.stage.At? {
        BeginTraced(o, c, b);
      } else if c.stage.Undoing? {
        UndoTraced(o, c, b);
      } else if c.stage.Throwing? {
        CatchTraced(o, c, b);
      } else if c.stage.Notifying? || c.stage.Leaving? || c.stage.Returned? {
        EndTraced(o, c, b);
      } else {
        EarlyTraced(o, c, b);
      }
  }

  lemma {:induction false} RunKeepsTraced(o: Origin, c: Cell, moves: seq<Move>)
    requires Traced(o, c) && Inv(o, c) && Feasible(o, c, moves)
    ensures Traced(o, Ran(o, c, moves))
    decreases |moves|
  {
    if moves != [] {
      MovedInv(o, c, moves[0]);
      MovedTraced(o, c, moves[0]);
      RunKeepsTraced(o, Moved(o, c, moves[0]), moves[1..]);
    }
  }

  lemma ReachableTraced(o: Origin, c: Cell)
    requires Reachable(o, c)
    ensures Traced(o, c)
  {
    var start, moves :| Started(o, start) && Feasible(o, start, moves) && c == Ran(o, start, moves);
    StartedInv(o, start);
    StartedTraced(o, start);
    RunKeepsTraced(o, start, moves);
  }

  /** In place, isolated or in zero-downtime mode, with any action: a run that ends rolled back with a previous commit has
      the live tree back at it, with its install and build commands run in order. */
  lemma RolledBackFiles(o: Origin, c: Cell)
    requires Reachable(o, c) && c.status == Some(RolledBack) && !o.config.strategy.ReleaseDirs? && c.prevSha.Some?
    ensures c.prevSha == PreviousSha(o) && c.host.live == RebuiltTree(o.config, c.prevSha.value)
  {
    ReachableTraced(o, c);
    ReachableInv(o, c);
  }

  // Zero-downtime generations

  lemma {:induction false} NextDiffers(number: nat, g: Generation)
    ensures Next(number, g) != g
    decreases g
  {
    if g.Next? {
      NextDiffers(g.number, g.replaced);
    }
  }

  /** In every state of every run, whatever its calls claimed, the generation that serves is the one found at the start
      if and only if the traffic was really reverted as often as it was really switched. */
  lemma GenerationsBalance(o: Origin, c: Cell)
    requires Reachable(o, c)
    ensures var found, now := o.host.generations, c.host.generations;
      && (now.active == found.active <==> now.switches - found.switches == now.reverts - found.reverts)
      && found.switches <= now.switches <= found.switches + 1 && found.reverts <= now.reverts <= found.reverts + 1
      && (now.switches == found.switches && now.reverts > found.reverts ==>
            found.active.Next? && now.active == found.active.replaced)
      && (now.switches > found.switches && now.reverts == found.reverts ==>
            now.active == Next(now.switches, found.active))
  {
    ReachableTraced(o, c);
    var found := o.host.generations;
    NextDiffers(found.switches + 1, found.active);
    if found.active.Next? {
      NextDiffers(found.active.number, found.active.replaced);
    }
  }

  /** A zero-downtime run that ends rolled back has asked for the revert exactly when its service action had started,
      except with action `none` and a previous commit; without the call nothing was reverted. With `GenerationsBalance`:
      it serves the failed generation if that was switched to and the revert was not called or did not take. */
  lemma RolledBackGeneration(o: Origin, c: Cell)
    requires Reachable(o, c) && c.status == Some(RolledBack)
    requires IsZeroDowntimeEnabled(o.config) && !o.config.strategy.ReleaseDirs?
    ensures o.host.log <= c.host.log
    ensures RevertGeneration in OwnCalls(o, c) <==>
      c.progress.serviceActionStarted && !(o.config.action.NoAction? && c.prevSha.Some?)
    ensures RevertGeneration !in OwnCalls(o, c) ==> c.host.generations.reverts == o.host.generations.reverts
    ensures c.host.generations.switches > o.host.generations.switches ==> c.progress.serviceActionStarted
  {
    ReachableTraced(o, c);
    ReachableInv(o, c);
  }

  // Release rollbacks

  /** The release that a failed run leaves `current` on: its own if and only if it had activated it and nothing lets the
      rollback switch back; the newest other one if something does. The row does not say which. */
  lemma ReleaseRunEndsOn(o: Origin, c: Cell, b: Beat)
    requires Reachable(o, c) && c.stage == Undoing(RollBackFailed) && o.config.strategy.ReleaseDirs?
    requires Releases.Listing(c.host.store, b.disk.listing)
    ensures var store := Advance(o.job, o.config, c, b).host.store;
      && (store.current == Some(o.job.id) <==> c.progress.releaseActivated && !CanRelink(c.host.store, o.job.id, b.disk))
      && (if CanRelink(c.host.store, o.job.id, b.disk)
          then store.current == Releases.PreviousRelease(c.host.store, b.disk.listing, o.job.id)
          else store == c.host.store)
      && (!c.progress.releaseActivated && !CanRelink(c.host.store, o.job.id, b.disk) ==>
            store.current == o.host.store.current)
  {
    ReachableTraced(o, c);
    ReachableInv(o, c);
    UndoneRolledBack(o, c, b);
    RolledBackCurrent(o.config, c.prevSha, o.job.id, IsServiceAffected(c.progress), c.progress.serviceActionStarted,
      c.host, b.disk, b.outcome);
  }

  lemma UntouchedService(o: Origin, c: Cell)
    requires Reachable(o, c) && c.stage == Undoing(RollBackFailed)
    ensures !IsServiceAffected(c.progress) ==> c.host.service == o.host.service
  {
    ReachableInv(o, c);
  }

  /** What a release run that is recorded as rolled back serves, on each path of its rollback. */
  lemma ReleaseRunServes(o: Origin, c: Cell, b: Beat)
    requires Reachable(o, c) && c.stage == Undoing(RollBackFailed) && o.config.strategy.ReleaseDirs?
    requires !IsZeroDowntimeEnabled(o.config) && !o.config.action.NoAction?
    requires Releases.Listing(c.host.store, b.disk.listing) && Advance(o.job, o.config, c, b).status == Some(RolledBack)
    ensures var after := Advance(o.job, o.config, c, b).host;
      && ServesAfterRelease(o.config, c.prevSha, o.job.id, IsServiceAffected(c.progress), c.host, b.disk, b.outcome, after)
      && (!IsServiceAffected(c.progress) ==> after.service == o.host.service)
  {
    UntouchedService(o, c);
    UndoneRolledBack(o, c, b);
    ReleaseRollbackServes(o.config, c.prevSha, o.job.id, IsServiceAffected(c.progress), c.progress.serviceActionStarted,
      c.host, b.disk, b.outcome);
  }

  // Action `none`

  /** With action `none`, in every state of every run, whatever the strategy and whether it failed, was rolled back or
      succeeded: the service is down if and only if it was found down or the run has stopped it. */
  lemma NoActionService(o: Origin, c: Cell)
    requires Reachable(o, c) && o.config.action.NoAction?
    ensures o.host.log <= c.host.log
    ensures Down(c.host.service) <==> Down(o.host.service) || StopService in OwnCalls(o, c)
    ensures StopService !in OwnCalls(o, c) ==> c.host.service == o.host.service
  {
    ReachableTraced(o, c);
  }

  /** When a run in place or isolated that ends rolled back has stopped the service: before its own install commands or
      its build, or again before those of the rollback. */
  lemma RolledBackRunStops(o: Origin, c: Cell)
    requires Reachable(o, c) && c.status == Some(RolledBack)
    requires !o.config.strategy.ReleaseDirs? && !IsZeroDowntimeEnabled(o.config)
    ensures o.host.log <= c.host.log
    ensures StopService in OwnCalls(o, c) <==>
      c.progress.serviceStopped
      || (IsServiceAffected(c.progress) && CommandsOf(o.config.steps, "install") != [] && !o.config.strategy.Isolated?)
  {
    ReachableTraced(o, c);
  }

  /** A release run with action `none` that is recorded as rolled back: the service, which was not stopped by the run
      itself, is down if it was found down or the rollback fell through to a commit with install commands. */
  lemma NoActionReleaseRollback(o: Origin, c: Cell, b: Beat)
    requires Reachable(o, c) && c.stage == Undoing(RollBackFailed) && o.config.strategy.ReleaseDirs?
    requires !IsZeroDowntimeEnabled(o.config) && o.config.action.NoAction?
    requires Releases.Listing(c.host.store, b.disk.listing) && Advance(o.job, o.config, c, b).status == Some(RolledBack)
    ensures Down(Advance(o.job, o.config, c, b).host.service) <==>
      || Down(o.host.service)
      || (&& IsServiceAffected(c.progress) && c.prevSha.Some? && CommandsOf(o.config.steps, "install") != []
          && !(CanRelink(c.host.store, o.job.id, b.disk) && (o.config.readyChecks ==> b.outcome(|c.host.log|).ok)))
  {
    ReachableTraced(o, c);
    ReachableInv(o, c);
    UndoneRolledBack(o, c, b);
    var affected := IsServiceAffected(c.progress);
    NoActionRollback(o.config, c.prevSha, o.job.id, affected, c.progress.serviceActionStarted, c.host, b.disk, b.outcome);
    RolledBackStops(o.config, c.prevSha, o.job.id, affected, c.progress.serviceActionStarted, c.host, b.disk, b.outcome);
    ReleasePathWaits(o.config, o.job.id, affected, c.host, b.disk, b.outcome);
  }
}
