/** The rollback of a failed run: there is at most one, and the row says whether it came to its end. */
module PipelineRollbacks {
  import opened Records
  import opened Rollback
  import opened RollbackEffects
  import opened Pipeline
  import opened PipelineSafety
  import opened PipelineRuns
  import opened PipelineTraces
  import Releases

  /** A rollback of a failed run: the state it began in, and what its calls met. */
  datatype Rolling = Rolling(begun: Cell, beat: Beat)

  function Rolls(c: Cell, m: Move): seq<Rolling>
  {
    if m.Own? && c.stage == Undoing(RollBackFailed) then [Rolling(c, m.beat)] else []
  }

  /** All rollbacks after a failure in a run, in order. */
  function Rollbacks(o: Origin, c: Cell, moves: seq<Move>): seq<Rolling>
    requires Feasible(o, c, moves)
    decreases |moves|
  {
    if moves == [] then [] else Rolls(c, moves[0]) + Rollbacks(o, Moved(o, c, moves[0]), moves[1..])
  }

  /** The call of the manager that a rollback stands for ended so: it returned, or threw, and left this log. */
  ghost predicate EndedAs(o: Origin, rolling: Rolling, log: seq<Call>, returned: bool)
  {
    var c, b := rolling.begun, rolling.beat;
    && Releases.Listing(c.host.store, b.disk.listing)
    && var (host, ok) := RolledBackHost(o.config, c.prevSha, o.job.id, IsServiceAffected(c.progress),
                                        c.progress.serviceActionStarted, c.host, b.disk, b.outcome);
       ok == returned && host.log == log
  }

  predicate TriedRollback(status: Option<Status>)
  {
    status == Some(RolledBack) || status == Some(RollbackFailed)
  }

  /** The row follows the rollbacks so far. */
  ghost predicate Recorded(o: Origin, c: Cell, rolled: seq<Rolling>)
  {
    && (Unsettled(c.stage) ==> rolled == [] && !TriedRollback(c.status))
    && (TriedRollback(c.status) ==>
          && |rolled| == 1 && rolled[0].begun.progress == c.progress && rolled[0].begun.prevSha == c.prevSha
          && EndedAs(o, rolled[0], c.host.log, c.status == Some(RolledBack)))
  }

  /** A move that makes no call and records no rollback. */
  ghost predicate RecordsNothing(c: Cell, c': Cell)
  {
    && (Unsettled(c'.stage) ==> Unsettled(c.stage))
    && (TriedRollback(c'.status) ==>
          c.status == c'.status && c'.progress == c.progress && c'.prevSha == c.prevSha && c'.host.log == c.host.log)
  }

  lemma NothingRecorded(o: Origin, c: Cell, c': Cell, rolled: seq<Rolling>)
    requires Recorded(o, c, rolled) && RecordsNothing(c, c')
    ensures Recorded(o, c', rolled)
  {
  }

  lemma DisturbedRecorded(o: Origin, c: Cell, e: Disturbance, rolled: seq<Rolling>)
    requires Recorded(o, c, rolled) && Possible(o.job, c, e)
    ensures Recorded(o, Disturbed(c, e), rolled)
  {
    DisturbedDisturbs(o, c, e);
    NothingRecorded(o, c, Disturbed(c, e), rolled);
  }

  lemma StepRecorded(o: Origin, c: Cell, b: Beat, rolled: seq<Rolling>)
    requires Recorded(o, c, rolled) && Inv(o, c) && (c.stage.In? || c.stage.At?)
    requires Releases.Listing(c.host.store, b.disk.listing)
    ensures Recorded(o, Advance(o.job, o.config, c, b), rolled)
  {
    if c.stage.In? {
      FinishFinishes(o, c, b);
      FinishesRecorded(o, c, Advance(o.job, o.config, c, b), rolled);
    } else {
      BeginBegins(o, c, b);
      BeginsRecorded(o, c, Advance(o.job, o.config, c, b), rolled);
    }
  }

  lemma BeginsRecorded(o: Origin, c: Cell, c': Cell, rolled: seq<Rolling>)
    requires Recorded(o, c, rolled) && c.stage.At? && Begins(o, c, c')
    ensures Recorded(o, c', rolled)
  {
  }

  lemma FinishesRecorded(o: Origin, c: Cell, c': Cell, rolled: seq<Rolling>)
    requires Recorded(o, c, rolled) && c.stage.In? && Finishes(o, c, c')
    ensures Recorded(o, c', rolled)
  {
  }

  lemma EarlyRecorded(o: Origin, c: Cell, b: Beat, rolled: seq<Rolling>)
    requires Recorded(o, c, rolled) && Inv(o, c) && Early(c.stage)
    requires Releases.Listing(c.host.store, b.disk.listing)
    ensures Recorded(o, Advance(o.job, o.config, c, b), rolled)
  {
    EarlyOpens(o, c, b);
    OpensRecorded(o, c, Advance(o.job, o.config, c, b), rolled);
  }

  lemma OpensRecorded(o: Origin, c: Cell, c': Cell, rolled: seq<Rolling>)
    requires Recorded(o, c, rolled) && Early(c.stage) && Opens(o, c, c')
    ensures Recorded(o, c', rolled)
  {
  }

  lemma CatchRecorded(o: Origin, c: Cell, b: Beat, rolled: seq<Rolling>)
    requires Recorded(o, c, rolled) && Inv(o, c) && c.stage.Throwing?
    requires Releases.Listing(c.host.store, b.disk.listing)
    ensures Recorded(o, Advance(o.job, o.config, c, b), rolled)
  {
    CatchCatches(o, c, b);
    CatchesRecorded(o, c, Advance(o.job, o.config, c, b), rolled);
  }

  lemma CatchesRecorded(o: Origin, c: Cell, c': Cell, rolled: seq<Rolling>)
    requires Recorded(o, c, rolled) && c.stage.Throwing? && Catches(o, c, c')
    ensures Recorded(o, c', rolled)
  {
  }

  lemma EndRecorded(o: Origin, c: Cell, b: Beat, rolled: seq<Rolling>)
    requires Recorded(o, c, rolled) && (c.stage.Notifying? || c.stage.Leaving? || c.stage.Returned?)
    requires Releases.Listing(c.host.store, b.disk.listing)
    ensures Recorded(o, Advance(o.job, o.config, c, b), rolled)
  {
    NothingRecorded(o, c, Advance(o.job, o.config, c, b), rolled);
  }

  lemma UndoRecorded(o: Origin, c: Cell, b: Beat, rolled: seq<Rolling>)
    requires Recorded(o, c, rolled) && c.stage.Undoing? && Releases.Listing(c.host.store, b.disk.listing)
    ensures Recorded(o, Advance(o.job, o.config, c, b), rolled + Rolls(c, Own(b)))
  {
    UndoneUndoes(o, c, b);
    assert c.stage.why == RestoreCancelled || c.stage.why == RollBackFailed;
    if c.stage == Undoing(RollBackFailed) {
      UndoneSays(o, c, b);
    }
    assert rolled + [] == rolled;
    UndoesRecorded(o, c, b, Advance(o.job, o.config, c, b), rolled);
  }

  /** The row says whether the rollback returned. */
  lemma UndoneSays(o: Origin, c: Cell, b: Beat)
    requires c.stage == Undoing(RollBackFailed) && Releases.Listing(c.host.store, b.disk.listing)
    ensures var c', result := Advance(o.job, o.config, c, b), UndoResult(o, c, b);
      c'.host == result.0 && (c'.status.Some? ==> c'.status == Some(if result.1 then RolledBack else RollbackFailed))
  {
  }

  lemma UndoesRecorded(o: Origin, c: Cell, b: Beat, c': Cell, rolled: seq<Rolling>)
    requires Recorded(o, c, rolled) && c.stage.Undoing? && Releases.Listing(c.host.store, b.disk.listing)
    requires Undoes(o, c, c')
    requires c.stage == Undoing(RollBackFailed) ==>
      var result := UndoResult(o, c, b);
      c'.host == result.0 && (c'.status.Some? ==> c'.status == Some(if result.1 then RolledBack else RollbackFailed))
    ensures Recorded(o, c', rolled + Rolls(c, Own(b)))
  {
    assert c.stage.why == RestoreCancelled || c.stage.why == RollBackFailed;
    assert [] + [Rolling(c, b)] == [Rolling(c, b)];
  }

  lemma MovedRecorded(o: Origin, c: Cell, m: Move, rolled: seq<Rolling>)
    requires Recorded(o, c, rolled) && Inv(o, c) && Enabled(o, c, m)
    ensures Recorded(o, Moved(o, c, m), rolled + Rolls(c, m))
  {
    assert rolled + [] == rolled;
    match m
    case Env(e) => DisturbedRecorded(o, c, e, rolled);
    case Own(b) =>
      if c.stage.In? || c.stage.At? {
        StepRecorded(o, c, b, rolled);
      } else if c.stage.Undoing? {
        UndoRecorded(o, c, b, rolled);
      } else if c.stage.Throwing? {
        CatchRecorded(o, c, b, rolled);
      } else if Early(c.stage) {
        EarlyRecorded(o, c, b, rolled);
      } else {
        EndRecorded(o, c, b, rolled);
      }
  }

  lemma MoveRecorded(o: Origin, c: Cell, m: Move, rolled: seq<Rolling>)
    requires Recorded(o, c, rolled) && Inv(o, c) && Enabled(o, c, m)
    ensures Recorded(o, Moved(o, c, m), rolled + Rolls(c, m)) && Inv(o, Moved(o, c, m))
  {
    MovedInv(o, c, m);
    MovedRecorded(o, c, m, rolled);
  }

  lemma RollbacksFrom(o: Origin, c: Cell, rolled: seq<Rolling>, moves: seq<Move>)
    requires moves != [] && Feasible(o, c, moves)
    ensures rolled + Rolls(c, moves[0]) + Rollbacks(o, Moved(o, c, moves[0]), moves[1..]) == rolled + Rollbacks(o, c, moves)
  {
    Associate(rolled, Rolls(c, moves[0]), Rollbacks(o, Moved(o, c, moves[0]), moves[1..]));
  }

  lemma Associate(a: seq<Rolling>, b: seq<Rolling>, c: seq<Rolling>)
    ensures a + b + c == a + (b + c)
  {
  }

  lemma {:induction false} RunRecorded(o: Origin, c: Cell, rolled: seq<Rolling>, moves: seq<Move>)
    requires Recorded(o, c, rolled) && Inv(o, c) && Feasible(o, c, moves)
    ensures Recorded(o, Ran(o, c, moves), rolled + Rollbacks(o, c, moves))
    decreases |moves|
  {
    if moves == [] {
      assert rolled + [] == rolled;
    } else {
      MoveRecorded(o, c, moves[0], rolled);
      RollbacksFrom(o, c, rolled, moves);
      RunRecorded(o, Moved(o, c, moves[0]), rolled + Rolls(c, moves[0]), moves[1..]);
    }
  }

  /** A run recorded as rolled back, or as not rolled back successfully, has made exactly one rollback and no call since.
      It is the first if the rollback returned normally, and the second if it threw. */
  lemma RolledBackOnce(o: Origin, start: Cell, moves: seq<Move>)
    requires Started(o, start) && Feasible(o, start, moves)
    requires Ran(o, start, moves).status == Some(RolledBack) || Ran(o, start, moves).status == Some(RollbackFailed)
    ensures |Rollbacks(o, start, moves)| == 1
    ensures var c, rolling := Ran(o, start, moves), Rollbacks(o, start, moves)[0];
      && rolling.begun.progress == c.progress && rolling.begun.prevSha == c.prevSha
      && EndedAs(o, rolling, c.host.log, c.status == Some(RolledBack))
  {
    StartedInv(o, start);
    RunRecorded(o, start, [], moves);
    assert [] + Rollbacks(o, start, moves) == Rollbacks(o, start, moves);
  }

  /** A run is recorded as rolled back with a successful readiness wait as its very last call exactly when it has readiness
      checks, affected the service and had something to restore: a previous commit, or a release it could be served from. */
  lemma RolledBackRunIsReady(o: Origin, start: Cell, moves: seq<Move>)
    requires Started(o, start) && Feasible(o, start, moves)
    requires Ran(o, start, moves).status == Some(RolledBack)
    ensures |Rollbacks(o, start, moves)| == 1
    ensures var c, rolling := Ran(o, start, moves), Rollbacks(o, start, moves)[0];
      && Releases.Listing(rolling.begun.host.store, rolling.beat.disk.listing)
      && (EndsReady(rolling.begun.host, c.host, rolling.beat.outcome) <==>
            && o.config.readyChecks && IsServiceAffected(c.progress)
            && (c.prevSha.Some?
                || ReleaseReady(o.config, o.job.id, rolling.begun.host, rolling.beat.disk, rolling.beat.outcome)))
  {
    RolledBackOnce(o, start, moves);
    EndsInReadiness(o, Rollbacks(o, start, moves)[0], Ran(o, start, moves).host);
  }

  lemma EndsInReadiness(o: Origin, rolling: Rolling, after: Host)
    requires EndedAs(o, rolling, after.log, true)
    ensures EndsReady(rolling.begun.host, after, rolling.beat.outcome) <==>
      && o.config.readyChecks && IsServiceAffected(rolling.begun.progress)
      && (rolling.begun.prevSha.Some?
          || ReleaseReady(o.config, o.job.id, rolling.begun.host, rolling.beat.disk, rolling.beat.outcome))
  {
    var c, b := rolling.begun, rolling.beat;
    ReadyAfterRollback(o.config, c.prevSha, o.job.id, IsServiceAffected(c.progress), c.progress.serviceActionStarted,
      c.host, b.disk, b.outcome);
  }

  /** A run whose row says that its rollback failed made, as its very last call, one that failed, and no stop. */
  lemma RollbackFailedOverLastCall(o: Origin, start: Cell, moves: seq<Move>)
    requires Started(o, start) && Feasible(o, start, moves)
    requires Ran(o, start, moves).status == Some(RollbackFailed)
    ensures |Rollbacks(o, start, moves)| == 1
    ensures var log, rolling := Ran(o, start, moves).host.log, Rollbacks(o, start, moves)[0];
      && rolling.begun.host.log < log
      && !rolling.beat.outcome(|log| - 1).ok && log[|log| - 1] != StopService
  {
    RolledBackOnce(o, start, moves);
    EndsInFailure(o, Rollbacks(o, start, moves)[0], Ran(o, start, moves).host.log);
  }

  lemma EndsInFailure(o: Origin, rolling: Rolling, log: seq<Call>)
    requires EndedAs(o, rolling, log, false)
    ensures rolling.begun.host.log < log
    ensures !rolling.beat.outcome(|log| - 1).ok && log[|log| - 1] != StopService
  {
    var c, b := rolling.begun, rolling.beat;
    var after := RolledBackHost(o.config, c.prevSha, o.job.id, IsServiceAffected(c.progress),
                                c.progress.serviceActionStarted, c.host, b.disk, b.outcome).0;
    assert after.log == log;
    ThrowsOverLastCall(o.config, c.prevSha, o.job.id, IsServiceAffected(c.progress), c.progress.serviceActionStarted,
      c.host, b.disk, b.outcome);
  }

  /** Before that wait the rollback has restarted the service, and the restart succeeded: from the newest other release if
      it can serve from there, and from the project path at the previous commit otherwise. */
  lemma RolledBackRunRestarts(o: Origin, start: Cell, moves: seq<Move>)
    requires Started(o, start) && Feasible(o, start, moves)
    requires Ran(o, start, moves).status == Some(RolledBack)
    requires o.config.readyChecks && IsServiceAffected(Ran(o, start, moves).progress)
    requires !o.config.action.NoAction? && !IsZeroDowntimeEnabled(o.config)
    ensures |Rollbacks(o, start, moves)| == 1
    ensures var c, rolling := Ran(o, start, moves), Rollbacks(o, start, moves)[0];
      && Releases.Listing(rolling.begun.host.store, rolling.beat.disk.listing)
      && (if ReleaseReady(o.config, o.job.id, rolling.begun.host, rolling.beat.disk, rolling.beat.outcome)
          then WaitFollows(rolling.begun.host, c.host, ServiceFromCurrent(RestartService), rolling.beat.outcome)
          else c.prevSha.Some? ==>
                 WaitFollows(rolling.begun.host, c.host, ServiceCall(RestartService), rolling.beat.outcome))
  {
    RolledBackOnce(o, start, moves);
    EndsInRestart(o, Rollbacks(o, start, moves)[0], Ran(o, start, moves).host);
  }

  lemma EndsInRestart(o: Origin, rolling: Rolling, after: Host)
    requires EndedAs(o, rolling, after.log, true)
    requires o.config.readyChecks && IsServiceAffected(rolling.begun.progress)
    requires !o.config.action.NoAction? && !IsZeroDowntimeEnabled(o.config)
    ensures if ReleaseReady(o.config, o.job.id, rolling.begun.host, rolling.beat.disk, rolling.beat.outcome)
      then WaitFollows(rolling.begun.host, after, ServiceFromCurrent(RestartService), rolling.beat.outcome)
      else rolling.begun.prevSha.Some? ==>
             WaitFollows(rolling.begun.host, after, ServiceCall(RestartService), rolling.beat.outcome)
  {
    var c, b := rolling.begun, rolling.beat;
    RestartBeforeReady(o.config, c.prevSha, o.job.id, c.progress.serviceActionStarted, c.host, b.disk, b.outcome);
  }

  // The directory of a failed release

  /** A run that gives up drops its own release directory on its way out, if it can be removed, unless `current` points to
      it; a run that succeeds keeps it. */
  lemma OrphanIsDropped(o: Origin, c: Cell, b: Beat)
    requires Releases.Listing(c.host.store, b.disk.listing) && o.config.strategy.ReleaseDirs?
    requires c.stage.Throwing? || c.stage.Undoing? || c.stage.Notifying?
    requires Advance(o.job, o.config, c, b).stage.Leaving?
    ensures var before, after := c.host.store, Advance(o.job, o.config, c, b).host.store;
      && (c.stage == Notifying(false) ==> after == before)
      && (c.stage != Notifying(false) && b.disk.removes && o.job.id in after.releases ==> after.current == Some(o.job.id))
      && (c.stage == Notifying(true) && o.job.id in before.releases && (before.current == Some(o.job.id) || !b.disk.removes) ==>
            after == before)
  {
  }

  // Which failed runs are rolled back

  /** The run holds the lock and has changed something, rollbacks are enabled, and there is something to go back to: another
      commit, another release, or the generation before its own. */
  predicate Restorable(config: Config, c: Cell)
  {
    var p := c.progress;
    && c.lockAcquired && config.rollbackEnabled
    && (p.workspaceMutated || p.serviceStopped || p.releaseActivated || p.serviceActionStarted)
    && (|| (c.prevSha.Some? && c.prevSha.value != c.targetSha)
        || config.strategy == ReleaseDirs
        || ((config.strategy == ZeroDowntime || config.zeroDowntimeFlag) && p.serviceActionStarted))
  }

  ghost predicate Judged(o: Origin, c: Cell)
  {
    && (c.status == Some(Failed) ==> !Restorable(o.config, c))
    && (c.status == Some(RollingBack) || c.status == Some(RolledBack) || c.status == Some(RollbackFailed) ==>
          Restorable(o.config, c))
  }

  lemma EnterJudged(o: Origin, c: Cell, b: Beat)
    requires Inv(o, c) && Early(c.stage) && Releases.Listing(c.host.store, b.disk.listing)
    ensures Judged(o, Advance(o.job, o.config, c, b))
  {
    EarlyOpens(o, c, b);
    OpensJudged(o, c, Advance(o.job, o.config, c, b));
  }

  lemma OpensJudged(o: Origin, c: Cell, c': Cell)
    requires Bookkept(c) && LockOwned(o, c) && Early(c.stage) && Opens(o, c, c')
    ensures Judged(o, c')
  {
  }

  lemma StepJudged(o: Origin, c: Cell, b: Beat)
    requires Inv(o, c) && (c.stage.In? || c.stage.At?) && Releases.Listing(c.host.store, b.disk.listing)
    ensures Judged(o, Advance(o.job, o.config, c, b))
  {
    if c.stage.In? {
      FinishFinishes(o, c, b);
    } else {
      BeginBegins(o, c, b);
      BeginsJudged(o, c, Advance(o.job, o.config, c, b));
    }
  }

  lemma BeginsJudged(o: Origin, c: Cell, c': Cell)
    requires Bookkept(c) && c.stage.At? && Begins(o, c, c')
    ensures Judged(o, c')
  {
  }

  /** The `catch` block rolls back a run that was not cancelled exactly when it can be. */
  lemma CatchJudges(o: Origin, c: Cell, b: Beat)
    requires c.stage.Throwing? && Bookkept(c) && Releases.Listing(c.host.store, b.disk.listing)
    ensures var c' := Advance(o.job, o.config, c, b);
      && Judged(o, c')
      && (c'.stage == Undoing(RollBackFailed) <==>
            c.status != Some(Cancelled) && !c.aborted && Restorable(o.config, c))
  {
  }

  lemma LateJudged(o: Origin, c: Cell, b: Beat)
    requires Judged(o, c) && Bookkept(c) && (c.stage.Undoing? || c.stage.Notifying? || c.stage.Leaving? || c.stage.Returned?)
    requires UndoReady(o, c) && Releases.Listing(c.host.store, b.disk.listing)
    ensures Judged(o, Advance(o.job, o.config, c, b))
  {
    if c.stage.Undoing? {
      assert c.stage.why == RestoreCancelled || c.stage.why == RollBackFailed;
      UndoneUndoes(o, c, b);
      UndoesJudged(o, c, Advance(o.job, o.config, c, b));
    }
  }

  lemma UndoesJudged(o: Origin, c: Cell, c': Cell)
    requires Judged(o, c) && Bookkept(c) && c.stage.Undoing? && UndoReady(o, c) && Undoes(o, c, c')
    ensures Judged(o, c')
  {
    assert c.stage.why == RestoreCancelled || c.stage.why == RollBackFailed;
  }

  lemma MovedJudged(o: Origin, c: Cell, m: Move)
    requires Judged(o, c) && Inv(o, c) && Enabled(o, c, m)
    ensures Judged(o, Moved(o, c, m))
  {
    match m
    case Env(e) => DisturbedJudged(o, c, e);
    case Own(b) =>
      if Early(c.stage) {
        EnterJudged(o, c, b);
      } else if c.stage.In? || c.stage.At? {
        StepJudged(o, c, b);
      } else if c.stage.Throwing? {
        CatchJudges(o, c, b);
      } else {
        LateJudged(o, c, b);
      }
  }

  lemma DisturbedJudged(o: Origin, c: Cell, e: Disturbance)
    requires Judged(o, c) && Possible(o.job, c, e)
    ensures Judged(o, Disturbed(c, e))
  {
  }

  lemma {:induction false} RunJudged(o: Origin, c: Cell, moves: seq<Move>)
    requires Judged(o, c) && Inv(o, c) && Feasible(o, c, moves)
    ensures Judged(o, Ran(o, c, moves))
    decreases |moves|
  {
    if moves != [] {
      MovedInv(o, c, moves[0]);
      MovedJudged(o, c, moves[0]);
      RunJudged(o, Moved(o, c, moves[0]), moves[1..]);
    }
  }

  /** Of the runs that are not cancelled, exactly those that can be restored are rolled back: whatever has failed without a
      rollback could not be, and whatever has been rolled back, with or without success, could. */
  lemma FailedRunsAreRolledBack(o: Origin, c: Cell)
    requires Reachable(o, c)
    ensures c.status == Some(Failed) ==> !Restorable(o.config, c)
    ensures c.status == Some(RollingBack) || c.status == Some(RolledBack) || c.status == Some(RollbackFailed) ==>
      Restorable(o.config, c)
  {
    var start, moves :| Started(o, start) && Feasible(o, start, moves) && c == Ran(o, start, moves);
    StartedInv(o, start);
    RunJudged(o, start, moves);
  }
}
