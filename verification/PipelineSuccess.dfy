/** When a deployment succeeds: nobody disturbs it, and whatever it asks for is granted. */
module PipelineSuccess {
  import opened Records
  import opened Rollback
  import opened Pipeline
  import opened PipelineSafety
  import opened PipelineRuns
  import opened PipelineTraces
  import opened PipelineScript
  import PipelineTargets
  import Releases

  /** Everything a move asks for is granted, and somebody names a commit. */
  predicate Grants(o: Origin, b: Beat)
  {
    b.ok && b.links && b.projectKnown && (b.remoteHead.Some? || o.job.targetSha != "")
  }

  /** On its way, without a sign of trouble. */
  ghost predicate Smooth(o: Origin, c: Cell)
  {
    && !c.aborted
    && match c.stage
       case Entering => c.status == Some(Queued) && c.lock.None?
       case Preflight => c.status == Some(Running)
       case At(_) => c.status == Some(Running)
       case In(_) => c.status == Some(Running)
       case Notifying(failed) => !failed && c.status == Some(Success)
       case Leaving => c.status == Some(Success)
       case Returned => c.status == Some(Success)
       case _ => false
  }

  lemma EntersSmoothly(o: Origin, c: Cell, b: Beat)
    requires Smooth(o, c) && (c.stage.Entering? || c.stage.Preflight?) && Grants(o, b)
    requires Releases.Listing(c.host.store, b.disk.listing)
    ensures Smooth(o, Advance(o.job, o.config, c, b))
  {
  }

  // The wait for the lock

  /** One round of polling: after three seconds the run gives up. Until then it goes on exactly when the lock is free, its
      own, five minutes old, or held by a deployment that has finished, and then holds it; otherwise it polls again. */
  lemma LockPolling(o: Origin, c: Cell, b: Beat)
    requires c.stage.AcquiringLock? && Releases.Listing(c.host.store, b.disk.listing)
    ensures var c' := Advance(o.job, o.config, c, b);
      var free := c.lock.Some? ==>
        || c.lock.value.lockedBy == o.job.id
        || b.now - c.lock.value.lockedAt > 5 * 60 * 1000
        || (c.lock.value.lockedBy in b.rows && Terminal(b.rows[c.lock.value.lockedBy].status));
      if b.now - c.stage.since > 3000 then c' == c.(stage := Throwing)
      else if free then c'.stage == Preflight && c'.lockAcquired && HoldsLock(c', o.job.id)
      else c' == c
  {
  }

  // When a step throws

  /** Steps that look at the abort signal before they begin. */
  predicate ChecksSignal(step: Step)
  {
    step.Command? || step.Activate? || step.ServiceAction? || step.ReadyCheck? || step.Complete?
  }

  /** A step does not begin, and the run goes to its `catch` block, exactly when its row is cancelled, or its signal has
      fired and the step looks at it, or the release cannot be linked or pruned; only the early stop looks at neither the
      row nor the signal. */
  lemma StepIsRefused(o: Origin, c: Cell, b: Beat)
    requires c.stage.At? && WellStaged(o, c) && Releases.Listing(c.host.store, b.disk.listing)
    ensures var step := c.stage.step;
      Advance(o.job, o.config, c, b).stage.Throwing? <==>
        && !step.StopBeforeBuild?
        && (|| c.status == Some(Cancelled)
            || (c.aborted && ChecksSignal(step))
            || (step.Activate? && !o.job.dryRun && !b.links)
            || (step.CleanupReleases? && !c.aborted && !o.job.dryRun && !b.ok))
  {
  }

  /** What the last step of a release run does to the other releases: unless it is aborted or dry, it keeps the newest, at
      least one, and the active one, and whatever cannot be removed. */
  lemma CleanupKeepsNewest(o: Origin, c: Cell, b: Beat)
    requires c.stage == At(CleanupReleases) && c.status != Some(Cancelled) && Releases.Listing(c.host.store, b.disk.listing)
    ensures var c' := Advance(o.job, o.config, c, b);
      var before, after := c.host.store, c'.host.store;
      var sorted := Releases.SortNewestFirst(before.releases, b.disk.listing);
      var keep := if o.config.releasesToKeep == 0 then 1 else o.config.releasesToKeep;
      if c.aborted || o.job.dryRun then c' == c.(stage := At(Complete))
      else if !b.ok then c' == c.(stage := Throwing)
      else
        && c' == c.(stage := At(Complete), host := c.host.(store := after)) && after.current == before.current
        && forall id :: id in after.releases <==>
             id in before.releases
             && (id in sorted[..Releases.Least(keep, |sorted|)] || before.current == Some(id) || id !in b.removable)
  {
    Releases.PrunedExactly(c.host.store, b.disk.listing,
      if o.config.releasesToKeep > 1 then o.config.releasesToKeep else 1, b.removable);
  }

  /** When the await inside a step of a real run ends in a throw: the step waited for something that has to succeed and
      failed; nobody names a commit; or the signal has fired during a command, or during the stop before one. */
  predicate Breaks(o: Origin, c: Cell, b: Beat)
    requires c.stage.In?
  {
    || (MustSucceed(o.config, c.stage) && !b.ok)
    || (c.stage.step.Resolve? && b.remoteHead.None? && c.targetSha == "")
    || ((c.stage.step.Command? || c.stage.step.InstallStop?) && c.aborted)
  }

  lemma SourceBreaks(o: Origin, c: Cell, b: Beat)
    requires c.stage == In(Validate) || c.stage == In(Fetch) || c.stage == In(Resolve)
    requires !o.job.dryRun && Releases.Listing(c.host.store, b.disk.listing)
    ensures Advance(o.job, o.config, c, b).stage.Throwing? <==> Breaks(o, c, b)
  {
  }

  lemma WorkspaceBreaks(o: Origin, c: Cell, b: Beat)
    requires c.stage == In(Prepare) || c.stage == In(RefreshConfig) || c.stage == In(StopBeforeBuild)
    requires !o.job.dryRun && Releases.Listing(c.host.store, b.disk.listing)
    ensures Advance(o.job, o.config, c, b).stage.Throwing? <==> Breaks(o, c, b)
  {
  }

  lemma CommandBreaks(o: Origin, c: Cell, b: Beat)
    requires c.stage.In? && (c.stage.step.Command? || c.stage.step.SyncBuilt? || c.stage.step.InstallStop?)
    requires !o.job.dryRun && InRange(o.config, c.stage) && Releases.Listing(c.host.store, b.disk.listing)
    ensures Advance(o.job, o.config, c, b).stage.Throwing? <==> Breaks(o, c, b)
  {
  }

  lemma ServiceBreaks(o: Origin, c: Cell, b: Beat)
    requires c.stage == In(ServiceAction) || c.stage == In(ReadyCheck)
    requires !o.job.dryRun && Releases.Listing(c.host.store, b.disk.listing)
    ensures Advance(o.job, o.config, c, b).stage.Throwing? <==> Breaks(o, c, b)
  {
  }

  lemma StepBreaksExactly(o: Origin, c: Cell, b: Beat)
    requires c.stage.In? && WellStaged(o, c) && OnScript(o, c) && !o.job.dryRun
    requires Releases.Listing(c.host.store, b.disk.listing)
    ensures Advance(o.job, o.config, c, b).stage.Throwing? <==> Breaks(o, c, b)
  {
    var step := c.stage.step;
    if step.Validate? || step.Fetch? || step.Resolve? {
      SourceBreaks(o, c, b);
    } else if step.Prepare? || step.RefreshConfig? || step.StopBeforeBuild? {
      WorkspaceBreaks(o, c, b);
    } else if step.ServiceAction? || step.ReadyCheck? {
      ServiceBreaks(o, c, b);
    } else {
      CommandBreaks(o, c, b);
    }
  }

  // Moves

  lemma BeginGoesOn(o: Origin, c: Cell, b: Beat)
    requires c.stage.At? && WellStaged(o, c) && Grants(o, b) && !c.aborted && c.status == Some(Running)
    requires Releases.Listing(c.host.store, b.disk.listing)
    ensures !Advance(o.job, o.config, c, b).stage.Throwing?
  {
  }

  lemma FinishesSmoothly(o: Origin, c: Cell, c': Cell)
    requires Smooth(o, c) && c.stage.In? && Finishes(o, c, c') && !c'.stage.Throwing?
    ensures Smooth(o, c')
  {
  }

  lemma BeginsSmoothly(o: Origin, c: Cell, c': Cell)
    requires Smooth(o, c) && Bookkept(c) && c.stage.At? && Begins(o, c, c') && !c'.stage.Throwing?
    ensures Smooth(o, c')
  {
  }

  lemma EndsSmoothly(o: Origin, c: Cell, b: Beat)
    requires Smooth(o, c) && (c.stage.Notifying? || c.stage.Leaving? || c.stage.Returned?)
    requires Releases.Listing(c.host.store, b.disk.listing)
    ensures Smooth(o, Advance(o.job, o.config, c, b))
  {
  }

  /** What an undisturbed run knows about itself. */
  ghost predicate Known(o: Origin, c: Cell, heads: seq<Option<Sha>>)
  {
    Inv(o, c) && OnScript(o, c) && PipelineTargets.Follows(o, c, heads)
  }

  lemma MovesSmoothly(o: Origin, c: Cell, heads: seq<Option<Sha>>, b: Beat)
    requires Known(o, c, heads) && Smooth(o, c) && !o.job.dryRun && Grants(o, b)
    requires Releases.Listing(c.host.store, b.disk.listing)
    ensures Smooth(o, Advance(o.job, o.config, c, b))
  {
    var c' := Advance(o.job, o.config, c, b);
    if c.stage.In? {
      StepBreaksExactly(o, c, b);
      FinishFinishes(o, c, b);
      FinishesSmoothly(o, c, c');
    } else if c.stage.At? {
      BeginGoesOn(o, c, b);
      BeginBegins(o, c, b);
      BeginsSmoothly(o, c, c');
    } else if c.stage.Entering? || c.stage.Preflight? {
      EntersSmoothly(o, c, b);
    } else {
      EndsSmoothly(o, c, b);
    }
  }

  lemma Nearer(o: Origin, c: Cell, heads: seq<Option<Sha>>, b: Beat)
    requires Known(o, c, heads) && Smooth(o, c) && Releases.Listing(c.host.store, b.disk.listing)
    ensures var c' := Advance(o.job, o.config, c, b);
      if c.stage.Returned? then c' == c else Rank(o.config, c'.stage) < Rank(o.config, c.stage)
  {
    if !c.stage.Returned? {
      MoveProgresses(o, c, b);
    }
  }

  lemma MoveKnown(o: Origin, c: Cell, heads: seq<Option<Sha>>, m: Move)
    requires Known(o, c, heads) && Enabled(o, c, m)
    ensures Known(o, Moved(o, c, m), heads + PipelineTargets.Learns(c, m))
  {
    NextOnScript(o, c, m);
    PipelineTargets.MoveFollows(o, c, heads, m);
  }

  /** Only the run itself moves, and every move is granted what it asks for. */
  predicate Undisturbed(o: Origin, moves: seq<Move>)
  {
    forall i :: 0 <= i < |moves| ==> moves[i].Own? && Grants(o, moves[i].beat)
  }

  lemma {:induction false} RunsSmoothly(o: Origin, c: Cell, heads: seq<Option<Sha>>, moves: seq<Move>)
    requires Known(o, c, heads) && Smooth(o, c) && !o.job.dryRun && Feasible(o, c, moves) && Undisturbed(o, moves)
    ensures Smooth(o, Ran(o, c, moves))
    ensures Ran(o, c, moves).stage.Returned? || Rank(o.config, Ran(o, c, moves).stage) + |moves| <= Rank(o.config, c.stage)
    decreases |moves|
  {
    if moves != [] {
      assert moves[0].Own? && Grants(o, moves[0].beat);
      MovesSmoothly(o, c, heads, moves[0].beat);
      Nearer(o, c, heads, moves[0].beat);
      MoveKnown(o, c, heads, moves[0]);
      RunsSmoothly(o, Moved(o, c, moves[0]), heads + PipelineTargets.Learns(c, moves[0]), moves[1..]);
    }
  }

  lemma StartedKnown(o: Origin, c: Cell)
    requires Started(o, c)
    ensures Known(o, c, [])
  {
    StartedInv(o, c);
    StartedScripted(o, c);
  }

  /** A queued deployment that finds the lock free, that nobody disturbs and whose every call and check is granted never
      throws, and within a bounded number of moves it has returned and is recorded as a success. */
  lemma GrantedRunSucceeds(o: Origin, start: Cell, moves: seq<Move>)
    requires Started(o, start) && start.status == Some(Queued) && start.lock.None? && !o.job.dryRun
    requires Feasible(o, start, moves) && Undisturbed(o, moves)
    ensures Unbroken(Ran(o, start, moves))
    ensures |moves| > Rank(o.config, start.stage) ==> Ran(o, start, moves).stage.Returned?
    ensures Ran(o, start, moves).stage.Returned? ==> Ran(o, start, moves).status == Some(Success)
  {
    StartedKnown(o, start);
    RunsSmoothly(o, start, [], moves);
  }

  lemma {:induction false} HeadsAreAnswers(o: Origin, c: Cell, moves: seq<Move>, head: Option<Sha>)
    requires Feasible(o, c, moves) && forall i :: 0 <= i < |moves| && moves[i].Own? ==> moves[i].beat.remoteHead == head
    ensures forall h :: h in PipelineTargets.Heads(o, c, moves) ==> h == head
    decreases |moves|
  {
    if moves != [] {
      HeadsAreAnswers(o, Moved(o, c, moves[0]), moves[1..], head);
    }
  }

  /** In particular, what the remote names is deployed, whatever commit the job was queued for. */
  lemma RemoteHeadIsDeployed(o: Origin, start: Cell, moves: seq<Move>, head: Sha)
    requires Started(o, start) && start.status == Some(Queued) && start.lock.None? && !o.job.dryRun
    requires Feasible(o, start, moves) && Undisturbed(o, moves) && |moves| > Rank(o.config, start.stage)
    requires forall i :: 0 <= i < |moves| ==> moves[i].beat.remoteHead == Some(head)
    ensures var c := Ran(o, start, moves);
      && c.stage.Returned? && c.status == Some(Success) && c.lastSuccessful == Some(head)
      && TreeOf(c.host, WorkingDir(o.config)).sha == Some(head)
  {
    GrantedRunSucceeds(o, start, moves);
    PipelineTargets.SuccessDeploysRemoteHead(o, start, moves);
    HeadsAreAnswers(o, start, moves, Some(head));
    assert PipelineTargets.Heads(o, start, moves)[0] in PipelineTargets.Heads(o, start, moves);
  }
}
