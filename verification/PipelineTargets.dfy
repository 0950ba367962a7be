/** Which commit a run deploys: the one its job names, unless the remote answers with another when it is asked. */
module PipelineTargets {
  import opened Records
  import opened Rollback
  import opened Pipeline
  import opened PipelineSafety
  import opened PipelineRuns
  import opened PipelineOutcome
  import Releases

  /** What a move learns from the remote: the answer that ends the await of the resolve step. */
  function Learns(c: Cell, m: Move): seq<Option<Sha>>
  {
    if m.Own? && c.stage == In(Resolve) then [m.beat.remoteHead] else []
  }

  /** All answers of the remote in a run, in order. */
  function Heads(o: Origin, c: Cell, moves: seq<Move>): seq<Option<Sha>>
    requires Feasible(o, c, moves)
    decreases |moves|
  {
    if moves == [] then [] else Learns(c, moves[0]) + Heads(o, Moved(o, c, moves[0]), moves[1..])
  }

  function Adopted(o: Origin, head: Option<Sha>): Sha
  {
    if head.Some? then head.value else o.job.targetSha
  }

  /** A step after the target has been resolved. */
  ghost predicate AfterResolve(stage: Stage)
  {
    (stage.At? || stage.In?) && !stage.step.Validate? && !stage.step.Fetch? && !stage.step.Resolve?
  }

  /** The target commit follows the answers so far. */
  ghost predicate Follows(o: Origin, c: Cell, heads: seq<Option<Sha>>)
  {
    !o.job.dryRun ==>
      && (Early(c.stage) || ((c.stage.At? || c.stage.In?) && !AfterResolve(c.stage)) ==>
            heads == [] && c.targetSha == o.job.targetSha)
      && (AfterResolve(c.stage) || c.stage == Notifying(false) || c.status == Some(Success) ==>
            |heads| == 1 && c.targetSha == Adopted(o, heads[0]))
  }

  lemma ResolveFollows(o: Origin, c: Cell, b: Beat)
    requires c.stage == In(Resolve) && !o.job.dryRun && c.targetSha == o.job.targetSha
    requires Releases.Listing(c.host.store, b.disk.listing)
    ensures var c' := Advance(o.job, o.config, c, b);
      c'.status == c.status && (c'.stage.Throwing? || (c'.stage == At(Prepare) && c'.targetSha == Adopted(o, b.remoteHead)))
  {
  }

  /** Whether a stage stays on its side of the resolve step. */
  ghost predicate KeepsSide(stage: Stage, stage': Stage)
  {
    stage'.At? || stage'.In? ==> (AfterResolve(stage') <==> AfterResolve(stage))
  }

  lemma SourceStepsInOrder(o: Origin, c: Cell, b: Beat)
    requires c.stage == In(Validate) || c.stage == In(Fetch)
    requires Releases.Listing(c.host.store, b.disk.listing)
    ensures KeepsSide(c.stage, Advance(o.job, o.config, c, b).stage)
  {
  }

  lemma WorkspaceStepsInOrder(o: Origin, c: Cell, b: Beat)
    requires c.stage == In(Prepare) || c.stage == In(RefreshConfig) || c.stage == In(StopBeforeBuild)
    requires Releases.Listing(c.host.store, b.disk.listing)
    ensures KeepsSide(c.stage, Advance(o.job, o.config, c, b).stage)
  {
  }

  lemma ServiceStepsInOrder(o: Origin, c: Cell, b: Beat)
    requires c.stage == In(ServiceAction) || c.stage == In(ReadyCheck)
    requires Releases.Listing(c.host.store, b.disk.listing)
    ensures KeepsSide(c.stage, Advance(o.job, o.config, c, b).stage)
  {
  }

  lemma OtherStepsInOrder(o: Origin, c: Cell, b: Beat)
    requires c.stage.In? && (c.stage.step.Activate? || c.stage.step.CleanupReleases? || c.stage.step.Complete?)
    requires Releases.Listing(c.host.store, b.disk.listing)
    ensures KeepsSide(c.stage, Advance(o.job, o.config, c, b).stage)
  {
  }

  lemma CommandsStayBehind(o: Origin, step: Step, stage: Stage)
    requires step.Command? || step.SyncBuilt? || step.InstallStop?
    requires CommandLeads(o, step, stage)
    ensures KeepsSide(In(step), stage)
  {
  }

  /** Steps come in order: what follows the resolve step never leads back before it. */
  lemma StepsInOrder(o: Origin, c: Cell, b: Beat)
    requires c.stage.In? && !c.stage.step.Resolve? && Releases.Listing(c.host.store, b.disk.listing)
    ensures KeepsSide(c.stage, Advance(o.job, o.config, c, b).stage)
  {
    var step := c.stage.step;
    if step.Command? || step.SyncBuilt? || step.InstallStop? {
      CommandStages(o, c, b);
      CommandsStayBehind(o, step, Advance(o.job, o.config, c, b).stage);
    } else if step.Validate? || step.Fetch? {
      SourceStepsInOrder(o, c, b);
    } else if step.Prepare? || step.RefreshConfig? || step.StopBeforeBuild? {
      WorkspaceStepsInOrder(o, c, b);
    } else if step.ServiceAction? || step.ReadyCheck? {
      ServiceStepsInOrder(o, c, b);
    } else {
      OtherStepsInOrder(o, c, b);
    }
  }

  lemma FinishFollows(o: Origin, c: Cell, heads: seq<Option<Sha>>, b: Beat)
    requires Follows(o, c, heads) && WellStaged(o, c) && c.status != Some(Success)
    requires c.stage.In? && Releases.Listing(c.host.store, b.disk.listing)
    ensures Follows(o, Advance(o.job, o.config, c, b), heads + Learns(c, Own(b)))
  {
    FinishFinishes(o, c, b);
    if !c.stage.step.Resolve? {
      StepsInOrder(o, c, b);
      assert heads + [] == heads;
    } else if !o.job.dryRun {
      ResolveFollows(o, c, b);
      assert [] + [b.remoteHead] == [b.remoteHead];
    }
  }

  /** Segments that learn nothing keep the target. */
  lemma QuietFollows(o: Origin, c: Cell, c': Cell, heads: seq<Option<Sha>>)
    requires Follows(o, c, heads) && c'.targetSha == c.targetSha
    requires Early(c'.stage) ==> Early(c.stage)
    requires c'.stage.At? || c'.stage.In? ==> Early(c.stage) || c.stage.At? || c'.stage == c.stage
    requires c'.stage.At? || c'.stage.In? ==>
      (AfterResolve(c'.stage) ==> AfterResolve(c.stage)) && (!AfterResolve(c'.stage) ==> !AfterResolve(c.stage))
    requires c'.stage == Notifying(false) || c'.status == Some(Success) ==>
      AfterResolve(c.stage) || c.stage == Notifying(false) || c.status == Some(Success)
    ensures Follows(o, c', heads)
  {
  }

  lemma BeginFollows(o: Origin, c: Cell, heads: seq<Option<Sha>>, b: Beat)
    requires Follows(o, c, heads) && Bookkept(c) && WellStaged(o, c)
    requires c.stage.At? && Releases.Listing(c.host.store, b.disk.listing)
    ensures Follows(o, Advance(o.job, o.config, c, b), heads)
  {
    BeginBegins(o, c, b);
    BeginsFollow(o, c, Advance(o.job, o.config, c, b), heads);
  }

  lemma BeginsFollow(o: Origin, c: Cell, c': Cell, heads: seq<Option<Sha>>)
    requires Follows(o, c, heads) && Bookkept(c) && WellStaged(o, c) && c.stage.At? && Begins(o, c, c')
    ensures Follows(o, c', heads)
  {
    QuietFollows(o, c, c', heads);
  }

  lemma OtherFollows(o: Origin, c: Cell, heads: seq<Option<Sha>>, b: Beat)
    requires Follows(o, c, heads) && Inv(o, c) && !c.stage.At? && !c.stage.In?
    requires Releases.Listing(c.host.store, b.disk.listing)
    ensures Follows(o, Advance(o.job, o.config, c, b), heads)
  {
    var c' := Advance(o.job, o.config, c, b);
    NotYetSuccessOr(o, c);
    if Early(c.stage) {
      EarlyOpens(o, c, b);
    } else if c.stage.Throwing? {
      CatchCatches(o, c, b);
    } else if c.stage.Undoing? {
      UndoneUndoes(o, c, b);
    } else {
      EndKeepsTarget(o, c, b);
    }
    QuietFollows(o, c, c', heads);
  }

  lemma EndKeepsTarget(o: Origin, c: Cell, b: Beat)
    requires c.stage.Notifying? || c.stage.Leaving? || c.stage.Returned?
    requires Releases.Listing(c.host.store, b.disk.listing)
    ensures var c' := Advance(o.job, o.config, c, b);
      c'.targetSha == c.targetSha && c'.status == c.status && (c'.stage.Leaving? || c'.stage.Returned?)
  {
  }

  lemma NotYetSuccessOr(o: Origin, c: Cell)
    requires Inv(o, c)
    ensures c.status == Some(Success) ==> c.stage.Notifying? || c.stage.Leaving? || c.stage.Returned?
  {
    if BeforeCatch(c.stage) || c.stage.Entering? || c.stage.Undoing? {
      NotYetSuccess(o, c);
    }
  }

  lemma MovedFollows(o: Origin, c: Cell, heads: seq<Option<Sha>>, m: Move)
    requires Follows(o, c, heads) && Inv(o, c) && Enabled(o, c, m)
    ensures Follows(o, Moved(o, c, m), heads + Learns(c, m))
  {
    assert heads + [] == heads;
    match m
    case Env(e) => DisturbedDisturbs(o, c, e);
    case Own(b) =>
      if c.stage.In? {
        NotYetSuccess(o, c);
        FinishFollows(o, c, heads, b);
      } else if c.stage.At? {
        BeginFollows(o, c, heads, b);
      } else {
        OtherFollows(o, c, heads, b);
      }
  }

  lemma MoveFollows(o: Origin, c: Cell, heads: seq<Option<Sha>>, m: Move)
    requires Follows(o, c, heads) && Inv(o, c) && Enabled(o, c, m)
    ensures Follows(o, Moved(o, c, m), heads + Learns(c, m)) && Inv(o, Moved(o, c, m))
  {
    MovedInv(o, c, m);
    MovedFollows(o, c, heads, m);
  }

  lemma HeadsFrom(o: Origin, c: Cell, heads: seq<Option<Sha>>, moves: seq<Move>)
    requires moves != [] && Feasible(o, c, moves)
    ensures heads + Learns(c, moves[0]) + Heads(o, Moved(o, c, moves[0]), moves[1..]) == heads + Heads(o, c, moves)
  {
    Associate(heads, Learns(c, moves[0]), Heads(o, Moved(o, c, moves[0]), moves[1..]));
  }

  lemma Associate(a: seq<Option<Sha>>, b: seq<Option<Sha>>, c: seq<Option<Sha>>)
    ensures a + b + c == a + (b + c)
  {
  }

  lemma {:induction false} RunFollows(o: Origin, c: Cell, heads: seq<Option<Sha>>, moves: seq<Move>)
    requires Follows(o, c, heads) && Inv(o, c) && Feasible(o, c, moves)
    ensures Follows(o, Ran(o, c, moves), heads + Heads(o, c, moves))
    decreases |moves|
  {
    if moves == [] {
      assert heads + [] == heads;
    } else {
      MoveFollows(o, c, heads, moves[0]);
      HeadsFrom(o, c, heads, moves);
      RunFollows(o, Moved(o, c, moves[0]), heads + Learns(c, moves[0]), moves[1..]);
    }
  }

  /** A real run that succeeds has asked the remote exactly once. If the remote named a commit, that is what was built and
      recorded, whatever the job said; and only if it named none, the job's own commit was. */
  lemma SuccessDeploysRemoteHead(o: Origin, start: Cell, moves: seq<Move>)
    requires Started(o, start) && Feasible(o, start, moves) && !o.job.dryRun
    requires Ran(o, start, moves).status == Some(Success)
    ensures |Heads(o, start, moves)| == 1
    ensures var c, head := Ran(o, start, moves), Heads(o, start, moves)[0];
      var commit := if head.Some? then head.value else o.job.targetSha;
      c.lastSuccessful == Some(commit) && TreeOf(c.host, WorkingDir(o.config)).sha == Some(commit)
  {
    StartedInv(o, start);
    RunFollows(o, start, [], moves);
    assert [] + Heads(o, start, moves) == Heads(o, start, moves);
    assert Reachable(o, Ran(o, start, moves));
    SuccessServesTarget(o, Ran(o, start, moves));
  }
}
