/** The calls of a deployment, in order: what its configuration asks for, written down once for the whole run, and what a
    run really makes of it. */
module PipelineScript {
  import opened Records
  import opened Rollback
  import opened Pipeline
  import opened PipelineSafety
  import opened PipelineRuns
  import opened PipelineTraces
  import opened PipelineOutcome
  import Releases

  // The script

  /** Deployments that run next to the old process stop it where its files get in the way. */
  predicate RunsInPlaceOf(config: Config)
  {
    !config.strategy.ReleaseDirs? && config.strategy != ZeroDowntime && !config.zeroDowntimeFlag
  }

  function EarlyStop(config: Config): seq<Call>
  {
    if config.stopBeforeBuild && RunsInPlaceOf(config) then [StopService] else []
  }

  function InstallStopOf(config: Config, step: CommandStep): seq<Call>
  {
    if step.name == "install" && RunsInPlaceOf(config) then [StopService] else []
  }

  function SyncOf(config: Config, step: CommandStep): seq<Call>
  {
    if step.name == "build" && config.strategy.Isolated? then [SyncWorkToLive] else []
  }

  function ServiceScript(config: Config): seq<Call>
  {
    if config.strategy == ZeroDowntime || config.zeroDowntimeFlag then [DeployGeneration]
    else match config.action
      case NoAction => []
      case _ => if config.strategy.ReleaseDirs? then [ServiceFromCurrent(config.action)] else [ServiceCall(config.action)]
  }

  function ReadyScript(config: Config): seq<Call>
  {
    if config.readyChecks then [WaitReady] else []
  }

  /** Everything from the command step `index` on; a step without commands is left out. */
  function CallsFrom(config: Config, index: nat): seq<Call>
    decreases |config.steps| - index
  {
    if index >= |config.steps| then ServiceScript(config) + ReadyScript(config)
    else if config.steps[index].commands == [] then CallsFrom(config, index + 1)
    else
      InstallStopOf(config, config.steps[index])
      + (ExecAll(WorkingDir(config), config.steps[index].commands)
      + (SyncOf(config, config.steps[index]) + CallsFrom(config, index + 1)))
  }

  /** Everything a real deployment of a commit calls: reset the tree, stop the service if that is asked for, run the
      command steps, bring the service up, wait until it is ready. */
  function Script(config: Config, sha: Sha): seq<Call>
  {
    [ResetHard(WorkingDir(config), sha)] + (EarlyStop(config) + CallsFrom(config, 0))
  }

  // What is left of it

  /** What is left before a command of a step. */
  function CommandsFrom(config: Config, index: nat, position: nat): seq<Call>
    requires index < |config.steps| && position <= |config.steps[index].commands|
  {
    ExecAll(WorkingDir(config), config.steps[index].commands[position..])
    + (SyncOf(config, config.steps[index]) + CallsFrom(config, index + 1))
  }

  ghost predicate BeforeReset(stage: Stage)
  {
    Early(stage)
    || ((stage.At? || stage.In?) && (stage.step.Validate? || stage.step.Fetch? || stage.step.Resolve? || stage.step.Prepare?))
  }

  /** A step that the configuration has, entered at its first command. */
  predicate InRange(config: Config, stage: Stage)
  {
    match stage
    case At(Command(index, position)) => position == 0 && index < |config.steps| && config.steps[index].commands != []
    case In(InstallStop(index)) => index < |config.steps| && config.steps[index].commands != []
    case In(Command(index, position)) => index < |config.steps| && position < |config.steps[index].commands|
    case _ => true
  }

  /** What is left of the script once the tree has been reset. */
  function Left(config: Config, stage: Stage): seq<Call>
    requires InRange(config, stage) && (stage.At? || stage.In?)
  {
    match stage.step
    case RefreshConfig => EarlyStop(config) + CallsFrom(config, 0)
    case StopBeforeBuild => [StopService] + CallsFrom(config, 0)
    case InstallStop(index) => if stage.At? then [] else [StopService] + CommandsFrom(config, index, 0)
    case Command(index, position) => if stage.At? then CallsFrom(config, index) else CommandsFrom(config, index, position)
    case SyncBuilt(index) => [SyncWorkToLive] + CallsFrom(config, index + 1)
    case Activate => ServiceScript(config) + ReadyScript(config)
    case ServiceAction => ServiceScript(config) + ReadyScript(config)
    case ReadyCheck => ReadyScript(config)
    case _ => []
  }

  /** The calls of a run so far, and what is left, are the script. */
  ghost predicate Scripted(config: Config, sha: Sha, calls: seq<Call>, stage: Stage, status: Option<Status>)
  {
    && InRange(config, stage)
    && (BeforeReset(stage) ==> calls == [])
    && ((stage.At? || stage.In?) && !BeforeReset(stage) ==> calls + Left(config, stage) == Script(config, sha))
    && (stage.Throwing? || stage.Undoing? || status == Some(Failed) ==> calls <= Script(config, sha))
    && (stage == Notifying(false) || status == Some(Success) ==> calls == Script(config, sha))
  }

  ghost predicate OnScript(o: Origin, c: Cell)
  {
    && o.host.log <= c.host.log
    && (!o.job.dryRun ==> Scripted(o.config, c.targetSha, OwnCalls(o, c), c.stage, c.status))
  }

  lemma {:induction false} NextStepLeft(config: Config, index: nat)
    ensures InRange(config, At(CommandFrom(config, index)))
    ensures Left(config, At(CommandFrom(config, index))) == CallsFrom(config, index)
    ensures !BeforeReset(At(CommandFrom(config, index)))
    decreases |config.steps| - index
  {
    if index < |config.steps| && config.steps[index].commands == [] {
      NextStepLeft(config, index + 1);
    }
  }

  // The end of an await

  /** What follows a command that succeeds. */
  function AfterCommand(config: Config, index: nat, position: nat): Stage
    requires index < |config.steps|
  {
    if position + 1 < |config.steps[index].commands| then In(Command(index, position + 1))
    else if config.steps[index].name == "build" && config.strategy.Isolated? then In(SyncBuilt(index))
    else At(CommandFrom(config, index + 1))
  }

  /** What the end of an await inside a step calls, and where it leads when it does not throw. */
  ghost predicate Makes(o: Origin, c: Cell, c': Cell)
    requires c.stage.In?
  {
    var config, steps := o.config, o.config.steps;
    match c.stage.step
    case Validate => c'.host.log == c.host.log && (c'.stage.Throwing? || c'.stage == At(Fetch))
    case Fetch => c'.host.log == c.host.log && (c'.stage.Throwing? || c'.stage == At(Resolve))
    case Resolve => c'.host.log == c.host.log && (c'.stage.Throwing? || c'.stage == At(Prepare))
    case Prepare =>
      && c'.host.log == c.host.log + [ResetHard(WorkingDir(config), c.targetSha)]
      && (c'.stage.Throwing? || c'.stage == At(RefreshConfig))
    case RefreshConfig =>
      && c'.host.log == c.host.log
      && (c'.stage.Throwing? || c'.stage == At(if EarlyStop(config) == [] then CommandFrom(config, 0) else StopBeforeBuild))
    case StopBeforeBuild => c'.host.log == c.host.log + [StopService] && c'.stage == At(CommandFrom(config, 0))
    case InstallStop(index) =>
      c'.host.log == c.host.log + [StopService] && (c'.stage.Throwing? || c'.stage == In(Command(index, 0)))
    case Command(index, position) =>
      if index >= |steps| || position >= |steps[index].commands| then true
      else
        && c'.host.log == c.host.log + [Exec(WorkingDir(config), steps[index].commands[position])]
        && (c'.stage.Throwing? || c'.stage == AfterCommand(config, index, position))
    case SyncBuilt(index) =>
      c'.host.log == c.host.log + [SyncWorkToLive] && (c'.stage.Throwing? || c'.stage == At(CommandFrom(config, index + 1)))
    case ServiceAction =>
      c'.host.log == c.host.log + ServiceScript(config) && (c'.stage.Throwing? || c'.stage == At(ReadyCheck))
    case ReadyCheck =>
      && c'.host.log == c.host.log + ReadyScript(config)
      && (c'.stage.Throwing? || c'.stage == At(CleanupReleases) || c'.stage == At(Complete))
    case _ => true
  }

  lemma SourceMakes(o: Origin, c: Cell, b: Beat)
    requires c.stage == In(Validate) || c.stage == In(Fetch) || c.stage == In(Resolve)
    requires Releases.Listing(c.host.store, b.disk.listing)
    ensures Makes(o, c, Advance(o.job, o.config, c, b))
  {
  }

  lemma WorkspaceMakes(o: Origin, c: Cell, b: Beat)
    requires c.stage == In(Prepare) || c.stage == In(RefreshConfig) || c.stage == In(StopBeforeBuild)
    requires !o.job.dryRun && Releases.Listing(c.host.store, b.disk.listing)
    ensures Makes(o, c, Advance(o.job, o.config, c, b))
  {
  }

  lemma StopMakes(o: Origin, c: Cell, b: Beat)
    requires c.stage.In? && (c.stage.step.InstallStop? || c.stage.step.SyncBuilt?)
    requires !o.job.dryRun && Releases.Listing(c.host.store, b.disk.listing)
    ensures Makes(o, c, Advance(o.job, o.config, c, b))
  {
  }

  lemma CommandFails(o: Origin, c: Cell, b: Beat)
    requires c.stage.In? && c.stage.step.Command? && (c.aborted || !b.ok)
    requires !o.job.dryRun && Releases.Listing(c.host.store, b.disk.listing)
    ensures Makes(o, c, Advance(o.job, o.config, c, b))
  {
  }

  lemma CommandRuns(o: Origin, c: Cell, b: Beat)
    requires c.stage.In? && c.stage.step.Command? && !c.aborted && b.ok
    requires !o.job.dryRun && Releases.Listing(c.host.store, b.disk.listing)
    ensures Makes(o, c, Advance(o.job, o.config, c, b))
  {
  }

  lemma ServiceMakes(o: Origin, c: Cell, b: Beat)
    requires c.stage == In(ServiceAction)
    requires !o.job.dryRun && Releases.Listing(c.host.store, b.disk.listing)
    ensures Makes(o, c, Advance(o.job, o.config, c, b))
  {
  }

  lemma ReadyMakes(o: Origin, c: Cell, b: Beat)
    requires c.stage == In(ReadyCheck)
    requires !o.job.dryRun && Releases.Listing(c.host.store, b.disk.listing)
    ensures Makes(o, c, Advance(o.job, o.config, c, b))
  {
  }

  lemma StepMakes(o: Origin, c: Cell, b: Beat)
    requires c.stage.In? && !o.job.dryRun && Releases.Listing(c.host.store, b.disk.listing)
    ensures Makes(o, c, Advance(o.job, o.config, c, b))
  {
    var step := c.stage.step;
    if step.Validate? || step.Fetch? || step.Resolve? {
      SourceMakes(o, c, b);
    } else if step.Prepare? || step.RefreshConfig? || step.StopBeforeBuild? {
      WorkspaceMakes(o, c, b);
    } else if step.InstallStop? || step.SyncBuilt? {
      StopMakes(o, c, b);
    } else if step.Command? {
      if c.aborted || !b.ok {
        CommandFails(o, c, b);
      } else {
        CommandRuns(o, c, b);
      }
    } else if step.ServiceAction? {
      ServiceMakes(o, c, b);
    } else if step.ReadyCheck? {
      ReadyMakes(o, c, b);
    }
  }

  // A step stays on the script

  /** What the await inside a step makes, and what is left after it. */
  ghost predicate MakesLeft(config: Config, stage: Stage, made: seq<Call>, next: Stage)
  {
    && (stage.At? || stage.In?) && (next.At? || next.In?) && InRange(config, stage) && InRange(config, next)
    && !BeforeReset(stage) && !BeforeReset(next)
    && Left(config, stage) == made + Left(config, next)
  }

  lemma RefreshLeft(config: Config)
    ensures MakesLeft(config, In(RefreshConfig), [],
      At(if EarlyStop(config) == [] then CommandFrom(config, 0) else StopBeforeBuild))
    ensures MakesLeft(config, In(StopBeforeBuild), [StopService], At(CommandFrom(config, 0)))
  {
    NextStepLeft(config, 0);
    assert [] + CallsFrom(config, 0) == CallsFrom(config, 0);
  }

  lemma CommandLeft(config: Config, index: nat, position: nat)
    requires InRange(config, In(Command(index, position)))
    ensures MakesLeft(config, In(Command(index, position)),
      [Exec(WorkingDir(config), config.steps[index].commands[position])], AfterCommand(config, index, position))
  {
    CommandsNext(config, index, position);
    if position + 1 == |config.steps[index].commands| {
      LastCommandLeft(config, index);
    }
  }

  lemma CommandsNext(config: Config, index: nat, position: nat)
    requires InRange(config, In(Command(index, position)))
    ensures CommandsFrom(config, index, position)
      == [Exec(WorkingDir(config), config.steps[index].commands[position])] + CommandsFrom(config, index, position + 1)
  {
    var commands := config.steps[index].commands;
    assert commands[position..][1..] == commands[position + 1..];
  }

  lemma LastCommandLeft(config: Config, index: nat)
    requires index < |config.steps|
    ensures var next := AfterCommand(config, index, |config.steps[index].commands|);
      && InRange(config, next) && !BeforeReset(next)
      && Left(config, next) == CommandsFrom(config, index, |config.steps[index].commands|)
  {
    assert config.steps[index].commands[|config.steps[index].commands|..] == [];
    assert forall calls: seq<Call> :: [] + calls == calls;
    if SyncOf(config, config.steps[index]) == [] {
      NextStepLeft(config, index + 1);
    }
  }

  lemma StopLeft(config: Config, index: nat)
    ensures InRange(config, In(InstallStop(index))) ==>
      MakesLeft(config, In(InstallStop(index)), [StopService], In(Command(index, 0)))
    ensures MakesLeft(config, In(SyncBuilt(index)), [SyncWorkToLive], At(CommandFrom(config, index + 1)))
  {
    NextStepLeft(config, index + 1);
  }

  lemma ServiceLeft(config: Config)
    ensures MakesLeft(config, In(ServiceAction), ServiceScript(config), At(ReadyCheck))
    ensures MakesLeft(config, In(ReadyCheck), ReadyScript(config), At(CleanupReleases))
    ensures MakesLeft(config, In(ReadyCheck), ReadyScript(config), At(Complete))
  {
    assert ReadyScript(config) + [] == ReadyScript(config);
  }

  lemma MadePart(calls: seq<Call>, made: seq<Call>, left: seq<Call>, script: seq<Call>)
    requires calls + (made + left) == script
    ensures calls + made + left == script && calls + made <= script
  {
  }

  /** The run moves on in its script, or throws on the way. */
  lemma AfterMade(config: Config, sha: Sha, calls: seq<Call>, stage: Stage, made: seq<Call>, next: Stage, stage': Stage,
    status: Option<Status>)
    requires Scripted(config, sha, calls, stage, status) && MakesLeft(config, stage, made, next)
    requires stage'.Throwing? || stage' == next
    requires status != Some(Success) && status != Some(Failed)
    ensures Scripted(config, sha, calls + made, stage', status)
  {
    MadePart(calls, made, Left(config, next), Script(config, sha));
  }

  lemma PrepareScripted(config: Config, sha: Sha, calls: seq<Call>, stage': Stage, status: Option<Status>)
    requires calls == [ResetHard(WorkingDir(config), sha)] && (stage'.Throwing? || stage' == At(RefreshConfig))
    requires status != Some(Success) && status != Some(Failed)
    ensures Scripted(config, sha, calls, stage', status)
  {
  }

  /** Where a step that does not throw leads. */
  ghost function NextStage(o: Origin, stage: Stage, stage': Stage): Stage
    requires stage.In? && InRange(o.config, stage)
  {
    match stage.step
    case RefreshConfig => At(if EarlyStop(o.config) == [] then CommandFrom(o.config, 0) else Step.StopBeforeBuild)
    case StopBeforeBuild => At(CommandFrom(o.config, 0))
    case InstallStop(index) => In(Command(index, 0))
    case Command(index, position) => AfterCommand(o.config, index, position)
    case SyncBuilt(index) => At(CommandFrom(o.config, index + 1))
    case ServiceAction => At(ReadyCheck)
    case _ => if stage' == At(CleanupReleases) then stage' else At(Complete)
  }

  /** The calls that such a step makes. */
  ghost function Made(o: Origin, stage: Stage): seq<Call>
    requires stage.In? && InRange(o.config, stage)
  {
    match stage.step
    case StopBeforeBuild => [StopService]
    case InstallStop(_) => [StopService]
    case Command(index, position) => [Exec(WorkingDir(o.config), o.config.steps[index].commands[position])]
    case SyncBuilt(_) => [SyncWorkToLive]
    case ServiceAction => ServiceScript(o.config)
    case ReadyCheck => ReadyScript(o.config)
    case _ => []
  }

  lemma StepMakesLeft(o: Origin, stage: Stage, stage': Stage)
    requires stage.In? && InRange(o.config, stage) && !BeforeReset(stage)
    requires !stage.step.Activate? && !stage.step.CleanupReleases? && !stage.step.Complete?
    ensures MakesLeft(o.config, stage, Made(o, stage), NextStage(o, stage, stage'))
  {
    if stage.step.Command? {
      CommandLeft(o.config, stage.step.index, stage.step.position);
    } else {
      OtherMakesLeft(o, stage, stage');
    }
  }

  lemma OtherMakesLeft(o: Origin, stage: Stage, stage': Stage)
    requires stage.In? && InRange(o.config, stage) && !BeforeReset(stage)
    requires !stage.step.Activate? && !stage.step.CleanupReleases? && !stage.step.Complete? && !stage.step.Command?
    ensures MakesLeft(o.config, stage, Made(o, stage), NextStage(o, stage, stage'))
  {
    if stage.step.RefreshConfig? || stage.step.StopBeforeBuild? {
      RefreshLeft(o.config);
    } else if stage.step.InstallStop? || stage.step.SyncBuilt? {
      StopLeft(o.config, stage.step.index);
    } else {
      LateMakesLeft(o, stage, stage');
    }
  }

  lemma LateMakesLeft(o: Origin, stage: Stage, stage': Stage)
    requires stage == In(ServiceAction) || stage == In(ReadyCheck)
    ensures MakesLeft(o.config, stage, Made(o, stage), NextStage(o, stage, stage'))
  {
    ServiceLeft(o.config);
  }

  lemma MakesIsMade(o: Origin, c: Cell, c': Cell)
    requires c.stage.In? && InRange(o.config, c.stage) && !BeforeReset(c.stage) && Makes(o, c, c')
    requires !c.stage.step.Activate? && !c.stage.step.CleanupReleases? && !c.stage.step.Complete?
    ensures c'.host.log == c.host.log + Made(o, c.stage)
    ensures c'.stage.Throwing? || c'.stage == NextStage(o, c.stage, c'.stage)
  {
    assert c.host.log + [] == c.host.log;
  }

  lemma FinishScripted(o: Origin, c: Cell, b: Beat)
    requires OnScript(o, c) && WellStaged(o, c) && c.stage.In? && Releases.Listing(c.host.store, b.disk.listing)
    requires c.status != Some(Success) && c.status != Some(Failed)
    ensures OnScript(o, Advance(o.job, o.config, c, b))
  {
    var c' := Advance(o.job, o.config, c, b);
    FinishFinishes(o, c, b);
    if o.job.dryRun {
      assert c'.host.log == c.host.log;
    } else {
      StepMakes(o, c, b);
      MakesScripted(o, c, c');
    }
  }

  lemma MakesScripted(o: Origin, c: Cell, c': Cell)
    requires OnScript(o, c) && WellStaged(o, c) && c.stage.In? && !o.job.dryRun && Makes(o, c, c')
    requires c'.status == c.status && c.status != Some(Success) && c.status != Some(Failed)
    requires c'.targetSha == c.targetSha || c.stage.step.Resolve?
    ensures OnScript(o, c')
  {
    if c.stage.step.Prepare? {
      Appended(o, c, c', [ResetHard(WorkingDir(o.config), c.targetSha)]);
      assert [] + [ResetHard(WorkingDir(o.config), c.targetSha)] == [ResetHard(WorkingDir(o.config), c.targetSha)];
      PrepareScripted(o.config, c.targetSha, OwnCalls(o, c'), c'.stage, c'.status);
    } else if BeforeReset(c.stage) {
      assert OwnCalls(o, c') == OwnCalls(o, c);
    } else {
      MakesIsMade(o, c, c');
      Appended(o, c, c', Made(o, c.stage));
      StepMakesLeft(o, c.stage, c'.stage);
      AfterMade(o.config, c.targetSha, OwnCalls(o, c), c.stage, Made(o, c.stage), NextStage(o, c.stage, c'.stage),
        c'.stage, c.status);
    }
  }

  lemma Appended(o: Origin, c: Cell, c': Cell, made: seq<Call>)
    requires o.host.log <= c.host.log && c'.host.log == c.host.log + made
    ensures o.host.log <= c'.host.log && OwnCalls(o, c') == OwnCalls(o, c) + made
  {
  }

  // Other moves

  lemma BeginLeft(config: Config, index: nat)
    requires InRange(config, At(Command(index, 0)))
    ensures CallsFrom(config, index) == InstallStopOf(config, config.steps[index]) + CommandsFrom(config, index, 0)
  {
    assert config.steps[index].commands[0..] == config.steps[index].commands;
  }

  lemma BeginScripted(o: Origin, c: Cell, b: Beat)
    requires OnScript(o, c) && Bookkept(c) && WellStaged(o, c) && c.stage.At? && Releases.Listing(c.host.store, b.disk.listing)
    requires c.status != Some(Success) && c.status != Some(Failed)
    ensures OnScript(o, Advance(o.job, o.config, c, b))
  {
    var c' := Advance(o.job, o.config, c, b);
    BeginBegins(o, c, b);
    BeginsStages(o, c, c');
    assert OwnCalls(o, c') == OwnCalls(o, c);
    if !o.job.dryRun {
      if c.stage.step.Command? {
        BeginStopsForInstall(o, c, b);
        CommandBegins(o, c, c');
      } else {
        BeginsScripted(o, c, c');
      }
    }
  }

  lemma CommandBegins(o: Origin, c: Cell, c': Cell)
    requires OnScript(o, c) && c.stage.At? && c.stage.step.Command? && Begins(o, c, c') && !o.job.dryRun
    requires c.status != Some(Success) && c.status != Some(Failed) && c'.host.log == c.host.log
    requires c'.stage.In? && c'.stage.step.Command? ==> !StopsForInstall(o.config, o.job.dryRun, c.stage.step.index)
    ensures OnScript(o, c')
  {
    var index, calls := c.stage.step.index, OwnCalls(o, c);
    LeftIsPart(calls, Left(o.config, c.stage), Script(o.config, c.targetSha));
    assert OwnCalls(o, c') == calls;
    if !c'.stage.Throwing? {
      CommandBeginLeft(o.config, index);
      assert c'.stage == if InstallStopOf(o.config, o.config.steps[index]) == [] then In(Command(index, 0))
                         else In(InstallStop(index));
    }
  }

  lemma CommandBeginLeft(config: Config, index: nat)
    requires InRange(config, At(Command(index, 0)))
    ensures var next := if InstallStopOf(config, config.steps[index]) == [] then In(Command(index, 0)) else In(InstallStop(index));
      InRange(config, next) && Left(config, next) == CallsFrom(config, index)
  {
    BeginLeft(config, index);
    assert [] + CommandsFrom(config, index, 0) == CommandsFrom(config, index, 0);
  }

  lemma BeginsScripted(o: Origin, c: Cell, c': Cell)
    requires OnScript(o, c) && WellStaged(o, c) && c.stage.At? && !c.stage.step.Command? && Begins(o, c, c') && !o.job.dryRun
    requires c.status != Some(Success) && c.status != Some(Failed) && c'.host.log == c.host.log
    ensures OnScript(o, c')
  {
    if !BeforeReset(c.stage) {
      LeftIsPart(OwnCalls(o, c), Left(o.config, c.stage), Script(o.config, c.targetSha));
    }
    if Quiet(o, c, c') {
      QuietScripted(o, c, c');
    } else {
      LoudScripted(o, c, c');
    }
  }

  lemma LeftIsPart(calls: seq<Call>, left: seq<Call>, script: seq<Call>)
    requires calls + left == script
    ensures calls <= script && (left == [] ==> calls == script)
  {
  }

  lemma QuietScripted(o: Origin, c: Cell, c': Cell)
    requires OnScript(o, c) && WellStaged(o, c) && c.stage.At? && !c.stage.step.Command? && Quiet(o, c, c') && !o.job.dryRun
    requires c.status != Some(Success) && c.status != Some(Failed) && c'.host.log == c.host.log
    requires OwnCalls(o, c) <= Script(o.config, c.targetSha)
    ensures OnScript(o, c')
  {
  }

  lemma LoudScripted(o: Origin, c: Cell, c': Cell)
    requires OnScript(o, c) && WellStaged(o, c) && c.stage.At? && !c.stage.step.Command? && !o.job.dryRun
    requires Touches(o, c, c') || Completes(o, c, c')
    requires c.status != Some(Success) && c.status != Some(Failed) && c'.host.log == c.host.log
    requires OwnCalls(o, c) <= Script(o.config, c.targetSha)
    requires c.stage.step.Complete? ==> OwnCalls(o, c) == Script(o.config, c.targetSha)
    ensures OnScript(o, c')
  {
  }

  /** Moves that make no call and change no step. */
  lemma SameCallsScripted(o: Origin, c: Cell, c': Cell)
    requires OnScript(o, c) && c'.host.log == c.host.log && c'.targetSha == c.targetSha
    requires Early(c'.stage) ==> Early(c.stage)
    requires c'.stage.At? || c'.stage.In? ==> c'.stage == c.stage || (Early(c.stage) && c'.stage == At(Validate))
    requires c'.stage.Throwing? || c'.stage.Undoing? || c'.status == Some(Failed) ==>
      Early(c.stage) || c.stage.Throwing? || c.stage.Undoing? || c.status == Some(Failed)
    requires c'.stage == Notifying(false) || c'.status == Some(Success) ==>
      c.stage == Notifying(false) || c.status == Some(Success)
    ensures OnScript(o, c')
  {
  }

  lemma DisturbedScripted(o: Origin, c: Cell, e: Disturbance)
    requires OnScript(o, c) && Possible(o.job, c, e)
    ensures OnScript(o, Disturbed(c, e))
  {
    DisturbedDisturbs(o, c, e);
    SameCallsScripted(o, c, Disturbed(c, e));
  }

  lemma EarlyScripted(o: Origin, c: Cell, b: Beat)
    requires OnScript(o, c) && Inv(o, c) && Early(c.stage) && Releases.Listing(c.host.store, b.disk.listing)
    ensures OnScript(o, Advance(o.job, o.config, c, b))
  {
    NotYetSettled(o, c);
    EarlyOpens(o, c, b);
    OpensScripted(o, c, Advance(o.job, o.config, c, b));
  }

  lemma NotYetSettled(o: Origin, c: Cell)
    requires Inv(o, c) && (BeforeCatch(c.stage) || c.stage.Entering? || c.stage.Undoing?)
    ensures c.status != Some(Success) && c.status != Some(Failed)
  {
    assert c.stage.Undoing? ==> c.stage.why == RestoreCancelled || c.stage.why == RollBackFailed;
  }

  lemma OpensScripted(o: Origin, c: Cell, c': Cell)
    requires OnScript(o, c) && Early(c.stage) && Opens(o, c, c') && c.status != Some(Success)
    ensures OnScript(o, c')
  {
    SameCallsScripted(o, c, c');
  }

  lemma CatchScripted(o: Origin, c: Cell, b: Beat)
    requires OnScript(o, c) && Inv(o, c) && c.stage.Throwing? && Releases.Listing(c.host.store, b.disk.listing)
    ensures OnScript(o, Advance(o.job, o.config, c, b))
  {
    NotYetSettled(o, c);
    CatchCatches(o, c, b);
    CatchesScripted(o, c, Advance(o.job, o.config, c, b));
  }

  lemma CatchesScripted(o: Origin, c: Cell, c': Cell)
    requires OnScript(o, c) && c.stage.Throwing? && Catches(o, c, c') && c.status != Some(Success)
    ensures OnScript(o, c')
  {
    SameCallsScripted(o, c, c');
  }

  lemma EndScripted(o: Origin, c: Cell, b: Beat)
    requires OnScript(o, c) && (c.stage.Notifying? || c.stage.Leaving? || c.stage.Returned?)
    requires Releases.Listing(c.host.store, b.disk.listing)
    ensures OnScript(o, Advance(o.job, o.config, c, b))
  {
    SameCallsScripted(o, c, Advance(o.job, o.config, c, b));
  }

  lemma UndoScripted(o: Origin, c: Cell, b: Beat)
    requires OnScript(o, c) && Inv(o, c) && c.stage.Undoing? && Releases.Listing(c.host.store, b.disk.listing)
    ensures OnScript(o, Advance(o.job, o.config, c, b))
  {
    NotYetSettled(o, c);
    UndoneUndoes(o, c, b);
    RolledBackCalls(o.config, c.prevSha, o.job.id, c.stage.why.RestoreCancelled? || IsServiceAffected(c.progress),
      c.progress.serviceActionStarted, c.host, b.disk, b.outcome);
    UndoneRolledBack(o, c, b);
    UndoesScripted(o, c, Advance(o.job, o.config, c, b));
  }

  lemma UndoesScripted(o: Origin, c: Cell, c': Cell)
    requires OnScript(o, c) && c.stage.Undoing? && Undoes(o, c, c') && Bookkept(c) && c.host.log <= c'.host.log
    requires c.status != Some(Success) && c.status != Some(Failed)
    ensures OnScript(o, c')
  {
    assert c.stage.why == RestoreCancelled || c.stage.why == RollBackFailed;
  }

  lemma MovedScripted(o: Origin, c: Cell, m: Move)
    requires OnScript(o, c) && Inv(o, c) && Enabled(o, c, m)
    ensures OnScript(o, Moved(o, c, m))
  {
    match m
    case Env(e) => DisturbedScripted(o, c, e);
    case Own(b) =>
      if c.stage.In? {
        NotYetSettled(o, c);
        FinishScripted(o, c, b);
      } else if c.stage.At? {
        NotYetSettled(o, c);
        BeginScripted(o, c, b);
      } else if c.stage.Throwing? {
        CatchScripted(o, c, b);
      } else if c.stage.Undoing? {
        UndoScripted(o, c, b);
      } else if Early(c.stage) {
        EarlyScripted(o, c, b);
      } else {
        EndScripted(o, c, b);
      }
  }

  lemma {:induction false} RunScripted(o: Origin, c: Cell, moves: seq<Move>)
    requires OnScript(o, c) && Inv(o, c) && Feasible(o, c, moves)
    ensures OnScript(o, Ran(o, c, moves))
    decreases |moves|
  {
    if moves != [] {
      MovedInv(o, c, moves[0]);
      MovedScripted(o, c, moves[0]);
      RunScripted(o, Moved(o, c, moves[0]), moves[1..]);
    }
  }

  lemma StartedScripted(o: Origin, c: Cell)
    requires Started(o, c)
    ensures OnScript(o, c)
  {
    assert OwnCalls(o, c) == [];
  }

  lemma ReachableScripted(o: Origin, c: Cell)
    requires Reachable(o, c)
    ensures OnScript(o, c)
  {
    var start, moves :| Started(o, start) && Feasible(o, start, moves) && c == Ran(o, start, moves);
    StartedInv(o, start);
    StartedScripted(o, start);
    RunScripted(o, start, moves);
  }

  /** A real run that succeeds has made exactly the calls of the script of its commit, in order, and no other; until a
      rollback begins, every other real run has made a part of it from the start. */
  lemma CallsFollowScript(o: Origin, c: Cell)
    requires Reachable(o, c) && !o.job.dryRun
    ensures o.host.log <= c.host.log
    ensures c.status == Some(Success) ==> OwnCalls(o, c) == Script(o.config, c.targetSha)
    ensures c.stage.Throwing? || c.stage.Undoing? || c.status == Some(Failed) ==>
      OwnCalls(o, c) <= Script(o.config, c.targetSha)
  {
    ReachableScripted(o, c);
  }

  // Nothing that a successful run waited for has failed

  /** Whether the run waits for something that has to succeed: anything but a stop of the service. */
  predicate MustSucceed(config: Config, stage: Stage)
  {
    || stage.Preflight?
    || (stage.In? && match stage.step
        case StopBeforeBuild => false
        case InstallStop(_) => false
        case ServiceAction => ServiceScript(config) != []
        case ReadyCheck => config.readyChecks
        case _ => true)
  }

  predicate Failing(o: Origin, c: Cell, m: Move)
  {
    m.Own? && !m.beat.ok && MustSucceed(o.config, c.stage)
  }

  function Failures(o: Origin, c: Cell, moves: seq<Move>): nat
    requires Feasible(o, c, moves)
    decreases |moves|
  {
    if moves == [] then 0 else (if Failing(o, c, moves[0]) then 1 else 0) + Failures(o, Moved(o, c, moves[0]), moves[1..])
  }

  /** The run has not thrown. */
  ghost predicate Unbroken(c: Cell)
  {
    Early(c.stage) || c.stage.At? || c.stage.In? || c.stage == Notifying(false) || c.status == Some(Success)
  }

  lemma SourceThrows(o: Origin, c: Cell, b: Beat)
    requires c.stage.Preflight? || c.stage == In(Validate) || c.stage == In(Fetch) || c.stage == In(Resolve)
    requires !o.job.dryRun && !b.ok && Releases.Listing(c.host.store, b.disk.listing)
    ensures Advance(o.job, o.config, c, b).stage.Throwing?
  {
  }

  lemma BuildThrows(o: Origin, c: Cell, b: Beat)
    requires c.stage.In? && WellStaged(o, c)
    requires c.stage.step.Prepare? || c.stage.step.RefreshConfig? || c.stage.step.Command? || c.stage.step.SyncBuilt?
    requires !o.job.dryRun && !b.ok && Releases.Listing(c.host.store, b.disk.listing)
    ensures Advance(o.job, o.config, c, b).stage.Throwing?
  {
  }

  lemma ServiceThrows(o: Origin, c: Cell, b: Beat)
    requires c.stage == In(ServiceAction) || c.stage == In(ReadyCheck)
    requires !o.job.dryRun && !b.ok && MustSucceed(o.config, c.stage) && Releases.Listing(c.host.store, b.disk.listing)
    ensures Advance(o.job, o.config, c, b).stage.Throwing?
  {
  }

  lemma FailingThrows(o: Origin, c: Cell, b: Beat)
    requires WellStaged(o, c) && !o.job.dryRun && Releases.Listing(c.host.store, b.disk.listing) && Failing(o, c, Own(b))
    ensures Advance(o.job, o.config, c, b).stage.Throwing?
  {
    if c.stage.Preflight? || c.stage.step.Validate? || c.stage.step.Fetch? || c.stage.step.Resolve? {
      SourceThrows(o, c, b);
    } else if c.stage.step.ServiceAction? || c.stage.step.ReadyCheck? {
      ServiceThrows(o, c, b);
    } else {
      BuildThrows(o, c, b);
    }
  }

  /** Once a run has thrown it never gets back on its way. */
  lemma BrokenStays(o: Origin, c: Cell, b: Beat)
    requires Inv(o, c) && !Unbroken(c) && Releases.Listing(c.host.store, b.disk.listing)
    ensures !Unbroken(Advance(o.job, o.config, c, b))
  {
    var c' := Advance(o.job, o.config, c, b);
    if c.stage.Throwing? {
      NotYetSettled(o, c);
      CatchCatches(o, c, b);
      CatchesBreak(o, c, c');
    } else if c.stage.Undoing? {
      NotYetSettled(o, c);
      UndoneUndoes(o, c, b);
      UndoesBreak(o, c, c');
    } else {
      EndKeepsStatus(o, c, b);
    }
  }

  lemma CatchesBreak(o: Origin, c: Cell, c': Cell)
    requires c.stage.Throwing? && Catches(o, c, c') && c.status != Some(Success)
    ensures !Unbroken(c')
  {
  }

  lemma UndoesBreak(o: Origin, c: Cell, c': Cell)
    requires c.stage.Undoing? && Undoes(o, c, c') && Bookkept(c)
    ensures !Unbroken(c')
  {
    assert c.stage.why == RestoreCancelled || c.stage.why == RollBackFailed;
  }

  lemma EndKeepsStatus(o: Origin, c: Cell, b: Beat)
    requires c.stage.Notifying? || c.stage.Leaving? || c.stage.Returned?
    requires Releases.Listing(c.host.store, b.disk.listing)
    ensures var c' := Advance(o.job, o.config, c, b);
      c'.status == c.status && (c'.stage.Leaving? || c'.stage.Returned?)
  {
  }

  lemma FailingKeepsStatus(o: Origin, c: Cell, b: Beat)
    requires Inv(o, c) && (c.stage.Preflight? || c.stage.In?) && Releases.Listing(c.host.store, b.disk.listing)
    ensures Advance(o.job, o.config, c, b).status == c.status
  {
    if c.stage.In? {
      FinishFinishes(o, c, b);
    } else {
      EarlyOpens(o, c, b);
    }
  }

  lemma UnbrokenMove(o: Origin, c: Cell, m: Move)
    requires Inv(o, c) && OnScript(o, c) && Enabled(o, c, m) && !o.job.dryRun && Unbroken(Moved(o, c, m))
    ensures Unbroken(c) && !Failing(o, c, m)
  {
    match m
    case Env(e) => DisturbedDisturbs(o, c, e);
    case Own(b) =>
      if !Unbroken(c) {
        BrokenStays(o, c, b);
      } else if Failing(o, c, m) {
        FailingThrows(o, c, b);
        NotYetSettled(o, c);
        FailingKeepsStatus(o, c, b);
      }
  }

  lemma {:induction false} UnbrokenRun(o: Origin, c: Cell, moves: seq<Move>)
    requires Inv(o, c) && OnScript(o, c) && Feasible(o, c, moves) && !o.job.dryRun && Unbroken(Ran(o, c, moves))
    ensures Unbroken(c) && Failures(o, c, moves) == 0
    decreases |moves|
  {
    if moves != [] {
      NextOnScript(o, c, moves[0]);
      UnbrokenRun(o, Moved(o, c, moves[0]), moves[1..]);
      UnbrokenMove(o, c, moves[0]);
    }
  }

  lemma NextOnScript(o: Origin, c: Cell, m: Move)
    requires Inv(o, c) && OnScript(o, c) && Enabled(o, c, m)
    ensures Inv(o, Moved(o, c, m)) && OnScript(o, Moved(o, c, m))
  {
    MovedInv(o, c, m);
    MovedScripted(o, c, m);
  }

  /** A real run that succeeds has made exactly the calls of the script of its commit, in order and no other, and nothing
      it waited for has failed, except perhaps a stop of the service. */
  lemma SuccessFollowsScript(o: Origin, start: Cell, moves: seq<Move>)
    requires Started(o, start) && Feasible(o, start, moves) && !o.job.dryRun
    requires Ran(o, start, moves).status == Some(Success)
    ensures var c := Ran(o, start, moves); o.host.log <= c.host.log && OwnCalls(o, c) == Script(o.config, c.targetSha)
    ensures Failures(o, start, moves) == 0
  {
    StartedInv(o, start);
    StartedScripted(o, start);
    UnbrokenRun(o, start, moves);
    RunScripted(o, start, moves);
  }
}
