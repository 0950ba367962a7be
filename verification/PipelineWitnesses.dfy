/** Runs that end where one would not expect it: each lemma drives the state machine, from its start and by moves it can
    make, to a state whose existence the theorems on runs leave open. */
module PipelineWitnesses {
  import opened Records
  import opened Rollback
  import opened RollbackEffects
  import opened LockTable
  import opened Pipeline
  import opened PipelineSafety
  import opened PipelineRuns
  import opened PipelineTraces
  import opened PipelineOutcome
  import Releases

  // The common beginning

  /** A real deployment of some commit that has not run before. */
  predicate NewRun(o: Origin)
  {
    && !o.job.dryRun && o.job.targetSha != ""
    && Releases.Safe(o.host.store) && o.job.id !in o.host.store.releases
  }

  /** A configuration with rollbacks enabled. */
  function Settings(strategy: Strategy, action: Action, stopBeforeBuild: bool, steps: seq<CommandStep>): Config
  {
    Config(strategy, false, action, stopBeforeBuild, steps, true, true, 5, Fifo)
  }

  /** Everything goes well, and the remote says nothing about the commit. */
  function Fine(listing: seq<Id>): Beat
  {
    Beat(true, true, 0, map[], true, None, true, Disk(listing, true, true, true, true), {}, k => Result(true, true))
  }

  function Start(o: Origin): Cell
  {
    Cell(Entering, false, o.job.targetSha, None, None, NO_PROGRESS, Some(Queued), None, false, None, o.lastSuccessful, o.host)
  }

  /** The run so far, undisturbed. */
  function Undisturbed(o: Origin, stage: Stage, progress: Progress, resetTo: Option<Sha>, host: Host): Cell
  {
    Cell(stage, true, o.job.targetSha, resetTo, PreviousSha(o), progress, Some(Status.Running), Some(false), false,
         Some(Lock(o.job.id, 0)), o.lastSuccessful, host)
  }

  const MUTATED: Progress := NO_PROGRESS.(workspaceMutated := true)

  function ValidatedHost(o: Origin): Host
  {
    o.host.(store := Provisioned(o.job, o.config, o.host.store, 0))
  }

  /** The working tree at the target commit. */
  function ResetHost(o: Origin): Host
  {
    Attempt(ValidatedHost(o), ResetHard(WorkingDir(o.config), o.job.targetSha), Result(true, true))
  }

  /** The run after its working tree has been reset. */
  function AfterReset(o: Origin, stage: Stage, progress: Progress, host: Host): Cell
  {
    Undisturbed(o, stage, progress, Some(o.job.targetSha), host)
  }

  function ListingWith(o: Origin, listing: seq<Id>): seq<Id>
  {
    if o.config.strategy.ReleaseDirs? then listing + [o.job.id] else listing
  }

  lemma Goes(o: Origin, c: Cell, b: Beat)
    requires Reachable(o, c) && Releases.Listing(c.host.store, b.disk.listing)
    ensures Reachable(o, Advance(o.job, o.config, c, b))
  {
    MovedReachable(o, c, Own(b));
  }

  lemma ReachesPreflight(o: Origin, listing: seq<Id>)
    requires NewRun(o) && Releases.Listing(o.host.store, listing)
    ensures Reachable(o, Undisturbed(o, Preflight, NO_PROGRESS, None, o.host))
  {
    StartedReachable(o, Start(o));
    Goes(o, Start(o), Fine(listing));
    assert Advance(o.job, o.config, Start(o), Fine(listing)) == Undisturbed(o, Preflight, NO_PROGRESS, None, o.host);
  }

  lemma ValidatedListing(o: Origin, listing: seq<Id>)
    requires NewRun(o) && Releases.Listing(o.host.store, listing)
    ensures Releases.Listing(ValidatedHost(o).store, ListingWith(o, listing))
    ensures Releases.Listing(ResetHost(o).store, ListingWith(o, listing))
  {
  }

  lemma ReachesFetch(o: Origin, listing: seq<Id>)
    requires NewRun(o) && Releases.Listing(o.host.store, listing)
    ensures Reachable(o, Undisturbed(o, At(Fetch), NO_PROGRESS, None, ValidatedHost(o)))
  {
    ReachesPreflight(o, listing);
    Goes(o, Undisturbed(o, Preflight, NO_PROGRESS, None, o.host), Fine(listing));
    Goes(o, Undisturbed(o, At(Validate), NO_PROGRESS, None, o.host), Fine(listing));
    ValidatedListing(o, listing);
    Goes(o, Undisturbed(o, In(Validate), NO_PROGRESS, None, ValidatedHost(o)), Fine(ListingWith(o, listing)));
  }

  lemma ReachesPrepare(o: Origin, listing: seq<Id>)
    requires NewRun(o) && Releases.Listing(o.host.store, listing)
    ensures Reachable(o, Undisturbed(o, At(Prepare), NO_PROGRESS, None, ValidatedHost(o)))
  {
    var fine := Fine(ListingWith(o, listing));
    ReachesFetch(o, listing);
    ValidatedListing(o, listing);
    Goes(o, Undisturbed(o, At(Fetch), NO_PROGRESS, None, ValidatedHost(o)), fine);
    Goes(o, Undisturbed(o, In(Fetch), NO_PROGRESS, None, ValidatedHost(o)), fine);
    Goes(o, Undisturbed(o, At(Resolve), NO_PROGRESS, None, ValidatedHost(o)), fine);
    Goes(o, Undisturbed(o, In(Resolve), NO_PROGRESS, None, ValidatedHost(o)), fine);
  }

  /** Every such run can come to the end of its configuration step. */
  lemma ReachesRefresh(o: Origin, listing: seq<Id>)
    requires NewRun(o) && Releases.Listing(o.host.store, listing)
    ensures Reachable(o, AfterReset(o, In(RefreshConfig), MUTATED, ResetHost(o)))
  {
    var fine := Fine(ListingWith(o, listing));
    ReachesPrepare(o, listing);
    ValidatedListing(o, listing);
    Goes(o, Undisturbed(o, At(Prepare), NO_PROGRESS, None, ValidatedHost(o)), fine);
    Goes(o, Undisturbed(o, In(Prepare), MUTATED, None, ValidatedHost(o)), fine);
    Goes(o, AfterReset(o, At(RefreshConfig), MUTATED, ResetHost(o)), fine);
  }

  // Single moves, from any state

  predicate Unimpeded(o: Origin, c: Cell, listing: seq<Id>)
  {
    && !o.job.dryRun && c.status == Some(Status.Running) && !c.aborted && c.controller.Some?
    && Releases.Listing(c.host.store, listing)
  }

  lemma RefreshMove(o: Origin, c: Cell, listing: seq<Id>)
    requires Reachable(o, c) && c.stage == In(RefreshConfig) && !o.job.dryRun && Releases.Listing(c.host.store, listing)
    ensures Reachable(o, c.(stage := At(
      if StopsBeforeBuild(o.config, false) then StopBeforeBuild else CommandFrom(o.config, 0))))
  {
    Goes(o, c, Fine(listing));
  }

  lemma ActivateMove(o: Origin, c: Cell, listing: seq<Id>)
    requires Reachable(o, c) && Unimpeded(o, c, listing) && c.stage == At(Activate)
    ensures Reachable(o, c.(
      stage := At(ServiceAction), controller := Some(true), progress := c.progress.(releaseActivated := true),
      host := c.host.(store := Releases.Activated(c.host.store, o.job.id))))
  {
    Goes(o, c, Fine(listing));
  }

  lemma BeginActionMove(o: Origin, c: Cell, listing: seq<Id>)
    requires Reachable(o, c) && Unimpeded(o, c, listing) && c.stage == At(ServiceAction)
    ensures Reachable(o, c.(
      stage := In(ServiceAction), controller := Some(true), progress := c.progress.(serviceActionStarted := true)))
  {
    Goes(o, c, Fine(listing));
  }

  lemma ActionMove(o: Origin, c: Cell, listing: seq<Id>, r: Result)
    requires Reachable(o, c) && Unimpeded(o, c, listing) && c.stage == In(ServiceAction)
    ensures match ServiceCalls(o.config)
      case None => Reachable(o, c.(stage := At(ReadyCheck)))
      case Some(call) =>
        Reachable(o, c.(stage := if r.ok then At(ReadyCheck) else Throwing, host := Attempt(c.host, call, r)))
  {
    Goes(o, c, Fine(listing).(ok := r.ok, took := r.took));
  }

  lemma BeginReadyMove(o: Origin, c: Cell, listing: seq<Id>)
    requires Reachable(o, c) && Unimpeded(o, c, listing) && c.stage == At(ReadyCheck)
    ensures Reachable(o, c.(stage := In(ReadyCheck)))
  {
    Goes(o, c, Fine(listing));
  }

  lemma ReadyMove(o: Origin, c: Cell, listing: seq<Id>, r: Result)
    requires Reachable(o, c) && Unimpeded(o, c, listing) && c.stage == In(ReadyCheck) && o.config.readyChecks
    ensures Reachable(o, c.(
      host := Attempt(c.host, WaitReady, r),
      stage := if !r.ok then Throwing else At(if o.config.strategy.ReleaseDirs? then CleanupReleases else Complete)))
  {
    Goes(o, c, Fine(listing).(ok := r.ok, took := r.took));
  }

  lemma CompleteMove(o: Origin, c: Cell, listing: seq<Id>)
    requires Reachable(o, c) && Unimpeded(o, c, listing) && c.stage == At(Complete)
    ensures Reachable(o, c.(stage := Notifying(false), status := Some(Success), lastSuccessful := Some(c.targetSha)))
  {
    Goes(o, c, Fine(listing));
  }

  function Caught(c: Cell): Cell
  {
    c.(stage := Undoing(RollBackFailed), status := Some(RollingBack), controller := None, aborted := true)
  }

  lemma CatchMove(o: Origin, c: Cell, listing: seq<Id>)
    requires Reachable(o, c) && Unimpeded(o, c, listing) && c.stage == Throwing && CanRollBack(o.config, c)
    ensures Reachable(o, Caught(c))
  {
    Goes(o, c, Fine(listing));
  }

  lemma UndoMove(o: Origin, c: Cell, b: Beat)
    requires Reachable(o, c) && c.stage == Undoing(RollBackFailed) && c.status == Some(RollingBack)
    requires Releases.Listing(c.host.store, b.disk.listing)
    requires UndoResult(o, c, b).1
    ensures Reachable(o, c.(stage := Notifying(true), status := Some(RolledBack), host := UndoResult(o, c, b).0))
  {
    Goes(o, c, b);
  }

  lemma BeginInstallMove(o: Origin, c: Cell, listing: seq<Id>, index: nat)
    requires Reachable(o, c) && Unimpeded(o, c, listing) && c.stage == At(Command(index, 0))
    requires StopsForInstall(o.config, false, index)
    ensures Reachable(o, c.(
      stage := In(InstallStop(index)), controller := Some(true), progress := c.progress.(serviceStopped := true)))
  {
    Goes(o, c, Fine(listing));
  }

  lemma InstallStopMove(o: Origin, c: Cell, listing: seq<Id>, index: nat)
    requires Reachable(o, c) && Unimpeded(o, c, listing) && c.stage == In(InstallStop(index))
    ensures Reachable(o, c.(stage := In(Command(index, 0)), host := Attempt(c.host, StopService, Result(true, true))))
  {
    Goes(o, c, Fine(listing));
  }

  lemma LastCommandMove(o: Origin, c: Cell, listing: seq<Id>, index: nat, position: nat, r: Result)
    requires Reachable(o, c) && Unimpeded(o, c, listing) && c.stage == In(Command(index, position))
    requires index < |o.config.steps| && position + 1 == |o.config.steps[index].commands|
    requires o.config.steps[index].name != "build"
    ensures Reachable(o, c.(
      host := Attempt(c.host, Exec(WorkingDir(o.config), o.config.steps[index].commands[position]), r),
      stage := if r.ok then At(CommandFrom(o.config, index + 1)) else Throwing))
  {
    LastCommandFinishes(o, c, Fine(listing).(ok := r.ok, took := r.took), index, position, r);
    Goes(o, c, Fine(listing).(ok := r.ok, took := r.took));
  }

  lemma LastCommandFinishes(o: Origin, c: Cell, b: Beat, index: nat, position: nat, r: Result)
    requires c.stage == In(Command(index, position)) && !c.aborted && !o.job.dryRun && r == Result(b.ok, b.took)
    requires index < |o.config.steps| && position + 1 == |o.config.steps[index].commands|
    requires o.config.steps[index].name != "build" && Releases.Listing(c.host.store, b.disk.listing)
    ensures Advance(o.job, o.config, c, b) == c.(
      host := Attempt(c.host, Exec(WorkingDir(o.config), o.config.steps[index].commands[position]), r),
      stage := if r.ok then At(CommandFrom(o.config, index + 1)) else Throwing)
  {
  }

  // Releases

  function ReleasedHost(o: Origin): Host
  {
    ResetHost(o).(store := Releases.Activated(ResetHost(o).store, o.job.id))
  }

  const RELEASED: Progress := Progress(true, false, true, true)

  lemma ReleaseReachesActivate(o: Origin)
    requires NewRun(o) && o.host.store == Releases.EMPTY && o.config == Settings(ReleaseDirs, RestartService, false, [])
    ensures Releases.Listing(ResetHost(o).store, [o.job.id])
    ensures Reachable(o, AfterReset(o, At(Activate), MUTATED, ResetHost(o)))
  {
    ReachesRefresh(o, []);
    ValidatedListing(o, []);
    assert ListingWith(o, []) == [o.job.id];
    RefreshMove(o, AfterReset(o, In(RefreshConfig), MUTATED, ResetHost(o)), [o.job.id]);
  }

  lemma ReleaseReachesAction(o: Origin)
    requires NewRun(o) && o.host.store == Releases.EMPTY && o.config == Settings(ReleaseDirs, RestartService, false, [])
    ensures Releases.Listing(ReleasedHost(o).store, [o.job.id])
    ensures Reachable(o, AfterReset(o, In(ServiceAction), RELEASED, ReleasedHost(o)).(controller := Some(true)))
  {
    ReleaseReachesActivate(o);
    ActivateMove(o, AfterReset(o, At(Activate), MUTATED, ResetHost(o)), [o.job.id]);
    BeginActionMove(o, AfterReset(o, At(ServiceAction), MUTATED.(releaseActivated := true), ReleasedHost(o)).(
      controller := Some(true)), [o.job.id]);
  }

  function RestartedHost(o: Origin): Host
  {
    Attempt(ReleasedHost(o), ServiceFromCurrent(RestartService), Result(true, true))
  }

  /** Restarted on the release, and not ready. */
  function UnreadyHost(o: Origin): Host
  {
    Attempt(RestartedHost(o), WaitReady, Result(false, false))
  }

  lemma ReleaseReachesReadyCheck(o: Origin)
    requires NewRun(o) && o.host.store == Releases.EMPTY && o.config == Settings(ReleaseDirs, RestartService, false, [])
    ensures Releases.Listing(RestartedHost(o).store, [o.job.id])
    ensures Reachable(o, AfterReset(o, At(ReadyCheck), RELEASED, RestartedHost(o)).(controller := Some(true)))
  {
    ReleaseReachesAction(o);
    ActionMove(o, AfterReset(o, In(ServiceAction), RELEASED, ReleasedHost(o)).(controller := Some(true)), [o.job.id],
      Result(true, true));
  }

  lemma ReleaseReachesUndoing(o: Origin)
    requires NewRun(o) && o.host.store == Releases.EMPTY && o.config == Settings(ReleaseDirs, RestartService, false, [])
    ensures Releases.Listing(UnreadyHost(o).store, [o.job.id])
    ensures Reachable(o, Caught(AfterReset(o, Throwing, RELEASED, UnreadyHost(o))))
  {
    ReleaseReachesReadyCheck(o);
    var ready := AfterReset(o, At(ReadyCheck), RELEASED, RestartedHost(o)).(controller := Some(true));
    NotReady(o, ready, [o.job.id]);
    CatchMove(o, ready.(stage := Throwing, host := UnreadyHost(o)), [o.job.id]);
  }

  /** The first release of a project that is not ready ends rolled back, with `current` on the failed release and the
      service running it: there was nothing to roll back to. */
  lemma FirstReleaseRollsBackToItself(o: Origin) returns (c: Cell)
    requires NewRun(o) && o.host.store == Releases.EMPTY && o.config == Settings(ReleaseDirs, RestartService, false, [])
    requires PreviousSha(o).None?
    ensures Reachable(o, c) && c.status == Some(RolledBack)
    ensures c.host.store.current == Some(o.job.id) && c.host.service == ServingRelease(Some(o.job.id))
  {
    var undoing, fine := Caught(AfterReset(o, Throwing, RELEASED, UnreadyHost(o))), Fine([o.job.id]);
    ReleaseReachesUndoing(o);
    OnlyOwnRelease(UnreadyHost(o).store, o.job.id);
    assert Relinked(UnreadyHost(o).store, o.job.id, fine.disk).None?;
    NothingToRestore(o.config, o.job.id, true, true, UnreadyHost(o), fine.disk, fine.outcome);
    UndoMove(o, undoing, fine);
    c := undoing.(stage := Notifying(true), status := Some(RolledBack), host := UnreadyHost(o));
  }

  lemma OnlyOwnRelease(store: Releases.Store, id: Id)
    requires Releases.Listing(store, [id])
    ensures Releases.PreviousRelease(store, [id], id).None?
  {
    assert Releases.Without([id], id) == [];
  }

  // Generations

  /** The service action of a run without command steps has begun. */
  lemma ReachesServiceAction(o: Origin, listing: seq<Id>)
    requires NewRun(o) && Releases.Listing(o.host.store, listing)
    requires !o.config.strategy.ReleaseDirs? && o.config.steps == [] && !o.config.stopBeforeBuild
    ensures Reachable(o, AfterReset(o, In(ServiceAction), STARTED, ResetHost(o)).(controller := Some(true)))
    ensures Releases.Listing(ResetHost(o).store, listing)
  {
    ReachesRefresh(o, listing);
    ValidatedListing(o, listing);
    RefreshMove(o, AfterReset(o, In(RefreshConfig), MUTATED, ResetHost(o)), listing);
    BeginActionMove(o, AfterReset(o, At(ServiceAction), MUTATED, ResetHost(o)), listing);
  }

  const STARTED: Progress := MUTATED.(serviceActionStarted := true)

  /** A zero-downtime run whose deploy call has ended in any way, and which fails: at once, or because it is not ready. */
  lemma ReachesGenerationUndo(o: Origin, listing: seq<Id>, r: Result) returns (host: Host)
    requires NewRun(o) && Releases.Listing(o.host.store, listing)
    requires o.config == Settings(ZeroDowntime, RestartService, false, [])
    ensures Reachable(o, Caught(AfterReset(o, Throwing, STARTED, host))) && host.store == o.host.store
    ensures host.generations == if r.took then Switched(o.host.generations) else o.host.generations
  {
    ReachesActed(o, listing, DeployGeneration, r);
    host := Attempt(ResetHost(o), DeployGeneration, r);
    if r.ok {
      NotReady(o, Acted(o, host, true), listing);
      host := Attempt(host, WaitReady, Result(false, false));
    }
    CatchMove(o, Acted(o, host, false), listing);
  }

  /** After the service action of a run without command steps. */
  function Acted(o: Origin, host: Host, ok: bool): Cell
  {
    AfterReset(o, if ok then At(ReadyCheck) else Throwing, STARTED, host).(controller := Some(true))
  }

  lemma AttemptKeepsStore(host: Host, call: Call, r: Result)
    ensures Attempt(host, call, r).store == host.store
  {
  }

  lemma ReachesActed(o: Origin, listing: seq<Id>, call: Call, r: Result)
    requires NewRun(o) && Releases.Listing(o.host.store, listing) && ServiceCalls(o.config) == Some(call)
    requires !o.config.strategy.ReleaseDirs? && o.config.steps == [] && !o.config.stopBeforeBuild
    ensures Reachable(o, Acted(o, Attempt(ResetHost(o), call, r), r.ok))
    ensures Releases.Listing(Attempt(ResetHost(o), call, r).store, listing)
  {
    AttemptKeepsStore(ResetHost(o), call, r);
    ReachesServiceAction(o, listing);
    ActionMove(o, AfterReset(o, In(ServiceAction), STARTED, ResetHost(o)).(controller := Some(true)), listing, r);
  }

  lemma NotReady(o: Origin, c: Cell, listing: seq<Id>)
    requires Reachable(o, c) && Unimpeded(o, c, listing) && c.stage == At(ReadyCheck) && o.config.readyChecks
    ensures Reachable(o, c.(host := Attempt(c.host, WaitReady, Result(false, false)), stage := Throwing))
  {
    BeginReadyMove(o, c, listing);
    ReadyMove(o, c.(stage := In(ReadyCheck)), listing, Result(false, false));
  }

  /** Rolled back, and still on the new generation: the deploy switched to it, and the revert returned normally without
      reverting. Rolled back, and on a generation before the one it found: the deploy failed before it switched, and the
      revert took effect. */
  lemma RolledBackOffGeneration(o: Origin, listing: seq<Id>, switched: bool) returns (c: Cell)
    requires NewRun(o) && Releases.Listing(o.host.store, listing) && PreviousSha(o).None?
    requires o.config == Settings(ZeroDowntime, RestartService, false, []) && o.host.generations.active.Next?
    ensures Reachable(o, c) && c.status == Some(RolledBack)
    ensures c.host.generations.active != o.host.generations.active
    ensures c.host.generations.active ==
      if switched then Next(o.host.generations.switches + 1, o.host.generations.active)
      else o.host.generations.active.replaced
  {
    var host := ReachesGenerationUndo(o, listing, Result(switched, switched));
    var undoing := Caught(AfterReset(o, Throwing, STARTED, host));
    var beat := Fine(listing).(outcome := k => Result(true, !switched));
    PerformOne(host, RevertGeneration, beat.outcome);
    var reverted := Attempt(host, RevertGeneration, Result(true, !switched));
    assert UndoResult(o, undoing, beat) == (reverted, true);
    UndoMove(o, undoing, beat);
    c := undoing.(stage := Notifying(true), status := Some(RolledBack), host := reverted);
    NextDiffers(o.host.generations.switches + 1, o.host.generations.active);
    NextDiffers(o.host.generations.active.number, o.host.generations.active.replaced);
  }

  // Trees and the service

  /** The last steps, if the service becomes ready. */
  lemma Completes(o: Origin, listing: seq<Id>, ready: Cell) returns (c: Cell)
    requires Reachable(o, ready) && ready.stage == At(ReadyCheck) && Unimpeded(o, ready, listing)
    requires !o.config.strategy.ReleaseDirs? && o.config.readyChecks
    ensures Reachable(o, c) && c.status == Some(Success) && c.lastSuccessful == Some(ready.targetSha)
    ensures c.host == Attempt(ready.host, WaitReady, Result(true, true))
  {
    var checked := Attempt(ready.host, WaitReady, Result(true, true));
    BeginReadyMove(o, ready, listing);
    ReadyMove(o, ready.(stage := In(ReadyCheck)), listing, Result(true, true));
    CompleteMove(o, ready.(stage := At(Complete), host := checked), listing);
    c := ready.(stage := Notifying(false), host := checked, status := Some(Success), lastSuccessful := Some(ready.targetSha));
  }

  /** An isolated deployment without a `build` succeeds, restarts the service on the tree it found, and leaves the
      target commit in the workspace. */
  lemma SuccessOnOldTree(o: Origin, listing: seq<Id>) returns (c: Cell)
    requires NewRun(o) && Releases.Listing(o.host.store, listing)
    requires o.config == Settings(Isolated, RestartService, false, [])
    ensures Reachable(o, c) && c.status == Some(Success) && c.lastSuccessful == Some(o.job.targetSha)
    ensures c.host.live == o.host.live && c.host.service == Serving(o.host.live)
    ensures c.host.work == Tree(Some(o.job.targetSha), [])
  {
    ReachesActed(o, listing, ServiceCall(RestartService), Result(true, true));
    c := Completes(o, listing, Acted(o, Attempt(ResetHost(o), ServiceCall(RestartService), Result(true, true)), true));
  }

  const INSTALL: CommandStep := CommandStep("install", ["npm ci"])

  function StoppedHost(o: Origin): Host
  {
    Attempt(ResetHost(o), StopService, Result(true, true))
  }

  const STOPPED: Progress := MUTATED.(serviceStopped := true)

  /** The run has stopped the service for its install commands. */
  function Installing(o: Origin): Cell
  {
    AfterReset(o, In(Command(0, 0)), STOPPED, StoppedHost(o)).(controller := Some(true))
  }

  lemma ReachesInstallStep(o: Origin, listing: seq<Id>)
    requires NewRun(o) && Releases.Listing(o.host.store, listing)
    requires o.config == Settings(InPlace, NoAction, false, [INSTALL])
    ensures Reachable(o, AfterReset(o, At(Command(0, 0)), MUTATED, ResetHost(o)))
    ensures Releases.Listing(ResetHost(o).store, listing)
  {
    ReachesRefresh(o, listing);
    ValidatedListing(o, listing);
    assert CommandFrom(o.config, 0) == Command(0, 0);
    RefreshMove(o, AfterReset(o, In(RefreshConfig), MUTATED, ResetHost(o)), listing);
  }

  lemma ReachesInstall(o: Origin, listing: seq<Id>)
    requires NewRun(o) && Releases.Listing(o.host.store, listing)
    requires o.config == Settings(InPlace, NoAction, false, [INSTALL])
    ensures Reachable(o, Installing(o)) && Releases.Listing(StoppedHost(o).store, listing)
  {
    ReachesInstallStep(o, listing);
    BeginInstallMove(o, AfterReset(o, At(Command(0, 0)), MUTATED, ResetHost(o)), listing, 0);
    InstallStopMove(o, AfterReset(o, In(InstallStop(0)), STOPPED, ResetHost(o)).(controller := Some(true)), listing, 0);
  }

  /** With action `none`, a deployment with install commands succeeds and leaves the service stopped. */
  lemma SuccessWithServiceDown(o: Origin, listing: seq<Id>) returns (c: Cell)
    requires NewRun(o) && Releases.Listing(o.host.store, listing)
    requires o.config == Settings(InPlace, NoAction, false, [INSTALL])
    ensures Reachable(o, c) && c.status == Some(Success) && c.host.service == Stopped
  {
    var installed := ReachesInstalled(o, listing);
    var ready := ActsOnNothing(o, listing, installed);
    c := Completes(o, listing, ready);
  }

  lemma ReachesInstalled(o: Origin, listing: seq<Id>) returns (c: Cell)
    requires NewRun(o) && Releases.Listing(o.host.store, listing)
    requires o.config == Settings(InPlace, NoAction, false, [INSTALL])
    ensures Reachable(o, c) && c.stage == At(ServiceAction) && Unimpeded(o, c, listing) && c.host.service == Stopped
  {
    ReachesInstall(o, listing);
    LastCommandMove(o, Installing(o), listing, 0, 0, Result(true, true));
    assert CommandFrom(o.config, 1) == ServiceAction;
    c := Installing(o).(stage := At(ServiceAction), host := Attempt(StoppedHost(o), Exec(Live, "npm ci"), Result(true, true)));
  }

  /** The service action `none`. */
  lemma ActsOnNothing(o: Origin, listing: seq<Id>, c: Cell) returns (c': Cell)
    requires Reachable(o, c) && c.stage == At(ServiceAction) && Unimpeded(o, c, listing)
    requires ServiceCalls(o.config).None?
    ensures Reachable(o, c') && c'.stage == At(ReadyCheck) && Unimpeded(o, c', listing) && c'.host == c.host
  {
    var acting := c.(
      stage := In(ServiceAction), controller := Some(true), progress := c.progress.(serviceActionStarted := true));
    BeginActionMove(o, c, listing);
    ActionMove(o, acting, listing, Result(true, true));
    c' := acting.(stage := At(ReadyCheck));
  }

  /** And when the install command fails, it is rolled back and leaves the service stopped. */
  lemma RolledBackWithServiceDown(o: Origin, listing: seq<Id>) returns (c: Cell)
    requires NewRun(o) && Releases.Listing(o.host.store, listing)
    requires o.config == Settings(InPlace, NoAction, false, [INSTALL])
    requires PreviousSha(o).Some? && PreviousSha(o).value != o.job.targetSha
    ensures Reachable(o, c) && c.status == Some(RolledBack) && Down(c.host.service)
  {
    ReachesInstall(o, listing);
    LastCommandMove(o, Installing(o), listing, 0, 0, Result(false, false));
    var failed := Attempt(StoppedHost(o), Exec(Live, "npm ci"), Result(false, false));
    CatchMove(o, Installing(o).(stage := Throwing, host := failed), listing);
    c := RollsBack(o, Caught(Installing(o).(host := failed)), Fine(listing));
    RolledBackRunStops(o, c);
    NoActionService(o, c);
  }

  /** A rollback in which no call fails is recorded as one. */
  lemma RollsBack(o: Origin, undoing: Cell, b: Beat) returns (c: Cell)
    requires Reachable(o, undoing) && undoing.stage == Undoing(RollBackFailed) && undoing.status == Some(RollingBack)
    requires Releases.Listing(undoing.host.store, b.disk.listing) && !o.config.strategy.ReleaseDirs?
    requires forall k: nat :: b.outcome(k).ok
    ensures Reachable(o, c) && c.status == Some(RolledBack) && c.progress == undoing.progress
  {
    NothingFails(undoing.host,
      PlanFor(o.config, undoing.prevSha, IsServiceAffected(undoing.progress), undoing.progress.serviceActionStarted), b.outcome);
    UndoMove(o, undoing, b);
    c := undoing.(stage := Notifying(true), status := Some(RolledBack), host := UndoResult(o, undoing, b).0);
  }

  lemma {:induction false} NothingFails(host: Host, plan: seq<Call>, outcome: Outcomes)
    requires forall k: nat :: outcome(k).ok
    ensures Perform(host, plan, outcome).1
    decreases |plan|
  {
    if plan != [] {
      NothingFails(Attempt(host, plan[0], outcome(|host.log|)), plan[1..], outcome);
    }
  }

  // Cancellation

  /** A newer deployment has arrived while the configuration was read. */
  function SupersededAt(o: Origin, stage: Stage): Cell
  {
    AfterReset(o, stage, MUTATED, ResetHost(o)).(status := Some(Cancelled), controller := None, aborted := true)
  }

  lemma ReachesSuperseded(o: Origin, listing: seq<Id>)
    requires NewRun(o) && Releases.Listing(o.host.store, listing)
    ensures Reachable(o, SupersededAt(o, In(RefreshConfig)))
  {
    ReachesRefresh(o, listing);
    MovedReachable(o, AfterReset(o, In(RefreshConfig), MUTATED, ResetHost(o)), Env(Supersede));
  }

  lemma AbortedStopMoves(o: Origin, c: Cell, listing: seq<Id>)
    requires Reachable(o, c) && c.stage == At(StopBeforeBuild) && c.controller.None? && !o.job.dryRun
    requires Releases.Listing(c.host.store, listing) && o.config.steps == [] && !o.config.strategy.ReleaseDirs?
    ensures var stopping := c.(stage := In(StopBeforeBuild), progress := c.progress.(serviceStopped := true));
      && Reachable(o, stopping)
      && Reachable(o, stopping.(stage := At(ServiceAction), host := Attempt(c.host, StopService, Result(true, true))))
  {
    var stopping := c.(stage := In(StopBeforeBuild), progress := c.progress.(serviceStopped := true));
    Goes(o, c, Fine(listing));
    Goes(o, stopping, Fine(listing));
  }

  lemma CancelledActionMove(o: Origin, c: Cell, listing: seq<Id>)
    requires Reachable(o, c) && c.stage == At(ServiceAction) && c.status == Some(Cancelled)
    requires Releases.Listing(c.host.store, listing)
    ensures Reachable(o, c.(stage := Throwing))
  {
    Goes(o, c, Fine(listing));
  }

  lemma CancelledCatchMove(o: Origin, c: Cell, listing: seq<Id>)
    requires Reachable(o, c) && c.stage == Throwing && c.status == Some(Cancelled) && c.controller.None?
    requires Releases.Listing(c.host.store, listing) && !o.job.dryRun && c.lockAcquired && o.config.rollbackEnabled
    requires !o.config.strategy.ReleaseDirs?
    ensures Reachable(o, c.(stage := if IsServiceAffected(c.progress) then Undoing(RestoreCancelled) else Leaving))
  {
    Goes(o, c, Fine(listing));
  }

  lemma ReachesEarlyStop(o: Origin, listing: seq<Id>)
    requires NewRun(o) && Releases.Listing(o.host.store, listing)
    requires o.config == Settings(InPlace, RestartService, true, [])
    ensures Reachable(o, SupersededAt(o, At(StopBeforeBuild))) && Releases.Listing(ResetHost(o).store, listing)
  {
    ReachesSuperseded(o, listing);
    ValidatedListing(o, listing);
    RefreshMove(o, SupersededAt(o, In(RefreshConfig)), listing);
  }

  /** The aborted run still stops the service before the build; then it gives up, and goes on to restore it. */
  lemma AbortedRunStopsAndRestores(o: Origin, listing: seq<Id>) returns (stopping: Cell, restoring: Cell)
    requires NewRun(o) && Releases.Listing(o.host.store, listing)
    requires o.config == Settings(InPlace, RestartService, true, [])
    ensures Reachable(o, stopping) && stopping.stage == In(StopBeforeBuild) && stopping.aborted
    ensures stopping.status == Some(Cancelled) && stopping.controller.None?
    ensures Reachable(o, restoring) && restoring.stage == Undoing(RestoreCancelled)
    ensures restoring.host.service == Stopped
  {
    ReachesEarlyStop(o, listing);
    AbortedStopMoves(o, SupersededAt(o, At(StopBeforeBuild)), listing);
    stopping := SupersededAt(o, In(StopBeforeBuild)).(progress := STOPPED);
    restoring := GivesUp(o, listing, stopping.(stage := At(ServiceAction), host := StoppedHost(o)));
  }

  lemma GivesUp(o: Origin, listing: seq<Id>, c: Cell) returns (c': Cell)
    requires Reachable(o, c) && c.stage == At(ServiceAction) && c.status == Some(Cancelled) && c.controller.None?
    requires Releases.Listing(c.host.store, listing) && !o.job.dryRun && c.lockAcquired && o.config.rollbackEnabled
    requires !o.config.strategy.ReleaseDirs?
    ensures Reachable(o, c')
    ensures c' == c.(stage := if IsServiceAffected(c.progress) then Undoing(RestoreCancelled) else Leaving)
  {
    CancelledActionMove(o, c, listing);
    CancelledCatchMove(o, c.(stage := Throwing), listing);
    c' := c.(stage := if IsServiceAffected(c.progress) then Undoing(RestoreCancelled) else Leaving);
  }

  /** A run superseded before it touched the service returns with its lock still in the table. */
  lemma ReturnsWithLock(o: Origin, listing: seq<Id>) returns (c: Cell)
    requires NewRun(o) && Releases.Listing(o.host.store, listing)
    requires o.config == Settings(InPlace, RestartService, false, [])
    ensures Reachable(o, c) && c.stage.Returned? && c.status == Some(Cancelled) && HoldsLock(c, o.job.id)
  {
    ReachesSuperseded(o, listing);
    ValidatedListing(o, listing);
    RefreshMove(o, SupersededAt(o, In(RefreshConfig)), listing);
    c := GivesUp(o, listing, SupersededAt(o, At(ServiceAction)));
    CancelledLeaveMove(o, c, listing);
    c := c.(stage := Returned);
  }

  lemma CancelledLeaveMove(o: Origin, c: Cell, listing: seq<Id>)
    requires Reachable(o, c) && c.stage == Leaving && c.status == Some(Cancelled) && c.controller.None?
    requires Releases.Listing(c.host.store, listing)
    ensures Reachable(o, c.(stage := Returned))
  {
    Goes(o, c, Fine(listing));
  }
}
