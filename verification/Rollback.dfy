/** Undoing a failed deployment (src/deployment/rollback-manager.ts). The host a deployment acts on is
    its working trees, its service and its release store; every external call is recorded. */
module Rollback {
  import opened Records
  import Releases

  datatype Dir = Live | Work

  /** A working tree: the commit it was last reset to (None when a call on it failed), and the commands run since. */
  datatype Tree = Tree(sha: Option<Sha>, ran: seq<string>)

  /** What the service runs: a version of the live tree, or the release `current` pointed to. */
  datatype Service = Serving(version: Tree) | ServingRelease(release: Option<Id>) | Stopped | Unclear

  /** A zero-downtime generation: what served before the first switch, or one that replaced another. */
  datatype Generation = Original | Next(number: nat, replaced: Generation)

  /** The generation that serves, and how often the traffic was really switched to a new one and really reverted. */
  datatype Generations = Generations(active: Generation, switches: nat, reverts: nat)

  function Switched(g: Generations): Generations
  {
    g.(active := Next(g.switches + 1, g.active), switches := g.switches + 1)
  }

  /** Back to the generation that the active one replaced, if there is one. */
  function Reverted(g: Generations): Generations
  {
    if g.active.Original? then g else g.(active := g.active.replaced, reverts := g.reverts + 1)
  }

  /** An external call. */
  datatype Call =
    | ResetHard(dir: Dir, sha: Sha)
    | CleanUntracked(dir: Dir)
    | Exec(dir: Dir, command: string)
    | SyncWorkToLive
    | StopService
    | ServiceCall(action: Action)
    | ServiceFromCurrent(action: Action)
    | DeployGeneration
    | RevertGeneration
    | WaitReady

  datatype Host = Host(
    live: Tree, work: Tree, service: Service, generations: Generations,
    store: Releases.Store, log: seq<Call>)

  function WithTree(host: Host, dir: Dir, tree: Tree): Host
  {
    match dir
    case Live => host.(live := tree)
    case Work => host.(work := tree)
  }

  function TreeOf(host: Host, dir: Dir): Tree
  {
    match dir
    case Live => host.live
    case Work => host.work
  }

  /** How a call ends: whether it returns normally, and for a generation call whether the traffic moved. The second does
      not follow from the first: a deploy may be simulated, only weighted, or fail after switching, and a revert returns
      normally when there is no viable previous generation. */
  datatype Result = Result(ok: bool, took: bool)

  /** The effect of a call that succeeds. */
  function Do(host: Host, call: Call): Host
  {
    var logged := host.(log := host.log + [call]);
    match call
    case ResetHard(dir, sha) => WithTree(logged, dir, Tree(Some(sha), []))
    case Exec(dir, command) =>
      var tree := TreeOf(host, dir);
      WithTree(logged, dir, tree.(ran := tree.ran + [command]))
    case SyncWorkToLive => logged.(live := host.work)
    case StopService => logged.(service := Stopped)
    case ServiceCall(_) => logged.(service := Serving(host.live))
    case ServiceFromCurrent(_) => logged.(service := ServingRelease(host.store.current))
    case _ => logged
  }

  /** The effect of a call that fails: what it worked on is left in an unknown condition. */
  function Spoil(host: Host, call: Call): Host
  {
    var logged := host.(log := host.log + [call]);
    match call
    case ResetHard(dir, _) => WithTree(logged, dir, Tree(None, []))
    case CleanUntracked(dir) => WithTree(logged, dir, Tree(None, []))
    case Exec(dir, _) => WithTree(logged, dir, Tree(None, []))
    case SyncWorkToLive => logged.(live := Tree(None, []))
    case StopService => logged.(service := Unclear)
    case ServiceCall(_) => logged.(service := Unclear)
    case ServiceFromCurrent(_) => logged.(service := Unclear)
    case _ => logged
  }

  /** Failures of a stop are ignored: the service may be stopped already. */
  predicate BestEffort(call: Call)
  {
    call.StopService?
  }

  function Attempt(host: Host, call: Call, r: Result): Host
  {
    var after := if r.ok then Do(host, call) else Spoil(host, call);
    if !r.took then after
    else if call.DeployGeneration? then after.(generations := Switched(host.generations))
    else if call.RevertGeneration? then after.(generations := Reverted(host.generations))
    else after
  }

  /** Outcomes of external calls, by their position in the log. */
  type Outcomes = nat -> Result

  /** Calls in order, up to the first failure that is not ignored. */
  function Perform(host: Host, plan: seq<Call>, outcome: Outcomes): (Host, bool)
    decreases |plan|
  {
    if plan == [] then (host, true)
    else
      var r := outcome(|host.log|);
      var next := Attempt(host, plan[0], r);
      if r.ok || BestEffort(plan[0]) then Perform(next, plan[1..], outcome) else (next, false)
  }

  function CommandsOf(steps: seq<CommandStep>, name: string): seq<string>
  {
    if steps == [] then []
    else if steps[0].name == name then steps[0].commands
    else CommandsOf(steps[1..], name)
  }

  function ExecAll(dir: Dir, commands: seq<string>): (calls: seq<Call>)
    ensures |calls| == |commands|
    ensures forall i :: 0 <= i < |calls| ==> calls[i] == Exec(dir, commands[i])
  {
    if commands == [] then [] else [Exec(dir, commands[0])] + ExecAll(dir, commands[1..])
  }

  function BuildDir(config: Config): Dir
  {
    if config.strategy.Isolated? then Work else Live
  }

  function ResetPlan(config: Config, prev: Sha): seq<Call>
  {
    [ResetHard(Live, prev), CleanUntracked(Live)]
    + if config.strategy.Isolated? then [ResetHard(Work, prev), CleanUntracked(Work)] else []
  }

  /** Install commands need the old process gone, unless it runs elsewhere. */
  function StopPlan(config: Config, serviceAffected: bool): seq<Call>
  {
    if CommandsOf(config.steps, "install") != [] && !IsZeroDowntimeEnabled(config) && !config.strategy.Isolated?
      && serviceAffected then [StopService] else []
  }

  function SyncPlan(config: Config): seq<Call>
  {
    if config.strategy.Isolated? then [SyncWorkToLive] else []
  }

  /** Files: back to the previous commit, installed and built again. */
  function FilePlan(config: Config, prev: Sha, serviceAffected: bool): seq<Call>
  {
    ResetPlan(config, prev) + (StopPlan(config, serviceAffected)
    + (ExecAll(BuildDir(config), CommandsOf(config.steps, "install"))
    + (ExecAll(BuildDir(config), CommandsOf(config.steps, "build")) + SyncPlan(config))))
  }

  function ServiceSwitch(config: Config, revertGeneration: bool): seq<Call>
  {
    if config.action.NoAction? then []
    else if !IsZeroDowntimeEnabled(config) then [ServiceCall(RestartService)]
    else if revertGeneration then [RevertGeneration]
    else []
  }

  function ReadyPlan(config: Config): seq<Call>
  {
    if config.readyChecks then [WaitReady] else []
  }

  /** The service: only when the failed deployment touched it. */
  function ServicePlan(config: Config, serviceAffected: bool, revertGeneration: bool): seq<Call>
  {
    if serviceAffected then ServiceSwitch(config, revertGeneration) + ReadyPlan(config) else []
  }

  function ShaPlan(config: Config, prev: Sha, serviceAffected: bool, revertGeneration: bool): seq<Call>
  {
    FilePlan(config, prev, serviceAffected) + ServicePlan(config, serviceAffected, revertGeneration)
  }

  /** Everything the SHA and generation paths do; with no previous SHA and no generation to revert, nothing. */
  function PlanFor(config: Config, prev: Option<Sha>, serviceAffected: bool, revertGeneration: bool): seq<Call>
  {
    match prev
    case Some(sha) => ShaPlan(config, sha, serviceAffected, revertGeneration)
    case None => if IsZeroDowntimeEnabled(config) && revertGeneration then [RevertGeneration] else []
  }

  function ReleaseSwitch(config: Config): seq<Call>
  {
    if config.action.NoAction? then [] else [ServiceFromCurrent(RestartService)]
  }

  /** After the symlink of a release deployment has been switched back. */
  function ReleasePlan(config: Config, serviceAffected: bool): seq<Call>
  {
    if serviceAffected then ReleaseSwitch(config) + ReadyPlan(config) else []
  }

  /** File system facts a release rollback meets: the listing, whether it can be read, whether `current` resolves to the
      listed path of its release, whether linking and removing succeed. */
  datatype Disk = Disk(listing: seq<Id>, readable: bool, resolves: bool, links: bool, removes: bool)

  /** The symlink part: None when there is nothing to switch to, or when reading or switching fails. */
  function Relinked(store: Releases.Store, failed: Id, disk: Disk): Option<Releases.Store>
    requires Releases.Listing(store, disk.listing)
  {
    if !disk.readable then None
    else match Releases.PreviousRelease(store, disk.listing, failed)
    case None => None
    case Some(previous) =>
      if !(Releases.IsCurrent(store, previous) && disk.resolves) && !disk.links then None
      else Some(Releases.RolledBackTo(store, previous, failed, disk.removes))
  }

  /** The release path: the host after it, and whether it settles the rollback. */
  function ReleasePath(
    config: Config, deploymentId: Id, serviceAffected: bool, host: Host, disk: Disk, outcome: Outcomes): (Host, bool)
    requires Releases.Listing(host.store, disk.listing)
  {
    match if config.strategy.ReleaseDirs? then Relinked(host.store, deploymentId, disk) else None
    case None => (host, false)
    case Some(store) => Perform(host.(store := store), ReleasePlan(config, serviceAffected), outcome)
  }

  /** The whole rollback: final host, and whether it returned normally. */
  function RolledBackHost(
    config: Config, prev: Option<Sha>, deploymentId: Id, serviceAffected: bool, revertGeneration: bool,
    host: Host, disk: Disk, outcome: Outcomes): (Host, bool)
    requires Releases.Listing(host.store, disk.listing)
  {
    var (after, settled) := ReleasePath(config, deploymentId, serviceAffected, host, disk, outcome);
    if settled then (after, true)
    else Perform(after, PlanFor(config, prev, serviceAffected, revertGeneration), outcome)
  }

  class RollbackManager {
    var host: Host

    constructor (host: Host)
      ensures this.host == host
    {
      this.host := host;
    }

    /** One external call; its result is the outcome at the current log position. */
    method Invoke(call: Call, outcome: Outcomes) returns (ok: bool)
      modifies this
      ensures ok == outcome(|old(host).log|).ok
      ensures host == Attempt(old(host), call, outcome(|old(host).log|))
    {
      var result := outcome(|host.log|);
      ok := result.ok;
      host := Attempt(host, call, result);
    }

    method RunCommands(dir: Dir, commands: seq<string>, outcome: Outcomes) returns (ok: bool)
      modifies this
      ensures (host, ok) == Perform(old(host), ExecAll(dir, commands), outcome)
    {
      var i := 0;
      ok := true;
      while i < |commands|
        invariant 0 <= i <= |commands|
        invariant Perform(old(host), ExecAll(dir, commands), outcome) == Perform(host, ExecAll(dir, commands[i..]), outcome)
      {
        assert ExecAll(dir, commands[i..])[1..] == ExecAll(dir, commands[i + 1..]);
        ok := Invoke(Exec(dir, commands[i]), outcome);
        if !ok {
          return;
        }
        i := i + 1;
      }
    }

    /** The `try` block of the SHA path, step by step; a failing step jumps to the RollbackError. */
    method RestoreSha(config: Config, prev: Sha, serviceAffected: bool, revertGeneration: bool, outcome: Outcomes)
      returns (ok: bool)
      modifies this
      ensures (host, ok) == Perform(old(host), ShaPlan(config, prev, serviceAffected, revertGeneration), outcome)
    {
      ok := RestoreFiles(config, prev, serviceAffected, outcome);
      PerformAppend(old(host), FilePlan(config, prev, serviceAffected),
        ServicePlan(config, serviceAffected, revertGeneration), outcome);
      if !ok {
        return;
      }
      ok := RestoreService(config, serviceAffected, revertGeneration, outcome);
    }

    method RestoreFiles(config: Config, prev: Sha, serviceAffected: bool, outcome: Outcomes) returns (ok: bool)
      modifies this
      ensures (host, ok) == Perform(old(host), FilePlan(config, prev, serviceAffected), outcome)
    {
      FileStages(host, config, prev, serviceAffected, outcome);
      var isIsolated := config.strategy.Isolated?;
      ok := ResetTrees(config, prev, outcome);
      if !ok {
        return;
      }
      var installCommands := CommandsOf(config.steps, "install");
      PerformOne(host, StopService, outcome);
      if installCommands != [] && !IsZeroDowntimeEnabled(config) && !isIsolated && serviceAffected {
        var _ := Invoke(StopService, outcome);
      }
      ok := RunCommands(BuildDir(config), installCommands, outcome);
      if !ok {
        return;
      }
      ok := RunCommands(BuildDir(config), CommandsOf(config.steps, "build"), outcome);
      if !ok {
        return;
      }
      PerformOne(host, SyncWorkToLive, outcome);
      if isIsolated {
        ok := Invoke(SyncWorkToLive, outcome);
      }
    }

    method ResetTrees(config: Config, prev: Sha, outcome: Outcomes) returns (ok: bool)
      modifies this
      ensures (host, ok) == Perform(old(host), ResetPlan(config, prev), outcome)
    {
      PerformAppend(host, [ResetHard(Live, prev), CleanUntracked(Live)],
        if config.strategy.Isolated? then [ResetHard(Work, prev), CleanUntracked(Work)] else [], outcome);
      ok := ResetAndClean(Live, prev, outcome);
      if ok && config.strategy.Isolated? {
        ok := ResetAndClean(Work, prev, outcome);
      }
    }

    method ResetAndClean(dir: Dir, sha: Sha, outcome: Outcomes) returns (ok: bool)
      modifies this
      ensures (host, ok) == Perform(old(host), [ResetHard(dir, sha), CleanUntracked(dir)], outcome)
    {
      PerformCons(host, ResetHard(dir, sha), [CleanUntracked(dir)], outcome);
      ok := Invoke(ResetHard(dir, sha), outcome);
      if ok {
        PerformOne(host, CleanUntracked(dir), outcome);
        ok := Invoke(CleanUntracked(dir), outcome);
      }
    }

    method RestoreService(config: Config, serviceAffected: bool, revertGeneration: bool, outcome: Outcomes)
      returns (ok: bool)
      modifies this
      ensures (host, ok) == Perform(old(host), ServicePlan(config, serviceAffected, revertGeneration), outcome)
      ensures ok && serviceAffected && config.readyChecks ==>
        var waits := |host.log| - 1;
        waits >= |old(host).log| && host.log[waits] == WaitReady && outcome(waits).ok
    {
      ok := true;
      if !serviceAffected {
        return;
      }
      PerformAppend(host, ServiceSwitch(config, revertGeneration), ReadyPlan(config), outcome);
      if !config.action.NoAction? {
        if IsZeroDowntimeEnabled(config) {
          if revertGeneration {
            PerformOne(host, RevertGeneration, outcome);
            ok := Invoke(RevertGeneration, outcome);
          }
        } else {
          PerformOne(host, ServiceCall(RestartService), outcome);
          ok := Invoke(ServiceCall(RestartService), outcome);
        }
      }
      if ok && config.readyChecks {
        PerformOne(host, WaitReady, outcome);
        assert |host.log| >= |old(host).log|;
        ok := Invoke(WaitReady, outcome);
      }
    }

    method RestoreReleaseService(config: Config, serviceAffected: bool, outcome: Outcomes) returns (ok: bool)
      modifies this
      ensures (host, ok) == Perform(old(host), ReleasePlan(config, serviceAffected), outcome)
    {
      ok := true;
      if !serviceAffected {
        return;
      }
      PerformAppend(host, ReleaseSwitch(config), ReadyPlan(config), outcome);
      if !config.action.NoAction? {
        PerformOne(host, ServiceFromCurrent(RestartService), outcome);
        ok := Invoke(ServiceFromCurrent(RestartService), outcome);
      }
      if ok && config.readyChecks {
        PerformOne(host, WaitReady, outcome);
        ok := Invoke(WaitReady, outcome);
      }
    }

    /** Points `current` at the newest other release and drops the failed directory. */
    method RelinkRelease(deploymentId: Id, disk: Disk) returns (relinked: bool)
      requires Releases.Listing(host.store, disk.listing)
      modifies this
      ensures match Relinked(old(host).store, deploymentId, disk)
        case None => !relinked && host == old(host)
        case Some(store) => relinked && host == old(host).(store := store)
    {
      if !disk.readable {
        return false;
      }
      var entries := Releases.SortNewestFirst(host.store.releases, Releases.Without(disk.listing, deploymentId));
      if entries == [] {
        return false;
      }
      var previousRelease := entries[0];
      var store := host.store;
      var activeTarget := if disk.resolves && Releases.IsCurrent(store, previousRelease) then store.current else None;
      if activeTarget != Some(previousRelease) {
        if !disk.links {
          return false;
        }
        store := Releases.Activated(store, previousRelease);
      }
      if disk.removes {
        store := store.(releases := store.releases - {deploymentId});
      }
      host := host.(store := store);
      relinked := true;
    }

    /** `ok` is false when the method throws. */
    method Rollback(
      config: Config, previousSuccessfulSha: Option<Sha>, deploymentId: Id,
      serviceAffected: bool, revertGeneration: bool, disk: Disk, outcome: Outcomes) returns (ok: bool)
      requires Releases.Listing(host.store, disk.listing)
      modifies this
      ensures (host, ok) == RolledBackHost(config, previousSuccessfulSha, deploymentId, serviceAffected,
                                           revertGeneration, old(host), disk, outcome)
    {
      if config.strategy.ReleaseDirs? {
        var relinked := RelinkRelease(deploymentId, disk);
        if relinked {
          ok := RestoreReleaseService(config, serviceAffected, outcome);
          if ok {
            return;
          }
        }
      }
      ok := RestorePrevious(config, previousSuccessfulSha, serviceAffected, revertGeneration, outcome);
    }

    method RestorePrevious(
      config: Config, previousSuccessfulSha: Option<Sha>, serviceAffected: bool, revertGeneration: bool,
      outcome: Outcomes) returns (ok: bool)
      modifies this
      ensures (host, ok) == Perform(old(host),
        PlanFor(config, previousSuccessfulSha, serviceAffected, revertGeneration), outcome)
    {
      if previousSuccessfulSha.None? {
        ok := true;
        if IsZeroDowntimeEnabled(config) && revertGeneration {
          PerformOne(host, RevertGeneration, outcome);
          ok := Invoke(RevertGeneration, outcome);
        }
        return;
      }
      ok := RestoreSha(config, previousSuccessfulSha.value, serviceAffected, revertGeneration, outcome);
    }
  }

  lemma {:induction false} PerformAppend(host: Host, first: seq<Call>, second: seq<Call>, outcome: Outcomes)
    ensures var (middle, ok) := Perform(host, first, outcome);
      Perform(host, first + second, outcome) == if ok then Perform(middle, second, outcome) else (middle, false)
    decreases |first|
  {
    if first == [] {
      assert first + second == second;
    } else {
      assert (first + second)[1..] == first[1..] + second;
      PerformAppend(Attempt(host, first[0], outcome(|host.log|)), first[1..], second, outcome);
    }
  }

  lemma PerformCons(host: Host, call: Call, rest: seq<Call>, outcome: Outcomes)
    ensures var r := outcome(|host.log|);
      var next := Attempt(host, call, r);
      Perform(host, [call] + rest, outcome)
        == if r.ok || BestEffort(call) then Perform(next, rest, outcome) else (next, false)
  {
    assert ([call] + rest)[1..] == rest;
  }

  lemma PerformOne(host: Host, call: Call, outcome: Outcomes)
    ensures var r := outcome(|host.log|);
      Perform(host, [call], outcome) == (Attempt(host, call, r), r.ok || BestEffort(call))
  {
    assert [call] + [] == [call];
    PerformCons(host, call, [], outcome);
  }

  /** The stages of the file plan, in order. */
  lemma FileStages(host: Host, config: Config, prev: Sha, serviceAffected: bool, outcome: Outcomes)
    ensures Perform(host, FilePlan(config, prev, serviceAffected), outcome) ==
      var (h1, reset) := Perform(host, ResetPlan(config, prev), outcome);
      if !reset then (h1, false) else
      var h2 := Perform(h1, StopPlan(config, serviceAffected), outcome).0;
      var (h3, installed) := Perform(h2, ExecAll(BuildDir(config), CommandsOf(config.steps, "install")), outcome);
      if !installed then (h3, false) else
      var (h4, built) := Perform(h3, ExecAll(BuildDir(config), CommandsOf(config.steps, "build")), outcome);
      if !built then (h4, false) else Perform(h4, SyncPlan(config), outcome)
  {
    var sync := SyncPlan(config);
    var builds := ExecAll(BuildDir(config), CommandsOf(config.steps, "build")) + sync;
    var installs := ExecAll(BuildDir(config), CommandsOf(config.steps, "install")) + builds;
    var h1 := Perform(host, ResetPlan(config, prev), outcome).0;
    PerformAppend(host, ResetPlan(config, prev), StopPlan(config, serviceAffected) + installs, outcome);
    PerformAppend(h1, StopPlan(config, serviceAffected), installs, outcome);
    PerformOne(h1, StopService, outcome);
    var h2 := Perform(h1, StopPlan(config, serviceAffected), outcome).0;
    PerformAppend(h2, ExecAll(BuildDir(config), CommandsOf(config.steps, "install")), builds, outcome);
    var h3 := Perform(h2, ExecAll(BuildDir(config), CommandsOf(config.steps, "install")), outcome).0;
    PerformAppend(h3, ExecAll(BuildDir(config), CommandsOf(config.steps, "build")), sync, outcome);
  }

  // What a rollback achieves

  lemma {:induction false} PerformCommands(host: Host, dir: Dir, commands: seq<string>, outcome: Outcomes)
    requires Perform(host, ExecAll(dir, commands), outcome).1
    ensures var after := Perform(host, ExecAll(dir, commands), outcome).0;
      after == WithTree(host, dir, TreeOf(host, dir).(ran := TreeOf(host, dir).ran + commands)).(log := after.log)
    decreases |commands|
  {
    if commands == [] {
      assert TreeOf(host, dir).ran + commands == TreeOf(host, dir).ran;
    } else {
      PerformCons(host, Exec(dir, commands[0]), ExecAll(dir, commands[1..]), outcome);
      var next := Do(host, Exec(dir, commands[0]));
      PerformCommands(next, dir, commands[1..], outcome);
      AppendCommand(TreeOf(host, dir).ran, commands);
      match dir
      case Live =>
      case Work =>
    }
  }

  lemma AppendCommand(ran: seq<string>, commands: seq<string>)
    requires commands != []
    ensures ran + [commands[0]] + commands[1..] == ran + commands
  {
  }

  /** The tree a successful restoration leaves: the previous commit with install and build run on it, in order. */
  function RebuiltTree(config: Config, prev: Sha): Tree
  {
    Tree(Some(prev), CommandsOf(config.steps, "install") + CommandsOf(config.steps, "build"))
  }

  /** Restoring the files rebuilds the live tree at the previous commit and, except for a stop, leaves the service alone. */
  lemma FilesRestored(host: Host, config: Config, prev: Sha, serviceAffected: bool, outcome: Outcomes)
    requires Perform(host, FilePlan(config, prev, serviceAffected), outcome).1
    ensures var after := Perform(host, FilePlan(config, prev, serviceAffected), outcome).0;
      && after.live == RebuiltTree(config, prev)
      && after.generations == host.generations && after.store == host.store
      && (!serviceAffected || IsZeroDowntimeEnabled(config) ==> after.service == host.service)
  {
    FileStages(host, config, prev, serviceAffected, outcome);
    ResetsDone(host, config, prev, outcome);
    var h1 := Perform(host, ResetPlan(config, prev), outcome).0;
    PerformOne(h1, StopService, outcome);
    var h2 := Perform(h1, StopPlan(config, serviceAffected), outcome).0;
    var install, build := CommandsOf(config.steps, "install"), CommandsOf(config.steps, "build");
    CommandsDone(h2, config, install, build, outcome);
    var h3 := Perform(h2, ExecAll(BuildDir(config), install), outcome).0;
    var h4 := Perform(h3, ExecAll(BuildDir(config), build), outcome).0;
    PerformOne(h4, SyncWorkToLive, outcome);
  }

  lemma CommandsDone(host: Host, config: Config, install: seq<string>, build: seq<string>, outcome: Outcomes)
    requires TreeOf(host, BuildDir(config)).ran == []
    ensures var (h3, installed) := Perform(host, ExecAll(BuildDir(config), install), outcome);
      var (h4, built) := Perform(h3, ExecAll(BuildDir(config), build), outcome);
      installed && built ==>
        var dir := BuildDir(config);
        h4 == WithTree(host, dir, Tree(TreeOf(host, dir).sha, install + build)).(log := h4.log)
  {
    var dir := BuildDir(config);
    var (h3, installed) := Perform(host, ExecAll(dir, install), outcome);
    var (h4, built) := Perform(h3, ExecAll(dir, build), outcome);
    if installed && built {
      PerformCommands(host, dir, install, outcome);
      PerformCommands(h3, dir, build, outcome);
      assert [] + install == install;
    }
  }

  lemma ResetsDone(host: Host, config: Config, prev: Sha, outcome: Outcomes)
    ensures var (after, ok) := Perform(host, ResetPlan(config, prev), outcome);
      ok ==> after == host.(live := Tree(Some(prev), []),
        work := if config.strategy.Isolated? then Tree(Some(prev), []) else host.work, log := after.log)
  {
    var first := [ResetHard(Live, prev), CleanUntracked(Live)];
    PerformAppend(host, first,
      if config.strategy.Isolated? then [ResetHard(Work, prev), CleanUntracked(Work)] else [], outcome);
    ResetDone(host, Live, prev, outcome);
    ResetDone(Perform(host, first, outcome).0, Work, prev, outcome);
  }

  lemma ResetDone(host: Host, dir: Dir, prev: Sha, outcome: Outcomes)
    ensures var (after, ok) := Perform(host, [ResetHard(dir, prev), CleanUntracked(dir)], outcome);
      ok ==> after == WithTree(host, dir, Tree(Some(prev), [])).(log := after.log)
  {
    PerformCons(host, ResetHard(dir, prev), [CleanUntracked(dir)], outcome);
    PerformOne(Attempt(host, ResetHard(dir, prev), outcome(|host.log|)), CleanUntracked(dir), outcome);
  }

  /** Compensation, outside zero-downtime mode: files at the previous commit and rebuilt, and the service restarted on
      them exactly when the deployment had affected it. */
  lemma ShaRollbackCompensates(
    host: Host, config: Config, prev: Sha, serviceAffected: bool, revertGeneration: bool, outcome: Outcomes)
    requires !IsZeroDowntimeEnabled(config) && !config.action.NoAction?
    requires Perform(host, ShaPlan(config, prev, serviceAffected, revertGeneration), outcome).1
    ensures var after := Perform(host, ShaPlan(config, prev, serviceAffected, revertGeneration), outcome).0;
      && after.live == RebuiltTree(config, prev)
      && after.service == (if serviceAffected then Serving(RebuiltTree(config, prev)) else host.service)
      && after.generations == host.generations && after.store == host.store
  {
    PerformAppend(host, FilePlan(config, prev, serviceAffected),
      ServicePlan(config, serviceAffected, revertGeneration), outcome);
    FilesRestored(host, config, prev, serviceAffected, outcome);
    var files := Perform(host, FilePlan(config, prev, serviceAffected), outcome).0;
    ServiceDone(files, config, serviceAffected, revertGeneration, outcome);
  }

  lemma ServiceDone(host: Host, config: Config, serviceAffected: bool, revertGeneration: bool, outcome: Outcomes)
    requires !IsZeroDowntimeEnabled(config) && !config.action.NoAction?
    ensures var (after, ok) := Perform(host, ServicePlan(config, serviceAffected, revertGeneration), outcome);
      ok ==> after == host.(service := if serviceAffected then Serving(host.live) else host.service, log := after.log)
  {
    if serviceAffected {
      PerformAppend(host, [ServiceCall(RestartService)], ReadyPlan(config), outcome);
      PerformOne(host, ServiceCall(RestartService), outcome);
      PerformOne(Perform(host, [ServiceCall(RestartService)], outcome).0, WaitReady, outcome);
    }
  }

  // Which calls a rollback can make at all

  /** The log only grows, by calls of the plan. */
  lemma {:induction false} PerformLogs(host: Host, plan: seq<Call>, outcome: Outcomes)
    ensures var after := Perform(host, plan, outcome).0;
      && host.log <= after.log
      && forall i :: |host.log| <= i < |after.log| ==> after.log[i] in plan
    decreases |plan|
  {
    if plan != [] {
      var next := Attempt(host, plan[0], outcome(|host.log|));
      PerformLogs(next, plan[1..], outcome);
      var after := Perform(host, plan, outcome).0;
      if |after.log| > |host.log| {
        assert after.log[|host.log|] == next.log[|host.log|] == plan[0];
      }
    }
  }

  /** Every call of a whole rollback is one its paths allow: a generation is reverted only on request, and the service
      is stopped or restarted only when the failed deployment had affected it, and not with action `none`. */
  predicate Allowed(config: Config, serviceAffected: bool, revertGeneration: bool, call: Call)
  {
    match call
    case RevertGeneration => revertGeneration && IsZeroDowntimeEnabled(config)
    case ServiceCall(action) => serviceAffected && action == RestartService && !config.action.NoAction?
    case ServiceFromCurrent(action) => serviceAffected && action == RestartService && !config.action.NoAction?
    case StopService => serviceAffected && !IsZeroDowntimeEnabled(config)
    case DeployGeneration => false
    case _ => true
  }

  ghost predicate AllAllowed(config: Config, serviceAffected: bool, revertGeneration: bool, plan: seq<Call>)
  {
    forall call :: call in plan ==> Allowed(config, serviceAffected, revertGeneration, call)
  }

  lemma AppendAllowed(config: Config, serviceAffected: bool, revertGeneration: bool, first: seq<Call>, second: seq<Call>)
    requires AllAllowed(config, serviceAffected, revertGeneration, first)
    requires AllAllowed(config, serviceAffected, revertGeneration, second)
    ensures AllAllowed(config, serviceAffected, revertGeneration, first + second)
  {
  }

  lemma CommandsAllowed(config: Config, serviceAffected: bool, revertGeneration: bool, dir: Dir, commands: seq<string>)
    ensures AllAllowed(config, serviceAffected, revertGeneration, ExecAll(dir, commands))
  {
  }

  lemma FilePlanAllowed(config: Config, prev: Sha, serviceAffected: bool, revertGeneration: bool)
    ensures AllAllowed(config, serviceAffected, revertGeneration, FilePlan(config, prev, serviceAffected))
  {
    var installs := ExecAll(BuildDir(config), CommandsOf(config.steps, "install"));
    var builds := ExecAll(BuildDir(config), CommandsOf(config.steps, "build"));
    CommandsAllowed(config, serviceAffected, revertGeneration, BuildDir(config), CommandsOf(config.steps, "install"));
    CommandsAllowed(config, serviceAffected, revertGeneration, BuildDir(config), CommandsOf(config.steps, "build"));
    AppendAllowed(config, serviceAffected, revertGeneration, builds, SyncPlan(config));
    AppendAllowed(config, serviceAffected, revertGeneration, installs, builds + SyncPlan(config));
    FirstPlansAllowed(config, prev, serviceAffected, revertGeneration);
    AppendAllowed(config, serviceAffected, revertGeneration,
      StopPlan(config, serviceAffected), installs + (builds + SyncPlan(config)));
    AppendAllowed(config, serviceAffected, revertGeneration,
      ResetPlan(config, prev), StopPlan(config, serviceAffected) + (installs + (builds + SyncPlan(config))));
  }

  lemma FirstPlansAllowed(config: Config, prev: Sha, serviceAffected: bool, revertGeneration: bool)
    ensures AllAllowed(config, serviceAffected, revertGeneration, ResetPlan(config, prev))
    ensures AllAllowed(config, serviceAffected, revertGeneration, StopPlan(config, serviceAffected))
  {
  }

  lemma PlanAllowed(config: Config, prev: Option<Sha>, serviceAffected: bool, revertGeneration: bool)
    ensures AllAllowed(config, serviceAffected, revertGeneration, PlanFor(config, prev, serviceAffected, revertGeneration))
  {
    if prev.Some? {
      FilePlanAllowed(config, prev.value, serviceAffected, revertGeneration);
      AppendAllowed(config, serviceAffected, revertGeneration,
        FilePlan(config, prev.value, serviceAffected), ServicePlan(config, serviceAffected, revertGeneration));
    }
  }

  lemma RolledBackCalls(
    config: Config, prev: Option<Sha>, deploymentId: Id, serviceAffected: bool, revertGeneration: bool,
    host: Host, disk: Disk, outcome: Outcomes)
    requires Releases.Listing(host.store, disk.listing)
    ensures var after := RolledBackHost(config, prev, deploymentId, serviceAffected, revertGeneration, host, disk, outcome).0;
      host.log <= after.log && AllAllowed(config, serviceAffected, revertGeneration, after.log[|host.log|..])
  {
    var (start, settled) := ReleasePath(config, deploymentId, serviceAffected, host, disk, outcome);
    ReleasePathCalls(config, deploymentId, serviceAffected, revertGeneration, host, disk, outcome);
    if !settled {
      var plan := PlanFor(config, prev, serviceAffected, revertGeneration);
      PlanAllowed(config, prev, serviceAffected, revertGeneration);
      PlanCalls(config, serviceAffected, revertGeneration, start, plan, outcome);
      var after := Perform(start, plan, outcome).0;
      assert after.log[|host.log|..] == start.log[|host.log|..] + after.log[|start.log|..];
      AppendAllowed(config, serviceAffected, revertGeneration, start.log[|host.log|..], after.log[|start.log|..]);
    }
  }

  lemma ReleasePathCalls(
    config: Config, deploymentId: Id, serviceAffected: bool, revertGeneration: bool,
    host: Host, disk: Disk, outcome: Outcomes)
    requires Releases.Listing(host.store, disk.listing)
    ensures var after := ReleasePath(config, deploymentId, serviceAffected, host, disk, outcome).0;
      host.log <= after.log && AllAllowed(config, serviceAffected, revertGeneration, after.log[|host.log|..])
  {
    var relinked := if config.strategy.ReleaseDirs? then Relinked(host.store, deploymentId, disk) else None;
    if relinked.Some? {
      PlanCalls(config, serviceAffected, revertGeneration, host.(store := relinked.value),
        ReleasePlan(config, serviceAffected), outcome);
    }
  }

  lemma PlanCalls(
    config: Config, serviceAffected: bool, revertGeneration: bool, host: Host, plan: seq<Call>, outcome: Outcomes)
    requires AllAllowed(config, serviceAffected, revertGeneration, plan)
    ensures var after := Perform(host, plan, outcome).0;
      host.log <= after.log && AllAllowed(config, serviceAffected, revertGeneration, after.log[|host.log|..])
  {
    PerformLogs(host, plan, outcome);
    var after := Perform(host, plan, outcome).0;
    var calls := after.log[|host.log|..];
    forall call | call in calls
      ensures call in plan
    {
      var i :| 0 <= i < |calls| && calls[i] == call;
      assert after.log[|host.log| + i] == call;
    }
  }

  // The release store

  lemma {:induction false} PerformKeepsStore(host: Host, plan: seq<Call>, outcome: Outcomes)
    ensures Perform(host, plan, outcome).0.store == host.store
    decreases |plan|
  {
    if plan != [] {
      PerformKeepsStore(Attempt(host, plan[0], outcome(|host.log|)), plan[1..], outcome);
    }
  }

  /** A rollback changes the store only by relinking. */
  lemma RolledBackStore(
    config: Config, prev: Option<Sha>, deploymentId: Id, serviceAffected: bool, revertGeneration: bool,
    host: Host, disk: Disk, outcome: Outcomes)
    requires Releases.Listing(host.store, disk.listing)
    ensures RolledBackHost(config, prev, deploymentId, serviceAffected, revertGeneration, host, disk, outcome).0.store
      == match if config.strategy.ReleaseDirs? then Relinked(host.store, deploymentId, disk) else None
         case None => host.store
         case Some(store) => store
  {
    var relinked := if config.strategy.ReleaseDirs? then Relinked(host.store, deploymentId, disk) else None;
    var start := ReleasePath(config, deploymentId, serviceAffected, host, disk, outcome).0;
    if relinked.Some? {
      PerformKeepsStore(host.(store := relinked.value), ReleasePlan(config, serviceAffected), outcome);
    }
    PerformKeepsStore(start, PlanFor(config, prev, serviceAffected, revertGeneration), outcome);
  }

  /** No rollback, complete or not, leaves `current` dangling. */
  lemma RolledBackStoreSafe(
    config: Config, prev: Option<Sha>, deploymentId: Id, serviceAffected: bool, revertGeneration: bool,
    host: Host, disk: Disk, outcome: Outcomes)
    requires Releases.Safe(host.store) && Releases.Listing(host.store, disk.listing)
    ensures Releases.Safe(
      RolledBackHost(config, prev, deploymentId, serviceAffected, revertGeneration, host, disk, outcome).0.store)
  {
    RolledBackStore(config, prev, deploymentId, serviceAffected, revertGeneration, host, disk, outcome);
    Releases.ApplyIsSafe(host.store, Releases.Op.Rollback(disk.listing, deploymentId, disk.removes));
  }

  /** A rollback creates no release. */
  lemma RolledBackKeepsReleases(
    config: Config, prev: Option<Sha>, deploymentId: Id, serviceAffected: bool, revertGeneration: bool,
    host: Host, disk: Disk, outcome: Outcomes)
    requires Releases.Listing(host.store, disk.listing)
    ensures var after := RolledBackHost(config, prev, deploymentId, serviceAffected, revertGeneration, host, disk, outcome).0;
      after.store.releases.Keys <= host.store.releases.Keys
  {
    RolledBackStore(config, prev, deploymentId, serviceAffected, revertGeneration, host, disk, outcome);
  }
}
