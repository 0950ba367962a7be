/** What a rollback does to the service, to the zero-downtime generations and to `current`, whatever it returns
    (src/deployment/rollback-manager.ts). */
module RollbackEffects {
  import opened Records
  import opened Rollback
  import Releases

  /** The calls made between two states. */
  function CallsBetween(before: Host, after: Host): seq<Call>
    requires before.log <= after.log
  {
    after.log[|before.log|..]
  }

  /** A plan that is performed without a failure is performed completely. */
  lemma {:induction false} PerformedAll(host: Host, plan: seq<Call>, outcome: Outcomes)
    requires Perform(host, plan, outcome).1
    ensures Perform(host, plan, outcome).0.log == host.log + plan
    decreases |plan|
  {
    if plan == [] {
      assert host.log + plan == host.log;
    } else {
      PerformedAll(Attempt(host, plan[0], outcome(|host.log|)), plan[1..], outcome);
      assert host.log + [plan[0]] + plan[1..] == host.log + plan;
    }
  }

  // Readiness

  /** Nothing that had to succeed has failed. */
  lemma {:induction false} PerformedOk(host: Host, plan: seq<Call>, outcome: Outcomes)
    requires Perform(host, plan, outcome).1
    ensures forall i :: 0 <= i < |plan| && !BestEffort(plan[i]) ==> outcome(|host.log| + i).ok
    decreases |plan|
  {
    if plan != [] {
      PerformedOk(Attempt(host, plan[0], outcome(|host.log|)), plan[1..], outcome);
      forall i | 0 <= i < |plan| && !BestEffort(plan[i])
        ensures outcome(|host.log| + i).ok
      {
        if i > 0 {
          assert plan[1..][i - 1] == plan[i];
          assert outcome(|host.log| + 1 + (i - 1)).ok;
        }
      }
    }
  }

  /** The last call made between two states is a readiness wait, and it succeeded. */
  ghost predicate EndsReady(before: Host, after: Host, outcome: Outcomes)
  {
    && before.log < after.log
    && after.log[|after.log| - 1] == WaitReady && outcome(|after.log| - 1).ok
  }

  /** The call just before the last one, made between two states and successful. */
  ghost predicate WaitFollows(before: Host, after: Host, call: Call, outcome: Outcomes)
  {
    && before.log < after.log && |before.log| <= |after.log| - 2
    && after.log[|after.log| - 2] == call && outcome(|after.log| - 2).ok
  }

  /** When an affected service is served from the newest other release and ready there. */
  ghost predicate ReleaseReady(config: Config, deploymentId: Id, host: Host, disk: Disk, outcome: Outcomes)
    requires Releases.Listing(host.store, disk.listing)
  {
    var waits := |host.log| + if config.action.NoAction? then 0 else 1;
    && config.strategy.ReleaseDirs? && CanRelink(host.store, deploymentId, disk)
    && (!config.action.NoAction? ==> outcome(|host.log|).ok)
    && (config.readyChecks ==> outcome(waits).ok)
  }

  lemma ReleaseSettles(config: Config, deploymentId: Id, host: Host, disk: Disk, outcome: Outcomes)
    requires Releases.Listing(host.store, disk.listing)
    ensures ReleasePath(config, deploymentId, true, host, disk, outcome).1
      <==> ReleaseReady(config, deploymentId, host, disk, outcome)
  {
    if config.strategy.ReleaseDirs? {
      if config.action.NoAction? {
        ReleasePathWaits(config, deploymentId, true, host, disk, outcome);
      } else if CanRelink(host.store, deploymentId, disk) {
        ReleasePathServes(config, deploymentId, true, host, disk, outcome);
      }
    }
  }

  /** A plan that ends with a readiness wait, performed without a failure. */
  lemma PlanEndsReady(host: Host, plan: seq<Call>, outcome: Outcomes)
    requires Perform(host, plan, outcome).1 && plan != [] && plan[|plan| - 1] == WaitReady
    ensures var after := Perform(host, plan, outcome).0;
      && EndsReady(host, after, outcome)
      && (|plan| >= 2 && !BestEffort(plan[|plan| - 2]) ==> WaitFollows(host, after, plan[|plan| - 2], outcome))
  {
    PerformedAll(host, plan, outcome);
    PerformedOk(host, plan, outcome);
    var after := Perform(host, plan, outcome).0;
    assert after.log[|after.log| - 1] == plan[|plan| - 1];
    assert outcome(|host.log| + (|plan| - 1)).ok;
    if |plan| >= 2 && !BestEffort(plan[|plan| - 2]) {
      assert after.log[|after.log| - 2] == plan[|plan| - 2];
      assert outcome(|host.log| + (|plan| - 2)).ok;
    }
  }

  lemma NeverWaits(host: Host, plan: seq<Call>, outcome: Outcomes)
    requires Perform(host, plan, outcome).1 && WaitReady !in plan
    ensures !EndsReady(host, Perform(host, plan, outcome).0, outcome)
  {
    PerformedAll(host, plan, outcome);
    var after := Perform(host, plan, outcome).0;
    if plan != [] {
      assert after.log[|after.log| - 1] == plan[|plan| - 1];
    }
  }

  /** The commit path with the service affected. */
  lemma CommitPathReady(host: Host, config: Config, prev: Sha, revertGeneration: bool, outcome: Outcomes)
    requires Perform(host, ShaPlan(config, prev, true, revertGeneration), outcome).1 && config.readyChecks
    ensures var after := Perform(host, ShaPlan(config, prev, true, revertGeneration), outcome).0;
      && EndsReady(host, after, outcome)
      && (!config.action.NoAction? && (!IsZeroDowntimeEnabled(config) || revertGeneration) ==>
            WaitFollows(host, after,
              if IsZeroDowntimeEnabled(config) then RevertGeneration else ServiceCall(RestartService), outcome))
  {
    PlanEndsReady(host, ShaPlan(config, prev, true, revertGeneration), outcome);
  }

  lemma FilesNeverWait(config: Config, prev: Sha, serviceAffected: bool)
    ensures WaitReady !in FilePlan(config, prev, serviceAffected)
  {
    var installs := ExecAll(BuildDir(config), CommandsOf(config.steps, "install"));
    var builds := ExecAll(BuildDir(config), CommandsOf(config.steps, "build"));
    assert WaitReady !in installs && WaitReady !in builds;
    assert WaitReady !in ResetPlan(config, prev) && WaitReady !in StopPlan(config, serviceAffected);
  }

  /** A rollback that returns normally ends with a successful readiness wait exactly when there are readiness checks, the
      failed deployment affected the service, and there was something to restore: a previous commit, or the release path. */
  lemma ReadyAfterRollback(
    config: Config, prev: Option<Sha>, deploymentId: Id, serviceAffected: bool, revertGeneration: bool,
    host: Host, disk: Disk, outcome: Outcomes)
    requires Releases.Listing(host.store, disk.listing)
    requires RolledBackHost(config, prev, deploymentId, serviceAffected, revertGeneration, host, disk, outcome).1
    ensures var after := RolledBackHost(config, prev, deploymentId, serviceAffected, revertGeneration, host, disk, outcome).0;
      EndsReady(host, after, outcome) <==>
        && config.readyChecks && serviceAffected
        && (prev.Some? || ReleaseReady(config, deploymentId, host, disk, outcome))
  {
    var (start, settled) := ReleasePath(config, deploymentId, serviceAffected, host, disk, outcome);
    if serviceAffected {
      ReleaseSettles(config, deploymentId, host, disk, outcome);
    }
    ReleasePathReady(config, deploymentId, serviceAffected, host, disk, outcome);
    if !settled {
      PathReady(start, config, prev, serviceAffected, revertGeneration, outcome);
      ReadyComposes(host, start,
        Perform(start, PlanFor(config, prev, serviceAffected, revertGeneration), outcome).0, outcome);
    }
  }

  lemma ReadyComposes(a: Host, b: Host, c: Host, outcome: Outcomes)
    requires a.log <= b.log <= c.log
    ensures EndsReady(a, c, outcome) <==> if b.log < c.log then EndsReady(b, c, outcome) else EndsReady(a, b, outcome)
  {
  }

  lemma {:induction false} FailsLast(host: Host, plan: seq<Call>, outcome: Outcomes)
    requires !Perform(host, plan, outcome).1
    ensures var after := Perform(host, plan, outcome).0;
      |after.log| > |host.log| && !outcome(|after.log| - 1).ok && !BestEffort(after.log[|after.log| - 1])
    decreases |plan|
  {
    if outcome(|host.log|).ok || BestEffort(plan[0]) {
      FailsLast(Attempt(host, plan[0], outcome(|host.log|)), plan[1..], outcome);
    }
  }

  lemma PlanThrows(host: Host, plan: seq<Call>, outcome: Outcomes)
    requires !Perform(host, plan, outcome).1
    ensures var after := Perform(host, plan, outcome).0;
      && host.log < after.log
      && !outcome(|after.log| - 1).ok && after.log[|after.log| - 1] != StopService
  {
    PerformLogs(host, plan, outcome);
    FailsLast(host, plan, outcome);
  }

  /** A rollback throws only over its last call: that one failed, and it was not a stop. */
  lemma ThrowsOverLastCall(
    config: Config, prev: Option<Sha>, deploymentId: Id, serviceAffected: bool, revertGeneration: bool,
    host: Host, disk: Disk, outcome: Outcomes)
    requires Releases.Listing(host.store, disk.listing)
    requires !RolledBackHost(config, prev, deploymentId, serviceAffected, revertGeneration, host, disk, outcome).1
    ensures var after := RolledBackHost(config, prev, deploymentId, serviceAffected, revertGeneration, host, disk, outcome).0;
      && host.log < after.log
      && !outcome(|after.log| - 1).ok && after.log[|after.log| - 1] != StopService
  {
    var start := ReleasePath(config, deploymentId, serviceAffected, host, disk, outcome).0;
    ReleasePathStopsNothing(config, deploymentId, serviceAffected, host, disk, outcome);
    PlanThrows(start, PlanFor(config, prev, serviceAffected, revertGeneration), outcome);
  }

  /** A tree that a commit rollback works on is first reset to the commit and then cleaned of what is not in it. */
  lemma ResetsAreCleaned(
    host: Host, config: Config, prev: Sha, serviceAffected: bool, revertGeneration: bool, outcome: Outcomes)
    requires Perform(host, PlanFor(config, Some(prev), serviceAffected, revertGeneration), outcome).1
    ensures var log := Perform(host, PlanFor(config, Some(prev), serviceAffected, revertGeneration), outcome).0.log;
      && host.log + [ResetHard(Live, prev), CleanUntracked(Live)] <= log
      && (config.strategy.Isolated? ==>
            host.log + [ResetHard(Live, prev), CleanUntracked(Live), ResetHard(Work, prev), CleanUntracked(Work)] <= log)
  {
    PerformedAll(host, PlanFor(config, Some(prev), serviceAffected, revertGeneration), outcome);
    PlanResetsFirst(config, prev, serviceAffected, revertGeneration);
  }

  lemma PlanResetsFirst(config: Config, prev: Sha, serviceAffected: bool, revertGeneration: bool)
    ensures var plan := PlanFor(config, Some(prev), serviceAffected, revertGeneration);
      && [ResetHard(Live, prev), CleanUntracked(Live)] <= plan
      && (config.strategy.Isolated? ==>
            [ResetHard(Live, prev), CleanUntracked(Live), ResetHard(Work, prev), CleanUntracked(Work)] <= plan)
  {
    assert ResetPlan(config, prev) <= FilePlan(config, prev, serviceAffected);
  }

  lemma ReleasePathReady(
    config: Config, deploymentId: Id, serviceAffected: bool, host: Host, disk: Disk, outcome: Outcomes)
    requires Releases.Listing(host.store, disk.listing)
    ensures var (start, settled) := ReleasePath(config, deploymentId, serviceAffected, host, disk, outcome);
      host.log <= start.log && (EndsReady(host, start, outcome) <==> settled && config.readyChecks && serviceAffected)
  {
    var relinked := if config.strategy.ReleaseDirs? then Relinked(host.store, deploymentId, disk) else None;
    if relinked.Some? {
      var linked, plan := host.(store := relinked.value), ReleasePlan(config, serviceAffected);
      PerformLogs(linked, plan, outcome);
      if !Perform(linked, plan, outcome).1 {
        FailsLast(linked, plan, outcome);
      } else if serviceAffected && config.readyChecks {
        PlanEndsReady(linked, plan, outcome);
      } else {
        NeverWaits(linked, plan, outcome);
      }
    }
  }

  lemma PathReady(
    host: Host, config: Config, prev: Option<Sha>, serviceAffected: bool, revertGeneration: bool, outcome: Outcomes)
    requires Perform(host, PlanFor(config, prev, serviceAffected, revertGeneration), outcome).1
    ensures var after := Perform(host, PlanFor(config, prev, serviceAffected, revertGeneration), outcome).0;
      && host.log <= after.log && (prev.Some? ==> host.log < after.log)
      && (EndsReady(host, after, outcome) <==> prev.Some? && config.readyChecks && serviceAffected)
  {
    var plan := PlanFor(config, prev, serviceAffected, revertGeneration);
    PerformedAll(host, plan, outcome);
    if prev.Some? && serviceAffected && config.readyChecks {
      CommitPathReady(host, config, prev.value, revertGeneration, outcome);
    } else {
      if prev.Some? {
        FilesNeverWait(config, prev.value, serviceAffected);
        assert WaitReady !in ServicePlan(config, serviceAffected, revertGeneration);
      }
      NeverWaits(host, plan, outcome);
    }
  }

  /** What precedes that wait: the restart, or the revert of the generation, and it succeeded. */
  lemma RestartBeforeReady(
    config: Config, prev: Option<Sha>, deploymentId: Id, revertGeneration: bool,
    host: Host, disk: Disk, outcome: Outcomes)
    requires Releases.Listing(host.store, disk.listing) && config.readyChecks && !config.action.NoAction?
    requires RolledBackHost(config, prev, deploymentId, true, revertGeneration, host, disk, outcome).1
    ensures var after := RolledBackHost(config, prev, deploymentId, true, revertGeneration, host, disk, outcome).0;
      if ReleaseReady(config, deploymentId, host, disk, outcome)
      then WaitFollows(host, after, ServiceFromCurrent(RestartService), outcome)
      else prev.Some? && (!IsZeroDowntimeEnabled(config) || revertGeneration) ==>
        WaitFollows(host, after,
          if IsZeroDowntimeEnabled(config) then RevertGeneration else ServiceCall(RestartService), outcome)
  {
    var (start, settled) := ReleasePath(config, deploymentId, true, host, disk, outcome);
    ReleaseSettles(config, deploymentId, host, disk, outcome);
    ReleasePathReady(config, deploymentId, true, host, disk, outcome);
    if settled {
      var linked := host.(store := Relinked(host.store, deploymentId, disk).value);
      PlanEndsReady(linked, ReleasePlan(config, true), outcome);
    } else if prev.Some? {
      CommitPathReady(start, config, prev.value, revertGeneration, outcome);
    }
  }

  // Trees

  predicate TouchesTrees(call: Call)
  {
    call.ResetHard? || call.CleanUntracked? || call.Exec? || call.SyncWorkToLive?
  }

  lemma {:induction false} KeepsLive(host: Host, plan: seq<Call>, outcome: Outcomes)
    requires forall call :: call in plan ==> !TouchesTrees(call)
    ensures Perform(host, plan, outcome).0.live == host.live
    decreases |plan|
  {
    if plan != [] {
      assert plan[0] in plan;
      KeepsLive(Attempt(host, plan[0], outcome(|host.log|)), plan[1..], outcome);
    }
  }

  /** The commit path rebuilds the live tree, whatever the mode and the action. */
  lemma CommitPathRebuilds(
    host: Host, config: Config, prev: Sha, serviceAffected: bool, revertGeneration: bool, outcome: Outcomes)
    requires Perform(host, ShaPlan(config, prev, serviceAffected, revertGeneration), outcome).1
    ensures Perform(host, ShaPlan(config, prev, serviceAffected, revertGeneration), outcome).0.live
      == RebuiltTree(config, prev)
  {
    PerformAppend(host, FilePlan(config, prev, serviceAffected),
      ServicePlan(config, serviceAffected, revertGeneration), outcome);
    FilesRestored(host, config, prev, serviceAffected, outcome);
    KeepsLive(Perform(host, FilePlan(config, prev, serviceAffected), outcome).0,
      ServicePlan(config, serviceAffected, revertGeneration), outcome);
  }

  // Generations

  predicate Turns(call: Call)
  {
    call.DeployGeneration? || call.RevertGeneration?
  }

  lemma {:induction false} KeepsGenerations(host: Host, plan: seq<Call>, outcome: Outcomes)
    requires forall call :: call in plan ==> !Turns(call)
    ensures Perform(host, plan, outcome).0.generations == host.generations
    decreases |plan|
  {
    if plan != [] {
      assert plan[0] in plan;
      KeepsGenerations(Attempt(host, plan[0], outcome(|host.log|)), plan[1..], outcome);
    }
  }

  /** When the paths after the release path ask for the generation to be reverted. */
  predicate RequestsRevert(config: Config, prev: Option<Sha>, serviceAffected: bool, revertGeneration: bool)
  {
    IsZeroDowntimeEnabled(config) && revertGeneration && (prev.None? || (serviceAffected && !config.action.NoAction?))
  }

  /** The revert was called, and had the effect that its own outcome says: a normal return may mean nothing was reverted. */
  ghost predicate RevertCalled(before: Host, after: Host, outcome: Outcomes)
  {
    exists i :: |before.log| <= i < |after.log| && after.log[i] == RevertGeneration
      && after.generations == if outcome(i).took then Reverted(before.generations) else before.generations
  }

  lemma FilePlanTurnsNothing(config: Config, prev: Sha, serviceAffected: bool)
    ensures forall call :: call in FilePlan(config, prev, serviceAffected) ==> !Turns(call)
  {
    FilePlanAllowed(config, prev, serviceAffected, false);
    AllowedTurnsNothing(config, serviceAffected, FilePlan(config, prev, serviceAffected));
  }

  lemma AllowedTurnsNothing(config: Config, serviceAffected: bool, plan: seq<Call>)
    requires AllAllowed(config, serviceAffected, false, plan)
    ensures forall call :: call in plan ==> !Turns(call)
  {
  }

  lemma NoRevertRequested(config: Config, prev: Option<Sha>, serviceAffected: bool, revertGeneration: bool)
    requires !RequestsRevert(config, prev, serviceAffected, revertGeneration)
    ensures forall call :: call in PlanFor(config, prev, serviceAffected, revertGeneration) ==> !Turns(call)
  {
    if prev.Some? {
      FilePlanTurnsNothing(config, prev.value, serviceAffected);
      assert forall call :: call in ServicePlan(config, serviceAffected, revertGeneration) ==> !Turns(call);
    }
  }

  /** One revert, with quiet calls before and after it. */
  lemma RevertBetween(host: Host, first: seq<Call>, last: seq<Call>, outcome: Outcomes)
    requires forall call :: call in first + last ==> !Turns(call)
    ensures var (after, ok) := Perform(host, first + ([RevertGeneration] + last), outcome);
      && (after.generations == host.generations || after.generations == Reverted(host.generations))
      && (ok ==> RevertCalled(host, after, outcome))
  {
    var (middle, begun) := Perform(host, first, outcome);
    var (after, ok) := Perform(host, first + ([RevertGeneration] + last), outcome);
    PerformAppend(host, first, [RevertGeneration] + last, outcome);
    assert forall call :: call in first ==> call in first + last;
    KeepsGenerations(host, first, outcome);
    PerformLogs(host, first, outcome);
    if begun {
      var i := |middle.log|;
      var next := Attempt(middle, RevertGeneration, outcome(i));
      PerformCons(middle, RevertGeneration, last, outcome);
      assert forall call :: call in last ==> call in first + last;
      KeepsGenerations(next, last, outcome);
      PerformLogs(next, last, outcome);
      if ok {
        assert next.log[i] == after.log[i] == RevertGeneration;
      }
    }
  }

  /** The commit and generation paths: the generation is reverted at most once, only on request, and only if the call
      really took effect. */
  lemma ZeroDowntimeReverts(
    host: Host, config: Config, prev: Option<Sha>, serviceAffected: bool, revertGeneration: bool, outcome: Outcomes)
    ensures var (after, ok) := Perform(host, PlanFor(config, prev, serviceAffected, revertGeneration), outcome);
      && (after.generations == host.generations || after.generations == Reverted(host.generations))
      && (!RequestsRevert(config, prev, serviceAffected, revertGeneration) ==> after.generations == host.generations)
      && (RequestsRevert(config, prev, serviceAffected, revertGeneration) && ok ==> RevertCalled(host, after, outcome))
  {
    var plan := PlanFor(config, prev, serviceAffected, revertGeneration);
    if !RequestsRevert(config, prev, serviceAffected, revertGeneration) {
      NoRevertRequested(config, prev, serviceAffected, revertGeneration);
      KeepsGenerations(host, plan, outcome);
    } else if prev.None? {
      assert plan == [] + ([RevertGeneration] + []);
      RevertBetween(host, [], [], outcome);
    } else {
      var files := FilePlan(config, prev.value, serviceAffected);
      FilePlanTurnsNothing(config, prev.value, serviceAffected);
      assert plan == files + ([RevertGeneration] + ReadyPlan(config));
      RevertBetween(host, files, ReadyPlan(config), outcome);
    }
  }

  lemma ReleasePathKeepsGenerations(
    config: Config, deploymentId: Id, serviceAffected: bool, host: Host, disk: Disk, outcome: Outcomes)
    requires Releases.Listing(host.store, disk.listing)
    ensures ReleasePath(config, deploymentId, serviceAffected, host, disk, outcome).0.generations == host.generations
  {
    var relinked := if config.strategy.ReleaseDirs? then Relinked(host.store, deploymentId, disk) else None;
    if relinked.Some? {
      KeepsGenerations(host.(store := relinked.value), ReleasePlan(config, serviceAffected), outcome);
    }
  }

  /** A whole rollback reverts the generation at most once. */
  lemma RolledBackGenerations(
    config: Config, prev: Option<Sha>, deploymentId: Id, serviceAffected: bool, revertGeneration: bool,
    host: Host, disk: Disk, outcome: Outcomes)
    requires Releases.Listing(host.store, disk.listing)
    ensures var after := RolledBackHost(config, prev, deploymentId, serviceAffected, revertGeneration, host, disk, outcome).0;
      after.generations == host.generations || after.generations == Reverted(host.generations)
  {
    var start := ReleasePath(config, deploymentId, serviceAffected, host, disk, outcome).0;
    ReleasePathKeepsGenerations(config, deploymentId, serviceAffected, host, disk, outcome);
    ZeroDowntimeReverts(start, config, prev, serviceAffected, revertGeneration, outcome);
  }

  /** Between two states a generation was switched to or reverted only if that was called for. */
  ghost predicate MovedByCalls(before: Host, after: Host)
  {
    && before.log <= after.log
    && (RevertGeneration !in CallsBetween(before, after) ==> after.generations.reverts == before.generations.reverts)
    && (DeployGeneration !in CallsBetween(before, after) ==> after.generations.switches == before.generations.switches)
  }

  lemma MovedByCallsComposes(a: Host, b: Host, c: Host)
    requires MovedByCalls(a, b) && MovedByCalls(b, c)
    ensures MovedByCalls(a, c)
  {
    assert CallsBetween(a, c) == CallsBetween(a, b) + CallsBetween(b, c);
  }

  lemma OneCallMoves(host: Host, call: Call, r: Result)
    ensures MovedByCalls(host, Attempt(host, call, r))
  {
    assert CallsBetween(host, Attempt(host, call, r)) == [call];
  }

  lemma {:induction false} PlanMovesByCalls(host: Host, plan: seq<Call>, outcome: Outcomes)
    ensures MovedByCalls(host, Perform(host, plan, outcome).0)
    decreases |plan|
  {
    if plan != [] {
      var next := Attempt(host, plan[0], outcome(|host.log|));
      OneCallMoves(host, plan[0], outcome(|host.log|));
      PlanMovesByCalls(next, plan[1..], outcome);
      var after := Perform(host, plan, outcome).0;
      if after != next {
        MovedByCallsComposes(host, next, after);
      }
    }
  }

  lemma RolledBackMovesByCalls(
    config: Config, prev: Option<Sha>, deploymentId: Id, serviceAffected: bool, revertGeneration: bool,
    host: Host, disk: Disk, outcome: Outcomes)
    requires Releases.Listing(host.store, disk.listing)
    ensures MovedByCalls(host,
      RolledBackHost(config, prev, deploymentId, serviceAffected, revertGeneration, host, disk, outcome).0)
  {
    var relinked := if config.strategy.ReleaseDirs? then Relinked(host.store, deploymentId, disk) else None;
    var linked := if relinked.Some? then host.(store := relinked.value) else host;
    var (start, settled) := ReleasePath(config, deploymentId, serviceAffected, host, disk, outcome);
    PlanMovesByCalls(linked, [], outcome);
    assert MovedByCalls(host, linked);
    if relinked.Some? {
      PlanMovesByCalls(linked, ReleasePlan(config, serviceAffected), outcome);
      MovedByCallsComposes(host, linked, start);
    }
    if !settled {
      var plan := PlanFor(config, prev, serviceAffected, revertGeneration);
      PlanMovesByCalls(start, plan, outcome);
      MovedByCallsComposes(host, start, Perform(start, plan, outcome).0);
    }
  }

  // The service, with action `none`

  predicate Down(service: Service)
  {
    service.Stopped? || service.Unclear?
  }

  predicate Starts(call: Call)
  {
    call.ServiceCall? || call.ServiceFromCurrent?
  }

  /** Between two states the service changed only by being stopped. */
  ghost predicate OnlyStopped(before: Host, after: Host)
  {
    && before.log <= after.log
    && (Down(after.service) <==> Down(before.service) || StopService in CallsBetween(before, after))
    && (StopService !in CallsBetween(before, after) ==> after.service == before.service)
  }

  lemma OnlyStoppedComposes(a: Host, b: Host, c: Host)
    requires OnlyStopped(a, b) && OnlyStopped(b, c)
    ensures OnlyStopped(a, c)
  {
    assert CallsBetween(a, c) == CallsBetween(a, b) + CallsBetween(b, c);
  }

  lemma OneCallOnlyStops(host: Host, call: Call, r: Result)
    requires !Starts(call)
    ensures OnlyStopped(host, Attempt(host, call, r))
  {
    assert CallsBetween(host, Attempt(host, call, r)) == [call];
  }

  /** Under calls that never start it, the service is down afterwards exactly when it was down or has been stopped. */
  lemma {:induction false} PlanOnlyStops(host: Host, plan: seq<Call>, outcome: Outcomes)
    requires forall call :: call in plan ==> !Starts(call)
    ensures OnlyStopped(host, Perform(host, plan, outcome).0)
    decreases |plan|
  {
    if plan == [] {
      assert CallsBetween(host, host) == [];
    } else {
      assert plan[0] in plan;
      var next := Attempt(host, plan[0], outcome(|host.log|));
      OneCallOnlyStops(host, plan[0], outcome(|host.log|));
      PlanOnlyStops(next, plan[1..], outcome);
      var after := Perform(next, plan[1..], outcome).0;
      OnlyStoppedComposes(host, next, after);
      NothingAfter(host, next);
    }
  }

  lemma NothingAfter(a: Host, b: Host)
    requires OnlyStopped(a, b)
    ensures OnlyStopped(b, b)
  {
    assert CallsBetween(b, b) == [];
  }

  /** With action `none` no path of a rollback starts the service, the release path included. */
  lemma NoActionRollback(
    config: Config, prev: Option<Sha>, deploymentId: Id, serviceAffected: bool, revertGeneration: bool,
    host: Host, disk: Disk, outcome: Outcomes)
    requires config.action.NoAction? && Releases.Listing(host.store, disk.listing)
    ensures OnlyStopped(host,
      RolledBackHost(config, prev, deploymentId, serviceAffected, revertGeneration, host, disk, outcome).0)
  {
    var relinked := if config.strategy.ReleaseDirs? then Relinked(host.store, deploymentId, disk) else None;
    var linked := if relinked.Some? then host.(store := relinked.value) else host;
    var (start, settled) := ReleasePath(config, deploymentId, serviceAffected, host, disk, outcome);
    var plan := PlanFor(config, prev, serviceAffected, revertGeneration);
    PlanOnlyStops(linked, [], outcome);
    assert OnlyStopped(host, linked);
    if relinked.Some? {
      PlanOnlyStops(linked, ReleasePlan(config, serviceAffected), outcome);
      OnlyStoppedComposes(host, linked, start);
    }
    if !settled {
      PlanAllowed(config, prev, serviceAffected, revertGeneration);
      PlanOnlyStops(start, plan, outcome);
      OnlyStoppedComposes(host, start, Perform(start, plan, outcome).0);
    }
  }

  /** A complete rollback has stopped the service exactly when it took the commit path with install commands to run next
      to a service it may touch. */
  lemma RolledBackStops(
    config: Config, prev: Option<Sha>, deploymentId: Id, serviceAffected: bool, revertGeneration: bool,
    host: Host, disk: Disk, outcome: Outcomes)
    requires Releases.Listing(host.store, disk.listing)
    requires RolledBackHost(config, prev, deploymentId, serviceAffected, revertGeneration, host, disk, outcome).1
    ensures var after := RolledBackHost(config, prev, deploymentId, serviceAffected, revertGeneration, host, disk, outcome).0;
      && host.log <= after.log
      && (StopService in CallsBetween(host, after) <==>
            && !ReleasePath(config, deploymentId, serviceAffected, host, disk, outcome).1
            && prev.Some? && StopPlan(config, serviceAffected) != [])
  {
    var (start, settled) := ReleasePath(config, deploymentId, serviceAffected, host, disk, outcome);
    var after := RolledBackHost(config, prev, deploymentId, serviceAffected, revertGeneration, host, disk, outcome).0;
    ReleasePathStopsNothing(config, deploymentId, serviceAffected, host, disk, outcome);
    if !settled {
      PerformedAll(start, PlanFor(config, prev, serviceAffected, revertGeneration), outcome);
      PlanStops(config, prev, serviceAffected, revertGeneration);
      StopsAfter(host, start, after, PlanFor(config, prev, serviceAffected, revertGeneration));
    }
  }

  lemma StopsAfter(a: Host, b: Host, c: Host, calls: seq<Call>)
    requires a.log <= b.log && StopService !in CallsBetween(a, b) && c.log == b.log + calls
    ensures a.log <= c.log && (StopService in CallsBetween(a, c) <==> StopService in calls)
  {
    assert CallsBetween(a, c) == CallsBetween(a, b) + calls;
  }

  lemma ReleasePathStopsNothing(
    config: Config, deploymentId: Id, serviceAffected: bool, host: Host, disk: Disk, outcome: Outcomes)
    requires Releases.Listing(host.store, disk.listing)
    ensures var after := ReleasePath(config, deploymentId, serviceAffected, host, disk, outcome).0;
      host.log <= after.log && StopService !in CallsBetween(host, after)
  {
    var relinked := if config.strategy.ReleaseDirs? then Relinked(host.store, deploymentId, disk) else None;
    if relinked.Some? {
      PerformLogs(host.(store := relinked.value), ReleasePlan(config, serviceAffected), outcome);
    } else {
      assert CallsBetween(host, host) == [];
    }
  }

  lemma PlanStops(config: Config, prev: Option<Sha>, serviceAffected: bool, revertGeneration: bool)
    ensures StopService in PlanFor(config, prev, serviceAffected, revertGeneration)
      <==> prev.Some? && StopPlan(config, serviceAffected) != []
  {
    if prev.Some? {
      var installs := ExecAll(BuildDir(config), CommandsOf(config.steps, "install"));
      var builds := ExecAll(BuildDir(config), CommandsOf(config.steps, "build"));
      assert StopService !in installs && StopService !in builds;
      assert StopService !in ServicePlan(config, serviceAffected, revertGeneration);
      assert StopService !in ResetPlan(config, prev.value) && StopService !in SyncPlan(config);
    }
  }

  // The release path

  /** What a release rollback needs to switch `current` back: a readable directory with another release in it that
      `current` points to already, or can be pointed to. */
  predicate CanRelink(store: Releases.Store, failed: Id, disk: Disk)
    requires Releases.Listing(store, disk.listing)
  {
    var previous := Releases.PreviousRelease(store, disk.listing, failed);
    disk.readable && previous.Some? && (disk.links || (Releases.IsCurrent(store, previous.value) && disk.resolves))
  }

  lemma PreviousIsOther(store: Releases.Store, listing: seq<Id>, failed: Id)
    requires Releases.Listing(store, listing) && Releases.PreviousRelease(store, listing, failed).Some?
    ensures Releases.PreviousRelease(store, listing, failed).value != failed
  {
    var others := Releases.SortNewestFirst(store.releases, Releases.Without(listing, failed));
    assert others[0] in others;
  }

  /** After a rollback of a release deployment, complete or not, `current` is the newest other release if it could be
      switched there, and untouched otherwise. */
  lemma RolledBackCurrent(
    config: Config, prev: Option<Sha>, deploymentId: Id, serviceAffected: bool, revertGeneration: bool,
    host: Host, disk: Disk, outcome: Outcomes)
    requires config.strategy.ReleaseDirs? && Releases.Listing(host.store, disk.listing)
    ensures var after := RolledBackHost(config, prev, deploymentId, serviceAffected, revertGeneration, host, disk, outcome).0;
      if CanRelink(host.store, deploymentId, disk)
      then && after.store.current == Releases.PreviousRelease(host.store, disk.listing, deploymentId)
           && after.store.current.Some? && after.store.current.value != deploymentId
      else after.store == host.store
  {
    RolledBackStore(config, prev, deploymentId, serviceAffected, revertGeneration, host, disk, outcome);
    if CanRelink(host.store, deploymentId, disk) {
      PreviousIsOther(host.store, disk.listing, deploymentId);
    }
  }

  /** What is left of the releases: all of them but the failed one, which goes when `current` could be switched and its
      directory can be removed. */
  lemma RolledBackReleases(
    config: Config, prev: Option<Sha>, deploymentId: Id, serviceAffected: bool, revertGeneration: bool,
    host: Host, disk: Disk, outcome: Outcomes)
    requires config.strategy.ReleaseDirs? && Releases.Listing(host.store, disk.listing)
    ensures var after := RolledBackHost(config, prev, deploymentId, serviceAffected, revertGeneration, host, disk, outcome).0;
      after.store.releases ==
        if CanRelink(host.store, deploymentId, disk) && disk.removes then host.store.releases - {deploymentId}
        else host.store.releases
  {
    RolledBackStore(config, prev, deploymentId, serviceAffected, revertGeneration, host, disk, outcome);
  }

  /** The commands of a rollback are those of the first step with the name, and none if no step has it. */
  lemma {:induction false} CommandsOfFirst(steps: seq<CommandStep>, name: string, i: nat)
    requires i <= |steps| && (forall j :: 0 <= j < i ==> steps[j].name != name) && (i < |steps| ==> steps[i].name == name)
    ensures CommandsOf(steps, name) == if i < |steps| then steps[i].commands else []
    decreases i
  {
    if i > 0 {
      assert steps[0].name != name;
      CommandsOfFirst(steps[1..], name, i - 1);
    }
  }

  /** The release path settles the rollback exactly when it can switch `current` back and every call it then makes
      succeeds; a restart that fails leaves the service in an unclear state, and one that is not ready is running. */
  lemma ReleasePathServes(
    config: Config, deploymentId: Id, serviceAffected: bool, host: Host, disk: Disk, outcome: Outcomes)
    requires config.strategy.ReleaseDirs? && Releases.Listing(host.store, disk.listing)
    requires CanRelink(host.store, deploymentId, disk) && !config.action.NoAction?
    ensures var (after, settled) := ReleasePath(config, deploymentId, serviceAffected, host, disk, outcome);
      var restarted := outcome(|host.log|).ok;
      && (settled <==> !serviceAffected || (restarted && (config.readyChecks ==> outcome(|host.log| + 1).ok)))
      && after.service == (if !serviceAffected then host.service else if !restarted then Unclear
                           else ServingRelease(Releases.PreviousRelease(host.store, disk.listing, deploymentId)))
      && after.live == host.live && after.work == host.work && after.generations == host.generations
      && after.store.current == Releases.PreviousRelease(host.store, disk.listing, deploymentId)
  {
    RestartFromCurrent(config, serviceAffected, host.(store := Relinked(host.store, deploymentId, disk).value), outcome);
  }

  /** The same with action `none`: nothing is restarted, and only readiness can keep the path from settling. */
  lemma ReleasePathWaits(
    config: Config, deploymentId: Id, serviceAffected: bool, host: Host, disk: Disk, outcome: Outcomes)
    requires config.strategy.ReleaseDirs? && Releases.Listing(host.store, disk.listing)
    requires config.action.NoAction?
    ensures var (after, settled) := ReleasePath(config, deploymentId, serviceAffected, host, disk, outcome);
      settled <==> CanRelink(host.store, deploymentId, disk)
                   && (serviceAffected && config.readyChecks ==> outcome(|host.log|).ok)
  {
    if CanRelink(host.store, deploymentId, disk) {
      PerformOne(host.(store := Relinked(host.store, deploymentId, disk).value), WaitReady, outcome);
      assert ReleaseSwitch(config) + ReadyPlan(config) == ReadyPlan(config);
    }
  }

  lemma RestartFromCurrent(config: Config, serviceAffected: bool, host: Host, outcome: Outcomes)
    requires !config.action.NoAction?
    ensures var (after, ok) := Perform(host, ReleasePlan(config, serviceAffected), outcome);
      var restarted := outcome(|host.log|).ok;
      && (ok <==> !serviceAffected || (restarted && (config.readyChecks ==> outcome(|host.log| + 1).ok)))
      && after == host.(log := after.log, service := if !serviceAffected then host.service
                                                     else if !restarted then Unclear
                                                     else ServingRelease(host.store.current))
  {
    if serviceAffected {
      var restart := Attempt(host, ServiceFromCurrent(RestartService), outcome(|host.log|));
      PerformCons(host, ServiceFromCurrent(RestartService), ReadyPlan(config), outcome);
      PerformOne(restart, WaitReady, outcome);
    }
  }

  /** Without a previous commit and without a generation to revert there is nothing after the release path, and the
      rollback returns normally whether or not the release path did anything. */
  lemma NothingToRestore(
    config: Config, deploymentId: Id, serviceAffected: bool, revertGeneration: bool,
    host: Host, disk: Disk, outcome: Outcomes)
    requires Releases.Listing(host.store, disk.listing)
    requires !(IsZeroDowntimeEnabled(config) && revertGeneration)
    ensures RolledBackHost(config, None, deploymentId, serviceAffected, revertGeneration, host, disk, outcome)
      == (ReleasePath(config, deploymentId, serviceAffected, host, disk, outcome).0, true)
  {
    assert PlanFor(config, None, serviceAffected, revertGeneration) == [];
  }

  /** What a release rollback that returns normally serves: the newest other release only if `current` could be switched
      back, the restart succeeded and the service became ready; otherwise the previous commit, rebuilt in and served from
      the project path; and with no previous commit whatever the attempt left behind. */
  ghost predicate ServesAfterRelease(
    config: Config, prev: Option<Sha>, deploymentId: Id, serviceAffected: bool,
    host: Host, disk: Disk, outcome: Outcomes, after: Host)
    requires Releases.Listing(host.store, disk.listing)
  {
    var previous := Releases.PreviousRelease(host.store, disk.listing, deploymentId);
    var relinks := CanRelink(host.store, deploymentId, disk);
    var restarts := relinks && outcome(|host.log|).ok;
    if !serviceAffected then after.service == host.service
    else if restarts && (config.readyChecks ==> outcome(|host.log| + 1).ok)
    then after.service == ServingRelease(previous) && after.live == host.live
    else if prev.Some? then after.service == Serving(RebuiltTree(config, prev.value)) == Serving(after.live)
    else after.service == (if restarts then ServingRelease(previous) else if relinks then Unclear else host.service)
         && after.live == host.live
  }

  lemma ReleaseRollbackServes(
    config: Config, prev: Option<Sha>, deploymentId: Id, serviceAffected: bool, revertGeneration: bool,
    host: Host, disk: Disk, outcome: Outcomes)
    requires config.strategy.ReleaseDirs? && !IsZeroDowntimeEnabled(config) && !config.action.NoAction?
    requires Releases.Listing(host.store, disk.listing)
    requires RolledBackHost(config, prev, deploymentId, serviceAffected, revertGeneration, host, disk, outcome).1
    ensures ServesAfterRelease(config, prev, deploymentId, serviceAffected, host, disk, outcome,
      RolledBackHost(config, prev, deploymentId, serviceAffected, revertGeneration, host, disk, outcome).0)
  {
    var (start, settled) := ReleasePath(config, deploymentId, serviceAffected, host, disk, outcome);
    if CanRelink(host.store, deploymentId, disk) {
      ReleasePathServes(config, deploymentId, serviceAffected, host, disk, outcome);
    }
    if !settled {
      if prev.Some? {
        ShaRollbackCompensates(start, config, prev.value, serviceAffected, revertGeneration, outcome);
      } else {
        NothingToRestore(config, deploymentId, serviceAffected, revertGeneration, host, disk, outcome);
      }
    }
  }
}
