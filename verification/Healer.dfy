/** Watchdog recovery of crashed or unresponsive services (src/repair/service-healer.ts). */
module Healer {
  import opened Records

  const BASE_BACKOFF_MS: Millis := 30_000
  const MAX_BACKOFF_MS: Millis := 900_000

  datatype Outcome = Skipped | Healthy | Degraded | Backoff | Healed | Failed | GaveUp

  datatype HealState = HealState(failures: nat, healthFailures: nat, nextAttemptAt: Millis, gaveUp: bool)

  const FRESH: HealState := HealState(0, 0, 0, false)

  /** The project settings one check reads; `managed` is false for unnamed services and action `none`. */
  datatype Repair = Repair(enabled: bool, managed: bool, probes: bool, threshold: nat, maxRestarts: nat)

  /** Everything one check learns from outside: rows, unit status, probe and recovery results, clock readings. */
  datatype Observation = Observation(
    deploymentActive: bool,
    queryFailed: bool,
    unitActive: bool,
    probeHealthy: bool,
    recovers: bool,
    now: Millis,
    failedAt: Millis)

  /** A call of `recover`: when, and whether it restarts an active unit. */
  datatype Recovery = Recovery(at: Millis, restart: bool)

  datatype Report = Report(state: HealState, outcome: Outcome, recovery: Option<Recovery>, alert: bool)

  function Pow2(n: nat): nat
  {
    if n == 0 then 1 else 2 * Pow2(n - 1)
  }

  /** Wait after the k-th failed recovery (k from 1). */
  function BackoffMs(attempt: nat): Millis
    requires attempt > 0
  {
    var wait := BASE_BACKOFF_MS * Pow2(attempt - 1);
    if wait < MAX_BACKOFF_MS then wait else MAX_BACKOFF_MS
  }

  /** The decision made after the health of the service is known to be bad. */
  function TryRecover(repair: Repair, state: HealState, obs: Observation, restart: bool): Report
  {
    if state.gaveUp then Report(state, Skipped, None, false)
    else if obs.now < state.nextAttemptAt then Report(state, Backoff, None, false)
    else
      var recovery := Some(Recovery(obs.now, restart));
      if obs.recovers then Report(FRESH, Healed, recovery, false)
      else
        var attempt := state.failures + 1;
        var failed := HealState(attempt, 0, obs.failedAt + BackoffMs(attempt), attempt >= repair.maxRestarts);
        if failed.gaveUp then Report(failed, GaveUp, recovery, true)
        else Report(failed, Outcome.Failed, recovery, false)
  }

  /** One check of a project whose last successful deployment is unchanged. */
  function CheckState(repair: Repair, state: HealState, obs: Observation): Report
  {
    if !repair.enabled || !repair.managed || obs.deploymentActive || obs.queryFailed then
      Report(state, Skipped, None, false)
    else if !obs.unitActive then
      TryRecover(repair, state, obs, false)
    else if !repair.probes || obs.probeHealthy then
      Report(FRESH, Healthy, None, false)
    else
      var counted := state.(healthFailures := state.healthFailures + 1);
      if counted.healthFailures < repair.threshold then Report(counted, Degraded, None, false)
      else TryRecover(repair, counted, obs, true)
  }

  /** The healer keeps one state per project, valid for one successful SHA. */
  class ServiceHealer {
    var states: map<Project, (Sha, HealState)>

    constructor ()
      ensures states == map[]
    {
      states := map[];
    }

    /** A new successful SHA starts from a fresh state. */
    ghost function StateFor(project: Project, sha: Sha): HealState
      reads this
    {
      if project in states && states[project].0 == sha then states[project].1 else FRESH
    }

    method Check(project: Project, lastSuccessfulSha: Option<Sha>, repair: Repair, obs: Observation)
      returns (outcome: Outcome, recovery: Option<Recovery>, alert: bool)
      modifies this
      ensures lastSuccessfulSha.None? ==>
        outcome == Skipped && recovery.None? && !alert && states == old(states)
      ensures lastSuccessfulSha.Some? ==>
        var sha := lastSuccessfulSha.value;
        var report := CheckState(repair, old(StateFor(project, sha)), obs);
        && (outcome, recovery, alert) == (report.outcome, report.recovery, report.alert)
        && StateFor(project, sha) == report.state
      ensures forall other, sha :: other != project ==> StateFor(other, sha) == old(StateFor(other, sha))
    {
      outcome, recovery, alert := Skipped, None, false;
      if !repair.enabled || !repair.managed || obs.deploymentActive || lastSuccessfulSha.None? {
        return;
      }
      var sha := lastSuccessfulSha.value;
      if project !in states || states[project].0 != sha {
        states := states[project := (sha, FRESH)];
      }
      var state := states[project].1;
      if obs.queryFailed {
        return;
      }
      var unhealthy := false;
      if obs.unitActive {
        var healthy := if repair.probes then obs.probeHealthy else true;
        if healthy {
          states := states[project := (sha, FRESH)];
          outcome := Healthy;
          return;
        }
        state := state.(healthFailures := state.healthFailures + 1);
        states := states[project := (sha, state)];
        if state.healthFailures < repair.threshold {
          outcome := Degraded;
          return;
        }
        unhealthy := true;
      }
      outcome, recovery, alert := Recover(project, sha, state, repair, obs, unhealthy);
    }

    /** The service is known to be bad: wait, give up, or attempt a recovery. */
    method Recover(project: Project, sha: Sha, before: HealState, repair: Repair, obs: Observation, unhealthy: bool)
      returns (outcome: Outcome, recovery: Option<Recovery>, alert: bool)
      requires project in states && states[project] == (sha, before)
      modifies this
      ensures var report := TryRecover(repair, before, obs, unhealthy);
        && (outcome, recovery, alert) == (report.outcome, report.recovery, report.alert)
        && states == old(states)[project := (sha, report.state)]
    {
      outcome, recovery, alert := Skipped, None, false;
      var state := before;
      assert states == states[project := (sha, before)];
      if state.gaveUp {
        return;
      }
      if obs.now < state.nextAttemptAt {
        outcome := Backoff;
        return;
      }
      var attempt := state.failures + 1;
      recovery := Some(Recovery(obs.now, unhealthy));
      if obs.recovers {
        states := states[project := (sha, FRESH)];
        outcome := Healed;
      } else {
        state := state.(failures := attempt, healthFailures := 0, nextAttemptAt := obs.failedAt + BackoffMs(attempt));
        outcome := Outcome.Failed;
        if attempt >= repair.maxRestarts {
          state := state.(gaveUp := true);
          outcome := GaveUp;
          alert := true;
        }
        states := states[project := (sha, state)];
      }
    }
  }

  // Sequences of checks

  /** The reports of a sequence of checks, starting from `state`. */
  function Reports(repair: Repair, state: HealState, checks: seq<Observation>): (reports: seq<Report>)
    ensures |reports| == |checks|
  {
    if checks == [] then []
    else
      var earlier := Reports(repair, state, checks[..|checks| - 1]);
      var before := if earlier == [] then state else earlier[|earlier| - 1].state;
      earlier + [CheckState(repair, before, checks[|checks| - 1])]
  }

  function FinalState(repair: Repair, state: HealState, checks: seq<Observation>): HealState
  {
    var reports := Reports(repair, state, checks);
    if reports == [] then state else reports[|reports| - 1].state
  }

  function Recoveries(reports: seq<Report>): seq<Recovery>
  {
    if reports == [] then []
    else
      var last := reports[|reports| - 1];
      Recoveries(reports[..|reports| - 1]) + (if last.recovery.Some? then [last.recovery.value] else [])
  }

  function Alerts(reports: seq<Report>): nat
  {
    if reports == [] then 0
    else Alerts(reports[..|reports| - 1]) + if reports[|reports| - 1].alert then 1 else 0
  }

  /** Clock readings never go back, within a check or from one check to the next. */
  predicate ClockForward(checks: seq<Observation>)
  {
    && (forall i :: 0 <= i < |checks| ==> 0 <= checks[i].now <= checks[i].failedAt)
    && (forall i, j :: 0 <= i < j < |checks| ==> checks[i].failedAt <= checks[j].now)
  }

  predicate NeverHealthy(reports: seq<Report>)
  {
    forall i :: 0 <= i < |reports| ==> !reports[i].outcome.Healthy? && !reports[i].outcome.Healed?
  }

  /** What holds of a healer that has only seen failures since it started fresh. */
  predicate Unhealed(repair: Repair, state: HealState, recoveries: seq<Recovery>, alerts: nat)
  {
    && state.failures == |recoveries| <= repair.maxRestarts
    && (state.gaveUp <==> state.failures == repair.maxRestarts)
    && alerts == (if state.gaveUp then 1 else 0)
    && (forall k :: 0 <= k < |recoveries| - 1 ==> recoveries[k + 1].at - recoveries[k].at >= BackoffMs(k + 1))
    && (recoveries != [] ==> state.nextAttemptAt >= recoveries[|recoveries| - 1].at + BackoffMs(|recoveries|))
  }

  /** Recovery is bounded, spaced by the doubling backoff, and gives up with exactly one alert. */
  lemma {:induction false} RecoveryIsBounded(repair: Repair, checks: seq<Observation>)
    requires repair.maxRestarts >= 1 && ClockForward(checks)
    requires NeverHealthy(Reports(repair, FRESH, checks))
    ensures var reports := Reports(repair, FRESH, checks);
      Unhealed(repair, FinalState(repair, FRESH, checks), Recoveries(reports), Alerts(reports))
  {
    if checks != [] {
      var earlier := checks[..|checks| - 1];
      var reports, before := Reports(repair, FRESH, checks), Reports(repair, FRESH, earlier);
      assert reports[..|reports| - 1] == before;
      assert forall i :: 0 <= i < |before| ==> before[i] == reports[i];
      RecoveryIsBounded(repair, earlier);
      assert !reports[|reports| - 1].outcome.Healthy? && !reports[|reports| - 1].outcome.Healed?;
      UnhealedStep(repair, FinalState(repair, FRESH, earlier), Recoveries(before), Alerts(before), checks[|checks| - 1]);
    }
  }

  lemma UnhealedStep(repair: Repair, state: HealState, recoveries: seq<Recovery>, alerts: nat, obs: Observation)
    requires repair.maxRestarts >= 1 && obs.now <= obs.failedAt
    requires Unhealed(repair, state, recoveries, alerts)
    requires var report := CheckState(repair, state, obs); !report.outcome.Healthy? && !report.outcome.Healed?
    ensures var report := CheckState(repair, state, obs);
      Unhealed(repair, report.state,
        recoveries + (if report.recovery.Some? then [report.recovery.value] else []),
        alerts + if report.alert then 1 else 0)
  {
  }

  // Health probes

  /** A check that reaches the probe of an active unit and sees it fail. */
  predicate ProbeFails(repair: Repair, obs: Observation)
  {
    && repair.enabled && repair.managed && !obs.deploymentActive && !obs.queryFailed
    && obs.unitActive && repair.probes && !obs.probeHealthy
  }

  /** Failed probes since the counter was last reset: by a healthy result or by a recovery attempt. */
  function FailedProbes(repair: Repair, checks: seq<Observation>): nat
  {
    if checks == [] then 0
    else
      var n := |checks| - 1;
      var report := Reports(repair, FRESH, checks)[n];
      if report.recovery.Some? || report.outcome.Healthy? then 0
      else FailedProbes(repair, checks[..n]) + if ProbeFails(repair, checks[n]) then 1 else 0
  }

  /** An active unit is restarted only once enough probes in a row have failed. */
  lemma {:induction false} RestartNeedsFailedProbes(repair: Repair, checks: seq<Observation>, i: nat)
    requires i < |checks|
    requires Reports(repair, FRESH, checks)[i].recovery == Some(Recovery(checks[i].now, true))
    ensures ProbeFails(repair, checks[i])
    ensures FailedProbes(repair, checks[..i]) + 1 >= repair.threshold
  {
    ReportsPrefix(repair, checks, i + 1);
    var upTo := checks[..i + 1];
    assert upTo[..i] == checks[..i] && upTo[i] == checks[i];
    ProbeCounter(repair, checks[..i]);
  }

  lemma {:induction false} ReportsPrefix(repair: Repair, checks: seq<Observation>, n: nat)
    requires n <= |checks|
    ensures Reports(repair, FRESH, checks)[..n] == Reports(repair, FRESH, checks[..n])
  {
    if n < |checks| {
      var earlier := checks[..|checks| - 1];
      ReportsPrefix(repair, earlier, n);
      assert earlier[..n] == checks[..n];
    } else {
      assert checks[..n] == checks;
    }
  }

  lemma {:induction false} ProbeCounter(repair: Repair, checks: seq<Observation>)
    ensures FinalState(repair, FRESH, checks).healthFailures == FailedProbes(repair, checks)
  {
    if checks != [] {
      ProbeCounter(repair, checks[..|checks| - 1]);
    }
  }

  // When exactly a service is recovered: what follows speaks only of what the checks saw and which of them called `recover`

  /** What each check called, from a fresh start. */
  function Calls(repair: Repair, checks: seq<Observation>): (calls: seq<Option<Recovery>>)
    ensures |calls| == |checks|
  {
    var reports := Reports(repair, FRESH, checks);
    seq(|reports|, i requires 0 <= i < |reports| => reports[i].recovery)
  }

  predicate Looked(repair: Repair, obs: Observation)
  {
    repair.enabled && repair.managed && !obs.deploymentActive && !obs.queryFailed
  }

  predicate SeenHealthy(repair: Repair, obs: Observation)
  {
    Looked(repair, obs) && obs.unitActive && (repair.probes ==> obs.probeHealthy)
  }

  /** Recoveries that failed since the service was last healthy or healed. */
  function FailedAttempts(repair: Repair, checks: seq<Observation>, calls: seq<Option<Recovery>>): nat
    requires |calls| == |checks|
  {
    if checks == [] then 0
    else
      var n := |checks| - 1;
      if SeenHealthy(repair, checks[n]) || (calls[n].Some? && checks[n].recovers) then 0
      else FailedAttempts(repair, checks[..n], calls[..n]) + if calls[n].Some? then 1 else 0
  }

  /** Half a minute after the first failure, then twice as long each time, and a quarter of an hour at most. */
  function WaitAfter(failures: nat): Millis
  {
    if failures == 0 then 0
    else if failures == 1 then 30_000
    else if failures == 2 then 60_000
    else if failures == 3 then 120_000
    else if failures == 4 then 240_000
    else if failures == 5 then 480_000
    else 900_000
  }

  /** The end of the wait after the last of these failures; zero when there is none. */
  function WaitEnds(repair: Repair, checks: seq<Observation>, calls: seq<Option<Recovery>>): Millis
    requires |calls| == |checks|
  {
    if checks == [] then 0
    else
      var n := |checks| - 1;
      if SeenHealthy(repair, checks[n]) || (calls[n].Some? && checks[n].recovers) then 0
      else if calls[n].Some? then checks[n].failedAt + WaitAfter(FailedAttempts(repair, checks, calls))
      else WaitEnds(repair, checks[..n], calls[..n])
  }

  /** Failed probes since the service was last healthy or recovered. */
  function ProbesFailed(repair: Repair, checks: seq<Observation>, calls: seq<Option<Recovery>>): nat
    requires |calls| == |checks|
  {
    if checks == [] then 0
    else
      var n := |checks| - 1;
      if SeenHealthy(repair, checks[n]) || calls[n].Some? then 0
      else ProbesFailed(repair, checks[..n], calls[..n]) + if ProbeFails(repair, checks[n]) then 1 else 0
  }

  /** A recovery is called for: the unit is down, or its probes have failed up to the threshold. */
  predicate NeedsRecovery(repair: Repair, checks: seq<Observation>, calls: seq<Option<Recovery>>, obs: Observation)
    requires |calls| == |checks|
  {
    && Looked(repair, obs)
    && (!obs.unitActive || (ProbeFails(repair, obs) && ProbesFailed(repair, checks, calls) + 1 >= repair.threshold))
  }

  /** Even a limit of zero leaves room for one attempt. */
  function AttemptLimit(repair: Repair): nat
  {
    if repair.maxRestarts == 0 then 1 else repair.maxRestarts
  }

  /** The state is what the history says. */
  predicate Remembers(repair: Repair, state: HealState, checks: seq<Observation>, calls: seq<Option<Recovery>>)
    requires |calls| == |checks|
  {
    && state.failures == FailedAttempts(repair, checks, calls)
    && state.healthFailures == ProbesFailed(repair, checks, calls)
    && state.nextAttemptAt == WaitEnds(repair, checks, calls)
    && (state.gaveUp <==> state.failures >= AttemptLimit(repair))
  }

  lemma BackoffIsWait(attempt: nat)
    requires attempt > 0
    ensures BackoffMs(attempt) == WaitAfter(attempt)
  {
    if attempt <= 6 {
      assert Pow2(0) == 1 && Pow2(1) == 2 && Pow2(2) == 4 && Pow2(3) == 8 && Pow2(4) == 16 && Pow2(5) == 32;
    } else {
      Pow2Grows(attempt - 1);
    }
  }

  lemma {:induction false} Pow2Grows(n: nat)
    requires n >= 5
    ensures Pow2(n) >= 32
    decreases n
  {
    if n == 5 {
      assert Pow2(0) == 1 && Pow2(1) == 2 && Pow2(2) == 4 && Pow2(3) == 8 && Pow2(4) == 16;
    } else {
      Pow2Grows(n - 1);
    }
  }

  lemma RemembersNext(
    repair: Repair, state: HealState, checks: seq<Observation>, calls: seq<Option<Recovery>>, obs: Observation)
    requires |calls| == |checks| && Remembers(repair, state, checks, calls)
    ensures var report := CheckState(repair, state, obs);
      && Remembers(repair, report.state, checks + [obs], calls + [report.recovery])
      && report.recovery == (if NeedsRecovery(repair, checks, calls, obs)
                                && FailedAttempts(repair, checks, calls) < AttemptLimit(repair)
                                && obs.now >= WaitEnds(repair, checks, calls)
                             then Some(Recovery(obs.now, obs.unitActive)) else None)
      && (report.alert <==> report.recovery.Some? && !obs.recovers
                            && FailedAttempts(repair, checks, calls) + 1 == AttemptLimit(repair))
  {
    var report := CheckState(repair, state, obs);
    assert (checks + [obs])[..|checks|] == checks && (calls + [report.recovery])[..|checks|] == calls;
    BackoffIsWait(state.failures + 1);
  }

  lemma CallsNext(repair: Repair, checks: seq<Observation>)
    requires checks != []
    ensures var n := |checks| - 1;
      Calls(repair, checks) == Calls(repair, checks[..n])
        + [CheckState(repair, FinalState(repair, FRESH, checks[..n]), checks[n]).recovery]
  {
  }

  lemma {:induction false} StateRemembers(repair: Repair, checks: seq<Observation>)
    ensures Remembers(repair, FinalState(repair, FRESH, checks), checks, Calls(repair, checks))
  {
    if checks != [] {
      var n := |checks| - 1;
      StateRemembers(repair, checks[..n]);
      CallsNext(repair, checks);
      RemembersNext(repair, FinalState(repair, FRESH, checks[..n]), checks[..n], Calls(repair, checks[..n]), checks[n]);
      assert checks[..n] + [checks[n]] == checks;
    }
  }

  /** A check calls `recover`, at its own clock, exactly when the service needs it, fewer attempts than allowed have failed
      since it was last healthy, and the wait after the last of them is over; it restarts the unit exactly when that is
      still active. The attempt that uses up the limit and fails raises the alert. */
  lemma RecoversExactly(repair: Repair, checks: seq<Observation>, n: nat)
    requires n < |checks|
    ensures var earlier, calls := checks[..n], Calls(repair, checks)[..n];
      && Calls(repair, checks)[n] == (if NeedsRecovery(repair, earlier, calls, checks[n])
                                         && FailedAttempts(repair, earlier, calls) < AttemptLimit(repair)
                                         && checks[n].now >= WaitEnds(repair, earlier, calls)
                                      then Some(Recovery(checks[n].now, checks[n].unitActive)) else None)
      && (Reports(repair, FRESH, checks)[n].alert <==>
            && Calls(repair, checks)[n].Some? && !checks[n].recovers
            && FailedAttempts(repair, earlier, calls) + 1 == AttemptLimit(repair))
  {
    var upTo := checks[..n + 1];
    assert upTo[..n] == checks[..n] && upTo[n] == checks[n];
    CallsPrefix(repair, checks, n);
    CallsPrefix(repair, checks, n + 1);
    CallsNext(repair, upTo);
    StateRemembers(repair, checks[..n]);
    RemembersNext(repair, FinalState(repair, FRESH, checks[..n]), checks[..n], Calls(repair, checks[..n]), checks[n]);
    ReportsPrefix(repair, checks, n + 1);
    assert Reports(repair, FRESH, checks)[n] == Reports(repair, FRESH, upTo)[n];
  }

  lemma CallsPrefix(repair: Repair, checks: seq<Observation>, n: nat)
    requires n <= |checks|
    ensures Calls(repair, checks)[..n] == Calls(repair, checks[..n])
  {
    ReportsPrefix(repair, checks, n);
    var all, first := Reports(repair, FRESH, checks), Reports(repair, FRESH, checks[..n]);
    forall i | 0 <= i < n
      ensures Calls(repair, checks)[i] == Calls(repair, checks[..n])[i]
    {
      assert all[..n][i] == first[i];
    }
  }

  /** A service that stays down: every check sees it down, no recovery helps, and each check up to the limit comes after
      the wait for the one before. */
  predicate StaysDown(repair: Repair, checks: seq<Observation>)
  {
    && (forall i :: 0 <= i < |checks| ==> Looked(repair, checks[i]) && !checks[i].unitActive && !checks[i].recovers)
    && (checks != [] ==> checks[0].now >= 0)
    && (forall i :: 0 < i < |checks| && i < AttemptLimit(repair) ==>
          checks[i].now >= checks[i - 1].failedAt + WaitAfter(i))
  }

  /** One attempt at each check up to the limit, at its own clock, and one alert when the limit is used up. */
  predicate UsesUpLimit(
    repair: Repair, checks: seq<Observation>, calls: seq<Option<Recovery>>, attempts: seq<Recovery>, alerts: nat)
    requires |calls| == |checks|
  {
    var limit := AttemptLimit(repair);
    && (forall i :: 0 <= i < |checks| ==> calls[i] == if i < limit then Some(Recovery(checks[i].now, false)) else None)
    && |attempts| == (if |checks| < limit then |checks| else limit)
    && (forall i :: 0 <= i < |attempts| ==> attempts[i] == Recovery(checks[i].now, false))
    && alerts == (if |checks| < limit then 0 else 1)
  }

  predicate CountsAttempts(
    repair: Repair, checks: seq<Observation>, calls: seq<Option<Recovery>>, attempts: seq<Recovery>)
    requires |calls| == |checks| >= |attempts|
  {
    && FailedAttempts(repair, checks, calls) == |attempts|
    && WaitEnds(repair, checks, calls) == if attempts == [] then 0 else checks[|attempts| - 1].failedAt + WaitAfter(|attempts|)
  }

  lemma UsesUpNext(
    repair: Repair, checks: seq<Observation>, calls: seq<Option<Recovery>>, attempts: seq<Recovery>, alerts: nat)
    requires checks != [] && |calls| == |checks| && StaysDown(repair, checks)
    requires UsesUpLimit(repair, checks[..|checks| - 1], calls[..|checks| - 1], attempts, alerts)
    requires CountsAttempts(repair, checks[..|checks| - 1], calls[..|checks| - 1], attempts)
    requires var n := |checks| - 1;
      calls[n] == if |attempts| < AttemptLimit(repair)
                     && checks[n].now >= WaitEnds(repair, checks[..n], calls[..n])
                  then Some(Recovery(checks[n].now, false)) else None
    ensures var n := |checks| - 1;
      var attempts' := attempts + if calls[n].Some? then [calls[n].value] else [];
      && UsesUpLimit(repair, checks, calls, attempts',
           alerts + if calls[n].Some? && |attempts| + 1 == AttemptLimit(repair) then 1 else 0)
      && CountsAttempts(repair, checks, calls, attempts')
  {
    var n := |checks| - 1;
    assert |attempts| < AttemptLimit(repair) ==> |attempts| == n;
    assert forall i :: 0 <= i < n ==> calls[..n][i] == calls[i] && checks[..n][i] == checks[i];
    assert calls[n] == if n < AttemptLimit(repair) then Some(Recovery(checks[n].now, false)) else None;
  }

  /** Then each check up to the limit makes one attempt, at its own clock, no later one makes any, and the last attempt
      raises the only alert. */
  lemma {:induction false} DownServiceIsRecovered(repair: Repair, checks: seq<Observation>)
    requires StaysDown(repair, checks)
    ensures var reports := Reports(repair, FRESH, checks);
      && UsesUpLimit(repair, checks, Calls(repair, checks), Recoveries(reports), Alerts(reports))
      && CountsAttempts(repair, checks, Calls(repair, checks), Recoveries(reports))
  {
    if checks != [] {
      var n := |checks| - 1;
      var before := Reports(repair, FRESH, checks[..n]);
      DownServiceIsRecovered(repair, checks[..n]);
      RecoversExactly(repair, checks, n);
      CallsPrefix(repair, checks, n);
      ReportsPrefix(repair, checks, n);
      assert Reports(repair, FRESH, checks)[..n] == before;
      UsesUpNext(repair, checks, Calls(repair, checks), Recoveries(before), Alerts(before));
    }
  }
}
