/** What a check of a project decides (src/watcher/source-watcher.ts, `checkProject`), and how polls retry a failing
    commit. */
module Watcher {
  import opened Records
  import opened Deployments

  const MAX_ATTEMPTS := 3
  const RECENT := 10

  /** The project's `lastSeenSha` and `lastSuccessfulSha`. */
  datatype Shas = Shas(lastSeen: Option<Sha>, lastSuccessful: Option<Sha>)

  /** Either nothing is deployed, and the commit may be noted as seen; or a deployment is created, after older ones
      have been superseded. */
  datatype Decision = Skip(markSeen: bool) | Deploy(supersede: bool)

  predicate IsSameSha(a: Option<Sha>, b: Option<Sha>)
  {
    a.Some? && b.Some? && a.value != "" && b.value != "" && SameCommit(a.value, b.value)
  }

  function Duplicates(rows: Rows, project: Project, sha: Sha): set<Id>
  {
    set id | id in ActiveOf(rows, project) && IsSameSha(Some(rows[id].targetSha), Some(sha))
  }

  ghost function LatestDeployment(rows: Rows, project: Project): (latest: Option<Id>)
    ensures latest.Some? ==> IsLatest(rows, project, latest.value)
    ensures latest.None? ==> OfProject(rows, project) == {}
  {
    if OfProject(rows, project) == {} then None
    else
      SomeIsLatest(rows, project);
      var id :| IsLatest(rows, project, id);
      Some(id)
  }

  lemma {:induction false} NewestExists(rows: Rows, among: set<Id>) returns (newest: Id)
    requires among <= rows.Keys && among != {}
    ensures newest in among && NewerThan(rows, among, newest) == {}
  {
    var id :| id in among;
    var rest := among - {id};
    assert among == rest + {id};
    if rest == {} {
      NewestNext(rows, rest, None, id);
      newest := id;
    } else {
      newest := NewestExists(rows, rest);
      NewestNext(rows, rest, Some(newest), id);
      newest := if Newer(rows, id, newest) then id else newest;
    }
  }

  lemma NotNewer(rows: Rows, o: Id, id: Id, best: Id)
    requires o in rows && id in rows && best in rows && Newer(rows, id, best) && !Newer(rows, o, best)
    ensures !Newer(rows, o, id)
  {
    if Newer(rows, o, id) {
      NewerTransitive(rows, o, id, best);
    }
  }

  lemma SomeIsLatest(rows: Rows, project: Project)
    requires OfProject(rows, project) != {}
    ensures exists id :: IsLatest(rows, project, id)
  {
    var id := NewestExists(rows, OfProject(rows, project));
    assert IsLatest(rows, project, id);
  }

  lemma LatestIsUnique(rows: Rows, project: Project, a: Id, b: Id)
    requires IsLatest(rows, project, a) && IsLatest(rows, project, b)
    ensures a == b
  {
    NewerTotal(rows, a, b);
    assert a !in NewerThan(rows, OfProject(rows, project), b);
    assert b !in NewerThan(rows, OfProject(rows, project), a);
  }

  function Pow2(n: nat): (power: nat)
    ensures power >= 1
  {
    if n == 0 then 1 else 2 * Pow2(n - 1)
  }

  function Cooldown(failedCount: nat): Millis
  {
    60000 * Pow2(if failedCount > 1 then failedCount - 1 else 0)
  }

  function CompletedOrCreated(row: Row): Millis
  {
    if row.completedAt.Some? then row.completedAt.value else row.createdAt
  }

  /** Whether a poll stops before the queue mode is looked at, and if so whether it notes the commit as seen. */
  ghost function PollStops(rows: Rows, project: Project, shas: Shas, sha: Sha, now: Millis): Option<bool>
  {
    var latest := LatestDeployment(rows, project);
    if latest.Some? && IsSameSha(Some(rows[latest.value].targetSha), Some(sha)) then
      RowStops(rows[latest.value], |RecentFailures(rows, project, sha, RECENT)|, shas, sha, now)
    else if IsSameSha(Some(sha), shas.lastSeen) && IsSameSha(Some(sha), shas.lastSuccessful) then Some(false)
    else None
  }

  /** The same, for a latest row of the commit itself. */
  function RowStops(row: Row, failedCount: nat, shas: Shas, sha: Sha, now: Millis): Option<bool>
  {
    if row.status.Success? || row.status.Cancelled? then Some(shas.lastSeen != Some(sha))
    else if !FailedStatus(row.status) then None
    else if failedCount >= MAX_ATTEMPTS then Some(shas.lastSeen != Some(sha))
    else if now - CompletedOrCreated(row) < Cooldown(failedCount) then Some(false)
    else None
  }

  function ByQueueMode(mode: QueueMode, busy: bool): Decision
  {
    if !busy then Deploy(false)
    else match mode
      case Reject => Skip(false)
      case Latest => Deploy(true)
      case Fifo => Deploy(false)
  }

  ghost function Decide(
    rows: Rows, project: Project, shas: Shas, trigger: Trigger, sha: Sha, mode: QueueMode, now: Millis): Decision
  {
    if Duplicates(rows, project, sha) != {} then Skip(false)
    else
      var stops := if trigger.Poll? then PollStops(rows, project, shas, sha, now) else None;
      if stops.Some? then Skip(stops.value) else ByQueueMode(mode, ActiveOf(rows, project) != {})
  }

  /** Created rows are queued rows for the remote commit. */
  function Created(rows: Rows, id: Id, project: Project, shas: Shas, sha: Sha, now: Millis): Rows
  {
    Inserted(rows, id, Row(project, shas.lastSuccessful, sha, Queued, false, now, None, None))
  }

  class SourceWatcher {
    const deploymentRepo: DeploymentRepository

    constructor (deploymentRepo: DeploymentRepository)
      ensures this.deploymentRepo == deploymentRepo
    {
      this.deploymentRepo := deploymentRepo;
    }

    /** `ORDER BY created_at DESC, id DESC LIMIT 1`. */
    method GetLatestDeployment(project: Project) returns (latest: Option<Id>)
      ensures latest == LatestDeployment(deploymentRepo.rows, project)
    {
      var rows := deploymentRepo.rows;
      var all := OfProject(rows, project);
      var todo := all;
      latest := None;
      while todo != {}
        invariant todo <= all
        invariant latest.None? ==> todo == all
        invariant latest.Some? ==> latest.value in all - todo && NewerThan(rows, all - todo, latest.value) == {}
      {
        var id :| id in todo;
        NewestNext(rows, all - todo, latest, id);
        if latest.None? || Newer(rows, id, latest.value) {
          latest := Some(id);
        }
        assert all - (todo - {id}) == (all - todo) + {id};
        todo := todo - {id};
      }
      assert all - {} == all;
      if latest.Some? {
        LatestIsUnique(rows, project, latest.value, LatestDeployment(rows, project).value);
      }
    }

    /** The part of `checkProject` between the remote head and the queue modes' effects. */
    method CheckRemote(project: Project, shas: Shas, trigger: Trigger, sha: Sha, mode: QueueMode, now: Millis)
      returns (decision: Decision)
      ensures decision == Decide(deploymentRepo.rows, project, shas, trigger, sha, mode, now)
      ensures sha != "" ==> DeploysRightly(deploymentRepo.rows, project, shas, trigger, sha, mode, now, decision)
      ensures sha != "" ==> NotesRightly(deploymentRepo.rows, project, shas, trigger, sha, decision)
    {
      if sha != "" {
        DeploysExactly(deploymentRepo.rows, project, shas, trigger, sha, mode, now);
        NotesExactly(deploymentRepo.rows, project, shas, trigger, sha, mode, now);
      }
      var rows := deploymentRepo.rows;
      var activeDeps := ActiveOf(rows, project);
      if Duplicates(rows, project, sha) != {} {
        return Skip(false);
      }
      if trigger.Poll? {
        var latestDep := GetLatestDeployment(project);
        if latestDep.Some? && IsSameSha(Some(rows[latestDep.value].targetSha), Some(sha)) {
          var row := rows[latestDep.value];
          var unseen := shas.lastSeen != Some(sha);
          if row.status.Success? {
            return Skip(unseen);
          }
          if row.status.Cancelled? {
            return Skip(unseen);
          }
          if FailedStatus(row.status) {
            var failedCount := |RecentFailures(rows, project, sha, RECENT)|;
            var cooldownMs := Cooldown(failedCount);
            if failedCount >= MAX_ATTEMPTS {
              return Skip(unseen);
            }
            if now - CompletedOrCreated(row) < cooldownMs {
              return Skip(false);
            }
          }
        } else if IsSameSha(Some(sha), shas.lastSeen) && IsSameSha(Some(sha), shas.lastSuccessful) {
          return Skip(false);
        }
      }
      if activeDeps != {} {
        match mode {
          case Reject => return Skip(false);
          case Latest => return Deploy(true);
          case Fifo =>
        }
      }
      decision := Deploy(false);
    }
  }

  lemma NewestNext(rows: Rows, seen: set<Id>, latest: Option<Id>, id: Id)
    requires seen <= rows.Keys && id in rows && id !in seen
    requires if latest.None? then seen == {} else latest.value in seen && NewerThan(rows, seen, latest.value) == {}
    ensures var best := if latest.None? || Newer(rows, id, latest.value) then id else latest.value;
      NewerThan(rows, seen + {id}, best) == {}
  {
    NewerTotal(rows, id, id);
    if latest.Some? && Newer(rows, id, latest.value) {
      forall o | o in seen
        ensures !Newer(rows, o, id)
      {
        assert o !in NewerThan(rows, seen, latest.value);
        NotNewer(rows, o, id, latest.value);
      }
    }
  }

  // What a check decides, exactly

  /** One text is the other, or an abbreviation of it. */
  predicate Abbreviates(a: Sha, b: Sha)
  {
    a <= b || b <= a
  }

  predicate OfCommit(row: Row, sha: Sha)
  {
    row.targetSha != "" && Abbreviates(row.targetSha, sha)
  }

  /** Failed or cancelled attempts at a commit among the ten newest deployments of a project. */
  function Attempts(rows: Rows, project: Project, sha: Sha): set<Id>
  {
    set id | id in OfProject(rows, project) && |NewerThan(rows, OfProject(rows, project), id)| < 10
      && Abbreviates(rows[id].targetSha, sha) && !Active(rows[id].status) && !rows[id].status.Success?
  }

  /** The newest deployment is of the commit, and has failed less than three attempts ago and long enough ago. */
  ghost predicate RetryDue(rows: Rows, project: Project, sha: Sha, now: Millis)
  {
    var failures := |Attempts(rows, project, sha)|;
    exists id :: IsLatest(rows, project, id) && OfCommit(rows[id], sha)
      && (rows[id].status.Failed? || rows[id].status.RolledBack? || rows[id].status.RollbackFailed?)
      && failures < 3
      && now - (if rows[id].completedAt.Some? then rows[id].completedAt.value else rows[id].createdAt)
           >= (if failures == 2 then 120_000 else 60_000)
  }

  /** The newest deployment, if there is one, is of another commit, and this one is not both seen and deployed. */
  ghost predicate NewCommit(rows: Rows, project: Project, shas: Shas, sha: Sha)
  {
    && (forall id :: IsLatest(rows, project, id) ==> !OfCommit(rows[id], sha))
    && !(&& shas.lastSeen.Some? && shas.lastSeen.value != "" && Abbreviates(shas.lastSeen.value, sha)
         && shas.lastSuccessful.Some? && shas.lastSuccessful.value != "" && Abbreviates(shas.lastSuccessful.value, sha))
  }

  /** The newest deployment is of the commit, and no poll will try it again. */
  ghost predicate GivenUp(rows: Rows, project: Project, sha: Sha)
  {
    exists id :: IsLatest(rows, project, id) && OfCommit(rows[id], sha)
      && (rows[id].status.Success? || rows[id].status.Cancelled?
          || (!Active(rows[id].status) && |Attempts(rows, project, sha)| >= 3))
  }

  lemma AttemptsAreRecentFailures(rows: Rows, project: Project, sha: Sha)
    ensures Attempts(rows, project, sha) == RecentFailures(rows, project, sha, RECENT)
  {
  }

  lemma NoDuplicates(rows: Rows, project: Project, sha: Sha)
    requires sha != ""
    ensures Duplicates(rows, project, sha) == {} <==>
      forall id :: id in ActiveOf(rows, project) ==> !OfCommit(rows[id], sha)
  {
    if Duplicates(rows, project, sha) == {} {
      forall id | id in ActiveOf(rows, project)
        ensures !OfCommit(rows[id], sha)
      {
        assert id !in Duplicates(rows, project, sha);
      }
    }
  }

  /** Whether a poll goes on, for a commit that is not being deployed. */
  lemma PollsExactly(rows: Rows, project: Project, shas: Shas, sha: Sha, now: Millis)
    requires sha != "" && forall id :: id in ActiveOf(rows, project) ==> !OfCommit(rows[id], sha)
    ensures var stops := PollStops(rows, project, shas, sha, now);
      && (stops.None? <==> RetryDue(rows, project, sha, now) || NewCommit(rows, project, shas, sha))
      && (stops == Some(true) <==> shas.lastSeen != Some(sha) && GivenUp(rows, project, sha))
  {
    AttemptsAreRecentFailures(rows, project, sha);
    var latest := LatestDeployment(rows, project);
    if latest.Some? {
      forall id | IsLatest(rows, project, id)
        ensures id == latest.value
      {
        LatestIsUnique(rows, project, id, latest.value);
      }
      if OfCommit(rows[latest.value], sha) {
        RowStopsExactly(rows, project, latest.value, shas, sha, now);
      }
    }
  }

  lemma RowStopsExactly(rows: Rows, project: Project, id: Id, shas: Shas, sha: Sha, now: Millis)
    requires id in rows && !Active(rows[id].status)
    ensures var row, failures := rows[id], |Attempts(rows, project, sha)|;
      var stops := RowStops(row, failures, shas, sha, now);
      && (stops.None? <==>
            && !row.status.Success? && !row.status.Cancelled? && failures < 3
            && now - CompletedOrCreated(row) >= (if failures == 2 then 120_000 else 60_000))
      && (stops == Some(true) <==>
            shas.lastSeen != Some(sha) && (row.status.Success? || row.status.Cancelled? || failures >= 3))
  {
    assert Pow2(0) == 1 && Pow2(1) == 2;
  }

  /** A check deploys a commit exactly when no active deployment has it, the queue mode admits one more and, for a poll,
      the commit is new or its failed deployment is due for a retry. Older deployments are superseded exactly under
      `latest` with active ones; `fifo` deploys beside them. */
  ghost predicate DeploysRightly(
    rows: Rows, project: Project, shas: Shas, trigger: Trigger, sha: Sha, mode: QueueMode, now: Millis, d: Decision)
  {
    && (d.Deploy? <==>
          && (forall id :: id in ActiveOf(rows, project) ==> !OfCommit(rows[id], sha))
          && (mode.Reject? ==> ActiveOf(rows, project) == {})
          && (trigger.Poll? ==> RetryDue(rows, project, sha, now) || NewCommit(rows, project, shas, sha)))
    && (d == Deploy(true) <==> d.Deploy? && mode.Latest? && ActiveOf(rows, project) != {})
  }

  /** A check that deploys nothing notes the commit as seen exactly when it is a poll, the commit is not noted yet, no
      active deployment has it, and its newest deployment has succeeded, was cancelled or has failed for good. */
  ghost predicate NotesRightly(rows: Rows, project: Project, shas: Shas, trigger: Trigger, sha: Sha, d: Decision)
  {
    d == Skip(true) <==>
      && trigger.Poll? && shas.lastSeen != Some(sha)
      && (forall id :: id in ActiveOf(rows, project) ==> !OfCommit(rows[id], sha))
      && GivenUp(rows, project, sha)
  }

  lemma DeploysExactly(
    rows: Rows, project: Project, shas: Shas, trigger: Trigger, sha: Sha, mode: QueueMode, now: Millis)
    requires sha != ""
    ensures DeploysRightly(rows, project, shas, trigger, sha, mode, now, Decide(rows, project, shas, trigger, sha, mode, now))
  {
    NoDuplicates(rows, project, sha);
    if Duplicates(rows, project, sha) == {} {
      PollsExactly(rows, project, shas, sha, now);
    }
  }

  lemma NotesExactly(
    rows: Rows, project: Project, shas: Shas, trigger: Trigger, sha: Sha, mode: QueueMode, now: Millis)
    requires sha != ""
    ensures NotesRightly(rows, project, shas, trigger, sha, Decide(rows, project, shas, trigger, sha, mode, now))
  {
    NoDuplicates(rows, project, sha);
    if Duplicates(rows, project, sha) == {} {
      PollsExactly(rows, project, shas, sha, now);
    }
  }

  // Deduplication

  lemma ActiveCommitSkips(
    rows: Rows, project: Project, shas: Shas, trigger: Trigger, sha: Sha, mode: QueueMode, now: Millis, id: Id)
    requires id in ActiveOf(rows, project) && IsSameSha(Some(rows[id].targetSha), Some(sha))
    ensures Decide(rows, project, shas, trigger, sha, mode, now) == Skip(false)
  {
    assert id in Duplicates(rows, project, sha);
  }

  /** No poll or webhook deploys a commit that is already queued, running or being rolled back; under `reject`
      nothing is deployed beside an active deployment, and under `latest` only after superseding. */
  lemma DecisionsRespectActive(
    rows: Rows, project: Project, shas: Shas, trigger: Trigger, sha: Sha, mode: QueueMode, now: Millis)
    requires sha != ""
    ensures var d := Decide(rows, project, shas, trigger, sha, mode, now);
      d.Deploy? ==>
        && (forall id :: id in ActiveOf(rows, project) && rows[id].targetSha != "" ==> !SameCommit(rows[id].targetSha, sha))
        && (mode.Reject? ==> ActiveOf(rows, project) == {})
        && (d.supersede <==> mode.Latest? && ActiveOf(rows, project) != {})
  {
    forall id | id in ActiveOf(rows, project) && rows[id].targetSha != "" && SameCommit(rows[id].targetSha, sha)
      ensures id in Duplicates(rows, project, sha)
    {
    }
  }

  /** Once the newest deployment of a project is a success for the remote commit, polls create nothing, and
      retention of any kind does not change that. */
  lemma SettledCommitStaysSettled(
    rows: Rows, project: Project, newest: Id, sha: Sha, mode: QueueMode, now: Millis,
    scope: Option<Project>, keepCount: Option<int>, maxAgeDays: Option<int>, pruned: Millis)
    requires sha != "" && IsLatest(rows, project, newest)
    requires rows[newest].targetSha == sha && rows[newest].status.Success?
    ensures var shas := Shas(Some(sha), Some(sha));
      var kept := Retained(rows, scope, keepCount, maxAgeDays, pruned);
      Decide(rows, project, shas, Poll, sha, mode, now) == Skip(false) == Decide(kept, project, shas, Poll, sha, mode, now)
  {
    var kept := Retained(rows, scope, keepCount, maxAgeDays, pruned);
    LatestIsUnique(rows, project, newest, LatestDeployment(rows, project).value);
    RetentionSparesActive(rows, scope, keepCount, maxAgeDays, pruned);
    if newest in kept {
      StillLatest(rows, kept, project, newest);
      LatestIsUnique(kept, project, newest, LatestDeployment(kept, project).value);
    } else {
      PrunedNewestPrunesAll(rows, project, newest, scope, keepCount, maxAgeDays, pruned);
      if LatestDeployment(kept, project).Some? {
        var id := LatestDeployment(kept, project).value;
        if IsSameSha(Some(kept[id].targetSha), Some(sha)) {
          assert id in Duplicates(kept, project, sha);
        }
      }
    }
  }

  lemma StillLatest(rows: Rows, kept: Rows, project: Project, newest: Id)
    requires IsLatest(rows, project, newest) && newest in kept
    requires forall id :: id in kept ==> id in rows && kept[id] == rows[id]
    ensures IsLatest(kept, project, newest)
  {
    forall o | o in OfProject(kept, project)
      ensures !Newer(kept, o, newest)
    {
      assert o !in NewerThan(rows, OfProject(rows, project), newest);
    }
  }

  /** When retention drops the newest row, only active rows of the project are left. */
  lemma PrunedNewestPrunesAll(
    rows: Rows, project: Project, newest: Id,
    scope: Option<Project>, keepCount: Option<int>, maxAgeDays: Option<int>, now: Millis)
    requires IsLatest(rows, project, newest) && newest !in Retained(rows, scope, keepCount, maxAgeDays, now)
    ensures forall id :: id in OfProject(Retained(rows, scope, keepCount, maxAgeDays, now), project) ==> Active(rows[id].status)
  {
    var aged := TooOld(rows, scope, maxAgeDays, now);
    var young := rows - aged;
    forall id | id in OfProject(Retained(rows, scope, keepCount, maxAgeDays, now), project)
      ensures Active(rows[id].status)
    {
      assert id !in NewerThan(rows, OfProject(rows, project), newest);
      NewerTotal(rows, id, newest);
      if newest !in aged {
        StillLatest(rows, young, project, newest);
        assert NewerThan(young, FinishedOf(young, project), newest) == {};
      }
    }
  }
}
