/** The deployments table (src/storage/deployment-repository.ts). `id` is the primary key, so the
    table is a map; the SELECTs are set comprehensions and the UPDATE and DELETE loops are methods. */
module Deployments {
  import opened Records

  const DAY_MS: Millis := 86_400_000

  // ORDER BY created_at DESC, id DESC

  /** Text order of ids. */
  predicate TextBefore(a: string, b: string)
  {
    b != "" && (a == "" || a[0] < b[0] || (a[0] == b[0] && TextBefore(a[1..], b[1..])))
  }

  predicate Newer(rows: Rows, a: Id, b: Id)
    requires a in rows && b in rows
  {
    || rows[a].createdAt > rows[b].createdAt
    || (rows[a].createdAt == rows[b].createdAt && TextBefore(b, a))
  }

  function NewerThan(rows: Rows, among: set<Id>, id: Id): set<Id>
    requires among <= rows.Keys && id in rows
  {
    set o | o in among && Newer(rows, o, id)
  }

  /** The `limit` newest ids: LIMIT. */
  function Newest(rows: Rows, among: set<Id>, limit: nat): set<Id>
    requires among <= rows.Keys
  {
    set id | id in among && |NewerThan(rows, among, id)| < limit
  }

  // SELECTs

  function OfProject(rows: Rows, project: Project): (ids: set<Id>)
    ensures ids <= rows.Keys
  {
    set id | id in rows && rows[id].project == project
  }

  function ActiveOf(rows: Rows, project: Project): (ids: set<Id>)
    ensures ids <= rows.Keys
  {
    set id | id in rows && rows[id].project == project && Active(rows[id].status)
  }

  function FinishedOf(rows: Rows, project: Project): (ids: set<Id>)
    ensures ids <= rows.Keys
  {
    set id | id in rows && rows[id].project == project && !Active(rows[id].status)
  }

  predicate IsLatest(rows: Rows, project: Project, id: Id)
  {
    id in OfProject(rows, project) && NewerThan(rows, OfProject(rows, project), id) == {}
  }

  /** Equal, or one an abbreviation of the other. */
  predicate SameCommit(a: Sha, b: Sha)
  {
    a == b || b <= a || a <= b
  }

  predicate FailedStatus(s: Status)
  {
    s.Failed? || s.RolledBack? || s.RollbackFailed?
  }

  function RecentFailures(rows: Rows, project: Project, sha: Sha, limit: nat): set<Id>
  {
    set id | id in Newest(rows, OfProject(rows, project), limit)
      && SameCommit(rows[id].targetSha, sha) && (FailedStatus(rows[id].status) || rows[id].status.Cancelled?)
  }

  // Row updates

  function WithStatus(row: Row, status: Status, now: Millis): Row
  {
    if status.Running? then row.(status := status, startedAt := Some(now))
    else if Terminal(status) then row.(status := status, completedAt := Some(now))
    else row.(status := status)
  }

  function StatusUpdated(rows: Rows, id: Id, status: Status, now: Millis): Rows
  {
    if id in rows then rows[id := WithStatus(rows[id], status, now)] else rows
  }

  /** Every row of `ids` gets the final status; all other rows stay. */
  function Finished(rows: Rows, ids: set<Id>, status: Status, now: Millis): Rows
  {
    map id | id in rows :: if id in ids then WithStatus(rows[id], status, now) else rows[id]
  }

  /** What a newer deployment cancels: queued and running rows, except the protected ones. */
  function Superseded(rows: Rows, project: Project, protected: set<Id>): set<Id>
  {
    set id | id in ActiveOf(rows, project) && !rows[id].status.RollingBack? && id !in protected
  }

  function StaleRunning(rows: Rows, maxAge: Millis, now: Millis): set<Id>
  {
    set id | id in rows && (rows[id].status.Running? || rows[id].status.RollingBack?)
      && (if rows[id].startedAt.Some? then rows[id].startedAt.value else rows[id].createdAt) < now - maxAge
  }

  function StaleQueued(rows: Rows, maxAge: Millis, now: Millis): set<Id>
  {
    set id | id in rows && rows[id].status.Queued? && rows[id].createdAt < now - maxAge
  }

  // Retention

  predicate InScope(row: Row, project: Option<Project>)
  {
    project.None? || row.project == project.value
  }

  function TooOld(rows: Rows, project: Option<Project>, maxAgeDays: Option<int>, now: Millis): set<Id>
  {
    set id | id in rows && maxAgeDays.Some? && maxAgeDays.value > 0
      && rows[id].createdAt < now - maxAgeDays.value * DAY_MS
      && !Active(rows[id].status) && InScope(rows[id], project)
  }

  /** Finished rows of `projects` outranked by at least `keepCount` newer finished rows of their project. */
  function Surplus(rows: Rows, projects: set<Project>, keepCount: int): set<Id>
  {
    set id | id in rows && rows[id].project in projects
      && !Active(rows[id].status) && |NewerThan(rows, FinishedOf(rows, rows[id].project), id)| >= keepCount
  }

  function ProjectsInScope(rows: Rows, project: Option<Project>): set<Project>
  {
    set id | id in rows && InScope(rows[id], project) :: rows[id].project
  }

  function TooMany(rows: Rows, project: Option<Project>, keepCount: Option<int>): set<Id>
  {
    if keepCount.Some? && keepCount.value >= 0 then Surplus(rows, ProjectsInScope(rows, project), keepCount.value)
    else {}
  }

  function Retained(rows: Rows, project: Option<Project>, keepCount: Option<int>, maxAgeDays: Option<int>, now: Millis): Rows
  {
    var young := rows - TooOld(rows, project, maxAgeDays, now);
    young - TooMany(young, project, keepCount)
  }

  // INSERT

  function Inserted(rows: Rows, id: Id, row: Row): Rows
  {
    rows[id := row]
  }

  /** A new queued row joins the active ones of its project alone, changes no other, and is the newest of its project
      exactly when no other has a later creation time, or the same and a later id. */
  lemma InsertedIsNewest(rows: Rows, id: Id, row: Row)
    requires id !in rows && row.status.Queued?
    ensures var rows' := Inserted(rows, id, row);
      && (forall o :: o in rows ==> o in rows' && rows'[o] == rows[o]) && rows'.Keys == rows.Keys + {id}
      && (forall p :: ActiveOf(rows', p) == ActiveOf(rows, p) + (if p == row.project then {id} else {}))
      && (IsLatest(rows', row.project, id) <==> forall o :: o in OfProject(rows, row.project) ==>
            rows[o].createdAt < row.createdAt || (rows[o].createdAt == row.createdAt && !TextBefore(id, o)))
  {
    var rows' := Inserted(rows, id, row);
    NewerTotal(rows', id, id);
    assert OfProject(rows', row.project) == OfProject(rows, row.project) + {id};
    forall o | o in OfProject(rows, row.project)
      ensures Newer(rows', o, id) <==>
        !(rows[o].createdAt < row.createdAt || (rows[o].createdAt == row.createdAt && !TextBefore(id, o)))
    {
    }
  }

  class DeploymentRepository {
    var rows: Rows

    constructor ()
      ensures rows == map[]
    {
      rows := map[];
    }

    /** One active deployment more for this project and for no other; it is the newest, if none is newer than now. */
    method CreateDeployment(id: Id, project: Project, previousSha: Option<Sha>, targetSha: Sha, dryRun: bool, now: Millis)
      requires id !in rows
      modifies this
      ensures rows == Inserted(old(rows), id, Row(project, previousSha, targetSha, Queued, dryRun, now, None, None))
      ensures forall p :: ActiveOf(rows, p) == old(ActiveOf(rows, p)) + (if p == project then {id} else {})
      ensures IsLatest(rows, project, id) <==> forall o :: o in old(OfProject(rows, project)) ==>
        old(rows)[o].createdAt < now || (old(rows)[o].createdAt == now && !TextBefore(id, o))
    {
      InsertedIsNewest(rows, id, Row(project, previousSha, targetSha, Queued, dryRun, now, None, None));
      rows := rows[id := Row(project, previousSha, targetSha, Queued, dryRun, now, None, None)];
    }

    method UpdateStatus(id: Id, status: Status, now: Millis)
      modifies this
      ensures rows == StatusUpdated(old(rows), id, status, now)
      ensures rows.Keys == old(rows).Keys && forall o :: o in rows && o != id ==> rows[o] == old(rows)[o]
      ensures id in rows ==>
        rows[id] == old(rows)[id].(
          status := status,
          startedAt := if status.Running? then Some(now) else old(rows)[id].startedAt,
          completedAt := if status.Running? || status.Queued? || status.RollingBack? then old(rows)[id].completedAt
                         else Some(now))
    {
      if id in rows {
        var row := rows[id];
        if status.Running? {
          row := row.(startedAt := Some(now));
        } else if Terminal(status) {
          row := row.(completedAt := Some(now));
        }
        rows := rows[id := row.(status := status)];
      }
    }

    /** The loop shared by cancellation and by the watchdog: one UPDATE for each selected id. */
    method FinishAll(ids: set<Id>, status: Status, now: Millis)
      requires ids <= rows.Keys && Terminal(status)
      modifies this
      ensures rows == Finished(old(rows), ids, status, now)
    {
      var todo := ids;
      while todo != {}
        invariant todo <= ids
        invariant rows == Finished(old(rows), ids - todo, status, now)
      {
        var id :| id in todo;
        todo := todo - {id};
        UpdateStatus(id, status, now);
      }
    }

    method CancelPendingDeployments(project: Project, excludeIds: set<Id>, now: Millis) returns (cancelled: set<Id>)
      modifies this
      ensures cancelled == Superseded(old(rows), project, excludeIds)
      ensures rows == Finished(old(rows), cancelled, Cancelled, now)
      ensures forall id :: id in cancelled <==>
        && id in old(rows) && old(rows)[id].project == project && id !in excludeIds
        && (old(rows)[id].status.Queued? || old(rows)[id].status.Running?)
    {
      cancelled := Superseded(rows, project, excludeIds);
      FinishAll(cancelled, Cancelled, now);
    }

    method FailDeployments(candidates: set<Id>, activeIds: set<Id>, now: Millis) returns (failed: nat)
      requires candidates <= rows.Keys
      modifies this
      ensures rows == Finished(old(rows), candidates - activeIds, Failed, now)
      ensures failed == |candidates - activeIds|
    {
      var toFail := candidates - activeIds;
      FinishAll(toFail, Failed, now);
      failed := |toFail|;
    }

    method CleanupStaleJobs(maxAgeMs: Millis, activeIds: set<Id>, now: Millis) returns (failed: nat)
      modifies this
      ensures rows == Finished(old(rows), StaleRunning(old(rows), maxAgeMs, now) - activeIds, Failed, now)
      ensures rows.Keys == old(rows).Keys
      ensures forall id :: id in old(rows) ==>
        var row := old(rows)[id];
        var age := now - (if row.startedAt.Some? then row.startedAt.value else row.createdAt);
        rows[id] == if (row.status.Running? || row.status.RollingBack?) && age > maxAgeMs && id !in activeIds
                    then row.(status := Failed, completedAt := Some(now)) else row
    {
      failed := FailDeployments(StaleRunning(rows, maxAgeMs, now), activeIds, now);
    }

    method FailStaleQueuedDeployments(maxAgeMs: Millis, activeIds: set<Id>, now: Millis) returns (failed: nat)
      modifies this
      ensures rows == Finished(old(rows), StaleQueued(old(rows), maxAgeMs, now) - activeIds, Failed, now)
      ensures rows.Keys == old(rows).Keys
      ensures forall id :: id in old(rows) ==>
        var row := old(rows)[id];
        rows[id] == if row.status.Queued? && now - row.createdAt > maxAgeMs && id !in activeIds
                    then row.(status := Failed, completedAt := Some(now)) else row
    {
      failed := FailDeployments(StaleQueued(rows, maxAgeMs, now), activeIds, now);
    }

    method Delete(ids: set<Id>) returns (changes: nat)
      requires ids <= rows.Keys
      modifies this
      ensures rows == old(rows) - ids
      ensures changes == |ids| == |old(rows).Keys| - |rows.Keys|
    {
      assert (rows - ids).Keys == rows.Keys - ids;
      rows := rows - ids;
      changes := |ids|;
    }

    /** The DELETE for one project, after the projects in `done` have been pruned from `all`. */
    method PruneProject(project: Project, keepCount: nat, ghost all: Rows, ghost done: set<Project>)
      returns (changes: nat)
      requires project !in done && rows == all - Surplus(all, done, keepCount)
      modifies this
      ensures rows == all - Surplus(all, done + {project}, keepCount)
      ensures changes == |old(rows).Keys| - |rows.Keys|
    {
      SurplusNext(all, done, project, keepCount);
      changes := Delete(Surplus(rows, {project}, keepCount));
    }

    /** One DELETE per project, each on what the previous ones left. */
    method PruneProjects(projects: set<Project>, keepCount: nat) returns (deleted: nat)
      modifies this
      ensures rows == old(rows) - Surplus(old(rows), projects, keepCount)
      ensures deleted == |old(rows).Keys| - |rows.Keys|
    {
      var todo := projects;
      ghost var done: set<Project> := {};
      NothingSurplus(rows, keepCount);
      deleted := 0;
      while todo != {}
        invariant done !! todo && done + todo == projects
        invariant rows == old(rows) - Surplus(old(rows), done, keepCount)
        invariant deleted == |old(rows).Keys| - |rows.Keys|
      {
        var p :| p in todo;
        var changes := PruneProject(p, keepCount, old(rows), done);
        deleted := deleted + changes;
        todo, done := todo - {p}, done + {p};
      }
      assert done == projects;
    }

    method PruneDeployments(project: Option<Project>, keepCount: Option<int>, maxAgeDays: Option<int>, now: Millis)
      returns (deletedDeployments: nat)
      modifies this
      ensures rows == Retained(old(rows), project, keepCount, maxAgeDays, now)
      ensures deletedDeployments == |old(rows).Keys| - |rows.Keys|
    {
      deletedDeployments := 0;
      if maxAgeDays.Some? && maxAgeDays.value > 0 {
        deletedDeployments := Delete(TooOld(rows, project, maxAgeDays, now));
      } else {
        assert TooOld(rows, project, maxAgeDays, now) == {};
        RemoveNothing(rows);
      }
      ghost var young := rows;
      RemoveNothing(young);
      if keepCount.Some? && keepCount.value >= 0 {
        var deleted := PruneProjects(ProjectsInScope(rows, project), keepCount.value);
        deletedDeployments := deletedDeployments + deleted;
      }
    }
  }

  lemma RemoveNothing(rows: Rows)
    ensures rows - {} == rows
  {
  }

  lemma NothingSurplus(rows: Rows, keepCount: nat)
    ensures rows - Surplus(rows, {}, keepCount) == rows
  {
    assert Surplus(rows, {}, keepCount) == {};
  }

  /** Pruning one more project is not affected by what was pruned from the others. */
  lemma SurplusNext(rows: Rows, done: set<Project>, project: Project, keepCount: nat)
    requires project !in done
    ensures var left := rows - Surplus(rows, done, keepCount);
      left - Surplus(left, {project}, keepCount) == rows - Surplus(rows, done + {project}, keepCount)
  {
    var left := rows - Surplus(rows, done, keepCount);
    assert FinishedOf(left, project) == FinishedOf(rows, project);
    SameRanks(left, rows, project);
    assert Surplus(rows, done + {project}, keepCount) == Surplus(rows, done, keepCount) + Surplus(left, {project}, keepCount);
  }

  lemma SameRanks(rows: Rows, more: Rows, project: Project)
    requires rows.Keys <= more.Keys && forall id :: id in rows ==> rows[id] == more[id]
    requires FinishedOf(rows, project) == FinishedOf(more, project)
    ensures forall id :: id in FinishedOf(rows, project) ==>
      NewerThan(rows, FinishedOf(rows, project), id) == NewerThan(more, FinishedOf(more, project), id)
  {
  }

  // The order is strict and total

  lemma {:induction false} TextTotal(a: string, b: string)
    ensures (if TextBefore(a, b) then 1 else 0) + (if TextBefore(b, a) then 1 else 0) + (if a == b then 1 else 0) == 1
  {
    if a != "" && b != "" && a[0] == b[0] {
      TextTotal(a[1..], b[1..]);
      assert a == [a[0]] + a[1..] && b == [b[0]] + b[1..];
    }
  }

  lemma {:induction false} TextTransitive(a: string, b: string, c: string)
    requires TextBefore(a, b) && TextBefore(b, c)
    ensures TextBefore(a, c)
  {
    if a != "" && a[0] == b[0] == c[0] {
      TextTransitive(a[1..], b[1..], c[1..]);
    }
  }

  lemma NewerTotal(rows: Rows, a: Id, b: Id)
    requires a in rows && b in rows
    ensures Newer(rows, a, b) ==> !Newer(rows, b, a) && a != b
    ensures a != b && !Newer(rows, a, b) ==> Newer(rows, b, a)
  {
    TextTotal(a, b);
  }

  lemma NewerTransitive(rows: Rows, a: Id, b: Id, c: Id)
    requires a in rows && b in rows && c in rows && Newer(rows, a, b) && Newer(rows, b, c)
    ensures Newer(rows, a, c)
  {
    if rows[a].createdAt == rows[c].createdAt {
      TextTransitive(c, b, a);
    }
  }

  lemma {:induction false} Oldest(rows: Rows, among: set<Id>) returns (oldest: Id)
    requires among <= rows.Keys && among != {}
    ensures oldest in among && forall id :: id in among && id != oldest ==> Newer(rows, id, oldest)
  {
    var id :| id in among;
    if among == {id} {
      oldest := id;
    } else {
      var rest := among - {id};
      assert rest != {};
      oldest := Oldest(rows, rest);
      NewerTotal(rows, id, oldest);
      if !Newer(rows, id, oldest) {
        forall other | other in rest && other != oldest
          ensures Newer(rows, other, id)
        {
          NewerTransitive(rows, other, oldest, id);
        }
        oldest := id;
      }
    }
  }

  /** A limit selects exactly that many rows, or all of them. */
  lemma {:induction false} NewestCount(rows: Rows, among: set<Id>, limit: nat)
    requires among <= rows.Keys
    ensures |Newest(rows, among, limit)| == if |among| < limit then |among| else limit
  {
    if among == {} {
      assert Newest(rows, among, limit) == {};
    } else {
      var oldest := Oldest(rows, among);
      var rest := among - {oldest};
      NewestCount(rows, rest, limit);
      NewerTotal(rows, oldest, oldest);
      assert NewerThan(rows, among, oldest) == rest;
      forall id | id in rest
        ensures NewerThan(rows, among, id) == NewerThan(rows, rest, id)
      {
        NewerTotal(rows, id, oldest);
      }
      if |rest| < limit {
        assert Newest(rows, among, limit) == Newest(rows, rest, limit) + {oldest};
      } else {
        assert Newest(rows, among, limit) == Newest(rows, rest, limit);
      }
    }
  }

  /** Whatever is selected by a limit is newer than whatever is not. */
  lemma NewestIsNewer(rows: Rows, among: set<Id>, limit: nat, kept: Id, dropped: Id)
    requires among <= rows.Keys
    requires kept in Newest(rows, among, limit) && dropped in among - Newest(rows, among, limit)
    ensures Newer(rows, kept, dropped)
  {
    NewerTotal(rows, kept, dropped);
    if !Newer(rows, kept, dropped) {
      var above, aboveDropped := NewerThan(rows, among, kept), NewerThan(rows, among, dropped);
      forall o | o in aboveDropped
        ensures o in above
      {
        NewerTransitive(rows, o, dropped, kept);
      }
      Subset(aboveDropped, above);
    }
  }

  lemma Subset(a: set<Id>, b: set<Id>)
    requires a <= b
    ensures |a| <= |b|
  {
    assert b == a + (b - a);
  }

  // What retention keeps

  /** No kind of prune removes an active row, or changes a row it keeps. */
  lemma RetentionSparesActive(rows: Rows, project: Option<Project>, keepCount: Option<int>, maxAgeDays: Option<int>, now: Millis)
    ensures var kept := Retained(rows, project, keepCount, maxAgeDays, now);
      && (forall id :: id in kept ==> id in rows && kept[id] == rows[id])
      && (forall id :: id in rows && Active(rows[id].status) ==> id in kept)
  {
  }

  /** Pruning by age alone removes exactly the finished rows in scope that are older than the limit, and a limit that is
      not positive, or none, removes nothing. */
  lemma AgePruneKeepsYoung(rows: Rows, scope: Option<Project>, maxAgeDays: Option<int>, now: Millis, id: Id)
    requires id in rows
    ensures id in Retained(rows, scope, None, maxAgeDays, now) <==>
      || Active(rows[id].status)
      || (scope.Some? && rows[id].project != scope.value)
      || maxAgeDays.None? || maxAgeDays.value <= 0
      || now - rows[id].createdAt <= maxAgeDays.value * 24 * 60 * 60 * 1000
  {
  }

  /** Pruning by count alone leaves exactly the newest finished rows of every project in scope. */
  lemma CountPruneKeepsNewest(rows: Rows, scope: Option<Project>, keepCount: nat, now: Millis, project: Project)
    requires scope.None? || scope.value == project
    ensures var kept := Retained(rows, scope, Some(keepCount), None, now);
      var finished := FinishedOf(rows, project);
      && FinishedOf(kept, project) == Newest(rows, finished, keepCount)
      && |FinishedOf(kept, project)| == (if |finished| < keepCount then |finished| else keepCount)
      && (forall a, b :: a in FinishedOf(kept, project) && b in finished && b !in kept ==> Newer(rows, a, b))
  {
    var kept := Retained(rows, scope, Some(keepCount), None, now);
    var finished := FinishedOf(rows, project);
    assert rows - TooOld(rows, scope, None, now) == rows;
    assert FinishedOf(kept, project) == Newest(rows, finished, keepCount);
    NewestCount(rows, finished, keepCount);
    forall a, b | a in FinishedOf(kept, project) && b in finished && b !in kept
      ensures Newer(rows, a, b)
    {
      NewestIsNewer(rows, finished, keepCount, a, b);
    }
  }
}
