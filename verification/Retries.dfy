/** How often polls deploy one commit that keeps failing: runs of polls that all see the same commit, interleaved with
    whatever the pipeline, the operator and the watchdog write into the rows. */
module Retries {
  import opened Records
  import opened Deployments
  import opened Watcher

  /** What is fixed during a run: the project, the commit every poll sees, and when the run began. */
  datatype Scene = Scene(project: Project, sha: Sha, mode: QueueMode, start: Millis)

  /** `attempts` are the deployments the polls have created, in order. */
  datatype State = State(rows: Rows, shas: Shas, now: Millis, attempts: seq<Id>)

  datatype Event =
    | PollCreates(id: Id, protected: set<Id>)
    | WriteStatus(id: Id, status: Status)
    | WriteShas(shas: Shas)
    | Tick(elapsed: nat)

  /** Only an unfinished row changes its status, and it is never queued again. A row that was cancelled while it was
      being rolled back still records how the rollback ended. */
  predicate MayWrite(row: Row, status: Status)
  {
    && !status.Queued?
    && (Active(row.status) || (row.status.Cancelled? && (status.RolledBack? || status.RollbackFailed?)))
  }

  ghost predicate Possible(scene: Scene, s: State, e: Event)
  {
    match e
    case PollCreates(id, _) => id !in s.rows && Decide(s.rows, scene.project, s.shas, Poll, scene.sha, scene.mode, s.now).Deploy?
    case WriteStatus(id, status) => id in s.rows && MayWrite(s.rows[id], status)
    case WriteShas(_) => true
    case Tick(_) => true
  }

  function Superseding(scene: Scene, s: State, protected: set<Id>): Rows
  {
    if scene.mode.Latest? && ActiveOf(s.rows, scene.project) != {}
    then Finished(s.rows, Superseded(s.rows, scene.project, protected), Cancelled, s.now) else s.rows
  }

  function Apply(scene: Scene, s: State, e: Event): State
  {
    match e
    case PollCreates(id, protected) =>
      s.(rows := Created(Superseding(scene, s, protected), id, scene.project, s.shas, scene.sha, s.now),
         shas := s.shas.(lastSeen := Some(scene.sha)),
         attempts := s.attempts + [id])
    case WriteStatus(id, status) => s.(rows := StatusUpdated(s.rows, id, status, s.now))
    case WriteShas(shas) => s.(shas := shas)
    case Tick(elapsed) => s.(now := s.now + elapsed)
  }

  ghost predicate Feasible(scene: Scene, s: State, events: seq<Event>)
    decreases |events|
  {
    events != [] ==> Possible(scene, s, events[0]) && Feasible(scene, Apply(scene, s, events[0]), events[1..])
  }

  function Run(scene: Scene, s: State, events: seq<Event>): State
    decreases |events|
  {
    if events == [] then s else Run(scene, Apply(scene, s, events[0]), events[1..])
  }

  /** Before the commit appears: every row of the project is older, and is of another commit. */
  ghost predicate Fresh(scene: Scene, s: State)
  {
    && s.attempts == [] && scene.sha != "" && scene.start <= s.now
    && forall id :: id in OfProject(s.rows, scene.project) ==> IsOther(scene, s.rows[id])
  }

  predicate IsOther(scene: Scene, row: Row)
  {
    row.createdAt < scene.start && !SameCommit(row.targetSha, scene.sha)
  }

  ghost predicate Stored(s: State)
  {
    forall k :: 0 <= k < |s.attempts| ==> s.attempts[k] in s.rows
  }

  /** A deployment of the commit; a finished one has a completion time, between its creation and now. */
  predicate IsAttempt(scene: Scene, row: Row, now: Millis)
  {
    && row.project == scene.project && row.targetSha == scene.sha && scene.start <= row.createdAt <= now
    && (Terminal(row.status) ==> row.completedAt.Some? && row.createdAt <= row.completedAt.value <= now)
  }

  /** The k-th attempt has failed for good, and the next was created only after its cooldown. */
  predicate Retried(row: Row, next: Row, k: nat)
  {
    && FailedStatus(row.status) && row.completedAt.Some? && row.createdAt <= row.completedAt.value
    && next.createdAt - row.completedAt.value >= 60000 * Pow2(k)
  }

  ghost predicate Inv(scene: Scene, s: State)
  {
    && scene.sha != "" && scene.start <= s.now && |s.attempts| <= MAX_ATTEMPTS && Stored(s)
    && (forall k :: 0 <= k < |s.attempts| ==> IsAttempt(scene, s.rows[s.attempts[k]], s.now))
    && (forall k :: 0 <= k < |s.attempts| - 1 ==> Retried(s.rows[s.attempts[k]], s.rows[s.attempts[k + 1]], k))
    && (forall id :: id in OfProject(s.rows, scene.project) ==> id in s.attempts || IsOther(scene, s.rows[id]))
  }

  lemma FreshInv(scene: Scene, s: State)
    requires Fresh(scene, s)
    ensures Inv(scene, s)
  {
  }

  /** Attempts are created later and later. */
  lemma AttemptsAscend(scene: Scene, s: State, i: nat, j: nat)
    requires Inv(scene, s) && i < j < |s.attempts|
    ensures s.rows[s.attempts[i]].createdAt < s.rows[s.attempts[j]].createdAt
    ensures s.attempts[i] != s.attempts[j]
  {
    assert Retried(s.rows[s.attempts[j - 1]], s.rows[s.attempts[j - 1 + 1]], j - 1);
    if i < j - 1 {
      AttemptsAscend(scene, s, i, j - 1);
    }
  }

  lemma OlderThanAttempt(scene: Scene, s: State, o: Id, k: nat)
    requires Inv(scene, s) && k < |s.attempts| && o in OfProject(s.rows, scene.project)
    requires forall i :: k < i < |s.attempts| ==> s.attempts[i] != o
    ensures !Newer(s.rows, o, s.attempts[k])
  {
    assert IsAttempt(scene, s.rows[s.attempts[k]], s.now);
    if o in s.attempts {
      var i :| 0 <= i < |s.attempts| && s.attempts[i] == o;
      if i < k {
        AttemptsAscend(scene, s, i, k);
      } else {
        NewerTotal(s.rows, o, o);
      }
    }
  }

  /** The last attempt is the newest row of the project. */
  lemma LastAttemptIsLatest(scene: Scene, s: State)
    requires Inv(scene, s) && s.attempts != []
    ensures LatestDeployment(s.rows, scene.project) == Some(s.attempts[|s.attempts| - 1])
  {
    var n := |s.attempts| - 1;
    var last := s.attempts[n];
    assert IsAttempt(scene, s.rows[s.attempts[n]], s.now);
    forall o | o in OfProject(s.rows, scene.project)
      ensures !Newer(s.rows, o, last)
    {
      OlderThanAttempt(scene, s, o, n);
    }
    assert IsLatest(s.rows, scene.project, last);
    LatestIsUnique(s.rows, scene.project, last, LatestDeployment(s.rows, scene.project).value);
  }

  /** When the last attempt has failed too, the recent failures of the commit are exactly the attempts. */
  lemma FailuresAreAttempts(scene: Scene, s: State)
    requires Inv(scene, s) && s.attempts != []
    requires FailedStatus(s.rows[s.attempts[|s.attempts| - 1]].status)
    ensures |RecentFailures(s.rows, scene.project, scene.sha, RECENT)| == |s.attempts|
  {
    var failures := RecentFailures(s.rows, scene.project, scene.sha, RECENT);
    forall id | id in s.attempts
      ensures id in failures
    {
      var k :| 0 <= k < |s.attempts| && s.attempts[k] == id;
      AttemptIsRecent(scene, s, k);
      assert IsAttempt(scene, s.rows[s.attempts[k]], s.now);
      assert k < |s.attempts| - 1 ==> Retried(s.rows[s.attempts[k]], s.rows[s.attempts[k + 1]], k);
    }
    assert failures == set id | id in s.attempts;
    forall i, j | 0 <= i < j < |s.attempts|
      ensures s.attempts[i] != s.attempts[j]
    {
      AttemptsAscend(scene, s, i, j);
    }
    CountDistinct(s.attempts);
  }

  lemma AttemptIsRecent(scene: Scene, s: State, k: nat)
    requires Inv(scene, s) && k < |s.attempts|
    ensures s.attempts[k] in Newest(s.rows, OfProject(s.rows, scene.project), RECENT)
  {
    var all := OfProject(s.rows, scene.project);
    assert IsAttempt(scene, s.rows[s.attempts[k]], s.now);
    var newer := NewerThan(s.rows, all, s.attempts[k]);
    var rest := s.attempts[k + 1..];
    var later := set id | id in rest;
    forall o | o in newer
      ensures o in later
    {
      if forall i :: k < i < |s.attempts| ==> s.attempts[i] != o {
        OlderThanAttempt(scene, s, o, k);
      } else {
        var i :| k < i < |s.attempts| && s.attempts[i] == o;
        assert rest[i - k - 1] == o;
      }
    }
    Subset(newer, later);
    CountAtMost(rest);
  }

  lemma {:induction false} CountAtMost(ids: seq<Id>)
    ensures |set id | id in ids| <= |ids|
  {
    if ids == [] {
      assert (set id | id in ids) == {};
    } else {
      CountAtMost(ids[1..]);
      assert (set id | id in ids) == (set id | id in ids[1..]) + {ids[0]};
    }
  }

  lemma {:induction false} CountDistinct(ids: seq<Id>)
    requires forall i, j :: 0 <= i < j < |ids| ==> ids[i] != ids[j]
    ensures |set id | id in ids| == |ids|
  {
    if ids == [] {
      assert (set id | id in ids) == {};
    } else {
      CountDistinct(ids[1..]);
      assert (set id | id in ids) == (set id | id in ids[1..]) + {ids[0]};
    }
  }

  /** What a poll that creates a deployment has found. */
  lemma CreationConditions(scene: Scene, s: State)
    requires Inv(scene, s) && s.attempts != []
    requires Decide(s.rows, scene.project, s.shas, Poll, scene.sha, scene.mode, s.now).Deploy?
    ensures var n := |s.attempts|;
      var last := s.rows[s.attempts[n - 1]];
      && n < MAX_ATTEMPTS && FailedStatus(last.status)
      && last.completedAt.Some? && s.now - last.completedAt.value >= 60000 * Pow2(n - 1)
  {
    var n := |s.attempts|;
    var last := s.rows[s.attempts[n - 1]];
    LastAttemptIsLatest(scene, s);
    assert IsAttempt(scene, last, s.now);
    assert IsSameSha(Some(last.targetSha), Some(scene.sha));
    if Active(last.status) {
      ActiveCommitSkips(s.rows, scene.project, s.shas, Poll, scene.sha, scene.mode, s.now, s.attempts[n - 1]);
    } else if FailedStatus(last.status) {
      FailuresAreAttempts(scene, s);
    }
  }

  lemma CreateInv(scene: Scene, s: State, id: Id, protected: set<Id>)
    requires Inv(scene, s) && Possible(scene, s, PollCreates(id, protected))
    ensures Inv(scene, Apply(scene, s, PollCreates(id, protected)))
  {
    CreateKeepsAttempts(scene, s, id, protected);
    CreateRetries(scene, s, id, protected);
    CreateOthers(scene, s, id, protected);
    if |s.attempts| > 0 {
      CreationConditions(scene, s);
    }
  }

  lemma CreateRetries(scene: Scene, s: State, id: Id, protected: set<Id>)
    requires Inv(scene, s) && Possible(scene, s, PollCreates(id, protected))
    ensures var s' := Apply(scene, s, PollCreates(id, protected));
      && Stored(s') && |s'.attempts| == |s.attempts| + 1
      && forall k :: 0 <= k < |s.attempts| ==> Retried(s'.rows[s'.attempts[k]], s'.rows[s'.attempts[k + 1]], k)
  {
    var s' := Apply(scene, s, PollCreates(id, protected));
    var n := |s.attempts|;
    CreateKeepsAttempts(scene, s, id, protected);
    if n > 0 {
      CreationConditions(scene, s);
      assert IsAttempt(scene, s.rows[s.attempts[n - 1]], s.now);
    }
    forall k | 0 <= k < n
      ensures Retried(s'.rows[s'.attempts[k]], s'.rows[s'.attempts[k + 1]], k)
    {
      assert k < n - 1 ==> Retried(s.rows[s.attempts[k]], s.rows[s.attempts[k + 1]], k);
    }
  }

  lemma CreateOthers(scene: Scene, s: State, id: Id, protected: set<Id>)
    requires Inv(scene, s) && Possible(scene, s, PollCreates(id, protected))
    ensures var s' := Apply(scene, s, PollCreates(id, protected));
      forall o :: o in OfProject(s'.rows, scene.project) ==> o in s'.attempts || IsOther(scene, s'.rows[o])
  {
  }

  /** The attempts so far have ended, so that creating the next leaves their rows alone. */
  lemma CreateKeepsAttempts(scene: Scene, s: State, id: Id, protected: set<Id>)
    requires Inv(scene, s) && Possible(scene, s, PollCreates(id, protected))
    ensures var s' := Apply(scene, s, PollCreates(id, protected));
      && s'.attempts == s.attempts + [id]
      && forall k :: 0 <= k < |s.attempts| ==> s.attempts[k] in s'.rows && s'.rows[s.attempts[k]] == s.rows[s.attempts[k]]
  {
    var n := |s.attempts|;
    if n > 0 {
      CreationConditions(scene, s);
    }
    var s' := Apply(scene, s, PollCreates(id, protected));
    forall k | 0 <= k < n
      ensures s.attempts[k] in s'.rows && s'.rows[s.attempts[k]] == s.rows[s.attempts[k]]
    {
      assert k < n - 1 ==> Retried(s.rows[s.attempts[k]], s.rows[s.attempts[k + 1]], k);
    }
  }

  lemma WriteKeepsAttempts(scene: Scene, s: State, id: Id, status: Status)
    requires Inv(scene, s) && Possible(scene, s, WriteStatus(id, status))
    ensures var s' := Apply(scene, s, WriteStatus(id, status));
      Stored(s') && forall k :: 0 <= k < |s.attempts| ==> IsAttempt(scene, s'.rows[s'.attempts[k]], s'.now)
  {
    var s' := Apply(scene, s, WriteStatus(id, status));
    forall k | 0 <= k < |s.attempts|
      ensures IsAttempt(scene, s'.rows[s'.attempts[k]], s'.now)
    {
      assert IsAttempt(scene, s.rows[s.attempts[k]], s.now);
    }
  }

  lemma WriteInv(scene: Scene, s: State, id: Id, status: Status)
    requires Inv(scene, s) && Possible(scene, s, WriteStatus(id, status))
    ensures Inv(scene, Apply(scene, s, WriteStatus(id, status)))
  {
    var s' := Apply(scene, s, WriteStatus(id, status));
    WriteKeepsAttempts(scene, s, id, status);
    forall k | 0 <= k < |s.attempts| - 1
      ensures Retried(s'.rows[s'.attempts[k]], s'.rows[s'.attempts[k + 1]], k)
    {
      assert Retried(s.rows[s.attempts[k]], s.rows[s.attempts[k + 1]], k);
    }
  }

  lemma ApplyInv(scene: Scene, s: State, e: Event)
    requires Inv(scene, s) && Possible(scene, s, e)
    ensures Inv(scene, Apply(scene, s, e))
  {
    match e
    case PollCreates(id, protected) => CreateInv(scene, s, id, protected);
    case WriteStatus(id, status) => WriteInv(scene, s, id, status);
    case WriteShas(_) =>
    case Tick(_) =>
  }

  lemma {:induction false} RunInv(scene: Scene, s: State, events: seq<Event>)
    requires Inv(scene, s) && Feasible(scene, s, events)
    ensures Inv(scene, Run(scene, s, events))
    decreases |events|
  {
    if events != [] {
      ApplyInv(scene, s, events[0]);
      RunInv(scene, Apply(scene, s, events[0]), events[1..]);
    }
  }

  /** However the attempts end and however often the project is polled: a commit is deployed at most three times, and
      the attempt after the k-th is created only once the k-th has failed and its cooldown, doubling from one minute,
      has passed. */
  lemma RetriesAreCapped(scene: Scene, s: State, events: seq<Event>)
    requires Fresh(scene, s) && Feasible(scene, s, events)
    ensures var after := Run(scene, s, events);
      && |after.attempts| <= 3 && Stored(after)
      && (forall k :: 0 <= k < |after.attempts| - 1 ==>
            Retried(after.rows[after.attempts[k]], after.rows[after.attempts[k + 1]], k))
  {
    FreshInv(scene, s);
    RunInv(scene, s, events);
    var after := Run(scene, s, events);
    forall k | 0 <= k < |after.attempts| - 1
      ensures Retried(after.rows[after.attempts[k]], after.rows[after.attempts[k + 1]], k)
    {
    }
  }

  /** A cancelled, successful or unfinished attempt is not retried. */
  lemma OnlyFailuresAreRetried(scene: Scene, s: State, events: seq<Event>)
    requires Fresh(scene, s) && Feasible(scene, s, events)
    ensures var after := Run(scene, s, events);
      after.attempts != [] && Stored(after) && !FailedStatus(after.rows[after.attempts[|after.attempts| - 1]].status) ==>
        Decide(after.rows, scene.project, after.shas, Poll, scene.sha, scene.mode, after.now).Skip?
  {
    FreshInv(scene, s);
    RunInv(scene, s, events);
    var after := Run(scene, s, events);
    if after.attempts != [] && Decide(after.rows, scene.project, after.shas, Poll, scene.sha, scene.mode, after.now).Deploy? {
      CreationConditions(scene, after);
    }
  }
}
