/** The project lock table (src/storage/state-repository.ts). `project_name` is the primary key,
    so the table is a map; project names are canonical. */
module LockTable {
  import opened Records

  const LOCK_TIMEOUT_MS: Millis := 300_000

  datatype Lock = Lock(lockedBy: Id, lockedAt: Millis)

  type Locks = map<Project, Lock>

  /** The holder's deployment row exists and is in a final status. */
  predicate HolderFinished(rows: Rows, holder: Id)
  {
    holder in rows && Terminal(rows[holder].status)
  }

  /** A lock another deployment may take over. */
  predicate Takeable(lock: Lock, rows: Rows, now: Millis, timeout: Millis)
  {
    now - lock.lockedAt > timeout || HolderFinished(rows, lock.lockedBy)
  }

  function Acquired(locks: Locks, rows: Rows, project: Project, owner: Id, now: Millis): Locks
  {
    if project in locks && (locks[project].lockedBy == owner || !Takeable(locks[project], rows, now, LOCK_TIMEOUT_MS))
    then locks
    else locks[project := Lock(owner, now)]
  }

  function Refreshed(locks: Locks, project: Project, owner: Id, now: Millis): Locks
  {
    if project in locks && locks[project].lockedBy == owner then locks[project := Lock(owner, now)] else locks
  }

  function Released(locks: Locks, project: Project, owner: Id): Locks
  {
    if project in locks && locks[project].lockedBy == owner then locks - {project} else locks
  }

  function Pruned(locks: Locks, rows: Rows, active: set<Id>, now: Millis): Locks
  {
    map p | p in locks && (locks[p].lockedBy in active || !Takeable(locks[p], rows, now, LOCK_TIMEOUT_MS)) :: locks[p]
  }

  predicate Holds(locks: Locks, project: Project, id: Id)
  {
    project in locks && locks[project].lockedBy == id
  }

  class StateRepository {
    var locks: Locks

    constructor ()
      ensures locks == map[]
    {
      locks := map[];
    }

    method AcquireLock(rows: Rows, project: Project, lockedBy: Id, now: Millis) returns (acquired: bool)
      modifies this
      ensures locks == Acquired(old(locks), rows, project, lockedBy, now)
      ensures acquired <==> Holds(locks, project, lockedBy)
    {
      if project in locks {
        var existing := locks[project];
        if existing.lockedBy == lockedBy {
          return true;
        }
        var lockAge := now - existing.lockedAt;
        var isHolderFinished := existing.lockedBy in rows && Terminal(rows[existing.lockedBy].status);
        if lockAge > LOCK_TIMEOUT_MS || isHolderFinished {
          locks := locks - {project};
        } else {
          return false;
        }
      }
      locks := locks[project := Lock(lockedBy, now)];
      assert locks == Acquired(old(locks), rows, project, lockedBy, now);
      acquired := true;
    }

    method RefreshLock(project: Project, lockedBy: Id, now: Millis) returns (refreshed: bool)
      modifies this
      ensures locks == Refreshed(old(locks), project, lockedBy, now)
      ensures refreshed <==> old(Holds(locks, project, lockedBy))
    {
      refreshed := project in locks && locks[project].lockedBy == lockedBy;
      if refreshed {
        locks := locks[project := Lock(lockedBy, now)];
      }
    }

    method ReleaseLock(project: Project, lockedBy: Id) returns (released: bool)
      modifies this
      ensures locks == Released(old(locks), project, lockedBy)
      ensures released <==> old(Holds(locks, project, lockedBy))
    {
      released := project in locks && locks[project].lockedBy == lockedBy;
      if released {
        locks := locks - {project};
      }
    }

    method PruneStaleLocks(rows: Rows, active: set<Id>, now: Millis) returns (pruned: nat)
      modifies this
      ensures locks == Pruned(old(locks), rows, active, now)
      ensures pruned == |old(locks)| - |locks|
    {
      var todo := locks.Keys;
      pruned := 0;
      while todo != {}
        invariant todo <= locks.Keys <= old(locks).Keys
        invariant forall p :: p in locks ==> locks[p] == old(locks)[p]
        invariant forall p :: p in old(locks) && p !in todo ==>
          (p in locks <==> p in Pruned(old(locks), rows, active, now))
        invariant pruned == |old(locks)| - |locks|
      {
        var project :| project in todo;
        todo := todo - {project};
        var lock := locks[project];
        var isKnownActive := lock.lockedBy in active;
        if !isKnownActive {
          var isFinished := lock.lockedBy in rows && Terminal(rows[lock.lockedBy].status);
          if isFinished || now - lock.lockedAt > LOCK_TIMEOUT_MS {
            RemoveOne(locks, project);
            locks := locks - {project};
            pruned := pruned + 1;
          }
        }
      }
    }
  }

  lemma RemoveOne(locks: Locks, project: Project)
    requires project in locks
    ensures |locks - {project}| == |locks| - 1
  {
    assert (locks - {project}).Keys == locks.Keys - {project};
    assert |locks.Keys - {project}| == |locks.Keys| - 1;
    KeyCount(locks);
    KeyCount(locks - {project});
  }

  lemma KeyCount(locks: Locks)
    ensures |locks| == |locks.Keys|
  {
  }

  // Runs

  /** One call on the table, a change of the deployment rows, or the passing of time. */
  datatype Event =
    | Acquire(project: Project, owner: Id)
    | Refresh(project: Project, owner: Id)
    | Release(project: Project, owner: Id)
    | Prune(active: set<Id>)
    | WriteRows(rows: Rows)
    | Tick(elapsed: nat)

  datatype State = State(locks: Locks, rows: Rows, now: Millis)

  function Apply(s: State, e: Event): State
  {
    match e
    case Acquire(p, owner) => s.(locks := Acquired(s.locks, s.rows, p, owner, s.now))
    case Refresh(p, owner) => s.(locks := Refreshed(s.locks, p, owner, s.now))
    case Release(p, owner) => s.(locks := Released(s.locks, p, owner))
    case Prune(active) => s.(locks := Pruned(s.locks, s.rows, active, s.now))
    case WriteRows(rows) => s.(rows := rows)
    case Tick(elapsed) => s.(now := s.now + elapsed)
  }

  function Run(s: State, events: seq<Event>): State
  {
    if events == [] then s else Apply(Run(s, events[..|events| - 1]), events[|events| - 1])
  }

  /** The holder loses its lock only by releasing it, by finishing, or by missing its heartbeat for five minutes. */
  lemma OwnershipLoss(s: State, e: Event, project: Project, id: Id)
    requires Holds(s.locks, project, id) && !Holds(Apply(s, e).locks, project, id)
    ensures || e == Release(project, id)
            || ((e.Acquire? || e.Prune?) && HolderFinished(s.rows, id))
            || ((e.Acquire? || e.Prune?) && s.now - s.locks[project].lockedAt > LOCK_TIMEOUT_MS)
    ensures e.Acquire? ==> e.project == project && e.owner != id && Holds(Apply(s, e).locks, project, e.owner)
    ensures e.Prune? ==> id !in e.active
  {
  }

  /** A release touches no row of another holder or project. */
  lemma ReleaseIsSelective(s: State, project: Project, owner: Id, p: Project)
    requires p in s.locks && !(p == project && s.locks[p].lockedBy == owner)
    ensures var after := Apply(s, Release(project, owner)); p in after.locks && after.locks[p] == s.locks[p]
  {
  }

  /** The holder is alive throughout: it is not finished, and its last heartbeat is recent. */
  predicate Heartbeating(s: State, project: Project, id: Id)
  {
    && !HolderFinished(s.rows, id)
    && (project in s.locks && s.locks[project].lockedBy == id ==> s.now - s.locks[project].lockedAt <= LOCK_TIMEOUT_MS)
  }

  /** A live holder keeps its lock over every run that does not contain its own release, so nobody else gets it. */
  lemma {:induction false} LiveHolderExcludes(s: State, events: seq<Event>, project: Project, id: Id)
    requires Holds(s.locks, project, id)
    requires forall n :: 0 <= n < |events| ==> Heartbeating(Run(s, events[..n]), project, id)
    requires Release(project, id) !in events
    ensures Holds(Run(s, events).locks, project, id)
    ensures forall n, other :: 0 <= n <= |events| && other != id ==> !Holds(Run(s, events[..n]).locks, project, other)
  {
    if events == [] {
      assert events[..0] == events;
    } else {
      var n := |events| - 1;
      var earlier := events[..n];
      assert forall k :: 0 <= k <= n ==> earlier[..k] == events[..k];
      LiveHolderExcludes(s, earlier, project, id);
      assert events[..|events|] == events && earlier == events[..n];
      var before := Run(s, earlier);
      assert Heartbeating(before, project, id);
      assert events[n] in events;
      if !Holds(Run(s, events).locks, project, id) {
        OwnershipLoss(before, events[n], project, id);
      }
    }
  }

  /** What an attempt leaves behind: the caller's own lock keeps its time, a lock that may be taken is the caller's from
      now, and every other one stays. */
  lemma AcquireExactly(s: State, project: Project, owner: Id, p: Project)
    ensures var after := Apply(s, Acquire(project, owner)).locks;
      var free := project in s.locks ==>
        && s.locks[project].lockedBy != owner
        && (s.now - s.locks[project].lockedAt > 5 * 60 * 1000 || HolderFinished(s.rows, s.locks[project].lockedBy));
      && project in after && after[project] == (if free then Lock(owner, s.now) else s.locks[project])
      && (p != project ==> (p in after <==> p in s.locks) && (p in after ==> after[p] == s.locks[p]))
  {
  }

  /** What a prune leaves behind: the locks of known active deployments, and those that are recent and of unfinished ones. */
  lemma PrunedExactly(s: State, active: set<Id>, p: Project)
    ensures var after := Apply(s, Prune(active)).locks;
      && (p in after <==>
            && p in s.locks
            && (|| s.locks[p].lockedBy in active
                || (s.now - s.locks[p].lockedAt <= 5 * 60 * 1000 && !HolderFinished(s.rows, s.locks[p].lockedBy))))
      && (p in after ==> after[p] == s.locks[p])
  {
  }

  // Heartbeats

  /** When the holder was last heard of: its last heartbeat in the run, or what the lock said at the start. */
  function LastBeat(s: State, events: seq<Event>, project: Project, id: Id): Millis
    requires project in s.locks
  {
    if events == [] then s.locks[project].lockedAt
    else
      var n := |events| - 1;
      if events[n] == Refresh(project, id) then Run(s, events[..n]).now else LastBeat(s, events[..n], project, id)
  }

  /** The holder is unfinished and has been heard of within five minutes, at every point of the run before its end. */
  predicate KeepsBeating(s: State, events: seq<Event>, project: Project, id: Id)
    requires project in s.locks
  {
    forall n :: 0 <= n < |events| ==>
      && !HolderFinished(Run(s, events[..n]).rows, id)
      && Run(s, events[..n]).now - LastBeat(s, events[..n], project, id) <= 5 * 60 * 1000
  }

  lemma BeatKeepsLock(s: State, e: Event, project: Project, id: Id, beat: Millis)
    requires project in s.locks && s.locks[project] == Lock(id, beat)
    requires !HolderFinished(s.rows, id) && s.now - beat <= 5 * 60 * 1000 && e != Release(project, id)
    ensures project in Apply(s, e).locks
    ensures Apply(s, e).locks[project] == Lock(id, if e == Refresh(project, id) then s.now else beat)
  {
  }

  /** Heartbeats keep the lock: through any run of acquisitions, releases, prunes and row changes by others, a holder that
      keeps beating holds it, and its row says when it was last heard of. Afterwards another deployment gets the lock
      exactly when the holder has finished or has then been silent for more than five minutes. */
  lemma {:induction false} HeartbeatsKeepLock(s: State, events: seq<Event>, project: Project, id: Id, other: Id)
    requires Holds(s.locks, project, id) && KeepsBeating(s, events, project, id) && Release(project, id) !in events
    ensures var after := Run(s, events);
      && Holds(after.locks, project, id) && after.locks[project].lockedAt == LastBeat(s, events, project, id)
      && (other != id ==>
            (Holds(Apply(after, Acquire(project, other)).locks, project, other) <==>
              HolderFinished(after.rows, id) || after.now - LastBeat(s, events, project, id) > 5 * 60 * 1000))
  {
    if events != [] {
      var n := |events| - 1;
      var earlier := events[..n];
      assert forall k :: 0 <= k <= n ==> earlier[..k] == events[..k];
      assert events[n] in events && forall e :: e in earlier ==> e in events;
      HeartbeatsKeepLock(s, earlier, project, id, other);
      BeatKeepsLock(Run(s, earlier), events[n], project, id, LastBeat(s, earlier, project, id));
    }
  }

  /** A lock that nobody live holds is always obtained on the first try. */
  lemma FreeLockIsAcquired(s: State, project: Project, owner: Id)
    ensures Holds(Apply(s, Acquire(project, owner)).locks, project, owner) <==>
      || project !in s.locks
      || s.locks[project].lockedBy == owner
      || Takeable(s.locks[project], s.rows, s.now, LOCK_TIMEOUT_MS)
  {
  }
}
