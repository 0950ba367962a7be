/** The first deployment of a daemon, from the empty state to a body that holds its lock: the theorems on reachable states
    are about states that exist, and the self-repair cycle can run in one of them. */
module ControlPlaneWitnesses {
  import opened Records
  import opened Pipeline
  import opened Rollback
  import opened ControlPlane
  import opened ControlPlaneSafety
  import opened ControlPlaneLocks
  import opened ControlPlaneTheorems
  import Deployments
  import Engine
  import LockTable
  import Registry
  import Releases
  import Watcher

  const EMPTY: World :=
    World(0, map[], map[], map[], map[], Registry.EMPTY, Engine.IDLE, map[], map[], map[], {})

  lemma {:induction false} Extends(setup: Setup, w: World, actions: seq<Event>, a: Event)
    requires Feasible(setup, w, actions) && Enabled(Run(setup, w, actions), a)
    ensures Feasible(setup, w, actions + [a])
    ensures Run(setup, w, actions + [a]) == Apply(setup, Run(setup, w, actions), a)
    decreases |actions|
  {
    if actions == [] {
      assert ([] + [a])[1..] == [];
    } else {
      assert (actions + [a])[1..] == actions[1..] + [a];
      Extends(setup, Apply(setup, w, actions[0]), actions[1..], a);
    }
  }

  lemma NextReachable(setup: Setup, w: World, a: Event)
    requires Reachable(setup, w) && Enabled(w, a)
    ensures Reachable(setup, Apply(setup, w, a))
  {
    var start, actions :| Initial(start) && Feasible(setup, start, actions) && w == Run(setup, start, actions);
    Extends(setup, start, actions, a);
  }

  function FirstRow(project: Project, sha: Sha): Row
  {
    Row(project, None, sha, Queued, false, 0, None, None)
  }

  function FirstJob(project: Project, sha: Sha, id: Id): Job
  {
    Job(id, project, None, sha, false)
  }

  /** A webhook's check has created a deployment and added its job. */
  function Enqueued(project: Project, sha: Sha, id: Id): World
  {
    EMPTY.(
      rows := map[id := FirstRow(project, sha)],
      shas := map[project := Watcher.Shas(Some(sha), None)],
      jobs := map[id := FirstJob(project, sha, id)],
      used := {id})
  }

  lemma ReachesEnqueued(setup: Setup, project: Project, sha: Sha, id: Id)
    requires sha != ""
    ensures Reachable(setup, Enqueued(project, sha, id))
  {
    assert Feasible(setup, EMPTY, []) && Run(setup, EMPTY, []) == EMPTY;
    var begin := BeginCheck(project, Trigger.Webhook);
    NextReachable(setup, EMPTY, begin);
    var checking := Apply(setup, EMPTY, begin);
    FirstDecision(setup, project, sha, id, checking);
    NextReachable(setup, checking, DecideCheck(project, sha, id));
    var created := Apply(setup, checking, DecideCheck(project, sha, id));
    NextReachable(setup, created, EnqueueJob(project));
    assert Apply(setup, created, EnqueueJob(project)) == Enqueued(project, sha, id);
  }

  lemma FirstDecision(setup: Setup, project: Project, sha: Sha, id: Id, w: World)
    requires w == EMPTY.(checks := map[project := Fetching(Trigger.Webhook, Watcher.Shas(None, None))]) && sha != ""
    ensures Enabled(w, DecideCheck(project, sha, id))
    ensures Decided(setup, w, project, sha, id) == Created(w, project, id, sha, Watcher.Shas(None, None))
  {
    assert Deployments.ActiveOf(w.rows, project) == {};
    assert Watcher.Duplicates(w.rows, project, sha) == {};
  }

  /** Its job has been delivered, and its turn has come. */
  lemma ReachesEntry(setup: Setup, project: Project, sha: Sha, id: Id) returns (w: World)
    requires sha != ""
    ensures Reachable(setup, w) && w.bodies.Keys == {0} == w.engine.tasks.Keys && w.engine.tasks[0].started
    ensures w.bodies[0].stage.Entering? && w.bodies[0].origin.job == FirstJob(project, sha, id)
    ensures StatusOf(w.rows, id) == Some(Queued) && HostOf(w, project).store == Releases.EMPTY
  {
    var enqueued := Enqueued(project, sha, id);
    ReachesEnqueued(setup, project, sha, id);
    NextReachable(setup, enqueued, Deliver(id));
    var delivered := Apply(setup, enqueued, Deliver(id));
    assert delivered.engine.tasks == map[0 := Engine.Task(id, project, None, false)];
    NextReachable(setup, delivered, Resume(0));
    w := Apply(setup, delivered, Resume(0));
  }

  /** It takes the lock at its first attempt; then nothing is due, and the self-repair cycle may run. */
  lemma ReachesLockedBody(setup: Setup, project: Project, sha: Sha, id: Id) returns (w: World)
    requires sha != ""
    ensures Reachable(setup, w) && w.bodies.Keys == {0} && w.bodies[0].stage.Preflight?
    ensures w.bodies[0].origin.job.id == id && LockTable.Holds(w.locks, project, id) && Enabled(w, RepairCycle)
  {
    var entering := ReachesEntry(setup, project, sha, id);
    var beat := Beat(true, true, entering.now, entering.rows, true, None, true, Disk([], true, true, true, true), {},
                     k => Result(true, true));
    LockIsTakenAtOnce(setup, entering, 0, beat);
    NextReachable(setup, entering, Step(0, beat));
    w := Apply(setup, entering, Step(0, beat));
    SteppedBodies(entering, 0, beat);
  }

  lemma SteppedBodies(w: World, t: Engine.Ticket, b: Beat)
    requires Steppable(w, t, b) && !NextCell(w, t, b).stage.Returned?
    ensures Stepped(w, t, b).bodies.Keys == w.bodies.Keys && Stepped(w, t, b).engine == w.engine
    ensures Stepped(w, t, b).bodies[t].origin == w.bodies[t].origin
  {
  }
}
