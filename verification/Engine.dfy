/** The job engine (src/jobs/workmatic-engine.ts). Workmatic may deliver any job any number of times. Each accepted
    delivery is a task: it waits for the previous task of its project, and then runs or is skipped. The promise a
    task leaves in `projectExecutionChains` is represented by the task's ticket; tickets count deliveries. */
module Engine {
  import opened Records
  import Deployments
  import Registry

  type Ticket = nat

  /** A delivery that has not finished. `previous` is the promise it waits for. */
  datatype Task = Task(id: Id, project: Project, previous: Option<Ticket>, started: bool)

  /** A call of `runDeployment`. */
  datatype Entry = Entry(ticket: Ticket, id: Id, project: Project)

  datatype State = State(
    running: set<Id>,
    chains: map<Project, Ticket>,
    tasks: map<Ticket, Task>,
    next: Ticket,
    entered: seq<Entry>)

  const IDLE: State := State({}, map[], map[], 0, [])

  /** The callback, up to `await previousPromise`. */
  function Delivered(s: State, id: Id, project: Project): State
  {
    if id in s.running then s
    else
      var previous := if project in s.chains then Some(s.chains[project]) else None;
      s.(running := s.running + {id},
         chains := s.chains[project := s.next],
         tasks := s.tasks[s.next := Task(id, project, previous, false)],
         next := s.next + 1)
  }

  /** The previous task of the project has finished, or there was none. */
  predicate Ready(s: State, t: Ticket)
  {
    && t in s.tasks && !s.tasks[t].started
    && (s.tasks[t].previous.Some? ==> s.tasks[t].previous.value !in s.tasks)
  }

  function Ended(s: State, t: Ticket): State
    requires t in s.tasks
  {
    var task := s.tasks[t];
    s.(running := s.running - {task.id},
       chains := if task.project in s.chains && s.chains[task.project] == t then s.chains - {task.project} else s.chains,
       tasks := s.tasks - {t})
  }

  /** After the wait: only a queued deployment runs. */
  function Resumed(s: State, t: Ticket, queued: bool): State
    requires t in s.tasks
  {
    var task := s.tasks[t];
    if queued then s.(tasks := s.tasks[t := task.(started := true)], entered := s.entered + [Entry(t, task.id, task.project)])
    else Ended(s, t)
  }

  class WorkmaticEngine {
    const runner: Registry.DeploymentPipelineRunner
    const deploymentRepo: Deployments.DeploymentRepository
    var runningDeployments: set<Id>
    var projectExecutionChains: map<Project, Ticket>
    var tasks: map<Ticket, Task>
    var next: Ticket
    var entered: seq<Entry>

    ghost function Contents(): State
      reads this
    {
      State(runningDeployments, projectExecutionChains, tasks, next, entered)
    }

    constructor (runner: Registry.DeploymentPipelineRunner, deploymentRepo: Deployments.DeploymentRepository)
      ensures Contents() == IDLE && this.runner == runner && this.deploymentRepo == deploymentRepo
    {
      this.runner, this.deploymentRepo := runner, deploymentRepo;
      runningDeployments, projectExecutionChains, tasks, next, entered := {}, map[], map[], 0, [];
    }

    /** A duplicate delivery is dropped at once; any other takes the last place in its project's chain. */
    method Process(id: Id, project: Project) returns (accepted: bool)
      modifies this
      ensures Contents() == Delivered(old(Contents()), id, project)
      ensures accepted <==> id !in old(runningDeployments)
    {
      if id in runningDeployments {
        return false;
      }
      runningDeployments := runningDeployments + {id};
      var previousPromise := if project in projectExecutionChains then Some(projectExecutionChains[project]) else None;
      projectExecutionChains := projectExecutionChains[project := next];
      tasks := tasks[next := Task(id, project, previousPromise, false)];
      next := next + 1;
      accepted := true;
    }

    method Resume(t: Ticket, status: Option<Status>) returns (runs: bool)
      requires Ready(Contents(), t)
      modifies this
      ensures Contents() == Resumed(old(Contents()), t, status == Some(Queued))
      ensures runs <==> status == Some(Queued)
    {
      var task := tasks[t];
      runs := status == Some(Queued);
      if runs {
        tasks := tasks[t := task.(started := true)];
        entered := entered + [Entry(t, task.id, task.project)];
      } else {
        Finish(t);
      }
    }

    /** Called for a newer deployment: whatever is not yet changing the live service is aborted and cancelled. */
    method CancelPendingJobsForProject(project: Project, now: Millis)
      modifies runner, deploymentRepo
      ensures runner.Contents() == Registry.AbortedAll(old(runner.Contents()), project)
      ensures deploymentRepo.rows == Deployments.Finished(old(deploymentRepo.rows),
        Deployments.Superseded(old(deploymentRepo.rows), project, Registry.CriticalIds(old(runner.Contents()), project)),
        Cancelled, now)
    {
      runner.AbortAllDeploymentsForProject(project);
      var protectedIds := runner.GetCriticalDeploymentIds(project);
      assert protectedIds == Registry.CriticalIds(old(runner.Contents()), project);
      var _ := deploymentRepo.CancelPendingDeployments(project, protectedIds, now);
    }

    /** Both `finally` blocks. */
    method Finish(t: Ticket)
      requires t in tasks
      modifies this
      ensures Contents() == Ended(old(Contents()), t)
    {
      var task := tasks[t];
      runningDeployments := runningDeployments - {task.id};
      tasks := tasks - {t};
      if task.project in projectExecutionChains && projectExecutionChains[task.project] == t {
        projectExecutionChains := projectExecutionChains - {task.project};
      }
    }
  }

  // The invariant of the chains

  predicate Ahead(s: State, u: Ticket, t: Ticket)
    requires t in s.tasks
  {
    u in s.tasks && u < t && s.tasks[u].project == s.tasks[t].project
  }

  predicate Waits(s: State, t: Ticket)
    requires t in s.tasks
  {
    s.tasks[t].previous.Some? && s.tasks[t].previous.value in s.tasks
  }

  /** A task that has nothing to wait for, or has started, is the first of its project; one that waits has nothing
      between it and what it waits for. */
  ghost predicate InLine(s: State, t: Ticket)
    requires t in s.tasks
  {
    && (s.tasks[t].previous.Some? ==> s.tasks[t].previous.value < t)
    && (s.tasks[t].started ==> !Waits(s, t))
    && (Waits(s, t) ==> Ahead(s, s.tasks[t].previous.value, t))
    && forall u: Ticket :: Ahead(s, u, t) ==> Waits(s, t) && u <= s.tasks[t].previous.value
  }

  ghost predicate AllInLine(s: State)
  {
    forall t :: t in s.tasks ==> t < s.next && InLine(s, t)
  }

  /** The chain of a project is its last unfinished task, if there is one. */
  ghost predicate ChainsTrackLast(s: State)
  {
    && (forall p :: p in s.chains ==> s.chains[p] in s.tasks && s.tasks[s.chains[p]].project == p)
    && (forall t :: t in s.tasks ==> s.tasks[t].project in s.chains && t <= s.chains[s.tasks[t].project])
  }

  function Ids(tasks: map<Ticket, Task>): set<Id>
  {
    set t | t in tasks :: tasks[t].id
  }

  /** `runningDeployments` holds exactly the unfinished tasks, each deployment once. */
  ghost predicate RunningIsTasks(s: State)
  {
    && s.running == Ids(s.tasks)
    && (forall t, u :: t in s.tasks && u in s.tasks && s.tasks[t].id == s.tasks[u].id ==> t == u)
  }

  ghost predicate Ordered(entered: seq<Entry>)
  {
    forall i, j :: 0 <= i < j < |entered| && entered[i].project == entered[j].project ==>
      entered[i].ticket < entered[j].ticket
  }

  /** Tasks that have not started come after every entry of their project. */
  ghost predicate Before(s: State, e: Entry)
  {
    && e.ticket < s.next
    && (forall t :: t in s.tasks && s.tasks[t].project == e.project && !s.tasks[t].started ==> e.ticket < t)
  }

  ghost predicate EntriesBefore(s: State)
  {
    forall i :: 0 <= i < |s.entered| ==> Before(s, s.entered[i])
  }

  ghost predicate Inv(s: State)
  {
    AllInLine(s) && ChainsTrackLast(s) && RunningIsTasks(s) && Ordered(s.entered) && EntriesBefore(s)
  }

  lemma DeliveredInv(s: State, id: Id, project: Project)
    requires Inv(s)
    ensures Inv(Delivered(s, id, project))
  {
    if id !in s.running {
      DeliveredInLine(s, id, project);
      DeliveredRunning(s, id, project);
      DeliveredEntries(s, id, project);
    }
  }

  lemma DeliveredRunning(s: State, id: Id, project: Project)
    requires Inv(s) && id !in s.running
    ensures RunningIsTasks(Delivered(s, id, project)) && ChainsTrackLast(Delivered(s, id, project))
  {
    var s' := Delivered(s, id, project);
    assert forall t :: t in s.tasks ==> s'.tasks[t] == s.tasks[t];
    assert s'.tasks[s.next].id == id;
    assert Ids(s'.tasks) == Ids(s.tasks) + {id};
  }

  lemma DeliveredEntries(s: State, id: Id, project: Project)
    requires Inv(s) && id !in s.running
    ensures EntriesBefore(Delivered(s, id, project))
  {
    var s' := Delivered(s, id, project);
    forall i | 0 <= i < |s'.entered|
      ensures Before(s', s'.entered[i])
    {
      assert Before(s, s.entered[i]);
    }
  }

  lemma DeliveredInLine(s: State, id: Id, project: Project)
    requires Inv(s) && id !in s.running
    ensures AllInLine(Delivered(s, id, project))
  {
    var s' := Delivered(s, id, project);
    forall t | t in s'.tasks
      ensures t < s'.next && InLine(s', t)
    {
      if t in s.tasks {
        assert forall u: Ticket :: Ahead(s', u, t) ==> Ahead(s, u, t);
      }
    }
  }

  lemma StartedInv(s: State, t: Ticket)
    requires Inv(s) && Ready(s, t)
    ensures Inv(Resumed(s, t, true))
  {
    var s' := Resumed(s, t, true);
    assert s'.tasks.Keys == s.tasks.Keys;
    assert forall u :: u in s.tasks ==> s'.tasks[u] == s.tasks[u].(started := s'.tasks[u].started);
    forall u | u in s'.tasks
      ensures u < s'.next && InLine(s', u)
    {
      assert forall v: Ticket :: Ahead(s', v, u) <==> Ahead(s, v, u);
    }
    assert Ids(s'.tasks) == Ids(s.tasks);
    StartedEntries(s, t);
  }

  lemma StartedEntries(s: State, t: Ticket)
    requires Inv(s) && Ready(s, t)
    ensures Ordered(Resumed(s, t, true).entered) && EntriesBefore(Resumed(s, t, true))
  {
    var s' := Resumed(s, t, true);
    forall i | 0 <= i < |s.entered|
      ensures Before(s', s.entered[i])
    {
      assert Before(s, s.entered[i]);
    }
    var e := s'.entered[|s.entered|];
    forall u | u in s'.tasks && s'.tasks[u].project == e.project && !s'.tasks[u].started
      ensures e.ticket < u
    {
      assert !Ahead(s, u, t);
    }
  }

  lemma EndedInv(s: State, t: Ticket)
    requires Inv(s) && t in s.tasks && (s.tasks[t].started || Ready(s, t))
    ensures Inv(Ended(s, t))
  {
    var s' := Ended(s, t);
    EndedRunning(s, t);
    EndedInLine(s, t);
    EndedChains(s, t);
    forall i | 0 <= i < |s'.entered|
      ensures Before(s', s'.entered[i])
    {
      assert Before(s, s.entered[i]);
    }
  }

  lemma EndedRunning(s: State, t: Ticket)
    requires RunningIsTasks(s) && t in s.tasks
    ensures RunningIsTasks(Ended(s, t))
  {
    var left := s.tasks - {t};
    forall id | id in Ids(s.tasks) - {s.tasks[t].id}
      ensures id in Ids(left)
    {
      var u :| u in s.tasks && s.tasks[u].id == id;
      assert u in left && left[u].id == id;
    }
    assert Ids(left) == Ids(s.tasks) - {s.tasks[t].id};
  }

  /** The task that ends is the first of its project. */
  lemma HeadIsLeast(s: State, t: Ticket)
    requires AllInLine(s) && t in s.tasks && (s.tasks[t].started || Ready(s, t))
    ensures forall u :: u in s.tasks && s.tasks[u].project == s.tasks[t].project ==> t <= u
  {
    assert InLine(s, t);
    forall u | u in s.tasks && s.tasks[u].project == s.tasks[t].project
      ensures t <= u
    {
      assert !Ahead(s, u, t);
    }
  }

  lemma EndedChains(s: State, t: Ticket)
    requires Inv(s) && t in s.tasks && (s.tasks[t].started || Ready(s, t))
    ensures ChainsTrackLast(Ended(s, t))
  {
    HeadIsLeast(s, t);
  }

  lemma EndedInLine(s: State, t: Ticket)
    requires AllInLine(s) && t in s.tasks && (s.tasks[t].started || Ready(s, t))
    ensures AllInLine(Ended(s, t))
  {
    HeadIsLeast(s, t);
    var s' := Ended(s, t);
    forall u | u in s'.tasks
      ensures u < s'.next && InLine(s', u)
    {
      EndedKeepsLine(s, t, u);
    }
  }

  lemma EndedKeepsLine(s: State, t: Ticket, u: Ticket)
    requires t in s.tasks && u in s.tasks && u != t && InLine(s, u)
    requires forall v :: v in s.tasks && s.tasks[v].project == s.tasks[t].project ==> t <= v
    ensures InLine(Ended(s, t), u)
  {
    var s' := Ended(s, t);
    assert forall v: Ticket :: Ahead(s', v, u) ==> Ahead(s, v, u);
  }

  // Runs

  datatype Event = Deliver(id: Id, project: Project) | Resume(t: Ticket, queued: bool) | Finish(t: Ticket)

  predicate Possible(s: State, e: Event)
  {
    match e
    case Deliver(_, _) => true
    case Resume(t, _) => Ready(s, t)
    case Finish(t) => t in s.tasks && s.tasks[t].started
  }

  function Apply(s: State, e: Event): State
    requires Possible(s, e)
  {
    match e
    case Deliver(id, project) => Delivered(s, id, project)
    case Resume(t, queued) => Resumed(s, t, queued)
    case Finish(t) => Ended(s, t)
  }

  lemma ApplyInv(s: State, e: Event)
    requires Inv(s) && Possible(s, e)
    ensures Inv(Apply(s, e))
  {
    match e
    case Deliver(id, project) => DeliveredInv(s, id, project);
    case Resume(t, queued) => if queued { StartedInv(s, t); } else { EndedInv(s, t); }
    case Finish(t) => EndedInv(s, t);
  }

  predicate Feasible(s: State, events: seq<Event>)
    decreases |events|
  {
    events != [] ==> Possible(s, events[0]) && Feasible(Apply(s, events[0]), events[1..])
  }

  function Run(s: State, events: seq<Event>): State
    requires Feasible(s, events)
    decreases |events|
  {
    if events == [] then s else Run(Apply(s, events[0]), events[1..])
  }

  lemma {:induction false} RunInv(s: State, events: seq<Event>)
    requires Inv(s) && Feasible(s, events)
    ensures Inv(Run(s, events))
    decreases |events|
  {
    if events != [] {
      ApplyInv(s, events[0]);
      RunInv(Apply(s, events[0]), events[1..]);
    }
  }

  /** Whatever is delivered, and however often: at most one pipeline body per project is active, bodies start in
      delivery order, a project has a chain entry exactly while it has an unfinished task, and exactly the unfinished
      deployments are registered as running. */
  lemma ProjectsAreSerial(events: seq<Event>)
    requires Feasible(IDLE, events)
    ensures var s := Run(IDLE, events);
      && (forall t, u :: t in s.tasks && u in s.tasks && SameProjectStarted(s, t, u) ==> t == u)
      && Ordered(s.entered)
      && (forall p :: p in s.chains <==> exists t :: t in s.tasks && s.tasks[t].project == p)
      && s.running == Ids(s.tasks)
  {
    RunInv(IDLE, events);
    var s := Run(IDLE, events);
    forall t, u | t in s.tasks && u in s.tasks && SameProjectStarted(s, t, u)
      ensures t == u
    {
      OneStarted(s, t, u);
    }
  }

  predicate SameProjectStarted(s: State, t: Ticket, u: Ticket)
    requires t in s.tasks && u in s.tasks
  {
    s.tasks[t].started && s.tasks[u].started && s.tasks[t].project == s.tasks[u].project
  }

  lemma OneStarted(s: State, t: Ticket, u: Ticket)
    requires Inv(s) && t in s.tasks && u in s.tasks && SameProjectStarted(s, t, u)
    ensures t == u
  {
    assert InLine(s, t) && InLine(s, u);
    assert !Ahead(s, t, u) && !Ahead(s, u, t);
  }

  /** The chain never blocks for good: the first unfinished task of every project has started or may start. */
  lemma HeadIsReady(s: State, t: Ticket)
    requires Inv(s) && t in s.tasks && forall u :: !Ahead(s, u, t)
    ensures s.tasks[t].started || Ready(s, t)
  {
    assert InLine(s, t);
  }
}
