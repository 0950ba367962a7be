/** The abort controllers a `DeploymentPipelineRunner` keeps for its unfinished deployments
    (src/pipeline/pipeline-runner.ts). */
module Registry {
  import opened Records

  /** `critical`: the deployment has started changing the live service. */
  datatype Controller = Controller(project: Project, critical: bool)

  /** `aborted` are the deployments whose signal has fired. */
  datatype State = State(controllers: map<Id, Controller>, aborted: set<Id>)

  const EMPTY: State := State(map[], {})

  function CriticalIds(s: State, project: Project): set<Id>
  {
    set id | id in s.controllers && s.controllers[id].project == project && s.controllers[id].critical
  }

  /** What a newer deployment of the project may interrupt. */
  function Interruptible(s: State, project: Project): set<Id>
  {
    set id | id in s.controllers && s.controllers[id].project == project && !s.controllers[id].critical
  }

  function Aborted(s: State, ids: set<Id>): State
  {
    State(s.controllers - ids, s.aborted + ids)
  }

  function AbortedAll(s: State, project: Project): State
  {
    Aborted(s, Interruptible(s, project))
  }

  function Registered(s: State, id: Id, project: Project): State
  {
    s.(controllers := s.controllers[id := Controller(project, false)])
  }

  function Marked(s: State, id: Id): State
  {
    if id in s.controllers then s.(controllers := s.controllers[id := s.controllers[id].(critical := true)]) else s
  }

  /** The entry goes, and if there was one its signal fires. */
  function Unregistered(s: State, id: Id): State
  {
    if id in s.controllers then Aborted(s, {id}) else s
  }

  class DeploymentPipelineRunner {
    var activeAbortControllers: map<Id, Controller>
    var aborted: set<Id>

    ghost function Contents(): State
      reads this
    {
      State(activeAbortControllers, aborted)
    }

    constructor ()
      ensures Contents() == EMPTY
    {
      activeAbortControllers, aborted := map[], {};
    }

    method GetCriticalDeploymentIds(project: Project) returns (ids: set<Id>)
      ensures ids == CriticalIds(Contents(), project)
    {
      ids := set id | id in activeAbortControllers
        && activeAbortControllers[id].project == project && activeAbortControllers[id].critical;
    }

    /** The deployment can now be interrupted by a newer one of its project, and by no other. */
    method Register(id: Id, project: Project)
      modifies this
      ensures Contents() == Registered(old(Contents()), id, project)
      ensures id in Interruptible(Contents(), project) && id in AbortedAll(Contents(), project).aborted
      ensures forall p :: id !in CriticalIds(Contents(), p) && (p != project ==> id !in Interruptible(Contents(), p))
    {
      activeAbortControllers := activeAbortControllers[id := Controller(project, false)];
    }

    /** From now on no newer deployment interrupts it; nobody else gains or loses that protection. */
    method MarkCritical(id: Id)
      modifies this
      ensures Contents() == Marked(old(Contents()), id)
      ensures forall p :: Interruptible(Contents(), p) == old(Interruptible(Contents(), p)) - {id}
      ensures forall p :: CriticalIds(Contents(), p) == old(CriticalIds(Contents(), p)) + Only(id, OfProject(Contents(), p))
    {
      MarkedProtects(Contents(), id);
      if id in activeAbortControllers {
        activeAbortControllers := activeAbortControllers[id := activeAbortControllers[id].(critical := true)];
      }
    }

    method AbortDeployment(id: Id) returns (found: bool)
      modifies this
      ensures found <==> id in old(activeAbortControllers)
      ensures Contents() == Unregistered(old(Contents()), id)
    {
      found := id in activeAbortControllers;
      if found {
        aborted := aborted + {id};
        activeAbortControllers := activeAbortControllers - {id};
      }
    }

    /** Critical deployments are left to finish; all others of the project are aborted and forgotten. */
    method AbortAllDeploymentsForProject(project: Project)
      modifies this
      ensures Contents() == AbortedAll(old(Contents()), project)
    {
      var todo := activeAbortControllers.Keys;
      ghost var before := Contents();
      RemoveNothing(before);
      ghost var done: set<Id> := {};
      while todo != {}
        invariant todo + done == before.controllers.Keys && todo !! done
        invariant Contents() == Aborted(before, Interruptible(before, project) * done)
      {
        var id :| id in todo;
        todo := todo - {id};
        var entry := activeAbortControllers[id];
        AbortNext(before, project, done, id);
        if entry.project == project && !entry.critical {
          aborted := aborted + {id};
          activeAbortControllers := activeAbortControllers - {id};
        }
        done := done + {id};
      }
      assert Interruptible(before, project) * done == Interruptible(before, project);
    }
  }

  lemma RemoveNothing(s: State)
    ensures forall ids: set<Id> :: Aborted(s, ids * {}) == s
  {
    forall ids: set<Id>
      ensures Aborted(s, ids * {}) == s
    {
      assert ids * {} == {};
      assert s.controllers - {} == s.controllers;
    }
  }

  lemma AbortNext(s: State, project: Project, done: set<Id>, id: Id)
    requires id in s.controllers && id !in done
    ensures var ids := Interruptible(s, project);
      Aborted(s, ids * (done + {id})) ==
        if id in ids then Aborted(Aborted(s, ids * done), {id}) else Aborted(s, ids * done)
  {
    var ids := Interruptible(s, project);
    assert ids * (done + {id}) == if id in ids then ids * done + {id} else ids * done;
    if id in ids {
      assert s.controllers - (ids * done + {id}) == (s.controllers - ids * done) - {id};
    }
  }

  function Only(id: Id, ids: set<Id>): set<Id>
  {
    if id in ids then {id} else {}
  }

  function OfProject(s: State, project: Project): set<Id>
  {
    set id | id in s.controllers && s.controllers[id].project == project
  }

  /** Marking moves one deployment from those that may be interrupted to those that are protected. */
  lemma MarkedProtects(s: State, id: Id)
    ensures forall p :: Interruptible(Marked(s, id), p) == Interruptible(s, p) - {id}
    ensures forall p :: CriticalIds(Marked(s, id), p) == CriticalIds(s, p) + Only(id, OfProject(s, p))
    ensures forall p :: OfProject(Marked(s, id), p) == OfProject(s, p)
  {
    var after := Marked(s, id);
    assert after.controllers.Keys == s.controllers.Keys;
    forall p
      ensures Interruptible(after, p) == Interruptible(s, p) - {id}
      ensures CriticalIds(after, p) == CriticalIds(s, p) + Only(id, OfProject(s, p))
      ensures OfProject(after, p) == OfProject(s, p)
    {
    }
  }

  /** A registered deployment is interrupted by the next newer one, unless it has been marked by then. */
  lemma MarkedIsSpared(s: State, id: Id, project: Project)
    ensures var running := Registered(s, id, project);
      && id in AbortedAll(running, project).aborted && id !in AbortedAll(running, project).controllers
      && (forall p :: AbortedAll(Marked(running, id), p).controllers.Keys >= {id})
      && (forall p :: id in AbortedAll(Marked(running, id), p).aborted <==> id in s.aborted)
  {
    MarkedProtects(Registered(s, id, project), id);
  }

  /** A critical deployment survives every attempt to supersede it, and stays critical. */
  lemma CriticalSurvives(s: State, project: Project, id: Id)
    requires id in s.controllers && s.controllers[id].critical
    ensures var after := AbortedAll(s, project);
      id in after.controllers && after.controllers[id] == s.controllers[id] && (id in after.aborted <==> id in s.aborted)
    ensures s.controllers[id].project == project ==> id in CriticalIds(AbortedAll(s, project), project)
  {
  }
}
