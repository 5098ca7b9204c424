/** The observable project store of app.ts: `State.addListener`,
    `ProjectState.getInstance` and `ProjectState.addProject`, with the
    `ProjectList` views that register as its listeners. */
module Store {
  import opened Projects

  /** One call of a listener: which registered listener (its position in the
      listener list) was called, and the snapshot it was handed. */
  datatype Delivery = Delivery(listener: nat, snapshot: seq<Project>)

  /** The calls one notification round makes when `count` listeners are
      registered: listener 0 first, each handed the same snapshot. */
  function Fanout(count: nat, snapshot: seq<Project>): seq<Delivery> {
    if count == 0 then [] else Fanout(count - 1, snapshot) + [Delivery(count - 1, snapshot)]
  }

  /** A notification round calls every listener exactly once, in registration order. */
  lemma {:induction false} FanoutInOrder(count: nat, snapshot: seq<Project>)
    ensures |Fanout(count, snapshot)| == count
    ensures forall i :: 0 <= i < count ==> Fanout(count, snapshot)[i] == Delivery(i, snapshot)
  {
    if count > 0 {
      FanoutInOrder(count - 1, snapshot);
    }
  }

  /** A rendered list of projects of one status. The listener it registers is
      identified with the list itself; rendering is not modelled. */
  class ProjectList {
    const kind: ListType
    var assignedProjects: seq<Project>

    /** `new ProjectList(type)`: starts empty and registers its listener (`configure`). */
    constructor (kind: ListType, store: ProjectState)
      modifies store
      ensures this.kind == kind && assignedProjects == []
      ensures store.listeners == old(store.listeners) + [this]
      ensures store.projects == old(store.projects) && store.log == old(store.log)
    {
      this.kind := kind;
      assignedProjects := [];
      new;
      Configure(store);
    }

    /** `configure`: adds this list's listener to the store. */
    method Configure(store: ProjectState)
      modifies store
      ensures store.listeners == old(store.listeners) + [this]
      ensures store.projects == old(store.projects) && store.log == old(store.log)
    {
      store.AddListener(this);
    }

    /** The listener body: replaces `assignedProjects` by the projects of the
      snapshot that have this list's status, in the snapshot's order. */
    method Notify(projects: seq<Project>)
      modifies this
      ensures assignedProjects == Relevant(kind, projects)
    {
      assignedProjects := Relevant(kind, projects);
    }
  }

  /** `ProjectState` together with its base class `State<Project>`. */
  class ProjectState {
    var listeners: seq<ProjectList>
    var projects: seq<Project>
    /** Every listener call made so far, in the order made. */
    ghost var log: seq<Delivery>

    /** `addProject` creates only `Active` projects. */
    ghost predicate OnlyActive()
      reads this
    {
      AllActive(projects)
    }

    /** Every registered list holds the filtered current project list. */
    ghost predicate ViewsInSync()
      reads this, listeners
    {
      forall i :: 0 <= i < |listeners| ==>
        listeners[i].assignedProjects == Relevant(listeners[i].kind, projects)
    }

    /** The private constructor: no listeners, no projects. */
    constructor ()
      ensures listeners == [] && projects == [] && log == []
      ensures OnlyActive()
    {
      listeners, projects, log := [], [], [];
    }

    /** `addListener`: appends, without removing duplicates. */
    method AddListener(listener: ProjectList)
      modifies this
      ensures listeners == old(listeners) + [listener]
      ensures projects == old(projects) && log == old(log)
    {
      listeners := listeners + [listener];
    }

    /** `addProject`: appends a new `Active` project (its `id` stands for
      `Math.random().toString()`), then calls every listener in registration
      order with a copy of the whole list. */
    method AddProject(id: string, title: string, description: string, numOfPeople: int)
      requires OnlyActive()
      modifies this, listeners
      ensures OnlyActive()
      ensures listeners == old(listeners)
      ensures projects == old(projects) + [Project(id, title, description, numOfPeople, Active)]
      ensures log == old(log) + Fanout(|listeners|, projects)
      ensures ViewsInSync()
    {
      var newProject := Project(id, title, description, numOfPeople, Active);
      projects := projects + [newProject];
      var i := 0;
      while i < |listeners|
        invariant 0 <= i <= |listeners|
        invariant listeners == old(listeners)
        invariant projects == old(projects) + [newProject]
        invariant log == old(log) + Fanout(i, projects)
        invariant forall k :: 0 <= k < i ==>
          listeners[k].assignedProjects == Relevant(listeners[k].kind, projects)
      {
        var snapshot := projects;
        listeners[i].Notify(snapshot);
        log := log + [Delivery(i, snapshot)];
        i := i + 1;
      }
    }
  }

  /** With every project `Active` and every view in sync, active lists show the
      whole project list and finished lists show nothing. */
  lemma SyncedViewsShowAll(store: ProjectState)
    requires store.OnlyActive() && store.ViewsInSync()
    ensures forall i :: 0 <= i < |store.listeners| && store.listeners[i].kind == ActiveList ==>
      store.listeners[i].assignedProjects == store.projects
    ensures forall i :: 0 <= i < |store.listeners| && store.listeners[i].kind == FinishedList ==>
      store.listeners[i].assignedProjects == []
  {
    AllActiveViews(store.projects);
  }

  /** The static `ProjectState.instance` slot. */
  class ProjectStateRegistry {
    var instance: ProjectState?

    constructor ()
      ensures instance == null
    {
      instance := null;
    }

    /** `getInstance`: creates the store on the first call only; every call
      returns the one stored instance. */
    method GetInstance() returns (store: ProjectState)
      modifies this
      ensures old(instance) != null ==> store == old(instance)
      ensures old(instance) == null ==>
                fresh(store) && store.listeners == [] && store.projects == [] &&
                store.log == [] && store.OnlyActive()
      ensures instance == store
    {
      if instance != null {
        return instance;
      }
      instance := new ProjectState();
      store := instance;
    }
  }
}
