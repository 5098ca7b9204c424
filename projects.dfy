/** The `Project` record, its `ProjectStatus`, and the status filter that a
    `ProjectList` applies to every snapshot it is notified with. */
module Projects {

  datatype ProjectStatus = Active | Finished

  /** A project as `addProject` creates it; nothing in the program changes one afterwards. */
  datatype Project = Project(
    id: string,
    title: string,
    description: string,
    people: int,
    status: ProjectStatus)

  /** The `type` of a `ProjectList`: `'active' | 'finished'`. */
  datatype ListType = ActiveList | FinishedList

  /** The filter callback of `ProjectList.configure`: an active list keeps the
      `Active` projects, any other list the `Finished` ones. */
  predicate IsRelevant(kind: ListType, p: Project) {
    if kind == ActiveList then p.status == Active else p.status == Finished
  }

  /** `projects.filter(...)` with that callback. */
  function Relevant(kind: ListType, projects: seq<Project>): (r: seq<Project>)
    ensures |r| <= |projects|
    ensures forall p :: p in r ==> p in projects && IsRelevant(kind, p)
  {
    if projects == [] then []
    else (if IsRelevant(kind, projects[0]) then [projects[0]] else []) + Relevant(kind, projects[1..])
  }

  predicate AllActive(projects: seq<Project>) {
    forall i :: 0 <= i < |projects| ==> projects[i].status == Active
  }

  /** The filter keeps exactly the projects of the list's status. */
  lemma {:induction false} RelevantMembers(kind: ListType, projects: seq<Project>, p: Project)
    ensures p in Relevant(kind, projects) <==> p in projects && IsRelevant(kind, p)
  {
    if projects != [] {
      RelevantMembers(kind, projects[1..], p);
      assert projects == [projects[0]] + projects[1..];
    }
  }

  /** The filter keeps the snapshot's order: filtering a concatenation is
      concatenating the filtered parts. */
  lemma {:induction false} RelevantAppend(kind: ListType, a: seq<Project>, b: seq<Project>)
    ensures Relevant(kind, a + b) == Relevant(kind, a) + Relevant(kind, b)
  {
    if a == [] {
      assert a + b == b;
    } else {
      assert (a + b)[0] == a[0];
      assert (a + b)[1..] == a[1..] + b;
      RelevantAppend(kind, a[1..], b);
    }
  }

  /** The active and the finished view partition every snapshot: each project is
      in exactly one of them, as often as in the snapshot, and their lengths add up. */
  lemma {:induction false} StatusPartition(projects: seq<Project>)
    ensures multiset(Relevant(ActiveList, projects)) + multiset(Relevant(FinishedList, projects))
            == multiset(projects)
    ensures |Relevant(ActiveList, projects)| + |Relevant(FinishedList, projects)| == |projects|
  {
    if projects != [] {
      StatusPartition(projects[1..]);
      assert projects == [projects[0]] + projects[1..];
    }
  }

  /** While every project is `Active`, the active view is the whole list and the
      finished view is empty. */
  lemma {:induction false} AllActiveViews(projects: seq<Project>)
    requires AllActive(projects)
    ensures Relevant(ActiveList, projects) == projects
    ensures Relevant(FinishedList, projects) == []
  {
    if projects != [] {
      AllActiveViews(projects[1..]);
      assert projects == [projects[0]] + projects[1..];
    }
  }
}
