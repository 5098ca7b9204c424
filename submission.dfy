/** The submission gate of `ProjectInput`: `gatherUserInput` builds three
    validation descriptors from the entered text and yields the input only when
    all three pass; `submitHandler` adds a project exactly in that case. The
    entered text, the random id and `parseInt` come in as parameters. */
module Submission {
  import opened Wrappers
  import opened Validation
  import opened Projects
  import opened Store

  /** The `[title, description, people]` tuple `gatherUserInput` returns. */
  datatype UserInput = UserInput(title: string, description: string, people: int)

  function TitleValidatable(enteredTitle: string): Validatable {
    Validatable(Str(enteredTitle), true, None, None, None, None)
  }

  function DescriptionValidatable(enteredDescription: string): Validatable {
    Validatable(Str(enteredDescription), true, Some(5), None, None, None)
  }

  /** The team size descriptor holds the entered text, not a number, so its
      `min` and `max` are never applied. */
  function PeopleValidatable(enteredPeople: string): Validatable {
    Validatable(Str(enteredPeople), true, None, None, Some(1), Some(5))
  }

  /** All three descriptors validate. */
  predicate Accepts(enteredTitle: string, enteredDescription: string, enteredPeople: string) {
    Satisfies(TitleValidatable(enteredTitle)) &&
    Satisfies(DescriptionValidatable(enteredDescription)) &&
    Satisfies(PeopleValidatable(enteredPeople))
  }

  /** The gate in terms of the entered text: a non-blank title, a non-blank
      description of at least five characters (untrimmed), and any non-blank
      team size text, whatever number it spells. */
  lemma GateCharacterization(enteredTitle: string, enteredDescription: string, enteredPeople: string)
    ensures Accepts(enteredTitle, enteredDescription, enteredPeople) <==>
      !AllWhitespace(enteredTitle) &&
      !AllWhitespace(enteredDescription) && |enteredDescription| >= 5 &&
      !AllWhitespace(enteredPeople)
  {
    SatisfiesIff(TitleValidatable(enteredTitle));
    SatisfiesIff(DescriptionValidatable(enteredDescription));
    SatisfiesIff(PeopleValidatable(enteredPeople));
  }

  /** The submission of the worked example passes the gate. */
  lemma BuildApiAccepted()
    ensures Accepts("Build API", "Backend work", "3")
  {
    var title, description, people := "Build API", "Backend work", "3";
    assert !IsWhitespace(title[0]) && !IsWhitespace(description[0]) && !IsWhitespace(people[0]);
    GateCharacterization(title, description, people);
  }

  /** Team sizes outside 1..5 pass the gate: "9" and "0" are accepted. */
  lemma TeamSizeRangeIgnored()
    ensures Accepts("Build API", "Backend work", "9")
    ensures Accepts("Build API", "Backend work", "0")
  {
    var title, description, nine, zero := "Build API", "Backend work", "9", "0";
    assert !IsWhitespace(title[0]) && !IsWhitespace(description[0]);
    assert !IsWhitespace(nine[0]) && !IsWhitespace(zero[0]);
    GateCharacterization(title, description, nine);
    GateCharacterization(title, description, zero);
  }

  /** A three-letter description is rejected. */
  lemma ShortDescriptionRejected()
    ensures !Accepts("Tiny", "abc", "2")
  {
    GateCharacterization("Tiny", "abc", "2");
  }

  /** `gatherUserInput`: validates title, description and team size in that
      order and returns the tuple, with the team size parsed, only if all pass. */
  method GatherUserInput(enteredTitle: string, enteredDescription: string, enteredPeople: string,
                         parseInt: string -> int)
    returns (r: Option<UserInput>)
    ensures r.Some? <==> Accepts(enteredTitle, enteredDescription, enteredPeople)
    ensures r.Some? ==> r.value == UserInput(enteredTitle, enteredDescription, parseInt(enteredPeople))
  {
    var titleValid := Validate(TitleValidatable(enteredTitle));
    if !titleValid {
      return None;
    }
    var descriptionValid := Validate(DescriptionValidatable(enteredDescription));
    if !descriptionValid {
      return None;
    }
    var peopleValid := Validate(PeopleValidatable(enteredPeople));
    if !peopleValid {
      return None;
    }
    return Some(UserInput(enteredTitle, enteredDescription, parseInt(enteredPeople)));
  }

  /** `submitHandler`: adds the gathered project when the input is accepted and
      leaves the store and every view untouched otherwise. */
  method SubmitHandler(store: ProjectState, id: string,
                       enteredTitle: string, enteredDescription: string, enteredPeople: string,
                       parseInt: string -> int)
    requires store.OnlyActive()
    modifies store, store.listeners
    ensures store.OnlyActive() && store.listeners == old(store.listeners)
    ensures Accepts(enteredTitle, enteredDescription, enteredPeople) ==>
              store.projects == old(store.projects) +
                [Project(id, enteredTitle, enteredDescription, parseInt(enteredPeople), Active)] &&
              store.log == old(store.log) + Fanout(|store.listeners|, store.projects) &&
              store.ViewsInSync()
    ensures !Accepts(enteredTitle, enteredDescription, enteredPeople) ==>
              unchanged(store) && unchanged(store.listeners)
  {
    var userInput := GatherUserInput(enteredTitle, enteredDescription, enteredPeople, parseInt);
    if userInput.Some? {
      var UserInput(title, description, people) := userInput.value;
      store.AddProject(id, title, description, people);
    }
  }

  /** The wiring at the end of app.ts: the shared store obtained through
      `getInstance`, then an active and a finished list registered on it. */
  method WireApplication()
    returns (registry: ProjectStateRegistry, store: ProjectState,
             activeList: ProjectList, finishedList: ProjectList)
    ensures fresh(registry) && fresh(store) && fresh(activeList) && fresh(finishedList)
    ensures registry.instance == store
    ensures store.listeners == [activeList, finishedList] && fresh(store.listeners)
    ensures store.projects == [] && store.log == [] && store.OnlyActive()
    ensures activeList.kind == ActiveList && finishedList.kind == FinishedList
    ensures activeList.assignedProjects == [] && finishedList.assignedProjects == []
  {
    registry := new ProjectStateRegistry();
    store := registry.GetInstance();
    activeList := new ProjectList(ActiveList, store);
    finishedList := new ProjectList(FinishedList, store);
  }

  /** An accepted submission into the wired application: the store holds the
      one new project, the active list shows it, the finished list is empty,
      and each list was called once, in registration order, with the full list. */
  method AcceptedSubmissionScenario(id: string, enteredTitle: string, enteredDescription: string,
                                    enteredPeople: string, parseInt: string -> int)
    returns (all: seq<Project>, active: seq<Project>, finished: seq<Project>,
             ghost deliveries: seq<Delivery>)
    requires Accepts(enteredTitle, enteredDescription, enteredPeople)
    ensures all == [Project(id, enteredTitle, enteredDescription, parseInt(enteredPeople), Active)]
    ensures active == all && finished == []
    ensures deliveries == Fanout(2, all)
  {
    var registry, store, activeList, finishedList := WireApplication();
    SubmitHandler(store, id, enteredTitle, enteredDescription, enteredPeople, parseInt);
    ghost var added := [Project(id, enteredTitle, enteredDescription, parseInt(enteredPeople), Active)];
    assert store.projects == added;
    assert store.log == Fanout(2, added);
    assert store.listeners[0] == activeList && store.listeners[1] == finishedList;
    AllActiveViews(added);
    all, active, finished := store.projects, activeList.assignedProjects, finishedList.assignedProjects;
    deliveries := store.log;
  }

  /** A rejected submission through a second `getInstance` of the wired
      application: no project is added, no listener is called, both lists stay
      empty, whatever the reason for the rejection. */
  method RejectedSubmissionScenario(id: string, enteredTitle: string, enteredDescription: string,
                                    enteredPeople: string, parseInt: string -> int)
    returns (seenThroughFirst: seq<Project>, active: seq<Project>, finished: seq<Project>,
             ghost deliveries: seq<Delivery>)
    requires AllWhitespace(enteredTitle) || AllWhitespace(enteredDescription) ||
             |enteredDescription| < 5 || AllWhitespace(enteredPeople)
    ensures seenThroughFirst == [] && active == [] && finished == [] && deliveries == []
  {
    GateCharacterization(enteredTitle, enteredDescription, enteredPeople);
    var registry, store, activeList, finishedList := WireApplication();
    var again := registry.GetInstance();
    SubmitHandler(again, id, enteredTitle, enteredDescription, enteredPeople, parseInt);
    seenThroughFirst, active, finished := store.projects, activeList.assignedProjects, finishedList.assignedProjects;
    deliveries := store.log;
  }

  /** Two `getInstance` calls give one store: a project added through the first
      reference is seen through the second. */
  method SharedInstanceScenario(id: string, title: string, description: string, people: int)
    returns (seenThroughSecond: seq<Project>)
    ensures seenThroughSecond == [Project(id, title, description, people, Active)]
  {
    var registry := new ProjectStateRegistry();
    var first := registry.GetInstance();
    var second := registry.GetInstance();
    first.AddProject(id, title, description, people);
    seenThroughSecond := second.projects;
  }
}
