# Project tracker store, validator and submission gate

This project models the logic of `app.ts`, a small in-browser project tracker.
A form collects a title, a description and a team size. `validate` checks each
field against declarative constraints. When all three fields pass, a project is
appended to a shared store. The store then notifies every registered listener
with a copy of the whole project list. Two lists, "active" and "finished", are
such listeners. Each one keeps the projects of its own status.

The modules follow that structure:

- `Validation` (validation.dfy): the `Validateble` descriptor, JavaScript's
  `trim` and integer `toString`, the specification predicate `Satisfies`, and
  `Validate`, the `if` chain of `validate` that reassigns `isValid`.
- `Projects` (projects.dfy): `ProjectStatus`, `Project`, the list type, and
  the status filter that a `ProjectList` applies to each snapshot.
- `Store` (store.dfy): the class `ProjectState`, which merges in its base
  class `State<Project>`; the class `ProjectList`, whose object stands for the
  listener it registers; and `ProjectStateRegistry`, the static `instance`
  slot behind `getInstance`. The store carries a ghost `log` of every listener
  call, in order, as (listener position, snapshot) pairs.
- `Submission` (submission.dfy): the three descriptors built by
  `gatherUserInput`, the gate itself, `submitHandler`, and client methods that
  wire the application as the end of `app.ts` does.
- `Wrappers` (wrappers.dfy): `Option`.

Behaviour modelled as the code has it:

- `required` on a number always passes, `0` included, because a number's
  `toString()` is never blank (`Validation.RequiredNumberPasses`); `"0"` is
  not blank, so `0` passes (`Validation.ZeroPassesRequired`).
- `minLength` and `maxLength` measure the untrimmed string. They apply only
  to string values. `min` and `max` apply only to numbers.
- The team-size descriptor holds the entered text, not a number. So its
  `min: 1, max: 5` are never checked, and any non-blank team size text passes
  (`Submission.TeamSizeRangeIgnored`). The team size is parsed only after
  validation and is never compared with 1 or 5.
- Snapshots are Dafny sequence values. A listener's copy therefore cannot
  change the store's list or another listener's copy, as `slice()` promises.

## Model

| member | source | states |
|---|---|---|
| Validation.TrimStart | app.ts:77 | the result is a suffix of the input; everything dropped is whitespace; the result does not start with whitespace |
| Validation.TrimEnd | app.ts:77 | the result is a prefix of the input; everything dropped is whitespace; the result does not end with whitespace |
| Validation.Trim | app.ts:77 | `trim()` is no longer than its input and has whitespace at neither end |
| Validation.TrimEmptyIffBlank | app.ts:77 | the trimmed string is empty exactly when every character of the string is whitespace |
| Validation.TrimWithoutWhitespace | app.ts:77 | a string without whitespace is its own trim |
| Validation.NatToString | app.ts:77 | the decimal form of a natural number is non-empty and made of digits only |
| Validation.NatToStringRoundTrip | app.ts:77 | reading the decimal form back gives the number |
| Validation.NumberToString | app.ts:77 | a number's `toString()` is non-empty and contains no whitespace |
| Validation.RequiredNumberPasses | app.ts:76-78 | `required` holds for every number, 0 included |
| Validation.Validate | app.ts:73-93 | `validate` returns true exactly when every present constraint holds (`Satisfies`) |
| Validation.SatisfiesIff | app.ts:73-93 | in terms of the raw value: `required` rejects only blank strings and never a number; length bounds apply to the untrimmed string only; numeric bounds apply to numbers only |
| Validation.UnconstrainedAccepts | app.ts:73-93 | with no constraint every value is accepted |
| Validation.BlankFailsRequired | app.ts:76-78 | an empty or all-whitespace string fails `required` |
| Validation.MinLengthBoundary | app.ts:79-81 | "abcde" meets `required` and `minLength` 5 |
| Validation.MinLengthUntrimmed | app.ts:79-81 | "  ab  " meets `minLength` 5, because the untrimmed length counts |
| Validation.NumericBoundary | app.ts:85-90 | 4 meets `min` 1 and `max` 5; 6 does not |
| Validation.ZeroPassesRequired | app.ts:76-78 | the number 0 passes `required` |
| Validation.StringIgnoresBounds | app.ts:85-90 | the string "9" passes `min` 1 and `max` 5, since they apply to numbers only |
| Projects.Relevant | app.ts:161-166 | the filtered list is no longer than the snapshot, and each of its projects is in the snapshot and has the list's status |
| Projects.RelevantMembers | app.ts:161-166 | a project is in the filtered list exactly when it is in the snapshot and has the list's status |
| Projects.RelevantAppend | app.ts:161-166 | filtering keeps the snapshot's order: the filter of a concatenation is the concatenation of the filters |
| Projects.StatusPartition | app.ts:161-166 | the active and finished filters partition a snapshot as multisets, and their lengths add up to its length |
| Projects.AllActiveViews | app.ts:161-166 | when every project is `Active`, the active filter is the whole list and the finished filter is empty |
| Store.FanoutInOrder | app.ts:55-57 | one notification round calls each registered listener exactly once, in registration order, each with the same snapshot |
| Store.ProjectList.constructor | app.ts:151-157 | a new list has the given type, starts empty and is appended to the store's listeners; projects and log unchanged |
| Store.ProjectList.Configure | app.ts:159-170 | registers the list's listener at the end of the store's listeners; nothing else in the store changes |
| Store.ProjectList.Notify | app.ts:160-167 | the listener replaces `assignedProjects` by the snapshot's projects of the list's status, in order |
| Store.ProjectState.constructor | app.ts:21-35 | a new store has no listeners, no projects and an empty log |
| Store.ProjectState.AddListener | app.ts:24-26 | the listener is appended at the end, without removing duplicates; earlier listeners, the projects and the log are unchanged |
| Store.ProjectState.AddProject | app.ts:46-58 | exactly one `Active` project with the given fields is appended and earlier ones stay in order; the listeners are unchanged; every listener is called once, in order, with the full new list; afterwards every registered list holds its filter of that list; only `Active` projects exist |
| Store.SyncedViewsShowAll | app.ts:161-167 | with every project `Active` and the views in sync, active lists show the whole list and finished lists are empty |
| Store.ProjectStateRegistry.constructor | app.ts:31 | no instance exists before the first `getInstance` |
| Store.ProjectStateRegistry.GetInstance | app.ts:37-44 | creates a fresh empty store only when none exists; otherwise returns the existing one; the stored instance is the one returned |
| Submission.GateCharacterization | app.ts:221-241 | the gate accepts exactly when title is non-blank, description is non-blank with at least 5 characters, and team size text is non-blank |
| Submission.BuildApiAccepted | app.ts:237-246 | "Build API", "Backend work", "3" passes the gate |
| Submission.TeamSizeRangeIgnored | app.ts:230-235 | team sizes "9" and "0" pass the gate, since `min`/`max` are not applied to the text |
| Submission.ShortDescriptionRejected | app.ts:225-229 | a three-character description fails the gate |
| Submission.GatherUserInput | app.ts:216-247 | returns a tuple exactly when all three descriptors validate; the tuple is the entered title and description and the parsed team size |
| Submission.SubmitHandler | app.ts:249-259 | on accepted input, adds exactly the gathered project, notifying every list in order; on rejected input, the store and every list are unchanged and no listener is called |
| Submission.WireApplication | app.ts:262-264 | the wired application has one store with an active and a finished list registered in that order, all empty |
| Submission.AcceptedSubmissionScenario | app.ts:249-258 | after one accepted submission the store holds exactly that project, the active list shows it, the finished list is empty, and each list was called once in order |
| Submission.RejectedSubmissionScenario | app.ts:249-258 | a submission with a blank field or a description under 5 characters, made through a second `getInstance`, adds nothing and calls no listener |
| Submission.SharedInstanceScenario | app.ts:61 | a project added through one `getInstance` reference is seen through another |

## Left out

- The DOM: the `Component` base class, `attach`, `renderContent`,
  `renderProjects`, `clearInputs` and `ProjectInput.configure` (template
  cloning, element insertion, `innerHTML`, event wiring). The values of the
  three input elements are parameters of `GatherUserInput` and `SubmitHandler`.
- The `autobind` decorator: it works by property-descriptor reflection.
- Project ids: `Math.random().toString()` is a floating-point random source,
  so the id is a parameter of `AddProject`. No uniqueness is claimed, because
  the code does not guarantee it.
- `parseInt` is a parameter `parseInt: string -> int` applied only after the
  gate passes. NaN results are not modelled.
- `alert`, `console.log` and `event.preventDefault`: user-interface side effects.
- JavaScript numbers are modelled as integers: no floating point, no NaN, and
  no exponent notation in `toString()` for magnitudes of 1e21 and above.
  The only fact the model uses about `toString()`, that it is never blank,
  holds for those forms too.
- String lengths count Unicode characters; JavaScript counts UTF-16 code units, so
  `minLength`/`maxLength` differ on characters outside the Basic Multilingual Plane.
- Listeners: only `ProjectList` registers one, so a listener is represented by
  its `ProjectList` object. Arbitrary callbacks, and listeners that call back
  into the store, are not modelled.
- `Project` is a class in TypeScript, and `slice()` copies only the array, so
  the store and every snapshot share the project objects. They are modelled
  as immutable values, which agrees with the code because nothing writes to a
  project after it is created.
- `ProjectState`'s constructor is private and `instance` is a single static
  slot. In the model any code may call `new ProjectState()` or create several
  `ProjectStateRegistry` objects, so "the same instance on every call" is
  proved per registry object, not for the whole program. Within the model
  only `GetInstance` creates a store, and nothing proved depends on more.
- `State<T>` is generic; the model merges it into `ProjectState` with `T = Project`.
- src/components/project-input.ts repeats `gatherUserInput` and
  `submitHandler` of app.ts line for line. The model follows app.ts.
