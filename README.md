# In-memory task store of SpringOrganizer

SpringOrganizer is a small task-list HTTP service. Its core is the in-memory task
store, `InMemTaskRepository`. The request layer, `TasksRestController`, is left out
(see below). The store owns one mutable
`LinkedList<Task>`. The list starts with four tasks, and `findAll` hands the list
itself to callers. A `Task` is a record of an identifier (a UUID), free-text details
and a completion flag.

This project models that store in Dafny:

- `task.dfy`, module `TaskModel`: the value types: `Uuid` (two 64-bit halves, as
  `java.util.UUID`), the `Task` record, `Option` (for `java.util.Optional`), and
  `NewTask`, which is the one-argument `Task(details)` constructor with its random
  identifier passed in.
- `repository.dfy`, module `TaskStore`:
  - `TaskList` is the mutable list object. It has `Add`, `AddAll` and `Clear`.
  - `InMemTaskRepository` has a `const tasks: TaskList`, the Java `final` field.
    Its constructor fills the list with the four initial tasks. `FindAll` returns that
    same object. `Save` appends. `FindById` is a linear scan.
  - `FirstWithId` is the specification of the lookup. The lemmas relate it to
    appending and to distinct identifiers.
- `scenarios.dfy`, module `StoreScenarios`: client methods on a new store, proved
  from the store's contracts alone. Most replay the call sequence of one of the
  repository's tests and prove what that test checks. `EveryListedTaskIsFound` states
  the lookup property for every listed task.

Because `FindAll` returns the store's own `TaskList` object (`ensures l == tasks`),
clearing or adding through the returned list changes what the store holds. The
integration tests rely on this when they reset the store. `ClearThroughFindAll` and
`AddTwoToEmptiedStore` prove it.

`InMemTaskRepository` defines neither `save` nor `findById`. Both come from the
`TaskRepository` interface, whose source is not part of this model. They are modelled
as "append to the list" and "first task in list order whose id matches, else empty".
This is a choice the unit tests are consistent with: they check only that a saved
task is contained, that a listed id is found and that an unknown id is not.

## Model

| member | source | states |
|---|---|---|
| TaskStore.FirstWithId | src/test/java/com/example/springorganizer/InMemTaskRepositoryTest.java:33-52 | The lookup is empty exactly when no task in the list has the id. Otherwise it is the first task in list order with that id. |
| TaskModel.NewTask | src/main/java/com/example/springorganizer/InMemTaskRepository.java:11-14 | A task built from details alone carries the given id and details and is not completed. |
| TaskStore.LookupAfterAppend | src/test/java/com/example/springorganizer/InMemTaskRepositoryTest.java:24-42 | After appending task t, a lookup is unchanged if the id was already found. Otherwise it finds t if t has the id, and nothing if not. |
| TaskStore.LookupStoredTask | src/test/java/com/example/springorganizer/InMemTaskRepositoryTest.java:33-42 | When ids are distinct, looking up the id of any stored task returns exactly that task. |
| TaskStore.AppendKeepsIdsDistinct | src/test/java/com/example/springorganizer/InMemTaskRepositoryTest.java:24-31 | Saving keeps ids distinct if and only if the store was distinct and no stored task has the new task's id. |
| TaskStore.InitialTasksShape | src/main/java/com/example/springorganizer/InMemTaskRepository.java:10-15 | The initial contents are four tasks, none completed, with the four given ids and the details "Первая задача", "Вторая задача", "Третья задача", "Четвёртая задача", in that order. |
| TaskStore.InitialIdsDistinct | src/main/java/com/example/springorganizer/InMemTaskRepository.java:10-15 | The initial tasks have distinct ids if and only if the four generated identifiers are pairwise distinct. |
| TaskStore.TaskList.constructor | src/main/java/com/example/springorganizer/InMemTaskRepository.java:10 | A new list is empty. |
| TaskStore.TaskList.Add | src/main/java/com/example/springorganizer/InMemTaskRepository.java:11-14 | `add` appends the task at the end and leaves the earlier contents as they were. |
| TaskStore.TaskList.AddAll | src/test/java/com/example/springorganizer/TasksRestControllerIT.java:34-35 | `addAll` appends the given tasks at the end, in their order. |
| TaskStore.TaskList.Clear | src/test/java/com/example/springorganizer/TasksRestControllerIT.java:27-30 | `clear` leaves the list empty. |
| TaskStore.InMemTaskRepository.constructor | src/main/java/com/example/springorganizer/InMemTaskRepository.java:10-15 | A new store owns a new list holding exactly `InitialTasks`: the four initializer tasks, in order. |
| TaskStore.InMemTaskRepository.FindAll | src/main/java/com/example/springorganizer/InMemTaskRepository.java:17-19 | Returns the store's own list object, not a copy and never null, with the full current contents. It changes nothing. |
| TaskStore.InMemTaskRepository.Save | src/test/java/com/example/springorganizer/InMemTaskRepositoryTest.java:24-31 | The list becomes the old contents followed by the task, so it contains the task. |
| TaskStore.InMemTaskRepository.FindById | src/test/java/com/example/springorganizer/InMemTaskRepositoryTest.java:33-52 | The scan returns the lookup `FirstWithId` specifies. A present result is a stored task with the requested id. |
| StoreScenarios.FindAllOnNewStore | src/test/java/com/example/springorganizer/InMemTaskRepositoryTest.java:13-21 | A new store lists exactly four uncompleted tasks, with the four fixed details in order. |
| StoreScenarios.SaveThenFindAll | src/test/java/com/example/springorganizer/InMemTaskRepositoryTest.java:23-31 | After saving a new task to a new store, the list has five tasks, and the new task is last. |
| StoreScenarios.FindByIdOfFirstListed | src/test/java/com/example/springorganizer/InMemTaskRepositoryTest.java:33-42 | Looking up the id of the first listed task returns a present result with that id: the first initial task. |
| StoreScenarios.FindByIdOfUnknownId | src/test/java/com/example/springorganizer/InMemTaskRepositoryTest.java:44-52 | Looking up an id no stored task has returns an empty result. |
| StoreScenarios.ClearThroughFindAll | src/test/java/com/example/springorganizer/TasksRestControllerIT.java:27-30 | Clearing the list returned by `FindAll` empties the store, as a later `FindAll` shows. |
| StoreScenarios.AddTwoToEmptiedStore | src/test/java/com/example/springorganizer/TasksRestControllerIT.java:31-55 | Adding A then B through the returned list to an emptied store makes `FindAll` list exactly A, B. |
| StoreScenarios.AddToEmptiedStoreThenFind | src/test/java/com/example/springorganizer/TasksRestControllerIT.java:113-134 | A task added through the returned list to an emptied store is found by its id. |
| StoreScenarios.EveryListedTaskIsFound | src/main/java/com/example/springorganizer/InMemTaskRepository.java:10-19 | In a new store with pairwise distinct generated ids, looking up each listed task's id returns that task. |

## Left out

- `TasksRestController` is not part of this model. It rejects null or blank details with a localized message, answers 201 with a `Location` header, and answers 400 for an unparseable id. Its source is not among the modelled files.
- `Task`'s source is not modelled. The one-argument constructor is assumed to draw a fresh id and to set `completed` to false. `NewTask` and the not-completed clauses of `InitialTasksShape` and `FindAllOnNewStore` rest on this assumption.
- `Save`, `FindById`: the source of these `TaskRepository` methods is not available. The model assumes they append at the end and return the first match.
- UUID generation: `Task(String)` draws a random UUID. The model takes the identifiers as parameters, and `UUID.fromString` parsing is not modelled.
- Distinct identifiers: the store never checks them, so the lookup-returns-that-task results take distinctness as a hypothesis.
- Java object identity of `Task` records is not modelled. Records compare by their components, as Dafny datatypes do, so `contains` is sequence membership.
- Spring wiring (`@Repository`), HTTP status codes, JSON serialization, `MessageSource` lookup and application start-up are not modelled.
- Concurrency: the Java list has no synchronization, and the model is sequential.
- Two tests contradict the four-task initializer. `SpringOrganizerApplicationTests.contextLoads` expects an empty list. The integration tests share one store, and `tearDown` clears it after each test. So their expectations (one task after one create, an empty store after a rejected create, exactly two listed tasks) hold only when an earlier test's reset has emptied the store. A test that runs first sees the four initial tasks. The model follows the initializer as written, and the scenario methods replay the reset explicitly.
- `getTasks()`: the integration test calls it, but no modelled file defines it. It is assumed to return the same list as `findAll`, so the model uses `FindAll` in its place.
- The remaining `LinkedList` queries the tests use (`size`, `get`, `isEmpty`, `contains`) are read directly from the list's contents. They get no methods of their own.
