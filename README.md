# Task-list interactor, modelled in Dafny

The to-do app's task-list interactor sits between the task service and the
presenter. It has three operations:

- `fetchTasks` loads all task items. It sorts them by creation time and hands
  the sorted list to its output listener.
- `updateTaskItem` relays the updated item the service returns.
- `deleteTaskItem` relays the id of the deleted item.

Every failure goes to one shared callback, `didFailToFetchTasks`. If the
listener is gone, the notification is dropped.

This project models:

- the comparator closure given to `sorted`;
- what a sorted result must look like;
- the result-to-notification dispatch of the three operations, first as pure
  functions and then as a class whose methods append to the listener's record
  of received notifications.

Files:

- `results.dfy` (module `Results`): `Option` and `Result`.
- `task_model.dfy` (module `TaskModel`): the `Task` record and the task item.
  A task item has an opaque id, an optional integer creation time and an
  opaque payload. The service error is also declared here.
- `task_ordering.dfy` (module `TaskOrdering`): the comparator `CreatedBefore`.
  It is proved to be a strict weak ordering against a reference rank order.
  The module also defines sortedness and its shape, an insertion sort standing
  in for the library sort, and a proof that every sorted permutation of a list
  has the same sequence of creation times.
- `task_list_interactor.dfy` (module `TaskListInteractor`): the notifications,
  the pure dispatch functions with their lemmas, the listener class
  `TaskListOutput` and the class `TaskListInteractor`.

## Model

| member | source | states |
|---|---|---|
| `TaskOrdering.CreatedBefore` | ToDoApp/Modules/TaskListModule/TaskListInteractor.swift:30-39 | the comparator closure: true when both tasks have a timestamp and date1 < date2; false when task1 has none; true when only task1 has one |
| `TaskOrdering.CreatedBeforeIsRankLess` | ToDoApp/Modules/TaskListModule/TaskListInteractor.swift:30-39 | the comparator is exactly lexicographic "less" on (tier, time) ranks, where every timestamp is in tier 0 and a missing timestamp is in tier 1 |
| `TaskOrdering.BothTimestamped` | ToDoApp/Modules/TaskListModule/TaskListInteractor.swift:31-33 | when both tasks have a timestamp, task1 comes first exactly when date1 < date2 |
| `TaskOrdering.TimestampedBeforeUntimestamped` | ToDoApp/Modules/TaskListModule/TaskListInteractor.swift:34-38 | a timestamped task1 against an untimestamped task2 gives true |
| `TaskOrdering.UntimestampedNeverFirst` | ToDoApp/Modules/TaskListModule/TaskListInteractor.swift:34-35 | an untimestamped task1 gives false against any task2 |
| `TaskOrdering.IncomparableIffSameCreation` | ToDoApp/Modules/TaskListModule/TaskListInteractor.swift:30-39 | two tasks are incomparable if and only if their creation times are equal, so all untimestamped tasks form one equivalence class |
| `TaskOrdering.CreatedBeforeIsStrictWeakOrder` | ToDoApp/Modules/TaskListModule/TaskListInteractor.swift:30-39 | the comparator is irreflexive and transitive, and incomparability is transitive: the strict weak ordering `sorted` requires |
| `TaskOrdering.SortedShape` | ToDoApp/Modules/TaskListModule/TaskListInteractor.swift:30-39 | a list is in comparator order if and only if no untimestamped task precedes a timestamped one and the timestamps never decrease |
| `TaskOrdering.Insert` | ToDoApp/Modules/TaskListModule/TaskListInteractor.swift:30-39 | inserting a task adds exactly one occurrence of it and keeps a sorted list sorted |
| `TaskOrdering.SortTasks` | ToDoApp/Modules/TaskListModule/TaskListInteractor.swift:30-39 | the result of `tasks.sorted { ... }` is a permutation of the input (same multiset, same length) in comparator order |
| `TaskOrdering.SortedIffTimesSorted` | ToDoApp/Modules/TaskListModule/TaskListInteractor.swift:30-39 | a task list is in comparator order if and only if its sequence of creation times is in rank order |
| `TaskOrdering.PermutationKeepsTimes` | ToDoApp/Modules/TaskListModule/TaskListInteractor.swift:30-39 | permuting tasks permutes their creation times |
| `TaskOrdering.SortedTimesUnique` | ToDoApp/Modules/TaskListModule/TaskListInteractor.swift:30-39 | two rank-ordered sequences with the same multiset of creation times are equal |
| `TaskOrdering.SortedPermutationsAgree` | ToDoApp/Modules/TaskListModule/TaskListInteractor.swift:30-39 | any two valid sorts of one input have the same creation time at every position, so a sort can only reorder tasks with equal creation times |
| `TaskOrdering.ResortingSortedInput` | ToDoApp/Modules/TaskListModule/TaskListInteractor.swift:30-39 | sorting an already-sorted list gives a sorted permutation of it with the same creation time at every position |
| `TaskOrdering.ThreeTaskScenario` | ToDoApp/Modules/TaskListModule/TaskListInteractor.swift:30-39 | for A (10), B (none) and C (5), the only valid sort is C, A, B |
| `TaskListInteractor.FetchNotification` | ToDoApp/Modules/TaskListModule/TaskListInteractor.swift:27-44 | a successful load reports `didFetchTasks` with a sorted permutation of the loaded tasks: timestamped first, in non-decreasing time, then untimestamped. A failed load reports `didFailToFetchTasks` with the same error. |
| `TaskListInteractor.UpdateNotification` | ToDoApp/Modules/TaskListModule/TaskListInteractor.swift:50-55 | a successful update reports `didFetchTask` with exactly the item the service returned. A failure reports `didFailToFetchTasks` with the same error. |
| `TaskListInteractor.DeleteNotification` | ToDoApp/Modules/TaskListModule/TaskListInteractor.swift:61-66 | a successful delete reports `didFetchId` with exactly the id the service returned. A failure reports `didFailToFetchTasks` with the same error. |
| `TaskListInteractor.RelayIsLossless` | ToDoApp/Modules/TaskListModule/TaskListInteractor.swift:48-68 | update and delete results are relayed unchanged: two results that give the same notification are equal |
| `TaskListInteractor.SharedFailureCallback` | ToDoApp/Modules/TaskListModule/TaskListInteractor.swift:42-65 | a fetch, update or delete failure with one error gives the same notification |
| `TaskListInteractor.FetchReportIgnoresLoadOrder` | ToDoApp/Modules/TaskListModule/TaskListInteractor.swift:28-41 | the reported creation times depend only on which tasks were loaded, not on the order they arrived in |
| `TaskListInteractor.RefetchKeepsOrder` | ToDoApp/Modules/TaskListModule/TaskListInteractor.swift:28-41 | re-fetching a reported list gives a sorted permutation of it with the same creation time at every position |
| `TaskListInteractor.FetchThreeTasks` | ToDoApp/Modules/TaskListModule/TaskListInteractor.swift:25-45 | loading A (10), B (none), C (5) reports exactly C, A, B |
| `TaskListInteractor.TaskListOutput.DidFetchTasks` | ToDoApp/Modules/TaskListModule/TaskListInteractor.swift:16 | the listener records one "tasks fetched" notification carrying the list |
| `TaskListInteractor.TaskListOutput.DidFetchTask` | ToDoApp/Modules/TaskListModule/TaskListInteractor.swift:17 | the listener records one "task fetched" notification carrying the item |
| `TaskListInteractor.TaskListOutput.DidFetchId` | ToDoApp/Modules/TaskListModule/TaskListInteractor.swift:18 | the listener records one "id fetched" notification carrying the id |
| `TaskListInteractor.TaskListOutput.DidFailToFetchTasks` | ToDoApp/Modules/TaskListModule/TaskListInteractor.swift:19 | the listener records one failure notification carrying the error |
| `TaskListInteractor.TaskListInteractor.constructor` | ToDoApp/Modules/TaskListModule/TaskListInteractor.swift:22-23 | a new interactor has no listener attached |
| `TaskListInteractor.TaskListInteractor.FetchTasks` | ToDoApp/Modules/TaskListModule/TaskListInteractor.swift:25-46 | with a listener attached, exactly one notification, `FetchNotification(result)`, is appended to its record. Without one, nothing changes. |
| `TaskListInteractor.TaskListInteractor.UpdateTaskItem` | ToDoApp/Modules/TaskListModule/TaskListInteractor.swift:48-57 | with a listener attached, exactly one notification, `UpdateNotification(result)`, is appended. Without one, nothing changes. |
| `TaskListInteractor.TaskListInteractor.DeleteTaskItem` | ToDoApp/Modules/TaskListModule/TaskListInteractor.swift:59-68 | with a listener attached, exactly one notification, `DeleteNotification(result)`, is appended. Without one, nothing changes. |

## Left out

- `TaskService.shared` and its `loadTaskItems`, `updateTaskItem` and `deleteTaskItem` calls: the service is a network/storage singleton that is not part of this model. Each interactor method takes the result the service would deliver as a parameter. The `taskItem` argument is passed on but has no effect in the model, because only the service uses it.
- Asynchronous completion and `[weak self]`: each result is treated as arriving synchronously, and the interactor is assumed to still exist when it arrives.
- The weak `output` reference is modelled as a nullable field. `null` stands both for a listener never attached and for one that has been deallocated. In either case the notification is dropped.
- `Date` is a floating-point time interval in the app. The model uses an integer timestamp, because only the order of timestamps matters to the comparator. Integers are totally ordered, while `Date`'s `<` compares floating-point values, and a NaN date would be incomparable to every date and break the strict weak ordering; the model assumes every creation time is a number.
- Stability of the library `sorted`: the code does not promise how equivalent tasks are ordered. This covers two untimestamped tasks and two tasks with equal timestamps. The model proves only what every valid sort gives, a sorted permutation whose creation-time sequence is unique. So a scenario such as "A (none), B (none) is reported as A, B" is not stated. `SortTasks` is one particular sort, an insertion sort, and its exact treatment of ties is not a claim about the app.
- `ToDoApp/Entity/Task.swift` is declared as the datatype `TaskModel.Task` only. It has no behaviour, and its JSON coding is generated by the compiler.
- The task item's type is not in the shown sources. It is modelled from its use: an id (a UUID, kept opaque), an optional `createdAt`, and an opaque payload.
- The presentation and UI layers.
