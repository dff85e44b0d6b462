/** The task-list interactor: each call hands the task service's result to
    the output listener as exactly one notification. The service call itself
    and its asynchronous completion are replaced by the result it delivers,
    given as a parameter. */
module TaskListInteractor {
  import opened Results
  import opened TaskModel
  import opened TaskOrdering

  /** One call on the output listener, named after the callback it invokes. */
  datatype Notification =
    | FetchedTasks(tasks: seq<TaskItem>)      // didFetchTasks
    | FetchedTask(task: TaskItem)             // didFetchTask
    | FetchedId(taskId: TaskId)               // didFetchId
    | FailedToFetchTasks(error: ServiceError) // didFailToFetchTasks

  /** What `fetchTasks` reports for a load result: the loaded tasks in
      comparator order, or the load error. */
  function FetchNotification(loaded: Result<seq<TaskItem>, ServiceError>): (n: Notification)
    ensures n.FetchedTasks? <==> loaded.Success?
    ensures loaded.Success? ==> IsSortedPermutation(loaded.value, n.tasks) && |n.tasks| == |loaded.value|
    ensures loaded.Success? ==> UntimestampedLast(n.tasks) && TimestampsNonDecreasing(n.tasks)
    ensures loaded.Failure? ==> n == FailedToFetchTasks(loaded.error)
  {
    match loaded
    case Success(tasks) =>
      var sortedTasks := SortTasks(tasks);
      SortedShape(sortedTasks);
      FetchedTasks(sortedTasks)
    case Failure(error) => FailedToFetchTasks(error)
  }

  /** What `updateTaskItem` reports: the item the service returned, or its error. */
  function UpdateNotification(updated: Result<TaskItem, ServiceError>): (n: Notification)
    ensures n.FetchedTask? <==> updated.Success?
    ensures updated.Success? ==> n.task == updated.value
    ensures updated.Failure? ==> n == FailedToFetchTasks(updated.error)
  {
    match updated
    case Success(task) => FetchedTask(task)
    case Failure(error) => FailedToFetchTasks(error)
  }

  /** What `deleteTaskItem` reports: the id the service returned, or its error. */
  function DeleteNotification(deleted: Result<TaskId, ServiceError>): (n: Notification)
    ensures n.FetchedId? <==> deleted.Success?
    ensures deleted.Success? ==> n.taskId == deleted.value
    ensures deleted.Failure? ==> n == FailedToFetchTasks(deleted.error)
  {
    match deleted
    case Success(id) => FetchedId(id)
    case Failure(error) => FailedToFetchTasks(error)
  }

  /** Update and delete results are relayed without loss: different results
      give different notifications. */
  lemma RelayIsLossless(u1: Result<TaskItem, ServiceError>, u2: Result<TaskItem, ServiceError>,
                        d1: Result<TaskId, ServiceError>, d2: Result<TaskId, ServiceError>)
    ensures UpdateNotification(u1) == UpdateNotification(u2) ==> u1 == u2
    ensures DeleteNotification(d1) == DeleteNotification(d2) ==> d1 == d2
  {
  }

  /** All three operations report failure through the one shared callback, so
      a failure notification does not say which operation failed. */
  lemma SharedFailureCallback(error: ServiceError)
    ensures FetchNotification(Failure(error)) == UpdateNotification(Failure(error))
    ensures UpdateNotification(Failure(error)) == DeleteNotification(Failure(error))
  {
  }

  /** The reported creation times depend only on which tasks were loaded, not
      on the order the service delivered them in. */
  lemma FetchReportIgnoresLoadOrder(s1: seq<TaskItem>, s2: seq<TaskItem>)
    requires multiset(s1) == multiset(s2)
    ensures CreationTimes(FetchNotification(Success(s1)).tasks)
         == CreationTimes(FetchNotification(Success(s2)).tasks)
  {
    SortedPermutationsAgree(s1, FetchNotification(Success(s1)).tasks, FetchNotification(Success(s2)).tasks);
  }

  /** Feeding a reported list back through `fetchTasks` reports a sorted
      permutation of it (which `SortTasks` already promises) with the same
      creation time at every position (the content of this lemma). */
  lemma RefetchKeepsOrder(s: seq<TaskItem>)
    ensures var first := FetchNotification(Success(s)).tasks;
            var again := FetchNotification(Success(first)).tasks;
            IsSortedPermutation(first, again) && CreationTimes(again) == CreationTimes(first)
  {
    var first := FetchNotification(Success(s)).tasks;
    ResortingSortedInput(first, FetchNotification(Success(first)).tasks);
  }

  /** Loading A (created at 10), B (no creation time) and C (created at 5)
      reports C, A, B. */
  lemma FetchThreeTasks(a: TaskItem, b: TaskItem, c: TaskItem)
    requires a.createdAt == Some(10) && b.createdAt == None && c.createdAt == Some(5)
    ensures FetchNotification(Success([a, b, c])) == FetchedTasks([c, a, b])
  {
    ThreeTaskScenario(a, b, c, FetchNotification(Success([a, b, c])).tasks);
  }

  /** The output listener (the presenter in the app), reduced to the record
      of the notifications it has received. */
  class TaskListOutput {
    var received: seq<Notification>

    constructor ()
      ensures received == []
    {
      received := [];
    }

    method DidFetchTasks(tasks: seq<TaskItem>)
      modifies this
      ensures received == old(received) + [FetchedTasks(tasks)]
    {
      received := received + [FetchedTasks(tasks)];
    }

    method DidFetchTask(task: TaskItem)
      modifies this
      ensures received == old(received) + [FetchedTask(task)]
    {
      received := received + [FetchedTask(task)];
    }

    method DidFetchId(taskId: TaskId)
      modifies this
      ensures received == old(received) + [FetchedId(taskId)]
    {
      received := received + [FetchedId(taskId)];
    }

    method DidFailToFetchTasks(error: ServiceError)
      modifies this
      ensures received == old(received) + [FailedToFetchTasks(error)]
    {
      received := received + [FailedToFetchTasks(error)];
    }
  }

  /** The interactor. Its only state is the non-owning reference to the
      listener; `null` stands for a listener that was never attached or has
      gone away, in which case results are dropped. */
  class TaskListInteractor {
    var output: TaskListOutput?

    constructor ()
      ensures output == null
    {
      output := null;
    }

    /** `fetchTasks` once the load result has arrived: exactly one
        notification, the sorted tasks or the error. */
    method FetchTasks(loaded: Result<seq<TaskItem>, ServiceError>)
      modifies output
      ensures output == old(output)
      ensures output != null ==> output.received == old(output.received) + [FetchNotification(loaded)]
    {
      match loaded
      case Success(tasks) =>
        var sortedTasks := SortTasks(tasks);
        if output != null {
          output.DidFetchTasks(sortedTasks);
        }
      case Failure(error) =>
        if output != null {
          output.DidFailToFetchTasks(error);
        }
    }

    /** `updateTaskItem` once the service has answered: exactly one
        notification, the returned item or the error. */
    method UpdateTaskItem(taskItem: TaskItem, updated: Result<TaskItem, ServiceError>)
      modifies output
      ensures output == old(output)
      ensures output != null ==> output.received == old(output.received) + [UpdateNotification(updated)]
    {
      match updated
      case Success(task) =>
        if output != null {
          output.DidFetchTask(task);
        }
      case Failure(error) =>
        if output != null {
          output.DidFailToFetchTasks(error);
        }
    }

    /** `deleteTaskItem` once the service has answered: exactly one
        notification, the returned id or the error. */
    method DeleteTaskItem(taskItem: TaskItem, deleted: Result<TaskId, ServiceError>)
      modifies output
      ensures output == old(output)
      ensures output != null ==> output.received == old(output.received) + [DeleteNotification(deleted)]
    {
      match deleted
      case Success(id) =>
        if output != null {
          output.DidFetchId(id);
        }
      case Failure(error) =>
        if output != null {
          output.DidFailToFetchTasks(error);
        }
    }
  }
}
