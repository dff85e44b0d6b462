/** The entities the interactor works with. */
module TaskModel {
  import opened Results

  /** The plain to-do record decoded from the remote API. It has no behaviour
      of its own; its JSON coding is generated by the compiler. */
  datatype Task = Task(id: int, todo: string, completed: bool, userId: int)

  /** The identifier of a task item (a UUID in the app), compared only for equality. */
  datatype TaskId = TaskId(uuid: nat)

  /** A creation time. The app uses a floating-point `Date`; only its order matters here. */
  type Timestamp = int

  /** The descriptive part of a task item, passed through untouched. */
  datatype Payload = Payload(title: string, completed: bool)

  /** A task item as the task service returns it: the creation time may be absent. */
  datatype TaskItem = TaskItem(id: TaskId, createdAt: Option<Timestamp>, payload: Payload)

  /** The opaque error a failed service call reports. */
  datatype ServiceError = ServiceError(description: string)
}
