/** The value types of the task organizer: identifiers, tasks and optional results. */
module TaskModel {

  /** `java.util.Optional`: a lookup either finds a value or reports absence. */
  datatype Option<+T> = None | Some(value: T)

  /**
   * A `java.util.UUID`: 128 bits held as two 64-bit halves. Only equality of
   * identifiers matters to the store; how they are generated or parsed is not modelled.
   */
  datatype Uuid = Uuid(mostSigBits: bv64, leastSigBits: bv64)

  /** The `Task` record: identifier, free-text details and the completion flag. */
  datatype Task = Task(id: Uuid, details: string, completed: bool)

  /**
   * The one-argument `Task(details)` constructor, as the store's initializer uses it.
   * The identifier it draws at random is passed in as `id`; a new task is taken to be
   * not completed.
   */
  function NewTask(id: Uuid, details: string): (t: Task)
    ensures t.id == id && t.details == details && !t.completed
  {
    Task(id, details, false)
  }

  /** No two tasks of `s` share an identifier. */
  predicate IdsDistinct(s: seq<Task>)
  {
    forall i, j :: 0 <= i < j < |s| ==> s[i].id != s[j].id
  }
}
