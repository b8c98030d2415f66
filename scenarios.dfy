/**
 * Clients of the store, each on a freshly built store and proved from the store's
 * contracts alone. Most replay the calls one of the repository's tests makes and
 * ensure what that test checks; `EveryListedTaskIsFound` states the lookup property
 * for every listed task.
 */
module StoreScenarios {
  import opened TaskModel
  import opened TaskStore

  /** A new store lists four tasks, with the four fixed details, in order. */
  method FindAllOnNewStore(first: Uuid, second: Uuid, third: Uuid, fourth: Uuid)
    returns (listed: seq<Task>)
    ensures |listed| == 4
    ensures [listed[0].details, listed[1].details, listed[2].details, listed[3].details] ==
      ["Первая задача", "Вторая задача", "Третья задача", "Четвёртая задача"]
    ensures forall t | t in listed :: !t.completed
  {
    var store := new InMemTaskRepository(first, second, third, fourth);
    var l := store.FindAll();
    listed := l.items;
    InitialTasksShape(first, second, third, fourth);
  }

  /** After saving a new task, listing the store shows it, after the four initial ones. */
  method SaveThenFindAll(first: Uuid, second: Uuid, third: Uuid, fourth: Uuid,
                         newId: Uuid, details: string)
    returns (listed: seq<Task>)
    ensures |listed| == 5
    ensures listed[4] == NewTask(newId, details)
  {
    var store := new InMemTaskRepository(first, second, third, fourth);
    var t := NewTask(newId, details);
    store.Save(t);
    var l := store.FindAll();
    listed := l.items;
  }

  /** Looking up the identifier of the first listed task finds a task with that identifier. */
  method FindByIdOfFirstListed(first: Uuid, second: Uuid, third: Uuid, fourth: Uuid)
    returns (r: Option<Task>)
    ensures r == Some(NewTask(first, FirstDetails))
  {
    var store := new InMemTaskRepository(first, second, third, fourth);
    var l := store.FindAll();
    var existingId := l.items[0].id;
    r := store.FindById(existingId);
  }

  /** Looking up an identifier that no stored task has gives an empty result, not a failure. */
  method FindByIdOfUnknownId(first: Uuid, second: Uuid, third: Uuid, fourth: Uuid, other: Uuid)
    returns (r: Option<Task>)
    requires other != first && other != second && other != third && other != fourth
    ensures r == None
  {
    var store := new InMemTaskRepository(first, second, third, fourth);
    r := store.FindById(other);
  }

  /** Clearing the list `FindAll` returned empties the store itself. */
  method ClearThroughFindAll(first: Uuid, second: Uuid, third: Uuid, fourth: Uuid)
    returns (listed: seq<Task>)
    ensures listed == []
  {
    var store := new InMemTaskRepository(first, second, third, fourth);
    var handle := store.FindAll();
    handle.Clear();
    var l := store.FindAll();
    listed := l.items;
  }

  /** Two tasks added to an emptied store through its list are listed in the order added. */
  method AddTwoToEmptiedStore(first: Uuid, second: Uuid, third: Uuid, fourth: Uuid, a: Task, b: Task)
    returns (listed: seq<Task>)
    ensures listed == [a, b]
  {
    var store := new InMemTaskRepository(first, second, third, fourth);
    var handle := store.FindAll();
    handle.Clear();
    var again := store.FindAll();
    again.AddAll([a, b]);
    var l := store.FindAll();
    listed := l.items;
  }

  /** A task added through the list to an emptied store is found by its identifier. */
  method AddToEmptiedStoreThenFind(first: Uuid, second: Uuid, third: Uuid, fourth: Uuid, t: Task)
    returns (r: Option<Task>)
    ensures r == Some(t)
  {
    var store := new InMemTaskRepository(first, second, third, fourth);
    var handle := store.FindAll();
    handle.Clear();
    handle.Add(t);
    r := store.FindById(t.id);
  }

  /**
   * In a store whose four generated identifiers are distinct, every listed task is
   * found by its own identifier.
   */
  method EveryListedTaskIsFound(first: Uuid, second: Uuid, third: Uuid, fourth: Uuid, k: nat)
    returns (r: Option<Task>, listed: seq<Task>)
    requires first != second && first != third && first != fourth
    requires second != third && second != fourth && third != fourth
    requires k < 4
    ensures |listed| == 4 && r == Some(listed[k])
  {
    var store := new InMemTaskRepository(first, second, third, fourth);
    var l := store.FindAll();
    listed := l.items;
    InitialIdsDistinct(first, second, third, fourth);
    LookupStoredTask(listed, k);
    r := store.FindById(listed[k].id);
  }
}
