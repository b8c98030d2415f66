/**
 * The in-memory task store. `InMemTaskRepository` owns one mutable list of tasks,
 * filled with four tasks when the store is created; `FindAll` hands out that very
 * list, so whatever a caller adds to or clears from it is what the store holds.
 */
module TaskStore {
  import opened TaskModel

  const FirstDetails: string := "Первая задача"
  const SecondDetails: string := "Вторая задача"
  const ThirdDetails: string := "Третья задача"
  const FourthDetails: string := "Четвёртая задача"

  /** The store's contents right after construction, in the order the initializer adds them. */
  function InitialTasks(first: Uuid, second: Uuid, third: Uuid, fourth: Uuid): (s: seq<Task>)
  {
    [NewTask(first, FirstDetails), NewTask(second, SecondDetails),
     NewTask(third, ThirdDetails), NewTask(fourth, FourthDetails)]
  }

  /**
   * The task `findById` reports for `id`: the first task of `s`, in list order,
   * whose identifier is `id`, or `None` when no task of `s` has that identifier.
   */
  function FirstWithId(s: seq<Task>, id: Uuid): (r: Option<Task>)
    ensures r.None? <==> forall i :: 0 <= i < |s| ==> s[i].id != id
    ensures r.Some? ==>
      exists k :: 0 <= k < |s| && s[k] == r.value && r.value.id == id &&
        forall j :: 0 <= j < k ==> s[j].id != id
  {
    if s == [] then None
    else if s[0].id == id then Some(s[0])
    else
      var r := FirstWithId(s[1..], id);
      assert forall i :: 1 <= i < |s| ==> s[i] == s[1..][i - 1];
      if r.Some? then
        var k :| 0 <= k < |s[1..]| && s[1..][k] == r.value && r.value.id == id &&
          forall j :: 0 <= j < k ==> s[1..][j].id != id;
        assert s[k + 1] == r.value && forall j :: 0 <= j < k + 1 ==> s[j].id != id;
        r
      else r
  }

  /** Appending a task to the list changes a lookup only when nothing before it had the identifier. */
  lemma {:induction false} LookupAfterAppend(s: seq<Task>, t: Task, id: Uuid)
    ensures FirstWithId(s + [t], id) ==
      if FirstWithId(s, id).Some? then FirstWithId(s, id)
      else if t.id == id then Some(t)
      else None
  {
    if s == [] {
      assert s + [t] == [t];
    } else {
      assert (s + [t])[1..] == s[1..] + [t];
      if s[0].id != id {
        LookupAfterAppend(s[1..], t, id);
      }
    }
  }

  /** When identifiers are distinct, looking up the identifier of a stored task yields that task. */
  lemma LookupStoredTask(s: seq<Task>, k: nat)
    requires IdsDistinct(s)
    requires k < |s|
    ensures FirstWithId(s, s[k].id) == Some(s[k])
  {
  }

  /**
   * Saving keeps identifiers distinct exactly when the saved task's identifier is not
   * found in the store yet: the store itself never checks this.
   */
  lemma AppendKeepsIdsDistinct(s: seq<Task>, t: Task)
    ensures IdsDistinct(s + [t]) <==> IdsDistinct(s) && FirstWithId(s, t.id).None?
  {
    var s' := s + [t];
    assert forall i :: 0 <= i < |s| ==> s'[i] == s[i];
    assert s'[|s|] == t;
    if IdsDistinct(s') {
      forall i | 0 <= i < |s| ensures s[i].id != t.id {
        assert s'[i].id != s'[|s|].id;
      }
    }
  }

  /** The new store holds four uncompleted tasks, with the four fixed details, in order. */
  lemma InitialTasksShape(first: Uuid, second: Uuid, third: Uuid, fourth: Uuid)
    ensures var s := InitialTasks(first, second, third, fourth);
      && |s| == 4
      && [s[0].id, s[1].id, s[2].id, s[3].id] == [first, second, third, fourth]
      && [s[0].details, s[1].details, s[2].details, s[3].details] ==
         ["Первая задача", "Вторая задача", "Третья задача", "Четвёртая задача"]
      && forall i :: 0 <= i < |s| ==> !s[i].completed
  {
  }

  /** The initial identifiers are distinct exactly when the four generated ones are. */
  lemma InitialIdsDistinct(first: Uuid, second: Uuid, third: Uuid, fourth: Uuid)
    ensures IdsDistinct(InitialTasks(first, second, third, fourth)) <==>
      first != second && first != third && first != fourth &&
      second != third && second != fourth && third != fourth
  {
    var s := InitialTasks(first, second, third, fourth);
    if IdsDistinct(s) {
      assert s[0].id != s[1].id && s[0].id != s[2].id && s[0].id != s[3].id;
      assert s[1].id != s[2].id && s[1].id != s[3].id && s[2].id != s[3].id;
    }
  }

  /** The mutable `java.util.LinkedList<Task>` object the store keeps. */
  class TaskList {
    var items: seq<Task>

    constructor ()
      ensures items == []
    {
      items := [];
    }

    /** `add`: appends at the end. */
    method Add(t: Task)
      modifies this
      ensures items == old(items) + [t]
    {
      items := items + [t];
    }

    /** `addAll`: appends every task of `ts`, keeping their order. */
    method AddAll(ts: seq<Task>)
      modifies this
      ensures items == old(items) + ts
    {
      items := items + ts;
    }

    /** `clear`: removes every task. */
    method Clear()
      modifies this
      ensures items == []
    {
      items := [];
    }
  }

  class InMemTaskRepository {
    /** The list, a `final` field: the store never replaces it, only its contents change. */
    const tasks: TaskList

    /**
     * Builds the store with its four initial tasks. The identifiers the `Task`
     * constructor would draw at random are the parameters.
     */
    constructor (first: Uuid, second: Uuid, third: Uuid, fourth: Uuid)
      ensures fresh(tasks)
      ensures tasks.items == InitialTasks(first, second, third, fourth)
    {
      var l := new TaskList();
      l.Add(NewTask(first, FirstDetails));
      l.Add(NewTask(second, SecondDetails));
      l.Add(NewTask(third, ThirdDetails));
      l.Add(NewTask(fourth, FourthDetails));
      tasks := l;
    }

    /**
     * `findAll`: returns the store's own list, never a copy and never null. It changes
     * nothing, and the returned object is the one every later call returns.
     */
    method FindAll() returns (l: TaskList)
      ensures l == tasks
    {
      l := tasks;
    }

    /** `save`: appends the task, with no validation and no deduplication by identifier. */
    method Save(t: Task)
      modifies tasks
      ensures tasks.items == old(tasks.items) + [t]
      ensures t in tasks.items
    {
      tasks.Add(t);
    }

    /** `findById`: scans the list in order and reports the first task with identifier `id`. */
    method FindById(id: Uuid) returns (r: Option<Task>)
      ensures r == FirstWithId(tasks.items, id)
      ensures r.Some? ==> r.value in tasks.items && r.value.id == id
    {
      var s := tasks.items;
      var i := 0;
      while i < |s|
        invariant 0 <= i <= |s|
        invariant forall j :: 0 <= j < i ==> s[j].id != id
      {
        if s[i].id == id {
          return Some(s[i]);
        }
        i := i + 1;
      }
      return None;
    }
  }
}
