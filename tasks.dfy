/** The in-memory task store (backend/tasks.py): a list of task records and an id counter. */
module Tasks {
  import opened Wrappers
  import opened Seqs

  /** A task record. `dueAt` is the due instant in minutes. `completedAt` is the optional
      `completed_at` key that the dashboard reads with `get`; the store itself never writes it. */
  datatype Task = Task(id: int, planId: int, title: string, dueAt: int, status: string, completedAt: Option<int>)

  const Pending := "pending"

  /** Ids are at least 1, below the counter, and strictly increasing in list order, so no two
      tasks share one and no id at or above the counter has been handed out. */
  predicate IdsOrdered(tasks: seq<Task>, nextId: int) {
    && nextId >= 1
    && (forall i :: 0 <= i < |tasks| ==> 1 <= tasks[i].id < nextId)
    && (forall i, j :: 0 <= i < j < |tasks| ==> tasks[i].id < tasks[j].id)
  }

  /** The first position holding `id`, as the `for` loop of `get_task` finds it. */
  function IndexOf(tasks: seq<Task>, id: int): (r: Option<nat>)
    ensures r.Some? ==> r.value < |tasks| && tasks[r.value].id == id
    ensures r.Some? ==> forall j :: 0 <= j < r.value ==> tasks[j].id != id
    ensures r.None? <==> forall j :: 0 <= j < |tasks| ==> tasks[j].id != id
  {
    if |tasks| == 0 then None
    else if tasks[0].id == id then Some(0)
    else match IndexOf(tasks[1..], id)
      case None => None
      case Some(k) => Some(k + 1)
  }

  /** With distinct ids, the task at position `i` is the one found for its id. */
  lemma IndexOfUnique(tasks: seq<Task>, nextId: int, i: nat)
    requires IdsOrdered(tasks, nextId) && i < |tasks|
    ensures IndexOf(tasks, tasks[i].id) == Some(i)
  {
  }

  /** `[task for task in tasks if task["plan_id"] == plan_id]`. */
  function ByPlan(tasks: seq<Task>, planId: int): (r: seq<Task>)
    ensures forall t :: t in r <==> t in tasks && t.planId == planId
  {
    Filter(tasks, (t: Task) => t.planId == planId)
  }

  ghost predicate IdsIncreasing(tasks: seq<Task>) {
    Chained(tasks, (a: Task, b: Task) => a.id < b.id)
  }

  /** The tasks of one plan come in stored order, hence in increasing id order. */
  lemma ByPlanKeepsOrder(tasks: seq<Task>, nextId: int, planId: int)
    requires IdsOrdered(tasks, nextId)
    ensures IdsIncreasing(ByPlan(tasks, planId))
  {
    FilterKeepsOrder(tasks, (t: Task) => t.planId == planId, (a: Task, b: Task) => a.id < b.id);
  }

  /** Deleting position `i` keeps the ids ordered, and the deleted id is gone. */
  lemma RemoveKeepsOrder(tasks: seq<Task>, nextId: int, i: nat)
    requires IdsOrdered(tasks, nextId) && i < |tasks|
    ensures IdsOrdered(tasks[..i] + tasks[i + 1..], nextId)
    ensures forall t :: t in tasks[..i] + tasks[i + 1..] ==> t.id != tasks[i].id
  {
  }

  /** The store. Old task ids are never handed out again: `nextId` only grows. */
  class TaskManager {
    var tasks: seq<Task>
    var nextId: int

    predicate Valid()
      reads this
    {
      && IdsOrdered(tasks, nextId)
      && forall i :: 0 <= i < |tasks| ==> tasks[i].completedAt == None
    }

    constructor()
      ensures tasks == [] && nextId == 1
      ensures Valid()
    {
      tasks := [];
      nextId := 1;
    }

    /** `add_task`: appends one pending task carrying the counter as its id. */
    method AddTask(planId: int, title: string, dueAt: int) returns (id: int)
      requires Valid()
      modifies this
      ensures id == old(nextId) && nextId == old(nextId) + 1
      ensures tasks == old(tasks) + [Task(id, planId, title, dueAt, Pending, None)]
      ensures forall t :: t in old(tasks) ==> t.id < id
      ensures Valid()
    {
      id := nextId;
      tasks := tasks + [Task(id, planId, title, dueAt, Pending, None)];
      nextId := nextId + 1;
    }

    /** The linear search of `get_task`, giving the position rather than the record. */
    method FindIndex(taskId: int) returns (r: Option<nat>)
      ensures r == IndexOf(tasks, taskId)
    {
      var i := 0;
      while i < |tasks|
        invariant 0 <= i <= |tasks|
        invariant forall j :: 0 <= j < i ==> tasks[j].id != taskId
      {
        if tasks[i].id == taskId {
          IndexOfFirst(tasks, taskId, i);
          return Some(i);
        }
        i := i + 1;
      }
      return None;
    }

    /** `get_task`: the task with the id, or None when no task has it. */
    method GetTask(taskId: int) returns (r: Option<Task>)
      ensures r.Some? <==> exists i :: 0 <= i < |tasks| && tasks[i].id == taskId
      ensures r.Some? ==> r.value in tasks && r.value.id == taskId
      ensures r == (match IndexOf(tasks, taskId) case None => None case Some(i) => Some(tasks[i]))
    {
      var found := FindIndex(taskId);
      match found
      case None => r := None;
      case Some(i) => r := Some(tasks[i]);
    }

    /** `get_all_tasks`: the stored list itself. */
    method GetAllTasks() returns (r: seq<Task>)
      ensures r == tasks
    {
      r := tasks;
    }

    /** `get_tasks_by_plan`. */
    method GetTasksByPlan(planId: int) returns (r: seq<Task>)
      ensures r == ByPlan(tasks, planId)
    {
      r := ByPlan(tasks, planId);
    }

    /** `update_task`: overwrites the status of the task with the id, whatever the new status
        is, and leaves every other task and field as it was. */
    method UpdateTask(taskId: int, status: string) returns (r: Option<Task>)
      requires Valid()
      modifies this
      ensures nextId == old(nextId)
      ensures match IndexOf(old(tasks), taskId)
        case None => r == None && tasks == old(tasks)
        case Some(i) => tasks == old(tasks)[i := old(tasks)[i].(status := status)] && r == Some(tasks[i])
      ensures Valid()
    {
      var found := FindIndex(taskId);
      match found
      case None => r := None;
      case Some(i) =>
        tasks := tasks[i := tasks[i].(status := status)];
        r := Some(tasks[i]);
    }

    /** `delete_task`: removes the task with the id and reports whether there was one. */
    method DeleteTask(taskId: int) returns (deleted: bool)
      requires Valid()
      modifies this
      ensures nextId == old(nextId)
      ensures match IndexOf(old(tasks), taskId)
        case None => !deleted && tasks == old(tasks)
        case Some(i) => deleted && tasks == old(tasks)[..i] + old(tasks)[i + 1..]
      ensures forall t :: t in tasks ==> t.id != taskId
      ensures Valid()
    {
      var found := FindIndex(taskId);
      match found
      case None => deleted := false;
      case Some(i) =>
        RemoveKeepsOrder(tasks, nextId, i);
        tasks := tasks[..i] + tasks[i + 1..];
        deleted := true;
    }
  }

  /** A match with no earlier match is the one `IndexOf` reports. */
  lemma IndexOfFirst(tasks: seq<Task>, id: int, i: nat)
    requires i < |tasks| && tasks[i].id == id
    requires forall j :: 0 <= j < i ==> tasks[j].id != id
    ensures IndexOf(tasks, id) == Some(i)
  {
  }
}
