/**
 * The task list of a project page: a list of task objects kept in step with
 * the task service's `tasksUpdated` notifications, the title shown for each
 * task, the "assigned to me" marker and the selection by clicked id.
 */
module TaskList {
  import opened Wrappers
  import opened Sequences

  datatype User = User(uid: string, name: string)

  /** A task as the client holds it: an object shared by reference with the task service. */
  class Task {
    const id: string
    var name: string
    var processPoints: int
    var maxProcessPoints: int
    var assignedUser: Option<User>

    constructor (id: string, name: string, maxProcessPoints: int)
      ensures this.id == id && this.name == name && this.maxProcessPoints == maxProcessPoints
      ensures processPoints == 0 && assignedUser == None
    {
      this.id := id;
      this.name := name;
      this.maxProcessPoints := maxProcessPoints;
      processPoints := 0;
      assignedUser := None;
    }
  }

  /** One step of the `tasksUpdated` handler: `u` is written at its index when it is in the list. */
  function Replace(list: seq<Task>, u: Task): seq<Task>
  {
    var index := IndexOf(list, u);
    if index != -1 then list[index := u] else list
  }

  /** The whole `tasksUpdated` handler: every update applied in order. */
  function ApplyUpdates(list: seq<Task>, updates: seq<Task>): seq<Task>
    decreases |updates|
  {
    if updates == [] then list else ApplyUpdates(Replace(list, updates[0]), updates[1..])
  }

  /**
   * An update is found by object identity, so the entry it replaces is that
   * same object: every step leaves the list as it was, and no update adds
   * to the list.
   */
  lemma ReplaceKeeps(list: seq<Task>, u: Task)
    ensures Replace(list, u) == list
  {
    var index := IndexOf(list, u);
    if index != -1 {
      assert list[index := u] == list;
    }
  }

  lemma {:induction false} ApplyUpdatesKeeps(list: seq<Task>, updates: seq<Task>)
    ensures ApplyUpdates(list, updates) == list
    decreases |updates|
  {
    if updates != [] {
      ReplaceKeeps(list, updates[0]);
      ApplyUpdatesKeeps(list, updates[1..]);
    }
  }

  /** `tasks.find(t => t.id === id)`: the first task carrying `id`, if any. */
  function FindById(list: seq<Task>, id: string): (r: Option<Task>)
    ensures r.Some? ==> r.value in list && r.value.id == id
    ensures r.Some? ==> exists k :: 0 <= k < |list| && list[k] == r.value &&
                          forall j :: 0 <= j < k ==> list[j].id != id
    ensures r.None? <==> forall j :: 0 <= j < |list| ==> list[j].id != id
  {
    if list == [] then None
    else if list[0].id == id then Some(list[0])
    else
      var r := FindById(list[1..], id);
      assert r.Some? ==> list[1..][0] == list[1];
      if r.Some? then
        assert exists k :: 0 <= k < |list| && list[k] == r.value && forall j :: 0 <= j < k ==> list[j].id != id by {
          var k :| 0 <= k < |list[1..]| && list[1..][k] == r.value && forall j :: 0 <= j < k ==> list[1..][j].id != id;
          assert list[k + 1] == r.value;
          forall j | 0 <= j < k + 1
            ensures list[j].id != id
          {
            if j > 0 {
              assert list[j] == list[1..][j - 1];
            }
          }
        }
        r
      else
        assert forall j :: 1 <= j < |list| ==> list[j] == list[1..][j - 1];
        r
  }

  /** `taskTitle`: the name when it is non-empty, otherwise the id. */
  function TaskTitle(task: Task): (title: string)
    reads task
    ensures task.name != "" ==> title == task.name
    ensures task.name == "" ==> title == task.id
    ensures title == "" ==> task.name == "" && task.id == ""
  {
    if task.name == "" then task.id else task.name
  }

  /**
   * `isAssignedToCurrentUser`: false when nobody is assigned, otherwise
   * whether the assignee is the current user (`getUserId()` may be undefined).
   */
  predicate IsAssignedToCurrentUser(task: Task, currentUserId: Option<string>)
    reads task
  {
    task.assignedUser.Some? && currentUserId == Some(task.assignedUser.value.uid)
  }

  lemma AssignedOnlyWithUser(task: Task, currentUserId: Option<string>)
    ensures task.assignedUser.None? ==> !IsAssignedToCurrentUser(task, currentUserId)
    ensures currentUserId.None? ==> !IsAssignedToCurrentUser(task, currentUserId)
    ensures task.assignedUser.Some? && currentUserId.Some? ==>
              (IsAssignedToCurrentUser(task, currentUserId) <==> task.assignedUser.value.uid == currentUserId.value)
  {
  }

  class TaskListComponent {
    var tasks: array<Task>
    /** Every `selectTask` call made to the task service, oldest first. */
    var selectRequests: seq<Option<Task>>

    constructor (tasks: array<Task>)
      ensures this.tasks == tasks && selectRequests == []
    {
      this.tasks := tasks;
      selectRequests := [];
    }

    /** `this.tasks.indexOf(u)`. */
    method IndexIn(u: Task) returns (index: int)
      ensures index == IndexOf(tasks[..], u)
    {
      index := 0;
      while index < tasks.Length
        invariant 0 <= index <= tasks.Length
        invariant forall j :: 0 <= j < index ==> tasks[j] != u
      {
        if tasks[index] == u {
          IndexOfFirst(tasks[..], u, index);
          return;
        }
        index := index + 1;
      }
      index := -1;
    }

    /**
     * The `tasksUpdated` handler: each update found in the list is written
     * at its index; updates not in the list are ignored. The list keeps its
     * length and, since matching is by identity, its entries.
     */
    method OnTasksUpdated(updatedTasks: seq<Task>)
      modifies tasks
      ensures tasks[..] == ApplyUpdates(old(tasks[..]), updatedTasks)
      ensures tasks[..] == old(tasks[..])
    {
      var i := 0;
      while i < |updatedTasks|
        invariant 0 <= i <= |updatedTasks|
        invariant ApplyUpdates(tasks[..], updatedTasks[i..]) == ApplyUpdates(old(tasks[..]), updatedTasks)
      {
        var u := updatedTasks[i];
        var index := IndexIn(u);
        assert updatedTasks[i..][0] == u && updatedTasks[i..][1..] == updatedTasks[i + 1..];
        if index != -1 {
          tasks[index] := u;
        }
        i := i + 1;
      }
      assert updatedTasks[i..] == [];
      ApplyUpdatesKeeps(old(tasks[..]), updatedTasks);
    }

    /** `onListItemClicked(id)`: the task service is asked to select the first task with that id, or none. */
    method OnListItemClicked(id: string)
      modifies this`selectRequests
      ensures selectRequests == old(selectRequests) + [FindById(tasks[..], id)]
    {
      var i := 0;
      while i < tasks.Length
        invariant 0 <= i <= tasks.Length
        invariant forall j :: 0 <= j < i ==> tasks[j].id != id
      {
        if tasks[i].id == id {
          FindByIdFirst(tasks[..], id, i);
          selectRequests := selectRequests + [Some(tasks[i])];
          return;
        }
        i := i + 1;
      }
      selectRequests := selectRequests + [None];
    }
  }

  /** A position carrying `id` with no earlier one is what `FindById` finds. */
  lemma FindByIdFirst(list: seq<Task>, id: string, k: nat)
    requires k < |list| && list[k].id == id
    requires forall j :: 0 <= j < k ==> list[j].id != id
    ensures FindById(list, id) == Some(list[k])
  {
  }
}
