/**
 * The server's task service: batch validation when tasks are added, the
 * "assign only if unassigned" rule, the process-point range, and the
 * permission checks in front of reads and writes. The task table is a map
 * from task id to task; permission checks, GeoJSON parsing and the ids the
 * database generates are outcomes passed in by the caller.
 */
module ServerTask {
  import opened Wrappers

  /** A task to be created: its capacity and its GeoJSON feature document. */
  datatype TaskDraftDto = TaskDraftDto(maxProcessPoints: int, geometry: string)

  /** A stored task; an empty `assignedUser` means nobody is assigned. */
  datatype Task = Task(
    id: string,
    processPoints: int,
    maxProcessPoints: int,
    geometry: string,
    assignedUser: string)

  /** The outcome of parsing a GeoJSON feature document. */
  datatype ParsedFeature =
    | Unparseable
    | Parsed(featureType: string, geometryType: Option<string>)

  /** The outcome of a permission-service check. */
  datatype Check = Granted | Denied(reason: string)

  datatype TaskError =
    | PermissionDenied(reason: string)
    | MaxProcessPointsTooSmall(maxProcessPoints: int)
    | InvalidGeoJson(geometry: string)
    | NotAPolygonFeature(geometry: string)
    | NotFound(taskId: string)
    | AlreadyAssigned(taskId: string)
    | ProcessPointsOutOfRange

  /** A feature whose geometry is present and a polygon. */
  predicate IsPolygonFeature(f: ParsedFeature) {
    f.Parsed? && f.featureType == "Feature" && f.geometryType == Some("Polygon")
  }

  /** What is wrong with one task to be created, checked in the order of `AddTasks`. */
  function DraftError(t: TaskDraftDto, parse: string -> ParsedFeature): (e: Option<TaskError>)
    ensures e.None? <==> t.maxProcessPoints >= 1 && IsPolygonFeature(parse(t.geometry))
  {
    if t.maxProcessPoints < 1 then Some(MaxProcessPointsTooSmall(t.maxProcessPoints))
    else if parse(t.geometry).Unparseable? then Some(InvalidGeoJson(t.geometry))
    else if !IsPolygonFeature(parse(t.geometry)) then Some(NotAPolygonFeature(t.geometry))
    else None
  }

  /** The error of the first invalid task, if any. */
  function FirstDraftError(ts: seq<TaskDraftDto>, parse: string -> ParsedFeature): Option<TaskError>
    decreases |ts|
  {
    if ts == [] then None
    else if DraftError(ts[0], parse).Some? then DraftError(ts[0], parse)
    else FirstDraftError(ts[1..], parse)
  }

  /** A batch is accepted exactly when every task in it is valid. */
  lemma {:induction false} FirstDraftErrorNone(ts: seq<TaskDraftDto>, parse: string -> ParsedFeature)
    ensures FirstDraftError(ts, parse).None? <==> forall i :: 0 <= i < |ts| ==> DraftError(ts[i], parse).None?
    decreases |ts|
  {
    if ts != [] {
      FirstDraftErrorNone(ts[1..], parse);
      assert forall i :: 1 <= i < |ts| ==> ts[i] == ts[1..][i - 1];
    }
  }

  /** The batch's error is the error of its first invalid task. */
  lemma {:induction false} FirstDraftErrorAt(ts: seq<TaskDraftDto>, parse: string -> ParsedFeature, k: nat)
    requires k < |ts| && DraftError(ts[k], parse).Some?
    requires forall j :: 0 <= j < k ==> DraftError(ts[j], parse).None?
    ensures FirstDraftError(ts, parse) == DraftError(ts[k], parse)
    decreases k
  {
    if k > 0 {
      assert ts[1..][k - 1] == ts[k];
      assert forall j :: 0 <= j < k - 1 ==> ts[1..][j] == ts[j + 1];
      FirstDraftErrorAt(ts[1..], parse, k - 1);
    }
  }

  /** The validation loop of `AddTasks`: the first invalid task stops it. */
  method ValidateDrafts(newTasks: seq<TaskDraftDto>, parse: string -> ParsedFeature) returns (e: Option<TaskError>)
    ensures e == FirstDraftError(newTasks, parse)
  {
    var i := 0;
    while i < |newTasks|
      invariant 0 <= i <= |newTasks|
      invariant forall j :: 0 <= j < i ==> DraftError(newTasks[j], parse).None?
    {
      var t := newTasks[i];
      if t.maxProcessPoints < 1 {
        FirstDraftErrorAt(newTasks, parse, i);
        return Some(MaxProcessPointsTooSmall(t.maxProcessPoints));
      }
      var feature := parse(t.geometry);
      if feature.Unparseable? {
        FirstDraftErrorAt(newTasks, parse, i);
        return Some(InvalidGeoJson(t.geometry));
      }
      if feature.featureType != "Feature" || feature.geometryType != Some("Polygon") {
        FirstDraftErrorAt(newTasks, parse, i);
        return Some(NotAPolygonFeature(t.geometry));
      }
      i := i + 1;
    }
    FirstDraftErrorNone(newTasks, parse);
    return None;
  }

  /** `toTaskIds`: the ids of the tasks, position by position. */
  method ToTaskIds(tasks: seq<Task>) returns (ids: seq<string>)
    ensures |ids| == |tasks|
    ensures forall i :: 0 <= i < |tasks| ==> ids[i] == tasks[i].id
  {
    var a := new string[|tasks|];
    var i := 0;
    while i < |tasks|
      invariant 0 <= i <= |tasks|
      invariant forall j :: 0 <= j < i ==> a[j] == tasks[j].id
    {
      a[i] := tasks[i].id;
      i := i + 1;
    }
    ids := a[..];
  }

  /** Go's `unicode.IsSpace`. */
  predicate IsSpace(c: char) {
    c == ' ' || c == '\t' || c == '\n' || c == '\U{000B}' || c == '\U{000C}' || c == '\r' ||
    c == '\U{0085}' || c == '\U{00A0}' || c == '\U{1680}' ||
    ('\U{2000}' <= c <= '\U{200A}') || c == '\U{2028}' || c == '\U{2029}' ||
    c == '\U{202F}' || c == '\U{205F}' || c == '\U{3000}'
  }

  /** The end of the run of white space that starts at `i`. */
  function SpaceEnd(s: string, i: nat): (n: nat)
    requires i <= |s|
    ensures i <= n <= |s|
    ensures forall k :: i <= k < n ==> IsSpace(s[k])
    ensures n < |s| ==> !IsSpace(s[n])
    decreases |s| - i
  {
    if i == |s| || !IsSpace(s[i]) then i else SpaceEnd(s, i + 1)
  }

  /** The start of the run of white space that ends at `j`, not before `lo`. */
  function SpaceStart(s: string, lo: nat, j: nat): (m: nat)
    requires lo <= j <= |s|
    ensures lo <= m <= j
    ensures forall k :: m <= k < j ==> IsSpace(s[k])
    ensures m > lo ==> !IsSpace(s[m - 1])
    decreases j
  {
    if j == lo || !IsSpace(s[j - 1]) then j else SpaceStart(s, lo, j - 1)
  }

  /** `strings.TrimSpace`: leading and trailing white space removed. */
  function TrimSpace(s: string): (r: string)
    ensures exists i, j :: 0 <= i <= j <= |s| && r == s[i..j] &&
              (forall k :: 0 <= k < i ==> IsSpace(s[k])) && (forall k :: j <= k < |s| ==> IsSpace(s[k]))
    ensures r != [] ==> !IsSpace(r[0]) && !IsSpace(r[|r| - 1])
  {
    var i := SpaceEnd(s, 0);
    var j := SpaceStart(s, i, |s|);
    s[i..j]
  }

  /** A trimmed string is empty exactly when the string is white space only. */
  lemma TrimSpaceEmpty(s: string)
    ensures TrimSpace(s) == "" <==> forall k :: 0 <= k < |s| ==> IsSpace(s[k])
  {
    var r := TrimSpace(s);
    var i, j :| 0 <= i <= j <= |s| && r == s[i..j] &&
                (forall k :: 0 <= k < i ==> IsSpace(s[k])) && (forall k :: j <= k < |s| ==> IsSpace(s[k]));
    if r == "" {
      assert i == j;
      forall k | 0 <= k < |s| ensures IsSpace(s[k]) {
        if k >= i { assert k >= j; }
      }
    } else {
      assert r[0] == s[i];
    }
  }

  /** A task is free for assignment when its assignee is empty after trimming. */
  predicate Unassigned(t: Task) {
    TrimSpace(t.assignedUser) == ""
  }

  /** Every task is stored under its own id and every stored task has a project. */
  ghost predicate Indexed(tasks: map<string, Task>, projectOf: map<string, string>) {
    tasks.Keys == projectOf.Keys && forall id :: id in tasks ==> tasks[id].id == id
  }

  /** Storing a task under its own id, with a project, keeps the tables indexed. */
  lemma IndexedStep(tasks: map<string, Task>, projectOf: map<string, string>, t: Task, projectId: string)
    requires Indexed(tasks, projectOf)
    ensures Indexed(tasks[t.id := t], projectOf[t.id := projectId])
  {
  }

  /**
   * The task and project tables `tasks` and `projectOf` hold the first `n`
   * tasks stored under their new ids, with no progress and no assignee, in
   * the project; every entry of the old tables is kept and nothing else is
   * in the task table.
   */
  ghost predicate StoredIn(tasks: map<string, Task>, projectOf: map<string, string>,
                           newTasks: seq<TaskDraftDto>, projectId: string, newIds: seq<string>, added: seq<Task>,
                           n: nat, oldTasks: map<string, Task>, oldProjectOf: map<string, string>)
    requires n == |added| && n <= |newIds| == |newTasks|
  {
    (forall i :: 0 <= i < n ==>
       added[i] == Task(newIds[i], 0, newTasks[i].maxProcessPoints, newTasks[i].geometry, "") &&
       newIds[i] in tasks && tasks[newIds[i]] == added[i] &&
       newIds[i] in projectOf && projectOf[newIds[i]] == projectId) &&
    (forall id :: id in oldTasks ==> id in tasks && tasks[id] == oldTasks[id]) &&
    (forall id :: id in oldProjectOf ==> id in projectOf && projectOf[id] == oldProjectOf[id]) &&
    (forall id :: id in tasks ==> id in oldTasks || id in newIds[..n])
  }

  /** Storing the next task under an id not yet in the tables extends what is stored. */
  lemma StoredStep(tasks: map<string, Task>, projectOf: map<string, string>,
                   newTasks: seq<TaskDraftDto>, projectId: string, newIds: seq<string>, added: seq<Task>,
                   n: nat, oldTasks: map<string, Task>, oldProjectOf: map<string, string>)
    requires n == |added| && n < |newIds| == |newTasks|
    requires StoredIn(tasks, projectOf, newTasks, projectId, newIds, added, n, oldTasks, oldProjectOf)
    requires newIds[n] !in tasks && newIds[n] !in projectOf
    ensures var t := Task(newIds[n], 0, newTasks[n].maxProcessPoints, newTasks[n].geometry, "");
            StoredIn(tasks[newIds[n] := t], projectOf[newIds[n] := projectId], newTasks, projectId, newIds,
                     added + [t], n + 1, oldTasks, oldProjectOf)
  {
    var id := newIds[n];
    var t := Task(id, 0, newTasks[n].maxProcessPoints, newTasks[n].geometry, "");
    var tasks', projectOf', added' := tasks[id := t], projectOf[id := projectId], added + [t];
    forall i | 0 <= i < n + 1
      ensures added'[i] == Task(newIds[i], 0, newTasks[i].maxProcessPoints, newTasks[i].geometry, "")
      ensures newIds[i] in tasks' && tasks'[newIds[i]] == added'[i]
      ensures newIds[i] in projectOf' && projectOf'[newIds[i]] == projectId
    {
      if i < n {
        assert newIds[i] in tasks;
      }
    }
    forall k | k in oldTasks
      ensures k in tasks' && tasks'[k] == oldTasks[k]
    {
      assert k in tasks;
    }
    forall k | k in oldProjectOf
      ensures k in projectOf' && projectOf'[k] == oldProjectOf[k]
    {
      assert k in projectOf;
    }
    assert newIds[..n + 1] == newIds[..n] + [id];
    forall k | k in tasks'
      ensures k in oldTasks || k in newIds[..n + 1]
    {
      if k != id {
        assert k in tasks;
      }
    }
  }

  class TaskService {
    /** The task table: task id to task. */
    var tasks: map<string, Task>
    /** The project each stored task belongs to. */
    var projectOf: map<string, string>

    /** Every task is stored under its own id and belongs to a project. */
    ghost predicate Valid()
      reads this
    {
      Indexed(tasks, projectOf)
    }

    constructor ()
      ensures Valid() && tasks == map[] && projectOf == map[]
    {
      tasks := map[];
      projectOf := map[];
    }

    /** The ids of the tasks of a project. */
    function TaskIdsOf(projectId: string): set<string>
      reads this
      requires Valid()
    {
      set id | id in projectOf && projectOf[id] == projectId
    }

    /**
     * `GetTasks`: the membership check comes first; then every task of the
     * project, each once.
     */
    method GetTasks(projectId: string, requestingUserId: string, membership: Check)
      returns (r: Result<seq<Task>, TaskError>)
      requires Valid()
      ensures membership.Denied? ==> r == Err(PermissionDenied(membership.reason))
      ensures membership.Granted? ==> r.Ok?
      ensures r.Ok? ==> forall i :: 0 <= i < |r.value| ==>
                r.value[i].id in TaskIdsOf(projectId) && tasks[r.value[i].id] == r.value[i]
      ensures r.Ok? ==> forall id :: id in TaskIdsOf(projectId) ==> tasks[id] in r.value
      ensures r.Ok? ==> forall i, j :: 0 <= i < j < |r.value| ==> r.value[i].id != r.value[j].id
    {
      if membership.Denied? {
        return Err(PermissionDenied(membership.reason));
      }
      var ids := TaskIdsOf(projectId);
      var remaining := ids;
      var result: seq<Task> := [];
      while remaining != {}
        invariant remaining <= ids
        invariant forall i :: 0 <= i < |result| ==>
                    result[i].id in ids - remaining && tasks[result[i].id] == result[i]
        invariant forall id :: id in ids - remaining ==> tasks[id] in result
        invariant forall i, j :: 0 <= i < j < |result| ==> result[i].id != result[j].id
        decreases |remaining|
      {
        var id :| id in remaining;
        result := result + [tasks[id]];
        remaining := remaining - {id};
      }
      return Ok(result);
    }

    /**
     * `AddTasks`: the whole batch is rejected, and nothing stored, when any
     * task has fewer than 1 maximum process point or a geometry that is not
     * a polygon feature. Otherwise every task is stored under a new id with
     * no progress, no assignee and its geometry document as given.
     */
    method AddTasks(newTasks: seq<TaskDraftDto>, projectId: string, parse: string -> ParsedFeature,
                    newIds: seq<string>) returns (r: Result<seq<Task>, TaskError>)
      requires Valid()
      requires |newIds| == |newTasks|
      requires forall i :: 0 <= i < |newIds| ==> newIds[i] !in tasks
      requires forall i, j :: 0 <= i < j < |newIds| ==> newIds[i] != newIds[j]
      modifies this
      ensures Valid()
      ensures r.Ok? <==> forall i :: 0 <= i < |newTasks| ==> DraftError(newTasks[i], parse).None?
      ensures r.Err? ==> Some(r.error) == FirstDraftError(newTasks, parse) &&
                         tasks == old(tasks) && projectOf == old(projectOf)
      ensures r.Ok? ==> |r.value| == |newTasks| && Stored(newTasks, projectId, newIds, r.value, old(tasks), old(projectOf))
    {
      FirstDraftErrorNone(newTasks, parse);
      var e := ValidateDrafts(newTasks, parse);
      if e.Some? {
        return Err(e.value);
      }
      var added := StoreTasks(newTasks, projectId, newIds);
      return Ok(added);
    }

    /**
     * The tasks were stored under the new ids with no progress and no
     * assignee, in the project, and nothing else in the table changed.
     */
    ghost predicate Stored(newTasks: seq<TaskDraftDto>, projectId: string, newIds: seq<string>, added: seq<Task>,
                           oldTasks: map<string, Task>, oldProjectOf: map<string, string>)
      reads this
      requires |newIds| == |newTasks| == |added|
    {
      StoredIn(tasks, projectOf, newTasks, projectId, newIds, added, |added|, oldTasks, oldProjectOf)
    }

    /** The store's `addTasks`: one row per task, under the id the database generates. */
    method StoreTasks(newTasks: seq<TaskDraftDto>, projectId: string, newIds: seq<string>) returns (added: seq<Task>)
      requires Valid()
      requires |newIds| == |newTasks|
      requires forall i :: 0 <= i < |newIds| ==> newIds[i] !in tasks
      requires forall i, j :: 0 <= i < j < |newIds| ==> newIds[i] != newIds[j]
      modifies this
      ensures Valid()
      ensures |added| == |newTasks| && Stored(newTasks, projectId, newIds, added, old(tasks), old(projectOf))
    {
      added := [];
      var i := 0;
      while i < |newTasks|
        invariant 0 <= i <= |newTasks| && |added| == i
        invariant Valid()
        invariant StoredIn(tasks, projectOf, newTasks, projectId, newIds, added, i, old(tasks), old(projectOf))
        invariant forall k :: i <= k < |newIds| ==> newIds[k] !in tasks
      {
        var t := Task(newIds[i], 0, newTasks[i].maxProcessPoints, newTasks[i].geometry, "");
        StoredStep(tasks, projectOf, newTasks, projectId, newIds, added, i, old(tasks), old(projectOf));
        IndexedStep(tasks, projectOf, t, projectId);
        forall k | i + 1 <= k < |newIds|
          ensures newIds[k] !in tasks[newIds[i] := t]
        {
          assert newIds[i] != newIds[k];
        }
        tasks := tasks[newIds[i] := t];
        projectOf := projectOf[newIds[i] := projectId];
        added := added + [t];
        i := i + 1;
      }
    }

    /**
     * `AssignUser`: fails for an unknown task and for a task whose assignee
     * is not blank after trimming; otherwise only that task's assignee
     * changes, to `userId`.
     */
    method AssignUser(taskId: string, userId: string) returns (r: Result<Task, TaskError>)
      requires Valid()
      modifies this`tasks
      ensures Valid() && projectOf == old(projectOf)
      ensures taskId !in old(tasks) ==> r == Err(NotFound(taskId)) && tasks == old(tasks)
      ensures taskId in old(tasks) && !Unassigned(old(tasks)[taskId]) ==>
                r == Err(AlreadyAssigned(taskId)) && tasks == old(tasks)
      ensures taskId in old(tasks) && Unassigned(old(tasks)[taskId]) ==>
                r == Ok(old(tasks)[taskId].(assignedUser := userId)) &&
                tasks == old(tasks)[taskId := r.value]
    {
      if taskId !in tasks {
        return Err(NotFound(taskId));
      }
      var task := tasks[taskId];
      if TrimSpace(task.assignedUser) != "" {
        return Err(AlreadyAssigned(task.id));
      }
      task := task.(assignedUser := userId);
      tasks := tasks[taskId := task];
      return Ok(task);
    }

    /**
     * `UnassignUser`: the assignment check comes first; then the task's
     * assignee is cleared.
     */
    method UnassignUser(taskId: string, requestingUserId: string, assignment: Check)
      returns (r: Result<Task, TaskError>)
      requires Valid()
      modifies this`tasks
      ensures Valid() && projectOf == old(projectOf)
      ensures assignment.Denied? ==> r == Err(PermissionDenied(assignment.reason)) && tasks == old(tasks)
      ensures assignment.Granted? && taskId !in old(tasks) ==> r == Err(NotFound(taskId)) && tasks == old(tasks)
      ensures assignment.Granted? && taskId in old(tasks) ==>
                r == Ok(old(tasks)[taskId].(assignedUser := "")) && tasks == old(tasks)[taskId := r.value]
    {
      if assignment.Denied? {
        return Err(PermissionDenied(assignment.reason));
      }
      if taskId !in tasks {
        return Err(NotFound(taskId));
      }
      var task := tasks[taskId].(assignedUser := "");
      tasks := tasks[taskId := task];
      return Ok(task);
    }

    /**
     * `SetProcessPoints`: when the project needs assignment the caller must
     * be the assignee, otherwise a member; then the task must exist and the
     * new value lie in `[0, maxProcessPoints]`. Only then does the task's
     * progress change.
     */
    method SetProcessPoints(taskId: string, newPoints: int, requestingUserId: string,
                            assignmentNeeded: Result<bool, string>, assignment: Check, membership: Check)
      returns (r: Result<Task, TaskError>)
      requires Valid()
      modifies this`tasks
      ensures Valid() && projectOf == old(projectOf)
      ensures var permitted := assignmentNeeded.Ok? &&
                               (if assignmentNeeded.value then assignment.Granted? else membership.Granted?);
              r.Ok? <==> permitted && taskId in old(tasks) && 0 <= newPoints <= old(tasks)[taskId].maxProcessPoints
      ensures r.Ok? ==> r.value == old(tasks)[taskId].(processPoints := newPoints) &&
                        tasks == old(tasks)[taskId := r.value]
      ensures r.Err? ==> tasks == old(tasks)
      ensures assignmentNeeded.Err? ==> r == Err(PermissionDenied(assignmentNeeded.error))
    {
      if assignmentNeeded.Err? {
        return Err(PermissionDenied(assignmentNeeded.error));
      }
      if assignmentNeeded.value {
        if assignment.Denied? {
          return Err(PermissionDenied(assignment.reason));
        }
      } else {
        if membership.Denied? {
          return Err(PermissionDenied(membership.reason));
        }
      }
      if taskId !in tasks {
        return Err(NotFound(taskId));
      }
      var task := tasks[taskId];
      if newPoints < 0 || task.maxProcessPoints < newPoints {
        return Err(ProcessPointsOutOfRange);
      }
      task := task.(processPoints := newPoints);
      tasks := tasks[taskId := task];
      return Ok(task);
    }

    /**
     * `Delete`: after the membership check the given tasks are removed.
     * Projects are not touched, so they may keep ids of removed tasks.
     */
    method Delete(taskIds: seq<string>, requestingUserId: string, membership: Check)
      returns (err: Option<TaskError>)
      requires Valid()
      modifies this
      ensures Valid()
      ensures membership.Denied? ==>
                err == Some(PermissionDenied(membership.reason)) && tasks == old(tasks) && projectOf == old(projectOf)
      ensures membership.Granted? ==>
                err.None? && tasks == old(tasks) - set id | id in taskIds &&
                projectOf == old(projectOf) - set id | id in taskIds
    {
      if membership.Denied? {
        return Some(PermissionDenied(membership.reason));
      }
      var removed := set id | id in taskIds;
      tasks := tasks - removed;
      projectOf := projectOf - removed;
      return None;
    }
  }
}
