/**
 * The page of one project (src/pages/ProjectPage.tsx): loading it, the optimistic task and project
 * edits with their failure paths, and the overview counts.
 *
 * Each remote call is a parameter: `remoteOk` says whether it resolved, and `refreshed` is what a
 * re-fetch after a failure returned (it is only consulted when the route names a project).
 */
module ProjectPage {
  import opened JsValues
  import opened Types
  import opened Lists
  import ProjectCard
  import DragAndDropHook

  /** `project.tasks.map(task => task.id === taskId ? { ...task, ...patch } : task)` */
  function PatchTasks(tasks: seq<Task>, taskId: string, patch: TaskPatch): (r: seq<Task>)
    ensures |r| == |tasks|
    ensures forall i :: 0 <= i < |r| ==>
      r[i] == (if tasks[i].id == taskId then patch.ApplyTo(tasks[i]) else tasks[i])
  {
    seq(|tasks|, i requires 0 <= i < |tasks| =>
      if tasks[i].id == taskId then patch.ApplyTo(tasks[i]) else tasks[i])
  }

  /** Applying the same update twice is applying it once. */
  lemma PatchTasksIdempotent(tasks: seq<Task>, taskId: string, patch: TaskPatch)
    ensures PatchTasks(PatchTasks(tasks, taskId, patch), taskId, patch) == PatchTasks(tasks, taskId, patch)
  {
    var once := PatchTasks(tasks, taskId, patch);
    var twice := PatchTasks(once, taskId, patch);
    forall i | 0 <= i < |tasks| ensures twice[i] == once[i] {
      ApplyIdempotent(patch, tasks[i]);
    }
  }

  /** Patching an id no task has leaves the list as it was. */
  lemma PatchTasksAbsent(tasks: seq<Task>, taskId: string, patch: TaskPatch)
    requires forall i :: 0 <= i < |tasks| ==> tasks[i].id != taskId
    ensures PatchTasks(tasks, taskId, patch) == tasks
  {
  }

  /** The test `task.id !== taskId`. */
  function OtherId(taskId: string): Task -> bool {
    (t: Task) => t.id != taskId
  }

  /** `project.tasks.filter(task => task.id !== taskId)` */
  function RemoveTask(tasks: seq<Task>, taskId: string): seq<Task> {
    Filter(tasks, OtherId(taskId))
  }

  /** Deleting removes exactly the tasks with the id and keeps the rest in order. */
  lemma RemoveTaskExact(tasks: seq<Task>, taskId: string)
    ensures forall t :: t in RemoveTask(tasks, taskId) <==> t in tasks && t.id != taskId
    ensures IsSubsequence(RemoveTask(tasks, taskId), tasks)
    ensures (forall i :: 0 <= i < |tasks| ==> tasks[i].id != taskId) ==> RemoveTask(tasks, taskId) == tasks
  {
    FilterIsSubsequence(tasks, OtherId(taskId));
    if forall i :: 0 <= i < |tasks| ==> tasks[i].id != taskId {
      FilterAll(tasks, OtherId(taskId));
    }
  }

  /** With unique ids, deleting a present task shortens the list by one. */
  lemma {:induction false} RemovePresentTask(tasks: seq<Task>, k: nat)
    requires UniqueIds(tasks) && k < |tasks|
    ensures |RemoveTask(tasks, tasks[k].id)| == |tasks| - 1
  {
    var id := tasks[k].id;
    if k == 0 {
      assert forall t :: t in tasks[1..] ==> t.id != id by {
        forall t | t in tasks[1..] ensures t.id != id {
          var j :| 0 <= j < |tasks[1..]| && tasks[1..][j] == t;
          assert tasks[j + 1] == t;
        }
      }
      FilterAll(tasks[1..], OtherId(id));
    } else {
      assert UniqueIds(tasks[1..]) by {
        forall i, j | 0 <= i < j < |tasks[1..]| ensures tasks[1..][i].id != tasks[1..][j].id {
          assert tasks[1..][i] == tasks[i + 1] && tasks[1..][j] == tasks[j + 1];
        }
      }
      assert tasks[1..][k - 1] == tasks[k];
      RemovePresentTask(tasks[1..], k - 1);
    }
  }

  /**
   * What the drag handler leaves behind when the status update is rejected: the handler's own
   * copy `p` of the project from before the move, with every task of the id given the status the
   * first such task had, when that status is non-empty; otherwise the optimistic state stays.
   */
  function RevertedDrag(p: Project, moved: Project, taskId: string): Project {
    var original := Find(p.tasks, (t: Task) => t.id == taskId);
    if original.Some? && original.value.status != "" then
      p.(tasks := DragAndDropHook.SetStatus(p.tasks, taskId, original.value.status))
    else moved
  }

  /** With unique ids and non-empty statuses, a rejected drag restores the pre-move project exactly. */
  lemma RevertRestores(p: Project, taskId: string, newStatus: string)
    requires UniqueIds(p.tasks)
    requires forall i :: 0 <= i < |p.tasks| ==> p.tasks[i].status != ""
    ensures RevertedDrag(p, p.(tasks := DragAndDropHook.SetStatus(p.tasks, taskId, newStatus)), taskId) == p
  {
    var test := (t: Task) => t.id == taskId;
    var original := Find(p.tasks, test);
    if original.Some? {
      var k :| 0 <= k < |p.tasks| && p.tasks[k] == original.value;
      DragAndDropHook.SetStatusToCurrent(p.tasks, taskId, original.value.status);
    } else {
      forall i | 0 <= i < |p.tasks| ensures p.tasks[i].id != taskId {
        assert p.tasks[i] in p.tasks;
      }
      DragAndDropHook.SetStatusAbsent(p.tasks, taskId, newStatus);
    }
  }

  /** The overview's "completed" figure. */
  function CompletedCount(project: Project): nat {
    ProjectCard.StatusCount(project.tasks, COMPLETED)
  }

  /** The test `t.priority === priority`. */
  function HasPriority(priority: string): Task -> bool {
    (t: Task) => t.priority == priority
  }

  /** The overview's count for one priority. */
  function PriorityCount(project: Project, priority: Priority): nat {
    Count(project.tasks, HasPriority(priority.Value()))
  }

  /** With enumeration priorities the three priority counts add up to the number of tasks. */
  lemma PriorityCountsSum(project: Project)
    requires AllWellTyped(project.tasks)
    ensures PriorityCount(project, HIGH) + PriorityCount(project, MEDIUM) + PriorityCount(project, LOW)
         == |project.tasks|
  {
    forall t | t in project.tasks ensures PriorityOf(t.priority).Some? {
      var i :| 0 <= i < |project.tasks| && project.tasks[i] == t;
    }
    CountPartition(project.tasks, HasPriority("HIGH"), HasPriority("MEDIUM"), HasPriority("LOW"));
  }

  /** The overview's progress bar, the same figure as the project's card shows. */
  function Progress(project: Project): (r: int)
    ensures r == ProjectCard.CardProgress(project)
    ensures project.tasks == [] ==> r == 0
    ensures 0 <= r <= 100
  {
    ProjectCard.CardProgressBounds(project);
    ProjectCard.ProgressPercentage(CompletedCount(project), |project.tasks|)
  }

  /** The edited project as the page shows it at once: an empty title keeps the old one. */
  function EditedProject(p: Project, edit: ProjectEdit, now: Timestamp): (r: Project)
    ensures r.title == (if Truthy(edit.title) then edit.title.value else p.title)
    ensures r.description == edit.description && r.coverImage == edit.coverImage
    ensures r.updatedAt == now
    ensures r.(title := p.title, description := p.description, coverImage := p.coverImage,
               updatedAt := p.updatedAt) == p
  {
    p.(title := if Truthy(edit.title) then edit.title.value else p.title,
       description := edit.description,
       coverImage := edit.coverImage,
       updatedAt := now)
  }

  /** The page's state: the route's project id, the loaded project and the loading flag. */
  class ProjectPage {
    const routeId: Option<string>
    var project: Option<Project>
    var isLoading: bool

    constructor (routeId: Option<string>)
      ensures this.routeId == routeId && project == None && isLoading
    {
      this.routeId := routeId;
      project := None;
      isLoading := true;
    }

    /**
     * The load effect. Without a route id nothing happens, so the page keeps loading. Otherwise
     * the outcome of the fetch decides: a project is shown, a missing one or a failure navigates
     * home; either way loading ends.
     */
    method LoadProject(outcome: Result<Option<Project>>) returns (navigateTo: Option<string>)
      modifies this
      ensures !Truthy(routeId) ==> project == old(project) && isLoading == old(isLoading) && navigateTo == None
      ensures Truthy(routeId) ==> !isLoading
      ensures Truthy(routeId) && outcome.Ok? && outcome.value.Some? ==>
        project == outcome.value && navigateTo == None
      ensures Truthy(routeId) && !(outcome.Ok? && outcome.value.Some?) ==>
        project == old(project) && navigateTo == Some("/")
    {
      if !Truthy(routeId) {
        return None;
      }
      isLoading := true;
      match outcome {
        case Err(_) =>
          navigateTo := Some("/");
        case Ok(None) =>
          navigateTo := Some("/");
        case Ok(Some(p)) =>
          project := Some(p);
          navigateTo := None;
      }
      isLoading := false;
    }

    /** After a failed remote call: show the re-fetched project when the route has an id and one came back. */
    method Refresh(refreshed: Option<Project>)
      modifies this
      ensures Truthy(routeId) && refreshed.Some? ==> project == refreshed
      ensures !(Truthy(routeId) && refreshed.Some?) ==> project == old(project)
      ensures isLoading == old(isLoading)
    {
      if Truthy(routeId) && refreshed.Some? {
        project := refreshed;
      }
    }

    /** `handleCreateTask`: the created task is appended; a failed create changes nothing. */
    method HandleCreateTask(created: Result<Task>)
      modifies this
      ensures old(project).Some? && created.Ok? ==>
        project == Some(old(project).value.(tasks := old(project).value.tasks + [created.value]))
      ensures old(project).None? || created.Err? ==> project == old(project)
      ensures isLoading == old(isLoading)
    {
      if project.None? {
        return;
      }
      if created.Ok? {
        var p := project.value;
        project := Some(p.(tasks := p.tasks + [created.value]));
      }
    }

    /**
     * `handleTaskUpdate`: the patch is merged into the matching tasks at once; when the remote
     * update fails, the re-fetched project replaces it if there is one.
     */
    method HandleTaskUpdate(taskId: string, patch: TaskPatch, remoteOk: bool, refreshed: Option<Project>)
      modifies this
      ensures old(project).None? ==> project == old(project)
      ensures old(project).Some? && (remoteOk || !Truthy(routeId) || refreshed.None?) ==>
        project == Some(old(project).value.(tasks := PatchTasks(old(project).value.tasks, taskId, patch)))
      ensures old(project).Some? && !remoteOk && Truthy(routeId) && refreshed.Some? ==> project == refreshed
      ensures isLoading == old(isLoading)
    {
      if project.None? {
        return;
      }
      var p := project.value;
      project := Some(p.(tasks := PatchTasks(p.tasks, taskId, patch)));
      if !remoteOk {
        Refresh(refreshed);
      }
    }

    /** `handleTaskDelete`: the tasks with the id go at once; a failure re-fetches as above. */
    method HandleTaskDelete(taskId: string, remoteOk: bool, refreshed: Option<Project>)
      modifies this
      ensures old(project).None? ==> project == old(project)
      ensures old(project).Some? && (remoteOk || !Truthy(routeId) || refreshed.None?) ==>
        project == Some(old(project).value.(tasks := RemoveTask(old(project).value.tasks, taskId)))
      ensures old(project).Some? && !remoteOk && Truthy(routeId) && refreshed.Some? ==> project == refreshed
      ensures isLoading == old(isLoading)
    {
      if project.None? {
        return;
      }
      var p := project.value;
      project := Some(p.(tasks := RemoveTask(p.tasks, taskId)));
      if !remoteOk {
        Refresh(refreshed);
      }
    }

    /**
     * `handleProjectUpdate`: the edit shows at once, stamped with `now`; a failure re-fetches.
     * The `projectId` argument only addresses the remote update.
     */
    method HandleProjectUpdate(projectId: string, edit: ProjectEdit, now: Timestamp, remoteOk: bool,
                               refreshed: Option<Project>)
      modifies this
      ensures old(project).None? ==> project == old(project)
      ensures old(project).Some? && (remoteOk || !Truthy(routeId) || refreshed.None?) ==>
        project == Some(EditedProject(old(project).value, edit, now))
      ensures old(project).Some? && !remoteOk && Truthy(routeId) && refreshed.Some? ==> project == refreshed
      ensures isLoading == old(isLoading)
    {
      if project.None? {
        return;
      }
      project := Some(EditedProject(project.value, edit, now));
      if !remoteOk {
        Refresh(refreshed);
      }
    }

    /** `handleProjectDelete`: home after a successful delete; the page state is not touched. */
    method HandleProjectDelete(projectId: string, remoteOk: bool) returns (navigateTo: Option<string>)
      ensures navigateTo == (if remoteOk then Some("/") else None)
    {
      navigateTo := if remoteOk then Some("/") else None;
    }

    /**
     * `handleTaskDragEnd`: the task takes the new status at once; when the remote update fails,
     * the handler's own pre-move copy of the project is restored with the original status.
     */
    method HandleTaskDragEnd(taskId: string, newStatus: string, remoteOk: bool)
      modifies this
      ensures old(project).None? ==> project == old(project)
      ensures old(project).Some? && remoteOk ==>
        project == Some(old(project).value.(tasks := DragAndDropHook.SetStatus(old(project).value.tasks, taskId, newStatus)))
      ensures old(project).Some? && !remoteOk ==>
        project == Some(RevertedDrag(old(project).value,
          old(project).value.(tasks := DragAndDropHook.SetStatus(old(project).value.tasks, taskId, newStatus)),
          taskId))
      ensures isLoading == old(isLoading)
    {
      if project.None? {
        return;
      }
      var p := project.value;
      var moved := p.(tasks := DragAndDropHook.SetStatus(p.tasks, taskId, newStatus));
      project := Some(moved);
      if !remoteOk {
        var original := Find(p.tasks, (t: Task) => t.id == taskId);
        if original.Some? && original.value.status != "" {
          project := Some(p.(tasks := DragAndDropHook.SetStatus(p.tasks, taskId, original.value.status)));
        }
      }
    }
  }
}
