/** The summary card of one project (src/components/ProjectCard.tsx): status counts and progress. */
module ProjectCard {
  import opened Types
  import opened Lists
  import TaskBoard
  import StatusColumn

  /** The number of tasks whose status is `s`. */
  function StatusCount(tasks: seq<Task>, s: TaskStatus): nat {
    Count(tasks, TaskBoard.HasStatus(s.Value()))
  }

  /**
   * The `reduce` over the project's tasks: one pass that bumps the total for every task and
   * the counter of its status when the status is one of the three.
   */
  method CountTasks(tasks: seq<Task>) returns (todo: nat, inProgress: nat, completed: nat, total: nat)
    ensures total == |tasks|
    ensures todo == StatusCount(tasks, TODO)
    ensures inProgress == StatusCount(tasks, IN_PROGRESS)
    ensures completed == StatusCount(tasks, COMPLETED)
  {
    todo, inProgress, completed, total := 0, 0, 0, 0;
    var i := 0;
    while i < |tasks|
      invariant 0 <= i <= |tasks|
      invariant total == i
      invariant todo == StatusCount(tasks[..i], TODO)
      invariant inProgress == StatusCount(tasks[..i], IN_PROGRESS)
      invariant completed == StatusCount(tasks[..i], COMPLETED)
    {
      var task := tasks[i];
      assert tasks[..i + 1] == tasks[..i] + [task];
      CountSnoc(tasks[..i], task, TaskBoard.HasStatus(TODO.Value()));
      CountSnoc(tasks[..i], task, TaskBoard.HasStatus(IN_PROGRESS.Value()));
      CountSnoc(tasks[..i], task, TaskBoard.HasStatus(COMPLETED.Value()));
      total := total + 1;
      if task.status == TODO.Value() { todo := todo + 1; }
      if task.status == IN_PROGRESS.Value() { inProgress := inProgress + 1; }
      if task.status == COMPLETED.Value() { completed := completed + 1; }
      i := i + 1;
    }
    assert tasks[..i] == tasks;
  }

  /** With enumeration statuses the three counters add up to the total. */
  lemma CountsSum(tasks: seq<Task>)
    requires AllWellTyped(tasks)
    ensures StatusCount(tasks, TODO) + StatusCount(tasks, IN_PROGRESS) + StatusCount(tasks, COMPLETED)
         == |tasks|
  {
    forall t | t in tasks ensures StatusOf(t.status).Some? {
      var i :| 0 <= i < |tasks| && tasks[i] == t;
    }
    CountPartition(tasks, TaskBoard.HasStatus("TODO"), TaskBoard.HasStatus("IN_PROGRESS"),
      TaskBoard.HasStatus("COMPLETED"));
  }

  /**
   * The badge over a board column shows the card's counter of the same status, and with
   * enumeration statuses the three badges add up to the card's total.
   */
  lemma BadgeCountsStatus(tasks: seq<Task>, s: TaskStatus)
    ensures StatusColumn.CountBadge(TaskBoard.TasksWithStatus(tasks, s)) == StatusCount(tasks, s)
    ensures AllWellTyped(tasks) ==>
      StatusColumn.CountBadge(TaskBoard.TasksWithStatus(tasks, TODO))
      + StatusColumn.CountBadge(TaskBoard.TasksWithStatus(tasks, IN_PROGRESS))
      + StatusColumn.CountBadge(TaskBoard.TasksWithStatus(tasks, COMPLETED)) == |tasks|
  {
    if AllWellTyped(tasks) {
      CountsSum(tasks);
    }
  }

  /**
   * `totalTasks > 0 ? Math.round((completedCount / totalTasks) * 100) : 0`, with the quotient taken
   * exactly: the integer nearest to 100 * completed / total, halves rounded up.
   */
  function ProgressPercentage(completed: nat, total: nat): (r: int)
    ensures total == 0 ==> r == 0
    ensures total > 0 ==> 2 * total * r <= 200 * completed + total < 2 * total * (r + 1)
  {
    if total > 0 then (200 * completed + total) / (2 * total) else 0
  }

  /** Cancelling a positive factor in a strict inequality. */
  lemma CancelFactor(k: int, a: int, b: int)
    requires k > 0 && k * a < k * b
    ensures a < b
  {
  }

  /** Progress lies between 0 and 100; all done is 100, none done is 0. */
  lemma ProgressBounds(completed: nat, total: nat)
    requires completed <= total
    ensures 0 <= ProgressPercentage(completed, total) <= 100
    ensures completed == total && total > 0 ==> ProgressPercentage(completed, total) == 100
    ensures completed == 0 ==> ProgressPercentage(completed, total) == 0
  {
    if total > 0 {
      var r := ProgressPercentage(completed, total);
      var k := 2 * total;
      assert k * r <= 200 * completed + total < k * (r + 1);
      assert 200 * completed + total < k * 101;
      CancelFactor(k, r, 101);
      assert 0 <= 200 * completed + total;
      CancelFactor(k, -1, r);
      if completed == total {
        assert k * 100 < k * (r + 1);
        CancelFactor(k, 100, r + 1);
      }
      if completed == 0 {
        assert k * r < k * 1;
        CancelFactor(k, r, 1);
      }
    }
  }

  /** The card's progress for a project: completed tasks out of all tasks. */
  function CardProgress(project: Project): int {
    ProgressPercentage(StatusCount(project.tasks, COMPLETED), |project.tasks|)
  }

  /** A project without tasks shows 0%; otherwise the progress is a percentage. */
  lemma CardProgressBounds(project: Project)
    ensures project.tasks == [] ==> CardProgress(project) == 0
    ensures 0 <= CardProgress(project) <= 100
  {
    ProgressBounds(StatusCount(project.tasks, COMPLETED), |project.tasks|);
  }

  /** The target of the card's navigate button. */
  function ProjectLink(projectId: string): (r: string)
    ensures |r| == |"/project/"| + |projectId|
    ensures r[..|"/project/"|] == "/project/" && r[|"/project/"|..] == projectId
  {
    "/project/" + projectId
  }

  /** Different projects link to different pages. */
  lemma ProjectLinkInjective(a: string, b: string)
    ensures ProjectLink(a) == ProjectLink(b) ==> a == b
  {
    if ProjectLink(a) == ProjectLink(b) {
      assert ProjectLink(a)[9..] == a;
    }
  }
}
