/** The three-column board (src/components/TaskBoard.tsx): partition by status and the drop guard. */
module TaskBoard {
  import opened JsValues
  import opened Types
  import opened Lists
  import opened DragAndDropHook
  import StatusColumn

  /** The test `task.status === status`. */
  function HasStatus(status: string): Task -> bool {
    (t: Task) => t.status == status
  }

  /** `tasks.filter(task => task.status === status)` */
  function TasksWithStatus(tasks: seq<Task>, status: TaskStatus): seq<Task> {
    Filter(tasks, HasStatus(status.Value()))
  }

  /** The three columns the board shows, left to right. */
  datatype Board = Board(todo: seq<Task>, inProgress: seq<Task>, completed: seq<Task>)

  /** `t` shows in exactly one of the three columns. */
  predicate InOneColumn(b: Board, t: Task) {
    (t in b.todo && t !in b.inProgress && t !in b.completed)
    || (t !in b.todo && t in b.inProgress && t !in b.completed)
    || (t !in b.todo && t !in b.inProgress && t in b.completed)
  }

  function Columns(project: Project): Board {
    Board(
      TasksWithStatus(project.tasks, TODO),
      TasksWithStatus(project.tasks, IN_PROGRESS),
      TasksWithStatus(project.tasks, COMPLETED))
  }

  /** A column holds exactly the tasks of its status, in their original relative order. */
  lemma ColumnExact(tasks: seq<Task>, status: TaskStatus)
    ensures forall t :: t in TasksWithStatus(tasks, status) <==> t in tasks && t.status == status.Value()
    ensures IsSubsequence(TasksWithStatus(tasks, status), tasks)
  {
    FilterIsSubsequence(tasks, HasStatus(status.Value()));
  }

  /** A column of a project whose task ids are unique renders its cards under distinct keys. */
  lemma ColumnCardsDistinct(tasks: seq<Task>, status: TaskStatus)
    requires UniqueIds(tasks)
    ensures UniqueIds(TasksWithStatus(tasks, status))
    ensures var cards := StatusColumn.Cards(TasksWithStatus(tasks, status));
      forall i, j :: 0 <= i < j < |cards| ==> cards[i].task.id != cards[j].task.id
  {
    var column := TasksWithStatus(tasks, status);
    var key := (t: Task) => t.id;
    FilterKeepsDistinctKeys(tasks, HasStatus(status.Value()), key);
    forall i, j | 0 <= i < j < |column| ensures column[i].id != column[j].id {
      assert key(column[i]) != key(column[j]);
    }
    StatusColumn.CardKeysDistinct(TasksWithStatus(tasks, status));
  }

  /** With enumeration statuses, every task is in exactly one column and the columns add up to the list. */
  lemma ColumnsPartition(project: Project)
    requires AllWellTyped(project.tasks)
    ensures var b := Columns(project);
      |b.todo| + |b.inProgress| + |b.completed| == |project.tasks|
    ensures forall t :: t in project.tasks ==> InOneColumn(Columns(project), t)
  {
    var ts := project.tasks;
    forall t | t in ts ensures StatusOf(t.status).Some? {
      var i :| 0 <= i < |ts| && ts[i] == t;
    }
    CountPartition(ts, HasStatus("TODO"), HasStatus("IN_PROGRESS"), HasStatus("COMPLETED"));
  }

  /** The `onTaskStatusChange(taskId, newStatus)` call a drop asks for. */
  datatype StatusChange = StatusChange(taskId: string, newStatus: string)

  /**
   * `handleDragEnd(result)`: nothing for a no-op drop or when there is no callback; otherwise the
   * callback receives the dragged id and the destination column's droppable id as the status.
   */
  function HandleDragEnd(result: DropResult, hasCallback: bool): (call: Option<StatusChange>)
    ensures call.Some? <==> hasCallback && !IsNoOpDrop(result)
    ensures call.Some? ==>
      call.value == StatusChange(result.draggableId, result.destination.value.droppableId)
  {
    if IsNoOpDrop(result) then None
    else if hasCallback then Some(StatusChange(result.draggableId, result.destination.value.droppableId))
    else None
  }

  /** A card dragged onto another place of its own column still reports its unchanged status. */
  lemma ReorderInColumnReports(result: DropResult, status: TaskStatus)
    requires result.destination.Some?
    requires result.source.droppableId == StatusColumn.DroppableId(status)
    requires result.destination.value.droppableId == result.source.droppableId
    requires result.destination.value.index != result.source.index
    ensures HandleDragEnd(result, true) == Some(StatusChange(result.draggableId, status.Value()))
  {
  }

  /**
   * A drop onto the column of status `s` gives the dragged task the status `s`, so after the
   * move it shows in that column and in no other.
   */
  lemma DropLandsInColumn(tasks: seq<Task>, result: DropResult, s: TaskStatus, k: nat)
    requires !IsNoOpDrop(result) && result.destination.value.droppableId == StatusColumn.DroppableId(s)
    requires k < |tasks| && tasks[k].id == result.draggableId
    ensures var moved := SetStatus(tasks, result.draggableId, result.destination.value.droppableId);
      moved[k] in TasksWithStatus(moved, s)
      && forall other :: other != s ==> moved[k] !in TasksWithStatus(moved, other)
  {
    var moved := SetStatus(tasks, result.draggableId, result.destination.value.droppableId);
    assert moved[k] in moved;
    forall other | other != s ensures moved[k] !in TasksWithStatus(moved, other) {
      StatusesDistinct(s, other);
    }
  }
}
