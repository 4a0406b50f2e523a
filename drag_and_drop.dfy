/** The drag-and-drop hook of src/hooks/useDragAndDrop.tsx: a task list and the status rewrite a drop makes. */
module DragAndDropHook {
  import opened JsValues
  import opened Types

  /** Where a card was picked up or dropped: a column's droppable id and a position in it. */
  datatype DraggableLocation = DraggableLocation(droppableId: string, index: int)

  /** What the drag library reports when a card is let go; `destination` is absent outside every column. */
  datatype DropResult = DropResult(
    draggableId: string,
    source: DraggableLocation,
    destination: Option<DraggableLocation>)

  /** A drop outside every column, or back onto the place it came from, does nothing. */
  predicate IsNoOpDrop(result: DropResult) {
    result.destination.None?
    || (result.destination.value.droppableId == result.source.droppableId
        && result.destination.value.index == result.source.index)
  }

  /**
   * `tasks.map(task => task.id === taskId ? { ...task, status: newStatus } : task)`:
   * every task with the id gets the new status; nothing else changes.
   */
  function SetStatus(tasks: seq<Task>, taskId: string, newStatus: string): (r: seq<Task>)
    ensures |r| == |tasks|
    ensures forall i :: 0 <= i < |r| ==> r[i].id == tasks[i].id
    ensures forall i :: 0 <= i < |r| ==>
      r[i].status == (if tasks[i].id == taskId then newStatus else tasks[i].status)
    ensures forall i :: 0 <= i < |r| ==> r[i].(status := tasks[i].status) == tasks[i]
  {
    seq(|tasks|, i requires 0 <= i < |tasks| =>
      if tasks[i].id == taskId then tasks[i].(status := newStatus) else tasks[i])
  }

  /** Moving a task whose id is not in the list leaves the list as it was. */
  lemma SetStatusAbsent(tasks: seq<Task>, taskId: string, newStatus: string)
    requires forall i :: 0 <= i < |tasks| ==> tasks[i].id != taskId
    ensures SetStatus(tasks, taskId, newStatus) == tasks
  {
    var r := SetStatus(tasks, taskId, newStatus);
    assert forall i :: 0 <= i < |r| ==> r[i] == r[i].(status := tasks[i].status);
  }

  /** Moving the same task to the same status twice is moving it once. */
  lemma SetStatusIdempotent(tasks: seq<Task>, taskId: string, newStatus: string)
    ensures SetStatus(SetStatus(tasks, taskId, newStatus), taskId, newStatus)
         == SetStatus(tasks, taskId, newStatus)
  {
    var once := SetStatus(tasks, taskId, newStatus);
    var twice := SetStatus(once, taskId, newStatus);
    forall i | 0 <= i < |tasks| ensures twice[i] == once[i] {
      assert twice[i] == twice[i].(status := once[i].status);
    }
  }

  /** Moving a task to the status it already has leaves the list as it was. */
  lemma SetStatusToCurrent(tasks: seq<Task>, taskId: string, newStatus: string)
    requires forall i :: 0 <= i < |tasks| && tasks[i].id == taskId ==> tasks[i].status == newStatus
    ensures SetStatus(tasks, taskId, newStatus) == tasks
  {
    var r := SetStatus(tasks, taskId, newStatus);
    assert forall i :: 0 <= i < |r| ==> r[i] == r[i].(status := tasks[i].status);
  }

  /** The state of one `useDragAndDrop(initialTasks)` call. */
  class DragAndDrop {
    var tasks: seq<Task>

    constructor (initialTasks: seq<Task>)
      ensures tasks == initialTasks
    {
      tasks := initialTasks;
    }

    /** The `setTasks` the hook hands out. */
    method SetTasks(newTasks: seq<Task>)
      modifies this
      ensures tasks == newTasks
    {
      tasks := newTasks;
    }

    /** `moveTask(taskId, newStatus)` */
    method MoveTask(taskId: string, newStatus: string)
      modifies this
      ensures tasks == SetStatus(old(tasks), taskId, newStatus)
    {
      tasks := SetStatus(tasks, taskId, newStatus);
    }

    /**
     * `onDragEnd(result)`: a real move takes the destination's droppable id, which names the
     * column's status, as the task's new status.
     */
    method OnDragEnd(result: DropResult)
      modifies this
      ensures IsNoOpDrop(result) ==> tasks == old(tasks)
      ensures !IsNoOpDrop(result) ==>
        tasks == SetStatus(old(tasks), result.draggableId, result.destination.value.droppableId)
    {
      if IsNoOpDrop(result) {
        return;
      }
      var newStatus := result.destination.value.droppableId;
      MoveTask(result.draggableId, newStatus);
    }
  }
}
