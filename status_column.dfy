/** One board column (src/components/StatusColumn.tsx): its title, its drop target and its cards. */
module StatusColumn {
  import opened JsValues
  import opened Types

  /** `getStatusTitle()` */
  function StatusTitle(status: TaskStatus): string {
    match status
    case TODO => "To Do"
    case IN_PROGRESS => "In Progress"
    case COMPLETED => "Completed"
  }

  lemma StatusTitles()
    ensures StatusTitle(TODO) == "To Do"
    ensures StatusTitle(IN_PROGRESS) == "In Progress"
    ensures StatusTitle(COMPLETED) == "Completed"
  {
  }

  /** The column is registered with the drag library under its status string. */
  function DroppableId(status: TaskStatus): (r: string)
    ensures StatusOf(r) == Some(status)
  {
    StatusValues(status);
    status.Value()
  }

  /** Different columns are different drop targets. */
  lemma DroppableIdsDistinct(a: TaskStatus, b: TaskStatus)
    ensures DroppableId(a) == DroppableId(b) <==> a == b
  {
    StatusesDistinct(a, b);
  }

  /** The number in the column header. */
  function CountBadge(tasks: seq<Task>): (n: nat)
    ensures n == |tasks|
  {
    |tasks|
  }

  /** A rendered card: the task and the position the drag library knows it by. */
  datatype Card = Card(task: Task, index: nat)

  /** `tasks.map((task, index) => <TaskCard task={task} index={index} />)` */
  function Cards(tasks: seq<Task>): (r: seq<Card>)
    ensures |r| == |tasks|
    ensures forall i :: 0 <= i < |r| ==> r[i].task == tasks[i] && r[i].index == i
  {
    seq(|tasks|, i requires 0 <= i < |tasks| => Card(tasks[i], i))
  }

  /**
   * The React keys (`task.id`) and the drag indexes of a column's cards are pairwise distinct
   * when the column's task ids are.
   */
  lemma CardKeysDistinct(tasks: seq<Task>)
    requires UniqueIds(tasks)
    ensures var cards := Cards(tasks);
      forall i, j :: 0 <= i < j < |cards| ==> cards[i].task.id != cards[j].task.id && cards[i].index != cards[j].index
  {
  }
}
