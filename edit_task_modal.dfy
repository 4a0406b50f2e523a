/** The dialog that edits or deletes one task (src/components/EditTaskModal.tsx). */
module EditTaskModal {
  import opened JsValues
  import opened Types
  import opened Text

  /** The six editable fields. The status and priority are the task's strings. */
  datatype EditForm = EditForm(
    title: string,
    description: string,
    priority: string,
    dueDate: Option<Timestamp>,
    status: string,
    image: Option<string>)

  /** The fields as a task fills them: an absent description shows as "". */
  function FormOf(task: Task): (f: EditForm)
    ensures f.description == OrEmpty(task.description)
    ensures f.title == task.title && f.priority == task.priority && f.status == task.status
    ensures f.dueDate == task.dueDate && f.image == task.image
  {
    EditForm(task.title, OrEmpty(task.description), task.priority, task.dueDate, task.status, task.image)
  }

  /**
   * The object handed to `onTaskUpdate`: the six fields, with an empty description sent as
   * `undefined`. It has no id, creation time or project.
   */
  function PatchOf(form: EditForm): (p: TaskPatch)
    ensures p.description == Present(OrAbsent(Some(form.description)))
    ensures p.description.value.None? <==> form.description == ""
    ensures p.id.Absent? && p.createdAt.Absent? && p.projectId.Absent? && p.assignedTo.Absent?
  {
    TaskPatch(Absent, Present(form.title), Present(OrAbsent(Some(form.description))), Present(form.status),
      Present(form.priority), Present(form.dueDate), Absent, Absent, Absent, Present(form.image))
  }

  /** What a submit emits: nothing for a blank title, otherwise the task's id and the patch. */
  function Submission(task: Task, form: EditForm): (r: Option<(string, TaskPatch)>)
    ensures r.Some? <==> !IsBlank(form.title)
    ensures r.Some? ==> r.value.0 == task.id && r.value.1 == PatchOf(form)
  {
    if IsBlank(form.title) then None else Some((task.id, PatchOf(form)))
  }

  /**
   * Saving without touching a field gives back the task, when its description is absent or
   * non-empty (an empty one comes back absent).
   */
  lemma UnchangedEditKeepsTask(task: Task)
    ensures task.description != Some("") ==> PatchOf(FormOf(task)).ApplyTo(task) == task
    ensures task.description == Some("") ==> PatchOf(FormOf(task)).ApplyTo(task) == task.(description := None)
  {
    OrAbsentOrEmpty(task.description);
  }

  /** The edited task takes every field of the form. */
  lemma EditAppliesForm(task: Task, form: EditForm)
    ensures var t := PatchOf(form).ApplyTo(task);
      FormOf(t) == form && t.id == task.id && t.projectId == task.projectId
      && t.createdAt == task.createdAt && t.assignedTo == task.assignedTo
  {
    OrAbsentOrEmpty(Some(form.description));
  }

  class EditTaskModal {
    var task: Task
    var title: string
    var description: string
    var priority: string
    var dueDate: Option<Timestamp>
    var status: string
    var image: Option<string>
    var open: bool
    var deleteDialogOpen: bool

    function Form(): EditForm
      reads this
    {
      EditForm(title, description, priority, dueDate, status, image)
    }

    constructor (task: Task)
      ensures this.task == task && Form() == FormOf(task) && !open && !deleteDialogOpen
    {
      this.task := task;
      title := task.title;
      description := OrEmpty(task.description);
      priority := task.priority;
      dueDate := task.dueDate;
      status := task.status;
      image := task.image;
      open := false;
      deleteDialogOpen := false;
    }

    /** A new `task` prop: the effect copies all six fields from it; the dialogs stay as they are. */
    method SyncFromTask(newTask: Task)
      modifies this
      ensures task == newTask && Form() == FormOf(newTask)
      ensures open == old(open) && deleteDialogOpen == old(deleteDialogOpen)
    {
      task := newTask;
      title := newTask.title;
      description := OrEmpty(newTask.description);
      priority := newTask.priority;
      dueDate := newTask.dueDate;
      status := newTask.status;
      image := newTask.image;
    }

    /** The field setters: each changes its own field only. */
    method SetTitle(v: string)
      modifies this
      ensures Form() == old(Form()).(title := v) && task == old(task)
      ensures open == old(open) && deleteDialogOpen == old(deleteDialogOpen)
    {
      title := v;
    }

    method SetDescription(v: string)
      modifies this
      ensures Form() == old(Form()).(description := v) && task == old(task)
      ensures open == old(open) && deleteDialogOpen == old(deleteDialogOpen)
    {
      description := v;
    }

    method SetPriority(v: string)
      modifies this
      ensures Form() == old(Form()).(priority := v) && task == old(task)
      ensures open == old(open) && deleteDialogOpen == old(deleteDialogOpen)
    {
      priority := v;
    }

    method SetDueDate(v: Option<Timestamp>)
      modifies this
      ensures Form() == old(Form()).(dueDate := v) && task == old(task)
      ensures open == old(open) && deleteDialogOpen == old(deleteDialogOpen)
    {
      dueDate := v;
    }

    method SetStatus(v: string)
      modifies this
      ensures Form() == old(Form()).(status := v) && task == old(task)
      ensures open == old(open) && deleteDialogOpen == old(deleteDialogOpen)
    {
      status := v;
    }

    method SetImage(v: Option<string>)
      modifies this
      ensures Form() == old(Form()).(image := v) && task == old(task)
      ensures open == old(open) && deleteDialogOpen == old(deleteDialogOpen)
    {
      image := v;
    }

    method SetOpen(v: bool)
      modifies this
      ensures open == v && Form() == old(Form()) && task == old(task) && deleteDialogOpen == old(deleteDialogOpen)
    {
      open := v;
    }

    /** `onOpenChange={setDeleteDialogOpen}` of the delete confirmation. */
    method SetDeleteDialogOpen(v: bool)
      modifies this
      ensures deleteDialogOpen == v && Form() == old(Form()) && task == old(task) && open == old(open)
    {
      deleteDialogOpen := v;
    }

    /** `handleSubmit`: a blank title changes nothing; a valid one emits the update and closes the dialog. */
    method Submit() returns (update: Option<(string, TaskPatch)>)
      modifies this
      ensures update == Submission(old(task), old(Form()))
      ensures Form() == old(Form()) && task == old(task) && deleteDialogOpen == old(deleteDialogOpen)
      ensures open == (if update.Some? then false else old(open))
    {
      if IsBlank(title) {
        return None;
      }
      update := Some((task.id, PatchOf(Form())));
      open := false;
    }

    /** `handleDelete`: asks to delete this task and closes both dialogs. */
    method HandleDelete() returns (deletedId: string)
      modifies this
      ensures deletedId == old(task).id
      ensures !open && !deleteDialogOpen && Form() == old(Form()) && task == old(task)
    {
      deletedId := task.id;
      deleteDialogOpen := false;
      open := false;
    }
  }
}
