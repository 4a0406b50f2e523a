/** The "Add Task" dialog (src/components/NewTaskModal.tsx). */
module NewTaskModal {
  import opened JsValues
  import opened Types
  import opened Text
  import SupabaseService

  /** The dialog's seven pieces of state other than the calendar popover. */
  datatype TaskForm = TaskForm(
    title: string,
    description: string,
    priority: Priority,
    dueDate: Option<Timestamp>,
    status: TaskStatus,
    image: Option<string>,
    open: bool)

  /** The state the dialog starts in and returns to after a task is created. */
  const Defaults: TaskForm := TaskForm("", "", MEDIUM, None, TODO, None, false)

  /**
   * What a submit hands to `onTaskCreate`: nothing when the title is blank after trimming,
   * otherwise the current values, the title untrimmed, with the dialog's project id.
   */
  function Submission(form: TaskForm, projectId: string): (r: Option<SupabaseService.NewTaskInput>)
    ensures r.Some? <==> !IsBlank(form.title)
    ensures r.Some? ==> r.value.projectId == projectId && r.value.title == form.title
    ensures r.Some? ==>
      && r.value.description == Some(form.description) && r.value.priority == form.priority
      && r.value.dueDate == form.dueDate && r.value.status == form.status && r.value.image == form.image
  {
    if IsBlank(form.title) then None
    else Some(SupabaseService.NewTaskInput(form.title, Some(form.description), form.priority, form.dueDate,
      form.status, projectId, form.image))
  }

  /** A title of spaces only is refused; a title with any other character is accepted. */
  lemma SubmissionNeedsVisibleTitle(form: TaskForm, projectId: string)
    ensures Submission(form, projectId).Some? <==> exists i :: 0 <= i < |form.title| && !IsSpace(form.title[i])
  {
    BlankIffAllSpace(form.title);
  }

  /** A task created from the dialog has the chosen status and priority, as enumeration values. */
  lemma CreatedTaskWellTyped(form: TaskForm, projectId: string, id: string, createdAt: Timestamp)
    requires Submission(form, projectId).Some?
    ensures var t := SupabaseService.TaskFromRow(SupabaseService.StoredTaskRow(
        SupabaseService.CreateTaskInsert(Submission(form, projectId).value), id, createdAt));
      t.WellTyped() && t.status == form.status.Value() && t.priority == form.priority.Value()
      && t.projectId == projectId
  {
    SupabaseService.CreateTaskRoundTrip(Submission(form, projectId).value, id, createdAt);
  }

  class NewTaskModal {
    const projectId: string
    var title: string
    var description: string
    var priority: Priority
    var dueDate: Option<Timestamp>
    var status: TaskStatus
    var image: Option<string>
    var open: bool

    /** The state as one value. */
    function Form(): TaskForm
      reads this
    {
      TaskForm(title, description, priority, dueDate, status, image, open)
    }

    constructor (projectId: string)
      ensures this.projectId == projectId && Form() == Defaults
    {
      this.projectId := projectId;
      title := "";
      description := "";
      priority := MEDIUM;
      dueDate := None;
      status := TODO;
      image := None;
      open := false;
    }

    method SetTitle(v: string)
      modifies this
      ensures Form() == old(Form()).(title := v)
    {
      title := v;
    }

    method SetDescription(v: string)
      modifies this
      ensures Form() == old(Form()).(description := v)
    {
      description := v;
    }

    method SetPriority(v: Priority)
      modifies this
      ensures Form() == old(Form()).(priority := v)
    {
      priority := v;
    }

    method SetDueDate(v: Option<Timestamp>)
      modifies this
      ensures Form() == old(Form()).(dueDate := v)
    {
      dueDate := v;
    }

    method SetStatus(v: TaskStatus)
      modifies this
      ensures Form() == old(Form()).(status := v)
    {
      status := v;
    }

    method SetImage(v: Option<string>)
      modifies this
      ensures Form() == old(Form()).(image := v)
    {
      image := v;
    }

    method SetOpen(v: bool)
      modifies this
      ensures Form() == old(Form()).(open := v)
    {
      open := v;
    }

    /**
     * `handleSubmit`: a blank title changes nothing and emits nothing; otherwise the payload is
     * emitted and every field returns to its default, closing the dialog.
     */
    method Submit() returns (created: Option<SupabaseService.NewTaskInput>)
      modifies this
      ensures created == Submission(old(Form()), projectId)
      ensures created.None? ==> Form() == old(Form())
      ensures created.Some? ==> Form() == Defaults
    {
      created := Submission(Form(), projectId);
      if created.None? {
        return;
      }
      title, description, priority, dueDate, status, image, open := "", "", MEDIUM, None, TODO, None, false;
    }
  }
}
