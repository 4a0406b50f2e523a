/** The "New Project" dialog (src/components/NewProjectModal.tsx). */
module NewProjectModal {
  import opened JsValues
  import opened Types
  import opened Text
  import SupabaseService

  datatype ProjectForm = ProjectForm(title: string, description: string, coverImage: Option<string>, open: bool)

  const Defaults: ProjectForm := ProjectForm("", "", None, false)

  /** What a submit hands to `onProjectCreate`: nothing for a blank title, otherwise the fields unchanged. */
  function Submission(form: ProjectForm): (r: Option<SupabaseService.NewProjectInput>)
    ensures r.Some? <==> !IsBlank(form.title)
    ensures r.Some? ==> r.value == SupabaseService.NewProjectInput(form.title, Some(form.description), form.coverImage)
  {
    if IsBlank(form.title) then None
    else Some(SupabaseService.NewProjectInput(form.title, Some(form.description), form.coverImage))
  }

  /**
   * The project the store creates from a submission: the signed-in user recorded as its creator,
   * the title as typed, an empty description read back as absent, and no tasks.
   */
  lemma CreatedProjectFromForm(form: ProjectForm, user: User, id: string, now: Timestamp)
    requires Submission(form).Some?
    ensures SupabaseService.CreateProject(Some(user), Submission(form).value, Ok((id, now))).0.value.created_by == user.id
    ensures var r := SupabaseService.CreateProject(Some(user), Submission(form).value, Ok((id, now))).1;
      r.Ok? && r.value.title == form.title && r.value.tasks == []
      && (r.value.description.None? <==> form.description == "")
  {
  }

  class NewProjectModal {
    var title: string
    var description: string
    var coverImage: Option<string>
    var open: bool

    function Form(): ProjectForm
      reads this
    {
      ProjectForm(title, description, coverImage, open)
    }

    constructor ()
      ensures Form() == Defaults
    {
      title := "";
      description := "";
      coverImage := None;
      open := false;
    }

    method SetTitle(v: string)
      modifies this
      ensures Form() == old(Form()).(title := v)
    {
      title := v;
    }

    method SetDescription(v: string)
      modifies this
      ensures Form() == old(Form()).(description := v)
    {
      description := v;
    }

    method SetCoverImage(v: Option<string>)
      modifies this
      ensures Form() == old(Form()).(coverImage := v)
    {
      coverImage := v;
    }

    method SetOpen(v: bool)
      modifies this
      ensures Form() == old(Form()).(open := v)
    {
      open := v;
    }

    /** `handleSubmit`: a blank title changes nothing; a valid one is emitted and the dialog resets and closes. */
    method Submit() returns (created: Option<SupabaseService.NewProjectInput>)
      modifies this
      ensures created == Submission(old(Form()))
      ensures created.None? ==> Form() == old(Form())
      ensures created.Some? ==> Form() == Defaults
    {
      if IsBlank(title) {
        return None;
      }
      created := Some(SupabaseService.NewProjectInput(title, Some(description), coverImage));
      title := "";
      description := "";
      coverImage := None;
      open := false;
    }
  }
}
