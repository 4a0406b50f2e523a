/**
 * The dialog that edits or deletes a project (src/components/EditProjectModal.tsx).
 *
 * `settled` says whether the promise returned by the page's callback resolved (true) or
 * rejected (false).
 */
module EditProjectModal {
  import opened JsValues
  import opened Types
  import opened Text
  import ProjectPage

  datatype ProjectFields = ProjectFields(title: string, description: string, coverImage: Option<string>)

  /** The fields as a project fills them: an absent description shows as "". */
  function FieldsOf(project: Project): (f: ProjectFields)
    ensures f.title == project.title && f.description == OrEmpty(project.description)
    ensures f.coverImage == project.coverImage
  {
    ProjectFields(project.title, OrEmpty(project.description), project.coverImage)
  }

  /** The object handed to `onProjectUpdate`: an empty description is sent as `undefined`. */
  function EditOf(fields: ProjectFields): (e: ProjectEdit)
    ensures e.title == Some(fields.title) && e.coverImage == fields.coverImage
    ensures e.description.None? <==> fields.description == ""
    ensures e.description.Some? ==> e.description.value == fields.description
  {
    ProjectEdit(Some(fields.title), OrAbsent(Some(fields.description)), fields.coverImage)
  }

  /** What a submit emits: nothing for a blank title, otherwise the project's id and the edit. */
  function Submission(project: Project, fields: ProjectFields): (r: Option<(string, ProjectEdit)>)
    ensures r.Some? <==> !IsBlank(fields.title)
    ensures r.Some? ==> r.value == (project.id, EditOf(fields))
  {
    if IsBlank(fields.title) then None else Some((project.id, EditOf(fields)))
  }

  /**
   * Saving the dialog untouched leaves the page's project as it was apart from the update time,
   * when the title is not blank and the description is absent or non-empty.
   */
  lemma UnchangedEditKeepsProject(project: Project, now: Timestamp)
    requires !IsBlank(project.title) && project.description != Some("")
    ensures ProjectPage.EditedProject(project, EditOf(FieldsOf(project)), now) == project.(updatedAt := now)
  {
    OrAbsentOrEmpty(project.description);
  }

  class EditProjectModal {
    var project: Project
    var title: string
    var description: string
    var coverImage: Option<string>
    var open: bool
    var deleteDialogOpen: bool

    function Fields(): ProjectFields
      reads this
    {
      ProjectFields(title, description, coverImage)
    }

    constructor (project: Project)
      ensures this.project == project && Fields() == FieldsOf(project) && !open && !deleteDialogOpen
    {
      this.project := project;
      title := project.title;
      description := OrEmpty(project.description);
      coverImage := project.coverImage;
      open := false;
      deleteDialogOpen := false;
    }

    /** A new `project` prop: the effect copies the three fields from it. */
    method SyncFromProject(newProject: Project)
      modifies this
      ensures project == newProject && Fields() == FieldsOf(newProject)
      ensures open == old(open) && deleteDialogOpen == old(deleteDialogOpen)
    {
      project := newProject;
      title := newProject.title;
      description := OrEmpty(newProject.description);
      coverImage := newProject.coverImage;
    }

    method SetTitle(v: string)
      modifies this
      ensures Fields() == old(Fields()).(title := v) && project == old(project)
      ensures open == old(open) && deleteDialogOpen == old(deleteDialogOpen)
    {
      title := v;
    }

    method SetDescription(v: string)
      modifies this
      ensures Fields() == old(Fields()).(description := v) && project == old(project)
      ensures open == old(open) && deleteDialogOpen == old(deleteDialogOpen)
    {
      description := v;
    }

    method SetCoverImage(v: Option<string>)
      modifies this
      ensures Fields() == old(Fields()).(coverImage := v) && project == old(project)
      ensures open == old(open) && deleteDialogOpen == old(deleteDialogOpen)
    {
      coverImage := v;
    }

    /** `onOpenChange={setOpen}` of the dialog. */
    method SetOpen(v: bool)
      modifies this
      ensures open == v && Fields() == old(Fields()) && project == old(project) && deleteDialogOpen == old(deleteDialogOpen)
    {
      open := v;
    }

    /** `onOpenChange={setDeleteDialogOpen}` of the delete confirmation. */
    method SetDeleteDialogOpen(v: bool)
      modifies this
      ensures deleteDialogOpen == v && Fields() == old(Fields()) && project == old(project) && open == old(open)
    {
      deleteDialogOpen := v;
    }

    /**
     * `handleSubmit`: a blank title emits nothing; otherwise the edit is emitted and the dialog
     * closes once the callback resolves, staying open when it rejects.
     */
    method Submit(settled: bool) returns (update: Option<(string, ProjectEdit)>)
      modifies this
      ensures update == Submission(old(project), old(Fields()))
      ensures Fields() == old(Fields()) && project == old(project) && deleteDialogOpen == old(deleteDialogOpen)
      ensures open == (if update.Some? && settled then false else old(open))
    {
      if IsBlank(title) {
        return None;
      }
      update := Some((project.id, EditOf(Fields())));
      if settled {
        open := false;
      }
    }

    /**
     * `handleDelete`: always asks to delete the project; when that resolves both dialogs close and
     * the page goes home, when it rejects nothing changes.
     */
    method HandleDelete(settled: bool) returns (deletedId: string, navigateTo: Option<string>)
      modifies this
      ensures deletedId == old(project).id
      ensures Fields() == old(Fields()) && project == old(project)
      ensures settled ==> !open && !deleteDialogOpen && navigateTo == Some("/")
      ensures !settled ==> open == old(open) && deleteDialogOpen == old(deleteDialogOpen) && navigateTo == None
    {
      deletedId := project.id;
      if settled {
        deleteDialogOpen := false;
        open := false;
        navigateTo := Some("/");
      } else {
        navigateTo := None;
      }
    }
  }
}
