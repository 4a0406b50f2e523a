/**
 * The row mappings of src/services/supabaseService.ts: how stored rows become domain records and
 * how domain values become the rows that are inserted or the column updates that are sent.
 *
 * The remote calls themselves are outcomes passed in (`Result`), the signed-in user is an
 * `Option<User>`, and `new Date().toISOString()` is the `now` parameter. Timestamp columns hold
 * `Timestamp` values; a timestamp column cannot hold "", so `row.due_date ? ... : undefined`
 * reads a null column as absent and any other as present.
 */
module SupabaseService {
  import opened JsValues
  import opened Types
  import ProjectPage
  import Text

  /** A row of the `tasks` table. */
  datatype TaskRow = TaskRow(
    id: string,
    title: string,
    description: Option<string>,
    status: string,
    priority: string,
    due_date: Option<Timestamp>,
    created_at: Timestamp,
    assigned_to: Option<string>,
    project_id: string,
    image: Option<string>)

  /**
   * The row-to-task mapping of `getTasksByProjectId`, `getTaskById` and `createTask`: a null or
   * empty description, assignee or image becomes absent, and the status and priority strings
   * are copied without a check.
   */
  function TaskFromRow(row: TaskRow): (t: Task)
    ensures t.id == row.id && t.title == row.title && t.projectId == row.project_id
    ensures t.description == OrAbsent(row.description)
    ensures t.assignedTo == OrAbsent(row.assigned_to) && t.image == OrAbsent(row.image)
    ensures t.status == row.status && t.priority == row.priority
    ensures t.dueDate == row.due_date && t.createdAt == row.created_at
  {
    Task(row.id, row.title, OrAbsent(row.description), row.status, row.priority, row.due_date,
      row.created_at, OrAbsent(row.assigned_to), row.project_id, OrAbsent(row.image))
  }

  /** `data.map(...)` in `getTasksByProjectId`. */
  function TasksFromRows(rows: seq<TaskRow>): (r: seq<Task>)
    ensures |r| == |rows| && forall i :: 0 <= i < |r| ==> r[i] == TaskFromRow(rows[i])
  {
    seq(|rows|, i requires 0 <= i < |rows| => TaskFromRow(rows[i]))
  }

  /** A task whose optional texts are absent or non-empty, as the row mapping always produces. */
  predicate Normal(t: Task) {
    (t.description.Some? ==> t.description.value != "")
    && (t.assignedTo.Some? ==> t.assignedTo.value != "")
    && (t.image.Some? ==> t.image.value != "")
  }

  /** The row a task is stored as, absent texts as null. */
  function TaskToRow(t: Task): TaskRow {
    TaskRow(t.id, t.title, t.description, t.status, t.priority, t.dueDate, t.createdAt,
      t.assignedTo, t.projectId, t.image)
  }

  /** Every task read from a row is normal, and a normal task survives being stored and read back. */
  lemma TaskRowRoundTrip(t: Task, row: TaskRow)
    ensures Normal(TaskFromRow(row))
    ensures Normal(t) ==> TaskFromRow(TaskToRow(t)) == t
  {
  }

  /** Reading does not validate: a row's status is kept even when it is no enumeration value. */
  lemma ReadKeepsUnknownStatus(row: TaskRow)
    requires StatusOf(row.status).None?
    ensures TaskFromRow(row).status == row.status
    ensures !TaskFromRow(row).WellTyped()
  {
  }

  /** The argument of `createTask`. */
  datatype NewTaskInput = NewTaskInput(
    title: string,
    description: Option<string>,
    priority: Priority,
    dueDate: Option<Timestamp>,
    status: TaskStatus,
    projectId: string,
    image: Option<string>)

  /** The columns `createTask` inserts; the store fills in `id`, `created_at` and a null `assigned_to`. */
  datatype TaskInsert = TaskInsert(
    title: string,
    description: Option<string>,
    priority: string,
    due_date: Option<Timestamp>,
    status: string,
    project_id: string,
    image: Option<string>)

  /** The insert of `createTask`: an absent or empty description or image and an absent due date become null. */
  function CreateTaskInsert(input: NewTaskInput): (r: TaskInsert)
    ensures r.description.Some? <==> Truthy(input.description)
    ensures r.image.Some? <==> Truthy(input.image)
    ensures r.description.Some? ==> r.description == input.description
    ensures r.image.Some? ==> r.image == input.image
    ensures r.due_date == input.dueDate
    ensures StatusOf(r.status) == Some(input.status) && PriorityOf(r.priority) == Some(input.priority)
    ensures r.title == input.title && r.project_id == input.projectId
  {
    StatusValues(input.status);
    PriorityValues(input.priority);
    TaskInsert(input.title, OrAbsent(input.description), input.priority.Value(), input.dueDate,
      input.status.Value(), input.projectId, OrAbsent(input.image))
  }

  /** The row the store holds after the insert. */
  function StoredTaskRow(ins: TaskInsert, id: string, createdAt: Timestamp): TaskRow {
    TaskRow(id, ins.title, ins.description, ins.status, ins.priority, ins.due_date, createdAt, None,
      ins.project_id, ins.image)
  }

  /**
   * What `createTask` resolves to: the input's values, an empty description or image read back
   * as absent, the enumeration values as their strings, and no assignee.
   */
  lemma CreateTaskRoundTrip(input: NewTaskInput, id: string, createdAt: Timestamp)
    ensures TaskFromRow(StoredTaskRow(CreateTaskInsert(input), id, createdAt))
         == Task(id, input.title, OrAbsent(input.description), input.status.Value(), input.priority.Value(),
                 input.dueDate, createdAt, None, input.projectId, OrAbsent(input.image))
    ensures TaskFromRow(StoredTaskRow(CreateTaskInsert(input), id, createdAt)).WellTyped()
  {
    StatusValues(input.status);
    PriorityValues(input.priority);
  }

  /** The columns an `updateTask` call sends; `Keep` is an `undefined` property, dropped from the request. */
  datatype TaskUpdate = TaskUpdate(
    title: Update<string>,
    description: Update<Option<string>>,
    priority: Update<string>,
    due_date: Update<Option<Timestamp>>,
    status: Update<string>,
    assigned_to: Update<Option<string>>,
    image: Update<Option<string>>)

  /** A required key: written when present. */
  function Sent<T>(f: Field<T>): (r: Update<T>)
    ensures r.Set? <==> f.Present?
    ensures r.Set? ==> r.value == f.value
  {
    match f
    case Absent => Keep
    case Present(v) => Set(v)
  }

  /** An optional key: written when present with a value; absent and `undefined` are both dropped. */
  function SentOptional<T>(f: Field<Option<T>>): (r: Update<Option<T>>)
    ensures r.Set? <==> f.Present? && f.value.Some?
    ensures r.Set? ==> r.value == f.value
  {
    match f
    case Present(Some(v)) => Set(Some(v))
    case _ => Keep
  }

  /**
   * The update row of `updateTask`. Only these seven columns are sent; `due_date` is always sent,
   * as null unless the patch carries a due date.
   */
  function TaskUpdateOf(patch: TaskPatch): (r: TaskUpdate)
    ensures r.due_date == Set(if patch.dueDate.Present? then patch.dueDate.value else None)
    ensures r.title == Sent(patch.title) && r.priority == Sent(patch.priority) && r.status == Sent(patch.status)
    ensures r.description == SentOptional(patch.description)
    ensures r.assigned_to == SentOptional(patch.assignedTo) && r.image == SentOptional(patch.image)
  {
    TaskUpdate(
      Sent(patch.title),
      SentOptional(patch.description),
      Sent(patch.priority),
      Set(if patch.dueDate.Present? then patch.dueDate.value else None),
      Sent(patch.status),
      SentOptional(patch.assignedTo),
      SentOptional(patch.image))
  }

  /** One column after an update. */
  function Updated<T>(stored: T, u: Update<T>): T {
    match u
    case Keep => stored
    case Set(v) => v
  }

  /** The stored row after an update of its columns. */
  function ApplyTaskUpdate(row: TaskRow, u: TaskUpdate): TaskRow {
    row.(title := Updated(row.title, u.title),
         description := Updated(row.description, u.description),
         priority := Updated(row.priority, u.priority),
         due_date := Updated(row.due_date, u.due_date),
         status := Updated(row.status, u.status),
         assigned_to := Updated(row.assigned_to, u.assigned_to),
         image := Updated(row.image, u.image))
  }

  /** A patch that carries only a status clears the stored due date. */
  lemma StatusOnlyPatchClearsDueDate(row: TaskRow, status: string)
    ensures var patch := EmptyPatch.(status := Present(status));
      ApplyTaskUpdate(row, TaskUpdateOf(patch)).due_date == None
      && ApplyTaskUpdate(row, TaskUpdateOf(patch)) == row.(status := status, due_date := None)
  {
  }

  /**
   * A patch that clears the description (`description: undefined`, as the edit dialog sends for an
   * emptied field) clears it on the page but not in the store: the stored description comes back
   * on the next read, whatever non-empty description it held.
   */
  lemma ClearedDescriptionKeptInStore(task: Task, row: TaskRow)
    requires Truthy(row.description)
    ensures var patch := EmptyPatch.(description := Present(None));
      patch.ApplyTo(task).description == None
      && TaskFromRow(ApplyTaskUpdate(row, TaskUpdateOf(patch))).description == row.description
  {
  }

  /**
   * The page's optimistic merge and the store agree for a patch that has a due date, touches only
   * the columns sent, and writes only non-empty texts.
   */
  lemma UpdateAgreesWithPage(task: Task, patch: TaskPatch)
    requires Normal(task)
    requires patch.id.Absent? && patch.createdAt.Absent? && patch.projectId.Absent?
    requires patch.dueDate.Present?
    requires patch.description.Present? ==> Truthy(patch.description.value)
    requires patch.assignedTo.Present? ==> Truthy(patch.assignedTo.value)
    requires patch.image.Present? ==> Truthy(patch.image.value)
    ensures TaskFromRow(ApplyTaskUpdate(TaskToRow(task), TaskUpdateOf(patch))) == patch.ApplyTo(task)
  {
  }

  /** A row of the `projects` table. */
  datatype ProjectRow = ProjectRow(
    id: string,
    title: string,
    description: Option<string>,
    cover_image: Option<string>,
    created_at: Timestamp,
    updated_at: Timestamp,
    created_by: string)

  /** The row-to-project mapping shared by `getProjects`, `getProjectById` and `createProject`. */
  function ProjectFromRow(row: ProjectRow, tasks: seq<Task>): (p: Project)
    ensures p.id == row.id && p.title == row.title && p.tasks == tasks
    ensures p.description == OrAbsent(row.description) && p.coverImage == OrAbsent(row.cover_image)
    ensures p.createdAt == row.created_at && p.updatedAt == row.updated_at
  {
    Project(row.id, row.title, OrAbsent(row.description), OrAbsent(row.cover_image), row.created_at,
      row.updated_at, tasks)
  }

  /**
   * `getProjectById(id)`: a failed query (or a failed task fetch) rejects, no row gives null, and a
   * row gives the project with its tasks.
   */
  function GetProjectById(fetched: Result<Option<ProjectRow>>, taskRows: Result<seq<TaskRow>>)
    : (r: Result<Option<Project>>)
    ensures fetched.Err? ==> r.Err?
    ensures fetched == Ok(None) ==> r == Ok(None)
    ensures fetched.Ok? && fetched.value.Some? ==>
      (taskRows.Err? <==> r.Err?)
      && (taskRows.Ok? ==> r == Ok(Some(ProjectFromRow(fetched.value.value, TasksFromRows(taskRows.value)))))
  {
    match fetched
    case Err(e) => Err(e)
    case Ok(None) => Ok(None)
    case Ok(Some(row)) =>
      match taskRows
      case Err(e) => Err(e)
      case Ok(rows) => Ok(Some(ProjectFromRow(row, TasksFromRows(rows))))
  }

  /** The argument of `createProject`. */
  datatype NewProjectInput = NewProjectInput(title: string, description: Option<string>, coverImage: Option<string>)

  /** The columns `createProject` inserts. */
  datatype ProjectInsert = ProjectInsert(
    title: string,
    description: Option<string>,
    cover_image: Option<string>,
    created_by: string)

  function ProjectInsertOf(user: User, input: NewProjectInput): (r: ProjectInsert)
    ensures r.created_by == user.id && r.title == input.title
    ensures r.description == OrAbsent(input.description) && r.cover_image == OrAbsent(input.coverImage)
  {
    ProjectInsert(input.title, OrAbsent(input.description), OrAbsent(input.coverImage), user.id)
  }

  /**
   * `createProject`: without a signed-in user it rejects before anything is sent; otherwise the
   * insert is sent and, when the store answers with the new row's id and time, the new project
   * is returned with no tasks. The first component is what was sent.
   */
  function CreateProject(user: Option<User>, input: NewProjectInput, stored: Result<(string, Timestamp)>)
    : (r: (Option<ProjectInsert>, Result<Project>))
    ensures user.None? ==> r.0 == None && r.1 == Err("User not authenticated")
    ensures user.Some? ==> r.0 == Some(ProjectInsertOf(user.value, input))
    ensures user.Some? && stored.Err? ==> r.1.Err?
    ensures user.Some? && stored.Ok? ==>
      && r.1.Ok?
      && r.1.value.id == stored.value.0 && r.1.value.tasks == []
      && r.1.value.title == input.title
      && r.1.value.description == OrAbsent(input.description)
      && r.1.value.coverImage == OrAbsent(input.coverImage)
      && r.1.value.createdAt == stored.value.1
      && r.1.value.updatedAt == stored.value.1
  {
    match user
    case None => (None, Err("User not authenticated"))
    case Some(u) =>
      var ins := ProjectInsertOf(u, input);
      match stored
      case Err(e) => (Some(ins), Err(e))
      case Ok((id, now)) =>
        var row := ProjectRow(id, ins.title, ins.description, ins.cover_image, now, now, ins.created_by);
        OrAbsentOrAbsent(input.description);
        OrAbsentOrAbsent(input.coverImage);
        (Some(ins), Ok(ProjectFromRow(row, [])))
  }

  /** Reading back a text that was written as `s || null` gives `s || undefined`. */
  lemma OrAbsentOrAbsent(s: Option<string>)
    ensures OrAbsent(OrAbsent(s)) == OrAbsent(s)
  {
  }

  /** The columns `updateProject` sends. */
  datatype ProjectUpdate = ProjectUpdate(
    title: Update<string>,
    description: Update<Option<string>>,
    cover_image: Update<Option<string>>,
    updated_at: Timestamp)

  /** The update row of `updateProject`: `undefined` fields are dropped, `updated_at` is always stamped. */
  function ProjectUpdateOf(edit: ProjectEdit, now: Timestamp): (r: ProjectUpdate)
    ensures r.updated_at == now
    ensures r.title.Set? <==> edit.title.Some?
    ensures r.title.Set? ==> r.title.value == edit.title.value
    ensures r.description == (if edit.description.Some? then Set(edit.description) else Keep)
    ensures r.cover_image == (if edit.coverImage.Some? then Set(edit.coverImage) else Keep)
  {
    ProjectUpdate(
      if edit.title.Some? then Set(edit.title.value) else Keep,
      if edit.description.Some? then Set(edit.description) else Keep,
      if edit.coverImage.Some? then Set(edit.coverImage) else Keep,
      now)
  }

  function ApplyProjectUpdate(row: ProjectRow, u: ProjectUpdate): ProjectRow {
    row.(title := Updated(row.title, u.title),
         description := Updated(row.description, u.description),
         cover_image := Updated(row.cover_image, u.cover_image),
         updated_at := u.updated_at)
  }

  /**
   * The store and the project page agree on an edit whose texts are all non-empty. An edit that
   * leaves the description `undefined` clears it on the page but keeps it in the store.
   */
  lemma ProjectUpdateAgreesWithPage(row: ProjectRow, tasks: seq<Task>, edit: ProjectEdit, now: Timestamp)
    ensures Truthy(edit.title) && Truthy(edit.description) && Truthy(edit.coverImage) ==>
      ProjectFromRow(ApplyProjectUpdate(row, ProjectUpdateOf(edit, now)), tasks)
      == ProjectPage.EditedProject(ProjectFromRow(row, tasks), edit, now)
    ensures edit.description.None? ==>
      ApplyProjectUpdate(row, ProjectUpdateOf(edit, now)).description == row.description
      && ProjectPage.EditedProject(ProjectFromRow(row, tasks), edit, now).description == None
  {
  }

  /** A row of the `profiles` table, which `getUserProfile` returns as it is. */
  datatype ProfileRow = ProfileRow(
    id: string,
    full_name: Option<string>,
    avatar_url: Option<string>,
    bio: Option<string>,
    age: Option<int>,
    occupation: Option<string>,
    date_of_birth: Option<Timestamp>,
    linkedin_url: Option<string>,
    twitter_url: Option<string>,
    github_url: Option<string>,
    created_at: Timestamp,
    updated_at: Timestamp)

  /** The object the profile page hands to `updateUserProfile`. */
  datatype ProfilePayload = ProfilePayload(
    fullName: Option<string>,
    age: Option<Text.NumberValue>,
    dateOfBirth: Option<Timestamp>,
    occupation: Option<string>,
    avatarUrl: Option<string>,
    bio: Option<string>,
    linkedinUrl: Option<string>,
    twitterUrl: Option<string>,
    githubUrl: Option<string>)

  /** The columns `updateUserProfile` sends. */
  datatype ProfileUpdate = ProfileUpdate(full_name: Update<string>, avatar_url: Update<string>, updated_at: Timestamp)

  /**
   * `updateUserProfile`: without a signed-in user it rejects; otherwise it updates the user's own
   * profile row with the name, the avatar and the time, and nothing else of the payload.
   */
  function UpdateUserProfile(user: Option<User>, payload: ProfilePayload, now: Timestamp)
    : (r: Result<(string, ProfileUpdate)>)
    ensures user.None? <==> r.Err?
    ensures r.Ok? ==> r.value.0 == user.value.id && r.value.1.updated_at == now
    ensures r.Ok? ==>
      && (r.value.1.full_name.Set? <==> payload.fullName.Some?)
      && (r.value.1.avatar_url.Set? <==> payload.avatarUrl.Some?)
    ensures r.Ok? && payload.fullName.Some? ==> r.value.1.full_name.value == payload.fullName.value
    ensures r.Ok? && payload.avatarUrl.Some? ==> r.value.1.avatar_url.value == payload.avatarUrl.value
  {
    match user
    case None => Err("User not authenticated")
    case Some(u) =>
      var fullName := if payload.fullName.Some? then Set(payload.fullName.value) else Keep;
      var avatarUrl := if payload.avatarUrl.Some? then Set(payload.avatarUrl.value) else Keep;
      Ok((u.id, ProfileUpdate(fullName, avatarUrl, now)))
  }

  /** Two payloads with the same name and avatar send the same update: every other field is ignored. */
  lemma ProfileExtrasIgnored(user: Option<User>, a: ProfilePayload, b: ProfilePayload, now: Timestamp)
    requires a.fullName == b.fullName && a.avatarUrl == b.avatarUrl
    ensures UpdateUserProfile(user, a, now) == UpdateUserProfile(user, b, now)
  {
  }
}
