/**
 * The domain records of the application (src/utils/types.ts) and the enumerations they use.
 *
 * A task's `status` and `priority` fields hold the strings they carry at run time: the
 * enumerations are string enums, and values read from the store are cast to them without a
 * check, so a task can carry a string that is none of the enumeration's values.
 */
module Types {
  import opened JsValues

  /** An instant. Dates are compared and copied, never computed with, so their encoding is left open. */
  type Timestamp = int

  datatype Priority = LOW | MEDIUM | HIGH {
    /** The string each member stands for. */
    function Value(): string {
      match this
      case LOW => "LOW"
      case MEDIUM => "MEDIUM"
      case HIGH => "HIGH"
    }
  }

  datatype TaskStatus = TODO | IN_PROGRESS | COMPLETED {
    function Value(): string {
      match this
      case TODO => "TODO"
      case IN_PROGRESS => "IN_PROGRESS"
      case COMPLETED => "COMPLETED"
    }
  }

  datatype Language = ENGLISH | SPANISH | FRENCH | GERMAN | CHINESE {
    /** The language code each member stands for. */
    function Code(): string {
      match this
      case ENGLISH => "en"
      case SPANISH => "es"
      case FRENCH => "fr"
      case GERMAN => "de"
      case CHINESE => "zh"
    }
  }

  const AllPriorities: seq<Priority> := [LOW, MEDIUM, HIGH]
  const AllStatuses: seq<TaskStatus> := [TODO, IN_PROGRESS, COMPLETED]
  const AllLanguages: seq<Language> := [ENGLISH, SPANISH, FRENCH, GERMAN, CHINESE]

  /** The member of TaskStatus a string stands for, if any. */
  function StatusOf(v: string): (r: Option<TaskStatus>)
    ensures r.Some? ==> r.value.Value() == v
  {
    if v == "TODO" then Some(TODO)
    else if v == "IN_PROGRESS" then Some(IN_PROGRESS)
    else if v == "COMPLETED" then Some(COMPLETED)
    else None
  }

  /** The member of Priority a string stands for, if any. */
  function PriorityOf(v: string): (r: Option<Priority>)
    ensures r.Some? ==> r.value.Value() == v
  {
    if v == "LOW" then Some(LOW)
    else if v == "MEDIUM" then Some(MEDIUM)
    else if v == "HIGH" then Some(HIGH)
    else None
  }

  /** Each status's string is its own name, so decoding it gives the status back. */
  lemma StatusValues(s: TaskStatus)
    ensures StatusOf(s.Value()) == Some(s)
    ensures s in AllStatuses
  {
    match s
    case TODO =>
    case IN_PROGRESS =>
    case COMPLETED =>
  }

  /** TaskStatus has exactly three members, with three different strings. */
  lemma StatusesDistinct(s: TaskStatus, t: TaskStatus)
    ensures s.Value() == t.Value() <==> s == t
    ensures |AllStatuses| == 3
  {
    StatusValues(s);
    StatusValues(t);
  }

  lemma PriorityValues(p: Priority)
    ensures PriorityOf(p.Value()) == Some(p)
    ensures p in AllPriorities
  {
    match p
    case LOW =>
    case MEDIUM =>
    case HIGH =>
  }

  /** Priority has exactly three members, with three different strings. */
  lemma PrioritiesDistinct(p: Priority, q: Priority)
    ensures p.Value() == q.Value() <==> p == q
    ensures |AllPriorities| == 3
  {
    PriorityValues(p);
    PriorityValues(q);
  }

  /** The five language codes are pairwise different. */
  lemma LanguageCodesDistinct(a: Language, b: Language)
    ensures a.Code() == b.Code() <==> a == b
    ensures |AllLanguages| == 5 && a in AllLanguages
  {
  }

  /** A task; `description`, `dueDate`, `assignedTo` and `image` are optional. */
  datatype Task = Task(
    id: string,
    title: string,
    description: Option<string>,
    status: string,
    priority: string,
    dueDate: Option<Timestamp>,
    createdAt: Timestamp,
    assignedTo: Option<string>,
    projectId: string,
    image: Option<string>)
  {
    /** The status and the priority are values of their enumerations. */
    predicate WellTyped() {
      StatusOf(status).Some? && PriorityOf(priority).Some?
    }
  }

  /**
   * A `Partial<Task>`: each key is absent or present. For the optional fields a present key can
   * carry `undefined` (`Present(None)`), which the spread copies like any other value.
   */
  datatype TaskPatch = TaskPatch(
    id: Field<string>,
    title: Field<string>,
    description: Field<Option<string>>,
    status: Field<string>,
    priority: Field<string>,
    dueDate: Field<Option<Timestamp>>,
    createdAt: Field<Timestamp>,
    assignedTo: Field<Option<string>>,
    projectId: Field<string>,
    image: Field<Option<string>>)
  {
    /** `{ ...task, ...patch }`: every present key overwrites, every absent key keeps the task's value. */
    function ApplyTo(task: Task): (r: Task)
      ensures r.id == id.Over(task.id) && r.title == title.Over(task.title)
      ensures r.description == description.Over(task.description)
      ensures r.status == status.Over(task.status) && r.priority == priority.Over(task.priority)
      ensures r.dueDate == dueDate.Over(task.dueDate) && r.createdAt == createdAt.Over(task.createdAt)
      ensures r.assignedTo == assignedTo.Over(task.assignedTo)
      ensures r.projectId == projectId.Over(task.projectId) && r.image == image.Over(task.image)
    {
      Task(
        id.Over(task.id), title.Over(task.title), description.Over(task.description),
        status.Over(task.status), priority.Over(task.priority), dueDate.Over(task.dueDate),
        createdAt.Over(task.createdAt), assignedTo.Over(task.assignedTo),
        projectId.Over(task.projectId), image.Over(task.image))
    }
  }

  /** The patch with no keys. */
  const EmptyPatch: TaskPatch :=
    TaskPatch(Absent, Absent, Absent, Absent, Absent, Absent, Absent, Absent, Absent, Absent)

  /** Spreading the empty object changes nothing. */
  lemma EmptyPatchIdentity(task: Task)
    ensures EmptyPatch.ApplyTo(task) == task
  {
  }

  /** Spreading the same patch twice is spreading it once. */
  lemma ApplyIdempotent(patch: TaskPatch, task: Task)
    ensures patch.ApplyTo(patch.ApplyTo(task)) == patch.ApplyTo(task)
  {
  }

  /** A patch that writes enumeration values (or none) keeps a well-typed task well typed. */
  lemma ApplyKeepsWellTyped(patch: TaskPatch, task: Task)
    requires task.WellTyped()
    requires patch.status.Present? ==> StatusOf(patch.status.value).Some?
    requires patch.priority.Present? ==> PriorityOf(patch.priority.value).Some?
    ensures patch.ApplyTo(task).WellTyped()
  {
  }

  /** The `{ title?, description?, coverImage? }` object a project edit carries. */
  datatype ProjectEdit = ProjectEdit(
    title: Option<string>,
    description: Option<string>,
    coverImage: Option<string>)

  /** A project owns an ordered list of tasks. */
  datatype Project = Project(
    id: string,
    title: string,
    description: Option<string>,
    coverImage: Option<string>,
    createdAt: Timestamp,
    updatedAt: Timestamp,
    tasks: seq<Task>)

  datatype UserProfile = UserProfile(
    id: string,
    fullName: string,
    avatarUrl: Option<string>,
    createdAt: Timestamp,
    updatedAt: Timestamp,
    bio: Option<string>,
    linkedinUrl: Option<string>,
    twitterUrl: Option<string>,
    githubUrl: Option<string>,
    age: Option<int>,
    occupation: Option<string>,
    dateOfBirth: Option<Timestamp>)

  /** The signed-in user, as the authentication service reports it. */
  datatype User = User(id: string, email: Option<string>)

  /** A team member's employment status, shown with the strings below. */
  datatype MemberStatus = FullTime | PartTime | Internship {
    function Label(): string {
      match this
      case FullTime => "Full Time"
      case PartTime => "Part Time"
      case Internship => "Internship"
    }
  }

  /**
   * A row of the team directory. The modal that edits it imports this type from
   * src/utils/types.ts, which does not declare it; the fields are the ones the modal reads.
   */
  datatype TeamMember = TeamMember(
    id: string,
    name: string,
    status: MemberStatus,
    employeeId: string,
    email: string,
    role: string)

  /** All tasks of a list are well typed. */
  predicate AllWellTyped(tasks: seq<Task>) {
    forall i :: 0 <= i < |tasks| ==> tasks[i].WellTyped()
  }

  /** No two tasks of a list share an id. */
  predicate UniqueIds(tasks: seq<Task>) {
    forall i, j :: 0 <= i < j < |tasks| ==> tasks[i].id != tasks[j].id
  }
}
