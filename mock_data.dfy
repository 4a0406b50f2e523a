/**
 * The sample data of src/utils/mockData.ts and its two lookups.
 *
 * A date literal such as "2023-01-15" stands for the day it names, encoded as the number
 * 20230115 so that later days compare greater.
 */
module MockData {
  import opened JsValues
  import opened Types
  import opened Lists
  import TaskBoard

  /** The instant of a calendar day. */
  function Date(year: nat, month: nat, day: nat): Timestamp {
    year * 10000 + month * 100 + day
  }

  /** A sample task: every sample has a description and a due date, and no assignee or image. */
  function MockTask(id: string, title: string, description: string, status: TaskStatus, priority: Priority,
                    dueDate: Timestamp, createdAt: Timestamp, projectId: string): Task {
    Task(id, title, Some(description), status.Value(), priority.Value(), Some(dueDate), createdAt, None,
      projectId, None)
  }

  const Project1: Project := Project(
    "p1",
    "Website Redesign",
    Some("Complete overhaul of the company website with new branding"),
    Some("https://images.unsplash.com/photo-1486312338219-ce68d2c6f44d?ixlib=rb-1.2.1&auto=format&fit=crop&w=1352&q=80"),
    Date(2023, 1, 15),
    Date(2023, 6, 1),
    [
      MockTask("t1", "Create wireframes", "Design wireframes for homepage and product pages", COMPLETED, HIGH, Date(2023, 6, 20), Date(2023, 5, 15), "p1"),
      MockTask("t2", "Develop frontend components", "Build reusable UI components based on design system", IN_PROGRESS, MEDIUM, Date(2023, 7, 10), Date(2023, 5, 25), "p1"),
      MockTask("t3", "Implement backend APIs", "Develop REST APIs for the new website functionality", TODO, HIGH, Date(2023, 7, 15), Date(2023, 6, 1), "p1")])

  const Project2: Project := Project(
    "p2",
    "Mobile App Development",
    Some("Create a native mobile app for iOS and Android platforms"),
    Some("https://images.unsplash.com/photo-1556656793-08538906a9f8?ixlib=rb-1.2.1&auto=format&fit=crop&w=1350&q=80"),
    Date(2023, 2, 1),
    Date(2023, 5, 30),
    [
      MockTask("t4", "UI/UX Design", "Design user interface and experience for the mobile app", COMPLETED, HIGH, Date(2023, 3, 15), Date(2023, 2, 10), "p2"),
      MockTask("t5", "Frontend Development", "Develop frontend using React Native", IN_PROGRESS, HIGH, Date(2023, 7, 1), Date(2023, 3, 20), "p2"),
      MockTask("t6", "Backend Integration", "Integrate frontend with backend services", TODO, MEDIUM, Date(2023, 8, 1), Date(2023, 4, 1), "p2"),
      MockTask("t7", "Testing & QA", "Perform comprehensive testing on both platforms", TODO, LOW, Date(2023, 8, 15), Date(2023, 4, 15), "p2")])

  const Project3: Project := Project(
    "p3",
    "Content Marketing Campaign",
    Some("Q3 Content marketing campaign focused on product launch"),
    Some("https://images.unsplash.com/photo-1551836022-d5d88e9218df?ixlib=rb-1.2.1&auto=format&fit=crop&w=1350&q=80"),
    Date(2023, 4, 10),
    Date(2023, 6, 5),
    [
      MockTask("t8", "Content Strategy", "Develop overall content strategy and timeline", COMPLETED, HIGH, Date(2023, 4, 25), Date(2023, 4, 12), "p3"),
      MockTask("t9", "Blog Articles", "Write and publish 5 blog articles", IN_PROGRESS, MEDIUM, Date(2023, 7, 15), Date(2023, 5, 1), "p3"),
      MockTask("t10", "Social Media Plan", "Create social media content calendar", TODO, MEDIUM, Date(2023, 7, 10), Date(2023, 5, 5), "p3")])

  /** `mockProjects` */
  const MockProjects: seq<Project> := [Project1, Project2, Project3]

  /** Every sample task, project by project. */
  function MockTasks(): seq<Task> {
    Project1.tasks + Project2.tasks + Project3.tasks
  }

  /** Each sample task names the project that holds it. */
  lemma MockProjectIdsConsistent()
    ensures forall i, j :: 0 <= i < |MockProjects| && 0 <= j < |MockProjects[i].tasks| ==>
      MockProjects[i].tasks[j].projectId == MockProjects[i].id
  {
    assert forall j :: 0 <= j < |Project1.tasks| ==> Project1.tasks[j].projectId == "p1";
    assert forall j :: 0 <= j < |Project2.tasks| ==> Project2.tasks[j].projectId == "p2";
    assert forall j :: 0 <= j < |Project3.tasks| ==> Project3.tasks[j].projectId == "p3";
  }

  /** The ten sample task ids, in order. */
  const MockTaskIds: seq<string> := ["t1", "t2", "t3", "t4", "t5", "t6", "t7", "t8", "t9", "t10"]

  lemma MockTaskIdsListed()
    ensures |MockTasks()| == |MockTaskIds|
    ensures forall i :: 0 <= i < |MockTasks()| ==> MockTasks()[i].id == MockTaskIds[i]
  {
  }

  lemma MockTaskIdsDistinct()
    ensures forall i, j :: 0 <= i < j < |MockTaskIds| ==> MockTaskIds[i] != MockTaskIds[j]
  {
    assert forall i :: 0 <= i < 9 ==> |MockTaskIds[i]| == 2;
    assert forall i :: 0 <= i < 9 ==> MockTaskIds[i][1] == "123456789"[i];
  }

  /** The project ids p1..p3 and the task ids t1..t10 are pairwise distinct. */
  lemma MockIdsDistinct()
    ensures forall i, j :: 0 <= i < j < |MockProjects| ==> MockProjects[i].id != MockProjects[j].id
    ensures |MockTasks()| == 10 && UniqueIds(MockTasks())
  {
    MockTaskIdsListed();
    MockTaskIdsDistinct();
  }

  /** Every sample status and priority is a value of its enumeration. */
  lemma MockWellTyped()
    ensures AllWellTyped(MockTasks())
  {
    StatusValues(TODO);
    StatusValues(IN_PROGRESS);
    StatusValues(COMPLETED);
    PriorityValues(LOW);
    PriorityValues(MEDIUM);
    PriorityValues(HIGH);
  }

  /** The test `project.id === id`. */
  function HasId(id: string): Project -> bool {
    (p: Project) => p.id == id
  }

  /** `getProjectById(id)`: the first sample project with the id, or `undefined`. */
  function GetProjectById(id: string): (r: Option<Project>)
    ensures r.Some? <==> exists i :: 0 <= i < |MockProjects| && MockProjects[i].id == id
    ensures r.Some? ==> r.value in MockProjects && r.value.id == id
  {
    var r := Find(MockProjects, HasId(id));
    assert forall i :: 0 <= i < |MockProjects| && MockProjects[i].id == id ==>
      MockProjects[i] in MockProjects && HasId(id)(MockProjects[i]);
    assert r.Some? ==> exists i :: 0 <= i < |MockProjects| && MockProjects[i] == r.value;
    r
  }

  /** Looking up a sample project's id gives that project. */
  lemma GetProjectByIdFinds(k: nat)
    requires k < |MockProjects|
    ensures GetProjectById(MockProjects[k].id) == Some(MockProjects[k])
  {
    MockIdsDistinct();
    FindFirst(MockProjects, HasId(MockProjects[k].id), k);
  }

  /** `getTasksByStatus(tasks, status)`: exactly the tasks of the status, in their order. */
  function GetTasksByStatus(tasks: seq<Task>, status: TaskStatus): (r: seq<Task>)
    ensures forall t :: t in r <==> t in tasks && t.status == status.Value()
    ensures IsSubsequence(r, tasks)
    ensures r == TaskBoard.TasksWithStatus(tasks, status)
  {
    TaskBoard.ColumnExact(tasks, status);
    Filter(tasks, TaskBoard.HasStatus(status.Value()))
  }

  /** The mobile project's to-do column holds its last two tasks. */
  lemma MobileTodoColumn()
    ensures GetTasksByStatus(Project2.tasks, TODO) == [Project2.tasks[2], Project2.tasks[3]]
  {
    var ts := Project2.tasks;
    assert ts[1..][1..][1..][1..] == [];
  }
}
