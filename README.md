# PR-Management: a verified model of the task-board application

PR-Management is a browser application for managing projects. Each project holds tasks on a
three-column board: to do, in progress and completed. Tasks move between columns by drag and drop
and are edited in dialogs. A hosted backend stores everything. This project models the part of the
application that decides things, and proves properties of that model:

- the drag-and-drop hook and the board's drop guard;
- the partition of a project's tasks into the three columns and the column rendering;
- the project page's optimistic handlers: create, update, delete, drag, and the project edit, with
  their failure paths;
- the project statistics: status and priority counts, and the completion percentage;
- the dashboard's search filter and the prepend of a created project;
- the sample data and its two lookups;
- the row-to-record mappings of the data service;
- the create and edit dialogs for tasks, projects and team members, the delete-account
  confirmation of the settings page, and the profile form;
- the active-link rules of the sidebar and of the mobile bottom bar;
- the translation lookup and the route guard.

Every remote call (the database, the authentication service, the image upload) becomes a
parameter of the operation that makes it: a `bool` saying whether the call resolved, or a
`Result`/`Option` holding what it returned. `new Date()` becomes a `now: Timestamp` parameter.
React state becomes the fields of a `class`. Each setter and handler is a method whose `ensures`
gives the whole new state. Pure rules are functions and lemmas.

One Dafny module per source file:

| Dafny file | source file |
|---|---|
| `js_values.dfy` (`JsValues`) | JavaScript's `undefined`, `null` and truthiness, and spread objects, as used throughout |
| `text.dfy` (`Text`) | `trim`, `toLowerCase`, `includes`, `startsWith`, `charAt(0).toUpperCase()`, `toString` and `parseInt` |
| `lists.dfy` (`Lists`) | `filter`, `find` and counting |
| `types.dfy` (`Types`) | `src/utils/types.ts` |
| `drag_and_drop.dfy` (`DragAndDropHook`) | `src/hooks/useDragAndDrop.tsx` |
| `task_board.dfy` (`TaskBoard`) | `src/components/TaskBoard.tsx` |
| `status_column.dfy` (`StatusColumn`) | `src/components/StatusColumn.tsx` |
| `project_page.dfy` (`ProjectPage`) | `src/pages/ProjectPage.tsx` |
| `project_card.dfy` (`ProjectCard`) | `src/components/ProjectCard.tsx` |
| `index_page.dfy` (`IndexPage`) | `src/pages/Index.tsx` |
| `mock_data.dfy` (`MockData`) | `src/utils/mockData.ts` |
| `supabase_service.dfy` (`SupabaseService`) | `src/services/supabaseService.ts` |
| `new_task_modal.dfy`, `edit_task_modal.dfy`, `new_project_modal.dfy`, `edit_project_modal.dfy`, `team_member_modal.dfy` | the dialogs of the same names in `src/components/` |
| `settings_page.dfy`, `profile_page.dfy` | `src/pages/SettingsPage.tsx`, `src/pages/ProfilePage.tsx` |
| `sidebar.dfy`, `mobile_bottom_bar.dfy` | `src/components/Sidebar.tsx`, `src/components/MobileBottomBar.tsx` |
| `language_context.dfy` (`LanguageContext`) | `src/context/LanguageContext.tsx` |
| `auth_guard.dfy` (`AuthGuard`) | `src/components/AuthGuard.tsx` |

Modelling decisions:

- **Statuses and priorities are strings.** `Task.status` and `Task.priority` hold the string the
  task actually carries. The source reads them from the database with an unchecked
  `as TaskStatus` cast, and the drag handlers pass a droppable id as the status. The enumerations
  are datatypes with `Value()`, and `StatusOf`/`PriorityOf` decode a string. Properties that hold
  only for enumeration values, such as "every task is in exactly one column", require
  `AllWellTyped`.
- **Partial objects.** A `Partial<Task>` is a `TaskPatch` with one `Field` per key. A field is
  `Absent` when the key is missing and `Present(v)` when the key is there. An optional field
  given as `undefined` is `Present(None)`. An object spread overwrites a present key even when its
  value is `undefined`; this is `Field.Over`. An update row drops an `undefined` property when it
  is serialised, so it becomes `Keep`, and `null` becomes `Set(None)`.
- **Rounding.** `Math.round(c / t * 100)` is the exact half-up `(200c + t) / (2t)`.
- **Number parsing.** `parseInt` is modelled with white-space skipping, one sign, the `0x`
  prefix and the longest digit run. The result is `NaN` when there is no digit.
- **Where the code and its description differ, the model follows the code:**
  - A failed drag update is reverted locally from the handler's pre-move copy of the project; the
    project is not re-fetched.
  - A failed task update or delete keeps the optimistic state when the re-fetch returns nothing.
  - The settings page's language is its own state. It is not the language context's.
  - `AGE_OPTIONS` is 18 to 67, although the comment beside it says 18 to 100.
- **Project deletes always resolve; project updates may not.** `handleProjectDelete` of
  `ProjectPage.tsx` catches its own error, so inside the application the dialog's delete callback
  always resolves and a failed delete still navigates to "/". `handleProjectUpdate` catches the
  failed update too, but its `catch` awaits `getProjectById`, which throws when the read fails
  (`src/services/supabaseService.ts:42-45`). Then the update callback rejects, and the dialog's
  "stays open" branch is reached. ProjectPage.ProjectPage.HandleProjectUpdate treats a throwing
  re-fetch like one that finds nothing (`refreshed` is `None`): the page keeps the optimistic
  edit in both cases, and the model does not record that the handler's promise rejects.
  `EditProjectModal` takes `settled` as a parameter and models both of its branches.

## Model

| member | source | states |
|---|---|---|
| Types.StatusOf | src/utils/types.ts:7-11 | decoding a string gives only a status whose value is that string |
| Types.PriorityOf | src/utils/types.ts:1-5 | decoding a string gives only a priority whose value is that string |
| Types.StatusValues | src/utils/types.ts:7-11 | each of the three statuses decodes back from its own string value |
| Types.StatusesDistinct | src/utils/types.ts:7-11 | exactly three statuses, with pairwise-distinct string values |
| Types.PriorityValues | src/utils/types.ts:1-5 | each of the three priorities decodes back from its own string value |
| Types.PrioritiesDistinct | src/utils/types.ts:1-5 | exactly three priorities, with pairwise-distinct string values |
| Types.LanguageCodesDistinct | src/utils/types.ts:58-64 | five languages whose codes en, es, fr, de, zh are pairwise distinct |
| Types.TaskPatch.ApplyTo | src/pages/ProjectPage.tsx:104 | `{ ...task, ...patch }`: every key present in the patch overwrites, even with undefined; every absent key keeps the task's value |
| Types.EmptyPatchIdentity | src/pages/ProjectPage.tsx:104 | spreading an empty patch gives the task back |
| Types.ApplyIdempotent | src/pages/ProjectPage.tsx:104 | spreading the same patch twice is spreading it once |
| Types.ApplyKeepsWellTyped | src/utils/types.ts:13-24 | a patch whose status and priority are enumeration values keeps a well-typed task well-typed |
| DragAndDropHook.SetStatus | src/hooks/useDragAndDrop.tsx:10-15 | same length, order and ids; tasks with the id get the new status, and nothing else about any task changes |
| DragAndDropHook.SetStatusAbsent | src/hooks/useDragAndDrop.tsx:10-15 | moving an id that is not in the list leaves the list unchanged |
| DragAndDropHook.SetStatusIdempotent | src/hooks/useDragAndDrop.tsx:10-15 | moving the same id to the same status twice is moving it once |
| DragAndDropHook.SetStatusToCurrent | src/hooks/useDragAndDrop.tsx:10-15 | moving a task to the status it already has leaves the list unchanged |
| DragAndDropHook.DragAndDrop.constructor | src/hooks/useDragAndDrop.tsx:5-6 | the hook's state starts as `initialTasks` |
| DragAndDropHook.DragAndDrop.SetTasks | src/hooks/useDragAndDrop.tsx:6 | `setTasks` replaces the list |
| DragAndDropHook.DragAndDrop.MoveTask | src/hooks/useDragAndDrop.tsx:10-15 | `moveTask` makes the list `SetStatus` of the old list |
| DragAndDropHook.DragAndDrop.OnDragEnd | src/hooks/useDragAndDrop.tsx:36-48 | no destination, or the same column and index, changes nothing; otherwise the drop is `moveTask(draggableId, destination.droppableId)` |
| TaskBoard.TasksWithStatus | src/components/TaskBoard.tsx:18-26 | specified by TaskBoard.ColumnExact, TaskBoard.ColumnsPartition and TaskBoard.ColumnCardsDistinct |
| TaskBoard.ColumnCardsDistinct | src/components/TaskBoard.tsx:18-26 | a column of a project with unique task ids has unique ids, so its cards have distinct keys |
| TaskBoard.ColumnExact | src/components/TaskBoard.tsx:18-26 | a column holds exactly the tasks of its status (both directions), as a subsequence in the original order |
| TaskBoard.ColumnsPartition | src/components/TaskBoard.tsx:18-26 | with enumeration statuses the three column sizes add up to the task count, and every task is in exactly one column |
| TaskBoard.HandleDragEnd | src/components/TaskBoard.tsx:28-46 | the callback is called iff there is a callback and the drop is not a no-op, and it receives `(draggableId, destination.droppableId)` |
| TaskBoard.ReorderInColumnReports | src/components/TaskBoard.tsx:32-46 | a reorder inside one column still calls the callback, with that column's unchanged status |
| TaskBoard.DropLandsInColumn | src/components/TaskBoard.tsx:41-46 | after a drop onto a column, the moved task shows in that column and in no other |
| StatusColumn.StatusTitles | src/components/StatusColumn.tsx:18-29 | the titles are "To Do", "In Progress" and "Completed" |
| StatusColumn.DroppableId | src/components/StatusColumn.tsx:55 | a column's droppable id decodes back to the column's status |
| StatusColumn.DroppableIdsDistinct | src/components/StatusColumn.tsx:55 | two columns have the same droppable id iff they are the same column |
| StatusColumn.CountBadge | src/components/StatusColumn.tsx:50 | the badge shows `tasks.length`; its partner is ProjectCard.BadgeCountsStatus |
| StatusColumn.Cards | src/components/StatusColumn.tsx:64-71 | one card per task, in list order, with indexes 0..n-1; its partner is StatusColumn.CardKeysDistinct |
| StatusColumn.CardKeysDistinct | src/components/StatusColumn.tsx:64-71 | with unique task ids, the cards' React keys and their drag indexes are pairwise distinct |
| StatusColumn.StatusTitle | src/components/StatusColumn.tsx:18-29 | specified by StatusColumn.StatusTitles: one fixed title per status |
| ProjectPage.PatchTasks | src/pages/ProjectPage.tsx:102-107 | same length and order; tasks with the id become the patch spread over them, and all others are unchanged |
| ProjectPage.PatchTasksIdempotent | src/pages/ProjectPage.tsx:102-107 | applying the same update twice is applying it once |
| ProjectPage.PatchTasksAbsent | src/pages/ProjectPage.tsx:102-107 | an update for an id that is not in the list changes nothing |
| ProjectPage.RemoveTask | src/pages/ProjectPage.tsx:136 | specified by ProjectPage.RemoveTaskExact |
| ProjectPage.RemoveTaskExact | src/pages/ProjectPage.tsx:136 | delete keeps exactly the tasks with another id (both directions), in their order; deleting an absent id changes nothing |
| ProjectPage.RemovePresentTask | src/pages/ProjectPage.tsx:136 | with unique ids, deleting a listed task removes exactly one task |
| ProjectPage.RevertedDrag | src/pages/ProjectPage.tsx:251-267 | specified by ProjectPage.RevertRestores and by ProjectPage.ProjectPage.HandleTaskDragEnd |
| ProjectPage.RevertRestores | src/pages/ProjectPage.tsx:251-267 | with unique ids and non-empty statuses, the revert after a failed drag gives back exactly the pre-move project |
| ProjectPage.PriorityCountsSum | src/pages/ProjectPage.tsx:356-377 | with enumeration priorities, the high, medium and low counts add up to the task count |
| ProjectPage.Progress | src/pages/ProjectPage.tsx:291-296 | the page's percentage equals the project card's; it is 0 without tasks and lies in 0..100 |
| ProjectPage.EditedProject | src/pages/ProjectPage.tsx:177-183 | the title is kept when the new one is empty or missing; description and cover image are replaced, even by undefined; `updatedAt` is now; nothing else changes |
| ProjectPage.ProjectPage.constructor | src/pages/ProjectPage.tsx:22-25 | no project yet; loading |
| ProjectPage.ProjectPage.LoadProject | src/pages/ProjectPage.tsx:27-60 | without a route id nothing happens; a found project is shown; a missing project or an error navigates to "/"; loading ends either way |
| ProjectPage.ProjectPage.Refresh | src/pages/ProjectPage.tsx:123-128 | a re-fetched project replaces the shown one only when there is a route id and the fetch returned a project |
| ProjectPage.ProjectPage.HandleCreateTask | src/pages/ProjectPage.tsx:71-92 | a created task is appended at the end; on failure, or with no project, nothing changes |
| ProjectPage.ProjectPage.HandleTaskUpdate | src/pages/ProjectPage.tsx:95-130 | the patch is merged at once; on failure the re-fetched project replaces it if one comes back, and otherwise the optimistic state stays |
| ProjectPage.ProjectPage.HandleTaskDelete | src/pages/ProjectPage.tsx:132-164 | the task is removed at once; on failure the re-fetched project replaces it if one comes back |
| ProjectPage.ProjectPage.HandleProjectUpdate | src/pages/ProjectPage.tsx:166-201 | the edit is applied at once with `updatedAt` = now; on failure the re-fetch rule applies |
| ProjectPage.ProjectPage.HandleProjectDelete | src/pages/ProjectPage.tsx:203-215 | navigates to "/" iff the delete succeeded, and changes no state |
| ProjectPage.ProjectPage.HandleTaskDragEnd | src/pages/ProjectPage.tsx:217-270 | the task takes the new status at once; on failure the handler's pre-move copy is restored with the original status |
| ProjectCard.CountTasks | src/components/ProjectCard.tsx:15-25 | the `reduce` loop returns the three status counts and `total == tasks.length` |
| ProjectCard.BadgeCountsStatus | src/components/ProjectCard.tsx:15-25 | the badge over the board column of a status equals the card's counter of that status; with enumeration statuses the three badges add up to the total |
| ProjectCard.CountsSum | src/components/ProjectCard.tsx:15-25 | with enumeration statuses, todo + in progress + completed = total |
| ProjectCard.ProgressPercentage | src/components/ProjectCard.tsx:28-29 | 0 without tasks; otherwise the integer nearest to `100 * completed / total`, halves rounded up |
| ProjectCard.ProgressBounds | src/components/ProjectCard.tsx:28-29 | the percentage lies in 0..100; it is 100 when every task is completed and 0 when none is |
| ProjectCard.CardProgressBounds | src/components/ProjectCard.tsx:28-29 | a project's card shows 0 without tasks, and always a value in 0..100 |
| ProjectCard.ProjectLink | src/components/ProjectCard.tsx:101 | the link is "/project/" followed by exactly the project id |
| ProjectCard.ProjectLinkInjective | src/components/ProjectCard.tsx:101 | different projects get different links |
| IndexPage.EmptyQueryKeepsAll | src/pages/Index.tsx:65-70 | an empty query keeps every project |
| IndexPage.FilterProjects | src/pages/Index.tsx:65-70 | specified by IndexPage.FilterProjectsExact and IndexPage.FilterProjectsOrderAndIdempotent |
| IndexPage.FilterProjectsExact | src/pages/Index.tsx:66-69 | a project is kept iff its lower-cased title, or its present lower-cased description, contains the lower-cased query |
| IndexPage.FilterProjectsOrderAndIdempotent | src/pages/Index.tsx:65-70 | the result is an order-preserving subsequence, and filtering it again changes nothing |
| IndexPage.QueryCaseInsensitive | src/pages/Index.tsx:66-69 | lower-casing the query first does not change the result |
| IndexPage.ProjectsIndex.constructor | src/pages/Index.tsx:13-15 | no projects, an empty query, loading |
| IndexPage.ProjectsIndex.LoadProjects | src/pages/Index.tsx:19-40 | only with a user: fetched projects replace the list, a failure keeps it, and loading ends |
| IndexPage.ProjectsIndex.SetSearchQuery | src/pages/Index.tsx:90 | typing changes only the query |
| IndexPage.ProjectsIndex.HandleCreateProject | src/pages/Index.tsx:42-63 | a created project goes first; a failure leaves the list unchanged |
| IndexPage.CreatedProjectShownFirst | src/pages/Index.tsx:49 | a created project that matches the query is shown first, ahead of the previous results |
| MockData.MockProjectIdsConsistent | src/utils/mockData.ts:3-137 | every sample task's project id is the id of the project that contains it |
| MockData.MockTaskIdsListed | src/utils/mockData.ts:3-137 | the sample tasks' ids are t1..t10, in order |
| MockData.MockTaskIdsDistinct | src/utils/mockData.ts:3-137 | the ids t1..t10 are pairwise distinct |
| MockData.MockIdsDistinct | src/utils/mockData.ts:3-137 | the project ids p1..p3 are pairwise distinct, and there are ten sample tasks with unique ids |
| MockData.MockWellTyped | src/utils/mockData.ts:3-137 | every sample task has an enumeration status and priority |
| MockData.GetProjectById | src/utils/mockData.ts:139-141 | a project comes back iff some sample project has the id, and it is a sample project with that id |
| MockData.GetProjectByIdFinds | src/utils/mockData.ts:139-141 | looking up a sample project's id returns that very project |
| MockData.GetTasksByStatus | src/utils/mockData.ts:143-145 | exactly the tasks with the status (both directions), in order; the same list as the board's column |
| MockData.MobileTodoColumn | src/utils/mockData.ts:143-145 | the second project's to-do tasks are its last two tasks |
| SupabaseService.TaskFromRow | src/services/supabaseService.ts:149-160 | a null or empty description, assignee or image becomes absent; status and priority are copied unchecked |
| SupabaseService.TasksFromRows | src/services/supabaseService.ts:149-160 | one task per row, in row order |
| SupabaseService.TaskRowRoundTrip | src/services/supabaseService.ts:149-160 | a read task has no empty optional field, and such a task survives the write-then-read round trip |
| SupabaseService.ReadKeepsUnknownStatus | src/services/supabaseService.ts:153-154 | a row whose status is outside the enumeration is read into a task that keeps that status and is not well-typed |
| SupabaseService.CreateTaskInsert | src/services/supabaseService.ts:202-210 | an empty or absent description and image become null; an absent due date becomes null; status and priority are the enumeration strings |
| SupabaseService.CreateTaskRoundTrip | src/services/supabaseService.ts:191-231 | the task read back from the inserted row has the form's values and an enumeration status and priority |
| SupabaseService.Sent | src/services/supabaseService.ts:247-255 | a present key is sent; an absent key leaves the column as it is |
| SupabaseService.SentOptional | src/services/supabaseService.ts:247-255 | an optional key is sent only when it is present with a value |
| SupabaseService.TaskUpdateOf | src/services/supabaseService.ts:247-255 | `due_date` is always written, null when the patch has no date; the other keys follow `Sent` |
| SupabaseService.StatusOnlyPatchClearsDueDate | src/services/supabaseService.ts:251 | a status-only update stores a null due date |
| SupabaseService.ClearedDescriptionKeptInStore | src/services/supabaseService.ts:249 | a description cleared to undefined empties it on the page but is not sent, so any non-empty stored description is read back unchanged |
| SupabaseService.UpdateAgreesWithPage | src/services/supabaseService.ts:233-262 | for a patch with a due date and with no cleared optional fields, the stored row read back equals the page's optimistic task |
| SupabaseService.ProjectFromRow | src/services/supabaseService.ts:52-60 | empty or null description and cover image become absent; the given tasks are attached |
| SupabaseService.GetProjectById | src/services/supabaseService.ts:35-61 | an error fails; no row gives null; a row gives the project with the fetched tasks, or fails when fetching the tasks fails |
| SupabaseService.ProjectInsertOf | src/services/supabaseService.ts:76-81 | `created_by` is the user id; an empty description and cover image become null |
| SupabaseService.CreateProject | src/services/supabaseService.ts:63-99 | no user: nothing is inserted and it fails with "User not authenticated"; otherwise the insert is sent and the stored project comes back with no tasks, and its creation and update times are both the stored time |
| SupabaseService.OrAbsentOrAbsent | src/services/supabaseService.ts:93-94 | mapping empty to absent twice is mapping it once |
| SupabaseService.ProjectUpdateOf | src/services/supabaseService.ts:111-116 | `updated_at` is always now; title, description and cover image are sent only when given |
| SupabaseService.ProjectUpdateAgreesWithPage | src/services/supabaseService.ts:101-123 | a full edit is stored as the page shows it; a cleared description is kept in the store although the page clears it |
| SupabaseService.UpdateUserProfile | src/services/supabaseService.ts:312-335 | no user: it fails; otherwise only `full_name`, `avatar_url` and `updated_at` = now are sent, for the user's id |
| SupabaseService.ProfileExtrasIgnored | src/services/supabaseService.ts:324-328 | two payloads with the same name and avatar send the same update |
| NewTaskModal.Submission | src/components/NewTaskModal.tsx:52-72 | a payload iff the title is not blank after trimming; it is the current values, untrimmed, with the dialog's project id |
| NewTaskModal.SubmissionNeedsVisibleTitle | src/components/NewTaskModal.tsx:55-62 | a submit goes through iff the title has a non-space character |
| NewTaskModal.CreatedTaskWellTyped | src/components/NewTaskModal.tsx:64-72 | the task created from the dialog carries the chosen status and priority as enumeration values, and the dialog's project id |
| NewTaskModal.NewTaskModal.constructor | src/components/NewTaskModal.tsx:42-48 | empty title and description, MEDIUM, TODO, no date, no image, closed |
| NewTaskModal.NewTaskModal.SetTitle | src/components/NewTaskModal.tsx:108 | changes only the title |
| NewTaskModal.NewTaskModal.SetDescription | src/components/NewTaskModal.tsx:118 | changes only the description |
| NewTaskModal.NewTaskModal.SetPriority | src/components/NewTaskModal.tsx:130 | changes only the priority |
| NewTaskModal.NewTaskModal.SetDueDate | src/components/NewTaskModal.tsx:182-185 | changes only the due date |
| NewTaskModal.NewTaskModal.SetStatus | src/components/NewTaskModal.tsx:198 | changes only the status |
| NewTaskModal.NewTaskModal.SetImage | src/components/NewTaskModal.tsx:235 | changes only the image |
| NewTaskModal.NewTaskModal.SetOpen | src/components/NewTaskModal.tsx:90 | changes only whether the dialog is open |
| NewTaskModal.NewTaskModal.Submit | src/components/NewTaskModal.tsx:52-87 | emits `Submission`; a blank title changes nothing, a valid submit resets every field and closes |
| NewProjectModal.Submission | src/components/NewProjectModal.tsx:33-45 | a payload iff the title is not blank after trimming; title, description and cover unchanged |
| NewProjectModal.CreatedProjectFromForm | src/components/NewProjectModal.tsx:45 | the insert sent for the dialog's submission records the user as creator; the created project has the form's title, no tasks, and its description is absent exactly when the form's was empty |
| NewProjectModal.NewProjectModal.constructor | src/components/NewProjectModal.tsx:27-30 | empty title and description, no cover, closed |
| NewProjectModal.NewProjectModal.SetTitle | src/components/NewProjectModal.tsx:77 | changes only the title |
| NewProjectModal.NewProjectModal.SetDescription | src/components/NewProjectModal.tsx:87 | changes only the description |
| NewProjectModal.NewProjectModal.SetCoverImage | src/components/NewProjectModal.tsx:95 | changes only the cover image |
| NewProjectModal.NewProjectModal.SetOpen | src/components/NewProjectModal.tsx:59 | changes only whether the dialog is open |
| NewProjectModal.NewProjectModal.Submit | src/components/NewProjectModal.tsx:33-56 | emits `Submission`; a blank title changes nothing; a valid submit resets and closes |
| EditTaskModal.FormOf | src/components/EditTaskModal.tsx:60-65 | the fields start from the task; an absent description shows as "" |
| EditTaskModal.PatchOf | src/components/EditTaskModal.tsx:93-100 | the update sends every field; an empty description is sent as undefined |
| EditTaskModal.Submission | src/components/EditTaskModal.tsx:81-100 | `onTaskUpdate(task.id, …)` iff the title is not blank after trimming |
| EditTaskModal.UnchangedEditKeepsTask | src/components/EditTaskModal.tsx:60-100 | saving an untouched dialog gives the task back, except that an empty description becomes absent |
| EditTaskModal.EditAppliesForm | src/components/EditTaskModal.tsx:93-100 | the updated task carries exactly the dialog's values and keeps id, creation date, project and assignee |
| EditTaskModal.EditTaskModal.constructor | src/components/EditTaskModal.tsx:60-68 | fields from the task; both dialogs closed |
| EditTaskModal.EditTaskModal.SyncFromTask | src/components/EditTaskModal.tsx:72-79 | a new task prop resyncs all six fields and leaves the dialogs alone |
| EditTaskModal.EditTaskModal.SetTitle | src/components/EditTaskModal.tsx:146 | changes only the title |
| EditTaskModal.EditTaskModal.SetDescription | src/components/EditTaskModal.tsx:156 | changes only the description |
| EditTaskModal.EditTaskModal.SetPriority | src/components/EditTaskModal.tsx:167 | changes only the priority |
| EditTaskModal.EditTaskModal.SetDueDate | src/components/EditTaskModal.tsx:225-228 | changes only the due date |
| EditTaskModal.EditTaskModal.SetStatus | src/components/EditTaskModal.tsx:240 | changes only the status |
| EditTaskModal.EditTaskModal.SetImage | src/components/EditTaskModal.tsx:283 | changes only the image |
| EditTaskModal.EditTaskModal.SetOpen | src/components/EditTaskModal.tsx:125 | changes only whether the dialog is open |
| EditTaskModal.EditTaskModal.SetDeleteDialogOpen | src/components/EditTaskModal.tsx:289 | changes only whether the delete confirmation is open |
| EditTaskModal.EditTaskModal.Submit | src/components/EditTaskModal.tsx:81-108 | emits `Submission`; the dialog closes only after a valid submit |
| EditTaskModal.EditTaskModal.HandleDelete | src/components/EditTaskModal.tsx:110-115 | asks to delete `task.id` and closes both dialogs |
| EditProjectModal.FieldsOf | src/components/EditProjectModal.tsx:49-53 | the fields start from the project; an absent description shows as "" |
| EditProjectModal.EditOf | src/components/EditProjectModal.tsx:79-83 | the edit sends the title and cover; an empty description is sent as undefined |
| EditProjectModal.Submission | src/components/EditProjectModal.tsx:66-83 | `onProjectUpdate(project.id, …)` iff the title is not blank after trimming |
| EditProjectModal.UnchangedEditKeepsProject | src/components/EditProjectModal.tsx:49-83 | for a project whose title is not blank and whose description is not the empty string, saving an untouched dialog only restamps `updatedAt` on the page |
| EditProjectModal.EditProjectModal.constructor | src/components/EditProjectModal.tsx:49-55 | fields from the project; both dialogs closed |
| EditProjectModal.EditProjectModal.SyncFromProject | src/components/EditProjectModal.tsx:60-64 | a new project prop resyncs the fields |
| EditProjectModal.EditProjectModal.SetTitle | src/components/EditProjectModal.tsx:145 | changes only the title |
| EditProjectModal.EditProjectModal.SetDescription | src/components/EditProjectModal.tsx:155 | changes only the description |
| EditProjectModal.EditProjectModal.SetCoverImage | src/components/EditProjectModal.tsx:164 | changes only the cover image |
| EditProjectModal.EditProjectModal.SetOpen | src/components/EditProjectModal.tsx:127 | changes only whether the dialog is open |
| EditProjectModal.EditProjectModal.SetDeleteDialogOpen | src/components/EditProjectModal.tsx:172 | changes only whether the delete confirmation is open |
| EditProjectModal.EditProjectModal.Submit | src/components/EditProjectModal.tsx:66-99 | emits `Submission`; the dialog closes only when the update resolves |
| EditProjectModal.EditProjectModal.HandleDelete | src/components/EditProjectModal.tsx:101-122 | a resolved delete closes both dialogs and navigates to "/"; a rejected one changes neither |
| TeamMemberModal.FormOf | src/components/TeamMemberModal.tsx:46-56 | opening with a member copies its five fields |
| TeamMemberModal.CallFor | src/components/TeamMemberModal.tsx:71-105 | a call iff all four text fields are non-blank; update with the member's id when there is a member, create otherwise; the untrimmed values are sent |
| TeamMemberModal.CallNeedsVisibleFields | src/components/TeamMemberModal.tsx:71-83 | no call iff one of name, employee id, email or role is blank after trimming |
| TeamMemberModal.ResubmitUpdatesMember | src/components/TeamMemberModal.tsx:93-105 | saving a member's dialog untouched updates that member with its own values |
| TeamMemberModal.TeamMemberModal.constructor | src/components/TeamMemberModal.tsx:36-56 | the form is the member's or the empty form; not submitting |
| TeamMemberModal.TeamMemberModal.ResetForm | src/components/TeamMemberModal.tsx:58-64 | "" strings and "Full Time", nothing else changes |
| TeamMemberModal.TeamMemberModal.Populate | src/components/TeamMemberModal.tsx:46-56 | opening with a member copies its fields; without one the form resets |
| TeamMemberModal.TeamMemberModal.SetName | src/components/TeamMemberModal.tsx:136 | changes only the name |
| TeamMemberModal.TeamMemberModal.SetStatus | src/components/TeamMemberModal.tsx:146-150 | changes only the status |
| TeamMemberModal.TeamMemberModal.SetEmployeeId | src/components/TeamMemberModal.tsx:166 | changes only the employee id |
| TeamMemberModal.TeamMemberModal.SetEmail | src/components/TeamMemberModal.tsx:178 | changes only the email |
| TeamMemberModal.TeamMemberModal.SetRole | src/components/TeamMemberModal.tsx:189 | changes only the role |
| TeamMemberModal.TeamMemberModal.Submit | src/components/TeamMemberModal.tsx:66-119 | emits `CallFor`; `isSubmitting` ends false on every path; success resets and closes, failure keeps fields and dialog |
| SettingsPage.DeleteButtonDisabled | src/pages/SettingsPage.tsx:195-197 | disabled iff the typed email differs from the user's or a delete is running |
| SettingsPage.NoEmailNeverConfirms | src/pages/SettingsPage.tsx:195-197 | a user without an email can never enable the button |
| SettingsPage.EnabledButtonAttempts | src/pages/SettingsPage.tsx:63-76 | when the button is enabled, clicking it attempts the delete |
| SettingsPage.SettingsPage.constructor | src/pages/SettingsPage.tsx:49-52 | English, dialog closed, empty confirmation, not deleting |
| SettingsPage.SettingsPage.HandleLanguageChange | src/pages/SettingsPage.tsx:54-56 | sets only the language |
| SettingsPage.SettingsPage.SetConfirmEmail | src/pages/SettingsPage.tsx:181 | sets only the typed email |
| SettingsPage.SettingsPage.SetDialogOpen | src/pages/SettingsPage.tsx:162 | sets only whether the dialog is open |
| SettingsPage.SettingsPage.HandleDeleteAccount | src/pages/SettingsPage.tsx:63-96 | attempted iff there is a user and the email matches exactly; a mismatch touches nothing; an attempt always ends closed and not deleting; sign-out only after success |
| ProfilePage.AgeOptionsRange | src/pages/ProfilePage.tsx:31 | fifty options, exactly 18..67; 100 is not offered |
| ProfilePage.AgeItemParsesBack | src/pages/ProfilePage.tsx:191 | every offered age, written as its item value, parses back to itself |
| ProfilePage.AgeField | src/pages/ProfilePage.tsx:60 | the age field is "" iff there is no age |
| ProfilePage.FormFromRow | src/pages/ProfilePage.tsx:58-68 | null text fields become "" and the age becomes its decimal string |
| ProfilePage.AgePayload | src/pages/ProfilePage.tsx:97 | an empty age is sent as undefined, any other as its `parseInt` |
| ProfilePage.PayloadFromForm | src/pages/ProfilePage.tsx:95-105 | the payload carries the form's values, the age parsed |
| ProfilePage.AgeRoundTrip | src/pages/ProfilePage.tsx:58-97 | a stored age loaded into the form and saved again is the same integer (numbers are unbounded integers here); a missing age stays missing |
| ProfilePage.AvatarInitial | src/pages/ProfilePage.tsx:157-158 | one character: the upper-cased first character of the name, else of the email, else "?" |
| ProfilePage.ProfilePage.constructor | src/pages/ProfilePage.tsx:38-49 | empty form, not loading |
| ProfilePage.ProfilePage.FetchProfile | src/pages/ProfilePage.tsx:51-85 | only with a user: a fetched row fills the form, anything else keeps it, and loading ends |
| ProfilePage.ProfilePage.HandleProfileUpdate | src/pages/ProfilePage.tsx:87-125 | with no user nothing happens; otherwise the update is sent and "/" is reached only on success |
| ProfilePage.ProfilePage.HandleImageUpload | src/pages/ProfilePage.tsx:127-129 | changes only the avatar URL |
| ProfilePage.ProfilePage.SetFullName | src/pages/ProfilePage.tsx:181 | changes only the name |
| ProfilePage.ProfilePage.SetAge | src/pages/ProfilePage.tsx:191 | changes only the age |
| ProfilePage.ProfilePage.SetDateOfBirth | src/pages/ProfilePage.tsx:219 | changes only the date of birth |
| ProfilePage.ProfilePage.SetOccupation | src/pages/ProfilePage.tsx:232 | changes only the occupation |
| ProfilePage.ProfilePage.SetBio | src/pages/ProfilePage.tsx:252 | changes only the bio |
| ProfilePage.ProfilePage.SetLinkedinUrl | src/pages/ProfilePage.tsx:272 | changes only the LinkedIn URL |
| ProfilePage.ProfilePage.SetTwitterUrl | src/pages/ProfilePage.tsx:282 | changes only the Twitter URL |
| ProfilePage.ProfilePage.SetGithubUrl | src/pages/ProfilePage.tsx:292 | changes only the GitHub URL |
| ProfilePage.SaveSendsNameAndAvatar | src/pages/ProfilePage.tsx:95-105 | saving the form sends only its name and avatar; the other fields are not stored |
| Sidebar.IsLinkActive | src/components/Sidebar.tsx:171-175 | specified by Sidebar.ActiveLinkIsPrefix, Sidebar.ActiveLinkSecondChar and Sidebar.AtMostOneActive |
| Sidebar.ActiveLinkIsPrefix | src/components/Sidebar.tsx:174 | an active link other than the dashboard's is a prefix of the path |
| Sidebar.ActiveLinkSecondChar | src/components/Sidebar.tsx:171-175 | an active link's href and the path agree in their second character |
| Sidebar.AtMostOneActive | src/components/Sidebar.tsx:123-129 | for any path at most one of the five links is active |
| Sidebar.ProjectPageHighlightsNoProjectsLink | src/components/Sidebar.tsx:174 | the Projects link is not active on a project's own page "/project/…" |
| Sidebar.DisplayName | src/components/Sidebar.tsx:111 | the non-empty name, else the non-empty email, else "User"; never empty |
| Sidebar.UserInitial | src/components/Sidebar.tsx:112 | exactly one character, the upper-cased first one of the display name; "U" when anonymous |
| Sidebar.ToggleSidebar | src/components/Sidebar.tsx:131-135 | asks for `!open` iff there is a callback |
| Sidebar.ToggleTwice | src/components/Sidebar.tsx:131-135 | two toggles ask for the starting state |
| Sidebar.SidebarLinkClick | src/components/Sidebar.tsx:47-52 | navigates iff the href is given and non-empty, to that href; `onClick` is always called |
| Sidebar.LinksNavigate | src/components/Sidebar.tsx:123-129 | each of the five links navigates to its own page |
| Sidebar.SidebarState.constructor | src/components/Sidebar.tsx:77-89 | sheet closed, no name or avatar |
| Sidebar.SidebarState.SetSheetOpen | src/components/Sidebar.tsx:77 | changes only the sheet |
| Sidebar.SidebarState.FetchUserProfile | src/components/Sidebar.tsx:91-109 | with a user and a fetched row, name and avatar come from it; otherwise they are kept |
| MobileBottomBar.IsItemActive | src/components/MobileBottomBar.tsx:29-31 | specified by MobileBottomBar.AtMostOneActive and MobileBottomBar.NoPrefixMatch |
| MobileBottomBar.AtMostOneActive | src/components/MobileBottomBar.tsx:17-31 | for any path at most one item is active |
| MobileBottomBar.NoPrefixMatch | src/components/MobileBottomBar.tsx:31 | below "/projects/" no item is active, though the sidebar's Projects link is |
| MobileBottomBar.ItemClick | src/components/MobileBottomBar.tsx:47 | a click navigates to exactly the item's href |
| MobileBottomBar.ItemClickHighlights | src/components/MobileBottomBar.tsx:29-31 | after the click, the clicked item is active |
| LanguageContext.Table | src/context/LanguageContext.tsx:15-101 | a table's keys are exactly the listed keys, and each key maps to its entry |
| LanguageContext.KeysDistinct | src/context/LanguageContext.tsx:16-31 | the fourteen keys are pairwise distinct |
| LanguageContext.Values | src/context/LanguageContext.tsx:15-101 | each language has one entry per key |
| LanguageContext.SameKeys | src/context/LanguageContext.tsx:15-101 | all five tables define the same fourteen keys and no others |
| LanguageContext.EntriesNonEmpty | src/context/LanguageContext.tsx:15-101 | no table entry is empty |
| LanguageContext.Translate | src/context/LanguageContext.tsx:107-108 | the entry when it is present and non-empty; the key itself otherwise |
| LanguageContext.TranslateKnownAndUnknown | src/context/LanguageContext.tsx:107-108 | a listed key gives its entry in every language; any other key gives itself |
| LanguageContext.UseLanguage | src/context/LanguageContext.tsx:118-124 | the context inside a provider; outside one, the error "useLanguage must be used within a LanguageProvider" |
| LanguageContext.LanguageProvider.constructor | src/context/LanguageContext.tsx:105 | the language starts as English |
| LanguageContext.LanguageProvider.SetLanguage | src/context/LanguageContext.tsx:105-112 | sets the language; afterwards `t` gives every listed key its entry in that language's table and any other key itself |
| LanguageContext.LanguageProvider.T | src/context/LanguageContext.tsx:107-109 | `t` looks up the current language's table |
| AuthGuard.Decide | src/components/AuthGuard.tsx:8-20 | the placeholder iff loading; a replacing redirect to "/auth" iff not loading and no user; the outlet iff not loading and a user |
| Text.ParseInt | src/pages/ProfilePage.tsx:97 | a number only for a non-empty input; specified by Text.ParseIntToString; the value is an exact unbounded integer |
| Text.Trim | src/components/NewTaskModal.tsx:55 | specified by Text.BlankIffAllSpace |
| Text.ParseIntToString | src/pages/ProfilePage.tsx:60 | `parseInt` reads back what `toString` writes, for every unbounded integer of the model |
| Text.BlankIffAllSpace | src/components/NewTaskModal.tsx:55 | `!title.trim()` holds iff every character is white space |
| Text.ToLowerIdempotent | src/pages/Index.tsx:67 | lower-casing twice is lower-casing once |
| Lists.FilterIsSubsequence | src/pages/Index.tsx:65 | `filter` keeps an order-preserving subsequence |
| Lists.FilterIdempotent | src/pages/Index.tsx:65 | filtering twice with the same test is filtering once |
| Lists.CountPartition | src/components/TaskBoard.tsx:18-26 | when every element passes exactly one of three tests, the three counts add up to the length |
| Lists.FindFirst | src/utils/mockData.ts:140 | `find` returns the first element that passes |

## Left out

- I/O, time and concurrency: the database, the authentication service, routing, toasts and
  `console` are parameters or are not modelled. The model runs each asynchronous handler to its
  end in one step, so interleavings of two handlers are not modelled.
- Dates are plain integers (`Timestamp`). ISO conversion and the `Date` constructor are not
  modelled.
- `toLowerCase` and `toUpperCase` are modelled for ASCII letters only, with no other Unicode case
  mapping.
- Text.ParseInt: JavaScript numbers are IEEE 754 doubles, and the model treats them as unbounded
  integers. Above 2^53 in magnitude `parseInt` rounds to the nearest double, and the model
  returns the exact integer.
- Text.ParseIntToString: the round trip is proved for every unbounded integer. In the
  application it holds only below 2^53 in magnitude. From 10^21 `toString` writes exponent
  notation (`"1e+21"`), and `parseInt` reads that back as 1.
- ProfilePage.AgeRoundTrip: rests on Text.ParseIntToString, so in the application a stored age
  comes back unchanged only below 2^53 in magnitude.
- ProjectCard.ProgressPercentage: `Math.round` over floating point is modelled as exact rational
  rounding, half up. Results that floating-point error puts on the other side of a half are not
  modelled.
- Sidebar.UserInitial: Dafny strings are sequences of Unicode scalar values, while `charAt(0)`
  takes one UTF-16 code unit. For a name that starts outside the Basic Multilingual Plane, such
  as "😀Ann", the application shows a lone surrogate and the model the whole character.
- ProfilePage.AvatarInitial: takes the first character with `charAt(0)` as well, so it shares
  the UTF-16 code unit difference described for Sidebar.UserInitial.
- LanguageContext.Translate: keys inherited from `Object.prototype`, such as "constructor", would
  give a function in JavaScript. The model treats them as missing keys.
- Types.TaskPatch.ApplyTo: a `Partial<Task>` that sets a required key to `undefined` is not
  modelled. The required fields of a patch hold values.
- `getProjects`, `getTaskById` and `getUserProfile` map rows with the same functions as
  `getProjectById` (`ProjectFromRow`, `TaskFromRow`). `updateTaskStatus`, `deleteTask` and
  `deleteProject` do nothing but the remote call, which becomes a `remoteOk` parameter.
- `createTeamMember`, `updateTeamMember` and `deleteUserAccount` are imported from the data
  service, but the service file does not define them. Their outcomes are parameters.
- `TeamMember` is not declared in `src/utils/types.ts`. The model declares the fields the team
  dialog reads.
- SupabaseService.UpdateUserProfile: the service reads the user from `auth.getUser()` and the
  page checks the context's `currentUser`. The model passes the same user to both.
- The calendar popover of the task dialogs, the sidebar's collapsed and mobile variants and the
  other purely visual state are not modelled.
- `StatusColumn`'s default title branch cannot be reached with the enumeration, so it is not modelled.
- The sidebar's `goToProfile` and `handleSignOut` only navigate, to "/profile" and "/auth". The
  sign-out itself is a call into the authentication service. Neither is modelled.
- SupabaseService.CreateProject: the row the store returns is modelled by its id and one time.
  The `created_at` and `updated_at` of a freshly inserted row are taken to be that same time, so
  a store that fills them differently is not modelled.
- EditProjectModal.EditProjectModal.HandleDelete: inside the application the
  `onProjectDelete` callback catches its own error and always resolves. So the "failed delete
  changes neither dialog" branch, which the model covers through `settled`, is never taken there,
  and a failed delete also navigates to "/".
