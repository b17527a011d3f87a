# Task Management Dashboard — a Dafny model of its core

The Task Management Dashboard is a client-side web application that keeps a
list of tasks. Each task has these fields:

- title, description, priority and status;
- category, tags and due date;
- creation and update times;
- an optional assignee and estimate.

This project models the application's logic and proves properties about it:

- **Reducer** (`task_reducer.dfy`): the task reducer with all fourteen actions,
  implemented as function `TaskReducer.Reduce`. The class
  `TaskReducer.Reducer` models the module-level `task_<n>` id counter and
  dispatches actions through it.
- **Export and import** (`data_export_import.dfy`):
  - the export envelope and the tasks as JSON values;
  - the validator of untrusted imported JSON, with its exact order of checks
    and its error messages;
  - the conversion of the validator's output into form data, joined to the
    export and the validator in one round trip.
- **Hook over stored tasks** (`use_tasks.dfy`, class `UseTasks.TasksHook`):
  add, update, delete, toggle and the three sort orders.
- **Home-page statistics** (`home_page.dfy`).
- **Task form** (`task_form.dfy`): its validation schema, its default values
  and its submit conversion.
- **Keyboard-shortcut decision** (`keyboard_shortcuts.dfy`).
- **Bulk-actions toolbar** (`bulk_actions_toolbar.dfy`): its tri-state
  select-all checkbox.
- **Filter bar** (`task_filters.dfy`): its "active filters" rule and the values
  its selects offer.
- **Theme hook** (`use_theme.dfy`, class `UseTheme.ThemeHook`): the class list
  is a set and local storage is a map.

Two modules hold shared definitions:

- `task_types.dfy` holds tasks, form data and actions. `task_actions.dfy` holds
  the action and state types.
- `strings.dfy` holds decimal rendering of naturals. `seqs.dfy` holds filtering
  and a stable sort on sequences.

Several inputs come from the environment and are parameters in the model:

- **Clock:** `now`, as integer times.
- **Date checks:** the validity check of a date value (`dateOk`).
- **Date text:** the ISO text of a time (`iso`), the day text of a time
  (`dayText`), the reading of a date text (`parseDate`) and the reading of
  an imported date value (`readDate`).
- **The OS's colour-scheme preference:** `prefersDark`.
- **The random id** of the stored-tasks hook: `id`.

Some facts are proved about how the parts fit together:

- The stored-tasks hook agrees with the reducer.
- The export/validate round trip accepts exactly the tasks with a non-empty
  id, title, description and category and a non-negative estimate.
- A form-created task without a description or estimate is refused when it
  is re-imported (`TaskForm.SubmittedTaskReimport`).
- The reducer keeps two invariants, each under stated conditions:
  - every selected id belongs to a task;
  - ids are unique and never collide with a future `task_<n>` id.

  Lemmas also exhibit the actions that break them.

## Model

| member | source | states |
|---|---|---|
| TaskReducer.NextStatus | src/reducers/taskReducer.ts:35-46 | the next status always differs from the current one |
| TaskReducer.NextStatusCycle | src/reducers/taskReducer.ts:35-46 | todo → in-progress → done → todo is a 3-cycle: three steps return to the start, two never do |
| TaskReducer.TaskId | src/reducers/taskReducer.ts:8-11 | an id is `task_` followed by the counter's decimal digits |
| TaskReducer.TaskIdInjective | src/reducers/taskReducer.ts:8-11 | distinct counter values give distinct ids |
| TaskReducer.Duplicate | src/reducers/taskReducer.ts:113-120 | the copy has the given fresh id, the title plus " (Copy)", both timestamps `now`, and otherwise the same form data and assignee |
| TaskReducer.ReduceSetTasks | src/reducers/taskReducer.ts:54-60 | the list is replaced; the selection and loading flag are kept; the error is cleared; the last action is recorded |
| TaskReducer.ReduceAddTask | src/reducers/taskReducer.ts:62-68 | the list becomes old list ++ [task]; the selection is untouched; the error is cleared |
| TaskReducer.ReduceUpdateTask | src/reducers/taskReducer.ts:70-84 | the length is kept; tasks with other ids are identical; each matching task has the patch merged and `updatedAt = now`, even when the patch sets `updatedAt` |
| TaskReducer.ApplyPatch | src/reducers/taskReducer.ts:76-78 | the spread `{ ...task, ...updates }`: each member present in the patch replaces the task's, each absent one is kept |
| TaskReducer.ReduceDeleteTask | src/reducers/taskReducer.ts:86-95 | exactly the tasks and the selected ids not equal to the id are kept, in order |
| TaskReducer.ReduceToggleTaskStatus | src/reducers/taskReducer.ts:97-111 | the length and ids are kept; other tasks are identical; matching tasks get the next status and `updatedAt = now` |
| TaskReducer.ReduceDuplicateTask | src/reducers/taskReducer.ts:113-126 | exactly one task, the duplicate, is appended; the selection is untouched |
| TaskReducer.ReduceBulkDelete | src/reducers/taskReducer.ts:128-137 | exactly the tasks and the selected ids not in the payload are kept, in order |
| TaskReducer.ReduceBulkUpdateStatus | src/reducers/taskReducer.ts:139-153 | the length and ids are kept; unlisted tasks are identical; listed tasks get the status and `updatedAt = now` |
| TaskReducer.ReduceSelectTask | src/reducers/taskReducer.ts:155-162 | selecting appends the id, even a duplicate; deselecting keeps every other id in order; tasks and the error are untouched |
| TaskReducer.ReduceSelectAllTasks | src/reducers/taskReducer.ts:164-169 | the selection becomes all task ids in order, or empty |
| TaskReducer.ReduceClearSelection | src/reducers/taskReducer.ts:171-176 | the selection is empty and nothing else changes except the last action |
| TaskReducer.ImportedTasks | src/reducers/taskReducer.ts:179 | the k-th form becomes a task with id `task_<counter+1+k>`, both timestamps `now` and no assignee |
| TaskReducer.ReduceImportTasks | src/reducers/taskReducer.ts:178-185 | the list is exactly the old tasks followed by `ImportedTasks` of the forms; the new tasks carry the forms in order with ids `task_<counter+1+k>`; selection and loading are kept; the error is cleared |
| TaskReducer.ReduceSetLoading | src/reducers/taskReducer.ts:187-191 | the loading flag takes the payload; tasks, selection, error and last action are kept |
| TaskReducer.ReduceSetError | src/reducers/taskReducer.ts:193-198 | the error takes the payload and loading ends; tasks, selection and last action are kept |
| TaskReducer.Reduce | src/reducers/taskReducer.ts:49-203 | the id counter advances by exactly the number of ids the action draws: one for a duplicate, one per imported form, none otherwise |
| TaskReducer.ReduceEffects | src/reducers/taskReducer.ts:49-203 | every data-changing action clears the error; the selection actions leave tasks, error and loading alone; the loading and error actions leave tasks, selection and last action alone; an unknown action returns the state unchanged |
| TaskReducer.Reducer.constructor | src/reducers/taskReducer.ts:5 | the id counter starts at 0 |
| TaskReducer.Reducer.GenerateId | src/reducers/taskReducer.ts:8-11 | the counter is incremented first, and the id is built from its new value |
| TaskReducer.Reducer.CreateTaskFromFormData | src/reducers/taskReducer.ts:25-32 | draws one id; the task carries the form data and `now` timestamps |
| TaskReducer.Reducer.CreateTasksFromFormData | src/reducers/taskReducer.ts:179 | one id per form, drawn in order; the result is exactly `ImportedTasks` at the old counter |
| TaskReducer.Reducer.AddTaskFromForm | src/contexts/TaskContext.tsx:62-65 | the context's add draws one id and dispatches `ADD_TASK` with the task created from the form under that id |
| TaskReducer.Reducer.Dispatch | src/reducers/taskReducer.ts:49-203 | the new state and the new counter are exactly `Reduce` of the old state and counter |
| TaskReducer.ToggleThreeTimes | src/reducers/taskReducer.ts:97-111 | toggling an id three times restores every status; only `updatedAt` of matching tasks changes |
| TaskReducer.UpdateAbsentId | src/reducers/taskReducer.ts:73-81 | updating an id no task has leaves the list unchanged |
| TaskReducer.UpdateKeepsIds | src/reducers/taskReducer.ts:70-84 | a patch that does not rename keeps the id sequence |
| TaskReducer.DeleteIdempotent | src/reducers/taskReducer.ts:86-95 | deleting twice equals deleting once |
| TaskReducer.AddThenDelete | src/reducers/taskReducer.ts:62-95 | adding a task with a new id and deleting it restores the list |
| TaskReducer.BulkDeleteAbsentIds | src/reducers/taskReducer.ts:128-137 | ids not present have no effect on the list |
| TaskReducer.BulkDeleteOne | src/reducers/taskReducer.ts:128-137 | bulk delete of one id equals delete of that id, for tasks and selection |
| TaskReducer.ImportedIdsDistinct | src/reducers/taskReducer.ts:178-185 | the imported tasks' ids are pairwise distinct |
| TaskReducer.SelectionConsistencyPreserved | src/reducers/taskReducer.ts:49-203 | every action except a pruning-free `SET_TASKS`, a renaming `UPDATE_TASK` and a `SELECT_TASK` of an unknown id keeps "every selected id is a task id" |
| TaskReducer.SelectionAfterAppend | src/reducers/taskReducer.ts:62-68 | appending tasks keeps every selected id a task id |
| TaskReducer.SelectionAfterDelete | src/reducers/taskReducer.ts:86-95 | deleting prunes the selection alike, so selected ids stay task ids |
| TaskReducer.SelectionAfterBulkDelete | src/reducers/taskReducer.ts:128-137 | bulk deletion prunes the selection alike, so selected ids stay task ids |
| TaskReducer.SelectTaskMayBreakConsistency | src/reducers/taskReducer.ts:155-162 | there is a consistent state from which selecting an unknown id breaks consistency |
| TaskReducer.SetTasksMayBreakConsistency | src/reducers/taskReducer.ts:54-60 | replacing the list does not prune the selection |
| TaskReducer.RenamingUpdateMayBreakConsistency | src/reducers/taskReducer.ts:70-84 | a patch with a new id leaves the old id selected |
| TaskReducer.IdsSoundPreserved | src/reducers/taskReducer.ts:49-203 | ids stay unique and above-counter ids stay unused, given that `SET_TASKS`/`ADD_TASK` bring sound ids and updates do not rename |
| TaskReducer.UniqueIdsCons | src/reducers/taskReducer.ts:62-68 | a list with a head has unique ids iff its tail has and the head's id is not in it |
| TaskReducer.FilterUniqueIds | src/reducers/taskReducer.ts:86-95 | filtering keeps ids unique |
| TaskReducer.AppendUniqueIds | src/reducers/taskReducer.ts:178-185 | appending unique fresh tasks keeps ids unique |
| TaskReducer.IdsSoundImport | src/reducers/taskReducer.ts:178-185 | importing keeps ids sound with the counter advanced by the number of forms |
| TaskReducer.IdsSoundDuplicate | src/reducers/taskReducer.ts:113-126 | duplicating keeps ids sound with the counter advanced by one |
| TaskReducer.IdsSoundAddFromForm | src/contexts/TaskContext.tsx:62-65 | a task created from a form with the next counter value meets `ADD_TASK`'s condition, and ids stay sound with the counter advanced by one |
| TaskTypes.PriorityName | src/types/task.ts:5 | a priority's name is one of low, medium, high |
| TaskTypes.StatusName | src/types/task.ts:6 | a status's name is one of todo, in-progress, done |
| TaskTypes.ParsePriority | src/types/task.ts:5 | a name parses iff it is a priority name, and then to the priority of that name |
| TaskTypes.ParseStatus | src/types/task.ts:6 | a name parses iff it is a status name, and then to the status of that name |
| TaskTypes.PriorityNameRoundTrip | src/types/task.ts:5 | parsing a priority's name gives that priority |
| TaskTypes.StatusNameRoundTrip | src/types/task.ts:6 | parsing a status's name gives that status |
| TaskTypes.TaskFromFormData | src/reducers/taskReducer.ts:25-32 | the task has the given id, `now` for both timestamps, no assignee, and exactly the form's data |
| DataExportImport.TaskJsonBase | src/utils/dataExportImport.ts:13-25 | the ten members every serialised task has: texts as they are, enums as their literals, tags as an array of strings, dates as ISO text |
| DataExportImport.TaskJson | src/utils/dataExportImport.ts:13-25 | the base members, plus `assignedTo` and `estimatedTime` only when defined, as `JSON.stringify` omits undefined members |
| DataExportImport.ExportJson | src/utils/dataExportImport.ts:13-25 | the serialised envelope: version, export date, the tasks array and the metadata object with count and exporter |
| DataExportImport.ExportTasksToJSON | src/utils/dataExportImport.ts:13-25 | the envelope has version "1.0.0", the export date, the tasks, the count of tasks and "Task Management Dashboard" |
| DataExportImport.TasksJson | src/utils/dataExportImport.ts:24 | the tasks are serialised pointwise in order |
| DataExportImport.ErrorMessage | src/utils/dataExportImport.ts:74-144 | a task error reads "Task <i+1>: <field message>", 1-based |
| DataExportImport.Member | src/utils/dataExportImport.ts:71 | a member is present iff the value is an object with that key, and it is that key's value |
| DataExportImport.Truthy | src/utils/dataExportImport.ts:71-141 | JavaScript truthiness of a member read: undefined, null, false, 0 and the empty string are falsy |
| DataExportImport.FieldOk | src/utils/dataExportImport.ts:71-146 | the test of each of the eleven `if`s, on the member it reads |
| DataExportImport.CheckTask | src/utils/dataExportImport.ts:68-146 | one loop iteration: a null element throws, otherwise the first failing member in source order is reported, or the element passes |
| DataExportImport.Scan | src/utils/dataExportImport.ts:68-151 | the loop from index `i`: the first element that does not pass decides the error, otherwise the array is returned |
| DataExportImport.HasTasksArray | src/utils/dataExportImport.ts:58 | `'tasks' in dataObj && Array.isArray(dataObj.tasks)` on an object |
| DataExportImport.Validate | src/utils/dataExportImport.ts:44-153 | the validator's result: not an object, no tasks array, or the scan of the tasks array |
| DataExportImport.ValidateImportData | src/utils/dataExportImport.ts:44-153 | the loop with early returns computes exactly `Validate` |
| DataExportImport.FirstFailingField | src/utils/dataExportImport.ts:68-146 | the position of the first failing check: all earlier checks pass and it fails |
| DataExportImport.CheckTaskIsFirstFailure | src/utils/dataExportImport.ts:68-146 | an element is reported on its first failing member in the validator's check order, or passes |
| DataExportImport.CheckOrderDistinct | src/utils/dataExportImport.ts:68-146 | no member is checked twice |
| DataExportImport.CheckTaskPassed | src/utils/dataExportImport.ts:68-146 | an element passes iff it is not null and every one of the eleven checks passes |
| DataExportImport.CheckTaskFirstFailingField | src/utils/dataExportImport.ts:68-146 | an element fails on the i-th member iff all earlier checks pass and the i-th fails |
| DataExportImport.ScanPassed | src/utils/dataExportImport.ts:68-149 | the scan accepts iff every element passes, and then returns the array itself |
| DataExportImport.ScanFirstFailure | src/utils/dataExportImport.ts:68-151 | the scan reports the first failing element by index and member, or the JSON error when that element is null |
| DataExportImport.ScanErrorShape | src/utils/dataExportImport.ts:68-151 | the scan only reports task errors or the JSON error |
| DataExportImport.ValidateNotObject | src/utils/dataExportImport.ts:49-54 | the "not a valid JSON object" error is given iff the input is neither an object nor an array |
| DataExportImport.ValidateNoTasksArray | src/utils/dataExportImport.ts:58-63 | the "tasks array not found" error is given iff the input is an object or array without an array `tasks` member |
| DataExportImport.ValidateAccepts | src/utils/dataExportImport.ts:65-149 | the input is accepted iff it has a tasks array whose every element passes, and the returned tasks are that array |
| DataExportImport.ValidateReportsFirstFailure | src/utils/dataExportImport.ts:68-151 | the first failing element determines the error |
| DataExportImport.EmptyDescriptionRejected | src/utils/dataExportImport.ts:85-90 | an empty description is refused although the form allows one |
| DataExportImport.EstimatedTimeRequired | src/utils/dataExportImport.ts:127-132 | a task without an estimate is refused although the estimate is optional in a task |
| DataExportImport.TaskJsonMembers | src/utils/dataExportImport.ts:24 | each exported member holds the task's field; the estimate is present iff the task has one |
| DataExportImport.ExportedFieldsOk | src/utils/dataExportImport.ts:92-146 | exported priority, status, tags and dates always pass their checks |
| DataExportImport.CheckExportedTask | src/utils/dataExportImport.ts:68-146 | an exported task fails exactly on its first empty id, title, description or category, or on a missing or negative estimate |
| DataExportImport.CheckTaskJson | src/utils/dataExportImport.ts:68-146 | an exported task passes iff it is importable |
| DataExportImport.ExportThenValidate | src/utils/dataExportImport.ts:44-153 | round trip: the export validates iff every task is importable, and then the validator returns the exported tasks |
| DataExportImport.ConvertTasksForImport | src/utils/dataExportImport.ts:163-176 | on typed tasks: each output has the title, description, enums, category, tags, due date and estimate of the task at the same position |
| DataExportImport.ConvertIgnoresIdentity | src/utils/dataExportImport.ts:163-176 | id, timestamps and assignee do not affect the conversion |
| DataExportImport.ConvertImportRoundTrip | src/utils/dataExportImport.ts:163-176 | converting the reducer's imported tasks gives back the forms |
| DataExportImport.ValidatedIsShaped | src/utils/dataExportImport.ts:68-147 | an element the validator accepts has every member the conversion reads exactly when its tags are all strings |
| DataExportImport.FormDataOfJson | src/utils/dataExportImport.ts:166-175 | member by member: the texts as they are, the enum literals read as their values, a copy of the tags, `new Date(dueDate)` and the estimate |
| DataExportImport.ConvertJsonForImport | src/utils/dataExportImport.ts:163-176 | `convertTasksForImport` on the validator's JSON output: one form per element, in order |
| DataExportImport.ExportedTaskConverts | src/utils/dataExportImport.ts:163-176 | an exported importable task converts back to its own form fields when ISO dates read back |
| DataExportImport.ExportValidateConvert | src/components/data-export-import-dialog.tsx:89-108 | export, validate and convert: the validator accepts an all-importable export and converting its output gives the form fields of the exported tasks, in order |
| DataExportImport.ImportConverted | src/utils/dataExportImport.ts:163-176 | importing converted tasks appends copies with fresh `task_<n>` ids and `now` timestamps, in order |
| UseTasks.ToggledStatus | src/hooks/useTasks.ts:76-81 | the hook's nested conditional is the reducer's status cycle |
| UseTasks.AsTaskPatch | src/hooks/useTasks.ts:36 | a form patch never touches id, timestamps or assignee |
| UseTasks.ApplyFormPatch | src/hooks/useTasks.ts:42-46 | id, timestamps and assignee are kept, and the merge is the reducer's |
| UseTasks.AddedTasks | src/hooks/useTasks.ts:19-26 | the old list is a prefix of one more task with the id, the form data and `now` |
| UseTasks.UpdatedTasks | src/hooks/useTasks.ts:39-49 | the ids are kept; other tasks are identical; matches are merged with `updatedAt = now` |
| UseTasks.DeletedTasks | src/hooks/useTasks.ts:61 | exactly the tasks with other ids are kept, in order |
| UseTasks.ToggledTasks | src/hooks/useTasks.ts:73-89 | the ids are kept; other tasks are identical; matches take the next status |
| UseTasks.AddAgreesWithReducer | src/hooks/useTasks.ts:19-26 | the hook's add equals the reducer's `ADD_TASK` |
| UseTasks.UpdateAgreesWithReducer | src/hooks/useTasks.ts:39-49 | the hook's update equals the reducer's `UPDATE_TASK` |
| UseTasks.DeleteAgreesWithReducer | src/hooks/useTasks.ts:61 | the hook's delete equals the reducer's `DELETE_TASK` |
| UseTasks.ToggleAgreesWithReducer | src/hooks/useTasks.ts:73-89 | the hook's toggle equals the reducer's `TOGGLE_TASK_STATUS` |
| UseTasks.Compare | src/hooks/useTasks.ts:100-117 | the comparator of each sort key: reversed priority order, due-date difference, status order |
| UseTasks.SortKeyOf | src/hooks/useTasks.ts:100-117 | the numeric key whose difference each comparator is |
| UseTasks.CompareIsKeyDifference | src/hooks/useTasks.ts:100-117 | each comparator is the difference of a numeric key |
| UseTasks.SortedTasks | src/hooks/useTasks.ts:98-117 | the result is a permutation ordered by the comparator |
| UseTasks.PrioritySortOrder | src/hooks/useTasks.ts:102-105 | high priority first, then medium, then low |
| UseTasks.DueDateSortAscending | src/hooks/useTasks.ts:106-109 | earliest due date first |
| UseTasks.StatusSortOrder | src/hooks/useTasks.ts:110-113 | todo first, then in-progress, then done |
| UseTasks.SortStable | src/hooks/useTasks.ts:100 | tasks that compare equal keep their relative order |
| UseTasks.TasksHook.constructor | src/hooks/useTasks.ts:8-9 | the hook starts from the stored list, not loading |
| UseTasks.TasksHook.AddTask | src/hooks/useTasks.ts:15-33 | returns the new task and appends it; loading ends false |
| UseTasks.TasksHook.UpdateTask | src/hooks/useTasks.ts:35-55 | the list becomes `UpdatedTasks` of the old list |
| UseTasks.TasksHook.DeleteTask | src/hooks/useTasks.ts:57-67 | the list becomes `DeletedTasks` of the old list |
| UseTasks.TasksHook.ToggleTaskStatus | src/hooks/useTasks.ts:69-96 | the list becomes `ToggledTasks` of the old list |
| UseTasks.TasksHook.GetSortedTasks | src/hooks/useTasks.ts:98-120 | a comparator-ordered permutation of the stored tasks |
| HomePage.HasStatus | src/app/page.tsx:22-23 | the filter that counts in-progress or done tasks |
| HomePage.IsOverdue | src/app/page.tsx:24-26 | not done and due strictly before now |
| HomePage.StatsOfOne | src/app/page.tsx:21-26 | one task's contribution to each of the four counts |
| HomePage.ComputeStats | src/app/page.tsx:21-26 | the total is the length; in-progress + completed and overdue + completed never exceed it |
| HomePage.StatsOfEmpty | src/app/page.tsx:21-26 | no tasks, all four counts zero |
| HomePage.StatsAppend | src/app/page.tsx:21-26 | the statistics of a list are the sums of each task's contribution |
| HomePage.OverdueNeverDone | src/app/page.tsx:24-26 | an overdue task is not done and is past due, so it is never counted as completed |
| HomePage.OverdueGrowsWithTime | src/app/page.tsx:24-26 | a later clock never lowers the overdue count |
| TaskForm.CustomMessage | src/components/task-form.tsx:18-27 | the schema's own five messages; none for the enum and number checks |
| TaskForm.Fails | src/components/task-form.tsx:18-27 | the condition each schema check refuses |
| TaskForm.SchemaIssues | src/components/task-form.tsx:18-27 | the issues listed are exactly the schema checks the values fail |
| TaskForm.SchemaAccepts | src/components/task-form.tsx:18-27 | the schema reports no issue |
| TaskForm.SchemaAcceptsIff | src/components/task-form.tsx:18-27 | accepted iff title is 1 to 100 characters, description at most 500, priority and status in their enums, category and due date non-empty, and the estimate absent or ≥ 0 |
| TaskForm.DefaultValues | src/components/task-form.tsx:52-63 | without initial data: empty title and description, medium, todo, the first default category, no tags, today, no estimate |
| TaskForm.BlankFormNeedsTitle | src/components/task-form.tsx:18-63 | a fresh form is refused only for its missing title |
| TaskForm.HandleFormSubmit | src/components/task-form.tsx:70-80 | fields are copied; the day text is read as a date; a zero estimate becomes absent |
| TaskForm.EditRoundTrip | src/components/task-form.tsx:52-80 | editing without change submits the same data, up to the re-read due date and a dropped zero estimate |
| TaskForm.SubmittedTaskReimport | src/components/task-form.tsx:70-80 | an accepted form's task, once exported, is refused on re-import for an empty description, else for a missing estimate |
| KeyboardShortcuts.LowerChar | src/hooks/useKeyboardShortcuts.ts:41 | capital letters become lower case; other characters are unchanged |
| KeyboardShortcuts.ToLower | src/hooks/useKeyboardShortcuts.ts:41 | each character is lower-cased in place |
| KeyboardShortcuts.ToLowerIdempotent | src/hooks/useKeyboardShortcuts.ts:41 | lower-casing twice equals once |
| KeyboardShortcuts.Flag | src/hooks/useKeyboardShortcuts.ts:42-45 | `Boolean(flag)`: an absent flag is false |
| KeyboardShortcuts.Matches | src/hooks/useKeyboardShortcuts.ts:39-50 | the predicate handed to `find`: keys equal after lower-casing and all four modifiers equal |
| KeyboardShortcuts.InEditable | src/hooks/useKeyboardShortcuts.ts:28-32 | the target is an input, a text area or editable content |
| KeyboardShortcuts.FirstMatch | src/hooks/useKeyboardShortcuts.ts:39-50 | the first matching shortcut is found, none before it matches, and none exactly when no shortcut matches |
| KeyboardShortcuts.HandleKeyDown | src/hooks/useKeyboardShortcuts.ts:22-58 | nothing fires when disabled or when typing in an editable target (except Escape); otherwise the first match fires |
| KeyboardShortcuts.FiresIff | src/hooks/useKeyboardShortcuts.ts:22-58 | a shortcut fires iff the handler is enabled, the target allows it and some shortcut matches |
| KeyboardShortcuts.MatchIgnoresCase | src/hooks/useKeyboardShortcuts.ts:40-41 | the key comparison is case-insensitive on both sides |
| KeyboardShortcuts.AbsentFlagIsFalse | src/hooks/useKeyboardShortcuts.ts:42-45 | an absent modifier flag behaves as false |
| KeyboardShortcuts.FirstMatchPrecedence | src/hooks/useKeyboardShortcuts.ts:39-50 | for any list `pre + [sc] + post` with `sc` matching: no shortcut after `sc` fires, `sc` fires iff none in `pre` matches, and otherwise the first match in `pre` fires |
| KeyboardShortcuts.FirstMatchAppend | src/hooks/useKeyboardShortcuts.ts:39-50 | `find` over a concatenation searches the first part first, then the rest with positions offset by the first part's length |
| KeyboardShortcuts.FirstMatchIgnoresCase | src/hooks/useKeyboardShortcuts.ts:39-50 | events whose keys agree up to case select the same shortcut |
| KeyboardShortcuts.EscapeExceptionIsCaseSensitive | src/hooks/useKeyboardShortcuts.ts:28-41 | for every shortcut list and every event whose key is Escape in any case: the exact "Escape" fires the first match anywhere; another casing fires the same shortcut outside text fields and nothing inside one |
| BulkActionsToolbar.IsAllSelected | src/components/bulk-actions-toolbar.tsx:32 | all selected: the counts are equal and there is a task |
| BulkActionsToolbar.IsIndeterminate | src/components/bulk-actions-toolbar.tsx:33 | some but not all selected |
| BulkActionsToolbar.CountLabel | src/components/bulk-actions-toolbar.tsx:56-58 | "<n> of <total> selected" when some are selected, else "Select all <total> tasks" |
| BulkActionsToolbar.Render | src/components/bulk-actions-toolbar.tsx:32-63 | hidden iff there are no tasks; checked iff all are selected; indeterminate iff some but not all; never both; bulk controls iff some are selected |
| BulkActionsToolbar.OverSelectionShowsNeither | src/components/bulk-actions-toolbar.tsx:32-33 | more selected ids than tasks gives a box neither checked nor indeterminate |
| BulkActionsToolbar.SelectAllRequest | src/components/bulk-actions-toolbar.tsx:51-53 | select-all is requested iff the box reports checked |
| BulkActionsToolbar.SelectAllShowsChecked | src/components/bulk-actions-toolbar.tsx:32-53 | checking the box on a non-empty list selects every task and shows the box checked |
| BulkActionsToolbar.DeselectAllHidesControls | src/components/bulk-actions-toolbar.tsx:55-63 | unchecking empties the selection, hides the bulk controls and shows the select-all label |
| TaskFilters.HasActiveFilters | src/components/task-filters.tsx:41-45 | a non-empty search or a facet other than "all" |
| TaskFilters.Cleared | src/components/task-filters.tsx:51-55 | the bar the Clear Filters button asks for: empty search, every facet "all", the sort order kept |
| TaskFilters.ShowsClearFilters | src/components/task-filters.tsx:51-55 | the Clear Filters button shows iff resetting would change something |
| TaskFilters.ActiveIffNotCleared | src/components/task-filters.tsx:41-45 | active filters iff the bar differs from its reset; a reset bar is inactive; resetting is idempotent |
| TaskFilters.FacetOptionsAreTaskValues | src/components/task-filters.tsx:72-95 | the status and priority selects (`StatusFilterOptions`, `PriorityFilterOptions`) offer "all" plus exactly the names of the task's values |
| TaskFilters.SortKeyName | src/components/task-filters.tsx:112-121 | every sort key's name is one of the sort options (`SortOptions`) |
| TaskFilters.ParseSortKey | src/components/task-filters.tsx:112-121 | a name is a sort key iff it is one of the three options, and then it is that key's name |
| TaskFilters.SortKeyNameRoundTrip | src/components/task-filters.tsx:117-119 | each key round-trips through its name; the first option is the hook's default sort |
| TaskFilters.CategoryOptionsDifferFromDefaults | src/components/task-filters.tsx:103-107 | against `CategoryFilterOptions`: Shopping, Learning and Other are default categories no option other than "all" names; Education is offered but not a default category |
| UseTheme.SystemTheme | src/hooks/useTheme.ts:29-32 | dark iff the system prefers dark, else light |
| UseTheme.Resolve | src/hooks/useTheme.ts:28-36 | "system" shows the system theme; any other setting shows itself |
| UseTheme.NextTheme | src/hooks/useTheme.ts:41-49 | the toggle gives light or dark, and dark exactly from light |
| UseTheme.ToggleProperties | src/hooks/useTheme.ts:41-49 | never "system", always a change, two toggles from light return to light, period 2 after the first toggle |
| UseTheme.ToggledIsShownAsIs | src/hooks/useTheme.ts:41-49 | a toggled setting is shown as itself whatever the system prefers |
| UseTheme.WithThemeClass | src/hooks/useTheme.ts:16-17 | the new class is present; other non-theme classes are kept; light and dark are removed otherwise |
| UseTheme.ExactlyOneThemeClass | src/hooks/useTheme.ts:16-18 | after applying light or dark exactly that one of the two is a class |
| UseTheme.StoredTheme | src/hooks/useTheme.ts:55 | a missing or empty stored entry reads as "system"; otherwise the entry itself |
| UseTheme.StoredSettingReadBack | src/hooks/useTheme.ts:26-55 | what the update stores, the mount reads back |
| UseTheme.UncheckedStoredValue | src/hooks/useTheme.ts:55-66 | for any stored value other than "", light, dark and system, any class list and any preference: the value is adopted as the setting, shown as itself and added as a class, and neither light nor dark remains |
| UseTheme.ThemeHook.constructor | src/hooks/useTheme.ts:8-10 | the setting is "system", the shown theme light, not mounted |
| UseTheme.ThemeHook.ApplyTheme | src/hooks/useTheme.ts:12-19 | the class list loses light and dark and gains the theme; the shown theme is set; nothing else changes |
| UseTheme.ThemeHook.UpdateTheme | src/hooks/useTheme.ts:21-39 | the setting is set and stored under "theme"; the shown theme is its resolution |
| UseTheme.ThemeHook.ToggleTheme | src/hooks/useTheme.ts:41-49 | the setting becomes the toggled one, never "system", and is shown as itself |
| UseTheme.ThemeHook.Mount | src/hooks/useTheme.ts:51-68 | mounted; the setting is the stored one; it is shown resolved; storage is untouched |
| UseTheme.ThemeHook.OnSystemThemeChange | src/hooks/useTheme.ts:72-77 | only the "system" setting follows a change of preference |
| UseTheme.UpdateThenRemount | src/hooks/useTheme.ts:21-81 | the effect re-run after an update keeps the setting and what is shown |
| Strings.NatToString | src/components/bulk-actions-toolbar.tsx:57 | the decimal rendering is non-empty digits without a leading zero |
| Strings.DecimalRoundTrip | src/components/bulk-actions-toolbar.tsx:57 | reading the rendering back gives the number |

## Left out

- Browser I/O is not modelled: `downloadJSON`, the DOM, `localStorage` beyond a map, `matchMedia` beyond `prefersDark`, and listener registration and removal. The JSON text format and pretty-printing are not modelled either: values are a `Json` datatype.
- `generateFileName` depends on the local clock and time zone and is not modelled.
- Dates are integer times. `new Date(x)` validity is the parameter `dateOk`, ISO text is `iso`, day text is `dayText` and date reading is `parseDate`. A date conversion that throws is treated as an invalid date rather than as the validator's `catch`.
- The server-side fixed date of `createSafeDate` is left out: `now` is a parameter. Clock changes between the two `createSafeDate` calls are not modelled.
- The stored-tasks hook's `Date.now()`/`Math.random()` id is the parameter `id`. Its storage (`useLocalStorage`) and the `async`/`finally` wrappers are not modelled.
- `UseTasks.SortedTasks`: the engine's `Array.prototype.sort` is modelled as a stable insertion sort on a sequence, not in place.
- `TaskReducer.NextStatus`: the `default` branch cannot be reached with the typed status, so it is not modelled.
- KeyboardShortcuts.ToLower lower-cases ASCII letters only. Unicode case mapping is not modelled.
- KeyboardShortcuts.LowerChar maps the ASCII capitals only, for the same reason.
- `TaskForm.HandleFormSubmit`: the form's `valueAsNumber` can produce NaN for an empty estimate, and NaN is not a value of a Dafny `real`.
- `TaskForm.CustomMessage`: zod's default messages for the enum and number checks are not reproduced, only the schema's own five messages.
- TaskForm.SchemaIssues counts lengths in Unicode code points rather than the UTF-16 units zod's `.max(100)` and `.max(500)` count.
- TaskForm.SchemaAcceptsIff states the 100 and 500 limits in code points, for the same reason.
- The import dialog refuses an empty validated list. That rule sits in a presentation file that is not part of this model.
- `UseTheme.ThemeHook.OnSystemThemeChange` reads the current setting. The listener's closure captures the setting of the effect run that registered it. The effect re-runs whenever the setting changes, so this matters only in between.
- `UseTheme.ThemeHook.Mount`'s server-side branch, where `window` is undefined, is not modelled.
- TaskFilters.Cleared is the reset the Clear Filters button stands for. The `onClearFilters` handler lives in the component's parent, which is not among the files shown.
- The search text and facet filtering of the list are not modelled: the filtering function is not among the files shown. `TaskFilters.CategoryOptionsDifferFromDefaults` therefore states the mismatch in terms of the offered values only.
- The dialogs, cards, lists, header, help dialog, layout script and constant label maps are not modelled.
- The context wrappers in `TaskContext.tsx` other than `addTask` are not modelled: each is a one-line dispatch of a reducer action. `addTask` first creates the task with a counter id and is `TaskReducer.Reducer.AddTaskFromForm`.
- DataExportImport.ConvertJsonForImport reads only elements whose tags are all strings. The validator checks only that `tags` is an array, and the source copies other elements as they are; such a value is not a string in the model's form data.
- DataExportImport.ConvertJsonForImport takes the estimate as a number, as the validator guarantees; `readDate` stands for `new Date(v)` on the imported value.
