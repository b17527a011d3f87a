/**
  The actions the task reducer understands and the state it maintains.
 */
module TaskActions {
  import opened TaskTypes

  /**
    `Partial<Task>`: each member either absent (`None`) or present. For the
    optional members a present member may itself hold `undefined`, which the
    object spread copies over the old value, hence the nested `Option`.
   */
  datatype TaskPatch = TaskPatch(
    id: Option<string>,
    title: Option<string>,
    description: Option<string>,
    priority: Option<Priority>,
    status: Option<Status>,
    category: Option<string>,
    tags: Option<seq<string>>,
    dueDate: Option<Time>,
    createdAt: Option<Time>,
    updatedAt: Option<Time>,
    assignedTo: Option<Option<string>>,
    estimatedTime: Option<Option<real>>)

  /**
    The fourteen members of the `TaskAction` union, and `Unrecognized` for any
    other object a caller dispatches, which lands in the reducer's `default` branch.
   */
  datatype TaskAction =
    | SetTasks(tasks: seq<Task>)
    | AddTask(task: Task)
    | UpdateTask(id: string, updates: TaskPatch)
    | DeleteTask(id: string)
    | ToggleTaskStatus(id: string)
    | DuplicateTask(task: Task)
    | BulkDelete(ids: seq<string>)
    | BulkUpdateStatus(ids: seq<string>, status: Status)
    | SelectTask(id: string, selected: bool)
    | SelectAllTasks(selected: bool)
    | ClearSelection
    | ImportTasks(forms: seq<TaskFormData>)
    | SetLoading(loading: bool)
    | SetError(error: Option<string>)
    | Unrecognized(kind: string)

  datatype TaskState = TaskState(
    tasks: seq<Task>,
    selectedTaskIds: seq<string>,
    isLoading: bool,
    error: Option<string>,
    lastAction: Option<string>)

  const InitialTaskState := TaskState([], [], false, None, None)
}
