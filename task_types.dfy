/**
  The task entity and its form counterpart. Points in time (`Date`) are
  milliseconds since the epoch; JavaScript numbers (`estimatedTime`, in minutes)
  are reals. An optional member (`assignedTo?`, `estimatedTime?`) is an
  `Option`: `None` stands for `undefined`.
 */
module TaskTypes {

  datatype Option<+T> = None | Some(value: T)

  datatype Priority = Low | Medium | High

  datatype Status = Todo | InProgress | Done

  type Time = int

  /** The string literals of the priority union, `'low' | 'medium' | 'high'`, in declaration order. */
  const PriorityNames: seq<string> := ["low", "medium", "high"]

  /** The string literals of the status union, `'todo' | 'in-progress' | 'done'`, in declaration order. */
  const StatusNames: seq<string> := ["todo", "in-progress", "done"]

  /** The categories a task form offers, first the default. */
  const DefaultCategories: seq<string> := ["Work", "Personal", "Shopping", "Health", "Learning", "Other"]

  function PriorityName(p: Priority): (name: string)
    ensures name in PriorityNames
  {
    match p
    case Low => "low"
    case Medium => "medium"
    case High => "high"
  }

  function StatusName(s: Status): (name: string)
    ensures name in StatusNames
  {
    match s
    case Todo => "todo"
    case InProgress => "in-progress"
    case Done => "done"
  }

  /** The priority a string literal names, if it names one. */
  function ParsePriority(name: string): (r: Option<Priority>)
    ensures r.Some? <==> name in PriorityNames
    ensures r.Some? ==> PriorityName(r.value) == name
  {
    if name == "low" then Some(Low)
    else if name == "medium" then Some(Medium)
    else if name == "high" then Some(High)
    else None
  }

  /** The status a string literal names, if it names one. */
  function ParseStatus(name: string): (r: Option<Status>)
    ensures r.Some? <==> name in StatusNames
    ensures r.Some? ==> StatusName(r.value) == name
  {
    if name == "todo" then Some(Todo)
    else if name == "in-progress" then Some(InProgress)
    else if name == "done" then Some(Done)
    else None
  }

  /** Every priority is named by exactly its own literal. */
  lemma PriorityNameRoundTrip(p: Priority)
    ensures ParsePriority(PriorityName(p)) == Some(p)
  {
  }

  /** Every status is named by exactly its own literal. */
  lemma StatusNameRoundTrip(s: Status)
    ensures ParseStatus(StatusName(s)) == Some(s)
  {
  }

  datatype Task = Task(
    id: string,
    title: string,
    description: string,
    priority: Priority,
    status: Status,
    category: string,
    tags: seq<string>,
    dueDate: Time,
    createdAt: Time,
    updatedAt: Time,
    assignedTo: Option<string>,
    estimatedTime: Option<real>)

  /** The fields a user enters: a task without id, timestamps and assignee. */
  datatype TaskFormData = TaskFormData(
    title: string,
    description: string,
    priority: Priority,
    status: Status,
    category: string,
    tags: seq<string>,
    dueDate: Time,
    estimatedTime: Option<real>)

  /**
    `{ id, ...formData, createdAt: now, updatedAt: now }`: the object both the
    reducer's `createTaskFromFormData` and the `useTasks` hook build for a new task.
   */
  function TaskFromFormData(fd: TaskFormData, id: string, now: Time): (t: Task)
    ensures t.id == id && t.createdAt == now && t.updatedAt == now
    ensures t.assignedTo == None
    ensures FormDataOf(t) == fd
  {
    Task(id, fd.title, fd.description, fd.priority, fd.status, fd.category,
         fd.tags, fd.dueDate, now, now, None, fd.estimatedTime)
  }

  /** The form fields of a task: what remains once id, timestamps and assignee are dropped. */
  function FormDataOf(t: Task): TaskFormData {
    TaskFormData(t.title, t.description, t.priority, t.status, t.category,
                 t.tags, t.dueDate, t.estimatedTime)
  }

  /** The id of every task, in task order (`tasks.map(task => task.id)`). */
  function Ids(ts: seq<Task>): (r: seq<string>)
    ensures |r| == |ts|
    ensures forall i :: 0 <= i < |ts| ==> r[i] == ts[i].id
  {
    seq(|ts|, i requires 0 <= i < |ts| => ts[i].id)
  }

  /** No two tasks share an id. */
  ghost predicate UniqueIds(ts: seq<Task>) {
    forall i, j :: 0 <= i < |ts| && 0 <= j < |ts| && ts[i].id == ts[j].id ==> i == j
  }
}
