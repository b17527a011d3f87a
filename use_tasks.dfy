/**
  The `useTasks` hook: the task list and the loading flag as state, the list
  updates its callbacks perform, and the comparators of `getSortedTasks`. The
  hook's own id generator (clock and random digits) is left to the caller,
  which passes the id in; the clock is the parameter `now`.
 */
module UseTasks {
  import opened TaskTypes
  import opened TaskActions
  import opened Seqs
  import TaskReducer

  /** The status the hook's toggle moves to: done -> todo, todo -> in-progress, anything else -> done. */
  function ToggledStatus(s: Status): (r: Status)
    ensures r == TaskReducer.NextStatus(s)
  {
    if s == Done then Todo else if s == Todo then InProgress else Done
  }

  /** `Partial<TaskFormData>`; a present `estimatedTime` may itself hold `undefined`. */
  datatype FormPatch = FormPatch(
    title: Option<string>,
    description: Option<string>,
    priority: Option<Priority>,
    status: Option<Status>,
    category: Option<string>,
    tags: Option<seq<string>>,
    dueDate: Option<Time>,
    estimatedTime: Option<Option<real>>)

  /** The same patch as a `Partial<Task>`: it never names id, timestamps or assignee. */
  function AsTaskPatch(p: FormPatch): (q: TaskPatch)
    ensures q.id.None? && q.createdAt.None? && q.updatedAt.None? && q.assignedTo.None?
  {
    TaskPatch(None, p.title, p.description, p.priority, p.status, p.category, p.tags,
              p.dueDate, None, None, None, p.estimatedTime)
  }

  function Pick<T>(o: Option<T>, old_: T): T {
    match o
    case Some(v) => v
    case None => old_
  }

  /** `{ ...task, ...taskData }`. */
  function ApplyFormPatch(t: Task, p: FormPatch): (u: Task)
    ensures u.id == t.id && u.createdAt == t.createdAt && u.updatedAt == t.updatedAt
    ensures u.assignedTo == t.assignedTo
    ensures u == TaskReducer.ApplyPatch(t, AsTaskPatch(p))
  {
    t.(title := Pick(p.title, t.title), description := Pick(p.description, t.description),
       priority := Pick(p.priority, t.priority), status := Pick(p.status, t.status),
       category := Pick(p.category, t.category), tags := Pick(p.tags, t.tags),
       dueDate := Pick(p.dueDate, t.dueDate), estimatedTime := Pick(p.estimatedTime, t.estimatedTime))
  }

  // ----- the list updates -----

  /** `[...prevTasks, newTask]` with `newTask = { id, ...taskData, createdAt: now, updatedAt: now }`. */
  function AddedTasks(ts: seq<Task>, fd: TaskFormData, id: string, now: Time): (r: seq<Task>)
    ensures |r| == |ts| + 1 && r[..|ts|] == ts
    ensures r[|ts|].id == id && FormDataOf(r[|ts|]) == fd
    ensures r[|ts|].createdAt == now && r[|ts|].updatedAt == now
  {
    ts + [TaskFromFormData(fd, id, now)]
  }

  function UpdatedTasks(ts: seq<Task>, id: string, p: FormPatch, now: Time): (r: seq<Task>)
    ensures |r| == |ts| && Ids(r) == Ids(ts)
    ensures forall i :: 0 <= i < |ts| && ts[i].id != id ==> r[i] == ts[i]
    ensures forall i :: 0 <= i < |ts| && ts[i].id == id ==> r[i] == ApplyFormPatch(ts[i], p).(updatedAt := now)
  {
    seq(|ts|, i requires 0 <= i < |ts| =>
      if ts[i].id == id then ApplyFormPatch(ts[i], p).(updatedAt := now) else ts[i])
  }

  function DeletedTasks(ts: seq<Task>, id: string): (r: seq<Task>)
    ensures Keeps(r, ts, TaskReducer.OtherTask(id))
  {
    FilterKeeps(ts, TaskReducer.OtherTask(id));
    Filter(ts, TaskReducer.OtherTask(id))
  }

  function ToggledTasks(ts: seq<Task>, id: string, now: Time): (r: seq<Task>)
    ensures |r| == |ts| && Ids(r) == Ids(ts)
    ensures forall i :: 0 <= i < |ts| && ts[i].id != id ==> r[i] == ts[i]
    ensures forall i :: 0 <= i < |ts| && ts[i].id == id ==>
              r[i] == ts[i].(status := ToggledStatus(ts[i].status), updatedAt := now)
  {
    seq(|ts|, i requires 0 <= i < |ts| =>
      if ts[i].id == id then ts[i].(status := ToggledStatus(ts[i].status), updatedAt := now) else ts[i])
  }

  // ----- agreement with the reducer -----

  /** The hook's add appends what the reducer's `ADD_TASK` appends for the created task. */
  lemma AddAgreesWithReducer(s: TaskState, fd: TaskFormData, id: string, now: Time)
    ensures AddedTasks(s.tasks, fd, id, now) == TaskReducer.ReduceAddTask(s, TaskFromFormData(fd, id, now)).tasks
  {
  }

  lemma UpdateAgreesWithReducer(s: TaskState, id: string, p: FormPatch, now: Time)
    ensures UpdatedTasks(s.tasks, id, p, now) == TaskReducer.ReduceUpdateTask(s, id, AsTaskPatch(p), now).tasks
  {
  }

  lemma DeleteAgreesWithReducer(s: TaskState, id: string)
    ensures DeletedTasks(s.tasks, id) == TaskReducer.ReduceDeleteTask(s, id).tasks
  {
  }

  lemma ToggleAgreesWithReducer(s: TaskState, id: string, now: Time)
    ensures ToggledTasks(s.tasks, id, now) == TaskReducer.ReduceToggleTaskStatus(s, id, now).tasks
  {
    var r := TaskReducer.ReduceToggleTaskStatus(s, id, now).tasks;
    assert forall i :: 0 <= i < |s.tasks| ==> ToggledTasks(s.tasks, id, now)[i] == r[i];
  }

  // ----- sorting -----

  /** `'priority' | 'dueDate' | 'status'`. */
  datatype SortKey = ByPriority | ByDueDate | ByStatus

  const DefaultSortKey := ByDueDate

  /** `{ high: 3, medium: 2, low: 1 }`. */
  function PriorityRank(p: Priority): int {
    match p
    case High => 3
    case Medium => 2
    case Low => 1
  }

  /** `{ todo: 1, 'in-progress': 2, done: 3 }`. */
  function StatusRank(s: Status): int {
    match s
    case Todo => 1
    case InProgress => 2
    case Done => 3
  }

  /** The comparator handed to `sort`: negative when `a` goes first. */
  function Compare(a: Task, b: Task, sortBy: SortKey): int {
    match sortBy
    case ByPriority => PriorityRank(b.priority) - PriorityRank(a.priority)
    case ByDueDate => a.dueDate - b.dueDate
    case ByStatus => StatusRank(a.status) - StatusRank(b.status)
  }

  /** A key whose difference is the comparator. */
  function SortKeyOf(sortBy: SortKey): Task -> int {
    match sortBy
    case ByPriority => ((t: Task) => -PriorityRank(t.priority))
    case ByDueDate => ((t: Task) => t.dueDate)
    case ByStatus => ((t: Task) => StatusRank(t.status))
  }

  /** Every comparator is a key difference, so sorting with it is sorting by that key. */
  lemma CompareIsKeyDifference(a: Task, b: Task, sortBy: SortKey)
    ensures Compare(a, b, sortBy) == SortKeyOf(sortBy)(a) - SortKeyOf(sortBy)(b)
  {
  }

  /** `[...tasks].sort(comparator)`: a stable sort of a copy. */
  function SortedTasks(ts: seq<Task>, sortBy: SortKey): (r: seq<Task>)
    ensures multiset(r) == multiset(ts) && |r| == |ts|
    ensures forall i, j :: 0 <= i < j < |r| ==> Compare(r[i], r[j], sortBy) <= 0
  {
    var r := SortByKey(ts, SortKeyOf(sortBy));
    assert SortedByKey(r, SortKeyOf(sortBy));
    r
  }

  /** The priority sort puts high before medium before low. */
  lemma PrioritySortOrder(ts: seq<Task>)
    ensures var r := SortedTasks(ts, ByPriority);
      forall i, j :: 0 <= i < j < |r| ==> PriorityRank(r[i].priority) >= PriorityRank(r[j].priority)
  {
    var r := SortedTasks(ts, ByPriority);
    forall i, j | 0 <= i < j < |r| ensures PriorityRank(r[i].priority) >= PriorityRank(r[j].priority) {
      assert Compare(r[i], r[j], ByPriority) <= 0;
    }
  }

  /** The due-date sort is ascending: earliest first. */
  lemma DueDateSortAscending(ts: seq<Task>)
    ensures var r := SortedTasks(ts, ByDueDate);
      forall i, j :: 0 <= i < j < |r| ==> r[i].dueDate <= r[j].dueDate
  {
    var r := SortedTasks(ts, ByDueDate);
    forall i, j | 0 <= i < j < |r| ensures r[i].dueDate <= r[j].dueDate {
      assert Compare(r[i], r[j], ByDueDate) <= 0;
    }
  }

  /** The status sort puts todo before in-progress before done. */
  lemma StatusSortOrder(ts: seq<Task>)
    ensures var r := SortedTasks(ts, ByStatus);
      forall i, j :: 0 <= i < j < |r| ==> StatusRank(r[i].status) <= StatusRank(r[j].status)
  {
    var r := SortedTasks(ts, ByStatus);
    forall i, j | 0 <= i < j < |r| ensures StatusRank(r[i].status) <= StatusRank(r[j].status) {
      assert Compare(r[i], r[j], ByStatus) <= 0;
    }
  }

  /** Tasks that compare equal keep their relative order. */
  lemma SortStable(ts: seq<Task>, sortBy: SortKey, a: Task)
    ensures Filter(SortedTasks(ts, sortBy), (t: Task) => Compare(t, a, sortBy) == 0)
         == Filter(ts, (t: Task) => Compare(t, a, sortBy) == 0)
  {
    var key := SortKeyOf(sortBy);
    var k := key(a);
    SortByKeyStable(ts, key, k);
    var tie := (t: Task) => Compare(t, a, sortBy) == 0;
    forall t: Task ensures tie(t) == KeyIs(key, k)(t) {
      CompareIsKeyDifference(t, a, sortBy);
    }
    FilterCongruent(SortedTasks(ts, sortBy), tie, KeyIs(key, k));
    FilterCongruent(ts, tie, KeyIs(key, k));
  }

  /**
    The hook's state: the task list (persisted by `useLocalStorage`, whose
    storage is not part of this model) and the loading flag.
   */
  class TasksHook {
    var tasks: seq<Task>
    var isLoading: bool

    constructor (stored: seq<Task>)
      ensures tasks == stored && !isLoading
    {
      tasks := stored;
      isLoading := false;
    }

    /** `addTask`; `id` is what the hook's generator returned. */
    method AddTask(fd: TaskFormData, id: string, now: Time) returns (t: Task)
      modifies this
      ensures t == TaskFromFormData(fd, id, now)
      ensures tasks == old(tasks) + [t] && !isLoading
    {
      isLoading := true;
      t := TaskFromFormData(fd, id, now);
      tasks := tasks + [t];
      isLoading := false;
    }

    method UpdateTask(id: string, p: FormPatch, now: Time)
      modifies this
      ensures tasks == UpdatedTasks(old(tasks), id, p, now) && !isLoading
    {
      isLoading := true;
      tasks := UpdatedTasks(tasks, id, p, now);
      isLoading := false;
    }

    method DeleteTask(id: string)
      modifies this
      ensures tasks == DeletedTasks(old(tasks), id) && !isLoading
    {
      isLoading := true;
      tasks := DeletedTasks(tasks, id);
      isLoading := false;
    }

    method ToggleTaskStatus(id: string, now: Time)
      modifies this
      ensures tasks == ToggledTasks(old(tasks), id, now) && !isLoading
    {
      isLoading := true;
      tasks := ToggledTasks(tasks, id, now);
      isLoading := false;
    }

    /** `getSortedTasks(sortBy)`: sorts a copy and leaves `tasks` as it is. */
    method GetSortedTasks(sortBy: SortKey) returns (sorted: seq<Task>)
      ensures multiset(sorted) == multiset(tasks)
      ensures forall i, j :: 0 <= i < j < |sorted| ==> Compare(sorted[i], sorted[j], sortBy) <= 0
      ensures sorted == SortedTasks(tasks, sortBy)
    {
      sorted := SortedTasks(tasks, sortBy);
    }
  }
}
