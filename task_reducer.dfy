/**
  The task reducer: one function per action from the old state to the new one,
  the total reducer `Reduce`, and the module-level id counter as the field of
  `Reducer`, whose methods draw ids from it. The clock (`createSafeDate`) is the
  parameter `now`.
 */
module TaskReducer {
  import opened TaskTypes
  import opened TaskActions
  import opened Seqs
  import Strings

  /** `getNextStatus`: the status cycle todo -> in-progress -> done -> todo. */
  function NextStatus(s: Status): (r: Status)
    ensures r != s
  {
    match s
    case Todo => InProgress
    case InProgress => Done
    case Done => Todo
  }

  /** The cycle has length exactly three. */
  lemma NextStatusCycle(s: Status)
    ensures NextStatus(NextStatus(NextStatus(s))) == s
    ensures NextStatus(NextStatus(s)) != s
  {
  }

  /** The id `generateId` returns once the counter has reached `n`: `task_<n>`. */
  function TaskId(n: nat): (id: string)
    ensures |id| > 5 && id[..5] == "task_" && id[5..] == Strings.NatToString(n)
  {
    "task_" + Strings.NatToString(n)
  }

  /** Distinct counter values give distinct ids. */
  lemma TaskIdInjective(m: nat, n: nat)
    ensures TaskId(m) == TaskId(n) ==> m == n
  {
    if TaskId(m) == TaskId(n) {
      assert TaskId(m)[5..] == TaskId(n)[5..];
      Strings.NatToStringInjective(m, n);
    }
  }

  function Pick<T>(o: Option<T>, old_: T): T {
    match o
    case Some(v) => v
    case None => old_
  }

  /** `{ ...task, ...updates }`: every member present in the patch overwrites the task's. */
  function ApplyPatch(t: Task, p: TaskPatch): Task {
    Task(Pick(p.id, t.id), Pick(p.title, t.title), Pick(p.description, t.description),
         Pick(p.priority, t.priority), Pick(p.status, t.status), Pick(p.category, t.category),
         Pick(p.tags, t.tags), Pick(p.dueDate, t.dueDate), Pick(p.createdAt, t.createdAt),
         Pick(p.updatedAt, t.updatedAt), Pick(p.assignedTo, t.assignedTo),
         Pick(p.estimatedTime, t.estimatedTime))
  }

  /** The copy `DUPLICATE_TASK` appends: a fresh id, " (Copy)" on the title, new timestamps. */
  function Duplicate(t: Task, id: string, now: Time): (d: Task)
    ensures d.id == id && d.title == t.title + " (Copy)"
    ensures d.createdAt == now && d.updatedAt == now
    ensures FormDataOf(d) == FormDataOf(t).(title := t.title + " (Copy)")
    ensures d.assignedTo == t.assignedTo
  {
    t.(id := id, title := t.title + " (Copy)", createdAt := now, updatedAt := now)
  }

  function OtherTask(id: string): Task -> bool {
    (t: Task) => t.id != id
  }

  function OtherId(id: string): string -> bool {
    x => x != id
  }

  function TaskNotListed(ids: seq<string>): Task -> bool {
    (t: Task) => t.id !in ids
  }

  function IdNotListed(ids: seq<string>): string -> bool {
    x => x !in ids
  }

  // ----- one function per action -----

  function ReduceSetTasks(s: TaskState, ts: seq<Task>): (r: TaskState)
    ensures r.tasks == ts
    ensures r.selectedTaskIds == s.selectedTaskIds && r.isLoading == s.isLoading
    ensures r.error == None && r.lastAction == Some("SET_TASKS")
  {
    s.(tasks := ts, lastAction := Some("SET_TASKS"), error := None)
  }

  function ReduceAddTask(s: TaskState, t: Task): (r: TaskState)
    ensures r.tasks == s.tasks + [t]
    ensures r.selectedTaskIds == s.selectedTaskIds && r.isLoading == s.isLoading
    ensures r.error == None && r.lastAction == Some("ADD_TASK")
  {
    s.(tasks := s.tasks + [t], lastAction := Some("ADD_TASK"), error := None)
  }

  function ReduceUpdateTask(s: TaskState, id: string, p: TaskPatch, now: Time): (r: TaskState)
    ensures |r.tasks| == |s.tasks|
    ensures forall i :: 0 <= i < |s.tasks| && s.tasks[i].id != id ==> r.tasks[i] == s.tasks[i]
    ensures forall i :: 0 <= i < |s.tasks| && s.tasks[i].id == id ==>
              r.tasks[i] == ApplyPatch(s.tasks[i], p).(updatedAt := now)
    ensures r.selectedTaskIds == s.selectedTaskIds && r.isLoading == s.isLoading
    ensures r.error == None && r.lastAction == Some("UPDATE_TASK")
  {
    var ts := s.tasks;
    var updated := seq(|ts|, i requires 0 <= i < |ts| =>
      if ts[i].id == id then ApplyPatch(ts[i], p).(updatedAt := now) else ts[i]);
    s.(tasks := updated, lastAction := Some("UPDATE_TASK"), error := None)
  }

  function ReduceDeleteTask(s: TaskState, id: string): (r: TaskState)
    ensures Keeps(r.tasks, s.tasks, OtherTask(id))
    ensures Keeps(r.selectedTaskIds, s.selectedTaskIds, OtherId(id))
    ensures r.isLoading == s.isLoading
    ensures r.error == None && r.lastAction == Some("DELETE_TASK")
  {
    FilterKeeps(s.tasks, OtherTask(id));
    FilterKeeps(s.selectedTaskIds, OtherId(id));
    s.(tasks := Filter(s.tasks, OtherTask(id)),
       selectedTaskIds := Filter(s.selectedTaskIds, OtherId(id)),
       lastAction := Some("DELETE_TASK"), error := None)
  }

  function ReduceToggleTaskStatus(s: TaskState, id: string, now: Time): (r: TaskState)
    ensures |r.tasks| == |s.tasks| && Ids(r.tasks) == Ids(s.tasks)
    ensures forall i :: 0 <= i < |s.tasks| && s.tasks[i].id != id ==> r.tasks[i] == s.tasks[i]
    ensures forall i :: 0 <= i < |s.tasks| && s.tasks[i].id == id ==>
              r.tasks[i] == s.tasks[i].(status := NextStatus(s.tasks[i].status), updatedAt := now)
    ensures r.selectedTaskIds == s.selectedTaskIds && r.isLoading == s.isLoading
    ensures r.error == None && r.lastAction == Some("TOGGLE_TASK_STATUS")
  {
    var ts := s.tasks;
    var toggled := seq(|ts|, i requires 0 <= i < |ts| =>
      if ts[i].id == id then ts[i].(status := NextStatus(ts[i].status), updatedAt := now) else ts[i]);
    s.(tasks := toggled, lastAction := Some("TOGGLE_TASK_STATUS"), error := None)
  }

  /** `newId` is what `generateId` returned for this action. */
  function ReduceDuplicateTask(s: TaskState, t: Task, newId: string, now: Time): (r: TaskState)
    ensures r.tasks == s.tasks + [Duplicate(t, newId, now)]
    ensures r.selectedTaskIds == s.selectedTaskIds && r.isLoading == s.isLoading
    ensures r.error == None && r.lastAction == Some("DUPLICATE_TASK")
  {
    s.(tasks := s.tasks + [Duplicate(t, newId, now)], lastAction := Some("DUPLICATE_TASK"), error := None)
  }

  function ReduceBulkDelete(s: TaskState, ids: seq<string>): (r: TaskState)
    ensures Keeps(r.tasks, s.tasks, TaskNotListed(ids))
    ensures Keeps(r.selectedTaskIds, s.selectedTaskIds, IdNotListed(ids))
    ensures r.isLoading == s.isLoading
    ensures r.error == None && r.lastAction == Some("BULK_DELETE")
  {
    FilterKeeps(s.tasks, TaskNotListed(ids));
    FilterKeeps(s.selectedTaskIds, IdNotListed(ids));
    s.(tasks := Filter(s.tasks, TaskNotListed(ids)),
       selectedTaskIds := Filter(s.selectedTaskIds, IdNotListed(ids)),
       lastAction := Some("BULK_DELETE"), error := None)
  }

  function ReduceBulkUpdateStatus(s: TaskState, ids: seq<string>, st: Status, now: Time): (r: TaskState)
    ensures |r.tasks| == |s.tasks| && Ids(r.tasks) == Ids(s.tasks)
    ensures forall i :: 0 <= i < |s.tasks| && s.tasks[i].id !in ids ==> r.tasks[i] == s.tasks[i]
    ensures forall i :: 0 <= i < |s.tasks| && s.tasks[i].id in ids ==>
              r.tasks[i] == s.tasks[i].(status := st, updatedAt := now)
    ensures r.selectedTaskIds == s.selectedTaskIds && r.isLoading == s.isLoading
    ensures r.error == None && r.lastAction == Some("BULK_UPDATE_STATUS")
  {
    var ts := s.tasks;
    var updated := seq(|ts|, i requires 0 <= i < |ts| =>
      if ts[i].id in ids then ts[i].(status := st, updatedAt := now) else ts[i]);
    s.(tasks := updated, lastAction := Some("BULK_UPDATE_STATUS"), error := None)
  }

  function ReduceSelectTask(s: TaskState, id: string, selected: bool): (r: TaskState)
    ensures selected ==> r.selectedTaskIds == s.selectedTaskIds + [id]
    ensures !selected ==> Keeps(r.selectedTaskIds, s.selectedTaskIds, OtherId(id))
    ensures r.tasks == s.tasks && r.error == s.error && r.isLoading == s.isLoading
    ensures r.lastAction == Some("SELECT_TASK")
  {
    FilterKeeps(s.selectedTaskIds, OtherId(id));
    s.(selectedTaskIds := if selected then s.selectedTaskIds + [id]
                          else Filter(s.selectedTaskIds, OtherId(id)),
       lastAction := Some("SELECT_TASK"))
  }

  function ReduceSelectAllTasks(s: TaskState, selected: bool): (r: TaskState)
    ensures r.selectedTaskIds == if selected then Ids(s.tasks) else []
    ensures r.tasks == s.tasks && r.error == s.error && r.isLoading == s.isLoading
    ensures r.lastAction == Some("SELECT_ALL_TASKS")
  {
    s.(selectedTaskIds := if selected then Ids(s.tasks) else [], lastAction := Some("SELECT_ALL_TASKS"))
  }

  function ReduceClearSelection(s: TaskState): (r: TaskState)
    ensures r.selectedTaskIds == []
    ensures r.tasks == s.tasks && r.error == s.error && r.isLoading == s.isLoading
    ensures r.lastAction == Some("CLEAR_SELECTION")
  {
    s.(selectedTaskIds := [], lastAction := Some("CLEAR_SELECTION"))
  }

  /**
    `payload.map(createTaskFromFormData)` with the counter at `counter`: the k-th
    form becomes a task with id `task_<counter + 1 + k>`.
   */
  function ImportedTasks(forms: seq<TaskFormData>, now: Time, counter: nat): (r: seq<Task>)
    ensures |r| == |forms|
    ensures forall k :: 0 <= k < |forms| ==> r[k] == TaskFromFormData(forms[k], TaskId(counter + 1 + k), now)
  {
    seq(|forms|, k requires 0 <= k < |forms| => TaskFromFormData(forms[k], TaskId(counter + 1 + k), now))
  }

  function ReduceImportTasks(s: TaskState, forms: seq<TaskFormData>, now: Time, counter: nat): (r: TaskState)
    ensures r.tasks == s.tasks + ImportedTasks(forms, now, counter)
    ensures |r.tasks| == |s.tasks| + |forms| && r.tasks[..|s.tasks|] == s.tasks
    ensures forall k :: 0 <= k < |forms| ==>
              FormDataOf(r.tasks[|s.tasks| + k]) == forms[k] && r.tasks[|s.tasks| + k].id == TaskId(counter + 1 + k)
    ensures r.selectedTaskIds == s.selectedTaskIds && r.isLoading == s.isLoading
    ensures r.error == None && r.lastAction == Some("IMPORT_TASKS")
  {
    var r := s.(tasks := s.tasks + ImportedTasks(forms, now, counter), lastAction := Some("IMPORT_TASKS"), error := None);
    assert r.tasks[..|s.tasks|] == s.tasks;
    r
  }

  /** `SET_LOADING`: only the loading flag changes. */
  function ReduceSetLoading(s: TaskState, loading: bool): (r: TaskState)
    ensures r.isLoading == loading
    ensures r.tasks == s.tasks && r.selectedTaskIds == s.selectedTaskIds
    ensures r.error == s.error && r.lastAction == s.lastAction
  {
    s.(isLoading := loading)
  }

  /** `SET_ERROR`: the error is set and loading ends; nothing else changes. */
  function ReduceSetError(s: TaskState, e: Option<string>): (r: TaskState)
    ensures r.error == e && !r.isLoading
    ensures r.tasks == s.tasks && r.selectedTaskIds == s.selectedTaskIds
    ensures r.lastAction == s.lastAction
  {
    s.(error := e, isLoading := false)
  }

  // ----- the reducer -----

  /** The state after an action, and the id counter after it. */
  datatype Step = Step(state: TaskState, counter: nat)

  /** How many ids an action draws from the counter. */
  function IdsDrawn(a: TaskAction): nat {
    match a
    case DuplicateTask(_) => 1
    case ImportTasks(forms) => |forms|
    case _ => 0
  }

  /** The actions that change task data (and so clear `error`). */
  predicate ChangesData(a: TaskAction) {
    a.SetTasks? || a.AddTask? || a.UpdateTask? || a.DeleteTask? || a.ToggleTaskStatus?
    || a.DuplicateTask? || a.BulkDelete? || a.BulkUpdateStatus? || a.ImportTasks?
  }

  /** `taskReducer(state, action)` with the id counter at `counter` and the clock at `now`. */
  function Reduce(s: TaskState, a: TaskAction, now: Time, counter: nat): (r: Step)
    ensures r.counter == counter + IdsDrawn(a)
  {
    match a
    case SetTasks(ts) => Step(ReduceSetTasks(s, ts), counter)
    case AddTask(t) => Step(ReduceAddTask(s, t), counter)
    case UpdateTask(id, p) => Step(ReduceUpdateTask(s, id, p, now), counter)
    case DeleteTask(id) => Step(ReduceDeleteTask(s, id), counter)
    case ToggleTaskStatus(id) => Step(ReduceToggleTaskStatus(s, id, now), counter)
    case DuplicateTask(t) => Step(ReduceDuplicateTask(s, t, TaskId(counter + 1), now), counter + 1)
    case BulkDelete(ids) => Step(ReduceBulkDelete(s, ids), counter)
    case BulkUpdateStatus(ids, st) => Step(ReduceBulkUpdateStatus(s, ids, st, now), counter)
    case SelectTask(id, selected) => Step(ReduceSelectTask(s, id, selected), counter)
    case SelectAllTasks(selected) => Step(ReduceSelectAllTasks(s, selected), counter)
    case ClearSelection => Step(ReduceClearSelection(s), counter)
    case ImportTasks(forms) => Step(ReduceImportTasks(s, forms, now, counter), counter + |forms|)
    case SetLoading(loading) => Step(ReduceSetLoading(s, loading), counter)
    case SetError(e) => Step(ReduceSetError(s, e), counter)
    case Unrecognized(_) => Step(s, counter)
  }

  /**
    Every action that changes task data clears the error; the selection
    actions leave the tasks, the error and the loading flag alone; the loading
    and error actions leave the tasks and the selection alone.
   */
  lemma ReduceEffects(s: TaskState, a: TaskAction, now: Time, counter: nat)
    ensures ChangesData(a) ==> Reduce(s, a, now, counter).state.error == None
    ensures a.SelectTask? || a.SelectAllTasks? || a.ClearSelection? ==>
      var r := Reduce(s, a, now, counter).state;
      r.tasks == s.tasks && r.error == s.error && r.isLoading == s.isLoading
    ensures a.SetLoading? || a.SetError? ==>
      var r := Reduce(s, a, now, counter).state;
      r.tasks == s.tasks && r.selectedTaskIds == s.selectedTaskIds && r.lastAction == s.lastAction
    ensures a.Unrecognized? ==> Reduce(s, a, now, counter).state == s
  {
    match a {
      case SelectTask(id, selected) => assert Reduce(s, a, now, counter).state == ReduceSelectTask(s, id, selected);
      case SelectAllTasks(selected) => assert Reduce(s, a, now, counter).state == ReduceSelectAllTasks(s, selected);
      case ClearSelection => assert Reduce(s, a, now, counter).state == ReduceClearSelection(s);
      case _ =>
    }
  }

  /**
    The reducer module as an object: `idCounter` is the module-level counter,
    advanced by `generateId` from the actions that create tasks.
   */
  class Reducer {
    var idCounter: nat

    constructor ()
      ensures idCounter == 0
    {
      idCounter := 0;
    }

    /** `generateId`: `task_${++idCounter}`. */
    method GenerateId() returns (id: string)
      modifies this
      ensures idCounter == old(idCounter) + 1
      ensures id == TaskId(idCounter)
    {
      idCounter := idCounter + 1;
      id := "task_" + Strings.NatToString(idCounter);
    }

    /** `createTaskFromFormData`: a fresh id, the form's fields, both timestamps `now`. */
    method CreateTaskFromFormData(fd: TaskFormData, now: Time) returns (t: Task)
      modifies this
      ensures idCounter == old(idCounter) + 1
      ensures t == TaskFromFormData(fd, TaskId(idCounter), now)
    {
      var id := GenerateId();
      t := TaskFromFormData(fd, id, now);
    }

    /** `payload.map(createTaskFromFormData)`: one fresh id per form, in order. */
    method CreateTasksFromFormData(forms: seq<TaskFormData>, now: Time) returns (imported: seq<Task>)
      modifies this
      ensures idCounter == old(idCounter) + |forms|
      ensures imported == ImportedTasks(forms, now, old(idCounter))
    {
      imported := [];
      var i := 0;
      while i < |forms|
        invariant 0 <= i <= |forms|
        invariant idCounter == old(idCounter) + i
        invariant |imported| == i
        invariant forall k :: 0 <= k < i ==> imported[k] == TaskFromFormData(forms[k], TaskId(old(idCounter) + 1 + k), now)
      {
        var t := CreateTaskFromFormData(forms[i], now);
        imported := imported + [t];
        i := i + 1;
      }
    }

    /** The context's `addTask`: a task is created from the form with a fresh id, then `ADD_TASK` is dispatched. */
    method AddTaskFromForm(s: TaskState, fd: TaskFormData, now: Time) returns (r: TaskState)
      modifies this
      ensures idCounter == old(idCounter) + 1
      ensures r == ReduceAddTask(s, TaskFromFormData(fd, TaskId(idCounter), now))
    {
      var t := CreateTaskFromFormData(fd, now);
      r := Dispatch(s, AddTask(t), now);
    }

    /** `taskReducer(s, a)`. */
    method Dispatch(s: TaskState, a: TaskAction, now: Time) returns (r: TaskState)
      modifies this
      ensures Step(r, idCounter) == Reduce(s, a, now, old(idCounter))
    {
      match a {
        case DuplicateTask(t) =>
          var id := GenerateId();
          r := ReduceDuplicateTask(s, t, id, now);
        case ImportTasks(forms) =>
          var imported := CreateTasksFromFormData(forms, now);
          r := s.(tasks := s.tasks + imported, lastAction := Some("IMPORT_TASKS"), error := None);
        case SetTasks(ts) => r := ReduceSetTasks(s, ts);
        case AddTask(t) => r := ReduceAddTask(s, t);
        case UpdateTask(id, p) => r := ReduceUpdateTask(s, id, p, now);
        case DeleteTask(id) => r := ReduceDeleteTask(s, id);
        case ToggleTaskStatus(id) => r := ReduceToggleTaskStatus(s, id, now);
        case BulkDelete(ids) => r := ReduceBulkDelete(s, ids);
        case BulkUpdateStatus(ids, st) => r := ReduceBulkUpdateStatus(s, ids, st, now);
        case SelectTask(id, selected) => r := ReduceSelectTask(s, id, selected);
        case SelectAllTasks(selected) => r := ReduceSelectAllTasks(s, selected);
        case ClearSelection => r := ReduceClearSelection(s);
        case SetLoading(loading) => r := ReduceSetLoading(s, loading);
        case SetError(e) => r := ReduceSetError(s, e);
        case Unrecognized(_) => r := s;
      }
    }
  }

  // ----- properties of single actions -----

  /** Toggling one id three times restores every status; only the touched tasks keep a new `updatedAt`. */
  lemma ToggleThreeTimes(s: TaskState, id: string, t1: Time, t2: Time, t3: Time)
    ensures var r := ReduceToggleTaskStatus(ReduceToggleTaskStatus(ReduceToggleTaskStatus(s, id, t1), id, t2), id, t3);
      && |r.tasks| == |s.tasks|
      && forall i :: 0 <= i < |s.tasks| ==>
           r.tasks[i] == if s.tasks[i].id == id then s.tasks[i].(updatedAt := t3) else s.tasks[i]
  {
    var s1 := ReduceToggleTaskStatus(s, id, t1);
    var s2 := ReduceToggleTaskStatus(s1, id, t2);
    var s3 := ReduceToggleTaskStatus(s2, id, t3);
    forall i | 0 <= i < |s.tasks|
      ensures s3.tasks[i] == if s.tasks[i].id == id then s.tasks[i].(updatedAt := t3) else s.tasks[i]
    {
      assert Ids(s1.tasks)[i] == Ids(s.tasks)[i];
      assert Ids(s2.tasks)[i] == Ids(s1.tasks)[i];
      NextStatusCycle(s.tasks[i].status);
    }
  }

  /** Updating an id no task has leaves the task list as it was. */
  lemma UpdateAbsentId(s: TaskState, id: string, p: TaskPatch, now: Time)
    requires id !in Ids(s.tasks)
    ensures ReduceUpdateTask(s, id, p, now).tasks == s.tasks
  {
    var r := ReduceUpdateTask(s, id, p, now);
    forall i | 0 <= i < |s.tasks| ensures r.tasks[i] == s.tasks[i] {
      assert Ids(s.tasks)[i] == s.tasks[i].id;
    }
  }

  /** A patch without an `id` member keeps every task's id. */
  lemma UpdateKeepsIds(s: TaskState, id: string, p: TaskPatch, now: Time)
    requires p.id.None? || p.id == Some(id)
    ensures Ids(ReduceUpdateTask(s, id, p, now).tasks) == Ids(s.tasks)
  {
    var r := ReduceUpdateTask(s, id, p, now);
    assert forall i :: 0 <= i < |s.tasks| ==> Ids(r.tasks)[i] == Ids(s.tasks)[i];
  }

  /** Deleting the same id twice is deleting it once. */
  lemma DeleteIdempotent(s: TaskState, id: string)
    ensures ReduceDeleteTask(ReduceDeleteTask(s, id), id) == ReduceDeleteTask(s, id)
  {
    FilterIdempotent(s.tasks, OtherTask(id));
    FilterIdempotent(s.selectedTaskIds, OtherId(id));
  }

  /** Adding a task under a new id and deleting that id gives back the old task list. */
  lemma AddThenDelete(s: TaskState, t: Task)
    requires t.id !in Ids(s.tasks)
    ensures ReduceDeleteTask(ReduceAddTask(s, t), t.id).tasks == s.tasks
  {
    FilterConcat(s.tasks, [t], OtherTask(t.id));
    forall x | x in s.tasks ensures OtherTask(t.id)(x) {
      var i :| 0 <= i < |s.tasks| && s.tasks[i] == x;
      assert Ids(s.tasks)[i] == x.id;
    }
    FilterKeepsAll(s.tasks, OtherTask(t.id));
    assert Filter([t], OtherTask(t.id)) == [];
  }

  /** Bulk-deleting ids no task has changes no task. */
  lemma BulkDeleteAbsentIds(s: TaskState, ids: seq<string>)
    requires forall x :: x in ids ==> x !in Ids(s.tasks)
    ensures ReduceBulkDelete(s, ids).tasks == s.tasks
  {
    forall t | t in s.tasks ensures TaskNotListed(ids)(t) {
      var i :| 0 <= i < |s.tasks| && s.tasks[i] == t;
      assert Ids(s.tasks)[i] == t.id;
    }
    FilterKeepsAll(s.tasks, TaskNotListed(ids));
  }

  /** Bulk-deleting the one-element list `[id]` does what deleting `id` does. */
  lemma BulkDeleteOne(s: TaskState, id: string)
    ensures ReduceBulkDelete(s, [id]).tasks == ReduceDeleteTask(s, id).tasks
    ensures ReduceBulkDelete(s, [id]).selectedTaskIds == ReduceDeleteTask(s, id).selectedTaskIds
  {
    FilterCongruent(s.tasks, TaskNotListed([id]), OtherTask(id));
    FilterCongruent(s.selectedTaskIds, IdNotListed([id]), OtherId(id));
  }

  /** The k-th imported task gets `task_<counter + 1 + k>`, so the imported ids are pairwise distinct. */
  lemma {:induction false} ImportedIdsDistinct(forms: seq<TaskFormData>, now: Time, counter: nat)
    ensures UniqueIds(ImportedTasks(forms, now, counter))
  {
    var r := ImportedTasks(forms, now, counter);
    forall i, j | 0 <= i < |r| && 0 <= j < |r| && r[i].id == r[j].id ensures i == j {
      TaskIdInjective(counter + 1 + i, counter + 1 + j);
    }
  }

  // ----- invariants over the state -----

  /** Every selected id is the id of some task. */
  ghost predicate SelectionConsistent(s: TaskState) {
    forall x :: x in s.selectedTaskIds ==> x in Ids(s.tasks)
  }

  /**
    The actions after which the selection is still made of task ids: all but
    `SET_TASKS` with a list missing a selected id, `UPDATE_TASK` whose patch
    renames the task, and `SELECT_TASK` of an id no task has.
   */
  ghost predicate KeepsSelectionConsistent(s: TaskState, a: TaskAction) {
    match a
    case SetTasks(ts) => forall x :: x in s.selectedTaskIds ==> x in Ids(ts)
    case UpdateTask(id, p) => p.id.None? || p.id == Some(id)
    case SelectTask(id, selected) => selected ==> id in Ids(s.tasks)
    case _ => true
  }

  lemma InIdsAppend(ts: seq<Task>, extra: seq<Task>, x: string)
    requires x in Ids(ts)
    ensures x in Ids(ts + extra)
  {
    var i :| 0 <= i < |ts| && Ids(ts)[i] == x;
    assert Ids(ts + extra)[i] == x;
  }

  /** An id of a kept task is still an id after a filter. */
  lemma InIdsFilter(ts: seq<Task>, keep: Task -> bool, x: string)
    requires exists i :: 0 <= i < |ts| && ts[i].id == x && keep(ts[i])
    ensures x in Ids(Filter(ts, keep))
  {
    var i :| 0 <= i < |ts| && ts[i].id == x && keep(ts[i]);
    FilterCounts(ts, keep);
    assert ts[i] in Filter(ts, keep);
    var j :| 0 <= j < |Filter(ts, keep)| && Filter(ts, keep)[j] == ts[i];
    assert Ids(Filter(ts, keep))[j] == x;
  }

  /** Appending tasks keeps every selected id a task id. */
  lemma SelectionAfterAppend(s: TaskState, extra: seq<Task>, r: TaskState)
    requires SelectionConsistent(s)
    requires r.tasks == s.tasks + extra && r.selectedTaskIds == s.selectedTaskIds
    ensures SelectionConsistent(r)
  {
    forall x | x in r.selectedTaskIds ensures x in Ids(r.tasks) { InIdsAppend(s.tasks, extra, x); }
  }

  lemma SelectionAfterDelete(s: TaskState, id: string)
    requires SelectionConsistent(s)
    ensures SelectionConsistent(ReduceDeleteTask(s, id))
  {
    var r := ReduceDeleteTask(s, id);
    forall x | x in r.selectedTaskIds ensures x in Ids(r.tasks) {
      var i :| 0 <= i < |s.tasks| && Ids(s.tasks)[i] == x;
      InIdsFilter(s.tasks, OtherTask(id), x);
    }
  }

  lemma SelectionAfterBulkDelete(s: TaskState, ids: seq<string>)
    requires SelectionConsistent(s)
    ensures SelectionConsistent(ReduceBulkDelete(s, ids))
  {
    var r := ReduceBulkDelete(s, ids);
    forall x | x in r.selectedTaskIds ensures x in Ids(r.tasks) {
      var i :| 0 <= i < |s.tasks| && Ids(s.tasks)[i] == x;
      InIdsFilter(s.tasks, TaskNotListed(ids), x);
    }
  }

  lemma {:induction false} SelectionConsistencyPreserved(s: TaskState, a: TaskAction, now: Time, counter: nat)
    requires SelectionConsistent(s)
    requires KeepsSelectionConsistent(s, a)
    ensures SelectionConsistent(Reduce(s, a, now, counter).state)
  {
    match a {
      case AddTask(t) => SelectionAfterAppend(s, [t], ReduceAddTask(s, t));
      case DuplicateTask(t) =>
        var d := Duplicate(t, TaskId(counter + 1), now);
        SelectionAfterAppend(s, [d], ReduceDuplicateTask(s, t, TaskId(counter + 1), now));
      case ImportTasks(forms) =>
        SelectionAfterAppend(s, ImportedTasks(forms, now, counter), ReduceImportTasks(s, forms, now, counter));
      case UpdateTask(id, p) => UpdateKeepsIds(s, id, p, now);
      case DeleteTask(id) => SelectionAfterDelete(s, id);
      case BulkDelete(ids) => SelectionAfterBulkDelete(s, ids);
      case _ =>
    }
  }

  /** `SELECT_TASK` can select an id that no task has. */
  lemma SelectTaskMayBreakConsistency()
    ensures exists s: TaskState, id: string ::
      SelectionConsistent(s) && !SelectionConsistent(ReduceSelectTask(s, id, true))
  {
    var s := InitialTaskState;
    assert !SelectionConsistent(ReduceSelectTask(s, "x", true)) by {
      assert "x" in ReduceSelectTask(s, "x", true).selectedTaskIds;
    }
  }

  /** `SET_TASKS` does not prune the selection. */
  lemma SetTasksMayBreakConsistency(t: Task)
    ensures var s := InitialTaskState.(tasks := [t], selectedTaskIds := [t.id]);
      SelectionConsistent(s) && !SelectionConsistent(ReduceSetTasks(s, []))
  {
    var s := InitialTaskState.(tasks := [t], selectedTaskIds := [t.id]);
    assert Ids(s.tasks)[0] == t.id;
    assert t.id in ReduceSetTasks(s, []).selectedTaskIds;
  }

  /** A patch that renames a selected task leaves its old id selected. */
  lemma RenamingUpdateMayBreakConsistency(t: Task, p: TaskPatch, now: Time)
    requires p.id.Some? && p.id.value != t.id
    ensures var s := InitialTaskState.(tasks := [t], selectedTaskIds := [t.id]);
      SelectionConsistent(s) && !SelectionConsistent(ReduceUpdateTask(s, t.id, p, now))
  {
    var s := InitialTaskState.(tasks := [t], selectedTaskIds := [t.id]);
    var r := ReduceUpdateTask(s, t.id, p, now);
    assert Ids(s.tasks)[0] == t.id;
    assert r.tasks[0].id == p.id.value;
    assert t.id in r.selectedTaskIds;
    assert Ids(r.tasks) == [p.id.value];
  }

  /** No task carries `task_<k>` for a `k` the counter has not reached yet. */
  ghost predicate FreshAbove(ts: seq<Task>, counter: nat) {
    forall k: nat :: counter < k ==> TaskId(k) !in Ids(ts)
  }

  /** Task ids are unique and none collides with an id the counter will produce. */
  ghost predicate IdsSound(ts: seq<Task>, counter: nat) {
    UniqueIds(ts) && FreshAbove(ts, counter)
  }

  /**
    The actions that keep `IdsSound`: all but `SET_TASKS` and `ADD_TASK` with
    ids that break it, and `UPDATE_TASK` whose patch renames the task.
   */
  ghost predicate KeepsIdsSound(s: TaskState, a: TaskAction, counter: nat) {
    match a
    case SetTasks(ts) => IdsSound(ts, counter)
    case AddTask(t) => t.id !in Ids(s.tasks) && forall k: nat :: counter < k ==> t.id != TaskId(k)
    case UpdateTask(id, p) => p.id.None? || p.id == Some(id)
    case _ => true
  }

  lemma UniqueIdsCons(t: Task, rest: seq<Task>)
    ensures UniqueIds([t] + rest) <==> UniqueIds(rest) && t.id !in Ids(rest)
  {
    var r := [t] + rest;
    if UniqueIds(r) {
      forall i, j | 0 <= i < |rest| && 0 <= j < |rest| && rest[i].id == rest[j].id ensures i == j {
        assert r[i + 1].id == r[j + 1].id;
      }
      forall i | 0 <= i < |rest| ensures Ids(rest)[i] != t.id {
        assert r[i + 1].id == rest[i].id && r[0].id == t.id;
        assert i + 1 != 0;
      }
    }
    if UniqueIds(rest) && t.id !in Ids(rest) {
      forall i, j | 0 <= i < |r| && 0 <= j < |r| && r[i].id == r[j].id ensures i == j {
        if i > 0 && j > 0 {
          assert rest[i - 1].id == rest[j - 1].id;
        }
      }
    }
  }

  lemma {:induction false} FilterIds(ts: seq<Task>, keep: Task -> bool)
    ensures forall x :: x in Ids(Filter(ts, keep)) ==> x in Ids(ts)
    decreases |ts|
  {
    if ts != [] {
      FilterIds(ts[1..], keep);
      var rest := Filter(ts[1..], keep);
      forall x | x in Ids(rest) ensures x in Ids(ts) {
        var i :| 0 <= i < |Ids(ts[1..])| && Ids(ts[1..])[i] == x;
        assert Ids(ts)[i + 1] == x;
      }
      if keep(ts[0]) {
        forall x | x in Ids([ts[0]] + rest) ensures x in Ids(ts) {
          var i :| 0 <= i < |[ts[0]] + rest| && Ids([ts[0]] + rest)[i] == x;
          if i > 0 {
            assert Ids(rest)[i - 1] == x;
          } else {
            assert Ids(ts)[0] == x;
          }
        }
      }
    }
  }

  /** Filtering keeps ids unique. */
  lemma {:induction false} FilterUniqueIds(ts: seq<Task>, keep: Task -> bool)
    requires UniqueIds(ts)
    ensures UniqueIds(Filter(ts, keep))
    decreases |ts|
  {
    if ts != [] {
      assert ts == [ts[0]] + ts[1..];
      UniqueIdsCons(ts[0], ts[1..]);
      FilterUniqueIds(ts[1..], keep);
      if keep(ts[0]) {
        FilterIds(ts[1..], keep);
        UniqueIdsCons(ts[0], Filter(ts[1..], keep));
      }
    }
  }

  lemma AppendUniqueIds(ts: seq<Task>, extra: seq<Task>)
    requires UniqueIds(ts) && UniqueIds(extra)
    requires forall j :: 0 <= j < |extra| ==> extra[j].id !in Ids(ts)
    ensures UniqueIds(ts + extra)
  {
    var r := ts + extra;
    forall i, j | 0 <= i < |r| && 0 <= j < |r| && r[i].id == r[j].id ensures i == j {
      if i >= |ts| && j >= |ts| {
        assert extra[i - |ts|].id == extra[j - |ts|].id;
      }
    }
  }

  lemma InIdsSplit(ts: seq<Task>, extra: seq<Task>, x: string)
    requires x in Ids(ts + extra)
    ensures x in Ids(ts) || exists j :: 0 <= j < |extra| && extra[j].id == x
  {
    var i :| 0 <= i < |ts + extra| && Ids(ts + extra)[i] == x;
    if i < |ts| {
      assert Ids(ts)[i] == x;
    } else {
      assert extra[i - |ts|].id == x;
    }
  }

  lemma IdsSoundAppend(ts: seq<Task>, extra: seq<Task>, counter: nat, next: nat)
    requires IdsSound(ts, counter) && UniqueIds(extra) && counter <= next
    requires forall j :: 0 <= j < |extra| ==> extra[j].id !in Ids(ts)
    requires forall j, k: nat :: 0 <= j < |extra| && next < k ==> extra[j].id != TaskId(k)
    ensures IdsSound(ts + extra, next)
  {
    AppendUniqueIds(ts, extra);
    forall k: nat | next < k ensures TaskId(k) !in Ids(ts + extra) {
      if TaskId(k) in Ids(ts + extra) { InIdsSplit(ts, extra, TaskId(k)); }
    }
  }

  /** The ids `task_<counter + 1>` ... `task_<counter + n>` are new and leave the counter at `counter + n` sound. */
  lemma IdsSoundImport(ts: seq<Task>, forms: seq<TaskFormData>, now: Time, counter: nat)
    requires IdsSound(ts, counter)
    ensures IdsSound(ts + ImportedTasks(forms, now, counter), counter + |forms|)
  {
    var imported := ImportedTasks(forms, now, counter);
    ImportedIdsDistinct(forms, now, counter);
    forall j, k: nat | 0 <= j < |imported| && counter + |forms| < k ensures imported[j].id != TaskId(k) {
      TaskIdInjective(k, counter + 1 + j);
    }
    IdsSoundAppend(ts, imported, counter, counter + |forms|);
  }

  lemma IdsSoundDuplicate(ts: seq<Task>, t: Task, now: Time, counter: nat)
    requires IdsSound(ts, counter)
    ensures IdsSound(ts + [Duplicate(t, TaskId(counter + 1), now)], counter + 1)
  {
    var d := Duplicate(t, TaskId(counter + 1), now);
    forall j, k: nat | 0 <= j < 1 && counter + 1 < k ensures [d][j].id != TaskId(k) {
      TaskIdInjective(k, counter + 1);
    }
    IdsSoundAppend(ts, [d], counter, counter + 1);
  }

  lemma IdsSoundFilter(ts: seq<Task>, keep: Task -> bool, counter: nat)
    requires IdsSound(ts, counter)
    ensures IdsSound(Filter(ts, keep), counter)
  {
    FilterUniqueIds(ts, keep);
    FilterIds(ts, keep);
  }

  /** Every action that keeps ids sound also keeps them sound at the advanced counter. */
  lemma IdsSoundPreserved(s: TaskState, a: TaskAction, now: Time, counter: nat)
    requires IdsSound(s.tasks, counter)
    requires KeepsIdsSound(s, a, counter)
    ensures var r := Reduce(s, a, now, counter); IdsSound(r.state.tasks, r.counter)
  {
    match a {
      case AddTask(t) =>
        forall j, k: nat | 0 <= j < 1 && counter < k ensures [t][j].id != TaskId(k) {}
        IdsSoundAppend(s.tasks, [t], counter, counter);
      case UpdateTask(id, p) => UpdateKeepsIds(s, id, p, now);
      case DeleteTask(id) => IdsSoundFilter(s.tasks, OtherTask(id), counter);
      case BulkDelete(ids) => IdsSoundFilter(s.tasks, TaskNotListed(ids), counter);
      case DuplicateTask(t) => IdsSoundDuplicate(s.tasks, t, now, counter);
      case ImportTasks(forms) => IdsSoundImport(s.tasks, forms, now, counter);
      case ToggleTaskStatus(_) =>
      case BulkUpdateStatus(_, _) =>
      case _ =>
    }
  }

  /**
    The add path the application uses: a task created from a form with the
    next counter value meets the condition `ADD_TASK` needs, and ids stay sound
    with the counter advanced by one.
   */
  lemma IdsSoundAddFromForm(s: TaskState, fd: TaskFormData, now: Time, counter: nat)
    requires IdsSound(s.tasks, counter)
    ensures var t := TaskFromFormData(fd, TaskId(counter + 1), now);
      && IdsSound(s.tasks, counter + 1)
      && KeepsIdsSound(s, AddTask(t), counter + 1)
      && IdsSound(ReduceAddTask(s, t).tasks, counter + 1)
  {
    var t := TaskFromFormData(fd, TaskId(counter + 1), now);
    forall k: nat | counter + 1 < k ensures t.id != TaskId(k) {
      TaskIdInjective(k, counter + 1);
    }
    IdsSoundPreserved(s, AddTask(t), now, counter + 1);
  }
}
