/**
  The export envelope, the validator for untrusted import data and the
  conversion of validated tasks into form data. JSON text is not modelled: a
  parsed JSON value is the `Json` datatype, and whether a value denotes a valid
  date (`!isNaN(new Date(v).getTime())`) is the parameter `dateOk`, and the
  time `new Date(v)` reads from it is the parameter `readDate`.
 */
module DataExportImport {
  import opened TaskTypes
  import opened Strings
  import opened TaskActions
  import TaskReducer

  datatype Json =
    | JNull
    | JBool(b: bool)
    | JNum(n: real)
    | JStr(s: string)
    | JArr(items: seq<Json>)
    | JObj(fields: map<string, Json>)

  // ---------------------------------------------------------------------------
  // Export
  // ---------------------------------------------------------------------------

  datatype ExportMetadata = ExportMetadata(totalTasks: nat, exportedBy: string)

  datatype ExportData = ExportData(
    version: string,
    exportDate: string,
    tasks: seq<Task>,
    metadata: ExportMetadata)

  const ExportVersion := "1.0.0"
  const ExportedBy := "Task Management Dashboard"

  /** The envelope `exportTasksToJSON` serialises; `exportDate` is the ISO text of the clock. */
  function ExportTasksToJSON(tasks: seq<Task>, exportDate: string): (e: ExportData)
    ensures e.version == ExportVersion && e.exportDate == exportDate
    ensures e.tasks == tasks && e.metadata.totalTasks == |tasks|
    ensures e.metadata.exportedBy == ExportedBy
  {
    ExportData(ExportVersion, exportDate, tasks, ExportMetadata(|tasks|, ExportedBy))
  }

  function StringsJson(xs: seq<string>): (j: Json)
    ensures j.JArr? && |j.items| == |xs|
    ensures forall i :: 0 <= i < |xs| ==> j.items[i] == JStr(xs[i])
  {
    JArr(seq(|xs|, i requires 0 <= i < |xs| => JStr(xs[i])))
  }

  /**
    The JSON value `JSON.stringify` writes for a task: dates become their ISO
    text (`iso`), and an `undefined` optional member is omitted.
   */
  /** The members every exported task has. */
  function TaskJsonBase(t: Task, iso: Time -> string): map<string, Json> {
    map[
      "id" := JStr(t.id),
      "title" := JStr(t.title),
      "description" := JStr(t.description),
      "priority" := JStr(PriorityName(t.priority)),
      "status" := JStr(StatusName(t.status)),
      "category" := JStr(t.category),
      "tags" := StringsJson(t.tags),
      "dueDate" := JStr(iso(t.dueDate)),
      "createdAt" := JStr(iso(t.createdAt)),
      "updatedAt" := JStr(iso(t.updatedAt))]
  }

  /**
    The JSON value `JSON.stringify` writes for a task: dates become their ISO
    text (`iso`), and an `undefined` optional member is omitted.
   */
  function TaskJson(t: Task, iso: Time -> string): Json {
    var base := TaskJsonBase(t, iso);
    var withAssignee := if t.assignedTo.Some? then base["assignedTo" := JStr(t.assignedTo.value)] else base;
    JObj(if t.estimatedTime.Some? then withAssignee["estimatedTime" := JNum(t.estimatedTime.value)] else withAssignee)
  }

  function TasksJson(ts: seq<Task>, iso: Time -> string): (j: seq<Json>)
    ensures |j| == |ts|
    ensures forall i :: 0 <= i < |ts| ==> j[i] == TaskJson(ts[i], iso)
  {
    seq(|ts|, i requires 0 <= i < |ts| => TaskJson(ts[i], iso))
  }

  /** The JSON value of the whole envelope. */
  function ExportJson(e: ExportData, iso: Time -> string): Json {
    JObj(map[
      "version" := JStr(e.version),
      "exportDate" := JStr(e.exportDate),
      "tasks" := JArr(TasksJson(e.tasks, iso)),
      "metadata" := JObj(map[
        "totalTasks" := JNum(e.metadata.totalTasks as real),
        "exportedBy" := JStr(e.metadata.exportedBy)])])
  }

  // ---------------------------------------------------------------------------
  // Validation
  // ---------------------------------------------------------------------------

  /** The members the validator inspects, in the order it inspects them. */
  datatype Field =
    | IdField | TitleField | DescriptionField | PriorityField | StatusField | CategoryField
    | TagsField | DueDateField | EstimatedTimeField | CreatedAtField | UpdatedAtField

  const CheckOrder: seq<Field> := [
    IdField, TitleField, DescriptionField, PriorityField, StatusField, CategoryField,
    TagsField, DueDateField, EstimatedTimeField, CreatedAtField, UpdatedAtField]

  /** Why the validator rejects its input; `ErrorMessage` gives the text it reports. */
  datatype ImportError =
    | NotAnObject
    | NoTasksArray
    | InvalidJson
    | TaskInvalid(index: nat, field: Field)

  /** `{ isValid: true, tasks }` or `{ isValid: false, error }`. */
  datatype ValidationResult = Valid(tasks: seq<Json>) | Invalid(error: ImportError)

  function FieldError(f: Field): string {
    match f
    case IdField => "missing or invalid id"
    case TitleField => "missing or invalid title"
    case DescriptionField => "missing or invalid description"
    case PriorityField => "invalid priority (must be low, medium, or high)"
    case StatusField => "invalid status (must be todo, in-progress, or done)"
    case CategoryField => "missing or invalid category"
    case TagsField => "tags must be an array"
    case DueDateField => "missing or invalid due date"
    case EstimatedTimeField => "invalid estimated time"
    case CreatedAtField => "missing or invalid created date"
    case UpdatedAtField => "missing or invalid updated date"
  }

  /** The error text; a task's position is reported 1-based. */
  function ErrorMessage(e: ImportError): (m: string)
    ensures e.TaskInvalid? ==> m == "Task " + NatToString(e.index + 1) + ": " + FieldError(e.field)
  {
    match e
    case NotAnObject => "Invalid file format: not a valid JSON object"
    case NoTasksArray => "Invalid file format: tasks array not found"
    case InvalidJson => "Invalid JSON format"
    case TaskInvalid(i, f) => "Task " + NatToString(i + 1) + ": " + FieldError(f)
  }

  /** JavaScript truthiness of a property read; `None` is `undefined`. */
  predicate Truthy(v: Option<Json>) {
    match v
    case None => false
    case Some(j) =>
      match j
      case JNull => false
      case JBool(b) => b
      case JNum(n) => n != 0.0
      case JStr(s) => s != ""
      case _ => true
  }

  /** `value.name` for a value that is not `null`: only an object has own members. */
  function Member(value: Json, name: string): (r: Option<Json>)
    requires !value.JNull?
    ensures r.Some? <==> value.JObj? && name in value.fields
    ensures r.Some? ==> r.value == value.fields[name]
  {
    if value.JObj? && name in value.fields then Some(value.fields[name]) else None
  }

  /** `!v || typeof v !== 'string'` fails: a non-empty string. */
  predicate NonEmptyString(v: Option<Json>) {
    v.Some? && v.value.JStr? && v.value.s != ""
  }

  /** `[...].includes(v)`: a string among the literals. */
  predicate OneOf(v: Option<Json>, literals: seq<string>) {
    v.Some? && v.value.JStr? && v.value.s in literals
  }

  /** `!v || isNaN(new Date(v).getTime())` fails. */
  predicate DateValue(v: Option<Json>, dateOk: Json -> bool) {
    Truthy(v) && dateOk(v.value)
  }

  /** `typeof v !== 'number' || v < 0` fails. */
  predicate NonNegativeNumber(v: Option<Json>) {
    v.Some? && v.value.JNum? && v.value.n >= 0.0
  }

  /** Whether one member of a task element passes its check. */
  predicate FieldOk(f: Field, task: Json, dateOk: Json -> bool)
    requires !task.JNull?
  {
    match f
    case IdField => NonEmptyString(Member(task, "id"))
    case TitleField => NonEmptyString(Member(task, "title"))
    case DescriptionField => NonEmptyString(Member(task, "description"))
    case PriorityField => OneOf(Member(task, "priority"), PriorityNames)
    case StatusField => OneOf(Member(task, "status"), StatusNames)
    case CategoryField => NonEmptyString(Member(task, "category"))
    case TagsField => Member(task, "tags").Some? && Member(task, "tags").value.JArr?
    case DueDateField => DateValue(Member(task, "dueDate"), dateOk)
    case EstimatedTimeField => NonNegativeNumber(Member(task, "estimatedTime"))
    case CreatedAtField => DateValue(Member(task, "createdAt"), dateOk)
    case UpdatedAtField => DateValue(Member(task, "updatedAt"), dateOk)
  }

  /**
    The outcome of the checks on one element. Reading a member of `null`
    throws, and the validator's `catch` turns that into "Invalid JSON format".
   */
  datatype TaskCheck = Passed | Crashed | Failed(field: Field)

  /** The body of the validator's loop for one element, check by check. */
  function CheckTask(task: Json, dateOk: Json -> bool): TaskCheck {
    if task.JNull? then Crashed
    else if !FieldOk(IdField, task, dateOk) then Failed(IdField)
    else if !FieldOk(TitleField, task, dateOk) then Failed(TitleField)
    else if !FieldOk(DescriptionField, task, dateOk) then Failed(DescriptionField)
    else if !FieldOk(PriorityField, task, dateOk) then Failed(PriorityField)
    else if !FieldOk(StatusField, task, dateOk) then Failed(StatusField)
    else if !FieldOk(CategoryField, task, dateOk) then Failed(CategoryField)
    else if !FieldOk(TagsField, task, dateOk) then Failed(TagsField)
    else if !FieldOk(DueDateField, task, dateOk) then Failed(DueDateField)
    else if !FieldOk(EstimatedTimeField, task, dateOk) then Failed(EstimatedTimeField)
    else if !FieldOk(CreatedAtField, task, dateOk) then Failed(CreatedAtField)
    else if !FieldOk(UpdatedAtField, task, dateOk) then Failed(UpdatedAtField)
    else Passed
  }

  /** The checks on `items[i..]`, stopping at the first element that does not pass. */
  function Scan(items: seq<Json>, i: nat, dateOk: Json -> bool): ValidationResult
    requires i <= |items|
    decreases |items| - i
  {
    if i == |items| then Valid(items)
    else
      match CheckTask(items[i], dateOk)
      case Crashed => Invalid(InvalidJson)
      case Failed(f) => Invalid(TaskInvalid(i, f))
      case Passed => Scan(items, i + 1, dateOk)
  }

  /** `data` is an object whose `tasks` member is an array. */
  predicate HasTasksArray(data: Json) {
    data.JObj? && "tasks" in data.fields && data.fields["tasks"].JArr?
  }

  /**
    What `validateImportData` returns for `data`. `null` and the other
    primitives are not objects; an array is, but has no `tasks` member.
   */
  function Validate(data: Json, dateOk: Json -> bool): ValidationResult {
    if !(data.JObj? || data.JArr?) then Invalid(NotAnObject)
    else if !HasTasksArray(data) then Invalid(NoTasksArray)
    else Scan(data.fields["tasks"].items, 0, dateOk)
  }

  /** `validateImportData` itself: an index loop over the tasks array with early returns. */
  method ValidateImportData(data: Json, dateOk: Json -> bool) returns (r: ValidationResult)
    ensures r == Validate(data, dateOk)
  {
    if !(data.JObj? || data.JArr?) {
      return Invalid(NotAnObject);
    }
    if !HasTasksArray(data) {
      return Invalid(NoTasksArray);
    }
    var tasks := data.fields["tasks"].items;
    var i := 0;
    while i < |tasks|
      invariant 0 <= i <= |tasks|
      invariant Scan(tasks, i, dateOk) == Validate(data, dateOk)
    {
      var check := CheckTask(tasks[i], dateOk);
      if check.Crashed? {
        return Invalid(InvalidJson);
      }
      if check.Failed? {
        return Invalid(TaskInvalid(i, check.field));
      }
      i := i + 1;
    }
    return Valid(tasks);
  }

  // ---------------------------------------------------------------------------
  // Properties of the validator
  // ---------------------------------------------------------------------------

  /** The position of the first member of `task`, from `from` on, that fails; `|CheckOrder|` if none. */
  function FirstFailingField(task: Json, dateOk: Json -> bool, from: nat): (j: nat)
    requires !task.JNull? && from <= |CheckOrder|
    ensures from <= j <= |CheckOrder|
    ensures forall k :: from <= k < j ==> FieldOk(CheckOrder[k], task, dateOk)
    ensures j < |CheckOrder| ==> !FieldOk(CheckOrder[j], task, dateOk)
    decreases |CheckOrder| - from
  {
    if from == |CheckOrder| || !FieldOk(CheckOrder[from], task, dateOk) then from
    else FirstFailingField(task, dateOk, from + 1)
  }

  /** The check chain reports the first failing member. */
  lemma CheckTaskIsFirstFailure(task: Json, dateOk: Json -> bool)
    requires !task.JNull?
    ensures var j := FirstFailingField(task, dateOk, 0);
      CheckTask(task, dateOk) == if j < |CheckOrder| then Failed(CheckOrder[j]) else Passed
  {
    var j := FirstFailingField(task, dateOk, 0);
    if 0 < j { assert FieldOk(CheckOrder[0], task, dateOk); }
    if 1 < j { assert FieldOk(CheckOrder[1], task, dateOk); }
    if 2 < j { assert FieldOk(CheckOrder[2], task, dateOk); }
    if 3 < j { assert FieldOk(CheckOrder[3], task, dateOk); }
    if 4 < j { assert FieldOk(CheckOrder[4], task, dateOk); }
    if 5 < j { assert FieldOk(CheckOrder[5], task, dateOk); }
    if 6 < j { assert FieldOk(CheckOrder[6], task, dateOk); }
    if 7 < j { assert FieldOk(CheckOrder[7], task, dateOk); }
    if 8 < j { assert FieldOk(CheckOrder[8], task, dateOk); }
    if 9 < j { assert FieldOk(CheckOrder[9], task, dateOk); }
    if 10 < j { assert FieldOk(CheckOrder[10], task, dateOk); }
  }

  /** No member is inspected twice. */
  lemma CheckOrderDistinct(i: nat, j: nat)
    requires i < |CheckOrder| && j < |CheckOrder| && CheckOrder[i] == CheckOrder[j]
    ensures i == j
  {
  }

  /** An element passes exactly when it is not `null` and every member passes its check. */
  lemma CheckTaskPassed(task: Json, dateOk: Json -> bool)
    ensures CheckTask(task, dateOk) == Passed
        <==> !task.JNull? && forall k :: 0 <= k < |CheckOrder| ==> FieldOk(CheckOrder[k], task, dateOk)
  {
    if !task.JNull? {
      CheckTaskIsFirstFailure(task, dateOk);
    }
  }

  /**
    Order of checks: an element fails on the member at position `i` exactly
    when every earlier member passes and that one does not.
   */
  lemma CheckTaskFirstFailingField(task: Json, dateOk: Json -> bool, i: nat)
    requires !task.JNull? && i < |CheckOrder|
    ensures CheckTask(task, dateOk) == Failed(CheckOrder[i])
        <==> (forall k :: 0 <= k < i ==> FieldOk(CheckOrder[k], task, dateOk))
             && !FieldOk(CheckOrder[i], task, dateOk)
  {
    CheckTaskIsFirstFailure(task, dateOk);
    var j := FirstFailingField(task, dateOk, 0);
    if j < |CheckOrder| && CheckOrder[j] == CheckOrder[i] {
      CheckOrderDistinct(i, j);
    }
  }

  /** `Scan` accepts exactly when every remaining element passes, and then returns the whole array. */
  lemma ScanPassed(items: seq<Json>, i: nat, dateOk: Json -> bool)
    requires i <= |items|
    ensures Scan(items, i, dateOk).Valid?
        <==> forall k :: i <= k < |items| ==> CheckTask(items[k], dateOk) == Passed
    ensures Scan(items, i, dateOk).Valid? ==> Scan(items, i, dateOk).tasks == items
  {
    if forall k :: i <= k < |items| ==> CheckTask(items[k], dateOk) == Passed {
      ScanAllPass(items, i, dateOk);
    } else {
      var j :| i <= j < |items| && CheckTask(items[j], dateOk) != Passed;
      ScanStopsAt(items, i, j, dateOk);
    }
  }

  /** When every remaining element passes, `Scan` returns the whole array. */
  lemma {:induction false} ScanAllPass(items: seq<Json>, i: nat, dateOk: Json -> bool)
    requires i <= |items|
    requires forall k :: i <= k < |items| ==> CheckTask(items[k], dateOk) == Passed
    ensures Scan(items, i, dateOk) == Valid(items)
    decreases |items| - i
  {
    if i < |items| {
      assert CheckTask(items[i], dateOk) == Passed;
      ScanStep(items, i, dateOk);
      ScanAllPass(items, i + 1, dateOk);
      assert Scan(items, i, dateOk) == Scan(items, i + 1, dateOk);
    }
  }

  /** An element that does not pass, anywhere after `i`, makes `Scan` report an error. */
  lemma {:induction false} ScanStopsAt(items: seq<Json>, i: nat, j: nat, dateOk: Json -> bool)
    requires i <= j < |items|
    requires CheckTask(items[j], dateOk) != Passed
    ensures Scan(items, i, dateOk).Invalid?
    decreases j - i
  {
    ScanStep(items, i, dateOk);
    if i < j && CheckTask(items[i], dateOk) == Passed {
      ScanStopsAt(items, i + 1, j, dateOk);
      assert Scan(items, i, dateOk) == Scan(items, i + 1, dateOk);
    }
  }

  /** One step of `Scan`: a passing element moves on, any other stops with an error. */
  lemma ScanStep(items: seq<Json>, i: nat, dateOk: Json -> bool)
    requires i < |items|
    ensures CheckTask(items[i], dateOk) == Passed ==> Scan(items, i, dateOk) == Scan(items, i + 1, dateOk)
    ensures CheckTask(items[i], dateOk) != Passed ==> Scan(items, i, dateOk).Invalid?
  {
    var c := CheckTask(items[i], dateOk);
    match c
    case Passed =>
    case Crashed =>
    case Failed(_) =>
  }

  /** `Scan` reports the first element that does not pass. */
  lemma {:induction false} ScanFirstFailure(items: seq<Json>, i: nat, j: nat, dateOk: Json -> bool)
    requires i <= j < |items|
    requires forall k :: i <= k < j ==> CheckTask(items[k], dateOk) == Passed
    requires CheckTask(items[j], dateOk) != Passed
    ensures Scan(items, i, dateOk)
         == if items[j].JNull? then Invalid(InvalidJson) else Invalid(TaskInvalid(j, CheckTask(items[j], dateOk).field))
    decreases j - i
  {
    ScanStep(items, i, dateOk);
    if i < j {
      assert CheckTask(items[i], dateOk) == Passed;
      ScanFirstFailure(items, i + 1, j, dateOk);
      assert Scan(items, i, dateOk) == Scan(items, i + 1, dateOk);
    }
  }

  /** `Scan` only ever reports an element. */
  lemma {:induction false} ScanErrorShape(items: seq<Json>, i: nat, dateOk: Json -> bool)
    requires i <= |items|
    ensures Scan(items, i, dateOk).Invalid? ==>
      Scan(items, i, dateOk).error.InvalidJson? || Scan(items, i, dateOk).error.TaskInvalid?
    decreases |items| - i
  {
    if i < |items| && CheckTask(items[i], dateOk) == Passed {
      ScanErrorShape(items, i + 1, dateOk);
    }
  }

  /** A falsy or non-object value, and only such a value, gets the first message. */
  lemma ValidateNotObject(data: Json, dateOk: Json -> bool)
    ensures Validate(data, dateOk) == Invalid(NotAnObject) <==> !(data.JObj? || data.JArr?)
  {
    if HasTasksArray(data) {
      ScanErrorShape(data.fields["tasks"].items, 0, dateOk);
    }
  }

  /** An object (or array) without a `tasks` array, and only such a value, gets the second message. */
  lemma ValidateNoTasksArray(data: Json, dateOk: Json -> bool)
    ensures Validate(data, dateOk) == Invalid(NoTasksArray)
        <==> (data.JObj? || data.JArr?) && !HasTasksArray(data)
  {
    if HasTasksArray(data) {
      ScanErrorShape(data.fields["tasks"].items, 0, dateOk);
    }
  }

  /**
    The validator accepts exactly the objects whose `tasks` array has only
    passing elements (an empty array among them), and returns that array unchanged.
   */
  lemma ValidateAccepts(data: Json, dateOk: Json -> bool)
    ensures Validate(data, dateOk).Valid?
        <==> HasTasksArray(data)
             && forall k :: 0 <= k < |data.fields["tasks"].items| ==> CheckTask(data.fields["tasks"].items[k], dateOk) == Passed
    ensures Validate(data, dateOk).Valid? ==> Validate(data, dateOk).tasks == data.fields["tasks"].items
  {
    if HasTasksArray(data) {
      ScanPassed(data.fields["tasks"].items, 0, dateOk);
    }
  }

  /**
    The lowest-index element that does not pass decides the result: a `null`
    element gives "Invalid JSON format", any other its index and its first
    failing member.
   */
  lemma ValidateReportsFirstFailure(data: Json, dateOk: Json -> bool, j: nat)
    requires HasTasksArray(data) && j < |data.fields["tasks"].items|
    requires forall k :: 0 <= k < j ==> CheckTask(data.fields["tasks"].items[k], dateOk) == Passed
    requires CheckTask(data.fields["tasks"].items[j], dateOk) != Passed
    ensures var task := data.fields["tasks"].items[j];
      Validate(data, dateOk)
        == if task.JNull? then Invalid(InvalidJson) else Invalid(TaskInvalid(j, CheckTask(task, dateOk).field))
  {
    ScanFirstFailure(data.fields["tasks"].items, 0, j, dateOk);
  }

  /** An empty description fails even though it is a string. */
  lemma EmptyDescriptionRejected(task: Json, dateOk: Json -> bool)
    requires task.JObj? && "description" in task.fields && task.fields["description"] == JStr("")
    requires FieldOk(IdField, task, dateOk) && FieldOk(TitleField, task, dateOk)
    ensures CheckTask(task, dateOk) == Failed(DescriptionField)
  {
  }

  /** A task without an `estimatedTime` member fails once the earlier members pass. */
  lemma EstimatedTimeRequired(task: Json, dateOk: Json -> bool)
    requires task.JObj? && "estimatedTime" !in task.fields
    requires forall k :: 0 <= k < 8 ==> FieldOk(CheckOrder[k], task, dateOk)
    ensures CheckTask(task, dateOk) == Failed(EstimatedTimeField)
  {
    CheckTaskFirstFailingField(task, dateOk, 8);
  }

  // ---------------------------------------------------------------------------
  // Export, then validate
  // ---------------------------------------------------------------------------

  /** The tasks that survive an export and a re-import. */
  predicate Importable(t: Task) {
    && t.id != "" && t.title != "" && t.description != "" && t.category != ""
    && t.estimatedTime.Some? && t.estimatedTime.value >= 0.0
  }

  /** Every ISO date text is non-empty and parses back to a valid date. */
  ghost predicate IsoDatesValid(iso: Time -> string, dateOk: Json -> bool) {
    forall n: Time :: iso(n) != "" && dateOk(JStr(iso(n)))
  }

  lemma TaskJsonBaseMembers(t: Task, iso: Time -> string)
    ensures var m := TaskJsonBase(t, iso);
      && "estimatedTime" !in m
      && "id" in m && m["id"] == JStr(t.id)
      && "title" in m && m["title"] == JStr(t.title)
      && "description" in m && m["description"] == JStr(t.description)
      && "priority" in m && m["priority"] == JStr(PriorityName(t.priority))
      && "status" in m && m["status"] == JStr(StatusName(t.status))
      && "category" in m && m["category"] == JStr(t.category)
      && "tags" in m && m["tags"] == StringsJson(t.tags)
      && "dueDate" in m && m["dueDate"] == JStr(iso(t.dueDate))
      && "createdAt" in m && m["createdAt"] == JStr(iso(t.createdAt))
      && "updatedAt" in m && m["updatedAt"] == JStr(iso(t.updatedAt))
  {
  }

  /** The members of an exported task, read back. */
  lemma TaskJsonMembers(t: Task, iso: Time -> string, name: string)
    requires name in TaskJsonBase(t, iso) || name == "estimatedTime"
    ensures TaskJson(t, iso).JObj?
    ensures Member(TaskJson(t, iso), name)
         == if name == "estimatedTime" then
              if t.estimatedTime.Some? then Some(JNum(t.estimatedTime.value)) else None
            else Some(TaskJsonBase(t, iso)[name])
  {
    TaskJsonBaseMembers(t, iso);
    assert name != "assignedTo" by {
      assert |"assignedTo"| == 10;
    }
  }

  lemma {:induction false} ExportedFieldsOk(t: Task, iso: Time -> string, dateOk: Json -> bool)
    requires IsoDatesValid(iso, dateOk)
    ensures var j := TaskJson(t, iso);
      && (FieldOk(IdField, j, dateOk) <==> t.id != "")
      && (FieldOk(TitleField, j, dateOk) <==> t.title != "")
      && (FieldOk(DescriptionField, j, dateOk) <==> t.description != "")
      && FieldOk(PriorityField, j, dateOk) && FieldOk(StatusField, j, dateOk)
      && (FieldOk(CategoryField, j, dateOk) <==> t.category != "")
      && FieldOk(TagsField, j, dateOk) && FieldOk(DueDateField, j, dateOk)
      && (FieldOk(EstimatedTimeField, j, dateOk) <==> t.estimatedTime.Some? && t.estimatedTime.value >= 0.0)
      && FieldOk(CreatedAtField, j, dateOk) && FieldOk(UpdatedAtField, j, dateOk)
  {
    TaskJsonBaseMembers(t, iso);
    TaskJsonMembers(t, iso, "id");
    TaskJsonMembers(t, iso, "title");
    TaskJsonMembers(t, iso, "description");
    TaskJsonMembers(t, iso, "priority");
    TaskJsonMembers(t, iso, "status");
    TaskJsonMembers(t, iso, "category");
    TaskJsonMembers(t, iso, "tags");
    TaskJsonMembers(t, iso, "dueDate");
    TaskJsonMembers(t, iso, "estimatedTime");
    TaskJsonMembers(t, iso, "createdAt");
    TaskJsonMembers(t, iso, "updatedAt");
    assert dateOk(JStr(iso(t.dueDate))) && iso(t.dueDate) != "";
    assert dateOk(JStr(iso(t.createdAt))) && iso(t.createdAt) != "";
    assert dateOk(JStr(iso(t.updatedAt))) && iso(t.updatedAt) != "";
  }

  /**
    What the import check says about an exported task: only the four text
    members and the estimate can fail, checked in that order.
   */
  lemma CheckExportedTask(t: Task, iso: Time -> string, dateOk: Json -> bool)
    requires IsoDatesValid(iso, dateOk)
    ensures CheckTask(TaskJson(t, iso), dateOk)
         == if t.id == "" then Failed(IdField)
            else if t.title == "" then Failed(TitleField)
            else if t.description == "" then Failed(DescriptionField)
            else if t.category == "" then Failed(CategoryField)
            else if !(t.estimatedTime.Some? && t.estimatedTime.value >= 0.0) then Failed(EstimatedTimeField)
            else Passed
  {
    ExportedFieldsOk(t, iso, dateOk);
  }

  lemma CheckTaskJson(t: Task, iso: Time -> string, dateOk: Json -> bool)
    requires IsoDatesValid(iso, dateOk)
    ensures CheckTask(TaskJson(t, iso), dateOk) == Passed <==> Importable(t)
  {
    CheckExportedTask(t, iso, dateOk);
  }

  /**
    Round trip: the exported envelope validates exactly when every task is
    importable, and then the validator hands back the exported tasks.
   */
  lemma ExportThenValidate(ts: seq<Task>, exportDate: string, iso: Time -> string, dateOk: Json -> bool)
    requires IsoDatesValid(iso, dateOk)
    ensures var r := Validate(ExportJson(ExportTasksToJSON(ts, exportDate), iso), dateOk);
      && (r.Valid? <==> forall k :: 0 <= k < |ts| ==> Importable(ts[k]))
      && (r.Valid? ==> r.tasks == TasksJson(ts, iso))
  {
    var data := ExportJson(ExportTasksToJSON(ts, exportDate), iso);
    assert HasTasksArray(data) && data.fields["tasks"].items == TasksJson(ts, iso);
    ValidateAccepts(data, dateOk);
    forall k | 0 <= k < |ts| ensures CheckTask(TasksJson(ts, iso)[k], dateOk) == Passed <==> Importable(ts[k]) {
      CheckTaskJson(ts[k], iso, dateOk);
    }
  }

  // ---------------------------------------------------------------------------
  // Conversion for import
  // ---------------------------------------------------------------------------

  /** The form data each validated task is re-created from. */
  function ConvertTasksForImport(ts: seq<Task>): (r: seq<TaskFormData>)
    ensures |r| == |ts|
    ensures forall k :: 0 <= k < |ts| ==>
      && r[k].title == ts[k].title && r[k].description == ts[k].description
      && r[k].priority == ts[k].priority && r[k].status == ts[k].status
      && r[k].category == ts[k].category && r[k].tags == ts[k].tags
      && r[k].dueDate == ts[k].dueDate && r[k].estimatedTime == ts[k].estimatedTime
  {
    seq(|ts|, k requires 0 <= k < |ts| => FormDataOf(ts[k]))
  }

  /** The conversion forgets id, timestamps and assignee: tasks that differ only there convert alike. */
  lemma ConvertIgnoresIdentity(ts: seq<Task>, us: seq<Task>)
    requires |ts| == |us|
    requires forall k :: 0 <= k < |ts| ==> ts[k] == us[k].(id := ts[k].id, createdAt := ts[k].createdAt,
                                                         updatedAt := ts[k].updatedAt, assignedTo := ts[k].assignedTo)
    ensures ConvertTasksForImport(ts) == ConvertTasksForImport(us)
  {
  }

  /** Importing converted tasks and converting the result again gives the same form data. */
  lemma ConvertImportRoundTrip(forms: seq<TaskFormData>, now: Time, counter: nat)
    ensures ConvertTasksForImport(TaskReducer.ImportedTasks(forms, now, counter)) == forms
  {
    var r := ConvertTasksForImport(TaskReducer.ImportedTasks(forms, now, counter));
    assert forall k :: 0 <= k < |forms| ==> r[k] == forms[k];
  }

  /**
    Re-importing tasks creates, in order, one new task per task, with the same
    form fields, a generated id and fresh timestamps.
   */
  lemma ImportConverted(s: TaskState, ts: seq<Task>, now: Time, counter: nat)
    ensures var r := TaskReducer.Reduce(s, ImportTasks(ConvertTasksForImport(ts)), now, counter);
      && |r.state.tasks| == |s.tasks| + |ts|
      && r.state.tasks[..|s.tasks|] == s.tasks
      && forall k :: 0 <= k < |ts| ==>
           var t := r.state.tasks[|s.tasks| + k];
           && FormDataOf(t) == FormDataOf(ts[k])
           && t.id == TaskReducer.TaskId(counter + 1 + k)
           && t.createdAt == now && t.updatedAt == now
  {
    var forms := ConvertTasksForImport(ts);
    var r := TaskReducer.Reduce(s, ImportTasks(forms), now, counter);
    assert r.state.tasks == s.tasks + TaskReducer.ImportedTasks(forms, now, counter);
  }

  // ---------------------------------------------------------------------------
  // Conversion of the validator's output
  // ---------------------------------------------------------------------------

  /** A member that holds a string. */
  predicate StringMember(j: Json, name: string) {
    j.JObj? && name in j.fields && j.fields[name].JStr?
  }

  /** Every element of the `tags` member is a string; the validator checks only that it is an array. */
  predicate TagsAreStrings(j: Json) {
    j.JObj? && "tags" in j.fields && j.fields["tags"].JArr?
    && forall i :: 0 <= i < |j.fields["tags"].items| ==> j.fields["tags"].items[i].JStr?
  }

  /** The shape the `Task[]` type claims for an element, as far as the conversion reads it. */
  predicate TaskShaped(j: Json) {
    && StringMember(j, "title") && StringMember(j, "description") && StringMember(j, "category")
    && StringMember(j, "priority") && ParsePriority(j.fields["priority"].s).Some?
    && StringMember(j, "status") && ParseStatus(j.fields["status"].s).Some?
    && TagsAreStrings(j)
    && "dueDate" in j.fields
    && "estimatedTime" in j.fields && j.fields["estimatedTime"].JNum?
  }

  /** A validated element has that shape exactly when its tags are strings. */
  lemma ValidatedIsShaped(j: Json, dateOk: Json -> bool)
    requires CheckTask(j, dateOk) == Passed
    ensures TaskShaped(j) <==> TagsAreStrings(j)
  {
    CheckTaskPassed(j, dateOk);
    assert FieldOk(CheckOrder[1], j, dateOk) && FieldOk(CheckOrder[2], j, dateOk);
    assert FieldOk(CheckOrder[3], j, dateOk) && FieldOk(CheckOrder[4], j, dateOk);
    assert FieldOk(CheckOrder[5], j, dateOk) && FieldOk(CheckOrder[7], j, dateOk);
    assert FieldOk(CheckOrder[8], j, dateOk);
  }

  /**
    The form data `convertTasksForImport` builds from one validated element:
    the text members as they are, the enum literals read as their values, a
    copy of the tags, `new Date(dueDate)` (the parameter `readDate`) and the estimate.
   */
  function FormDataOfJson(j: Json, readDate: Json -> Time): (fd: TaskFormData)
    requires TaskShaped(j)
    ensures fd.title == j.fields["title"].s && fd.description == j.fields["description"].s
    ensures PriorityName(fd.priority) == j.fields["priority"].s && StatusName(fd.status) == j.fields["status"].s
    ensures fd.category == j.fields["category"].s
    ensures |fd.tags| == |j.fields["tags"].items|
    ensures forall i :: 0 <= i < |fd.tags| ==> j.fields["tags"].items[i] == JStr(fd.tags[i])
    ensures fd.dueDate == readDate(j.fields["dueDate"])
    ensures fd.estimatedTime == Some(j.fields["estimatedTime"].n)
  {
    var tags := j.fields["tags"].items;
    TaskFormData(
      j.fields["title"].s, j.fields["description"].s,
      ParsePriority(j.fields["priority"].s).value, ParseStatus(j.fields["status"].s).value,
      j.fields["category"].s,
      seq(|tags|, i requires 0 <= i < |tags| => tags[i].s),
      readDate(j.fields["dueDate"]),
      Some(j.fields["estimatedTime"].n))
  }

  /** `convertTasksForImport(validation.tasks)`: one form per element, in order. */
  function ConvertJsonForImport(items: seq<Json>, readDate: Json -> Time): (r: seq<TaskFormData>)
    requires forall k :: 0 <= k < |items| ==> TaskShaped(items[k])
    ensures |r| == |items|
    ensures forall k :: 0 <= k < |items| ==> r[k] == FormDataOfJson(items[k], readDate)
  {
    seq(|items|, k requires 0 <= k < |items| => FormDataOfJson(items[k], readDate))
  }

  /** Every ISO date text reads back as the time it was written from. */
  ghost predicate IsoDatesReadBack(iso: Time -> string, readDate: Json -> Time) {
    forall n: Time :: readDate(JStr(iso(n))) == n
  }

  /** The members of an exported task the conversion reads, with their values. */
  lemma ExportedMembers(t: Task, iso: Time -> string)
    requires t.estimatedTime.Some?
    ensures var j := TaskJson(t, iso);
      && j.JObj?
      && "title" in j.fields && j.fields["title"] == JStr(t.title)
      && "description" in j.fields && j.fields["description"] == JStr(t.description)
      && "priority" in j.fields && j.fields["priority"] == JStr(PriorityName(t.priority))
      && "status" in j.fields && j.fields["status"] == JStr(StatusName(t.status))
      && "category" in j.fields && j.fields["category"] == JStr(t.category)
      && "tags" in j.fields && j.fields["tags"] == StringsJson(t.tags)
      && "dueDate" in j.fields && j.fields["dueDate"] == JStr(iso(t.dueDate))
      && "estimatedTime" in j.fields && j.fields["estimatedTime"] == JNum(t.estimatedTime.value)
  {
    TaskJsonMembers(t, iso, "title");
    TaskJsonMembers(t, iso, "description");
    TaskJsonMembers(t, iso, "priority");
    TaskJsonMembers(t, iso, "status");
    TaskJsonMembers(t, iso, "category");
    TaskJsonMembers(t, iso, "tags");
    TaskJsonMembers(t, iso, "dueDate");
    TaskJsonMembers(t, iso, "estimatedTime");
  }

  /** An exported importable task converts to its own form fields. */
  lemma ExportedTaskConverts(t: Task, iso: Time -> string, readDate: Json -> Time)
    requires IsoDatesReadBack(iso, readDate)
    requires Importable(t)
    ensures TaskShaped(TaskJson(t, iso))
    ensures FormDataOfJson(TaskJson(t, iso), readDate) == FormDataOf(t)
  {
    var j := TaskJson(t, iso);
    ExportedMembers(t, iso);
    PriorityNameRoundTrip(t.priority);
    StatusNameRoundTrip(t.status);
    assert TaskShaped(j);
    var fd := FormDataOfJson(j, readDate);
    assert fd.tags == t.tags;
    assert fd.dueDate == t.dueDate;
    assert fd.priority == t.priority by {
      assert PriorityName(fd.priority) == PriorityName(t.priority);
      PriorityNameRoundTrip(fd.priority);
    }
    assert fd.status == t.status by {
      assert StatusName(fd.status) == StatusName(t.status);
      StatusNameRoundTrip(fd.status);
    }
  }

  /**
    The whole import path on an export: validating the exported envelope and
    converting the validator's output gives the form fields of the exported
    tasks, in order, whenever every task is importable.
   */
  lemma ExportValidateConvert(ts: seq<Task>, exportDate: string, iso: Time -> string,
                              dateOk: Json -> bool, readDate: Json -> Time)
    requires IsoDatesValid(iso, dateOk) && IsoDatesReadBack(iso, readDate)
    requires forall k :: 0 <= k < |ts| ==> Importable(ts[k])
    ensures var r := Validate(ExportJson(ExportTasksToJSON(ts, exportDate), iso), dateOk);
      && r.Valid?
      && (forall k :: 0 <= k < |r.tasks| ==> TaskShaped(r.tasks[k]))
      && ConvertJsonForImport(r.tasks, readDate) == ConvertTasksForImport(ts)
  {
    ExportThenValidate(ts, exportDate, iso, dateOk);
    var r := Validate(ExportJson(ExportTasksToJSON(ts, exportDate), iso), dateOk);
    assert r.tasks == TasksJson(ts, iso);
    forall k | 0 <= k < |ts|
      ensures TaskShaped(r.tasks[k]) && FormDataOfJson(r.tasks[k], readDate) == FormDataOf(ts[k])
    {
      ExportedTaskConverts(ts[k], iso, readDate);
    }
    assert ConvertJsonForImport(r.tasks, readDate) == ConvertTasksForImport(ts);
  }
}
