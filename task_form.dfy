/**
  The task form: the field values the form holds, the validation schema they
  must pass before submission, the values the form starts from, and the
  conversion of accepted values into `TaskFormData`. Date text is abstract: the
  day text of a time (`toISOString().split('T')[0]`) is the parameter `dayText`
  and the reading of a date text (`new Date(s)`) the parameter `parseDate`.
 */
module TaskForm {
  import opened TaskTypes
  import UseTasks
  import DataExportImport

  /** The schema's input: what the form's fields hold. */
  datatype FormValues = FormValues(
    title: string,
    description: string,
    priority: string,
    status: string,
    category: string,
    tags: seq<string>,
    dueDate: string,
    estimatedTime: Option<real>)

  /** The schema's complaints, each at most once, in the order of the schema's members. */
  datatype FormIssue =
    | TitleRequired
    | TitleTooLong
    | DescriptionTooLong
    | PriorityNotInEnum
    | StatusNotInEnum
    | CategoryRequired
    | DueDateRequired
    | EstimatedTimeNegative

  /** The schema's own message for an issue; `None` where zod's default message applies. */
  function CustomMessage(i: FormIssue): Option<string> {
    match i
    case TitleRequired => Some("Title is required")
    case TitleTooLong => Some("Title too long")
    case DescriptionTooLong => Some("Description too long")
    case CategoryRequired => Some("Category is required")
    case DueDateRequired => Some("Due date is required")
    case _ => None
  }

  /** Whether `v` fails the check behind issue `i`. */
  predicate Fails(v: FormValues, i: FormIssue) {
    match i
    case TitleRequired => |v.title| < 1
    case TitleTooLong => |v.title| > 100
    case DescriptionTooLong => |v.description| > 500
    case PriorityNotInEnum => v.priority !in PriorityNames
    case StatusNotInEnum => v.status !in StatusNames
    case CategoryRequired => |v.category| < 1
    case DueDateRequired => |v.dueDate| < 1
    case EstimatedTimeNegative => v.estimatedTime.Some? && v.estimatedTime.value < 0.0
  }

  function When(c: bool, i: FormIssue): (r: seq<FormIssue>)
    ensures forall x :: x in r <==> c && x == i
  {
    if c then [i] else []
  }

  /** Every check of `taskFormSchema` that `v` fails, in schema order. */
  function SchemaIssues(v: FormValues): (r: seq<FormIssue>)
    ensures forall i :: i in r <==> Fails(v, i)
  {
    When(Fails(v, TitleRequired), TitleRequired)
    + When(Fails(v, TitleTooLong), TitleTooLong)
    + When(Fails(v, DescriptionTooLong), DescriptionTooLong)
    + When(Fails(v, PriorityNotInEnum), PriorityNotInEnum)
    + When(Fails(v, StatusNotInEnum), StatusNotInEnum)
    + When(Fails(v, CategoryRequired), CategoryRequired)
    + When(Fails(v, DueDateRequired), DueDateRequired)
    + When(Fails(v, EstimatedTimeNegative), EstimatedTimeNegative)
  }

  /** The values the schema lets through to `handleFormSubmit`. */
  predicate SchemaAccepts(v: FormValues) {
    SchemaIssues(v) == []
  }

  /** The schema spelled out member by member; an empty description is allowed. */
  lemma SchemaAcceptsIff(v: FormValues)
    ensures SchemaAccepts(v) <==>
      && 1 <= |v.title| <= 100
      && |v.description| <= 500
      && v.priority in PriorityNames && v.status in StatusNames
      && |v.category| >= 1 && |v.dueDate| >= 1
      && (v.estimatedTime.Some? ==> v.estimatedTime.value >= 0.0)
  {
    var r := SchemaIssues(v);
    if r != [] {
      assert r[0] in r && Fails(v, r[0]);
    } else {
      assert !Fails(v, TitleRequired) && !Fails(v, TitleTooLong) && !Fails(v, DescriptionTooLong);
      assert !Fails(v, PriorityNotInEnum) && !Fails(v, StatusNotInEnum) && !Fails(v, CategoryRequired);
      assert !Fails(v, DueDateRequired) && !Fails(v, EstimatedTimeNegative);
    }
  }

  // ----- default values -----

  /** `initialData?.member || fallback` for a string member: `''` is falsy. */
  function OrString(o: Option<string>, fallback: string): string {
    if o.Some? && o.value != "" then o.value else fallback
  }

  /** The values the form starts from, `today` being the day text of the clock. */
  function DefaultValues(initial: Option<UseTasks.FormPatch>, today: string, dayText: Time -> string): (v: FormValues)
    ensures initial.None? ==> v == FormValues("", "", "medium", "todo", DefaultCategories[0], [], today, None)
  {
    match initial
    case None => FormValues("", "", "medium", "todo", DefaultCategories[0], [], today, None)
    case Some(p) =>
      FormValues(
        OrString(p.title, ""),
        OrString(p.description, ""),
        if p.priority.Some? then PriorityName(p.priority.value) else "medium",
        if p.status.Some? then StatusName(p.status.value) else "todo",
        OrString(p.category, DefaultCategories[0]),
        if p.tags.Some? then p.tags.value else [],
        if p.dueDate.Some? then dayText(p.dueDate.value) else today,
        // `estimatedTime || undefined`: 0 is falsy
        if p.estimatedTime.Some? && p.estimatedTime.value.Some? && p.estimatedTime.value.value != 0.0
        then p.estimatedTime.value else None)
  }

  /** A blank form is refused until a title is entered. */
  lemma BlankFormNeedsTitle(today: string, dayText: Time -> string)
    requires today != ""
    ensures SchemaIssues(DefaultValues(None, today, dayText)) == [TitleRequired]
  {
    assert "medium" in PriorityNames && "todo" in StatusNames;
  }

  // ----- submission -----

  /**
    `handleFormSubmit`: the accepted values as `TaskFormData`. A zero (falsy)
    estimate becomes `undefined`; `data.tags || []` keeps the array.
   */
  function HandleFormSubmit(v: FormValues, parseDate: string -> Time): (fd: TaskFormData)
    requires SchemaAccepts(v)
    ensures fd.title == v.title && fd.description == v.description && fd.category == v.category
    ensures PriorityName(fd.priority) == v.priority && StatusName(fd.status) == v.status
    ensures fd.tags == v.tags && fd.dueDate == parseDate(v.dueDate)
    ensures fd.estimatedTime.Some? <==> v.estimatedTime.Some? && v.estimatedTime.value != 0.0
    ensures fd.estimatedTime.Some? ==> fd.estimatedTime == v.estimatedTime && fd.estimatedTime.value > 0.0
  {
    SchemaAcceptsIff(v);
    TaskFormData(v.title, v.description, ParsePriority(v.priority).value, ParseStatus(v.status).value,
                 v.category, v.tags, parseDate(v.dueDate),
                 if v.estimatedTime.Some? && v.estimatedTime.value != 0.0 then v.estimatedTime else None)
  }

  /** `initialData` for editing existing form data. */
  function PatchOf(fd: TaskFormData): UseTasks.FormPatch {
    UseTasks.FormPatch(Some(fd.title), Some(fd.description), Some(fd.priority), Some(fd.status),
                       Some(fd.category), Some(fd.tags), Some(fd.dueDate), Some(fd.estimatedTime))
  }

  /**
    Editing without changing anything submits the same data, except that the
    due date is re-read from its day text and a zero estimate is dropped.
   */
  lemma EditRoundTrip(fd: TaskFormData, today: string, dayText: Time -> string, parseDate: string -> Time)
    requires 1 <= |fd.title| <= 100 && |fd.description| <= 500 && fd.category != ""
    requires dayText(fd.dueDate) != ""
    requires fd.estimatedTime.Some? ==> fd.estimatedTime.value >= 0.0
    ensures SchemaAccepts(DefaultValues(Some(PatchOf(fd)), today, dayText))
    ensures HandleFormSubmit(DefaultValues(Some(PatchOf(fd)), today, dayText), parseDate)
         == fd.(dueDate := parseDate(dayText(fd.dueDate)),
                estimatedTime := if fd.estimatedTime == Some(0.0) then None else fd.estimatedTime)
  {
    var v := DefaultValues(Some(PatchOf(fd)), today, dayText);
    SchemaAcceptsIff(v);
    PriorityNameRoundTrip(fd.priority);
    StatusNameRoundTrip(fd.status);
  }

  /**
    The form and the import validator disagree: a task created from accepted
    form values and then exported is refused on re-import when its description
    is empty, or else when it has no positive estimate (an omitted or zero one).
   */
  lemma SubmittedTaskReimport(v: FormValues, parseDate: string -> Time, id: string, now: Time,
                              iso: Time -> string, dateOk: DataExportImport.Json -> bool)
    requires SchemaAccepts(v) && id != ""
    requires DataExportImport.IsoDatesValid(iso, dateOk)
    ensures var t := TaskFromFormData(HandleFormSubmit(v, parseDate), id, now);
      DataExportImport.CheckTask(DataExportImport.TaskJson(t, iso), dateOk)
        == if v.description == "" then DataExportImport.Failed(DataExportImport.DescriptionField)
           else if !(v.estimatedTime.Some? && v.estimatedTime.value > 0.0) then DataExportImport.Failed(DataExportImport.EstimatedTimeField)
           else DataExportImport.Passed
  {
    SchemaAcceptsIff(v);
    var t := TaskFromFormData(HandleFormSubmit(v, parseDate), id, now);
    DataExportImport.CheckExportedTask(t, iso, dateOk);
  }
}
