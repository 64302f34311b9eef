/**
 * The task record and its document schema: the enumerations for priority, status
 * and source with their defaults, and what building a document from a set of fields
 * does (title required and trimmed, enum values checked, defaults filled in,
 * creation and update timestamps stamped).
 */
module TaskModel {
  import opened Wrappers
  import opened Strings

  datatype Priority = Low | Medium | High {
    function Name(): string {
      match this
      case Low => "low"
      case Medium => "medium"
      case High => "high"
    }
  }

  datatype Status = Todo | Progress | Done {
    function Name(): string {
      match this
      case Todo => "todo"
      case Progress => "progress"
      case Done => "done"
    }
  }

  datatype Source = Manual | Canvas | Calendar {
    function Name(): string {
      match this
      case Manual => "manual"
      case Canvas => "canvas"
      case Calendar => "calendar"
    }
  }

  const DefaultPriority: Priority := Medium
  const DefaultStatus: Status := Todo
  const DefaultSource: Source := Manual

  function ParsePriority(s: string): (r: Option<Priority>)
    ensures r.Some? ==> r.value.Name() == s
    ensures forall p: Priority :: p.Name() == s ==> r == Some(p)
  {
    if s == "low" then Some(Low)
    else if s == "medium" then Some(Medium)
    else if s == "high" then Some(High)
    else None
  }

  function ParseStatus(s: string): (r: Option<Status>)
    ensures r.Some? ==> r.value.Name() == s
    ensures forall st: Status :: st.Name() == s ==> r == Some(st)
  {
    if s == "todo" then Some(Todo)
    else if s == "progress" then Some(Progress)
    else if s == "done" then Some(Done)
    else None
  }

  function ParseSource(s: string): (r: Option<Source>)
    ensures r.Some? ==> r.value.Name() == s
    ensures forall src: Source :: src.Name() == s ==> r == Some(src)
  {
    if s == "manual" then Some(Manual)
    else if s == "canvas" then Some(Canvas)
    else if s == "calendar" then Some(Calendar)
    else None
  }

  /**
   * A task as the API exchanges it. Priority, status and source are kept as the
   * strings the client sent, because the in-memory store does not check them
   * against the enumerations; `None` stands for a field that is null or absent.
   */
  datatype Task = Task(
    id: string,
    title: string,
    description: string,
    dueDate: string,
    timeSlot: string,
    priority: string,
    status: string,
    source: string,
    externalId: Option<string>,
    canvasCourseId: Option<string>,
    canvasCourseName: Option<string>,
    calendarEventId: Option<string>,
    createdAt: Option<string>,
    updatedAt: Option<string>)

  /** The fields handed to the schema to build a document; `None` is an absent field. */
  datatype TaskFields = TaskFields(
    title: Option<string>,
    description: Option<string>,
    dueDate: Option<string>,
    timeSlot: Option<string>,
    priority: Option<string>,
    status: Option<string>,
    source: Option<string>,
    externalId: Option<string>,
    canvasCourseId: Option<string>,
    canvasCourseName: Option<string>,
    calendarEventId: Option<string>)

  datatype SchemaError = TitleRequired | NotInEnum(path: string)

  /** The invariant every stored document keeps. */
  predicate Conforms(t: Task) {
    && t.title != ""
    && Trim(t.title) == t.title
    && ParsePriority(t.priority).Some?
    && ParseStatus(t.status).Some?
    && ParseSource(t.source).Some?
  }

  /** The defaults are values of their enumerations. */
  lemma DefaultsParse()
    ensures ParsePriority(DefaultPriority.Name()) == Some(DefaultPriority)
    ensures ParseStatus(DefaultStatus.Name()) == Some(DefaultStatus)
    ensures ParseSource(DefaultSource.Name()) == Some(DefaultSource)
  {
  }

  /**
   * Building and validating a document (`new Task(fields)` then `save()`): the title
   * is trimmed and required, an absent field takes its default, a present enum field
   * must hold one of its values, and both timestamps are set to the save time.
   */
  function Cast(f: TaskFields, id: string, now: string): (r: Result<Task, SchemaError>)
    ensures r.Ok? <==>
      && f.title.Some? && !AllWhitespace(f.title.value)
      && (f.priority.None? || ParsePriority(f.priority.value).Some?)
      && (f.status.None? || ParseStatus(f.status.value).Some?)
      && (f.source.None? || ParseSource(f.source.value).Some?)
    ensures r.Ok? ==> Conforms(r.value)
    ensures r.Ok? ==>
      && r.value.id == id
      && r.value.title == Trim(f.title.value)
      && r.value.createdAt == Some(now) && r.value.updatedAt == Some(now)
    ensures r.Ok? ==>
      && r.value.description == f.description.GetOr("")
      && r.value.dueDate == f.dueDate.GetOr("")
      && r.value.timeSlot == f.timeSlot.GetOr("")
      && r.value.priority == f.priority.GetOr(DefaultPriority.Name())
      && r.value.status == f.status.GetOr(DefaultStatus.Name())
      && r.value.source == f.source.GetOr(DefaultSource.Name())
    ensures r.Ok? ==>
      && r.value.externalId == f.externalId
      && r.value.canvasCourseId == f.canvasCourseId
      && r.value.canvasCourseName == f.canvasCourseName
      && r.value.calendarEventId == f.calendarEventId
  {
    if f.title.None? || Trim(f.title.value) == "" then Err(TitleRequired)
    else if f.priority.Some? && ParsePriority(f.priority.value).None? then Err(NotInEnum("priority"))
    else if f.status.Some? && ParseStatus(f.status.value).None? then Err(NotInEnum("status"))
    else if f.source.Some? && ParseSource(f.source.value).None? then Err(NotInEnum("source"))
    else
      TrimIdempotent(f.title.value);
      DefaultsParse();
      Ok(Task(
        id := id,
        title := Trim(f.title.value),
        description := f.description.GetOr(""),
        dueDate := f.dueDate.GetOr(""),
        timeSlot := f.timeSlot.GetOr(""),
        priority := f.priority.GetOr(DefaultPriority.Name()),
        status := f.status.GetOr(DefaultStatus.Name()),
        source := f.source.GetOr(DefaultSource.Name()),
        externalId := f.externalId,
        canvasCourseId := f.canvasCourseId,
        canvasCourseName := f.canvasCourseName,
        calendarEventId := f.calendarEventId,
        createdAt := Some(now),
        updatedAt := Some(now)))
  }

  /** Every field of a task, handed back to the schema. */
  function FieldsOf(t: Task): TaskFields {
    TaskFields(
      Some(t.title), Some(t.description), Some(t.dueDate), Some(t.timeSlot),
      Some(t.priority), Some(t.status), Some(t.source),
      t.externalId, t.canvasCourseId, t.canvasCourseName, t.calendarEventId)
  }

  /** Only the title: every other field is left to its default. */
  function TitleOnly(title: string): TaskFields {
    TaskFields(Some(title), None, None, None, None, None, None, None, None, None, None)
  }

  /**
   * A document built from a title alone has the schema defaults: empty description,
   * due date and time slot, medium priority, status todo, source manual, and no
   * external or integration ids.
   */
  lemma {:induction false} SchemaDefaults(title: string, id: string, now: string)
    requires !AllWhitespace(title)
    ensures Cast(TitleOnly(title), id, now).Ok?
    ensures var t := Cast(TitleOnly(title), id, now).value;
      && t.description == "" && t.dueDate == "" && t.timeSlot == ""
      && ParsePriority(t.priority) == Some(Medium)
      && ParseStatus(t.status) == Some(Todo)
      && ParseSource(t.source) == Some(Manual)
      && t.externalId.None? && t.canvasCourseId.None?
      && t.canvasCourseName.None? && t.calendarEventId.None?
  {
  }

  /** A title made only of whitespace is rejected, however the other fields look. */
  lemma BlankTitleRejected(f: TaskFields, id: string, now: string)
    requires f.title.None? || AllWhitespace(f.title.value)
    ensures Cast(f, id, now) == Err(TitleRequired)
  {
  }

  /**
   * A conforming task is a fixed point of the schema: building a document from its
   * own fields gives it back, with only the timestamps restamped.
   */
  lemma {:induction false} CastAcceptsConforming(t: Task, now: string)
    requires Conforms(t)
    ensures Cast(FieldsOf(t), t.id, now) == Ok(t.(createdAt := Some(now), updatedAt := Some(now)))
  {
    assert !AllWhitespace(t.title) by {
      assert Trim(t.title) != "";
    }
  }

  /** Building a document twice from its own fields is the same as building it once. */
  lemma {:induction false} CastIdempotent(f: TaskFields, id: string, now: string)
    requires Cast(f, id, now).Ok?
    ensures Cast(FieldsOf(Cast(f, id, now).value), id, now) == Cast(f, id, now)
  {
    CastAcceptsConforming(Cast(f, id, now).value, now);
  }
}
