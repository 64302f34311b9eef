/**
 * The add/edit dialog: a form of six text fields that starts blank (with medium
 * priority and todo status), is filled from the task being edited, changes one field
 * per input event, and is handed on as it stands when submitted with a title that is
 * not blank.
 */
module TaskModal {
  import opened Wrappers
  import opened Strings
  import opened TaskModel

  datatype FormData = FormData(
    title: string, description: string, dueDate: string,
    timeSlot: string, priority: string, status: string)

  /** The `name` of an input of the form. */
  datatype FormField = TitleField | DescriptionField | DueDateField | TimeSlotField | PriorityField | StatusField

  /** The form before any task is loaded: empty text, medium priority, todo status. */
  const InitialForm: FormData := FormData("", "", "", "", DefaultPriority.Name(), DefaultStatus.Name())

  function FieldValue(form: FormData, f: FormField): string {
    match f
    case TitleField => form.title
    case DescriptionField => form.description
    case DueDateField => form.dueDate
    case TimeSlotField => form.timeSlot
    case PriorityField => form.priority
    case StatusField => form.status
  }

  /** `{ ...prev, [name]: value }`: the named field takes the value, every other field keeps its own. */
  function WithField(form: FormData, f: FormField, value: string): (r: FormData)
    ensures FieldValue(r, f) == value
    ensures forall g :: g != f ==> FieldValue(r, g) == FieldValue(form, g)
  {
    match f
    case TitleField => form.(title := value)
    case DescriptionField => form.(description := value)
    case DueDateField => form.(dueDate := value)
    case TimeSlotField => form.(timeSlot := value)
    case PriorityField => form.(priority := value)
    case StatusField => form.(status := value)
  }

  /** Two forms agreeing on every field are the same form. */
  lemma FormsEqualByFields(a: FormData, b: FormData)
    requires forall f :: FieldValue(a, f) == FieldValue(b, f)
    ensures a == b
  {
    assert FieldValue(a, TitleField) == FieldValue(b, TitleField);
    assert FieldValue(a, DescriptionField) == FieldValue(b, DescriptionField);
    assert FieldValue(a, DueDateField) == FieldValue(b, DueDateField);
    assert FieldValue(a, TimeSlotField) == FieldValue(b, TimeSlotField);
    assert FieldValue(a, PriorityField) == FieldValue(b, PriorityField);
    assert FieldValue(a, StatusField) == FieldValue(b, StatusField);
  }

  /** Typing back the value a field already holds changes nothing, and a later change to a field overrides an earlier one. */
  lemma WithFieldLaws(form: FormData, f: FormField, v: string, w: string)
    ensures WithField(form, f, FieldValue(form, f)) == form
    ensures WithField(WithField(form, f, v), f, w) == WithField(form, f, w)
  {
    FormsEqualByFields(WithField(form, f, FieldValue(form, f)), form);
    FormsEqualByFields(WithField(WithField(form, f, v), f, w), WithField(form, f, w));
  }

  /** The form for editing a task: each field from the task, an empty one falling back to its initial value. */
  function FormFrom(t: Task): (form: FormData)
    ensures form.title == t.title && form.description == t.description
    ensures form.dueDate == t.dueDate && form.timeSlot == t.timeSlot
    ensures form.priority == Or(t.priority, InitialForm.priority)
    ensures form.status == Or(t.status, InitialForm.status)
  {
    FormData(Or(t.title, ""), Or(t.description, ""), Or(t.dueDate, ""), Or(t.timeSlot, ""),
             Or(t.priority, DefaultPriority.Name()), Or(t.status, DefaultStatus.Name()))
  }

  /** The task's own six fields. */
  function FormOf(t: Task): FormData {
    FormData(t.title, t.description, t.dueDate, t.timeSlot, t.priority, t.status)
  }

  /**
   * Editing shows the task as it is when its priority and status are set, and a task
   * with no field set opens like a new one.
   */
  lemma FormFromTask(t: Task)
    ensures t.priority != "" && t.status != "" ==> FormFrom(t) == FormOf(t)
    ensures FormOf(t) == FormData("", "", "", "", "", "") ==> FormFrom(t) == InitialForm
  {
  }

  /** The submit guard: a title that is not empty after trimming. */
  predicate Submittable(form: FormData) {
    Trim(form.title) != ""
  }

  /** The state of the open dialog. */
  class TaskModalState {
    var form: FormData

    /** The dialog opens blank, then takes the edited task's fields when there is one. */
    constructor(task: Option<Task>)
      ensures form == if task.Some? then FormFrom(task.value) else InitialForm
    {
      form := InitialForm;
      if task.Some? {
        form := FormFrom(task.value);
      }
    }

    /** The effect on a new `task` prop: a task refills the form; no task leaves it as it is. */
    method OnTaskChanged(task: Option<Task>)
      modifies this
      ensures form == if task.Some? then FormFrom(task.value) else old(form)
    {
      if task.Some? {
        form := FormFrom(task.value);
      }
    }

    /** An input event: only the named field changes. */
    method HandleChange(f: FormField, value: string)
      modifies this
      ensures form == WithField(old(form), f, value)
      ensures FieldValue(form, f) == value
      ensures forall g :: g != f ==> FieldValue(form, g) == FieldValue(old(form), g)
    {
      form := WithField(form, f, value);
    }

    /**
     * Submit: nothing when the title is blank; otherwise the form goes to `onSave`
     * exactly as it stands, the title untrimmed. The form itself is not changed.
     */
    method HandleSubmit() returns (saved: Option<FormData>)
      ensures saved.Some? <==> !AllWhitespace(form.title)
      ensures saved.Some? ==> saved.value == form && saved.value.title != ""
    {
      if Trim(form.title) == "" {
        return None;
      }
      return Some(form);
    }
  }
}
