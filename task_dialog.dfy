/** The task form (frontend/src/components/TaskDialog.tsx): the form
    schema, the values the form is reset to, and the submit sequence. The
    form library keeps the last values the form was reset to as its
    defaults, and a reset without values returns to them. */
module TaskDialog {
  import opened Common
  import opened TaskModel
  import opened UseTasks
  import opened TaskController

  /** The form's values; status and priority are the option strings of the
      two selects. */
  datatype FormValues = FormValues(
    title: string,
    description: Option<string>,
    status: string,
    priority: string,
    dueDate: Option<string>)

  /** `taskSchema`: a non-empty title and a status and priority from their
      enums; description and due date are free. */
  predicate SchemaAccepts(v: FormValues)
  {
    |v.title| >= 1 && ParseStatus(v.status).Some? && ParsePriority(v.priority).Some?
  }

  /** The form's initial values, and its reset without a task. */
  function DefaultValues(): (v: FormValues)
    ensures v.title == "" && v.description == Some("") && v.dueDate == Some("")
    ensures ParseStatus(v.status) == Some(Pending) && ParsePriority(v.priority) == Some(Medium)
  {
    StatusRoundTrip(Pending);
    PriorityRoundTrip(Medium);
    FormValues("", Some(""), StatusName(Pending), PriorityName(Medium), Some(""))
  }

  /** The reset effect: the edited task's values, or the defaults. A due
      date is shown as the date part of `toIso` (`toISOString()`), the text
      before the first "T". */
  function ResetValues(task: Option<ClientTask>, toIso: string -> string): (v: FormValues)
    ensures task.None? ==> v == DefaultValues()
    ensures task.Some? ==> v.title == task.value.title && v.description == Some(task.value.description)
    ensures task.Some? ==> ParseStatus(v.status) == Some(task.value.status)
    ensures task.Some? ==> ParsePriority(v.priority) == Some(task.value.priority)
    ensures task.Some? && !Truthy(task.value.dueDate) ==> v.dueDate == Some("")
    ensures task.Some? && Truthy(task.value.dueDate) ==>
              var iso := toIso(task.value.dueDate.value);
              v.dueDate.Some? && 'T' !in v.dueDate.value
              && |v.dueDate.value| <= |iso| && iso[..|v.dueDate.value|] == v.dueDate.value
              && (|v.dueDate.value| < |iso| ==> iso[|v.dueDate.value|] == 'T')
  {
    match task
    case None => DefaultValues()
    case Some(t) =>
      StatusRoundTrip(t.status);
      PriorityRoundTrip(t.priority);
      FormValues(t.title, Some(t.description), StatusName(t.status), PriorityName(t.priority),
                 if Truthy(t.dueDate) then Some(BeforeFirst(toIso(t.dueDate.value), 'T')) else Some(""))
  }

  /** The defaults never pass the schema (the title is empty); a task's
      values pass it exactly when the task has a title. */
  lemma ResetValuesSchema(task: Option<ClientTask>, toIso: string -> string)
    ensures !SchemaAccepts(DefaultValues())
    ensures task.Some? ==> (SchemaAccepts(ResetValues(task, toIso)) <==> task.value.title != "")
  {
  }

  /** The dialog: open or not, the form values, and the values the form
      returns to on a plain reset. */
  class Dialog {
    var open: bool
    var values: FormValues
    var defaults: FormValues

    constructor (open: bool)
      ensures this.open == open && values == DefaultValues() && defaults == DefaultValues()
    {
      this.open := open;
      values := DefaultValues();
      defaults := DefaultValues();
    }

    /** The reset effect: the form takes the task's values (or the
        defaults), and these become what a plain reset returns to. */
    method Reset(task: Option<ClientTask>, toIso: string -> string)
      modifies this
      ensures values == ResetValues(task, toIso) && defaults == values && open == old(open)
    {
      values := ResetValues(task, toIso);
      defaults := values;
    }

    /** The user editing the form. */
    method Edit(v: FormValues)
      modifies this
      ensures values == v && defaults == old(defaults) && open == old(open)
    {
      values := v;
    }

    /** `form.handleSubmit(handleSubmit)`: values the schema rejects are not
        submitted; otherwise `onSubmit` gets the values first (`succeeded`
        says whether it resolved), and only then is the dialog closed and
        the form reset. When `onSubmit` throws, the dialog stays as it is. */
    method Submit(succeeded: bool) returns (submitted: Option<FormValues>, closed: bool)
      modifies this
      ensures !SchemaAccepts(old(values)) ==>
                submitted.None? && !closed && open == old(open) && values == old(values)
      ensures SchemaAccepts(old(values)) ==> submitted == Some(old(values)) && closed == succeeded
      ensures closed ==> !open && values == old(defaults)
      ensures SchemaAccepts(old(values)) && !closed ==> open == old(open) && values == old(values)
      ensures defaults == old(defaults)
    {
      if !SchemaAccepts(values) {
        return None, false;
      }
      submitted := Some(values);
      if !succeeded {
        return submitted, false;
      }
      open := false;
      values := defaults;
      closed := true;
    }
  }

  /** The request body the submitted values become: every form field is
      sent, an empty due date as the empty string. */
  function WireBody(v: FormValues): (b: TaskBody)
    ensures b.title == Some(v.title) && b.description == v.description && b.dueDate == v.dueDate
    ensures b.status == Some(v.status) && b.priority == Some(v.priority) && b.tags.Undefined?
  {
    TaskBody(Some(v.title), v.description, Some(v.status), Some(v.priority), v.dueDate, Undefined)
  }

  /** A form left without a due date sends `dueDate: ""`, and the server's
      `optional()` lets only `undefined` through, so `isISO8601("")` decides:
      when it rejects the empty string, neither a create nor an update from
      the form can succeed, whatever the other fields hold. */
  lemma EmptyDueDateRejected(v: FormValues, lib: Validators)
    requires v.dueDate == Some("") && !lib.isIso8601("")
    ensures !CreateAcceptable(WireBody(v), lib) && CreateTaskValidation(WireBody(v), lib) != []
    ensures !UpdateAcceptable(WireBody(v), lib) && UpdateTaskValidation(WireBody(v), lib) != []
  {
  }

  /** The body the form evidently means to send: a due date only when one
      was entered. */
  function IntendedWireBody(v: FormValues): (b: TaskBody)
    ensures b.dueDate == (if Truthy(v.dueDate) then v.dueDate else None)
    ensures b == WireBody(v).(dueDate := b.dueDate)
  {
    TaskBody(Some(v.title), v.description, Some(v.status), Some(v.priority),
             if Truthy(v.dueDate) then v.dueDate else None, Undefined)
  }

  /** With the intended body, a form the schema accepts is accepted by the
      server as well, when its title and description fit the server's
      limits and an entered date is ISO 8601. */
  lemma IntendedBodyAccepted(v: FormValues, lib: Validators)
    requires SchemaAccepts(v)
    requires 1 <= |Trim(v.title)| <= MaxTitleLength
    requires v.description.Some? ==> |Trim(v.description.value)| <= MaxDescriptionLength
    requires Truthy(v.dueDate) ==> lib.isIso8601(v.dueDate.value)
    ensures CreateAcceptable(IntendedWireBody(v), lib) && CreateTaskValidation(IntendedWireBody(v), lib) == []
    ensures UpdateAcceptable(IntendedWireBody(v), lib) && UpdateTaskValidation(IntendedWireBody(v), lib) == []
  {
  }

  /** The form's own defaults, with only a title typed in, go through with
      the intended body. */
  lemma DefaultsWithTitleAccepted(title: string, lib: Validators)
    requires 1 <= |Trim(title)| <= MaxTitleLength
    ensures CreateTaskValidation(IntendedWireBody(DefaultValues().(title := title)), lib) == []
  {
    TrimNoop("");
    IntendedBodyAccepted(DefaultValues().(title := title), lib);
  }
}
