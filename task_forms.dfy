/**
 * The two task forms: the create form
 * (frontend/components/tasks/TaskCreateForm.tsx) and the edit modal
 * (frontend/components/tasks/TaskEditModal.tsx). Both check the title with
 * the same rule; each keeps its field values, its title error, a submitting
 * flag and a submission error, overwritten step by step by its handlers.
 */
module TaskForms {
  import opened Wrappers
  import opened Types
  import opened Strings

  const TITLE_REQUIRED := "Title is required"
  const TITLE_TOO_LONG := "Title must be 200 characters or less"

  /** What a rejected `onSubmit`/`onSave` promise carries: an `Error` with a message, or anything else. */
  datatype Rejection = ThrownError(message: string) | ThrownOther

  /**
   * `validateTitle`, shared by both forms: a title made only of white space
   * is missing; otherwise its trimmed form may hold at most 200 characters.
   */
  function ValidateTitle(value: string): (r: Option<string>)
    ensures r == Some(TITLE_REQUIRED) <==> AllWhitespace(value)
    ensures r == Some(TITLE_TOO_LONG) <==> !AllWhitespace(value) && |Trim(value)| > TITLE_MAX_LENGTH
    ensures r.None? <==> 1 <= |Trim(value)| <= TITLE_MAX_LENGTH
  {
    TrimEmptyIffBlank(value);
    var trimmed := Trim(value);
    if trimmed == "" then Some(TITLE_REQUIRED)
    else if |trimmed| > TITLE_MAX_LENGTH then Some(TITLE_TOO_LONG)
    else None
  }

  /**
   * A title rejected as too long always has its counter showing: the counter
   * counts the untrimmed title, which is no shorter than the trimmed one the
   * rule measures.
   */
  lemma TooLongTitleShowsCounter(title: string)
    ensures ValidateTitle(title) == Some(TITLE_TOO_LONG) ==> |title| >= TITLE_COUNTER_THRESHOLD
  {
  }

  /** The text a failed submission shows: the error's message, or the form's own fallback. */
  function RejectionText(r: Rejection, fallback: string): (m: string)
    ensures r.ThrownError? ==> m == r.message
    ensures r.ThrownOther? ==> m == fallback
  {
    match r
    case ThrownError(message) => message
    case ThrownOther => fallback
  }

  /**
   * The create form's payload: the trimmed title, and the trimmed description
   * or no description key at all when that is empty.
   */
  function CreatePayload(title: string, description: string): (p: CreateTaskInput)
    ensures p.title == Trim(title)
    ensures p.description.None? <==> AllWhitespace(description)
    ensures p.description.Some? ==> p.description.value == Trim(description) && p.description.value != ""
  {
    TrimEmptyIffBlank(description);
    var d := Trim(description);
    CreateTaskInput(Trim(title), if d == "" then None else Some(d))
  }

  /**
   * The edit modal's payload: the trimmed title, and the trimmed description
   * or, when that is empty, a description key holding `undefined`;
   * `completed` is not sent.
   */
  function EditPayload(title: string, description: string): (p: UpdateTaskInput)
    ensures p.title == Some(Trim(title)) && p.completed.None?
    ensures p.description.Undefined? <==> AllWhitespace(description)
    ensures !p.description.Undefined? ==> p.description == Present(Trim(description))
  {
    TrimEmptyIffBlank(description);
    var d := Trim(description);
    UpdateTaskInput(Some(Trim(title)), if d == "" then Undefined else Present(d), None)
  }

  /** The create form's state. */
  class CreateForm {
    var title: string
    var description: string
    var titleError: Option<string>
    var isSubmitting: bool
    var submitError: Option<string>

    constructor ()
      ensures title == "" && description == "" && titleError.None?
      ensures !isSubmitting && submitError.None?
    {
      title := "";
      description := "";
      titleError := None;
      isSubmitting := false;
      submitError := None;
    }

    /** The title counter shows from 180 characters on, counted before trimming. */
    function ShowTitleCounter(): bool
      reads this
    {
      |title| >= TITLE_COUNTER_THRESHOLD
    }

    /** The description counter shows from 1900 characters on. */
    function ShowDescriptionCounter(): bool
      reads this
    {
      |description| >= DESCRIPTION_COUNTER_THRESHOLD
    }

    /**
     * `handleSubmit` up to its await. The submission error is cleared; an
     * invalid title is reported and nothing is submitted; a valid one starts
     * the submission with the trimmed payload.
     */
    method BeginSubmit() returns (payload: Option<CreateTaskInput>)
      modifies this
      ensures submitError.None?
      ensures title == old(title) && description == old(description)
      ensures ValidateTitle(old(title)).Some? ==>
        && payload.None?
        && titleError == ValidateTitle(old(title))
        && isSubmitting == old(isSubmitting)
      ensures ValidateTitle(old(title)).None? ==>
        && payload == Some(CreatePayload(old(title), old(description)))
        && titleError == old(titleError)
        && isSubmitting
    {
      submitError := None;
      var invalid := ValidateTitle(title);
      if invalid.Some? {
        titleError := invalid;
        return None;
      }
      isSubmitting := true;
      payload := Some(CreatePayload(title, description));
    }

    /**
     * `handleSubmit` after `onSubmit` settles: success empties both fields,
     * failure keeps them and shows the error; submitting stops either way.
     */
    method SettleSubmit(failure: Option<Rejection>)
      modifies this
      ensures !isSubmitting && titleError == old(titleError)
      ensures failure.None? ==> title == "" && description == "" && submitError == old(submitError)
      ensures failure.Some? ==>
        && title == old(title) && description == old(description)
        && submitError == Some(RejectionText(failure.value, "Failed to create task"))
    {
      isSubmitting := false;
      match failure
      case None =>
        title := "";
        description := "";
      case Some(r) =>
        submitError := Some(RejectionText(r, "Failed to create task"));
    }

    /** `handleTitleChange`: the title is re-validated only while an error is shown. */
    method ChangeTitle(value: string)
      modifies this
      ensures title == value
      ensures old(titleError).Some? ==> titleError == ValidateTitle(value)
      ensures old(titleError).None? ==> titleError.None?
      ensures description == old(description) && isSubmitting == old(isSubmitting)
      ensures submitError == old(submitError)
    {
      title := value;
      if titleError.Some? {
        titleError := ValidateTitle(value);
      }
    }

    /** The description field's change handler. */
    method ChangeDescription(value: string)
      modifies this
      ensures description == value
      ensures title == old(title) && titleError == old(titleError)
      ensures isSubmitting == old(isSubmitting) && submitError == old(submitError)
    {
      description := value;
    }
  }

  /** The edit modal's state; the task being edited and the callbacks are its caller's. */
  class EditModal {
    var title: string
    var description: string
    var titleError: Option<string>
    var isSubmitting: bool
    var submitError: Option<string>

    constructor ()
      ensures title == "" && description == "" && titleError.None?
      ensures !isSubmitting && submitError.None?
    {
      title := "";
      description := "";
      titleError := None;
      isSubmitting := false;
      submitError := None;
    }

    function ShowTitleCounter(): bool
      reads this
    {
      |title| >= TITLE_COUNTER_THRESHOLD
    }

    function ShowDescriptionCounter(): bool
      reads this
    {
      |description| >= DESCRIPTION_COUNTER_THRESHOLD
    }

    /**
     * The effect run when the `task` prop changes: a task loads its title and
     * description (or "") and clears both errors; no task leaves the form as it is.
     */
    method TaskChanged(task: Option<Task>)
      modifies this
      ensures task.None? ==> unchanged(this)
      ensures task.Some? ==>
        && title == task.value.title
        && description == task.value.description.GetOr("")
        && titleError.None? && submitError.None?
      ensures isSubmitting == old(isSubmitting)
    {
      if task.Some? {
        title := task.value.title;
        description := task.value.description.GetOr("");
        titleError := None;
        submitError := None;
      }
    }

    /**
     * `handleSubmit` up to its await. Without a task nothing happens. An
     * invalid title is reported and `onSave` is not called; a valid one starts
     * the save of the task's id with the trimmed payload.
     */
    method BeginSubmit(task: Option<Task>) returns (request: Option<(string, UpdateTaskInput)>)
      modifies this
      ensures task.None? ==> unchanged(this) && request.None?
      ensures title == old(title) && description == old(description)
      ensures task.Some? ==> submitError.None?
      ensures task.Some? && ValidateTitle(old(title)).Some? ==>
        && request.None?
        && titleError == ValidateTitle(old(title))
        && isSubmitting == old(isSubmitting)
      ensures task.Some? && ValidateTitle(old(title)).None? ==>
        && request == Some((task.value.id, EditPayload(old(title), old(description))))
        && titleError == old(titleError)
        && isSubmitting
    {
      if task.None? {
        return None;
      }
      submitError := None;
      var invalid := ValidateTitle(title);
      if invalid.Some? {
        titleError := invalid;
        return None;
      }
      isSubmitting := true;
      request := Some((task.value.id, EditPayload(title, description)));
    }

    /**
     * `handleSubmit` after `onSave` settles: the modal asks to close only on
     * success; on failure it stays open showing the error. Submitting stops
     * either way.
     */
    method SettleSubmit(failure: Option<Rejection>) returns (close: bool)
      modifies this
      ensures close <==> failure.None?
      ensures !isSubmitting
      ensures failure.None? ==> submitError == old(submitError)
      ensures failure.Some? ==> submitError == Some(RejectionText(failure.value, "Failed to update task"))
      ensures title == old(title) && description == old(description) && titleError == old(titleError)
    {
      close := failure.None?;
      if failure.Some? {
        submitError := Some(RejectionText(failure.value, "Failed to update task"));
      }
      isSubmitting := false;
    }

    /** `handleTitleChange`: the title is re-validated only while an error is shown. */
    method ChangeTitle(value: string)
      modifies this
      ensures title == value
      ensures old(titleError).Some? ==> titleError == ValidateTitle(value)
      ensures old(titleError).None? ==> titleError.None?
      ensures description == old(description) && isSubmitting == old(isSubmitting)
      ensures submitError == old(submitError)
    {
      title := value;
      if titleError.Some? {
        titleError := ValidateTitle(value);
      }
    }

    /** The description field's change handler. */
    method ChangeDescription(value: string)
      modifies this
      ensures description == value
      ensures title == old(title) && titleError == old(titleError)
      ensures isSubmitting == old(isSubmitting) && submitError == old(submitError)
    {
      description := value;
    }
  }
}
