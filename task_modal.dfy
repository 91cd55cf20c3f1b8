/**
 * The create/edit task dialog: its form fields, the submit guard and the
 * trimmed payload it hands to the dashboard's save handler.
 */
module TaskModal {
  import opened Builtins
  import opened Validators

  /** The fields of the task the dialog is opened with; a field the object lacks is `None`. */
  datatype TaskFields = TaskFields(title: Option<string>, description: Option<string>, status: Option<string>)

  /** `{title, description, status}`: what `onSave` receives. */
  datatype Payload = Payload(title: string, description: string, status: string)

  /** The payload as the request body: exactly the three keys. */
  function PayloadObject(p: Payload): (body: Object)
    ensures body.Keys == {"title", "description", "status"}
  {
    map["title" := Str(p.title), "description" := Str(p.description), "status" := Str(p.status)]
  }

  /**
   * What `handleSubmit` sends for the current fields: nothing when the
   * title is blank, otherwise the trimmed title and description and the
   * status as selected.
   */
  function SubmitPayload(title: string, description: string, status: string): (sent: Option<Payload>)
    ensures sent.None? <==> IsBlank(title)
    ensures sent.Some? ==> sent.value == Payload(Trim(title), Trim(description), status)
    ensures sent.Some? ==> sent.value.status == status && sent.value.title != []
    ensures sent.Some? ==> !IsWhitespace(sent.value.title[0]) && !IsWhitespace(sent.value.title[|sent.value.title| - 1])
    ensures sent.Some? ==> |sent.value.title| <= |title| && |sent.value.description| <= |description|
  {
    var t := Trim(title);
    if t == [] then None else Some(Payload(t, Trim(description), status))
  }

  /** Submitting a payload's own fields again sends the same payload: trimming is done once and for all. */
  lemma ResubmitSame(title: string, description: string, status: string)
    requires SubmitPayload(title, description, status).Some?
    ensures var p := SubmitPayload(title, description, status).value;
            SubmitPayload(p.title, p.description, p.status) == Some(p)
  {
    TrimIdempotent(title);
    TrimIdempotent(description);
  }

  /**
   * A payload sent with one of the two statuses the form offers passes both
   * task schemas: as a new task (no assignee) and as an update of exactly
   * the three fields.
   */
  lemma PayloadPassesSchemas(title: string, description: string, status: string)
    requires SubmitPayload(title, description, status).Some? && status in Statuses
    ensures var p := SubmitPayload(title, description, status).value;
            && ParseCreateTask(PayloadObject(p)) == Ok(CreateTaskData(p.title, p.description, p.status, None))
            && ParseUpdateTask(PayloadObject(p)) == Ok(UpdateTaskData(Some(p.title), Some(p.description), Some(p.status), None))
  {
  }

  /** `disabled={saving || !title.trim()}`. */
  function SubmitDisabled(saving: bool, title: string): (disabled: bool)
    ensures disabled <==> saving || IsBlank(title)
  {
    saving || Trim(title) == []
  }

  /** An enabled submit button always leads to a call of `onSave`. */
  lemma EnabledSubmitSends(saving: bool, title: string, description: string, status: string)
    requires !SubmitDisabled(saving, title)
    ensures SubmitPayload(title, description, status).Some?
  {
  }

  /** The dialog's state: whether it edits a task, and its four `useState` fields. */
  class Modal {
    const isEdit: bool
    var title: string
    var description: string
    var status: string
    var saving: bool

    /** Opening the dialog: a missing or empty field of the task falls back to "" (title, description) or "pending" (status). */
    constructor (task: Option<TaskFields>)
      ensures isEdit <==> task.Some?
      ensures task.None? ==> title == "" && description == "" && status == "pending"
      ensures task.Some? ==>
                && title == OrElse(task.value.title, "")
                && description == OrElse(task.value.description, "")
                && status == OrElse(task.value.status, "pending")
      ensures status != "" && !saving
    {
      isEdit := task.Some?;
      if task.Some? {
        title := OrElse(task.value.title, "");
        description := OrElse(task.value.description, "");
        status := OrElse(task.value.status, "pending");
      } else {
        title := "";
        description := "";
        status := "pending";
      }
      saving := false;
    }

    /**
     * `handleSubmit`. `saveThrows` says whether `onSave` rejects; `thrown`
     * says whether the submission ends in that rejection. A blank title
     * returns at once; otherwise `onSave` receives the trimmed payload and
     * `saving` is false again whether or not it threw. The form fields are
     * never changed.
     */
    method Submit(saveThrows: bool) returns (sent: Option<Payload>, thrown: bool)
      modifies this`saving
      ensures sent == SubmitPayload(title, description, status)
      ensures thrown <==> sent.Some? && saveThrows
      ensures sent.None? ==> saving == old(saving)
      ensures sent.Some? ==> !saving
    {
      var trimmed := Trim(title);
      if trimmed == [] {
        return None, false;
      }
      saving := true;
      sent := Some(Payload(trimmed, Trim(description), status));
      thrown := saveThrows;
      saving := false;
    }
  }
}
