/**
 * The task form: prefilling it from a task, editing one field at a time,
 * and submitting it as a create or an edit.
 */
module AddTask {
  import opened Tasks
  import opened Requests
  import ApiPaths

  /** The form record; `id` is absent while creating. */
  datatype FormData = FormData(
    title: string,
    description: string,
    dueDate: string,
    priority: string,
    status: string,
    id: Option<string>)

  const INITIAL_FORM: FormData := FormData("", "", "", "LOW", IN_PROGRESS, None)

  const PAST_DUE_MESSAGE: string := "Due date cannot be in the past."
  const SAVE_FALLBACK: string := "Failed to save task"

  // ----------------------------------------------------------- prefill

  /** `s.split('T')[0]`: the text before the first 'T'. */
  function BeforeT(s: string): (r: string)
    ensures r <= s
    ensures 'T' !in r
    ensures |r| < |s| ==> s[|r|] == 'T'
    ensures 'T' !in s ==> r == s
  {
    if s == [] || s[0] == 'T' then ""
    else [s[0]] + BeforeT(s[1..])
  }

  /** The date part of an ISO timestamp is read back unchanged. */
  lemma {:induction false} BeforeTOfTimestamp(date: string, time: string)
    requires 'T' !in date
    ensures BeforeT(date + "T" + time) == date
  {
    if date != [] {
      BeforeTOfTimestamp(date[1..], time);
      assert (date + "T" + time)[1..] == date[1..] + "T" + time;
    } else {
      assert date + "T" + time == ['T'] + time;
    }
  }

  /**
   * The form opened on an existing task: missing texts become "", the
   * due date keeps its date part, priority and status take their
   * defaults, and the id is the store's `_id`, else `id`.
   */
  function Prefill(t: Task): (f: FormData)
    ensures f.title == (if Truthy(t.title) then t.title.value else "")
    ensures f.description == (if Truthy(t.description) then t.description.value else "")
    ensures f.dueDate <= t.dueDate.GetOr("") && 'T' !in f.dueDate
    ensures t.dueDate.Some? && 'T' !in t.dueDate.value ==> f.dueDate == t.dueDate.value
    ensures f.dueDate == (if t.dueDate.Some? then BeforeT(t.dueDate.value) else "")
    ensures f.priority == (if Truthy(t.priority) then t.priority.value else "LOW")
    ensures f.status == (if Truthy(t.status) then t.status.value else IN_PROGRESS)
    ensures f.id == (if Truthy(t.dbId) then t.dbId else t.id)
  {
    var due := if t.dueDate.Some? then BeforeT(t.dueDate.value) else "";
    FormData(
      Or(t.title, ""),
      Or(t.description, ""),
      Or(Some(due), ""),
      Or(t.priority, "LOW"),
      Or(t.status, IN_PROGRESS),
      if Truthy(t.dbId) then t.dbId else t.id)
  }

  // ------------------------------------------------------- field edits

  /** The named inputs of the form. */
  datatype FieldName = Title | Description | DueDate | Priority | Status

  function Get(f: FormData, name: FieldName): string {
    match name
    case Title => f.title
    case Description => f.description
    case DueDate => f.dueDate
    case Priority => f.priority
    case Status => f.status
  }

  /** `{ ...prev, [name]: value }`. */
  function With(f: FormData, name: FieldName, value: string): (r: FormData)
    ensures Get(r, name) == value
    ensures forall other :: other != name ==> Get(r, other) == Get(f, other)
    ensures r.id == f.id
  {
    match name
    case Title => f.(title := value)
    case Description => f.(description := value)
    case DueDate => f.(dueDate := value)
    case Priority => f.(priority := value)
    case Status => f.(status := value)
  }

  /** Writing back the value a field already holds leaves the form as it is. */
  lemma WithOwnValue(f: FormData, name: FieldName)
    ensures With(f, name, Get(f, name)) == f
  {
  }

  /** Edits of two different fields commute. */
  lemma WithCommutes(f: FormData, a: FieldName, x: string, b: FieldName, y: string)
    requires a != b
    ensures With(With(f, a, x), b, y) == With(With(f, b, y), a, x)
  {
  }

  // --------------------------------------------------------- due dates

  /** JavaScript's `<` on strings: code-unit-wise, a proper prefix first. */
  predicate LexLess(a: string, b: string) {
    if b == [] then false
    else if a == [] then true
    else if a[0] != b[0] then a[0] < b[0]
    else LexLess(a[1..], b[1..])
  }

  /** No string is below itself. */
  lemma {:induction false} LexLessIrreflexive(a: string)
    ensures !LexLess(a, a)
  {
    if a != [] {
      LexLessIrreflexive(a[1..]);
    }
  }

  /** Of two different strings, exactly one is below the other. */
  lemma {:induction false} LexLessTotal(a: string, b: string)
    ensures a != b ==> LexLess(a, b) || LexLess(b, a)
    ensures !(LexLess(a, b) && LexLess(b, a))
  {
    if a != [] && b != [] && a[0] == b[0] {
      LexLessTotal(a[1..], b[1..]);
      assert a == [a[0]] + a[1..] && b == [b[0]] + b[1..];
    }
  }

  /** The order is transitive. */
  lemma {:induction false} LexLessTransitive(a: string, b: string, c: string)
    requires LexLess(a, b) && LexLess(b, c)
    ensures LexLess(a, c)
  {
    if a != [] && a[0] == b[0] && b[0] == c[0] {
      LexLessTransitive(a[1..], b[1..], c[1..]);
    }
  }

  /** An empty due date counts as past whenever today's date is known. */
  lemma EmptyDueDateIsPast(today: string)
    requires today != ""
    ensures LexLess("", today)
  {
  }

  /** A string is below every proper extension of it, so a prefix of today is past. */
  lemma {:induction false} ProperPrefixIsLess(a: string, b: string)
    requires a < b
    ensures LexLess(a, b)
  {
    if a != [] {
      ProperPrefixIsLess(a[1..], b[1..]);
    }
  }

  // ---------------------------------------------------------- dispatch

  /** The request a submission sends. */
  datatype Request = Put(path: string, payload: FormData) | Post(path: string, payload: FormData)

  /**
   * `isEdit` is a present, non-empty id: an edit PUTs the whole record to
   * the task's path; a create POSTs it to the collection without the id.
   */
  function Dispatch(f: FormData): (r: Request)
    ensures r.Put? <==> Truthy(f.id)
    ensures r.Put? ==> r.path == ApiPaths.Update(f.id.value) && r.payload == f
    ensures r.Post? ==> r.path == ApiPaths.ADD && r.payload.id == None
    ensures r.payload.(id := f.id) == f
  {
    if Truthy(f.id) then Put(ApiPaths.Update(f.id.value), f)
    else Post(ApiPaths.ADD, f.(id := None))
  }

  /** A form opened on a stored task edits that task. */
  lemma PrefilledFormEdits(t: Task)
    requires Truthy(t.dbId)
    ensures Dispatch(Prefill(t)) == Put(ApiPaths.Update(t.dbId.value), Prefill(t))
  {
  }

  /** A form opened without a task creates one, sending the initial record. */
  lemma NewFormCreates()
    ensures Dispatch(INITIAL_FORM) == Post(ApiPaths.ADD, INITIAL_FORM)
  {
  }

  /** Field edits never turn a create into an edit or the other way round. */
  lemma EditsKeepDispatchKind(f: FormData, name: FieldName, value: string)
    ensures Dispatch(With(f, name, value)).Put? == Dispatch(f).Put?
  {
  }

  /** The message shown when saving fails for a reason other than 401. */
  function SaveErrorMessage(o: Outcome<Task>): (m: string)
    requires !o.Ok?
    ensures m != ""
    ensures o.Failed? && Truthy(o.serverMessage) ==> m == o.serverMessage.value
    ensures o.Failed? && !Truthy(o.serverMessage) && Truthy(o.message) ==> m == o.message.value
    ensures o.Failed? && !Truthy(o.serverMessage) && !Truthy(o.message) ==> m == SAVE_FALLBACK
    ensures o.Cancelled? ==> m == CANCELED_MESSAGE
  {
    FailureMessage(o, SAVE_FALLBACK)
  }

  // -------------------------------------------------------------- form

  /** The form's state: the record being edited, the saving flag and the error. */
  class TaskForm {
    var taskData: FormData
    var loading: bool
    var error: Option<string>

    constructor ()
      ensures taskData == INITIAL_FORM && !loading && error == None
    {
      taskData := INITIAL_FORM;
      loading := false;
      error := None;
    }

    /**
     * The prefill effect. While closed nothing changes; on opening, the
     * record is taken from the task to edit, or reset, and the error is
     * cleared.
     */
    method Open(isOpen: bool, taskToEdit: Option<Task>)
      modifies this
      ensures loading == old(loading)
      ensures !isOpen ==> taskData == old(taskData) && error == old(error)
      ensures isOpen ==> error == None
      ensures isOpen ==> taskData == (if taskToEdit.Some? then Prefill(taskToEdit.value) else INITIAL_FORM)
    {
      if !isOpen {
        return;
      }
      if taskToEdit.Some? {
        taskData := Prefill(taskToEdit.value);
      } else {
        taskData := INITIAL_FORM;
      }
      error := None;
    }

    /** `handleChange` for the input named `name`. */
    method Change(name: FieldName, value: string)
      modifies this
      ensures taskData == With(old(taskData), name, value)
      ensures loading == old(loading) && error == old(error)
    {
      taskData := With(taskData, name, value);
    }

    /**
     * `handleSubmit`. `today` is the current UTC date as `YYYY-MM-DD` and
     * `outcome` how the request ends. A due date below today is refused
     * before any request and without touching the saving flag. Otherwise
     * the request is `Dispatch(taskData)`; success hands the saved task to
     * the parent (`saved`), 401 ends the session with no error shown, any
     * other failure shows a message, and saving is over in every case.
     */
    method Submit(today: string, outcome: Outcome<Task>) returns (request: Option<Request>, saved: Option<Task>, logout: bool)
      modifies this
      ensures taskData == old(taskData)
      ensures request.Some? <==> !LexLess(old(taskData.dueDate), today)
      ensures request.Some? ==> request.value == Dispatch(taskData)
      ensures request.None? ==> error == Some(PAST_DUE_MESSAGE) && loading == old(loading)
                                && saved.None? && !logout
      ensures request.Some? ==> !loading
      ensures request.Some? ==> (saved.Some? <==> outcome.Ok?) && (outcome.Ok? ==> saved == Some(outcome.payload))
      ensures request.Some? ==> (logout <==> StatusOf(outcome) == Some(401))
      ensures request.Some? ==> error == (if !outcome.Ok? && StatusOf(outcome) != Some(401)
                                          then Some(SaveErrorMessage(outcome)) else None)
    {
      request := None;
      saved := None;
      logout := false;
      if LexLess(taskData.dueDate, today) {
        error := Some(PAST_DUE_MESSAGE);
        return;
      }
      loading := true;
      error := None;
      request := Some(Dispatch(taskData));
      match outcome {
        case Ok(data) =>
          saved := Some(data);
        case Cancelled =>
          error := Some(SaveErrorMessage(outcome));
        case Failed(status, _, _) =>
          if status == Some(401) {
            logout := true;
          } else {
            error := Some(SaveErrorMessage(outcome));
          }
      }
      loading := false;
    }
  }
}
