/** The request-body constraints of the API models (backend/models.py). A field is given as
    `None` when the body leaves it out; every field error is reported, not only the first. */
module Models {
  import opened Wrappers
  import opened Plans

  datatype ErrorKind = Missing | TooShort(minLength: nat) | TooLong(maxLength: nat) | PatternMismatch

  datatype FieldError = FieldError(field: string, kind: ErrorKind)

  /** A required string field with length bounds, counted in characters. */
  function CheckLength(field: string, value: Option<string>, minLength: nat, maxLength: nat): (r: seq<FieldError>)
    ensures r == [] <==> value.Some? && minLength <= |value.value| <= maxLength
    ensures |r| <= 1 && forall e :: e in r ==> e.field == field
  {
    match value
    case None => [FieldError(field, Missing)]
    case Some(s) =>
      if |s| < minLength then [FieldError(field, TooShort(minLength))]
      else if |s| > maxLength then [FieldError(field, TooLong(maxLength))]
      else []
  }

  /** A required field with no further constraint. */
  function CheckPresent<T>(field: string, value: Option<T>): (r: seq<FieldError>)
    ensures r == [] <==> value.Some?
    ensures |r| <= 1 && forall e :: e in r ==> e == FieldError(field, Missing)
  {
    if value.Some? then [] else [FieldError(field, Missing)]
  }

  datatype ProblemCreate = ProblemCreate(title: string, category: string, description: Option<string>)

  /** `ProblemCreate`: a title of 5 to 100 characters and a category of 3 to 50, both
      required; the description may be left out and is then None. */
  function ValidateProblemCreate(title: Option<string>, category: Option<string>, description: Option<string>)
    : (r: Result<ProblemCreate, seq<FieldError>>)
    ensures r.Success? <==>
      && title.Some? && 5 <= |title.value| <= 100
      && category.Some? && 3 <= |category.value| <= 50
    ensures r.Success? ==> r.value == ProblemCreate(title.value, category.value, description)
    ensures r.Failure? ==> r.error != [] && forall e :: e in r.error ==> e.field in {"title", "category"}
    ensures category.None? ==> r == Failure(CheckLength("title", title, 5, 100) + [FieldError("category", Missing)])
  {
    var errors := CheckLength("title", title, 5, 100) + CheckLength("category", category, 3, 50);
    if errors == [] then Success(ProblemCreate(title.value, category.value, description))
    else Failure(errors)
  }

  /** A body with a good title and no category is rejected for the missing category. */
  lemma MissingCategoryRejected(title: string)
    requires 5 <= |title| <= 100
    ensures ValidateProblemCreate(Some(title), None, None) == Failure([FieldError("category", Missing)])
  {
    assert CheckLength("title", Some(title), 5, 100) == [];
    assert [] + [FieldError("category", Missing)] == [FieldError("category", Missing)];
  }

  /** The length bounds are inclusive at both ends. */
  lemma ProblemLengthBounds()
    ensures ValidateProblemCreate(Some("abcde"), Some("abc"), None).Success?
    ensures ValidateProblemCreate(Some("abcd"), Some("abc"), None).Failure?
    ensures ValidateProblemCreate(Some("abcde"), Some("ab"), None).Failure?
  {
  }

  datatype TaskCreate = TaskCreate(planId: int, title: Option<string>, dueAt: Option<string>)

  /** `TaskCreate`: only the plan id is required. */
  function ValidateTaskCreate(planId: Option<int>, title: Option<string>, dueAt: Option<string>)
    : (r: Result<TaskCreate, seq<FieldError>>)
    ensures r.Success? <==> planId.Some?
    ensures r.Success? ==> r.value == TaskCreate(planId.value, title, dueAt)
    ensures r.Failure? ==> r.error == [FieldError("plan_id", Missing)]
  {
    var errors := CheckPresent("plan_id", planId);
    if errors == [] then Success(TaskCreate(planId.value, title, dueAt)) else Failure(errors)
  }

  /** The three statuses `^(pending|in_progress|completed)$` admits. The pattern is matched
      with Rust's regex semantics, where `$` is the end of the text, so nothing may follow. */
  const TaskStatuses: set<string> := {"pending", "in_progress", "completed"}

  /** `TaskUpdate`: a required status, exactly one of the three. */
  function ValidateTaskUpdate(status: Option<string>): (r: Result<string, seq<FieldError>>)
    ensures r.Success? <==> status.Some? && status.value in TaskStatuses
    ensures r.Success? ==> r.value == status.value
    ensures r.Failure? ==> |r.error| == 1 && r.error[0].field == "status"
  {
    match status
    case None => Failure([FieldError("status", Missing)])
    case Some(s) => if s in TaskStatuses then Success(s) else Failure([FieldError("status", PatternMismatch)])
  }

  /** A status with a trailing newline, or in another case, is refused. */
  lemma StatusMustBeExact()
    ensures ValidateTaskUpdate(Some("completed\n")).Failure?
    ensures ValidateTaskUpdate(Some("Pending")).Failure?
    ensures ValidateTaskUpdate(Some("in_progress")).Success?
  {
  }

  /** `PlanStep`: all four fields required, with nothing checked about their contents. */
  function ValidatePlanStep(stepId: Option<int>, title: Option<string>, details: Option<string>, dueOffset: Option<string>)
    : (r: Result<PlanStep, seq<FieldError>>)
    ensures r.Success? <==> stepId.Some? && title.Some? && details.Some? && dueOffset.Some?
    ensures r.Success? ==> r.value == PlanStep(stepId.value, title.value, details.value, dueOffset.value)
    ensures r.Failure? ==> forall e :: e in r.error ==> e.kind == Missing
  {
    var errors := CheckPresent("step_id", stepId) + CheckPresent("title", title)
      + CheckPresent("details", details) + CheckPresent("due_offset", dueOffset);
    if errors == [] then Success(PlanStep(stepId.value, title.value, details.value, dueOffset.value))
    else Failure(errors)
  }

  /** The model accepts due offsets that `parse_due_offset` then rejects. */
  lemma AcceptedStepMayNotParse()
    ensures ValidatePlanStep(Some(1), Some("t"), Some("d"), Some("")).Success?
    ensures ParseDueOffset("") == Failure(IndexError)
  {
  }
}
