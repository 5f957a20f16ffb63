/**
 * The wizard session store: one mutable record (`formData`, `currentStep`, `errors`,
 * `isSubmitting`) and the actions that update it. Every action runs to completion; the
 * submission is treated as one atomic step whose network outcome is a parameter.
 */
module ProjectStore {
  import opened Wrappers
  import opened Text
  import opened Sequences
  import opened ProjectTypes
  import opened ProjectSchema

  // ---------------------------------------------------------------- shallow merge

  /** One key of `{ ...current, ...patch }`: a key present in the patch wins. */
  function Override<T>(current: Option<T>, patch: Option<T>): Option<T> {
    if patch.Some? then patch else current
  }

  function MergeDetails(d: ProjectDetailsDraft, p: ProjectDetailsDraft): ProjectDetailsDraft {
    ProjectDetailsDraft(
      Override(d.jobTitle, p.jobTitle), Override(d.jobDescription, p.jobDescription),
      Override(d.category, p.category), Override(d.projectType, p.projectType),
      Override(d.skills, p.skills))
  }

  function MergeBudget(d: BudgetDraft, p: BudgetDraft): BudgetDraft {
    BudgetDraft(
      Override(d.budgetType, p.budgetType), Override(d.amount, p.amount),
      Override(d.minAmount, p.minAmount), Override(d.maxAmount, p.maxAmount),
      Override(d.currency, p.currency))
  }

  function MergeTimeline(d: TimelineDraft, p: TimelineDraft): TimelineDraft {
    TimelineDraft(
      Override(d.deadline, p.deadline), Override(d.estimatedDuration, p.estimatedDuration),
      Override(d.durationUnit, p.durationUnit), Override(d.isUrgent, p.isUrgent))
  }

  function MergeRequirements(d: RequirementsDraft, p: RequirementsDraft): RequirementsDraft {
    RequirementsDraft(
      Override(d.experienceLevel, p.experienceLevel), Override(d.availability, p.availability),
      Override(d.location, p.location), Override(d.timezone, p.timezone))
  }

  function MergeAttachments(d: AttachmentsDraft, p: AttachmentsDraft): AttachmentsDraft {
    AttachmentsDraft(
      Override(d.files, p.files), Override(d.maxFileSize, p.maxFileSize),
      Override(d.allowedTypes, p.allowedTypes))
  }

  /**
   * The spread merge of every step is a monoid action: the empty patch changes nothing, a
   * patch applied twice is applied once, and two merges in a row are one merge of the
   * combined patch.
   */
  lemma MergeLaws(f: FormData, p: FormData, q: FormData)
    ensures MergeDetails(f.step1, EmptyDetails) == f.step1
    ensures MergeDetails(MergeDetails(f.step1, p.step1), p.step1) == MergeDetails(f.step1, p.step1)
    ensures MergeDetails(MergeDetails(f.step1, p.step1), q.step1) == MergeDetails(f.step1, MergeDetails(p.step1, q.step1))
    ensures MergeBudget(f.step2, EmptyBudget) == f.step2
    ensures MergeBudget(MergeBudget(f.step2, p.step2), p.step2) == MergeBudget(f.step2, p.step2)
    ensures MergeBudget(MergeBudget(f.step2, p.step2), q.step2) == MergeBudget(f.step2, MergeBudget(p.step2, q.step2))
    ensures MergeTimeline(f.step3, EmptyTimeline) == f.step3
    ensures MergeTimeline(MergeTimeline(f.step3, p.step3), p.step3) == MergeTimeline(f.step3, p.step3)
    ensures MergeTimeline(MergeTimeline(f.step3, p.step3), q.step3) == MergeTimeline(f.step3, MergeTimeline(p.step3, q.step3))
    ensures MergeRequirements(f.step4, EmptyRequirements) == f.step4
    ensures MergeRequirements(MergeRequirements(f.step4, p.step4), p.step4) == MergeRequirements(f.step4, p.step4)
    ensures MergeRequirements(MergeRequirements(f.step4, p.step4), q.step4)
      == MergeRequirements(f.step4, MergeRequirements(p.step4, q.step4))
    ensures MergeAttachments(f.step5, EmptyAttachments) == f.step5
    ensures MergeAttachments(MergeAttachments(f.step5, p.step5), p.step5) == MergeAttachments(f.step5, p.step5)
    ensures MergeAttachments(MergeAttachments(f.step5, p.step5), q.step5)
      == MergeAttachments(f.step5, MergeAttachments(p.step5, q.step5))
  {
  }

  // ---------------------------------------------------------------- error lists

  /** `errors.filter(error => error.step !== step)`. */
  function WithoutStep(errors: seq<ValidationError>, step: int): (r: seq<ValidationError>)
    ensures forall e :: e in r <==> e in errors && e.step != Some(step)
    ensures IsSubsequence(r, errors)
  {
    if errors == [] then []
    else
      var rest := WithoutStep(errors[1..], step);
      assert errors == [errors[0]] + errors[1..];
      if errors[0].step != Some(step) then [errors[0]] + rest else rest
  }

  /** `errors.filter(error => error.step === step)`. */
  function ErrorsOfStep(errors: seq<ValidationError>, step: int): (r: seq<ValidationError>)
    ensures forall e :: e in r <==> e in errors && e.step == Some(step)
    ensures IsSubsequence(r, errors)
  {
    if errors == [] then []
    else
      var rest := ErrorsOfStep(errors[1..], step);
      assert errors == [errors[0]] + errors[1..];
      if errors[0].step == Some(step) then [errors[0]] + rest else rest
  }

  /** The two filters split the error list: every error lands in exactly one of them, as often as it occurs. */
  lemma {:induction false} ErrorsPartition(errors: seq<ValidationError>, step: int)
    ensures multiset(ErrorsOfStep(errors, step)) + multiset(WithoutStep(errors, step)) == multiset(errors)
  {
    if errors != [] {
      ErrorsPartition(errors[1..], step);
      assert errors == [errors[0]] + errors[1..];
    }
  }

  /** Dropping the errors of one step leaves the errors of every other step exactly as they were. */
  lemma {:induction false} WithoutStepKeepsOtherSteps(errors: seq<ValidationError>, dropped: int, step: int)
    ensures ErrorsOfStep(WithoutStep(errors, dropped), step) ==
      if step == dropped then [] else ErrorsOfStep(errors, step)
  {
    if errors != [] {
      WithoutStepKeepsOtherSteps(errors[1..], dropped, step);
    }
  }

  /** `err.path.join('.')`. */
  function PathText(path: seq<PathKey>): string {
    JoinPath(seq(|path|, i requires 0 <= i < |path| => KeyName(path[i])))
  }

  /** The violations of a zod parse as the store's errors: the path joined by dots, tagged with `step`. */
  function Tagged(issues: seq<Issue>, step: Option<int>): (r: seq<ValidationError>)
    ensures |r| == |issues|
    ensures forall i :: 0 <= i < |r| ==>
      r[i].field == PathText(issues[i].path) && r[i].message == MessageText(issues[i].message) && r[i].step == step
  {
    seq(|issues|, i requires 0 <= i < |issues| =>
      ValidationError(PathText(issues[i].path), MessageText(issues[i].message), step))
  }

  // ---------------------------------------------------------------- the submission endpoint

  /** How the `fetch` inside `submitProjectToAPI` ended: an HTTP response, or a thrown error. */
  datatype FetchOutcome =
    | Responded(ok: bool, projectId: string)
    | Threw(message: Option<string>)  // None: something other than an `Error` was thrown

  /** `submitProjectToAPI`: never throws; every failure becomes a response with status "error". */
  function SubmitProjectToApi(outcome: FetchOutcome): (r: CreateProjectResponse)
    ensures r.status == Published <==> outcome.Responded? && outcome.ok
    ensures r.status == Published ==> r.projectId == outcome.projectId
    ensures r.status != Published ==> r.status == Error && r.projectId == []
    ensures outcome.Responded? && outcome.ok ==> r.message == "Project created successfully"
    ensures outcome.Responded? && !outcome.ok ==> r.message == "Failed to submit project"
    ensures outcome.Threw? && outcome.message.Some? ==> r.message == outcome.message.value
    ensures outcome.Threw? && outcome.message.None? ==> r.message == "Unknown error occurred"
  {
    match outcome
    case Responded(ok, id) =>
      if ok then CreateProjectResponse(id, Published, "Project created successfully")
      else CreateProjectResponse("", Error, "Failed to submit project")
    case Threw(message) =>
      CreateProjectResponse("", Error, if message.Some? then message.value else "Unknown error occurred")
  }

  /** `response.message || 'Failed to submit project'`. */
  function FailureMessage(response: CreateProjectResponse): (m: string)
    ensures m != []
    ensures response.message != [] ==> m == response.message
    ensures response.message == [] ==> m == "Failed to submit project"
  {
    if response.message != [] then response.message else "Failed to submit project"
  }

  // ---------------------------------------------------------------- the store

  class Wizard {
    var formData: FormData
    var currentStep: int
    var isSubmitting: bool
    var errors: seq<ValidationError>
    /** The instant the timeline schema captured with `new Date()` when it was built. */
    const schemaBuiltAt: int

    /** The state the store starts in and returns to on reset. */
    predicate IsInitial()
      reads this
    {
      formData == EmptyForm && currentStep == 1 && !isSubmitting && errors == []
    }

    /** The invariant every action but `SetCurrentStep` keeps. */
    predicate StepInRange()
      reads this
    {
      1 <= currentStep <= 5
    }

    constructor(schemaBuiltAt: int)
      ensures IsInitial() && this.schemaBuiltAt == schemaBuiltAt
    {
      this.schemaBuiltAt := schemaBuiltAt;
      formData := EmptyForm;
      currentStep := 1;
      isSubmitting := false;
      errors := [];
    }

    // -------------------------------------------------------------- updates

    method UpdateStep1Data(patch: ProjectDetailsDraft)
      modifies this
      ensures formData == old(formData).(step1 := MergeDetails(old(formData.step1), patch))
      ensures errors == WithoutStep(old(errors), 1) && GetStepErrors(1) == []
      ensures currentStep == old(currentStep) && isSubmitting == old(isSubmitting)
    {
      formData := formData.(step1 := MergeDetails(formData.step1, patch));
      WithoutStepKeepsOtherSteps(errors, 1, 1);
      errors := WithoutStep(errors, 1);
    }

    method UpdateStep2Data(patch: BudgetDraft)
      modifies this
      ensures formData == old(formData).(step2 := MergeBudget(old(formData.step2), patch))
      ensures errors == WithoutStep(old(errors), 2) && GetStepErrors(2) == []
      ensures currentStep == old(currentStep) && isSubmitting == old(isSubmitting)
    {
      formData := formData.(step2 := MergeBudget(formData.step2, patch));
      WithoutStepKeepsOtherSteps(errors, 2, 2);
      errors := WithoutStep(errors, 2);
    }

    method UpdateStep3Data(patch: TimelineDraft)
      modifies this
      ensures formData == old(formData).(step3 := MergeTimeline(old(formData.step3), patch))
      ensures errors == WithoutStep(old(errors), 3) && GetStepErrors(3) == []
      ensures currentStep == old(currentStep) && isSubmitting == old(isSubmitting)
    {
      formData := formData.(step3 := MergeTimeline(formData.step3, patch));
      WithoutStepKeepsOtherSteps(errors, 3, 3);
      errors := WithoutStep(errors, 3);
    }

    method UpdateStep4Data(patch: RequirementsDraft)
      modifies this
      ensures formData == old(formData).(step4 := MergeRequirements(old(formData.step4), patch))
      ensures errors == WithoutStep(old(errors), 4) && GetStepErrors(4) == []
      ensures currentStep == old(currentStep) && isSubmitting == old(isSubmitting)
    {
      formData := formData.(step4 := MergeRequirements(formData.step4, patch));
      WithoutStepKeepsOtherSteps(errors, 4, 4);
      errors := WithoutStep(errors, 4);
    }

    method UpdateStep5Data(patch: AttachmentsDraft)
      modifies this
      ensures formData == old(formData).(step5 := MergeAttachments(old(formData.step5), patch))
      ensures errors == WithoutStep(old(errors), 5) && GetStepErrors(5) == []
      ensures currentStep == old(currentStep) && isSubmitting == old(isSubmitting)
    {
      formData := formData.(step5 := MergeAttachments(formData.step5, patch));
      WithoutStepKeepsOtherSteps(errors, 5, 5);
      errors := WithoutStep(errors, 5);
    }

    // -------------------------------------------------------------- plain setters

    /** No bounds check: the one action that can take `currentStep` out of 1..5. */
    method SetCurrentStep(step: int)
      modifies this`currentStep
      ensures currentStep == step
      ensures StepInRange() <==> 1 <= step <= 5
    {
      currentStep := step;
    }

    method SetErrors(newErrors: seq<ValidationError>)
      modifies this`errors
      ensures errors == newErrors
    {
      errors := newErrors;
    }

    method ClearErrors()
      modifies this`errors
      ensures errors == []
    {
      errors := [];
    }

    /** Back to the initial state, whatever the state was; so resetting twice is resetting once. */
    method ResetForm()
      modifies this
      ensures IsInitial() && StepInRange()
    {
      formData := EmptyForm;
      currentStep := 1;
      isSubmitting := false;
      errors := [];
    }

    // -------------------------------------------------------------- reads

    /** `formData[`step${step}`]`: the draft of that step, or `undefined` outside 1..5. */
    function StepData(step: int): (r: StepInput)
      reads this
      ensures r.Undefined? <==> !(1 <= step <= 5)
      ensures step == 1 ==> r == Details(formData.step1)
      ensures step == 2 ==> r == Budget(formData.step2)
      ensures step == 3 ==> r == Timeline(formData.step3)
      ensures step == 4 ==> r == Requirements(formData.step4)
      ensures step == 5 ==> r == Attachments(formData.step5)
    {
      match step
      case 1 => Details(formData.step1)
      case 2 => Budget(formData.step2)
      case 3 => Timeline(formData.step3)
      case 4 => Requirements(formData.step4)
      case 5 => Attachments(formData.step5)
      case _ => Undefined
    }

    /** `getCurrentStepData`. */
    function GetCurrentStepData(): (r: StepInput)
      reads this
      ensures StepInRange() <==> !r.Undefined?
      ensures currentStep == 1 ==> r == Details(formData.step1)
      ensures currentStep == 2 ==> r == Budget(formData.step2)
      ensures currentStep == 3 ==> r == Timeline(formData.step3)
      ensures currentStep == 4 ==> r == Requirements(formData.step4)
      ensures currentStep == 5 ==> r == Attachments(formData.step5)
    {
      StepData(currentStep)
    }

    /** `getStepErrors`: the errors tagged with `step`, in their order in the list. */
    function GetStepErrors(step: int): (r: seq<ValidationError>)
      reads this
      ensures forall e :: e in r <==> e in errors && e.step == Some(step)
      ensures IsSubsequence(r, errors)
    {
      ErrorsOfStep(errors, step)
    }

    /** `isStepValid`: throws outside 1..5, otherwise whether that step's schema accepts its draft. */
    function IsStepValid(step: int): (r: Result<bool, WizardError>)
      reads this
      ensures r.Failure? <==> !(1 <= step <= 5)
      ensures r.Failure? ==> r.error == InvalidStepNumber(step)
      ensures r.Success? ==> (r.value <==> StepAccepts(step, StepData(step), schemaBuiltAt))
    {
      match ValidateStep(step, StepData(step), schemaBuiltAt)
      case Success(parsed) => Success(parsed.Accepted?)
      case Failure(e) => Failure(e)
    }

    /** `canProceedToNext`: whether the current step's draft is valid. */
    function CanProceedToNext(): (r: Result<bool, WizardError>)
      reads this
      ensures r.Success? <==> StepInRange()
      ensures r.Success? ==> (r.value <==> StepAccepts(currentStep, StepData(currentStep), schemaBuiltAt))
    {
      IsStepValid(currentStep)
    }

    /** `getProgressPercentage`: 20 per step reached. */
    function GetProgressPercentage(): (r: real)
      reads this
      ensures StepInRange() ==> r == (20 * currentStep) as real && 20.0 <= r <= 100.0
    {
      currentStep as real / 5.0 * 100.0
    }

    /** The object handed to `validateFullForm`: all five drafts. */
    function SubmittedForm(): (f: FormInput)
      reads this
      ensures f.step5 == Some(formData.step5)
    {
      FormInput(formData.step1, formData.step2, formData.step3, formData.step4, Some(formData.step5))
    }

    // -------------------------------------------------------------- validation and navigation

    /**
     * `validateCurrentStep`. On failure the error list becomes exactly the current step's
     * violations (errors of other steps are dropped); on success only the current step's
     * errors are removed. Throws when `currentStep` is outside 1..5.
     */
    method ValidateCurrentStep() returns (r: Result<bool, WizardError>)
      modifies this`errors
      ensures !StepInRange() ==> r == Failure(InvalidStepNumber(currentStep)) && errors == old(errors)
      ensures StepInRange() && !StepAccepts(currentStep, StepData(currentStep), schemaBuiltAt) ==>
        && r == Success(false)
        && errors == Tagged(ParseStep(currentStep, StepData(currentStep), schemaBuiltAt).issues, Some(currentStep))
        && errors != [] && GetStepErrors(currentStep) == errors
      ensures StepInRange() && StepAccepts(currentStep, StepData(currentStep), schemaBuiltAt) ==>
        r == Success(true) && errors == WithoutStep(old(errors), currentStep) && GetStepErrors(currentStep) == []
    {
      var validation := ValidateStep(currentStep, StepData(currentStep), schemaBuiltAt);
      match validation
      case Failure(e) =>
        r := Failure(e);
      case Success(parsed) =>
        if parsed.Rejected? {
          errors := Tagged(parsed.issues, Some(currentStep));
          TaggedAreOfStep(parsed.issues, currentStep);
          r := Success(false);
        } else {
          WithoutStepKeepsOtherSteps(errors, currentStep, currentStep);
          errors := WithoutStep(errors, currentStep);
          r := Success(true);
        }
    }

    /**
     * `nextStep`: validates the current step and moves forward by one exactly when it is
     * valid and not the last step. At step 5 it returns false even for valid data.
     */
    method NextStep() returns (r: Result<bool, WizardError>)
      modifies this`errors, this`currentStep
      ensures !old(StepInRange()) ==>
        r == Failure(InvalidStepNumber(old(currentStep))) && errors == old(errors) && currentStep == old(currentStep)
      ensures old(StepInRange()) && !StepAccepts(old(currentStep), StepData(old(currentStep)), schemaBuiltAt) ==>
        && r == Success(false) && currentStep == old(currentStep)
        && errors == Tagged(ParseStep(old(currentStep), StepData(old(currentStep)), schemaBuiltAt).issues, Some(old(currentStep)))
        && errors != [] && GetStepErrors(old(currentStep)) == errors
      ensures old(StepInRange()) && StepAccepts(old(currentStep), StepData(old(currentStep)), schemaBuiltAt) ==>
        && r == Success(old(currentStep) < 5)
        && currentStep == (if old(currentStep) < 5 then old(currentStep) + 1 else old(currentStep))
        && errors == WithoutStep(old(errors), old(currentStep))
      ensures old(StepInRange()) ==> StepInRange()
    {
      var valid := ValidateCurrentStep();
      if valid == Success(true) && currentStep < 5 {
        currentStep := currentStep + 1;
        r := Success(true);
      } else if valid.Failure? {
        r := valid;
      } else {
        r := Success(false);
      }
    }

    /** `previousStep`: moves back by one unless at step 1 or below; no validation. */
    method PreviousStep() returns (moved: bool)
      modifies this`currentStep
      ensures moved <==> old(currentStep) > 1
      ensures currentStep == if moved then old(currentStep) - 1 else old(currentStep)
      ensures old(StepInRange()) ==> StepInRange()
    {
      if currentStep > 1 {
        currentStep := currentStep - 1;
        moved := true;
      } else {
        moved := false;
      }
    }

    /** `goToStep`: jumps to `step` when it is in 1..5, and is a no-op otherwise; no validation. */
    method GoToStep(step: int) returns (moved: bool)
      modifies this`currentStep
      ensures moved <==> 1 <= step <= 5
      ensures currentStep == if moved then step else old(currentStep)
      ensures old(StepInRange()) ==> StepInRange()
    {
      if 1 <= step <= 5 {
        currentStep := step;
        moved := true;
      } else {
        moved := false;
      }
    }

    // -------------------------------------------------------------- submission

    /**
     * `submitProject`. An invalid form sets untagged errors and throws; a valid one is sent,
     * and the store resets when the endpoint publishes it. `isSubmitting` is false afterwards
     * on every path, because the endpoint wrapper never throws.
     */
    method SubmitProject(fetch: FetchOutcome) returns (r: Result<CreateProjectResponse, WizardError>)
      modifies this
      ensures !isSubmitting
      ensures r.Success? <==> FormAccepts(old(SubmittedForm()), schemaBuiltAt) && fetch.Responded? && fetch.ok
      ensures !FormAccepts(old(SubmittedForm()), schemaBuiltAt) ==>
        && r == Failure(FormValidationFailed)
        && errors == Tagged(FormIssues(old(SubmittedForm()), schemaBuiltAt), None)
        && errors != [] && formData == old(formData) && currentStep == old(currentStep)
      ensures FormAccepts(old(SubmittedForm()), schemaBuiltAt) && SubmitProjectToApi(fetch).status == Published ==>
        r == Success(SubmitProjectToApi(fetch)) && IsInitial()
      ensures FormAccepts(old(SubmittedForm()), schemaBuiltAt) && SubmitProjectToApi(fetch).status == Error ==>
        && r == Failure(SubmissionFailed(FailureMessage(SubmitProjectToApi(fetch))))
        && formData == old(formData) && currentStep == old(currentStep) && errors == old(errors)
    {
      var fullValidation := ValidateFullForm(SubmittedForm(), schemaBuiltAt);
      if fullValidation.Rejected? {
        errors := Tagged(fullValidation.issues, None);
        isSubmitting := false;
        r := Failure(FormValidationFailed);
        return;
      }
      r := Send(fetch);
    }

    /** The part of `submitProject` after validation passed: call the endpoint, then reset or report. */
    method Send(fetch: FetchOutcome) returns (r: Result<CreateProjectResponse, WizardError>)
      modifies this
      ensures !isSubmitting
      ensures r.Success? <==> fetch.Responded? && fetch.ok
      ensures SubmitProjectToApi(fetch).status == Published ==> r == Success(SubmitProjectToApi(fetch)) && IsInitial()
      ensures SubmitProjectToApi(fetch).status == Error ==>
        && r == Failure(SubmissionFailed(FailureMessage(SubmitProjectToApi(fetch))))
        && formData == old(formData) && currentStep == old(currentStep) && errors == old(errors)
    {
      isSubmitting := true;
      var response := SubmitProjectToApi(fetch);
      if response.status == Error {
        isSubmitting := false;
        r := Failure(SubmissionFailed(FailureMessage(response)));
        return;
      }
      ResetForm();
      r := Success(response);
    }
  }

  /** Errors made by tagging violations with a step are exactly the errors of that step. */
  lemma TaggedAreOfStep(issues: seq<Issue>, step: int)
    ensures ErrorsOfStep(Tagged(issues, Some(step)), step) == Tagged(issues, Some(step))
  {
    AllOfStep(Tagged(issues, Some(step)), step);
  }

  /** Filtering a list whose every error carries `step` keeps it whole. */
  lemma {:induction false} AllOfStep(errors: seq<ValidationError>, step: int)
    requires forall i :: 0 <= i < |errors| ==> errors[i].step == Some(step)
    ensures ErrorsOfStep(errors, step) == errors
  {
    if errors != [] {
      AllOfStep(errors[1..], step);
      assert errors == [errors[0]] + errors[1..];
    }
  }
}
