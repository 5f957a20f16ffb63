/**
 * The records of the create-project wizard. Each step's record is a draft: every field
 * may still be absent (TypeScript's `Partial<...>`) until the step is validated.
 */
module ProjectTypes {
  import opened Wrappers

  /** Step 1, project details. `projectType` is one of "fixed" or "hourly" when well-formed. */
  datatype ProjectDetailsDraft = ProjectDetailsDraft(
    jobTitle: Option<string>,
    jobDescription: Option<string>,
    category: Option<string>,
    projectType: Option<string>,
    skills: Option<seq<string>>)

  /** Step 2, budget. Amounts are JavaScript numbers. */
  datatype BudgetDraft = BudgetDraft(
    budgetType: Option<string>,
    amount: Option<real>,
    minAmount: Option<real>,
    maxAmount: Option<real>,
    currency: Option<string>)

  /** Step 3, timeline. `deadline` is a `Date`, kept as its millisecond timestamp. */
  datatype TimelineDraft = TimelineDraft(
    deadline: Option<int>,
    estimatedDuration: Option<real>,
    durationUnit: Option<string>,
    isUrgent: Option<bool>)

  /** Step 4, requirements. */
  datatype RequirementsDraft = RequirementsDraft(
    experienceLevel: Option<string>,
    availability: Option<string>,
    location: Option<string>,
    timezone: Option<string>)

  /** A browser `File`, reduced to what the schema reads: its name and its size in bytes. */
  datatype Attachment = Attachment(name: string, size: nat)

  /** Step 5, attachments. `maxFileSize` is in megabytes. */
  datatype AttachmentsDraft = AttachmentsDraft(
    files: Option<seq<Attachment>>,
    maxFileSize: Option<real>,
    allowedTypes: Option<seq<string>>)

  /** The store's `formData`: one draft per step. */
  datatype FormData = FormData(
    step1: ProjectDetailsDraft,
    step2: BudgetDraft,
    step3: TimelineDraft,
    step4: RequirementsDraft,
    step5: AttachmentsDraft)

  const EmptyDetails := ProjectDetailsDraft(None, None, None, None, None)
  const EmptyBudget := BudgetDraft(None, None, None, None, None)
  const EmptyTimeline := TimelineDraft(None, None, None, None)
  const EmptyRequirements := RequirementsDraft(None, None, None, None)
  const EmptyAttachments := AttachmentsDraft(None, None, None)

  /** `{ step1: {}, step2: {}, step3: {}, step4: {}, step5: {} }`. */
  const EmptyForm := FormData(EmptyDetails, EmptyBudget, EmptyTimeline, EmptyRequirements, EmptyAttachments)

  /** An error shown in the wizard; `step` is absent for errors of the whole-form validation. */
  datatype ValidationError = ValidationError(field: string, message: string, step: Option<int>)

  /** The errors the wizard throws to its caller. */
  datatype WizardError =
    | InvalidStepNumber(step: int)      // `validateStep` called with a step outside 1..5
    | FormValidationFailed              // `submitProject` found the whole form invalid
    | SubmissionFailed(message: string) // the endpoint reported status "error"

  datatype ResponseStatus = Draft | Published | Error

  /** What the submission endpoint wrapper reports back. */
  datatype CreateProjectResponse = CreateProjectResponse(projectId: string, status: ResponseStatus, message: string)
}
