/**
 * The zod schemas of the wizard as predicates. Each step has a validity predicate (the
 * conjunction of its rules and refinements), an issue list that is empty exactly when the
 * predicate holds, and the parsed value zod returns on success (trimmed strings, defaults).
 */
module ProjectSchema {
  import opened Wrappers
  import opened Text
  import opened ProjectTypes

  /** A key on a violation's path: a step of the whole form, or a field of a step. */
  datatype PathKey =
    | FormStep1 | FormStep2 | FormStep3 | FormStep4 | FormStep5
    | JobTitle | JobDescription | Category | ProjectType | Skills
    | BudgetType | Currency | Deadline | EstimatedDuration | DurationUnit
    | ExperienceLevel | Availability | Location | Files

  /** The key as zod writes it in a path. */
  function KeyName(k: PathKey): string {
    match k
    case FormStep1 => "step1"
    case FormStep2 => "step2"
    case FormStep3 => "step3"
    case FormStep4 => "step4"
    case FormStep5 => "step5"
    case JobTitle => "jobTitle"
    case JobDescription => "jobDescription"
    case Category => "category"
    case ProjectType => "projectType"
    case Skills => "skills"
    case BudgetType => "budgetType"
    case Currency => "currency"
    case Deadline => "deadline"
    case EstimatedDuration => "estimatedDuration"
    case DurationUnit => "durationUnit"
    case ExperienceLevel => "experienceLevel"
    case Availability => "availability"
    case Location => "location"
    case Files => "files"
  }

  /** The messages the schemas report. */
  datatype Message =
    | Required | InvalidEnumValue
    | TitleRequired | TitleTooLong | DescriptionTooShort | DescriptionTooLong
    | CategoryRequired | ProjectTypeRequired | SkillsRequired | TooManySkills | BlankSkill
    | BudgetTypeRequired | CurrencyRequired | InvalidBudget
    | DeadlineInPast | DurationTooShort | DurationTooLong | DurationUnitRequired
    | ExperienceLevelRequired | AvailabilityRequired | LocationRequired
    | TooManyFiles | InvalidFiles

  function MessageText(m: Message): string {
    match m
    case Required => "Required"
    case InvalidEnumValue => "Invalid enum value"
    case TitleRequired => "Project title is required"
    case TitleTooLong => "Project title must be less than 100 characters"
    case DescriptionTooShort => "Description must be at least 10 characters"
    case DescriptionTooLong => "Description must be less than 1000 characters"
    case CategoryRequired => "Category is required"
    case ProjectTypeRequired => "Project type is required"
    case SkillsRequired => "At least one skill is required"
    case TooManySkills => "Maximum 10 skills allowed"
    case BlankSkill => "All skills must be non-empty"
    case BudgetTypeRequired => "Budget type is required"
    case CurrencyRequired => "Currency is required"
    case InvalidBudget => "Invalid budget configuration"
    case DeadlineInPast => "Deadline must be in the future"
    case DurationTooShort => "Duration must be at least 1"
    case DurationTooLong => "Duration cannot exceed 365"
    case DurationUnitRequired => "Duration unit is required"
    case ExperienceLevelRequired => "Experience level is required"
    case AvailabilityRequired => "Availability is required"
    case LocationRequired => "Location type is required"
    case TooManyFiles => "Maximum 10 files allowed"
    case InvalidFiles => "One or more files exceed size limit or have invalid type"
  }

  /** One reported rule failure: the offending path and a message. */
  datatype Issue = Issue(path: seq<PathKey>, message: Message)

  /** What `safeParse` returns. */
  datatype SafeParse<T> = Accepted(data: T) | Rejected(issues: seq<Issue>)

  /** The value `validateStep` is given: one step's draft, or `undefined`. */
  datatype StepInput =
    | Details(details: ProjectDetailsDraft)
    | Budget(budget: BudgetDraft)
    | Timeline(timeline: TimelineDraft)
    | Requirements(requirements: RequirementsDraft)
    | Attachments(attachments: AttachmentsDraft)
    | Undefined

  const ProjectTypeValues: seq<string> := ["fixed", "hourly"]
  const BudgetTypeValues: seq<string> := ["fixed", "hourly", "range"]
  const DurationUnitValues: seq<string> := ["days", "weeks", "months"]
  const ExperienceLevelValues: seq<string> := ["beginner", "intermediate", "expert"]
  const AvailabilityValues: seq<string> := ["full-time", "part-time", "flexible"]
  const LocationValues: seq<string> := ["remote", "onsite", "hybrid"]
  const MaxSkills := 10
  const MaxFiles := 10
  const DefaultMaxFileSize: real := 10.0
  const DefaultAllowedTypes: seq<string> := [".pdf", ".doc", ".docx", ".jpg", ".png"]

  // ---------------------------------------------------------------- rule helpers

  /** No issue when `ok`, otherwise one issue on `field`. */
  function Rule(ok: bool, field: PathKey, message: Message): seq<Issue> {
    if ok then [] else [Issue([field], message)]
  }

  /** A required string with a length range (`z.string().min(lo).max(hi)`), measured before trimming. */
  function LengthIssues(v: Option<string>, field: PathKey, lo: nat, loMessage: Message, hi: nat, hiMessage: Message): (r: seq<Issue>)
    ensures r == [] <==> v.Some? && lo <= |v.value| <= hi
  {
    match v
    case None => Rule(false, field, Required)
    case Some(s) => Rule(|s| >= lo, field, loMessage) + Rule(|s| <= hi, field, hiMessage)
  }

  /** A required non-empty string (`z.string().min(1, message)`). */
  function NonEmptyIssues(v: Option<string>, field: PathKey, message: Message): (r: seq<Issue>)
    ensures r == [] <==> v.Some? && v.value != []
  {
    match v
    case None => Rule(false, field, Required)
    case Some(s) => Rule(|s| >= 1, field, message)
  }

  /** A required enum (`z.enum(values, { required_error })`). */
  function EnumIssues(v: Option<string>, field: PathKey, values: seq<string>, requiredMessage: Message): (r: seq<Issue>)
    ensures r == [] <==> v.Some? && v.value in values
  {
    match v
    case None => Rule(false, field, requiredMessage)
    case Some(s) => Rule(s in values, field, InvalidEnumValue)
  }

  /** A required number in a closed range (`z.number().min(lo).max(hi)`). */
  function RangeIssues(v: Option<real>, field: PathKey, lo: real, loMessage: Message, hi: real, hiMessage: Message): (r: seq<Issue>)
    ensures r == [] <==> v.Some? && lo <= v.value <= hi
  {
    match v
    case None => Rule(false, field, Required)
    case Some(x) => Rule(x >= lo, field, loMessage) + Rule(x <= hi, field, hiMessage)
  }

  // ---------------------------------------------------------------- step 1: project details

  /** Every skill is non-empty once trimmed. */
  predicate AllNonBlank(skills: seq<string>) {
    forall i :: 0 <= i < |skills| ==> Trim(skills[i]) != []
  }

  /** The `skills` rule of step 1: between 1 and 10 entries, none blank. */
  predicate SkillsValid(skills: seq<string>) {
    1 <= |skills| <= MaxSkills && AllNonBlank(skills)
  }

  predicate DetailsValid(d: ProjectDetailsDraft) {
    && d.jobTitle.Some? && 1 <= |d.jobTitle.value| <= 100
    && d.jobDescription.Some? && 10 <= |d.jobDescription.value| <= 1000
    && d.category.Some? && d.category.value != []
    && d.projectType.Some? && d.projectType.value in ProjectTypeValues
    && d.skills.Some? && SkillsValid(d.skills.value)
  }

  function SkillsIssues(v: Option<seq<string>>): (r: seq<Issue>)
    ensures r == [] <==> v.Some? && SkillsValid(v.value)
  {
    match v
    case None => Rule(false, Skills, Required)
    case Some(s) =>
      Rule(|s| >= 1, Skills, SkillsRequired)
      + Rule(|s| <= MaxSkills, Skills, TooManySkills)
      + Rule(AllNonBlank(s), Skills, BlankSkill)
  }

  function DetailsIssues(d: ProjectDetailsDraft): (r: seq<Issue>)
    ensures r == [] <==> DetailsValid(d)
  {
    LengthIssues(d.jobTitle, JobTitle, 1, TitleRequired,
      100, TitleTooLong)
    + LengthIssues(d.jobDescription, JobDescription, 10, DescriptionTooShort,
      1000, DescriptionTooLong)
    + NonEmptyIssues(d.category, Category, CategoryRequired)
    + EnumIssues(d.projectType, ProjectType, ProjectTypeValues, ProjectTypeRequired)
    + SkillsIssues(d.skills)
  }

  /** The value step 1 parses to: title and description trimmed (`.trim()` runs after the length checks). */
  function ParsedDetails(d: ProjectDetailsDraft): (p: ProjectDetailsDraft)
    requires DetailsValid(d)
    ensures p.jobTitle == Some(Trim(d.jobTitle.value)) && p.jobDescription == Some(Trim(d.jobDescription.value))
    ensures p.category == d.category && p.projectType == d.projectType && p.skills == d.skills
  {
    d.(jobTitle := Some(Trim(d.jobTitle.value)), jobDescription := Some(Trim(d.jobDescription.value)))
  }

  // ---------------------------------------------------------------- step 2: budget

  /** The cross-field refinement: fixed and hourly need a positive amount, range needs 0 < min < max. */
  predicate BudgetConfigurationValid(d: BudgetDraft) {
    if d.budgetType == Some("fixed") then d.amount.Some? && d.amount.value > 0.0
    else if d.budgetType == Some("range") then
      && d.minAmount.Some? && d.maxAmount.Some?
      && d.minAmount.value > 0.0 && d.maxAmount.value > d.minAmount.value
    else if d.budgetType == Some("hourly") then d.amount.Some? && d.amount.value > 0.0
    else true
  }

  predicate BudgetValid(d: BudgetDraft) {
    && d.budgetType.Some? && d.budgetType.value in BudgetTypeValues
    && d.currency.Some? && d.currency.value != []
    && BudgetConfigurationValid(d)
  }

  function BudgetIssues(d: BudgetDraft): (r: seq<Issue>)
    ensures r == [] <==> BudgetValid(d)
  {
    EnumIssues(d.budgetType, BudgetType, BudgetTypeValues, BudgetTypeRequired)
    + NonEmptyIssues(d.currency, Currency, CurrencyRequired)
    + (if BudgetConfigurationValid(d) then [] else [Issue([], InvalidBudget)])
  }

  // ---------------------------------------------------------------- step 3: timeline

  /**
   * `schemaBuiltAt` is the instant `new Date()` was evaluated when the schema was built;
   * a deadline equal to it is still accepted (only an earlier one is rejected).
   */
  predicate TimelineValid(d: TimelineDraft, schemaBuiltAt: int) {
    && d.deadline.Some? && d.deadline.value >= schemaBuiltAt
    && d.estimatedDuration.Some? && 1.0 <= d.estimatedDuration.value <= 365.0
    && d.durationUnit.Some? && d.durationUnit.value in DurationUnitValues
  }

  function TimelineIssues(d: TimelineDraft, schemaBuiltAt: int): (r: seq<Issue>)
    ensures r == [] <==> TimelineValid(d, schemaBuiltAt)
  {
    (match d.deadline
     case None => Rule(false, Deadline, Required)
     case Some(t) => Rule(t >= schemaBuiltAt, Deadline, DeadlineInPast))
    + RangeIssues(d.estimatedDuration, EstimatedDuration, 1.0, DurationTooShort,
      365.0, DurationTooLong)
    + EnumIssues(d.durationUnit, DurationUnit, DurationUnitValues, DurationUnitRequired)
  }

  /** The value step 3 parses to: an absent `isUrgent` becomes false. */
  function ParsedTimeline(d: TimelineDraft): (p: TimelineDraft)
    ensures p.isUrgent.Some? && (d.isUrgent.None? ==> !p.isUrgent.value)
    ensures d.isUrgent.Some? ==> p.isUrgent == d.isUrgent
    ensures p.deadline == d.deadline && p.estimatedDuration == d.estimatedDuration && p.durationUnit == d.durationUnit
  {
    d.(isUrgent := Some(d.isUrgent.GetOr(false)))
  }

  // ---------------------------------------------------------------- step 4: requirements

  predicate RequirementsValid(d: RequirementsDraft) {
    && d.experienceLevel.Some? && d.experienceLevel.value in ExperienceLevelValues
    && d.availability.Some? && d.availability.value in AvailabilityValues
    && d.location.Some? && d.location.value in LocationValues
  }

  function RequirementsIssues(d: RequirementsDraft): (r: seq<Issue>)
    ensures r == [] <==> RequirementsValid(d)
  {
    EnumIssues(d.experienceLevel, ExperienceLevel, ExperienceLevelValues, ExperienceLevelRequired)
    + EnumIssues(d.availability, Availability, AvailabilityValues, AvailabilityRequired)
    + EnumIssues(d.location, Location, LocationValues, LocationRequired)
  }

  // ---------------------------------------------------------------- step 5: attachments

  /** One file passes the refinement: small enough, and its lower-cased name ends in some allowed type. */
  predicate FileAccepted(f: Attachment, maxFileSize: real, allowedTypes: seq<string>) {
    && f.size as real <= maxFileSize * 1024.0 * 1024.0
    && exists t :: t in allowedTypes && EndsWith(ToLower(f.name), ToLower(t))
  }

  /** The refinement of step 5, over the defaulted size limit and type list. */
  predicate AttachmentsConfigurationValid(d: AttachmentsDraft) {
    d.files.None? ||
    forall i :: 0 <= i < |d.files.value| ==>
      FileAccepted(d.files.value[i], d.maxFileSize.GetOr(DefaultMaxFileSize), d.allowedTypes.GetOr(DefaultAllowedTypes))
  }

  predicate AttachmentsValid(d: AttachmentsDraft) {
    && (d.files.None? || |d.files.value| <= MaxFiles)
    && AttachmentsConfigurationValid(d)
  }

  function AttachmentsIssues(d: AttachmentsDraft): (r: seq<Issue>)
    ensures r == [] <==> AttachmentsValid(d)
  {
    Rule(d.files.None? || |d.files.value| <= MaxFiles, Files, TooManyFiles)
    + (if AttachmentsConfigurationValid(d) then []
       else [Issue([], InvalidFiles)])
  }

  /** The value step 5 parses to: the size limit and the type list take their defaults when absent. */
  function ParsedAttachments(d: AttachmentsDraft): (p: AttachmentsDraft)
    ensures p.files == d.files
    ensures p.maxFileSize == Some(if d.maxFileSize.Some? then d.maxFileSize.value else 10.0)
    ensures p.allowedTypes == Some(if d.allowedTypes.Some? then d.allowedTypes.value else [".pdf", ".doc", ".docx", ".jpg", ".png"])
  {
    d.(maxFileSize := Some(d.maxFileSize.GetOr(DefaultMaxFileSize)),
       allowedTypes := Some(d.allowedTypes.GetOr(DefaultAllowedTypes)))
  }

  // ---------------------------------------------------------------- validateStep

  /*
   * A zod object schema reads only its own keys, and no two steps share a key, so the
   * schema of step n sees the draft of another step as the empty draft of step n.
   */
  function AsDetails(input: StepInput): ProjectDetailsDraft {
    if input.Details? then input.details else EmptyDetails
  }
  function AsBudget(input: StepInput): BudgetDraft {
    if input.Budget? then input.budget else EmptyBudget
  }
  function AsTimeline(input: StepInput): TimelineDraft {
    if input.Timeline? then input.timeline else EmptyTimeline
  }
  function AsRequirements(input: StepInput): RequirementsDraft {
    if input.Requirements? then input.requirements else EmptyRequirements
  }
  function AsAttachments(input: StepInput): AttachmentsDraft {
    if input.Attachments? then input.attachments else EmptyAttachments
  }

  /** Whether the schema of `step` (1..5) accepts `input`. */
  predicate StepAccepts(step: int, input: StepInput, schemaBuiltAt: int) {
    && !input.Undefined?
    && match step
       case 1 => DetailsValid(AsDetails(input))
       case 2 => BudgetValid(AsBudget(input))
       case 3 => TimelineValid(AsTimeline(input), schemaBuiltAt)
       case 4 => RequirementsValid(AsRequirements(input))
       case 5 => AttachmentsValid(AsAttachments(input))
       case _ => false
  }

  /** `stepSchemas[step].safeParse(input)` for a step number in 1..5. */
  function ParseStep(step: int, input: StepInput, schemaBuiltAt: int): (r: SafeParse<StepInput>)
    requires 1 <= step <= 5
    ensures r.Accepted? <==> StepAccepts(step, input, schemaBuiltAt)
    ensures r.Rejected? ==> r.issues != []
  {
    if input.Undefined? then Rejected([Issue([], Required)])
    else
      match step
      case 1 =>
        var d := AsDetails(input);
        if DetailsIssues(d) == [] then Accepted(Details(ParsedDetails(d))) else Rejected(DetailsIssues(d))
      case 2 =>
        var d := AsBudget(input);
        if BudgetIssues(d) == [] then Accepted(Budget(d)) else Rejected(BudgetIssues(d))
      case 3 =>
        var d := AsTimeline(input);
        if TimelineIssues(d, schemaBuiltAt) == [] then Accepted(Timeline(ParsedTimeline(d)))
        else Rejected(TimelineIssues(d, schemaBuiltAt))
      case 4 =>
        var d := AsRequirements(input);
        if RequirementsIssues(d) == [] then Accepted(Requirements(d)) else Rejected(RequirementsIssues(d))
      case 5 =>
        var d := AsAttachments(input);
        if AttachmentsIssues(d) == [] then Accepted(Attachments(ParsedAttachments(d)))
        else Rejected(AttachmentsIssues(d))
  }

  /** `validateStep(step, data)`: throws for a step number outside 1..5, otherwise parses. */
  function ValidateStep(step: int, input: StepInput, schemaBuiltAt: int): (r: Result<SafeParse<StepInput>, WizardError>)
    ensures r.Failure? <==> !(1 <= step <= 5)
    ensures r.Failure? ==> r.error == InvalidStepNumber(step)
    ensures r.Success? ==> (r.value.Accepted? <==> StepAccepts(step, input, schemaBuiltAt))
    ensures r.Success? && r.value.Rejected? ==> r.value.issues != []
  {
    if 1 <= step <= 5 then Success(ParseStep(step, input, schemaBuiltAt))
    else Failure(InvalidStepNumber(step))
  }

  // ---------------------------------------------------------------- validateFullForm

  /** The object `createProjectSchema` is given; `step5` may be absent. */
  datatype FormInput = FormInput(
    step1: ProjectDetailsDraft,
    step2: BudgetDraft,
    step3: TimelineDraft,
    step4: RequirementsDraft,
    step5: Option<AttachmentsDraft>)

  predicate FormAccepts(f: FormInput, schemaBuiltAt: int) {
    && DetailsValid(f.step1)
    && BudgetValid(f.step2)
    && TimelineValid(f.step3, schemaBuiltAt)
    && RequirementsValid(f.step4)
    && (f.step5.None? || AttachmentsValid(f.step5.value))
  }

  /** Issues of a nested schema, with their paths placed under `key`. */
  function Prefixed(key: PathKey, issues: seq<Issue>): (r: seq<Issue>)
    ensures |r| == |issues|
    ensures forall i :: 0 <= i < |r| ==> r[i].path == [key] + issues[i].path && r[i].message == issues[i].message
  {
    seq(|issues|, i requires 0 <= i < |issues| => Issue([key] + issues[i].path, issues[i].message))
  }

  function FormIssues(f: FormInput, schemaBuiltAt: int): (r: seq<Issue>)
    ensures r == [] <==> FormAccepts(f, schemaBuiltAt)
  {
    Prefixed(FormStep1, DetailsIssues(f.step1))
    + Prefixed(FormStep2, BudgetIssues(f.step2))
    + Prefixed(FormStep3, TimelineIssues(f.step3, schemaBuiltAt))
    + Prefixed(FormStep4, RequirementsIssues(f.step4))
    + (if f.step5.None? then [] else Prefixed(FormStep5, AttachmentsIssues(f.step5.value)))
  }

  /** `validateFullForm(data)`: `createProjectSchema.safeParse(data)`. */
  function ValidateFullForm(f: FormInput, schemaBuiltAt: int): (r: SafeParse<FormInput>)
    ensures r.Accepted? <==> FormAccepts(f, schemaBuiltAt)
    ensures r.Rejected? ==> r.issues != []
    ensures r.Accepted? ==> r.data.step2 == f.step2 && r.data.step4 == f.step4
    ensures r.Accepted? ==> r.data.step3.isUrgent.Some? && r.data.step5.Some? == f.step5.Some?
    ensures r.Accepted? ==>
      && r.data.step1 == ParsedDetails(f.step1)
      && r.data.step3 == ParsedTimeline(f.step3)
      && r.data.step5 == (if f.step5.None? then None else Some(ParsedAttachments(f.step5.value)))
  {
    if FormIssues(f, schemaBuiltAt) == [] then
      Accepted(FormInput(
        ParsedDetails(f.step1), f.step2, ParsedTimeline(f.step3), f.step4,
        if f.step5.None? then None else Some(ParsedAttachments(f.step5.value))))
    else Rejected(FormIssues(f, schemaBuiltAt))
  }

  // ---------------------------------------------------------------- properties

  /** The whole form is accepted exactly when `validateStep` accepts each step's draft (step 5 only if present). */
  lemma FullFormIsEveryStep(f: FormInput, t: int)
    ensures ValidateFullForm(f, t).Accepted? <==>
      && ValidateStep(1, Details(f.step1), t).value.Accepted?
      && ValidateStep(2, Budget(f.step2), t).value.Accepted?
      && ValidateStep(3, Timeline(f.step3), t).value.Accepted?
      && ValidateStep(4, Requirements(f.step4), t).value.Accepted?
      && (f.step5.None? || ValidateStep(5, Attachments(f.step5.value), t).value.Accepted?)
  {
    assert StepAccepts(1, Details(f.step1), t) == DetailsValid(f.step1);
    assert StepAccepts(2, Budget(f.step2), t) == BudgetValid(f.step2);
    assert StepAccepts(3, Timeline(f.step3), t) == TimelineValid(f.step3, t);
    assert StepAccepts(4, Requirements(f.step4), t) == RequirementsValid(f.step4);
    if f.step5.Some? {
      assert StepAccepts(5, Attachments(f.step5.value), t) == AttachmentsValid(f.step5.value);
    }
  }

  /** A range budget is accepted only with 0 < minAmount < maxAmount; min 100 with max 50 is rejected. */
  lemma RangeBudgetNeedsOrderedBounds(d: BudgetDraft)
    requires d.budgetType == Some("range")
    ensures BudgetValid(d) <==>
      && d.currency.Some? && d.currency.value != []
      && d.minAmount.Some? && d.maxAmount.Some? && 0.0 < d.minAmount.value < d.maxAmount.value
    ensures d.minAmount == Some(100.0) && d.maxAmount == Some(50.0) ==>
      BudgetIssues(d)[|BudgetIssues(d)| - 1] == Issue([], InvalidBudget)
  {
  }

  /** A fixed or hourly budget is accepted only with a positive amount. */
  lemma AmountBudgetNeedsPositiveAmount(d: BudgetDraft)
    requires d.budgetType == Some("fixed") || d.budgetType == Some("hourly")
    ensures BudgetValid(d) <==> d.currency.Some? && d.currency.value != [] && d.amount.Some? && d.amount.value > 0.0
  {
  }

  /** Step 5 accepts any draft without a file list, whatever its size limit and types. */
  lemma NoFilesAccepted(d: AttachmentsDraft)
    requires d.files.None?
    ensures ValidateStep(5, Attachments(d), 0).value.Accepted?
  {
  }

  /** An empty list of allowed types rejects every non-empty file list. */
  lemma NoAllowedTypesRejectsFiles(d: AttachmentsDraft)
    requires d.allowedTypes == Some([]) && d.files.Some? && d.files.value != []
    ensures !AttachmentsValid(d)
  {
    assert !FileAccepted(d.files.value[0], d.maxFileSize.GetOr(DefaultMaxFileSize), []);
  }

  /**
   * The draft of another step (keys never overlap) fails steps 1 to 4, which have required
   * fields, and passes step 5, whose fields are all optional.
   */
  lemma ForeignDraft(step: int, input: StepInput, t: int)
    requires 1 <= step <= 5 && !input.Undefined?
    requires step == 1 ==> !input.Details?
    requires step == 2 ==> !input.Budget?
    requires step == 3 ==> !input.Timeline?
    requires step == 4 ==> !input.Requirements?
    requires step == 5 ==> !input.Attachments?
    ensures ValidateStep(step, input, t).value.Accepted? <==> step == 5
  {
  }
}
