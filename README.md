# Create-project wizard: store, step schemas and skill list

A Dafny model of the logic behind the "create project" wizard of offer-hub:

- **the session store** (`ProjectStore.Wizard`): one mutable record holding the five step
  drafts (`formData`), the step index (`currentStep`), the error list (`errors`) and the
  in-flight flag (`isSubmitting`), with the actions that merge step data, validate,
  navigate, reset and submit;
- **the step schemas** (`ProjectSchema`): the five zod schemas and their two refinements as
  predicates, each with an issue list that is empty exactly when the predicate holds, the
  value `safeParse` returns (trimmed strings, defaults), `validateStep` (which throws for a
  step number outside 1..5) and `validateFullForm`;
- **the skill list** (`SkillsSelector`): adding a trimmed, new, non-blank skill while fewer than
  ten are chosen, removing a skill, and the suggestion list (case-insensitive substring match
  against the popular-skills catalogue, skills already chosen left out, at most eight).

Supporting modules: `Wrappers` (Option, Result), `Text` (JavaScript `trim`, `toLowerCase`,
`includes`, `endsWith`, `join('.')`), `Sequences` (order-preserving selection) and
`ProjectTypes` (the records of `create-project-types.ts`).

Modelling decisions:

- The network call inside `submitProjectToAPI` is a parameter (`FetchOutcome`): an HTTP
  response (ok or not, with a project id) or a thrown error. `submitProjectToAPI` catches
  every error (create-project-store.ts:37-43) and `submitProject` clears the flag when the
  response reports an error (create-project-store.ts:228-230), so `isSubmitting` is false on
  every exit.
- `submitProject` is one atomic step; nothing else runs while it awaits.
- The instant captured by `new Date()` when the timeline schema is built is the store's
  constant `schemaBuiltAt`. A deadline equal to that instant is accepted, because `date().min`
  rejects only earlier instants.
- zod runs string checks in the order written, so the title and description lengths are
  measured on the string as entered and `.trim()` only shapes the parsed value.
- Enum fields hold strings, since the validators receive untyped data; membership is checked.
- Numbers are `real`; dates are millisecond timestamps; a `File` is its name and size.
- A zod object schema reads only its own keys and no two steps share a key, so
  `validateStep(n, d)` with the draft of another step sees an empty draft: steps 1 to 4
  reject it and step 5 accepts it (`ProjectSchema.ForeignDraft`).
- Actions that can throw return `Result<_, WizardError>`: `validateStep` with a step outside
  1..5 (reachable through `setCurrentStep`), the failed whole-form validation, and the
  endpoint's "error" status.

## Model

| member | source | states |
|---|---|---|
| `ProjectStore.Wizard.constructor` | src/lib/stores/create-project-store.ts:50-59 | the store starts with five empty drafts, step 1, no errors, not submitting |
| `ProjectStore.Wizard.UpdateStep1Data` | src/lib/stores/create-project-store.ts:62-70 | only step 1's draft changes, by shallow merge of the patch; step-1 errors are removed and no other error, the step index or the flag changes |
| `ProjectStore.Wizard.UpdateStep2Data` | src/lib/stores/create-project-store.ts:72-80 | the same for step 2 |
| `ProjectStore.Wizard.UpdateStep3Data` | src/lib/stores/create-project-store.ts:82-90 | the same for step 3 |
| `ProjectStore.Wizard.UpdateStep4Data` | src/lib/stores/create-project-store.ts:92-100 | the same for step 4 |
| `ProjectStore.Wizard.UpdateStep5Data` | src/lib/stores/create-project-store.ts:102-110 | the same for step 5 |
| `ProjectStore.Override` | src/lib/stores/create-project-store.ts:64-66 | one key of `{ ...current, ...patch }`: the patch's value when the key is present in it, the current value otherwise |
| `ProjectStore.MergeDetails` | src/lib/stores/create-project-store.ts:62-67 | `{ ...step1, ...data }`: every key of the step-1 draft is overridden by the patch where present |
| `ProjectStore.MergeBudget` | src/lib/stores/create-project-store.ts:72-77 | the same spread for the step-2 draft |
| `ProjectStore.MergeTimeline` | src/lib/stores/create-project-store.ts:82-87 | the same spread for the step-3 draft |
| `ProjectStore.MergeRequirements` | src/lib/stores/create-project-store.ts:92-97 | the same spread for the step-4 draft |
| `ProjectStore.MergeAttachments` | src/lib/stores/create-project-store.ts:102-107 | the same spread for the step-5 draft |
| `ProjectStore.MergeLaws` | src/lib/stores/create-project-store.ts:62-110 | for each of the five spread merges: an empty patch changes nothing, re-applying a patch changes nothing, and two merges equal one merge of the combined patch |
| `ProjectStore.WithoutStep` | src/lib/stores/create-project-store.ts:68 | the filtered list holds exactly the errors not tagged with the step, in their original order |
| `ProjectStore.WithoutStepKeepsOtherSteps` | src/lib/stores/create-project-store.ts:62-110 | after dropping one step's errors none of that step remains and every other step's errors are unchanged, in order |
| `ProjectStore.ErrorsOfStep` | src/lib/stores/create-project-store.ts:242 | the filtered list holds exactly the errors tagged with the step, in their original order |
| `ProjectStore.ErrorsPartition` | src/lib/stores/create-project-store.ts:240-243 | the errors of a step and the errors of all other steps together are the whole list, with multiplicities |
| `ProjectStore.Wizard.SetCurrentStep` | src/lib/stores/create-project-store.ts:113-115 | sets the step without a bounds check; the 1..5 invariant holds afterwards exactly when the argument is in range |
| `ProjectStore.Wizard.SetErrors` | src/lib/stores/create-project-store.ts:118-120 | replaces the error list |
| `ProjectStore.Wizard.ClearErrors` | src/lib/stores/create-project-store.ts:122-124 | empties the error list |
| `ProjectStore.Wizard.ResetForm` | src/lib/stores/create-project-store.ts:127-140 | from any state, the initial state (so a second reset changes nothing) |
| `ProjectStore.Wizard.StepData` | src/lib/stores/create-project-store.ts:145 | the lookup of `step${n}` yields, for each of 1..5, that step's draft (details, budget, timeline, requirements, attachments) and `undefined` otherwise |
| `ProjectStore.Tagged` | src/lib/stores/create-project-store.ts:150-154 | one error per violation, its path keys joined by dots, the violation's message text, tagged with the given step |
| `ProjectStore.TaggedAreOfStep` | src/lib/stores/create-project-store.ts:150-156 | violations tagged with a step are exactly that step's errors |
| `ProjectStore.Wizard.ValidateCurrentStep` | src/lib/stores/create-project-store.ts:143-165 | throws outside 1..5; returns the step's validity; on failure the whole list becomes the step's non-empty violations tagged with it; on success only that step's errors go; drafts and step index untouched |
| `ProjectStore.Wizard.NextStep` | src/lib/stores/create-project-store.ts:168-177 | throws with errors and step kept outside 1..5; on an invalid step returns false, keeps the step and replaces the errors by the step's non-empty tagged violations; on a valid step removes that step's errors and moves forward by one exactly when below 5, returning whether it moved |
| `ProjectStore.Wizard.PreviousStep` | src/lib/stores/create-project-store.ts:180-187 | moves back by one iff the step is above 1, keeping the step in 1..5 |
| `ProjectStore.Wizard.GoToStep` | src/lib/stores/create-project-store.ts:190-196 | jumps iff the target is in 1..5, otherwise a no-op returning false |
| `ProjectStore.SubmitProjectToApi` | src/lib/stores/create-project-store.ts:16-44 | never throws: published with the server's id iff the response is ok, otherwise status error with an empty id; the message is "Project created successfully" when published, "Failed to submit project" for a non-ok response, the thrown error's message, or "Unknown error occurred" when something other than an `Error` was thrown |
| `ProjectStore.FailureMessage` | src/lib/stores/create-project-store.ts:221 | the endpoint's message when non-empty, otherwise exactly "Failed to submit project"; never empty |
| `ProjectStore.Wizard.SubmitProject` | src/lib/stores/create-project-store.ts:199-232 | an invalid form sets untagged non-empty errors and throws with drafts and step kept; a published response resets to the initial state; an error response throws and changes nothing else; the flag is false on every exit |
| `ProjectStore.Wizard.Send` | src/lib/stores/create-project-store.ts:214-231 | after validation passed: succeeds iff the response is ok; a published response resets to the initial state, an error response throws the endpoint's message (or the fallback) and changes nothing else; the flag is false afterwards |
| `ProjectStore.Wizard.GetCurrentStepData` | src/lib/stores/create-project-store.ts:235-238 | for each current step 1..5, that step's draft in `formData`; `undefined` exactly when the step is outside 1..5 |
| `ProjectStore.Wizard.GetStepErrors` | src/lib/stores/create-project-store.ts:240-243 | exactly the errors tagged with the step, in list order; reads only |
| `ProjectStore.Wizard.IsStepValid` | src/lib/stores/create-project-store.ts:245-250 | throws outside 1..5, otherwise whether that step's schema accepts its draft; reads only |
| `ProjectStore.Wizard.CanProceedToNext` | src/lib/stores/create-project-store.ts:252-255 | whether the current step's draft is accepted, defined exactly while the step is in 1..5 |
| `ProjectStore.Wizard.GetProgressPercentage` | src/lib/stores/create-project-store.ts:257-260 | 20 times the step, between 20 and 100 for steps 1..5 |
| `ProjectSchema.LengthIssues` | src/lib/schemas/create-project-schema.ts:5-14 | a required string with a length range: no issue iff present and within the bounds |
| `ProjectSchema.NonEmptyIssues` | src/lib/schemas/create-project-schema.ts:15-17 | a required string with `min(1)`: no issue iff present and non-empty |
| `ProjectSchema.EnumIssues` | src/lib/schemas/create-project-schema.ts:18-20 | a required enum: no issue iff present and one of the allowed values |
| `ProjectSchema.RangeIssues` | src/lib/schemas/create-project-schema.ts:62-65 | a required number with a range: no issue iff present and within it |
| `ProjectSchema.SkillsIssues` | src/lib/schemas/create-project-schema.ts:21-27 | no issue iff the skills are present, 1 to 10 of them, none blank after trimming |
| `ProjectSchema.DetailsValid` | src/lib/schemas/create-project-schema.ts:4-28 | step 1 accepts: title of 1 to 100 characters, description of 10 to 1000, non-empty category, type fixed or hourly, valid skills |
| `ProjectSchema.DetailsIssues` | src/lib/schemas/create-project-schema.ts:4-28 | step 1: no issue iff title 1-100, description 10-1000, category non-empty, type fixed or hourly, skills valid |
| `ProjectSchema.ParsedDetails` | src/lib/schemas/create-project-schema.ts:5-14 | the parsed title and description are the trimmed input, other fields as given |
| `ProjectSchema.BudgetConfigurationValid` | src/lib/schemas/create-project-schema.ts:41-55 | the budget refinement: fixed and hourly need a present positive amount, range needs present bounds with 0 < min < max, any other type passes |
| `ProjectSchema.BudgetValid` | src/lib/schemas/create-project-schema.ts:31-55 | step 2 accepts: budget type fixed, hourly or range, non-empty currency, and the refinement holds |
| `ProjectSchema.BudgetIssues` | src/lib/schemas/create-project-schema.ts:31-55 | step 2: no issue iff the type is fixed, hourly or range, the currency is non-empty and the refinement holds |
| `ProjectSchema.RangeBudgetNeedsOrderedBounds` | src/lib/schemas/create-project-schema.ts:45-47 | a range budget is valid iff currency set and 0 < min < max; min 100 with max 50 yields the refinement violation |
| `ProjectSchema.AmountBudgetNeedsPositiveAmount` | src/lib/schemas/create-project-schema.ts:41-51 | a fixed or hourly budget is valid iff currency set and the amount is positive |
| `ProjectSchema.TimelineValid` | src/lib/schemas/create-project-schema.ts:58-70 | step 3 accepts: deadline not before the schema's instant, duration in 1..365, unit days, weeks or months |
| `ProjectSchema.TimelineIssues` | src/lib/schemas/create-project-schema.ts:58-70 | step 3: no issue iff the deadline is not before the schema's instant, the duration is in 1..365 and the unit is days, weeks or months |
| `ProjectSchema.ParsedTimeline` | src/lib/schemas/create-project-schema.ts:69 | an absent urgency flag parses to false, a present one is kept |
| `ProjectSchema.RequirementsValid` | src/lib/schemas/create-project-schema.ts:73-84 | step 4 accepts: experience level, availability and location each in their enum |
| `ProjectSchema.RequirementsIssues` | src/lib/schemas/create-project-schema.ts:73-84 | step 4: no issue iff experience level, availability and location are each in their enum; the timezone is free |
| `ProjectSchema.FileAccepted` | src/lib/schemas/create-project-schema.ts:97-104 | one file passes: size at most the limit times 1024·1024 bytes, and its lower-cased name ends with some lower-cased allowed type |
| `ProjectSchema.AttachmentsConfigurationValid` | src/lib/schemas/create-project-schema.ts:94-108 | the attachments refinement: no file list, or every file passes under the defaulted limit and type list |
| `ProjectSchema.AttachmentsValid` | src/lib/schemas/create-project-schema.ts:87-108 | step 5 accepts: no file list or at most 10 files, and the refinement holds |
| `ProjectSchema.AttachmentsIssues` | src/lib/schemas/create-project-schema.ts:87-108 | step 5: no issue iff no file list, or at most 10 files each within the size limit with a name ending in an allowed type, case-insensitively |
| `ProjectSchema.ParsedAttachments` | src/lib/schemas/create-project-schema.ts:92-93 | the size limit defaults to 10 MB and the types to .pdf, .doc, .docx, .jpg, .png |
| `ProjectSchema.NoFilesAccepted` | src/lib/schemas/create-project-schema.ts:95 | a draft without a file list passes step 5 |
| `ProjectSchema.NoAllowedTypesRejectsFiles` | src/lib/schemas/create-project-schema.ts:99-105 | an empty list of allowed types rejects any non-empty file list |
| `ProjectSchema.StepAccepts` | src/lib/schemas/create-project-schema.ts:120-126 | the schema of step 1..5 accepts the input, which is read as that step's draft (another step's draft reads as empty); nothing is accepted for another step number or `undefined` |
| `ProjectSchema.ParseStep` | src/lib/schemas/create-project-schema.ts:120-126 | the step's schema accepts iff the step predicate holds of the input; a rejection carries at least one issue |
| `ProjectSchema.ValidateStep` | src/lib/schemas/create-project-schema.ts:137-143 | fails with the invalid-step error iff the step is outside 1..5, otherwise accepts iff that step's schema accepts |
| `ProjectSchema.ForeignDraft` | src/lib/schemas/create-project-schema.ts:120-126 | the draft of another step is rejected by steps 1 to 4 and accepted by step 5 |
| `ProjectSchema.FormAccepts` | src/lib/schemas/create-project-schema.ts:111-117 | the whole-form schema accepts: steps 1 to 4 valid, step 5 absent or valid |
| `ProjectSchema.Prefixed` | src/lib/schemas/create-project-schema.ts:111-117 | nested violations keep their messages and gain the step key in front of their path |
| `ProjectSchema.FormIssues` | src/lib/schemas/create-project-schema.ts:111-117 | no issue iff steps 1 to 4 are valid and step 5 is absent or valid |
| `ProjectSchema.ValidateFullForm` | src/lib/schemas/create-project-schema.ts:146-148 | accepts iff the whole form is valid, rejects with at least one issue otherwise; the parsed form has the trimmed step 1 (`ParsedDetails`), the same budget and requirements, step 3 with `isUrgent` defaulted to false (`ParsedTimeline`), and step 5 absent or with its size limit and type list defaulted (`ParsedAttachments`) |
| `ProjectSchema.FullFormIsEveryStep` | src/lib/schemas/create-project-schema.ts:111-117 | the full form is accepted iff `validateStep` accepts each of steps 1-4 and step 5 is absent or accepted |
| `Text.Trim` | src/components/create-project/skills-selector.tsx:80 | no longer than the input, neither end of the result is whitespace, and it is empty exactly when the input is all whitespace |
| `Text.TrimCutsWhitespace` | src/components/create-project/skills-selector.tsx:80 | the trimmed string is a contiguous part of the input, and every character of the input before or after it is whitespace |
| `Text.TrimIdempotent` | src/components/create-project/skills-selector.tsx:80 | trimming a trimmed string changes nothing |
| `Text.ToLower` | src/components/create-project/skills-selector.tsx:51 | same length, every character lower-cased, no capital letter left |
| `Text.ContainsAt` | src/components/create-project/skills-selector.tsx:51 | `includes` holds iff the query occurs at some offset |
| `Text.JoinPath` | src/lib/stores/create-project-store.ts:151 | an empty path joins to the empty string, a one-element path to its element |
| `Text.JoinPathAppend` | src/lib/stores/create-project-store.ts:151 | joining two non-empty paths one after the other is their joins with one dot between, so an n-element path joins its elements with n - 1 dots |
| `SkillsSelector.AddSkill` | src/components/create-project/skills-selector.tsx:79-85 | appends exactly the trimmed input iff it is non-blank, not yet present and fewer than 10 are chosen; a list of at most 10 never grows past 10 |
| `SkillsSelector.AddKeepsLimits` | src/components/create-project/skills-selector.tsx:79-85 | adding keeps a list within ten distinct non-blank skills |
| `SkillsSelector.RemoveSkill` | src/components/create-project/skills-selector.tsx:87-89 | every occurrence of the value goes, every other entry stays with its multiplicity and order |
| `SkillsSelector.RemoveKeepsDistinct` | src/components/create-project/skills-selector.tsx:87-89 | removing from a duplicate-free list leaves it duplicate-free |
| `SkillsSelector.RemoveKeepsLimits` | src/components/create-project/skills-selector.tsx:87-89 | removing keeps a list within ten distinct non-blank skills |
| `SkillsSelector.MatchingSkills` | src/components/create-project/skills-selector.tsx:50-53 | exactly the catalogue entries whose name contains the query ignoring case and is not chosen yet, in catalogue order, each as many times as it occurs in the catalogue |
| `SkillsSelector.TopMatches` | src/components/create-project/skills-selector.tsx:48-60 | for any catalogue: none for a blank query; otherwise exactly the first min(8, number of matches) matching unchosen entries, a prefix of the catalogue-order match list, so every match when there are fewer than 8 |
| `SkillsSelector.Suggestions` | src/components/create-project/skills-selector.tsx:48-60 | over the 20-entry popular-skills catalogue: none for a blank query; otherwise the first min(8, number of matches) matching unchosen skills in catalogue order, every match when fewer than 8 |
| `SkillsSelector.EditsKeepLimits` | src/components/create-project/skills-selector.tsx:79-89 | any sequence of adds and removes keeps a list within ten distinct non-blank skills |
| `SkillsSelector.EditedListsSatisfySchema` | src/components/create-project/skills-selector.tsx:79-89 | a list built from nothing by adds and removes never breaks step 1's "at most 10" and "non-blank" rules, and meets its skills rule once non-empty |

## Left out

- The `persist` middleware and `partialize` (only `formData` and `currentStep` are stored): storage plumbing.
- The `fetch` call itself: network I/O, represented by the `FetchOutcome` parameter; a response whose body fails to parse counts as a thrown error.
- Actions invoked while `submitProject` awaits the endpoint: asynchronous interleaving; submission is atomic here.
- ProjectSchema.DetailsIssues: the issue lists report every failing rule in schema order; zod's exact issue contents, enum messages and its rule for skipping a refinement after a field error are not modelled, only that the list is empty exactly when the step is valid.
- ProjectSchema.BudgetIssues: when `currency` is absent, zod's object parse aborts and the refinement is skipped, so zod reports no "Invalid budget configuration" issue; the model still appends it whenever the refinement fails. (An absent or unknown `budgetType` already makes the model's refinement pass.) Only the issue list differs; acceptance is the same.
- Text.Trim: its own contract states the ends, the length and blankness; that the result is the input with whitespace cut from both ends is the separate lemma `Text.TrimCutsWhitespace`, kept out of the contract because every rule that trims would otherwise carry it.
- ProjectSchema.LengthIssues: lengths count Unicode characters, not JavaScript's UTF-16 code units.
- Text.ToLower: lower-cases ASCII letters only; JavaScript's full Unicode case mapping is not modelled.
- ProjectSchema.ValidateStep: the thrown message `Invalid step number: n` is kept as the step number itself.
- Values of the wrong JavaScript type in a draft (the validators take `any`) and an explicit `undefined` inside a patch: the drafts are typed and an absent key is the only absence.
- NaN, infinities and rounding of JavaScript numbers, and non-integer step numbers.
- `CreateProjectResponse.errors` and the "draft" status: the endpoint wrapper never produces them.
- The React component state of the skills selector (search text, suggestion visibility), the click-outside listener, key handling and all rendering and routing.
