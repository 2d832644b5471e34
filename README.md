# Astute ai business intake form — a Dafny model

The repository is a Next.js site. Its one page is a two-step survey:
- Step 1 asks for name, company name, email and phone.
- Step 2 asks "Do you have a website?" and then either the website-owner
  questions or the would-be-owner questions.

A zod schema (`formSchema`) validates every press of the primary button.
- On step 1, a valid form moves to step 2.
- On step 2, the values are posted as JSON to `/api/submit-form`, whose
  handler decodes the body and stores it through a mongoose schema
  (`BusinessFormSchema`).

This project models that core and proves properties of it:

- `record.dfy` (`Record`): the form values as a record of eighteen fields.
  - A per-field view gives every field a key.
  - The JSON body is a map from keys to strings or string lists. `Encode` is
    `JSON.stringify`, which drops undefined fields. `Decode` reads a body
    back into the form's record type.
  - The two are proved inverse in both directions.
- `intake_schema.dfy` (`IntakeSchema`): the zod schema.
  - Length is counted in UTF-16 code units, as `min(2)` counts it.
  - The phone pattern `^\+?[\d\s-()]{10,}$` uses JavaScript's own `\s` and
    `\d`. A one-pass scanner is proved to decide it.
  - The issue list a parse reports comes with the four custom messages.
- `business_form.dfy` (`BusinessFormModel`): the mongoose schema, as data (its
  eighteen paths in declaration order) and as an acceptance predicate.
- `schema_agreement.dfy` (`SchemaAgreement`): every body the client lets
  through is one the server's schema accepts. The converse fails: the server
  stores a one-letter name.
- `intake_form.dfy` (`IntakeForm`): the component as a class.
  - `Form` holds the step counter and the values.
  - It has one method per control handler: the submit button through
    `handleSubmit`, `prevStep`, text inputs, radio groups, the choice groups
    that blank their "Other" text, and the creation-challenge checkboxes.
  - `nextStep` is modelled too, although it is dead code: no control calls it.
  - It carries the invariant of the states the rendered controls can reach.
  - A complete "no website" run is proved to post exactly the entered values.

Inputs from outside the component are parameters:
- `isEmail` is zod's email check.
- `Outcome` says whether the `fetch` returned a response with `ok` set, returned
  one without it, or threw.
- `Answer` is a radio item.
- `checked` is what a checkbox reports.

## Model

| member | source | states |
|---|---|---|
| Record.View | app/page.tsx:16-39 | each field seen through its key; only the two array fields (`challenges`, `creationChallenges`) ever hold lists |
| Record.ViewDetermines | app/page.tsx:16-39 | two value records that agree on every field's key are the same record |
| Record.WithString | app/page.tsx:257-262 | `field.onChange` / `form.setValue` on a string field: that key now reads the new text and every other key is unchanged |
| Record.WithList | app/page.tsx:620-626 | `field.onChange(updated)` on an array field: that key now reads the new list, every other key unchanged |
| Record.EncodeEntry | app/page.tsx:69 | `JSON.stringify(values)` carries a key exactly when the field is defined, with the field's value |
| Record.Decode | app/api/submit-form/route.ts:8 | a body is read back into the form's record type exactly when it is well shaped: the five always-present fields are there, lists stand only at list keys |
| Record.EncodeWellShaped | app/page.tsx:69 | every posted body is well shaped and carries the five always-present fields as they were typed |
| Record.DecodeEncode | app/page.tsx:69 | decoding the posted body gives back exactly the values that were posted |
| Record.EncodeDecode | app/api/submit-form/route.ts:8 | encoding what a well-shaped body decodes to gives back that body |
| IntakeSchema.Utf16Length | app/page.tsx:17-18 | the length `min(2)` measures lies between the character count and twice it |
| IntakeSchema.Utf16LengthOfBmp | app/page.tsx:17-18 | on Basic Multilingual Plane text that length is the character count |
| IntakeSchema.NameRuleOnBmpText | app/page.tsx:17 | on such text the name rule is "at least two characters", with no trimming |
| IntakeSchema.NameRuleExamples | app/page.tsx:17 | two blanks pass the name rule, one letter fails, one astral character (two code units) passes |
| IntakeSchema.ScannerDecidesPhone | app/page.tsx:20 | the one-pass scanner accepts a phone text exactly when `^\+?[\d\s-()]{10,}$` matches it |
| IntakeSchema.PhoneNeedsTenBodyCharacters | app/page.tsx:20 | a matching phone has at least ten characters, and at least eleven when it starts with `+`, the rest being all digits, blanks, hyphens and parentheses |
| IntakeSchema.PhoneAcceptedExamples | app/page.tsx:20 | ten digits match; `+1 (555) 123-4567` matches |
| IntakeSchema.PhoneRejectedExamples | app/page.tsx:20 | nine digits fail, `+` with nine digits fails, dots fail |
| IntakeSchema.ClientValidRules | app/page.tsx:16-39 | the schema accepts exactly when the name and company have two code units, the email passes, the phone matches, `hasWebsite` is yes/no and the five optional answers are absent or yes/no |
| IntakeSchema.IssuesOver | app/page.tsx:16-39 | the issues over a list of fields: no more than there are fields, each with its field's message, reported exactly for the fields that break their rule |
| IntakeSchema.IssuesOverDistinct | app/page.tsx:16-39 | over fields listed once each, no field is reported twice |
| IntakeSchema.Issues | app/page.tsx:16-39 | a parse reports an issue for a field exactly when that field breaks its rule, and reports no field twice |
| IntakeSchema.NoIssuesIffValid | app/page.tsx:16-39 | the issue list is empty exactly when the schema accepts |
| IntakeSchema.FreeFieldsIrrelevant | app/page.tsx:24-38 | `websiteUse` and the three `*Other` texts never affect whether the schema accepts |
| BusinessFormModel.AcceptsRules | lib/models/BusinessForm.ts:3-25 | the server accepts exactly when the four identity fields and `hasWebsite` are supplied and non-empty, `hasWebsite` is yes/no, and each of the five answers is absent or yes/no |
| BusinessFormModel.DeclIndex | lib/models/BusinessForm.ts:4-23 | each of the eighteen fields is declared by a path of the schema |
| BusinessFormModel.DeclaredOnce | lib/models/BusinessForm.ts:4-23 | no field is declared by two paths |
| BusinessFormModel.PathKinds | lib/models/BusinessForm.ts:10-22 | exactly `websiteUse`, `businessIndustry`, `targetAudience`, `challenges` and `creationChallenges` are string arrays |
| BusinessFormModel.OtherTextsUnconstrained | lib/models/BusinessForm.ts:11-15 | any `*Other` text, or none, leaves an accepted body accepted |
| SchemaAgreement.AnswerStored | lib/models/BusinessForm.ts:17-21 | an optional answer the client accepts passes the server's enum |
| SchemaAgreement.IdentityStored | lib/models/BusinessForm.ts:5-9 | values the client accepts supply the server's five required paths, with `hasWebsite` in its enum |
| SchemaAgreement.ClientValidIsStorable | lib/models/BusinessForm.ts:3-25 | every body the client lets through is accepted by the server's schema, given only that the email check refuses the empty string |
| SchemaAgreement.EncodeInjective | app/page.tsx:69 | different submissions are posted as different bodies |
| SchemaAgreement.AnswerEnum | lib/models/BusinessForm.ts:17-21 | a posted optional answer passes the server's enum exactly when it is absent or yes/no |
| SchemaAgreement.IdentitySupplied | lib/models/BusinessForm.ts:5-9 | the five required paths of a posted body are supplied exactly when those fields are non-empty, and `hasWebsite` is in its enum exactly when it is yes/no |
| SchemaAgreement.StoredRules | lib/models/BusinessForm.ts:3-25 | the server stores a posted submission exactly when its four identity fields are non-empty, `hasWebsite` is yes/no and the five answers are absent or yes/no; it has no length, email or phone rule |
| SchemaAgreement.StorableNeedNotBeClientValid | lib/models/BusinessForm.ts:5 | the converse of the agreement fails: the server stores a body with the one-letter name "a", and no submission the client accepts is posted as that body |
| IntakeForm.AnswerText | app/page.tsx:227-240 | each radio item is "yes" or "no" |
| IntakeForm.Choose | app/page.tsx:257-262 | a choice (here and in the two sibling groups at lines 314-319 and 377-382) records the answer and blanks the companion text unless the answer is "Other"; nothing else changes |
| IntakeForm.ChooseIdempotent | app/page.tsx:257-262 | choosing the same answer twice has the effect of choosing it once |
| IntakeForm.Without | app/page.tsx:624 | `filter(value => value !== challenge)` removes every occurrence and keeps every other item as often as it was there |
| IntakeForm.WithoutDistributes | app/page.tsx:624 | the filter distributes over concatenation, so the survivors keep their order |
| IntakeForm.WithoutAbsent | app/page.tsx:624 | filtering an item that is not there changes nothing |
| IntakeForm.CheckThenUncheck | app/page.tsx:620-626 | checking an unticked box and unchecking it again restores the list |
| IntakeForm.Toggle | app/page.tsx:620-626 | a checkbox change sets the list to the current one (`[]` when undefined) appended or filtered; no other field changes |
| IntakeForm.DefaultsReachable | app/page.tsx:46-54 | the default values, which `reset()` restores, are reachable on step 1, and the schema refuses them |
| IntakeForm.ReachableValidity | app/page.tsx:16-39 | in every reachable state only the four identity fields decide acceptance |
| IntakeForm.TypeTextKeepsReachable | app/page.tsx:154-300 | typing into a rendered text input keeps the state reachable |
| IntakeForm.AnswerKeepsReachable | app/page.tsx:213-600 | answering a yes/no group keeps the state reachable |
| IntakeForm.ChooseKeepsReachable | app/page.tsx:246-424 | a choice in any of the three groups keeps every companion text blank or undefined unless its answer is "Other" |
| IntakeForm.ToggledKeepsList | app/page.tsx:619-626 | a toggle as a rendered checkbox issues it keeps the list free of repeats and within the catalogue |
| IntakeForm.ToggleKeepsReachable | app/page.tsx:95-106 | toggling a rendered creation-challenge checkbox (one of this catalogue, lines 610-626) keeps the state reachable |
| IntakeForm.EditsOfFreeFieldsKeepValidity | app/page.tsx:257-626 | choices and checkbox toggles never change whether the schema accepts |
| IntakeForm.Form.constructor | app/page.tsx:42-55 | the form starts on step 1 holding the default values |
| IntakeForm.Form.PressPrimary | app/page.tsx:57-83 | `handleSubmit(onSubmit)`: issues block everything; on step 1 a valid form moves to step 2; on step 2 the encoded values are posted and an ok response gives the success toast, reset values and step 1, a not-ok response or a throw their error toasts and no change; reachability is kept |
| IntakeForm.Form.NextStep | app/page.tsx:108-121 | on step 1 it advances exactly when the four identity fields are non-empty and otherwise flags the issues of those four; elsewhere it does nothing |
| IntakeForm.Form.PrevStep | app/page.tsx:123 | the step goes down by one with no guard; reachability is kept when the button is rendered (`step > 1`) |
| IntakeForm.Form.TypeText | app/page.tsx:156-424 | the typed text replaces the field; a rendered input keeps the state reachable |
| IntakeForm.Form.AnswerRadio | app/page.tsx:215-600 | the item's "yes"/"no" replaces the field; reachability is kept |
| IntakeForm.Form.ChooseOption | app/page.tsx:257-262 | the values become `Choose` of the old values; reachability is kept |
| IntakeForm.Form.ToggleChallenge | app/page.tsx:619-626 | the values become `Toggle` of the old values; a rendered checkbox keeps the state reachable |
| IntakeForm.EnteredIsAccepted | app/page.tsx:16-54 | acceptable identity fields over the defaults give a reachable state the schema accepts |
| IntakeForm.TypeIdentity | app/page.tsx:156-211 | typing the four identity fields into a fresh form leaves exactly those four over the defaults |
| IntakeForm.FillStepOne | app/page.tsx:57-61 | filling step 1 with acceptable values and pressing Next reaches step 2 holding them |
| IntakeForm.CompleteIsAccepted | app/page.tsx:16-39 | answering "yes" to wanting a website and ticking "Other" keeps the values accepted, and decoding their body gives them back |
| IntakeForm.FinishWithoutWebsite | app/page.tsx:566-626 | on the "no" branch: answer "yes", tick "Other", submit with an ok response; the body decodes to the entered values with those two answers, and the form is back at step 1 with the defaults |
| IntakeForm.NoWebsiteRun | app/page.tsx:42-83 | the whole run posts exactly the entered identity, `hasWebsite` "no", the `challenges: []` default, `wantWebsite` "yes" and `["Other"]`, and ends at step 1 with the defaults |
| IntakeForm.BlankOtherIsPostedAsIs | app/page.tsx:257-300 | choosing "Other" while its text holds `""` (blanked by an earlier choice, or typed and erased) blocks nothing and posts `websiteUseOther: ""`; a text nobody touched stays undefined and is left out of the body |

## Left out

- Rendering, styling, the progress bar and the logo: these have no behaviour beyond which controls are shown, and the model keeps that as the `*Offered` predicates.
- The option lists of the three choice groups (app/page.tsx lines 266-270, 323-333 and 386-394) and which yes/no groups are on screen. Any choice keeps the state reachable and leaves acceptance as it was (`ChooseKeepsReachable`, `EditsOfFreeFieldsKeepValidity`). Any yes/no answer keeps the state reachable (`AnswerKeepsReachable`). So no `*Offered` predicate restricts them.
- zod's `email()` pattern is a parameter `isEmail`. Agreement with the server needs only that it refuses the empty string (`EmailNeverEmpty`).
- `fetch`, `async`/`await`, the network and the response body: the exchange is reduced to the three `Outcome`s.
- The route handler beyond `req.json()`: `dbConnect`, `save()`'s persistence, and the 201/500 responses. `components/ui/toast-provider.tsx` and `app/layout.tsx` are not part of this model.
- Record.Decode reads back only bodies of the record's shape. `req.json()` itself accepts any JSON, and mongoose would cast some bodies `Decode` refuses, such as a string at `challenges`. The server's only check is its schema validation at `save()`, modelled separately as `BusinessFormModel.Accepts`.
- Mongoose casting (a string stored in an array path becomes a one-item array; an array at a string path fails the cast, which `Supplied` models only for the required paths), `timestamps` and `_id`. `BusinessFormModel.AcceptsRules` models only `required` and `enum`, reading `required` on a string as present and non-empty.
- A second press of Submit while the first request is pending: React state updates are treated as immediate and sequential.
- The checkbox's "indeterminate" state: `checked` is a boolean here.
- `websiteChallenges` (app/page.tsx:85-93) is never rendered, so nothing ever edits `challenges`. It stays at its `[]` default, as `Reachable` states.
- The text of the step-2 questions, the radio labels, and the error display (`FormMessage`).
- `IntakeSchema.AtLeastTwo`: `z.string().min(2)` does not trim, so blanks count like any other character.
