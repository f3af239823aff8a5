# Job application app — verified model

This project models the client of a job-application web app written in
TypeScript with React, Formik and Yup. The client has three parts:

- **Application wizard.** Four steps: personal data, job data, education and
  experience. Each step is checked by its own Yup rule set. The last step
  posts everything as one multipart body.
- **Listing page.** Lists submitted applications page by page. It opens a
  detail modal and a PDF viewer for the CV.
- **Small UI helpers.** A status badge, a navigation button and a
  first-load spinner.

Module by module:

- `StepValidation`, `StepValidationFacts` — the newer per-step validator.
  - Each step's rules become a set of violations: a field path plus the
    failed rule. The wizard shows the set of flagged paths.
  - The rules that take the valid catalog ids as input are modelled with
    those ids as a parameter.
  - A salary that matches the pattern is read as exact integer cents.
  - E-mail syntax, URL syntax, date parsing and `parseFloat` on a malformed salary are left as parameters (a
    `Syntax` record). The empty string counts as "no date".
  - The end-date ordering test of each entry is guarded by a gate:
    - `WhenFlagIsZero` — the test as written, `flag === 0` on a boolean;
    - `WhenFlagIsFalse` — the evident intent;
    - `Unconditional` — the older rule set.
- `StaticValidation` — the older, static rule set, compared rule by rule with
  the newer one.
- `InitialValues` — the wizard's starting values, and what each step reports
  on them.
- `FormDataEncoding`, `FormDataFacts` — the two ways the form becomes a
  multipart body.
  - The newer wizard sends one text part per scalar field and the CV as a
    file. Each entry field goes under a key `educations[i][field]`.
  - The first wizard sends each list whole.
  - The body is built by loops, proved equal to a specification function.
    The layout, the key uniqueness and the texts are proved about that
    function.
- `CatalogData` — the valid ids taken from the loaded catalogs, and what the
  job step shows while they load or after one fails.
- `ApplicationWizard` — the newer wizard as a class.
  - Its invariant: every step behind the active one passes its rules on the
    current values. An entry marked ongoing or current holds no end date.
  - Every handler keeps that invariant.
  - A post therefore happens only with all four steps passing.
- `LegacyApplicationWizard` — the first wizard, with the static rules and
  whole-list encoding, and with no way to remove an entry.
- `PdfViewer` — the CV viewer.
  - Page navigation is clamped to the page count.
  - Typed page numbers are parsed as by `parseInt`.
  - Zoom snaps to six levels, kept in quarters (2…8 for 50%…200%).
- `ListingPage` — the paginated fetch with its loading and error state, the
  modal and viewer open/close pairs, the request query, the full-name
  column and the status colours.
- `ApplicationModal` — the detail view's fallback texts, its periods and
  links, and the CV button caption.
- `CustomBadge`, `DynamicButton`, `Loader` — the badge's palette test, first-match
  route lookup, and the spinner that never comes back once hidden.
- `Text` — decimal text of numbers.
- `Wrappers` — `Option`.

Where the two wizards differ, each is modelled separately. The newer wizard
runs with the end-date test guarded by `WhenFlagIsFalse`; the test as
written is kept beside it and described under "Findings".

## Model

| member | source | states |
|---|---|---|
| Text.DigitsValueOfNatToString | src/components/applications/ApplicationForm.tsx:172 | the decimal text of a number reads back as that number: a catalog id sent as `String(id)` is the id |
| Text.NatToStringInjective | src/components/applications/ApplicationForm.tsx:176-178 | distinct indices have distinct decimal texts |
| StepValidationFacts.FlaggedIsErrorPath | src/forms/applications/ApplicationFormValidation.ts:11-150 | a path is among the shown errors exactly when some rule on it fails |
| StepValidationFacts.EducationViolationsIndexed | src/forms/applications/ApplicationFormValidation.ts:84-111 | every violation found in education `i` lies on a path of education `i` |
| StepValidationFacts.ExperienceViolationsIndexed | src/forms/applications/ApplicationFormValidation.ts:117-146 | every violation found in experience `i` lies on a path of experience `i` |
| StepValidationFacts.EducationsMembership | src/forms/applications/ApplicationFormValidation.ts:84-113 | the list's violations are the min-one rule exactly when it is empty, plus each in-range entry's own violations and nothing else |
| StepValidationFacts.ExperiencesMembership | src/forms/applications/ApplicationFormValidation.ts:117-148 | the same for the experience list |
| StepValidationFacts.PersonalInfoOwnsItsPaths | src/forms/applications/ApplicationFormValidation.ts:13-44 | step 1 flags only step-1 fields |
| StepValidationFacts.JobInfoOwnsItsPaths | src/forms/applications/ApplicationFormValidation.ts:46-81 | step 2 flags only step-2 fields |
| StepValidationFacts.ValidateReportsOnlyOwnStep | src/forms/applications/ApplicationFormValidation.ts:11-150 | validating step k never flags a field another step owns |
| StepValidationFacts.PersonalInfoMembership | src/forms/applications/ApplicationFormValidation.ts:13-44 | a personal field breaks a rule in step 1 exactly when that rule fails on its value |
| StepValidationFacts.JobInfoMembership | src/forms/applications/ApplicationFormValidation.ts:46-81 | the same for the job fields in step 2 |
| StepValidationFacts.EducationMembership | src/forms/applications/ApplicationFormValidation.ts:86-110 | an education field breaks a rule exactly when that rule fails on the entry |
| StepValidationFacts.ExperienceMembership | src/forms/applications/ApplicationFormValidation.ts:119-145 | an experience field breaks a rule exactly when that rule fails on the entry |
| StepValidationFacts.PersonalRequiredText | src/forms/applications/ApplicationFormValidation.ts:14-43 | each required personal field is flagged "required" iff empty and "too long" iff over its ceiling; the ceiling is 20 for the phone only and 255 otherwise |
| StepValidationFacts.EmailSyntaxChecked | src/forms/applications/ApplicationFormValidation.ts:20-23 | the e-mail is flagged as malformed iff it is non-empty and not an e-mail |
| StepValidationFacts.OptionalLinks | src/forms/applications/ApplicationFormValidation.ts:27-34 | LinkedIn and portfolio are never required; each is flagged iff present and a non-URL or over 255 characters |
| StepValidationFacts.JobRequiredText | src/forms/applications/ApplicationFormValidation.ts:47-52 | job title and company are required and capped at 255, each in both directions |
| StepValidationFacts.CatalogMembershipDecides | src/forms/applications/ApplicationFormValidation.ts:53-72 | each of the three ids is flagged iff it is not in its supplied id set |
| StepValidationFacts.CatalogUpdateChangesVerdict | src/forms/applications/ApplicationFormValidation.ts:53-55 | when the employment-type ids gain the chosen id, step 2 loses exactly that one violation |
| StepValidationFacts.SalaryVerdict | src/forms/applications/ApplicationFormValidation.ts:56-66 | the salary is flagged iff it fails the pattern or exceeds 9999999999.99; an empty salary breaks only "required", the pattern passing an absent value; on matching text the minimum test never fails; on non-matching text the minimum test fails iff `parseFloat` gives NaN or a negative number, and the maximum test iff NaN or above the maximum |
| StepValidationFacts.NonMatchingSalaryMeetsRangeTests | src/forms/applications/ApplicationFormValidation.ts:56-62 | "-5", which `parseFloat` reads as negative, breaks exactly the pattern and the minimum test |
| StepValidationFacts.CvVerdict | src/forms/applications/ApplicationFormValidation.ts:73-80 | the CV is flagged iff missing, not `application/pdf`, or over 51200·1024 bytes; a missing CV is only "required" |
| StepValidationFacts.CentsTextRoundTrip | src/forms/applications/ApplicationFormValidation.ts:57 | every amount of cents has a text the pattern accepts, and that text parses back to the amount |
| StepValidationFacts.SalaryRange | src/forms/applications/ApplicationFormValidation.ts:56-66 | a well-formed amount passes iff it is at most the maximum |
| StepValidationFacts.EducationPathMembership | src/forms/applications/ApplicationFormValidation.ts:84-113 | step 3 flags a rule on field f of entry i exactly when it fails on that entry |
| StepValidationFacts.ExperiencePathMembership | src/forms/applications/ApplicationFormValidation.ts:117-148 | step 4 flags a rule on field f of entry i exactly when it fails on that entry |
| StepValidationFacts.EducationListRules | src/forms/applications/ApplicationFormValidation.ts:84-113 | min-one iff the list is empty; per entry, degree and institution are required and capped at 255, and the start date is required; flagged indices are in range |
| StepValidationFacts.ExperienceListRules | src/forms/applications/ApplicationFormValidation.ts:117-148 | the same for experiences, plus location capped at 255 and description never flagged |
| StepValidationFacts.EducationEndDateGating | src/forms/applications/ApplicationFormValidation.ts:94-108 | an absent end date passes; a present one is flagged iff the gate lets the test run and the start is missing or later; a missing start with a present end fails |
| StepValidationFacts.ExperienceEndDateGating | src/forms/applications/ApplicationFormValidation.ts:127-141 | the same for experiences, gated on the current-job flag |
| StepValidationFacts.AsWrittenNeverOrdersEndDates | src/forms/applications/ApplicationFormValidation.ts:94-108 | with the gate as written, steps 3 and 4 never report an end date before its start |
| StepValidationFacts.EndBeforeStartSlipsThrough | src/forms/applications/ApplicationFormValidation.ts:95-104 | a finished education ending before it starts passes as written and is flagged with the intended gate |
| StepValidationFacts.IntendedEducationEndDateOrdering | src/forms/applications/ApplicationFormValidation.ts:94-108 | with the intended gate, an ongoing education is never ordered, and a finished one with an end date is flagged iff its start is missing, unreadable or later |
| StepValidationFacts.IntendedExperienceEndDateOrdering | src/forms/applications/ApplicationFormValidation.ts:127-141 | the same for experiences and the current-job flag |
| StaticValidation.StaticJobInfoMembership | src/validation/applications/ApplicationFormValidation.ts:18-31 | a job field breaks a static rule exactly when that rule fails on its value |
| StaticValidation.StaticPersonalStepAgrees | src/validation/applications/ApplicationFormValidation.ts:6-16 | the static personal step gives the same verdict as the newer one |
| StaticValidation.StaticJobStep | src/validation/applications/ApplicationFormValidation.ts:19-26 | the static step never flags the three ids, and judges title and company as the newer step does |
| StaticValidation.StaticSalaryVerdict | src/validation/applications/ApplicationFormValidation.ts:22-24 | the static salary is flagged iff it fails the pattern, an empty one only as required; an amount over the maximum passes there but not in the newer step |
| StaticValidation.StaticCvVerdict | src/validation/applications/ApplicationFormValidation.ts:27-30 | a missing CV fails required, type and size; a present one gets the newer verdict |
| StaticValidation.StaticOrdersEveryEducation | src/validation/applications/ApplicationFormValidation.ts:40-42 | a present end date is flagged iff it is before the start or the start is missing, ongoing or not |
| StaticValidation.StaticOrdersEveryExperience | src/validation/applications/ApplicationFormValidation.ts:57-59 | the same for experiences, current or not |
| StaticValidation.StaticListsNeedOneEntry | src/validation/applications/ApplicationFormValidation.ts:33-67 | each list is flagged for its minimum iff it is empty |
| InitialValues.AdjustedPersonalStep | src/components/applications/ApplicationForm.tsx:53-75 | on the untouched newer form, step 1 reports exactly the seven required personal fields |
| InitialValues.AdjustedJobStep | src/forms/applications/ApplicationFormInitialValues.ts:4-19 | on the untouched form, step 2 reports exactly title, company, salary and CV as required, with no pattern violation on the empty salary, and each id not in its set |
| InitialValues.AdjustedEntrySteps | src/components/applications/ApplicationForm.tsx:53-75 | the blank entry of each list reports exactly its three required fields |
| InitialValues.InitialListsNeedAnEntry | src/forms/applications/ApplicationFormInitialValues.ts:20-21 | the empty lists fail the minimum-one rule of the older rule set |
| FormDataEncoding.BuildFormData | src/components/applications/ApplicationForm.tsx:166-225 | the three loops build exactly the specified body |
| FormDataEncoding.AppendScalarEntries | src/components/applications/ApplicationForm.tsx:168-174 | the first loop appends exactly one part per scalar entry, in order, and none for the two lists |
| FormDataEncoding.AppendEducations | src/components/applications/ApplicationForm.tsx:176-194 | the second loop appends exactly the five indexed parts of each education, in order |
| FormDataEncoding.AppendExperiences | src/components/applications/ApplicationForm.tsx:196-225 | the third loop appends exactly the seven indexed parts of each experience, in order |
| FormDataEncoding.BuildLegacyFormData | src/app/form/page.tsx:49-58 | the single loop builds exactly the specified first-version body |
| FormDataFacts.EntriesPartsOnePerEntry | src/components/applications/ApplicationForm.tsx:168-174 | when each entry yields one part, the parts follow the entries one to one |
| FormDataFacts.LegacyEntriesPartsOnePerEntry | src/app/form/page.tsx:50-58 | the same for the first version |
| FormDataFacts.TopPartsKeys | src/components/applications/ApplicationForm.tsx:168-174 | sixteen scalar parts, keyed in declaration order |
| FormDataFacts.TopLevelParts | src/components/applications/ApplicationForm.tsx:168-174 | each scalar part carries its field's text; null links become "null"; the CV is the file or the text "null" |
| FormDataFacts.TopLevelIds | src/components/applications/ApplicationForm.tsx:168-174 | each catalog id is sent as decimal text that reads back as the id |
| FormDataFacts.EducationsPartsLength | src/components/applications/ApplicationForm.tsx:176-194 | N educations give 5N parts |
| FormDataFacts.ExperiencesPartsLength | src/components/applications/ApplicationForm.tsx:196-225 | M experiences give 7M parts |
| FormDataFacts.EducationsPartsAt | src/components/applications/ApplicationForm.tsx:176-194 | part 5i+j is field j of education i |
| FormDataFacts.ExperiencesPartsAt | src/components/applications/ApplicationForm.tsx:196-225 | part 7i+j is field j of experience i |
| FormDataFacts.FormDataBlocks | src/components/applications/ApplicationForm.tsx:166-225 | the body is the scalar block, then the education block, then the experience block |
| FormDataFacts.FormDataLength | src/components/applications/ApplicationForm.tsx:166-225 | the body has 16 + 5N + 7M parts |
| FormDataFacts.EducationPartAt | src/components/applications/ApplicationForm.tsx:176-194 | the part of education i, field j, sits at 16+5i+j under key `educations[i][field]` |
| FormDataFacts.ExperiencePartAt | src/components/applications/ApplicationForm.tsx:196-225 | the part of experience i, field j, sits after all educations under key `experiences[i][field]` |
| FormDataFacts.EducationTexts | src/components/applications/ApplicationForm.tsx:176-194 | an education's five texts; an absent end date is sent as ""; the flag is "1" iff ongoing and "0" otherwise |
| FormDataFacts.ExperienceTexts | src/components/applications/ApplicationForm.tsx:196-225 | an experience's seven texts; absent fields are sent as ""; the flag is "1" iff current |
| FormDataFacts.IndexedKeyInjective | src/components/applications/ApplicationForm.tsx:177-193 | two bracketed keys of one list are equal iff index and field are |
| FormDataFacts.FormDataKeysDistinct | src/components/applications/ApplicationForm.tsx:166-225 | no two parts of the body share a key |
| FormDataFacts.ScalarEntrySameInBoth | src/app/form/page.tsx:50-57 | a scalar entry is appended identically by both versions |
| FormDataFacts.ScalarEntriesSameInBoth | src/app/form/page.tsx:50-58 | a run of scalar entries is appended identically by both versions |
| FormDataFacts.LegacyLayout | src/app/form/page.tsx:50-58 | the first version sends 18 parts in key order, the lists as single parts holding the whole arrays |
| FormDataFacts.LegacyScalarsAgree | src/app/form/page.tsx:50-58 | its first sixteen parts are exactly the newer wizard's scalar parts |
| CatalogData.IdsOfMembership | src/components/applications/ApplicationForm.tsx:140-150 | an id is valid iff the loaded catalog has an item with it; nothing is valid before loading |
| CatalogData.UnloadedCatalogRejects | src/components/applications/ApplicationForm.tsx:140-150 | while a catalog is unloaded, step 2 rejects every id of it |
| CatalogData.JobStepViewCases | src/components/applications/ApplicationForm.tsx:515-528 | the form shows iff no catalog failed and all loaded, and a failure wins over loading; a shown select passes iff its id is in its catalog |
| ApplicationWizard.PersonalReadsOnlyPersonal | src/forms/applications/ApplicationFormValidation.ts:13-44 | the step-1 verdict depends only on the personal fields |
| ApplicationWizard.JobReadsOnlyJob | src/forms/applications/ApplicationFormValidation.ts:46-81 | the step-2 verdict depends only on the job fields |
| ApplicationWizard.KeepOthersCutsOut | src/components/applications/ApplicationForm.tsx:664-670 | filtering out index i leaves the entries before and after it, in order |
| ApplicationWizard.OngoingEntriesPostNoEndDate | src/components/applications/ApplicationForm.tsx:176-194 | an ongoing or current entry is posted with an empty end date |
| ApplicationWizard.Wizard.constructor | src/components/applications/ApplicationForm.tsx:77-79 | step 0, not submitting, no errors, the adjusted initial values |
| ApplicationWizard.Wizard.Submit | src/components/applications/ApplicationForm.tsx:163-243 | failing rules block with their paths shown; passing rules advance by one, or on the last step post the encoded body; a post implies all four steps pass |
| ApplicationWizard.Wizard.SettlePost | src/components/applications/ApplicationForm.tsx:228-240 | success resets to the initial values and step 0; failure keeps step and values; not submitting either way |
| ApplicationWizard.Wizard.Back | src/components/applications/ApplicationForm.tsx:247 | back decrements the step and is offered only past step 0 while not submitting |
| ApplicationWizard.Wizard.EditText | src/components/applications/ApplicationForm.tsx:311-316 | typing changes exactly that field and keeps every earlier step passing |
| ApplicationWizard.Wizard.SelectCountry | src/components/applications/ApplicationForm.tsx:426-432 | the chosen country's label, or "" when cleared |
| ApplicationWizard.Wizard.SelectCatalogId | src/components/applications/ApplicationForm.tsx:556 | a select sets exactly its id field |
| ApplicationWizard.Wizard.ChooseCv | src/components/applications/ApplicationForm.tsx:647-649 | the picked file, or none |
| ApplicationWizard.Wizard.AddEducation | src/components/applications/ApplicationForm.tsx:777-789 | appends one blank education with the flag off |
| ApplicationWizard.Wizard.RemoveEducation | src/components/applications/ApplicationForm.tsx:664-670 | removes exactly index i > 0 and keeps the others in order |
| ApplicationWizard.Wizard.EditEducation | src/components/applications/ApplicationForm.tsx:677-745 | changes one field of one entry; the end date only while not ongoing |
| ApplicationWizard.Wizard.SetOngoing | src/components/applications/ApplicationForm.tsx:752-758 | sets the flag; ticking clears that end date to ""; unticking restores nothing; nothing else changes |
| ApplicationWizard.Wizard.AddExperience | src/components/applications/ApplicationForm.tsx:931-945 | appends one blank experience with the flag off |
| ApplicationWizard.Wizard.RemoveExperience | src/components/applications/ApplicationForm.tsx:798-804 | removes exactly index i > 0 and keeps the others in order |
| ApplicationWizard.Wizard.EditExperience | src/components/applications/ApplicationForm.tsx:811-900 | changes one field of one entry; the end date only while not current |
| ApplicationWizard.Wizard.SetCurrentJob | src/components/applications/ApplicationForm.tsx:906-912 | sets the flag; ticking clears that end date to ""; nothing else changes |
| LegacyApplicationWizard.StaticJobReadsOnlyJob | src/validation/applications/ApplicationFormValidation.ts:18-31 | the static step-2 verdict depends only on the job fields |
| LegacyApplicationWizard.LegacyWizard.constructor | src/app/form/page.tsx:41-43 | step 0 with the plain initial values and empty lists |
| LegacyApplicationWizard.LegacyWizard.Submit | src/app/form/page.tsx:46-76 | as the newer submit, with the static rules and the whole-list body; a post implies all four static steps pass |
| LegacyApplicationWizard.LegacyWizard.SettlePost | src/app/form/page.tsx:60-72 | success resets to the initial values and step 0; failure keeps state; not submitting either way |
| LegacyApplicationWizard.LegacyWizard.Back | src/app/form/page.tsx:79 | decrements the step; offered only past step 0 while not submitting |
| LegacyApplicationWizard.LegacyWizard.EditText | src/app/form/page.tsx:199-203 | typing changes exactly that field, the country included |
| LegacyApplicationWizard.LegacyWizard.SelectCatalogId | src/app/form/page.tsx:258 | a select sets exactly its id field |
| LegacyApplicationWizard.LegacyWizard.ChooseCv | src/app/form/page.tsx:312-314 | the picked file, or none |
| LegacyApplicationWizard.LegacyWizard.AddEducation | src/app/form/page.tsx:396-402 | appends an education with empty texts, the flag off and no end-date key |
| LegacyApplicationWizard.LegacyWizard.EditEducation | src/app/form/page.tsx:334-375 | changes one field of one entry |
| LegacyApplicationWizard.LegacyWizard.SetOngoing | src/app/form/page.tsx:381-388 | ticking clears that end date; nothing else changes |
| LegacyApplicationWizard.LegacyWizard.AddExperience | src/app/form/page.tsx:497-503 | appends an experience without end date, description or location |
| LegacyApplicationWizard.LegacyWizard.EditExperience | src/app/form/page.tsx:417-472 | changes one field of one entry |
| LegacyApplicationWizard.LegacyWizard.SetCurrentJob | src/app/form/page.tsx:482-489 | ticking clears that end date; nothing else changes |
| PdfViewer.Nearest | src/components/PDFViewer.tsx:59-61 | the fold returns one of the options, and none is nearer to the target |
| PdfViewer.KeepEarlierIsFirst | src/components/PDFViewer.tsx:59-61 | with the strict comparison, every option before the result is strictly farther |
| PdfViewer.TakeLaterIsLast | src/components/PDFViewer.tsx:59-61 | with ties going up, every option after the result is strictly farther |
| PdfViewer.ZoomStaysOnOptions | src/components/PDFViewer.tsx:56-74 | zooming always lands on one of the six levels |
| PdfViewer.NearestOfOption | src/components/PDFViewer.tsx:59-61 | a target that is a level snaps to itself |
| PdfViewer.NearestOfSeven | src/components/PDFViewer.tsx:56-64 | 175% snaps to 150% with the strict comparison and to 200% with ties going up |
| PdfViewer.AsWrittenZoomInStuck | src/components/PDFViewer.tsx:56-64 | as written, zoom-in steps up from 50% to 150% but stays at 150% |
| PdfViewer.ZoomInSteps | src/components/PDFViewer.tsx:56-64 | with ties going up, zoom-in below 200% reaches the next larger level |
| PdfViewer.ZoomInAtMax | src/components/PDFViewer.tsx:62 | zoom-in is capped at 200% |
| PdfViewer.ZoomOutSteps | src/components/PDFViewer.tsx:66-74 | zoom-out above 50% reaches the next smaller level, 200% going to 150% |
| PdfViewer.ZoomOutAtMin | src/components/PDFViewer.tsx:66-74 | zoom-out is floored at 50% |
| PdfViewer.PageCount | src/components/PDFViewer.tsx:52 | `numPages \|\| 1` is at least 1 and equals a non-zero count |
| PdfViewer.LeadingDigits | src/components/PDFViewer.tsx:125 | the longest run of digits at the start of the text |
| PdfViewer.ParseInt | src/components/PDFViewer.tsx:125 | a number is read iff the text starts with a digit, or with a sign and then a digit |
| PdfViewer.TypedPage | src/components/PDFViewer.tsx:124-129 | a typed page is accepted iff it parses to a number between 1 and the page count, and the page taken is that number |
| PdfViewer.LeadingDigitsOfDigits | src/components/PDFViewer.tsx:125 | a string of digits is read whole |
| PdfViewer.TypedPageOfNumber | src/components/PDFViewer.tsx:124-129 | typing the decimal text of k selects page k iff it exists |
| PdfViewer.TypedPageRejectsEmpty | src/components/PDFViewer.tsx:124-129 | empty or sign-only text never changes the page |
| PdfViewer.PrevPage | src/components/PDFViewer.tsx:51 | one page back, never below 1 |
| PdfViewer.NextPage | src/components/PDFViewer.tsx:52 | one page on, never past the page count |
| PdfViewer.Viewer.constructor | src/components/PDFViewer.tsx:33-36 | page 1, zoom 100%, no page count, no error |
| PdfViewer.Viewer.LoadSucceeded | src/components/PDFViewer.tsx:41-44 | records the page count and returns to page 1 |
| PdfViewer.Viewer.LoadFailed | src/components/PDFViewer.tsx:46-49 | sets the fixed error message |
| PdfViewer.Viewer.GoToPrevPage | src/components/PDFViewer.tsx:51 | moves back one page; offered only past page 1 |
| PdfViewer.Viewer.GoToNextPage | src/components/PDFViewer.tsx:52 | moves on one page; offered only before the last |
| PdfViewer.Viewer.GoToFirstPage | src/components/PDFViewer.tsx:53 | goes to page 1 |
| PdfViewer.Viewer.GoToLastPage | src/components/PDFViewer.tsx:54 | goes to `numPages \|\| 1` |
| PdfViewer.Viewer.TypePage | src/components/PDFViewer.tsx:124-129 | an accepted typed page is shown; anything else leaves the page as it is |
| PdfViewer.Viewer.ZoomInButton | src/components/PDFViewer.tsx:56-64 | below 200%, the zoom strictly grows to the next level |
| PdfViewer.Viewer.ZoomOutButton | src/components/PDFViewer.tsx:66-74 | above 50%, the zoom strictly shrinks to the next level |
| PdfViewer.Viewer.SelectZoom | src/components/PDFViewer.tsx:178 | the chosen level |
| ListingPage.RequestQueryInjective | src/services/applications.ts:12-14 | different pages or page sizes give different request URLs |
| ListingPage.FullNameSplits | src/app/page.tsx:111-113 | for any names, the full name is the names, a space at their length and the last names; when the names hold no space, that space is the first one |
| ListingPage.StatusColorCases | src/app/page.tsx:134-145 | "sent" is info, "seen" is success, anything else is primary, and every result is a palette colour |
| ListingPage.StatusBadgeThemed | src/app/page.tsx:132-145 | the status cell's badge always takes a theme colour, decided by the status code alone, and shows the status name in white |
| ListingPage.FetchErrorText | src/app/page.tsx:89 | the error shown is the message, or the default when that is empty, and never empty |
| ListingPage.Listing.constructor | src/app/page.tsx:74-79 | page 0, page size 10, loading, no data, no error, modal and viewer closed |
| ListingPage.Listing.RunFetchEffect | src/app/page.tsx:81-96 | a fetch of page+1 starts iff page or page size changed since the last run; it sets loading and clears the error |
| ListingPage.Listing.FetchSucceeded | src/app/page.tsx:85-92 | replaces the data and ends loading |
| ListingPage.Listing.FetchFailed | src/app/page.tsx:88-92 | shows the message or the default, keeps the old data, and ends loading |
| ListingPage.Listing.PaginationModelChange | src/app/page.tsx:98-104 | copies both page and page size |
| ListingPage.Listing.OpenModal | src/app/page.tsx:54-57 | selects the application and opens the modal |
| ListingPage.Listing.CloseModal | src/app/page.tsx:59-62 | closes the modal and clears the selection |
| ListingPage.Listing.OpenPdfViewer | src/app/page.tsx:64-67 | sets the URL and opens the viewer |
| ListingPage.Listing.ClosePdfViewer | src/app/page.tsx:69-72 | closes the viewer and clears the URL |
| ApplicationModal.SummariesFollowEntries | src/components/applications/ApplicationModal.tsx:72-94 | the headers of two runs of entries are the headers of each run in the same order: adding an entry adds its header at its place |
| ApplicationModal.EntryDetailsNeverBlank | src/components/applications/ApplicationModal.tsx:106-141 | whatever is stored, the end date, location, description and period of an entry are never shown blank |
| ApplicationModal.EducationEndTextCases | src/components/applications/ApplicationModal.tsx:108-113 | "En curso" whenever ongoing, whatever end date is stored; otherwise the end date, or "No especificado" for an empty or absent one |
| ApplicationModal.ExperiencePeriodCases | src/components/applications/ApplicationModal.tsx:130-136 | the period is the start, " - ", then "Presente" for a current job whatever is stored, otherwise the end date or "No especificado" |
| ApplicationModal.MissingDetailsFallBack | src/components/applications/ApplicationModal.tsx:126-141 | a missing location shows "No especificado" and a missing description "Sin descripción adicional" |
| ApplicationModal.ProfileLinksShowTheirTarget | src/components/applications/ApplicationModal.tsx:198-232 | neither profile detail is blank; a link displays exactly the address it opens, the stored one, and an empty address shows "No especificado" |
| ApplicationModal.CvButtonCaptionPlural | src/components/applications/ApplicationModal.tsx:372-374 | "página" takes an "s" iff the CV has more than one page |
| ApplicationModal.CvButtonCaptionInjective | src/components/applications/ApplicationModal.tsx:372-374 | different page counts give different captions |
| DynamicButton.FindRoute | src/components/ui/DynamicButton.tsx:24 | the first route whose path is the current path, or none iff no route has it |
| DynamicButton.MatchedRouteIsFirstMatch | src/components/ui/DynamicButton.tsx:24-27 | the button takes text and URL unchanged from the first match, and the defaults iff none matches |
| DynamicButton.NoRoutesGivesHome | src/components/ui/DynamicButton.tsx:14-16 | with no routes and default props the button is "Home" linking to "/" |
| DynamicButton.OnlyPathCompared | src/components/ui/DynamicButton.tsx:24 | routes that agree on their paths select the same position |
| Loader.Loader.constructor | src/components/ui/Loader.tsx:16 | the spinner starts shown iff it is visible |
| Loader.Loader.Render | src/components/ui/Loader.tsx:18-30 | hidden with first-load-only turns it off and its box to `display: none`; once the box is hidden no render shows it again; without first-load-only it keeps its state |

## Left out

- Rendering, layout, theming and the components with no logic are not modelled: Navbar, ConfirmDialog, ErrorDialog, SuccessToast, PageCard, Titles and the Datatable settings.
- The network is left out: the HTTP calls, `fetchCatalog` and the listing request. Each call's result is a parameter: `SettlePost(succeeded)`, `FetchSucceeded` and `FetchFailed`, the catalog states.
- SWR caching, deduplication and refresh timers are not modelled. Nor are fetches that finish out of order, which is concurrency.
- The multipart wire format is not modelled, and neither is the text `JSON.stringify` writes. The first wizard's list part carries the array itself.
- E-mail and URL syntax and date parsing are parameters, as Yup's own algorithms are not part of this model. The empty string is taken as "no date".
- Formik's touched state, blur validation, `handleChange` plumbing and nested error objects are not modelled. The errors are the set of flagged field paths.
- The list of countries offered by the country selector is not part of this model. `SelectCountry` takes any label, or none.
- The viewer's mobile scale factor and its rendering of the document are not modelled.
- Interface files are used only for the datatypes.
- `parseFloat` on a salary the pattern rejects is a parameter (`floatOf`) that says only whether the result is NaN, negative, within range or above the maximum. A matching salary is read as exact cents.
- Text lengths (the 255 and 20 caps) are counted in characters, not in the UTF-16 code units JavaScript's `length` counts, so a text with characters outside the Basic Multilingual Plane can be too long in the app and within the cap in the model.
- StaticValidation.StaticJobStep: the static "required" rule on the three ids never fires, because a select always holds an id, which the model keeps as a number.
- PdfViewer.ParseInt: reads only texts a number input can hold. Leading white space is not skipped and fractions or exponents are cut at the first non-digit, as `parseInt` does.
- PdfViewer.Viewer.ZoomInButton: uses the corrected zoom-in, ties going up (see "Findings"). The zoom-in as written is `PdfViewer.ZoomInAsWritten`.
- ApplicationWizard.Wizard.Submit: validates with the end-date test the field flags evidently intend (see "Findings"). The test as written is the `WhenFlagIsZero` gate.
- Loader.Loader.Render: runs the effect on every render. Running it when the props did not change repeats a step already taken and changes nothing.
- ApplicationWizard.Wizard.EditText: edits require that their field belongs to the active step, the only step whose fields are on screen.

## Findings

| source | as written | input that shows it | evidently intended | confidence | as-written member | corrected member |
|---|---|---|---|---|---|---|
| src/forms/applications/ApplicationFormValidation.ts:95-107 | The end-date test runs only when `is_ongoing === 0`, but the form stores the flag as a boolean, so the test never runs. | An education with `is_ongoing: false`, start 2024-05-01 and end 2024-01-01 passes step 3. | The test runs when the entry is not ongoing. | high; not executed | StepValidationFacts.EndBeforeStartSlipsThrough | StepValidationFacts.IntendedEducationEndDateOrdering |
| src/forms/applications/ApplicationFormValidation.ts:128-140 | The same guard on `is_current_job === 0` never holds for a boolean flag. | An experience with `is_current_job: false` that ends before it starts passes step 4. | The test runs when the job is not current. | high; not executed | StepValidationFacts.AsWrittenNeverOrdersEndDates | StepValidationFacts.IntendedExperienceEndDateOrdering |
| src/components/PDFViewer.tsx:56-64 | Zoom-in snaps `scale + 0.25` to the nearest level with a strict `<`, so a tie keeps the earlier level. | At 150% the target 175% is equally far from 150% and 200%. Zoom-in stays at 150% although its button is enabled below 200%. | Zoom-in moves to the next level, reaching 200%. | high; not executed | PdfViewer.AsWrittenZoomInStuck | PdfViewer.ZoomInSteps |
