/**
 * The newer four-step application wizard: the active step, the in-flight
 * flag of the final post, the form's values and the paths Formik shows an
 * error on. Next validates the active step with that step's rule set and
 * either advances or, on the last step, posts the multipart body; Back
 * returns a step; the entry editors add, remove and edit educations and
 * experiences.
 */
module ApplicationWizard {
  import opened Wrappers
  import opened ApplicationTypes
  import opened StepValidation
  import opened StepValidationFacts
  import opened InitialValues
  import opened FormDataEncoding
  import opened FormDataFacts

  /** The end-date rule the wizard applies: ordered only for finished entries. */
  const Gate := WhenFlagIsFalse

  const LastStep := StepCount - 1

  /** The end-date input is disabled while the entry is ongoing: ticking the flag clears it. */
  predicate NoEndDate(end: Option<string>) {
    end.None? || end.value == ""
  }

  predicate EndDatesCleared(d: Draft) {
    && (forall i :: 0 <= i < |d.educations| && d.educations[i].isOngoing ==> NoEndDate(d.educations[i].endDate))
    && (forall i :: 0 <= i < |d.experiences| && d.experiences[i].isCurrentJob ==> NoEndDate(d.experiences[i].endDate))
  }

  // ---- which fields each step's rules read ----

  predicate SamePersonal(d: Draft, d': Draft) {
    && d.applicantNames == d'.applicantNames && d.applicantLastNames == d'.applicantLastNames
    && d.applicantEmail == d'.applicantEmail && d.applicantPhone == d'.applicantPhone
    && d.applicantLinkedin == d'.applicantLinkedin && d.applicantPortfolioLink == d'.applicantPortfolioLink
    && d.applicantCountry == d'.applicantCountry && d.applicantCity == d'.applicantCity
    && d.applicantAddress == d'.applicantAddress
  }

  predicate SameJob(d: Draft, d': Draft) {
    && d.jobTitle == d'.jobTitle && d.companyName == d'.companyName
    && d.employmentTypeId == d'.employmentTypeId && d.monthlyExpectedSalary == d'.monthlyExpectedSalary
    && d.availabilityId == d'.availabilityId && d.workModalityId == d'.workModalityId && d.cv == d'.cv
  }

  /** Step 1's verdict reads only the personal fields. */
  lemma PersonalReadsOnlyPersonal(d: Draft, d': Draft, syn: Syntax)
    requires SamePersonal(d, d')
    ensures PersonalInfoViolations(d, syn) == PersonalInfoViolations(d', syn)
  {
    forall v ensures v in PersonalInfoViolations(d, syn) <==> v in PersonalInfoViolations(d', syn) {
      PersonalInfoOwnsItsPaths(d, syn);
      PersonalInfoOwnsItsPaths(d', syn);
      if v.path.Field? {
        PersonalInfoMembership(d, syn, v.path.top, v.rule);
        PersonalInfoMembership(d', syn, v.path.top, v.rule);
      }
    }
  }

  /** Step 2's verdict reads only the job fields. */
  lemma JobReadsOnlyJob(d: Draft, d': Draft, ids: ValidIds, syn: Syntax)
    requires SameJob(d, d')
    ensures JobInfoViolations(d, ids, syn) == JobInfoViolations(d', ids, syn)
  {
    forall v ensures v in JobInfoViolations(d, ids, syn) <==> v in JobInfoViolations(d', ids, syn) {
      JobInfoOwnsItsPaths(d, ids, syn);
      JobInfoOwnsItsPaths(d', ids, syn);
      if v.path.Field? {
        JobInfoMembership(d, ids, syn, v.path.top, v.rule);
        JobInfoMembership(d', ids, syn, v.path.top, v.rule);
      }
    }
  }

  // ---- edits ----

  /**
   * The fields of the two first steps that hold typed text. The newer
   * wizard picks the country from a list; the first version types it.
   */
  predicate IsTextField(f: TopField) {
    f in {JobTitle, CompanyName, ApplicantNames, ApplicantLastNames, ApplicantEmail, ApplicantPhone,
          ApplicantLinkedin, ApplicantPortfolioLink, ApplicantCountry, ApplicantCity, ApplicantAddress,
          MonthlyExpectedSalary}
  }

  /** The draft after typing `s` into text field `f`. */
  function WithText(d: Draft, f: TopField, s: string): Draft
    requires IsTextField(f)
  {
    match f
    case JobTitle => d.(jobTitle := s)
    case CompanyName => d.(companyName := s)
    case ApplicantNames => d.(applicantNames := s)
    case ApplicantLastNames => d.(applicantLastNames := s)
    case ApplicantEmail => d.(applicantEmail := s)
    case ApplicantPhone => d.(applicantPhone := s)
    case ApplicantLinkedin => d.(applicantLinkedin := Some(s))
    case ApplicantPortfolioLink => d.(applicantPortfolioLink := Some(s))
    case ApplicantCountry => d.(applicantCountry := s)
    case ApplicantCity => d.(applicantCity := s)
    case ApplicantAddress => d.(applicantAddress := s)
    case MonthlyExpectedSalary => d.(monthlyExpectedSalary := s)
  }

  /** A text edit touches only the fields of the step that owns the field. */
  lemma WithTextStaysInStep(d: Draft, f: TopField, s: string)
    requires IsTextField(f)
    ensures StepOf(Field(f)) == 0 ==> SameJob(d, WithText(d, f, s))
    ensures StepOf(Field(f)) == 1 ==> SamePersonal(d, WithText(d, f, s))
    ensures StepOf(Field(f)) < 2
    ensures WithText(d, f, s).educations == d.educations && WithText(d, f, s).experiences == d.experiences
  {
  }

  /** The free-text fields of an education entry. */
  predicate IsEducationText(f: EducationField) {
    f != IsOngoing
  }

  function WithEducationText(e: Education, f: EducationField, s: string): Education
    requires IsEducationText(f)
  {
    match f
    case EducationDegree => e.(degree := s)
    case EducationInstitution => e.(institution := s)
    case EducationStartDate => e.(startDate := s)
    case EducationEndDate => e.(endDate := Some(s))
  }

  predicate IsExperienceText(f: ExperienceField) {
    f != IsCurrentJob
  }

  function WithExperienceText(x: Experience, f: ExperienceField, s: string): Experience
    requires IsExperienceText(f)
  {
    match f
    case ExperienceCompanyName => x.(companyName := s)
    case ExperienceJobTitle => x.(jobTitle := s)
    case ExperienceStartDate => x.(startDate := s)
    case ExperienceEndDate => x.(endDate := Some(s))
    case Description => x.(description := Some(s))
    case Location => x.(location := Some(s))
  }

  /** `list.filter((_, i) => i !== index)`. */
  function KeepOthers<T>(s: seq<T>, index: nat): (r: seq<T>)
    ensures |r| == if index < |s| then |s| - 1 else |s|
  {
    if s == [] then []
    else KeepOthers(s[..|s| - 1], index) + (if |s| - 1 != index then [s[|s| - 1]] else [])
  }

  /** Filtering out position `index` is cutting it out; the others keep their order. */
  lemma {:induction false} KeepOthersCutsOut<T>(s: seq<T>, index: nat)
    ensures index < |s| ==> KeepOthers(s, index) == s[..index] + s[index + 1..]
    ensures index >= |s| ==> KeepOthers(s, index) == s
  {
    if s != [] {
      var init := s[..|s| - 1];
      KeepOthersCutsOut(init, index);
      if index < |s| - 1 {
        assert init[..index] == s[..index];
        assert init[index + 1..] + [s[|s| - 1]] == s[index + 1..];
      } else if index == |s| - 1 {
        assert init == s[..index];
      } else {
        assert init + [s[|s| - 1]] == s;
      }
    }
  }

  /**
   * With the wizard's invariant, the body never carries an end date for an
   * ongoing education or a current job: those parts are "".
   */
  lemma OngoingEntriesPostNoEndDate(d: Draft)
    requires EndDatesCleared(d)
    ensures forall i :: 0 <= i < |d.educations| && d.educations[i].isOngoing ==>
      16 + 5 * i + 3 < |FormDataOf(d)| && FormDataOf(d)[16 + 5 * i + 3].Text? && FormDataOf(d)[16 + 5 * i + 3].text == ""
    ensures forall i :: 0 <= i < |d.experiences| && d.experiences[i].isCurrentJob ==>
      var b := 16 + 5 * |d.educations| + 7 * i;
      b + 3 < |FormDataOf(d)| && FormDataOf(d)[b + 3].Text? && FormDataOf(d)[b + 3].text == ""
  {
    forall i | 0 <= i < |d.educations| && d.educations[i].isOngoing
      ensures 16 + 5 * i + 3 < |FormDataOf(d)| && FormDataOf(d)[16 + 5 * i + 3].Text? && FormDataOf(d)[16 + 5 * i + 3].text == ""
    {
      EducationTexts(d, i);
    }
    forall i | 0 <= i < |d.experiences| && d.experiences[i].isCurrentJob
      ensures var b := 16 + 5 * |d.educations| + 7 * i;
        b + 3 < |FormDataOf(d)| && FormDataOf(d)[b + 3].Text? && FormDataOf(d)[b + 3].text == ""
    {
      ExperienceTexts(d, i);
    }
  }

  /** The outcome of pressing the submit button. */
  datatype SubmitOutcome =
    | Blocked
    | Advanced
    | Posting(body: seq<Part>)

  class Wizard {
    var activeStep: nat
    var isSubmitting: bool
    var values: Draft
    /** The paths Formik shows an error on after the last validation. */
    var errors: set<FieldPath>
    /** The catalog ids step 2 passed with, the last time it was left forwards. */
    ghost var passedIds: ValidIds
    /** The date and link syntax the rules read values with. */
    const syn: Syntax

    /**
     * The active step is one of the four; every step behind it passed its
     * rules on the current values; an ongoing or current entry has no end
     * date.
     */
    ghost predicate Valid()
      reads this
    {
      && activeStep < StepCount
      && (isSubmitting ==> activeStep == LastStep)
      && EndDatesCleared(values)
      && (activeStep > 0 ==> PersonalInfoViolations(values, syn) == {})
      && (activeStep > 1 ==> JobInfoViolations(values, passedIds, syn) == {})
      && (activeStep > 2 ==> EducationsViolations(values.educations, syn, Gate) == {})
    }

    constructor (syn: Syntax)
      ensures Valid()
      ensures activeStep == 0 && !isSubmitting && values == AdjustedInitialValues() && errors == {}
      ensures this.syn == syn
    {
      activeStep := 0;
      isSubmitting := false;
      values := AdjustedInitialValues();
      errors := {};
      passedIds := ValidIds([], [], []);
      this.syn := syn;
    }

    /**
     * The submit button: Formik validates the active step with `ids` as the
     * catalogs stand. With errors nothing moves and the errors show;
     * otherwise the wizard advances, or on the last step starts posting the
     * body built from the values. Every step has then passed.
     */
    method Submit(ids: ValidIds) returns (outcome: SubmitOutcome)
      requires Valid() && !isSubmitting
      modifies this
      ensures Valid()
      ensures values == old(values)
      ensures var vs := Validate(old(activeStep), old(values), ids, syn, Gate);
        && (vs != {} ==> outcome == Blocked && errors == ErrorPaths(vs)
                         && activeStep == old(activeStep) && !isSubmitting)
        && (vs == {} ==> errors == {})
        && (vs == {} && old(activeStep) < LastStep ==>
              outcome == Advanced && activeStep == old(activeStep) + 1 && !isSubmitting)
        && (vs == {} && old(activeStep) == LastStep ==>
              outcome == Posting(FormDataOf(values)) && activeStep == LastStep && isSubmitting)
      ensures outcome.Posting? ==>
        && PersonalInfoViolations(values, syn) == {}
        && JobInfoViolations(values, passedIds, syn) == {}
        && EducationsViolations(values.educations, syn, Gate) == {}
        && ExperiencesViolations(values.experiences, syn, Gate) == {}
    {
      var vs := Validate(activeStep, values, ids, syn, Gate);
      if vs != {} {
        errors := ErrorPaths(vs);
        outcome := Blocked;
      } else {
        errors := {};
        if activeStep < LastStep {
          if activeStep == 1 {
            passedIds := ids;
          }
          activeStep := activeStep + 1;
          outcome := Advanced;
        } else {
          isSubmitting := true;
          var body := BuildFormData(values);
          outcome := Posting(body);
        }
      }
    }

    /**
     * The post settles: on success the form resets to its initial values
     * and the first step; either way the submit button is enabled again.
     */
    method SettlePost(succeeded: bool)
      requires Valid() && isSubmitting
      modifies this
      ensures Valid() && !isSubmitting
      ensures succeeded ==> activeStep == 0 && values == AdjustedInitialValues() && errors == {}
      ensures !succeeded ==> activeStep == old(activeStep) && values == old(values) && errors == old(errors)
    {
      if succeeded {
        values := AdjustedInitialValues();
        errors := {};
        activeStep := 0;
      }
      isSubmitting := false;
    }

    /** The back button, enabled past the first step and while no post is in flight. */
    method Back()
      requires Valid() && activeStep > 0 && !isSubmitting
      modifies this
      ensures Valid()
      ensures activeStep == old(activeStep) - 1
      ensures values == old(values) && errors == old(errors) && !isSubmitting
    {
      activeStep := activeStep - 1;
    }

    /** Typing into a text field of the step on screen. */
    method EditText(f: TopField, s: string)
      requires Valid() && IsTextField(f) && f != ApplicantCountry && StepOf(Field(f)) == activeStep
      modifies this
      ensures Valid()
      ensures values == WithText(old(values), f, s)
      ensures activeStep == old(activeStep) && isSubmitting == old(isSubmitting) && errors == old(errors)
    {
      WithTextStaysInStep(values, f, s);
      if StepOf(Field(f)) == 1 {
        PersonalReadsOnlyPersonal(values, WithText(values, f, s), syn);
      }
      values := WithText(values, f, s);
    }

    /** Picking a country: its label, or "" when the choice is cleared. */
    method SelectCountry(choice: Option<string>)
      requires Valid() && activeStep == 0
      modifies this
      ensures Valid()
      ensures values == old(values).(applicantCountry := choice.GetOr(""))
      ensures activeStep == old(activeStep) && isSubmitting == old(isSubmitting) && errors == old(errors)
    {
      values := values.(applicantCountry := choice.GetOr(""));
    }

    /** Picking an option of one of the three catalog selects. */
    method SelectCatalogId(f: TopField, id: nat)
      requires Valid() && activeStep == 1 && f in {EmploymentTypeId, AvailabilityId, WorkModalityId}
      modifies this
      ensures Valid()
      ensures f == EmploymentTypeId ==> values == old(values).(employmentTypeId := id)
      ensures f == AvailabilityId ==> values == old(values).(availabilityId := id)
      ensures f == WorkModalityId ==> values == old(values).(workModalityId := id)
      ensures activeStep == old(activeStep) && isSubmitting == old(isSubmitting) && errors == old(errors)
    {
      var d := values;
      if f == EmploymentTypeId {
        d := d.(employmentTypeId := id);
      } else if f == AvailabilityId {
        d := d.(availabilityId := id);
      } else {
        d := d.(workModalityId := id);
      }
      PersonalReadsOnlyPersonal(values, d, syn);
      values := d;
    }

    /** Choosing a file for the CV: the first file picked, or null. */
    method ChooseCv(file: Option<CvFile>)
      requires Valid() && activeStep == 1
      modifies this
      ensures Valid()
      ensures values == old(values).(cv := file)
      ensures activeStep == old(activeStep) && isSubmitting == old(isSubmitting) && errors == old(errors)
    {
      PersonalReadsOnlyPersonal(values, values.(cv := file), syn);
      values := values.(cv := file);
    }

    /** Adds a blank education at the end. */
    method AddEducation()
      requires Valid() && activeStep == 2
      modifies this
      ensures Valid()
      ensures values == old(values).(educations := old(values).educations + [BlankEducation()])
      ensures activeStep == old(activeStep) && isSubmitting == old(isSubmitting) && errors == old(errors)
    {
      var d := values.(educations := values.educations + [BlankEducation()]);
      PersonalReadsOnlyPersonal(values, d, syn);
      JobReadsOnlyJob(values, d, passedIds, syn);
      values := d;
    }

    /** Removes education `i`; the first entry has no remove button. */
    method RemoveEducation(i: nat)
      requires Valid() && activeStep == 2 && 0 < i < |values.educations|
      modifies this
      ensures Valid()
      ensures values == old(values).(educations := KeepOthers(old(values).educations, i))
      ensures values.educations == old(values).educations[..i] + old(values).educations[i + 1..]
      ensures activeStep == old(activeStep) && isSubmitting == old(isSubmitting) && errors == old(errors)
    {
      KeepOthersCutsOut(values.educations, i);
      var d := values.(educations := KeepOthers(values.educations, i));
      PersonalReadsOnlyPersonal(values, d, syn);
      JobReadsOnlyJob(values, d, passedIds, syn);
      forall k | 0 <= k < |d.educations| && d.educations[k].isOngoing ensures NoEndDate(d.educations[k].endDate) {
        if k >= i {
          assert d.educations[k] == values.educations[k + 1];
        }
      }
      values := d;
    }

    /** Typing into a text field of education `i`; the end date only while the entry is not ongoing. */
    method EditEducation(i: nat, f: EducationField, s: string)
      requires Valid() && activeStep == 2 && i < |values.educations| && IsEducationText(f)
      requires f == EducationEndDate ==> !values.educations[i].isOngoing
      modifies this
      ensures Valid()
      ensures values == old(values).(educations :=
        old(values).educations[i := WithEducationText(old(values).educations[i], f, s)])
      ensures activeStep == old(activeStep) && isSubmitting == old(isSubmitting) && errors == old(errors)
    {
      var d := values.(educations := values.educations[i := WithEducationText(values.educations[i], f, s)]);
      PersonalReadsOnlyPersonal(values, d, syn);
      JobReadsOnlyJob(values, d, passedIds, syn);
      values := d;
    }

    /** Ticking or unticking "ongoing" on education `i`; ticking clears its end date. */
    method SetOngoing(i: nat, checked: bool)
      requires Valid() && activeStep == 2 && i < |values.educations|
      modifies this
      ensures Valid()
      ensures |values.educations| == |old(values).educations|
      ensures values.educations[i].isOngoing == checked
      ensures checked ==> values.educations[i].endDate == Some("")
      ensures !checked ==> values.educations[i].endDate == old(values).educations[i].endDate
      ensures values == old(values).(educations := values.educations)
      ensures forall k :: 0 <= k < |values.educations| && k != i ==> values.educations[k] == old(values).educations[k]
      ensures activeStep == old(activeStep) && isSubmitting == old(isSubmitting) && errors == old(errors)
    {
      var e := values.educations[i].(isOngoing := checked);
      if checked {
        e := e.(endDate := Some(""));
      }
      var d := values.(educations := values.educations[i := e]);
      PersonalReadsOnlyPersonal(values, d, syn);
      JobReadsOnlyJob(values, d, passedIds, syn);
      values := d;
    }

    /** Adds a blank experience at the end. */
    method AddExperience()
      requires Valid() && activeStep == 3
      modifies this
      ensures Valid()
      ensures values == old(values).(experiences := old(values).experiences + [BlankExperience()])
      ensures activeStep == old(activeStep) && isSubmitting == old(isSubmitting) && errors == old(errors)
    {
      var d := values.(experiences := values.experiences + [BlankExperience()]);
      PersonalReadsOnlyPersonal(values, d, syn);
      JobReadsOnlyJob(values, d, passedIds, syn);
      values := d;
    }

    /** Removes experience `i`; the first entry has no remove button. */
    method RemoveExperience(i: nat)
      requires Valid() && activeStep == 3 && 0 < i < |values.experiences|
      modifies this
      ensures Valid()
      ensures values == old(values).(experiences := KeepOthers(old(values).experiences, i))
      ensures values.experiences == old(values).experiences[..i] + old(values).experiences[i + 1..]
      ensures activeStep == old(activeStep) && isSubmitting == old(isSubmitting) && errors == old(errors)
    {
      KeepOthersCutsOut(values.experiences, i);
      var d := values.(experiences := KeepOthers(values.experiences, i));
      PersonalReadsOnlyPersonal(values, d, syn);
      JobReadsOnlyJob(values, d, passedIds, syn);
      forall k | 0 <= k < |d.experiences| && d.experiences[k].isCurrentJob ensures NoEndDate(d.experiences[k].endDate) {
        if k >= i {
          assert d.experiences[k] == values.experiences[k + 1];
        }
      }
      values := d;
    }

    /** Typing into a text field of experience `i`; the end date only while it is not the current job. */
    method EditExperience(i: nat, f: ExperienceField, s: string)
      requires Valid() && activeStep == 3 && i < |values.experiences| && IsExperienceText(f)
      requires f == ExperienceEndDate ==> !values.experiences[i].isCurrentJob
      modifies this
      ensures Valid()
      ensures values == old(values).(experiences :=
        old(values).experiences[i := WithExperienceText(old(values).experiences[i], f, s)])
      ensures activeStep == old(activeStep) && isSubmitting == old(isSubmitting) && errors == old(errors)
    {
      var d := values.(experiences := values.experiences[i := WithExperienceText(values.experiences[i], f, s)]);
      PersonalReadsOnlyPersonal(values, d, syn);
      JobReadsOnlyJob(values, d, passedIds, syn);
      values := d;
    }

    /** Ticking or unticking "current job" on experience `i`; ticking clears its end date. */
    method SetCurrentJob(i: nat, checked: bool)
      requires Valid() && activeStep == 3 && i < |values.experiences|
      modifies this
      ensures Valid()
      ensures |values.experiences| == |old(values).experiences|
      ensures values.experiences[i].isCurrentJob == checked
      ensures checked ==> values.experiences[i].endDate == Some("")
      ensures !checked ==> values.experiences[i].endDate == old(values).experiences[i].endDate
      ensures values == old(values).(experiences := values.experiences)
      ensures forall k :: 0 <= k < |values.experiences| && k != i ==> values.experiences[k] == old(values).experiences[k]
      ensures activeStep == old(activeStep) && isSubmitting == old(isSubmitting) && errors == old(errors)
    {
      var x := values.experiences[i].(isCurrentJob := checked);
      if checked {
        x := x.(endDate := Some(""));
      }
      var d := values.(experiences := values.experiences[i := x]);
      PersonalReadsOnlyPersonal(values, d, syn);
      JobReadsOnlyJob(values, d, passedIds, syn);
      values := d;
    }
  }
}
