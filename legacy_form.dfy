/**
 * The first version of the wizard: the same four steps over the static rule
 * set, starting with no entries, adding entries without the optional keys,
 * with no way to remove one, and posting each list whole as JSON.
 */
module LegacyApplicationWizard {
  import opened Wrappers
  import opened ApplicationTypes
  import opened StepValidation
  import opened StepValidationFacts
  import opened StaticValidation
  import opened InitialValues
  import opened FormDataEncoding
  import opened ApplicationWizard

  /** The education "add" appends: no `end_date` key. */
  function LegacyBlankEducation(): Education {
    Education(degree := "", institution := "", startDate := "", endDate := None, isOngoing := false)
  }

  /** The experience "add" appends: no `end_date`, `description` or `location` key. */
  function LegacyBlankExperience(): Experience {
    Experience(companyName := "", jobTitle := "", startDate := "", endDate := None,
               description := None, location := None, isCurrentJob := false)
  }

  /** The static step 2 verdict reads only the job fields. */
  lemma StaticJobReadsOnlyJob(d: Draft, d': Draft)
    requires SameJob(d, d')
    ensures StaticJobInfoViolations(d) == StaticJobInfoViolations(d')
  {
    forall v ensures v in StaticJobInfoViolations(d) <==> v in StaticJobInfoViolations(d') {
      if v.path.Field? {
        StaticJobInfoMembership(d, v.path.top, v.rule);
        StaticJobInfoMembership(d', v.path.top, v.rule);
      }
    }
  }

  class LegacyWizard {
    var activeStep: nat
    var isSubmitting: bool
    var values: Draft
    var errors: set<FieldPath>
    const syn: Syntax

    /** Every step behind the active one passed the static rules on the current values. */
    ghost predicate Valid()
      reads this
    {
      && activeStep < StepCount
      && (isSubmitting ==> activeStep == LastStep)
      && EndDatesCleared(values)
      && (activeStep > 0 ==> PersonalInfoViolations(values, syn) == {})
      && (activeStep > 1 ==> StaticJobInfoViolations(values) == {})
      && (activeStep > 2 ==> EducationsViolations(values.educations, syn, Unconditional) == {})
    }

    constructor (syn: Syntax)
      ensures Valid()
      ensures activeStep == 0 && !isSubmitting && values == ApplicationFormInitialValues() && errors == {}
      ensures this.syn == syn
    {
      activeStep := 0;
      isSubmitting := false;
      values := ApplicationFormInitialValues();
      errors := {};
      this.syn := syn;
    }

    /**
     * The submit button: the static rules of the active step decide whether
     * the wizard stays with errors, advances, or on the last step posts the
     * JSON-carrying body. A post happens only when all four steps passed.
     */
    method Submit() returns (outcome: SubmitOutcome)
      requires Valid() && !isSubmitting
      modifies this
      ensures Valid()
      ensures values == old(values)
      ensures var vs := StaticValidate(old(activeStep), old(values), syn);
        && (vs != {} ==> outcome == Blocked && errors == ErrorPaths(vs)
                         && activeStep == old(activeStep) && !isSubmitting)
        && (vs == {} ==> errors == {})
        && (vs == {} && old(activeStep) < LastStep ==>
              outcome == Advanced && activeStep == old(activeStep) + 1 && !isSubmitting)
        && (vs == {} && old(activeStep) == LastStep ==>
              outcome == Posting(LegacyFormDataOf(values)) && activeStep == LastStep && isSubmitting)
      ensures outcome.Posting? ==> forall s :: 0 <= s < StepCount ==> StaticValidate(s, values, syn) == {}
    {
      var vs := StaticValidate(activeStep, values, syn);
      if vs != {} {
        errors := ErrorPaths(vs);
        outcome := Blocked;
      } else {
        errors := {};
        if activeStep < LastStep {
          activeStep := activeStep + 1;
          outcome := Advanced;
        } else {
          isSubmitting := true;
          var body := BuildLegacyFormData(values);
          outcome := Posting(body);
        }
      }
    }

    /** The post settles: on success the form resets to the initial values and the first step. */
    method SettlePost(succeeded: bool)
      requires Valid() && isSubmitting
      modifies this
      ensures Valid() && !isSubmitting
      ensures succeeded ==> activeStep == 0 && values == ApplicationFormInitialValues() && errors == {}
      ensures !succeeded ==> activeStep == old(activeStep) && values == old(values) && errors == old(errors)
    {
      if succeeded {
        values := ApplicationFormInitialValues();
        errors := {};
        activeStep := 0;
      }
      isSubmitting := false;
    }

    method Back()
      requires Valid() && activeStep > 0 && !isSubmitting
      modifies this
      ensures Valid()
      ensures activeStep == old(activeStep) - 1
      ensures values == old(values) && errors == old(errors) && !isSubmitting
    {
      activeStep := activeStep - 1;
    }

    /** Typing into a text field of the step on screen; here the country is typed too. */
    method EditText(f: TopField, s: string)
      requires Valid() && IsTextField(f) && StepOf(Field(f)) == activeStep
      modifies this
      ensures Valid()
      ensures values == WithText(old(values), f, s)
      ensures activeStep == old(activeStep) && isSubmitting == old(isSubmitting) && errors == old(errors)
    {
      WithTextStaysInStep(values, f, s);
      if StepOf(Field(f)) == 1 {
        PersonalReadsOnlyPersonal(values, WithText(values, f, s), syn);
      }
      values := WithText(values, f, s);
    }

    /** Picking one of the fixed options of a select. */
    method SelectCatalogId(f: TopField, id: nat)
      requires Valid() && activeStep == 1 && f in {EmploymentTypeId, AvailabilityId, WorkModalityId}
      modifies this
      ensures Valid()
      ensures f == EmploymentTypeId ==> values == old(values).(employmentTypeId := id)
      ensures f == AvailabilityId ==> values == old(values).(availabilityId := id)
      ensures f == WorkModalityId ==> values == old(values).(workModalityId := id)
      ensures activeStep == old(activeStep) && isSubmitting == old(isSubmitting) && errors == old(errors)
    {
      var d := values;
      if f == EmploymentTypeId {
        d := d.(employmentTypeId := id);
      } else if f == AvailabilityId {
        d := d.(availabilityId := id);
      } else {
        d := d.(workModalityId := id);
      }
      PersonalReadsOnlyPersonal(values, d, syn);
      values := d;
    }

    method ChooseCv(file: Option<CvFile>)
      requires Valid() && activeStep == 1
      modifies this
      ensures Valid()
      ensures values == old(values).(cv := file)
      ensures activeStep == old(activeStep) && isSubmitting == old(isSubmitting) && errors == old(errors)
    {
      PersonalReadsOnlyPersonal(values, values.(cv := file), syn);
      values := values.(cv := file);
    }

    /** Appends an education without an end date. */
    method AddEducation()
      requires Valid() && activeStep == 2
      modifies this
      ensures Valid()
      ensures values == old(values).(educations := old(values).educations + [LegacyBlankEducation()])
      ensures activeStep == old(activeStep) && isSubmitting == old(isSubmitting) && errors == old(errors)
    {
      var d := values.(educations := values.educations + [LegacyBlankEducation()]);
      PersonalReadsOnlyPersonal(values, d, syn);
      StaticJobReadsOnlyJob(values, d);
      values := d;
    }

    method EditEducation(i: nat, f: EducationField, s: string)
      requires Valid() && activeStep == 2 && i < |values.educations| && IsEducationText(f)
      requires f == EducationEndDate ==> !values.educations[i].isOngoing
      modifies this
      ensures Valid()
      ensures values == old(values).(educations :=
        old(values).educations[i := WithEducationText(old(values).educations[i], f, s)])
      ensures activeStep == old(activeStep) && isSubmitting == old(isSubmitting) && errors == old(errors)
    {
      var d := values.(educations := values.educations[i := WithEducationText(values.educations[i], f, s)]);
      PersonalReadsOnlyPersonal(values, d, syn);
      StaticJobReadsOnlyJob(values, d);
      values := d;
    }

    /** Ticking "ongoing" clears the end date to "". */
    method SetOngoing(i: nat, checked: bool)
      requires Valid() && activeStep == 2 && i < |values.educations|
      modifies this
      ensures Valid()
      ensures |values.educations| == |old(values).educations|
      ensures values.educations[i].isOngoing == checked
      ensures checked ==> values.educations[i].endDate == Some("")
      ensures !checked ==> values.educations[i].endDate == old(values).educations[i].endDate
      ensures values == old(values).(educations := values.educations)
      ensures forall k :: 0 <= k < |values.educations| && k != i ==> values.educations[k] == old(values).educations[k]
      ensures activeStep == old(activeStep) && isSubmitting == old(isSubmitting) && errors == old(errors)
    {
      var e := values.educations[i].(isOngoing := checked);
      if checked {
        e := e.(endDate := Some(""));
      }
      var d := values.(educations := values.educations[i := e]);
      PersonalReadsOnlyPersonal(values, d, syn);
      StaticJobReadsOnlyJob(values, d);
      values := d;
    }

    /** Appends an experience without end date, description or location. */
    method AddExperience()
      requires Valid() && activeStep == 3
      modifies this
      ensures Valid()
      ensures values == old(values).(experiences := old(values).experiences + [LegacyBlankExperience()])
      ensures activeStep == old(activeStep) && isSubmitting == old(isSubmitting) && errors == old(errors)
    {
      var d := values.(experiences := values.experiences + [LegacyBlankExperience()]);
      PersonalReadsOnlyPersonal(values, d, syn);
      StaticJobReadsOnlyJob(values, d);
      values := d;
    }

    method EditExperience(i: nat, f: ExperienceField, s: string)
      requires Valid() && activeStep == 3 && i < |values.experiences| && IsExperienceText(f)
      requires f == ExperienceEndDate ==> !values.experiences[i].isCurrentJob
      modifies this
      ensures Valid()
      ensures values == old(values).(experiences :=
        old(values).experiences[i := WithExperienceText(old(values).experiences[i], f, s)])
      ensures activeStep == old(activeStep) && isSubmitting == old(isSubmitting) && errors == old(errors)
    {
      var d := values.(experiences := values.experiences[i := WithExperienceText(values.experiences[i], f, s)]);
      PersonalReadsOnlyPersonal(values, d, syn);
      StaticJobReadsOnlyJob(values, d);
      values := d;
    }

    /** Ticking "current job" clears the end date to "". */
    method SetCurrentJob(i: nat, checked: bool)
      requires Valid() && activeStep == 3 && i < |values.experiences|
      modifies this
      ensures Valid()
      ensures |values.experiences| == |old(values).experiences|
      ensures values.experiences[i].isCurrentJob == checked
      ensures checked ==> values.experiences[i].endDate == Some("")
      ensures !checked ==> values.experiences[i].endDate == old(values).experiences[i].endDate
      ensures values == old(values).(experiences := values.experiences)
      ensures forall k :: 0 <= k < |values.experiences| && k != i ==> values.experiences[k] == old(values).experiences[k]
      ensures activeStep == old(activeStep) && isSubmitting == old(isSubmitting) && errors == old(errors)
    {
      var x := values.experiences[i].(isCurrentJob := checked);
      if checked {
        x := x.(endDate := Some(""));
      }
      var d := values.(experiences := values.experiences[i := x]);
      PersonalReadsOnlyPersonal(values, d, syn);
      StaticJobReadsOnlyJob(values, d);
      values := d;
    }
  }
}
