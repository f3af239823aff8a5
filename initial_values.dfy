/**
 * The values each version of the wizard starts from: the shared initial
 * values (every text empty, every catalog id "1", no CV, no entries), and the
 * newer wizard's adjustment that starts with one blank education and one
 * blank experience.
 */
module InitialValues {
  import opened Wrappers
  import opened ApplicationTypes
  import opened StepValidation
  import opened StepValidationFacts
  import opened StaticValidation

  /** The id the selects start with. */
  const InitialCatalogId: nat := 1

  function ApplicationFormInitialValues(): Draft {
    Draft(
      jobTitle := "", companyName := "", employmentTypeId := InitialCatalogId,
      applicantNames := "", applicantLastNames := "", applicantEmail := "", applicantPhone := "",
      applicantLinkedin := Some(""), applicantPortfolioLink := Some(""),
      applicantCountry := "", applicantCity := "", applicantAddress := "",
      cv := None, monthlyExpectedSalary := "",
      availabilityId := InitialCatalogId, workModalityId := InitialCatalogId,
      educations := [], experiences := [])
  }

  /** The education the newer wizard starts with and appends. */
  function BlankEducation(): Education {
    Education(degree := "", institution := "", startDate := "", endDate := Some(""), isOngoing := false)
  }

  /** The experience the newer wizard starts with and appends. */
  function BlankExperience(): Experience {
    Experience(companyName := "", jobTitle := "", startDate := "", endDate := Some(""),
               description := Some(""), location := Some(""), isCurrentJob := false)
  }

  function AdjustedInitialValues(): Draft {
    ApplicationFormInitialValues().(educations := [BlankEducation()], experiences := [BlankExperience()])
  }

  /**
   * On the untouched newer form, step 1 reports exactly the seven required
   * personal fields; the empty links pass.
   */
  lemma AdjustedPersonalStep(ids: ValidIds, syn: Syntax, gate: EndDateGate)
    ensures Validate(0, AdjustedInitialValues(), ids, syn, gate) ==
      set f | f in {ApplicantNames, ApplicantLastNames, ApplicantEmail, ApplicantPhone,
                    ApplicantCountry, ApplicantCity, ApplicantAddress} :: Violation(Field(f), Required)
  {
    var d := AdjustedInitialValues();
    var expected := set f | f in {ApplicantNames, ApplicantLastNames, ApplicantEmail, ApplicantPhone,
                                  ApplicantCountry, ApplicantCity, ApplicantAddress} :: Violation(Field(f), Required);
    forall v ensures v in Validate(0, d, ids, syn, gate) <==> v in expected {
      PersonalInfoOwnsItsPaths(d, syn);
      if v.path.Field? {
        PersonalInfoMembership(d, syn, v.path.top, v.rule);
      }
    }
  }

  /** The rules each job field breaks on the untouched form. */
  lemma InitialJobRules(ids: ValidIds, syn: Syntax, f: TopField)
    ensures JobInfoRules(AdjustedInitialValues(), ids, syn, f) ==
      match f
      case JobTitle | CompanyName | MonthlyExpectedSalary | Cv => {Required}
      case EmploymentTypeId => if InitialCatalogId in ids.employmentTypeIds then {} else {OneOf}
      case AvailabilityId => if InitialCatalogId in ids.availabilityIds then {} else {OneOf}
      case WorkModalityId => if InitialCatalogId in ids.workModalityIds then {} else {OneOf}
      case _ => {}
  {
  }

  /**
   * On the untouched newer form, step 2 reports the empty job title and
   * company, the empty salary (only as required) and the missing
   * CV; a catalog id is flagged exactly when the catalog has no id 1.
   */
  lemma AdjustedJobStep(ids: ValidIds, syn: Syntax, gate: EndDateGate)
    ensures Validate(1, AdjustedInitialValues(), ids, syn, gate) ==
      {Violation(Field(JobTitle), Required), Violation(Field(CompanyName), Required),
       Violation(Field(MonthlyExpectedSalary), Required), Violation(Field(Cv), Required)}
      + (if InitialCatalogId in ids.employmentTypeIds then {} else {Violation(Field(EmploymentTypeId), OneOf)})
      + (if InitialCatalogId in ids.availabilityIds then {} else {Violation(Field(AvailabilityId), OneOf)})
      + (if InitialCatalogId in ids.workModalityIds then {} else {Violation(Field(WorkModalityId), OneOf)})
  {
    var d := AdjustedInitialValues();
    var expected :=
      {Violation(Field(JobTitle), Required), Violation(Field(CompanyName), Required),
       Violation(Field(MonthlyExpectedSalary), Required), Violation(Field(Cv), Required)}
      + (if InitialCatalogId in ids.employmentTypeIds then {} else {Violation(Field(EmploymentTypeId), OneOf)})
      + (if InitialCatalogId in ids.availabilityIds then {} else {Violation(Field(AvailabilityId), OneOf)})
      + (if InitialCatalogId in ids.workModalityIds then {} else {Violation(Field(WorkModalityId), OneOf)});
    forall v ensures v in Validate(1, d, ids, syn, gate) <==> v in expected {
      if v.path.Field? {
        JobInfoMembership(d, ids, syn, v.path.top, v.rule);
        InitialJobRules(ids, syn, v.path.top);
      } else {
        JobInfoOwnsItsPaths(d, ids, syn);
      }
    }
  }

  /** The newer form's first education starts blank: exactly its required texts and start date are reported. */
  lemma AdjustedEducationStep(ids: ValidIds, syn: Syntax, gate: EndDateGate)
    ensures Validate(2, AdjustedInitialValues(), ids, syn, gate) ==
      {Violation(EducationPath(0, EducationDegree), Required),
       Violation(EducationPath(0, EducationInstitution), Required),
       Violation(EducationPath(0, EducationStartDate), Required)}
  {
    var d := AdjustedInitialValues();
    forall v ensures v in Validate(2, d, ids, syn, gate) <==>
      v in {Violation(EducationPath(0, EducationDegree), Required),
            Violation(EducationPath(0, EducationInstitution), Required),
            Violation(EducationPath(0, EducationStartDate), Required)}
    {
      EducationsMembership(d.educations, syn, gate, v);
      if v.path.EducationPath? && v.path.index == 0 {
        EducationMembership(0, BlankEducation(), syn, gate, v.path.educationField, v.rule);
      }
    }
  }

  /** The newer form's first experience starts blank: exactly its required texts and start date are reported. */
  lemma AdjustedExperienceStep(ids: ValidIds, syn: Syntax, gate: EndDateGate)
    ensures Validate(3, AdjustedInitialValues(), ids, syn, gate) ==
      {Violation(ExperiencePath(0, ExperienceCompanyName), Required),
       Violation(ExperiencePath(0, ExperienceJobTitle), Required),
       Violation(ExperiencePath(0, ExperienceStartDate), Required)}
  {
    var d := AdjustedInitialValues();
    forall v ensures v in Validate(3, d, ids, syn, gate) <==>
      v in {Violation(ExperiencePath(0, ExperienceCompanyName), Required),
            Violation(ExperiencePath(0, ExperienceJobTitle), Required),
            Violation(ExperiencePath(0, ExperienceStartDate), Required)}
    {
      ExperiencesMembership(d.experiences, syn, gate, v);
      if v.path.ExperiencePath? && v.path.index == 0 {
        ExperienceMembership(0, BlankExperience(), syn, gate, v.path.experienceField, v.rule);
      }
    }
  }

  /**
   * The newer form's first education and first experience start blank: the
   * list minimum holds, and exactly the entry's required texts and start
   * date are reported.
   */
  lemma AdjustedEntrySteps(ids: ValidIds, syn: Syntax, gate: EndDateGate)
    ensures Validate(2, AdjustedInitialValues(), ids, syn, gate) ==
      {Violation(EducationPath(0, EducationDegree), Required),
       Violation(EducationPath(0, EducationInstitution), Required),
       Violation(EducationPath(0, EducationStartDate), Required)}
    ensures Validate(3, AdjustedInitialValues(), ids, syn, gate) ==
      {Violation(ExperiencePath(0, ExperienceCompanyName), Required),
       Violation(ExperiencePath(0, ExperienceJobTitle), Required),
       Violation(ExperiencePath(0, ExperienceStartDate), Required)}
  {
    AdjustedEducationStep(ids, syn, gate);
    AdjustedExperienceStep(ids, syn, gate);
  }

  /**
   * The first version of the form starts with no entries, so its steps 3 and
   * 4 fail on the list minimum until an entry is added.
   */
  lemma InitialListsNeedAnEntry(syn: Syntax)
    ensures Violation(Field(Educations), MinItems) in StaticValidate(2, ApplicationFormInitialValues(), syn)
    ensures Violation(Field(Experiences), MinItems) in StaticValidate(3, ApplicationFormInitialValues(), syn)
  {
    StaticListsNeedOneEntry(ApplicationFormInitialValues(), syn);
  }
}
