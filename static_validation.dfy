/**
 * The older, static rule set of the first version of the form. Steps 1, 3
 * and 4 use the same field rules as the per-step validator, except that the
 * end-date ordering test applies to every entry; step 2 only requires the
 * catalog ids, checks the salary against the pattern alone, and its CV tests
 * fail on a missing file.
 */
module StaticValidation {
  import opened Wrappers
  import opened ApplicationTypes
  import opened StepValidation
  import opened StepValidationFacts

  /** `string().matches(^\d+(\.\d{1,2})?$).required()`: no range tests; an empty field is only required. */
  function StaticSalaryRules(s: string): set<Rule> {
    When(s == "", Required) + When(s != "" && !SalaryMatches(s), SalaryPattern)
  }

  /** `mixed().required()` plus type and size tests written as `value && ...`, which a missing file fails. */
  function StaticCvRules(cv: Option<CvFile>): set<Rule> {
    match cv
    case None => {Required, FileType, FileSize}
    case Some(f) => When(f.mimeType != PdfMimeType, FileType) + When(f.size > MaxCvBytes, FileSize)
  }

  /** Step 2 of the static rule set; the catalog ids are only required, and a select always holds one. */
  function StaticJobInfoRules(d: Draft, f: TopField): set<Rule> {
    match f
    case JobTitle => TextRules(d.jobTitle, MaxTextLength)
    case CompanyName => TextRules(d.companyName, MaxTextLength)
    case MonthlyExpectedSalary => StaticSalaryRules(d.monthlyExpectedSalary)
    case Cv => StaticCvRules(d.cv)
    case _ => {}
  }

  function StaticJobInfoViolations(d: Draft): set<Violation> {
    set f, r | f in JobInfoFields && r in StaticJobInfoRules(d, f) :: Violation(Field(f), r)
  }

  /** The static rule set of `step`; no catalog is consulted. */
  function StaticValidate(step: nat, d: Draft, syn: Syntax): set<Violation>
    requires step < StepCount
  {
    if step == 0 then PersonalInfoViolations(d, syn)
    else if step == 1 then StaticJobInfoViolations(d)
    else if step == 2 then EducationsViolations(d.educations, syn, Unconditional)
    else ExperiencesViolations(d.experiences, syn, Unconditional)
  }

  lemma StaticJobInfoMembership(d: Draft, f: TopField, r: Rule)
    ensures Violation(Field(f), r) in StaticJobInfoViolations(d) <==> r in StaticJobInfoRules(d, f)
  {
    if r in StaticJobInfoRules(d, f) {
      assert f in JobInfoFields;
    }
  }

  /** The personal-information step is the same in both rule sets. */
  lemma StaticPersonalStepAgrees(d: Draft, ids: ValidIds, syn: Syntax, gate: EndDateGate)
    ensures StaticValidate(0, d, syn) == Validate(0, d, ids, syn, gate)
  {
  }

  /**
   * In step 2 the static rule set never flags a catalog id, and the text
   * fields break the same rules as in the per-step validator.
   */
  lemma StaticJobStep(d: Draft, ids: ValidIds, syn: Syntax, gate: EndDateGate)
    ensures var vs := StaticValidate(1, d, syn);
      && !Flagged(vs, Field(EmploymentTypeId))
      && !Flagged(vs, Field(AvailabilityId))
      && !Flagged(vs, Field(WorkModalityId))
      && (forall f, r :: f in {JobTitle, CompanyName} ==>
            (Violation(Field(f), r) in vs <==> Violation(Field(f), r) in Validate(1, d, ids, syn, gate)))
  {
    forall r ensures Violation(Field(EmploymentTypeId), r) !in StaticValidate(1, d, syn)
      && Violation(Field(AvailabilityId), r) !in StaticValidate(1, d, syn)
      && Violation(Field(WorkModalityId), r) !in StaticValidate(1, d, syn)
    {
      StaticJobInfoMembership(d, EmploymentTypeId, r);
      StaticJobInfoMembership(d, AvailabilityId, r);
      StaticJobInfoMembership(d, WorkModalityId, r);
    }
    forall f, r | f in {JobTitle, CompanyName}
      ensures Violation(Field(f), r) in StaticValidate(1, d, syn) <==> Violation(Field(f), r) in Validate(1, d, ids, syn, gate)
    {
      StaticJobInfoMembership(d, f, r);
      JobInfoMembership(d, ids, syn, f, r);
    }
  }

  /**
   * The static salary check is the pattern alone: a salary is flagged
   * exactly when it does not match, an empty one only as required, so an
   * amount above 9999999999.99 passes here and fails the per-step validator.
   */
  lemma StaticSalaryVerdict(d: Draft, ids: ValidIds, syn: Syntax, gate: EndDateGate)
    ensures var s := d.monthlyExpectedSalary;
      && (Flagged(StaticValidate(1, d, syn), Field(MonthlyExpectedSalary)) <==> !SalaryMatches(s))
      && (s == "" ==> forall r :: Violation(Field(MonthlyExpectedSalary), r) in StaticValidate(1, d, syn) <==> r == Required)
      && (SalaryMatches(s) && SalaryCents(s) > MaxSalaryCents ==>
            !Flagged(StaticValidate(1, d, syn), Field(MonthlyExpectedSalary))
            && Violation(Field(MonthlyExpectedSalary), MaxValue) in Validate(1, d, ids, syn, gate))
  {
    var s := d.monthlyExpectedSalary;
    forall r ensures Violation(Field(MonthlyExpectedSalary), r) in StaticValidate(1, d, syn) <==> r in StaticSalaryRules(s) {
      StaticJobInfoMembership(d, MonthlyExpectedSalary, r);
    }
    if s == "" {
      assert StaticSalaryRules(s) == {Required};
    } else if !SalaryMatches(s) {
      assert SalaryPattern in StaticSalaryRules(s);
    }
    if SalaryMatches(s) && SalaryCents(s) > MaxSalaryCents {
      SalaryVerdict(d, ids, syn, gate);
      JobInfoMembership(d, ids, syn, MonthlyExpectedSalary, MaxValue);
      assert s != "";
      assert MaxValue in SalaryRules(s, syn);
    }
  }

  /**
   * The static CV check flags a missing file under all three rules, where
   * the per-step validator reports only that it is required; a present file
   * is judged the same way by both.
   */
  lemma StaticCvVerdict(d: Draft, ids: ValidIds, syn: Syntax, gate: EndDateGate)
    ensures d.cv.None? ==> forall r :: Violation(Field(Cv), r) in StaticValidate(1, d, syn) <==> r in {Required, FileType, FileSize}
    ensures d.cv.Some? ==> forall r ::
      Violation(Field(Cv), r) in StaticValidate(1, d, syn) <==> Violation(Field(Cv), r) in Validate(1, d, ids, syn, gate)
  {
    forall r ensures Violation(Field(Cv), r) in StaticValidate(1, d, syn) <==> r in StaticCvRules(d.cv) {
      StaticJobInfoMembership(d, Cv, r);
    }
    forall r ensures Violation(Field(Cv), r) in Validate(1, d, ids, syn, gate) <==> r in CvRules(d.cv) {
      JobInfoMembership(d, ids, syn, Cv, r);
    }
  }

  /**
   * The static rule set orders every education's end date after its start,
   * whether or not the entry is ongoing.
   */
  lemma StaticOrdersEveryEducation(d: Draft, syn: Syntax, i: nat)
    requires i < |d.educations|
    ensures var e := d.educations[i];
      PresentDate(e.endDate, syn) ==>
        (Violation(EducationPath(i, EducationEndDate), AfterOrEqualStart) in StaticValidate(2, d, syn) <==>
           !EndNotBeforeStart(syn.dateOf(e.endDate.value).value, e.startDate, syn))
  {
    EducationEndDateGating(d, ValidIds([], [], []), syn, Unconditional, i);
  }

  /** The same for every experience, current or not. */
  lemma StaticOrdersEveryExperience(d: Draft, syn: Syntax, i: nat)
    requires i < |d.experiences|
    ensures var x := d.experiences[i];
      PresentDate(x.endDate, syn) ==>
        (Violation(ExperiencePath(i, ExperienceEndDate), AfterOrEqualStart) in StaticValidate(3, d, syn) <==>
           !EndNotBeforeStart(syn.dateOf(x.endDate.value).value, x.startDate, syn))
  {
    ExperienceEndDateGating(d, ValidIds([], [], []), syn, Unconditional, i);
  }

  /** Both rule sets demand at least one education and one experience. */
  lemma StaticListsNeedOneEntry(d: Draft, syn: Syntax)
    ensures Violation(Field(Educations), MinItems) in StaticValidate(2, d, syn) <==> |d.educations| == 0
    ensures Violation(Field(Experiences), MinItems) in StaticValidate(3, d, syn) <==> |d.experiences| == 0
  {
    EducationsMembership(d.educations, syn, Unconditional, Violation(Field(Educations), MinItems));
    ExperiencesMembership(d.experiences, syn, Unconditional, Violation(Field(Experiences), MinItems));
  }
}
