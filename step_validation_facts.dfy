/** What the per-step rule sets promise, stated over the whole draft. */
module StepValidationFacts {
  import opened Wrappers
  import opened Text
  import opened ApplicationTypes
  import opened StepValidation

  /** Some rule is broken at path `p`: Formik shows a message there. */
  predicate Flagged(vs: set<Violation>, p: FieldPath) {
    exists r :: Violation(p, r) in vs
  }

  lemma FlaggedIsErrorPath(vs: set<Violation>, p: FieldPath)
    ensures p in ErrorPaths(vs) <==> Flagged(vs, p)
  {
    if p in ErrorPaths(vs) {
      var v :| v in vs && v.path == p;
      assert Violation(p, v.rule) == v;
    }
  }

  /** Every violation of entry `i` is reported under index `i`. */
  lemma EducationViolationsIndexed(i: nat, e: Education, syn: Syntax, gate: EndDateGate)
    ensures forall v :: v in EducationViolations(i, e, syn, gate) ==> v.path.EducationPath? && v.path.index == i
  {
  }

  lemma ExperienceViolationsIndexed(i: nat, x: Experience, syn: Syntax, gate: EndDateGate)
    ensures forall v :: v in ExperienceViolations(i, x, syn, gate) ==> v.path.ExperiencePath? && v.path.index == i
  {
  }

  /** A violation of the education list is the minimum-one rule or a rule of the entry it indexes. */
  lemma EducationsMembership(es: seq<Education>, syn: Syntax, gate: EndDateGate, v: Violation)
    ensures v in EducationsViolations(es, syn, gate) <==>
      (|es| == 0 && v == Violation(Field(Educations), MinItems))
      || (v.path.EducationPath? && v.path.index < |es|
          && v in EducationViolations(v.path.index, es[v.path.index], syn, gate))
  {
    if v in EducationsViolations(es, syn, gate) && v.path != Field(Educations) {
      var i: nat :| i < |es| && v in EducationViolations(i, es[i], syn, gate);
      EducationViolationsIndexed(i, es[i], syn, gate);
    }
  }

  lemma ExperiencesMembership(xs: seq<Experience>, syn: Syntax, gate: EndDateGate, v: Violation)
    ensures v in ExperiencesViolations(xs, syn, gate) <==>
      (|xs| == 0 && v == Violation(Field(Experiences), MinItems))
      || (v.path.ExperiencePath? && v.path.index < |xs|
          && v in ExperienceViolations(v.path.index, xs[v.path.index], syn, gate))
  {
    if v in ExperiencesViolations(xs, syn, gate) && v.path != Field(Experiences) {
      var i: nat :| i < |xs| && v in ExperienceViolations(i, xs[i], syn, gate);
      ExperienceViolationsIndexed(i, xs[i], syn, gate);
    }
  }

  lemma PersonalInfoOwnsItsPaths(d: Draft, syn: Syntax)
    ensures forall v :: v in PersonalInfoViolations(d, syn) ==> StepOf(v.path) == 0
  {
  }

  lemma JobInfoOwnsItsPaths(d: Draft, ids: ValidIds, syn: Syntax)
    ensures forall v :: v in JobInfoViolations(d, ids, syn) ==> StepOf(v.path) == 1
  {
  }

  /** Validating step k never flags a field that another step owns. */
  lemma ValidateReportsOnlyOwnStep(step: nat, d: Draft, ids: ValidIds, syn: Syntax, gate: EndDateGate)
    requires step < StepCount
    ensures forall v :: v in Validate(step, d, ids, syn, gate) ==> StepOf(v.path) == step
  {
    if step == 0 {
      PersonalInfoOwnsItsPaths(d, syn);
    } else if step == 1 {
      JobInfoOwnsItsPaths(d, ids, syn);
    } else {
      forall v | v in Validate(step, d, ids, syn, gate)
        ensures StepOf(v.path) == step
      {
        if step == 2 {
          EducationsMembership(d.educations, syn, gate, v);
        } else {
          ExperiencesMembership(d.experiences, syn, gate, v);
        }
      }
    }
  }

  /** Membership in step 1's verdict is membership in the field's rules. */
  lemma PersonalInfoMembership(d: Draft, syn: Syntax, f: TopField, r: Rule)
    ensures Violation(Field(f), r) in PersonalInfoViolations(d, syn) <==> r in PersonalInfoRules(d, syn, f)
  {
    if r in PersonalInfoRules(d, syn, f) {
      assert f in PersonalInfoFields;
    }
  }

  lemma JobInfoMembership(d: Draft, ids: ValidIds, syn: Syntax, f: TopField, r: Rule)
    ensures Violation(Field(f), r) in JobInfoViolations(d, ids, syn) <==> r in JobInfoRules(d, ids, syn, f)
  {
    if r in JobInfoRules(d, ids, syn, f) {
      assert f in JobInfoFields;
    }
  }

  lemma EducationMembership(i: nat, e: Education, syn: Syntax, gate: EndDateGate, f: EducationField, r: Rule)
    ensures Violation(EducationPath(i, f), r) in EducationViolations(i, e, syn, gate) <==> r in EducationRules(e, syn, gate, f)
  {
    if r in EducationRules(e, syn, gate, f) {
      assert f in EducationFields;
    }
  }

  lemma ExperienceMembership(i: nat, x: Experience, syn: Syntax, gate: EndDateGate, f: ExperienceField, r: Rule)
    ensures Violation(ExperiencePath(i, f), r) in ExperienceViolations(i, x, syn, gate) <==> r in ExperienceRules(x, syn, gate, f)
  {
    if r in ExperienceRules(x, syn, gate, f) {
      assert f in ExperienceFields;
    }
  }

  /** The text of a field that step 1 requires, with its length ceiling. */
  function RequiredPersonalText(d: Draft, f: TopField): Option<(string, nat)> {
    match f
    case ApplicantNames => Some((d.applicantNames, MaxTextLength))
    case ApplicantLastNames => Some((d.applicantLastNames, MaxTextLength))
    case ApplicantEmail => Some((d.applicantEmail, MaxTextLength))
    case ApplicantPhone => Some((d.applicantPhone, MaxPhoneLength))
    case ApplicantCountry => Some((d.applicantCountry, MaxTextLength))
    case ApplicantCity => Some((d.applicantCity, MaxTextLength))
    case ApplicantAddress => Some((d.applicantAddress, MaxTextLength))
    case _ => None
  }

  /**
   * Each required personal field rejects "" and is capped at 255 characters,
   * the phone at 20.
   */
  lemma PersonalRequiredText(d: Draft, ids: ValidIds, syn: Syntax, gate: EndDateGate, f: TopField)
    requires RequiredPersonalText(d, f).Some?
    ensures var (text, ceiling) := RequiredPersonalText(d, f).value;
      && (Violation(Field(f), Required) in Validate(0, d, ids, syn, gate) <==> text == "")
      && (Violation(Field(f), MaxLength) in Validate(0, d, ids, syn, gate) <==> |text| > ceiling)
      && (ceiling == MaxPhoneLength <==> f == ApplicantPhone)
  {
    PersonalInfoMembership(d, syn, f, Required);
    PersonalInfoMembership(d, syn, f, MaxLength);
  }

  /** The e-mail must be well-formed unless it is empty (then it is only missing). */
  lemma EmailSyntaxChecked(d: Draft, ids: ValidIds, syn: Syntax, gate: EndDateGate)
    ensures Violation(Field(ApplicantEmail), EmailSyntax) in Validate(0, d, ids, syn, gate)
      <==> d.applicantEmail != "" && !syn.isEmail(d.applicantEmail)
  {
    PersonalInfoMembership(d, syn, ApplicantEmail, EmailSyntax);
  }

  /** A present link is checked for URL syntax (when non-empty) and length. */
  predicate LinkBroken(o: Option<string>, syn: Syntax) {
    o.Some? && ((o.value != "" && !syn.isUrl(o.value)) || |o.value| > MaxTextLength)
  }

  /**
   * LinkedIn and portfolio may be null or empty; a present value must be a
   * URL of at most 255 characters; neither is ever required.
   */
  lemma OptionalLinks(d: Draft, ids: ValidIds, syn: Syntax, gate: EndDateGate)
    ensures var vs := Validate(0, d, ids, syn, gate);
      && Violation(Field(ApplicantLinkedin), Required) !in vs
      && Violation(Field(ApplicantPortfolioLink), Required) !in vs
      && (Flagged(vs, Field(ApplicantLinkedin)) <==> LinkBroken(d.applicantLinkedin, syn))
      && (Flagged(vs, Field(ApplicantPortfolioLink)) <==> LinkBroken(d.applicantPortfolioLink, syn))
  {
    forall f, r | f in {ApplicantLinkedin, ApplicantPortfolioLink}
      ensures Violation(Field(f), r) in Validate(0, d, ids, syn, gate) <==> r in PersonalInfoRules(d, syn, f)
    {
      PersonalInfoMembership(d, syn, f, r);
    }
    var l := d.applicantLinkedin;
    if LinkBroken(l, syn) {
      if |l.value| > MaxTextLength {
        assert MaxLength in PersonalInfoRules(d, syn, ApplicantLinkedin);
      } else {
        assert UrlSyntax in PersonalInfoRules(d, syn, ApplicantLinkedin);
      }
    }
    var p := d.applicantPortfolioLink;
    if LinkBroken(p, syn) {
      if |p.value| > MaxTextLength {
        assert MaxLength in PersonalInfoRules(d, syn, ApplicantPortfolioLink);
      } else {
        assert UrlSyntax in PersonalInfoRules(d, syn, ApplicantPortfolioLink);
      }
    }
  }

  /** Job title and company name are required and capped at 255 characters. */
  lemma JobRequiredText(d: Draft, ids: ValidIds, syn: Syntax, gate: EndDateGate)
    ensures var vs := Validate(1, d, ids, syn, gate);
      && (Violation(Field(JobTitle), Required) in vs <==> d.jobTitle == "")
      && (Violation(Field(JobTitle), MaxLength) in vs <==> |d.jobTitle| > MaxTextLength)
      && (Violation(Field(CompanyName), Required) in vs <==> d.companyName == "")
      && (Violation(Field(CompanyName), MaxLength) in vs <==> |d.companyName| > MaxTextLength)
  {
    JobInfoMembership(d, ids, syn, JobTitle, Required);
    JobInfoMembership(d, ids, syn, JobTitle, MaxLength);
    JobInfoMembership(d, ids, syn, CompanyName, Required);
    JobInfoMembership(d, ids, syn, CompanyName, MaxLength);
  }

  /** A catalog-id field is flagged exactly when its id is not among the supplied ids. */
  lemma CatalogMembershipDecides(d: Draft, ids: ValidIds, syn: Syntax, gate: EndDateGate)
    ensures var vs := Validate(1, d, ids, syn, gate);
      && (Flagged(vs, Field(EmploymentTypeId)) <==> d.employmentTypeId !in ids.employmentTypeIds)
      && (Flagged(vs, Field(AvailabilityId)) <==> d.availabilityId !in ids.availabilityIds)
      && (Flagged(vs, Field(WorkModalityId)) <==> d.workModalityId !in ids.workModalityIds)
  {
    forall f, r | f in {EmploymentTypeId, AvailabilityId, WorkModalityId}
      ensures Violation(Field(f), r) in Validate(1, d, ids, syn, gate) <==> r in JobInfoRules(d, ids, syn, f)
    {
      JobInfoMembership(d, ids, syn, f, r);
    }
    assert d.employmentTypeId !in ids.employmentTypeIds ==> OneOf in JobInfoRules(d, ids, syn, EmploymentTypeId);
    assert d.availabilityId !in ids.availabilityIds ==> OneOf in JobInfoRules(d, ids, syn, AvailabilityId);
    assert d.workModalityId !in ids.workModalityIds ==> OneOf in JobInfoRules(d, ids, syn, WorkModalityId);
  }

  /**
   * Re-validating the same draft after the employment-type catalog gains its
   * id removes exactly the "select a valid option" error and nothing else.
   */
  lemma CatalogUpdateChangesVerdict(d: Draft, ids: ValidIds, ids': ValidIds, syn: Syntax, gate: EndDateGate)
    requires d.employmentTypeId !in ids.employmentTypeIds && d.employmentTypeId in ids'.employmentTypeIds
    requires ids'.availabilityIds == ids.availabilityIds && ids'.workModalityIds == ids.workModalityIds
    ensures Violation(Field(EmploymentTypeId), OneOf) in Validate(1, d, ids, syn, gate)
    ensures Validate(1, d, ids', syn, gate) == Validate(1, d, ids, syn, gate) - {Violation(Field(EmploymentTypeId), OneOf)}
  {
    JobInfoMembership(d, ids, syn, EmploymentTypeId, OneOf);
    forall v | v in Validate(1, d, ids', syn, gate)
      ensures v in Validate(1, d, ids, syn, gate) - {Violation(Field(EmploymentTypeId), OneOf)}
    {
      JobInfoOwnsItsPaths(d, ids', syn);
      JobInfoMembership(d, ids', syn, v.path.top, v.rule);
      JobInfoMembership(d, ids, syn, v.path.top, v.rule);
    }
    forall v | v in Validate(1, d, ids, syn, gate) - {Violation(Field(EmploymentTypeId), OneOf)}
      ensures v in Validate(1, d, ids', syn, gate)
    {
      JobInfoOwnsItsPaths(d, ids, syn);
      JobInfoMembership(d, ids', syn, v.path.top, v.rule);
      JobInfoMembership(d, ids, syn, v.path.top, v.rule);
    }
  }

  /**
   * The salary is flagged exactly when it does not match the pattern or
   * exceeds 9999999999.99; an empty salary is only required. On matching
   * text the minimum test never fails, since no matching text is negative;
   * on other text both range tests still run, and each fails exactly when
   * `parseFloat` gives NaN or a number on its wrong side.
   */
  lemma SalaryVerdict(d: Draft, ids: ValidIds, syn: Syntax, gate: EndDateGate)
    ensures var vs := Validate(1, d, ids, syn, gate); var s := d.monthlyExpectedSalary;
      && (Flagged(vs, Field(MonthlyExpectedSalary)) <==> !SalaryMatches(s) || SalaryCents(s) > MaxSalaryCents)
      && (s == "" ==> forall r :: Violation(Field(MonthlyExpectedSalary), r) in vs <==> r == Required)
      && (SalaryMatches(s) ==> Violation(Field(MonthlyExpectedSalary), MinValue) !in vs)
      && (s != "" && !SalaryMatches(s) ==>
            && (Violation(Field(MonthlyExpectedSalary), MinValue) in vs <==>
                  syn.floatOf(s).NotANumber? || syn.floatOf(s).BelowZero?)
            && (Violation(Field(MonthlyExpectedSalary), MaxValue) in vs <==>
                  syn.floatOf(s).NotANumber? || syn.floatOf(s).AboveMaximum?))
  {
    var s := d.monthlyExpectedSalary;
    forall r ensures Violation(Field(MonthlyExpectedSalary), r) in Validate(1, d, ids, syn, gate) <==> r in SalaryRules(s, syn) {
      JobInfoMembership(d, ids, syn, MonthlyExpectedSalary, r);
    }
    if s == "" {
      assert SalaryRules(s, syn) == {Required};
    } else if !SalaryMatches(s) {
      assert SalaryPattern in SalaryRules(s, syn);
    } else if SalaryCents(s) > MaxSalaryCents {
      assert MaxValue in SalaryRules(s, syn);
    }
  }

  /**
   * A signed amount such as "-5" breaks the pattern and, read by `parseFloat`
   * as a negative number, the minimum test too.
   */
  lemma NonMatchingSalaryMeetsRangeTests(d: Draft, ids: ValidIds, syn: Syntax, gate: EndDateGate)
    requires d.monthlyExpectedSalary == "-5" && syn.floatOf("-5") == BelowZero
    ensures forall r :: Violation(Field(MonthlyExpectedSalary), r) in Validate(1, d, ids, syn, gate) <==> r in {SalaryPattern, MinValue}
  {
    assert !IsDigitString("-5") by { assert !IsDigit("-5"[0]); }
    assert SalaryRules("-5", syn) == {SalaryPattern, MinValue};
    forall r ensures Violation(Field(MonthlyExpectedSalary), r) in Validate(1, d, ids, syn, gate) <==> r in SalaryRules("-5", syn) {
      JobInfoMembership(d, ids, syn, MonthlyExpectedSalary, r);
    }
  }

  /**
   * The CV is flagged exactly when it is missing, is not `application/pdf`,
   * or exceeds 51200 KiB; a missing CV breaks only the required rule.
   */
  lemma CvVerdict(d: Draft, ids: ValidIds, syn: Syntax, gate: EndDateGate)
    ensures var vs := Validate(1, d, ids, syn, gate);
      && (Flagged(vs, Field(Cv)) <==>
          d.cv.None? || d.cv.value.mimeType != PdfMimeType || d.cv.value.size > MaxCvBytes)
      && (d.cv.None? ==> forall r :: Violation(Field(Cv), r) in vs <==> r == Required)
  {
    forall r ensures Violation(Field(Cv), r) in Validate(1, d, ids, syn, gate) <==> r in CvRules(d.cv) {
      JobInfoMembership(d, ids, syn, Cv, r);
    }
    if d.cv.None? {
      assert Required in CvRules(d.cv);
    } else if d.cv.value.mimeType != PdfMimeType {
      assert FileType in CvRules(d.cv);
    } else if d.cv.value.size > MaxCvBytes {
      assert FileSize in CvRules(d.cv);
    }
  }

  /** The two-decimal text of an amount in hundredths: 12345 is "123.45". */
  function CentsText(n: nat): string {
    NatToString(n / 100) + "." + [DigitChar(n % 100 / 10), DigitChar(n % 10)]
  }

  /** Every amount has a text the pattern accepts, and parsing it gives the amount back. */
  lemma {:induction false} CentsTextRoundTrip(n: nat)
    ensures SalaryMatches(CentsText(n)) && SalaryCents(CentsText(n)) == n
  {
    var w := NatToString(n / 100);
    var s := CentsText(n);
    var f := [DigitChar(n % 100 / 10), DigitChar(n % 10)];
    assert s[..|s| - 3] == w;
    assert s[|s| - 2..] == f;
    assert s[|s| - 3] == '.';
    assert !IsDigitString(s);
    DigitsValueOfNatToString(n / 100);
    var hi, lo := DigitChar(n % 100 / 10), DigitChar(n % 10);
    assert f[..|f| - 1] == [hi] && f[|f| - 1] == lo;
    assert [hi][..0] == [];
    assert DigitsValue([hi]) == DigitValue(hi);
    assert DigitsValue(f) == DigitsValue([hi]) * 10 + DigitValue(lo);
  }

  /**
   * An amount written with two decimals passes the salary rules exactly when
   * it is at most 9999999999.99.
   */
  lemma SalaryRange(d: Draft, ids: ValidIds, syn: Syntax, gate: EndDateGate, n: nat)
    requires d.monthlyExpectedSalary == CentsText(n)
    ensures !Flagged(Validate(1, d, ids, syn, gate), Field(MonthlyExpectedSalary)) <==> n <= MaxSalaryCents
  {
    CentsTextRoundTrip(n);
    SalaryVerdict(d, ids, syn, gate);
  }

  /** Membership in step 3's verdict at entry `i`'s path is membership in that entry's rules. */
  lemma EducationPathMembership(d: Draft, ids: ValidIds, syn: Syntax, gate: EndDateGate, i: nat, f: EducationField, r: Rule)
    requires i < |d.educations|
    ensures Violation(EducationPath(i, f), r) in Validate(2, d, ids, syn, gate)
      <==> r in EducationRules(d.educations[i], syn, gate, f)
  {
    EducationsMembership(d.educations, syn, gate, Violation(EducationPath(i, f), r));
    EducationMembership(i, d.educations[i], syn, gate, f, r);
  }

  lemma ExperiencePathMembership(d: Draft, ids: ValidIds, syn: Syntax, gate: EndDateGate, i: nat, f: ExperienceField, r: Rule)
    requires i < |d.experiences|
    ensures Violation(ExperiencePath(i, f), r) in Validate(3, d, ids, syn, gate)
      <==> r in ExperienceRules(d.experiences[i], syn, gate, f)
  {
    ExperiencesMembership(d.experiences, syn, gate, Violation(ExperiencePath(i, f), r));
    ExperienceMembership(i, d.experiences[i], syn, gate, f, r);
  }

  /**
   * Step 3 needs at least one education, reports only on existing entries,
   * and each entry needs its degree and institution (at most 255 characters)
   * and a start date.
   */
  lemma EducationListRules(d: Draft, ids: ValidIds, syn: Syntax, gate: EndDateGate)
    ensures var vs := Validate(2, d, ids, syn, gate);
      && (Violation(Field(Educations), MinItems) in vs <==> |d.educations| == 0)
      && (forall v :: v in vs && v.path.EducationPath? ==> v.path.index < |d.educations|)
      && (forall i :: 0 <= i < |d.educations| ==>
            && (Violation(EducationPath(i, EducationDegree), Required) in vs <==> d.educations[i].degree == "")
            && (Violation(EducationPath(i, EducationDegree), MaxLength) in vs <==> |d.educations[i].degree| > MaxTextLength)
            && (Violation(EducationPath(i, EducationInstitution), Required) in vs <==> d.educations[i].institution == "")
            && (Violation(EducationPath(i, EducationInstitution), MaxLength) in vs <==> |d.educations[i].institution| > MaxTextLength)
            && (Violation(EducationPath(i, EducationStartDate), Required) in vs <==> d.educations[i].startDate == ""))
  {
    var vs := Validate(2, d, ids, syn, gate);
    forall v | v in vs ensures v.path.EducationPath? ==> v.path.index < |d.educations| {
      EducationsMembership(d.educations, syn, gate, v);
    }
    EducationsMembership(d.educations, syn, gate, Violation(Field(Educations), MinItems));
    forall i | 0 <= i < |d.educations|
      ensures && (Violation(EducationPath(i, EducationDegree), Required) in vs <==> d.educations[i].degree == "")
              && (Violation(EducationPath(i, EducationDegree), MaxLength) in vs <==> |d.educations[i].degree| > MaxTextLength)
              && (Violation(EducationPath(i, EducationInstitution), Required) in vs <==> d.educations[i].institution == "")
              && (Violation(EducationPath(i, EducationInstitution), MaxLength) in vs <==> |d.educations[i].institution| > MaxTextLength)
              && (Violation(EducationPath(i, EducationStartDate), Required) in vs <==> d.educations[i].startDate == "")
    {
      EducationPathMembership(d, ids, syn, gate, i, EducationDegree, Required);
      EducationPathMembership(d, ids, syn, gate, i, EducationDegree, MaxLength);
      EducationPathMembership(d, ids, syn, gate, i, EducationInstitution, Required);
      EducationPathMembership(d, ids, syn, gate, i, EducationInstitution, MaxLength);
      EducationPathMembership(d, ids, syn, gate, i, EducationStartDate, Required);
    }
  }

  /**
   * Step 4 needs at least one experience, reports only on existing entries,
   * and each entry needs its company and job title (at most 255 characters)
   * and a start date; a present location is capped at 255 characters.
   */
  lemma ExperienceListRules(d: Draft, ids: ValidIds, syn: Syntax, gate: EndDateGate)
    ensures var vs := Validate(3, d, ids, syn, gate);
      && (Violation(Field(Experiences), MinItems) in vs <==> |d.experiences| == 0)
      && (forall v :: v in vs && v.path.ExperiencePath? ==> v.path.index < |d.experiences|)
      && (forall i :: 0 <= i < |d.experiences| ==>
            && (Violation(ExperiencePath(i, ExperienceCompanyName), Required) in vs <==> d.experiences[i].companyName == "")
            && (Violation(ExperiencePath(i, ExperienceCompanyName), MaxLength) in vs <==> |d.experiences[i].companyName| > MaxTextLength)
            && (Violation(ExperiencePath(i, ExperienceJobTitle), Required) in vs <==> d.experiences[i].jobTitle == "")
            && (Violation(ExperiencePath(i, ExperienceJobTitle), MaxLength) in vs <==> |d.experiences[i].jobTitle| > MaxTextLength)
            && (Violation(ExperiencePath(i, ExperienceStartDate), Required) in vs <==> d.experiences[i].startDate == "")
            && (Violation(ExperiencePath(i, Location), MaxLength) in vs <==>
                  d.experiences[i].location.Some? && |d.experiences[i].location.value| > MaxTextLength)
            && (forall r :: Violation(ExperiencePath(i, Description), r) !in vs))
  {
    var vs := Validate(3, d, ids, syn, gate);
    forall v | v in vs ensures v.path.ExperiencePath? ==> v.path.index < |d.experiences| {
      ExperiencesMembership(d.experiences, syn, gate, v);
    }
    ExperiencesMembership(d.experiences, syn, gate, Violation(Field(Experiences), MinItems));
    forall i | 0 <= i < |d.experiences|
      ensures && (Violation(ExperiencePath(i, ExperienceCompanyName), Required) in vs <==> d.experiences[i].companyName == "")
              && (Violation(ExperiencePath(i, ExperienceCompanyName), MaxLength) in vs <==> |d.experiences[i].companyName| > MaxTextLength)
              && (Violation(ExperiencePath(i, ExperienceJobTitle), Required) in vs <==> d.experiences[i].jobTitle == "")
              && (Violation(ExperiencePath(i, ExperienceJobTitle), MaxLength) in vs <==> |d.experiences[i].jobTitle| > MaxTextLength)
              && (Violation(ExperiencePath(i, ExperienceStartDate), Required) in vs <==> d.experiences[i].startDate == "")
              && (Violation(ExperiencePath(i, Location), MaxLength) in vs <==>
                    d.experiences[i].location.Some? && |d.experiences[i].location.value| > MaxTextLength)
              && (forall r :: Violation(ExperiencePath(i, Description), r) !in vs)
    {
      ExperiencePathMembership(d, ids, syn, gate, i, ExperienceCompanyName, Required);
      ExperiencePathMembership(d, ids, syn, gate, i, ExperienceCompanyName, MaxLength);
      ExperiencePathMembership(d, ids, syn, gate, i, ExperienceJobTitle, Required);
      ExperiencePathMembership(d, ids, syn, gate, i, ExperienceJobTitle, MaxLength);
      ExperiencePathMembership(d, ids, syn, gate, i, ExperienceStartDate, Required);
      ExperiencePathMembership(d, ids, syn, gate, i, Location, MaxLength);
      forall r ensures Violation(ExperiencePath(i, Description), r) !in vs {
        ExperiencePathMembership(d, ids, syn, gate, i, Description, r);
      }
    }
  }

  /** A non-empty end date that reads as a date. */
  predicate PresentDate(end: Option<string>, syn: Syntax) {
    end.Some? && end.value != "" && syn.dateOf(end.value).Some?
  }

  /**
   * The end-date ordering of education entry `i`: an absent end date always
   * passes; a present one is flagged as earlier than the start exactly when
   * the gate lets the test run and the start is missing or later.
   */
  lemma EducationEndDateGating(d: Draft, ids: ValidIds, syn: Syntax, gate: EndDateGate, i: nat)
    requires i < |d.educations|
    ensures var e := d.educations[i]; var vs := Validate(2, d, ids, syn, gate);
      && ((e.endDate.None? || e.endDate.value == "") ==> !Flagged(vs, EducationPath(i, EducationEndDate)))
      && (Violation(EducationPath(i, EducationEndDate), AfterOrEqualStart) in vs <==>
            PresentDate(e.endDate, syn) && EndDateTestRuns(gate, e.isOngoing)
            && !EndNotBeforeStart(syn.dateOf(e.endDate.value).value, e.startDate, syn))
      && (PresentDate(e.endDate, syn) && EndDateTestRuns(gate, e.isOngoing) && e.startDate == "" ==>
            Violation(EducationPath(i, EducationEndDate), AfterOrEqualStart) in vs)
  {
    forall r ensures Violation(EducationPath(i, EducationEndDate), r) in Validate(2, d, ids, syn, gate)
      <==> r in EducationRules(d.educations[i], syn, gate, EducationEndDate)
    {
      EducationPathMembership(d, ids, syn, gate, i, EducationEndDate, r);
    }
  }

  /** The same gating for experience entry `i`, on the current-job flag. */
  lemma ExperienceEndDateGating(d: Draft, ids: ValidIds, syn: Syntax, gate: EndDateGate, i: nat)
    requires i < |d.experiences|
    ensures var x := d.experiences[i]; var vs := Validate(3, d, ids, syn, gate);
      && ((x.endDate.None? || x.endDate.value == "") ==> !Flagged(vs, ExperiencePath(i, ExperienceEndDate)))
      && (Violation(ExperiencePath(i, ExperienceEndDate), AfterOrEqualStart) in vs <==>
            PresentDate(x.endDate, syn) && EndDateTestRuns(gate, x.isCurrentJob)
            && !EndNotBeforeStart(syn.dateOf(x.endDate.value).value, x.startDate, syn))
      && (PresentDate(x.endDate, syn) && EndDateTestRuns(gate, x.isCurrentJob) && x.startDate == "" ==>
            Violation(ExperiencePath(i, ExperienceEndDate), AfterOrEqualStart) in vs)
  {
    forall r ensures Violation(ExperiencePath(i, ExperienceEndDate), r) in Validate(3, d, ids, syn, gate)
      <==> r in ExperienceRules(d.experiences[i], syn, gate, ExperienceEndDate)
    {
      ExperiencePathMembership(d, ids, syn, gate, i, ExperienceEndDate, r);
    }
  }

  // ---- the end-date gate: as written against as intended ----

  /**
   * As written, the newer rule set compares the boolean flag with the number
   * 0 under strict equality, so no entry of steps 3 and 4 is ever checked for
   * an end date earlier than its start.
   */
  lemma AsWrittenNeverOrdersEndDates(d: Draft, ids: ValidIds, syn: Syntax)
    ensures forall v :: v in Validate(2, d, ids, syn, WhenFlagIsZero) ==> v.rule != AfterOrEqualStart
    ensures forall v :: v in Validate(3, d, ids, syn, WhenFlagIsZero) ==> v.rule != AfterOrEqualStart
  {
    forall v | v in Validate(2, d, ids, syn, WhenFlagIsZero) ensures v.rule != AfterOrEqualStart {
      EducationsMembership(d.educations, syn, WhenFlagIsZero, v);
      if v.path.EducationPath? {
        EducationMembership(v.path.index, d.educations[v.path.index], syn, WhenFlagIsZero, v.path.educationField, v.rule);
      }
    }
    forall v | v in Validate(3, d, ids, syn, WhenFlagIsZero) ensures v.rule != AfterOrEqualStart {
      ExperiencesMembership(d.experiences, syn, WhenFlagIsZero, v);
      if v.path.ExperiencePath? {
        ExperienceMembership(v.path.index, d.experiences[v.path.index], syn, WhenFlagIsZero, v.path.experienceField, v.rule);
      }
    }
  }

  /**
   * A finished education whose end date reads as earlier than its start
   * passes the rule set as written and fails the intended one.
   */
  lemma EndBeforeStartSlipsThrough(d: Draft, ids: ValidIds, syn: Syntax, i: nat)
    requires i < |d.educations|
    requires !d.educations[i].isOngoing && PresentDate(d.educations[i].endDate, syn)
    requires d.educations[i].startDate != "" && syn.dateOf(d.educations[i].startDate).Some?
    requires syn.dateOf(d.educations[i].endDate.value).value < syn.dateOf(d.educations[i].startDate).value
    ensures Violation(EducationPath(i, EducationEndDate), AfterOrEqualStart) !in Validate(2, d, ids, syn, WhenFlagIsZero)
    ensures Violation(EducationPath(i, EducationEndDate), AfterOrEqualStart) in Validate(2, d, ids, syn, WhenFlagIsFalse)
  {
    EducationEndDateGating(d, ids, syn, WhenFlagIsZero, i);
    EducationEndDateGating(d, ids, syn, WhenFlagIsFalse, i);
  }

  /**
   * The intended rule: an ongoing education's end date is never ordered,
   * and a finished one with a readable end date is flagged exactly when its
   * start is missing or later than its end.
   */
  lemma IntendedEducationEndDateOrdering(d: Draft, ids: ValidIds, syn: Syntax, i: nat)
    requires i < |d.educations|
    ensures var e := d.educations[i]; var vs := Validate(2, d, ids, syn, WhenFlagIsFalse);
      && (e.isOngoing ==> Violation(EducationPath(i, EducationEndDate), AfterOrEqualStart) !in vs)
      && (!e.isOngoing && PresentDate(e.endDate, syn) ==>
            (Violation(EducationPath(i, EducationEndDate), AfterOrEqualStart) in vs <==>
               e.startDate == "" || syn.dateOf(e.startDate).None?
               || syn.dateOf(e.endDate.value).value < syn.dateOf(e.startDate).value))
  {
    EducationEndDateGating(d, ids, syn, WhenFlagIsFalse, i);
  }

  /** The intended rule for experiences, on the current-job flag. */
  lemma IntendedExperienceEndDateOrdering(d: Draft, ids: ValidIds, syn: Syntax, i: nat)
    requires i < |d.experiences|
    ensures var x := d.experiences[i]; var vs := Validate(3, d, ids, syn, WhenFlagIsFalse);
      && (x.isCurrentJob ==> Violation(ExperiencePath(i, ExperienceEndDate), AfterOrEqualStart) !in vs)
      && (!x.isCurrentJob && PresentDate(x.endDate, syn) ==>
            (Violation(ExperiencePath(i, ExperienceEndDate), AfterOrEqualStart) in vs <==>
               x.startDate == "" || syn.dateOf(x.startDate).None?
               || syn.dateOf(x.endDate.value).value < syn.dateOf(x.startDate).value))
  {
    ExperienceEndDateGating(d, ids, syn, WhenFlagIsFalse, i);
  }
}
