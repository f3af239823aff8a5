/**
 * The wizard's per-step validator: four rule sets, one per step (personal
 * information, job information, education, experience), built from the
 * valid catalog ids. A verdict is the set of violated rules, each at the
 * field path it is reported on (an index into the entry list for repeatable
 * entries); Formik shows one message per flagged path.
 */
module StepValidation {
  import opened Wrappers
  import opened Text
  import opened ApplicationTypes

  const StepCount := 4
  const MaxTextLength := 255
  const MaxPhoneLength := 20
  /** 9999999999.99 in hundredths. */
  const MaxSalaryCents := 999999999999
  /** 51200 KiB, the 50 MB ceiling on the CV. */
  const MaxCvBytes := 51200 * 1024
  const PdfMimeType := "application/pdf"

  datatype TopField =
    | JobTitle | CompanyName | EmploymentTypeId
    | ApplicantNames | ApplicantLastNames | ApplicantEmail | ApplicantPhone
    | ApplicantLinkedin | ApplicantPortfolioLink
    | ApplicantCountry | ApplicantCity | ApplicantAddress
    | Cv | MonthlyExpectedSalary | AvailabilityId | WorkModalityId
    | Educations | Experiences

  datatype EducationField = EducationDegree | EducationInstitution | EducationStartDate | EducationEndDate | IsOngoing

  datatype ExperienceField =
    | ExperienceCompanyName | ExperienceJobTitle | ExperienceStartDate | ExperienceEndDate
    | Description | Location | IsCurrentJob

  /** Where an error is reported: a top-level key, or `educations[i].x` / `experiences[i].x`. */
  datatype FieldPath =
    | Field(top: TopField)
    | EducationPath(index: nat, educationField: EducationField)
    | ExperiencePath(index: nat, experienceField: ExperienceField)

  /** The rule a value breaks. */
  datatype Rule =
    | Required | MaxLength | EmailSyntax | UrlSyntax | OneOf
    | SalaryPattern | MinValue | MaxValue | FileType | FileSize
    | MinItems | DateType | AfterOrEqualStart

  datatype Violation = Violation(path: FieldPath, rule: Rule)

  /**
   * What `parseFloat` makes of a text, as far as the salary's two range
   * tests look at it: not a number, below zero, within range, or above
   * 9999999999.99. A NaN fails both comparisons.
   */
  datatype FloatReading = NotANumber | BelowZero | WithinRange | AboveMaximum

  /**
   * Yup's e-mail and URL syntax, its reading of date text and JavaScript's
   * `parseFloat` on a text the salary pattern rejects, left uninterpreted:
   * dates are compared as the integers `dateOf` gives.
   */
  datatype Syntax = Syntax(isEmail: string -> bool, isUrl: string -> bool, dateOf: string -> Option<int>,
                           floatOf: string -> FloatReading)

  /** The ids of the loaded catalogs, which the select fields must pick from. */
  datatype ValidIds = ValidIds(employmentTypeIds: seq<nat>, workModalityIds: seq<nat>, availabilityIds: seq<nat>)

  /** A JavaScript value as far as the end-date condition inspects it. */
  datatype JsValue = JsBoolean(b: bool) | JsNumber(n: int)

  /** `a === b`: the same type and the same value. */
  predicate StrictEquals(a: JsValue, b: JsValue) {
    a == b
  }

  /**
   * When the end-date ordering test applies to an entry. The newer rule set
   * runs it when the ongoing/current flag `=== 0`; the flag is a boolean, for
   * which the test was evidently meant to run when the flag is false; the
   * older rule set runs it always.
   */
  datatype EndDateGate = WhenFlagIsZero | WhenFlagIsFalse | Unconditional

  predicate EndDateTestRuns(gate: EndDateGate, flag: bool) {
    match gate
    case WhenFlagIsZero => StrictEquals(JsBoolean(flag), JsNumber(0))
    case WhenFlagIsFalse => !flag
    case Unconditional => true
  }

  /** The step whose rule set mentions a path. */
  function StepOf(p: FieldPath): nat {
    match p
    case EducationPath(_, _) => 2
    case ExperiencePath(_, _) => 3
    case Field(f) =>
      match f
      case ApplicantNames | ApplicantLastNames | ApplicantEmail | ApplicantPhone
        | ApplicantLinkedin | ApplicantPortfolioLink
        | ApplicantCountry | ApplicantCity | ApplicantAddress => 0
      case JobTitle | CompanyName | EmploymentTypeId | MonthlyExpectedSalary
        | AvailabilityId | WorkModalityId | Cv => 1
      case Educations => 2
      case Experiences => 3
  }

  /** The rule set `{r}` when `c` holds, otherwise none. */
  function When(c: bool, r: Rule): set<Rule> {
    if c then {r} else {}
  }

  /** The violations of `rules` at path `p`. */
  function At(p: FieldPath, rules: set<Rule>): (vs: set<Violation>)
    ensures forall r :: Violation(p, r) in vs <==> r in rules
    ensures forall v :: v in vs ==> v.path == p
  {
    set r | r in rules :: Violation(p, r)
  }

  /** The paths that carry an error message. */
  function ErrorPaths(vs: set<Violation>): set<FieldPath> {
    set v | v in vs :: v.path
  }

  // ---- rules on single values ----

  /** `string().max(limit).required()`. */
  function TextRules(s: string, limit: nat): set<Rule> {
    When(s == "", Required) + When(|s| > limit, MaxLength)
  }

  /** `string().email().max(255).required()`; the e-mail test skips "". */
  function EmailRules(s: string, syn: Syntax): set<Rule> {
    TextRules(s, MaxTextLength) + When(s != "" && !syn.isEmail(s), EmailSyntax)
  }

  /** `string().url().max(255).nullable()`; null and "" pass the URL test. */
  function OptionalUrlRules(o: Option<string>, syn: Syntax): set<Rule> {
    match o
    case None => {}
    case Some(s) => When(s != "" && !syn.isUrl(s), UrlSyntax) + When(|s| > MaxTextLength, MaxLength)
  }

  /** `string().max(255).nullable()`. */
  function OptionalTextRules(o: Option<string>, limit: nat): set<Rule> {
    match o
    case None => {}
    case Some(s) => When(|s| > limit, MaxLength)
  }

  /** `number().oneOf(ids).required()` on a select that always holds a number. */
  function MembershipRules(id: nat, ids: seq<nat>): set<Rule> {
    When(id !in ids, OneOf)
  }

  /** `^\d+(\.\d{1,2})?$`: digits, optionally a point and one or two more digits. */
  predicate SalaryMatches(s: string) {
    IsDigitString(s)
    || (|s| >= 3 && s[|s| - 2] == '.' && IsDigitString(s[..|s| - 2]) && IsDigitString(s[|s| - 1..]))
    || (|s| >= 4 && s[|s| - 3] == '.' && IsDigitString(s[..|s| - 3]) && IsDigitString(s[|s| - 2..]))
  }

  /**
   * `parseFloat` of a salary that matches the pattern, in hundredths. Exact:
   * the pattern admits at most two decimals.
   */
  function SalaryCents(s: string): nat
    requires SalaryMatches(s)
  {
    if IsDigitString(s) then DigitsValue(s) * 100
    else if |s| >= 3 && s[|s| - 2] == '.' then DigitsValue(s[..|s| - 2]) * 100 + DigitsValue(s[|s| - 1..]) * 10
    else DigitsValue(s[..|s| - 3]) * 100 + DigitsValue(s[|s| - 2..])
  }

  /**
   * The salary's rules: required, the pattern, then `parseFloat(value) >= 0`
   * and `<= 9999999999.99`. An empty field reaches the rules as an absent
   * value, which every test but `required` lets pass. Yup runs every test, so
   * a text the pattern rejects still meets both range tests: its reading is
   * the `floatOf` parameter, where a matching text is read as exact cents.
   */
  function SalaryRules(s: string, syn: Syntax): set<Rule> {
    When(s == "", Required)
    + When(s != "" && !SalaryMatches(s), SalaryPattern)
    + (if s == "" then {}
       else if SalaryMatches(s)
       then When(SalaryCents(s) < 0, MinValue) + When(SalaryCents(s) > MaxSalaryCents, MaxValue)
       else When(syn.floatOf(s).NotANumber? || syn.floatOf(s).BelowZero?, MinValue)
            + When(syn.floatOf(s).NotANumber? || syn.floatOf(s).AboveMaximum?, MaxValue))
  }

  /** `mixed().required()` plus the type and size tests, both of which pass a missing file. */
  function CvRules(cv: Option<CvFile>): set<Rule> {
    match cv
    case None => {Required}
    case Some(f) => When(f.mimeType != PdfMimeType, FileType) + When(f.size > MaxCvBytes, FileSize)
  }

  /** `date().required()` on the text of a date input. */
  function StartDateRules(start: string, syn: Syntax): set<Rule> {
    if start == "" then {Required} else When(syn.dateOf(start).None?, DateType)
  }

  /** The ordering test `!value || (start_date && value >= start_date)` for a present end date. */
  predicate EndNotBeforeStart(end: int, start: string, syn: Syntax) {
    start != "" && syn.dateOf(start).Some? && end >= syn.dateOf(start).value
  }

  /** A nullable end date; the ordering test applies only when `testRuns`. */
  function EndDateRules(end: Option<string>, start: string, testRuns: bool, syn: Syntax): set<Rule> {
    if end.None? || end.value == "" then {}
    else if syn.dateOf(end.value).None? then {DateType}
    else When(testRuns && !EndNotBeforeStart(syn.dateOf(end.value).value, start, syn), AfterOrEqualStart)
  }

  // ---- the four rule sets ----

  const PersonalInfoFields: set<TopField> := {
    ApplicantNames, ApplicantLastNames, ApplicantEmail, ApplicantPhone,
    ApplicantLinkedin, ApplicantPortfolioLink, ApplicantCountry, ApplicantCity, ApplicantAddress}

  const JobInfoFields: set<TopField> := {
    JobTitle, CompanyName, EmploymentTypeId, MonthlyExpectedSalary, AvailabilityId, WorkModalityId, Cv}

  const EducationFields: set<EducationField> := {
    EducationDegree, EducationInstitution, EducationStartDate, EducationEndDate, IsOngoing}

  const ExperienceFields: set<ExperienceField> := {
    ExperienceCompanyName, ExperienceJobTitle, ExperienceStartDate, ExperienceEndDate,
    Description, Location, IsCurrentJob}

  /** Step 1's schema: the rules each personal field breaks. */
  function PersonalInfoRules(d: Draft, syn: Syntax, f: TopField): set<Rule> {
    match f
    case ApplicantNames => TextRules(d.applicantNames, MaxTextLength)
    case ApplicantLastNames => TextRules(d.applicantLastNames, MaxTextLength)
    case ApplicantEmail => EmailRules(d.applicantEmail, syn)
    case ApplicantPhone => TextRules(d.applicantPhone, MaxPhoneLength)
    case ApplicantLinkedin => OptionalUrlRules(d.applicantLinkedin, syn)
    case ApplicantPortfolioLink => OptionalUrlRules(d.applicantPortfolioLink, syn)
    case ApplicantCountry => TextRules(d.applicantCountry, MaxTextLength)
    case ApplicantCity => TextRules(d.applicantCity, MaxTextLength)
    case ApplicantAddress => TextRules(d.applicantAddress, MaxTextLength)
    case _ => {}
  }

  /** Step 2's schema, checked against the catalogs' ids. */
  function JobInfoRules(d: Draft, ids: ValidIds, syn: Syntax, f: TopField): set<Rule> {
    match f
    case JobTitle => TextRules(d.jobTitle, MaxTextLength)
    case CompanyName => TextRules(d.companyName, MaxTextLength)
    case EmploymentTypeId => MembershipRules(d.employmentTypeId, ids.employmentTypeIds)
    case MonthlyExpectedSalary => SalaryRules(d.monthlyExpectedSalary, syn)
    case AvailabilityId => MembershipRules(d.availabilityId, ids.availabilityIds)
    case WorkModalityId => MembershipRules(d.workModalityId, ids.workModalityIds)
    case Cv => CvRules(d.cv)
    case _ => {}
  }

  /** The schema of one education entry; the boolean flag is always present. */
  function EducationRules(e: Education, syn: Syntax, gate: EndDateGate, f: EducationField): set<Rule> {
    match f
    case EducationDegree => TextRules(e.degree, MaxTextLength)
    case EducationInstitution => TextRules(e.institution, MaxTextLength)
    case EducationStartDate => StartDateRules(e.startDate, syn)
    case EducationEndDate => EndDateRules(e.endDate, e.startDate, EndDateTestRuns(gate, e.isOngoing), syn)
    case IsOngoing => {}
  }

  /** The schema of one experience entry; the description is unconstrained. */
  function ExperienceRules(x: Experience, syn: Syntax, gate: EndDateGate, f: ExperienceField): set<Rule> {
    match f
    case ExperienceCompanyName => TextRules(x.companyName, MaxTextLength)
    case ExperienceJobTitle => TextRules(x.jobTitle, MaxTextLength)
    case ExperienceStartDate => StartDateRules(x.startDate, syn)
    case ExperienceEndDate => EndDateRules(x.endDate, x.startDate, EndDateTestRuns(gate, x.isCurrentJob), syn)
    case Description => {}
    case Location => OptionalTextRules(x.location, MaxTextLength)
    case IsCurrentJob => {}
  }

  /** Step 1: personal information. */
  function PersonalInfoViolations(d: Draft, syn: Syntax): set<Violation> {
    set f, r | f in PersonalInfoFields && r in PersonalInfoRules(d, syn, f) :: Violation(Field(f), r)
  }

  /** Step 2: job information. */
  function JobInfoViolations(d: Draft, ids: ValidIds, syn: Syntax): set<Violation> {
    set f, r | f in JobInfoFields && r in JobInfoRules(d, ids, syn, f) :: Violation(Field(f), r)
  }

  /** The violations of education entry `i`, reported under `educations[i]`. */
  function EducationViolations(i: nat, e: Education, syn: Syntax, gate: EndDateGate): set<Violation> {
    set f, r | f in EducationFields && r in EducationRules(e, syn, gate, f) :: Violation(EducationPath(i, f), r)
  }

  /** The violations of experience entry `i`, reported under `experiences[i]`. */
  function ExperienceViolations(i: nat, x: Experience, syn: Syntax, gate: EndDateGate): set<Violation> {
    set f, r | f in ExperienceFields && r in ExperienceRules(x, syn, gate, f) :: Violation(ExperiencePath(i, f), r)
  }

  /** Step 3: at least one education, and every entry's rules. */
  function EducationsViolations(es: seq<Education>, syn: Syntax, gate: EndDateGate): set<Violation> {
    At(Field(Educations), When(|es| == 0, MinItems))
    + (set i: nat, v | i < |es| && v in EducationViolations(i, es[i], syn, gate) :: v)
  }

  /** Step 4: at least one experience, and every entry's rules. */
  function ExperiencesViolations(xs: seq<Experience>, syn: Syntax, gate: EndDateGate): set<Violation> {
    At(Field(Experiences), When(|xs| == 0, MinItems))
    + (set i: nat, v | i < |xs| && v in ExperienceViolations(i, xs[i], syn, gate) :: v)
  }

  /** The rule set of `step` applied to the draft. */
  function Validate(step: nat, d: Draft, ids: ValidIds, syn: Syntax, gate: EndDateGate): set<Violation>
    requires step < StepCount
  {
    if step == 0 then PersonalInfoViolations(d, syn)
    else if step == 1 then JobInfoViolations(d, ids, syn)
    else if step == 2 then EducationsViolations(d.educations, syn, gate)
    else ExperiencesViolations(d.experiences, syn, gate)
  }
}
