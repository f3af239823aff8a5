/**
 * How each version of the wizard turns the form's values into the
 * multipart body it posts. The newer wizard appends every scalar value under
 * its own key, the CV as a file, and each education and experience field
 * under a bracketed key `educations[i][field]`; the first version appends
 * each array whole as JSON.
 */
module FormDataEncoding {
  import opened Wrappers
  import opened Text
  import opened ApplicationTypes

  /** A value of the form object as JavaScript sees it. */
  datatype Value =
    | Str(s: string)
    | Num(n: nat)
    | Null
    | FileValue(file: CvFile)
    | EducationList(educations: seq<Education>)
    | ExperienceList(experiences: seq<Experience>)

  /** One appended part: text, the CV file, or a JSON-encoded array. */
  datatype Part =
    | Text(key: string, text: string)
    | Blob(key: string, file: CvFile)
    | EducationsJson(key: string, educations: seq<Education>)
    | ExperiencesJson(key: string, experiences: seq<Experience>)

  function OrNull(o: Option<string>): Value {
    match o
    case None => Null
    case Some(s) => Str(s)
  }

  function CvValue(cv: Option<CvFile>): Value {
    match cv
    case None => Null
    case Some(f) => FileValue(f)
  }

  /** The keys of the form object in the order its initial values declare them. */
  const TopKeys: seq<string> := [
    "job_title", "company_name", "employment_type_id",
    "applicant_names", "applicant_last_names", "applicant_email", "applicant_phone",
    "applicant_linkedin", "applicant_portfolio_link",
    "applicant_country", "applicant_city", "applicant_address",
    "cv", "monthly_expected_salary", "availability_id", "work_modality_id",
    "educations", "experiences"]

  /** `Object.entries(values)`. */
  function Entries(d: Draft): seq<(string, Value)> {
    [("job_title", Str(d.jobTitle)), ("company_name", Str(d.companyName)),
     ("employment_type_id", Num(d.employmentTypeId)),
     ("applicant_names", Str(d.applicantNames)), ("applicant_last_names", Str(d.applicantLastNames)),
     ("applicant_email", Str(d.applicantEmail)), ("applicant_phone", Str(d.applicantPhone)),
     ("applicant_linkedin", OrNull(d.applicantLinkedin)),
     ("applicant_portfolio_link", OrNull(d.applicantPortfolioLink)),
     ("applicant_country", Str(d.applicantCountry)), ("applicant_city", Str(d.applicantCity)),
     ("applicant_address", Str(d.applicantAddress)),
     ("cv", CvValue(d.cv)), ("monthly_expected_salary", Str(d.monthlyExpectedSalary)),
     ("availability_id", Num(d.availabilityId)), ("work_modality_id", Num(d.workModalityId)),
     ("educations", EducationList(d.educations)), ("experiences", ExperienceList(d.experiences))]
  }

  /** JavaScript truthiness. */
  predicate Truthy(v: Value) {
    match v
    case Str(s) => s != ""
    case Num(n) => n != 0
    case Null => false
    case _ => true
  }

  /** `"[object Object]"` repeated `n` times, joined by commas: `String` of an array of `n` objects. */
  function ObjectsString(n: nat): string {
    if n == 0 then "" else if n == 1 then "[object Object]" else ObjectsString(n - 1) + ",[object Object]"
  }

  /** `String(value)`. */
  function JsString(v: Value): string {
    match v
    case Str(s) => s
    case Num(n) => NatToString(n)
    case Null => "null"
    case FileValue(_) => "[object File]"
    case EducationList(es) => ObjectsString(|es|)
    case ExperienceList(xs) => ObjectsString(|xs|)
  }

  /** `formData.append(key, value)`: a File is kept as a file, anything else becomes its string. */
  function Appended(key: string, v: Value): Part {
    if v.FileValue? then Blob(key, v.file) else Text(key, JsString(v))
  }

  // ---- the newer wizard ----

  /** What the first loop of the newer wizard appends for one entry. */
  function EntryParts(key: string, v: Value): seq<Part> {
    if key == "cv" && Truthy(v) then [Appended(key, v)]
    else if key != "educations" && key != "experiences" then [Text(key, JsString(v))]
    else []
  }

  function EntriesParts(es: seq<(string, Value)>): seq<Part> {
    if es == [] then [] else EntriesParts(es[..|es| - 1]) + EntryParts(es[|es| - 1].0, es[|es| - 1].1)
  }

  /** `${list}[${index}][${field}]`. */
  function IndexedKey(list: string, i: nat, field: string): string {
    list + "[" + NatToString(i) + "][" + field + "]"
  }

  /** `String(flag ? 1 : 0)`. */
  function FlagText(b: bool): string {
    if b then "1" else "0"
  }

  /** `value || ""` on an optional text. */
  function OrEmpty(o: Option<string>): string {
    match o
    case None => ""
    case Some(s) => s
  }

  const EducationKeys: seq<string> := ["education_degree", "education_institution", "start_date", "end_date", "is_ongoing"]

  const ExperienceKeys: seq<string> :=
    ["company_name", "job_title", "start_date", "end_date", "description", "location", "is_current_job"]

  /** The five parts of education `i`. */
  function EducationParts(i: nat, e: Education): seq<Part> {
    [Text(IndexedKey("educations", i, "education_degree"), e.degree),
     Text(IndexedKey("educations", i, "education_institution"), e.institution),
     Text(IndexedKey("educations", i, "start_date"), e.startDate),
     Text(IndexedKey("educations", i, "end_date"), OrEmpty(e.endDate)),
     Text(IndexedKey("educations", i, "is_ongoing"), FlagText(e.isOngoing))]
  }

  /** The seven parts of experience `i`. */
  function ExperienceParts(i: nat, x: Experience): seq<Part> {
    [Text(IndexedKey("experiences", i, "company_name"), x.companyName),
     Text(IndexedKey("experiences", i, "job_title"), x.jobTitle),
     Text(IndexedKey("experiences", i, "start_date"), x.startDate),
     Text(IndexedKey("experiences", i, "end_date"), OrEmpty(x.endDate)),
     Text(IndexedKey("experiences", i, "description"), OrEmpty(x.description)),
     Text(IndexedKey("experiences", i, "location"), OrEmpty(x.location)),
     Text(IndexedKey("experiences", i, "is_current_job"), FlagText(x.isCurrentJob))]
  }

  function EducationsParts(es: seq<Education>): seq<Part> {
    if es == [] then [] else EducationsParts(es[..|es| - 1]) + EducationParts(|es| - 1, es[|es| - 1])
  }

  function ExperiencesParts(xs: seq<Experience>): seq<Part> {
    if xs == [] then [] else ExperiencesParts(xs[..|xs| - 1]) + ExperienceParts(|xs| - 1, xs[|xs| - 1])
  }

  /** The body the newer wizard posts. */
  function FormDataOf(d: Draft): seq<Part> {
    EntriesParts(Entries(d)) + EducationsParts(d.educations) + ExperiencesParts(d.experiences)
  }

  /** The first `forEach`: one part per scalar entry, none for the lists. */
  method AppendScalarEntries(entries: seq<(string, Value)>) returns (parts: seq<Part>)
    ensures parts == EntriesParts(entries)
  {
    parts := [];
    for k := 0 to |entries|
      invariant parts == EntriesParts(entries[..k])
    {
      var (key, value) := entries[k];
      if key == "cv" && Truthy(value) {
        parts := parts + [Appended(key, value)];
      } else if key != "educations" && key != "experiences" {
        parts := parts + [Text(key, JsString(value))];
      }
      assert entries[..k + 1][..k] == entries[..k];
    }
    assert entries[..|entries|] == entries;
  }

  /** The second `forEach`: five indexed parts per education. */
  method AppendEducations(prefix: seq<Part>, es: seq<Education>) returns (parts: seq<Part>)
    ensures parts == prefix + EducationsParts(es)
  {
    parts := prefix;
    for k := 0 to |es|
      invariant parts == prefix + EducationsParts(es[..k])
    {
      var e := es[k];
      parts := parts + [
        Text(IndexedKey("educations", k, "education_degree"), e.degree),
        Text(IndexedKey("educations", k, "education_institution"), e.institution),
        Text(IndexedKey("educations", k, "start_date"), e.startDate),
        Text(IndexedKey("educations", k, "end_date"), OrEmpty(e.endDate)),
        Text(IndexedKey("educations", k, "is_ongoing"), FlagText(e.isOngoing))];
      assert es[..k + 1][..k] == es[..k];
    }
    assert es[..|es|] == es;
  }

  /** The third `forEach`: seven indexed parts per experience. */
  method AppendExperiences(prefix: seq<Part>, xs: seq<Experience>) returns (parts: seq<Part>)
    ensures parts == prefix + ExperiencesParts(xs)
  {
    parts := prefix;
    for k := 0 to |xs|
      invariant parts == prefix + ExperiencesParts(xs[..k])
    {
      var x := xs[k];
      parts := parts + [
        Text(IndexedKey("experiences", k, "company_name"), x.companyName),
        Text(IndexedKey("experiences", k, "job_title"), x.jobTitle),
        Text(IndexedKey("experiences", k, "start_date"), x.startDate),
        Text(IndexedKey("experiences", k, "end_date"), OrEmpty(x.endDate)),
        Text(IndexedKey("experiences", k, "description"), OrEmpty(x.description)),
        Text(IndexedKey("experiences", k, "location"), OrEmpty(x.location)),
        Text(IndexedKey("experiences", k, "is_current_job"), FlagText(x.isCurrentJob))];
      assert xs[..k + 1][..k] == xs[..k];
    }
    assert xs[..|xs|] == xs;
  }

  /** The newer wizard's three `forEach` loops over the values, in order. */
  method BuildFormData(d: Draft) returns (parts: seq<Part>)
    ensures parts == FormDataOf(d)
  {
    parts := AppendScalarEntries(Entries(d));
    parts := AppendEducations(parts, d.educations);
    parts := AppendExperiences(parts, d.experiences);
  }

  // ---- the first version of the wizard ----

  /** What the first version appends for one entry: arrays go as JSON. */
  function LegacyEntryParts(key: string, v: Value): seq<Part> {
    if key == "cv" && Truthy(v) then [Appended(key, v)]
    else match v
      case EducationList(es) => [EducationsJson(key, es)]
      case ExperienceList(xs) => [ExperiencesJson(key, xs)]
      case _ => [Text(key, JsString(v))]
  }

  function LegacyEntriesParts(es: seq<(string, Value)>): seq<Part> {
    if es == [] then [] else LegacyEntriesParts(es[..|es| - 1]) + LegacyEntryParts(es[|es| - 1].0, es[|es| - 1].1)
  }

  function LegacyFormDataOf(d: Draft): seq<Part> {
    LegacyEntriesParts(Entries(d))
  }

  /** The first version's single `forEach` over the values. */
  method BuildLegacyFormData(d: Draft) returns (parts: seq<Part>)
    ensures parts == LegacyFormDataOf(d)
  {
    parts := [];
    var entries := Entries(d);
    for k := 0 to |entries|
      invariant parts == LegacyEntriesParts(entries[..k])
    {
      var (key, value) := entries[k];
      if key == "cv" && Truthy(value) {
        parts := parts + [Appended(key, value)];
      } else if value.EducationList? {
        parts := parts + [EducationsJson(key, value.educations)];
      } else if value.ExperienceList? {
        parts := parts + [ExperiencesJson(key, value.experiences)];
      } else {
        parts := parts + [Text(key, JsString(value))];
      }
      assert entries[..k + 1][..k] == entries[..k];
    }
    assert entries[..|entries|] == entries;
  }
}
