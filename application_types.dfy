/**
 * The records of the job-application wizard and of the listing: the form's
 * values (ApplicationFormInputs), its repeatable education and experience
 * entries, the uploaded CV, catalog items and the persisted Application the
 * listing receives.
 */
module ApplicationTypes {
  import opened Wrappers

  /** The uploaded CV as the browser's File object describes it. */
  datatype CvFile = CvFile(name: string, mimeType: string, size: nat)

  /**
   * One education entry. Dates are the text of a date input ("" when empty);
   * `endDate` is None when the entry has no `end_date` key at all.
   */
  datatype Education = Education(
    degree: string,
    institution: string,
    startDate: string,
    endDate: Option<string>,
    isOngoing: bool)

  /** One experience entry; the optional keys may be missing (None). */
  datatype Experience = Experience(
    companyName: string,
    jobTitle: string,
    startDate: string,
    endDate: Option<string>,
    description: Option<string>,
    location: Option<string>,
    isCurrentJob: bool)

  /**
   * The values the wizard edits. Catalog ids are held as numbers: the form
   * starts them as the string "1", which Yup reads as 1 and `String` writes
   * back as "1", and the selects set them to catalog ids. LinkedIn and
   * portfolio are None when null. `cv` is None when null.
   */
  datatype Draft = Draft(
    jobTitle: string,
    companyName: string,
    employmentTypeId: nat,
    applicantNames: string,
    applicantLastNames: string,
    applicantEmail: string,
    applicantPhone: string,
    applicantLinkedin: Option<string>,
    applicantPortfolioLink: Option<string>,
    applicantCountry: string,
    applicantCity: string,
    applicantAddress: string,
    cv: Option<CvFile>,
    monthlyExpectedSalary: string,
    availabilityId: nat,
    workModalityId: nat,
    educations: seq<Education>,
    experiences: seq<Experience>)

  /** An entry of a reference catalog (employment types, availabilities, ...). */
  datatype CatalogItem = CatalogItem(id: nat, name: string)

  /** A catalog as its fetching hook reports it: the data once loaded, whether the fetch failed. */
  datatype CatalogState = CatalogState(data: Option<seq<CatalogItem>>, failed: bool)

  /** A denormalised catalog row embedded in an Application (`{id, name, code}`). */
  datatype NamedRecord = NamedRecord(id: nat, name: string, code: string)

  /** A persisted application as the listing endpoint returns it. */
  datatype Application = Application(
    id: nat,
    jobTitle: string,
    companyName: string,
    applicantNames: string,
    applicantLastNames: string,
    applicantEmail: string,
    applicantPhone: string,
    applicantLinkedin: string,
    applicantPortfolioLink: string,
    applicantCountry: string,
    applicantCity: string,
    applicantAddress: string,
    cvPagesCount: nat,
    cvDownloadUrl: string,
    createdAt: string,
    employmentType: NamedRecord,
    availability: NamedRecord,
    applicationStatus: NamedRecord,
    workModality: NamedRecord,
    educations: seq<Education>,
    experiences: seq<Experience>)

  /** One page of the listing: its rows and the total row count. */
  datatype PaginatedApplications = PaginatedApplications(currentPage: nat, data: seq<Application>, total: nat)
}
