/**
 * The listing page: the paginated fetch of applications with its loading
 * and error state, the detail modal and the CV viewer, and the two values
 * the table derives from each row.
 */
module ListingPage {
  import opened Wrappers
  import opened Text
  import opened ApplicationTypes
  import opened CustomBadge

  /** The path and query the service requests for a 1-indexed page. */
  function RequestQuery(apiUrl: string, page: nat, perPage: nat): string {
    apiUrl + "/applications?page=" + NatToString(page) + "&per_page=" + NatToString(perPage)
  }

  /** Different pages or page sizes give different requests. */
  lemma RequestQueryInjective(apiUrl: string, a: nat, b: nat, c: nat, d: nat)
    ensures RequestQuery(apiUrl, a, b) == RequestQuery(apiUrl, c, d) <==> a == c && b == d
  {
    var sa, sb, sc, sd := NatToString(a), NatToString(b), NatToString(c), NatToString(d);
    var q, q' := RequestQuery(apiUrl, a, b), RequestQuery(apiUrl, c, d);
    var p := |apiUrl| + 19;
    if q == q' {
      assert q == apiUrl + "/applications?page=" + sa + "&per_page=" + sb;
      assert q' == apiUrl + "/applications?page=" + sc + "&per_page=" + sd;
      assert q[p + |sa|] == '&' && q'[p + |sc|] == '&';
      assert |sa| == |sc|;
      assert sa == q[p..p + |sa|] == sc;
      NatToStringInjective(a, c);
      assert sb == q[p + |sa| + 10..] == sd;
      NatToStringInjective(b, d);
    }
  }

  /** The table's full name: names, a space, last names. */
  function FullName(app: Application): string {
    app.applicantNames + " " + app.applicantLastNames
  }

  /**
   * The full name holds the names, then one space at their length, then the
   * last names, whatever either holds; when the names hold no space, that
   * space is the first one, so the full name splits back at its first space.
   */
  lemma FullNameSplits(app: Application)
    ensures var s := FullName(app); var n := |app.applicantNames|;
      && n < |s| && s[n] == ' '
      && s[..n] == app.applicantNames && s[n + 1..] == app.applicantLastNames
      && ((forall k :: 0 <= k < n ==> app.applicantNames[k] != ' ') ==> (forall k :: 0 <= k < n ==> s[k] != ' '))
  {
    var s := FullName(app);
    var n := |app.applicantNames|;
    assert s == app.applicantNames + (" " + app.applicantLastNames);
    assert s[..n] == app.applicantNames;
    assert s[n + 1..] == app.applicantLastNames;
  }

  /** The badge colour of an application status code. */
  function StatusColor(statusCode: string): string {
    if statusCode == "sent" then "info" else if statusCode == "seen" then "success" else "primary"
  }

  /**
   * "sent" is info, "seen" is success, every other code is primary, and each
   * of the three is a palette name, so the badge always takes a theme colour.
   */
  lemma StatusColorCases(statusCode: string)
    ensures StatusColor(statusCode) == "info" <==> statusCode == "sent"
    ensures StatusColor(statusCode) == "success" <==> statusCode == "seen"
    ensures StatusColor(statusCode) == "primary" <==> statusCode != "sent" && statusCode != "seen"
    ensures IsPaletteColor(StatusColor(statusCode))
  {
    assert PaletteColors[0] == "primary" && PaletteColors[4] == "info" && PaletteColors[5] == "success";
  }

  /** The badge of an application's status cell: the status name on the colour of its code. */
  function StatusBadge(app: Application): Badge {
    BadgeOf(StatusColor(app.applicationStatus.code), app.applicationStatus.name)
  }

  /**
   * The status cell's badge always takes a theme colour, never a literal
   * one; that colour depends on the status code alone, and the badge is
   * captioned with the status name in white.
   */
  lemma StatusBadgeThemed(app: Application, app': Application)
    ensures StatusBadge(app).background == ThemeColor(StatusColor(app.applicationStatus.code))
    ensures StatusBadge(app).caption == app.applicationStatus.name && StatusBadge(app).textColor == White
    ensures app.applicationStatus.code == app'.applicationStatus.code ==> StatusBadge(app).background == StatusBadge(app').background
  {
    StatusColorCases(app.applicationStatus.code);
  }

  /** One request of the listing: the page the service is asked for, counting from 1. */
  datatype FetchRequest = FetchRequest(page: nat, perPage: nat)

  const InitialPageSize: nat := 10
  const DefaultFetchError: string := "Error fetching applications."

  /** `err.message || "Error fetching applications."`. */
  function FetchErrorText(message: string): (t: string)
    ensures t != ""
    ensures message != "" ==> t == message
    ensures message == "" ==> t == DefaultFetchError
  {
    if message != "" then message else DefaultFetchError
  }

  class Listing {
    var isModalOpen: bool
    var selectedApplication: Option<Application>
    var isPdfViewerOpen: bool
    var pdfUrl: Option<string>
    var applications: Option<PaginatedApplications>
    var page: nat
    var pageSize: nat
    var loading: bool
    var error: Option<string>
    /** The page and page size the fetch effect last ran with; none before the first render. */
    var effectDeps: Option<(nat, nat)>

    /**
     * The modal is open exactly when an application is selected, the viewer
     * exactly when it has a URL; a running fetch shows no error, and an
     * error shown is never empty.
     */
    ghost predicate Valid()
      reads this
    {
      && (isModalOpen <==> selectedApplication.Some?)
      && (isPdfViewerOpen <==> pdfUrl.Some?)
      && (loading ==> error.None?)
      && (error.Some? ==> error.value != "")
    }

    constructor ()
      ensures Valid()
      ensures !isModalOpen && selectedApplication == None && !isPdfViewerOpen && pdfUrl == None
      ensures applications == None && page == 0 && pageSize == InitialPageSize
      ensures loading && error == None && effectDeps == None
    {
      isModalOpen := false;
      selectedApplication := None;
      isPdfViewerOpen := false;
      pdfUrl := None;
      applications := None;
      page := 0;
      pageSize := InitialPageSize;
      loading := true;
      error := None;
      effectDeps := None;
    }

    /**
     * After a render the effect runs when the page or the page size differ
     * from its last run: loading starts, the error clears, and the next page
     * counting from 1 is requested.
     */
    method RunFetchEffect() returns (request: Option<FetchRequest>)
      requires Valid()
      modifies this
      ensures Valid()
      ensures request.Some? <==> old(effectDeps) != Some((page, pageSize))
      ensures request.Some? ==> request.value == FetchRequest(page + 1, pageSize) && loading && error == None
      ensures request.None? ==> loading == old(loading) && error == old(error)
      ensures effectDeps == Some((page, pageSize))
      ensures page == old(page) && pageSize == old(pageSize) && applications == old(applications)
      ensures isModalOpen == old(isModalOpen) && selectedApplication == old(selectedApplication)
      ensures isPdfViewerOpen == old(isPdfViewerOpen) && pdfUrl == old(pdfUrl)
    {
      if effectDeps != Some((page, pageSize)) {
        effectDeps := Some((page, pageSize));
        loading := true;
        error := None;
        request := Some(FetchRequest(page + 1, pageSize));
      } else {
        request := None;
      }
    }

    /** The service answered: the data is replaced and loading ends. */
    method FetchSucceeded(data: PaginatedApplications)
      requires Valid()
      modifies this
      ensures Valid()
      ensures applications == Some(data) && !loading && error == old(error)
      ensures page == old(page) && pageSize == old(pageSize) && effectDeps == old(effectDeps)
      ensures isModalOpen == old(isModalOpen) && selectedApplication == old(selectedApplication)
      ensures isPdfViewerOpen == old(isPdfViewerOpen) && pdfUrl == old(pdfUrl)
    {
      applications := Some(data);
      loading := false;
    }

    /** The service failed: the message (or the default) is shown, the old data stays, loading ends. */
    method FetchFailed(message: string)
      requires Valid()
      modifies this
      ensures Valid()
      ensures error == Some(FetchErrorText(message)) && !loading && applications == old(applications)
      ensures page == old(page) && pageSize == old(pageSize) && effectDeps == old(effectDeps)
      ensures isModalOpen == old(isModalOpen) && selectedApplication == old(selectedApplication)
      ensures isPdfViewerOpen == old(isPdfViewerOpen) && pdfUrl == old(pdfUrl)
    {
      error := Some(FetchErrorText(message));
      loading := false;
    }

    /** The grid's pagination model changed: both values are copied. */
    method PaginationModelChange(newPage: nat, newPageSize: nat)
      requires Valid()
      modifies this
      ensures Valid()
      ensures page == newPage && pageSize == newPageSize
      ensures applications == old(applications) && loading == old(loading) && error == old(error)
      ensures effectDeps == old(effectDeps)
      ensures isModalOpen == old(isModalOpen) && selectedApplication == old(selectedApplication)
      ensures isPdfViewerOpen == old(isPdfViewerOpen) && pdfUrl == old(pdfUrl)
    {
      page := newPage;
      pageSize := newPageSize;
    }

    method OpenModal(app: Application)
      requires Valid()
      modifies this
      ensures Valid()
      ensures isModalOpen && selectedApplication == Some(app)
      ensures isPdfViewerOpen == old(isPdfViewerOpen) && pdfUrl == old(pdfUrl)
      ensures applications == old(applications) && page == old(page) && pageSize == old(pageSize)
      ensures loading == old(loading) && error == old(error) && effectDeps == old(effectDeps)
    {
      selectedApplication := Some(app);
      isModalOpen := true;
    }

    method CloseModal()
      requires Valid()
      modifies this
      ensures Valid()
      ensures !isModalOpen && selectedApplication == None
      ensures isPdfViewerOpen == old(isPdfViewerOpen) && pdfUrl == old(pdfUrl)
      ensures applications == old(applications) && page == old(page) && pageSize == old(pageSize)
      ensures loading == old(loading) && error == old(error) && effectDeps == old(effectDeps)
    {
      isModalOpen := false;
      selectedApplication := None;
    }

    method OpenPdfViewer(url: string)
      requires Valid()
      modifies this
      ensures Valid()
      ensures isPdfViewerOpen && pdfUrl == Some(url)
      ensures isModalOpen == old(isModalOpen) && selectedApplication == old(selectedApplication)
      ensures applications == old(applications) && page == old(page) && pageSize == old(pageSize)
      ensures loading == old(loading) && error == old(error) && effectDeps == old(effectDeps)
    {
      pdfUrl := Some(url);
      isPdfViewerOpen := true;
    }

    method ClosePdfViewer()
      requires Valid()
      modifies this
      ensures Valid()
      ensures !isPdfViewerOpen && pdfUrl == None
      ensures isModalOpen == old(isModalOpen) && selectedApplication == old(selectedApplication)
      ensures applications == old(applications) && page == old(page) && pageSize == old(pageSize)
      ensures loading == old(loading) && error == old(error) && effectDeps == old(effectDeps)
    {
      isPdfViewerOpen := false;
      pdfUrl := None;
    }
  }
}
