/**
 * What the detail modal shows for one application: the one-line summary of
 * each education and experience, the fallbacks for missing details, the
 * period of an experience, the links, and the CV button's caption.
 */
module ApplicationModal {
  import opened Wrappers
  import opened Text
  import opened ApplicationTypes

  const Unspecified: string := "No especificado"
  const Ongoing: string := "En curso"
  const Present: string := "Presente"
  const NoDescription: string := "Sin descripción adicional"

  /** JavaScript truthiness of an optional text: present and not empty. */
  predicate Given(o: Option<string>) {
    o.Some? && o.value != ""
  }

  /** `value || fallback` on an optional text. */
  function OrFallback(o: Option<string>, fallback: string): (s: string)
    ensures Given(o) ==> s == o.value
    ensures !Given(o) ==> s == fallback
  {
    if Given(o) then o.value else fallback
  }

  /** The two lines of an entry's accordion header. */
  datatype SummaryLine = SummaryLine(primary: string, secondary: string)

  /** One header per education, in order: degree over institution. */
  function EducationSummaries(es: seq<Education>): (r: seq<SummaryLine>)
    ensures |r| == |es|
    ensures forall i :: 0 <= i < |es| ==> r[i] == SummaryLine(es[i].degree, es[i].institution)
  {
    seq(|es|, i requires 0 <= i < |es| => SummaryLine(es[i].degree, es[i].institution))
  }

  /** One header per experience, in order: job title over company. */
  function ExperienceSummaries(xs: seq<Experience>): (r: seq<SummaryLine>)
    ensures |r| == |xs|
    ensures forall i :: 0 <= i < |xs| ==> r[i] == SummaryLine(xs[i].jobTitle, xs[i].companyName)
  {
    seq(|xs|, i requires 0 <= i < |xs| => SummaryLine(xs[i].jobTitle, xs[i].companyName))
  }

  /**
   * The headers follow the entries: the headers of two runs of entries, one
   * after the other, are the headers of each run in the same order, so
   * adding an entry adds its header at its place and leaves the others.
   */
  lemma SummariesFollowEntries(es: seq<Education>, es': seq<Education>, xs: seq<Experience>, xs': seq<Experience>)
    ensures EducationSummaries(es + es') == EducationSummaries(es) + EducationSummaries(es')
    ensures ExperienceSummaries(xs + xs') == ExperienceSummaries(xs) + ExperienceSummaries(xs')
  {
    var a, b := EducationSummaries(es + es'), EducationSummaries(es) + EducationSummaries(es');
    assert |a| == |b|;
    forall i | 0 <= i < |a| ensures a[i] == b[i] {
      if i >= |es| {
        assert (es + es')[i] == es'[i - |es|];
      }
    }
    var c, d := ExperienceSummaries(xs + xs'), ExperienceSummaries(xs) + ExperienceSummaries(xs');
    assert |c| == |d|;
    forall i | 0 <= i < |c| ensures c[i] == d[i] {
      if i >= |xs| {
        assert (xs + xs')[i] == xs'[i - |xs|];
      }
    }
  }

  /** The "end date" detail of an education. */
  function EducationEndText(e: Education): string {
    if e.isOngoing then Ongoing else OrFallback(e.endDate, Unspecified)
  }

  function ExperienceLocationText(x: Experience): string {
    OrFallback(x.location, Unspecified)
  }

  function ExperienceDescriptionText(x: Experience): string {
    OrFallback(x.description, NoDescription)
  }

  /** The "period" detail of an experience: the start, a dash, and its end. */
  function ExperiencePeriodText(x: Experience): string {
    x.startDate + " - " + (if x.isCurrentJob then Present else OrFallback(x.endDate, Unspecified))
  }

  /**
   * An ongoing education shows "En curso" whatever end date it holds; a
   * finished one shows its end date, and an empty or absent one the same
   * fallback.
   */
  lemma EducationEndTextCases(e: Education, end: Option<string>)
    ensures e.isOngoing ==> EducationEndText(e) == EducationEndText(e.(endDate := end)) == Ongoing
    ensures !e.isOngoing && Given(e.endDate) ==> EducationEndText(e) == e.endDate.value
    ensures !e.isOngoing ==> EducationEndText(e.(endDate := Some(""))) == EducationEndText(e.(endDate := None)) == Unspecified
  {
  }

  /**
   * The period starts with the start date and " - "; for a current job the
   * rest is "Presente" whatever end date is stored, otherwise the end date
   * or the fallback.
   */
  lemma ExperiencePeriodCases(x: Experience, end: Option<string>)
    ensures var p := ExperiencePeriodText(x); var n := |x.startDate| + 3;
      && n <= |p| && p[..n] == x.startDate + " - "
      && (x.isCurrentJob ==> p[n..] == Present && p == ExperiencePeriodText(x.(endDate := end)))
      && (!x.isCurrentJob && Given(x.endDate) ==> p[n..] == x.endDate.value)
      && (!x.isCurrentJob && !Given(x.endDate) ==> p[n..] == Unspecified)
  {
    var p := ExperiencePeriodText(x);
    var n := |x.startDate| + 3;
    var tail := if x.isCurrentJob then Present else OrFallback(x.endDate, Unspecified);
    assert p == (x.startDate + " - ") + tail;
    assert p[..n] == x.startDate + " - ";
    assert p[n..] == tail;
  }

  /** Missing or empty location and description fall back to their own messages. */
  lemma MissingDetailsFallBack(x: Experience)
    ensures !Given(x.location) ==> ExperienceLocationText(x) == Unspecified
    ensures Given(x.location) ==> ExperienceLocationText(x) == x.location.value
    ensures !Given(x.description) ==> ExperienceDescriptionText(x) == NoDescription
    ensures Given(x.description) ==> ExperienceDescriptionText(x) == x.description.value
  {
  }

  /** A profile link, or the fallback text when the link is empty. */
  datatype Shown = Plain(text: string) | LinkTo(href: string, caption: string)

  function ProfileLink(url: string): (r: Shown)
    ensures r.LinkTo? <==> url != ""
    ensures r.LinkTo? ==> r.href == url && r.caption == url
    ensures r.Plain? ==> r.text == Unspecified
  {
    if url != "" then LinkTo(url, url) else Plain(Unspecified)
  }

  /** The LinkedIn and portfolio details of an application. */
  function ProfileLinks(app: Application): (Shown, Shown) {
    (ProfileLink(app.applicantLinkedin), ProfileLink(app.applicantPortfolioLink))
  }

  /** The text a reader sees for a detail. */
  function ShownText(s: Shown): string {
    match s
    case Plain(t) => t
    case LinkTo(_, c) => c
  }

  /**
   * Neither profile detail is ever blank, a link always displays the very
   * address it opens, and whatever is displayed is either the stored
   * address or, for an empty one, the fallback.
   */
  lemma ProfileLinksShowTheirTarget(app: Application)
    ensures var (linkedin, portfolio) := ProfileLinks(app);
      && ShownText(linkedin) != "" && ShownText(portfolio) != ""
      && (linkedin.LinkTo? ==> linkedin.href == ShownText(linkedin) == app.applicantLinkedin)
      && (portfolio.LinkTo? ==> portfolio.href == ShownText(portfolio) == app.applicantPortfolioLink)
      && (ShownText(linkedin) == app.applicantLinkedin || (app.applicantLinkedin == "" && ShownText(linkedin) == Unspecified))
      && (ShownText(portfolio) == app.applicantPortfolioLink || (app.applicantPortfolioLink == "" && ShownText(portfolio) == Unspecified))
  {
  }

  /**
   * No detail of an entry is ever shown blank, whatever is stored: the end
   * date, the location and the description fall back to non-empty texts,
   * and the period always has an end after the start and its dash.
   */
  lemma EntryDetailsNeverBlank(e: Education, x: Experience)
    ensures EducationEndText(e) != ""
    ensures ExperienceLocationText(x) != "" && ExperienceDescriptionText(x) != ""
    ensures |ExperiencePeriodText(x)| > |x.startDate| + 3
  {
  }

  /** "Descargar CV (n página)" or, for more than one page, "páginas". */
  function CvButtonCaption(pages: nat): string {
    "Descargar CV (" + NatToString(pages) + " página" + (if pages > 1 then "s" else "") + ")"
  }

  /** The caption ends in "s)" exactly when the CV has more than one page. */
  lemma CvButtonCaptionPlural(pages: nat)
    ensures var c := CvButtonCaption(pages);
      |c| >= 2 && (c[|c| - 2..] == "s)" <==> pages > 1)
  {
    var c := CvButtonCaption(pages);
    if pages <= 1 {
      assert c[|c| - 2] == 'a';
    }
  }

  /** Different page counts give different captions. */
  lemma CvButtonCaptionInjective(pages: nat, pages': nat)
    ensures CvButtonCaption(pages) == CvButtonCaption(pages') <==> pages == pages'
  {
    var a, b := NatToString(pages), NatToString(pages');
    var c, c' := CvButtonCaption(pages), CvButtonCaption(pages');
    var p := |"Descargar CV ("|;
    if c == c' {
      assert c == "Descargar CV (" + a + " página" + (if pages > 1 then "s" else "") + ")";
      assert c' == "Descargar CV (" + b + " página" + (if pages' > 1 then "s" else "") + ")";
      assert c[p + |a|] == ' ' && c'[p + |b|] == ' ';
      assert |a| == |b|;
      assert a == c[p..p + |a|] == b;
      NatToStringInjective(pages, pages');
    }
  }
}
