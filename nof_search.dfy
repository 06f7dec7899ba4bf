/**
 * The nof listing scraper that the page loop uses (`nof_search`): a listing
 * item carries only a title and a relative link; company, summary and tech
 * stack all come from one fetch of the item's subpage.
 */
module NofSearch {
  import opened Results
  import opened Text
  import opened Dom
  import opened Records
  import opened Extraction

  const Href := "href"

  /** How many leading characters of the site URL form the link base (`NOF_URL[:23]`). */
  const BaseLength := 23

  /** `NOF_URL_BASE`: the first 23 characters of the configured site URL, or all of a shorter one. */
  function LinkBase(siteUrl: string): (r: string)
    ensures |r| == if |siteUrl| < BaseLength then |siteUrl| else BaseLength
    ensures r == siteUrl[..|r|]
  {
    Take(siteUrl, BaseLength)
  }

  /**
   * `scrape_subpage(url)`: on status 200 the company, summary and tech stack
   * of the subpage (raising when the musts section or company anchor is
   * missing); on any other status ("", "", []).
   */
  function ScrapeSubpage(url: string, fetch: Fetch): (r: Outcome<Enrichment>)
    ensures fetch(url).ConnectionFailed? ==> r == Raised(ConnectionError)
    ensures fetch(url).Reply? && fetch(url).status != HttpOk ==> r == Ok(NoEnrichment)
    ensures fetch(url).Reply? && fetch(url).status == HttpOk ==>
              var soup := fetch(url).soup;
              (r.Ok? <==> soup.musts.Some? && soup.companyAnchor.Some?) &&
              (r.Ok? ==> r.value == Enrichment(NofCompany(soup).value, SummaryOf(soup.headings),
                                               NofTechStack(soup).value))
  {
    match fetch(url)
    case ConnectionFailed => Raised(ConnectionError)
    case Reply(status, soup) =>
      if status != HttpOk then Ok(NoEnrichment)
      else
        match NofTechStack(soup)
        case Raised(e) => Raised(e)
        case Ok(tech) =>
          match NofCompany(soup)
          case Raised(e) => Raised(e)
          case Ok(company) => Ok(Enrichment(company, SummaryOf(soup.headings), tech))
  }

  /**
   * The record the loop of `extract_job_info_from_result` builds for one
   * posting anchor: the stripped `h3` title (a missing `h3` raises); with an
   * `href`, the link `base + href` and the subpage's company, summary and
   * tech stack; without one, those four stay `None`.
   */
  function ItemRecord(item: Item, base: string, fetch: Fetch): (r: Outcome<JobRecord>)
    ensures item.positionTitle.None? ==> r == Raised(AttributeError)
    ensures r.Ok? ==> r.value.title == Some(Strip(GetText(item.positionTitle.value)))
    ensures item.positionTitle.Some? && Attr(item, Href).None? ==>
              r.Ok? && r.value.company.None? && r.value.summary.None?
              && r.value.link.None? && r.value.techStack.None?
    ensures item.positionTitle.Some? && Attr(item, Href).Some? ==>
              var link := base + Attr(item, Href).value;
              (r.Ok? <==> ScrapeSubpage(link, fetch).Ok?) &&
              (r.Raised? ==> r.error == ScrapeSubpage(link, fetch).error) &&
              (r.Ok? ==> var e := ScrapeSubpage(link, fetch).value;
                         r.value.link == Some(link) && r.value.company == Some(e.company)
                         && r.value.summary == Some(e.summary) && r.value.techStack == Some(e.techStack))
  {
    match item.positionTitle
    case None => Raised(AttributeError)
    case Some(h3) =>
      var title := Strip(GetText(h3));
      match Attr(item, Href)
      case None => Ok(JobRecord(Some(title), None, None, None, None))
      case Some(href) =>
        var link := base + href;
        match ScrapeSubpage(link, fetch)
        case Raised(e) => Raised(e)
        case Ok(e) => Ok(JobRecord(Some(title), Some(e.company), Some(e.summary), Some(link), Some(e.techStack)))
  }

  /** `ItemRecord` with the link base and the web fixed, as the per-item step of the loop. */
  function RecordOf(base: string, fetch: Fetch): Item -> Outcome<JobRecord> {
    item => ItemRecord(item, base, fetch)
  }

  /**
   * `extract_job_info_from_result`: one record per `a.posting-list-item`, in
   * document order, or the exception of the first anchor that raises.
   */
  method ExtractJobInfo(soup: Soup, base: string, fetch: Fetch) returns (r: Outcome<Table>)
    ensures r == Collect(soup.postingItems, RecordOf(base, fetch))
  {
    r := CollectRecords(soup.postingItems, RecordOf(base, fetch));
  }

  /**
   * `scrape_main_page(url)`: the record table on status 200 and an empty
   * table (never `None`) on any other status.
   */
  function ScrapeMainPage(url: string, base: string, fetch: Fetch): (r: Outcome<Option<Table>>)
    ensures r.Ok? ==> r.value.Some?
    ensures fetch(url).ConnectionFailed? ==> r == Raised(ConnectionError)
    ensures fetch(url).Reply? && fetch(url).status != HttpOk ==> r == Ok(Some([]))
    ensures fetch(url).Reply? && fetch(url).status == HttpOk ==>
              match Collect(fetch(url).soup.postingItems, RecordOf(base, fetch))
              case Ok(t) => r == Ok(Some(t))
              case Raised(e) => r == Raised(e)
  {
    match fetch(url)
    case ConnectionFailed => Raised(ConnectionError)
    case Reply(status, soup) =>
      if status != HttpOk then Ok(Some([]))
      else
        match Collect(soup.postingItems, RecordOf(base, fetch))
        case Raised(e) => Raised(e)
        case Ok(t) => Ok(Some(t))
  }

  /**
   * A subpage that does not load leaves the item's title and link in place
   * and fills company, summary and tech stack with "", "" and [].
   */
  lemma FailedSubpageDegrades(item: Item, base: string, fetch: Fetch)
    requires item.positionTitle.Some? && Attr(item, Href).Some?
    requires fetch(base + Attr(item, Href).value).Reply?
    requires fetch(base + Attr(item, Href).value).status != HttpOk
    ensures ItemRecord(item, base, fetch) ==
            Ok(JobRecord(Some(Strip(GetText(item.positionTitle.value))), Some(""), Some(""),
                         Some(base + Attr(item, Href).value), Some([])))
  {
  }
}
