/**
 * The class-based scraper generation: the `Scraper` base class with its two
 * subclasses `PrfScraper` and `NofScraper`. A scraper holds only the URL it
 * was built with and never changes it, so it is a value here, and the
 * overridden hooks dispatch on which site it scrapes.
 *
 * Unlike the function modules, a missing attribute here leaves a local
 * unbound, and `get_job_info_data` raises instead of returning `None` fields.
 */
module Scrapers {
  import opened Results
  import opened Text
  import opened Dom
  import opened Records
  import opened Extraction
  import PrfSearch
  import NofSearch

  datatype Site = PrfSite | NofSite

  /** A `PrfScraper(url)` or a `NofScraper(url)`. */
  datatype Scraper = Scraper(site: Site, url: string)

  /** `find_job_items`: the `ul.job-cards > li` cards, or the `a.posting-list-item` anchors. */
  function FindJobItems(sc: Scraper, soup: Soup): seq<Item> {
    match sc.site
    case PrfSite => soup.jobCards
    case NofSite => soup.postingItems
  }

  /** `extract_job_tech_stack_from_result` of each subclass. */
  function TechStackHook(sc: Scraper, soup: Soup): (r: Outcome<seq<string>>)
    ensures r.Raised? <==> sc.site == NofSite && soup.musts.None?
  {
    match sc.site
    case PrfSite => Ok(PrfTechStack(soup))
    case NofSite => NofTechStack(soup)
  }

  /** `extract_job_summary_from_subpage`: "" by default, the heading search for nof. */
  function SummaryHook(sc: Scraper, soup: Soup): string {
    match sc.site
    case PrfSite => ""
    case NofSite => SummaryOf(soup.headings)
  }

  /** `extract_company_name_from_subpage`: "" by default, the company anchor for nof. */
  function CompanyHook(sc: Scraper, soup: Soup): (r: Outcome<string>)
    ensures r.Raised? <==> sc.site == NofSite && soup.companyAnchor.None?
    ensures sc.site == PrfSite ==> r == Ok("")
  {
    match sc.site
    case PrfSite => Ok("")
    case NofSite => NofCompany(soup)
  }

  /**
   * `scrape_subpage(url)`: on status 200 the company, summary and tech stack
   * the three hooks extract from the same page (in the order tech, company,
   * summary); on any other status ("", "", []).
   */
  function ScrapeSubpage(sc: Scraper, url: string, fetch: Fetch): (r: Outcome<Enrichment>)
    ensures fetch(url).ConnectionFailed? ==> r == Raised(ConnectionError)
    ensures fetch(url).Reply? && fetch(url).status != HttpOk ==> r == Ok(NoEnrichment)
    ensures fetch(url).Reply? && fetch(url).status == HttpOk ==>
              var soup := fetch(url).soup;
              (r.Ok? <==> TechStackHook(sc, soup).Ok? && CompanyHook(sc, soup).Ok?) &&
              (r.Raised? ==> r.error == if TechStackHook(sc, soup).Raised? then TechStackHook(sc, soup).error
                                        else CompanyHook(sc, soup).error) &&
              (r.Ok? ==> r.value == Enrichment(CompanyHook(sc, soup).value, SummaryHook(sc, soup),
                                               TechStackHook(sc, soup).value))
  {
    match fetch(url)
    case ConnectionFailed => Raised(ConnectionError)
    case Reply(status, soup) =>
      if status != HttpOk then Ok(NoEnrichment)
      else
        match TechStackHook(sc, soup)
        case Raised(e) => Raised(e)
        case Ok(tech) =>
          match CompanyHook(sc, soup)
          case Raised(e) => Raised(e)
          case Ok(company) => Ok(Enrichment(company, SummaryHook(sc, soup), tech))
  }

  /**
   * A prf scraper keeps the base class's empty company and summary, and its
   * subpage scrape raises only when the request fails.
   */
  lemma PrfSubpageGivesOnlyTechStack(sc: Scraper, url: string, fetch: Fetch)
    requires sc.site == PrfSite
    ensures ScrapeSubpage(sc, url, fetch).Raised? <==> fetch(url).ConnectionFailed?
    ensures ScrapeSubpage(sc, url, fetch).Ok? ==>
              var e := ScrapeSubpage(sc, url, fetch).value;
              e.company == "" && e.summary == ""
              && e.techStack == if fetch(url).status == HttpOk then PrfTechStack(fetch(url).soup) else []
  {
  }

  /**
   * `PrfScraper.get_job_info_data`: title, company and link from the
   * attributes, the summary from the card text (overwriting the brand), the
   * tech stack as component 2 of the subpage triple. The subpage is fetched
   * first, then the card text is read, then the locals are returned, so a
   * missing attribute raises only after those.
   */
  function PrfJobInfoData(sc: Scraper, item: Item, fetch: Fetch): (r: Outcome<JobRecord>)
    ensures r.Ok? <==> item.cardText.Some? && Attr(item, PrfSearch.ProfName).Some?
                       && Attr(item, PrfSearch.ItemBrand).Some? && Attr(item, PrfSearch.DataLink).Some?
                       && ScrapeSubpage(sc, Attr(item, PrfSearch.DataLink).value, fetch).Ok?
    ensures r.Ok? ==> r.value.title == Attr(item, PrfSearch.ProfName)
                      && r.value.company == Attr(item, PrfSearch.ItemBrand)
    ensures r.Ok? ==> r.value.link == Attr(item, PrfSearch.DataLink)
                      && r.value.summary == Some(Strip(GetText(item.cardText.value)))
    ensures r.Ok? ==> r.value.techStack == Some(ScrapeSubpage(sc, r.value.link.value, fetch).value.techStack)
    ensures item.cardText.Some? && Attr(item, PrfSearch.ProfName).None? &&
            (Attr(item, PrfSearch.DataLink).Some? ==> ScrapeSubpage(sc, Attr(item, PrfSearch.DataLink).value, fetch).Ok?)
            ==> r == Raised(UnboundLocalError)
  {
    var title := Attr(item, PrfSearch.ProfName);
    var company := Attr(item, PrfSearch.ItemBrand);
    var link := Attr(item, PrfSearch.DataLink);
    var sub := if link.Some? then ScrapeSubpage(sc, link.value, fetch) else Ok(NoEnrichment);
    if sub.Raised? then Raised(sub.error)
    else if item.cardText.None? then Raised(AttributeError)
    else if title.None? || company.None? || link.None? then Raised(UnboundLocalError)
    else Ok(JobRecord(title, company, Some(Strip(GetText(item.cardText.value))), link,
                      Some(sub.value.techStack)))
  }

  /**
   * `NofScraper.get_job_info_data`: the stripped `h3` title (a missing `h3`
   * raises), the link `NOF_URL[:23] + href`, and company, summary and tech
   * stack from one subpage scrape; without an `href` the link is unbound and
   * the call raises.
   */
  function NofJobInfoData(sc: Scraper, item: Item, siteUrl: string, fetch: Fetch): (r: Outcome<JobRecord>)
    ensures item.positionTitle.None? ==> r == Raised(AttributeError)
    ensures item.positionTitle.Some? && Attr(item, NofSearch.Href).None? ==> r == Raised(UnboundLocalError)
    ensures item.positionTitle.Some? && Attr(item, NofSearch.Href).Some? ==>
              var link := NofSearch.LinkBase(siteUrl) + Attr(item, NofSearch.Href).value;
              var sub := ScrapeSubpage(sc, link, fetch);
              (r.Ok? <==> sub.Ok?) &&
              (r.Ok? ==> r.value == JobRecord(Some(Strip(GetText(item.positionTitle.value))),
                                              Some(sub.value.company), Some(sub.value.summary),
                                              Some(link), Some(sub.value.techStack)))
  {
    match item.positionTitle
    case None => Raised(AttributeError)
    case Some(h3) =>
      var title := Strip(GetText(h3));
      var base := NofSearch.LinkBase(siteUrl);
      match Attr(item, NofSearch.Href)
      case None => Raised(UnboundLocalError)
      case Some(href) =>
        var link := base + href;
        match ScrapeSubpage(sc, link, fetch)
        case Raised(e) => Raised(e)
        case Ok(e) => Ok(JobRecord(Some(title), Some(e.company), Some(e.summary), Some(link), Some(e.techStack)))
  }

  /** `get_job_info_data`, dispatched on the subclass. */
  function JobInfoData(sc: Scraper, item: Item, siteUrl: string, fetch: Fetch): (r: Outcome<JobRecord>)
    ensures r.Ok? ==> r.value.title.Some? && r.value.company.Some? && r.value.summary.Some?
                      && r.value.link.Some? && r.value.techStack.Some?
  {
    match sc.site
    case PrfSite => PrfJobInfoData(sc, item, fetch)
    case NofSite => NofJobInfoData(sc, item, siteUrl, fetch)
  }

  /** `JobInfoData` with the scraper and the environment fixed, as the per-item step of the loop. */
  function RecordOf(sc: Scraper, siteUrl: string, fetch: Fetch): Item -> Outcome<JobRecord> {
    item => JobInfoData(sc, item, siteUrl, fetch)
  }

  /**
   * `Scraper.extract_job_info_from_result`: for every item `find_job_items`
   * yields, in order, the record whose five keys are filled positionally
   * from `get_job_info_data`; the first item that raises aborts the call.
   */
  method ExtractJobInfo(sc: Scraper, soup: Soup, siteUrl: string, fetch: Fetch) returns (r: Outcome<Table>)
    ensures r == Collect(FindJobItems(sc, soup), RecordOf(sc, siteUrl, fetch))
  {
    r := CollectRecords(FindJobItems(sc, soup), RecordOf(sc, siteUrl, fetch));
  }

  /**
   * `Scraper.scrape_main_page()`: fetch the scraper's own URL; the record
   * table on status 200 and an empty table on any other status.
   */
  function ScrapeMainPage(sc: Scraper, siteUrl: string, fetch: Fetch): (r: Outcome<Table>)
    ensures fetch(sc.url).ConnectionFailed? ==> r == Raised(ConnectionError)
    ensures fetch(sc.url).Reply? && fetch(sc.url).status != HttpOk ==> r == Ok([])
    ensures fetch(sc.url).Reply? && fetch(sc.url).status == HttpOk ==>
              r == Collect(FindJobItems(sc, fetch(sc.url).soup), RecordOf(sc, siteUrl, fetch))
  {
    match fetch(sc.url)
    case ConnectionFailed => Raised(ConnectionError)
    case Reply(status, soup) =>
      if status != HttpOk then Ok([])
      else Collect(FindJobItems(sc, soup), RecordOf(sc, siteUrl, fetch))
  }

  /** Every record this generation produces has all five fields filled. */
  lemma RecordsAreComplete(sc: Scraper, siteUrl: string, fetch: Fetch)
    requires ScrapeMainPage(sc, siteUrl, fetch).Ok?
    ensures forall rec :: rec in ScrapeMainPage(sc, siteUrl, fetch).value ==>
              rec.title.Some? && rec.company.Some? && rec.summary.Some? && rec.link.Some? && rec.techStack.Some?
  {
    var t := ScrapeMainPage(sc, siteUrl, fetch).value;
    if fetch(sc.url).Reply? && fetch(sc.url).status == HttpOk {
      var items := FindJobItems(sc, fetch(sc.url).soup);
      forall rec | rec in t
        ensures rec.title.Some? && rec.company.Some? && rec.summary.Some? && rec.link.Some? && rec.techStack.Some?
      {
        var i :| 0 <= i < |t| && t[i] == rec;
        assert RecordOf(sc, siteUrl, fetch)(items[i]).Ok?;
      }
    }
  }

  /**
   * On a fully attributed prf card the two generations agree on title,
   * company, summary and link; the tech stack agrees when the subpage loads,
   * and is [] here where the function module gives `None`.
   */
  lemma PrfGenerationsAgree(sc: Scraper, item: Item, fetch: Fetch)
    requires sc.site == PrfSite
    requires item.cardText.Some?
    requires Attr(item, PrfSearch.ProfName).Some? && Attr(item, PrfSearch.ItemBrand).Some?
    requires Attr(item, PrfSearch.DataLink).Some?
    ensures var a := PrfSearch.ItemRecord(item, fetch);
            var b := JobInfoData(sc, item, "", fetch);
            (a.Ok? <==> b.Ok?) &&
            (a.Ok? ==> a.value.title == b.value.title && a.value.company == b.value.company
                       && a.value.summary == b.value.summary && a.value.link == b.value.link
                       && b.value.techStack == Some(if a.value.techStack.Some? then a.value.techStack.value else []))
  {
  }

  /**
   * With an `href` the two nof generations build the same record; without
   * one the function module keeps `None` fields while this one raises.
   */
  lemma NofGenerationsAgree(sc: Scraper, item: Item, siteUrl: string, fetch: Fetch)
    requires sc.site == NofSite
    ensures Attr(item, NofSearch.Href).Some? ==>
              JobInfoData(sc, item, siteUrl, fetch) == NofSearch.ItemRecord(item, NofSearch.LinkBase(siteUrl), fetch)
    ensures Attr(item, NofSearch.Href).None? && item.positionTitle.Some? ==>
              JobInfoData(sc, item, siteUrl, fetch) == Raised(UnboundLocalError)
              && NofSearch.ItemRecord(item, NofSearch.LinkBase(siteUrl), fetch).Ok?
  {
    if Attr(item, NofSearch.Href).Some? && item.positionTitle.Some? {
      var link := NofSearch.LinkBase(siteUrl) + Attr(item, NofSearch.Href).value;
      assert ScrapeSubpage(sc, link, fetch) == NofSearch.ScrapeSubpage(link, fetch);
    }
  }

  /** A node holding one text without surrounding whitespace reads back as that text, stripped or not. */
  lemma SingleFragmentText(text: string)
    requires text == [] || (!IsSpace(text[0]) && !IsSpace(text[|text| - 1]))
    ensures Strip(GetText([text])) == text && GetTextStripped([text]) == text
  {
    var f := [text];
    assert f[..|f| - 1] == [];
    assert GetText(f) == text by {
      assert [] + text == text;
    }
    assert GetTextStripped(f) == Strip(text) by {
      assert [] + Strip(text) == Strip(text);
    }
    StripKeepsTrimmed(text);
  }

  /** Nodes that each hold one text without surrounding whitespace read back as those texts. */
  lemma SingleFragmentTexts(nodes: seq<Fragments>, texts: seq<string>)
    requires |nodes| == |texts|
    requires forall i :: 0 <= i < |texts| ==> nodes[i] == [texts[i]]
    requires forall i :: 0 <= i < |texts| ==> texts[i] == [] || (!IsSpace(texts[i][0]) && !IsSpace(texts[i][|texts[i]| - 1]))
    ensures StrippedTexts(nodes) == texts
  {
    forall i | 0 <= i < |texts| ensures StrippedTexts(nodes)[i] == texts[i] {
      SingleFragmentText(texts[i]);
    }
  }

  /** The first card of the prf test page. */
  const ExampleCard := Item(map[PrfSearch.ProfName := "Job Title 1", PrfSearch.ItemBrand := "Company 1",
                                PrfSearch.DataLink := "https://example.com/job_link_1"],
                            Some(["Job Summary 1"]), None)

  /** The test card carries its title, brand and link as attributes. */
  lemma ExampleCardAttributes()
    ensures Attr(ExampleCard, PrfSearch.ProfName) == Some("Job Title 1")
    ensures Attr(ExampleCard, PrfSearch.ItemBrand) == Some("Company 1")
    ensures Attr(ExampleCard, PrfSearch.DataLink) == Some("https://example.com/job_link_1")
  {
  }

  /**
   * The test card gives its title, company, card text and link, whatever
   * the subpage holds, as long as the subpage request itself succeeds.
   */
  lemma PrfCardExample(sc: Scraper, fetch: Fetch)
    requires sc.site == PrfSite
    requires fetch("https://example.com/job_link_1").Reply?
    ensures var r := JobInfoData(sc, ExampleCard, "", fetch);
            r.Ok? && r.value.title == Some("Job Title 1") && r.value.company == Some("Company 1")
            && r.value.summary == Some("Job Summary 1") && r.value.link == Some("https://example.com/job_link_1")
  {
    ExampleCardAttributes();
    PrfSubpageGivesOnlyTechStack(sc, "https://example.com/job_link_1", fetch);
    SingleFragmentText("Job Summary 1");
  }

  /** The musts section with the items "Technology 1" and "Technology 2" gives exactly those two. */
  lemma NofTechStackExample(sc: Scraper, soup: Soup)
    requires sc.site == NofSite
    requires soup.musts == Some([["Technology 1"], ["Technology 2"]])
    ensures TechStackHook(sc, soup) == Ok(["Technology 1", "Technology 2"])
  {
    SingleFragmentTexts(soup.musts.value, ["Technology 1", "Technology 2"]);
  }

  /** The summary heading of the nof test page, with its read-more div. */
  const ExampleHeading := Heading(["projekt rövid leírása"], Some(ReadMore(Some(["Job Summary Text"]))))

  /** That heading holds the marker and has a read-more div, whose text is "Job Summary Text". */
  lemma ExampleHeadingQualifies()
    ensures Qualifies(ExampleHeading) && SummaryText(ExampleHeading) == "Job Summary Text"
  {
    SingleFragmentText("projekt rövid leírása");
    SingleFragmentText("Job Summary Text");
    HeadingHoldsMarker();
  }

  /** The heading text starts with the marker. */
  lemma HeadingHoldsMarker()
    ensures Contains("projekt rövid leírása", SummaryMarker)
  {
    assert "projekt rövid leírása"[..|SummaryMarker|] == SummaryMarker;
  }

  /** The heading "projekt rövid leírása" followed by a read-more div gives that div's text as the summary. */
  lemma NofSummaryExample(sc: Scraper, soup: Soup)
    requires sc.site == NofSite
    requires soup.headings == [ExampleHeading]
    ensures SummaryHook(sc, soup) == "Job Summary Text"
  {
    ExampleHeadingQualifies();
  }

  /** The anchor `postingCompanyUrl` with the text "Company Name" gives that company. */
  lemma NofCompanyExample(sc: Scraper, soup: Soup)
    requires sc.site == NofSite
    requires soup.companyAnchor == Some(["Company Name"])
    ensures CompanyHook(sc, soup) == Ok("Company Name")
  {
    SingleFragmentText("Company Name");
  }
}
