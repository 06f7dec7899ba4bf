/**
 * The prf listing scraper that the page loop uses (`prf_search`): a
 * listing item carries title, company and link as attributes and its summary
 * inline; only the tech stack needs the item's subpage.
 */
module PrfSearch {
  import opened Results
  import opened Text
  import opened Dom
  import opened Records
  import opened Extraction

  const ProfName := "data-prof-name"
  const ItemBrand := "data-item-brand"
  const DataLink := "data-link"

  /**
   * `scrape_subpage(url)`: the subpage's tech stack on status 200 and `None`
   * on any other status; a failed request raises.
   */
  function ScrapeSubpage(url: string, fetch: Fetch): (r: Outcome<Option<seq<string>>>)
    ensures r.Raised? <==> fetch(url).ConnectionFailed?
    ensures r.Ok? ==> (r.value.Some? <==> fetch(url).status == HttpOk)
    ensures r.Ok? && r.value.Some? ==> r.value.value == PrfTechStack(fetch(url).soup)
  {
    match fetch(url)
    case ConnectionFailed => Raised(ConnectionError)
    case Reply(status, soup) =>
      if status == HttpOk then Ok(Some(PrfTechStack(soup))) else Ok(None)
  }

  /**
   * The record the loop of `extract_job_info_from_result` builds for one
   * card. Title, company and link are the attributes when present and `None`
   * otherwise; the summary is always the card text, overwriting the brand
   * value assigned just before; the tech stack is the subpage's, and `None`
   * without a link. A card without the text div raises.
   */
  function ItemRecord(item: Item, fetch: Fetch): (r: Outcome<JobRecord>)
    ensures r.Ok? <==> item.cardText.Some? &&
                       (Attr(item, DataLink).Some? ==> !fetch(Attr(item, DataLink).value).ConnectionFailed?)
    ensures r.Ok? ==> r.value.title == Attr(item, ProfName) && r.value.company == Attr(item, ItemBrand)
    ensures r.Ok? ==> r.value.link == Attr(item, DataLink)
    ensures r.Ok? ==> r.value.summary == Some(Strip(GetText(item.cardText.value)))
    ensures r.Ok? && Attr(item, DataLink).None? ==> r.value.techStack.None?
    ensures r.Ok? && Attr(item, DataLink).Some? ==>
              Ok(r.value.techStack) == ScrapeSubpage(Attr(item, DataLink).value, fetch)
  {
    var link := Attr(item, DataLink);
    var tech := if link.Some? then ScrapeSubpage(link.value, fetch) else Ok(None);
    if tech.Raised? then Raised(tech.error)
    else if item.cardText.None? then Raised(AttributeError)
    else
      Ok(JobRecord(Attr(item, ProfName), Attr(item, ItemBrand),
                   Some(Strip(GetText(item.cardText.value))), link, tech.value))
  }

  /** `ItemRecord` with the web fixed, as the per-item step of the loop. */
  function RecordOf(fetch: Fetch): Item -> Outcome<JobRecord> {
    item => ItemRecord(item, fetch)
  }

  /**
   * `extract_job_info_from_result`: one record per `ul.job-cards > li`
   * card, in document order, or the exception of the first card that raises.
   */
  method ExtractJobInfo(soup: Soup, fetch: Fetch) returns (r: Outcome<Table>)
    ensures r == Collect(soup.jobCards, RecordOf(fetch))
  {
    r := CollectRecords(soup.jobCards, RecordOf(fetch));
  }

  /**
   * `scrape_main_page(url)`: the record table on status 200 and `None` on any
   * other status; exceptions from the request or from a card propagate.
   */
  function ScrapeMainPage(url: string, fetch: Fetch): (r: Outcome<Option<Table>>)
    ensures fetch(url).ConnectionFailed? ==> r == Raised(ConnectionError)
    ensures fetch(url).Reply? && fetch(url).status != HttpOk ==> r == Ok(None)
    ensures fetch(url).Reply? && fetch(url).status == HttpOk ==>
              match Collect(fetch(url).soup.jobCards, RecordOf(fetch))
              case Ok(t) => r == Ok(Some(t))
              case Raised(e) => r == Raised(e)
  {
    match fetch(url)
    case ConnectionFailed => Raised(ConnectionError)
    case Reply(status, soup) =>
      if status != HttpOk then Ok(None)
      else
        match Collect(soup.jobCards, RecordOf(fetch))
        case Raised(e) => Raised(e)
        case Ok(t) => Ok(Some(t))
  }

  /**
   * On a listing page that loads, the table has exactly one record per card,
   * in card order, with every record built by `ItemRecord`.
   */
  lemma OneRecordPerCard(url: string, fetch: Fetch)
    requires fetch(url).Reply? && fetch(url).status == HttpOk
    requires ScrapeMainPage(url, fetch).Ok?
    ensures var cards := fetch(url).soup.jobCards;
            var t := ScrapeMainPage(url, fetch).value;
            t.Some? && |t.value| == |cards| &&
            forall i :: 0 <= i < |cards| ==> Ok(t.value[i]) == ItemRecord(cards[i], fetch)
  {
    var cards := fetch(url).soup.jobCards;
    var c := Collect(cards, RecordOf(fetch));
    assert c.Ok?;
    forall i | 0 <= i < |cards| ensures Ok(c.value[i]) == ItemRecord(cards[i], fetch) {
      assert RecordOf(fetch)(cards[i]).Ok?;
    }
  }
}
