/**
 * `perform_scraping(prefix)`: the page loop that builds each listing URL,
 * scrapes it, drops pages that give nothing or raise, serialises the tech
 * stacks of the rest and concatenates their records, waiting once after each
 * page that contributed.
 */
module Orchestrator {
  import opened Results
  import opened Text
  import opened Dom
  import opened Records
  import PrfSearch
  import NofSearch

  /** The environment and search terms the loop reads: `PRF_URL`, `NOF_URL` and `search_kws`. */
  datatype Config = Config(prfUrl: string, nofUrl: string, keyword0: string, keyword1: string)

  /** A record as stored: the tech stack replaced by its JSON text. */
  datatype StoredRecord = StoredRecord(
    title: Option<string>,
    company: Option<string>,
    summary: Option<string>,
    link: Option<string>,
    techJson: string)

  /** `json.dumps` applied to a tech-stack cell. */
  type Dumps = Option<seq<string>> -> string

  const Prf := "prf"
  const Nof := "nof"

  /** The number of pages in `range(1, 2 + (prefix == "prf") * 3)`. */
  function PageCount(prefix: string): (n: nat)
    ensures n >= 1
  {
    1 + (if prefix == Prf then 3 else 0)
  }

  /** The prf listing URL of one page. */
  function PrfPageUrl(cfg: Config, page: nat): string {
    cfg.prfUrl + (Decimal(page) + PrfQuery(cfg))
  }

  /** What follows the page number in a prf listing URL: the lower-cased keywords. */
  function PrfQuery(cfg: Config): string {
    ",10,23," + Lower(cfg.keyword0) + "%20" + Lower(cfg.keyword1)
  }

  /** The nof listing URL of one page; the keywords keep their case. */
  function NofPageUrl(cfg: Config, page: nat): string {
    NofQuery(cfg) + Decimal(page)
  }

  /** What precedes the page number in a nof listing URL: the keywords as given. */
  function NofQuery(cfg: Config): string {
    cfg.nofUrl + cfg.keyword0 + "?criteria=keyword%3D" + cfg.keyword1 + "&page="
  }

  /**
   * A prf listing URL is the site URL, then the page number, which reads
   * back as the page, then the lower-cased keyword query.
   */
  lemma PrfPageUrlNamesPage(cfg: Config, page: nat)
    ensures var url := PrfPageUrl(cfg, page);
            var k := |cfg.prfUrl|;
            var digits := url[k..|url| - |PrfQuery(cfg)|];
            url[..k] == cfg.prfUrl && url[|url| - |PrfQuery(cfg)|..] == PrfQuery(cfg)
            && (forall i :: 0 <= i < |digits| ==> IsDigit(digits[i])) && DecimalValue(digits) == page
  {
    var url := PrfPageUrl(cfg, page);
    var d := Decimal(page);
    var k := |cfg.prfUrl|;
    assert url[k..|url| - |PrfQuery(cfg)|] == d;
    DecimalRoundTrip(page);
  }

  /**
   * A nof listing URL is the keyword query (keywords in their own case) with
   * the page number at the end, which reads back as the page.
   */
  lemma NofPageUrlNamesPage(cfg: Config, page: nat)
    ensures var url := NofPageUrl(cfg, page);
            var digits := url[|NofQuery(cfg)|..];
            url[..|NofQuery(cfg)|] == NofQuery(cfg)
            && (forall i :: 0 <= i < |digits| ==> IsDigit(digits[i])) && DecimalValue(digits) == page
  {
    var url := NofPageUrl(cfg, page);
    assert url[|NofQuery(cfg)|..] == Decimal(page);
    DecimalRoundTrip(page);
  }

  /** The URL the loop requests for a page; an unknown prefix never binds one. */
  function PageUrl(prefix: string, cfg: Config, page: nat): (r: Option<string>)
    ensures r.Some? <==> prefix == Prf || prefix == Nof
  {
    if prefix == Prf then Some(PrfPageUrl(cfg, page))
    else if prefix == Nof then Some(NofPageUrl(cfg, page))
    else None
  }

  /**
   * `scrape_function(URL)` for one page: the prf or nof `scrape_main_page`;
   * for any other prefix reading the unbound `scrape_function` raises
   * (`URL` is unbound too).
   */
  function ScrapePage(prefix: string, cfg: Config, page: nat, fetch: Fetch): (r: Outcome<Option<Table>>)
    ensures prefix != Prf && prefix != Nof ==> r == Raised(UnboundLocalError)
    ensures r.Ok? && r.value.None? ==> prefix == Prf
  {
    if prefix == Prf then PrfSearch.ScrapeMainPage(PrfPageUrl(cfg, page), fetch)
    else if prefix == Nof then NofSearch.ScrapeMainPage(NofPageUrl(cfg, page), NofSearch.LinkBase(cfg.nofUrl), fetch)
    else Raised(UnboundLocalError)
  }

  /**
   * `job_info_df["job_tech_stack"].apply(json.dumps)`: each record's tech
   * stack becomes its JSON text; the other four fields are kept as they are.
   */
  function Serialize(t: Table, dumps: Dumps): (r: seq<StoredRecord>)
    ensures |r| == |t|
    ensures forall i :: 0 <= i < |t| ==>
              r[i].title == t[i].title && r[i].company == t[i].company
              && r[i].summary == t[i].summary && r[i].link == t[i].link
              && r[i].techJson == dumps(t[i].techStack)
  {
    seq(|t|, i requires 0 <= i < |t| =>
          StoredRecord(t[i].title, t[i].company, t[i].summary, t[i].link, dumps(t[i].techStack)))
  }

  /**
   * What one page adds to the result: its serialised records when the scrape
   * returned a table holding a `job_tech_stack` column, i.e. a non-empty one.
   * `None`, an exception, or an empty table (whose column lookup raises
   * `KeyError`) add nothing.
   */
  function Contribution(outcome: Outcome<Option<Table>>, dumps: Dumps): (r: Option<seq<StoredRecord>>)
    ensures r.Some? <==> outcome.Ok? && outcome.value.Some? && outcome.value.value != []
    ensures r.Some? ==> r.value == Serialize(outcome.value.value, dumps) && r.value != []
  {
    match outcome
    case Raised(_) => None
    case Ok(None) => None
    case Ok(Some(t)) => if t == [] then None else Some(Serialize(t, dumps))
  }

  /** The state of a run: the records collected, the delays issued, the URLs requested. */
  datatype Run = Run(records: seq<StoredRecord>, delays: nat, requested: seq<string>)

  /**
   * One site as the loop sees it: the URL it binds for each page (none for
   * an unknown prefix) and what scraping that page gives.
   */
  datatype Source = Source(url: nat -> Option<string>, scrape: nat -> Outcome<Option<Table>>)

  /** The source the loop builds for `prefix`. */
  function SourceOf(prefix: string, cfg: Config, fetch: Fetch): Source {
    Source((page: nat) => PageUrl(prefix, cfg, page), (page: nat) => ScrapePage(prefix, cfg, page, fetch))
  }

  /** The records page `page` adds: its contribution, or nothing. */
  function Added(src: Source, dumps: Dumps, page: nat): seq<StoredRecord> {
    match Contribution(src.scrape(page), dumps)
    case None => []
    case Some(rows) => rows
  }

  /** The listing URL requested for page `page`, if the prefix bound one. */
  function Requested(src: Source, page: nat): seq<string> {
    match src.url(page)
    case None => []
    case Some(url) => [url]
  }

  /** The state after the loop has handled pages 1 to `n`. */
  function Harvest(src: Source, dumps: Dumps, n: nat): (r: Run)
    ensures r.delays <= n && |r.requested| <= n
  {
    if n == 0 then Run([], 0, [])
    else
      var prev := Harvest(src, dumps, n - 1);
      var added := Added(src, dumps, n);
      Run(prev.records + added, prev.delays + (if added == [] then 0 else 1), prev.requested + Requested(src, n))
  }

  /**
   * The page loop of `perform_scraping` over one source, for pages 1 to
   * `pages`: the records it hands to the database and CSV writers, the
   * number of `time.sleep` calls, and the listing URLs it requested, in order.
   */
  method RunPages(src: Source, dumps: Dumps, pages: nat)
    returns (all: seq<StoredRecord>, delays: nat, requested: seq<string>)
    ensures Run(all, delays, requested) == Harvest(src, dumps, pages)
  {
    all, delays, requested := [], 0, [];
    var page := 1;
    while page <= pages
      invariant 1 <= page <= pages + 1
      invariant Run(all, delays, requested) == Harvest(src, dumps, page - 1)
    {
      var url := src.url(page);
      if url.Some? {
        requested := requested + [url.value];
      }
      var outcome := src.scrape(page);
      if outcome.Ok? && outcome.value.Some? {
        var table := outcome.value.value;
        if table != [] {
          all := all + Serialize(table, dumps);
          delays := delays + 1;
        }
      }
      assert Harvest(src, dumps, page).requested == requested;
      page := page + 1;
    }
  }

  /** `perform_scraping(prefix)`: the page loop over the source `prefix` selects. */
  method PerformScraping(prefix: string, cfg: Config, fetch: Fetch, dumps: Dumps)
    returns (all: seq<StoredRecord>, delays: nat, requested: seq<string>)
    ensures Run(all, delays, requested) == Harvest(SourceOf(prefix, cfg, fetch), dumps, PageCount(prefix))
  {
    var stop := 2 + (if prefix == Prf then 3 else 0);
    all, delays, requested := RunPages(SourceOf(prefix, cfg, fetch), dumps, stop - 1);
  }

  /** prf requests pages 1 to 4, nof page 1 only, and any other prefix nothing. */
  lemma PagesRequested(cfg: Config, fetch: Fetch, dumps: Dumps, prefix: string)
    ensures var run := Harvest(SourceOf(prefix, cfg, fetch), dumps, PageCount(prefix));
            run.requested == if prefix == Prf then [PrfPageUrl(cfg, 1), PrfPageUrl(cfg, 2), PrfPageUrl(cfg, 3), PrfPageUrl(cfg, 4)]
                             else if prefix == Nof then [NofPageUrl(cfg, 1)]
                             else []
  {
    var src := SourceOf(prefix, cfg, fetch);
    if prefix == Prf {
      var urls := [PrfPageUrl(cfg, 1), PrfPageUrl(cfg, 2), PrfPageUrl(cfg, 3), PrfPageUrl(cfg, 4)];
      forall i | 0 <= i < 4 ensures src.url(i + 1) == Some(urls[i]) {
        assert urls[i] == PrfPageUrl(cfg, i + 1);
      }
      BoundPagesRequested(src, dumps, urls);
      assert PageCount(prefix) == |urls|;
    } else if prefix == Nof {
      BoundPagesRequested(src, dumps, [NofPageUrl(cfg, 1)]);
      assert PageCount(prefix) == 1;
    } else {
      HarvestConcatenatesPages(src, dumps, 1);
    }
  }

  /** When pages 1 to |urls| each bind a URL, the loop requests exactly those URLs, in page order. */
  lemma {:induction false} BoundPagesRequested(src: Source, dumps: Dumps, urls: seq<string>)
    requires forall i :: 0 <= i < |urls| ==> src.url(i + 1) == Some(urls[i])
    ensures Harvest(src, dumps, |urls|).requested == urls
  {
    var pages := RequestedByPage(src, |urls|);
    HarvestIsConcatenation(src, dumps, |urls|);
    forall i | 0 <= i < |urls| ensures pages[i] == [urls[i]] {
      assert src.url(i + 1) == Some(urls[i]);
    }
    ConcatOfSingletons(pages, urls);
  }

  /** Pieces of one element each run together into the list of those elements. */
  lemma {:induction false} ConcatOfSingletons<T>(parts: seq<seq<T>>, xs: seq<T>)
    requires |parts| == |xs| && forall i :: 0 <= i < |xs| ==> parts[i] == [xs[i]]
    ensures Concat(parts) == xs
  {
    if xs != [] {
      var n := |xs|;
      ConcatOfSingletons(parts[..n - 1], xs[..n - 1]);
      assert xs == xs[..n - 1] + [xs[n - 1]];
    }
  }

  /** One more page appends what it added, one delay if it added anything, and its URL. */
  lemma {:induction false} HarvestConcatenatesPages(src: Source, dumps: Dumps, n: nat)
    requires n >= 1
    ensures Harvest(src, dumps, n).records == Harvest(src, dumps, n - 1).records + Added(src, dumps, n)
    ensures Harvest(src, dumps, n).delays == Harvest(src, dumps, n - 1).delays + (if Added(src, dumps, n) == [] then 0 else 1)
    ensures Harvest(src, dumps, n).requested == Harvest(src, dumps, n - 1).requested + Requested(src, n)
  {
  }

  /** The pieces run together, in order. */
  function Concat<T>(parts: seq<seq<T>>): seq<T> {
    if |parts| == 0 then [] else Concat(parts[..|parts| - 1]) + parts[|parts| - 1]
  }

  /** How many of the pieces are non-empty. */
  function NonEmptyCount<T>(parts: seq<seq<T>>): nat {
    if |parts| == 0 then 0
    else NonEmptyCount(parts[..|parts| - 1]) + (if |parts[|parts| - 1]| == 0 then 0 else 1)
  }

  /** What each of pages 1 to `n` adds, in page order. */
  function AddedByPage(src: Source, dumps: Dumps, n: nat): (r: seq<seq<StoredRecord>>)
    ensures |r| == n && forall i :: 0 <= i < n ==> r[i] == Added(src, dumps, i + 1)
  {
    seq(n, i requires 0 <= i < n => Added(src, dumps, i + 1))
  }

  /** The URL bound for each of pages 1 to `n`, in page order. */
  function RequestedByPage(src: Source, n: nat): (r: seq<seq<string>>)
    ensures |r| == n && forall i :: 0 <= i < n ==> r[i] == Requested(src, i + 1)
  {
    seq(n, i requires 0 <= i < n => Requested(src, i + 1))
  }

  /**
   * After pages 1 to `n` the records are what each page added, concatenated
   * in page order; the requested URLs are each page's bound URL in page
   * order; and there is exactly one delay per page that added something.
   */
  lemma {:induction false} HarvestIsConcatenation(src: Source, dumps: Dumps, n: nat)
    ensures Harvest(src, dumps, n).records == Concat(AddedByPage(src, dumps, n))
    ensures Harvest(src, dumps, n).requested == Concat(RequestedByPage(src, n))
    ensures Harvest(src, dumps, n).delays == NonEmptyCount(AddedByPage(src, dumps, n))
  {
    if n > 0 {
      HarvestIsConcatenation(src, dumps, n - 1);
      HarvestConcatenatesPages(src, dumps, n);
      var pages, urls := AddedByPage(src, dumps, n), RequestedByPage(src, n);
      assert pages[..n - 1] == AddedByPage(src, dumps, n - 1);
      assert urls[..n - 1] == RequestedByPage(src, n - 1);
      assert Concat(pages) == Concat(pages[..n - 1]) + Added(src, dumps, n);
      assert Concat(urls) == Concat(urls[..n - 1]) + Requested(src, n);
    }
  }

  /** Records already collected are never removed: an earlier state's records prefix every later one's. */
  lemma {:induction false} HarvestOnlyAppends(src: Source, dumps: Dumps, m: nat, n: nat)
    requires m <= n
    ensures Harvest(src, dumps, m).records <= Harvest(src, dumps, n).records
    ensures Harvest(src, dumps, m).delays <= Harvest(src, dumps, n).delays
    decreases n - m
  {
    if m < n {
      HarvestOnlyAppends(src, dumps, m, n - 1);
    }
  }

  /**
   * Every delay belongs to a page that added at least one record, so there
   * are never more delays than records.
   */
  lemma {:induction false} DelaysAtMostRecords(src: Source, dumps: Dumps, n: nat)
    ensures Harvest(src, dumps, n).delays <= |Harvest(src, dumps, n).records|
  {
    if n > 0 {
      DelaysAtMostRecords(src, dumps, n - 1);
    }
  }

  /** A page that adds nothing changes neither the records nor the delay count. */
  lemma DroppedPageIsInvisible(src: Source, dumps: Dumps, page: nat)
    requires page >= 1
    requires Contribution(src.scrape(page), dumps).None?
    ensures Harvest(src, dumps, page).records == Harvest(src, dumps, page - 1).records
    ensures Harvest(src, dumps, page).delays == Harvest(src, dumps, page - 1).delays
  {
  }

  /** A listing page that fails to load, or loads with another status, adds nothing. */
  lemma FailedListingAddsNothing(prefix: string, cfg: Config, fetch: Fetch, dumps: Dumps, page: nat)
    requires PageUrl(prefix, cfg, page).Some?
    requires var reply := fetch(PageUrl(prefix, cfg, page).value); reply.ConnectionFailed? || reply.status != HttpOk
    ensures Contribution(ScrapePage(prefix, cfg, page, fetch), dumps).None?
  {
  }

  /** An unknown prefix raises on its one page: no request, no records, no delay. */
  lemma UnknownPrefixCollectsNothing(prefix: string, cfg: Config, fetch: Fetch, dumps: Dumps)
    requires prefix != Prf && prefix != Nof
    ensures Harvest(SourceOf(prefix, cfg, fetch), dumps, PageCount(prefix)) == Run([], 0, [])
  {
    var src := SourceOf(prefix, cfg, fetch);
    assert src.scrape(1) == Raised(UnboundLocalError);
  }

  /**
   * When page 2 of four adds nothing, the result holds what pages 1, 3 and
   * 4 added, in that order.
   */
  lemma SkippedSecondPage(src: Source, dumps: Dumps)
    requires Added(src, dumps, 2) == []
    ensures Harvest(src, dumps, 4).records == Added(src, dumps, 1) + Added(src, dumps, 3) + Added(src, dumps, 4)
  {
    var a1, a3, a4 := Added(src, dumps, 1), Added(src, dumps, 3), Added(src, dumps, 4);
    assert Harvest(src, dumps, 1).records == a1 by {
      HarvestConcatenatesPages(src, dumps, 1);
    }
    assert Harvest(src, dumps, 2).records == a1 by {
      HarvestConcatenatesPages(src, dumps, 2);
    }
    assert Harvest(src, dumps, 3).records == a1 + a3 by {
      HarvestConcatenatesPages(src, dumps, 3);
    }
    HarvestConcatenatesPages(src, dumps, 4);
  }

  /**
   * With page 2 of prf failing, the result holds what pages 1, 3 and 4
   * added, in that order.
   */
  lemma SecondPageFailure(cfg: Config, fetch: Fetch, dumps: Dumps)
    requires var reply := fetch(PrfPageUrl(cfg, 2)); reply.ConnectionFailed? || reply.status != HttpOk
    ensures var src := SourceOf(Prf, cfg, fetch);
            Harvest(src, dumps, PageCount(Prf)).records == Added(src, dumps, 1) + Added(src, dumps, 3) + Added(src, dumps, 4)
  {
    FailedListingAddsNothing(Prf, cfg, fetch, dumps, 2);
    SkippedSecondPage(SourceOf(Prf, cfg, fetch), dumps);
  }
}
