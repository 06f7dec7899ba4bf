# Job-board scraper and tech-stack tally, in Dafny

This is a Dafny model of the core of a scraper. The scraper collects job postings from two job boards, "prf" and "nof", and then tallies the technologies those postings ask for.

**Scraping a listing page**
- A listing page is fetched. Each job item on it becomes a five-field record: title, company, summary, link and tech stack.
- Some of those fields come from the item's own subpage, which is fetched per item.
- The first item that raises aborts the page.

**The page loop**
- It builds each listing URL from the site URL and two search keywords.
- It scrapes each page and drops pages that give nothing or raise.
- It serialises the tech stacks of the remaining records and concatenates the records in page order.
- It waits once after every page that contributed.

**The tally**
- It keeps the jobs whose title names both keywords.
- It parses their stored tech-stack cells and flattens them into one upper-cased list.
- It folds every language-certificate variant into `ANGOL`.
- It counts each distinct entry and orders the entries by decreasing count.

**Two scraper generations**
- The functional one, `prf_search` and `nof_search`, is what the page loop uses.
- The class-based one is a `Scraper` base class with `PrfScraper` and `NofScraper` subclasses.
- Both are modelled, and lemmas relate them.

**What the model reads in place of real pages**
- A parsed page is the answers to the selector queries the code makes (`Dom.Soup`). A node's text is its ordered text fragments.
- The web is a total function `Fetch` from URL to reply: a status and a page, or a failed request.
- Python exceptions are the `Raised` case of `Results.Outcome`, named by their Python class.

**Modules**

| module | what it holds |
|---|---|
| `Results` | `Option`, the exception kinds, `Outcome` |
| `Text` | `str.strip`, `upper`, `lower`, `in`, `str(int)` and slicing; case mapping over ASCII |
| `Dom` | parsed pages, items, replies |
| `Records` | the job record, and the record-collecting loop both generations share (`Collect`) |
| `Extraction` | tech stack, company and summary extraction, the same in both generations |
| `PrfSearch`, `NofSearch` | the functional scrapers |
| `Scrapers` | the class-based generation |
| `Orchestrator` | `perform_scraping` |
| `ValueCounts` | `value_counts`: the count of each distinct entry and the order it lists them in |
| `Analysis` | `preprocess_tech_stack` and `analyze_tech_stack` |

**Record loops, scraper objects and the page loop**
- The record loop (`Records.CollectRecords`, which all three record extractors call) and the summary search are `while` loops. Each is proved equal to a specification function: `Records.Collect` or `Extraction.SummaryOf`.
- A `Scraper` object only holds the URL it was built with and never changes it, so it is a value (`Scrapers.Scraper`).
- The page loop is the method `Orchestrator.RunPages`. It is proved equal to `Orchestrator.Harvest`, the state after pages 1 to n.

## Model

| member | source | states |
|---|---|---|
| Text.TrimLeft | scripts/prf_search.py:32 | the result is a suffix of the input, everything dropped is whitespace, and it does not start with whitespace |
| Text.TrimRight | scripts/prf_search.py:32 | the result is a prefix of the input, everything dropped is whitespace, and it does not end with whitespace |
| Text.Strip | scripts/prf_search.py:32 | `.strip()` neither starts nor ends with whitespace |
| Text.StripOnlyDropsWhitespace | scripts/prf_search.py:32 | `.strip()` is an infix of its input, and all it cuts off at both ends is whitespace |
| Text.StripKeepsTrimmed | scripts/prf_search.py:32 | a string without whitespace at either end is left unchanged |
| Text.StripIdempotent | scripts/nof_search.py:57 | stripping twice equals stripping once |
| Text.Upper | scripts/analyze_data.py:55 | `.upper()` keeps the length and maps each character to upper case |
| Text.Lower | scripts/main.py:37 | `.lower()` keeps the length and maps each character to lower case |
| Text.UpperIsNormal | scripts/analyze_data.py:55 | an upper-cased string has no lower-case letter, and upper-casing it again changes nothing |
| Text.ContainsIffOccurs | scripts/analyze_data.py:58 | `sub in s` holds exactly when `sub` occurs at some offset of `s` (both directions) |
| Text.ContainsNeedsFirstChar | scripts/analyze_data.py:58 | a substring cannot occur where its first character never does |
| Text.Take | scripts/nof_search.py:15 | `s[:n]` has length `min(len(s), n)` and is a prefix of `s` |
| Text.Decimal | scripts/main.py:37 | `str(n)` is a non-empty run of digits with no leading zero |
| Text.DecimalRoundTrip | scripts/main.py:37 | reading back the digits of `str(n)` gives `n` |
| Dom.GetText | scripts/nof_search.py:57 | `.text`: the node's text strings run together; `GetTextAppend` states it |
| Dom.GetTextAppend | scripts/nof_search.py:57 | the text of two runs of strings is their texts run together, in document order |
| Dom.GetTextStripped | scripts/pagescrapers/nof_scraper.py:54 | `get_text(strip=True)`; `StrippedTextStripsEachFragment` states it |
| Dom.StrippedTextStripsEachFragment | scripts/pagescrapers/nof_scraper.py:54 | `get_text(strip=True)` strips every text string, then runs them together; it does not strip the joined text |
| Dom.StrippedTexts | scripts/prf_search.py:62 | one stripped text per node, in node order |
| Records.Collect | scripts/prf_search.py:13-44 | the record list is `Ok` iff every item extracts; then it has one record per item, in item order |
| Records.CollectKeepsFirstError | scripts/base_scraper.py:50-69 | once some prefix of the items raises, the whole loop raises the same exception |
| Records.CollectRaisesFirstError | scripts/base_scraper.py:50-69 | the exception raised is the one of the first item that raises |
| Records.CollectRecords | scripts/base_scraper.py:46-71 | the loop that appends one record per item computes `Collect`: every record in item order, or the first item's exception |
| Extraction.PrfTechStack | scripts/prf_search.py:48-68 | without the image or the next div the stack is empty; otherwise there is one stripped span text per span, in order |
| Extraction.NofTechStack | scripts/nof_search.py:46-60 | raises `AttributeError` exactly when the musts section is missing; otherwise there is one stripped `li` text per item, in order |
| Extraction.NofCompany | scripts/nof_search.py:91 | raises exactly when the company anchor is missing; otherwise gives the anchor's stripped text |
| Extraction.SummaryOf | scripts/nof_search.py:63-82 | the search's result; `SummaryIsFirstQualifying` and `SummaryEmptyWithoutQualifying` state what it is |
| Extraction.SummaryIsFirstQualifying | scripts/nof_search.py:68-77 | the summary is the read-more text of the first heading that holds "projekt r" and has a read-more div |
| Extraction.SummaryEmptyWithoutQualifying | scripts/nof_search.py:63-82 | with no qualifying heading the summary stays "" |
| Extraction.ExtractJobSummary | scripts/nof_search.py:63-82 | the loop with `break` computes `SummaryOf` |
| PrfSearch.ScrapeSubpage | scripts/prf_search.py:72-80 | raises iff the request fails; `Some` iff the status is 200, and then it holds the page's tech stack |
| PrfSearch.ItemRecord | scripts/prf_search.py:20-42 | succeeds iff the card has its text div and a linked subpage request does not fail; attributes map to title, company and link; the summary is the stripped card text, overwriting the brand; the tech stack is the subpage's, `None` without a link |
| PrfSearch.ExtractJobInfo | scripts/prf_search.py:13-44 | the loop over the cards computes `Collect` of `ItemRecord` |
| PrfSearch.ScrapeMainPage | scripts/prf_search.py:84-93 | a failed request raises; a non-200 status gives `None`; 200 gives the card records or the first card's exception |
| PrfSearch.OneRecordPerCard | scripts/prf_search.py:84-93 | a loaded page's table has exactly one record per card, each built by `ItemRecord` |
| NofSearch.LinkBase | scripts/nof_search.py:15 | the link base is the first 23 characters of the site URL, or all of a shorter one |
| NofSearch.ScrapeSubpage | scripts/nof_search.py:85-96 | a failed request raises; a non-200 status gives ("", "", []); 200 succeeds iff musts section and company anchor exist, giving company, summary and tech stack |
| NofSearch.ItemRecord | scripts/nof_search.py:24-41 | a missing `h3` raises; without `href` there are four `None` fields; with `href` the link is base + href and the subpage fills the rest, or its exception propagates |
| NofSearch.ExtractJobInfo | scripts/nof_search.py:18-43 | the loop over the anchors computes `Collect` of `ItemRecord` |
| NofSearch.ScrapeMainPage | scripts/nof_search.py:99-111 | never `None`: a non-200 status gives an empty table; 200 gives the anchor records or the first exception |
| NofSearch.FailedSubpageDegrades | scripts/nof_search.py:94-96 | a subpage answering non-200 leaves title and link and fills company, summary and tech stack with "", "" and [] |
| Scrapers.FindJobItems | scripts/pagescrapers/prf_scraper.py:11-13 | the prf cards or the nof posting anchors; `ExtractJobInfo` collects one record per item it finds |
| Scrapers.TechStackHook | scripts/pagescrapers/nof_scraper.py:26-40 | raises exactly for a nof page without a musts section; a prf page never raises |
| Scrapers.SummaryHook | scripts/base_scraper.py:34-37 | "" for prf (the base default), the heading search for nof; its meaning is stated by `SummaryIsFirstQualifying` |
| Scrapers.CompanyHook | scripts/base_scraper.py:39-42 | raises exactly for a nof page without the company anchor; prf keeps the base default "" |
| Scrapers.ScrapeSubpage | scripts/base_scraper.py:73-86 | a failed request raises; non-200 gives ("", "", []); 200 gives the three hooks' values, or the exception of the first hook that raises (tech stack before company) |
| Scrapers.PrfSubpageGivesOnlyTechStack | scripts/base_scraper.py:34-42 | a prf scraper keeps the default "" company and summary and raises only on a failed request |
| Scrapers.PrfJobInfoData | scripts/pagescrapers/prf_scraper.py:15-29 | succeeds iff text div, all three attributes and the subpage succeed; a missing title raises `UnboundLocalError`; the fields are as in the functional generation, with the tech stack as component 2 of the subpage triple |
| Scrapers.NofJobInfoData | scripts/pagescrapers/nof_scraper.py:16-24 | a missing `h3` raises `AttributeError`; a missing `href` raises `UnboundLocalError`; otherwise the record is the title, the base + href link and the subpage triple |
| Scrapers.JobInfoData | scripts/base_scraper.py:53-59 | a record this generation returns has all five fields set |
| Scrapers.ExtractJobInfo | scripts/base_scraper.py:44-71 | the loop over `find_job_items` computes `Collect` of `get_job_info_data` |
| Scrapers.ScrapeMainPage | scripts/base_scraper.py:88-100 | a failed request raises; non-200 gives an empty table; 200 gives the records or the first exception |
| Scrapers.RecordsAreComplete | scripts/base_scraper.py:52-69 | every record of a scraped page has all five fields set |
| Scrapers.PrfGenerationsAgree | scripts/pagescrapers/prf_scraper.py:15-29 | on a fully attributed card both prf generations succeed together and agree on title, company, summary and link; tech stack `None` becomes [] |
| Scrapers.NofGenerationsAgree | scripts/pagescrapers/nof_scraper.py:16-24 | with `href` both nof generations build the same record; without it the functional one succeeds and the class one raises |
| Scrapers.SingleFragmentText | tests/test_nof_scraper.py:54-58 | a one-fragment node without outer whitespace reads back as its text, stripped or not |
| Scrapers.ExampleCardAttributes | tests/test_prf_scraper.py:39-52 | the test card carries title, brand and link attributes with the test's values |
| Scrapers.SingleFragmentTexts | tests/test_nof_scraper.py:32-41 | nodes that each hold one text without outer whitespace read back as those texts |
| Scrapers.PrfCardExample | tests/test_prf_scraper.py:39-52 | the test card gives "Job Title 1", "Company 1", "Job Summary 1" and its link |
| Scrapers.NofTechStackExample | tests/test_nof_scraper.py:32-41 | the musts items "Technology 1" and "Technology 2" give exactly those |
| Scrapers.ExampleHeadingQualifies | tests/test_nof_scraper.py:44-51 | the test heading holds the marker and has a read-more div reading "Job Summary Text" |
| Scrapers.HeadingHoldsMarker | scripts/pagescrapers/nof_scraper.py:49 | "projekt rövid leírása" contains the marker "projekt r" |
| Scrapers.NofSummaryExample | tests/test_nof_scraper.py:44-51 | the test heading gives the summary "Job Summary Text" |
| Scrapers.NofCompanyExample | tests/test_nof_scraper.py:54-58 | the company anchor with "Company Name" gives that name |
| Orchestrator.PageCount | scripts/main.py:34 | at least one page is scraped |
| Orchestrator.PrfPageUrl | scripts/main.py:37 | the prf listing URL; `PrfPageUrlNamesPage` states its parts |
| Orchestrator.NofPageUrl | scripts/main.py:40 | the nof listing URL; `NofPageUrlNamesPage` states its parts |
| Orchestrator.PrfPageUrlNamesPage | scripts/main.py:37 | a prf URL is the site URL, the page number (which reads back as the page), then the lower-cased keyword query |
| Orchestrator.NofPageUrlNamesPage | scripts/main.py:40 | a nof URL is the keyword query with the page number at its end, which reads back as the page |
| Orchestrator.PageUrl | scripts/main.py:36-41 | a URL is bound iff the prefix is "prf" or "nof" |
| Orchestrator.ScrapePage | scripts/main.py:36-44 | an unknown prefix raises `UnboundLocalError` (the unbound `scrape_function`; `URL` is unbound too); only prf can answer `None` |
| Orchestrator.Serialize | scripts/main.py:48-50 | one stored record per record; four fields kept and the tech stack replaced by its JSON text |
| Orchestrator.Contribution | scripts/main.py:44-56 | a page contributes iff its scrape returned a non-empty table (`None`, exceptions and the empty table's `KeyError` add nothing); then its serialised records |
| Orchestrator.Harvest | scripts/main.py:34-62 | after n pages there are at most n delays and at most n requested URLs |
| Orchestrator.RunPages | scripts/main.py:34-62 | the loop's records, delay count and requested URLs equal `Harvest` after the last page |
| Orchestrator.PerformScraping | scripts/main.py:28-62 | `perform_scraping` runs the loop over `PageCount(prefix)` pages of the selected source |
| Orchestrator.PagesRequested | scripts/main.py:34-41 | prf requests pages 1 to 4, nof page 1, any other prefix nothing |
| Orchestrator.BoundPagesRequested | scripts/main.py:34-41 | when pages 1 to n each bind a URL, the loop requests exactly those URLs, in page order |
| Orchestrator.HarvestIsConcatenation | scripts/main.py:34-62 | after n pages the records are each page's added records concatenated in page order, the requested URLs are each page's URL in page order, and there is one delay per page that added something |
| Orchestrator.HarvestOnlyAppends | scripts/main.py:54-56 | earlier records are a prefix of later ones; delays never decrease |
| Orchestrator.DelaysAtMostRecords | scripts/main.py:46-59 | every delay belongs to a page that added records, so there are never more delays than records |
| Orchestrator.DroppedPageIsInvisible | scripts/main.py:42-62 | a page that adds nothing changes neither the records nor the delays |
| Orchestrator.FailedListingAddsNothing | scripts/main.py:42-62 | a listing request that fails or answers non-200 adds nothing, for either site |
| Orchestrator.UnknownPrefixCollectsNothing | scripts/main.py:36-44 | an unknown prefix requests nothing, collects nothing and waits nothing |
| Orchestrator.SkippedSecondPage | scripts/main.py:34-62 | if page 2 of four adds nothing, the result holds pages 1, 3 and 4 in that order |
| Orchestrator.SecondPageFailure | scripts/main.py:42-62 | a failing prf page 2 leaves pages 1, 3 and 4 in that order |
| ValueCounts.Counts | scripts/analyze_data.py:60-61 | the counted entries are exactly those in the list |
| ValueCounts.CountsAreMultiplicities | scripts/analyze_data.py:60-61 | each count is the entry's multiplicity, at least 1 |
| ValueCounts.Distinct | scripts/analyze_data.py:60-61 | the distinct entries are exactly the list's entries |
| ValueCounts.DistinctHasNoDuplicates | scripts/analyze_data.py:60-61 | no entry is listed twice |
| ValueCounts.SumCountsUpdateOutside | scripts/analyze_data.py:60-61 | changing an unlisted entry's count leaves the sum alone |
| ValueCounts.SumCountsIncrement | scripts/analyze_data.py:60-61 | incrementing the count of an entry listed once increments the sum |
| ValueCounts.RepeatedEntryAddsOne | scripts/analyze_data.py:60-61 | counting a repeated entry once more adds one to the sum over the distinct entries |
| ValueCounts.NewEntryAddsOne | scripts/analyze_data.py:60-61 | listing a new entry with count 1 adds one to the sum over the distinct entries |
| ValueCounts.CountsSumToLength | scripts/analyze_data.py:60-61 | the counts add up to the list's length |
| ValueCounts.InsertByCount | scripts/analyze_data.py:61 | one ranking step; `InsertAddsEntry`, `InsertBounded` and `InsertKeepsRanking` state it |
| ValueCounts.InsertAddsEntry | scripts/analyze_data.py:61 | inserting adds exactly the one entry (multiset) |
| ValueCounts.InsertBounded | scripts/analyze_data.py:61 | inserting keeps every count within a common bound |
| ValueCounts.InsertKeepsRanking | scripts/analyze_data.py:61 | inserting into a list ranked by count keeps it ranked |
| ValueCounts.Rank | scripts/analyze_data.py:61 | the `value_counts` order; `RankIsPermutation` and `RankIsRanked` state it |
| ValueCounts.RankIsPermutation | scripts/analyze_data.py:61 | the ranking lists each entry exactly as often as the keys do |
| ValueCounts.RankIsRanked | scripts/analyze_data.py:61 | the ranking lists entries by non-increasing count |
| Analysis.KeepRow | scripts/analyze_data.py:47-48 | a row is kept iff each lower-cased keyword occurs at some position of the lower-cased title |
| Analysis.TitleMask | scripts/analyze_data.py:46-49 | one flag per row, set iff the title contains both keywords, ignoring case |
| Analysis.Select | scripts/analyze_data.py:46 | boolean indexing keeps at most the rows it is given |
| Analysis.SelectMembers | scripts/analyze_data.py:46 | an entry is selected iff it sits at a position the mask marks |
| Analysis.SelectAppend | scripts/analyze_data.py:46 | selection distributes over concatenation of rows and masks |
| Analysis.FilterByTitle | scripts/analyze_data.py:46-49 | the filter keeps at most the rows it is given |
| Analysis.FilterByTitleMembers | scripts/analyze_data.py:46-49 | a row is kept iff it is one of the rows and its title contains both keywords, ignoring case |
| Analysis.FilterByTitleAppend | scripts/analyze_data.py:46-49 | filtering distributes over concatenation, so kept rows keep their order |
| Analysis.TechColumn | scripts/analyze_data.py:52 | the column holds each kept row's tech-stack cell, in row order |
| Analysis.ParseAll | scripts/analyze_data.py:36-38 | succeeds iff every string cell parses; non-strings pass through and strings become their parse |
| Analysis.Preprocess | scripts/analyze_data.py:31-41 | `IndexError` iff the column is empty; `UnboundLocalError` iff a string cell fails to parse; no other error; otherwise the parsed column |
| Analysis.Elements | scripts/analyze_data.py:55 | iterating one cell yields as many entries as `ElementCount` counts for it; a string yields its characters one at a time, in order |
| Analysis.UpperAll | scripts/analyze_data.py:55 | each entry upper-cased, same length |
| Analysis.Flatten | scripts/analyze_data.py:54-56 | the flat list has as many entries as the non-missing cells hold |
| Analysis.FlattenIsUpper | scripts/analyze_data.py:54-56 | every flattened entry is already upper-case |
| Analysis.ConcatMapAppend | scripts/analyze_data.py:54-56 | a nested comprehension over two runs of cells is the comprehension over each run, concatenated |
| Analysis.FlattenAppend | scripts/analyze_data.py:54-56 | flattening distributes over concatenation |
| Analysis.FlattenSkipsMissing | scripts/analyze_data.py:55 | a missing cell contributes nothing (`dropna`) |
| Analysis.Canonical | scripts/analyze_data.py:58 | an entry becomes "ANGOL" iff it contains "ANGOL"; any other entry is kept |
| Analysis.NormalizeAngol | scripts/analyze_data.py:58 | an entry becomes "ANGOL" iff it contains "ANGOL"; others are kept |
| Analysis.NormalizeAngolIdempotent | scripts/analyze_data.py:58 | folding twice equals folding once |
| Analysis.Summarize | scripts/analyze_data.py:54-61 | the list has one entry per parsed entry; counts cover exactly its entries; the ranking is a permutation of its distinct entries |
| Analysis.NothingKeptIff | scripts/analyze_data.py:46-52 | the filtered frame is empty iff no row's title contains both keywords |
| Analysis.UnparsableKeptIff | scripts/analyze_data.py:36-52 | the kept column holds a string the parser rejects iff some kept row has such a cell |
| Analysis.AnalyzeTechStack | scripts/analyze_data.py:44-66 | `IndexError` iff no title matches; `UnboundLocalError` iff a matching row's string cell fails to parse; no other error; otherwise the tally is `Summarize` of the parsed kept column, so `SummaryAccountsForEveryEntry` applies to it |
| Analysis.SummaryAccountsForEveryEntry | scripts/analyze_data.py:54-61 | counts are multiplicities, they sum to the list's length, and the ranking is by decreasing count |
| Analysis.ExampleUpperCases | tests/test_analyze_data.py:25 | the example's entries upper-case to PYTHON, SQL, JAVA and ANGOL (B2) |
| Analysis.ExampleFirstRow | tests/test_analyze_data.py:25 | ["Python", "SQL"] flattens to PYTHON, SQL |
| Analysis.ExampleSecondRow | tests/test_analyze_data.py:25 | the second list appends JAVA, PYTHON, ANGOL (B2) |
| Analysis.ExampleFlattens | tests/test_analyze_data.py:24-25 | the three lists flatten to PYTHON, SQL, JAVA, PYTHON, ANGOL (B2) |
| Analysis.ExampleNormalizes | tests/test_analyze_data.py:133 | only "ANGOL (B2)" is folded into "ANGOL" |
| Analysis.ExampleCountsOfThree | tests/test_analyze_data.py:134-136 | the first three entries are counted once each |
| Analysis.ExampleCounts | tests/test_analyze_data.py:134-136 | PYTHON is counted 2, SQL, JAVA and ANGOL 1 each |
| Analysis.ExampleDistinctOfThree | tests/test_analyze_data.py:134-136 | the first three entries are all distinct |
| Analysis.ExampleDistinct | tests/test_analyze_data.py:134-136 | the distinct entries are PYTHON, SQL, JAVA, ANGOL |
| Analysis.ExampleRankingOfTwo | tests/test_analyze_data.py:134-136 | ranking PYTHON, SQL keeps that order |
| Analysis.ExampleRankingOfThree | tests/test_analyze_data.py:134-136 | ranking PYTHON, SQL, JAVA keeps that order |
| Analysis.ExampleInsertAngol | tests/test_analyze_data.py:134-136 | ANGOL, counted once, goes after PYTHON, SQL and JAVA |
| Analysis.ExampleRanking | tests/test_analyze_data.py:134-141 | PYTHON comes first and the entries counted once keep their order |
| Analysis.ThreeRowExample | tests/test_analyze_data.py:116-141 | the three example lists give the expected list, counts and order |

## Left out

- Real HTTP requests, request headers and HTML parsing are not modelled. A fetch is the `Fetch` parameter, and a page is the answers to the selector queries the code makes. Any status other than 200 is treated alike.
- Sleep durations and their randomness (`random.uniform(5, 10)`) are left out. The model counts `time.sleep` calls only.
- `json.dumps` and `ast.literal_eval` are parameters (`Dumps`, `Parser`). No JSON syntax is modelled.
- The end of `perform_scraping` is not modelled: the SQL and CSV writes and the logging after the loop. Neither is the `print` of the first serialised cell inside the loop, which is output only. The model hands over the concatenated records.
- `fetch_data_from_db` and `visualize_tech_stack` are left out (database reads and plotting). So are the scripts' entry points, environment reading and the `common_utils` helpers.
- `scripts/scrapers.py` is an older copy of the class-based generation and is not modelled separately. `Scrapers` models `base_scraper.py` with the `pagescrapers` subclasses.
- Text.Upper, Text.Lower: case mapping covers ASCII letters only. Python's Unicode case tables (such as 'é' to 'É', or 'ß' to "SS") are not modelled. Whitespace, by contrast, is Python's full `str.isspace` set.
- Analysis.KeepRow: `str.contains(kw, case=False)` is modelled as a plain case-insensitive substring test. The keywords are not treated as regular expressions, and a missing title (NaN) is not modelled.
- Analysis.Elements: a parsed cell is missing, a string or a list of strings. A cell whose `literal_eval` gave a string is iterated character by character, as Python does, each character upper-cased. A parse result of any other shape (`literal_eval("5")` gives an int, whose iteration at scripts/analyze_data.py:55 raises `TypeError` outside the `try`) cannot be expressed by `Cell`.
- ValueCounts.Rank: when counts tie, `value_counts` makes no promise about order. The model keeps entries in the order they were first met.
- Delays: the code sleeps once after every page that contributed records, including the last page. It does not sleep after a page that failed or added nothing. The model follows the code, not the rule of one delay between every two consecutive pages.
- Scrapers.ScrapeMainPage: the scraper's own URL is fetched, and the class generation's `NOF_URL` environment read is the `siteUrl` parameter.
